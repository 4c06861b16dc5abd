# Verified model of the orcr orchestrator

`orcr` runs coding agents in terminal panes. One server process owns an SQLite store; a queue worker, spawn
pipelines, a completion monitor, a garbage collector, a loop scheduler and request handlers all work from reads that
may be stale and then commit one transaction. This project models those transactions and threads in Dafny and proves
what they promise.

## How it is organised

The store comes first.

- `Rows` and `EventLog`: the rows of the tables, and the AUTOINCREMENT event log that is trimmed from the old end.
- `AgentTx` and `LoopTx`: every transaction as a function from tables to tables and events, with the guards of its SQL
  and the aborts of the partial unique indexes.
- `AgentLaws` and `LoopLaws`: what each transaction reads, writes and logs, column by column.
- `Store`: the store as a class. Its methods change the tables in place, statement by statement, and are proved to
  commit exactly those effects. Every other module reasons about the effects.
- `AgentOps` and `LoopOps`: any interleaving of transactions with arbitrary arguments. A stale reader needs no model of
  its own, because every argument a stale read could produce is covered.

On top of them stand the whole-run results.

- `Promotion`, `AgentQueue`: the greedy two-level promotion is a maximum, fair, and keeps both caps.
- `Capacity`: who can take a slot without being promoted, and that nobody is promoted twice.
- `TurnEpochs`, `Completion`: a stale idle report never satisfies a newer send; the monitor's clocks.
- `PaneMoves`, `Gc`: the crash-safe two-phase pane move, with herdr as an adversary, and what the code paths that run
  it (park, un-park, recovery, reap, send) leave behind.
- `MoveProgress`: no move lock is held forever, and a crash leaves every interrupted move to a recovery that settles it.
- `Replay`: the event log is a replayable view of every status.
- `LoopOps`, `FireAccounting`, `Scheduler`: loop slots, run lifecycle, and each scheduled fire accounted for across
  crashes and restarts.
- `EventPump`: retention, the in-memory bus, and what a subscriber is delivered.
- `Witnesses`: runs from an empty store that reach the situations in which the conditional results below fail.

The algorithmic pieces are `Paths` (path grammar and globs), `TopTree` (the live tree), `EditDistance`, `Calendar` and
`Cron`, `Wire` (framing), `AgentName` and `LogRotation`.

## What the proofs say about the code

Most documented promises hold as stated. These hold only under a condition, which the named lemma makes exact.

- A move recovery settles its agent exactly when herdr answered with workspace labels or the missing answer happens to
  be right. Without labels it takes the pane for "not in idle" and rolls back; without a pane listing it marks an agent
  lost whose pane is alive (`PaneMoves.RecoveryNeedsLabels`, reached by `Witnesses.RecoveredOnTheWrongSide`).
- Exactly the unlocked writes that make a parked, lost or ended agent active again leave its pane behind in `idle`; the
  monitor makes them when it marks a parked agent blocked or working (`PaneMoves.BlindWriteUnsettles`, reached by
  `Witnesses.BlockedWhileParked`).
- A delivery is never answered by a stale idle exactly when no pane move is in flight. A send settles any move under the
  lock and a spawn pipeline delivers to a starting agent, which nobody moves; the monitor's external turn can meet a
  move and be followed by `parked` with its turn open (`TurnEpochs.SendIsNeverSatisfiedByStaleIdle`, reached by
  `Witnesses.ExternalTurnDuringPark`).
- An idle streak from before a delivery completes the new turn exactly when the fast-turn grace has passed, so a grace
  of zero gives no protection (`Completion.OldStreakCompletes`, reached by `Witnesses.OldStreakHappens`).
- A slot is taken past the limits exactly by a revival (`Capacity.RevivalOverruns`). Under the threads' discipline the
  only revival left is a move that finishes after a closing write met it in flight (`Capacity.LateFinishIsExact`);
  `kill` makes such writes (`Witnesses.KilledAgentIsParked`).
- A drain is gap-free exactly when the event wanted next has not been trimmed as it starts (`EventPump.DrainIsGapFree`).
  The expiry check asks the bus, which hears of a trim after the store lock is released; two reports in the wrong order
  leave it behind until a later publish trims and reports again (`EventPump.LateReportMovesBusBack`, reached by
  `EventPump.LateReportsHappen`).
- A resume keeps the cron promise exactly when the next fire it writes is later than every occurrence that has fired. It
  reads the clock before it gets the store, so a fire can commit in between (`FireAccounting.RescheduleIsExact`, reached
  by `FireAccounting.StaleRescheduleHappens`).
- A cron step so large that the first addition overflows 32 bits marks values below its range (`Cron.TermDenotes`).
- The search finds a next fire from every instant exactly when the expression recurs: an allowed time on a date or a
  weekday that comes every year (`Cron.FoundIffRecurs`). The comment that four years suffice for any legal expression
  fails for those that match on 29 February only (`Cron.OthersNeverMatchOrLeap`).
- A path under `idle` can hide a parked agent in the tree (`TopTree.TreeShowsTheListing`); the reserved name prevents it.

## Model

| member | source | states |
|---|---|---|
| EventLog.TrimKeepsNewest | src/store/mod.rs:1634-1651 | trimming leaves exactly the newest `keep` rows, still consecutively numbered, and never lowers the oldest number |
| EventLog.SinceSpec | src/store/mod.rs:1558-1582 | a reader gets consecutive rows starting right after its cursor, or at the oldest row when those were trimmed, and as many as there are up to the limit |
| Store.Store.constructor | src/store/mod.rs:22-58 | a new store has empty tables and an empty log |
| Store.Store.Emit | src/store/mod.rs:2355-2367 | one event is appended under the next number, which is returned |
| Store.Store.EventsSince | src/store/mod.rs:1558-1582 | the scan returns exactly the rows above the cursor, oldest first, up to the limit |
| Store.Store.TrimEvents | src/store/mod.rs:1634-1651 | exactly the rows at or below the newest number minus `keep` are deleted; the lowest remaining number, or 0, is returned |
| Store.Store.NextQueueSeq | src/store/mod.rs:165-171 | the number after the largest queue number ever handed out |
| Store.Store.EnqueueAgent | src/store/mod.rs:134-209 | a path held by a non-ended agent, or a known uuid, is refused without any change; otherwise the row is queued under a fresh queue number with its created event |
| Store.Store.QueuedInOrder | src/store/mod.rs:252-266 | the queued rows in ascending queue number |
| Store.Store.RunPass | src/store/mod.rs:268-297 | the loop with its two counters and its early break ends where the candidate-by-candidate pass over the whole queue ends |
| Store.PassPromotes | src/store/mod.rs:216-305 | that pass, started from the live counts, is the promotion transaction: same rows, same events, same result list |
| Store.Store.PromoteQueued | src/store/mod.rs:216-305 | the transaction commits the greedy promotion and returns the promoted agents in queue order |
| Store.SelectedIsChosen | src/store/mod.rs:296-304 | the returned list contains exactly the promoted agents |
| Store.Store.RecordLocation | src/store/mod.rs:383-411 | writes the location and logs it, also for a row that is gone |
| Store.Store.TransitionStatus | src/store/mod.rs:431-470 | moves any present row without a status guard; reports a missing row; an abort changes nothing |
| Store.Store.EndIfStatus | src/store/mod.rs:477-515 | ends the row exactly when it still has the given status, and clears its move lease |
| Store.Store.RequestCancel | src/store/mod.rs:519-531 | sets the cancel flag and reports whether the row existed |
| Store.Store.LatestTurn | src/store/mod.rs:550-561 | the highest turn number of an agent, none exactly when it has no turn |
| Store.Store.SetWorkingSeen | src/store/mod.rs:565-581 | stamps the turn once and always stops the idle clock |
| Store.Store.SetIdleSince | src/store/mod.rs:585-596 | sets or clears the idle clock of a present row |
| Store.Store.DeliverInput | src/store/mod.rs:604-643 | opens the next turn of a row that is not ended or lost, and says `None` exactly for the others |
| Store.Store.OpenExternalTurn | src/store/mod.rs:678-694 | delivers as external and stamps the same turn as seen working |
| Store.Store.SettlePrimedIdle | src/store/mod.rs:650-673 | settles a row to idle only while it is still starting |
| Store.Store.CompleteTurn | src/store/mod.rs:697-746 | closes an open turn; flips working to idle and logs only while that turn is the newest |
| Store.Store.CompleteTurnRow | src/store/mod.rs:751-778 | closes an open turn and logs it without touching the status |
| Store.Store.MarkBlocked | src/store/mod.rs:782-809 | blocks any row that is not blocked, whatever its status, and stamps the turn in any case |
| Store.Store.MarkWorking | src/store/mod.rs:813-836 | turns idle, blocked or parked back to working and nothing else |
| Store.Store.RearmIdleClocks | src/store/mod.rs:960-976 | two updates over all rows: busy managed rows lose their idle clock, idle ones get a new one |
| Store.Store.BeginMove | src/store/mod.rs:1054-1076 | wins the move lease exactly when the status matches and no move is in flight |
| Store.Store.FinishPark | src/store/mod.rs:1083-1124 | parks the row exactly when the token still matches, returning 0 exactly otherwise |
| Store.Store.FinishUnpark | src/store/mod.rs:1130-1172 | un-parks the row exactly when the token still matches, returning 0 exactly otherwise |
| Store.Store.RollbackMove | src/store/mod.rs:1177-1189 | drops the lease exactly when the token still matches and leaves the status |
| Store.Store.InsertUnmanaged | src/store/mod.rs:1435-1487 | inserts a discovered row with its event, or nothing on a conflict |
| Store.Store.UpdateUnmanaged | src/store/mod.rs:1492-1538 | refreshes the pane, logs only a status change, and takes the refresh back when the status change aborts |
| Store.Store.CreateLoop | src/store/mod.rs:1695-1756 | a name held by an active or paused loop is refused; otherwise the loop is active and logged |
| Store.Store.SetLoopStatus | src/store/mod.rs:1843-1872 | writes the status of a present loop, clears the schedule of an ended one, and logs in any case |
| Store.Store.AllocateRun | src/store/mod.rs:1928-2080 | drops, folds or inserts the fire by capacity and overlap, and advances the schedule in the same transaction |
| Store.Store.ClaimPendingRun | src/store/mod.rs:2130-2175 | starts the earliest pending run when a slot is free, and nothing exactly when there is no slot or no pending run |
| Store.Store.RecordRunStart | src/store/mod.rs:2088-2122 | fills in the process of a running or stopping run and leaves its status |
| Store.Store.FinishRun | src/store/mod.rs:2179-2213 | finishes a running or stopping run once and logs its end |
| Store.Store.SetRunStopping | src/store/mod.rs:2217-2237 | only a running run enters the stop barrier |
| Store.Store.CancelPendingRun | src/store/mod.rs:2241-2261 | only a pending run is canceled, and its end is logged |
| AgentLaws.EnqueueLaw | src/store/mod.rs:134-209 | a queued row gets a number above all handed out before, and nothing happens exactly when a non-ended row holds the path or the uuid is known |
| AgentLaws.TransitionLaw | src/store/mod.rs:431-470 | status and given reason are written, everything else stays, and only a missing row or a rival for the path stops it |
| AgentLaws.EndIfLaw | src/store/mod.rs:477-515 | the row ends with its lease cleared exactly when it still has the expected status |
| AgentLaws.DeliverLaw | src/store/mod.rs:604-643 | the next number, a working row with clock and block cleared, and a fresh turn of that number |
| AgentLaws.CompleteLaw | src/store/mod.rs:697-746 | an open turn is closed once; the agent becomes idle, and it is logged, exactly when it was working and the turn was its newest |
| AgentLaws.BlockLaw | src/store/mod.rs:782-809 | turn and row are stamped, unless another non-ended row holds the path, and only a status change is logged |
| AgentLaws.MarkWorkingLaw | src/store/mod.rs:813-836 | only idle, blocked and parked rows become working |
| AgentLaws.FinishLaw | src/store/mod.rs:1083-1172 | a finish needs the token and a path nobody took; it writes status, location, clock and lease |
| AgentLaws.RearmLaw | src/store/mod.rs:960-976 | the clocks of managed busy agents stop, those of managed idle ones start, all others stay |
| LoopLaws.FireStartsWhenFree | src/store/mod.rs:1928-2080 | for any kind of fire a new run is inserted unless the fire is absorbed, running exactly when fewer than the maximum are running or stopping |
| LoopLaws.AbsorbedFire | src/store/mod.rs:1960-2035 | a scheduled fire at capacity is dropped, or moves the due time of the waiting run to the earlier of the two |
| LoopLaws.FireAdvances | src/store/mod.rs:2040-2080 | a once loop ends, a cron loop gets its next fire, a manual fire leaves the schedule |
| LoopLaws.ClaimLaw | src/store/mod.rs:2130-2175 | a claim starts a run only in a free slot and only when none of the loop has waited longer |
| LoopLaws.SetStatusLaw | src/store/mod.rs:1843-1872 | ending clears the schedule, and a taken name stops a revival |
| AgentOps.ApplyKeepsInv | src/store/mod.rs:113-1540 | every agent transaction, with any arguments its callers may hold, keeps queue numbers unique, active paths unique, turn rows exactly 1 to `input_seq` and leases paired with tokens; rows are never deleted and never return to the queue |
| AgentOps.RunEvolves | src/store/mod.rs:113-1540 | over any run an agent keeps its identity and its turn numbers only grow |
| Promotion.GreedyIsMaximum | src/store/mod.rs:268-297 | no feasible selection of the queue promotes more than the greedy one |
| Promotion.GreedyIsFeasible | src/store/mod.rs:268-297 | the greedy selection overruns neither the global maximum nor a provider cap it draws on |
| Promotion.GreedyIsFifo | src/store/mod.rs:268-297 | within a provider the promoted entries are a prefix of the queue |
| Promotion.LeftOnlyWhenFull | src/store/mod.rs:268-297 | an entry stays queued only when the fleet or its provider is full after the whole pass |
| AgentQueue.PromotionIsOptimal | src/store/mod.rs:216-305 | the rows the transaction promotes keep all caps, counting the agents already live, and no other choice of queued rows that does is larger |
| AgentQueue.PromotionIsFair | src/store/mod.rs:211-215 | first in, first out per provider; a row is left queued only when a limit it needs is spent |
| AgentQueue.CapsAreKept | src/store/mod.rs:216-305 | on the rows and with the caps read from the configured map: no promotion overruns the maximum or a cap it draws on, a row is left queued only when one of these is spent, and a provider without a cap is bounded by the maximum alone |
| AgentQueue.LowerNumberFirst | src/store/mod.rs:252-266 | of two queued rows of a provider the one with the lower number is promoted first |
| AgentQueue.PromoteRow | src/store/mod.rs:278-284 | exactly the promoted rows become starting, and each of them was queued |
| Capacity.OnlyRevivalAddsLive | src/store/mod.rs:431-836 | apart from promotion a transaction adds a live managed agent if and only if it revives a dormant row, and then exactly that one |
| Capacity.SlotsStayBounded | src/store/mod.rs:216-305 | over whole runs without revivals the live managed agents, in all and per provider, never exceed the larger of the initial count and the limit |
| Capacity.DisciplineKeepsLimits | src/server/engine.rs:940-1000 | the same bound for threads whose unguarded writes of an active status act on the status they read, while deliveries and new locations may rest on a read of any age, as long as no move finishes late |
| Capacity.OnlyLateRevives | src/store/mod.rs:1083-1172 | under that discipline a transaction revives a row if and only if it finishes the move of an agent that is gone and whose path is free |
| Capacity.LateFinishIsExact | src/store/mod.rs:1083-1172 | at any point of any run a finish revives if and only if a closing write met the move in flight and since then the agent is still gone, the lease on record and the path free |
| Capacity.ClosingStrands | src/store/mod.rs:431-470 | right after a closing write a finish revives if and only if it holds the lease that the write left behind |
| Capacity.SightedLeft | src/server/engine.rs:971-976 | an agent once seen with a pane or out of the queue never counts as queued again |
| Capacity.RevivalOverruns | src/store/mod.rs:782-809 | with all slots taken, a transaction overruns the maximum if and only if it is a revival |
| Capacity.PromotedAtMostOnce | src/store/mod.rs:278-295 | over any run from an empty store an agent is promoted at most once, and never while it is still queued |
| Capacity.QueuedCancelIsFinal | src/server/engine.rs:1113-1145 | if the conditional end of a queued agent commits, no promotion of it is logged before or ever after |
| TurnEpochs.SendIsNeverSatisfiedByStaleIdle | src/store/mod.rs:598-643 | whatever runs after a managed delivery of turn n, idle or parked implies a completed turn n or later, if and only if no move was in flight at the delivery |
| TurnEpochs.FinishingMoveBetrays | src/store/mod.rs:1083-1124 | a move in flight at the delivery ends in parked with the new turn open |
| TurnEpochs.PipelineDeliveryIsHonest | src/server/engine.rs:303-325 | the first delivery of a spawn pipeline is safe without the lock |
| TurnEpochs.TurnsAreDense | src/store/mod.rs:604-643 | in every reachable state an agent's turn rows are exactly 1 to `input_seq` |
| Completion.DriveCompletion | src/server/completion.rs:65-189 | one tick commits and logs exactly the transactions its decision lists, from a snapshot that may be older than the tables |
| Completion.IdleTickCloses | src/server/completion.rs:149-182 | an idle report closes the newest turn if and only if the transcript has settled, the streak is long enough, the turn was seen working or the grace applies, and an immediate agent's response is readable; otherwise it only starts the idle clock |
| Completion.BlockedTick | src/server/completion.rs:120-148 | a block report on an open turn counts if and only if the turn was seen working or the grace has passed |
| Completion.WorkingTick | src/server/completion.rs:85-118 | a working report stamps the open turn and un-settles the agent, or opens an external turn |
| Completion.Complete | src/server/completion.rs:192-252 | closes the turn, records the capture and ends an immediate agent, stopping when the turn was already closed |
| Completion.ActsAreRun | src/server/completion.rs:65-189 | a tick is a run of store transactions, so all whole-run results hold with the monitor in them |
| Completion.StaleReportIsHarmless | src/server/completion.rs:120-180 | within the grace window after a delivery an idle or blocked report changes no status and completes no turn |
| Completion.OldStreakCompletes | src/server/completion.rs:160-180 | an idle streak from before the delivery completes the new turn if and only if the whole grace window has passed |
| Completion.CompletionIsFresh | src/server/completion.rs:160-180 | a completed turn was seen working, or the report was taken after its delivery when the tick acts within the grace window |
| PaneMoves.ParkedExactlyWhenInIdle | src/server/gc.rs:119-176 | over every run of moves, sends, reaps, crashes and recoveries: with no move in flight and the pane present, parked implies in `idle`, and without blind writes in `idle` implies parked, lost or ended |
| PaneMoves.StepAgrees | src/server/gc.rs:409-484 | one step of any thread, or a crash, keeps row, pane and lock holder in agreement |
| PaneMoves.StepIsRun | src/server/gc.rs:119-484 | every protocol step is a run of store transactions |
| PaneMoves.SendDeliversSettled | src/server/engine.rs:940-1000 | in every reachable state a send that may deliver finds its agent not parked, and not being moved unless the path index turned down the write of the send's own recovery, whatever herdr answered and whatever other threads wrote |
| PaneMoves.SendIsAnswered | src/server/engine.rs:940-1000 | once a send has delivered turn n, every later state of the protocol that shows the agent idle or parked has a completed turn n or later, crashes and recoveries included |
| PaneMoves.RecoveryNeedsLabels | src/server/gc.rs:411-484 | a recovery settles the agent if and only if herdr gave labels, or the row already agreed, or the pane was not in `idle` when the listing failed; the agent is marked lost exactly when the listing failed or the pane is gone |
| PaneMoves.BlindWriteUnsettles | src/server/completion.rs:86-148 | an unlocked transaction takes an agent out of place if and only if it makes that agent active again while its pane sits in `idle` |
| MoveProgress.LockComesFree | src/server/gc.rs:119-484 | in every reachable state the holder of a move lock can give it back by at most six steps of its own, though herdr answers nothing |
| MoveProgress.CrashIsRepaired | src/server/gc.rs:396-484 | a crash forgets the lock holders and nothing else, and wherever it fell in a run without blind writes, one recovery that gets its labels makes the row of an interrupted move of an agent not lost or ended agree with the place of its pane |
| MoveProgress.LostStaysLost | src/server/gc.rs:415-432 | once a pane is gone, no later move, recovery or start of its agent brings it back |
| Gc.ParkOne | src/server/gc.rs:121-176 | nothing changes when the lease is not won or there is no pane; otherwise an acknowledged move parks the row, and any other leaves its lease in place; the path is a run of the protocol |
| Gc.UnparkForSend | src/server/gc.rs:238-300 | a move in flight is settled, then a parked pane brought to the workspace named by the text before the first slash of its path; success means not parked and, unless the agent had ended, not being moved; an error leaves the lease and gives up the lock |
| Gc.UnparkedRow | src/server/gc.rs:238-300 | an agent brought home is idle where it landed, one that was not is still parked and leased |
| Gc.UnparkOnResume | src/server/gc.rs:308-325 | the same under the agent's own lock |
| Gc.Send | src/server/engine.rs:922-1010 | a send records input exactly when its agent is neither gone nor stuck and has a pane, and then every later state of the store, whatever runs, is honest about that turn |
| Gc.RecoverLocked | src/server/gc.rs:411-484 | the tables after a recovery from a row snapshot, by what was seen, and that it counts as a repair exactly when this call settled the move and the pane was found |
| Gc.RecoveredRow | src/server/gc.rs:411-484 | a row that holds the token becomes lost, parked, home or rolled back, never left moving; a stale token changes nothing but the loss of a pane that was not found |
| Gc.RecoverOne | src/server/gc.rs:402-407 | the same tables under the agent's own lock, which is free again afterwards |
| Gc.ReapSweep | src/server/gc.rs:180-229 | exactly the candidates that are still parked, settled and unattended are ended |
| Gc.OwnPathKeepsAgreement | src/server/gc.rs:119-484 | each of those paths keeps rows and panes in agreement when labels were available |
| Replay.AgentOpReplays | src/store/mod.rs:134-836 | the events of every agent transaction, committed or aborted, rewrite the status map exactly as its rows do |
| Replay.LoopOpReplays | src/store/mod.rs:1843-2080 | loop transactions do too, if and only if they log no status of a missing loop, which never happens because loops are never deleted |
| Replay.SnapshotPlusReplay | src/server/mod.rs:462-474 | a snapshot at its sequence number plus the later events is the current status map, as long as none of those events was trimmed |
| Replay.EndedMayBeOmitted | src/server/mod.rs:603-645 | leaving ended agents and loops out of the snapshot changes nothing a subscriber shows |
| LoopOps.RunsKeepLoopInv | src/store/mod.rs:1928-2175 | over every run: no loop exceeds its maximum, at most one scheduled run waits and none under `skip`, `due_at` is the least of the fires folded in, and every run logs its end exactly when it is final and once |
| LoopOps.StatusOnlyAdvances | src/store/mod.rs:2088-2261 | between any two points of a run of transactions a loop run never goes back and never leaves a final status |
| FireAccounting.FiresAreAccounted | src/server/loops.rs:82-115 | across ticks, pauses, removals, crashes and recoveries a once loop fires at most once and never both fires and is missed; cron occurrences fire in order, never twice, and never also as missed, unless a resume wrote back an occurrence that had fired |
| FireAccounting.RescheduleIsExact | src/server/loops.rs:815-850 | from any reachable state a resume keeps the cron promise in every continuation if and only if the next fire it writes, if any, is later than every fired occurrence |
| FireAccounting.StaleRescheduleHappens | src/server/loops.rs:815-850 | a run from an empty store in which a resume reads the clock before a fire and breaks the promise by writing after it |
| FireAccounting.SettledOnce | src/server/loops.rs:476-585 | a start-up recovery settles the schedule of a loop at most once |
| FireAccounting.ServerComesUp | src/server/loops.rs:476-585 | from every state a crash can leave, recovery can be brought to its end with the server up |
| Scheduler.FireDueLoops | src/server/loops.rs:64-77 | one tick logs the occurrence of every due loop exactly once more and advances its schedule, and touches no other loop |
| Scheduler.FireLoop | src/server/loops.rs:82-105 | one scheduled fire commits the allocation with its schedule advance: its occurrence is logged and no other loop is touched |
| Scheduler.CloseDeadRuns | src/server/loops.rs:483-538 | exactly the active runs whose process is gone are closed, as stopped if they were stopping and failed otherwise; no other run and no loop changes |
| Scheduler.SkipMissed | src/server/loops.rs:546-577 | a missed fire is logged once, then a once loop ends and a cron loop is rescheduled |
| Scheduler.PromotePending | src/server/loops.rs:312-333 | no run is started exactly when the loop is missing or not active, has no free slot or has nothing pending; otherwise the earliest pending run is running |
| Scheduler.RecoverLoops | src/server/loops.rs:476-586 | restart recovery closes every loop's dead runs, logs and skips its missed fire, and starts its earliest pending run if it is still active and has a slot |
| Scheduler.OwnPathKeepsPromises | src/server/loops.rs:64-586 | those paths are runs of fire and recovery steps, so they keep the once and cron promises |
| EventPump.EventBus.constructor | src/events.rs:47-58 | the bus starts from the given numbers, the oldest at least 1 |
| EventPump.EventBus.Published | src/events.rs:61-67 | the latest number only grows |
| EventPump.EventBus.SetOldestRetained | src/events.rs:70-73 | the oldest number is overwritten, at least 1 |
| EventPump.EventBus.IsExpired | src/events.rs:88-91 | a cursor is expired exactly when the event it wants next is below the oldest number |
| EventPump.EventBus.Poll | src/events.rs:109-117 | shutting down wins over readiness |
| EventPump.Drain | src/server/mod.rs:544-577 | batch after batch, an undisturbed drain delivers exactly the rows above the cursor and ends at the newest |
| EventPump.DeliveryIsFaithful | src/server/mod.rs:513-589 | over any interleaving deliveries are strictly increasing, exactly as committed, and every number passed over had been trimmed |
| EventPump.PublishKeepsRetention | src/server/mod.rs:110-129 | with the bus up to date an undisturbed publish leaves the newest `retention` events and the bus up to date |
| EventPump.RefusedIffBehind | src/events.rs:88-91 | a subscriber is turned away exactly when the bus knows the event it wants next is gone |
| EventPump.ExpiredMeansTrimmed | src/server/mod.rs:531-543 | a refused cursor's next event is gone |
| EventPump.ReadLeavesGap | src/server/mod.rs:546-549 | a non-empty read leaves a gap if and only if the wanted event had been trimmed |
| EventPump.DrainIsGapFree | src/server/mod.rs:544-577 | every way a drain may go on until a trim or its end is gap-free, if and only if the event wanted next is still there as it starts |
| EventPump.CheckedDrain | src/server/mod.rs:531-577 | a passed check changes nothing about that; a bus that is up to date suffices |
| EventPump.LateReportMovesBusBack | src/server/mod.rs:115-128 | two reports in the wrong order leave the bus behind the store with no publish in flight, and a passing check then reads with a gap |
| EventPump.LateReportsHappen | src/server/mod.rs:110-129 | that situation is reached from an empty server |
| Paths.AcceptedPaths | src/path.rs:113-175 | a path is accepted exactly when it has one to eight proper segments and at most 256 characters, and creatable unless its first segment is reserved |
| Paths.HomeIsFirstSegment | src/path.rs:176-183 | the home workspace of a nested path is the text before its first slash, that of any other is `default` |
| Paths.AcceptedPatterns | src/path.rs:256-285 | a pattern is accepted exactly when each piece is a wildcard or a proper segment |
| Paths.MatchesIffCut | src/path.rs:286-307 | the matcher accepts exactly the paths that can be cut into one segment per literal or star and one or more per double star |
| Paths.MatchesConcat | src/path.rs:286-307 | matching a concatenated pattern is matching its halves on some split |
| Paths.MatchNeedsLength | src/path.rs:286-307 | a match needs at least one path segment per pattern segment |
| Paths.LiteralMatchesItself | src/path.rs:286-307 | a pattern without wildcards matches only its own segments |
| Paths.PathSelectsItself | src/path.rs:256-288 | a valid path compiled as a pattern selects that path and no other |
| Paths.WildcardsSelect | src/path.rs:256-307 | a final double star selects everything below the path before it and never that path, a final star exactly one segment more |
| TopTree.BuildTree | src/top/model.rs:269-332 | at each place the tree holds exactly the agent inserted there last; loops and their runs are shown in every view but that of unmanaged agents |
| TopTree.BuildLoops | src/top/model.rs:277-300 | loops and their runs are placed first and hold no agent |
| TopTree.InsertHolds | src/top/model.rs:335-366 | an insertion adds its agent, replaces only an agent of the same place, and touches no other |
| TopTree.CollectedIsHeld | src/top/model.rs:383-398 | every collected uuid belongs to an agent that some path leads to |
| TopTree.TreeShowsTheListing | src/top/model.rs:269-398 | the tree shows exactly the listed agents if and only if no path under `idle` collides with a parked agent |
| TopTree.ReservedNameSuffices | src/top/model.rs:195-398 | with no path under `idle` the tree's uuids are exactly those of the agents that meet every criterion given |
| TopTree.CreatedPathsSuffice | src/top/model.rs:195-398 | when every path is one the server accepts at creation, the tree's uuids are exactly those of the agents that meet every criterion given |
| EditDistance.Levenshtein | src/config.rs:512-526 | the two swapped rows compute the recursive edit distance |
| EditDistance.DistanceIsLeastCost | src/config.rs:512-526 | that distance is the least number of edits of any script turning one text into the other |
| EditDistance.DistanceIsMetric | src/config.rs:512-526 | zero exactly on equality, symmetric, triangle inequality |
| EditDistance.NearestKey | src/config.rs:502-510 | the first of the closest known keys within distance 2, none exactly when all are farther |
| Cron.MarkTerm | src/cron.rs:183-187 | the stepping loop marks exactly the values it visits, and leaves the domain exactly when it visits a value below it |
| Cron.TermDenotes | src/cron.rs:178-187 | a term denotes its stepped range if and only if its first step does not overflow 32 bits |
| Cron.ParseTerm | src/cron.rs:144-182 | an accepted term lies within the field's bounds and has a positive 32-bit step |
| Cron.TermTextMeans | src/cron.rs:144-182 | a term written in decimal is accepted exactly when its range lies within the field and its step is a positive 32-bit number, and then has the ends and step it is written with |
| Cron.FieldTextMeans | src/cron.rs:141-191 | a field of such terms is refused when one is not legal, and otherwise holds exactly the values its terms include |
| Cron.TextMeans | src/cron.rs:47-127 | a legal expression matches a minute exactly when minute, hour and month are included as written and the day counts, with the either-rule unless a day field is a bare star |
| Cron.ParseField | src/cron.rs:141-191 | a field is refused only for a bad term; otherwise it holds exactly what its terms mark |
| Cron.FieldDenotes | src/cron.rs:141-191 | without an overflowing step a field parses to exactly the union of its stepped ranges |
| Cron.ParseDow | src/cron.rs:129-139 | day 7 is folded onto day 0 |
| Cron.ParseCron | src/cron.rs:47-72 | five fields are required, well-formed ones whose steps do not overflow are accepted, each field holds what its text parses to, and a day field counts as restricted unless it is written `*` |
| Cron.NextAfter | src/cron.rs:79-113 | the least matching minute strictly after the argument at a constant offset, none exactly when the next 2,108,160 minutes hold no match |
| Cron.CompiledObeysDayRule | src/cron.rs:60-72 | a parsed expression either restricts both day fields or leaves one of them open |
| Cron.FoundIffRecurs | src/cron.rs:79-113 | the search finds a match from every instant if and only if an allowed time falls on an allowed date that exists every year or on an allowed weekday |
| Cron.OthersNeverMatchOrLeap | src/cron.rs:91-127 | the remaining expressions never match at all, or match on 29 February only, and then the search finds nothing from 1 March 2096 on although a later minute matches |
| Calendar.ComesRound | src/cron.rs:91-94 | every month begins again within two years of any day, with the days of a common year |
| Calendar.EpochIsThursday | src/cron.rs:95-105 | day 719162 is 1 January 1970, a Thursday, and the weekdays follow each other |
| Wire.Reader.ReadFrame | src/wire.rs:109-155 | each call yields the next frame of the stream's meaning, or its final answer, however the stream is cut into pieces |
| Wire.Reader.ReadAll | src/wire.rs:103-155 | repeated reads yield the non-blank lines up to the first over-long one, the clean end or the truncated tail |
| Wire.Position | src/wire.rs:117-120 | the first newline of a piece, none exactly when there is none |
| Wire.MeaningOfLine | src/wire.rs:119-153 | a complete line is too long, skipped as blank, or the next frame |
| Wire.MeaningOfTail | src/wire.rs:121-140 | nothing behind the last newline is a clean end, up to 16 MiB a truncated frame, more is too long |
| Wire.Writer.WriteFrame | src/wire.rs:158-166 | appends the encoding and one newline |
| Wire.ReadingInvertsWriting | src/wire.rs:103-166 | reading inverts a sequence of writes, for every cut, if and only if every encoding is newline-free, not blank and within the limit |
| AgentName.Hash | src/driver/protocol.rs:269-276 | the loop computes 64-bit FNV-1a modulo two to the 64 |
| AgentName.HerdrAgentName | src/driver/protocol.rs:305-336 | the in-place trimming computes the name |
| AgentName.NameIsValid | src/driver/protocol.rs:278-336 | every derived name satisfies the grammar and the 32-character bound |
| AgentName.NameShape | src/driver/protocol.rs:305-336 | a valid path that starts with a letter and fits 32 characters is named by its dashed form, any other by the longest readable head of at most 14 characters that does not end in a dash or underscore, two dashes and its hash |
| AgentName.FnvVectors | src/driver/protocol.rs:269-276 | published test vectors of the hash |
| AgentName.HexDenotes | src/driver/protocol.rs:335 | the digits of the hash denote it |
| AgentName.NameCollision | src/driver/protocol.rs:285-336 | two valid paths share a name exactly when they are equal, or both are hashed with equal heads and equal hashes |
| AgentName.SlugHasNoDoubleDash | src/driver/protocol.rs:298-301 | the verbatim form of a valid path never contains a double dash |
| LogRotation.RotateNumbered | src/server/log.rs:88-106 | every file below the highest number moves up by one, only the text of the highest number can be lost, and files beyond it are untouched |
| LogRotation.ServerLog.Log | src/server/log.rs:26-65 | rotates exactly when the line would not fit; what is on disk is a suffix of what was found and everything logged since, in at most `max_files` + 1 files of bounded length; files found beyond the limit stay as they were |
| LogRotation.RunLog.Append | src/server/loops.rs:1293-1338 | the same for run logs when rotation is on; with a limit of zero everything is kept in one growing file |
| Witnesses.ExternalTurnDuringPark | src/server/completion.rs:105-118 | a run from an empty store after which the monitor's external turn meets a park and is not honest |
| Witnesses.OldStreakHappens | src/server/completion.rs:150-180 | a run from an empty store after which a tick on an old snapshot completes a turn that was delivered later |
| Witnesses.KilledAgentIsParked | src/server/engine.rs:1151-1205 | a run from an empty store in which a kill meets a park, the slot is given away, and finishing the park overruns the limit |
| Witnesses.BlockedWhileParked | src/server/completion.rs:120-148 | a protocol run from an empty store after which a block leaves a parked agent's pane behind in `idle` |
| Witnesses.RecoveredOnTheWrongSide | src/server/gc.rs:434-462 | a protocol run from an empty store after which a recovery settles its agent only with workspace labels |

## Left out

- SQLite, sockets, subprocesses, signals and threads as such: a transaction is one atomic step, and the environment
  enters as parameters (clock readings, tokens, herdr's replies, liveness of processes, transcript readiness).
- Update in place of nested structures: the top tree's `BTreeMap`s are values, so aliasing through the moving level
  reference is not modelled; node labels, lineage annotations and rendering are left out.
- Interleaving inside the methods of `Gc`, `Completion` and `Scheduler`: each shows one thread's path undisturbed;
  interleavings are proved at the level of steps and transactions, which those methods are shown to consist of.
- Store.Store.AllocateRun: the retry on a colliding short run id is not modelled; it asks for the invariant that at most
  one scheduled run is pending per loop, which `LoopOps.RunsKeepLoopInv` establishes for every run.
- Store.Store.TransitionStatus: timestamps that no guard reads (`ended_at`, `updated_at` and the like) are left out, here
  and in all other rows.
- Capacity.DisciplineKeepsLimits: that the monitor and the reconcilers act on the status they read is an assumption,
  which their stale snapshots can break, and that no move finishes late is one that the kill path can break (it ends a
  row without looking at its lease); `Capacity.OnlyRevivalAddsLive` and `Capacity.LateFinishIsExact` say exactly when.
- PaneMoves.ParkedExactlyWhenInIdle: covers managed agents; unmanaged discovery mirrors outside sessions and is only part
  of the store-level results.
- Replay.SnapshotPlusReplay: the debug method that deletes an agent row is excluded.
- FireAccounting.FiresAreAccounted: assumes that a computed next fire is later than the clock reading it starts from.
- Scheduler.FireDueLoops: ids drawn for new runs, like lease tokens, are taken to be new.
- Cron.ParseCron: splitting the expression at white space is left out.
- Cron.NextAfter: time zones with folds or gaps are not modelled, only constant whole-minute offsets, from year 1 on.
- Wire.Writer.WriteFrame: JSON encoding is not modelled; that it yields framable lines is an assumption of the reader's
  inverse.
- AgentName.Hash: characters outside ASCII, which no valid path has, are not encoded as UTF-8.
- LogRotation.ServerLog.Log: failing writes and renames are not modelled.
- Completion.DriveCompletion: a tick is atomic between its read of the latest turn and its writes, and the un-park of a
  resumed agent before it is `Gc.UnparkOnResume`.
- EventPump.Drain: the method's log does not change under it; `EventPump.DeliveryIsFaithful` covers one that does.
- EventPump.EventBus.Poll: the timed wait around the check is left out.
- Attach leases, prompt submission and its confirmation, spawn pipelines beyond their store writes, process stop and
  timeout enforcement, transcript adapters and blocked-kind guessing.
- Liveness: pending runs of an ended loop are never promoted, and resume and recovery promote only one run each.
- The command line, the terminal interface, configuration parsing apart from the nearest key, and service units.
