/**
 * The completion monitor: one tick drives an agent's turn from a herdr report and a snapshot of its row, both
 * possibly older than the newest send.
 */
module Completion {
  import opened Rows
  import opened AgentTx
  import opened AgentQueue
  import opened AgentOps
  import opened EventLog
  import S = Store

  /** A pane's status as herdr reports it; `done` counts as idle. */
  datatype Report = SaysWorking | SaysBlocked(kind: string) | SaysIdle | SaysUnknown

  datatype Tuning = Tuning(graceMs: nat, stableMs: nat)

  /** What the tick finds out besides the store: the transcript has settled, is located, and shows the response. */
  datatype Transcript = Transcript(settled: bool, located: bool, readable: bool)

  const MAX_I64: int := 0x7FFF_FFFF_FFFF_FFFF

  /** `saturating_sub` on 64-bit milliseconds. */
  function Elapsed(now: int, since: int): int {
    var d := now - since;
    if d > MAX_I64 then MAX_I64 else if d < -MAX_I64 - 1 then -MAX_I64 - 1 else d
  }

  // ---- what a tick may write ----

  /** The transactions a tick may make: none of them touches the queue or a move lease. */
  predicate Plain(op: AgentOp) {
    op.OpDeliver? || op.OpCapture? || op.OpWorkingSeen? || op.OpStampWorkingSeen? || op.OpMarkWorking? || op.OpBlock?
    || op.OpIdleSince? || op.OpComplete? || op.OpCompleteRow? || (op.OpTransition? && op.status == Ended)
  }

  function Act(t: AgentTables, op: AgentOp): Effect {
    match op
    case OpWorkingSeen(u, n, at) => SetWorkingSeen(t, u, n, at)
    case OpIdleSince(u, since) => SetIdleSince(t, u, since)
    case OpDeliver(u, source, at) => DeliverInput(t, u, source, at)
    case OpStampWorkingSeen(u, n, at) => StampWorkingSeen(t, u, n, at)
    case OpComplete(u, n, at) => CompleteTurn(t, u, n, at)
    case OpCompleteRow(u, n, at) => CompleteTurnRow(t, u, n, at)
    case OpBlock(u, n, kind) => MarkBlocked(t, u, n, kind)
    case OpMarkWorking(u) => MarkWorking(t, u)
    case OpTransition(u, status, reason) => TransitionStatus(t, u, status, reason)
    case OpCapture(u) => RecordCapture(t, u)
    case _ => Unchanged(t)
  }

  predicate AllPlain(ops: seq<AgentOp>) {
    forall i :: 0 <= i < |ops| ==> Plain(ops[i])
  }

  /** `f` happens after `e`. */
  function Both(e: Effect, f: Effect): Effect {
    Effect(f.tables, e.events + f.events)
  }

  /** What the transactions `ops` commit, one after the other. */
  function Acts(t: AgentTables, ops: seq<AgentOp>): Effect
    decreases |ops|
  {
    if ops == [] then Unchanged(t)
    else
      var before := Acts(t, ops[..|ops| - 1]);
      Both(before, Act(before.tables, ops[|ops| - 1]))
  }

  lemma ActsMore(t: AgentTables, ops: seq<AgentOp>, op: AgentOp)
    ensures Acts(t, ops + [op]) == Both(Acts(t, ops), Act(Acts(t, ops).tables, op))
  {
    assert (ops + [op])[..|ops|] == ops;
  }

  // ---- the decision ----

  /** The newest turn of an agent, if it is still open. */
  function OpenLatest(t: AgentTables, u: Uuid): Option<nat> {
    if u in t.agents && OpenTurn(t, u, t.agents[u].inputSeq) then Some(t.agents[u].inputSeq) else None
  }

  /**
   * Fast-turn grace: never seen working, but idle began in time and the whole grace window has passed since delivery.
   */
  predicate FastOk(turn: Turn, idleSince: int, now: int, tuning: Tuning) {
    && turn.workingSeenAt.None?
    && Elapsed(idleSince, turn.deliveredAt) <= tuning.graceMs
    && Elapsed(now, turn.deliveredAt) >= tuning.graceMs
  }

  predicate Finished(turn: Turn, idleSince: int, now: int, tuning: Tuning, settled: bool) {
    && (turn.workingSeenAt.Some? || FastOk(turn, idleSince, now, tuning))
    && Elapsed(now, idleSince) >= tuning.stableMs && settled
  }

  /** A block report counts once the turn was seen working or the grace window has passed. */
  predicate Armed(turn: Turn, now: int, tuning: Tuning) {
    turn.workingSeenAt.Some? || Elapsed(now, turn.deliveredAt) >= tuning.graceMs
  }

  /** Once the turn is closed: record the capture, and end an immediate agent. */
  function AfterClose(u: Uuid, located: bool, immediate: bool): seq<AgentOp> {
    (if located then [OpCapture(u)] else []) + if immediate then [OpTransition(u, Ended, Some("completed"))] else []
  }

  /** The transactions of `complete`; an immediate agent is only torn down once its response is readable. */
  function CompleteOps(t: AgentTables, u: Uuid, snapshot: Agent, n: nat, doneAt: int, tr: Transcript): seq<AgentOp> {
    if snapshot.gcMode != Immediate then
      [OpComplete(u, n, doneAt)]
      + if CompleteTurn(t, u, n, doneAt).events == [] then [] else AfterClose(u, tr.located, false)
    else if !tr.readable then []
    else
      [OpCompleteRow(u, n, doneAt)]
      + if CompleteTurnRow(t, u, n, doneAt).events == [] then [] else AfterClose(u, tr.located, true)
  }

  function WorkingOps(t: AgentTables, u: Uuid, snapshot: Agent, now: int): seq<AgentOp> {
    var latest := OpenLatest(t, u);
    if latest.Some? then
      [OpWorkingSeen(u, latest.value, now)]
      + if snapshot.status in {Idle, Blocked, Parked} then [OpMarkWorking(u)] else []
    else
      [OpDeliver(u, External, now)]
      + if Deliverable(t, u) then [OpStampWorkingSeen(u, t.agents[u].inputSeq + 1, now)] else []
  }

  function BlockedOps(t: AgentTables, u: Uuid, snapshot: Agent, kind: string, now: int, tuning: Tuning): seq<AgentOp> {
    var latest := OpenLatest(t, u);
    if latest.Some? && !Armed(t.turns[TurnKey(u, latest.value)], now, tuning) then []
    else [OpBlock(u, if latest.Some? then latest.value else snapshot.inputSeq, kind)]
  }

  function IdleOps(t: AgentTables, u: Uuid, snapshot: Agent, now: int, doneAt: int, tuning: Tuning, tr: Transcript)
    : seq<AgentOp>
  {
    var latest := OpenLatest(t, u);
    if latest.None? then []
    else
      var turn := t.turns[TurnKey(u, latest.value)];
      var start := if snapshot.idleSince.None? then [OpIdleSince(u, Some(now))] else [];
      start + if Finished(turn, Or(snapshot.idleSince, Some(now)).value, now, tuning, tr.settled)
              then CompleteOps(Acts(t, start).tables, u, snapshot, latest.value, doneAt, tr) else []
  }

  /** The store transactions of one tick on agent `u`, whose row was `snapshot` when the tick began. */
  function TickOps(t: AgentTables, u: Uuid, snapshot: Agent, report: Report, now: int, doneAt: int, tuning: Tuning,
                   tr: Transcript): seq<AgentOp>
  {
    match report
    case SaysUnknown => []
    case SaysWorking => WorkingOps(t, u, snapshot, now)
    case SaysBlocked(kind) => BlockedOps(t, u, snapshot, kind, now, tuning)
    case SaysIdle => IdleOps(t, u, snapshot, now, doneAt, tuning, tr)
  }

  lemma ActsOne(t: AgentTables, op: AgentOp)
    ensures Acts(t, [op]) == Act(t, op)
  {
    ActsMore(t, [], op);
    assert [] + [op] == [op] && [] + Act(t, op).events == Act(t, op).events;
  }

  lemma ActsTwo(t: AgentTables, op: AgentOp, next: AgentOp)
    ensures Acts(t, [op, next]) == Both(Act(t, op), Act(Act(t, op).tables, next))
  {
    ActsOne(t, op);
    ActsMore(t, [op], next);
    assert [op] + [next] == [op, next];
  }

  lemma ActIsApply(t: AgentTables, op: AgentOp)
    requires QueueSeqsDistinct(t.agents) && Plain(op)
    ensures AsCalled(t, op) && Apply(t, op) == Act(t, op)
  {
  }

  /** A tick is a run of store transactions, so everything proved of all runs holds with the monitor in them. */
  lemma {:induction false} ActsAreRun(t: AgentTables, ops: seq<AgentOp>)
    requires Inv(t) && AllPlain(ops)
    ensures ValidRun(t, ops) && RunFrom(t, ops) == Acts(t, ops).tables && EventsOf(t, ops) == Acts(t, ops).events
    decreases |ops|
  {
    if ops != [] {
      ActsAreRun(t, ops[..|ops| - 1]);
      ActIsApply(Acts(t, ops[..|ops| - 1]).tables, ops[|ops| - 1]);
    }
  }

  /** The newest turn is the one numbered `input_seq`, because turn rows are dense. */
  lemma LatestIsInputSeq(t: AgentTables, u: Uuid, latest: Option<nat>)
    requires TurnsDense(t)
    requires latest.Some? ==> TurnKey(u, latest.value) in t.turns
    requires forall m: nat :: TurnKey(u, m) in t.turns ==> latest.Some? && m <= latest.value
    ensures OpenLatest(t, u) == if latest.Some? && OpenTurn(t, u, latest.value) then latest else None
  {
    if latest.Some? {
      assert TurnKey(u, t.agents[u].inputSeq) in t.turns;
    } else {
      assert forall m :: !OpenTurn(t, u, m);
    }
  }

  lemma {:induction false} ActsConcat(t: AgentTables, a: seq<AgentOp>, b: seq<AgentOp>)
    ensures Acts(t, a + b) == Both(Acts(t, a), Acts(Acts(t, a).tables, b))
    decreases |b|
  {
    if b == [] {
      assert a + b == a && Acts(t, a).events + [] == Acts(t, a).events;
    } else {
      var k := |b| - 1;
      assert (a + b)[..|a + b| - 1] == a + b[..k];
      ActsConcat(t, a, b[..k]);
      var before := Acts(Acts(t, a).tables, b[..k]);
      assert (Acts(t, a).events + before.events) + Act(before.tables, b[k]).events
          == Acts(t, a).events + (before.events + Act(before.tables, b[k]).events);
    }
  }

  // ---- the code of a tick ----

  /** The store holds the tables of `e`, and has logged its events behind `log`. */
  ghost predicate Did(store: S.Store, log: EventTable, e: Effect)
    reads store
  {
    store.Agents() == e.tables && store.log == log.AppendAll(e.events)
  }

  lemma DidBoth(log: EventTable, e: Effect, f: Effect)
    ensures log.AppendAll(e.events).AppendAll(f.events) == log.AppendAll(Both(e, f).events)
  {
    AppendAllSplit(log, e.events, f.events);
  }

  /** The transaction that closes a turn: with the row for an agent that stays, without it for an immediate one. */
  function Closing(t: AgentTables, u: Uuid, n: nat, doneAt: int, immediate: bool): Effect {
    if immediate then CompleteTurnRow(t, u, n, doneAt) else CompleteTurn(t, u, n, doneAt)
  }

  /** Closes the turn; `completed` is whether that logged anything. */
  method CloseTurn(store: S.Store, u: Uuid, n: nat, doneAt: int, immediate: bool) returns (completed: bool)
    modifies store
    ensures var e := Closing(old(store.Agents()), u, n, doneAt, immediate);
            Did(store, old(store.log), e) && (completed <==> e.events != [])
  {
    AppendAllSpec(store.log, Closing(store.Agents(), u, n, doneAt, immediate).events);
    var ev;
    if immediate {
      ev := store.CompleteTurnRow(u, n, doneAt);
    } else {
      ev := store.CompleteTurn(u, n, doneAt);
    }
    completed := ev != 0;
  }

  /** Where recording the capture and ending an immediate agent lead. */
  function Aftermath(t: AgentTables, u: Uuid, located: bool, immediate: bool): Effect {
    var captured := if located then RecordCapture(t, u) else Unchanged(t);
    if immediate then Both(captured, TransitionStatus(t, u, Ended, Some("completed"))) else captured
  }

  lemma AfterCloseActs(t: AgentTables, u: Uuid, located: bool, immediate: bool)
    ensures Acts(t, AfterClose(u, located, immediate)) == Aftermath(t, u, located, immediate)
  {
    var end := OpTransition(u, Ended, Some("completed"));
    ActsOne(t, OpCapture(u));
    ActsOne(t, end);
    ActsTwo(t, OpCapture(u), end);
    assert [OpCapture(u)] + [] == [OpCapture(u)] && [] + [end] == [end]
           && [OpCapture(u)] + [end] == [OpCapture(u), end];
    assert [] + Act(t, end).events == Act(t, end).events;
  }

  /** What `complete` commits. */
  function Closed(t: AgentTables, u: Uuid, immediate: bool, n: nat, doneAt: int, tr: Transcript): Effect {
    if immediate && !tr.readable then Unchanged(t)
    else
      var e := Closing(t, u, n, doneAt, immediate);
      if e.events == [] then e else Both(e, Aftermath(e.tables, u, tr.located, immediate))
  }

  lemma CompleteActs(t: AgentTables, u: Uuid, snapshot: Agent, n: nat, doneAt: int, tr: Transcript)
    ensures Acts(t, CompleteOps(t, u, snapshot, n, doneAt, tr))
         == Closed(t, u, snapshot.gcMode == Immediate, n, doneAt, tr)
  {
    var immediate := snapshot.gcMode == Immediate;
    var close := if immediate then OpCompleteRow(u, n, doneAt) else OpComplete(u, n, doneAt);
    ActsOne(t, close);
    AfterCloseActs(Act(t, close).tables, u, tr.located, immediate);
    ActsConcat(t, [close], AfterClose(u, tr.located, immediate));
    assert [close] + [] == [close];
  }

  /** The transactions of `complete`, one after the other. */
  method Complete(store: S.Store, u: Uuid, snapshot: Agent, n: nat, doneAt: int, tr: Transcript)
    modifies store
    ensures Did(store, old(store.log),
                Acts(old(store.Agents()), CompleteOps(old(store.Agents()), u, snapshot, n, doneAt, tr)))
  {
    ghost var log, t := store.log, store.Agents();
    CompleteActs(t, u, snapshot, n, doneAt, tr);
    var immediate := snapshot.gcMode == Immediate;
    if immediate && !tr.readable {
      return;
    }
    ghost var e := Closing(t, u, n, doneAt, immediate);
    DidBoth(log, e, Aftermath(e.tables, u, tr.located, immediate));
    var completed := CloseTurn(store, u, n, doneAt, immediate);
    if completed {
      FinishUp(store, u, tr.located, immediate);
    }
  }

  method FinishUp(store: S.Store, u: Uuid, located: bool, immediate: bool)
    modifies store
    ensures Did(store, old(store.log), Aftermath(old(store.Agents()), u, located, immediate))
  {
    ghost var log, t := store.log, store.Agents();
    ghost var captured := if located then RecordCapture(t, u) else Unchanged(t);
    DidBoth(log, captured, TransitionStatus(t, u, Ended, Some("completed")));
    if located {
      var _ := store.RecordCapture(u);
    }
    if immediate {
      var _ := store.TransitionStatus(u, Ended, Some("completed"));
    }
  }

  method TickWorking(store: S.Store, u: Uuid, snapshot: Agent, latest: Option<nat>, now: int)
    requires latest == OpenLatest(store.Agents(), u)
    modifies store
    ensures Did(store, old(store.log), Acts(old(store.Agents()), WorkingOps(old(store.Agents()), u, snapshot, now)))
  {
    WorkingActs(store.Agents(), u, snapshot, now);
    if latest.Some? {
      store.SetWorkingSeen(u, latest.value, now);
      if snapshot.status == Idle || snapshot.status == Blocked || snapshot.status == Parked {
        var _ := store.MarkWorking(u);
      }
    } else {
      var reply, ev := store.OpenExternalTurn(u, now);
    }
  }

  /** What a working report commits. */
  lemma WorkingActs(t: AgentTables, u: Uuid, snapshot: Agent, now: int)
    ensures var latest := OpenLatest(t, u);
            Acts(t, WorkingOps(t, u, snapshot, now))
              == if latest.Some? then
                   var seen := SetWorkingSeen(t, u, latest.value, now);
                   if snapshot.status in {Idle, Blocked, Parked} then MarkWorking(seen.tables, u) else seen
                 else
                   var e := DeliverInput(t, u, External, now);
                   if Deliverable(t, u) then
                     Effect(StampWorkingSeen(e.tables, u, t.agents[u].inputSeq + 1, now).tables, e.events)
                   else e
  {
    if OpenLatest(t, u).Some? {
      SeenActs(t, u, OpenLatest(t, u).value, snapshot, now);
    } else {
      ExternalActs(t, u, snapshot, now);
    }
  }

  lemma SeenActs(t: AgentTables, u: Uuid, n: nat, snapshot: Agent, now: int)
    requires OpenLatest(t, u) == Some(n)
    ensures var seen := SetWorkingSeen(t, u, n, now);
            Acts(t, WorkingOps(t, u, snapshot, now))
              == if snapshot.status in {Idle, Blocked, Parked} then MarkWorking(seen.tables, u) else seen
  {
    var seen := OpWorkingSeen(u, n, now);
    ActsOne(t, seen);
    ActsTwo(t, seen, OpMarkWorking(u));
    assert [seen] + [] == [seen] && [seen] + [OpMarkWorking(u)] == [seen, OpMarkWorking(u)];
    var marked := MarkWorking(Act(t, seen).tables, u);
    assert [] + marked.events == marked.events;
  }

  lemma ExternalActs(t: AgentTables, u: Uuid, snapshot: Agent, now: int)
    requires OpenLatest(t, u).None?
    ensures var e := DeliverInput(t, u, External, now);
            Acts(t, WorkingOps(t, u, snapshot, now))
              == if Deliverable(t, u) then
                   Effect(StampWorkingSeen(e.tables, u, t.agents[u].inputSeq + 1, now).tables, e.events)
                 else e
  {
    var deliver := OpDeliver(u, External, now);
    if Deliverable(t, u) {
      DeliverAndStamp(t, u, t.agents[u].inputSeq + 1, now);
      assert [deliver] + [OpStampWorkingSeen(u, t.agents[u].inputSeq + 1, now)]
          == [deliver, OpStampWorkingSeen(u, t.agents[u].inputSeq + 1, now)];
    } else {
      ActsOne(t, deliver);
      assert [deliver] + [] == [deliver];
    }
  }

  lemma DeliverAndStamp(t: AgentTables, u: Uuid, n: nat, now: int)
    ensures var e := DeliverInput(t, u, External, now);
            Acts(t, [OpDeliver(u, External, now), OpStampWorkingSeen(u, n, now)])
              == Effect(StampWorkingSeen(e.tables, u, n, now).tables, e.events)
  {
    ActsTwo(t, OpDeliver(u, External, now), OpStampWorkingSeen(u, n, now));
    var e := DeliverInput(t, u, External, now);
    assert e.events + [] == e.events;
  }

  method TickIdle(store: S.Store, u: Uuid, snapshot: Agent, latest: Option<nat>, now: int, doneAt: int, tuning: Tuning,
                  tr: Transcript)
    requires latest == OpenLatest(store.Agents(), u)
    modifies store
    ensures Did(store, old(store.log),
                Acts(old(store.Agents()), IdleOps(old(store.Agents()), u, snapshot, now, doneAt, tuning, tr)))
  {
    IdleActs(store.Agents(), u, snapshot, now, doneAt, tuning, tr);
    if latest.None? {
      return;
    }
    var turn := store.turns[TurnKey(u, latest.value)];
    var idleSince := now;
    if snapshot.idleSince.Some? {
      idleSince := snapshot.idleSince.value;
    } else {
      store.SetIdleSince(u, Some(now));
    }
    if Finished(turn, idleSince, now, tuning, tr.settled) {
      Complete(store, u, snapshot, latest.value, doneAt, tr);
    }
  }

  /** What an idle report commits. */
  lemma IdleActs(t: AgentTables, u: Uuid, snapshot: Agent, now: int, doneAt: int, tuning: Tuning, tr: Transcript)
    ensures var latest := OpenLatest(t, u);
            Acts(t, IdleOps(t, u, snapshot, now, doneAt, tuning, tr))
              == if latest.None? then Unchanged(t)
                 else
                   var started := if snapshot.idleSince.None? then SetIdleSince(t, u, Some(now)).tables else t;
                   if Finished(t.turns[TurnKey(u, latest.value)], Or(snapshot.idleSince, Some(now)).value, now, tuning,
                               tr.settled)
                   then Acts(started, CompleteOps(started, u, snapshot, latest.value, doneAt, tr))
                   else Unchanged(started)
  {
    var latest := OpenLatest(t, u);
    if latest.Some? {
      var begin := OpIdleSince(u, Some(now));
      var start := if snapshot.idleSince.None? then [begin] else [];
      ActsOne(t, begin);
      var done := CompleteOps(Acts(t, start).tables, u, snapshot, latest.value, doneAt, tr);
      ActsConcat(t, start, done);
      assert start + [] == start;
      var rest := Acts(Acts(t, start).tables, done);
      assert [] + rest.events == rest.events;
    }
  }

  method TickBlocked(store: S.Store, u: Uuid, snapshot: Agent, latest: Option<nat>, kind: string, now: int,
                     tuning: Tuning)
    requires latest == OpenLatest(store.Agents(), u)
    modifies store
    ensures Did(store, old(store.log),
                Acts(old(store.Agents()), BlockedOps(old(store.Agents()), u, snapshot, kind, now, tuning)))
  {
    if latest.Some? && !Armed(store.turns[TurnKey(u, latest.value)], now, tuning) {
      return;
    }
    var n := if latest.Some? then latest.value else snapshot.inputSeq;
    ActsOne(store.Agents(), OpBlock(u, n, kind));
    var _ := store.MarkBlocked(u, n, kind);
  }

  /** `drive_completion`, after the un-park of a resumed agent: the reads and writes of one tick. */
  method DriveCompletion(store: S.Store, u: Uuid, snapshot: Agent, report: Report, now: int, doneAt: int,
                         tuning: Tuning, tr: Transcript)
    requires TurnsDense(store.Agents())
    modifies store
    ensures Did(store, old(store.log),
                Acts(old(store.Agents()), TickOps(old(store.Agents()), u, snapshot, report, now, doneAt, tuning, tr)))
  {
    ghost var t := store.Agents();
    var latest := store.LatestTurn(u);
    LatestIsInputSeq(t, u, latest);
    if latest.Some? && store.turns[TurnKey(u, latest.value)].completedAt.Some? {
      latest := None;
    }
    match report
    case SaysUnknown =>
    case SaysWorking =>
      TickWorking(store, u, snapshot, latest, now);
    case SaysBlocked(kind) =>
      TickBlocked(store, u, snapshot, latest, kind, now, tuning);
    case SaysIdle =>
      TickIdle(store, u, snapshot, latest, now, doneAt, tuning, tr);
  }

  lemma TickIsPlain(t: AgentTables, u: Uuid, snapshot: Agent, report: Report, now: int, doneAt: int, tuning: Tuning,
                    tr: Transcript)
    ensures AllPlain(TickOps(t, u, snapshot, report, now, doneAt, tuning, tr))
  {
    if report.SaysIdle? {
      var latest := OpenLatest(t, u);
      if latest.Some? {
        CompleteIsPlain(t, u, snapshot, latest.value, doneAt, tr);
        CompleteIsPlain(Acts(t, [OpIdleSince(u, Some(now))]).tables, u, snapshot, latest.value, doneAt, tr);
      }
    }
  }

  lemma CompleteIsPlain(t: AgentTables, u: Uuid, snapshot: Agent, n: nat, doneAt: int, tr: Transcript)
    ensures AllPlain(CompleteOps(t, u, snapshot, n, doneAt, tr))
  {
  }

  // ---- what each report comes to, on the rows ----

  /** Since when the agent has been idle: as its row said when the tick began, or from now on. */
  function IdleStart(snapshot: Agent, now: int): int {
    match snapshot.idleSince
    case None => now
    case Some(since) => since
  }

  /**
   * When an idle report finishes an open turn: the transcript has settled, the idle streak is long enough, the turn was
   * seen working or the grace for fast turns applies to it, and an immediate agent's response can be read.
   */
  predicate ReadyToClose(turn: Turn, snapshot: Agent, now: int, tuning: Tuning, tr: Transcript) {
    var since := IdleStart(snapshot, now);
    && tr.settled && now - since >= tuning.stableMs
    && (turn.workingSeenAt != None
        || (since - turn.deliveredAt <= tuning.graceMs && now - turn.deliveredAt >= tuning.graceMs))
    && (snapshot.gcMode == Immediate ==> tr.readable)
  }

  /** 64-bit arithmetic saturates far beyond any window. */
  lemma ElapsedIsDifference(now: int, since: int, window: nat)
    requires window < MAX_I64
    ensures Elapsed(now, since) >= window <==> now - since >= window
    ensures Elapsed(now, since) <= window <==> now - since <= window
  {
  }

  /** The newest turn of `u` is number `n`, and it is open. */
  predicate NewestOpen(t: AgentTables, u: Uuid, n: nat) {
    && u in t.agents && t.agents[u].inputSeq == n && TurnKey(u, n) in t.turns
    && t.turns[TurnKey(u, n)].completedAt == None
  }

  /**
   * An idle report closes the newest turn if and only if it is ready. It then turns a working agent idle, or ends an
   * immediate one. A report that comes too early only starts the idle clock, if it is not running.
   */
  lemma IdleTickCloses(t: AgentTables, u: Uuid, n: nat, snapshot: Agent, now: int, doneAt: int, tuning: Tuning,
                       tr: Transcript)
    requires NewestOpen(t, u, n) && tuning.graceMs < MAX_I64 && tuning.stableMs < MAX_I64
    ensures var e := Acts(t, TickOps(t, u, snapshot, SaysIdle, now, doneAt, tuning, tr));
            var key, ready := TurnKey(u, n), ReadyToClose(t.turns[TurnKey(u, n)], snapshot, now, tuning, tr);
            && key in e.tables.turns && u in e.tables.agents
            && e.tables.turns[key].completedAt == (if ready then Some(doneAt) else None)
            && e.tables.agents[u].status
                 == (if !ready then t.agents[u].status else if snapshot.gcMode == Immediate then Ended
                     else if t.agents[u].status == Working then Idle else t.agents[u].status)
            && (!ready ==>
                  && e.events == [] && e.tables.turns == t.turns
                  && e.tables.agents == if snapshot.idleSince == None
                                        then t.agents[u := t.agents[u].(idleSince := Some(now))] else t.agents)
            && (ready && (snapshot.gcMode == Immediate || t.agents[u].status == Working) ==>
                  && TurnCompleted(u, n) in e.events && (ResponseCaptured(u) in e.events <==> tr.located)
                  && (AgentEnded(u) in e.events <==> snapshot.gcMode == Immediate))
  {
    var turn := t.turns[TurnKey(u, n)];
    IdleActs(t, u, snapshot, now, doneAt, tuning, tr);
    ElapsedIsDifference(now, IdleStart(snapshot, now), tuning.stableMs);
    ElapsedIsDifference(IdleStart(snapshot, now), turn.deliveredAt, tuning.graceMs);
    ElapsedIsDifference(now, turn.deliveredAt, tuning.graceMs);
    var started := if snapshot.idleSince.None? then SetIdleSince(t, u, Some(now)).tables else t;
    CompleteActs(started, u, snapshot, n, doneAt, tr);
    ClosedRow(started, u, snapshot.gcMode == Immediate, n, doneAt, tr);
  }

  /** What closing an open turn that is the newest makes of the row, and what it logs. */
  lemma ClosedRow(t: AgentTables, u: Uuid, immediate: bool, n: nat, doneAt: int, tr: Transcript)
    requires NewestOpen(t, u, n)
    ensures var e, key := Closed(t, u, immediate, n, doneAt, tr), TurnKey(u, n);
            if immediate && !tr.readable then e.tables == t && e.events == []
            else
              && key in e.tables.turns && u in e.tables.agents
              && e.tables.turns[key].completedAt == Some(doneAt)
              && e.tables.agents[u].status
                   == (if immediate then Ended else if t.agents[u].status == Working then Idle else t.agents[u].status)
              && (immediate || t.agents[u].status == Working ==>
                    && TurnCompleted(u, n) in e.events && (ResponseCaptured(u) in e.events <==> tr.located)
                    && (AgentEnded(u) in e.events <==> immediate))
  {
  }

  /** An idle or blocked report without an open turn: idle changes nothing, blocked is not held back. */
  lemma NoOpenTurn(t: AgentTables, u: Uuid, snapshot: Agent, kind: string, now: int, doneAt: int, tuning: Tuning,
                   tr: Transcript)
    requires u !in t.agents || !NewestOpen(t, u, t.agents[u].inputSeq)
    ensures Acts(t, TickOps(t, u, snapshot, SaysIdle, now, doneAt, tuning, tr)) == Effect(t, [])
    ensures Acts(t, TickOps(t, u, snapshot, SaysBlocked(kind), now, doneAt, tuning, tr))
         == MarkBlocked(t, u, snapshot.inputSeq, kind)
  {
    ActsOne(t, OpBlock(u, snapshot.inputSeq, kind));
  }

  /** Nothing is done without a status. */
  lemma UnknownTick(t: AgentTables, u: Uuid, snapshot: Agent, now: int, doneAt: int, tuning: Tuning, tr: Transcript)
    ensures Acts(t, TickOps(t, u, snapshot, SaysUnknown, now, doneAt, tuning, tr)) == Effect(t, [])
  {
  }

  /** A block report on the newest open turn counts if and only if the turn was seen working or the grace has passed. */
  lemma BlockedTick(t: AgentTables, u: Uuid, n: nat, snapshot: Agent, kind: string, now: int, doneAt: int,
                    tuning: Tuning, tr: Transcript)
    requires NewestOpen(t, u, n) && tuning.graceMs < MAX_I64
    ensures var turn := t.turns[TurnKey(u, n)];
            Acts(t, TickOps(t, u, snapshot, SaysBlocked(kind), now, doneAt, tuning, tr))
              == if turn.workingSeenAt != None || now - turn.deliveredAt >= tuning.graceMs
                 then MarkBlocked(t, u, n, kind) else Effect(t, [])
  {
    ElapsedIsDifference(now, t.turns[TurnKey(u, n)].deliveredAt, tuning.graceMs);
    ActsOne(t, OpBlock(u, n, kind));
  }

  /**
   * A working report stamps the newest open turn and un-settles an agent that its row showed settled or blocked. With
   * no open turn it is input that nobody delivered, and opens the next turn as external and seen working.
   */
  lemma WorkingTick(t: AgentTables, u: Uuid, snapshot: Agent, now: int, doneAt: int, tuning: Tuning, tr: Transcript)
    requires u in t.agents && TurnsDense(t)
    ensures var e, n := Acts(t, TickOps(t, u, snapshot, SaysWorking, now, doneAt, tuning, tr)), t.agents[u].inputSeq;
            var row := t.agents[u];
            if NewestOpen(t, u, n) then
              && u in e.tables.agents && TurnKey(u, n) in e.tables.turns
              && e.tables.turns[TurnKey(u, n)].workingSeenAt
                   == (if t.turns[TurnKey(u, n)].workingSeenAt == None then Some(now)
                       else t.turns[TurnKey(u, n)].workingSeenAt)
              && e.tables.agents[u].idleSince == None
              && e.tables.agents[u].status
                   == (if snapshot.status in {Idle, Blocked, Parked} && row.status in {Idle, Blocked, Parked}
                       then Working else row.status)
            else if row.status == Ended || row.status == Lost then e == Effect(t, [])
            else
              && u in e.tables.agents && TurnKey(u, n + 1) in e.tables.turns
              && e.tables.agents[u].status == Working && e.tables.agents[u].inputSeq == n + 1
              && e.tables.turns[TurnKey(u, n + 1)] == Turn(External, now, Some(now), None, None)
  {
    WorkingActs(t, u, snapshot, now);
    if NewestOpen(t, u, t.agents[u].inputSeq) {
      SeenRow(t, u, snapshot, now);
    } else {
      assert TurnKey(u, t.agents[u].inputSeq + 1) !in t.turns;
    }
  }

  lemma SeenRow(t: AgentTables, u: Uuid, snapshot: Agent, now: int)
    requires u in t.agents && NewestOpen(t, u, t.agents[u].inputSeq)
    ensures var row, key := t.agents[u], TurnKey(u, t.agents[u].inputSeq);
            var seen := SetWorkingSeen(t, u, row.inputSeq, now);
            var e := if snapshot.status in {Idle, Blocked, Parked} then MarkWorking(seen.tables, u) else seen;
            && u in e.tables.agents && key in e.tables.turns
            && e.tables.turns[key].workingSeenAt
                 == (if t.turns[key].workingSeenAt == None then Some(now) else t.turns[key].workingSeenAt)
            && e.tables.agents[u].idleSince == None
            && e.tables.agents[u].status
                 == if snapshot.status in {Idle, Blocked, Parked} && row.status in {Idle, Blocked, Parked} then Working
                    else row.status
  {
  }

  // ---- stale reports ----

  /** A turn that was delivered but not yet seen working, still the newest one. */
  predicate JustSent(t: AgentTables, u: Uuid, n: nat) {
    && u in t.agents && t.agents[u].inputSeq == n && OpenTurn(t, u, n)
    && t.turns[TurnKey(u, n)].workingSeenAt.None?
  }

  /** Neither the status nor the turns of any agent change. */
  predicate Unmoved(t: AgentTables, t': AgentTables) {
    && t'.turns == t.turns && t'.agents.Keys == t.agents.Keys
    && forall v :: v in t.agents ==> t'.agents[v].status == t.agents[v].status
  }

  /**
   * Within the grace window after a delivery an idle or blocked report, which may be left over from the previous
   * turn, changes no status and completes no turn, whatever the tick's snapshot says.
   */
  lemma StaleReportIsHarmless(t: AgentTables, u: Uuid, n: nat, snapshot: Agent, report: Report, now: int, doneAt: int,
                              tuning: Tuning, tr: Transcript)
    requires JustSent(t, u, n) && (report.SaysIdle? || report.SaysBlocked?)
    requires Elapsed(now, t.turns[TurnKey(u, n)].deliveredAt) < tuning.graceMs
    ensures Unmoved(t, Acts(t, TickOps(t, u, snapshot, report, now, doneAt, tuning, tr)).tables)
  {
    ActsOne(t, OpIdleSince(u, Some(now)));
    assert [OpIdleSince(u, Some(now))] + [] == [OpIdleSince(u, Some(now))];
  }

  /**
   * The window is exact. A tick whose snapshot still carries a long idle streak from before the delivery completes
   * the new turn if and only if the whole window has passed since the delivery.
   */
  lemma OldStreakCompletes(t: AgentTables, u: Uuid, n: nat, snapshot: Agent, streak: int, now: int, doneAt: int,
                           tuning: Tuning,
                           tr: Transcript)
    requires JustSent(t, u, n) && t.agents[u].status == Working && snapshot.gcMode != Immediate
    requires snapshot.idleSince == Some(streak) && streak <= t.turns[TurnKey(u, n)].deliveredAt
    requires Elapsed(now, streak) >= tuning.stableMs && tr.settled
    ensures !OpenTurn(Acts(t, TickOps(t, u, snapshot, SaysIdle, now, doneAt, tuning, tr)).tables, u, n)
            <==> Elapsed(now, t.turns[TurnKey(u, n)].deliveredAt) >= tuning.graceMs
  {
    CompleteActs(t, u, snapshot, n, doneAt, tr);
    var done := if Finished(t.turns[TurnKey(u, n)], streak, now, tuning, true)
                then CompleteOps(t, u, snapshot, n, doneAt, tr) else [];
    assert [] + done == done;
  }

  /**
   * A completion is never older than the send it answers: the turn was seen working, or the report it rests on was
   * taken after the delivery, provided the tick acts on it within the grace window.
   */
  lemma CompletionIsFresh(t: AgentTables, u: Uuid, snapshot: Agent, report: Report, reportAt: int, now: int,
                          doneAt: int,
                          tuning: Tuning, tr: Transcript, n: nat)
    requires OpComplete(u, n, doneAt) in TickOps(t, u, snapshot, report, now, doneAt, tuning, tr)
             || OpCompleteRow(u, n, doneAt) in TickOps(t, u, snapshot, report, now, doneAt, tuning, tr)
    requires now - reportAt < tuning.graceMs <= MAX_I64
    ensures report.SaysIdle? && OpenLatest(t, u) == Some(n)
    ensures var turn := t.turns[TurnKey(u, n)];
            turn.workingSeenAt.Some? || turn.deliveredAt < reportAt
  {
  }
}
