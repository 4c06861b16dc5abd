/** The loop and run transactions in terms of the columns they read and write. */
module LoopLaws {
  import opened Rows
  import opened LoopTx

  predicate Silent(t: LoopTables, e: LoopEffect) {
    e.tables == t && e.events == []
  }

  predicate NameTaken(t: LoopTables, u: Uuid, name: string) {
    exists v :: v in t.loops && v != u && t.loops[v].name == name
                && (t.loops[v].status == Active || t.loops[v].status == Paused)
  }

  /** Only loop `u` may differ, no loop is deleted, and no run is touched. */
  predicate OnlyLoop(t: LoopTables, t': LoopTables, u: Uuid) {
    && t'.runs == t.runs && t'.loops.Keys == t.loops.Keys
    && forall v :: v in t.loops && v != u ==> t'.loops[v] == t.loops[v]
  }

  /** Only run `r` may differ, no run is deleted, and no loop is touched. */
  predicate OnlyRun(t: LoopTables, t': LoopTables, r: Uuid) {
    && t'.loops == t.loops && t'.runs.Keys == t.runs.Keys
    && forall s :: s in t.runs && s != r ==> t'.runs[s] == t.runs[s]
  }

  // ---- definitions ----

  lemma CreateLaw(t: LoopTables, u: Uuid, l: NewLoop)
    ensures var e := CreateLoop(t, u, l);
            var refused := u in t.loops
                           || exists v :: v in t.loops && t.loops[v].name == l.name && t.loops[v].status != LoopEnded;
            && (refused ==> Silent(t, e))
            && (!refused ==>
                  && e.tables.runs == t.runs && e.tables.loops.Keys == t.loops.Keys + {u}
                  && (forall v :: v in t.loops ==> e.tables.loops[v] == t.loops[v])
                  && e.tables.loops[u]
                       == Loop(l.name, l.cadence, l.maxConcurrency, l.overlap, Active, l.nextFireAt, None)
                  && e.events == [LoopCreated(u)])
  {
  }

  /** Ending a loop clears its schedule; making one active or paused again needs its name to be free. */
  lemma SetStatusLaw(t: LoopTables, u: Uuid, status: LoopStatus)
    ensures var e := SetLoopStatus(t, u, status);
            if u in t.loops && status != LoopEnded && NameTaken(t, u, t.loops[u].name) then Silent(t, e)
            else
              && OnlyLoop(t, e.tables, u) && e.events == [LoopStatusSet(u, status)]
              && (u in t.loops ==>
                    && e.tables.loops[u].status == status
                    && e.tables.loops[u].nextFireAt == (if status == LoopEnded then None else t.loops[u].nextFireAt)
                    && t.loops[u]
                         == e.tables.loops[u].(status := t.loops[u].status, nextFireAt := t.loops[u].nextFireAt))
  {
  }

  lemma NextFireLaw(t: LoopTables, u: Uuid, at: Option<int>)
    ensures var e := SetNextFire(t, u, at);
            && OnlyLoop(t, e.tables, u) && e.events == []
            && (u in t.loops ==> e.tables.loops[u] == t.loops[u].(nextFireAt := at))
  {
  }

  // ---- firing ----

  /** The running and stopping runs of a loop. */
  function Occupied(t: LoopTables, loop: Uuid): set<Uuid> {
    set r | r in t.runs && t.runs[r].loop == loop && (t.runs[r].status == Running || t.runs[r].status == Stopping)
  }

  /** `r` is a scheduled run of the loop that waits. */
  predicate Waits(t: LoopTables, loop: Uuid, r: Uuid) {
    r in t.runs && t.runs[r].loop == loop && t.runs[r].kind == Scheduled && t.runs[r].status == Pending
  }

  /** A fire that gets no run of its own: a scheduled one at capacity, when it is dropped or another one waits. */
  ghost predicate Absorbed(t: LoopTables, loop: Uuid, kind: RunKind, max: int, overlap: Overlap) {
    kind == Scheduled && |Occupied(t, loop)| >= max && (overlap == Skip || exists r :: Waits(t, loop, r))
  }

  lemma OccupiedAreActive(t: LoopTables, loop: Uuid)
    ensures Occupied(t, loop) == ActiveRuns(t.runs, loop)
    ensures forall r :: Waits(t, loop, r) <==> PendingScheduled(t.runs, loop, r)
  {
  }

  /**
   * What a fire comes to. A new run is inserted unless the fire is absorbed; it is running exactly when the loop had a
   * free slot, whatever the kind of the fire, and pending otherwise. No other run is touched by that.
   */
  lemma FireStartsWhenFree(t: LoopTables, loop: Uuid, newId: Uuid, kind: RunKind, due: int, max: int, overlap: Overlap,
                           adv: Option<ScheduleAdvance>, now: int)
    requires newId !in t.runs
    ensures var e := AllocateRun(t, loop, newId, kind, due, max, overlap, adv, now);
            var free := |Occupied(t, loop)| < max;
            && (newId in e.tables.runs <==> !Absorbed(t, loop, kind, max, overlap))
            && (newId in e.tables.runs ==>
                  && e.tables.runs == t.runs[newId := e.tables.runs[newId]]
                  && e.tables.runs[newId].status == (if free then Running else Pending)
                  && e.tables.runs[newId].loop == loop && e.tables.runs[newId].kind == kind
                  && e.tables.runs[newId].dueAt == due && e.tables.runs[newId].createdAt == now
                  && e.tables.runs[newId].pid == None && e.tables.runs[newId].timeoutAt == None
                  && e.events != [] && e.events[0] == LoopFired(loop, newId, kind, due, !free))
  {
    OccupiedAreActive(t, loop);
  }

  /** An absorbed fire is dropped, or moves the due time of the run that waits forward, never back. */
  lemma AbsorbedFire(t: LoopTables, loop: Uuid, newId: Uuid, kind: RunKind, due: int, max: int, overlap: Overlap,
                     adv: Option<ScheduleAdvance>, now: int)
    requires Absorbed(t, loop, kind, max, overlap)
    ensures var e := AllocateRun(t, loop, newId, kind, due, max, overlap, adv, now);
            && e.events != []
            && if overlap == Skip then e.tables.runs == t.runs && e.events[0] == LoopSkipped(loop, due)
               else
                 exists r :: Waits(t, loop, r) && e.events[0] == LoopCoalesced(loop, r, due)
                   && e.tables.runs.Keys == t.runs.Keys
                   && (forall s :: s in t.runs && s != r ==> e.tables.runs[s] == t.runs[s])
                   && e.tables.runs[r] == t.runs[r].(dueAt := e.tables.runs[r].dueAt)
                   && e.tables.runs[r].dueAt <= due && e.tables.runs[r].dueAt <= t.runs[r].dueAt
                   && (e.tables.runs[r].dueAt == due || e.tables.runs[r].dueAt == t.runs[r].dueAt)
  {
    OccupiedAreActive(t, loop);
    if overlap != Skip {
      var r :| Waits(t, loop, r);
      assert PendingScheduled(t.runs, loop, r);
      var into := Decide(t, loop, kind, max, overlap).into;
      assert Waits(t, loop, into);
    }
  }

  /** What the caller is told is what the tables show: dropped, folded into a waiting run, or given its own. */
  lemma AnswerIsTrue(t: LoopTables, loop: Uuid, newId: Uuid, kind: RunKind, due: int, max: int, overlap: Overlap,
                     adv: Option<ScheduleAdvance>, now: int)
    requires newId !in t.runs
    ensures var runs := AllocateRun(t, loop, newId, kind, due, max, overlap, adv, now).tables.runs;
            match Decide(t, loop, kind, max, overlap)
            case Skipped => Absorbed(t, loop, kind, max, overlap) && runs == t.runs
            case Coalesced(r) => Absorbed(t, loop, kind, max, overlap) && Waits(t, loop, r) && runs.Keys == t.runs.Keys
            case Allocated(startNow) => newId in runs && (startNow <==> runs[newId].status == Running)
  {
    OccupiedAreActive(t, loop);
  }

  /** The schedule moves in the same transaction: a once loop ends, a cron loop gets its next fire, else it stays. */
  lemma FireAdvances(t: LoopTables, loop: Uuid, newId: Uuid, kind: RunKind, due: int, max: int, overlap: Overlap,
                     adv: Option<ScheduleAdvance>, now: int)
    requires newId !in t.runs
    ensures var e := AllocateRun(t, loop, newId, kind, due, max, overlap, adv, now);
            && e.tables.loops.Keys == t.loops.Keys
            && (forall v :: v in t.loops && v != loop ==> e.tables.loops[v] == t.loops[v])
            && (loop in t.loops ==>
                  var l := t.loops[loop];
                  e.tables.loops[loop]
                    == match adv
                       case None => l
                       case Some(EndOnce) => l.(lastFireAt := Some(now), status := LoopEnded, nextFireAt := None)
                       case Some(NextFire(at)) => l.(lastFireAt := Some(now), nextFireAt := at))
            && |e.events| == (if adv == Some(EndOnce) then 2 else 1)
            && (adv == Some(EndOnce) ==> e.events[1] == LoopStatusSet(loop, LoopEnded))
  {
  }

  /** A run id that is already there makes the transaction fail, unless the fire needs none. */
  lemma UsedIdAborts(t: LoopTables, loop: Uuid, newId: Uuid, kind: RunKind, due: int, max: int, overlap: Overlap,
                     adv: Option<ScheduleAdvance>, now: int)
    requires newId in t.runs && !Absorbed(t, loop, kind, max, overlap)
    ensures Silent(t, AllocateRun(t, loop, newId, kind, due, max, overlap, adv, now))
  {
    OccupiedAreActive(t, loop);
  }

  // ---- runs ----

  /** A claim starts the run only in a free slot, and only if no run of the loop has waited longer. */
  lemma ClaimLaw(t: LoopTables, loop: Uuid, max: int, r: Uuid)
    ensures var e := ClaimPending(t, loop, max, r);
            var first := r in t.runs && t.runs[r].loop == loop && t.runs[r].status == Pending
                         && forall s :: s in t.runs && t.runs[s].loop == loop && t.runs[s].status == Pending ==>
                              !(t.runs[s].dueAt < t.runs[r].dueAt)
                              && (t.runs[s].dueAt == t.runs[r].dueAt ==> t.runs[s].createdAt >= t.runs[r].createdAt);
            && e.events == []
            && if first && |Occupied(t, loop)| < max then
                 OnlyRun(t, e.tables, r) && e.tables.runs[r] == t.runs[r].(status := Running)
               else Silent(t, e)
  {
    OccupiedAreActive(t, loop);
  }

  /** The process is recorded for a run that is running or being stopped; its status stays. */
  lemma StartLaw(t: LoopTables, r: Uuid, pid: int, timeoutAt: Option<int>)
    ensures var e := RecordStart(t, r, pid, timeoutAt);
            if r in t.runs && (t.runs[r].status == Running || t.runs[r].status == Stopping) then
              && OnlyRun(t, e.tables, r) && e.events == [RunStarted(r)]
              && e.tables.runs[r] == t.runs[r].(pid := Some(pid), timeoutAt := timeoutAt)
            else Silent(t, e)
  {
  }

  lemma FinishRunLaw(t: LoopTables, r: Uuid, outcome: Outcome)
    ensures var e := FinishRun(t, r, outcome);
            if r in t.runs && (t.runs[r].status == Running || t.runs[r].status == Stopping) then
              && OnlyRun(t, e.tables, r) && e.events == [RunEnded(r, Done(outcome))]
              && e.tables.runs[r] == t.runs[r].(status := Done(outcome))
            else Silent(t, e)
  {
  }

  /** Only a running run can be stopped, only a waiting one canceled. */
  lemma StopAndCancelLaw(t: LoopTables, r: Uuid)
    ensures var stop, cancel := SetStopping(t, r), CancelPending(t, r);
            && (if r in t.runs && t.runs[r].status == Running then
                  OnlyRun(t, stop.tables, r) && stop.tables.runs[r] == t.runs[r].(status := RunStatus.Stopping)
                  && stop.events == [RunStopping(r)]
                else Silent(t, stop))
            && (if r in t.runs && t.runs[r].status == Pending then
                  OnlyRun(t, cancel.tables, r) && cancel.tables.runs[r] == t.runs[r].(status := Canceled)
                  && cancel.events == [RunEnded(r, Canceled)]
                else Silent(t, cancel))
  {
  }
}
