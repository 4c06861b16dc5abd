/** Any interleaving of loop and run transactions: slots, folded fires, and the run lifecycle over whole runs. */
module LoopOps {
  import opened Rows
  import opened LoopTx

  datatype LoopOp =
    | OpCreate(u: Uuid, new_: NewLoop)
    | OpSetStatus(u: Uuid, status: LoopStatus)
    | OpNextFire(u: Uuid, at: Option<int>)
    | OpAllocate(u: Uuid, newId: Uuid, kind: RunKind, due: int, max: int, overlap: Overlap,
                 adv: Option<ScheduleAdvance>, now: int)
    | OpClaim(u: Uuid, max: int, r: Uuid)
    | OpStart(r: Uuid, pid: int, timeoutAt: Option<int>)
    | OpFinish(r: Uuid, outcome: Outcome)
    | OpStopping(r: Uuid)
    | OpCancel(r: Uuid)

  ghost function Apply(t: LoopTables, op: LoopOp): LoopEffect {
    match op
    case OpCreate(u, l) => CreateLoop(t, u, l)
    case OpSetStatus(u, status) => SetLoopStatus(t, u, status)
    case OpNextFire(u, at) => SetNextFire(t, u, at)
    case OpAllocate(u, newId, kind, due, max, overlap, adv, now) =>
      AllocateRun(t, u, newId, kind, due, max, overlap, adv, now)
    case OpClaim(u, max, r) => ClaimPending(t, u, max, r)
    case OpStart(r, pid, timeoutAt) => RecordStart(t, r, pid, timeoutAt)
    case OpFinish(r, outcome) => FinishRun(t, r, outcome)
    case OpStopping(r) => SetStopping(t, r)
    case OpCancel(r) => CancelPending(t, r)
  }

  /** Call sites read the loop's row first and pass on its limits; `loop create` rejects a maximum below one. */
  predicate AsCalled(t: LoopTables, op: LoopOp) {
    match op
    case OpCreate(_, l) => l.maxConcurrency >= 1
    case OpSetStatus(u, _) => u in t.loops
    case OpNextFire(u, _) => u in t.loops
    case OpAllocate(u, _, kind, _, max, overlap, adv, _) =>
      && u in t.loops && max == t.loops[u].maxConcurrency && overlap == t.loops[u].overlap
      && (adv.Some? <==> kind == Scheduled)
    case OpClaim(u, max, _) => u in t.loops && max == t.loops[u].maxConcurrency
    case _ => true
  }

  // ---- runs and their history ----

  const NO_LOOPS: LoopTables := LoopTables(map[], map[])

  datatype History = History(tables: LoopTables, events: seq<Event>)

  ghost function After(h: History, op: LoopOp): History {
    var e := Apply(h.tables, op);
    History(e.tables, h.events + e.events)
  }

  ghost function Replayed(ops: seq<LoopOp>): History
    decreases |ops|
  {
    if ops == [] then History(NO_LOOPS, [])
    else After(Replayed(ops[..|ops| - 1]), ops[|ops| - 1])
  }

  ghost predicate ValidRun(ops: seq<LoopOp>)
    decreases |ops|
  {
    ops == [] || (ValidRun(ops[..|ops| - 1]) && AsCalled(Replayed(ops[..|ops| - 1]).tables, ops[|ops| - 1]))
  }

  // ---- limits never change under a stale reader ----

  predicate SameDefinition(a: Loop, b: Loop) {
    a.name == b.name && a.cadence == b.cadence && a.maxConcurrency == b.maxConcurrency && a.overlap == b.overlap
  }

  /** A loop row read at any earlier point still carries the current limits. */
  lemma DefinitionIsImmutable(t: LoopTables, op: LoopOp, u: Uuid)
    requires u in t.loops
    ensures u in Apply(t, op).tables.loops && SameDefinition(t.loops[u], Apply(t, op).tables.loops[u])
  {
  }

  // ---- slots ----

  /** No loop runs more than its maximum at once. */
  ghost predicate SlotsBounded(t: LoopTables) {
    forall u :: u in t.loops ==> t.loops[u].maxConcurrency >= 1 && |ActiveRuns(t.runs, u)| <= t.loops[u].maxConcurrency
  }

  /** At most one scheduled fire waits per loop, and none where overlapping fires are dropped. */
  ghost predicate OneWaits(t: LoopTables) {
    && (forall u, r, s :: PendingScheduled(t.runs, u, r) && PendingScheduled(t.runs, u, s) ==> r == s)
    && (forall r :: r in t.runs ==> t.runs[r].loop in t.loops)
    && forall u, r :: u in t.loops && PendingScheduled(t.runs, u, r) ==> t.loops[u].overlap == Queue
  }

  lemma SlotStep(t: LoopTables, op: LoopOp)
    requires SlotsBounded(t) && OneWaits(t) && AsCalled(t, op)
    ensures SlotsBounded(Apply(t, op).tables)
  {
    var t' := Apply(t, op).tables;
    forall u | u in t'.loops
      ensures t'.loops[u].maxConcurrency >= 1 && |ActiveRuns(t'.runs, u)| <= t'.loops[u].maxConcurrency
    {
      if u in t.loops {
        DefinitionIsImmutable(t, op, u);
        ActiveStep(t, op, u);
      } else {
        NewLoopIsIdle(t, op, u);
      }
    }
  }

  lemma NewLoopIsIdle(t: LoopTables, op: LoopOp, u: Uuid)
    requires OneWaits(t) && AsCalled(t, op) && u !in t.loops && u in Apply(t, op).tables.loops
    ensures ActiveRuns(Apply(t, op).tables.runs, u) == {} && Apply(t, op).tables.loops[u].maxConcurrency >= 1
  {
    assert op.OpCreate? && op.u == u;
  }

  /** Only a start under the limit adds an active run to a loop, and it adds one. */
  ghost predicate StartsUnderLimit(t: LoopTables, runs': map<Uuid, LoopRun>, u: Uuid) {
    var before, after := ActiveRuns(t.runs, u), ActiveRuns(runs', u);
    || |after| <= |before|
    || (|after| == |before| + 1 && u in t.loops && |before| < t.loops[u].maxConcurrency)
  }

  lemma ActiveStep(t: LoopTables, op: LoopOp, u: Uuid)
    requires OneWaits(t) && AsCalled(t, op)
    ensures StartsUnderLimit(t, Apply(t, op).tables.runs, u)
  {
    if op.OpAllocate? {
      ActiveAllocate(t, op, u);
    } else if op.OpClaim? {
      ActiveClaim(t, op, u);
    } else {
      ActiveOther(t, op, u);
      SubsetSize(ActiveRuns(Apply(t, op).tables.runs, u), ActiveRuns(t.runs, u));
    }
  }

  lemma ActiveAllocate(t: LoopTables, op: LoopOp, u: Uuid)
    requires AsCalled(t, op) && op.OpAllocate?
    ensures StartsUnderLimit(t, Apply(t, op).tables.runs, u)
  {
    var runs' := Apply(t, op).tables.runs;
    match Decide(t, op.u, op.kind, op.max, op.overlap)
    case Skipped =>
    case Coalesced(r) =>
      SameActive(t.runs, r, runs'[r], u);
    case Allocated(startNow) =>
      if op.newId !in t.runs {
        InsertedActive(t, op.newId, runs'[op.newId], u);
      }
  }

  lemma SameActive(runs: map<Uuid, LoopRun>, r: Uuid, row: LoopRun, u: Uuid)
    requires r in runs && (Occupies(row, u) <==> Occupies(runs[r], u))
    ensures ActiveRuns(runs[r := row], u) == ActiveRuns(runs, u)
  {
  }

  lemma InsertedActive(t: LoopTables, r: Uuid, row: LoopRun, u: Uuid)
    requires r !in t.runs
    requires Occupies(row, u) ==> u in t.loops && |ActiveRuns(t.runs, u)| < t.loops[u].maxConcurrency
    ensures StartsUnderLimit(t, t.runs[r := row], u)
  {
    assert ActiveRuns(t.runs[r := row], u) == ActiveRuns(t.runs, u) + if Occupies(row, u) then {r} else {};
  }

  lemma ActiveClaim(t: LoopTables, op: LoopOp, u: Uuid)
    requires AsCalled(t, op) && op.OpClaim?
    ensures StartsUnderLimit(t, Apply(t, op).tables.runs, u)
  {
    var before, after := ActiveRuns(t.runs, u), ActiveRuns(Apply(t, op).tables.runs, u);
    if |ActiveRuns(t.runs, op.u)| < op.max && OldestPending(t.runs, op.u, op.r) && op.u == u {
      assert after == before + {op.r};
    } else {
      assert after == before;
    }
  }

  lemma ActiveOther(t: LoopTables, op: LoopOp, u: Uuid)
    requires !op.OpAllocate? && !op.OpClaim?
    ensures ActiveRuns(Apply(t, op).tables.runs, u) <= ActiveRuns(t.runs, u)
  {
  }

  lemma WaitStep(t: LoopTables, op: LoopOp)
    requires OneWaits(t) && AsCalled(t, op)
    ensures OneWaits(Apply(t, op).tables)
  {
    var t' := Apply(t, op).tables;
    if op.OpAllocate? {
      AllocateWaits(t, op);
    } else {
      assert forall u, r :: PendingScheduled(t'.runs, u, r) ==> PendingScheduled(t.runs, u, r);
      assert forall u :: u in t.loops ==> u in t'.loops;
    }
  }

  lemma AllocateWaits(t: LoopTables, op: LoopOp)
    requires OneWaits(t) && AsCalled(t, op) && op.OpAllocate?
    ensures OneWaits(Apply(t, op).tables)
  {
    var t' := Apply(t, op).tables;
    var d := Decide(t, op.u, op.kind, op.max, op.overlap);
    forall u, r | PendingScheduled(t'.runs, u, r)
      ensures PendingScheduled(t.runs, u, r)
              || (r == op.newId && u == op.u && op.overlap == Queue && !exists s :: PendingScheduled(t.runs, u, s))
    {
    }
  }

  // ---- folded fires ----

  predicate FiresInto(e: Event, r: Uuid) {
    (e.LoopFired? && e.run == r) || (e.LoopCoalesced? && e.run == r)
  }

  /** `due_at` of a run is the least due time of all the fires the log says went into it. */
  ghost predicate DueIsEarliest(h: History) {
    && (forall r, i :: r in h.tables.runs && 0 <= i < |h.events| && FiresInto(h.events[i], r)
                       ==> h.tables.runs[r].dueAt <= h.events[i].dueAt)
    && (forall r :: r in h.tables.runs ==> DueLogged(h, r))
    && (forall r, i :: 0 <= i < |h.events| && FiresInto(h.events[i], r) ==> r in h.tables.runs)
  }

  lemma DueStep(h: History, op: LoopOp)
    requires DueIsEarliest(h)
    ensures DueIsEarliest(After(h, op))
  {
    FireEvents(h.tables, op);
    forall r | r in After(h, op).tables.runs
      ensures DueLogged(After(h, op), r)
    {
      DueIsLogged(h, op, r);
    }
    forall r, i: nat | i < |After(h, op).events| && FiresInto(After(h, op).events[i], r)
      ensures r in After(h, op).tables.runs && After(h, op).tables.runs[r].dueAt <= After(h, op).events[i].dueAt
    {
      DueIsLeast(h, op, r, i);
    }
  }

  /** Some fire that went into run `r` was due exactly when the run is. */
  ghost predicate DueLogged(h: History, r: Uuid)
    requires r in h.tables.runs
  {
    exists i :: 0 <= i < |h.events| && FiresInto(h.events[i], r) && h.events[i].dueAt == h.tables.runs[r].dueAt
  }

  lemma DueIsLogged(h: History, op: LoopOp, r: Uuid)
    requires DueIsEarliest(h) && FiresMatch(h.tables, Apply(h.tables, op)) && r in After(h, op).tables.runs
    ensures DueLogged(After(h, op), r)
  {
    var h', evs := After(h, op), Apply(h.tables, op).events;
    if r in h.tables.runs && h.tables.runs[r].dueAt == h'.tables.runs[r].dueAt {
      var i :| 0 <= i < |h.events| && FiresInto(h.events[i], r) && h.events[i].dueAt == h.tables.runs[r].dueAt;
      assert h'.events[i] == h.events[i];
    } else {
      assert h'.events[|h.events|] == evs[0];
    }
  }

  lemma DueIsLeast(h: History, op: LoopOp, r: Uuid, i: nat)
    requires DueIsEarliest(h) && FiresMatch(h.tables, Apply(h.tables, op))
    requires i < |After(h, op).events| && FiresInto(After(h, op).events[i], r)
    ensures r in After(h, op).tables.runs && After(h, op).tables.runs[r].dueAt <= After(h, op).events[i].dueAt
  {
    var h', evs := After(h, op), Apply(h.tables, op).events;
    if i < |h.events| {
      assert h'.events[i] == h.events[i];
    } else {
      assert h'.events[i] == evs[i - |h.events|];
    }
  }

  /** How one transaction's due times and fire events hang together. */
  ghost predicate FiresMatch(t: LoopTables, e: LoopEffect) {
    && (forall r :: r in t.runs ==> r in e.tables.runs && e.tables.runs[r].dueAt <= t.runs[r].dueAt)
    && (forall r :: r in e.tables.runs && !(r in t.runs && t.runs[r].dueAt == e.tables.runs[r].dueAt) ==>
          |e.events| > 0 && FiresInto(e.events[0], r) && e.events[0].dueAt == e.tables.runs[r].dueAt)
    && (forall r, i :: 0 <= i < |e.events| && FiresInto(e.events[i], r) ==>
          r in e.tables.runs && e.tables.runs[r].dueAt <= e.events[i].dueAt)
  }

  lemma FireEvents(t: LoopTables, op: LoopOp)
    ensures FiresMatch(t, Apply(t, op))
  {
    if op.OpAllocate? {
      FireEventsAllocate(t, op);
    }
  }

  lemma FireEventsAllocate(t: LoopTables, op: LoopOp)
    requires op.OpAllocate?
    ensures FiresMatch(t, Apply(t, op))
  {
    var d := Decide(t, op.u, op.kind, op.max, op.overlap);
  }

  // ---- run lifecycle ----

  predicate Final(s: RunStatus) {
    s.Done? || s.Canceled?
  }

  /** pending, running, stopping, final: the only ways a status may move. */
  predicate Advances(a: RunStatus, b: RunStatus) {
    || a == b
    || (a == Pending && b == Running) || (a == Pending && b == Canceled)
    || (a == Running && b == Stopping)
    || ((a == Running || a == Stopping) && b.Done?)
  }

  lemma RunAdvances(t: LoopTables, op: LoopOp, r: Uuid)
    requires r in t.runs
    ensures r in Apply(t, op).tables.runs && Advances(t.runs[r].status, Apply(t, op).tables.runs[r].status)
    ensures Final(t.runs[r].status) ==> Apply(t, op).tables.runs[r].status == t.runs[r].status
  {
  }

  /** How far along its life a run is. */
  function Rank(s: RunStatus): nat {
    match s
    case Pending => 0
    case Running => 1
    case Stopping => 2
    case _ => 3
  }

  /** Between any two points of a run of transactions no loop run is lost, goes back, or leaves a final status. */
  lemma {:induction false} StatusOnlyAdvances(ops: seq<LoopOp>, k: nat, r: Uuid)
    requires k <= |ops| && r in Replayed(ops[..k]).tables.runs
    ensures var was := Replayed(ops[..k]).tables.runs[r].status;
            && r in Replayed(ops).tables.runs
            && var now := Replayed(ops).tables.runs[r].status;
               Rank(was) <= Rank(now) && (Final(was) ==> now == was)
    decreases |ops|
  {
    if k == |ops| {
      assert ops[..k] == ops;
    } else {
      var n := |ops| - 1;
      assert ops[..n][..k] == ops[..k];
      StatusOnlyAdvances(ops[..n], k, r);
      RunAdvances(Replayed(ops[..n]).tables, ops[n], r);
    }
  }

  function CountEnds(evs: seq<Event>, r: Uuid): nat {
    if evs == [] then 0
    else CountEnds(evs[..|evs| - 1], r) + if evs[|evs| - 1].RunEnded? && evs[|evs| - 1].run == r then 1 else 0
  }

  lemma {:induction false} CountEndsConcat(a: seq<Event>, b: seq<Event>, r: Uuid)
    ensures CountEnds(a + b, r) == CountEnds(a, r) + CountEnds(b, r)
    decreases |b|
  {
    if b == [] {
      assert a + b == a;
    } else {
      assert (a + b)[..|a + b| - 1] == a + b[..|b| - 1];
      CountEndsConcat(a, b[..|b| - 1], r);
    }
  }

  /** A run has logged its end exactly once if it is final and never otherwise. */
  ghost predicate EndsOnce(h: History, r: Uuid) {
    CountEnds(h.events, r) == if r in h.tables.runs && Final(h.tables.runs[r].status) then 1 else 0
  }

  lemma EndStep(h: History, op: LoopOp, r: Uuid)
    requires EndsOnce(h, r)
    ensures EndsOnce(After(h, op), r)
  {
    CountEndsConcat(h.events, Apply(h.tables, op).events, r);
    EndEvents(h.tables, op, r);
  }

  /** One transaction logs the end of `r` exactly when it makes `r` final. */
  lemma EndEvents(t: LoopTables, op: LoopOp, r: Uuid)
    ensures var t' := Apply(t, op).tables;
            CountEnds(Apply(t, op).events, r)
              == if r in t'.runs && Final(t'.runs[r].status) && !(r in t.runs && Final(t.runs[r].status)) then 1 else 0
  {
    var evs := Apply(t, op).events;
    assert |evs| <= 2;
    if |evs| == 1 {
      assert evs[..0] == [];
    } else if |evs| == 2 {
      assert evs[..1] == [evs[0]] && [evs[0]][..0] == [];
    }
  }

  // ---- over whole runs ----

  ghost predicate LoopInv(h: History) {
    && SlotsBounded(h.tables) && OneWaits(h.tables) && DueIsEarliest(h)
    && forall r :: EndsOnce(h, r)
  }

  lemma {:induction false} RunsKeepLoopInv(ops: seq<LoopOp>)
    requires ValidRun(ops)
    ensures LoopInv(Replayed(ops))
    decreases |ops|
  {
    if ops != [] {
      var h, op := Replayed(ops[..|ops| - 1]), ops[|ops| - 1];
      RunsKeepLoopInv(ops[..|ops| - 1]);
      SlotStep(h.tables, op);
      WaitStep(h.tables, op);
      DueStep(h, op);
      forall r
        ensures EndsOnce(After(h, op), r)
      {
        EndStep(h, op, r);
      }
    }
  }
}
