/**
 * The scheduler's tick and the restart recovery, executed by one thread against the store: what each leaves behind,
 * and that each is a run of the fire-accounting steps.
 */
module Scheduler {
  import opened Rows
  import opened EventLog
  import opened LoopTx
  import L = LoopOps
  import opened FireAccounting
  import S = Store

  /** A run of the steps of one thread, none of which reschedules a loop behind the scheduler's back. */
  ghost predicate Runs(s: Sys, steps: seq<Step>, c: Sys) {
    Leads(s, steps, c) && forall i :: 0 <= i < |steps| ==> !steps[i].Reschedule?
  }

  lemma Then(s: Sys, steps: seq<Step>, c: Sys, step: Step) returns (steps': seq<Step>)
    requires Runs(s, steps, c) && Enabled(c, step) && !step.Reschedule?
    ensures Runs(s, steps', Do(c, step))
  {
    steps' := OneMore(s, steps, c, step);
  }

  lemma {:induction false} RunsAreFresh(s: Sys, steps: seq<Step>, c: Sys, u: Uuid)
    requires Runs(s, steps, c)
    ensures FreshRun(s, steps, u)
    decreases |steps|
  {
    if steps != [] {
      var k := |steps| - 1;
      RunsAreFresh(s, steps[..k], AfterSteps(s, steps[..k]), u);
    }
  }

  /** The once and cron promises survive any such run. */
  lemma OwnPathKeepsPromises(s: Sys, steps: seq<Step>, c: Sys, u: Uuid)
    requires Runs(s, steps, c) && ClockOk(s) && Fine(LedgerOf(s, u))
    ensures ClockOk(c) && Fine(LedgerOf(c, u))
    ensures u in c.h.tables.loops && c.h.tables.loops[u].cadence == Once ==> OncePromise(c, u)
    ensures u in c.h.tables.loops && c.h.tables.loops[u].cadence == Cron ==> CronPromise(c, u)
  {
    RunsAreFresh(s, steps, c, u);
    LedgersStayFine(s, steps, u);
  }

  /** The store holds the loops and runs of `c`, and has logged its events behind `log0`. */
  ghost predicate Tracks(store: S.Store, log0: EventTable, c: Sys)
    reads store
  {
    store.Loops() == c.h.tables && store.log == log0.AppendAll(c.h.events)
  }

  // ---- the tick ----

  /** The transaction of a scheduled fire of `u`. */
  ghost function FireEffect(c: Sys, u: Uuid, newId: Uuid, next: Option<int>): LoopEffect
    requires u in c.tick && u in c.h.tables.loops
  {
    var l := c.h.tables.loops[u];
    AllocateRun(c.h.tables, u, newId, Scheduled, c.tick[u], l.maxConcurrency, l.overlap, Some(AdvanceFor(l, next)),
                c.clock)
  }

  /** Occurrence `d` of `u` is logged once more, its schedule is advanced, and no other loop is touched. */
  ghost predicate Fired(c: Sys, c': Sys, u: Uuid, d: int, next: Option<int>) {
    && u in c.h.tables.loops
    && c'.h.tables.loops
         == c.h.tables.loops[u := Advanced(c.h.tables.loops[u], AdvanceFor(c.h.tables.loops[u], next), c.clock)]
    && FireDues(c'.h.events, u) == FireDues(c.h.events, u) + [d]
    && forall v :: v != u ==> FireDues(c'.h.events, v) == FireDues(c.h.events, v)
  }

  lemma FireFires(c: Sys, u: Uuid, newId: Uuid, next: Option<int>)
    requires Enabled(c, Fire(u, newId, next, c.clock)) && newId !in c.h.tables.runs
    ensures Fired(c, Do(c, Fire(u, newId, next, c.clock)), u, c.tick[u], next)
  {
    var fire := Fire(u, newId, next, c.clock);
    FireHappens(c, fire);
    FireRow(c, fire);
    FireLog(c, fire);
    DuesConcat(c.h.events, NewEvents(c, fire), u);
    forall v | v != u
      ensures FireDues(Do(c, fire).h.events, v) == FireDues(c.h.events, v)
    {
      QuietLog(c, fire, v);
    }
  }

  lemma FireKeeps(c: Sys, u: Uuid, newId: Uuid, next: Option<int>)
    requires u in c.tick && u in c.h.tables.loops && L.OneWaits(c.h.tables)
    ensures L.OneWaits(FireEffect(c, u, newId, next).tables)
    ensures FireEffect(c, u, newId, next).tables.runs.Keys <= c.h.tables.runs.Keys + {newId}
  {
    var l := c.h.tables.loops[u];
    L.WaitStep(c.h.tables, L.OpAllocate(u, newId, Scheduled, c.tick[u], l.maxConcurrency, l.overlap,
                                        Some(AdvanceFor(l, next)), c.clock));
  }

  lemma TakeFire(s: Sys, steps: seq<Step>, c: Sys, u: Uuid, newId: Uuid, next: Option<int>)
    returns (steps': seq<Step>, c': Sys)
    requires Runs(s, steps, c) && Enabled(c, Fire(u, newId, next, c.clock)) && newId !in c.h.tables.runs
    ensures Runs(s, steps', c') && Fired(c, c', u, c.tick[u], next)
    ensures var e := FireEffect(c, u, newId, next);
            c' == c.(h := L.History(e.tables, c.h.events + e.events), tick := c.tick - {u})
  {
    steps' := Then(s, steps, c, Fire(u, newId, next, c.clock));
    c' := Do(c, Fire(u, newId, next, c.clock));
    FireFires(c, u, newId, next);
  }

  /** `fire_loop` for one due loop, from the row read at the start of the tick. */
  method FireLoop(store: S.Store, u: Uuid, l: Loop, newId: Uuid, next: Option<int>, now: int,
                  ghost log0: EventTable, ghost s: Sys, ghost before: seq<Step>, ghost c: Sys)
    returns (ghost steps: seq<Step>, ghost c': Sys)
    requires Runs(s, before, c) && Tracks(store, log0, c) && c.clock == now && Enabled(c, Fire(u, newId, next, now))
    requires L.SameDefinition(l, c.h.tables.loops[u]) && l.nextFireAt == Some(c.tick[u]) && L.OneWaits(c.h.tables)
    requires newId !in c.h.tables.runs
    modifies store
    ensures Runs(s, steps, c') && Tracks(store, log0, c') && L.OneWaits(c'.h.tables)
    ensures Fired(c, c', u, l.nextFireAt.value, next) && c'.h.tables.runs.Keys <= c.h.tables.runs.Keys + {newId}
    ensures c' == c.(h := c'.h, tick := c.tick - {u})
  {
    steps, c' := TakeFire(s, before, c, u, newId, next);
    FireKeeps(c, u, newId, next);
    var adv := if l.cadence == Once then EndOnce else NextFire(next);
    AppendAllSplit(log0, c.h.events, FireEffect(c, u, newId, next).events);
    var _, _ := store.AllocateRun(u, newId, Scheduled, l.nextFireAt.value, l.maxConcurrency, l.overlap, Some(adv), now);
  }

  /** The first `i` due loops have fired, everything else about loops and fires is as it was. */
  ghost predicate FiredUpTo(s: Sys, c: Sys, due: seq<Uuid>, nexts: seq<Option<int>>, i: nat) {
    && |nexts| == |due| && i <= |due| && c.h.tables.loops.Keys == s.h.tables.loops.Keys
    && (forall j :: 0 <= j < |due| ==> due[j] in s.h.tables.loops && s.h.tables.loops[due[j]].nextFireAt.Some?)
    && (forall j :: 0 <= j < i ==> FiredRow(s, c, due[j], nexts[j]))
    && forall u :: u !in due[..i] ==>
         && FireDues(c.h.events, u) == FireDues(s.h.events, u)
         && (u in s.h.tables.loops ==> c.h.tables.loops[u] == s.h.tables.loops[u])
  }

  ghost predicate FiredRow(s: Sys, c: Sys, u: Uuid, next: Option<int>)
    requires u in s.h.tables.loops && s.h.tables.loops[u].nextFireAt.Some?
  {
    var l := s.h.tables.loops[u];
    && u in c.h.tables.loops && c.h.tables.loops[u] == Advanced(l, AdvanceFor(l, next), s.clock)
    && FireDues(c.h.events, u) == FireDues(s.h.events, u) + [l.nextFireAt.value]
  }

  lemma FiredNext(s: Sys, c: Sys, c': Sys, due: seq<Uuid>, nexts: seq<Option<int>>, i: nat)
    requires i < |due| && FiredUpTo(s, c, due, nexts, i) && c.clock == s.clock
    requires AllDistinct(due)
    requires Fired(c, c', due[i], s.h.tables.loops[due[i]].nextFireAt.value, nexts[i])
    ensures FiredUpTo(s, c', due, nexts, i + 1)
  {
    assert due[i] !in due[..i];
    assert due[..i + 1] == due[..i] + [due[i]];
    forall j | 0 <= j < i + 1
      ensures FiredRow(s, c', due[j], nexts[j])
    {
      if j < i {
        assert FiredRow(s, c, due[j], nexts[j]) && due[j] != due[i];
      }
    }
  }

  /** What the tick was read as, and what is left of it after `i` loops. */
  ghost predicate TickLeft(s: Sys, c: Sys, due: seq<Uuid>, i: nat) {
    && i <= |due|
    && (forall u :: u in c.tick <==> exists j :: i <= j < |due| && due[j] == u)
    && forall u :: u in c.tick ==> u in s.h.tables.loops && s.h.tables.loops[u].nextFireAt == Some(c.tick[u])
  }

  predicate AllDistinct(ids: seq<Uuid>) {
    forall i, j :: 0 <= i < j < |ids| ==> ids[i] != ids[j]
  }

  lemma TickNext(s: Sys, c: Sys, c': Sys, due: seq<Uuid>, i: nat)
    requires i < |due| && TickLeft(s, c, due, i) && AllDistinct(due) && c'.tick == c.tick - {due[i]}
    ensures TickLeft(s, c', due, i + 1)
  {
  }

  /** The next loop of the tick still has the row it was read with. */
  lemma DueNext(s: Sys, c: Sys, due: seq<Uuid>, nexts: seq<Option<int>>, i: nat)
    requires i < |due| && TickLeft(s, c, due, i) && FiredUpTo(s, c, due, nexts, i) && AllDistinct(due)
    ensures due[i] in c.tick && due[i] in c.h.tables.loops && c.h.tables.loops[due[i]] == s.h.tables.loops[due[i]]
    ensures s.h.tables.loops[due[i]].nextFireAt == Some(c.tick[due[i]])
  {
    assert due[i] !in due[..i];
  }

  /** The tick just read. */
  lemma TickRead(s: Sys, due: seq<Uuid>, nexts: seq<Option<int>>)
    requires Enabled(s, ReadDue) && AllDue(s, due) && |nexts| == |due|
    ensures TickLeft(s, Do(s, ReadDue), due, 0) && FiredUpTo(s, Do(s, ReadDue), due, nexts, 0)
  {
    assert forall j :: 0 <= j < |due| ==> due[j] in due;
  }

  ghost predicate AllDue(s: Sys, due: seq<Uuid>) {
    && (forall u :: u in due <==>
          && u in s.h.tables.loops && s.h.tables.loops[u].status == Active && s.h.tables.loops[u].nextFireAt.Some?
          && s.h.tables.loops[u].nextFireAt.value <= s.clock)
    && AllDistinct(due)
  }

  /** The ids drawn for the runs are new. */
  ghost predicate NewIds(runs: map<Uuid, LoopRun>, newIds: seq<Uuid>, from: nat) {
    && (forall i :: from <= i < |newIds| ==> newIds[i] !in runs)
    && AllDistinct(newIds)
  }

  lemma NewIdsNext(runs: map<Uuid, LoopRun>, runs': map<Uuid, LoopRun>, newIds: seq<Uuid>, i: nat)
    requires i < |newIds| && NewIds(runs, newIds, i) && runs'.Keys <= runs.Keys + {newIds[i]}
    ensures NewIds(runs', newIds, i + 1)
  {
  }

  /** `fire_due_loops`: read the due loops once, then fire each of them once from that reading. */
  method FireDueLoops(store: S.Store, due: seq<Uuid>, newIds: seq<Uuid>, nexts: seq<Option<int>>, now: int,
                      ghost log0: EventTable, ghost s: Sys)
    returns (ghost steps: seq<Step>, ghost c: Sys)
    requires Runs(s, [], s) && Tracks(store, log0, s) && L.OneWaits(s.h.tables)
    requires s.phase == Up && s.tick == map[] && s.clock == now && |newIds| == |nexts| == |due|
    requires AllDue(s, due) && NewIds(s.h.tables.runs, newIds, 0) && forall i :: 0 <= i < |due| ==> Later(nexts[i], now)
    modifies store
    ensures Runs(s, steps, c) && Tracks(store, log0, c) && FiredUpTo(s, c, due, nexts, |due|)
    ensures c.tick == map[] && c.phase == Up && L.OneWaits(c.h.tables)
  {
    var snapshot := store.loops;
    steps := Then(s, [], s, ReadDue);
    c := Do(s, ReadDue);
    TickRead(s, due, nexts);
    var i := 0;
    while i < |due|
      invariant i <= |due| && Runs(s, steps, c) && Tracks(store, log0, c) && L.OneWaits(c.h.tables)
      invariant c == s.(h := c.h, tick := c.tick, tickAt := now) && snapshot == s.h.tables.loops
      invariant TickLeft(s, c, due, i) && FiredUpTo(s, c, due, nexts, i) && NewIds(c.h.tables.runs, newIds, i)
    {
      ghost var was := c;
      DueNext(s, c, due, nexts, i);
      steps, c := FireLoop(store, due[i], snapshot[due[i]], newIds[i], nexts[i], now, log0, s, steps, c);
      TickNext(s, was, c, due, i);
      FiredNext(s, was, c, due, nexts, i);
      NewIdsNext(was.h.tables.runs, c.h.tables.runs, newIds, i);
      i := i + 1;
    }
    assert c.tick.Keys == {};
  }

  // ---- restart recovery: one loop ----

  lemma TakeRun(s: Sys, steps: seq<Step>, c: Sys, op: L.LoopOp) returns (steps': seq<Step>, c': Sys)
    requires Runs(s, steps, c) && c.phase != Down && OnlyRuns(op)
    ensures Runs(s, steps', c') && c' == c.(h := L.After(c.h, op)) && c'.h.tables.loops == c.h.tables.loops
    ensures SameMisses(c, c')
  {
    steps' := Then(s, steps, c, RunStep(op));
    c' := Do(c, RunStep(op));
    RunsKeepLoops(c, RunStep(op));
    forall u
      ensures MissDues(c'.h.events, u) == MissDues(c.h.events, u)
    {
      QuietLog(c, RunStep(op), u);
    }
  }

  ghost predicate SameMisses(c: Sys, c': Sys) {
    forall u :: MissDues(c'.h.events, u) == MissDues(c.h.events, u)
  }

  /** What becomes of an active run whose process is gone: `stopped` if the crash fell into a stop, else `failed`. */
  function CloseOut(run: LoopRun): LoopRun {
    run.(status := Done(if run.status == RunStatus.Stopping then Stopped else Failed))
  }

  /** The runs with those in `gone` closed out. */
  function ClosedOut(runs: map<Uuid, LoopRun>, gone: set<Uuid>): map<Uuid, LoopRun> {
    map r | r in runs :: if r in gone then CloseOut(runs[r]) else runs[r]
  }

  function DeadRuns(runs: map<Uuid, LoopRun>, u: Uuid, dead: set<Uuid>): set<Uuid> {
    set r | r in ActiveRuns(runs, u) && r in dead
  }

  /** Closes out exactly the active runs of `u` whose process is gone. */
  method CloseDeadRuns(store: S.Store, u: Uuid, dead: set<Uuid>, ghost log0: EventTable, ghost s: Sys,
                       ghost before: seq<Step>, ghost c: Sys)
    returns (ghost steps: seq<Step>, ghost c': Sys)
    requires Runs(s, before, c) && Tracks(store, log0, c) && c.phase != Down
    modifies store
    ensures Runs(s, steps, c') && Tracks(store, log0, c')
    ensures c' == c.(h := c'.h) && c'.h.tables.loops == c.h.tables.loops && SameMisses(c, c')
    ensures c'.h.tables.runs == ClosedOut(c.h.tables.runs, DeadRuns(c.h.tables.runs, u, dead))
    ensures forall r :: r in c.h.tables.runs ==>
              var run := c.h.tables.runs[r];
              r in c'.h.tables.runs && c'.h.tables.runs[r]
                == if run.loop != u || r !in dead then run
                   else if run.status == Running then run.(status := Done(Failed))
                   else if run.status == RunStatus.Stopping then run.(status := Done(Stopped)) else run
  {
    steps, c' := before, c;
    var snapshot := store.runs;
    var todo := set r | r in ActiveRuns(store.runs, u) && r in dead;
    ghost var all := todo;
    assert ClosedOut(snapshot, all - todo) == snapshot;
    while todo != {}
      invariant Runs(s, steps, c') && Tracks(store, log0, c') && SameMisses(c, c')
      invariant c' == c.(h := c'.h) && c'.h.tables.loops == c.h.tables.loops
      invariant todo <= all == DeadRuns(snapshot, u, dead) && c'.h.tables.runs == ClosedOut(snapshot, all - todo)
      decreases todo
    {
      var r :| r in todo;
      var outcome := if snapshot[r].status == RunStatus.Stopping then Stopped else Failed;
      AppendAllSplit(log0, c'.h.events, FinishRun(c'.h.tables, r, outcome).events);
      CloseOne(c'.h.tables, snapshot, all, todo, r);
      steps, c' := TakeRun(s, steps, c', L.OpFinish(r, outcome));
      var _ := store.FinishRun(r, outcome);
      todo := todo - {r};
    }
    assert all - todo == all;
  }

  lemma CloseOne(t: LoopTables, runs: map<Uuid, LoopRun>, all: set<Uuid>, todo: set<Uuid>, r: Uuid)
    requires r in todo && todo <= all && t.runs == ClosedOut(runs, all - todo)
    requires r in runs && (runs[r].status == Running || runs[r].status == RunStatus.Stopping)
    ensures var outcome := if runs[r].status == RunStatus.Stopping then Stopped else Failed;
            FinishRun(t, r, outcome).tables.runs == ClosedOut(runs, all - (todo - {r}))
  {
  }

  predicate NonePending(runs: map<Uuid, LoopRun>, u: Uuid) {
    forall r :: r in runs && runs[r].loop == u ==> runs[r].status != Pending
  }

  /**
   * Starting a waiting run of loop `l`: none exactly when the loop is not active, has no free slot, or has nothing
   * pending; otherwise the earliest pending run is running and no other run is touched.
   */
  predicate Promotes(runs: map<Uuid, LoopRun>, runs': map<Uuid, LoopRun>, u: Uuid, l: Loop, claimed: Option<Uuid>) {
    var startable := l.status == Active && |ActiveRuns(runs, u)| < l.maxConcurrency && !NonePending(runs, u);
    match claimed
    case None => !startable && runs' == runs
    case Some(r) => startable && OldestPending(runs, u, r) && runs' == runs[r := runs[r].(status := Running)]
  }

  /** `promote_pending`. */
  method PromotePending(store: S.Store, u: Uuid, ghost log0: EventTable, ghost s: Sys, ghost before: seq<Step>,
                        ghost c: Sys)
    returns (claimed: Option<Uuid>, ghost steps: seq<Step>, ghost c': Sys)
    requires Runs(s, before, c) && Tracks(store, log0, c) && c.phase != Down
    modifies store
    ensures Runs(s, steps, c') && Tracks(store, log0, c')
    ensures c' == c.(h := c'.h) && c'.h.tables.loops == c.h.tables.loops && SameMisses(c, c')
    ensures if u in c.h.tables.loops then Promotes(c.h.tables.runs, c'.h.tables.runs, u, c.h.tables.loops[u], claimed)
            else claimed.None? && c' == c
  {
    steps, c', claimed := before, c, None;
    if u in store.loops && store.loops[u].status == Active {
      ghost var max := store.loops[u].maxConcurrency;
      claimed := store.ClaimPendingRun(u, store.loops[u].maxConcurrency);
      if claimed.Some? {
        ClaimWrites(c.h.tables, u, max, claimed.value);
        assert c.h.events + [] == c.h.events;
        steps, c' := TakeRun(s, steps, c', L.OpClaim(u, max, claimed.value));
      }
    }
  }

  /** A claim that wrote anything found a free slot. */
  lemma ClaimWrites(t: LoopTables, u: Uuid, max: int, r: Uuid)
    requires ClaimPending(t, u, max, r).tables != t
    ensures |ActiveRuns(t.runs, u)| < max && OldestPending(t.runs, u, r) && ClaimPending(t, u, max, r).events == []
  {
  }

  /** A fire that fell due while the server was down. */
  predicate Missed(l: Loop, now: int) {
    l.status != LoopEnded && l.nextFireAt.Some? && l.nextFireAt.value <= now
  }

  /** A missed once loop ends, a missed cron loop is rescheduled, any other loop is left as it is. */
  function SettledRow(l: Loop, next: Option<int>, now: int): Loop {
    if !Missed(l, now) then l else if l.cadence == Once then WithStatus(l, LoopEnded) else l.(nextFireAt := next)
  }

  function MissOf(l: Loop, now: int): seq<int> {
    if Missed(l, now) then [l.nextFireAt.value] else []
  }

  /** The loop row is settled, its missed fire logged once, and no other loop's row or misses change. */
  ghost predicate Settles(c: Sys, c': Sys, u: Uuid, next: Option<int>, now: int) {
    && u in c.h.tables.loops && c'.h.tables.runs == c.h.tables.runs
    && c'.h.tables.loops == c.h.tables.loops[u := SettledRow(c.h.tables.loops[u], next, now)]
    && MissDues(c'.h.events, u) == MissDues(c.h.events, u) + MissOf(c.h.tables.loops[u], now)
    && forall v :: v != u ==> MissDues(c'.h.events, v) == MissDues(c.h.events, v)
  }

  /** Logging and settling, as two steps with nothing in between. */
  lemma TakeMissed(s: Sys, steps: seq<Step>, c: Sys, u: Uuid, next: Option<int>) returns (steps': seq<Step>, c': Sys)
    requires Runs(s, steps, c) && Enabled(c, SettleMissed(u, next))
    ensures var l, missed := c.h.tables.loops[u], LoopMissed(u, c.h.tables.loops[u].nextFireAt.value);
            var settled := if l.cadence == Once then SetLoopStatus(c.h.tables, u, LoopEnded)
                           else SetNextFire(c.h.tables, u, next);
            && Runs(s, steps', c')
            && c' == c.(h := L.History(settled.tables, c.h.events + [missed] + settled.events),
                        phase := Recovering(c.phase.todo - {u}))
    ensures Settles(c, c', u, next, c.bootAt)
  {
    steps' := Then(s, steps, c, LogMissed(u));
    var mid := Do(c, LogMissed(u));
    steps' := Then(s, steps', mid, SettleMissed(u, next));
    c' := Do(mid, SettleMissed(u, next));
    MissedLog(c, u, next);
  }

  lemma MissedLog(c: Sys, u: Uuid, next: Option<int>)
    requires Enabled(c, SettleMissed(u, next))
    ensures var c' := Do(Do(c, LogMissed(u)), SettleMissed(u, next));
            && MissDues(c'.h.events, u) == MissDues(c.h.events, u) + [c.h.tables.loops[u].nextFireAt.value]
            && forall v :: v != u ==> MissDues(c'.h.events, v) == MissDues(c.h.events, v)
  {
    var mid := Do(c, LogMissed(u));
    var missed := LoopMissed(u, c.h.tables.loops[u].nextFireAt.value);
    DuesConcat(c.h.events, [missed], u);
    OneDue(missed, u);
    UncountedLog(mid, SettleMissed(u, next));
    forall v | v != u
      ensures MissDues(Do(mid, SettleMissed(u, next)).h.events, v) == MissDues(c.h.events, v)
    {
      QuietLog(c, LogMissed(u), v);
      QuietLog(mid, SettleMissed(u, next), v);
    }
  }

  /** A fire that fell due while the server was down is logged and skipped, never replayed. */
  method SettleSchedule(store: S.Store, u: Uuid, l: Loop, now: int, next: Option<int>, ghost log0: EventTable,
                        ghost s: Sys, ghost before: seq<Step>, ghost c: Sys)
    returns (ghost steps: seq<Step>, ghost c': Sys)
    requires Runs(s, before, c) && Tracks(store, log0, c) && c.phase.Recovering? && u in c.phase.todo && c.bootAt == now
    requires u in c.h.tables.loops && l == c.h.tables.loops[u] && Later(next, now)
    modifies store
    ensures Runs(s, steps, c') && Tracks(store, log0, c') && Settles(c, c', u, next, now)
    ensures var missed := l.status != LoopEnded && l.nextFireAt.Some? && l.nextFireAt.value <= now;
            && MissDues(c'.h.events, u) == MissDues(c.h.events, u) + (if missed then [l.nextFireAt.value] else [])
            && c'.h.tables.loops[u] == if !missed then l
                                       else if l.cadence == Once then l.(status := LoopEnded, nextFireAt := None)
                                       else l.(nextFireAt := next)
    ensures c' == c.(h := c'.h, phase := Recovering(c.phase.todo - {u}))
  {
    if l.status == LoopEnded || l.nextFireAt.None? || l.nextFireAt.value > now {
      steps := Then(s, before, c, PassOver(u));
      c' := Do(c, PassOver(u));
      assert MissDues(c.h.events, u) + [] == MissDues(c.h.events, u);
      return;
    }
    steps, c' := TakeMissed(s, before, c, u, next);
    SkipMissed(store, u, l, next, log0, c.h.events);
  }

  /** Logs the missed fire, then ends a once loop or reschedules a cron loop. */
  method SkipMissed(store: S.Store, u: Uuid, l: Loop, next: Option<int>, ghost log0: EventTable, ghost evs: seq<Event>)
    requires u in store.loops && l == store.loops[u] && l.nextFireAt.Some? && store.log == log0.AppendAll(evs)
    modifies store
    ensures var t := old(store.Loops());
            var settled := if l.cadence == Once then SetLoopStatus(t, u, LoopEnded) else SetNextFire(t, u, next);
            && store.Loops() == settled.tables
            && store.log == log0.AppendAll(evs + [LoopMissed(u, l.nextFireAt.value)] + settled.events)
  {
    ghost var missed := LoopMissed(u, l.nextFireAt.value);
    AppendAllSplit(log0, evs, [missed]);
    var _ := store.Emit(LoopMissed(u, l.nextFireAt.value));
    if l.cadence == Once {
      AppendAllSplit(log0, evs + [missed], SetLoopStatus(store.Loops(), u, LoopEnded).events);
      var _ := store.SetLoopStatus(u, LoopEnded);
    } else {
      assert evs + [missed] + [] == evs + [missed];
      store.SetNextFire(u, next);
    }
  }

  // ---- restart recovery: all loops ----

  /** The runs of one loop. */
  function RunsOf(runs: map<Uuid, LoopRun>, u: Uuid): map<Uuid, LoopRun> {
    map r | r in runs && runs[r].loop == u :: runs[r]
  }

  /**
   * What recovery makes of one loop: its dead runs are closed out, a missed fire is logged and skipped, and then the
   * earliest waiting run is started if the loop is still active and has a slot.
   */
  ghost predicate Recovered(s: Sys, c: Sys, u: Uuid, dead: set<Uuid>, next: Option<int>, now: int) {
    && u in s.h.tables.loops && u in c.h.tables.loops
    && c.h.tables.loops[u] == SettledRow(s.h.tables.loops[u], next, now)
    && MissDues(c.h.events, u) == MissDues(s.h.events, u) + MissOf(s.h.tables.loops[u], now)
    && exists claimed :: RecoveredRuns(RunsOf(s.h.tables.runs, u), RunsOf(c.h.tables.runs, u), u, dead,
                                       c.h.tables.loops[u], claimed)
  }

  predicate RecoveredRuns(runs: map<Uuid, LoopRun>, runs': map<Uuid, LoopRun>, u: Uuid, dead: set<Uuid>, l: Loop,
                          claimed: Option<Uuid>)
  {
    Promotes(ClosedOut(runs, DeadRuns(runs, u, dead)), runs', u, l, claimed)
  }

  /** Nothing about loop `v` changed. */
  ghost predicate Untouched(c: Sys, c': Sys, v: Uuid) {
    && (v in c.h.tables.loops <==> v in c'.h.tables.loops)
    && (v in c.h.tables.loops ==> c'.h.tables.loops[v] == c.h.tables.loops[v])
    && MissDues(c'.h.events, v) == MissDues(c.h.events, v)
    && RunsOf(c'.h.tables.runs, v) == RunsOf(c.h.tables.runs, v)
  }

  lemma RestrictClosed(runs: map<Uuid, LoopRun>, u: Uuid, dead: set<Uuid>)
    ensures var closed := ClosedOut(runs, DeadRuns(runs, u, dead));
            && RunsOf(closed, u) == ClosedOut(RunsOf(runs, u), DeadRuns(RunsOf(runs, u), u, dead))
            && forall v :: v != u ==> RunsOf(closed, v) == RunsOf(runs, v)
  {
    assert DeadRuns(RunsOf(runs, u), u, dead) == DeadRuns(runs, u, dead);
  }

  lemma RestrictPromotes(runs: map<Uuid, LoopRun>, runs': map<Uuid, LoopRun>, u: Uuid, l: Loop, claimed: Option<Uuid>)
    requires Promotes(runs, runs', u, l, claimed)
    ensures Promotes(RunsOf(runs, u), RunsOf(runs', u), u, l, claimed)
    ensures forall v :: v != u ==> RunsOf(runs', v) == RunsOf(runs, v)
  {
    assert ActiveRuns(RunsOf(runs, u), u) == ActiveRuns(runs, u);
    assert forall r :: r in runs && runs[r].loop == u ==> r in RunsOf(runs, u) && RunsOf(runs, u)[r] == runs[r];
    assert NonePending(RunsOf(runs, u), u) <==> NonePending(runs, u);
  }

  /** Recovery of one loop from its row as read at the start. */
  method RecoverLoop(store: S.Store, u: Uuid, l: Loop, dead: set<Uuid>, next: Option<int>, now: int,
                     ghost log0: EventTable, ghost s: Sys, ghost before: seq<Step>, ghost c: Sys)
    returns (ghost steps: seq<Step>, ghost c': Sys)
    requires Runs(s, before, c) && Tracks(store, log0, c) && c.phase.Recovering? && u in c.phase.todo && c.bootAt == now
    requires u in c.h.tables.loops && l == c.h.tables.loops[u] && Later(next, now)
    modifies store
    ensures Runs(s, steps, c') && Tracks(store, log0, c')
    ensures c' == c.(h := c'.h, phase := Recovering(c.phase.todo - {u}))
    ensures Recovered(c, c', u, dead, next, now) && forall v :: v != u ==> Untouched(c, c', v)
  {
    steps, c' := CloseDeadRuns(store, u, dead, log0, s, before, c);
    RestrictClosed(c.h.tables.runs, u, dead);
    steps, c' := SettleSchedule(store, u, l, now, next, log0, s, steps, c');
    ghost var settled, claimed := c', None;
    if l.status == Active {
      claimed, steps, c' := PromotePending(store, u, log0, s, steps, c');
    }
    RestrictPromotes(settled.h.tables.runs, c'.h.tables.runs, u, c'.h.tables.loops[u], claimed);
    assert RecoveredRuns(RunsOf(c.h.tables.runs, u), RunsOf(c'.h.tables.runs, u), u, dead, c'.h.tables.loops[u],
                         claimed);
  }

  /** `recover_loops_on_start`, loop by loop from one reading of all loops. */
  method RecoverLoops(store: S.Store, order: seq<Uuid>, dead: set<Uuid>, nexts: map<Uuid, Option<int>>, now: int,
                      ghost log0: EventTable, ghost s: Sys)
    returns (ghost steps: seq<Step>, ghost c: Sys)
    requires Runs(s, [], s) && Tracks(store, log0, s) && s.phase == Recovering(s.h.tables.loops.Keys) && s.bootAt == now
    requires forall u :: u in order <==> u in s.h.tables.loops
    requires AllDistinct(order)
    requires forall u :: u in order ==> u in nexts && Later(nexts[u], now)
    modifies store
    ensures Runs(s, steps, c) && Tracks(store, log0, c) && c.phase == Up
    ensures forall u :: u in order ==> Recovered(s, c, u, dead, nexts[u], now)
    ensures forall v :: v !in order ==> Untouched(s, c, v)
  {
    var snapshot := store.loops;
    steps, c := [], s;
    var i := 0;
    while i < |order|
      invariant i <= |order| && Runs(s, steps, c) && Tracks(store, log0, c)
      invariant c == s.(h := c.h, phase := c.phase) && c.phase.Recovering? && ToSettleFrom(c.phase.todo, order, i)
      invariant snapshot == s.h.tables.loops
      invariant forall u :: u in order[..i] ==> Recovered(s, c, u, dead, nexts[u], now)
      invariant forall v :: v !in order[..i] ==> Untouched(s, c, v)
    {
      var u := order[i];
      ghost var was := c;
      ToSettleNext(c.phase.todo, order, i);
      SeenNext(order, i);
      steps, c := RecoverLoop(store, u, snapshot[u], dead, nexts[u], now, log0, s, steps, c);
      RecoveredNext(s, was, c, u, dead, nexts, order[..i], now);
      i := i + 1;
    }
    assert c.phase.todo == {} && order[..i] == order;
    steps := Then(s, steps, c, FinishRecovery);
    c := Do(c, FinishRecovery);
  }

  lemma RecoveredNext(s: Sys, was: Sys, c: Sys, u: Uuid, dead: set<Uuid>, nexts: map<Uuid, Option<int>>,
                      seen: seq<Uuid>,
                      now: int)
    requires u !in seen && u in nexts
    requires forall v :: v in seen ==> v in nexts && Recovered(s, was, v, dead, nexts[v], now)
    requires forall v :: v !in seen ==> Untouched(s, was, v)
    requires Recovered(was, c, u, dead, nexts[u], now) && forall v :: v != u ==> Untouched(was, c, v)
    ensures forall v :: v in seen + [u] ==> Recovered(s, c, v, dead, nexts[v], now)
    ensures forall v :: v !in seen + [u] ==> Untouched(s, c, v)
  {
    forall v | v in seen + [u]
      ensures Recovered(s, c, v, dead, nexts[v], now)
    {
      if v == u {
        assert Untouched(s, was, u);
      } else {
        assert v in seen && Untouched(was, c, v);
      }
    }
    forall v | v !in seen + [u]
      ensures Untouched(s, c, v)
    {
      assert v !in seen && v != u && Untouched(s, was, v) && Untouched(was, c, v);
    }
  }

  lemma SeenNext(order: seq<Uuid>, i: nat)
    requires i < |order| && AllDistinct(order)
    ensures order[i] !in order[..i] && order[..i + 1] == order[..i] + [order[i]]
  {
  }

  ghost predicate ToSettleFrom(todo: set<Uuid>, order: seq<Uuid>, i: nat) {
    i <= |order| && forall u :: u in todo <==> exists j :: i <= j < |order| && order[j] == u
  }

  lemma ToSettleNext(todo: set<Uuid>, order: seq<Uuid>, i: nat)
    requires i < |order| && ToSettleFrom(todo, order, i) && AllDistinct(order)
    ensures order[i] in todo && ToSettleFrom(todo - {order[i]}, order, i + 1)
  {
  }
}
