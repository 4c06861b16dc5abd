/**
 * Scheduled fires across pauses, removals, crashes and recoveries. The scheduler thread works from a snapshot of
 * the due loops; recovery runs alone before any thread starts, and may itself be cut short by a crash.
 */
module FireAccounting {
  import opened Rows
  import opened LoopTx
  import opened LoopOps

  datatype Phase = Down | Recovering(todo: set<Uuid>) | Up

  /** `bootAt` is when this server started; `tick` is the scheduler's snapshot of due times, read at `tickAt`. */
  datatype Sys = Sys(h: History, clock: int, phase: Phase, bootAt: int, tick: map<Uuid, int>, tickAt: int)

  const BOOT: Sys := Sys(History(NO_LOOPS, []), 0, Down, 0, map[], 0)

  datatype Step =
    | Elapse(ms: nat)
    | Create(u: Uuid, new_: NewLoop)
    | SetPaused(u: Uuid, paused: bool)
    | Reschedule(u: Uuid, next: Option<int>, asOf: int)
    | Remove(u: Uuid)
    | ReadDue
    | Fire(u: Uuid, newId: Uuid, next: Option<int>, asOf: int)
    | FireFails(u: Uuid)
    | FireManually(u: Uuid, newId: Uuid)
    | RunStep(op: LoopOp)
    | Crash
    | Restart
    | LogMissed(u: Uuid)
    | SettleMissed(u: Uuid, next: Option<int>)
    | PassOver(u: Uuid)
    | FinishRecovery

  predicate Due(l: Loop, now: int) {
    l.nextFireAt.Some? && l.nextFireAt.value <= now
  }

  predicate Later(next: Option<int>, than: int) {
    next.Some? ==> next.value > than
  }

  /** Transactions on runs that other threads make; none writes a loop row or logs a fire. */
  predicate OnlyRuns(op: LoopOp) {
    op.OpClaim? || op.OpStart? || op.OpFinish? || op.OpStopping? || op.OpCancel?
  }

  /**
   * When a step can be taken. The next fire is computed to be later than the clock reading it starts from; a resume
   * takes that reading before it gets the store, so it may by then be older than the loop's last fire.
   */
  predicate Enabled(s: Sys, step: Step) {
    match step
    case Elapse(_) => true
    case Create(_, l) => s.phase == Up && (l.cadence == Cron ==> Later(l.nextFireAt, s.clock))
    case SetPaused(u, _) => s.phase == Up && u in s.h.tables.loops
    case Reschedule(u, next, asOf) =>
      && s.phase == Up && u in s.h.tables.loops && s.h.tables.loops[u].cadence == Cron
      && s.bootAt <= asOf <= s.clock && Later(next, asOf)
    case Remove(u) => s.phase == Up && u in s.h.tables.loops
    case ReadDue => s.phase == Up && s.tick == map[]
    case Fire(u, _, next, asOf) =>
      s.phase == Up && u in s.tick && u in s.h.tables.loops && s.tickAt <= asOf <= s.clock && Later(next, asOf)
    case FireFails(u) => s.phase == Up && u in s.tick
    case FireManually(u, _) => s.phase == Up && u in s.h.tables.loops
    case RunStep(op) => s.phase != Down && OnlyRuns(op)
    case Crash => s.phase != Down
    case Restart => s.phase == Down
    case LogMissed(u) =>
      && s.phase.Recovering? && u in s.phase.todo && u in s.h.tables.loops
      && s.h.tables.loops[u].status != LoopEnded && Due(s.h.tables.loops[u], s.bootAt)
    case SettleMissed(u, next) =>
      && s.phase.Recovering? && u in s.phase.todo && u in s.h.tables.loops
      && s.h.tables.loops[u].status != LoopEnded && Due(s.h.tables.loops[u], s.bootAt)
      && Later(next, s.bootAt)
    case PassOver(u) =>
      && s.phase.Recovering? && u in s.phase.todo && u in s.h.tables.loops
      && (s.h.tables.loops[u].status == LoopEnded || !Due(s.h.tables.loops[u], s.bootAt))
    case FinishRecovery => s.phase.Recovering? && s.phase.todo == {}
  }

  ghost function With(s: Sys, op: LoopOp): Sys {
    s.(h := After(s.h, op))
  }

  /** The advance handed to `allocate_run` for a scheduled fire. */
  function AdvanceFor(l: Loop, next: Option<int>): ScheduleAdvance {
    if l.cadence == Once then EndOnce else NextFire(next)
  }

  ghost function Do(s: Sys, step: Step): Sys
    requires Enabled(s, step)
  {
    var loops := s.h.tables.loops;
    match step
    case Elapse(ms) => s.(clock := s.clock + ms)
    case Create(u, l) => With(s, OpCreate(u, l))
    case SetPaused(u, paused) => With(s, OpSetStatus(u, if paused then Paused else Active))
    case Reschedule(u, next, _) => With(s, OpNextFire(u, next))
    case Remove(u) => With(s, OpSetStatus(u, LoopEnded))
    case ReadDue =>
      s.(tick := map u | u in loops && loops[u].status == Active && Due(loops[u], s.clock) :: loops[u].nextFireAt.value,
         tickAt := s.clock)
    case Fire(u, newId, next, _) =>
      With(s, OpAllocate(u, newId, Scheduled, s.tick[u], loops[u].maxConcurrency, loops[u].overlap,
                         Some(AdvanceFor(loops[u], next)), s.clock)).(tick := s.tick - {u})
    case FireFails(u) => s.(tick := s.tick - {u})
    case FireManually(u, newId) =>
      With(s, OpAllocate(u, newId, Manual, s.clock, loops[u].maxConcurrency, loops[u].overlap, None, s.clock))
    case RunStep(op) => With(s, op)
    case Crash => s.(phase := Down, tick := map[])
    case Restart => s.(phase := Recovering(loops.Keys), bootAt := s.clock)
    case LogMissed(u) => s.(h := s.h.(events := s.h.events + [LoopMissed(u, loops[u].nextFireAt.value)]))
    case SettleMissed(u, next) =>
      With(s, if loops[u].cadence == Once then OpSetStatus(u, LoopEnded) else OpNextFire(u, next))
        .(phase := Recovering(s.phase.todo - {u}))
    case PassOver(u) => s.(phase := Recovering(s.phase.todo - {u}))
    case FinishRecovery => s.(phase := Up)
  }

  // ---- what the log records ----

  /** Due times of the scheduled occurrences of `u` that were fired, folded or dropped as overlapping. */
  function FireDues(evs: seq<Event>, u: Uuid): seq<int> {
    if evs == [] then []
    else
      var e := evs[|evs| - 1];
      FireDues(evs[..|evs| - 1], u) +
      if (e.LoopFired? && e.loop == u && e.kind == Scheduled) || (e.LoopCoalesced? && e.loop == u)
         || (e.LoopSkipped? && e.loop == u) then [e.dueAt] else []
  }

  /** Due times of `u` logged as missed while the server was down. */
  function MissDues(evs: seq<Event>, u: Uuid): seq<int> {
    if evs == [] then []
    else
      var e := evs[|evs| - 1];
      MissDues(evs[..|evs| - 1], u) + if e.LoopMissed? && e.loop == u then [e.dueAt] else []
  }

  lemma {:induction false} DuesConcat(a: seq<Event>, b: seq<Event>, u: Uuid)
    ensures FireDues(a + b, u) == FireDues(a, u) + FireDues(b, u)
    ensures MissDues(a + b, u) == MissDues(a, u) + MissDues(b, u)
    decreases |b|
  {
    if b == [] {
      assert a + b == a;
    } else {
      assert (a + b)[..|a + b| - 1] == a + b[..|b| - 1];
      DuesConcat(a, b[..|b| - 1], u);
    }
  }

  predicate Increasing(ds: seq<int>) {
    forall i, j :: 0 <= i < j < |ds| ==> ds[i] < ds[j]
  }

  predicate AllBelow(ds: seq<int>, v: int) {
    forall d :: d in ds ==> d < v
  }

  /** The promise for a once loop: one scheduled fire at most, and never after or before being logged as missed. */
  ghost predicate OncePromise(s: Sys, u: Uuid) {
    var fires, misses := FireDues(s.h.events, u), MissDues(s.h.events, u);
    |fires| <= 1 && (fires == [] || misses == [])
  }

  /** The promise for a cron loop: occurrences fire in order, none twice, and none is also logged as missed. */
  ghost predicate CronPromise(s: Sys, u: Uuid) {
    var fires, misses := FireDues(s.h.events, u), MissDues(s.h.events, u);
    Increasing(fires) && forall d :: d in fires ==> d !in misses
  }

  // ---- one loop's ledger ----

  /** Where a loop stands in the server's life cycle. */
  datatype Place = AtRest | ToSettle | SettledIn | Serving

  /** Everything about one loop that decides its next fire. */
  datatype Ledger = Ledger(known: bool, once: bool, ended: bool, next: Option<int>,
                           fires: seq<int>, misses: seq<int>, tick: Option<int>, clock: int, bootAt: int, place: Place)

  function PlaceOf(s: Sys, u: Uuid): Place {
    match s.phase
    case Down => AtRest
    case Recovering(todo) => if u in todo then ToSettle else SettledIn
    case Up => Serving
  }

  function LedgerOf(s: Sys, u: Uuid): Ledger {
    var known := u in s.h.tables.loops;
    Ledger(known, known && s.h.tables.loops[u].cadence == Once, known && s.h.tables.loops[u].status == LoopEnded,
           if known then s.h.tables.loops[u].nextFireAt else None,
           FireDues(s.h.events, u), MissDues(s.h.events, u),
           if u in s.tick then Some(s.tick[u]) else None, s.clock, s.bootAt, PlaceOf(s, u))
  }

  /** A recovery still has to settle the occurrence `v` that it, or one before it, logged as missed. */
  predicate Unsettled(l: Ledger, v: int) {
    v <= l.clock && !l.ended && (l.place == AtRest || (l.place == ToSettle && v <= l.bootAt))
  }

  ghost predicate OnceFine(l: Ledger) {
    && |l.fires| <= 1
    && (l.fires != [] ==> l.next == None && l.misses == [] && l.tick == None)
    && (l.misses != [] ==> l.tick == None && (l.next.Some? ==> Unsettled(l, l.next.value)))
  }

  ghost predicate CronFine(l: Ledger) {
    && Increasing(l.fires) && (forall d :: d in l.fires ==> d !in l.misses)
    && AllBelow(l.fires, l.clock + 1) && AllBelow(l.misses, l.bootAt + 1)
    && (l.next.Some? ==> AllBelow(l.fires, l.next.value)
                         && forall m :: m in l.misses ==> m < l.next.value || (m == l.next.value && Unsettled(l, m)))
    && (l.tick.Some? ==> AllBelow(l.fires, l.tick.value) && AllBelow(l.misses, l.tick.value))
  }

  ghost predicate Fine(l: Ledger) {
    && (l.tick.Some? ==> l.place == Serving && l.tick.value <= l.clock)
    && l.bootAt <= l.clock
    && if !l.known then l.fires == [] && l.misses == [] && l.tick == None
       else if l.once then OnceFine(l) else CronFine(l)
  }

  lemma AppendIncreasing(ds: seq<int>, d: int)
    requires Increasing(ds) && AllBelow(ds, d)
    ensures Increasing(ds + [d])
  {
    forall i, j | 0 <= i < j < |ds + [d]|
      ensures (ds + [d])[i] < (ds + [d])[j]
    {
      assert (ds + [d])[i] == ds[i] && ds[i] in ds;
    }
  }

  /** Firing the snapshot's occurrence. */
  lemma FireFine(l: Ledger, next: Option<int>)
    requires Fine(l) && l.known && l.tick.Some? && Later(next, l.tick.value)
    ensures Fine(l.(fires := l.fires + [l.tick.value], tick := None,
                    next := if l.once then None else next, ended := l.once || l.ended))
  {
    if !l.once {
      AppendIncreasing(l.fires, l.tick.value);
    }
  }

  lemma LogMissedFine(l: Ledger)
    requires Fine(l) && l.known && !l.ended && l.place == ToSettle && l.next.Some? && l.next.value <= l.bootAt
    ensures Fine(l.(misses := l.misses + [l.next.value]))
  {
  }

  lemma SettleFine(l: Ledger, next: Option<int>)
    requires Fine(l) && l.known && !l.ended && l.place == ToSettle && l.next.Some? && l.next.value <= l.bootAt
    requires Later(next, l.bootAt)
    ensures Fine(l.(next := if l.once then None else next, ended := l.once || l.ended, place := SettledIn))
  {
  }

  /** Everything else: the log of this loop is unchanged and its schedule only moves past what the log holds. */
  ghost predicate QuietMove(l: Ledger, l': Ledger) {
    && l'.known == l.known && l'.once == l.once && l'.fires == l.fires && l'.misses == l.misses
    && l'.clock >= l.clock
    && QuietPlace(l, l')
    && (l'.place != Serving ==> l'.tick == None && l'.ended == l.ended && l'.next == l.next)
    && (l'.tick == l.tick || l'.tick == None
        || (l.known && l.place == Serving && l'.tick == l.next && l.next.Some? && l.next.value <= l.clock))
    && (l'.next == l.next || l'.next == None || (l.place == Serving && !l.once && Ahead(l, l'.next.value)))
  }

  /** Later than the start of this server and than every occurrence that fired. */
  predicate Ahead(l: Ledger, v: int) {
    v > l.bootAt && AllBelow(l.fires, v)
  }

  predicate QuietPlace(l: Ledger, l': Ledger) {
    || (l'.place == l.place && l'.bootAt == l.bootAt)
    || (l'.place == AtRest && l'.bootAt == l.bootAt)
    || (l.place == AtRest && l'.place == (if l.known then ToSettle else SettledIn) && l'.bootAt == l.clock == l'.clock)
    || (l.place == ToSettle && l'.place == SettledIn && l'.bootAt == l.bootAt
        && (l.ended || (l.next.Some? ==> l.next.value > l.bootAt)))
    || (l.place == SettledIn && l'.place == Serving && l'.bootAt == l.bootAt)
  }

  lemma QuietFine(l: Ledger, l': Ledger)
    requires Fine(l) && QuietMove(l, l')
    ensures Fine(l')
  {
  }

  // ---- every step is one of those moves ----

  /** What one step appends to the log. */
  ghost function NewEvents(s: Sys, step: Step): (evs: seq<Event>)
    requires Enabled(s, step)
    ensures Do(s, step).h.events == s.h.events + evs
  {
    Do(s, step).h.events[|s.h.events|..]
  }

  /** Snapshots are never from the future, and only a serving server holds one. */
  predicate ClockOk(s: Sys) {
    && s.tickAt <= s.clock
    && (forall u :: u in s.tick ==> s.tick[u] <= s.tickAt)
    && (s.phase != Up ==> s.tick == map[])
  }

  lemma ClockStep(s: Sys, step: Step)
    requires ClockOk(s) && Enabled(s, step)
    ensures ClockOk(Do(s, step))
  {
  }

  /** A reschedule of `u` that does not go back to or behind an occurrence that already fired. */
  predicate Fresh(s: Sys, step: Step, u: Uuid) {
    step.Reschedule? && step.u == u && step.next.Some? ==> AllBelow(FireDues(s.h.events, u), step.next.value)
  }

  predicate WritesLedger(step: Step, u: Uuid) {
    (step.Fire? || step.Create? || step.LogMissed? || step.SettleMissed?) && step.u == u
  }

  lemma {:induction false} NoDues(evs: seq<Event>, u: Uuid)
    requires forall i :: 0 <= i < |evs| ==> FireDues([evs[i]], u) == [] && MissDues([evs[i]], u) == []
    ensures FireDues(evs, u) == [] && MissDues(evs, u) == []
    decreases |evs|
  {
    if evs != [] {
      var k := |evs| - 1;
      NoDues(evs[..k], u);
      assert evs == evs[..k] + [evs[k]];
      DuesConcat(evs[..k], [evs[k]], u);
    }
  }

  /** Does this event enter the ledger of `u`? */
  predicate Counts(e: Event, u: Uuid) {
    || (e.LoopFired? && e.loop == u && e.kind == Scheduled)
    || (e.LoopCoalesced? && e.loop == u) || (e.LoopSkipped? && e.loop == u) || (e.LoopMissed? && e.loop == u)
  }

  lemma OneDue(e: Event, u: Uuid)
    ensures FireDues([e], u) == if Counts(e, u) && !e.LoopMissed? then [e.dueAt] else []
    ensures MissDues([e], u) == if Counts(e, u) && e.LoopMissed? then [e.dueAt] else []
  {
    assert [e][..0] == [];
  }

  lemma QuietLog(s: Sys, step: Step, u: Uuid)
    requires Enabled(s, step) && !WritesLedger(step, u)
    ensures FireDues(Do(s, step).h.events, u) == FireDues(s.h.events, u)
    ensures MissDues(Do(s, step).h.events, u) == MissDues(s.h.events, u)
  {
    var evs := NewEvents(s, step);
    forall i | 0 <= i < |evs|
      ensures FireDues([evs[i]], u) == [] && MissDues([evs[i]], u) == []
    {
      QuietEvent(s, step, u, i);
      OneDue(evs[i], u);
    }
    NoDues(evs, u);
    DuesConcat(s.h.events, evs, u);
  }

  lemma QuietEvent(s: Sys, step: Step, u: Uuid, i: nat)
    requires Enabled(s, step) && !WritesLedger(step, u) && i < |NewEvents(s, step)|
    ensures !Counts(NewEvents(s, step)[i], u)
  {
  }

  lemma QuietStep(s: Sys, step: Step, u: Uuid)
    requires ClockOk(s) && Enabled(s, step) && !WritesLedger(step, u) && Fresh(s, step, u)
    ensures QuietMove(LedgerOf(s, u), LedgerOf(Do(s, step), u))
  {
    QuietLog(s, step, u);
    if PhaseStep(step) {
      QuietPhase(s, step, u);
    } else {
      QuietTables(s, step, u);
    }
  }

  /** Steps that leave the tables alone. */
  predicate PhaseStep(step: Step) {
    step.Elapse? || step.ReadDue? || step.Crash? || step.Restart? || step.PassOver? || step.FinishRecovery?
    || step.FireFails?
  }

  ghost predicate SameDues(s: Sys, s': Sys, u: Uuid) {
    FireDues(s'.h.events, u) == FireDues(s.h.events, u) && MissDues(s'.h.events, u) == MissDues(s.h.events, u)
  }

  lemma QuietPhase(s: Sys, step: Step, u: Uuid)
    requires ClockOk(s) && Enabled(s, step) && PhaseStep(step) && SameDues(s, Do(s, step), u)
    ensures QuietMove(LedgerOf(s, u), LedgerOf(Do(s, step), u))
  {
  }

  lemma QuietTables(s: Sys, step: Step, u: Uuid)
    requires ClockOk(s) && Enabled(s, step) && !PhaseStep(step) && !WritesLedger(step, u) && SameDues(s, Do(s, step), u)
    requires Fresh(s, step, u)
    ensures QuietMove(LedgerOf(s, u), LedgerOf(Do(s, step), u))
  {
    if step.RunStep? || step.FireManually? {
      RunsKeepLoops(s, step);
    } else {
      QuietDefinitions(s, step, u);
    }
  }

  lemma RunsKeepLoops(s: Sys, step: Step)
    requires Enabled(s, step) && (step.RunStep? || step.FireManually?)
    ensures Do(s, step).h.tables.loops == s.h.tables.loops
  {
  }

  lemma QuietDefinitions(s: Sys, step: Step, u: Uuid)
    requires ClockOk(s) && Enabled(s, step) && !PhaseStep(step) && !WritesLedger(step, u) && SameDues(s, Do(s, step), u)
    requires !step.RunStep? && !step.FireManually? && Fresh(s, step, u)
    ensures QuietMove(LedgerOf(s, u), LedgerOf(Do(s, step), u))
  {
    if step.u != u {
      OtherLoop(s, step, u);
    }
  }

  /** A step on one loop leaves the row and the snapshot entry of every other. */
  lemma OtherLoop(s: Sys, step: Step, u: Uuid)
    requires Enabled(s, step) && !PhaseStep(step) && !step.RunStep? && step.u != u
    ensures u in Do(s, step).h.tables.loops <==> u in s.h.tables.loops
    ensures u in s.h.tables.loops ==> Do(s, step).h.tables.loops[u] == s.h.tables.loops[u]
    ensures u in Do(s, step).tick <==> u in s.tick
    ensures u in s.tick ==> Do(s, step).tick[u] == s.tick[u]
  {
  }

  lemma FireStep(s: Sys, step: Step)
    requires ClockOk(s) && step.Fire? && Enabled(s, step) && Fine(LedgerOf(s, step.u))
    ensures Fine(LedgerOf(Do(s, step), step.u))
  {
    var l := LedgerOf(s, step.u);
    FireLedger(s, step);
    if NewEvents(s, step) == [] {
      QuietFine(l, l.(tick := None));
    } else {
      FireFine(l, step.next);
    }
  }

  lemma FireLedger(s: Sys, step: Step)
    requires step.Fire? && Enabled(s, step)
    ensures var l := LedgerOf(s, step.u);
            LedgerOf(Do(s, step), step.u)
              == if NewEvents(s, step) == [] then l.(tick := None)
                 else l.(fires := l.fires + [l.tick.value], tick := None,
                         next := if l.once then None else step.next, ended := l.once || l.ended)
  {
    DuesConcat(s.h.events, NewEvents(s, step), step.u);
    FireLog(s, step);
    FireRow(s, step);
  }

  lemma FireRow(s: Sys, step: Step)
    requires step.Fire? && Enabled(s, step)
    ensures NewEvents(s, step) == [] ==> Do(s, step).h == s.h
    ensures NewEvents(s, step) != [] ==>
              Do(s, step).h.tables.loops
                == s.h.tables.loops[step.u := Advanced(s.h.tables.loops[step.u],
                                                       AdvanceFor(s.h.tables.loops[step.u], step.next), s.clock)]
  {
    FireLog(s, step);
    assert NewEvents(s, step) == Apply(s.h.tables, OpAllocate(step.u, step.newId, Scheduled, s.tick[step.u],
      s.h.tables.loops[step.u].maxConcurrency, s.h.tables.loops[step.u].overlap,
      Some(AdvanceFor(s.h.tables.loops[step.u], step.next)), s.clock)).events;
  }

  /** What a scheduled allocation logs: nothing, or the occurrence, and behind it perhaps the end of the loop. */
  lemma AllocationLog(t: LoopTables, u: Uuid, newId: Uuid, due: int, max: int, overlap: Overlap,
                      adv: ScheduleAdvance, now: int)
    ensures var e := AllocateRun(t, u, newId, Scheduled, due, max, overlap, Some(adv), now);
            && (e.events == [] ==> e.tables == t)
            && (e.events != [] ==>
                  && Counts(e.events[0], u) && !e.events[0].LoopMissed? && e.events[0].dueAt == due
                  && e.events[1..] == if adv == EndOnce then [LoopStatusSet(u, LoopEnded)] else [])
  {
  }

  lemma OccurrenceThenEnd(evs: seq<Event>, u: Uuid)
    requires evs != [] && Counts(evs[0], u) && !evs[0].LoopMissed?
    requires evs[1..] == [] || evs[1..] == [LoopStatusSet(u, LoopEnded)]
    ensures FireDues(evs, u) == [evs[0].dueAt] && MissDues(evs, u) == []
  {
    assert evs == [evs[0]] + evs[1..];
    DuesConcat([evs[0]], evs[1..], u);
    OneDue(evs[0], u);
    OneDue(LoopStatusSet(u, LoopEnded), u);
  }

  lemma FireCommits(s: Sys, step: Step)
    requires step.Fire? && Enabled(s, step)
    ensures var l := s.h.tables.loops[step.u];
            var e := AllocateRun(s.h.tables, step.u, step.newId, Scheduled, s.tick[step.u], l.maxConcurrency,
                                 l.overlap, Some(AdvanceFor(l, step.next)), s.clock);
            NewEvents(s, step) == e.events && Do(s, step).h == History(e.tables, s.h.events + e.events)
  {
  }

  /** A scheduled fire logs its occurrence once, whichever way the run is allocated; a run id collision logs nothing. */
  lemma FireLog(s: Sys, step: Step)
    requires step.Fire? && Enabled(s, step)
    ensures var evs := NewEvents(s, step);
            && MissDues(evs, step.u) == []
            && FireDues(evs, step.u) == (if evs == [] then [] else [s.tick[step.u]])
            && (evs == [] ==> Do(s, step).h == s.h)
  {
    var l := s.h.tables.loops[step.u];
    FireCommits(s, step);
    AllocationLog(s.h.tables, step.u, step.newId, s.tick[step.u], l.maxConcurrency, l.overlap,
                  AdvanceFor(l, step.next), s.clock);
    if NewEvents(s, step) != [] {
      OccurrenceThenEnd(NewEvents(s, step), step.u);
    }
  }

  lemma MissStep(s: Sys, step: Step)
    requires step.LogMissed? && Enabled(s, step) && Fine(LedgerOf(s, step.u))
    ensures Fine(LedgerOf(Do(s, step), step.u))
  {
    var e := LoopMissed(step.u, s.h.tables.loops[step.u].nextFireAt.value);
    DuesConcat(s.h.events, [e], step.u);
    OneDue(e, step.u);
    LogMissedFine(LedgerOf(s, step.u));
  }

  lemma SettleStep(s: Sys, step: Step)
    requires step.SettleMissed? && Enabled(s, step) && Fine(LedgerOf(s, step.u))
    ensures Fine(LedgerOf(Do(s, step), step.u))
  {
    var l := LedgerOf(s, step.u);
    SettleFine(l, step.next);
    assert LedgerOf(Do(s, step), step.u)
        == l.(next := if l.once then None else step.next, ended := l.once || l.ended, place := SettledIn) by {
      UncountedLog(s, step);
    }
  }

  lemma UncountedLog(s: Sys, step: Step)
    requires (step.SettleMissed? || step.Create?) && Enabled(s, step)
    ensures FireDues(Do(s, step).h.events, step.u) == FireDues(s.h.events, step.u)
    ensures MissDues(Do(s, step).h.events, step.u) == MissDues(s.h.events, step.u)
  {
    var evs := NewEvents(s, step);
    DuesConcat(s.h.events, evs, step.u);
    if evs != [] {
      assert evs == [evs[0]];
      OneDue(evs[0], step.u);
    }
  }

  lemma CreateStep(s: Sys, step: Step)
    requires step.Create? && Enabled(s, step) && Fine(LedgerOf(s, step.u))
    ensures Fine(LedgerOf(Do(s, step), step.u))
  {
    var l, l' := LedgerOf(s, step.u), LedgerOf(Do(s, step), step.u);
    assert l'.fires == l.fires && l'.misses == l.misses by {
      UncountedLog(s, step);
    }
    if l.known {
      assert l' == l;
    } else {
      assert l'.tick == None && (!l'.known || l'.once || Later(l'.next, l'.clock));
    }
  }

  lemma StepFine(s: Sys, step: Step, u: Uuid)
    requires ClockOk(s) && Enabled(s, step) && Fine(LedgerOf(s, u)) && Fresh(s, step, u)
    ensures Fine(LedgerOf(Do(s, step), u))
  {
    if !WritesLedger(step, u) {
      QuietStep(s, step, u);
      QuietFine(LedgerOf(s, u), LedgerOf(Do(s, step), u));
    } else if step.Fire? {
      FireStep(s, step);
    } else if step.Create? {
      CreateStep(s, step);
    } else if step.LogMissed? {
      MissStep(s, step);
    } else {
      SettleStep(s, step);
    }
  }

  // ---- over whole runs ----

  ghost predicate ValidFrom(s: Sys, steps: seq<Step>)
    decreases |steps|, 0
  {
    steps == []
    || (ValidFrom(s, steps[..|steps| - 1]) && Enabled(AfterSteps(s, steps[..|steps| - 1]), steps[|steps| - 1]))
  }

  /** The state after a run, crashes and restarts included. */
  ghost function AfterSteps(s: Sys, steps: seq<Step>): Sys
    requires ValidFrom(s, steps)
    decreases |steps|, 1
  {
    if steps == [] then s else Do(AfterSteps(s, steps[..|steps| - 1]), steps[|steps| - 1])
  }

  /** No reschedule of `u` in the run goes back to or behind an occurrence that had fired. */
  ghost predicate FreshRun(s: Sys, steps: seq<Step>, u: Uuid)
    requires ValidFrom(s, steps)
    decreases |steps|
  {
    steps == []
    || (FreshRun(s, steps[..|steps| - 1], u) && Fresh(AfterSteps(s, steps[..|steps| - 1]), steps[|steps| - 1], u))
  }

  lemma {:induction false} LedgersStayFine(s: Sys, steps: seq<Step>, u: Uuid)
    requires ClockOk(s) && Fine(LedgerOf(s, u)) && ValidFrom(s, steps) && FreshRun(s, steps, u)
    ensures ClockOk(AfterSteps(s, steps)) && Fine(LedgerOf(AfterSteps(s, steps), u))
    decreases |steps|
  {
    if steps != [] {
      var k := |steps| - 1;
      LedgersStayFine(s, steps[..k], u);
      ClockStep(AfterSteps(s, steps[..k]), steps[k]);
      StepFine(AfterSteps(s, steps[..k]), steps[k], u);
    }
  }

  lemma CadenceStays(s: Sys, step: Step, u: Uuid)
    requires Enabled(s, step) && u in s.h.tables.loops
    ensures u in Do(s, step).h.tables.loops && Do(s, step).h.tables.loops[u].cadence == s.h.tables.loops[u].cadence
  {
    var op :| Do(s, step).h.tables == s.h.tables || Do(s, step).h.tables == Apply(s.h.tables, op).tables;
    DefinitionIsImmutable(s.h.tables, op, u);
  }

  /** Once loops are never rescheduled. */
  lemma {:induction false} OnceIsFresh(s: Sys, steps: seq<Step>, u: Uuid)
    requires ValidFrom(s, steps)
    requires var loops := AfterSteps(s, steps).h.tables.loops; u in loops ==> loops[u].cadence == Once
    ensures FreshRun(s, steps, u)
    decreases |steps|
  {
    if steps != [] {
      var k := |steps| - 1;
      if u in AfterSteps(s, steps[..k]).h.tables.loops {
        CadenceStays(AfterSteps(s, steps[..k]), steps[k], u);
      }
      OnceIsFresh(s, steps[..k], u);
    }
  }

  /**
   * Fires are accounted for across every run: the once promise for every once loop, and the cron promise for every
   * cron loop whose reschedules were fresh.
   */
  lemma FiresAreAccounted(steps: seq<Step>, u: Uuid)
    requires ValidFrom(BOOT, steps) && u in AfterSteps(BOOT, steps).h.tables.loops
    ensures var s := AfterSteps(BOOT, steps);
            match s.h.tables.loops[u].cadence
            case Once => OncePromise(s, u)
            case Cron => FreshRun(BOOT, steps, u) ==> CronPromise(s, u)
  {
    if AfterSteps(BOOT, steps).h.tables.loops[u].cadence == Once {
      OnceIsFresh(BOOT, steps, u);
    }
    if FreshRun(BOOT, steps, u) {
      LedgersStayFine(BOOT, steps, u);
    }
  }

  // ---- how a stale reschedule breaks the cron promise ----

  ghost predicate Leads(s: Sys, steps: seq<Step>, c: Sys) {
    ValidFrom(s, steps) && AfterSteps(s, steps) == c
  }

  lemma OneMore(s: Sys, steps: seq<Step>, c: Sys, step: Step) returns (steps': seq<Step>)
    requires Leads(s, steps, c) && Enabled(c, step)
    ensures steps' == steps + [step] && Leads(s, steps', Do(c, step))
    ensures forall u :: FreshRun(s, steps, u) && Fresh(c, step, u) ==> FreshRun(s, steps', u)
  {
    steps' := steps + [step];
    assert steps'[..|steps|] == steps;
  }

  /** A serving server in which the cron loop `u` has `d` as its next fire. */
  ghost predicate Poised(s: Sys, u: Uuid, d: int, fires: seq<int>) {
    && s.phase == Up && u in s.h.tables.loops && s.h.tables.loops[u].cadence == Cron && d <= s.clock
       && s.tickAt <= s.clock
    && s.h.tables.loops[u].nextFireAt == Some(d) && FireDues(s.h.events, u) == fires
  }

  /** The scheduler gets through its tick, every fire failing. */
  lemma {:induction false} ClearTick(s: Sys, steps: seq<Step>, c: Sys, u: Uuid, d: int, fires: seq<int>)
    returns (steps': seq<Step>, c': Sys)
    requires Leads(s, steps, c) && FreshRun(s, steps, u) && Poised(c, u, d, fires)
    ensures Leads(s, steps', c') && FreshRun(s, steps', u) && Poised(c', u, d, fires) && c'.tick == map[]
    decreases |c.tick|
  {
    if v :| v in c.tick {
      steps' := OneMore(s, steps, c, FireFails(v));
      var mid := Do(c, FireFails(v));
      assert mid.tick.Keys == c.tick.Keys - {v} && |mid.tick.Keys| < |c.tick.Keys|;
      steps', c' := ClearTick(s, steps', mid, u, d, fires);
    } else {
      steps', c' := steps, c;
    }
  }

  /** The other loops that hold the name of `u`. */
  function Namesakes(loops: map<Uuid, Loop>, u: Uuid): set<Uuid>
    requires u in loops
  {
    set v | v in loops && v != u && loops[v].status != LoopEnded && loops[v].name == loops[u].name
  }

  lemma RemoveNamesake(c: Sys, u: Uuid, v: Uuid, d: int, fires: seq<int>)
    requires Poised(c, u, d, fires) && v in Namesakes(c.h.tables.loops, u)
    ensures var c' := Do(c, Remove(v));
            && Poised(c', u, d, fires) && c'.tick == c.tick
            && Namesakes(c'.h.tables.loops, u) == Namesakes(c.h.tables.loops, u) - {v}
  {
    QuietLog(c, Remove(v), u);
    OtherLoop(c, Remove(v), u);
  }

  /** Whoever took the name of `u` is removed. */
  lemma {:induction false} ClearName(s: Sys, steps: seq<Step>, c: Sys, u: Uuid, d: int, fires: seq<int>)
    returns (steps': seq<Step>, c': Sys)
    requires Leads(s, steps, c) && FreshRun(s, steps, u) && Poised(c, u, d, fires) && c.tick == map[]
    ensures Leads(s, steps', c') && FreshRun(s, steps', u) && Poised(c', u, d, fires) && c'.tick == map[]
    ensures NameFree(c'.h.tables.loops, u, c'.h.tables.loops[u].name)
    decreases |Namesakes(c.h.tables.loops, u)|
  {
    if v :| v in Namesakes(c.h.tables.loops, u) {
      steps' := OneMore(s, steps, c, Remove(v));
      RemoveNamesake(c, u, v, d, fires);
      steps', c' := ClearName(s, steps', Do(c, Remove(v)), u, d, fires);
    } else {
      steps', c' := steps, c;
      forall v | v in c.h.tables.loops && v != u && c.h.tables.loops[v].status != LoopEnded
        ensures c.h.tables.loops[v].name != c.h.tables.loops[u].name
      {
        assert v !in Namesakes(c.h.tables.loops, u);
      }
    }
  }

  /** From there the loop is resumed and read as due. */
  lemma ResumeAndRead(s: Sys, steps: seq<Step>, c: Sys, u: Uuid, d: int, fires: seq<int>)
    returns (steps': seq<Step>, c': Sys)
    requires Leads(s, steps, c) && FreshRun(s, steps, u) && Poised(c, u, d, fires) && c.tick == map[]
    requires NameFree(c.h.tables.loops, u, c.h.tables.loops[u].name)
    ensures Leads(s, steps', c') && FreshRun(s, steps', u) && Poised(c', u, d, fires)
    ensures u in c'.tick && c'.tick[u] == d
  {
    ResumeActivates(c, u, d, fires);
    var active := Do(c, SetPaused(u, false));
    steps' := OneMore(s, steps, c, SetPaused(u, false));
    steps' := OneMore(s, steps', active, ReadDue);
    c' := Do(active, ReadDue);
  }

  lemma ResumeActivates(c: Sys, u: Uuid, d: int, fires: seq<int>)
    requires Poised(c, u, d, fires) && NameFree(c.h.tables.loops, u, c.h.tables.loops[u].name)
    ensures var active := Do(c, SetPaused(u, false));
            Poised(active, u, d, fires) && active.h.tables.loops[u].status == Active && active.tick == c.tick
  {
    QuietLog(c, SetPaused(u, false), u);
  }

  /** And fires once more. */
  lemma FireAgain(s: Sys, steps: seq<Step>, c: Sys, u: Uuid, d: int, fires: seq<int>)
    returns (steps': seq<Step>, c': Sys)
    requires Leads(s, steps, c) && FreshRun(s, steps, u) && Poised(c, u, d, fires) && u in c.tick && c.tick[u] == d
    ensures Leads(s, steps', c') && FreshRun(s, steps', u) && FireDues(c'.h.events, u) == fires + [d]
  {
    var newId := UnusedId(c.h.tables.runs.Keys);
    var fire := Fire(u, newId, None, c.clock);
    steps' := OneMore(s, steps, c, fire);
    c' := Do(c, fire);
    FireLog(c, fire);
    FireHappens(c, fire);
    DuesConcat(c.h.events, NewEvents(c, fire), u);
  }

  /** There is always a new id. */
  lemma {:induction false} UnusedId(used: set<Uuid>) returns (u: Uuid)
    ensures u !in used
  {
    var n := LongerThanAll(used);
    u := Uuid(seq(n, _ => 'a'));
  }

  lemma {:induction false} LongerThanAll(used: set<Uuid>) returns (n: nat)
    ensures forall u :: u in used ==> |u.text| < n
    decreases |used|
  {
    n := 0;
    if used != {} {
      var v :| v in used;
      n := LongerThanAll(used - {v});
      n := if |v.text| < n then n else |v.text| + 1;
    }
  }

  /** Whatever else happens, as long as no later reschedule is stale, the cron promise holds. */
  ghost predicate PromiseLasts(s: Sys, u: Uuid) {
    forall rest :: ValidFrom(s, rest) && FreshRun(s, rest, u) ==> CronPromise(AfterSteps(s, rest), u)
  }

  /**
   * Exactly which reschedules a resume may commit: the promise holds in every continuation if and only if the new
   * next fire, if any, is later than every occurrence that has fired.
   */
  lemma RescheduleIsExact(steps: seq<Step>, u: Uuid, next: Option<int>, asOf: int)
    requires ValidFrom(BOOT, steps) && FreshRun(BOOT, steps, u)
    requires Enabled(AfterSteps(BOOT, steps), Reschedule(u, next, asOf))
    ensures var s := AfterSteps(BOOT, steps);
            PromiseLasts(Do(s, Reschedule(u, next, asOf)), u)
            <==> next.None? || AllBelow(FireDues(s.h.events, u), next.value)
  {
    var s := AfterSteps(BOOT, steps);
    var step := Reschedule(u, next, asOf);
    var s1 := Do(s, step);
    LedgersStayFine(BOOT, steps, u);
    ClockStep(s, step);
    if Fresh(s, step, u) {
      StepFine(s, step, u);
      forall rest | ValidFrom(s1, rest) && FreshRun(s1, rest, u)
        ensures CronPromise(AfterSteps(s1, rest), u)
      {
        FreshKeepsPromise(s1, rest, u);
      }
    } else {
      StaleBreaksPromise(s, u, next.value, asOf);
    }
  }

  lemma FreshKeepsPromise(s: Sys, rest: seq<Step>, u: Uuid)
    requires ClockOk(s) && Fine(LedgerOf(s, u)) && u in s.h.tables.loops && s.h.tables.loops[u].cadence == Cron
    requires ValidFrom(s, rest) && FreshRun(s, rest, u)
    ensures CronPromise(AfterSteps(s, rest), u)
  {
    LedgersStayFine(s, rest, u);
    CadenceLasts(s, rest, u);
  }

  lemma {:induction false} CadenceLasts(s: Sys, steps: seq<Step>, u: Uuid)
    requires ValidFrom(s, steps) && u in s.h.tables.loops
    ensures var loops := AfterSteps(s, steps).h.tables.loops;
            u in loops && loops[u].cadence == s.h.tables.loops[u].cadence
    decreases |steps|
  {
    if steps != [] {
      var k := |steps| - 1;
      CadenceLasts(s, steps[..k], u);
      CadenceStays(AfterSteps(s, steps[..k]), steps[k], u);
    }
  }

  lemma StaleBreaksPromise(s: Sys, u: Uuid, d: int, asOf: int)
    requires ClockOk(s) && Fine(LedgerOf(s, u)) && Enabled(s, Reschedule(u, Some(d), asOf))
    requires !AllBelow(FireDues(s.h.events, u), d)
    ensures !PromiseLasts(Do(s, Reschedule(u, Some(d), asOf)), u)
  {
    var s1 := Do(s, Reschedule(u, Some(d), asOf));
    QuietLog(s, Reschedule(u, Some(d), asOf), u);
    var fires := FireDues(s.h.events, u);
    var f :| f in fires && f >= d;
    assert Poised(s1, u, d, fires);
    var rest, c := ClearTick(s1, [], s1, u, d, fires);
    rest, c := ClearName(s1, rest, c, u, d, fires);
    rest, c := ResumeAndRead(s1, rest, c, u, d, fires);
    rest, c := FireAgain(s1, rest, c, u, d, fires);
    var i :| 0 <= i < |fires| && fires[i] == f;
    assert (fires + [d])[i] == f && (fires + [d])[|fires|] == d;
    assert !Increasing(fires + [d]);
    assert !CronPromise(AfterSteps(s1, rest), u);
  }

  /** The loop of the failing run. */
  function Hourly(): NewLoop {
    NewLoop("hourly", Cron, 1, Queue, Some(10))
  }

  /**
   * A stale reschedule does happen: a loop due at 10 fires at 10, while a resume that read the clock at 5 computes
   * 10 as the next fire and commits it afterwards.
   */
  lemma StaleRescheduleHappens(u: Uuid, r: Uuid) returns (steps: seq<Step>)
    ensures ValidFrom(BOOT, steps) && FreshRun(BOOT, steps, u)
    ensures var s := AfterSteps(BOOT, steps);
            Enabled(s, Reschedule(u, Some(10), 5)) && !PromiseLasts(Do(s, Reschedule(u, Some(10), 5)), u)
  {
    var s;
    steps, s := HourlyAtTen(u);
    steps := OneMore(BOOT, steps, s, ReadDue);
    s := Do(s, ReadDue);
    steps := OneMore(BOOT, steps, s, Fire(u, r, Some(20), 10));
    FiredAtTen(s, u, r);
    RescheduleIsExact(steps, u, Some(10), 5);
  }

  /** The server has started at 0, the loop was created, and it is 10. */
  lemma HourlyAtTen(u: Uuid) returns (steps: seq<Step>, s: Sys)
    ensures Leads(BOOT, steps, s) && FreshRun(BOOT, steps, u)
    ensures s == Sys(History(LoopTables(map[u := Loop("hourly", Cron, 1, Queue, Active, Some(10), None)], map[]),
                             [LoopCreated(u)]), 10, Up, 0, map[], 0)
  {
    var starting := BOOT.(phase := Recovering({}));
    assert BOOT.h.tables.loops.Keys == {};
    assert Do(BOOT, Restart) == starting;
    var up := BOOT.(phase := Up);
    steps := OneMore(BOOT, [], BOOT, Restart);
    steps := OneMore(BOOT, steps, starting, FinishRecovery);
    steps := OneMore(BOOT, steps, up, Create(u, Hourly()));
    s := Do(up, Create(u, Hourly()));
    steps := OneMore(BOOT, steps, s, Elapse(10));
    s := Do(s, Elapse(10));
  }

  lemma FiredAtTen(s: Sys, u: Uuid, r: Uuid)
    requires Enabled(s, Fire(u, r, Some(20), 10)) && r !in s.h.tables.runs && s.tick[u] == 10
    ensures 10 in FireDues(Do(s, Fire(u, r, Some(20), 10)).h.events, u)
  {
    var fire := Fire(u, r, Some(20), 10);
    FireLog(s, fire);
    FireHappens(s, fire);
    DuesConcat(s.h.events, NewEvents(s, fire), u);
  }

  lemma FireHappens(s: Sys, step: Step)
    requires step.Fire? && Enabled(s, step) && step.newId !in s.h.tables.runs
    ensures NewEvents(s, step) != []
  {
    assert NewEvents(s, step) == Apply(s.h.tables, OpAllocate(step.u, step.newId, Scheduled, s.tick[step.u],
      s.h.tables.loops[step.u].maxConcurrency, s.h.tables.loops[step.u].overlap,
      Some(AdvanceFor(s.h.tables.loops[step.u], step.next)), s.clock)).events;
  }

  // ---- crashes and recoveries ----

  /** A server that is down does nothing until it is started again, and then begins with every loop in its table. */
  lemma CrashStopsService(s: Sys, step: Step)
    requires Enabled(s, Crash) && Enabled(Do(s, Crash), step)
    ensures step.Elapse? || (step.Restart? && Do(Do(s, Crash), step).phase == Recovering(s.h.tables.loops.Keys))
  {
  }

  /** Recovery deals with a loop at most once: after its step no step of the same recovery names it. */
  lemma SettledOnce(s: Sys, first: Step, second: Step)
    requires first.PassOver? || first.SettleMissed?
    requires second.PassOver? || second.SettleMissed? || second.LogMissed?
    requires first.u == second.u && Enabled(s, first)
    ensures !Enabled(Do(s, first), second)
  {
  }

  /** What recovery does with the next loop of its list. */
  function RecoveryOf(s: Sys, u: Uuid): Step
    requires u in s.h.tables.loops
  {
    if s.h.tables.loops[u].status == LoopEnded || !Due(s.h.tables.loops[u], s.bootAt) then PassOver(u)
    else SettleMissed(u, None)
  }

  lemma RecoveryGoesOn(s: Sys, u: Uuid)
    requires s.phase.Recovering? && u in s.phase.todo && s.phase.todo <= s.h.tables.loops.Keys
    ensures Enabled(s, RecoveryOf(s, u))
    ensures var s' := Do(s, RecoveryOf(s, u));
            s'.phase == Recovering(s.phase.todo - {u}) && s'.h.tables.loops.Keys == s.h.tables.loops.Keys
  {
  }

  lemma {:induction false} RecoveryEnds(s: Sys, steps: seq<Step>, c: Sys) returns (steps': seq<Step>, c': Sys)
    requires Leads(s, steps, c) && c.phase.Recovering? && c.phase.todo <= c.h.tables.loops.Keys
    ensures Leads(s, steps', c') && c'.phase == Up
    decreases c.phase.todo
  {
    if u :| u in c.phase.todo {
      RecoveryGoesOn(c, u);
      steps' := OneMore(s, steps, c, RecoveryOf(c, u));
      steps', c' := RecoveryEnds(s, steps', Do(c, RecoveryOf(c, u)));
    } else {
      steps' := OneMore(s, steps, c, FinishRecovery);
      c' := Do(c, FinishRecovery);
    }
  }

  /** A recovery that starts can always be brought to its end, whatever the crash left behind. */
  lemma ServerComesUp(s: Sys) returns (steps: seq<Step>, up: Sys)
    requires s.phase == Down
    ensures Leads(s, steps, up) && up.phase == Up
  {
    steps := OneMore(s, [], s, Restart);
    steps, up := RecoveryEnds(s, steps, Do(s, Restart));
  }
}
