/** The loop and run transactions of the store as functions from tables to tables and events. */
module LoopTx {
  import opened Rows

  datatype LoopEffect = LoopEffect(tables: LoopTables, events: seq<Event>)

  datatype NewLoop = NewLoop(name: string, cadence: Cadence, maxConcurrency: int, overlap: Overlap,
                             nextFireAt: Option<int>)

  /** How a scheduled fire advances its loop, in the transaction that allocates the run. */
  datatype ScheduleAdvance = EndOnce | NextFire(at: Option<int>)

  function Same(t: LoopTables): LoopEffect {
    LoopEffect(t, [])
  }

  // ---- definitions ----

  /** The partial unique index `loops_active_name`. */
  predicate NameFree(loops: map<Uuid, Loop>, u: Uuid, name: string) {
    forall v :: v in loops && v != u && loops[v].status != LoopEnded ==> loops[v].name != name
  }

  function CreateLoop(t: LoopTables, u: Uuid, l: NewLoop): LoopEffect {
    if u in t.loops || !NameFree(t.loops, u, l.name) then Same(t)
    else
      LoopEffect(t.(loops := t.loops[u := Loop(l.name, l.cadence, l.maxConcurrency, l.overlap, Active, l.nextFireAt,
                                               None)]),
                 [LoopCreated(u)])
  }

  function WithStatus(l: Loop, status: LoopStatus): Loop {
    l.(status := status, nextFireAt := if status == LoopEnded then None else l.nextFireAt)
  }

  /** Writes the status of a present loop; logs the event even when the row is missing. */
  function SetLoopStatus(t: LoopTables, u: Uuid, status: LoopStatus): LoopEffect {
    if u in t.loops && status != LoopEnded && !NameFree(t.loops, u, t.loops[u].name) then Same(t)
    else
      LoopEffect(if u in t.loops then t.(loops := t.loops[u := WithStatus(t.loops[u], status)]) else t,
                 [LoopStatusSet(u, status)])
  }

  function SetNextFire(t: LoopTables, u: Uuid, at: Option<int>): LoopEffect {
    if u !in t.loops then Same(t)
    else LoopEffect(t.(loops := t.loops[u := t.loops[u].(nextFireAt := at)]), [])
  }

  // ---- slots ----

  predicate Occupies(r: LoopRun, loop: Uuid) {
    r.loop == loop && (r.status == Running || r.status == Stopping)
  }

  function ActiveRuns(runs: map<Uuid, LoopRun>, loop: Uuid): set<Uuid> {
    set r | r in runs && Occupies(runs[r], loop)
  }

  predicate PendingScheduled(runs: map<Uuid, LoopRun>, loop: Uuid, r: Uuid) {
    r in runs && runs[r].loop == loop && runs[r].status == Pending && runs[r].kind == Scheduled
  }

  /** `apply_advance`: the loop row after the fire. */
  function Advanced(l: Loop, adv: ScheduleAdvance, now: int): Loop {
    match adv
    case EndOnce => l.(lastFireAt := Some(now), status := LoopEnded, nextFireAt := None)
    case NextFire(at) => l.(lastFireAt := Some(now), nextFireAt := at)
  }

  function ApplyAdvance(loops: map<Uuid, Loop>, u: Uuid, adv: Option<ScheduleAdvance>, now: int): map<Uuid, Loop> {
    if adv.Some? && u in loops then loops[u := Advanced(loops[u], adv.value, now)] else loops
  }

  function AdvanceEvents(u: Uuid, adv: Option<ScheduleAdvance>): seq<Event> {
    if adv == Some(EndOnce) then [LoopStatusSet(u, LoopEnded)] else []
  }

  datatype Allocation = Allocated(startNow: bool) | Coalesced(into: Uuid) | Skipped

  /** What `allocate_run` decides for one fire. */
  ghost function Decide(t: LoopTables, loop: Uuid, kind: RunKind, max: int, overlap: Overlap): Allocation {
    var atCapacity := |ActiveRuns(t.runs, loop)| >= max;
    if kind == Scheduled && atCapacity && overlap == Skip then Skipped
    else if kind == Scheduled && atCapacity && exists r :: PendingScheduled(t.runs, loop, r) then
      var r :| PendingScheduled(t.runs, loop, r);
      Coalesced(r)
    else Allocated(!atCapacity)
  }

  function Min(a: int, b: int): int {
    if a <= b then a else b
  }

  /** The run insert (or fold, or drop) and the schedule advance, committed together. */
  ghost function AllocateRun(t: LoopTables, loop: Uuid, newId: Uuid, kind: RunKind, due: int, max: int,
                             overlap: Overlap,
                             adv: Option<ScheduleAdvance>, now: int): LoopEffect
  {
    var loops := ApplyAdvance(t.loops, loop, adv, now);
    var tail := AdvanceEvents(loop, adv);
    match Decide(t, loop, kind, max, overlap)
    case Skipped => LoopEffect(LoopTables(loops, t.runs), [LoopSkipped(loop, due)] + tail)
    case Coalesced(r) =>
      LoopEffect(LoopTables(loops, t.runs[r := t.runs[r].(dueAt := Min(t.runs[r].dueAt, due))]),
                 [LoopCoalesced(loop, r, due)] + tail)
    case Allocated(startNow) =>
      if newId in t.runs then Same(t)
      else
        LoopEffect(LoopTables(loops, t.runs[newId := LoopRun(loop, kind, due, if startNow then Running else Pending,
                                                             now, None, None)]),
                   [LoopFired(loop, newId, kind, due, !startNow)] + tail)
  }

  /** `ORDER BY due_at ASC, created_at ASC` among the pending runs of a loop. */
  predicate OldestPending(runs: map<Uuid, LoopRun>, loop: Uuid, r: Uuid) {
    && r in runs && runs[r].loop == loop && runs[r].status == Pending
    && forall s :: s in runs && runs[s].loop == loop && runs[s].status == Pending ==>
         runs[r].dueAt < runs[s].dueAt || (runs[r].dueAt == runs[s].dueAt && runs[r].createdAt <= runs[s].createdAt)
  }

  /** Reserves a free slot for the pending run `r`; logs nothing. */
  function ClaimPending(t: LoopTables, loop: Uuid, max: int, r: Uuid): LoopEffect {
    if |ActiveRuns(t.runs, loop)| >= max || !OldestPending(t.runs, loop, r) then Same(t)
    else LoopEffect(t.(runs := t.runs[r := t.runs[r].(status := Running)]), [])
  }

  // ---- run lifecycle ----

  predicate Busy(t: LoopTables, r: Uuid) {
    r in t.runs && (t.runs[r].status == Running || t.runs[r].status == Stopping)
  }

  function RecordStart(t: LoopTables, r: Uuid, pid: int, timeoutAt: Option<int>): LoopEffect {
    if !Busy(t, r) then Same(t)
    else LoopEffect(t.(runs := t.runs[r := t.runs[r].(pid := Some(pid), timeoutAt := timeoutAt)]), [RunStarted(r)])
  }

  function FinishRun(t: LoopTables, r: Uuid, outcome: Outcome): LoopEffect {
    if !Busy(t, r) then Same(t)
    else LoopEffect(t.(runs := t.runs[r := t.runs[r].(status := Done(outcome))]), [RunEnded(r, Done(outcome))])
  }

  function SetStopping(t: LoopTables, r: Uuid): LoopEffect {
    if r !in t.runs || t.runs[r].status != Running then Same(t)
    else LoopEffect(t.(runs := t.runs[r := t.runs[r].(status := Stopping)]), [RunStopping(r)])
  }

  function CancelPending(t: LoopTables, r: Uuid): LoopEffect {
    if r !in t.runs || t.runs[r].status != Pending then Same(t)
    else LoopEffect(t.(runs := t.runs[r := t.runs[r].(status := Canceled)]), [RunEnded(r, Canceled)])
  }
}
