/**
 * The event log as a replayable view: a snapshot of the statuses at some sequence number, followed by the events
 * after it, is the status map of the store.
 */
module Replay {
  import opened Rows
  import opened EventLog
  import opened AgentTx
  import opened AgentQueue
  import A = AgentOps
  import opened LoopTx
  import L = LoopOps

  /** What a subscriber tracks. */
  datatype View = View(agents: map<Uuid, Status>, loops: map<Uuid, LoopStatus>)

  function StatusOf(agents: map<Uuid, Agent>): map<Uuid, Status> {
    map u | u in agents :: agents[u].status
  }

  function LoopStatusOf(loops: map<Uuid, Loop>): map<Uuid, LoopStatus> {
    map u | u in loops :: loops[u].status
  }

  function See(v: View, e: Event): View {
    match e
    case AgentCreated(u, status) => v.(agents := v.agents[u := status])
    case AgentStatusChanged(u, status) => v.(agents := v.agents[u := status])
    case LoopCreated(u) => v.(loops := v.loops[u := Active])
    case LoopStatusSet(u, status) => v.(loops := v.loops[u := status])
    case _ => v
  }

  function Fold(v: View, evs: seq<Event>): View
    decreases |evs|
  {
    if evs == [] then v else See(Fold(v, evs[..|evs| - 1]), evs[|evs| - 1])
  }

  lemma {:induction false} FoldConcat(v: View, a: seq<Event>, b: seq<Event>)
    ensures Fold(v, a + b) == Fold(Fold(v, a), b)
    decreases |b|
  {
    if b == [] {
      assert a + b == a;
    } else {
      assert (a + b)[..|a + b| - 1] == a + b[..|b| - 1];
      FoldConcat(v, a, b[..|b| - 1]);
    }
  }

  lemma FoldOne(v: View, e: Event)
    ensures Fold(v, [e]) == See(v, e)
  {
    assert [e][..0] == [];
  }

  lemma FoldTwo(v: View, e: Event, f: Event)
    ensures Fold(v, [e, f]) == See(See(v, e), f)
  {
    assert [e, f][..1] == [e];
    FoldOne(v, e);
  }

  lemma FoldFew(v: View, evs: seq<Event>)
    requires |evs| <= 2
    ensures Fold(v, evs) == if evs == [] then v else if |evs| == 1 then See(v, evs[0]) else See(See(v, evs[0]), evs[1])
  {
    if |evs| == 1 {
      FoldOne(v, evs[0]);
      assert evs == [evs[0]];
    } else if |evs| == 2 {
      FoldTwo(v, evs[0], evs[1]);
      assert evs == [evs[0], evs[1]];
    }
  }

  // ---- one transaction ----

  /** An effect whose events rewrite the status map exactly as its rows do. */
  ghost predicate Mirrors(agents: map<Uuid, Agent>, e: Effect) {
    && |e.events| <= 2
    && FewStatuses(StatusOf(agents), e.events) == StatusOf(e.tables.agents)
  }

  /** One event as seen by the status map of the agents alone. */
  function SeeStatus(m: map<Uuid, Status>, e: Event): map<Uuid, Status> {
    if e.AgentCreated? || e.AgentStatusChanged? then m[e.agent := e.status] else m
  }

  function FewStatuses(m: map<Uuid, Status>, evs: seq<Event>): map<Uuid, Status>
    requires |evs| <= 2
  {
    if evs == [] then m else if |evs| == 1 then SeeStatus(m, evs[0]) else SeeStatus(SeeStatus(m, evs[0]), evs[1])
  }

  predicate NoLoopEvents(evs: seq<Event>) {
    forall i :: 0 <= i < |evs| ==> !evs[i].LoopCreated? && !evs[i].LoopStatusSet?
  }

  lemma MirrorsFold(agents: map<Uuid, Agent>, e: Effect, loops: map<Uuid, LoopStatus>)
    requires Mirrors(agents, e) && NoLoopEvents(e.events)
    ensures Fold(View(StatusOf(agents), loops), e.events) == View(StatusOf(e.tables.agents), loops)
  {
    FoldFew(View(StatusOf(agents), loops), e.events);
  }

  lemma StatusOfPut(agents: map<Uuid, Agent>, u: Uuid, row: Agent)
    ensures StatusOf(agents[u := row]) == StatusOf(agents)[u := row.status]
  {
  }

  /** The events of an agent transaction, committed or aborted, rewrite the status map exactly as its rows do. */
  lemma AgentOpReplays(t: AgentTables, op: A.AgentOp, loops: map<Uuid, LoopStatus>)
    requires QueueSeqsDistinct(t.agents)
    ensures Fold(View(StatusOf(t.agents), loops), A.Apply(t, op).events)
         == View(StatusOf(A.Apply(t, op).tables.agents), loops)
  {
    if op.OpPromote? {
      QueueOrderOrdered(t.agents);
      PromoteReplays(t, QueueOrder(t.agents), PromotionMask(t.agents, op.lim), op.now, |QueueOrder(t.agents)|, loops);
    } else if A.SingleRow(op) {
      SingleRowReplays(t, op);
      MirrorsFold(t.agents, A.ApplyRow(t, op), loops);
    } else {
      TableOpReplays(t, op);
      MirrorsFold(t.agents, A.Apply(t, op), loops);
    }
  }

  lemma SingleRowReplays(t: AgentTables, op: A.AgentOp)
    requires A.SingleRow(op)
    ensures Mirrors(t.agents, A.ApplyRow(t, op)) && NoLoopEvents(A.ApplyRow(t, op).events)
  {
    var e := A.ApplyRow(t, op);
    if op.u in t.agents {
      StatusOfPut(t.agents, op.u, e.tables.agents[op.u]);
      RowStatusStep(t, op);
    }
  }

  /** One row is written, and the last status event names the status it now has. */
  predicate RowMirrored(t: AgentTables, e: Effect, u: Uuid) {
    && |e.events| <= 2 && NoLoopEvents(e.events) && u in t.agents && u in e.tables.agents
    && e.tables.agents == t.agents[u := e.tables.agents[u]]
    && FewStatuses(StatusOf(t.agents), e.events) == StatusOf(t.agents)[u := e.tables.agents[u].status]
  }

  lemma RowStatusStep(t: AgentTables, op: A.AgentOp)
    requires A.SingleRow(op) && op.u in t.agents
    ensures RowMirrored(t, A.ApplyRow(t, op), op.u)
  {
    assert StatusOf(t.agents)[op.u := t.agents[op.u].status] == StatusOf(t.agents);
    if A.IsTurn(op) {
      TurnStatusStep(t, op);
    } else if A.IsMove(op) {
      MoveStatusStep(t, op);
    }
  }

  lemma TurnStatusStep(t: AgentTables, op: A.AgentOp)
    requires A.IsTurn(op) && op.u in t.agents
    requires StatusOf(t.agents)[op.u := t.agents[op.u].status] == StatusOf(t.agents)
    ensures RowMirrored(t, A.ApplyRow(t, op), op.u)
  {
  }

  lemma MoveStatusStep(t: AgentTables, op: A.AgentOp)
    requires A.IsMove(op) && op.u in t.agents
    requires StatusOf(t.agents)[op.u := t.agents[op.u].status] == StatusOf(t.agents)
    ensures RowMirrored(t, A.ApplyRow(t, op), op.u)
  {
  }

  lemma TableOpReplays(t: AgentTables, op: A.AgentOp)
    requires QueueSeqsDistinct(t.agents) && !A.SingleRow(op) && !op.OpPromote?
    ensures Mirrors(t.agents, A.Apply(t, op)) && NoLoopEvents(A.Apply(t, op).events)
  {
    var e := A.Apply(t, op);
    if !op.OpRearm? && !op.OpCapture? && op.u in e.tables.agents {
      StatusOfPut(t.agents, op.u, e.tables.agents[op.u]);
    }
  }

  lemma {:induction false} PromoteReplays(t: AgentTables, q: seq<Uuid>, mask: seq<bool>, now: int, k: nat,
                                          loops: map<Uuid, LoopStatus>)
    requires k <= |q| == |mask| && forall u :: u in q ==> u in t.agents
    ensures Fold(View(StatusOf(t.agents), loops), PromoteUpTo(t, q, mask, now, k).events)
         == View(StatusOf(PromoteUpTo(t, q, mask, now, k).tables.agents), loops)
  {
    if k > 0 {
      PromoteReplays(t, q, mask, now, k - 1, loops);
      var e, u := PromoteUpTo(t, q, mask, now, k - 1), q[k - 1];
      if mask[k - 1] {
        var v := View(StatusOf(t.agents), loops);
        FoldConcat(v, e.events, [QueuePromoted(u), AgentStatusChanged(u, Starting)]);
        FoldTwo(Fold(v, e.events), QueuePromoted(u), AgentStatusChanged(u, Starting));
        StatusOfPut(e.tables.agents, u, Promoted(e.tables.agents[u], now));
      }
    }
  }

  /** Transactions that log a new status for an existing loop. */
  ghost predicate LogsStatus(t: LoopTables, op: L.LoopOp) {
    || (op.OpSetStatus? && L.Apply(t, op).events != [])
    || (op.OpAllocate? && op.adv == Some(EndOnce) && L.Apply(t, op).events != [])
  }

  ghost predicate LoopsMirror(t: LoopTables, e: LoopEffect, agents: map<Uuid, Status>) {
    Fold(View(agents, LoopStatusOf(t.loops)), e.events) == View(agents, LoopStatusOf(e.tables.loops))
  }

  /** Loop transactions mirror too, if and only if they log no status of a loop that does not exist. */
  lemma LoopOpReplays(t: LoopTables, op: L.LoopOp, agents: map<Uuid, Status>)
    ensures LoopsMirror(t, L.Apply(t, op), agents) <==> (LogsStatus(t, op) ==> op.u in t.loops)
  {
    if op.OpAllocate? {
      AllocateReplays(t, op, agents);
    } else {
      DefinitionReplays(t, op, agents);
    }
  }

  lemma AllocateReplays(t: LoopTables, op: L.LoopOp, agents: map<Uuid, Status>)
    requires op.OpAllocate?
    ensures LoopsMirror(t, L.Apply(t, op), agents) <==> (LogsStatus(t, op) ==> op.u in t.loops)
  {
    var v, e := View(agents, LoopStatusOf(t.loops)), L.Apply(t, op);
    FoldFew(v, e.events);
    AllocateShape(t, op);
    if LogsStatus(t, op) {
      assert Fold(v, e.events) == v.(loops := v.loops[op.u := LoopEnded]);
      assert op.u in Fold(v, e.events).loops;
    } else {
      assert Fold(v, e.events) == v;
    }
  }

  /** One fire event, then at most the end of a once loop; only that loop's status may change. */
  lemma AllocateShape(t: LoopTables, op: L.LoopOp)
    requires op.OpAllocate?
    ensures var e := L.Apply(t, op);
            && |e.events| <= 2 && (e.events != [] ==> !e.events[0].LoopCreated? && !e.events[0].LoopStatusSet?
                                                         && !e.events[0].AgentCreated?
                                                            && !e.events[0].AgentStatusChanged?)
            && (LogsStatus(t, op) ==> |e.events| == 2 && e.events[1] == LoopStatusSet(op.u, LoopEnded))
            && (!LogsStatus(t, op) ==> |e.events| <= 1)
            && LoopStatusOf(e.tables.loops)
                 == if LogsStatus(t, op) && op.u in t.loops then LoopStatusOf(t.loops)[op.u := LoopEnded]
                    else LoopStatusOf(t.loops)
  {
  }

  lemma DefinitionReplays(t: LoopTables, op: L.LoopOp, agents: map<Uuid, Status>)
    requires !op.OpAllocate?
    ensures LoopsMirror(t, L.Apply(t, op), agents) <==> (LogsStatus(t, op) ==> op.u in t.loops)
  {
    var v, e := View(agents, LoopStatusOf(t.loops)), L.Apply(t, op);
    FoldFew(v, e.events);
    if op.OpSetStatus? && e.events != [] {
      assert op.u in Fold(v, e.events).loops;
    }
  }

  // ---- the whole store ----

  datatype Store = Store(agents: AgentTables, loops: LoopTables, log: EventTable)

  const EMPTY_STORE: Store := Store(AgentTables(map[], map[]), LoopTables(map[], map[]), EMPTY)

  datatype Op =
    | OnAgents(agentOp: A.AgentOp)
    | OnLoops(loopOp: L.LoopOp)
    | NoteMissed(u: Uuid, due: int)
    | Trim(keep: int)

  ghost predicate Sound(s: Store) {
    && A.Inv(s.agents) && s.log.Contiguous()
    && (s.log.rows == [] ==> s.log.autoinc == 0)
  }

  /** The server keeps at least one event. */
  predicate AsCalled(s: Store, op: Op) {
    match op
    case OnAgents(a) => A.AsCalled(s.agents, a)
    case OnLoops(l) => L.AsCalled(s.loops, l)
    case NoteMissed(_, _) => true
    case Trim(keep) => keep >= 1
  }

  ghost function EventsOf(s: Store, op: Op): seq<Event>
    requires A.Inv(s.agents)
  {
    match op
    case OnAgents(a) => A.Apply(s.agents, a).events
    case OnLoops(l) => L.Apply(s.loops, l).events
    case NoteMissed(u, due) => [LoopMissed(u, due)]
    case Trim(_) => []
  }

  ghost function Commit(s: Store, op: Op): Store
    requires A.Inv(s.agents)
  {
    match op
    case OnAgents(a) => Store(A.Apply(s.agents, a).tables, s.loops, s.log.AppendAll(EventsOf(s, op)))
    case OnLoops(l) => Store(s.agents, L.Apply(s.loops, l).tables, s.log.AppendAll(EventsOf(s, op)))
    case NoteMissed(_, _) => s.(log := s.log.AppendAll(EventsOf(s, op)))
    case Trim(keep) => s.(log := s.log.Trim(keep))
  }

  function ViewOf(s: Store): View {
    View(StatusOf(s.agents.agents), LoopStatusOf(s.loops.loops))
  }

  lemma CommitKeepsSound(s: Store, op: Op)
    requires Sound(s) && AsCalled(s, op)
    ensures Sound(Commit(s, op))
  {
    AppendAllSpec(s.log, EventsOf(s, op));
    match op
    case OnAgents(a) => A.ApplyKeepsInv(s.agents, a);
    case Trim(keep) => TrimKeepsNewest(s.log, keep);
    case _ =>
  }

  lemma CommitReplays(s: Store, op: Op)
    requires Sound(s) && AsCalled(s, op)
    ensures Fold(ViewOf(s), EventsOf(s, op)) == ViewOf(Commit(s, op))
  {
    match op
    case OnAgents(a) => AgentOpReplays(s.agents, a, LoopStatusOf(s.loops.loops));
    case OnLoops(l) => LoopOpReplays(s.loops, l, StatusOf(s.agents.agents));
    case NoteMissed(u, due) => FoldOne(ViewOf(s), LoopMissed(u, due));
    case Trim(_) =>
  }

  // ---- runs ----

  ghost predicate ValidRun(s: Store, ops: seq<Op>)
    requires Sound(s)
    decreases |ops|, 0
  {
    ops == [] || (ValidRun(s, ops[..|ops| - 1]) && AsCalled(After(s, ops[..|ops| - 1]), ops[|ops| - 1]))
  }

  ghost function After(s: Store, ops: seq<Op>): (s': Store)
    requires Sound(s) && ValidRun(s, ops)
    ensures Sound(s')
    decreases |ops|, 1
  {
    if ops == [] then s
    else
      var before := After(s, ops[..|ops| - 1]);
      CommitKeepsSound(before, ops[|ops| - 1]);
      Commit(before, ops[|ops| - 1])
  }

  /** Every event the run committed, trimmed or not. */
  ghost function Committed(s: Store, ops: seq<Op>): seq<Event>
    requires Sound(s) && ValidRun(s, ops)
    decreases |ops|
  {
    if ops == [] then []
    else
      var k := |ops| - 1;
      Committed(s, ops[..k]) + EventsOf(After(s, ops[..k]), ops[k])
  }

  /** The rows written since `base` are the last of the committed events, under their own numbers. */
  ghost predicate Retains(log: EventTable, base: nat, evs: seq<Event>) {
    && log.autoinc == base + |evs|
    && forall r :: r in log.rows && r.seqNo > base ==> r.seqNo <= log.autoinc && r.event == evs[r.seqNo - base - 1]
  }

  lemma RetainsAppend(log: EventTable, base: nat, evs: seq<Event>, more: seq<Event>)
    requires Retains(log, base, evs) && log.Contiguous()
    ensures Retains(log.AppendAll(more), base, evs + more)
  {
    var log' := log.AppendAll(more);
    var n := |log.rows|;
    AppendAllSpec(log, more);
    forall r | r in log'.rows && r.seqNo > base
      ensures r.seqNo <= log'.autoinc && r.event == (evs + more)[r.seqNo - base - 1]
    {
      var i :| 0 <= i < |log'.rows| && log'.rows[i] == r;
      if i < n {
        assert log'.rows[..n][i] == r;
        assert r in log.rows;
      } else {
        assert Payloads(log'.rows[n..])[i - n] == r.event;
      }
    }
  }

  lemma {:induction false} RunReplays(s: Store, ops: seq<Op>)
    requires Sound(s) && ValidRun(s, ops)
    ensures Fold(ViewOf(s), Committed(s, ops)) == ViewOf(After(s, ops))
    ensures Retains(After(s, ops).log, s.log.autoinc, Committed(s, ops))
    decreases |ops|
  {
    if ops != [] {
      var k := |ops| - 1;
      var before := After(s, ops[..k]);
      RunReplays(s, ops[..k]);
      CommitReplays(before, ops[k]);
      FoldConcat(ViewOf(s), Committed(s, ops[..k]), EventsOf(before, ops[k]));
      if ops[k].Trim? {
        TrimKeepsNewest(before.log, ops[k].keep);
        assert EventsOf(before, ops[k]) == [];
      } else {
        RetainsAppend(before.log, s.log.autoinc, Committed(s, ops[..k]), EventsOf(before, ops[k]));
      }
    }
  }

  /**
   * Snapshot plus replay: take the statuses at any sound state together with its sequence number, run any
   * transactions and trims, and fold in the events numbered above it. As long as none of those was trimmed, the
   * result is the current status map.
   */
  lemma SnapshotPlusReplay(s: Store, ops: seq<Op>, limit: nat)
    requires Sound(s) && ValidRun(s, ops) && After(s, ops).log.Oldest() <= s.log.Latest() + 1
    requires limit >= |After(s, ops).log.rows| && limit > 0
    ensures Fold(ViewOf(s), Payloads(After(s, ops).log.Since(s.log.Latest(), limit))) == ViewOf(After(s, ops))
  {
    RunReplays(s, ops);
    LatestIsLast(s.log);
    SinceIsCommitted(After(s, ops).log, s.log.Latest(), Committed(s, ops), limit);
  }

  /** `MAX(seq)` is the last number handed out, because the server never trims the log to nothing. */
  lemma LatestIsLast(log: EventTable)
    requires log.Contiguous() && (log.rows == [] ==> log.autoinc == 0)
    ensures log.Latest() == log.autoinc
  {
  }

  /** When nothing since `base` was trimmed, reading from there yields all committed events. */
  lemma SinceIsCommitted(log: EventTable, base: nat, evs: seq<Event>, limit: nat)
    requires log.Contiguous() && Retains(log, base, evs) && log.Oldest() <= base + 1 && limit >= |log.rows| && limit > 0
    ensures Payloads(log.Since(base, limit)) == evs
  {
    SinceSpec(log, base, limit);
    AboveIsSuffix(log.rows, log.autoinc - |log.rows| + 1, base);
    assert |log.Since(base, limit)| == |evs|;
  }

  // ---- subscribers are not shown what has ended ----

  /** `build_snapshot` lists neither ended agents nor ended loops. */
  function Shown(v: View): View {
    View(map u | u in v.agents && v.agents[u] != Ended :: v.agents[u],
         map u | u in v.loops && v.loops[u] != LoopEnded :: v.loops[u])
  }

  /** Omitting what has ended from the snapshot loses nothing: the replayed views still show the same. */
  lemma {:induction false} EndedMayBeOmitted(v: View, evs: seq<Event>)
    ensures Shown(Fold(Shown(v), evs)) == Shown(Fold(v, evs))
    decreases |evs|
  {
    if evs != [] {
      var k := |evs| - 1;
      EndedMayBeOmitted(v, evs[..k]);
      SameShown(Fold(Shown(v), evs[..k]), Fold(v, evs[..k]), evs[k]);
    }
  }

  lemma SameShown(v: View, w: View, e: Event)
    requires Shown(v) == Shown(w)
    ensures Shown(See(v, e)) == Shown(See(w, e))
  {
    forall u
      ensures u in Shown(See(v, e)).agents <==> u in Shown(See(w, e)).agents
      ensures u in Shown(See(v, e)).agents ==> Shown(See(v, e)).agents[u] == Shown(See(w, e)).agents[u]
      ensures u in Shown(See(v, e)).loops <==> u in Shown(See(w, e)).loops
      ensures u in Shown(See(v, e)).loops ==> Shown(See(v, e)).loops[u] == Shown(See(w, e)).loops[u]
    {
      assert u in Shown(v).agents <==> u in Shown(w).agents;
      assert u in Shown(v).agents ==> Shown(v).agents[u] == Shown(w).agents[u];
      assert u in Shown(v).loops <==> u in Shown(w).loops;
      assert u in Shown(v).loops ==> Shown(v).loops[u] == Shown(w).loops[u];
    }
  }
}
