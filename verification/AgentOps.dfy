/**
 * Any agent transaction, with any arguments a thread may hold: the alphabet of the whole-run theorems.
 * Stale snapshots need no model of their own here, because every argument is arbitrary.
 */
module AgentOps {
  import opened Rows
  import opened AgentTx
  import opened Promotion
  import opened AgentQueue

  datatype AgentOp =
    | OpEnqueue(u: Uuid, new_: NewAgent)
    | OpPromote(lim: Limits, now: int)
    | OpRecordLocation(u: Uuid, terminal: string, pane: string)
    | OpTransition(u: Uuid, status: Status, reason: Option<string>)
    | OpEndIf(u: Uuid, from: Status, why: string)
    | OpRequestCancel(u: Uuid)
    | OpWorkingSeen(u: Uuid, n: nat, at: int)
    | OpIdleSince(u: Uuid, since: Option<int>)
    | OpDeliver(u: Uuid, source: Source, at: int)
    | OpStampWorkingSeen(u: Uuid, n: nat, at: int)
    | OpSettle(u: Uuid, at: int)
    | OpComplete(u: Uuid, n: nat, at: int)
    | OpCompleteRow(u: Uuid, n: nat, at: int)
    | OpBlock(u: Uuid, n: nat, kind: string)
    | OpMarkWorking(u: Uuid)
    | OpCapture(u: Uuid)
    | OpRearm(now: int)
    | OpBeginMove(u: Uuid, from: Status, move: MoveState, token: Token)
    | OpFinishPark(u: Uuid, token: Token, terminal: string, pane: string, now: int)
    | OpFinishUnpark(u: Uuid, token: Token, terminal: string, pane: string, now: int)
    | OpRollback(u: Uuid, token: Token)
    | OpInsertUnmanaged(u: Uuid, path: string, provider: string, terminal: string, pane: string, status: Status)
    | OpUpdateUnmanaged(u: Uuid, status: Status, pane: string)

  /** Transactions that write one agent's row or turns and nothing else. */
  predicate SingleRow(op: AgentOp) {
    !op.OpEnqueue? && !op.OpPromote? && !op.OpDeliver? && !op.OpRearm? && !op.OpInsertUnmanaged? && !op.OpCapture?
  }

  function ApplyRow(t: AgentTables, op: AgentOp): Effect
    requires SingleRow(op)
  {
    match op
    case OpRecordLocation(u, terminal, pane) => RecordLocation(t, u, terminal, pane)
    case OpTransition(u, status, reason) => TransitionStatus(t, u, status, reason)
    case OpEndIf(u, from, why) => EndIfStatus(t, u, from, why)
    case OpRequestCancel(u) => RequestCancel(t, u)
    case OpWorkingSeen(u, n, at) => SetWorkingSeen(t, u, n, at)
    case OpIdleSince(u, since) => SetIdleSince(t, u, since)
    case OpStampWorkingSeen(u, n, at) => StampWorkingSeen(t, u, n, at)
    case OpSettle(u, at) => SettlePrimedIdle(t, u, at)
    case OpComplete(u, n, at) => CompleteTurn(t, u, n, at)
    case OpCompleteRow(u, n, at) => CompleteTurnRow(t, u, n, at)
    case OpBlock(u, n, kind) => MarkBlocked(t, u, n, kind)
    case OpMarkWorking(u) => MarkWorking(t, u)
    case OpBeginMove(u, from, move, token) => BeginMove(t, u, from, move, token)
    case OpFinishPark(u, token, terminal, pane, now) => FinishPark(t, u, token, terminal, pane, now)
    case OpFinishUnpark(u, token, terminal, pane, now) => FinishUnpark(t, u, token, terminal, pane, now)
    case OpRollback(u, token) => RollbackMove(t, u, token)
    case OpUpdateUnmanaged(u, status, pane) => UpdateUnmanaged(t, u, status, pane)
  }

  ghost function Apply(t: AgentTables, op: AgentOp): Effect
    requires QueueSeqsDistinct(t.agents)
  {
    match op
    case OpEnqueue(u, a) => Enqueue(t, u, a)
    case OpPromote(lim, now) => Promote(t, lim, now)
    case OpDeliver(u, source, at) => DeliverInput(t, u, source, at)
    case OpCapture(u) => RecordCapture(t, u)
    case OpRearm(now) => RearmIdleClocks(t, now)
    case OpInsertUnmanaged(u, path, provider, terminal, pane, status) =>
      InsertUnmanaged(t, u, path, provider, terminal, pane, status)
    case _ => ApplyRow(t, op)
  }

  /** The constants the server's call sites pass, and discovery's restriction to unmanaged rows. */
  predicate AsCalled(t: AgentTables, op: AgentOp) {
    match op
    case OpTransition(_, status, _) => status in {Ended, Lost, Working}
    case OpBeginMove(_, from, move, _) => (from == Idle && move == Parking) || (from == Parked && move == Unparking)
    case OpInsertUnmanaged(_, _, _, _, _, status) => status in {Working, Idle, Blocked, Unknown}
    case OpUpdateUnmanaged(u, status, _) =>
      status in {Working, Idle, Blocked, Unknown} && (u in t.agents ==> !t.agents[u].managed)
    case _ => true
  }

  // ---- what every transaction keeps ----

  /** At most one non-ended row holds a path. */
  ghost predicate PathsDistinct(agents: map<Uuid, Agent>) {
    forall u, v | u in agents && v in agents && agents[u].status != Ended && agents[v].status != Ended ::
      agents[u].path == agents[v].path ==> u == v
  }

  /** An agent's turn rows are numbered exactly 1 to its `input_seq`. */
  ghost predicate TurnsDense(t: AgentTables) {
    forall key :: key in t.turns <==> key.agent in t.agents && 1 <= key.inputSeq <= t.agents[key.agent].inputSeq
  }

  /** Row-local facts: a move lease always has its token, a row that never ran has no turn. */
  predicate RowOk(row: Agent) {
    && (row.moveToken.Some? <==> row.moveState != NotMoving)
    && (row.status in {Queued, Starting} ==> row.inputSeq == 0 && row.moveState == NotMoving)
    && (row.status == Queued ==> row.queueSeq.Some?)
  }

  ghost predicate Inv(t: AgentTables) {
    && QueueSeqsDistinct(t.agents)
    && PathsDistinct(t.agents)
    && TurnsDense(t)
    && forall u :: u in t.agents ==> RowOk(t.agents[u])
  }

  /** How a row may evolve: same identity, turn numbers only grow, and it never returns to the queue or to a start. */
  predicate SameAgent(a: Agent, b: Agent) {
    && a.path == b.path && a.managed == b.managed && a.provider == b.provider
    && a.queueSeq == b.queueSeq && a.inputSeq <= b.inputSeq
    && (b.status == Queued ==> a.status == Queued)
    && (b.status == Starting ==> a.status in {Queued, Starting})
  }

  /** Rows are never deleted, keep their identity, and never reuse a turn number. */
  ghost predicate Evolves(t: AgentTables, t': AgentTables) {
    forall u :: u in t.agents ==> u in t'.agents && SameAgent(t.agents[u], t'.agents[u])
  }

  /** A step of one row that no table-wide invariant can notice. */
  predicate RowStep(a: Agent, b: Agent) {
    && SameAgent(a, b) && a.inputSeq == b.inputSeq && RowOk(b)
    && (b.status != Ended ==> a.status != Ended)
    && (b.status == Queued ==> a.status == Queued)
  }

  lemma RowStepsKeepInv(t: AgentTables, t': AgentTables)
    requires Inv(t) && t'.agents.Keys == t.agents.Keys && t'.turns.Keys == t.turns.Keys
    requires forall u :: u in t.agents ==> RowStep(t.agents[u], t'.agents[u])
    ensures Inv(t') && Evolves(t, t')
  {
  }

  lemma OneRowKeepsInv(t: AgentTables, t': AgentTables, u: Uuid)
    requires Inv(t) && u in t.agents && t'.turns.Keys == t.turns.Keys
    requires u in t'.agents && t'.agents == t.agents[u := t'.agents[u]]
    requires SameAgent(t.agents[u], t'.agents[u]) && t.agents[u].inputSeq == t'.agents[u].inputSeq
             && RowOk(t'.agents[u])
    requires t'.agents[u].status != Ended ==> t.agents[u].status != Ended || PathFree(t.agents, u, t.agents[u].path)
    ensures Inv(t') && Evolves(t, t')
  {
    OneRowQueue(t.agents, u, t'.agents[u]);
    OneRowPaths(t.agents, u, t'.agents[u]);
    OneRowTurns(t, t');
  }

  lemma OneRowQueue(agents: map<Uuid, Agent>, u: Uuid, row: Agent)
    requires QueueSeqsDistinct(agents) && u in agents && row.queueSeq == agents[u].queueSeq && RowOk(row)
    ensures QueueSeqsDistinct(agents[u := row])
  {
  }

  lemma OneRowPaths(agents: map<Uuid, Agent>, u: Uuid, row: Agent)
    requires PathsDistinct(agents) && u in agents && row.path == agents[u].path
    requires row.status != Ended ==> agents[u].status != Ended || PathFree(agents, u, row.path)
    ensures PathsDistinct(agents[u := row])
  {
  }

  lemma OneRowTurns(t: AgentTables, t': AgentTables)
    requires TurnsDense(t) && t'.turns.Keys == t.turns.Keys && t'.agents.Keys == t.agents.Keys
    requires forall v :: v in t.agents ==> t'.agents[v].inputSeq == t.agents[v].inputSeq
    ensures TurnsDense(t')
  {
    assert forall key :: key in t'.turns <==> key in t'.turns.Keys;
    assert forall v :: v in t'.agents <==> v in t'.agents.Keys;
  }

  lemma EnqueueKeepsInv(t: AgentTables, u: Uuid, a: NewAgent)
    requires Inv(t)
    ensures Inv(Enqueue(t, u, a).tables) && Evolves(t, Enqueue(t, u, a).tables)
  {
    if CanEnqueue(t, u, a) {
      NewRowKeepsInv(t, u, QueuedRow(a, MaxQueueSeq(t.agents) + 1));
    }
  }

  lemma PromoteKeepsInv(t: AgentTables, lim: Limits, now: int)
    requires Inv(t)
    ensures Inv(Promote(t, lim, now).tables) && Evolves(t, Promote(t, lim, now).tables)
  {
    var t' := Promote(t, lim, now).tables;
    forall u | u in t.agents
      ensures RowStep(t.agents[u], t'.agents[u])
    {
      PromoteRow(t, lim, now, u);
    }
    RowStepsKeepInv(t, t');
  }

  lemma DeliverKeepsInv(t: AgentTables, u: Uuid, source: Source, at: int)
    requires Inv(t)
    ensures Inv(DeliverInput(t, u, source, at).tables) && Evolves(t, DeliverInput(t, u, source, at).tables)
  {
    if Deliverable(t, u) {
      var t' := DeliverInput(t, u, source, at).tables;
      var row := t'.agents[u];
      assert SameAgent(t.agents[u], row) && RowOk(row) by {
        assert RowOk(t.agents[u]);
      }
      assert QueueSeqsDistinct(t'.agents);
      assert PathsDistinct(t'.agents);
      assert TurnsDense(t') by {
        forall key
          ensures key in t'.turns <==> key.agent in t'.agents && 1 <= key.inputSeq <= t'.agents[key.agent].inputSeq
        {
          assert key in t'.turns <==> key in t.turns || key == TurnKey(u, row.inputSeq);
        }
      }
    }
  }

  lemma RearmKeepsInv(t: AgentTables, now: int)
    requires Inv(t)
    ensures Inv(RearmIdleClocks(t, now).tables) && Evolves(t, RearmIdleClocks(t, now).tables)
  {
    var t' := RearmIdleClocks(t, now).tables;
    forall u | u in t.agents
      ensures RowStep(t.agents[u], t'.agents[u])
    {
      assert RowOk(t.agents[u]);
    }
    RowStepsKeepInv(t, t');
  }

  lemma NewRowKeepsInv(t: AgentTables, u: Uuid, row: Agent)
    requires Inv(t) && u !in t.agents && PathFree(t.agents, u, row.path)
    requires row.queueSeq.Some? ==> row.queueSeq.value > MaxQueueSeq(t.agents)
    requires row.inputSeq == 0 && RowOk(row)
    ensures Inv(Put(t, u, row)) && Evolves(t, Put(t, u, row))
  {
    var t' := Put(t, u, row);
    assert forall v :: v in t'.agents <==> v == u || v in t.agents;
    assert TurnsDense(t');
    assert QueueSeqsDistinct(t'.agents) by {
      forall v | v in t.agents && t.agents[v].queueSeq.Some?
        ensures t.agents[v].queueSeq.value <= MaxQueueSeq(t.agents)
      {
      }
    }
    assert PathsDistinct(t'.agents);
  }

  /** Every transaction keeps the unique queue numbers, the path index, the dense turns and the move leases. */
  lemma ApplyKeepsInv(t: AgentTables, op: AgentOp)
    requires Inv(t) && AsCalled(t, op)
    ensures Inv(Apply(t, op).tables) && Evolves(t, Apply(t, op).tables)
  {
    match op
    case OpEnqueue(u, a) => EnqueueKeepsInv(t, u, a);
    case OpPromote(lim, now) => PromoteKeepsInv(t, lim, now);
    case OpDeliver(u, source, at) => DeliverKeepsInv(t, u, source, at);
    case OpRearm(now) => RearmKeepsInv(t, now);
    case OpCapture(u) =>
    case OpInsertUnmanaged(u, path, provider, terminal, pane, status) =>
      if u !in t.agents && PathFree(t.agents, u, path) {
        NewRowKeepsInv(t, u, UnmanagedRow(path, provider, terminal, pane, status));
      }
    case _ => SingleRowKeepsInv(t, op);
  }

  lemma SingleRowKeepsInv(t: AgentTables, op: AgentOp)
    requires Inv(t) && AsCalled(t, op) && SingleRow(op)
    ensures Inv(Apply(t, op).tables) && Evolves(t, Apply(t, op).tables)
  {
    SingleRowStep(t, op);
    if op.u in t.agents {
      OneRowKeepsInv(t, Apply(t, op).tables, op.u);
    }
  }

  /** The row of `u` took a step that keeps its own facts and the path index; nothing else changed but turn contents. */
  predicate RowEffect(t: AgentTables, t': AgentTables, u: Uuid) {
    && t'.turns.Keys == t.turns.Keys
    && (u !in t.agents ==> t'.agents == t.agents)
    && (u in t.agents ==>
          && u in t'.agents && t'.agents == t.agents[u := t'.agents[u]]
          && SameAgent(t.agents[u], t'.agents[u])
          && t.agents[u].inputSeq == t'.agents[u].inputSeq && RowOk(t'.agents[u])
          && (t'.agents[u].status != Ended ==>
                t.agents[u].status != Ended || PathFree(t.agents, u, t.agents[u].path)))
  }

  predicate IsMove(op: AgentOp) {
    op.OpBeginMove? || op.OpFinishPark? || op.OpFinishUnpark? || op.OpRollback?
  }

  predicate IsTurn(op: AgentOp) {
    op.OpWorkingSeen? || op.OpStampWorkingSeen? || op.OpComplete? || op.OpCompleteRow? || op.OpBlock?
  }

  lemma SingleRowStep(t: AgentTables, op: AgentOp)
    requires AsCalled(t, op) && SingleRow(op)
    requires op.u in t.agents ==> RowOk(t.agents[op.u])
    ensures RowEffect(t, ApplyRow(t, op).tables, op.u)
  {
    if IsMove(op) {
      MoveStep(t, op);
    } else if IsTurn(op) {
      TurnStep(t, op);
    } else {
      StatusStep(t, op);
    }
  }

  lemma MoveStep(t: AgentTables, op: AgentOp)
    requires AsCalled(t, op) && IsMove(op)
    requires op.u in t.agents ==> RowOk(t.agents[op.u])
    ensures RowEffect(t, ApplyRow(t, op).tables, op.u)
  {
  }

  lemma TurnStep(t: AgentTables, op: AgentOp)
    requires AsCalled(t, op) && IsTurn(op)
    requires op.u in t.agents ==> RowOk(t.agents[op.u])
    ensures RowEffect(t, ApplyRow(t, op).tables, op.u)
  {
  }

  lemma StatusStep(t: AgentTables, op: AgentOp)
    requires AsCalled(t, op) && SingleRow(op) && !IsMove(op) && !IsTurn(op)
    requires op.u in t.agents ==> RowOk(t.agents[op.u])
    ensures RowEffect(t, ApplyRow(t, op).tables, op.u)
  {
  }

  // ---- runs ----

  const NO_AGENTS: AgentTables := AgentTables(map[], map[])

  /** A run: each transaction finds the tables the previous one left. */
  ghost predicate ValidRun(t: AgentTables, ops: seq<AgentOp>)
    requires Inv(t)
    decreases |ops|, 0
  {
    ops == [] ||
    (&& ValidRun(t, ops[..|ops| - 1])
     && AsCalled(RunFrom(t, ops[..|ops| - 1]), ops[|ops| - 1]))
  }

  ghost function RunFrom(t: AgentTables, ops: seq<AgentOp>): (t': AgentTables)
    requires Inv(t) && ValidRun(t, ops)
    ensures Inv(t')
    decreases |ops|, 1
  {
    if ops == [] then t
    else
      var before := RunFrom(t, ops[..|ops| - 1]);
      ApplyKeepsInv(before, ops[|ops| - 1]);
      Apply(before, ops[|ops| - 1]).tables
  }

  /** All events of a run, oldest first. */
  ghost function EventsOf(t: AgentTables, ops: seq<AgentOp>): seq<Event>
    requires Inv(t) && ValidRun(t, ops)
    decreases |ops|
  {
    if ops == [] then []
    else
      var k := |ops| - 1;
      EventsOf(t, ops[..k]) + Apply(RunFrom(t, ops[..k]), ops[k]).events
  }

  lemma SingleOpRun(t: AgentTables, op: AgentOp)
    requires Inv(t) && AsCalled(t, op)
    ensures ValidRun(t, [op]) && RunFrom(t, [op]) == Apply(t, op).tables
  {
    assert [op][..0] == [];
    assert ValidRun(t, [op][..0]) && RunFrom(t, [op][..0]) == t;
  }

  lemma TwoOpsRun(t: AgentTables, op: AgentOp, next: AgentOp)
    requires Inv(t) && AsCalled(t, op) && Inv(Apply(t, op).tables) && AsCalled(Apply(t, op).tables, next)
    ensures ValidRun(t, [op, next]) && RunFrom(t, [op, next]) == Apply(Apply(t, op).tables, next).tables
  {
    SingleOpRun(t, op);
    assert [op, next][..1] == [op];
    assert ValidRun(t, [op, next][..1]) && RunFrom(t, [op, next][..1]) == Apply(t, op).tables;
  }

  lemma {:induction false} RunEvolves(t: AgentTables, ops: seq<AgentOp>)
    requires Inv(t) && ValidRun(t, ops)
    ensures Evolves(t, RunFrom(t, ops))
    decreases |ops|
  {
    if ops != [] {
      var k := |ops| - 1;
      RunEvolves(t, ops[..k]);
      ApplyKeepsInv(RunFrom(t, ops[..k]), ops[k]);
    }
  }
}
