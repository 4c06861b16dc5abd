/**
 * Input epochs: an idle report that predates a send can never make that send look finished.
 * The runs are arbitrary interleavings of store transactions with arbitrary, possibly stale, arguments.
 */
module TurnEpochs {
  import opened Rows
  import opened AgentTx
  import opened AgentQueue
  import opened AgentOps

  predicate Completed(t: AgentTables, u: Uuid, m: nat) {
    TurnKey(u, m) in t.turns && t.turns[TurnKey(u, m)].completedAt.Some?
  }

  ghost predicate SomeCompleted(t: AgentTables, u: Uuid, n: nat) {
    exists m: nat :: m >= n && Completed(t, u, m)
  }

  /** What a waiter on input `n` sees: a settled status is backed by a completed turn numbered `n` or later. */
  ghost predicate Honest(t: AgentTables, u: Uuid, n: nat) {
    u in t.agents && t.agents[u].status in {Idle, Parked} ==> SomeCompleted(t, u, n)
  }

  /** The invariant behind it: until such a turn completes, the agent is neither settled nor being moved. */
  ghost predicate Guarded(t: AgentTables, u: Uuid, n: nat) {
    && u in t.agents && t.agents[u].managed && 1 <= n <= t.agents[u].inputSeq
    && (SomeCompleted(t, u, n)
        || (t.agents[u].status !in {Idle, Parked} && t.agents[u].moveState == NotMoving))
  }

  /** Completed turns stay completed. */
  lemma CompletedStays(t: AgentTables, op: AgentOp, u: Uuid, m: nat)
    requires QueueSeqsDistinct(t.agents) && Completed(t, u, m)
    ensures Completed(Apply(t, op).tables, u, m)
  {
    if op.OpDeliver? {
      assert Deliverable(t, op.u) ==> TurnKey(op.u, t.agents[op.u].inputSeq + 1) !in t.turns;
    } else if SingleRow(op) {
      if IsTurn(op) {
        CompletedStaysTurn(t, op, u, m);
      } else {
        TurnsUntouched(t, op);
      }
    }
  }

  lemma TurnsUntouched(t: AgentTables, op: AgentOp)
    requires SingleRow(op) && !IsTurn(op)
    ensures ApplyRow(t, op).tables.turns == t.turns
  {
  }

  lemma CompletedStaysTurn(t: AgentTables, op: AgentOp, u: Uuid, m: nat)
    requires IsTurn(op) && Completed(t, u, m)
    ensures Completed(ApplyRow(t, op).tables, u, m)
  {
  }

  lemma GuardedStep(t: AgentTables, op: AgentOp, u: Uuid, n: nat)
    requires Inv(t) && AsCalled(t, op) && Guarded(t, u, n)
    ensures Guarded(Apply(t, op).tables, u, n)
  {
    ApplyKeepsInv(t, op);
    if SomeCompleted(t, u, n) {
      var m: nat :| m >= n && Completed(t, u, m);
      CompletedStays(t, op, u, m);
    } else {
      StillUnsettled(t, op, u, n);
    }
  }

  /** No transaction both leaves turn `n` open and settles the agent or starts moving it. */
  lemma StillUnsettled(t: AgentTables, op: AgentOp, u: Uuid, n: nat)
    requires QueueSeqsDistinct(t.agents) && AsCalled(t, op)
    requires Unsettled(t, u, n) && (SingleRow(op) && op.u in t.agents ==> RowOk(t.agents[op.u]))
    ensures Guarded(Apply(t, op).tables, u, n)
  {
    if op.OpPromote? {
      PromoteRow(t, op.lim, op.now, u);
    } else if SingleRow(op) {
      if op.u == u {
        UnsettledStep(t, op, u, n);
      } else {
        SingleRowStep(t, op);
        OtherRowKept(t, ApplyRow(t, op).tables, op.u, u);
      }
    } else {
      UnsettledOther(t, op, u, n);
    }
  }

  predicate Unsettled(t: AgentTables, u: Uuid, n: nat) {
    && u in t.agents && t.agents[u].managed && RowOk(t.agents[u]) && 1 <= n <= t.agents[u].inputSeq
    && t.agents[u].status !in {Idle, Parked} && t.agents[u].moveState == NotMoving
  }

  lemma OtherRowKept(t: AgentTables, t': AgentTables, v: Uuid, u: Uuid)
    requires RowEffect(t, t', v) && u != v && u in t.agents
    ensures u in t'.agents && t'.agents[u] == t.agents[u]
  {
  }

  lemma UnsettledOther(t: AgentTables, op: AgentOp, u: Uuid, n: nat)
    requires QueueSeqsDistinct(t.agents) && !SingleRow(op) && !op.OpPromote? && Unsettled(t, u, n)
    ensures Guarded(Apply(t, op).tables, u, n)
  {
    assert Unsettled(Apply(t, op).tables, u, n);
  }

  lemma UnsettledStep(t: AgentTables, op: AgentOp, u: Uuid, n: nat)
    requires SingleRow(op) && op.u == u && AsCalled(t, op) && Unsettled(t, u, n)
    ensures Guarded(ApplyRow(t, op).tables, u, n)
  {
    SingleRowStep(t, op);
    if op.OpComplete? {
      if ApplyRow(t, op).tables.agents[u].status == Idle {
        assert Completed(ApplyRow(t, op).tables, u, op.n);
      }
    } else {
      UnsettledRow(t, op, u, n);
    }
  }

  lemma UnsettledRow(t: AgentTables, op: AgentOp, u: Uuid, n: nat)
    requires SingleRow(op) && op.u == u && AsCalled(t, op) && Unsettled(t, u, n) && !op.OpComplete?
    ensures u in ApplyRow(t, op).tables.agents
    ensures ApplyRow(t, op).tables.agents[u].status !in {Idle, Parked}
    ensures ApplyRow(t, op).tables.agents[u].moveState == NotMoving
  {
  }

  lemma {:induction false} GuardedRun(t: AgentTables, ops: seq<AgentOp>, u: Uuid, n: nat)
    requires Inv(t) && ValidRun(t, ops) && Guarded(t, u, n)
    ensures Guarded(RunFrom(t, ops), u, n)
    decreases |ops|
  {
    if ops != [] {
      var k := |ops| - 1;
      GuardedRun(t, ops[..k], u, n);
      GuardedStep(RunFrom(t, ops[..k]), ops[k], u, n);
    }
  }

  /** Every later state is honest about input `n`. */
  ghost predicate AlwaysHonest(t: AgentTables, u: Uuid, n: nat)
    requires Inv(t)
  {
    forall ops :: ValidRun(t, ops) ==> Honest(RunFrom(t, ops), u, n)
  }

  /**
   * The exact guarantee of a managed delivery: whatever runs afterwards, a settled status implies that turn `n`
   * or a later one completed, if and only if no pane move is in flight when the input is delivered. A send holds
   * the agent's move lock and settles any move first, and a spawn pipeline delivers to a starting agent, which nobody
   * moves; the monitor records external turns without the lock.
   */
  lemma SendIsNeverSatisfiedByStaleIdle(t: AgentTables, u: Uuid, source: Source, at: int)
    requires Inv(t) && Deliverable(t, u) && t.agents[u].managed
    ensures Inv(DeliverInput(t, u, source, at).tables)
    ensures AlwaysHonest(DeliverInput(t, u, source, at).tables, u, t.agents[u].inputSeq + 1)
            <==> t.agents[u].moveState == NotMoving
  {
    DeliverKeepsInv(t, u, source, at);
    var t1, n := DeliverInput(t, u, source, at).tables, t.agents[u].inputSeq + 1;
    if t.agents[u].moveState == NotMoving {
      forall ops | ValidRun(t1, ops)
        ensures Honest(RunFrom(t1, ops), u, n)
      {
        GuardedRun(t1, ops, u, n);
      }
    } else {
      NoLaterTurns(t1, u, n);
      FinishingMoveBetrays(t1, u, n);
    }
  }

  /** The first delivery of a spawn pipeline needs no lock: nobody moves an agent that is still starting. */
  lemma PipelineDeliveryIsHonest(t: AgentTables, u: Uuid, at: int)
    requires Inv(t) && Deliverable(t, u) && t.agents[u].managed && t.agents[u].status == Starting
    ensures Inv(DeliverInput(t, u, Orcr, at).tables) && t.agents[u].inputSeq == 0
    ensures AlwaysHonest(DeliverInput(t, u, Orcr, at).tables, u, 1)
  {
    assert RowOk(t.agents[u]);
    SendIsNeverSatisfiedByStaleIdle(t, u, Orcr, at);
  }

  /** A move that was in flight at the delivery ends in a settled status although the new turn is still open. */
  lemma FinishingMoveBetrays(t: AgentTables, u: Uuid, n: nat)
    requires Inv(t) && u in t.agents && t.agents[u].status == Working && t.agents[u].inputSeq == n
    requires !SomeCompleted(t, u, n) && t.agents[u].moveState != NotMoving
    ensures !AlwaysHonest(t, u, n)
  {
    assert RowOk(t.agents[u]);
    var op := OpFinishPark(u, t.agents[u].moveToken.value, "t", "p", 0);
    SingleOpRun(t, op);
    var t' := RunFrom(t, [op]);
    assert t'.turns == t.turns && t'.agents[u].status == Parked;
    assert SomeCompleted(t', u, n) ==> SomeCompleted(t, u, n) by {
      forall m: nat | Completed(t', u, m)
        ensures Completed(t, u, m)
      {
      }
    }
    assert !Honest(t', u, n);
  }

  lemma NoLaterTurns(t: AgentTables, u: Uuid, n: nat)
    requires TurnsDense(t) && u in t.agents && t.agents[u].inputSeq == n && !Completed(t, u, n)
    ensures !SomeCompleted(t, u, n)
  {
    forall m: nat | m >= n
      ensures !Completed(t, u, m)
    {
      assert TurnKey(u, m) in t.turns ==> m <= n;
    }
  }

  /** The turn rows of every reachable state are exactly 1 to `input_seq` for each agent. */
  lemma TurnsAreDense(ops: seq<AgentOp>, key: TurnKey)
    requires ValidRun(NO_AGENTS, ops)
    ensures var t := RunFrom(NO_AGENTS, ops);
            key in t.turns <==> key.agent in t.agents && 1 <= key.inputSeq <= t.agents[key.agent].inputSeq
  {
    assert TurnsDense(RunFrom(NO_AGENTS, ops));
  }
}
