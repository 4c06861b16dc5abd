/** Capacity and promotion over whole runs: who can occupy a slot, and how often an agent is promoted. */
module Capacity {
  import opened Rows
  import opened AgentTx
  import opened Promotion
  import opened AgentQueue
  import opened AgentOps

  /** The row of `u` is managed, holds no slot, and could be rewritten without breaking the path index. */
  predicate Dormant(t: AgentTables, u: Uuid) {
    u in t.agents && t.agents[u].managed && !Live(t.agents[u]) && PathFree(t.agents, u, t.agents[u].path)
  }

  /** Transactions that put a managed agent into a slot without passing the promotion limits. */
  predicate Revives(t: AgentTables, op: AgentOp) {
    match op
    case OpTransition(u, status, _) => Dormant(t, u) && status !in {Queued, Ended, Lost}
    case OpDeliver(u, _, _) => Deliverable(t, u) && t.agents[u].managed && t.agents[u].status == Queued
    case OpBlock(u, _, _) => Dormant(t, u)
    case OpFinishPark(u, token, _, _, _) => Dormant(t, u) && HoldsToken(t, u, token)
    case OpFinishUnpark(u, token, _, _, _) => Dormant(t, u) && HoldsToken(t, u, token)
    case _ => false
  }

  // ---- one transaction ----

  /** Apart from promotion, a transaction adds a live row if and only if it revives one, and then exactly that one. */
  lemma OnlyRevivalAddsLive(t: AgentTables, op: AgentOp)
    requires Inv(t) && AsCalled(t, op) && !op.OpPromote?
    ensures !Revives(t, op) ==> LiveRows(Apply(t, op).tables.agents) <= LiveRows(t.agents)
    ensures Revives(t, op) ==> op.u !in LiveRows(t.agents)
                               && LiveRows(Apply(t, op).tables.agents) == LiveRows(t.agents) + {op.u}
  {
    var t' := Apply(t, op).tables;
    if SingleRow(op) {
      assert op.u in t.agents ==> RowOk(t.agents[op.u]);
      SingleRowStep(t, op);
      SingleRowLive(t, op);
      RowLive(t, t', op.u);
    } else {
      TableOpLive(t, op);
    }
  }

  lemma RowLive(t: AgentTables, t': AgentTables, u: Uuid)
    requires RowEffect(t, t', u)
    ensures u !in t.agents ==> LiveRows(t'.agents) == LiveRows(t.agents)
    ensures u in t.agents ==>
              LiveRows(t'.agents) == if Live(t'.agents[u]) then LiveRows(t.agents) + {u} else LiveRows(t.agents) - {u}
  {
  }

  lemma SingleRowLive(t: AgentTables, op: AgentOp)
    requires SingleRow(op) && AsCalled(t, op)
    ensures Revives(t, op) ==> op.u in t.agents
    ensures op.u in t.agents ==>
              && op.u in ApplyRow(t, op).tables.agents
              && (!Live(t.agents[op.u]) ==> (Live(ApplyRow(t, op).tables.agents[op.u]) <==> Revives(t, op)))
              && (Live(t.agents[op.u]) ==> !Revives(t, op))
  {
    if op.u !in t.agents {
    } else if IsTurn(op) {
      TurnLive(t, op);
    } else if IsMove(op) {
      MoveLive(t, op);
    }
  }

  lemma TurnLive(t: AgentTables, op: AgentOp)
    requires IsTurn(op) && op.u in t.agents
    ensures && op.u in ApplyRow(t, op).tables.agents
            && (!Live(t.agents[op.u]) ==> (Live(ApplyRow(t, op).tables.agents[op.u]) <==> Revives(t, op)))
            && (Live(t.agents[op.u]) ==> !Revives(t, op))
  {
  }

  lemma MoveLive(t: AgentTables, op: AgentOp)
    requires IsMove(op) && op.u in t.agents
    ensures && op.u in ApplyRow(t, op).tables.agents
            && (!Live(t.agents[op.u]) ==> (Live(ApplyRow(t, op).tables.agents[op.u]) <==> Revives(t, op)))
            && (Live(t.agents[op.u]) ==> !Revives(t, op))
  {
  }

  lemma TableOpLive(t: AgentTables, op: AgentOp)
    requires QueueSeqsDistinct(t.agents) && !SingleRow(op) && !op.OpPromote?
    ensures !Revives(t, op) ==> LiveRows(Apply(t, op).tables.agents) <= LiveRows(t.agents)
    ensures Revives(t, op) ==> op.u !in LiveRows(t.agents)
                               && LiveRows(Apply(t, op).tables.agents) == LiveRows(t.agents) + {op.u}
  {
  }

  lemma PromotionLive(t: AgentTables, lim: Limits, now: int)
    requires Inv(t)
    ensures LiveRows(Promote(t, lim, now).tables.agents) <= LiveRows(t.agents) + PromotedRows(t.agents, lim)
  {
    forall u | u in LiveRows(Promote(t, lim, now).tables.agents)
      ensures u in LiveRows(t.agents) + PromotedRows(t.agents, lim)
    {
      assert u in t.agents by {
        assert Promote(t, lim, now).tables.agents.Keys == t.agents.Keys;
      }
      PromoteRow(t, lim, now, u);
    }
  }

  // ---- counts ----

  function Max(a: int, b: int): int {
    if a >= b then a else b
  }

  /** The live rows of one provider, or of all of them. */
  function Slots(agents: map<Uuid, Agent>, provider: Option<string>): set<Uuid> {
    if provider.None? then LiveRows(agents) else LiveRowsOf(agents, provider.value)
  }

  function LimitOf(lim: Limits, provider: Option<string>): nat {
    if provider.None? then lim.globalMax else lim.CapOf(provider.value)
  }

  /** A step that revives nothing leaves the count where it was, lowers it, or keeps it within the limit. */
  lemma SlotsStep(t: AgentTables, op: AgentOp, lim: Limits, provider: Option<string>)
    requires Inv(t) && AsCalled(t, op) && !Revives(t, op) && (op.OpPromote? ==> op.lim == lim)
    ensures |Slots(Apply(t, op).tables.agents, provider)| <= Max(|Slots(t.agents, provider)|, LimitOf(lim, provider))
  {
    if op.OpPromote? {
      PromotionSlots(t, lim, op.now, provider);
    } else {
      var t' := Apply(t, op).tables;
      ApplyKeepsInv(t, op);
      OnlyRevivalAddsLive(t, op);
      SlotsWithin(t, t', LiveRows(t.agents), provider);
    }
  }

  /** How many of the rows in `s` count against the limit. */
  function Part(agents: map<Uuid, Agent>, s: set<Uuid>, provider: Option<string>): set<Uuid>
    requires s <= agents.Keys
  {
    if provider.None? then s else Group(agents, s, provider.value)
  }

  lemma SlotsWithin(t: AgentTables, t': AgentTables, s: set<Uuid>, provider: Option<string>)
    requires Evolves(t, t') && s <= t.agents.Keys && LiveRows(t'.agents) <= s
    ensures |Slots(t'.agents, provider)| <= |Part(t.agents, s, provider)|
  {
    if provider.Some? {
      SameProviders(t, t', s, provider.value);
    }
    SubsetSize(Slots(t'.agents, provider), Part(t.agents, s, provider));
  }

  lemma PromotionSlots(t: AgentTables, lim: Limits, now: int, provider: Option<string>)
    requires Inv(t)
    ensures |Slots(Promote(t, lim, now).tables.agents, provider)|
         <= Max(|Slots(t.agents, provider)|, LimitOf(lim, provider))
  {
    PromoteKeepsInv(t, lim, now);
    PromotionLive(t, lim, now);
    PromotionIsOptimal(t.agents, lim, {});
    ChoiceFits(t, Promote(t, lim, now).tables, PromotedRows(t.agents, lim), lim, provider);
  }

  lemma ChoiceFits(t: AgentTables, t': AgentTables, s: set<Uuid>, lim: Limits, provider: Option<string>)
    requires Evolves(t, t') && FeasibleChoice(t.agents, s, lim) && LiveRows(t'.agents) <= LiveRows(t.agents) + s
    ensures |Slots(t'.agents, provider)| <= Max(|Slots(t.agents, provider)|, LimitOf(lim, provider))
  {
    SlotsWithin(t, t', LiveRows(t.agents) + s, provider);
    PartOfUnion(t.agents, LiveRows(t.agents), s, provider);
    RoomForPart(t.agents, s, lim, provider);
  }

  lemma RoomForPart(agents: map<Uuid, Agent>, s: set<Uuid>, lim: Limits, provider: Option<string>)
    requires s <= agents.Keys && FeasibleChoice(agents, s, lim)
    ensures Part(agents, s, provider) != {} ==>
              |Slots(agents, provider)| + |Part(agents, s, provider)| <= LimitOf(lim, provider)
  {
  }

  lemma PartOfUnion(agents: map<Uuid, Agent>, a: set<Uuid>, b: set<Uuid>, provider: Option<string>)
    requires a <= agents.Keys && b <= agents.Keys
    ensures |Part(agents, a + b, provider)| <= |Part(agents, a, provider)| + |Part(agents, b, provider)|
  {
    var x, y := Part(agents, a, provider), Part(agents, b, provider);
    assert Part(agents, a + b, provider) == x + y;
    assert x + y == x + (y - x);
    SubsetSize(y - x, y);
  }

  lemma SameProviders(t: AgentTables, t': AgentTables, s: set<Uuid>, p: string)
    requires Evolves(t, t') && s <= t.agents.Keys && LiveRows(t'.agents) <= s
    ensures LiveRowsOf(t'.agents, p) <= Group(t.agents, s, p)
  {
    forall u | u in LiveRowsOf(t'.agents, p)
      ensures u in Group(t.agents, s, p)
    {
      assert u in LiveRows(t'.agents) && u in t.agents;
    }
  }

  // ---- runs ----

  /** A run whose promotions use the limits `lim` and in which nothing is revived. */
  ghost predicate WithinLimits(t: AgentTables, ops: seq<AgentOp>, lim: Limits)
    requires Inv(t) && ValidRun(t, ops)
    decreases |ops|
  {
    ops == [] ||
    (var k := |ops| - 1;
     && WithinLimits(t, ops[..k], lim)
     && !Revives(RunFrom(t, ops[..k]), ops[k]) && (ops[k].OpPromote? ==> ops[k].lim == lim))
  }

  /** Over a whole run the live agents, in all and of each provider, stay within the limit or what was there before. */
  lemma {:induction false} SlotsStayBounded(t: AgentTables, ops: seq<AgentOp>, lim: Limits, provider: Option<string>)
    requires Inv(t) && ValidRun(t, ops) && WithinLimits(t, ops, lim)
    ensures |Slots(RunFrom(t, ops).agents, provider)| <= Max(|Slots(t.agents, provider)|, LimitOf(lim, provider))
    decreases |ops|
  {
    if ops != [] {
      var k := |ops| - 1;
      SlotsStayBounded(t, ops[..k], lim, provider);
      SlotsStep(RunFrom(t, ops[..k]), ops[k], lim, provider);
    }
  }

  /** With every slot taken, a revival is exactly what overruns the limit. */
  lemma RevivalOverruns(t: AgentTables, op: AgentOp, lim: Limits)
    requires Inv(t) && AsCalled(t, op) && !op.OpPromote? && |LiveRows(t.agents)| == lim.globalMax
    ensures |LiveRows(Apply(t, op).tables.agents)| > lim.globalMax <==> Revives(t, op)
  {
    OnlyRevivalAddsLive(t, op);
    if !Revives(t, op) {
      SubsetSize(LiveRows(Apply(t, op).tables.agents), LiveRows(t.agents));
    }
  }

  // ---- what revives under the threads' discipline ----

  /** A recorded pane means that the managed agent left the queue. */
  predicate TidyRow(row: Agent) {
    row.managed && row.pane.Some? ==> row.status != Queued
  }

  predicate Tidy(t: AgentTables) {
    forall u :: u in t.agents ==> TidyRow(t.agents[u])
  }

  /** Some state of the run so far, however old, showed the agent with a pane or out of the queue. */
  ghost predicate Sighted(t: AgentTables, ops: seq<AgentOp>, u: Uuid)
    requires Inv(t) && ValidRun(t, ops)
    decreases |ops|
  {
    || OutOfQueue(RunFrom(t, ops), u)
    || (ops != [] && Sighted(t, ops[..|ops| - 1], u))
  }

  predicate OutOfQueue(t: AgentTables, u: Uuid) {
    u in t.agents && (t.agents[u].pane.Some? || t.agents[u].status != Queued)
  }

  /** An unguarded write of an active status finds the row live. */
  predicate ActsOnCurrent(t: AgentTables, op: AgentOp) {
    match op
    case OpTransition(u, Working, _) => u in t.agents ==> Live(t.agents[u]) || !t.agents[u].managed
    case OpBlock(u, _, _) => u in t.agents ==> Live(t.agents[u]) || !t.agents[u].managed
    case _ => true
  }

  /**
   * What the threads keep to: the unguarded writes of an active status act on the status their caller read, while a
   * delivery or a new location may rest on any old sighting of the agent. Closing writes and the two finishing
   * transactions are not restricted.
   */
  ghost predicate Disciplined(t: AgentTables, ops: seq<AgentOp>, lim: Limits)
    requires Inv(t) && ValidRun(t, ops)
    decreases |ops|
  {
    ops == [] ||
    (var k := |ops| - 1;
     && Disciplined(t, ops[..k], lim) && ActsOnCurrent(RunFrom(t, ops[..k]), ops[k])
     && (ops[k].OpDeliver? || ops[k].OpRecordLocation? ==>
           Sighted(t, ops[..k], ops[k].u) || ops[k].u !in RunFrom(t, ops[..k]).agents)
     && (ops[k].OpPromote? ==> ops[k].lim == lim))
  }

  /** The agent is there and, if managed, no longer queued. */
  predicate Left(t: AgentTables, u: Uuid) {
    u in t.agents && (t.agents[u].managed ==> t.agents[u].status != Queued)
  }

  predicate Informed(t: AgentTables, op: AgentOp) {
    op.OpDeliver? || op.OpRecordLocation? ==> op.u in t.agents ==> Left(t, op.u)
  }

  /** A move finishes although its agent has ended or been lost, and the path is still free. */
  predicate Late(t: AgentTables, op: AgentOp) {
    && (op.OpFinishPark? || op.OpFinishUnpark?) && HoldsToken(t, op.u, op.token)
    && t.agents[op.u].managed && Terminal(t.agents[op.u].status) && PathFree(t.agents, op.u, t.agents[op.u].path)
  }

  /** Under the discipline nothing but a late finish revives. */
  lemma OnlyLateRevives(t: AgentTables, op: AgentOp)
    requires AsCalled(t, op) && ActsOnCurrent(t, op) && Informed(t, op)
    requires forall u :: u in t.agents ==> TidyRow(t.agents[u]) && RowOk(t.agents[u])
    ensures Revives(t, op) <==> Late(t, op)
  {
  }

  lemma TidySingle(t: AgentTables, op: AgentOp)
    requires SingleRow(op) && AsCalled(t, op) && ActsOnCurrent(t, op) && Informed(t, op)
    requires op.u in t.agents && TidyRow(t.agents[op.u]) && RowOk(t.agents[op.u])
    ensures op.u in ApplyRow(t, op).tables.agents && TidyRow(ApplyRow(t, op).tables.agents[op.u])
  {
    if IsTurn(op) {
    } else if IsMove(op) {
    }
  }

  lemma TidyTable(t: AgentTables, op: AgentOp)
    requires QueueSeqsDistinct(t.agents) && Tidy(t) && !SingleRow(op) && !op.OpPromote? && Informed(t, op)
    ensures Tidy(Apply(t, op).tables)
  {
  }

  lemma TidyPromotion(t: AgentTables, lim: Limits, now: int)
    requires QueueSeqsDistinct(t.agents) && Tidy(t)
    ensures Tidy(Promote(t, lim, now).tables)
  {
    var t' := Promote(t, lim, now).tables;
    forall u | u in t'.agents
      ensures TidyRow(t'.agents[u])
    {
      assert u in t.agents && TidyRow(t.agents[u]);
      PromoteRow(t, lim, now, u);
    }
  }

  lemma TidyPut(t: AgentTables, t': AgentTables, u: Uuid)
    requires Tidy(t) && u in t'.agents && TidyRow(t'.agents[u]) && t'.agents == t.agents[u := t'.agents[u]]
    ensures Tidy(t')
  {
  }

  lemma TidyStep(t: AgentTables, op: AgentOp)
    requires Inv(t) && AsCalled(t, op) && Tidy(t) && ActsOnCurrent(t, op) && Informed(t, op)
    ensures Tidy(Apply(t, op).tables)
  {
    if SingleRow(op) {
      assert op.u in t.agents ==> RowOk(t.agents[op.u]) && TidyRow(t.agents[op.u]);
      SingleRowStep(t, op);
      if op.u in t.agents {
        TidySingle(t, op);
        TidyPut(t, ApplyRow(t, op).tables, op.u);
      }
    } else if op.OpPromote? {
      TidyPromotion(t, op.lim, op.now);
    } else {
      TidyTable(t, op);
    }
  }

  /** However old the sighting, the agent has left the queue, since no row ever returns to it. */
  lemma {:induction false} SightedLeft(t: AgentTables, ops: seq<AgentOp>, lim: Limits, u: Uuid)
    requires Inv(t) && Tidy(t) && ValidRun(t, ops) && Disciplined(t, ops, lim)
    requires Sighted(t, ops, u)
    ensures Left(RunFrom(t, ops), u)
    decreases |ops|, 1
  {
    if OutOfQueue(RunFrom(t, ops), u) {
      StaysTidy(t, ops, lim);
      assert TidyRow(RunFrom(t, ops).agents[u]);
    } else {
      var k := |ops| - 1;
      SightedLeft(t, ops[..k], lim, u);
      StaysLeft(RunFrom(t, ops[..k]), ops[k], u);
    }
  }

  lemma StaysLeft(t: AgentTables, op: AgentOp, u: Uuid)
    requires Inv(t) && AsCalled(t, op) && Left(t, u)
    ensures Left(Apply(t, op).tables, u)
  {
    ApplyKeepsInv(t, op);
    assert SameAgent(t.agents[u], Apply(t, op).tables.agents[u]);
  }

  lemma {:induction false} StaysTidy(t: AgentTables, ops: seq<AgentOp>, lim: Limits)
    requires Inv(t) && Tidy(t) && ValidRun(t, ops) && Disciplined(t, ops, lim)
    ensures Tidy(RunFrom(t, ops))
    decreases |ops|, 0
  {
    if ops != [] {
      var k := |ops| - 1;
      StaysTidy(t, ops[..k], lim);
      LastIsInformed(t, ops, lim);
      TidyStep(RunFrom(t, ops[..k]), ops[k]);
    }
  }

  lemma {:induction false} LastIsInformed(t: AgentTables, ops: seq<AgentOp>, lim: Limits)
    requires Inv(t) && Tidy(t) && ValidRun(t, ops) && Disciplined(t, ops, lim) && ops != []
    ensures Informed(RunFrom(t, ops[..|ops| - 1]), ops[|ops| - 1])
    decreases |ops| - 1, 2
  {
    var k := |ops| - 1;
    if (ops[k].OpDeliver? || ops[k].OpRecordLocation?) && Sighted(t, ops[..k], ops[k].u) {
      SightedLeft(t, ops[..k], lim, ops[k].u);
    }
  }

  /** No move of the run finishes late. */
  ghost predicate Timely(t: AgentTables, ops: seq<AgentOp>)
    requires Inv(t) && ValidRun(t, ops)
    decreases |ops|
  {
    ops == [] || (Timely(t, ops[..|ops| - 1]) && !Late(RunFrom(t, ops[..|ops| - 1]), ops[|ops| - 1]))
  }

  lemma {:induction false} TimelyIsWithin(t: AgentTables, ops: seq<AgentOp>, lim: Limits)
    requires Inv(t) && Tidy(t) && ValidRun(t, ops) && Disciplined(t, ops, lim)
    ensures WithinLimits(t, ops, lim) <==> Timely(t, ops)
    decreases |ops|
  {
    if ops != [] {
      var k := |ops| - 1;
      TimelyIsWithin(t, ops[..k], lim);
      StaysTidy(t, ops[..k], lim);
      LastIsInformed(t, ops, lim);
      OnlyLateRevives(RunFrom(t, ops[..k]), ops[k]);
    }
  }

  /**
   * Threads that keep to this discipline stay within the limits as long as no move finishes late: a delivery cannot
   * start a queued agent, however old the read it rests on.
   */
  lemma DisciplineKeepsLimits(t: AgentTables, ops: seq<AgentOp>, lim: Limits, provider: Option<string>)
    requires Inv(t) && Tidy(t) && ValidRun(t, ops) && Disciplined(t, ops, lim) && Timely(t, ops)
    ensures |Slots(RunFrom(t, ops).agents, provider)| <= Max(|Slots(t.agents, provider)|, LimitOf(lim, provider))
  {
    TimelyIsWithin(t, ops, lim);
    SlotsStayBounded(t, ops, lim, provider);
  }

  // ---- where late finishes come from ----

  predicate Closing(op: AgentOp) {
    op.OpTransition? && Terminal(op.status)
  }

  /** Some closing write of the run found the agent being moved under `token`. */
  ghost predicate ClosedWhileMoving(t: AgentTables, ops: seq<AgentOp>, u: Uuid, token: Token)
    requires Inv(t) && ValidRun(t, ops)
    decreases |ops|
  {
    ops != [] &&
    (var k := |ops| - 1;
     || ClosedWhileMoving(t, ops[..k], u, token)
     || (Closing(ops[k]) && ops[k].u == u && HoldsToken(RunFrom(t, ops[..k]), u, token)))
  }

  /** A managed agent that is gone although its move lease is still on record. */
  predicate Stranded(t: AgentTables, u: Uuid, token: Token) {
    HoldsToken(t, u, token) && t.agents[u].managed && Terminal(t.agents[u].status)
  }

  lemma StrandedStep(t: AgentTables, op: AgentOp, u: Uuid, token: Token)
    requires Inv(t) && AsCalled(t, op) && Stranded(Apply(t, op).tables, u, token)
    ensures Stranded(t, u, token) || (Closing(op) && op.u == u && HoldsToken(t, u, token))
  {
    if op.OpPromote? {
      StrandedPromotion(t, op.lim, op.now, u, token);
    } else if SingleRow(op) {
      assert op.u in t.agents ==> RowOk(t.agents[op.u]);
      SingleRowStep(t, op);
      if op.u == u && u in t.agents {
        StrandedRow(t, op, token);
      }
    } else {
      StrandedTable(t, op, u, token);
    }
  }

  lemma StrandedPromotion(t: AgentTables, lim: Limits, now: int, u: Uuid, token: Token)
    requires QueueSeqsDistinct(t.agents) && Stranded(Promote(t, lim, now).tables, u, token)
    ensures Stranded(t, u, token)
  {
    assert u in t.agents;
    PromoteRow(t, lim, now, u);
  }

  lemma StrandedRow(t: AgentTables, op: AgentOp, token: Token)
    requires SingleRow(op) && AsCalled(t, op) && op.u in t.agents && Stranded(ApplyRow(t, op).tables, op.u, token)
    ensures Stranded(t, op.u, token) || (Closing(op) && HoldsToken(t, op.u, token))
  {
    if IsTurn(op) {
    } else if IsMove(op) {
    }
  }

  lemma StrandedTable(t: AgentTables, op: AgentOp, u: Uuid, token: Token)
    requires QueueSeqsDistinct(t.agents) && !SingleRow(op) && !op.OpPromote?
    requires AsCalled(t, op) && Stranded(Apply(t, op).tables, u, token)
    ensures Stranded(t, u, token)
  {
  }

  /** Nobody was stranded to begin with, so whoever is now was closed while being moved. */
  lemma {:induction false} StrandedWasClosed(t: AgentTables, ops: seq<AgentOp>, u: Uuid, token: Token)
    requires Inv(t) && ValidRun(t, ops) && !Stranded(t, u, token) && Stranded(RunFrom(t, ops), u, token)
    ensures ClosedWhileMoving(t, ops, u, token)
    decreases |ops|
  {
    var k := |ops| - 1;
    StrandedStep(RunFrom(t, ops[..k]), ops[k], u, token);
    if Stranded(RunFrom(t, ops[..k]), u, token) {
      StrandedWasClosed(t, ops[..k], u, token);
    }
  }

  /**
   * Exactly when a finish revives, at any point of any run from an empty store: a closing write found the agent
   * being moved under that token, and since then the agent is still gone, the lease still on record and the path
   * still free. `kill` is such a write: it ends the row without looking at the lease.
   */
  lemma LateFinishIsExact(ops: seq<AgentOp>, op: AgentOp)
    requires ValidRun(NO_AGENTS, ops) && (op.OpFinishPark? || op.OpFinishUnpark?)
    ensures var t := RunFrom(NO_AGENTS, ops);
            Revives(t, op) <==>
              && ClosedWhileMoving(NO_AGENTS, ops, op.u, op.token)
              && Stranded(t, op.u, op.token) && PathFree(t.agents, op.u, t.agents[op.u].path)
  {
    var t := RunFrom(NO_AGENTS, ops);
    FinishRevives(t, op);
    if Stranded(t, op.u, op.token) {
      StrandedWasClosed(NO_AGENTS, ops, op.u, op.token);
    }
  }

  lemma FinishRevives(t: AgentTables, op: AgentOp)
    requires Inv(t) && (op.OpFinishPark? || op.OpFinishUnpark?)
    ensures Revives(t, op) <==> Stranded(t, op.u, op.token) && PathFree(t.agents, op.u, t.agents[op.u].path)
  {
    if op.u in t.agents {
      assert RowOk(t.agents[op.u]);
    }
  }

  /**
   * And right after the closing write of an agent that was not gone, a finish revives if and only if it holds the
   * lease.
   */
  lemma ClosingStrands(t: AgentTables, closing: AgentOp, op: AgentOp)
    requires Inv(t) && Closing(closing) && (op.OpFinishPark? || op.OpFinishUnpark?) && op.u == closing.u
    requires op.u in t.agents && t.agents[op.u].managed && t.agents[op.u].status != Ended
    ensures Revives(Apply(t, closing).tables, op) <==> HoldsToken(t, op.u, op.token)
  {
    var t' := Apply(t, closing).tables;
    assert PathFree(t.agents, op.u, t.agents[op.u].path);
    assert PathFree(t'.agents, op.u, t.agents[op.u].path);
  }

  // ---- promoted once ----

  function CountPromoted(evs: seq<Event>, u: Uuid): nat {
    if evs == [] then 0
    else CountPromoted(evs[..|evs| - 1], u) + if evs[|evs| - 1] == QueuePromoted(u) then 1 else 0
  }

  lemma {:induction false} CountPromotedConcat(a: seq<Event>, b: seq<Event>, u: Uuid)
    ensures CountPromoted(a + b, u) == CountPromoted(a, u) + CountPromoted(b, u)
    decreases |b|
  {
    if b == [] {
      assert a + b == a;
    } else {
      assert (a + b)[..|a + b| - 1] == a + b[..|b| - 1];
      CountPromotedConcat(a, b[..|b| - 1], u);
    }
  }

  lemma {:induction false} NoneCounted(evs: seq<Event>, u: Uuid)
    requires forall i :: 0 <= i < |evs| ==> !evs[i].QueuePromoted?
    ensures CountPromoted(evs, u) == 0
    decreases |evs|
  {
    if evs != [] {
      NoneCounted(evs[..|evs| - 1], u);
    }
  }

  lemma CountPromotedPair(v: Uuid, u: Uuid)
    ensures CountPromoted([QueuePromoted(v), AgentStatusChanged(v, Starting)], u) == if u == v then 1 else 0
  {
    var pair := [QueuePromoted(v), AgentStatusChanged(v, Starting)];
    assert pair[..1] == [QueuePromoted(v)] && [QueuePromoted(v)][..0] == [];
    assert CountPromoted([], u) == 0;
  }

  lemma {:induction false} PromoteUpToCounts(t: AgentTables, q: seq<Uuid>, mask: seq<bool>, now: int, k: nat, u: Uuid)
    requires k <= |q| == |mask| && (forall v :: v in q ==> v in t.agents)
    requires forall i, j :: 0 <= i < j < |q| ==> q[i] != q[j]
    ensures CountPromoted(PromoteUpTo(t, q, mask, now, k).events, u)
         == if exists i :: 0 <= i < k && q[i] == u && mask[i] then 1 else 0
  {
    if k > 0 {
      PromoteUpToCounts(t, q, mask, now, k - 1, u);
      var v := q[k - 1];
      if mask[k - 1] {
        var pair := [QueuePromoted(v), AgentStatusChanged(v, Starting)];
        CountPromotedConcat(PromoteUpTo(t, q, mask, now, k - 1).events, pair, u);
        CountPromotedPair(v, u);
        assert q[k - 1] == v && mask[k - 1];
      }
    }
  }

  lemma PromotionCounts(t: AgentTables, lim: Limits, now: int, u: Uuid)
    requires QueueSeqsDistinct(t.agents)
    ensures CountPromoted(Promote(t, lim, now).events, u) == if u in PromotedRows(t.agents, lim) then 1 else 0
  {
    QueueOrderOrdered(t.agents);
    var q, mask := QueueOrder(t.agents), PromotionMask(t.agents, lim);
    OrderedDistinct(t.agents, QueuedRows(t.agents), q);
    PromoteUpToCounts(t, q, mask, now, |q|, u);
  }

  /** An agent that is absent or still queued was never promoted; any agent was promoted at most once. */
  ghost predicate PromotedOnce(t: AgentTables, evs: seq<Event>, u: Uuid) {
    && CountPromoted(evs, u) <= 1
    && (u !in t.agents || t.agents[u].status == Queued ==> CountPromoted(evs, u) == 0)
  }

  /** Out of the queue for good. */
  predicate Dequeued(t: AgentTables, u: Uuid) {
    u in t.agents && t.agents[u].status != Queued
  }

  lemma PromotedStep(t: AgentTables, op: AgentOp, evs: seq<Event>, u: Uuid)
    requires Inv(t) && AsCalled(t, op)
    ensures PromotedOnce(t, evs, u) ==> PromotedOnce(Apply(t, op).tables, evs + Apply(t, op).events, u)
    ensures Dequeued(t, u) ==>
              Dequeued(Apply(t, op).tables, u) && CountPromoted(evs + Apply(t, op).events, u) == CountPromoted(evs, u)
  {
    var e := Apply(t, op);
    ApplyKeepsInv(t, op);
    CountPromotedConcat(evs, e.events, u);
    if u in t.agents {
      assert SameAgent(t.agents[u], e.tables.agents[u]);
    }
    if op.OpPromote? {
      PromotionCounts(t, op.lim, op.now, u);
      if u in t.agents {
        PromoteRow(t, op.lim, op.now, u);
      } else {
        QueueOrderOrdered(t.agents);
        assert u !in PromotedRows(t.agents, op.lim);
      }
    } else {
      NoPromotions(t, op);
      NoneCounted(e.events, u);
    }
  }

  lemma NoPromotions(t: AgentTables, op: AgentOp)
    requires QueueSeqsDistinct(t.agents) && !op.OpPromote?
    ensures forall i :: 0 <= i < |Apply(t, op).events| ==> !Apply(t, op).events[i].QueuePromoted?
  {
  }

  lemma {:induction false} PromotedAtMostOnce(ops: seq<AgentOp>, u: Uuid)
    requires ValidRun(NO_AGENTS, ops)
    ensures PromotedOnce(RunFrom(NO_AGENTS, ops), EventsOf(NO_AGENTS, ops), u)
    decreases |ops|
  {
    if ops != [] {
      var k := |ops| - 1;
      PromotedAtMostOnce(ops[..k], u);
      PromotedStep(RunFrom(NO_AGENTS, ops[..k]), ops[k], EventsOf(NO_AGENTS, ops[..k]), u);
    }
  }

  lemma {:induction false} DequeuedNeverPromoted(t: AgentTables, ops: seq<AgentOp>, u: Uuid)
    requires Inv(t) && ValidRun(t, ops) && Dequeued(t, u)
    ensures Dequeued(RunFrom(t, ops), u) && CountPromoted(EventsOf(t, ops), u) == 0
    decreases |ops|
  {
    if ops != [] {
      var k := |ops| - 1;
      DequeuedNeverPromoted(t, ops[..k], u);
      PromotedStep(RunFrom(t, ops[..k]), ops[k], EventsOf(t, ops[..k]), u);
    }
  }

  /**
   * Killing a queued agent: if the conditional end commits, no promotion of the agent is in the log before it and
   * none will ever follow, so no spawn pipeline can have been or be started for it.
   */
  lemma QueuedCancelIsFinal(ops: seq<AgentOp>, u: Uuid, why: string, later: seq<AgentOp>)
    requires ValidRun(NO_AGENTS, ops)
    requires var t := RunFrom(NO_AGENTS, ops);
             && EndIfStatus(t, u, Queued, why).events != []
             && Inv(EndIfStatus(t, u, Queued, why).tables) && ValidRun(EndIfStatus(t, u, Queued, why).tables, later)
    ensures CountPromoted(EventsOf(NO_AGENTS, ops), u) == 0
    ensures CountPromoted(EventsOf(EndIfStatus(RunFrom(NO_AGENTS, ops), u, Queued, why).tables, later), u) == 0
  {
    PromotedAtMostOnce(ops, u);
    DequeuedNeverPromoted(EndIfStatus(RunFrom(NO_AGENTS, ops), u, Queued, why).tables, later, u);
  }
}
