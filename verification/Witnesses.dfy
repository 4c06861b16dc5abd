/** Runs from an empty store that reach the situations in which the conditional results fail. */
module Witnesses {
  import opened Rows
  import opened AgentTx
  import opened Promotion
  import opened AgentQueue
  import opened AgentOps
  import T = TurnEpochs
  import C = Completion
  import Cap = Capacity
  import P = PaneMoves
  import Paths

  /** One slot in all. */
  const ONE: Limits := Limits(1, map[])

  function Newcomer(path: string): NewAgent {
    NewAgent(path, true, "mock", Auto)
  }

  function Only(u: Uuid, row: Agent): AgentTables {
    AgentTables(map[u := row], map[])
  }

  /** Agent `u` after its spawn pipeline settled it, idle since 0. */
  function Spawned(path: string): Agent {
    Promoted(QueuedRow(Newcomer(path), 1), 0).(status := Idle, idleSince := Some(0))
  }

  // ---- runs of transactions ----

  ghost predicate Follows(t: AgentTables, op: AgentOp, next: AgentTables) {
    Inv(t) && AsCalled(t, op) && Apply(t, op).tables == next
  }

  /** `ops` is a run from the empty store to `t`. */
  ghost predicate Leads(ops: seq<AgentOp>, t: AgentTables)
    decreases |ops|, 1
  {
    EndsIn(ops, t)
  }

  ghost predicate EndsIn(ops: seq<AgentOp>, t: AgentTables)
    decreases |ops|, 0
  {
    if ops == [] then t == NO_AGENTS else Extends(ops[..|ops| - 1], ops[|ops| - 1], t)
  }

  ghost predicate Extends(ops: seq<AgentOp>, op: AgentOp, t: AgentTables)
    decreases |ops|, 2
  {
    exists before :: Leads(ops, before) && Follows(before, op, t)
  }

  lemma {:induction false} LeadsIsRun(ops: seq<AgentOp>, t: AgentTables)
    requires Leads(ops, t)
    ensures Inv(t) && ValidRun(NO_AGENTS, ops) && RunFrom(NO_AGENTS, ops) == t
    decreases |ops|
  {
    assert EndsIn(ops, t);
    if ops != [] {
      var k := |ops| - 1;
      assert Extends(ops[..k], ops[k], t);
      var before :| Leads(ops[..k], before) && Follows(before, ops[k], t);
      LeadsIsRun(ops[..k], before);
      LongerRun(ops, before, t);
    }
  }

  lemma LongerRun(ops: seq<AgentOp>, before: AgentTables, t: AgentTables)
    requires ops != [] && ValidRun(NO_AGENTS, ops[..|ops| - 1]) && RunFrom(NO_AGENTS, ops[..|ops| - 1]) == before
    requires QueueSeqsDistinct(before.agents) && AsCalled(before, ops[|ops| - 1])
    requires Apply(before, ops[|ops| - 1]).tables == t
    ensures ValidRun(NO_AGENTS, ops) && RunFrom(NO_AGENTS, ops) == t
  {
  }

  lemma Then(ops: seq<AgentOp>, t: AgentTables, op: AgentOp, next: AgentTables) returns (ops': seq<AgentOp>)
    requires Leads(ops, t) && Follows(t, op, next)
    ensures Inv(next) && Leads(ops', next)
  {
    ops' := ops + [op];
    assert ops'[..|ops|] == ops;
    assert EndsIn(ops, t);
    assert Extends(ops, op, next);
    assert EndsIn(ops', next);
    LeadsIsRun(ops', next);
  }

  /** A queued row for which there is room is promoted, and it alone if it is alone. */
  lemma PromoteOnly(t: AgentTables, u: Uuid, lim: Limits, now: int)
    requires Inv(t) && QueuedRows(t.agents) == {u} && LiveRows(t.agents) == {} && lim.globalMax >= 1
             && lim.caps == map[]
    ensures Promote(t, lim, now).tables == Put(t, u, Promoted(t.agents[u], now))
  {
    assert u in QueuedRows(t.agents);
    PromotedIsQueued(t.agents, lim);
    assert LiveRowsOf(t.agents, t.agents[u].provider) == {};
    assert u in PromotedRows(t.agents, lim) by {
      if u !in PromotedRows(t.agents, lim) {
        assert PromotedRows(t.agents, lim) == {};
        assert Group(t.agents, {}, t.agents[u].provider) == {};
        PromotionIsFair(t.agents, lim, u, u);
      }
    }
    var t' := Promote(t, lim, now).tables;
    assert t'.agents.Keys == t.agents.Keys;
    forall v | v in t.agents
      ensures t'.agents[v] == Put(t, u, Promoted(t.agents[u], now)).agents[v]
    {
      PromoteRow(t, lim, now, v);
    }
    assert t'.agents == t.agents[u := Promoted(t.agents[u], now)];
  }

  function QueuedAgent(path: string): Agent {
    QueuedRow(Newcomer(path), 1)
  }

  function StartingAgent(path: string): Agent {
    Promoted(QueuedAgent(path), 0)
  }

  lemma FirstEnqueue(u: Uuid, path: string)
    ensures Follows(NO_AGENTS, OpEnqueue(u, Newcomer(path)), Only(u, QueuedAgent(path)))
    ensures Inv(Only(u, QueuedAgent(path)))
  {
    assert MaxQueueSeq(NO_AGENTS.agents) == 0;
    assert Enqueue(NO_AGENTS, u, Newcomer(path)).tables == Only(u, QueuedAgent(path));
    assert Inv(NO_AGENTS);
    EnqueueKeepsInv(NO_AGENTS, u, Newcomer(path));
  }

  lemma FirstPromote(u: Uuid, path: string)
    requires Inv(Only(u, QueuedAgent(path)))
    ensures Follows(Only(u, QueuedAgent(path)), OpPromote(ONE, 0), Only(u, StartingAgent(path)))
    ensures Inv(Only(u, StartingAgent(path)))
  {
    var t := Only(u, QueuedAgent(path));
    assert QueuedRows(t.agents) == {u} && LiveRows(t.agents) == {};
    PromoteOnly(t, u, ONE, 0);
    PromoteKeepsInv(t, ONE, 0);
  }

  lemma FirstSettle(u: Uuid, path: string)
    requires Inv(Only(u, StartingAgent(path)))
    ensures Follows(Only(u, StartingAgent(path)), OpSettle(u, 0), Only(u, Spawned(path)))
    ensures Inv(Only(u, Spawned(path)))
  {
    SingleRowKeepsInv(Only(u, StartingAgent(path)), OpSettle(u, 0));
  }

  /** Enqueued, promoted, settled. */
  lemma SpawnRun(u: Uuid, path: string) returns (ops: seq<AgentOp>)
    ensures Inv(Only(u, Spawned(path))) && Leads(ops, Only(u, Spawned(path)))
  {
    FirstEnqueue(u, path);
    assert EndsIn([], NO_AGENTS);
    ops := Then([], NO_AGENTS, OpEnqueue(u, Newcomer(path)), Only(u, QueuedAgent(path)));
    FirstPromote(u, path);
    ops := Then(ops, Only(u, QueuedAgent(path)), OpPromote(ONE, 0), Only(u, StartingAgent(path)));
    FirstSettle(u, path);
    ops := Then(ops, Only(u, StartingAgent(path)), OpSettle(u, 0), Only(u, Spawned(path)));
  }

  /** The same with a park begun under `token`. */
  function Moving(path: string, token: Token): Agent {
    Spawned(path).(moveState := Parking, moveToken := Some(token))
  }

  lemma FirstClaim(u: Uuid, path: string, token: Token)
    requires Inv(Only(u, Spawned(path)))
    ensures Follows(Only(u, Spawned(path)), OpBeginMove(u, Idle, Parking, token), Only(u, Moving(path, token)))
  {
  }

  lemma ParkingRun(u: Uuid, path: string, token: Token) returns (ops: seq<AgentOp>)
    ensures Inv(Only(u, Moving(path, token))) && Leads(ops, Only(u, Moving(path, token)))
  {
    ops := SpawnRun(u, path);
    FirstClaim(u, path, token);
    ops := Then(ops, Only(u, Spawned(path)), OpBeginMove(u, Idle, Parking, token), Only(u, Moving(path, token)));
  }

  /**
   * The delivery that does meet a move in flight: the monitor sees an idle agent working without an open turn, and
   * records an external turn without the move lock while a park is under way.
   */
  lemma ExternalTurnDuringPark(u: Uuid, token: Token, at: int) returns (ops: seq<AgentOp>)
    ensures ValidRun(NO_AGENTS, ops)
    ensures var t := RunFrom(NO_AGENTS, ops);
            && Deliverable(t, u) && t.agents[u].managed && t.agents[u].moveState == Parking
            && Inv(DeliverInput(t, u, External, at).tables)
            && !T.AlwaysHonest(DeliverInput(t, u, External, at).tables, u, t.agents[u].inputSeq + 1)
  {
    ops := ParkingRun(u, "w", token);
    LeadsIsRun(ops, Only(u, Moving("w", token)));
    T.SendIsNeverSatisfiedByStaleIdle(Only(u, Moving("w", token)), u, External, at);
  }

  function Delivered(u: Uuid): AgentTables {
    AgentTables(map[u := Spawned("w").(inputSeq := 1, status := Working, idleSince := None)],
                map[TurnKey(u, 1) := Turn(Orcr, 1, None, None, None)])
  }

  lemma FirstDeliver(u: Uuid)
    requires Inv(Only(u, Spawned("w")))
    ensures Follows(Only(u, Spawned("w")), OpDeliver(u, Orcr, 1), Delivered(u))
  {
  }

  /**
   * An old idle streak does complete a new turn: the tick's snapshot is from before the delivery at 1, and it acts
   * once both windows have passed.
   */
  lemma OldStreakHappens(u: Uuid, tuning: C.Tuning, tr: C.Transcript, doneAt: int) returns (ops: seq<AgentOp>)
    requires tuning.graceMs <= 0x7FFF_FFFF && tuning.stableMs <= 0x7FFF_FFFF && tr.settled
    ensures ValidRun(NO_AGENTS, ops)
    ensures var t, now := RunFrom(NO_AGENTS, ops), 1 + tuning.graceMs + tuning.stableMs;
            && OpenTurn(t, u, 1) && t.turns[TurnKey(u, 1)].deliveredAt == 1
            && !OpenTurn(C.Acts(t, C.TickOps(t, u, Spawned("w"), C.SaysIdle, now, doneAt, tuning, tr)).tables, u, 1)
  {
    ops := SpawnRun(u, "w");
    FirstDeliver(u);
    ops := Then(ops, Only(u, Spawned("w")), OpDeliver(u, Orcr, 1), Delivered(u));
    LeadsIsRun(ops, Delivered(u));
    C.OldStreakCompletes(Delivered(u), u, 1, Spawned("w"), 0, 1 + tuning.graceMs + tuning.stableMs, doneAt, tuning, tr);
  }

  // ---- a late finish ----

  /** `u` killed during a park, its lease still on record. */
  function Killed(token: Token): Agent {
    Moving("w", token).(status := Ended, exitReason := Some("killed"))
  }

  function Next(): Agent {
    QueuedRow(Newcomer("x"), 2)
  }

  lemma KilledRun(u: Uuid, token: Token) returns (ops: seq<AgentOp>)
    ensures Inv(Only(u, Killed(token))) && Leads(ops, Only(u, Killed(token)))
  {
    ops := ParkingRun(u, "w", token);
    ops := Then(ops, Only(u, Moving("w", token)), OpTransition(u, Ended, Some("killed")), Only(u, Killed(token)));
  }

  lemma SecondEnqueue(u: Uuid, v: Uuid, token: Token)
    requires u != v && Inv(Only(u, Killed(token)))
    ensures Follows(Only(u, Killed(token)), OpEnqueue(v, Newcomer("x")), Put(Only(u, Killed(token)), v, Next()))
  {
    var agents := Only(u, Killed(token)).agents;
    assert agents[u].queueSeq == Some(1);
    assert MaxQueueSeq(agents) == 1;
  }

  lemma OnlyNextWaits(u: Uuid, v: Uuid, token: Token)
    requires u != v
    ensures var agents := Put(Only(u, Killed(token)), v, Next()).agents;
            v in agents && agents[v] == Next() && QueuedRows(agents) == {v} && LiveRows(agents) == {}
  {
  }

  lemma PutTwice(t: AgentTables, v: Uuid, a: Agent, b: Agent)
    ensures Put(Put(t, v, a), v, b) == Put(t, v, b)
  {
    assert t.agents[v := a][v := b] == t.agents[v := b];
  }

  lemma SecondPromote(u: Uuid, v: Uuid, token: Token)
    requires u != v && Inv(Put(Only(u, Killed(token)), v, Next()))
    ensures Follows(Put(Only(u, Killed(token)), v, Next()), OpPromote(ONE, 0),
                    Put(Only(u, Killed(token)), v, Promoted(Next(), 0)))
  {
    OnlyNextWaits(u, v, token);
    PromoteOnly(Put(Only(u, Killed(token)), v, Next()), v, ONE, 0);
    PutTwice(Only(u, Killed(token)), v, Next(), Promoted(Next(), 0));
  }

  lemma FullRun(u: Uuid, v: Uuid, token: Token) returns (ops: seq<AgentOp>)
    requires u != v
    ensures var t := Put(Only(u, Killed(token)), v, Promoted(Next(), 0)); Inv(t) && Leads(ops, t)
  {
    ops := KilledRun(u, token);
    SecondEnqueue(u, v, token);
    ops := Then(ops, Only(u, Killed(token)), OpEnqueue(v, Newcomer("x")), Put(Only(u, Killed(token)), v, Next()));
    SecondPromote(u, v, token);
    ops := Then(ops, Put(Only(u, Killed(token)), v, Next()), OpPromote(ONE, 0),
                Put(Only(u, Killed(token)), v, Promoted(Next(), 0)));
  }

  /**
   * A kill that meets a park in flight lets the limit be overrun: the killed agent frees its slot, the next one takes
   * it, and the park of the first, finished from an old snapshot, parks an agent that had ended.
   */
  lemma KilledAgentIsParked(u: Uuid, v: Uuid, token: Token) returns (ops: seq<AgentOp>)
    requires u != v
    ensures ValidRun(NO_AGENTS, ops)
    ensures var t, finish := RunFrom(NO_AGENTS, ops), OpFinishPark(u, token, "t", "p", 0);
            && |LiveRows(t.agents)| == ONE.globalMax && Cap.Revives(t, finish)
            && |LiveRows(Apply(t, finish).tables.agents)| > ONE.globalMax
  {
    ops := FullRun(u, v, token);
    var full := Put(Only(u, Killed(token)), v, Promoted(Next(), 0));
    LeadsIsRun(ops, full);
    FullHouse(u, v, token);
    Cap.RevivalOverruns(full, OpFinishPark(u, token, "t", "p", 0), ONE);
  }

  lemma FullHouse(u: Uuid, v: Uuid, token: Token)
    requires u != v
    ensures var full := Put(Only(u, Killed(token)), v, Promoted(Next(), 0));
            LiveRows(full.agents) == {v} && Cap.Revives(full, OpFinishPark(u, token, "t", "p", 0))
  {
    assert "w"[0] != "x"[0];
  }

  // ---- runs of the pane protocol ----

  ghost predicate Goes(s: P.Sys, step: P.Step, s': P.Sys) {
    Inv(s.t) && P.Enabled(s, step) && P.Trusted(s, step, true) && P.Do(s, step) == s'
  }

  /** `steps` is a trusted run from the start to `s`. */
  ghost predicate Reaches(steps: seq<P.Step>, s: P.Sys)
    decreases |steps|, 1
  {
    Arrives(steps, s)
  }

  ghost predicate Arrives(steps: seq<P.Step>, s: P.Sys)
    decreases |steps|, 0
  {
    if steps == [] then s == P.START else GoesOn(steps[..|steps| - 1], steps[|steps| - 1], s)
  }

  ghost predicate GoesOn(steps: seq<P.Step>, step: P.Step, s: P.Sys)
    decreases |steps|, 2
  {
    exists before :: Reaches(steps, before) && Goes(before, step, s)
  }

  lemma {:induction false} ReachesIsRun(steps: seq<P.Step>, s: P.Sys)
    requires Reaches(steps, s)
    ensures Inv(s.t) && P.ValidSteps(steps) && P.Reached(steps) == s && P.TrustedRun(steps, true)
    decreases |steps|
  {
    assert Arrives(steps, s);
    if steps != [] {
      var k := |steps| - 1;
      assert GoesOn(steps[..k], steps[k], s);
      var before :| Reaches(steps[..k], before) && Goes(before, steps[k], s);
      ReachesIsRun(steps[..k], before);
      LongerSteps(steps, before, s);
    }
  }

  lemma LongerSteps(steps: seq<P.Step>, before: P.Sys, s: P.Sys)
    requires steps != [] && P.ValidSteps(steps[..|steps| - 1]) && P.Reached(steps[..|steps| - 1]) == before
    requires P.TrustedRun(steps[..|steps| - 1], true) && QueueSeqsDistinct(before.t.agents)
    requires P.Enabled(before, steps[|steps| - 1]) && P.Trusted(before, steps[|steps| - 1], true)
    requires P.Do(before, steps[|steps| - 1]) == s
    ensures P.ValidSteps(steps) && P.Reached(steps) == s && P.TrustedRun(steps, true)
  {
  }

  lemma Take(steps: seq<P.Step>, s: P.Sys, step: P.Step, s': P.Sys) returns (steps': seq<P.Step>)
    requires Reaches(steps, s) && Goes(s, step, s')
    ensures Inv(s'.t) && Reaches(steps', s')
  {
    steps' := steps + [step];
    assert steps'[..|steps|] == steps;
    assert Arrives(steps, s);
    assert GoesOn(steps, step, s');
    assert Arrives(steps', s');
    ReachesIsRun(steps', s');
  }

  /** One agent, its pane in workspace `ws`, and the holder of its lock. */
  function One(u: Uuid, row: Agent, world: map<Uuid, string>, busy: map<Uuid, P.Pc>,
               leases: map<Token, P.Lease>): P.Sys {
    P.Sys(Only(u, row), world, {}, busy, leases)
  }

  const HOME: string := "default"

  lemma PathIsCreatable()
    ensures Paths.Creatable("w") && Paths.HomeWorkspace("w") == HOME
  {
    assert "w"[1..] == "";
    assert Paths.Split("") == [""];
    assert [""][1..] == [] && ['w'] + "" == "w";
    var segs := Paths.Split("w");
    assert segs == ["w"];
    assert Paths.ValidSegment(segs[0]);
  }

  /** A transaction of another thread, on tables only. */
  lemma Unlocked(s: P.Sys, op: AgentOp, t: AgentTables)
    requires Follows(s.t, op, t) && P.Free(s.t, op) && !P.Blind(s.t, op)
    ensures Goes(s, P.Unlocked(op), s.(t := t))
  {
  }

  lemma Held(s: P.Sys, step: P.Step, s': P.Sys)
    requires Inv(s.t) && P.HolderStep(step) && step.u in s.t.agents && step.u in s.busy
    requires P.EnabledHolder(s, step, s.busy[step.u]) && s' == P.DoHolder(s, step, s.busy[step.u]) && !step.LookForPane?
    ensures Goes(s, step, s')
  {
  }

  lemma StepsToStarting(u: Uuid) returns (steps: seq<P.Step>)
    ensures Inv(Only(u, StartingAgent("w"))) && Reaches(steps, One(u, StartingAgent("w"), map[], map[], map[]))
  {
    PathIsCreatable();
    FirstEnqueue(u, "w");
    assert Arrives([], P.START);
    Unlocked(P.START, OpEnqueue(u, Newcomer("w")), Only(u, QueuedAgent("w")));
    steps := Take([], P.START, P.Unlocked(OpEnqueue(u, Newcomer("w"))), One(u, QueuedAgent("w"), map[], map[], map[]));
    FirstPromote(u, "w");
    Unlocked(One(u, QueuedAgent("w"), map[], map[], map[]), OpPromote(ONE, 0), Only(u, StartingAgent("w")));
    steps := Take(steps, One(u, QueuedAgent("w"), map[], map[], map[]), P.Unlocked(OpPromote(ONE, 0)),
                  One(u, StartingAgent("w"), map[], map[], map[]));
  }

  lemma Opened(u: Uuid)
    requires Inv(Only(u, StartingAgent("w")))
    ensures Goes(One(u, StartingAgent("w"), map[], map[], map[]), P.OpenPane(u),
                 One(u, StartingAgent("w"), map[u := HOME], map[], map[]))
  {
    PathIsCreatable();
  }

  lemma StepsToIdle(u: Uuid) returns (steps: seq<P.Step>)
    ensures Inv(Only(u, Spawned("w"))) && Reaches(steps, One(u, Spawned("w"), map[u := HOME], map[], map[]))
  {
    steps := StepsToStarting(u);
    Opened(u);
    steps := Take(steps, One(u, StartingAgent("w"), map[], map[], map[]), P.OpenPane(u),
                  One(u, StartingAgent("w"), map[u := HOME], map[], map[]));
    FirstSettle(u, "w");
    Unlocked(One(u, StartingAgent("w"), map[u := HOME], map[], map[]), OpSettle(u, 0), Only(u, Spawned("w")));
    steps := Take(steps, One(u, StartingAgent("w"), map[u := HOME], map[], map[]), P.Unlocked(OpSettle(u, 0)),
                  One(u, Spawned("w"), map[u := HOME], map[], map[]));
  }

  lemma LockTaken(u: Uuid, row: Agent, world: map<Uuid, string>, leases: map<Token, P.Lease>)
    requires Inv(Only(u, row))
    ensures Goes(One(u, row, world, map[], leases), P.Lock(u), One(u, row, world, map[u := P.Locked], leases))
  {
    var s := One(u, row, world, map[], leases);
    assert s.busy[u := P.Locked] == map[u := P.Locked];
    assert P.Do(s, P.Lock(u)) == One(u, row, world, map[u := P.Locked], leases);
  }

  /** The lease of a park, on record and held. */
  function Claimed(u: Uuid, token: Token, world: map<Uuid, string>, pc: P.Pc): P.Sys {
    One(u, Moving("w", token), world, map[u := pc], map[token := P.Lease(u, Parking)])
  }

  lemma ClaimTaken(u: Uuid, token: Token)
    requires Inv(Only(u, Spawned("w")))
    ensures Goes(One(u, Spawned("w"), map[u := HOME], map[u := P.Locked], map[]), P.BeginPark(u, token),
                 Claimed(u, token, map[u := HOME], P.ParkWon(token)))
  {
    var s := One(u, Spawned("w"), map[u := HOME], map[u := P.Locked], map[]);
    assert s.busy[u := P.ParkWon(token)] == map[u := P.ParkWon(token)];
    assert P.DoHolder(s, P.BeginPark(u, token), P.Locked) == Claimed(u, token, map[u := HOME], P.ParkWon(token));
    Held(s, P.BeginPark(u, token), Claimed(u, token, map[u := HOME], P.ParkWon(token)));
  }

  lemma StepsToClaimed(u: Uuid, token: Token) returns (steps: seq<P.Step>)
    ensures Inv(Only(u, Moving("w", token)))
    ensures Reaches(steps, Claimed(u, token, map[u := HOME], P.ParkWon(token)))
  {
    steps := StepsToIdle(u);
    LockTaken(u, Spawned("w"), map[u := HOME], map[]);
    steps := Take(steps, One(u, Spawned("w"), map[u := HOME], map[], map[]), P.Lock(u),
                  One(u, Spawned("w"), map[u := HOME], map[u := P.Locked], map[]));
    ClaimTaken(u, token);
    steps := Take(steps, One(u, Spawned("w"), map[u := HOME], map[u := P.Locked], map[]), P.BeginPark(u, token),
                  Claimed(u, token, map[u := HOME], P.ParkWon(token)));
  }

  /** The pane has been moved: the caller heard of it, or died waiting. */
  lemma MoveTaken(u: Uuid, token: Token)
    requires Inv(Only(u, Moving("w", token)))
    ensures var s, leases := Claimed(u, token, map[u := HOME], P.ParkWon(token)), map[token := P.Lease(u, Parking)];
            var idle := map[u := P.IDLE_WORKSPACE];
            && Goes(s, P.MoveToIdle(u, P.Acknowledged), Claimed(u, token, idle, P.ParkMoved(token)))
            && Goes(s, P.MoveToIdle(u, P.SilentSuccess), One(u, Moving("w", token), idle, map[], leases))
  {
    var s, leases := Claimed(u, token, map[u := HOME], P.ParkWon(token)), map[token := P.Lease(u, Parking)];
    var idle := map[u := P.IDLE_WORKSPACE];
    assert s.world[u := P.IDLE_WORKSPACE] == idle && s.busy - {u} == map[];
    assert s.busy[u := P.ParkMoved(token)] == map[u := P.ParkMoved(token)];
    Held(s, P.MoveToIdle(u, P.Acknowledged), Claimed(u, token, idle, P.ParkMoved(token)));
    Held(s, P.MoveToIdle(u, P.SilentSuccess), One(u, Moving("w", token), idle, map[], leases));
  }

  lemma ParkTaken(u: Uuid, token: Token)
    requires Inv(Only(u, Moving("w", token)))
    ensures var idle := map[u := P.IDLE_WORKSPACE];
            Goes(Claimed(u, token, idle, P.ParkMoved(token)), P.CommitPark(u, "t", "p", 1),
                 One(u, ParkedAgent(), idle, map[], map[token := P.Lease(u, Parking)]))
  {
    var idle := map[u := P.IDLE_WORKSPACE];
    var s := Claimed(u, token, idle, P.ParkMoved(token));
    assert s.busy - {u} == map[];
    Held(s, P.CommitPark(u, "t", "p", 1), One(u, ParkedAgent(), idle, map[], map[token := P.Lease(u, Parking)]));
  }

  function ParkedAgent(): Agent {
    Spawned("w").(status := Parked, parkedAt := Some(1), terminal := Some("t"), pane := Some("p"))
  }

  /** The monitor blocks a parked agent whose pane sits in `idle`. */
  lemma BlockedWhileParked(u: Uuid, token: Token, kind: string) returns (steps: seq<P.Step>)
    ensures P.ValidSteps(steps) && P.TrustedRun(steps, true)
    ensures var s := P.Reached(steps);
            && P.Enabled(s, P.Unlocked(OpBlock(u, 0, kind)))
            && !P.InPlace(P.Do(s, P.Unlocked(OpBlock(u, 0, kind))), u, true)
  {
    var idle := map[u := P.IDLE_WORKSPACE];
    steps := StepsToClaimed(u, token);
    MoveTaken(u, token);
    steps := Take(steps, Claimed(u, token, map[u := HOME], P.ParkWon(token)), P.MoveToIdle(u, P.Acknowledged),
                  Claimed(u, token, idle, P.ParkMoved(token)));
    ParkTaken(u, token);
    var s := One(u, ParkedAgent(), idle, map[], map[token := P.Lease(u, Parking)]);
    steps := Take(steps, Claimed(u, token, idle, P.ParkMoved(token)), P.CommitPark(u, "t", "p", 1), s);
    ReachesIsRun(steps, s);
    P.RunAgrees(steps, true);
    BlockUnsettles(s, u, kind);
  }

  lemma BlockUnsettles(s: P.Sys, u: Uuid, kind: string)
    requires P.Agrees(s, true) && u in s.t.agents && s.t.agents[u].status == Parked
             && s.t.agents[u].moveState == NotMoving
    requires P.InIdle(s, u)
    ensures P.Enabled(s, P.Unlocked(OpBlock(u, 0, kind)))
    ensures !P.InPlace(P.Do(s, P.Unlocked(OpBlock(u, 0, kind))), u, true)
  {
    assert PathFree(s.t.agents, u, s.t.agents[u].path);
    P.BlindWriteUnsettles(s, OpBlock(u, 0, kind), u);
  }

  /**
   * A park whose move took effect without an answer, recovered without workspace labels: the row goes back to idle
   * while the pane stays in `idle`. Without a pane listing the same agent is marked lost, its pane alive.
   */
  lemma RecoveredOnTheWrongSide(u: Uuid, token: Token) returns (steps: seq<P.Step>)
    ensures P.ValidSteps(steps) && P.TrustedRun(steps, true)
    ensures var s := P.Reached(steps);
            && u in s.t.agents && u in s.world && u in s.busy && s.busy[u].Inspect? && s.busy[u].token in s.leases
            && forall lookup :: P.Settled(P.Recovered(s, u, lookup, "t", "p", 1), u) <==> lookup == P.Answered
  {
    steps := StepsToInspect(u, token);
    var s := Claimed(u, token, map[u := P.IDLE_WORKSPACE], P.Inspect(token, false));
    ReachesIsRun(steps, s);
    P.RunAgrees(steps, true);
    forall lookup
      ensures P.Settled(P.Recovered(s, u, lookup, "t", "p", 1), u) <==> lookup == P.Answered
    {
      P.RecoveryNeedsLabels(s, u, lookup, "t", "p", 1);
    }
  }

  lemma InspectTaken(u: Uuid, token: Token)
    requires Inv(Only(u, Moving("w", token)))
    ensures Goes(Claimed(u, token, map[u := P.IDLE_WORKSPACE], P.Locked), P.BeginRecovery(u, token),
                 Claimed(u, token, map[u := P.IDLE_WORKSPACE], P.Inspect(token, false)))
  {
    var s := Claimed(u, token, map[u := P.IDLE_WORKSPACE], P.Locked);
    assert s.busy[u := P.Inspect(token, false)] == map[u := P.Inspect(token, false)];
    Held(s, P.BeginRecovery(u, token), Claimed(u, token, map[u := P.IDLE_WORKSPACE], P.Inspect(token, false)));
  }

  lemma StepsToInspect(u: Uuid, token: Token) returns (steps: seq<P.Step>)
    ensures Reaches(steps, Claimed(u, token, map[u := P.IDLE_WORKSPACE], P.Inspect(token, false)))
  {
    var idle, leases := map[u := P.IDLE_WORKSPACE], map[token := P.Lease(u, Parking)];
    steps := StepsToClaimed(u, token);
    MoveTaken(u, token);
    steps := Take(steps, Claimed(u, token, map[u := HOME], P.ParkWon(token)), P.MoveToIdle(u, P.SilentSuccess),
                  One(u, Moving("w", token), idle, map[], leases));
    LockTaken(u, Moving("w", token), idle, leases);
    steps := Take(steps, One(u, Moving("w", token), idle, map[], leases), P.Lock(u), Claimed(u, token, idle, P.Locked));
    InspectTaken(u, token);
    steps := Take(steps, Claimed(u, token, idle, P.Locked), P.BeginRecovery(u, token),
                  Claimed(u, token, idle, P.Inspect(token, false)));
  }
}
