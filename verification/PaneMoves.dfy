/**
 * The two-phase pane move between the store and herdr. Every step is atomic, a crash may fall between any two,
 * and a herdr move may fail, take effect silently, or take effect and be acknowledged.
 */
module PaneMoves {
  import opened Rows
  import opened AgentTx
  import opened Promotion
  import opened AgentQueue
  import opened AgentOps
  import opened TurnEpochs
  import Paths

  const IDLE_WORKSPACE: string := "idle"

  /** What a recovery finds when it looks for the pane. */
  datatype View = Missing | Unlabelled | InWorkspace(ws: string)

  /**
   * Where the holder of an agent's move lock stands. An un-park first recovers a move in flight (`unparking`), then
   * reads the row again (`Settling`), claims it if it is parked, and is done at `Ready`; `refused` is whether the
   * path index turned down the write of its recovery.
   */
  datatype Pc =
    | Locked
    | ParkWon(token: Token)
    | ParkMoved(token: Token)
    | UnparkWon(token: Token)
    | UnparkMoved(token: Token)
    | Inspect(token: Token, unparking: bool)
    | Saw(token: Token, view: View, unparking: bool)
    | Settling(refused: bool)
    | Claiming
    | Ready(refused: bool)

  datatype Lease = Lease(agent: Uuid, move: MoveState)

  /**
   * `world` is the workspace label of each existing pane, `closed` the panes that are gone for good, `busy` the
   * holder of each move lock, `leases` every token that ever won a move lease and what it was drawn for.
   */
  datatype Sys = Sys(t: AgentTables, world: map<Uuid, string>, closed: set<Uuid>, busy: map<Uuid, Pc>,
                     leases: map<Token, Lease>)

  const NOTHING: AgentTables := AgentTables(map[], map[])

  const START: Sys := Sys(NOTHING, map[], {}, map[], map[])

  datatype Reply = Acknowledged | SilentSuccess | NoEffect

  datatype Lookup = Answered | NoLabels | NoPanes

  datatype Step =
    | Unlocked(op: AgentOp)
    | OpenPane(u: Uuid)
    | LosePane(u: Uuid)
    | Lock(u: Uuid)
    | Release(u: Uuid)
    | BeginPark(u: Uuid, token: Token)
    | AbortPark(u: Uuid)
    | MoveToIdle(u: Uuid, reply: Reply)
    | CommitPark(u: Uuid, terminal: string, pane: string, now: int)
    | BeginUnpark(u: Uuid, token: Token)
    | MoveHome(u: Uuid, reply: Reply)
    | CommitUnpark(u: Uuid, terminal: string, pane: string, now: int)
    | BeginRecovery(u: Uuid, token: Token)
    | LookForPane(u: Uuid, lookup: Lookup)
    | CommitRecovery(u: Uuid, terminal: string, pane: string, now: int)
    | EnterUnpark(u: Uuid, sending: bool)
    | ReadAgain(u: Uuid)
    | Deliver(u: Uuid, at: int)
    | Reap(u: Uuid)
    | Crash

  function Home(t: AgentTables, u: Uuid): string
    requires u in t.agents
  {
    Paths.HomeWorkspace(t.agents[u].path)
  }

  /** Transactions made by threads that do not hold the agent's move lock. */
  predicate Free(t: AgentTables, op: AgentOp) {
    match op
    case OpEnqueue(_, a) => Paths.Creatable(a.path) && a.managed
    case OpEndIf(_, from, _) => from == Queued
    case OpTransition(_, status, _) => status in {Ended, Lost, Working}
    case OpBeginMove(_, _, _, _) => false
    case OpFinishPark(_, _, _, _, _) => false
    case OpFinishUnpark(_, _, _, _, _) => false
    case OpRollback(_, _) => false
    case OpInsertUnmanaged(_, _, _, _, _, _) => false
    case OpUpdateUnmanaged(_, _, _) => false
    case _ => true
  }

  const AWAY: set<Status> := {Parked, Lost, Ended}

  /** An unlocked write that makes a parked, lost or ended row active again: it cannot know where the pane is. */
  predicate Blind(t: AgentTables, op: AgentOp) {
    match op
    case OpBlock(u, _, _) => u in t.agents && t.agents[u].status in AWAY && PathFree(t.agents, u, t.agents[u].path)
    case OpTransition(u, Working, _) =>
      u in t.agents && t.agents[u].status in AWAY && PathFree(t.agents, u, t.agents[u].path)
    case OpMarkWorking(u) => u in t.agents && t.agents[u].status == Parked
    case OpDeliver(u, _, _) => Deliverable(t, u) && t.agents[u].status == Parked
    case _ => false
  }

  predicate Holds(s: Sys, u: Uuid, pc: Pc) {
    u in s.busy && s.busy[u] == pc
  }

  predicate Enabled(s: Sys, step: Step) {
    match step
    case Unlocked(op) => Free(s.t, op)
    case OpenPane(u) => u in s.t.agents && s.t.agents[u].status == Starting && u !in s.world && u !in s.closed
    case LosePane(u) => u in s.world
    case Lock(u) => u in s.t.agents && u !in s.busy
    case Crash => true
    case _ => step.u in s.t.agents && step.u in s.busy && EnabledHolder(s, step, s.busy[step.u])
  }

  predicate HolderStep(step: Step) {
    !step.Unlocked? && !step.OpenPane? && !step.LosePane? && !step.Lock? && !step.Crash?
  }

  /** Steps of the thread that holds the move lock of `step.u`. */
  predicate EnabledHolder(s: Sys, step: Step, pc: Pc)
    requires HolderStep(step)
  {
    match step
    case Release(_) => pc == Locked || pc.Ready?
    case BeginPark(_, token) => pc == Locked && token !in s.leases
    case AbortPark(_) => pc.ParkWon?
    case MoveToIdle(u, reply) => pc.ParkWon? && (reply != NoEffect ==> u in s.world)
    case CommitPark(_, _, _, _) => pc.ParkMoved?
    case EnterUnpark(_, _) => pc == Locked
    case ReadAgain(_) => pc.Settling?
    case BeginUnpark(_, token) => pc == Claiming && token !in s.leases
    case MoveHome(u, reply) => pc.UnparkWon? && (reply != NoEffect ==> u in s.world)
    case CommitUnpark(_, _, _, _) => pc.UnparkMoved?
    case BeginRecovery(u, token) => pc == Locked && token in s.leases && s.leases[token].agent == u
    case LookForPane(_, _) => pc.Inspect?
    case CommitRecovery(_, _, _, _) => pc.Saw? && pc.token in s.leases
    case Deliver(_, _) => pc.Ready?
    case Reap(_) => pc == Locked
  }

  /** Commits a transaction that writes the row of one agent. */
  function Commit(s: Sys, op: AgentOp): Sys
    requires SingleRow(op)
  {
    s.(t := ApplyRow(s.t, op).tables)
  }

  function At(s: Sys, u: Uuid, pc: Pc): Sys {
    s.(busy := s.busy[u := pc])
  }

  function Unlock(s: Sys, u: Uuid): Sys {
    s.(busy := s.busy - {u})
  }

  /** The pane of `u` ends up in workspace `ws` unless the request had no effect. */
  function Moved(s: Sys, u: Uuid, ws: string, reply: Reply): Sys {
    if reply == NoEffect || u !in s.world then s else s.(world := s.world[u := ws])
  }

  function ViewOf(s: Sys, u: Uuid, lookup: Lookup): View {
    if lookup == NoPanes || u !in s.world then Missing
    else if lookup == NoLabels then Unlabelled
    else InWorkspace(s.world[u])
  }

  /** The store write of `recover_one_move_locked`: the pane's workspace decides the side. */
  function RecoveryOp(s: Sys, u: Uuid, token: Token, view: View, terminal: string, pane: string, now: int)
    : (op: AgentOp)
    requires u in s.t.agents && token in s.leases
    ensures SingleRow(op)
  {
    if s.leases[token].move == Parking && view == InWorkspace(IDLE_WORKSPACE) then
      OpFinishPark(u, token, terminal, pane, now)
    else if s.leases[token].move == Unparking && view == InWorkspace(Home(s.t, u)) then
      OpFinishUnpark(u, token, terminal, pane, now)
    else OpRollback(u, token)
  }

  /** The move transaction of a sweep: draw a fresh token and try to win the lease. */
  function Begin(s: Sys, u: Uuid, from: Status, move: MoveState, token: Token, won: Pc, lost: Pc): Sys {
    if WinsMove(s.t, u, from)
    then At(Commit(s, OpBeginMove(u, from, move, token)).(leases := s.leases[token := Lease(u, move)]), u, won)
    else At(s, u, lost)
  }

  /** A send, or the resume of a parked agent, reads the row under the lock: is there anything to un-park? */
  function Entered(row: Agent, sending: bool): Pc {
    if sending && Terminal(row.status) then Locked
    else if row.status != Parked && row.moveState == NotMoving then Ready(false)
    else if row.moveState != NotMoving && row.moveToken.Some? then Inspect(row.moveToken.value, true)
    else Settling(false)
  }

  function DoHolder(s: Sys, step: Step, pc: Pc): Sys
    requires HolderStep(step) && step.u in s.t.agents && EnabledHolder(s, step, pc)
  {
    match step
    case Release(u) => Unlock(s, u)
    case BeginPark(u, token) => Begin(s, u, Idle, Parking, token, ParkWon(token), Locked)
    case AbortPark(u) => Unlock(Commit(s, OpRollback(u, pc.token)), u)
    case MoveToIdle(u, reply) =>
      var s1 := Moved(s, u, IDLE_WORKSPACE, reply);
      if reply == Acknowledged then At(s1, u, ParkMoved(pc.token)) else Unlock(s1, u)
    case CommitPark(u, terminal, pane, now) => Unlock(Commit(s, OpFinishPark(u, pc.token, terminal, pane, now)), u)
    case BeginUnpark(u, token) => Begin(s, u, Parked, Unparking, token, UnparkWon(token), Ready(false))
    case MoveHome(u, reply) =>
      var s1 := Moved(s, u, Home(s.t, u), reply);
      if reply == Acknowledged then At(s1, u, UnparkMoved(pc.token)) else Unlock(s1, u)
    case CommitUnpark(u, terminal, pane, now) =>
      var s1 := Commit(s, OpFinishUnpark(u, pc.token, terminal, pane, now));
      if HoldsToken(s1.t, u, pc.token) then Unlock(s1, u) else At(s1, u, Ready(false))
    case BeginRecovery(u, token) => At(s, u, Inspect(token, false))
    case LookForPane(u, lookup) => At(s, u, Saw(pc.token, ViewOf(s, u, lookup), pc.unparking))
    case CommitRecovery(u, terminal, pane, now) =>
      var s1 := Commit(s, RecoveryOp(s, u, pc.token, pc.view, terminal, pane, now));
      At(if pc.view == Missing then Commit(s1, OpTransition(u, Lost, None)) else s1, u,
         if pc.unparking then Settling(HoldsToken(s1.t, u, pc.token)) else Locked)
    case EnterUnpark(u, sending) => At(s, u, Entered(s.t.agents[u], sending))
    case ReadAgain(u) => At(s, u, if s.t.agents[u].status != Parked then Ready(pc.refused) else Claiming)
    case Deliver(u, at) => Unlock(s.(t := DeliverInput(s.t, u, Orcr, at).tables), u)
    case Reap(u) => Commit(s, OpEndIf(u, Parked, "reaped"))
  }

  ghost function Do(s: Sys, step: Step): Sys
    requires QueueSeqsDistinct(s.t.agents) && Enabled(s, step)
  {
    match step
    case Unlocked(op) => s.(t := Apply(s.t, op).tables)
    case OpenPane(u) => s.(world := s.world[u := Home(s.t, u)])
    case LosePane(u) => s.(world := s.world - {u}, closed := s.closed + {u})
    case Lock(u) => At(s, u, Locked)
    case Crash => s.(busy := map[])
    case _ => DoHolder(s, step, s.busy[step.u])
  }

  /** Lock holders and panes belong to agents whose paths were accepted at creation. */
  ghost predicate Known(s: Sys) {
    && (forall u :: u in s.busy ==> u in s.t.agents)
    && (forall u :: u in s.world ==> u in s.t.agents)
    && (forall u :: u in s.t.agents ==> Paths.Creatable(s.t.agents[u].path))
    && LeasesStarted(s.t, s.leases)
  }

  // ---- the invariant, agent by agent ----

  predicate InIdle(s: Sys, u: Uuid) {
    u in s.world && s.world[u] == IDLE_WORKSPACE
  }

  /** What a row and its pane must agree on; `strict` adds the converse that blind writes can break. */
  predicate RowAgrees(s: Sys, u: Uuid, strict: bool)
    requires u in s.t.agents
  {
    var row := s.t.agents[u];
    && Home(s.t, u) != IDLE_WORKSPACE
    && (u in s.world ==> s.world[u] in {IDLE_WORKSPACE, Home(s.t, u)})
    && (row.moveToken.Some? ==>
          row.moveToken.value in s.leases && s.leases[row.moveToken.value] == Lease(u, row.moveState))
    && (row.moveState == NotMoving && u in s.world && row.status == Parked ==> InIdle(s, u))
    && (row.moveState == Parking ==> row.status != Parked)
    && (strict ==>
          && (row.moveState == NotMoving && row.status !in {Parked, Lost, Ended} ==> !InIdle(s, u))
          && (row.moveState == Unparking ==> row.status in {Parked, Lost, Ended}))
  }

  /** What the lock holder of `u` knows. */
  predicate HolderAgrees(s: Sys, u: Uuid, strict: bool)
    requires u in s.t.agents && u in s.busy
  {
    var row := s.t.agents[u];
    match s.busy[u]
    case ParkWon(token) =>
      row.moveToken == Some(token) && row.moveState == Parking && (strict ==> !InIdle(s, u))
    case ParkMoved(token) => row.moveToken == Some(token) && row.moveState == Parking && (u in s.world ==> InIdle(s, u))
    case UnparkWon(token) => row.moveToken == Some(token) && row.moveState == Unparking
    case UnparkMoved(token) =>
      row.moveToken == Some(token) && row.moveState == Unparking && (u in s.world ==> s.world[u] == Home(s.t, u))
    case Inspect(token, _) => token in s.leases && s.leases[token].agent == u && row.status !in {Queued, Starting}
    case Saw(token, view, _) =>
      && token in s.leases && s.leases[token].agent == u
      && (view.InWorkspace? && u in s.world ==> s.world[u] == view.ws)
      && (view.InWorkspace? ==> view.ws in {IDLE_WORKSPACE, Home(s.t, u)})
      && view != Unlabelled && row.status !in {Queued, Starting}
    case _ => true
  }

  predicate AgentAgrees(s: Sys, u: Uuid, strict: bool) {
    u in s.t.agents ==> RowAgrees(s, u, strict) && (u in s.busy ==> HolderAgrees(s, u, strict))
  }

  ghost predicate Agrees(s: Sys, strict: bool) {
    Inv(s.t) && Known(s) && forall u :: AgentAgrees(s, u, strict)
  }

  // ---- what a transaction of another thread can do to a row ----

  /** Without the lock a row keeps its lease, never becomes parked, and leaves parked or dead only blindly. */
  predicate FreeRowStep(a: Agent, b: Agent, blind: bool) {
    && b.path == a.path && b.moveState == a.moveState && b.moveToken == a.moveToken
    && (b.status == Parked ==> a.status == Parked)
    && (b.status in {Queued, Starting} ==> a.status in {Queued, Starting})
    && (!blind && a.status in AWAY ==> b.status in AWAY)
  }

  lemma FreeStep(t: AgentTables, op: AgentOp, u: Uuid)
    requires Inv(t) && Free(t, op) && AsCalled(t, op) && u in t.agents
    ensures u in Apply(t, op).tables.agents
    ensures FreeRowStep(t.agents[u], Apply(t, op).tables.agents[u], Blind(t, op))
  {
    assert RowOk(t.agents[u]);
    if op.OpPromote? {
      PromoteRow(t, op.lim, op.now, u);
    } else if SingleRow(op) {
      if op.u == u {
        FreeOwnRow(t, op);
      } else {
        assert op.u in t.agents ==> RowOk(t.agents[op.u]);
        SingleRowStep(t, op);
        OtherRow(t, ApplyRow(t, op).tables, op.u, u);
      }
    } else {
      FreeTableStep(t, op, u);
    }
  }

  lemma OtherRow(t: AgentTables, t': AgentTables, v: Uuid, u: Uuid)
    requires RowEffect(t, t', v) && u != v && u in t.agents
    ensures u in t'.agents && t'.agents[u] == t.agents[u]
  {
  }

  lemma FreeOwnRow(t: AgentTables, op: AgentOp)
    requires SingleRow(op) && Free(t, op) && op.u in t.agents && RowOk(t.agents[op.u])
    ensures op.u in ApplyRow(t, op).tables.agents
    ensures FreeRowStep(t.agents[op.u], ApplyRow(t, op).tables.agents[op.u], Blind(t, op))
  {
    if IsTurn(op) {
      FreeTurnRow(t, op);
    }
  }

  lemma FreeTurnRow(t: AgentTables, op: AgentOp)
    requires IsTurn(op) && op.u in t.agents && RowOk(t.agents[op.u])
    ensures op.u in ApplyRow(t, op).tables.agents
    ensures FreeRowStep(t.agents[op.u], ApplyRow(t, op).tables.agents[op.u], Blind(t, op))
  {
  }

  lemma FreeTableStep(t: AgentTables, op: AgentOp, u: Uuid)
    requires QueueSeqsDistinct(t.agents) && !SingleRow(op) && !op.OpPromote? && Free(t, op) && u in t.agents
             && RowOk(t.agents[u])
    ensures u in Apply(t, op).tables.agents
    ensures FreeRowStep(t.agents[u], Apply(t, op).tables.agents[u], Blind(t, op))
  {
    if op.OpDeliver? {
      FreeDeliver(t, op, u);
    } else if op.OpEnqueue? {
      assert CanEnqueue(t, op.u, op.new_) ==> op.u != u;
    }
  }

  lemma FreeDeliver(t: AgentTables, op: AgentOp, u: Uuid)
    requires op.OpDeliver? && u in t.agents && RowOk(t.agents[u])
    ensures u in DeliverInput(t, op.u, op.source, op.at).tables.agents
    ensures FreeRowStep(t.agents[u], DeliverInput(t, op.u, op.source, op.at).tables.agents[u], Blind(t, op))
  {
  }

  // ---- preservation ----

  /** The steps the agreement survives: lookups answer with labels and, for the strict form, no write is blind. */
  predicate Trusted(s: Sys, step: Step, strict: bool) {
    && !(step.LookForPane? && step.lookup == NoLabels)
    && (strict && step.Unlocked? ==> !Blind(s.t, step.op))
  }

  /** Nothing that `u` depends on changed. */
  predicate SameFor(s: Sys, s': Sys, u: Uuid) {
    && (u in s.t.agents <==> u in s'.t.agents) && (u in s.t.agents ==> s'.t.agents[u] == s.t.agents[u])
    && (u in s.world <==> u in s'.world) && (u in s.world ==> s'.world[u] == s.world[u])
    && (u in s.busy <==> u in s'.busy) && (u in s.busy ==> s'.busy[u] == s.busy[u])
  }

  predicate LeasesGrow(s: Sys, s': Sys) {
    forall token :: token in s.leases ==> token in s'.leases && s'.leases[token] == s.leases[token]
  }

  lemma SameForKeeps(s: Sys, s': Sys, u: Uuid, strict: bool)
    requires AgentAgrees(s, u, strict) && SameFor(s, s', u) && LeasesGrow(s, s')
    ensures AgentAgrees(s', u, strict)
  {
  }

  /** The lock holder's transactions, the read-only steps aside. */
  predicate LeaseOp(op: AgentOp) {
    (IsMove(op) && (op.OpBeginMove? ==> op.move != NotMoving)) || op.OpEndIf? || (op.OpTransition? && op.status == Lost)
  }

  lemma CommitOthers(s: Sys, op: AgentOp, u: Uuid)
    requires LeaseOp(op) && u != op.u
    ensures SameFor(s, Commit(s, op), u)
  {
  }

  lemma HolderOthers(s: Sys, step: Step, u: Uuid)
    requires HolderStep(step) && step.u in s.t.agents && step.u in s.busy && EnabledHolder(s, step, s.busy[step.u])
    requires u != step.u
    ensures SameFor(s, DoHolder(s, step, s.busy[step.u]), u) && LeasesGrow(s, DoHolder(s, step, s.busy[step.u]))
  {
    if step.CommitRecovery? {
      var v, token, view := step.u, s.busy[step.u].token, s.busy[step.u].view;
      var op := RecoveryOp(s, v, token, view, step.terminal, step.pane, step.now);
      CommitOthers(s, op, u);
      CommitOthers(Commit(s, op), OpTransition(v, Lost, None), u);
    } else if ParkStep(step) || UnparkStep(step) {
      MoveOthers(s, step, u);
    } else if step.Reap? {
      CommitOthers(s, OpEndIf(step.u, Parked, "reaped"), u);
    }
  }

  lemma MoveOthers(s: Sys, step: Step, u: Uuid)
    requires (ParkStep(step) || UnparkStep(step)) && step.u in s.t.agents && step.u in s.busy
    requires EnabledHolder(s, step, s.busy[step.u]) && u != step.u
    ensures SameFor(s, DoHolder(s, step, s.busy[step.u]), u) && LeasesGrow(s, DoHolder(s, step, s.busy[step.u]))
  {
    var v, pc := step.u, s.busy[step.u];
    match step
    case AbortPark(_) => CommitOthers(s, OpRollback(v, pc.token), u);
    case CommitPark(_, terminal, pane, now) => CommitOthers(s, OpFinishPark(v, pc.token, terminal, pane, now), u);
    case CommitUnpark(_, terminal, pane, now) => CommitOthers(s, OpFinishUnpark(v, pc.token, terminal, pane, now), u);
    case _ =>
      if step.BeginPark? || step.BeginUnpark? {
        BeginOthers(s, step, u);
      }
  }

  lemma BeginOthers(s: Sys, step: Step, u: Uuid)
    requires (step.BeginPark? || step.BeginUnpark?) && step.u in s.t.agents && step.u in s.busy
    requires EnabledHolder(s, step, s.busy[step.u]) && u != step.u
    ensures SameFor(s, DoHolder(s, step, s.busy[step.u]), u) && LeasesGrow(s, DoHolder(s, step, s.busy[step.u]))
  {
    var from, move := if step.BeginPark? then Idle else Parked, if step.BeginPark? then Parking else Unparking;
    CommitOthers(s, OpBeginMove(step.u, from, move, step.token), u);
  }

  /** The side chosen by the pane's workspace leaves row and pane in agreement. */
  lemma RecoveryRow(s: Sys, u: Uuid, token: Token, view: View, terminal: string, pane: string, now: int, strict: bool)
    requires u in s.t.agents && token in s.leases && RowAgrees(s, u, strict) && RowOk(s.t.agents[u])
    requires s.leases[token].agent == u && view.InWorkspace? && view.ws in {IDLE_WORKSPACE, Home(s.t, u)}
    requires u in s.world ==> s.world[u] == view.ws
    ensures var op := RecoveryOp(s, u, token, view, terminal, pane, now);
            u in ApplyRow(s.t, op).tables.agents && RowAgrees(Commit(s, op), u, strict)
  {
  }

  /** A pane that was not found: the lease is dropped and the agent is lost. */
  lemma RecoveryLost(s: Sys, u: Uuid, token: Token, strict: bool)
    requires u in s.t.agents && RowAgrees(s, u, strict) && RowOk(s.t.agents[u]) && PathsDistinct(s.t.agents)
    ensures var s1 := Commit(Commit(s, OpRollback(u, token)), OpTransition(u, Lost, None));
            u in s1.t.agents && RowAgrees(s1, u, strict)
  {
    var t1 := RollbackMove(s.t, u, token).tables;
    var t2 := TransitionStatus(t1, u, Lost, None).tables;
    assert Commit(Commit(s, OpRollback(u, token)), OpTransition(u, Lost, None)) == s.(t := t2);
    LostRow(s.t, u, token);
    RowDead(s, s.(t := t2), u, strict);
  }

  lemma LostRow(t: AgentTables, u: Uuid, token: Token)
    requires u in t.agents && PathsDistinct(t.agents)
    ensures var t2 := TransitionStatus(RollbackMove(t, u, token).tables, u, Lost, None).tables;
            && u in t2.agents && t2.agents[u].status in {Lost, Ended} && t2.agents[u].path == t.agents[u].path
            && ((t2.agents[u].moveState == t.agents[u].moveState && t2.agents[u].moveToken == t.agents[u].moveToken)
                || (t2.agents[u].moveState == NotMoving && t2.agents[u].moveToken == None))
  {
    var t1 := RollbackMove(t, u, token).tables;
    assert t1.agents.Keys == t.agents.Keys;
    assert forall v :: v in t.agents ==>
             t1.agents[v].path == t.agents[v].path && t1.agents[v].status == t.agents[v].status;
    if t.agents[u].status != Ended {
      assert PathFree(t1.agents, u, t1.agents[u].path);
    }
  }

  /** A lost or ended row agrees with any pane of its own. */
  lemma RowDead(s: Sys, s': Sys, u: Uuid, strict: bool)
    requires u in s.t.agents && RowAgrees(s, u, strict) && u in s'.t.agents
    requires s'.world == s.world && s'.leases == s.leases && s'.t.agents[u].path == s.t.agents[u].path
    requires s'.t.agents[u].status in {Lost, Ended}
    requires (s'.t.agents[u].moveState == s.t.agents[u].moveState
              && s'.t.agents[u].moveToken == s.t.agents[u].moveToken)
             || (s'.t.agents[u].moveState == NotMoving && s'.t.agents[u].moveToken == None)
    ensures RowAgrees(s', u, strict)
  {
  }

  lemma RecoveryAgrees(s: Sys, step: Step, strict: bool)
    requires step.CommitRecovery? && step.u in s.t.agents && step.u in s.busy && EnabledHolder(s, step, s.busy[step.u])
    requires AgentAgrees(s, step.u, strict) && RowOk(s.t.agents[step.u]) && PathsDistinct(s.t.agents)
    ensures AgentAgrees(DoHolder(s, step, s.busy[step.u]), step.u, strict)
  {
    var u, pc := step.u, s.busy[step.u];
    if pc.view == Missing {
      RecoveryLost(s, u, pc.token, strict);
    } else {
      RecoveryRow(s, u, pc.token, pc.view, step.terminal, step.pane, step.now, strict);
    }
  }

  predicate ParkStep(step: Step) {
    step.BeginPark? || step.AbortPark? || step.MoveToIdle? || step.CommitPark?
  }

  lemma ParkAgrees(s: Sys, step: Step, strict: bool)
    requires ParkStep(step) && step.u in s.t.agents && step.u in s.busy && EnabledHolder(s, step, s.busy[step.u])
    requires AgentAgrees(s, step.u, strict) && RowOk(s.t.agents[step.u])
    ensures AgentAgrees(DoHolder(s, step, s.busy[step.u]), step.u, strict)
  {
    if step.BeginPark? {
      BeginParkAgrees(s, step, strict);
    } else if step.MoveToIdle? {
      MoveToIdleAgrees(s, step, strict);
    } else {
      EndParkAgrees(s, step, strict);
    }
  }

  lemma BeginParkAgrees(s: Sys, step: Step, strict: bool)
    requires step.BeginPark? && step.u in s.t.agents && step.u in s.busy && EnabledHolder(s, step, s.busy[step.u])
    requires AgentAgrees(s, step.u, strict) && RowOk(s.t.agents[step.u])
    ensures AgentAgrees(DoHolder(s, step, s.busy[step.u]), step.u, strict)
  {
  }

  lemma MoveToIdleAgrees(s: Sys, step: Step, strict: bool)
    requires step.MoveToIdle? && step.u in s.t.agents && step.u in s.busy && EnabledHolder(s, step, s.busy[step.u])
    requires AgentAgrees(s, step.u, strict)
    ensures AgentAgrees(DoHolder(s, step, s.busy[step.u]), step.u, strict)
  {
  }

  lemma EndParkAgrees(s: Sys, step: Step, strict: bool)
    requires (step.AbortPark? || step.CommitPark?) && step.u in s.t.agents && step.u in s.busy
    requires EnabledHolder(s, step, s.busy[step.u]) && AgentAgrees(s, step.u, strict)
    ensures AgentAgrees(DoHolder(s, step, s.busy[step.u]), step.u, strict)
  {
  }

  predicate UnparkStep(step: Step) {
    step.BeginUnpark? || step.MoveHome? || step.CommitUnpark?
  }

  lemma UnparkAgrees(s: Sys, step: Step, strict: bool)
    requires UnparkStep(step) && step.u in s.t.agents && step.u in s.busy && EnabledHolder(s, step, s.busy[step.u])
    requires AgentAgrees(s, step.u, strict) && RowOk(s.t.agents[step.u])
    ensures AgentAgrees(DoHolder(s, step, s.busy[step.u]), step.u, strict)
  {
    if step.BeginUnpark? {
      BeginUnparkAgrees(s, step, strict);
    } else if step.MoveHome? {
      MoveHomeAgrees(s, step, strict);
    } else {
      CommitUnparkAgrees(s, step, strict);
    }
  }

  lemma BeginUnparkAgrees(s: Sys, step: Step, strict: bool)
    requires step.BeginUnpark? && step.u in s.t.agents && step.u in s.busy && EnabledHolder(s, step, s.busy[step.u])
    requires AgentAgrees(s, step.u, strict) && RowOk(s.t.agents[step.u])
    ensures AgentAgrees(DoHolder(s, step, s.busy[step.u]), step.u, strict)
  {
  }

  lemma MoveHomeAgrees(s: Sys, step: Step, strict: bool)
    requires step.MoveHome? && step.u in s.t.agents && step.u in s.busy
    requires EnabledHolder(s, step, s.busy[step.u]) && AgentAgrees(s, step.u, strict)
    ensures AgentAgrees(DoHolder(s, step, s.busy[step.u]), step.u, strict)
  {
  }

  lemma CommitUnparkAgrees(s: Sys, step: Step, strict: bool)
    requires step.CommitUnpark? && step.u in s.t.agents && step.u in s.busy
    requires EnabledHolder(s, step, s.busy[step.u]) && AgentAgrees(s, step.u, strict)
    ensures AgentAgrees(DoHolder(s, step, s.busy[step.u]), step.u, strict)
  {
  }

  lemma OtherHolderAgrees(s: Sys, step: Step, strict: bool)
    requires HolderStep(step) && !ParkStep(step) && !UnparkStep(step) && !step.CommitRecovery?
    requires step.u in s.t.agents && step.u in s.busy && EnabledHolder(s, step, s.busy[step.u])
    requires AgentAgrees(s, step.u, strict) && RowOk(s.t.agents[step.u]) && Trusted(s, step, strict) && Known(s)
    requires HeldRow(s, step.u)
    ensures AgentAgrees(DoHolder(s, step, s.busy[step.u]), step.u, strict)
  {
    if step.Deliver? || step.Reap? {
      WriteAgrees(s, step, strict);
    } else {
      ReadAgrees(s, step, strict);
    }
  }

  lemma WriteAgrees(s: Sys, step: Step, strict: bool)
    requires (step.Deliver? || step.Reap?) && step.u in s.t.agents && step.u in s.busy
    requires EnabledHolder(s, step, s.busy[step.u]) && AgentAgrees(s, step.u, strict) && RowOk(s.t.agents[step.u])
    requires step.Deliver? ==> HeldRow(s, step.u)
    ensures AgentAgrees(DoHolder(s, step, s.busy[step.u]), step.u, strict)
  {
  }

  lemma ReadAgrees(s: Sys, step: Step, strict: bool)
    requires step.Release? || step.BeginRecovery? || step.LookForPane? || step.EnterUnpark? || step.ReadAgain?
    requires step.u in s.t.agents && step.u in s.busy && EnabledHolder(s, step, s.busy[step.u])
    requires AgentAgrees(s, step.u, strict) && RowOk(s.t.agents[step.u]) && Trusted(s, step, strict)
    requires LeasesStarted(s.t, s.leases)
    ensures AgentAgrees(DoHolder(s, step, s.busy[step.u]), step.u, strict)
  {
  }

  // ---- what the lock holder can rely on about its row, whatever herdr answers ----

  predicate HeldRow(s: Sys, u: Uuid) {
    u in s.t.agents && u in s.busy ==> HeldAt(s.t.agents[u], s.busy[u])
  }

  /** Nobody else touches the lease of a locked agent or parks it. */
  predicate HeldAt(row: Agent, pc: Pc) {
    match pc
    case Locked => true
    case ParkWon(token) => row.moveToken == Some(token)
    case ParkMoved(token) => row.moveToken == Some(token)
    case UnparkWon(token) => row.moveToken == Some(token)
    case UnparkMoved(token) => row.moveToken == Some(token)
    case Inspect(token, unparking) => unparking ==> row.moveToken == Some(token)
    case Saw(token, _, unparking) => unparking ==> row.moveToken == Some(token)
    case Settling(refused) =>
      if refused then row.moveState != NotMoving && row.status != Parked else row.moveState == NotMoving
    case Claiming => row.moveState == NotMoving
    case Ready(refused) => row.status != Parked && (refused <==> row.moveState != NotMoving)
  }

  lemma HeldStep(s: Sys, step: Step, u: Uuid)
    requires Inv(s.t) && Enabled(s, step) && HeldRow(s, u) && (u in s.busy ==> u in s.t.agents)
    ensures HeldRow(Do(s, step), u)
  {
    if u in s.t.agents {
      assert RowOk(s.t.agents[u]);
      if step.Unlocked? {
        FreeStep(s.t, step.op, u);
      } else if HolderStep(step) {
        if u != step.u {
          HolderOthers(s, step, u);
        } else {
          HeldOwn(s, step);
        }
      }
    } else if HolderStep(step) {
      HolderOthers(s, step, u);
    }
  }

  lemma HeldOwn(s: Sys, step: Step)
    requires HolderStep(step) && step.u in s.t.agents && step.u in s.busy && EnabledHolder(s, step, s.busy[step.u])
    requires HeldRow(s, step.u) && RowOk(s.t.agents[step.u]) && PathsDistinct(s.t.agents)
    ensures HeldRow(DoHolder(s, step, s.busy[step.u]), step.u)
  {
    if step.CommitRecovery? {
      HeldRecovery(s, step);
    } else if step.BeginPark? || step.BeginUnpark? || step.CommitUnpark? {
      HeldMove(s, step);
    }
  }

  lemma HeldMove(s: Sys, step: Step)
    requires (step.BeginPark? || step.BeginUnpark? || step.CommitUnpark?) && step.u in s.t.agents && step.u in s.busy
    requires EnabledHolder(s, step, s.busy[step.u]) && HeldRow(s, step.u) && RowOk(s.t.agents[step.u])
    ensures HeldRow(DoHolder(s, step, s.busy[step.u]), step.u)
  {
  }

  /** The settled row, or the refusal of a write that would make two non-ended rows share a path. */
  lemma HeldRecovery(s: Sys, step: Step)
    requires step.CommitRecovery? && step.u in s.t.agents && step.u in s.busy && EnabledHolder(s, step, s.busy[step.u])
    requires HeldRow(s, step.u) && RowOk(s.t.agents[step.u]) && PathsDistinct(s.t.agents)
    ensures HeldRow(DoHolder(s, step, s.busy[step.u]), step.u)
  {
    var u, pc := step.u, s.busy[step.u];
    var op := RecoveryOp(s, u, pc.token, pc.view, step.terminal, step.pane, step.now);
    if pc.unparking {
      SettledOrRefused(s.t, op);
      if pc.view == Missing {
        LostKeepsMove(ApplyRow(s.t, op).tables, u);
      }
    }
  }

  /** Settling the move of a row that holds the token. */
  lemma SettledOrRefused(t: AgentTables, op: AgentOp)
    requires (op.OpFinishPark? || op.OpFinishUnpark? || op.OpRollback?) && op.u in t.agents && PathsDistinct(t.agents)
    requires HoldsToken(t, op.u, op.token) && RowOk(t.agents[op.u])
    ensures var t' := ApplyRow(t, op).tables;
            && op.u in t'.agents
            && if HoldsToken(t', op.u, op.token) then t' == t && t.agents[op.u].status == Ended
               else t'.agents[op.u].moveState == NotMoving
    ensures HoldsToken(ApplyRow(t, op).tables, op.u, op.token) ==> !op.OpRollback?
  {
    if t.agents[op.u].status != Ended {
      assert PathFree(t.agents, op.u, t.agents[op.u].path);
    }
  }

  lemma LostKeepsMove(t: AgentTables, u: Uuid)
    requires u in t.agents
    ensures var t' := ApplyRow(t, OpTransition(u, Lost, None)).tables;
            u in t'.agents && t'.agents[u].moveState == t.agents[u].moveState
  {
  }

  lemma HolderAgreesStep(s: Sys, step: Step, u: Uuid, strict: bool)
    requires HolderStep(step) && Agrees(s, strict) && Enabled(s, step) && Trusted(s, step, strict)
    requires HeldRow(s, step.u)
    ensures AgentAgrees(Do(s, step), u, strict)
  {
    assert AgentAgrees(s, u, strict);
    if u != step.u {
      HolderOthers(s, step, u);
      SameForKeeps(s, Do(s, step), u, strict);
    } else if ParkStep(step) {
      ParkAgrees(s, step, strict);
    } else if UnparkStep(step) {
      UnparkAgrees(s, step, strict);
    } else if step.CommitRecovery? {
      RecoveryAgrees(s, step, strict);
    } else {
      OtherHolderAgrees(s, step, strict);
    }
  }

  lemma FreeAgrees(s: Sys, step: Step, u: Uuid, strict: bool)
    requires step.Unlocked? && Inv(s.t) && Known(s) && AgentAgrees(s, u, strict)
    requires Enabled(s, step) && Trusted(s, step, strict)
    ensures AgentAgrees(Do(s, step), u, strict)
  {
    if u in s.t.agents {
      FreeStep(s.t, step.op, u);
      FreeRowAgrees(s, Do(s, step), u, strict, Blind(s.t, step.op));
    } else if u in Do(s, step).t.agents {
      NewAgentAgrees(s, step, u, strict);
    }
  }

  lemma FreeRowAgrees(s: Sys, s': Sys, u: Uuid, strict: bool, blind: bool)
    requires AgentAgrees(s, u, strict) && u in s.t.agents && u in s'.t.agents
    requires s'.world == s.world && s'.busy == s.busy && s'.leases == s.leases
    requires FreeRowStep(s.t.agents[u], s'.t.agents[u], blind) && (strict ==> !blind)
    ensures AgentAgrees(s', u, strict)
  {
  }

  lemma NewAgentAgrees(s: Sys, step: Step, u: Uuid, strict: bool)
    requires step.Unlocked? && Inv(s.t) && Known(s) && Enabled(s, step) && u !in s.t.agents && u in Do(s, step).t.agents
    ensures AgentAgrees(Do(s, step), u, strict)
    ensures step.op.OpEnqueue? && step.op.u == u && CanEnqueue(s.t, u, step.op.new_)
  {
    NewRowIsEnqueued(s.t, step.op, u);
    Paths.HomeIsNeverIdle(step.op.new_.path);
  }

  lemma NewRowIsEnqueued(t: AgentTables, op: AgentOp, u: Uuid)
    requires Inv(t) && Free(t, op) && u !in t.agents && u in Apply(t, op).tables.agents
    ensures op.OpEnqueue? && op.u == u && CanEnqueue(t, u, op.new_)
  {
    if SingleRow(op) {
      assert op.u in t.agents ==> RowOk(t.agents[op.u]);
      SingleRowStep(t, op);
    }
  }

  // ---- the invariant over whole runs ----

  /** The store transactions one step commits. */
  function OpsOf(s: Sys, step: Step): seq<AgentOp>
    requires Enabled(s, step)
  {
    match step
    case Unlocked(op) => [op]
    case BeginPark(u, token) => [OpBeginMove(u, Idle, Parking, token)]
    case AbortPark(u) => [OpRollback(u, s.busy[u].token)]
    case CommitPark(u, terminal, pane, now) => [OpFinishPark(u, s.busy[u].token, terminal, pane, now)]
    case BeginUnpark(u, token) => [OpBeginMove(u, Parked, Unparking, token)]
    case CommitUnpark(u, terminal, pane, now) => [OpFinishUnpark(u, s.busy[u].token, terminal, pane, now)]
    case CommitRecovery(u, terminal, pane, now) =>
      [RecoveryOp(s, u, s.busy[u].token, s.busy[u].view, terminal, pane, now)]
      + if s.busy[u].view == Missing then [OpTransition(u, Lost, None)] else []
    case Deliver(u, at) => [OpDeliver(u, Orcr, at)]
    case Reap(u) => [OpEndIf(u, Parked, "reaped")]
    case _ => []
  }

  /** Every step is a run of store transactions, so all store-level theorems hold along pane-move runs too. */
  lemma StepIsRun(s: Sys, step: Step)
    requires Inv(s.t) && Enabled(s, step)
    ensures ValidRun(s.t, OpsOf(s, step)) && RunFrom(s.t, OpsOf(s, step)) == Do(s, step).t
  {
    var ops := OpsOf(s, step);
    if |ops| == 1 {
      OneOpStep(s, step);
      SingleOpRun(s.t, ops[0]);
      assert ops == [ops[0]];
    } else if |ops| == 2 {
      TwoOpStep(s, step);
      assert ops == [ops[0], ops[1]];
    }
  }

  /** A recovery that found no pane: roll back, then mark the agent lost. */
  lemma TwoOpStep(s: Sys, step: Step)
    requires Inv(s.t) && Enabled(s, step) && |OpsOf(s, step)| == 2
    ensures var op, next := OpsOf(s, step)[0], OpsOf(s, step)[1];
            ValidRun(s.t, [op, next]) && RunFrom(s.t, [op, next]) == Do(s, step).t
  {
    var op, next := OpsOf(s, step)[0], OpsOf(s, step)[1];
    assert step.CommitRecovery? && SingleRow(op) && AsCalled(s.t, op) && next.OpTransition? && next.status == Lost;
    SingleRowKeepsInv(s.t, op);
    TwoOpsRun(s.t, op, next);
  }

  lemma OneOpStep(s: Sys, step: Step)
    requires Inv(s.t) && Enabled(s, step) && |OpsOf(s, step)| == 1
    ensures AsCalled(s.t, OpsOf(s, step)[0]) && Apply(s.t, OpsOf(s, step)[0]).tables == Do(s, step).t
  {
    if HolderStep(step) {
      OneHolderOp(s, step);
    }
  }

  lemma OneHolderOp(s: Sys, step: Step)
    requires HolderStep(step) && Enabled(s, step) && |OpsOf(s, step)| == 1
    ensures var op := OpsOf(s, step)[0];
            && AsCalled(s.t, op) && (SingleRow(op) || op.OpDeliver?)
            && DoHolder(s, step, s.busy[step.u]).t
                 == if op.OpDeliver? then DeliverInput(s.t, op.u, op.source, op.at).tables else ApplyRow(s.t, op).tables
  {
    match step
    case BeginPark(_, _) =>
    case BeginUnpark(_, _) =>
    case CommitRecovery(_, _, _, _) =>
    case _ =>
  }

  lemma StepInv(s: Sys, step: Step)
    requires Inv(s.t) && Enabled(s, step)
    ensures Inv(Do(s, step).t) && Evolves(s.t, Do(s, step).t)
  {
    StepIsRun(s, step);
    RunEvolves(s.t, OpsOf(s, step));
  }

  lemma StepKnown(s: Sys, step: Step)
    requires Inv(s.t) && Known(s) && Enabled(s, step)
    ensures Known(Do(s, step))
  {
    StepInv(s, step);
    PathsKnown(s, step);
    LeasesKnown(s, step);
    PlacesKnown(s, step);
  }

  lemma PathsKnown(s: Sys, step: Step)
    requires Inv(s.t) && Enabled(s, step) && Evolves(s.t, Do(s, step).t)
    requires forall u :: u in s.t.agents ==> Paths.Creatable(s.t.agents[u].path)
    ensures forall u :: u in Do(s, step).t.agents ==> Paths.Creatable(Do(s, step).t.agents[u].path)
  {
    forall u | u in Do(s, step).t.agents
      ensures Paths.Creatable(Do(s, step).t.agents[u].path)
    {
      if u in s.t.agents {
        assert SameAgent(s.t.agents[u], Do(s, step).t.agents[u]);
      } else {
        OnlyEnqueueAdds(s, step, u);
      }
    }
  }

  predicate LeasesStarted(t: AgentTables, leases: map<Token, Lease>) {
    forall token :: token in leases ==>
      leases[token].agent in t.agents && t.agents[leases[token].agent].status !in {Queued, Starting}
  }

  lemma LeasesKnown(s: Sys, step: Step)
    requires QueueSeqsDistinct(s.t.agents) && Enabled(s, step) && Evolves(s.t, Do(s, step).t)
    requires LeasesStarted(s.t, s.leases)
    ensures LeasesStarted(Do(s, step).t, Do(s, step).leases)
  {
    var s' := Do(s, step);
    forall token | token in s'.leases
      ensures s'.leases[token].agent in s'.t.agents && s'.t.agents[s'.leases[token].agent].status !in {Queued, Starting}
    {
      LeaseOrigin(s, step, token);
      var u := s'.leases[token].agent;
      assert u in s.t.agents && s.t.agents[u].status !in {Queued, Starting};
      assert SameAgent(s.t.agents[u], s'.t.agents[u]);
    }
  }

  lemma OnlyEnqueueAdds(s: Sys, step: Step, u: Uuid)
    requires Inv(s.t) && Enabled(s, step) && u !in s.t.agents && u in Do(s, step).t.agents
    ensures Paths.Creatable(Do(s, step).t.agents[u].path)
  {
    if step.Unlocked? {
      NewRowIsEnqueued(s.t, step.op, u);
    } else if HolderStep(step) {
      HolderOthers(s, step, u);
    }
  }

  /** A token on record is old, or was just won from an idle or parked row. */
  lemma LeaseOrigin(s: Sys, step: Step, token: Token)
    requires QueueSeqsDistinct(s.t.agents) && Enabled(s, step) && token in Do(s, step).leases
    ensures (token in s.leases && Do(s, step).leases[token] == s.leases[token])
            || (Do(s, step).leases[token].agent in s.t.agents
                && s.t.agents[Do(s, step).leases[token].agent].status in {Idle, Parked})
  {
    if HolderStep(step) {
      HolderLeases(s, step, token);
    }
  }

  lemma HolderLeases(s: Sys, step: Step, token: Token)
    requires HolderStep(step) && Enabled(s, step) && token in DoHolder(s, step, s.busy[step.u]).leases
    ensures (token in s.leases && DoHolder(s, step, s.busy[step.u]).leases[token] == s.leases[token])
            || (DoHolder(s, step, s.busy[step.u]).leases[token].agent in s.t.agents
                && s.t.agents[DoHolder(s, step, s.busy[step.u]).leases[token].agent].status in {Idle, Parked})
  {
    if !step.BeginPark? && !step.BeginUnpark? {
      HolderKeepsLeases(s, step);
    }
  }

  lemma HolderKeepsLeases(s: Sys, step: Step)
    requires HolderStep(step) && Enabled(s, step) && !step.BeginPark? && !step.BeginUnpark?
    ensures DoHolder(s, step, s.busy[step.u]).leases == s.leases
  {
  }

  lemma PlacesKnown(s: Sys, step: Step)
    requires QueueSeqsDistinct(s.t.agents) && Enabled(s, step) && Evolves(s.t, Do(s, step).t)
    requires (forall u :: u in s.busy ==> u in s.t.agents) && (forall u :: u in s.world ==> u in s.t.agents)
    ensures forall u :: u in Do(s, step).busy ==> u in Do(s, step).t.agents
    ensures forall u :: u in Do(s, step).world ==> u in Do(s, step).t.agents
  {
    forall u
      ensures u in Do(s, step).busy ==> u in s.t.agents
      ensures u in Do(s, step).world ==> u in s.t.agents
    {
      if !HolderStep(step) {
        OtherPlaces(s, step, u);
      } else if u != step.u {
        HolderOthers(s, step, u);
      }
    }
  }

  lemma OtherPlaces(s: Sys, step: Step, u: Uuid)
    requires QueueSeqsDistinct(s.t.agents) && Enabled(s, step) && !HolderStep(step)
    requires (u in s.busy ==> u in s.t.agents) && (u in s.world ==> u in s.t.agents)
    ensures u in Do(s, step).busy ==> u in s.t.agents
    ensures u in Do(s, step).world ==> u in s.t.agents
  {
  }

  lemma StepAgrees(s: Sys, step: Step, strict: bool)
    requires Agrees(s, strict) && Enabled(s, step) && Trusted(s, step, strict) && forall u :: HeldRow(s, u)
    ensures Agrees(Do(s, step), strict)
  {
    StepInv(s, step);
    StepKnown(s, step);
    forall u
      ensures AgentAgrees(Do(s, step), u, strict)
    {
      if step.Unlocked? {
        assert AgentAgrees(s, u, strict);
        FreeAgrees(s, step, u, strict);
      } else if HolderStep(step) {
        HolderAgreesStep(s, step, u, strict);
      } else {
        assert AgentAgrees(s, u, strict);
        WorldAgrees(s, step, u, strict);
      }
    }
  }

  lemma WorldAgrees(s: Sys, step: Step, u: Uuid, strict: bool)
    requires AgentAgrees(s, u, strict) && Enabled(s, step) && !step.Unlocked? && !HolderStep(step)
    requires QueueSeqsDistinct(s.t.agents) && (u in s.t.agents ==> RowOk(s.t.agents[u]))
    ensures AgentAgrees(Do(s, step), u, strict)
  {
  }

  ghost predicate ValidFrom(s: Sys, steps: seq<Step>)
    requires Inv(s.t)
    decreases |steps|, 0
  {
    steps == []
    || (ValidFrom(s, steps[..|steps| - 1]) && Enabled(AfterSteps(s, steps[..|steps| - 1]), steps[|steps| - 1]))
  }

  ghost function AfterSteps(s: Sys, steps: seq<Step>): (s': Sys)
    requires Inv(s.t) && ValidFrom(s, steps)
    ensures Inv(s'.t)
    decreases |steps|, 1
  {
    if steps == [] then s
    else
      var before := AfterSteps(s, steps[..|steps| - 1]);
      StepInv(before, steps[|steps| - 1]);
      Do(before, steps[|steps| - 1])
  }

  /** A run from an empty store. */
  ghost predicate ValidSteps(steps: seq<Step>) {
    ValidFrom(START, steps)
  }

  ghost function Reached(steps: seq<Step>): (s: Sys)
    requires ValidSteps(steps)
    ensures Inv(s.t)
  {
    AfterSteps(START, steps)
  }

  /** A run whose recoveries always got their workspace labels and, if `strict`, without blind writes. */
  ghost predicate TrustedRun(steps: seq<Step>, strict: bool)
    requires ValidSteps(steps)
    decreases |steps|
  {
    steps == []
    || (TrustedRun(steps[..|steps| - 1], strict) && Trusted(Reached(steps[..|steps| - 1]), steps[|steps| - 1], strict))
  }

  /** What holds in every reachable state, whatever herdr answers. */
  ghost predicate Sound(s: Sys) {
    Inv(s.t) && Known(s) && forall u :: HeldRow(s, u)
  }

  lemma StepSound(s: Sys, step: Step)
    requires Sound(s) && Enabled(s, step)
    ensures Sound(Do(s, step))
  {
    StepInv(s, step);
    StepKnown(s, step);
    forall u
      ensures HeldRow(Do(s, step), u)
    {
      HeldStep(s, step, u);
    }
  }

  lemma {:induction false} RunSound(steps: seq<Step>)
    requires ValidSteps(steps)
    ensures Sound(Reached(steps))
    decreases |steps|
  {
    if steps != [] {
      RunSound(steps[..|steps| - 1]);
      StepSound(Reached(steps[..|steps| - 1]), steps[|steps| - 1]);
    }
  }

  lemma {:induction false} RunAgrees(steps: seq<Step>, strict: bool)
    requires ValidSteps(steps) && TrustedRun(steps, strict)
    ensures Agrees(Reached(steps), strict)
    decreases |steps|
  {
    if steps != [] {
      RunAgrees(steps[..|steps| - 1], strict);
      RunSound(steps[..|steps| - 1]);
      StepAgrees(Reached(steps[..|steps| - 1]), steps[|steps| - 1], strict);
    }
  }

  /** With no move in flight: a parked agent's pane is in `idle`; `strict` adds that no other active agent's is. */
  predicate InPlace(s: Sys, u: Uuid, strict: bool) {
    u in s.t.agents && u in s.world && s.t.agents[u].moveState == NotMoving ==>
      && (s.t.agents[u].status == Parked ==> InIdle(s, u))
      && (strict && InIdle(s, u) ==> s.t.agents[u].status in AWAY)
  }

  /**
   * Crash safety. Whenever no move is in flight and the pane exists: a parked agent's pane is in workspace `idle`,
   * and when no thread wrote a status blindly, the pane of any other active agent is not.
   */
  lemma ParkedExactlyWhenInIdle(steps: seq<Step>, strict: bool, u: Uuid)
    requires ValidSteps(steps) && TrustedRun(steps, strict)
    ensures InPlace(Reached(steps), u, strict)
  {
    RunAgrees(steps, strict);
    assert AgentAgrees(Reached(steps), u, strict);
  }

  // ---- sends ----

  /**
   * When a send delivers, the agent is not parked, and no move is in flight if and only if the path index did not
   * turn down the write of the send's own recovery, which happens only to an ended agent whose path was taken.
   */
  lemma SendDeliversSettled(steps: seq<Step>, u: Uuid, at: int)
    requires ValidSteps(steps) && Enabled(Reached(steps), Deliver(u, at))
    ensures var s := Reached(steps);
            && s.t.agents[u].status != Parked
            && (s.t.agents[u].moveState == NotMoving <==> s.busy[u] == Ready(false))
  {
    RunSound(steps);
    assert HeldRow(Reached(steps), u);
  }

  lemma {:induction false} GuardedSteps(s: Sys, steps: seq<Step>, u: Uuid, n: nat)
    requires Inv(s.t) && ValidFrom(s, steps) && Guarded(s.t, u, n)
    ensures Guarded(AfterSteps(s, steps).t, u, n)
    decreases |steps|
  {
    if steps != [] {
      var k := |steps| - 1;
      var before := AfterSteps(s, steps[..k]);
      GuardedSteps(s, steps[..k], u, n);
      StepIsRun(before, steps[k]);
      GuardedRun(before.t, OpsOf(before, steps[k]), u, n);
    }
  }

  /**
   * A send is never answered by a stale idle, crashes, parks, recoveries and the monitor included: once it has
   * delivered turn `n`, every later state of the protocol that shows the agent idle or parked has a completed turn
   * `n` or later.
   */
  lemma SendIsAnswered(steps: seq<Step>, u: Uuid, at: int, later: seq<Step>)
    requires ValidSteps(steps) && Enabled(Reached(steps), Deliver(u, at)) && Reached(steps).busy[u] == Ready(false)
    requires Deliverable(Reached(steps).t, u) && Reached(steps).t.agents[u].managed
    requires Inv(Do(Reached(steps), Deliver(u, at)).t) && ValidFrom(Do(Reached(steps), Deliver(u, at)), later)
    ensures Honest(AfterSteps(Do(Reached(steps), Deliver(u, at)), later).t, u, Reached(steps).t.agents[u].inputSeq + 1)
  {
    SendDeliversSettled(steps, u, at);
    GuardedSteps(Do(Reached(steps), Deliver(u, at)), later, u, Reached(steps).t.agents[u].inputSeq + 1);
  }

  // ---- where the agreement ends ----

  /** The row and the pane agree and no lease is left. */
  predicate Settled(s: Sys, u: Uuid) {
    && u in s.t.agents && s.t.agents[u].moveState == NotMoving
    && (s.t.agents[u].status == Parked <==> InIdle(s, u))
  }

  /** A recovery of `u` from its look at herdr to its store write. */
  ghost function Recovered(s: Sys, u: Uuid, lookup: Lookup, terminal: string, pane: string, now: int): Sys
    requires u in s.t.agents && u in s.busy && s.busy[u].Inspect? && s.busy[u].token in s.leases
  {
    var looked := DoHolder(s, LookForPane(u, lookup), s.busy[u]);
    DoHolder(looked, CommitRecovery(u, terminal, pane, now), looked.busy[u])
  }

  /** A recovery settles its agent: by what herdr answers and where the pane and the row stand. */
  predicate Settleable(s: Sys, u: Uuid, lookup: Lookup)
    requires u in s.t.agents
  {
    match lookup
    case Answered => true
    case NoLabels => u !in s.world || (InIdle(s, u) <==> s.t.agents[u].status == Parked)
    case NoPanes => !InIdle(s, u)
  }

  /**
   * Recovery of an interrupted move settles the agent if and only if herdr answered with workspace labels, or the
   * missing answer happens to be right. Without labels the code reads "not in idle" and always rolls back; without
   * a pane listing it reads "pane vanished" and marks an agent lost whose pane is alive.
   */
  lemma RecoveryNeedsLabels(s: Sys, u: Uuid, lookup: Lookup, terminal: string, pane: string, now: int)
    requires Agrees(s, true) && u in s.busy && s.busy[u].Inspect? && s.busy[u].token in s.leases
    requires s.t.agents[u].moveToken == Some(s.busy[u].token) && s.t.agents[u].status !in {Lost, Ended}
    ensures var s' := Recovered(s, u, lookup, terminal, pane, now);
            && (Settled(s', u) <==> Settleable(s, u, lookup))
            && u in s'.t.agents && (s'.t.agents[u].status == Lost <==> lookup == NoPanes || u !in s.world)
  {
    assert AgentAgrees(s, u, true) && RowOk(s.t.agents[u]);
    if lookup == NoPanes || u !in s.world {
      RecoveryLoses(s, u, lookup, terminal, pane, now);
    } else {
      RecoverySide(s, u, lookup, terminal, pane, now);
    }
  }

  lemma RecoveryLoses(s: Sys, u: Uuid, lookup: Lookup, terminal: string, pane: string, now: int)
    requires PathsDistinct(s.t.agents) && u in s.t.agents && RowOk(s.t.agents[u])
    requires u in s.busy && s.busy[u].Inspect? && s.busy[u].token in s.leases && (lookup == NoPanes || u !in s.world)
    requires s.t.agents[u].moveToken == Some(s.busy[u].token) && s.t.agents[u].status !in {Lost, Ended}
    ensures var s' := Recovered(s, u, lookup, terminal, pane, now);
            && u in s'.t.agents && s'.t.agents[u].status == Lost && s'.t.agents[u].moveState == NotMoving
            && s'.world == s.world
  {
    RecoveredMissing(s, u, lookup, terminal, pane, now);
    RolledBackThenLost(s.t, u, s.busy[u].token);
  }

  lemma RecoveredMissing(s: Sys, u: Uuid, lookup: Lookup, terminal: string, pane: string, now: int)
    requires u in s.t.agents && u in s.busy && s.busy[u].Inspect? && s.busy[u].token in s.leases
    requires lookup == NoPanes || u !in s.world
    ensures var s' := Recovered(s, u, lookup, terminal, pane, now);
            && s'.world == s.world
            && s'.t == TransitionStatus(RollbackMove(s.t, u, s.busy[u].token).tables, u, Lost, None).tables
  {
    LookTaken(s, u, lookup);
    LossWritten(At(s, u, Saw(s.busy[u].token, Missing, s.busy[u].unparking)), u, terminal, pane, now);
  }

  lemma LookTaken(s: Sys, u: Uuid, lookup: Lookup)
    requires u in s.t.agents && u in s.busy && s.busy[u].Inspect?
    ensures DoHolder(s, LookForPane(u, lookup), s.busy[u])
         == At(s, u, Saw(s.busy[u].token, ViewOf(s, u, lookup), s.busy[u].unparking))
  {
  }

  lemma LossWritten(s: Sys, u: Uuid, terminal: string, pane: string, now: int)
    requires u in s.t.agents && u in s.busy && s.busy[u].Saw? && s.busy[u].view == Missing
             && s.busy[u].token in s.leases
    ensures var s' := DoHolder(s, CommitRecovery(u, terminal, pane, now), s.busy[u]);
            && s'.world == s.world
            && s'.t == TransitionStatus(RollbackMove(s.t, u, s.busy[u].token).tables, u, Lost, None).tables
  {
  }

  lemma RolledBackThenLost(t: AgentTables, u: Uuid, token: Token)
    requires PathsDistinct(t.agents) && u in t.agents && HoldsToken(t, u, token) && t.agents[u].status != Ended
    ensures var t' := TransitionStatus(RollbackMove(t, u, token).tables, u, Lost, None).tables;
            u in t'.agents && t'.agents[u].status == Lost && t'.agents[u].moveState == NotMoving
  {
    assert PathFree(t.agents, u, t.agents[u].path);
    assert PathFree(RollbackMove(t, u, token).tables.agents, u, t.agents[u].path);
  }

  lemma RecoverySide(s: Sys, u: Uuid, lookup: Lookup, terminal: string, pane: string, now: int)
    requires PathsDistinct(s.t.agents) && AgentAgrees(s, u, true) && u in s.t.agents && RowOk(s.t.agents[u])
    requires u in s.busy && s.busy[u].Inspect? && s.busy[u].token in s.leases && u in s.world
    requires lookup != NoPanes
    requires s.t.agents[u].moveToken == Some(s.busy[u].token) && s.t.agents[u].status !in {Lost, Ended}
    ensures var s' := Recovered(s, u, lookup, terminal, pane, now);
            && (Settled(s', u) <==> Settleable(s, u, lookup))
            && u in s'.t.agents && s'.t.agents[u].status != Lost
  {
    assert PathFree(s.t.agents, u, s.t.agents[u].path);
    var looked := DoHolder(s, LookForPane(u, lookup), s.busy[u]);
    RecoveryOutcome(s.t, RecoveryOp(looked, u, s.busy[u].token, looked.busy[u].view, terminal, pane, now));
  }

  lemma RecoveryOutcome(t: AgentTables, op: AgentOp)
    requires (op.OpFinishPark? || op.OpFinishUnpark? || op.OpRollback?) && op.u in t.agents
    requires HoldsToken(t, op.u, op.token) && PathFree(t.agents, op.u, t.agents[op.u].path)
    ensures op.u in ApplyRow(t, op).tables.agents && ApplyRow(t, op).tables.agents[op.u].moveState == NotMoving
    ensures ApplyRow(t, op).tables.agents[op.u].status
            == if op.OpFinishPark? then Parked else if op.OpFinishUnpark? then Idle else t.agents[op.u].status
  {
  }

  /**
   * Exactly which unlocked transactions take an agent out of place: those that make it active again while its pane
   * sits in `idle`, as the completion monitor does when it marks a parked agent blocked or working.
   */
  lemma BlindWriteUnsettles(s: Sys, op: AgentOp, u: Uuid)
    requires Agrees(s, true) && Free(s.t, op) && AsCalled(s.t, op) && u in s.t.agents
    requires u in s.world && s.t.agents[u].moveState == NotMoving
    ensures !InPlace(Do(s, Unlocked(op)), u, true)
            <==> Blind(s.t, op) && op.u == u && InIdle(s, u)
  {
    assert AgentAgrees(s, u, true);
    FreeExactly(s.t, op, u);
    var s' := Do(s, Unlocked(op));
    assert s'.world == s.world && s'.t == Apply(s.t, op).tables;
  }

  /** A row that is away stays away unless a blind write hits it; no unlocked write parks or moves one. */
  lemma FreeExactly(t: AgentTables, op: AgentOp, u: Uuid)
    requires Inv(t) && Free(t, op) && AsCalled(t, op) && u in t.agents
    ensures var t' := Apply(t, op).tables;
            && u in t'.agents && t'.agents[u].moveState == t.agents[u].moveState
            && (t'.agents[u].status == Parked ==> t.agents[u].status == Parked)
            && (t.agents[u].status in AWAY ==> (t'.agents[u].status !in AWAY <==> Blind(t, op) && op.u == u))
  {
    FreeStep(t, op, u);
    if Blind(t, op) {
      BlindWakes(t, op);
      if op.u != u {
        BlindSpares(t, op, u);
      }
    }
  }

  /** A blind write makes its agent active. */
  lemma BlindWakes(t: AgentTables, op: AgentOp)
    requires QueueSeqsDistinct(t.agents) && Blind(t, op)
    ensures op.u in t.agents && op.u in Apply(t, op).tables.agents && Apply(t, op).tables.agents[op.u].status !in AWAY
  {
  }

  lemma BlindSpares(t: AgentTables, op: AgentOp, u: Uuid)
    requires QueueSeqsDistinct(t.agents) && Blind(t, op) && op.u != u && u in t.agents
    ensures u in Apply(t, op).tables.agents && Apply(t, op).tables.agents[u] == t.agents[u]
  {
  }
}
