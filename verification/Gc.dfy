/**
 * The garbage collector's and the send's code paths, executed by one thread: where each leaves the store and the
 * panes, and that each is a run of the pane-move protocol, so what is proved of every protocol run holds throughout.
 */
module Gc {
  import opened Rows
  import opened AgentTx
  import opened AgentQueue
  import opened AgentOps
  import opened PaneMoves
  import T = TurnEpochs
  import Paths
  import S = Store

  /** The panes of the owned session, one per agent, by workspace label. */
  class Herdr {
    var world: map<Uuid, string>

    /** `pane.move`: whether it takes effect and whether the caller hears of it is up to herdr. */
    method MovePane(u: Uuid, workspace: string, reply: PaneMoves.Reply) returns (acknowledged: bool)
      modifies this
      ensures world == if reply == NoEffect || u !in old(world) then old(world) else old(world)[u := workspace]
      ensures acknowledged <==> reply == Acknowledged
    {
      if reply != NoEffect && u in world {
        world := world[u := workspace];
      }
      acknowledged := reply == Acknowledged;
    }

    /** Looking for the pane and for the label of its workspace; either listing may fail. */
    method Look(u: Uuid, lookup: Lookup) returns (view: View)
      ensures view == if lookup == NoPanes || u !in world then Missing
                      else if lookup == NoLabels then Unlabelled else InWorkspace(world[u])
    {
      if lookup == NoPanes || u !in world {
        return Missing;
      }
      view := if lookup == NoLabels then Unlabelled else InWorkspace(world[u]);
    }
  }

  // ---- runs of the protocol ----

  predicate CanHold(c: Sys, step: Step) {
    HolderStep(step) && step.u in c.t.agents && step.u in c.busy && EnabledHolder(c, step, c.busy[step.u])
  }

  /** Taking an agent's move lock, or a step made while holding one. */
  predicate OwnStep(c: Sys, step: Step, next: Sys) {
    if step.Lock? then step.u in c.t.agents && step.u !in c.busy && next == At(c, step.u, Locked)
    else CanHold(c, step) && next == DoHolder(c, step, c.busy[step.u])
  }

  /** `steps` is a run of the protocol from `s` to `c`, all of it made by holders of move locks. */
  ghost predicate Leads(s: Sys, steps: seq<Step>, c: Sys)
    decreases |steps|, 1
  {
    EndsIn(s, steps, c)
  }

  ghost predicate EndsIn(s: Sys, steps: seq<Step>, c: Sys)
    decreases |steps|, 0
  {
    && Inv(s.t)
    && if steps == [] then c == s else Extends(s, steps[..|steps| - 1], steps[|steps| - 1], c)
  }

  ghost predicate Extends(s: Sys, steps: seq<Step>, step: Step, c: Sys)
    decreases |steps|, 2
  {
    exists before :: Leads(s, steps, before) && OwnStep(before, step, c)
  }

  lemma {:induction false} LeadsIsRun(s: Sys, steps: seq<Step>, c: Sys)
    requires Leads(s, steps, c)
    ensures Inv(s.t) && Inv(c.t) && ValidFrom(s, steps) && AfterSteps(s, steps) == c
    decreases |steps|
  {
    assert EndsIn(s, steps, c);
    if steps != [] {
      var k := |steps| - 1;
      assert Extends(s, steps[..k], steps[k], c);
      var before :| Leads(s, steps[..k], before) && OwnStep(before, steps[k], c);
      LeadsIsRun(s, steps[..k], before);
      StepInv(before, steps[k]);
    }
  }

  /** Every look at herdr in the run came back with workspace labels. */
  ghost predicate Labelled(steps: seq<Step>)
    decreases |steps|
  {
    steps == [] || (Labelled(steps[..|steps| - 1]) && Informed(steps[|steps| - 1]))
  }

  predicate Informed(step: Step) {
    !(step.LookForPane? && step.lookup == NoLabels)
  }

  /** What a thread does under an agent's lock keeps rows and panes in agreement, as long as labels were available. */
  lemma {:induction false} OwnPathKeepsAgreement(s: Sys, steps: seq<Step>, c: Sys, strict: bool)
    requires Leads(s, steps, c) && Labelled(steps) && Agrees(s, strict) && Sound(s)
    ensures Agrees(c, strict) && Sound(c)
    decreases |steps|
  {
    assert EndsIn(s, steps, c);
    if steps != [] {
      var k := |steps| - 1;
      assert Extends(s, steps[..k], steps[k], c);
      var before :| Leads(s, steps[..k], before) && OwnStep(before, steps[k], c);
      OwnPathKeepsAgreement(s, steps[..k], before, strict);
      StepAgrees(before, steps[k], strict);
      StepSound(before, steps[k]);
    }
  }

  /** One more step of the thread. */
  lemma Then(s: Sys, steps: seq<Step>, c: Sys, step: Step, next: Sys) returns (steps': seq<Step>)
    requires Leads(s, steps, c) && OwnStep(c, step, next)
    ensures Leads(s, steps', next)
    ensures Labelled(steps) && Informed(step) ==> Labelled(steps')
  {
    steps' := steps + [step];
    assert steps'[..|steps|] == steps;
    assert EndsIn(s, steps, c);
    assert Extends(s, steps, step, next);
    assert EndsIn(s, steps', next);
  }

  /** The store and herdr are where the protocol state says. */
  ghost predicate Tracks(store: S.Store, herdr: Herdr, s: Sys)
    reads store, herdr
  {
    store.Agents() == s.t && herdr.world == s.world
  }

  // ---- the lock, and reaping under it ----

  lemma TakeLock(s: Sys, steps: seq<Step>, c: Sys, u: Uuid) returns (steps': seq<Step>)
    requires Leads(s, steps, c) && u in c.t.agents && u !in c.busy
    ensures Leads(s, steps', At(c, u, Locked)) && (Labelled(steps) ==> Labelled(steps'))
  {
    steps' := Then(s, steps, c, Lock(u), At(c, u, Locked));
  }

  lemma TakeRelease(s: Sys, steps: seq<Step>, c: Sys, u: Uuid) returns (steps': seq<Step>)
    requires Leads(s, steps, c) && u in c.t.agents && u in c.busy && (c.busy[u] == Locked || c.busy[u].Ready?)
    ensures Leads(s, steps', Unlock(c, u)) && (Labelled(steps) ==> Labelled(steps'))
  {
    steps' := Then(s, steps, c, Release(u), Unlock(c, u));
  }

  lemma TakeReap(s: Sys, steps: seq<Step>, c: Sys, u: Uuid) returns (steps': seq<Step>, c': Sys)
    requires Leads(s, steps, c) && u in c.t.agents && Holds(c, u, Locked)
    ensures Labelled(steps) ==> Labelled(steps')
    ensures Leads(s, steps', c') && c' == c.(t := EndIfStatus(c.t, u, Parked, "reaped").tables)
  {
    c' := DoHolder(c, Reap(u), c.busy[u]);
    steps' := Then(s, steps, c, Reap(u), c');
  }

  /** What every reachable row can be relied on for. */
  lemma RowKept(s: Sys, steps: seq<Step>, c: Sys, u: Uuid)
    requires Leads(s, steps, c) && u in c.t.agents
    ensures RowOk(c.t.agents[u]) && (c.t.agents[u].status != Ended ==> PathFree(c.t.agents, u, c.t.agents[u].path))
  {
    LeadsIsRun(s, steps, c);
  }

  // ---- park ----

  /** Where a move ended up, and when. */
  datatype Spot = Spot(terminal: string, pane: string, now: int)

  function ParkedRow(row: Agent, spot: Spot): Agent {
    row.(status := Parked, moveState := NotMoving, moveToken := None, parkedAt := Some(spot.now),
         terminal := Some(spot.terminal), pane := Some(spot.pane))
  }

  function HomeRow(row: Agent, spot: Spot): Agent {
    row.(status := Idle, moveState := NotMoving, moveToken := None, parkedAt := None, idleSince := Some(spot.now),
         terminal := Some(spot.terminal), pane := Some(spot.pane))
  }

  function MovingRow(row: Agent, move: MoveState, token: Token): Agent {
    row.(moveState := move, moveToken := Some(token))
  }

  /** A park that wins the lease and gets its answer parks the row; one without an answer leaves the lease in place. */
  ghost predicate ParkOutcome(c: Sys, c': Sys, u: Uuid, token: Token, hasPane: bool, reply: PaneMoves.Reply, spot: Spot)
    requires u in c.t.agents
  {
    var row := c.t.agents[u];
    if !WinsMove(c.t, u, Idle) || !hasPane then c'.t == c.t && c'.world == c.world
    else
      && c'.world == Moved(c, u, IDLE_WORKSPACE, reply).world
      && c'.t == Put(c.t, u, if reply == Acknowledged then ParkedRow(row, spot) else MovingRow(row, Parking, token))
  }

  /** Claiming the lease, from a row that nobody moves. */
  lemma ClaimLease(c: Sys, u: Uuid, from: Status, move: MoveState, token: Token, won: Pc, lost: Pc)
    requires u in c.t.agents && token !in c.leases
    ensures var c' := Begin(c, u, from, move, token, won, lost);
            if WinsMove(c.t, u, from) then
              c' == At(c, u, won).(t := Put(c.t, u, MovingRow(c.t.agents[u], move, token)),
                                   leases := c.leases[token := Lease(u, move)])
            else c' == At(c, u, lost)
  {
  }

  lemma TakeBeginPark(s: Sys, steps: seq<Step>, c: Sys, u: Uuid, token: Token) returns (steps': seq<Step>, c': Sys)
    requires Leads(s, steps, c) && u in c.t.agents && Holds(c, u, Locked) && token !in c.leases
    ensures Labelled(steps) ==> Labelled(steps')
    ensures Leads(s, steps', c') && c' == Begin(c, u, Idle, Parking, token, ParkWon(token), Locked)
  {
    c' := Begin(c, u, Idle, Parking, token, ParkWon(token), Locked);
    steps' := Then(s, steps, c, BeginPark(u, token), c');
  }

  lemma AbortParkDoes(c: Sys, u: Uuid, token: Token)
    requires u in c.t.agents && Holds(c, u, ParkWon(token))
    ensures DoHolder(c, AbortPark(u), c.busy[u]) == c.(t := RollbackMove(c.t, u, token).tables, busy := c.busy - {u})
  {
  }

  lemma TakeAbortPark(s: Sys, steps: seq<Step>, c: Sys, u: Uuid, token: Token) returns (steps': seq<Step>, c': Sys)
    requires Leads(s, steps, c) && u in c.t.agents && Holds(c, u, ParkWon(token))
    ensures Labelled(steps) ==> Labelled(steps')
    ensures Leads(s, steps', c') && c' == c.(t := RollbackMove(c.t, u, token).tables, busy := c.busy - {u})
  {
    AbortParkDoes(c, u, token);
    c' := c.(t := RollbackMove(c.t, u, token).tables, busy := c.busy - {u});
    steps' := Then(s, steps, c, AbortPark(u), c');
  }

  lemma TakeMoveToIdle(s: Sys, steps: seq<Step>, c: Sys, u: Uuid, token: Token, reply: PaneMoves.Reply)
    returns (steps': seq<Step>, c': Sys)
    requires Leads(s, steps, c) && u in c.t.agents && Holds(c, u, ParkWon(token))
    requires reply != NoEffect ==> u in c.world
    ensures Labelled(steps) ==> Labelled(steps')
    ensures Leads(s, steps', c')
    ensures c' == c.(world := Moved(c, u, IDLE_WORKSPACE, reply).world,
                     busy := if reply == Acknowledged then c.busy[u := ParkMoved(token)] else c.busy - {u})
  {
    c' := DoHolder(c, MoveToIdle(u, reply), c.busy[u]);
    steps' := Then(s, steps, c, MoveToIdle(u, reply), c');
  }

  lemma CommitParkDoes(c: Sys, u: Uuid, token: Token, spot: Spot)
    requires u in c.t.agents && Holds(c, u, ParkMoved(token))
    ensures DoHolder(c, CommitPark(u, spot.terminal, spot.pane, spot.now), c.busy[u])
         == c.(t := FinishPark(c.t, u, token, spot.terminal, spot.pane, spot.now).tables, busy := c.busy - {u})
  {
  }

  lemma TakeCommitPark(s: Sys, steps: seq<Step>, c: Sys, u: Uuid, token: Token, spot: Spot)
    returns (steps': seq<Step>, c': Sys)
    requires Leads(s, steps, c) && u in c.t.agents && Holds(c, u, ParkMoved(token))
    ensures Labelled(steps) ==> Labelled(steps')
    ensures Leads(s, steps', c')
    ensures c' == c.(t := FinishPark(c.t, u, token, spot.terminal, spot.pane, spot.now).tables, busy := c.busy - {u})
  {
    CommitParkDoes(c, u, token, spot);
    c' := c.(t := FinishPark(c.t, u, token, spot.terminal, spot.pane, spot.now).tables, busy := c.busy - {u});
    steps' := Then(s, steps, c, CommitPark(u, spot.terminal, spot.pane, spot.now), c');
  }

  /** Taking the lock and trying for the lease of a park. */
  lemma TakeLockAndClaim(s: Sys, steps: seq<Step>, c: Sys, u: Uuid, token: Token) returns (steps': seq<Step>, c': Sys)
    requires Leads(s, steps, c) && u in c.t.agents && u !in c.busy && token !in c.leases
    ensures Labelled(steps) ==> Labelled(steps')
    ensures Leads(s, steps', c') && c'.world == c.world && c'.busy - {u} == c.busy
    ensures if WinsMove(c.t, u, Idle) then
              c'.t == Put(c.t, u, MovingRow(c.t.agents[u], Parking, token)) && Holds(c', u, ParkWon(token))
            else c'.t == c.t && Holds(c', u, Locked)
  {
    var locked := At(c, u, Locked);
    steps' := TakeLock(s, steps, c, u);
    ClaimLease(locked, u, Idle, Parking, token, ParkWon(token), Locked);
    steps', c' := TakeBeginPark(s, steps', locked, u, token);
    PutTwice(c.busy, u, Locked, c'.busy[u]);
    PutAndRemove(c.busy, u, c'.busy[u]);
  }

  /** `park_one`: win the lease, move the pane to `idle`, commit; an error in between returns early. */
  method ParkOne(store: S.Store, herdr: Herdr, u: Uuid, hasPane: bool, token: Token, reply: PaneMoves.Reply, spot: Spot,
                 ghost s: Sys, ghost before: seq<Step>, ghost c: Sys)
    returns (ghost steps: seq<Step>, ghost c': Sys)
    requires Leads(s, before, c) && Tracks(store, herdr, c) && u in c.t.agents && u !in c.busy
    requires token !in c.leases && (reply != NoEffect ==> u in c.world)
    modifies store, herdr
    ensures Labelled(before) ==> Labelled(steps)
    ensures Leads(s, steps, c') && Tracks(store, herdr, c') && c'.busy == c.busy
    ensures ParkOutcome(c, c', u, token, hasPane, reply, spot)
  {
    RowKept(s, before, c, u);
    steps, c' := TakeLockAndClaim(s, before, c, u, token);
    var won := store.BeginMove(u, Idle, Parking, token);
    if !won {
      steps := TakeRelease(s, steps, c', u);
      c' := Unlock(c', u);
      return;
    }
    if !hasPane {
      ClaimUndone(c.t, u, Parking, token);
      steps, c' := TakeAbortPark(s, steps, c', u, token);
      var _ := store.RollbackMove(u, token);
      return;
    }
    PutMoving(c.t, u, c.t.agents[u], Parking, token, spot);
    steps, c' := MoveAndPark(store, herdr, u, token, reply, spot, s, steps, c');
  }

  lemma PutAndRemove(busy: map<Uuid, Pc>, u: Uuid, pc: Pc)
    ensures busy[u := pc] - {u} == busy - {u}
    ensures u !in busy ==> busy - {u} == busy
  {
  }

  lemma PutTwice(busy: map<Uuid, Pc>, u: Uuid, first: Pc, pc: Pc)
    ensures busy[u := first][u := pc] == busy[u := pc]
  {
  }

  /** The last write of a row is what counts, and finishing a move forgets the lease it was made under. */
  lemma PutMoving(t: AgentTables, u: Uuid, row: Agent, move: MoveState, token: Token, spot: Spot)
    ensures forall a, b :: Put(Put(t, u, a), u, b) == Put(t, u, b)
    ensures ParkedRow(MovingRow(row, move, token), spot) == ParkedRow(row, spot)
    ensures HomeRow(MovingRow(row, move, token), spot) == HomeRow(row, spot)
  {
    forall a, b
      ensures Put(Put(t, u, a), u, b) == Put(t, u, b)
    {
      assert t.agents[u := a][u := b] == t.agents[u := b];
    }
  }

  /** Giving the lease back restores the row. */
  lemma ClaimUndone(t: AgentTables, u: Uuid, move: MoveState, token: Token)
    requires u in t.agents && t.agents[u].moveState == NotMoving && t.agents[u].moveToken.None?
    ensures RollbackMove(Put(t, u, MovingRow(t.agents[u], move, token)), u, token).tables == t
  {
    assert t.agents[u := MovingRow(t.agents[u], move, token)][u := t.agents[u]] == t.agents;
  }

  /** The second half of a park, with the lease won. */
  method MoveAndPark(store: S.Store, herdr: Herdr, u: Uuid, token: Token, reply: PaneMoves.Reply, spot: Spot,
                     ghost s: Sys, ghost before: seq<Step>, ghost c: Sys)
    returns (ghost steps: seq<Step>, ghost c': Sys)
    requires Leads(s, before, c) && Tracks(store, herdr, c) && u in c.t.agents && Holds(c, u, ParkWon(token))
    requires HoldsToken(c.t, u, token) && c.t.agents[u].status == Idle && (reply != NoEffect ==> u in c.world)
    modifies store, herdr
    ensures Labelled(before) ==> Labelled(steps)
    ensures Leads(s, steps, c') && Tracks(store, herdr, c') && c'.busy == c.busy - {u}
    ensures c'.world == Moved(c, u, IDLE_WORKSPACE, reply).world
    ensures c'.t == if reply == Acknowledged then Put(c.t, u, ParkedRow(c.t.agents[u], spot)) else c.t
  {
    RowKept(s, before, c, u);
    steps, c' := TakeMoveToIdle(s, before, c, u, token, reply);
    var moved := herdr.MovePane(u, IDLE_WORKSPACE, reply);
    if !moved {
      return;
    }
    steps, c' := TakeCommitPark(s, steps, c', u, token, spot);
    var _ := store.FinishPark(u, token, spot.terminal, spot.pane, spot.now);
  }

  // ---- recovery ----

  /** The tables after a recovery that saw `view`. */
  function RecoveredTables(c: Sys, u: Uuid, token: Token, view: View, spot: Spot): AgentTables
    requires u in c.t.agents && token in c.leases
  {
    var move := c.leases[token].move;
    if view == Missing then TransitionStatus(RollbackMove(c.t, u, token).tables, u, Lost, None).tables
    else if move == Parking && view == InWorkspace(IDLE_WORKSPACE) then
      FinishPark(c.t, u, token, spot.terminal, spot.pane, spot.now).tables
    else if move == Unparking && view == InWorkspace(Home(c.t, u)) then
      FinishUnpark(c.t, u, token, spot.terminal, spot.pane, spot.now).tables
    else RollbackMove(c.t, u, token).tables
  }

  /** The token is still on record although the recovery wrote: the path index turned the write down. */
  predicate Refused(c: Sys, u: Uuid, token: Token, view: View, spot: Spot)
    requires u in c.t.agents && token in c.leases
  {
    HoldsToken(RecoveredTables(c, u, token, view, spot), u, token)
  }

  /**
   * What a recovery makes of a row that holds the token and has not ended: lost when the pane was not found, parked
   * or home when the pane arrived, and otherwise back where it was, with no move in flight in any case. A token that
   * is no longer the row's changes nothing, except that a pane not found still makes the agent lost.
   */
  lemma RecoveredRow(c: Sys, u: Uuid, token: Token, view: View, spot: Spot)
    requires Inv(c.t) && u in c.t.agents && token in c.leases && c.t.agents[u].status != Ended
    ensures var row, move := c.t.agents[u], c.leases[token].move;
            var settled :=
              if view == Missing then row.(status := Lost, moveState := NotMoving, moveToken := None)
              else if move == Parking && view == InWorkspace(IDLE_WORKSPACE) then ParkedRow(row, spot)
              else if move == Unparking && view.InWorkspace? && Paths.IsHome(row.path, view.ws) then HomeRow(row, spot)
              else row.(moveState := NotMoving, moveToken := None);
            RecoveredTables(c, u, token, view, spot)
              == if HoldsToken(c.t, u, token) then Put(c.t, u, settled)
                 else if view == Missing then Put(c.t, u, row.(status := Lost)) else c.t
  {
    assert PathFree(c.t.agents, u, c.t.agents[u].path);
    if view == Missing {
      LostSide(c, u, token, spot);
    } else {
      FoundSide(c, u, token, view, spot);
    }
  }

  lemma LostSide(c: Sys, u: Uuid, token: Token, spot: Spot)
    requires u in c.t.agents && token in c.leases && PathFree(c.t.agents, u, c.t.agents[u].path)
    ensures var row := c.t.agents[u];
            RecoveredTables(c, u, token, Missing, spot)
              == Put(c.t, u, if HoldsToken(c.t, u, token)
                             then row.(status := Lost, moveState := NotMoving, moveToken := None)
                             else row.(status := Lost))
  {
    var t1 := RollbackMove(c.t, u, token).tables;
    assert PathFree(t1.agents, u, t1.agents[u].path);
  }

  lemma FoundSide(c: Sys, u: Uuid, token: Token, view: View, spot: Spot)
    requires u in c.t.agents && token in c.leases && PathFree(c.t.agents, u, c.t.agents[u].path) && view != Missing
    ensures var row, move := c.t.agents[u], c.leases[token].move;
            var settled :=
              if move == Parking && view == InWorkspace(IDLE_WORKSPACE) then ParkedRow(row, spot)
              else if move == Unparking && view.InWorkspace? && Paths.IsHome(row.path, view.ws) then HomeRow(row, spot)
              else row.(moveState := NotMoving, moveToken := None);
            RecoveredTables(c, u, token, view, spot) == if HoldsToken(c.t, u, token) then Put(c.t, u, settled) else c.t
  {
    if view.InWorkspace? {
      Paths.HomeIsHome(c.t.agents[u].path, view.ws);
    }
  }

  lemma RecoveryTables(c: Sys, u: Uuid, token: Token, view: View, spot: Spot)
    requires u in c.t.agents && token in c.leases
    ensures var t1 := ApplyRow(c.t, RecoveryOp(c, u, token, view, spot.terminal, spot.pane, spot.now)).tables;
            && RecoveredTables(c, u, token, view, spot)
                 == (if view == Missing then ApplyRow(t1, OpTransition(u, Lost, None)).tables else t1)
            && (HoldsToken(t1, u, token) <==> Refused(c, u, token, view, spot))
  {
  }

  /** The state after a recovery by the lock holder: an un-park reads the row again, others are done. */
  function RecoveredSys(c: Sys, u: Uuid, token: Token, view: View, unparking: bool, spot: Spot): Sys
    requires u in c.t.agents && token in c.leases
  {
    At(c.(t := RecoveredTables(c, u, token, view, spot)), u,
       if unparking then Settling(Refused(c, u, token, view, spot)) else Locked)
  }

  lemma CommitRecoveryDoes(c: Sys, u: Uuid, token: Token, view: View, unparking: bool, spot: Spot)
    requires u in c.t.agents && Holds(c, u, Saw(token, view, unparking)) && token in c.leases
    ensures DoHolder(c, CommitRecovery(u, spot.terminal, spot.pane, spot.now), c.busy[u])
         == RecoveredSys(c, u, token, view, unparking, spot)
  {
    RecoveryTables(c, u, token, view, spot);
  }

  /** Looking and writing. */
  lemma TakeRecovery(s: Sys, steps: seq<Step>, c: Sys, u: Uuid, token: Token, unparking: bool, lookup: Lookup,
                     spot: Spot)
    returns (steps': seq<Step>)
    requires Leads(s, steps, c) && u in c.t.agents && Holds(c, u, Inspect(token, unparking)) && token in c.leases
    ensures lookup != NoLabels && Labelled(steps) ==> Labelled(steps')
    ensures Leads(s, steps', RecoveredSys(c, u, token, ViewOf(c, u, lookup), unparking, spot))
  {
    var view := ViewOf(c, u, lookup);
    var looked := At(c, u, Saw(token, view, unparking));
    LookTaken(c, u, lookup);
    steps' := Then(s, steps, c, LookForPane(u, lookup), looked);
    CommitRecoveryDoes(looked, u, token, view, unparking, spot);
    RecoveredFrom(c, looked, u, token, view, unparking, spot);
    steps' := Then(s, steps', looked, CommitRecovery(u, spot.terminal, spot.pane, spot.now),
                   RecoveredSys(looked, u, token, view, unparking, spot));
  }

  /** Recovery reads neither locks nor program counters. */
  lemma RecoveredFrom(c: Sys, c': Sys, u: Uuid, token: Token, view: View, unparking: bool, spot: Spot)
    requires u in c.t.agents && token in c.leases && exists pc :: c' == At(c, u, pc)
    ensures RecoveredSys(c', u, token, view, unparking, spot) == RecoveredSys(c, u, token, view, unparking, spot)
    ensures Refused(c', u, token, view, spot) <==> Refused(c, u, token, view, spot)
    ensures u in RecoveredTables(c, u, token, view, spot).agents
  {
    var pc :| c' == At(c, u, pc);
    PutTwice(c.busy, u, pc, if unparking then Settling(Refused(c, u, token, view, spot)) else Locked);
  }

  /**
   * `recover_one_move_locked`, with the lock held, from a snapshot of the row: the pane's workspace decides.
   * `repaired` is whether this call settled the move by a write other than the loss of its pane.
   */
  method RecoverLocked(store: S.Store, herdr: Herdr, u: Uuid, snapshot: Agent, unparking: bool, lookup: Lookup,
                       spot: Spot,
                       ghost s: Sys, ghost before: seq<Step>, ghost c: Sys)
    returns (repaired: bool, ghost steps: seq<Step>, ghost c': Sys)
    requires Leads(s, before, c) && Tracks(store, herdr, c) && u in c.t.agents && snapshot.path == c.t.agents[u].path
    requires snapshot.moveToken.Some? ==>
               && Holds(c, u, Inspect(snapshot.moveToken.value, unparking)) && snapshot.moveToken.value in c.leases
               && c.leases[snapshot.moveToken.value] == Lease(u, snapshot.moveState)
    modifies store
    ensures lookup != NoLabels && Labelled(before) ==> Labelled(steps)
    ensures Leads(s, steps, c') && Tracks(store, herdr, c')
    ensures match snapshot.moveToken
            case None => c' == c && !repaired
            case Some(token) =>
              var view := ViewOf(c, u, lookup);
              && c' == RecoveredSys(c, u, token, view, unparking, spot)
              && (repaired <==> view != Missing && HoldsToken(c.t, u, token) && !Refused(c, u, token, view, spot))
  {
    steps, c', repaired := before, c, false;
    if snapshot.moveToken.None? {
      return;
    }
    var token := snapshot.moveToken.value;
    steps := TakeRecovery(s, steps, c, u, token, unparking, lookup, spot);
    var view := herdr.Look(u, lookup);
    c' := RecoveredSys(c, u, token, view, unparking, spot);
    repaired := CommitSide(store, u, snapshot.moveState, token, view, Paths.HomeWorkspace(snapshot.path), spot);
  }

  /** The store writes of a recovery, by what was seen. */
  method CommitSide(store: S.Store, u: Uuid, move: MoveState, token: Token, view: View, home: string, spot: Spot)
    returns (repaired: bool)
    modifies store
    ensures var t := old(store.Agents());
            && store.Agents() ==
                 (if view == Missing then TransitionStatus(RollbackMove(t, u, token).tables, u, Lost, None).tables
                  else if move == Parking && view == InWorkspace(IDLE_WORKSPACE) then
                    FinishPark(t, u, token, spot.terminal, spot.pane, spot.now).tables
                  else if move == Unparking && view == InWorkspace(home) then
                    FinishUnpark(t, u, token, spot.terminal, spot.pane, spot.now).tables
                  else RollbackMove(t, u, token).tables)
            && (repaired <==> view != Missing && HoldsToken(t, u, token) && !HoldsToken(store.Agents(), u, token))
  {
    repaired := false;
    if view == Missing {
      var _ := store.RollbackMove(u, token);
      var _ := store.TransitionStatus(u, Lost, None);
    } else if move == Parking && view == InWorkspace(IDLE_WORKSPACE) {
      var reply := store.FinishPark(u, token, spot.terminal, spot.pane, spot.now);
      repaired := reply.Fine? && reply.value > 0;
    } else if move == Unparking && view == InWorkspace(home) {
      var reply := store.FinishUnpark(u, token, spot.terminal, spot.pane, spot.now);
      repaired := reply.Fine? && reply.value > 0;
    } else {
      repaired := store.RollbackMove(u, token);
    }
  }

  lemma TakeBeginRecovery(s: Sys, steps: seq<Step>, c: Sys, u: Uuid, token: Token) returns (steps': seq<Step>)
    requires Leads(s, steps, c) && u in c.t.agents && Holds(c, u, Locked) && token in c.leases
    requires c.leases[token].agent == u
    ensures Leads(s, steps', At(c, u, Inspect(token, false))) && (Labelled(steps) ==> Labelled(steps'))
  {
    steps' := Then(s, steps, c, BeginRecovery(u, token), At(c, u, Inspect(token, false)));
  }

  /** `recover_one_move`: the same under the agent's own lock. */
  method RecoverOne(store: S.Store, herdr: Herdr, u: Uuid, snapshot: Agent, lookup: Lookup, spot: Spot,
                    ghost s: Sys, ghost before: seq<Step>, ghost c: Sys)
    returns (repaired: bool, ghost steps: seq<Step>, ghost c': Sys)
    requires Leads(s, before, c) && Tracks(store, herdr, c) && u in c.t.agents && u !in c.busy
    requires snapshot.path == c.t.agents[u].path
    requires snapshot.moveToken.Some? ==>
               && snapshot.moveToken.value in c.leases
               && c.leases[snapshot.moveToken.value] == Lease(u, snapshot.moveState)
    modifies store
    ensures lookup != NoLabels && Labelled(before) ==> Labelled(steps)
    ensures Leads(s, steps, c') && Tracks(store, herdr, c')
    ensures match snapshot.moveToken
            case None => c' == c && !repaired
            case Some(token) =>
              var view := ViewOf(c, u, lookup);
              && c' == c.(t := RecoveredTables(c, u, token, view, spot))
              && (repaired <==> view != Missing && HoldsToken(c.t, u, token) && !Refused(c, u, token, view, spot))
  {
    PutAndRemove(c.busy, u, Locked);
    steps := TakeLock(s, before, c, u);
    c' := At(c, u, Locked);
    if snapshot.moveToken.Some? {
      PutTwice(c.busy, u, Locked, Inspect(snapshot.moveToken.value, false));
      steps := TakeBeginRecovery(s, steps, c', u, snapshot.moveToken.value);
      c' := At(c, u, Inspect(snapshot.moveToken.value, false));
    }
    ghost var mid := c';
    repaired, steps, c' := RecoverLocked(store, herdr, u, snapshot, false, lookup, spot, s, steps, c');
    if snapshot.moveToken.Some? {
      RecoveredSame(c, mid, u, snapshot.moveToken.value, ViewOf(c, u, lookup), spot);
    }
    steps := TakeRelease(s, steps, c', u);
    c' := Unlock(c', u);
  }

  /** Recovery reads neither locks nor program counters. */
  lemma RecoveredSame(c: Sys, c': Sys, u: Uuid, token: Token, view: View, spot: Spot)
    requires u in c.t.agents && token in c.leases && c'.t == c.t && c'.leases == c.leases
    ensures RecoveredTables(c', u, token, view, spot) == RecoveredTables(c, u, token, view, spot)
    ensures Refused(c', u, token, view, spot) <==> Refused(c, u, token, view, spot)
    ensures u in RecoveredTables(c, u, token, view, spot).agents
  {
  }

  // ---- un-park ----

  /** The tables once a move in flight has been settled. */
  function SettledTables(c: Sys, u: Uuid, lookup: Lookup, spot: Spot): AgentTables
    requires u in c.t.agents && (c.t.agents[u].moveToken.Some? ==> c.t.agents[u].moveToken.value in c.leases)
  {
    match c.t.agents[u].moveToken
    case None => c.t
    case Some(token) => RecoveredTables(c, u, token, ViewOf(c, u, lookup), spot)
  }

  /** Did the path index turn down the write that settles the move? */
  predicate SettleRefused(c: Sys, u: Uuid, lookup: Lookup, spot: Spot)
    requires u in c.t.agents && (c.t.agents[u].moveToken.Some? ==> c.t.agents[u].moveToken.value in c.leases)
  {
    match c.t.agents[u].moveToken
    case None => false
    case Some(token) => Refused(c, u, token, ViewOf(c, u, lookup), spot)
  }

  /**
   * Where an un-park leaves the tables `t` of the settled row: untouched unless the row is parked. A parked one is
   * idle at home when herdr answered; otherwise it is left with its lease, and the un-park fails.
   */
  function UnparkedTables(t: AgentTables, u: Uuid, hasPane: bool, token: Token, reply: PaneMoves.Reply, spot: Spot)
    : AgentTables
    requires u in t.agents
  {
    if t.agents[u].status != Parked then t
    else Put(t, u, if hasPane && reply == Acknowledged then HomeRow(t.agents[u], spot)
                   else MovingRow(t.agents[u], Unparking, token))
  }

  /** In columns: an agent that was brought home is idle where it landed, any other parked one stays and is leased. */
  lemma UnparkedRow(t: AgentTables, u: Uuid, hasPane: bool, token: Token, reply: PaneMoves.Reply, spot: Spot)
    requires u in t.agents
    ensures var t', row := UnparkedTables(t, u, hasPane, token, reply, spot), t.agents[u];
            && t'.turns == t.turns && t'.agents.Keys == t.agents.Keys
            && (forall v :: v in t.agents && v != u ==> t'.agents[v] == t.agents[v])
            && (row.status != Parked ==> t'.agents[u] == row)
            && (row.status == Parked && hasPane && reply == Acknowledged ==>
                  t'.agents[u] == row.(status := Idle, moveState := NotMoving, moveToken := None, parkedAt := None,
                                       idleSince := Some(spot.now), terminal := Some(spot.terminal),
                                       pane := Some(spot.pane)))
            && (row.status == Parked && !(hasPane && reply == Acknowledged) ==>
                  t'.agents[u] == row.(moveState := Unparking, moveToken := Some(token)))
  {
  }

  lemma TakeReadAgain(s: Sys, steps: seq<Step>, c: Sys, u: Uuid, refused: bool) returns (steps': seq<Step>)
    requires Leads(s, steps, c) && u in c.t.agents && Holds(c, u, Settling(refused))
    ensures Labelled(steps) ==> Labelled(steps')
    ensures Leads(s, steps', At(c, u, if c.t.agents[u].status != Parked then Ready(refused) else Claiming))
  {
    var read := At(c, u, if c.t.agents[u].status != Parked then Ready(refused) else Claiming);
    steps' := Then(s, steps, c, ReadAgain(u), read);
  }

  lemma TakeBeginUnpark(s: Sys, steps: seq<Step>, c: Sys, u: Uuid, token: Token) returns (steps': seq<Step>, c': Sys)
    requires Leads(s, steps, c) && u in c.t.agents && Holds(c, u, Claiming) && token !in c.leases
    ensures Labelled(steps) ==> Labelled(steps')
    ensures Leads(s, steps', c') && c' == Begin(c, u, Parked, Unparking, token, UnparkWon(token), Ready(false))
  {
    c' := Begin(c, u, Parked, Unparking, token, UnparkWon(token), Ready(false));
    steps' := Then(s, steps, c, BeginUnpark(u, token), c');
  }

  lemma TakeMoveHome(s: Sys, steps: seq<Step>, c: Sys, u: Uuid, token: Token, reply: PaneMoves.Reply)
    returns (steps': seq<Step>, c': Sys)
    requires Leads(s, steps, c) && u in c.t.agents && Holds(c, u, UnparkWon(token))
    requires reply != NoEffect ==> u in c.world
    ensures Labelled(steps) ==> Labelled(steps')
    ensures Leads(s, steps', c')
    ensures c' == c.(world := Moved(c, u, Home(c.t, u), reply).world,
                     busy := if reply == Acknowledged then c.busy[u := UnparkMoved(token)] else c.busy - {u})
  {
    c' := DoHolder(c, MoveHome(u, reply), c.busy[u]);
    steps' := Then(s, steps, c, MoveHome(u, reply), c');
  }

  lemma CommitUnparkDoes(c: Sys, u: Uuid, token: Token, spot: Spot)
    requires u in c.t.agents && Holds(c, u, UnparkMoved(token))
    requires !HoldsToken(FinishUnpark(c.t, u, token, spot.terminal, spot.pane, spot.now).tables, u, token)
    ensures DoHolder(c, CommitUnpark(u, spot.terminal, spot.pane, spot.now), c.busy[u])
         == At(c, u, Ready(false)).(t := FinishUnpark(c.t, u, token, spot.terminal, spot.pane, spot.now).tables)
  {
  }

  lemma TakeCommitUnpark(s: Sys, steps: seq<Step>, c: Sys, u: Uuid, token: Token, spot: Spot)
    returns (steps': seq<Step>, c': Sys)
    requires Leads(s, steps, c) && u in c.t.agents && Holds(c, u, UnparkMoved(token))
    requires !HoldsToken(FinishUnpark(c.t, u, token, spot.terminal, spot.pane, spot.now).tables, u, token)
    ensures Labelled(steps) ==> Labelled(steps')
    ensures Leads(s, steps', c')
    ensures c' == At(c, u, Ready(false)).(t := FinishUnpark(c.t, u, token, spot.terminal, spot.pane, spot.now).tables)
  {
    CommitUnparkDoes(c, u, token, spot);
    c' := At(c, u, Ready(false)).(t := FinishUnpark(c.t, u, token, spot.terminal, spot.pane, spot.now).tables);
    steps' := Then(s, steps, c, CommitUnpark(u, spot.terminal, spot.pane, spot.now), c');
  }

  /**
   * `unpark_for_send`, with the lock held and the row just read: settle a move in flight, then bring a parked pane
   * home. On success the agent is not parked and, unless it had ended, nobody is moving it; the pane of an agent that
   * was parked then sits in the workspace named by its path.
   */
  method UnparkForSend(store: S.Store, herdr: Herdr, u: Uuid, snapshot: Agent, lookup: Lookup, found: Spot,
                       hasPane: bool,
                       token: Token, reply: PaneMoves.Reply, landed: Spot,
                       ghost s: Sys, ghost before: seq<Step>, ghost c: Sys)
    returns (ok: bool, ghost steps: seq<Step>, ghost c': Sys)
    requires Leads(s, before, c) && Tracks(store, herdr, c) && u in c.t.agents && snapshot == c.t.agents[u]
    requires token !in c.leases && (reply != NoEffect ==> u in c.world)
    requires snapshot.moveToken.Some? ==>
               && snapshot.moveToken.value in c.leases
               && c.leases[snapshot.moveToken.value] == Lease(u, snapshot.moveState)
    requires Holds(c, u, if snapshot.moveToken.Some? then Inspect(snapshot.moveToken.value, true) else Settling(false))
    modifies store, herdr
    ensures lookup != NoLabels && Labelled(before) ==> Labelled(steps)
    ensures Leads(s, steps, c') && Tracks(store, herdr, c') && u in SettledTables(c, u, lookup, found).agents
    ensures var t := SettledTables(c, u, lookup, found);
            var parked := t.agents[u].status == Parked;
            && (ok <==> !parked || (hasPane && reply == Acknowledged))
            && c'.t == UnparkedTables(t, u, hasPane, token, reply, landed)
            && c'.world == (if parked && hasPane then Moved(c, u, Home(c.t, u), reply).world else c.world)
            && c'.busy == if ok then c.busy[u := Ready(SettleRefused(c, u, lookup, found))] else c.busy - {u}
    ensures ok ==> u in c'.t.agents && c'.t.agents[u].status != Parked
                   && c'.t.agents[u].managed == snapshot.managed
                   && (snapshot.status != Ended ==> c'.t.agents[u].moveState == NotMoving)
    ensures ok && SettledTables(c, u, lookup, found).agents[u].status == Parked ==>
              u in c'.world && Paths.IsHome(snapshot.path, c'.world[u])
  {
    SettledOnRun(s, before, c, u, lookup, found);
    steps, c' := before, c;
    if snapshot.moveState != NotMoving {
      var repaired;
      repaired, steps, c' := RecoverLocked(store, herdr, u, snapshot, true, lookup, found, s, steps, c');
    }
    ghost var refused := SettleRefused(c, u, lookup, found);
    assert c' == At(c, u, Settling(refused)).(t := SettledTables(c, u, lookup, found));
    steps := TakeReadAgain(s, steps, c', u, refused);
    PutTwice(c.busy, u, Settling(refused), Ready(refused));
    PutTwice(c.busy, u, Settling(refused), Claiming);
    if store.agents[u].status != Parked {
      c' := At(c', u, Ready(refused));
      return true, steps, c';
    }
    c' := At(c', u, Claiming);
    ok, steps, c' := BringHome(store, herdr, u, hasPane, token, reply, landed, s, steps, c');
    PutTwice(c.busy, u, Claiming, Ready(false));
    PutAndRemove(c.busy, u, Claiming);
    Paths.HomeIsHome(snapshot.path, Home(c.t, u));
  }

  /** A settled row is not being moved, unless it had ended and the write was refused, which leaves it as it was. */
  lemma SettledRow(c: Sys, u: Uuid, lookup: Lookup, spot: Spot)
    requires Inv(c.t) && u in c.t.agents
    requires c.t.agents[u].moveToken.Some? ==> c.t.agents[u].moveToken.value in c.leases
    ensures var t := SettledTables(c, u, lookup, spot);
            && u in t.agents && t.agents[u].path == c.t.agents[u].path
            && (t.agents[u].status == Parked || c.t.agents[u].status != Ended ==>
                  && t.agents[u].moveState == NotMoving && t.agents[u].moveToken.None?
                  && !SettleRefused(c, u, lookup, spot))
  {
    assert RowOk(c.t.agents[u]);
    if c.t.agents[u].moveToken.Some? {
      var token := c.t.agents[u].moveToken.value;
      RecoveredSame(c, c, u, token, ViewOf(c, u, lookup), spot);
      if c.t.agents[u].status != Ended {
        RecoveredRow(c, u, token, ViewOf(c, u, lookup), spot);
      } else {
        EndedRecovers(c, u, token, ViewOf(c, u, lookup), spot);
      }
    }
  }

  lemma SettledOnRun(s: Sys, steps: seq<Step>, c: Sys, u: Uuid, lookup: Lookup, spot: Spot)
    requires Leads(s, steps, c) && u in c.t.agents
    requires c.t.agents[u].moveToken.Some? ==> c.t.agents[u].moveToken.value in c.leases
    ensures RowOk(c.t.agents[u])
    ensures var t := SettledTables(c, u, lookup, spot);
            && u in t.agents && t.agents[u].path == c.t.agents[u].path && t.agents[u].managed == c.t.agents[u].managed
            && (t.agents[u].status == Parked || c.t.agents[u].status != Ended ==>
                  && t.agents[u].moveState == NotMoving && t.agents[u].moveToken.None?
                  && !SettleRefused(c, u, lookup, spot))
  {
    LeadsIsRun(s, steps, c);
    SettledRow(c, u, lookup, spot);
    SettledSame(c, u, lookup, spot);
  }

  lemma SettledSame(c: Sys, u: Uuid, lookup: Lookup, spot: Spot)
    requires u in c.t.agents && (c.t.agents[u].moveToken.Some? ==> c.t.agents[u].moveToken.value in c.leases)
    ensures u in SettledTables(c, u, lookup, spot).agents
    ensures SettledTables(c, u, lookup, spot).agents[u].managed == c.t.agents[u].managed
  {
  }

  lemma EndedRecovers(c: Sys, u: Uuid, token: Token, view: View, spot: Spot)
    requires u in c.t.agents && token in c.leases && HoldsToken(c.t, u, token) && c.t.agents[u].status == Ended
    ensures var t := RecoveredTables(c, u, token, view, spot);
            && u in t.agents && t.agents[u].path == c.t.agents[u].path
            && (t.agents[u].status == Parked ==> t.agents[u].moveState == NotMoving && t.agents[u].moveToken.None?)
  {
  }

  /** The two-phase move of a parked pane back to its home workspace. */
  method BringHome(store: S.Store, herdr: Herdr, u: Uuid, hasPane: bool, token: Token, reply: PaneMoves.Reply,
                   spot: Spot,
                   ghost s: Sys, ghost before: seq<Step>, ghost c: Sys)
    returns (ok: bool, ghost steps: seq<Step>, ghost c': Sys)
    requires Leads(s, before, c) && Tracks(store, herdr, c) && u in c.t.agents && Holds(c, u, Claiming)
    requires c.t.agents[u].status == Parked && c.t.agents[u].moveState == NotMoving
    requires token !in c.leases && (reply != NoEffect ==> u in c.world)
    modifies store, herdr
    ensures Labelled(before) ==> Labelled(steps)
    ensures Leads(s, steps, c') && Tracks(store, herdr, c')
    ensures ok <==> hasPane && reply == Acknowledged
    ensures c'.t == UnparkedTables(c.t, u, hasPane, token, reply, spot)
    ensures c'.world == if hasPane then Moved(c, u, Home(c.t, u), reply).world else c.world
    ensures c'.busy == if ok then c.busy[u := Ready(false)] else c.busy - {u}
  {
    var home := Paths.HomeWorkspace(store.agents[u].path);
    ClaimLease(c, u, Parked, Unparking, token, UnparkWon(token), Ready(false));
    steps, c' := TakeBeginUnpark(s, before, c, u, token);
    var won := store.BeginMove(u, Parked, Unparking, token);
    if !won {
      return true, steps, c';
    }
    PutTwice(c.busy, u, UnparkWon(token), Ready(false));
    PutAndRemove(c.busy, u, UnparkWon(token));
    PutMoving(c.t, u, c.t.agents[u], Unparking, token, spot);
    ok, steps, c' := CarryHome(store, herdr, u, home, token, if hasPane then reply else NoEffect, spot, s, steps, c');
  }

  /** The second half of an un-park, with the lease won; without a pane there is nothing to move. */
  method CarryHome(store: S.Store, herdr: Herdr, u: Uuid, home: string, token: Token, reply: PaneMoves.Reply,
                   spot: Spot,
                   ghost s: Sys, ghost before: seq<Step>, ghost c: Sys)
    returns (ok: bool, ghost steps: seq<Step>, ghost c': Sys)
    requires Leads(s, before, c) && Tracks(store, herdr, c) && u in c.t.agents && Holds(c, u, UnparkWon(token))
    requires HoldsToken(c.t, u, token) && c.t.agents[u].status == Parked
    requires home == Home(c.t, u) && (reply != NoEffect ==> u in c.world)
    modifies store, herdr
    ensures Labelled(before) ==> Labelled(steps)
    ensures Leads(s, steps, c') && Tracks(store, herdr, c')
    ensures ok <==> reply == Acknowledged
    ensures c'.t == if ok then Put(c.t, u, HomeRow(c.t.agents[u], spot)) else c.t
    ensures c'.world == Moved(c, u, home, reply).world
    ensures c'.busy == if ok then c.busy[u := Ready(false)] else c.busy - {u}
  {
    RowKept(s, before, c, u);
    steps, c' := TakeMoveHome(s, before, c, u, token, reply);
    ok := herdr.MovePane(u, home, reply);
    if !ok {
      return;
    }
    PutTwice(c.busy, u, UnparkMoved(token), Ready(false));
    steps, c' := TakeCommitUnpark(s, steps, c', u, token, spot);
    var _ := store.FinishUnpark(u, token, spot.terminal, spot.pane, spot.now);
  }

  // ---- send ----

  lemma TakeEnter(s: Sys, steps: seq<Step>, c: Sys, u: Uuid, sending: bool) returns (steps': seq<Step>)
    requires Leads(s, steps, c) && u in c.t.agents && Holds(c, u, Locked)
    ensures Leads(s, steps', At(c, u, Entered(c.t.agents[u], sending))) && (Labelled(steps) ==> Labelled(steps'))
  {
    steps' := Then(s, steps, c, EnterUnpark(u, sending), At(c, u, Entered(c.t.agents[u], sending)));
  }

  lemma TakeDeliver(s: Sys, steps: seq<Step>, c: Sys, u: Uuid, at: int) returns (steps': seq<Step>, c': Sys)
    requires Leads(s, steps, c) && u in c.t.agents && u in c.busy && c.busy[u].Ready?
    ensures Leads(s, steps', c') && (Labelled(steps) ==> Labelled(steps'))
    ensures c' == c.(t := DeliverInput(c.t, u, Orcr, at).tables, busy := c.busy - {u})
  {
    c' := DoHolder(c, PaneMoves.Deliver(u, at), c.busy[u]);
    steps' := Then(s, steps, c, PaneMoves.Deliver(u, at), c');
  }

  /** Whatever runs from here, a settled status means that turn `n` or a later one has completed. */
  ghost predicate AnsweredHonestly(t: AgentTables, u: Uuid, n: nat) {
    Inv(t) && T.AlwaysHonest(t, u, n)
  }

  /** The tables a send finds once it has un-parked its agent. */
  function SendTables(c: Sys, u: Uuid, lookup: Lookup, found: Spot, hasPane: bool, token: Token, reply: PaneMoves.Reply,
                      landed: Spot): (t: AgentTables)
    requires u in c.t.agents && (c.t.agents[u].moveToken.Some? ==> c.t.agents[u].moveToken.value in c.leases)
    ensures u in t.agents
  {
    var settled := SettledTables(c, u, lookup, found);
    if u in settled.agents then UnparkedTables(settled, u, hasPane, token, reply, landed) else c.t
  }

  /** A send first settles the move in flight, if any, and then un-parks. */
  lemma SendSettlesFirst(c: Sys, u: Uuid, lookup: Lookup, found: Spot, hasPane: bool, token: Token,
                         reply: PaneMoves.Reply, landed: Spot)
    requires u in c.t.agents && (c.t.agents[u].moveToken.Some? ==> c.t.agents[u].moveToken.value in c.leases)
    ensures var row := c.t.agents[u];
            var settled := if row.moveToken == None then c.t
                           else RecoveredTables(c, u, row.moveToken.value, ViewOf(c, u, lookup), found);
            u in settled.agents && SendTables(c, u, lookup, found, hasPane, token, reply, landed)
                                     == UnparkedTables(settled, u, hasPane, token, reply, landed)
  {
    SettledSame(c, u, lookup, found);
  }

  /**
   * `handle_agent_send` for a managed agent, from taking the lock to recording the input: refused when the agent is
   * gone, when it cannot be un-parked, or when it has no pane; otherwise its next turn is opened. From then on no
   * later state of the store, whatever runs, shows the agent idle or parked without that turn or a later one completed.
   */
  method Send(store: S.Store, herdr: Herdr, u: Uuid, lookup: Lookup, found: Spot, hasPane: bool, token: Token,
              reply: PaneMoves.Reply, landed: Spot, live: bool, at: int,
              ghost s: Sys, ghost before: seq<Step>, ghost c: Sys)
    returns (input: Option<nat>, ghost steps: seq<Step>, ghost c': Sys)
    requires Leads(s, before, c) && Tracks(store, herdr, c) && u in c.t.agents && u !in c.busy && c.t.agents[u].managed
    requires token !in c.leases && (reply != NoEffect ==> u in c.world)
    requires var row := c.t.agents[u];
             row.moveToken.Some? ==>
               row.moveToken.value in c.leases && c.leases[row.moveToken.value] == Lease(u, row.moveState)
    modifies store, herdr
    ensures lookup != NoLabels && Labelled(before) ==> Labelled(steps)
    ensures Leads(s, steps, c') && Tracks(store, herdr, c') && u !in c'.busy
    ensures var t := SendTables(c, u, lookup, found, hasPane, token, reply, landed);
            var row := t.agents[u];
            if Terminal(c.t.agents[u].status) then input.None? && c'.t == c.t && c'.world == c.world
            else
              && (input.Some? <==> row.moveState == NotMoving && row.status != Parked && !Terminal(row.status) && live)
              && c'.t == (if input.Some? then DeliverInput(t, u, Orcr, at).tables else t)
              && (input.Some? ==> input.value == row.inputSeq + 1 && AnsweredHonestly(c'.t, u, input.value))
  {
    var snapshot := store.agents[u];
    RowKept(s, before, c, u);
    steps := TakeLockAndEnter(s, before, c, u, true);
    c' := At(c, u, Entered(snapshot, true));
    input := None;
    if Terminal(snapshot.status) {
      steps := TakeRelease(s, steps, c', u);
      c' := Unlock(c', u);
      return;
    }
    SettledElsewhere(c, c', u, lookup, found);
    PutAndRemove(c.busy, u, Entered(snapshot, true));
    var ok;
    ok, steps, c' := MakeReady(store, herdr, u, snapshot, lookup, found, hasPane, token, reply, landed, s, steps, c');
    if !ok {
      return;
    }
    input, steps, c' := RecordInput(store, herdr, u, live, at, s, steps, c');
  }

  /** The un-park of a send, if its agent is parked or being moved. */
  method MakeReady(store: S.Store, herdr: Herdr, u: Uuid, snapshot: Agent, lookup: Lookup, found: Spot, hasPane: bool,
                   token: Token, reply: PaneMoves.Reply, landed: Spot,
                   ghost s: Sys, ghost before: seq<Step>, ghost c: Sys)
    returns (ok: bool, ghost steps: seq<Step>, ghost c': Sys)
    requires Leads(s, before, c) && Tracks(store, herdr, c) && u in c.t.agents && snapshot == c.t.agents[u]
    requires !Terminal(snapshot.status) && Holds(c, u, Entered(snapshot, true)) && token !in c.leases
    requires snapshot.moveToken.Some? ==>
               && snapshot.moveToken.value in c.leases
               && c.leases[snapshot.moveToken.value] == Lease(u, snapshot.moveState)
    requires reply != NoEffect ==> u in c.world
    modifies store, herdr
    ensures lookup != NoLabels && Labelled(before) ==> Labelled(steps)
    ensures Leads(s, steps, c') && Tracks(store, herdr, c')
    ensures c'.t == SendTables(c, u, lookup, found, hasPane, token, reply, landed)
    ensures c'.busy == if ok then c.busy[u := Ready(false)] else c.busy - {u}
    ensures var row := c'.t.agents[u];
            && row.managed == snapshot.managed && (ok <==> row.moveState == NotMoving && row.status != Parked)
  {
    SettledOnRun(s, before, c, u, lookup, found);
    steps, c', ok := before, c, true;
    if snapshot.status == Parked || snapshot.moveState != NotMoving {
      ok, steps, c' := UnparkForSend(store, herdr, u, snapshot, lookup, found, hasPane, token, reply, landed, s, steps,
                                     c');
    }
  }

  lemma TakeLockAndEnter(s: Sys, steps: seq<Step>, c: Sys, u: Uuid, sending: bool) returns (steps': seq<Step>)
    requires Leads(s, steps, c) && u in c.t.agents && u !in c.busy
    ensures Leads(s, steps', At(c, u, Entered(c.t.agents[u], sending))) && (Labelled(steps) ==> Labelled(steps'))
  {
    steps' := TakeLock(s, steps, c, u);
    steps' := TakeEnter(s, steps', At(c, u, Locked), u, sending);
    PutTwice(c.busy, u, Locked, Entered(c.t.agents[u], sending));
  }

  /** The end of a send, with the agent un-parked: nothing without a live pane, else its next turn. */
  method RecordInput(store: S.Store, herdr: Herdr, u: Uuid, live: bool, at: int, ghost s: Sys, ghost before: seq<Step>,
                     ghost c: Sys)
    returns (input: Option<nat>, ghost steps: seq<Step>, ghost c': Sys)
    requires Leads(s, before, c) && Tracks(store, herdr, c) && u in c.t.agents && u in c.busy && c.busy[u].Ready?
    requires c.t.agents[u].managed && c.t.agents[u].moveState == NotMoving
    modifies store
    ensures Leads(s, steps, c') && Tracks(store, herdr, c') && (Labelled(before) ==> Labelled(steps))
    ensures c'.busy == c.busy - {u}
    ensures input.Some? <==> live && !Terminal(c.t.agents[u].status)
    ensures c'.t == (if input.Some? then DeliverInput(c.t, u, Orcr, at).tables else c.t)
    ensures input.Some? ==> input.value == c.t.agents[u].inputSeq + 1 && AnsweredHonestly(c'.t, u, input.value)
  {
    steps, c', input := before, c, None;
    if !live {
      steps := TakeRelease(s, steps, c', u);
      c' := Unlock(c', u);
      return;
    }
    DeliverAnswered(s, steps, c', u, at);
    steps, c' := TakeDeliver(s, steps, c', u, at);
    var delivered, _ := store.DeliverInput(u, Orcr, at);
    if delivered.Fine? {
      input := delivered.value;
    }
  }

  /** A delivery to a settled agent opens its next turn unless it is gone, and is never answered by a stale idle. */
  lemma DeliverAnswered(s: Sys, steps: seq<Step>, c: Sys, u: Uuid, at: int)
    requires Leads(s, steps, c) && u in c.t.agents && c.t.agents[u].managed && c.t.agents[u].moveState == NotMoving
    ensures var t := c.t;
            && (Deliverable(t, u) <==> !Terminal(t.agents[u].status))
            && (Deliverable(t, u) ==>
                  AnsweredHonestly(DeliverInput(t, u, Orcr, at).tables, u, t.agents[u].inputSeq + 1))
  {
    LeadsIsRun(s, steps, c);
    DeliveredHonestly(c.t, u, at);
  }

  lemma DeliveredHonestly(t: AgentTables, u: Uuid, at: int)
    requires Inv(t) && u in t.agents && t.agents[u].managed && t.agents[u].moveState == NotMoving
    ensures Deliverable(t, u) <==> !Terminal(t.agents[u].status)
    ensures Deliverable(t, u) ==> AnsweredHonestly(DeliverInput(t, u, Orcr, at).tables, u, t.agents[u].inputSeq + 1)
  {
    DeliverKeepsInv(t, u, Orcr, at);
    if !Terminal(t.agents[u].status) {
      assert TurnKey(u, t.agents[u].inputSeq + 1) !in t.turns;
      T.SendIsNeverSatisfiedByStaleIdle(t, u, Orcr, at);
    }
  }

  /** Settling reads neither locks nor program counters. */
  lemma SettledElsewhere(c: Sys, c': Sys, u: Uuid, lookup: Lookup, spot: Spot)
    requires u in c.t.agents && c'.t == c.t && c'.leases == c.leases && c'.world == c.world
    requires c.t.agents[u].moveToken.Some? ==> c.t.agents[u].moveToken.value in c.leases
    ensures SettledTables(c', u, lookup, spot) == SettledTables(c, u, lookup, spot)
    ensures SettleRefused(c', u, lookup, spot) <==> SettleRefused(c, u, lookup, spot)
  {
  }

  // ---- resume ----

  /** `unpark_on_resume`: a parked agent that works again is brought home, or left as it is when that fails. */
  method UnparkOnResume(store: S.Store, herdr: Herdr, u: Uuid, lookup: Lookup, found: Spot, hasPane: bool, token: Token,
                        reply: PaneMoves.Reply, landed: Spot, ghost s: Sys, ghost before: seq<Step>, ghost c: Sys)
    returns (ghost steps: seq<Step>, ghost c': Sys)
    requires Leads(s, before, c) && Tracks(store, herdr, c) && u in c.t.agents && u !in c.busy
    requires token !in c.leases && (reply != NoEffect ==> u in c.world)
    requires var row := c.t.agents[u];
             row.moveToken.Some? ==>
               row.moveToken.value in c.leases && c.leases[row.moveToken.value] == Lease(u, row.moveState)
    modifies store, herdr
    ensures lookup != NoLabels && Labelled(before) ==> Labelled(steps)
    ensures Leads(s, steps, c') && Tracks(store, herdr, c') && c'.busy == c.busy
    ensures c'.t == SendTables(c, u, lookup, found, hasPane, token, reply, landed)
  {
    var cur := store.agents[u];
    RowKept(s, before, c, u);
    PutAndRemove(c.busy, u, Entered(cur, false));
    steps := TakeLockAndEnter(s, before, c, u, false);
    c' := At(c, u, Entered(cur, false));
    SettledElsewhere(c, c', u, lookup, found);
    var ok := true;
    if cur.status == Parked || cur.moveState != NotMoving {
      ok, steps, c' := UnparkForSend(store, herdr, u, cur, lookup, found, hasPane, token, reply, landed, s, steps, c');
    }
    if ok {
      ReleasedAgain(c.busy, u, Entered(cur, false), c'.busy[u]);
      steps := TakeRelease(s, steps, c', u);
      c' := Unlock(c', u);
    }
  }

  lemma ReleasedAgain(busy: map<Uuid, Pc>, u: Uuid, entered: Pc, pc: Pc)
    requires u !in busy
    ensures busy[u := entered] - {u} == busy && busy[u := entered][u := pc] - {u} == busy
  {
  }

  // ---- reap ----

  /** What reaping makes of a row, unless it was un-parked, is moving, or someone is attached. */
  function ReapedRow(row: Agent, attached: bool): Agent {
    if row.status == Parked && row.moveState == NotMoving && !attached
    then row.(status := Ended, exitReason := Some("reaped"), moveState := NotMoving, moveToken := None) else row
  }

  /** One reap candidate: re-read under its lock, ended only while it is still parked. */
  method ReapOne(store: S.Store, herdr: Herdr, u: Uuid, attached: bool, ghost s: Sys, ghost before: seq<Step>,
                 ghost c: Sys)
    returns (ghost steps: seq<Step>, ghost c': Sys)
    requires Leads(s, before, c) && Tracks(store, herdr, c) && u in c.t.agents && u !in c.busy
    modifies store
    ensures Labelled(before) ==> Labelled(steps)
    ensures Leads(s, steps, c') && Tracks(store, herdr, c') && c'.busy == c.busy
    ensures store.agents == old(store.agents)[u := ReapedRow(old(store.agents)[u], attached)]
  {
    var cur := store.agents[u];
    var reap := cur.status == Parked && cur.moveState == NotMoving && !attached;
    steps, c' := TakeReapUnderLock(s, before, c, u, reap);
    if reap {
      var _ := store.EndIfStatus(u, Parked, "reaped");
    }
  }

  /** Lock, perhaps reap, release. */
  lemma TakeReapUnderLock(s: Sys, steps: seq<Step>, c: Sys, u: Uuid, reap: bool) returns (steps': seq<Step>, c': Sys)
    requires Leads(s, steps, c) && u in c.t.agents && u !in c.busy
    ensures Labelled(steps) ==> Labelled(steps')
    ensures Leads(s, steps', c')
    ensures c' == c.(t := if reap then EndIfStatus(c.t, u, Parked, "reaped").tables else c.t)
  {
    PutAndRemove(c.busy, u, Locked);
    steps' := TakeLock(s, steps, c, u);
    c' := At(c, u, Locked);
    if reap {
      EndKeepsRow(c.t, u);
      steps', c' := TakeReap(s, steps', c', u);
    }
    steps' := TakeRelease(s, steps', c', u);
    c' := Unlock(c', u);
  }

  lemma EndKeepsRow(t: AgentTables, u: Uuid)
    requires u in t.agents
    ensures u in EndIfStatus(t, u, Parked, "reaped").tables.agents
  {
  }

  /** `reap_sweep`: exactly the candidates that are still parked, settled and unattended are ended. */
  method ReapSweep(store: S.Store, herdr: Herdr, candidates: seq<Uuid>, attached: set<Uuid>, ghost s: Sys)
    returns (ghost steps: seq<Step>, ghost c': Sys)
    requires Leads(s, [], s) && Tracks(store, herdr, s)
    requires forall u :: u in candidates ==> u in s.t.agents && u !in s.busy
    modifies store
    ensures Labelled(steps)
    ensures Leads(s, steps, c') && Tracks(store, herdr, c') && c'.busy == s.busy
    ensures AllHandled(s.t, store.agents, candidates, attached)
    ensures forall u :: u in s.t.agents ==>
              var row := s.t.agents[u];
              u in store.agents && store.agents[u]
                == if u in candidates && row.status == Parked && row.moveState == NotMoving && u !in attached
                   then row.(status := Ended, exitReason := Some("reaped"), moveToken := None) else row
  {
    steps, c' := [], s;
    var i := 0;
    while i < |candidates|
      invariant i <= |candidates| && Leads(s, steps, c') && Labelled(steps)
      invariant Tracks(store, herdr, c') && c'.busy == s.busy
      invariant AllHandled(s.t, store.agents, candidates[..i], attached)
    {
      HandledNext(s.t, store.agents, candidates, i, attached);
      steps, c' := ReapOne(store, herdr, candidates[i], candidates[i] in attached, s, steps, c');
      i := i + 1;
    }
    assert candidates[..i] == candidates;
  }

  function Handled(t: AgentTables, seen: seq<Uuid>, attached: set<Uuid>, u: Uuid): Agent
    requires u in t.agents
  {
    if u in seen then ReapedRow(t.agents[u], u in attached) else t.agents[u]
  }

  /** The rows once the first `i` candidates have been handled. */
  ghost predicate AllHandled(t: AgentTables, rows: map<Uuid, Agent>, seen: seq<Uuid>, attached: set<Uuid>) {
    forall u :: u in t.agents ==> u in rows && rows[u] == Handled(t, seen, attached, u)
  }

  lemma HandledNext(t: AgentTables, rows: map<Uuid, Agent>, candidates: seq<Uuid>, i: nat, attached: set<Uuid>)
    requires i < |candidates| && candidates[i] in t.agents && AllHandled(t, rows, candidates[..i], attached)
    ensures var u := candidates[i];
            AllHandled(t, rows[u := ReapedRow(rows[u], u in attached)], candidates[..i + 1], attached)
  {
    ReapedTwice(t.agents[candidates[i]], candidates[i] in attached);
    assert candidates[..i + 1] == candidates[..i] + [candidates[i]];
  }

  lemma ReapedTwice(row: Agent, attached: bool)
    ensures ReapedRow(ReapedRow(row, attached), attached) == ReapedRow(row, attached)
  {
  }
}
