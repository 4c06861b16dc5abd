/**
 * What the pane-move protocol never gets stuck in: a held move lock can always be given back, a crash leaves
 * every interrupted move to a recovery that settles it, and a pane that is gone stays gone.
 */
module MoveProgress {
  import opened Rows
  import opened AgentTx
  import opened AgentQueue
  import opened AgentOps
  import opened PaneMoves

  // ---- tokens in use are on record, whatever herdr answers ----

  predicate TokenKnown(s: Sys, u: Uuid) {
    u in s.t.agents ==>
      && (s.t.agents[u].moveToken.Some? ==> OnRecord(s, u, s.t.agents[u].moveToken.value))
      && (u in s.busy && s.busy[u].Inspect? ==> OnRecord(s, u, s.busy[u].token))
      && (u in s.busy && s.busy[u].Saw? ==> OnRecord(s, u, s.busy[u].token))
  }

  predicate OnRecord(s: Sys, u: Uuid, token: Token) {
    token in s.leases && s.leases[token].agent == u
  }

  ghost predicate Live(s: Sys) {
    Sound(s) && forall u :: TokenKnown(s, u)
  }

  lemma OwnToken(s: Sys, step: Step)
    requires HolderStep(step) && step.u in s.t.agents && step.u in s.busy && EnabledHolder(s, step, s.busy[step.u])
    requires TokenKnown(s, step.u) && HeldRow(s, step.u) && RowOk(s.t.agents[step.u])
    ensures TokenKnown(DoHolder(s, step, s.busy[step.u]), step.u)
  {
    if step.CommitRecovery? {
      RecoveryToken(s, step);
    } else if step.BeginPark? || step.BeginUnpark? {
      BeginToken(s, step);
    } else if step.CommitPark? || step.CommitUnpark? || step.AbortPark? {
      EndToken(s, step);
    } else if step.Deliver? || step.Reap? {
      WriteToken(s, step);
    } else {
      ReadToken(s, step);
    }
  }

  lemma BeginToken(s: Sys, step: Step)
    requires step.BeginPark? || step.BeginUnpark?
    requires step.u in s.t.agents && step.u in s.busy && EnabledHolder(s, step, s.busy[step.u])
    requires TokenKnown(s, step.u)
    ensures TokenKnown(DoHolder(s, step, s.busy[step.u]), step.u)
  {
  }

  lemma EndToken(s: Sys, step: Step)
    requires step.CommitPark? || step.CommitUnpark? || step.AbortPark?
    requires step.u in s.t.agents && step.u in s.busy && EnabledHolder(s, step, s.busy[step.u])
    requires TokenKnown(s, step.u)
    ensures TokenKnown(DoHolder(s, step, s.busy[step.u]), step.u)
  {
  }

  lemma WriteToken(s: Sys, step: Step)
    requires step.Deliver? || step.Reap?
    requires step.u in s.t.agents && step.u in s.busy && EnabledHolder(s, step, s.busy[step.u])
    requires TokenKnown(s, step.u)
    ensures TokenKnown(DoHolder(s, step, s.busy[step.u]), step.u)
  {
  }

  lemma ReadToken(s: Sys, step: Step)
    requires step.Release? || step.MoveToIdle? || step.MoveHome? || step.BeginRecovery? || step.LookForPane?
             || step.EnterUnpark? || step.ReadAgain?
    requires step.u in s.t.agents && step.u in s.busy && EnabledHolder(s, step, s.busy[step.u])
    requires TokenKnown(s, step.u)
    ensures TokenKnown(DoHolder(s, step, s.busy[step.u]), step.u)
  {
  }

  lemma RecoveryToken(s: Sys, step: Step)
    requires step.CommitRecovery? && step.u in s.t.agents && step.u in s.busy && EnabledHolder(s, step, s.busy[step.u])
    requires TokenKnown(s, step.u)
    ensures TokenKnown(DoHolder(s, step, s.busy[step.u]), step.u)
  {
  }

  lemma FreeToken(s: Sys, step: Step, u: Uuid)
    requires Inv(s.t) && Known(s) && step.Unlocked? && Enabled(s, step) && TokenKnown(s, u)
    ensures TokenKnown(Do(s, step), u)
  {
    if u in s.t.agents {
      FreeStep(s.t, step.op, u);
    } else if u in Do(s, step).t.agents {
      NewRowIsEnqueued(s.t, step.op, u);
    }
  }

  lemma OtherToken(s: Sys, s': Sys, u: Uuid)
    requires TokenKnown(s, u) && SameFor(s, s', u) && LeasesGrow(s, s')
    ensures TokenKnown(s', u)
  {
  }

  lemma WorldToken(s: Sys, step: Step, u: Uuid)
    requires Inv(s.t) && Enabled(s, step) && !step.Unlocked? && !HolderStep(step) && TokenKnown(s, u)
    ensures TokenKnown(Do(s, step), u)
  {
  }

  lemma TokenStep(s: Sys, step: Step, u: Uuid)
    requires Sound(s) && Enabled(s, step) && TokenKnown(s, u)
    ensures TokenKnown(Do(s, step), u)
  {
    if step.Unlocked? {
      FreeToken(s, step, u);
    } else if !HolderStep(step) {
      WorldToken(s, step, u);
    } else if u == step.u {
      assert HeldRow(s, u) && RowOk(s.t.agents[u]);
      OwnToken(s, step);
    } else {
      HolderOthers(s, step, u);
      OtherToken(s, DoHolder(s, step, s.busy[step.u]), u);
    }
  }

  lemma StepLive(s: Sys, step: Step)
    requires Live(s) && Enabled(s, step)
    ensures Live(Do(s, step))
  {
    StepSound(s, step);
    forall u
      ensures TokenKnown(Do(s, step), u)
    {
      TokenStep(s, step, u);
    }
  }

  lemma {:induction false} RunLive(steps: seq<Step>)
    requires ValidSteps(steps)
    ensures Live(Reached(steps))
    decreases |steps|
  {
    if steps != [] {
      RunLive(steps[..|steps| - 1]);
      StepLive(Reached(steps[..|steps| - 1]), steps[|steps| - 1]);
    }
  }

  // ---- a held lock comes free ----

  /** The holder of the lock of `u`, if there is one, can give it back by at most `k` steps of its own. */
  ghost predicate CanGiveBack(s: Sys, u: Uuid, k: nat)
    decreases k, 0
  {
    u in s.busy ==> k > 0 && exists step :: HolderStep(step) && step.u == u && FreesVia(s, step, k - 1)
  }

  ghost predicate FreesVia(s: Sys, step: Step, k: nat)
    requires HolderStep(step)
    decreases k, 1
  {
    Inv(s.t) && Enabled(s, step) && CanGiveBack(Do(s, step), step.u, k)
  }

  /** How many steps the holder is from giving the lock back, at most. */
  function Rank(pc: Pc): (r: nat)
    ensures r <= 6
  {
    match pc
    case Inspect(_, _) => 6
    case Saw(_, _, _) => 5
    case Settling(_) => 4
    case Claiming => 3
    case UnparkWon(_) => 2
    case UnparkMoved(_) => 2
    case _ => 1
  }

  /** The step that brings the holder nearer to giving the lock back, with herdr answering nothing. */
  function WayOut(u: Uuid, pc: Pc, token: Token): Step {
    match pc
    case ParkWon(_) => AbortPark(u)
    case ParkMoved(_) => CommitPark(u, "", "", 0)
    case UnparkWon(_) => MoveHome(u, NoEffect)
    case UnparkMoved(_) => CommitUnpark(u, "", "", 0)
    case Inspect(_, _) => LookForPane(u, NoPanes)
    case Saw(_, _, _) => CommitRecovery(u, "", "", 0)
    case Settling(_) => ReadAgain(u)
    case Claiming => BeginUnpark(u, token)
    case _ => Release(u)
  }

  lemma WayOutIsOpen(s: Sys, u: Uuid, token: Token)
    requires Live(s) && u in s.busy && (Rank(s.busy[u]) > 2 ==> token !in s.leases)
    ensures var step := WayOut(u, s.busy[u], token);
            u in s.t.agents && HolderStep(step) && step.u == u && Enabled(s, step)
  {
    assert TokenKnown(s, u);
  }

  lemma WayOutLeads(s: Sys, u: Uuid, token: Token)
    requires Inv(s.t) && u in s.t.agents && u in s.busy && (Rank(s.busy[u]) > 2 ==> token !in s.leases)
    requires HolderStep(WayOut(u, s.busy[u], token)) && EnabledHolder(s, WayOut(u, s.busy[u], token), s.busy[u])
    ensures var s' := DoHolder(s, WayOut(u, s.busy[u], token), s.busy[u]);
            u in s'.busy ==> Rank(s'.busy[u]) < Rank(s.busy[u]) && (Rank(s'.busy[u]) > 2 ==> token !in s'.leases)
  {
    var step := WayOut(u, s.busy[u], token);
    if !step.BeginUnpark? && !step.BeginPark? {
      HolderLeasesStay(s, step);
    }
  }

  lemma HolderLeasesStay(s: Sys, step: Step)
    requires HolderStep(step) && step.u in s.t.agents && step.u in s.busy && EnabledHolder(s, step, s.busy[step.u])
    requires !step.BeginPark? && !step.BeginUnpark?
    ensures DoHolder(s, step, s.busy[step.u]).leases == s.leases
  {
  }

  /** The holder's way out is a step of the protocol. */
  lemma WayOutStep(s: Sys, u: Uuid, token: Token)
    requires Live(s) && u in s.busy && (Rank(s.busy[u]) > 2 ==> token !in s.leases)
    ensures var step := WayOut(u, s.busy[u], token);
            && HolderStep(step) && step.u == u && Enabled(s, step) && Live(Do(s, step))
            && (u in Do(s, step).busy ==>
                  Rank(Do(s, step).busy[u]) < Rank(s.busy[u])
                  && (Rank(Do(s, step).busy[u]) > 2 ==> token !in Do(s, step).leases))
  {
    WayOutIsOpen(s, u, token);
    WayOutLeads(s, u, token);
    StepLive(s, WayOut(u, s.busy[u], token));
  }

  lemma {:induction false} GiveBack(s: Sys, u: Uuid, token: Token, k: nat)
    requires Live(s) && (u in s.busy ==> Rank(s.busy[u]) <= k && (Rank(s.busy[u]) > 2 ==> token !in s.leases))
    ensures CanGiveBack(s, u, k)
    decreases k
  {
    if u in s.busy {
      var step := WayOut(u, s.busy[u], token);
      WayOutStep(s, u, token);
      GiveBack(Do(s, step), u, token, k - 1);
      assert FreesVia(s, step, k - 1);
    }
  }

  /**
   * No deadlock: in every reachable state the holder of a move lock can give it back by at most six steps of its
   * own, whatever went before and though herdr answers nothing.
   */
  lemma LockComesFree(steps: seq<Step>, u: Uuid, token: Token, k: nat)
    requires ValidSteps(steps) && token !in Reached(steps).leases && k >= 6
    ensures CanGiveBack(Reached(steps), u, k)
  {
    RunLive(steps);
    GiveBack(Reached(steps), u, token, k);
  }

  // ---- what a crash leaves behind ----

  ghost predicate Follows(s: Sys, step: Step, s': Sys) {
    QueueSeqsDistinct(s.t.agents) && Enabled(s, step) && Do(s, step) == s'
  }

  lemma FollowsAgrees(s: Sys, step: Step, s': Sys)
    requires Agrees(s, true) && Live(s) && Follows(s, step, s') && Trusted(s, step, true)
    ensures Agrees(s', true) && Live(s')
  {
    StepAgrees(s, step, true);
    StepLive(s, step);
  }

  /** The thread of a fresh lock picks up the token it finds in the row. */
  lemma LockThenBegin(s: Sys, u: Uuid, token: Token)
    requires QueueSeqsDistinct(s.t.agents) && u in s.t.agents && u !in s.busy && OnRecord(s, u, token)
    ensures Follows(s, Lock(u), At(s, u, Locked))
    ensures Follows(At(s, u, Locked), BeginRecovery(u, token), At(At(s, u, Locked), u, Inspect(token, false)))
  {
  }

  lemma RecoverySettles(s: Sys, u: Uuid, token: Token, terminal: string, pane: string, now: int)
    requires Agrees(s, true) && u in s.busy && s.busy[u] == Inspect(token, false) && token in s.leases
    requires u in s.t.agents && s.t.agents[u].moveToken == Some(token) && s.t.agents[u].status !in {Lost, Ended}
    ensures Settled(Recovered(s, u, Answered, terminal, pane, now), u)
  {
    RecoveryNeedsLabels(s, u, Answered, terminal, pane, now);
  }

  lemma CrashIsFelt(s: Sys)
    requires Agrees(s, true) && Live(s)
    ensures Follows(s, Crash, s.(busy := map[])) && Agrees(s.(busy := map[]), true) && Live(s.(busy := map[]))
  {
    FollowsAgrees(s, Crash, s.(busy := map[]));
  }

  lemma LockedAgrees(s: Sys, u: Uuid, token: Token) returns (locked: Sys, looking: Sys)
    requires Agrees(s, true) && Live(s) && u in s.t.agents && u !in s.busy && s.t.agents[u].moveToken == Some(token)
    ensures Follows(s, Lock(u), locked) && Follows(locked, BeginRecovery(u, token), looking)
    ensures Agrees(looking, true) && looking.t == s.t && looking.world == s.world && token in looking.leases
    ensures u in looking.busy && looking.busy[u] == Inspect(token, false)
  {
    assert TokenKnown(s, u);
    locked, looking := At(s, u, Locked), At(At(s, u, Locked), u, Inspect(token, false));
    LockThenBegin(s, u, token);
    FollowsAgrees(s, Lock(u), locked);
    FollowsAgrees(locked, BeginRecovery(u, token), looking);
  }

  /**
   * A crash forgets who held which move lock and nothing else, so a move it cut short is settled by one recovery of
   * its agent: wherever the crash fell, the row then agrees with the place of the pane.
   */
  lemma CrashIsRepaired(steps: seq<Step>, u: Uuid, token: Token, terminal: string, pane: string, now: int)
    returns (crashed: Sys, locked: Sys, looking: Sys)
    requires ValidSteps(steps) && TrustedRun(steps, true) && u in Reached(steps).t.agents
    requires Reached(steps).t.agents[u].moveToken == Some(token)
    requires Reached(steps).t.agents[u].status !in {Lost, Ended}
    ensures Follows(Reached(steps), Crash, crashed) && crashed == Reached(steps).(busy := map[])
    ensures Follows(crashed, Lock(u), locked) && Follows(locked, BeginRecovery(u, token), looking)
    ensures u in looking.t.agents && u in looking.busy && looking.busy[u] == Inspect(token, false)
    ensures token in looking.leases && Settled(Recovered(looking, u, Answered, terminal, pane, now), u)
  {
    RunLive(steps);
    RunAgrees(steps, true);
    crashed := Reached(steps).(busy := map[]);
    CrashIsFelt(Reached(steps));
    locked, looking := LockedAgrees(crashed, u, token);
    RecoverySettles(looking, u, token, terminal, pane, now);
  }

  // ---- lost panes ----

  lemma GoneStep(s: Sys, step: Step, u: Uuid)
    requires Inv(s.t) && Enabled(s, step) && u !in s.world && u in s.closed
    ensures u !in Do(s, step).world && u in Do(s, step).closed
  {
    if HolderStep(step) {
      HolderOpensNone(s, step, u);
    }
  }

  lemma HolderOpensNone(s: Sys, step: Step, u: Uuid)
    requires HolderStep(step) && Enabled(s, step) && u !in s.world && u in s.closed
    ensures var s' := DoHolder(s, step, s.busy[step.u]); u !in s'.world && s'.closed == s.closed
  {
  }

  /** A pane that is gone stays gone: no move, recovery or start of its agent brings it back. */
  lemma {:induction false} LostStaysLost(s: Sys, u: Uuid, later: seq<Step>)
    requires Inv(s.t) && Enabled(s, LosePane(u)) && Inv(Do(s, LosePane(u)).t)
    requires ValidFrom(Do(s, LosePane(u)), later)
    ensures u !in AfterSteps(Do(s, LosePane(u)), later).world && u in AfterSteps(Do(s, LosePane(u)), later).closed
    decreases |later|
  {
    if later != [] {
      LostStaysLost(s, u, later[..|later| - 1]);
      GoneStep(AfterSteps(Do(s, LosePane(u)), later[..|later| - 1]), later[|later| - 1], u);
    }
  }
}
