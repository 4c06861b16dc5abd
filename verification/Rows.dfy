/** The rows of the store's tables and the events written beside them. */
module Rows {

  datatype Option<+T> = None | Some(value: T)

  datatype Uuid = Uuid(text: string)

  datatype Token = Token(text: string)

  // ---- agents and turns ----

  datatype Status = Queued | Starting | Working | Idle | Blocked | Parked | Lost | Ended | Unknown

  datatype MoveState = NotMoving | Parking | Unparking

  datatype GcMode = Auto | Immediate | Never | Unset

  /** One row of `agents`. Columns that no guard reads are left out. */
  datatype Agent = Agent(
    path: string,
    managed: bool,
    provider: string,
    gcMode: GcMode,
    status: Status,
    moveState: MoveState,
    moveToken: Option<Token>,
    inputSeq: nat,
    cancelRequested: bool,
    queueSeq: Option<nat>,
    terminal: Option<string>,
    pane: Option<string>,
    startingAt: Option<int>,
    idleSince: Option<int>,
    parkedAt: Option<int>,
    blockedKind: Option<string>,
    exitReason: Option<string>)

  datatype Source = Orcr | External

  datatype TurnKey = TurnKey(agent: Uuid, inputSeq: nat)

  /** One row of `turns`. */
  datatype Turn = Turn(
    source: Source,
    deliveredAt: int,
    workingSeenAt: Option<int>,
    completedAt: Option<int>,
    blockedKind: Option<string>)

  datatype AgentTables = AgentTables(agents: map<Uuid, Agent>, turns: map<TurnKey, Turn>)

  // ---- loops and runs ----

  datatype LoopStatus = Active | Paused | LoopEnded

  datatype Cadence = Cron | Once

  datatype Overlap = Queue | Skip

  /** One row of `loops`. */
  datatype Loop = Loop(
    name: string,
    cadence: Cadence,
    maxConcurrency: int,
    overlap: Overlap,
    status: LoopStatus,
    nextFireAt: Option<int>,
    lastFireAt: Option<int>)

  datatype RunKind = Scheduled | Manual

  datatype RunStatus = Pending | Running | Stopping | Done(outcome: Outcome) | Canceled

  datatype Outcome = Ok | Failed | TimedOut | Stopped

  /** One row of `loop_runs`. */
  datatype LoopRun = LoopRun(
    loop: Uuid,
    kind: RunKind,
    dueAt: int,
    status: RunStatus,
    createdAt: int,
    pid: Option<int>,
    timeoutAt: Option<int>)

  datatype LoopTables = LoopTables(loops: map<Uuid, Loop>, runs: map<Uuid, LoopRun>)

  // ---- events ----

  datatype Event =
    | AgentCreated(agent: Uuid, status: Status)
    | AgentStatusChanged(agent: Uuid, status: Status)
    | AgentEnded(agent: Uuid)
    | QueuePromoted(agent: Uuid)
    | LocationChanged(agent: Uuid)
    | TurnCompleted(agent: Uuid, inputSeq: nat)
    | ResponseCaptured(agent: Uuid)
    | LoopCreated(loop: Uuid)
    | LoopStatusSet(loop: Uuid, loopStatus: LoopStatus)
    | LoopFired(loop: Uuid, run: Uuid, kind: RunKind, dueAt: int, pending: bool)
    | LoopCoalesced(loop: Uuid, run: Uuid, dueAt: int)
    | LoopSkipped(loop: Uuid, dueAt: int)
    | LoopMissed(loop: Uuid, dueAt: int)
    | RunStarted(run: Uuid)
    | RunStopping(run: Uuid)
    | RunEnded(run: Uuid, runStatus: RunStatus)

  // ---- counting rows ----

  lemma SubsetSize<T>(a: set<T>, b: set<T>)
    requires a <= b
    ensures |a| <= |b|
  {
    assert b == a + (b - a);
  }
}
