/**
 * The agent transactions of the store as functions from tables to tables and events.
 * Each one commits its row changes and its events together or not at all.
 */
module AgentTx {
  import opened Rows

  /** What a committed transaction leaves behind. */
  datatype Effect = Effect(tables: AgentTables, events: seq<Event>)

  datatype NewAgent = NewAgent(path: string, managed: bool, provider: string, gcMode: GcMode)

  function Unchanged(t: AgentTables): Effect {
    Effect(t, [])
  }

  function Put(t: AgentTables, u: Uuid, row: Agent): AgentTables {
    t.(agents := t.agents[u := row])
  }

  predicate Terminal(s: Status) {
    s == Ended || s == Lost
  }

  /** The partial unique index `agents_active_path`: may `u` hold `path` as a non-ended row? */
  predicate PathFree(agents: map<Uuid, Agent>, u: Uuid, path: string) {
    forall v :: v in agents && v != u && agents[v].status != Ended ==> agents[v].path != path
  }

  // ---- the queue ----

  /** The largest `queue_seq` handed out so far, 0 when there is none. */
  ghost function MaxQueueSeq(agents: map<Uuid, Agent>): (m: nat)
    ensures forall u :: u in agents && agents[u].queueSeq.Some? ==> agents[u].queueSeq.value <= m
    ensures m == 0 || exists u :: u in agents && agents[u].queueSeq == Some(m)
    decreases |agents|
  {
    if agents == map[] then 0
    else
      var u :| u in agents;
      var rest := agents - {u};
      assert rest.Keys == agents.Keys - {u};
      var m := MaxQueueSeq(rest);
      assert forall v :: v in agents ==> v == u || v in rest;
      match agents[u].queueSeq
      case Some(q) => if q > m then q else m
      case None => m
  }

  function QueuedRow(a: NewAgent, queueSeq: nat): Agent {
    Agent(a.path, a.managed, a.provider, a.gcMode, Queued, NotMoving, None, 0, false, Some(queueSeq),
          None, None, None, None, None, None, None)
  }

  predicate CanEnqueue(t: AgentTables, u: Uuid, a: NewAgent) {
    u !in t.agents && PathFree(t.agents, u, a.path)
  }

  ghost function Enqueue(t: AgentTables, u: Uuid, a: NewAgent): Effect {
    if !CanEnqueue(t, u, a) then Unchanged(t)
    else Effect(Put(t, u, QueuedRow(a, MaxQueueSeq(t.agents) + 1)), [AgentCreated(u, Queued)])
  }

  // ---- lifecycle ----

  function RecordLocation(t: AgentTables, u: Uuid, terminal: string, pane: string): Effect {
    Effect(if u in t.agents then Put(t, u, t.agents[u].(terminal := Some(terminal), pane := Some(pane))) else t,
           [LocationChanged(u)])
  }

  function Or<T>(a: Option<T>, b: Option<T>): Option<T> {
    if a.Some? then a else b
  }

  /** No status guard: any present row moves, unless reviving it would break the path index. */
  function TransitionStatus(t: AgentTables, u: Uuid, status: Status, reason: Option<string>): Effect {
    if u !in t.agents || (status != Ended && !PathFree(t.agents, u, t.agents[u].path)) then Unchanged(t)
    else
      var row := t.agents[u];
      Effect(Put(t, u, row.(status := status, exitReason := Or(reason, row.exitReason))),
             [AgentStatusChanged(u, status)] + if status == Ended then [AgentEnded(u)] else [])
  }

  function EndIfStatus(t: AgentTables, u: Uuid, from: Status, reason: string): Effect {
    if u !in t.agents || t.agents[u].status != from then Unchanged(t)
    else
      Effect(Put(t, u, t.agents[u].(status := Ended, exitReason := Some(reason),
                                    moveState := NotMoving, moveToken := None)),
             [AgentStatusChanged(u, Ended), AgentEnded(u)])
  }

  function RequestCancel(t: AgentTables, u: Uuid): Effect {
    if u !in t.agents then Unchanged(t)
    else Effect(Put(t, u, t.agents[u].(cancelRequested := true)), [])
  }

  // ---- turns ----

  function SetWorkingSeen(t: AgentTables, u: Uuid, n: nat, at: int): Effect {
    var key := TurnKey(u, n);
    var turns := if key in t.turns && t.turns[key].workingSeenAt.None?
                 then t.turns[key := t.turns[key].(workingSeenAt := Some(at))] else t.turns;
    var agents := if u in t.agents then t.agents[u := t.agents[u].(idleSince := None)] else t.agents;
    Effect(AgentTables(agents, turns), [])
  }

  function SetIdleSince(t: AgentTables, u: Uuid, at: Option<int>): Effect {
    if u !in t.agents then Unchanged(t)
    else Effect(Put(t, u, t.agents[u].(idleSince := at)), [])
  }

  /** Whether `DeliverInput` opens a turn: the row is live and its next turn number is unused. */
  predicate Deliverable(t: AgentTables, u: Uuid) {
    && u in t.agents
    && !Terminal(t.agents[u].status)
    && TurnKey(u, t.agents[u].inputSeq + 1) !in t.turns
  }

  function DeliverInput(t: AgentTables, u: Uuid, source: Source, at: int): Effect {
    if !Deliverable(t, u) then Unchanged(t)
    else
      var row := t.agents[u];
      var n := row.inputSeq + 1;
      Effect(AgentTables(t.agents[u := row.(inputSeq := n, status := Working, blockedKind := None, idleSince := None)],
                         t.turns[TurnKey(u, n) := Turn(source, at, None, None, None)]),
             [AgentStatusChanged(u, Working)])
  }

  /** The second transaction of `open_external_turn`. */
  function StampWorkingSeen(t: AgentTables, u: Uuid, n: nat, at: int): Effect {
    var key := TurnKey(u, n);
    if key !in t.turns then Unchanged(t)
    else Effect(t.(turns := t.turns[key := t.turns[key].(workingSeenAt := Some(at))]), [])
  }

  function SettlePrimedIdle(t: AgentTables, u: Uuid, at: int): Effect {
    if u !in t.agents || t.agents[u].status != Starting then Unchanged(t)
    else Effect(Put(t, u, t.agents[u].(status := Idle, idleSince := Some(at))), [AgentStatusChanged(u, Idle)])
  }

  predicate OpenTurn(t: AgentTables, u: Uuid, n: nat) {
    TurnKey(u, n) in t.turns && t.turns[TurnKey(u, n)].completedAt.None?
  }

  function CloseTurn(t: AgentTables, u: Uuid, n: nat, at: int): AgentTables
    requires OpenTurn(t, u, n)
  {
    t.(turns := t.turns[TurnKey(u, n) := t.turns[TurnKey(u, n)].(completedAt := Some(at))])
  }

  /** Closes the turn; flips `working` to `idle` only while that turn is still the newest one. */
  function CompleteTurn(t: AgentTables, u: Uuid, n: nat, at: int): Effect {
    if !OpenTurn(t, u, n) then Unchanged(t)
    else
      var closed := CloseTurn(t, u, n, at);
      if u !in t.agents || t.agents[u].status != Working || t.agents[u].inputSeq != n then Effect(closed, [])
      else
        Effect(Put(closed, u, t.agents[u].(status := Idle)), [TurnCompleted(u, n), AgentStatusChanged(u, Idle)])
  }

  function CompleteTurnRow(t: AgentTables, u: Uuid, n: nat, at: int): Effect {
    if !OpenTurn(t, u, n) then Unchanged(t)
    else Effect(CloseTurn(t, u, n, at), [TurnCompleted(u, n)])
  }

  function BlockTurn(t: AgentTables, u: Uuid, n: nat, kind: string): AgentTables {
    var key := TurnKey(u, n);
    if key !in t.turns then t
    else t.(turns := t.turns[key := t.turns[key].(blockedKind := Some(kind))])
  }

  /** No terminal guard: an ended row can come back as `blocked` when its path is free. */
  function MarkBlocked(t: AgentTables, u: Uuid, n: nat, kind: string): Effect {
    if u !in t.agents || t.agents[u].status == Blocked then Effect(BlockTurn(t, u, n, kind), [])
    else if !PathFree(t.agents, u, t.agents[u].path) then Unchanged(t)
    else
      Effect(Put(BlockTurn(t, u, n, kind), u,
                 t.agents[u].(status := Blocked, blockedKind := Some(kind), idleSince := None)),
             [AgentStatusChanged(u, Blocked)])
  }

  function MarkWorking(t: AgentTables, u: Uuid): Effect {
    if u !in t.agents || t.agents[u].status !in {Idle, Blocked, Parked} then Unchanged(t)
    else
      Effect(Put(t, u, t.agents[u].(status := Working, blockedKind := None, idleSince := None)),
             [AgentStatusChanged(u, Working)])
  }

  function RecordCapture(t: AgentTables, u: Uuid): Effect {
    Effect(t, [ResponseCaptured(u)])
  }

  function RearmedRow(row: Agent, now: int): Agent {
    if !row.managed then row
    else if row.status == Working || row.status == Blocked then row.(idleSince := None)
    else if row.status == Idle then row.(idleSince := Some(now))
    else row
  }

  function RearmIdleClocks(t: AgentTables, now: int): Effect {
    Effect(t.(agents := map u | u in t.agents :: RearmedRow(t.agents[u], now)), [])
  }

  // ---- two-phase moves ----

  predicate WinsMove(t: AgentTables, u: Uuid, from: Status) {
    u in t.agents && t.agents[u].status == from && t.agents[u].moveState == NotMoving
  }

  function BeginMove(t: AgentTables, u: Uuid, from: Status, move: MoveState, token: Token): Effect {
    if !WinsMove(t, u, from) then Unchanged(t)
    else Effect(Put(t, u, t.agents[u].(moveState := move, moveToken := Some(token))), [])
  }

  predicate HoldsToken(t: AgentTables, u: Uuid, token: Token) {
    u in t.agents && t.agents[u].moveToken == Some(token)
  }

  function FinishPark(t: AgentTables, u: Uuid, token: Token, terminal: string, pane: string, now: int): Effect {
    if !HoldsToken(t, u, token) || !PathFree(t.agents, u, t.agents[u].path) then Unchanged(t)
    else
      Effect(Put(t, u, t.agents[u].(status := Parked, moveState := NotMoving, moveToken := None,
                                    parkedAt := Some(now), terminal := Some(terminal), pane := Some(pane))),
             [LocationChanged(u), AgentStatusChanged(u, Parked)])
  }

  function FinishUnpark(t: AgentTables, u: Uuid, token: Token, terminal: string, pane: string, now: int): Effect {
    if !HoldsToken(t, u, token) || !PathFree(t.agents, u, t.agents[u].path) then Unchanged(t)
    else
      Effect(Put(t, u, t.agents[u].(status := Idle, moveState := NotMoving, moveToken := None, parkedAt := None,
                                    idleSince := Some(now), terminal := Some(terminal), pane := Some(pane))),
             [LocationChanged(u), AgentStatusChanged(u, Idle)])
  }

  function RollbackMove(t: AgentTables, u: Uuid, token: Token): Effect {
    if !HoldsToken(t, u, token) then Unchanged(t)
    else Effect(Put(t, u, t.agents[u].(moveState := NotMoving, moveToken := None)), [])
  }

  // ---- unmanaged discovery ----

  function UnmanagedRow(path: string, provider: string, terminal: string, pane: string, status: Status): Agent {
    Agent(path, false, provider, Unset, status, NotMoving, None, 0, false, None,
          Some(terminal), Some(pane), None, None, None, None, None)
  }

  function InsertUnmanaged(t: AgentTables, u: Uuid, path: string, provider: string, terminal: string,
                           pane: string, status: Status): Effect
  {
    if u in t.agents || (status != Ended && !PathFree(t.agents, u, path)) then Unchanged(t)
    else Effect(Put(t, u, UnmanagedRow(path, provider, terminal, pane, status)), [AgentCreated(u, status)])
  }

  function UpdateUnmanaged(t: AgentTables, u: Uuid, status: Status, pane: string): Effect {
    if u !in t.agents then Unchanged(t)
    else
      var row := t.agents[u].(pane := Some(pane));
      if row.status == status then Effect(Put(t, u, row), [])
      else if status != Ended && !PathFree(t.agents, u, row.path) then Unchanged(t)
      else Effect(Put(t, u, row.(status := status)), [AgentStatusChanged(u, status)])
  }
}
