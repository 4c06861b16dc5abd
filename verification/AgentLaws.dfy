/**
 * The agent transactions in terms of the columns they read and write: when each one does anything, what it leaves in
 * the row, and what it logs. The path index is written out as well: no other non-ended row may hold the path.
 */
module AgentLaws {
  import opened Rows
  import opened AgentTx
  import opened Promotion
  import opened AgentQueue

  /** No other row that has not ended holds the path of `u`. */
  predicate Unrivalled(t: AgentTables, u: Uuid)
    requires u in t.agents
  {
    forall v :: v in t.agents && t.agents[v].path == t.agents[u].path && t.agents[v].status != Ended ==> v == u
  }

  /** Rows and turns other than those of `u` are untouched, nothing is deleted, and the identity of `u` stays. */
  predicate OnlyTouches(t: AgentTables, t': AgentTables, u: Uuid) {
    && t'.agents.Keys == t.agents.Keys
    && (forall v :: v in t.agents && v != u ==> t'.agents[v] == t.agents[v])
    && (u in t.agents ==> SameIdentity(t.agents[u], t'.agents[u]))
    && (forall key :: key in t.turns ==> key in t'.turns)
    && forall key :: key in t'.turns && key.agent != u ==> key in t.turns && t'.turns[key] == t.turns[key]
  }

  predicate SameIdentity(a: Agent, b: Agent) {
    a.path == b.path && a.managed == b.managed && a.provider == b.provider && a.gcMode == b.gcMode
    && a.queueSeq == b.queueSeq
  }

  predicate Silent(t: AgentTables, e: Effect) {
    e.tables == t && e.events == []
  }

  // ---- queue ----

  /** A new agent gets a number above all handed out before, and is refused for a path in use or a known uuid. */
  lemma EnqueueLaw(t: AgentTables, u: Uuid, a: NewAgent)
    ensures var e := Enqueue(t, u, a);
            var refused := u in t.agents
                           || exists v :: v in t.agents && t.agents[v].path == a.path && t.agents[v].status != Ended;
            && (refused ==> Silent(t, e))
            && (!refused ==>
                  && e.tables.agents.Keys == t.agents.Keys + {u} && e.tables.turns == t.turns
                  && e.events == [AgentCreated(u, Queued)]
                  && (forall v :: v in t.agents ==> e.tables.agents[v] == t.agents[v])
                  && var row := e.tables.agents[u];
                     && row.status == Queued && row.path == a.path && row.managed == a.managed
                     && row.provider == a.provider && row.gcMode == a.gcMode && row.inputSeq == 0
                     && row.moveState == NotMoving && row.moveToken == None && !row.cancelRequested
                     && row.terminal == None && row.pane == None && row.startingAt == None && row.idleSince == None
                     && row.queueSeq.Some? && row.queueSeq.value >= 1
                     && forall v :: v in t.agents && t.agents[v].queueSeq.Some? ==>
                          t.agents[v].queueSeq.value < row.queueSeq.value)
  {
  }

  /** Who counts against the limits, and what a promoted row looks like. */
  lemma PromotionColumns(row: Agent, now: int)
    ensures Live(row) <==> row.managed && row.status != Queued && row.status != Ended && row.status != Lost
    ensures Promoted(row, now) == row.(status := Starting, startingAt := Some(now))
    ensures SameIdentity(row, Promoted(row, now))
  {
  }

  // ---- lifecycle ----

  lemma LocationLaw(t: AgentTables, u: Uuid, terminal: string, pane: string)
    ensures var e := RecordLocation(t, u, terminal, pane);
            && OnlyTouches(t, e.tables, u) && e.tables.turns == t.turns && e.events == [LocationChanged(u)]
            && (u in t.agents ==> e.tables.agents[u] == t.agents[u].(terminal := Some(terminal), pane := Some(pane)))
  {
  }

  /** Nothing but a missing row and a rival for the path stops the write; a given reason replaces the old one. */
  lemma TransitionLaw(t: AgentTables, u: Uuid, status: Status, reason: Option<string>)
    ensures var e := TransitionStatus(t, u, status, reason);
            if u !in t.agents || (status != Ended && !Unrivalled(t, u)) then Silent(t, e)
            else
              && OnlyTouches(t, e.tables, u) && e.tables.turns == t.turns
              && e.tables.agents[u].status == status
              && e.tables.agents[u].exitReason == (if reason == None then t.agents[u].exitReason else reason)
              && e.tables.agents[u].(status := t.agents[u].status, exitReason := t.agents[u].exitReason) == t.agents[u]
              && AgentStatusChanged(u, status) in e.events
              && (AgentEnded(u) in e.events <==> status == Ended)
              && |e.events| == if status == Ended then 2 else 1
  {
    UnrivalledIsFree(t, u);
  }

  lemma UnrivalledIsFree(t: AgentTables, u: Uuid)
    ensures u in t.agents ==> (PathFree(t.agents, u, t.agents[u].path) <==> Unrivalled(t, u))
  {
    if u in t.agents {
      assert t.agents[u].path == t.agents[u].path;
    }
  }

  lemma EndIfLaw(t: AgentTables, u: Uuid, from: Status, reason: string)
    ensures var e := EndIfStatus(t, u, from, reason);
            if u !in t.agents || t.agents[u].status != from then Silent(t, e)
            else
              && OnlyTouches(t, e.tables, u) && e.tables.turns == t.turns
              && e.tables.agents[u] == t.agents[u].(status := Ended, exitReason := Some(reason), moveState := NotMoving,
                                                    moveToken := None)
              && e.events == [AgentStatusChanged(u, Ended), AgentEnded(u)]
  {
  }

  lemma CancelLaw(t: AgentTables, u: Uuid)
    ensures var e := RequestCancel(t, u);
            && OnlyTouches(t, e.tables, u) && e.tables.turns == t.turns && e.events == []
            && (u in t.agents ==> e.tables.agents[u] == t.agents[u].(cancelRequested := true))
  {
  }

  // ---- turns ----

  /** The turn keeps its first stamp; the idle clock stops in any case. */
  lemma WorkingSeenLaw(t: AgentTables, u: Uuid, n: nat, at: int)
    ensures var e, key := SetWorkingSeen(t, u, n, at), TurnKey(u, n);
            && OnlyTouches(t, e.tables, u) && e.tables.turns.Keys == t.turns.Keys && e.events == []
            && (u in t.agents ==> e.tables.agents[u] == t.agents[u].(idleSince := None))
            && (forall k :: k in t.turns && k != key ==> e.tables.turns[k] == t.turns[k])
            && (key in t.turns ==>
                  var was, now := t.turns[key], e.tables.turns[key];
                  && now.workingSeenAt == (if was.workingSeenAt == None then Some(at) else was.workingSeenAt)
                  && now.(workingSeenAt := was.workingSeenAt) == was)
  {
  }

  lemma IdleSinceLaw(t: AgentTables, u: Uuid, at: Option<int>)
    ensures var e := SetIdleSince(t, u, at);
            && OnlyTouches(t, e.tables, u) && e.tables.turns == t.turns && e.events == []
            && (u in t.agents ==> e.tables.agents[u] == t.agents[u].(idleSince := at))
  {
  }

  /** The next number, a working row with its clock and block cleared, and a fresh turn delivered at `at`. */
  lemma DeliverLaw(t: AgentTables, u: Uuid, source: Source, at: int)
    ensures var e := DeliverInput(t, u, source, at);
            if u !in t.agents || t.agents[u].status == Ended || t.agents[u].status == Lost
               || TurnKey(u, t.agents[u].inputSeq + 1) in t.turns then Silent(t, e)
            else
              var n := t.agents[u].inputSeq + 1;
              && OnlyTouches(t, e.tables, u) && e.events == [AgentStatusChanged(u, Working)]
              && e.tables.agents[u] == t.agents[u].(inputSeq := n, status := Working, blockedKind := None,
                                                    idleSince := None)
              && e.tables.turns.Keys == t.turns.Keys + {TurnKey(u, n)}
              && (forall key :: key in t.turns ==> e.tables.turns[key] == t.turns[key])
              && e.tables.turns[TurnKey(u, n)] == Turn(source, at, None, None, None)
  {
  }

  lemma StampLaw(t: AgentTables, u: Uuid, n: nat, at: int)
    ensures var e, key := StampWorkingSeen(t, u, n, at), TurnKey(u, n);
            && e.tables.agents == t.agents && e.tables.turns.Keys == t.turns.Keys && e.events == []
            && forall k :: k in t.turns ==>
                 e.tables.turns[k] == if k == key then t.turns[k].(workingSeenAt := Some(at)) else t.turns[k]
  {
  }

  lemma SettleLaw(t: AgentTables, u: Uuid, at: int)
    ensures var e := SettlePrimedIdle(t, u, at);
            if u !in t.agents || t.agents[u].status != Starting then Silent(t, e)
            else
              && OnlyTouches(t, e.tables, u) && e.tables.turns == t.turns && e.events == [AgentStatusChanged(u, Idle)]
              && e.tables.agents[u] == t.agents[u].(status := Idle, idleSince := Some(at))
  {
  }

  /**
   * An open turn is closed once. The agent becomes idle, and the completion is logged, exactly when it was working and
   * the turn was its newest; completing an older turn never settles a newer one.
   */
  lemma CompleteLaw(t: AgentTables, u: Uuid, n: nat, at: int)
    ensures var e, key := CompleteTurn(t, u, n, at), TurnKey(u, n);
            var opens := key in t.turns && t.turns[key].completedAt == None;
            var flips := opens && u in t.agents && t.agents[u].status == Working && t.agents[u].inputSeq == n;
            && OnlyTouches(t, e.tables, u) && e.tables.turns.Keys == t.turns.Keys
            && (forall k :: k in t.turns ==>
                  e.tables.turns[k]
                    == if k == key && opens then t.turns[k].(completedAt := Some(at)) else t.turns[k])
            && (u in t.agents ==> e.tables.agents[u] == if flips then t.agents[u].(status := Idle) else t.agents[u])
            && e.events == if flips then [TurnCompleted(u, n), AgentStatusChanged(u, Idle)] else []
  {
  }

  /** The same without the row: an open turn is closed and logged, whatever the agent's status. */
  lemma CompleteRowLaw(t: AgentTables, u: Uuid, n: nat, at: int)
    ensures var e, key := CompleteTurnRow(t, u, n, at), TurnKey(u, n);
            var opens := key in t.turns && t.turns[key].completedAt == None;
            && e.tables.agents == t.agents && e.tables.turns.Keys == t.turns.Keys
            && (forall k :: k in t.turns ==>
                  e.tables.turns[k]
                    == if k == key && opens then t.turns[k].(completedAt := Some(at)) else t.turns[k])
            && e.events == if opens then [TurnCompleted(u, n)] else []
  {
  }

  /** The turn is stamped in any case, unless the row write is turned down. */
  lemma BlockLaw(t: AgentTables, u: Uuid, n: nat, kind: string)
    ensures var e, key := MarkBlocked(t, u, n, kind), TurnKey(u, n);
            var changes := u in t.agents && t.agents[u].status != Blocked;
            if changes && !Unrivalled(t, u) then Silent(t, e)
            else
              && OnlyTouches(t, e.tables, u) && e.tables.turns.Keys == t.turns.Keys
              && (forall k :: k in t.turns ==>
                    e.tables.turns[k] == if k == key then t.turns[k].(blockedKind := Some(kind)) else t.turns[k])
              && (u in t.agents ==>
                    e.tables.agents[u]
                      == if changes then t.agents[u].(status := Blocked, blockedKind := Some(kind), idleSince := None)
                         else t.agents[u])
              && e.events == if changes then [AgentStatusChanged(u, Blocked)] else []
  {
    UnrivalledIsFree(t, u);
  }

  lemma MarkWorkingLaw(t: AgentTables, u: Uuid)
    ensures var e := MarkWorking(t, u);
            if u in t.agents
               && (t.agents[u].status == Idle || t.agents[u].status == Blocked || t.agents[u].status == Parked) then
              && OnlyTouches(t, e.tables, u) && e.tables.turns == t.turns
              && e.tables.agents[u] == t.agents[u].(status := Working, blockedKind := None, idleSince := None)
              && e.events == [AgentStatusChanged(u, Working)]
            else Silent(t, e)
  {
  }

  /** At a restart: busy agents lose their idle clock, idle ones start a new one, all others and unmanaged ones stay. */
  lemma RearmLaw(t: AgentTables, now: int)
    ensures var e := RearmIdleClocks(t, now);
            && e.tables.agents.Keys == t.agents.Keys && e.tables.turns == t.turns && e.events == []
            && forall u :: u in t.agents ==>
                 var row := t.agents[u];
                 e.tables.agents[u] == row.(idleSince :=
                   if row.managed && row.status in {Working, Blocked} then None
                   else if row.managed && row.status == Idle then Some(now) else row.idleSince)
  {
  }

  // ---- moves ----

  /** The lease is won exactly by a caller that finds the status it expects and no move in flight. */
  lemma BeginMoveLaw(t: AgentTables, u: Uuid, from: Status, move: MoveState, token: Token)
    ensures var e := BeginMove(t, u, from, move, token);
            && e.events == []
            && if u in t.agents && t.agents[u].status == from && t.agents[u].moveState == NotMoving then
                 && OnlyTouches(t, e.tables, u) && e.tables.turns == t.turns
                 && e.tables.agents[u] == t.agents[u].(moveState := move, moveToken := Some(token))
               else Silent(t, e)
  {
  }

  /** A finish needs the token, and a path that nobody took meanwhile. */
  lemma FinishLaw(t: AgentTables, u: Uuid, token: Token, terminal: string, pane: string, now: int)
    ensures var park := FinishPark(t, u, token, terminal, pane, now);
            var home := FinishUnpark(t, u, token, terminal, pane, now);
            if u in t.agents && t.agents[u].moveToken == Some(token) && Unrivalled(t, u) then
              var landed := t.agents[u].(moveState := NotMoving, moveToken := None, terminal := Some(terminal),
                                         pane := Some(pane));
              && OnlyTouches(t, park.tables, u) && OnlyTouches(t, home.tables, u)
              && park.tables.turns == home.tables.turns == t.turns
              && park.tables.agents[u] == landed.(status := Parked, parkedAt := Some(now))
              && home.tables.agents[u] == landed.(status := Idle, parkedAt := None, idleSince := Some(now))
              && park.events == [LocationChanged(u), AgentStatusChanged(u, Parked)]
              && home.events == [LocationChanged(u), AgentStatusChanged(u, Idle)]
            else Silent(t, park) && Silent(t, home)
  {
    UnrivalledIsFree(t, u);
  }

  lemma RollbackLaw(t: AgentTables, u: Uuid, token: Token)
    ensures var e := RollbackMove(t, u, token);
            && e.events == []
            && if u in t.agents && t.agents[u].moveToken == Some(token) then
                 && OnlyTouches(t, e.tables, u) && e.tables.turns == t.turns
                 && e.tables.agents[u] == t.agents[u].(moveState := NotMoving, moveToken := None)
               else Silent(t, e)
  {
  }

  // ---- discovery ----

  lemma DiscoverLaw(t: AgentTables, u: Uuid, path: string, provider: string, terminal: string, pane: string,
                    status: Status)
    ensures var e := InsertUnmanaged(t, u, path, provider, terminal, pane, status);
            var refused := u in t.agents
                           || (status != Ended
                               && exists v :: v in t.agents && t.agents[v].path == path && t.agents[v].status != Ended);
            && (refused ==> Silent(t, e))
            && (!refused ==>
                  && e.tables.agents.Keys == t.agents.Keys + {u} && e.tables.turns == t.turns
                  && e.events == [AgentCreated(u, status)]
                  && (forall v :: v in t.agents ==> e.tables.agents[v] == t.agents[v])
                  && var row := e.tables.agents[u];
                     && !row.managed && row.status == status && row.path == path && row.provider == provider
                     && row.terminal == Some(terminal) && row.pane == Some(pane) && row.queueSeq == None
                     && row.inputSeq == 0 && row.moveState == NotMoving && row.moveToken == None)
  {
  }

  lemma RefreshLaw(t: AgentTables, u: Uuid, status: Status, pane: string)
    ensures var e := UpdateUnmanaged(t, u, status, pane);
            if u !in t.agents || (status != t.agents[u].status && status != Ended && !Unrivalled(t, u)) then
              Silent(t, e)
            else
              && OnlyTouches(t, e.tables, u) && e.tables.turns == t.turns
              && e.tables.agents[u] == t.agents[u].(pane := Some(pane), status := status)
              && e.events == if status == t.agents[u].status then [] else [AgentStatusChanged(u, status)]
  {
    UnrivalledIsFree(t, u);
  }
}
