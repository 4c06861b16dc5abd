/**
 * The store: one object whose methods are the transactions. Each method changes the tables in place, step by step
 * as its SQL does, and is proved to commit exactly the effect that the whole-run theorems reason about.
 */
module Store {
  import opened Rows
  import opened EventLog
  import T = AgentTx
  import opened Promotion
  import opened AgentQueue
  import L = LoopTx

  /** Errors that abort a transaction: nothing it did is kept. */
  datatype StoreError = NotFound | PathInUse | NameInUse | DuplicateKey

  datatype Reply<+V> = Fine(value: V) | Aborted(error: StoreError)

  datatype RunAllocation = Allocated(run: Uuid, startNow: bool) | Coalesced(run: Uuid) | Skipped

  class Store {
    var agents: map<Uuid, Agent>
    var turns: map<TurnKey, Turn>
    var loops: map<Uuid, Loop>
    var runs: map<Uuid, LoopRun>
    var log: EventTable

    ghost function Agents(): AgentTables
      reads this`agents, this`turns
    {
      AgentTables(agents, turns)
    }

    ghost function Loops(): LoopTables
      reads this`loops, this`runs
    {
      LoopTables(loops, runs)
    }

    /** The call committed exactly `e` to the agent tables and the log; `ev` is the last event written, 0 for none. */
    twostate predicate Wrote(e: T.Effect, ev: nat)
      reads this`agents, this`turns, this`log
    {
      && Agents() == e.tables && log == old(log).AppendAll(e.events)
      && ev == if e.events == [] then 0 else log.autoinc
    }

    twostate predicate WroteLoops(e: L.LoopEffect, ev: nat)
      reads this`loops, this`runs, this`log
    {
      && Loops() == e.tables && log == old(log).AppendAll(e.events)
      && ev == if e.events == [] then 0 else log.autoinc
    }

    constructor ()
      ensures Agents() == AgentTables(map[], map[]) && Loops() == LoopTables(map[], map[]) && log == EMPTY
    {
      agents, turns, loops, runs, log := map[], map[], map[], map[], EMPTY;
    }

    // ---- events ----

    method Emit(e: Event) returns (ev: nat)
      modifies this`log
      ensures log == old(log).AppendAll([e]) && log == old(log).Append(e) && ev == log.autoinc > 0
    {
      log := EventTable(log.rows + [EventRow(log.autoinc + 1, e)], log.autoinc + 1);
      ev := log.autoinc;
      AppendAllOne(old(log), e);
    }

    method EmitTwo(e: Event, f: Event) returns (ev: nat)
      modifies this`log
      ensures log == old(log).AppendAll([e, f]) && ev == log.autoinc > 0
    {
      var _ := Emit(e);
      ev := Emit(f);
      AppendAllTwo(old(log), e, f);
    }

    /** Rows numbered above `since`, oldest first, up to `limit`. */
    method EventsSince(since: int, limit: nat) returns (rows: seq<EventRow>)
      ensures rows == log.Since(since, limit)
    {
      rows := [];
      var i := 0;
      while i < |log.rows| && |rows| < limit
        invariant i <= |log.rows| && |rows| <= limit
        invariant rows == Above(log.rows[..i], since)
      {
        AboveSnoc(log.rows[..i], log.rows[i], since);
        assert log.rows[..i + 1] == log.rows[..i] + [log.rows[i]];
        if log.rows[i].seqNo > since {
          rows := rows + [log.rows[i]];
        }
        i := i + 1;
      }
      AboveConcat(log.rows[..i], log.rows[i..], since);
      assert log.rows == log.rows[..i] + log.rows[i..];
    }

    /** Keeps the newest `keep` numbers; returns the lowest one left, 0 when the table is empty. */
    method TrimEvents(keep: int) returns (oldest: nat)
      modifies this`log
      ensures log == old(log).Trim(keep)
      ensures oldest == if log.rows == [] then 0 else log.Oldest()
    {
      var cut := log.Latest() - if keep < 0 then 0 else keep;
      var kept, i := [], 0;
      while i < |log.rows|
        invariant i <= |log.rows| && log == old(log)
        invariant kept == Above(log.rows[..i], cut)
      {
        AboveSnoc(log.rows[..i], log.rows[i], cut);
        assert log.rows[..i + 1] == log.rows[..i] + [log.rows[i]];
        if !(log.rows[i].seqNo <= cut) {
          kept := kept + [log.rows[i]];
        }
        i := i + 1;
      }
      assert log.rows[..i] == log.rows;
      log := EventTable(kept, log.autoinc);
      oldest := if kept == [] then 0 else kept[0].seqNo;
    }

    // ---- the queue ----

    method NextQueueSeq() returns (next: nat)
      ensures next == T.MaxQueueSeq(agents) + 1
    {
      var max: nat := 0;
      var todo := agents.Keys;
      while todo != {}
        invariant todo <= agents.Keys
        invariant forall u :: u in agents && u !in todo && agents[u].queueSeq.Some? ==> agents[u].queueSeq.value <= max
        invariant max == 0 || exists u :: u in agents && agents[u].queueSeq == Some(max)
        decreases todo
      {
        var u :| u in todo;
        if agents[u].queueSeq.Some? && agents[u].queueSeq.value > max {
          max := agents[u].queueSeq.value;
        }
        todo := todo - {u};
      }
      next := max + 1;
    }

    method EnqueueAgent(u: Uuid, a: T.NewAgent) returns (reply: Reply<nat>, ev: nat)
      modifies this`agents, this`log
      ensures Wrote(T.Enqueue(old(Agents()), u, a), ev)
      ensures reply.Fine? <==> T.CanEnqueue(old(Agents()), u, a)
      ensures reply.Fine? ==> agents[u].queueSeq == Some(reply.value)
    {
      ev := 0;
      if exists v :: v in agents && agents[v].status != Ended && agents[v].path == a.path {
        return Aborted(PathInUse), 0;
      }
      if u in agents {
        return Aborted(DuplicateKey), 0;
      }
      var queueSeq := NextQueueSeq();
      agents := agents[u := T.QueuedRow(a, queueSeq)];
      ev := Emit(AgentCreated(u, Queued));
      reply := Fine(queueSeq);
    }

    /** `ORDER BY queue_seq ASC` over the queued rows, by repeated selection. */
    method QueuedInOrder() returns (q: seq<Uuid>)
      requires QueueSeqsDistinct(agents)
      ensures q == QueueOrder(agents)
    {
      q := [];
      var todo := set u | u in agents && agents[u].status == Queued;
      while todo != {}
        invariant todo <= QueuedRows(agents)
        invariant Ordered(agents, QueuedRows(agents) - todo, q)
        invariant forall u, v :: u in q && v in todo ==> SeqOf(agents, u) < SeqOf(agents, v)
        decreases todo
      {
        var first :| first in todo;
        var rest := todo - {first};
        while rest != {}
          invariant first in todo && rest <= todo
          invariant forall v :: v in todo && v !in rest && v != first ==> SeqOf(agents, first) < SeqOf(agents, v)
          decreases rest
        {
          var v :| v in rest;
          rest := rest - {v};
          if v != first && SeqOf(agents, v) < SeqOf(agents, first) {
            first := v;
          }
        }
        OrderedSnoc(agents, QueuedRows(agents) - todo, q, first);
        assert QueuedRows(agents) - (todo - {first}) == QueuedRows(agents) - todo + {first};
        q := q + [first];
        todo := todo - {first};
      }
      assert QueuedRows(agents) - todo == QueuedRows(agents);
      QueueOrderIs(agents, q);
    }

    /** One promotion: the row and its two events. */
    method PromoteOne(u: Uuid, now: int) returns (ev: nat)
      requires u in agents
      modifies this`agents, this`log
      ensures agents == old(agents)[u := Promoted(old(agents)[u], now)] && ev == log.autoinc
      ensures log == old(log).AppendAll([QueuePromoted(u), AgentStatusChanged(u, Starting)])
    {
      agents := agents[u := agents[u].(status := Starting, startingAt := Some(now))];
      ev := EmitTwo(QueuePromoted(u), AgentStatusChanged(u, Starting));
    }

    /** The greedy pass over the candidates, counting used slots in `g` and `counts`. */
    method RunPass(candidates: seq<Uuid>, lim: Limits, now: int, g: nat, counts: map<string, nat>)
      returns (promoted: seq<Uuid>, ev: nat)
      requires forall u :: u in candidates ==> u in agents
      modifies this`agents, this`log
      ensures var p := PassAt(old(Pass(agents, log, [], g, counts)), candidates, lim, now, |candidates|);
              agents == p.agents && log == p.log && promoted == p.promoted
      ensures ev == if promoted == [] then 0 else log.autoinc
    {
      var globalUsed: nat, used: map<string, nat> := g, counts;
      ghost var start := Pass(agents, log, [], g, counts);
      promoted, ev := [], 0;
      var i := 0;
      while i < |candidates| && globalUsed < lim.globalMax
        invariant i <= |candidates|
        invariant Pass(agents, log, promoted, globalUsed, used) == PassAt(start, candidates, lim, now, i)
        invariant ev == if promoted == [] then 0 else log.autoinc
      {
        var u := candidates[i];
        var provider := agents[u].provider;
        if UsedOf(used, provider) < lim.CapOf(provider) {
          ev := PromoteOne(u, now);
          globalUsed, used, promoted := globalUsed + 1, Bump(used, provider), promoted + [u];
        }
        i := i + 1;
      }
      PassStops(start, candidates, lim, now, i, |candidates|);
    }

    method PromoteQueued(lim: Limits, now: int) returns (promoted: seq<Uuid>, ev: nat)
      requires QueueSeqsDistinct(agents)
      modifies this`agents, this`log
      ensures Wrote(Promote(old(Agents()), lim, now), ev)
      ensures promoted == Selected(QueueOrder(old(agents)), PromotionMask(old(agents), lim))
    {
      var globalUsed: nat := |LiveRows(agents)|;
      var used: map<string, nat> := GroupCounts(agents, LiveRows(agents));
      var candidates := QueuedInOrder();
      PassPromotes(Agents(), Pass(agents, log, [], globalUsed, used), lim, now);
      promoted, ev := RunPass(candidates, lim, now, globalUsed, used);
    }

    // ---- lifecycle ----

    method RecordLocation(u: Uuid, terminal: string, pane: string) returns (ev: nat)
      modifies this`agents, this`log
      ensures Wrote(T.RecordLocation(old(Agents()), u, terminal, pane), ev)
    {
      if u in agents {
        agents := agents[u := agents[u].(terminal := Some(terminal), pane := Some(pane))];
      }
      ev := Emit(LocationChanged(u));
    }

    /** A row that is gone is reported; reviving an ended row whose path was reused aborts. */
    method TransitionStatus(u: Uuid, status: Status, reason: Option<string>) returns (reply: Reply<nat>)
      modifies this`agents, this`log
      ensures Wrote(T.TransitionStatus(old(Agents()), u, status, reason), if reply.Fine? then reply.value else 0)
      ensures reply == Aborted(NotFound) <==> u !in old(agents)
      ensures reply.Fine? ==> reply.value > 0
    {
      if u !in agents {
        return Aborted(NotFound);
      }
      var row := agents[u].(status := status);
      if reason.Some? {
        row := row.(exitReason := reason);
      }
      if status != Ended && !T.PathFree(agents, u, row.path) {
        return Aborted(PathInUse);
      }
      agents := agents[u := row];
      var ev;
      if status == Ended {
        ev := EmitTwo(AgentStatusChanged(u, status), AgentEnded(u));
      } else {
        ev := Emit(AgentStatusChanged(u, status));
      }
      reply := Fine(ev);
    }

    method EndIfStatus(u: Uuid, from: Status, reason: string) returns (ev: nat)
      modifies this`agents, this`log
      ensures Wrote(T.EndIfStatus(old(Agents()), u, from, reason), ev)
      ensures ev > 0 <==> u in old(agents) && old(agents)[u].status == from
    {
      ev := 0;
      if u in agents && agents[u].status == from {
        agents := agents[u := agents[u].(status := Ended, exitReason := Some(reason), moveState := NotMoving,
                                         moveToken := None)];
        ev := EmitTwo(AgentStatusChanged(u, Ended), AgentEnded(u));
      }
    }

    method RequestCancel(u: Uuid) returns (existed: bool)
      modifies this`agents
      ensures Wrote(T.RequestCancel(old(Agents()), u), 0) && (existed <==> u in old(agents))
    {
      existed := u in agents;
      if existed {
        agents := agents[u := agents[u].(cancelRequested := true)];
      }
    }

    // ---- turns ----

    /** The highest turn number of an agent, if it has any turn. */
    method LatestTurn(u: Uuid) returns (latest: Option<nat>)
      ensures latest.Some? ==> TurnKey(u, latest.value) in turns
      ensures forall m: nat :: TurnKey(u, m) in turns ==> latest.Some? && m <= latest.value
    {
      latest := None;
      var todo := turns.Keys;
      while todo != {}
        invariant todo <= turns.Keys
        invariant latest.Some? ==> TurnKey(u, latest.value) in turns
        invariant forall m: nat :: TurnKey(u, m) in turns && TurnKey(u, m) !in todo ==>
                    latest.Some? && m <= latest.value
        decreases todo
      {
        var key :| key in todo;
        if key.agent == u && (latest.None? || key.inputSeq > latest.value) {
          latest := Some(key.inputSeq);
        }
        todo := todo - {key};
      }
    }

    /** Two statements of one transaction: stamp the turn unless it is stamped, and stop the idle clock. */
    method SetWorkingSeen(u: Uuid, n: nat, at: int)
      modifies this`agents, this`turns
      ensures Wrote(T.SetWorkingSeen(old(Agents()), u, n, at), 0)
    {
      var key := TurnKey(u, n);
      if key in turns && turns[key].workingSeenAt.None? {
        turns := turns[key := turns[key].(workingSeenAt := Some(at))];
      }
      if u in agents {
        agents := agents[u := agents[u].(idleSince := None)];
      }
    }

    method SetIdleSince(u: Uuid, at: Option<int>)
      modifies this`agents
      ensures Wrote(T.SetIdleSince(old(Agents()), u, at), 0)
    {
      if u in agents {
        agents := agents[u := agents[u].(idleSince := at)];
      }
    }

    /** `None` for a row that is gone, ended or lost; the turn number and event otherwise. */
    method DeliverInput(u: Uuid, source: Source, at: int) returns (reply: Reply<Option<nat>>, ev: nat)
      modifies this`agents, this`turns, this`log
      ensures Wrote(T.DeliverInput(old(Agents()), u, source, at), ev)
      ensures reply == Fine(None) <==> u !in old(agents) || T.Terminal(old(agents)[u].status)
      ensures T.Deliverable(old(Agents()), u) <==> reply.Fine? && reply.value.Some?
      ensures T.Deliverable(old(Agents()), u) ==> reply.value == Some(old(agents)[u].inputSeq + 1)
    {
      if u !in agents || agents[u].status == Ended || agents[u].status == Lost {
        return Fine(None), 0;
      }
      var row := agents[u];
      var n := row.inputSeq + 1;
      if TurnKey(u, n) in turns {
        return Aborted(DuplicateKey), 0;
      }
      agents := agents[u := row.(inputSeq := n, status := Working, blockedKind := None, idleSince := None)];
      turns := turns[TurnKey(u, n) := Turn(source, at, None, None, None)];
      ev := Emit(AgentStatusChanged(u, Working));
      reply := Fine(Some(n));
    }

    /** Two transactions: deliver as `external`, then stamp the turn as seen working. */
    method OpenExternalTurn(u: Uuid, at: int) returns (reply: Reply<Option<nat>>, ev: nat)
      modifies this`agents, this`turns, this`log
      ensures var first := T.DeliverInput(old(Agents()), u, External, at);
              && log == old(log).AppendAll(first.events)
              && Agents() == if T.Deliverable(old(Agents()), u)
                             then T.StampWorkingSeen(first.tables, u, old(agents)[u].inputSeq + 1, at).tables
                             else first.tables
    {
      reply, ev := DeliverInput(u, External, at);
      if reply.Fine? && reply.value.Some? {
        var key := TurnKey(u, reply.value.value);
        if key in turns {
          turns := turns[key := turns[key].(workingSeenAt := Some(at))];
        }
      }
    }

    method SettlePrimedIdle(u: Uuid, at: int) returns (ev: nat)
      modifies this`agents, this`log
      ensures Wrote(T.SettlePrimedIdle(old(Agents()), u, at), ev)
    {
      ev := 0;
      if u in agents && agents[u].status == Starting {
        agents := agents[u := agents[u].(status := Idle, idleSince := Some(at))];
        ev := Emit(AgentStatusChanged(u, Idle));
      }
    }

    method CompleteTurn(u: Uuid, n: nat, at: int) returns (ev: nat)
      modifies this`agents, this`turns, this`log
      ensures Wrote(T.CompleteTurn(old(Agents()), u, n, at), ev)
    {
      var key := TurnKey(u, n);
      if key !in turns || turns[key].completedAt.Some? {
        return 0;
      }
      turns := turns[key := turns[key].(completedAt := Some(at))];
      if u !in agents || agents[u].status != Working || agents[u].inputSeq != n {
        return 0;
      }
      agents := agents[u := agents[u].(status := Idle)];
      ev := EmitTwo(TurnCompleted(u, n), AgentStatusChanged(u, Idle));
    }

    method CompleteTurnRow(u: Uuid, n: nat, at: int) returns (ev: nat)
      modifies this`turns, this`log
      ensures Wrote(T.CompleteTurnRow(old(Agents()), u, n, at), ev)
    {
      var key := TurnKey(u, n);
      if key !in turns || turns[key].completedAt.Some? {
        return 0;
      }
      turns := turns[key := turns[key].(completedAt := Some(at))];
      ev := Emit(TurnCompleted(u, n));
    }

    method MarkBlocked(u: Uuid, n: nat, kind: string) returns (reply: Reply<nat>)
      modifies this`agents, this`turns, this`log
      ensures Wrote(T.MarkBlocked(old(Agents()), u, n, kind), if reply.Fine? then reply.value else 0)
    {
      var changed := u in agents && agents[u].status != Blocked;
      if changed && !T.PathFree(agents, u, agents[u].path) {
        return Aborted(PathInUse);
      }
      if changed {
        agents := agents[u := agents[u].(status := Blocked, blockedKind := Some(kind), idleSince := None)];
      }
      var key := TurnKey(u, n);
      if key in turns {
        turns := turns[key := turns[key].(blockedKind := Some(kind))];
      }
      if !changed {
        return Fine(0);
      }
      var ev := Emit(AgentStatusChanged(u, Blocked));
      reply := Fine(ev);
    }

    method MarkWorking(u: Uuid) returns (ev: nat)
      modifies this`agents, this`log
      ensures Wrote(T.MarkWorking(old(Agents()), u), ev)
    {
      ev := 0;
      if u in agents && (agents[u].status == Idle || agents[u].status == Blocked || agents[u].status == Parked) {
        agents := agents[u := agents[u].(status := Working, blockedKind := None, idleSince := None)];
        ev := Emit(AgentStatusChanged(u, Working));
      }
    }

    method RecordCapture(u: Uuid) returns (ev: nat)
      modifies this`log
      ensures Wrote(T.RecordCapture(old(Agents()), u), ev)
    {
      ev := Emit(ResponseCaptured(u));
    }

    /** Two updates over all managed rows: stop the clock of busy agents, restart that of idle ones. */
    method RearmIdleClocks(now: int)
      modifies this`agents
      ensures Wrote(T.RearmIdleClocks(old(Agents()), now), 0)
    {
      agents := map u | u in agents :: ClockStopped(agents[u]);
      agents := map u | u in agents :: ClockRestarted(agents[u], now);
    }

    // ---- two-phase moves ----

    method BeginMove(u: Uuid, from: Status, move: MoveState, token: Token) returns (won: bool)
      modifies this`agents
      ensures Wrote(T.BeginMove(old(Agents()), u, from, move, token), 0)
              && (won <==> T.WinsMove(old(Agents()), u, from))
    {
      won := u in agents && agents[u].status == from && agents[u].moveState == NotMoving;
      if won {
        agents := agents[u := agents[u].(moveState := move, moveToken := Some(token))];
      }
    }

    method FinishPark(u: Uuid, token: Token, terminal: string, pane: string, now: int) returns (reply: Reply<nat>)
      modifies this`agents, this`log
      ensures Wrote(T.FinishPark(old(Agents()), u, token, terminal, pane, now), if reply.Fine? then reply.value else 0)
      ensures reply == Fine(0) <==> !T.HoldsToken(old(Agents()), u, token)
    {
      if u !in agents || agents[u].moveToken != Some(token) {
        return Fine(0);
      }
      if !T.PathFree(agents, u, agents[u].path) {
        return Aborted(PathInUse);
      }
      agents := agents[u := agents[u].(status := Parked, moveState := NotMoving, moveToken := None,
                                       parkedAt := Some(now), terminal := Some(terminal), pane := Some(pane))];
      var ev := EmitTwo(LocationChanged(u), AgentStatusChanged(u, Parked));
      reply := Fine(ev);
    }

    method FinishUnpark(u: Uuid, token: Token, terminal: string, pane: string, now: int) returns (reply: Reply<nat>)
      modifies this`agents, this`log
      ensures Wrote(T.FinishUnpark(old(Agents()), u, token, terminal, pane, now),
                    if reply.Fine? then reply.value else 0)
      ensures reply == Fine(0) <==> !T.HoldsToken(old(Agents()), u, token)
    {
      if u !in agents || agents[u].moveToken != Some(token) {
        return Fine(0);
      }
      if !T.PathFree(agents, u, agents[u].path) {
        return Aborted(PathInUse);
      }
      agents := agents[u := agents[u].(status := Idle, moveState := NotMoving, moveToken := None, parkedAt := None,
                                       idleSince := Some(now), terminal := Some(terminal), pane := Some(pane))];
      var ev := EmitTwo(LocationChanged(u), AgentStatusChanged(u, Idle));
      reply := Fine(ev);
    }

    method RollbackMove(u: Uuid, token: Token) returns (rolledBack: bool)
      modifies this`agents
      ensures Wrote(T.RollbackMove(old(Agents()), u, token), 0)
              && (rolledBack <==> T.HoldsToken(old(Agents()), u, token))
    {
      rolledBack := u in agents && agents[u].moveToken == Some(token);
      if rolledBack {
        agents := agents[u := agents[u].(moveState := NotMoving, moveToken := None)];
      }
    }

    // ---- unmanaged discovery ----

    method InsertUnmanaged(u: Uuid, path: string, provider: string, terminal: string, pane: string, status: Status)
      returns (reply: Reply<nat>)
      modifies this`agents, this`log
      ensures Wrote(T.InsertUnmanaged(old(Agents()), u, path, provider, terminal, pane, status),
                    if reply.Fine? then reply.value else 0)
    {
      if u in agents {
        return Aborted(DuplicateKey);
      }
      if status != Ended && !T.PathFree(agents, u, path) {
        return Aborted(PathInUse);
      }
      agents := agents[u := T.UnmanagedRow(path, provider, terminal, pane, status)];
      var ev := Emit(AgentCreated(u, status));
      reply := Fine(ev);
    }

    /** The pane is refreshed in the same transaction, so an aborted status change takes it back. */
    method UpdateUnmanaged(u: Uuid, status: Status, pane: string) returns (reply: Reply<nat>)
      modifies this`agents, this`log
      ensures Wrote(T.UpdateUnmanaged(old(Agents()), u, status, pane), if reply.Fine? then reply.value else 0)
    {
      if u !in agents {
        return Fine(0);
      }
      var before := agents;
      var was := agents[u].status;
      agents := agents[u := agents[u].(pane := Some(pane))];
      if was == status {
        return Fine(0);
      }
      assert forall v :: v in agents && v != u ==> v in before && agents[v] == before[v];
      assert forall v :: v in before ==> v in agents;
      if status != Ended && !T.PathFree(agents, u, agents[u].path) {
        agents := before;
        return Aborted(PathInUse);
      }
      agents := agents[u := agents[u].(status := status)];
      assert agents == before[u := agents[u]];
      var ev := Emit(AgentStatusChanged(u, status));
      reply := Fine(ev);
    }

    // ---- loops ----

    method CreateLoop(u: Uuid, l: L.NewLoop) returns (reply: Reply<nat>)
      modifies this`loops, this`log
      ensures WroteLoops(L.CreateLoop(old(Loops()), u, l), if reply.Fine? then reply.value else 0)
    {
      if exists v :: v in loops && loops[v].status != LoopEnded && loops[v].name == l.name {
        return Aborted(NameInUse);
      }
      if u in loops {
        return Aborted(DuplicateKey);
      }
      loops := loops[u := Loop(l.name, l.cadence, l.maxConcurrency, l.overlap, Active, l.nextFireAt, None)];
      var ev := Emit(LoopCreated(u));
      reply := Fine(ev);
    }

    method SetLoopStatus(u: Uuid, status: LoopStatus) returns (reply: Reply<nat>)
      modifies this`loops, this`log
      ensures WroteLoops(L.SetLoopStatus(old(Loops()), u, status), if reply.Fine? then reply.value else 0)
    {
      if u in loops {
        if status != LoopEnded && !L.NameFree(loops, u, loops[u].name) {
          return Aborted(NameInUse);
        }
        var next := if status == LoopEnded then None else loops[u].nextFireAt;
        loops := loops[u := loops[u].(status := status, nextFireAt := next)];
      }
      var ev := Emit(LoopStatusSet(u, status));
      reply := Fine(ev);
    }

    method SetNextFire(u: Uuid, at: Option<int>)
      modifies this`loops
      ensures WroteLoops(L.SetNextFire(old(Loops()), u, at), 0)
    {
      if u in loops {
        loops := loops[u := loops[u].(nextFireAt := at)];
      }
    }

    /** The schedule advance that shares the transaction of a scheduled fire. */
    method AdvanceSchedule(u: Uuid, adv: Option<L.ScheduleAdvance>, now: int, base: nat) returns (ev: nat)
      modifies this`loops, this`log
      ensures loops == L.ApplyAdvance(old(loops), u, adv, now)
      ensures log == old(log).AppendAll(L.AdvanceEvents(u, adv))
      ensures ev == (if L.AdvanceEvents(u, adv) == [] then base else log.autoinc) && (base > 0 ==> ev > 0)
    {
      ev := base;
      if adv.Some? {
        if u in loops {
          loops := loops[u := loops[u].(lastFireAt := Some(now))];
        }
        match adv.value
        case EndOnce =>
          if u in loops {
            loops := loops[u := loops[u].(status := LoopEnded, nextFireAt := None)];
          }
          ev := Emit(LoopStatusSet(u, LoopEnded));
        case NextFire(at) =>
          if u in loops {
            loops := loops[u := loops[u].(nextFireAt := at)];
          }
      }
    }

    /**
     * Fold, drop or insert the run; `newId` is the fresh run id. At most one scheduled run is ever pending per loop.
     */
    method AllocateRun(loop: Uuid, newId: Uuid, kind: RunKind, due: int, max: int, overlap: Overlap,
                       adv: Option<L.ScheduleAdvance>, now: int) returns (reply: Reply<RunAllocation>, ev: nat)
      requires forall r, s :: L.PendingScheduled(runs, loop, r) && L.PendingScheduled(runs, loop, s) ==> r == s
      modifies this`loops, this`runs, this`log
      ensures WroteLoops(L.AllocateRun(old(Loops()), loop, newId, kind, due, max, overlap, adv, now), ev)
      ensures reply.Fine? ==>
                reply.value == match L.Decide(old(Loops()), loop, kind, max, overlap)
                               case Skipped => Skipped
                               case Coalesced(r) => Coalesced(r)
                               case Allocated(startNow) => Allocated(newId, startNow)
    {
      var atCapacity := |L.ActiveRuns(runs, loop)| >= max;
      if kind == Scheduled && atCapacity {
        if overlap == Skip {
          ev := Emit(LoopSkipped(loop, due));
          ev := FinishFire(LoopSkipped(loop, due), loop, adv, now, ev);
          return Fine(Skipped), ev;
        }
        if exists r :: r in runs && L.PendingScheduled(runs, loop, r) {
          var r :| r in runs && L.PendingScheduled(runs, loop, r);
          runs := runs[r := runs[r].(dueAt := if runs[r].dueAt <= due then runs[r].dueAt else due)];
          ev := Emit(LoopCoalesced(loop, r, due));
          ev := FinishFire(LoopCoalesced(loop, r, due), loop, adv, now, ev);
          return Fine(Coalesced(r)), ev;
        }
      }
      if newId in runs {
        return Aborted(DuplicateKey), 0;
      }
      var status := if atCapacity then Pending else Running;
      runs := runs[newId := LoopRun(loop, kind, due, status, now, None, None)];
      ev := Emit(LoopFired(loop, newId, kind, due, atCapacity));
      ev := FinishFire(LoopFired(loop, newId, kind, due, atCapacity), loop, adv, now, ev);
      reply := Fine(Allocated(newId, !atCapacity));
    }

    /** Reserves a free slot for the pending run that has waited longest, by due time and then by creation. */
    method ClaimPendingRun(loop: Uuid, max: int) returns (claimed: Option<Uuid>)
      modifies this`runs
      ensures claimed.Some? ==> L.OldestPending(old(runs), loop, claimed.value)
                                && WroteLoops(L.ClaimPending(old(Loops()), loop, max, claimed.value), 0)
                                && Loops() != old(Loops())
      ensures claimed.None? ==>
                && runs == old(runs)
                && (|| |L.ActiveRuns(runs, loop)| >= max
                    || forall r :: r in runs && runs[r].loop == loop ==> runs[r].status != Pending)
    {
      if |L.ActiveRuns(runs, loop)| >= max {
        return None;
      }
      var waiting := set r | r in runs && runs[r].loop == loop && runs[r].status == Pending;
      assert forall r :: r in runs && runs[r].loop == loop && runs[r].status == Pending ==> r in waiting;
      if waiting == {} {
        return None;
      }
      var first :| first in waiting;
      var rest := waiting - {first};
      while rest != {}
        invariant first in waiting && rest <= waiting
        invariant forall s :: s in waiting && s !in rest ==>
                    || runs[first].dueAt < runs[s].dueAt
                    || (runs[first].dueAt == runs[s].dueAt && runs[first].createdAt <= runs[s].createdAt)
        decreases rest
      {
        var s :| s in rest;
        rest := rest - {s};
        if runs[s].dueAt < runs[first].dueAt || (runs[s].dueAt == runs[first].dueAt
                                                 && runs[s].createdAt < runs[first].createdAt) {
          first := s;
        }
      }
      assert L.OldestPending(runs, loop, first);
      runs := runs[first := runs[first].(status := Running)];
      claimed := Some(first);
    }

    method RecordRunStart(r: Uuid, pid: int, timeoutAt: Option<int>) returns (ev: nat)
      modifies this`runs, this`log
      ensures WroteLoops(L.RecordStart(old(Loops()), r, pid, timeoutAt), ev)
    {
      ev := 0;
      if r in runs && (runs[r].status == Running || runs[r].status == Stopping) {
        runs := runs[r := runs[r].(pid := Some(pid), timeoutAt := timeoutAt)];
        ev := Emit(RunStarted(r));
      }
    }

    method FinishRun(r: Uuid, outcome: Outcome) returns (ev: nat)
      modifies this`runs, this`log
      ensures WroteLoops(L.FinishRun(old(Loops()), r, outcome), ev)
    {
      ev := 0;
      if r in runs && (runs[r].status == Running || runs[r].status == Stopping) {
        runs := runs[r := runs[r].(status := Done(outcome))];
        ev := Emit(RunEnded(r, Done(outcome)));
      }
    }

    method SetRunStopping(r: Uuid) returns (ev: nat)
      modifies this`runs, this`log
      ensures WroteLoops(L.SetStopping(old(Loops()), r), ev)
    {
      ev := 0;
      if r in runs && runs[r].status == Running {
        runs := runs[r := runs[r].(status := Stopping)];
        ev := Emit(RunStopping(r));
      }
    }

    method CancelPendingRun(r: Uuid) returns (ev: nat)
      modifies this`runs, this`log
      ensures WroteLoops(L.CancelPending(old(Loops()), r), ev)
    {
      ev := 0;
      if r in runs && runs[r].status == Pending {
        runs := runs[r := runs[r].(status := Canceled)];
        ev := Emit(RunEnded(r, Canceled));
      }
    }

    /** The advance, seen from the whole transaction that has logged `first`. */
    method FinishFire(first: Event, u: Uuid, adv: Option<L.ScheduleAdvance>, now: int, base: nat) returns (ev: nat)
      requires base == log.autoinc > 0
      modifies this`loops, this`log
      ensures loops == L.ApplyAdvance(old(loops), u, adv, now)
      ensures ev == log.autoinc > 0
      ensures forall was: EventTable :: old(log) == was.AppendAll([first]) ==>
                log == was.AppendAll([first] + L.AdvanceEvents(u, adv))
    {
      ghost var log0 := log;
      ev := AdvanceSchedule(u, adv, now, base);
      forall was: EventTable | log0 == was.AppendAll([first])
        ensures log == was.AppendAll([first] + L.AdvanceEvents(u, adv))
      {
        AppendAllSplit(was, [first], L.AdvanceEvents(u, adv));
      }
    }
  }

  function ClockStopped(row: Agent): Agent {
    if row.managed && (row.status == Working || row.status == Blocked) then row.(idleSince := None) else row
  }

  function ClockRestarted(row: Agent, now: int): Agent {
    if row.managed && row.status == Idle then row.(idleSince := Some(now)) else row
  }

  /** What the greedy pass has built, and the counters it goes by. */
  datatype Pass = Pass(agents: map<Uuid, Agent>, log: EventTable, promoted: seq<Uuid>, globalUsed: nat,
                       used: map<string, nat>)

  function Admit(p: Pass, u: Uuid, now: int): Pass
    requires u in p.agents
  {
    Pass(p.agents[u := Promoted(p.agents[u], now)],
         p.log.AppendAll([QueuePromoted(u), AgentStatusChanged(u, Starting)]),
         p.promoted + [u], p.globalUsed + 1, Bump(p.used, p.agents[u].provider))
  }

  /** One candidate: admitted while both counters allow it. */
  function Turn(p: Pass, u: Uuid, lim: Limits, now: int): Pass
    requires u in p.agents
  {
    if Admits(p.globalUsed, p.used, lim, p.agents[u].provider) then Admit(p, u, now) else p
  }

  /** The pass after its first `i` candidates. */
  function PassAt(start: Pass, q: seq<Uuid>, lim: Limits, now: int, i: nat): (p: Pass)
    requires i <= |q| && forall u :: u in q ==> u in start.agents
    ensures p.agents.Keys == start.agents.Keys
  {
    if i == 0 then start
    else
      var before := PassAt(start, q, lim, now, i - 1);
      assert q[i - 1] in before.agents.Keys;
      Turn(before, q[i - 1], lim, now)
  }

  /** Once every slot is taken, the remaining candidates change nothing. */
  lemma {:induction false} PassStops(start: Pass, q: seq<Uuid>, lim: Limits, now: int, i: nat, k: nat)
    requires i <= k <= |q| && forall u :: u in q ==> u in start.agents
    requires i == k || PassAt(start, q, lim, now, i).globalUsed >= lim.globalMax
    ensures PassAt(start, q, lim, now, k) == PassAt(start, q, lim, now, i)
    decreases k
  {
    if k > i {
      PassStops(start, q, lim, now, i, k - 1);
    }
  }

  /** What the pass has done is what the greedy mask selects, and its counters go on as the mask does. */
  ghost predicate Follows(t: AgentTables, log0: EventTable, q: seq<Uuid>, mask: seq<bool>, lim: Limits, now: int,
                          i: nat, p: Pass)
    requires i <= |q| == |mask| && forall u :: u in q ==> u in t.agents
  {
    var e := PromoteUpTo(t, q, mask, now, i);
    && p.agents == e.tables.agents && p.log == log0.AppendAll(e.events)
    && p.promoted == Selected(q[..i], mask[..i]) && (p.promoted == [] <==> e.events == [])
    && mask[i..] == Greedy(ProvidersOf(t.agents, q)[i..], p.globalUsed, p.used, lim)
  }

  lemma {:induction false} PassFollowsMask(t: AgentTables, start: Pass, q: seq<Uuid>, mask: seq<bool>, lim: Limits,
                                           now: int, i: nat)
    requires (forall u :: u in q ==> u in t.agents) && start.agents == t.agents && start.promoted == [] && i <= |q|
    requires mask == Greedy(ProvidersOf(t.agents, q), start.globalUsed, start.used, lim)
    ensures Follows(t, start.log, q, mask, lim, now, i, PassAt(start, q, lim, now, i))
  {
    if i == 0 {
      assert mask[0..] == mask && ProvidersOf(t.agents, q)[0..] == ProvidersOf(t.agents, q);
    } else {
      PassFollowsMask(t, start, q, mask, lim, now, i - 1);
      TurnFollowsMask(t, start.log, q, mask, lim, now, i - 1, PassAt(start, q, lim, now, i - 1));
    }
  }

  /** From the counts of the live rows the pass over the queue is the promotion transaction. */
  lemma PassPromotes(t: AgentTables, start: Pass, lim: Limits, now: int)
    requires QueueSeqsDistinct(t.agents) && start.agents == t.agents && start.promoted == []
    requires start.globalUsed == |LiveRows(t.agents)| && start.used == GroupCounts(t.agents, LiveRows(t.agents))
    ensures forall u :: u in QueueOrder(t.agents) ==> u in start.agents
    ensures var p, e := PassAt(start, QueueOrder(t.agents), lim, now, |QueueOrder(t.agents)|), Promote(t, lim, now);
            && p.agents == e.tables.agents && t.turns == e.tables.turns && p.log == start.log.AppendAll(e.events)
            && (p.promoted == [] <==> e.events == [])
            && p.promoted == Selected(QueueOrder(t.agents), PromotionMask(t.agents, lim))
  {
    QueueOrderOrdered(t.agents);
    var q, mask := QueueOrder(t.agents), PromotionMask(t.agents, lim);
    PassFollowsMask(t, start, q, mask, lim, now, |q|);
    assert q[..|q|] == q && mask[..|mask|] == mask;
  }

  lemma TurnFollowsMask(t: AgentTables, log0: EventTable, q: seq<Uuid>, mask: seq<bool>, lim: Limits, now: int, i: nat,
                        p: Pass)
    requires i < |q| == |mask| && (forall u :: u in q ==> u in t.agents) && q[i] in p.agents
    requires Follows(t, log0, q, mask, lim, now, i, p)
    ensures Follows(t, log0, q, mask, lim, now, i + 1, Turn(p, q[i], lim, now))
  {
    ProviderKept(t, q, mask, now, i, q[i]);
    GreedyHead(ProvidersOf(t.agents, q), mask, i, p.globalUsed, p.used, lim);
    SelectedSnoc(q, mask, i);
    PromoteUpToNext(t, q, mask, now, i, log0);
  }

  lemma PromoteUpToNext(t: AgentTables, q: seq<Uuid>, mask: seq<bool>, now: int, i: nat, log0: EventTable)
    requires i < |q| == |mask| && (forall u :: u in q ==> u in t.agents)
    ensures var e, e' := PromoteUpTo(t, q, mask, now, i), PromoteUpTo(t, q, mask, now, i + 1);
            var pair := [QueuePromoted(q[i]), AgentStatusChanged(q[i], Starting)];
            if mask[i] then
              && e'.tables.agents == e.tables.agents[q[i] := Promoted(e.tables.agents[q[i]], now)]
              && e'.events == e.events + pair && e'.events != []
              && log0.AppendAll(e'.events) == log0.AppendAll(e.events).AppendAll(pair)
            else e' == e
  {
    if mask[i] {
      AppendAllSplit(log0, PromoteUpTo(t, q, mask, now, i).events,
                     [QueuePromoted(q[i]), AgentStatusChanged(q[i], Starting)]);
    }
  }

  /** The queue entries a mask selects, in order. */
  function Selected(q: seq<Uuid>, mask: seq<bool>): seq<Uuid>
    requires |mask| == |q|
  {
    if q == [] then []
    else
      var k := |q| - 1;
      Selected(q[..k], mask[..k]) + if mask[k] then [q[k]] else []
  }

  lemma SelectedSnoc(q: seq<Uuid>, mask: seq<bool>, i: nat)
    requires i < |q| == |mask|
    ensures Selected(q[..i + 1], mask[..i + 1]) == Selected(q[..i], mask[..i]) + if mask[i] then [q[i]] else []
  {
    assert q[..i + 1][..i] == q[..i] && mask[..i + 1][..i] == mask[..i];
  }

  lemma {:induction false} SelectedIsChosen(q: seq<Uuid>, mask: seq<bool>, u: Uuid)
    requires |mask| == |q|
    ensures u in Selected(q, mask) <==> u in Chosen(q, mask)
    decreases |q|
  {
    if q != [] {
      var k := |q| - 1;
      SelectedIsChosen(q[..k], mask[..k], u);
      if u in Chosen(q[..k], mask[..k]) {
        var j :| 0 <= j < k && mask[..k][j] && q[..k][j] == u;
        assert mask[j] && q[j] == u;
      }
      if u in Chosen(q, mask) {
        var j :| 0 <= j < |q| && mask[j] && q[j] == u;
        assert j < k ==> mask[..k][j] && q[..k][j] == u;
      }
    }
  }

  lemma {:induction false} ProviderKept(t: AgentTables, q: seq<Uuid>, mask: seq<bool>, now: int, k: nat, u: Uuid)
    requires k <= |q| == |mask| && (forall v :: v in q ==> v in t.agents) && u in t.agents
    ensures PromoteUpTo(t, q, mask, now, k).tables.agents[u].provider == t.agents[u].provider
  {
    if k > 0 {
      ProviderKept(t, q, mask, now, k - 1, u);
    }
  }

  /** One candidate of the greedy pass. */
  lemma GreedyHead(ps: seq<string>, mask: seq<bool>, i: nat, g: nat, used: map<string, nat>, lim: Limits)
    requires i < |ps| == |mask| && mask[i..] == Greedy(ps[i..], g, used, lim)
    ensures mask[i] <==> Admits(g, used, lim, ps[i])
    ensures mask[i + 1..] == if mask[i] then Greedy(ps[i + 1..], g + 1, Bump(used, ps[i]), lim)
                             else Greedy(ps[i + 1..], g, used, lim)
  {
    assert ps[i..][0] == ps[i] && ps[i..][1..] == ps[i + 1..];
    assert mask[i..][0] == mask[i] && mask[i..][1..] == mask[i + 1..];
  }

  lemma {:induction false} AboveConcat(a: seq<EventRow>, b: seq<EventRow>, cut: int)
    ensures Above(a + b, cut) == Above(a, cut) + Above(b, cut)
  {
    if a == [] {
      assert a + b == b;
    } else {
      assert (a + b)[1..] == a[1..] + b;
      AboveConcat(a[1..], b, cut);
    }
  }

  lemma AboveSnoc(rows: seq<EventRow>, row: EventRow, cut: int)
    ensures Above(rows + [row], cut) == Above(rows, cut) + if row.seqNo > cut then [row] else []
  {
    AboveConcat(rows, [row], cut);
  }

  lemma OrderedSnoc(agents: map<Uuid, Agent>, s: set<Uuid>, q: seq<Uuid>, u: Uuid)
    requires Ordered(agents, s, q) && u in agents && u !in s
    requires forall v :: v in q ==> SeqOf(agents, v) < SeqOf(agents, u)
    ensures Ordered(agents, s + {u}, q + [u])
  {
  }
}
