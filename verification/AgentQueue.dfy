/** `promote_queued`: which rows count against the limits, the FIFO order, and the rows it rewrites. */
module AgentQueue {
  import opened Rows
  import opened AgentTx
  import opened Promotion

  /** A managed row that occupies a slot. */
  predicate Live(row: Agent) {
    row.managed && row.status !in {Queued, Ended, Lost}
  }

  function LiveRows(agents: map<Uuid, Agent>): set<Uuid> {
    set u | u in agents && Live(agents[u])
  }

  /** The rows of `s` that belong to provider `p`. */
  function Group(agents: map<Uuid, Agent>, s: set<Uuid>, p: string): set<Uuid>
    requires s <= agents.Keys
  {
    set u | u in s && agents[u].provider == p
  }

  function LiveRowsOf(agents: map<Uuid, Agent>, p: string): set<Uuid> {
    Group(agents, LiveRows(agents), p)
  }

  function QueuedRows(agents: map<Uuid, Agent>): set<Uuid> {
    set u | u in agents && agents[u].status == Queued
  }

  function Providers(agents: map<Uuid, Agent>, s: set<Uuid>): set<string>
    requires s <= agents.Keys
  {
    set u | u in s :: agents[u].provider
  }

  /** `COUNT(*) ... GROUP BY agent` over the rows in `s`. */
  function GroupCounts(agents: map<Uuid, Agent>, s: set<Uuid>): map<string, nat>
    requires s <= agents.Keys
  {
    map p | p in Providers(agents, s) :: |Group(agents, s, p)|
  }

  lemma GroupAdd(agents: map<Uuid, Agent>, s: set<Uuid>, u: Uuid, p: string)
    requires s <= agents.Keys && u in agents && u !in s
    ensures Group(agents, s + {u}, p) == Group(agents, s, p) + if p == agents[u].provider then {u} else {}
  {
  }

  lemma GroupCountOf(agents: map<Uuid, Agent>, s: set<Uuid>, p: string)
    requires s <= agents.Keys
    ensures UsedOf(GroupCounts(agents, s), p) == |Group(agents, s, p)|
  {
    if p !in Providers(agents, s) {
      assert Group(agents, s, p) == {};
    }
  }

  // ---- ORDER BY queue_seq ----

  function SeqOf(agents: map<Uuid, Agent>, u: Uuid): nat
    requires u in agents
  {
    match agents[u].queueSeq
    case Some(q) => q
    case None => 0
  }

  /** `queue_seq` is handed out once: no two rows share a number. */
  ghost predicate QueueSeqsDistinct(agents: map<Uuid, Agent>) {
    && (forall u :: u in agents && agents[u].status == Queued ==> agents[u].queueSeq.Some?)
    && forall u, v :: u in agents && v in agents && agents[u].queueSeq.Some? && agents[u].queueSeq == agents[v].queueSeq
                      ==> u == v
  }

  /** `q` lists exactly the rows of `s`, by ascending queue number. */
  ghost predicate Ordered(agents: map<Uuid, Agent>, s: set<Uuid>, q: seq<Uuid>) {
    && (forall u :: u in q <==> u in s)
    && (forall u :: u in s ==> u in agents)
    && forall i, j :: 0 <= i < j < |q| ==> SeqOf(agents, q[i]) < SeqOf(agents, q[j])
  }

  /** The queued rows in the order the promotion query yields them. */
  ghost function QueueOrder(agents: map<Uuid, Agent>): seq<Uuid> {
    if exists q :: Ordered(agents, QueuedRows(agents), q)
    then var q :| Ordered(agents, QueuedRows(agents), q); q
    else []
  }

  lemma HeadIn(r: seq<Uuid>)
    requires r != []
    ensures r[0] in r
  {
  }

  lemma SameHead(agents: map<Uuid, Agent>, s: set<Uuid>, q: seq<Uuid>, r: seq<Uuid>)
    requires Ordered(agents, s, q) && Ordered(agents, s, r) && q != []
    ensures r != [] && q[0] == r[0]
  {
    HeadIn(q);
    assert q[0] in r;
    HeadIn(r);
    var i :| 0 <= i < |r| && r[i] == q[0];
    var j :| 0 <= j < |q| && q[j] == r[0];
  }

  /** Distinct numbers admit only one ascending listing. */
  lemma {:induction false} OrderedUnique(agents: map<Uuid, Agent>, s: set<Uuid>, q: seq<Uuid>, r: seq<Uuid>)
    requires Ordered(agents, s, q) && Ordered(agents, s, r)
    ensures q == r
    decreases |q|
  {
    if q == [] {
      if r != [] {
        HeadIn(r);
      }
    } else {
      SameHead(agents, s, q, r);
      assert Ordered(agents, s - {q[0]}, q[1..]) by { OrderedTail(agents, s, q); }
      assert Ordered(agents, s - {q[0]}, r[1..]) by { OrderedTail(agents, s, r); }
      OrderedUnique(agents, s - {q[0]}, q[1..], r[1..]);
      assert q == [q[0]] + q[1..] && r == [r[0]] + r[1..];
    }
  }

  lemma OrderedTail(agents: map<Uuid, Agent>, s: set<Uuid>, q: seq<Uuid>)
    requires Ordered(agents, s, q) && q != []
    ensures Ordered(agents, s - {q[0]}, q[1..])
  {
    forall u
      ensures u in q[1..] <==> u in s - {q[0]}
    {
      if u in q[1..] {
        var i :| 0 <= i < |q[1..]| && q[1..][i] == u;
        assert q[i + 1] == u;
      }
      if u in s && u != q[0] {
        var i :| 0 <= i < |q| && q[i] == u;
        assert q[1..][i - 1] == u;
      }
    }
  }

  lemma QueueOrderIs(agents: map<Uuid, Agent>, q: seq<Uuid>)
    requires Ordered(agents, QueuedRows(agents), q)
    ensures QueueOrder(agents) == q
  {
    OrderedUnique(agents, QueuedRows(agents), q, QueueOrder(agents));
  }

  /** A listing by ascending number exists for any set of rows with distinct numbers. */
  lemma {:induction false} OrderExists(agents: map<Uuid, Agent>, s: set<Uuid>) returns (q: seq<Uuid>)
    requires QueueSeqsDistinct(agents) && forall u :: u in s ==> u in agents && agents[u].status == Queued
    ensures Ordered(agents, s, q)
    decreases |s|
  {
    if s == {} {
      q := [];
    } else {
      var last := Largest(agents, s);
      var front := OrderExists(agents, s - {last});
      q := front + [last];
    }
  }

  lemma {:induction false} Largest(agents: map<Uuid, Agent>, s: set<Uuid>) returns (u: Uuid)
    requires QueueSeqsDistinct(agents) && s != {}
    requires forall v :: v in s ==> v in agents && agents[v].status == Queued
    ensures u in s && forall v :: v in s && v != u ==> SeqOf(agents, v) < SeqOf(agents, u)
    decreases |s|
  {
    u :| u in s;
    if s != {u} {
      var w := Largest(agents, s - {u});
      if SeqOf(agents, u) < SeqOf(agents, w) {
        u := w;
      }
    }
  }

  lemma QueueOrderOrdered(agents: map<Uuid, Agent>)
    requires QueueSeqsDistinct(agents)
    ensures Ordered(agents, QueuedRows(agents), QueueOrder(agents))
  {
    var q := OrderExists(agents, QueuedRows(agents));
  }

  // ---- the transaction ----

  function ProvidersOf(agents: map<Uuid, Agent>, q: seq<Uuid>): (ps: seq<string>)
    requires forall u :: u in q ==> u in agents
    ensures |ps| == |q| && forall i :: 0 <= i < |q| ==> ps[i] == agents[q[i]].provider
  {
    seq(|q|, i requires 0 <= i < |q| => agents[q[i]].provider)
  }

  function Promoted(row: Agent, now: int): Agent {
    row.(status := Starting, startingAt := Some(now))
  }

  /** The first `k` candidates decided by `mask`: each selected one is rewritten and logged. */
  function PromoteUpTo(t: AgentTables, q: seq<Uuid>, mask: seq<bool>, now: int, k: nat): (e: Effect)
    requires k <= |q| == |mask| && forall u :: u in q ==> u in t.agents
    ensures e.tables.agents.Keys == t.agents.Keys && e.tables.turns == t.turns
  {
    if k == 0 then Unchanged(t)
    else
      var e := PromoteUpTo(t, q, mask, now, k - 1);
      var u := q[k - 1];
      if !mask[k - 1] then e
      else Effect(Put(e.tables, u, Promoted(e.tables.agents[u], now)),
                  e.events + [QueuePromoted(u), AgentStatusChanged(u, Starting)])
  }

  ghost function PromotionMask(agents: map<Uuid, Agent>, lim: Limits): (mask: seq<bool>)
    requires QueueSeqsDistinct(agents)
    ensures |mask| == |QueueOrder(agents)|
  {
    QueueOrderOrdered(agents);
    Greedy(ProvidersOf(agents, QueueOrder(agents)), |LiveRows(agents)|, GroupCounts(agents, LiveRows(agents)), lim)
  }

  ghost function Promote(t: AgentTables, lim: Limits, now: int): Effect
    requires QueueSeqsDistinct(t.agents)
  {
    QueueOrderOrdered(t.agents);
    PromoteUpTo(t, QueueOrder(t.agents), PromotionMask(t.agents, lim), now, |QueueOrder(t.agents)|)
  }

  /** The rows the transaction moves to `starting`. */
  ghost function PromotedRows(agents: map<Uuid, Agent>, lim: Limits): set<Uuid>
    requires QueueSeqsDistinct(agents)
  {
    Chosen(QueueOrder(agents), PromotionMask(agents, lim))
  }

  lemma {:induction false} PromoteUpToRows(t: AgentTables, q: seq<Uuid>, mask: seq<bool>, now: int, k: nat, u: Uuid)
    requires k <= |q| == |mask| && (forall v :: v in q ==> v in t.agents) && u in t.agents
    requires forall i, j :: 0 <= i < j < |q| ==> q[i] != q[j]
    ensures PromoteUpTo(t, q, mask, now, k).tables.agents[u]
         == if exists i :: 0 <= i < k && q[i] == u && mask[i] then Promoted(t.agents[u], now) else t.agents[u]
  {
    if k > 0 {
      PromoteUpToRows(t, q, mask, now, k - 1, u);
    }
  }

  lemma OrderedDistinct(agents: map<Uuid, Agent>, s: set<Uuid>, q: seq<Uuid>)
    requires Ordered(agents, s, q)
    ensures forall i, j :: 0 <= i < j < |q| ==> q[i] != q[j]
  {
  }

  /** Row by row: exactly the promoted rows become `starting`, and they were `queued`. */
  lemma PromoteRow(t: AgentTables, lim: Limits, now: int, u: Uuid)
    requires QueueSeqsDistinct(t.agents) && u in t.agents
    ensures Promote(t, lim, now).tables.agents[u]
         == if u in PromotedRows(t.agents, lim) then Promoted(t.agents[u], now) else t.agents[u]
    ensures u in PromotedRows(t.agents, lim) ==> t.agents[u].status == Queued
  {
    QueueOrderOrdered(t.agents);
    var q, mask := QueueOrder(t.agents), PromotionMask(t.agents, lim);
    OrderedDistinct(t.agents, QueuedRows(t.agents), q);
    PromoteUpToRows(t, q, mask, now, |q|, u);
    if u in PromotedRows(t.agents, lim) {
      assert u in q;
    }
  }

  // ---- what one promotion pass guarantees ----

  /** A choice of queued rows that overruns no limit it draws on. */
  ghost predicate FeasibleChoice(agents: map<Uuid, Agent>, s: set<Uuid>, lim: Limits) {
    && s <= QueuedRows(agents)
    && (s != {} ==> |LiveRows(agents)| + |s| <= lim.globalMax)
    && forall p :: Group(agents, s, p) != {} ==> |LiveRowsOf(agents, p)| + |Group(agents, s, p)| <= lim.CapOf(p)
  }

  function MaskOf(q: seq<Uuid>, s: set<Uuid>): (mask: seq<bool>)
    ensures |mask| == |q| && forall i :: 0 <= i < |q| ==> mask[i] == (q[i] in s)
  {
    seq(|q|, i requires 0 <= i < |q| => q[i] in s)
  }

  function Chosen(q: seq<Uuid>, mask: seq<bool>): set<Uuid>
    requires |mask| == |q|
  {
    set i | 0 <= i < |q| && mask[i] :: q[i]
  }

  lemma ChosenHead(q: seq<Uuid>, mask: seq<bool>)
    requires |mask| == |q| && q != []
    ensures Chosen(q, mask) == Chosen(q[1..], mask[1..]) + if mask[0] then {q[0]} else {}
  {
    var tail := Chosen(q[1..], mask[1..]);
    forall u
      ensures u in Chosen(q, mask) <==> u in tail + if mask[0] then {q[0]} else {}
    {
      if u in Chosen(q, mask) {
        var i :| 0 <= i < |q| && mask[i] && q[i] == u;
        if i > 0 {
          assert q[1..][i - 1] == u && mask[1..][i - 1];
        }
      }
      if u in tail {
        var i :| 0 <= i < |q[1..]| && mask[1..][i] && q[1..][i] == u;
        assert q[i + 1] == u && mask[i + 1];
      }
    }
  }

  lemma {:induction false} ChosenCount(q: seq<Uuid>, mask: seq<bool>)
    requires |mask| == |q| && forall i, j :: 0 <= i < j < |q| ==> q[i] != q[j]
    ensures Count(mask) == |Chosen(q, mask)|
  {
    if q != [] {
      ChosenCount(q[1..], mask[1..]);
      ChosenHead(q, mask);
    }
  }

  lemma {:induction false} ChosenCountFor(agents: map<Uuid, Agent>, q: seq<Uuid>, mask: seq<bool>, p: string)
    requires |mask| == |q| && forall u :: u in q ==> u in agents
    requires forall i, j :: 0 <= i < j < |q| ==> q[i] != q[j]
    ensures Chosen(q, mask) <= agents.Keys
    ensures CountFor(ProvidersOf(agents, q), mask, p) == |Group(agents, Chosen(q, mask), p)|
  {
    if q != [] {
      var rest := Chosen(q[1..], mask[1..]);
      assert forall u :: u in q[1..] ==> u in q;
      ChosenCountFor(agents, q[1..], mask[1..], p);
      ChosenHead(q, mask);
      assert q[0] !in rest;
      assert ProvidersOf(agents, q)[1..] == ProvidersOf(agents, q[1..]);
      if mask[0] {
        GroupAdd(agents, rest, q[0], p);
        assert Chosen(q, mask) == rest + {q[0]};
      } else {
        assert Chosen(q, mask) == rest;
      }
    }
  }

  /** The promoted rows keep both limits, and no choice that keeps them promotes more rows. */
  lemma PromotionIsOptimal(agents: map<Uuid, Agent>, lim: Limits, s: set<Uuid>)
    requires QueueSeqsDistinct(agents)
    ensures FeasibleChoice(agents, PromotedRows(agents, lim), lim)
    ensures FeasibleChoice(agents, s, lim) ==> |s| <= |PromotedRows(agents, lim)|
  {
    QueueOrderOrdered(agents);
    var q, mask := QueueOrder(agents), PromotionMask(agents, lim);
    var ps, g, used := ProvidersOf(agents, q), |LiveRows(agents)|, GroupCounts(agents, LiveRows(agents));
    OrderedDistinct(agents, QueuedRows(agents), q);
    GreedyIsFeasible(ps, g, used, lim);
    ChosenCount(q, mask);
    forall p
      ensures CountFor(ps, mask, p) == |Group(agents, Chosen(q, mask), p)|
      ensures UsedOf(used, p) == |LiveRowsOf(agents, p)|
    {
      ChosenCountFor(agents, q, mask, p);
      GroupCountOf(agents, LiveRows(agents), p);
    }
    if FeasibleChoice(agents, s, lim) {
      var m := MaskOf(q, s);
      assert Chosen(q, m) == s;
      ChosenCount(q, m);
      forall p
        ensures CountFor(ps, m, p) == |Group(agents, s, p)|
      {
        ChosenCountFor(agents, q, m, p);
      }
      GreedyIsMaximum(ps, m, g, used, lim);
    }
  }

  /** First in, first out within a provider; a row is left queued only when a limit it needs is spent. */
  lemma PromotionIsFair(agents: map<Uuid, Agent>, lim: Limits, u: Uuid, v: Uuid)
    requires QueueSeqsDistinct(agents)
    requires u in QueuedRows(agents) && v in QueuedRows(agents)
    ensures PromotedRows(agents, lim) <= agents.Keys
    ensures (agents[u].provider == agents[v].provider && SeqOf(agents, u) < SeqOf(agents, v)
             && v in PromotedRows(agents, lim)) ==> u in PromotedRows(agents, lim)
    ensures u !in PromotedRows(agents, lim) ==>
              (|| |LiveRows(agents)| + |PromotedRows(agents, lim)| >= lim.globalMax
               || |LiveRowsOf(agents, agents[u].provider)|
                  + |Group(agents, PromotedRows(agents, lim), agents[u].provider)| >= lim.CapOf(agents[u].provider))
  {
    PromotedIsQueued(agents, lim);
    if agents[u].provider == agents[v].provider && SeqOf(agents, u) < SeqOf(agents, v)
       && v in PromotedRows(agents, lim) {
      PromotedInOrder(agents, lim, u, v);
    }
    if u !in PromotedRows(agents, lim) {
      LeftWhenFull(agents, lim, u);
    }
  }

  /** The managed agents of provider `p` that are neither queued nor gone. */
  function Occupying(agents: map<Uuid, Agent>, p: string): set<Uuid> {
    set u | u in agents && agents[u].managed && agents[u].provider == p
            && agents[u].status != Queued && agents[u].status != Ended && agents[u].status != Lost
  }

  /** All of them. */
  function AllOccupying(agents: map<Uuid, Agent>): set<Uuid> {
    set u | u in agents && agents[u].managed
            && agents[u].status != Queued && agents[u].status != Ended && agents[u].status != Lost
  }

  /** The agents of provider `p` that one promotion makes `starting`. */
  ghost function NewlyStarting(t: AgentTables, lim: Limits, now: int, p: string): set<Uuid>
    requires QueueSeqsDistinct(t.agents)
  {
    set u | u in t.agents && t.agents[u].status == Queued && t.agents[u].provider == p
            && Promote(t, lim, now).tables.agents[u].status == Starting
  }

  ghost function AllNewlyStarting(t: AgentTables, lim: Limits, now: int): set<Uuid>
    requires QueueSeqsDistinct(t.agents)
  {
    set u | u in t.agents && t.agents[u].status == Queued && Promote(t, lim, now).tables.agents[u].status == Starting
  }

  lemma OccupyingIsLive(agents: map<Uuid, Agent>, p: string)
    ensures Occupying(agents, p) == LiveRowsOf(agents, p) && AllOccupying(agents) == LiveRows(agents)
  {
  }

  lemma NewlyStartingIsPromoted(t: AgentTables, lim: Limits, now: int, p: string)
    requires QueueSeqsDistinct(t.agents)
    ensures PromotedRows(t.agents, lim) <= t.agents.Keys
    ensures AllNewlyStarting(t, lim, now) == PromotedRows(t.agents, lim)
    ensures NewlyStarting(t, lim, now, p) == Group(t.agents, PromotedRows(t.agents, lim), p)
  {
    PromotedIsQueued(t.agents, lim);
    forall u | u in t.agents
      ensures u in PromotedRows(t.agents, lim)
              <==> t.agents[u].status == Queued && Promote(t, lim, now).tables.agents[u].status == Starting
    {
      PromoteRow(t, lim, now, u);
    }
  }

  /**
   * The limits on the rows, with the caps read from the map: a promotion overruns neither the maximum nor the cap of
   * any provider it promotes for, and leaves a row queued only when the maximum is spent or the provider has a cap and
   * it is spent. A provider without a cap of its own is bounded by the maximum alone.
   */
  lemma CapsAreKept(t: AgentTables, lim: Limits, now: int, p: string)
    requires QueueSeqsDistinct(t.agents)
    ensures AllNewlyStarting(t, lim, now) != {} ==>
              |AllOccupying(t.agents)| + |AllNewlyStarting(t, lim, now)| <= lim.globalMax
    ensures p in lim.caps && NewlyStarting(t, lim, now, p) != {} ==>
              |Occupying(t.agents, p)| + |NewlyStarting(t, lim, now, p)| <= lim.caps[p]
    ensures (exists u :: u in t.agents && t.agents[u].status == Queued && t.agents[u].provider == p
                         && Promote(t, lim, now).tables.agents[u].status == Queued) ==>
              || |AllOccupying(t.agents)| + |AllNewlyStarting(t, lim, now)| >= lim.globalMax
              || (p in lim.caps && |Occupying(t.agents, p)| + |NewlyStarting(t, lim, now, p)| >= lim.caps[p])
  {
    OccupyingIsLive(t.agents, p);
    NewlyStartingIsPromoted(t, lim, now, p);
    PromotionIsOptimal(t.agents, lim, {});
    if u :| u in t.agents && t.agents[u].status == Queued && t.agents[u].provider == p
            && Promote(t, lim, now).tables.agents[u].status == Queued
    {
      PromoteRow(t, lim, now, u);
      LeftWhenFull(t.agents, lim, u);
      UncappedWithin(t.agents, PromotedRows(t.agents, lim), p);
    }
  }

  /** The rows of one provider are among all rows. */
  lemma UncappedWithin(agents: map<Uuid, Agent>, s: set<Uuid>, p: string)
    requires s <= agents.Keys
    ensures |LiveRowsOf(agents, p)| <= |LiveRows(agents)| && |Group(agents, s, p)| <= |s|
  {
    SubsetSize(LiveRowsOf(agents, p), LiveRows(agents));
    SubsetSize(Group(agents, s, p), s);
  }

  /** First in, first out: of two queued rows of a provider the one with the lower number is promoted first. */
  lemma LowerNumberFirst(t: AgentTables, lim: Limits, now: int, u: Uuid, v: Uuid)
    requires QueueSeqsDistinct(t.agents) && u in t.agents && v in t.agents
    requires t.agents[u].status == Queued && t.agents[v].status == Queued
    requires t.agents[u].provider == t.agents[v].provider
    requires t.agents[u].queueSeq.value < t.agents[v].queueSeq.value
    ensures Promote(t, lim, now).tables.agents[v].status == Starting ==>
              Promote(t, lim, now).tables.agents[u].status == Starting
  {
    PromoteRow(t, lim, now, u);
    PromoteRow(t, lim, now, v);
    if v in PromotedRows(t.agents, lim) {
      PromotedInOrder(t.agents, lim, u, v);
    }
  }

  lemma PromotedIsQueued(agents: map<Uuid, Agent>, lim: Limits)
    requires QueueSeqsDistinct(agents)
    ensures PromotedRows(agents, lim) <= QueuedRows(agents) <= agents.Keys
  {
    QueueOrderOrdered(agents);
    forall u | u in PromotedRows(agents, lim)
      ensures u in QueuedRows(agents)
    {
      assert u in QueueOrder(agents);
    }
  }

  /** Where a queued row stands in the queue, and that its mask entry is what promotes it. */
  lemma PlaceInQueue(agents: map<Uuid, Agent>, lim: Limits, u: Uuid) returns (i: nat)
    requires QueueSeqsDistinct(agents) && u in QueuedRows(agents)
    ensures i < |QueueOrder(agents)| && QueueOrder(agents)[i] == u
    ensures u in PromotedRows(agents, lim) <==> PromotionMask(agents, lim)[i]
  {
    QueueOrderOrdered(agents);
    OrderedDistinct(agents, QueuedRows(agents), QueueOrder(agents));
    i :| 0 <= i < |QueueOrder(agents)| && QueueOrder(agents)[i] == u;
  }

  lemma PromotedInOrder(agents: map<Uuid, Agent>, lim: Limits, u: Uuid, v: Uuid)
    requires QueueSeqsDistinct(agents) && u in QueuedRows(agents) && v in QueuedRows(agents)
    requires agents[u].provider == agents[v].provider && SeqOf(agents, u) < SeqOf(agents, v)
    requires v in PromotedRows(agents, lim)
    ensures u in PromotedRows(agents, lim)
  {
    QueueOrderOrdered(agents);
    var q := QueueOrder(agents);
    var i := PlaceInQueue(agents, lim, u);
    var j := PlaceInQueue(agents, lim, v);
    assert i < j;
    GreedyIsFifo(ProvidersOf(agents, q), |LiveRows(agents)|, GroupCounts(agents, LiveRows(agents)), lim, i, j);
  }

  lemma LeftWhenFull(agents: map<Uuid, Agent>, lim: Limits, u: Uuid)
    requires QueueSeqsDistinct(agents) && u in QueuedRows(agents) && u !in PromotedRows(agents, lim)
    requires PromotedRows(agents, lim) <= agents.Keys
    ensures || |LiveRows(agents)| + |PromotedRows(agents, lim)| >= lim.globalMax
            || |LiveRowsOf(agents, agents[u].provider)|
               + |Group(agents, PromotedRows(agents, lim), agents[u].provider)| >= lim.CapOf(agents[u].provider)
  {
    QueueOrderOrdered(agents);
    var q, mask := QueueOrder(agents), PromotionMask(agents, lim);
    OrderedDistinct(agents, QueuedRows(agents), q);
    var i := PlaceInQueue(agents, lim, u);
    LeftOnlyWhenFull(ProvidersOf(agents, q), |LiveRows(agents)|, GroupCounts(agents, LiveRows(agents)), lim, i);
    ChosenCount(q, mask);
    ChosenCountFor(agents, q, mask, agents[u].provider);
    GroupCountOf(agents, LiveRows(agents), agents[u].provider);
  }
}
