/** The path tree of the live view: agents at their paths, parked ones under a synthetic `idle` node. */
module TopTree {
  import opened Rows
  import Paths

  const IDLE_NODE: string := "idle"

  datatype SnapAgent = SnapAgent(uuid: string, path: string, status: string, managed: bool, provider: Option<string>)

  datatype SnapLoop = SnapLoop(name: string, runs: seq<string>)

  datatype Snapshot = Snapshot(agents: seq<SnapAgent>, loops: seq<SnapLoop>)

  datatype Filter = Filter(pattern: Option<seq<Paths.Seg>>, provider: Option<string>, status: Option<string>,
                           managed: Option<bool>, loopsOnly: bool)

  datatype Kind = Scope | AgentNode(agent: nat) | LoopNode(loop: nat) | RunNode(of: nat, run: nat) | IdleNode

  datatype Node = Node(kind: Kind, children: map<string, Node>)

  type Level = map<string, Node>

  // ---- the listing filter ----

  /** `agent_matches`: the predicate of the flat listing. */
  predicate AgentMatches(f: Filter, a: SnapAgent) {
    && (f.provider.Some? ==> a.provider == f.provider)
    && (f.status.Some? ==> a.status == f.status.value)
    && (f.managed.Some? ==> a.managed == f.managed.value)
    && (f.pattern.Some? ==> Paths.Matches(f.pattern.value, Paths.Split(a.path)))
  }

  predicate NamesLoop(snap: Snapshot, name: string) {
    exists i :: 0 <= i < |snap.loops| && snap.loops[i].name == name
  }

  /** The agents a view places in its tree. */
  predicate Shown(snap: Snapshot, f: Filter, x: nat) {
    && x < |snap.agents| && AgentMatches(f, snap.agents[x])
    && (f.loopsOnly ==> NamesLoop(snap, Paths.Split(snap.agents[x].path)[0]))
  }

  /** Where an agent is placed: a parked one collapses into a single child of the idle node. */
  function Placement(a: SnapAgent): (p: seq<string>)
    ensures p != []
  {
    if a.status == "parked" then [IDLE_NODE, a.path] else Paths.Split(a.path)
  }

  // ---- the tree ----

  /** Following `p` from `level` leads to the node of agent `x`. */
  predicate Holds(level: Level, p: seq<string>, x: nat)
    decreases |p|
  {
    && p != [] && p[0] in level
    && if |p| == 1 then level[p[0]].kind == AgentNode(x) else Holds(level[p[0]].children, p[1..], x)
  }

  function NodeAt(level: Level, seg: string, kind: Kind): Node {
    if seg in level then level[seg] else Node(kind, map[])
  }

  /** `insert_agent`: walk the segments, creating what is missing; only the last node becomes the agent's. */
  function Insert(level: Level, segs: seq<string>, x: nat): Level
    requires segs != []
    decreases |segs|
  {
    var node := NodeAt(level, segs[0], Scope);
    level[segs[0] := if |segs| == 1 then node.(kind := AgentNode(x))
                     else node.(children := Insert(node.children, segs[1..], x))]
  }

  function InsertParked(roots: Level, path: string, x: nat): Level {
    var idle := NodeAt(roots, IDLE_NODE, IdleNode);
    var child := NodeAt(idle.children, path, AgentNode(x)).(kind := AgentNode(x));
    roots[IDLE_NODE := idle.(children := idle.children[path := child])]
  }

  /** An insertion adds its agent, replaces only an agent of exactly the same place, and touches no other. */
  lemma {:induction false} InsertHolds(level: Level, segs: seq<string>, x: nat, p: seq<string>, y: nat)
    requires segs != []
    ensures Holds(Insert(level, segs, x), p, y) <==> if p == segs then y == x else Holds(level, p, y)
    decreases |segs|
  {
    if p != [] && p[0] == segs[0] && |p| > 1 && |segs| > 1 {
      InsertHolds(NodeAt(level, segs[0], Scope).children, segs[1..], x, p[1..], y);
      assert p == [p[0]] + p[1..] && segs == [segs[0]] + segs[1..];
    } else if p != [] && |p| == 1 && |segs| == 1 {
      assert p == [p[0]] && segs == [segs[0]];
    }
  }

  lemma InsertParkedHolds(roots: Level, path: string, x: nat, p: seq<string>, y: nat)
    ensures Holds(InsertParked(roots, path, x), p, y) <==> if p == [IDLE_NODE, path] then y == x else Holds(roots, p, y)
  {
    var segs := [IDLE_NODE, path];
    assert segs[1..] == [path];
    InsertHolds(roots, segs, x, p, y);
    if IDLE_NODE !in roots {
      assert InsertParked(roots, path, x)[IDLE_NODE].children == Insert(roots, segs, x)[IDLE_NODE].children;
    }
  }

  ghost predicate NoAgents(level: Level) {
    forall p, x :: !Holds(level, p, x)
  }

  lemma LoopNodesHoldNone(level: Level, name: string, kind: Kind, children: Level)
    requires NoAgents(level) && NoAgents(children) && !kind.AgentNode?
    ensures NoAgents(level[name := Node(kind, children)])
  {
    var level' := level[name := Node(kind, children)];
    forall p, x
      ensures !Holds(level', p, x)
    {
      assert !Holds(level, p, x);
      if |p| > 1 {
        assert !Holds(children, p[1..], x);
      }
    }
  }

  lemma NodeAtHoldsNone(level: Level, name: string, kind: Kind)
    requires NoAgents(level)
    ensures NoAgents(NodeAt(level, name, kind).children)
  {
    var children := NodeAt(level, name, kind).children;
    forall p, x
      ensures !Holds(children, p, x)
    {
      if name in level && p != [] {
        assert !Holds(level, [name] + p, x);
        assert ([name] + p)[1..] == p;
      }
    }
  }

  /** `x` is shown at `p` and no agent numbered between it and `n` is shown there too. */
  ghost predicate LastAt(snap: Snapshot, f: Filter, n: nat, p: seq<string>, x: nat) {
    && x < n <= |snap.agents| && Shown(snap, f, x) && Placement(snap.agents[x]) == p
    && forall y :: x < y < n && Shown(snap, f, y) ==> Placement(snap.agents[y]) != p
  }

  method BuildLoops(snap: Snapshot) returns (roots: Level)
    ensures NoAgents(roots)
    ensures forall i :: 0 <= i < |snap.loops| ==>
              snap.loops[i].name in roots && roots[snap.loops[i].name].kind.LoopNode?
    ensures forall i, r :: 0 <= i < |snap.loops| && r in snap.loops[i].runs ==>
              snap.loops[i].name in roots && r in roots[snap.loops[i].name].children
  {
    roots := map[];
    var li := 0;
    while li < |snap.loops|
      invariant li <= |snap.loops| && NoAgents(roots)
      invariant forall i :: 0 <= i < li ==> snap.loops[i].name in roots && roots[snap.loops[i].name].kind.LoopNode?
      invariant forall i, r :: 0 <= i < li && r in snap.loops[i].runs ==>
                  snap.loops[i].name in roots && r in roots[snap.loops[i].name].children
    {
      var l := snap.loops[li];
      NodeAtHoldsNone(roots, l.name, LoopNode(li));
      var children := NodeAt(roots, l.name, LoopNode(li)).children;
      var ri := 0;
      while ri < |l.runs|
        invariant ri <= |l.runs| && NoAgents(children)
        invariant forall r :: r in l.runs[..ri] ==> r in children
        invariant NodeAt(roots, l.name, LoopNode(li)).children.Keys <= children.Keys
      {
        if l.runs[ri] !in children {
          assert NoAgents(map[]);
          LoopNodesHoldNone(children, l.runs[ri], RunNode(li, ri), map[]);
          children := children[l.runs[ri] := Node(RunNode(li, ri), map[])];
        }
        ri := ri + 1;
      }
      LoopNodesHoldNone(roots, l.name, LoopNode(li), children);
      roots := roots[l.name := Node(LoopNode(li), children)];
      li := li + 1;
    }
  }

  /** The tree holds at each place exactly the agent that was inserted there last. */
  ghost predicate Built(roots: Level, snap: Snapshot, f: Filter, n: nat) {
    forall p, x :: Holds(roots, p, x) <==> LastAt(snap, f, n, p, x)
  }

  lemma BuiltSkip(roots: Level, snap: Snapshot, f: Filter, n: nat)
    requires n < |snap.agents| && Built(roots, snap, f, n) && !Shown(snap, f, n)
    ensures Built(roots, snap, f, n + 1)
  {
    forall p, x
      ensures LastAt(snap, f, n, p, x) <==> LastAt(snap, f, n + 1, p, x)
    {
    }
  }

  lemma BuiltInsert(roots: Level, snap: Snapshot, f: Filter, n: nat, roots': Level)
    requires n < |snap.agents| && Built(roots, snap, f, n) && Shown(snap, f, n)
    requires forall p, x :: Holds(roots', p, x) <==> if p == Placement(snap.agents[n]) then x == n
             else Holds(roots, p, x)
    ensures Built(roots', snap, f, n + 1)
  {
    forall p, x
      ensures Holds(roots', p, x) <==> LastAt(snap, f, n + 1, p, x)
    {
      assert Holds(roots, p, x) <==> LastAt(snap, f, n, p, x);
    }
  }

  /** The loops and runs of the snapshot have their places. */
  predicate ShowsLoops(roots: Level, snap: Snapshot) {
    forall l :: l in snap.loops ==>
      l.name in roots && forall r :: r in l.runs ==> r in roots[l.name].children
  }

  /** No loop has a node. */
  predicate HidesLoops(roots: Level) {
    forall seg :: seg in roots ==> !roots[seg].kind.LoopNode?
  }

  lemma InsertKeepsLoops(roots: Level, snap: Snapshot, segs: seq<string>, x: nat)
    requires segs != []
    ensures ShowsLoops(roots, snap) ==> ShowsLoops(Insert(roots, segs, x), snap)
    ensures HidesLoops(roots) ==> HidesLoops(Insert(roots, segs, x))
  {
    var node := NodeAt(roots, segs[0], Scope);
    if |segs| > 1 {
      InsertKeepsKeys(node.children, segs[1..], x);
    }
  }

  lemma InsertKeepsKeys(level: Level, segs: seq<string>, x: nat)
    requires segs != []
    ensures level.Keys <= Insert(level, segs, x).Keys
  {
  }

  /** Loops are shown in every view but that of unmanaged agents. */
  method BuildTree(snap: Snapshot, f: Filter) returns (roots: Level)
    ensures Built(roots, snap, f, |snap.agents|)
    ensures if f.managed == Some(false) then HidesLoops(roots) else ShowsLoops(roots, snap)
  {
    roots := map[];
    assert NoAgents(map[]);
    if f.managed != Some(false) {
      roots := BuildLoops(snap);
    }
    var ai := 0;
    while ai < |snap.agents|
      invariant ai <= |snap.agents| && Built(roots, snap, f, ai)
      invariant if f.managed == Some(false) then HidesLoops(roots) else ShowsLoops(roots, snap)
    {
      var a := snap.agents[ai];
      if Shown(snap, f, ai) {
        ghost var before := roots;
        if a.status == "parked" {
          roots := InsertParked(roots, a.path, ai);
          forall p, x
            ensures Holds(roots, p, x) <==> if p == Placement(a) then x == ai else Holds(before, p, x)
          {
            InsertParkedHolds(before, a.path, ai, p, x);
          }
        } else {
          InsertKeepsLoops(roots, snap, Paths.Split(a.path), ai);
          roots := Insert(roots, Paths.Split(a.path), ai);
          forall p, x
            ensures Holds(roots, p, x) <==> if p == Placement(a) then x == ai else Holds(before, p, x)
          {
            InsertHolds(before, Paths.Split(a.path), ai, p, x);
          }
        }
        BuiltInsert(before, snap, f, ai, roots);
      } else {
        BuiltSkip(roots, snap, f, ai);
      }
      ai := ai + 1;
    }
  }

  // ---- the node set ----

  /** `agent_uuids`: the uuids met anywhere below `level`. */
  function AgentUuids(level: Level, snap: Snapshot): set<string> {
    set seg, u | seg in level && u in NodeUuids(level[seg], snap) :: u
  }

  function NodeUuids(node: Node, snap: Snapshot): set<string> {
    (if node.kind.AgentNode? && node.kind.agent < |snap.agents| then {snap.agents[node.kind.agent].uuid} else {})
    + set seg, u | seg in node.children && u in NodeUuids(node.children[seg], snap) :: u
  }

  lemma {:induction false} HeldIsCollected(level: Level, snap: Snapshot, p: seq<string>, x: nat)
    requires Holds(level, p, x) && x < |snap.agents|
    ensures snap.agents[x].uuid in AgentUuids(level, snap)
    decreases |p|
  {
    var node := level[p[0]];
    if |p| > 1 {
      HeldIsCollected(node.children, snap, p[1..], x);
      var seg :| seg in node.children && snap.agents[x].uuid in NodeUuids(node.children[seg], snap);
    }
    assert snap.agents[x].uuid in NodeUuids(node, snap);
  }

  /** The node itself, or the agent that a path below it leads to. */
  predicate Under(node: Node, p: seq<string>, x: nat) {
    if p == [] then node.kind == AgentNode(x) else Holds(node.children, p, x)
  }

  lemma {:induction false} CollectedInNode(node: Node, snap: Snapshot, u: string) returns (p: seq<string>, x: nat)
    requires u in NodeUuids(node, snap)
    ensures Under(node, p, x) && x < |snap.agents| && snap.agents[x].uuid == u
    decreases node
  {
    if node.kind.AgentNode? && node.kind.agent < |snap.agents| && snap.agents[node.kind.agent].uuid == u {
      p, x := [], node.kind.agent;
    } else {
      var seg :| seg in node.children && u in NodeUuids(node.children[seg], snap);
      p, x := CollectedInNode(node.children[seg], snap, u);
      assert ([seg] + p)[1..] == p;
      p := [seg] + p;
    }
  }

  lemma CollectedIsHeld(level: Level, snap: Snapshot, u: string) returns (p: seq<string>, x: nat)
    requires u in AgentUuids(level, snap)
    ensures Holds(level, p, x) && x < |snap.agents| && snap.agents[x].uuid == u
  {
    var seg :| seg in level && u in NodeUuids(level[seg], snap);
    p, x := CollectedInNode(level[seg], snap, u);
    assert ([seg] + p)[1..] == p;
    p := [seg] + p;
  }

  // ---- the tree and the listing ----

  /** Every criterion that the listing was given holds of the agent. */
  ghost predicate Passes(f: Filter, a: SnapAgent) {
    && (f.provider == None || a.provider == f.provider)
    && (f.status == None || Some(a.status) == f.status)
    && (f.managed == None || Some(a.managed) == f.managed)
    && (f.pattern == None || exists blocks :: Paths.Cut(f.pattern.value, Paths.Split(a.path), blocks))
  }

  lemma MatchesIffPasses(f: Filter, a: SnapAgent)
    ensures AgentMatches(f, a) <==> Passes(f, a)
  {
    if f.pattern.Some? {
      Paths.MatchesIffCut(f.pattern.value, Paths.Split(a.path));
    }
  }

  /** The uuids of the flat listing, narrowed to the scopes of loops where the view asks for that. */
  ghost predicate Listed(snap: Snapshot, f: Filter, u: string) {
    exists a :: a in snap.agents && a.uuid == u && Passes(f, a)
                && (f.loopsOnly ==> exists l :: l in snap.loops && l.name == Paths.Split(a.path)[0])
  }

  lemma ListedIsShown(snap: Snapshot, f: Filter, u: string)
    ensures Listed(snap, f, u) <==> exists x: nat :: Shown(snap, f, x) && snap.agents[x].uuid == u
  {
    forall x: nat | x < |snap.agents|
      ensures Shown(snap, f, x)
              <==> Passes(f, snap.agents[x])
                   && (f.loopsOnly ==> exists l :: l in snap.loops && l.name == Paths.Split(snap.agents[x].path)[0])
    {
      MatchesIffPasses(f, snap.agents[x]);
    }
    if Listed(snap, f, u) {
      var a :| a in snap.agents && a.uuid == u && Passes(f, a)
               && (f.loopsOnly ==> exists l :: l in snap.loops && l.name == Paths.Split(a.path)[0]);
      var x: nat :| x < |snap.agents| && snap.agents[x] == a;
      assert Shown(snap, f, x);
    }
  }

  ghost predicate Distinct(snap: Snapshot) {
    forall x, y :: 0 <= x < y < |snap.agents| ==>
      snap.agents[x].path != snap.agents[y].path && snap.agents[x].uuid != snap.agents[y].uuid
  }

  /** A shown agent lives at the very place where another shown, parked one collapses: `idle` followed by its path. */
  ghost predicate IdleCollision(snap: Snapshot, f: Filter) {
    exists x: nat, y: nat :: Shown(snap, f, x) && Shown(snap, f, y) && snap.agents[x].status == "parked"
      && snap.agents[y].status != "parked" && Paths.Split(snap.agents[y].path) == [IDLE_NODE, snap.agents[x].path]
  }

  lemma SamePlaceIsCollision(snap: Snapshot, f: Filter, x: nat, y: nat)
    requires Distinct(snap) && Shown(snap, f, x) && Shown(snap, f, y) && x != y
    requires Placement(snap.agents[x]) == Placement(snap.agents[y])
    ensures IdleCollision(snap, f)
  {
    Paths.JoinSplit(snap.agents[x].path);
    Paths.JoinSplit(snap.agents[y].path);
    var a, b := snap.agents[x], snap.agents[y];
    assert a.path != b.path;
  }

  /** The tree shows exactly the listed agents, if and only if no path under `idle` collides with a parked agent. */
  lemma TreeShowsTheListing(roots: Level, snap: Snapshot, f: Filter)
    requires Built(roots, snap, f, |snap.agents|) && Distinct(snap)
    ensures (forall u :: u in AgentUuids(roots, snap) <==> Listed(snap, f, u)) <==> !IdleCollision(snap, f)
    ensures forall u :: u in AgentUuids(roots, snap) ==> Listed(snap, f, u)
  {
    forall u | u in AgentUuids(roots, snap)
      ensures Listed(snap, f, u)
    {
      var p, x := CollectedIsHeld(roots, snap, u);
      assert LastAt(snap, f, |snap.agents|, p, x);
      ListedIsShown(snap, f, u);
    }
    if IdleCollision(snap, f) {
      CollisionHides(roots, snap, f);
    } else {
      forall u | Listed(snap, f, u)
        ensures u in AgentUuids(roots, snap)
      {
        ListedIsShown(snap, f, u);
        var x: nat :| Shown(snap, f, x) && snap.agents[x].uuid == u;
        var p := Placement(snap.agents[x]);
        forall y | x < y < |snap.agents| && Shown(snap, f, y)
          ensures Placement(snap.agents[y]) != p
        {
          if Placement(snap.agents[y]) == p {
            SamePlaceIsCollision(snap, f, x, y);
          }
        }
        assert Holds(roots, p, x) <==> LastAt(snap, f, |snap.agents|, p, x);
        HeldIsCollected(roots, snap, p, x);
      }
    }
  }

  lemma HeldIsLast(roots: Level, snap: Snapshot, f: Filter, p: seq<string>, x: nat)
    requires Built(roots, snap, f, |snap.agents|) && Holds(roots, p, x)
    ensures LastAt(snap, f, |snap.agents|, p, x)
  {
  }

  /** Of two agents at one place the earlier one is hidden. */
  lemma CollisionHides(roots: Level, snap: Snapshot, f: Filter)
    requires Built(roots, snap, f, |snap.agents|) && Distinct(snap) && IdleCollision(snap, f)
    ensures exists u :: Listed(snap, f, u) && u !in AgentUuids(roots, snap)
  {
    var x: nat, y: nat :| Shown(snap, f, x) && Shown(snap, f, y) && snap.agents[x].status == "parked"
      && snap.agents[y].status != "parked" && Paths.Split(snap.agents[y].path) == [IDLE_NODE, snap.agents[x].path];
    var first := if x < y then x else y;
    var second := if x < y then y else x;
    assert Placement(snap.agents[first]) == Placement(snap.agents[second]);
    var u := snap.agents[first].uuid;
    ListedIsShown(snap, f, u);
    if u in AgentUuids(roots, snap) {
      var p, z := CollectedIsHeld(roots, snap, u);
      HeldIsLast(roots, snap, f, p, z);
      assert false;
    }
  }

  /** No collision when no path lies under the reserved name, and then the tree is the plain listing filter. */
  lemma ReservedNameSuffices(roots: Level, snap: Snapshot, f: Filter)
    requires Built(roots, snap, f, |snap.agents|) && Distinct(snap) && !f.loopsOnly
    requires forall x :: 0 <= x < |snap.agents| ==> Paths.HomeWorkspace(snap.agents[x].path) != IDLE_NODE
    ensures forall u :: u in AgentUuids(roots, snap)
                        <==> exists a :: a in snap.agents && a.uuid == u && Passes(f, a)
  {
    TreeShowsTheListing(roots, snap, f);
  }

  /** Which holds when every path was accepted at creation. */
  lemma CreatedPathsSuffice(roots: Level, snap: Snapshot, f: Filter)
    requires Built(roots, snap, f, |snap.agents|) && Distinct(snap) && !f.loopsOnly
    requires forall a :: a in snap.agents ==> Paths.Creatable(a.path)
    ensures forall u :: u in AgentUuids(roots, snap)
                        <==> exists a :: a in snap.agents && a.uuid == u && Passes(f, a)
  {
    forall x | 0 <= x < |snap.agents|
      ensures Paths.HomeWorkspace(snap.agents[x].path) != IDLE_NODE
    {
      assert snap.agents[x] in snap.agents;
      Paths.HomeIsNeverIdle(snap.agents[x].path);
    }
    ReservedNameSuffices(roots, snap, f);
  }
}
