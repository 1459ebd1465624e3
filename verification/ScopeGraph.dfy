/** The in-memory scope graph of packages/crew/src/memory/scopeLore.ts: parent lists built
    from `contains` edges, and the breadth-first walk that collects a scope's ancestors. */
module ScopeGraph {
  datatype Edge = Edge(source: string, target: string, relation: string)

  datatype Related = Related(scopeId: string, relation: string)

  const CONTAINS := "contains"

  datatype Graph = Graph(parents: map<string, seq<string>>, outEdges: map<string, seq<Related>>) {
    function Parents(scopeId: string): seq<string> {
      if scopeId in parents then parents[scopeId] else []
    }

    function EdgesOf(scopeId: string): seq<Related> {
      if scopeId in outEdges then outEdges[scopeId] else []
    }
  }

  /** The containers of a scope, in edge order. */
  function Containers(edges: seq<Edge>, scopeId: string): seq<string> {
    if edges == [] then []
    else
      var last := edges[|edges| - 1];
      Containers(edges[..|edges| - 1], scopeId) +
      if last.relation == CONTAINS && last.target == scopeId then [last.source] else []
  }

  /** The other out-edges of a scope, in edge order. */
  function Neighbours(edges: seq<Edge>, scopeId: string): seq<Related> {
    if edges == [] then []
    else
      var last := edges[|edges| - 1];
      Neighbours(edges[..|edges| - 1], scopeId) +
      if last.relation != CONTAINS && last.source == scopeId then [Related(last.target, last.relation)] else []
  }

  lemma {:induction false} ContainersAreEdges(edges: seq<Edge>, parent: string, scopeId: string)
    ensures parent in Containers(edges, scopeId) <==> Edge(parent, scopeId, "contains") in edges
  {
    if edges != [] {
      var n := |edges| - 1;
      ContainersAreEdges(edges[..n], parent, scopeId);
      assert edges == edges[..n] + [edges[n]];
    }
  }

  lemma {:induction false} NeighboursAreEdges(edges: seq<Edge>, other: string, relation: string, scopeId: string)
    ensures Related(other, relation) in Neighbours(edges, scopeId) <==> relation != "contains" && Edge(scopeId, other, relation) in edges
  {
    if edges != [] {
      var n := |edges| - 1;
      NeighboursAreEdges(edges[..n], other, relation, scopeId);
      assert edges == edges[..n] + [edges[n]];
    }
  }

  method BuildScopeGraphView(edges: seq<Edge>) returns (g: Graph)
    ensures forall s :: g.Parents(s) == Containers(edges, s)
    ensures forall s :: g.EdgesOf(s) == Neighbours(edges, s)
  {
    var parents: map<string, seq<string>> := map[];
    var outEdges: map<string, seq<Related>> := map[];
    for i := 0 to |edges|
      invariant forall s :: Graph(parents, outEdges).Parents(s) == Containers(edges[..i], s)
      invariant forall s :: Graph(parents, outEdges).EdgesOf(s) == Neighbours(edges[..i], s)
    {
      var edge := edges[i];
      ghost var before := Graph(parents, outEdges);
      assert edges[..i + 1][..i] == edges[..i];
      if edge.relation == CONTAINS {
        var list := if edge.target in parents then parents[edge.target] else [];
        parents := parents[edge.target := list + [edge.source]];
      } else {
        var list := if edge.source in outEdges then outEdges[edge.source] else [];
        outEdges := outEdges[edge.source := list + [Related(edge.target, edge.relation)]];
      }
      forall s ensures Graph(parents, outEdges).Parents(s) == Containers(edges[..i + 1], s) {
        assert before.Parents(s) == Containers(edges[..i], s);
      }
      forall s ensures Graph(parents, outEdges).EdgesOf(s) == Neighbours(edges[..i + 1], s) {
        assert before.EdgesOf(s) == Neighbours(edges[..i], s);
      }
    }
    assert edges[..|edges|] == edges;
    g := Graph(parents, outEdges);
  }

  // ----- Ancestors -----

  /** The scopes reached from `s` by exactly `n` steps to a container. */
  function Level(g: Graph, s: string, n: nat): set<string> {
    if n == 0 then {s}
    else set child, parent | child in Level(g, s, n - 1) && parent in g.Parents(child) :: parent
  }

  ghost predicate AtDistance(g: Graph, s: string, x: string, n: nat) {
    x in Level(g, s, n) && forall m: nat :: m < n ==> x !in Level(g, s, m)
  }

  ghost predicate IsAncestor(g: Graph, s: string, x: string) {
    x != s && exists n: nat :: x in Level(g, s, n)
  }

  function AllParents(g: Graph): set<string> {
    set child, parent | child in g.parents && parent in g.parents[child] :: parent
  }

  lemma ParentIsKnown(g: Graph, child: string, parent: string)
    requires parent in g.Parents(child)
    ensures parent in AllParents(g)
  {
  }

  /** A set of scopes that holds `s` and the parents of all its members holds every level. */
  lemma {:induction false} ClosedHoldsLevels(g: Graph, s: string, closed: set<string>, n: nat)
    requires s in closed
    requires forall child, parent :: child in closed && parent in g.Parents(child) ==> parent in closed
    ensures Level(g, s, n) <= closed
  {
    if n > 0 { ClosedHoldsLevels(g, s, closed, n - 1); }
  }

  ghost predicate ClosedUpTo(g: Graph, inside: set<string>, boundary: seq<string>) {
    forall child, parent :: child in inside && parent in g.Parents(child) ==> parent in inside || parent in boundary
  }

  lemma NextLevel(g: Graph, s: string, n: nat, inside: set<string>, boundary: seq<string>)
    requires n > 0 && Level(g, s, n - 1) <= inside && ClosedUpTo(g, inside, boundary)
    ensures forall x :: x in Level(g, s, n) ==> x in inside || x in boundary
  {
  }

  lemma SmallerRest(all: set<string>, before: set<string>, now: set<string>)
    requires before <= now && now - before <= all
    ensures |all - now| <= |all - before|
    ensures before != now ==> |all - now| < |all - before|
  {
    assert all - before == (all - now) + (now - before);
    assert |now - before| == 0 ==> now == before;
  }

  ghost predicate Layered(g: Graph, s: string, chain: seq<string>, depth: seq<nat>, below: nat)
  {
    && |depth| == |chain|
    && (forall i :: 0 <= i < |chain| ==> 0 < depth[i] < below && AtDistance(g, s, chain[i], depth[i]))
    && (forall i, j :: 0 <= i < j < |chain| ==> depth[i] <= depth[j] && chain[i] != chain[j])
  }

  /** The walk's bookkeeping: `seen` is the start plus the chain. */
  ghost predicate Tracks(g: Graph, s: string, chain: seq<string>, seen: set<string>, depth: seq<nat>, below: nat) {
    && Layered(g, s, chain, depth, below)
    && s in seen && s !in chain
    && forall x :: x in seen <==> x == s || x in chain
  }

  ghost predicate AllAtLevel(g: Graph, s: string, scopes: seq<string>, n: nat) {
    forall x :: x in scopes ==> x in Level(g, s, n) && x in AllParents(g)
  }

  ghost predicate LevelsWithin(g: Graph, s: string, n: nat, inside: set<string>) {
    forall m: nat :: m < n ==> Level(g, s, m) <= inside
  }

  /** What holds between two passes of the walk. */
  ghost predicate WalkInvariant(g: Graph, s: string, frontier: seq<string>, chain: seq<string>, seen: set<string>,
                                depth: seq<nat>, n: nat) {
    && n > 0
    && Tracks(g, s, chain, seen, depth, n)
    && AllAtLevel(g, s, frontier, n)
    && LevelsWithin(g, s, n, seen)
    && ClosedUpTo(g, seen, frontier)
  }

  /** What holds inside a pass over `frontier`, `next` being the parents collected so far. */
  ghost predicate PassInvariant(g: Graph, s: string, frontier: seq<string>, next: seq<string>, chain: seq<string>,
                                seen: set<string>, depth: seq<nat>, n: nat, before: set<string>, k: nat) {
    && n > 0 && k <= |frontier| && (forall i :: 0 <= i < k ==> frontier[i] in seen)
    && Tracks(g, s, chain, seen, depth, n + 1)
    && AllAtLevel(g, s, frontier, n) && AllAtLevel(g, s, next, n + 1)
    && LevelsWithin(g, s, n, before)
    && ClosedUpTo(g, seen, frontier + next)
    && before <= seen && seen - before <= AllParents(g)
    && (next != [] ==> before != seen)
  }

  lemma ParentsAtNextLevel(g: Graph, s: string, x: string, n: nat)
    requires x in Level(g, s, n)
    ensures AllAtLevel(g, s, g.Parents(x), n + 1)
  {
    forall p | p in g.Parents(x) ensures p in Level(g, s, n + 1) && p in AllParents(g) {
      ParentIsKnown(g, x, p);
    }
  }

  lemma TracksExtends(g: Graph, s: string, chain: seq<string>, seen: set<string>, depth: seq<nat>, x: string, n: nat)
    requires Tracks(g, s, chain, seen, depth, n + 1) && 0 < n && x !in seen && AtDistance(g, s, x, n)
    ensures Tracks(g, s, chain + [x], seen + {x}, depth + [n], n + 1)
  {
    assert Layered(g, s, chain + [x], depth + [n], n + 1);
  }

  lemma PassStarts(g: Graph, s: string, frontier: seq<string>, chain: seq<string>, seen: set<string>, depth: seq<nat>, n: nat)
    requires WalkInvariant(g, s, frontier, chain, seen, depth, n)
    ensures PassInvariant(g, s, frontier, [], chain, seen, depth, n, seen, 0)
    ensures ClosedUpTo(g, seen, frontier)
  {
    assert frontier + [] == frontier;
  }

  lemma ClosedExtends(g: Graph, inside: set<string>, frontier: seq<string>, next: seq<string>, x: string)
    requires ClosedUpTo(g, inside, frontier + next)
    ensures ClosedUpTo(g, inside + {x}, frontier + (next + g.Parents(x)))
  {
  }

  lemma AtLevelAppends(g: Graph, s: string, a: seq<string>, b: seq<string>, n: nat)
    requires AllAtLevel(g, s, a, n) && AllAtLevel(g, s, b, n)
    ensures AllAtLevel(g, s, a + b, n)
  {
  }

  lemma PassExtends(g: Graph, s: string, frontier: seq<string>, next: seq<string>, chain: seq<string>,
                    seen: set<string>, depth: seq<nat>, n: nat, before: set<string>, k: nat)
    requires PassInvariant(g, s, frontier, next, chain, seen, depth, n, before, k)
    requires k < |frontier| && frontier[k] !in seen
    ensures PassInvariant(g, s, frontier, next + g.Parents(frontier[k]), chain + [frontier[k]], seen + {frontier[k]},
                          depth + [n], n, before, k + 1)
  {
    var x := frontier[k];
    assert AtDistance(g, s, x, n);
    TracksExtends(g, s, chain, seen, depth, x, n);
    ParentsAtNextLevel(g, s, x, n);
    AtLevelAppends(g, s, next, g.Parents(x), n + 1);
    ClosedExtends(g, seen, frontier, next, x);
  }

  lemma PassSkips(g: Graph, s: string, frontier: seq<string>, next: seq<string>, chain: seq<string>,
                  seen: set<string>, depth: seq<nat>, n: nat, before: set<string>, k: nat)
    requires PassInvariant(g, s, frontier, next, chain, seen, depth, n, before, k)
    requires k < |frontier| && frontier[k] in seen
    ensures PassInvariant(g, s, frontier, next, chain, seen, depth, n, before, k + 1)
  {
  }

  lemma ClosedShrinks(g: Graph, inside: set<string>, frontier: seq<string>, next: seq<string>)
    requires ClosedUpTo(g, inside, frontier + next) && forall i :: 0 <= i < |frontier| ==> frontier[i] in inside
    ensures ClosedUpTo(g, inside, next)
  {
  }

  lemma LevelsGrow(g: Graph, s: string, n: nat, before: set<string>, frontier: seq<string>, seen: set<string>)
    requires n > 0 && LevelsWithin(g, s, n, before) && ClosedUpTo(g, before, frontier)
    requires before <= seen && forall i :: 0 <= i < |frontier| ==> frontier[i] in seen
    ensures LevelsWithin(g, s, n + 1, seen)
  {
    NextLevel(g, s, n, before, frontier);
    forall m: nat | m < n + 1 ensures Level(g, s, m) <= seen {}
  }

  lemma PassCompletes(g: Graph, s: string, frontier: seq<string>, next: seq<string>, chain: seq<string>,
                      seen: set<string>, depth: seq<nat>, n: nat, before: set<string>)
    requires PassInvariant(g, s, frontier, next, chain, seen, depth, n, before, |frontier|)
    requires ClosedUpTo(g, before, frontier)
    ensures WalkInvariant(g, s, next, chain, seen, depth, n + 1)
    ensures before <= seen && seen - before <= AllParents(g) && (next != [] ==> before != seen)
  {
    LevelsGrow(g, s, n, before, frontier, seen);
    ClosedShrinks(g, seen, frontier, next);
  }

  lemma WalkCompletes(g: Graph, s: string, chain: seq<string>, seen: set<string>, depth: seq<nat>, n: nat)
    requires WalkInvariant(g, s, [], chain, seen, depth, n)
    ensures forall x :: x in chain <==> IsAncestor(g, s, x)
  {
    forall x | IsAncestor(g, s, x) ensures x in chain {
      var m: nat :| x in Level(g, s, m);
      ClosedHoldsLevels(g, s, seen, m);
    }
    forall x | x in chain ensures IsAncestor(g, s, x) {
      var i :| 0 <= i < |chain| && chain[i] == x;
      assert AtDistance(g, s, chain[i], depth[i]);
    }
  }

  lemma LayeredIsSorted(g: Graph, s: string, chain: seq<string>, depth: seq<nat>, below: nat)
    requires Layered(g, s, chain, depth, below)
    ensures forall i, j, a, b :: 0 <= i < j < |chain| && AtDistance(g, s, chain[i], a) && AtDistance(g, s, chain[j], b) ==> a <= b
  {
    forall i, j, a, b | 0 <= i < j < |chain| && AtDistance(g, s, chain[i], a) && AtDistance(g, s, chain[j], b)
      ensures a <= b
    {
      DistanceIsUnique(g, s, chain[i], a, depth[i]);
      DistanceIsUnique(g, s, chain[j], b, depth[j]);
    }
  }

  lemma DistanceIsUnique(g: Graph, s: string, x: string, a: nat, b: nat)
    requires AtDistance(g, s, x, a) && AtDistance(g, s, x, b)
    ensures a == b
  {
  }

  /** One pass over the frontier: the inner loop of the walk. */
  method VisitFrontier(g: Graph, s: string, frontier: seq<string>, chain0: seq<string>, seen0: set<string>,
                       ghost depth0: seq<nat>, ghost n: nat)
    returns (chain: seq<string>, seen: set<string>, next: seq<string>, ghost depth: seq<nat>)
    requires WalkInvariant(g, s, frontier, chain0, seen0, depth0, n)
    ensures WalkInvariant(g, s, next, chain, seen, depth, n + 1)
    ensures seen0 <= seen && seen - seen0 <= AllParents(g) && (next != [] ==> seen0 != seen)
  {
    chain, seen, next, depth := chain0, seen0, [], depth0;
    PassStarts(g, s, frontier, chain, seen, depth, n);
    for k := 0 to |frontier|
      invariant PassInvariant(g, s, frontier, next, chain, seen, depth, n, seen0, k)
    {
      var parent := frontier[k];
      if parent in seen {
        PassSkips(g, s, frontier, next, chain, seen, depth, n, seen0, k);
      } else {
        PassExtends(g, s, frontier, next, chain, seen, depth, n, seen0, k);
        seen := seen + {parent};
        chain := chain + [parent];
        depth := depth + [n];
        next := next + g.Parents(parent);
      }
    }
    PassCompletes(g, s, frontier, next, chain, seen, depth, n, seen0);
  }

  /** The breadth-first walk terminates on any graph, cycles included, and yields exactly the
      strict ancestors, each once, nearest first. */
  method AncestorsOf(g: Graph, s: string) returns (chain: seq<string>)
    ensures forall x :: x in chain <==> IsAncestor(g, s, x)
    ensures forall i, j :: 0 <= i < j < |chain| ==> chain[i] != chain[j]
    ensures forall i, j, a, b :: 0 <= i < j < |chain| && AtDistance(g, s, chain[i], a) && AtDistance(g, s, chain[j], b) ==> a <= b
  {
    chain := [];
    var seen := {s};
    var frontier := g.Parents(s);
    ghost var n, depth: seq<nat> := 1, [];
    ParentsAtNextLevel(g, s, s, 0);
    while |frontier| > 0
      invariant WalkInvariant(g, s, frontier, chain, seen, depth, n)
      decreases |AllParents(g) - seen|, |frontier|
    {
      ghost var before := seen;
      var next;
      chain, seen, next, depth := VisitFrontier(g, s, frontier, chain, seen, depth, n);
      SmallerRest(AllParents(g), before, seen);
      frontier := next;
      n := n + 1;
    }
    LayeredIsSorted(g, s, chain, depth, n);
    WalkCompletes(g, s, chain, seen, depth, n);
  }
}
