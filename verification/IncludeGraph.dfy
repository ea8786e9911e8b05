/** The include-graph analysis of deps.py: enumeration of the simple paths between two headers,
    and the edges that its explain and fix modes report as removable. */
module IncludeGraph {
  import opened Collections
  import opened Digraph

  type Node = string
  type Path = seq<Node>

  /** p is a simple path of at least two edges that starts with prefix and ends at destination. */
  ghost predicate Completes(g: Graph<Node>, prefix: Path, destination: Node, p: Path) {
    prefix <= p && IsWalk(g, p) && Simple(p) && p[|p| - 1] == destination && |p| > 2
  }

  /** A direct edge that some longer simple path doubles. */
  ghost predicate Redundant(g: Graph<Node>, source: Node, destination: Node) {
    source != destination && Edge(g, source, destination) &&
    exists p :: Completes(g, [source], destination, p)
  }

  ghost function RedundantEdges(g: Graph<Node>): set<(Node, Node)> {
    set u, v | u in Nodes(g) && v in Nodes(g) && Redundant(g, u, v) :: (u, v)
  }

  // ----- path enumeration

  /** The two lists that the recursive search shares with its caller. */
  class Trail {
    var current: Path
    var paths: seq<Path>

    constructor (paths: seq<Path>)
      ensures current == [] && this.paths == paths
    {
      current := [];
      this.paths := paths;
    }

    /** Depth-first search from node: appends exactly the completions of the current path, and
        hands the current path back as it found it. */
    method Dfs(g: Graph<Node>, node: Node, destination: Node, ghost universe: set<Node>)
      returns (ghost found: seq<Path>)
      requires OnTrail(g, current + [node], universe)
      modifies this
      ensures current == old(current)
      ensures paths == old(paths) + found
      ensures ListsAll(g, old(current) + [node], destination, found)
      decreases |universe| - |current|
    {
      found := [];
      current := current + [node];
      ghost var here := current;
      SimpleSize(here, universe);
      if node == destination && |current| > 2 {
        paths := paths + [current];
        found := [here];
        CompletionsStop(g, here, destination);
      } else {
        var next := Successors(g, node);
        for k := 0 to |next|
          invariant current == here
          invariant paths == old(paths) + found
          invariant Lists(g, here, destination, found, next[..k])
        {
          ghost var more: seq<Path> := [];
          if next[k] !in current {
            ExtendTrail(g, here, next[k], universe);
            more := Dfs(g, next[k], destination, universe);
          }
          ListsStep(g, here, destination, found, next, k, more);
          ConcatAssociative(old(paths), found, more);
          found := found + more;
        }
        ListsEnd(g, here, destination, found);
      }
      current := current[..|current| - 1];
    }
  }

  /** A simple walk inside the universe of nodes, which holds every node of the graph. */
  ghost predicate OnTrail(g: Graph<Node>, p: Path, universe: set<Node>) {
    IsWalk(g, p) && Simple(p) && Nodes(g) <= universe && forall x :: x in p ==> x in universe
  }

  /** found holds exactly the completions of the path here. */
  ghost predicate ListsAll(g: Graph<Node>, here: Path, destination: Node, found: seq<Path>) {
    forall p :: p in found <==> Completes(g, here, destination, p)
  }

  /** found holds exactly the completions of the path here that go on through a node in via. */
  ghost predicate Lists(g: Graph<Node>, here: Path, destination: Node, found: seq<Path>, via: seq<Node>) {
    forall p :: p in found <==> Completes(g, here, destination, p) && |p| > |here| && p[|here|] in via
  }

  lemma ListsStep(g: Graph<Node>, here: Path, destination: Node, found: seq<Path>, next: seq<Node>, k: nat,
                  more: seq<Path>)
    requires k < |next| && Lists(g, here, destination, found, next[..k])
    requires if next[k] in here then more == [] else ListsAll(g, here + [next[k]], destination, more)
    ensures Lists(g, here, destination, found + more, next[..k + 1])
  {
    CompletionsThrough(g, here, destination, next[k]);
    assert next[..k + 1] == next[..k] + [next[k]];
  }

  lemma ListsEnd(g: Graph<Node>, here: Path, destination: Node, found: seq<Path>)
    requires |here| >= 1 && !(here[|here| - 1] == destination && |here| > 2)
    requires var next := Successors(g, here[|here| - 1]);
             Lists(g, here, destination, found, next[..|next|])
    ensures ListsAll(g, here, destination, found)
  {
    var next := Successors(g, here[|here| - 1]);
    assert next[..|next|] == next;
    CompletionsBranch(g, here, destination);
  }

  lemma SimpleSize(p: Path, universe: set<Node>)
    requires Simple(p) && forall x :: x in p ==> x in universe
    ensures |p| <= |universe|
  {
    if p != [] {
      var last := p[|p| - 1];
      SimpleSize(p[..|p| - 1], universe - {last});
    }
  }

  lemma ExtendTrail(g: Graph<Node>, here: Path, next: Node, universe: set<Node>)
    requires OnTrail(g, here, universe) && Edge(g, here[|here| - 1], next) && next !in here
    ensures OnTrail(g, here + [next], universe)
  {
  }

  /** The completions whose next node is `next` are those of the path extended by it; there are
      none when the path already holds it. */
  lemma CompletionsThrough(g: Graph<Node>, here: Path, destination: Node, next: Node)
    ensures forall p :: Completes(g, here + [next], destination, p) <==>
              Completes(g, here, destination, p) && |p| > |here| && p[|here|] == next
    ensures next in here ==> forall p :: !Completes(g, here + [next], destination, p)
  {
    forall p | Completes(g, here, destination, p) && |p| > |here| && p[|here|] == next
      ensures here + [next] <= p
    {
      assert p[..|here| + 1] == here + [next];
    }
    forall p | here + [next] <= p && Simple(p) ensures next !in here {
      assert p[|here|] == next;
      forall i | 0 <= i < |here| ensures here[i] != next {
        assert p[i] == here[i];
      }
    }
  }

  /** Unless the path itself is complete, every completion leaves it along an edge. */
  lemma CompletionsBranch(g: Graph<Node>, here: Path, destination: Node)
    requires |here| >= 1 && !(here[|here| - 1] == destination && |here| > 2)
    ensures forall p :: Completes(g, here, destination, p) ==>
              |p| > |here| && p[|here|] in Successors(g, here[|here| - 1])
  {
    forall p | Completes(g, here, destination, p)
      ensures |p| > |here| && p[|here|] in Successors(g, here[|here| - 1])
    {
      assert p != here;
      assert Edge(g, p[|here| - 1], p[|here|]);
    }
  }

  /** A path that has reached its destination is its own only completion. */
  lemma CompletionsStop(g: Graph<Node>, here: Path, destination: Node)
    requires IsWalk(g, here) && Simple(here) && here[|here| - 1] == destination && |here| > 2
    ensures forall p :: Completes(g, here, destination, p) <==> p == here
  {
    forall p | Completes(g, here, destination, p) ensures p == here {
      assert p[|here| - 1] == destination;
    }
  }

  /** Every simple path from source to destination: the direct edge first and once, then all the
      longer ones. */
  method FindAllPaths(g: Graph<Node>, source: Node, destination: Node) returns (paths: seq<Path>)
    ensures Edge(g, source, destination) ==> |paths| >= 1 && paths[0] == [source, destination]
    ensures forall i :: 0 <= i < |paths| && !(i == 0 && Edge(g, source, destination)) ==>
              Completes(g, [source], destination, paths[i])
    ensures forall p :: Completes(g, [source], destination, p) ==> p in paths
  {
    paths := if destination in Successors(g, source) then [[source, destination]] else [];
    var trail := new Trail(paths);
    assert trail.current + [source] == [source];
    ghost var found := trail.Dfs(g, source, destination, Nodes(g) + {source});
    assert forall i :: |paths| <= i < |trail.paths| ==> trail.paths[i] in found;
    paths := trail.paths;
  }

  /** The pairs reported, each with its paths: exactly the redundant edges. */
  method FindAllPairsWithAtLeastTwoPaths(g: Graph<Node>) returns (result: map<(Node, Node), seq<Path>>)
    ensures forall u, v :: (u, v) in result <==> Redundant(g, u, v)
    ensures forall u, v :: (u, v) in result ==>
              [u, v] in result[(u, v)] &&
              forall p :: p in result[(u, v)] <==> p == [u, v] || Completes(g, [u], v, p)
  {
    result := map[];
    var destinations := g.Keys + set u, v | u in g && v in g[u] :: v;
    var sources := g.Keys;
    ghost var doneSources: set<Node> := {};
    while sources != {}
      invariant sources + doneSources == g.Keys && sources !! doneSources
      invariant Reported(g, result)
      invariant forall u, v :: u in doneSources && Redundant(g, u, v) ==> (u, v) in result
    {
      var source :| source in sources;
      sources := sources - {source};
      var todo := destinations;
      while todo != {}
        invariant todo <= destinations
        invariant Reported(g, result)
        invariant forall u, v :: u in doneSources && Redundant(g, u, v) ==> (u, v) in result
        invariant forall v :: v in destinations - todo && Redundant(g, source, v) ==> (source, v) in result
      {
        var destination :| destination in todo;
        todo := todo - {destination};
        if source != destination {
          var paths := FindAllPaths(g, source, destination);
          if |paths| >= 2 {
            var direct := HasDirect(g, source, destination, paths);
            if direct {
              assert Completes(g, [source], destination, paths[1]);
              result := result[(source, destination) := paths];
            }
          } else {
            ShortListing(g, source, destination, paths);
          }
        }
      }
      doneSources := doneSources + {source};
    }
  }

  ghost predicate Reported(g: Graph<Node>, result: map<(Node, Node), seq<Path>>) {
    forall u, v :: (u, v) in result ==>
      Redundant(g, u, v) && [u, v] in result[(u, v)] &&
      forall p :: p in result[(u, v)] <==> p == [u, v] || Completes(g, [u], v, p)
  }

  /** The scan of a path list for one of length two finds the direct edge, if there is one. */
  method HasDirect(g: Graph<Node>, source: Node, destination: Node, paths: seq<Path>) returns (direct: bool)
    requires Edge(g, source, destination) ==> |paths| >= 1 && paths[0] == [source, destination]
    requires forall i :: 0 <= i < |paths| && !(i == 0 && Edge(g, source, destination)) ==>
               Completes(g, [source], destination, paths[i])
    ensures direct <==> Edge(g, source, destination)
  {
    direct := false;
    for i := 0 to |paths|
      invariant direct <==> i > 0 && Edge(g, source, destination)
    {
      if |paths[i]| == 2 {
        direct := true;
      }
    }
  }

  lemma ShortListing(g: Graph<Node>, source: Node, destination: Node, paths: seq<Path>)
    requires |paths| < 2
    requires Edge(g, source, destination) ==> |paths| >= 1 && paths[0] == [source, destination]
    requires forall p :: Completes(g, [source], destination, p) ==> p in paths
    ensures !Redundant(g, source, destination)
  {
    if Edge(g, source, destination) {
      assert paths == [[source, destination]];
    }
  }

  // ----- what removing the reported edges does

  function Kept(u: Node, vs: seq<Node>, cut: set<(Node, Node)>): (r: seq<Node>)
    ensures forall v :: v in r <==> v in vs && (u, v) !in cut
  {
    if vs == [] then []
    else (if (u, vs[0]) in cut then [] else [vs[0]]) + Kept(u, vs[1..], cut)
  }

  /** The graph left once every edge in cut has been deleted. */
  function Without(g: Graph<Node>, cut: set<(Node, Node)>): (r: Graph<Node>)
    ensures forall u, v :: Edge(r, u, v) <==> Edge(g, u, v) && (u, v) !in cut
  {
    map u | u in g :: Kept(u, g[u], cut)
  }

  ghost function Reduced(g: Graph<Node>): Graph<Node> {
    Without(g, RedundantEdges(g))
  }

  ghost predicate KeepsReachability(g: Graph<Node>) {
    forall u, v :: Reaches(g, u, v) <==> Reaches(Reduced(g), u, v)
  }

  // ----- groups of headers that include one another

  ghost predicate Mutual(g: Graph<Node>, u: Node, v: Node) {
    Reaches(g, u, v) && Reaches(g, v, u)
  }

  /** Some header lies between the group of u and that of v. */
  ghost predicate Between(g: Graph<Node>, u: Node, v: Node) {
    exists x :: Reaches(g, u, x) && Reaches(g, x, v) && !Reaches(g, x, u) && !Reaches(g, v, x)
  }

  /** An edge from one group to another with no header between them. */
  ghost predicate Crosses(g: Graph<Node>, u: Node, v: Node) {
    Edge(g, u, v) && !Reaches(g, v, u) && !Between(g, u, v)
  }

  ghost predicate SameCrossing(g: Graph<Node>, u: Node, v: Node, a: Node, b: Node) {
    Edge(g, a, b) && Mutual(g, u, a) && Mutual(g, v, b)
  }

  /** Two groups with no header between them have at most one edge from the one to the other. */
  ghost predicate OneCrossing(g: Graph<Node>) {
    forall u, v, a, b :: Crosses(g, u, v) && SameCrossing(g, u, v, a, b) ==> a == u && b == v
  }

  /** Headers that include one another still do over the edges that are not reported. */
  ghost predicate GroupsHold(g: Graph<Node>) {
    forall u, v :: Mutual(g, u, v) ==> Reaches(Reduced(g), u, v)
  }

  /** A walk between two such groups steps from the one into the other. */
  lemma FindCrossing(g: Graph<Node>, p: Path, u: Node, v: Node) returns (i: nat)
    requires WalkFromTo(g, p, u, v) && !Reaches(g, v, u) && !Between(g, u, v)
    ensures i + 1 < |p| && Mutual(g, u, p[i]) && Mutual(g, v, p[i + 1])
  {
    i := 0;
    ReachesSelf(g, u);
    while Reaches(g, p[i + 1], u)
      invariant i + 1 < |p| && Mutual(g, u, p[i])
      decreases |p| - i
    {
      SubWalk(g, p, 0, i + 1);
      i := i + 1;
    }
    SubWalk(g, p, 0, i + 1);
    SubWalk(g, p, i + 1, |p| - 1);
  }

  /** A second edge between the same two groups makes the first redundant. */
  lemma Doubled(g: Graph<Node>, u: Node, v: Node, a: Node, b: Node)
    requires Edge(g, u, v) && !Reaches(g, v, u) && SameCrossing(g, u, v, a, b) && !(a == u && b == v)
    ensures Redundant(g, u, v)
  {
    var p0 :| WalkFromTo(g, p0, u, a);
    var q0 :| WalkFromTo(g, q0, b, v);
    var p := SimpleWalk(g, p0);
    var q := SimpleWalk(g, q0);
    forall i, j | 0 <= i < |p| && 0 <= j < |q| ensures p[i] != q[j] {
      Apart(g, u, v, p, q, i, j);
    }
    var r := p + q;
    forall k | 0 <= k < |r| - 1 ensures Edge(g, r[k], r[k + 1]) {
      if k >= |p| {
        assert Edge(g, q[k - |p|], q[k - |p| + 1]);
      }
    }
    ReachesSelf(g, u);
    assert Completes(g, [u], v, r);
  }

  lemma Apart(g: Graph<Node>, u: Node, v: Node, p: Path, q: Path, i: nat, j: nat)
    requires IsWalk(g, p) && IsWalk(g, q) && i < |p| && j < |q| && !Reaches(g, v, u)
    requires Reaches(g, p[|p| - 1], u) && Reaches(g, v, q[0])
    ensures p[i] != q[j]
  {
    if p[i] == q[j] {
      SubWalk(g, p, i, |p| - 1);
      SubWalk(g, q, 0, j);
      ReachesTrans(g, v, q[0], q[j]);
      ReachesTrans(g, v, p[i], p[|p| - 1]);
      ReachesTrans(g, v, p[|p| - 1], u);
    }
  }

  /** The only edge between two such groups is not redundant. */
  lemma CrossingIsKept(g: Graph<Node>, u: Node, v: Node)
    requires OneCrossing(g) && Crosses(g, u, v)
    ensures !Redundant(g, u, v)
  {
    forall p | WalkFromTo(g, p, u, v) && Simple(p) ensures |p| == 2 {
      var i := FindCrossing(g, p, u, v);
      assert SameCrossing(g, u, v, p[i], p[i + 1]);
    }
  }

  /** When two such groups have two edges, every edge between them is reported, and the second group
      can no longer be reached from the first. */
  lemma DoubleCrossingIsLost(g: Graph<Node>, u: Node, v: Node, a: Node, b: Node)
    requires Crosses(g, u, v) && SameCrossing(g, u, v, a, b) && !(a == u && b == v)
    ensures Reaches(g, u, v) && !Reaches(Reduced(g), u, v)
  {
    EdgeReaches(g, u, v);
    forall p | WalkFromTo(Reduced(g), p, u, v) ensures false {
      assert WalkFromTo(g, p, u, v);
      var i := FindCrossing(g, p, u, v);
      var c, d := p[i], p[i + 1];
      assert Edge(Reduced(g), c, d);
      SecondCrossing(g, u, v, a, b, c, d);
    }
  }

  lemma SecondCrossing(g: Graph<Node>, u: Node, v: Node, a: Node, b: Node, c: Node, d: Node)
    requires Edge(g, u, v) && !Reaches(g, v, u) && SameCrossing(g, u, v, a, b) && !(a == u && b == v)
    requires SameCrossing(g, u, v, c, d)
    ensures (c, d) in RedundantEdges(g)
  {
    var x, y := if c == u && d == v then a else u, if c == u && d == v then b else v;
    ReachesSelf(g, u);
    ReachesSelf(g, v);
    ReachesTrans(g, c, u, x);
    ReachesTrans(g, x, u, c);
    ReachesTrans(g, d, v, y);
    ReachesTrans(g, y, v, d);
    if Reaches(g, d, c) {
      ReachesTrans(g, v, d, c);
      ReachesTrans(g, v, c, u);
    }
    Doubled(g, c, d, x, y);
  }

  // ----- the condition suffices

  /** Everything that can be reached from u; its size falls from group to group. */
  ghost function Cone(g: Graph<Node>, u: Node): set<Node> {
    Down(g, u) + {u}
  }

  lemma InCone(g: Graph<Node>, u: Node, v: Node)
    ensures v in Cone(g, u) <==> Reaches(g, u, v)
  {
    ReachesSelf(g, u);
    if Below(g, u, v) {
      BelowIsReachable(g, u, v);
    }
    if Reaches(g, u, v) && u != v {
      var p :| WalkFromTo(g, p, u, v);
      SubWalk(g, p, 0, |p| - 1);
      BelowIsReachable(g, u, v);
    }
  }

  lemma ConeShrinks(g: Graph<Node>, u: Node, v: Node)
    requires Reaches(g, u, v)
    ensures |Cone(g, v)| <= |Cone(g, u)| && (!Reaches(g, v, u) ==> |Cone(g, v)| < |Cone(g, u)|)
  {
    forall w | w in Cone(g, v) ensures w in Cone(g, u) {
      InCone(g, v, w);
      ReachesTrans(g, u, v, w);
      InCone(g, u, w);
    }
    SubsetSize(Cone(g, v), Cone(g, u));
    InCone(g, v, u);
    if !Reaches(g, v, u) {
      ProperSubsetSize(Cone(g, v), Cone(g, u), u);
    }
  }

  /** How far down the graph one goes from u to v. */
  ghost function Span(g: Graph<Node>, u: Node, v: Node): int {
    |Cone(g, u)| - |Cone(g, v)|
  }

  /** Every edge, reported or not, is still bridged once all the reported edges are gone at once. */
  lemma {:induction false} EdgeSurvives(g: Graph<Node>, u: Node, v: Node)
    requires GroupsHold(g) && OneCrossing(g) && Edge(g, u, v)
    ensures Reaches(Reduced(g), u, v)
    decreases Span(g, u, v), 0
  {
    EdgeReaches(g, u, v);
    ConeShrinks(g, u, v);
    if Reaches(g, v, u) {
      assert Mutual(g, u, v);
    } else if Between(g, u, v) {
      var x :| Reaches(g, u, x) && Reaches(g, x, v) && !Reaches(g, x, u) && !Reaches(g, v, x);
      ConeShrinks(g, u, x);
      ConeShrinks(g, x, v);
      StretchSurvives(g, u, x, Span(g, u, v));
      StretchSurvives(g, x, v, Span(g, u, v));
      ReachesTrans(Reduced(g), u, x, v);
    } else {
      CrossingIsKept(g, u, v);
      EdgeReaches(Reduced(g), u, v);
    }
  }

  lemma {:induction false} StretchSurvives(g: Graph<Node>, u: Node, v: Node, bound: nat)
    requires GroupsHold(g) && OneCrossing(g) && Reaches(g, u, v) && Span(g, u, v) < bound
    ensures Reaches(Reduced(g), u, v)
    decreases bound, 0, 1, 0
  {
    var p :| WalkFromTo(g, p, u, v);
    forall i | 0 <= i < |p| - 1 ensures Span(g, p[i], p[i + 1]) < bound {
      SubWalk(g, p, 0, i);
      ConeShrinks(g, u, p[i]);
      SubWalk(g, p, i + 1, |p| - 1);
      ConeShrinks(g, p[i + 1], v);
    }
    WalkSurvives(g, p, bound);
  }

  lemma {:induction false} WalkSurvives(g: Graph<Node>, p: Path, bound: nat)
    requires GroupsHold(g) && OneCrossing(g) && IsWalk(g, p)
    requires forall i :: 0 <= i < |p| - 1 ==> Span(g, p[i], p[i + 1]) < bound
    ensures Reaches(Reduced(g), p[0], p[|p| - 1])
    decreases bound, 0, 0, |p|
  {
    hide GroupsHold, OneCrossing, Span, Reduced, Edge;
    if |p| == 1 {
      ReachesSelf(Reduced(g), p[0]);
    } else {
      var front := p[..|p| - 1];
      WalkSurvives(g, front, bound);
      EdgeSurvives(g, p[|p| - 2], p[|p| - 1]);
      ReachesTrans(Reduced(g), p[0], p[|p| - 2], p[|p| - 1]);
    }
  }

  /** Removing all the reported edges at once changes no reachability exactly when the edges left
      still hold each group together and no two groups, with no header between them, are joined by
      two edges. */
  lemma ReachabilityKeptIff(g: Graph<Node>)
    ensures KeepsReachability(g) <==> GroupsHold(g) && OneCrossing(g)
  {
    if KeepsReachability(g) {
      forall u, v, a, b | Crosses(g, u, v) && SameCrossing(g, u, v, a, b) ensures a == u && b == v {
        if !(a == u && b == v) {
          DoubleCrossingIsLost(g, u, v, a, b);
        }
      }
    }
    if GroupsHold(g) && OneCrossing(g) {
      forall u, v ensures Reaches(g, u, v) <==> Reaches(Reduced(g), u, v) {
        if Reaches(g, u, v) {
          ConeShrinks(g, u, v);
          StretchSurvives(g, u, v, Span(g, u, v) + 1);
        } else if Reaches(Reduced(g), u, v) {
          SubgraphReaches(Reduced(g), g, u, v);
        }
      }
    }
  }

  /** The groups hold in particular if no reported edge lies within one. */
  lemma GroupsHoldIfSpared(g: Graph<Node>)
    requires forall u, v :: Redundant(g, u, v) ==> !Mutual(g, u, v)
    ensures GroupsHold(g)
  {
    forall u, v | Mutual(g, u, v) ensures Reaches(Reduced(g), u, v) {
      var p :| WalkFromTo(g, p, u, v);
      forall i | 0 <= i < |p| - 1 ensures Edge(Reduced(g), p[i], p[i + 1]) {
        SubWalk(g, p, 0, i);
        SubWalk(g, p, i + 1, |p| - 1);
        ReachesTrans(g, p[i + 1], v, u);
        ReachesTrans(g, p[i + 1], u, p[i]);
        EdgeReaches(g, p[i], p[i + 1]);
        assert Mutual(g, p[i], p[i + 1]);
      }
      assert WalkFromTo(Reduced(g), p, u, v);
    }
  }

  /** On an acyclic graph that is always so, and the result is the transitive reduction. */
  lemma TransitiveReduction(g: Graph<Node>)
    requires Acyclic(g)
    ensures KeepsReachability(g)
    ensures forall u, v :: Edge(Reduced(g), u, v) ==> !Reaches(Without(g, RedundantEdges(g) + {(u, v)}), u, v)
  {
    forall u, v | Mutual(g, u, v) ensures u == v {
      AcyclicGroups(g, u, v);
    }
    forall u ensures Reaches(Reduced(g), u, u) {
      ReachesSelf(Reduced(g), u);
    }
    ReachabilityKeptIff(g);
    forall u, v | Edge(Reduced(g), u, v) ensures !Reaches(Without(g, RedundantEdges(g) + {(u, v)}), u, v) {
      EdgeReaches(g, u, v);
      KeptEdgeIsNeeded(g, RedundantEdges(g), u, v);
    }
  }

  lemma AcyclicGroups(g: Graph<Node>, u: Node, v: Node)
    requires Acyclic(g) && Mutual(g, u, v)
    ensures u == v
  {
    if u != v {
      GroupIsCyclic(g, u, v);
    }
  }

  lemma GroupIsCyclic(g: Graph<Node>, u: Node, v: Node)
    requires Mutual(g, u, v) && u != v
    ensures Below(g, u, u)
  {
    var p :| WalkFromTo(g, p, u, v);
    SubWalk(g, p, 1, |p| - 1);
    ReachesTrans(g, p[1], v, u);
    assert Edge(g, u, p[1]);
  }

  lemma SubgraphReaches(small: Graph<Node>, big: Graph<Node>, u: Node, v: Node)
    requires forall a, b :: Edge(small, a, b) ==> Edge(big, a, b)
    requires Reaches(small, u, v)
    ensures Reaches(big, u, v)
  {
    var p :| WalkFromTo(small, p, u, v);
    assert WalkFromTo(big, p, u, v);
  }

  /** On any graph: without an edge that is not redundant, its ends are no longer connected. */
  lemma KeptEdgeIsNeeded(g: Graph<Node>, cut: set<(Node, Node)>, u: Node, v: Node)
    requires Edge(g, u, v) && !Redundant(g, u, v) && u != v
    ensures !Reaches(Without(g, cut + {(u, v)}), u, v)
  {
    if Reaches(Without(g, cut + {(u, v)}), u, v) {
      Bypassed(g, cut, u, v);
    }
  }

  lemma Bypassed(g: Graph<Node>, cut: set<(Node, Node)>, u: Node, v: Node)
    requires Edge(g, u, v) && u != v && Reaches(Without(g, cut + {(u, v)}), u, v)
    ensures Redundant(g, u, v)
  {
    var rest := Without(g, cut + {(u, v)});
    var p :| WalkFromTo(rest, p, u, v);
    var q := SimpleWalk(rest, p);
    assert Edge(rest, q[0], q[1]);
    assert Completes(g, [u], v, q);
  }

  /** On a cyclic graph the same deletion can disconnect: here both ways out of "a" are reported. */
  lemma CyclicGraphCanLoseReachability()
    ensures var g: Graph<Node> := map["a" := ["b", "c"], "b" := ["c"], "c" := ["b"]];
            Reaches(g, "a", "b") && !Reaches(Without(g, RedundantEdges(g)), "a", "b")
  {
    var g: Graph<Node> := map["a" := ["b", "c"], "b" := ["c"], "c" := ["b"]];
    assert Successors(g, "a") == ["b", "c"];
    assert Edge(g, "a", "b") && Edge(g, "a", "c") by {
      assert ["b", "c"][0] == "b" && ["b", "c"][1] == "c";
    }
    assert Edge(g, "b", "c") && Edge(g, "c", "b");
    EdgeReaches(g, "a", "b");
    TwoStepsDouble(g, "a", "c", "b");
    TwoStepsDouble(g, "a", "b", "c");
    var rest := Without(g, RedundantEdges(g));
    if Reaches(rest, "a", "b") {
      LeavesByAnEdge(rest, "a", "b");
    }
  }

  lemma TwoStepsDouble(g: Graph<Node>, u: Node, w: Node, v: Node)
    requires Edge(g, u, v) && Edge(g, u, w) && Edge(g, w, v) && u != v && u != w && w != v
    ensures (u, v) in RedundantEdges(g)
  {
    assert Completes(g, [u], v, [u, w, v]);
  }

  lemma LeavesByAnEdge(g: Graph<Node>, u: Node, v: Node)
    requires Reaches(g, u, v) && u != v
    ensures exists w :: Edge(g, u, w)
  {
    var p :| WalkFromTo(g, p, u, v);
    assert Edge(g, p[0], p[1]);
  }
}
