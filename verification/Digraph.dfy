/** Finite directed graphs given by successor lists, with the walks, reachability and
    acyclicity facts that the include graph and the template graph both rest on. */
module Digraph {
  import opened Collections

  type Graph<T> = map<T, seq<T>>

  function Successors<T>(g: Graph<T>, u: T): seq<T> {
    if u in g then g[u] else []
  }

  predicate Edge<T(==)>(g: Graph<T>, u: T, v: T) {
    v in Successors(g, u)
  }

  /** Every node that is a key or a successor of one. */
  ghost function Nodes<T(!new)>(g: Graph<T>): (nodes: set<T>)
    ensures forall u, v :: Edge(g, u, v) ==> u in nodes && v in nodes
  {
    g.Keys + set u, v | u in g && v in g[u] :: v
  }

  ghost predicate IsWalk<T>(g: Graph<T>, p: seq<T>) {
    |p| >= 1 && forall i :: 0 <= i < |p| - 1 ==> Edge(g, p[i], p[i + 1])
  }

  ghost predicate WalkFromTo<T>(g: Graph<T>, p: seq<T>, u: T, v: T) {
    IsWalk(g, p) && p[0] == u && p[|p| - 1] == v
  }

  ghost predicate Simple<T>(p: seq<T>) {
    forall i, j :: 0 <= i < j < |p| ==> p[i] != p[j]
  }

  /** v can be reached from u by following zero or more edges. */
  ghost predicate Reaches<T(!new)>(g: Graph<T>, u: T, v: T) {
    exists p :: WalkFromTo(g, p, u, v)
  }

  /** v can be reached from u by following at least one edge. */
  ghost predicate Below<T(!new)>(g: Graph<T>, u: T, v: T) {
    exists w :: Edge(g, u, w) && Reaches(g, w, v)
  }

  ghost predicate Acyclic<T(!new)>(g: Graph<T>) {
    forall u :: !Below(g, u, u)
  }

  lemma ReachesSelf<T(!new)>(g: Graph<T>, u: T)
    ensures Reaches(g, u, u)
  {
    assert WalkFromTo(g, [u], u, u);
  }

  lemma ReachesTrans<T(!new)>(g: Graph<T>, u: T, v: T, w: T)
    requires Reaches(g, u, v) && Reaches(g, v, w)
    ensures Reaches(g, u, w)
  {
    var p :| WalkFromTo(g, p, u, v);
    var q :| WalkFromTo(g, q, v, w);
    var r := p + q[1..];
    forall i | 0 <= i < |r| - 1 ensures Edge(g, r[i], r[i + 1]) {
      if i >= |p| - 1 {
        assert Edge(g, q[i - (|p| - 1)], q[i - (|p| - 1) + 1]);
      }
    }
    assert WalkFromTo(g, r, u, w);
  }

  lemma EdgeReaches<T(!new)>(g: Graph<T>, u: T, v: T)
    requires Edge(g, u, v)
    ensures Reaches(g, u, v) && Below(g, u, v)
  {
    assert WalkFromTo(g, [u, v], u, v);
    ReachesSelf(g, v);
  }

  lemma BelowIsReachable<T(!new)>(g: Graph<T>, u: T, v: T)
    requires Below(g, u, v)
    ensures Reaches(g, u, v) && v in Nodes(g)
  {
    var w :| Edge(g, u, w) && Reaches(g, w, v);
    EdgeReaches(g, u, w);
    ReachesTrans(g, u, w, v);
    var p :| WalkFromTo(g, p, w, v);
    if |p| > 1 {
      assert Edge(g, p[|p| - 2], p[|p| - 1]);
    }
  }

  /** A stretch of a walk is a walk. */
  lemma SubWalk<T(!new)>(g: Graph<T>, p: seq<T>, i: nat, j: nat)
    requires IsWalk(g, p) && i <= j < |p|
    ensures Reaches(g, p[i], p[j])
    ensures i < j ==> Below(g, p[i], p[j])
    decreases j - i
  {
    var q := p[i..j + 1];
    forall k | 0 <= k < |q| - 1 ensures Edge(g, q[k], q[k + 1]) {
      assert Edge(g, p[i + k], p[i + k + 1]);
    }
    assert WalkFromTo(g, q, p[i], p[j]);
    if i < j {
      SubWalk(g, p, i + 1, j);
      assert Edge(g, p[i], p[i + 1]);
    }
  }

  /** What can be reached can be reached without meeting a node twice. */
  lemma {:induction false} SimpleWalk<T(!new)>(g: Graph<T>, p: seq<T>) returns (q: seq<T>)
    requires IsWalk(g, p)
    ensures WalkFromTo(g, q, p[0], p[|p| - 1]) && Simple(q)
    decreases |p|
  {
    if Simple(p) {
      q := p;
    } else {
      var i, j :| 0 <= i < j < |p| && p[i] == p[j];
      var r := p[..i] + p[j..];
      forall k | 0 <= k < |r| - 1 ensures Edge(g, r[k], r[k + 1]) {
        var at := if k < i then k else k + j - i;
        assert Edge(g, p[at], p[at + 1]);
      }
      q := SimpleWalk(g, r);
    }
  }

  /** The nodes strictly below u; its size is the rank on which proofs over acyclic graphs descend. */
  ghost function Down<T(!new)>(g: Graph<T>, u: T): set<T> {
    set v | v in Nodes(g) && Below(g, u, v)
  }

  lemma DownMonotone<T(!new)>(g: Graph<T>, u: T, v: T)
    requires Reaches(g, u, v)
    ensures Down(g, v) <= Down(g, u)
    ensures |Down(g, v)| <= |Down(g, u)|
  {
    forall w | w in Down(g, v) ensures w in Down(g, u) {
      BelowThrough(g, u, v, w);
    }
    SubsetSize(Down(g, v), Down(g, u));
  }

  lemma BelowThrough<T(!new)>(g: Graph<T>, u: T, v: T, w: T)
    requires Reaches(g, u, v) && Below(g, v, w)
    ensures Below(g, u, w)
  {
    var p :| WalkFromTo(g, p, u, v);
    if |p| > 1 {
      SubWalk(g, p, 1, |p| - 1);
      BelowIsReachable(g, v, w);
      ReachesTrans(g, p[1], v, w);
      assert Edge(g, p[0], p[1]);
    }
  }

  /** Following an edge to a node that is on no cycle strictly lowers the rank. */
  lemma EdgeLowersRank<T(!new)>(g: Graph<T>, u: T, v: T)
    requires Edge(g, u, v) && !Below(g, v, v)
    ensures |Down(g, v)| < |Down(g, u)|
  {
    EdgeReaches(g, u, v);
    DownMonotone(g, u, v);
    assert v in Down(g, u) && v !in Down(g, v);
    ProperSubsetSize(Down(g, v), Down(g, u), v);
  }
}
