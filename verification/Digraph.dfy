/** Finite directed graphs as adjacency maps: acyclicity by cycles, and its equivalence to a ranking. */
module Digraph {
  import opened Prelude

  type Graph<!T> = map<T, set<T>>

  /** Every edge leads to a node. */
  ghost predicate Closed<T(!new)>(g: Graph<T>) {
    forall a :: a in g ==> g[a] <= g.Keys
  }

  ghost predicate IsWalk<T(!new)>(g: Graph<T>, p: seq<T>) {
    p != [] && forall i :: 0 <= i < |p| - 1 ==> p[i] in g && p[i + 1] in g[p[i]]
  }

  /** A walk along at least one edge back to its start. */
  ghost predicate IsCycle<T(!new)>(g: Graph<T>, p: seq<T>) {
    |p| >= 2 && p[0] == p[|p| - 1] && IsWalk(g, p)
  }

  ghost predicate Acyclic<T(!new)>(g: Graph<T>) {
    forall p :: !IsCycle(g, p)
  }

  /** b lies at the end of a walk of at least one edge from a. */
  ghost predicate Reaches<T(!new)>(g: Graph<T>, a: T, b: T) {
    exists p :: IsWalk(g, p) && |p| >= 2 && p[0] == a && p[|p| - 1] == b
  }

  /** Along every edge the rank falls. */
  ghost predicate IsRank<T(!new)>(g: Graph<T>, rank: map<T, nat>) {
    && rank.Keys == g.Keys
    && forall a, b :: a in g && b in g[a] ==> b in g && rank[b] < rank[a]
  }

  lemma {:induction false} RankFalls<T(!new)>(g: Graph<T>, rank: map<T, nat>, p: seq<T>, i: nat)
    requires IsRank(g, rank) && IsWalk(g, p) && 1 <= i < |p|
    ensures p[0] in g && p[i] in g && rank[p[i]] < rank[p[0]]
  {
    if i > 1 {
      RankFalls(g, rank, p, i - 1);
    }
    assert p[i - 1] in g && p[i] in g[p[i - 1]];
  }

  lemma RankedIsAcyclic<T(!new)>(g: Graph<T>, rank: map<T, nat>)
    requires IsRank(g, rank)
    ensures Acyclic(g)
  {
    forall p
      ensures !IsCycle(g, p)
    {
      if IsCycle(g, p) {
        RankFalls(g, rank, p, |p| - 1);
      }
    }
  }

  /** A walk of n edges inside a set whose every node has an edge back into the set. */
  lemma {:induction false} EndlessWalk<T(!new)>(g: Graph<T>, u: set<T>, start: T, n: nat) returns (p: seq<T>)
    requires start in u && u <= g.Keys
    requires forall a :: a in u ==> g[a] * u != {}
    ensures IsWalk(g, p) && |p| == n + 1 && p[0] == start && forall x :: x in p ==> x in u
  {
    p := [start];
    if n > 0 {
      var b :| b in g[start] * u;
      var q := EndlessWalk(g, u, b, n - 1);
      p := [start] + q;
    }
  }

  /** A walk that meets a node twice contains a cycle. */
  lemma RepeatIsCycle<T(!new)>(g: Graph<T>, p: seq<T>, i: nat, j: nat)
    requires IsWalk(g, p) && i < j < |p| && p[i] == p[j]
    ensures IsCycle(g, p[i..j + 1])
  {
    var c := p[i..j + 1];
    forall k | 0 <= k < |c| - 1
      ensures c[k] in g && c[k + 1] in g[c[k]]
    {
      assert c[k] == p[i + k] && c[k + 1] == p[i + k + 1];
    }
  }

  /** A non-empty set whose every node has an edge back into the set holds a cycle. */
  lemma NoSinkCycles<T(!new)>(g: Graph<T>, u: set<T>)
    requires u != {} && u <= g.Keys && forall a :: a in u ==> g[a] * u != {}
    ensures !Acyclic(g)
  {
    var start :| start in u;
    var p := EndlessWalk(g, u, start, |u|);
    Pigeonhole(p, u);
    var i, j :| 0 <= i < j < |p| && p[i] == p[j];
    RepeatIsCycle(g, p, i, j);
  }

  /** In an acyclic graph every non-empty set of nodes has a node with no edge into the set. */
  lemma SinkIn<T(!new)>(g: Graph<T>, u: set<T>)
    requires Acyclic(g) && u != {} && u <= g.Keys
    ensures exists a :: a in u && g[a] * u == {}
  {
    if forall a :: a in u ==> g[a] * u != {} {
      NoSinkCycles(g, u);
    }
  }

  /** rank orders the nodes placed so far, which no edge leaves. */
  ghost predicate Placed<T(!new)>(g: Graph<T>, rank: map<T, nat>) {
    && rank.Keys <= g.Keys
    && (forall a :: a in rank ==> rank[a] < |rank|)
    && (forall a, b :: a in rank && b in g[a] ==> b in rank && rank[b] < rank[a])
  }

  lemma PlaceNext<T(!new)>(g: Graph<T>, rank: map<T, nat>, a: T)
    requires Placed(g, rank) && a in g && a !in rank && g[a] <= rank.Keys
    ensures Placed(g, rank[a := |rank|]) && |rank[a := |rank|]| == |rank| + 1
  {
    assert rank[a := |rank|].Keys == rank.Keys + {a};
    assert |rank[a := |rank|].Keys| == |rank.Keys| + 1;
  }

  lemma {:induction false} RankRest<T(!new)>(g: Graph<T>, rank: map<T, nat>) returns (full: map<T, nat>)
    requires Closed(g) && Acyclic(g) && Placed(g, rank)
    ensures IsRank(g, full)
    decreases |g| - |rank|
  {
    hide Acyclic, IsCycle;
    var rest := g.Keys - rank.Keys;
    SubsetSize(rank.Keys, g.Keys);
    if rest == {} {
      full := rank;
    } else {
      SinkIn(g, rest);
      var a :| a in rest && g[a] * rest == {};
      forall b | b in g[a]
        ensures b in rank
      {
        assert b !in g[a] * rest;
      }
      PlaceNext(g, rank, a);
      SubsetSize(rank.Keys + {a}, g.Keys);
      full := RankRest(g, rank[a := |rank|]);
    }
  }

  lemma AcyclicIsRanked<T(!new)>(g: Graph<T>) returns (rank: map<T, nat>)
    requires Closed(g) && Acyclic(g)
    ensures IsRank(g, rank)
  {
    rank := RankRest(g, map[]);
  }

  lemma ReachesStep<T(!new)>(g: Graph<T>, a: T, b: T, c: T)
    requires a in g && b in g[a] && (b == c || Reaches(g, b, c))
    ensures Reaches(g, a, c)
  {
    if b == c {
      assert IsWalk(g, [a, b]);
    } else {
      var p :| IsWalk(g, p) && |p| >= 2 && p[0] == b && p[|p| - 1] == c;
      assert IsWalk(g, [a] + p);
    }
  }

  lemma ReachesFirst<T(!new)>(g: Graph<T>, a: T, c: T) returns (b: T)
    requires Reaches(g, a, c)
    ensures a in g && b in g[a] && (b == c || Reaches(g, b, c))
  {
    var p :| IsWalk(g, p) && |p| >= 2 && p[0] == a && p[|p| - 1] == c;
    b := p[1];
    assert p[0] in g && p[1] in g[p[0]];
    if |p| > 2 {
      var q := p[1..];
      forall i | 0 <= i < |q| - 1
        ensures q[i] in g && q[i + 1] in g[q[i]]
      {
        assert q[i] == p[i + 1] && q[i + 1] == p[i + 2];
      }
      assert IsWalk(g, q);
    }
  }

  /** In a closed graph only nodes are reached. */
  lemma ReachesNode<T(!new)>(g: Graph<T>, a: T, c: T)
    requires Closed(g) && Reaches(g, a, c)
    ensures a in g && c in g
  {
    var p :| IsWalk(g, p) && |p| >= 2 && p[0] == a && p[|p| - 1] == c;
    var n := |p| - 2;
    assert p[0] in g && p[n] in g && p[n + 1] in g[p[n]];
  }
}
