// Finite directed graphs over unit ids: paths, cycles, and layering by longest chain.

module Graphs {
  import opened Basics

  // Each node maps to the ids it links to; a linked id need not be a node itself.
  type Graph = map<UnitId, set<UnitId>>

  // A declared dependency: `to` waits for `from`.
  datatype Edge = Edge(from: UnitId, to: UnitId)

  ghost predicate IsPath(g: Graph, p: seq<UnitId>) {
    && |p| > 0
    && forall i :: 0 <= i < |p| - 1 ==> p[i] in g && p[i + 1] in g[p[i]]
  }

  ghost predicate IsClosedPath(g: Graph, p: seq<UnitId>) {
    IsPath(g, p) && |p| >= 2 && p[0] == p[|p| - 1]
  }

  // The graph has a nonempty closed path.
  ghost predicate Cyclic(g: Graph) {
    exists p :: IsClosedPath(g, p)
  }

  // Every linked id is a node.
  ghost predicate Closed(g: Graph) {
    forall v, w :: v in g && w in g[v] ==> w in g
  }

  ghost predicate Repeats(p: seq<UnitId>) {
    exists i, j :: 0 <= i < j < |p| && p[i] == p[j]
  }

  // Following links from v, one can walk into a cycle or out of the graph.
  ghost predicate Doomed(g: Graph, v: UnitId) {
    exists p :: IsPath(g, p) && p[0] == v && (p[|p| - 1] !in g || Repeats(p))
  }

  // Level k holds the nodes from which every walk visits at most k nodes.
  ghost function Level(g: Graph, k: nat): set<UnitId> {
    if k == 0 then {} else set v | v in g.Keys && g[v] <= Level(g, k - 1)
  }

  lemma {:induction false} LevelMonotone(g: Graph, k: nat)
    ensures Level(g, k) <= Level(g, k + 1) <= g.Keys
  {
    if k > 0 {
      LevelMonotone(g, k - 1);
    }
  }

  lemma {:induction false} LevelStable(g: Graph, j: nat, k: nat)
    requires j <= k
    requires Level(g, j + 1) == Level(g, j)
    ensures Level(g, k) == Level(g, j)
  {
    if j < k {
      LevelStable(g, j, k - 1);
      assert Level(g, k) == set v | v in g.Keys && g[v] <= Level(g, j);
    }
  }

  lemma {:induction false} LevelGrows(g: Graph, k: nat)
    ensures Level(g, k + 1) == Level(g, k) || |Level(g, k + 1)| >= k + 1
  {
    LevelMonotone(g, k);
    SubsetCardinality(Level(g, k), Level(g, k + 1));
    if k > 0 {
      LevelGrows(g, k - 1);
      if Level(g, k) == Level(g, k - 1) {
        LevelStable(g, k - 1, k + 1);
      }
    }
  }

  // The layering settles after at most |g| rounds.
  lemma LevelSettles(g: Graph)
    ensures Level(g, |g| + 1) == Level(g, |g|)
  {
    LevelGrows(g, |g|);
    LevelMonotone(g, |g|);
    SubsetCardinality(Level(g, |g| + 1), g.Keys);
  }

  ghost function LeastLevel(g: Graph, v: UnitId, k: nat): (r: nat)
    requires v in Level(g, k)
    ensures 0 < r <= k && v in Level(g, r) && v !in Level(g, r - 1)
  {
    if v in Level(g, k - 1) then LeastLevel(g, v, k - 1) else k
  }

  // The number of nodes on the longest walk from v, when that is bounded.
  ghost function Rank(g: Graph, v: UnitId): (r: nat)
    ensures v in Level(g, |g|) ==> 0 < r <= |g| && v in Level(g, r) && v !in Level(g, r - 1)
  {
    if v in Level(g, |g|) then LeastLevel(g, v, |g|) else |g| + 1
  }

  lemma {:induction false} LevelUpTo(g: Graph, j: nat, k: nat)
    requires j <= k
    ensures Level(g, j) <= Level(g, k)
  {
    if j < k {
      LevelUpTo(g, j, k - 1);
      LevelMonotone(g, k - 1);
    }
  }

  lemma LevelRank(g: Graph, v: UnitId, k: nat)
    requires v in Level(g, k)
    ensures v in Level(g, |g|) && Rank(g, v) <= k
  {
    if k <= |g| {
      LevelUpTo(g, k, |g|);
    } else {
      LevelSettles(g);
      LevelStable(g, |g|, k);
    }
    if k < Rank(g, v) {
      LevelUpTo(g, k, Rank(g, v) - 1);
      assert false;
    }
  }

  lemma RankDescends(g: Graph, v: UnitId, w: UnitId)
    requires v in Level(g, |g|)
    requires w in g[v]
    ensures w in Level(g, |g|) && Rank(g, w) < Rank(g, v)
  {
    LevelRank(g, w, Rank(g, v) - 1);
  }

  // A walk from a layered node strictly descends in rank and never leaves the layering.
  lemma {:induction false} WalkDescends(g: Graph, p: seq<UnitId>, j: nat)
    requires IsPath(g, p)
    requires p[0] in Level(g, |g|)
    requires j < |p|
    ensures p[j] in Level(g, |g|)
    ensures Rank(g, p[j]) + j <= Rank(g, p[0])
  {
    if j > 0 {
      WalkDescends(g, p, j - 1);
      RankDescends(g, p[j - 1], p[j]);
    }
  }

  lemma PathSuffix(g: Graph, p: seq<UnitId>, i: nat)
    requires IsPath(g, p) && i < |p|
    ensures IsPath(g, p[i..])
  {
    var q := p[i..];
    forall j | 0 <= j < |q| - 1
      ensures q[j] in g && q[j + 1] in g[q[j]]
    {
      assert q[j] == p[i + j] && q[j + 1] == p[i + j + 1];
    }
  }

  lemma PathPrefix(g: Graph, p: seq<UnitId>, n: nat)
    requires IsPath(g, p) && 0 < n <= |p|
    ensures IsPath(g, p[..n])
  {
  }

  lemma LayeredNotDoomed(g: Graph, v: UnitId)
    requires v in Level(g, |g|)
    ensures !Doomed(g, v)
  {
    forall p | IsPath(g, p) && p[0] == v
      ensures p[|p| - 1] in g && !Repeats(p)
    {
      WalkDescends(g, p, |p| - 1);
      LevelMonotone(g, |g|);
      forall i, j | 0 <= i < j < |p|
        ensures p[i] != p[j]
      {
        PathSuffix(g, p, i);
        WalkDescends(g, p, i);
        WalkDescends(g, p[i..], j - i);
      }
    }
  }

  // From a node outside the settled layering one can keep walking outside it, or leave the graph.
  lemma {:induction false} LongWalk(g: Graph, v: UnitId, n: nat) returns (p: seq<UnitId>)
    requires v in g && v !in Level(g, |g|)
    ensures IsPath(g, p) && p[0] == v
    ensures p[|p| - 1] !in g || (|p| == n + 1 && Elements(p) <= g.Keys)
    decreases n
  {
    if n == 0 {
      p := [v];
    } else {
      LevelSettles(g);
      assert !(g[v] <= Level(g, |g|));
      var w :| w in g[v] && w !in Level(g, |g|);
      if w !in g {
        p := [v, w];
      } else {
        var q := LongWalk(g, w, n - 1);
        p := [v] + q;
        assert p[|p| - 1] == q[|q| - 1];
      }
    }
  }

  lemma UnlayeredIsDoomed(g: Graph, v: UnitId)
    requires v in g && v !in Level(g, |g|)
    ensures Doomed(g, v)
  {
    var p := LongWalk(g, v, |g|);
    if p[|p| - 1] in g {
      Pigeonhole(p, g.Keys);
    }
  }

  lemma RepeatIsCycle(g: Graph, p: seq<UnitId>)
    requires IsPath(g, p) && Repeats(p)
    ensures Cyclic(g)
  {
    var i, j :| 0 <= i < j < |p| && p[i] == p[j];
    PathPrefix(g, p, j + 1);
    PathSuffix(g, p[..j + 1], i);
    var q := p[..j + 1][i..];
    assert IsClosedPath(g, q);
  }

  lemma {:induction false} ClosedStaysInside(g: Graph, p: seq<UnitId>, j: nat)
    requires Closed(g) && IsPath(g, p) && p[0] in g && j < |p|
    ensures p[j] in g
  {
    if j > 0 {
      ClosedStaysInside(g, p, j - 1);
    }
  }

  // In a closed acyclic graph the layering covers every node, so links descend in rank.
  lemma AcyclicIsLayered(g: Graph)
    requires Closed(g) && !Cyclic(g)
    ensures Level(g, |g|) == g.Keys
    ensures forall v, w :: v in g && w in g[v] ==> w in g && Rank(g, w) < Rank(g, v)
  {
    LevelMonotone(g, |g|);
    forall v | v in g
      ensures v in Level(g, |g|)
    {
      if v !in Level(g, |g|) {
        UnlayeredIsDoomed(g, v);
        var p :| IsPath(g, p) && p[0] == v && (p[|p| - 1] !in g || Repeats(p));
        ClosedStaysInside(g, p, |p| - 1);
        RepeatIsCycle(g, p);
        assert false;
      }
    }
    forall v, w | v in g && w in g[v]
      ensures w in g && Rank(g, w) < Rank(g, v)
    {
      RankDescends(g, v, w);
    }
  }

  // Rank is the length of a longest walk, not merely an upper bound.
  lemma {:induction false} RankIsLongestWalk(g: Graph, v: UnitId) returns (p: seq<UnitId>)
    requires v in Level(g, |g|)
    ensures IsPath(g, p) && p[0] == v && |p| == Rank(g, v)
    ensures forall q :: IsPath(g, q) && q[0] == v ==> |q| <= Rank(g, v)
    decreases Rank(g, v)
  {
    var k := Rank(g, v);
    if k == 1 {
      p := [v];
    } else {
      assert !(g[v] <= Level(g, k - 2));
      var w :| w in g[v] && w !in Level(g, k - 2);
      RankDescends(g, v, w);
      if Rank(g, w) < k - 1 {
        LevelUpTo(g, Rank(g, w), k - 2);
        assert false;
      }
      var q := RankIsLongestWalk(g, w);
      p := [v] + q;
    }
    forall q | IsPath(g, q) && q[0] == v
      ensures |q| <= k
    {
      WalkDescends(g, q, |q| - 1);
    }
  }

  // Reversal: a graph and its converse have the same cycles.
  ghost predicate Converse(g: Graph, h: Graph) {
    g.Keys == h.Keys && forall v, w :: v in g && w in g ==> (w in g[v] <==> v in h[w])
  }

  lemma ConverseCycle(g: Graph, h: Graph)
    requires Converse(g, h) && Closed(g) && Cyclic(g)
    ensures Cyclic(h)
  {
    var p :| IsClosedPath(g, p);
    var n := |p|;
    var q := seq(n, i requires 0 <= i < n => p[n - 1 - i]);
    forall i | 0 <= i < n - 1
      ensures q[i] in h && q[i + 1] in h[q[i]]
    {
      assert p[n - 2 - i] in g && p[n - 2 - i + 1] in g[p[n - 2 - i]];
      ClosedStaysInside(g, p, n - 1 - i);
    }
    assert IsClosedPath(h, q);
  }
}
