/**
 * The group tree merger example (examples/nml_group_tree_merger.py): for each top-level group,
 * its trees are merged into one, always attaching the tree with the fewest nodes to the tree
 * holding the node nearest to one of its nodes. Trees are values; the scaled Euclidean distance
 * between two node positions is a parameter.
 */
module TreeMerger {
  import opened Wrappers
  import opened NmlTypes

  // ---------------------------------------------------------------------------------------------
  // find_tress_by_id

  /** The trees whose `groupId` is `groupId`, in their order. */
  function InGroup(trees: seq<Tree>, groupId: int): seq<Tree>
  {
    if trees == [] then []
    else
      var last := trees[|trees| - 1];
      InGroup(trees[..|trees| - 1], groupId) + (if last.groupId == Some(groupId) then [last] else [])
  }

  /** A tree is selected exactly when it is listed and carries the group id. */
  lemma {:induction false} InGroupMembers(trees: seq<Tree>, groupId: int)
    ensures forall t :: t in InGroup(trees, groupId) <==> t in trees && t.groupId == Some(groupId)
  {
    if trees != [] {
      var init := trees[..|trees| - 1];
      InGroupMembers(init, groupId);
      assert trees == init + [trees[|trees| - 1]];
    }
  }

  /** Selection keeps the order: selecting from two lists one after the other is selecting from both. */
  lemma {:induction false} InGroupAppend(a: seq<Tree>, b: seq<Tree>, groupId: int)
    ensures InGroup(a + b, groupId) == InGroup(a, groupId) + InGroup(b, groupId)
    decreases |b|
  {
    if b == [] {
      assert a + b == a;
    } else {
      var init := b[..|b| - 1];
      assert (a + b)[..|a + b| - 1] == a + init;
      InGroupAppend(a, init, groupId);
    }
  }

  /** `find_tress_by_id` (examples/nml_group_tree_merger.py:19-24). */
  method FindTreesById(trees: seq<Tree>, groupId: int) returns (r: seq<Tree>)
    ensures r == InGroup(trees, groupId)
  {
    r := [];
    for k := 0 to |trees|
      invariant r == InGroup(trees[..k], groupId)
    {
      assert trees[..k + 1][..k] == trees[..k];
      if trees[k].groupId == Some(groupId) {
        r := r + [trees[k]];
      }
    }
    assert trees[..|trees|] == trees;
  }

  // ---------------------------------------------------------------------------------------------
  // sorted(trees, key=lambda tree: len(tree.nodes))

  /** The nodes, and the edges, of all trees, tree after tree. */
  function AllNodes(ts: seq<Tree>): seq<Node>
  {
    if ts == [] then [] else ts[0].nodes + AllNodes(ts[1..])
  }

  function AllEdges(ts: seq<Tree>): seq<Edge>
  {
    if ts == [] then [] else ts[0].edges + AllEdges(ts[1..])
  }

  lemma {:induction false} AllAppend(a: seq<Tree>, b: seq<Tree>)
    ensures AllNodes(a + b) == AllNodes(a) + AllNodes(b)
    ensures AllEdges(a + b) == AllEdges(a) + AllEdges(b)
  {
    if a == [] {
      assert a + b == b;
    } else {
      assert (a + b)[1..] == a[1..] + b;
      AllAppend(a[1..], b);
    }
  }

  /** Fewest nodes first. */
  ghost predicate ByNodeCount(ts: seq<Tree>)
  {
    forall a, b :: 0 <= a < b < |ts| ==> |ts[a].nodes| <= |ts[b].nodes|
  }

  /** Puts `t` in front of the first tree that has at least as many nodes. */
  function Insert(t: Tree, s: seq<Tree>): (r: seq<Tree>)
    ensures |r| == |s| + 1
  {
    if s == [] || |t.nodes| <= |s[0].nodes| then [t] + s
    else [s[0]] + Insert(t, s[1..])
  }

  lemma {:induction false} InsertPerm(t: Tree, s: seq<Tree>)
    ensures multiset(Insert(t, s)) == multiset(s) + multiset{t}
  {
    if s != [] && |t.nodes| > |s[0].nodes| {
      InsertPerm(t, s[1..]);
      assert s == [s[0]] + s[1..];
    }
  }

  /** Python's stable `sorted` by node count, as insertion from the back. */
  function SortByNodeCount(ts: seq<Tree>): (r: seq<Tree>)
    ensures |r| == |ts|
  {
    if ts == [] then [] else Insert(ts[0], SortByNodeCount(ts[1..]))
  }

  lemma {:induction false} InsertSorted(t: Tree, s: seq<Tree>)
    requires ByNodeCount(s)
    ensures ByNodeCount(Insert(t, s))
  {
    if s != [] && |t.nodes| > |s[0].nodes| {
      InsertSorted(t, s[1..]);
      InsertPerm(t, s[1..]);
      var rest := Insert(t, s[1..]);
      forall k | 0 <= k < |rest|
        ensures |s[0].nodes| <= |rest[k].nodes|
      {
        assert rest[k] in multiset(rest);
        assert rest[k] == t || rest[k] in multiset(s[1..]);
      }
    }
  }

  lemma {:induction false} InsertContents(t: Tree, s: seq<Tree>)
    ensures multiset(AllNodes(Insert(t, s))) == multiset(t.nodes) + multiset(AllNodes(s))
    ensures multiset(AllEdges(Insert(t, s))) == multiset(t.edges) + multiset(AllEdges(s))
  {
    if s == [] || |t.nodes| <= |s[0].nodes| {
      assert ([t] + s)[1..] == s;
    } else {
      InsertContents(t, s[1..]);
      assert ([s[0]] + Insert(t, s[1..]))[1..] == Insert(t, s[1..]);
    }
  }

  /** The sort orders by node count and keeps every tree. */
  lemma {:induction false} SortKeeps(ts: seq<Tree>)
    ensures ByNodeCount(SortByNodeCount(ts)) && multiset(SortByNodeCount(ts)) == multiset(ts)
  {
    if ts != [] {
      SortKeeps(ts[1..]);
      InsertSorted(ts[0], SortByNodeCount(ts[1..]));
      InsertPerm(ts[0], SortByNodeCount(ts[1..]));
      assert ts == [ts[0]] + ts[1..];
    }
  }

  /** The sorted list holds the same trees, so the same headers and only non-empty trees. */
  lemma SortSameTrees(ts: seq<Tree>)
    ensures Headers(SortByNodeCount(ts)) == Headers(ts)
    ensures (forall k :: 0 <= k < |ts| ==> ts[k].nodes != []) ==>
      forall k :: 0 <= k < |ts| ==> SortByNodeCount(ts)[k].nodes != []
  {
    var sorted := SortByNodeCount(ts);
    SortKeeps(ts);
    assert forall u :: u in sorted <==> u in ts by {
      forall u
        ensures u in sorted <==> u in ts
      {
        assert u in sorted <==> u in multiset(sorted);
      }
    }
    forall k | 0 <= k < |sorted|
      ensures sorted[k] in ts
    {
    }
  }

  /** The sort keeps every node and every edge. */
  lemma {:induction false} SortContents(ts: seq<Tree>)
    ensures multiset(AllNodes(SortByNodeCount(ts))) == multiset(AllNodes(ts))
    ensures multiset(AllEdges(SortByNodeCount(ts))) == multiset(AllEdges(ts))
  {
    if ts != [] {
      SortContents(ts[1..]);
      InsertContents(ts[0], SortByNodeCount(ts[1..]));
    }
  }

  /**
   * The tree merged away is the first of the trees with the fewest nodes: the sort is stable
   * (examples/nml_group_tree_merger.py:39-40).
   */
  lemma {:induction false} SortHead(ts: seq<Tree>) returns (k: nat)
    requires ts != []
    ensures k < |ts| && SortByNodeCount(ts)[0] == ts[k]
    ensures forall m :: 0 <= m < |ts| ==> |ts[k].nodes| <= |ts[m].nodes|
    ensures forall m :: 0 <= m < k ==> |ts[k].nodes| < |ts[m].nodes|
  {
    if |ts| == 1 {
      k := 0;
    } else {
      var k' := SortHead(ts[1..]);
      if |ts[0].nodes| <= |ts[1..][k'].nodes| {
        k := 0;
        SortHeadFirst(ts, k');
      } else {
        k := k' + 1;
        SortHeadLater(ts, k');
      }
    }
  }

  /** The first tree stays in front when no later tree is lighter. */
  lemma SortHeadFirst(ts: seq<Tree>, k': nat)
    requires |ts| >= 2 && k' < |ts| - 1 && SortByNodeCount(ts[1..])[0] == ts[1..][k']
    requires forall m :: 0 <= m < |ts| - 1 ==> |ts[1..][k'].nodes| <= |ts[1..][m].nodes|
    requires |ts[0].nodes| <= |ts[1..][k'].nodes|
    ensures SortByNodeCount(ts)[0] == ts[0]
    ensures forall m :: 0 <= m < |ts| ==> |ts[0].nodes| <= |ts[m].nodes|
  {
    var rest := SortByNodeCount(ts[1..]);
    assert SortByNodeCount(ts) == Insert(ts[0], rest) == [ts[0]] + rest;
    forall m | 1 <= m < |ts|
      ensures |ts[0].nodes| <= |ts[m].nodes|
    {
      assert ts[m] == ts[1..][m - 1];
    }
  }

  /** A strictly lighter later tree moves to the front. */
  lemma SortHeadLater(ts: seq<Tree>, k': nat)
    requires |ts| >= 2 && k' < |ts| - 1 && SortByNodeCount(ts[1..])[0] == ts[1..][k']
    requires forall m :: 0 <= m < |ts| - 1 ==> |ts[1..][k'].nodes| <= |ts[1..][m].nodes|
    requires forall m :: 0 <= m < k' ==> |ts[1..][k'].nodes| < |ts[1..][m].nodes|
    requires |ts[0].nodes| > |ts[1..][k'].nodes|
    ensures SortByNodeCount(ts)[0] == ts[k' + 1]
    ensures forall m :: 0 <= m < |ts| ==> |ts[k' + 1].nodes| <= |ts[m].nodes|
    ensures forall m :: 0 <= m < k' + 1 ==> |ts[k' + 1].nodes| < |ts[m].nodes|
  {
    assert SortByNodeCount(ts) == Insert(ts[0], SortByNodeCount(ts[1..]));
    forall m | 1 <= m < |ts|
      ensures ts[m] == ts[1..][m - 1]
    {
    }
  }

  // ---------------------------------------------------------------------------------------------
  // The nearest pair of nodes (examples/nml_group_tree_merger.py:41-57)

  /** `dist(node_coordinates_from_current_tree, current_node_coordinates)` */
  function Row(ns: seq<Node>, p: Vec3, dist: (Vec3, Vec3) -> real): (r: seq<real>)
    ensures |r| == |ns| && forall k :: 0 <= k < |ns| ==> r[k] == dist(ns[k].position, p)
  {
    seq(|ns|, k requires 0 <= k < |ns| => dist(ns[k].position, p))
  }

  /** `np.argmin`: the first index of a smallest value. */
  function ArgMin(xs: seq<real>): (r: nat)
    requires xs != []
    ensures r < |xs| && (forall k :: 0 <= k < |xs| ==> xs[r] <= xs[k]) && (forall k :: 0 <= k < r ==> xs[r] < xs[k])
  {
    if |xs| == 1 then 0
    else
      var init := xs[..|xs| - 1];
      var m := ArgMin(init);
      assert forall k :: 0 <= k < |init| ==> init[k] == xs[k];
      if xs[|xs| - 1] < xs[m] then |xs| - 1 else m
  }

  /** The distance between node `j` of tree `t` and node `i` of the first tree. */
  function Dist(trees: seq<Tree>, dist: (Vec3, Vec3) -> real, t: int, i: int, j: int): real
    requires 0 <= t < |trees| && trees != [] && 0 <= i < |trees[0].nodes| && 0 <= j < |trees[t].nodes|
  {
    dist(trees[t].nodes[j].position, trees[0].nodes[i].position)
  }

  /** Node `i` of the first tree, node `j` of tree `t`. */
  predicate Pair(trees: seq<Tree>, t: int, i: int, j: int)
  {
    1 <= t < |trees| && 0 <= i < |trees[0].nodes| && 0 <= j < |trees[t].nodes|
  }

  /** Tree `t2`, node `i2` of the first tree, comes before tree `t1`, node `i1` in the scan. */
  predicate Earlier(t2: int, i2: int, t1: int, i1: int)
  {
    t2 < t1 || (t2 == t1 && i2 < i1)
  }

  /**
   * `(t, i, j)` is the pair the scan keeps when it has looked at every node of the first tree
   * against every tree before `c`, and against tree `c` for the nodes before `p`: a nearest pair
   * among those, with any pair seen earlier strictly farther, and `j` the first nearest node.
   */
  ghost predicate Nearest(trees: seq<Tree>, dist: (Vec3, Vec3) -> real, c: int, p: int, t: int, i: int, j: int)
  {
    && Pair(trees, t, i, j) && Earlier(t, i, c, p)
    && (forall t', i', j' :: Pair(trees, t', i', j') && Earlier(t', i', c, p) ==>
          Dist(trees, dist, t, i, j) <= Dist(trees, dist, t', i', j'))
    && (forall t', i', j' :: Pair(trees, t', i', j') && Earlier(t', i', t, i) ==>
          Dist(trees, dist, t, i, j) < Dist(trees, dist, t', i', j'))
    && (forall j' :: 0 <= j' < j ==> Dist(trees, dist, t, i, j) < Dist(trees, dist, t, i, j'))
  }

  /** One node `p` of the first tree against tree `c`: the kept pair moves only on a strictly smaller distance. */
  lemma NearestStep(trees: seq<Tree>, dist: (Vec3, Vec3) -> real, c: nat, p: nat,
                    found: bool, t: int, i: int, j: int, k: nat)
    requires 1 <= c < |trees| && p < |trees[0].nodes| && trees[c].nodes != []
    requires found ==> Nearest(trees, dist, c, p, t, i, j)
    requires !found ==> c == 1 && p == 0
    requires k == ArgMin(Row(trees[c].nodes, trees[0].nodes[p].position, dist))
    ensures !found || Dist(trees, dist, c, p, k) < Dist(trees, dist, t, i, j) ==> Nearest(trees, dist, c, p + 1, c, p, k)
    ensures found && Dist(trees, dist, c, p, k) >= Dist(trees, dist, t, i, j) ==> Nearest(trees, dist, c, p + 1, t, i, j)
  {
    var row := Row(trees[c].nodes, trees[0].nodes[p].position, dist);
    assert forall j' :: 0 <= j' < |trees[c].nodes| ==> row[j'] == Dist(trees, dist, c, p, j');
  }

  /** Having seen every node of the first tree against tree `c` is having seen nothing of tree `c + 1`. */
  lemma NearestNext(trees: seq<Tree>, dist: (Vec3, Vec3) -> real, c: nat, t: int, i: int, j: int)
    requires trees != [] && Nearest(trees, dist, c, |trees[0].nodes|, t, i, j)
    ensures Nearest(trees, dist, c + 1, 0, t, i, j)
  {
  }

  /**
   * The search at examples/nml_group_tree_merger.py:41-57: the nearest pair between a node of the
   * first tree and a node of any other tree, the first such pair in scan order.
   */
  method FindNearest(trees: seq<Tree>, dist: (Vec3, Vec3) -> real) returns (t: nat, i: nat, j: nat)
    requires |trees| >= 2 && forall k :: 0 <= k < |trees| ==> trees[k].nodes != []
    ensures Nearest(trees, dist, |trees|, 0, t, i, j)
  {
    var merging := trees[0];
    var found := false;
    var best: real := 0.0;
    t, i, j := 0, 0, 0;
    for c := 1 to |trees|
      invariant found <==> c > 1
      invariant found ==> Nearest(trees, dist, c, 0, t, i, j) && best == Dist(trees, dist, t, i, j)
    {
      var nodes := trees[c].nodes;
      for p := 0 to |merging.nodes|
        invariant found <==> c > 1 || p > 0
        invariant found ==> Nearest(trees, dist, c, p, t, i, j) && best == Dist(trees, dist, t, i, j)
      {
        var distances := Row(nodes, merging.nodes[p].position, dist);
        var k := ArgMin(distances);
        NearestStep(trees, dist, c, p, found, t, i, j, k);
        if !found || distances[k] < best {
          t, i, j, best := c, p, k, distances[k];
          found := true;
        }
      }
      NearestNext(trees, dist, c, t, i, j);
    }
  }

  // ---------------------------------------------------------------------------------------------
  // merge_trees_to_one_tree

  /** A tree without its nodes and edges: id, color, name and group. */
  function Header(t: Tree): Tree
  {
    t.(nodes := [], edges := [])
  }

  function Headers(ts: seq<Tree>): set<Tree>
  {
    set t | t in ts :: Header(t)
  }

  /**
   * Lines 59-65: the first tree's nodes and edges are appended to tree `t`, an edge joins node `i`
   * of the first tree to node `j` of tree `t`, and the first tree is deleted.
   */
  function MergeFirst(trees: seq<Tree>, t: int, i: int, j: int): seq<Tree>
    requires Pair(trees, t, i, j)
  {
    var merging, target := trees[0], trees[t];
    var nodes := target.nodes + merging.nodes;
    var merged := target.(nodes := nodes, edges := target.edges + merging.edges + [Edge(merging.nodes[i].id, nodes[j].id)]);
    trees[1..t] + [merged] + trees[t + 1..]
  }

  /**
   * One merge removes one tree, keeps every node and edge and adds exactly the one bridging edge
   * (examples/nml_group_tree_merger.py:59-65).
   */
  lemma MergeFirstKeeps(trees: seq<Tree>, t: int, i: int, j: int)
    requires Pair(trees, t, i, j)
    ensures |MergeFirst(trees, t, i, j)| == |trees| - 1
    ensures multiset(AllNodes(MergeFirst(trees, t, i, j))) == multiset(AllNodes(trees))
    ensures multiset(AllEdges(MergeFirst(trees, t, i, j))) ==
            multiset(AllEdges(trees)) + multiset{Edge(trees[0].nodes[i].id, trees[t].nodes[j].id)}
  {
    var r := MergeFirst(trees, t, i, j);
    var merging, target := trees[0], trees[t];
    var merged := r[t - 1];
    var before, after := trees[1..t], trees[t + 1..];
    assert r == before + [merged] + after;
    assert trees[1..] == before + [target] + after;
    AllAppend(before + [merged], after);
    AllAppend(before, [merged]);
    AllAppend(before + [target], after);
    AllAppend(before, [target]);
    assert AllNodes([merged]) == merged.nodes && AllEdges([merged]) == merged.edges by {
      assert [merged][1..] == [];
    }
    assert AllNodes([target]) == target.nodes && AllEdges([target]) == target.edges by {
      assert [target][1..] == [];
    }
    assert (target.nodes + merging.nodes)[j] == target.nodes[j];
  }

  /**
   * After a merge every tree still has a node, and carries the id, color, name and group of a tree
   * that was there before: the merged tree keeps those of the tree it was merged into.
   */
  lemma MergeFirstHeaders(trees: seq<Tree>, t: int, i: int, j: int)
    requires Pair(trees, t, i, j) && forall k :: 0 <= k < |trees| ==> trees[k].nodes != []
    ensures Headers(MergeFirst(trees, t, i, j)) <= Headers(trees)
    ensures forall k :: 0 <= k < |MergeFirst(trees, t, i, j)| ==> MergeFirst(trees, t, i, j)[k].nodes != []
  {
    var r := MergeFirst(trees, t, i, j);
    var merged := r[t - 1];
    forall h | h in Headers(r)
      ensures h in Headers(trees)
    {
      var u :| u in r && h == Header(u);
      if u == merged {
        assert Header(merged) == Header(trees[t]);
      } else {
        assert u in trees[1..t] || u in trees[t + 1..];
        assert u in trees;
      }
    }
    forall k | 0 <= k < |r|
      ensures r[k].nodes != []
    {
      if k != t - 1 {
        assert r[k] == trees[k + 1];
      }
    }
  }

  /**
   * Two or more trees of which one is empty cannot be merged: the sort puts the empty tree first,
   * the scan at examples/nml_group_tree_merger.py:49 runs over none of its nodes, and line 59 then
   * fails on `min_distance_tree`, which is still the int 0.
   */
  predicate MergeFails(ts: seq<Tree>)
  {
    |ts| >= 2 && exists k :: 0 <= k < |ts| && ts[k].nodes == []
  }

  /**
   * One pass of the loop at examples/nml_group_tree_merger.py:37-65: sort, find the nearest pair,
   * merge the smallest tree away. It fails exactly when a tree is empty; otherwise the result is
   * the first tree of the sorted list merged into tree `t` along the nearest pair `(i, j)`, with
   * one tree fewer, every node kept and exactly the one bridging edge added.
   */
  method MergeSmallest(trees: seq<Tree>, dist: (Vec3, Vec3) -> real)
    returns (r: Option<seq<Tree>>, t: nat, i: nat, j: nat)
    requires |trees| >= 2
    ensures r.None? <==> MergeFails(trees)
    ensures r.Some? ==>
              && Nearest(SortByNodeCount(trees), dist, |trees|, 0, t, i, j)
              && r.value == MergeFirst(SortByNodeCount(trees), t, i, j)
    ensures r.Some? ==> |r.value| == |trees| - 1 && forall k :: 0 <= k < |r.value| ==> r.value[k].nodes != []
    ensures r.Some? ==> multiset(AllNodes(r.value)) == multiset(AllNodes(trees))
    ensures r.Some? ==>
              multiset(AllEdges(r.value)) == multiset(AllEdges(trees)) +
                multiset{Edge(SortByNodeCount(trees)[0].nodes[i].id, SortByNodeCount(trees)[t].nodes[j].id)}
    ensures r.Some? ==> Headers(r.value) <= Headers(trees)
  {
    var sorted := SortByNodeCount(trees);
    ghost var first := SortHead(trees);
    if sorted[0].nodes == [] {
      assert trees[first].nodes == [];
      return None, 0, 0, 0;
    }
    assert forall k :: 0 <= k < |trees| ==> trees[k].nodes != [] by {
      forall k | 0 <= k < |trees|
        ensures trees[k].nodes != []
      {
        assert |trees[first].nodes| <= |trees[k].nodes|;
      }
    }
    SortSameTrees(trees);
    SortContents(trees);
    t, i, j := FindNearest(sorted, dist);
    MergeFirstKeeps(sorted, t, i, j);
    MergeFirstHeaders(sorted, t, i, j);
    r := Some(MergeFirst(sorted, t, i, j));
  }

  /**
   * `merge_trees_to_one_tree` (examples/nml_group_tree_merger.py:35-67): a list of at most one
   * tree comes back as it is; two or more trees fail exactly when one of them is empty, and are
   * otherwise merged into one. Every node is kept, every edge is kept and one edge is added per
   * merge, and the tree left carries the id, color, name and group of one of the input trees.
   */
  method MergeTreesToOneTree(trees: seq<Tree>, dist: (Vec3, Vec3) -> real) returns (r: Option<seq<Tree>>)
    ensures r.None? <==> MergeFails(trees)
    ensures r.Some? && |trees| <= 1 ==> r.value == trees
    ensures r.Some? ==> |r.value| == if trees == [] then 0 else 1
    ensures r.Some? ==> multiset(AllNodes(r.value)) == multiset(AllNodes(trees))
    ensures r.Some? ==> multiset(AllEdges(trees)) <= multiset(AllEdges(r.value))
    ensures r.Some? ==> |AllEdges(r.value)| + |r.value| == |AllEdges(trees)| + |trees|
    ensures r.Some? ==> Headers(r.value) <= Headers(trees)
  {
    var ts := trees;
    while |ts| > 1
      invariant |ts| <= |trees| && (trees != [] ==> ts != [])
      invariant |trees| <= 1 ==> ts == trees
      invariant ts != trees ==> !MergeFails(trees) && forall k :: 0 <= k < |ts| ==> ts[k].nodes != []
      invariant multiset(AllNodes(ts)) == multiset(AllNodes(trees))
      invariant multiset(AllEdges(trees)) <= multiset(AllEdges(ts))
      invariant |AllEdges(ts)| + |ts| == |AllEdges(trees)| + |trees|
      invariant Headers(ts) <= Headers(trees)
      decreases |ts|
    {
      var next, t, i, j := MergeSmallest(ts, dist);
      if next.None? {
        return None;
      }
      ts := next.value;
    }
    r := Some(ts);
  }

  // ---------------------------------------------------------------------------------------------
  // create_merged_nml

  /** `t` is the tree the trees of group `groupId` merge into. */
  predicate MergedFrom(t: Tree, trees: seq<Tree>, groupId: int)
  {
    t.groupId == Some(groupId) && multiset(t.nodes) == multiset(AllNodes(InGroup(trees, groupId)))
  }

  /** The one tree a group's trees merge into keeps the group's id and all of their nodes. */
  lemma MergedGroup(trees: seq<Tree>, one: seq<Tree>, groupId: int)
    requires |one| == 1 && multiset(AllNodes(one)) == multiset(AllNodes(InGroup(trees, groupId)))
    requires Headers(one) <= Headers(InGroup(trees, groupId))
    ensures MergedFrom(one[0], trees, groupId)
  {
    InGroupMembers(trees, groupId);
    assert Header(one[0]) in Headers(one);
    assert AllNodes(one) == one[0].nodes + AllNodes([]) by {
      assert one[1..] == [];
    }
  }

  /** The trees of group `groupId` merge into one: there is one, or several and none is empty. */
  predicate GroupMerges(trees: seq<Tree>, groupId: int)
  {
    InGroup(trees, groupId) != [] && !MergeFails(InGroup(trees, groupId))
  }

  /**
   * `create_merged_nml` (examples/nml_group_tree_merger.py:70-81): one merged tree per top-level
   * group, in group order, everything else carried over. It fails exactly when a group has no
   * trees, so that `[0]` fails, or has two or more trees of which one is empty.
   */
  method CreateMergedNml(nml: Nml, dist: (Vec3, Vec3) -> real) returns (r: Option<Nml>)
    ensures r.None? <==> exists g :: g in nml.groups && !GroupMerges(nml.trees, g.id)
    ensures r.Some? ==>
              && r.value.parameters == nml.parameters && r.value.branchpoints == nml.branchpoints
              && r.value.comments == nml.comments && r.value.groups == nml.groups
              && |r.value.trees| == |nml.groups|
              && forall k :: 0 <= k < |nml.groups| ==>
                   && r.value.trees[k].groupId == Some(nml.groups[k].id)
                   && multiset(r.value.trees[k].nodes) == multiset(AllNodes(InGroup(nml.trees, nml.groups[k].id)))
  {
    var merged: seq<Tree> := [];
    for k := 0 to |nml.groups|
      invariant |merged| == k
      invariant forall m :: 0 <= m < k ==> GroupMerges(nml.trees, nml.groups[m].id)
      invariant forall m :: 0 <= m < k ==> MergedFrom(merged[m], nml.trees, nml.groups[m].id)
    {
      var groupId := nml.groups[k].id;
      var members := FindTreesById(nml.trees, groupId);
      var one := MergeTreesToOneTree(members, dist);
      if members == [] || one.None? {
        assert !GroupMerges(nml.trees, groupId) && nml.groups[k] in nml.groups;
        return None;
      }
      assert GroupMerges(nml.trees, groupId);
      MergedGroup(nml.trees, one.value, groupId);
      ghost var prev := merged;
      merged := merged + [one.value[0]];
      forall m | 0 <= m < k
        ensures merged[m] == prev[m]
      {
      }
    }
    assert forall g :: g in nml.groups ==> GroupMerges(nml.trees, g.id) by {
      forall g | g in nml.groups
        ensures GroupMerges(nml.trees, g.id)
      {
        var m :| 0 <= m < |nml.groups| && nml.groups[m] == g;
      }
    }
    r := Some(Nml(nml.parameters, merged, nml.branchpoints, nml.comments, nml.groups));
  }
}
