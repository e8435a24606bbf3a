/**
 * The id counter of `ensure_max_edge_length` (wknml/nml_utils.py:17-21, 49-56): the largest node id
 * over all trees of all groups, then one counter threaded through every tree in turn.
 */
module IdThreading {
  import opened Graphs
  import opened MaxEdgeLength

  /** `np.array(list(tree.nodes)).max()`: numpy refuses an empty array. */
  function MaxOf(ns: seq<int>): (r: int)
    requires ns != []
    ensures r in ns && forall x :: x in ns ==> x <= r
  {
    if |ns| == 1 then ns[0]
    else
      var m := MaxOf(ns[1..]);
      assert forall x :: x in ns <==> x == ns[0] || x in ns[1..] by {
        assert ns == [ns[0]] + ns[1..];
      }
      if ns[0] > m then ns[0] else m
  }

  /** Every tree has at least one node. */
  predicate NonEmpty(vs: seq<GraphValue>)
  {
    forall k :: 0 <= k < |vs| ==> vs[k].nodes != []
  }

  /** The running maximum over the trees, starting from 0. */
  function MaxAll(vs: seq<GraphValue>): (r: int)
    requires NonEmpty(vs)
    ensures r >= 0
  {
    if vs == [] then 0
    else
      var init, v := vs[..|vs| - 1], vs[|vs| - 1];
      assert NonEmpty(init) by {
        assert forall k :: 0 <= k < |init| ==> init[k] == vs[k];
      }
      var m, top := MaxAll(init), MaxOf(v.nodes);
      if top > m then top else m
  }

  /** The maximum bounds every id of every tree, and it is one of them unless it is the starting 0. */
  lemma {:induction false} MaxAllIsMax(vs: seq<GraphValue>)
    requires NonEmpty(vs)
    ensures forall k, x :: 0 <= k < |vs| && x in vs[k].nodes ==> x <= MaxAll(vs)
    ensures MaxAll(vs) == 0 || exists k :: 0 <= k < |vs| && MaxAll(vs) in vs[k].nodes
  {
    if vs != [] {
      var init, v := vs[..|vs| - 1], vs[|vs| - 1];
      assert forall k :: 0 <= k < |init| ==> init[k] == vs[k];
      MaxAllIsMax(init);
      var m, top := MaxAll(init), MaxOf(v.nodes);
      if MaxAll(vs) != 0 && MaxAll(vs) == m {
        var k :| 0 <= k < |init| && m in init[k].nodes;
        assert MaxAll(vs) in vs[k].nodes;
      }
    }
  }

  /** The trees of every group, group after group. */
  function Flatten(groups: seq<seq<Graph>>): seq<Graph>
  {
    if groups == [] then [] else Flatten(groups[..|groups| - 1]) + groups[|groups| - 1]
  }

  lemma FlattenStep(groups: seq<seq<Graph>>, i: nat)
    requires i < |groups|
    ensures Flatten(groups[..i + 1]) == Flatten(groups[..i]) + groups[i]
  {
    assert groups[..i + 1][..i] == groups[..i];
  }

  /** The trees of the first `i` groups come first. */
  lemma {:induction false} FlattenPrefix(groups: seq<seq<Graph>>, i: nat)
    requires i <= |groups|
    ensures Flatten(groups[..i]) <= Flatten(groups)
    decreases |groups| - i
  {
    if i < |groups| {
      FlattenStep(groups, i);
      FlattenPrefix(groups, i + 1);
    } else {
      assert groups[..i] == groups;
    }
  }

  /** Tree `j` of group `i` sits after the trees of the groups before it. */
  lemma FlattenAt(groups: seq<seq<Graph>>, i: nat, j: nat)
    requires i < |groups| && j < |groups[i]|
    ensures |Flatten(groups[..i])| + j < |Flatten(groups)|
    ensures Flatten(groups)[|Flatten(groups[..i])| + j] == groups[i][j]
  {
    FlattenStep(groups, i);
    FlattenPrefix(groups, i + 1);
    var a := Flatten(groups[..i]);
    assert (a + groups[i])[|a| + j] == groups[i][j];
  }

  lemma TakeSnoc<T>(s: seq<T>, n: nat)
    requires n < |s|
    ensures s[..n + 1] == s[..n] + [s[n]]
  {
  }

  /** The trees as values. */
  function Values(gs: seq<Graph>): (vs: seq<GraphValue>)
    reads set g | g in gs
    ensures |vs| == |gs| && forall k :: 0 <= k < |gs| ==> vs[k] == gs[k].Value()
  {
    seq(|gs|, k requires 0 <= k < |gs| reads set g | g in gs => gs[k].Value())
  }

  /** Each tree has attributes at the ends of its edges. */
  predicate AllPositioned(vs: seq<GraphValue>)
  {
    forall k :: 0 <= k < |vs| ==> Positioned(vs[k].edges, vs[k].data)
  }

  /** The counter's value once the first `k` trees have been split, starting from `id`. */
  function StartAt(vs: seq<GraphValue>, maxLength: int, dist: (Vec, Vec) -> real, id: int, k: nat): int
    requires maxLength != 0 && AllPositioned(vs) && k <= |vs|
  {
    if k == 0 then id else TreePlan(vs[k - 1], maxLength, dist, StartAt(vs, maxLength, dist, id, k - 1)).next
  }

  /** The id each tree starts from when the counter runs through the trees from `id`; last, the final counter. */
  function Starts(vs: seq<GraphValue>, maxLength: int, dist: (Vec, Vec) -> real, id: int): (r: seq<int>)
    requires maxLength != 0 && AllPositioned(vs)
    ensures |r| == |vs| + 1 && r[0] == id
    ensures forall k :: 0 <= k < |vs| ==> r[k + 1] == TreePlan(vs[k], maxLength, dist, r[k]).next
  {
    seq(|vs| + 1, k requires 0 <= k <= |vs| => StartAt(vs, maxLength, dist, id, k))
  }

  /**
   * When the counter starts above every id, each tree's padding ids are fresh for that tree, and
   * the ranges handed to successive trees follow each other without overlapping
   * (wknml/nml_utils.py:17-21).
   */
  lemma {:induction false} IdsNeverCollide(vs: seq<GraphValue>, maxLength: int, dist: (Vec, Vec) -> real, id: int)
    requires maxLength != 0 && AllPositioned(vs)
    requires forall k :: 0 <= k < |vs| ==> Fresh(vs[k], id)
    ensures forall k :: 0 <= k < |vs| ==> Fresh(vs[k], Starts(vs, maxLength, dist, id)[k])
    ensures forall a, b :: 0 <= a <= b <= |vs| ==> id <= Starts(vs, maxLength, dist, id)[a] <= Starts(vs, maxLength, dist, id)[b]
  {
    var r := Starts(vs, maxLength, dist, id);
    forall k | 0 <= k < |vs|
      ensures r[k] <= r[k + 1]
    {
      assert Consecutive(TreePlan(vs[k], maxLength, dist, r[k]), r[k]);
    }
    forall a, b | 0 <= a <= b <= |vs|
      ensures id <= r[a] <= r[b]
    {
      Monotone(r, 0, a);
      Monotone(r, a, b);
    }
  }

  /**
   * Started one above the largest id, the counter hands every tree ids it does not have yet
   * (wknml/nml_utils.py:17-21 with 49-56).
   */
  lemma ThreadedIdsFresh(vs: seq<GraphValue>, maxLength: int, dist: (Vec, Vec) -> real, id: int)
    requires maxLength != 0 && NonEmpty(vs) && AllPositioned(vs) && id == MaxAll(vs) + 1
    ensures forall k :: 0 <= k < |vs| ==> Fresh(vs[k], Starts(vs, maxLength, dist, id)[k])
  {
    MaxAllIsMax(vs);
    forall k | 0 <= k < |vs|
      ensures Fresh(vs[k], id)
    {
      forall x | x in vs[k].nodes
        ensures x < id
      {
      }
    }
    IdsNeverCollide(vs, maxLength, dist, id);
  }

  lemma {:induction false} Monotone(r: seq<int>, a: nat, b: nat)
    requires a <= b < |r| && forall k :: 0 <= k < |r| - 1 ==> r[k] <= r[k + 1]
    ensures r[a] <= r[b]
    decreases b - a
  {
    if a < b {
      Monotone(r, a + 1, b);
    }
  }

  lemma MaxAllSnoc(vs: seq<GraphValue>, v: GraphValue)
    requires NonEmpty(vs) && v.nodes != []
    ensures NonEmpty(vs + [v])
    ensures MaxAll(vs + [v]) == if MaxOf(v.nodes) > MaxAll(vs) then MaxOf(v.nodes) else MaxAll(vs)
  {
    assert (vs + [v])[..|vs|] == vs;
  }

  lemma ValuesNonEmpty(gs: seq<Graph>)
    requires AllNonEmpty(gs)
    ensures NonEmpty(Values(gs))
  {
    forall k | 0 <= k < |gs|
      ensures Values(gs)[k].nodes != []
    {
      assert gs[k] in gs;
    }
  }

  lemma MaxAllNext(vs: seq<GraphValue>, n: nat)
    requires NonEmpty(vs) && n < |vs|
    ensures NonEmpty(vs[..n]) && NonEmpty(vs[..n + 1])
    ensures MaxAll(vs[..n + 1]) == if MaxOf(vs[n].nodes) > MaxAll(vs[..n]) then MaxOf(vs[n].nodes) else MaxAll(vs[..n])
  {
    TakeSnoc(vs, n);
    MaxAllSnoc(vs[..n], vs[n]);
  }

  /** No tree is listed twice. */
  predicate Distinct(gs: seq<Graph>)
  {
    forall a, b :: 0 <= a < b < |gs| ==> gs[a] != gs[b]
  }

  /** Every tree has a node. */
  predicate AllNonEmpty(gs: seq<Graph>)
    reads set g | g in gs
  {
    forall g :: g in gs ==> g.nodes != []
  }

  /**
   * `detect_max_node_id_from_all_graphs` (wknml/nml_utils.py:49-56): the largest node id over all
   * trees, or 0.
   */
  method DetectMaxNodeId(groups: seq<seq<Graph>>) returns (maxId: int)
    requires AllNonEmpty(Flatten(groups))
    ensures NonEmpty(Values(Flatten(groups))) && maxId == MaxAll(Values(Flatten(groups)))
  {
    ghost var flat := Flatten(groups);
    ghost var olds := Values(flat);
    ValuesNonEmpty(flat);
    maxId := 0;
    ghost var pos := 0;
    for i := 0 to |groups|
      invariant pos == |Flatten(groups[..i])| <= |flat|
      invariant maxId == MaxAll(olds[..pos])
    {
      FlattenStep(groups, i);
      FlattenPrefix(groups, i + 1);
      for j := 0 to |groups[i]|
        invariant pos == |Flatten(groups[..i])| + j <= |flat|
        invariant maxId == MaxAll(olds[..pos])
      {
        var g := groups[i][j];
        FlattenAt(groups, i, j);
        MaxAllNext(olds, pos);
        var top := MaxOf(g.nodes);
        maxId := if top > maxId then top else maxId;
        pos := pos + 1;
      }
    }
    assert groups[..|groups|] == groups;
    assert olds[..pos] == olds;
  }

  /** The trees of one group, each split in turn from where the previous one left the counter. */
  method SplitTrees(trees: seq<Graph>, maxLength: int, dist: (Vec, Vec) -> real, id: int)
    returns (next: int, ghost olds: seq<GraphValue>, ghost starts: seq<int>)
    requires maxLength != 0 && Distinct(trees) && AllPositioned(Values(trees))
    modifies set g | g in trees
    ensures olds == old(Values(trees)) && AllPositioned(olds)
    ensures starts == Starts(olds, maxLength, dist, id) && next == starts[|olds|]
    ensures forall k :: 0 <= k < |trees| ==> trees[k].Value() == SplitTree(olds[k], maxLength, dist, starts[k])
  {
    olds := Values(trees);
    starts := Starts(olds, maxLength, dist, id);
    next := id;
    for j := 0 to |trees|
      invariant next == starts[j]
      invariant forall k :: 0 <= k < j ==> trees[k].Value() == SplitTree(olds[k], maxLength, dist, starts[k])
      invariant forall k :: j <= k < |trees| ==> trees[k].Value() == olds[k]
    {
      var g := trees[j];
      next := EnsureMaxEdgeLengthInTree(g, maxLength, next, dist);
      forall k | 0 <= k < |trees| && k != j
        ensures trees[k] != g
      {
        assert Distinct(trees);
      }
    }
  }

  /**
   * `ensure_max_edge_length` on a dictionary of groups (wknml/nml_utils.py:17-21): the counter
   * starts one above the largest id, and each tree in turn is split from where the previous one
   * left it, group after group and tree after tree within a group. The result is the final counter;
   * `olds` are the trees before and `starts` the id each one started from.
   */
  method EnsureMaxEdgeLength(groups: seq<seq<Graph>>, maxLength: int, dist: (Vec, Vec) -> real)
    returns (next: int, ghost olds: seq<GraphValue>, ghost starts: seq<int>)
    requires maxLength != 0 && Distinct(Flatten(groups)) && AllNonEmpty(Flatten(groups))
    requires AllPositioned(Values(Flatten(groups)))
    modifies set g | g in Flatten(groups)
    ensures olds == old(Values(Flatten(groups))) && NonEmpty(olds) && AllPositioned(olds)
    ensures starts == Starts(olds, maxLength, dist, MaxAll(olds) + 1) && next == starts[|olds|]
    ensures forall k :: 0 <= k < |olds| ==> Flatten(groups)[k].Value() == SplitTree(olds[k], maxLength, dist, starts[k])
  {
    var trees := Flatten(groups);
    ghost var before := Values(trees);
    var maxId := DetectMaxNodeId(groups);
    assert Values(trees) == before;
    next, olds, starts := SplitTrees(trees, maxLength, dist, maxId + 1);
  }
}
