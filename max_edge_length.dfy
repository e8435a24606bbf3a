/**
 * Splitting long edges (wknml/nml_utils.py): every edge longer than `max_length` is replaced by
 * a chain through padding nodes with fresh consecutive ids, and one id counter is threaded through
 * all trees. The distance function is a parameter; positions are exact.
 */
module MaxEdgeLength {
  import opened Graphs

  /** `math.ceil` of an exact quotient. */
  function Ceil(r: real): (n: int)
    ensures r <= n as real < r + 1.0
  {
    if r.Floor as real == r then r.Floor else r.Floor + 1
  }

  /** `get_padding_node_position`: node1's position plus `t` times the vector to node2. */
  function PaddingPosition(a: Vec, b: Vec, t: real): Vec
  {
    Add(a, Scale(Between(a, b), t))
  }

  /** Padding node `k` of `n`: node1's attributes with a new id, placed `k/n` of the way to node2. */
  function PaddingNode(a: NodeData, b: NodeData, k: int, n: int, id: int): NodeData
    requires n != 0
  {
    a.(id := id, position := PaddingPosition(a.position, b.position, k as real / n as real))
  }

  /** `range(lo, hi)` */
  function Range(lo: int, hi: int): (r: seq<int>)
    ensures |r| == if hi <= lo then 0 else hi - lo
    ensures forall i :: 0 <= i < |r| ==> r[i] == lo + i
    decreases hi - lo
  {
    if hi <= lo then [] else Range(lo, hi - 1) + [hi - 1]
  }

  /** The edges of the path through `xs`: (xs[0], xs[1]), (xs[1], xs[2]), and so on. */
  function Path(xs: seq<int>): (r: seq<Edge>)
    ensures |r| == if |xs| < 2 then 0 else |xs| - 1
    ensures forall i :: 0 <= i < |r| ==> r[i] == (xs[i], xs[i + 1])
  {
    if |xs| < 2 then [] else Path(xs[..|xs| - 1]) + [(xs[|xs| - 2], xs[|xs| - 1])]
  }

  /** Extending a path by one id adds one edge from its last id. */
  lemma PathSnoc(xs: seq<int>, v: int)
    requires xs != []
    ensures Path(xs + [v]) == Path(xs) + [(xs[|xs| - 1], v)]
  {
    assert (xs + [v])[..|xs|] == xs;
  }

  /** The padding nodes 1..k of an edge split into `n` pieces, with ids `id`, `id + 1`, and so on. */
  function PaddingNodes(a: NodeData, b: NodeData, n: int, id: int, k: nat): (r: seq<NodeData>)
    requires k == 0 || n != 0
    ensures |r| == k
    ensures forall i :: 0 <= i < k ==> r[i] == PaddingNode(a, b, i + 1, n, id + i)
  {
    if k == 0 then [] else PaddingNodes(a, b, n, id, k - 1) + [PaddingNode(a, b, k, n, id + k - 1)]
  }

  /** `len(range(1, n))`: the number of padding nodes of an edge split into `n` pieces. */
  function PaddingCount(n: int): nat
  {
    if n > 1 then n - 1 else 0
  }

  /** Both ends of every edge carry attributes. */
  predicate Positioned(es: seq<Edge>, data: map<int, NodeData>)
  {
    forall e :: e in es ==> e.0 in data && e.1 in data
  }

  /** `edge_distance > max_length` */
  predicate IsLong(e: Edge, data: map<int, NodeData>, maxLength: int, dist: (Vec, Vec) -> real)
    requires e.0 in data && e.1 in data
  {
    dist(data[e.0].position, data[e.1].position) > maxLength as real
  }

  /** `ceil(edge_distance / max_length)` */
  function Pieces(e: Edge, data: map<int, NodeData>, maxLength: int, dist: (Vec, Vec) -> real): int
    requires e.0 in data && e.1 in data && maxLength != 0
  {
    Ceil(dist(data[e.0].position, data[e.1].position) / maxLength as real)
  }

  /** The long edges, in order. */
  function LongEdges(es: seq<Edge>, data: map<int, NodeData>, maxLength: int, dist: (Vec, Vec) -> real): (r: seq<Edge>)
    requires Positioned(es, data)
    ensures forall e :: e in r <==> e in es && IsLong(e, data, maxLength, dist)
  {
    if es == [] then []
    else
      var e := es[|es| - 1];
      assert forall x :: x in es <==> x in es[..|es| - 1] || x == e by {
        assert es == es[..|es| - 1] + [e];
      }
      LongEdges(es[..|es| - 1], data, maxLength, dist) + if IsLong(e, data, maxLength, dist) then [e] else []
  }

  /** The three lists the loop collects, and the counter after it. */
  datatype Plan = Plan(removed: seq<Edge>, added: seq<Edge>, padding: seq<NodeData>, next: int)

  /**
   * The chain replacing edge (u, v): a path of `m + 1` edges from `u` to `v` whose inner nodes are
   * the padding ids `id .. id + m`, in order.
   */
  function Chain(u: int, v: int, id: int, m: nat): (r: seq<Edge>)
    ensures |r| == m + 1
    ensures r[0].0 == u && r[m].1 == v
    ensures forall i :: 0 <= i < m ==> r[i].1 == id + i
    ensures forall i :: 0 < i <= m ==> r[i].0 == id + i - 1
  {
    var rs := Range(id, id + m);
    var xs := [u] + rs + [v];
    assert |xs| == m + 2 && xs[0] == u && xs[m + 1] == v;
    var r := Path(xs);
    assert r[0] == (xs[0], xs[1]) && r[m] == (xs[m], xs[m + 1]);
    assert forall i :: 0 <= i < m ==> r[i].1 == id + i by {
      forall i | 0 <= i < m ensures r[i].1 == id + i {
        assert r[i] == (xs[i], xs[i + 1]) && xs[i + 1] == rs[i];
      }
    }
    assert forall i :: 0 < i <= m ==> r[i].0 == id + i - 1 by {
      forall i | 0 < i <= m ensures r[i].0 == id + i - 1 {
        assert r[i] == (xs[i], xs[i + 1]) && xs[i] == rs[i - 1];
      }
    }
    r
  }

  /** The ids a chain mentions are its two ends and its padding ids. */
  lemma ChainEnds(u: int, v: int, id: int, m: nat)
    ensures forall x :: x in Ends(Chain(u, v, id, m)) <==> x == u || x == v || id <= x < id + m
  {
    var r := Chain(u, v, id, m);
    forall x | x in Ends(r)
      ensures x == u || x == v || id <= x < id + m
    {
      var i := EndsWitness(r, x);
      assert i == 0 || r[i].0 == id + i - 1;
      assert i == m || r[i].1 == id + i;
    }
    forall x | id <= x < id + m
      ensures x in Ends(r)
    {
      assert r[x - id] in r;
    }
    assert r[0] in r && r[m] in r;
  }

  /** With a positive bound every edge longer than it is cut into at least two pieces. */
  lemma PiecesAtLeastTwo(e: Edge, data: map<int, NodeData>, maxLength: int, dist: (Vec, Vec) -> real)
    requires e.0 in data && e.1 in data && maxLength > 0 && IsLong(e, data, maxLength, dist)
    ensures Pieces(e, data, maxLength, dist) >= 2
  {
    var d, l := dist(data[e.0].position, data[e.1].position), maxLength as real;
    assert d / l > 1.0 by {
      assert d / l * l == d;
    }
  }

  /** One iteration of the loop over the edges (wknml/nml_utils.py:68-92). */
  function Step(p: Plan, e: Edge, data: map<int, NodeData>, maxLength: int, dist: (Vec, Vec) -> real): (r: Plan)
    requires e.0 in data && e.1 in data && maxLength != 0
    ensures r.removed == p.removed + if IsLong(e, data, maxLength, dist) then [e] else []
    ensures |p.padding| <= |r.padding| && r.padding[..|p.padding|] == p.padding
    ensures r.next == p.next + |r.padding| - |p.padding|
    ensures forall k :: |p.padding| <= k < |r.padding| ==> r.padding[k].id == p.next + k - |p.padding|
  {
    if IsLong(e, data, maxLength, dist) then
      var n := Pieces(e, data, maxLength, dist);
      var m := PaddingCount(n);
      var chain := Chain(e.0, e.1, p.next, m);
      Plan(p.removed + [e], p.added + chain,
           p.padding + PaddingNodes(data[e.0], data[e.1], n, p.next, m), p.next + m)
    else p
  }

  /**
   * What the loop collects over the edges `es`, starting at id `id`: the long edges are removed,
   * the padding nodes carry the consecutive ids `id .. next`, each a copy of its edge's first node.
   */
  function PlanOf(es: seq<Edge>, data: map<int, NodeData>, maxLength: int, dist: (Vec, Vec) -> real, id: int): (p: Plan)
    requires Positioned(es, data) && maxLength != 0
    ensures p.removed == LongEdges(es, data, maxLength, dist)
    ensures p.next == id + |p.padding|
    ensures forall k :: 0 <= k < |p.padding| ==> p.padding[k].id == id + k
  {
    if es == [] then Plan([], [], [], id)
    else
      var q := PlanOf(es[..|es| - 1], data, maxLength, dist, id);
      var e := es[|es| - 1];
      var p := Step(q, e, data, maxLength, dist);
      assert forall k :: 0 <= k < |q.padding| ==> p.padding[k] == q.padding[k];
      p
  }

  /** The ids the new edges mention are the ends of the removed edges and the padding ids. */
  ghost predicate EndsCovered(p: Plan, id: int)
  {
    forall x :: x in Ends(p.added) <==> x in Ends(p.removed) || id <= x < p.next
  }

  /** Every new edge touches a padding id. */
  ghost predicate TouchesPadding(p: Plan, id: int)
  {
    forall a :: a in p.added ==> id <= a.0 < p.next || id <= a.1 < p.next
  }

  /** The ids one step's new edges mention: the ends of the long edge and its padding ids. */
  lemma StepEnds(p: Plan, e: Edge, data: map<int, NodeData>, maxLength: int, dist: (Vec, Vec) -> real)
    requires e.0 in data && e.1 in data && maxLength != 0
    ensures forall x :: x in Ends(Step(p, e, data, maxLength, dist).added) <==>
      || x in Ends(p.added)
      || (IsLong(e, data, maxLength, dist) && (x == e.0 || x == e.1))
      || p.next <= x < Step(p, e, data, maxLength, dist).next
  {
    if IsLong(e, data, maxLength, dist) {
      var m := PaddingCount(Pieces(e, data, maxLength, dist));
      EndsAppend(p.added, Chain(e.0, e.1, p.next, m));
      ChainEnds(e.0, e.1, p.next, m);
    }
  }

  /** With a positive bound every edge of a step's chain touches one of its padding ids. */
  lemma StepTouchesPadding(p: Plan, e: Edge, data: map<int, NodeData>, maxLength: int, dist: (Vec, Vec) -> real)
    requires e.0 in data && e.1 in data && maxLength > 0
    ensures forall a :: a in Step(p, e, data, maxLength, dist).added ==>
      a in p.added || p.next <= a.0 < Step(p, e, data, maxLength, dist).next || p.next <= a.1 < Step(p, e, data, maxLength, dist).next
  {
    if IsLong(e, data, maxLength, dist) {
      var m := PaddingCount(Pieces(e, data, maxLength, dist));
      var chain := Chain(e.0, e.1, p.next, m);
      PiecesAtLeastTwo(e, data, maxLength, dist);
      forall a | a in chain
        ensures p.next <= a.0 < p.next + m || p.next <= a.1 < p.next + m
      {
        var i :| 0 <= i < |chain| && chain[i] == a;
        assert i == 0 || chain[i].0 == p.next + i - 1;
        assert i == m || chain[i].1 == p.next + i;
      }
    }
  }

  /** The ids the new edges mention are the ends of the removed edges and the padding ids. */
  lemma {:induction false} PlanEnds(es: seq<Edge>, data: map<int, NodeData>, maxLength: int, dist: (Vec, Vec) -> real, id: int)
    requires Positioned(es, data) && maxLength != 0
    ensures EndsCovered(PlanOf(es, data, maxLength, dist, id), id)
  {
    if es != [] {
      var init, e := es[..|es| - 1], es[|es| - 1];
      assert Positioned(init, data);
      var q := PlanOf(init, data, maxLength, dist, id);
      var p := Step(q, e, data, maxLength, dist);
      assert PlanOf(es, data, maxLength, dist, id) == p;
      var tail := if IsLong(e, data, maxLength, dist) then [e] else [];
      assert Ends(tail) == if IsLong(e, data, maxLength, dist) then {e.0, e.1} else {};
      PlanEnds(init, data, maxLength, dist, id);
      StepEnds(q, e, data, maxLength, dist);
      EndsAppend(q.removed, tail);
    }
  }

  /** With a positive bound every new edge touches a padding id. */
  lemma {:induction false} PlanTouchesPadding(es: seq<Edge>, data: map<int, NodeData>, maxLength: int, dist: (Vec, Vec) -> real, id: int)
    requires Positioned(es, data) && maxLength > 0
    ensures TouchesPadding(PlanOf(es, data, maxLength, dist, id), id)
  {
    if es != [] {
      var init, e := es[..|es| - 1], es[|es| - 1];
      assert Positioned(init, data);
      var q := PlanOf(init, data, maxLength, dist, id);
      PlanTouchesPadding(init, data, maxLength, dist, id);
      StepTouchesPadding(q, e, data, maxLength, dist);
    }
  }

  /** The ids of a list of attribute dictionaries. */
  function Ids(ds: seq<NodeData>): set<int>
  {
    set d | d in ds :: d.id
  }

  /** `graph.add_node(node['id'], **node)` for each padding node in turn. */
  function AddNodes(g: GraphValue, ds: seq<NodeData>): (r: GraphValue)
    ensures r.edges == g.edges
    ensures forall x :: x in r.nodes <==> x in g.nodes || x in Ids(ds)
    ensures forall x :: x in r.data <==> x in g.data || x in Ids(ds)
    ensures forall x :: x in g.data && x !in Ids(ds) ==> r.data[x] == g.data[x]
  {
    if ds == [] then g
    else
      var init, d := ds[..|ds| - 1], ds[|ds| - 1];
      assert Ids(ds) == Ids(init) + {d.id} by {
        assert ds == init + [d];
      }
      WithNode(AddNodes(g, init), d.id, d)
  }

  /** The attributes a node ends up with are those of the last entry with its id. */
  lemma {:induction false} AddNodesLast(g: GraphValue, ds: seq<NodeData>, k: nat)
    requires k < |ds| && forall j :: k < j < |ds| ==> ds[j].id != ds[k].id
    ensures ds[k].id in AddNodes(g, ds).data && AddNodes(g, ds).data[ds[k].id] == ds[k]
  {
    if k < |ds| - 1 {
      AddNodesLast(g, ds[..|ds| - 1], k);
    }
  }

  /** Setting attributes keeps a graph valid. */
  lemma {:induction false} ValidAddNodes(g: GraphValue, ds: seq<NodeData>)
    requires ValidGraph(g)
    ensures ValidGraph(AddNodes(g, ds))
  {
    if ds != [] {
      ValidAddNodes(g, ds[..|ds| - 1]);
      ValidWithNode(AddNodes(g, ds[..|ds| - 1]), ds[|ds| - 1].id, ds[|ds| - 1]);
    }
  }

  /** The graph after the collected edges are removed, the new edges added and the padding nodes set. */
  function Split(g: GraphValue, p: Plan): GraphValue
  {
    AddNodes(WithEdges(g.(edges := WithoutAll(g.edges, p.removed)), p.added), p.padding)
  }

  /** The inner loop (wknml/nml_utils.py:73-92): the chain and padding nodes replacing one long edge. */
  method Pad(node1: NodeData, node2: NodeData, u: int, v: int, n: int, start: int)
    returns (chain: seq<Edge>, padding: seq<NodeData>, current: int)
    ensures chain == Chain(u, v, start, PaddingCount(n))
    ensures padding == PaddingNodes(node1, node2, n, start, PaddingCount(n))
    ensures current == start + PaddingCount(n)
  {
    chain, padding, current := [], [], start;
    var previous := u;
    var k := 1;
    while k < n
      invariant 1 <= k && (k == 1 || k <= n)
      invariant current == start + k - 1
      invariant previous == if k == 1 then u else current - 1
      invariant chain == Path([u] + Range(start, current))
      invariant padding == PaddingNodes(node1, node2, n, start, k - 1)
    {
      var position := PaddingPosition(node1.position, node2.position, k as real / n as real);
      padding := padding + [node1.(id := current, position := position)];
      PadStep(u, start, current);
      chain := chain + [(previous, current)];
      previous, current := current, current + 1;
      k := k + 1;
    }
    PathEnd(u, v, start, current);
    chain := chain + [(previous, v)];
  }

  lemma PadStep(u: int, start: int, current: int)
    requires start <= current
    ensures Path([u] + Range(start, current + 1))
         == Path([u] + Range(start, current)) + [(if current == start then u else current - 1, current)]
  {
    var xs := [u] + Range(start, current);
    assert xs + [current] == [u] + Range(start, current + 1);
    PathSnoc(xs, current);
  }

  lemma PathEnd(u: int, v: int, start: int, current: int)
    requires start <= current
    ensures Chain(u, v, start, current - start)
         == Path([u] + Range(start, current)) + [(if current == start then u else current - 1, v)]
  {
    PathSnoc([u] + Range(start, current), v);
  }

  /** The loop over a snapshot of the edges (wknml/nml_utils.py:63-92). */
  method Collect(es: seq<Edge>, data: map<int, NodeData>, maxLength: int, dist: (Vec, Vec) -> real, currentId: int)
    returns (p: Plan)
    requires Positioned(es, data) && maxLength != 0
    ensures p == PlanOf(es, data, maxLength, dist, currentId)
  {
    var removed, added, padding, current := [], [], [], currentId;
    for i := 0 to |es|
      invariant Plan(removed, added, padding, current) == PlanOf(es[..i], data, maxLength, dist, currentId)
    {
      assert es[..i + 1][..i] == es[..i];
      var e := es[i];
      var node1, node2 := data[e.0], data[e.1];
      var distance := dist(node1.position, node2.position);
      if distance > maxLength as real {
        var n := Ceil(distance / maxLength as real);
        removed := removed + [e];
        var chain, pads;
        chain, pads, current := Pad(node1, node2, e.0, e.1, n, current);
        added, padding := added + chain, padding + pads;
      }
    }
    assert es[..|es|] == es;
    p := Plan(removed, added, padding, current);
  }

  /** The edges `graph.edges` reports have attributes at both ends when the stored ones do. */
  lemma ViewPositioned(g: GraphValue)
    requires Positioned(g.edges, g.data)
    ensures Positioned(EdgeView(g.nodes, g.edges), g.data)
  {
  }

  /** What the loop collects over `graph.edges`, from id `id` on. */
  function TreePlan(g: GraphValue, maxLength: int, dist: (Vec, Vec) -> real, id: int): Plan
    requires Positioned(g.edges, g.data) && maxLength != 0
  {
    ViewPositioned(g);
    PlanOf(EdgeView(g.nodes, g.edges), g.data, maxLength, dist, id)
  }

  /** `d` is padding node `j` of one of the long edges in `es`, cut into `Pieces` parts. */
  ghost predicate PaddedFrom(d: NodeData, es: seq<Edge>, data: map<int, NodeData>, maxLength: int, dist: (Vec, Vec) -> real)
    requires Positioned(es, data) && maxLength != 0
  {
    exists e, j :: e in es && IsLong(e, data, maxLength, dist) && 1 <= j < Pieces(e, data, maxLength, dist) &&
      d == PaddingNode(data[e.0], data[e.1], j, Pieces(e, data, maxLength, dist), d.id)
  }

  /**
   * Every padding node is a copy of the first node of a long edge, with only its id and its
   * position changed, placed `j/n` of the way along the edge (wknml/nml_utils.py:74-85).
   */
  lemma {:induction false} PaddingOrigin(es: seq<Edge>, data: map<int, NodeData>, maxLength: int, dist: (Vec, Vec) -> real, id: int)
    requires Positioned(es, data) && maxLength != 0
    ensures forall d :: d in PlanOf(es, data, maxLength, dist, id).padding ==> PaddedFrom(d, es, data, maxLength, dist)
  {
    if es != [] {
      var init, e := es[..|es| - 1], es[|es| - 1];
      assert Positioned(init, data);
      var q := PlanOf(init, data, maxLength, dist, id);
      PaddingOrigin(init, data, maxLength, dist, id);
      forall d | d in PlanOf(es, data, maxLength, dist, id).padding
        ensures PaddedFrom(d, es, data, maxLength, dist)
      {
        if d in q.padding {
          assert PaddedFrom(d, init, data, maxLength, dist);
          var e', j :| e' in init && IsLong(e', data, maxLength, dist) && 1 <= j < Pieces(e', data, maxLength, dist) &&
            d == PaddingNode(data[e'.0], data[e'.1], j, Pieces(e', data, maxLength, dist), d.id);
          assert e' in es;
        } else {
          var n := Pieces(e, data, maxLength, dist);
          var ps := PaddingNodes(data[e.0], data[e.1], n, q.next, PaddingCount(n));
          assert d in ps;
          var i :| 0 <= i < |ps| && ps[i] == d;
          assert d == PaddingNode(data[e.0], data[e.1], i + 1, n, d.id);
          assert e in es;
        }
      }
    }
  }

  /** The graph `ensure_max_edge_length_in_tree` leaves behind. */
  function SplitTree(g: GraphValue, maxLength: int, dist: (Vec, Vec) -> real, id: int): GraphValue
    requires Positioned(g.edges, g.data) && maxLength != 0
  {
    Split(g, TreePlan(g, maxLength, dist, id))
  }

  /** Every node id is below `id`. */
  predicate Fresh(g: GraphValue, id: int)
  {
    forall x :: x in g.nodes ==> x < id
  }

  /** The ends of the removed edges are nodes of the graph. */
  lemma RemovedEnds(g: GraphValue, maxLength: int, dist: (Vec, Vec) -> real, id: int)
    requires ValidGraph(g) && Positioned(g.edges, g.data) && maxLength != 0
    ensures forall x :: x in Ends(TreePlan(g, maxLength, dist, id).removed) ==> x in g.nodes
  {
    var p := TreePlan(g, maxLength, dist, id);
    forall x | x in Ends(p.removed)
      ensures x in g.nodes
    {
      var i := EndsWitness(p.removed, x);
      assert p.removed[i] in EdgeView(g.nodes, g.edges);
    }
  }

  /** The padding nodes carry the ids `id .. next`, in order. */
  ghost predicate Consecutive(p: Plan, id: int)
  {
    p.next == id + |p.padding| && forall k :: 0 <= k < |p.padding| ==> p.padding[k].id == id + k
  }

  lemma ConsecutiveIds(p: Plan, id: int)
    requires Consecutive(p, id)
    ensures forall x :: x in Ids(p.padding) <==> id <= x < p.next
  {
    forall x | id <= x < p.next
      ensures x in Ids(p.padding)
    {
      assert p.padding[x - id] in p.padding;
    }
  }

  lemma SplitNodesOf(g: GraphValue, p: Plan, id: int)
    requires EndsCovered(p, id) && Consecutive(p, id)
    requires forall x :: x in Ends(p.removed) ==> x in g.nodes
    ensures forall x :: x in Split(g, p).nodes <==> x in g.nodes || id <= x < p.next
  {
    ConsecutiveIds(p, id);
  }

  /**
   * No node is removed, and the nodes added are exactly the ids `id .. next`, where `next` is the
   * id returned (wknml/nml_utils.py:83-90, 94-99).
   */
  lemma SplitNodes(g: GraphValue, maxLength: int, dist: (Vec, Vec) -> real, id: int)
    requires ValidGraph(g) && Positioned(g.edges, g.data) && maxLength != 0
    ensures id <= TreePlan(g, maxLength, dist, id).next
    ensures forall x :: x in SplitTree(g, maxLength, dist, id).nodes <==> x in g.nodes || id <= x < TreePlan(g, maxLength, dist, id).next
  {
    ViewPositioned(g);
    PlanEnds(EdgeView(g.nodes, g.edges), g.data, maxLength, dist, id);
    RemovedEnds(g, maxLength, dist, id);
    SplitNodesOf(g, TreePlan(g, maxLength, dist, id), id);
  }

  /** Every node of `data` keeps its attributes in `placed`. */
  ghost predicate DataKept(data: map<int, NodeData>, placed: map<int, NodeData>)
  {
    forall x :: x in data ==> x in placed && placed[x] == data[x]
  }

  /** The node with id `id + k` carries the `k`-th padding node's attributes. */
  ghost predicate PaddingPlaced(placed: map<int, NodeData>, p: Plan, id: int)
  {
    forall k :: 0 <= k < |p.padding| ==> id + k in placed && placed[id + k] == p.padding[k]
  }

  lemma SplitDataOf(g: GraphValue, p: Plan, id: int)
    requires Consecutive(p, id) && Fresh(g, id) && forall x :: x in g.data ==> x in g.nodes
    ensures DataKept(g.data, Split(g, p).data) && PaddingPlaced(Split(g, p).data, p, id)
  {
    ConsecutiveIds(p, id);
    var base := WithEdges(g.(edges := WithoutAll(g.edges, p.removed)), p.added);
    forall k | 0 <= k < |p.padding|
      ensures id + k in Split(g, p).data && Split(g, p).data[id + k] == p.padding[k]
    {
      AddNodesLast(base, p.padding, k);
    }
  }

  /**
   * With fresh ids the original nodes keep their attributes, and the node with id `id + k` carries
   * the `k`-th padding node's attributes (wknml/nml_utils.py:79-85, 96-97).
   */
  lemma SplitData(g: GraphValue, maxLength: int, dist: (Vec, Vec) -> real, id: int)
    requires ValidGraph(g) && Positioned(g.edges, g.data) && maxLength != 0 && Fresh(g, id)
    ensures DataKept(g.data, SplitTree(g, maxLength, dist, id).data)
    ensures PaddingPlaced(SplitTree(g, maxLength, dist, id).data, TreePlan(g, maxLength, dist, id), id)
  {
    SplitDataOf(g, TreePlan(g, maxLength, dist, id), id);
  }

  /**
   * Edges short in both directions stay; every new edge is present; no other entry appears
   * (wknml/nml_utils.py:68, 94-95).
   */
  lemma SplitEdges(g: GraphValue, maxLength: int, dist: (Vec, Vec) -> real, id: int)
    requires Positioned(g.edges, g.data) && maxLength != 0
    ensures forall e :: e in g.edges && !IsLong(e, g.data, maxLength, dist) && !IsLong((e.1, e.0), g.data, maxLength, dist) ==>
      e in SplitTree(g, maxLength, dist, id).edges
    ensures forall e :: e in TreePlan(g, maxLength, dist, id).added ==> HasEdge(SplitTree(g, maxLength, dist, id).edges, e.0, e.1)
    ensures forall e :: e in SplitTree(g, maxLength, dist, id).edges ==>
      (e in g.edges && !HasEdge(TreePlan(g, maxLength, dist, id).removed, e.0, e.1)) || e in TreePlan(g, maxLength, dist, id).added
  {
  }

  /**
   * With a positive bound and fresh ids, no long edge survives in either direction
   * (wknml/nml_utils.py:68-71, 94).
   */
  lemma LongEdgesGone(g: GraphValue, maxLength: int, dist: (Vec, Vec) -> real, id: int)
    requires ValidGraph(g) && Positioned(g.edges, g.data) && maxLength > 0 && Fresh(g, id)
    ensures forall e :: e in EdgeView(g.nodes, g.edges) && IsLong(e, g.data, maxLength, dist) ==>
      !HasEdge(SplitTree(g, maxLength, dist, id).edges, e.0, e.1)
  {
    var p := TreePlan(g, maxLength, dist, id);
    ViewPositioned(g);
    PlanTouchesPadding(EdgeView(g.nodes, g.edges), g.data, maxLength, dist, id);
    SplitEdges(g, maxLength, dist, id);
  }

  /**
   * Distance along a segment grows with the fraction travelled: two points `s` and `t` of the way
   * from `a` to `b` are `|t - s|` times `dist(a, b)` apart. The Euclidean distance of
   * `calculate_distance_between_nodes` has this property, as does every norm.
   */
  ghost predicate AlongSegments(dist: (Vec, Vec) -> real)
  {
    forall a, b, s, t :: 0.0 <= s <= 1.0 && 0.0 <= t <= 1.0 ==>
      dist(PaddingPosition(a, b, s), PaddingPosition(a, b, t)) == (if s <= t then t - s else s - t) * dist(a, b)
  }

  /** Travelling no fraction of the way stays at node1; travelling all of it reaches node2. */
  lemma PaddingEnds(a: Vec, b: Vec)
    ensures PaddingPosition(a, b, 0.0) == a && PaddingPosition(a, b, 1.0) == b
  {
    assert Scale(Between(a, b), 1.0) == Between(a, b);
  }

  /** Such a distance does not depend on the direction an edge is listed in. */
  lemma AlongSymmetric(dist: (Vec, Vec) -> real, a: Vec, b: Vec)
    requires AlongSegments(dist)
    ensures dist(b, a) == dist(a, b)
  {
    PaddingEnds(a, b);
    assert dist(PaddingPosition(a, b, 1.0), PaddingPosition(a, b, 0.0)) == dist(a, b);
  }

  /** Piece `i` of `n` runs from `i/n` to `(i+1)/n` of the way, so it is `dist(a, b) / n` long. */
  lemma PieceShort(a: Vec, b: Vec, n: int, i: int, maxLength: int, dist: (Vec, Vec) -> real)
    requires AlongSegments(dist) && maxLength > 0 && 0 <= i < n
    requires dist(a, b) <= n as real * maxLength as real
    ensures dist(PaddingPosition(a, b, i as real / n as real), PaddingPosition(a, b, (i + 1) as real / n as real))
              <= maxLength as real
  {
    var d, l, nr := dist(a, b), maxLength as real, n as real;
    var s, t := i as real / nr, (i + 1) as real / nr;
    assert 0.0 <= s <= t <= 1.0 && t - s == 1.0 / nr;
    assert 1.0 / nr * d <= l by {
      assert 1.0 / nr * d <= 1.0 / nr * (nr * l);
    }
  }

  /**
   * Piece `i` of the chain from node `u` through the padding nodes `ps` to node `v` runs between
   * the positions `i/n` and `(i+1)/n` of the way from `a` to `b` (wknml/nml_utils.py:73-92).
   */
  lemma ChainPiecePlaced(u: int, v: int, start: int, n: int, a: NodeData, b: NodeData, ps: seq<NodeData>,
                         data: map<int, NodeData>, i: int)
    requires 0 <= i < n
    requires u in data && data[u].position == a.position && v in data && data[v].position == b.position
    requires ps == PaddingNodes(a, b, n, start, n - 1)
    requires forall k :: 0 <= k < |ps| ==> ps[k].id in data && data[ps[k].id] == ps[k]
    ensures var c := Chain(u, v, start, n - 1)[i];
      && c.0 in data && data[c.0].position == PaddingPosition(a.position, b.position, i as real / n as real)
      && c.1 in data && data[c.1].position == PaddingPosition(a.position, b.position, (i + 1) as real / n as real)
  {
    var c := Chain(u, v, start, n - 1)[i];
    PaddingEnds(a.position, b.position);
    if i == 0 {
      assert c.0 == u && 0 as real / n as real == 0.0;
    } else {
      assert c.0 == ps[i - 1].id;
    }
    if i == n - 1 {
      assert c.1 == v && n as real / n as real == 1.0;
    } else {
      assert c.1 == ps[i].id;
    }
  }

  /**
   * No piece of that chain is longer than the bound when `dist(a, b)` is at most `n` times the
   * bound and the distance scales along segments (wknml/nml_utils.py:69, 73-92).
   */
  lemma ChainShort(u: int, v: int, start: int, n: int, a: NodeData, b: NodeData, ps: seq<NodeData>,
                   data: map<int, NodeData>, maxLength: int, dist: (Vec, Vec) -> real)
    requires AlongSegments(dist) && maxLength > 0 && n >= 1
    requires dist(a.position, b.position) <= n as real * maxLength as real
    requires u in data && data[u].position == a.position && v in data && data[v].position == b.position
    requires ps == PaddingNodes(a, b, n, start, n - 1)
    requires forall k :: 0 <= k < |ps| ==> ps[k].id in data && data[ps[k].id] == ps[k]
    ensures forall c :: c in Chain(u, v, start, n - 1) ==> c.0 in data && c.1 in data && !IsLong(c, data, maxLength, dist)
  {
    var chain := Chain(u, v, start, n - 1);
    forall c | c in chain
      ensures c.0 in data && c.1 in data && !IsLong(c, data, maxLength, dist)
    {
      var i :| 0 <= i < |chain| && chain[i] == c;
      ChainPiecePlaced(u, v, start, n, a, b, ps, data, i);
      PieceShort(a.position, b.position, n, i, maxLength, dist);
    }
  }

  /** The pieces of one long edge: `n` pieces of at most the bound, `n - 1` padding nodes. */
  lemma StepShort(q: Plan, e: Edge, data: map<int, NodeData>, maxLength: int, dist: (Vec, Vec) -> real,
                  id: int, placed: map<int, NodeData>)
    requires e.0 in data && e.1 in data && maxLength > 0 && AlongSegments(dist)
    requires q.next == id + |q.padding|
    requires DataKept(data, placed) && PaddingPlaced(placed, Step(q, e, data, maxLength, dist), id)
    ensures forall c :: c in Step(q, e, data, maxLength, dist).added && c !in q.added ==>
      c.0 in placed && c.1 in placed && !IsLong(c, placed, maxLength, dist)
  {
    if IsLong(e, data, maxLength, dist) {
      var p := Step(q, e, data, maxLength, dist);
      var n := Pieces(e, data, maxLength, dist);
      PiecesAtLeastTwo(e, data, maxLength, dist);
      var a, b := data[e.0], data[e.1];
      var ps := PaddingNodes(a, b, n, q.next, n - 1);
      assert p.padding == q.padding + ps && p.added == q.added + Chain(e.0, e.1, q.next, n - 1);
      forall k | 0 <= k < |ps|
        ensures ps[k].id in placed && placed[ps[k].id] == ps[k]
      {
        assert p.padding[|q.padding| + k] == ps[k];
      }
      var d, l := dist(a.position, b.position), maxLength as real;
      assert d <= n as real * l by {
        assert d / l <= n as real;
        assert d / l * l == d;
      }
      ChainShort(e.0, e.1, q.next, n, a, b, ps, placed, maxLength, dist);
    }
  }

  /**
   * Every edge the loop adds joins two positioned nodes and is no longer than the bound, once the
   * original nodes and the padding nodes are placed in `placed`.
   */
  lemma {:induction false} PlanAddedShort(es: seq<Edge>, data: map<int, NodeData>, maxLength: int, dist: (Vec, Vec) -> real,
                                          id: int, placed: map<int, NodeData>)
    requires Positioned(es, data) && maxLength > 0 && AlongSegments(dist)
    requires DataKept(data, placed) && PaddingPlaced(placed, PlanOf(es, data, maxLength, dist, id), id)
    ensures forall c :: c in PlanOf(es, data, maxLength, dist, id).added ==>
      c.0 in placed && c.1 in placed && !IsLong(c, placed, maxLength, dist)
  {
    if es != [] {
      var init, e := es[..|es| - 1], es[|es| - 1];
      assert Positioned(init, data);
      var q := PlanOf(init, data, maxLength, dist, id);
      var p := PlanOf(es, data, maxLength, dist, id);
      assert p == Step(q, e, data, maxLength, dist);
      assert PaddingPlaced(placed, q, id) by {
        forall k | 0 <= k < |q.padding|
          ensures id + k in placed && placed[id + k] == q.padding[k]
        {
          assert p.padding[k] == q.padding[k];
        }
      }
      PlanAddedShort(init, data, maxLength, dist, id, placed);
      StepShort(q, e, data, maxLength, dist, id, placed);
    }
  }

  /**
   * With a positive bound, fresh ids and a distance that scales along segments, no edge of the
   * result is longer than `max_length`: the short edges stay with their attributes, and every long
   * one is replaced by pieces of at most the bound (wknml/nml_utils.py:59-99).
   */
  lemma NoLongEdgeLeft(g: GraphValue, maxLength: int, dist: (Vec, Vec) -> real, id: int)
    requires ValidGraph(g) && Positioned(g.edges, g.data) && maxLength > 0 && Fresh(g, id) && AlongSegments(dist)
    ensures var r := SplitTree(g, maxLength, dist, id);
      forall e :: e in r.edges ==> e.0 in r.data && e.1 in r.data && !IsLong(e, r.data, maxLength, dist)
  {
    var p := TreePlan(g, maxLength, dist, id);
    var r := SplitTree(g, maxLength, dist, id);
    var view := EdgeView(g.nodes, g.edges);
    ViewPositioned(g);
    SplitData(g, maxLength, dist, id);
    SplitEdges(g, maxLength, dist, id);
    PlanAddedShort(view, g.data, maxLength, dist, id, r.data);
    forall e | e in r.edges
      ensures e.0 in r.data && e.1 in r.data && !IsLong(e, r.data, maxLength, dist)
    {
      if e !in p.added {
        assert e in g.edges && !HasEdge(p.removed, e.0, e.1);
        assert e in view || (e.1, e.0) in view;
        AlongSymmetric(dist, g.data[e.0].position, g.data[e.1].position);
        assert !IsLong(e, g.data, maxLength, dist);
      }
    }
  }

  /** The result is a valid graph again. */
  lemma SplitValid(g: GraphValue, maxLength: int, dist: (Vec, Vec) -> real, id: int)
    requires ValidGraph(g) && Positioned(g.edges, g.data) && maxLength != 0
    ensures ValidGraph(SplitTree(g, maxLength, dist, id))
  {
    var p := TreePlan(g, maxLength, dist, id);
    ValidWithoutAll(g, p.removed);
    ValidWithEdges(g.(edges := WithoutAll(g.edges, p.removed)), p.added);
    ValidAddNodes(WithEdges(g.(edges := WithoutAll(g.edges, p.removed)), p.added), p.padding);
  }

  /** The changes after the loop (wknml/nml_utils.py:94-97). */
  method ApplyPlan(g: Graph, p: Plan)
    modifies g
    ensures g.Value() == Split(old(g.Value()), p)
  {
    g.RemoveEdgesFrom(p.removed);
    g.AddEdgesFrom(p.added);
    ghost var base := g.Value();
    for k := 0 to |p.padding|
      invariant g.Value() == AddNodes(base, p.padding[..k])
    {
      assert p.padding[..k + 1][..k] == p.padding[..k];
      g.AddNode(p.padding[k].id, p.padding[k]);
    }
    assert p.padding[..|p.padding|] == p.padding;
  }

  /**
   * `ensure_max_edge_length_in_tree` (wknml/nml_utils.py:59-99): collect over the current edges,
   * then change the graph; the result is the next free id.
   */
  method EnsureMaxEdgeLengthInTree(g: Graph, maxLength: int, currentId: int, dist: (Vec, Vec) -> real) returns (nextId: int)
    requires maxLength != 0 && Positioned(g.edges, g.data)
    modifies g
    ensures var p := TreePlan(old(g.Value()), maxLength, dist, currentId);
            nextId == p.next && g.Value() == Split(old(g.Value()), p)
  {
    ViewPositioned(g.Value());
    var p := Collect(EdgeView(g.nodes, g.edges), g.data, maxLength, dist, currentId);
    ApplyPlan(g, p);
    nextId := p.next;
  }
}
