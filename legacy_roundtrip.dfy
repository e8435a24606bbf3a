/**
 * Reading back what the legacy writer builds. As written, no document with a tree reads back,
 * because the edge container is tagged "egdes". With the container tagged "edges", everything
 * reads back except three fields that do not survive the trip.
 */
module LegacyRoundTrip {
  import opened Wrappers
  import opened Numbers
  import opened Events
  import T = NmlTypes
  import Np = NmlParse
  import opened LegacyNml

  // ---------------------------------------------------------------------------------------------
  // What survives a write and a read

  function NormalizeNode(n: Node): Node
  {
    n.(interpolation := true)
  }

  function NormalizeTree(t: Tree): Tree
  {
    t.(nodes := Map(t.nodes, NormalizeNode))
  }

  function Map<X>(xs: seq<X>, f: X -> X): (r: seq<X>)
    ensures |r| == |xs| && forall i :: 0 <= i < |xs| ==> r[i] == f(xs[i])
  {
    if xs == [] then [] else [f(xs[0])] + Map(xs[1..], f)
  }

  function NormalizeParameters(p: Parameters): Parameters
  {
    p.(offset := Zeros, zoomLevel := ZoomAttribute(Some(ZoomText(p.zoomLevel))))
  }

  function Normalize(x: Nml): Nml
  {
    x.(parameters := NormalizeParameters(x.parameters), trees := Map(x.trees, NormalizeTree))
  }

  // ---------------------------------------------------------------------------------------------
  // Single elements

  /** Reading a node from any attribute map holding the thirteen texts `dump_node` writes. */
  lemma {:induction false} ParseNodeOf(n: Node, a: Attrs)
    requires "id" in a && a["id"] == IntToStr(n.id) && "radius" in a && a["radius"] == n.radius
    requires "x" in a && a["x"] == n.position.x && "y" in a && a["y"] == n.position.y && "z" in a && a["z"] == n.position.z
    requires "rotX" in a && a["rotX"] == n.rotation.x && "rotY" in a && a["rotY"] == n.rotation.y
    requires "rotZ" in a && a["rotZ"] == n.rotation.z
    requires "inVp" in a && a["inVp"] == IntToStr(n.inVp) && "inMag" in a && a["inMag"] == IntToStr(n.inMag)
    requires "bitDepth" in a && a["bitDepth"] == IntToStr(n.bitDepth)
    requires "interpolation" in a && a["interpolation"] == BoolToStr(n.interpolation)
    requires "time" in a && a["time"] == IntToStr(n.time)
    ensures ParseNode(LeafElement("node", a)) == Ok(NormalizeNode(n))
  {
    IntRoundTrip(n.id);
    IntRoundTrip(n.inVp);
    IntRoundTrip(n.inMag);
    IntRoundTrip(n.bitDepth);
    IntRoundTrip(n.time);
  }

  lemma {:induction false} NodeAttributesHead(n: Node)
    ensures var a := NodeElement(n).attrs;
      && "id" in a && a["id"] == IntToStr(n.id) && "radius" in a && a["radius"] == n.radius
      && "x" in a && a["x"] == n.position.x
  {
  }

  lemma {:induction false} NodeAttributesMiddle(n: Node)
    ensures var a := NodeElement(n).attrs;
      && "y" in a && a["y"] == n.position.y && "z" in a && a["z"] == n.position.z
      && "rotX" in a && a["rotX"] == n.rotation.x
  {
  }

  lemma {:induction false} NodeAttributesTail(n: Node)
    ensures var a := NodeElement(n).attrs;
      && "rotY" in a && a["rotY"] == n.rotation.y && "rotZ" in a && a["rotZ"] == n.rotation.z
      && "inVp" in a && a["inVp"] == IntToStr(n.inVp) && "inMag" in a && a["inMag"] == IntToStr(n.inMag)
      && "bitDepth" in a && a["bitDepth"] == IntToStr(n.bitDepth)
      && "interpolation" in a && a["interpolation"] == BoolToStr(n.interpolation)
      && "time" in a && a["time"] == IntToStr(n.time)
  {
  }

  /** A written node reads back as itself with its interpolation flag set. */
  lemma {:induction false} NodeRoundTrip(n: Node)
    ensures ParseNode(NodeElement(n)) == Ok(NormalizeNode(n))
  {
    NodeAttributesHead(n);
    NodeAttributesMiddle(n);
    NodeAttributesTail(n);
    ParseNodeOf(n, NodeElement(n).attrs);
  }

  lemma {:induction false} EdgeRoundTrip(e: Edge)
    ensures ParseEdge(EdgeElement(e)) == Ok(e)
  {
    IntRoundTrip(e.source);
    IntRoundTrip(e.target);
  }

  lemma {:induction false} BranchpointRoundTrip(b: Branchpoint)
    ensures ParseBranchpoint(BranchpointElement(b)) == Ok(b)
  {
    IntRoundTrip(b.id);
    IntRoundTrip(b.time);
  }

  lemma {:induction false} CommentRoundTrip(c: Comment)
    ensures ParseComment(CommentElement(c)) == Ok(c)
  {
    IntRoundTrip(c.node);
  }

  lemma {:induction false} GroupRoundTrip(g: Group)
    ensures ParseGroup(GroupElement(g)) == Ok(g)
  {
    IntRoundTrip(g.id);
  }

  // ---------------------------------------------------------------------------------------------
  // Lists and lookups

  /** Reading a list whose every element reads as the matching item gives exactly those items. */
  lemma {:induction false} ParseAllOf<U>(es: seq<Element>, f: Element -> Result<U, ParseError>, ys: seq<U>)
    requires |es| == |ys| && forall i :: 0 <= i < |es| ==> f(es[i]) == Ok(ys[i])
    ensures ParseAll(es, f) == Ok(ys)
  {
    var r := ParseAll(es, f);
    assert r.Ok?;
    assert forall i :: 0 <= i < |ys| ==> r.value[i] == ys[i] by {
      forall i | 0 <= i < |ys|
        ensures r.value[i] == ys[i]
      {
        assert f(es[i]) == Ok(r.value[i]);
      }
    }
    assert r.value == ys;
  }

  /** The written items of a list all read back. */
  lemma {:induction false} ElementsReadBack<X, U>(xs: seq<X>, dump: X -> Element, parse: Element -> Result<U, ParseError>, ys: seq<U>)
    requires |xs| == |ys| && forall i :: 0 <= i < |xs| ==> parse(dump(xs[i])) == Ok(ys[i])
    ensures ParseAll(Elements(xs, dump), parse) == Ok(ys)
  {
    ParseAllOf(Elements(xs, dump), parse, ys);
  }

  /** `find` returns the first child with the tag. */
  lemma {:induction false} FirstAt(cs: seq<Element>, tag: string, k: int)
    requires 0 <= k < |cs| && cs[k].tag == tag
    requires forall j :: 0 <= j < k ==> cs[j].tag != tag
    ensures FirstWithTag(cs, tag) == Some(cs[k])
  {
    if k > 0 {
      FirstAt(cs[1..], tag, k - 1);
    }
  }

  // ---------------------------------------------------------------------------------------------
  // Parameters

  lemma {:induction false} Vec3RoundTrip(tag: string, v: T.Vec3, kx: string, ky: string, kz: string)
    requires kx != ky && ky != kz && kx != kz
    ensures Np.ReadVec3(tag, Vec3Attributes(v, kx, ky, kz), kx, ky, kz) == Ok(v)
  {
  }

  /** Reading parameters from any element whose children are found as `dump_parameters` writes them. */
  lemma {:induction false} ParseParametersOf(e: Element, p: Parameters)
    requires p.name.Some?
    requires FindChild(e, "offset").None?
    requires FindChild(e, "editRotation") == Some(LeafElement("editRotation", Vec3Attributes(p.editRotation, "xRot", "yRot", "zRot")))
    requires FindChild(e, "zoomLevel") == Some(LeafElement("zoomLevel", map["zoom" := ZoomText(p.zoomLevel)]))
    requires FindChild(e, "experiment") == Some(LeafElement("experiment", map["name" := p.name.value]))
    requires FindChild(e, "scale") == Some(LeafElement("scale", Vec3Attributes(p.scale, "x", "y", "z")))
    requires FindChild(e, "time") == Some(LeafElement("time", map["ms" := IntToStr(p.time)]))
    requires FindChild(e, "editPosition") == Some(LeafElement("editPosition", Vec3Attributes(p.editPosition, "x", "y", "z")))
    ensures ParseParameters(e) == Ok(NormalizeParameters(p))
  {
    Vec3RoundTrip("editRotation", p.editRotation, "xRot", "yRot", "zRot");
    Vec3RoundTrip("scale", p.scale, "x", "y", "z");
    Vec3RoundTrip("editPosition", p.editPosition, "x", "y", "z");
    IntRoundTrip(p.time);
    assert ReadChildVec3Or(e, "editRotation", "xRot", "yRot", "zRot") == Ok(p.editRotation);
    assert RequiredVec3(e, "scale", "x", "y", "z") == Ok(p.scale);
    assert RequiredVec3(e, "editPosition", "x", "y", "z") == Ok(p.editPosition);
  }

  /** The six tags `dump_parameters` writes, in order. */
  predicate ParameterTags(cs: seq<Element>)
  {
    && |cs| == 6
    && cs[0].tag == "experiment" && cs[1].tag == "time" && cs[2].tag == "scale"
    && cs[3].tag == "editPosition" && cs[4].tag == "editRotation" && cs[5].tag == "zoomLevel"
  }

  lemma {:induction false} OffsetNotFound(cs: seq<Element>)
    requires ParameterTags(cs)
    ensures FirstWithTag(cs, "offset").None?
  {
  }

  lemma {:induction false} HeadTagsFound(cs: seq<Element>)
    requires ParameterTags(cs)
    ensures FirstWithTag(cs, "experiment") == Some(cs[0]) && FirstWithTag(cs, "time") == Some(cs[1])
    ensures FirstWithTag(cs, "scale") == Some(cs[2])
  {
    FirstAt(cs, "experiment", 0);
    FirstAt(cs, "time", 1);
    FirstAt(cs, "scale", 2);
  }

  lemma {:induction false} EditTagsFound(cs: seq<Element>)
    requires ParameterTags(cs)
    ensures FirstWithTag(cs, "editPosition") == Some(cs[3]) && FirstWithTag(cs, "editRotation") == Some(cs[4])
  {
    FirstAt(cs, "editPosition", 3);
    FirstAt(cs, "editRotation", 4);
  }

  lemma {:induction false} ZoomTagFound(cs: seq<Element>)
    requires ParameterTags(cs)
    ensures FirstWithTag(cs, "zoomLevel") == Some(cs[5])
  {
    FirstAt(cs, "zoomLevel", 5);
  }

  /** Written parameters read back, except that `offset` becomes zeros and `zoomLevel` its text. */
  lemma {:induction false} ParametersRoundTrip(p: Parameters)
    requires p.name.Some?
    ensures ParseParameters(ParametersElement(p)) == Ok(NormalizeParameters(p))
  {
    var e := ParametersElement(p);
    OffsetNotFound(e.children);
    HeadTagsFound(e.children);
    EditTagsFound(e.children);
    ZoomTagFound(e.children);
    ParseParametersOf(e, p);
  }

  // ---------------------------------------------------------------------------------------------
  // Trees

  lemma {:induction false} TreeAttributesFacts(t: Tree)
    ensures var a := TreeAttributes(t);
      && "id" in a && a["id"] == IntToStr(t.id) && "groupId" in a && a["groupId"] == IntToStr(t.groupId)
      && "name" in a && a["name"] == t.name && "colorr" !in a
  {
  }

  lemma {:induction false} TreeColorFacts(t: Tree)
    ensures var a := TreeAttributes(t);
      && "color.r" in a && a["color.r"] == t.color.r && "color.g" in a && a["color.g"] == t.color.g
      && "color.b" in a && a["color.b"] == t.color.b && "color.a" in a && a["color.a"] == t.color.a
  {
  }

  /** Reading a tree from any `thing` whose attributes and containers are as the corrected writer builds them. */
  lemma {:induction false} ParseTreeOf(e: Element, t: Tree)
    requires "id" in e.attrs && e.attrs["id"] == IntToStr(t.id)
    requires "groupId" in e.attrs && e.attrs["groupId"] == IntToStr(t.groupId)
    requires "name" in e.attrs && e.attrs["name"] == t.name && "colorr" !in e.attrs
    requires "color.r" in e.attrs && e.attrs["color.r"] == t.color.r && "color.g" in e.attrs && e.attrs["color.g"] == t.color.g
    requires "color.b" in e.attrs && e.attrs["color.b"] == t.color.b && "color.a" in e.attrs && e.attrs["color.a"] == t.color.a
    requires FindChild(e, "nodes") == Some(Element("nodes", map[], Elements(t.nodes, NodeElement)))
    requires FindChild(e, "edges") == Some(Element("edges", map[], Elements(t.edges, EdgeElement)))
    requires ParseAll(Elements(t.nodes, NodeElement), ParseNode) == Ok(Map(t.nodes, NormalizeNode))
    requires ParseAll(Elements(t.edges, EdgeElement), ParseEdge) == Ok(t.edges)
    ensures ParseTree(e) == Ok(NormalizeTree(t))
  {
    IntRoundTrip(t.id);
    IntRoundTrip(t.groupId);
  }

  lemma {:induction false} NodesReadBack(ns: seq<Node>)
    ensures ParseAll(Elements(ns, NodeElement), ParseNode) == Ok(Map(ns, NormalizeNode))
  {
    forall i | 0 <= i < |ns|
      ensures ParseNode(NodeElement(ns[i])) == Ok(NormalizeNode(ns[i]))
    {
      NodeRoundTrip(ns[i]);
    }
    ElementsReadBack(ns, NodeElement, ParseNode, Map(ns, NormalizeNode));
  }

  lemma {:induction false} EdgesReadBack(es: seq<Edge>)
    ensures ParseAll(Elements(es, EdgeElement), ParseEdge) == Ok(es)
  {
    forall i | 0 <= i < |es|
      ensures ParseEdge(EdgeElement(es[i])) == Ok(es[i])
    {
      EdgeRoundTrip(es[i]);
    }
    ElementsReadBack(es, EdgeElement, ParseEdge, es);
  }

  /** With the edge container tagged "edges", a written tree reads back with every node's flag set. */
  lemma {:induction false} CorrectedTreeRoundTrip(t: Tree)
    ensures ParseTree(CorrectedTreeElement(t)) == Ok(NormalizeTree(t))
  {
    var e := CorrectedTreeElement(t);
    TreeAttributesFacts(t);
    TreeColorFacts(t);
    FirstAt(e.children, "nodes", 0);
    FirstAt(e.children, "edges", 1);
    NodesReadBack(t.nodes);
    EdgesReadBack(t.edges);
    ParseTreeOf(e, t);
  }

  /** As written, no tree reads back: `parse_tree` finds no `edges` child and iterates None. */
  lemma {:induction false} WrittenTreeUnreadable(t: Tree)
    ensures ParseTree(TreeElement(t)).Err?
  {
    var e := TreeElement(t);
    assert e.children[0].tag == "nodes" && e.children[1].tag == "egdes";
    assert FindChild(e, "edges").None?;
  }

  // ---------------------------------------------------------------------------------------------
  // The `thing` elements of a document

  lemma {:induction false} ThingsAppend(a: seq<Element>, b: seq<Element>)
    ensures ThingsIn(a + b) == ThingsIn(a) + ThingsIn(b)
  {
    if a == [] {
      assert a + b == b;
    } else {
      assert (a + b)[0] == a[0] && (a + b)[1..] == a[1..] + b;
      ThingsAppend(a[1..], b);
      assert ThingsIn(a + b) == Things(a[0]) + (ThingsIn(a[1..]) + ThingsIn(b));
    }
  }

  /** Childless elements other than `thing` hold no `thing`. */
  lemma {:induction false} LeavesHoldNoThings(es: seq<Element>)
    requires forall i :: 0 <= i < |es| ==> es[i].tag != "thing" && es[i].children == []
    ensures ThingsIn(es) == []
  {
    if es != [] {
      LeavesHoldNoThings(es[1..]);
    }
  }

  /** A list of elements that are each the only `thing` in themselves is its own `thing` list. */
  lemma {:induction false} ThingsOfThings(es: seq<Element>)
    requires forall i :: 0 <= i < |es| ==> Things(es[i]) == [es[i]]
    ensures ThingsIn(es) == es
  {
    if es != [] {
      ThingsOfThings(es[1..]);
    }
  }

  lemma {:induction false} ContainerHoldsNoThings(tag: string, es: seq<Element>)
    requires tag != "thing"
    requires forall i :: 0 <= i < |es| ==> es[i].tag != "thing" && es[i].children == []
    ensures Things(Element(tag, map[], es)) == []
  {
    LeavesHoldNoThings(es);
  }

  /** A written tree is the only `thing` in itself. */
  lemma {:induction false} TreeIsOneThing(t: Tree, edgesTag: string)
    requires edgesTag != "thing"
    ensures Things(TreeElementWith(t, edgesTag)) == [TreeElementWith(t, edgesTag)]
  {
    var nodes := Element("nodes", map[], Elements(t.nodes, NodeElement));
    var edges := Element(edgesTag, map[], Elements(t.edges, EdgeElement));
    ContainerHoldsNoThings("nodes", Elements(t.nodes, NodeElement));
    ContainerHoldsNoThings(edgesTag, Elements(t.edges, EdgeElement));
    PairIsOneThing(TreeAttributes(t), nodes, edges);
  }

  /** A `thing` whose two children hold no things is the only thing in itself. */
  lemma PairIsOneThing(attrs: Attrs, a: Element, b: Element)
    requires Things(a) == [] && Things(b) == []
    ensures Things(Element("thing", attrs, [a, b])) == [Element("thing", attrs, [a, b])]
  {
    var cs := [a, b];
    assert cs[1..] == [b] && cs[1..][1..] == [];
    assert ThingsIn(cs[1..]) == Things(b) + ThingsIn([]) == [];
    assert ThingsIn(cs) == Things(a) + ThingsIn(cs[1..]) == [];
  }

  lemma {:induction false} ParametersHoldNoThings(p: Parameters)
    requires p.name.Some?
    ensures Things(ParametersElement(p)) == []
  {
    LeavesHoldNoThings(ParametersElement(p).children);
  }

  /** The `thing` elements of a written document are exactly its tree elements, in order. */
  lemma {:induction false} DocumentThings(x: Nml, trees: seq<Element>)
    requires x.parameters.name.Some?
    requires forall i :: 0 <= i < |trees| ==> Things(trees[i]) == [trees[i]]
    ensures Things(DocumentElement(x, trees)) == trees
  {
    var root := DocumentElement(x, trees);
    var p := ParametersElement(x.parameters);
    var b := Element("branchpoints", map[], Elements(x.branchpoints, BranchpointElement));
    var c := Element("comments", map[], Elements(x.comments, CommentElement));
    var g := Element("groups", map[], Elements(x.groups, GroupElement));
    ContainerHoldsNoThings("branchpoints", Elements(x.branchpoints, BranchpointElement));
    ContainerHoldsNoThings("comments", Elements(x.comments, CommentElement));
    ContainerHoldsNoThings("groups", Elements(x.groups, GroupElement));
    ParametersHoldNoThings(x.parameters);
    ThingsOfThings(trees);
    TailHoldsNoThings(b, c, g);
    assert root.children == [p] + trees + [b, c, g];
    ThingsAppend([p] + trees, [b, c, g]);
    ThingsAppend([p], trees);
    assert ThingsIn([p]) == Things(p) + ThingsIn([p][1..]) == [];
    assert Things(root) == [] + ThingsIn(root.children);
  }

  lemma {:induction false} TailHoldsNoThings(b: Element, c: Element, g: Element)
    requires Things(b) == [] && Things(c) == [] && Things(g) == []
    ensures ThingsIn([b, c, g]) == []
  {
    assert [b, c, g][1..] == [c, g] && [c, g][1..] == [g] && [g][1..] == [];
    assert ThingsIn([g]) == Things(g) + ThingsIn([]) == [];
    assert ThingsIn([c, g]) == Things(c) + ThingsIn([g]) == [];
  }

  // ---------------------------------------------------------------------------------------------
  // Whole documents

  /** The root's children: `parameters`, `n` trees, then the three containers. */
  predicate DocumentTags(cs: seq<Element>, n: nat)
  {
    && |cs| == n + 4
    && cs[0].tag == "parameters"
    && (forall j :: 1 <= j < n + 1 ==> cs[j].tag == "thing")
    && cs[n + 1].tag == "branchpoints" && cs[n + 2].tag == "comments" && cs[n + 3].tag == "groups"
  }

  lemma {:induction false} DocumentTagsFound(cs: seq<Element>, n: nat)
    requires DocumentTags(cs, n)
    ensures FirstWithTag(cs, "parameters") == Some(cs[0])
    ensures FirstWithTag(cs, "branchpoints") == Some(cs[n + 1])
    ensures FirstWithTag(cs, "comments") == Some(cs[n + 2])
    ensures FirstWithTag(cs, "groups") == Some(cs[n + 3])
  {
    FirstAt(cs, "parameters", 0);
    FirstAt(cs, "branchpoints", n + 1);
    FirstAt(cs, "comments", n + 2);
    FirstAt(cs, "groups", n + 3);
  }

  lemma ChildrenTags(p: Element, trees: seq<Element>, b: Element, c: Element, g: Element)
    requires p.tag == "parameters" && b.tag == "branchpoints" && c.tag == "comments" && g.tag == "groups"
    requires forall i :: 0 <= i < |trees| ==> trees[i].tag == "thing"
    ensures DocumentTags([p] + trees + [b, c, g], |trees|)
  {
    var cs := [p] + trees + [b, c, g];
    assert forall j :: 1 <= j < |trees| + 1 ==> cs[j] == trees[j - 1];
  }

  /** The four containers of a written document are found at their places. */
  lemma {:induction false} DocumentContainers(x: Nml, trees: seq<Element>)
    requires x.parameters.name.Some?
    requires forall i :: 0 <= i < |trees| ==> trees[i].tag == "thing"
    ensures var root := DocumentElement(x, trees); var n := |trees|;
      && FindChild(root, "parameters") == Some(root.children[0])
      && FindChild(root, "branchpoints") == Some(root.children[n + 1])
      && FindChild(root, "comments") == Some(root.children[n + 2])
      && FindChild(root, "groups") == Some(root.children[n + 3])
  {
    var p := ParametersElement(x.parameters);
    var b := Element("branchpoints", map[], Elements(x.branchpoints, BranchpointElement));
    var c := Element("comments", map[], Elements(x.comments, CommentElement));
    var g := Element("groups", map[], Elements(x.groups, GroupElement));
    ChildrenTags(p, trees, b, c, g);
    assert DocumentElement(x, trees).children == [p] + trees + [b, c, g];
    DocumentTagsFound([p] + trees + [b, c, g], |trees|);
  }

  /** Reading a document whose parts each read back. */
  lemma {:induction false} ParseNmlOf(x: Nml, trees: seq<Element>)
    requires x.parameters.name.Some?
    requires forall i :: 0 <= i < |trees| ==> trees[i].tag == "thing" && Things(trees[i]) == [trees[i]]
    requires ParseAll(trees, ParseTree) == Ok(Map(x.trees, NormalizeTree))
    ensures ParseNml(DocumentElement(x, trees)) == Ok(Normalize(x))
  {
    DocumentContainers(x, trees);
    DocumentThings(x, trees);
    ParametersRoundTrip(x.parameters);
    forall i | 0 <= i < |x.branchpoints|
      ensures ParseBranchpoint(BranchpointElement(x.branchpoints[i])) == Ok(x.branchpoints[i])
    {
      BranchpointRoundTrip(x.branchpoints[i]);
    }
    ElementsReadBack(x.branchpoints, BranchpointElement, ParseBranchpoint, x.branchpoints);
    forall i | 0 <= i < |x.comments|
      ensures ParseComment(CommentElement(x.comments[i])) == Ok(x.comments[i])
    {
      CommentRoundTrip(x.comments[i]);
    }
    ElementsReadBack(x.comments, CommentElement, ParseComment, x.comments);
    forall i | 0 <= i < |x.groups|
      ensures ParseGroup(GroupElement(x.groups[i])) == Ok(x.groups[i])
    {
      GroupRoundTrip(x.groups[i]);
    }
    ElementsReadBack(x.groups, GroupElement, ParseGroup, x.groups);
  }

  /**
   * With the edge container tagged "edges", a written document reads back except that `offset`
   * becomes zeros, `zoomLevel` becomes its text and every node's interpolation flag becomes true.
   */
  lemma CorrectedTreeReadable(t: Tree)
    ensures var e := CorrectedTreeElement(t); e.tag == "thing" && Things(e) == [e]
    ensures ParseTree(CorrectedTreeElement(t)) == Ok(NormalizeTree(t))
  {
    TreeIsOneThing(t, "edges");
    CorrectedTreeRoundTrip(t);
  }

  lemma {:induction false} CorrectedRoundTrip(x: Nml)
    requires x.parameters.name.Some?
    ensures ParseNml(CorrectedNmlElement(x)) == Ok(Normalize(x))
  {
    var trees := Elements(x.trees, CorrectedTreeElement);
    forall i | 0 <= i < |trees|
      ensures trees[i].tag == "thing" && Things(trees[i]) == [trees[i]]
      ensures ParseTree(CorrectedTreeElement(x.trees[i])) == Ok(NormalizeTree(x.trees[i]))
    {
      CorrectedTreeReadable(x.trees[i]);
    }
    ElementsReadBack(x.trees, CorrectedTreeElement, ParseTree, Map(x.trees, NormalizeTree));
    ParseNmlOf(x, trees);
  }

  /** As written, a document with at least one tree cannot be read back at all. */
  lemma {:induction false} WrittenDocumentUnreadable(x: Nml)
    requires x.parameters.name.Some? && |x.trees| > 0
    ensures ParseNml(NmlElement(x)).Err?
  {
    var trees := Elements(x.trees, TreeElement);
    forall i | 0 <= i < |trees|
      ensures Things(trees[i]) == [trees[i]]
    {
      TreeIsOneThing(x.trees[i], "egdes");
    }
    DocumentThings(x, trees);
    WrittenTreeUnreadable(x.trees[0]);
  }
}
