/**
 * The older reader and writer of wknml/__main__.py. It works on an in-memory element tree instead
 * of an event stream, and its policy differs from the main module: a missing optional attribute
 * becomes a zero-like default instead of None.
 *
 * Numbers are the same opaque tokens as elsewhere. A default that the code writes as the int `0`
 * is the token "0", and one that passes through `float(0)` is the token "0.0".
 */
module LegacyNml {
  import opened Wrappers
  import opened Numbers
  import opened Events
  import T = NmlTypes
  import Np = NmlParse

  type ParseError = Np.ParseError

  // ---------------------------------------------------------------------------------------------
  // The element tree (xml.etree.ElementTree)

  /** An element: its tag, its attributes and its children in document order. */
  datatype Element = Element(tag: string, attrs: Attrs, children: seq<Element>)

  /** The first element of `cs` with the given tag. */
  function FirstWithTag(cs: seq<Element>, tag: string): (r: Option<Element>)
    ensures r.Some? ==> r.value in cs && r.value.tag == tag
    ensures r.None? <==> forall i :: 0 <= i < |cs| ==> cs[i].tag != tag
  {
    if cs == [] then None
    else if cs[0].tag == tag then Some(cs[0])
    else FirstWithTag(cs[1..], tag)
  }

  /** `e.find(tag)`: the first direct child with that tag, or None. */
  function FindChild(e: Element, tag: string): Option<Element>
  {
    FirstWithTag(e.children, tag)
  }

  /** `e.find(tag)` whose result is then used: None there raises. */
  function Required(e: Element, tag: string): (r: Result<Element, ParseError>)
    ensures r.Ok? <==> FindChild(e, tag).Some?
    ensures r.Ok? ==> r.value == FindChild(e, tag).value
  {
    match FindChild(e, tag)
    case None => Err(Np.MissingElement(e.tag, tag))
    case Some(c) => Ok(c)
  }

  /** `e.iter("thing")`: the element itself when it matches, then its descendants in document order. */
  function Things(e: Element): seq<Element>
    decreases e, 1
  {
    (if e.tag == "thing" then [e] else []) + ThingsIn(e.children)
  }

  function ThingsIn(es: seq<Element>): seq<Element>
    decreases es, 0
  {
    if es == [] then [] else Things(es[0]) + ThingsIn(es[1..])
  }

  /** `[f(c) for c in es]`: every element read in order; the first error propagates. */
  function ParseAll<U>(es: seq<Element>, f: Element -> Result<U, ParseError>): (r: Result<seq<U>, ParseError>)
    ensures r.Ok? <==> forall i :: 0 <= i < |es| ==> f(es[i]).Ok?
    ensures r.Ok? ==> |r.value| == |es| && forall i :: 0 <= i < |es| ==> f(es[i]) == Ok(r.value[i])
  {
    if es == [] then Ok([])
    else
      var head :- f(es[0]);
      var tail :- ParseAll(es[1..], f);
      Ok([head] + tail)
  }

  /** The children a dump loop appends, one per item, in list order. */
  function Elements<X>(xs: seq<X>, f: X -> Element): (r: seq<Element>)
    ensures |r| == |xs|
    ensures forall i :: 0 <= i < |xs| ==> r[i] == f(xs[i])
  {
    if xs == [] then [] else Elements(xs[..|xs| - 1], f) + [f(xs[|xs| - 1])]
  }

  // ---------------------------------------------------------------------------------------------
  // Records (wknml/__main__.py:4-27)

  /** `zoomLevel`: the int 0 when the element is missing, else the attribute's text or None. */
  datatype Zoom = DefaultZoom | ZoomAttribute(text: Option<string>)

  datatype Parameters = Parameters(
    name: Option<string>,
    scale: T.Vec3,
    offset: T.Vec3,
    time: int,
    editPosition: T.Vec3,
    editRotation: T.Vec3,
    zoomLevel: Zoom)

  datatype Node = Node(
    id: int,
    radius: FloatToken,
    position: T.Vec3,
    rotation: T.Vec3,
    inVp: int,
    inMag: int,
    bitDepth: int,
    interpolation: bool,
    time: int)

  datatype Edge = Edge(source: int, target: int)

  datatype Tree = Tree(id: int, color: T.Color, name: string, groupId: int, nodes: seq<Node>, edges: seq<Edge>)

  datatype Branchpoint = Branchpoint(id: int, time: int)

  datatype Group = Group(id: int, name: string)

  datatype Comment = Comment(node: int, content: string)

  datatype Nml = Nml(parameters: Parameters, trees: seq<Tree>, branchpoints: seq<Branchpoint>,
                     comments: seq<Comment>, groups: seq<Group>)

  const Zeros: T.Vec3 := T.Vec3("0", "0", "0")

  // ---------------------------------------------------------------------------------------------
  // Reading attributes with defaults

  /** `int(e.get(key, default=d))` */
  function ReadIntOr(tag: string, a: Attrs, key: string, d: int): (r: Result<int, ParseError>)
    ensures key !in a ==> r == Ok(d)
    ensures key in a ==> r == Np.ReadInt(tag, a, key)
  {
    if key in a then Np.ReadInt(tag, a, key) else Ok(d)
  }

  /** `float(e.get(key, default=d))` */
  function ReadFloatOr(tag: string, a: Attrs, key: string, d: FloatToken): (r: Result<FloatToken, ParseError>)
    ensures key !in a ==> r == Ok(d)
    ensures key in a ==> r == Np.ReadFloat(tag, a, key)
  {
    if key in a then Np.ReadFloat(tag, a, key) else Ok(d)
  }

  function ReadColor(tag: string, a: Attrs, kr: string, kg: string, kb: string, ka: string): Result<T.Color, ParseError>
  {
    var r :- Np.ReadFloat(tag, a, kr);
    var g :- Np.ReadFloat(tag, a, kg);
    var b :- Np.ReadFloat(tag, a, kb);
    var alpha :- Np.ReadFloat(tag, a, ka);
    Ok(T.Color(r, g, b, alpha))
  }

  /** A vector whose element is optional (zero when missing) but whose three attributes are then required. */
  function ReadChildVec3Or(e: Element, tag: string, kx: string, ky: string, kz: string): (r: Result<T.Vec3, ParseError>)
    ensures FindChild(e, tag).None? ==> r == Ok(Zeros)
  {
    match FindChild(e, tag)
    case None => Ok(Zeros)
    case Some(c) => Np.ReadVec3(tag, c.attrs, kx, ky, kz)
  }

  // ---------------------------------------------------------------------------------------------
  // Parsing (wknml/__main__.py:30-151)

  /** The text of `zoomLevel`'s `zoom` attribute, or the int 0 when there is no `zoomLevel` element. */
  function ReadZoom(e: Element): (z: Zoom)
    ensures FindChild(e, "zoomLevel").None? <==> z == DefaultZoom
    ensures FindChild(e, "zoomLevel").Some? ==> z == ZoomAttribute(Get(FindChild(e, "zoomLevel").value.attrs, "zoom"))
  {
    match FindChild(e, "zoomLevel")
    case None => DefaultZoom
    case Some(z) => ZoomAttribute(Get(z.attrs, "zoom"))
  }

  /** A vector whose element and three attributes are all required. */
  function RequiredVec3(e: Element, tag: string, kx: string, ky: string, kz: string): (r: Result<T.Vec3, ParseError>)
    ensures FindChild(e, tag).None? ==> r.Err?
  {
    var c :- Required(e, tag);
    Np.ReadVec3(tag, c.attrs, kx, ky, kz)
  }

  /**
   * `parse_parameters` (wknml/__main__.py:30-67), in the order Python evaluates its reads.
   * `offset` and `editRotation` are zeros without their element and `zoomLevel` the int 0;
   * `experiment`, `scale`, `time` and `editPosition` are required.
   */
  function ParseParameters(e: Element): (r: Result<Parameters, ParseError>)
    ensures (|| FindChild(e, "experiment").None? || FindChild(e, "scale").None?
             || FindChild(e, "time").None? || FindChild(e, "editPosition").None?) ==> r.Err?
    ensures r.Ok? ==> ReadChildVec3Or(e, "offset", "x", "y", "z") == Ok(r.value.offset)
    ensures r.Ok? ==> ReadChildVec3Or(e, "editRotation", "xRot", "yRot", "zRot") == Ok(r.value.editRotation)
    ensures r.Ok? ==> r.value.zoomLevel == ReadZoom(e)
  {
    var offset :- ReadChildVec3Or(e, "offset", "x", "y", "z");
    var editRotation :- ReadChildVec3Or(e, "editRotation", "xRot", "yRot", "zRot");
    var zoomLevel := ReadZoom(e);
    var experiment :- Required(e, "experiment");
    var scale :- RequiredVec3(e, "scale", "x", "y", "z");
    var timeElement :- Required(e, "time");
    var time :- Np.ReadInt("time", timeElement.attrs, "ms");
    var editPosition :- RequiredVec3(e, "editPosition", "x", "y", "z");
    Ok(Parameters(Get(experiment.attrs, "name"), scale, offset, time, editPosition, editRotation, zoomLevel))
  }

  /** A node's rotation: each component is `float(get(key, default=0))`. */
  function ReadRotation(a: Attrs): (r: Result<T.Vec3, ParseError>)
    ensures r.Ok? ==> "rotX" !in a ==> r.value.x == "0.0"
    ensures r.Ok? ==> "rotY" !in a ==> r.value.y == "0.0"
    ensures r.Ok? ==> "rotZ" !in a ==> r.value.z == "0.0"
  {
    var x :- ReadFloatOr("node", a, "rotX", "0.0");
    var y :- ReadFloatOr("node", a, "rotY", "0.0");
    var z :- ReadFloatOr("node", a, "rotZ", "0.0");
    Ok(T.Vec3(x, y, z))
  }

  /**
   * `parse_node` (wknml/__main__.py:70-89). `id`, `radius`, the position and `time` are required;
   * the rotation components default to 0.0, `inVp` and `inMag` to 0, `bitDepth` to 8, and
   * `interpolation` is true unless the attribute is written empty.
   */
  function ParseNode(e: Element): (r: Result<Node, ParseError>)
    ensures (|| "id" !in e.attrs || "radius" !in e.attrs || "x" !in e.attrs || "y" !in e.attrs
             || "z" !in e.attrs || "time" !in e.attrs) ==> r.Err?
    ensures r.Ok? ==> ReadRotation(e.attrs) == Ok(r.value.rotation)
    ensures r.Ok? ==> "inVp" !in e.attrs ==> r.value.inVp == 0
    ensures r.Ok? ==> "inMag" !in e.attrs ==> r.value.inMag == 0
    ensures r.Ok? ==> "bitDepth" !in e.attrs ==> r.value.bitDepth == 8
    ensures r.Ok? ==> (r.value.interpolation <==> "interpolation" !in e.attrs || e.attrs["interpolation"] != "")
  {
    var a := e.attrs;
    var id :- Np.ReadInt("node", a, "id");
    var radius :- Np.ReadFloat("node", a, "radius");
    var position :- Np.ReadVec3("node", a, "x", "y", "z");
    var rotation :- ReadRotation(a);
    var inVp :- ReadIntOr("node", a, "inVp", 0);
    var inMag :- ReadIntOr("node", a, "inMag", 0);
    var bitDepth :- ReadIntOr("node", a, "bitDepth", 8);
    var interpolation := if "interpolation" in a then ParseBool(a["interpolation"]) else true;
    var time :- Np.ReadInt("node", a, "time");
    Ok(Node(id, radius, position, rotation, inVp, inMag, bitDepth, interpolation, time))
  }

  /** `parse_edge` (wknml/__main__.py:92-93) */
  function ParseEdge(e: Element): (r: Result<Edge, ParseError>)
    ensures "source" !in e.attrs || "target" !in e.attrs ==> r.Err?
  {
    var source :- Np.ReadInt("edge", e.attrs, "source");
    var target :- Np.ReadInt("edge", e.attrs, "target");
    Ok(Edge(source, target))
  }

  /**
   * `parse_tree` (wknml/__main__.py:96-126). The name is `name`, else `comment`, else empty; the
   * colour is the concatenated form, else the dotted form, else opaque black; the group is 1 by
   * default. `nodes` and `edges` are iterated, so a tree without either child cannot be read.
   */
  function ParseTree(e: Element): (r: Result<Tree, ParseError>)
    ensures FindChild(e, "nodes").None? || FindChild(e, "edges").None? ==> r.Err?
    ensures r.Ok? ==> r.value.name == if "name" in e.attrs then e.attrs["name"] else if "comment" in e.attrs then e.attrs["comment"] else ""
    ensures r.Ok? ==> "color.r" !in e.attrs && "colorr" !in e.attrs ==> r.value.color == T.Color("0", "0", "0", "1")
    ensures r.Ok? ==> "colorr" in e.attrs ==> ReadColor("thing", e.attrs, "colorr", "colorg", "colorb", "colora") == Ok(r.value.color)
    ensures r.Ok? ==> "groupId" !in e.attrs ==> r.value.groupId == 1
    ensures r.Ok? ==> ParseAll(FindChild(e, "nodes").value.children, ParseNode) == Ok(r.value.nodes)
    ensures r.Ok? ==> ParseAll(FindChild(e, "edges").value.children, ParseEdge) == Ok(r.value.edges)
  {
    var a := e.attrs;
    var name := if "name" in a then a["name"] else if "comment" in a then a["comment"] else "";
    var dotted :- if "color.r" in a then ReadColor("thing", a, "color.r", "color.g", "color.b", "color.a")
                  else Ok(T.Color("0", "0", "0", "1"));
    var color :- if "colorr" in a then ReadColor("thing", a, "colorr", "colorg", "colorb", "colora") else Ok(dotted);
    var nodesElement :- Required(e, "nodes");
    var nodes :- ParseAll(nodesElement.children, ParseNode);
    var edgesElement :- Required(e, "edges");
    var edges :- ParseAll(edgesElement.children, ParseEdge);
    var id :- Np.ReadInt("thing", a, "id");
    var groupId :- ReadIntOr("thing", a, "groupId", 1);
    Ok(Tree(id, color, name, groupId, nodes, edges))
  }

  /** `parse_branchpoint` (wknml/__main__.py:129-130) */
  function ParseBranchpoint(e: Element): (r: Result<Branchpoint, ParseError>)
    ensures "id" !in e.attrs || "time" !in e.attrs ==> r.Err?
  {
    var id :- Np.ReadInt("branchpoint", e.attrs, "id");
    var time :- Np.ReadInt("branchpoint", e.attrs, "time");
    Ok(Branchpoint(id, time))
  }

  /** `parse_comment` (wknml/__main__.py:133-134) */
  function ParseComment(e: Element): (r: Result<Comment, ParseError>)
    ensures r.Ok? ==> r.value.content == if "content" in e.attrs then e.attrs["content"] else ""
  {
    var node :- Np.ReadInt("comment", e.attrs, "node");
    Ok(Comment(node, if "content" in e.attrs then e.attrs["content"] else ""))
  }

  /** `parse_group` (wknml/__main__.py:137-138) */
  function ParseGroup(e: Element): (r: Result<Group, ParseError>)
    ensures r.Ok? ==> r.value.name == if "name" in e.attrs then e.attrs["name"] else ""
  {
    var id :- Np.ReadInt("group", e.attrs, "id");
    Ok(Group(id, if "name" in e.attrs then e.attrs["name"] else ""))
  }

  /** The groups: one default group without a `groups` element, else one flat group per child of it. */
  function ReadGroups(root: Element): (r: Result<seq<Group>, ParseError>)
    ensures FindChild(root, "groups").None? ==> r == Ok([Group(1, "")])
    ensures FindChild(root, "groups").Some? ==> r == ParseAll(FindChild(root, "groups").value.children, ParseGroup)
  {
    match FindChild(root, "groups")
    case None => Ok([Group(1, "")])
    case Some(g) => ParseAll(g.children, ParseGroup)
  }

  /** A required container whose children are all read with `f`. */
  function ReadContainer<U>(root: Element, tag: string, f: Element -> Result<U, ParseError>): (r: Result<seq<U>, ParseError>)
    ensures FindChild(root, tag).None? ==> r.Err?
    ensures FindChild(root, tag).Some? ==> r == ParseAll(FindChild(root, tag).value.children, f)
  {
    var c :- Required(root, tag);
    ParseAll(c.children, f)
  }

  /**
   * `parse_nml` (wknml/__main__.py:141-151). `parameters`, `branchpoints` and `comments` are
   * required. The trees are every `thing` in the document, in document order.
   */
  function ParseNml(root: Element): (r: Result<Nml, ParseError>)
    ensures (|| FindChild(root, "parameters").None? || FindChild(root, "branchpoints").None?
             || FindChild(root, "comments").None?) ==> r.Err?
    ensures r.Ok? ==> ReadGroups(root) == Ok(r.value.groups)
    ensures r.Ok? ==> ParseAll(Things(root), ParseTree) == Ok(r.value.trees)
    ensures r.Ok? ==> ParseParameters(FindChild(root, "parameters").value) == Ok(r.value.parameters)
  {
    var groups :- ReadGroups(root);
    var parametersElement :- Required(root, "parameters");
    var parameters :- ParseParameters(parametersElement);
    var trees :- ParseAll(Things(root), ParseTree);
    var branchpoints :- ReadContainer(root, "branchpoints", ParseBranchpoint);
    var comments :- ReadContainer(root, "comments", ParseComment);
    Ok(Nml(parameters, trees, branchpoints, comments, groups))
  }

  // ---------------------------------------------------------------------------------------------
  // Writing (wknml/__main__.py:154-270)

  /** `str(zoomLevel)`: "0" for the default int, "None" for a missing attribute, else the text. */
  function ZoomText(z: Zoom): string
  {
    match z
    case DefaultZoom => IntToStr(0)
    case ZoomAttribute(None) => "None"
    case ZoomAttribute(Some(text)) => text
  }

  function Vec3Attributes(v: T.Vec3, kx: string, ky: string, kz: string): Attrs
  {
    map[kx := FloatToStr(v.x), ky := FloatToStr(v.y), kz := FloatToStr(v.z)]
  }

  function LeafElement(tag: string, attrs: Attrs): Element
  {
    Element(tag, attrs, [])
  }

  /**
   * `dump_parameters` (wknml/__main__.py:154-186): `experiment`, `time`, `scale`, `editPosition`,
   * `editRotation` and `zoomLevel`, in that order; `offset` is not written. A None name cannot be
   * an attribute value, so the name must be present.
   */
  function ParametersElement(p: Parameters): Element
    requires p.name.Some?
  {
    Element("parameters", map[], [
      LeafElement("experiment", map["name" := p.name.value]),
      LeafElement("time", map["ms" := IntToStr(p.time)]),
      LeafElement("scale", Vec3Attributes(p.scale, "x", "y", "z")),
      LeafElement("editPosition", Vec3Attributes(p.editPosition, "x", "y", "z")),
      LeafElement("editRotation", Vec3Attributes(p.editRotation, "xRot", "yRot", "zRot")),
      LeafElement("zoomLevel", map["zoom" := ZoomText(p.zoomLevel)])])
  }

  /** `dump_node` (wknml/__main__.py:189-207): all thirteen attributes, always. */
  function NodeElement(n: Node): Element
  {
    LeafElement("node", map[
      "id" := IntToStr(n.id), "radius" := FloatToStr(n.radius),
      "x" := FloatToStr(n.position.x), "y" := FloatToStr(n.position.y), "z" := FloatToStr(n.position.z),
      "rotX" := FloatToStr(n.rotation.x), "rotY" := FloatToStr(n.rotation.y), "rotZ" := FloatToStr(n.rotation.z),
      "inVp" := IntToStr(n.inVp), "inMag" := IntToStr(n.inMag), "bitDepth" := IntToStr(n.bitDepth),
      "interpolation" := BoolToStr(n.interpolation), "time" := IntToStr(n.time)])
  }

  /** `dump_edge` (wknml/__main__.py:210-211) */
  function EdgeElement(e: Edge): Element
  {
    LeafElement("edge", map["source" := IntToStr(e.source), "target" := IntToStr(e.target)])
  }

  function TreeAttributes(t: Tree): Attrs
  {
    map["id" := IntToStr(t.id), "groupId" := IntToStr(t.groupId),
        "color.r" := FloatToStr(t.color.r), "color.g" := FloatToStr(t.color.g),
        "color.b" := FloatToStr(t.color.b), "color.a" := FloatToStr(t.color.a),
        "name" := t.name]
  }

  /** A `thing` with its `nodes` container and, under `edgesTag`, its edge container. */
  function TreeElementWith(t: Tree, edgesTag: string): Element
  {
    Element("thing", TreeAttributes(t), [
      Element("nodes", map[], Elements(t.nodes, NodeElement)),
      Element(edgesTag, map[], Elements(t.edges, EdgeElement))])
  }

  /** `dump_tree` as written (wknml/__main__.py:214-233): the edge container is tagged "egdes". */
  function TreeElement(t: Tree): Element
  {
    TreeElementWith(t, "egdes")
  }

  /** `dump_tree` with the edge container tagged "edges", the tag `parse_tree` looks for. */
  function CorrectedTreeElement(t: Tree): Element
  {
    TreeElementWith(t, "edges")
  }

  /** `dump_branchpoint` (wknml/__main__.py:236-239) */
  function BranchpointElement(b: Branchpoint): Element
  {
    LeafElement("branchpoint", map["id" := IntToStr(b.id), "time" := IntToStr(b.time)])
  }

  /** `dump_comment` (wknml/__main__.py:242-245) */
  function CommentElement(c: Comment): Element
  {
    LeafElement("comment", map["node" := IntToStr(c.node), "content" := c.content])
  }

  /** `dump_group` (wknml/__main__.py:248-249) */
  function GroupElement(g: Group): Element
  {
    LeafElement("group", map["id" := IntToStr(g.id), "name" := g.name])
  }

  /** The `things` root: parameters, the given tree elements, then the three containers in list order. */
  function DocumentElement(x: Nml, trees: seq<Element>): Element
    requires x.parameters.name.Some?
  {
    Element("things", map[], [ParametersElement(x.parameters)] + trees + [
      Element("branchpoints", map[], Elements(x.branchpoints, BranchpointElement)),
      Element("comments", map[], Elements(x.comments, CommentElement)),
      Element("groups", map[], Elements(x.groups, GroupElement))])
  }

  /** `dump_nml` as written (wknml/__main__.py:252-270). */
  function NmlElement(x: Nml): Element
    requires x.parameters.name.Some?
  {
    DocumentElement(x, Elements(x.trees, TreeElement))
  }

  /** `dump_nml` over the corrected `dump_tree`. */
  function CorrectedNmlElement(x: Nml): Element
    requires x.parameters.name.Some?
  {
    DocumentElement(x, Elements(x.trees, CorrectedTreeElement))
  }

  /** `for x in xs: container.append(f(x))`: the children a container receives, in list order. */
  method AppendAll<X>(xs: seq<X>, f: X -> Element) returns (children: seq<Element>)
    ensures children == Elements(xs, f)
  {
    children := [];
    for i := 0 to |xs|
      invariant children == Elements(xs[..i], f)
    {
      assert xs[..i + 1][..i] == xs[..i];
      children := children + [f(xs[i])];
    }
    assert xs[..|xs|] == xs;
  }

  /** `dump_tree`: a `thing` element whose `nodes` and `egdes` containers receive one child per node or edge. */
  method DumpTree(t: Tree) returns (e: Element)
    ensures e == TreeElement(t)
  {
    var nodes := AppendAll(t.nodes, NodeElement);
    var edges := AppendAll(t.edges, EdgeElement);
    e := Element("thing", TreeAttributes(t), [Element("nodes", map[], nodes), Element("egdes", map[], edges)]);
  }

  /** The loop of `dump_nml` over the trees: one `dump_tree` element per tree, in list order. */
  method DumpTrees(ts: seq<Tree>) returns (trees: seq<Element>)
    ensures trees == Elements(ts, TreeElement)
  {
    trees := [];
    for i := 0 to |ts|
      invariant trees == Elements(ts[..i], TreeElement)
    {
      var e := DumpTree(ts[i]);
      assert ts[..i + 1][..i] == ts[..i];
      trees := trees + [e];
    }
    assert ts[..|ts|] == ts;
  }

  /** `dump_nml`: the root receives the parameters and one element per tree, then the three filled containers. */
  method DumpNml(x: Nml) returns (root: Element)
    requires x.parameters.name.Some?
    ensures root == NmlElement(x)
  {
    var trees := DumpTrees(x.trees);
    var branchpoints := AppendAll(x.branchpoints, BranchpointElement);
    var comments := AppendAll(x.comments, CommentElement);
    var groups := AppendAll(x.groups, GroupElement);
    root := Element("things", map[], [ParametersElement(x.parameters)] + trees + [
      Element("branchpoints", map[], branchpoints),
      Element("comments", map[], comments),
      Element("groups", map[], groups)]);
  }
}
