/**
 * The streaming NML reader `parse_nml` and its per-tag helpers (wknml/__init__.py:72-291).
 *
 * Each `__parse_*` helper is a function from the attributes of one tag to a record, or to the
 * error Python would raise.  The reader itself is specified by `Step`, one start or end event
 * applied to the reader's state, and `ParseEvents`, the whole stream; the method `ParseNml`
 * is the loop of the source, with its explicit stacks, proved to compute `ParseEvents`.
 */
module NmlParse {
  import opened Wrappers
  import opened Numbers
  import opened Events
  import opened NmlTypes

  /** Everything `parse_nml` can raise. */
  datatype ParseError =
    | Malformed                                   // the lexer rejects the stream (unbalanced tags, empty input)
    | MissingElement(parent: string, tag: string) // `find` returned None and the code dereferenced it
    | MissingAttribute(tag: string, attr: string) // `int(None)` / `float(None)`: TypeError
    | InvalidNumber(tag: string, attr: string)    // `int(text)` / `float(text)`: ValueError
    | OutsideThing(tag: string)                   // the assertion on a node or edge without an open thing

  // ---------------------------------------------------------------------------------------------
  // Attribute conversions

  /** `int(elem.get(key))` */
  function ReadInt(tag: string, a: Attrs, key: string): Result<int, ParseError>
  {
    if key !in a then Err(MissingAttribute(tag, key))
    else match ParseInt(a[key])
      case None => Err(InvalidNumber(tag, key))
      case Some(i) => Ok(i)
  }

  /** `int(elem.get(key)) if elem.get(key) is not None else None` */
  function ReadOptionalInt(tag: string, a: Attrs, key: string): Result<Option<int>, ParseError>
  {
    if key !in a then Ok(None)
    else match ReadInt(tag, a, key)
      case Err(e) => Err(e)
      case Ok(i) => Ok(Some(i))
  }

  /** `float(elem.get(key))` */
  function ReadFloat(tag: string, a: Attrs, key: string): Result<FloatToken, ParseError>
  {
    if key !in a then Err(MissingAttribute(tag, key))
    else match ParseFloat(a[key])
      case None => Err(InvalidNumber(tag, key))
      case Some(f) => Ok(f)
  }

  /** `float(elem.get(key)) if elem.get(key) is not None else None` */
  function ReadOptionalFloat(tag: string, a: Attrs, key: string): Result<Option<FloatToken>, ParseError>
  {
    if key !in a then Ok(None)
    else match ReadFloat(tag, a, key)
      case Err(e) => Err(e)
      case Ok(f) => Ok(Some(f))
  }

  /** `(float(elem.get(kx)), float(elem.get(ky)), float(elem.get(kz)))`, the first failure winning. */
  function ReadVec3(tag: string, a: Attrs, kx: string, ky: string, kz: string): Result<Vec3, ParseError>
  {
    var x := ReadFloat(tag, a, kx);
    var y := ReadFloat(tag, a, ky);
    var z := ReadFloat(tag, a, kz);
    if x.Err? then Err(x.error)
    else if y.Err? then Err(y.error)
    else if z.Err? then Err(z.error)
    else Ok(Vec3(x.value, y.value, z.value))
  }

  /** A triple read only when its first attribute is present. */
  function ReadOptionalVec3(tag: string, a: Attrs, kx: string, ky: string, kz: string): Result<Option<Vec3>, ParseError>
  {
    if kx !in a then Ok(None)
    else match ReadVec3(tag, a, kx, ky, kz)
      case Err(e) => Err(e)
      case Ok(v) => Ok(Some(v))
  }

  // ---------------------------------------------------------------------------------------------
  // The per-tag helpers. Python evaluates the constructor's arguments left to right, so the
  // first conversion that raises, in that order, is the error reported.

  /** `__parse_node` (wknml/__init__.py:140-169) */
  function ParseNode(a: Attrs): Result<Node, ParseError>
  {
    var rotation := ReadOptionalVec3("node", a, "rotX", "rotY", "rotZ");
    var id := ReadInt("node", a, "id");
    var radius := ReadOptionalFloat("node", a, "radius");
    var position := ReadVec3("node", a, "x", "y", "z");
    var inVp := ReadOptionalInt("node", a, "inVp");
    var inMag := ReadOptionalInt("node", a, "inMag");
    var bitDepth := ReadOptionalInt("node", a, "bitDepth");
    var interpolation := if "interpolation" in a then Some(ParseBool(a["interpolation"])) else None;
    var time := ReadOptionalInt("node", a, "time");
    if rotation.Err? then Err(rotation.error)
    else if id.Err? then Err(id.error)
    else if radius.Err? then Err(radius.error)
    else if position.Err? then Err(position.error)
    else if inVp.Err? then Err(inVp.error)
    else if inMag.Err? then Err(inMag.error)
    else if bitDepth.Err? then Err(bitDepth.error)
    else if time.Err? then Err(time.error)
    else Ok(Node(id.value, position.value, radius.value, rotation.value, inVp.value, inMag.value,
                 bitDepth.value, interpolation, time.value))
  }

  /** id, x, y and z are required; the position is their text. */
  lemma NodeRequiredAttributes(a: Attrs, r: Result<Node, ParseError>)
    requires r == ParseNode(a)
    ensures "id" !in a || "x" !in a || "y" !in a || "z" !in a ==> r.Err?
    ensures r.Ok? ==> ParseInt(a["id"]) == Some(r.value.id)
    ensures r.Ok? ==> r.value.position.x == a["x"] && r.value.position.y == a["y"] && r.value.position.z == a["z"]
  {
  }

  /** A rotation is read only when rotX is present, and then needs rotY and rotZ. */
  lemma NodeRotation(a: Attrs, r: Result<Node, ParseError>)
    requires r == ParseNode(a)
    ensures r.Ok? ==> (r.value.rotation.Some? <==> "rotX" in a)
    ensures "rotX" in a && ("rotY" !in a || "rotZ" !in a) ==> r.Err?
  {
  }

  /** Every other optional attribute is None when absent and converted when present. */
  lemma NodeOptionalAttributes(a: Attrs, r: Result<Node, ParseError>)
    requires r == ParseNode(a)
    ensures r.Ok? ==> r.value.radius == (if "radius" in a then ParseFloat(a["radius"]) else None)
    ensures r.Ok? ==> r.value.inVp == (if "inVp" in a then ParseInt(a["inVp"]) else None)
    ensures r.Ok? ==> r.value.inMag == (if "inMag" in a then ParseInt(a["inMag"]) else None)
    ensures r.Ok? ==> r.value.bitDepth == (if "bitDepth" in a then ParseInt(a["bitDepth"]) else None)
    ensures r.Ok? ==> r.value.time == (if "time" in a then ParseInt(a["time"]) else None)
  {
  }

  /** `bool(text)`: every non-empty text, "False" included, reads as true; only the empty text reads as false. */
  lemma NodeInterpolation(a: Attrs, r: Result<Node, ParseError>)
    requires r == ParseNode(a)
    ensures r.Ok? ==> (r.value.interpolation.Some? <==> "interpolation" in a)
    ensures r.Ok? && "interpolation" in a ==> (r.value.interpolation.value <==> |a["interpolation"]| > 0)
  {
  }

  /** `__parse_edge` (wknml/__init__.py:172-173) */
  function ParseEdge(a: Attrs): Result<Edge, ParseError>
  {
    var source := ReadInt("edge", a, "source");
    var target := ReadInt("edge", a, "target");
    if source.Err? then Err(source.error)
    else if target.Err? then Err(target.error)
    else Ok(Edge(source.value, target.value))
  }

  lemma EdgeRules(a: Attrs, r: Result<Edge, ParseError>)
    requires r == ParseEdge(a)
    ensures r.Ok? <==> "source" in a && "target" in a && ParseInt(a["source"]).Some? && ParseInt(a["target"]).Some?
    ensures r.Ok? ==> Some(r.value.source) == ParseInt(a["source"]) && Some(r.value.target) == ParseInt(a["target"])
  {
  }

  /** Four float attributes read as a colour, when the first one is present. */
  function ReadOptionalColor(a: Attrs, kr: string, kg: string, kb: string, ka: string): Result<Option<Color>, ParseError>
  {
    if kr !in a then Ok(None)
    else
      var r := ReadFloat("thing", a, kr);
      var g := ReadFloat("thing", a, kg);
      var b := ReadFloat("thing", a, kb);
      var alpha := ReadFloat("thing", a, ka);
      if r.Err? then Err(r.error)
      else if g.Err? then Err(g.error)
      else if b.Err? then Err(b.error)
      else if alpha.Err? then Err(alpha.error)
      else Ok(Some(Color(r.value, g.value, b.value, alpha.value)))
  }

  /** `int(get("groupId", default=-1))`, a ValueError also giving -1. */
  function GroupIdOrMinusOne(a: Attrs): int
  {
    if "groupId" in a && ParseInt(a["groupId"]).Some? then ParseInt(a["groupId"]).value else -1
  }

  /** `__parse_tree` (wknml/__init__.py:176-210): the tree's own attributes; nodes and edges follow. */
  function ParseTree(a: Attrs): Result<Tree, ParseError>
  {
    var name := if "name" in a then Some(a["name"]) else Get(a, "comment");
    var dotted := ReadOptionalColor(a, "color.r", "color.g", "color.b", "color.a");
    var concatenated := ReadOptionalColor(a, "colorr", "colorg", "colorb", "colora");
    var groupId := GroupIdOrMinusOne(a);
    var id := ReadInt("thing", a, "id");
    if dotted.Err? then Err(dotted.error)
    else if concatenated.Err? then Err(concatenated.error)
    else if id.Err? then Err(id.error)
    else
      var color := if concatenated.value.Some? then concatenated.value else dotted.value;
      Ok(Tree(id.value, color, name, [], [], if groupId >= 0 then Some(groupId) else None))
  }

  /** The colour's four components are the texts of the four attributes. */
  predicate ColorFrom(c: Color, a: Attrs, kr: string, kg: string, kb: string, ka: string)
  {
    kr in a && kg in a && kb in a && ka in a && c.r == a[kr] && c.g == a[kg] && c.b == a[kb] && c.a == a[ka]
  }

  /** A tree starts without nodes or edges; its id is required; `name` overrides the legacy `comment`. */
  lemma TreeIdAndName(a: Attrs, r: Result<Tree, ParseError>)
    requires r == ParseTree(a)
    ensures r.Ok? ==> r.value.nodes == [] && r.value.edges == []
    ensures "id" !in a ==> r.Err?
    ensures r.Ok? ==> ParseInt(a["id"]) == Some(r.value.id)
    ensures r.Ok? ==> r.value.name == (if "name" in a then Some(a["name"]) else if "comment" in a then Some(a["comment"]) else None)
  {
  }

  /** The concatenated `colorr..` form is read after the dotted `color.*` one and wins; neither gives None. */
  lemma TreeColor(a: Attrs, r: Result<Tree, ParseError>)
    requires r == ParseTree(a)
    ensures r.Ok? ==> (r.value.color.Some? <==> "color.r" in a || "colorr" in a)
    ensures r.Ok? && "colorr" in a ==> ColorFrom(r.value.color.value, a, "colorr", "colorg", "colorb", "colora")
    ensures r.Ok? && "colorr" !in a && "color.r" in a ==> ColorFrom(r.value.color.value, a, "color.r", "color.g", "color.b", "color.a")
  {
    ColorRead(a, "color.r", "color.g", "color.b", "color.a");
    ColorRead(a, "colorr", "colorg", "colorb", "colora");
  }

  /** A colour read without error is present exactly when its first key is, and holds the four texts. */
  lemma ColorRead(a: Attrs, kr: string, kg: string, kb: string, ka: string)
    ensures var c := ReadOptionalColor(a, kr, kg, kb, ka);
      c.Ok? ==> (c.value.Some? <==> kr in a) && (c.value.Some? ==> ColorFrom(c.value.value, a, kr, kg, kb, ka))
  {
  }

  /** A missing, non-integer or negative groupId is None; a non-negative one is kept. */
  lemma TreeGroupId(a: Attrs, r: Result<Tree, ParseError>)
    requires r == ParseTree(a)
    ensures r.Ok? ==> (r.value.groupId ==
      (if "groupId" in a && ParseInt(a["groupId"]).Some? && ParseInt(a["groupId"]).value >= 0 then ParseInt(a["groupId"]) else None))
  {
  }

  /** Whatever the groupId text, it never makes the tree fail to parse. */
  lemma TreeGroupIdNeverRaises(a: Attrs, text: string)
    ensures ParseTree(a).Ok? <==> ParseTree(a["groupId" := text]).Ok?
  {
    var b := a["groupId" := text];
    // every other key read here starts with another letter
    assert "groupId"[0] == 'g' && "id"[0] == 'i';
    assert "color.r"[0] == "color.g"[0] == "color.b"[0] == "color.a"[0] == 'c';
    assert "colorr"[0] == "colorg"[0] == "colorb"[0] == "colora"[0] == 'c';
    SameColor(a, b, "color.r", "color.g", "color.b", "color.a");
    SameColor(a, b, "colorr", "colorg", "colorb", "colora");
    assert ReadInt("thing", a, "id") == ReadInt("thing", b, "id");
  }

  /** Two attribute maps that agree on the key `k`. */
  predicate SameAt(a: Attrs, b: Attrs, k: string)
  {
    (k in a <==> k in b) && (k in a ==> a[k] == b[k])
  }

  /** The colour read from four keys depends on those keys only. */
  lemma SameColor(a: Attrs, b: Attrs, kr: string, kg: string, kb: string, ka: string)
    requires SameAt(a, b, kr) && SameAt(a, b, kg) && SameAt(a, b, kb) && SameAt(a, b, ka)
    ensures ReadOptionalColor(a, kr, kg, kb, ka) == ReadOptionalColor(b, kr, kg, kb, ka)
  {
    if kr in a {
      assert ReadFloat("thing", a, kr) == ReadFloat("thing", b, kr);
      assert ReadFloat("thing", a, kg) == ReadFloat("thing", b, kg);
      assert ReadFloat("thing", a, kb) == ReadFloat("thing", b, kb);
      assert ReadFloat("thing", a, ka) == ReadFloat("thing", b, ka);
    }
  }

  /** `__parse_branchpoint` (wknml/__init__.py:213-219) */
  function ParseBranchpoint(a: Attrs): Result<Branchpoint, ParseError>
  {
    var id := ReadInt("branchpoint", a, "id");
    var time := ReadOptionalInt("branchpoint", a, "time");
    if id.Err? then Err(id.error)
    else if time.Err? then Err(time.error)
    else Ok(Branchpoint(id.value, time.value))
  }

  lemma BranchpointRules(a: Attrs, r: Result<Branchpoint, ParseError>)
    requires r == ParseBranchpoint(a)
    ensures r.Ok? ==> "id" in a && ParseInt(a["id"]) == Some(r.value.id)
    ensures r.Ok? ==> r.value.time == (if "time" in a then ParseInt(a["time"]) else None)
  {
  }

  /** `__parse_comment` (wknml/__init__.py:222-225) */
  function ParseComment(a: Attrs): Result<Comment, ParseError>
  {
    match ReadInt("comment", a, "node")
    case Err(e) => Err(e)
    case Ok(node) => Ok(Comment(node, Get(a, "content")))
  }

  lemma CommentRules(a: Attrs, r: Result<Comment, ParseError>)
    requires r == ParseComment(a)
    ensures r.Ok? <==> "node" in a && ParseInt(a["node"]).Some?
    ensures r.Ok? ==> Some(r.value.node) == ParseInt(a["node"]) && r.value.content == Get(a, "content")
  {
  }

  /** `__parse_group` (wknml/__init__.py:228-229): a group without its children. */
  function ParseGroup(a: Attrs): Result<Group, ParseError>
  {
    match ReadInt("group", a, "id")
    case Err(e) => Err(e)
    case Ok(id) => Ok(Group(id, Get(a, "name"), []))
  }

  lemma GroupRules(a: Attrs, r: Result<Group, ParseError>)
    requires r == ParseGroup(a)
    ensures r.Ok? <==> "id" in a && ParseInt(a["id"]).Some?
    ensures r.Ok? ==> Some(r.value.id) == ParseInt(a["id"]) && r.value.name == Get(a, "name") && r.value.children == []
  {
  }

  // ---------------------------------------------------------------------------------------------
  // Parameters, parsed once from the direct children of the `parameters` element

  /** A direct child of `parameters`, kept until the parameters element ends. */
  datatype Child = Child(tag: string, attrs: Attrs)

  /** `nml_parameters.find(tag)`: the attributes of the first direct child with that tag. */
  function Find(kept: seq<Child>, tag: string): Option<Attrs>
  {
    if kept == [] then None
    else if kept[0].tag == tag then Some(kept[0].attrs)
    else Find(kept[1..], tag)
  }

  /** Searching a concatenation searches the first part, then the second. */
  lemma {:induction false} FindAppend(a: seq<Child>, b: seq<Child>)
    ensures forall tag :: Find(a + b, tag) == if Find(a, tag).Some? then Find(a, tag) else Find(b, tag)
  {
    if a == [] {
      assert a + b == b;
    } else {
      assert (a + b)[0] == a[0] && (a + b)[1..] == a[1..] + b;
      FindAppend(a[1..], b);
    }
  }

  /** A float triple from the first child with that tag, when there is one. */
  function ReadChildVec3(kept: seq<Child>, tag: string, kx: string, ky: string, kz: string): Result<Option<Vec3>, ParseError>
  {
    match Find(kept, tag)
    case None => Ok(None)
    case Some(a) =>
      match ReadVec3(tag, a, kx, ky, kz)
      case Err(e) => Err(e)
      case Ok(v) => Ok(Some(v))
  }

  /** The element names `__parse_bounding_box` builds from its two prefixes. */
  lemma BoundingBoxTags()
    ensures "task" + "BoundingBox" == "taskBoundingBox" && "user" + "BoundingBox" == "userBoundingBox"
  {
    assert "task" + "BoundingBox" == "taskBoundingBox" && "user" + "BoundingBox" == "userBoundingBox";
  }

  /** `__parse_bounding_box` (wknml/__init__.py:72-84) */
  function ParseBoundingBox(kept: seq<Child>, prefix: string): (r: Result<Option<BoundingBox>, ParseError>)
    ensures r.Ok? ==> (r.value.Some? <==> Find(kept, prefix + "BoundingBox").Some?)
  {
    var tag := prefix + "BoundingBox";
    match Find(kept, tag)
    case None => Ok(None)
    case Some(a) =>
      var x := ReadInt(tag, a, "topLeftX");
      var y := ReadInt(tag, a, "topLeftY");
      var z := ReadInt(tag, a, "topLeftZ");
      var w := ReadInt(tag, a, "width");
      var h := ReadInt(tag, a, "height");
      var d := ReadInt(tag, a, "depth");
      if x.Err? then Err(x.error)
      else if y.Err? then Err(y.error)
      else if z.Err? then Err(z.error)
      else if w.Err? then Err(w.error)
      else if h.Err? then Err(h.error)
      else if d.Err? then Err(d.error)
      else Ok(Some(BoundingBox(x.value, y.value, z.value, w.value, h.value, d.value)))
  }

  /** `nml_parameters.find("time")` read as `int(ms)`. */
  function ReadChildTime(kept: seq<Child>): Result<Option<int>, ParseError>
  {
    match Find(kept, "time")
    case None => Ok(None)
    case Some(t) =>
      match ReadInt("time", t, "ms")
      case Err(e) => Err(e)
      case Ok(ms) => Ok(Some(ms))
  }

  /** `nml_parameters.find(tag)`, a missing element being dereferenced. */
  function RequiredChild(kept: seq<Child>, tag: string): Result<Attrs, ParseError>
  {
    match Find(kept, tag)
    case None => Err(MissingElement("parameters", tag))
    case Some(a) => Ok(a)
  }

  /** `__parse_parameters` (wknml/__init__.py:87-137) */
  function ParseParameters(kept: seq<Child>): Result<Parameters, ParseError>
  {
    var offset := ReadChildVec3(kept, "offset", "x", "y", "z");
    var editRotation := ReadChildVec3(kept, "editRotation", "xRot", "yRot", "zRot");
    var editPosition := ReadChildVec3(kept, "editPosition", "x", "y", "z");
    var time := ReadChildTime(kept);
    var zoomLevel := match Find(kept, "zoomLevel") case None => None case Some(z) => Get(z, "zoom");
    var taskBoundingBox := ParseBoundingBox(kept, "task");
    var userBoundingBox := ParseBoundingBox(kept, "user");
    var experiment := RequiredChild(kept, "experiment");
    var scaleElement := RequiredChild(kept, "scale");
    var scale := if scaleElement.Ok? then ReadVec3("scale", scaleElement.value, "x", "y", "z") else Err(scaleElement.error);
    if offset.Err? then Err(offset.error)
    else if editRotation.Err? then Err(editRotation.error)
    else if editPosition.Err? then Err(editPosition.error)
    else if time.Err? then Err(time.error)
    else if taskBoundingBox.Err? then Err(taskBoundingBox.error)
    else if userBoundingBox.Err? then Err(userBoundingBox.error)
    else if experiment.Err? then Err(experiment.error)
    else if scale.Err? then Err(scale.error)
    else Ok(Parameters(Get(experiment.value, "name"), scale.value, offset.value, time.value, editPosition.value,
                       editRotation.value, zoomLevel, taskBoundingBox.value, userBoundingBox.value))
  }

  /** experiment and scale are required; the document's name is the experiment's `name`. */
  lemma ParametersRequired(kept: seq<Child>, r: Result<Parameters, ParseError>)
    requires r == ParseParameters(kept)
    ensures Find(kept, "experiment").None? || Find(kept, "scale").None? ==> r.Err?
    ensures r.Ok? ==> r.value.name == Get(Find(kept, "experiment").value, "name")
  {
  }

  /** Every optional element gives None when absent; the zoom level is the raw text of `zoom`. */
  lemma ParametersOptional(kept: seq<Child>, r: Result<Parameters, ParseError>)
    requires r == ParseParameters(kept)
    ensures r.Ok? ==> (r.value.offset.Some? <==> Find(kept, "offset").Some?)
    ensures r.Ok? ==> (r.value.time.Some? <==> Find(kept, "time").Some?)
    ensures r.Ok? ==> (r.value.editPosition.Some? <==> Find(kept, "editPosition").Some?)
    ensures r.Ok? ==> (r.value.editRotation.Some? <==> Find(kept, "editRotation").Some?)
    ensures r.Ok? ==> r.value.zoomLevel == (match Find(kept, "zoomLevel") case None => None case Some(z) => Get(z, "zoom"))
  {
  }

  lemma ParametersBoundingBoxes(kept: seq<Child>, r: Result<Parameters, ParseError>)
    requires r == ParseParameters(kept)
    ensures r.Ok? ==> (r.value.taskBoundingBox.Some? <==> Find(kept, "taskBoundingBox").Some?)
    ensures r.Ok? ==> (r.value.userBoundingBox.Some? <==> Find(kept, "userBoundingBox").Some?)
  {
    BoundingBoxTags();
  }

  // ---------------------------------------------------------------------------------------------
  // The reader's state and one step of its loop (wknml/__init__.py:237-283)

  /** An open element; `kept` collects its direct children when it is `parameters`. */
  datatype Frame = Frame(tag: string, kept: seq<Child>)

  datatype ParserState = ParserState(
    parameters: Option<Parameters>,
    trees: seq<Tree>,
    inThing: bool,              // the current-tree slot: when set it holds the last tree of `trees`
    branchpoints: seq<Branchpoint>,
    comments: seq<Comment>,
    groupStack: seq<Group>,     // the synthetic root, then the open groups, innermost last
    elementStack: seq<Frame>)

  /** The number of open `group` elements. */
  function OpenGroups(stack: seq<Frame>): nat
  {
    if stack == [] then 0
    else OpenGroups(stack[..|stack| - 1]) + (if stack[|stack| - 1].tag == "group" then 1 else 0)
  }

  /** What every step keeps true: the current-tree slot refers to a tree, and the root group is on the stack. */
  predicate Consistent(s: ParserState)
  {
    (s.inThing ==> |s.trees| > 0) && |s.groupStack| >= 1
  }

  type State = s: ParserState | Consistent(s)
    witness ParserState(None, [], false, [], [], [Group(-1, Some(""), [])], [])

  /** `root_group = Group(-1, "", [])`, and nothing read yet. */
  const Init: State := ParserState(None, [], false, [], [], [Group(-1, Some(""), [])], [])

  /** `element_stack.append(elem)`, the new element also recorded as a child when its parent is `parameters`. */
  function Opened(stack: seq<Frame>, tag: string, attrs: Attrs): (r: seq<Frame>)
    ensures |r| == |stack| + 1 && r[|stack|] == Frame(tag, [])
  {
    var n := |stack|;
    var below :=
      if n > 0 && stack[n - 1].tag == "parameters" then
        stack[..n - 1] + [stack[n - 1].(kept := stack[n - 1].kept + [Child(tag, attrs)])]
      else stack;
    below + [Frame(tag, [])]
  }

  lemma {:induction false} SameTagsSameGroups(a: seq<Frame>, b: seq<Frame>)
    requires |a| == |b|
    requires forall i :: 0 <= i < |a| ==> a[i].tag == b[i].tag
    ensures OpenGroups(a) == OpenGroups(b)
  {
    if a != [] {
      SameTagsSameGroups(a[..|a| - 1], b[..|b| - 1]);
    }
  }

  /** `current_tree.nodes.append(node)` on the current (last) tree. */
  function AppendNode(trees: seq<Tree>, n: Node): (r: seq<Tree>)
    requires |trees| > 0
    ensures |r| == |trees|
  {
    var last := trees[|trees| - 1];
    trees[..|trees| - 1] + [last.(nodes := last.nodes + [n])]
  }

  /** `current_tree.edges.append(edge)` on the current (last) tree. */
  function AppendEdge(trees: seq<Tree>, e: Edge): (r: seq<Tree>)
    requires |trees| > 0
    ensures |r| == |trees|
  {
    var last := trees[|trees| - 1];
    trees[..|trees| - 1] + [last.(edges := last.edges + [e])]
  }

  /**
   * `group_stack.pop()`: the closed group becomes the last child of the group below it.
   * The root alone is never closed (`GroupStackMirrorsElements`); the first branch only keeps the function total.
   */
  function CloseGroup(stack: seq<Group>): (r: seq<Group>)
    requires |stack| >= 1
    ensures |stack| >= 2 ==> |r| == |stack| - 1
    ensures |r| >= 1
  {
    var n := |stack|;
    if n == 1 then stack
    else
      var parent := stack[n - 2];
      stack[..n - 2] + [parent.(children := parent.children + [stack[n - 1]])]
  }

  /** One iteration of the event loop of `parse_nml`. */
  function Step(s: State, e: Event): (r: Result<State, ParseError>)
    // a node or edge needs an open thing (the assertion)
    ensures e.Start? && e.tag in {"node", "edge"} && !s.inThing ==> r == Err(OutsideThing(e.tag))
    // the end of a thing clears the slot, so later nodes are never attached to a closed tree
    ensures e.End? && e.tag == "thing" && r.Ok? ==> !r.value.inThing
    // an end event must close the innermost open element
    ensures e.End? && (s.elementStack == [] || s.elementStack[|s.elementStack| - 1].tag != e.tag) ==> r == Err(Malformed)
  {
    match e
    case Start(tag, attrs) =>
      var s1 := s.(elementStack := Opened(s.elementStack, tag, attrs));
      if tag == "thing" then
        var t :- ParseTree(attrs);
        Ok(s1.(trees := s1.trees + [t], inThing := true))
      else if tag == "node" then
        if !s1.inThing then Err(OutsideThing("node"))
        else
          var n :- ParseNode(attrs);
          Ok(s1.(trees := AppendNode(s1.trees, n)))
      else if tag == "edge" then
        if !s1.inThing then Err(OutsideThing("edge"))
        else
          var ed :- ParseEdge(attrs);
          Ok(s1.(trees := AppendEdge(s1.trees, ed)))
      else if tag == "branchpoint" then
        var b :- ParseBranchpoint(attrs);
        Ok(s1.(branchpoints := s1.branchpoints + [b]))
      else if tag == "comment" then
        var c :- ParseComment(attrs);
        Ok(s1.(comments := s1.comments + [c]))
      else if tag == "group" then
        var g :- ParseGroup(attrs);
        Ok(s1.(groupStack := s1.groupStack + [g]))
      else Ok(s1)
    case End(tag) =>
      var n := |s.elementStack|;
      if n == 0 || s.elementStack[n - 1].tag != tag then Err(Malformed)
      else
        var top := s.elementStack[n - 1];
        assert s.elementStack == s.elementStack[..n - 1] + [top];
        var s1 := s.(elementStack := s.elementStack[..n - 1]);
        if tag == "parameters" then
          var p :- ParseParameters(top.kept);
          Ok(s1.(parameters := Some(p)))
        else if tag == "thing" then Ok(s1.(inThing := false))
        else if tag == "group" then Ok(s1.(groupStack := CloseGroup(s1.groupStack)))
        else Ok(s1)
  }

  /** The events applied one after the other, stopping at the first error. */
  function RunFrom(s: State, es: seq<Event>): Result<State, ParseError>
    decreases |es|
  {
    if es == [] then Ok(s)
    else
      var s1 :- Step(s, es[0]);
      RunFrom(s1, es[1..])
  }

  lemma RunFromCons(s: State, es: seq<Event>)
    requires es != []
    ensures RunFrom(s, es) == match Step(s, es[0]) case Err(e) => Err(e) case Ok(t) => RunFrom(t, es[1..])
  {
  }

  /** One stacked group per open `group` element, above the root. */
  predicate GroupsMirrored(s: ParserState)
  {
    |s.groupStack| == 1 + OpenGroups(s.elementStack)
  }

  lemma OpenedGroups(stack: seq<Frame>, tag: string, attrs: Attrs)
    ensures OpenGroups(Opened(stack, tag, attrs)) == OpenGroups(stack) + (if tag == "group" then 1 else 0)
  {
    var n := |stack|;
    var r := Opened(stack, tag, attrs);
    assert r == r[..n] + [Frame(tag, [])];
    assert r[..n] == r[..|r| - 1];
    SameTagsSameGroups(r[..n], stack);
  }

  /** Each step keeps the group stack in line with the open group elements, so a group end never pops the root. */
  lemma StepMirrorsGroups(s: State, e: Event)
    requires GroupsMirrored(s)
    ensures Step(s, e).Ok? ==> GroupsMirrored(Step(s, e).value)
    ensures e == End("group") && Step(s, e).Ok? ==> |s.groupStack| >= 2
  {
    match e
    case Start(tag, attrs) =>
      StartMirrorsGroups(s, tag, attrs);
    case End(tag) =>
      EndMirrorsGroups(s, tag);
  }

  lemma StartMirrorsGroups(s: State, tag: string, attrs: Attrs)
    requires GroupsMirrored(s)
    ensures Step(s, Start(tag, attrs)).Ok? ==> GroupsMirrored(Step(s, Start(tag, attrs)).value)
  {
    OpenedGroups(s.elementStack, tag, attrs);
    StartOpens(s, tag, attrs);
    StartPushesGroup(s, tag, attrs);
  }

  /** A start event pushes its frame on the element stack. */
  lemma StartOpens(s: State, tag: string, attrs: Attrs)
    ensures Step(s, Start(tag, attrs)).Ok? ==> Step(s, Start(tag, attrs)).value.elementStack == Opened(s.elementStack, tag, attrs)
  {
  }

  /** Only a `group` start pushes a group, and exactly one. */
  lemma StartPushesGroup(s: State, tag: string, attrs: Attrs)
    ensures Step(s, Start(tag, attrs)).Ok? ==>
      |Step(s, Start(tag, attrs)).value.groupStack| == |s.groupStack| + (if tag == "group" then 1 else 0)
  {
  }

  lemma EndMirrorsGroups(s: State, tag: string)
    requires GroupsMirrored(s)
    ensures Step(s, End(tag)).Ok? ==> GroupsMirrored(Step(s, End(tag)).value)
    ensures tag == "group" && Step(s, End(tag)).Ok? ==> |s.groupStack| >= 2
  {
    var n := |s.elementStack|;
    if n > 0 && s.elementStack[n - 1].tag == tag {
      assert s.elementStack[..n] == s.elementStack;
    }
  }

  lemma {:induction false} GroupStackMirrorsElements(s: State, es: seq<Event>)
    requires GroupsMirrored(s)
    ensures RunFrom(s, es).Ok? ==> GroupsMirrored(RunFrom(s, es).value)
    decreases |es|
  {
    if es != [] {
      StepMirrorsGroups(s, es[0]);
      if Step(s, es[0]).Ok? {
        GroupStackMirrorsElements(Step(s, es[0]).value, es[1..]);
      }
    }
  }

  /** The result of `parse_nml` on a stream of events. */
  function ParseEvents(es: seq<Event>): Result<Nml, ParseError>
  {
    var s :- RunFrom(Init, es);
    if es == [] || s.elementStack != [] then Err(Malformed)
    else Ok(Nml(s.parameters, s.trees, s.branchpoints, s.comments, s.groupStack[0].children))
  }

  /** Only the end of a `parameters` element sets the parameters. */
  lemma StepKeepsParameters(s: State, e: Event)
    requires e != End("parameters") && Step(s, e).Ok?
    ensures Step(s, e).value.parameters == s.parameters
  {
  }

  lemma {:induction false} RunKeepsParameters(s: State, es: seq<Event>)
    requires forall i :: 0 <= i < |es| ==> es[i] != End("parameters")
    requires RunFrom(s, es).Ok?
    ensures RunFrom(s, es).value.parameters == s.parameters
    decreases |es|
  {
    if es != [] {
      StepKeepsParameters(s, es[0]);
      RunKeepsParameters(Step(s, es[0]).value, es[1..]);
    }
  }

  /** A document without a `parameters` element reads with no parameters. */
  lemma NoParametersElement(es: seq<Event>)
    requires forall i :: 0 <= i < |es| ==> es[i] != End("parameters")
    requires ParseEvents(es).Ok?
    ensures ParseEvents(es).value.parameters == None
  {
    RunKeepsParameters(Init, es);
  }

  /**
   * The local variables of `parse_nml` (wknml/__init__.py:237-244), which its loop updates in place:
   * the current-tree slot, the group stack and the element stack among them.
   */
  class Reader {
    var parameters: Option<Parameters>
    var trees: seq<Tree>
    var inThing: bool
    var branchpoints: seq<Branchpoint>
    var comments: seq<Comment>
    var groupStack: seq<Group>
    var elementStack: seq<Frame>

    function Snapshot(): ParserState
      reads this
    {
      ParserState(parameters, trees, inThing, branchpoints, comments, groupStack, elementStack)
    }

    predicate Valid()
      reads this
    {
      Consistent(Snapshot())
    }

    constructor ()
      ensures Valid() && Snapshot() == Init
    {
      parameters := None;
      trees := [];
      inThing := false;
      branchpoints := [];
      comments := [];
      groupStack := [Group(-1, Some(""), [])];
      elementStack := [];
    }

    /** The `start` half of the loop body (wknml/__init__.py:247-269); `Some` is what it raises. */
    method StartElement(tag: string, attrs: Attrs) returns (raised: Option<ParseError>)
      requires Valid()
      modifies this
      ensures raised.None? ==> Valid() && Step(old(Snapshot()), Start(tag, attrs)) == Ok(Snapshot())
      ensures raised.Some? ==> Step(old(Snapshot()), Start(tag, attrs)) == Err(raised.value)
    {
      elementStack := Opened(elementStack, tag, attrs);
      if tag == "thing" {
        var t := ParseTree(attrs);
        if t.Err? { return Some(t.error); }
        trees := trees + [t.value];
        inThing := true;
      } else if tag == "node" {
        if !inThing { return Some(OutsideThing("node")); }
        var n := ParseNode(attrs);
        if n.Err? { return Some(n.error); }
        trees := AppendNode(trees, n.value);
      } else if tag == "edge" {
        if !inThing { return Some(OutsideThing("edge")); }
        var e := ParseEdge(attrs);
        if e.Err? { return Some(e.error); }
        trees := AppendEdge(trees, e.value);
      } else if tag == "branchpoint" {
        var b := ParseBranchpoint(attrs);
        if b.Err? { return Some(b.error); }
        branchpoints := branchpoints + [b.value];
      } else if tag == "comment" {
        var c := ParseComment(attrs);
        if c.Err? { return Some(c.error); }
        comments := comments + [c.value];
      } else if tag == "group" {
        var g := ParseGroup(attrs);
        if g.Err? { return Some(g.error); }
        groupStack := groupStack + [g.value];
      }
      return None;
    }

    /** The `end` half of the loop body (wknml/__init__.py:270-283); `Some` is what it raises. */
    method EndElement(tag: string) returns (raised: Option<ParseError>)
      requires Valid()
      modifies this
      ensures raised.None? ==> Valid() && Step(old(Snapshot()), End(tag)) == Ok(Snapshot())
      ensures raised.Some? ==> Step(old(Snapshot()), End(tag)) == Err(raised.value)
    {
      var n := |elementStack|;
      if n == 0 || elementStack[n - 1].tag != tag { return Some(Malformed); }
      var top := elementStack[n - 1];
      assert elementStack == elementStack[..n - 1] + [top];
      elementStack := elementStack[..n - 1];
      if tag == "parameters" {
        var p := ParseParameters(top.kept);
        if p.Err? { return Some(p.error); }
        parameters := Some(p.value);
      } else if tag == "thing" {
        inThing := false;
      } else if tag == "group" {
        groupStack := CloseGroup(groupStack);
      }
      return None;
    }
  }

  /** `parse_nml` (wknml/__init__.py:232-291): one forward pass over the events. */
  method ParseNml(events: seq<Event>) returns (r: Result<Nml, ParseError>)
    ensures r == ParseEvents(events)
  {
    var reader := new Reader();
    var i := 0;
    while i < |events|
      invariant 0 <= i <= |events|
      invariant reader.Valid()
      invariant RunFrom(Init, events) == RunFrom(reader.Snapshot(), events[i..])
    {
      ghost var before: State := reader.Snapshot();
      assert events[i..][0] == events[i] && events[i..][1..] == events[i + 1..];
      RunFromCons(before, events[i..]);
      var raised;
      match events[i] {
        case Start(tag, attrs) => raised := reader.StartElement(tag, attrs);
        case End(tag) => raised := reader.EndElement(tag);
      }
      if raised.Some? {
        return Err(raised.value);
      }
      i := i + 1;
    }
    if |events| == 0 || reader.elementStack != [] {
      return Err(Malformed);
    }
    r := Ok(Nml(reader.parameters, reader.trees, reader.branchpoints, reader.comments, reader.groupStack[0].children));
  }
}
