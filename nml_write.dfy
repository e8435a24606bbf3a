/**
 * The NML writer `write_nml` and its `__dump_*` helpers (wknml/__init__.py:294-478), as functions
 * from records to the start/end tag events the XML writer would emit, in emission order.
 */
module NmlWrite {
  import opened Wrappers
  import opened Numbers
  import opened Events
  import opened NmlTypes
  import opened NmlParse

  function OptInt(v: Option<int>): Option<string>
  {
    match v case None => None case Some(i) => Some(IntToStr(i))
  }

  function OptFloat(v: Option<FloatToken>): Option<string>
  {
    match v case None => None case Some(f) => Some(FloatToStr(f))
  }

  function OptBool(v: Option<bool>): Option<string>
  {
    match v case None => None case Some(b) => Some(BoolToStr(b))
  }

  function Vec3Attributes(v: Vec3, kx: string, ky: string, kz: string): Attrs
  {
    map[kx := FloatToStr(v.x), ky := FloatToStr(v.y), kz := FloatToStr(v.z)]
  }

  // ---------------------------------------------------------------------------------------------
  // Attribute maps

  /** The attribute names `__dump_node` can write. */
  const NodeKeys: set<string> :=
    {"id", "x", "y", "z", "radius", "rotX", "rotY", "rotZ", "inVp", "inMag", "bitDepth", "interpolation", "time"}

  /** The text `__dump_node` writes under one attribute name, or None when it leaves the attribute out. */
  function NodeAttribute(n: Node, key: string): Option<string>
  {
    match key
    case "id" => Some(IntToStr(n.id))
    case "x" => Some(FloatToStr(n.position.x))
    case "y" => Some(FloatToStr(n.position.y))
    case "z" => Some(FloatToStr(n.position.z))
    case "radius" => OptFloat(n.radius)
    case "rotX" => if n.rotation.Some? then Some(FloatToStr(n.rotation.value.x)) else None
    case "rotY" => if n.rotation.Some? then Some(FloatToStr(n.rotation.value.y)) else None
    case "rotZ" => if n.rotation.Some? then Some(FloatToStr(n.rotation.value.z)) else None
    case "inVp" => OptInt(n.inVp)
    case "inMag" => OptInt(n.inMag)
    case "bitDepth" => OptInt(n.bitDepth)
    case "interpolation" => OptBool(n.interpolation)
    case "time" => OptInt(n.time)
    case _ => None
  }

  /** The attributes `__dump_node` writes (wknml/__init__.py:363-395). */
  function NodeAttributes(n: Node): Attrs
  {
    map k | k in NodeKeys && NodeAttribute(n, k).Some? :: NodeAttribute(n, k).value
  }

  /** Looking an attribute up in the written map gives the table's entry. */
  lemma GetNodeAttribute(n: Node, key: string)
    ensures Get(NodeAttributes(n), key) == NodeAttribute(n, key)
  {
  }

  /** The required attributes are always written, and nothing outside the table is. */
  lemma NodeAttributesRequired(n: Node)
    ensures var a := NodeAttributes(n); "id" in a && "x" in a && "y" in a && "z" in a
    ensures NodeAttributes(n).Keys <= NodeKeys
  {
  }

  /** The radius and rotation attributes are written exactly when their fields are not None. */
  lemma NodeAttributesOmitNone(n: Node)
    ensures var a := NodeAttributes(n);
      && ("radius" in a <==> n.radius.Some?)
      && ("rotX" in a <==> n.rotation.Some?) && ("rotY" in a <==> n.rotation.Some?) && ("rotZ" in a <==> n.rotation.Some?)
  {
  }

  /** So are the viewport, magnification, bit depth, interpolation and time attributes. */
  lemma NodeAttributesOmitNoneLater(n: Node)
    ensures var a := NodeAttributes(n);
      && ("inVp" in a <==> n.inVp.Some?) && ("inMag" in a <==> n.inMag.Some?) && ("bitDepth" in a <==> n.bitDepth.Some?)
      && ("interpolation" in a <==> n.interpolation.Some?) && ("time" in a <==> n.time.Some?)
  {
  }

  function EdgeAttributes(e: Edge): Attrs
  {
    map["source" := IntToStr(e.source), "target" := IntToStr(e.target)]
  }

  /** The attributes `__dump_tree` writes on `thing` (wknml/__init__.py:403-413). */
  function TreeAttributes(t: Tree): (a: Attrs)
    requires t.color.Some? && t.name.Some?
    ensures "id" in a && "name" in a && "color.r" in a && "color.g" in a && "color.b" in a && "color.a" in a
    // groupId is written only when it is not None; the legacy spellings are never written
    ensures "groupId" in a <==> t.groupId.Some?
    ensures "comment" !in a && "colorr" !in a
  {
    var c := t.color.value;
    var a := map["id" := IntToStr(t.id),
                 "color.r" := FloatToStr(c.r), "color.g" := FloatToStr(c.g),
                 "color.b" := FloatToStr(c.b), "color.a" := FloatToStr(c.a),
                 "name" := t.name.value];
    Put(a, "groupId", OptInt(t.groupId))
  }

  /** `__dump_branchpoint` (wknml/__init__.py:427-433) */
  function BranchpointAttributes(b: Branchpoint): (a: Attrs)
    ensures "id" in a && ("time" in a <==> b.time.Some?)
  {
    Put(map["id" := IntToStr(b.id)], "time", OptInt(b.time))
  }

  /** `__dump_comment` (wknml/__init__.py:436-440) */
  function CommentAttributes(c: Comment): (a: Attrs)
    ensures "node" in a && ("content" in a <==> c.content.Some?)
  {
    Put(map["node" := IntToStr(c.node)], "content", c.content)
  }

  function GroupAttributes(g: Group): Attrs
    requires g.name.Some?
  {
    map["id" := IntToStr(g.id), "name" := g.name.value]
  }

  // ---------------------------------------------------------------------------------------------
  // Parameters

  /** `__dump_bounding_box` (wknml/__init__.py:294-309) */
  function BoundingBoxChild(prefix: string, b: Option<BoundingBox>): seq<Child>
  {
    match b
    case None => []
    case Some(box) =>
      [Child(prefix + "BoundingBox",
             map["topLeftX" := IntToStr(box.topLeftX), "topLeftY" := IntToStr(box.topLeftY),
                 "topLeftZ" := IntToStr(box.topLeftZ), "width" := IntToStr(box.width),
                 "height" := IntToStr(box.height), "depth" := IntToStr(box.depth)])]
  }

  function OffsetChild(p: Parameters): seq<Child>
  {
    match p.offset case None => [] case Some(v) => [Child("offset", Vec3Attributes(v, "x", "y", "z"))]
  }

  function TimeChild(p: Parameters): seq<Child>
  {
    match p.time case None => [] case Some(ms) => [Child("time", map["ms" := IntToStr(ms)])]
  }

  function EditPositionChild(p: Parameters): seq<Child>
  {
    match p.editPosition case None => [] case Some(v) => [Child("editPosition", Vec3Attributes(v, "x", "y", "z"))]
  }

  function EditRotationChild(p: Parameters): seq<Child>
  {
    match p.editRotation case None => [] case Some(v) => [Child("editRotation", Vec3Attributes(v, "xRot", "yRot", "zRot"))]
  }

  function ZoomLevelChild(p: Parameters): seq<Child>
  {
    match p.zoomLevel case None => [] case Some(z) => [Child("zoomLevel", map["zoom" := z])]
  }

  /** experiment and scale, which are always written */
  function HeadChildren(p: Parameters): seq<Child>
    requires p.name.Some?
  {
    [Child("experiment", map["name" := p.name.value]), Child("scale", Vec3Attributes(p.scale, "x", "y", "z"))]
  }

  /** The children of `parameters`, in the order `__dump_parameters` writes them (wknml/__init__.py:312-360). */
  function ParameterChildren(p: Parameters): seq<Child>
    requires p.name.Some?
  {
    HeadChildren(p)
    + (OffsetChild(p)
    + (TimeChild(p)
    + (EditPositionChild(p)
    + (EditRotationChild(p)
    + (ZoomLevelChild(p)
    + (BoundingBoxChild("task", p.taskBoundingBox)
    + BoundingBoxChild("user", p.userBoundingBox)))))))
  }

  /** `find` on the written children looks at each group of children in turn. */
  lemma ParameterChildrenSearch(p: Parameters, tag: string)
    requires p.name.Some?
    ensures Find(ParameterChildren(p), tag) ==
      if tag == "experiment" then Some(map["name" := p.name.value])
      else if tag == "scale" then Some(Vec3Attributes(p.scale, "x", "y", "z"))
      else if Find(OffsetChild(p), tag).Some? then Find(OffsetChild(p), tag)
      else if Find(TimeChild(p), tag).Some? then Find(TimeChild(p), tag)
      else if Find(EditPositionChild(p), tag).Some? then Find(EditPositionChild(p), tag)
      else if Find(EditRotationChild(p), tag).Some? then Find(EditRotationChild(p), tag)
      else if Find(ZoomLevelChild(p), tag).Some? then Find(ZoomLevelChild(p), tag)
      else if Find(BoundingBoxChild("task", p.taskBoundingBox), tag).Some? then Find(BoundingBoxChild("task", p.taskBoundingBox), tag)
      else Find(BoundingBoxChild("user", p.userBoundingBox), tag)
  {
    var task := BoundingBoxChild("task", p.taskBoundingBox);
    var user := BoundingBoxChild("user", p.userBoundingBox);
    var t1 := ZoomLevelChild(p) + (task + user);
    var t2 := EditRotationChild(p) + t1;
    var t3 := EditPositionChild(p) + t2;
    var t4 := TimeChild(p) + t3;
    var t5 := OffsetChild(p) + t4;
    assert ParameterChildren(p) == HeadChildren(p) + t5;
    assert HeadChildren(p)[1..] == [Child("scale", Vec3Attributes(p.scale, "x", "y", "z"))];
    FindAppend(task, user);
    FindAppend(ZoomLevelChild(p), task + user);
    FindAppend(EditRotationChild(p), t1);
    FindAppend(EditPositionChild(p), t2);
    FindAppend(TimeChild(p), t3);
    FindAppend(OffsetChild(p), t4);
    FindAppend(HeadChildren(p), t5);
  }

  /** experiment and scale come first and are always written. */
  lemma ParameterChildrenRequired(p: Parameters)
    requires p.name.Some?
    ensures var r := ParameterChildren(p);
      && r[0].tag == "experiment" && r[1].tag == "scale"
      && Find(r, "experiment") == Some(map["name" := p.name.value])
      && Find(r, "scale") == Some(Vec3Attributes(p.scale, "x", "y", "z"))
  {
    ParameterChildrenSearch(p, "experiment");
    ParameterChildrenSearch(p, "scale");
  }

  /** offset and time are written exactly when they are set. */
  lemma ParameterChildrenOffsetTime(p: Parameters)
    requires p.name.Some?
    ensures var r := ParameterChildren(p);
      && (Find(r, "offset").Some? <==> p.offset.Some?)
      && (p.offset.Some? ==> Find(r, "offset") == Some(Vec3Attributes(p.offset.value, "x", "y", "z")))
      && (Find(r, "time").Some? <==> p.time.Some?)
      && (p.time.Some? ==> Find(r, "time") == Some(map["ms" := IntToStr(p.time.value)]))
  {
    ParameterChildrenSearch(p, "offset");
    ParameterChildrenSearch(p, "time");
  }

  /** editPosition is written exactly when it is set. */
  lemma ParameterChildrenEditPosition(p: Parameters)
    requires p.name.Some?
    ensures var r := ParameterChildren(p);
      && (Find(r, "editPosition").Some? <==> p.editPosition.Some?)
      && (p.editPosition.Some? ==> Find(r, "editPosition") == Some(Vec3Attributes(p.editPosition.value, "x", "y", "z")))
  {
    ParameterChildrenSearch(p, "editPosition");
  }

  /** So is editRotation. */
  lemma ParameterChildrenEditRotation(p: Parameters)
    requires p.name.Some?
    ensures var r := ParameterChildren(p);
      && (Find(r, "editRotation").Some? <==> p.editRotation.Some?)
      && (p.editRotation.Some? ==> Find(r, "editRotation") == Some(Vec3Attributes(p.editRotation.value, "xRot", "yRot", "zRot")))
  {
    ParameterChildrenSearch(p, "editRotation");
  }

  /** zoomLevel is written exactly when it is set. */
  lemma ParameterChildrenZoom(p: Parameters)
    requires p.name.Some?
    ensures var r := ParameterChildren(p);
      && (Find(r, "zoomLevel").Some? <==> p.zoomLevel.Some?)
      && (p.zoomLevel.Some? ==> Find(r, "zoomLevel") == Some(map["zoom" := p.zoomLevel.value]))
  {
    ParameterChildrenSearch(p, "zoomLevel");
  }

  /** The task bounding box is written exactly when it is set. */
  lemma ParameterChildrenTaskBox(p: Parameters)
    requires p.name.Some?
    ensures Find(ParameterChildren(p), "taskBoundingBox") ==
      (if p.taskBoundingBox.Some? then Some(BoundingBoxChild("task", p.taskBoundingBox)[0].attrs) else None)
  {
    BoundingBoxTags();
    var tag := "taskBoundingBox";
    assert |tag| == 15 && tag != "experiment" && tag != "scale";
    assert Find(OffsetChild(p), tag).None? && Find(TimeChild(p), tag).None?;
    assert Find(EditPositionChild(p), tag).None? && Find(EditRotationChild(p), tag).None?;
    assert "zoomLevel" != tag;
    assert Find(ZoomLevelChild(p), tag).None?;
    ParameterChildrenSearch(p, tag);
  }

  /** So is the user bounding box. */
  lemma ParameterChildrenUserBox(p: Parameters)
    requires p.name.Some?
    ensures Find(ParameterChildren(p), "userBoundingBox") ==
      (if p.userBoundingBox.Some? then Some(BoundingBoxChild("user", p.userBoundingBox)[0].attrs) else None)
  {
    BoundingBoxTags();
    var tag := "userBoundingBox";
    assert |tag| == 15 && tag != "experiment" && tag != "scale";
    assert Find(OffsetChild(p), tag).None? && Find(TimeChild(p), tag).None?;
    assert Find(EditPositionChild(p), tag).None? && Find(EditRotationChild(p), tag).None?;
    assert "zoomLevel" != tag;
    assert Find(ZoomLevelChild(p), tag).None?;
    assert Find(BoundingBoxChild("task", p.taskBoundingBox), tag).None?;
    ParameterChildrenSearch(p, tag);
  }

  /** Each child written as an element without children. */
  function LeafEvents(cs: seq<Child>): seq<Event>
  {
    if cs == [] then [] else Leaf(cs[0].tag, cs[0].attrs) + LeafEvents(cs[1..])
  }

  function DumpParameters(p: Parameters): seq<Event>
    requires p.name.Some?
  {
    Container("parameters", LeafEvents(ParameterChildren(p)))
  }

  // ---------------------------------------------------------------------------------------------
  // Trees, branchpoints, comments and groups

  function DumpNodes(ns: seq<Node>): seq<Event>
  {
    if ns == [] then [] else Leaf("node", NodeAttributes(ns[0])) + DumpNodes(ns[1..])
  }

  function DumpEdges(es: seq<Edge>): seq<Event>
  {
    if es == [] then [] else Leaf("edge", EdgeAttributes(es[0])) + DumpEdges(es[1..])
  }

  /** `__dump_tree` (wknml/__init__.py:402-424) */
  function DumpTree(t: Tree): seq<Event>
    requires WritableTree(t)
  {
    [Start("thing", TreeAttributes(t))]
    + Container("nodes", DumpNodes(t.nodes))
    + Container("edges", DumpEdges(t.edges))
    + [End("thing")]
  }

  /** A tree the writer can write: `tree.color[i]` and the `name` attribute need values. */
  predicate WritableTree(t: Tree)
  {
    t.color.Some? && t.name.Some?
  }

  function DumpTrees(ts: seq<Tree>): seq<Event>
    requires forall i :: 0 <= i < |ts| ==> WritableTree(ts[i])
  {
    if ts == [] then [] else DumpTree(ts[0]) + DumpTrees(ts[1..])
  }

  function DumpBranchpoints(bs: seq<Branchpoint>): seq<Event>
  {
    if bs == [] then [] else Leaf("branchpoint", BranchpointAttributes(bs[0])) + DumpBranchpoints(bs[1..])
  }

  function DumpComments(cs: seq<Comment>): seq<Event>
  {
    if cs == [] then [] else Leaf("comment", CommentAttributes(cs[0])) + DumpComments(cs[1..])
  }

  /** Every group of the forest has a name. */
  predicate NamedGroup(g: Group)
    decreases g, 1
  {
    g.name.Some? && NamedGroups(g.children)
  }

  predicate NamedGroups(gs: seq<Group>)
    decreases gs, 0
  {
    forall i :: 0 <= i < |gs| ==> NamedGroup(gs[i])
  }

  /** `__dump_group` (wknml/__init__.py:443-447): pre-order, each group enclosing its children. */
  function DumpGroup(g: Group): seq<Event>
    requires NamedGroup(g)
    decreases g, 1
  {
    [Start("group", GroupAttributes(g))] + DumpGroups(g.children) + [End("group")]
  }

  function DumpGroups(gs: seq<Group>): seq<Event>
    requires NamedGroups(gs)
    decreases gs, 0
  {
    if gs == [] then [] else DumpGroup(gs[0]) + DumpGroups(gs[1..])
  }

  /** What `write_nml` needs of a document to produce one. */
  predicate Writable(x: Nml)
  {
    && x.parameters.Some? && x.parameters.value.name.Some?
    && (forall i :: 0 <= i < |x.trees| ==> WritableTree(x.trees[i]))
    && NamedGroups(x.groups)
  }

  /** `__dump_nml` / `write_nml` (wknml/__init__.py:450-478) */
  function WriteNml(x: Nml): seq<Event>
    requires Writable(x)
  {
    Container("things",
      DumpParameters(x.parameters.value)
      + DumpTrees(x.trees)
      + Container("branchpoints", DumpBranchpoints(x.branchpoints))
      + Container("comments", DumpComments(x.comments))
      + Container("groups", DumpGroups(x.groups)))
  }
}
