/**
 * Reading back what the writer wrote: `parse_nml(write_nml(x))` for every document the writer can
 * write. The result is the document itself except in two places, where the text the writer
 * produces does not read back as the value it came from:
 *   - a node's `interpolation` is written as "True" or "False" and read with `bool`, so both read as true;
 *   - a tree's negative `groupId` is written and then read as "no group".
 * `Normalize` applies exactly these two changes.
 */
module NmlRoundTrip {
  import opened Wrappers
  import opened Numbers
  import opened Events
  import opened NmlTypes
  import opened NmlParse
  import opened NmlWrite

  // ---------------------------------------------------------------------------------------------
  // What survives a write and a read

  function NormalizeNode(n: Node): Node
  {
    n.(interpolation := if n.interpolation.Some? then Some(true) else None)
  }

  function NormalizeNodes(ns: seq<Node>): (r: seq<Node>)
    ensures |r| == |ns|
  {
    if ns == [] then [] else [NormalizeNode(ns[0])] + NormalizeNodes(ns[1..])
  }

  function NormalizeGroupId(g: Option<int>): Option<int>
  {
    if g.Some? && g.value < 0 then None else g
  }

  function NormalizeTree(t: Tree): Tree
  {
    t.(nodes := NormalizeNodes(t.nodes), groupId := NormalizeGroupId(t.groupId))
  }

  function NormalizeTrees(ts: seq<Tree>): (r: seq<Tree>)
    ensures |r| == |ts|
  {
    if ts == [] then [] else [NormalizeTree(ts[0])] + NormalizeTrees(ts[1..])
  }

  function Normalize(x: Nml): Nml
  {
    x.(trees := NormalizeTrees(x.trees))
  }

  // ---------------------------------------------------------------------------------------------
  // Reading back single attributes

  lemma ReadIntOf(tag: string, a: Attrs, key: string, i: int)
    requires key in a && a[key] == IntToStr(i)
    ensures ReadInt(tag, a, key) == Ok(i)
  {
    IntRoundTrip(i);
  }

  lemma ReadOptionalIntOf(tag: string, a: Attrs, key: string, v: Option<int>)
    requires Get(a, key) == OptInt(v)
    ensures ReadOptionalInt(tag, a, key) == Ok(v)
  {
    if v.Some? {
      ReadIntOf(tag, a, key, v.value);
    }
  }

  lemma ReadVec3Of(tag: string, a: Attrs, kx: string, ky: string, kz: string, v: Vec3)
    requires kx in a && ky in a && kz in a && a[kx] == v.x && a[ky] == v.y && a[kz] == v.z
    ensures ReadVec3(tag, a, kx, ky, kz) == Ok(v)
  {
  }

  lemma ReadVec3Attributes(tag: string, v: Vec3, kx: string, ky: string, kz: string)
    requires kx != ky && ky != kz && kx != kz
    ensures ReadVec3(tag, Vec3Attributes(v, kx, ky, kz), kx, ky, kz) == Ok(v)
  {
    ReadVec3Of(tag, Vec3Attributes(v, kx, ky, kz), kx, ky, kz, v);
  }

  // ---------------------------------------------------------------------------------------------
  // One element's attributes

  lemma ReadOptionalFloatOf(tag: string, a: Attrs, key: string, v: Option<FloatToken>)
    requires Get(a, key) == OptFloat(v)
    ensures ReadOptionalFloat(tag, a, key) == Ok(v)
  {
  }

  lemma ReadOptionalVec3Of(tag: string, a: Attrs, kx: string, ky: string, kz: string, v: Option<Vec3>)
    requires v.None? ==> kx !in a
    requires v.Some? ==> kx in a && ky in a && kz in a && a[kx] == v.value.x && a[ky] == v.value.y && a[kz] == v.value.z
    ensures ReadOptionalVec3(tag, a, kx, ky, kz) == Ok(v)
  {
    if v.Some? {
      ReadVec3Of(tag, a, kx, ky, kz, v.value);
    }
  }

  /** Any attribute map holding a node's texts under the writer's names reads back as the node. */
  lemma ParseNodeOf(n: Node, a: Attrs)
    requires Get(a, "id") == Some(IntToStr(n.id))
    requires "x" in a && "y" in a && "z" in a && a["x"] == n.position.x && a["y"] == n.position.y && a["z"] == n.position.z
    requires n.rotation.None? ==> "rotX" !in a
    requires n.rotation.Some? ==> "rotX" in a && "rotY" in a && "rotZ" in a
    requires n.rotation.Some? ==> a["rotX"] == n.rotation.value.x && a["rotY"] == n.rotation.value.y && a["rotZ"] == n.rotation.value.z
    requires Get(a, "radius") == OptFloat(n.radius)
    requires Get(a, "inVp") == OptInt(n.inVp) && Get(a, "inMag") == OptInt(n.inMag)
    requires Get(a, "bitDepth") == OptInt(n.bitDepth) && Get(a, "time") == OptInt(n.time)
    requires Get(a, "interpolation") == OptBool(n.interpolation)
    ensures ParseNode(a) == Ok(NormalizeNode(n))
  {
    ReadIntOf("node", a, "id", n.id);
    ReadVec3Of("node", a, "x", "y", "z", n.position);
    ReadOptionalVec3Of("node", a, "rotX", "rotY", "rotZ", n.rotation);
    ReadOptionalFloatOf("node", a, "radius", n.radius);
    ReadOptionalIntOf("node", a, "inVp", n.inVp);
    ReadOptionalIntOf("node", a, "inMag", n.inMag);
    ReadOptionalIntOf("node", a, "bitDepth", n.bitDepth);
    ReadOptionalIntOf("node", a, "time", n.time);
  }

  /** The required attributes of a written node carry its id and position. */
  lemma NodeAttributesRequired(n: Node)
    ensures Get(NodeAttributes(n), "id") == Some(IntToStr(n.id))
    ensures Get(NodeAttributes(n), "x") == Some(n.position.x)
    ensures Get(NodeAttributes(n), "y") == Some(n.position.y)
    ensures Get(NodeAttributes(n), "z") == Some(n.position.z)
  {
    GetNodeAttribute(n, "id");
    GetNodeAttribute(n, "x");
    GetNodeAttribute(n, "y");
    GetNodeAttribute(n, "z");
  }

  /** rotX, rotY and rotZ are written exactly when the rotation is set. */
  lemma NodeAttributesRotation(n: Node)
    ensures Get(NodeAttributes(n), "rotX") == (if n.rotation.Some? then Some(n.rotation.value.x) else None)
    ensures Get(NodeAttributes(n), "rotY") == (if n.rotation.Some? then Some(n.rotation.value.y) else None)
    ensures Get(NodeAttributes(n), "rotZ") == (if n.rotation.Some? then Some(n.rotation.value.z) else None)
  {
    GetNodeAttribute(n, "rotX");
    GetNodeAttribute(n, "rotY");
    GetNodeAttribute(n, "rotZ");
  }

  lemma NodeAttributesOptional(n: Node)
    ensures Get(NodeAttributes(n), "radius") == OptFloat(n.radius)
    ensures Get(NodeAttributes(n), "inVp") == OptInt(n.inVp)
    ensures Get(NodeAttributes(n), "inMag") == OptInt(n.inMag)
  {
    GetNodeAttribute(n, "radius");
    GetNodeAttribute(n, "inVp");
    GetNodeAttribute(n, "inMag");
  }

  lemma NodeAttributesLater(n: Node)
    ensures Get(NodeAttributes(n), "bitDepth") == OptInt(n.bitDepth)
    ensures Get(NodeAttributes(n), "time") == OptInt(n.time)
  {
    GetNodeAttribute(n, "bitDepth");
    GetNodeAttribute(n, "time");
  }

  lemma NodeAttributesInterpolation(n: Node)
    ensures Get(NodeAttributes(n), "interpolation") == OptBool(n.interpolation)
  {
    GetNodeAttribute(n, "interpolation");
  }

  /** A written node reads back as itself, its interpolation flag normalised. */
  lemma NodeRoundTrip(n: Node)
    ensures ParseNode(NodeAttributes(n)) == Ok(NormalizeNode(n))
  {
    NodeAttributesRequired(n);
    NodeAttributesRotation(n);
    NodeAttributesOptional(n);
    NodeAttributesLater(n);
    NodeAttributesInterpolation(n);
    ParseNodeOf(n, NodeAttributes(n));
  }

  lemma EdgeRoundTrip(e: Edge)
    ensures ParseEdge(EdgeAttributes(e)) == Ok(e)
  {
    ReadIntOf("edge", EdgeAttributes(e), "source", e.source);
    ReadIntOf("edge", EdgeAttributes(e), "target", e.target);
  }

  /** A written tree's own attributes read back as the tree without nodes and edges, its groupId normalised. */
  lemma TreeRoundTrip(t: Tree)
    requires WritableTree(t)
    ensures ParseTree(TreeAttributes(t)) == Ok(t.(nodes := [], edges := [], groupId := NormalizeGroupId(t.groupId)))
  {
    var a := TreeAttributes(t);
    ReadIntOf("thing", a, "id", t.id);
    if t.groupId.Some? {
      IntRoundTrip(t.groupId.value);
    }
  }

  lemma BranchpointRoundTrip(b: Branchpoint)
    ensures ParseBranchpoint(BranchpointAttributes(b)) == Ok(b)
  {
    var a := BranchpointAttributes(b);
    ReadIntOf("branchpoint", a, "id", b.id);
    ReadOptionalIntOf("branchpoint", a, "time", b.time);
  }

  lemma CommentRoundTrip(c: Comment)
    ensures ParseComment(CommentAttributes(c)) == Ok(c)
  {
    ReadIntOf("comment", CommentAttributes(c), "node", c.node);
  }

  /** A written group reads back as itself without its children, which follow as elements. */
  lemma GroupRoundTrip(g: Group)
    requires g.name.Some?
    ensures ParseGroup(GroupAttributes(g)) == Ok(g.(children := []))
  {
    ReadIntOf("group", GroupAttributes(g), "id", g.id);
  }

  lemma BoundingBoxRoundTrip(kept: seq<Child>, prefix: string, b: Option<BoundingBox>)
    requires Find(kept, prefix + "BoundingBox") == (if b.Some? then Some(BoundingBoxChild(prefix, b)[0].attrs) else None)
    ensures ParseBoundingBox(kept, prefix) == Ok(b)
  {
    if b.Some? {
      var a := BoundingBoxChild(prefix, b)[0].attrs;
      var box := b.value;
      ReadIntOf(prefix + "BoundingBox", a, "topLeftX", box.topLeftX);
      ReadIntOf(prefix + "BoundingBox", a, "topLeftY", box.topLeftY);
      ReadIntOf(prefix + "BoundingBox", a, "topLeftZ", box.topLeftZ);
      ReadIntOf(prefix + "BoundingBox", a, "width", box.width);
      ReadIntOf(prefix + "BoundingBox", a, "height", box.height);
      ReadIntOf(prefix + "BoundingBox", a, "depth", box.depth);
    }
  }

  lemma ReadChildVec3Of(kept: seq<Child>, tag: string, kx: string, ky: string, kz: string, v: Option<Vec3>)
    requires kx != ky && ky != kz && kx != kz
    requires Find(kept, tag) == (if v.Some? then Some(Vec3Attributes(v.value, kx, ky, kz)) else None)
    ensures ReadChildVec3(kept, tag, kx, ky, kz) == Ok(v)
  {
    if v.Some? {
      ReadVec3Attributes(tag, v.value, kx, ky, kz);
    }
  }

  lemma ReadChildTimeOf(kept: seq<Child>, t: Option<int>)
    requires Find(kept, "time") == (if t.Some? then Some(map["ms" := IntToStr(t.value)]) else None)
    ensures ReadChildTime(kept) == Ok(t)
  {
    if t.Some? {
      ReadIntOf("time", map["ms" := IntToStr(t.value)], "ms", t.value);
    }
  }

  /** Children whose every element reads back as the corresponding field read back as the parameters. */
  lemma ParseParametersOf(kept: seq<Child>, p: Parameters)
    requires p.name.Some?
    requires ReadChildVec3(kept, "offset", "x", "y", "z") == Ok(p.offset)
    requires ReadChildVec3(kept, "editRotation", "xRot", "yRot", "zRot") == Ok(p.editRotation)
    requires ReadChildVec3(kept, "editPosition", "x", "y", "z") == Ok(p.editPosition)
    requires ReadChildTime(kept) == Ok(p.time)
    requires Find(kept, "zoomLevel") == (if p.zoomLevel.Some? then Some(map["zoom" := p.zoomLevel.value]) else None)
    requires ParseBoundingBox(kept, "task") == Ok(p.taskBoundingBox)
    requires ParseBoundingBox(kept, "user") == Ok(p.userBoundingBox)
    requires Find(kept, "experiment") == Some(map["name" := p.name.value])
    requires Find(kept, "scale").Some? && ReadVec3("scale", Find(kept, "scale").value, "x", "y", "z") == Ok(p.scale)
    ensures ParseParameters(kept) == Ok(p)
  {
  }

  /** Children holding the writer's elements for each field, whatever else they hold, read back as the parameters. */
  lemma ParametersFromChildren(kept: seq<Child>, p: Parameters)
    requires p.name.Some?
    requires Find(kept, "experiment") == Some(map["name" := p.name.value])
    requires Find(kept, "scale") == Some(Vec3Attributes(p.scale, "x", "y", "z"))
    requires Find(kept, "offset") == (if p.offset.Some? then Some(Vec3Attributes(p.offset.value, "x", "y", "z")) else None)
    requires Find(kept, "time") == (if p.time.Some? then Some(map["ms" := IntToStr(p.time.value)]) else None)
    requires Find(kept, "editPosition") == (if p.editPosition.Some? then Some(Vec3Attributes(p.editPosition.value, "x", "y", "z")) else None)
    requires Find(kept, "editRotation") == (if p.editRotation.Some? then Some(Vec3Attributes(p.editRotation.value, "xRot", "yRot", "zRot")) else None)
    requires Find(kept, "zoomLevel") == (if p.zoomLevel.Some? then Some(map["zoom" := p.zoomLevel.value]) else None)
    requires Find(kept, "taskBoundingBox") == (if p.taskBoundingBox.Some? then Some(BoundingBoxChild("task", p.taskBoundingBox)[0].attrs) else None)
    requires Find(kept, "userBoundingBox") == (if p.userBoundingBox.Some? then Some(BoundingBoxChild("user", p.userBoundingBox)[0].attrs) else None)
    ensures ParseParameters(kept) == Ok(p)
  {
    BoundingBoxTags();
    ReadVec3Attributes("scale", p.scale, "x", "y", "z");
    ReadChildVec3Of(kept, "offset", "x", "y", "z", p.offset);
    ReadChildVec3Of(kept, "editPosition", "x", "y", "z", p.editPosition);
    ReadChildVec3Of(kept, "editRotation", "xRot", "yRot", "zRot", p.editRotation);
    ReadChildTimeOf(kept, p.time);
    BoundingBoxRoundTrip(kept, "task", p.taskBoundingBox);
    BoundingBoxRoundTrip(kept, "user", p.userBoundingBox);
    ParseParametersOf(kept, p);
  }

  /** The written children of `parameters` read back as the parameters. */
  lemma ParametersRoundTrip(p: Parameters)
    requires p.name.Some?
    ensures ParseParameters(ParameterChildren(p)) == Ok(p)
  {
    ParameterChildrenRequired(p);
    ParameterChildrenOffsetTime(p);
    ParameterChildrenEditPosition(p);
    ParameterChildrenEditRotation(p);
    ParameterChildrenZoom(p);
    ParameterChildrenTaskBox(p);
    ParameterChildrenUserBox(p);
    ParametersFromChildren(ParameterChildren(p), p);
  }
}
