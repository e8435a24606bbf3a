/**
 * The immutable records of one NML skeleton document (wknml/__init__.py:10-69).
 * Python's `None` is `Option.None`; every field the reader may leave unset is an `Option`,
 * including `name`, `color` and the group `name`, which the reader sets to None when the
 * attribute is missing even though the record's annotation says they are always present.
 */
module NmlTypes {
  import opened Wrappers
  import opened Numbers

  datatype Vec3 = Vec3(x: FloatToken, y: FloatToken, z: FloatToken)

  datatype Color = Color(r: FloatToken, g: FloatToken, b: FloatToken, a: FloatToken)

  /** origin xyz and extent of a task or user bounding box */
  datatype BoundingBox = BoundingBox(topLeftX: int, topLeftY: int, topLeftZ: int, width: int, height: int, depth: int)

  datatype Parameters = Parameters(
    name: Option<string>,
    scale: Vec3,
    offset: Option<Vec3>,
    time: Option<int>,
    editPosition: Option<Vec3>,
    editRotation: Option<Vec3>,
    zoomLevel: Option<string>,   // kept as the attribute's raw text
    taskBoundingBox: Option<BoundingBox>,
    userBoundingBox: Option<BoundingBox>)

  datatype Node = Node(
    id: int,
    position: Vec3,
    radius: Option<FloatToken>,
    rotation: Option<Vec3>,
    inVp: Option<int>,
    inMag: Option<int>,
    bitDepth: Option<int>,
    interpolation: Option<bool>,
    time: Option<int>)

  datatype Edge = Edge(source: int, target: int)

  datatype Tree = Tree(
    id: int,
    color: Option<Color>,
    name: Option<string>,
    nodes: seq<Node>,
    edges: seq<Edge>,
    groupId: Option<int>)

  datatype Branchpoint = Branchpoint(id: int, time: Option<int>)

  /** A group and its sub-groups: the groups of a document form a forest. */
  datatype Group = Group(id: int, name: Option<string>, children: seq<Group>)

  datatype Comment = Comment(node: int, content: Option<string>)

  datatype Nml = Nml(
    parameters: Option<Parameters>,   // None when the document has no parameters element
    trees: seq<Tree>,
    branchpoints: seq<Branchpoint>,
    comments: seq<Comment>,
    groups: seq<Group>)
}
