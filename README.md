# wknml in Dafny

A model of the core of `wknml`, the Python library that reads and writes webKnossos NML skeleton
files, with proofs about it. An NML document holds parameters, skeleton trees (nodes and edges),
branchpoints, comments and a forest of tree groups.

The project models five parts of the library:

- **The event-stream reader and writer** (`wknml/__init__.py`).
  - `parse_nml` is the class `NmlParse.Reader`. Its fields are the loop's local state: the
    current-tree slot, the group stack with its synthetic root, and the element stack. Its
    `StartElement`/`EndElement` methods are the two halves of the loop body. `NmlParse.ParseNml`
    drives them over a sequence of start/end events, and every step is proved equal to the pure
    step function `NmlParse.Step`.
  - The `__parse_*` helpers are pure functions over attribute maps.
  - The `__dump_*` helpers are functions returning event sequences. `xf.tag(n, a)` is a start
    event followed by its end event.
  - The main theorems:
    - For every writable document `x`, reading back what `write_nml` writes gives
      `Normalize(x)` (`NmlStreamRoundTrip.WriteThenRead`).
    - `Normalize` sets every node's interpolation flag that is `False` to `True`, and every
      negative `groupId` to `None`.
    - Documents already in that normal form round-trip exactly.
    - One write-and-read reaches a fixed point.
- **The legacy element-tree variant** (`wknml/__main__.py`). Parsing is pure functions over an
  element tree, and dumping is methods whose loops append children. The model shows that, as
  written, a dumped document with at least one tree cannot be read back. The writer tags the
  edge container `egdes` (line 230). The reader looks for `edges`, and so iterates over `None`.
  With the tag corrected, the round trip holds up to the reader's zero defaults.
- **Edge padding and id threading** (`wknml/nml_utils.py`). A graph is the class `Graphs.Graph`,
  with node order, attribute dictionaries and an edge list. It models the networkx operations the
  code calls.
  - `ensure_max_edge_length_in_tree` collects over the edge view, then changes the graph. The
    proofs cover:
    - the chain shape;
    - the consecutive fresh ids;
    - the copied attributes of each padding node;
    - that no node is lost;
    - that every long edge is gone.
  - `detect_max_node_id_from_all_graphs` and the counter loop of `ensure_max_edge_length` are
    proved to hand every tree ids it does not have.
- **Degree-2 contraction** (`wknml/nml_utils_2.py`). `approximate_minimal_edge_length_for_graph`
  makes one pass over a snapshot of the degree-2 nodes. It is proved equal to a pure pass `Run`
  that also reports the `IndexError`/`KeyError` the Python code would raise. The proofs are about
  what one cut does and what the whole pass keeps.
- **The group tree merger** (`examples/nml_group_tree_merger.py`). `merge_trees_to_one_tree`
  repeatedly sorts by node count, finds the nearest pair of nodes in scan order, and merges the
  smallest tree into the nearest one with one bridging edge. `create_merged_nml` does this once
  per top-level group.

The model abstracts a few things:

- Numbers in attribute texts are modelled this way:
  - Integers are decimal text, with a proved round trip (`Numbers`).
  - Floats are opaque tokens: strings in the Python float-literal grammar whose text is their value.
  - Distances, vector lengths and angles are function parameters.

## Model

| member | source | states |
|---|---|---|
| Events.Put | wknml/__init__.py:403-413 | adding or omitting one attribute leaves every other attribute as it was |
| Numbers.IntRoundTrip | wknml/__init__.py:366 | `int(str(i)) == i` for every integer, so every id and count the writer writes reads back |
| Numbers.ParseInt | wknml/__init__.py:150 | `int(text)`, modelled as accepting exactly an optional sign followed by at least one ASCII digit |
| Numbers.BoolReadsBackTrue | wknml/__init__.py:389-390 | both texts the writer produces for a flag read back as true, so `False` does not survive |
| Numbers.FloatRoundTrip | wknml/__init__.py:367 | reading back the text of a float token gives the token |
| NmlParse.NodeRequiredAttributes | wknml/__init__.py:149-158 | a node without id, x, y or z fails; the id is `int` of its text and the position is the texts of x, y, z |
| NmlParse.NodeRotation | wknml/__init__.py:141-147 | a rotation is present exactly when rotX is; rotX without rotY or rotZ fails |
| NmlParse.NodeOptionalAttributes | wknml/__init__.py:151-168 | radius, inVp, inMag, bitDepth and time are None when absent and converted when present |
| NmlParse.NodeInterpolation | wknml/__init__.py:165-167 | interpolation is present exactly when the attribute is, and then true exactly when its text is non-empty |
| NmlParse.EdgeRules | wknml/__init__.py:172-173 | an edge parses exactly when source and target are integers, and then carries their values |
| NmlParse.TreeIdAndName | wknml/__init__.py:177-210 | a parsed tree has no nodes or edges; id is required; `name` overrides `comment`, and neither gives None |
| NmlParse.TreeColor | wknml/__init__.py:183-197 | the colour is present exactly when `color.r` or `colorr` is; the concatenated form wins over the dotted one |
| NmlParse.ColorRead | wknml/__init__.py:184-190 | a colour read without error is present exactly when its first key is, and holds the four texts |
| NmlParse.TreeGroupId | wknml/__init__.py:198-208 | a missing, non-integer or negative groupId reads as None; a non-negative one is kept |
| NmlParse.TreeGroupIdNeverRaises | wknml/__init__.py:198-201 | whatever the groupId text, it never makes the tree fail to parse |
| NmlParse.BranchpointRules | wknml/__init__.py:213-219 | id is required and read as an integer; time is None when absent |
| NmlParse.CommentRules | wknml/__init__.py:222-225 | a comment parses exactly when `node` is an integer; its content is the attribute or None |
| NmlParse.GroupRules | wknml/__init__.py:228-229 | a group parses exactly when its id is an integer; its name is the attribute or None, with no children |
| NmlParse.ParseBoundingBox | wknml/__init__.py:72-84 | a bounding box is present exactly when `<prefix>BoundingBox` is among the parameters' children |
| NmlParse.FindAppend | wknml/__init__.py:75 | `find` returns the first match: it searches the first part of the children before the rest |
| NmlParse.ParametersRequired | wknml/__init__.py:123-129 | without experiment or scale the parameters fail; the name is the experiment's `name` attribute |
| NmlParse.ParametersOptional | wknml/__init__.py:88-118 | offset, time, editPosition and editRotation are present exactly when their element is; zoomLevel is the raw `zoom` text |
| NmlParse.ParametersBoundingBoxes | wknml/__init__.py:120-121 | each bounding box is present exactly when its element is |
| NmlParse.Opened | wknml/__init__.py:248 | a start event pushes a fresh frame for the element |
| NmlParse.CloseGroup | wknml/__init__.py:276 | popping a group keeps the root group on the stack |
| NmlParse.RunFromCons | wknml/__init__.py:246 | the loop consumes the events one at a time and stops at the first failure |
| NmlParse.Step | wknml/__init__.py:246-283 | a node or edge start without an open thing fails the assertion; a thing end clears the current tree; an end must close the innermost element |
| NmlParse.StepMirrorsGroups | wknml/__init__.py:266-276 | each step keeps one stacked group per open group element, so a group end never pops the root |
| NmlParse.StartMirrorsGroups | wknml/__init__.py:266-269 | a start event keeps the group stack in line with the open group elements |
| NmlParse.StartOpens | wknml/__init__.py:248 | a successful start event pushes exactly its own frame |
| NmlParse.StartPushesGroup | wknml/__init__.py:266-269 | only a `group` start pushes a group, and exactly one |
| NmlParse.EndMirrorsGroups | wknml/__init__.py:275-276 | an end event keeps the group stack in line, and a group end finds a group above the root |
| NmlParse.GroupStackMirrorsElements | wknml/__init__.py:242-276 | the group stack stays in line with the open group elements over any run of events |
| NmlParse.StepKeepsParameters | wknml/__init__.py:271-272 | no event but the end of `parameters` changes the parameters |
| NmlParse.RunKeepsParameters | wknml/__init__.py:271-272 | only the end of a `parameters` element sets the parameters |
| NmlParse.NoParametersElement | wknml/__init__.py:237 | a document without a `parameters` element reads with parameters None |
| NmlParse.Reader.StartElement | wknml/__init__.py:247-269 | the start half of the loop body updates the reader's fields as `Step` does, or raises what `Step` fails with |
| NmlParse.Reader.EndElement | wknml/__init__.py:270-283 | the end half of the loop body updates the reader's fields as `Step` does, or raises what `Step` fails with |
| NmlParse.ParseNml | wknml/__init__.py:232-291 | the loop over the events returns what the event-by-event specification `ParseEvents` gives |
| NmlWrite.NodeAttributesRequired | wknml/__init__.py:365-370 | id, x, y and z are always written, and no attribute outside the node's thirteen names is |
| NmlWrite.NodeAttributesOmitNone | wknml/__init__.py:372-378 | radius and the three rotation attributes are written exactly when their fields are not None |
| NmlWrite.NodeAttributesOmitNoneLater | wknml/__init__.py:380-393 | inVp, inMag, bitDepth, interpolation and time are written exactly when their fields are not None |
| NmlWrite.GetNodeAttribute | wknml/__init__.py:363-395 | each attribute of a written node is the text of the corresponding field, or absent when that field is None |
| NmlWrite.TreeAttributes | wknml/__init__.py:403-413 | a thing carries id, name and the dotted colour, groupId exactly when it is set, and never the legacy spellings |
| NmlWrite.BranchpointAttributes | wknml/__init__.py:427-433 | id is always written, time exactly when it is set |
| NmlWrite.CommentAttributes | wknml/__init__.py:436-440 | node is always written, content exactly when it is set |
| NmlWrite.ParameterChildrenRequired | wknml/__init__.py:313-322 | experiment then scale come first and always |
| NmlWrite.ParameterChildrenOffsetTime | wknml/__init__.py:324-335 | offset and time are written exactly when set, with their values |
| NmlWrite.ParameterChildrenEditPosition | wknml/__init__.py:336-344 | editPosition is written exactly when set |
| NmlWrite.ParameterChildrenEditRotation | wknml/__init__.py:345-353 | editRotation is written exactly when set, under xRot, yRot and zRot |
| NmlWrite.ParameterChildrenZoom | wknml/__init__.py:354-355 | zoomLevel is written exactly when set |
| NmlWrite.ParameterChildrenTaskBox | wknml/__init__.py:357 | the task bounding box is written exactly when set |
| NmlWrite.ParameterChildrenUserBox | wknml/__init__.py:358 | the user bounding box is written exactly when set |
| NmlWrite.ParameterChildrenSearch | wknml/__init__.py:312-360 | a search among the written parameter children finds experiment, scale, then each optional child where it was written |
| NmlRoundTrip.NodeRoundTrip | wknml/__init__.py:363-395 | a written node reads back as itself, its interpolation flag normalised |
| NmlRoundTrip.ParseNodeOf | wknml/__init__.py:140-169 | any attribute map holding a node's texts reads back as that node, its flag normalised |
| NmlRoundTrip.NodeAttributesRequired | wknml/__init__.py:365-370 | the written id, x, y and z are the node's own texts |
| NmlRoundTrip.NodeAttributesRotation | wknml/__init__.py:375-378 | the written rotation attributes are the rotation's texts, or absent |
| NmlRoundTrip.NodeAttributesOptional | wknml/__init__.py:372-384 | the written radius, inVp and inMag are the fields' texts, or absent |
| NmlRoundTrip.NodeAttributesLater | wknml/__init__.py:386-393 | the written bitDepth and time are the fields' texts, or absent |
| NmlRoundTrip.NodeAttributesInterpolation | wknml/__init__.py:389-390 | the written interpolation is the flag's text, or absent |
| NmlRoundTrip.EdgeRoundTrip | wknml/__init__.py:398-399 | a written edge reads back as itself |
| NmlRoundTrip.TreeRoundTrip | wknml/__init__.py:402-415 | a written thing's attributes read back as the tree without nodes and edges, a negative groupId becoming None |
| NmlRoundTrip.BranchpointRoundTrip | wknml/__init__.py:427-433 | a written branchpoint reads back as itself |
| NmlRoundTrip.CommentRoundTrip | wknml/__init__.py:436-440 | a written comment reads back as itself |
| NmlRoundTrip.GroupRoundTrip | wknml/__init__.py:443-444 | a written group reads back as itself without its children |
| NmlRoundTrip.BoundingBoxRoundTrip | wknml/__init__.py:294-309 | a written bounding box, or its absence, reads back |
| NmlRoundTrip.ParametersRoundTrip | wknml/__init__.py:312-360 | the written children of `parameters` read back as the parameters |
| NmlRoundTrip.ReadChildVec3Of | wknml/__init__.py:88-110 | a vector child written with its three attributes, or absent, reads back |
| NmlRoundTrip.ReadChildTimeOf | wknml/__init__.py:112-114 | a time child written with `ms`, or absent, reads back |
| NmlRoundTrip.ParseParametersOf | wknml/__init__.py:87-137 | children from which every field reads back give the parameters |
| NmlRoundTrip.ParametersFromChildren | wknml/__init__.py:87-137 | children that a search finds as the writer placed them read back as the parameters |
| NmlStreamRoundTrip.RunTree | wknml/__init__.py:402-424 | reading a written thing appends the normalised tree with all its nodes and edges, and clears the current tree |
| NmlStreamRoundTrip.RunNodes | wknml/__init__.py:416-419 | reading written nodes inside a thing appends them, normalised, to the current tree in order |
| NmlStreamRoundTrip.RunEdges | wknml/__init__.py:420-423 | reading written edges inside a thing appends them to the current tree in order |
| NmlStreamRoundTrip.RunTrees | wknml/__init__.py:453-454 | written trees are read back in list order |
| NmlStreamRoundTrip.RunParameters | wknml/__init__.py:271-272 | the written parameters element is read back, at its end, as the document's parameters |
| NmlStreamRoundTrip.RunLeaves | wknml/__init__.py:279-283 | leaf children inside `parameters` are kept on its frame, in order, until it ends |
| NmlStreamRoundTrip.RunBranchpoints | wknml/__init__.py:456-459 | written branchpoints are read back in order |
| NmlStreamRoundTrip.RunComments | wknml/__init__.py:461-464 | written comments are read back in order |
| NmlStreamRoundTrip.RunGroup | wknml/__init__.py:443-447 | a written group with all its descendants is read back as the last child of the innermost open group |
| NmlStreamRoundTrip.GroupEndRun | wknml/__init__.py:275-276 | the end of a group pops it onto its parent's children |
| NmlStreamRoundTrip.RunGroups | wknml/__init__.py:466-469 | sibling groups are read back in order, with ids, names, children and depth |
| NmlStreamRoundTrip.WriteThenRead | wknml/__init__.py:450-478 | reading back a written document gives the document with interpolation False made True and negative groupIds made None |
| NmlStreamRoundTrip.NormalNode | wknml/__init__.py:165-167 | a node survives a round trip exactly when its interpolation flag is not False |
| NmlStreamRoundTrip.NormalizeTreeFixed | wknml/__init__.py:198-208 | a tree survives exactly when it is in normal form, and every read-back tree is |
| NmlStreamRoundTrip.NormalizeIdempotent | wknml/__init__.py:165-167 | normalising twice is normalising once |
| NmlStreamRoundTrip.NormalizeWritable | wknml/__init__.py:402-413 | a read-back document can be written again |
| NmlStreamRoundTrip.ExactRoundTrip | wknml/__init__.py:232-291 | a writable document in normal form reads back exactly |
| NmlStreamRoundTrip.ReadBackIsStable | wknml/__init__.py:473-478 | what one write and read produce is a fixed point of writing and reading |
| NmlStreamRoundTrip.InterpolationFalseIsLost | wknml/__init__.py:389-390 | a document with a node whose interpolation is False reads back, but not as itself |
| LegacyNml.Required | wknml/__main__.py:146-149 | a container handed on without a None check is found, or reading fails |
| LegacyNml.FirstWithTag | wknml/__main__.py:32 | `find` returns a child with the tag, and None exactly when there is none |
| LegacyNml.ParseAll | wknml/__main__.py:120 | a list comprehension of reads succeeds exactly when every item reads, and then gives the items in order |
| LegacyNml.Elements | wknml/__main__.py:227-232 | the children written for a list are one element per item, in list order |
| LegacyNml.ReadChildVec3Or | wknml/__main__.py:31-45 | a missing offset or editRotation element gives (0, 0, 0) |
| LegacyNml.RequiredVec3 | wknml/__main__.py:53-64 | a missing scale or editPosition element makes reading fail |
| LegacyNml.ReadContainer | wknml/__main__.py:148-149 | a missing container makes reading fail; else its children are read in order |
| LegacyNml.ParseParameters | wknml/__main__.py:30-67 | experiment, scale, time and editPosition are required; offset and editRotation are zeros without their element; zoomLevel is the int 0 without its element, else its `zoom` text |
| LegacyNml.ReadRotation | wknml/__main__.py:79-83 | each rotation component defaults to 0 |
| LegacyNml.ParseNode | wknml/__main__.py:70-89 | id, radius, x, y, z and time are required; rotations read as `ReadRotation`; inVp and inMag default to 0, bitDepth to 8; interpolation is false only for an empty text |
| LegacyNml.ParseEdge | wknml/__main__.py:92-93 | source and target are required |
| LegacyNml.ParseTree | wknml/__main__.py:96-126 | nodes and edges containers are required; the name is `name`, else `comment`, else empty; the colour defaults to (0,0,0,1), with `colorr` winning; groupId defaults to 1 |
| LegacyNml.ParseBranchpoint | wknml/__main__.py:129-130 | id and time are required |
| LegacyNml.ParseComment | wknml/__main__.py:133-134 | content defaults to the empty text |
| LegacyNml.ParseGroup | wknml/__main__.py:137-138 | name defaults to the empty text |
| LegacyNml.ReadGroups | wknml/__main__.py:142-144 | without a groups element there is the one group (1, ""); otherwise one flat group per child |
| LegacyNml.ParseNml | wknml/__main__.py:141-151 | parameters, branchpoints and comments are required; the trees are every `thing` in document order |
| LegacyNml.AppendAll | wknml/__main__.py:258-260 | the loop appending one element per item gives the items' elements in list order |
| LegacyNml.DumpTree | wknml/__main__.py:214-233 | the method building a thing gives the `thing` element with `nodes` and `egdes` containers |
| LegacyNml.DumpTrees | wknml/__main__.py:255-256 | the loop over the trees gives one thing per tree, in list order |
| LegacyNml.DumpNml | wknml/__main__.py:252-270 | the root receives parameters, the trees, then the branchpoints, comments and groups containers |
| LegacyRoundTrip.NodeAttributesHead | wknml/__main__.py:189-197 | a dumped node always carries id, radius and x |
| LegacyRoundTrip.NodeAttributesMiddle | wknml/__main__.py:196-198 | a dumped node always carries y, z and rotX |
| LegacyRoundTrip.NodeAttributesTail | wknml/__main__.py:199-205 | a dumped node always carries rotY, rotZ, inVp, inMag, bitDepth, interpolation and time |
| LegacyRoundTrip.NodeRoundTrip | wknml/__main__.py:189-207 | a dumped node reads back as itself with interpolation true |
| LegacyRoundTrip.ParseNodeOf | wknml/__main__.py:70-89 | any element holding the thirteen texts a dumped node has reads back as that node with interpolation true |
| LegacyRoundTrip.EdgeRoundTrip | wknml/__main__.py:210-211 | a dumped edge reads back as itself |
| LegacyRoundTrip.BranchpointRoundTrip | wknml/__main__.py:236-239 | a dumped branchpoint reads back as itself |
| LegacyRoundTrip.CommentRoundTrip | wknml/__main__.py:242-245 | a dumped comment reads back as itself |
| LegacyRoundTrip.GroupRoundTrip | wknml/__main__.py:248-249 | a dumped group reads back as itself |
| LegacyRoundTrip.ParseAllOf | wknml/__main__.py:120 | a list comprehension over elements that each read back reads back as the list |
| LegacyRoundTrip.ElementsReadBack | wknml/__main__.py:227-232 | elements dumped from a list read back as the list when each one does |
| LegacyRoundTrip.FirstAt | wknml/__main__.py:32 | `find` returns the first child with the tag |
| LegacyRoundTrip.Vec3RoundTrip | wknml/__main__.py:154-186 | a vector dumped under three distinct keys reads back |
| LegacyRoundTrip.OffsetNotFound | wknml/__main__.py:32 | the dumped parameters hold no offset element |
| LegacyRoundTrip.HeadTagsFound | wknml/__main__.py:52-59 | `find` locates experiment, time and scale at their dumped places |
| LegacyRoundTrip.EditTagsFound | wknml/__main__.py:40-63 | `find` locates editPosition and editRotation at their dumped places |
| LegacyRoundTrip.ZoomTagFound | wknml/__main__.py:48-49 | `find` locates zoomLevel at its dumped place |
| LegacyRoundTrip.ParseParametersOf | wknml/__main__.py:30-67 | an element whose children are found as dumped reads back, offset becoming zeros |
| LegacyRoundTrip.ParametersRoundTrip | wknml/__main__.py:154-186 | dumped parameters read back, offset becoming zeros and zoomLevel its text |
| LegacyRoundTrip.TreeAttributesFacts | wknml/__main__.py:215-225 | a dumped thing carries the id, groupId and name texts and no `colorr` |
| LegacyRoundTrip.TreeColorFacts | wknml/__main__.py:220-223 | a dumped thing carries the dotted colour texts |
| LegacyRoundTrip.ParseTreeOf | wknml/__main__.py:96-126 | a thing with the dumped attributes and readable containers reads back as the tree |
| LegacyRoundTrip.NodesReadBack | wknml/__main__.py:227-229 | dumped nodes read back in order with interpolation true |
| LegacyRoundTrip.EdgesReadBack | wknml/__main__.py:230-232 | dumped edges read back in order |
| LegacyRoundTrip.ThingsAppend | wknml/__main__.py:147 | `iter("thing")` over two runs of children is the first run's things then the second's |
| LegacyRoundTrip.LeavesHoldNoThings | wknml/__main__.py:147 | leaves that are not things contribute no thing |
| LegacyRoundTrip.ThingsOfThings | wknml/__main__.py:147 | children that are each one thing are found as themselves |
| LegacyRoundTrip.ContainerHoldsNoThings | wknml/__main__.py:147 | a container of non-thing leaves holds no thing |
| LegacyRoundTrip.TreeIsOneThing | wknml/__main__.py:147 | a dumped tree is found once by `iter("thing")` |
| LegacyRoundTrip.PairIsOneThing | wknml/__main__.py:147 | a thing holding two thing-free children is found once |
| LegacyRoundTrip.ParametersHoldNoThings | wknml/__main__.py:147 | dumped parameters hold no thing |
| LegacyRoundTrip.DocumentThings | wknml/__main__.py:147 | the `thing` elements of a dumped document are exactly its tree elements, in order |
| LegacyRoundTrip.DocumentContainers | wknml/__main__.py:252-270 | parameters, branchpoints, comments and groups are found at their places in a dumped document |
| LegacyRoundTrip.DocumentTagsFound | wknml/__main__.py:146-149 | `find` locates parameters, branchpoints, comments and groups around any run of things |
| LegacyRoundTrip.ChildrenTags | wknml/__main__.py:252-270 | the root's children are parameters, the things, then the three containers |
| LegacyRoundTrip.ParseNmlOf | wknml/__main__.py:141-151 | a dumped document whose things read back reads back as the document, normalised |
| LegacyRoundTrip.WrittenTreeUnreadable | wknml/__main__.py:230 | no dumped tree reads back: the reader finds no `edges` child |
| LegacyRoundTrip.WrittenDocumentUnreadable | wknml/__main__.py:230 | a dumped document with at least one tree cannot be read back at all |
| LegacyRoundTrip.CorrectedTreeRoundTrip | wknml/__main__.py:121 | with the container tagged `edges`, a dumped tree reads back with every node's flag set |
| LegacyRoundTrip.CorrectedTreeReadable | wknml/__main__.py:121 | with the container tagged `edges`, a dumped tree is one thing and reads back |
| LegacyRoundTrip.CorrectedRoundTrip | wknml/__main__.py:141-151 | with the container tagged `edges`, a dumped document reads back up to the reader's defaults |
| Graphs.WithEdge | wknml/nml_utils_2.py:68 | `add_edge` adds missing endpoints, makes the edge present, and adds an entry only if it was absent |
| Graphs.Between | wknml/nml_utils.py:39-40 | the vector between two nodes leads from the first position to the second |
| Graphs.AddNodeId | wknml/nml_utils.py:95 | adding an endpoint to the node list adds exactly that id |
| Graphs.WithEdges | wknml/nml_utils.py:95 | `add_edges_from` adds every endpoint and every edge, keeps every old edge and invents none |
| Graphs.WithoutAll | wknml/nml_utils.py:94 | `remove_edges_from` removes exactly the listed edges, in either orientation |
| Graphs.WithNode | wknml/nml_utils.py:97 | `add_node` adds the node if it is new and leaves the edges alone |
| Graphs.WithoutNode | wknml/nml_utils_2.py:67 | `remove_node` removes the node and exactly the edges touching it |
| Graphs.Neighbors | wknml/nml_utils_2.py:57 | the neighbours are exactly the other ends of the edges at the node |
| Graphs.Incident | wknml/nml_utils.py:63 | the edges reported at a node are stored edges from it to nodes not yet visited, all of them |
| Graphs.EdgeView | wknml/nml_utils.py:63 | `graph.edges` reports only stored edges, from an endpoint in node order, and every stored edge in some orientation |
| Graphs.UniqueInit | wknml/nml_utils.py:63 | without its last id a list of distinct ids stays distinct and lacks that id |
| Graphs.IncidentOnce | wknml/nml_utils.py:63 | over edges listed once, the edges at a node are reported once each |
| Graphs.EdgeViewOnce | wknml/nml_utils.py:63 | over distinct nodes and edges listed once, `graph.edges` reports no undirected edge twice, in either orientation |
| Graphs.ValidWithEdges | wknml/nml_utils.py:95 | `add_edges_from` keeps a graph valid (distinct nodes and edges, attributes only for nodes) |
| Graphs.ValidWithoutAll | wknml/nml_utils.py:94 | `remove_edges_from` keeps a graph valid |
| Graphs.ValidWithNode | wknml/nml_utils.py:97 | `add_node` keeps a graph valid |
| Graphs.ValidWithoutNode | wknml/nml_utils_2.py:67 | `remove_node` keeps a graph valid |
| Graphs.ValidWithEdge | wknml/nml_utils_2.py:68 | `add_edge` keeps a graph valid |
| Graphs.Graph.constructor | wknml/nml_utils.py:59 | a graph object holds the given nodes, attributes and edges |
| Graphs.Graph.RemoveEdgesFrom | wknml/nml_utils.py:94 | the graph's edges become the old ones minus the listed edges; nothing else changes |
| Graphs.Graph.AddEdgesFrom | wknml/nml_utils.py:95 | the graph becomes `WithEdges` of the old graph |
| Graphs.Graph.AddNode | wknml/nml_utils.py:97 | the graph becomes `WithNode` of the old graph |
| Graphs.Graph.RemoveNode | wknml/nml_utils_2.py:67 | the graph becomes `WithoutNode` of the old graph |
| Graphs.Graph.AddEdge | wknml/nml_utils_2.py:68 | the graph becomes `WithEdge` of the old graph |
| IdThreading.MaxOf | wknml/nml_utils.py:53 | the maximum of a non-empty id list is one of its ids and bounds all of them |
| IdThreading.MaxAllIsMax | wknml/nml_utils.py:49-56 | the running maximum bounds every id of every tree, and is one of them unless it is the starting 0 |
| IdThreading.DetectMaxNodeId | wknml/nml_utils.py:49-56 | the nested loop returns the running maximum over all trees of all groups |
| IdThreading.Starts | wknml/nml_utils.py:19-21 | each tree starts where the previous tree left the counter |
| IdThreading.IdsNeverCollide | wknml/nml_utils.py:17-21 | with the counter above every id, each tree's padding ids are fresh, and the counter never goes back |
| IdThreading.ThreadedIdsFresh | wknml/nml_utils.py:17-21 | started at the maximum id plus one, the counter hands every tree ids it does not have |
| IdThreading.SplitTrees | wknml/nml_utils.py:20-21 | each tree of a group is split from where the previous one left the counter |
| IdThreading.EnsureMaxEdgeLength | wknml/nml_utils.py:17-21 | the counter starts at the maximum id plus one and every tree of every group is split in turn |
| MaxEdgeLength.Ceil | wknml/nml_utils.py:69 | `ceil(r)` is the least integer not below r |
| MaxEdgeLength.Range | wknml/nml_utils.py:74 | `range(lo, hi)` is the integers from lo up to hi, exclusive |
| MaxEdgeLength.Path | wknml/nml_utils.py:86-92 | consecutive ids are joined pairwise, in order |
| MaxEdgeLength.PaddingNodes | wknml/nml_utils.py:74-85 | padding node i is `PaddingNode` number i + 1 with id `id + i` |
| MaxEdgeLength.LongEdges | wknml/nml_utils.py:68-71 | the removed edges are exactly the edges longer than the bound |
| MaxEdgeLength.Chain | wknml/nml_utils.py:73-92 | the chain replacing (u, v) has m + 1 edges from u to v through the padding ids in order |
| MaxEdgeLength.ChainEnds | wknml/nml_utils.py:86-92 | a chain mentions only its two ends and its padding ids |
| MaxEdgeLength.PiecesAtLeastTwo | wknml/nml_utils.py:68-69 | a long edge with a positive bound is cut into at least two pieces |
| MaxEdgeLength.Step | wknml/nml_utils.py:68-92 | one loop iteration removes the edge exactly when it is long and adds padding nodes with consecutive ids |
| MaxEdgeLength.StepEnds | wknml/nml_utils.py:86-92 | an iteration's new edges touch only the long edge's ends and its new padding ids |
| MaxEdgeLength.StepTouchesPadding | wknml/nml_utils.py:86-92 | with a positive bound every new edge of an iteration touches one of its padding ids |
| MaxEdgeLength.PlanOf | wknml/nml_utils.py:63-92 | the loop removes the long edges, and the padding nodes carry the ids `id .. next` in order |
| MaxEdgeLength.PlanEnds | wknml/nml_utils.py:63-92 | the new edges touch only ends of long edges and the padding ids from `id` to `next` |
| MaxEdgeLength.PlanTouchesPadding | wknml/nml_utils.py:86-92 | with a positive bound every new edge touches a padding id |
| MaxEdgeLength.AddNodes | wknml/nml_utils.py:96-97 | setting node attributes adds their ids, leaves edges and other attributes alone |
| MaxEdgeLength.AddNodesLast | wknml/nml_utils.py:96-97 | a node set last carries the attributes it was given |
| MaxEdgeLength.ValidAddNodes | wknml/nml_utils.py:96-97 | setting padding nodes keeps the graph valid |
| MaxEdgeLength.Pad | wknml/nml_utils.py:73-92 | the inner loop produces the chain, the padding nodes and the counter advanced by their number |
| MaxEdgeLength.Collect | wknml/nml_utils.py:63-92 | the loop over the edge snapshot collects exactly `PlanOf` |
| MaxEdgeLength.ViewPositioned | wknml/nml_utils.py:63 | every edge of the edge view has both ends positioned |
| MaxEdgeLength.RemovedEnds | wknml/nml_utils.py:68-71 | the removed edges join nodes of the graph |
| MaxEdgeLength.PaddingOrigin | wknml/nml_utils.py:74-85 | every padding node is a copy of a long edge's first node with only id and position changed, placed j/n along the edge |
| MaxEdgeLength.SplitNodes | wknml/nml_utils.py:83-99 | no node is removed; the nodes added are exactly the ids from `current_id` up to the returned id |
| MaxEdgeLength.SplitData | wknml/nml_utils.py:79-97 | with fresh ids every original node keeps its attributes and node `id + k` carries padding node k |
| MaxEdgeLength.SplitEdges | wknml/nml_utils.py:68-95 | short edges stay, every new edge is present, and no other entry appears |
| MaxEdgeLength.LongEdgesGone | wknml/nml_utils.py:68-94 | with a positive bound and fresh ids, no long edge of the edge view survives in either direction |
| MaxEdgeLength.PaddingEnds | wknml/nml_utils.py:43-46 | the padding position at fraction 0 is node1's and at fraction 1 is node2's |
| MaxEdgeLength.AlongSymmetric | wknml/nml_utils.py:66 | a distance that scales along segments does not depend on the orientation of an edge |
| MaxEdgeLength.PieceShort | wknml/nml_utils.py:69-76 | with `dist(a, b)` at most n times the bound, the piece from i/n to (i+1)/n of the way is no longer than the bound |
| MaxEdgeLength.ChainPiecePlaced | wknml/nml_utils.py:73-92 | piece i of a chain runs from the position i/n to the position (i+1)/n of the way along the edge |
| MaxEdgeLength.ChainShort | wknml/nml_utils.py:69-92 | every piece of the chain replacing an edge of at most n times the bound is no longer than the bound |
| MaxEdgeLength.StepShort | wknml/nml_utils.py:68-92 | every edge one iteration adds is positioned and no longer than the bound |
| MaxEdgeLength.PlanAddedShort | wknml/nml_utils.py:63-92 | every edge the loop adds is positioned and no longer than the bound |
| MaxEdgeLength.NoLongEdgeLeft | wknml/nml_utils.py:59-99 | with a positive bound, fresh ids and a distance that scales along segments, no edge of the result is longer than `max_length` |
| MaxEdgeLength.SplitValid | wknml/nml_utils.py:94-97 | the result is a valid graph again |
| MaxEdgeLength.ApplyPlan | wknml/nml_utils.py:94-97 | the graph becomes the old graph with the collected edges removed, new edges added and padding nodes set |
| MaxEdgeLength.EnsureMaxEdgeLengthInTree | wknml/nml_utils.py:59-99 | the graph is changed as the plan over its edge view says, and the result is the next free id |
| MinEdgeLength.DegreeTwoNodes | wknml/nml_utils_2.py:53 | the candidates are exactly the nodes of degree 2 |
| MinEdgeLength.ApproximateMinimalEdgeLengthForGraph | wknml/nml_utils_2.py:52-68 | the loop leaves the graph as the pure pass over the snapshot does, and reports how that pass ends |
| MinEdgeLength.ContractEdges | wknml/nml_utils_2.py:66-68 | after a cut the edges are the old ones not touching the node, then the neighbours' edge unless they were joined |
| MinEdgeLength.ContractShape | wknml/nml_utils_2.py:66-68 | a cut removes the node, its attributes and its edges, joins the two neighbours, and touches nothing else |
| MinEdgeLength.ContractCount | wknml/nml_utils_2.py:66-68 | between two neighbours a cut keeps the graph valid and removes exactly one node |
| MinEdgeLength.ContractKeepsDegrees | wknml/nml_utils_2.py:66-68 | when the neighbours were not joined, every remaining node keeps its degree |
| MinEdgeLength.DegreeNeighbors | wknml/nml_utils_2.py:53-57 | without a self-loop, a node's degree is its number of neighbours |
| MinEdgeLength.VisitShrinks | wknml/nml_utils_2.py:55-68 | one visit keeps the graph valid, adds no node, removes only the candidate and keeps every attribute |
| MinEdgeLength.VisitCutsOrKeeps | wknml/nml_utils_2.py:65-68 | a visit that goes on either leaves the graph as it was or has passed both tests and removed exactly the candidate |
| MinEdgeLength.RunShrinks | wknml/nml_utils_2.py:55-68 | the pass keeps the graph valid, adds no node, removes only candidates and never changes a remaining node's position |
| MinEdgeLength.StaleCandidateFails | wknml/nml_utils_2.py:57-59 | on a triangle the cut adds no edge, so a degree-2 neighbour visited next raises IndexError |
| TreeMerger.InGroupMembers | examples/nml_group_tree_merger.py:19-24 | a tree is selected exactly when it is listed and carries the group id |
| TreeMerger.InGroupAppend | examples/nml_group_tree_merger.py:21-23 | selection keeps input order |
| TreeMerger.FindTreesById | examples/nml_group_tree_merger.py:19-24 | the loop returns exactly the trees of the group, in input order |
| TreeMerger.AllAppend | examples/nml_group_tree_merger.py:59-60 | the nodes and edges of two runs of trees are those of the first then the second |
| TreeMerger.SortKeeps | examples/nml_group_tree_merger.py:39 | the sort orders by node count and is a permutation of the trees |
| TreeMerger.SortSameTrees | examples/nml_group_tree_merger.py:39 | the sort keeps every tree's header, and keeps non-empty trees non-empty |
| TreeMerger.SortContents | examples/nml_group_tree_merger.py:39 | the sort keeps every node and every edge |
| TreeMerger.SortHead | examples/nml_group_tree_merger.py:39-40 | the tree merged away is the first of the trees with the fewest nodes |
| TreeMerger.ArgMin | examples/nml_group_tree_merger.py:52 | `argmin` is the first index of a smallest distance |
| TreeMerger.NearestStep | examples/nml_group_tree_merger.py:53-57 | a strictly smaller distance replaces the pair found so far; a tie keeps it |
| TreeMerger.NearestNext | examples/nml_group_tree_merger.py:47-49 | finishing the nodes of one tree leaves the nearest pair over the trees so far |
| TreeMerger.FindNearest | examples/nml_group_tree_merger.py:41-57 | the search returns a nearest pair, the first in scan order on ties |
| TreeMerger.MergeFirstKeeps | examples/nml_group_tree_merger.py:59-65 | one merge removes one tree, keeps every node and edge, and adds exactly the bridging edge |
| TreeMerger.MergeFirstHeaders | examples/nml_group_tree_merger.py:59-65 | after a merge every tree is non-empty and keeps the id, colour, name and group of a tree that was there |
| TreeMerger.MergeSmallest | examples/nml_group_tree_merger.py:37-65 | one loop pass fails exactly when a tree is empty; otherwise it merges the first tree of the sorted list into the tree of the nearest pair, adding exactly the edge between that pair, and leaves one tree fewer with every node kept |
| TreeMerger.MergeTreesToOneTree | examples/nml_group_tree_merger.py:35-67 | at most one tree comes back unchanged; two or more fail exactly when one is empty, else one tree is left; nodes are kept and one edge is added per merge |
| TreeMerger.MergedGroup | examples/nml_group_tree_merger.py:77-79 | a merged tree with the group's nodes and a header from the group is a merge of that group |
| TreeMerger.CreateMergedNml | examples/nml_group_tree_merger.py:70-81 | fails exactly when a group has no tree, or two or more trees of which one is empty; else one tree per group, in group order, with the group's id and all its nodes, the rest carried over |

## Left out

- XML lexing and writing are not modelled (`ET.iterparse`, the loxun `XmlWriter`, file handles). The
  reader consumes, and the writer produces, a sequence of start/end events with attribute maps.
  The legacy variant works on element values.
- `elem.clear()` (wknml/__init__.py:279-283) is not modelled. The reader keeps the children of a
  `parameters` element only, which gives the same results.
- Floats, `np.sqrt`, `acos` and `math.ceil` on floats are not modelled. Float attribute values are
  opaque tokens whose text is their value. Distance, vector length and angle are function
  parameters. `ceil` is exact on reals.
- `nml_generation.generate_graph`/`generate_nml` are not part of this model. Neither are the
  `isinstance` dispatch wrappers `ensure_max_edge_length` (wknml/nml_utils.py:11-16, 23-27) and
  `approximate_minimal_edge_length` (wknml/nml_utils_2.py:34-49).
  - Only the counter loop at wknml/nml_utils.py:17-21 is modelled.
  - The nested loop over groups and trees is modelled over the groups' trees, flattened in order.
- `load_and_save_merged_nml_trees`, `make_argparser` and the logging in the merger are left out.
  They are I/O and command-line handling.
- NmlWrite.WriteNml requires a writable document: parameters with a name, every tree with a colour
  and a name, every group with a name. The source raises or writes no valid attribute otherwise.
- LegacyNml.DumpNml requires parameters with a name, for the same reason.
- MaxEdgeLength.EnsureMaxEdgeLengthInTree requires both ends of every edge to carry attributes. The
  source's `graph.nodes[...]["position"]` raises otherwise.
- MaxEdgeLength.EnsureMaxEdgeLengthInTree and IdThreading.EnsureMaxEdgeLength require a non-zero
  bound. The division in the source raises otherwise.
- MaxEdgeLength.NoLongEdgeLeft assumes that the distance parameter scales along segments
  (`AlongSegments`), as the Euclidean distance does. The model has no square root to define that
  distance itself.
- Numbers.ParseInt accepts only an optional sign followed by ASCII digits. Python's `int` also strips
  surrounding whitespace, and accepts underscores between digits and non-ASCII decimal digits.
  Texts the writer produces never contain these.
- Numbers.ParseFloat accepts only lower-case `inf`, `infinity` and `nan`, and no whitespace or
  underscores. Python's `float` also accepts these words in any case, surrounding whitespace,
  underscores between digits and non-ASCII digits.
- Graphs.WithNode replaces a node's attributes rather than merging them into existing ones. The
  model only calls it on new padding ids, where the two agree.
- Graphs.EdgeView gives networkx's reporting order (node order, then adjacency order). It is not
  proved to match networkx's internal dictionaries beyond that.
- MinEdgeLength.RunShrinks does not prove the claim that a pass over an acyclic graph never raises.
  StaleCandidateFails shows the failing case on a triangle instead.
- MinEdgeLength.ContractKeepsDegrees assumes the candidate's two neighbours are distinct and not
  already joined.
- The "no degree-2 node meeting the criterion remains" expectation is not proved, because the
  single pass over a snapshot does not guarantee it.
- The merger's `scale` and numpy distance are replaced by a distance function parameter, applied
  to node positions.
- IdThreading.DetectMaxNodeId requires every tree to have a node. `max()` of an empty array raises
  in the source.
- The merger works on tree values. The aliasing between the input list and the merged trees
  (`extend` on a tree the caller still holds) is not modelled.
- TreeMerger.CreateMergedNml merges the trees of the top-level groups only, as the source does. A
  tree in a sub-group or in no group is not carried over to the result.

## Findings

| source | as written | input that shows it | evidently intended | confidence | as-written member | corrected member |
|---|---|---|---|---|---|---|
| wknml/__main__.py:230 | `dump_tree` puts the edges under a container tagged `egdes`; `parse_tree` (line 121) iterates `find("edges")` | any document with one tree, e.g. one tree without nodes or edges: `find("edges")` is None and iterating it raises | the container is tagged `edges`, so a dumped document reads back | not executed | LegacyRoundTrip.WrittenDocumentUnreadable | LegacyRoundTrip.CorrectedRoundTrip |
