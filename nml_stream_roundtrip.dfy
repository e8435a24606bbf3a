/**
 * The reader run over the writer's event stream: `ParseEvents(WriteNml(x)) == Ok(Normalize(x))`.
 * Each lemma runs the reader over the events one `__dump_*` helper emits and states the
 * reader's state afterwards.
 */
module NmlStreamRoundTrip {
  import opened Wrappers
  import opened Events
  import opened NmlTypes
  import opened NmlParse
  import opened NmlWrite
  import opened NmlRoundTrip

  // ---------------------------------------------------------------------------------------------
  // Running the reader over concatenated streams

  lemma {:induction false} RunAppend(s: State, a: seq<Event>, b: seq<Event>)
    ensures RunFrom(s, a + b) == if RunFrom(s, a).Ok? then RunFrom(RunFrom(s, a).value, b) else RunFrom(s, a)
    decreases |a|
  {
    if a == [] {
      assert a + b == b;
    } else {
      assert (a + b)[0] == a[0] && (a + b)[1..] == a[1..] + b;
      RunFromCons(s, a + b);
      RunFromCons(s, a);
      if Step(s, a[0]).Ok? {
        RunAppend(Step(s, a[0]).value, a[1..], b);
      }
    }
  }

  lemma RunThen(s: State, a: seq<Event>, b: seq<Event>, t: State)
    requires RunFrom(s, a) == Ok(t)
    ensures RunFrom(s, a + b) == RunFrom(t, b)
  {
    RunAppend(s, a, b);
  }

  lemma AppendCons<T>(a: seq<T>, x: T, rest: seq<T>)
    ensures a + [x] + rest == a + ([x] + rest)
  {
  }

  /** The innermost open element is not `parameters`, so a new element is not recorded as its child. */
  predicate Quiet(stack: seq<Frame>)
  {
    stack == [] || stack[|stack| - 1].tag != "parameters"
  }

  /** An element the reader only pushes and pops. */
  predicate Plain(tag: string)
  {
    tag !in {"parameters", "thing", "node", "edge", "branchpoint", "comment", "group"}
  }

  function Push(s: State, tag: string): State
  {
    s.(elementStack := s.elementStack + [Frame(tag, [])])
  }

  function WithStack(s: State, stack: seq<Frame>): State
  {
    s.(elementStack := stack)
  }

  /** An element without children whose start event changes the state to `t`, its end event only closing it. */
  lemma LeafRun(s: State, tag: string, attrs: Attrs, t: State)
    requires tag != "parameters" && tag != "thing" && tag != "group"
    requires Step(s, Start(tag, attrs)) == Ok(Push(t, tag))
    ensures RunFrom(s, Leaf(tag, attrs)) == Ok(t)
  {
    var e := Leaf(tag, attrs);
    RunFromCons(s, e);
    assert e[1..] == [End(tag)];
    RunFromCons(Push(t, tag), e[1..]);
    assert (t.elementStack + [Frame(tag, [])])[..|t.elementStack|] == t.elementStack;
  }

  /** A plain element's body runs one level deeper, and its end restores the stack. */
  lemma ContainerRun(s: State, tag: string, body: seq<Event>, t: State)
    requires Quiet(s.elementStack) && Plain(tag)
    requires t.elementStack == s.elementStack
    requires RunFrom(Push(s, tag), body) == Ok(Push(t, tag))
    ensures RunFrom(s, Container(tag, body)) == Ok(t)
  {
    RunFromCons(s, [Start(tag, map[])]);
    assert RunFrom(s, [Start(tag, map[])]) == Ok(Push(s, tag));
    RunThen(s, [Start(tag, map[])], body, Push(s, tag));
    RunThen(s, [Start(tag, map[])] + body, [End(tag)], Push(t, tag));
    RunFromCons(Push(t, tag), [End(tag)]);
    assert (t.elementStack + [Frame(tag, [])])[..|t.elementStack|] == t.elementStack;
  }

  // ---------------------------------------------------------------------------------------------
  // Single start events

  lemma StepNode(s: State, attrs: Attrs, n: Node)
    requires Quiet(s.elementStack) && s.inThing && ParseNode(attrs) == Ok(n)
    ensures Step(s, Start("node", attrs)) == Ok(Push(s.(trees := AppendNode(s.trees, n)), "node"))
  {
  }

  lemma StepEdge(s: State, attrs: Attrs, e: Edge)
    requires Quiet(s.elementStack) && s.inThing && ParseEdge(attrs) == Ok(e)
    ensures Step(s, Start("edge", attrs)) == Ok(Push(s.(trees := AppendEdge(s.trees, e)), "edge"))
  {
  }

  lemma StepBranchpoint(s: State, attrs: Attrs, b: Branchpoint)
    requires Quiet(s.elementStack) && ParseBranchpoint(attrs) == Ok(b)
    ensures Step(s, Start("branchpoint", attrs)) == Ok(Push(s.(branchpoints := s.branchpoints + [b]), "branchpoint"))
  {
  }

  lemma StepComment(s: State, attrs: Attrs, c: Comment)
    requires Quiet(s.elementStack) && ParseComment(attrs) == Ok(c)
    ensures Step(s, Start("comment", attrs)) == Ok(Push(s.(comments := s.comments + [c]), "comment"))
  {
  }

  // ---------------------------------------------------------------------------------------------
  // Trees

  /** The state with `ns` appended to the nodes of the current (last) tree. */
  function WithNodes(s: State, ns: seq<Node>): State
    requires |s.trees| > 0
  {
    var last := s.trees[|s.trees| - 1];
    s.(trees := s.trees[..|s.trees| - 1] + [last.(nodes := last.nodes + ns)])
  }

  /** The state with `es` appended to the edges of the current (last) tree. */
  function WithEdges(s: State, es: seq<Edge>): State
    requires |s.trees| > 0
  {
    var last := s.trees[|s.trees| - 1];
    s.(trees := s.trees[..|s.trees| - 1] + [last.(edges := last.edges + es)])
  }

  lemma NodeLeafRun(s: State, n: Node)
    requires Quiet(s.elementStack) && s.inThing
    ensures RunFrom(s, Leaf("node", NodeAttributes(n))) == Ok(s.(trees := AppendNode(s.trees, NormalizeNode(n))))
  {
    NodeRoundTrip(n);
    StepNode(s, NodeAttributes(n), NormalizeNode(n));
    LeafRun(s, "node", NodeAttributes(n), s.(trees := AppendNode(s.trees, NormalizeNode(n))));
  }

  lemma WithNodesEmpty(s: State)
    requires |s.trees| > 0
    ensures WithNodes(s, []) == s
  {
    var last := s.trees[|s.trees| - 1];
    assert last.(nodes := last.nodes + []) == last;
    assert s.trees[..|s.trees| - 1] + [last] == s.trees;
  }

  lemma WithNodesCons(s: State, n: Node, ns: seq<Node>)
    requires |s.trees| > 0
    ensures WithNodes(s.(trees := AppendNode(s.trees, n)), ns) == WithNodes(s, [n] + ns)
  {
    var k := |s.trees| - 1;
    var last := s.trees[k];
    var t1 := AppendNode(s.trees, n);
    assert t1[..k] == s.trees[..k] && t1[k] == last.(nodes := last.nodes + [n]);
    assert last.nodes + [n] + ns == last.nodes + ([n] + ns);
  }

  lemma {:induction false} RunNodes(s: State, ns: seq<Node>)
    requires Quiet(s.elementStack) && s.inThing
    ensures RunFrom(s, DumpNodes(ns)) == Ok(WithNodes(s, NormalizeNodes(ns)))
    decreases |ns|
  {
    if ns == [] {
      WithNodesEmpty(s);
    } else {
      var s1 := s.(trees := AppendNode(s.trees, NormalizeNode(ns[0])));
      NodeLeafRun(s, ns[0]);
      RunThen(s, Leaf("node", NodeAttributes(ns[0])), DumpNodes(ns[1..]), s1);
      RunNodes(s1, ns[1..]);
      WithNodesCons(s, NormalizeNode(ns[0]), NormalizeNodes(ns[1..]));
    }
  }

  lemma EdgeLeafRun(s: State, e: Edge)
    requires Quiet(s.elementStack) && s.inThing
    ensures RunFrom(s, Leaf("edge", EdgeAttributes(e))) == Ok(s.(trees := AppendEdge(s.trees, e)))
  {
    EdgeRoundTrip(e);
    StepEdge(s, EdgeAttributes(e), e);
    LeafRun(s, "edge", EdgeAttributes(e), s.(trees := AppendEdge(s.trees, e)));
  }

  lemma WithEdgesEmpty(s: State)
    requires |s.trees| > 0
    ensures WithEdges(s, []) == s
  {
    var last := s.trees[|s.trees| - 1];
    assert last.(edges := last.edges + []) == last;
    assert s.trees[..|s.trees| - 1] + [last] == s.trees;
  }

  lemma WithEdgesCons(s: State, e: Edge, es: seq<Edge>)
    requires |s.trees| > 0
    ensures WithEdges(s.(trees := AppendEdge(s.trees, e)), es) == WithEdges(s, [e] + es)
  {
    var k := |s.trees| - 1;
    var last := s.trees[k];
    var t1 := AppendEdge(s.trees, e);
    assert t1[..k] == s.trees[..k] && t1[k] == last.(edges := last.edges + [e]);
    assert last.edges + [e] + es == last.edges + ([e] + es);
  }

  lemma {:induction false} RunEdges(s: State, es: seq<Edge>)
    requires Quiet(s.elementStack) && s.inThing
    ensures RunFrom(s, DumpEdges(es)) == Ok(WithEdges(s, es))
    decreases |es|
  {
    if es == [] {
      WithEdgesEmpty(s);
    } else {
      var s1 := s.(trees := AppendEdge(s.trees, es[0]));
      EdgeLeafRun(s, es[0]);
      RunThen(s, Leaf("edge", EdgeAttributes(es[0])), DumpEdges(es[1..]), s1);
      RunEdges(s1, es[1..]);
      WithEdgesCons(s, es[0], es[1..]);
      assert [es[0]] + es[1..] == es;
    }
  }

  /** The state right after a `thing` start: the new tree is current and its element open. */
  function Entered(s: State, t0: Tree): State
  {
    s.(trees := s.trees + [t0], inThing := true, elementStack := s.elementStack + [Frame("thing", [])])
  }

  lemma TreeStartRun(s: State, t: Tree)
    requires Quiet(s.elementStack) && WritableTree(t)
    ensures RunFrom(s, [Start("thing", TreeAttributes(t))]) ==
      Ok(Entered(s, t.(nodes := [], edges := [], groupId := NormalizeGroupId(t.groupId))))
  {
    TreeRoundTrip(t);
    RunFromCons(s, [Start("thing", TreeAttributes(t))]);
  }

  lemma TreeNodesRun(e: State, t: Tree)
    requires Quiet(e.elementStack) && e.inThing
    ensures RunFrom(e, Container("nodes", DumpNodes(t.nodes))) == Ok(WithNodes(e, NormalizeNodes(t.nodes)))
  {
    RunNodes(Push(e, "nodes"), t.nodes);
    ContainerRun(e, "nodes", DumpNodes(t.nodes), WithNodes(e, NormalizeNodes(t.nodes)));
  }

  lemma TreeEdgesRun(e: State, t: Tree)
    requires Quiet(e.elementStack) && e.inThing
    ensures RunFrom(e, Container("edges", DumpEdges(t.edges))) == Ok(WithEdges(e, t.edges))
  {
    RunEdges(Push(e, "edges"), t.edges);
    ContainerRun(e, "edges", DumpEdges(t.edges), WithEdges(e, t.edges));
  }

  lemma FilledTree(s: State, t: Tree)
    ensures var t0 := t.(nodes := [], edges := [], groupId := NormalizeGroupId(t.groupId));
      WithEdges(WithNodes(Entered(s, t0), NormalizeNodes(t.nodes)), t.edges).trees == s.trees + [NormalizeTree(t)]
  {
    var t0 := t.(nodes := [], edges := [], groupId := NormalizeGroupId(t.groupId));
    var k := |s.trees|;
    assert (s.trees + [t0])[..k] == s.trees;
    assert [] + NormalizeNodes(t.nodes) == NormalizeNodes(t.nodes);
    assert [] + t.edges == t.edges;
  }

  lemma TreeEndRun(s: State, t: Tree)
    requires Quiet(s.elementStack)
    ensures var t0 := t.(nodes := [], edges := [], groupId := NormalizeGroupId(t.groupId));
      RunFrom(WithEdges(WithNodes(Entered(s, t0), NormalizeNodes(t.nodes)), t.edges), [End("thing")]) ==
      Ok(s.(trees := s.trees + [NormalizeTree(t)], inThing := false))
  {
    var t0 := t.(nodes := [], edges := [], groupId := NormalizeGroupId(t.groupId));
    var filled := WithEdges(WithNodes(Entered(s, t0), NormalizeNodes(t.nodes)), t.edges);
    FilledTree(s, t);
    RunFromCons(filled, [End("thing")]);
    assert (s.elementStack + [Frame("thing", [])])[..|s.elementStack|] == s.elementStack;
  }

  /** A written tree is read back, normalised, as the last tree, and the current-tree slot is cleared. */
  lemma RunTree(s: State, t: Tree)
    requires Quiet(s.elementStack) && WritableTree(t)
    ensures RunFrom(s, DumpTree(t)) == Ok(s.(trees := s.trees + [NormalizeTree(t)], inThing := false))
  {
    var t0 := t.(nodes := [], edges := [], groupId := NormalizeGroupId(t.groupId));
    var start := [Start("thing", TreeAttributes(t))];
    var nodes := Container("nodes", DumpNodes(t.nodes));
    var edges := Container("edges", DumpEdges(t.edges));
    var e := Entered(s, t0);
    var withNodes := WithNodes(e, NormalizeNodes(t.nodes));
    TreeStartRun(s, t);
    TreeNodesRun(e, t);
    TreeEdgesRun(withNodes, t);
    TreeEndRun(s, t);
    RunThen(s, start, nodes, e);
    RunThen(s, start + nodes, edges, withNodes);
    RunThen(s, start + nodes + edges, [End("thing")], WithEdges(withNodes, t.edges));
  }

  lemma {:induction false} RunTrees(s: State, ts: seq<Tree>)
    requires Quiet(s.elementStack) && !s.inThing
    requires forall i :: 0 <= i < |ts| ==> WritableTree(ts[i])
    ensures RunFrom(s, DumpTrees(ts)) == Ok(s.(trees := s.trees + NormalizeTrees(ts)))
    decreases |ts|
  {
    if ts == [] {
      assert s.trees + [] == s.trees;
    } else {
      RunTree(s, ts[0]);
      var s1 := s.(trees := s.trees + [NormalizeTree(ts[0])]);
      RunThen(s, DumpTree(ts[0]), DumpTrees(ts[1..]), s1);
      RunTrees(s1, ts[1..]);
      AppendCons(s.trees, NormalizeTree(ts[0]), NormalizeTrees(ts[1..]));
    }
  }

  // ---------------------------------------------------------------------------------------------
  // Branchpoints and comments

  lemma BranchpointLeafRun(s: State, b: Branchpoint)
    requires Quiet(s.elementStack)
    ensures RunFrom(s, Leaf("branchpoint", BranchpointAttributes(b))) == Ok(s.(branchpoints := s.branchpoints + [b]))
  {
    BranchpointRoundTrip(b);
    StepBranchpoint(s, BranchpointAttributes(b), b);
    LeafRun(s, "branchpoint", BranchpointAttributes(b), s.(branchpoints := s.branchpoints + [b]));
  }

  lemma {:induction false} RunBranchpoints(s: State, bs: seq<Branchpoint>)
    requires Quiet(s.elementStack)
    ensures RunFrom(s, DumpBranchpoints(bs)) == Ok(s.(branchpoints := s.branchpoints + bs))
    decreases |bs|
  {
    if bs == [] {
      assert s.branchpoints + [] == s.branchpoints;
    } else {
      var s1 := s.(branchpoints := s.branchpoints + [bs[0]]);
      BranchpointLeafRun(s, bs[0]);
      RunThen(s, Leaf("branchpoint", BranchpointAttributes(bs[0])), DumpBranchpoints(bs[1..]), s1);
      RunBranchpoints(s1, bs[1..]);
      AppendCons(s.branchpoints, bs[0], bs[1..]);
      assert [bs[0]] + bs[1..] == bs;
    }
  }

  lemma CommentLeafRun(s: State, c: Comment)
    requires Quiet(s.elementStack)
    ensures RunFrom(s, Leaf("comment", CommentAttributes(c))) == Ok(s.(comments := s.comments + [c]))
  {
    CommentRoundTrip(c);
    StepComment(s, CommentAttributes(c), c);
    LeafRun(s, "comment", CommentAttributes(c), s.(comments := s.comments + [c]));
  }

  lemma {:induction false} RunComments(s: State, cs: seq<Comment>)
    requires Quiet(s.elementStack)
    ensures RunFrom(s, DumpComments(cs)) == Ok(s.(comments := s.comments + cs))
    decreases |cs|
  {
    if cs == [] {
      assert s.comments + [] == s.comments;
    } else {
      var s1 := s.(comments := s.comments + [cs[0]]);
      CommentLeafRun(s, cs[0]);
      RunThen(s, Leaf("comment", CommentAttributes(cs[0])), DumpComments(cs[1..]), s1);
      RunComments(s1, cs[1..]);
      AppendCons(s.comments, cs[0], cs[1..]);
      assert [cs[0]] + cs[1..] == cs;
    }
  }

  // ---------------------------------------------------------------------------------------------
  // Parameters

  /** The stack with `cs` recorded as further children of the innermost element. */
  function Recorded(stack: seq<Frame>, cs: seq<Child>): seq<Frame>
    requires |stack| > 0
  {
    var top := stack[|stack| - 1];
    stack[..|stack| - 1] + [top.(kept := top.kept + cs)]
  }

  predicate PlainChildren(cs: seq<Child>)
  {
    forall c | c in cs :: Plain(c.tag)
  }

  /** The start of a plain element only opens it. */
  lemma StepPlain(s: State, tag: string, attrs: Attrs)
    requires Plain(tag)
    ensures Step(s, Start(tag, attrs)) == Ok(WithStack(s, Opened(s.elementStack, tag, attrs)))
  {
  }

  lemma OpenedInParameters(stack: seq<Frame>, c: Child)
    requires |stack| > 0 && stack[|stack| - 1].tag == "parameters"
    ensures Opened(stack, c.tag, c.attrs) == Recorded(stack, [c]) + [Frame(c.tag, [])]
  {
  }

  lemma ChildLeafRun(s: State, c: Child)
    requires |s.elementStack| > 0 && s.elementStack[|s.elementStack| - 1].tag == "parameters"
    requires Plain(c.tag)
    ensures RunFrom(s, Leaf(c.tag, c.attrs)) == Ok(WithStack(s, Recorded(s.elementStack, [c])))
  {
    var t := WithStack(s, Recorded(s.elementStack, [c]));
    StepPlain(s, c.tag, c.attrs);
    OpenedInParameters(s.elementStack, c);
    assert c.tag != "parameters" && c.tag != "thing" && c.tag != "group";
    LeafRun(s, c.tag, c.attrs, t);
  }

  lemma RecordedCons(stack: seq<Frame>, c: Child, cs: seq<Child>)
    requires |stack| > 0
    ensures Recorded(Recorded(stack, [c]), cs) == Recorded(stack, [c] + cs)
  {
    var k := |stack| - 1;
    var r := Recorded(stack, [c]);
    assert r[..k] == stack[..k];
    assert stack[k].kept + [c] + cs == stack[k].kept + ([c] + cs);
  }

  lemma RecordedInFresh(stack: seq<Frame>, tag: string, cs: seq<Child>)
    ensures Recorded(stack + [Frame(tag, [])], cs) == stack + [Frame(tag, cs)]
  {
    assert (stack + [Frame(tag, [])])[..|stack|] == stack;
    assert [] + cs == cs;
  }

  /** The leaf children of an open `parameters` element are recorded in order. */
  lemma {:induction false} RunLeaves(s: State, cs: seq<Child>)
    requires |s.elementStack| > 0 && s.elementStack[|s.elementStack| - 1].tag == "parameters"
    requires PlainChildren(cs)
    ensures RunFrom(s, LeafEvents(cs)) == Ok(WithStack(s, Recorded(s.elementStack, cs)))
    decreases |cs|
  {
    var k := |s.elementStack| - 1;
    if cs == [] {
      var top := s.elementStack[k];
      assert top.(kept := top.kept + []) == top;
      assert s.elementStack[..k] + [top] == s.elementStack;
    } else {
      var s1 := WithStack(s, Recorded(s.elementStack, [cs[0]]));
      ChildLeafRun(s, cs[0]);
      RunThen(s, Leaf(cs[0].tag, cs[0].attrs), LeafEvents(cs[1..]), s1);
      RunLeaves(s1, cs[1..]);
      RecordedCons(s.elementStack, cs[0], cs[1..]);
      assert [cs[0]] + cs[1..] == cs;
    }
  }

  lemma PlainAppend(a: seq<Child>, b: seq<Child>)
    requires PlainChildren(a) && PlainChildren(b)
    ensures PlainChildren(a + b)
  {
  }

  lemma BoundingBoxChildPlain(prefix: string, b: Option<BoundingBox>)
    requires prefix == "task" || prefix == "user"
    ensures PlainChildren(BoundingBoxChild(prefix, b))
  {
    BoundingBoxTags();
  }

  /** None of the elements written inside `parameters` is one the reader treats specially. */
  lemma ParameterChildrenPlain(p: Parameters)
    requires p.name.Some?
    ensures PlainChildren(ParameterChildren(p))
  {
    var task := BoundingBoxChild("task", p.taskBoundingBox);
    var user := BoundingBoxChild("user", p.userBoundingBox);
    BoundingBoxChildPlain("task", p.taskBoundingBox);
    BoundingBoxChildPlain("user", p.userBoundingBox);
    PlainAppend(task, user);
    PlainAppend(ZoomLevelChild(p), task + user);
    PlainAppend(EditRotationChild(p), ZoomLevelChild(p) + (task + user));
    PlainAppend(EditPositionChild(p), EditRotationChild(p) + (ZoomLevelChild(p) + (task + user)));
    PlainAppend(TimeChild(p), EditPositionChild(p) + (EditRotationChild(p) + (ZoomLevelChild(p) + (task + user))));
    PlainAppend(OffsetChild(p), TimeChild(p) + (EditPositionChild(p) + (EditRotationChild(p) + (ZoomLevelChild(p) + (task + user)))));
    PlainAppend(HeadChildren(p), OffsetChild(p) + (TimeChild(p) + (EditPositionChild(p) + (EditRotationChild(p) + (ZoomLevelChild(p) + (task + user))))));
  }

  lemma ParametersEndRun(s: State, p: Parameters)
    requires p.name.Some?
    ensures var open := s.elementStack + [Frame("parameters", ParameterChildren(p))];
      RunFrom(WithStack(s, open), [End("parameters")]) == Ok(s.(parameters := Some(p)))
  {
    var open := s.elementStack + [Frame("parameters", ParameterChildren(p))];
    ParametersRoundTrip(p);
    RunFromCons(WithStack(s, open), [End("parameters")]);
    assert open[..|s.elementStack|] == s.elementStack;
  }

  /** The written parameters element is read back as the document's parameters. */
  lemma RunParameters(s: State, p: Parameters)
    requires Quiet(s.elementStack) && p.name.Some?
    ensures RunFrom(s, DumpParameters(p)) == Ok(s.(parameters := Some(p)))
  {
    var start := [Start("parameters", map[])];
    var leaves := LeafEvents(ParameterChildren(p));
    var entered := Push(s, "parameters");
    RunFromCons(s, start);
    assert RunFrom(s, start) == Ok(entered);
    ParameterChildrenPlain(p);
    RunLeaves(entered, ParameterChildren(p));
    var filled := WithStack(s, s.elementStack + [Frame("parameters", ParameterChildren(p))]);
    RecordedInFresh(s.elementStack, "parameters", ParameterChildren(p));
    ParametersEndRun(s, p);
    RunThen(s, start, leaves, entered);
    RunThen(s, start + leaves, [End("parameters")], filled);
  }

  // ---------------------------------------------------------------------------------------------
  // Groups

  /** The group stack with `gs` appended to the children of its innermost group. */
  function AddChildren(stack: seq<Group>, gs: seq<Group>): (r: seq<Group>)
    requires |stack| >= 1
    ensures |r| == |stack|
  {
    var last := stack[|stack| - 1];
    stack[..|stack| - 1] + [last.(children := last.children + gs)]
  }

  function WithGroups(s: State, gs: seq<Group>): State
  {
    s.(groupStack := AddChildren(s.groupStack, gs))
  }

  lemma StepGroup(s: State, attrs: Attrs, g0: Group)
    requires Quiet(s.elementStack) && ParseGroup(attrs) == Ok(g0)
    ensures Step(s, Start("group", attrs)) == Ok(Push(s.(groupStack := s.groupStack + [g0]), "group"))
  {
  }

  /** Closing a group makes it the last child of the group below it. */
  lemma GroupEndRun(s: State, g: Group)
    ensures var t := s.(groupStack := s.groupStack + [g]);
      RunFrom(Push(t, "group"), [End("group")]) == Ok(WithGroups(s, [g]))
  {
    var t := s.(groupStack := s.groupStack + [g]);
    RunFromCons(Push(t, "group"), [End("group")]);
    assert (t.elementStack + [Frame("group", [])])[..|t.elementStack|] == t.elementStack;
    assert (s.groupStack + [g])[..|s.groupStack| - 1] == s.groupStack[..|s.groupStack| - 1];
  }

  /** The children read into a fresh group complete it. */
  lemma ChildrenComplete(stack: seq<Group>, g: Group)
    ensures AddChildren(stack + [g.(children := [])], g.children) == stack + [g]
  {
    assert (stack + [g.(children := [])])[..|stack|] == stack;
    assert [] + g.children == g.children;
  }

  lemma AddChildrenEmpty(stack: seq<Group>)
    requires |stack| >= 1
    ensures AddChildren(stack, []) == stack
  {
    var last := stack[|stack| - 1];
    assert last.(children := last.children + []) == last;
    assert stack[..|stack| - 1] + [last] == stack;
  }

  lemma AddChildrenCons(stack: seq<Group>, g: Group, gs: seq<Group>)
    requires |stack| >= 1
    ensures AddChildren(AddChildren(stack, [g]), gs) == AddChildren(stack, [g] + gs)
  {
    var k := |stack| - 1;
    assert AddChildren(stack, [g])[..k] == stack[..k];
    assert stack[k].children + [g] + gs == stack[k].children + ([g] + gs);
  }

  /** A written group, with all its descendants, is read back as the last child of the innermost open group. */
  lemma {:induction false} RunGroup(s: State, g: Group)
    requires Quiet(s.elementStack) && NamedGroup(g)
    ensures RunFrom(s, DumpGroup(g)) == Ok(WithGroups(s, [g]))
    decreases g, 1
  {
    var g0 := g.(children := []);
    var start := [Start("group", GroupAttributes(g))];
    var e := Push(s.(groupStack := s.groupStack + [g0]), "group");
    GroupRoundTrip(g);
    StepGroup(s, GroupAttributes(g), g0);
    RunFromCons(s, start);
    RunGroups(e, g.children);
    ChildrenComplete(s.groupStack, g);
    assert WithGroups(e, g.children) == Push(s.(groupStack := s.groupStack + [g]), "group");
    GroupEndRun(s, g);
    RunThen(s, start, DumpGroups(g.children), e);
    RunThen(s, start + DumpGroups(g.children), [End("group")], WithGroups(e, g.children));
  }

  /** Written sibling groups are read back, in order, as children of the innermost open group. */
  lemma {:induction false} RunGroups(s: State, gs: seq<Group>)
    requires Quiet(s.elementStack) && NamedGroups(gs)
    ensures RunFrom(s, DumpGroups(gs)) == Ok(WithGroups(s, gs))
    decreases gs, 0
  {
    if gs == [] {
      AddChildrenEmpty(s.groupStack);
    } else {
      RunGroup(s, gs[0]);
      RunThen(s, DumpGroup(gs[0]), DumpGroups(gs[1..]), WithGroups(s, [gs[0]]));
      RunGroups(WithGroups(s, [gs[0]]), gs[1..]);
      AddChildrenCons(s.groupStack, gs[0], gs[1..]);
      assert [gs[0]] + gs[1..] == gs;
    }
  }

  // ---------------------------------------------------------------------------------------------
  // The whole document

  /** The reader's state once the whole of `WriteNml(x)` has been read, `things` still open. */
  function ReadState(x: Nml): State
    requires Writable(x)
  {
    ParserState(x.parameters, NormalizeTrees(x.trees), false, x.branchpoints, x.comments,
                [Group(-1, Some(""), x.groups)], [Frame("things", [])])
  }

  lemma ThingsOpened()
    ensures Push(Init, "things").elementStack == [Frame("things", [])]
  {
    assert [] + [Frame("things", [])] == [Frame("things", [])];
  }

  lemma RootChildren(gs: seq<Group>)
    ensures AddChildren(Init.groupStack, gs) == [Group(-1, Some(""), gs)]
  {
    assert [] + gs == gs;
    assert Init.groupStack[..0] == [];
  }

  lemma ParametersAndTreesRun(x: Nml)
    requires Writable(x)
    ensures RunFrom(Push(Init, "things"), DumpParameters(x.parameters.value) + DumpTrees(x.trees)) ==
      Ok(ReadState(x).(branchpoints := [], comments := [], groupStack := Init.groupStack))
  {
    var s0 := Push(Init, "things");
    var sP: State := s0.(parameters := x.parameters);
    ThingsOpened();
    RunParameters(s0, x.parameters.value);
    RunTrees(sP, x.trees);
    assert [] + NormalizeTrees(x.trees) == NormalizeTrees(x.trees);
    RunThen(s0, DumpParameters(x.parameters.value), DumpTrees(x.trees), sP);
  }

  lemma BranchpointsRun(s: State, bs: seq<Branchpoint>)
    requires Quiet(s.elementStack) && s.branchpoints == []
    ensures RunFrom(s, Container("branchpoints", DumpBranchpoints(bs))) == Ok(s.(branchpoints := bs))
  {
    RunBranchpoints(Push(s, "branchpoints"), bs);
    assert [] + bs == bs;
    ContainerRun(s, "branchpoints", DumpBranchpoints(bs), s.(branchpoints := bs));
  }

  lemma CommentsRun(s: State, cs: seq<Comment>)
    requires Quiet(s.elementStack) && s.comments == []
    ensures RunFrom(s, Container("comments", DumpComments(cs))) == Ok(s.(comments := cs))
  {
    RunComments(Push(s, "comments"), cs);
    assert [] + cs == cs;
    ContainerRun(s, "comments", DumpComments(cs), s.(comments := cs));
  }

  lemma GroupsRun(s: State, x: Nml)
    requires Writable(x) && Quiet(s.elementStack)
    requires s.groupStack == Init.groupStack
    ensures RunFrom(s, Container("groups", DumpGroups(x.groups))) == Ok(s.(groupStack := [Group(-1, Some(""), x.groups)]))
  {
    RunGroups(Push(s, "groups"), x.groups);
    RootChildren(x.groups);
    ContainerRun(s, "groups", DumpGroups(x.groups), s.(groupStack := [Group(-1, Some(""), x.groups)]));
  }

  /** The body of `things` is read into `ReadState(x)`. */
  lemma ThingsBodyRun(x: Nml)
    requires Writable(x)
    ensures RunFrom(Push(Init, "things"),
      DumpParameters(x.parameters.value) + DumpTrees(x.trees)
      + Container("branchpoints", DumpBranchpoints(x.branchpoints))
      + Container("comments", DumpComments(x.comments))
      + Container("groups", DumpGroups(x.groups))) == Ok(ReadState(x))
  {
    var s0 := Push(Init, "things");
    var pt := DumpParameters(x.parameters.value) + DumpTrees(x.trees);
    var b := Container("branchpoints", DumpBranchpoints(x.branchpoints));
    var c := Container("comments", DumpComments(x.comments));
    var s1: State := ReadState(x).(branchpoints := [], comments := [], groupStack := Init.groupStack);
    var s2: State := s1.(branchpoints := x.branchpoints);
    var s3: State := s2.(comments := x.comments);
    ParametersAndTreesRun(x);
    BranchpointsRun(s1, x.branchpoints);
    CommentsRun(s2, x.comments);
    GroupsRun(s3, x);
    RunThen(s0, pt, b, s1);
    RunThen(s0, pt + b, c, s2);
    RunThen(s0, pt + b + c, Container("groups", DumpGroups(x.groups)), s3);
  }

  /**
   * Reading back what `write_nml` wrote gives the document, except that every node's interpolation
   * flag reads back as true and every negative groupId as None.
   */
  lemma WriteThenRead(x: Nml)
    requires Writable(x)
    ensures ParseEvents(WriteNml(x)) == Ok(Normalize(x))
  {
    var final: State := WithStack(ReadState(x), []);
    ThingsOpened();
    ThingsBodyRun(x);
    ContainerRun(Init, "things",
      DumpParameters(x.parameters.value) + DumpTrees(x.trees)
      + Container("branchpoints", DumpBranchpoints(x.branchpoints))
      + Container("comments", DumpComments(x.comments))
      + Container("groups", DumpGroups(x.groups)), final);
  }

  // ---------------------------------------------------------------------------------------------
  // The normal form: what a read of written output can contain

  /** A node is unchanged by a round trip exactly when its interpolation flag is not false. */
  lemma NormalNode(n: Node)
    ensures NormalizeNode(n) == n <==> n.interpolation != Some(false)
    ensures NormalizeNode(n).interpolation != Some(false)
  {
    if n.interpolation == Some(false) {
      assert NormalizeNode(n).interpolation != n.interpolation;
    } else {
      if n.interpolation.Some? {
        assert n.interpolation.value;
      }
      assert n.(interpolation := n.interpolation) == n;
    }
  }

  predicate NormalTree(t: Tree)
  {
    && (forall i :: 0 <= i < |t.nodes| ==> t.nodes[i].interpolation != Some(false))
    && (t.groupId.Some? ==> t.groupId.value >= 0)
  }

  lemma {:induction false} NormalizeNodesAt(ns: seq<Node>, i: int)
    requires 0 <= i < |ns|
    ensures NormalizeNodes(ns)[i] == NormalizeNode(ns[i])
  {
    if i > 0 {
      NormalizeNodesAt(ns[1..], i - 1);
    }
  }

  lemma {:induction false} NormalizeTreesAt(ts: seq<Tree>, i: int)
    requires 0 <= i < |ts|
    ensures NormalizeTrees(ts)[i] == NormalizeTree(ts[i])
  {
    if i > 0 {
      NormalizeTreesAt(ts[1..], i - 1);
    }
  }

  /** A tree is unchanged by normalization exactly when it is in normal form, and every normalized tree is. */
  lemma NormalizeTreeFixed(t: Tree)
    ensures NormalizeTree(t) == t <==> NormalTree(t)
    ensures NormalTree(NormalizeTree(t))
  {
    var u := NormalizeTree(t);
    forall i | 0 <= i < |t.nodes|
      ensures u.nodes[i] == NormalizeNode(t.nodes[i])
    {
      NormalizeNodesAt(t.nodes, i);
    }
    forall i | 0 <= i < |u.nodes|
      ensures u.nodes[i].interpolation != Some(false)
    {
      NormalNode(t.nodes[i]);
    }
    if NormalTree(t) {
      forall i | 0 <= i < |t.nodes|
        ensures u.nodes[i] == t.nodes[i]
      {
        NormalNode(t.nodes[i]);
      }
    } else if u == t {
      assert false;
    }
  }

  lemma {:induction false} NormalizeTreesFixed(ts: seq<Tree>)
    requires forall i :: 0 <= i < |ts| ==> NormalTree(ts[i])
    ensures NormalizeTrees(ts) == ts
  {
    if ts != [] {
      NormalizeTreeFixed(ts[0]);
      NormalizeTreesFixed(ts[1..]);
    }
  }

  /** Normalizing twice is normalizing once. */
  lemma NormalizeIdempotent(x: Nml)
    ensures Normalize(Normalize(x)) == Normalize(x)
  {
    var ts := NormalizeTrees(x.trees);
    forall i | 0 <= i < |ts|
      ensures NormalTree(ts[i])
    {
      NormalizeTreesAt(x.trees, i);
      NormalizeTreeFixed(x.trees[i]);
    }
    NormalizeTreesFixed(ts);
  }

  /** Normalization keeps a document writable. */
  lemma NormalizeWritable(x: Nml)
    requires Writable(x)
    ensures Writable(Normalize(x))
  {
    forall i | 0 <= i < |x.trees|
      ensures WritableTree(NormalizeTrees(x.trees)[i])
    {
      NormalizeTreesAt(x.trees, i);
    }
  }

  /**
   * A document in normal form reads back exactly: `parse_nml(write_nml(x)) == x`.
   */
  lemma ExactRoundTrip(x: Nml)
    requires Writable(x)
    requires forall i :: 0 <= i < |x.trees| ==> NormalTree(x.trees[i])
    ensures ParseEvents(WriteNml(x)) == Ok(x)
  {
    WriteThenRead(x);
    NormalizeTreesFixed(x.trees);
  }

  /**
   * What one write and read produce is a fixed point: writing it again and reading that back gives
   * the same document, so the second write produces the same events as a third would.
   */
  lemma ReadBackIsStable(x: Nml)
    requires Writable(x)
    ensures ParseEvents(WriteNml(x)).Ok?
    ensures var y := ParseEvents(WriteNml(x)).value;
      Writable(y) && ParseEvents(WriteNml(y)) == Ok(y)
  {
    WriteThenRead(x);
    NormalizeWritable(x);
    WriteThenRead(Normalize(x));
    NormalizeIdempotent(x);
  }

  /** A node whose interpolation flag is false does not survive a write and a read. */
  lemma InterpolationFalseIsLost()
    ensures var n := Node(1, Vec3("0", "0", "0"), None, None, None, None, None, Some(false), None);
      var x := Nml(Some(Parameters(Some(""), Vec3("1", "1", "1"), None, None, None, None, None, None, None)),
        [Tree(1, Some(Color("0", "0", "0", "1")), Some(""), [n], [], None)], [], [], []);
      ParseEvents(WriteNml(x)).Ok? && ParseEvents(WriteNml(x)) != Ok(x)
  {
    var n := Node(1, Vec3("0", "0", "0"), None, None, None, None, None, Some(false), None);
    var x := Nml(Some(Parameters(Some(""), Vec3("1", "1", "1"), None, None, None, None, None, None, None)),
      [Tree(1, Some(Color("0", "0", "0", "1")), Some(""), [n], [], None)], [], [], []);
    WriteThenRead(x);
    NormalizeTreesAt(x.trees, 0);
    NormalizeNodesAt(x.trees[0].nodes, 0);
    assert Normalize(x).trees[0].nodes[0].interpolation == Some(true);
  }
}
