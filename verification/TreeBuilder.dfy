/** The event-to-tree builder (decode.go, type `parser`): it pulls events from the pushdown parser and
    builds the node graph. Whatever the tokens, it never meets an event it does not expect: the only
    ways to fail are a parser error and an alias to an unknown anchor. */
module TreeBuilder {
  import opened Options
  import opened Events
  import opened Tokens
  import opened ParserGrammar
  import opened EventParser
  import opened Graph

  datatype EventKind =
    | StreamStartKind | StreamEndKind | DocumentStartKind | DocumentEndKind | AliasKind | ScalarKind
    | SequenceStartKind | SequenceEndKind | MappingStartKind | MappingEndKind

  function KindOf(e: Event): EventKind {
    match e
    case StreamStart => StreamStartKind
    case StreamEnd => StreamEndKind
    case DocumentStart(_, _, _) => DocumentStartKind
    case DocumentEnd(_) => DocumentEndKind
    case Alias(_) => AliasKind
    case Scalar(_, _, _, _, _, _) => ScalarKind
    case SequenceStart(_, _, _, _) => SequenceStartKind
    case SequenceEnd => SequenceEndKind
    case MappingStart(_, _, _, _) => MappingStartKind
    case MappingEnd => MappingEndKind
  }

  datatype Trouble =
    | ParserFailed(problem: Parser.Problem)
    | UnknownAnchor(name: string)
    | PastEndOfStream | WrongEvent   // `expect`
    | UnknownEvent                   // the panic in `parse`

  datatype Loaded = Built(node: nat) | AtEnd | Failed(trouble: Trouble)

  /** The failures that can happen. */
  predicate Possible(t: Trouble) { t.ParserFailed? || t.UnknownAnchor? }

  predicate IsGiven(tag: string) { tag != "" && tag != "!" }

  /** The tag of the node for an event: the one given, in its short form, or else that of its kind; a plain scalar has
      the tag that it resolves to. */
  function TagFor(e: Event, resolve: string -> string): string {
    match e
    case Scalar(_, tag, value, _, _, style) =>
      if IsGiven(tag) then ShortTag(tag)
      else if !(style.PlainStyle? || style.AnyStyle?) then "!!str"
      else if value == "<<" then "!!merge"
      else resolve(value)
    case SequenceStart(_, tag, _, _) => if IsGiven(tag) then ShortTag(tag) else "!!seq"
    case MappingStart(_, tag, _, _) => if IsGiven(tag) then ShortTag(tag) else "!!map"
    case _ => ""
  }

  predicate AllTagged(g: seq<GraphNode>, resolve: string -> string) { forall i :: 0 <= i < |g| ==> g[i].tag == TagFor(g[i].event, resolve) }

  /** Which scalars are merge keys: those that read `<<`, plain or tagged as one. */
  lemma MergeKeysAre(e: Event, resolve: string -> string)
    requires e.Scalar?
    ensures IsMerge(GraphNode(ScalarNode, TagFor(e, resolve), e, [], None)) <==>
      e.value == "<<" && if IsGiven(e.tag) then e.tag == "!!merge" || e.tag == "tag:yaml.org,2002:merge" else e.style.PlainStyle? || e.style.AnyStyle?
  {
    ShortTagIs(e.tag);
    MergeTags(e.tag);
    ShortTagIs("!!merge");
    ShortTagIs("!!str");
  }

  lemma MergeTags(tag: string)
    ensures ShortTag(tag) == "!!merge" <==> tag == "!!merge" || tag == "tag:yaml.org,2002:merge"
    ensures ShortTag(ShortTag(tag)) == "!!merge" <==> ShortTag(tag) == "!!merge"
    ensures ShortTag("!!str") == "!!str"
  {
    var long := LONG_TAG_PREFIX;
    assert long[0] == 't' && |long| == 18;
    if long <= tag {
      assert tag == long + tag[|long|..];
      assert ("!!" + tag[|long|..])[2..] == tag[|long|..];
      assert "!!merge"[2..] == "merge";
      assert "tag:yaml.org,2002:merge"[18..] == "merge" && "tag:yaml.org,2002:merge"[..18] == long;
      assert ("!!" + tag[|long|..])[0] == '!';
    }
  }

  /** The short form of a tag: `!!` stands for the prefix of the standard tags. */
  lemma ShortTagIs(tag: string)
    ensures forall x: string :: tag == "tag:yaml.org,2002:" + x ==> ShortTag(tag) == "!!" + x
    ensures (forall x: string :: tag != "tag:yaml.org,2002:" + x) ==> ShortTag(tag) == tag
  {
    if LONG_TAG_PREFIX <= tag { assert tag == "tag:yaml.org,2002:" + tag[|LONG_TAG_PREFIX|..]; }
  }

  /** `anchors` knows the last node for each anchor. */
  ghost predicate KnowsAnchors(anchors: map<string, nat>, g: seq<GraphNode>) {
    && (forall name :: name in anchors ==>
          && name != "" && anchors[name] < |g| && AnchorOf(g[anchors[name]]) == name
          && forall j :: anchors[name] < j < |g| ==> AnchorOf(g[j]) != name)
    && (forall j :: 0 <= j < |g| && AnchorOf(g[j]) != "" ==> AnchorOf(g[j]) in anchors)
  }

  lemma ValidExtend(g: seq<GraphNode>, n: GraphNode)
    requires ValidGraph(g) && KindMatches(n) && n.content == []
    requires n.kind.AliasNode? ==> Resolves(g + [n], |g|)
    ensures ValidGraph(g + [n])
  {
    var h := g + [n];
    forall i | 0 <= i < |h| ensures ValidNode(h, i) {
      if i < |g| { assert ValidNode(g, i); }
    }
  }

  lemma ValidAdopt(g: seq<GraphNode>, n: nat, c: nat)
    requires ValidGraph(g) && n < c < |g| && !g[c].kind.DocumentNode?
    requires !g[n].kind.ScalarNode? && !g[n].kind.AliasNode?
    ensures ValidGraph(g[n := g[n].(content := g[n].content + [c])])
  {
    var h := g[n := g[n].(content := g[n].content + [c])];
    forall i | 0 <= i < |h| ensures ValidNode(h, i) {
      assert ValidNode(g, i);
    }
  }

  predicate Unanchored(g: seq<GraphNode>, name: string) {
    forall j :: 0 <= j < |g| ==> AnchorOf(g[j]) != name || name == ""
  }

  /** Anchors are not forgotten between documents: here an alias of the second stands for a scalar of the
      first. */
  lemma AliasAcrossDocuments(name: string, value: string)
    requires name != ""
    ensures var start := DocumentStart(true, false, []);
      var g := [GraphNode(DocumentNode, "", start, [1], None), GraphNode(ScalarNode, "!!str", Scalar(name, "", value, true, false, PlainStyle), [], None),
                GraphNode(DocumentNode, "", start, [], None)];
      var alias := GraphNode(AliasNode, "", Alias(name), [], Some(1));
      && ValidGraph(g) && KnowsAnchors(map[name := 1], g)
      && !Unanchored(g, name) && ValidGraph(g + [alias])
  {
    var start := DocumentStart(true, false, []);
    var scalar := Scalar(name, "", value, true, false, PlainStyle);
    var g := [GraphNode(DocumentNode, "", start, [1], None), GraphNode(ScalarNode, "!!str", scalar, [], None),
              GraphNode(DocumentNode, "", start, [], None)];
    assert AnchorOf(g[1]) == name;
    AnchorLookup(map[name := 1], g, Alias(name));
    var h := g + [GraphNode(AliasNode, "", Alias(name), [], Some(1))];
    forall i | 0 <= i < |h| ensures ValidNode(h, i) {
      if i < 3 { assert ValidNode(g, i) && h[i] == g[i]; }
    }
  }

  lemma Carried(g: seq<GraphNode>, h: seq<GraphNode>, name: string)
    requires |g| <= |h| && (forall j :: 0 <= j < |g| ==> h[j].event == g[j].event) && Unanchored(h, name)
    ensures Unanchored(g, name)
  {
  }

  lemma AnchorLookup(anchors: map<string, nat>, g: seq<GraphNode>, e: Event)
    requires KnowsAnchors(anchors, g) && e.Alias?
    ensures e.name in anchors ==> Resolves(g + [GraphNode(AliasNode, "", e, [], Some(anchors[e.name]))], |g|)
    ensures e.name !in anchors <==> Unanchored(g, e.name)
  {
  }

  lemma LeafRead(g: seq<GraphNode>, n: GraphNode, before: seq<Frame>, owed: seq<Frame>, read: seq<Event>, consumed: seq<Event>)
    requires ValidGraph(g + [n]) && n.content == [] && (n.event.Scalar? || n.event.Alias?) && KindMatches(n)
    requires TakesNode(before) && Step(before, n.event) == Some(owed)
    requires consumed == read + [n.event]
    ensures owed == AfterNode(before) && Agrees(g, g + [n], 0) && WellFormed(TreeOf(g + [n], |g|))
    ensures consumed == read + Flatten(TreeOf(g + [n], |g|))
  {
  }

  lemma CollectionWellFormed(e: Event, ts: seq<Node>)
    requires AllWellFormed(ts)
    ensures e.SequenceStart? ==> WellFormed(Sequence(e, ts))
    ensures e.MappingStart? && |ts| % 2 == 0 ==> WellFormed(Mapping(e, ts))
  {
  }

  /** Node `n` adopted the complete node `c`. */
  lemma Grown(g: seq<GraphNode>, h: seq<GraphNode>, n: nat, c: nat)
    requires ValidGraph(g) && ValidGraph(h) && Agrees(g, h, n + 1)
    requires n < |g| <= c < |h| && h[n] == g[n].(content := g[n].content + [c]) && !h[c].kind.DocumentNode?
    ensures Below(g, n, g[n].content) && Below(h, n, h[n].content)
    ensures TreesOf(h, n, h[n].content) == TreesOf(g, n, g[n].content) + [TreeOf(h, c)]
    ensures FlattenAll(TreesOf(h, n, h[n].content)) == FlattenAll(TreesOf(g, n, g[n].content)) + Flatten(TreeOf(h, c))
  {
    assert ValidNode(g, n) && ValidNode(h, n);
    TreesAppend(h, n, g[n].content, c);
    TreesFrame(g, h, n + 1, n, g[n].content);
    FlattenAllAppend(TreesOf(g, n, g[n].content), TreeOf(h, c));
  }

  lemma NotEnded(p: Parser.P)
    requires Coherent(p) && StackOf(p) != []
    ensures !p.state.EndState?
  {
  }

  lemma DocumentOwes(e: Event)
    requires e.DocumentStart?
    ensures Step([InStream], e) == Some([OwesNode, OwesDocumentEnd, InStream])
    ensures AfterNode([OwesNode, OwesDocumentEnd, InStream]) == [OwesDocumentEnd, InStream]
  {
    assert [OwesNode, OwesDocumentEnd] + [InStream] == [OwesNode, OwesDocumentEnd, InStream];
  }

  lemma EndIsOwed()
    ensures forall e :: Step([OwesDocumentEnd, InStream], e).Some? ==> e.DocumentEnd? && Step([OwesDocumentEnd, InStream], e) == Some([InStream])
  {
    assert [OwesDocumentEnd, InStream][1..] == [InStream];
  }

  class Builder {
    const parser: TokenParser
    const resolveTag: string -> string  // the tag a plain scalar resolves to
    var event: Option<Event>
    var anchors: map<string, nat>
    var nodes: seq<GraphNode>
    var doneInit: bool
    ghost var consumed: seq<Event>
    ghost var owed: seq<Frame>

    ghost predicate Valid()
      reads this, parser
    {
      && Coherent(parser.View()) && parser.pos <= |parser.tokens|
      && Run(START, consumed, 0) == Some(owed) && Rooted(owed)
      && (match event
          case None => owed == StackOf(parser.View())
          case Some(e) => Step(owed, e) == Some(StackOf(parser.View())))
      && ValidGraph(nodes) && KnowsAnchors(anchors, nodes) && AllTagged(nodes, resolveTag)
      && (doneInit <==> owed != START)
      && (!doneInit ==> event.None? && consumed == [] && nodes == [])
    }

    /** Bounds the events still to come. */
    ghost function Fuel(): nat
      reads this`event, parser
    {
      var fuel := Measure(parser.View()) + if event.Some? then 1 else 0;
      if fuel < 0 then 0 else fuel
    }

    constructor (tokens: seq<Token>, resolve: string -> string)
      ensures Valid() && !doneInit && fresh(parser) && parser.tokens == tokens
    {
      parser := new TokenParser(tokens);
      resolveTag := resolve;
      event, anchors, nodes, doneInit, consumed, owed := None, map[], [], false, [], START;
    }

    /** `peek`: makes sure an event is pending. */
    method Peek() returns (t: Option<Trouble>)
      requires Valid() && doneInit
      modifies this`event, parser
      ensures t.Some? ==> t.value.ParserFailed?
      ensures t.None? ==> Valid() && event.Some? && Fuel() <= old(Fuel())
      ensures old(event).Some? ==> t.None? && event == old(event)
    {
      if event.Some? { return None; }
      var r := parser.Parse();
      match r {
        case Failed(problem) => t := Some(ParserFailed(problem));
        case Parsed(e) => event := Some(e); t := None;
      }
    }

    /** `expect`: consumes the next event. The caller knows its kind from what the stream owes. */
    method Expect(kind: EventKind) returns (t: Option<Trouble>)
      requires Valid()
      requires forall e :: Step(owed, e).Some? && (event.None? || event == Some(e)) ==> KindOf(e) == kind
      requires kind != StreamEndKind
      modifies this`event, this`consumed, this`owed, this`doneInit, parser
      ensures t.Some? ==> t.value.ParserFailed?
      ensures t.None? ==>
        && Valid() && event.None? && Fuel() <= old(Fuel()) && (old(event).Some? ==> Fuel() < old(Fuel()))
        && |consumed| > 0 && consumed == old(consumed) + [consumed[|consumed| - 1]]
        && (old(event).Some? ==> old(event) == Some(consumed[|consumed| - 1]))
        && KindOf(consumed[|consumed| - 1]) == kind
        && Step(old(owed), consumed[|consumed| - 1]) == Some(owed)
    {
      hide Coherent, StackOf, Step, KnowsAnchors, ValidGraph, Run, Parser.Next;
      if event.None? {
        NotEnded(parser.View());
        var r := parser.Parse();
        match r {
          case Failed(problem) => return Some(ParserFailed(problem));
          case Parsed(e) => event := Some(e);
        }
      }
      var e := event.value;
      if e.StreamEnd? { return Some(PastEndOfStream); }
      if KindOf(e) != kind { return Some(WrongEvent); }
      RunAppend(START, consumed, 0, e);
      StepRooted(owed, e);
      consumed, owed := consumed + [e], StackOf(parser.View());
      doneInit := true;
      event := None;
      t := None;
    }

    /** `init`. */
    method Init() returns (t: Option<Trouble>)
      requires Valid()
      modifies this`event, this`consumed, this`owed, this`doneInit, this`anchors, parser
      ensures t.Some? ==> t.value.ParserFailed?
      ensures t.None? ==> Valid() && doneInit && Fuel() <= old(Fuel())
      ensures t.None? && old(doneInit) ==> unchanged(this)
      ensures t.None? && !old(doneInit) ==> consumed == [StreamStart] && owed == [InStream]
    {
      if doneInit { return None; }
      anchors := map[];
      t := Expect(StreamStartKind);
      if t == None { assert consumed == [consumed[0]]; assert START[1..] == []; assert [InStream] + [] == [InStream]; }
    }

    /** `node` and `anchor`: a new node for the pending event, known by its anchor. */
    method NewNode(kind: Kind, tag: string, target: Option<nat>) returns (n: nat)
      requires Valid() && doneInit && event.Some?
      requires KindMatches(GraphNode(kind, tag, event.value, [], target)) && tag == TagFor(event.value, resolveTag)
      requires kind.AliasNode? ==> Resolves(nodes + [GraphNode(kind, tag, event.value, [], target)], |nodes|)
      modifies this`nodes, this`anchors
      ensures Valid() && n == |old(nodes)|
      ensures nodes == old(nodes) + [GraphNode(kind, tag, event.value, [], target)]
    {
      n := |nodes|;
      var node := GraphNode(kind, tag, event.value, [], target);
      ValidExtend(nodes, node);
      nodes := nodes + [node];
      if AnchorOf(node) != "" {
        anchors := anchors[AnchorOf(node) := n];
      }
    }

    function TagOf(tag: string, defaultTag: string, value: string): string {
      if tag != "" && tag != "!" then ShortTag(tag)
      else if defaultTag != "" then defaultTag
      else resolveTag(value)
    }

    lemma TagsAre(e: Event)
      ensures e.SequenceStart? ==> TagOf(e.tag, "!!seq", "") == TagFor(e, resolveTag)
      ensures e.MappingStart? ==> TagOf(e.tag, "!!map", "") == TagFor(e, resolveTag)
      ensures e.Alias? || e.DocumentStart? ==> TagFor(e, resolveTag) == ""
      ensures e.Scalar? ==>
        var quoted := !e.style.PlainStyle? && !e.style.AnyStyle?;
        TagOf(e.tag, if quoted then "!!str" else if e.value == "<<" then MERGE_TAG else "", e.value) == TagFor(e, resolveTag)
    {
      hide ShortTag;
    }

    /** A complete node was read for what was owed: its events are those of the tree at `n`. */
    twostate predicate ReadNode(n: nat)
      requires old(Valid()) && old(TakesNode(owed))
      reads this, parser
    {
      && Valid() && doneInit && owed == AfterNode(old(owed))
      && n == |old(nodes)| < |nodes| && Agrees(old(nodes), nodes, 0)
      && !nodes[n].kind.DocumentNode?
      && WellFormed(TreeOf(nodes, n))
      && consumed == old(consumed) + Flatten(TreeOf(nodes, n))
    }

    /** A complete document was read; its only child is the root. */
    twostate predicate ReadDocument(n: nat)
      requires old(Valid())
      reads this, parser
    {
      && Valid() && doneInit && owed == [InStream]
      && n == |old(nodes)| < |nodes| && Agrees(old(nodes), nodes, 0)
      && nodes[n].kind.DocumentNode? && |nodes[n].content| == 1
      && Below(nodes, n, nodes[n].content) && WellFormed(TreeOf(nodes, nodes[n].content[0]))
      && (exists end: Event :: end.DocumentEnd? && consumed == (if old(doneInit) then old(consumed) else [StreamStart])
              + [nodes[n].event] + Flatten(TreeOf(nodes, nodes[n].content[0])) + [end])
    }

    /** A failure is the parser's, or an alias to a name that no node read so far carries, in this
        document or in one before it. */
    twostate predicate FailsAs(t: Trouble)
      reads this
    {
      Possible(t) && (t.UnknownAnchor? ==> Unanchored(old(nodes), t.name))
    }

    /** A node of one event: made, and the event taken. */
    method TakeLeaf(kind: Kind, tag: string, target: Option<nat>, expected: EventKind) returns (t: Option<Trouble>, n: nat)
      requires Valid() && doneInit && TakesNode(owed) && event.Some? && (event.value.Scalar? || event.value.Alias?)
      requires KindMatches(GraphNode(kind, tag, event.value, [], target)) && tag == TagFor(event.value, resolveTag) && expected == KindOf(event.value)
      requires kind.AliasNode? ==> Resolves(nodes + [GraphNode(kind, tag, event.value, [], target)], |nodes|)
      modifies this, parser
      ensures t.Some? ==> t.value.ParserFailed?
      ensures t.None? ==> ReadNode(n) && Fuel() < old(Fuel())
    {
      hide KnowsAnchors, Resolves, Coherent, StackOf, Measure, Run, Step, TreeOf, AfterNode, Flatten, TagFor, AllTagged;
      ghost var before, owedBefore, read := nodes, owed, consumed;
      n := NewNode(kind, tag, target);
      t := Expect(expected);
      if t.None? { LeafRead(before, nodes[n], owedBefore, owed, read, consumed); }
    }

    method BuildScalar() returns (r: Loaded)
      requires Valid() && doneInit && TakesNode(owed) && event.Some? && event.value.Scalar?
      modifies this, parser
      ensures match r case Built(n) => ReadNode(n) && Fuel() < old(Fuel()) case AtEnd => false case Failed(t) => FailsAs(t)
    {
      hide Valid, Fuel, ReadNode, TagFor, TagOf;
      var e := event.value;
      TagsAre(e);
      var quoted := !e.style.PlainStyle? && !e.style.AnyStyle?;
      var defaultTag := if quoted then "!!str" else if e.value == "<<" then MERGE_TAG else "";
      var t, n := TakeLeaf(ScalarNode, TagOf(e.tag, defaultTag, e.value), None, ScalarKind);
      if t.Some? { return Loaded.Failed(t.value); }
      r := Built(n);
    }

    method BuildAlias() returns (r: Loaded)
      requires Valid() && doneInit && TakesNode(owed) && event.Some? && event.value.Alias?
      modifies this, parser
      ensures match r case Built(n) => ReadNode(n) && Fuel() < old(Fuel()) case AtEnd => false case Failed(t) => FailsAs(t)
    {
      hide Valid, Fuel, ReadNode, KnowsAnchors, Resolves, TagFor;
      Facts();
      TagsAre(event.value);
      var name := event.value.name;
      AnchorLookup(anchors, nodes, event.value);
      if name !in anchors { return Loaded.Failed(UnknownAnchor(name)); }
      var t, n := TakeLeaf(AliasNode, "", Some(anchors[name]), AliasKind);
      if t.Some? { return Loaded.Failed(t.value); }
      r := Built(n);
    }

    lemma Facts()
      requires Valid()
      ensures ValidGraph(nodes) && Rooted(owed) && KnowsAnchors(anchors, nodes)
      ensures event.Some? ==> Step(owed, event.value).Some?
      ensures forall i :: 0 <= i < |nodes| ==> ValidNode(nodes, i)
    {
    }

    /** The next event can only begin a node. */
    ghost predicate ExpectsNode()
      reads this
    {
      && TakesNode(owed)
      && (owed[0].OwesNode? || owed[0].AtValue? || (event.Some? && IsNodeStart(event.value)))
    }

    method Adopt(parent: nat, child: nat)
      requires Valid() && doneInit && parent < child < |nodes| && !nodes[child].kind.DocumentNode?
      requires !nodes[parent].kind.ScalarNode? && !nodes[parent].kind.AliasNode?
      modifies this`nodes
      ensures Valid() && Fuel() == old(Fuel())
      ensures nodes == old(nodes)[parent := old(nodes)[parent].(content := old(nodes)[parent].content + [child])]
    {
      ValidAdopt(nodes, parent, child);
      nodes := nodes[parent := nodes[parent].(content := nodes[parent].content + [child])];
    }

    /** `parseChild`. */
    method ParseChild(parent: nat) returns (r: Loaded)
      requires Valid() && doneInit && ExpectsNode() && parent < |nodes|
      requires !nodes[parent].kind.ScalarNode? && !nodes[parent].kind.AliasNode?
      modifies this, parser
      ensures match r
        case Built(c) =>
          && Valid() && doneInit && owed == AfterNode(old(owed)) && Fuel() < old(Fuel())
          && c == |old(nodes)| < |nodes| && !nodes[c].kind.DocumentNode?
          && Agrees(old(nodes)[parent := nodes[parent]], nodes, 0)
          && nodes[parent] == old(nodes)[parent].(content := old(nodes)[parent].content + [c])
          && WellFormed(TreeOf(nodes, c))
          && consumed == old(consumed) + Flatten(TreeOf(nodes, c))
        case AtEnd => false
        case Failed(t) => FailsAs(t)
      decreases Fuel(), 2
    {
      hide Valid, Fuel, TreeOf, Flatten, WellFormed, AfterNode, ValidGraph;
      r := Parse();
      if r.Built? {
        ghost var g := nodes;
        Facts();
        Adopt(parent, r.node);
        Facts();
        TreeFrame(g, nodes, parent + 1, r.node);
      }
    }

    // ----- Collections -----

    /** Node `n` is being filled: its children so far account for the events since `start`. */
    ghost predicate Filling(n: nat, base: seq<GraphNode>, start: seq<Event>, stack: seq<Frame>)
      reads this, parser
    {
      && Valid() && doneInit && owed == stack
      && n == |base| < |nodes| && Agrees(base, nodes, 0)
      && (nodes[n].kind.SequenceNode? || nodes[n].kind.MappingNode?)
      && Below(nodes, n, nodes[n].content)
      && AllWellFormed(TreesOf(nodes, n, nodes[n].content))
      && consumed == start + ([nodes[n].event] + FlattenAll(TreesOf(nodes, n, nodes[n].content)))
    }

    method OpenCollection(kind: Kind, tag: string, expected: EventKind) returns (t: Option<Trouble>, n: nat)
      requires Valid() && doneInit && TakesNode(owed) && event.Some?
      requires tag == TagFor(event.value, resolveTag)
      requires (kind == SequenceNode && expected == SequenceStartKind && event.value.SequenceStart?)
        || (kind == MappingNode && expected == MappingStartKind && event.value.MappingStart?)
      modifies this, parser
      ensures t.Some? ==> t.value.ParserFailed?
      ensures t.None? ==>
        && Fuel() < old(Fuel()) && Filling(n, old(nodes), old(consumed), Open(old(event).value, AfterNode(old(owed))))
        && nodes[n].kind == kind && nodes[n].event == old(event).value && nodes[n].content == []
    {
      hide Coherent, StackOf, Measure, Run, TagFor, AllTagged;
      n := NewNode(kind, tag, None);
      t := Expect(expected);
      if t.None? {
        assert TreesOf(nodes, n, []) == [] && [nodes[n].event] + FlattenAll([]) == [nodes[n].event];
      }
    }

    method AddChild(n: nat, ghost base: seq<GraphNode>, ghost start: seq<Event>) returns (r: Loaded)
      requires Filling(n, base, start, owed) && ExpectsNode()
      modifies this, parser
      ensures match r
        case Built(_) =>
          && Filling(n, base, start, AfterNode(old(owed))) && Fuel() < old(Fuel())
          && nodes[n].kind == old(nodes)[n].kind && nodes[n].event == old(nodes)[n].event
          && |nodes[n].content| == |old(nodes)[n].content| + 1
          && |old(nodes)| <= |nodes| && forall j :: 0 <= j < |old(nodes)| ==> nodes[j].event == old(nodes)[j].event
        case AtEnd => false
        case Failed(t) => FailsAs(t)
      decreases Fuel(), 3
    {
      hide Valid, Fuel, TreeOf, TreesOf, Flatten, FlattenAll, WellFormed, AfterNode, ValidGraph;
      ghost var g := nodes;
      Facts();
      r := ParseChild(n);
      if r.Built? {
        Facts();
        assert Agrees(base, nodes, 0);
        Grown(g, nodes, n, r.node);
      }
    }

    method CloseCollection(n: nat, ghost base: seq<GraphNode>, ghost start: seq<Event>, expected: EventKind) returns (t: Option<Trouble>)
      requires Filling(n, base, start, owed) && event.Some? && owed != []
      requires (expected == SequenceEndKind && event.value.SequenceEnd? && nodes[n].kind.SequenceNode? && owed[0].InSequence?)
        || (expected == MappingEndKind && event.value.MappingEnd? && nodes[n].kind.MappingNode? && owed[0].AtKey?)
      requires expected == MappingEndKind ==> |nodes[n].content| % 2 == 0
      modifies this, parser
      ensures t.Some? ==> t.value.ParserFailed?
      ensures t.None? ==>
        && Valid() && doneInit && owed == old(owed)[1..] && Fuel() < old(Fuel()) && nodes == old(nodes)
        && !nodes[n].kind.DocumentNode? && WellFormed(TreeOf(nodes, n)) && consumed == start + Flatten(TreeOf(nodes, n))
    {
      hide Coherent, StackOf, Measure, Run;
      hide TagFor, AllTagged;
      ghost var e, ts := nodes[n].event, TreesOf(nodes, n, nodes[n].content);
      t := Expect(expected);
      if t.None? {
        Facts();
        assert TreeOf(nodes, n) == if nodes[n].kind.SequenceNode? then Sequence(e, ts) else Mapping(e, ts);
        assert ValidNode(nodes, n);
        CollectionWellFormed(e, ts);
      }
    }

    method BuildSequence() returns (r: Loaded)
      requires Valid() && doneInit && TakesNode(owed) && event.Some? && event.value.SequenceStart?
      modifies this, parser
      ensures match r case Built(n) => ReadNode(n) && Fuel() < old(Fuel()) case AtEnd => false case Failed(t) => FailsAs(t)
      decreases Fuel(), 0
    {
      hide Valid, Fuel, TreeOf, TreesOf, Flatten, FlattenAll, WellFormed, ValidGraph, TagFor, TagOf;
      TagsAre(event.value);
      ghost var base, start, after := nodes, consumed, AfterNode(owed);
      var t, n := OpenCollection(SequenceNode, TagOf(event.value.tag, "!!seq", ""), SequenceStartKind);
      if t.Some? { return Loaded.Failed(t.value); }
      t := Peek();
      if t.Some? { return Loaded.Failed(t.value); }
      while !event.value.SequenceEnd?
        invariant event.Some? && Filling(n, base, start, [InSequence] + after) && Fuel() < old(Fuel())
        invariant nodes[n].kind == SequenceNode
        decreases Fuel()
      {
        Facts();
        var child := AddChild(n, base, start);
        if child.Failed? { return child; }
        t := Peek();
        if t.Some? { return Loaded.Failed(t.value); }
      }
      t := CloseCollection(n, base, start, SequenceEndKind);
      if t.Some? { return Loaded.Failed(t.value); }
      r := Built(n);
    }

    /** One key and its value. */
    method AddPair(n: nat, ghost base: seq<GraphNode>, ghost start: seq<Event>) returns (r: Loaded)
      requires Filling(n, base, start, owed) && ExpectsNode() && owed[0].AtKey?
      modifies this, parser
      ensures match r
        case Built(_) =>
          && Filling(n, base, start, old(owed)) && Fuel() < old(Fuel())
          && nodes[n].kind == old(nodes)[n].kind && nodes[n].event == old(nodes)[n].event
          && |nodes[n].content| == |old(nodes)[n].content| + 2
        case AtEnd => false
        case Failed(t) => FailsAs(t)
      decreases Fuel(), 4
    {
      hide Valid, Fuel, TreeOf, TreesOf, Flatten, FlattenAll, WellFormed, ValidGraph;
      r := AddChild(n, base, start);
      if r.Failed? { return; }
      ghost var mid := nodes;
      r := AddChild(n, base, start);
      if r.Failed? && r.trouble.UnknownAnchor? { Carried(old(nodes), mid, r.trouble.name); }
      if r.Built? { assert owed == old(owed); }
    }

    method BuildMapping() returns (r: Loaded)
      requires Valid() && doneInit && TakesNode(owed) && event.Some? && event.value.MappingStart?
      modifies this, parser
      ensures match r case Built(n) => ReadNode(n) && Fuel() < old(Fuel()) case AtEnd => false case Failed(t) => FailsAs(t)
      decreases Fuel(), 0
    {
      hide Valid, Fuel, TreeOf, TreesOf, Flatten, FlattenAll, WellFormed, ValidGraph, KindMatches, ValidNode, Rooted, TagFor, TagOf;
      TagsAre(event.value);
      ghost var base, start, after := nodes, consumed, AfterNode(owed);
      var t, n := OpenCollection(MappingNode, TagOf(event.value.tag, "!!map", ""), MappingStartKind);
      if t.Some? { return Loaded.Failed(t.value); }
      t := Peek();
      if t.Some? { return Loaded.Failed(t.value); }
      while !event.value.MappingEnd?
        invariant event.Some? && Filling(n, base, start, [AtKey] + after) && Fuel() < old(Fuel())
        invariant nodes[n].kind == MappingNode && |nodes[n].content| % 2 == 0
        decreases Fuel()
      {
        Facts();
        var pair := AddPair(n, base, start);
        if pair.Failed? { return pair; }
        t := Peek();
        if t.Some? { return Loaded.Failed(t.value); }
      }
      t := CloseCollection(n, base, start, MappingEndKind);
      if t.Some? { return Loaded.Failed(t.value); }
      r := Built(n);
    }

    // ----- Documents -----

    method BuildDocument() returns (r: Loaded)
      requires Valid() && doneInit && owed == [InStream] && event.Some? && event.value.DocumentStart?
      modifies this, parser
      ensures match r case Built(n) => ReadDocument(n) case AtEnd => false case Failed(t) => FailsAs(t)
      decreases Fuel(), 0
    {
      hide Fuel, TreeOf, Flatten, WellFormed, ValidGraph, Coherent, StackOf, Measure, Run, Step, KnowsAnchors, TagFor, AllTagged;
      TagsAre(event.value);
      DocumentOwes(event.value);
      EndIsOwed();
      var n := NewNode(DocumentNode, "", None);
      var t := Expect(DocumentStartKind);
      if t.Some? { return Loaded.Failed(t.value); }
      ghost var begun := nodes;
      var child := ParseChild(n);
      if child.Failed? && child.trouble.UnknownAnchor? { Carried(old(nodes), begun, child.trouble.name); }
      if child.Failed? { return child; }
      t := Peek();
      if t.Some? { return Loaded.Failed(t.value); }
      t := Expect(DocumentEndKind);
      if t.Some? { return Loaded.Failed(t.value); }
      r := Built(n);
    }

    /** `parse`: the next node or document, or the end of the stream. The panic for an unknown event
        is not among the failures. */
    method Parse() returns (r: Loaded)
      requires Valid() && (doneInit ==> ExpectsNode() || owed == [InStream])
      modifies this, parser
      ensures match r
        case Built(n) =>
          if old(doneInit) && old(ExpectsNode()) then ReadNode(n) && Fuel() < old(Fuel()) else ReadDocument(n)
        case AtEnd =>
          && Valid() && owed == [InStream] && event == Some(StreamEnd) && nodes == old(nodes)
          && (old(doneInit) ==> !old(ExpectsNode()))
          && consumed == if old(doneInit) then old(consumed) else [StreamStart]
        case Failed(t) => FailsAs(t)
      decreases Fuel(), 1
    {
      hide Valid, Fuel, TreeOf, Flatten, WellFormed, ValidGraph;
      var t := Init();
      if t.Some? { return Loaded.Failed(t.value); }
      t := Peek();
      if t.Some? { return Loaded.Failed(t.value); }
      Facts();
      match event.value {
        case Scalar(_, _, _, _, _, _) => r := BuildScalar();
        case Alias(_) => r := BuildAlias();
        case MappingStart(_, _, _, _) => r := BuildMapping();
        case SequenceStart(_, _, _, _) => r := BuildSequence();
        case DocumentStart(_, _, _) => r := BuildDocument();
        case StreamEnd => r := AtEnd;
        case _ => r := Loaded.Failed(UnknownEvent);
      }
    }
  }
}
