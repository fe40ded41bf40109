/** Node graphs (yaml.v3 `Node` values): an arena of nodes whose children come after them and whose
    aliases point anywhere, so the children form trees while the aliases may close cycles. */
module Graph {
  import opened Options
  import opened Events

  datatype Kind = DocumentNode | SequenceNode | MappingNode | ScalarNode | AliasNode

  /** `event` is the event the node was made from; `target` is the node an alias stands for. */
  datatype GraphNode = GraphNode(kind: Kind, tag: string, event: Event, content: seq<nat>, target: Option<nat>)

  function AnchorOf(n: GraphNode): string {
    match n.event
    case Scalar(anchor, _, _, _, _, _) => anchor
    case SequenceStart(anchor, _, _, _) => anchor
    case MappingStart(anchor, _, _, _) => anchor
    case _ => ""
  }

  /** Scalars and collections may be anchored, by their own event, and nothing else is. */
  lemma AnchoredExactlyWhen(n: GraphNode, name: string)
    requires name != ""
    ensures AnchorOf(n) == name <==> (n.event.Scalar? || n.event.SequenceStart? || n.event.MappingStart?) && n.event.anchor == name
  {
  }

  predicate KindMatches(n: GraphNode) {
    match n.kind
    case DocumentNode => n.event.DocumentStart?
    case SequenceNode => n.event.SequenceStart?
    case MappingNode => n.event.MappingStart?
    case ScalarNode => n.event.Scalar? && n.content == []
    case AliasNode => n.event.Alias? && n.content == []
  }

  predicate Below(g: seq<GraphNode>, lo: nat, cs: seq<nat>) {
    forall k :: 0 <= k < |cs| ==> lo < cs[k] < |g| && !g[cs[k]].kind.DocumentNode?
  }

  predicate ValidChildren(g: seq<GraphNode>, i: nat)
    requires i < |g|
  {
    Below(g, i, g[i].content)
  }

  /** An alias stands for the last node before it that carries the anchor. */
  ghost predicate Resolves(g: seq<GraphNode>, i: nat)
    requires i < |g| && g[i].event.Alias?
  {
    && g[i].target.Some? && g[i].target.value < i
    && AnchorOf(g[g[i].target.value]) == g[i].event.name != ""
    && forall j :: g[i].target.value < j < i ==> AnchorOf(g[j]) != g[i].event.name
  }

  ghost predicate ValidNode(g: seq<GraphNode>, i: nat)
    requires i < |g|
  {
    KindMatches(g[i]) && ValidChildren(g, i) && (g[i].kind.AliasNode? ==> Resolves(g, i))
  }

  ghost predicate ValidGraph(g: seq<GraphNode>) { forall i :: 0 <= i < |g| ==> ValidNode(g, i) }

  // ----- The tree below a node -----

  ghost function TreeOf(g: seq<GraphNode>, i: nat): Node
    requires ValidGraph(g) && i < |g| && !g[i].kind.DocumentNode?
    decreases |g| - i, 1, 0
  {
    assert ValidNode(g, i);
    match g[i].kind
    case SequenceNode => Sequence(g[i].event, TreesOf(g, i, g[i].content))
    case MappingNode => Mapping(g[i].event, TreesOf(g, i, g[i].content))
    case _ => Leaf(g[i].event)
  }

  ghost function TreesOf(g: seq<GraphNode>, lo: nat, cs: seq<nat>): (ts: seq<Node>)
    requires ValidGraph(g) && lo < |g|
    requires Below(g, lo, cs)
    ensures |ts| == |cs|
    decreases |g| - lo, 0, |cs|
  {
    if cs == [] then [] else [TreeOf(g, cs[0])] + TreesOf(g, lo, cs[1..])
  }

  lemma {:induction false} TreesAppend(g: seq<GraphNode>, lo: nat, cs: seq<nat>, c: nat)
    requires ValidGraph(g) && lo < |g|
    requires Below(g, lo, cs + [c])
    ensures Below(g, lo, cs) && c < |g| && !g[c].kind.DocumentNode?
    ensures TreesOf(g, lo, cs + [c]) == TreesOf(g, lo, cs) + [TreeOf(g, c)]
  {
    assert (cs + [c])[|cs|] == c;
    assert forall k :: 0 <= k < |cs| ==> (cs + [c])[k] == cs[k];
    if cs == [] {
      assert [c][1..] == [];
      assert cs + [c] == [c];
      assert TreesOf(g, lo, [c]) == [TreeOf(g, c)] + TreesOf(g, lo, []);
    } else {
      assert (cs + [c])[1..] == cs[1..] + [c];
      TreesAppend(g, lo, cs[1..], c);
    }
  }

  /** `h` extends `g` and agrees with it from `lo` on. */
  predicate Agrees(g: seq<GraphNode>, h: seq<GraphNode>, lo: nat) {
    |g| <= |h| && forall j :: lo <= j < |g| ==> h[j] == g[j]
  }

  lemma {:induction false} TreeFrame(g: seq<GraphNode>, h: seq<GraphNode>, lo: nat, i: nat)
    requires ValidGraph(g) && ValidGraph(h) && Agrees(g, h, lo)
    requires lo <= i < |g| && !g[i].kind.DocumentNode?
    ensures TreeOf(h, i) == TreeOf(g, i)
    decreases |g| - i, 1, 0
  {
    assert ValidNode(g, i) && ValidNode(h, i);
    TreesFrame(g, h, lo, i, g[i].content);
  }

  lemma {:induction false} TreesFrame(g: seq<GraphNode>, h: seq<GraphNode>, lo: nat, i: nat, cs: seq<nat>)
    requires ValidGraph(g) && ValidGraph(h) && Agrees(g, h, lo) && i < |g| && lo <= i + 1
    requires Below(g, i, cs) && Below(h, i, cs)
    ensures TreesOf(h, i, cs) == TreesOf(g, i, cs)
    decreases |g| - i, 0, |cs|
  {
    if cs != [] {
      TreeFrame(g, h, lo, cs[0]);
      TreesFrame(g, h, lo, i, cs[1..]);
    }
  }

  // ----- Tags -----

  const MERGE_TAG := "!!merge"
  const LONG_TAG_PREFIX := "tag:yaml.org,2002:"

  function ShortTag(tag: string): string {
    if LONG_TAG_PREFIX <= tag then "!!" + tag[|LONG_TAG_PREFIX|..] else tag
  }

  function ValueOf(n: GraphNode): string { if n.event.Scalar? then n.event.value else "" }

  /** A `<<` key, unless it was quoted or tagged otherwise. */
  predicate IsMerge(n: GraphNode) {
    n.kind.ScalarNode? && ValueOf(n) == "<<" && (n.tag == "" || n.tag == "!" || ShortTag(n.tag) == MERGE_TAG)
  }
}
