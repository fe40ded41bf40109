/** Events, the grammar of well-formed event streams, and the trees they spell.

    `Step` is a pushdown recogniser of
      STREAM-START (DOCUMENT-START node DOCUMENT-END)* STREAM-END
    with an even number of nodes in every mapping. It knows nothing of tokens, parser states or
    emitter states: the parser is proved to produce what it accepts and the emitter to accept it. */
module Events {
  import opened Options

  datatype ScalarStyle = AnyStyle | PlainStyle | SingleQuotedStyle | DoubleQuotedStyle | LiteralStyle | FoldedStyle

  datatype CollectionStyle = AnyCollection | Block | Flow

  datatype Event =
    | StreamStart
    | StreamEnd
    | DocumentStart(implicitStart: bool, version: bool, directives: seq<(string, string)>)
    | DocumentEnd(implicitEnd: bool)
    | Alias(name: string)
    | Scalar(anchor: string, tag: string, value: string, implicit: bool, quotedImplicit: bool, style: ScalarStyle)
    | SequenceStart(anchor: string, tag: string, implicit: bool, collection: CollectionStyle)
    | SequenceEnd
    | MappingStart(anchor: string, tag: string, implicit: bool, collection: CollectionStyle)
    | MappingEnd

  predicate Redefines(given: seq<(string, string)>, handle: string) { exists i :: 0 <= i < |given| && given[i].0 == handle }

  /** The tag directives in force inside a document: those it gives, and the two that are there unless it redefines
      their handles. */
  function InForce(given: seq<(string, string)>): seq<(string, string)> {
    given
    + (if Redefines(given, "!") then [] else [("!", "!")])
    + (if Redefines(given, "!!") then [] else [("!!", "tag:yaml.org,2002:")])
  }

  /** What the stream still owes, innermost first. */
  datatype Frame =
    | AtStart          // STREAM-START
    | InStream         // DOCUMENT-START or STREAM-END
    | OwesDocumentEnd
    | OwesNode
    | InSequence       // a node or SEQUENCE-END
    | AtKey            // a node or MAPPING-END
    | AtValue          // a node

  predicate IsNodeStart(e: Event) { e.Alias? || e.Scalar? || e.SequenceStart? || e.MappingStart? }

  /** The stack once `e` has begun (or been) a node; `after` is the stack once the node is complete. */
  function Open(e: Event, after: seq<Frame>): seq<Frame>
    requires IsNodeStart(e)
  {
    if e.SequenceStart? then [InSequence] + after
    else if e.MappingStart? then [AtKey] + after
    else after
  }

  predicate TakesNode(stack: seq<Frame>) {
    stack != [] && (stack[0].OwesNode? || stack[0].InSequence? || stack[0].AtKey? || stack[0].AtValue?)
  }

  /** The stack when the node it is waiting for is complete. */
  function AfterNode(stack: seq<Frame>): seq<Frame>
    requires TakesNode(stack)
  {
    match stack[0]
    case OwesNode => stack[1..]
    case InSequence => stack
    case AtKey => [AtValue] + stack[1..]
    case AtValue => [AtKey] + stack[1..]
  }

  function Step(stack: seq<Frame>, e: Event): Option<seq<Frame>> {
    if stack == [] then None
    else if TakesNode(stack) && IsNodeStart(e) then Some(Open(e, AfterNode(stack)))
    else
      match (stack[0], e)
      case (AtStart, StreamStart) => Some([InStream] + stack[1..])
      case (InStream, DocumentStart(_, _, _)) => Some([OwesNode, OwesDocumentEnd] + stack)
      case (InStream, StreamEnd) => Some(stack[1..])
      case (OwesDocumentEnd, DocumentEnd(_)) => Some(stack[1..])
      case (InSequence, SequenceEnd) => Some(stack[1..])
      case (AtKey, MappingEnd) => Some(stack[1..])
      case _ => None
  }

  /** The stack after `evs[p..]`, or None when some event is not allowed. */
  function Run(stack: seq<Frame>, evs: seq<Event>, p: nat): Option<seq<Frame>>
    requires p <= |evs|
    decreases |evs| - p
  {
    if p == |evs| then Some(stack)
    else
      match Step(stack, evs[p])
      case None => None
      case Some(next) => Run(next, evs, p + 1)
  }

  const START: seq<Frame> := [AtStart]

  /** A prefix of a well-formed stream; a whole one. */
  predicate IsPrefix(evs: seq<Event>) { Run(START, evs, 0).Some? }

  predicate IsStream(evs: seq<Event>) { Run(START, evs, 0) == Some([]) }

  lemma {:induction false} RunAppend(stack: seq<Frame>, evs: seq<Event>, p: nat, e: Event)
    requires p <= |evs|
    ensures Run(stack, evs + [e], p)
      == match Run(stack, evs, p) case None => None case Some(next) => Step(next, e)
    decreases |evs| - p
  {
    if p == |evs| {
      assert (evs + [e])[p] == e;
    } else {
      assert (evs + [e])[p] == evs[p];
      match Step(stack, evs[p])
      case None =>
      case Some(next) => RunAppend(next, evs, p + 1, e);
    }
  }

  /** Every stack a run reaches: still at the start, or the stream's own frame at the bottom. */
  predicate Rooted(stack: seq<Frame>) {
    || stack == START
    || (stack != [] && stack[|stack| - 1].InStream?
        && forall i :: 0 <= i < |stack| - 1 ==> !stack[i].InStream? && !stack[i].AtStart?)
  }

  lemma StepRooted(stack: seq<Frame>, e: Event)
    requires Rooted(stack) && Step(stack, e).Some?
    ensures if e.StreamEnd? then stack == [InStream] && Step(stack, e) == Some([])
      else Rooted(Step(stack, e).value) && Step(stack, e).value != START
  {
    if stack == START {
      assert Step(stack, e).value == [InStream];
    } else if e.StreamEnd? {
      assert |stack| == 1;
    } else {
      var next := Step(stack, e).value;
      if IsNodeStart(e) {
        OpenRooted(stack, e);
      } else if e.DocumentStart? {
        assert |stack| == 1 && next == [OwesNode, OwesDocumentEnd] + stack;
      } else {
        assert next == stack[1..] && |stack| > 1;
      }
    }
  }

  lemma OpenRooted(stack: seq<Frame>, e: Event)
    requires Rooted(stack) && stack != START && TakesNode(stack) && IsNodeStart(e)
    ensures Rooted(Open(e, AfterNode(stack))) && Open(e, AfterNode(stack)) != START
  {
  }

  // ----- Trees -----

  /** `open` of a collection is the event that starts it. */
  datatype Node =
    | Leaf(leaf: Event)
    | Sequence(open: Event, items: seq<Node>)
    | Mapping(open: Event, content: seq<Node>)  // keys and values in turn

  predicate WellFormed(n: Node) {
    match n
    case Leaf(e) => e.Alias? || e.Scalar?
    case Sequence(e, items) => e.SequenceStart? && forall i :: 0 <= i < |items| ==> WellFormed(items[i])
    case Mapping(e, content) =>
      e.MappingStart? && |content| % 2 == 0 && forall i :: 0 <= i < |content| ==> WellFormed(content[i])
  }

  predicate AllWellFormed(ns: seq<Node>) { forall i :: 0 <= i < |ns| ==> WellFormed(ns[i]) }

  function Flatten(n: Node): (evs: seq<Event>)
    ensures evs != []
  {
    match n
    case Leaf(e) => [e]
    case Sequence(e, items) => [e] + FlattenAll(items) + [SequenceEnd]
    case Mapping(e, content) => [e] + FlattenAll(content) + [MappingEnd]
  }

  function FlattenAll(ns: seq<Node>): seq<Event> {
    if ns == [] then [] else Flatten(ns[0]) + FlattenAll(ns[1..])
  }

  lemma {:induction false} FlattenAllAppend(ns: seq<Node>, n: Node)
    ensures FlattenAll(ns + [n]) == FlattenAll(ns) + Flatten(n)
  {
    if ns == [] {
      assert [n][1..] == [];
      assert FlattenAll([n]) == Flatten(n) + [];
    } else {
      FlattenAllAppend(ns[1..], n);
      assert (ns + [n])[1..] == ns[1..] + [n];
      assert (Flatten(ns[0]) + FlattenAll(ns[1..])) + Flatten(n) == Flatten(ns[0]) + (FlattenAll(ns[1..]) + Flatten(n));
    }
  }

  // ----- Nesting levels -----

  function Rise(e: Event): int {
    if e.StreamStart? || e.DocumentStart? || e.SequenceStart? || e.MappingStart? then 1
    else if e.StreamEnd? || e.DocumentEnd? || e.SequenceEnd? || e.MappingEnd? then -1
    else 0
  }

  /** The nesting level after `evs[p..k]`, counted from 0. */
  function Level(evs: seq<Event>, p: nat, k: nat): int
    requires p <= k <= |evs|
    decreases k - p
  {
    if p == k then 0 else Level(evs, p, k - 1) + Rise(evs[k - 1])
  }

  lemma {:induction false} LevelSplit(evs: seq<Event>, p: nat, q: nat, k: nat)
    requires p <= q <= k <= |evs|
    ensures Level(evs, p, k) == Level(evs, p, q) + Level(evs, q, k)
    decreases k
  {
    if q < k { LevelSplit(evs, p, q, k - 1); }
  }

  lemma OneLevel(evs: seq<Event>, p: nat)
    requires p < |evs|
    ensures Level(evs, p, p + 1) == Rise(evs[p])
  {
    assert Level(evs, p, p) == 0;
  }

  lemma Ends(evs: seq<Event>, p: nat, e: Event, inner: seq<Event>, end: Event)
    requires p + |inner| + 2 <= |evs| && evs[p..p + |inner| + 2] == [e] + inner + [end]
    ensures evs[p] == e && evs[p + 1 + |inner|] == end && evs[p + 1..p + 1 + |inner|] == inner
  {
    var all := evs[p..p + |inner| + 2];
    assert evs[p] == all[0] && evs[p + 1 + |inner|] == all[1 + |inner|];
    assert all[1..1 + |inner|] == inner;
    assert forall i :: p < i < p + 1 + |inner| ==> evs[i] == all[i - p];
  }

  lemma Halves(evs: seq<Event>, p: nat, a: seq<Event>, b: seq<Event>)
    requires p + |a| + |b| <= |evs| && evs[p..p + |a + b|] == a + b
    ensures evs[p..p + |a|] == a && evs[p + |a|..p + |a| + |b|] == b
  {
    assert evs[p..p + |a|] == (a + b)[..|a|];
    assert evs[p + |a|..p + |a| + |b|] == (a + b)[|a|..];
  }

  /** Inside a node the level stays above where the node begins, and ends there. */
  lemma {:induction false} NodeLevel(n: Node, evs: seq<Event>, p: nat)
    requires WellFormed(n) && p + |Flatten(n)| <= |evs| && evs[p..p + |Flatten(n)|] == Flatten(n)
    ensures Level(evs, p, p + |Flatten(n)|) == 0 && forall k :: p <= k <= p + |Flatten(n)| ==> Level(evs, p, k) >= 0
    decreases n, 1
  {
    hide Level, FlattenAll, Rise;
    match n {
      case Leaf(e) =>
        assert evs[p] == evs[p..p + 1][0] == e;
        OneLevel(evs, p);
        NoLevel(evs, p);
        LeafRise(e);
      case Sequence(e, items) => CollectionLevel(items, e, SequenceEnd, evs, p);
      case Mapping(e, content) => CollectionLevel(content, e, MappingEnd, evs, p);
    }
  }

  lemma LeafRise(e: Event)
    requires e.Alias? || e.Scalar?
    ensures Rise(e) == 0
  {
  }

  lemma NoLevel(evs: seq<Event>, p: nat)
    requires p <= |evs|
    ensures Level(evs, p, p) == 0
  {
  }

  lemma {:induction false} CollectionLevel(ns: seq<Node>, e: Event, end: Event, evs: seq<Event>, p: nat)
    requires (e.SequenceStart? || e.MappingStart?) && (end.SequenceEnd? || end.MappingEnd?)
    requires forall i :: 0 <= i < |ns| ==> WellFormed(ns[i])
    requires var k := p + |FlattenAll(ns)| + 2; k <= |evs| && evs[p..k] == [e] + FlattenAll(ns) + [end]
    ensures var last := p + |FlattenAll(ns)| + 2;
      Level(evs, p, last) == 0 && forall k :: p <= k <= last ==> Level(evs, p, k) >= 0
    decreases ns, 3
  {
    hide Level, FlattenAll;
    var q := p + 1 + |FlattenAll(ns)|;
    Ends(evs, p, e, FlattenAll(ns), end);
    NodesLevel(ns, evs, p + 1);
    NoLevel(evs, p);
    OneLevel(evs, p);
    OneLevel(evs, q);
    forall k | p + 1 <= k <= q + 1 ensures Level(evs, p, k) >= 0 && (k == q + 1 ==> Level(evs, p, k) == 0) {
      LevelSplit(evs, p, p + 1, k);
      if k == q + 1 { LevelSplit(evs, p + 1, q, k); }
    }
  }

  lemma {:induction false} NodesLevel(ns: seq<Node>, evs: seq<Event>, p: nat)
    requires forall i :: 0 <= i < |ns| ==> WellFormed(ns[i])
    requires p + |FlattenAll(ns)| <= |evs| && evs[p..p + |FlattenAll(ns)|] == FlattenAll(ns)
    ensures Level(evs, p, p + |FlattenAll(ns)|) == 0 && forall k :: p <= k <= p + |FlattenAll(ns)| ==> Level(evs, p, k) >= 0
    decreases ns, 2
  {
    hide Level, Flatten;
    NoLevel(evs, p);
    if ns != [] {
      var q, last := p + |Flatten(ns[0])|, p + |FlattenAll(ns)|;
      Halves(evs, p, Flatten(ns[0]), FlattenAll(ns[1..]));
      NodeLevel(ns[0], evs, p);
      NodesLevel(ns[1..], evs, q);
      forall k | q <= k <= last ensures Level(evs, p, k) >= 0 && (k == last ==> Level(evs, p, k) == 0) {
        LevelSplit(evs, p, q, k);
      }
    }
  }

  lemma InsideNodes(ns: seq<Node>, evs: seq<Event>, k: nat)
    requires AllWellFormed(ns) && k <= |FlattenAll(ns)| <= |evs| && evs[0..|FlattenAll(ns)|] == FlattenAll(ns)
    ensures Level(evs, 0, k) >= 0
  {
    hide Level, FlattenAll, WellFormed;
    NodesLevel(ns, evs, 0);
  }

  lemma BehindNodes(ns: seq<Node>, evs: seq<Event>)
    requires AllWellFormed(ns) && |FlattenAll(ns)| < |evs| && evs[0..|FlattenAll(ns)|] == FlattenAll(ns)
    ensures Level(evs, 0, |FlattenAll(ns)| + 1) == Rise(evs[|FlattenAll(ns)|])
  {
    hide Level, FlattenAll, Rise, WellFormed;
    var k := |FlattenAll(ns)|;
    NodesLevel(ns, evs, 0);
    LevelSplit(evs, 0, k, k + 1);
    OneLevel(evs, k);
  }

  /** A run of nodes with the end of its collection is not the beginning of a longer one. */
  lemma EndsOnce(ns: seq<Node>, ms: seq<Node>, end: Event)
    requires AllWellFormed(ns) && AllWellFormed(ms) && (end.SequenceEnd? || end.MappingEnd?)
    requires |FlattenAll(ns)| < |FlattenAll(ms)|
    ensures (FlattenAll(ms) + [end])[..|FlattenAll(ns)| + 1] != FlattenAll(ns) + [end]
  {
    hide FlattenAll, AllWellFormed, Level;
    var k, b := |FlattenAll(ns)|, FlattenAll(ms);
    if (b + [end])[..k + 1] == FlattenAll(ns) + [end] {
      assert b[0..k] == (b + [end])[..k + 1][..k] == FlattenAll(ns);
      assert b[k] == (b + [end])[..k + 1][k] == end;
      assert b[0..|b|] == b;
      InsideNodes(ms, b, k + 1);
      BehindNodes(ns, b);
    }
  }
}
