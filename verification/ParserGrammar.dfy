/** The parser emits only well-nested events, never indexes an empty stack, and makes progress:
    on any finite token stream, however malformed. */
module ParserGrammar {
  import opened Options
  import opened Events
  import opened Tokens
  import opened Parser

  // ----- What a parser state owes the event grammar -----

  function Frames(s: State): seq<Frame> {
    match s
    case StreamStartState => [AtStart]
    case ImplicitDocumentStart => [InStream]
    case DocumentStartState => [InStream]
    case DocumentEndState => [OwesDocumentEnd, InStream]
    case DocumentContent => [OwesNode]
    case BlockNode => [OwesNode]
    case BlockSequenceFirstEntry => [InSequence]
    case BlockSequenceEntry => [InSequence]
    case IndentlessSequenceEntry => [InSequence]
    case FlowSequenceFirstEntry => [InSequence]
    case FlowSequenceEntry => [InSequence]
    case BlockMappingFirstKey => [AtKey]
    case BlockMappingKey => [AtKey]
    case BlockMappingValue => [AtValue]
    case FlowSequenceEntryMappingKey => [AtKey, InSequence]
    case FlowSequenceEntryMappingValue => [AtValue, InSequence]
    case FlowSequenceEntryMappingEnd => [AtKey, InSequence]
    case FlowMappingFirstKey => [AtKey]
    case FlowMappingKey => [AtKey]
    case FlowMappingValue => [AtValue]
    case FlowMappingEmptyValue => [AtValue]
    case EndState => []
  }

  function FramesOf(states: seq<State>): seq<Frame> {
    if states == [] then [] else Frames(Last(states)) + FramesOf(Init(states))
  }

  function StackOf(p: P): seq<Frame> { Frames(p.state) + FramesOf(p.states) }

  // ----- The shape of the stacks -----

  /** States a node may return to. */
  predicate Resumable(s: State) {
    || s.BlockSequenceEntry? || s.IndentlessSequenceEntry? || s.BlockMappingKey? || s.BlockMappingValue?
    || s.FlowSequenceEntry? || s.FlowSequenceEntryMappingValue? || s.FlowSequenceEntryMappingEnd?
    || s.FlowMappingKey? || s.FlowMappingValue? || s.FlowMappingEmptyValue?
  }

  predicate BelowIndentless(s: State) { s.BlockMappingKey? || s.BlockMappingValue? }

  predicate ValidStates(states: seq<State>) {
    && states != [] && states[0] == DocumentEndState
    && (forall i :: 0 < i < |states| ==> Resumable(states[i]))
    && (forall i :: 0 < i < |states| && states[i].IndentlessSequenceEntry? ==> BelowIndentless(states[i - 1]))
  }

  /** Marks held for one state: an indentless sequence has none. */
  function MarkOf(s: State): nat { if s.DocumentEndState? || s.IndentlessSequenceEntry? then 0 else 1 }

  function MarkSum(states: seq<State>): nat {
    if states == [] then 0 else MarkOf(Last(states)) + MarkSum(Init(states))
  }

  predicate IsFirst(s: State) {
    s.BlockSequenceFirstEntry? || s.BlockMappingFirstKey? || s.FlowSequenceFirstEntry? || s.FlowMappingFirstKey?
  }

  predicate Coherent(p: P) {
    match p.state
    case StreamStartState => p.states == [] && p.marks == []
    case ImplicitDocumentStart => p.states == [] && p.marks == []
    case DocumentStartState => p.states == [] && p.marks == []
    case DocumentEndState => p.states == [] && p.marks == []
    case EndState => p.states == [] && p.marks == []
    case DocumentContent => p.states == [DocumentEndState] && p.marks == []
    case BlockNode => p.states == [DocumentEndState] && p.marks == []
    case _ =>
      && ValidStates(p.states)
      && (if IsFirst(p.state) then |p.marks| == MarkSum(p.states) && HasToken(p)
          else |p.marks| == MarkOf(p.state) + MarkSum(p.states))
      && (p.state.IndentlessSequenceEntry? ==> BelowIndentless(Last(p.states)))
  }

  /** Ready to parse a node and return to the top of `states`. */
  predicate Ready(p: P, indentless: bool) {
    && ValidStates(p.states) && |p.marks| == MarkSum(p.states)
    && (indentless ==> BelowIndentless(Last(p.states)))
  }

  lemma PushReady(p: P, s: State, indentless: bool)
    requires ValidStates(p.states) && Resumable(s) && |p.marks| == MarkOf(s) + MarkSum(p.states)
    requires s.IndentlessSequenceEntry? ==> BelowIndentless(Last(p.states))
    requires indentless ==> BelowIndentless(s)
    ensures Ready(Push(p, s), indentless)
    ensures FramesOf(Push(p, s).states) == Frames(s) + FramesOf(p.states)
  {
    assert Init(p.states + [s]) == p.states;
  }

  lemma PopCoherent(p: P)
    requires Ready(p, false)
    ensures var p' := p.(state := Last(p.states), states := Init(p.states));
      Coherent(p') && StackOf(p') == FramesOf(p.states)
  {
    if |p.states| == 1 {
      assert Init(p.states) == [] && MarkSum(p.states) == MarkOf(DocumentEndState) + MarkSum([]);
    } else {
      assert Resumable(Last(p.states));
    }
  }

  // ----- Progress -----

  /** How many events in a row a state can emit before it must consume a token. */
  function Rank(s: State): nat {
    match s
    case ImplicitDocumentStart => 2
    case DocumentContent => 2
    case BlockNode => 1
    case DocumentEndState => 1
    case IndentlessSequenceEntry => 2
    case BlockMappingValue => 1
    case FlowSequenceEntryMappingKey => 1
    case FlowSequenceEntryMappingValue => 2
    case FlowSequenceEntryMappingEnd => 1
    case FlowMappingValue => 1
    case FlowMappingEmptyValue => 1
    case _ => 0
  }

  function Measure(p: P): int { 3 * (|p.tokens| - p.pos) + Rank(p.state) }

  /** What one production owes when it emits `e` from a parser `p` and leaves `p'`. */
  predicate Simulates(p: P, o: Outcome) {
    && !o.Crash?
    && (o.Emit? ==>
          && Coherent(o.next) && o.next.tokens == p.tokens && p.pos <= o.next.pos <= |p.tokens|
          && Step(StackOf(p), o.event) == Some(StackOf(o.next))
          && Measure(o.next) < Measure(p))
  }

  predicate SimulatesNode(p: P, o: Outcome) {
    && !o.Crash?
    && (o.Emit? ==>
          && IsNodeStart(o.event)
          && Coherent(o.next) && o.next.tokens == p.tokens && p.pos <= o.next.pos <= |p.tokens|
          && StackOf(o.next) == Open(o.event, FramesOf(p.states))
          && (p.pos == o.next.pos ==> Rank(o.next.state) == 0 || o.next.state.IndentlessSequenceEntry?)
          && Rank(o.next.state) <= 2
          && (o.next.state.IndentlessSequenceEntry? && p.pos == o.next.pos ==> |p.states| > 0 && BelowIndentless(Last(p.states))))
  }

  lemma PropertiesAdvance(p: P)
    requires HasToken(p)
    ensures match ReadProperties(p)
      case NoToken => true
      case Properties(q, anchor, tag) =>
        && q == p.(pos := q.pos) && p.pos <= q.pos < |p.tokens|
        && (anchor != "" || tag.Some? ==> p.pos < q.pos)
  {
  }

  lemma PopSimulates(p: P, p1: P, e: Event)
    requires Ready(p, false) && IsNodeStart(e) && (e.Scalar? || e.Alias?)
    requires p1 == p.(pos := p1.pos) && p.pos < p1.pos <= |p.tokens|
    ensures SimulatesNode(p, EmitPop(p1, e))
  {
    PopCoherent(p1);
  }

  lemma OpenSimulates(p: P, q: P, e: Event, s: State, indentless: bool)
    requires Ready(p, indentless) && HasToken(q) && q == p.(pos := q.pos) && p.pos <= q.pos
    requires (e.SequenceStart? && Frames(s) == [InSequence]) || (e.MappingStart? && Frames(s) == [AtKey])
    requires IsFirst(s) || (s.IndentlessSequenceEntry? && indentless)
    ensures SimulatesNode(p, Emit(e, q.(state := s)))
  {
  }

  lemma ContentSimulates(p: P, q: P, anchor: string, tag: string, block: bool, indentless: bool)
    requires Ready(p, indentless) && HasToken(q)
    requires q == p.(pos := q.pos) && p.pos <= q.pos && (anchor != "" || tag != "" ==> p.pos < q.pos)
    ensures SimulatesNode(p, ParseContent(q, anchor, tag, block, indentless))
  {
    hide SimulatesNode;
    var implicit := tag == "";
    match Peek(q) {
      case ScalarToken(value, style) =>
        PopSimulates(p, Skip(q), ScalarEvent(anchor, tag, value, style));
      case FlowSequenceStart =>
        OpenSimulates(p, q, SequenceStart(anchor, tag, implicit, Flow), FlowSequenceFirstEntry, indentless);
      case FlowMappingStart =>
        OpenSimulates(p, q, MappingStart(anchor, tag, implicit, Flow), FlowMappingFirstKey, indentless);
      case BlockEntry =>
        if indentless {
          OpenSimulates(p, q, SequenceStart(anchor, tag, implicit, Block), IndentlessSequenceEntry, indentless);
        } else {
          NoContentSimulates(p, q, anchor, tag);
        }
      case BlockSequenceStart =>
        if block {
          OpenSimulates(p, q, SequenceStart(anchor, tag, implicit, Block), BlockSequenceFirstEntry, indentless);
        } else {
          NoContentSimulates(p, q, anchor, tag);
        }
      case BlockMappingStart =>
        if block {
          OpenSimulates(p, q, MappingStart(anchor, tag, implicit, Block), BlockMappingFirstKey, indentless);
        } else {
          NoContentSimulates(p, q, anchor, tag);
        }
      case _ => NoContentSimulates(p, q, anchor, tag);
    }
  }

  lemma NoContentSimulates(p: P, q: P, anchor: string, tag: string)
    requires Ready(p, false) && HasToken(q)
    requires q == p.(pos := q.pos) && p.pos <= q.pos && (anchor != "" || tag != "" ==> p.pos < q.pos)
    ensures SimulatesNode(p, ParseNoContent(q, anchor, tag))
  {
    if anchor != "" || tag != "" {
      PopSimulates(p, q, Scalar(anchor, tag, "", tag == "", false, PlainStyle));
    }
  }

  lemma NodeSimulates(p: P, block: bool, indentless: bool)
    requires Ready(p, indentless)
    ensures SimulatesNode(p, ParseNode(p, block, indentless))
  {
    if HasToken(p) {
      if Peek(p).AliasToken? {
        PopSimulates(p, Skip(p), Alias(Peek(p).name));
      } else {
        PropertiesAdvance(p);
        match ReadProperties(p) {
          case NoToken =>
          case Properties(q, anchor, rawTag) =>
            match ResolveTag(q.directives, rawTag) {
              case None =>
              case Some(tag) =>
                ContentSimulates(p, q, anchor, tag, block, indentless);
            }
        }
      }
    }
  }

  /** A node taken in state `s` leaves what `k` owes. */
  predicate Follows(s: State, k: State) { TakesNode(Frames(s)) && AfterNode(Frames(s)) == Frames(k) }

  lemma NodeTaken(p: P, k: State)
    requires Follows(p.state, k)
    ensures TakesNode(StackOf(p)) && AfterNode(StackOf(p)) == Frames(k) + FramesOf(p.states)
  {
    hide Frames, FramesOf;
    AfterNodeAppend(Frames(p.state), FramesOf(p.states));
  }

  lemma AfterNodeAppend(stack: seq<Frame>, rest: seq<Frame>)
    requires TakesNode(stack)
    ensures TakesNode(stack + rest) && AfterNode(stack + rest) == AfterNode(stack) + rest
  {
    assert (stack + rest)[1..] == stack[1..] + rest;
  }

  /** A node parsed on behalf of `p` once `q` (tokens consumed, continuation `k` pushed) is ready. */
  lemma EntrySimulates(p: P, q: P, k: State, block: bool, indentless: bool)
    requires Coherent(p) && ValidStates(p.states) && Resumable(k)
    requires q.tokens == p.tokens && p.pos < q.pos && q.states == p.states
    requires |q.marks| == MarkOf(k) + MarkSum(p.states)
    requires k.IndentlessSequenceEntry? ==> BelowIndentless(Last(p.states))
    requires indentless ==> BelowIndentless(k)
    requires Follows(p.state, k)
    ensures Simulates(p, ParseNode(Push(q, k), block, indentless))
  {
    NodeTaken(p, k);
    PushReady(q, k, indentless);
    NodeSimulates(Push(q, k), block, indentless);
  }

  /** An empty scalar stands in for the node `p` was waiting for. */
  lemma EmptySimulates(p: P, q: P, s: State)
    requires Coherent(p) && ValidStates(p.states) && (Resumable(s) || s.FlowSequenceEntryMappingKey?)
    requires q.tokens == p.tokens && p.pos <= q.pos <= |p.tokens| && q.states == p.states
    requires p.pos == q.pos ==> Rank(s) < Rank(p.state)
    requires |q.marks| == MarkOf(s) + MarkSum(p.states)
    requires s.IndentlessSequenceEntry? ==> BelowIndentless(Last(p.states))
    requires Follows(p.state, s)
    ensures Simulates(p, Emit(EMPTY_SCALAR, q.(state := s)))
  {
    NodeTaken(p, s);
  }

  /** The end of a collection whose start pushed a mark. */
  lemma EndSimulates(p: P, q: P, e: Event)
    requires ValidStates(p.states) && |q.marks| == 1 + MarkSum(p.states)
    requires q.tokens == p.tokens && p.pos < q.pos <= |p.tokens| && q.states == p.states
    requires (e.SequenceEnd? && Frames(p.state) == [InSequence]) || (e.MappingEnd? && Frames(p.state) == [AtKey])
    ensures Simulates(p, EmitPopMark(q, e))
  {
    var q1 := q.(marks := Init(q.marks));
    PopCoherent(q1);
    var p' := q1.(state := Last(q1.states), states := Init(q1.states));
    assert EmitPopMark(q, e) == Emit(e, p');
    assert ([InSequence] + FramesOf(p.states))[1..] == FramesOf(p.states);
    assert ([AtKey] + FramesOf(p.states))[1..] == FramesOf(p.states);
    assert Rank(p'.state) <= 2;
  }

  lemma BlockSequenceSimulates(p0: P, first: bool)
    requires Coherent(p0) && p0.state == (if first then BlockSequenceFirstEntry else BlockSequenceEntry)
    ensures Simulates(p0, ParseBlockSequenceEntry(p0, first))
  {
    hide ParseNode, FramesOf, MarkSum;
    var p := if first then Enter(p0) else p0;
    if HasToken(p) {
      if Peek(p).BlockEntry? {
        if HasToken(Skip(p)) {
          EntrySimulates(p0, Skip(p), BlockSequenceEntry, true, false);
          EmptySimulates(p0, Skip(p), BlockSequenceEntry);
        }
      } else if Peek(p).BlockEnd? {
        EndSimulates(p0, Skip(p), SequenceEnd);
      }
    }
  }

  lemma IndentlessSimulates(p: P)
    requires Coherent(p) && p.state.IndentlessSequenceEntry?
    ensures Simulates(p, ParseIndentlessSequenceEntry(p))
  {
    hide ParseNode, FramesOf, MarkSum;
    if HasToken(p) {
      if Peek(p).BlockEntry? {
        if HasToken(Skip(p)) {
          EntrySimulates(p, Skip(p), IndentlessSequenceEntry, true, false);
          EmptySimulates(p, Skip(p), IndentlessSequenceEntry);
        }
      } else {
        PopCoherent(p);
        assert ([InSequence] + FramesOf(p.states))[1..] == FramesOf(p.states);
      }
    }
  }

  lemma BlockMappingKeySimulates(p0: P, first: bool)
    requires Coherent(p0) && p0.state == (if first then BlockMappingFirstKey else BlockMappingKey)
    ensures Simulates(p0, ParseBlockMappingKey(p0, first))
  {
    hide ParseNode, FramesOf, MarkSum;
    var p := if first then Enter(p0) else p0;
    if HasToken(p) {
      if Peek(p).Key? {
        if HasToken(Skip(p)) {
          EntrySimulates(p0, Skip(p), BlockMappingValue, true, true);
          EmptySimulates(p0, Skip(p), BlockMappingValue);
        }
      } else if Peek(p).BlockEnd? {
        EndSimulates(p0, Skip(p), MappingEnd);
      }
    }
  }

  lemma BlockMappingValueSimulates(p: P)
    requires Coherent(p) && p.state.BlockMappingValue?
    ensures Simulates(p, ParseBlockMappingValue(p))
  {
    hide ParseNode, FramesOf, MarkSum;
    if HasToken(p) {
      if Peek(p).Value? {
        if HasToken(Skip(p)) {
          EntrySimulates(p, Skip(p), BlockMappingKey, true, true);
          EmptySimulates(p, Skip(p), BlockMappingKey);
        }
      } else {
        EmptySimulates(p, p, BlockMappingKey);
      }
    }
  }

  lemma FlowSequenceSimulates(p0: P, first: bool)
    requires Coherent(p0) && p0.state == (if first then FlowSequenceFirstEntry else FlowSequenceEntry)
    ensures Simulates(p0, ParseFlowSequenceEntry(p0, first))
  {
    hide Simulates;
    var p := if first then Enter(p0) else p0;
    if HasToken(p) {
      var q := if first then p else Skip(p);
      if Peek(p).FlowSequenceEnd? {
        EndSimulates(p0, Skip(p), SequenceEnd);
      } else if first || Peek(p).FlowEntry? {
        if HasToken(q) {
          FlowSequenceItemSimulates(p0, q);
        } else {
          ErrorSimulates(p0, OutOfTokens);
        }
      } else {
        ErrorSimulates(p0, ExpectedFlowSequenceEnd);
      }
    } else {
      ErrorSimulates(p0, OutOfTokens);
    }
  }

  lemma ErrorSimulates(p: P, problem: Problem)
    ensures Simulates(p, Error(problem))
  {
  }

  lemma FlowSequenceItemSimulates(p: P, q: P)
    requires Coherent(p) && (p.state.FlowSequenceFirstEntry? || p.state.FlowSequenceEntry?)
    requires q.tokens == p.tokens && p.pos < q.pos < |q.tokens| && q.states == p.states
    requires |q.marks| == 1 + MarkSum(p.states)
    ensures Peek(q).Key? ==>
      Simulates(p, Emit(MappingStart("", "", true, Flow), Skip(q).(state := FlowSequenceEntryMappingKey)))
    ensures !Peek(q).Key? && !Peek(q).FlowSequenceEnd? ==> Simulates(p, ParseNode(Push(q, FlowSequenceEntry), false, false))
    ensures Peek(q).FlowSequenceEnd? ==> Simulates(p, EmitPopMark(Skip(q), SequenceEnd))
  {
    if Peek(q).Key? {
      FlowPairSimulates(p, Skip(q));
    } else if Peek(q).FlowSequenceEnd? {
      EndSimulates(p, Skip(q), SequenceEnd);
    } else {
      EntrySimulates(p, q, FlowSequenceEntry, false, false);
    }
  }

  lemma FlowPairSimulates(p: P, q: P)
    requires Coherent(p) && (p.state.FlowSequenceFirstEntry? || p.state.FlowSequenceEntry?)
    requires q.tokens == p.tokens && p.pos + 1 < q.pos <= |q.tokens| && q.states == p.states
    requires |q.marks| == 1 + MarkSum(p.states)
    ensures Simulates(p, Emit(MappingStart("", "", true, Flow), q.(state := FlowSequenceEntryMappingKey)))
  {
    hide FramesOf, MarkSum;
    var r := q.(state := FlowSequenceEntryMappingKey);
    assert StackOf(r) == [AtKey] + ([InSequence] + FramesOf(p.states));
  }

  lemma FlowPairKeySimulates(p: P)
    requires Coherent(p) && p.state.FlowSequenceEntryMappingKey?
    ensures Simulates(p, ParseFlowSequenceEntryMappingKey(p))
  {
    var k := FlowSequenceEntryMappingValue;
    if HasToken(p) {
      var t := Peek(p);
      if !t.Value? && !t.FlowEntry? && !t.FlowSequenceEnd? {
        FlowPairKeyNode(p);
      } else {
        hide ParseNode;
        EmptySimulates(p, Skip(p), k);
      }
    }
  }

  lemma FlowPairKeyNode(p: P)
    requires Coherent(p) && p.state.FlowSequenceEntryMappingKey?
    ensures Simulates(p, ParseNode(Push(p, FlowSequenceEntryMappingValue), false, false))
  {
    hide ParseNode, FramesOf, MarkSum, ValidStates;
    var k := FlowSequenceEntryMappingValue;
    NodeTaken(p, k);
    PushReady(p, k, false);
    NodeSimulates(Push(p, k), false, false);
    assert Last(Push(p, k).states) == k;
  }

  lemma FlowPairValueSimulates(p: P)
    requires Coherent(p) && p.state.FlowSequenceEntryMappingValue?
    ensures Simulates(p, ParseFlowSequenceEntryMappingValue(p))
  {
    hide Simulates, ParseNode, FramesOf, MarkSum, StackOf;
    var k := FlowSequenceEntryMappingEnd;
    if HasToken(p) {
      if Peek(p).Value? {
        if HasToken(Skip(p)) {
          if !Peek(Skip(p)).FlowEntry? && !Peek(Skip(p)).FlowSequenceEnd? {
            EntrySimulates(p, Skip(p), k, false, false);
          } else {
            EmptySimulates(p, Skip(p), k);
          }
        } else {
          ErrorSimulates(p, OutOfTokens);
        }
      } else {
        EmptySimulates(p, p, k);
      }
    } else {
      ErrorSimulates(p, OutOfTokens);
    }
  }

  lemma FlowPairEndSimulates(p: P)
    requires Coherent(p) && p.state.FlowSequenceEntryMappingEnd?
    ensures Simulates(p, ParseFlowSequenceEntryMappingEnd(p))
  {
    assert StackOf(p)[1..] == [InSequence] + FramesOf(p.states);
  }

  lemma FlowMappingKeySimulates(p0: P, first: bool)
    requires Coherent(p0) && p0.state == (if first then FlowMappingFirstKey else FlowMappingKey)
    ensures Simulates(p0, ParseFlowMappingKey(p0, first))
  {
    hide Simulates, ParseNode, FramesOf, MarkSum, StackOf;
    var p := if first then Enter(p0) else p0;
    if HasToken(p) {
      var q := if first then p else Skip(p);
      if Peek(p).FlowMappingEnd? {
        EndSimulates(p0, Skip(p), MappingEnd);
      } else if first || Peek(p).FlowEntry? {
        if HasToken(q) {
          FlowMappingItemSimulates(p0, q);
        } else {
          ErrorSimulates(p0, OutOfTokens);
        }
      } else {
        ErrorSimulates(p0, ExpectedFlowMappingEnd);
      }
    } else {
      ErrorSimulates(p0, OutOfTokens);
    }
  }

  lemma FlowMappingItemSimulates(p: P, q: P)
    requires Coherent(p) && (p.state.FlowMappingFirstKey? || p.state.FlowMappingKey?)
    requires q.tokens == p.tokens && p.pos < q.pos < |q.tokens| && q.states == p.states
    requires |q.marks| == 1 + MarkSum(p.states)
    ensures Simulates(p, ParseFlowMappingItem(q))
  {
    hide Simulates, ParseNode, FramesOf, MarkSum, StackOf;
    if Peek(q).Key? {
      var r := Skip(q);
      if HasToken(r) {
        var t := Peek(r);
        if !t.Value? && !t.FlowEntry? && !t.FlowMappingEnd? {
          EntrySimulates(p, r, FlowMappingValue, false, false);
        } else {
          EmptySimulates(p, r, FlowMappingValue);
        }
      } else {
        ErrorSimulates(p, OutOfTokens);
      }
    } else if !Peek(q).FlowMappingEnd? {
      EntrySimulates(p, q, FlowMappingEmptyValue, false, false);
    } else {
      EndSimulates(p, Skip(q), MappingEnd);
    }
  }

  lemma FlowMappingValueSimulates(p: P, empty: bool)
    requires Coherent(p) && p.state == (if empty then FlowMappingEmptyValue else FlowMappingValue)
    ensures Simulates(p, ParseFlowMappingValue(p, empty))
  {
    hide Simulates, ParseNode, FramesOf, MarkSum, StackOf;
    if HasToken(p) {
      if !empty && Peek(p).Value? {
        if HasToken(Skip(p)) {
          if !Peek(Skip(p)).FlowEntry? && !Peek(Skip(p)).FlowMappingEnd? {
            EntrySimulates(p, Skip(p), FlowMappingKey, false, false);
          } else {
            EmptySimulates(p, Skip(p), FlowMappingKey);
          }
        } else {
          ErrorSimulates(p, OutOfTokens);
        }
      } else {
        EmptySimulates(p, p, FlowMappingKey);
      }
    } else {
      ErrorSimulates(p, OutOfTokens);
    }
  }

  // ----- Documents -----

  lemma {:induction false} DirectivesKeep(p: P, version: bool, tags: seq<(string, string)>)
    ensures match ProcessDirectives(p, version, tags)
      case BadDirective(_) => true
      case Directives(q, _, _) => q == p.(pos := q.pos, directives := q.directives) && p.pos <= q.pos < |p.tokens|
    decreases |p.tokens| - p.pos
  {
    if HasToken(p) {
      match Peek(p) {
        case VersionDirective(_, _) => DirectivesKeep(Skip(p), true, tags);
        case TagDirective(handle, prefix) =>
          DirectivesKeep(Skip(p).(directives := p.directives + [(handle, prefix)]), version, tags + [(handle, prefix)]);
        case _ =>
      }
    }
  }

  lemma {:induction false} SkipEndsKeeps(p: P)
    requires p.pos <= |p.tokens|
    ensures var q := SkipDocumentEnds(p); q == p.(pos := q.pos) && p.pos <= q.pos <= |p.tokens|
    decreases |p.tokens| - p.pos
  {
    if HasToken(p) && Peek(p).DocumentEndToken? {
      SkipEndsKeeps(Skip(p));
    }
  }

  lemma BaseFrames()
    ensures FramesOf([]) == [] && FramesOf([DocumentEndState]) == [OwesDocumentEnd, InStream] && MarkSum([DocumentEndState]) == 0
  {
    assert Init([DocumentEndState]) == [];
    assert FramesOf([DocumentEndState]) == Frames(DocumentEndState) + FramesOf([]);
  }

  /** A document begins in state `s`, explicitly or not. */
  lemma BeginSimulates(p: P, q: P, s: State, version: bool, tags: seq<(string, string)>)
    requires Coherent(p) && (p.state.ImplicitDocumentStart? || p.state.DocumentStartState?)
    requires q.tokens == p.tokens && q.states == [] && q.marks == []
    requires (s.BlockNode? && p.state.ImplicitDocumentStart? && p.pos <= q.pos <= |p.tokens|)
      || (s.DocumentContent? && p.pos < q.pos <= |p.tokens|)
    ensures Simulates(p, Emit(DocumentStart(false, version, tags), Push(q, DocumentEndState).(state := s)))
  {
    hide FramesOf, MarkSum;
    BaseFrames();
    assert q.states + [DocumentEndState] == [DocumentEndState];
    assert StackOf(p) == [InStream];
    var r := Push(q, DocumentEndState).(state := s);
    assert StackOf(r) == [OwesNode, OwesDocumentEnd] + [InStream];
  }

  lemma StreamEndSimulates(p: P, q: P)
    requires Coherent(p) && (p.state.ImplicitDocumentStart? || p.state.DocumentStartState?)
    requires q.tokens == p.tokens && q.states == [] && q.marks == [] && p.pos < q.pos <= |p.tokens|
    ensures Simulates(p, Emit(StreamEnd, q.(state := EndState)))
  {
    hide FramesOf, MarkSum;
    BaseFrames();
    assert StackOf(p) == [InStream];
    assert [InStream][1..] == [] == StackOf(q.(state := EndState));
  }

  lemma DocumentStartSimulates(p0: P, implicit: bool)
    requires Coherent(p0) && p0.state == (if implicit then ImplicitDocumentStart else DocumentStartState)
    requires p0.pos <= |p0.tokens|
    ensures Simulates(p0, ParseDocumentStart(p0, implicit))
  {
    hide Simulates, ProcessDirectives, SkipDocumentEnds, FramesOf, MarkSum, StackOf;
    SkipEndsKeeps(p0);
    var p := if implicit then p0 else SkipDocumentEnds(p0);
    DirectivesKeep(p, false, []);
    if HasToken(p) {
      var t := Peek(p);
      if t.StreamEndToken? {
        StreamEndSimulates(p0, Skip(p));
      } else {
        match ProcessDirectives(p, false, []) {
          case BadDirective(problem) => ErrorSimulates(p0, problem);
          case Directives(q, version, tags) =>
            if implicit && !t.VersionDirective? && !t.TagDirective? && !t.DocumentStartToken? {
              BeginSimulates(p0, q, BlockNode, false, []);
            } else if !Peek(q).DocumentStartToken? {
              ErrorSimulates(p0, ExpectedDocumentStart);
            } else {
              BeginSimulates(p0, Skip(q), DocumentContent, version, tags);
              assert Skip(Push(q, DocumentEndState)) == Push(Skip(q), DocumentEndState);
            }
        }
      }
    } else {
      ErrorSimulates(p0, OutOfTokens);
    }
  }

  lemma DocumentContentSimulates(p: P)
    requires Coherent(p) && (p.state.DocumentContent? || p.state.BlockNode?)
    ensures p.state.DocumentContent? ==> Simulates(p, ParseDocumentContent(p))
    ensures Simulates(p, ParseNode(p, true, false))
  {
    assert MarkSum([DocumentEndState]) == 0 by {
      assert Init([DocumentEndState]) == [];
    }
    NodeSimulates(p, true, false);
    PopCoherent(p);
    assert ([OwesNode] + FramesOf(p.states))[1..] == FramesOf(p.states);
  }

  lemma DocumentEndSimulates(p: P)
    requires Coherent(p) && p.state.DocumentEndState?
    ensures Simulates(p, ParseDocumentEnd(p))
  {
    BaseFrames();
    assert StackOf(p)[1..] == [InStream] == StackOf(p.(state := DocumentStartState));
  }

  lemma StreamStartSimulates(p: P)
    requires Coherent(p) && p.state.StreamStartState?
    ensures Simulates(p, ParseStreamStart(p))
  {
  }

  /** One event: the parser never crashes, and what it emits is what the event grammar allows. */
  lemma NextSimulates(p: P)
    requires Coherent(p) && !p.state.EndState? && p.pos <= |p.tokens|
    ensures Simulates(p, Next(p))
  {
    hide Simulates;
    match p.state {
      case StreamStartState => StreamStartSimulates(p);
      case ImplicitDocumentStart => DocumentStartSimulates(p, true);
      case DocumentStartState => DocumentStartSimulates(p, false);
      case DocumentContent => DocumentContentSimulates(p);
      case DocumentEndState => DocumentEndSimulates(p);
      case BlockNode => DocumentContentSimulates(p);
      case BlockSequenceFirstEntry => BlockSequenceSimulates(p, true);
      case BlockSequenceEntry => BlockSequenceSimulates(p, false);
      case IndentlessSequenceEntry => IndentlessSimulates(p);
      case BlockMappingFirstKey => BlockMappingKeySimulates(p, true);
      case BlockMappingKey => BlockMappingKeySimulates(p, false);
      case BlockMappingValue => BlockMappingValueSimulates(p);
      case FlowSequenceFirstEntry => FlowSequenceSimulates(p, true);
      case FlowSequenceEntry => FlowSequenceSimulates(p, false);
      case FlowSequenceEntryMappingKey => FlowPairKeySimulates(p);
      case FlowSequenceEntryMappingValue => FlowPairValueSimulates(p);
      case FlowSequenceEntryMappingEnd => FlowPairEndSimulates(p);
      case FlowMappingFirstKey => FlowMappingKeySimulates(p, true);
      case FlowMappingKey => FlowMappingKeySimulates(p, false);
      case FlowMappingValue => FlowMappingValueSimulates(p, false);
      case FlowMappingEmptyValue => FlowMappingValueSimulates(p, true);
    }
  }

  // ----- Whole runs -----

  /** The events of a run from `p`, up to STREAM-END or an error. */
  function RunEvents(p: P): (seq<Event>, Option<Problem>)
    requires Coherent(p) && p.pos <= |p.tokens|
    decreases Measure(p)
  {
    if p.state.EndState? then ([], None)
    else
      NextSimulates(p);
      match Next(p)
      case Error(problem) => ([], Some(problem))
      case Emit(e, next) => var (es, r) := RunEvents(next); ([e] + es, r)
  }

  lemma {:induction false} RunFrom(p: P, stack: seq<Frame>)
    requires Coherent(p) && p.pos <= |p.tokens| && stack == StackOf(p)
    ensures var (es, r) := RunEvents(p);
      && Run(stack, es, 0).Some?
      && (r.None? ==> Run(stack, es, 0) == Some([]))
      && |es| <= Measure(p)
    decreases Measure(p)
  {
    if p.state.EndState? {
      assert StackOf(p) == [];
    } else {
      hide Next, StackOf, Coherent, Run, Step;
      NextSimulates(p);
      match Next(p) {
        case Error(_) =>
        case Emit(e, next) =>
          RunFrom(next, StackOf(next));
          var es := RunEvents(next).0;
          RunCons(stack, e, StackOf(next), es);
      }
    }
  }

  lemma RunCons(stack: seq<Frame>, e: Event, next: seq<Frame>, es: seq<Event>)
    requires Step(stack, e) == Some(next)
    ensures Run(stack, [e] + es, 0) == Run(next, es, 0)
  {
    hide Step;
    RunShift(next, e, es, 0);
  }

  lemma {:induction false} RunShift(stack: seq<Frame>, e: Event, es: seq<Event>, k: nat)
    requires k <= |es|
    ensures Run(stack, [e] + es, k + 1) == Run(stack, es, k)
    decreases |es| - k
  {
    if k < |es| {
      assert ([e] + es)[k + 1] == es[k];
      match Step(stack, es[k])
      case None =>
      case Some(next) => RunShift(next, e, es, k + 1);
    }
  }

  /** On every token stream the events form a prefix of a well-formed stream, a whole one when no
      error is reported; there are at most three events for a token, so the parser always gets to
      STREAM-END or an error. */
  lemma EveryTokenStreamIsNested(tokens: seq<Token>)
    ensures Coherent(Initial(tokens))
    ensures var (es, r) := RunEvents(Initial(tokens));
      && IsPrefix(es)
      && (r.None? ==> IsStream(es))
      && |es| <= 3 * |tokens|
  {
    RunFrom(Initial(tokens), START);
  }
}
