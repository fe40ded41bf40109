/** The emitter accepts exactly the well-formed event streams (with usable anchors, tags and
    directives), never indexes an empty stack, and keeps its indentation a strictly rising ladder. */
module EmitterGrammar {
  import opened Chars
  import opened Options
  import opened Events
  import opened ScalarEmitter
  import opened EmitterMachine

  // ----- States -----

  predicate IsFirst(s: EmitterState) {
    s.FlowSequenceFirstItem? || s.FlowMappingFirstKey? || s.BlockSequenceFirstItem? || s.BlockMappingFirstKey?
  }

  predicate IsFlow(s: EmitterState) {
    || s.FlowSequenceFirstItem? || s.FlowSequenceItem?
    || s.FlowMappingFirstKey? || s.FlowMappingKey? || s.FlowMappingSimpleValue? || s.FlowMappingValue?
  }

  /** A state a node inside a collection returns to. */
  predicate IsContinuation(s: EmitterState) {
    || s.FlowSequenceItem? || s.FlowMappingKey? || s.FlowMappingSimpleValue? || s.FlowMappingValue?
    || s.BlockSequenceItem? || s.BlockMappingKey? || s.BlockMappingSimpleValue? || s.BlockMappingValue?
  }

  function Frames(s: EmitterState): seq<Frame> {
    match s
    case StreamStartState => [AtStart]
    case FirstDocumentStart => [InStream]
    case NextDocumentStart => [InStream]
    case DocumentContent => [OwesNode, OwesDocumentEnd, InStream]
    case DocumentEndState => [OwesDocumentEnd, InStream]
    case FlowSequenceFirstItem => [InSequence]
    case FlowSequenceItem => [InSequence]
    case BlockSequenceFirstItem => [InSequence]
    case BlockSequenceItem => [InSequence]
    case FlowMappingFirstKey => [AtKey]
    case FlowMappingKey => [AtKey]
    case BlockMappingFirstKey => [AtKey]
    case BlockMappingKey => [AtKey]
    case FlowMappingSimpleValue => [AtValue]
    case FlowMappingValue => [AtValue]
    case BlockMappingSimpleValue => [AtValue]
    case BlockMappingValue => [AtValue]
    case EndState => []
  }

  function FramesOf(states: seq<EmitterState>): seq<Frame> {
    if states == [] then [] else Frames(Last(states)) + FramesOf(Init(states))
  }

  function StackOf(m: M): seq<Frame> { Frames(m.state) + FramesOf(m.states) }

  /** `c` is where the node read in state `s` continues. */
  predicate Continues(s: EmitterState, c: EmitterState) {
    match s
    case DocumentContent => c.DocumentEndState?
    case FlowSequenceFirstItem => c.FlowSequenceItem?
    case FlowSequenceItem => c.FlowSequenceItem?
    case FlowMappingFirstKey => c.FlowMappingSimpleValue? || c.FlowMappingValue?
    case FlowMappingKey => c.FlowMappingSimpleValue? || c.FlowMappingValue?
    case FlowMappingSimpleValue => c.FlowMappingKey?
    case FlowMappingValue => c.FlowMappingKey?
    case BlockSequenceFirstItem => c.BlockSequenceItem?
    case BlockSequenceItem => c.BlockSequenceItem?
    case BlockMappingFirstKey => c.BlockMappingSimpleValue? || c.BlockMappingValue?
    case BlockMappingKey => c.BlockMappingSimpleValue? || c.BlockMappingValue?
    case BlockMappingSimpleValue => c.BlockMappingKey?
    case BlockMappingValue => c.BlockMappingKey?
    case _ => false
  }

  // ----- The invariant -----

  /** What a node must leave as it found it. */
  datatype Shape = Shape(indents: seq<int>, indent: int, flowLevel: nat)

  function ShapeOf(m: M): Shape { Shape(m.indents, m.indent, m.flowLevel) }

  /** From -1 at the bottom, each level is deeper than the one below. */
  predicate Ladder(indents: seq<int>, indent: int) {
    && (forall i, j :: 0 <= i < j < |indents| ==> indents[i] < indents[j])
    && (forall i :: 0 <= i < |indents| ==> indents[i] < indent)
    && (if indents == [] then indent == -1 else indents[0] == -1)
  }

  predicate Continuations(states: seq<EmitterState>) {
    && states != [] && states[0].DocumentEndState?
    && forall i :: 0 < i < |states| ==> IsContinuation(states[i])
  }

  predicate NoBlockInFlow(states: seq<EmitterState>, s: EmitterState) {
    && (forall i, j :: 0 <= i < j < |states| && IsFlow(states[i]) ==> IsFlow(states[j]))
    && (forall i :: 0 <= i < |states| && IsFlow(states[i]) ==> IsFlow(s))
  }

  function FlowCount(states: seq<EmitterState>): nat {
    if states == [] then 0 else FlowCount(Init(states)) + if IsFlow(Last(states)) then 1 else 0
  }

  predicate UsableHandles(ds: seq<(string, string)>) { forall i :: 0 <= i < |ds| ==> ds[i].0 != "" && ds[i].0[0] == '!' }

  predicate Neat(m: M) {
    && 2 <= m.settings.bestIndent <= 9 && m.sink.footIndent == -1 && UsableHandles(m.directives)
    && Ladder(m.indents, m.indent)
  }

  predicate Tidy(m: M) { Neat(m) && !m.openEnded }

  predicate Outside(m: M) { m.states == [] && m.indents == [] && m.indent == -1 && m.flowLevel == 0 }

  predicate Inside(m: M) {
    && (IsFirst(m.state) || IsContinuation(m.state))
    && Continuations(m.states) && NoBlockInFlow(m.states, m.state)
    && |m.indents| == |m.states| - 1 + (if IsFirst(m.state) then 0 else 1)
    && m.flowLevel == FlowCount(m.states) + (if IsFlow(m.state) && !IsFirst(m.state) then 1 else 0)
  }

  /** Only behind the root of a document may the text be open-ended. */
  predicate Coherent(m: M) {
    match m.state
    case StreamStartState => Outside(m) && !m.openEnded && m.directives == []
    case FirstDocumentStart => Outside(m) && Tidy(m) && m.directives == []
    case NextDocumentStart => Outside(m) && Neat(m) && m.directives == []
    case DocumentContent => Outside(m) && Tidy(m)
    case DocumentEndState => Outside(m) && Neat(m)
    case EndState => Outside(m)
    case _ => Inside(m) && Tidy(m)
  }

  /** The continuation of the node to come is on top of `states`. */
  predicate Ready(m: M) {
    && Tidy(m) && Continuations(m.states) && NoBlockInFlow(Init(m.states), Last(m.states))
    && |m.indents| == |m.states| - 1 && m.flowLevel == FlowCount(m.states)
  }

  /** The shape once the opening of the collection has been printed. */
  function Settle(m: M): Shape
    requires m.settings.bestIndent > 0
  {
    if IsFirst(m.state) then
      Shape(m.indents + [m.indent], Deeper(m, IsFlow(m.state)), m.flowLevel + if IsFlow(m.state) then 1 else 0)
    else ShapeOf(m)
  }

  // ----- Text does not touch the stacks -----

  /** `n` is `m` with more text, which may be open-ended. */
  predicate Added(m: M, n: M) {
    n == m.(sink := n.sink, openEnded := n.openEnded) && n.sink.footIndent == -1
  }

  predicate Printed(m: M, n: M) { Added(m, n) && !n.openEnded }

  lemma {:induction false} PadFoot(s: Sink, n: nat)
    ensures Pad(s, n).footIndent == s.footIndent
    decreases n - s.column
  {
    if s.column < n { PadFoot(Put(s, " "), n); }
  }

  lemma TextPrints(m: M, t: string, a: bool, b: bool, c: bool)
    requires Tidy(m)
    ensures Printed(m, Indicator(m, t, a, b, c)) && Printed(m, Indent(m))
  {
  }

  lemma {:induction false} PlainFoot(cfg: Config, v: string, ab: bool, i: nat, s: Sink, spaces: bool, breaks: bool)
    requires s.footIndent == -1
    ensures PlainText(cfg, v, ab, i, s, spaces, breaks).footIndent == -1
    decreases |v| - i
  {
    hide WriteIndent;
    IndentFoot(cfg, s);
    if i < |v| {
      if v[i] == ' ' {
        PlainFoot(cfg, v, ab, i + 1, WriteIndent(cfg, s), true, breaks);
        PlainFoot(cfg, v, ab, i + 1, Put(s, [v[i]]), true, breaks);
      } else if IsBreak(v[i]) {
        var s1 := if !breaks && v[i] == '\n' then PutBreak(cfg, s) else s;
        PlainFoot(cfg, v, ab, i + 1, WriteBreak(cfg, s1, v[i]), spaces, true);
      } else {
        var s1 := if breaks then WriteIndent(cfg, s) else s;
        PlainFoot(cfg, v, ab, i + 1, Put(s1, [v[i]]).(indention := false), false, false);
      }
    }
  }

  lemma IndentFoot(cfg: Config, s: Sink)
    ensures WriteIndent(cfg, s).footIndent == -1
  {
  }

  lemma {:induction false} SingleFoot(cfg: Config, v: string, ab: bool, i: nat, s: Sink, spaces: bool, breaks: bool)
    requires s.footIndent == -1
    ensures SingleText(cfg, v, ab, i, s, spaces, breaks).footIndent == -1
    decreases |v| - i
  {
    hide WriteIndent;
    IndentFoot(cfg, s);
    if i < |v| {
      if v[i] == ' ' {
        SingleFoot(cfg, v, ab, i + 1, WriteIndent(cfg, s), true, breaks);
        SingleFoot(cfg, v, ab, i + 1, Put(s, [v[i]]), true, breaks);
      } else if IsBreak(v[i]) {
        var s1 := if !breaks && v[i] == '\n' then PutBreak(cfg, s) else s;
        SingleFoot(cfg, v, ab, i + 1, WriteBreak(cfg, s1, v[i]), spaces, true);
      } else {
        var s1 := if breaks then WriteIndent(cfg, s) else s;
        var s2 := if v[i] == '\'' then Put(s1, "'") else s1;
        SingleFoot(cfg, v, ab, i + 1, Put(s2, [v[i]]).(indention := false), false, false);
      }
    }
  }

  lemma {:induction false} DoubleFoot(cfg: Config, v: string, ab: bool, i: nat, s: Sink, spaces: bool)
    requires s.footIndent == -1
    ensures DoubleText(cfg, v, ab, i, s, spaces).footIndent == -1
    decreases |v| - i
  {
    hide WriteIndent, MustEscape, EscapeText;
    IndentFoot(cfg, s);
    if i < |v| {
      var s1 := WriteIndent(cfg, s);
      DoubleFoot(cfg, v, ab, i + 1, Put(s, EscapeText(v[i])), false);
      DoubleFoot(cfg, v, ab, i + 1, Put(s1, "\\"), true);
      DoubleFoot(cfg, v, ab, i + 1, s1, true);
      DoubleFoot(cfg, v, ab, i + 1, Put(s, [v[i]]), true);
      DoubleFoot(cfg, v, ab, i + 1, Put(s, [v[i]]), false);
    }
  }

  lemma {:induction false} LiteralFoot(cfg: Config, v: string, i: nat, s: Sink, breaks: bool)
    requires s.footIndent == -1
    ensures LiteralText(cfg, v, i, s, breaks).footIndent == -1
    decreases |v| - i
  {
    hide WriteIndent;
    IndentFoot(cfg, s);
    if i < |v| {
      if IsBreak(v[i]) {
        LiteralFoot(cfg, v, i + 1, WriteBreak(cfg, s, v[i]), true);
      } else {
        LiteralFoot(cfg, v, i + 1, Put(if breaks then WriteIndent(cfg, s) else s, [v[i]]).(indention := false), false);
      }
    }
  }

  lemma {:induction false} FoldedFoot(cfg: Config, v: string, i: nat, s: Sink, breaks: bool, leading: bool)
    requires s.footIndent == -1
    ensures FoldedText(cfg, v, i, s, breaks, leading).footIndent == -1
    decreases |v| - i
  {
    hide WriteIndent, SkipBreaks;
    if i < |v| {
      if IsBreak(v[i]) {
        var s1 := if !breaks && !leading && v[i] == '\n' && !IsBlankz(At(v, SkipBreaks(v, 0))) then PutBreak(cfg, s) else s;
        FoldedFoot(cfg, v, i + 1, WriteBreak(cfg, s1, v[i]), true, leading);
      } else {
        var s1 := if breaks then WriteIndent(cfg, s) else s;
        IndentFoot(cfg, s);
        IndentFoot(cfg, s1);
        var leading1 := if breaks then IsBlank(v[i]) else leading;
        FoldedFoot(cfg, v, i + 1, WriteIndent(cfg, s1).(indention := false), false, leading1);
        FoldedFoot(cfg, v, i + 1, Put(s1, [v[i]]).(indention := false), false, leading1);
      }
    }
  }

  lemma ScalarPrints(m: M, v: string, style: Style, root: bool, simpleKey: bool)
    requires Tidy(m) && !style.Any? && (style.Literal? || style.Folded? ==> v != "")
    ensures Added(m, ProcessScalar(m, v, style, root, simpleKey))
    ensures ProcessScalar(m, v, style, root, simpleKey).openEnded == (root && style.Plain?)
  {
    var ab := !simpleKey;
    match style {
      case Plain => PlainFoot(Cfg(m), v, ab, 0, if v != "" && !m.sink.whitespace then Put(m.sink, " ") else m.sink, false, false);
      case SingleQuoted => SingleFoot(Cfg(m), v, ab, 0, WriteIndicator(m.sink, "'", true, false, false), false, false);
      case DoubleQuoted => DoubleFoot(Cfg(m), v, ab, 0, WriteIndicator(m.sink, "\"", true, false, false), false);
      case _ => BlockPrints(m, v, style.Folded?);
    }
  }

  lemma BlockPrints(m: M, v: string, folded: bool)
    requires Tidy(m) && v != ""
    ensures Printed(m, WriteBlock(m, v, folded))
  {
    var m0 := Indicator(m, if folded then ">" else "|", true, false, false);
    var m1 := BlockHints(m0, v);
    assert Printed(m, m0) && Printed(m0, m1);
    var s := m1.sink.(whitespace := true);
    if folded { FoldedFoot(Cfg(m1), v, 0, s, true, true); } else { LiteralFoot(Cfg(m1), v, 0, s, true); }
  }

  lemma PropertiesPrint(m: M, d: Data, d1: Data)
    requires Tidy(m)
    ensures Printed(m, ProcessAnchor(m, d)) && Printed(m, ProcessTag(ProcessAnchor(m, d), d1))
  {
  }

  // ----- Stacks -----

  lemma DeeperRises(m: M, flow: bool)
    requires 2 <= m.settings.bestIndent <= 9 && Ladder(m.indents, m.indent)
    ensures m.indent < Deeper(m, flow)
    ensures Ladder(m.indents + [m.indent], Deeper(m, flow))
  {
    var next := Deeper(m, flow);
    assert m.indent < next by {
      hide Ladder;
      LadderFloor(m.indents, m.indent);
      if m.indent >= 0 { MultipleAbove(m.indent, m.settings.bestIndent); }
    }
    LadderUp(m.indents, m.indent, next);
  }

  lemma LadderFloor(indents: seq<int>, indent: int)
    requires Ladder(indents, indent)
    ensures indent >= -1
  {
  }

  /** The next multiple of the step lies above. */
  lemma MultipleAbove(indent: int, b: int)
    requires indent >= 0 && b > 0
    ensures b * ((indent + b) / b) > indent
  {
    var n := indent + b;
    assert n == b * (n / b) + n % b && n % b < b;
  }

  lemma LadderUp(indents: seq<int>, indent: int, next: int)
    requires Ladder(indents, indent) && indent < next
    ensures Ladder(indents + [indent], next)
  {
    var up := indents + [indent];
    assert forall i :: 0 <= i < |indents| ==> up[i] == indents[i];
  }

  /** `n` is `m` once its collection is open, with more text. */
  predicate Settles(m: M, n: M)
    requires m.settings.bestIndent > 0
  {
    var s := Settle(m);
    && n == m.(sink := n.sink, openEnded := n.openEnded, indents := s.indents, indent := s.indent, flowLevel := s.flowLevel)
    && n.sink.footIndent == -1 && !n.openEnded
  }

  predicate TakesNodes(s: EmitterState) { s.DocumentContent? || IsFirst(s) || IsContinuation(s) }

  lemma StateTakesNode(m: M, c: EmitterState)
    requires Continues(m.state, c)
    ensures TakesNode(StackOf(m))
    ensures AfterNode(StackOf(m)) == (if m.state.DocumentContent? then [OwesDocumentEnd, InStream] else Frames(c)) + FramesOf(m.states)
  {
    hide FramesOf;
    if m.state.DocumentContent? {
      assert StackOf(m)[1..] == [OwesDocumentEnd, InStream] + FramesOf(m.states);
    } else {
      assert Frames(m.state)[1..] == [];
      assert StackOf(m)[1..] == FramesOf(m.states);
    }
  }

  lemma SettledTidy(m: M, n: M)
    requires Coherent(m) && TakesNodes(m.state) && Settles(m, n)
    ensures Tidy(n)
  {
    if IsFirst(m.state) { DeeperRises(m, IsFlow(m.state)); }
  }

  lemma SettledReady(m: M, n: M, c: EmitterState)
    requires Coherent(m) && TakesNodes(m.state) && Settles(m, n) && Continues(m.state, c)
    ensures Ready(PushState(n, c))
    ensures TakesNode(StackOf(m)) && AfterNode(StackOf(m)) == FramesOf(PushState(n, c).states)
  {
    hide Tidy, Deeper, Ladder, Frames, FramesOf, TakesNode, Settles, Settle, Continuations, NoBlockInFlow, FlowCount, Ready, Inside;
    SettledTidy(m, n);
    StateTakesNode(m, c);
    SettledPushed(m, n, c);
    PushedFrames(m.states, c);
    if m.state.DocumentContent? {
      assert FramesOf(m.states) == [] by { NoFrames(m.states); }
      assert [OwesDocumentEnd, InStream] + [] == [OwesDocumentEnd, InStream] == Frames(c) by { EndFrames(c); }
    }
  }

  lemma SettledPushed(m: M, n: M, c: EmitterState)
    requires Coherent(m) && TakesNodes(m.state) && Settles(m, n) && Continues(m.state, c) && Tidy(n)
    ensures Ready(PushState(n, c)) && PushState(n, c).states == m.states + [c]
  {
    hide Tidy, Neat, Deeper, Ladder, Frames, FramesOf, UsableHandles;
    var p := PushState(n, c);
    PushedTidy(n, c);
    assert Init(p.states) == m.states && Last(p.states) == c;
    if m.state.DocumentContent? {
      assert FlowCount(m.states) == 0 by { NoFrames(m.states); }
    } else {
      assert forall i :: 0 <= i < |m.states| ==> p.states[i] == m.states[i];
    }
  }

  lemma PushedTidy(n: M, c: EmitterState)
    requires Tidy(n)
    ensures Tidy(PushState(n, c))
  {
  }

  lemma PushedFrames(states: seq<EmitterState>, c: EmitterState)
    ensures FramesOf(states + [c]) == Frames(c) + FramesOf(states)
  {
    hide Frames;
    assert Init(states + [c]) == states;
  }

  lemma NoFrames(states: seq<EmitterState>)
    ensures states == [] ==> FramesOf(states) == [] && FlowCount(states) == 0
  {
  }

  lemma EndFrames(c: EmitterState)
    ensures c.DocumentEndState? ==> Frames(c) == [OwesDocumentEnd, InStream]
  {
  }

  // ----- One node -----

  /** A scalar needs a tag or one of its implicit flags. */
  predicate Usable(e: Event) { e.Scalar? ==> e.implicit || e.quotedImplicit || e.tag != "" }

  lemma {:induction false} SplitTagFinds(ds: seq<(string, string)>, tag: string)
    requires UsableHandles(ds) && tag != ""
    ensures SplitTag(ds, tag).0 != "" || SplitTag(ds, tag).1 != ""
  {
    if ds != [] && !(ds[0].1 <= tag) {
      SplitTagFinds(ds[1..], tag);
    }
  }

  /** `EmitNode` on a ready emitter: `after` is left of the stack, the shape is the same. */
  predicate NodeDone(m: M, e: Event, o: Outcome)
    requires m.states != [] && IsNodeStart(e)
  {
    && o.Done? && Coherent(o.next) && StackOf(o.next) == Open(e, FramesOf(m.states))
    && ShapeOf(o.next) == ShapeOf(m) && o.next.settings == m.settings
    && (if e.Alias? || e.Scalar? then o.next.states == Init(m.states) && o.next.state == Last(m.states)
        else o.next.states == m.states && IsFirst(o.next.state) && (m.flowLevel > 0 ==> IsFlow(o.next.state)))
  }

  lemma PopReady(m: M, n: M, e: Event)
    requires Ready(m) && (e.Alias? || e.Scalar?) && Added(m, n) && (n.openEnded ==> |m.states| == 1)
    ensures NodeDone(m, e, PopState(n))
  {
    if |m.states| == 1 {
      assert Init(m.states) == [] && FramesOf(m.states) == Frames(DocumentEndState) + FramesOf([]);
      assert FlowCount(m.states) == FlowCount([]) + 0;
    } else {
      assert IsContinuation(Last(m.states));
    }
  }

  lemma OpenReady(m: M, n: M, e: Event, s: EmitterState)
    requires Ready(m) && (e.SequenceStart? || e.MappingStart?) && Printed(m, n)
    requires IsFirst(s) && Frames(s) == (if e.SequenceStart? then [InSequence] else [AtKey])
    requires m.flowLevel > 0 ==> IsFlow(s)
    ensures NodeDone(m, e, Done(n.(state := s)))
  {
    hide FramesOf;
    FlowOnTop(m.states);
  }

  lemma FlowOnTop(states: seq<EmitterState>)
    requires Continuations(states)
    ensures IsFlow(Last(states)) ==> FlowCount(states) > 0
  {
  }

  /** Without a tag or a flag there is nothing to print for the tag, and only then. */
  lemma TagIsKnown(m: M, e: Event, d: Data)
    requires UsableHandles(m.directives) && e.Scalar? && AnalyzeEvent(m, e) == Some(d)
    ensures Usable(e) <==> !(d.handle == "" && d.suffix == "" && !e.implicit && !e.quotedImplicit)
  {
    hide AllAlpha;
    if UsesTag(m, e) { SplitTagFinds(m.directives, e.tag); }
  }

  lemma ScalarReady(m: M, e: Event, d: Data, root: bool, simpleKey: bool)
    requires Ready(m) && e.Scalar? && AnalyzeEvent(m, e) == Some(d) && (root ==> |m.states| == 1)
    ensures if Usable(e) then NodeDone(m, e, EmitScalar(m, e, d, root, simpleKey)) else EmitScalar(m, e, d, root, simpleKey).Refused?
  {
    hide NodeDone, ProcessScalar, ChosenStyle, ProcessTag, ProcessAnchor, PopState, AnalyzeEvent, Deeper, Continuations, NoBlockInFlow, FlowCount;
    TagIsKnown(m, e, d);
    if Usable(e) {
      var style := ChosenStyle(m, e, d, simpleKey);
      var d1 := if d.handle == "" && d.suffix == "" && !e.quotedImplicit && !style.Plain? then d.(handle := "!") else d;
      PropertiesPrint(m, d, d1);
      StyleIsWritable(m, e, d, simpleKey);
      var m3 := ScalarWithin(m, ProcessTag(ProcessAnchor(m, d), d1), e.value, style, root, simpleKey);
      PopReady(m, m3, e);
    }
  }

  /** After a scalar the text is open-ended exactly when it is the root and printed plain. */
  lemma ScalarOpens(m: M, e: Event, d: Data, root: bool, simpleKey: bool)
    requires Ready(m) && e.Scalar? && Usable(e) && AnalyzeEvent(m, e) == Some(d)
    ensures EmitScalar(m, e, d, root, simpleKey).Done?
    ensures EmitScalar(m, e, d, root, simpleKey).next.openEnded == (root && ChosenStyle(m, e, d, simpleKey).Plain?)
  {
    hide ProcessScalar, ChosenStyle, ProcessTag, ProcessAnchor, AnalyzeEvent, Deeper, Continuations, NoBlockInFlow, FlowCount;
    TagIsKnown(m, e, d);
    var style := ChosenStyle(m, e, d, simpleKey);
    var d1 := if d.handle == "" && d.suffix == "" && !e.quotedImplicit && !style.Plain? then d.(handle := "!") else d;
    PropertiesPrint(m, d, d1);
    StyleIsWritable(m, e, d, simpleKey);
    var m3 := ScalarWithin(m, ProcessTag(ProcessAnchor(m, d), d1), e.value, style, root, simpleKey);
  }

  /** The scalar is printed one level deeper, and the level undone. */
  lemma ScalarWithin(m: M, m0: M, v: string, style: Style, root: bool, simpleKey: bool) returns (m3: M)
    requires Tidy(m) && Printed(m, m0) && m.states != [] && !style.Any? && (style.Literal? || style.Folded? ==> v != "")
    ensures Added(m, m3) && m3.openEnded == (root && style.Plain?) && Increase(m0, true).Done?
    ensures PopIndent(ProcessScalar(Increase(m0, true).next, v, style, root, simpleKey)) == Done(m3)
  {
    hide ProcessScalar;
    DeeperRises(m0, true);
    var m1 := m0.(indents := m0.indents + [m0.indent], indent := Deeper(m0, true));
    assert Increase(m0, true) == Done(m1);
    ScalarPrints(m1, v, style, root, simpleKey);
    var m2 := ProcessScalar(m1, v, style, root, simpleKey);
    m3 := m2.(indent := Last(m2.indents), indents := Init(m2.indents));
    assert m3.indents == m.indents;
  }

  lemma StyleIsWritable(m: M, e: Event, d: Data, simpleKey: bool)
    requires e.Scalar?
    ensures var style := ChosenStyle(m, e, d, simpleKey);
      !style.Any? && (style.Literal? || style.Folded? ==> e.value != "")
  {
  }

  lemma NodeReady(m: M, e: Event, d: Data, next: Option<Event>, root: bool, simpleKey: bool)
    requires Ready(m) && AnalyzeEvent(m, e) == Some(d) && (root ==> |m.states| == 1)
    ensures if IsNodeStart(e) && Usable(e) then NodeDone(m, e, EmitNode(m, e, d, next, root, simpleKey))
      else EmitNode(m, e, d, next, root, simpleKey).Refused?
  {
    hide NodeDone, EmitScalar, ProcessTag, ProcessAnchor, PopState;
    PropertiesPrint(m, d, d);
    match e {
      case Alias(_) => PopReady(m, ProcessAnchor(m, d), e);
      case Scalar(_, _, _, _, _, _) => ScalarReady(m, e, d, root, simpleKey);
      case SequenceStart(_, _, _, collection) =>
        var flow := m.flowLevel > 0 || m.settings.canonical || collection.Flow? || IsEmptySequence(e, next);
        OpenReady(m, ProcessTag(ProcessAnchor(m, d), d), e, if flow then FlowSequenceFirstItem else BlockSequenceFirstItem);
      case MappingStart(_, _, _, collection) =>
        var flow := m.flowLevel > 0 || m.settings.canonical || collection.Flow? || IsEmptyMapping(e, next);
        OpenReady(m, ProcessTag(ProcessAnchor(m, d), d), e, if flow then FlowMappingFirstKey else BlockMappingFirstKey);
      case _ =>
    }
  }

  // ----- One event -----

  /** Every directive of the document is usable, and no handle is defined twice. */
  predicate UsableDirectives(ds: seq<(string, string)>) {
    && (forall i :: 0 <= i < |ds| ==> ValidDirective(ds[i]))
    && (forall i, j :: 0 <= i < j < |ds| ==> ds[i].0 != ds[j].0)
  }

  predicate UsableAnchor(e: Event) { AllAlpha(AnchorOf(e)) && (e.Alias? ==> e.name != "") }

  /** What the emitter asks of an event beyond its place in the stream. */
  predicate Acceptable(e: Event) {
    UsableAnchor(e) && Usable(e) && (e.DocumentStart? ==> UsableDirectives(e.directives))
  }

  predicate EndsHere(s: EmitterState, e: Event) {
    (Frames(s) == [InSequence] && e.SequenceEnd?) || (Frames(s) == [AtKey] && e.MappingEnd?)
  }

  /** How an accepted event moves the stacks inside a document: a node leaves the settled shape and
      its continuation, the end of a collection undoes what settling did. */
  predicate Moved(m: M, e: Event, n: M)
    requires m.settings.bestIndent > 0
  {
    if e.Alias? || e.Scalar? then
      ShapeOf(n) == Settle(m) && n.states == m.states && Continues(m.state, n.state)
    else if IsNodeStart(e) then
      && ShapeOf(n) == Settle(m) && IsFirst(n.state)
      && n.states != [] && Init(n.states) == m.states && Continues(m.state, Last(n.states))
    else
      var s := Settle(m);
      && m.states != [] && n.states == Init(m.states) && n.state == Last(m.states)
      && s.indents != [] && n.indents == Init(s.indents) && n.indent == Last(s.indents)
      && n.flowLevel == s.flowLevel - (if IsFlow(m.state) then 1 else 0) && !n.openEnded
  }

  /** The outcome the event grammar asks for. */
  predicate Answers(m: M, e: Event, o: Outcome) {
    match Step(StackOf(m), e)
    case None => o.Refused?
    case Some(stack) =>
      if !Acceptable(e) then o.Refused?
      else
        && o.Done? && Coherent(o.next) && StackOf(o.next) == stack
        && (TakesNodes(m.state) ==> m.settings.bestIndent > 0 && Moved(m, e, o.next) && o.next.settings == m.settings)
  }

  lemma NodeAnswers(m: M, n: M, c: EmitterState, e: Event, d: Data, next: Option<Event>, root: bool, simpleKey: bool)
    requires Coherent(m) && TakesNodes(m.state) && Settles(m, n) && Continues(m.state, c) && root == m.state.DocumentContent?
    requires AnalyzeEvent(m, e) == Some(d) && !EndsHere(m.state, e)
    ensures Answers(m, e, EmitNode(PushState(n, c), e, d, next, root, simpleKey))
  {
    hide EmitNode, Ready, Frames, FramesOf, Coherent;
    var p := PushState(n, c);
    SettledTidy(m, n);
    SettledReady(m, n, c);
    assert AnalyzeEvent(p, e) == Some(d);
    if root { RootStates(m); }
    NodeReady(p, e, d, next, root, simpleKey);
    assert Init(p.states) == m.states && Last(p.states) == c;
    if !IsNodeStart(e) {
      NotHere(m, e);
    } else {
      var o := EmitNode(p, e, d, next, root, simpleKey);
      assert Step(StackOf(m), e) == Some(Open(e, FramesOf(p.states)));
      assert UsableAnchor(e);
      if Usable(e) {
        assert o.Done? && Coherent(o.next) && StackOf(o.next) == Open(e, FramesOf(p.states));
        assert Moved(m, e, o.next);
      }
    }
  }

  lemma RootStates(m: M)
    requires Coherent(m) && m.state.DocumentContent?
    ensures m.states == []
  {
  }

  lemma NotHere(m: M, e: Event)
    requires TakesNodes(m.state) && !IsNodeStart(e) && !EndsHere(m.state, e)
    ensures Step(StackOf(m), e) == None
  {
  }

  lemma EndStep(m: M, e: Event)
    requires EndsHere(m.state, e)
    ensures Step(StackOf(m), e) == Some(FramesOf(m.states))
  {
    assert StackOf(m)[1..] == FramesOf(m.states);
  }

  /** The emitter with one collection less. */
  function Closed(n: M, flow: bool): M
    requires n.indents != [] && n.states != [] && (flow ==> n.flowLevel > 0)
  {
    n.(indent := Last(n.indents), indents := Init(n.indents), state := Last(n.states), states := Init(n.states),
       flowLevel := if flow then n.flowLevel - 1 else n.flowLevel)
  }

  lemma ClosedAnswers(m: M, n: M, e: Event, k: M)
    requires Coherent(m) && InnerState(m.state) && Settles(m, n) && EndsHere(m.state, e)
    requires n.indents != [] && n.states != [] && (IsFlow(m.state) ==> n.flowLevel > 0)
    requires Printed(Closed(n, IsFlow(m.state)), k)
    ensures Answers(m, e, Done(k))
  {
    hide Step, AllAlpha, Coherent, FramesOf, StackOf, Frames, Tidy, UsableDirectives;
    CoherentIndent(m);
    EndStep(m, e);
    SettledTidy(m, n);
    ClosedCoherent(m, n, k);
    EmptyIsAlpha();
    assert AnchorOf(e) == "" && !IsNodeStart(e);
    ClosedMoves(m, n, e, k);
  }

  predicate InnerState(s: EmitterState) { IsFirst(s) || IsContinuation(s) }

  lemma CoherentIndent(m: M)
    requires Coherent(m) && TakesNodes(m.state)
    ensures m.settings.bestIndent > 0
  {
  }

  lemma ClosedMoves(m: M, n: M, e: Event, k: M)
    requires m.settings.bestIndent > 0 && Settles(m, n) && !IsNodeStart(e)
    requires n.indents != [] && n.states != [] && (IsFlow(m.state) ==> n.flowLevel > 0)
    requires Printed(Closed(n, IsFlow(m.state)), k)
    ensures Moved(m, e, k) && k.settings == m.settings
  {
    hide Deeper;
  }

  lemma EmptyIsAlpha()
    ensures AllAlpha("")
  {
  }

  /** The top of `states`, seen as the state to come. */
  lemma TopState(states: seq<EmitterState>)
    requires Continuations(states)
    ensures FramesOf(states) == Frames(Last(states)) + FramesOf(Init(states))
    ensures FlowCount(states) == FlowCount(Init(states)) + if IsFlow(Last(states)) then 1 else 0
    ensures if |states| == 1 then Last(states).DocumentEndState? && Init(states) == [] && FlowCount(states) == 0
      else IsContinuation(Last(states)) && Continuations(Init(states))
  {
    if |states| == 1 {
      assert Init(states) == [] && FlowCount([]) == 0;
    }
  }

  lemma ClosedCoherent(m: M, n: M, k: M)
    requires Coherent(m) && (IsFirst(m.state) || IsContinuation(m.state)) && Settles(m, n) && Tidy(n)
    requires n.indents != [] && n.states != [] && (IsFlow(m.state) ==> n.flowLevel > 0)
    requires Printed(Closed(n, IsFlow(m.state)), k)
    ensures Coherent(k) && StackOf(k) == FramesOf(m.states)
  {
    hide Ladder, UsableHandles, Inside, Outside, Settles, FramesOf, Frames;
    ClosedTidy(n, IsFlow(m.state), k);
    TopState(m.states) by { InsideStates(m); }
    SettledStates(m, n);
    if |m.states| == 1 {
      ClosedOutside(m, n, k);
    } else {
      ClosedInside(m, n, k);
    }
    assert k.state == Last(m.states) && k.states == Init(m.states);
  }

  lemma InsideStates(m: M)
    requires Inside(m)
    ensures Continuations(m.states)
  {
  }

  lemma SettledStates(m: M, n: M)
    requires m.settings.bestIndent > 0 && Settles(m, n)
    ensures n.states == m.states
  {
    hide Deeper;
  }

  lemma ClosedOutside(m: M, n: M, k: M)
    requires Inside(m) && Tidy(m) && Settles(m, n) && |m.states| == 1 && Tidy(k)
    requires n.indents != [] && n.states != [] && (IsFlow(m.state) ==> n.flowLevel > 0)
    requires Printed(Closed(n, IsFlow(m.state)), k)
    ensures Outside(k)
  {
    hide Ladder, Deeper, UsableHandles, FlowCount;
    TopState(m.states);
    LadderBottom(k.indents, k.indent);
  }

  lemma ClosedInside(m: M, n: M, k: M)
    requires Inside(m) && m.settings.bestIndent > 0 && Settles(m, n) && |m.states| > 1
    requires n.indents != [] && n.states != [] && (IsFlow(m.state) ==> n.flowLevel > 0)
    requires Printed(Closed(n, IsFlow(m.state)), k)
    ensures Inside(k)
  {
    hide Deeper, FlowCount, NoBlockInFlow;
    TopState(m.states);
    NoBlockInFlowPops(m.states, m.state);
  }

  lemma ClosedTidy(n: M, flow: bool, k: M)
    requires Tidy(n) && n.indents != [] && n.states != [] && (flow ==> n.flowLevel > 0) && Printed(Closed(n, flow), k)
    ensures Tidy(k)
  {
    hide UsableHandles;
    LadderDown(n.indents, n.indent);
  }

  lemma LadderBottom(indents: seq<int>, indent: int)
    requires Ladder(indents, indent)
    ensures indents == [] ==> indent == -1
  {
  }

  lemma NoBlockInFlowPops(states: seq<EmitterState>, s: EmitterState)
    requires NoBlockInFlow(states, s) && states != []
    ensures NoBlockInFlow(Init(states), Last(states))
  {
  }

  lemma LadderDown(indents: seq<int>, indent: int)
    requires Ladder(indents, indent) && indents != []
    ensures Ladder(Init(indents), Last(indents))
  {
  }

  /** Settling always leaves something to undo. */
  lemma SettledOpen(m: M, n: M)
    requires Coherent(m) && (IsFirst(m.state) || IsContinuation(m.state)) && Settles(m, n)
    ensures n.indents != [] && n.states != [] && (IsFlow(m.state) ==> n.flowLevel > 0)
  {
  }

  lemma CloseBlockAnswers(m: M, n: M, e: Event)
    requires Coherent(m) && TakesNodes(m.state) && Settles(m, n) && EndsHere(m.state, e) && !IsFlow(m.state)
    ensures Answers(m, e, CloseBlock(n))
  {
    hide Answers, Coherent;
    SettledOpen(m, n);
    ClosedAnswers(m, n, e, Closed(n, false));
  }

  lemma CloseFlowAnswers(m: M, n: M, e: Event, bracket: string, indentWhen: bool)
    requires Coherent(m) && TakesNodes(m.state) && Settles(m, n) && EndsHere(m.state, e) && IsFlow(m.state)
    ensures Answers(m, e, CloseFlow(n, bracket, indentWhen))
  {
    hide Answers, Coherent, WriteIndent;
    SettledOpen(m, n);
    var n1 := n.(flowLevel := n.flowLevel - 1);
    var n2 := n1.(indent := Last(n1.indents), indents := Init(n1.indents));
    var n3 := Indicator(if indentWhen then Indent(n2) else n2, bracket, false, false, false);
    IndentFoot(Cfg(n2), n2.sink);
    var k := n3.(state := Last(n3.states), states := Init(n3.states));
    assert CloseFlow(n, bracket, indentWhen) == Done(k);
    ClosedAnswers(m, n, e, k);
  }

  // ----- Productions -----

  lemma OpenSettles(m: M, bracket: string)
    requires Coherent(m) && IsFirst(m.state)
    ensures IsFlow(m.state) ==> OpenFlow(m, bracket).Done? && Settles(m, OpenFlow(m, bracket).next)
    ensures !IsFlow(m.state) ==> Increase(m, false).Done? && Settles(m, Increase(m, false).next)
  {
  }

  lemma SameSettles(m: M)
    requires Coherent(m) && TakesNodes(m.state) && !IsFirst(m.state)
    ensures Settles(m, m)
  {
  }

  lemma MoreText(m: M, n: M, k: M)
    requires m.settings.bestIndent > 0 && Settles(m, n) && Printed(n, k)
    ensures Settles(m, k)
  {
  }

  lemma EntryPrints(n: M, first: bool)
    requires Tidy(n)
    ensures Printed(n, BeforeEntry(n, first)) && Printed(n, TrailingComma(n, first))
  {
    var m1 := if first then n else Indicator(n, ",", false, false, false);
    TextPrints(n, ",", false, false, false);
    var m2 := if m1.sink.column == 0 then Indent(m1) else m1;
    IndentFoot(Cfg(m1), m1.sink);
    IndentFoot(Cfg(m2), m2.sink);
    assert Printed(n, m1) && Printed(m1, m2);
  }

  lemma FlowSequenceAnswers(m: M, e: Event, d: Data, next: Option<Event>, first: bool)
    requires Coherent(m) && m.state == (if first then FlowSequenceFirstItem else FlowSequenceItem) && AnalyzeEvent(m, e) == Some(d)
    ensures Answers(m, e, EmitFlowSequence(m, e, d, next, first))
  {
    hide Answers, Coherent, OpenFlow, BeforeEntry, EmitNode, CloseFlow, TrailingComma, Settles;
    if first { OpenSettles(m, "["); } else { SameSettles(m); }
    var n := if first then OpenFlow(m, "[").next else m;
    SettledTidy(m, n);
    EntryPrints(n, first);
    if e.SequenceEnd? {
      var m1 := TrailingComma(n, first);
      MoreText(m, n, m1);
      CloseFlowAnswers(m, m1, e, "]", m1.sink.column == 0 || (m1.settings.canonical && !first));
    } else {
      MoreText(m, n, BeforeEntry(n, first));
      NodeAnswers(m, BeforeEntry(n, first), FlowSequenceItem, e, d, next, false, false);
    }
  }

  lemma FlowMappingKeyAnswers(m: M, e: Event, d: Data, next: Option<Event>, first: bool)
    requires Coherent(m) && m.state == (if first then FlowMappingFirstKey else FlowMappingKey) && AnalyzeEvent(m, e) == Some(d)
    ensures Answers(m, e, EmitFlowMappingKey(m, e, d, next, first))
  {
    hide Answers, Coherent, OpenFlow, BeforeEntry, EmitNode, CloseFlow, TrailingComma, Settles, IsSimpleKey;
    if first { OpenSettles(m, "{"); } else { SameSettles(m); }
    var n := if first then OpenFlow(m, "{").next else m;
    SettledTidy(m, n);
    EntryPrints(n, first);
    if e.MappingEnd? {
      var m1 := TrailingComma(n, first);
      MoreText(m, n, m1);
      CloseFlowAnswers(m, m1, e, "}", m1.settings.canonical && !first);
    } else {
      var m1 := BeforeEntry(n, first);
      MoreText(m, n, m1);
      SettledTidy(m, m1);
      TextPrints(m1, "?", true, false, false);
      MoreText(m, m1, Indicator(m1, "?", true, false, false));
      NodeAnswers(m, m1, FlowMappingSimpleValue, e, d, next, false, true);
      NodeAnswers(m, Indicator(m1, "?", true, false, false), FlowMappingValue, e, d, next, false, false);
    }
  }

  lemma FlowMappingValueAnswers(m: M, e: Event, d: Data, next: Option<Event>, simple: bool)
    requires Coherent(m) && m.state == (if simple then FlowMappingSimpleValue else FlowMappingValue) && AnalyzeEvent(m, e) == Some(d)
    ensures Answers(m, e, EmitFlowMappingValue(m, e, d, next, simple))
  {
    hide Answers, Coherent, EmitNode, Settles, WriteIndent, WriteIndicator;
    SameSettles(m);
    SettledTidy(m, m);
    var m0 := if m.settings.canonical || m.sink.column > m.settings.bestWidth then Indent(m) else m;
    IndentFoot(Cfg(m), m.sink);
    TextPrints(m, ":", false, false, false);
    assert Printed(m, m0);
    PrintedTidy(m, m0);
    var m1 := if simple then Indicator(m, ":", false, false, false) else Indicator(m0, ":", true, false, false);
    TextPrints(m0, ":", true, false, false);
    MoreText(m, m, m1);
    NodeAnswers(m, m1, FlowMappingKey, e, d, next, false, false);
  }

  lemma BlockSequenceAnswers(m: M, e: Event, d: Data, next: Option<Event>, first: bool)
    requires Coherent(m) && m.state == (if first then BlockSequenceFirstItem else BlockSequenceItem) && AnalyzeEvent(m, e) == Some(d)
    ensures Answers(m, e, EmitBlockSequence(m, e, d, next, first))
  {
    hide Answers, Coherent, EmitNode, CloseBlock, Settles, Increase, WriteIndent;
    if first { OpenSettles(m, ""); } else { SameSettles(m); }
    var n := if first then Increase(m, false).next else m;
    SettledTidy(m, n);
    if e.SequenceEnd? {
      CloseBlockAnswers(m, n, e);
    } else {
      IndentFoot(Cfg(n), n.sink);
      var m1 := Indicator(Indent(n), "-", true, false, true);
      assert Printed(n, m1);
      MoreText(m, n, m1);
      NodeAnswers(m, m1, BlockSequenceItem, e, d, next, false, false);
    }
  }

  lemma BlockMappingKeyAnswers(m: M, e: Event, d: Data, next: Option<Event>, first: bool)
    requires Coherent(m) && m.state == (if first then BlockMappingFirstKey else BlockMappingKey) && AnalyzeEvent(m, e) == Some(d)
    ensures Answers(m, e, EmitBlockMappingKey(m, e, d, next, first))
  {
    hide Answers, Coherent, EmitNode, CloseBlock, Settles, Increase, WriteIndent, IsSimpleKey;
    if first { OpenSettles(m, ""); } else { SameSettles(m); }
    var n := if first then Increase(m, false).next else m;
    SettledTidy(m, n);
    if e.MappingEnd? {
      CloseBlockAnswers(m, n, e);
    } else {
      IndentFoot(Cfg(n), n.sink);
      var m1 := Indent(n);
      var m2 := Indicator(m1, "?", true, false, true);
      assert Printed(n, m1) && Printed(n, m2);
      MoreText(m, n, m1);
      MoreText(m, n, m2);
      NodeAnswers(m, m1, BlockMappingSimpleValue, e, d, next, false, true);
      NodeAnswers(m, m2, BlockMappingValue, e, d, next, false, false);
    }
  }

  lemma BlockMappingValueAnswers(m: M, e: Event, d: Data, next: Option<Event>, simple: bool)
    requires Coherent(m) && m.state == (if simple then BlockMappingSimpleValue else BlockMappingValue) && AnalyzeEvent(m, e) == Some(d)
    ensures Answers(m, e, EmitBlockMappingValue(m, e, d, next, simple))
  {
    hide Answers, Coherent, EmitNode, Settles, WriteIndent;
    SameSettles(m);
    SettledTidy(m, m);
    IndentFoot(Cfg(m), m.sink);
    var m1 := if simple then Indicator(m, ":", false, false, false) else Indicator(Indent(m), ":", true, false, true);
    assert Printed(m, m1);
    MoreText(m, m, m1);
    NodeAnswers(m, m1, BlockMappingKey, e, d, next, false, false);
  }

  // ----- Documents -----

  lemma {:induction false} DirectivesUsable(ds: seq<(string, string)>, given: seq<(string, string)>)
    requires UsableHandles(ds)
    ensures AddDirectives(ds, given).Directives? <==>
      UsableDirectives(given) && forall i, j :: 0 <= i < |ds| && 0 <= j < |given| ==> ds[i].0 != given[j].0
    ensures AddDirectives(ds, given).Directives? ==> UsableHandles(AddDirectives(ds, given).all)
    decreases |given|
  {
    if given != [] && ValidDirective(given[0]) && !HasHandle(ds, given[0].0) {
      var ds1, rest := ds + [given[0]], given[1..];
      DirectivesUsable(ds1, rest);
      assert forall j :: 0 <= j < |rest| ==> rest[j] == given[j + 1];
      assert ds1[|ds|] == given[0] && forall i :: 0 <= i < |ds| ==> ds1[i] == ds[i];
      DistinctHead(ds, given);
    }
  }

  lemma DistinctHead(ds: seq<(string, string)>, given: seq<(string, string)>)
    requires given != [] && ValidDirective(given[0]) && !HasHandle(ds, given[0].0)
    ensures
      (UsableDirectives(given) && forall i, j :: 0 <= i < |ds| && 0 <= j < |given| ==> ds[i].0 != given[j].0)
      <==>
      (UsableDirectives(given[1..])
       && forall i, j :: 0 <= i < |ds| + 1 && 0 <= j < |given| - 1 ==> (ds + [given[0]])[i].0 != given[1..][j].0)
  {
    var ds1, rest := ds + [given[0]], given[1..];
    assert forall j :: 0 <= j < |rest| ==> rest[j] == given[j + 1];
    assert ds1[|ds|] == given[0] && forall i :: 0 <= i < |ds| ==> ds1[i] == ds[i];
    if UsableDirectives(rest) && forall i, j :: 0 <= i < |ds1| && 0 <= j < |rest| ==> ds1[i].0 != rest[j].0 {
      forall j | 0 <= j < |given| ensures ValidDirective(given[j]) && (0 < j ==> given[0].0 != given[j].0)
        && forall i :: 0 <= i < |ds| ==> ds[i].0 != given[j].0
      {
        if 0 < j {
          assert given[j] == rest[j - 1];
          assert ds1[|ds|].0 != rest[j - 1].0;
          assert forall i :: 0 <= i < |ds| ==> ds1[i].0 != rest[j - 1].0;
        }
      }
      forall i, j | 0 <= i < j < |given| ensures given[i].0 != given[j].0 {
        if 0 < i { assert rest[i - 1].0 != rest[j - 1].0; }
      }
    }
  }

  lemma DotsPrint(m: M)
    requires Neat(m)
    ensures Printed(m, WriteDots(m))
  {
    hide WriteIndent;
    var m1 := Indicator(m, "...", true, false, false);
    IndentFoot(Cfg(m1), m1.sink);
  }

  lemma {:induction false} DirectivesPrint(m: M, ds: seq<(string, string)>)
    requires Neat(m)
    ensures Added(m, WriteDirectives(m, ds)) && (WriteDirectives(m, ds).openEnded ==> m.openEnded)
    decreases |ds|
  {
    if ds != [] {
      DirectivePrints(m, ds[0]);
      DirectivesPrint(WriteDirective(m, ds[0]), ds[1..]);
    }
  }

  lemma DirectivePrints(m: M, d: (string, string))
    requires Neat(m)
    ensures Printed(m, WriteDirective(m, d))
  {
    hide WriteIndent;
    var m1 := Indicator(m, "%TAG", true, false, false);
    var m2 := m1.(sink := Word(Word(m1.sink, d.0, true), TagUri.TagText(d.1), true));
    IndentFoot(Cfg(m2), m2.sink);
  }

  lemma MarkerPrints(m: M)
    requires Neat(m)
    ensures Printed(m, Indent(Indicator(Indent(m), "---", true, false, false)))
    ensures Printed(m, Indent(Indicator(Indicator(m, "%YAML", true, false, false), "1.1", true, false, false)))
  {
    hide WriteIndent;
    IndentFoot(Cfg(m), m.sink);
    var m1 := Indicator(Indent(m), "---", true, false, false);
    IndentFoot(Cfg(m1), m1.sink);
    var m2 := Indicator(Indicator(m, "%YAML", true, false, false), "1.1", true, false, false);
    IndentFoot(Cfg(m2), m2.sink);
  }

  lemma PrintedTidy(m: M, n: M)
    requires Neat(m) && Added(m, n)
    ensures Neat(n) && (!n.openEnded ==> Tidy(n))
  {
  }

  predicate DocumentBegun(m: M, e: Event, o: Outcome)
    requires e.DocumentStart?
  {
    match o
    case Done(n) =>
      && UsableDirectives(e.directives) && UsableHandles(n.directives)
      && n.state == DocumentContent && Printed(m.(state := n.state, directives := n.directives), n)
    case Refused(_) => !UsableDirectives(e.directives)
    case Crash => false
  }

  lemma DocumentBegins(m: M, e: Event, first: bool)
    requires Neat(m) && m.directives == [] && e.DocumentStart? && (first ==> !m.openEnded)
    ensures DocumentBegun(m, e, EmitDocumentStart(m, e, first))
  {
    hide DocumentHeader, UsableDirectives, ValidDirective;
    DirectivesUsable([], e.directives);
    match AddDirectives(m.directives, e.directives) {
      case DirectiveError(_) =>
      case Directives(ds) =>
        var m1 := m.(directives := AddDefaults(ds));
        assert Neat(m1);
        HeaderPrints(m1, e, first);
    }
  }

  lemma HeaderPrints(m1: M, e: Event, first: bool)
    requires Neat(m1) && e.DocumentStart? && (first ==> !m1.openEnded)
    ensures Printed(m1, DocumentHeader(m1, e, first))
  {
    hide WriteDirectives, WriteIndent, WriteDots, Indicator, Indent;
    var m2 := if m1.openEnded && (e.version || e.directives != []) then WriteDots(m1) else m1;
    DotsPrint(m1);
    PrintedTidy(m1, m2);
    var m3 := if e.version then Indent(Indicator(Indicator(m2, "%YAML", true, false, false), "1.1", true, false, false)) else m2;
    MarkerPrints(m2);
    PrintedTidy(m2, m3);
    var m4 := WriteDirectives(m3, e.directives);
    DirectivesPrint(m3, e.directives);
    PrintedTidy(m3, m4);
    MarkerPrints(m4);
  }

  lemma DocumentStartAnswers(m: M, e: Event, first: bool)
    requires Coherent(m) && m.state == (if first then FirstDocumentStart else NextDocumentStart)
    ensures Answers(m, e, EmitDocumentStart(m, e, first))
  {
    if e.DocumentStart? {
      hide EmitDocumentStart, Answers, DocumentBegun, Step;
      DocumentBegins(m, e, first);
      DocumentBegunAnswers(m, e, EmitDocumentStart(m, e, first));
    } else {
      StreamEndAnswers(m, e, first);
    }
  }

  lemma StreamEndAnswers(m: M, e: Event, first: bool)
    requires Coherent(m) && m.state == (if first then FirstDocumentStart else NextDocumentStart) && !e.DocumentStart?
    ensures Answers(m, e, EmitDocumentStart(m, e, first))
  {
    hide AllAlpha, WriteDots, Neat;
    EmptyIsAlpha();
    assert FramesOf([]) == [] && StackOf(m) == [InStream] && [InStream][1..] == [];
    DotsKeep(m);
  }

  lemma DotsKeep(m: M)
    ensures WriteDots(m) == m.(sink := WriteDots(m).sink, openEnded := false)
  {
    hide WriteIndent, WriteIndicator;
  }

  lemma DocumentBegunAnswers(m: M, e: Event, o: Outcome)
    requires Coherent(m) && (m.state.FirstDocumentStart? || m.state.NextDocumentStart?) && e.DocumentStart?
    requires DocumentBegun(m, e, o)
    ensures Answers(m, e, o)
  {
    hide AllAlpha, UsableDirectives;
    EmptyIsAlpha();
    assert FramesOf([]) == [] && StackOf(m) == [InStream];
    assert [OwesNode, OwesDocumentEnd] + [InStream] == [OwesNode, OwesDocumentEnd, InStream];
  }

  lemma DocumentEndAnswers(m: M, e: Event)
    requires Coherent(m) && m.state.DocumentEndState?
    ensures Answers(m, e, EmitDocumentEnd(m, e))
  {
    hide AllAlpha, WriteIndent, WriteDots, Ladder, UsableDirectives;
    EmptyIsAlpha();
    assert FramesOf([]) == [] && StackOf(m) == [OwesDocumentEnd, InStream] && StackOf(m)[1..] == [InStream];
    if e.DocumentEnd? {
      var m0 := m.(sink := m.sink.(footIndent := -1));
      IndentFoot(Cfg(m0), m0.sink);
      assert Neat(Indent(m0));
      DotsPrint(Indent(m0));
    }
  }

  lemma StreamStartAnswers(m: M, e: Event)
    requires Coherent(m) && m.state.StreamStartState?
    ensures Answers(m, e, EmitStreamStart(m, e))
  {
    hide AllAlpha;
    EmptyIsAlpha();
    assert FramesOf([]) == [] && StackOf(m) == [AtStart] && [AtStart][1..] == [];
  }

  lemma EndAnswers(m: M, e: Event)
    requires Coherent(m) && m.state.EndState?
    ensures Answers(m, e, Refused(ExpectedNothing))
  {
    assert StackOf(m) == [];
  }

  lemma ContentAnswers(m: M, e: Event, d: Data, next: Option<Event>)
    requires Coherent(m) && m.state.DocumentContent? && AnalyzeEvent(m, e) == Some(d)
    ensures Answers(m, e, EmitNode(PushState(m, DocumentEndState), e, d, next, true, false))
  {
    hide Answers, Coherent, EmitNode;
    SameSettles(m);
    NodeAnswers(m, m, DocumentEndState, e, d, next, true, false);
  }

  lemma BadAnchorAnswers(m: M, e: Event)
    requires AnalyzeEvent(m, e) == None
    ensures Answers(m, e, Refused(BadAnchor))
  {
    hide Step, StackOf;
    assert !UsableAnchor(e);
  }

  lemma DispatchAnswers(m: M, e: Event, d: Data, next: Option<Event>)
    requires Coherent(m) && AnalyzeEvent(m, e) == Some(d)
    ensures Answers(m, e, Dispatch(m, e, d, next))
  {
    hide Answers, Coherent, AnalyzeEvent, EmitStreamStart, EmitDocumentStart, EmitNode, EmitDocumentEnd, EmitFlowSequence,
      EmitFlowMappingKey, EmitFlowMappingValue, EmitBlockSequence, EmitBlockMappingKey, EmitBlockMappingValue;
    match m.state {
      case StreamStartState => StreamStartAnswers(m, e);
      case FirstDocumentStart => DocumentStartAnswers(m, e, true);
      case NextDocumentStart => DocumentStartAnswers(m, e, false);
      case DocumentContent => ContentAnswers(m, e, d, next);
      case DocumentEndState => DocumentEndAnswers(m, e);
      case FlowSequenceFirstItem => FlowSequenceAnswers(m, e, d, next, true);
      case FlowSequenceItem => FlowSequenceAnswers(m, e, d, next, false);
      case FlowMappingFirstKey => FlowMappingKeyAnswers(m, e, d, next, true);
      case FlowMappingKey => FlowMappingKeyAnswers(m, e, d, next, false);
      case FlowMappingSimpleValue => FlowMappingValueAnswers(m, e, d, next, true);
      case FlowMappingValue => FlowMappingValueAnswers(m, e, d, next, false);
      case BlockSequenceFirstItem => BlockSequenceAnswers(m, e, d, next, true);
      case BlockSequenceItem => BlockSequenceAnswers(m, e, d, next, false);
      case BlockMappingFirstKey => BlockMappingKeyAnswers(m, e, d, next, true);
      case BlockMappingKey => BlockMappingKeyAnswers(m, e, d, next, false);
      case BlockMappingSimpleValue => BlockMappingValueAnswers(m, e, d, next, true);
      case BlockMappingValue => BlockMappingValueAnswers(m, e, d, next, false);
      case EndState => EndAnswers(m, e);
    }
  }

  /** One event. Whatever the state it is in and whatever the event, the emitter accepts it exactly
      when the event grammar does and its anchor, flags and directives are usable; it never indexes
      an empty stack, and the invariant is kept. */
  lemma EveryEventIsAnswered(m: M, e: Event, next: Option<Event>)
    requires Coherent(m)
    ensures Answers(m, e, EmitEvent(m, e, next))
  {
    hide Answers, Coherent, AnalyzeEvent, Dispatch;
    match AnalyzeEvent(m, e)
    case None => BadAnchorAnswers(m, e);
    case Some(d) => DispatchAnswers(m, e, d, next);
  }
}
