/** A plain or quoted scalar reads back in the text of the whole stream: where the state machine prints it
    the scanner's assumptions hold, and what is printed behind it ends it. */
module StreamScalars {
  import opened Chars
  import opened Options
  import opened Events
  import opened ScalarEmitter
  import opened ScalarScanner
  import opened TextReading
  import opened PlainScalars
  import opened ScalarRoundTrip
  import opened EmitterMachine
  import opened EmitterGrammar
  import opened EmitterRuns
  import opened EmittedScalars
  import opened EmittedText
  import opened WhatFollows
  import TagUri

  // ----- The column of a simple key -----

  lemma {:induction false} PlainColumn(cfg: Config, v: string, i: nat, s: Sink, spaces: bool)
    requires forall k :: i <= k < |v| ==> !IsBreak(v[k])
    ensures PlainText(cfg, v, false, i, s, spaces, false).column >= s.column
    decreases |v| - i
  {
    if i < |v| {
      if v[i] == ' ' {
        PlainColumn(cfg, v, i + 1, Put(s, [v[i]]), true);
      } else {
        PlainColumn(cfg, v, i + 1, Put(s, [v[i]]).(indention := false), false);
      }
    }
  }

  lemma {:induction false} SingleColumn(cfg: Config, v: string, i: nat, s: Sink, spaces: bool)
    requires forall k :: i <= k < |v| ==> !IsBreak(v[k])
    ensures SingleText(cfg, v, false, i, s, spaces, false).column >= s.column
    decreases |v| - i
  {
    if i < |v| {
      if v[i] == ' ' {
        SingleColumn(cfg, v, i + 1, Put(s, [v[i]]), true);
      } else {
        SingleColumn(cfg, v, i + 1, Put(if v[i] == '\'' then Put(s, "'") else s, [v[i]]).(indention := false), false);
      }
    }
  }

  lemma {:induction false} DoubleColumn(cfg: Config, v: string, i: nat, s: Sink, spaces: bool)
    ensures DoubleText(cfg, v, false, i, s, spaces).column >= s.column
    decreases |v| - i
  {
    hide MustEscape, EscapeText;
    if i < |v| {
      if MustEscape(v, i, cfg.unicode) {
        DoubleColumn(cfg, v, i + 1, Put(s, EscapeText(v[i])), false);
      } else {
        DoubleColumn(cfg, v, i + 1, Put(s, [v[i]]), v[i] == ' ');
      }
    }
  }

  lemma ScalarColumn(m: M, v: string, style: Style, root: bool)
    requires !HasBreak(v) && (style.Plain? || style.SingleQuoted? || style.DoubleQuoted?)
    ensures ProcessScalar(m, v, style, root, true).sink.column >= m.sink.column
  {
    hide PlainText, SingleText, DoubleText;
    forall k | 0 <= k < |v| ensures !IsBreak(v[k]) { assert !BreakAt(v, k); }
    var s := m.sink;
    PlainColumn(Cfg(m), v, 0, if v != "" && !s.whitespace then Put(s, " ") else s, false);
    SingleColumn(Cfg(m), v, 0, WriteIndicator(s, "'", true, false, false), false);
    DoubleColumn(Cfg(m), v, 0, WriteIndicator(s, "\"", true, false, false), false);
  }

  lemma PropertiesColumn(m: M, e: Event, d: Data, simpleKey: bool)
    ensures Properties(m, e, d, simpleKey).sink.column >= m.sink.column
  {
    hide ChosenStyle, TagUri.TagText, ProcessAnchor, ProcessTag;
    AnchorColumn(m, d);
    TagColumn(ProcessAnchor(m, d), if e.Scalar? then TagData(m, e, d, simpleKey) else d);
  }

  lemma AnchorColumn(m: M, d: Data)
    ensures ProcessAnchor(m, d).sink.column >= m.sink.column
  {
  }

  lemma TagColumn(m: M, d: Data)
    ensures ProcessTag(m, d).sink.column >= m.sink.column
  {
    hide TagUri.TagText;
  }

  lemma SimpleStyle(m: M, e: Event, d: Data)
    requires e.Scalar?
    ensures var style := ChosenStyle(m, e, d, true); style.Plain? || style.SingleQuoted? || style.DoubleQuoted?
  {
  }

  /** A simple key is printed on one line. */
  lemma NodeColumn(i: M, m: M, e: Event, d: Data, next: Option<Event>)
    requires IsSimpleKey(i, e, d, next) && EmitNode(m, e, d, next, false, true).Done?
    ensures EmitNode(m, e, d, next, false, true).next.sink.column >= m.sink.column
  {
    hide EmitNode, Properties, ProcessScalar, ChosenStyle;
    PropertiesColumn(m, e, d, true);
    var m1 := NodeText(m, e, d, next, false, true);
    if e.Scalar? {
      SimpleStyle(m, e, d);
      ScalarColumn(m1, e.value, ChosenStyle(m, e, d, true), false);
    }
  }

  /** A value waits for a simple key only while that is printed, and then the column is not left of the
      indentation. */
  ghost predicate KeysFit(m: M, evs: seq<Event>, p: nat) {
    && (m.state.BlockMappingSimpleValue? ==> m.sink.column >= m.indent)
    && (forall i :: 0 <= i < |m.states| - 1 ==> !m.states[i].BlockMappingSimpleValue?)
    && (m.states != [] && Last(m.states).BlockMappingSimpleValue? ==>
          && m.sink.column >= m.indent && p < |evs|
          && ((m.state.FlowSequenceFirstItem? && evs[p] == SequenceEnd) || (m.state.FlowMappingFirstKey? && evs[p] == MappingEnd)))
  }

  lemma KeysAreUpright(m: M, evs: seq<Event>, p: nat)
    requires KeysFit(m, evs, p)
    ensures Upright(m)
  {
  }

  /** A simple key at the start of its line. */
  lemma KeyPrinted(m: M, e: Event, d: Data, next: Option<Event>)
    requires BlockMappingEntry(m, e, d, next).Done? && IsSimpleKey(Indent(m), e, d, next)
    ensures var n := BlockMappingEntry(m, e, d, next).next; n.sink.column >= m.indent && (!e.Scalar? && !e.Alias? ==> IsEmptyKey(n, next))
  {
    hide EmitNode, WriteIndent, IsSimpleKey;
    var p := PushState(Indent(m), BlockMappingSimpleValue);
    IndentColumn(m);
    NotAnEnding(Indent(m), e, d, next);
    NodeColumn(Indent(m), p, e, d, next);
    if !e.Scalar? && !e.Alias? { EmptyKey(Indent(m), p, e, d, next); }
  }

  predicate IsEmptyKey(n: M, next: Option<Event>) {
    (n.state.FlowSequenceFirstItem? && next == Some(SequenceEnd)) || (n.state.FlowMappingFirstKey? && next == Some(MappingEnd))
  }

  lemma NotAnEnding(m: M, e: Event, d: Data, next: Option<Event>)
    requires IsSimpleKey(m, e, d, next)
    ensures !e.MappingEnd?
  {
  }

  lemma EmptyKey(i: M, p: M, e: Event, d: Data, next: Option<Event>)
    requires IsSimpleKey(i, e, d, next) && EmitNode(p, e, d, next, false, true).Done? && !e.Scalar? && !e.Alias?
    ensures IsEmptyKey(EmitNode(p, e, d, next, false, true).next, next)
  {
    hide ProcessAnchor, ProcessTag;
  }

  lemma IndentColumn(m: M)
    ensures Indent(m).sink.column >= m.indent
  {
    var n, s := IndentOf(Cfg(m)), m.sink;
    var s1 := if !s.indention || s.column > n || (s.column == n && !s.whitespace) then PutBreak(Cfg(m), s) else s;
    var s2 := if s1.footIndent == n then PutBreak(Cfg(m), s1) else s1;
    PadColumn(s2, n);
  }

  lemma {:induction false} PadColumn(s: Sink, n: nat)
    ensures Pad(s, n).column >= n
    decreases n - s.column
  {
    if s.column < n { PadColumn(Put(s, " "), n); }
  }

  /** What `Moved` says of the stack, as far as simple keys go. */
  lemma KeysStay(m: M, evs: seq<Event>, p: nat)
    requires Coherent(m) && KeysFit(m, evs, p) && p < |evs| && EmitEvent(m, evs[p], Look(evs, p)).Done?
    ensures var n := EmitEvent(m, evs[p], Look(evs, p)).next; Coherent(n) && KeysFit(n, evs, p + 1)
  {
    hide EmitEvent, Coherent, AnalyzeEvent, Upright, Deeper, Settle;
    var e, next := evs[p], Look(evs, p);
    var n := EmitEvent(m, e, next).next;
    KeysAreUpright(m, evs, p);
    Accepted(m, e, next);
    if !TakesNodes(m.state) {
      OutsideStates(m, e, next);
      NotInside(m, e, next);
    } else if m.states != [] && Last(m.states).BlockMappingSimpleValue? {
      EmptyKeyEnds(m, e, next);
    } else if n.state.BlockMappingSimpleValue? || (n.states != [] && Last(n.states).BlockMappingSimpleValue?) {
      KeyBegins(m, e, next);
    }
  }

  lemma NotInside(m: M, e: Event, next: Option<Event>)
    requires !TakesNodes(m.state) && EmitEvent(m, e, next).Done?
    ensures !EmitEvent(m, e, next).next.state.BlockMappingSimpleValue?
  {
    hide AnalyzeEvent, DocumentHeader, WriteDots, WriteIndent, AddDirectives;
  }

  /** `[]` or `{}`. */
  lemma EmptyKeyEnds(m: M, e: Event, next: Option<Event>)
    requires EmitEvent(m, e, next).Done? && m.sink.column >= m.indent && m.states != []
    requires (m.state.FlowSequenceFirstItem? && e.SequenceEnd?) || (m.state.FlowMappingFirstKey? && e.MappingEnd?)
    ensures var n := EmitEvent(m, e, next).next; n.sink.column >= n.indent && n.states == Init(m.states)
  {
    hide AnalyzeEvent, Deeper;
  }

  lemma KeyBegins(m: M, e: Event, next: Option<Event>)
    requires Coherent(m) && TakesNodes(m.state) && EmitEvent(m, e, next).Done? && m.settings.bestIndent > 0
    requires var n := EmitEvent(m, e, next).next;
      && Moved(m, e, n) && (forall i :: 0 <= i < |m.states| ==> !m.states[i].BlockMappingSimpleValue?)
      && (n.state.BlockMappingSimpleValue? || (n.states != [] && Last(n.states).BlockMappingSimpleValue?))
    ensures var n := EmitEvent(m, e, next).next;
      && n.sink.column >= n.indent
      && (e.SequenceStart? || e.MappingStart? ==> IsEmptyKey(n, next)) && IsNodeStart(e)
  {
    hide Coherent, AnalyzeEvent, BlockMappingEntry, EmitFlowSequence, EmitFlowMappingKey, EmitBlockSequence, EmitFlowMappingValue,
      EmitBlockMappingValue, EmitDocumentStart, EmitDocumentEnd, EmitNode, Deeper;
    var d := AnalyzeEvent(m, e).value;
    var o, n := if m.state.BlockMappingFirstKey? then Increase(m, false).next else m, EmitEvent(m, e, next).next;
    if m.states != [] { NoneBelow(m.states); }
    assert m.state.BlockMappingFirstKey? || m.state.BlockMappingKey?;
    assert IsNodeStart(e);
    SimpleOnly(o, e, d, next);
    KeyPrinted(o, e, d, next);
  }

  lemma NoneBelow(states: seq<EmitterState>)
    requires states != [] && forall i :: 0 <= i < |states| ==> !states[i].BlockMappingSimpleValue?
    ensures forall i :: 0 <= i < |Init(states)| ==> !Init(states)[i].BlockMappingSimpleValue?
    ensures !Last(states).BlockMappingSimpleValue? && (Init(states) != [] ==> !Last(Init(states)).BlockMappingSimpleValue?)
  {
  }

  lemma SimpleOnly(m: M, e: Event, d: Data, next: Option<Event>)
    requires BlockMappingEntry(m, e, d, next).Done? && !e.MappingEnd?
    requires var n := BlockMappingEntry(m, e, d, next).next;
      n.state.BlockMappingSimpleValue? || (n.states != [] && Last(n.states).BlockMappingSimpleValue? && (e.SequenceStart? || e.MappingStart?))
    ensures IsSimpleKey(Indent(m), e, d, next)
  {
    hide EmitNode, WriteIndent, IsSimpleKey;
    if !IsSimpleKey(Indent(m), e, d, next) {
      var p := PushState(Indicator(Indent(m), "?", true, false, true), BlockMappingValue);
      NodeState(p, e, d, next, false, false);
      NodeStack(p, e, d, next, false, false);
    }
  }

  lemma NodeStack(m: M, e: Event, d: Data, next: Option<Event>, root: bool, simpleKey: bool)
    requires EmitNode(m, e, d, next, root, simpleKey).Done? && (e.SequenceStart? || e.MappingStart?)
    ensures EmitNode(m, e, d, next, root, simpleKey).next.states == m.states
  {
    hide WriteIndicator, Word, TagUri.TagText;
  }

  // ----- Where a scalar is printed -----

  /** The emitter just before it prints a node, and in what capacity. */
  datatype Place = Place(m: M, root: bool, simple: bool)

  /** The emitter once the bracket or the indentation of a collection is there. */
  function Opened(m: M): M {
    if m.state.FlowSequenceFirstItem? then (match OpenFlow(m, "[") case Done(n) => n case _ => m)
    else if m.state.FlowMappingFirstKey? then (match OpenFlow(m, "{") case Done(n) => n case _ => m)
    else if IsFirst(m.state) then (match Increase(m, false) case Done(n) => n case _ => m)
    else m
  }

  ghost function PlaceOf(m: M, e: Event, d: Data, next: Option<Event>): Place {
    var n := Opened(m);
    if m.state.DocumentContent? then Place(PushState(m, DocumentEndState), true, false)
    else if m.state.FlowSequenceFirstItem? || m.state.FlowSequenceItem? then
      Place(PushState(BeforeEntry(n, IsFirst(m.state)), FlowSequenceItem), false, false)
    else if m.state.FlowMappingFirstKey? || m.state.FlowMappingKey? then
      var m1 := BeforeEntry(n, IsFirst(m.state));
      if !m1.settings.canonical && IsSimpleKey(m1, e, d, next) then Place(PushState(m1, FlowMappingSimpleValue), false, true)
      else Place(PushState(Indicator(m1, "?", true, false, false), FlowMappingValue), false, false)
    else if m.state.FlowMappingSimpleValue? then Place(PushState(Indicator(m, ":", false, false, false), FlowMappingKey), false, false)
    else if m.state.FlowMappingValue? then
      var i := if m.settings.canonical || m.sink.column > m.settings.bestWidth then Indent(m) else m;
      Place(PushState(Indicator(i, ":", true, false, false), FlowMappingKey), false, false)
    else if m.state.BlockSequenceFirstItem? || m.state.BlockSequenceItem? then
      Place(PushState(Indicator(Indent(n), "-", true, false, true), BlockSequenceItem), false, false)
    else if m.state.BlockMappingFirstKey? || m.state.BlockMappingKey? then
      if IsSimpleKey(Indent(n), e, d, next) then Place(PushState(Indent(n), BlockMappingSimpleValue), false, true)
      else Place(PushState(Indicator(Indent(n), "?", true, false, true), BlockMappingValue), false, false)
    else if m.state.BlockMappingSimpleValue? then Place(PushState(Indicator(m, ":", false, false, false), BlockMappingKey), false, false)
    else Place(PushState(Indicator(Indent(m), ":", true, false, true), BlockMappingKey), false, false)
  }

  /** The event is emitted as a node at that place. */
  lemma PlacedNode(m: M, e: Event, d: Data, next: Option<Event>)
    requires TakesNodes(m.state) && AnalyzeEvent(m, e) == Some(d) && IsNodeStart(e) && EmitEvent(m, e, next).Done?
    ensures var pl := PlaceOf(m, e, d, next); EmitEvent(m, e, next) == EmitNode(pl.m, e, d, next, pl.root, pl.simple)
  {
    hide AnalyzeEvent, EmitNode, BeforeEntry, Indent, Indicator, IsSimpleKey, OpenFlow, Increase;
  }

  /** `n` is the emitter with its collection open, and its text does not begin left of the indentation. */
  lemma PlaceReady(m: M, pl: Place, n: M, c: EmitterState)
    requires Coherent(m) && TakesNodes(m.state) && Settles(m, n) && Continues(m.state, c) && pl.m == PushState(n, c)
    ensures Ready(pl.m) && pl.m.settings == m.settings && pl.m.directives == m.directives && Last(pl.m.states) == c
    ensures pl.m.flowLevel == Settle(m).flowLevel && pl.m.indent == Settle(m).indent && |pl.m.states| == |m.states| + 1
  {
    hide Coherent, Ready, Continues;
    SettledReady(m, n, c);
  }

  /** What is known of the place: the emitter is ready, and in the block context the column is not left of
      the indentation. */
  ghost predicate GoodPlace(m: M, pl: Place) {
    && Ready(pl.m) && pl.m.settings == m.settings && pl.m.directives == m.directives && |pl.m.states| == |m.states| + 1
    && (pl.m.flowLevel == 0 ==> pl.m.sink.column >= pl.m.indent)
    && pl.root == m.state.DocumentContent? && (pl.simple && pl.m.flowLevel == 0 ==> Last(pl.m.states).BlockMappingSimpleValue?)
  }

  lemma FlowPlace(m: M, e: Event, d: Data, next: Option<Event>)
    requires Coherent(m) && IsFlow(m.state)
    ensures GoodPlace(m, PlaceOf(m, e, d, next))
  {
    hide Coherent, BeforeEntry, IsSimpleKey, Settles, Ready, OpenFlow, WriteIndent, WriteIndicator;
    var n, pl := Opened(m), PlaceOf(m, e, d, next);
    if IsFirst(m.state) { OpenSettles(m, if m.state.FlowSequenceFirstItem? then "[" else "{"); } else { SameSettles(m); }
    SettledTidy(m, n);
    EntryPrints(n, IsFirst(m.state));
    FlowInside(m);
    if m.state.FlowSequenceFirstItem? || m.state.FlowSequenceItem? {
      MoreText(m, n, BeforeEntry(n, IsFirst(m.state)));
      PlaceReady(m, pl, BeforeEntry(n, IsFirst(m.state)), FlowSequenceItem);
    } else if m.state.FlowMappingFirstKey? || m.state.FlowMappingKey? {
      var m1 := BeforeEntry(n, IsFirst(m.state));
      MoreText(m, n, m1);
      SettledTidy(m, m1);
      if !m1.settings.canonical && IsSimpleKey(m1, e, d, next) {
        PlaceReady(m, pl, m1, FlowMappingSimpleValue);
      } else {
        TextPrints(m1, "?", true, false, false);
        MoreText(m, m1, Indicator(m1, "?", true, false, false));
        PlaceReady(m, pl, Indicator(m1, "?", true, false, false), FlowMappingValue);
      }
    } else {
      FlowValuePlace(m, e, d, next);
    }
  }

  lemma FlowInside(m: M)
    requires Coherent(m) && IsFlow(m.state)
    ensures Settle(m).flowLevel > 0
  {
  }

  lemma FlowValuePlace(m: M, e: Event, d: Data, next: Option<Event>)
    requires Coherent(m) && (m.state.FlowMappingSimpleValue? || m.state.FlowMappingValue?)
    ensures GoodPlace(m, PlaceOf(m, e, d, next))
  {
    hide Coherent, Settles, Ready, WriteIndent, WriteIndicator;
    var pl := PlaceOf(m, e, d, next);
    SameSettles(m);
    SettledTidy(m, m);
    FlowInside(m);
    var i := if m.state.FlowMappingValue? && (m.settings.canonical || m.sink.column > m.settings.bestWidth) then Indent(m) else m;
    IndentFoot(Cfg(m), m.sink);
    TextPrints(m, ":", false, false, false);
    assert Printed(m, i);
    PrintedTidy(m, i);
    TextPrints(i, ":", true, false, false);
    var c := if m.state.FlowMappingSimpleValue? then Indicator(m, ":", false, false, false) else Indicator(i, ":", true, false, false);
    MoreText(m, m, c);
    PlaceReady(m, pl, c, FlowMappingKey);
  }

  lemma BlockPlace(m: M, e: Event, d: Data, next: Option<Event>)
    requires Coherent(m) && (IsFirst(m.state) || IsContinuation(m.state)) && !IsFlow(m.state)
    requires m.state.BlockMappingSimpleValue? ==> m.sink.column >= m.indent
    ensures GoodPlace(m, PlaceOf(m, e, d, next))
  {
    hide Coherent, IsSimpleKey, Settles, Ready, Increase, WriteIndent;
    var n, pl := Opened(m), PlaceOf(m, e, d, next);
    if IsFirst(m.state) { OpenSettles(m, ""); } else { SameSettles(m); }
    SettledTidy(m, n);
    IndentFoot(Cfg(n), n.sink);
    IndentColumn(n);
    var i := Indent(n);
    assert Printed(n, i);
    MoreText(m, n, i);
    match m.state {
      case BlockMappingSimpleValue =>
        var c := Indicator(m, ":", false, false, false);
        assert Printed(m, c);
        MoreText(m, m, c);
        PlaceReady(m, pl, c, BlockMappingKey);
      case BlockMappingValue =>
        var c := Indicator(i, ":", true, false, true);
        assert Printed(n, c);
        MoreText(m, n, c);
        PlaceReady(m, pl, c, BlockMappingKey);
      case _ => EntryPlace(m, n, i, pl, e, d, next);
    }
  }

  lemma EntryPlace(m: M, n: M, i: M, pl: Place, e: Event, d: Data, next: Option<Event>)
    requires Coherent(m) && m.settings.bestIndent > 0 && Settles(m, n) && i == Indent(n) && Printed(n, i) && Settles(m, i) && Tidy(n)
    requires m.state.BlockSequenceFirstItem? || m.state.BlockSequenceItem? || m.state.BlockMappingFirstKey? || m.state.BlockMappingKey?
    requires n == Opened(m) && pl == PlaceOf(m, e, d, next) && i.sink.column >= i.indent
    ensures GoodPlace(m, pl)
  {
    hide Coherent, IsSimpleKey, Settles, Ready, Opened, WriteIndent, Tidy;
    if m.state.BlockSequenceFirstItem? || m.state.BlockSequenceItem? {
      var c := Indicator(i, "-", true, false, true);
      assert Printed(n, c);
      MoreText(m, n, c);
      PlaceReady(m, pl, c, BlockSequenceItem);
    } else if IsSimpleKey(i, e, d, next) {
      PlaceReady(m, pl, i, BlockMappingSimpleValue);
    } else {
      var c := Indicator(i, "?", true, false, true);
      assert Printed(n, c);
      MoreText(m, n, c);
      PlaceReady(m, pl, c, BlockMappingValue);
    }
  }

  lemma RootPlace(m: M, e: Event, d: Data, next: Option<Event>)
    requires Coherent(m) && m.state.DocumentContent?
    ensures GoodPlace(m, PlaceOf(m, e, d, next))
  {
    hide Coherent, Settles, Ready;
    SameSettles(m);
    RootIndent(m);
    PlaceReady(m, PlaceOf(m, e, d, next), m, DocumentEndState);
  }

  lemma RootIndent(m: M)
    requires Coherent(m) && m.state.DocumentContent?
    ensures m.indent == -1 && m.states == []
  {
  }

  lemma PlaceIsGood(m: M, e: Event, d: Data, next: Option<Event>)
    requires Coherent(m) && TakesNodes(m.state) && (m.state.BlockMappingSimpleValue? ==> m.sink.column >= m.indent)
    ensures GoodPlace(m, PlaceOf(m, e, d, next)) && (m.state.DocumentContent? ==> m.states == [])
  {
    hide Coherent, PlaceOf, GoodPlace;
    if m.state.DocumentContent? {
      RootPlace(m, e, d, next);
      RootIndent(m);
    } else if IsFlow(m.state) {
      FlowPlace(m, e, d, next);
    } else {
      BlockPlace(m, e, d, next);
    }
  }

  // ----- Scalars read back in the text of the stream -----

  /** The scanner is where the emitter was: the same flow level, and in the block context the indentation of
      the block around the scalar; before a simple key it may still be that of a block further out. */
  predicate InStep(w: Where, pl: Place) {
    && w.flowLevel == pl.m.flowLevel
    && (w.flowLevel == 0 ==> if pl.simple then w.minColumn <= pl.m.indent + 1 else w.minColumn == pl.m.indent + 1)
  }

  lemma {:induction false} PlainEndColumn(cfg: Config, v: string, ab: bool, i: nat, s: Sink, spaces: bool)
    requires i < |v| && v[|v| - 1] != ' ' && forall k :: i <= k < |v| ==> !IsBreak(v[k])
    ensures PlainText(cfg, v, ab, i, s, spaces, false).column > 0
    decreases |v| - i
  {
    hide WriteIndent;
    if v[i] == ' ' {
      PlainEndColumn(cfg, v, ab, i + 1, WriteIndent(cfg, s), true);
      PlainEndColumn(cfg, v, ab, i + 1, Put(s, [v[i]]), true);
    } else if i + 1 < |v| {
      PlainEndColumn(cfg, v, ab, i + 1, Put(s, [v[i]]).(indention := false), false);
    }
  }

  lemma ScalarEndColumn(cfg: Config, s: Sink, v: string, style: Style, ab: bool)
    requires Quotes(style, v) && (style.Plain? ==> SingleTrimmedLine(v))
    ensures var f := WriteScalar(cfg, s, v, style, ab); f.column > 0 && !f.whitespace && !f.indention
  {
    hide PlainText, SingleText, DoubleText;
    if style.Plain? {
      forall k | 0 <= k < |v| ensures !IsBreak(v[k]) { assert !BreakAt(v, k); }
      PlainEndColumn(cfg, v, ab, 0, if !s.whitespace then Put(s, " ") else s, false);
    }
  }

  lemma PlainTrimmed(m: M, e: Event, d: Data, simpleKey: bool)
    requires e.Scalar?
    ensures ChosenStyle(m, e, d, simpleKey).Plain? && e.value != "" ==> SingleTrimmedLine(e.value)
  {
  }

  /** Behind the scalar. */
  lemma BehindScalar(m: M, pl: Place, e: Event, d: Data, w: Where)
    requires Coherent(m) && TakesNodes(m.state) && GoodPlace(m, pl) && (m.state.DocumentContent? <==> m.states == [])
    requires e.Scalar? && Usable(e) && AnalyzeEvent(pl.m, e) == Some(d) && InStep(w, pl)
    requires Quotes(ChosenStyle(pl.m, e, d, pl.simple), e.value)
    ensures EmitScalar(pl.m, e, d, pl.root, pl.simple).Done?
    ensures var n := EmitScalar(pl.m, e, d, pl.root, pl.simple).next;
      Fresh(n, |n.sink.out|, n.sink.column, w, ChosenStyle(pl.m, e, d, pl.simple).Plain?)
  {
    hide Coherent, EmitScalar, ChosenStyle, WriteScalar, BeforeText, AnalyzeEvent, Usable;
    var style, b := ChosenStyle(pl.m, e, d, pl.simple), BeforeText(pl.m, e, d, pl.simple);
    ScalarText(pl.m, e, d, pl.root, pl.simple);
    ScalarReady(pl.m, e, d, pl.root, pl.simple);
    ScalarOpens(pl.m, e, d, pl.root, pl.simple);
    PlainTrimmed(pl.m, e, d, pl.simple);
    ScalarEndColumn(Cfg(b), b.sink, e.value, style, !pl.simple);
    ReadyIndent(pl.m);
  }

  lemma ReadyIndent(m: M)
    requires Ready(m)
    ensures m.indent >= -1 && (m.indent == -1 <==> |m.states| == 1)
    ensures IsContinuation(Last(m.states)) || Last(m.states).DocumentEndState?
  {
  }

  /** So much has been printed that nothing can go wrong any more. */
  lemma FollowsMay(n: M, f: Sink, w: Where, style: Style)
    requires f.out <= n.sink.out && Follows(n, |f.out|, f.column, w, style.Plain?)
    ensures MayFollow(style, n.sink.out[|f.out|..], n.sink.out, f, w)
  {
    hide PlainEnds, Awaits, Ended;
    var t, q := n.sink.out, |f.out|;
    assert At(t[q..], 0) == At(t, q);
    if Fresh(n, q, f.column, w, style.Plain?) {
      AtTheEnd(t, f.column, w);
    } else if Ended(t, q, f.column, w, style.Plain?) {
      EndedMay(t, q, f.column, w, style.Plain?);
    } else if Awaits(t, q, f.column, w, Blank) {
      NothingMore(t, q, f.column, w, Blank);
    } else if Awaits(t, q, f.column, w, Ink) {
      NothingMore(t, q, f.column, w, Ink);
    } else {
      NothingMore(t, q, f.column, w, Marker);
    }
  }

  lemma AtTheEnd(t: string, col: nat, w: Where)
    ensures PlainEnds(t, |t|, col, w)
  {
  }

  lemma EndedMay(t: string, q: nat, col: nat, w: Where, plain: bool)
    requires Ended(t, q, col, w, plain)
    ensures At(t, q) != '\'' && (plain ==> PlainEnds(t, q, col, w))
  {
    assert t + "" == t;
  }

  lemma {:induction false} PrefixKeys(m: M, evs: seq<Event>, p: nat, k: nat)
    requires Coherent(m) && KeysFit(m, evs, p) && p <= k <= |evs| && EmitRange(m, evs, p, k).Done?
    ensures var n := EmitRange(m, evs, p, k).next; Coherent(n) && KeysFit(n, evs, k)
    decreases k - p
  {
    hide EmitEvent, Coherent, KeysFit;
    if p < k {
      KeysStay(m, evs, p);
      PrefixKeys(EmitEvent(m, evs[p], Look(evs, p)).next, evs, p + 1, k);
    }
  }

  lemma TextColumn(pl: Place, e: Event, d: Data)
    requires Ready(pl.m) && e.Scalar? && pl.m.sink.column >= pl.m.indent
    ensures var b := BeforeText(pl.m, e, d, pl.simple); Start(b.sink).column >= pl.m.indent && b.indent > pl.m.indent
  {
    hide ChosenStyle, ProcessTag, ProcessAnchor, Deeper;
    ReadyTidy(pl.m);
    PropertiesColumn(pl.m, e, d, pl.simple);
    PropertiesPrint(pl.m, d, TagData(pl.m, e, d, pl.simple));
    DeeperRises(ProcessTag(ProcessAnchor(pl.m, d), TagData(pl.m, e, d, pl.simple)), true);
  }

  /** The scalar at `evs[i]`: the place it is printed at, and what of the text of the run stands there. */
  lemma ScalarReadsBack(m: M, evs: seq<Event>, i: nat, k: nat, d: Data, w: Where)
    requires Coherent(m) && KeysFit(m, evs, i) && i < k <= |evs| && evs[i].Scalar? && EmitRange(m, evs, i, k).Done?
    requires AnalyzeEvent(m, evs[i]) == Some(d)
    ensures TakesNodes(m.state) && Ready(PlaceOf(m, evs[i], d, Look(evs, i)).m)
    ensures var e, pl, t := evs[i], PlaceOf(m, evs[i], d, Look(evs, i)), EmitRange(m, evs, i, k).next.sink.out;
      var b := BeforeText(pl.m, e, d, pl.simple);
      Quotes(ChosenStyle(pl.m, e, d, pl.simple), e.value) && InStep(w, pl) ==>
        && |Start(b.sink).out| < |t|
        && Reads(ScanToken(t, |Start(b.sink).out|, Start(b.sink).column, w), e.value)
  {
    hide EmitEvent, Coherent, AnalyzeEvent, PlaceOf, ChosenStyle, BeforeText, EmitScalar, Ready, Follows, Fresh, MayFollow, ScanToken, KeysFit, Usable,
      Acceptable, StackOf, Step, Moved;
    var e, next := evs[i], Look(evs, i);
    StepCases(m, e, next);
    ScalarTaken(m, e);
    KeyColumn(m, evs, i);
    UsableScalar(e);
    var pl := PlaceOf(m, e, d, next);
    PlaceIsGood(m, e, d, next);
    AnalysedAlike(m, pl.m, e);
    PlacedNode(m, e, d, next);
    ScalarNode(m, pl, e, d, next);
    var style, b := ChosenStyle(pl.m, e, d, pl.simple), BeforeText(pl.m, e, d, pl.simple);
    if Quotes(style, e.value) && InStep(w, pl) {
      var n := EmitEvent(m, e, next).next;
      KeysAreUpright(m, evs, i);
      UprightKept(m, e, next);
      BehindScalar(m, pl, e, d, w);
      assert Follows(n, |n.sink.out|, n.sink.column, w, style.Plain?) by { FreshFollows(n, w, style.Plain?); }
      RangeFollows(n, evs, i + 1, k, |n.sink.out|, n.sink.column, w, style.Plain?);
      var t := EmitRange(n, evs, i + 1, k).next.sink.out;
      FollowsMay(EmitRange(n, evs, i + 1, k).next, n.sink, w, style);
      if w.flowLevel == 0 { TextColumn(pl, e, d); }
      assert t == n.sink.out + t[|n.sink.out|..];
      EmittedScalarReadsBack(pl.m, e, d, pl.root, pl.simple, t[|n.sink.out|..], w);
    }
  }

  lemma FreshFollows(n: M, w: Where, plain: bool)
    requires Fresh(n, |n.sink.out|, n.sink.column, w, plain)
    ensures Follows(n, |n.sink.out|, n.sink.column, w, plain)
  {
  }

  lemma ScalarTaken(m: M, e: Event)
    requires Coherent(m) && e.Scalar? && Step(StackOf(m), e).Some?
    ensures TakesNodes(m.state) && IsNodeStart(e)
    ensures m.state.DocumentContent? <==> m.states == []
  {
    hide Tidy, Neat;
    assert StackOf(m) == Frames(m.state) + FramesOf(m.states);
    assert m.states == [] ==> FramesOf(m.states) == [];
  }

  lemma KeyColumn(m: M, evs: seq<Event>, i: nat)
    requires KeysFit(m, evs, i)
    ensures m.state.BlockMappingSimpleValue? ==> m.sink.column >= m.indent
  {
  }

  lemma UsableScalar(e: Event)
    requires Acceptable(e)
    ensures Usable(e)
  {
  }

  lemma ScalarNode(m: M, pl: Place, e: Event, d: Data, next: Option<Event>)
    requires GoodPlace(m, pl) && e.Scalar? && (pl.root ==> m.states == [])
    ensures EmitNode(pl.m, e, d, next, pl.root, pl.simple) == EmitScalar(pl.m, e, d, pl.root, pl.simple)
    ensures Ready(pl.m) && (pl.root ==> |pl.m.states| == 1) && pl.m.settings == m.settings && pl.m.directives == m.directives
    ensures pl.m.flowLevel == 0 ==> pl.m.sink.column >= pl.m.indent
  {
  }

  /** Every plain or quoted scalar of a stream reads back in the text of the stream, however much of it has been
      printed, when the scanner gets there with the emitter's flow level and indentation. */
  lemma StreamScalarReadsBack(settings: Settings, evs: seq<Event>, i: nat, k: nat, w: Where)
    requires i < k <= |evs| && evs[i].Scalar? && EmitRange(Initial(settings), evs, 0, k).Done?
    ensures EmitRange(Initial(settings), evs, 0, i).Done?
    ensures var m := EmitRange(Initial(settings), evs, 0, i).next;
      AnalyzeEvent(m, evs[i]).Some? && Ready(PlaceOf(m, evs[i], AnalyzeEvent(m, evs[i]).value, Look(evs, i)).m)
    ensures var m, e, t := EmitRange(Initial(settings), evs, 0, i).next, evs[i], EmitRange(Initial(settings), evs, 0, k).next.sink.out;
      var d := AnalyzeEvent(m, e).value;
      var pl := PlaceOf(m, e, d, Look(evs, i));
      var b := BeforeText(pl.m, e, d, pl.simple);
      Quotes(ChosenStyle(pl.m, e, d, pl.simple), e.value) && InStep(w, pl) ==>
        && |Start(b.sink).out| < |t|
        && Reads(ScanToken(t, |Start(b.sink).out|, Start(b.sink).column, w), e.value)
  {
    hide EmitEvent, Coherent, AnalyzeEvent, PlaceOf, ChosenStyle, BeforeText, Ready, ScanToken, KeysFit, EmitScalar;
    RangeSplit(Initial(settings), evs, 0, i, k);
    InitialIsCoherent(settings);
    assert KeysFit(Initial(settings), evs, 0) by { InitialKeys(settings, evs); }
    PrefixKeys(Initial(settings), evs, 0, i);
    var m := EmitRange(Initial(settings), evs, 0, i).next;
    Analysed(m, evs[i], Look(evs, i));
    ScalarReadsBack(m, evs, i, k, AnalyzeEvent(m, evs[i]).value, w);
  }

  lemma InitialKeys(settings: Settings, evs: seq<Event>)
    ensures KeysFit(Initial(settings), evs, 0)
  {
  }
}
