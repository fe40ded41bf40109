/** How the emitter's text grows: every event only adds to it, and a node begins with a blank exactly when
    one is due. */
module EmittedText {
  import opened Chars
  import opened Options
  import opened Events
  import opened ScalarEmitter
  import opened ScalarScanner
  import opened TextReading
  import opened PlainScalars
  import opened EmitterMachine
  import opened EmitterGrammar
  import Single = SingleQuotedScalars
  import Double = DoubleQuotedScalars
  import TagUri

  // ----- Text is only added -----

  lemma {:induction false} LiteralGrows(cfg: Config, v: string, i: nat, s: Sink, breaks: bool)
    ensures s.out <= LiteralText(cfg, v, i, s, breaks).out
    decreases |v| - i
  {
    hide WriteIndent;
    WriteIndentGrows(cfg, s);
    if i < |v| {
      if IsBreak(v[i]) {
        LiteralGrows(cfg, v, i + 1, WriteBreak(cfg, s, v[i]), true);
      } else {
        LiteralGrows(cfg, v, i + 1, Put(if breaks then WriteIndent(cfg, s) else s, [v[i]]).(indention := false), false);
      }
    }
  }

  lemma {:induction false} FoldedGrows(cfg: Config, v: string, i: nat, s: Sink, breaks: bool, leading: bool)
    ensures s.out <= FoldedText(cfg, v, i, s, breaks, leading).out
    decreases |v| - i
  {
    hide WriteIndent, SkipBreaks;
    if i < |v| {
      if IsBreak(v[i]) {
        var s1 := if !breaks && !leading && v[i] == '\n' && !IsBlankz(At(v, SkipBreaks(v, 0))) then PutBreak(cfg, s) else s;
        FoldedGrows(cfg, v, i + 1, WriteBreak(cfg, s1, v[i]), true, leading);
      } else {
        WriteIndentGrows(cfg, s);
        var s1 := if breaks then WriteIndent(cfg, s) else s;
        var leading1 := if breaks then IsBlank(v[i]) else leading;
        WriteIndentGrows(cfg, s1);
        var s2 :=
          if !breaks && v[i] == ' ' && At(v, i + 1) != ' ' && s1.column > cfg.bestWidth then WriteIndent(cfg, s1)
          else Put(s1, [v[i]]);
        FoldedGrows(cfg, v, i + 1, s2.(indention := false), false, leading1);
      }
    }
  }

  lemma BlockGrows(m: M, v: string, folded: bool)
    requires v != ""
    ensures Indicator(m, if folded then ">" else "|", true, false, false).sink.out <= WriteBlock(m, v, folded).sink.out
  {
    hide FoldedText, LiteralText;
    var m1 := BlockHints(Indicator(m, if folded then ">" else "|", true, false, false), v);
    FoldedGrows(Cfg(m1), v, 0, m1.sink.(whitespace := true), true, true);
    LiteralGrows(Cfg(m1), v, 0, m1.sink.(whitespace := true), true);
  }

  lemma ScalarGrows(m: M, v: string, style: Style, root: bool, simpleKey: bool)
    requires !style.Any? && (style.Literal? || style.Folded? ==> v != "")
    ensures m.sink.out <= ProcessScalar(m, v, style, root, simpleKey).sink.out
  {
    hide PlainText, SingleText, DoubleText, WriteBlock;
    var ab, s := !simpleKey, m.sink;
    match style {
      case Plain => PlainTextGrows(Cfg(m), v, ab, 0, if v != "" && !s.whitespace then Put(s, " ") else s, false, false);
      case SingleQuoted => Single.SingleTextGrows(Cfg(m), v, ab, 0, WriteIndicator(s, "'", true, false, false), false, false);
      case DoubleQuoted => Double.DoubleTextGrows(Cfg(m), v, ab, 0, WriteIndicator(s, "\"", true, false, false), false);
      case _ => BlockGrows(m, v, style.Folded?);
    }
  }

  /** The tag a scalar is printed with: `!` when a quoted style must not be resolved. */
  ghost function TagData(m: M, e: Event, d: Data, simpleKey: bool): Data
    requires e.Scalar?
  {
    if d.handle == "" && d.suffix == "" && !e.quotedImplicit && !ChosenStyle(m, e, d, simpleKey).Plain? then d.(handle := "!") else d
  }

  ghost function Properties(m: M, e: Event, d: Data, simpleKey: bool): M {
    if e.Scalar? then ProcessTag(ProcessAnchor(m, d), TagData(m, e, d, simpleKey))
    else if e.Alias? then ProcessAnchor(m, d)
    else ProcessTag(ProcessAnchor(m, d), d)
  }

  /** Anchor and tag come first, then, for a scalar, its text. */
  lemma NodeText(m: M, e: Event, d: Data, next: Option<Event>, root: bool, simpleKey: bool) returns (m1: M)
    requires EmitNode(m, e, d, next, root, simpleKey).Done?
    ensures var n, p := EmitNode(m, e, d, next, root, simpleKey).next, Properties(m, e, d, simpleKey);
      if e.Scalar? then
        var style := ChosenStyle(m, e, d, simpleKey);
        && m1.sink == p.sink && !style.Any? && (style.Literal? || style.Folded? ==> e.value != "")
        && n.sink == ProcessScalar(m1, e.value, style, root, simpleKey).sink
      else n.sink == p.sink
  {
    hide ProcessScalar, ChosenStyle, Deeper, ProcessTag, ProcessAnchor;
    m1 := m;
    if e.Scalar? {
      StyleIsWritable(m, e, d, simpleKey);
      m1 := Increase(Properties(m, e, d, simpleKey), true).next;
    }
  }

  lemma NodeGrows(m: M, e: Event, d: Data, next: Option<Event>, root: bool, simpleKey: bool)
    ensures var o := EmitNode(m, e, d, next, root, simpleKey); o.Done? ==> m.sink.out <= o.next.sink.out
  {
    hide EmitNode, Properties, ProcessScalar, ChosenStyle;
    if EmitNode(m, e, d, next, root, simpleKey).Done? {
      PropertiesGrow(m, e, d, simpleKey);
      var m1 := NodeText(m, e, d, next, root, simpleKey);
      if e.Scalar? { ScalarGrows(m1, e.value, ChosenStyle(m, e, d, simpleKey), root, simpleKey); }
    }
  }

  lemma PropertiesGrow(m: M, e: Event, d: Data, simpleKey: bool)
    ensures m.sink.out <= Properties(m, e, d, simpleKey).sink.out
  {
    hide ChosenStyle, ProcessAnchor, ProcessTag;
    AnchorGrows(m, d);
    TagGrows(ProcessAnchor(m, d), if e.Scalar? then TagData(m, e, d, simpleKey) else d);
  }

  lemma AnchorGrows(m: M, d: Data)
    ensures m.sink.out <= ProcessAnchor(m, d).sink.out
  {
  }

  lemma TagGrows(m: M, d: Data)
    ensures m.sink.out <= ProcessTag(m, d).sink.out
  {
    hide TagUri.TagText;
    if d.handle == "" && d.suffix != "" {
      var m1 := Indicator(m, "!<", true, false, false);
      assert m.sink.out <= m1.sink.out;
    }
  }

  // ----- How a node begins -----

  /** `f` is `s` with more text: when a blank is due the first character added is one, and else it is none. */
  predicate Starts(s: Sink, f: Sink) {
    && s.out <= f.out
    && (|f.out| == |s.out| ==> f == s)
    && (|f.out| > |s.out| ==> if s.whitespace then IsInk(f.out[|s.out|]) else f.out[|s.out|] == ' ')
  }

  predicate IsInk(c: char) { !IsBlank(c) && !IsBreak(c) }

  lemma StartsThen(s: Sink, f: Sink, h: Sink)
    requires Starts(s, f) && f.out <= h.out && (f == s ==> Starts(s, h))
    ensures Starts(s, h)
  {
    assert |f.out| > |s.out| ==> h.out[|s.out|] == f.out[|s.out|];
    assert s.out <= h.out by { ThroughEarlier(s, f, h.out); }
  }

  lemma IndicatorStarts(s: Sink, t: string, a: bool, b: bool)
    requires t != "" && IsInk(t[0])
    ensures Starts(s, WriteIndicator(s, t, true, a, b)) && Starts(s, Word(s, t, true))
    ensures s.out < WriteIndicator(s, t, true, a, b).out && s.out < Word(s, t, true).out
  {
  }

  lemma AnchorStarts(m: M, d: Data)
    ensures Starts(m.sink, ProcessAnchor(m, d).sink) && (d.anchor == "" ==> ProcessAnchor(m, d) == m)
  {
    IndicatorStarts(m.sink, "*", false, false);
    IndicatorStarts(m.sink, "&", false, false);
  }

  lemma TagStarts(m: M, d: Data)
    requires d.handle != "" ==> IsInk(d.handle[0])
    ensures Starts(m.sink, ProcessTag(m, d).sink) && (d.handle == "" && d.suffix == "" ==> ProcessTag(m, d) == m)
  {
    hide TagUri.TagText;
    if d.handle != "" {
      IndicatorStarts(m.sink, d.handle, false, false);
      StartsThen(m.sink, Word(m.sink, d.handle, true), ProcessTag(m, d).sink);
    } else if d.suffix != "" {
      IndicatorStarts(m.sink, "!<", false, false);
      StartsThen(m.sink, Indicator(m, "!<", true, false, false).sink, ProcessTag(m, d).sink);
    }
  }

  lemma PropertiesStart(m: M, e: Event, d: Data, simpleKey: bool)
    requires d.handle != "" ==> IsInk(d.handle[0])
    ensures Starts(m.sink, Properties(m, e, d, simpleKey).sink)
  {
    hide ProcessTag, ProcessAnchor, ChosenStyle, Starts;
    var a := ProcessAnchor(m, d);
    AnchorStarts(m, d);
    if !e.Alias? {
      var d1 := if e.Scalar? then TagData(m, e, d, simpleKey) else d;
      TagStarts(a, d1);
      var p := ProcessTag(a, d1);
      assert a.sink.out <= p.sink.out && (a.sink == m.sink ==> Starts(m.sink, p.sink)) by { StartsGrow(a.sink, p.sink); }
      StartsThen(m.sink, a.sink, p.sink);
    }
  }

  lemma StartsGrow(s: Sink, f: Sink)
    requires Starts(s, f)
    ensures s.out <= f.out
  {
  }

  /** A handle is one of the directives', so it begins with `!`. */
  lemma HandleIsInk(m: M, e: Event, d: Data)
    requires UsableHandles(m.directives) && AnalyzeEvent(m, e) == Some(d)
    ensures d.handle != "" ==> IsInk(d.handle[0])
  {
    if UsesTag(m, e) { SplitHandle(m.directives, EmitterMachine.TagOf(e)); }
  }

  lemma {:induction false} SplitHandle(ds: seq<(string, string)>, tag: string)
    requires UsableHandles(ds)
    ensures var h := SplitTag(ds, tag).0; h != "" ==> IsInk(h[0])
  {
    if ds != [] && !(ds[0].1 <= tag) {
      assert forall i :: 0 <= i < |ds[1..]| ==> ds[1..][i] == ds[i + 1];
      SplitHandle(ds[1..], tag);
    }
  }

  /** A scalar's text, as a simple key where no blank is due. */
  lemma ScalarStarts(m: M, v: string, style: Style, root: bool, simpleKey: bool)
    requires !style.Any? && (style.Literal? || style.Folded? ==> v != "")
    requires style.Plain? && v != "" ==> IsInk(v[0])
    requires if m.sink.whitespace then !(style.Plain? && v == "") else !m.sink.indention
    ensures Starts(m.sink, ProcessScalar(m, v, style, root, simpleKey).sink)
  {
    hide PlainText, SingleText, DoubleText, WriteBlock;
    var ab, s, f := !simpleKey, m.sink, ProcessScalar(m, v, style, root, simpleKey).sink;
    match style {
      case Plain =>
        if v != "" {
          PlainStarts(Cfg(m), s, v, ab);
        } else {
          EmptyText(Cfg(m), ab, s);
        }
      case SingleQuoted =>
        IndicatorStarts(s, "'", false, false);
        Single.SingleTextGrows(Cfg(m), v, ab, 0, WriteIndicator(s, "'", true, false, false), false, false);
        StartsThen(s, WriteIndicator(s, "'", true, false, false), f);
      case DoubleQuoted =>
        IndicatorStarts(s, "\"", false, false);
        Double.DoubleTextGrows(Cfg(m), v, ab, 0, WriteIndicator(s, "\"", true, false, false), false);
        StartsThen(s, WriteIndicator(s, "\"", true, false, false), f);
      case _ =>
        var t := if style.Folded? then ">" else "|";
        IndicatorStarts(s, t, false, false);
        BlockGrows(m, v, style.Folded?);
        StartsThen(s, Indicator(m, t, true, false, false).sink, f);
    }
  }

  lemma EmptyText(cfg: Config, ab: bool, s: Sink)
    ensures PlainText(cfg, "", ab, 0, s, false, false) == s
  {
  }

  lemma PlainStarts(cfg: Config, s: Sink, v: string, ab: bool)
    requires v != "" && IsInk(v[0])
    ensures Starts(s, WritePlain(cfg, s, v, ab)) && s.out < WritePlain(cfg, s, v, ab).out
  {
    var s0 := if !s.whitespace then Put(s, " ") else s;
    var s1 := Put(s0, [v[0]]).(indention := false);
    assert PlainText(cfg, v, ab, 0, s0, false, false) == PlainText(cfg, v, ab, 1, s1, false, false);
    PlainTextGrows(cfg, v, ab, 1, s1, false, false);
    hide PlainText;
    StartsThen(s, s1, WritePlain(cfg, s, v, ab));
  }

  /** Only a simple key stands where no blank is due, and it is no empty plain scalar. */
  lemma NodeStarts(m: M, e: Event, d: Data, next: Option<Event>, root: bool, simpleKey: bool)
    requires UsableHandles(m.directives) && AnalyzeEvent(m, e) == Some(d) && EmitNode(m, e, d, next, root, simpleKey).Done?
    requires if m.sink.whitespace then simpleKey else !m.sink.indention
    ensures Starts(m.sink, EmitNode(m, e, d, next, root, simpleKey).next.sink)
  {
    hide EmitNode, Properties, ProcessScalar, ChosenStyle, UsableHandles, AnalyzeEvent, Starts;
    HandleIsInk(m, e, d);
    PropertiesStart(m, e, d, simpleKey);
    var m1 := NodeText(m, e, d, next, root, simpleKey);
    if e.Scalar? {
      var p, style := Properties(m, e, d, simpleKey), ChosenStyle(m, e, d, simpleKey);
      PlainInk(m, e, d, simpleKey);
      ScalarGrows(m1, e.value, style, root, simpleKey);
      if p.sink == m.sink { ScalarStarts(m1, e.value, style, root, simpleKey); }
      StartsThen(m.sink, p.sink, EmitNode(m, e, d, next, root, simpleKey).next.sink);
    }
  }

  lemma PlainInk(m: M, e: Event, d: Data, simpleKey: bool)
    requires e.Scalar?
    ensures ChosenStyle(m, e, d, simpleKey).Plain? && e.value != "" ==> IsInk(e.value[0])
    ensures ChosenStyle(m, e, d, simpleKey).Plain? && simpleKey ==> e.value != ""
  {
    if ChosenStyle(m, e, d, simpleKey).Plain? && e.value != "" {
      assert PlainAllowed(e.value, m.settings.unicode, m.flowLevel);
      AfterSpace(e.value, 0, m.settings.unicode, m.flowLevel);
    }
  }

  lemma {:induction false} DirectivesGrow(m: M, ds: seq<(string, string)>)
    ensures m.sink.out <= WriteDirectives(m, ds).sink.out
    decreases |ds|
  {
    hide WriteIndent;
    if ds != [] {
      WriteIndentGrows(Cfg(m), Word(Word(Indicator(m, "%TAG", true, false, false).sink, ds[0].0, true), TagUri.TagText(ds[0].1), true));
      DirectivesGrow(WriteDirective(m, ds[0]), ds[1..]);
    }
  }

  lemma IndentGrows(m: M)
    ensures m.sink.out <= Indent(m).sink.out
  {
    WriteIndentGrows(Cfg(m), m.sink);
  }

  lemma DotsGrow(m: M)
    ensures m.sink.out <= WriteDots(m).sink.out
  {
    hide WriteIndent;
    IndentGrows(Indicator(m, "...", true, false, false));
  }

  lemma HeaderGrows(m1: M, e: Event, first: bool)
    requires e.DocumentStart?
    ensures m1.sink.out <= DocumentHeader(m1, e, first).sink.out
  {
    hide WriteDots, Indent, WriteDirectives;
    DotsGrow(m1);
    var m2 := if m1.openEnded && (e.version || e.directives != []) then WriteDots(m1) else m1;
    var v := Indicator(Indicator(m2, "%YAML", true, false, false), "1.1", true, false, false);
    IndentGrows(v);
    var m3 := if e.version then Indent(v) else m2;
    DirectivesGrow(m3, e.directives);
    var m4 := WriteDirectives(m3, e.directives);
    IndentGrows(m4);
    IndentGrows(Indicator(Indent(m4), "---", true, false, false));
  }

  // ----- Every event only adds text -----

  lemma FlowSequenceGrows(m: M, e: Event, d: Data, next: Option<Event>, first: bool)
    ensures var o := FlowSequenceEntry(m, e, d, next, first); o.Done? ==> m.sink.out <= o.next.sink.out
  {
    hide EmitNode, WriteIndent;
    var m1 := TrailingComma(m, first);
    if e.SequenceEnd? {
      CloseGrows(m1, "]", m1.sink.column == 0 || (m1.settings.canonical && !first));
    } else {
      BeforeGrows(m, first);
      NodeGrows(PushState(BeforeEntry(m, first), FlowSequenceItem), e, d, next, false, false);
    }
  }

  lemma CloseGrows(m: M, bracket: string, indentWhen: bool)
    ensures var o := CloseFlow(m, bracket, indentWhen); o.Done? ==> m.sink.out <= o.next.sink.out
  {
    hide WriteIndent;
    if m.flowLevel > 0 && m.indents != [] { IndentGrows(PopIndent(m.(flowLevel := m.flowLevel - 1)).next); }
  }

  lemma BeforeGrows(m: M, first: bool)
    ensures m.sink.out <= BeforeEntry(m, first).sink.out
  {
    hide WriteIndent;
    var m1 := if first then m else Indicator(m, ",", false, false, false);
    IndentGrows(m1);
    IndentGrows(if m1.sink.column == 0 then Indent(m1) else m1);
  }

  lemma FlowMappingGrows(m: M, e: Event, d: Data, next: Option<Event>, first: bool)
    ensures var o := FlowMappingEntry(m, e, d, next, first); o.Done? ==> m.sink.out <= o.next.sink.out
  {
    hide EmitNode, WriteIndent, IsSimpleKey;
    var m1 := TrailingComma(m, first);
    if e.MappingEnd? {
      CloseGrows(m1, "}", m1.settings.canonical && !first);
    } else {
      BeforeGrows(m, first);
      var b := BeforeEntry(m, first);
      NodeGrows(PushState(b, FlowMappingSimpleValue), e, d, next, false, true);
      NodeGrows(PushState(Indicator(b, "?", true, false, false), FlowMappingValue), e, d, next, false, false);
      assert b.sink.out <= Indicator(b, "?", true, false, false).sink.out;
    }
  }

  lemma FlowValueGrows(m: M, e: Event, d: Data, next: Option<Event>, simple: bool)
    ensures var o := EmitFlowMappingValue(m, e, d, next, simple); o.Done? ==> m.sink.out <= o.next.sink.out
  {
    hide EmitNode, WriteIndent;
    IndentGrows(m);
    var i := if m.settings.canonical || m.sink.column > m.settings.bestWidth then Indent(m) else m;
    var c := if simple then Indicator(m, ":", false, false, false) else Indicator(i, ":", true, false, false);
    assert m.sink.out <= c.sink.out;
    NodeGrows(PushState(c, FlowMappingKey), e, d, next, false, false);
  }

  lemma BlockSequenceGrows(m: M, e: Event, d: Data, next: Option<Event>)
    ensures var o := BlockSequenceEntry(m, e, d, next); o.Done? ==> m.sink.out <= o.next.sink.out
  {
    hide EmitNode, WriteIndent;
    IndentGrows(m);
    var c := Indicator(Indent(m), "-", true, false, true);
    assert Indent(m).sink.out <= c.sink.out;
    NodeGrows(PushState(c, BlockSequenceItem), e, d, next, false, false);
  }

  lemma BlockMappingGrows(m: M, e: Event, d: Data, next: Option<Event>)
    ensures var o := BlockMappingEntry(m, e, d, next); o.Done? ==> m.sink.out <= o.next.sink.out
  {
    hide EmitNode, WriteIndent, IsSimpleKey;
    IndentGrows(m);
    var c := Indicator(Indent(m), "?", true, false, true);
    assert Indent(m).sink.out <= c.sink.out;
    NodeGrows(PushState(Indent(m), BlockMappingSimpleValue), e, d, next, false, true);
    NodeGrows(PushState(c, BlockMappingValue), e, d, next, false, false);
  }

  lemma BlockValueGrows(m: M, e: Event, d: Data, next: Option<Event>, simple: bool)
    ensures var o := EmitBlockMappingValue(m, e, d, next, simple); o.Done? ==> m.sink.out <= o.next.sink.out
  {
    hide EmitNode, WriteIndent;
    IndentGrows(m);
    var c := if simple then Indicator(m, ":", false, false, false) else Indicator(Indent(m), ":", true, false, true);
    assert m.sink.out <= c.sink.out;
    NodeGrows(PushState(c, BlockMappingKey), e, d, next, false, false);
  }

  lemma OpenGrows(m: M, bracket: string)
    ensures var o := OpenFlow(m, bracket); o.Done? ==> m.sink.out <= o.next.sink.out
  {
  }

  lemma DocumentStartGrows(m: M, e: Event, first: bool)
    ensures var o := EmitDocumentStart(m, e, first); o.Done? ==> m.sink.out <= o.next.sink.out
  {
    hide DocumentHeader, WriteDots, AddDirectives;
    DotsGrow(m);
    if e.DocumentStart? && AddDirectives(m.directives, e.directives).Directives? {
      HeaderGrows(m.(directives := AddDefaults(AddDirectives(m.directives, e.directives).all)), e, first);
    }
  }

  lemma DocumentEndGrows(m: M, e: Event)
    ensures var o := EmitDocumentEnd(m, e); o.Done? ==> m.sink.out <= o.next.sink.out
  {
    hide WriteDots, WriteIndent;
    var m0 := m.(sink := m.sink.(footIndent := -1));
    IndentGrows(m0);
    DotsGrow(Indent(m0));
  }

  lemma FlowGrows(m: M, e: Event, d: Data, next: Option<Event>)
    requires IsFlow(m.state)
    ensures var o := EmitterMachine.Dispatch(m, e, d, next); o.Done? ==> m.sink.out <= o.next.sink.out
  {
    hide FlowSequenceEntry, FlowMappingEntry, EmitFlowMappingValue, OpenFlow;
    OpenGrows(m, "[");
    OpenGrows(m, "{");
    match m.state {
      case FlowSequenceFirstItem => if OpenFlow(m, "[").Done? { FlowSequenceGrows(OpenFlow(m, "[").next, e, d, next, true); }
      case FlowSequenceItem => FlowSequenceGrows(m, e, d, next, false);
      case FlowMappingFirstKey => if OpenFlow(m, "{").Done? { FlowMappingGrows(OpenFlow(m, "{").next, e, d, next, true); }
      case FlowMappingKey => FlowMappingGrows(m, e, d, next, false);
      case FlowMappingSimpleValue => FlowValueGrows(m, e, d, next, true);
      case FlowMappingValue => FlowValueGrows(m, e, d, next, false);
    }
  }

  lemma BlocksGrow(m: M, e: Event, d: Data, next: Option<Event>)
    requires (IsFirst(m.state) || IsContinuation(m.state)) && !IsFlow(m.state)
    ensures var o := EmitterMachine.Dispatch(m, e, d, next); o.Done? ==> m.sink.out <= o.next.sink.out
  {
    hide BlockSequenceEntry, BlockMappingEntry, EmitBlockMappingValue, Deeper;
    match m.state {
      case BlockSequenceFirstItem => if Increase(m, false).Done? { BlockSequenceGrows(Increase(m, false).next, e, d, next); }
      case BlockSequenceItem => BlockSequenceGrows(m, e, d, next);
      case BlockMappingFirstKey => if Increase(m, false).Done? { BlockMappingGrows(Increase(m, false).next, e, d, next); }
      case BlockMappingKey => BlockMappingGrows(m, e, d, next);
      case BlockMappingSimpleValue => BlockValueGrows(m, e, d, next, true);
      case BlockMappingValue => BlockValueGrows(m, e, d, next, false);
    }
  }

  lemma EventGrows(m: M, e: Event, next: Option<Event>)
    ensures var o := EmitEvent(m, e, next); o.Done? ==> m.sink.out <= o.next.sink.out
  {
    hide AnalyzeEvent, EmitNode, EmitFlowSequence, EmitFlowMappingKey, EmitBlockSequence, EmitBlockMappingKey, EmitFlowMappingValue,
      EmitBlockMappingValue, EmitDocumentStart, EmitDocumentEnd;
    if AnalyzeEvent(m, e).Some? {
      var d := AnalyzeEvent(m, e).value;
      if IsFlow(m.state) {
        FlowGrows(m, e, d, next);
      } else if IsFirst(m.state) || IsContinuation(m.state) {
        BlocksGrow(m, e, d, next);
      } else {
        DocumentStartGrows(m, e, m.state.FirstDocumentStart?);
        DocumentEndGrows(m, e);
        NodeGrows(PushState(m, DocumentEndState), e, d, next, true, false);
      }
    }
  }
}
