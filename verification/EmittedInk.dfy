/** What the state machine prints: apart from spaces and line breaks, the text a simple recursive
    printer gives for the tree, whatever the width, the indentation and the line breaks.

    The emitter sees one event at a time, keeps a stack of states and decides between `?` and a simple
    key by looking ahead; `Shows` sees the tree. */
module EmittedInk {
  import opened Options
  import opened Events
  import opened ScalarEmitter
  import opened EmitterMachine
  import opened EmitterGrammar
  import opened EmitterRuns
  import opened ScalarInk
  import opened Chars
  import opened CharacterSets
  import opened TreePrinter
  import TagUri

  // ----- The emitter's side -----

  // What the emitter decides about anchors, tags, keys and styles is what the printer does.

  lemma {:induction false} FittingIs(ds: seq<(string, string)>, tag: string)
    ensures var k := Fitting(ds, tag); SplitTag(ds, tag) == if k < |ds| then (ds[k].0, tag[|ds[k].1|..]) else ("", tag)
  {
    if ds != [] && !(ds[0].1 <= tag) {
      FittingIs(ds[1..], tag);
      var k, l := Fitting(ds, tag), Fitting(ds[1..], tag);
      assert k > 0;
      assert l < |ds[1..]| ==> ds[l + 1] == ds[1..][l];
      assert k < |ds| ==> ds[1..][k - 1] == ds[k];
      assert forall j :: 0 <= j < |ds[1..]| ==> ds[1..][j] == ds[j + 1];
    }
  }

  /** Anchor and tag. */
  function DataInk(d: Data): string {
    (if d.anchor == "" then "" else (if d.alias then "*" else "&") + Ink(d.anchor)) + TagInk(d.handle, d.suffix)
  }

  /** What the emitter keeps of an event is what the printer shows of it. */
  lemma SameProperties(m: M, e: Event, d: Data)
    requires AnalyzeEvent(m, e) == Some(d)
    ensures d.anchor == TreePrinter.AnchorOf(e) && d.alias == e.Alias? && (d.handle, d.suffix) == Shorthand(EnvOf(m), e)
    ensures DataInk(d) == PropertiesInk(EnvOf(m), e)
  {
    hide Ink, SplitTag, Fitting;
    FittingIs(m.directives, EmitterMachine.TagOf(e));
  }

  lemma SameLines(v: string)
    ensures HasBreak(v) <==> SpansLines(v)
  {
    forall i | 0 <= i < |v| ensures BreakAt(v, i) <==> Among(v[i], BREAKS) { BlanksAgree(v[i]); }
  }

  lemma SameQuotable(v: string, unicode: bool)
    ensures Quotable(v, unicode) <==> MayBeQuoted(v, unicode)
  {
    hide IsPrintable;
    forall i | 0 <= i < |v| ensures IsBreak(v[i]) <==> Among(v[i], BREAKS) { BlanksAgree(v[i]); }
    if Quotable(v, unicode) {
      forall i | 0 <= i < |v|
        ensures v[i] != '\t' && !NeedsEscape(v[i], unicode) && (EndsInSpace(v, i) ==> i == |v| - 1) && (BeginsWithSpace(v, i) ==> i == 0)
      {
        assert !TabAt(v, i) && !SpecialAt(v, i, unicode) && !BreakSpaceAt(v, i);
        if i + 1 < |v| { assert !SpaceBreakAt(v, i + 1); }
      }
    }
    if MayBeQuoted(v, unicode) {
      forall i | 0 <= i < |v| ensures !TabAt(v, i) && !SpecialAt(v, i, unicode) && !SpaceBreakAt(v, i) && !BreakSpaceAt(v, i) {
        assert !NeedsEscape(v[i], unicode);
        if i > 0 { assert EndsInSpace(v, i - 1) ==> i - 1 == |v| - 1; }
      }
    }
  }

  lemma SameBlock(v: string, unicode: bool)
    ensures AnalysisOf(v, unicode).blockAllowed <==> MayBeBlock(v, unicode)
  {
    hide IsPrintable;
    forall i | 0 <= i < |v| ensures IsBreak(v[i]) <==> Among(v[i], BREAKS) { BlanksAgree(v[i]); }
    if AnalysisOf(v, unicode).blockAllowed {
      forall i | 0 <= i < |v| ensures !NeedsEscape(v[i], unicode) && !EndsInSpace(v, i) {
        assert !SpecialAt(v, i, unicode);
        if i + 1 < |v| { assert !SpaceBreakAt(v, i + 1); }
      }
    }
    if MayBeBlock(v, unicode) {
      forall i | 0 <= i < |v| ensures !SpecialAt(v, i, unicode) && !SpaceBreakAt(v, i) {
        assert !NeedsEscape(v[i], unicode);
        if i > 0 { assert !EndsInSpace(v, i - 1); }
      }
      assert !EndsInSpace(v, |v| - 1);
    }
  }

  lemma SameIndicators(v: string, i: nat)
    requires i < |v|
    ensures BlockIndicatorAt(v, i) <==> Misleads(v, i, false)
    ensures FlowIndicatorAt(v, i) <==> Misleads(v, i, true)
  {
    var c := v[i];
    LeadingAgree(c);
    if i + 1 < |v| { BlanksAgree(v[i + 1]); }
    if i > 0 { BlanksAgree(v[i - 1]); }
  }

  lemma LeadingAgree(c: char)
    ensures IsLeadingIndicator(c) <==> Among(c, "#,[]{}&*!|>'\"%@`")
    ensures c == '?' || c == ':' <==> Among(c, "?:")
    ensures IsFlowIndicator(c) || c == ':' <==> Among(c, ",?[]{}:")
  {
    var l, k, f := "#,[]{}&*!|>'\"%@`", "?:", ",?[]{}:";
    assert l[0] == '#' && l[1] == ',' && l[2] == '[' && l[3] == ']' && l[4] == '{' && l[5] == '}' && l[6] == '&' && l[7] == '*';
    assert l[8] == '!' && l[9] == '|' && l[10] == '>' && l[11] == '\'' && l[12] == '"' && l[13] == '%' && l[14] == '@' && l[15] == '`';
    assert k[0] == '?' && k[1] == ':';
    assert f[0] == ',' && f[1] == '?' && f[2] == '[' && f[3] == ']' && f[4] == '{' && f[5] == '}' && f[6] == ':';
  }

  lemma SamePlain(v: string, flow: bool, simple: bool, unicode: bool)
    ensures var a := AnalysisOf(v, unicode);
      MayBePlain(v, flow, simple, unicode)
      <==> (if flow then a.flowPlainAllowed else a.blockPlainAllowed) && !(v == "" && (flow || simple))
  {
    hide Quotable, MayBeQuoted, BlockIndicatorAt, FlowIndicatorAt, Misleads;
    SameLines(v);
    SameQuotable(v, unicode);
    forall i | 0 <= i < |v| ensures (BlockIndicatorAt(v, i) <==> Misleads(v, i, false)) && (FlowIndicatorAt(v, i) <==> Misleads(v, i, true)) {
      SameIndicators(v, i);
    }
    assert StartsLikeDocumentMarker(v) <==> StartsWith(v, "---") || StartsWith(v, "...");
  }

  /** The style the emitter selects. */
  lemma SameStyle(m: M, e: Event, d: Data, flow: bool, simple: bool)
    requires AnalyzeEvent(m, e) == Some(d) && e.Scalar? && flow == (m.flowLevel > 0)
    ensures ChosenStyle(m, e, d, simple) == StyleIn(EnvOf(m), flow, simple, e)
  {
    hide AnalysisOf, MayBePlain, MayBeQuoted, MayBeBlock, SpansLines, Shorthand, AnalyzeEvent;
    SameProperties(m, e, d);
    SamePlain(e.value, flow, simple, m.settings.unicode);
    SameQuotable(e.value, m.settings.unicode);
    SameBlock(e.value, m.settings.unicode);
    SameLines(e.value);
    AnalysisIs(e.value, m.settings.unicode);
  }

  lemma AnalysisIs(v: string, unicode: bool)
    ensures var a := AnalysisOf(v, unicode);
      (a.multiline <==> HasBreak(v)) && (a.singleQuotedAllowed <==> Quotable(v, unicode))
  {
  }

  lemma ForceAgrees(given: seq<(string, string)>)
    ensures AddDefaults(given) == InForce(given)
  {
    var more := given + [("!", "!")];
    assert forall i :: 0 <= i < |given| ==> more[i] == given[i];
    assert HasHandle(more, "!!") <==> HasHandle(given, "!!") by { assert more[|given|] == ("!", "!"); }
  }

  function EnvOf(m: M): Env { Env(m.settings, m.directives) }

  function KindAt(s: EmitterState): Kind {
    if s.FlowSequenceFirstItem? || s.FlowSequenceItem? then FlowList
    else if IsFlow(s) then FlowTable
    else if s.BlockSequenceFirstItem? || s.BlockSequenceItem? then BlockList
    else BlockTable
  }

  predicate SecondAt(s: EmitterState) {
    s.FlowMappingSimpleValue? || s.FlowMappingValue? || s.BlockMappingSimpleValue? || s.BlockMappingValue?
  }

  /** What the state prints before a node: the bracket of the collection, a comma, an indicator. */
  function Lead(s: EmitterState, simple: bool): string {
    if s.DocumentContent? then ""
    else (if IsFirst(s) then Opening(KindAt(s)) else "") + Before(KindAt(s), IsFirst(s), SecondAt(s), simple)
  }

  ghost predicate SimpleAt(s: EmitterState, env: Env, n: Node) {
    !s.DocumentContent? && IsTable(KindAt(s)) && !SecondAt(s) && SimpleKey(env, KindAt(s), n)
  }

  predicate Sees(next: Option<Event>, n: Node) {
    match n
    case Leaf(_) => true
    case Sequence(_, items) => next == Some(SequenceEnd) <==> items == []
    case Mapping(_, content) => next == Some(MappingEnd) <==> content == []
  }

  lemma IndicatorPrints(m: M, t: string, a: bool, b: bool, c: bool)
    ensures Ink(Indicator(m, t, a, b, c).sink.out) == Ink(m.sink.out) + Ink(t)
    ensures EnvOf(Indicator(m, t, a, b, c)) == EnvOf(m)
  {
    IndicatorInk(m.sink, t, a, b, c);
  }

  lemma IndentPrints(m: M)
    ensures Ink(Indent(m).sink.out) == Ink(m.sink.out) && EnvOf(Indent(m)) == EnvOf(m)
  {
    IndentInk(Cfg(m), m.sink);
  }

  lemma {:induction false} SolidInk(t: string)
    requires forall i :: 0 <= i < |t| ==> !IsLayout(t[i])
    ensures Ink(t) == t
  {
    if t != "" {
      SolidInk(t[1..]);
      assert t == [t[0]] + t[1..];
    }
  }

  lemma MarkInk(t: string)
    requires t in {",", "[", "]", "{", "}", "-", "?", ":", "&", "*", "!<", ">", "---", "...", "%TAG", "%YAML", "1.1"}
    ensures Ink(t) == t
  {
    SolidInk(t);
  }

  lemma WordInk(s: Sink, t: string, needWhitespace: bool)
    ensures Ink(Word(s, t, needWhitespace).out) == Ink(s.out) + Ink(t)
  {
    PutSpaceInk(s);
    PutInk(if needWhitespace && !s.whitespace then Put(s, " ") else s, t);
  }

  lemma AnchorPrints(m: M, d: Data)
    ensures Ink(ProcessAnchor(m, d).sink.out) == Ink(m.sink.out) + if d.anchor == "" then "" else (if d.alias then "*" else "&") + Ink(d.anchor)
    ensures ProcessAnchor(m, d) == m.(sink := ProcessAnchor(m, d).sink, openEnded := ProcessAnchor(m, d).openEnded)
  {
    hide Ink, WriteIndicator;
    var t := if d.alias then "*" else "&";
    var m1 := Indicator(m, t, true, false, false);
    IndicatorPrints(m, t, true, false, false);
    MarkInk(t);
    WordInk(m1.sink, d.anchor, false);
  }

  lemma TagPrints(m: M, d: Data)
    ensures Ink(ProcessTag(m, d).sink.out) == Ink(m.sink.out)
      + (if d.handle != "" then Ink(d.handle) + Ink(TagUri.TagText(d.suffix))
         else if d.suffix != "" then "!<" + Ink(TagUri.TagText(d.suffix)) + ">" else "")
    ensures ProcessTag(m, d) == m.(sink := ProcessTag(m, d).sink, openEnded := ProcessTag(m, d).openEnded)
  {
    hide Ink, WriteIndicator, Word, TagUri.TagText;
    if d.handle != "" {
      var m1 := m.(sink := Word(m.sink, d.handle, true));
      WordInk(m.sink, d.handle, true);
      WordInk(m1.sink, TagUri.TagText(d.suffix), false);
      if d.suffix == "" { NoSuffix(); }
    } else if d.suffix != "" {
      var m1 := Indicator(m, "!<", true, false, false);
      IndicatorPrints(m, "!<", true, false, false);
      MarkInk("!<");
      WordInk(m1.sink, TagUri.TagText(d.suffix), false);
      var m2 := m1.(sink := Word(m1.sink, TagUri.TagText(d.suffix), false));
      IndicatorPrints(m2, ">", false, false, false);
      MarkInk(">");
    }
  }

  lemma NoSuffix()
    ensures Ink(TagUri.TagText("")) == ""
  {
  }

  lemma PropertiesPrinted(m: M, d: Data, d1: Data)
    requires d1.anchor == d.anchor && d1.alias == d.alias
    ensures var r := ProcessTag(ProcessAnchor(m, d), d1);
      Ink(r.sink.out) == Ink(m.sink.out) + DataInk(d1) && r == m.(sink := r.sink, openEnded := r.openEnded)
  {
    hide Ink, ProcessTag, ProcessAnchor, TagUri.TagText;
    AnchorPrints(m, d);
    TagPrints(ProcessAnchor(m, d), d1);
  }

  // ----- One node, once its continuation is pushed -----

  lemma LeafPrints(m: M, e: Event, d: Data, root: bool, simple: bool) returns (x: string)
    requires e.Scalar? && AnalyzeEvent(m, e) == Some(d) && EmitScalar(m, e, d, root, simple).Done?
    ensures var o := EmitScalar(m, e, d, root, simple).next;
      && Ink(o.sink.out) == Ink(m.sink.out) + x && EnvOf(o) == EnvOf(m)
      && ShowsLeaf(e, m.flowLevel > 0, simple, EnvOf(m), x)
  {
    hide Ink, ProcessTag, ProcessAnchor, ProcessScalar, ChosenStyle, AnalyzeEvent, AnchorInk, TagInk, Shorthand, StyleIn, ShowsScalar, DataInk;
    SameProperties(m, e, d);
    SameStyle(m, e, d, m.flowLevel > 0, simple);
    var style := ChosenStyle(m, e, d, simple);
    var d1 := if d.handle == "" && d.suffix == "" && !e.quotedImplicit && !style.Plain? then d.(handle := "!") else d;
    PropertiesPrinted(m, d, d1);
    var m0 := ProcessTag(ProcessAnchor(m, d), d1);
    var m1 := m0.(indents := m0.indents + [m0.indent], indent := if m0.settings.bestIndent > 0 then Deeper(m0, true) else 0);
    StyleIsWritable(m, e, d, simple);
    var y := ScalarIsShown(m1, e.value, style, root, simple);
    ScalarKeepsEnv(m1, e.value, style, root, simple);
    x := DataInk(d1) + y;
    MarkedInk(m, e, d, style);
    assert (Ink(m.sink.out) + DataInk(d1)) + y == Ink(m.sink.out) + x;
  }

  /** The anchor, and the tag or the mark for want of one. */
  lemma MarkedInk(m: M, e: Event, d: Data, style: Style)
    requires AnalyzeEvent(m, e) == Some(d)
    ensures var env := EnvOf(m);
      var d1 := if d.handle == "" && d.suffix == "" && !e.Alias? && e.Scalar? && !e.quotedImplicit && !style.Plain? then d.(handle := "!") else d;
      DataInk(d1) == AnchorInk(e)
        + if e.Scalar? && Unmarked(env, e) && !e.quotedImplicit && !style.Plain? then "!" else TagInk(Shorthand(env, e).0, Shorthand(env, e).1)
  {
    hide AnalyzeEvent, Shorthand, Ink;
    SameProperties(m, e, d);
    assert Ink("!") + Ink(TagUri.TagText("")) == "!" by { NoSuffix(); SolidInk("!"); }
  }

  lemma ScalarKeepsEnv(m: M, v: string, style: Style, root: bool, simple: bool)
    requires !style.Any? && (style.Literal? || style.Folded? ==> v != "")
    ensures EnvOf(ProcessScalar(m, v, style, root, simple)) == EnvOf(m)
  {
    hide LiteralText, FoldedText, WriteScalar;
  }

  /** What `EmitNode` prints, and which collection it opens. */
  lemma NodeStartPrints(m: M, n: Node, d: Data, next: Option<Event>, root: bool, simple: bool) returns (x: string)
    requires WellFormed(n) && Sees(next, n) && AnalyzeEvent(m, OpenOf(n)) == Some(d)
    requires EmitNode(m, OpenOf(n), d, next, root, simple).Done?
    ensures var o := EmitNode(m, OpenOf(n), d, next, root, simple).next;
      && Ink(o.sink.out) == Ink(m.sink.out) + x && EnvOf(o) == EnvOf(m)
      && (if n.Leaf? then ShowsLeaf(n.leaf, m.flowLevel > 0, simple, EnvOf(m), x)
          else x == PropertiesInk(EnvOf(m), OpenOf(n)) && IsFirst(o.state) && KindAt(o.state) == KindOf(EnvOf(m), n, m.flowLevel > 0))
  {
    hide Ink, ProcessTag, ProcessAnchor, ChosenStyle, AnalyzeEvent, PropertiesInk, DataInk, AnchorInk;
    var e := OpenOf(n);
    SameProperties(m, e, d);
    if e.Scalar? {
      x := LeafPrints(m, e, d, root, simple);
    } else {
      PropertiesPrinted(m, d, d);
      x := DataInk(d);
      if e.Alias? { AliasPrints(m, e, d); }
    }
  }

  lemma AliasPrints(m: M, e: Event, d: Data)
    requires e.Alias? && AnalyzeEvent(m, e) == Some(d)
    ensures Ink(ProcessAnchor(m, d).sink.out) == Ink(m.sink.out) + DataInk(d) && EnvOf(ProcessAnchor(m, d)) == EnvOf(m)
    ensures DataInk(d) == AnchorInk(e)
  {
    hide Ink;
    AnchorPrints(m, d);
    var a := if d.anchor == "" then "" else (if d.alias then "*" else "&") + Ink(d.anchor);
    assert a + "" == a;
  }

  // ----- One event -----

  /** `r` is `m` after the event that is, or begins, the node `n`. */
  ghost predicate Started(m: M, n: Node, r: M, x: string) {
    var flow, simple := IsFlow(m.state), SimpleAt(m.state, EnvOf(m), n);
    && Ink(r.sink.out) == Ink(m.sink.out) + Lead(m.state, simple) + x && EnvOf(r) == EnvOf(m)
    && (if n.Leaf? then ShowsLeaf(n.leaf, flow, simple, EnvOf(m), x)
        else x == PropertiesInk(EnvOf(m), OpenOf(n)) && IsFirst(r.state) && KindAt(r.state) == KindOf(EnvOf(m), n, flow))
  }

  lemma Via(m: M, p: M, n: Node, d: Data, next: Option<Event>, root: bool, simple: bool) returns (x: string)
    requires WellFormed(n) && Sees(next, n) && AnalyzeEvent(m, OpenOf(n)) == Some(d)
    requires EnvOf(p) == EnvOf(m) && IsFlow(m.state) == (p.flowLevel > 0) && simple == SimpleAt(m.state, EnvOf(m), n)
    requires Ink(p.sink.out) == Ink(m.sink.out) + Lead(m.state, simple)
    requires EmitNode(p, OpenOf(n), d, next, root, simple).Done?
    ensures Started(m, n, EmitNode(p, OpenOf(n), d, next, root, simple).next, x)
  {
    hide Ink, Lead, SimpleAt, EmitNode, KindOf, PropertiesInk, ShowsLeaf;
    x := NodeStartPrints(p, n, d, next, root, simple);
  }

  lemma SimpleDecided(m: M, m1: M, n: Node, d: Data, next: Option<Event>)
    requires WellFormed(n) && Sees(next, n) && AnalyzeEvent(m, OpenOf(n)) == Some(d)
    requires m.state.FlowMappingFirstKey? || m.state.FlowMappingKey? || m.state.BlockMappingFirstKey? || m.state.BlockMappingKey?
    ensures SimpleAt(m.state, EnvOf(m), n)
      <==> !(IsFlow(m.state) && m.settings.canonical) && IsSimpleKey(m1, OpenOf(n), d, next)
  {
    hide EmitterMachine.Octets, TreePrinter.Octets, Shorthand, AnalyzeEvent, HasBreak, SpansLines;
    var e := OpenOf(n);
    SameProperties(m, e, d);
    SameOctets(d.anchor);
    SameOctets(d.handle);
    SameOctets(d.suffix);
    if e.Scalar? {
      SameLines(e.value);
      SameOctets(e.value);
    } else if e.Alias? {
      NoTag(EnvOf(m), e);
    }
  }

  lemma SameOctets(t: string)
    ensures EmitterMachine.Octets(t) == TreePrinter.Octets(t)
  {
  }

  lemma NoTag(env: Env, e: Event)
    requires e.Alias?
    ensures Shorthand(env, e) == ("", "") && TreePrinter.Octets("") == 0
  {
  }

  lemma EntryPrinted(m: M, first: bool)
    ensures Ink(BeforeEntry(m, first).sink.out) == Ink(m.sink.out) + (if first then "" else ",")
    ensures EnvOf(BeforeEntry(m, first)) == EnvOf(m) && BeforeEntry(m, first).flowLevel == m.flowLevel
  {
    hide Ink, WriteIndent, WriteIndicator;
    IndicatorPrints(m, ",", false, false, false);
    MarkInk(",");
    var m1 := if first then m else Indicator(m, ",", false, false, false);
    IndentPrints(m1);
    var m2 := if m1.sink.column == 0 then Indent(m1) else m1;
    IndentPrints(m2);
  }

  lemma OpenPrinted(m: M, bracket: string)
    requires OpenFlow(m, bracket).Done? && (bracket == "[" || bracket == "{")
    ensures var r := OpenFlow(m, bracket).next;
      Ink(r.sink.out) == Ink(m.sink.out) + bracket && EnvOf(r) == EnvOf(m) && r.flowLevel == m.flowLevel + 1
  {
    hide Ink, WriteIndicator;
    IndicatorPrints(m, bracket, true, true, false);
    MarkInk(bracket);
  }

  lemma FlowSequenceStarts(m: M, n: Node, d: Data, next: Option<Event>, first: bool) returns (x: string)
    requires m.state == (if first then FlowSequenceFirstItem else FlowSequenceItem) && (first || m.flowLevel > 0)
    requires WellFormed(n) && Sees(next, n) && AnalyzeEvent(m, OpenOf(n)) == Some(d)
    requires EmitFlowSequence(m, OpenOf(n), d, next, first).Done?
    ensures Started(m, n, EmitFlowSequence(m, OpenOf(n), d, next, first).next, x)
  {
    hide Started, Ink, OpenFlow, BeforeEntry, EmitNode, AnalyzeEvent, SimpleKey;
    if first { OpenPrinted(m, "["); }
    var m0 := if first then OpenFlow(m, "[").next else m;
    EntryPrinted(m0, first);
    x := Via(m, PushState(BeforeEntry(m0, first), FlowSequenceItem), n, d, next, false, false);
  }

  lemma FlowMappingKeyStarts(m: M, n: Node, d: Data, next: Option<Event>, first: bool) returns (x: string)
    requires m.state == (if first then FlowMappingFirstKey else FlowMappingKey) && (first || m.flowLevel > 0)
    requires WellFormed(n) && Sees(next, n) && AnalyzeEvent(m, OpenOf(n)) == Some(d)
    requires EmitFlowMappingKey(m, OpenOf(n), d, next, first).Done?
    ensures Started(m, n, EmitFlowMappingKey(m, OpenOf(n), d, next, first).next, x)
  {
    hide Started, Ink, OpenFlow, BeforeEntry, EmitNode, AnalyzeEvent, SimpleAt, IsSimpleKey, WriteIndicator;
    if first { OpenPrinted(m, "{"); }
    var m0 := if first then OpenFlow(m, "{").next else m;
    EntryPrinted(m0, first);
    var m1 := BeforeEntry(m0, first);
    SimpleDecided(m, m1, n, d, next);
    if SimpleAt(m.state, EnvOf(m), n) {
      x := Via(m, PushState(m1, FlowMappingSimpleValue), n, d, next, false, true);
    } else {
      var m2 := Indicator(m1, "?", true, false, false);
      IndicatorPrints(m1, "?", true, false, false);
      MarkInk("?");
      x := Via(m, PushState(m2, FlowMappingValue), n, d, next, false, false);
    }
  }

  lemma FlowMappingValueStarts(m: M, n: Node, d: Data, next: Option<Event>, simple: bool) returns (x: string)
    requires m.state == (if simple then FlowMappingSimpleValue else FlowMappingValue) && m.flowLevel > 0
    requires WellFormed(n) && Sees(next, n) && AnalyzeEvent(m, OpenOf(n)) == Some(d)
    requires EmitFlowMappingValue(m, OpenOf(n), d, next, simple).Done?
    ensures Started(m, n, EmitFlowMappingValue(m, OpenOf(n), d, next, simple).next, x)
  {
    hide Started, Ink, EmitNode, AnalyzeEvent, SimpleKey, WriteIndicator, WriteIndent;
    IndentPrints(m);
    var m0 := if m.settings.canonical || m.sink.column > m.settings.bestWidth then Indent(m) else m;
    IndicatorPrints(m, ":", false, false, false);
    IndicatorPrints(m0, ":", true, false, false);
    MarkInk(":");
    var m1 := if simple then Indicator(m, ":", false, false, false) else Indicator(m0, ":", true, false, false);
    x := Via(m, PushState(m1, FlowMappingKey), n, d, next, false, false);
  }

  lemma BlockSequenceStarts(m: M, n: Node, d: Data, next: Option<Event>, first: bool) returns (x: string)
    requires m.state == (if first then BlockSequenceFirstItem else BlockSequenceItem) && m.flowLevel == 0
    requires WellFormed(n) && Sees(next, n) && AnalyzeEvent(m, OpenOf(n)) == Some(d)
    requires EmitBlockSequence(m, OpenOf(n), d, next, first).Done?
    ensures Started(m, n, EmitBlockSequence(m, OpenOf(n), d, next, first).next, x)
  {
    hide Started, Ink, EmitNode, AnalyzeEvent, SimpleKey, WriteIndicator, WriteIndent, Deeper;
    var m0 := if first then Increase(m, false).next else m;
    IndentPrints(m0);
    IndicatorPrints(Indent(m0), "-", true, false, true);
    MarkInk("-");
    x := Via(m, PushState(Indicator(Indent(m0), "-", true, false, true), BlockSequenceItem), n, d, next, false, false);
  }

  lemma BlockMappingKeyStarts(m: M, n: Node, d: Data, next: Option<Event>, first: bool) returns (x: string)
    requires m.state == (if first then BlockMappingFirstKey else BlockMappingKey) && m.flowLevel == 0
    requires WellFormed(n) && Sees(next, n) && AnalyzeEvent(m, OpenOf(n)) == Some(d)
    requires EmitBlockMappingKey(m, OpenOf(n), d, next, first).Done?
    ensures Started(m, n, EmitBlockMappingKey(m, OpenOf(n), d, next, first).next, x)
  {
    hide Started, Ink, EmitNode, AnalyzeEvent, SimpleAt, IsSimpleKey, WriteIndicator, WriteIndent, Deeper;
    var m0 := if first then Increase(m, false).next else m;
    IndentPrints(m0);
    var m1 := Indent(m0);
    SimpleDecided(m, m1, n, d, next);
    if SimpleAt(m.state, EnvOf(m), n) {
      x := Via(m, PushState(m1, BlockMappingSimpleValue), n, d, next, false, true);
    } else {
      IndicatorPrints(m1, "?", true, false, true);
      MarkInk("?");
      x := Via(m, PushState(Indicator(m1, "?", true, false, true), BlockMappingValue), n, d, next, false, false);
    }
  }

  lemma BlockMappingValueStarts(m: M, n: Node, d: Data, next: Option<Event>, simple: bool) returns (x: string)
    requires m.state == (if simple then BlockMappingSimpleValue else BlockMappingValue) && m.flowLevel == 0
    requires WellFormed(n) && Sees(next, n) && AnalyzeEvent(m, OpenOf(n)) == Some(d)
    requires EmitBlockMappingValue(m, OpenOf(n), d, next, simple).Done?
    ensures Started(m, n, EmitBlockMappingValue(m, OpenOf(n), d, next, simple).next, x)
  {
    hide Started, Ink, EmitNode, AnalyzeEvent, SimpleKey, WriteIndicator, WriteIndent;
    IndentPrints(m);
    IndicatorPrints(m, ":", false, false, false);
    IndicatorPrints(Indent(m), ":", true, false, true);
    MarkInk(":");
    var m1 := if simple then Indicator(m, ":", false, false, false) else Indicator(Indent(m), ":", true, false, true);
    x := Via(m, PushState(m1, BlockMappingKey), n, d, next, false, false);
  }

  lemma ContentStarts(m: M, n: Node, d: Data, next: Option<Event>) returns (x: string)
    requires m.state.DocumentContent? && m.flowLevel == 0
    requires WellFormed(n) && Sees(next, n) && AnalyzeEvent(m, OpenOf(n)) == Some(d)
    requires EmitNode(PushState(m, DocumentEndState), OpenOf(n), d, next, true, false).Done?
    ensures Started(m, n, EmitNode(PushState(m, DocumentEndState), OpenOf(n), d, next, true, false).next, x)
  {
    hide Started, Ink, EmitNode, AnalyzeEvent, SimpleKey;
    assert Ink(m.sink.out) + "" == Ink(m.sink.out);
    x := Via(m, PushState(m, DocumentEndState), n, d, next, true, false);
  }

  lemma {:induction false} NoFlowBelow(states: seq<EmitterState>, s: EmitterState)
    requires NoBlockInFlow(states, s) && !IsFlow(s)
    ensures FlowCount(states) == 0
    decreases |states|
  {
    if states != [] { NoFlowBelow(Init(states), Last(states)); }
  }

  lemma FlowLevelIs(m: M)
    requires Coherent(m) && TakesNodes(m.state)
    ensures !IsFlow(m.state) ==> m.flowLevel == 0
    ensures IsFlow(m.state) && !IsFirst(m.state) ==> m.flowLevel > 0
  {
    hide Tidy;
    if !m.state.DocumentContent? && !IsFlow(m.state) { NoFlowBelow(m.states, m.state); }
  }

  lemma NodeStarts(m: M, n: Node, next: Option<Event>) returns (x: string)
    requires Coherent(m) && TakesNodes(m.state) && WellFormed(n) && Sees(next, n)
    requires EmitEvent(m, OpenOf(n), next).Done?
    ensures Started(m, n, EmitEvent(m, OpenOf(n), next).next, x)
  {
    hide Started, Coherent, AnalyzeEvent, EmitNode, EmitFlowSequence, EmitFlowMappingKey, EmitFlowMappingValue,
      EmitBlockSequence, EmitBlockMappingKey, EmitBlockMappingValue;
    FlowLevelIs(m);
    var d := AnalyzeEvent(m, OpenOf(n)).value;
    match m.state {
      case DocumentContent => x := ContentStarts(m, n, d, next);
      case FlowSequenceFirstItem => x := FlowSequenceStarts(m, n, d, next, true);
      case FlowSequenceItem => x := FlowSequenceStarts(m, n, d, next, false);
      case FlowMappingFirstKey => x := FlowMappingKeyStarts(m, n, d, next, true);
      case FlowMappingKey => x := FlowMappingKeyStarts(m, n, d, next, false);
      case FlowMappingSimpleValue => x := FlowMappingValueStarts(m, n, d, next, true);
      case FlowMappingValue => x := FlowMappingValueStarts(m, n, d, next, false);
      case BlockSequenceFirstItem => x := BlockSequenceStarts(m, n, d, next, true);
      case BlockSequenceItem => x := BlockSequenceStarts(m, n, d, next, false);
      case BlockMappingFirstKey => x := BlockMappingKeyStarts(m, n, d, next, true);
      case BlockMappingKey => x := BlockMappingKeyStarts(m, n, d, next, false);
      case BlockMappingSimpleValue => x := BlockMappingValueStarts(m, n, d, next, true);
      case BlockMappingValue => x := BlockMappingValueStarts(m, n, d, next, false);
    }
  }

  // ----- The end of a collection -----

  /** What the end event prints. */
  function Trail(s: EmitterState, canonical: bool): string {
    var k := KindAt(s);
    (if IsFirst(s) then Opening(k) else if InFlow(k) && canonical then "," else "") + Closing(k)
  }

  lemma CommaPrinted(m: M, first: bool)
    ensures Ink(TrailingComma(m, first).sink.out) == Ink(m.sink.out) + (if m.settings.canonical && !first then "," else "")
    ensures EnvOf(TrailingComma(m, first)) == EnvOf(m)
  {
    hide Ink, WriteIndicator;
    IndicatorPrints(m, ",", false, false, false);
    MarkInk(",");
  }

  lemma ClosePrinted(m: M, bracket: string, indentWhen: bool)
    requires CloseFlow(m, bracket, indentWhen).Done? && (bracket == "]" || bracket == "}")
    ensures var r := CloseFlow(m, bracket, indentWhen).next;
      Ink(r.sink.out) == Ink(m.sink.out) + bracket && EnvOf(r) == EnvOf(m)
  {
    hide Ink, WriteIndicator, WriteIndent;
    var m1 := PopIndent(m.(flowLevel := m.flowLevel - 1)).next;
    IndentPrints(m1);
    IndicatorPrints(if indentWhen then Indent(m1) else m1, bracket, false, false, false);
    MarkInk(bracket);
  }

  lemma FlowEnds(m: M, e: Event, d: Data, next: Option<Event>)
    requires IsFlow(m.state) && EndsHere(m.state, e) && Dispatch(m, e, d, next).Done?
    ensures var r := Dispatch(m, e, d, next).next;
      Ink(r.sink.out) == Ink(m.sink.out) + Trail(m.state, m.settings.canonical) && EnvOf(r) == EnvOf(m)
  {
    hide Ink, OpenFlow, CloseFlow, TrailingComma, EmitNode, WriteIndicator, BeforeEntry;
    var first := IsFirst(m.state);
    var list := KindAt(m.state).FlowList?;
    var open, close := if list then "[" else "{", if list then "]" else "}";
    if first { OpenPrinted(m, open); }
    var m0 := if first then OpenFlow(m, open).next else m;
    CommaPrinted(m0, first);
    var m1 := TrailingComma(m0, first);
    var when := if list then m1.sink.column == 0 || (m1.settings.canonical && !first) else m1.settings.canonical && !first;
    assert Dispatch(m, e, d, next) == CloseFlow(m1, close, when);
    ClosePrinted(m1, close, when);
  }

  lemma BlockEnds(m: M, e: Event, d: Data, next: Option<Event>)
    requires InCollection(m.state) && !IsFlow(m.state) && EndsHere(m.state, e) && Dispatch(m, e, d, next).Done?
    ensures var r := Dispatch(m, e, d, next).next;
      Ink(r.sink.out) == Ink(m.sink.out) + Trail(m.state, m.settings.canonical) && EnvOf(r) == EnvOf(m)
  {
    hide Ink, EmitNode, WriteIndicator, WriteIndent;
  }

  lemma CollectionEnds(m: M, e: Event, next: Option<Event>)
    requires InCollection(m.state) && EndsHere(m.state, e) && EmitEvent(m, e, next).Done?
    ensures var r := EmitEvent(m, e, next).next;
      Ink(r.sink.out) == Ink(m.sink.out) + Trail(m.state, m.settings.canonical) && EnvOf(r) == EnvOf(m)
  {
    hide Dispatch, Ink, Trail, EndsHere;
    var d := AnalyzeEvent(m, e).value;
    if IsFlow(m.state) { FlowEnds(m, e, d, next); } else { BlockEnds(m, e, d, next); }
  }

  // ----- Trees -----

  /** `o` is `m` after the whole node `n`, shown as `x`. */
  ghost predicate PrintedNode(m: M, n: Node, o: Outcome, x: string) {
    var simple := SimpleAt(m.state, EnvOf(m), n);
    && o.Done? && Ink(o.next.sink.out) == Ink(m.sink.out) + Lead(m.state, simple) + x && EnvOf(o.next) == EnvOf(m)
    && Shows(n, IsFlow(m.state), simple, EnvOf(m), x)
  }

  lemma {:induction false} NodePrints(m: M, evs: seq<Event>, p: nat, n: Node) returns (x: string)
    requires Coherent(m) && TakesNodes(m.state) && WellFormed(n)
    requires p + |Flatten(n)| <= |evs| && evs[p..p + |Flatten(n)|] == Flatten(n)
    requires AllAcceptable(evs, p, p + |Flatten(n)|)
    ensures PrintedNode(m, n, EmitRange(m, evs, p, p + |Flatten(n)|), x)
    decreases n, 1
  {
    hide EmitEvent, Coherent, Acceptable, AllAcceptable, Shows, Started, Ink, Lead, SimpleAt, Restored;
    var k := p + |Flatten(n)|;
    FirstEvent(evs, p, n);
    FirstAcceptable(evs, p, k);
    StartMoves(m, OpenOf(n), Look(evs, p));
    var m1 := EmitEvent(m, OpenOf(n), Look(evs, p)).next;
    var head := NodeStarts(m, n, Look(evs, p));
    if n.Leaf? {
      OneEvent(m, evs, p);
      LeafShown(m, n, m1, head);
      x := head;
    } else {
      var ns := if n.Sequence? then n.items else n.content;
      TakesNodeStack(m);
      Opened(m, OpenOf(n), m1);
      x := CollectionPrints(m, evs, p, n, ns, m1, head);
    }
  }

  lemma FirstEvent(evs: seq<Event>, p: nat, n: Node)
    requires WellFormed(n) && p + |Flatten(n)| <= |evs| && evs[p..p + |Flatten(n)|] == Flatten(n)
    ensures evs[p] == OpenOf(n) && IsNodeStart(evs[p]) && Sees(Look(evs, p), n)
  {
    hide FlattenAll;
    assert evs[p] == evs[p..p + |Flatten(n)|][0];
    match n {
      case Leaf(_) =>
      case Sequence(e, items) => SecondEvent(evs, p, e, items, SequenceEnd);
      case Mapping(e, content) => SecondEvent(evs, p, e, content, MappingEnd);
    }
  }

  lemma SecondEvent(evs: seq<Event>, p: nat, e: Event, ns: seq<Node>, end: Event)
    requires (end.SequenceEnd? || end.MappingEnd?) && forall i :: 0 <= i < |ns| ==> WellFormed(ns[i])
    requires var f := [e] + FlattenAll(ns) + [end]; p + |f| <= |evs| && evs[p..p + |f|] == f
    ensures Look(evs, p) == Some(end) <==> ns == []
  {
    var f := [e] + FlattenAll(ns) + [end];
    assert evs[p + 1] == evs[p..p + |f|][1] == f[1];
    if ns != [] {
      assert f[1] == Flatten(ns[0])[0];
      assert WellFormed(ns[0]);
    }
  }

  lemma LeafShown(m: M, n: Node, r: M, x: string)
    requires n.Leaf? && Started(m, n, r, x)
    ensures PrintedNode(m, n, Done(r), x)
  {
    hide Ink, Lead, SimpleAt, ShowsLeaf;
  }

  lemma {:induction false} CollectionPrints(m: M, evs: seq<Event>, p: nat, n: Node, ns: seq<Node>, m1: M, head: string) returns (x: string)
    requires Coherent(m) && TakesNodes(m.state) && WellFormed(n) && !n.Leaf? && ns == (if n.Sequence? then n.items else n.content)
    requires p + |Flatten(n)| <= |evs| && evs[p..p + |Flatten(n)|] == Flatten(n) && AllAcceptable(evs, p, p + |Flatten(n)|)
    requires EmitEvent(m, OpenOf(n), Look(evs, p)) == Done(m1) && evs[p] == OpenOf(n) && Started(m, n, m1, head)
    requires Coherent(m1) && InCollection(m1.state) && Frames(m1.state) == (if n.Sequence? then [InSequence] else [AtKey])
    ensures PrintedNode(m, n, EmitRange(m, evs, p, p + |Flatten(n)|), x)
    decreases ns, 3
  {
    hide EmitEvent, Coherent, Acceptable, Started, Frames, FlattenAll, EndsHere, Shows, ShowsAll, Ink, PrintedNode, Filled, Lead, SimpleAt, Trail;
    var e, end := OpenOf(n), if n.Sequence? then SequenceEnd else MappingEnd;
    var q := p + 1 + |FlattenAll(ns)|;
    Ends(evs, p, e, FlattenAll(ns), end);
    var body := NodesPrint(m1, evs, p + 1, ns);
    NodesRestore(m1, evs, p + 1, ns);
    var m2 := EmitRange(m1, evs, p + 1, q).next;
    FilledFrames(m1, |ns|, m2);
    CanEnd(m1.state, m2.state, |ns|, e, end);
    EndMoves(m2, end, Look(evs, q));
    CollectionEnds(m2, end, Look(evs, q));
    RangeSplit(m, evs, p, q, q + 1);
    RangeSplit(m, evs, p, p + 1, q);
    OneEvent(m, evs, p);
    OneEvent(m2, evs, q);
    x := CollectionShown(m, n, ns, m1, head, body, m2, EmitEvent(m2, end, Look(evs, q)).next);
  }

  lemma FilledFrames(m: M, k: nat, r: M)
    requires Filled(m, k, Done(r))
    ensures Coherent(r) && InCollection(r.state) && Frames(r.state) == Turn(Frames(m.state), k)
  {
    hide Coherent;
  }

  /** Opening, content and closing put together. */
  lemma CollectionShown(m: M, n: Node, ns: seq<Node>, m1: M, head: string, body: string, m2: M, r: M) returns (x: string)
    requires !n.Leaf? && ns == (if n.Sequence? then n.items else n.content)
    requires Started(m, n, m1, head) && PrintedNodes(m1, ns, m2, body)
    requires Ink(r.sink.out) == Ink(m2.sink.out) + Trail(m2.state, m2.settings.canonical) && EnvOf(r) == EnvOf(m2)
    ensures PrintedNode(m, n, Done(r), x)
  {
    hide Ink, Lead, SimpleAt, Shows, ShowsAll, KindOf, PropertiesInk, Opening, Closing;
    var k := KindAt(m1.state);
    var simple, comma := SimpleAt(m.state, EnvOf(m), n), if InFlow(k) && m.settings.canonical && ns != [] then "," else "";
    x := head + Opening(k) + body + comma + Closing(k);
    ShownWhole(n, ns, IsFlow(m.state), simple, EnvOf(m), k, body);
    if ns == [] {
      NothingShown(k, IsFirst(m1.state), SecondAt(m1.state), EnvOf(m1), body);
      RegroupEmpty(Ink(m.sink.out) + Lead(m.state, simple), head, Opening(k), Closing(k));
    } else {
      RegroupFull(Ink(m.sink.out) + Lead(m.state, simple), head, Opening(k), body, comma, Closing(k));
    }
  }

  lemma ShownWhole(n: Node, ns: seq<Node>, flow: bool, simple: bool, env: Env, k: Kind, body: string)
    requires !n.Leaf? && ns == (if n.Sequence? then n.items else n.content) && k == KindOf(env, n, flow)
    requires ShowsAll(ns, k, true, false, env, body)
    ensures Shows(n, flow, simple, env, PropertiesInk(env, OpenOf(n)) + Opening(k) + body
      + (if InFlow(k) && env.settings.canonical && ns != [] then "," else "") + Closing(k))
  {
    hide ShowsAll, KindOf, PropertiesInk, Opening, Closing;
  }

  lemma RegroupEmpty(a: string, head: string, open: string, close: string)
    ensures (a + head) + "" + "" + (open + close) == a + (head + open + "" + "" + close)
  {
  }

  lemma RegroupFull(a: string, head: string, open: string, body: string, comma: string, close: string)
    ensures ((a + head) + open + body) + (comma + close) == a + (head + open + body + comma + close)
  {
  }

  lemma NothingShown(k: Kind, first: bool, second: bool, env: Env, ink: string)
    requires ShowsAll([], k, first, second, env, ink)
    ensures ink == ""
  {
  }

  /** `r` is `m` after the nodes `ns` of the open collection, shown as `body`. */
  ghost predicate PrintedNodes(m: M, ns: seq<Node>, r: M, body: string) {
    && Ink(r.sink.out) == Ink(m.sink.out) + (if IsFirst(m.state) && ns != [] then Opening(KindAt(m.state)) else "") + body
    && EnvOf(r) == EnvOf(m) && KindAt(r.state) == KindAt(m.state) && IsFirst(r.state) == (IsFirst(m.state) && ns == [])
    && ShowsAll(ns, KindAt(m.state), IsFirst(m.state), SecondAt(m.state), EnvOf(m), body)
  }

  lemma {:induction false} NodesPrint(m: M, evs: seq<Event>, p: nat, ns: seq<Node>) returns (body: string)
    requires Coherent(m) && InCollection(m.state)
    requires forall i :: 0 <= i < |ns| ==> WellFormed(ns[i])
    requires var k := p + |FlattenAll(ns)|;
      k <= |evs| && evs[p..k] == FlattenAll(ns) && AllAcceptable(evs, p, k)
    ensures EmitRange(m, evs, p, p + |FlattenAll(ns)|).Done?
    ensures PrintedNodes(m, ns, EmitRange(m, evs, p, p + |FlattenAll(ns)|).next, body)
    decreases ns, 2
  {
    hide EmitEvent, Coherent, Acceptable, Settle, ShapeOf, PrintedNode, PrintedNodes, Frames;
    if ns == [] {
      body := "";
      NothingPrinted(m);
    } else {
      var q, k := p + |Flatten(ns[0])|, p + |FlattenAll(ns)|;
      Halves(evs, p, Flatten(ns[0]), FlattenAll(ns[1..]));
      NodeRestores(m, evs, p, ns[0]);
      var x := NodePrints(m, evs, p, ns[0]);
      var r := EmitRange(m, evs, p, q).next;
      ContinuesKeeps(m.state, r.state);
      var rest := NodesPrint(r, evs, q, ns[1..]);
      RangeSplit(m, evs, p, q, k);
      body := OneMore(m, ns, r, x, EmitRange(r, evs, q, k).next, rest);
    }
  }

  lemma NothingPrinted(m: M)
    ensures PrintedNodes(m, [], m, "")
  {
    hide Ink;
    assert Ink(m.sink.out) + "" + "" == Ink(m.sink.out);
  }

  lemma OneMore(m: M, ns: seq<Node>, r: M, x: string, z: M, rest: string) returns (body: string)
    requires ns != [] && InCollection(m.state) && Continues(m.state, r.state)
    requires PrintedNode(m, ns[0], Done(r), x) && PrintedNodes(r, ns[1..], z, rest)
    ensures PrintedNodes(m, ns, z, body)
  {
    hide Ink, Shows, SimpleKey, ShowsAll, Opening, Before;
    var s, k, simple := m.state, KindAt(m.state), SimpleAt(m.state, EnvOf(m), ns[0]);
    var open, before := if IsFirst(s) then Opening(k) else "", Before(k, IsFirst(s), SecondAt(s), simple);
    body := before + x + rest;
    KindKept(s, r.state);
    ShownMore(ns, k, IsFirst(s), SecondAt(s), EnvOf(m), x, rest);
    Regroup(Ink(m.sink.out), open, before, x, rest);
  }

  lemma KindKept(s: EmitterState, c: EmitterState)
    requires InCollection(s) && Continues(s, c)
    ensures KindAt(c) == KindAt(s) && !IsFirst(c) && SecondAt(c) == (IsTable(KindAt(s)) && !SecondAt(s)) && IsFlow(s) == InFlow(KindAt(s))
  {
  }

  lemma ShownMore(ns: seq<Node>, k: Kind, first: bool, second: bool, env: Env, x: string, rest: string)
    requires ns != []
    requires var simple := IsTable(k) && !second && SimpleKey(env, k, ns[0]);
      Shows(ns[0], InFlow(k), simple, env, x) && ShowsAll(ns[1..], k, false, IsTable(k) && !second, env, rest)
    ensures ShowsAll(ns, k, first, second, env, Before(k, first, second, IsTable(k) && !second && SimpleKey(env, k, ns[0])) + x + rest)
  {
    hide Shows, SimpleKey, Before;
  }

  lemma Regroup(a: string, b: string, c: string, x: string, rest: string)
    ensures ((a + (b + c)) + x) + "" + rest == (a + b) + (c + x + rest)
  {
  }

  /** The emitter prints the root of a document as the recursive printer does. */
  lemma TreeIsPrinted(m: M, evs: seq<Event>, p: nat, n: Node)
    requires Coherent(m) && m.state.DocumentContent? && WellFormed(n)
    requires p + |Flatten(n)| <= |evs| && evs[p..p + |Flatten(n)|] == Flatten(n)
    requires AllAcceptable(evs, p, p + |Flatten(n)|)
    ensures EmitRange(m, evs, p, p + |Flatten(n)|).Done?
    ensures exists ink: string ::
      && Shows(n, false, false, EnvOf(m), ink)
      && Ink(EmitRange(m, evs, p, p + |Flatten(n)|).next.sink.out) == Ink(m.sink.out) + ink
  {
    hide EmitEvent, Coherent, Acceptable, AllAcceptable, Shows, Ink;
    var x := NodePrints(m, evs, p, n);
    assert Ink(m.sink.out) + "" + x == Ink(m.sink.out) + x;
  }

  // ----- Documents -----

  /** The style of a root in terms of the event: plain is neither forbidden by the value nor by the flags. */
  lemma PlainRootIs(e: Event, env: Env)
    requires e.Scalar?
    ensures PlainRoot(Leaf(e), env) <==>
      && !env.settings.canonical && (e.style.AnyStyle? || e.style.PlainStyle?)
      && SingleTrimmedLine(e.value) && Quotable(e.value, env.settings.unicode) && NoBlockIndicator(e.value)
      && (e.implicit || !Unmarked(env, e))
  {
    hide AnalysisOf, MayBePlain, MayBeQuoted, MayBeBlock, SpansLines, Shorthand;
    SamePlain(e.value, false, false, env.settings.unicode);
    PlainInBlocks(e.value, env.settings.unicode);
  }

  lemma PlainInBlocks(v: string, unicode: bool)
    ensures AnalysisOf(v, unicode).blockPlainAllowed <==> SingleTrimmedLine(v) && Quotable(v, unicode) && NoBlockIndicator(v)
  {
  }

  lemma DotsPrinted(m: M)
    ensures Ink(WriteDots(m).sink.out) == Ink(m.sink.out) + "..." && EnvOf(WriteDots(m)) == EnvOf(m)
    ensures !WriteDots(m).openEnded
  {
    hide Ink, WriteIndicator, WriteIndent;
    IndicatorPrints(m, "...", true, false, false);
    MarkInk("...");
    IndentPrints(Indicator(m, "...", true, false, false));
  }

  lemma DirectivePrinted(m: M, d: (string, string))
    ensures Ink(WriteDirective(m, d).sink.out) == Ink(m.sink.out) + ("%TAG" + Ink(d.0) + Ink(TagUri.TagText(d.1)))
    ensures EnvOf(WriteDirective(m, d)) == EnvOf(m)
  {
    hide Ink, WriteIndicator, WriteIndent, Word, TagUri.TagText;
    var m1 := Indicator(m, "%TAG", true, false, false);
    IndicatorPrints(m, "%TAG", true, false, false);
    MarkInk("%TAG");
    WordInk(m1.sink, d.0, true);
    WordInk(Word(m1.sink, d.0, true), TagUri.TagText(d.1), true);
    IndentPrints(m1.(sink := Word(Word(m1.sink, d.0, true), TagUri.TagText(d.1), true)));
  }

  lemma {:induction false} DirectivesPrinted(m: M, ds: seq<(string, string)>)
    ensures Ink(WriteDirectives(m, ds).sink.out) == Ink(m.sink.out) + DirectivesInk(ds) && EnvOf(WriteDirectives(m, ds)) == EnvOf(m)
    decreases |ds|
  {
    hide Ink, WriteDirective, TagUri.TagText;
    if ds != [] {
      DirectivePrinted(m, ds[0]);
      DirectivesPrinted(WriteDirective(m, ds[0]), ds[1..]);
    }
  }

  lemma HeaderPrinted(m: M, e: Event, first: bool)
    requires e.DocumentStart?
    ensures var r := DocumentHeader(m, e, first);
      Ink(r.sink.out) == Ink(m.sink.out) + StartInk(e, first, m.openEnded, m.settings.canonical) && EnvOf(r) == EnvOf(m)
  {
    hide Ink, WriteIndicator, WriteIndent, WriteDirectives, WriteDots, DirectivesInk, Indicator, Indent;
    var dots := m.openEnded && (e.version || e.directives != []);
    var m0 := if dots then WriteDots(m) else m;
    DotsPrinted(m);
    VersionPrinted(m0);
    var m3 := if e.version then VersionText(m0) else m0;
    DirectivesPrinted(m3, e.directives);
    var m4 := WriteDirectives(m3, e.directives);
    MarkerPrinted(m4);
    FourParts(Ink(m.sink.out), if dots then "..." else "", if e.version then "%YAML1.1" else "", DirectivesInk(e.directives),
      if e.implicitStart && first && !m.settings.canonical && !e.version && e.directives == [] then "" else "---");
  }

  function VersionText(m: M): M {
    Indent(Indicator(Indicator(m, "%YAML", true, false, false), "1.1", true, false, false))
  }

  lemma VersionPrinted(m: M)
    ensures Ink(VersionText(m).sink.out) == Ink(m.sink.out) + "%YAML1.1" && EnvOf(VersionText(m)) == EnvOf(m)
  {
    hide Ink, WriteIndicator, WriteIndent;
    var m1 := Indicator(m, "%YAML", true, false, false);
    IndicatorPrints(m, "%YAML", true, false, false);
    IndicatorPrints(m1, "1.1", true, false, false);
    MarkInk("%YAML");
    MarkInk("1.1");
    IndentPrints(Indicator(m1, "1.1", true, false, false));
    assert "%YAML" + "1.1" == "%YAML1.1";
  }

  lemma MarkerPrinted(m: M)
    ensures var r := Indent(Indicator(Indent(m), "---", true, false, false));
      Ink(r.sink.out) == Ink(m.sink.out) + "---" && EnvOf(r) == EnvOf(m)
  {
    hide Ink, WriteIndicator, WriteIndent;
    IndentPrints(m);
    IndicatorPrints(Indent(m), "---", true, false, false);
    MarkInk("---");
    IndentPrints(Indicator(Indent(m), "---", true, false, false));
  }

  lemma FourParts(a: string, b: string, c: string, d: string, e: string)
    ensures (((a + b) + c) + d) + e == a + (b + c + d + e)
    ensures a + "" == a
  {
  }

  lemma {:induction false} AllAdded(ds: seq<(string, string)>, given: seq<(string, string)>)
    ensures AddDirectives(ds, given).Directives? ==> AddDirectives(ds, given).all == ds + given
    decreases |given|
  {
    if given != [] && ValidDirective(given[0]) && !HasHandle(ds, given[0].0) {
      AllAdded(ds + [given[0]], given[1..]);
      assert (ds + [given[0]]) + given[1..] == ds + given;
    } else {
      assert given == [] ==> ds + given == ds;
    }
  }

  lemma StartPrinted(m: M, e: Event, next: Option<Event>)
    requires Coherent(m) && (m.state.FirstDocumentStart? || m.state.NextDocumentStart?) && e.DocumentStart? && Acceptable(e)
    ensures EmitEvent(m, e, next).Done?
    ensures var r := EmitEvent(m, e, next).next;
      && Coherent(r) && r.state.DocumentContent? && EnvOf(r) == Env(m.settings, InForce(e.directives))
      && Ink(r.sink.out) == Ink(m.sink.out) + StartInk(e, m.state.FirstDocumentStart?, m.openEnded, m.settings.canonical)
  {
    hide Ink, DocumentHeader, AddDefaults, InForce, StartInk, Acceptable, StackOf;
    ForceAgrees(e.directives);
    EveryEventIsAnswered(m, e, next);
    assert Step(StackOf(m), e).Some? by { BetweenDocuments(m, e); }
    AllAdded([], e.directives);
    assert [] + e.directives == e.directives;
    HeaderPrinted(m.(directives := AddDefaults(e.directives)), e, m.state.FirstDocumentStart?);
  }

  lemma BetweenDocuments(m: M, e: Event)
    requires Coherent(m) && (m.state.FirstDocumentStart? || m.state.NextDocumentStart?) && (e.DocumentStart? || e.StreamEnd?)
    ensures Step(StackOf(m), e).Some?
  {
  }

  lemma EndPrinted(m: M, e: Event, next: Option<Event>)
    requires Coherent(m) && m.state.DocumentEndState? && e.DocumentEnd?
    ensures EmitEvent(m, e, next).Done?
    ensures var r := EmitEvent(m, e, next).next;
      && Coherent(r) && r.state.NextDocumentStart? && r.settings == m.settings && r.openEnded == (m.openEnded && e.implicitEnd)
      && Ink(r.sink.out) == Ink(m.sink.out) + (if e.implicitEnd then "" else "...")
  {
    hide Ink, WriteDots, WriteIndent, AllAlpha;
    EmptyIsAlpha();
    EveryEventIsAnswered(m, e, next);
    var m0 := m.(sink := m.sink.(footIndent := -1));
    IndentPrints(m0);
    DotsPrinted(Indent(m0));
  }

  lemma StreamEndPrinted(m: M, next: Option<Event>)
    requires Coherent(m) && (m.state.FirstDocumentStart? || m.state.NextDocumentStart?)
    ensures EmitEvent(m, StreamEnd, next).Done?
    ensures Ink(EmitEvent(m, StreamEnd, next).next.sink.out) == Ink(m.sink.out) + if m.openEnded then "..." else ""
  {
    hide AllAlpha, Ink, WriteDots;
    EmptyIsAlpha();
    DotsPrinted(m);
    assert Ink(m.sink.out) + "" == Ink(m.sink.out);
  }

  lemma ShownDocument(docs: seq<Document>, first: bool, open: bool, settings: Settings, x: string, rest: string)
    requires docs != [] && WholeDocument(docs[0])
    requires ShowsDocuments(docs[1..], false, LeftOpen(docs[0], settings), settings, rest)
    requires Shows(docs[0].root, false, false, EnvIn(docs[0], settings), x)
    ensures ShowsDocuments(docs, first, open, settings,
      StartInk(docs[0].start, first, open, settings.canonical) + x + (if docs[0].end.implicitEnd then "" else "...") + rest)
  {
    hide Shows, StartInk, InForce, WellFormed, PlainRoot;
  }

  /** One document. Behind it the text is open-ended exactly when the document was left open. */
  lemma DocumentPrints(m: M, evs: seq<Event>, p: nat, d: Document, rest: seq<Document>) returns (r: M, x: string)
    requires Coherent(m) && (m.state.FirstDocumentStart? || m.state.NextDocumentStart?) && WholeDocument(d)
    requires var f := [d.start] + (Flatten(d.root) + ([d.end] + EventsOf(rest))); p + |f| == |evs| && evs[p..] == f
    requires AllAcceptable(evs, p, |evs|)
    ensures EmitRange(m, evs, p, p + 2 + |Flatten(d.root)|) == Done(r)
    ensures Coherent(r) && r.state.NextDocumentStart? && r.settings == m.settings && r.openEnded == LeftOpen(d, m.settings)
    ensures Shows(d.root, false, false, EnvIn(d, m.settings), x)
    ensures Ink(r.sink.out) == Ink(m.sink.out)
      + (StartInk(d.start, m.state.FirstDocumentStart?, m.openEnded, m.settings.canonical) + x + (if d.end.implicitEnd then "" else "..."))
  {
    hide EmitEvent, Coherent, Acceptable, AllAcceptable, Shows, Ink, InForce, StartInk, Flatten, EventsOf, PlainRoot;
    var q := p + 1 + |Flatten(d.root)|;
    DocumentParts(evs, p, d, rest);
    StartPrinted(m, d.start, Look(evs, p));
    OneEvent(m, evs, p);
    var m1 := EmitEvent(m, d.start, Look(evs, p)).next;
    var m2;
    m2, x := RootPrints(m1, evs, p + 1, d.root);
    EndPrinted(m2, d.end, Look(evs, q));
    OneEvent(m2, evs, q);
    r := EmitEvent(m2, d.end, Look(evs, q)).next;
    RangeSplit(m, evs, p, p + 1, q + 1);
    RangeSplit(m1, evs, p + 1, q, q + 1);
    ThreeParts(Ink(m.sink.out), StartInk(d.start, m.state.FirstDocumentStart?, m.openEnded, m.settings.canonical), x, if d.end.implicitEnd then "" else "...");
  }

  lemma {:induction false} DocumentsPrint(m: M, evs: seq<Event>, p: nat, docs: seq<Document>) returns (ink: string)
    requires Coherent(m) && (m.state.FirstDocumentStart? || m.state.NextDocumentStart?)
    requires forall i :: 0 <= i < |docs| ==> WholeDocument(docs[i])
    requires p + |EventsOf(docs)| == |evs| && evs[p..] == EventsOf(docs) && AllAcceptable(evs, p, |evs|)
    ensures EmitRange(m, evs, p, |evs|).Done?
    ensures Ink(EmitRange(m, evs, p, |evs|).next.sink.out) == Ink(m.sink.out) + ink
    ensures ShowsDocuments(docs, m.state.FirstDocumentStart?, m.openEnded, m.settings, ink)
    decreases |docs|
  {
    hide EmitEvent, Coherent, Acceptable, Shows, Ink, ShowsDocuments, InForce, StartInk, Flatten, EmitRange, LeftOpen;
    if docs == [] {
      assert evs[p] == evs[p..][0] == StreamEnd;
      StreamEndPrinted(m, Look(evs, p));
      OneEvent(m, evs, p);
      ink := if m.openEnded then "..." else "";
      NoDocuments(m.state.FirstDocumentStart?, m.openEnded, m.settings);
    } else {
      var d, rest := docs[0], docs[1..];
      DocumentParts(evs, p, d, rest);
      var m1, x := DocumentPrints(m, evs, p, d, rest);
      var more := DocumentsPrint(m1, evs, p + 2 + |Flatten(d.root)|, rest);
      RangeSplit(m, evs, p, p + 2 + |Flatten(d.root)|, |evs|);
      var first := m.state.FirstDocumentStart?;
      ink := StartInk(d.start, first, m.openEnded, m.settings.canonical) + x + (if d.end.implicitEnd then "" else "...") + more;
      ShownDocument(docs, first, m.openEnded, m.settings, x, more);
    }
  }

  lemma NoDocuments(first: bool, open: bool, settings: Settings)
    ensures ShowsDocuments([], first, open, settings, if open then "..." else "")
  {
  }

  lemma RootPrints(m: M, evs: seq<Event>, p: nat, n: Node) returns (r: M, x: string)
    requires Coherent(m) && m.state.DocumentContent? && WellFormed(n)
    requires p + |Flatten(n)| <= |evs| && evs[p..p + |Flatten(n)|] == Flatten(n) && AllAcceptable(evs, p, p + |Flatten(n)|)
    ensures EmitRange(m, evs, p, p + |Flatten(n)|) == Done(r) && Coherent(r) && r.state.DocumentEndState?
    ensures Ink(r.sink.out) == Ink(m.sink.out) + x && EnvOf(r) == EnvOf(m) && Shows(n, false, false, EnvOf(m), x)
    ensures r.openEnded == PlainRoot(n, EnvOf(m))
  {
    hide EmitEvent, Coherent, Acceptable, AllAcceptable, Shows, Ink, Settle, StyleIn, Shorthand;
    NodeRestores(m, evs, p, n);
    if n.Leaf? {
      FirstEvent(evs, p, n);
      FirstAcceptable(evs, p, p + |Flatten(n)|);
      OneEvent(m, evs, p);
      RootOpens(m, n.leaf, Look(evs, p));
    }
    x := NodePrints(m, evs, p, n);
    r := EmitRange(m, evs, p, p + |Flatten(n)|).next;
    assert Ink(m.sink.out) + "" + x == Ink(m.sink.out) + x;
  }

  /** A root that is one event leaves the text open-ended exactly when it is printed plain. */
  lemma RootOpens(m: M, e: Event, next: Option<Event>)
    requires Coherent(m) && m.state.DocumentContent? && (e.Alias? || e.Scalar?) && Acceptable(e)
    ensures EmitEvent(m, e, next).Done?
    ensures EmitEvent(m, e, next).next.openEnded == PlainRoot(Leaf(e), EnvOf(m))
  {
    hide Coherent, Ready, ChosenStyle, EmitScalar, StyleIn, ProcessAnchor;
    StartMoves(m, e, next);
    SameSettles(m);
    SettledTidy(m, m);
    SettledReady(m, m, DocumentEndState);
    FlowLevelIs(m);
    var p, d := PushState(m, DocumentEndState), AnalyzeEvent(m, e).value;
    assert AnalyzeEvent(p, e) == Some(d);
    if e.Scalar? {
      ScalarOpens(p, e, d, true, false);
      SameStyle(p, e, d, false, false);
    } else {
      PushedTidy(m, DocumentEndState);
      PropertiesPrint(p, d, d);
    }
  }

  lemma DocumentParts(evs: seq<Event>, p: nat, d: Document, rest: seq<Document>)
    requires var f := [d.start] + (Flatten(d.root) + ([d.end] + EventsOf(rest))); p + |f| == |evs| && evs[p..] == f
    requires AllAcceptable(evs, p, |evs|)
    ensures var q := p + 1 + |Flatten(d.root)|;
      && evs[p] == d.start && evs[p + 1..q] == Flatten(d.root) && evs[q] == d.end && evs[q + 1..] == EventsOf(rest)
      && Acceptable(d.start) && AllAcceptable(evs, p + 1, q) && AllAcceptable(evs, q + 1, |evs|)
  {
    hide Acceptable, Flatten, EventsOf;
    var n, f := |Flatten(d.root)|, evs[p..];
    assert evs[p] == f[0] && evs[p + 1 + n] == f[1 + n];
    assert f[1..1 + n] == Flatten(d.root) && f[2 + n..] == EventsOf(rest);
    assert evs[p + 1..p + 1 + n] == f[1..1 + n] && evs[p + 2 + n..] == f[2 + n..];
  }

  /** What `EmitStreamStart` makes of the settings. */
  function Corrected(settings: Settings): Settings {
    var indent := if settings.bestIndent < 2 || settings.bestIndent > 9 then 2 else settings.bestIndent;
    settings.(bestIndent := indent,
              bestWidth := if settings.bestWidth < 0 then 0x7FFF_FFFF else if settings.bestWidth <= 2 * indent then 80 else settings.bestWidth)
  }

  /** Every stream of documents is emitted, and apart from layout the text is what the recursive
      printer gives for its trees. */
  lemma StreamIsPrinted(settings: Settings, docs: seq<Document>)
    requires forall i :: 0 <= i < |docs| ==> WholeDocument(docs[i])
    requires var evs := [StreamStart] + EventsOf(docs); AllAcceptable(evs, 0, |evs|)
    ensures var evs := [StreamStart] + EventsOf(docs);
      var o := EmitRange(Initial(settings), evs, 0, |evs|);
      o.Done? && ShowsDocuments(docs, true, false, Corrected(settings), Ink(o.next.sink.out))
  {
    hide EmitEvent, Coherent, Acceptable, ShowsDocuments, Ink, WholeDocument, EventsOf, EmitRange;
    var evs := [StreamStart] + EventsOf(docs);
    var m1 := StreamStarts(settings, Look(evs, 0));
    assert evs[1..] == EventsOf(docs);
    var ink := DocumentsPrint(m1, evs, 1, docs);
    RangeSplit(Initial(settings), evs, 0, 1, |evs|);
    OneEvent(Initial(settings), evs, 0);
    EmptyInk();
    assert "" + ink == ink;
  }

  /** The smallest stream that ends in `...`: one document without markers, holding the plain scalar `a`. */
  lemma PlainRootEndsInDots(settings: Settings)
    requires !settings.canonical
    ensures var evs := [StreamStart, DocumentStart(true, false, []), Scalar("", "", "a", true, false, PlainStyle), DocumentEnd(true), StreamEnd];
      var o := EmitRange(Initial(settings), evs, 0, |evs|);
      o.Done? && Ink(o.next.sink.out) == "a..."
  {
    hide EmitRange, Acceptable, ShowsDocuments, Shows, StartInk, PlainRoot;
    var e := Scalar("", "", "a", true, false, PlainStyle);
    var d := Document(DocumentStart(true, false, []), Leaf(e), DocumentEnd(true));
    var evs := [StreamStart, d.start, e, d.end, StreamEnd];
    assert EventsOf([d]) == [d.start] + (Flatten(d.root) + ([d.end] + EventsOf([])));
    assert [StreamStart] + EventsOf([d]) == evs;
    assert forall i :: 0 <= i < |evs| ==> Acceptable(evs[i]) by { SmallAcceptable(); }
    StreamIsPrinted(settings, [d]);
    SmallShown(Corrected(settings), d, Ink(EmitRange(Initial(settings), evs, 0, |evs|).next.sink.out));
  }

  lemma SmallAcceptable()
    ensures Acceptable(StreamStart) && Acceptable(DocumentStart(true, false, [])) && Acceptable(DocumentEnd(true)) && Acceptable(StreamEnd)
    ensures Acceptable(Scalar("", "", "a", true, false, PlainStyle))
  {
  }

  lemma SmallShown(settings: Settings, d: Document, ink: string)
    requires !settings.canonical && ShowsDocuments([d], true, false, settings, ink)
    requires d == Document(DocumentStart(true, false, []), Leaf(Scalar("", "", "a", true, false, PlainStyle)), DocumentEnd(true))
    ensures ink == "a..."
  {
    hide Shows, Ink, InForce, PlainRoot;
    assert [d][1..] == [];
    SmallIsPlain(d.root.leaf, EnvIn(d, settings));
    var x: string, rest: string :| Shows(d.root, false, false, EnvIn(d, settings), x)
      && ShowsDocuments([], false, LeftOpen(d, settings), settings, rest) && ink == "" + x + "" + rest;
    SmallRoot(d.root.leaf, EnvIn(d, settings), x);
  }

  lemma SmallIsPlain(e: Event, env: Env)
    requires e == Scalar("", "", "a", true, false, PlainStyle) && !env.settings.canonical
    ensures PlainRoot(Leaf(e), env)
  {
    hide PlainRoot;
    PlainRootIs(e, env);
  }

  lemma SmallRoot(e: Event, env: Env, x: string)
    requires e == Scalar("", "", "a", true, false, PlainStyle) && PlainRoot(Leaf(e), env) && Shows(Leaf(e), false, false, env, x)
    ensures x == "a"
  {
    SolidInk("a");
  }

  lemma StreamStarts(settings: Settings, next: Option<Event>) returns (r: M)
    ensures EmitEvent(Initial(settings), StreamStart, next) == Done(r)
    ensures Coherent(r) && r.state.FirstDocumentStart? && r.sink.out == "" && !r.openEnded && r.settings == Corrected(settings)
  {
    hide AllAlpha;
    EmptyIsAlpha();
    InitialIsCoherent(settings);
    EveryEventIsAnswered(Initial(settings), StreamStart, next);
    r := EmitEvent(Initial(settings), StreamStart, next).next;
  }
}
