/** What the emitter prints behind a scalar ends it. Whatever events come, the next character printed is a
    comma, a bracket, a `:` with a blank behind it, or the text goes on in a line that is too far to the left
    or begins with a document marker. */
module WhatFollows {
  import opened Chars
  import opened Options
  import opened Events
  import opened ScalarEmitter
  import opened ScalarScanner
  import opened TextReading
  import opened PlainScalars
  import opened EmitterMachine
  import opened EmitterGrammar
  import opened EmitterRuns
  import opened EmittedText
  import Single = SingleQuotedScalars
  import Double = DoubleQuotedScalars
  import TagUri

  // ----- What ends a plain scalar -----

  /** Behind the scalar, whose end is at `q`, `t` has gone on so that it ends there, whatever comes; for a quoted
      scalar it is enough that no quote follows. */
  ghost predicate Ended(t: string, q: nat, col: nat, w: Where, plain: bool) {
    q < |t| && t[q] != '\'' && (plain ==> forall r: string :: PlainEnds(t + r, q, col, w))
  }

  datatype Wish = Blank | Ink | Marker

  /** What must come next. */
  predicate Granted(wish: Wish, r: string) {
    match wish
    case Blank => IsBlankz(At(r, 0))
    case Ink => IsInk(At(r, 0))
    case Marker => r == "" || DocumentMarkerAt(r, 0)
  }

  ghost predicate Awaits(t: string, q: nat, col: nat, w: Where, wish: Wish) {
    q < |t| && t[q] != '\'' && forall r: string :: Granted(wish, r) ==> PlainEnds(t + r, q, col, w)
  }

  lemma EndedGrows(t: string, x: string, q: nat, col: nat, w: Where, plain: bool)
    requires Ended(t, q, col, w, plain)
    ensures Ended(t + x, q, col, w, plain)
  {
    hide PlainEnds;
    if plain {
      forall r: string ensures PlainEnds((t + x) + r, q, col, w) {
        assert (t + x) + r == t + (x + r);
      }
    }
  }

  lemma WishGranted(t: string, x: string, q: nat, col: nat, w: Where, wish: Wish)
    requires Awaits(t, q, col, w, wish) && forall r: string :: Granted(wish, x + r)
    ensures Ended(t + x, q, col, w, true)
  {
    hide PlainEnds, Granted;
    forall r: string ensures PlainEnds((t + x) + r, q, col, w) {
      assert (t + x) + r == t + (x + r);
    }
  }

  /** The text may end here. */
  lemma NothingMore(t: string, q: nat, col: nat, w: Where, wish: Wish)
    requires Awaits(t, q, col, w, wish)
    ensures PlainEnds(t, q, col, w)
  {
    assert t + "" == t && Granted(wish, "");
  }

  lemma {:induction false} SpacesPassed(t: string, p: nat, n: nat, col: nat, w: Where, leading: bool)
    requires p + n <= |t| && forall k :: p <= k < p + n ==> t[k] == ' '
    ensures EndsAfterBlanks(t, p, col, w, leading) == EndsAfterBlanks(t, p + n, col + n, w, leading)
    decreases n
  {
    if n > 0 { SpacesPassed(t, p + 1, n - 1, col + 1, w, leading); }
  }

  /** A flow indicator, in a flow collection. */
  lemma FlowCloses(t: string, c: char, col: nat, w: Where, plain: bool)
    requires w.flowLevel > 0 && (c == ',' || c == ']' || c == '}')
    ensures Ended(t + [c], |t|, col, w, plain)
  {
    forall r: string ensures PlainEnds(t + [c] + r, |t|, col, w) {
      assert (t + [c] + r)[|t|] == c;
    }
  }

  lemma ColonAwaits(t: string, col: nat, w: Where)
    ensures Awaits(t + ":", |t|, col, w, Blank)
  {
    forall r: string | Granted(Blank, r) ensures PlainEnds(t + ":" + r, |t|, col, w) {
      var u := t + ":" + r;
      assert u[|t|] == ':' && At(u, |t| + 1) == At(r, 0);
    }
  }

  /** Spaces, and then a `:`. */
  lemma SpacedColonAwaits(t: string, n: nat, col: nat, w: Where)
    ensures Awaits(t + Spaces(n) + ":", |t|, col, w, Blank)
  {
    forall r: string | Granted(Blank, r) ensures PlainEnds(t + Spaces(n) + ":" + r, |t|, col, w) {
      var u := t + Spaces(n) + ":" + r;
      assert forall k :: |t| <= k < |t| + n ==> u[k] == Spaces(n)[k - |t|];
      assert u[|t| + n] == ':' && At(u, |t| + n + 1) == At(r, 0);
      if n > 0 { SpacesPassed(u, |t|, n, col, w, false); }
    }
  }

  /** A line break, as far as the blanks of the next line. */
  lemma BreakPassed(t: string, b: LineBreak, n: nat, r: string, col: nat, w: Where)
    requires n == 0 ==> !IsBreak(At(r, 0))
    ensures var u := t + BreakText(b) + Spaces(n) + r;
      var p := |t| + |BreakText(b)| + n;
      p <= |u| && PlainEnds(u, |t|, col, w) == EndsAfterBlanks(u, p, n, w, true)
  {
    var u, q := t + BreakText(b) + Spaces(n) + r, |t| + |BreakText(b)|;
    assert u[|t|] == BreakText(b)[0];
    assert forall k :: 0 <= k < |BreakText(b)| ==> u[|t| + k] == BreakText(b)[k];
    assert forall k :: q <= k < q + n ==> u[k] == Spaces(n)[k - q];
    assert n == 0 ==> At(u, q) == At(r, 0);
    assert BreakWidth(u, |t|) == |BreakText(b)|;
    SpacesPassed(u, q, n, 0, w, true);
  }

  /** A new line that starts further to the left, once it has a character. */
  lemma LineAwaits(t: string, b: LineBreak, n: nat, col: nat, w: Where)
    requires w.flowLevel == 0 && n < w.minColumn
    ensures Awaits(t + BreakText(b) + Spaces(n), |t|, col, w, Ink)
  {
    var x := t + BreakText(b) + Spaces(n);
    assert x[|t|] == BreakText(b)[0];
    forall r: string | Granted(Ink, r) ensures PlainEnds(x + r, |t|, col, w) {
      BreakPassed(t, b, n, r, col, w);
      assert At(x + r, |x|) == At(r, 0);
    }
  }

  /** The first column of a new line, where a document marker may be. */
  lemma MarkerAwaited(t: string, b: LineBreak, col: nat, w: Where)
    ensures Awaits(t + BreakText(b), |t|, col, w, Marker)
  {
    var x := t + BreakText(b);
    assert x[|t|] == BreakText(b)[0];
    forall r: string | Granted(Marker, r) ensures PlainEnds(x + r, |t|, col, w) {
      assert Spaces(0) == "" && x + "" == x;
      BreakPassed(t, b, 0, r, col, w);
      assert At(x + r, |x|) == At(r, 0);
      assert forall k :: 0 <= k < 4 ==> At(x + r, |x| + k) == At(r, k);
    }
  }

  /** In a flow collection: a line break, spaces, and then a `:`. */
  lemma LineColonAwaits(t: string, b: LineBreak, n: nat, col: nat, w: Where)
    ensures Awaits(t + BreakText(b) + Spaces(n) + ":", |t|, col, w, Blank)
  {
    var x := t + BreakText(b) + Spaces(n);
    assert x[|t|] == BreakText(b)[0];
    forall r: string | Granted(Blank, r) ensures PlainEnds(x + ":" + r, |t|, col, w) {
      BreakPassed(t, b, n, ":" + r, col, w);
      assert x + (":" + r) == x + ":" + r;
      assert (x + ":" + r)[|x|] == ':' && At(x + ":" + r, |x| + 1) == At(r, 0);
    }
  }

  // ----- Steps that print something -----

  predicate Then(t: string, x: string, u: string) { t + x <= u }

  lemma ThenMore(t: string, x: string, u: string, v: string)
    requires Then(t, x, u) && u <= v
    ensures Then(t, x, v)
  {
    assert t + x == u[..|t + x|] == v[..|t + x|];
  }

  lemma IndentBreaks(m: M)
    requires !m.sink.indention && m.sink.footIndent == -1
    ensures var s, n := Indent(m).sink, IndentOf(Cfg(m));
      && s.out == m.sink.out + BreakText(m.settings.lineBreak) + Spaces(n)
      && s.column == n && s.whitespace && s.indention && s.footIndent == -1
  {
    PadIsSpaces(PutBreak(Cfg(m), m.sink), IndentOf(Cfg(m)));
  }

  /** Behind an entry of a flow collection. */
  lemma FlowEntryFollows(m: M, e: Event, d: Data, next: Option<Event>)
    requires m.state.FlowSequenceItem? || m.state.FlowMappingKey?
    requires m.sink.column > 0 && EmitterMachine.Dispatch(m, e, d, next).Done?
    ensures var t, u := m.sink.out, EmitterMachine.Dispatch(m, e, d, next).next.sink.out; Then(t, ",", u) || Then(t, "]", u) || Then(t, "}", u)
  {
    hide EmitNode, IsSimpleKey, WriteIndent;
    var n := EmitterMachine.Dispatch(m, e, d, next).next;
    if (m.state.FlowSequenceItem? && e.SequenceEnd?) || (m.state.FlowMappingKey? && e.MappingEnd?) {
      var m1 := TrailingComma(m, false);
      var m2 := PopIndent(m1.(flowLevel := m1.flowLevel - 1)).next;
      IndentGrows(m2);
      if m.settings.canonical { ThenMore(m.sink.out, ",", m1.sink.out, n.sink.out); }
    } else {
      FlowItemFollows(m, e, d, next);
    }
  }

  lemma FlowItemFollows(m: M, e: Event, d: Data, next: Option<Event>)
    requires (m.state.FlowSequenceItem? && !e.SequenceEnd?) || (m.state.FlowMappingKey? && !e.MappingEnd?)
    requires EmitterMachine.Dispatch(m, e, d, next).Done?
    ensures Then(m.sink.out, ",", EmitterMachine.Dispatch(m, e, d, next).next.sink.out)
  {
    hide EmitNode, IsSimpleKey, WriteIndent;
    var n, b := EmitterMachine.Dispatch(m, e, d, next).next, BeforeEntry(m, false);
    EntryGrows(m);
    if m.state.FlowSequenceItem? {
      NodeGrows(PushState(b, FlowSequenceItem), e, d, next, false, false);
    } else {
      var q := PushState(Indicator(b, "?", true, false, false), FlowMappingValue);
      NodeGrows(PushState(b, FlowMappingSimpleValue), e, d, next, false, true);
      NodeGrows(q, e, d, next, false, false);
      assert b.sink.out <= q.sink.out;
    }
    ThenMore(m.sink.out, ",", b.sink.out, n.sink.out);
  }

  lemma EntryGrows(m: M)
    ensures Then(m.sink.out, ",", BeforeEntry(m, false).sink.out)
  {
    hide WriteIndent;
    var m1 := Indicator(m, ",", false, false, false);
    IndentGrows(m1);
    var m2 := if m1.sink.column == 0 then Indent(m1) else m1;
    IndentGrows(m2);
  }

  /** Behind the key of a mapping: a `:`, and what the value begins with. `t` is the text up to the `:`. */
  lemma ValueFollows(m: M, c: M, k: EmitterState, e: Event, d: Data, next: Option<Event>, t: string)
    requires UsableHandles(m.directives) && c == m.(sink := c.sink, openEnded := false) && AnalyzeEvent(m, e) == Some(d)
    requires c.sink.out == t + ":" && !c.sink.whitespace && !c.sink.indention
    requires EmitNode(PushState(c, k), e, d, next, false, false).Done?
    ensures var s := EmitNode(PushState(c, k), e, d, next, false, false).next.sink;
      s == c.sink || Then(t + ":", " ", s.out)
  {
    hide EmitNode, AnalyzeEvent, UsableHandles;
    assert AnalyzeEvent(PushState(c, k), e) == Some(d) by { AnalysedAlike(m, PushState(c, k), e); }
    NodeStarts(PushState(c, k), e, d, next, false, false);
  }

  lemma AnalysedAlike(m: M, n: M, e: Event)
    requires n.directives == m.directives && n.settings == m.settings
    ensures AnalyzeEvent(n, e) == AnalyzeEvent(m, e)
  {
  }

  // ----- Simple keys -----

  /** Above a value that waits for its simple key there are only flow collections. */
  ghost predicate Upright(m: M) {
    forall i :: 0 <= i < |m.states| && m.states[i].BlockMappingSimpleValue? ==>
      IsFlow(m.state) && forall j :: i < j < |m.states| ==> IsFlow(m.states[j])
  }

  /** A collection that is a simple key is a flow collection. */
  lemma SimpleOpensFlow(m: M, e: Event, next: Option<Event>)
    requires EmitEvent(m, e, next).Done? && (e.SequenceStart? || e.MappingStart?)
    ensures var n := EmitEvent(m, e, next).next;
      n.states != [] && Last(n.states).BlockMappingSimpleValue? && Continues(m.state, Last(n.states)) ==> IsFlow(n.state)
  {
    hide AnalyzeEvent, BlockMappingEntry, EmitFlowSequence, EmitFlowMappingKey, EmitBlockSequence, EmitFlowMappingValue, EmitBlockMappingValue,
      EmitDocumentStart, EmitDocumentEnd, EmitNode, Deeper;
    var d := AnalyzeEvent(m, e).value;
    if m.state.BlockMappingKey? { SimpleEntry(m, e, d, next); }
    if m.state.BlockMappingFirstKey? { SimpleEntry(Increase(m, false).next, e, d, next); }
  }

  lemma SimpleEntry(m: M, e: Event, d: Data, next: Option<Event>)
    requires BlockMappingEntry(m, e, d, next).Done? && (e.SequenceStart? || e.MappingStart?)
    ensures var n := BlockMappingEntry(m, e, d, next).next;
      n.states != [] && (Last(n.states).BlockMappingSimpleValue? ==> IsFlow(n.state))
  {
    hide WriteIndicator, Word, WriteIndent, TagUri.TagText;
  }

  lemma UprightKept(m: M, e: Event, next: Option<Event>)
    requires Coherent(m) && Upright(m) && EmitEvent(m, e, next).Done?
    ensures Coherent(EmitEvent(m, e, next).next) && Upright(EmitEvent(m, e, next).next)
  {
    hide EmitEvent, StackOf, Acceptable, Step, Tidy, Neat;
    EveryEventIsAnswered(m, e, next);
    var n := EmitEvent(m, e, next).next;
    if TakesNodes(m.state) {
      if e.SequenceStart? || e.MappingStart? {
        SimpleOpensFlow(m, e, next);
        assert forall i :: 0 <= i < |m.states| ==> n.states[i] == m.states[i];
      }
    } else {
      OutsideStates(m, e, next);
    }
  }

  lemma OutsideStates(m: M, e: Event, next: Option<Event>)
    requires Coherent(m) && !TakesNodes(m.state) && EmitEvent(m, e, next).Done?
    ensures m.states == [] && EmitEvent(m, e, next).next.states == []
  {
    hide AnalyzeEvent, DocumentHeader, WriteDots, WriteIndent, AddDirectives, StackOf, Acceptable, Step, Tidy, Neat;
    EveryEventIsAnswered(m, e, next);
    var n := EmitEvent(m, e, next).next;
    assert n.state.FirstDocumentStart? || n.state.DocumentContent? || n.state.NextDocumentStart? || n.state.EndState?;
  }

  // ----- Where the emitter stands behind a scalar -----

  /** Nothing has been printed since the scalar ended, at `q`. */
  ghost predicate Fresh(m: M, q: nat, col: nat, w: Where, plain: bool) {
    && |m.sink.out| == q && m.sink.column == col > 0 && !m.sink.whitespace && !m.sink.indention
    && m.flowLevel == w.flowLevel && (IsContinuation(m.state) || m.state.DocumentEndState?)
    && (plain && w.flowLevel == 0 && !m.state.BlockMappingSimpleValue? ==> m.indent < w.minColumn && (w.minColumn <= 0 ==> m.openEnded))
  }

  predicate AwaitsValue(s: EmitterState) { IsFirst(s) || s.DocumentEndState? || (!IsFlow(s) && IsContinuation(s) && !s.BlockMappingSimpleValue?) }

  predicate AtLineStart(m: M) {
    || m.state.FlowSequenceFirstItem? || m.state.FlowMappingFirstKey? || m.state.EndState?
    || (m.state.NextDocumentStart? && m.sink.column == 0 && m.sink.indention)
  }

  /** A plain scalar ends once the next event has printed something. */
  ghost predicate Waiting(m: M, q: nat, col: nat, w: Where) {
    || (Awaits(m.sink.out, q, col, w, Blank) && !m.sink.whitespace && !m.sink.indention && AwaitsValue(m.state))
    || (Awaits(m.sink.out, q, col, w, Ink) && m.sink.whitespace && AtLineStart(m))
    || (Awaits(m.sink.out, q, col, w, Marker) && m.sink.whitespace && m.state.NextDocumentStart? && m.openEnded && m.sink.column == 0 && m.sink.indention)
  }

  ghost predicate Follows(m: M, q: nat, col: nat, w: Where, plain: bool) {
    || Fresh(m, q, col, w, plain)
    || Ended(m.sink.out, q, col, w, plain)
    || (plain && Waiting(m, q, col, w))
  }

  lemma ThenCloses(t: string, c: char, u: string, col: nat, w: Where, plain: bool)
    requires Then(t, [c], u) && w.flowLevel > 0 && (c == ',' || c == ']' || c == '}')
    ensures Ended(u, |t|, col, w, plain)
  {
    FlowCloses(t, c, col, w, plain);
    assert u == t + [c] + u[|t| + 1..];
    EndedGrows(t + [c], u[|t| + 1..], |t|, col, w, plain);
  }

  lemma ThenGrants(t: string, x: string, u: string, q: nat, col: nat, w: Where, wish: Wish)
    requires Awaits(t, q, col, w, wish) && Then(t, x, u) && forall r: string :: Granted(wish, x + r)
    ensures Ended(u, q, col, w, true)
  {
    hide Granted;
    WishGranted(t, x, q, col, w, wish);
    assert u == t + x + u[|t + x|..];
    EndedGrows(t + x, u[|t + x|..], q, col, w, true);
  }

  lemma OneGrants(t: string, c: char, u: string, q: nat, col: nat, w: Where, wish: Wish)
    requires Awaits(t, q, col, w, wish) && Then(t, [c], u)
    requires (wish.Blank? && IsBlankz(c)) || (wish.Ink? && IsInk(c))
    ensures Ended(u, q, col, w, true)
  {
    ThenGrants(t, [c], u, q, col, w, wish);
  }

  /** For a quoted scalar the first character decides. */
  lemma QuotedCloses(t: string, x: string, u: string, col: nat, w: Where)
    requires Then(t, x, u) && x != "" && x[0] != '\''
    ensures Ended(u, |t|, col, w, false)
  {
    assert u[|t|] == (t + x)[|t|];
  }

  lemma FlowStates(m: M)
    requires Coherent(m) && (IsContinuation(m.state) || m.state.DocumentEndState?)
    ensures m.flowLevel > 0 <==> IsFlow(m.state)
  {
    if !IsFlow(m.state) && IsContinuation(m.state) { NoFlowBelow(m.states); }
  }

  lemma {:induction false} NoFlowBelow(states: seq<EmitterState>)
    requires forall i :: 0 <= i < |states| ==> !IsFlow(states[i])
    ensures FlowCount(states) == 0
  {
    if states != [] { NoFlowBelow(Init(states)); }
  }

  /** A node without text of its own is a collection, or an empty plain scalar in the block context. */
  lemma NodePrints(m: M, e: Event, d: Data, next: Option<Event>, root: bool, simpleKey: bool)
    requires AnalyzeEvent(m, e) == Some(d) && EmitNode(m, e, d, next, root, simpleKey).Done? && (e.Scalar? || e.Alias?)
    requires e.Scalar? ==> simpleKey || m.flowLevel > 0
    ensures m.sink.out < EmitNode(m, e, d, next, root, simpleKey).next.sink.out
  {
    hide EmitNode, ProcessTag, ProcessAnchor, ProcessScalar, ChosenStyle;
    PropertiesGrow(m, e, d, simpleKey);
    var m1 := NodeText(m, e, d, next, root, simpleKey);
    if e.Scalar? {
      PlainNotEmpty(m, e, d, simpleKey);
      PlainInk(m, e, d, simpleKey);
      ScalarAdds(m1, e.value, ChosenStyle(m, e, d, simpleKey), root, simpleKey);
    } else {
      AliasPrints(m, e, d);
    }
  }

  lemma AliasPrints(m: M, e: Event, d: Data)
    requires e.Alias? && AnalyzeEvent(m, e) == Some(d)
    ensures m.sink.out < ProcessAnchor(m, d).sink.out
  {
    hide AllAlpha;
    assert d.anchor == e.name != "";
    IndicatorStarts(m.sink, "*", false, false);
    IndicatorStarts(m.sink, "&", false, false);
  }

  lemma PlainNotEmpty(m: M, e: Event, d: Data, simpleKey: bool)
    requires e.Scalar? && (simpleKey || m.flowLevel > 0)
    ensures ChosenStyle(m, e, d, simpleKey).Plain? ==> e.value != ""
  {
  }

  lemma ScalarAdds(m: M, v: string, style: Style, root: bool, simpleKey: bool)
    requires !style.Any? && (style.Literal? || style.Folded? ==> v != "") && (style.Plain? ==> v != "" && IsInk(v[0]))
    ensures m.sink.out < ProcessScalar(m, v, style, root, simpleKey).sink.out
  {
    hide PlainText, SingleText, DoubleText, WriteBlock;
    var ab, s := !simpleKey, m.sink;
    match style {
      case Plain => PlainStarts(Cfg(m), s, v, ab);
      case SingleQuoted =>
        IndicatorStarts(s, "'", false, false);
        Single.SingleTextGrows(Cfg(m), v, ab, 0, WriteIndicator(s, "'", true, false, false), false, false);
      case DoubleQuoted =>
        IndicatorStarts(s, "\"", false, false);
        Double.DoubleTextGrows(Cfg(m), v, ab, 0, WriteIndicator(s, "\"", true, false, false), false);
      case _ =>
        IndicatorStarts(s, if style.Folded? then ">" else "|", false, false);
        BlockGrows(m, v, style.Folded?);
    }
  }

  // ----- One event behind the scalar -----

  /** What the state of the emitter says of the event that was accepted. */
  lemma Accepted(m: M, e: Event, next: Option<Event>)
    requires Coherent(m) && Upright(m) && EmitEvent(m, e, next).Done?
    ensures var n := EmitEvent(m, e, next).next;
      && Coherent(n) && Upright(n) && AnalyzeEvent(m, e).Some? && m.sink.out <= n.sink.out
      && (TakesNodes(m.state) ==> m.settings.bestIndent > 0 && Moved(m, e, n))
  {
    hide EmitEvent, StackOf, Acceptable, Step, Tidy, Neat, Moved, AnalyzeEvent;
    UprightKept(m, e, next);
    EveryEventIsAnswered(m, e, next);
    EventGrows(m, e, next);
    assert AnalyzeEvent(m, e).Some? by { Analysed(m, e, next); }
  }

  lemma Analysed(m: M, e: Event, next: Option<Event>)
    requires EmitEvent(m, e, next).Done?
    ensures AnalyzeEvent(m, e).Some? && EmitEvent(m, e, next) == EmitterMachine.Dispatch(m, e, AnalyzeEvent(m, e).value, next)
  {
    hide EmitterMachine.Dispatch, AnalyzeEvent;
  }

  /** In a flow collection: an entry, the end, or the value of a key. */
  lemma FlowFresh(m: M, e: Event, next: Option<Event>, q: nat, col: nat, w: Where, plain: bool)
    requires Coherent(m) && Fresh(m, q, col, w, plain) && w.flowLevel > 0 && EmitEvent(m, e, next).Done?
    ensures Follows(EmitEvent(m, e, next).next, q, col, w, plain)
  {
    hide EmitEvent, EmitterMachine.Dispatch, Ended, AnalyzeEvent, Coherent, Waiting;
    Analysed(m, e, next);
    FlowStates(m);
    var n, d := EmitEvent(m, e, next).next, AnalyzeEvent(m, e).value;
    var t := m.sink.out;
    if m.state.FlowSequenceItem? || m.state.FlowMappingKey? {
      FlowEntryFollows(m, e, d, next);
      if Then(t, ",", n.sink.out) {
        ThenCloses(t, ',', n.sink.out, col, w, plain);
      } else if Then(t, "]", n.sink.out) {
        ThenCloses(t, ']', n.sink.out, col, w, plain);
      } else {
        ThenCloses(t, '}', n.sink.out, col, w, plain);
      }
    } else {
      FlowValueFresh(m, e, next, q, col, w, plain);
    }
  }

  lemma Between(m: M)
    requires Coherent(m) && (IsFirst(m.state) || IsContinuation(m.state) || m.state.DocumentEndState? || m.state.NextDocumentStart?)
    ensures m.sink.footIndent == -1 && UsableHandles(m.directives) && Ladder(m.indents, m.indent)
    ensures m.state.DocumentEndState? || m.state.NextDocumentStart? ==> m.indent == -1
  {
  }

  lemma FlowValueFresh(m: M, e: Event, next: Option<Event>, q: nat, col: nat, w: Where, plain: bool)
    requires Coherent(m) && Fresh(m, q, col, w, plain) && EmitEvent(m, e, next).Done? && m.flowLevel > 0
    requires m.state.FlowMappingSimpleValue? || m.state.FlowMappingValue?
    ensures Follows(EmitEvent(m, e, next).next, q, col, w, plain)
  {
    hide Coherent, Awaits, AnalyzeEvent, WriteIndent, EmitNode, Follows, UsableHandles, Ladder;
    Between(m);
    Analysed(m, e, next);
    var n, d, t := EmitEvent(m, e, next).next, AnalyzeEvent(m, e).value, m.sink.out;
    if m.state.FlowMappingSimpleValue? {
      ColonAwaits(t, col, w);
      KeyFresh(m, Indicator(m, ":", false, false, false), FlowMappingKey, e, d, next, t, col, w, plain);
    } else {
      ComplexValueFresh(m, e, d, next, col, w, plain);
    }
  }

  lemma ComplexValueFresh(m: M, e: Event, d: Data, next: Option<Event>, col: nat, w: Where, plain: bool)
    requires UsableHandles(m.directives) && m.sink.footIndent == -1 && m.flowLevel > 0 && AnalyzeEvent(m, e) == Some(d)
    requires !m.sink.whitespace && !m.sink.indention && EmitFlowMappingValue(m, e, d, next, false).Done?
    ensures Follows(EmitFlowMappingValue(m, e, d, next, false).next, |m.sink.out|, col, w, plain)
  {
    hide Awaits, AnalyzeEvent, WriteIndent, EmitNode, Follows, UsableHandles;
    var t := m.sink.out;
    if m.settings.canonical || m.sink.column > m.settings.bestWidth {
      IndentBreaks(m);
      LineColonAwaits(t, m.settings.lineBreak, IndentOf(Cfg(m)), col, w);
      KeyFresh(m, Indicator(Indent(m), ":", true, false, false), FlowMappingKey, e, d, next, Indent(m).sink.out, col, w, plain);
    } else {
      SpacedColonAwaits(t, 1, col, w);
      assert Spaces(1) == " ";
      KeyFresh(m, Indicator(m, ":", true, false, false), FlowMappingKey, e, d, next, t + " ", col, w, plain);
    }
  }

  /** The `:`, with `x` the text up to it, and what the value begins with. */
  lemma KeyFresh(m: M, c: M, k: EmitterState, e: Event, d: Data, next: Option<Event>, x: string, col: nat, w: Where, plain: bool)
    requires UsableHandles(m.directives) && c == m.(sink := c.sink, openEnded := false) && AnalyzeEvent(m, e) == Some(d)
    requires c.sink.out == x + ":" && !c.sink.whitespace && !c.sink.indention
    requires m.sink.out <= x && Awaits(x + ":", |m.sink.out|, col, w, Blank)
    requires EmitNode(PushState(c, k), e, d, next, false, false).Done?
    requires k.BlockMappingKey? || (k.FlowMappingKey? && m.flowLevel > 0)
    ensures Follows(EmitNode(PushState(c, k), e, d, next, false, false).next, |m.sink.out|, col, w, plain)
  {
    hide EmitNode, Ended, Awaits, AnalyzeEvent, Granted;
    var p, q := PushState(c, k), |m.sink.out|;
    var n := EmitNode(p, e, d, next, false, false).next;
    assert AnalyzeEvent(p, e) == Some(d) by { AnalysedAlike(m, p, e); }
    NodeGrows(p, e, d, next, false, false);
    ValueFollows(m, c, k, e, d, next, x);
    if !plain {
      ColonCloses(x + ":", n.sink.out, q, col, w);
    } else if n.sink == c.sink {
      if k.FlowMappingKey? && (e.Scalar? || e.Alias?) { NodePrints(p, e, d, next, false, false); }
      NodeState(p, e, d, next, false, false);
    } else {
      OneGrants(x + ":", ' ', n.sink.out, q, col, w, Blank);
    }
  }

  lemma ColonCloses(t: string, u: string, q: nat, col: nat, w: Where)
    requires Awaits(t, q, col, w, Blank) && t <= u
    ensures Ended(u, q, col, w, false)
  {
    hide PlainEnds;
  }

  lemma NodeState(m: M, e: Event, d: Data, next: Option<Event>, root: bool, simpleKey: bool)
    requires m.states != [] && EmitNode(m, e, d, next, root, simpleKey).Done?
    ensures var n := EmitNode(m, e, d, next, root, simpleKey).next;
      if e.Scalar? || e.Alias? then n.state == Last(m.states) else IsFirst(n.state)
  {
    hide EmitScalar, WriteIndicator, Word, TagUri.TagText;
    if e.Scalar? { ScalarState(m, e, d, root, simpleKey); }
  }

  lemma ScalarState(m: M, e: Event, d: Data, root: bool, simpleKey: bool)
    requires e.Scalar? && m.states != [] && EmitScalar(m, e, d, root, simpleKey).Done?
    ensures EmitScalar(m, e, d, root, simpleKey).next.state == Last(m.states)
  {
    hide ProcessScalar, ChosenStyle, ProcessTag, ProcessAnchor, Deeper;
    var style, p := ChosenStyle(m, e, d, simpleKey), Properties(m, e, d, simpleKey);
    StyleIsWritable(m, e, d, simpleKey);
    PropertiesKeep(m, e, d, simpleKey);
    ScalarKeeps(Increase(p, true).next, e.value, style, root, simpleKey);
  }

  lemma PropertiesKeep(m: M, e: Event, d: Data, simpleKey: bool)
    ensures Properties(m, e, d, simpleKey).states == m.states
  {
    hide ChosenStyle, WriteIndicator, Word, TagUri.TagText;
  }

  lemma ScalarKeeps(m: M, v: string, style: Style, root: bool, simpleKey: bool)
    requires !style.Any? && (style.Literal? || style.Folded? ==> v != "")
    ensures ProcessScalar(m, v, style, root, simpleKey).states == m.states
  {
    hide WriteIndicator, WriteScalar, LiteralText, FoldedText;
  }

  // ----- In the block context -----

  lemma BlockIndent(m: M)
    requires Coherent(m) && IsContinuation(m.state) && !IsFlow(m.state)
    ensures m.indents != [] && 0 <= m.indent && Last(m.indents) < m.indent
    ensures m.states != [] && !IsFlow(Last(m.states)) && (IsContinuation(Last(m.states)) || Last(m.states).DocumentEndState?)
  {
  }

  /** The new line, and something on it. */
  lemma LineCloses(m: M, c: char, u: string, col: nat, w: Where, plain: bool)
    requires !m.sink.indention && m.sink.footIndent == -1 && w.flowLevel == 0 && 0 <= m.indent && (plain ==> m.indent < w.minColumn)
    requires Then(Indent(m).sink.out, [c], u) && IsInk(c)
    ensures Ended(u, |m.sink.out|, col, w, plain)
  {
    hide Ended, Awaits, WriteIndent;
    IndentBreaks(m);
    if plain {
      LineAwaits(m.sink.out, m.settings.lineBreak, m.indent, col, w);
      OneGrants(Indent(m).sink.out, c, u, |m.sink.out|, col, w, Ink);
    } else {
      LineQuoted(m, u, col, w);
    }
  }

  lemma LineQuoted(m: M, u: string, col: nat, w: Where)
    requires !m.sink.indention && m.sink.footIndent == -1 && Indent(m).sink.out <= u
    ensures Ended(u, |m.sink.out|, col, w, false)
  {
    hide Ended, WriteIndent;
    IndentBreaks(m);
    var b := BreakText(m.settings.lineBreak);
    assert m.sink.out + b <= Indent(m).sink.out;
    ThenMore(m.sink.out, b, Indent(m).sink.out, u);
    QuotedCloses(m.sink.out, b, u, col, w);
  }

  lemma BlockFresh(m: M, e: Event, next: Option<Event>, q: nat, col: nat, w: Where, plain: bool)
    requires Coherent(m) && Fresh(m, q, col, w, plain) && w.flowLevel == 0 && EmitEvent(m, e, next).Done?
    ensures Follows(EmitEvent(m, e, next).next, q, col, w, plain)
  {
    hide Ended, AnalyzeEvent, Coherent, Waiting, BlockSequenceEntry, BlockMappingEntry, EmitBlockMappingValue, EmitDocumentEnd, UsableHandles, Ladder;
    Analysed(m, e, next);
    FlowStates(m);
    Between(m);
    var d := AnalyzeEvent(m, e).value;
    if m.state.DocumentEndState? {
      DocumentEndFresh(m, e, col, w, plain);
    } else {
      BlockIndent(m);
      match m.state {
        case BlockSequenceItem => SequenceItemFresh(m, e, d, next, col, w, plain);
        case BlockMappingKey => MappingKeyFresh(m, e, d, next, col, w, plain);
        case BlockMappingSimpleValue => MappingValueFresh(m, e, d, next, true, col, w, plain);
        case BlockMappingValue => MappingValueFresh(m, e, d, next, false, col, w, plain);
      }
    }
  }

  /** A line can be begun further to the left than the scalar may go on. */
  ghost predicate LineDue(m: M, w: Where, plain: bool) {
    && m.sink.column > 0 && !m.sink.whitespace && !m.sink.indention && m.sink.footIndent == -1 && w.flowLevel == m.flowLevel == 0
    && UsableHandles(m.directives) && m.indents != [] && Last(m.indents) < m.indent && 0 <= m.indent
    && (plain && !m.state.BlockMappingSimpleValue? ==> m.indent < w.minColumn)
    && m.states != [] && !IsFlow(Last(m.states)) && (IsContinuation(Last(m.states)) || Last(m.states).DocumentEndState?)
  }

  lemma SequenceItemFresh(m: M, e: Event, d: Data, next: Option<Event>, col: nat, w: Where, plain: bool)
    requires m.state.BlockSequenceItem? && LineDue(m, w, plain) && m.sink.column == col && AnalyzeEvent(m, e) == Some(d) && BlockSequenceEntry(m, e, d, next).Done?
    ensures Follows(BlockSequenceEntry(m, e, d, next).next, |m.sink.out|, col, w, plain)
  {
    hide Ended, Waiting, AnalyzeEvent, EmitNode, WriteIndent, UsableHandles;
    if !e.SequenceEnd? {
      var c := Indicator(Indent(m), "-", true, false, true);
      IndentBreaks(m);
      NodeGrows(PushState(c, BlockSequenceItem), e, d, next, false, false);
      LineCloses(m, '-', BlockSequenceEntry(m, e, d, next).next.sink.out, col, w, plain);
    }
  }

  lemma MappingKeyFresh(m: M, e: Event, d: Data, next: Option<Event>, col: nat, w: Where, plain: bool)
    requires m.state.BlockMappingKey? && LineDue(m, w, plain) && m.sink.column == col && AnalyzeEvent(m, e) == Some(d) && BlockMappingEntry(m, e, d, next).Done?
    ensures Follows(BlockMappingEntry(m, e, d, next).next, |m.sink.out|, col, w, plain)
  {
    hide Ended, Waiting, AnalyzeEvent, EmitNode, WriteIndent, UsableHandles, IsSimpleKey;
    if !e.MappingEnd? {
      var i := Indent(m);
      IndentBreaks(m);
      if IsSimpleKey(i, e, d, next) {
        SimpleKeyFresh(m, e, d, next, col, w, plain);
      } else {
        var c := Indicator(i, "?", true, false, true);
        NodeGrows(PushState(c, BlockMappingValue), e, d, next, false, false);
        LineCloses(m, '?', BlockMappingEntry(m, e, d, next).next.sink.out, col, w, plain);
      }
    }
  }

  lemma SimpleKeyFresh(m: M, e: Event, d: Data, next: Option<Event>, col: nat, w: Where, plain: bool)
    requires m.state.BlockMappingKey? && LineDue(m, w, plain) && AnalyzeEvent(m, e) == Some(d) && IsSimpleKey(Indent(m), e, d, next)
    requires EmitNode(PushState(Indent(m), BlockMappingSimpleValue), e, d, next, false, true).Done?
    ensures Follows(EmitNode(PushState(Indent(m), BlockMappingSimpleValue), e, d, next, false, true).next, |m.sink.out|, col, w, plain)
  {
    hide Ended, Awaits, AnalyzeEvent, EmitNode, WriteIndent, UsableHandles, IsSimpleKey;
    var i := Indent(m);
    var p := PushState(i, BlockMappingSimpleValue);
    var n := EmitNode(p, e, d, next, false, true).next;
    IndentBreaks(m);
    assert AnalyzeEvent(p, e) == Some(d) by { AnalysedAlike(m, p, e); }
    NodeStarts(p, e, d, next, false, true);
    if !plain {
      LineQuoted(m, n.sink.out, col, w);
    } else if n.sink == p.sink {
      LineAwaits(m.sink.out, m.settings.lineBreak, m.indent, col, w);
      if e.Scalar? || e.Alias? { NodePrints(p, e, d, next, false, true); }
      SimpleCollection(i, p, e, d, next);
    } else {
      var c := n.sink.out[|i.sink.out|];
      assert Then(i.sink.out, [c], n.sink.out);
      LineCloses(m, c, n.sink.out, col, w, plain);
    }
  }

  lemma SimpleCollection(i: M, p: M, e: Event, d: Data, next: Option<Event>)
    requires IsSimpleKey(i, e, d, next) && EmitNode(p, e, d, next, false, true).Done? && !e.Scalar? && !e.Alias?
    ensures var n := EmitNode(p, e, d, next, false, true).next; n.state.FlowSequenceFirstItem? || n.state.FlowMappingFirstKey?
  {
    hide ProcessAnchor, ProcessTag;
  }

  lemma MappingValueFresh(m: M, e: Event, d: Data, next: Option<Event>, simple: bool, col: nat, w: Where, plain: bool)
    requires LineDue(m, w, plain) && AnalyzeEvent(m, e) == Some(d) && EmitBlockMappingValue(m, e, d, next, simple).Done?
    requires m.state == if simple then BlockMappingSimpleValue else BlockMappingValue
    ensures Follows(EmitBlockMappingValue(m, e, d, next, simple).next, |m.sink.out|, col, w, plain)
  {
    hide Ended, Waiting, Fresh, Awaits, AnalyzeEvent, EmitNode, WriteIndent, UsableHandles;
    if simple {
      ColonAwaits(m.sink.out, col, w);
      hide Follows;
      KeyFresh(m, Indicator(m, ":", false, false, false), BlockMappingKey, e, d, next, m.sink.out, col, w, plain);
    } else {
      var c := Indicator(Indent(m), ":", true, false, true);
      IndentBreaks(m);
      NodeGrows(PushState(c, BlockMappingKey), e, d, next, false, false);
      LineCloses(m, ':', EmitBlockMappingValue(m, e, d, next, simple).next.sink.out, col, w, plain);
    }
  }

  // ----- Between documents -----

  lemma DotsText(m: M)
    requires m.sink.whitespace && m.sink.footIndent == -1 && m.indent == -1
    ensures WriteDots(m).sink.out == m.sink.out + "..." + BreakText(m.settings.lineBreak)
  {
    hide WriteIndent;
    IndentBreaks(Indicator(m, "...", true, false, false));
  }

  lemma MarkerGranted(x: string, b: LineBreak)
    requires x == "..." || x == "---"
    ensures forall r: string :: Granted(Marker, x + BreakText(b) + r) && Granted(Ink, x + BreakText(b) + r)
  {
    forall r: string ensures Granted(Marker, x + BreakText(b) + r) && Granted(Ink, x + BreakText(b) + r) {
      var t := x + BreakText(b) + r;
      assert forall k :: 0 <= k < 3 ==> t[k] == x[k];
      assert t[3] == BreakText(b)[0];
    }
  }

  lemma DocumentEndFresh(m: M, e: Event, col: nat, w: Where, plain: bool)
    requires m.sink.footIndent == -1 && !m.sink.indention && m.indent == -1 && EmitDocumentEnd(m, e).Done?
    requires w.flowLevel == 0 && (plain && w.minColumn <= 0 ==> m.openEnded)
    ensures Follows(EmitDocumentEnd(m, e).next, |m.sink.out|, col, w, plain)
  {
    hide Ended, Awaits, WriteIndent, WriteDots, Granted;
    var t, b, n := m.sink.out, m.settings.lineBreak, EmitDocumentEnd(m, e).next;
    var i := Indent(m);
    assert m.(sink := m.sink.(footIndent := -1)) == m;
    IndentBreaks(m);
    assert i.sink.out == t + BreakText(b) && Spaces(0) == "";
    DotsText(i);
    if !plain {
      assert t + BreakText(b) <= n.sink.out;
      QuotedCloses(t, BreakText(b), n.sink.out, col, w);
    } else {
      var wish := if w.minColumn > 0 then Ink else Marker;
      if w.minColumn > 0 { LineAwaits(t, b, 0, col, w); } else { MarkerAwaited(t, b, col, w); }
      assert i.sink.out == t + BreakText(b) + Spaces(0);
      if !e.implicitEnd {
        MarkerGranted("...", b);
        assert n.sink.out == i.sink.out + ("..." + BreakText(b));
        ThenGrants(i.sink.out, "..." + BreakText(b), n.sink.out, |t|, col, w, wish);
      }
    }
  }

  /** A document that is not the first begins with dots, dashes or, if nothing is open, a directive. */
  lemma HeaderBegins(m: M, e: Event)
    requires e.DocumentStart? && m.sink.whitespace && m.sink.indention && m.sink.column == 0 && m.sink.footIndent == -1 && m.indent == -1
    ensures var t, u, b := m.sink.out, DocumentHeader(m, e, false).sink.out, BreakText(m.settings.lineBreak);
      Then(t, "..." + b, u) || Then(t, "---" + b, u) || (!m.openEnded && Then(t, "%", u))
  {
    hide WriteIndent, TagUri.TagText, WriteDots, WriteDirectives;
    var t, u, b := m.sink.out, DocumentHeader(m, e, false).sink.out, BreakText(m.settings.lineBreak);
    var dots := m.openEnded && (e.version || e.directives != []);
    var m2 := if dots then WriteDots(m) else m;
    var v := Indicator(Indicator(m2, "%YAML", true, false, false), "1.1", true, false, false);
    var m3 := if e.version then Indent(v) else m2;
    var m4 := WriteDirectives(m3, e.directives);
    var n := Indicator(Indent(m4), "---", true, false, false);
    IndentGrows(v);
    DirectivesGrow(m3, e.directives);
    IndentGrows(m4);
    IndentGrows(n);
    assert u == Indent(n).sink.out && m4.sink.out <= n.sink.out <= u;
    if dots {
      DotsText(m);
      assert t + "..." + b == t + ("..." + b);
      assert m2.sink.out <= m3.sink.out;
      ThenMore(t, "..." + b, m2.sink.out, u);
    } else if e.version {
      assert Then(t, "%", v.sink.out);
      ThenMore(t, "%", v.sink.out, u);
    } else if e.directives != [] {
      TagBegins(m, e.directives);
      ThenMore(t, "%", m4.sink.out, u);
    } else {
      NoDirectives(m, e.directives);
      DashesBegin(m, n);
    }
  }

  lemma NoDirectives(m: M, ds: seq<(string, string)>)
    ensures ds == [] ==> WriteDirectives(m, ds) == m
  {
  }

  lemma TagBegins(m: M, ds: seq<(string, string)>)
    requires ds != [] && m.sink.whitespace
    ensures Then(m.sink.out, "%", WriteDirectives(m, ds).sink.out)
  {
    hide WriteIndent, TagUri.TagText;
    var i := Indicator(m, "%TAG", true, false, false);
    var x := i.(sink := Word(Word(i.sink, ds[0].0, true), TagUri.TagText(ds[0].1), true));
    assert Then(m.sink.out, "%", i.sink.out) && i.sink.out <= x.sink.out;
    IndentGrows(x);
    DirectivesGrow(WriteDirective(m, ds[0]), ds[1..]);
    ThenMore(m.sink.out, "%", i.sink.out, WriteDirectives(m, ds).sink.out);
  }

  /** At the start of a line nothing is printed before the dashes. */
  lemma DashesBegin(m: M, n: M)
    requires m.sink.whitespace && m.sink.indention && m.sink.column == 0 && m.sink.footIndent == -1 && m.indent == -1
    requires n == Indicator(Indent(m), "---", true, false, false)
    ensures Then(m.sink.out, "---" + BreakText(m.settings.lineBreak), Indent(n).sink.out)
  {
    assert Indent(m).sink == m.sink;
    IndentBreaks(n);
  }

  /** Behind the line break that ends a document. */
  lemma BetweenDocuments(m: M, e: Event, q: nat, col: nat, w: Where)
    requires OnNewLine(m) && EmitDocumentStart(m, e, false).Done?
    requires Awaits(m.sink.out, q, col, w, Ink) || (Awaits(m.sink.out, q, col, w, Marker) && m.openEnded)
    ensures Follows(EmitDocumentStart(m, e, false).next, q, col, w, true)
  {
    hide Awaits, Ended, WriteDots, DocumentHeader, AddDirectives, Granted;
    var t, n, b := m.sink.out, EmitDocumentStart(m, e, false).next, BreakText(m.settings.lineBreak);
    var wish := if Awaits(m.sink.out, q, col, w, Ink) then Ink else Marker;
    MarkerGranted("...", m.settings.lineBreak);
    MarkerGranted("---", m.settings.lineBreak);
    if e.StreamEnd? {
      if m.openEnded {
        DotsText(m);
        assert n.sink.out == t + ("..." + b);
        ThenGrants(t, "..." + b, n.sink.out, q, col, w, wish);
      }
    } else {
      var m1 := m.(directives := AddDefaults(AddDirectives(m.directives, e.directives).all));
      HeaderBegins(m1, e);
      if Then(t, "..." + b, n.sink.out) {
        ThenGrants(t, "..." + b, n.sink.out, q, col, w, wish);
      } else if Then(t, "---" + b, n.sink.out) {
        ThenGrants(t, "---" + b, n.sink.out, q, col, w, wish);
      } else {
        OneGrants(t, '%', n.sink.out, q, col, w, Ink);
      }
    }
  }

  predicate OnNewLine(m: M) {
    m.sink.whitespace && m.sink.indention && m.sink.column == 0 && m.sink.footIndent == -1 && m.indent == -1
  }

  // ----- When something must come first -----

  /** Something is due, and the next event prints it or nothing. */
  lemma StillWaiting(m: M, e: Event, next: Option<Event>, q: nat, col: nat, w: Where)
    requires Coherent(m) && Upright(m) && Waiting(m, q, col, w) && EmitEvent(m, e, next).Done?
    ensures Follows(EmitEvent(m, e, next).next, q, col, w, true)
  {
    hide EmitEvent, EmitterMachine.Dispatch, Ended, AnalyzeEvent, Coherent, Upright, Awaits, Fresh;
    Analysed(m, e, next);
    if m.state.EndState? {
      EndRefuses(m, e, next);
    } else if Awaits(m.sink.out, q, col, w, Blank) && !m.sink.whitespace && !m.sink.indention && AwaitsValue(m.state) {
      BlankComes(m, e, next, q, col, w);
    } else if m.state.NextDocumentStart? {
      Between(m);
      NextDocument(m, e, next, q, col, w);
    } else {
      BracketComes(m, e, next, q, col, w);
    }
  }

  lemma EndRefuses(m: M, e: Event, next: Option<Event>)
    requires m.state.EndState?
    ensures !EmitEvent(m, e, next).Done?
  {
    hide AnalyzeEvent;
  }

  lemma NextDocument(m: M, e: Event, next: Option<Event>, q: nat, col: nat, w: Where)
    requires OnNewLine(m) && m.state.NextDocumentStart? && EmitEvent(m, e, next).Done?
    requires Awaits(m.sink.out, q, col, w, Ink) || (Awaits(m.sink.out, q, col, w, Marker) && m.openEnded)
    ensures Follows(EmitEvent(m, e, next).next, q, col, w, true)
  {
    hide AnalyzeEvent, EmitDocumentStart, Follows, Awaits;
    BetweenDocuments(m, e, q, col, w);
  }

  /** An empty collection as a simple key, at the start of its line. */
  lemma BracketComes(m: M, e: Event, next: Option<Event>, q: nat, col: nat, w: Where)
    requires Awaits(m.sink.out, q, col, w, Ink) && m.sink.whitespace && EmitEvent(m, e, next).Done?
    requires m.state.FlowSequenceFirstItem? || m.state.FlowMappingFirstKey?
    ensures Follows(EmitEvent(m, e, next).next, q, col, w, true)
  {
    hide AnalyzeEvent, Awaits, Ended, FlowSequenceEntry, FlowMappingEntry, Deeper;
    OpensWith(m, e, next);
    var b := if m.state.FlowSequenceFirstItem? then '[' else '{';
    OneGrants(m.sink.out, b, EmitEvent(m, e, next).next.sink.out, q, col, w, Ink);
  }

  /** A flow collection opens with its bracket, behind a blank if one is due. */
  lemma OpensWith(m: M, e: Event, next: Option<Event>)
    requires EmitEvent(m, e, next).Done? && (m.state.FlowSequenceFirstItem? || m.state.FlowMappingFirstKey?)
    ensures var b := if m.state.FlowSequenceFirstItem? then "[" else "{";
      Then(m.sink.out, if m.sink.whitespace then b else " ", EmitEvent(m, e, next).next.sink.out)
  {
    hide AnalyzeEvent, FlowSequenceEntry, FlowMappingEntry, Deeper;
    var b := if m.state.FlowSequenceFirstItem? then "[" else "{";
    var d, o := AnalyzeEvent(m, e).value, OpenFlow(m, b).next;
    if m.state.FlowSequenceFirstItem? { FlowSequenceGrows(o, e, d, next, true); } else { FlowMappingGrows(o, e, d, next, true); }
    ThenMore(m.sink.out, if m.sink.whitespace then b else " ", o.sink.out, EmitEvent(m, e, next).next.sink.out);
  }

  lemma BlankComes(m: M, e: Event, next: Option<Event>, q: nat, col: nat, w: Where)
    requires Coherent(m) && Upright(m) && EmitEvent(m, e, next).Done?
    requires Awaits(m.sink.out, q, col, w, Blank) && !m.sink.whitespace && !m.sink.indention && AwaitsValue(m.state)
    ensures Follows(EmitEvent(m, e, next).next, q, col, w, true)
  {
    hide AnalyzeEvent, Awaits, Ended, Coherent, Upright, Fresh, Ladder, UsableHandles, EmitEvent;
    Between(m);
    var t, n := m.sink.out, EmitEvent(m, e, next).next;
    if m.state.FlowSequenceFirstItem? || m.state.FlowMappingFirstKey? {
      OpensWith(m, e, next);
      OneGrants(t, ' ', n.sink.out, q, col, w, Blank);
    } else {
      BlockBreaks(m, e, next);
      if n.sink == m.sink {
        PoppedAwaits(m, e, next);
      } else {
        BreakGrants(t, m.settings.lineBreak, n.sink.out, q, col, w);
      }
    }
  }

  lemma BreakGrants(t: string, b: LineBreak, u: string, q: nat, col: nat, w: Where)
    requires Awaits(t, q, col, w, Blank) && Then(t, BreakText(b), u)
    ensures Ended(u, q, col, w, true)
  {
    hide Awaits, Ended;
    var c := BreakText(b)[0];
    assert t + [c] <= t + BreakText(b);
    assert Then(t, [c], u) by { assert t + [c] == (t + BreakText(b))[..|t| + 1] == u[..|t| + 1]; }
    OneGrants(t, c, u, q, col, w, Blank);
  }

  /** In the block context an event begins a new line, or ends a collection and prints nothing. */
  lemma BlockBreaks(m: M, e: Event, next: Option<Event>)
    requires EmitEvent(m, e, next).Done? && !m.sink.indention && m.sink.footIndent == -1 && AwaitsValue(m.state) && !IsFlow(m.state)
    ensures var n := EmitEvent(m, e, next).next;
      Then(m.sink.out, BreakText(m.settings.lineBreak), n.sink.out) || (n.sink == m.sink && !IsNodeStart(e) && !m.state.DocumentEndState?)
  {
    hide AnalyzeEvent, EmitNode, WriteIndent, Deeper, IsSimpleKey, EmitDocumentEnd, BlockSequenceEntry, BlockMappingEntry, EmitBlockMappingValue;
    var d := AnalyzeEvent(m, e).value;
    var o := if IsFirst(m.state) then Increase(m, false).next else m;
    if m.state.DocumentEndState? {
      EndBreaks(m, e);
    } else if m.state.BlockSequenceFirstItem? || m.state.BlockSequenceItem? {
      SequenceBreaks(o, e, d, next);
    } else if m.state.BlockMappingFirstKey? || m.state.BlockMappingKey? {
      MappingBreaks(o, e, d, next);
    } else {
      ValueBreaks(m, e, d, next);
    }
  }

  lemma EndBreaks(m: M, e: Event)
    requires EmitDocumentEnd(m, e).Done? && !m.sink.indention
    ensures Then(m.sink.out, BreakText(m.settings.lineBreak), EmitDocumentEnd(m, e).next.sink.out)
  {
    hide WriteIndent, WriteDots;
    var i := m.(sink := m.sink.(footIndent := -1));
    LineBegins(i);
    DotsGrow(Indent(i));
    ThenMore(m.sink.out, BreakText(m.settings.lineBreak), Indent(i).sink.out, EmitDocumentEnd(m, e).next.sink.out);
  }

  lemma LineBegins(m: M)
    requires !m.sink.indention && m.sink.footIndent == -1
    ensures Then(m.sink.out, BreakText(m.settings.lineBreak), Indent(m).sink.out)
  {
    hide WriteIndent;
    IndentBreaks(m);
  }

  lemma SequenceBreaks(m: M, e: Event, d: Data, next: Option<Event>)
    requires BlockSequenceEntry(m, e, d, next).Done? && !m.sink.indention && m.sink.footIndent == -1
    ensures var n := BlockSequenceEntry(m, e, d, next).next;
      Then(m.sink.out, BreakText(m.settings.lineBreak), n.sink.out) || (n.sink == m.sink && e.SequenceEnd?)
  {
    hide EmitNode, WriteIndent;
    if !e.SequenceEnd? {
      LineBegins(m);
      var c := Indicator(Indent(m), "-", true, false, true);
      NodeGrows(PushState(c, BlockSequenceItem), e, d, next, false, false);
      assert Indent(m).sink.out <= c.sink.out;
      ThenMore(m.sink.out, BreakText(m.settings.lineBreak), Indent(m).sink.out, c.sink.out);
      ThenMore(m.sink.out, BreakText(m.settings.lineBreak), c.sink.out, BlockSequenceEntry(m, e, d, next).next.sink.out);
    }
  }

  lemma MappingBreaks(m: M, e: Event, d: Data, next: Option<Event>)
    requires BlockMappingEntry(m, e, d, next).Done? && !m.sink.indention && m.sink.footIndent == -1
    ensures var n := BlockMappingEntry(m, e, d, next).next;
      Then(m.sink.out, BreakText(m.settings.lineBreak), n.sink.out) || (n.sink == m.sink && e.MappingEnd?)
  {
    hide EmitNode, WriteIndent, IsSimpleKey;
    if !e.MappingEnd? {
      LineBegins(m);
      var c := Indicator(Indent(m), "?", true, false, true);
      NodeGrows(PushState(Indent(m), BlockMappingSimpleValue), e, d, next, false, true);
      NodeGrows(PushState(c, BlockMappingValue), e, d, next, false, false);
      assert Indent(m).sink.out <= c.sink.out;
      var n := BlockMappingEntry(m, e, d, next).next;
      assert Indent(m).sink.out <= n.sink.out;
      ThenMore(m.sink.out, BreakText(m.settings.lineBreak), Indent(m).sink.out, n.sink.out);
    }
  }

  lemma ValueBreaks(m: M, e: Event, d: Data, next: Option<Event>)
    requires EmitBlockMappingValue(m, e, d, next, false).Done? && !m.sink.indention && m.sink.footIndent == -1
    ensures Then(m.sink.out, BreakText(m.settings.lineBreak), EmitBlockMappingValue(m, e, d, next, false).next.sink.out)
  {
    hide EmitNode, WriteIndent;
    LineBegins(m);
    var c := Indicator(Indent(m), ":", true, false, true);
    NodeGrows(PushState(c, BlockMappingKey), e, d, next, false, false);
    assert Indent(m).sink.out <= c.sink.out;
    ThenMore(m.sink.out, BreakText(m.settings.lineBreak), Indent(m).sink.out, c.sink.out);
    ThenMore(m.sink.out, BreakText(m.settings.lineBreak), c.sink.out, EmitBlockMappingValue(m, e, d, next, false).next.sink.out);
  }

  /** The end of a block collection leaves a state that still expects no `:`. */
  lemma PoppedAwaits(m: M, e: Event, next: Option<Event>)
    requires Coherent(m) && Upright(m) && EmitEvent(m, e, next).Done? && !IsNodeStart(e) && !m.state.DocumentEndState?
    requires AwaitsValue(m.state) && !IsFlow(m.state)
    ensures AwaitsValue(EmitEvent(m, e, next).next.state)
  {
    hide EmitEvent, StackOf, Acceptable, Step, Tidy, Neat;
    EveryEventIsAnswered(m, e, next);
    var i := |m.states| - 1;
    assert Moved(m, e, EmitEvent(m, e, next).next);
    assert !m.states[i].BlockMappingSimpleValue? && !IsFlow(m.states[i]);
  }

  // ----- Whole runs -----

  lemma StepFollows(m: M, e: Event, next: Option<Event>, q: nat, col: nat, w: Where, plain: bool)
    requires Coherent(m) && Upright(m) && Follows(m, q, col, w, plain) && EmitEvent(m, e, next).Done?
    ensures var n := EmitEvent(m, e, next).next; Coherent(n) && Upright(n) && Follows(n, q, col, w, plain)
  {
    hide EmitEvent, Coherent, Upright, Ended, Waiting, Moved, AnalyzeEvent;
    var n := EmitEvent(m, e, next).next;
    Accepted(m, e, next);
    if Ended(m.sink.out, q, col, w, plain) {
      assert n.sink.out == m.sink.out + n.sink.out[|m.sink.out|..];
      EndedGrows(m.sink.out, n.sink.out[|m.sink.out|..], q, col, w, plain);
    } else if Fresh(m, q, col, w, plain) {
      if w.flowLevel > 0 { FlowFresh(m, e, next, q, col, w, plain); } else { BlockFresh(m, e, next, q, col, w, plain); }
    } else {
      StillWaiting(m, e, next, q, col, w);
    }
  }

  lemma {:induction false} RangeFollows(m: M, evs: seq<Event>, p: nat, k: nat, q: nat, col: nat, w: Where, plain: bool)
    requires Coherent(m) && Upright(m) && Follows(m, q, col, w, plain) && p <= k <= |evs| && EmitRange(m, evs, p, k).Done?
    ensures var n := EmitRange(m, evs, p, k).next; m.sink.out <= n.sink.out && Follows(n, q, col, w, plain)
    decreases k - p
  {
    hide EmitEvent, Coherent, Upright, Follows;
    if p < k {
      StepFollows(m, evs[p], Look(evs, p), q, col, w, plain);
      EventGrows(m, evs[p], Look(evs, p));
      var n := EmitEvent(m, evs[p], Look(evs, p)).next;
      RangeFollows(n, evs, p + 1, k, q, col, w, plain);
      ThroughEarlier(m.sink, n.sink, EmitRange(n, evs, p + 1, k).next.sink.out);
    }
  }
}
