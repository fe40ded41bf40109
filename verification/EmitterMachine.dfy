/** The emitter's state machine (emitterc.go): events in, text out.

    `EmitEvent` is one turn of `yaml_emitter_state_machine` (with the analysis before it) as a
    function of the emitter's fields; class `StreamEmitter.Emitter` performs the assignments and is
    proved to compute it. `Crash` marks the places where the source would index an empty stack or let
    the flow level go below zero. No event carries a comment. */
module EmitterMachine {
  import opened Chars
  import opened Options
  import opened Events
  import opened ScalarEmitter
  import TagUri

  datatype EmitterState =
    | StreamStartState | FirstDocumentStart | NextDocumentStart | DocumentContent | DocumentEndState
    | FlowSequenceFirstItem | FlowSequenceItem
    | FlowMappingFirstKey | FlowMappingKey | FlowMappingSimpleValue | FlowMappingValue
    | BlockSequenceFirstItem | BlockSequenceItem
    | BlockMappingFirstKey | BlockMappingKey | BlockMappingSimpleValue | BlockMappingValue
    | EndState

  datatype M = M(sink: Sink, openEnded: bool, state: EmitterState, states: seq<EmitterState>,
                 indents: seq<int>, indent: int, flowLevel: nat, directives: seq<(string, string)>, settings: Settings)

  datatype Problem =
    | ExpectedStreamStart | ExpectedDocumentStart | ExpectedDocumentEnd | ExpectedNode | ExpectedNothing
    | BadDirective | DuplicateDirective | BadAnchor | NoTag

  datatype Outcome = Done(next: M) | Refused(problem: Problem) | Crash

  function Cfg(m: M): Config {
    Config(m.indent, m.settings.bestWidth, m.settings.lineBreak, m.settings.unicode)
  }

  function Last<T>(s: seq<T>): T
    requires s != []
  {
    s[|s| - 1]
  }

  function Init<T>(s: seq<T>): seq<T>
    requires s != []
  {
    s[..|s| - 1]
  }

  // ----- Text -----

  function Indicator(m: M, t: string, needWhitespace: bool, isWhitespace: bool, isIndention: bool): M {
    m.(sink := WriteIndicator(m.sink, t, needWhitespace, isWhitespace, isIndention), openEnded := false)
  }

  function Indent(m: M): M { m.(sink := WriteIndent(Cfg(m), m.sink)) }

  function Word(s: Sink, t: string, needWhitespace: bool): Sink {
    Put(if needWhitespace && !s.whitespace then Put(s, " ") else s, t).(whitespace := false, indention := false)
  }

  /** What `analyze_event` keeps of an event. */
  datatype Data = Data(anchor: string, alias: bool, handle: string, suffix: string)

  function ProcessAnchor(m: M, d: Data): M {
    if d.anchor == "" then m
    else
      var m1 := Indicator(m, if d.alias then "*" else "&", true, false, false);
      m1.(sink := Word(m1.sink, d.anchor, false))
  }

  function ProcessTag(m: M, d: Data): M {
    if d.handle == "" && d.suffix == "" then m
    else if d.handle != "" then
      var m1 := m.(sink := Word(m.sink, d.handle, true));
      if d.suffix == "" then m1 else m1.(sink := Word(m1.sink, TagUri.TagText(d.suffix), false))
    else
      var m1 := Indicator(m, "!<", true, false, false);
      Indicator(m1.(sink := Word(m1.sink, TagUri.TagText(d.suffix), false)), ">", false, false, false)
  }

  // ----- Literal and folded scalars -----

  /** `write_block_scalar_hints`. The `+` hint sets `open_ended`, and printing it clears it again. */
  function BlockHints(m: M, v: string): M
    requires v != ""
  {
    var m1 :=
      if v[0] == ' ' || IsBreak(v[0]) then
        Indicator(m, if 0 <= m.settings.bestIndent <= 9 then ['0' + m.settings.bestIndent as char] else "", false, false, false)
      else m;
    var m2 := m1.(openEnded := false);
    if !IsBreak(v[|v| - 1]) then Indicator(m2, "-", false, false, false)
    else if |v| == 1 || IsBreak(v[|v| - 2]) then Indicator(m2.(openEnded := true), "+", false, false, false)
    else m2
  }

  function LiteralText(cfg: Config, v: string, i: nat, s: Sink, breaks: bool): Sink
    decreases |v| - i
  {
    if i >= |v| then s
    else if IsBreak(v[i]) then LiteralText(cfg, v, i + 1, WriteBreak(cfg, s, v[i]), true)
    else
      var s1 := if breaks then WriteIndent(cfg, s) else s;
      LiteralText(cfg, v, i + 1, Put(s1, [v[i]]).(indention := false), false)
  }

  function SkipBreaks(v: string, k: nat): nat
    decreases |v| - k
  {
    if k < |v| && IsBreak(v[k]) then SkipBreaks(v, k + 1) else k
  }

  /** The look-ahead for a doubled break starts at the beginning of the value, not at `i`. */
  function FoldedText(cfg: Config, v: string, i: nat, s: Sink, breaks: bool, leading: bool): Sink
    decreases |v| - i
  {
    if i >= |v| then s
    else if IsBreak(v[i]) then
      var s1 := if !breaks && !leading && v[i] == '\n' && !IsBlankz(At(v, SkipBreaks(v, 0))) then PutBreak(cfg, s) else s;
      FoldedText(cfg, v, i + 1, WriteBreak(cfg, s1, v[i]), true, leading)
    else
      var s1 := if breaks then WriteIndent(cfg, s) else s;
      var leading1 := if breaks then IsBlank(v[i]) else leading;
      var s2 :=
        if !breaks && v[i] == ' ' && At(v, i + 1) != ' ' && s1.column > cfg.bestWidth then WriteIndent(cfg, s1)
        else Put(s1, [v[i]]);
      FoldedText(cfg, v, i + 1, s2.(indention := false), false, leading1)
  }

  function WriteBlock(m: M, v: string, folded: bool): M
    requires v != ""
  {
    var m1 := BlockHints(Indicator(m, if folded then ">" else "|", true, false, false), v);
    var s := m1.sink.(whitespace := true);
    m1.(sink := if folded then FoldedText(Cfg(m1), v, 0, s, true, true) else LiteralText(Cfg(m1), v, 0, s, true))
  }

  // ----- Analysis -----

  /** The one description of a value (see `ScalarEmitter.Describes`). */
  ghost function AnalysisOf(v: string, unicode: bool): (d: ScalarData)
    ensures Describes(d, v, unicode)
  {
    ScalarData(HasBreak(v),
               v != "" && SingleTrimmedLine(v) && Quotable(v, unicode) && NoFlowIndicator(v),
               SingleTrimmedLine(v) && Quotable(v, unicode) && NoBlockIndicator(v),
               Quotable(v, unicode),
               v != "" && v[|v| - 1] != ' ' && forall i :: 0 <= i < |v| ==> !SpecialAt(v, i, unicode) && !SpaceBreakAt(v, i))
  }

  predicate AllAlpha(s: string) { forall i :: 0 <= i < |s| ==> IsAlpha(s[i]) }

  /** The first directive whose prefix begins the tag gives its handle. */
  function SplitTag(ds: seq<(string, string)>, tag: string): (string, string) {
    if ds == [] then ("", tag)
    else if ds[0].1 <= tag then (ds[0].0, tag[|ds[0].1|..])
    else SplitTag(ds[1..], tag)
  }

  predicate UsesTag(m: M, e: Event) {
    match e
    case Scalar(_, tag, _, implicit, quotedImplicit, _) => tag != "" && (m.settings.canonical || (!implicit && !quotedImplicit))
    case SequenceStart(_, tag, implicit, _) => tag != "" && (m.settings.canonical || !implicit)
    case MappingStart(_, tag, implicit, _) => tag != "" && (m.settings.canonical || !implicit)
    case _ => false
  }

  function AnchorOf(e: Event): string {
    match e
    case Alias(name) => name
    case Scalar(anchor, _, _, _, _, _) => anchor
    case SequenceStart(anchor, _, _, _) => anchor
    case MappingStart(anchor, _, _, _) => anchor
    case _ => ""
  }

  function TagOf(e: Event): string {
    match e
    case Scalar(_, tag, _, _, _, _) => tag
    case SequenceStart(_, tag, _, _) => tag
    case MappingStart(_, tag, _, _) => tag
    case _ => ""
  }

  /** `analyze_event`; None when an anchor or alias is not alphanumerical, or an alias is empty. */
  function AnalyzeEvent(m: M, e: Event): Option<Data> {
    if !AllAlpha(AnchorOf(e)) || (e.Alias? && e.name == "") then None
    else
      var (handle, suffix) := if UsesTag(m, e) then SplitTag(m.directives, TagOf(e)) else ("", "");
      Some(Data(AnchorOf(e), e.Alias?, handle, suffix))
  }

  // ----- Nodes -----

  function Octets(s: string): nat { |EncodeAll(s)| }

  predicate IsEmptySequence(e: Event, next: Option<Event>) { e.SequenceStart? && next == Some(SequenceEnd) }

  predicate IsEmptyMapping(e: Event, next: Option<Event>) { e.MappingStart? && next == Some(MappingEnd) }

  /** `check_simple_key`: a one-line scalar, an alias or an empty collection of at most 128 octets. */
  ghost predicate IsSimpleKey(m: M, e: Event, d: Data, next: Option<Event>) {
    match e
    case Alias(_) => Octets(d.anchor) <= 128
    case Scalar(_, _, value, _, _, _) =>
      !HasBreak(value) && Octets(d.anchor) + Octets(d.handle) + Octets(d.suffix) + Octets(value) <= 128
    case SequenceStart(_, _, _, _) =>
      IsEmptySequence(e, next) && Octets(d.anchor) + Octets(d.handle) + Octets(d.suffix) <= 128
    case MappingStart(_, _, _, _) =>
      IsEmptyMapping(e, next) && Octets(d.anchor) + Octets(d.handle) + Octets(d.suffix) <= 128
    case _ => false
  }

  function StyleOf(s: ScalarStyle): Style {
    match s
    case AnyStyle => Any
    case PlainStyle => Plain
    case SingleQuotedStyle => SingleQuoted
    case DoubleQuotedStyle => DoubleQuoted
    case LiteralStyle => Literal
    case FoldedStyle => Folded
  }

  /** The indentation `increase_indent` moves to. */
  function Deeper(m: M, flow: bool): int
    requires m.settings.bestIndent > 0
  {
    if m.indent < 0 then (if flow then m.settings.bestIndent else 0)
    else if m.states != [] && Last(m.states).BlockSequenceItem? then m.indent + 2
    else m.settings.bestIndent * ((m.indent + m.settings.bestIndent) / m.settings.bestIndent)
  }

  function Increase(m: M, flow: bool): Outcome {
    if (m.indent >= 0 && m.states == []) || m.settings.bestIndent <= 0 then Crash
    else Done(m.(indents := m.indents + [m.indent], indent := Deeper(m, flow)))
  }

  function PopIndent(m: M): Outcome {
    if m.indents == [] then Crash else Done(m.(indent := Last(m.indents), indents := Init(m.indents)))
  }

  function PopState(m: M): Outcome {
    if m.states == [] then Crash else Done(m.(state := Last(m.states), states := Init(m.states)))
  }

  function PushState(m: M, s: EmitterState): M { m.(states := m.states + [s]) }

  ghost function ChosenStyle(m: M, e: Event, d: Data, simpleKey: bool): Style
    requires e.Scalar?
  {
    SelectStyle(Context(m.flowLevel, simpleKey, m.settings.canonical, d.handle == "" && d.suffix == "", e.implicit, e.quotedImplicit),
                StyleOf(e.style), AnalysisOf(e.value, m.settings.unicode), e.value)
  }

  /** A plain scalar at the root of a document leaves the document open-ended. */
  function ProcessScalar(m: M, v: string, style: Style, root: bool, simpleKey: bool): M
    requires !style.Any?
    requires style.Literal? || style.Folded? ==> v != ""
  {
    if style.Literal? || style.Folded? then WriteBlock(m, v, style.Folded?)
    else m.(sink := WriteScalar(Cfg(m), m.sink, v, style, !simpleKey), openEnded := style.Plain? && (root || m.openEnded))
  }

  ghost function EmitScalar(m: M, e: Event, d: Data, root: bool, simpleKey: bool): Outcome
    requires e.Scalar?
  {
    var noTag := d.handle == "" && d.suffix == "";
    if noTag && !e.implicit && !e.quotedImplicit then Refused(NoTag)
    else
      var style := ChosenStyle(m, e, d, simpleKey);
      var d1 := if noTag && !e.quotedImplicit && !style.Plain? then d.(handle := "!") else d;
      match Increase(ProcessTag(ProcessAnchor(m, d), d1), true)
      case Done(m1) =>
        (match PopIndent(ProcessScalar(m1, e.value, style, root, simpleKey))
         case Done(m2) => PopState(m2)
         case o => o)
      case o => o
  }

  ghost function EmitNode(m: M, e: Event, d: Data, next: Option<Event>, root: bool, simpleKey: bool): Outcome {
    match e
    case Alias(_) => PopState(ProcessAnchor(m, d))
    case Scalar(_, _, _, _, _, _) => EmitScalar(m, e, d, root, simpleKey)
    case SequenceStart(_, _, _, collection) =>
      var flow := m.flowLevel > 0 || m.settings.canonical || collection.Flow? || IsEmptySequence(e, next);
      Done(ProcessTag(ProcessAnchor(m, d), d).(state := if flow then FlowSequenceFirstItem else BlockSequenceFirstItem))
    case MappingStart(_, _, _, collection) =>
      var flow := m.flowLevel > 0 || m.settings.canonical || collection.Flow? || IsEmptyMapping(e, next);
      Done(ProcessTag(ProcessAnchor(m, d), d).(state := if flow then FlowMappingFirstKey else BlockMappingFirstKey))
    case _ => Refused(ExpectedNode)
  }

  // ----- Stream and documents -----

  function EmitStreamStart(m: M, e: Event): Outcome {
    if !e.StreamStart? then Refused(ExpectedStreamStart)
    else
      var bestIndent := if m.settings.bestIndent < 2 || m.settings.bestIndent > 9 then 2 else m.settings.bestIndent;
      var bestWidth :=
        if 0 <= m.settings.bestWidth <= bestIndent * 2 then 80
        else if m.settings.bestWidth < 0 then 0x7FFF_FFFF
        else m.settings.bestWidth;
      Done(m.(settings := m.settings.(bestIndent := bestIndent, bestWidth := bestWidth), indent := -1,
              sink := m.sink.(column := 0, whitespace := true, indention := true, footIndent := -1),
              state := FirstDocumentStart))
  }

  /** `analyze_tag_directive`. */
  predicate ValidDirective(d: (string, string)) {
    && d.0 != "" && d.0[0] == '!' && d.0[|d.0| - 1] == '!' && d.1 != ""
    && forall i :: 1 <= i < |d.0| - 1 ==> IsAlpha(d.0[i])
  }

  predicate HasHandle(ds: seq<(string, string)>, handle: string) {
    exists i :: 0 <= i < |ds| && ds[i].0 == handle
  }

  datatype Directives = Directives(all: seq<(string, string)>) | DirectiveError(problem: Problem)

  function AddDirectives(ds: seq<(string, string)>, given: seq<(string, string)>): Directives
    decreases |given|
  {
    if given == [] then Directives(ds)
    else if !ValidDirective(given[0]) then DirectiveError(BadDirective)
    else if HasHandle(ds, given[0].0) then DirectiveError(DuplicateDirective)
    else AddDirectives(ds + [given[0]], given[1..])
  }

  const DEFAULT_DIRECTIVES: seq<(string, string)> := [("!", "!"), ("!!", "tag:yaml.org,2002:")]

  function AddDefaults(ds: seq<(string, string)>): seq<(string, string)> {
    var d1 := if HasHandle(ds, DEFAULT_DIRECTIVES[0].0) then ds else ds + [DEFAULT_DIRECTIVES[0]];
    if HasHandle(d1, DEFAULT_DIRECTIVES[1].0) then d1 else d1 + [DEFAULT_DIRECTIVES[1]]
  }

  function WriteDirective(m: M, d: (string, string)): M {
    var m1 := Indicator(m, "%TAG", true, false, false);
    Indent(m1.(sink := Word(Word(m1.sink, d.0, true), TagUri.TagText(d.1), true)))
  }

  function WriteDirectives(m: M, ds: seq<(string, string)>): M
    decreases |ds|
  {
    if ds == [] then m else WriteDirectives(WriteDirective(m, ds[0]), ds[1..])
  }

  function WriteDots(m: M): M { Indent(Indicator(m, "...", true, false, false)) }

  /** Everything `emit_document_start` prints once the directives are known. */
  function DocumentHeader(m1: M, e: Event, first: bool): M
    requires e.DocumentStart?
  {
    var m2 := if m1.openEnded && (e.version || e.directives != []) then WriteDots(m1) else m1;
    var m3 :=
      if e.version then Indent(Indicator(Indicator(m2, "%YAML", true, false, false), "1.1", true, false, false)) else m2;
    var m4 := WriteDirectives(m3, e.directives);
    var implicit := e.implicitStart && first && !m1.settings.canonical && !e.version && e.directives == [];
    if implicit then m4 else Indent(Indicator(Indent(m4), "---", true, false, false))
  }

  function EmitDocumentStart(m: M, e: Event, first: bool): Outcome {
    if e.StreamEnd? then Done((if m.openEnded then WriteDots(m) else m).(state := EndState))
    else if !e.DocumentStart? then Refused(ExpectedDocumentStart)
    else
      match AddDirectives(m.directives, e.directives)
      case DirectiveError(problem) => Refused(problem)
      case Directives(ds) => Done(DocumentHeader(m.(directives := AddDefaults(ds)), e, first).(state := DocumentContent))
  }

  function EmitDocumentEnd(m: M, e: Event): Outcome {
    if !e.DocumentEnd? then Refused(ExpectedDocumentEnd)
    else
      var m1 := Indent(m.(sink := m.sink.(footIndent := -1)));
      var m2 := if e.implicitEnd then m1 else WriteDots(m1);
      Done(m2.(state := NextDocumentStart, directives := []))
  }

  // ----- Collections -----

  function OpenFlow(m: M, bracket: string): (o: Outcome)
    ensures !o.Refused?
  {
    match Increase(Indicator(m, bracket, true, true, false), true)
    case Done(m1) => Done(m1.(flowLevel := m1.flowLevel + 1))
    case o => o
  }

  /** The end of a flow collection, after any comma. */
  function CloseFlow(m: M, bracket: string, indentWhen: bool): (o: Outcome)
    ensures !o.Refused?
  {
    if m.flowLevel == 0 then Crash
    else
      match PopIndent(m.(flowLevel := m.flowLevel - 1))
      case Done(m1) => PopState(Indicator(if indentWhen then Indent(m1) else m1, bracket, false, false, false))
      case o => o
  }

  /** Comma and line break before a flow entry. */
  function BeforeEntry(m: M, first: bool): M {
    var m1 := if first then m else Indicator(m, ",", false, false, false);
    var m2 := if m1.sink.column == 0 then Indent(m1) else m1;
    if m2.settings.canonical || m2.sink.column > m2.settings.bestWidth then Indent(m2) else m2
  }

  function TrailingComma(m: M, first: bool): M {
    if m.settings.canonical && !first then Indicator(m, ",", false, false, false) else m
  }

  ghost function FlowSequenceEntry(m: M, e: Event, d: Data, next: Option<Event>, first: bool): Outcome {
    if e.SequenceEnd? then
      var m1 := TrailingComma(m, first);
      CloseFlow(m1, "]", m1.sink.column == 0 || (m1.settings.canonical && !first))
    else EmitNode(PushState(BeforeEntry(m, first), FlowSequenceItem), e, d, next, false, false)
  }

  ghost function EmitFlowSequence(m: M, e: Event, d: Data, next: Option<Event>, first: bool): Outcome {
    if first then
      match OpenFlow(m, "[")
      case Done(m1) => FlowSequenceEntry(m1, e, d, next, true)
      case o => o
    else FlowSequenceEntry(m, e, d, next, false)
  }

  ghost function FlowMappingEntry(m: M, e: Event, d: Data, next: Option<Event>, first: bool): Outcome {
    if e.MappingEnd? then
      var m1 := TrailingComma(m, first);
      CloseFlow(m1, "}", m1.settings.canonical && !first)
    else
      var m1 := BeforeEntry(m, first);
      if !m1.settings.canonical && IsSimpleKey(m1, e, d, next) then
        EmitNode(PushState(m1, FlowMappingSimpleValue), e, d, next, false, true)
      else
        EmitNode(PushState(Indicator(m1, "?", true, false, false), FlowMappingValue), e, d, next, false, false)
  }

  ghost function EmitFlowMappingKey(m: M, e: Event, d: Data, next: Option<Event>, first: bool): Outcome {
    if first then
      match OpenFlow(m, "{")
      case Done(m1) => FlowMappingEntry(m1, e, d, next, true)
      case o => o
    else FlowMappingEntry(m, e, d, next, false)
  }

  ghost function EmitFlowMappingValue(m: M, e: Event, d: Data, next: Option<Event>, simple: bool): Outcome {
    var m1 :=
      if simple then Indicator(m, ":", false, false, false)
      else
        Indicator(if m.settings.canonical || m.sink.column > m.settings.bestWidth then Indent(m) else m, ":", true, false, false);
    EmitNode(PushState(m1, FlowMappingKey), e, d, next, false, false)
  }

  function CloseBlock(m: M): Outcome {
    match PopIndent(m)
    case Done(m1) => PopState(m1)
    case o => o
  }

  ghost function BlockSequenceEntry(m: M, e: Event, d: Data, next: Option<Event>): Outcome {
    if e.SequenceEnd? then CloseBlock(m)
    else EmitNode(PushState(Indicator(Indent(m), "-", true, false, true), BlockSequenceItem), e, d, next, false, false)
  }

  ghost function EmitBlockSequence(m: M, e: Event, d: Data, next: Option<Event>, first: bool): Outcome {
    if first then
      match Increase(m, false)
      case Done(m1) => BlockSequenceEntry(m1, e, d, next)
      case o => o
    else BlockSequenceEntry(m, e, d, next)
  }

  ghost function BlockMappingEntry(m: M, e: Event, d: Data, next: Option<Event>): Outcome {
    if e.MappingEnd? then CloseBlock(m)
    else
      var m1 := Indent(m);
      if IsSimpleKey(m1, e, d, next) then EmitNode(PushState(m1, BlockMappingSimpleValue), e, d, next, false, true)
      else EmitNode(PushState(Indicator(m1, "?", true, false, true), BlockMappingValue), e, d, next, false, false)
  }

  ghost function EmitBlockMappingKey(m: M, e: Event, d: Data, next: Option<Event>, first: bool): Outcome {
    if first then
      match Increase(m, false)
      case Done(m1) => BlockMappingEntry(m1, e, d, next)
      case o => o
    else BlockMappingEntry(m, e, d, next)
  }

  ghost function EmitBlockMappingValue(m: M, e: Event, d: Data, next: Option<Event>, simple: bool): Outcome {
    var m1 := if simple then Indicator(m, ":", false, false, false) else Indicator(Indent(m), ":", true, false, true);
    EmitNode(PushState(m1, BlockMappingKey), e, d, next, false, false)
  }

  /** One event; `next` is the event queued behind it, if any. */
  ghost function EmitEvent(m: M, e: Event, next: Option<Event>): Outcome {
    match AnalyzeEvent(m, e)
    case None => Refused(BadAnchor)
    case Some(d) => Dispatch(m, e, d, next)
  }

  ghost function Dispatch(m: M, e: Event, d: Data, next: Option<Event>): Outcome {
    match m.state
    case StreamStartState => EmitStreamStart(m, e)
    case FirstDocumentStart => EmitDocumentStart(m, e, true)
    case NextDocumentStart => EmitDocumentStart(m, e, false)
    case DocumentContent => EmitNode(PushState(m, DocumentEndState), e, d, next, true, false)
    case DocumentEndState => EmitDocumentEnd(m, e)
    case FlowSequenceFirstItem => EmitFlowSequence(m, e, d, next, true)
    case FlowSequenceItem => EmitFlowSequence(m, e, d, next, false)
    case FlowMappingFirstKey => EmitFlowMappingKey(m, e, d, next, true)
    case FlowMappingKey => EmitFlowMappingKey(m, e, d, next, false)
    case FlowMappingSimpleValue => EmitFlowMappingValue(m, e, d, next, true)
    case FlowMappingValue => EmitFlowMappingValue(m, e, d, next, false)
    case BlockSequenceFirstItem => EmitBlockSequence(m, e, d, next, true)
    case BlockSequenceItem => EmitBlockSequence(m, e, d, next, false)
    case BlockMappingFirstKey => EmitBlockMappingKey(m, e, d, next, true)
    case BlockMappingKey => EmitBlockMappingKey(m, e, d, next, false)
    case BlockMappingSimpleValue => EmitBlockMappingValue(m, e, d, next, true)
    case BlockMappingValue => EmitBlockMappingValue(m, e, d, next, false)
    case EndState => Refused(ExpectedNothing)
  }

  function Initial(settings: Settings): M {
    M(Sink("", 0, true, true, -1), false, StreamStartState, [], [], -1, 0, [], settings)
  }
}
