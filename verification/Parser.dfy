/** The pushdown parser (parserc.go): tokens in, events out.

    `Next` is one call of `yaml_parser_parse` as a function of the parser's fields; class `Parser`
    performs the source's assignments and is proved to compute it. `Crash` marks the places where
    the source would index an empty stack. */
module Parser {
  import opened Options
  import opened Events
  import opened Tokens

  datatype State =
    | StreamStartState | ImplicitDocumentStart | DocumentStartState | DocumentContent | DocumentEndState
    | BlockNode
    | BlockSequenceFirstEntry | BlockSequenceEntry | IndentlessSequenceEntry
    | BlockMappingFirstKey | BlockMappingKey | BlockMappingValue
    | FlowSequenceFirstEntry | FlowSequenceEntry
    | FlowSequenceEntryMappingKey | FlowSequenceEntryMappingValue | FlowSequenceEntryMappingEnd
    | FlowMappingFirstKey | FlowMappingKey | FlowMappingValue | FlowMappingEmptyValue
    | EndState

  datatype Problem =
    | OutOfTokens             // the scanner could not deliver a token
    | ExpectedStreamStart | ExpectedDocumentStart
    | DuplicateVersion | IncompatibleDocument | DuplicateTagDirective
    | UndefinedTagHandle | ExpectedNode | ExpectedBlockEntry | ExpectedKey
    | ExpectedFlowSequenceEnd | ExpectedFlowMappingEnd

  /** `marks` holds the position of each open collection's start token, for error messages. */
  datatype P = P(tokens: seq<Token>, pos: nat, state: State, states: seq<State>, marks: seq<nat>,
                 directives: seq<(string, string)>)

  datatype Outcome = Emit(event: Event, next: P) | Error(problem: Problem) | Crash

  predicate HasToken(p: P) { p.pos < |p.tokens| }

  function Peek(p: P): Token
    requires HasToken(p)
  {
    p.tokens[p.pos]
  }

  function Skip(p: P): P { p.(pos := p.pos + 1) }

  function Last<T>(s: seq<T>): T
    requires s != []
  {
    s[|s| - 1]
  }

  function Init<T>(s: seq<T>): seq<T>
    requires s != []
  {
    s[..|s| - 1]
  }

  function Push(p: P, s: State): P { p.(states := p.states + [s]) }

  function EmitPop(p: P, e: Event): Outcome {
    if p.states == [] then Crash
    else Emit(e, p.(state := Last(p.states), states := Init(p.states)))
  }

  function EmitPopMark(p: P, e: Event): Outcome {
    if p.states == [] || p.marks == [] then Crash
    else Emit(e, p.(state := Last(p.states), states := Init(p.states), marks := Init(p.marks)))
  }

  function ErrorPopMark(p: P, problem: Problem): Outcome {
    if p.marks == [] then Crash else Error(problem)
  }

  const EMPTY_SCALAR := Scalar("", "", "", true, false, PlainStyle)

  // ----- Directives -----

  const DEFAULT_DIRECTIVES: seq<(string, string)> := [("!", "!"), ("!!", "tag:yaml.org,2002:")]

  predicate HasHandle(ds: seq<(string, string)>, handle: string) {
    exists i :: 0 <= i < |ds| && ds[i].0 == handle
  }

  /** The default directives, unless the document defines the handle itself. */
  function AddDefaults(ds: seq<(string, string)>): seq<(string, string)> {
    var d1 := if HasHandle(ds, DEFAULT_DIRECTIVES[0].0) then ds else ds + [DEFAULT_DIRECTIVES[0]];
    if HasHandle(d1, DEFAULT_DIRECTIVES[1].0) then d1 else d1 + [DEFAULT_DIRECTIVES[1]]
  }

  datatype Directives = Directives(next: P, version: bool, tags: seq<(string, string)>) | BadDirective(problem: Problem)

  function ProcessDirectives(p: P, version: bool, tags: seq<(string, string)>): Directives
    decreases |p.tokens| - p.pos
  {
    if !HasToken(p) then BadDirective(OutOfTokens)
    else
      match Peek(p)
      case VersionDirective(major, minor) =>
        if version then BadDirective(DuplicateVersion)
        else if major != 1 || minor != 1 then BadDirective(IncompatibleDocument)
        else ProcessDirectives(Skip(p), true, tags)
      case TagDirective(handle, prefix) =>
        if HasHandle(p.directives, handle) then BadDirective(DuplicateTagDirective)
        else ProcessDirectives(Skip(p).(directives := p.directives + [(handle, prefix)]), version, tags + [(handle, prefix)])
      case _ => Directives(p.(directives := AddDefaults(p.directives)), version, tags)
  }

  // ----- Documents -----

  function ParseStreamStart(p: P): Outcome {
    if !HasToken(p) then Error(OutOfTokens)
    else if !Peek(p).StreamStartToken? then Error(ExpectedStreamStart)
    else Emit(StreamStart, Skip(p).(state := ImplicitDocumentStart))
  }

  function SkipDocumentEnds(p: P): P
    decreases |p.tokens| - p.pos
  {
    if HasToken(p) && Peek(p).DocumentEndToken? then SkipDocumentEnds(Skip(p)) else p
  }

  function ParseDocumentStart(p0: P, implicit: bool): Outcome {
    var p := if implicit then p0 else SkipDocumentEnds(p0);
    if !HasToken(p) then Error(OutOfTokens)
    else
      var t := Peek(p);
      if implicit && !t.VersionDirective? && !t.TagDirective? && !t.DocumentStartToken? && !t.StreamEndToken? then
        match ProcessDirectives(p, false, [])
        case BadDirective(problem) => Error(problem)
        case Directives(q, _, _) => Emit(DocumentStart(false, false, []), Push(q, DocumentEndState).(state := BlockNode))
      else if !t.StreamEndToken? then
        match ProcessDirectives(p, false, [])
        case BadDirective(problem) => Error(problem)
        case Directives(q, version, tags) =>
          if !HasToken(q) then Error(OutOfTokens)
          else if !Peek(q).DocumentStartToken? then Error(ExpectedDocumentStart)
          else Emit(DocumentStart(false, version, tags), Skip(Push(q, DocumentEndState)).(state := DocumentContent))
      else Emit(StreamEnd, Skip(p).(state := EndState))
  }

  function ParseDocumentContent(p: P): Outcome {
    if !HasToken(p) then Error(OutOfTokens)
    else
      var t := Peek(p);
      if t.VersionDirective? || t.TagDirective? || t.DocumentStartToken? || t.DocumentEndToken? || t.StreamEndToken? then
        EmitPop(p, EMPTY_SCALAR)
      else ParseNode(p, true, false)
  }

  function ParseDocumentEnd(p: P): Outcome {
    if !HasToken(p) then Error(OutOfTokens)
    else
      var explicit := Peek(p).DocumentEndToken?;
      Emit(DocumentEnd(!explicit), (if explicit then Skip(p) else p).(directives := [], state := DocumentStartState))
  }

  // ----- Nodes -----

  /** Anchor and tag in either order; `tag` keeps handle and suffix. */
  datatype Properties = Properties(next: P, anchor: string, tag: Option<(string, string)>) | NoToken

  function ReadProperties(p: P): Properties
    requires HasToken(p)
  {
    match Peek(p)
    case Anchor(name) =>
      var q := Skip(p);
      if !HasToken(q) then NoToken
      else
        (match Peek(q)
         case Tag(h, s) => if HasToken(Skip(q)) then Properties(Skip(q), name, Some((h, s))) else NoToken
         case _ => Properties(q, name, None))
    case Tag(h, s) =>
      var q := Skip(p);
      if !HasToken(q) then NoToken
      else
        (match Peek(q)
         case Anchor(name) => if HasToken(Skip(q)) then Properties(Skip(q), name, Some((h, s))) else NoToken
         case _ => Properties(q, "", Some((h, s))))
    case _ => Properties(p, "", None)
  }

  function Prefix(ds: seq<(string, string)>, handle: string): Option<string> {
    if ds == [] then None
    else if ds[0].0 == handle then Some(ds[0].1)
    else Prefix(ds[1..], handle)
  }

  /** The resolved tag; None when the handle is undefined. */
  function ResolveTag(ds: seq<(string, string)>, tag: Option<(string, string)>): Option<string> {
    match tag
    case None => Some("")
    case Some((handle, suffix)) =>
      if handle == "" then Some(suffix)
      else
        match Prefix(ds, handle)
        case None => None
        case Some(prefix) => if prefix + suffix == "" then None else Some(prefix + suffix)
  }

  function ScalarEvent(anchor: string, tag: string, value: string, style: ScalarStyle): Event {
    var plain := (tag == "" && style.PlainStyle?) || tag == "!";
    Scalar(anchor, tag, value, plain, !plain && tag == "", style)
  }

  function ParseNode(p: P, block: bool, indentless: bool): Outcome {
    if !HasToken(p) then Error(OutOfTokens)
    else if Peek(p).AliasToken? then EmitPop(Skip(p), Alias(Peek(p).name))
    else
      match ReadProperties(p)
      case NoToken => Error(OutOfTokens)
      case Properties(q, anchor, rawTag) =>
        match ResolveTag(q.directives, rawTag)
        case None => Error(UndefinedTagHandle)
        case Some(tag) => ParseContent(q, anchor, tag, block, indentless)
  }

  function ParseContent(q: P, anchor: string, tag: string, block: bool, indentless: bool): Outcome
    requires HasToken(q)
  {
    var implicit := tag == "";
    match Peek(q)
    case BlockEntry =>
      if indentless then Emit(SequenceStart(anchor, tag, implicit, Block), q.(state := IndentlessSequenceEntry))
      else ParseNoContent(q, anchor, tag)
    case ScalarToken(value, style) => EmitPop(Skip(q), ScalarEvent(anchor, tag, value, style))
    case FlowSequenceStart => Emit(SequenceStart(anchor, tag, implicit, Flow), q.(state := FlowSequenceFirstEntry))
    case FlowMappingStart => Emit(MappingStart(anchor, tag, implicit, Flow), q.(state := FlowMappingFirstKey))
    case BlockSequenceStart =>
      if block then Emit(SequenceStart(anchor, tag, implicit, Block), q.(state := BlockSequenceFirstEntry))
      else ParseNoContent(q, anchor, tag)
    case BlockMappingStart =>
      if block then Emit(MappingStart(anchor, tag, implicit, Block), q.(state := BlockMappingFirstKey))
      else ParseNoContent(q, anchor, tag)
    case _ => ParseNoContent(q, anchor, tag)
  }

  /** Properties without content stand for an empty scalar. */
  function ParseNoContent(q: P, anchor: string, tag: string): Outcome {
    if anchor != "" || tag != "" then EmitPop(q, Scalar(anchor, tag, "", tag == "", false, PlainStyle))
    else Error(ExpectedNode)
  }

  // ----- Block collections -----

  function Enter(p: P): P { Skip(p).(marks := p.marks + [p.pos]) }

  function ParseBlockSequenceEntry(p0: P, first: bool): Outcome {
    if first && !HasToken(p0) then Error(OutOfTokens)
    else
      var p := if first then Enter(p0) else p0;
      if !HasToken(p) then Error(OutOfTokens)
      else
        match Peek(p)
        case BlockEntry =>
          var q := Skip(p);
          if !HasToken(q) then Error(OutOfTokens)
          else if !Peek(q).BlockEntry? && !Peek(q).BlockEnd? then ParseNode(Push(q, BlockSequenceEntry), true, false)
          else Emit(EMPTY_SCALAR, q.(state := BlockSequenceEntry))
        case BlockEnd => EmitPopMark(Skip(p), SequenceEnd)
        case _ => ErrorPopMark(p, ExpectedBlockEntry)
  }

  function ParseIndentlessSequenceEntry(p: P): Outcome {
    if !HasToken(p) then Error(OutOfTokens)
    else if Peek(p).BlockEntry? then
      var q := Skip(p);
      if !HasToken(q) then Error(OutOfTokens)
      else
        var t := Peek(q);
        if !t.BlockEntry? && !t.Key? && !t.Value? && !t.BlockEnd? then
          ParseNode(Push(q, IndentlessSequenceEntry), true, false)
        else Emit(EMPTY_SCALAR, q.(state := IndentlessSequenceEntry))
    else EmitPop(p, SequenceEnd)
  }

  function ParseBlockMappingKey(p0: P, first: bool): Outcome {
    if first && !HasToken(p0) then Error(OutOfTokens)
    else
      var p := if first then Enter(p0) else p0;
      if !HasToken(p) then Error(OutOfTokens)
      else
        match Peek(p)
        case Key =>
          var q := Skip(p);
          if !HasToken(q) then Error(OutOfTokens)
          else
            var t := Peek(q);
            if !t.Key? && !t.Value? && !t.BlockEnd? then ParseNode(Push(q, BlockMappingValue), true, true)
            else Emit(EMPTY_SCALAR, q.(state := BlockMappingValue))
        case BlockEnd => EmitPopMark(Skip(p), MappingEnd)
        case _ => ErrorPopMark(p, ExpectedKey)
  }

  function ParseBlockMappingValue(p: P): Outcome {
    if !HasToken(p) then Error(OutOfTokens)
    else if Peek(p).Value? then
      var q := Skip(p);
      if !HasToken(q) then Error(OutOfTokens)
      else
        var t := Peek(q);
        if !t.Key? && !t.Value? && !t.BlockEnd? then ParseNode(Push(q, BlockMappingKey), true, true)
        else Emit(EMPTY_SCALAR, q.(state := BlockMappingKey))
    else Emit(EMPTY_SCALAR, p.(state := BlockMappingKey))
  }

  // ----- Flow collections -----

  function ParseFlowSequenceEntry(p0: P, first: bool): Outcome {
    if first && !HasToken(p0) then Error(OutOfTokens)
    else
      var p := if first then Enter(p0) else p0;
      if !HasToken(p) then Error(OutOfTokens)
      else if Peek(p).FlowSequenceEnd? then EmitPopMark(Skip(p), SequenceEnd)
      else if !first && !Peek(p).FlowEntry? then ErrorPopMark(p, ExpectedFlowSequenceEnd)
      else
        var q := if first then p else Skip(p);
        if !HasToken(q) then Error(OutOfTokens)
        else if Peek(q).Key? then
          Emit(MappingStart("", "", true, Flow), Skip(q).(state := FlowSequenceEntryMappingKey))
        else if !Peek(q).FlowSequenceEnd? then ParseNode(Push(q, FlowSequenceEntry), false, false)
        else EmitPopMark(Skip(q), SequenceEnd)
  }

  /** With no key the token in front is skipped, whichever of the three it is. */
  function ParseFlowSequenceEntryMappingKey(p: P): Outcome {
    if !HasToken(p) then Error(OutOfTokens)
    else
      var t := Peek(p);
      if !t.Value? && !t.FlowEntry? && !t.FlowSequenceEnd? then ParseNode(Push(p, FlowSequenceEntryMappingValue), false, false)
      else Emit(EMPTY_SCALAR, Skip(p).(state := FlowSequenceEntryMappingValue))
  }

  function ParseFlowSequenceEntryMappingValue(p: P): Outcome {
    if !HasToken(p) then Error(OutOfTokens)
    else if Peek(p).Value? then
      var q := Skip(p);
      if !HasToken(q) then Error(OutOfTokens)
      else if !Peek(q).FlowEntry? && !Peek(q).FlowSequenceEnd? then ParseNode(Push(q, FlowSequenceEntryMappingEnd), false, false)
      else Emit(EMPTY_SCALAR, q.(state := FlowSequenceEntryMappingEnd))
    else Emit(EMPTY_SCALAR, p.(state := FlowSequenceEntryMappingEnd))
  }

  function ParseFlowSequenceEntryMappingEnd(p: P): Outcome {
    if !HasToken(p) then Error(OutOfTokens) else Emit(MappingEnd, p.(state := FlowSequenceEntry))
  }

  function ParseFlowMappingItem(q: P): Outcome
    requires HasToken(q)
  {
    if Peek(q).Key? then
      var r := Skip(q);
      if !HasToken(r) then Error(OutOfTokens)
      else
        var t := Peek(r);
        if !t.Value? && !t.FlowEntry? && !t.FlowMappingEnd? then ParseNode(Push(r, FlowMappingValue), false, false)
        else Emit(EMPTY_SCALAR, r.(state := FlowMappingValue))
    else if !Peek(q).FlowMappingEnd? then ParseNode(Push(q, FlowMappingEmptyValue), false, false)
    else EmitPopMark(Skip(q), MappingEnd)
  }

  function ParseFlowMappingKey(p0: P, first: bool): Outcome {
    if first && !HasToken(p0) then Crash
    else
      var p := if first then Enter(p0) else p0;
      if !HasToken(p) then Error(OutOfTokens)
      else if Peek(p).FlowMappingEnd? then EmitPopMark(Skip(p), MappingEnd)
      else if !first && !Peek(p).FlowEntry? then ErrorPopMark(p, ExpectedFlowMappingEnd)
      else
        var q := if first then p else Skip(p);
        if !HasToken(q) then Error(OutOfTokens)
        else ParseFlowMappingItem(q)
  }

  function ParseFlowMappingValue(p: P, empty: bool): Outcome {
    if !HasToken(p) then Error(OutOfTokens)
    else if empty then Emit(EMPTY_SCALAR, p.(state := FlowMappingKey))
    else if Peek(p).Value? then
      var q := Skip(p);
      if !HasToken(q) then Error(OutOfTokens)
      else if !Peek(q).FlowEntry? && !Peek(q).FlowMappingEnd? then ParseNode(Push(q, FlowMappingKey), false, false)
      else Emit(EMPTY_SCALAR, q.(state := FlowMappingKey))
    else Emit(EMPTY_SCALAR, p.(state := FlowMappingKey))
  }

  /** `yaml_parser_state_machine`. */
  function Next(p: P): Outcome
    requires !p.state.EndState?
  {
    match p.state
    case StreamStartState => ParseStreamStart(p)
    case ImplicitDocumentStart => ParseDocumentStart(p, true)
    case DocumentStartState => ParseDocumentStart(p, false)
    case DocumentContent => ParseDocumentContent(p)
    case DocumentEndState => ParseDocumentEnd(p)
    case BlockNode => ParseNode(p, true, false)
    case BlockSequenceFirstEntry => ParseBlockSequenceEntry(p, true)
    case BlockSequenceEntry => ParseBlockSequenceEntry(p, false)
    case IndentlessSequenceEntry => ParseIndentlessSequenceEntry(p)
    case BlockMappingFirstKey => ParseBlockMappingKey(p, true)
    case BlockMappingKey => ParseBlockMappingKey(p, false)
    case BlockMappingValue => ParseBlockMappingValue(p)
    case FlowSequenceFirstEntry => ParseFlowSequenceEntry(p, true)
    case FlowSequenceEntry => ParseFlowSequenceEntry(p, false)
    case FlowSequenceEntryMappingKey => ParseFlowSequenceEntryMappingKey(p)
    case FlowSequenceEntryMappingValue => ParseFlowSequenceEntryMappingValue(p)
    case FlowSequenceEntryMappingEnd => ParseFlowSequenceEntryMappingEnd(p)
    case FlowMappingFirstKey => ParseFlowMappingKey(p, true)
    case FlowMappingKey => ParseFlowMappingKey(p, false)
    case FlowMappingValue => ParseFlowMappingValue(p, false)
    case FlowMappingEmptyValue => ParseFlowMappingValue(p, true)
  }

  function Initial(tokens: seq<Token>): P { P(tokens, 0, StreamStartState, [], [], []) }
}
