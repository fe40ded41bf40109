/** Scalar analysis and scalar printing (emitterc.go).

    `Sink` is the part of the emitter a scalar writer touches. The functions say what each
    primitive and each writer appends; class `Emitter` runs the source's loops over its fields
    and is proved against them. */
module ScalarEmitter {
  import opened Chars

  // ----- Scalar analysis -----

  datatype ScalarData = ScalarData(
    multiline: bool,
    flowPlainAllowed: bool,
    blockPlainAllowed: bool,
    singleQuotedAllowed: bool,
    blockAllowed: bool)

  predicate FollowedByWhitespace(v: string, i: nat) {
    i + 1 >= |v| || IsBlank(v[i + 1])
  }

  predicate PrecededByWhitespace(v: string, i: nat)
    requires i < |v|
  {
    i == 0 || IsBlankz(v[i - 1])
  }

  predicate IsLeadingIndicator(c: char) {
    || c == '#' || c == ',' || c == '[' || c == ']' || c == '{' || c == '}' || c == '&' || c == '*'
    || c == '!' || c == '|' || c == '>' || c == '\'' || c == '"' || c == '%' || c == '@' || c == '`'
  }

  predicate IsFlowIndicator(c: char) {
    c == ',' || c == '?' || c == '[' || c == ']' || c == '{' || c == '}'
  }

  /** The character at `i` could be taken for an indicator in the block context. */
  predicate BlockIndicatorAt(v: string, i: nat)
    requires i < |v|
  {
    var c := v[i];
    if i == 0 then
      IsLeadingIndicator(c) || ((c == '?' || c == ':' || c == '-') && FollowedByWhitespace(v, i))
    else
      (c == ':' && FollowedByWhitespace(v, i)) || (c == '#' && PrecededByWhitespace(v, i))
  }

  predicate FlowIndicatorAt(v: string, i: nat)
    requires i < |v|
  {
    var c := v[i];
    if i == 0 then
      IsLeadingIndicator(c) || c == '?' || c == ':' || (c == '-' && FollowedByWhitespace(v, i))
    else
      IsFlowIndicator(c) || c == ':' || (c == '#' && PrecededByWhitespace(v, i))
  }

  predicate StartsLikeDocumentMarker(v: string) {
    |v| >= 3 && ((v[0] == '-' && v[1] == '-' && v[2] == '-') || (v[0] == '.' && v[1] == '.' && v[2] == '.'))
  }

  /** Not printable as it stands: a control character, or non-ASCII when `unicode` is off. */
  predicate SpecialAt(v: string, i: nat, unicode: bool)
    requires i < |v|
  {
    v[i] != '\t' && (!IsPrintable(v[i]) || (!IsAscii(v[i]) && !unicode))
  }

  predicate BreakAt(v: string, i: nat)
    requires i < |v|
  {
    IsBreak(v[i])
  }

  predicate TabAt(v: string, i: nat)
    requires i < |v|
  {
    v[i] == '\t'
  }

  predicate SpaceBreakAt(v: string, i: nat)
    requires i < |v|
  {
    0 < i && v[i - 1] == ' ' && IsBreak(v[i])
  }

  predicate BreakSpaceAt(v: string, i: nat)
    requires i < |v|
  {
    0 < i && IsBreak(v[i - 1]) && v[i] == ' '
  }

  ghost predicate HasBreak(v: string) { exists i :: 0 <= i < |v| && BreakAt(v, i) }

  /** No blank next to a break, no tab, nothing that needs an escape. */
  ghost predicate Quotable(v: string, unicode: bool) {
    forall i :: 0 <= i < |v| ==>
      !TabAt(v, i) && !SpecialAt(v, i, unicode) && !SpaceBreakAt(v, i) && !BreakSpaceAt(v, i)
  }

  /** One line with no blank at either end. */
  ghost predicate SingleTrimmedLine(v: string) {
    !HasBreak(v) && (v != "" ==> v[0] != ' ' && v[|v| - 1] != ' ')
  }

  ghost predicate NoBlockIndicator(v: string) {
    !StartsLikeDocumentMarker(v) && forall i :: 0 <= i < |v| ==> !BlockIndicatorAt(v, i)
  }

  ghost predicate NoFlowIndicator(v: string) {
    !StartsLikeDocumentMarker(v) && forall i :: 0 <= i < |v| ==> !FlowIndicatorAt(v, i)
  }

  /** What `yaml_emitter_analyze_scalar` decides, stated on the value as a whole. */
  ghost predicate Describes(d: ScalarData, v: string, unicode: bool) {
    && (d.multiline <==> HasBreak(v))
    && (d.blockPlainAllowed <==> SingleTrimmedLine(v) && Quotable(v, unicode) && NoBlockIndicator(v))
    && (d.flowPlainAllowed <==>
          v != "" && SingleTrimmedLine(v) && Quotable(v, unicode) && NoFlowIndicator(v))
    && (d.singleQuotedAllowed <==> Quotable(v, unicode))
    && (d.blockAllowed <==>
          && v != "" && v[|v| - 1] != ' '
          && forall i :: 0 <= i < |v| ==> !SpecialAt(v, i, unicode) && !SpaceBreakAt(v, i))
  }

  // ----- Output primitives -----

  datatype LineBreak = CR | LN | CRLN

  datatype Settings = Settings(bestIndent: int, bestWidth: int, canonical: bool, unicode: bool, lineBreak: LineBreak)

  datatype Config = Config(indent: int, bestWidth: int, lineBreak: LineBreak, unicode: bool)

  datatype Sink = Sink(out: string, column: nat, whitespace: bool, indention: bool, footIndent: int)

  function BreakText(b: LineBreak): string {
    match b
    case CR => "\r"
    case LN => "\n"
    case CRLN => "\r\n"
  }

  function Put(s: Sink, t: string): Sink {
    s.(out := s.out + t, column := s.column + |t|)
  }

  function PutBreak(cfg: Config, s: Sink): Sink {
    s.(out := s.out + BreakText(cfg.lineBreak), column := 0, indention := true)
  }

  function WriteBreak(cfg: Config, s: Sink, c: char): Sink {
    if c == '\n' then PutBreak(cfg, s)
    else s.(out := s.out + [c], column := 0, indention := true)
  }

  function Spaces(n: nat): (t: string)
    ensures |t| == n && forall k :: 0 <= k < n ==> t[k] == ' '
  {
    seq(n, _ => ' ')
  }

  function IndentOf(cfg: Config): nat { if cfg.indent < 0 then 0 else cfg.indent }

  function Pad(s: Sink, n: nat): Sink
    decreases n - s.column
  {
    if s.column < n then Pad(Put(s, " "), n) else s
  }

  lemma {:induction false} PadIsSpaces(s: Sink, n: nat)
    requires s.column <= n
    ensures Pad(s, n) == Put(s, Spaces(n - s.column))
    decreases n - s.column
  {
    if s.column == n {
      assert s.out + Spaces(0) == s.out;
    } else {
      PadIsSpaces(Put(s, " "), n);
      assert " " + Spaces(n - s.column - 1) == Spaces(n - s.column);
      assert (s.out + " ") + Spaces(n - s.column - 1) == s.out + (" " + Spaces(n - s.column - 1));
    }
  }

  function WriteIndent(cfg: Config, s: Sink): Sink {
    var n := IndentOf(cfg);
    var s1 := if !s.indention || s.column > n || (s.column == n && !s.whitespace) then PutBreak(cfg, s) else s;
    var s2 := if s1.footIndent == n then PutBreak(cfg, s1) else s1;
    Pad(s2, n).(whitespace := true, footIndent := -1)
  }

  function WriteIndicator(s: Sink, t: string, needWhitespace: bool, isWhitespace: bool, isIndention: bool): Sink {
    Put(if needWhitespace && !s.whitespace then Put(s, " ") else s, t)
      .(whitespace := isWhitespace, indention := s.indention && isIndention)
  }

  // ----- Plain scalars -----

  function PlainText(cfg: Config, v: string, allowBreaks: bool, i: nat, s: Sink, spaces: bool, breaks: bool): Sink
    decreases |v| - i
  {
    if i >= |v| then s
    else if v[i] == ' ' then
      if allowBreaks && !spaces && s.column > cfg.bestWidth && At(v, i + 1) != ' ' then
        PlainText(cfg, v, allowBreaks, i + 1, WriteIndent(cfg, s), true, breaks)
      else
        PlainText(cfg, v, allowBreaks, i + 1, Put(s, [v[i]]), true, breaks)
    else if IsBreak(v[i]) then
      var s1 := if !breaks && v[i] == '\n' then PutBreak(cfg, s) else s;
      PlainText(cfg, v, allowBreaks, i + 1, WriteBreak(cfg, s1, v[i]), spaces, true)
    else
      var s1 := if breaks then WriteIndent(cfg, s) else s;
      PlainText(cfg, v, allowBreaks, i + 1, Put(s1, [v[i]]).(indention := false), false, false)
  }

  function WritePlain(cfg: Config, s: Sink, v: string, allowBreaks: bool): Sink {
    var s0 := if v != "" && !s.whitespace then Put(s, " ") else s;
    var s1 := PlainText(cfg, v, allowBreaks, 0, s0, false, false);
    s1.(whitespace := if v != "" then false else s1.whitespace, indention := false)
  }

  // ----- Single-quoted scalars -----

  function SingleText(cfg: Config, v: string, allowBreaks: bool, i: nat, s: Sink, spaces: bool, breaks: bool): Sink
    decreases |v| - i
  {
    if i >= |v| then s
    else if v[i] == ' ' then
      if allowBreaks && !spaces && s.column > cfg.bestWidth && 0 < i < |v| - 1 && At(v, i + 1) != ' ' then
        SingleText(cfg, v, allowBreaks, i + 1, WriteIndent(cfg, s), true, breaks)
      else
        SingleText(cfg, v, allowBreaks, i + 1, Put(s, [v[i]]), true, breaks)
    else if IsBreak(v[i]) then
      var s1 := if !breaks && v[i] == '\n' then PutBreak(cfg, s) else s;
      SingleText(cfg, v, allowBreaks, i + 1, WriteBreak(cfg, s1, v[i]), spaces, true)
    else
      var s1 := if breaks then WriteIndent(cfg, s) else s;
      var s2 := if v[i] == '\'' then Put(s1, "'") else s1;
      SingleText(cfg, v, allowBreaks, i + 1, Put(s2, [v[i]]).(indention := false), false, false)
  }

  function WriteSingleQuoted(cfg: Config, s: Sink, v: string, allowBreaks: bool): Sink {
    var s1 := SingleText(cfg, v, allowBreaks, 0, WriteIndicator(s, "'", true, false, false), false, false);
    WriteIndicator(s1, "'", false, false, false).(whitespace := false, indention := false)
  }

  // ----- Double-quoted scalars -----

  function HexText(v: nat, digits: nat): (t: string)
    ensures |t| == digits
    ensures forall k :: 0 <= k < |t| ==> IsHex(t[k])
  {
    if digits == 0 then "" else HexText(v / 16, digits - 1) + [HexDigit(v % 16)]
  }

  function EscapeText(c: char): (t: string)
    ensures 2 <= |t| && t[0] == '\\'
  {
    var v := c as int;
    if v == 0x00 then "\\0"
    else if v == 0x07 then "\\a"
    else if v == 0x08 then "\\b"
    else if v == 0x09 then "\\t"
    else if v == 0x0A then "\\n"
    else if v == 0x0B then "\\v"
    else if v == 0x0C then "\\f"
    else if v == 0x0D then "\\r"
    else if v == 0x1B then "\\e"
    else if v == 0x22 then "\\\""
    else if v == 0x5C then "\\\\"
    else if v == 0x85 then "\\N"
    else if v == 0xA0 then "\\_"
    else if v == 0x2028 then "\\L"
    else if v == 0x2029 then "\\P"
    else if v <= 0xFF then "\\x" + HexText(v, 2)
    else if v <= 0xFFFF then "\\u" + HexText(v, 4)
    else "\\U" + HexText(v, 8)
  }

  /** `is_bom` looks at the start of the value, not at `i`: a value that begins with a byte order
      mark has every one of its characters escaped. */
  predicate MustEscape(v: string, i: nat, unicode: bool)
    requires i < |v|
  {
    var c := v[i];
    !IsPrintable(c) || (!unicode && !IsAscii(c)) || v[0] == '\U{FEFF}' || IsBreak(c) || c == '"' || c == '\\'
  }

  function DoubleText(cfg: Config, v: string, allowBreaks: bool, i: nat, s: Sink, spaces: bool): Sink
    decreases |v| - i
  {
    if i >= |v| then s
    else if MustEscape(v, i, cfg.unicode) then
      DoubleText(cfg, v, allowBreaks, i + 1, Put(s, EscapeText(v[i])), false)
    else if v[i] == ' ' then
      if allowBreaks && !spaces && s.column > cfg.bestWidth && 0 < i < |v| - 1 then
        var s1 := WriteIndent(cfg, s);
        DoubleText(cfg, v, allowBreaks, i + 1, if v[i + 1] == ' ' then Put(s1, "\\") else s1, true)
      else
        DoubleText(cfg, v, allowBreaks, i + 1, Put(s, [v[i]]), true)
    else
      DoubleText(cfg, v, allowBreaks, i + 1, Put(s, [v[i]]), false)
  }

  function WriteDoubleQuoted(cfg: Config, s: Sink, v: string, allowBreaks: bool): Sink {
    var s1 := DoubleText(cfg, v, allowBreaks, 0, WriteIndicator(s, "\"", true, false, false), false);
    WriteIndicator(s1, "\"", false, false, false).(whitespace := false, indention := false)
  }

  // ----- Choice of style -----

  datatype Style = Any | Plain | SingleQuoted | DoubleQuoted | Literal | Folded

  /** Where the emitter is, and what the event says about its tag. */
  datatype Context = Context(flowLevel: nat, simpleKey: bool, canonical: bool, noTag: bool, implicit: bool, quotedImplicit: bool)

  function SelectStyle(ctx: Context, requested: Style, d: ScalarData, v: string): Style {
    var s0 := if requested.Any? then Plain else requested;
    var s1 := if ctx.canonical then DoubleQuoted else s0;
    var s2 := if ctx.simpleKey && d.multiline then DoubleQuoted else s1;
    var s3 :=
      if s2.Plain?
         && (|| (ctx.flowLevel > 0 && !d.flowPlainAllowed)
             || (ctx.flowLevel == 0 && !d.blockPlainAllowed)
             || (v == "" && (ctx.flowLevel > 0 || ctx.simpleKey))
             || (ctx.noTag && !ctx.implicit))
      then SingleQuoted else s2;
    var s4 := if s3.SingleQuoted? && !d.singleQuotedAllowed then DoubleQuoted else s3;
    if (s4.Literal? || s4.Folded?) && (!d.blockAllowed || ctx.flowLevel > 0 || ctx.simpleKey)
    then DoubleQuoted else s4
  }

  /** `yaml_emitter_process_scalar`, for the styles without a block header. */
  function WriteScalar(cfg: Config, s: Sink, v: string, style: Style, allowBreaks: bool): Sink
    requires style.Plain? || style.SingleQuoted? || style.DoubleQuoted?
  {
    match style
    case Plain => WritePlain(cfg, s, v, allowBreaks)
    case SingleQuoted => WriteSingleQuoted(cfg, s, v, allowBreaks)
    case DoubleQuoted => WriteDoubleQuoted(cfg, s, v, allowBreaks)
  }

  // ----- The emitter -----

  class Emitter {
    var out: string
    var column: nat
    var whitespace: bool
    var indention: bool
    var footIndent: int
    var indent: int
    var bestWidth: int
    var lineBreak: LineBreak
    var unicode: bool
    var scalarData: ScalarData
    var openEnded: bool
    var rootContext: bool

    function State(): Sink
      reads this
    {
      Sink(out, column, whitespace, indention, footIndent)
    }

    function Cfg(): Config
      reads this
    {
      Config(indent, bestWidth, lineBreak, unicode)
    }

    constructor (cfg: Config)
      ensures State() == Sink("", 0, true, true, -1)
      ensures Cfg() == cfg && !openEnded
    {
      out, column, whitespace, indention, footIndent := "", 0, true, true, -1;
      indent, bestWidth, lineBreak, unicode := cfg.indent, cfg.bestWidth, cfg.lineBreak, cfg.unicode;
      scalarData, openEnded, rootContext := ScalarData(false, false, true, true, false), false, false;
    }

    /** `yaml_emitter_analyze_scalar`. */
    method AnalyzeScalar(v: string)
      modifies this`scalarData
      ensures Describes(scalarData, v, unicode)
    {
      if |v| == 0 {
        scalarData := ScalarData(false, false, true, true, false);
        return;
      }
      hide BlockIndicatorAt, FlowIndicatorAt, BreakAt, SpecialAt, TabAt, SpaceBreakAt, BreakSpaceAt, StartsLikeDocumentMarker;
      var blockIndicators, flowIndicators, lineBreaks, special, tabs := false, false, false, false, false;
      var spaceBreak, breakSpace, leadingSpace, trailingSpace := false, false, false, false;
      var previousSpace, previousBreak, precededByWhitespace := false, false, true;
      if StartsLikeDocumentMarker(v) {
        blockIndicators, flowIndicators := true, true;
      }
      var i := 0;
      while i < |v|
        invariant 0 <= i <= |v|
        invariant blockIndicators <==> StartsLikeDocumentMarker(v) || exists j :: 0 <= j < i && BlockIndicatorAt(v, j)
        invariant flowIndicators <==> StartsLikeDocumentMarker(v) || exists j :: 0 <= j < i && FlowIndicatorAt(v, j)
        invariant lineBreaks <==> exists j :: 0 <= j < i && BreakAt(v, j)
        invariant special <==> exists j :: 0 <= j < i && SpecialAt(v, j, unicode)
        invariant tabs <==> exists j :: 0 <= j < i && TabAt(v, j)
        invariant spaceBreak <==> exists j :: 0 <= j < i && SpaceBreakAt(v, j)
        invariant breakSpace <==> exists j :: 0 <= j < i && BreakSpaceAt(v, j)
        invariant leadingSpace <==> 0 < i && v[0] == ' '
        invariant trailingSpace <==> i == |v| && v[|v| - 1] == ' '
        invariant previousSpace <==> 0 < i && v[i - 1] == ' '
        invariant previousBreak <==> 0 < i && IsBreak(v[i - 1])
        invariant precededByWhitespace <==> (i == 0 || IsBlankz(v[i - 1]))
      {
        blockIndicators, flowIndicators := NoteIndicators(v, i, precededByWhitespace, blockIndicators, flowIndicators);
        special, tabs := NoteSpecial(v, i, special, tabs);
        leadingSpace, trailingSpace, lineBreaks, spaceBreak, breakSpace, previousSpace, previousBreak :=
          NoteSpaces(v, i, leadingSpace, trailingSpace, lineBreaks, spaceBreak, breakSpace, previousSpace, previousBreak);
        precededByWhitespace := IsBlankz(v[i]);
        i := i + 1;
      }
      var quotable := !(breakSpace || spaceBreak || tabs || special);
      var plain := quotable && !leadingSpace && !trailingSpace && !lineBreaks;
      scalarData := ScalarData(lineBreaks, plain && !flowIndicators, plain && !blockIndicators, quotable,
                               !trailingSpace && !spaceBreak && !special);
    }

    /** The part of the loop that looks for indicators. */
    method NoteIndicators(v: string, i: nat, preceded: bool, block: bool, flow: bool) returns (block1: bool, flow1: bool)
      requires i < |v| && preceded == PrecededByWhitespace(v, i)
      ensures block1 <==> block || BlockIndicatorAt(v, i)
      ensures flow1 <==> flow || FlowIndicatorAt(v, i)
    {
      var c, followed := v[i], i + 1 >= |v| || IsBlank(v[i + 1]);
      block1, flow1 := block, flow;
      if i == 0 {
        if IsLeadingIndicator(c) {
          flow1, block1 := true, true;
        } else if c == '?' || c == ':' {
          flow1 := true;
          if followed { block1 := true; }
        } else if c == '-' && followed {
          flow1, block1 := true, true;
        }
      } else {
        if IsFlowIndicator(c) {
          flow1 := true;
        } else if c == ':' {
          flow1 := true;
          if followed { block1 := true; }
        } else if c == '#' && preceded {
          flow1, block1 := true, true;
        }
      }
    }

    /** The part that looks for characters to escape. */
    method NoteSpecial(v: string, i: nat, special: bool, tabs: bool) returns (special1: bool, tabs1: bool)
      requires i < |v|
      ensures special1 <==> special || SpecialAt(v, i, unicode)
      ensures tabs1 <==> tabs || TabAt(v, i)
    {
      var c := v[i];
      special1, tabs1 := special, tabs;
      if c == '\t' {
        tabs1 := true;
      } else if !IsPrintable(c) || (!IsAscii(c) && !unicode) {
        special1 := true;
      }
    }

    /** The part that looks at spaces and line breaks. */
    method NoteSpaces(v: string, i: nat, leading: bool, trailing: bool, breaks: bool, spaceBreak: bool, breakSpace: bool,
                      previousSpace: bool, previousBreak: bool)
      returns (leading1: bool, trailing1: bool, breaks1: bool, spaceBreak1: bool, breakSpace1: bool, space: bool, isBreak: bool)
      requires i < |v|
      requires previousSpace == (0 < i && v[i - 1] == ' ') && previousBreak == (0 < i && IsBreak(v[i - 1]))
      ensures space == (v[i] == ' ') && isBreak == IsBreak(v[i])
      ensures leading1 <==> leading || (i == 0 && v[0] == ' ')
      ensures trailing1 <==> trailing || (i + 1 == |v| && v[i] == ' ')
      ensures breaks1 <==> breaks || BreakAt(v, i)
      ensures spaceBreak1 <==> spaceBreak || SpaceBreakAt(v, i)
      ensures breakSpace1 <==> breakSpace || BreakSpaceAt(v, i)
    {
      var c := v[i];
      leading1, trailing1, breaks1, spaceBreak1, breakSpace1 := leading, trailing, breaks, spaceBreak, breakSpace;
      space, isBreak := false, false;
      if c == ' ' {
        if i == 0 { leading1 := true; }
        if i + 1 == |v| { trailing1 := true; }
        if previousBreak { breakSpace1 := true; }
        space := true;
      } else if IsBreak(c) {
        breaks1 := true;
        if previousSpace { spaceBreak1 := true; }
        isBreak := true;
      }
    }

    method PutText(t: string)
      modifies this`out, this`column
      ensures State() == Put(old(State()), t)
    {
      out, column := out + t, column + |t|;
    }

    method EmitBreak()
      modifies this`out, this`column, this`indention
      ensures State() == PutBreak(Cfg(), old(State()))
    {
      out := out + BreakText(lineBreak);
      column, indention := 0, true;
    }

    method CopyBreak(c: char)
      modifies this`out, this`column, this`indention
      ensures State() == WriteBreak(Cfg(), old(State()), c)
    {
      if c == '\n' {
        EmitBreak();
      } else {
        out := out + [c];
        column, indention := 0, true;
      }
    }

    method EmitIndent()
      modifies this`out, this`column, this`indention, this`whitespace, this`footIndent
      ensures State() == WriteIndent(Cfg(), old(State()))
    {
      var n := if indent < 0 then 0 else indent;
      if !indention || column > n || (column == n && !whitespace) {
        EmitBreak();
      }
      if footIndent == n {
        EmitBreak();
      }
      ghost var s := State();
      while column < n
        invariant Pad(State(), n) == Pad(s, n)
      {
        PutText(" ");
      }
      whitespace, footIndent := true, -1;
    }

    method EmitIndicator(t: string, needWhitespace: bool, isWhitespace: bool, isIndention: bool)
      modifies this`out, this`column, this`indention, this`whitespace, this`openEnded
      ensures State() == WriteIndicator(old(State()), t, needWhitespace, isWhitespace, isIndention) && !openEnded
    {
      if needWhitespace && !whitespace {
        PutText(" ");
      }
      PutText(t);
      whitespace, indention, openEnded := isWhitespace, indention && isIndention, false;
    }

    method WritePlainScalar(v: string, allowBreaks: bool)
      modifies this`out, this`column, this`indention, this`whitespace, this`footIndent, this`openEnded
      ensures State() == WritePlain(Cfg(), old(State()), v, allowBreaks)
      ensures openEnded == (old(openEnded) || rootContext)
    {
      hide WriteIndent, WriteIndicator;
      if |v| > 0 && !whitespace {
        PutText(" ");
      }
      ghost var s0 := State();
      var spaces, breaks, i := false, false, 0;
      while i < |v|
        invariant 0 <= i <= |v|
        invariant PlainText(Cfg(), v, allowBreaks, i, State(), spaces, breaks) == PlainText(Cfg(), v, allowBreaks, 0, s0, false, false)
        invariant openEnded == old(openEnded)
      {
        if v[i] == ' ' {
          if allowBreaks && !spaces && column > bestWidth && At(v, i + 1) != ' ' {
            EmitIndent();
          } else {
            PutText([v[i]]);
          }
          spaces := true;
        } else if IsBreak(v[i]) {
          if !breaks && v[i] == '\n' {
            EmitBreak();
          }
          CopyBreak(v[i]);
          breaks := true;
        } else {
          if breaks {
            EmitIndent();
          }
          PutText([v[i]]);
          indention, spaces, breaks := false, false, false;
        }
        i := i + 1;
      }
      if |v| > 0 {
        whitespace := false;
      }
      indention := false;
      if rootContext {
        openEnded := true;
      }
    }

    method WriteSingleQuotedScalar(v: string, allowBreaks: bool)
      modifies this`out, this`column, this`indention, this`whitespace, this`footIndent, this`openEnded
      ensures State() == WriteSingleQuoted(Cfg(), old(State()), v, allowBreaks) && !openEnded
    {
      EmitIndicator("'", true, false, false);
      ghost var s0 := State();
      var spaces, breaks, i := false, false, 0;
      while i < |v|
        invariant 0 <= i <= |v|
        invariant SingleText(Cfg(), v, allowBreaks, i, State(), spaces, breaks) == SingleText(Cfg(), v, allowBreaks, 0, s0, false, false)
      {
        if v[i] == ' ' {
          if allowBreaks && !spaces && column > bestWidth && 0 < i < |v| - 1 && At(v, i + 1) != ' ' {
            EmitIndent();
          } else {
            PutText([v[i]]);
          }
          spaces := true;
        } else if IsBreak(v[i]) {
          if !breaks && v[i] == '\n' {
            EmitBreak();
          }
          CopyBreak(v[i]);
          breaks := true;
        } else {
          if breaks {
            EmitIndent();
          }
          if v[i] == '\'' {
            PutText("'");
          }
          PutText([v[i]]);
          indention, spaces, breaks := false, false, false;
        }
        i := i + 1;
      }
      EmitIndicator("'", false, false, false);
      whitespace, indention := false, false;
    }

    method WriteDoubleQuotedScalar(v: string, allowBreaks: bool)
      modifies this`out, this`column, this`indention, this`whitespace, this`footIndent, this`openEnded
      ensures State() == WriteDoubleQuoted(Cfg(), old(State()), v, allowBreaks) && !openEnded
    {
      hide WriteIndent, WriteIndicator, EscapeText, MustEscape;
      EmitIndicator("\"", true, false, false);
      ghost var s0 := State();
      var spaces, i := false, 0;
      while i < |v|
        invariant 0 <= i <= |v|
        invariant DoubleText(Cfg(), v, allowBreaks, i, State(), spaces) == DoubleText(Cfg(), v, allowBreaks, 0, s0, false)
      {
        if MustEscape(v, i, unicode) {
          PutText(EscapeText(v[i]));
          spaces := false;
        } else if v[i] == ' ' {
          if allowBreaks && !spaces && column > bestWidth && 0 < i < |v| - 1 {
            EmitIndent();
            if v[i + 1] == ' ' {
              PutText("\\");
            }
          } else {
            PutText([v[i]]);
          }
          spaces := true;
        } else {
          PutText([v[i]]);
          spaces := false;
        }
        i := i + 1;
      }
      EmitIndicator("\"", false, false, false);
      whitespace, indention := false, false;
    }

    /** Analysis, choice of style and printing of one scalar; block styles are only chosen. */
    method ProcessScalar(v: string, ctx: Context, requested: Style) returns (style: Style)
      modifies this
      ensures Cfg() == old(Cfg())
      ensures Describes(scalarData, v, unicode) && style == SelectStyle(ctx, requested, scalarData, v)
      ensures if style.Plain? || style.SingleQuoted? || style.DoubleQuoted?
        then State() == WriteScalar(Cfg(), old(State()), v, style, !ctx.simpleKey)
        else State() == old(State())
      ensures style.Plain? ==> openEnded == (old(openEnded) || rootContext)
    {
      AnalyzeScalar(v);
      style := SelectStyle(ctx, requested, scalarData, v);
      match style {
        case Plain => WritePlainScalar(v, !ctx.simpleKey);
        case SingleQuoted => WriteSingleQuotedScalar(v, !ctx.simpleKey);
        case DoubleQuoted => WriteDoubleQuotedScalar(v, !ctx.simpleKey);
        case _ =>
      }
    }
  }
}
