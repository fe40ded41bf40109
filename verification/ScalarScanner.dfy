/** Scanning of quoted and plain scalars, and the dispatch on the first character of a token
    (scannerc.go). The functions follow the source's loops, one function per loop; class
    `Scanner` runs the loops themselves and is proved against them. */
module ScalarScanner {
  import opened Chars

  datatype Problem =
    | DocumentIndicator
    | EndOfStream
    | UnknownEscape
    | ExpectedHex
    | BadCodePoint
    | TabInIndentation

  datatype Scan = Scanned(value: string, pos: nat, column: nat) | Failed(problem: Problem)

  /** Blanks and breaks read but not yet joined to the value. */
  datatype Pending = Pending(whitespaces: string, leadingBreak: string, trailingBreaks: string, leading: bool)

  const NOTHING := Pending("", "", "", false)

  function BreakWidth(t: string, p: nat): nat {
    if At(t, p) == '\r' && At(t, p + 1) == '\n' then 2 else 1
  }

  /** CR LF, CR, LF and NEL are read as LF; LS and PS as themselves. */
  function BreakValue(t: string, p: nat): string {
    var c := At(t, p);
    if c == '\r' || c == '\n' || c == '\U{85}' then "\n" else [c]
  }

  function AddBlank(pd: Pending, c: char): Pending {
    if pd.leading then pd else pd.(whitespaces := pd.whitespaces + [c])
  }

  function AddBreak(pd: Pending, b: string): Pending {
    if !pd.leading then pd.(whitespaces := "", leadingBreak := pd.leadingBreak + b, leading := true)
    else pd.(trailingBreaks := pd.trailingBreaks + b)
  }

  /** Join the whitespaces or fold the line breaks. */
  function JoinBlanks(whitespaces: string, leadingBreak: string, trailingBreaks: string, leading: bool): string {
    if leading then
      if leadingBreak != "" && leadingBreak[0] == '\n' then
        if trailingBreaks == "" then " " else trailingBreaks
      else leadingBreak + trailingBreaks
    else whitespaces
  }

  function Fold(pd: Pending): string {
    JoinBlanks(pd.whitespaces, pd.leadingBreak, pd.trailingBreaks, pd.leading)
  }

  predicate DocumentMarkerAt(t: string, p: nat) {
    && ((At(t, p) == '-' && At(t, p + 1) == '-' && At(t, p + 2) == '-')
        || (At(t, p) == '.' && At(t, p + 1) == '.' && At(t, p + 2) == '.'))
    && IsBlankz(At(t, p + 3))
  }

  // ----- Escape sequences -----

  datatype Escape = Escaped(c: char, length: nat) | BadEscape(problem: Problem)

  predicate AllHex(t: string, p: nat, n: nat) {
    forall k :: p <= k < p + n ==> IsHex(At(t, k))
  }

  function ParseHex(t: string, p: nat, n: nat): (v: nat)
    requires AllHex(t, p, n)
  {
    if n == 0 then 0 else ParseHex(t, p, n - 1) * 16 + AsHex(At(t, p + n - 1))
  }

  function ScanCode(t: string, p: nat, n: nat): Escape {
    if !AllHex(t, p + 2, n) then BadEscape(ExpectedHex)
    else
      var v := ParseHex(t, p + 2, n);
      if 0xD800 <= v <= 0xDFFF || v > 0x10FFFF then BadEscape(BadCodePoint)
      else Escaped(v as char, 2 + n)
  }

  /** The escape sequence whose backslash is at `p`. */
  function ScanEscape(t: string, p: nat): Escape {
    match At(t, p + 1)
    case '0' => Escaped('\0', 2)
    case 'a' => Escaped('\U{07}', 2)
    case 'b' => Escaped('\U{08}', 2)
    case 't' => Escaped('\t', 2)
    case '\t' => Escaped('\t', 2)
    case 'n' => Escaped('\n', 2)
    case 'v' => Escaped('\U{0B}', 2)
    case 'f' => Escaped('\U{0C}', 2)
    case 'r' => Escaped('\r', 2)
    case 'e' => Escaped('\U{1B}', 2)
    case ' ' => Escaped(' ', 2)
    case '"' => Escaped('"', 2)
    case '\'' => Escaped('\'', 2)
    case '\\' => Escaped('\\', 2)
    case 'N' => Escaped('\U{85}', 2)
    case '_' => Escaped('\U{A0}', 2)
    case 'L' => Escaped('\U{2028}', 2)
    case 'P' => Escaped('\U{2029}', 2)
    case 'x' => ScanCode(t, p, 2)
    case 'u' => ScanCode(t, p, 4)
    case 'U' => ScanCode(t, p, 8)
    case _ => BadEscape(UnknownEscape)
  }

  lemma EscapeStaysInside(t: string, p: nat)
    requires p < |t| && ScanEscape(t, p).Escaped?
    ensures p + ScanEscape(t, p).length <= |t|
  {
    var n := ScanEscape(t, p).length;
    assert p + 1 < |t|;
    if n > 2 {
      assert AllHex(t, p + 2, n - 2);
      assert IsHex(At(t, p + n - 1));
    }
  }

  // ----- Quoted scalars -----

  function Quote(single: bool): char { if single then '\'' else '"' }

  function FlowOuter(t: string, p: nat, col: nat, s: string, single: bool): Scan
    requires p <= |t|
    decreases |t| - p, if IsBlank(At(t, p)) || IsBreak(At(t, p)) then 5 else 2
  {
    if col == 0 && DocumentMarkerAt(t, p) then Failed(DocumentIndicator)
    else if At(t, p) == '\0' then Failed(EndOfStream)
    else FlowNonBlank(t, p, col, s, single)
  }

  function FlowNonBlank(t: string, p: nat, col: nat, s: string, single: bool): Scan
    requires p <= |t|
    decreases |t| - p, if IsBlankz(At(t, p)) then 4 else 1
  {
    var c := At(t, p);
    if IsBlankz(c) then FlowBlank(t, p, col, s, single, NOTHING)
    else if single && c == '\'' && At(t, p + 1) == '\'' then FlowNonBlank(t, p + 2, col + 2, s + "'", single)
    else if c == Quote(single) then Scanned(s, p + 1, col + 1)
    else if !single && c == '\\' && IsBreak(At(t, p + 1)) then
      FlowAfterEscapedBreak(t, p + 1 + BreakWidth(t, p + 1), 0, s)
    else if !single && c == '\\' then
      match ScanEscape(t, p)
      case BadEscape(problem) => Failed(problem)
      case Escaped(e, n) =>
        EscapeStaysInside(t, p);
        FlowNonBlank(t, p + n, col + n, s + [e], single)
    else FlowNonBlank(t, p + 1, col + 1, s + [c], single)
  }

  function FlowAfterEscapedBreak(t: string, p: nat, col: nat, s: string): Scan
    requires p <= |t|
    decreases |t| - p, 6
  {
    if At(t, p) == '"' then Scanned(s, p + 1, col + 1)
    else FlowBlank(t, p, col, s, false, NOTHING.(leading := true))
  }

  function FlowBlank(t: string, p: nat, col: nat, s: string, single: bool, pd: Pending): Scan
    requires p <= |t|
    decreases |t| - p, 3
  {
    var c := At(t, p);
    if IsBlank(c) then FlowBlank(t, p + 1, col + 1, s, single, AddBlank(pd, c))
    else if IsBreak(c) then FlowBlank(t, p + BreakWidth(t, p), 0, s, single, AddBreak(pd, BreakValue(t, p)))
    else FlowOuter(t, p, col, s + Fold(pd), single)
  }

  /** The quoted scalar whose opening quote is at `p`. */
  function FlowScalar(t: string, p: nat, col: nat, single: bool): Scan
    requires p < |t|
  {
    FlowOuter(t, p + 1, col + 1, "", single)
  }

  // ----- Plain scalars -----

  /** Flow level, and the column below which a block plain scalar ends (`parser.indent + 1`). */
  datatype Where = Where(flowLevel: nat, minColumn: int)

  /** An indicator that ends a plain scalar even without a blank before it. */
  predicate EndsPlainAt(t: string, p: nat, w: Where) {
    var c := At(t, p);
    || (c == ':' && IsBlankz(At(t, p + 1)))
    || (w.flowLevel > 0 && (c == ',' || c == '?' || c == '[' || c == ']' || c == '{' || c == '}'))
  }

  function PlainOuter(t: string, p: nat, col: nat, s: string, pd: Pending, w: Where): Scan
    requires p <= |t|
    decreases |t| - p, if IsBlank(At(t, p)) || IsBreak(At(t, p)) then 5 else 2
  {
    if (col == 0 && DocumentMarkerAt(t, p)) || At(t, p) == '#' then Scanned(s, p, col)
    else PlainNonBlank(t, p, col, s, pd, w)
  }

  function PlainNonBlank(t: string, p: nat, col: nat, s: string, pd: Pending, w: Where): Scan
    requires p <= |t|
    decreases |t| - p, if IsBlank(At(t, p)) || IsBreak(At(t, p)) then 4 else 1
  {
    var c := At(t, p);
    if IsBlank(c) || IsBreak(c) then PlainBlank(t, p, col, s, pd, w)
    else if c == '\0' || EndsPlainAt(t, p, w) then Scanned(s, p, col)
    else PlainNonBlank(t, p + 1, col + 1, s + Fold(pd) + [c], NOTHING, w)
  }

  function PlainBlank(t: string, p: nat, col: nat, s: string, pd: Pending, w: Where): Scan
    requires p <= |t|
    decreases |t| - p, 3
  {
    var c := At(t, p);
    if IsBlank(c) then
      if pd.leading && col < w.minColumn && c == '\t' then Failed(TabInIndentation)
      else PlainBlank(t, p + 1, col + 1, s, AddBlank(pd, c), w)
    else if IsBreak(c) then PlainBlank(t, p + BreakWidth(t, p), 0, s, AddBreak(pd, BreakValue(t, p)), w)
    else if w.flowLevel == 0 && col < w.minColumn then Scanned(s, p, col)
    else PlainOuter(t, p, col, s, pd, w)
  }

  function PlainScalar(t: string, p: nat, col: nat, w: Where): Scan
    requires p <= |t|
  {
    PlainOuter(t, p, col, "", NOTHING, w)
  }

  // ----- Dispatch -----

  datatype Fetch =
    | StreamEnd | Directive | DocumentStart | DocumentEnd
    | FlowSequenceStart | FlowMappingStart | FlowSequenceEnd | FlowMappingEnd | FlowEntry
    | BlockEntry | KeyIndicator | ValueIndicator | AliasIndicator | AnchorIndicator | TagIndicator
    | LiteralScalar | FoldedScalar | SingleQuotedScalar | DoubleQuotedScalar | PlainStart | NoToken

  predicate IsIndicator(c: char) {
    || c == '-' || c == '?' || c == ':' || c == ',' || c == '[' || c == ']' || c == '{' || c == '}'
    || c == '#' || c == '&' || c == '*' || c == '!' || c == '|' || c == '>' || c == '\'' || c == '"'
    || c == '%' || c == '@' || c == '`'
  }

  /** The cascade of `yaml_parser_fetch_next_token`, once blanks and comments have been eaten. */
  function Dispatch(t: string, p: nat, col: nat, flowLevel: nat): Fetch {
    var c := At(t, p);
    var next := At(t, p + 1);
    if c == '\0' then StreamEnd
    else if col == 0 && c == '%' then Directive
    else if col == 0 && c == '-' && DocumentMarkerAt(t, p) then DocumentStart
    else if col == 0 && c == '.' && DocumentMarkerAt(t, p) then DocumentEnd
    else if c == '[' then FlowSequenceStart
    else if c == '{' then FlowMappingStart
    else if c == ']' then FlowSequenceEnd
    else if c == '}' then FlowMappingEnd
    else if c == ',' then FlowEntry
    else if c == '-' && IsBlankz(next) then BlockEntry
    else if c == '?' && (flowLevel > 0 || IsBlankz(next)) then KeyIndicator
    else if c == ':' && (flowLevel > 0 || IsBlankz(next)) then ValueIndicator
    else if c == '*' then AliasIndicator
    else if c == '&' then AnchorIndicator
    else if c == '!' then TagIndicator
    else if c == '|' && flowLevel == 0 then LiteralScalar
    else if c == '>' && flowLevel == 0 then FoldedScalar
    else if c == '\'' then SingleQuotedScalar
    else if c == '"' then DoubleQuotedScalar
    else if || !(IsBlankz(c) || IsIndicator(c))
            || (c == '-' && !IsBlank(next))
            || (flowLevel == 0 && (c == '?' || c == ':') && !IsBlankz(next))
    then PlainStart
    else NoToken
  }

  // ----- The scanner -----

  class Scanner {
    const buffer: string
    var pos: nat
    var column: nat
    var flowLevel: nat
    var indent: int

    constructor (text: string, start: nat, col: nat, flow: nat, ind: int)
      requires start <= |text|
      ensures buffer == text && pos == start && column == col && flowLevel == flow && indent == ind
    {
      buffer, pos, column, flowLevel, indent := text, start, col, flow, ind;
    }

    method Skip(n: nat)
      modifies this`pos, this`column
      ensures pos == old(pos) + n && column == old(column) + n
    {
      pos, column := pos + n, column + n;
    }

    method SkipLine()
      requires IsBreak(At(buffer, pos))
      modifies this`pos, this`column
      ensures pos == old(pos) + BreakWidth(buffer, old(pos)) && column == 0
      ensures pos <= |buffer|
    {
      if At(buffer, pos) == '\r' && At(buffer, pos + 1) == '\n' {
        pos := pos + 2;
      } else {
        pos := pos + 1;
      }
      column := 0;
    }

    method ReadLine() returns (b: string)
      requires IsBreak(At(buffer, pos))
      modifies this`pos, this`column
      ensures b == BreakValue(buffer, old(pos))
      ensures pos == old(pos) + BreakWidth(buffer, old(pos)) && column == 0
      ensures pos <= |buffer|
    {
      var c := At(buffer, pos);
      b := if c == '\r' || c == '\n' || c == '\U{85}' then "\n" else [c];
      SkipLine();
    }

    /** The digits of a `\x`, `\u` or `\U` escape. */
    method ScanHex(n: nat) returns (ok: bool, v: nat)
      ensures ok <==> AllHex(buffer, pos, n)
      ensures ok ==> v == ParseHex(buffer, pos, n)
    {
      v := 0;
      var k := 0;
      while k < n
        invariant k <= n
        invariant AllHex(buffer, pos, k) && v == ParseHex(buffer, pos, k)
      {
        if !IsHex(At(buffer, pos + k)) {
          return false, 0;
        }
        v := v * 16 + AsHex(At(buffer, pos + k));
        k := k + 1;
      }
      return true, v;
    }

    method ReadEscape() returns (e: Escape)
      requires pos < |buffer| && At(buffer, pos) == '\\'
      modifies this`pos, this`column
      ensures e == ScanEscape(buffer, old(pos))
      ensures e.Escaped? ==> pos == old(pos) + e.length && column == old(column) + e.length && pos <= |buffer|
    {
      var codeLength, c := 0, '\0';
      match At(buffer, pos + 1)
      {
        case '0' => c := '\0';
        case 'a' => c := '\U{07}';
        case 'b' => c := '\U{08}';
        case 't' => c := '\t';
        case '\t' => c := '\t';
        case 'n' => c := '\n';
        case 'v' => c := '\U{0B}';
        case 'f' => c := '\U{0C}';
        case 'r' => c := '\r';
        case 'e' => c := '\U{1B}';
        case ' ' => c := ' ';
        case '"' => c := '"';
        case '\'' => c := '\'';
        case '\\' => c := '\\';
        case 'N' => c := '\U{85}';
        case '_' => c := '\U{A0}';
        case 'L' => c := '\U{2028}';
        case 'P' => c := '\U{2029}';
        case 'x' => codeLength := 2;
        case 'u' => codeLength := 4;
        case 'U' => codeLength := 8;
        case _ => return BadEscape(UnknownEscape);
      }
      ghost var start := pos;
      Skip(2);
      if codeLength > 0 {
        var ok, v := ScanHex(codeLength);
        if !ok {
          return BadEscape(ExpectedHex);
        }
        if 0xD800 <= v <= 0xDFFF || v > 0x10FFFF {
          return BadEscape(BadCodePoint);
        }
        c := v as char;
        Skip(codeLength);
      }
      EscapeStaysInside(buffer, start);
      return Escaped(c, 2 + codeLength);
    }

    /** The inner loop over non-blank characters: stops at a blank, a break, the end of the stream
        or the closing quote, or just behind an escaped line break (`leadingBlanks`). */
    method ReadNonBlanks(s0: string, single: bool) returns (s: string, leadingBlanks: bool, failed: bool, problem: Problem)
      requires pos <= |buffer|
      modifies this`pos, this`column
      ensures !failed ==> old(pos) <= pos <= |buffer|
      ensures var spec := FlowNonBlank(buffer, old(pos), old(column), s0, single);
        if failed then spec == Failed(problem)
        else if leadingBlanks then pos > old(pos) && !single && spec == FlowAfterEscapedBreak(buffer, pos, column, s)
        else && spec == FlowNonBlank(buffer, pos, column, s, single)
             && (IsBlankz(At(buffer, pos)) || (At(buffer, pos) == Quote(single) && spec == Scanned(s, pos + 1, column + 1)))
    {
      s, leadingBlanks, failed, problem := s0, false, false, EndOfStream;
      ghost var spec := FlowNonBlank(buffer, pos, column, s0, single);
      while !IsBlankz(At(buffer, pos))
        invariant old(pos) <= pos <= |buffer|
        invariant FlowNonBlank(buffer, pos, column, s, single) == spec
        decreases |buffer| - pos
      {
        var c := At(buffer, pos);
        if single && c == '\'' && At(buffer, pos + 1) == '\'' {
          s := s + "'";
          Skip(2);
        } else if c == Quote(single) {
          return;
        } else if !single && c == '\\' && IsBreak(At(buffer, pos + 1)) {
          Skip(1);
          SkipLine();
          leadingBlanks := true;
          return;
        } else if !single && c == '\\' {
          var e := ReadEscape();
          if e.BadEscape? {
            failed, problem := true, e.problem;
            return;
          }
          s := s + [e.c];
        } else {
          s := s + [c];
          Skip(1);
        }
      }
    }

    /** The inner loop over blanks and breaks, and the join after it. */
    method ReadBlanks(s0: string, single: bool, leading: bool) returns (s: string)
      requires pos <= |buffer|
      modifies this`pos, this`column
      ensures old(pos) <= pos <= |buffer|
      ensures IsBlank(At(buffer, old(pos))) || IsBreak(At(buffer, old(pos))) ==> pos > old(pos)
      ensures FlowBlank(buffer, old(pos), old(column), s0, single, NOTHING.(leading := leading))
           == FlowOuter(buffer, pos, column, s, single)
    {
      var whitespaces, leadingBreak, trailingBreaks, leadingBlanks := "", "", "", leading;
      ghost var spec := FlowBlank(buffer, pos, column, s0, single, NOTHING.(leading := leading));
      while IsBlank(At(buffer, pos)) || IsBreak(At(buffer, pos))
        invariant old(pos) <= pos <= |buffer|
        invariant FlowBlank(buffer, pos, column, s0, single, Pending(whitespaces, leadingBreak, trailingBreaks, leadingBlanks)) == spec
        decreases |buffer| - pos
      {
        if IsBlank(At(buffer, pos)) {
          if !leadingBlanks {
            whitespaces := whitespaces + [At(buffer, pos)];
          }
          Skip(1);
        } else {
          var b := ReadLine();
          if !leadingBlanks {
            whitespaces, leadingBreak, leadingBlanks := "", leadingBreak + b, true;
          } else {
            trailingBreaks := trailingBreaks + b;
          }
        }
      }
      s := s0 + JoinBlanks(whitespaces, leadingBreak, trailingBreaks, leadingBlanks);
    }

    method ScanFlowScalar(single: bool) returns (r: Scan)
      requires pos < |buffer|
      modifies this`pos, this`column
      ensures r == FlowScalar(buffer, old(pos), old(column), single)
      ensures r.Scanned? ==> pos == r.pos && column == r.column
    {
      ghost var spec := FlowScalar(buffer, pos, column, single);
      Skip(1);
      var s := "";
      while true
        invariant pos <= |buffer|
        invariant FlowOuter(buffer, pos, column, s, single) == spec
        decreases |buffer| - pos
      {
        if column == 0 && DocumentMarkerAt(buffer, pos) {
          return Failed(DocumentIndicator);
        }
        if At(buffer, pos) == '\0' {
          return Failed(EndOfStream);
        }
        var leadingBlanks, failed, problem;
        s, leadingBlanks, failed, problem := ReadNonBlanks(s, single);
        if failed {
          return Failed(problem);
        }
        if At(buffer, pos) == Quote(single) {
          break;
        }
        s := ReadBlanks(s, single, leadingBlanks);
      }
      Skip(1);
      return Scanned(s, pos, column);
    }

    method ScanPlainScalar() returns (r: Scan)
      requires pos <= |buffer|
      modifies this`pos, this`column
      ensures r == PlainScalar(buffer, old(pos), old(column), Where(flowLevel, indent + 1))
      ensures r.Scanned? ==> pos == r.pos && column == r.column
    {
      ghost var w := Where(flowLevel, indent + 1);
      ghost var spec := PlainScalar(buffer, pos, column, w);
      var s, whitespaces, leadingBreak, trailingBreaks, leadingBlanks := "", "", "", "", false;
      while true
        invariant pos <= |buffer|
        invariant PlainOuter(buffer, pos, column, s, Pending(whitespaces, leadingBreak, trailingBreaks, leadingBlanks), w) == spec
        decreases |buffer| - pos
      {
        if (column == 0 && DocumentMarkerAt(buffer, pos)) || At(buffer, pos) == '#' {
          break;
        }
        ghost var start := pos;
        while !IsBlankz(At(buffer, pos))
          invariant start <= pos <= |buffer|
          invariant PlainNonBlank(buffer, pos, column, s, Pending(whitespaces, leadingBreak, trailingBreaks, leadingBlanks), w) == spec
          decreases |buffer| - pos
        {
          var c := At(buffer, pos);
          if || (c == ':' && IsBlankz(At(buffer, pos + 1)))
             || (flowLevel > 0 && (c == ',' || c == '?' || c == '[' || c == ']' || c == '{' || c == '}')) {
            break;
          }
          if leadingBlanks || |whitespaces| > 0 {
            s := s + JoinBlanks(whitespaces, leadingBreak, trailingBreaks, leadingBlanks);
          } else {
            assert s + Fold(Pending(whitespaces, leadingBreak, trailingBreaks, leadingBlanks)) == s;
          }
          whitespaces, leadingBreak, trailingBreaks, leadingBlanks := "", "", "", false;
          s := s + [c];
          Skip(1);
        }
        if !(IsBlank(At(buffer, pos)) || IsBreak(At(buffer, pos))) {
          break;
        }
        while IsBlank(At(buffer, pos)) || IsBreak(At(buffer, pos))
          invariant start <= pos <= |buffer|
          invariant pos == start ==> IsBlank(At(buffer, pos)) || IsBreak(At(buffer, pos))
          invariant PlainBlank(buffer, pos, column, s, Pending(whitespaces, leadingBreak, trailingBreaks, leadingBlanks), w) == spec
          decreases |buffer| - pos
        {
          var c := At(buffer, pos);
          if IsBlank(c) {
            if leadingBlanks && column < indent + 1 && c == '\t' {
              return Failed(TabInIndentation);
            }
            if !leadingBlanks {
              whitespaces := whitespaces + [c];
            }
            Skip(1);
          } else {
            var b := ReadLine();
            if !leadingBlanks {
              whitespaces, leadingBreak, leadingBlanks := "", leadingBreak + b, true;
            } else {
              trailingBreaks := trailingBreaks + b;
            }
          }
        }
        if flowLevel == 0 && column < indent + 1 {
          break;
        }
      }
      return Scanned(s, pos, column);
    }
  }
}
