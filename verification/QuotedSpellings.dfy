/** The scanner of quoted scalars reads every spelling as what it means, and refuses everything else. */
module QuotedSpellings {
  import opened CharacterSets
  import opened ScalarSpellings
  import opened Chars
  import opened ScalarScanner

  // ----- The scanner's characters are those of the spellings -----

  /** `AsHex` is the place among the digits of either case, and `IsHex` says whether there is one. */
  lemma HexIsPlace(c: char)
    ensures IsHex(c) ==> IsDigit(c, AsHex(c))
    ensures forall d :: IsDigit(c, d) ==> IsHex(c) && AsHex(c) == d
  {
  }

  /** What stands at `p`. */
  predicate Stands(t: string, p: nat, x: string) { p <= |t| && t[p..] == x }

  lemma StandsAt(t: string, p: nat, x: string, y: string)
    requires Stands(t, p, x + y)
    ensures p + |x| <= |t| && Stands(t, p + |x|, y)
    ensures forall k :: 0 <= k < |x| ==> At(t, p + k) == x[k]
    ensures At(t, p + |x|) == At(y, 0)
  {
    assert t[p + |x|..] == t[p..][|x|..] == y;
    forall k | 0 <= k < |x| ensures At(t, p + k) == x[k] { assert t[p + k] == t[p..][k]; }
    if y != "" { assert t[p + |x|] == t[p..][|x|]; }
  }

  /** Digits are read as the number they spell, in either case. */
  lemma {:induction false} ParseHexReads(t: string, p: nat, digits: string, v: nat)
    requires Spells(digits, v) && forall k :: 0 <= k < |digits| ==> At(t, p + k) == digits[k]
    ensures AllHex(t, p, |digits|) && ParseHex(t, p, |digits|) == v
  {
    var n := |digits|;
    if n > 0 {
      HexIsPlace(digits[n - 1]);
      ParseHexReads(t, p, digits[..n - 1], v / 16);
      assert forall k :: p <= k < p + n - 1 ==> IsHex(At(t, k));
      assert At(t, p + (n - 1)) == digits[n - 1];
      assert ParseHex(t, p, n) == ParseHex(t, p, n - 1) * 16 + AsHex(digits[n - 1]);
    }
  }

  /** Hexadecimal digits spell the number that is read from them. */
  lemma {:induction false} ParseHexSpells(t: string, p: nat, n: nat)
    requires AllHex(t, p, n)
    ensures p + n <= |t| || n == 0
    ensures n > 0 ==> Spells(t[p..p + n], ParseHex(t, p, n))
  {
    hide IsHex, IsDigit, AsHex;
    if n > 0 {
      assert IsHex('\0') == false by { NulIsNoDigit(); }
      HexIsPlace(At(t, p + n - 1));
      var v := ParseHex(t, p, n - 1);
      assert ParseHex(t, p, n) == v * 16 + AsHex(At(t, p + n - 1));
      if n > 1 {
        ParseHexSpells(t, p, n - 1);
        assert t[p..p + n][..n - 1] == t[p..p + n - 1];
      }
      SpellsOneMore(t[p..p + n], v, AsHex(At(t, p + n - 1)));
    }
  }

  lemma NulIsNoDigit()
    ensures !IsHex('\0')
  {
  }

  lemma SpellsOneMore(digits: string, v: nat, d: int)
    requires digits != "" && IsDigit(digits[|digits| - 1], d)
    requires if |digits| == 1 then v == 0 else Spells(digits[..|digits| - 1], v)
    ensures Spells(digits, v * 16 + d)
  {
  }

  // ----- Escapes -----

  lemma LetterReads(t: string, p: nat, letter: char, c: char)
    requires At(t, p + 1) == letter && IsEscape(letter, c)
    ensures ScanEscape(t, p) == Escaped(c, 2) && Digits(letter) == 0 && !IsBreak(letter)
  {
  }

  lemma CodeReads(t: string, p: nat, letter: char, digits: string, c: char)
    requires |digits| == Digits(letter) > 0 && Spells(digits, c as int)
    requires At(t, p + 1) == letter && forall k :: 0 <= k < |digits| ==> At(t, p + 2 + k) == digits[k]
    ensures ScanEscape(t, p) == Escaped(c, 2 + |digits|) && !IsBreak(letter)
  {
    ParseHexReads(t, p + 2, digits, c as int);
  }

  /** What an escape that is refused looks like: no such letter, too few digits, or no character has the number. */
  ghost predicate IsBadEscape(x: string, problem: Problem) {
    && |x| > 0 && x[0] == '\\' && !Among(At(x, 1), BREAKS)
    && var letter := At(x, 1);
      match problem
      case UnknownEscape => Digits(letter) == 0 && !Among(letter, LETTERS)
      case ExpectedHex => Digits(letter) > 0 && exists k :: 2 <= k < 2 + Digits(letter) && IsNoDigit(At(x, k))
      case BadCodePoint => Digits(letter) > 0 && |x| >= 2 + Digits(letter) && IsNoCharacter(x[2..2 + Digits(letter)])
      case _ => false
  }

  ghost predicate IsNoDigit(c: char) { forall d :: !IsDigit(c, d) }

  ghost predicate IsNoCharacter(digits: string) { exists v: nat :: Spells(digits, v) && (0xD800 <= v <= 0xDFFF || v > 0x10FFFF) }

  // ----- Blanks and breaks -----

  function AfterBlanks(pd: Pending, blanks: string): Pending {
    if pd.leading then pd else pd.(whitespaces := pd.whitespaces + blanks)
  }

  lemma {:induction false} BlanksRead(t: string, p: nat, col: nat, acc: string, single: bool, pd: Pending, blanks: string, more: string)
    requires Stands(t, p, blanks + more) && AllBlank(blanks)
    ensures p + |blanks| <= |t|
    ensures FlowBlank(t, p, col, acc, single, pd) == FlowBlank(t, p + |blanks|, col + |blanks|, acc, single, AfterBlanks(pd, blanks))
    decreases |blanks|
  {
    hide Stands, IsBreak, AllBlank;
    StandsAt(t, p, blanks, more);
    if blanks == "" {
      assert pd.whitespaces + "" == pd.whitespaces;
    } else {
      FirstBlank(blanks);
      assert At(t, p + 0) == blanks[0];
      assert blanks == blanks[..1] + blanks[1..] && blanks + more == blanks[..1] + (blanks[1..] + more);
      StandsAt(t, p, blanks[..1], blanks[1..] + more);
      BlanksRead(t, p + 1, col + 1, acc, single, AddBlank(pd, blanks[0]), blanks[1..], more);
      assert pd.whitespaces + [blanks[0]] + blanks[1..] == pd.whitespaces + blanks;
    }
  }

  lemma FirstBlank(blanks: string)
    requires blanks != "" && AllBlank(blanks)
    ensures IsBlank(blanks[0]) && AllBlank(blanks[1..])
  {
    BlanksAgree(blanks[0]);
  }

  /** One line break; no LF may follow a CR. */
  lemma BreakReads(t: string, p: nat, b: LineBreak, more: string)
    requires Stands(t, p, BreakText(b) + more) && (b.Cr? ==> At(more, 0) != '\n')
    ensures p < |t| && IsBreak(At(t, p)) && !IsBlank(At(t, p)) && BreakWidth(t, p) == |BreakText(b)| && BreakValue(t, p) == BreakMeaning(b)
    ensures Stands(t, p + |BreakText(b)|, more)
  {
    StandsAt(t, p, BreakText(b), more);
    assert At(t, p + 0) == BreakText(b)[0];
    if b.CrLf? { assert At(t, p + 1) == BreakText(b)[1]; }
  }

  function AfterLines(pd: Pending, lines: seq<Line>): Pending
    decreases |lines|
  {
    if lines == [] then pd else AfterLines(AddBreak(pd, BreakMeaning(lines[0].ends)), lines[1..])
  }

  lemma {:induction false} LinesRead(t: string, p: nat, col: nat, acc: string, single: bool, pd: Pending, lines: seq<Line>, more: string)
    requires Stands(t, p, LinesText(lines) + more) && AreLines(lines) && At(more, 0) != '\n'
    ensures p + |LinesText(lines)| <= |t|
    ensures var to := if lines == [] then col else |lines[|lines| - 1].blanks|;
      FlowBlank(t, p, col, acc, single, pd) == FlowBlank(t, p + |LinesText(lines)|, to, acc, single, AfterLines(pd, lines))
    decreases |lines|
  {
    hide Stands, FlowBlank, IsBlank, IsBreak, BreakWidth, BreakValue, BreakText, BreakMeaning, AllBlank;
    if lines == [] {
      StandsAt(t, p, "", more);
      assert "" + more == more;
    } else {
      var x, rest := lines[0], lines[1..];
      var tail := LinesText(rest) + more;
      LinesFirst(rest, more);
      assert LinesText(lines) + more == BreakText(x.ends) + (x.blanks + tail);
      FirstOf(x, tail);
      BreakReads(t, p, x.ends, x.blanks + tail);
      TakesBreak(t, p, col, acc, single, pd);
      var q, pd' := p + |BreakText(x.ends)|, AddBreak(pd, BreakMeaning(x.ends));
      BlanksRead(t, q, 0, acc, single, pd', x.blanks, tail);
      StandsAt(t, q, x.blanks, tail);
      LinesRead(t, q + |x.blanks|, |x.blanks|, acc, single, pd', rest, more);
      assert |LinesText(lines)| == |BreakText(x.ends)| + |x.blanks| + |LinesText(rest)|;
      assert rest != [] ==> lines[|lines| - 1] == rest[|rest| - 1];
    }
  }

  lemma TakesBreak(t: string, p: nat, col: nat, acc: string, single: bool, pd: Pending)
    requires p < |t| && IsBreak(At(t, p)) && !IsBlank(At(t, p))
    ensures p + BreakWidth(t, p) <= |t|
    ensures FlowBlank(t, p, col, acc, single, pd)
         == FlowBlank(t, p + BreakWidth(t, p), 0, acc, single, AddBreak(pd, BreakValue(t, p)))
  {
  }

  lemma LinesFirst(lines: seq<Line>, more: string)
    requires At(more, 0) != '\n'
    ensures At(LinesText(lines) + more, 0) == '\n' <==> lines != [] && lines[0].ends == Lf
  {
    if lines == [] { assert LinesText(lines) + more == more; }
  }

  lemma FirstOf(x: Line, tail: string)
    requires AllBlank(x.blanks) && (x.blanks == "" ==> x.ends != Cr || At(tail, 0) != '\n')
    ensures x.ends == Cr ==> At(x.blanks + tail, 0) != '\n'
  {
    if x.blanks == "" { assert x.blanks + tail == tail; } else { assert Among(x.blanks[0], BLANKS); }
  }

  lemma {:induction false} TrailingLines(pd: Pending, lines: seq<Line>)
    requires pd.leading
    ensures AfterLines(pd, lines) == pd.(trailingBreaks := pd.trailingBreaks + LinesMeaning(lines))
    decreases |lines|
  {
    if lines == [] {
      assert pd.trailingBreaks + "" == pd.trailingBreaks;
    } else {
      var b := BreakMeaning(lines[0].ends);
      TrailingLines(AddBreak(pd, b), lines[1..]);
      assert (pd.trailingBreaks + b) + LinesMeaning(lines[1..]) == pd.trailingBreaks + (b + LinesMeaning(lines[1..]));
    }
  }

  /** What is pending behind a gap folds to what the gap means. */
  lemma FoldsLines(blanks: string, lines: seq<Line>)
    requires lines != []
    ensures Fold(AfterLines(NOTHING.(whitespaces := blanks), lines)) == Folded(lines)
  {
    var b := BreakMeaning(lines[0].ends);
    var pd := AddBreak(NOTHING.(whitespaces := blanks), b);
    TrailingLines(pd, lines[1..]);
    assert "" + b == b && "" + LinesMeaning(lines[1..]) == LinesMeaning(lines[1..]);
    if |lines| > 1 { assert BreakMeaning(lines[1].ends) != ""; }
  }

  // ----- Pieces -----

  /** What stands behind a gap. */
  predicate BehindGap(more: string) { !IsBlank(At(more, 0)) && !IsBreak(At(more, 0)) }

  lemma GapReads(t: string, p: nat, col: nat, acc: string, single: bool, x: Piece, more: string)
    requires Stands(t, p, PieceText(x) + more) && IsQuotedPiece(single, x) && IsGap(x) && BehindGap(more)
    ensures p + |PieceText(x)| <= |t|
    ensures FlowNonBlank(t, p, col, acc, single) == FlowOuter(t, p + |PieceText(x)|, PieceColumn(col, x), acc + PieceMeaning(x), single)
  {
    hide Stands, FlowNonBlank, FlowBlank, FlowOuter, IsBlank, IsBreak, IsBlankz, BehindGap, AllBlank, AreLines, LinesText, Folded;
    GapStarts(t, p, x, more);
    EntersBlanks(t, p, col, acc, single);
    if x.Broken? {
      assert PieceText(x) + more == x.blanks + (LinesText(x.lines) + more);
      BrokenReads(t, p, col, acc, single, x.blanks, x.lines, more);
    } else {
      BlanksEnd(t, p, col, acc, single, x.blanks, more);
    }
  }

  lemma BlanksEnd(t: string, p: nat, col: nat, acc: string, single: bool, blanks: string, more: string)
    requires Stands(t, p, blanks + more) && AllBlank(blanks) && BehindGap(more)
    ensures p + |blanks| <= |t|
    ensures FlowBlank(t, p, col, acc, single, NOTHING) == FlowOuter(t, p + |blanks|, col + |blanks|, acc + blanks, single)
  {
    hide Stands, FlowBlank, FlowOuter, Fold, AllBlank;
    var pd := NOTHING.(whitespaces := blanks);
    assert "" + blanks == blanks;
    StandsAt(t, p, blanks, more);
    BlanksRead(t, p, col, acc, single, NOTHING, blanks, more);
    LeavesBlanks(t, p + |blanks|, col + |blanks|, acc, single, pd);
    FoldsBlanks(blanks);
  }

  lemma BrokenReads(t: string, p: nat, col: nat, acc: string, single: bool, blanks: string, lines: seq<Line>, more: string)
    requires Stands(t, p, blanks + (LinesText(lines) + more)) && AllBlank(blanks) && lines != [] && AreLines(lines) && BehindGap(more)
    ensures p + |blanks| + |LinesText(lines)| <= |t|
    ensures FlowBlank(t, p, col, acc, single, NOTHING)
         == FlowOuter(t, p + |blanks| + |LinesText(lines)|, |lines[|lines| - 1].blanks|, acc + Folded(lines), single)
  {
    hide Stands, FlowBlank, FlowOuter, IsBlank, IsBreak, Fold, AllBlank, AreLines, AfterLines, LinesText, Folded;
    var pd, tail := NOTHING.(whitespaces := blanks), LinesText(lines) + more;
    assert "" + blanks == blanks;
    StandsAt(t, p, blanks, tail);
    BlanksRead(t, p, col, acc, single, NOTHING, blanks, tail);
    EndsHere(more);
    LinesRead(t, p + |blanks|, col + |blanks|, acc, single, pd, lines, more);
    FoldsLines(blanks, lines);
    StandsAt(t, p + |blanks|, LinesText(lines), more);
    LeavesBlanks(t, p + |blanks| + |LinesText(lines)|, |lines[|lines| - 1].blanks|, acc, single, AfterLines(pd, lines));
  }

  lemma EndsHere(more: string)
    requires BehindGap(more)
    ensures At(more, 0) != '\n'
  {
  }

  lemma FoldsBlanks(blanks: string)
    ensures Fold(NOTHING.(whitespaces := blanks)) == blanks
  {
  }

  lemma EntersBlanks(t: string, p: nat, col: nat, acc: string, single: bool)
    requires p < |t| && IsBlankz(At(t, p))
    ensures FlowNonBlank(t, p, col, acc, single) == FlowBlank(t, p, col, acc, single, NOTHING)
  {
  }

  lemma LeavesBlanks(t: string, p: nat, col: nat, acc: string, single: bool, pd: Pending)
    requires p <= |t| && !IsBlank(At(t, p)) && !IsBreak(At(t, p))
    ensures FlowBlank(t, p, col, acc, single, pd) == FlowOuter(t, p, col, acc + Fold(pd), single)
  {
  }

  lemma GapStarts(t: string, p: nat, x: Piece, more: string)
    requires Stands(t, p, PieceText(x) + more) && IsGap(x) && IsQuotedPiece(true, x)
    ensures p < |t| && IsBlankz(At(t, p))
  {
    hide Stands, PieceText, IsBlankz, IsGap, IsQuotedPiece;
    var text := PieceText(x) + more;
    GapBegins(x, more);
    assert "" + text == text;
    StandsAt(t, p, "", text);
  }

  lemma GapBegins(x: Piece, more: string)
    requires IsGap(x) && IsQuotedPiece(true, x)
    ensures IsBlankz(At(PieceText(x) + more, 0)) && At(PieceText(x) + more, 0) != '\0'
  {
    if x.blanks != "" {
      FirstBlank(x.blanks);
      assert (PieceText(x) + more)[0] == x.blanks[0];
    } else {
      var b := BreakText(x.lines[0].ends);
      assert (PieceText(x) + more)[0] == b[0];
    }
  }

  lemma ContinuedReads(t: string, p: nat, col: nat, acc: string, x: Piece, more: string)
    requires Stands(t, p, PieceText(x) + more) && IsQuotedPiece(false, x) && x.Continued? && BehindGap(more)
    ensures p + |PieceText(x)| <= |t|
    ensures FlowNonBlank(t, p, col, acc, false) == FlowOuter(t, p + |PieceText(x)|, PieceColumn(col, x), acc + PieceMeaning(x), false)
  {
    hide Stands, FlowNonBlank, FlowBlank, FlowOuter, FlowAfterEscapedBreak, IsBlank, IsBreak, IsBlankz, Fold, AllBlank, AfterLines, BreakText, BreakWidth, LinesText;
    var first, rest := x.lines[0], x.lines[1..];
    var tail := LinesText(rest) + more;
    EndsHere(more);
    ContinuedText(x, more);
    assert PieceText(x) + more == "\\" + (BreakText(first.ends) + (first.blanks + tail));
    StandsAt(t, p, "\\", BreakText(first.ends) + (first.blanks + tail));
    LinesFirst(rest, more);
    FirstOf(first, tail);
    BreakReads(t, p + 1, first.ends, first.blanks + tail);
    assert At(t, p + 0) == "\\"[0];
    EntersContinued(t, p, col, acc);
    var q := p + 1 + |BreakText(first.ends)|;
    ContinuedLines(t, q, acc, first.blanks, rest, more);
    ClosesAtOnce(t, q, acc);
    assert PieceMeaning(x) == LinesMeaning(rest);
    assert PieceColumn(col, x) == if rest == [] then |first.blanks| else |rest[|rest| - 1].blanks|;
  }

  lemma ContinuedLines(t: string, q: nat, acc: string, blanks: string, rest: seq<Line>, more: string)
    requires Stands(t, q, blanks + (LinesText(rest) + more)) && AllBlank(blanks) && AreLines(rest) && BehindGap(more)
    ensures q + |blanks| + |LinesText(rest)| <= |t|
    ensures FlowBlank(t, q, 0, acc, false, NOTHING.(leading := true))
         == FlowOuter(t, q + |blanks| + |LinesText(rest)|, if rest == [] then |blanks| else |rest[|rest| - 1].blanks|, acc + LinesMeaning(rest), false)
  {
    hide Stands, FlowBlank, FlowOuter, IsBlank, IsBreak, Fold, AllBlank, AfterLines, LinesText;
    var tail, pd := LinesText(rest) + more, NOTHING.(leading := true);
    EndsHere(more);
    BlanksRead(t, q, 0, acc, false, pd, blanks, tail);
    StandsAt(t, q, blanks, tail);
    LinesRead(t, q + |blanks|, |blanks|, acc, false, pd, rest, more);
    StandsAt(t, q + |blanks|, LinesText(rest), more);
    TrailingLines(pd, rest);
    var to := if rest == [] then |blanks| else |rest[|rest| - 1].blanks|;
    assert "" + LinesMeaning(rest) == LinesMeaning(rest);
    FoldsTrailing(LinesMeaning(rest));
    LeavesBlanks(t, q + |blanks| + |LinesText(rest)|, to, acc, false, AfterLines(pd, rest));
  }

  lemma ContinuedText(x: Piece, more: string)
    requires x.Continued? && x.lines != []
    ensures PieceText(x) + more == "\\" + (BreakText(x.lines[0].ends) + (x.lines[0].blanks + (LinesText(x.lines[1..]) + more)))
    ensures |PieceText(x)| == 1 + |BreakText(x.lines[0].ends)| + |x.lines[0].blanks| + |LinesText(x.lines[1..])|
  {
  }

  lemma FoldsTrailing(breaks: string)
    ensures Fold(NOTHING.(leading := true, trailingBreaks := breaks)) == breaks
  {
  }

  lemma EntersContinued(t: string, p: nat, col: nat, acc: string)
    requires p + 1 + BreakWidth(t, p + 1) <= |t| && At(t, p) == '\\' && IsBreak(At(t, p + 1))
    ensures FlowNonBlank(t, p, col, acc, false) == FlowAfterEscapedBreak(t, p + 1 + BreakWidth(t, p + 1), 0, acc)
  {
  }

  /** Behind an escaped line break the closing quote makes no exception. */
  lemma ClosesAtOnce(t: string, q: nat, acc: string)
    requires q <= |t|
    ensures FlowAfterEscapedBreak(t, q, 0, acc) == FlowBlank(t, q, 0, acc, false, NOTHING.(leading := true))
  {
    var pd := NOTHING.(leading := true);
    if At(t, q) == '"' {
      assert Fold(pd) == "" && acc + Fold(pd) == acc;
      assert FlowBlank(t, q, 0, acc, false, pd) == FlowOuter(t, q, 0, acc, false);
      assert FlowOuter(t, q, 0, acc, false) == FlowNonBlank(t, q, 0, acc, false);
    }
  }

  /** A character, or an escape for one. */
  lemma CharacterReads(t: string, p: nat, col: nat, acc: string, single: bool, x: Piece, more: string)
    requires Stands(t, p, PieceText(x) + more) && IsQuotedPiece(single, x) && !IsGap(x) && !x.Continued?
    ensures p + |PieceText(x)| <= |t|
    ensures FlowNonBlank(t, p, col, acc, single) == FlowNonBlank(t, p + |PieceText(x)|, PieceColumn(col, x), acc + PieceMeaning(x), single)
  {
    hide ScanEscape;
    StandsAt(t, p, PieceText(x), more);
    assert At(t, p + 0) == PieceText(x)[0];
    match x {
      case Raw(c) => BlanksAgree(c);
      case Doubled => assert At(t, p + 1) == PieceText(x)[1];
      case Letter(letter, c) =>
        assert At(t, p + 1) == PieceText(x)[1];
        LetterReads(t, p, letter, c);
      case Code(letter, digits, c) =>
        assert At(t, p + 1) == PieceText(x)[1];
        assert forall k :: 0 <= k < |digits| ==> PieceText(x)[2 + k] == digits[k];
        CodeReads(t, p, letter, digits, c);
    }
  }

  /** What a piece begins with. */
  lemma PieceStarts(single: bool, x: Piece, more: string)
    requires IsQuotedPiece(single, x) && !IsGap(x)
    ensures BehindGap(PieceText(x) + more) && At(PieceText(x) + more, 0) != '\0'
  {
    if x.Raw? { BlanksAgree(x.c); }
  }

  lemma MarkerAgrees(t: string, p: nat, x: string)
    requires Stands(t, p, x)
    ensures DocumentMarkerAt(t, p) <==> IsMarker(x)
  {
    assert forall k :: 0 <= k < |x| ==> At(t, p + k) == x[k] by { StandsAt(t, p, x, ""); assert x + "" == x; }
    if |x| > 3 { BlanksAgree(x[3]); }
    assert At(t, p + 3) == At(x, 3);
    if |x| >= 3 {
      assert At(t, p + 0) == x[0];
      assert StartsWith(x, "---") <==> x[0] == '-' && x[1] == '-' && x[2] == '-';
      assert StartsWith(x, "...") <==> x[0] == '.' && x[1] == '.' && x[2] == '.';
    }
  }

  // ----- Whole scalars -----

  lemma RestQuoted(single: bool, ps: seq<Piece>)
    requires ps != [] && IsQuoted(single, ps)
    ensures IsQuotedPiece(single, ps[0]) && IsQuoted(single, ps[1..])
    ensures |ps| > 1 && (IsGap(ps[0]) || ps[0].Continued?) ==> !IsGap(ps[1]) && IsQuotedPiece(single, ps[1])
  {
    var rest := ps[1..];
    assert forall i :: 0 <= i < |rest| ==> rest[i] == ps[i + 1];
  }

  /** What may stand behind the pieces. */
  predicate Stops(tail: string) { BehindGap(tail) && At(tail, 0) != '-' && At(tail, 0) != '.' }

  lemma TextUnfolds(ps: seq<Piece>, tail: string)
    requires ps != []
    ensures Text(ps) + tail == PieceText(ps[0]) + (Text(ps[1..]) + tail) && |Text(ps)| == |PieceText(ps[0])| + |Text(ps[1..])|
  {
  }

  lemma GapIsLeft(single: bool, ps: seq<Piece>, tail: string)
    requires ps != [] && IsQuoted(single, ps) && Stops(tail) && (IsGap(ps[0]) || ps[0].Continued?)
    ensures BehindGap(Text(ps[1..]) + tail)
    ensures ps[1..] == [] ==> Text(ps[1..]) + tail == tail
    ensures ps[1..] != [] ==> At(Text(ps[1..]) + tail, 0) != '\0'
  {
    RestQuoted(single, ps);
    if |ps| == 1 {
      assert Text(ps[1..]) + tail == tail;
    } else {
      TextUnfolds(ps[1..], tail);
      PieceStarts(single, ps[1], Text(ps[1..][1..]) + tail);
    }
  }

  /** Behind a gap the scanner looks for the marker of a document, and goes on otherwise. */
  lemma OuterReads(t: string, p: nat, col: nat, acc: string, single: bool, more: string)
    requires Stands(t, p, more) && BehindGap(more)
    ensures FlowOuter(t, p, col, acc, single)
         == if col == 0 && IsMarker(more) then Failed(DocumentIndicator) else FlowNonBlank(t, p, col, acc, single)
  {
    MarkerAgrees(t, p, more);
    assert "" + more == more;
    StandsAt(t, p, "", more);
    if At(more, 0) == '\0' && !(col == 0 && IsMarker(more)) {
      assert Fold(NOTHING) == "" && acc + Fold(NOTHING) == acc;
      assert FlowNonBlank(t, p, col, acc, single) == FlowBlank(t, p, col, acc, single, NOTHING);
      assert FlowBlank(t, p, col, acc, single, NOTHING) == FlowOuter(t, p, col, acc, single);
    }
  }

  lemma PieceReads(t: string, p: nat, col: nat, acc: string, single: bool, ps: seq<Piece>, tail: string)
    requires ps != [] && Stands(t, p, Text(ps) + tail) && IsQuoted(single, ps) && Stops(tail)
    ensures p + |PieceText(ps[0])| <= |t| && Stands(t, p + |PieceText(ps[0])|, Text(ps[1..]) + tail)
    ensures FlowNonBlank(t, p, col, acc, single)
         == if EndsLine(ps[0]) && PieceColumn(0, ps[0]) == 0 && IsMarker(Text(ps[1..]) + tail) then Failed(DocumentIndicator)
            else FlowNonBlank(t, p + |PieceText(ps[0])|, PieceColumn(col, ps[0]), acc + PieceMeaning(ps[0]), single)
  {
    hide Stands, FlowNonBlank, FlowOuter, IsMarker, IsQuotedPiece, PieceText, PieceMeaning, Text, BehindGap;
    var x, more := ps[0], Text(ps[1..]) + tail;
    RestQuoted(single, ps);
    TextUnfolds(ps, tail);
    StandsAt(t, p, PieceText(x), more);
    if IsGap(x) || x.Continued? {
      GapIsLeft(single, ps, tail);
      if x.Continued? {
        OnlyDouble(single, x);
        ContinuedReads(t, p, col, acc, x, more);
      } else {
        GapReads(t, p, col, acc, single, x, more);
      }
      OuterReads(t, p + |PieceText(x)|, PieceColumn(col, x), acc + PieceMeaning(x), single, more);
      GapColumn(single, x, col);
    } else {
      CharacterReads(t, p, col, acc, single, x, more);
      NoLineEnds(single, x);
    }
  }

  lemma OnlyDouble(single: bool, x: Piece)
    requires IsQuotedPiece(single, x) && x.Continued?
    ensures !single
  {
  }

  lemma NoLineEnds(single: bool, x: Piece)
    requires !IsGap(x) && !x.Continued?
    ensures !EndsLine(x)
  {
  }

  lemma GapColumn(single: bool, x: Piece, col: nat)
    requires IsQuotedPiece(single, x) && (IsGap(x) || x.Continued?)
    ensures PieceColumn(col, x) == 0 <==> EndsLine(x) && PieceColumn(0, x) == 0
  {
  }

  /** The scanner's loop over all pieces. */
  lemma {:induction false} PiecesRead(t: string, p: nat, col: nat, acc: string, single: bool, ps: seq<Piece>, tail: string)
    requires Stands(t, p, Text(ps) + tail) && IsQuoted(single, ps) && Stops(tail)
    ensures p + |Text(ps)| <= |t| && Stands(t, p + |Text(ps)|, tail)
    ensures FlowNonBlank(t, p, col, acc, single)
         == if HoldsMarker(ps, tail) then Failed(DocumentIndicator)
            else FlowNonBlank(t, p + |Text(ps)|, Column(col, ps), acc + Meaning(ps), single)
    decreases |ps|
  {
    hide Stands, FlowNonBlank, IsMarker, PieceText, PieceMeaning, PieceColumn, IsQuotedPiece, Stops;
    if ps == [] {
      assert acc + "" == acc && "" + tail == tail;
      StandsAt(t, p, "", tail);
    } else {
      PieceReads(t, p, col, acc, single, ps, tail);
      RestQuoted(single, ps);
      TextUnfolds(ps, tail);
      var q := p + |PieceText(ps[0])|;
      PiecesRead(t, q, PieceColumn(col, ps[0]), acc + PieceMeaning(ps[0]), single, ps[1..], tail);
      assert (acc + PieceMeaning(ps[0])) + Meaning(ps[1..]) == acc + Meaning(ps);
    }
  }

  /** What is wrong behind the last good piece, where no quote closes the scalar. */
  ghost predicate IsWrong(single: bool, tail: string, problem: Problem) {
    if At(tail, 0) == '\0' then problem == EndOfStream else !single && IsBadEscape(tail, problem)
  }

  /** Every quoted scalar that is spelled right is read as what it means, unless one of its lines begins with the
      marker of a document. */
  lemma EveryQuotedSpellingIsRead(t: string, p: nat, col: nat, single: bool, ps: seq<Piece>, rest: string)
    requires var q := Mark(single); Stands(t, p, q + Text(ps) + q + rest) && IsQuoted(single, ps) && (single ==> At(rest, 0) != '\'')
    ensures p < |t|
    ensures FlowScalar(t, p, col, single)
         == if HoldsMarker(ps, Mark(single) + rest) then Failed(DocumentIndicator)
            else Scanned(Meaning(ps), p + |Text(ps)| + 2, Column(col + 1, ps) + 1)
  {
    hide FlowNonBlank, FlowOuter, Stands, Text, Meaning, Column, HoldsMarker, IsQuoted, Mark;
    var q := Mark(single);
    var tail := q + rest;
    assert q + Text(ps) + q + rest == q + (Text(ps) + tail);
    MarkStops(single, rest);
    StandsAt(t, p, q, Text(ps) + tail);
    OpensQuoted(t, p + 1, col + 1, single, ps, tail);
    PiecesRead(t, p + 1, col + 1, "", single, ps, tail);
    assert "" + Meaning(ps) == Meaning(ps);
    var e := p + 1 + |Text(ps)|;
    StandsAt(t, e, q, rest);
    assert At(t, e + 0) == q[0];
    ClosesQuoted(t, e, Column(col + 1, ps), Meaning(ps), single);
  }

  lemma MarkStops(single: bool, rest: string)
    ensures Stops(Mark(single) + rest) && |Mark(single)| == 1
  {
  }

  function Mark(single: bool): string { if single then "'" else "\"" }

  lemma OpensQuoted(t: string, p: nat, col: nat, single: bool, ps: seq<Piece>, tail: string)
    requires Stands(t, p, Text(ps) + tail) && col > 0
    ensures FlowOuter(t, p, col, "", single) == FlowNonBlank(t, p, col, "", single)
  {
    if At(t, p) == '\0' {
      assert Fold(NOTHING) == "" && "" + Fold(NOTHING) == "";
      assert FlowNonBlank(t, p, col, "", single) == FlowBlank(t, p, col, "", single, NOTHING);
      assert FlowBlank(t, p, col, "", single, NOTHING) == FlowOuter(t, p, col, "", single);
    }
  }

  lemma ClosesQuoted(t: string, p: nat, col: nat, acc: string, single: bool)
    requires p < |t| && At(t, p) == Mark(single)[0] && (single ==> At(t, p + 1) != '\'')
    ensures FlowNonBlank(t, p, col, acc, single) == Scanned(acc, p + 1, col + 1)
  {
  }

  // ----- Every text is a spelling or wrong -----

  lemma {:induction false} LeadingBlanks(s: string) returns (blanks: string, rest: string)
    ensures s == blanks + rest && AllBlank(blanks) && !IsBlank(At(rest, 0))
    ensures IsBlank(At(s, 0)) ==> blanks != ""
  {
    BlanksAgree(At(s, 0));
    if IsBlank(At(s, 0)) {
      blanks, rest := LeadingBlanks(s[1..]);
      blanks := [s[0]] + blanks;
    } else {
      blanks, rest := "", s;
    }
  }

  lemma LeadingBreak(s: string) returns (b: LineBreak, rest: string)
    requires IsBreak(At(s, 0))
    ensures s == BreakText(b) + rest && (b.Cr? ==> At(rest, 0) != '\n')
  {
    var n := if s[0] == '\r' && At(s, 1) == '\n' then 2 else 1;
    b := if n == 2 then CrLf else if s[0] == '\r' then Cr else if s[0] == '\n' then Lf else if s[0] == '\U{85}' then Nel else if s[0] == '\U{2028}' then Ls else Ps;
    rest := s[n..];
  }

  lemma {:induction false} LeadingLines(s: string) returns (lines: seq<Line>, rest: string)
    requires !IsBlank(At(s, 0))
    ensures s == LinesText(lines) + rest && AreLines(lines) && BehindGap(rest)
    ensures IsBreak(At(s, 0)) ==> lines != []
    ensures lines != [] && lines[0].ends.Lf? ==> At(s, 0) == '\n'
    decreases |s|
  {
    if IsBreak(At(s, 0)) {
      var b, more := LeadingBreak(s);
      var blanks, next := LeadingBlanks(more);
      var others;
      others, rest := LeadingLines(next);
      lines := [Line(b, blanks)] + others;
      assert lines[1..] == others;
      assert next == more[|blanks|..];
      if blanks == "" { assert next == more; }
    } else {
      lines, rest := [], s;
      assert LinesText(lines) + rest == s;
    }
  }

  lemma LeadingGap(single: bool, s: string) returns (x: Piece, rest: string)
    requires IsBlank(At(s, 0)) || IsBreak(At(s, 0))
    ensures s == PieceText(x) + rest && PieceText(x) != "" && IsQuotedPiece(single, x) && IsGap(x) && BehindGap(rest)
  {
    var blanks, more := LeadingBlanks(s);
    var lines;
    lines, rest := LeadingLines(more);
    if lines == [] {
      x := Blanks(blanks);
      assert LinesText(lines) + rest == rest;
    } else {
      x := Broken(blanks, lines);
      assert BreakText(lines[0].ends) != "";
    }
  }

  /** An escape, or what is wrong with it. */
  lemma LeadingEscape(s: string) returns (good: bool, x: Piece, rest: string, problem: Problem)
    requires At(s, 0) == '\\'
    ensures good ==> s == PieceText(x) + rest && IsQuotedPiece(false, x) && !IsGap(x) && (x.Continued? ==> BehindGap(rest))
    ensures !good ==> IsBadEscape(s, problem)
  {
    good, x, rest, problem := true, Doubled, "", UnknownEscape;
    var letter := At(s, 1);
    BlanksAgree(letter);
    if IsBreak(letter) {
      var lines;
      lines, rest := LeadingLines(s[1..]);
      x := Continued(lines);
    } else if exists c :: IsEscape(letter, c) {
      var c :| IsEscape(letter, c);
      x, rest := Letter(letter, c), s[2..];
      assert letter != '\0' by { assert forall i :: 0 <= i < |LETTERS| ==> LETTERS[i] != '\0'; }
    } else if Digits(letter) == 0 {
      good, problem := false, UnknownEscape;
      assert !Among(letter, LETTERS) by { NoEscape(letter); }
    } else {
      good, x, rest, problem := LeadingCode(s);
    }
  }

  lemma NoEscape(letter: char)
    requires forall c :: !IsEscape(letter, c)
    ensures !Among(letter, LETTERS)
  {
    if Among(letter, LETTERS) {
      var i :| 0 <= i < |LETTERS| && LETTERS[i] == letter;
      assert IsEscape(letter, MEANINGS[i]);
    }
  }

  lemma LeadingCode(s: string) returns (good: bool, x: Piece, rest: string, problem: Problem)
    requires At(s, 0) == '\\' && Digits(At(s, 1)) > 0
    ensures good ==> s == PieceText(x) + rest && IsQuotedPiece(false, x) && x.Code?
    ensures !good ==> IsBadEscape(s, problem)
  {
    var letter := At(s, 1);
    var n := Digits(letter);
    good, x, rest, problem := false, Doubled, "", ExpectedHex;
    if AllHex(s, 2, n) {
      ParseHexSpells(s, 2, n);
      var v := ParseHex(s, 2, n);
      if 0xD800 <= v <= 0xDFFF || v > 0x10FFFF {
        problem := BadCodePoint;
      } else {
        good, x, rest := true, Code(letter, s[2..2 + n], v as char), s[2 + n..];
        assert s == s[..2] + s[2..2 + n] + s[2 + n..] && s[..2] == ['\\', letter];
      }
    } else {
      var k :| 2 <= k < 2 + n && !IsHex(At(s, k));
      HexIsPlace(At(s, k));
    }
  }

  lemma Prepended(single: bool, x: Piece, ps: seq<Piece>)
    requires IsQuotedPiece(single, x) && IsQuoted(single, ps) && (ps != [] && (IsGap(x) || x.Continued?) ==> !IsGap(ps[0]))
    ensures IsQuoted(single, [x] + ps)
  {
  }

  lemma TextPrepended(x: Piece, ps: seq<Piece>, tail: string)
    ensures Text([x] + ps) + tail == PieceText(x) + (Text(ps) + tail)
  {
    assert ([x] + ps)[1..] == ps;
  }

  predicate Closes(single: bool, tail: string) { At(tail, 0) == Mark(single)[0] && (single ==> At(tail, 1) != '\'') }

  /** How the text behind an opening quote begins: pieces, and then either the quote that closes the scalar or
      something wrong. */
  lemma {:induction false} Spelled(single: bool, s: string) returns (ps: seq<Piece>, tail: string, problem: Problem)
    ensures s == Text(ps) + tail && IsQuoted(single, ps)
    ensures Closes(single, tail) || IsWrong(single, tail, problem)
    ensures ps != [] && IsGap(ps[0]) ==> !BehindGap(s)
    decreases |s|
  {
    hide IsQuotedPiece, IsQuoted, Text, IsBadEscape, AllBlank, AreLines;
    var good, x, rest := true, Doubled, "";
    if IsBlank(At(s, 0)) || IsBreak(At(s, 0)) {
      x, rest := LeadingGap(single, s);
    } else if At(s, 0) == '\0' || Closes(single, s) {
      good, problem := false, EndOfStream;
    } else if !single && s[0] == '\\' {
      good, x, rest, problem := LeadingEscape(s);
    } else {
      x, rest := LeadingCharacter(single, s);
    }
    if good {
      assert |rest| < |s| by { assert |s| == |PieceText(x)| + |rest|; SomeText(single, x); }
      ps, tail, problem := Spelled(single, rest);
      if IsGap(x) || x.Continued? { assert BehindGap(rest); }
      Prepended(single, x, ps);
      TextPrepended(x, ps, tail);
      ps := [x] + ps;
    } else {
      ps, tail := [], s;
      NoPieces(single, s);
    }
  }

  lemma NoPieces(single: bool, s: string)
    ensures Text([]) + s == s && IsQuoted(single, [])
  {
  }

  lemma SomeText(single: bool, x: Piece)
    requires IsQuotedPiece(single, x)
    ensures PieceText(x) != ""
  {
    if x.Broken? { assert BreakText(x.lines[0].ends) != ""; }
  }

  lemma LeadingCharacter(single: bool, s: string) returns (x: Piece, rest: string)
    requires At(s, 0) != '\0' && BehindGap(s) && !Closes(single, s) && (!single ==> s[0] != '\\')
    ensures s == PieceText(x) + rest && IsQuotedPiece(single, x) && !IsGap(x) && !x.Continued?
  {
    BlanksAgree(s[0]);
    if single && s[0] == '\'' {
      x, rest := Doubled, s[2..];
    } else {
      x, rest := Raw(s[0]), s[1..];
    }
  }

  lemma WrongFails(t: string, p: nat, col: nat, acc: string, single: bool, tail: string, problem: Problem)
    requires Stands(t, p, tail) && IsWrong(single, tail, problem)
    ensures Stops(tail) && FlowNonBlank(t, p, col, acc, single) == Failed(problem)
  {
    assert "" + tail == tail;
    StandsAt(t, p, "", tail);
    if At(tail, 0) == '\0' {
      assert FlowNonBlank(t, p, col, acc, single) == FlowBlank(t, p, col, acc, single, NOTHING);
      assert FlowBlank(t, p, col, acc, single, NOTHING) == FlowOuter(t, p, col, acc + Fold(NOTHING), single);
    } else {
      EscapeFails(t, p, tail, problem);
      BlanksAgree(At(tail, 1));
      assert At(t, p + 1) == At(tail, 1) by { NextAt(t, p, tail); }
    }
  }

  lemma NextAt(t: string, p: nat, x: string)
    requires Stands(t, p, x)
    ensures forall k: nat :: At(t, p + k) == At(x, k)
  {
    forall k: nat ensures At(t, p + k) == At(x, k) { if k < |x| { assert t[p..][k] == x[k]; } }
  }

  lemma EscapeFails(t: string, p: nat, x: string, problem: Problem)
    requires Stands(t, p, x) && IsBadEscape(x, problem)
    ensures ScanEscape(t, p) == BadEscape(problem)
  {
    hide Stands;
    NextAt(t, p, x);
    var letter := At(x, 1);
    if problem.UnknownEscape? {
      UnknownFails(t, p, letter);
    } else {
      CodeEscape(t, p, letter);
      var n := Digits(letter);
      if problem.ExpectedHex? {
        var k :| 2 <= k < 2 + n && IsNoDigit(At(x, k));
        HexIsPlace(At(x, k));
        assert !IsHex(At(t, p + k));
      } else {
        var v: nat :| Spells(x[2..2 + n], v) && (0xD800 <= v <= 0xDFFF || v > 0x10FFFF);
        var digits := x[2..2 + n];
        forall k | 0 <= k < |digits| ensures At(t, p + 2 + k) == digits[k] { assert At(t, p + (2 + k)) == At(x, 2 + k); }
        ParseHexReads(t, p + 2, digits, v);
      }
    }
  }

  lemma CodeEscape(t: string, p: nat, letter: char)
    requires At(t, p + 1) == letter && Digits(letter) > 0
    ensures ScanEscape(t, p) == ScanCode(t, p, Digits(letter))
  {
  }

  lemma UnknownFails(t: string, p: nat, letter: char)
    requires At(t, p + 1) == letter && Digits(letter) == 0 && !Among(letter, LETTERS)
    ensures ScanEscape(t, p) == BadEscape(UnknownEscape)
  {
    assert forall i :: 0 <= i < |LETTERS| ==> LETTERS[i] != letter;
    assert LETTERS[0] == '0' && LETTERS[1] == 'a' && LETTERS[2] == 'b' && LETTERS[3] == 't' && LETTERS[4] == '\t' && LETTERS[5] == 'n';
    assert LETTERS[6] == 'v' && LETTERS[7] == 'f' && LETTERS[8] == 'r' && LETTERS[9] == 'e' && LETTERS[10] == ' ' && LETTERS[11] == '"';
    assert LETTERS[12] == '\'' && LETTERS[13] == '\\' && LETTERS[14] == 'N' && LETTERS[15] == '_' && LETTERS[16] == 'L' && LETTERS[17] == 'P';
  }

  /** What the scanner makes of any text behind an opening quote. The text is spelled by pieces up to the quote that
      closes the scalar, and is read as what they mean; or it is spelled up to something wrong, which is reported; and
      in both cases a line that begins with the marker of a document is an error before that. */
  lemma QuotedScanIs(t: string, p: nat, col: nat, single: bool) returns (ps: seq<Piece>, tail: string, problem: Problem)
    requires p < |t| && At(t, p) == Mark(single)[0]
    ensures t[p + 1..] == Text(ps) + tail && IsQuoted(single, ps)
    ensures Closes(single, tail) || IsWrong(single, tail, problem)
    ensures FlowScalar(t, p, col, single)
         == if HoldsMarker(ps, tail) then Failed(DocumentIndicator)
            else if Closes(single, tail) then Scanned(Meaning(ps), p + |Text(ps)| + 2, Column(col + 1, ps) + 1)
            else Failed(problem)
  {
    hide FlowNonBlank, FlowOuter, Text, Meaning, Column, HoldsMarker, IsQuoted, IsWrong, Stops;
    ps, tail, problem := Spelled(single, t[p + 1..]);
    var e := p + 1 + |Text(ps)|;
    OpensQuoted(t, p + 1, col + 1, single, ps, tail);
    assert "" + Meaning(ps) == Meaning(ps);
    assert |t| == e + |tail| && Stands(t, e, tail) by { StandsAt(t, p + 1, Text(ps), tail); assert |t[p + 1..]| == |t| - (p + 1); }
    NextAt(t, e, tail);
    if Closes(single, tail) {
      ClosesStop(single, tail);
      assert At(t, e + 0) == At(tail, 0) && At(t, e + 1) == At(tail, 1);
      ClosesQuoted(t, e, Column(col + 1, ps), Meaning(ps), single);
    } else {
      WrongFails(t, e, Column(col + 1, ps), Meaning(ps), single, tail, problem);
    }
    PiecesRead(t, p + 1, col + 1, "", single, ps, tail);
  }

  lemma ClosesStop(single: bool, tail: string)
    requires Closes(single, tail)
    ensures Stops(tail) && tail != ""
  {
  }
}
