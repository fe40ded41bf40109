/** The scanner of plain scalars: how far it reads any text, and what it makes of it. */
module PlainSpellings {
  import opened CharacterSets
  import opened ScalarSpellings
  import opened Chars
  import opened ScalarScanner
  import Q = QuotedSpellings

  // ----- Where a plain scalar ends -----

  /** Where the scalar stands: whether in a flow collection, and the least column of its lines otherwise. */
  datatype Place = Place(inFlow: bool, least: int)

  /** The text that ends a plain scalar wherever it stands. */
  predicate Ends(w: Place, s: string) {
    || s == "" || s[0] == '\0'
    || (s[0] == ':' && (|s| == 1 || !IsText(s[1])))
    || (w.inFlow && Among(s[0], ",?[]{}"))
  }

  /** The text that ends a plain scalar behind blanks or line breaks, in column `col`. */
  predicate EndsBehindGap(w: Place, col: nat, s: string) {
    Ends(w, s) || s[0] == '#' || (!w.inFlow && col < w.least) || (col == 0 && IsMarker(s))
  }

  /** A tab where a line is indented. */
  predicate Tabbed(w: Place, blanks: string, col: nat) { exists k :: 0 <= k < |blanks| && blanks[k] == '\t' && col + k < w.least }

  predicate TabbedLines(w: Place, lines: seq<Line>) { exists i :: 0 <= i < |lines| && Tabbed(w, lines[i].blanks, 0) }

  predicate HoldsTab(w: Place, ps: seq<Piece>) { exists i :: 0 <= i < |ps| && ps[i].Broken? && TabbedLines(w, ps[i].lines) }

  predicate IsPlainPiece(x: Piece) { if IsGap(x) then IsQuotedPiece(true, x) else x.Raw? && IsText(x.c) }

  /** Characters, and the gaps between them: a plain scalar neither begins nor ends with one, and holds nothing that
      would end it earlier. `tail` stands behind it. */
  predicate IsPlain(w: Place, col: nat, ps: seq<Piece>, tail: string)
    decreases |ps|
  {
    ps == [] || (
      var x, rest := ps[0], ps[1..];
      var more := Text(rest) + tail;
      && IsPlainPiece(x)
      && (if IsGap(x) then rest != [] && !IsGap(rest[0]) && !EndsBehindGap(w, PieceColumn(col, x), more)
          else !Ends(w, [x.c] + more))
      && IsPlain(w, PieceColumn(col, x), rest, tail))
  }

  function PlaceOf(w: Where): Place { Place(w.flowLevel > 0, w.minColumn) }

  lemma EndsAgree(t: string, p: nat, s: string, w: Where)
    requires Q.Stands(t, p, s)
    ensures Ends(PlaceOf(w), s) <==> At(t, p) == '\0' || EndsPlainAt(t, p, w)
  {
    Q.NextAt(t, p, s);
    assert At(t, p + 0) == At(s, 0) && At(t, p + 1) == At(s, 1);
    BlanksAgree(At(s, 1));
    FlowEnds(At(s, 0));
  }

  lemma FlowEnds(c: char)
    ensures Among(c, ",?[]{}") <==> c == ',' || c == '?' || c == '[' || c == ']' || c == '{' || c == '}'
  {
    var ends := ",?[]{}";
    assert ends[0] == ',' && ends[1] == '?' && ends[2] == '[' && ends[3] == ']' && ends[4] == '{' && ends[5] == '}';
  }

  // ----- Gaps -----

  lemma {:induction false} BlanksRead(t: string, p: nat, col: nat, acc: string, pd: Pending, w: Where, blanks: string, more: string)
    requires Q.Stands(t, p, blanks + more) && AllBlank(blanks)
    ensures p + |blanks| <= |t|
    ensures PlainBlank(t, p, col, acc, pd, w)
         == if pd.leading && Tabbed(PlaceOf(w), blanks, col) then Failed(TabInIndentation)
            else PlainBlank(t, p + |blanks|, col + |blanks|, acc, Q.AfterBlanks(pd, blanks), w)
    decreases |blanks|
  {
    hide Q.Stands, IsBreak, AllBlank, Tabbed;
    Q.StandsAt(t, p, blanks, more);
    if blanks == "" {
      assert pd.whitespaces + "" == pd.whitespaces;
      NoTab(PlaceOf(w), col);
    } else {
      Q.FirstBlank(blanks);
      assert At(t, p + 0) == blanks[0];
      assert blanks == blanks[..1] + blanks[1..] && blanks + more == blanks[..1] + (blanks[1..] + more);
      Q.StandsAt(t, p, blanks[..1], blanks[1..] + more);
      BlanksRead(t, p + 1, col + 1, acc, AddBlank(pd, blanks[0]), w, blanks[1..], more);
      TabFirst(PlaceOf(w), blanks, col);
      assert pd.whitespaces + [blanks[0]] + blanks[1..] == pd.whitespaces + blanks;
    }
  }

  lemma NoTab(w: Place, col: nat)
    ensures !Tabbed(w, "", col)
  {
  }

  lemma TabFirst(w: Place, blanks: string, col: nat)
    requires blanks != ""
    ensures Tabbed(w, blanks, col) <==> (blanks[0] == '\t' && col < w.least) || Tabbed(w, blanks[1..], col + 1)
  {
    var rest := blanks[1..];
    assert forall k :: 0 <= k < |rest| ==> rest[k] == blanks[k + 1];
    if Tabbed(w, blanks, col) {
      var k :| 0 <= k < |blanks| && blanks[k] == '\t' && col + k < w.least;
      if k > 0 { assert rest[k - 1] == '\t'; }
    }
    if Tabbed(w, rest, col + 1) {
      var k :| 0 <= k < |rest| && rest[k] == '\t' && col + 1 + k < w.least;
      assert blanks[k + 1] == '\t';
    }
  }

  lemma TakesBreak(t: string, p: nat, col: nat, acc: string, pd: Pending, w: Where)
    requires p < |t| && IsBreak(At(t, p)) && !IsBlank(At(t, p))
    ensures p + BreakWidth(t, p) <= |t|
    ensures PlainBlank(t, p, col, acc, pd, w) == PlainBlank(t, p + BreakWidth(t, p), 0, acc, AddBreak(pd, BreakValue(t, p)), w)
  {
  }

  lemma {:induction false} LinesRead(t: string, p: nat, col: nat, acc: string, pd: Pending, w: Where, lines: seq<Line>, more: string)
    requires Q.Stands(t, p, LinesText(lines) + more) && AreLines(lines) && At(more, 0) != '\n'
    ensures p + |LinesText(lines)| <= |t|
    ensures var to := if lines == [] then col else |lines[|lines| - 1].blanks|;
      PlainBlank(t, p, col, acc, pd, w)
      == if TabbedLines(PlaceOf(w), lines) then Failed(TabInIndentation)
         else PlainBlank(t, p + |LinesText(lines)|, to, acc, Q.AfterLines(pd, lines), w)
    decreases |lines|
  {
    hide Q.Stands, PlainBlank, IsBlank, IsBreak, BreakWidth, BreakValue, BreakText, BreakMeaning, AllBlank, Tabbed, TabbedLines, PlaceOf;
    if lines == [] {
      Q.StandsAt(t, p, "", more);
      assert "" + more == more;
      NoTabs(PlaceOf(w));
    } else {
      var x, rest := lines[0], lines[1..];
      var tail := LinesText(rest) + more;
      Q.LinesFirst(rest, more);
      assert LinesText(lines) + more == BreakText(x.ends) + (x.blanks + tail);
      Q.FirstOf(x, tail);
      Q.BreakReads(t, p, x.ends, x.blanks + tail);
      TakesBreak(t, p, col, acc, pd, w);
      var q, pd' := p + |BreakText(x.ends)|, AddBreak(pd, BreakMeaning(x.ends));
      BlanksRead(t, q, 0, acc, pd', w, x.blanks, tail);
      Q.StandsAt(t, q, x.blanks, tail);
      LinesRead(t, q + |x.blanks|, |x.blanks|, acc, pd', w, rest, more);
      TabsFirst(PlaceOf(w), lines);
      assert |LinesText(lines)| == |BreakText(x.ends)| + |x.blanks| + |LinesText(rest)|;
      assert rest != [] ==> lines[|lines| - 1] == rest[|rest| - 1];
    }
  }

  lemma NoTabs(w: Place)
    ensures !TabbedLines(w, [])
  {
  }

  lemma TabsFirst(w: Place, lines: seq<Line>)
    requires lines != []
    ensures TabbedLines(w, lines) <==> Tabbed(w, lines[0].blanks, 0) || TabbedLines(w, lines[1..])
  {
    hide Tabbed;
    var rest := lines[1..];
    assert forall k :: 0 <= k < |rest| ==> rest[k] == lines[k + 1];
    if TabbedLines(w, lines) {
      var i :| 0 <= i < |lines| && Tabbed(w, lines[i].blanks, 0);
      if i > 0 { assert Tabbed(w, rest[i - 1].blanks, 0); }
    }
    if TabbedLines(w, rest) {
      var i :| 0 <= i < |rest| && Tabbed(w, rest[i].blanks, 0);
      assert Tabbed(w, lines[i + 1].blanks, 0);
    }
  }

  /** What is pending behind a gap. */
  function Gathered(x: Piece): Pending {
    if x.Broken? then Q.AfterLines(NOTHING.(whitespaces := x.blanks), x.lines)
    else if x.Blanks? then NOTHING.(whitespaces := x.blanks) else NOTHING
  }

  predicate HasTab(w: Place, x: Piece) { x.Broken? && TabbedLines(w, x.lines) }

  lemma GathersMeaning(x: Piece)
    requires IsGap(x) && IsQuotedPiece(true, x)
    ensures Fold(Gathered(x)) == PieceMeaning(x)
  {
    if x.Broken? { Q.FoldsLines(x.blanks, x.lines); } else { Q.FoldsBlanks(x.blanks); }
  }

  lemma GapReads(t: string, p: nat, col: nat, acc: string, w: Where, x: Piece, more: string)
    requires Q.Stands(t, p, PieceText(x) + more) && IsGap(x) && IsQuotedPiece(true, x) && Q.BehindGap(more)
    ensures p + |PieceText(x)| <= |t|
    ensures PlainBlank(t, p, col, acc, NOTHING, w)
         == if HasTab(PlaceOf(w), x) then Failed(TabInIndentation)
            else PlainBlank(t, p + |PieceText(x)|, PieceColumn(col, x), acc, Gathered(x), w)
  {
    hide Q.Stands, PlainBlank, Q.BehindGap, AllBlank, AreLines, Q.AfterLines, LinesText, TabbedLines, PlaceOf;
    if x.Blanks? {
      assert "" + x.blanks == x.blanks;
      BlanksRead(t, p, col, acc, NOTHING, w, x.blanks, more);
    } else {
      assert PieceText(x) + more == x.blanks + (LinesText(x.lines) + more);
      BrokenReads(t, p, col, acc, w, x.blanks, x.lines, more);
    }
  }

  lemma BrokenReads(t: string, p: nat, col: nat, acc: string, w: Where, blanks: string, lines: seq<Line>, more: string)
    requires Q.Stands(t, p, blanks + (LinesText(lines) + more)) && AllBlank(blanks) && lines != [] && AreLines(lines) && Q.BehindGap(more)
    ensures p + |blanks| + |LinesText(lines)| <= |t|
    ensures PlainBlank(t, p, col, acc, NOTHING, w)
         == if TabbedLines(PlaceOf(w), lines) then Failed(TabInIndentation)
            else PlainBlank(t, p + |blanks| + |LinesText(lines)|, |lines[|lines| - 1].blanks|, acc, Q.AfterLines(NOTHING.(whitespaces := blanks), lines), w)
  {
    hide Q.Stands, PlainBlank, Q.BehindGap, AllBlank, AreLines, Q.AfterLines, LinesText, Tabbed, TabbedLines, PlaceOf;
    var pd, tail := NOTHING.(whitespaces := blanks), LinesText(lines) + more;
    assert "" + blanks == blanks;
    Q.StandsAt(t, p, blanks, tail);
    BlanksRead(t, p, col, acc, NOTHING, w, blanks, tail);
    Q.EndsHere(more);
    LinesRead(t, p + |blanks|, col + |blanks|, acc, pd, w, lines, more);
  }

  /** Behind a gap the scalar ends or goes on. */
  lemma GoesOn(t: string, p: nat, col: nat, acc: string, pd: Pending, w: Where, more: string)
    requires Q.Stands(t, p, more) && Q.BehindGap(more)
    ensures PlainBlank(t, p, col, acc, pd, w)
         == if EndsBehindGap(PlaceOf(w), col, more) then Scanned(acc, p, col) else PlainNonBlank(t, p, col, acc, pd, w)
  {
    Q.MarkerAgrees(t, p, more);
    EndsAgree(t, p, more, w);
    Q.NextAt(t, p, more);
    assert At(t, p + 0) == At(more, 0);
    if !(w.flowLevel == 0 && col < w.minColumn) {
      assert PlainBlank(t, p, col, acc, pd, w) == PlainOuter(t, p, col, acc, pd, w);
      if !((col == 0 && DocumentMarkerAt(t, p)) || At(t, p) == '#') {
        assert PlainOuter(t, p, col, acc, pd, w) == PlainNonBlank(t, p, col, acc, pd, w);
      }
    }
  }

  lemma GapOrEnd(t: string, p: nat, col: nat, acc: string, w: Where, x: Piece, more: string)
    requires Q.Stands(t, p, PieceText(x) + more) && IsGap(x) && IsQuotedPiece(true, x) && Q.BehindGap(more)
    ensures p + |PieceText(x)| <= |t|
    ensures PlainNonBlank(t, p, col, acc, NOTHING, w)
         == if HasTab(PlaceOf(w), x) then Failed(TabInIndentation)
            else if EndsBehindGap(PlaceOf(w), PieceColumn(col, x), more) then Scanned(acc, p + |PieceText(x)|, PieceColumn(col, x))
            else PlainNonBlank(t, p + |PieceText(x)|, PieceColumn(col, x), acc, Gathered(x), w)
  {
    hide Q.Stands, PlainBlank, PlainNonBlank, IsBlank, IsBreak, IsBlankz, Q.BehindGap, PieceText, PieceColumn, Gathered, HasTab, EndsBehindGap, PlaceOf, IsQuotedPiece;
    Q.StandsAt(t, p, PieceText(x), more);
    GapOpens(t, p, x, more);
    EntersBlanks(t, p, col, acc, w);
    GapReads(t, p, col, acc, w, x, more);
    GoesOn(t, p + |PieceText(x)|, PieceColumn(col, x), acc, Gathered(x), w, more);
  }

  lemma GapOpens(t: string, p: nat, x: Piece, more: string)
    requires Q.Stands(t, p, PieceText(x) + more) && IsGap(x) && IsQuotedPiece(true, x)
    ensures p < |t| && (IsBlank(At(t, p)) || IsBreak(At(t, p)))
  {
    hide Q.Stands, PieceText, IsGap, IsQuotedPiece;
    var text := PieceText(x) + more;
    Q.GapBegins(x, more);
    assert "" + text == text;
    Q.StandsAt(t, p, "", text);
  }

  lemma EntersBlanks(t: string, p: nat, col: nat, acc: string, w: Where)
    requires p < |t| && (IsBlank(At(t, p)) || IsBreak(At(t, p)))
    ensures PlainNonBlank(t, p, col, acc, NOTHING, w) == PlainBlank(t, p, col, acc, NOTHING, w)
  {
  }

  lemma CharacterReads(t: string, p: nat, col: nat, acc: string, pd: Pending, w: Where, c: char, more: string)
    requires Q.Stands(t, p, [c] + more) && IsText(c) && !Ends(PlaceOf(w), [c] + more)
    ensures p < |t| && PlainNonBlank(t, p, col, acc, pd, w) == PlainNonBlank(t, p + 1, col + 1, acc + Fold(pd) + [c], NOTHING, w)
  {
    EndsAgree(t, p, [c] + more, w);
    BlanksAgree(c);
    Q.NextAt(t, p, [c] + more);
    assert At(t, p + 0) == c;
  }

  // ----- Whole scalars -----

  lemma TabsIn(w: Place, ps: seq<Piece>)
    requires ps != []
    ensures HoldsTab(w, ps) <==> HasTab(w, ps[0]) || HoldsTab(w, ps[1..])
  {
    hide TabbedLines;
    var rest := ps[1..];
    assert forall k :: 0 <= k < |rest| ==> rest[k] == ps[k + 1];
    if HoldsTab(w, ps) {
      var i :| 0 <= i < |ps| && ps[i].Broken? && TabbedLines(w, ps[i].lines);
      if i > 0 { assert rest[i - 1].Broken? && TabbedLines(w, rest[i - 1].lines); }
    }
    if HoldsTab(w, rest) {
      var i :| 0 <= i < |rest| && rest[i].Broken? && TabbedLines(w, rest[i].lines);
      assert ps[i + 1].Broken? && TabbedLines(w, ps[i + 1].lines);
    }
  }

  lemma BehindGapIsText(w: Place, col: nat, ps: seq<Piece>, tail: string)
    requires ps != [] && !IsGap(ps[0]) && IsPlain(w, col, ps, tail)
    ensures Q.BehindGap(Text(ps) + tail)
  {
    BlanksAgree(ps[0].c);
    Q.TextUnfolds(ps, tail);
  }

  lemma {:induction false} PiecesRead(t: string, p: nat, col: nat, acc: string, pd: Pending, w: Where, ps: seq<Piece>, tail: string)
    requires Q.Stands(t, p, Text(ps) + tail) && IsPlain(PlaceOf(w), col, ps, tail)
    requires ps == [] || IsGap(ps[0]) ==> pd == NOTHING
    ensures p + |Text(ps)| <= |t| && Q.Stands(t, p + |Text(ps)|, tail)
    ensures PlainNonBlank(t, p, col, acc, pd, w)
         == if HoldsTab(PlaceOf(w), ps) then Failed(TabInIndentation)
            else PlainNonBlank(t, p + |Text(ps)|, Column(col, ps), acc + Fold(pd) + Meaning(ps), NOTHING, w)
    decreases |ps|
  {
    hide Q.Stands, PlainNonBlank, Ends, EndsBehindGap, PlaceOf, IsQuotedPiece, Fold, HoldsTab, HasTab, PieceColumn, PieceText, PieceMeaning, Gathered, IsPlainPiece;
    hide Text, Meaning, Column, IsPlain;
    Unfolds(PlaceOf(w), col, ps, tail);
    if ps == [] {
      NothingFolds();
      assert acc + "" + "" == acc && "" + tail == tail;
      Q.StandsAt(t, p, "", tail);
      assert !HoldsTab(PlaceOf(w), ps) by { NoPieceHasTab(PlaceOf(w)); }
    } else {
      var x, rest := ps[0], ps[1..];
      var q, col' := p + |PieceText(x)|, PieceColumn(col, x);
      Q.TextUnfolds(ps, tail);
      TabsIn(PlaceOf(w), ps);
      Q.StandsAt(t, p, PieceText(x), Text(rest) + tail);
      NothingFolds();
      if IsGap(x) {
        BehindGapIsText(PlaceOf(w), col', rest, tail);
        GapOrEnd(t, p, col, acc, w, x, Text(rest) + tail);
        PiecesRead(t, q, col', acc, Gathered(x), w, rest, tail);
        GathersMeaning(x);
        Joins(acc, "", PieceMeaning(x), Meaning(rest));
      } else {
        RawPiece(PlaceOf(w), x, col);
        CharacterReads(t, p, col, acc, pd, w, x.c, Text(rest) + tail);
        PiecesRead(t, q, col', acc + Fold(pd) + [x.c], NOTHING, w, rest, tail);
        Joins(acc, Fold(pd), [x.c], Meaning(rest));
      }
    }
  }

  lemma Joins(acc: string, a: string, b: string, c: string)
    ensures acc + a + b + "" + c == acc + a + (b + c) && (a == "" ==> acc + b + c == acc + a + (b + c))
  {
  }

  lemma Unfolds(w: Place, col: nat, ps: seq<Piece>, tail: string)
    requires IsPlain(w, col, ps, tail)
    ensures ps == [] ==> Text(ps) == "" && Meaning(ps) == "" && Column(col, ps) == col
    ensures ps != [] ==>
      && IsPlainPiece(ps[0]) && IsPlain(w, PieceColumn(col, ps[0]), ps[1..], tail)
      && Meaning(ps) == PieceMeaning(ps[0]) + Meaning(ps[1..]) && Column(col, ps) == Column(PieceColumn(col, ps[0]), ps[1..])
      && if IsGap(ps[0]) then IsQuotedPiece(true, ps[0]) && ps[1..] != [] && !IsGap(ps[1]) && !EndsBehindGap(w, PieceColumn(col, ps[0]), Text(ps[1..]) + tail)
         else !Ends(w, [ps[0].c] + (Text(ps[1..]) + tail)) && PieceText(ps[0]) == [ps[0].c] == PieceMeaning(ps[0])
  {
  }

  lemma NothingFolds()
    ensures Fold(NOTHING) == ""
  {
  }

  lemma NoPieceHasTab(w: Place)
    ensures !HoldsTab(w, [])
  {
  }

  lemma RawPiece(w: Place, x: Piece, col: nat)
    requires IsPlainPiece(x) && !IsGap(x)
    ensures x.Raw? && IsText(x.c) && PieceColumn(col, x) == col + 1 && !HasTab(w, x)
  {
  }

  /** What stands behind the pieces: the end of the scalar, perhaps behind a gap. */
  predicate IsEnd(w: Place, col: nat, gap: seq<Piece>, tail: string) {
    if gap == [] then Ends(w, tail)
    else |gap| == 1 && IsGap(gap[0]) && IsQuotedPiece(true, gap[0]) && Q.BehindGap(tail) && EndsBehindGap(w, PieceColumn(col, gap[0]), tail)
  }

  /** How a text begins: the pieces of a plain scalar, and what ends it. */
  lemma {:induction false} Spelled(w: Place, col: nat, s: string) returns (ps: seq<Piece>, gap: seq<Piece>, tail: string)
    ensures s == Text(ps) + (Text(gap) + tail) && IsPlain(w, col, ps, Text(gap) + tail) && IsEnd(w, Column(col, ps), gap, tail)
    ensures !Ends(w, s) && Q.BehindGap(s) ==> ps != [] && !IsGap(ps[0])
    decreases |s|
  {
    hide Ends, EndsBehindGap, PieceColumn, PieceText, IsQuotedPiece, Text, Q.BehindGap, IsPlain, IsEnd, Column;
    if Ends(w, s) {
      ps, gap, tail := [], [], s;
      NothingSpelled(w, col, gap, s);
    } else {
      var x, more := Leading(w, s);
      var col' := PieceColumn(col, x);
      if IsGap(x) && EndsBehindGap(w, col', more) {
        ps, gap, tail := [], [x], more;
        NothingSpelled(w, col, gap, more);
        TextOfOne(x);
      } else {
        ps, gap, tail := Spelled(w, col', more);
        if IsGap(x) { GoesOnText(w, col', more); }
        Q.TextPrepended(x, ps, Text(gap) + tail);
        PlainPrepended(w, col, x, ps, Text(gap) + tail);
        ps := [x] + ps;
      }
    }
  }

  lemma NothingSpelled(w: Place, col: nat, gap: seq<Piece>, tail: string)
    ensures IsPlain(w, col, [], Text(gap) + tail) && Column(col, []) == col
    ensures forall s: string :: Text([]) + s == s
    ensures gap == [] && Ends(w, tail) ==> IsEnd(w, col, gap, tail)
    ensures |gap| == 1 && IsGap(gap[0]) && IsQuotedPiece(true, gap[0]) && Q.BehindGap(tail) && EndsBehindGap(w, PieceColumn(col, gap[0]), tail)
      ==> IsEnd(w, col, gap, tail)
  {
    forall s: string ensures Text([]) + s == s { }
  }

  lemma TextOfOne(x: Piece)
    ensures Text([x]) == PieceText(x)
  {
    assert [x][1..] == [];
    assert PieceText(x) + "" == PieceText(x);
  }

  lemma GoesOnText(w: Place, col: nat, more: string)
    requires !EndsBehindGap(w, col, more)
    ensures !Ends(w, more)
  {
  }

  /** A character, or a gap. */
  lemma Leading(w: Place, s: string) returns (x: Piece, more: string)
    requires !Ends(w, s)
    ensures s == PieceText(x) + more && |more| < |s| && IsPlainPiece(x)
    ensures if IsGap(x) then IsQuotedPiece(true, x) && Q.BehindGap(more) && !Q.BehindGap(s) else x.Raw? && s == [x.c] + more
  {
    BlanksAgree(s[0]);
    if Q.BehindGap(s) {
      x, more := Raw(s[0]), s[1..];
    } else {
      x, more := Q.LeadingGap(true, s);
      assert |s| == |PieceText(x)| + |more|;
    }
  }

  lemma PlainPrepended(w: Place, col: nat, x: Piece, ps: seq<Piece>, tail: string)
    requires IsPlainPiece(x) && IsPlain(w, PieceColumn(col, x), ps, tail)
    requires if IsGap(x) then ps != [] && !IsGap(ps[0]) && !EndsBehindGap(w, PieceColumn(col, x), Text(ps) + tail)
             else !Ends(w, [x.c] + (Text(ps) + tail))
    ensures IsPlain(w, col, [x] + ps, tail) && Column(col, [x] + ps) == Column(PieceColumn(col, x), ps)
  {
    assert ([x] + ps)[1..] == ps;
  }

  /** Every plain scalar that is spelled right is read as what it means, up to what ends it; a tab in the indentation
      of a line of it, or of the gap behind it, is an error instead. */
  lemma EveryPlainSpellingIsRead(t: string, p: nat, col: nat, w: Where, ps: seq<Piece>, gap: seq<Piece>, tail: string)
    requires p <= |t| && At(t, p) != '#' && !(col == 0 && IsMarker(t[p..])) && t[p..] == Text(ps) + (Text(gap) + tail)
    requires IsPlain(PlaceOf(w), col, ps, Text(gap) + tail) && IsEnd(PlaceOf(w), Column(col, ps), gap, tail)
    ensures PlainScalar(t, p, col, w)
         == if HoldsTab(PlaceOf(w), ps + gap) then Failed(TabInIndentation)
            else Scanned(Meaning(ps), p + |Text(ps)| + |Text(gap)|, Column(Column(col, ps), gap))
  {
    hide PlainOuter, PlainNonBlank, IsPlain, HoldsTab, Ends, EndsBehindGap, IsMarker, Text, Meaning, Column, PlaceOf, IsQuotedPiece, PieceColumn;
    Q.MarkerAgrees(t, p, t[p..]);
    OpensPlain(t, p, col, w);
    var q, end := p + |Text(ps)|, Column(col, ps);
    PiecesRead(t, p, col, "", NOTHING, w, ps, Text(gap) + tail);
    NothingFolds();
    assert "" + "" + Meaning(ps) == Meaning(ps);
    TabsConcat(PlaceOf(w), ps, gap);
    if gap == [] {
      EndRead(t, q, end, Meaning(ps), w, tail);
      assert ps + gap == ps;
    } else {
      LastGap(gap[0], end, PlaceOf(w));
      assert gap == [gap[0]];
      GapOrEnd(t, q, end, Meaning(ps), w, gap[0], tail);
    }
  }

  /** And every text that may begin a plain scalar is spelled so: the scanner does nothing else. */
  lemma PlainScanIs(t: string, p: nat, col: nat, w: Where) returns (ps: seq<Piece>, gap: seq<Piece>, tail: string)
    requires p <= |t| && At(t, p) != '#' && !(col == 0 && IsMarker(t[p..]))
    ensures t[p..] == Text(ps) + (Text(gap) + tail)
    ensures IsPlain(PlaceOf(w), col, ps, Text(gap) + tail) && IsEnd(PlaceOf(w), Column(col, ps), gap, tail)
    ensures PlainScalar(t, p, col, w)
         == if HoldsTab(PlaceOf(w), ps + gap) then Failed(TabInIndentation)
            else Scanned(Meaning(ps), p + |Text(ps)| + |Text(gap)|, Column(Column(col, ps), gap))
  {
    ps, gap, tail := Spelled(PlaceOf(w), col, t[p..]);
    EveryPlainSpellingIsRead(t, p, col, w, ps, gap, tail);
  }

  lemma OpensPlain(t: string, p: nat, col: nat, w: Where)
    requires p <= |t| && At(t, p) != '#' && !(col == 0 && DocumentMarkerAt(t, p))
    ensures PlainScalar(t, p, col, w) == PlainNonBlank(t, p, col, "", NOTHING, w)
  {
  }

  lemma EndRead(t: string, p: nat, col: nat, acc: string, w: Where, tail: string)
    requires Q.Stands(t, p, Text([]) + tail) && Ends(PlaceOf(w), tail)
    ensures PlainNonBlank(t, p, col, acc, NOTHING, w) == Scanned(acc, p, col) && |Text([])| == 0 && Column(col, []) == col
  {
    assert Text([]) + tail == tail;
    EndsAgree(t, p, tail, w);
  }

  lemma LastGap(x: Piece, col: nat, w: Place)
    ensures Text([x]) == PieceText(x) && Column(col, [x]) == PieceColumn(col, x) && (HoldsTab(w, [x]) <==> HasTab(w, x))
  {
    TextOfOne(x);
    assert [x][1..] == [];
    assert [x][0] == x;
  }

  lemma {:induction false} TabsConcat(w: Place, a: seq<Piece>, b: seq<Piece>)
    ensures HoldsTab(w, a + b) <==> HoldsTab(w, a) || HoldsTab(w, b)
  {
    if a == [] {
      assert a + b == b;
    } else {
      TabsIn(w, a);
      TabsIn(w, a + b);
      assert (a + b)[1..] == a[1..] + b;
      TabsConcat(w, a[1..], b);
    }
  }

  // ----- Where a plain scalar begins -----

  /** The characters that begin no plain scalar. */
  const RESERVED := ",[]{}#&*!|>'\"%@`"

  /** Exactly where a plain scalar begins: at a character that is not reserved and no `-`, `?` or `:` standing alone,
      the last two in block context; and not at a document marker. */
  lemma BeginsPlainExactlyWhen(t: string, p: nat, col: nat, flowLevel: nat)
    requires p <= |t|
    ensures Dispatch(t, p, col, flowLevel) == PlainStart <==>
      && IsText(At(t, p)) && !Among(At(t, p), RESERVED)
      && (Among(At(t, p), "-") ==> IsText(At(t, p + 1)))
      && (Among(At(t, p), "?:") ==> flowLevel == 0 && IsText(At(t, p + 1)))
      && !(col == 0 && IsMarker(t[p..]))
  {
    Q.MarkerAgrees(t, p, t[p..]);
    BlanksAgree(At(t, p));
    BlanksAgree(At(t, p + 1));
    ReservedAgree(At(t, p));
    var d, q := "-", "?:";
    assert d[0] == '-' && q[0] == '?' && q[1] == ':';
  }

  lemma ReservedAgree(c: char)
    ensures Among(c, RESERVED) <==> IsIndicator(c) && c != '-' && c != '?' && c != ':'
  {
    var r := RESERVED;
    assert r[0] == ',' && r[1] == '[' && r[2] == ']' && r[3] == '{' && r[4] == '}' && r[5] == '#' && r[6] == '&' && r[7] == '*' && r[8] == '!';
    assert r[9] == '|' && r[10] == '>' && r[11] == '\'' && r[12] == '"' && r[13] == '%' && r[14] == '@' && r[15] == '`';
  }
}
