/** Plain scalars: the analysis is sound. A value it allows is dispatched to the plain scanner and
    read back in full, folded or not; `PlainEnds` is the exact condition on what follows. */
module PlainScalars {
  import opened Chars
  import opened ScalarEmitter
  import opened ScalarScanner
  import opened TextReading

  /** What the analysis promises of a value it lets through in a context. */
  ghost predicate PlainAllowed(v: string, unicode: bool, flowLevel: nat) {
    && v != "" && SingleTrimmedLine(v) && Quotable(v, unicode)
    && (if flowLevel == 0 then NoBlockIndicator(v) else NoFlowIndicator(v))
  }

  lemma {:induction false} PlainTextGrows(cfg: Config, v: string, ab: bool, i: nat, s: Sink, spaces: bool, breaks: bool)
    ensures s.out <= PlainText(cfg, v, ab, i, s, spaces, breaks).out
    decreases |v| - i
  {
    hide WriteIndent;
    if i < |v| {
      WriteIndentGrows(cfg, s);
      if v[i] == ' ' {
        if ab && !spaces && s.column > cfg.bestWidth && At(v, i + 1) != ' ' {
          PlainTextGrows(cfg, v, ab, i + 1, WriteIndent(cfg, s), true, breaks);
        } else {
          PlainTextGrows(cfg, v, ab, i + 1, Put(s, [v[i]]), true, breaks);
        }
      } else if IsBreak(v[i]) {
        var s1 := if !breaks && v[i] == '\n' then PutBreak(cfg, s) else s;
        PlainTextGrows(cfg, v, ab, i + 1, WriteBreak(cfg, s1, v[i]), spaces, true);
      } else {
        var s1 := if breaks then WriteIndent(cfg, s) else s;
        PlainTextGrows(cfg, v, ab, i + 1, Put(s1, [v[i]]).(indention := false), false, false);
      }
    }
  }

  // ----- One unit of text -----

  datatype Between = Between(i: nat, s: Sink, spaces: bool, acc: string, pd: Pending)

  const FOLDED := Pending("", "\n", "", true)

  /** The scanner between two units: in the blank loop behind copied spaces, else in the
      non-blank loop. */
  function PlainAt(t: string, x: Between, w: Where): Scan
    requires |x.s.out| <= |t|
  {
    if OnlySpaces(x.pd) && x.pd != NOTHING then PlainBlank(t, |x.s.out|, x.s.column, x.acc, x.pd, w)
    else PlainNonBlank(t, |x.s.out|, x.s.column, x.acc, x.pd, w)
  }

  predicate PlainInv(cfg: Config, v: string, x: Between, w: Where) {
    && x.i <= |v| && cfg.indent > 0 && x.s.footIndent == -1
    && (x.i > 0 ==> x.s.column > 0 && (!x.spaces ==> !x.s.indention))
    && (w.flowLevel == 0 ==> x.s.column + (if x.i == 0 then 1 else 0) >= w.minColumn && cfg.indent >= w.minColumn)
    && (x.spaces ==> 0 < x.i && v[x.i - 1] == ' ')
    && (x.pd == NOTHING || (x.spaces && OnlySpaces(x.pd)) || (x.pd == FOLDED && x.spaces && x.i < |v| && v[x.i] != ' '))
    && x.acc + Fold(x.pd) == v[..x.i]
  }

  function TextOf(cfg: Config, v: string, ab: bool, x: Between): Sink {
    PlainText(cfg, v, ab, x.i, x.s, x.spaces, false)
  }

  predicate StepOk(cfg: Config, v: string, ab: bool, t: string, x: Between, y: Between, w: Where) {
    && x.i < y.i && PlainInv(cfg, v, y, w)
    && TextOf(cfg, v, ab, y) == TextOf(cfg, v, ab, x)
    && |x.s.out| <= |t| && |y.s.out| <= |t|
    && PlainAt(t, x, w) == PlainAt(t, y, w)
  }

  lemma StepSpace(cfg: Config, v: string, ab: bool, t: string, x: Between, w: Where) returns (y: Between)
    requires x.i < |v| && PlainInv(cfg, v, x, w) && v[x.i] == ' '
    requires !(ab && !x.spaces && x.s.column > cfg.bestWidth && At(v, x.i + 1) != ' ')
    requires Through(TextOf(cfg, v, ab, x), t)
    ensures StepOk(cfg, v, ab, t, x, y, w)
  {
    var i := x.i;
    var s1 := Put(x.s, [v[i]]);
    PlainTextGrows(cfg, v, ab, i + 1, s1, true, false);
    ThroughEarlier(s1, TextOf(cfg, v, ab, x), t);
    ReadsPut(x.s, [v[i]], t);
    assert At(t, |x.s.out| + 0) == ' ';
    ReadsSpaceInPlain(t, x, w);
    assert x.acc + (x.pd.whitespaces + [' ']) == (x.acc + x.pd.whitespaces) + [v[i]] == v[..i + 1];
    hide PlainNonBlank, PlainBlank, PlainOuter, WriteIndent;
    y := Between(i + 1, s1, true, x.acc, AddBlank(x.pd, ' '));
  }

  lemma ReadsSpaceInPlain(t: string, x: Between, w: Where)
    requires |x.s.out| < |t| && t[|x.s.out|] == ' ' && OnlySpaces(x.pd)
    ensures PlainAt(t, x, w) == PlainBlank(t, |x.s.out| + 1, x.s.column + 1, x.acc, AddBlank(x.pd, ' '), w)
  {
    if x.pd == NOTHING {
      assert PlainNonBlank(t, |x.s.out|, x.s.column, x.acc, NOTHING, w) == PlainBlank(t, |x.s.out|, x.s.column, x.acc, NOTHING, w);
    }
  }

  /** Behind blanks, an ordinary character other than `#` resumes the scalar. */
  lemma LeaveBlankInPlain(t: string, p: nat, col: nat, acc: string, pd: Pending, w: Where)
    requires p < |t| && !IsBlankz(t[p]) && t[p] != '#'
    requires col > 0 && (w.flowLevel == 0 ==> col >= w.minColumn)
    ensures PlainBlank(t, p, col, acc, pd, w) == PlainNonBlank(t, p, col, acc, pd, w)
  {
  }

  /** After a space the analysis rules out `#`; an ordinary character is not blank. */
  lemma AfterSpace(v: string, i: nat, unicode: bool, flowLevel: nat)
    requires PlainAllowed(v, unicode, flowLevel) && i < |v| && v[i] != ' '
    ensures !IsBlankz(v[i])
    ensures 0 < i && v[i - 1] == ' ' ==> v[i] != '#'
  {
    assert !TabAt(v, i) && !SpecialAt(v, i, unicode) && !BreakAt(v, i);
    assert (flowLevel == 0 ==> !BlockIndicatorAt(v, i)) && (flowLevel > 0 ==> !FlowIndicatorAt(v, i));
  }

  lemma StepFold(cfg: Config, v: string, ab: bool, t: string, x: Between, w: Where) returns (y: Between)
    requires PlainAllowed(v, cfg.unicode, w.flowLevel)
    requires x.i < |v| && PlainInv(cfg, v, x, w) && v[x.i] == ' '
    requires ab && !x.spaces && x.s.column > cfg.bestWidth && At(v, x.i + 1) != ' '
    requires Through(TextOf(cfg, v, ab, x), t)
    ensures StepOk(cfg, v, ab, t, x, y, w)
  {
    var i := x.i;
    AfterSpace(v, i + 1, cfg.unicode, w.flowLevel);
    var s1 := WriteIndent(cfg, x.s);
    WriteIndentBreaks(cfg, x.s);
    FoldedUnit(cfg, v, ab, i, x.s);
    PlainTextGrows(cfg, v, ab, i + 2, Put(s1, [v[i + 1]]).(indention := false), false, false);
    ThroughEarlier(Put(s1, [v[i + 1]]), TextOf(cfg, v, ab, x), t);
    ReadsPut(s1, [v[i + 1]], t);
    assert At(t, |s1.out| + 0) == v[i + 1];
    ReadsFoldPlain(cfg, x.s, t, x.acc, w);
    LeaveBlankInPlain(t, |s1.out|, s1.column, x.acc, FOLDED, w);
    assert x.acc + "" == x.acc;
    hide PlainNonBlank, PlainBlank, PlainOuter, WriteIndent;
    y := Between(i + 1, s1, true, x.acc, FOLDED);
  }

  lemma FoldedUnit(cfg: Config, v: string, ab: bool, i: nat, s: Sink)
    requires i < |v| - 1 && v[i] == ' ' && v[i + 1] != ' ' && !IsBreak(v[i + 1])
    requires ab && s.column > cfg.bestWidth
    ensures PlainText(cfg, v, ab, i, s, false, false)
      == PlainText(cfg, v, ab, i + 1, WriteIndent(cfg, s), true, false)
      == PlainText(cfg, v, ab, i + 2, Put(WriteIndent(cfg, s), [v[i + 1]]).(indention := false), false, false)
  {
    hide WriteIndent;
  }

  /** No character of an allowed value is read as an indicator that ends the scalar. */
  lemma NotAnEnd(v: string, i: nat, unicode: bool, t: string, p: nat, w: Where)
    requires PlainAllowed(v, unicode, w.flowLevel) && i < |v|
    requires At(t, p) == v[i] && (i + 1 < |v| && v[i + 1] != ' ' ==> At(t, p + 1) == v[i + 1])
    ensures !EndsPlainAt(t, p, w)
  {
    assert (w.flowLevel == 0 ==> !BlockIndicatorAt(v, i)) && (w.flowLevel > 0 ==> !FlowIndicatorAt(v, i));
    if v[i] == ':' {
      assert !FollowedByWhitespace(v, i);
      AfterSpace(v, i + 1, unicode, w.flowLevel);
    }
  }

  /** The character after `i`, when it is not a space, is copied right behind it. */
  lemma NextIsCopied(cfg: Config, v: string, ab: bool, i: nat, s: Sink, t: string)
    requires i + 1 < |v| && v[i] != ' ' && !IsBreak(v[i]) && v[i + 1] != ' ' && !IsBreak(v[i + 1])
    requires Through(PlainText(cfg, v, ab, i + 1, Put(s, [v[i]]).(indention := false), false, false), t)
    ensures At(t, |s.out| + 1) == v[i + 1]
  {
    var s1 := Put(s, [v[i]]).(indention := false);
    var s2 := Put(s1, [v[i + 1]]).(indention := false);
    PlainTextGrows(cfg, v, ab, i + 2, s2, false, false);
    ThroughEarlier(s2, PlainText(cfg, v, ab, i + 1, s1, false, false), t);
    ReadsPut(s1, [v[i + 1]], t);
    assert At(t, |s1.out| + 0) == v[i + 1];
  }

  lemma CopiesNext(cfg: Config, v: string, ab: bool, i: nat, s: Sink, spaces: bool)
    requires i < |v| && v[i] != ' ' && !IsBreak(v[i])
    ensures PlainText(cfg, v, ab, i, s, spaces, false) == PlainText(cfg, v, ab, i + 1, Put(s, [v[i]]).(indention := false), false, false)
  {
  }

  lemma StepCharacter(cfg: Config, v: string, ab: bool, t: string, x: Between, w: Where) returns (y: Between)
    requires PlainAllowed(v, cfg.unicode, w.flowLevel)
    requires x.i < |v| && PlainInv(cfg, v, x, w) && v[x.i] != ' '
    requires Through(TextOf(cfg, v, ab, x), t)
    ensures StepOk(cfg, v, ab, t, x, y, w)
  {
    hide PlainNonBlank, PlainBlank, PlainOuter, PlainAt, PlainText, PlainAllowed;
    CharacterCopied(cfg, v, ab, t, x, w);
    var i, s1 := x.i, Put(x.s, [v[x.i]]).(indention := false);
    CharacterRead(t, x, w);
    assert v[..i] + [v[i]] == v[..i + 1] && v[..i + 1] + "" == v[..i + 1];
    y := Between(i + 1, s1, false, v[..i + 1], NOTHING);
    assert PlainAt(t, y, w) == PlainNonBlank(t, |s1.out|, s1.column, v[..i + 1], NOTHING, w) by { NothingPending(t, y, w); }
  }

  lemma NothingPending(t: string, y: Between, w: Where)
    requires |y.s.out| <= |t| && y.pd == NOTHING
    ensures PlainAt(t, y, w) == PlainNonBlank(t, |y.s.out|, y.s.column, y.acc, NOTHING, w)
  {
    hide PlainNonBlank, PlainBlank;
  }

  /** The character stands in the text, and does not end the scalar. */
  lemma CharacterCopied(cfg: Config, v: string, ab: bool, t: string, x: Between, w: Where)
    requires PlainAllowed(v, cfg.unicode, w.flowLevel)
    requires x.i < |v| && PlainInv(cfg, v, x, w) && v[x.i] != ' '
    requires Through(TextOf(cfg, v, ab, x), t)
    ensures var s1 := Put(x.s, [v[x.i]]).(indention := false);
      && TextOf(cfg, v, ab, x) == PlainText(cfg, v, ab, x.i + 1, s1, false, false)
      && |s1.out| <= |t| && t[|x.s.out|] == v[x.i]
    ensures !IsBlankz(v[x.i]) && !EndsPlainAt(t, |x.s.out|, w) && (x.spaces ==> v[x.i] != '#')
  {
    hide PlainText, PlainAllowed, EndsPlainAt;
    var i := x.i;
    AfterSpace(v, i, cfg.unicode, w.flowLevel);
    var s1 := Put(x.s, [v[i]]).(indention := false);
    CopiesNext(cfg, v, ab, i, x.s, x.spaces);
    PlainTextGrows(cfg, v, ab, i + 1, s1, false, false);
    ThroughEarlier(s1, TextOf(cfg, v, ab, x), t);
    ReadsPut(x.s, [v[i]], t);
    assert At(t, |x.s.out| + 0) == v[i];
    if i + 1 < |v| && v[i + 1] != ' ' {
      AfterSpace(v, i + 1, cfg.unicode, w.flowLevel);
      NextIsCopied(cfg, v, ab, i, x.s, t);
    }
    NotAnEnd(v, i, cfg.unicode, t, |x.s.out|, w);
  }

  lemma CharacterRead(t: string, x: Between, w: Where)
    requires |x.s.out| < |t| && !IsBlankz(t[|x.s.out|]) && !EndsPlainAt(t, |x.s.out|, w)
    requires OnlySpaces(x.pd) && x.pd != NOTHING ==>
      t[|x.s.out|] != '#' && x.s.column > 0 && (w.flowLevel == 0 ==> x.s.column >= w.minColumn)
    ensures PlainAt(t, x, w)
      == PlainNonBlank(t, |x.s.out| + 1, x.s.column + 1, x.acc + Fold(x.pd) + [t[|x.s.out|]], NOTHING, w)
  {
    if OnlySpaces(x.pd) && x.pd != NOTHING {
      LeaveBlankInPlain(t, |x.s.out|, x.s.column, x.acc, x.pd, w);
    }
    assert PlainAt(t, x, w) == PlainNonBlank(t, |x.s.out|, x.s.column, x.acc, x.pd, w);
  }

  // ----- The whole scalar -----

  lemma {:induction false} PlainScans(cfg: Config, v: string, ab: bool, t: string, x: Between, w: Where)
    requires PlainAllowed(v, cfg.unicode, w.flowLevel) && PlainInv(cfg, v, x, w)
    requires Through(TextOf(cfg, v, ab, x), t)
    ensures |x.s.out| <= |t|
    ensures var f := TextOf(cfg, v, ab, x);
      && |f.out| <= |t|
      && PlainAt(t, x, w) == PlainNonBlank(t, |f.out|, f.column, v, NOTHING, w)
    decreases |v| - x.i
  {
    if x.i == |v| {
      assert v[..x.i] == v && x.acc + "" == x.acc;
    } else {
      var y: Between;
      hide PlainNonBlank, PlainBlank, PlainOuter, PlainAt;
      if v[x.i] == ' ' {
        if ab && !x.spaces && x.s.column > cfg.bestWidth && At(v, x.i + 1) != ' ' {
          y := StepFold(cfg, v, ab, t, x, w);
        } else {
          y := StepSpace(cfg, v, ab, t, x, w);
        }
      } else {
        y := StepCharacter(cfg, v, ab, t, x, w);
      }
      PlainScans(cfg, v, ab, t, y, w);
    }
  }

  // ----- What may follow -----

  /** Blanks and breaks, then something that ends a plain scalar. `leading` says a break was seen. */
  predicate EndsAfterBlanks(t: string, q: nat, col: nat, w: Where, leading: bool)
    requires q <= |t|
    decreases |t| - q
  {
    var c := At(t, q);
    if IsBlank(c) then
      !(leading && col < w.minColumn && c == '\t') && EndsAfterBlanks(t, q + 1, col + 1, w, leading)
    else if IsBreak(c) then EndsAfterBlanks(t, q + BreakWidth(t, q), 0, w, true)
    else
      || (w.flowLevel == 0 && col < w.minColumn)
      || (col == 0 && DocumentMarkerAt(t, q))
      || c == '#' || c == '\0' || EndsPlainAt(t, q, w)
  }

  /** A plain scalar whose last character is just before `q` ends there. */
  predicate PlainEnds(t: string, q: nat, col: nat, w: Where)
    requires q <= |t|
  {
    var c := At(t, q);
    if IsBlank(c) || IsBreak(c) then EndsAfterBlanks(t, q, col, w, false)
    else c == '\0' || EndsPlainAt(t, q, w)
  }

  predicate Reads(r: Scan, v: string) { r.Scanned? && r.value == v }

  /** Scanning never drops a character it has taken. */
  lemma {:induction false} NonBlankKeeps(t: string, p: nat, col: nat, s: string, pd: Pending, w: Where)
    requires p <= |t|
    ensures var r := PlainNonBlank(t, p, col, s, pd, w); r.Scanned? ==> s <= r.value
    decreases |t| - p, if IsBlank(At(t, p)) || IsBreak(At(t, p)) then 4 else 1
  {
    var c := At(t, p);
    if IsBlank(c) || IsBreak(c) {
      BlankKeeps(t, p, col, s, pd, w);
    } else if c != '\0' && !EndsPlainAt(t, p, w) {
      NonBlankKeeps(t, p + 1, col + 1, s + Fold(pd) + [c], NOTHING, w);
    }
  }

  lemma {:induction false} BlankKeeps(t: string, p: nat, col: nat, s: string, pd: Pending, w: Where)
    requires p <= |t|
    ensures var r := PlainBlank(t, p, col, s, pd, w); r.Scanned? ==> s <= r.value
    decreases |t| - p, 3
  {
    var c := At(t, p);
    if IsBlank(c) {
      if !(pd.leading && col < w.minColumn && c == '\t') {
        BlankKeeps(t, p + 1, col + 1, s, AddBlank(pd, c), w);
      }
    } else if IsBreak(c) {
      BlankKeeps(t, p + BreakWidth(t, p), 0, s, AddBreak(pd, BreakValue(t, p)), w);
    } else if !(w.flowLevel == 0 && col < w.minColumn) && !((col == 0 && DocumentMarkerAt(t, p)) || c == '#') {
      NonBlankKeeps(t, p, col, s, pd, w);
    }
  }

  lemma {:induction false} BlanksEnd(t: string, q: nat, col: nat, v: string, pd: Pending, w: Where)
    requires q <= |t|
    ensures Reads(PlainBlank(t, q, col, v, pd, w), v) <==> EndsAfterBlanks(t, q, col, w, pd.leading)
    decreases |t| - q
  {
    var c := At(t, q);
    if IsBlank(c) {
      if !(pd.leading && col < w.minColumn && c == '\t') {
        BlanksEnd(t, q + 1, col + 1, v, AddBlank(pd, c), w);
      }
    } else if IsBreak(c) {
      BlanksEnd(t, q + BreakWidth(t, q), 0, v, AddBreak(pd, BreakValue(t, q)), w);
    } else if !(w.flowLevel == 0 && col < w.minColumn) && !((col == 0 && DocumentMarkerAt(t, q)) || c == '#') {
      assert PlainBlank(t, q, col, v, pd, w) == PlainNonBlank(t, q, col, v, pd, w);
      if !EndsAfterBlanks(t, q, col, w, pd.leading) {
        NonBlankKeeps(t, q + 1, col + 1, v + Fold(pd) + [c], NOTHING, w);
      }
    }
  }

  lemma ScalarEnds(t: string, q: nat, col: nat, v: string, w: Where)
    requires q <= |t|
    ensures Reads(PlainNonBlank(t, q, col, v, NOTHING, w), v) <==> PlainEnds(t, q, col, w)
  {
    var c := At(t, q);
    if IsBlank(c) || IsBreak(c) {
      BlanksEnd(t, q, col, v, NOTHING, w);
    } else if c != '\0' && !EndsPlainAt(t, q, w) {
      NonBlankKeeps(t, q + 1, col + 1, v + Fold(NOTHING) + [c], NOTHING, w);
    }
  }

  // ----- Dispatch and the main theorem -----

  /** A text that starts with a document marker yields a value that does. */
  lemma MarkerIsKept(t: string, p: nat, col: nat, w: Where)
    requires p <= |t| && DocumentMarkerAt(t, p)
    ensures var r := PlainNonBlank(t, p, col, "", NOTHING, w); r.Scanned? ==> StartsLikeDocumentMarker(r.value)
  {
    var c := At(t, p);
    assert "" + Fold(NOTHING) + [c] == [c] && [c] + Fold(NOTHING) + [c] == [c, c] && [c, c] + Fold(NOTHING) + [c] == [c, c, c];
    assert PlainNonBlank(t, p, col, "", NOTHING, w) == PlainNonBlank(t, p + 1, col + 1, [c], NOTHING, w);
    assert PlainNonBlank(t, p + 1, col + 1, [c], NOTHING, w) == PlainNonBlank(t, p + 2, col + 2, [c, c], NOTHING, w);
    assert PlainNonBlank(t, p + 2, col + 2, [c, c], NOTHING, w) == PlainNonBlank(t, p + 3, col + 3, [c, c, c], NOTHING, w);
    NonBlankKeeps(t, p + 3, col + 3, [c, c, c], NOTHING, w);
  }

  lemma FirstCharacter(v: string, unicode: bool, t: string, p: nat, col: nat, w: Where)
    requires PlainAllowed(v, unicode, w.flowLevel)
    requires p < |t| && t[p] == v[0] && (|v| > 1 && v[1] != ' ' ==> At(t, p + 1) == v[1])
    requires !DocumentMarkerAt(t, p)
    ensures Dispatch(t, p, col, w.flowLevel) == PlainStart
    ensures v[0] != '#'
  {
    AfterSpace(v, 0, unicode, w.flowLevel);
    assert (w.flowLevel == 0 ==> !BlockIndicatorAt(v, 0)) && (w.flowLevel > 0 ==> !FlowIndicatorAt(v, 0));
    if v[0] == '-' || v[0] == '?' || v[0] == ':' {
      assert !FollowedByWhitespace(v, 0);
      AfterSpace(v, 1, unicode, w.flowLevel);
    }
  }

  /** Section 7.3.3 of YAML 1.2: a value whose analysis allows the plain style in a context is
      printed, folded or not, as text that is dispatched to the plain scanner there and read back
      as the same value, exactly when what follows ends a plain scalar. */
  lemma PlainRoundTrip(cfg: Config, s: Sink, v: string, ab: bool, rest: string, w: Where)
    requires cfg.indent > 0 && s.footIndent == -1
    requires PlainAllowed(v, cfg.unicode, w.flowLevel)
    requires w.flowLevel == 0 ==> Start(s).column + 1 >= w.minColumn && cfg.indent >= w.minColumn
    ensures var f := WritePlain(cfg, s, v, ab);
      var t := f.out + rest;
      && |Start(s).out| < |t|
      && (&& Dispatch(t, |Start(s).out|, Start(s).column, w.flowLevel) == PlainStart
          && Reads(PlainScalar(t, |Start(s).out|, Start(s).column, w), v)
          <==> PlainEnds(t, |f.out|, f.column, w))
  {
    var f := WritePlain(cfg, s, v, ab);
    var t := f.out + rest;
    var s0 := Start(s);
    var p := |s0.out|;
    assert v[0] != ' ';
    AfterSpace(v, 0, cfg.unicode, w.flowLevel);
    var s1 := Put(s0, [v[0]]).(indention := false);
    assert f.out == PlainText(cfg, v, ab, 0, s0, false, false).out;
    assert PlainText(cfg, v, ab, 0, s0, false, false) == PlainText(cfg, v, ab, 1, s1, false, false);
    PlainTextGrows(cfg, v, ab, 1, s1, false, false);
    ThroughEarlier(s1, f, t);
    ReadsPut(s0, [v[0]], t);
    assert At(t, p + 0) == v[0];
    if |v| > 1 && v[1] != ' ' {
      AfterSpace(v, 1, cfg.unicode, w.flowLevel);
      NextIsCopied(cfg, v, ab, 0, s0, t);
    }
    PlainScans(cfg, v, ab, t, Between(0, s0, false, "", NOTHING), w);
    ScalarEnds(t, |f.out|, f.column, v, w);
    if DocumentMarkerAt(t, p) {
      MarkerIsKept(t, p, s0.column, w);
    } else {
      FirstCharacter(v, cfg.unicode, t, p, s0.column, w);
    }
  }
}
