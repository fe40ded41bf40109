/** Single-quoted scalars: printing and scanning are inverse for every value the analysis lets
    through, line breaks, doubled quotes and folding included. */
module SingleQuotedScalars {
  import opened Chars
  import opened ScalarEmitter
  import opened ScalarScanner
  import opened TextReading

  lemma {:induction false} SingleTextGrows(cfg: Config, v: string, ab: bool, i: nat, s: Sink, spaces: bool, breaks: bool)
    ensures s.out <= SingleText(cfg, v, ab, i, s, spaces, breaks).out
    decreases |v| - i
  {
    hide WriteIndent;
    if i < |v| {
      if v[i] == ' ' {
        WriteIndentGrows(cfg, s);
        if ab && !spaces && s.column > cfg.bestWidth && 0 < i < |v| - 1 && At(v, i + 1) != ' ' {
          SingleTextGrows(cfg, v, ab, i + 1, WriteIndent(cfg, s), true, breaks);
        } else {
          SingleTextGrows(cfg, v, ab, i + 1, Put(s, [v[i]]), true, breaks);
        }
      } else if IsBreak(v[i]) {
        var s1 := if !breaks && v[i] == '\n' then PutBreak(cfg, s) else s;
        SingleTextGrows(cfg, v, ab, i + 1, WriteBreak(cfg, s1, v[i]), spaces, true);
      } else {
        WriteIndentGrows(cfg, s);
        var s1 := if breaks then WriteIndent(cfg, s) else s;
        var s2 := if v[i] == '\'' then Put(s1, "'") else s1;
        SingleTextGrows(cfg, v, ab, i + 1, Put(s2, [v[i]]).(indention := false), false, false);
      }
    }
  }

  /** With CR breaks the text holds no LF, so two breaks never merge into one CR LF. */
  predicate NoLineFeedFrom(t: string, p: nat) { forall k :: p <= k < |t| ==> t[k] != '\n' }

  lemma {:induction false} PadAddsNoLineFeed(s: Sink, n: nat, p: nat)
    requires NoLineFeedFrom(s.out, p)
    ensures NoLineFeedFrom(Pad(s, n).out, p)
    decreases n - s.column
  {
    if s.column < n {
      PadAddsNoLineFeed(Put(s, " "), n, p);
    }
  }

  lemma WriteIndentAddsNoLineFeed(cfg: Config, s: Sink, p: nat)
    requires cfg.lineBreak.CR? && NoLineFeedFrom(s.out, p)
    ensures NoLineFeedFrom(WriteIndent(cfg, s).out, p)
  {
    var n := IndentOf(cfg);
    var s1 := if !s.indention || s.column > n || (s.column == n && !s.whitespace) then PutBreak(cfg, s) else s;
    var s2 := if s1.footIndent == n then PutBreak(cfg, s1) else s1;
    PadAddsNoLineFeed(s2, n, p);
  }

  lemma {:induction false} SingleTextNoLineFeed(cfg: Config, v: string, ab: bool, i: nat, s: Sink, spaces: bool, breaks: bool, p: nat)
    requires cfg.lineBreak.CR? && NoLineFeedFrom(s.out, p)
    ensures NoLineFeedFrom(SingleText(cfg, v, ab, i, s, spaces, breaks).out, p)
    decreases |v| - i
  {
    hide WriteIndent;
    if i < |v| {
      WriteIndentAddsNoLineFeed(cfg, s, p);
      if v[i] == ' ' {
        if ab && !spaces && s.column > cfg.bestWidth && 0 < i < |v| - 1 && At(v, i + 1) != ' ' {
          SingleTextNoLineFeed(cfg, v, ab, i + 1, WriteIndent(cfg, s), true, breaks, p);
        } else {
          SingleTextNoLineFeed(cfg, v, ab, i + 1, Put(s, [v[i]]), true, breaks, p);
        }
      } else if IsBreak(v[i]) {
        var s1 := if !breaks && v[i] == '\n' then PutBreak(cfg, s) else s;
        SingleTextNoLineFeed(cfg, v, ab, i + 1, WriteBreak(cfg, s1, v[i]), spaces, true, p);
      } else {
        var s1 := if breaks then WriteIndent(cfg, s) else s;
        var s2 := if v[i] == '\'' then Put(s1, "'") else s1;
        SingleTextNoLineFeed(cfg, v, ab, i + 1, Put(s2, [v[i]]).(indention := false), false, false, p);
      }
    }
  }

  // ----- One unit of text -----

  /** Writer and scanner between two units. `acc` with what is pending is the value printed so far;
      while `breaks` holds, the scanner is inside a run of line breaks. */
  datatype Between = Between(i: nat, s: Sink, spaces: bool, breaks: bool, acc: string, pd: Pending)

  predicate InBreaks(v: string, x: Between)
    requires x.i <= |v|
  {
    && x.s.column == 0 && x.s.indention
    && 0 < x.i && IsBreak(v[x.i - 1])
    && x.pd.leading && x.pd.whitespaces == ""
    && x.pd.leadingBreak != "" && (x.pd.leadingBreak[0] == '\n' ==> x.pd.trailingBreaks != "")
    && x.acc + Fold(x.pd) == v[..x.i]
  }

  predicate OnLine(v: string, x: Between)
    requires x.i <= |v|
  {
    && x.s.column > 0 && (!x.spaces ==> !x.s.indention)
    && OnlySpaces(x.pd)
    && (x.spaces ==> 0 < x.i && v[x.i - 1] == ' ')
    && (x.pd == NOTHING || x.spaces)
    && x.acc + x.pd.whitespaces == v[..x.i]
  }

  predicate SingleInv(cfg: Config, v: string, x: Between) {
    && x.i <= |v| && cfg.indent > 0 && x.s.footIndent == -1
    && if x.breaks then InBreaks(v, x) else OnLine(v, x)
  }

  function TextOf(cfg: Config, v: string, ab: bool, x: Between): Sink {
    SingleText(cfg, v, ab, x.i, x.s, x.spaces, x.breaks)
  }

  predicate StepOk(cfg: Config, v: string, ab: bool, t: string, x: Between, y: Between) {
    && x.i < y.i && SingleInv(cfg, v, y)
    && TextOf(cfg, v, ab, y) == TextOf(cfg, v, ab, x)
    && |x.s.out| <= |t| && |y.s.out| <= |t|
    && FlowAt(t, x.s, x.acc, true, x.pd) == FlowAt(t, y.s, y.acc, true, y.pd)
  }

  lemma AtBlank(t: string, s: Sink, acc: string, single: bool, pd: Pending)
    requires |s.out| < |t| && IsBlankz(t[|s.out|])
    ensures FlowAt(t, s, acc, single, pd) == FlowBlank(t, |s.out|, s.column, acc, single, pd)
  {
  }

  lemma StepSpace(cfg: Config, v: string, ab: bool, t: string, x: Between) returns (y: Between)
    requires x.i < |v| && SingleInv(cfg, v, x) && Quotable(v, cfg.unicode) && v[x.i] == ' '
    requires !(ab && !x.spaces && x.s.column > cfg.bestWidth && 0 < x.i < |v| - 1 && At(v, x.i + 1) != ' ')
    requires Through(TextOf(cfg, v, ab, x), t)
    ensures StepOk(cfg, v, ab, t, x, y)
  {
    hide FlowNonBlank, FlowBlank, FlowOuter, WriteIndent;
    var i := x.i;
    assert !BreakSpaceAt(v, i);
    assert !x.breaks;
    var s1 := Put(x.s, [v[i]]);
    SingleTextGrows(cfg, v, ab, i + 1, s1, true, false);
    ThroughEarlier(s1, TextOf(cfg, v, ab, x), t);
    ReadsPut(x.s, [v[i]], t);
    assert At(t, |x.s.out| + 0) == ' ';
    ReadsSpace(t, x.s, x.acc, true, x.pd);
    assert x.acc + (x.pd.whitespaces + [' ']) == (x.acc + x.pd.whitespaces) + [v[i]] == v[..i + 1];
    y := Between(i + 1, s1, true, false, x.acc, AddBlank(x.pd, ' '));
  }

  /** A folded space; the analysis guarantees that an ordinary character follows. */
  lemma StepFold(cfg: Config, v: string, ab: bool, t: string, x: Between) returns (y: Between)
    requires x.i < |v| && SingleInv(cfg, v, x) && Quotable(v, cfg.unicode) && v[x.i] == ' '
    requires ab && !x.spaces && x.s.column > cfg.bestWidth && 0 < x.i < |v| - 1 && At(v, x.i + 1) != ' '
    requires Through(TextOf(cfg, v, ab, x), t)
    ensures StepOk(cfg, v, ab, t, x, y)
  {
    hide FlowNonBlank, FlowBlank, FlowOuter, WriteIndent;
    var i := x.i;
    assert !BreakSpaceAt(v, i);
    assert !SpaceBreakAt(v, i + 1) && !TabAt(v, i + 1) && !SpecialAt(v, i + 1, cfg.unicode);
    var s1 := WriteIndent(cfg, x.s);
    var unit := if v[i + 1] == '\'' then "''" else [v[i + 1]];
    WriteIndentBreaks(cfg, x.s);
    FoldedUnit(cfg, v, ab, i, x.s);
    SingleTextGrows(cfg, v, ab, i + 2, Put(s1, unit).(indention := false), false, false);
    ThroughEarlier(Put(s1, unit), TextOf(cfg, v, ab, x), t);
    FoldsOne(cfg, x.s, unit, t, x.acc, true);
    assert x.acc + " " == v[..i + 1];
    y := Between(i + 1, s1, true, false, v[..i + 1], NOTHING);
  }

  lemma FoldedUnit(cfg: Config, v: string, ab: bool, i: nat, s: Sink)
    requires 0 < i < |v| - 1 && v[i] == ' ' && v[i + 1] != ' ' && !IsBreak(v[i + 1])
    requires ab && s.column > cfg.bestWidth
    ensures var s1 := WriteIndent(cfg, s);
      var unit := if v[i + 1] == '\'' then "''" else [v[i + 1]];
      SingleText(cfg, v, ab, i, s, false, false)
      == SingleText(cfg, v, ab, i + 2, Put(s1, unit).(indention := false), false, false)
  {
    var s1 := WriteIndent(cfg, s);
    if v[i + 1] == '\'' {
      assert (s1.out + "'") + [v[i + 1]] == s1.out + "''";
    }
    hide WriteIndent;
    assert SingleText(cfg, v, ab, i, s, false, false) == SingleText(cfg, v, ab, i + 1, s1, true, false);
  }

  /** One LF of the value, or the extra one before a run: one break for the scanner. */
  lemma ReadsOneBreak(cfg: Config, s: Sink, t: string, acc: string, pd: Pending)
    requires Through(PutBreak(cfg, s), t)
    requires cfg.lineBreak.CR? ==> At(t, |s.out| + 1) != '\n'
    ensures |s.out| <= |t|
    ensures FlowAt(t, s, acc, true, pd) == FlowBlank(t, |PutBreak(cfg, s).out|, 0, acc, true, AddBreak(pd, "\n"))
    ensures FlowBlank(t, |s.out|, s.column, acc, true, pd) == FlowBlank(t, |PutBreak(cfg, s).out|, 0, acc, true, AddBreak(pd, "\n"))
  {
    ReadsBreak(cfg, s, t);
    AtBlank(t, s, acc, true, pd);
  }

  lemma ReadsSeparator(s: Sink, c: char, t: string, acc: string, pd: Pending)
    requires (c == '\U{2028}' || c == '\U{2029}') && Through(Put(s, [c]), t)
    ensures |s.out| <= |t|
    ensures FlowAt(t, s, acc, true, pd) == FlowBlank(t, |s.out| + 1, 0, acc, true, AddBreak(pd, [c]))
  {
    ReadsPut(s, [c], t);
    assert At(t, |s.out| + 0) == c;
    AtBlank(t, s, acc, true, pd);
  }

  lemma NextIsNotLineFeed(cfg: Config, v: string, ab: bool, i: nat, s: Sink, spaces: bool, breaks: bool, t: string, p: nat)
    requires cfg.lineBreak.CR? && NoLineFeedFrom(s.out, p)
    requires Through(Put(SingleText(cfg, v, ab, i, s, spaces, breaks), "'"), t)
    ensures forall k :: p <= k <= |SingleText(cfg, v, ab, i, s, spaces, breaks).out| ==> At(t, k) != '\n'
  {
    var f := SingleText(cfg, v, ab, i, s, spaces, breaks);
    SingleTextNoLineFeed(cfg, v, ab, i, s, spaces, breaks, p);
    ReadsPut(f, "'", t);
    assert At(t, |f.out| + 0) == '\'';
    forall k | p <= k <= |f.out| ensures At(t, k) != '\n' {
      if k < |f.out| {
        assert t[k] == f.out[k];
      }
    }
  }

  lemma StepLineFeed(cfg: Config, v: string, ab: bool, t: string, x: Between) returns (y: Between)
    requires x.i < |v| && SingleInv(cfg, v, x) && Quotable(v, cfg.unicode) && v[x.i] == '\n'
    requires Through(Put(TextOf(cfg, v, ab, x), "'"), t)
    ensures StepOk(cfg, v, ab, t, x, y)
  {
    hide FlowNonBlank, FlowBlank, FlowOuter, WriteIndent;
    var i := x.i;
    assert !SpaceBreakAt(v, i);
    var s1 := if x.breaks then x.s else PutBreak(cfg, x.s);
    var s2 := PutBreak(cfg, s1);
    var f := TextOf(cfg, v, ab, x);
    assert f == SingleText(cfg, v, ab, i + 1, s2, x.spaces, true);
    SingleTextGrows(cfg, v, ab, i + 1, s2, x.spaces, true);
    assert s2.out <= Put(f, "'").out;
    ThroughEarlier(s2, Put(f, "'"), t);
    ThroughEarlier(s1, s2, t);
    if cfg.lineBreak.CR? {
      NextIsNotLineFeed(cfg, v, ab, i + 1, s2, x.spaces, true, t, |x.s.out|);
    }
    var pd1 := if x.breaks then x.pd else AddBreak(x.pd, "\n");
    if !x.breaks {
      ReadsOneBreak(cfg, x.s, t, x.acc, x.pd);
    }
    ReadsOneBreak(cfg, s1, t, x.acc, pd1);
    LineFeedFolds(v, x);
    hide SingleText;
    y := Between(i + 1, s2, x.spaces, true, x.acc, AddBreak(pd1, "\n"));
  }

  lemma LineFeedFolds(v: string, x: Between)
    requires x.i < |v| && v[x.i] == '\n'
    requires if x.breaks then InBreaks(v, x) else OnLine(v, x) && x.pd == NOTHING
    ensures var pd := AddBreak(if x.breaks then x.pd else AddBreak(x.pd, "\n"), "\n");
      && pd.leading && pd.whitespaces == "" && pd.leadingBreak != ""
      && (pd.leadingBreak[0] == '\n' ==> pd.trailingBreaks != "")
      && x.acc + Fold(pd) == v[..x.i + 1]
  {
    assert v[..x.i + 1] == v[..x.i] + "\n";
    if x.breaks {
      assert x.acc + (Fold(x.pd) + "\n") == (x.acc + Fold(x.pd)) + "\n";
      assert (x.pd.leadingBreak + x.pd.trailingBreaks) + "\n" == x.pd.leadingBreak + (x.pd.trailingBreaks + "\n");
    } else {
      assert x.acc + "" == x.acc;
    }
  }

  lemma StepSeparator(cfg: Config, v: string, ab: bool, t: string, x: Between) returns (y: Between)
    requires x.i < |v| && SingleInv(cfg, v, x) && Quotable(v, cfg.unicode)
    requires IsBreak(v[x.i]) && v[x.i] != '\n'
    requires Through(TextOf(cfg, v, ab, x), t)
    ensures StepOk(cfg, v, ab, t, x, y)
  {
    var i, c := x.i, v[x.i];
    assert !SpaceBreakAt(v, i) && !SpecialAt(v, i, cfg.unicode);
    var s1 := WriteBreak(cfg, x.s, c);
    var f := TextOf(cfg, v, ab, x);
    assert f == SingleText(cfg, v, ab, i + 1, s1, x.spaces, true);
    SingleTextGrows(cfg, v, ab, i + 1, s1, x.spaces, true);
    ThroughEarlier(s1, f, t);
    hide FlowNonBlank, FlowBlank, FlowOuter, WriteIndent, SingleText;
    ReadsSeparator(x.s, c, t, x.acc, x.pd);
    SeparatorFolds(v, x);
    y := Between(i + 1, s1, x.spaces, true, x.acc, AddBreak(x.pd, [c]));
  }

  lemma SeparatorFolds(v: string, x: Between)
    requires x.i < |v| && IsBreak(v[x.i]) && v[x.i] != '\n'
    requires if x.breaks then InBreaks(v, x) else OnLine(v, x) && x.pd == NOTHING
    ensures var pd := AddBreak(x.pd, [v[x.i]]);
      && pd.leading && pd.whitespaces == "" && pd.leadingBreak != ""
      && (pd.leadingBreak[0] == '\n' ==> pd.trailingBreaks != "")
      && x.acc + Fold(pd) == v[..x.i + 1]
  {
    var c := v[x.i];
    assert v[..x.i + 1] == v[..x.i] + [c];
    if x.breaks {
      assert x.acc + (Fold(x.pd) + [c]) == (x.acc + Fold(x.pd)) + [c];
      assert (x.pd.leadingBreak + x.pd.trailingBreaks) + [c] == x.pd.leadingBreak + (x.pd.trailingBreaks + [c]);
    } else {
      assert x.acc + "" == x.acc && [c] + "" == [c] && "" + [c] == [c];
    }
  }

  /** After a run of breaks the text is indented before the next character. */
  lemma ReadsIndentation(cfg: Config, s: Sink, unit: string, t: string, acc: string, pd: Pending)
    requires cfg.indent > 0 && s.footIndent == -1 && s.column == 0 && s.indention && pd.leading
    requires unit != "" && !IsBlankz(unit[0]) && Through(Put(WriteIndent(cfg, s), unit), t)
    ensures var s1 := WriteIndent(cfg, s);
      && |s.out| <= |t| && |s1.out| <= |t| && s1.column == cfg.indent && s1.footIndent == -1
      && FlowAt(t, s, acc, true, pd) == FlowNonBlank(t, |s1.out|, s1.column, acc + Fold(pd), true)
  {
    WriteIndentPads(cfg, s);
    var s1 := WriteIndent(cfg, s);
    ReadsPut(s1, unit, t);
    assert At(t, |s1.out| + 0) == unit[0];
    ReadsPut(s, Spaces(cfg.indent), t);
    forall k | |s.out| <= k < |s1.out| ensures t[k] == ' ' {
      assert At(t, |s.out| + (k - |s.out|)) == Spaces(cfg.indent)[k - |s.out|];
    }
    SkipSpaces(t, |s.out|, cfg.indent, 0, acc, true, pd);
    LeaveBlank(t, |s1.out|, s1.column, acc, true, pd);
  }

  lemma ReadsCharacter(s: Sink, c: char, t: string, acc: string)
    requires !IsBlankz(c) && Through(Put(s, if c == '\'' then "''" else [c]), t)
    ensures var unit := if c == '\'' then "''" else [c];
      && |s.out| + |unit| <= |t|
      && FlowNonBlank(t, |s.out|, s.column, acc, true)
         == FlowNonBlank(t, |s.out| + |unit|, s.column + |unit|, acc + [c], true)
  {
    var unit := if c == '\'' then "''" else [c];
    ReadsPut(s, unit, t);
    assert At(t, |s.out| + 0) == c;
    if c == '\'' {
      assert At(t, |s.out| + 1) == c;
    }
  }

  lemma ReachesCharacter(cfg: Config, v: string, t: string, x: Between, s1: Sink, unit: string)
    requires x.i <= |v| && SingleInv(cfg, v, x)
    requires s1 == if x.breaks then WriteIndent(cfg, x.s) else x.s
    requires unit != "" && !IsBlankz(unit[0]) && Through(Put(s1, unit), t)
    ensures |x.s.out| <= |t| && |s1.out| <= |t| && s1.footIndent == -1
    ensures FlowAt(t, x.s, x.acc, true, x.pd) == FlowNonBlank(t, |s1.out|, s1.column, x.acc + Fold(x.pd), true)
  {
    hide WriteIndent, FlowOuter, FlowNonBlank, FlowBlank, Fold;
    if x.breaks {
      ReadsIndentation(cfg, x.s, unit, t, x.acc, x.pd);
    } else {
      ReadsPut(s1, unit, t);
      assert At(t, |s1.out| + 0) == unit[0];
      ReadsOne(t, x.s, x.acc, true, x.pd);
    }
  }

  lemma CharacterReads(cfg: Config, v: string, ab: bool, t: string, x: Between, s1: Sink, unit: string)
    requires x.i < |v| && SingleInv(cfg, v, x) && v[x.i] != ' ' && !IsBlankz(v[x.i])
    requires s1 == if x.breaks then WriteIndent(cfg, x.s) else x.s
    requires unit == if v[x.i] == '\'' then "''" else [v[x.i]]
    requires Through(Put(s1, unit), t)
    ensures |x.s.out| <= |t| && |s1.out| + |unit| <= |t| && s1.footIndent == -1
    ensures FlowAt(t, x.s, x.acc, true, x.pd)
      == FlowNonBlank(t, |s1.out| + |unit|, s1.column + |unit|, v[..x.i + 1], true)
  {
    hide WriteIndent, FlowOuter, FlowNonBlank, FlowBlank;
    ReachesCharacter(cfg, v, t, x, s1, unit);
    ReadsCharacter(s1, v[x.i], t, x.acc + Fold(x.pd));
    assert v[..x.i] + [v[x.i]] == v[..x.i + 1];
  }

  lemma StepCharacter(cfg: Config, v: string, ab: bool, t: string, x: Between) returns (y: Between)
    requires x.i < |v| && SingleInv(cfg, v, x) && Quotable(v, cfg.unicode)
    requires v[x.i] != ' ' && !IsBreak(v[x.i])
    requires Through(TextOf(cfg, v, ab, x), t)
    ensures StepOk(cfg, v, ab, t, x, y)
  {
    hide FlowNonBlank, FlowBlank, FlowOuter, WriteIndent;
    var i, c := x.i, v[x.i];
    hide SingleText;
    assert !TabAt(v, i) && !SpecialAt(v, i, cfg.unicode);
    var s1 := if x.breaks then WriteIndent(cfg, x.s) else x.s;
    var unit := if c == '\'' then "''" else [c];
    var s2 := Put(s1, unit).(indention := false);
    CharacterUnit(cfg, v, ab, x);
    SingleTextGrows(cfg, v, ab, i + 1, s2, false, false);
    ThroughEarlier(Put(s1, unit), TextOf(cfg, v, ab, x), t);
    CharacterReads(cfg, v, ab, t, x, s1, unit);
    y := Between(i + 1, s2, false, false, v[..i + 1], NOTHING);
  }

  lemma CharacterUnit(cfg: Config, v: string, ab: bool, x: Between)
    requires x.i < |v| && v[x.i] != ' ' && !IsBreak(v[x.i])
    ensures var s1 := if x.breaks then WriteIndent(cfg, x.s) else x.s;
      var unit := if v[x.i] == '\'' then "''" else [v[x.i]];
      TextOf(cfg, v, ab, x) == SingleText(cfg, v, ab, x.i + 1, Put(s1, unit).(indention := false), false, false)
  {
    var s1 := if x.breaks then WriteIndent(cfg, x.s) else x.s;
    if v[x.i] == '\'' {
      assert (s1.out + "'") + [v[x.i]] == s1.out + "''";
    }
  }

  // ----- The whole scalar -----

  lemma {:induction false} SingleScans(cfg: Config, v: string, ab: bool, t: string, x: Between)
    requires SingleInv(cfg, v, x) && Quotable(v, cfg.unicode)
    requires Through(Put(TextOf(cfg, v, ab, x), "'"), t)
    requires At(t, |TextOf(cfg, v, ab, x).out| + 1) != '\''
    ensures |x.s.out| <= |t|
    ensures var f := TextOf(cfg, v, ab, x);
      FlowAt(t, x.s, x.acc, true, x.pd) == Scanned(v, |f.out| + 1, f.column + 1)
    decreases |v| - x.i
  {
    var f := TextOf(cfg, v, ab, x);
    ReadsPut(f, "'", t);
    if x.i == |v| {
      ClosingQuote(v, t, x);
    } else {
      hide SingleText, FlowAt, Quotable;
      var y: Between;
      if v[x.i] == ' ' {
        if ab && !x.spaces && x.s.column > cfg.bestWidth && 0 < x.i < |v| - 1 && At(v, x.i + 1) != ' ' {
          y := StepFold(cfg, v, ab, t, x);
        } else {
          y := StepSpace(cfg, v, ab, t, x);
        }
      } else if v[x.i] == '\n' {
        y := StepLineFeed(cfg, v, ab, t, x);
      } else if IsBreak(v[x.i]) {
        y := StepSeparator(cfg, v, ab, t, x);
      } else {
        y := StepCharacter(cfg, v, ab, t, x);
      }
      SingleScans(cfg, v, ab, t, y);
    }
  }

  lemma ClosingQuote(v: string, t: string, x: Between)
    requires x.i == |v| && (if x.breaks then InBreaks(v, x) else OnLine(v, x))
    requires Through(Put(x.s, "'"), t) && At(t, |x.s.out| + 1) != '\''
    ensures |x.s.out| <= |t|
    ensures FlowAt(t, x.s, x.acc, true, x.pd) == Scanned(v, |x.s.out| + 1, x.s.column + 1)
  {
    ReadsPut(x.s, "'", t);
    assert At(t, |x.s.out| + 0) == '\'';
    assert v[..x.i] == v;
    assert x.acc + "" == x.acc;
    LeaveBlank(t, |x.s.out|, x.s.column, x.acc, true, x.pd);
  }

  /** Section 7.3.2 of YAML 1.2: a single-quoted scalar is read back as the value it was printed
      from, for every value with `single_quoted_allowed`; what follows it must not be a quote. */
  lemma SingleQuotedRoundTrip(cfg: Config, s: Sink, v: string, ab: bool, rest: string)
    requires cfg.indent > 0 && s.footIndent == -1
    requires Quotable(v, cfg.unicode)
    requires At(rest, 0) != '\''
    ensures var f := WriteSingleQuoted(cfg, s, v, ab);
      var t := f.out + rest;
      && |Start(s).out| < |t|
      && FlowScalar(t, |Start(s).out|, Start(s).column, true) == Scanned(v, |f.out|, f.column)
  {
    var s0 := WriteIndicator(s, "'", true, false, false);
    var s1 := SingleText(cfg, v, ab, 0, s0, false, false);
    var f := WriteSingleQuoted(cfg, s, v, ab);
    var t := f.out + rest;
    assert Put(s1, "'").out == f.out;
    assert At(t, |f.out|) == At(rest, 0);
    SingleScans(cfg, v, ab, t, Between(0, s0, false, false, "", NOTHING));
    SingleTextGrows(cfg, v, ab, 0, s0, false, false);
    ThroughEarlier(s0, Put(s1, "'"), t);
    ReadsPut(Start(s), "'", t);
    EntersFlow(t, |Start(s).out| + 1, Start(s).column + 1, true);
  }

  lemma OpensWithQuote(cfg: Config, s: Sink, v: string, ab: bool, rest: string)
    ensures var t := WriteSingleQuoted(cfg, s, v, ab).out + rest;
      |Start(s).out| < |t| && forall col, flow :: Dispatch(t, |Start(s).out|, col, flow) == SingleQuotedScalar
  {
    var s0 := WriteIndicator(s, "'", true, false, false);
    var s1 := SingleText(cfg, v, ab, 0, s0, false, false);
    var t := WriteSingleQuoted(cfg, s, v, ab).out + rest;
    assert Put(s1, "'").out == WriteSingleQuoted(cfg, s, v, ab).out;
    SingleTextGrows(cfg, v, ab, 0, s0, false, false);
    ThroughEarlier(s0, Put(s1, "'"), t);
    ReadsPut(Start(s), "'", t);
    assert At(t, |Start(s).out| + 0) == '\'';
  }
}
