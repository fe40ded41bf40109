/** Double-quoted scalars: printing and scanning are inverse for every value. */
module DoubleQuotedScalars {
  import opened Chars
  import opened ScalarEmitter
  import opened ScalarScanner
  import opened TextReading

  // ----- Double-quoted scalars -----

  function Pow16(n: nat): nat { if n == 0 then 1 else 16 * Pow16(n - 1) }

  lemma {:induction false} HexParses(t: string, p: nat, v: nat, n: nat)
    requires p + n <= |t| && t[p..p + n] == HexText(v, n)
    requires v < Pow16(n)
    ensures AllHex(t, p, n)
    ensures ParseHex(t, p, n) == v
  {
    var h := HexText(v, n);
    forall k | p <= k < p + n ensures IsHex(At(t, k)) {
      assert t[p..p + n][k - p] == h[k - p];
    }
    if n > 0 {
      assert h == HexText(v / 16, n - 1) + [HexDigit(v % 16)];
      assert h[..n - 1] == HexText(v / 16, n - 1);
      assert t[p..p + (n - 1)] == t[p..p + n][..n - 1];
      assert t[p + n - 1] == t[p..p + n][n - 1] == h[n - 1];
      HexParses(t, p, v / 16, n - 1);
    }
  }

  lemma CodeReads(t: string, p: nat, c: char, n: nat)
    requires p + 2 + n <= |t| && t[p + 2..p + 2 + n] == HexText(c as int, n)
    requires c as int < Pow16(n)
    ensures ScanCode(t, p, n) == Escaped(c, 2 + n)
  {
    HexParses(t, p + 2, c as int, n);
  }

  predicate HasShortEscape(c: char) {
    var v := c as int;
    v == 0 || 7 <= v <= 0x0D || v == 0x1B || v == 0x22 || v == 0x5C || v == 0x85 || v == 0xA0 || v == 0x2028 || v == 0x2029
  }

  lemma ShortEscapeReads(t: string, p: nat, c: char)
    requires HasShortEscape(c)
    requires At(t, p + 1) == EscapeText(c)[1]
    ensures ScanEscape(t, p) == Escaped(c, 2) && |EscapeText(c)| == 2
  {
  }

  lemma LongEscapeReads(t: string, p: nat, c: char)
    requires !HasShortEscape(c)
    requires p + |EscapeText(c)| <= |t| && t[p..p + |EscapeText(c)|] == EscapeText(c)
    ensures ScanEscape(t, p) == Escaped(c, |EscapeText(c)|)
  {
    var e := EscapeText(c);
    var n := |e| - 2;
    assert n == 2 || n == 4 || n == 8;
    var h := HexText(c as int, n);
    assert e[2..] == h;
    assert t[p + 2..p + 2 + n] == t[p..p + |e|][2..] == h;
    assert At(t, p + 1) == t[p..p + |e|][1] == e[1];
    PowersOf16();
    CodeReads(t, p, c, n);
  }

  lemma PowersOf16()
    ensures Pow16(2) == 0x100 && Pow16(4) == 0x1_0000 && Pow16(8) == 0x1_0000_0000
  {
    assert Pow16(1) == 16;
    assert Pow16(3) == 0x1000;
    assert Pow16(5) == 0x10_0000;
    assert Pow16(6) == 0x100_0000;
    assert Pow16(7) == 0x1000_0000;
  }

  /** Every escape the writer prints is read back as the character it stands for. */
  lemma SecondOfEscape(c: char)
    ensures !IsBreak(EscapeText(c)[1])
  {
  }

  lemma EscapeReads(s: Sink, c: char, t: string)
    requires Through(Put(s, EscapeText(c)), t)
    ensures Through(s, t)
    ensures At(t, |s.out|) == '\\' && !IsBreak(At(t, |s.out| + 1))
    ensures ScanEscape(t, |s.out|) == Escaped(c, |EscapeText(c)|)
  {
    hide EscapeText, ScanEscape;
    var e, p := EscapeText(c), |s.out|;
    ReadsPut(s, e, t);
    assert At(t, p + 0) == e[0] && At(t, p + 1) == e[1];
    SecondOfEscape(c);
    if HasShortEscape(c) {
      ShortEscapeReads(t, p, c);
    } else {
      assert t[p..p + |e|] == (s.out + e)[p..] == e;
      LongEscapeReads(t, p, c);
    }
  }

  lemma {:induction false} DoubleTextGrows(cfg: Config, v: string, ab: bool, i: nat, s: Sink, spaces: bool)
    ensures s.out <= DoubleText(cfg, v, ab, i, s, spaces).out
    decreases |v| - i
  {
    hide EscapeText, WriteIndent;
    if i < |v| {
      if MustEscape(v, i, cfg.unicode) {
        DoubleTextGrows(cfg, v, ab, i + 1, Put(s, EscapeText(v[i])), false);
      } else if v[i] == ' ' {
        if ab && !spaces && s.column > cfg.bestWidth && 0 < i < |v| - 1 {
          WriteIndentGrows(cfg, s);
          var s1 := WriteIndent(cfg, s);
          DoubleTextGrows(cfg, v, ab, i + 1, if v[i + 1] == ' ' then Put(s1, "\\") else s1, true);
        } else {
          DoubleTextGrows(cfg, v, ab, i + 1, Put(s, [v[i]]), true);
        }
      } else {
        DoubleTextGrows(cfg, v, ab, i + 1, Put(s, [v[i]]), false);
      }
    }
  }

  /** A character copied as it stands. */
  lemma DoubleCopies(cfg: Config, v: string, ab: bool, i: nat, s: Sink, spaces: bool, t: string, acc: string, pd: Pending)
    requires i < |v| && s.column > 0 && !MustEscape(v, i, cfg.unicode)
    requires !(v[i] == ' ' && ab && !spaces && s.column > cfg.bestWidth && 0 < i < |v| - 1)
    requires OnlySpaces(pd) && acc + pd.whitespaces == v[..i]
    requires Through(DoubleText(cfg, v, ab, i, s, spaces), t)
    ensures var s1 := Put(s, [v[i]]);
      && |s1.out| <= |t|
      && if v[i] == ' ' then
           && OnlySpaces(AddBlank(pd, ' ')) && AddBlank(pd, ' ') != NOTHING
           && acc + AddBlank(pd, ' ').whitespaces == v[..i + 1]
           && FlowAt(t, s, acc, false, pd) == FlowAt(t, s1, acc, false, AddBlank(pd, ' '))
         else
           FlowAt(t, s, acc, false, pd) == FlowAt(t, s1, v[..i + 1], false, NOTHING)
  {
    var s1 := Put(s, [v[i]]);
    DoubleTextGrows(cfg, v, ab, i + 1, s1, v[i] == ' ');
    ThroughEarlier(s1, DoubleText(cfg, v, ab, i, s, spaces), t);
    ReadsPut(s, [v[i]], t);
    assert At(t, |s.out| + 0) == v[i];
    assert v[..i] + [v[i]] == v[..i + 1];
    if v[i] == ' ' {
      assert acc + (pd.whitespaces + [' ']) == (acc + pd.whitespaces) + [' '];
      ReadsSpace(t, s, acc, false, pd);
    } else {
      ReadsOne(t, s, acc, false, pd);
    }
  }

  lemma EscapesNext(cfg: Config, v: string, ab: bool, i: nat, s: Sink, spaces: bool)
    requires i < |v| && MustEscape(v, i, cfg.unicode)
    ensures DoubleText(cfg, v, ab, i, s, spaces) == DoubleText(cfg, v, ab, i + 1, Put(s, EscapeText(v[i])), false)
  {
    hide MustEscape, EscapeText;
  }

  lemma DoubleEscapes(cfg: Config, v: string, ab: bool, i: nat, s: Sink, spaces: bool, t: string, acc: string, pd: Pending)
    requires i < |v| && s.column > 0 && MustEscape(v, i, cfg.unicode)
    requires OnlySpaces(pd) && acc + pd.whitespaces == v[..i]
    requires Through(DoubleText(cfg, v, ab, i, s, spaces), t)
    ensures var s1 := Put(s, EscapeText(v[i]));
      && |s1.out| <= |t|
      && FlowAt(t, s, acc, false, pd) == FlowNonBlank(t, |s1.out|, s1.column, v[..i + 1], false)
  {
    hide DoubleText, MustEscape;
    var s1 := Put(s, EscapeText(v[i]));
    EscapesNext(cfg, v, ab, i, s, spaces);
    DoubleTextGrows(cfg, v, ab, i + 1, s1, false);
    ThroughEarlier(s1, DoubleText(cfg, v, ab, i, s, spaces), t);
    EscapeReads(s, v[i], t);
    ReadsOne(t, s, acc, false, pd);
    assert v[..i] + [v[i]] == v[..i + 1];
  }

  /** A folded space before another space: the writer protects the second one with a backslash. */
  lemma DoubleFoldsTwo(cfg: Config, s: Sink, t: string, acc: string)
    requires WillBreak(cfg, s) && Through(Put(Put(WriteIndent(cfg, s), "\\"), " "), t)
    ensures var s1 := WriteIndent(cfg, s);
      && |s.out| <= |t| && |s1.out| + 2 <= |t|
      && FlowNonBlank(t, |s.out|, s.column, acc, false) == FlowNonBlank(t, |s1.out| + 2, s1.column + 2, acc + "  ", false)
  {
    var s1 := WriteIndent(cfg, s);
    WriteIndentBreaks(cfg, s);
    ReadsPut(Put(s1, "\\"), " ", t);
    ReadsPut(s1, "\\", t);
    assert At(t, |s1.out| + 0) == '\\' && At(t, |s1.out| + 1 + 0) == ' ';
    ReadsFold(cfg, s, t, acc, false);
    LeaveBlank(t, |s1.out|, s1.column, acc, false, Pending("", "\n", "", true));
    assert acc + "  " == (acc + " ") + [' '];
  }

  /** Where the writer folds, and the unit after the fold. */
  lemma FoldsNext(cfg: Config, v: string, ab: bool, i: nat, s: Sink)
    requires 0 < i < |v| - 1 && !MustEscape(v, i, cfg.unicode) && v[i] == ' ' && ab && s.column > cfg.bestWidth
    ensures var f, s1 := DoubleText(cfg, v, ab, i, s, false), WriteIndent(cfg, s);
      if v[i + 1] == ' ' then f == DoubleText(cfg, v, ab, i + 2, Put(Put(s1, "\\"), " "), true)
      else f == DoubleText(cfg, v, ab, i + 2, Put(s1, if MustEscape(v, i + 1, cfg.unicode) then EscapeText(v[i + 1]) else [v[i + 1]]), false)
  {
    hide WriteIndent, EscapeText;
    var s1 := WriteIndent(cfg, s);
    if v[i + 1] == ' ' {
      assert !MustEscape(v, i + 1, cfg.unicode);
      assert DoubleText(cfg, v, ab, i, s, false) == DoubleText(cfg, v, ab, i + 1, Put(s1, "\\"), true);
    } else {
      assert DoubleText(cfg, v, ab, i, s, false) == DoubleText(cfg, v, ab, i + 1, s1, true);
    }
  }

  lemma DoubleFolds(cfg: Config, v: string, ab: bool, i: nat, s: Sink, t: string, acc: string)
    requires 0 < i < |v| - 1 && WillBreak(cfg, s) && acc == v[..i]
    requires !MustEscape(v, i, cfg.unicode) && v[i] == ' ' && ab && s.column > cfg.bestWidth
    requires Through(DoubleText(cfg, v, ab, i, s, false), t)
    ensures |s.out| <= |t|
    ensures var s1 := WriteIndent(cfg, s);
      if v[i + 1] == ' ' then
        && |s1.out| + 2 <= |t|
        && FlowNonBlank(t, |s.out|, s.column, acc, false)
           == FlowNonBlank(t, |s1.out| + 2, s1.column + 2, v[..i + 2], false)
      else
        && |s1.out| <= |t|
        && FlowNonBlank(t, |s.out|, s.column, acc, false) == FlowNonBlank(t, |s1.out|, s1.column, v[..i + 1], false)
  {
    hide DoubleText, WriteIndent, FlowNonBlank, EscapeText;
    var f := DoubleText(cfg, v, ab, i, s, false);
    var s1 := WriteIndent(cfg, s);
    FoldsNext(cfg, v, ab, i, s);
    assert v[..i] + " " == v[..i + 1];
    if v[i + 1] == ' ' {
      var s2 := Put(Put(s1, "\\"), " ");
      DoubleTextGrows(cfg, v, ab, i + 2, s2, true);
      ThroughEarlier(s2, f, t);
      DoubleFoldsTwo(cfg, s, t, acc);
      assert acc + "  " == v[..i + 2];
    } else {
      var unit := if MustEscape(v, i + 1, cfg.unicode) then EscapeText(v[i + 1]) else [v[i + 1]];
      DoubleTextGrows(cfg, v, ab, i + 2, Put(s1, unit), false);
      ThroughEarlier(Put(s1, unit), f, t);
      FoldsOne(cfg, s, unit, t, acc, false);
    }
  }

  /** What holds between two units of double-quoted text: `acc` and the pending blanks are the
      part of the value printed so far, and the next fold is certain to break the line. */
  predicate DoubleInv(cfg: Config, v: string, i: nat, s: Sink, spaces: bool, acc: string, pd: Pending) {
    && i <= |v| && cfg.indent > 0 && s.footIndent == -1 && s.column > 0
    && (s.indention ==> s.column >= cfg.indent && (spaces || s.column > cfg.indent))
    && OnlySpaces(pd) && (pd == NOTHING || spaces)
    && acc + pd.whitespaces == v[..i]
  }

  /** One unit of text: writer and scanner both move from `x` to `y`. */
  predicate DoubleStepOk(cfg: Config, v: string, ab: bool, t: string, x: Between, y: Between) {
    && x.i < y.i && DoubleInv(cfg, v, y.i, y.s, y.spaces, y.acc, y.pd)
    && DoubleText(cfg, v, ab, y.i, y.s, y.spaces) == DoubleText(cfg, v, ab, x.i, x.s, x.spaces)
    && |x.s.out| <= |t| && |y.s.out| <= |t|
    && FlowAt(t, x.s, x.acc, false, x.pd) == FlowAt(t, y.s, y.acc, false, y.pd)
  }

  datatype Between = Between(i: nat, s: Sink, spaces: bool, acc: string, pd: Pending)

  lemma DoubleStepEscape(cfg: Config, v: string, ab: bool, t: string, x: Between) returns (y: Between)
    requires x.i < |v| && DoubleInv(cfg, v, x.i, x.s, x.spaces, x.acc, x.pd)
    requires MustEscape(v, x.i, cfg.unicode)
    requires Through(DoubleText(cfg, v, ab, x.i, x.s, x.spaces), t)
    ensures DoubleStepOk(cfg, v, ab, t, x, y)
  {
    DoubleEscapes(cfg, v, ab, x.i, x.s, x.spaces, t, x.acc, x.pd);
    hide FlowNonBlank, FlowBlank, FlowOuter, EscapeText;
    y := Between(x.i + 1, Put(x.s, EscapeText(v[x.i])), false, v[..x.i + 1], NOTHING);
  }

  lemma DoubleStepFold(cfg: Config, v: string, ab: bool, t: string, x: Between) returns (y: Between)
    requires x.i < |v| && DoubleInv(cfg, v, x.i, x.s, x.spaces, x.acc, x.pd)
    requires !MustEscape(v, x.i, cfg.unicode)
    requires v[x.i] == ' ' && ab && !x.spaces && x.s.column > cfg.bestWidth && 0 < x.i < |v| - 1
    requires Through(DoubleText(cfg, v, ab, x.i, x.s, x.spaces), t)
    ensures DoubleStepOk(cfg, v, ab, t, x, y)
  {
    var i := x.i;
    DoubleFolds(cfg, v, ab, i, x.s, t, x.acc);
    var s1 := WriteIndent(cfg, x.s);
    WriteIndentBreaks(cfg, x.s);
    hide FlowNonBlank, FlowBlank, FlowOuter, WriteIndent, EscapeText;
    if v[i + 1] == ' ' {
      assert !MustEscape(v, i + 1, cfg.unicode);
      y := Between(i + 2, Put(Put(s1, "\\"), " "), true, v[..i + 2], NOTHING);
    } else {
      y := Between(i + 1, s1, true, v[..i + 1], NOTHING);
    }
  }

  lemma DoubleStepCopy(cfg: Config, v: string, ab: bool, t: string, x: Between) returns (y: Between)
    requires x.i < |v| && DoubleInv(cfg, v, x.i, x.s, x.spaces, x.acc, x.pd)
    requires !MustEscape(v, x.i, cfg.unicode)
    requires !(v[x.i] == ' ' && ab && !x.spaces && x.s.column > cfg.bestWidth && 0 < x.i < |v| - 1)
    requires Through(DoubleText(cfg, v, ab, x.i, x.s, x.spaces), t)
    ensures DoubleStepOk(cfg, v, ab, t, x, y)
  {
    var i := x.i;
    DoubleCopies(cfg, v, ab, i, x.s, x.spaces, t, x.acc, x.pd);
    hide FlowNonBlank, FlowBlank, FlowOuter, EscapeText, WriteIndent;
    if v[i] == ' ' {
      y := Between(i + 1, Put(x.s, [v[i]]), true, x.acc, AddBlank(x.pd, ' '));
    } else {
      y := Between(i + 1, Put(x.s, [v[i]]), false, v[..i + 1], NOTHING);
    }
  }

  lemma {:induction false} DoubleScans(cfg: Config, v: string, ab: bool, i: nat, s: Sink, spaces: bool,
                                       t: string, acc: string, pd: Pending)
    requires DoubleInv(cfg, v, i, s, spaces, acc, pd)
    requires Through(Put(DoubleText(cfg, v, ab, i, s, spaces), "\""), t)
    ensures |s.out| <= |t|
    ensures var f := DoubleText(cfg, v, ab, i, s, spaces);
      FlowAt(t, s, acc, false, pd) == Scanned(v, |f.out| + 1, f.column + 1)
    decreases |v| - i
  {
    var f := DoubleText(cfg, v, ab, i, s, spaces);
    ReadsPut(f, "\"", t);
    if i == |v| {
      assert At(t, |f.out| + 0) == '"';
      ReadsOne(t, s, acc, false, pd);
    } else {
      var x := Between(i, s, spaces, acc, pd);
      var y: Between;
      if MustEscape(v, i, cfg.unicode) {
        y := DoubleStepEscape(cfg, v, ab, t, x);
      } else if v[i] == ' ' && ab && !spaces && s.column > cfg.bestWidth && 0 < i < |v| - 1 {
        y := DoubleStepFold(cfg, v, ab, t, x);
      } else {
        y := DoubleStepCopy(cfg, v, ab, t, x);
      }
      DoubleScans(cfg, v, ab, y.i, y.s, y.spaces, t, y.acc, y.pd);
    }
  }

  /** Sections 5.7 and 7.3.1 of YAML 1.2: a double-quoted scalar is read back as the value it was
      printed from, for every value, with `unicode` on or off and with or without folding. */
  lemma DoubleQuotedRoundTrip(cfg: Config, s: Sink, v: string, ab: bool, rest: string)
    requires cfg.indent > 0 && s.footIndent == -1
    ensures var f := WriteDoubleQuoted(cfg, s, v, ab);
      var t := f.out + rest;
      && |Start(s).out| < |t|
      && FlowScalar(t, |Start(s).out|, Start(s).column, false) == Scanned(v, |f.out|, f.column)
  {
    var s0 := WriteIndicator(s, "\"", true, false, false);
    var s1 := DoubleText(cfg, v, ab, 0, s0, false);
    var t := WriteDoubleQuoted(cfg, s, v, ab).out + rest;
    assert Put(s1, "\"").out == WriteDoubleQuoted(cfg, s, v, ab).out;
    DoubleScans(cfg, v, ab, 0, s0, false, t, "", NOTHING);
    DoubleTextGrows(cfg, v, ab, 0, s0, false);
    ThroughEarlier(s0, Put(s1, "\""), t);
    ReadsPut(Start(s), "\"", t);
    EntersFlow(t, |Start(s).out| + 1, Start(s).column + 1, false);
  }

  lemma OpensWithQuote(cfg: Config, s: Sink, v: string, ab: bool, rest: string)
    ensures var t := WriteDoubleQuoted(cfg, s, v, ab).out + rest;
      |Start(s).out| < |t| && forall col, flow :: Dispatch(t, |Start(s).out|, col, flow) == DoubleQuotedScalar
  {
    var s0 := WriteIndicator(s, "\"", true, false, false);
    var s1 := DoubleText(cfg, v, ab, 0, s0, false);
    var t := WriteDoubleQuoted(cfg, s, v, ab).out + rest;
    assert Put(s1, "\"").out == WriteDoubleQuoted(cfg, s, v, ab).out;
    DoubleTextGrows(cfg, v, ab, 0, s0, false);
    ThroughEarlier(s0, Put(s1, "\""), t);
    ReadsPut(Start(s), "\"", t);
    assert At(t, |Start(s).out| + 0) == '"';
  }
}
