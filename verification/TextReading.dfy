/** What the scanner reads where the emitter wrote: the steps every scalar style shares.

    A sink's `out` is a prefix of the text `t` that is scanned, so the scanner stands at
    `|s.out|` whenever the writer stood at `s`; writer column and scanner column agree throughout. */
module TextReading {
  import opened Chars
  import opened ScalarEmitter
  import opened ScalarScanner

  /** The writer stood at `s` while printing the text `t`. */
  predicate Through(s: Sink, t: string) { s.out <= t }

  lemma ReadsPut(s: Sink, x: string, t: string)
    requires Through(Put(s, x), t)
    ensures Through(s, t)
    ensures forall k :: 0 <= k < |x| ==> At(t, |s.out| + k) == x[k]
  {
    var o := s.out + x;
    assert s.out == o[..|s.out|] == t[..|s.out|];
    forall k | 0 <= k < |x| ensures At(t, |s.out| + k) == x[k] {
      assert t[|s.out| + k] == o[|s.out| + k];
    }
  }

  lemma ThroughEarlier(s: Sink, s': Sink, t: string)
    requires s.out <= s'.out && Through(s', t)
    ensures Through(s, t)
  {
    assert s.out == s'.out[..|s.out|] == t[..|s.out|];
  }

  // ----- Breaks, indentation and blanks, seen by the scanner -----

  /** Spaces after a line break are skipped. */
  lemma {:induction false} SkipSpaces(t: string, p: nat, n: nat, col: nat, acc: string, single: bool, pd: Pending)
    requires p + n <= |t| && pd.leading
    requires forall k :: p <= k < p + n ==> t[k] == ' '
    ensures FlowBlank(t, p, col, acc, single, pd) == FlowBlank(t, p + n, col + n, acc, single, pd)
    decreases n
  {
    if n > 0 {
      SkipSpaces(t, p + 1, n - 1, col + 1, acc, single, pd);
    }
  }

  lemma {:induction false} SkipSpacesPlain(t: string, p: nat, n: nat, col: nat, acc: string, pd: Pending, w: Where)
    requires p + n <= |t| && pd.leading
    requires forall k :: p <= k < p + n ==> t[k] == ' '
    ensures PlainBlank(t, p, col, acc, pd, w) == PlainBlank(t, p + n, col + n, acc, pd, w)
    decreases n
  {
    if n > 0 {
      SkipSpacesPlain(t, p + 1, n - 1, col + 1, acc, pd, w);
    }
  }

  /** A break the writer puts is one LF to the scanner, whichever line break is configured. */
  lemma ReadsBreak(cfg: Config, s: Sink, t: string)
    requires Through(PutBreak(cfg, s), t)
    requires cfg.lineBreak.CR? ==> At(t, |s.out| + 1) != '\n'
    ensures Through(s, t)
    ensures IsBreak(At(t, |s.out|)) && !IsBlank(At(t, |s.out|))
    ensures BreakValue(t, |s.out|) == "\n"
    ensures |s.out| + BreakWidth(t, |s.out|) == |PutBreak(cfg, s).out|
  {
    ReadsPut(s, BreakText(cfg.lineBreak), t);
  }

  /** Where folding starts: `write_indent` is certain to break the line. */
  predicate WillBreak(cfg: Config, s: Sink) {
    cfg.indent > 0 && s.footIndent == -1 && (!s.indention || s.column > cfg.indent)
  }

  lemma WriteIndentBreaks(cfg: Config, s: Sink)
    requires WillBreak(cfg, s)
    ensures WriteIndent(cfg, s) == Put(PutBreak(cfg, s), Spaces(cfg.indent)).(whitespace := true, footIndent := -1)
    ensures WriteIndent(cfg, s).column == cfg.indent
  {
    PadIsSpaces(PutBreak(cfg, s), cfg.indent);
  }

  /** At the start of a line `write_indent` only pads. */
  lemma WriteIndentPads(cfg: Config, s: Sink)
    requires cfg.indent > 0 && s.footIndent == -1 && s.column == 0 && s.indention
    ensures WriteIndent(cfg, s) == Put(s, Spaces(cfg.indent)).(whitespace := true, footIndent := -1)
  {
    PadIsSpaces(s, cfg.indent);
  }

  lemma ReadsFoldText(cfg: Config, s: Sink, t: string)
    requires WillBreak(cfg, s) && Through(WriteIndent(cfg, s), t)
    ensures Through(PutBreak(cfg, s), t)
    ensures cfg.lineBreak.CR? ==> At(t, |s.out| + 1) != '\n'
    ensures var q := |PutBreak(cfg, s).out|;
      |WriteIndent(cfg, s).out| == q + cfg.indent <= |t| && forall k :: q <= k < q + cfg.indent ==> t[k] == ' '
  {
    WriteIndentBreaks(cfg, s);
    ReadsPut(PutBreak(cfg, s), Spaces(cfg.indent), t);
    var q := |PutBreak(cfg, s).out|;
    forall k | q <= k < q + cfg.indent ensures t[k] == ' ' {
      assert At(t, q + (k - q)) == Spaces(cfg.indent)[k - q];
    }
    assert At(t, q + 0) == ' ';
  }

  /** A folded space inside a quoted scalar: one break, then indentation. */
  lemma ReadsFold(cfg: Config, s: Sink, t: string, acc: string, single: bool)
    requires WillBreak(cfg, s) && Through(WriteIndent(cfg, s), t)
    ensures Through(s, t)
    ensures var s1 := WriteIndent(cfg, s);
      FlowNonBlank(t, |s.out|, s.column, acc, single)
      == FlowBlank(t, |s1.out|, s1.column, acc, single, Pending("", "\n", "", true))
  {
    ReadsFoldText(cfg, s, t);
    ReadsBreak(cfg, s, t);
    WriteIndentBreaks(cfg, s);
    assert AddBreak(NOTHING, "\n") == Pending("", "\n", "", true);
    SkipSpaces(t, |PutBreak(cfg, s).out|, cfg.indent, 0, acc, single, Pending("", "\n", "", true));
  }

  lemma ReadsFoldPlain(cfg: Config, s: Sink, t: string, acc: string, w: Where)
    requires WillBreak(cfg, s) && Through(WriteIndent(cfg, s), t)
    ensures Through(s, t)
    ensures var s1 := WriteIndent(cfg, s);
      PlainNonBlank(t, |s.out|, s.column, acc, NOTHING, w)
      == PlainBlank(t, |s1.out|, s1.column, acc, Pending("", "\n", "", true), w)
  {
    ReadsFoldText(cfg, s, t);
    ReadsBreak(cfg, s, t);
    WriteIndentBreaks(cfg, s);
    assert AddBreak(NOTHING, "\n") == Pending("", "\n", "", true);
    SkipSpacesPlain(t, |PutBreak(cfg, s).out|, cfg.indent, 0, acc, Pending("", "\n", "", true), w);
  }

  /** Leaving the blank loop at an ordinary character joins what is pending. */
  lemma LeaveBlank(t: string, p: nat, col: nat, acc: string, single: bool, pd: Pending)
    requires p < |t| && !IsBlankz(t[p])
    requires col > 0 || (t[p] != '-' && t[p] != '.')
    ensures FlowBlank(t, p, col, acc, single, pd) == FlowNonBlank(t, p, col, acc + Fold(pd), single)
  {
  }

  lemma WriteIndentGrows(cfg: Config, s: Sink)
    ensures s.out <= WriteIndent(cfg, s).out
  {
    var n := IndentOf(cfg);
    var s1 := if !s.indention || s.column > n || (s.column == n && !s.whitespace) then PutBreak(cfg, s) else s;
    var s2 := if s1.footIndent == n then PutBreak(cfg, s1) else s1;
    PadGrows(s2, n);
  }

  lemma {:induction false} PadGrows(s: Sink, n: nat)
    ensures s.out <= Pad(s, n).out
    decreases n - s.column
  {
    if s.column < n {
      PadGrows(Put(s, " "), n);
    }
  }

  /** The scanner between two units of the text: in the non-blank loop, or in the blank loop with
      `pd` pending. */
  function FlowAt(t: string, s: Sink, acc: string, single: bool, pd: Pending): Scan
    requires |s.out| <= |t|
  {
    if pd == NOTHING then FlowNonBlank(t, |s.out|, s.column, acc, single)
    else FlowBlank(t, |s.out|, s.column, acc, single, pd)
  }

  predicate OnlySpaces(pd: Pending) {
    !pd.leading && pd.leadingBreak == "" && pd.trailingBreaks == ""
  }

  lemma ReadsOne(t: string, s: Sink, acc: string, single: bool, pd: Pending)
    requires |s.out| < |t| && !IsBlankz(t[|s.out|]) && s.column > 0
    ensures FlowAt(t, s, acc, single, pd) == FlowNonBlank(t, |s.out|, s.column, acc + Fold(pd), single)
  {
    assert acc + "" == acc;
    LeaveBlank(t, |s.out|, s.column, acc, single, pd);
  }

  lemma ReadsSpace(t: string, s: Sink, acc: string, single: bool, pd: Pending)
    requires |s.out| < |t| && t[|s.out|] == ' '
    ensures FlowAt(t, s, acc, single, pd) == FlowBlank(t, |s.out| + 1, s.column + 1, acc, single, AddBlank(pd, ' '))
  {
    if pd == NOTHING {
      assert FlowNonBlank(t, |s.out|, s.column, acc, single) == FlowBlank(t, |s.out|, s.column, acc, single, NOTHING);
    }
  }

  /** A folded space before anything else: the break and the indentation are read as one space. */
  lemma FoldsOne(cfg: Config, s: Sink, unit: string, t: string, acc: string, single: bool)
    requires WillBreak(cfg, s) && unit != "" && !IsBlankz(unit[0]) && Through(Put(WriteIndent(cfg, s), unit), t)
    ensures var s1 := WriteIndent(cfg, s);
      && |s.out| <= |t| && |s1.out| <= |t|
      && FlowNonBlank(t, |s.out|, s.column, acc, single) == FlowNonBlank(t, |s1.out|, s1.column, acc + " ", single)
  {
    var s1 := WriteIndent(cfg, s);
    WriteIndentBreaks(cfg, s);
    ReadsPut(s1, unit, t);
    assert At(t, |s1.out| + 0) == unit[0];
    ReadsFold(cfg, s, t, acc, single);
    LeaveBlank(t, |s1.out|, s1.column, acc, single, Pending("", "\n", "", true));
  }

  /** Where the scalar's first character lands: one blank is printed first unless the emitter is
      already behind one. */
  function Start(s: Sink): Sink { if s.whitespace then s else Put(s, " ") }

  /** Just behind the opening quote no document marker is possible. */
  lemma EntersFlow(t: string, p: nat, col: nat, single: bool)
    requires p <= |t| && col > 0 && FlowNonBlank(t, p, col, "", single).Scanned?
    ensures FlowOuter(t, p, col, "", single) == FlowNonBlank(t, p, col, "", single)
  {
    if At(t, p) == '\0' {
      EndFails(t, p, col, single);
    }
  }

  lemma EndFails(t: string, p: nat, col: nat, single: bool)
    requires p <= |t| && col > 0 && At(t, p) == '\0'
    ensures FlowNonBlank(t, p, col, "", single) == Failed(EndOfStream)
  {
    assert FlowNonBlank(t, p, col, "", single) == FlowBlank(t, p, col, "", single, NOTHING);
    assert FlowBlank(t, p, col, "", single, NOTHING) == FlowOuter(t, p, col, "" + Fold(NOTHING), single);
  }
}
