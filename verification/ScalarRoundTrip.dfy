/** The emitter's own choice of style is sound: whatever style `yaml_emitter_select_scalar_style`
    picks among plain and quoted, the printed text is dispatched to the matching scanner and read
    back as the value. Every character printed is one the reader accepts. */
module ScalarRoundTrip {
  import opened Chars
  import opened ScalarEmitter
  import opened ScalarScanner
  import opened TextReading
  import opened PlainScalars
  import Single = SingleQuotedScalars
  import Double = DoubleQuotedScalars

  /** What may follow a scalar of this style. */
  predicate MayFollow(style: Style, rest: string, t: string, f: Sink, w: Where)
    requires |f.out| <= |t|
  {
    match style
    case Plain => PlainEnds(t, |f.out|, f.column, w)
    case SingleQuoted => At(rest, 0) != '\''
    case _ => true
  }

  /** The scan the dispatcher starts for this first character. */
  function ScanToken(t: string, p: nat, col: nat, w: Where): Scan
    requires p < |t|
  {
    match Dispatch(t, p, col, w.flowLevel)
    case SingleQuotedScalar => FlowScalar(t, p, col, true)
    case DoubleQuotedScalar => FlowScalar(t, p, col, false)
    case PlainStart => PlainScalar(t, p, col, w)
    case _ => Failed(EndOfStream)
  }

  lemma ChosenStyleReadsBack(ctx: Context, requested: Style, d: ScalarData, v: string, cfg: Config, s: Sink, rest: string, w: Where)
    requires cfg.indent > 0 && s.footIndent == -1
    requires Describes(d, v, cfg.unicode) && w.flowLevel == ctx.flowLevel
    requires w.flowLevel == 0 ==> Start(s).column + 1 >= w.minColumn && cfg.indent >= w.minColumn
    ensures var style := SelectStyle(ctx, requested, d, v);
      (style.Plain? && v != "") || style.SingleQuoted? || style.DoubleQuoted? ==>
        var f := WriteScalar(cfg, s, v, style, !ctx.simpleKey);
        var t := f.out + rest;
        MayFollow(style, rest, t, f, w) ==>
          |Start(s).out| < |t| && Reads(ScanToken(t, |Start(s).out|, Start(s).column, w), v)
  {
    var style := SelectStyle(ctx, requested, d, v);
    var ab := !ctx.simpleKey;
    if style.DoubleQuoted? {
      Double.DoubleQuotedRoundTrip(cfg, s, v, ab, rest);
      Double.OpensWithQuote(cfg, s, v, ab, rest);
    } else if style.SingleQuoted? {
      if At(rest, 0) != '\'' {
        Single.SingleQuotedRoundTrip(cfg, s, v, ab, rest);
        Single.OpensWithQuote(cfg, s, v, ab, rest);
      }
    } else if style.Plain? && v != "" {
      PlainRoundTrip(cfg, s, v, ab, rest, w);
    }
  }

  // ----- Nothing unreadable is printed -----

  predicate ReadableFrom(t: string, p: nat) { forall k :: p <= k < |t| ==> ReaderAccepts(t[k] as int) }

  lemma PrintableIsReadable(c: char)
    requires IsPrintable(c)
    ensures ReaderAccepts(c as int)
  {
  }

  lemma {:induction false} PadReadable(s: Sink, n: nat, p: nat)
    requires ReadableFrom(s.out, p)
    ensures ReadableFrom(Pad(s, n).out, p)
    decreases n - s.column
  {
    if s.column < n {
      PadReadable(Put(s, " "), n, p);
    }
  }

  lemma WriteIndentReadable(cfg: Config, s: Sink, p: nat)
    requires ReadableFrom(s.out, p)
    ensures ReadableFrom(WriteIndent(cfg, s).out, p)
  {
    var n := IndentOf(cfg);
    var s1 := if !s.indention || s.column > n || (s.column == n && !s.whitespace) then PutBreak(cfg, s) else s;
    var s2 := if s1.footIndent == n then PutBreak(cfg, s1) else s1;
    PadReadable(s2, n, p);
  }

  lemma {:induction false} HexReadable(v: nat, n: nat)
    ensures ReadableFrom(HexText(v, n), 0)
  {
    if n > 0 {
      HexReadable(v / 16, n - 1);
      PrintableIsReadable(HexDigit(v % 16));
    }
  }

  lemma EscapeReadable(c: char)
    ensures ReadableFrom(EscapeText(c), 0)
  {
    HexReadable(c as int, 2);
    HexReadable(c as int, 4);
    HexReadable(c as int, 8);
  }

  lemma PutReadable(s: Sink, x: string, p: nat)
    requires ReadableFrom(s.out, p) && ReadableFrom(x, 0)
    ensures ReadableFrom(Put(s, x).out, p)
  {
  }

  /** Every character left unescaped in a double-quoted scalar lies in the reader's range. */
  lemma {:induction false} DoubleTextReadable(cfg: Config, v: string, ab: bool, i: nat, s: Sink, spaces: bool, p: nat)
    requires ReadableFrom(s.out, p)
    ensures ReadableFrom(DoubleText(cfg, v, ab, i, s, spaces).out, p)
    decreases |v| - i
  {
    hide WriteIndent, EscapeText, ReaderAccepts;
    if i < |v| {
      if MustEscape(v, i, cfg.unicode) {
        EscapeReadable(v[i]);
        PutReadable(s, EscapeText(v[i]), p);
        DoubleTextReadable(cfg, v, ab, i + 1, Put(s, EscapeText(v[i])), false, p);
      } else {
        PrintableIsReadable(v[i]);
        PrintableIsReadable('\\');
        PutReadable(s, [v[i]], p);
        if v[i] == ' ' && ab && !spaces && s.column > cfg.bestWidth && 0 < i < |v| - 1 {
          WriteIndentReadable(cfg, s, p);
          PutReadable(WriteIndent(cfg, s), "\\", p);
          DoubleTextReadable(cfg, v, ab, i + 1, if v[i + 1] == ' ' then Put(WriteIndent(cfg, s), "\\") else WriteIndent(cfg, s), true, p);
        } else {
          DoubleTextReadable(cfg, v, ab, i + 1, Put(s, [v[i]]), v[i] == ' ', p);
        }
      }
    }
  }

  lemma DoubleQuotedReadable(cfg: Config, s: Sink, v: string, ab: bool)
    ensures ReadableFrom(WriteDoubleQuoted(cfg, s, v, ab).out, |s.out|)
  {
    var s0 := WriteIndicator(s, "\"", true, false, false);
    DoubleTextReadable(cfg, v, ab, 0, s0, false, |s.out|);
  }
}
