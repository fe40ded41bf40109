/** What the scalar writers print, apart from spaces and line breaks: in every style all of the
    value's characters, in order, whatever the column, the width and the indentation. */
module ScalarInk {
  import opened Chars
  import opened ScalarEmitter
  import opened EmitterMachine
  import opened CharacterSets
  import opened TreePrinter

  lemma {:induction false} InkAppend(a: string, b: string)
    ensures Ink(a + b) == Ink(a) + Ink(b)
  {
    if a == "" {
      assert a + b == b;
    } else {
      assert (a + b)[1..] == a[1..] + b;
      InkAppend(a[1..], b);
    }
  }

  lemma PutInk(s: Sink, t: string)
    ensures Ink(Put(s, t).out) == Ink(s.out) + Ink(t)
  {
    InkAppend(s.out, t);
  }

  lemma PutSpaceInk(s: Sink)
    ensures Ink(Put(s, " ").out) == Ink(s.out)
  {
    PutInk(s, " ");
    assert Ink(" ") == "" + Ink(" "[1..]);
  }

  lemma BreakInk(cfg: Config, s: Sink, c: char)
    requires IsBreak(c)
    ensures Ink(PutBreak(cfg, s).out) == Ink(s.out) == Ink(WriteBreak(cfg, s, c).out)
  {
    var t := BreakText(cfg.lineBreak);
    InkAppend(s.out, t);
    assert Ink(t) == "" by {
      assert t[1..] == "" || (t[1..] == "\n" && "\n"[1..] == "");
    }
    InkAppend(s.out, [c]);
    assert [c][1..] == "";
  }

  lemma {:induction false} PadInk(s: Sink, n: nat)
    ensures Ink(Pad(s, n).out) == Ink(s.out)
    decreases n - s.column
  {
    if s.column < n {
      PutSpaceInk(s);
      PadInk(Put(s, " "), n);
    }
  }

  lemma IndentInk(cfg: Config, s: Sink)
    ensures Ink(WriteIndent(cfg, s).out) == Ink(s.out)
  {
    var n := IndentOf(cfg);
    var s1 := if !s.indention || s.column > n || (s.column == n && !s.whitespace) then PutBreak(cfg, s) else s;
    var s2 := if s1.footIndent == n then PutBreak(cfg, s1) else s1;
    BreakInk(cfg, s, '\n');
    BreakInk(cfg, s1, '\n');
    PadInk(s2, n);
  }

  lemma IndicatorInk(s: Sink, t: string, a: bool, b: bool, c: bool)
    ensures Ink(WriteIndicator(s, t, a, b, c).out) == Ink(s.out) + Ink(t)
  {
    PutSpaceInk(s);
    PutInk(if a && !s.whitespace then Put(s, " ") else s, t);
  }

  /** One character of the value, and the rest. */
  lemma InkFrom(v: string, i: nat)
    requires i < |v|
    ensures Ink(v[i..]) == (if IsLayout(v[i]) then "" else [v[i]]) + Ink(v[i + 1..])
  {
    assert v[i..][1..] == v[i + 1..];
  }

  lemma EmptyInk()
    ensures Ink("") == ""
  {
  }

  lemma OneInk(c: char)
    ensures Ink([c]) == if IsLayout(c) then "" else [c]
  {
    assert [c][1..] == "";
  }

  // ----- Plain, literal and folded -----

  lemma {:induction false} PlainInk(cfg: Config, v: string, ab: bool, i: nat, s: Sink, spaces: bool, breaks: bool)
    requires i <= |v|
    ensures Ink(PlainText(cfg, v, ab, i, s, spaces, breaks).out) == Ink(s.out) + Ink(v[i..])
    decreases |v| - i
  {
    hide PlainText;
    if i < |v| {
      var s1, spaces1, breaks1 := PlainTurn(cfg, v, ab, i, s, spaces, breaks);
      PlainInk(cfg, v, ab, i + 1, s1, spaces1, breaks1);
      InkFrom(v, i);
    } else {
      PlainDone(cfg, v, ab, s, spaces, breaks);
    }
  }

  lemma PlainDone(cfg: Config, v: string, ab: bool, s: Sink, spaces: bool, breaks: bool)
    ensures PlainText(cfg, v, ab, |v|, s, spaces, breaks) == s
  {
  }

  /** One turn of the writer's loop. */
  lemma PlainTurn(cfg: Config, v: string, ab: bool, i: nat, s: Sink, spaces: bool, breaks: bool) returns (s1: Sink, spaces1: bool, breaks1: bool)
    requires i < |v|
    ensures PlainText(cfg, v, ab, i, s, spaces, breaks) == PlainText(cfg, v, ab, i + 1, s1, spaces1, breaks1)
    ensures Ink(s1.out) == Ink(s.out) + if IsLayout(v[i]) then "" else [v[i]]
  {
    hide WriteIndent, Ink;
    IndentInk(cfg, s);
    OneInk(v[i]);
    if v[i] == ' ' {
      PutInk(s, [v[i]]);
      s1 := if ab && !spaces && s.column > cfg.bestWidth && At(v, i + 1) != ' ' then WriteIndent(cfg, s) else Put(s, [v[i]]);
      spaces1, breaks1 := true, breaks;
    } else if IsBreak(v[i]) {
      var s0 := if !breaks && v[i] == '\n' then PutBreak(cfg, s) else s;
      BreakInk(cfg, s, v[i]);
      BreakInk(cfg, s0, v[i]);
      s1, spaces1, breaks1 := WriteBreak(cfg, s0, v[i]), spaces, true;
    } else {
      var s0 := if breaks then WriteIndent(cfg, s) else s;
      PutInk(s0, [v[i]]);
      s1, spaces1, breaks1 := Put(s0, [v[i]]).(indention := false), false, false;
    }
  }

  lemma {:induction false} LiteralInk(cfg: Config, v: string, i: nat, s: Sink, breaks: bool)
    requires i <= |v|
    ensures Ink(LiteralText(cfg, v, i, s, breaks).out) == Ink(s.out) + Ink(v[i..])
    decreases |v| - i
  {
    hide WriteIndent;
    if i < |v| {
      IndentInk(cfg, s);
      InkFrom(v, i);
      OneInk(v[i]);
      if IsBreak(v[i]) {
        BreakInk(cfg, s, v[i]);
        LiteralInk(cfg, v, i + 1, WriteBreak(cfg, s, v[i]), true);
      } else {
        var s1 := if breaks then WriteIndent(cfg, s) else s;
        PutInk(s1, [v[i]]);
        LiteralInk(cfg, v, i + 1, Put(s1, [v[i]]).(indention := false), false);
      }
    }
  }

  lemma {:induction false} FoldedInk(cfg: Config, v: string, i: nat, s: Sink, breaks: bool, leading: bool)
    requires i <= |v|
    ensures Ink(FoldedText(cfg, v, i, s, breaks, leading).out) == Ink(s.out) + Ink(v[i..])
    decreases |v| - i
  {
    hide FoldedText;
    if i < |v| {
      var s1, breaks1, leading1 := FoldedTurn(cfg, v, i, s, breaks, leading);
      FoldedInk(cfg, v, i + 1, s1, breaks1, leading1);
      InkFrom(v, i);
    } else {
      FoldedDone(cfg, v, s, breaks, leading);
    }
  }

  lemma FoldedDone(cfg: Config, v: string, s: Sink, breaks: bool, leading: bool)
    ensures FoldedText(cfg, v, |v|, s, breaks, leading) == s
  {
  }

  lemma FoldedTurn(cfg: Config, v: string, i: nat, s: Sink, breaks: bool, leading: bool) returns (s1: Sink, breaks1: bool, leading1: bool)
    requires i < |v|
    ensures FoldedText(cfg, v, i, s, breaks, leading) == FoldedText(cfg, v, i + 1, s1, breaks1, leading1)
    ensures Ink(s1.out) == Ink(s.out) + if IsLayout(v[i]) then "" else [v[i]]
  {
    hide WriteIndent, Ink, SkipBreaks;
    OneInk(v[i]);
    if IsBreak(v[i]) {
      var s0 := if !breaks && !leading && v[i] == '\n' && !IsBlankz(At(v, SkipBreaks(v, 0))) then PutBreak(cfg, s) else s;
      BreakInk(cfg, s, v[i]);
      BreakInk(cfg, s0, v[i]);
      s1, breaks1, leading1 := WriteBreak(cfg, s0, v[i]), true, leading;
    } else {
      var s0 := if breaks then WriteIndent(cfg, s) else s;
      IndentInk(cfg, s);
      IndentInk(cfg, s0);
      PutInk(s0, [v[i]]);
      leading1 := if breaks then IsBlank(v[i]) else leading;
      var s2 :=
        if !breaks && v[i] == ' ' && At(v, i + 1) != ' ' && s0.column > cfg.bestWidth then WriteIndent(cfg, s0)
        else Put(s0, [v[i]]);
      s1, breaks1 := s2.(indention := false), false;
    }
  }

  lemma BlockInk(m: M, v: string, folded: bool)
    requires v != ""
    ensures Ink(WriteBlock(m, v, folded).sink.out)
      == Ink(m.sink.out) + ((if folded then ">" else "|") + HeaderInk(v, m.settings.bestIndent) + Ink(v))
  {
    hide LiteralText, FoldedText, BlockHints, Ink, HeaderInk, WriteIndicator;
    var b := if folded then ">" else "|";
    var m0 := Indicator(m, b, true, false, false);
    IndicatorInk(m.sink, b, true, false, false);
    OneInk(b[0]);
    HintsInk(m0, v);
    var m1 := BlockHints(m0, v);
    var s := m1.sink.(whitespace := true);
    assert v[0..] == v;
    if folded { FoldedInk(Cfg(m1), v, 0, s, true, true); } else { LiteralInk(Cfg(m1), v, 0, s, true); }
    ThreeParts(Ink(m.sink.out), b, HeaderInk(v, m.settings.bestIndent), Ink(v));
  }

  lemma ThreeParts(a: string, b: string, c: string, d: string)
    ensures ((a + b) + c) + d == a + (b + c + d)
  {
  }

  lemma HintsInk(m: M, v: string)
    requires v != ""
    ensures Ink(BlockHints(m, v).sink.out) == Ink(m.sink.out) + HeaderInk(v, m.settings.bestIndent)
    ensures BlockHints(m, v).settings == m.settings
  {
    hide Ink, WriteIndicator;
    var hint := if 0 <= m.settings.bestIndent <= 9 then ['0' + m.settings.bestIndent as char] else "";
    var m1 := if v[0] == ' ' || IsBreak(v[0]) then Indicator(m, hint, false, false, false) else m;
    IndicatorInk(m.sink, hint, false, false, false);
    if hint != "" { OneInk(hint[0]); } else { EmptyInk(); }
    ChompInk(m1.sink);
  }

  lemma ChompInk(s: Sink)
    ensures Ink(WriteIndicator(s, "-", false, false, false).out) == Ink(s.out) + "-"
    ensures Ink(WriteIndicator(s, "+", false, false, false).out) == Ink(s.out) + "+"
  {
    IndicatorInk(s, "-", false, false, false);
    IndicatorInk(s, "+", false, false, false);
    OneInk('-');
    OneInk('+');
  }

  // ----- Single-quoted -----

  lemma DoubledFrom(v: string, i: nat)
    requires i < |v|
    ensures Ink(Doubled(v[i..])) == (if IsLayout(v[i]) then "" else if v[i] == '\'' then "''" else [v[i]]) + Ink(Doubled(v[i + 1..]))
  {
    assert v[i..][1..] == v[i + 1..];
    InkAppend(if v[i] == '\'' then "''" else [v[i]], Doubled(v[i + 1..]));
    OneInk(v[i]);
    assert Ink("''") == "''" by { assert "''"[1..] == "'" && "'"[1..] == ""; }
  }

  lemma {:induction false} SingleInk(cfg: Config, v: string, ab: bool, i: nat, s: Sink, spaces: bool, breaks: bool)
    requires i <= |v|
    ensures Ink(SingleText(cfg, v, ab, i, s, spaces, breaks).out) == Ink(s.out) + Ink(Doubled(v[i..]))
    decreases |v| - i
  {
    hide SingleText;
    if i < |v| {
      var s1, spaces1, breaks1 := SingleTurn(cfg, v, ab, i, s, spaces, breaks);
      SingleInk(cfg, v, ab, i + 1, s1, spaces1, breaks1);
      DoubledFrom(v, i);
    } else {
      SingleDone(cfg, v, ab, s, spaces, breaks);
    }
  }

  lemma SingleDone(cfg: Config, v: string, ab: bool, s: Sink, spaces: bool, breaks: bool)
    ensures SingleText(cfg, v, ab, |v|, s, spaces, breaks) == s
  {
  }

  lemma SingleTurn(cfg: Config, v: string, ab: bool, i: nat, s: Sink, spaces: bool, breaks: bool) returns (s1: Sink, spaces1: bool, breaks1: bool)
    requires i < |v|
    ensures SingleText(cfg, v, ab, i, s, spaces, breaks) == SingleText(cfg, v, ab, i + 1, s1, spaces1, breaks1)
    ensures Ink(s1.out) == Ink(s.out) + if IsLayout(v[i]) then "" else if v[i] == '\'' then "''" else [v[i]]
  {
    hide WriteIndent, Ink;
    IndentInk(cfg, s);
    OneInk(v[i]);
    if v[i] == ' ' {
      PutInk(s, [v[i]]);
      s1 := if ab && !spaces && s.column > cfg.bestWidth && 0 < i < |v| - 1 && At(v, i + 1) != ' ' then WriteIndent(cfg, s) else Put(s, [v[i]]);
      spaces1, breaks1 := true, breaks;
    } else if IsBreak(v[i]) {
      var s0 := if !breaks && v[i] == '\n' then PutBreak(cfg, s) else s;
      BreakInk(cfg, s, v[i]);
      BreakInk(cfg, s0, v[i]);
      s1, spaces1, breaks1 := WriteBreak(cfg, s0, v[i]), spaces, true;
    } else {
      var s0 := if breaks then WriteIndent(cfg, s) else s;
      var s2 := if v[i] == '\'' then Put(s0, "'") else s0;
      PutInk(s0, "'");
      OneInk('\'');
      PutInk(s2, [v[i]]);
      s1, spaces1, breaks1 := Put(s2, [v[i]]).(indention := false), false, false;
    }
  }

  // ----- Double-quoted -----

  // The writer's escapes are those of the printer.

  lemma {:induction false} DigitsAgree(v: nat, n: nat)
    ensures HexText(v, n) == UpperDigits(v, n)
  {
    if n > 0 {
      DigitsAgree(v / 16, n - 1);
      DigitAgrees(v % 16);
    }
  }

  lemma DigitAgrees(d: int)
    requires 0 <= d < 16
    ensures HexDigit(d) == "0123456789ABCDEF"[d]
  {
  }

  /** The letter, where there is one. */
  lemma LetterAgrees(c: char, k: nat)
    requires k < |ESCAPED| && ESCAPED[k] == c
    ensures EscapeText(c) == ['\\', ESCAPES[k]]
  {
  }

  lemma NoLetter(c: char)
    requires forall k :: 0 <= k < |ESCAPED| ==> ESCAPED[k] != c
    ensures EscapeText(c) == if c as int < 0x100 then "\\x" + HexText(c as int, 2) else if c as int < 0x1_0000 then "\\u" + HexText(c as int, 4) else "\\U" + HexText(c as int, 8)
  {
    hide HexText;
    var e := ESCAPED;
    assert e[0] == '\0' && e[1] == '\U{07}' && e[2] == '\U{08}' && e[3] == '\t' && e[4] == '\n' && e[5] == '\U{0B}' && e[6] == '\U{0C}' && e[7] == '\r';
    assert e[8] == '\U{1B}' && e[9] == '"' && e[10] == '\\' && e[11] == '\U{85}' && e[12] == '\U{A0}' && e[13] == '\U{2028}' && e[14] == '\U{2029}';
  }

  lemma EscapeAgrees(c: char)
    ensures EscapeText(c) == Escape(c)
  {
    hide EscapeText, HexText, UpperDigits;
    DigitsAgree(c as int, 2);
    DigitsAgree(c as int, 4);
    DigitsAgree(c as int, 8);
    if k: nat :| k < |ESCAPED| && ESCAPED[k] == c { LetterAgrees(c, k); } else { NoLetter(c); }
  }

  lemma EscapedAgrees(v: string, i: nat, unicode: bool)
    requires i < |v|
    ensures MustEscape(v, i, unicode) <==> IsEscaped(v, i, unicode)
  {
    BlanksAgree(v[i]);
    var m := "\t\"\\";
    assert m[0] == '\t' && m[1] == '"' && m[2] == '\\';
  }

  lemma {:induction false} DoubleInk(cfg: Config, v: string, ab: bool, i: nat, s: Sink, spaces: bool) returns (marks: seq<bool>)
    requires i <= |v|
    ensures |marks| == |v| - i
    ensures Ink(DoubleText(cfg, v, ab, i, s, spaces).out) == Ink(s.out) + EscapedInk(v, cfg.unicode, i, marks)
    decreases |v| - i
  {
    hide WriteIndent, Ink, EscapeText, MustEscape, Escape, IsEscaped;
    if i >= |v| {
      marks := [];
    } else {
      var mark, s1, spaces1 := DoubleTurn(cfg, v, ab, i, s, spaces);
      var rest := DoubleInk(cfg, v, ab, i + 1, s1, spaces1);
      EscapedAgrees(v, i, cfg.unicode);
      EscapeAgrees(v[i]);
      marks := [mark] + rest;
      assert marks[1..] == rest;
    }
  }

  lemma DoubleTurn(cfg: Config, v: string, ab: bool, i: nat, s: Sink, spaces: bool) returns (mark: bool, s1: Sink, spaces1: bool)
    requires i < |v|
    ensures DoubleText(cfg, v, ab, i, s, spaces) == DoubleText(cfg, v, ab, i + 1, s1, spaces1)
    ensures Ink(s1.out) == Ink(s.out)
      + (if MustEscape(v, i, cfg.unicode) then Ink(EscapeText(v[i])) else if v[i] == ' ' then (if mark then "\\" else "") else [v[i]])
  {
    hide WriteIndent, Ink, EscapeText;
    mark := false;
    if MustEscape(v, i, cfg.unicode) {
      s1, spaces1 := Put(s, EscapeText(v[i])), false;
      PutInk(s, EscapeText(v[i]));
    } else if v[i] == ' ' && ab && !spaces && s.column > cfg.bestWidth && 0 < i < |v| - 1 {
      var s0 := WriteIndent(cfg, s);
      IndentInk(cfg, s);
      PutInk(s0, "\\");
      OneInk('\\');
      mark := v[i + 1] == ' ';
      s1, spaces1 := if mark then Put(s0, "\\") else s0, true;
    } else {
      PutInk(s, [v[i]]);
      OneInk(v[i]);
      s1, spaces1 := Put(s, [v[i]]), v[i] == ' ';
    }
  }

  // ----- Every style -----

  /** Whatever the layout, the writer of a style shows all of the value. */
  lemma ScalarIsShown(m: M, v: string, style: Style, root: bool, simpleKey: bool) returns (ink: string)
    requires !style.Any? && (style.Literal? || style.Folded? ==> v != "")
    ensures ShowsScalar(v, style, m.settings, ink)
    ensures Ink(ProcessScalar(m, v, style, root, simpleKey).sink.out) == Ink(m.sink.out) + ink
  {
    hide Ink, WritePlain, WriteSingleQuoted, WriteDoubleQuoted, WriteBlock, HeaderInk, EscapedInk, Doubled;
    match style {
      case Plain =>
        ink := Ink(v);
        PlainShown(Cfg(m), m.sink, v, !simpleKey);
      case SingleQuoted =>
        ink := "'" + Ink(Doubled(v)) + "'";
        SingleShown(Cfg(m), m.sink, v, !simpleKey);
      case DoubleQuoted =>
        var marks := DoubleShown(Cfg(m), m.sink, v, !simpleKey);
        ink := "\"" + EscapedInk(v, m.settings.unicode, 0, marks) + "\"";
      case Literal =>
        ink := "|" + HeaderInk(v, m.settings.bestIndent) + Ink(v);
        BlockInk(m, v, false);
      case Folded =>
        ink := ">" + HeaderInk(v, m.settings.bestIndent) + Ink(v);
        BlockInk(m, v, true);
    }
  }

  lemma PlainShown(cfg: Config, s: Sink, v: string, ab: bool)
    ensures Ink(WritePlain(cfg, s, v, ab).out) == Ink(s.out) + Ink(v)
  {
    hide Ink, PlainText;
    var s0 := if v != "" && !s.whitespace then Put(s, " ") else s;
    PutSpaceInk(s);
    PlainInk(cfg, v, ab, 0, s0, false, false);
    assert v[0..] == v;
  }

  lemma SingleShown(cfg: Config, s: Sink, v: string, ab: bool)
    ensures Ink(WriteSingleQuoted(cfg, s, v, ab).out) == Ink(s.out) + ("'" + Ink(Doubled(v)) + "'")
  {
    hide Ink, SingleText, Doubled;
    var s0 := WriteIndicator(s, "'", true, false, false);
    var s1 := SingleText(cfg, v, ab, 0, s0, false, false);
    IndicatorInk(s, "'", true, false, false);
    SingleInk(cfg, v, ab, 0, s0, false, false);
    IndicatorInk(s1, "'", false, false, false);
    OneInk('\'');
    assert v[0..] == v;
  }

  lemma DoubleShown(cfg: Config, s: Sink, v: string, ab: bool) returns (marks: seq<bool>)
    ensures |marks| == |v|
    ensures Ink(WriteDoubleQuoted(cfg, s, v, ab).out) == Ink(s.out) + ("\"" + EscapedInk(v, cfg.unicode, 0, marks) + "\"")
  {
    hide Ink, DoubleText, EscapedInk;
    var s0 := WriteIndicator(s, "\"", true, false, false);
    var s1 := DoubleText(cfg, v, ab, 0, s0, false);
    IndicatorInk(s, "\"", true, false, false);
    marks := DoubleInk(cfg, v, ab, 0, s0, false);
    IndicatorInk(s1, "\"", false, false, false);
    OneInk('"');
  }
}
