/** Where the entries of block collections stand in print: each in the column of its collection's indentation, on a
    line of its own unless nothing but indicators stands in front of it; and how deep the indentation goes. */
module BlockLayout {
  import opened Chars
  import opened Options
  import opened Events
  import opened ScalarEmitter
  import opened EmitterMachine
  import opened EmitterGrammar
  import opened EmittedText

  /** Spaces and line breaks only. */
  predicate IsLayout(x: string) { forall i :: 0 <= i < |x| ==> x[i] == ' ' || IsBreak(x[i]) }

  /** The indentation that a collection opens: a new level is two columns deeper in a block sequence, and otherwise goes
      on to the next multiple of the configured indentation; at the top a block collection is not indented. */
  lemma DeeperIs(m: M, flow: bool)
    requires 2 <= m.settings.bestIndent <= 9 && m.indent >= -1
    ensures var n, best := Deeper(m, flow), m.settings.bestIndent;
      if m.indent < 0 then n == if flow then best else 0
      else if m.states != [] && m.states[|m.states| - 1].BlockSequenceItem? then n == m.indent + 2
      else (exists k :: n == Times(k, best)) && m.indent < n <= m.indent + best
  {
    if m.indent >= 0 {
      var best := m.settings.bestIndent;
      var i, k := m.indent + best, (m.indent + best) / best;
      assert i == best * k + i % best && 0 <= i % best < best;
      assert Times(k, best) == best * k;
    }
  }

  function Times(k: int, n: int): int { k * n }

  /** `s` is what the sink comes to: layout only, up to the column; a new line if there was text on the old one. */
  predicate Reaches(from: Sink, s: Sink, column: int) {
    && from.out <= s.out && s.column == column
    && var x := s.out[|from.out|..]; IsLayout(x) && (!from.indention ==> exists i :: 0 <= i < |x| && IsBreak(x[i]))
  }

  lemma IndentReaches(cfg: Config, s: Sink)
    ensures Reaches(s, WriteIndent(cfg, s), IndentOf(cfg))
  {
    var n := IndentOf(cfg);
    var one := !s.indention || s.column > n || (s.column == n && !s.whitespace);
    var s1 := if one then PutBreak(cfg, s) else s;
    var two := s1.footIndent == n;
    var s2 := if two then PutBreak(cfg, s1) else s1;
    PadIsSpaces(s2, n);
    BreaksAre(cfg.lineBreak);
    var b1, b2 := if one then BreakText(cfg.lineBreak) else "", if two then BreakText(cfg.lineBreak) else "";
    LayoutJoins(s.out, b1, b2, Spaces(n - s2.column));
    assert s1.out == s.out + b1 && s2.out == s1.out + b2;
    assert WriteIndent(cfg, s).out == ((s.out + b1) + b2) + Spaces(n - s2.column);
  }

  lemma BreaksAre(b: LineBreak)
    ensures IsLayout(BreakText(b)) && BreakText(b) != "" && IsBreak(BreakText(b)[0])
  {
  }

  lemma LayoutJoins(out: string, a: string, b: string, c: string)
    requires IsLayout(a) && IsLayout(b) && IsLayout(c)
    ensures var r := ((out + a) + b) + c;
      out <= r && IsLayout(r[|out|..]) && (a != "" ==> r[|out|..] != "" && r[|out|..][0] == a[0])
  {
    assert (((out + a) + b) + c)[|out|..] == a + b + c;
  }

  // ----- Entries -----

  predicate IsEntryState(s: EmitterState) {
    || s.BlockSequenceFirstItem? || s.BlockSequenceItem? || s.BlockMappingFirstKey? || s.BlockMappingKey? || s.BlockMappingValue?
  }

  /** The indentation of the collection that the entry belongs to. */
  function Level(m: M): int
    requires m.settings.bestIndent > 0
  {
    if m.state.BlockSequenceFirstItem? || m.state.BlockMappingFirstKey? then Deeper(m, false) else m.indent
  }

  /** The indicator that an entry begins with; none for a simple key. */
  ghost function Indicates(m: M, e: Event, d: Data, next: Option<Event>): string {
    if m.state.BlockSequenceFirstItem? || m.state.BlockSequenceItem? then "-"
    else if m.state.BlockMappingValue? then ":"
    else if IsSimpleKey(m, e, d, next) then ""
    else "?"
  }

  /** `r` is `m` after the event: the column is reached, the indicator printed there, and then the node. */
  ghost predicate Stands(m: M, e: Event, d: Data, next: Option<Event>, r: M)
    requires m.settings.bestIndent > 0
  {
    exists s: Sink :: Reaches(m.sink, s, Level(m)) && s.out + Indicates(m, e, d, next) <= r.sink.out
  }

  lemma EntryPrinted(m: M, m0: M, e: Event, d: Data, next: Option<Event>, x: string, c: EmitterState, simple: bool)
    requires m.settings.bestIndent > 0 && m0.sink == m.sink && m0.indent == Level(m) >= 0 && m0.settings == m.settings && x == Indicates(m, e, d, next)
    requires var p := PushState(if x == "" then Indent(m0) else Indicator(Indent(m0), x, true, false, true), c);
      EmitNode(p, e, d, next, false, simple).Done?
    ensures var p := PushState(if x == "" then Indent(m0) else Indicator(Indent(m0), x, true, false, true), c);
      Stands(m, e, d, next, EmitNode(p, e, d, next, false, simple).next)
  {
    hide EmitNode, Reaches, Deeper, IsSimpleKey, Indicates;
    IndentReaches(Cfg(m0), m.sink);
    var s := WriteIndent(Cfg(m0), m.sink);
    var q := if x == "" then Indent(m0) else Indicator(Indent(m0), x, true, false, true);
    IndicatorAt(s, x);
    NodeGrows(PushState(q, c), e, d, next, false, simple);
    assert Reaches(m.sink, s, Level(m)) && s.out + x <= EmitNode(PushState(q, c), e, d, next, false, simple).next.sink.out;
  }

  /** Behind the indentation no blank comes first. */
  lemma IndicatorAt(s: Sink, x: string)
    requires s.whitespace
    ensures WriteIndicator(s, x, true, false, true).out == s.out + x
    ensures s.out + "" == s.out
  {
  }

  /** Every entry of a block collection begins in the column of the collection's indentation, behind nothing but layout. */
  lemma BlockEntryStands(m: M, e: Event, d: Data, next: Option<Event>)
    requires Coherent(m) && IsEntryState(m.state) && !e.SequenceEnd? && !e.MappingEnd? && m.settings.bestIndent > 0
    requires AnalyzeEvent(m, e) == Some(d) && EmitEvent(m, e, next).Done?
    ensures Stands(m, e, d, next, EmitEvent(m, e, next).next)
  {
    hide EmitNode, Stands, AnalyzeEvent, WriteIndent, WriteIndicator, Deeper, IsSimpleKey;
    LevelIs(m);
    var first := m.state.BlockSequenceFirstItem? || m.state.BlockMappingFirstKey?;
    var m0 := if first then m.(indents := m.indents + [m.indent], indent := Deeper(m, false)) else m;
    SameKey(m, m0, e, d, next);
    match m.state {
      case BlockSequenceFirstItem => EntryPrinted(m, m0, e, d, next, "-", BlockSequenceItem, false);
      case BlockSequenceItem => EntryPrinted(m, m0, e, d, next, "-", BlockSequenceItem, false);
      case BlockMappingFirstKey => KeyPrinted(m, m0, e, d, next);
      case BlockMappingKey => KeyPrinted(m, m0, e, d, next);
      case BlockMappingValue => EntryPrinted(m, m0, e, d, next, ":", BlockMappingKey, false);
      case _ =>
    }
  }

  lemma LevelIs(m: M)
    requires Coherent(m) && IsEntryState(m.state) && m.settings.bestIndent > 0
    ensures Level(m) >= 0
  {
    hide Deeper, FlowCount, NoBlockInFlow;
    LadderFloor(m.indents, m.indent);
    if m.state.BlockSequenceFirstItem? || m.state.BlockMappingFirstKey? { DeeperRises(m, false); } else { assert m.indents[0] < m.indent; }
  }

  lemma SameKey(m: M, m0: M, e: Event, d: Data, next: Option<Event>)
    ensures IsSimpleKey(m0, e, d, next) == IsSimpleKey(m, e, d, next) && IsSimpleKey(Indent(m0), e, d, next) == IsSimpleKey(m, e, d, next)
  {
  }

  lemma KeyPrinted(m: M, m0: M, e: Event, d: Data, next: Option<Event>)
    requires m.settings.bestIndent > 0 && m0.sink == m.sink && m0.indent == Level(m) >= 0 && m0.settings == m.settings
    requires m.state.BlockMappingFirstKey? || m.state.BlockMappingKey?
    requires !e.MappingEnd? && IsSimpleKey(Indent(m0), e, d, next) == IsSimpleKey(m, e, d, next) && BlockMappingEntry(m0, e, d, next).Done?
    ensures Stands(m, e, d, next, BlockMappingEntry(m0, e, d, next).next)
  {
    hide EmitNode, Stands, WriteIndent, WriteIndicator, Deeper, IsSimpleKey;
    if IsSimpleKey(m, e, d, next) {
      EntryPrinted(m, m0, e, d, next, "", BlockMappingSimpleValue, true);
    } else {
      EntryPrinted(m, m0, e, d, next, "?", BlockMappingValue, false);
    }
  }

  // ----- Literal scalars -----

  /** A line break as it is printed: LF as the configured one, any other as it is. */
  function BreakOf(cfg: Config, c: char): string { if c == '\n' then BreakText(cfg.lineBreak) else [c] }

  /** The lines of a value from `i` on, each indented where it holds anything. */
  function IndentedLines(cfg: Config, v: string, i: nat, start: bool): string
    decreases |v| - i
  {
    if i >= |v| then ""
    else if IsBreak(v[i]) then BreakOf(cfg, v[i]) + IndentedLines(cfg, v, i + 1, true)
    else (if start then Spaces(IndentOf(cfg)) else "") + [v[i]] + IndentedLines(cfg, v, i + 1, false)
  }

  lemma {:induction false} LiteralLines(cfg: Config, v: string, i: nat, s: Sink, start: bool)
    requires s.whitespace && s.footIndent == -1 && (start ==> s.column == 0 && s.indention)
    ensures LiteralText(cfg, v, i, s, start).out == s.out + IndentedLines(cfg, v, i, start)
    decreases |v| - i
  {
    hide WriteIndent, IsBreak, BreakText, Spaces;
    if i >= |v| {
      assert s.out + "" == s.out;
    } else if IsBreak(v[i]) {
      BreakPrinted(cfg, s, v[i]);
      LiteralLines(cfg, v, i + 1, WriteBreak(cfg, s, v[i]), true);
      Regroup(s.out, BreakOf(cfg, v[i]), "", IndentedLines(cfg, v, i + 1, true));
    } else {
      var x := if start then Spaces(IndentOf(cfg)) else "";
      var s1 := if start then WriteIndent(cfg, s) else s;
      if start { OnlyPads(cfg, s); }
      LiteralLines(cfg, v, i + 1, Put(s1, [v[i]]).(indention := false), false);
      Regroup(s.out, x, [v[i]], IndentedLines(cfg, v, i + 1, false));
    }
  }

  lemma Regroup(a: string, b: string, c: string, d: string)
    ensures ((a + b) + c) + d == a + (b + c + d)
    ensures a + "" == a && (a + b) + d == a + (b + d)
  {
  }

  lemma BreakPrinted(cfg: Config, s: Sink, c: char)
    ensures var r := WriteBreak(cfg, s, c);
      r.out == s.out + BreakOf(cfg, c) && r.column == 0 && r.indention && r.whitespace == s.whitespace && r.footIndent == s.footIndent
  {
  }

  lemma OnlyPads(cfg: Config, s: Sink)
    requires s.whitespace && s.footIndent == -1 && s.column == 0 && s.indention
    ensures var r := WriteIndent(cfg, s); r.out == s.out + Spaces(IndentOf(cfg)) && r.whitespace && r.footIndent == -1
  {
    PadIsSpaces(s, IndentOf(cfg));
  }

  /** A literal scalar: behind its header a new line, unless the value begins with a break, and then the lines of the
      value, each indented where it holds anything. */
  lemma LiteralIs(m: M, v: string)
    requires v != "" && m.sink.footIndent == -1
    ensures var h := BlockHints(Indicator(m, "|", true, false, false), v);
      WriteBlock(m, v, false).sink.out
      == h.sink.out + (if IsBreak(v[0]) then "" else BreakText(m.settings.lineBreak)) + IndentedLines(Cfg(m), v, 0, true)
  {
    hide IndentedLines, LiteralText, WriteIndent;
    var h := BlockHints(Indicator(m, "|", true, false, false), v);
    HeaderKeeps(m, v);
    var s, cfg := h.sink.(whitespace := true), Cfg(m);
    assert Cfg(h) == cfg;
    if IsBreak(v[0]) {
      BreaksFirst(cfg, v, s);
      LiteralLines(cfg, v, 1, WriteBreak(cfg, s, v[0]), true);
    } else {
      TextFirst(cfg, v, s);
      LiteralLines(cfg, v, 1, Put(WriteIndent(cfg, s), [v[0]]).(indention := false), false);
    }
  }

  /** The header leaves settings and indentation, and text on its line. */
  lemma HeaderKeeps(m: M, v: string)
    requires v != ""
    ensures var h := BlockHints(Indicator(m, "|", true, false, false), v);
      h.settings == m.settings && h.indent == m.indent && h.sink.footIndent == m.sink.footIndent && !h.sink.indention
  {
  }

  lemma BreaksFirst(cfg: Config, v: string, s: Sink)
    requires v != "" && IsBreak(v[0]) && s.whitespace && s.footIndent == -1
    ensures LiteralText(cfg, v, 0, s, true) == LiteralText(cfg, v, 1, WriteBreak(cfg, s, v[0]), true)
    ensures forall x: string :: x == IndentedLines(cfg, v, 1, true) ==> WriteBreak(cfg, s, v[0]).out + x == s.out + "" + IndentedLines(cfg, v, 0, true)
  {
    assert IndentedLines(cfg, v, 0, true) == BreakOf(cfg, v[0]) + IndentedLines(cfg, v, 1, true);
  }

  lemma TextFirst(cfg: Config, v: string, s: Sink)
    requires v != "" && !IsBreak(v[0]) && s.whitespace && s.footIndent == -1 && !s.indention
    ensures var r := Put(WriteIndent(cfg, s), [v[0]]).(indention := false);
      && r.whitespace && r.footIndent == -1 && LiteralText(cfg, v, 0, s, true) == LiteralText(cfg, v, 1, r, false)
      && r.out + IndentedLines(cfg, v, 1, false) == s.out + BreakText(cfg.lineBreak) + IndentedLines(cfg, v, 0, true)
  {
    PadIsSpaces(PutBreak(cfg, s), IndentOf(cfg));
    assert IndentedLines(cfg, v, 0, true) == Spaces(IndentOf(cfg)) + [v[0]] + IndentedLines(cfg, v, 1, false);
  }
}
