/** Where blocks stand: a law about the tokens alone. At every token in block context, no block that is still
    open began to the right of it. The scanner keeps it whatever the lexemes, although it inserts
    BLOCK-MAPPING-START and KEY in front of tokens that are queued already. */
module BlockColumns {
  import opened SimpleKeys
  import opened ScanSteps

  predicate BeginsBlock(t: Token) { t.kind.BlockSequenceStart? || t.kind.BlockMappingStart? }

  predicate IsBlockToken(t: Token) { BeginsBlock(t) || t.kind.BlockEnd? }

  /** The blocks open behind a token, and the flow collections. */
  function ColumnsAfter(s: seq<int>, t: Token): seq<int> {
    if BeginsBlock(t) then s + [t.mark.column] else if t.kind.BlockEnd? && s != [] then s[..|s| - 1] else s
  }

  function FlowAfter(n: nat, t: Token): nat {
    if t.kind.FlowSequenceStart? || t.kind.FlowMappingStart? then n + 1
    else if (t.kind.FlowSequenceEnd? || t.kind.FlowMappingEnd?) && n > 0 then n - 1
    else n
  }

  /** The columns of the blocks open after the first `k` tokens, innermost last. */
  function OpenColumns(ts: seq<Token>, k: nat): seq<int>
    requires k <= |ts|
  {
    if k == 0 then [] else ColumnsAfter(OpenColumns(ts, k - 1), ts[k - 1])
  }

  /** How many flow collections are open after the first `k` tokens. */
  function FlowOpen(ts: seq<Token>, k: nat): nat
    requires k <= |ts|
  {
    if k == 0 then 0 else FlowAfter(FlowOpen(ts, k - 1), ts[k - 1])
  }

  predicate NoneRightOf(columns: seq<int>, column: int) { forall i :: 0 <= i < |columns| ==> columns[i] <= column }

  /** The law. */
  ghost predicate InBlocks(ts: seq<Token>) {
    forall k :: 0 <= k < |ts| && FlowOpen(ts, k) == 0 && !ts[k].kind.BlockEnd? ==> NoneRightOf(OpenColumns(ts, k), ts[k].mark.column)
  }

  lemma {:induction false} SamePrefix(a: seq<Token>, b: seq<Token>, k: nat)
    requires k <= |a| && k <= |b| && forall j :: 0 <= j < k ==> a[j] == b[j]
    ensures OpenColumns(a, k) == OpenColumns(b, k) && FlowOpen(a, k) == FlowOpen(b, k)
  {
    if k > 0 { SamePrefix(a, b, k - 1); }
  }

  lemma PrefixInBlocks(ts: seq<Token>, n: nat)
    requires InBlocks(ts) && n <= |ts|
    ensures InBlocks(ts[..n])
  {
    forall k | 0 <= k < n ensures OpenColumns(ts[..n], k) == OpenColumns(ts, k) && FlowOpen(ts[..n], k) == FlowOpen(ts, k) {
      SamePrefix(ts[..n], ts, k);
    }
  }

  lemma LawAt(ts: seq<Token>, k: nat)
    requires InBlocks(ts) && k < |ts| && FlowOpen(ts, k) == 0 && !ts[k].kind.BlockEnd?
    ensures NoneRightOf(OpenColumns(ts, k), ts[k].mark.column)
  {
  }

  /** The next token keeps the law when no open block is to the right of it. */
  lemma NextInBlocks(ts: seq<Token>, t: Token)
    requires InBlocks(ts)
    requires FlowOpen(ts, |ts|) == 0 && !t.kind.BlockEnd? ==> NoneRightOf(OpenColumns(ts, |ts|), t.mark.column)
    ensures InBlocks(ts + [t])
    ensures forall k :: 0 <= k <= |ts| ==> OpenColumns(ts + [t], k) == OpenColumns(ts, k) && FlowOpen(ts + [t], k) == FlowOpen(ts, k)
    ensures OpenColumns(ts + [t], |ts| + 1) == ColumnsAfter(OpenColumns(ts, |ts|), t)
    ensures FlowOpen(ts + [t], |ts| + 1) == FlowAfter(FlowOpen(ts, |ts|), t)
  {
    hide OpenColumns, FlowOpen, InBlocks, NoneRightOf;
    var r := ts + [t];
    forall k | 0 <= k <= |ts| ensures OpenColumns(r, k) == OpenColumns(ts, k) && FlowOpen(r, k) == FlowOpen(ts, k) {
      SamePrefix(r, ts, k);
    }
    forall k | 0 <= k < |r| && FlowOpen(r, k) == 0 && !r[k].kind.BlockEnd? ensures NoneRightOf(OpenColumns(r, k), r[k].mark.column) {
      SamePrefix(r, ts, k);
      if k < |ts| { LawAt(ts, k); }
    }
    LawHolds(r);
    LastColumns(ts, t);
  }

  lemma LawHolds(r: seq<Token>)
    requires forall k :: 0 <= k < |r| && FlowOpen(r, k) == 0 && !r[k].kind.BlockEnd? ==> NoneRightOf(OpenColumns(r, k), r[k].mark.column)
    ensures InBlocks(r)
  {
  }

  lemma LastColumns(ts: seq<Token>, t: Token)
    ensures OpenColumns(ts + [t], |ts| + 1) == ColumnsAfter(OpenColumns(ts, |ts|), t)
    ensures FlowOpen(ts + [t], |ts| + 1) == FlowAfter(FlowOpen(ts, |ts|), t)
  {
    SamePrefix(ts + [t], ts, |ts|);
  }

  /** `r` is `ts` with the tokens `m` inserted at `p`. */
  predicate Inserted(ts: seq<Token>, p: nat, m: seq<Token>, r: seq<Token>)
    requires p <= |ts|
  {
    r == ts[..p] + m + ts[p..]
  }

  /** KEY, perhaps with a block's start in front. */
  predicate IsOpening(m: seq<Token>) {
    || (|m| == 1 && m[0].kind.Key?)
    || (|m| == 2 && m[0].kind.BlockMappingStart? && m[1].kind.Key? && m[0].mark == m[1].mark)
  }

  function NewColumns(m: seq<Token>): seq<int>
    requires IsOpening(m)
  {
    if |m| == 1 then [] else [m[0].mark.column]
  }

  lemma NextToken(a: seq<Token>, j: nat, b: seq<Token>, k: nat, base: seq<int>, more: seq<int>)
    requires j < |a| && k < |b| && a[j] == b[k] && FlowOpen(a, j) == FlowOpen(b, k)
    requires OpenColumns(a, j) == base + more && OpenColumns(b, k) == base && (more != [] ==> !IsBlockToken(b[k]))
    ensures FlowOpen(a, j + 1) == FlowOpen(b, k + 1)
    ensures more == [] ==> OpenColumns(a, j + 1) == OpenColumns(b, k + 1)
    ensures more != [] ==> OpenColumns(a, j + 1) == base + more && OpenColumns(b, k + 1) == base
  {
    assert base + [] == base;
  }

  lemma OpeningColumns(r: seq<Token>, p: nat, m: seq<Token>, i: nat)
    requires IsOpening(m) && p + |m| <= |r| && i <= |m| && forall j :: 0 <= j < |m| ==> r[p + j] == m[j]
    ensures FlowOpen(r, p + i) == FlowOpen(r, p) && OpenColumns(r, p + i) == OpenColumns(r, p) + if i == 0 then [] else NewColumns(m)
    ensures i < |m| ==> r[p + i].mark == m[0].mark
  {
    if i > 0 {
      assert r[p] == m[0];
      assert OpenColumns(r, p + 1) == OpenColumns(r, p) + NewColumns(m);
      if i == 2 { assert r[p + 1] == m[1]; }
    }
  }

  /** Behind the place of insertion everything is inside one more block, if there is one: then no block begins or
      ends there. */
  lemma {:induction false} ShiftedColumns(ts: seq<Token>, p: nat, m: seq<Token>, r: seq<Token>, k: nat)
    requires p <= k <= |ts| && IsOpening(m) && Inserted(ts, p, m, r)
    requires |m| == 2 ==> forall j :: p <= j < |ts| ==> !IsBlockToken(ts[j])
    ensures |r| == |ts| + |m| && FlowOpen(r, k + |m|) == FlowOpen(ts, k) && OpenColumns(r, k + |m|) == OpenColumns(ts, k) + NewColumns(m)
    decreases k
  {
    hide OpenColumns, FlowOpen;
    if k == p {
      SamePrefix(r, ts, p);
      assert forall j :: 0 <= j < |m| ==> r[p + j] == m[j];
      OpeningColumns(r, p, m, |m|);
    } else {
      ShiftedColumns(ts, p, m, r, k - 1);
      NextToken(r, k - 1 + |m|, ts, k - 1, OpenColumns(ts, k - 1), NewColumns(m));
      assert OpenColumns(ts, k) + [] == OpenColumns(ts, k);
    }
  }

  /** In front of the insertion nothing changes, and behind it everything is inside one more block if there is one. */
  ghost predicate Shifted(ts: seq<Token>, p: nat, m: seq<Token>, r: seq<Token>)
    requires p <= |ts| && IsOpening(m) && |r| == |ts| + |m|
  {
    && (forall k :: 0 <= k <= p ==> OpenColumns(r, k) == OpenColumns(ts, k) && FlowOpen(r, k) == FlowOpen(ts, k))
    && (forall k :: p + |m| <= k <= |r| ==> FlowOpen(r, k) == FlowOpen(ts, k - |m|) && OpenColumns(r, k) == OpenColumns(ts, k - |m|) + NewColumns(m))
  }

  lemma InsertShifts(ts: seq<Token>, p: nat, m: seq<Token>, r: seq<Token>)
    requires p <= |ts| && IsOpening(m) && Inserted(ts, p, m, r)
    requires |m| == 2 ==> forall j :: p <= j < |ts| ==> !IsBlockToken(ts[j])
    ensures |r| == |ts| + |m| && Shifted(ts, p, m, r)
  {
    hide OpenColumns, FlowOpen;
    forall k | 0 <= k <= p ensures OpenColumns(r, k) == OpenColumns(ts, k) && FlowOpen(r, k) == FlowOpen(ts, k) {
      SamePrefix(r, ts, k);
    }
    forall k | p + |m| <= k <= |r|
      ensures FlowOpen(r, k) == FlowOpen(ts, k - |m|) && OpenColumns(r, k) == OpenColumns(ts, k - |m|) + NewColumns(m)
    {
      ShiftedColumns(ts, p, m, r, k - |m|);
    }
  }

  /** The insertion keeps the law when nothing behind it is further to the left. */
  lemma InsertInBlocks(ts: seq<Token>, p: nat, m: seq<Token>, r: seq<Token>)
    requires InBlocks(ts) && p <= |ts| && IsOpening(m) && Inserted(ts, p, m, r)
    requires |m| == 2 ==> forall j :: p <= j < |ts| ==> !IsBlockToken(ts[j]) && m[0].mark.column <= ts[j].mark.column
    requires FlowOpen(ts, p) == 0 ==> NoneRightOf(OpenColumns(ts, p), m[0].mark.column)
    ensures InBlocks(r) && |r| == |ts| + |m| && Shifted(ts, p, m, r)
  {
    hide OpenColumns, FlowOpen, Inserted, Shifted;
    InsertShifts(ts, p, m, r);
    forall k | 0 <= k < |r| && FlowOpen(r, k) == 0 && !r[k].kind.BlockEnd? ensures NoneRightOf(OpenColumns(r, k), r[k].mark.column) {
      LawBehind(ts, p, m, r, k);
    }
  }

  lemma LawBehind(ts: seq<Token>, p: nat, m: seq<Token>, r: seq<Token>, k: nat)
    requires InBlocks(ts) && p <= |ts| && IsOpening(m) && Inserted(ts, p, m, r) && |r| == |ts| + |m| && Shifted(ts, p, m, r)
    requires |m| == 2 ==> forall j :: p <= j < |ts| ==> m[0].mark.column <= ts[j].mark.column
    requires FlowOpen(ts, p) == 0 ==> NoneRightOf(OpenColumns(ts, p), m[0].mark.column)
    requires k < |r| && FlowOpen(r, k) == 0 && !r[k].kind.BlockEnd?
    ensures NoneRightOf(OpenColumns(r, k), r[k].mark.column)
  {
    hide OpenColumns, FlowOpen, InBlocks, Shifted, NoneRightOf;
    if k < p {
      InFront(ts, p, m, r, k);
      LawAt(ts, k);
    } else if k < p + |m| {
      InFront(ts, p, m, r, p);
      AtOpening(r, p, m, k - p, OpenColumns(ts, p));
    } else {
      Behind(ts, p, m, r, k);
      LawAt(ts, k - |m|);
      NewIsLeft(m, r[k].mark.column);
      OneMore(OpenColumns(ts, k - |m|), NewColumns(m), r[k].mark.column);
    }
  }

  lemma NewIsLeft(m: seq<Token>, column: int)
    requires IsOpening(m) && (|m| == 2 ==> m[0].mark.column <= column)
    ensures NoneRightOf(NewColumns(m), column)
  {
  }

  lemma OneMore(columns: seq<int>, more: seq<int>, column: int)
    requires NoneRightOf(columns, column) && NoneRightOf(more, column)
    ensures NoneRightOf(columns + more, column)
  {
  }

  lemma AtOpening(r: seq<Token>, p: nat, m: seq<Token>, i: nat, columns: seq<int>)
    requires IsOpening(m) && p + |m| <= |r| && i < |m| && r[p..p + |m|] == m && FlowOpen(r, p + i) == 0
    requires OpenColumns(r, p) == columns && (FlowOpen(r, p) == 0 ==> NoneRightOf(columns, m[0].mark.column))
    ensures NoneRightOf(OpenColumns(r, p + i), r[p + i].mark.column)
  {
    hide OpenColumns, FlowOpen;
    forall j | 0 <= j < |m| ensures r[p + j] == m[j] { assert r[p..p + |m|][j] == m[j]; }
    OpeningColumns(r, p, m, i);
  }

  lemma InFront(ts: seq<Token>, p: nat, m: seq<Token>, r: seq<Token>, k: nat)
    requires k <= p <= |ts| && IsOpening(m) && Inserted(ts, p, m, r) && |r| == |ts| + |m| && Shifted(ts, p, m, r)
    ensures OpenColumns(r, k) == OpenColumns(ts, k) && FlowOpen(r, k) == FlowOpen(ts, k) && (k < p ==> r[k] == ts[k])
  {
    hide OpenColumns, FlowOpen;
  }

  lemma Behind(ts: seq<Token>, p: nat, m: seq<Token>, r: seq<Token>, k: nat)
    requires p <= |ts| && IsOpening(m) && Inserted(ts, p, m, r) && |r| == |ts| + |m| && Shifted(ts, p, m, r) && p + |m| <= k < |r|
    ensures OpenColumns(r, k) == OpenColumns(ts, k - |m|) + NewColumns(m) && FlowOpen(r, k) == FlowOpen(ts, k - |m|) && r[k] == ts[k - |m|]
  {
    hide OpenColumns, FlowOpen;
  }

  // ----- The scanner's stacks -----

  /** The columns on the stack of indentations; -1 stands at the bottom. */
  function Levels(v: View): seq<int> { if v.indents == [] then [] else v.indents[1..] + [v.indent] }

  predicate Rising(indents: seq<int>, indent: int) {
    && (forall i, j :: 0 <= i < j < |indents| ==> indents[i] < indents[j])
    && (forall i :: 0 <= i < |indents| ==> indents[i] < indent)
    && (if indents == [] then indent == -1 else indents[0] == -1)
  }

  /** Both stacks say what the tokens say. */
  ghost predicate Stacked(v: View) {
    && |v.keys.slots| == v.flowLevel + 1 && v.flowLevel == FlowOpen(v.stream, |v.stream|)
    && Levels(v) == OpenColumns(v.stream, |v.stream|) && Rising(v.indents, v.indent)
  }

  /** A possible key was saved at its own flow level, before those inside it. */
  ghost predicate KeysInPlace(v: View) {
    var s := v.keys.slots;
    && (forall i :: 0 <= i < |s| ==> NotBefore(v.mark, s[i].mark) && s[i].number < |v.stream|)
    && (forall i :: 0 <= i < |s| && s[i].possible ==> FlowOpen(v.stream, s[i].number) == i)
    && (forall i, j :: 0 <= i < j < |s| && s[i].possible ==> NotBefore(s[j].mark, s[i].mark) && (s[j].possible ==> s[i].number < s[j].number))
  }

  /** Since a key of the block level was saved, as long as its line has not ended, no block has begun or ended
      and nothing has come further to the left. */
  ghost predicate LineKept(v: View)
    requires v.keys.slots != []
  {
    var key := v.keys.slots[0];
    key.possible && key.mark.line == v.mark.line ==>
      && v.indent <= key.mark.column
      && forall j :: key.number <= j < |v.stream| ==> !IsBlockToken(v.stream[j]) && key.mark.column <= v.stream[j].mark.column
  }

  ghost predicate Law(v: View) { Stacked(v) && InBlocks(v.stream) && KeysInPlace(v) && LineKept(v) }

  /** No level is deeper than where the scanner stands. */
  predicate Aligned(v: View) { v.flowLevel == 0 ==> v.indent <= v.mark.column }

  lemma ScannedLaw(v: View, to: Mark)
    requires Law(v) && NotBefore(to, v.mark)
    ensures Law(ScannedTo(v, to))
  {
    hide InBlocks, OpenColumns, FlowOpen;
  }

  lemma LevelsPop(v: View)
    requires Rising(v.indents, v.indent) && v.indents != []
    ensures var u := v.(indent := v.indents[|v.indents| - 1], indents := v.indents[..|v.indents| - 1]);
      Rising(u.indents, u.indent) && Levels(u) == Levels(v)[..|Levels(v)| - 1] && Levels(v)[|Levels(v)| - 1] == v.indent
  {
  }

  /** `r` is `v` with the innermost `n` blocks closed, which are those to the right of the column. */
  ghost predicate Closes(v: View, r: View, column: int, n: nat) {
    && n <= |Levels(v)| && Levels(r) == Levels(v)[..|Levels(v)| - n] && r.indent <= column
    && r.stream == v.stream + Ends(n, v.mark)
    && (forall i :: 0 <= i < |Levels(v)| - n ==> Levels(v)[i] <= column)
    && (forall i :: |Levels(v)| - n <= i < |Levels(v)| ==> Levels(v)[i] > column)
  }

  lemma ClosesOneMore(v: View, u: View, r: View, column: int, n: nat)
    requires Levels(v) == Levels(u) + [v.indent] && v.indent > column && Closes(u, r, column, n)
    requires u.stream == v.stream + [Token(BlockEnd, v.mark)] && u.mark == v.mark
    ensures Closes(v, r, column, n + 1)
  {
    hide Levels;
    assert [Token(BlockEnd, v.mark)] + Ends(n, v.mark) == Ends(n + 1, v.mark);
    assert (v.stream + [Token(BlockEnd, v.mark)]) + Ends(n, v.mark) == v.stream + Ends(n + 1, v.mark);
  }

  /** `unroll_indent` closes exactly the blocks to the right of the column, innermost first, one BLOCK-END each. */
  lemma {:induction false} UnrollCloses(v: View, column: int) returns (n: nat)
    requires Rising(v.indents, v.indent) && v.flowLevel == 0 && column >= -1
    ensures Closes(v, Unrolled(v, column), column, n)
    decreases |v.indents|
  {
    hide Closes;
    LevelsRise(v);
    if v.indent <= column || v.indents == [] {
      n := 0;
      ClosesNone(v, column);
    } else {
      LevelsPop(v);
      var u := v.(stream := v.stream + [Token(BlockEnd, v.mark)], indent := v.indents[|v.indents| - 1], indents := v.indents[..|v.indents| - 1]);
      n := UnrollCloses(u, column);
      ClosesOneMore(v, u, Unrolled(u, column), column, n);
      n := n + 1;
    }
  }

  lemma ClosesNone(v: View, column: int)
    requires v.indent <= column && forall i :: 0 <= i < |Levels(v)| ==> Levels(v)[i] <= v.indent
    ensures Closes(v, v, column, 0)
  {
    assert v.stream + Ends(0, v.mark) == v.stream;
  }

  function Ends(n: nat, at: Mark): seq<Token> { seq(n, _ => Token(BlockEnd, at)) }

  lemma LevelsRise(v: View)
    requires Rising(v.indents, v.indent)
    ensures forall i :: 0 <= i < |Levels(v)| ==> Levels(v)[i] <= v.indent
    ensures Levels(v) == [] <==> v.indents == []
  {
  }

  /** Blocks that are left are closed. */
  lemma {:induction false} UnrolledStacked(v: View, column: int)
    requires Stacked(v) && InBlocks(v.stream) && KeysInPlace(v) && column >= -1
    ensures var r := Unrolled(v, column); Stacked(r) && InBlocks(r.stream) && KeysInPlace(r) && (v.flowLevel == 0 ==> r.indent <= column)
    decreases |v.indents|
  {
    hide InBlocks, OpenColumns, FlowOpen, NoneRightOf;
    if v.flowLevel == 0 && v.indent > column && v.indents != [] {
      var t := Token(BlockEnd, v.mark);
      LevelsPop(v);
      LevelsRise(v);
      NextInBlocks(v.stream, t);
      UnrolledStacked(v.(stream := v.stream + [t], indent := v.indents[|v.indents| - 1], indents := v.indents[..|v.indents| - 1]), column);
    }
  }

  lemma UnrolledLaw(v: View)
    requires Law(v)
    ensures Law(Unrolled(v, v.mark.column)) && Aligned(Unrolled(v, v.mark.column))
  {
    hide InBlocks, OpenColumns, FlowOpen;
    UnrolledStacked(v, v.mark.column);
    var key := v.keys.slots[0];
    if key.possible && key.mark.line == v.mark.line { assert v.flowLevel > 0 || v.indent <= v.mark.column; }
  }

  // ----- Tokens -----

  predicate IsFlowBracket(kind: Kind) { kind.FlowSequenceStart? || kind.FlowMappingStart? || kind.FlowSequenceEnd? || kind.FlowMappingEnd? }

  lemma NoneRight(v: View, column: int)
    requires Stacked(v) && v.indent <= column
    ensures NoneRightOf(OpenColumns(v.stream, |v.stream|), column)
  {
    LevelsRise(v);
  }

  lemma PutLaw(v: View, kind: Kind, allowed: bool, end: Mark)
    requires Law(v) && Aligned(v) && NotBefore(end, v.mark)
    requires !IsBlockToken(Token(kind, v.mark)) && !IsFlowBracket(kind)
    ensures Law(Put(v, kind, allowed, end))
  {
    hide InBlocks, OpenColumns, FlowOpen, NoneRightOf;
    var t := Token(kind, v.mark);
    if v.flowLevel == 0 { NoneRight(v, v.mark.column); }
    NextInBlocks(v.stream, t);
  }

  lemma GivenUpLaw(v: View)
    requires Stacked(v) && InBlocks(v.stream) && KeysInPlace(v)
    ensures var r := GivenUp(v); Stacked(r) && InBlocks(r.stream) && KeysInPlace(r) && (v.flowLevel == 0 || LineKept(v) ==> LineKept(r))
  {
    hide InBlocks, OpenColumns, FlowOpen;
  }

  lemma ExpiredLaw(v: View, i: nat)
    requires Law(v) && i < |v.keys.slots|
    ensures Law(v.(keys := Expired(v.keys, i)))
  {
    hide InBlocks, OpenColumns, FlowOpen, Rising;
  }

  /** The token with the key saved for it. */
  lemma SavedLaw(v: View, kind: Kind, allowed: bool, end: Mark)
    requires Law(v) && Aligned(v) && NotBefore(end, v.mark) && !IsBlockToken(Token(kind, v.mark)) && !IsFlowBracket(kind)
    ensures Law(Put(KeySaved(v), kind, allowed, end))
  {
    hide InBlocks, OpenColumns, FlowOpen, NoneRightOf;
    if v.allowed {
      var t := Token(kind, v.mark);
      if v.flowLevel == 0 { NoneRight(v, v.mark.column); }
      NextInBlocks(v.stream, t);
    } else {
      PutLaw(v, kind, allowed, end);
    }
  }

  lemma BegunStacked(v: View, kind: Kind)
    requires Stacked(v) && InBlocks(v.stream) && KeysInPlace(v) && Aligned(v) && (kind.BlockSequenceStart? || kind.BlockMappingStart?)
    ensures var r := Begun(v, kind); Stacked(r) && InBlocks(r.stream) && KeysInPlace(r) && Aligned(r)
    ensures v.flowLevel > 0 ==> Begun(v, kind) == v
  {
    hide InBlocks, OpenColumns, FlowOpen, NoneRightOf;
    if Due(v, v.mark.column) {
      NoneRight(v, v.mark.column);
      NextInBlocks(v.stream, Token(kind, v.mark));
    }
  }

  /** A bracket, with the key it may begin. */
  lemma FlowBegunLaw(v: View, x: Lexeme)
    requires Law(v) && Aligned(v) && (x.kind.FlowSequenceStart? || x.kind.FlowMappingStart?) && NotBefore(x.end, v.mark)
    ensures Law(FlowBegun(v, x))
  {
    hide InBlocks, OpenColumns, FlowOpen, NoneRightOf, OnSave;
    var t := Token(x.kind, v.mark);
    if v.flowLevel == 0 { NoneRight(v, v.mark.column); }
    NextInBlocks(v.stream, t);
    BracketSaved(v, t);
    var s := v.(keys := OnSave(v.keys, v.allowed, KeyHere(v)), stream := v.stream + [t]);
    BracketPushed(v, s, x);
  }

  lemma BracketSaved(v: View, t: Token)
    requires Law(v) && Aligned(v) && t.mark == v.mark && !IsBlockToken(t)
    requires forall k :: 0 <= k <= |v.stream| ==> FlowOpen(v.stream + [t], k) == FlowOpen(v.stream, k)
    ensures var s := v.(keys := OnSave(v.keys, v.allowed, KeyHere(v)), stream := v.stream + [t]);
      |s.keys.slots| == |v.keys.slots| && KeysInPlace(s) && LineKept(s)
  {
    hide InBlocks, OpenColumns, FlowOpen, NoneRightOf, Rising;
  }

  lemma BracketPushed(v: View, s: View, x: Lexeme)
    requires Law(v) && (x.kind.FlowSequenceStart? || x.kind.FlowMappingStart?) && NotBefore(x.end, v.mark)
    requires var t := Token(x.kind, v.mark); var c := v.stream + [t];
      && InBlocks(c) && FlowOpen(c, |c|) == v.flowLevel + 1 && OpenColumns(c, |c|) == OpenColumns(v.stream, |v.stream|)
      && s == v.(keys := OnSave(v.keys, v.allowed, KeyHere(v)), stream := c)
    requires |s.keys.slots| == |v.keys.slots| && KeysInPlace(s) && LineKept(s)
    ensures Law(FlowBegun(v, x))
  {
    hide InBlocks, OpenColumns, FlowOpen, NoneRightOf, OnSave, Rising;
  }

  lemma FlowEndedLaw(v: View, x: Lexeme)
    requires Law(v) && Aligned(v) && (x.kind.FlowSequenceEnd? || x.kind.FlowMappingEnd?) && NotBefore(x.end, v.mark)
    ensures Law(FlowEnded(v, x))
  {
    hide InBlocks, OpenColumns, FlowOpen, NoneRightOf;
    if v.flowLevel == 0 { NoneRight(v, v.mark.column); }
    NextInBlocks(v.stream, Token(x.kind, v.mark));
  }

  // ----- Keys that are promoted -----

  function OpeningOf(key: SimpleKey, due: bool): seq<Token> {
    if due then [Token(BlockMappingStart, key.mark), Token(Key, key.mark)] else [Token(Key, key.mark)]
  }

  /** In front of the key's first token. */
  lemma EarlyKey(v: View)
    requires Law(v) && Aligned(v) && Live(Inner(v), v.mark) && Inner(v).number >= v.parsed
    ensures Law(Promoted(v)) && Aligned(Promoted(v))
  {
    hide InBlocks, OpenColumns, FlowOpen, NoneRightOf, Shifted;
    var key := Inner(v);
    var due, p, ts := Due(v, key.mark.column), key.number, v.stream;
    var m, r := OpeningOf(key, due), Promoted(v).stream;
    assert r == ts[..p] + m + ts[p..];
    if v.flowLevel == 0 { NoBlockSince(v, p); }
    InsertInBlocks(ts, p, m, r);
    EarlyStacks(v, m, r);
  }

  /** Nothing has begun or ended since the key. */
  lemma {:induction false} SinceKey(ts: seq<Token>, p: nat, k: nat)
    requires p <= k <= |ts| && forall j :: p <= j < |ts| ==> !IsBlockToken(ts[j])
    ensures OpenColumns(ts, k) == OpenColumns(ts, p)
    decreases k
  {
    if k > p { SinceKey(ts, p, k - 1); }
  }

  lemma NoBlockSince(v: View, p: nat)
    requires Law(v) && v.flowLevel == 0 && Live(Inner(v), v.mark) && p == Inner(v).number
    ensures p < |v.stream| && NoneRightOf(OpenColumns(v.stream, p), Inner(v).mark.column) && OpenColumns(v.stream, p) == Levels(v)
  {
    hide InBlocks, OpenColumns, FlowOpen;
    SinceKey(v.stream, p, |v.stream|);
    NoneRight(v, Inner(v).mark.column);
  }

  lemma EarlyStacks(v: View, m: seq<Token>, r: seq<Token>)
    requires Law(v) && Aligned(v) && Live(Inner(v), v.mark) && v.parsed <= Inner(v).number < |v.stream|
    requires m == OpeningOf(Inner(v), Due(v, Inner(v).mark.column)) && r == Promoted(v).stream && InBlocks(r)
    requires Inserted(v.stream, Inner(v).number, m, r) && |r| == |v.stream| + |m| && Shifted(v.stream, Inner(v).number, m, r)
    ensures Law(Promoted(v)) && Aligned(Promoted(v))
  {
    hide InBlocks, OpenColumns, FlowOpen, NoneRightOf, KeysInPlace;
    EarlyKeys(v, m, r);
    Behind1(v.stream, Inner(v).number, m, r);
    EarlyLine(v, m, r);
  }

  lemma EarlyKeys(v: View, m: seq<Token>, r: seq<Token>)
    requires Law(v) && Live(Inner(v), v.mark) && Inner(v).number >= v.parsed
    requires m == OpeningOf(Inner(v), Due(v, Inner(v).mark.column)) && r == Promoted(v).stream
    requires |r| == |v.stream| + |m| && Shifted(v.stream, Inner(v).number, m, r)
    ensures KeysInPlace(Promoted(v)) && Inner(v).mark.column <= v.mark.column
  {
    hide InBlocks, OpenColumns, FlowOpen, NoneRightOf, Rising;
    Behind1(v.stream, Inner(v).number, m, r);
  }

  lemma EarlyLine(v: View, m: seq<Token>, r: seq<Token>)
    requires Law(v) && Live(Inner(v), v.mark) && Inner(v).number >= v.parsed
    requires m == OpeningOf(Inner(v), Due(v, Inner(v).mark.column)) && r == Promoted(v).stream
    requires Inserted(v.stream, Inner(v).number, m, r) && |r| == |v.stream| + |m|
    ensures LineKept(Promoted(v))
  {
    hide InBlocks, OpenColumns, FlowOpen, NoneRightOf, Rising;
    var p := Inner(v).number;
    assert forall k :: 0 <= k < p ==> r[k] == v.stream[k];
    assert forall k :: p <= k < p + |m| ==> r[k] == m[k - p];
    assert forall k :: p + |m| <= k < |r| ==> r[k] == v.stream[k - |m|];
  }

  lemma Behind1(ts: seq<Token>, p: nat, m: seq<Token>, r: seq<Token>)
    requires p <= |ts| && IsOpening(m) && |r| == |ts| + |m| && Shifted(ts, p, m, r)
    ensures OpenColumns(r, |r|) == OpenColumns(ts, |ts|) + NewColumns(m) && FlowOpen(r, |r|) == FlowOpen(ts, |ts|)
    ensures forall k :: 0 <= k <= p ==> FlowOpen(r, k) == FlowOpen(ts, k)
  {
    hide OpenColumns, FlowOpen;
  }

  /** The key's first token was handed out: KEY and the block's start stand at the end. */
  lemma LateKey(v: View)
    requires Law(v) && Aligned(v) && Live(Inner(v), v.mark) && Inner(v).number < v.parsed
    ensures Law(Promoted(v)) && Aligned(Promoted(v))
  {
    hide InBlocks, OpenColumns, FlowOpen, NoneRightOf;
    var key, ts := Inner(v), v.stream;
    var t, u := Token(Key, key.mark), Token(BlockMappingStart, key.mark);
    if v.flowLevel == 0 { NoneRight(v, key.mark.column); }
    NextInBlocks(ts, t);
    if Due(v, key.mark.column) { NextInBlocks(ts + [t], u); }
  }

  lemma PromotedLaw(v: View)
    requires Law(v) && Aligned(v) && Live(Inner(v), v.mark)
    ensures Law(Promoted(v)) && Aligned(Promoted(v)) && Promoted(v).mark == v.mark
  {
    if Inner(v).number >= v.parsed { EarlyKey(v); } else { LateKey(v); }
  }

  // ----- Whole steps -----

  /** Fetching a lexeme keeps the law. */
  lemma FetchedLaw(v: View, x: Lexeme)
    requires Law(v) && Aligned(v) && Slotted(v) && Accepts(v, x) && NotBefore(x.end, EndOf(x)) && v.mark == x.start
    ensures Law(Fetched(v, x))
  {
    hide Law, KeySaved, GivenUp, Begun, Promoted, FlowBegun, FlowEnded, Put, Unrolled, Expired, Removed;
    match x.kind {
      case StreamEnd => MarkerLaw(v.(mark := NextLine(v.mark)), StreamEnd, NextLine(v.mark)) by { LaterLaw(v, NextLine(v.mark)); }
      case FlowSequenceStart => FlowBegunLaw(v, x);
      case FlowMappingStart => FlowBegunLaw(v, x);
      case FlowSequenceEnd => FlowEndedLaw(v, x);
      case FlowMappingEnd => FlowEndedLaw(v, x);
      case FlowEntry => PlainLaw(v, FlowEntry, true, x.end);
      case BlockEntry => BeginsLaw(v, BlockSequenceStart, BlockEntry, true, x.end);
      case Key => BeginsLaw(v, BlockMappingStart, Key, v.flowLevel == 0, x.end);
      case Value => ValueLaw(v, x.end);
      case BlockScalar => PlainLaw(v, BlockScalar, true, x.end);
      case Alias | Anchor | Tag | FlowScalar | PlainScalar => SavedLaw(v, x.kind, x.breaks, x.end);
      case _ => MarkerLaw(v, x.kind, x.end);
    }
  }

  lemma LaterLaw(v: View, to: Mark)
    requires Law(v) && NotBefore(to, v.mark)
    ensures Law(v.(mark := to))
  {
    hide InBlocks, OpenColumns, FlowOpen;
  }

  lemma PlainLaw(v: View, kind: Kind, allowed: bool, end: Mark)
    requires Law(v) && Aligned(v) && NotBefore(end, v.mark) && !IsBlockToken(Token(kind, v.mark)) && !IsFlowBracket(kind)
    ensures Law(Put(GivenUp(v), kind, allowed, end))
  {
    hide InBlocks, OpenColumns, FlowOpen, Put;
    GivenUpLaw(v);
    PutLaw(GivenUp(v), kind, allowed, end);
  }

  /** `-` and `?`, and a `:` without a simple key. */
  lemma BeginsLaw(v: View, block: Kind, kind: Kind, allowed: bool, end: Mark)
    requires Law(v) && Aligned(v) && NotBefore(end, v.mark) && !IsBlockToken(Token(kind, v.mark)) && !IsFlowBracket(kind)
    requires block.BlockSequenceStart? || block.BlockMappingStart?
    ensures Law(Put(GivenUp(Begun(v, block)), kind, allowed, end))
  {
    hide InBlocks, OpenColumns, FlowOpen, Put;
    BegunStacked(v, block);
    GivenUpLaw(Begun(v, block));
    PutLaw(GivenUp(Begun(v, block)), kind, allowed, end);
  }

  /** The markers of documents and of the end of the stream close every block. */
  lemma MarkerLaw(v: View, kind: Kind, end: Mark)
    requires Law(v) && NotBefore(end, v.mark) && !IsBlockToken(Token(kind, v.mark)) && !IsFlowBracket(kind)
    ensures Law(Put(GivenUp(Unrolled(v, -1)), kind, false, end))
  {
    hide InBlocks, OpenColumns, FlowOpen, Put;
    UnrolledStacked(v, -1);
    GivenUpLaw(Unrolled(v, -1));
    PutLaw(GivenUp(Unrolled(v, -1)), kind, false, end);
  }

  lemma ValueLaw(v: View, end: Mark)
    requires Law(v) && Aligned(v) && NotBefore(end, v.mark)
    ensures Law(if Live(Inner(v), v.mark) then Put(Promoted(v), Value, false, end)
                else Put(Begun(v.(keys := Expired(v.keys, v.flowLevel)), BlockMappingStart), Value, v.flowLevel == 0, end))
  {
    hide InBlocks, OpenColumns, FlowOpen, Put, Promoted;
    if Live(Inner(v), v.mark) {
      PromotedLaw(v);
      PutLaw(Promoted(v), Value, false, end);
    } else {
      var u := v.(keys := Expired(v.keys, v.flowLevel));
      ExpiredLaw(v, v.flowLevel);
      BegunStacked(u, BlockMappingStart);
      PutLaw(Begun(u, BlockMappingStart), Value, v.flowLevel == 0, end);
    }
  }

  /** Whatever the lexeme. */
  lemma StepLaw(v: View, x: Lexeme)
    requires Law(v) && NotBefore(x.start, v.mark) && NotBefore(x.end, EndOf(x)) && Slotted(Closed(v, x)) && Accepts(Closed(v, x), x)
    ensures Law(Fetched(Closed(v, x), x))
  {
    hide Law, Accepts, Fetched;
    ScannedLaw(v, x.start);
    UnrolledLaw(ScannedTo(v, x.start));
    FetchedLaw(Closed(v, x), x);
  }

  /** The first `parsed` tokens are the same, and there are no fewer. */
  predicate Kept(ts: seq<Token>, r: seq<Token>, parsed: nat) { parsed <= |ts| <= |r| && r[..parsed] == ts[..parsed] }

  lemma PutKept(ts: seq<Token>, v: View, parsed: nat, kind: Kind, allowed: bool, end: Mark)
    requires Kept(ts, v.stream, parsed)
    ensures var r := Put(v, kind, allowed, end); Kept(ts, r.stream, parsed) && |r.stream| > |ts| && r.parsed == v.parsed && r.mark == end
  {
  }

  /** What was handed out stays as it was, and there is more behind it. */
  lemma StepExtends(v: View, x: Lexeme)
    requires Slotted(Closed(v, x)) && v.parsed <= |v.stream| && NotBefore(x.end, EndOf(x))
    ensures var r := Fetched(Closed(v, x), x);
      && r.parsed == v.parsed && |r.stream| > |v.stream| && r.stream[..v.parsed] == v.stream[..v.parsed]
      && NotBefore(x.end, r.mark)
  {
    hide Unrolled, Removed, Expired, Popped, Pushed, OnSave, WithKey, Rolled, Put, Kept;
    var c, p := Closed(v, x), v.parsed;
    assert Kept(v.stream, c.stream, p) by {
      KeptAtFirst(v.stream, p);
      UnrolledExtends(v.stream, ScannedTo(v, x.start), x.start.column, p);
    }
    FetchedKept(v.stream, c, x, p);
    KeptIs(v.stream, Fetched(c, x).stream, p);
  }

  lemma KeptAtFirst(ts: seq<Token>, parsed: nat)
    requires parsed <= |ts|
    ensures Kept(ts, ts, parsed)
  {
  }

  lemma KeptIs(ts: seq<Token>, r: seq<Token>, parsed: nat)
    requires Kept(ts, r, parsed)
    ensures |ts| <= |r| && r[..parsed] == ts[..parsed]
  {
  }

  lemma FetchedKept(ts: seq<Token>, c: View, x: Lexeme, p: nat)
    requires Slotted(c) && Kept(ts, c.stream, p) && c.parsed == p && c.mark == x.start && NotBefore(x.end, EndOf(x))
    ensures var r := Fetched(c, x); Kept(ts, r.stream, p) && |r.stream| > |ts| && r.parsed == p && NotBefore(x.end, r.mark)
  {
    hide Unrolled, Removed, Expired, Popped, Pushed, OnSave, WithKey, Rolled, Put, Kept, Begun, Promoted, FlowBegun, FlowEnded;
    match x.kind {
      case StreamEnd => MarkerKept(ts, c.(mark := NextLine(c.mark)), p, StreamEnd, NextLine(c.mark));
      case FlowSequenceStart => BracketKept(ts, c, x, p);
      case FlowMappingStart => BracketKept(ts, c, x, p);
      case FlowSequenceEnd => BracketKept(ts, c, x, p);
      case FlowMappingEnd => BracketKept(ts, c, x, p);
      case FlowEntry => PutKept(ts, GivenUp(c), p, FlowEntry, true, x.end);
      case BlockEntry => BeginsKept(ts, c, p, BlockSequenceStart, BlockEntry, true, x.end);
      case Key => BeginsKept(ts, c, p, BlockMappingStart, Key, c.flowLevel == 0, x.end);
      case Value => ValueKept(ts, c, x, p);
      case BlockScalar => PutKept(ts, GivenUp(c), p, BlockScalar, true, x.end);
      case Alias | Anchor | Tag | FlowScalar | PlainScalar => PutKept(ts, KeySaved(c), p, x.kind, x.breaks, x.end);
      case _ => MarkerKept(ts, c, p, x.kind, x.end);
    }
  }

  lemma MarkerKept(ts: seq<Token>, c: View, p: nat, kind: Kind, end: Mark)
    requires c.keys.slots != [] && Kept(ts, c.stream, p)
    ensures var r := Put(GivenUp(Unrolled(c, -1)), kind, false, end);
      Kept(ts, r.stream, p) && |r.stream| > |ts| && r.parsed == c.parsed && r.mark == end
  {
    hide Unrolled, Removed, Put, Kept;
    UnrolledExtends(ts, c, -1, p);
    PutKept(ts, GivenUp(Unrolled(c, -1)), p, kind, false, end);
  }

  lemma BeginsKept(ts: seq<Token>, c: View, p: nat, block: Kind, kind: Kind, allowed: bool, end: Mark)
    requires c.keys.slots != [] && Kept(ts, c.stream, p)
    ensures var r := Put(GivenUp(Begun(c, block)), kind, allowed, end);
      Kept(ts, r.stream, p) && |r.stream| > |ts| && r.parsed == c.parsed && r.mark == end
  {
    hide Removed, Put, Kept, Rolled;
    RolledExtends(ts, c.stream, p, Due(c, c.mark.column), block, c.mark);
    PutKept(ts, GivenUp(Begun(c, block)), p, kind, allowed, end);
  }

  lemma BracketKept(ts: seq<Token>, c: View, x: Lexeme, p: nat)
    requires c.keys.slots != [] && Kept(ts, c.stream, p) && c.parsed == p
    ensures var r := FlowBegun(c, x); Kept(ts, r.stream, p) && |r.stream| > |ts| && r.parsed == p && r.mark == x.end
    ensures var r := FlowEnded(c, x); Kept(ts, r.stream, p) && |r.stream| > |ts| && r.parsed == p && r.mark == x.end
  {
    hide Removed, Popped, Pushed, OnSave;
  }

  lemma ValueKept(ts: seq<Token>, c: View, x: Lexeme, p: nat)
    requires Slotted(c) && Kept(ts, c.stream, p) && c.parsed == p && x.kind.Value?
    ensures var r := Fetched(c, x); Kept(ts, r.stream, p) && |r.stream| > |ts| && r.parsed == p && r.mark == x.end
  {
    hide Unrolled, Removed, Expired, Popped, Pushed, OnSave, WithKey, Rolled, Put, Kept;
    if Live(Inner(c), c.mark) {
      WithKeyExtends(ts, c.stream, p, Inner(c), Due(c, Inner(c).mark.column));
      PutKept(ts, Promoted(c), p, Value, false, x.end);
    } else {
      var u := c.(keys := Expired(c.keys, c.flowLevel));
      RolledExtends(ts, c.stream, p, Due(u, c.mark.column), BlockMappingStart, c.mark);
      PutKept(ts, Begun(u, BlockMappingStart), p, Value, c.flowLevel == 0, x.end);
    }
  }

  lemma RolledExtends(ts: seq<Token>, r: seq<Token>, parsed: nat, due: bool, kind: Kind, at: Mark)
    requires Kept(ts, r, parsed)
    ensures Kept(ts, Rolled(r, due, kind, at), parsed)
  {
  }

  lemma UnrolledExtends(ts: seq<Token>, v: View, column: int, parsed: nat)
    requires Kept(ts, v.stream, parsed)
    ensures Kept(ts, Unrolled(v, column).stream, parsed)
  {
  }

  lemma WithKeyExtends(ts: seq<Token>, r: seq<Token>, parsed: nat, key: SimpleKey, due: bool)
    requires Kept(ts, r, parsed) && key.number <= |r|
    ensures Kept(ts, WithKey(r, parsed, key, due), parsed)
  {
  }

  /** Handing out a token, and giving up a key for it. */
  lemma TakenLaw(v: View, i: nat)
    requires Law(v) && i < |v.keys.slots|
    ensures Law(v.(parsed := v.parsed + 1)) && Law(v.(parsed := v.parsed + 1, keys := Expired(v.keys, i)))
  {
    hide Law, Expired;
    HandedLaw(v);
    ExpiredLaw(v.(parsed := v.parsed + 1), i);
  }

  lemma HandedLaw(v: View)
    requires Law(v)
    ensures Law(v.(parsed := v.parsed + 1))
  {
    hide InBlocks, OpenColumns, FlowOpen, Rising;
  }

  // ----- Nothing is lost -----

  /** The tokens that stand for lexemes: all but KEY and those of blocks. */
  function Lexemes(ts: seq<Token>): seq<Token> {
    if ts == [] then []
    else Lexemes(ts[..|ts| - 1]) + if IsBlockToken(ts[|ts| - 1]) || ts[|ts| - 1].kind.Key? then [] else [ts[|ts| - 1]]
  }

  lemma {:induction false} LexemesConcat(a: seq<Token>, b: seq<Token>)
    ensures Lexemes(a + b) == Lexemes(a) + Lexemes(b)
  {
    if b == [] {
      assert a + b == a;
    } else {
      var c := b[..|b| - 1];
      LexemesConcat(a, c);
      assert (a + b)[..|a + b| - 1] == a + c;
    }
  }

  lemma {:induction false} NoLexemes(ts: seq<Token>)
    requires forall i :: 0 <= i < |ts| ==> IsBlockToken(ts[i]) || ts[i].kind.Key?
    ensures Lexemes(ts) == []
  {
    if ts != [] { NoLexemes(ts[..|ts| - 1]); }
  }

  /** Inserting KEY and a block's start. */
  lemma WithKeyLexemes(ts: seq<Token>, parsed: nat, key: SimpleKey, due: bool)
    requires key.number <= |ts|
    ensures Lexemes(WithKey(ts, parsed, key, due)) == Lexemes(ts)
  {
    hide Lexemes;
    var p, r := key.number, WithKey(ts, parsed, key, due);
    var m := OpeningOf(key, due);
    if key.number >= parsed {
      assert r == ts[..p] + m + ts[p..] && ts == ts[..p] + ts[p..];
      LexemesConcat(ts[..p], m);
      LexemesConcat(ts[..p] + m, ts[p..]);
      LexemesConcat(ts[..p], ts[p..]);
    } else {
      m := if due then [Token(Key, key.mark), Token(BlockMappingStart, key.mark)] else [Token(Key, key.mark)];
      assert r == ts + m;
      LexemesConcat(ts, m);
    }
    NoLexemes(m);
  }

  lemma {:induction false} UnrolledLexemes(v: View, column: int)
    ensures Lexemes(Unrolled(v, column).stream) == Lexemes(v.stream)
    decreases |v.indents|
  {
    hide Lexemes;
    if !(v.flowLevel > 0 || v.indent <= column || v.indents == []) {
      var t := Token(BlockEnd, v.mark);
      LexemesConcat(v.stream, [t]);
      NoLexemes([t]);
      UnrolledLexemes(v.(stream := v.stream + [t], indent := v.indents[|v.indents| - 1], indents := v.indents[..|v.indents| - 1]), column);
    }
  }

  /** The token of a lexeme. */
  function TokenOf(x: Lexeme): Token { Token(x.kind, if x.kind.StreamEnd? then NextLine(x.start) else x.start) }

  /** A lexeme adds its own token, at its place in the text, and else only KEY and tokens of blocks. */
  lemma StepLexemes(v: View, x: Lexeme)
    requires Slotted(Closed(v, x)) && Accepts(Closed(v, x), x)
    ensures Lexemes(Fetched(Closed(v, x), x).stream) == Lexemes(v.stream) + if x.kind.Key? then [] else [TokenOf(x)]
  {
    hide Lexemes, Unrolled, WithKey, Removed, Expired, Popped, Pushed, OnSave;
    var c := Closed(v, x);
    UnrolledLexemes(ScannedTo(v, x.start), x.start.column);
    UnrolledLexemes(c, -1);
    UnrolledLexemes(c.(mark := NextLine(c.mark)), -1);
    WithKeyLexemes(c.stream, c.parsed, Inner(c), Due(c, Inner(c).mark.column));
    RolledLexemes(c.stream, c.mark);
    LastLexeme();
  }

  lemma RolledLexemes(ts: seq<Token>, at: Mark)
    ensures forall due: bool :: Lexemes(Rolled(ts, due, BlockMappingStart, at)) == Lexemes(ts) == Lexemes(Rolled(ts, due, BlockSequenceStart, at))
  {
    hide Lexemes;
    forall kind: Kind | kind.BlockMappingStart? || kind.BlockSequenceStart? ensures Lexemes(ts + [Token(kind, at)]) == Lexemes(ts) {
      LexemesConcat(ts, [Token(kind, at)]);
      NoLexemes([Token(kind, at)]);
    }
  }

  lemma LastLexeme()
    ensures forall ts: seq<Token>, t: Token :: Lexemes(ts + [t]) == Lexemes(ts) + if IsBlockToken(t) || t.kind.Key? then [] else [t]
  {
    forall ts: seq<Token>, t: Token ensures Lexemes(ts + [t]) == Lexemes(ts) + if IsBlockToken(t) || t.kind.Key? then [] else [t] {
      assert (ts + [t])[..|ts + [t]| - 1] == ts;
    }
  }
}
