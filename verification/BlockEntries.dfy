/** What stands where in block context: laws about the tokens alone, kept by the scanner whatever the lexemes.
    A block starts right in front of its first entry, and in its column; entries stand in the column of the innermost
    open block; a value that does not has its key on the same line, in that column; and a block is closed only when
    something to the left of it comes, or the marker of a document. */
module BlockEntries {
  import opened SimpleKeys
  import opened ScanSteps
  import opened BlockColumns

  predicate IsEntry(kind: Kind) { kind.BlockEntry? || kind.Key? || kind.Value? }

  predicate IsMarker(kind: Kind) { kind.StreamEnd? || kind.Directive? || kind.DocumentStart? || kind.DocumentEnd? }

  predicate InBlock(ts: seq<Token>, k: nat)
    requires k <= |ts|
  {
    FlowOpen(ts, k) == 0
  }

  /** The innermost open block begins in this column. */
  predicate Innermost(ts: seq<Token>, k: nat, column: int)
    requires k <= |ts|
  {
    var columns := OpenColumns(ts, k);
    columns != [] && columns[|columns| - 1] == column
  }

  /** The start of a block mapping behind its KEY: the key's token was handed out already. */
  predicate IsLate(ts: seq<Token>, k: nat)
    requires k < |ts|
  {
    ts[k].kind.Key? && k + 1 < |ts| && ts[k + 1] == Token(BlockMappingStart, ts[k].mark)
  }

  predicate StartsRight(ts: seq<Token>, k: nat)
    requires k < |ts|
  {
    && (ts[k].kind.BlockSequenceStart? ==> k + 1 < |ts| && ts[k + 1] == Token(BlockEntry, ts[k].mark))
    && (ts[k].kind.BlockMappingStart? ==>
          || (k + 1 < |ts| && (ts[k + 1] == Token(Key, ts[k].mark) || ts[k + 1] == Token(Value, ts[k].mark)))
          || (k > 0 && IsLate(ts, k - 1)))
  }

  /** Nothing but ends of blocks up to the marker of a document. */
  predicate BeforeMarker(ts: seq<Token>, k: nat) {
    exists m :: k < m < |ts| && IsMarker(ts[m].kind) && forall l :: k <= l < m ==> ts[l].kind.BlockEnd?
  }

  predicate EndsRight(ts: seq<Token>, k: nat)
    requires k < |ts|
  {
    ts[k].kind.BlockEnd? ==>
      var columns := OpenColumns(ts, k);
      columns != [] && (columns[|columns| - 1] > ts[k].mark.column || BeforeMarker(ts, k))
  }

  predicate EntryStands(ts: seq<Token>, k: nat)
    requires k < |ts|
  {
    InBlock(ts, k) && (ts[k].kind.BlockEntry? || ts[k].kind.Key?) ==> Innermost(ts, k, ts[k].mark.column) || IsLate(ts, k)
  }

  /** `j` is the KEY of the VALUE `k`: on the same line, and not too far in front. */
  predicate IsKeyOf(ts: seq<Token>, j: nat, k: nat)
    requires j < k < |ts|
  {
    && ts[j].kind.Key? && InBlock(ts, j) && Innermost(ts, k, ts[j].mark.column)
    && ts[j].mark.line == ts[k].mark.line && ts[k].mark.index <= ts[j].mark.index + 1024
    && forall l :: j < l < k && InBlock(ts, l) ==> !IsEntry(ts[l].kind)
  }

  predicate ValueStands(ts: seq<Token>, k: nat)
    requires k < |ts|
  {
    InBlock(ts, k) && ts[k].kind.Value? ==> Innermost(ts, k, ts[k].mark.column) || exists j :: 0 <= j < k && IsKeyOf(ts, j, k)
  }

  predicate Right(ts: seq<Token>, k: nat)
    requires k < |ts|
  {
    StartsRight(ts, k) && EndsRight(ts, k) && EntryStands(ts, k) && ValueStands(ts, k)
  }

  /** The laws. */
  ghost predicate Entries(ts: seq<Token>) { forall k :: 0 <= k < |ts| ==> Right(ts, k) }

  // ----- More tokens -----

  /** What is right stays right when tokens are added. */
  lemma StaysRight(ts: seq<Token>, r: seq<Token>, k: nat)
    requires ts <= r && k < |ts| && Right(ts, k)
    ensures Right(r, k)
  {
    hide OpenColumns, FlowOpen;
    forall l | 0 <= l <= |ts| ensures OpenColumns(r, l) == OpenColumns(ts, l) && FlowOpen(r, l) == FlowOpen(ts, l) { SamePrefix(r, ts, l); }
    if BeforeMarker(ts, k) {
      var m :| k < m < |ts| && IsMarker(ts[m].kind) && forall l :: k <= l < m ==> ts[l].kind.BlockEnd?;
      assert r[m] == ts[m] && forall l :: k <= l < m ==> r[l] == ts[l];
    }
    if InBlock(ts, k) && ts[k].kind.Value? && !Innermost(ts, k, ts[k].mark.column) {
      var j :| 0 <= j < k && IsKeyOf(ts, j, k);
      assert IsKeyOf(r, j, k);
    }
  }

  lemma AllStayRight(ts: seq<Token>, r: seq<Token>)
    requires ts <= r && Entries(ts) && forall k :: |ts| <= k < |r| ==> Right(r, k)
    ensures Entries(r)
  {
    hide Right;
    forall k | 0 <= k < |r| ensures Right(r, k) { if k < |ts| { StaysRight(ts, r, k); } }
  }

  /** A token that is neither an entry nor begins or ends a block. */
  lemma PlainRight(ts: seq<Token>, t: Token)
    requires Entries(ts) && !IsBlockToken(t) && (IsEntry(t.kind) ==> !InBlock(ts, |ts|))
    ensures Entries(ts + [t])
  {
    hide Entries, OpenColumns, FlowOpen;
    SamePrefix(ts + [t], ts, |ts|);
    assert Right(ts + [t], |ts|);
    AllStayRight(ts, ts + [t]);
  }

  /** An entry in the column of its block. */
  lemma EntryRight(ts: seq<Token>, t: Token)
    requires Entries(ts) && IsEntry(t.kind) && (InBlock(ts, |ts|) ==> Innermost(ts, |ts|, t.mark.column))
    ensures Entries(ts + [t])
  {
    hide Entries, OpenColumns, FlowOpen;
    SamePrefix(ts + [t], ts, |ts|);
    assert Right(ts + [t], |ts|);
    AllStayRight(ts, ts + [t]);
  }

  /** A block and its first entry. */
  lemma BlockRight(ts: seq<Token>, b: Token, t: Token)
    requires Entries(ts) && b.mark == t.mark
    requires (b.kind.BlockSequenceStart? && t.kind.BlockEntry?) || (b.kind.BlockMappingStart? && (t.kind.Key? || t.kind.Value?))
    ensures Entries(ts + [b] + [t])
  {
    hide Entries, OpenColumns, FlowOpen;
    var r := ts + [b] + [t];
    SamePrefix(r, ts, |ts|);
    Opened(r, |ts|);
    assert Right(r, |ts|) && Right(r, |ts| + 1);
    AllStayRight(ts, r);
  }

  lemma Opened(ts: seq<Token>, k: nat)
    requires k < |ts| && BeginsBlock(ts[k])
    ensures Innermost(ts, k + 1, ts[k].mark.column) && FlowOpen(ts, k + 1) == FlowOpen(ts, k)
  {
  }

  /** The end of a block to the right. */
  lemma EndRight(ts: seq<Token>, t: Token)
    requires Entries(ts) && t.kind.BlockEnd? && OpenColumns(ts, |ts|) != [] && OpenColumns(ts, |ts|)[|OpenColumns(ts, |ts|)| - 1] > t.mark.column
    ensures Entries(ts + [t])
  {
    hide Entries, OpenColumns, FlowOpen;
    SamePrefix(ts + [t], ts, |ts|);
    assert Right(ts + [t], |ts|);
    AllStayRight(ts, ts + [t]);
  }

  /** Any number of ends in front of a marker. */
  lemma MarkerRight(ts: seq<Token>, n: nat, at: Mark, t: Token)
    requires Entries(ts) && IsMarker(t.kind) && n <= |OpenColumns(ts, |ts|)|
    ensures Entries(ts + Ends(n, at) + [t])
  {
    hide Entries, OpenColumns, FlowOpen;
    var r := ts + Ends(n, at) + [t];
    forall k | |ts| <= k < |r| ensures Right(r, k) {
      if k < |ts| + n {
        EndsClose(r, |ts|, k);
        SamePrefix(r, ts, |ts|);
        assert r[k].kind.BlockEnd? && IsMarker(r[|ts| + n].kind) && forall l :: k <= l < |ts| + n ==> r[l].kind.BlockEnd?;
      }
    }
    AllStayRight(ts, r);
  }

  lemma {:induction false} EndsClose(r: seq<Token>, p: nat, k: nat)
    requires p <= k <= |r| && forall l :: p <= l < k ==> r[l].kind.BlockEnd?
    ensures |OpenColumns(r, k)| >= |OpenColumns(r, p)| - (k - p)
    decreases k
  {
    if k > p { EndsClose(r, p, k - 1); }
  }

  // ----- Insertions -----

  /** Where KEY may be inserted: in front of a token that can begin a key, inside a flow collection, or in block context
      with no entry and no block behind. */
  ghost predicate MayOpen(ts: seq<Token>, p: nat, m: seq<Token>) {
    && p < |ts| && IsOpening(m) && StartsKey(ts[p].kind)
    && if InBlock(ts, p) then
         && (forall j :: p <= j < |ts| ==> !IsBlockToken(ts[j]) && !(InBlock(ts, j) && IsEntry(ts[j].kind)))
         && (|m| == 1 ==> Innermost(ts, p, m[0].mark.column))
       else |m| == 1
  }

  lemma InFrontRight(ts: seq<Token>, p: nat, m: seq<Token>, r: seq<Token>, k: nat)
    requires MayOpen(ts, p, m) && Inserted(ts, p, m, r) && |r| == |ts| + |m| && Shifted(ts, p, m, r) && k < p && Right(ts, k)
    ensures Right(r, k)
  {
    hide OpenColumns, FlowOpen, Shifted;
    forall l | 0 <= l <= p ensures OpenColumns(r, l) == OpenColumns(ts, l) && FlowOpen(r, l) == FlowOpen(ts, l) && (l < p ==> r[l] == ts[l]) {
      InFront(ts, p, m, r, l);
    }
    if BeforeMarker(ts, k) {
      var n :| k < n < |ts| && IsMarker(ts[n].kind) && forall l :: k <= l < n ==> ts[l].kind.BlockEnd?;
      assert n < p;
      assert r[n] == ts[n] && forall l :: k <= l < n ==> r[l] == ts[l];
    }
    if InBlock(ts, k) && ts[k].kind.Value? && !Innermost(ts, k, ts[k].mark.column) {
      var j :| 0 <= j < k && IsKeyOf(ts, j, k);
      assert IsKeyOf(r, j, k);
    }
  }

  lemma OpeningRight(ts: seq<Token>, p: nat, m: seq<Token>, r: seq<Token>, k: nat)
    requires MayOpen(ts, p, m) && Inserted(ts, p, m, r) && |r| == |ts| + |m| && Shifted(ts, p, m, r) && p <= k < p + |m|
    ensures Right(r, k)
  {
    hide OpenColumns, FlowOpen, Shifted;
    InFront(ts, p, m, r, p);
    forall j | 0 <= j < |m| ensures r[p + j] == m[j] { assert r[p..p + |m|][j] == m[j]; }
    OpeningColumns(r, p, m, k - p);
    if |m| == 2 {
      assert r[p + 0] == m[0] && r[p + 1] == m[1];
      Opened(r, p);
    }
  }

  lemma BehindRight(ts: seq<Token>, p: nat, m: seq<Token>, r: seq<Token>, k: nat)
    requires MayOpen(ts, p, m) && Inserted(ts, p, m, r) && |r| == |ts| + |m| && Shifted(ts, p, m, r) && p + |m| <= k < |r|
    requires Right(ts, k - |m|)
    ensures Right(r, k)
  {
    hide OpenColumns, FlowOpen, Shifted;
    var n := |m|;
    Behind(ts, p, m, r, k);
    if InBlock(ts, p) {
      assert !IsBlockToken(ts[k - n]) && !(InBlock(ts, k - n) && IsEntry(ts[k - n].kind));
    } else {
      BehindFlow(ts, p, m, r, k);
    }
  }

  lemma BehindFlow(ts: seq<Token>, p: nat, m: seq<Token>, r: seq<Token>, k: nat)
    requires MayOpen(ts, p, m) && !InBlock(ts, p) && Inserted(ts, p, m, r) && |r| == |ts| + 1 && Shifted(ts, p, m, r) && p < k < |r|
    requires Right(ts, k - 1)
    ensures Right(r, k)
  {
    hide OpenColumns, FlowOpen, Shifted;
    forall l | 0 <= l <= p ensures OpenColumns(r, l) == OpenColumns(ts, l) && FlowOpen(r, l) == FlowOpen(ts, l) && (l < p ==> r[l] == ts[l]) {
      InFront(ts, p, m, r, l);
    }
    forall l | p < l < |r| ensures OpenColumns(r, l) == OpenColumns(ts, l - 1) && FlowOpen(r, l) == FlowOpen(ts, l - 1) && r[l] == ts[l - 1] {
      Behind(ts, p, m, r, l);
      assert OpenColumns(ts, l - 1) + [] == OpenColumns(ts, l - 1);
    }
    if BeforeMarker(ts, k - 1) {
      var n :| k - 1 < n < |ts| && IsMarker(ts[n].kind) && forall l :: k - 1 <= l < n ==> ts[l].kind.BlockEnd?;
      assert r[n + 1] == ts[n] && forall l :: k <= l < n + 1 ==> r[l] == ts[l - 1];
    }
    if InBlock(ts, k - 1) && ts[k - 1].kind.Value? && !Innermost(ts, k - 1, ts[k - 1].mark.column) {
      var j :| 0 <= j < k - 1 && IsKeyOf(ts, j, k - 1);
      assert IsKeyOf(r, if j < p then j else j + 1, k);
    }
  }

  lemma InsertRight(ts: seq<Token>, p: nat, m: seq<Token>, r: seq<Token>)
    requires p < |ts| && Entries(ts) && MayOpen(ts, p, m) && Inserted(ts, p, m, r) && |r| == |ts| + |m| && Shifted(ts, p, m, r)
    ensures Entries(r)
  {
    hide Right, Shifted, Inserted, MayOpen;
    forall k | 0 <= k < |r| ensures Right(r, k) {
      if k < p { InFrontRight(ts, p, m, r, k); } else if k < p + |m| { OpeningRight(ts, p, m, r, k); } else { BehindRight(ts, p, m, r, k); }
    }
  }

  // ----- The scanner -----

  /** A possible key begins with a token that may; while its line has not ended, no entry of the block level has come. */
  ghost predicate KeysClear(v: View)
    requires v.keys.slots != []
  {
    var s := v.keys.slots;
    && (forall i :: 0 <= i < |s| && s[i].possible ==> s[i].number < |v.stream| && StartsKey(v.stream[s[i].number].kind))
    && (s[0].possible && s[0].mark.line == v.mark.line ==>
          forall j :: s[0].number <= j < |v.stream| ==> !(InBlock(v.stream, j) && IsEntry(v.stream[j].kind)))
  }

  ghost predicate Laws(v: View) { Law(v) && Entries(v.stream) && KeysClear(v) }

  /** The indentation is the column of the innermost block. */
  lemma IndentIsInnermost(v: View)
    requires Stacked(v) && v.indents != []
    ensures Innermost(v.stream, |v.stream|, v.indent)
  {
  }

  /** Where a level is due, there is none at the column yet; otherwise the innermost block begins there. */
  lemma NotDue(v: View, column: int)
    requires Stacked(v) && v.flowLevel == 0 && v.indent <= column && !Due(v, column) && column >= 0
    ensures Innermost(v.stream, |v.stream|, column)
  {
    hide OpenColumns, FlowOpen;
    IndentIsInnermost(v);
  }

  /** Closing the blocks to the right of where the scanner has come. */
  lemma {:induction false} UnrolledRight(v: View, column: int)
    requires Stacked(v) && InBlocks(v.stream) && KeysInPlace(v) && column >= v.mark.column && column >= 0 && Entries(v.stream)
    ensures Entries(Unrolled(v, column).stream)
    decreases |v.indents|
  {
    hide InBlocks, OpenColumns, FlowOpen, Entries, NoneRightOf;
    if v.flowLevel == 0 && v.indent > column && v.indents != [] {
      var t := Token(BlockEnd, v.mark);
      IndentIsInnermost(v);
      EndRight(v.stream, t);
      NextInBlocks(v.stream, t);
      LevelsPop(v);
      UnrolledRight(v.(stream := v.stream + [t], indent := v.indents[|v.indents| - 1], indents := v.indents[..|v.indents| - 1]), column);
    }
  }

  lemma {:induction false} UnrolledClear(v: View, column: int)
    requires v.keys.slots != [] && KeysClear(v)
    ensures KeysClear(Unrolled(v, column))
    decreases |v.indents|
  {
    hide KeysClear;
    if v.flowLevel == 0 && v.indent > column && v.indents != [] {
      var t := Token(BlockEnd, v.mark);
      NextClear(v, t);
      UnrolledClear(v.(stream := v.stream + [t], indent := v.indents[|v.indents| - 1], indents := v.indents[..|v.indents| - 1]), column);
    }
  }

  lemma NextClear(v: View, t: Token)
    requires v.keys.slots != [] && KeysClear(v)
    requires IsEntry(t.kind) && InBlock(v.stream, |v.stream|) ==> !v.keys.slots[0].possible
    ensures forall indents: seq<int>, indent: int :: KeysClear(v.(stream := v.stream + [t], indents := indents, indent := indent))
  {
    hide OpenColumns, FlowOpen;
    var r := v.stream + [t];
    forall j | 0 <= j <= |v.stream| ensures FlowOpen(r, j) == FlowOpen(v.stream, j) { SamePrefix(r, v.stream, j); }
  }

  // ----- Keys -----

  /** Slots may be given up, and nothing else happens to those that stay. */
  predicate Fewer(s: seq<SimpleKey>, r: seq<SimpleKey>) {
    r != [] && |r| <= |s| && forall i :: 0 <= i < |r| ==> r[i] == s[i] || (r[i] == s[i].(possible := false))
  }

  lemma FewerClear(v: View, r: View)
    requires v.keys.slots != [] && KeysClear(v) && r.stream == v.stream && r.mark.line >= v.mark.line && Fewer(v.keys.slots, r.keys.slots)
    requires v.keys.slots[0].mark.line <= v.mark.line
    ensures KeysClear(r)
  {
    hide OpenColumns, FlowOpen;
  }

  lemma GivenUpFewer(s: Keys)
    requires s.slots != []
    ensures Fewer(s.slots, Removed(s).slots) && !Removed(s).slots[|s.slots| - 1].possible
    ensures |s.slots| > 1 ==> Fewer(s.slots, Popped(Removed(s)).slots)
    ensures forall i :: 0 <= i < |s.slots| ==> Fewer(s.slots, Expired(s, i).slots) && !Expired(s, i).slots[i].possible
  {
  }

  /** The token itself; an entry of the block level only when no key is possible there. */
  lemma PutClear(v: View, kind: Kind, allowed: bool, end: Mark)
    requires v.keys.slots != [] && KeysClear(v) && v.keys.slots[0].mark.line <= v.mark.line && NotBefore(end, v.mark)
    requires IsEntry(kind) && InBlock(v.stream, |v.stream|) ==> !v.keys.slots[0].possible
    ensures KeysClear(Put(v, kind, allowed, end))
  {
    hide OpenColumns, FlowOpen;
    var t := Token(kind, v.mark);
    var r := v.stream + [t];
    forall j | 0 <= j <= |v.stream| ensures FlowOpen(r, j) == FlowOpen(v.stream, j) { SamePrefix(r, v.stream, j); }
  }

  /** The token with the key saved for it. */
  lemma SavedClear(v: View, kind: Kind, allowed: bool, end: Mark)
    requires v.keys.slots != [] && KeysClear(v) && v.keys.slots[0].mark.line <= v.mark.line && NotBefore(end, v.mark)
    requires StartsKey(kind) && (forall i :: 0 <= i < |v.keys.slots| ==> v.keys.slots[i].number <= |v.stream|)
    ensures KeysClear(Put(KeySaved(v), kind, allowed, end))
  {
    hide OpenColumns, FlowOpen;
    var r := v.stream + [Token(kind, v.mark)];
    forall j | 0 <= j <= |v.stream| ensures FlowOpen(r, j) == FlowOpen(v.stream, j) { SamePrefix(r, v.stream, j); }
    assert r[|v.stream|].kind == kind;
    var s, k := v.keys.slots, KeySaved(v).keys.slots;
    assert forall i :: 0 <= i < |s| - 1 ==> k[i] == s[i];
  }

  // ----- Steps -----

  /** What holds where a lexeme is fetched. */
  ghost predicate Here(v: View) { Laws(v) && v.keys.slots[0].mark.line <= v.mark.line && (v.flowLevel == 0 <==> InBlock(v.stream, |v.stream|)) }

  lemma PlainStep(v: View, kind: Kind, allowed: bool, end: Mark)
    requires Here(v) && NotBefore(end, v.mark) && !IsBlockToken(Token(kind, v.mark)) && !IsEntry(kind)
    ensures Entries(Put(GivenUp(v), kind, allowed, end).stream) && KeysClear(Put(GivenUp(v), kind, allowed, end))
  {
    hide Law, Entries, KeysClear, Removed;
    SlotsCounted(v);
    PlainRight(v.stream, Token(kind, v.mark));
    GivenUpFewer(v.keys);
    FewerClear(v, GivenUp(v));
    PutClear(GivenUp(v), kind, allowed, end);
  }

  lemma SavedStep(v: View, kind: Kind, allowed: bool, end: Mark)
    requires Here(v) && NotBefore(end, v.mark) && StartsKey(kind)
    ensures Entries(Put(KeySaved(v), kind, allowed, end).stream) && KeysClear(Put(KeySaved(v), kind, allowed, end))
  {
    hide Entries, KeysClear, InBlocks, OpenColumns, FlowOpen, Rising, LineKept;
    PlainRight(v.stream, Token(kind, v.mark));
    SavedClear(v, kind, allowed, end);
  }

  lemma MarkerStep(v: View, kind: Kind, end: Mark)
    requires Here(v) && NotBefore(end, v.mark) && IsMarker(kind)
    ensures var r := Put(GivenUp(Unrolled(v, -1)), kind, false, end); Entries(r.stream) && KeysClear(r)
  {
    hide Law, Entries, KeysClear, Removed, Unrolled;
    SlotsCounted(v);
    var u := Unrolled(v, -1);
    MarkerStream(v, kind);
    UnrolledClear(v, -1);
    GivenUpFewer(u.keys);
    FewerClear(u, GivenUp(u));
    PutClear(GivenUp(u), kind, false, end);
  }

  lemma MarkerStream(v: View, kind: Kind)
    requires Law(v) && Entries(v.stream) && IsMarker(kind)
    ensures Entries(Unrolled(v, -1).stream + [Token(kind, v.mark)])
  {
    hide Entries, InBlocks, OpenColumns, FlowOpen, LineKept, KeysInPlace;
    var t := Token(kind, v.mark);
    if v.flowLevel > 0 {
      assert v.stream + Ends(0, v.mark) == v.stream;
      MarkerRight(v.stream, 0, v.mark, t);
    } else {
      var n := UnrollCloses(v, -1);
      MarkerRight(v.stream, n, v.mark, t);
    }
  }

  lemma BeginsStream(v: View, block: Kind, kind: Kind)
    requires Law(v) && Aligned(v) && Entries(v.stream) && (v.flowLevel == 0 <==> InBlock(v.stream, |v.stream|))
    requires (block.BlockSequenceStart? && kind.BlockEntry?) || (block.BlockMappingStart? && (kind.Key? || kind.Value?))
    ensures Entries(Begun(v, block).stream + [Token(kind, v.mark)])
  {
    hide Entries, InBlocks, OpenColumns, FlowOpen, LineKept, KeysInPlace;
    var b, t := Token(block, v.mark), Token(kind, v.mark);
    if Due(v, v.mark.column) {
      BlockRight(v.stream, b, t);
    } else {
      if v.flowLevel == 0 { NotDue(v, v.mark.column); }
      EntryRight(v.stream, t);
    }
  }

  /** The stream with a block begun, and the same keys. */
  lemma BegunClear(v: View, block: Kind)
    requires v.keys.slots != [] && KeysClear(v) && (block.BlockSequenceStart? || block.BlockMappingStart?)
    ensures KeysClear(Begun(v, block)) && (InBlock(Begun(v, block).stream, |Begun(v, block).stream|) <==> InBlock(v.stream, |v.stream|))
  {
    hide KeysClear, OpenColumns;
    var t := Token(block, v.mark);
    if Due(v, v.mark.column) {
      NextClear(v, t);
      LastColumns(v.stream, t);
    }
  }

  lemma BeginsStep(v: View, block: Kind, kind: Kind, allowed: bool, end: Mark)
    requires Here(v) && Aligned(v) && NotBefore(end, v.mark)
    requires (block.BlockSequenceStart? && kind.BlockEntry?) || (block.BlockMappingStart? && kind.Key?)
    ensures var r := Put(GivenUp(Begun(v, block)), kind, allowed, end); Entries(r.stream) && KeysClear(r)
  {
    hide Law, Entries, KeysClear, Removed, Begun;
    SlotsCounted(v);
    BeginsStream(v, block, kind);
    BegunClear(v, block);
    BegunKeeps(v, block);
    var u := Begun(v, block);
    GivenUpFewer(u.keys);
    FewerClear(u, GivenUp(u));
    PutClear(GivenUp(u), kind, allowed, end);
  }

  lemma BegunKeeps(v: View, block: Kind)
    ensures var u := Begun(v, block); u.keys == v.keys && u.mark == v.mark && u.flowLevel == v.flowLevel
  {
  }

  lemma SlotsCounted(v: View)
    requires Law(v)
    ensures |v.keys.slots| == v.flowLevel + 1
  {
  }

  /** A `:` without a simple key. */
  lemma LoneValueStep(v: View, end: Mark)
    requires Here(v) && Aligned(v) && NotBefore(end, v.mark)
    ensures var r := Put(Begun(v.(keys := Expired(v.keys, v.flowLevel)), BlockMappingStart), Value, v.flowLevel == 0, end);
      Entries(r.stream) && KeysClear(r)
  {
    hide Law, Entries, KeysClear, Begun, Expired;
    SlotsCounted(v);
    var u := v.(keys := Expired(v.keys, v.flowLevel));
    ExpiredLaw(v, v.flowLevel);
    GivenUpFewer(v.keys);
    FewerClear(v, u);
    BeginsStream(u, BlockMappingStart, Value);
    BegunClear(u, BlockMappingStart);
    BegunKeeps(u, BlockMappingStart);
    PutClear(Begun(u, BlockMappingStart), Value, v.flowLevel == 0, end);
  }

  /** A value behind its KEY. */
  lemma ValueRight(ts: seq<Token>, j: nat, t: Token)
    requires Entries(ts) && t.kind.Value? && j < |ts|
    requires InBlock(ts, |ts|) ==>
      && ts[j].kind.Key? && InBlock(ts, j) && Innermost(ts, |ts|, ts[j].mark.column)
      && ts[j].mark.line == t.mark.line && t.mark.index <= ts[j].mark.index + 1024
      && forall l :: j < l < |ts| && InBlock(ts, l) ==> !IsEntry(ts[l].kind)
    ensures Entries(ts + [t])
  {
    hide Entries, OpenColumns, FlowOpen;
    var r := ts + [t];
    forall l | 0 <= l <= |ts| ensures OpenColumns(r, l) == OpenColumns(ts, l) && FlowOpen(r, l) == FlowOpen(ts, l) { SamePrefix(r, ts, l); }
    if InBlock(ts, |ts|) { assert IsKeyOf(r, j, |ts|); }
    assert Right(r, |ts|);
    AllStayRight(ts, r);
  }

  /** KEY is inserted in front of the key's first token, and the `:` comes behind it. */
  lemma EarlyKeyRight(v: View)
    requires Laws(v) && Aligned(v) && Live(Inner(v), v.mark) && v.parsed <= Inner(v).number && (v.flowLevel == 0 <==> InBlock(v.stream, |v.stream|))
    ensures Entries(Promoted(v).stream + [Token(Value, v.mark)])
  {
    hide InBlocks, OpenColumns, FlowOpen, Shifted, Entries, MayOpen, NoneRightOf, Rising;
    var key, ts := Inner(v), v.stream;
    var due, p, t := Due(v, key.mark.column), key.number, Token(Value, v.mark);
    var m, r := OpeningOf(key, due), Promoted(v).stream;
    assert r == ts[..p] + m + ts[p..];
    KeyMayOpen(v, m);
    InsertShifts(ts, p, m, r) by { if v.flowLevel == 0 { NoBlockSince(v, p); } }
    InsertRight(ts, p, m, r);
    Behind1(ts, p, m, r);
    KeyOfValue(v, m, r);
    ValueRight(r, p + |m| - 1, t);
  }

  lemma KeyMayOpen(v: View, m: seq<Token>)
    requires Laws(v) && Aligned(v) && Live(Inner(v), v.mark) && m == OpeningOf(Inner(v), Due(v, Inner(v).mark.column))
    ensures Inner(v).number < |v.stream| && MayOpen(v.stream, Inner(v).number, m)
  {
    hide InBlocks, OpenColumns, FlowOpen, Entries, NoneRightOf;
    var key := Inner(v);
    if v.flowLevel == 0 {
      NoBlockSince(v, key.number);
      if !Due(v, key.mark.column) {
        NotDue(v, key.mark.column);
        SinceKey(v.stream, key.number, |v.stream|);
      }
    }
  }

  lemma KeyOfValue(v: View, m: seq<Token>, r: seq<Token>)
    requires Laws(v) && Aligned(v) && Live(Inner(v), v.mark) && v.parsed <= Inner(v).number < |v.stream|
    requires m == OpeningOf(Inner(v), Due(v, Inner(v).mark.column)) && MayOpen(v.stream, Inner(v).number, m) && r == Promoted(v).stream
    requires Inserted(v.stream, Inner(v).number, m, r) && |r| == |v.stream| + |m| && Shifted(v.stream, Inner(v).number, m, r)
    requires v.flowLevel == 0 <==> InBlock(v.stream, |v.stream|)
    ensures InBlock(r, |r|) ==>
      var j := Inner(v).number + |m| - 1;
      && r[j] == Token(Key, Inner(v).mark) && InBlock(r, j) && Innermost(r, |r|, r[j].mark.column)
      && r[j].mark.line == v.mark.line && v.mark.index <= r[j].mark.index + 1024
      && forall l :: j < l < |r| && InBlock(r, l) ==> !IsEntry(r[l].kind)
  {
    hide InBlocks, OpenColumns, FlowOpen, Shifted, Entries, MayOpen, NoneRightOf, Rising, StartsKey;
    var key, ts := Inner(v), v.stream;
    var p, n := key.number, |m|;
    Behind1(ts, p, m, r);
    if v.flowLevel == 0 {
      KeyInBlock(v);
      InFront(ts, p, m, r, p);
      forall j | 0 <= j < n ensures r[p + j] == m[j] { assert r[p..p + n][j] == m[j]; }
      OpeningColumns(r, p, m, n - 1);
      forall l | p + n <= l < |r| && InBlock(r, l) ensures !IsEntry(r[l].kind) { Behind(ts, p, m, r, l); }
      if !Due(v, key.mark.column) {
        NotDue(v, key.mark.column);
        assert OpenColumns(ts, |ts|) + [] == OpenColumns(ts, |ts|);
      }
    }
  }

  lemma KeyInBlock(v: View)
    requires Laws(v) && v.flowLevel == 0 && Live(Inner(v), v.mark) && InBlock(v.stream, |v.stream|)
    ensures InBlock(v.stream, Inner(v).number) && v.indent <= Inner(v).mark.column && Inner(v).mark.line == v.mark.line && v.mark.index <= Inner(v).mark.index + 1024
    ensures forall j :: Inner(v).number <= j < |v.stream| ==> !(InBlock(v.stream, j) && IsEntry(v.stream[j].kind))
  {
    hide InBlocks, OpenColumns, FlowOpen, Entries;
  }

  /** The key's first token was handed out: KEY and the block's start stand at the end. */
  lemma LateKeyRight(v: View)
    requires Laws(v) && Aligned(v) && Live(Inner(v), v.mark) && Inner(v).number < v.parsed && (v.flowLevel == 0 <==> InBlock(v.stream, |v.stream|))
    ensures Entries(Promoted(v).stream + [Token(Value, v.mark)])
  {
    hide InBlocks, OpenColumns, FlowOpen, Entries, NoneRightOf, Rising;
    var key, ts := Inner(v), v.stream;
    var k, b, t := Token(Key, key.mark), Token(BlockMappingStart, key.mark), Token(Value, v.mark);
    if v.flowLevel == 0 { KeyInBlock(v); }
    if Due(v, key.mark.column) {
      LateBlockRight(ts, k, b, t);
    } else {
      if v.flowLevel == 0 { NotDue(v, key.mark.column); }
      EntryRight(ts, k);
      LastColumns(ts, k);
      SamePrefix(ts + [k], ts, |ts|);
      assert |ts + [k]| == |ts| + 1;
      ValueRight(ts + [k], |ts|, t);
    }
  }

  lemma LateBlockRight(ts: seq<Token>, k: Token, b: Token, t: Token)
    requires Entries(ts) && InBlock(ts, |ts|) && k.kind.Key? && b.kind.BlockMappingStart? && b.mark == k.mark && t.kind.Value?
    requires k.mark.line == t.mark.line && t.mark.index <= k.mark.index + 1024
    ensures Entries(ts + [k] + [b] + [t])
  {
    hide Entries, OpenColumns, FlowOpen;
    var n, r := |ts|, ts + [k] + [b] + [t];
    SamePrefix(r, ts, n);
    KeyOpens(r, n);
    Opened(r, n + 1);
    assert IsLate(r, n) && IsKeyOf(r, n, n + 2);
    assert Right(r, n) && Right(r, n + 1) && Right(r, n + 2);
    AllStayRight(ts, r);
  }

  lemma KeyOpens(ts: seq<Token>, k: nat)
    requires k < |ts| && ts[k].kind.Key?
    ensures OpenColumns(ts, k + 1) == OpenColumns(ts, k) && FlowOpen(ts, k + 1) == FlowOpen(ts, k)
  {
  }

  lemma PromotedClear(v: View)
    requires Laws(v) && Aligned(v) && Live(Inner(v), v.mark) && (v.flowLevel == 0 <==> InBlock(v.stream, |v.stream|))
    ensures KeysClear(Promoted(v)) && (v.flowLevel == 0 ==> !Promoted(v).keys.slots[0].possible)
  {
    hide Entries, InBlocks, OpenColumns, FlowOpen, Rising, LineKept, Stacked;
    SlotsCounted(v);
    if v.flowLevel == 0 {
      OnlyInner(v);
    } else if Inner(v).number >= v.parsed {
      EarlyClear(v);
    } else {
      FlowInside(v);
      NextClear(v, Token(Key, Inner(v).mark));
      GivenUpFewer(v.keys);
      FewerClear(v.(stream := v.stream + [Token(Key, Inner(v).mark)]), Promoted(v));
    }
  }

  lemma OnlyInner(v: View)
    requires |v.keys.slots| == 1 && Inner(v).number <= |v.stream|
    ensures |Promoted(v).keys.slots| == 1 && !Promoted(v).keys.slots[0].possible
  {
    hide WithKey;
  }

  lemma FlowInside(v: View)
    requires Law(v) && v.flowLevel > 0
    ensures !Due(v, Inner(v).mark.column) && v.keys.slots[0].mark.line <= v.mark.line && Inner(v).number < |v.stream|
  {
    hide OpenColumns, FlowOpen, InBlocks, Rising, LineKept;
  }

  lemma EarlyClear(v: View)
    requires Laws(v) && Aligned(v) && Live(Inner(v), v.mark) && v.parsed <= Inner(v).number && v.flowLevel > 0
    ensures KeysClear(Promoted(v))
  {
    hide Entries, InBlocks, OpenColumns, FlowOpen, Rising, LineKept, Shifted, StartsKey;
    var p, ts := Inner(v).number, v.stream;
    FlowInside(v);
    var m, r := [Token(Key, Inner(v).mark)], Promoted(v).stream;
    assert r == ts[..p] + m + ts[p..];
    InsertShifts(ts, p, m, r);
    InFlow(v);
    forall j | 0 <= j <= p ensures FlowOpen(r, j) == FlowOpen(ts, j) && (j < p ==> r[j] == ts[j]) { InFront(ts, p, m, r, j); }
    forall j | p < j < |r| ensures FlowOpen(r, j) == FlowOpen(ts, j - 1) && r[j] == ts[j - 1] { Behind(ts, p, m, r, j); }
    var s := v.keys.slots;
    assert forall i :: 0 <= i < |s| - 1 && s[i].possible ==> s[i].number < p && Promoted(v).keys.slots[i] == s[i];
  }

  lemma InFlow(v: View)
    requires Law(v) && v.flowLevel > 0 && Inner(v).possible
    ensures Inner(v).number < |v.stream| && !InBlock(v.stream, Inner(v).number)
  {
    hide OpenColumns, FlowOpen, InBlocks, Rising, LineKept;
  }

  lemma PromotedStep(v: View, end: Mark)
    requires Here(v) && Aligned(v) && NotBefore(end, v.mark) && Live(Inner(v), v.mark)
    ensures var r := Put(Promoted(v), Value, false, end); Entries(r.stream) && KeysClear(r)
  {
    hide Entries, KeysClear, Promoted, Law;
    SlotsCounted(v);
    InnerQueued(v);
    PromotedLaw(v);
    PromotedKeeps(v);
    PromotedClear(v);
    if Inner(v).number >= v.parsed { EarlyKeyRight(v); } else { LateKeyRight(v); }
    PutClear(Promoted(v), Value, false, end);
  }

  lemma InnerQueued(v: View)
    requires Law(v)
    ensures v.keys.slots != [] && Inner(v).number < |v.stream|
  {
    hide OpenColumns, FlowOpen, InBlocks, Rising, LineKept;
  }

  lemma PromotedKeeps(v: View)
    requires Law(v) && Law(Promoted(v))
    ensures var u := Promoted(v);
      && u.mark == v.mark && u.keys.slots != [] && u.keys.slots[0].mark == v.keys.slots[0].mark
      && (InBlock(u.stream, |u.stream|) <==> v.flowLevel == 0)
  {
    hide OpenColumns, FlowOpen, InBlocks, Rising, LineKept, KeysInPlace, WithKey;
  }

  lemma BracketStep(v: View, x: Lexeme)
    requires Here(v) && NotBefore(x.end, v.mark)
    ensures x.kind.FlowSequenceStart? || x.kind.FlowMappingStart? ==> Entries(FlowBegun(v, x).stream) && KeysClear(FlowBegun(v, x))
    ensures x.kind.FlowSequenceEnd? || x.kind.FlowMappingEnd? ==> Entries(FlowEnded(v, x).stream) && KeysClear(FlowEnded(v, x))
  {
    hide Entries, KeysClear, Law;
    SlotsCounted(v);
    if x.kind.FlowSequenceStart? || x.kind.FlowMappingStart? {
      SavedStep(v, x.kind, true, x.end);
      PushedClear(Put(KeySaved(v), x.kind, true, x.end), |v.stream|, v.mark, v.flowLevel + 1);
    }
    if x.kind.FlowSequenceEnd? || x.kind.FlowMappingEnd? {
      PlainStep(v, x.kind, false, x.end);
      if v.flowLevel > 0 { PoppedClear(v, x); }
    }
  }

  lemma PushedClear(v: View, number: nat, mark: Mark, level: nat)
    requires v.keys.slots != [] && KeysClear(v)
    ensures KeysClear(v.(keys := Pushed(v.keys, number, mark), flowLevel := level))
  {
    hide FlowOpen;
    var s, r := v.keys.slots, Pushed(v.keys, number, mark).slots;
    assert forall i :: 0 <= i < |s| ==> r[i] == s[i];
  }

  lemma PoppedClear(v: View, x: Lexeme)
    requires Here(v) && NotBefore(x.end, v.mark) && v.flowLevel > 0 && |v.keys.slots| == v.flowLevel + 1
    requires x.kind.FlowSequenceEnd? || x.kind.FlowMappingEnd?
    ensures KeysClear(FlowEnded(v, x))
  {
    hide Entries, KeysClear, Law, Removed, Popped;
    GivenUpFewer(v.keys);
    var u := v.(keys := Popped(Removed(v.keys)), flowLevel := v.flowLevel - 1);
    FewerClear(v, u);
    PutClear(u, x.kind, false, x.end);
  }

  // ----- Whole steps -----

  lemma FetchedRight(v: View, x: Lexeme)
    requires Here(v) && Aligned(v) && Slotted(v) && Accepts(v, x) && NotBefore(x.end, EndOf(x)) && v.mark == x.start
    ensures Entries(Fetched(v, x).stream) && KeysClear(Fetched(v, x))
  {
    hide Laws, Entries, KeysClear, Here, KeySaved, GivenUp, Begun, Promoted, FlowBegun, FlowEnded, Put, Unrolled, Expired, Removed;
    match x.kind {
      case StreamEnd =>
        LaterHere(v, NextLine(v.mark));
        MarkerStep(v.(mark := NextLine(v.mark)), StreamEnd, NextLine(v.mark));
      case FlowSequenceStart => BracketStep(v, x);
      case FlowMappingStart => BracketStep(v, x);
      case FlowSequenceEnd => BracketStep(v, x);
      case FlowMappingEnd => BracketStep(v, x);
      case FlowEntry => PlainStep(v, FlowEntry, true, x.end);
      case BlockEntry => BeginsStep(v, BlockSequenceStart, BlockEntry, true, x.end);
      case Key => BeginsStep(v, BlockMappingStart, Key, v.flowLevel == 0, x.end);
      case Value => if Live(Inner(v), v.mark) { PromotedStep(v, x.end); } else { LoneValueStep(v, x.end); }
      case BlockScalar => PlainStep(v, BlockScalar, true, x.end);
      case Alias | Anchor | Tag | FlowScalar | PlainScalar => SavedStep(v, x.kind, x.breaks, x.end);
      case _ => MarkerStep(v, x.kind, x.end);
    }
  }

  lemma LaterHere(v: View, to: Mark)
    requires Here(v) && NotBefore(to, v.mark)
    ensures Here(v.(mark := to))
  {
    hide Entries, InBlocks, OpenColumns, FlowOpen;
    LaterLaw(v, to);
  }

  /** Scanning on, and closing the blocks to the right. */
  lemma ClosedHere(v: View, x: Lexeme)
    requires Laws(v) && NotBefore(x.start, v.mark)
    ensures Here(Closed(v, x)) && Aligned(Closed(v, x))
  {
    hide Entries, KeysClear, Law, Unrolled;
    var s := ScannedTo(v, x.start);
    ScannedLaw(v, x.start);
    UnrolledLaw(s);
    ScannedRight(v, x);
    SlotsCounted(s);
    UnrolledClear(s, x.start.column);
    StandsHere(Closed(v, x));
  }

  lemma ScannedRight(v: View, x: Lexeme)
    requires Laws(v) && NotBefore(x.start, v.mark) && Law(ScannedTo(v, x.start))
    ensures KeysClear(ScannedTo(v, x.start)) && Entries(Closed(v, x).stream)
  {
    hide Entries, InBlocks, OpenColumns, FlowOpen, Rising, LineKept;
    UnrolledRight(ScannedTo(v, x.start), x.start.column);
  }

  lemma StandsHere(v: View)
    requires Law(v)
    ensures v.keys.slots[0].mark.line <= v.mark.line && (v.flowLevel == 0 <==> InBlock(v.stream, |v.stream|))
  {
    hide InBlocks, OpenColumns, FlowOpen, Rising, LineKept;
  }

  /** Every lexeme keeps the laws. */
  lemma StepLaws(v: View, x: Lexeme)
    requires Laws(v) && NotBefore(x.start, v.mark) && NotBefore(x.end, EndOf(x)) && Slotted(Closed(v, x)) && Accepts(Closed(v, x), x)
    ensures Laws(Fetched(Closed(v, x), x))
  {
    hide Law, Entries, KeysClear, Accepts, Fetched;
    StepLaw(v, x);
    ClosedHere(v, x);
    UnrolledMark(ScannedTo(v, x.start), x.start.column);
    FetchedRight(Closed(v, x), x);
  }

  lemma UnrolledMark(v: View, column: int)
    ensures Unrolled(v, column).mark == v.mark
  {
  }

  /** Handing out a token, and giving up a key for it. */
  lemma TakenLaws(v: View, i: nat)
    requires Laws(v) && i < |v.keys.slots|
    ensures Laws(v.(parsed := v.parsed + 1)) && Laws(v.(parsed := v.parsed + 1, keys := Expired(v.keys, i)))
  {
    hide Law, Entries, KeysClear, Expired;
    SlotsCounted(v);
    TakenLaw(v, i);
    StandsHere(v);
    GivenUpFewer(v.keys);
    FewerClear(v, v.(parsed := v.parsed + 1));
    FewerClear(v, v.(parsed := v.parsed + 1, keys := Expired(v.keys, i)));
  }

  /** What has been handed out is right but for what is still missing behind it. */
  lemma FirstLaws(v: View)
    requires Law(v) && |v.stream| == 1 && v.stream[0].kind.StreamStart? && forall i :: 0 <= i < |v.keys.slots| ==> !v.keys.slots[i].possible
    ensures Laws(v)
  {
    hide Law;
    SlotsCounted(v);
  }

  /** A key that may begin here is required exactly in block context, in the column of the innermost open block. */
  lemma RequiredExactlyWhen(v: View)
    requires Law(v)
    ensures KeyHere(v).required <==> InBlock(v.stream, |v.stream|) && Innermost(v.stream, |v.stream|, v.mark.column)
  {
    hide InBlocks, OpenColumns, FlowOpen, KeysInPlace, LineKept;
    StandsHere(v);
    if v.indents != [] { IndentIsInnermost(v); }
  }
}
