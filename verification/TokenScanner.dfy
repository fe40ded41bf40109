/** The token layer of the scanner (scannerc.go): indentation stack, simple keys and their index, flow level
    and the token queue. Which token comes next and where it ends in the text is given from outside; when
    one is fetched, the stacks and the insertions into the queue are the source's. */
module TokenScanner {
  import opened Options
  import opened TokenQueue
  import opened SimpleKeys
  import opened ScanSteps
  import opened BlockColumns
  import opened BlockEntries

  datatype Problem =
    | KeyWithoutValue          // "could not find expected ':'"
    | TooManyIndents | TooManyFlowLevels
    | EntryNotAllowed | KeyNotAllowed | ValueNotAllowed | NoToken

  // ----- Block structure of a token stream -----

  function Delta(t: Token): int {
    if t.kind.BlockSequenceStart? || t.kind.BlockMappingStart? then 1 else if t.kind.BlockEnd? then -1 else 0
  }

  /** Blocks open after the first `k` tokens. */
  function Depth(ts: seq<Token>, k: nat): int
    requires k <= |ts|
    decreases k
  {
    if k == 0 then 0 else Depth(ts, k - 1) + Delta(ts[k - 1])
  }

  /** No BLOCK-END comes before its start. */
  ghost predicate Nested(ts: seq<Token>) { forall k :: 0 <= k <= |ts| ==> Depth(ts, k) >= 0 }

  lemma {:induction false} DepthOfPrefix(a: seq<Token>, b: seq<Token>, k: nat)
    requires k <= |a| && k <= |b| && a[..k] == b[..k]
    ensures Depth(a, k) == Depth(b, k)
    decreases k
  {
    if k > 0 {
      assert a[..k - 1] == a[..k][..k - 1] && b[..k - 1] == b[..k][..k - 1];
      assert a[k - 1] == a[..k][k - 1] && b[k - 1] == b[..k][k - 1];
      DepthOfPrefix(a, b, k - 1);
    }
  }

  lemma {:induction false} DepthInserted(ts: seq<Token>, p: nat, t: Token, k: nat)
    requires p <= |ts| && k <= |ts| + 1
    ensures Depth(InsertAt(ts, p, t), k) == if k <= p then Depth(ts, k) else Depth(ts, k - 1) + Delta(t)
    decreases k
  {
    var r := InsertAt(ts, p, t);
    if k <= p {
      assert r[..k] == ts[..k];
      DepthOfPrefix(r, ts, k);
    } else {
      DepthInserted(ts, p, t, k - 1);
      if k - 1 > p { assert r[k - 1] == ts[k - 2]; }
    }
  }

  /** Inserting anything but a BLOCK-END anywhere, or a BLOCK-END last while a block is open. */
  lemma InsertNested(ts: seq<Token>, p: nat, t: Token)
    requires Nested(ts) && p <= |ts|
    requires Delta(t) >= 0 || (p == |ts| && Depth(ts, |ts|) > 0)
    ensures Nested(InsertAt(ts, p, t))
    ensures Depth(InsertAt(ts, p, t), |ts| + 1) == Depth(ts, |ts|) + Delta(t)
  {
    hide Depth, InsertAt;
    var r := InsertAt(ts, p, t);
    forall k | 0 <= k <= |r| ensures Depth(r, k) >= 0 {
      DepthInserted(ts, p, t, k);
      if k <= p { assert Depth(ts, k) >= 0; } else { assert Depth(ts, k - 1) >= 0; }
    }
    DepthInserted(ts, p, t, |ts| + 1);
  }

  // ----- Stacks -----

  /** From -1 at the bottom, each level is deeper than the one below. */
  predicate Ladder(indents: seq<int>, indent: int) {
    && (forall i, j :: 0 <= i < j < |indents| ==> indents[i] < indents[j])
    && (forall i :: 0 <= i < |indents| ==> indents[i] < indent)
    && (if indents == [] then indent == -1 else indents[0] == -1)
  }

  lemma LadderUp(indents: seq<int>, indent: int, column: int)
    requires Ladder(indents, indent)
    ensures indent < column ==> Ladder(indents + [indent], column)
  {
    var up := indents + [indent];
    assert forall i :: 0 <= i < |indents| ==> up[i] == indents[i];
  }

  lemma LadderDown(indents: seq<int>, indent: int)
    requires Ladder(indents, indent)
    ensures indent > -1 ==> indents != [] && Ladder(indents[..|indents| - 1], indents[|indents| - 1])
  {
  }

  class TokenScanner {
    var tokens: seq<Token>     // the queue
    var parsed: nat            // tokens handed to the parser
    var indents: seq<int>
    var indent: int
    var simpleKeys: seq<SimpleKey>
    var byToken: map<nat, nat>  // `simple_keys_by_tok`
    var flowLevel: nat
    var simpleKeyAllowed: bool
    var mark: Mark
    ghost var stream: seq<Token>  // handed out, then queued
    ghost var lost: set<nat>

    ghost function State(): Keys
      reads this
    {
      Keys(simpleKeys, byToken, lost)
    }

    ghost function Now(): View
      reads this
    {
      View(stream, parsed, indents, indent, State(), flowLevel, simpleKeyAllowed, mark)
    }

    ghost predicate Queued()
      reads this
    {
      && parsed <= |stream| && tokens == stream[parsed..] && (parsed > 0 ==> |tokens| >= 2)
      && Ladder(indents, indent) && Nested(stream) && Depth(stream, |stream|) == |indents|
    }

    ghost predicate Core()
      reads this
    {
      Queued() && |simpleKeys| == flowLevel + 1 && Sound(State(), parsed, stream, mark)
    }

    /** Between two calls of the parser. */
    ghost predicate Valid()
      reads this
    {
      Core() && Settled(State(), parsed, |stream|, simpleKeyAllowed, mark)
    }

    /** When a token is fetched. */
    ghost predicate Ready()
      reads this
    {
      Core() && Calm(State(), parsed, |stream|, simpleKeyAllowed)
    }

    ghost predicate Wants()
      reads this
    {
      Wanted(State(), parsed, |stream|, mark)
    }

    /** `fetch_stream_start`. */
    constructor ()
      ensures Valid() && stream == [Token(Kind.StreamStart, Mark(0, 0, 0))] && flowLevel == 0 && parsed == 0
      ensures State() == Keys([SimpleKey(false, false, 0, Mark(0, 0, 0))], map[], {})
      ensures indents == [] && indent == -1 && simpleKeyAllowed && mark == Mark(0, 0, 0) && Laws(Now())
    {
      mark := Mark(0, 0, 0);
      tokens, parsed := [Token(Kind.StreamStart, Mark(0, 0, 0))], 0;
      indents, indent := [], -1;
      simpleKeys, flowLevel, simpleKeyAllowed := [SimpleKey(false, false, 0, Mark(0, 0, 0))], 0, true;
      byToken, lost := map[], {};
      stream := [Token(Kind.StreamStart, Mark(0, 0, 0))];
      new;
      assert Depth(stream, 0) == 0;
      assert Depth(stream, 1) == Depth(stream, 0) + Delta(stream[0]) == 0;
      FirstLaws(Now());
    }

    // ----- The queue -----

    /** `yaml_insert_token` before token `number` of the stream: at the end, when that was handed out already. */
    method InsertToken(number: nat, t: Token)
      requires Queued() && number <= |stream| && Delta(t) >= 0
      modifies this`tokens, this`stream
      ensures stream == InsertAt(old(stream), Position(number, parsed, |old(stream)|), t) && tokens == stream[parsed..]
      ensures Nested(stream) && Depth(stream, |stream|) == old(Depth(stream, |stream|)) + Delta(t)
    {
      hide Depth, Nested, Ladder;
      if number < parsed { Appended(stream, t); } else { QueueInsert(stream, parsed, number, t); }
      tokens := InsertAt(tokens, number - parsed, t);
      InsertNested(stream, Position(number, parsed, |stream|), t);
      stream := InsertAt(stream, Position(number, parsed, |stream|), t);
    }

    method Append(kind: Kind, at: Mark)
      requires Queued() && Delta(Token(kind, at)) == 0
      modifies this`tokens, this`stream
      ensures Queued() && stream == old(stream) + [Token(kind, at)]
    {
      var t := Token(kind, at);
      InsertNested(stream, |stream|, t);
      Appended(stream, t);
      tokens := InsertAt(tokens, -1, t);
      stream := stream + [t];
    }

    /** The last step of fetching most tokens. */
    method AppendLast(kind: Kind, allowed: bool, end: Mark, ghost n: nat, ghost before: Keys, ghost was: bool)
      requires Core() && Delta(Token(kind, mark)) == 0 && NotBefore(end, mark)
      requires Calm(before, parsed, n, was) && Resting(State(), parsed) <= Resting(before, parsed)
      requires Resting(before, parsed) == {} || n == |stream|
      modifies this`tokens, this`stream, this`mark, this`simpleKeyAllowed
      ensures Valid() && stream == old(stream) + [Token(kind, old(mark))] && mark == end && simpleKeyAllowed == allowed
    {
      hide Nested, Depth, Ladder, Sound, Settled, Resting;
      Append(kind, mark);
      AppendSound(State(), parsed, old(stream), mark, Token(kind, mark));
      SettledByOne(before, State(), parsed, |old(stream)|, was, allowed, end);
      simpleKeyAllowed := allowed;
      LaterSound(State(), parsed, stream, mark, end);
      mark := end;
    }

    /** One turn of `fetch_more_tokens`, then `skip_token`: the head goes to the parser once two more tokens
        are queued, unless the index says that it may still become a key. */
    method Take() returns (t: Option<Token>, problem: Option<Problem>)
      requires Valid()
      modifies this`tokens, this`parsed, this`simpleKeys
      ensures problem.Some? <==>
        |old(tokens)| > 2 && old(parsed) in byToken && Overdue(old(simpleKeys)[byToken[old(parsed)]], mark)
      ensures problem.None? ==> Valid() && |simpleKeys| == |old(simpleKeys)| && (t.None? <==> old(Wants()))
      ensures problem.None? && t.None? ==> tokens == old(tokens) && parsed == old(parsed) && simpleKeys == old(simpleKeys)
      ensures problem.None? && t.Some? ==>
        && parsed == old(parsed) + 1 <= |stream| && t.value == stream[old(parsed)] && |tokens| == |old(tokens)| - 1
        && (forall i :: 0 <= i < |simpleKeys| && simpleKeys[i].possible && simpleKeys[i].number == old(parsed) ==> old(parsed) in lost)
        && (simpleKeys == old(simpleKeys) || (old(parsed) in byToken && byToken[old(parsed)] < |simpleKeys|
              && simpleKeys == old(simpleKeys)[byToken[old(parsed)] := old(simpleKeys)[byToken[old(parsed)]].(possible := false)]))
    {
      hide Nested, Depth, Ladder, Placed, Ordered, Tracked, Settled;
      problem := None;
      if |tokens| <= 2 { return None, None; }
      TakenSettled(State(), parsed, stream, simpleKeyAllowed, mark);
      if parsed in byToken {
        var valid;
        valid, problem := KeyIsValid(byToken[parsed]);
        if problem.Some? || valid { return None, problem; }
      }
      t := Some(tokens[0]);
      tokens, parsed := tokens[1..], parsed + 1;
      NoKeyBehind(State(), parsed, stream, mark);
    }

    // ----- Simple keys -----

    /** `simple_key_is_valid`. */
    method KeyIsValid(i: nat) returns (valid: bool, problem: Option<Problem>)
      requires i < |simpleKeys|
      modifies this`simpleKeys
      ensures problem.Some? <==> Overdue(old(simpleKeys)[i], mark)
      ensures valid <==> old(simpleKeys)[i].possible && !IsStale(old(simpleKeys)[i], mark)
      ensures problem.Some? || valid ==> simpleKeys == old(simpleKeys)
      ensures problem.None? && !valid ==> State() == Expired(old(State()), i)
      ensures !old(simpleKeys)[i].possible ==> simpleKeys == old(simpleKeys)
    {
      var key := simpleKeys[i];
      assert simpleKeys[i := simpleKeys[i]] == simpleKeys;
      if !key.possible { return false, None; }
      if IsStale(key, mark) {
        if key.required { return false, Some(KeyWithoutValue); }
        simpleKeys := simpleKeys[i := key.(possible := false)];
        return false, None;
      }
      return true, None;
    }

    /** `remove_simple_key`: a key that is required is never given up silently. */
    method RemoveSimpleKey() returns (problem: Option<Problem>)
      requires simpleKeys != []
      modifies this`simpleKeys, this`byToken
      ensures problem.Some? <==> Required(old(Inner(Now())))
      ensures problem.None? ==> State() == Removed(old(State()))
    {
      var i := |simpleKeys| - 1;
      if simpleKeys[i].possible {
        if simpleKeys[i].required { return Some(KeyWithoutValue); }
        simpleKeys := simpleKeys[i := simpleKeys[i].(possible := false)];
        byToken := Without(byToken, simpleKeys[i].number);
      }
      return None;
    }

    /** `save_simple_key`, for the token that is fetched next. */
    method SaveSimpleKey(ghost kind: Kind) returns (problem: Option<Problem>)
      requires Ready() && StartsKey(kind)
      modifies this`simpleKeys, this`byToken
      ensures problem.Some? <==> old(SaveFails(Now()))
      ensures problem.None? ==> |simpleKeys| == |old(simpleKeys)| && State() == OnSave(old(State()), simpleKeyAllowed, KeyHere(Now()))
      ensures problem.None? ==> Sound(State(), parsed, stream + [Token(kind, mark)], mark)
      ensures problem.None? ==> Resting(State(), parsed) <= old(Resting(State(), parsed))
      ensures problem.None? ==> forall i :: 0 <= i < |simpleKeys| - 1 && simpleKeys[i].possible ==> simpleKeys[i].number < |stream|
    {
      hide Nested, Depth, Ladder, Placed, Ordered, Tracked, Indexed;
      var required := flowLevel == 0 && indent == mark.column;
      problem := None;
      SlotsPlaced(State(), parsed, stream, mark);
      if simpleKeyAllowed {
        var key := SimpleKey(true, required, parsed + |tokens|, mark);
        RemovedSound(State(), parsed, stream, mark);
        problem := RemoveSimpleKey();
        if problem.Some? { return; }
        SavedSound(State(), parsed, stream, mark, key, Token(kind, mark));
        simpleKeys := simpleKeys[|simpleKeys| - 1 := key];
        byToken := byToken[key.number := |simpleKeys| - 1];
      } else {
        AppendSound(State(), parsed, stream, mark, Token(kind, mark));
      }
    }

    // ----- Indentation -----

    /** `roll_indent` with `number` -1. */
    method RollIndent(column: nat, kind: Kind, at: Mark) returns (problem: Option<Problem>)
      requires Core() && (kind.BlockSequenceStart? || kind.BlockMappingStart?)
      modifies this`indents, this`indent, this`tokens, this`stream
      ensures problem.Some? <==> flowLevel == 0 && old(indent) < column && |old(indents)| >= MAX_DEPTH
      ensures problem.None? ==> Core()
      ensures problem.None? ==> stream == Rolled(old(stream), flowLevel == 0 && old(indent) < column, kind, at)
      ensures problem.None? ==> (indents, indent) == Deepened(old(indents), old(indent), flowLevel == 0 && old(indent) < column, column)
    {
      hide Nested, Depth, Sound, Ladder, InsertAt;
      AppendSound(State(), parsed, stream, mark, Token(kind, at));
      problem := RollIndentAt(column, parsed + |tokens|, kind, at);
      Appended(old(stream), Token(kind, at));
    }

    /** `roll_indent` before token `number`. */
    method RollIndentAt(column: nat, number: nat, kind: Kind, at: Mark) returns (problem: Option<Problem>)
      requires Queued() && (kind.BlockSequenceStart? || kind.BlockMappingStart?) && number <= |stream|
      modifies this`indents, this`indent, this`tokens, this`stream
      ensures problem.Some? <==> flowLevel == 0 && old(indent) < column && |old(indents)| >= MAX_DEPTH
      ensures problem.None? ==> Queued()
      ensures problem.None? ==>
        stream == if flowLevel == 0 && old(indent) < column then InsertAt(old(stream), Position(number, parsed, |old(stream)|), Token(kind, at))
          else old(stream)
      ensures problem.None? ==> (indents, indent) == Deepened(old(indents), old(indent), flowLevel == 0 && old(indent) < column, column)
    {
      hide Nested, Depth, InsertAt, Ladder;
      if flowLevel > 0 { return None; }
      if indent < column {
        if |indents| >= MAX_DEPTH { return Some(TooManyIndents); }
        InsertToken(number, Token(kind, at));
        LadderUp(indents, indent, column);
        indents, indent := indents + [indent], column;
      }
      problem := None;
    }

    /** `unroll_indent`: one BLOCK-END for every level deeper than `column`. */
    method UnrollIndent(column: int)
      requires Core() && column >= -1
      modifies this`indents, this`indent, this`tokens, this`stream
      ensures Core() && Now() == Unrolled(old(Now()), column) && (flowLevel == 0 ==> indent <= column)
    {
      hide Nested, Depth, Sound, Ladder, InsertAt;
      if flowLevel > 0 { return; }
      while indent > column
        invariant Core() && Unrolled(Now(), column) == Unrolled(old(Now()), column)
        decreases |indents|
      {
        var t := Token(BlockEnd, mark);
        LadderDown(indents, indent);
        InsertNested(stream, |stream|, t);
        AppendSound(State(), parsed, stream, mark, t);
        Appended(stream, t);
        Appended(tokens, t);
        tokens := InsertAt(tokens, -1, t);
        stream := stream + [t];
        indent := indents[|indents| - 1];
        indents := indents[..|indents| - 1];
      }
    }

    // ----- Flow level -----

    /** `increase_flow_level`: the new slot gets the number of the bracket, which is queued only after this. */
    method IncreaseFlowLevel() returns (problem: Option<Problem>)
      requires Queued()
      modifies this`simpleKeys, this`flowLevel
      ensures problem.Some? <==> old(flowLevel) >= MAX_DEPTH
      ensures problem.None? ==> State() == Pushed(old(State()), |stream|, mark) && flowLevel == old(flowLevel) + 1
    {
      simpleKeys := simpleKeys + [SimpleKey(false, false, parsed + |tokens|, mark)];
      flowLevel := flowLevel + 1;
      if flowLevel > MAX_DEPTH { return Some(TooManyFlowLevels); }
      problem := None;
    }

    /** `decrease_flow_level`; at level 0 nothing happens. The entry deleted is that of the number in the slot. */
    method DecreaseFlowLevel()
      requires |simpleKeys| == flowLevel + 1
      modifies this`simpleKeys, this`byToken, this`flowLevel, this`lost
      ensures if old(flowLevel) > 0 then flowLevel == old(flowLevel) - 1 && State() == Popped(old(State()))
        else flowLevel == 0 && State() == old(State())
    {
      if flowLevel > 0 {
        flowLevel := flowLevel - 1;
        var last := |simpleKeys| - 1;
        if Shadows(simpleKeys) { lost := lost + {simpleKeys[last].number}; }
        byToken := Without(byToken, simpleKeys[last].number);
        simpleKeys := simpleKeys[..last];
      }
    }

    // ----- Tokens -----

    /** `scan_to_next_token`: at the block level a line break allows a simple key. */
    method ScanToNextToken(to: Mark)
      requires Valid() && Wants() && NotBefore(to, mark)
      modifies this`mark, this`simpleKeyAllowed
      ensures Ready() && Now() == ScannedTo(old(Now()), to)
    {
      hide Nested, Depth, Ladder, Sound, Settled;
      CalmWhenWanted(State(), parsed, |stream|, simpleKeyAllowed, mark);
      LaterSound(State(), parsed, stream, mark, to);
      var newLine := to.line > mark.line;
      mark := to;
      if newLine && flowLevel == 0 {
        NothingRests(State(), parsed);
        simpleKeyAllowed := true;
      }
    }

    /** `fetch_stream_end`: outside flow collections every block is closed. */
    method FetchStreamEnd() returns (problem: Option<Problem>)
      requires Ready()
      modifies this
      ensures problem.Some? <==> Required(old(Inner(Now())))
      ensures problem.None? ==> Valid() && parsed == old(parsed) && flowLevel == old(flowLevel) && !simpleKeyAllowed
      ensures problem.None? ==>
        Now() == Put(GivenUp(Unrolled(old(Now()).(mark := NextLine(old(mark))), -1)), Kind.StreamEnd, false, NextLine(old(mark)))
      ensures problem.None? && flowLevel == 0 ==> indents == [] && indent == -1 && Depth(stream, |stream|) == 0
    {
      hide Nested, Depth, Sound, Ladder, Settled, Resting;
      LaterSound(State(), parsed, stream, mark, NextLine(mark));
      if mark.column != 0 { mark := mark.(column := 0, line := mark.line + 1); }
      problem := Close(Kind.StreamEnd, mark);
    }

    /** Every block is closed, and then comes a token that is no content. */
    method Close(kind: Kind, end: Mark) returns (problem: Option<Problem>)
      requires Ready() && Delta(Token(kind, mark)) == 0 && NotBefore(end, mark)
      modifies this
      ensures problem.Some? <==> Required(old(Inner(Now())))
      ensures problem.None? ==> Valid() && Now() == Put(GivenUp(Unrolled(old(Now()), -1)), kind, false, end)
      ensures problem.None? && flowLevel == 0 ==> indents == [] && indent == -1 && Depth(stream, |stream|) == 0
    {
      hide Nested, Depth, Sound, Ladder, Settled, Resting;
      ghost var before := State();
      if flowLevel == 0 { NothingRests(State(), parsed); }
      UnrollIndent(-1);
      RemovedSound(State(), parsed, stream, mark);
      problem := RemoveSimpleKey();
      if problem.Some? { return; }
      AppendLast(kind, false, end, |old(stream)|, before, old(simpleKeyAllowed));
      if flowLevel == 0 { BottomOfLadder(indents, indent); }
    }

    /** `fetch_directive` and `fetch_document_indicator`. */
    method FetchDocumentToken(kind: Kind, end: Mark) returns (problem: Option<Problem>)
      requires Ready() && (kind.Directive? || kind.DocumentStart? || kind.DocumentEnd?) && NotBefore(end, mark)
      modifies this
      ensures problem.Some? <==> Required(old(Inner(Now())))
      ensures problem.None? ==> Valid() && Now() == Put(GivenUp(Unrolled(old(Now()), -1)), kind, false, end)
      ensures problem.None? && flowLevel == 0 ==> indents == [] && indent == -1 && Depth(stream, |stream|) == 0
    {
      problem := Close(kind, end);
    }

    /** `fetch_flow_collection_start`. */
    method FetchFlowStart(kind: Kind, end: Mark) returns (problem: Option<Problem>)
      requires Ready() && (kind.FlowSequenceStart? || kind.FlowMappingStart?) && NotBefore(end, mark)
      modifies this
      ensures problem.Some? <==> old(SaveFails(Now())) || old(flowLevel) >= MAX_DEPTH
      ensures problem.None? ==> Valid() && parsed == old(parsed) && flowLevel == old(flowLevel) + 1 && simpleKeyAllowed && mark == end
      ensures problem.None? ==>
        State() == Pushed(OnSave(old(State()), old(simpleKeyAllowed), old(KeyHere(Now()))), |old(stream)|, old(mark))
      ensures problem.None? ==> stream == old(stream) + [Token(kind, old(mark))] && indents == old(indents) && indent == old(indent)
    {
      hide Nested, Depth, Ladder, Sound, Settled, Resting;
      ghost var before, t := State(), Token(kind, mark);
      problem := SaveSimpleKey(kind);
      if problem.Some? { return; }
      PushedSound(State(), parsed, stream + [t], mark);
      problem := IncreaseFlowLevel();
      if problem.Some? { return; }
      Append(kind, mark);
      SettledByOne(before, State(), parsed, |old(stream)|, old(simpleKeyAllowed), true, end);
      LaterSound(State(), parsed, stream, mark, end);
      simpleKeyAllowed, mark := true, end;
    }

    /** `fetch_flow_collection_end`: when the collection could itself be a simple key, and nothing was saved
        inside it on its own level, the index forgets it. */
    method FetchFlowEnd(kind: Kind, end: Mark) returns (problem: Option<Problem>)
      requires Ready() && (kind.FlowSequenceEnd? || kind.FlowMappingEnd?) && NotBefore(end, mark)
      modifies this
      ensures problem.Some? <==> Required(old(Inner(Now())))
      ensures problem.None? ==> Valid() && parsed == old(parsed) && !simpleKeyAllowed && mark == end
      ensures problem.None? ==> flowLevel == (if old(flowLevel) > 0 then old(flowLevel) - 1 else 0)
      ensures problem.None? ==> State() == if old(flowLevel) > 0 then Popped(Removed(old(State()))) else Removed(old(State()))
      ensures problem.None? ==> stream == old(stream) + [Token(kind, old(mark))] && indents == old(indents) && indent == old(indent)
    {
      hide Nested, Depth, Ladder, Sound, Settled, Resting;
      ghost var before := State();
      RemovedSound(State(), parsed, stream, mark);
      problem := RemoveSimpleKey();
      if problem.Some? { return; }
      if flowLevel > 0 { PoppedSound(State(), parsed, stream, mark); }
      DecreaseFlowLevel();
      AppendLast(kind, false, end, |old(stream)|, before, old(simpleKeyAllowed));
    }

    /** A token before which the simple key is given up. */
    method FetchPlainToken(kind: Kind, allowed: bool, end: Mark, ghost before: Keys, ghost n: nat) returns (problem: Option<Problem>)
      requires Core() && Delta(Token(kind, mark)) == 0 && NotBefore(end, mark)
      requires Calm(before, parsed, n, simpleKeyAllowed) && Resting(State(), parsed) <= Resting(before, parsed)
      requires Resting(before, parsed) == {} || n == |stream|
      modifies this
      ensures problem.Some? <==> Required(old(Inner(Now())))
      ensures problem.None? ==>
        && Valid() && parsed == old(parsed) && flowLevel == old(flowLevel) && simpleKeyAllowed == allowed && mark == end
        && State() == Removed(old(State()))
        && stream == old(stream) + [Token(kind, old(mark))] && indents == old(indents) && indent == old(indent)
    {
      hide Nested, Depth, Ladder, Sound, Settled, Resting;
      RemovedSound(State(), parsed, stream, mark);
      problem := RemoveSimpleKey();
      if problem.Some? { return; }
      AppendLast(kind, allowed, end, n, before, old(simpleKeyAllowed));
    }

    /** `fetch_flow_entry`. */
    method FetchFlowEntry(end: Mark) returns (problem: Option<Problem>)
      requires Ready() && NotBefore(end, mark)
      modifies this
      ensures problem.Some? <==> Required(old(Inner(Now())))
      ensures problem.None? ==>
        && Valid() && parsed == old(parsed) && flowLevel == old(flowLevel) && simpleKeyAllowed && mark == end
        && State() == Removed(old(State()))
        && stream == old(stream) + [Token(FlowEntry, old(mark))] && indents == old(indents) && indent == old(indent)
    {
      hide Nested, Depth, Ladder, Sound, Settled, Resting;
      problem := FetchPlainToken(FlowEntry, true, end, State(), |stream|);
    }

    /** `fetch_block_entry`: in block context, after a BLOCK-SEQUENCE-START if the column is new. */
    method FetchBlockEntry(end: Mark) returns (problem: Option<Problem>)
      requires Ready() && NotBefore(end, mark)
      modifies this
      ensures problem.Some? <==>
        || (old(flowLevel) == 0 && !old(simpleKeyAllowed))
        || (old(flowLevel) == 0 && old(indent) < old(mark).column && |old(indents)| >= MAX_DEPTH)
        || (Required(old(Inner(Now()))))
      ensures old(flowLevel) == 0 && !old(simpleKeyAllowed) ==> problem == Some(EntryNotAllowed)
      ensures problem.None? ==>
        && Valid() && parsed == old(parsed) && flowLevel == old(flowLevel) && simpleKeyAllowed && mark == end
        && State() == Removed(old(State()))
        && stream == Rolled(old(stream), old(flowLevel == 0 && indent < mark.column), BlockSequenceStart, old(mark)) + [Token(BlockEntry, old(mark))]
        && (indents, indent) == Deepened(old(indents), old(indent), old(flowLevel == 0 && indent < mark.column), old(mark.column))
    {
      hide Nested, Depth, Ladder, Sound, Settled, Resting;
      ghost var before := State();
      if flowLevel == 0 {
        NothingRests(State(), parsed);
        if !simpleKeyAllowed { return Some(EntryNotAllowed); }
        problem := RollIndent(mark.column, BlockSequenceStart, mark);
        if problem.Some? { return; }
      }
      problem := FetchPlainToken(BlockEntry, true, end, before, |old(stream)|);
    }

    /** `fetch_key`. */
    method FetchKey(end: Mark) returns (problem: Option<Problem>)
      requires Ready() && NotBefore(end, mark)
      modifies this
      ensures problem.Some? <==>
        || (old(flowLevel) == 0 && !old(simpleKeyAllowed))
        || (old(flowLevel) == 0 && old(indent) < old(mark).column && |old(indents)| >= MAX_DEPTH)
        || (Required(old(Inner(Now()))))
      ensures old(flowLevel) == 0 && !old(simpleKeyAllowed) ==> problem == Some(KeyNotAllowed)
      ensures problem.None? ==>
        && Valid() && parsed == old(parsed) && flowLevel == old(flowLevel) && (simpleKeyAllowed <==> flowLevel == 0) && mark == end
        && State() == Removed(old(State()))
        && stream == Rolled(old(stream), old(flowLevel == 0 && indent < mark.column), BlockMappingStart, old(mark)) + [Token(Key, old(mark))]
        && (indents, indent) == Deepened(old(indents), old(indent), old(flowLevel == 0 && indent < mark.column), old(mark.column))
    {
      hide Nested, Depth, Ladder, Sound, Settled, Resting;
      ghost var before := State();
      if flowLevel == 0 {
        NothingRests(State(), parsed);
        if !simpleKeyAllowed { return Some(KeyNotAllowed); }
        problem := RollIndent(mark.column, BlockMappingStart, mark);
        if problem.Some? { return; }
      }
      problem := FetchPlainToken(Key, flowLevel == 0, end, before, |old(stream)|);
    }

    /** `fetch_anchor`, `fetch_tag`, `fetch_flow_scalar` and `fetch_plain_scalar`: tokens that may begin a simple
        key. A plain scalar whose scan went over a line break allows one behind it. */
    method FetchContent(kind: Kind, breaks: bool, end: Mark) returns (problem: Option<Problem>)
      requires Ready() && StartsKey(kind) && !kind.FlowSequenceStart? && !kind.FlowMappingStart? && NotBefore(end, mark)
      requires breaks ==> kind.PlainScalar?
      modifies this
      ensures problem.Some? <==> old(SaveFails(Now()))
      ensures problem.None? ==>
        && Valid() && parsed == old(parsed) && flowLevel == old(flowLevel) && simpleKeyAllowed == breaks && mark == end
        && State() == OnSave(old(State()), old(simpleKeyAllowed), old(KeyHere(Now())))
        && stream == old(stream) + [Token(kind, old(mark))] && indents == old(indents) && indent == old(indent)
    {
      hide Nested, Depth, Ladder, Sound, Settled, Resting;
      ghost var before := State();
      problem := SaveSimpleKey(kind);
      if problem.Some? { return; }
      Append(kind, mark);
      SettledByOne(before, State(), parsed, |old(stream)|, old(simpleKeyAllowed), breaks, end);
      LaterSound(State(), parsed, stream, mark, end);
      simpleKeyAllowed, mark := breaks, end;
    }

    /** `fetch_block_scalar`. */
    method FetchBlockScalar(end: Mark) returns (problem: Option<Problem>)
      requires Ready() && NotBefore(end, mark)
      modifies this
      ensures problem.Some? <==> Required(old(Inner(Now())))
      ensures problem.None? ==>
        && Valid() && parsed == old(parsed) && flowLevel == old(flowLevel) && simpleKeyAllowed && mark == end
        && State() == Removed(old(State()))
        && stream == old(stream) + [Token(BlockScalar, old(mark))] && indents == old(indents) && indent == old(indent)
    {
      hide Nested, Depth, Ladder, Sound, Settled, Resting;
      problem := FetchPlainToken(BlockScalar, true, end, State(), |stream|);
    }

    /** The first half of `fetch_value` when a simple key is in front: KEY, and BLOCK-MAPPING-START if the key's
        column is new. */
    method PromoteKey() returns (problem: Option<Problem>)
      requires Core() && Inner(Now()).possible
      modifies this
      ensures problem.Some? <==> flowLevel == 0 && old(indent) < old(Inner(Now())).mark.column && |old(indents)| >= MAX_DEPTH
      ensures mark == old(mark) && flowLevel == old(flowLevel) && parsed == old(parsed)
      ensures problem.None? ==> Core() && !simpleKeyAllowed && State() == Removed(old(State()))
      ensures problem.None? ==>
        var key, due := old(Inner(Now())), flowLevel == 0 && old(indent) < old(Inner(Now())).mark.column;
        stream == WithKey(old(stream), parsed, key, due) && (indents, indent) == Deepened(old(indents), old(indent), due, key.mark.column)
    {
      hide Nested, Depth, Ladder, Sound, InsertAt, WithKey;
      var key := simpleKeys[|simpleKeys| - 1];
      var t, u := Token(Key, key.mark), Token(BlockMappingStart, key.mark);
      SlotsPlaced(State(), parsed, stream, mark);
      RemovedSound(State(), parsed, stream, mark);
      PromotedSound(Removed(State()), parsed, stream, mark, key.number, t, u);
      KeyInserted(stream, parsed, key);
      InsertToken(key.number, t);
      problem := RollIndentAt(key.mark.column, key.number, BlockMappingStart, key.mark);
      simpleKeys := simpleKeys[|simpleKeys| - 1 := key.(possible := false)];
      byToken := Without(byToken, key.number);
      simpleKeyAllowed := false;
    }

    /** `fetch_value` behind a simple key. */
    method FetchSimpleValue(end: Mark) returns (problem: Option<Problem>)
      requires Ready() && NotBefore(end, mark) && Live(Inner(Now()), mark)
      modifies this
      ensures problem.Some? <==> old(flowLevel) == 0 && old(indent) < old(Inner(Now())).mark.column && |old(indents)| >= MAX_DEPTH
      ensures problem.None? ==>
        var key := old(Inner(Now()));
        && Valid() && parsed == old(parsed) && flowLevel == old(flowLevel) && mark == end && !simpleKeyAllowed
        && State() == Removed(old(State())) && (key.number < parsed ==> key.number in old(lost))
        && stream == WithKey(old(stream), parsed, key, flowLevel == 0 && old(indent) < key.mark.column) + [Token(Value, old(mark))]
        && (indents, indent) == Deepened(old(indents), old(indent), flowLevel == 0 && old(indent) < key.mark.column, key.mark.column)
    {
      hide Nested, Depth, Ladder, Sound, Settled, Resting, WithKey;
      ghost var before := State();
      NoKeyBehind(State(), parsed, stream, mark);
      RemovedSound(State(), parsed, stream, mark);
      NoneRest(State(), parsed, |stream|, simpleKeyAllowed);
      problem := PromoteKey();
      if problem.Some? { return; }
      AppendLast(Value, false, end, |stream|, before, old(simpleKeyAllowed));
    }

    /** `fetch_value` without a simple key. */
    method FetchComplexValue(end: Mark, ghost before: Keys) returns (problem: Option<Problem>)
      requires Core() && before.slots != [] && |before.slots| == |simpleKeys| && NotBefore(end, mark) && !Inner(Now()).possible
      requires Calm(before, parsed, |stream|, simpleKeyAllowed) && Sound(before, parsed, stream, mark)
      requires State() == Expired(before, flowLevel)
      requires var key := before.slots[flowLevel]; key.possible ==> IsStale(key, mark)
      modifies this
      ensures problem.Some? <==>
        old(flowLevel) == 0 && (!old(simpleKeyAllowed) || (old(indent) < old(mark).column && |old(indents)| >= MAX_DEPTH))
      ensures problem.None? ==>
        && Valid() && parsed == old(parsed) && flowLevel == old(flowLevel) && mark == end
        && (simpleKeyAllowed <==> flowLevel == 0) && State() == old(State())
        && stream == Rolled(old(stream), flowLevel == 0 && old(indent < mark.column), BlockMappingStart, old(mark)) + [Token(Value, old(mark))]
        && (indents, indent) == Deepened(old(indents), old(indent), flowLevel == 0 && old(indent < mark.column), old(mark.column))
    {
      hide Nested, Depth, Ladder, Sound, Settled, Resting, Expired, Calm;
      if flowLevel == 0 {
        if !simpleKeyAllowed { return Some(ValueNotAllowed); }
        NothingRests(State(), parsed);
        problem := RollIndent(mark.column, BlockMappingStart, mark);
        if problem.Some? { return; }
        CalmNow(State(), parsed, |stream|, simpleKeyAllowed);
        AppendLast(Value, true, end, |stream|, State(), simpleKeyAllowed);
      } else {
        if before.slots[flowLevel].possible {
          SettledByExpiry(before, parsed, |stream|, stream, simpleKeyAllowed, mark, end);
        } else {
          AlreadyExpired(before, flowLevel);
          SettledByOne(before, State(), parsed, |stream|, simpleKeyAllowed, false, end);
        }
        Append(Value, mark);
        AppendSound(State(), parsed, old(stream), mark, Token(Value, mark));
        LaterSound(State(), parsed, stream, mark, end);
        simpleKeyAllowed, mark := false, end;
        problem := None;
      }
    }

    /** `fetch_value`: behind a simple key the KEY goes in front of the key's first token exactly while that is
        queued. It has been handed out only if the index had lost the key. */
    method FetchValue(end: Mark) returns (problem: Option<Problem>)
      requires Ready() && NotBefore(end, mark)
      modifies this
      ensures problem.Some? <==>
        var key := old(Inner(Now()));
        || Overdue(key, old(mark))
        || (Live(key, old(mark)) && old(flowLevel) == 0 && old(indent) < key.mark.column && |old(indents)| >= MAX_DEPTH)
        || (!Live(key, old(mark)) && old(flowLevel) == 0
              && (!old(simpleKeyAllowed) || (old(indent) < old(mark).column && |old(indents)| >= MAX_DEPTH)))
      ensures problem.None? ==> Valid() && parsed == old(parsed) && flowLevel == old(flowLevel) && mark == end
      ensures problem.None? && Live(old(Inner(Now())), old(mark)) ==>
        var key := old(Inner(Now()));
        && !simpleKeyAllowed && State() == Removed(old(State()))
        && stream == WithKey(old(stream), parsed, key, flowLevel == 0 && old(indent) < key.mark.column) + [Token(Value, old(mark))]
        && (indents, indent) == Deepened(old(indents), old(indent), flowLevel == 0 && old(indent) < key.mark.column, key.mark.column)
        && (key.number < parsed ==> key.number in old(lost))
      ensures problem.None? && !Live(old(Inner(Now())), old(mark)) ==>
        && (simpleKeyAllowed <==> flowLevel == 0) && State() == Expired(old(State()), flowLevel)
        && stream == Rolled(old(stream), flowLevel == 0 && old(indent < mark.column), BlockMappingStart, old(mark)) + [Token(Value, old(mark))]
        && (indents, indent) == Deepened(old(indents), old(indent), flowLevel == 0 && old(indent < mark.column), old(mark.column))
    {
      hide Nested, Depth, Ladder, Sound, Settled, Resting, Calm, WithKey, Removed;
      ghost var before := State();
      ExpiredSound(State(), parsed, stream, mark, flowLevel);
      SlotsPlaced(State(), parsed, stream, mark);
      var valid;
      valid, problem := KeyIsValid(|simpleKeys| - 1);
      if problem.Some? { return; }
      if valid {
        problem := FetchSimpleValue(end);
      } else {
        problem := FetchComplexValue(end, before);
      }
    }

    /** `fetch_next_token`: the blocks to the right of the lexeme are closed, and then it is fetched. */
    method FetchNext(x: Lexeme) returns (problem: Option<Problem>)
      requires Valid() && Wants() && InOrder([x], mark)
      modifies this
      ensures Slotted(Closed(old(Now()), x)) && (problem.None? <==> Accepts(Closed(old(Now()), x), x))
      ensures problem.None? ==> Valid() && Now() == Fetched(Closed(old(Now()), x), x)
    {
      hide Nested, Depth, Ladder, Sound, Settled, Resting, Calm, Accepts, Fetched;
      ScanToNextToken(x.start);
      if flowLevel == 0 {
        NothingRests(State(), parsed);
        UnrollIndent(mark.column);
        CalmNow(State(), parsed, |stream|, simpleKeyAllowed);
      }
      CoreSlotted();
      if x.kind.StreamEnd? || x.kind.Directive? || x.kind.DocumentStart? || x.kind.DocumentEnd? {
        problem := FetchMarker(x);
      } else if x.kind.Key? || x.kind.Value? || x.kind.BlockEntry? || x.kind.FlowEntry? {
        problem := FetchIndicator(x);
      } else {
        problem := FetchNode(x);
      }
    }

    lemma CoreSlotted()
      requires Core()
      ensures Slotted(Now())
    {
    }

    method FetchMarker(x: Lexeme) returns (problem: Option<Problem>)
      requires Ready() && Slotted(Now()) && mark == x.start && InOrder([x], mark)
      requires x.kind.StreamEnd? || x.kind.Directive? || x.kind.DocumentStart? || x.kind.DocumentEnd?
      modifies this
      ensures problem.None? <==> Accepts(old(Now()), x)
      ensures problem.None? ==> Valid() && Now() == Fetched(old(Now()), x)
    {
      hide Nested, Depth, Ladder, Sound, Settled, Resting, Calm, Removed, Unrolled;
      if x.kind.StreamEnd? { problem := FetchStreamEnd(); } else { problem := FetchDocumentToken(x.kind, x.end); }
    }

    method FetchIndicator(x: Lexeme) returns (problem: Option<Problem>)
      requires Ready() && Slotted(Now()) && mark == x.start && InOrder([x], mark)
      requires x.kind.Key? || x.kind.Value? || x.kind.BlockEntry? || x.kind.FlowEntry?
      modifies this
      ensures problem.None? <==> Accepts(old(Now()), x)
      ensures problem.None? ==> Valid() && Now() == Fetched(old(Now()), x)
    {
      hide Nested, Depth, Ladder, Sound, Settled, Resting, Calm, Removed, Expired, Rolled, WithKey;
      if x.kind.Key? {
        problem := FetchKey(x.end);
      } else if x.kind.Value? {
        problem := FetchValue(x.end);
      } else if x.kind.BlockEntry? {
        problem := FetchBlockEntry(x.end);
      } else {
        problem := FetchFlowEntry(x.end);
      }
    }

    method FetchNode(x: Lexeme) returns (problem: Option<Problem>)
      requires Ready() && Slotted(Now()) && mark == x.start && InOrder([x], mark)
      requires !(x.kind.StreamEnd? || x.kind.Directive? || x.kind.DocumentStart? || x.kind.DocumentEnd?)
      requires !(x.kind.Key? || x.kind.Value? || x.kind.BlockEntry? || x.kind.FlowEntry?)
      modifies this
      ensures problem.None? <==> Accepts(old(Now()), x)
      ensures problem.None? ==> Valid() && Now() == Fetched(old(Now()), x)
    {
      hide Nested, Depth, Ladder, Sound, Settled, Resting, Calm, Removed, OnSave, Pushed, Popped;
      if x.kind.FlowSequenceStart? || x.kind.FlowMappingStart? {
        problem := FetchFlowStart(x.kind, x.end);
      } else if x.kind.FlowSequenceEnd? || x.kind.FlowMappingEnd? {
        problem := FetchFlowEnd(x.kind, x.end);
      } else if x.kind.BlockScalar? && flowLevel == 0 {
        problem := FetchBlockScalar(x.end);
      } else if StartsKey(x.kind) {
        problem := FetchContent(x.kind, x.breaks, x.end);
      } else {
        problem := Some(NoToken);
      }
    }

    /** `yaml_parser_scan`: the next token, with what had to be fetched for it. */
    method Scan(script: seq<Lexeme>) returns (t: Option<Token>, used: nat, problem: Option<Problem>)
      requires Valid() && Laws(Now()) && InOrder(script, mark)
      modifies this
      ensures used <= |script| && (problem.None? && t.None? ==> used == |script|)
      ensures problem.None? ==> Valid() && Laws(Now()) && InOrder(script[used..], mark)
      ensures problem.None? ==> |stream| >= old(parsed) && stream[..old(parsed)] == old(stream)[..old(parsed)]
      ensures problem.None? && t.Some? ==> parsed == old(parsed) + 1 <= |stream| && stream[old(parsed)] == t.value
      ensures problem.None? && t.None? ==> parsed == old(parsed) && Wants()
      ensures problem.None? ==> Lexemes(stream) == Lexemes(old(stream)) + TokensOf(script[..used])
      ensures problem.None? && used == 0 ==> stream == old(stream)
    {
      hide Nested, Depth, Ladder, Sound, Settled, Resting, Calm, Removed, Wanted, Laws, Accepts, Fetched, Closed, Lexemes, TokensOf;
      used, problem := 0, None;
      NoTokens(script);
      while true
        invariant used <= |script| && problem.None? && Valid() && Laws(Now()) && InOrder(script[used..], mark)
        invariant parsed == old(parsed) && |stream| >= parsed && stream[..parsed] == old(stream)[..parsed]
        invariant Lexemes(stream) == Lexemes(old(stream)) + TokensOf(script[..used])
        invariant used == 0 ==> stream == old(stream)
        decreases |script| - used
      {
        t, problem := TakeNext();
        if t.Some? || problem.Some? || used == |script| { return; }
        problem := FetchFrom(script, used);
        if problem.Some? { return; }
        MoreTokens(script, used);
        used := used + 1;
      }
    }

    /** `Take`, as far as whole runs go. */
    method TakeNext() returns (t: Option<Token>, problem: Option<Problem>)
      requires Valid() && Laws(Now())
      modifies this`tokens, this`parsed, this`simpleKeys
      ensures problem.None? ==> Valid() && Laws(Now()) && (t.None? ==> Wants() && parsed == old(parsed))
      ensures problem.None? && t.Some? ==> parsed == old(parsed) + 1 <= |stream| && t.value == stream[old(parsed)]
    {
      hide Nested, Depth, Ladder, Sound, Settled, Resting, Calm, Laws, Wanted;
      ghost var v := Now();
      t, problem := Take();
      if problem.None? && t.Some? {
        if v.keys != State() { assert State() == Expired(v.keys, byToken[v.parsed]); }
        HandedOut(v, Now());
      }
    }

    /** One lexeme of a script. */
    method FetchFrom(script: seq<Lexeme>, used: nat) returns (problem: Option<Problem>)
      requires Valid() && Laws(Now()) && Wants() && used < |script| && InOrder(script[used..], mark)
      modifies this
      ensures problem.None? ==> Valid() && Laws(Now()) && InOrder(script[used + 1..], mark)
      ensures problem.None? ==> parsed == old(parsed) && |stream| > |old(stream)| && stream[..parsed] == old(stream)[..parsed]
      ensures problem.None? ==> Lexemes(stream) == Lexemes(old(stream)) + TokensOf([script[used]])
    {
      hide Nested, Depth, Ladder, Sound, Settled, Resting, Calm, Laws, Wanted, Accepts, Fetched, Closed, Lexemes, Slotted;
      ghost var v, x := Now(), script[used];
      FollowsInOrder(script[used..], mark);
      assert script[used..][1..] == script[used + 1..] && script[used..][0] == x;
      problem := FetchNext(script[used]);
      if problem.None? {
        StepLaws(v, x);
        StepLexemes(v, x);
        StepExtends(v, x);
      }
    }

    /** All the tokens that are handed out for a text. At each of them in block context, no block that is still
        open began to the right of it; blocks start, entries stand and blocks end where they should, up to what is
        still missing when the scan fails; and every lexeme has its token, at its place and in order. */
    method ScanAll(script: seq<Lexeme>) returns (out: seq<Token>, problem: Option<Problem>)
      requires Valid() && Laws(Now()) && parsed == 0 && InOrder(script, mark)
      modifies this
      ensures Nested(out) && InBlocks(out) && BeginsRight(out) && (problem.None? ==> Entries(stream))
      ensures problem.None? ==> Valid() && Laws(Now()) && out == stream[..parsed] && Wants()
      ensures problem.None? ==> Lexemes(stream) == Lexemes(old(stream)) + TokensOf(script)
    {
      hide Depth, Ladder, Sound, Settled, Resting, Calm, Removed, Wanted, InBlocks, OpenColumns, FlowOpen, Stacked, KeysInPlace, LineKept, Lexemes, TokensOf, Entries, KeysClear, Law, BeginsRight;
      out, problem := [], None;
      PrefixNested(stream, 0);
      PrefixRight(Now(), 0);
      var used, t := 0, None;
      NoTokens(script);
      while true
        invariant used <= |script| && Valid() && Laws(Now()) && InOrder(script[used..], mark)
        invariant out == stream[..parsed] && Nested(out) && InBlocks(out) && BeginsRight(out)
        invariant Lexemes(stream) == Lexemes(old(stream)) + TokensOf(script[..used])
        decreases |script| - used, |stream| - parsed
      {
        var more;
        t, more, problem := Scan(script[used..]);
        if problem.Some? { return; }
        MoreTokensOf(script, used, more);
        if t.None? {
          assert script[..used + more] == script;
          return;
        }
        assert script[used..][more..] == script[used + more..];
        out, used := out + [t.value], used + more;
        PrefixNested(stream, parsed);
        PrefixRight(Now(), parsed);
      }
    }
  }

  /** The beginning of a stream that keeps the laws of `BlockEntries`. */
  ghost predicate BeginsRight(out: seq<Token>) { exists ts :: out <= ts && Entries(ts) }

  lemma PrefixRight(v: View, n: nat)
    requires Laws(v) && n <= |v.stream|
    ensures InBlocks(v.stream[..n]) && BeginsRight(v.stream[..n]) && Entries(v.stream)
  {
    hide InBlocks, Stacked, KeysInPlace, LineKept, Entries, KeysClear;
    PrefixInBlocks(v.stream, n);
    assert v.stream[..n] <= v.stream;
  }

  /** The tokens of lexemes. A `?` gives a KEY, which may also be inserted, and is left out. */
  function TokensOf(script: seq<Lexeme>): seq<Token> {
    if script == [] then []
    else TokensOf(script[..|script| - 1]) + if script[|script| - 1].kind.Key? then [] else [TokenOf(script[|script| - 1])]
  }

  lemma NoTokens(script: seq<Lexeme>)
    ensures TokensOf(script[..0]) == [] && forall ts: seq<Token> :: ts + TokensOf(script[..0]) == ts
  {
  }

  lemma MoreTokens(script: seq<Lexeme>, used: nat)
    requires used < |script|
    ensures TokensOf(script[..used + 1]) == TokensOf(script[..used]) + TokensOf([script[used]])
    ensures forall ts: seq<Token> ::
      (ts + TokensOf(script[..used])) + TokensOf([script[used]]) == ts + TokensOf(script[..used + 1])
  {
    assert script[..used + 1][..used] == script[..used];
    assert [script[used]][..0] == [];
    assert TokensOf([script[used]]) == [] + if script[used].kind.Key? then [] else [TokenOf(script[used])];
  }

  lemma {:induction false} MoreTokensOf(script: seq<Lexeme>, used: nat, more: nat)
    requires used + more <= |script|
    ensures TokensOf(script[..used + more]) == TokensOf(script[..used]) + TokensOf(script[used..][..more])
    ensures forall ts: seq<Token> ::
      (ts + TokensOf(script[..used])) + TokensOf(script[used..][..more]) == ts + TokensOf(script[..used + more])
    decreases more
  {
    if more > 0 {
      MoreTokensOf(script, used, more - 1);
      assert script[..used + more][..used + more - 1] == script[..used + (more - 1)];
      assert script[used..][..more][..more - 1] == script[used..][..more - 1];
    } else {
      assert script[used..][..0] == [];
    }
  }

  /** A token has been handed out. */
  lemma HandedOut(v: View, w: View)
    requires Laws(v) && w == v.(parsed := v.parsed + 1, keys := w.keys)
    requires w.keys == v.keys || exists i :: 0 <= i < |v.keys.slots| && w.keys == Expired(v.keys, i)
    ensures Laws(w)
  {
    hide Laws, Expired;
    if w.keys != v.keys {
      var i :| 0 <= i < |v.keys.slots| && w.keys == Expired(v.keys, i);
      TakenLaws(v, i);
    } else {
      SomeSlot(v);
      TakenLaws(v, 0);
    }
  }

  lemma SomeSlot(v: View)
    requires Laws(v)
    ensures |v.keys.slots| > 0
  {
  }

  // ----- Where KEY goes -----

  function Opening(key: SimpleKey, due: bool): seq<Token> {
    if due then [Token(BlockMappingStart, key.mark), Token(Key, key.mark)] else [Token(Key, key.mark)]
  }

  /** BLOCK-MAPPING-START and KEY stand in front of the key's first token exactly when that has not been
      handed out; otherwise they stand behind everything, in the other order. */
  lemma KeyInFrontExactlyWhen(ts: seq<Token>, parsed: nat, key: SimpleKey, due: bool)
    requires parsed <= |ts| && key.number < |ts| && StartsKey(ts[key.number].kind)
    ensures WithKey(ts, parsed, key, due) == ts[..key.number] + Opening(key, due) + ts[key.number..] <==> key.number >= parsed
    ensures key.number < parsed ==>
      WithKey(ts, parsed, key, due) == ts + if due then [Token(Key, key.mark), Token(BlockMappingStart, key.mark)] else [Token(Key, key.mark)]
  {
    var r, front := WithKey(ts, parsed, key, due), ts[..key.number] + Opening(key, due) + ts[key.number..];
    if key.number >= parsed {
      assert r == front;
    } else {
      assert r[key.number] == ts[key.number];
      assert front[key.number] == Opening(key, due)[0];
    }
  }

  /** For a key that the index has lost, that is the case when its collection has more than its two brackets,
      unless a token further ahead is being held back. */
  lemma LostKeyIsLateExactlyWhen(s: Keys, parsed: nat, ts: seq<Token>, now: Mark)
    requires Sound(s, parsed, ts, now) && Wanted(s, parsed, |ts|, now) && (parsed > 0 ==> |ts| >= parsed + 2)
    requires s.slots[|s.slots| - 1].possible && s.slots[|s.slots| - 1].number in s.lost
    ensures var n := s.slots[|s.slots| - 1].number;
      n < parsed <==> |ts| - n > 2 && !(parsed < n && Held(s, parsed, now))
  {
  }

  const OUTER := SimpleKey(true, false, 1, Mark(0, 0, 0))

  const INSIDE := Keys([OUTER, SimpleKey(false, false, 1, Mark(0, 0, 0))], map[1 := 0], {})

  function KindsOf(ts: seq<Token>): seq<Kind> { seq(|ts|, i requires 0 <= i < |ts| => ts[i].kind) }

  /** On the first line, at column `index`, with no block open. */
  ghost predicate At(s: TokenScanner, parsed: nat, kinds: seq<Kind>, keys: Keys, allowed: bool, index: nat)
    reads s
  {
    && s.Valid() && s.parsed == parsed && KindsOf(s.stream) == kinds && s.State() == keys && s.simpleKeyAllowed == allowed
    && s.mark == Mark(index, 0, index) && s.indents == [] && s.indent == -1 && s.flowLevel == |keys.slots| - 1
  }

  /** `[?`, with the outer key saved. */
  method ScanOuter(s: TokenScanner)
    requires At(s, 0, [Kind.StreamStart], Keys([SimpleKey(false, false, 0, Mark(0, 0, 0))], map[], {}), true, 0)
    modifies s
    ensures At(s, 0, [Kind.StreamStart, FlowSequenceStart, Key], INSIDE, false, 2)
  {
    hide Nested, Depth, Sound, Settled, Calm, Ladder, Resting;
    var t, p := s.Take();
    s.ScanToNextToken(Mark(0, 0, 0));
    p := s.FetchFlowStart(FlowSequenceStart, Mark(1, 0, 1));
    assert s.State() == INSIDE && KindsOf(s.stream) == [Kind.StreamStart, FlowSequenceStart];
    t, p := s.Take();
    s.ScanToNextToken(Mark(1, 0, 1));
    p := s.FetchKey(Mark(2, 0, 2));
  }

  /** STREAM-START is handed out, the bracket is held back. */
  method HandFirst(s: TokenScanner) returns (first: Kind)
    requires At(s, 0, [Kind.StreamStart, FlowSequenceStart, Key], INSIDE, false, 2)
    modifies s
    ensures At(s, 1, [Kind.StreamStart, FlowSequenceStart, Key], INSIDE, false, 2) && first == Kind.StreamStart
  {
    hide Nested, Depth, Sound, Settled, Calm, Ladder, Resting;
    assert s.stream[0].kind == KindsOf(s.stream)[0];
    var t, p := s.Take();
    first := t.value.kind;
  }

  /** ` a :` */
  method ScanInner(s: TokenScanner)
    requires At(s, 1, [Kind.StreamStart, FlowSequenceStart, Key], INSIDE, false, 2)
    modifies s
    ensures At(s, 1, [Kind.StreamStart, FlowSequenceStart, Key, PlainScalar, Value], INSIDE, false, 6)
  {
    hide Nested, Depth, Sound, Settled, Calm, Ladder, Resting;
    var t, p := s.Take();
    s.ScanToNextToken(Mark(3, 0, 3));
    p := s.FetchContent(PlainScalar, false, Mark(4, 0, 4));
    assert KindsOf(s.stream) == [Kind.StreamStart, FlowSequenceStart, Key, PlainScalar] && s.State() == INSIDE;
    t, p := s.Take();
    s.ScanToNextToken(Mark(5, 0, 5));
    p := s.FetchValue(Mark(6, 0, 6));
    assert s.State().slots == INSIDE.slots;
  }

  /** ` b` */
  method ScanValue(s: TokenScanner)
    requires At(s, 1, [Kind.StreamStart, FlowSequenceStart, Key, PlainScalar, Value], INSIDE, false, 6)
    modifies s
    ensures At(s, 1, [Kind.StreamStart, FlowSequenceStart, Key, PlainScalar, Value, PlainScalar], INSIDE, false, 8)
  {
    hide Nested, Depth, Sound, Settled, Calm, Ladder, Resting;
    var t, p := s.Take();
    s.ScanToNextToken(Mark(7, 0, 7));
    p := s.FetchContent(PlainScalar, false, Mark(8, 0, 8));
  }

  /** `]`: the entry of the bracket is deleted. */
  method ScanClose(s: TokenScanner)
    requires At(s, 1, [Kind.StreamStart, FlowSequenceStart, Key, PlainScalar, Value, PlainScalar], INSIDE, false, 8)
    modifies s
    ensures At(s, 1, [Kind.StreamStart, FlowSequenceStart, Key, PlainScalar, Value, PlainScalar, FlowSequenceEnd], Keys([OUTER], map[], {1}), false, 9)
  {
    hide Nested, Depth, Sound, Settled, Calm, Ladder, Resting;
    var t, p := s.Take();
    s.ScanToNextToken(Mark(8, 0, 8));
    p := s.FetchFlowEnd(FlowSequenceEnd, Mark(9, 0, 9));
  }

  /** The bracket is handed out, and all up to the last two. */
  method HandOut(s: TokenScanner) returns (kinds: seq<Kind>)
    requires At(s, 1, [Kind.StreamStart, FlowSequenceStart, Key, PlainScalar, Value, PlainScalar, FlowSequenceEnd], Keys([OUTER], map[], {1}), false, 9)
    modifies s
    ensures At(s, 5, [Kind.StreamStart, FlowSequenceStart, Key, PlainScalar, Value, PlainScalar, FlowSequenceEnd], Keys([OUTER], map[], {1}), false, 9)
    ensures kinds == [FlowSequenceStart, Key, PlainScalar, Value]
  {
    hide Nested, Depth, Sound, Settled, Calm, Ladder, Resting;
    assert forall k :: 1 <= k < 5 ==> s.stream[k].kind == KindsOf(s.stream)[k];
    var a, b, c, d, p;
    a, p := s.Take();
    b, p := s.Take();
    c, p := s.Take();
    d, p := s.Take();
    kinds := [a.value.kind, b.value.kind, c.value.kind, d.value.kind];
  }

  /** The second `:`. */
  method ScanColon(s: TokenScanner)
    requires At(s, 5, [Kind.StreamStart, FlowSequenceStart, Key, PlainScalar, Value, PlainScalar, FlowSequenceEnd], Keys([OUTER], map[], {1}), false, 9)
    modifies s
    ensures s.Valid() && s.parsed == 5
    ensures KindsOf(s.stream) == [Kind.StreamStart, FlowSequenceStart, Key, PlainScalar, Value, PlainScalar, FlowSequenceEnd, Key, BlockMappingStart, Value]
  {
    hide Nested, Depth, Sound, Settled, Calm, Ladder, Resting;
    assert s.tokens == s.stream[5..];
    var t, p := s.Take();
    s.ScanToNextToken(Mark(9, 0, 9));
    p := s.FetchValue(Mark(10, 0, 10));
  }

  /** `[? a : b]: c`, up to the second `:`. The index loses the outer key at the `]`, since nothing inside has
      been saved in its place, so the bracket is handed out before the `:`, and KEY and BLOCK-MAPPING-START
      come too late. */
  method FlowCollectionAsKey() returns (kinds: seq<Kind>)
    ensures kinds == [Kind.StreamStart, FlowSequenceStart, Key, PlainScalar, Value, PlainScalar, FlowSequenceEnd, Key, BlockMappingStart, Value]
  {
    hide Nested, Depth, Sound, Settled, Calm, Ladder, Resting;
    var s := new TokenScanner();
    ScanOuter(s);
    var first := HandFirst(s);
    ScanInner(s);
    ScanValue(s);
    ScanClose(s);
    var out := HandOut(s);
    ScanColon(s);
    assert KindsOf(s.tokens) == KindsOf(s.stream)[5..];
    kinds := [first] + out + KindsOf(s.tokens);
  }

  /** Two insertions at the place of a key that is given up. */
  lemma PromotedSound(s: Keys, parsed: nat, ts: seq<Token>, now: Mark, number: nat, t: Token, u: Token)
    requires Sound(s, parsed, ts, now) && number < |ts| && parsed <= |ts|
    requires forall i :: 0 <= i < |s.slots| && s.slots[i].possible ==> s.slots[i].number < number
    ensures var p := Position(number, parsed, |ts|);
      var r := InsertAt(ts, p, t);
      var q := Position(number, parsed, |r|);
      && Sound(s, parsed, r, now) && Sound(s, parsed, InsertAt(r, q, u), now)
      && (if number < parsed then r == ts + [t] && InsertAt(r, q, u) == ts + [t] + [u]
          else r == ts[..number] + [t] + ts[number..] && InsertAt(r, q, u) == (ts[..number] + [u]) + [t] + ts[number..])
  {
    var p := Position(number, parsed, |ts|);
    var r := InsertAt(ts, p, t);
    InsertTwice(ts, p, t, u);
    hide Sound;
    InsertSound(s, parsed, ts, now, p, t);
    InsertSound(s, parsed, r, now, Position(number, parsed, |r|), u);
  }

  lemma KeyInserted(ts: seq<Token>, parsed: nat, key: SimpleKey)
    requires parsed <= |ts| && key.number < |ts|
    ensures var r := InsertAt(ts, Position(key.number, parsed, |ts|), Token(Key, key.mark));
      && r == WithKey(ts, parsed, key, false)
      && InsertAt(r, Position(key.number, parsed, |r|), Token(BlockMappingStart, key.mark)) == WithKey(ts, parsed, key, true)
  {
    InsertTwice(ts, Position(key.number, parsed, |ts|), Token(Key, key.mark), Token(BlockMappingStart, key.mark));
  }

  lemma CalmNow(s: Keys, parsed: nat, n: nat, allowed: bool)
    requires Resting(s, parsed) == {}
    ensures Calm(s, parsed, n, allowed)
  {
  }

  lemma PrefixNested(ts: seq<Token>, k: nat)
    requires Nested(ts) && k <= |ts|
    ensures Nested(ts[..k])
  {
    forall j | 0 <= j <= k ensures Depth(ts[..k], j) >= 0 {
      assert ts[..k][..j] == ts[..j];
      DepthOfPrefix(ts[..k], ts, j);
    }
  }

  lemma NoneRest(s: Keys, parsed: nat, n: nat, allowed: bool)
    requires s.slots != [] && s.slots[|s.slots| - 1].possible && Calm(s, parsed, n, allowed)
    ensures Resting(s, parsed) == {}
  {
  }

  lemma AlreadyExpired(s: Keys, i: nat)
    requires i < |s.slots| && !s.slots[i].possible
    ensures Expired(s, i) == s
  {
    assert s.slots[i := s.slots[i]] == s.slots;
  }

  /** Where token `number` of the stream still is, or the end when it was handed out already. */
  function Position(number: nat, parsed: nat, n: nat): nat { if number < parsed then n else number }

  lemma Appended(ts: seq<Token>, t: Token)
    ensures InsertAt(ts, |ts|, t) == ts + [t] == InsertAt(ts, -1, t)
  {
  }

  lemma SlotsPlaced(s: Keys, parsed: nat, ts: seq<Token>, now: Mark)
    requires Sound(s, parsed, ts, now)
    ensures forall i :: 0 <= i < |s.slots| ==> s.slots[i].number < |ts|
  {
  }

  lemma NoKeyBehind(s: Keys, parsed: nat, ts: seq<Token>, now: Mark)
    requires Sound(s, parsed, ts, now)
    ensures forall i :: 0 <= i < |s.slots| && s.slots[i].possible && s.slots[i].number < parsed ==> s.slots[i].number in s.lost
  {
  }

  lemma BottomOfLadder(indents: seq<int>, indent: int)
    requires Ladder(indents, indent) && indent <= -1
    ensures indents == [] && indent == -1
  {
  }

  lemma InsertTwice(ts: seq<Token>, p: nat, t: Token, u: Token)
    requires p <= |ts|
    ensures InsertAt(ts, p, t) == ts[..p] + [t] + ts[p..]
    ensures InsertAt(InsertAt(ts, p, t), p, u) == (ts[..p] + [u]) + [t] + ts[p..]
  {
    var r := InsertAt(ts, p, t);
    assert r[..p] == ts[..p] && r[p..] == [t] + ts[p..];
  }

  /** Inserting into the queue is inserting into the stream. */
  lemma QueueInsert(ts: seq<Token>, parsed: nat, number: nat, t: Token)
    requires parsed <= number <= |ts|
    ensures InsertAt(ts, number, t)[parsed..] == InsertAt(ts[parsed..], number - parsed, t)
  {
    var q := ts[parsed..];
    assert q[..number - parsed] == ts[parsed..number] && q[number - parsed..] == ts[number..];
    assert ts[..number][parsed..] == ts[parsed..number];
  }
}
