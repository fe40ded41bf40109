/** What fetching a token does, step by step, as a function of the scanner's state (scannerc.go,
    `yaml_parser_fetch_next_token` and the fetchers behind it). Which lexeme comes next is given from outside. */
module ScanSteps {
  import opened SimpleKeys

  const MAX_DEPTH := 10000

  /** What the scanner finds next, and whether the scan of a plain scalar went over a line break. */
  datatype Lexeme = Lexeme(kind: Kind, start: Mark, end: Mark, breaks: bool)

  /** The end of the stream is on a line of its own. */
  function NextLine(m: Mark): Mark { if m.column != 0 then m.(column := 0, line := m.line + 1) else m }

  /** The least a lexeme moves the scanner. */
  function EndOf(x: Lexeme): Mark { if x.kind == Kind.StreamEnd then NextLine(x.start) else x.start }

  /** Lexemes follow each other in the text, from `now` on. */
  ghost predicate InOrder(script: seq<Lexeme>, now: Mark) {
    && (script != [] ==> NotBefore(script[0].start, now))
    && (forall k :: 0 <= k < |script| ==> NotBefore(script[k].end, EndOf(script[k])) && (script[k].breaks ==> script[k].kind.PlainScalar?))
    && forall k :: 0 <= k < |script| - 1 ==> NotBefore(script[k + 1].start, script[k].end)
  }

  lemma FollowsInOrder(script: seq<Lexeme>, now: Mark)
    requires script != [] && InOrder(script, now)
    ensures forall later: Mark :: NotBefore(script[0].end, later) ==> InOrder(script[1..], later)
  {
    var rest := script[1..];
    assert forall k :: 0 <= k < |rest| ==> rest[k] == script[k + 1];
  }

  // ----- The state -----

  /** `stream` holds the tokens handed out and then those queued; `parsed` counts the former. */
  datatype View = View(stream: seq<Token>, parsed: nat, indents: seq<int>, indent: int, keys: Keys, flowLevel: nat,
                       allowed: bool, mark: Mark)

  /** The key that must not be given up is there. */
  predicate Required(key: SimpleKey) { key.possible && key.required }

  /** A key that must not be given up, and can no longer be one. */
  predicate Overdue(key: SimpleKey, now: Mark) { Required(key) && IsStale(key, now) }

  predicate Live(key: SimpleKey, now: Mark) { key.possible && !IsStale(key, now) }

  function Inner(v: View): SimpleKey
    requires v.keys.slots != []
  {
    v.keys.slots[|v.keys.slots| - 1]
  }

  /** The key that a token fetched here may begin. */
  function KeyHere(v: View): SimpleKey {
    SimpleKey(true, v.flowLevel == 0 && v.indent == v.mark.column, |v.stream|, v.mark)
  }

  /** `save_simple_key`, when it succeeds. */
  function OnSave(s: Keys, allowed: bool, key: SimpleKey): Keys
    requires s.slots != []
  {
    if allowed then Saved(Removed(s), key) else s
  }

  /** Saving a key would give up one that is required. */
  predicate SaveFails(v: View)
    requires v.keys.slots != []
  {
    v.allowed && Required(Inner(v))
  }

  // ----- Indentation -----

  /** `scan_to_next_token`: in block context a line break allows a simple key. */
  function ScannedTo(v: View, to: Mark): View {
    v.(mark := to, allowed := v.allowed || (v.flowLevel == 0 && to.line > v.mark.line))
  }

  /** `unroll_indent`. */
  function Unrolled(v: View, column: int): (r: View)
    ensures r == v.(stream := r.stream, indents := r.indents, indent := r.indent) && v.stream <= r.stream
    decreases |v.indents|
  {
    if v.flowLevel > 0 || v.indent <= column || v.indents == [] then v
    else
      Unrolled(v.(stream := v.stream + [Token(BlockEnd, v.mark)], indent := v.indents[|v.indents| - 1], indents := v.indents[..|v.indents| - 1]),
               column)
  }

  /** A block that begins at this column would be deeper than the one it stands in. */
  predicate Due(v: View, column: int) { v.flowLevel == 0 && v.indent < column }

  predicate TooDeep(v: View, column: int) { Due(v, column) && |v.indents| >= MAX_DEPTH }

  /** The stream with a block's start token at its end, if one is due. */
  function Rolled(ts: seq<Token>, due: bool, kind: Kind, at: Mark): seq<Token> {
    if due then ts + [Token(kind, at)] else ts
  }

  /** The stack of indentations with a new level on it, if one is due. */
  function Deepened(indents: seq<int>, indent: int, due: bool, column: int): (seq<int>, int) {
    if due then (indents + [indent], column) else (indents, indent)
  }

  /** `roll_indent` at the end of the stream. */
  function Begun(v: View, kind: Kind): View {
    var (indents, indent) := Deepened(v.indents, v.indent, Due(v, v.mark.column), v.mark.column);
    v.(stream := Rolled(v.stream, Due(v, v.mark.column), kind, v.mark), indents := indents, indent := indent)
  }

  /** The stream once KEY, and BLOCK-MAPPING-START if `due`, are there for `key`: in front of its first token while
      that is queued, and at the end, the wrong way round, when it was handed out already. */
  function WithKey(ts: seq<Token>, parsed: nat, key: SimpleKey, due: bool): seq<Token>
    requires key.number <= |ts|
  {
    if key.number >= parsed then
      Rolled(ts[..key.number], due, BlockMappingStart, key.mark) + [Token(Key, key.mark)] + ts[key.number..]
    else
      Rolled(ts + [Token(Key, key.mark)], due, BlockMappingStart, key.mark)
  }

  /** A simple key has turned out to be one. */
  function Promoted(v: View): View
    requires v.keys.slots != [] && Inner(v).number <= |v.stream|
  {
    var key := Inner(v);
    var due := Due(v, key.mark.column);
    var (indents, indent) := Deepened(v.indents, v.indent, due, key.mark.column);
    v.(stream := WithKey(v.stream, v.parsed, key, due), indents := indents, indent := indent, keys := Removed(v.keys))
  }

  // ----- One token -----

  /** The token itself, and how far the scan of it went. */
  function Put(v: View, kind: Kind, allowed: bool, end: Mark): View {
    v.(stream := v.stream + [Token(kind, v.mark)], allowed := allowed, mark := end)
  }

  function GivenUp(v: View): View
    requires v.keys.slots != []
  {
    v.(keys := Removed(v.keys))
  }

  function KeySaved(v: View): View
    requires v.keys.slots != []
  {
    v.(keys := OnSave(v.keys, v.allowed, KeyHere(v)))
  }

  /** One slot for every flow level, and each names a token of the stream. */
  ghost predicate Slotted(v: View) {
    |v.keys.slots| == v.flowLevel + 1 && forall i :: 0 <= i < |v.keys.slots| ==> v.keys.slots[i].number < |v.stream|
  }

  /** Whether a lexeme is accepted once the blocks it leaves are closed. */
  ghost predicate Accepts(v: View, x: Lexeme)
    requires Slotted(v)
  {
    match x.kind
    case StreamStart => false
    case BlockSequenceStart => false
    case BlockMappingStart => false
    case BlockEnd => false
    case FlowSequenceStart => !SaveFails(v) && v.flowLevel < MAX_DEPTH
    case FlowMappingStart => !SaveFails(v) && v.flowLevel < MAX_DEPTH
    case BlockEntry => (v.flowLevel == 0 ==> v.allowed && !TooDeep(v, v.mark.column)) && !Required(Inner(v))
    case Key => (v.flowLevel == 0 ==> v.allowed && !TooDeep(v, v.mark.column)) && !Required(Inner(v))
    case Value =>
      if Live(Inner(v), v.mark) then !TooDeep(v, Inner(v).mark.column)
      else !Overdue(Inner(v), v.mark) && (v.flowLevel == 0 ==> v.allowed && !TooDeep(v, v.mark.column))
    case BlockScalar => v.flowLevel == 0 && !Required(Inner(v))
    case Alias | Anchor | Tag | FlowScalar | PlainScalar => !SaveFails(v)
    case _ => !Required(Inner(v))
  }

  /** The state behind an accepted lexeme. */
  function Fetched(v: View, x: Lexeme): View
    requires |v.keys.slots| == v.flowLevel + 1 && Inner(v).number <= |v.stream|
  {
    match x.kind
    case StreamEnd =>
      var end := v.(mark := NextLine(v.mark));
      Put(GivenUp(Unrolled(end, -1)), StreamEnd, false, NextLine(v.mark))
    case FlowSequenceStart => FlowBegun(v, x)
    case FlowMappingStart => FlowBegun(v, x)
    case FlowSequenceEnd => FlowEnded(v, x)
    case FlowMappingEnd => FlowEnded(v, x)
    case FlowEntry => Put(GivenUp(v), FlowEntry, true, x.end)
    case BlockEntry => Put(GivenUp(Begun(v, BlockSequenceStart)), BlockEntry, true, x.end)
    case Key => Put(GivenUp(Begun(v, BlockMappingStart)), Key, v.flowLevel == 0, x.end)
    case Value =>
      if Live(Inner(v), v.mark) then Put(Promoted(v), Value, false, x.end)
      else Put(Begun(v.(keys := Expired(v.keys, v.flowLevel)), BlockMappingStart), Value, v.flowLevel == 0, x.end)
    case BlockScalar => Put(GivenUp(v), BlockScalar, true, x.end)
    case Alias | Anchor | Tag | FlowScalar | PlainScalar => Put(KeySaved(v), x.kind, x.breaks, x.end)
    case _ => Put(GivenUp(Unrolled(v, -1)), x.kind, false, x.end)
  }

  /** The new slot gets the number of the bracket, which is queued only after it. */
  function FlowBegun(v: View, x: Lexeme): View
    requires v.keys.slots != []
  {
    Put(v.(keys := Pushed(OnSave(v.keys, v.allowed, KeyHere(v)), |v.stream|, v.mark), flowLevel := v.flowLevel + 1), x.kind, true, x.end)
  }

  function FlowEnded(v: View, x: Lexeme): View
    requires v.keys.slots != []
  {
    if v.flowLevel > 0 then Put(v.(keys := Popped(Removed(v.keys)), flowLevel := v.flowLevel - 1), x.kind, false, x.end)
    else Put(GivenUp(v), x.kind, false, x.end)
  }

  /** The scanner has come to the lexeme, and the blocks to the right of it are closed. */
  function Closed(v: View, x: Lexeme): View { Unrolled(ScannedTo(v, x.start), x.start.column) }
}
