/** Simple keys of the scanner (scannerc.go): a slot for every flow level that remembers where a key without
    its `?` may have begun, and the index `simple_keys_by_tok` from token numbers to slots, by which a
    token that may still need a KEY in front of it is held back. The index is kept up by hand in the
    source; here is what it gets right and what it loses. */
module SimpleKeys {
  import opened TokenQueue

  datatype Mark = Mark(index: nat, line: nat, column: nat)

  datatype Kind =
    | StreamStart | StreamEnd | Directive | DocumentStart | DocumentEnd
    | BlockSequenceStart | BlockMappingStart | BlockEnd
    | FlowSequenceStart | FlowSequenceEnd | FlowMappingStart | FlowMappingEnd
    | BlockEntry | FlowEntry | Key | Value | Alias | Anchor | Tag | BlockScalar | FlowScalar | PlainScalar

  datatype Token = Token(kind: Kind, mark: Mark)

  /** Tokens for which `save_simple_key` is called. */
  predicate StartsKey(kind: Kind) {
    kind.FlowSequenceStart? || kind.FlowMappingStart? || kind.Alias? || kind.Anchor? || kind.Tag? || kind.FlowScalar? || kind.PlainScalar?
  }

  /** `number` counts tokens from the start of the stream. */
  datatype SimpleKey = SimpleKey(possible: bool, required: bool, number: nat, mark: Mark)

  /** A simple key must be on one line and at most 1024 characters long. */
  predicate IsStale(key: SimpleKey, now: Mark) { key.mark.line < now.line || key.mark.index + 1024 < now.index }

  /** Within a line the columns rise. */
  predicate NotBefore(later: Mark, earlier: Mark) {
    && earlier.line <= later.line && earlier.index <= later.index
    && (earlier.line == later.line ==> earlier.column <= later.column)
  }

  /** `lost` are the keys that are still possible when their entry of the index is deleted. */
  datatype Keys = Keys(slots: seq<SimpleKey>, index: map<nat, nat>, lost: set<nat>)

  // ----- The bookkeeping -----

  function Without(index: map<nat, nat>, n: nat): map<nat, nat> { map m | m in index && m != n :: index[m] }

  /** A key past its line or its length is given up, and its entry stays. */
  function Expired(s: Keys, i: nat): Keys
    requires i < |s.slots|
  {
    s.(slots := s.slots[i := s.slots[i].(possible := false)])
  }

  /** The key of the innermost level is given up, or has been used. */
  function Removed(s: Keys): Keys
    requires s.slots != []
  {
    var last := |s.slots| - 1;
    if s.slots[last].possible then
      s.(slots := s.slots[last := s.slots[last].(possible := false)], index := Without(s.index, s.slots[last].number))
    else s
  }

  function Saved(s: Keys, key: SimpleKey): Keys
    requires s.slots != []
  {
    s.(slots := s.slots[|s.slots| - 1 := key], index := s.index[key.number := |s.slots| - 1])
  }

  function Pushed(s: Keys, number: nat, mark: Mark): Keys { s.(slots := s.slots + [SimpleKey(false, false, number, mark)]) }

  /** The collection that ends here was itself a possible key, and no key was saved inside it on its own level:
      the slot still has the number it was pushed with, which is that of the outer key. */
  predicate Shadows(slots: seq<SimpleKey>) {
    |slots| >= 2 && slots[|slots| - 2].possible && slots[|slots| - 2].number == slots[|slots| - 1].number
  }

  function Popped(s: Keys): Keys
    requires s.slots != []
  {
    var last := |s.slots| - 1;
    var n := s.slots[last].number;
    Keys(s.slots[..last], Without(s.index, n), if Shadows(s.slots) then s.lost + {n} else s.lost)
  }

  // ----- What it keeps -----

  /** A possible key has the place of the token it was saved for. */
  ghost predicate Placed(s: Keys, ts: seq<Token>) {
    && (forall i :: 0 <= i < |s.slots| ==> s.slots[i].number < |ts|)
    && (forall i :: 0 <= i < |s.slots| && s.slots[i].possible ==>
          ts[s.slots[i].number].mark == s.slots[i].mark && StartsKey(ts[s.slots[i].number].kind))
  }

  /** Keys of outer levels began earlier; only a slot just pushed shares its number with the key around it. */
  ghost predicate Ordered(s: Keys, now: Mark) {
    && (forall i :: 0 <= i < |s.slots| ==> NotBefore(now, s.slots[i].mark))
    && (forall i, j :: 0 <= i < j < |s.slots| && s.slots[i].possible ==>
          && NotBefore(s.slots[j].mark, s.slots[i].mark) && s.slots[i].number <= s.slots[j].number
          && (s.slots[j].possible || i + 1 < j ==> s.slots[i].number < s.slots[j].number))
  }

  /** For a token still queued the index names a slot there is, and above the block level the slot of that very
      token. */
  ghost predicate Indexed(s: Keys, parsed: nat, n: nat) {
    forall m :: m in s.index ==> m < n && (m >= parsed ==> s.index[m] < |s.slots| && (s.index[m] >= 1 ==> s.slots[s.index[m]].number == m))
  }

  /** The first token of a possible key is queued and found by the index, unless the key is lost. */
  ghost predicate Tracked(s: Keys, parsed: nat, n: nat) {
    && (forall i :: 0 <= i < |s.slots| && s.slots[i].possible && s.slots[i].number !in s.lost ==>
          parsed <= s.slots[i].number && s.slots[i].number in s.index && s.index[s.slots[i].number] == i)
    && (forall m :: m in s.lost ==> m < n && m !in s.index)
  }

  ghost predicate Sound(s: Keys, parsed: nat, ts: seq<Token>, now: Mark) {
    s.slots != [] && Placed(s, ts) && Ordered(s, now) && Indexed(s, parsed, |ts|) && Tracked(s, parsed, |ts|)
  }

  /** Queued tokens whose entry names a key above the block level that has expired. */
  ghost function Resting(s: Keys, parsed: nat): set<nat> {
    set m | m in s.index && m >= parsed && 1 <= s.index[m] < |s.slots| && !s.slots[s.index[m]].possible
  }

  ghost predicate AllStale(s: Keys, now: Mark) { forall i :: 0 <= i < |s.slots| && s.slots[i].possible ==> IsStale(s.slots[i], now) }

  /** Such an entry is never in the way: a `:` has just been fetched and no key can be saved before the token
      is at the head of the queue, or the token is there and about to be handed out. */
  ghost predicate Settled(s: Keys, parsed: nat, n: nat, allowed: bool, now: Mark) {
    forall m :: m in Resting(s, parsed) ==>
      || (s.index[m] == |s.slots| - 1 && !allowed && m + 2 <= n && AllStale(s, now))
      || (m == parsed && n == parsed + 3)
  }

  /** The head of the queue may still become a simple key, as far as the index says. */
  ghost predicate Held(s: Keys, parsed: nat, now: Mark) {
    && parsed in s.index && s.index[parsed] < |s.slots|
    && s.slots[s.index[parsed]].possible && !IsStale(s.slots[s.index[parsed]], now)
  }

  /** When the next token is fetched. */
  ghost predicate Wanted(s: Keys, parsed: nat, n: nat, now: Mark) { n <= parsed + 2 || Held(s, parsed, now) }

  // ----- Steps -----

  lemma AppendSound(s: Keys, parsed: nat, ts: seq<Token>, now: Mark, t: Token)
    requires Sound(s, parsed, ts, now)
    ensures Sound(s, parsed, ts + [t], now)
  {
  }

  /** Inserted behind the first tokens of all keys that are still possible. */
  lemma InsertSound(s: Keys, parsed: nat, ts: seq<Token>, now: Mark, p: nat, t: Token)
    requires Sound(s, parsed, ts, now) && p <= |ts|
    requires forall i :: 0 <= i < |s.slots| && s.slots[i].possible ==> s.slots[i].number < p
    ensures Sound(s, parsed, InsertAt(ts, p, t), now)
  {
    var r := InsertAt(ts, p, t);
    assert forall k :: 0 <= k < p ==> r[k] == ts[k];
  }

  lemma LaterSound(s: Keys, parsed: nat, ts: seq<Token>, now: Mark, later: Mark)
    requires Sound(s, parsed, ts, now) && NotBefore(later, now)
    ensures Sound(s, parsed, ts, later) && (AllStale(s, now) ==> AllStale(s, later))
  {
  }

  lemma ExpiredSound(s: Keys, parsed: nat, ts: seq<Token>, now: Mark, i: nat)
    requires Sound(s, parsed, ts, now) && i < |s.slots|
    ensures Sound(Expired(s, i), parsed, ts, now)
    ensures forall m :: m in Resting(Expired(s, i), parsed) ==> m in Resting(s, parsed) || (s.index[m] == i && m == s.slots[i].number)
  {
  }

  lemma RemovedSound(s: Keys, parsed: nat, ts: seq<Token>, now: Mark)
    requires Sound(s, parsed, ts, now)
    ensures Sound(Removed(s), parsed, ts, now)
    ensures Resting(Removed(s), parsed) <= Resting(s, parsed)
    ensures var key := s.slots[|s.slots| - 1];
      key.possible ==> forall i :: 0 <= i < |s.slots| && Removed(s).slots[i].possible ==> s.slots[i].number < key.number
  {
  }

  /** A key saved for the next token. At the block level an entry may name a key that is gone; above it
      there must be none. */
  lemma SavedSound(s: Keys, parsed: nat, ts: seq<Token>, now: Mark, key: SimpleKey, t: Token)
    requires Sound(s, parsed, ts, now) && parsed <= |ts| == key.number && key.possible && key.mark == t.mark == now && StartsKey(t.kind)
    requires !s.slots[|s.slots| - 1].possible && forall m :: m in Resting(s, parsed) ==> s.index[m] != |s.slots| - 1
    ensures Sound(Saved(s, key), parsed, ts + [t], now)
    ensures Resting(Saved(s, key), parsed) <= Resting(s, parsed)
  {
    var r, last := Saved(s, key), |s.slots| - 1;
    assert forall m :: m in s.index && m >= parsed && s.index[m] == last >= 1 ==> m in Resting(s, parsed);
    forall m | m in Resting(r, parsed) ensures m in Resting(s, parsed) {
      assert m != key.number && s.index[m] != last;
    }
  }

  lemma PushedSound(s: Keys, parsed: nat, ts: seq<Token>, now: Mark)
    requires Sound(s, parsed, ts, now) && ts != []
    requires forall i :: 0 <= i < |s.slots| - 1 && s.slots[i].possible ==> s.slots[i].number < |ts| - 1
    ensures Sound(Pushed(s, |ts| - 1, now), parsed, ts, now)
    ensures Resting(Pushed(s, |ts| - 1, now), parsed) <= Resting(s, parsed)
  {
  }

  lemma PoppedSound(s: Keys, parsed: nat, ts: seq<Token>, now: Mark)
    requires Sound(s, parsed, ts, now) && |s.slots| >= 2 && !s.slots[|s.slots| - 1].possible
    ensures Sound(Popped(s), parsed, ts, now)
    ensures Resting(Popped(s), parsed) <= Resting(s, parsed)
  {
  }

  lemma TakenSound(s: Keys, parsed: nat, ts: seq<Token>, now: Mark)
    requires Sound(s, parsed, ts, now) && parsed < |ts|
    requires parsed in s.index ==> !s.slots[s.index[parsed]].possible
    ensures Sound(s, parsed + 1, ts, now)
    ensures Resting(s, parsed + 1) <= Resting(s, parsed)
  {
  }

  /** The key at the head has expired or there is none: the head goes to the parser. */
  lemma TakenSettled(s: Keys, parsed: nat, ts: seq<Token>, allowed: bool, now: Mark)
    requires Sound(s, parsed, ts, now) && Settled(s, parsed, |ts|, allowed, now) && parsed < |ts|
    ensures parsed !in s.index || !s.slots[s.index[parsed]].possible ==>
      Sound(s, parsed + 1, ts, now) && Settled(s, parsed + 1, |ts|, allowed, now)
    ensures parsed in s.index ==>
      var r := Expired(s, s.index[parsed]);
      Sound(r, parsed + 1, ts, now) && Settled(r, parsed + 1, |ts|, allowed, now)
  {
    if parsed !in s.index || !s.slots[s.index[parsed]].possible { TakenSound(s, parsed, ts, now); }
    if parsed in s.index {
      var i := s.index[parsed];
      var r := Expired(s, i);
      ExpiredSound(s, parsed, ts, now, i);
      TakenSound(r, parsed, ts, now);
      assert forall m :: m in Resting(r, parsed + 1) ==> m in Resting(s, parsed);
      assert AllStale(s, now) ==> AllStale(r, now);
    }
  }

  // ----- Nothing rests for long -----

  /** Above the block level the token of an expired key is the head, with only a `:` behind it, whenever
      the next token is fetched; so its entry is gone before its slot can be used again. */
  ghost predicate Calm(s: Keys, parsed: nat, n: nat, allowed: bool) {
    forall m :: m in Resting(s, parsed) ==> m == parsed && n == parsed + 2 && !allowed && s.index[m] == |s.slots| - 1
  }

  lemma CalmWhenWanted(s: Keys, parsed: nat, n: nat, allowed: bool, now: Mark)
    requires Settled(s, parsed, n, allowed, now) && Wanted(s, parsed, n, now) && parsed <= n
    ensures Calm(s, parsed, n, allowed)
  {
    forall m | m in Resting(s, parsed) ensures m == parsed && n == parsed + 2 && !allowed && s.index[m] == |s.slots| - 1 {
      assert !(AllStale(s, now) && Held(s, parsed, now));
    }
  }

  /** Fetching a token that lets no other key expire. */
  lemma SettledByOne(s: Keys, r: Keys, parsed: nat, n: nat, before: bool, allowed: bool, now: Mark)
    requires Calm(s, parsed, n, before) && Resting(r, parsed) <= Resting(s, parsed)
    ensures Settled(r, parsed, n + 1, allowed, now)
  {
  }

  /** Fetching a `:` behind a key that has expired. */
  lemma SettledByExpiry(s: Keys, parsed: nat, n: nat, ts: seq<Token>, before: bool, now: Mark, later: Mark)
    requires Calm(s, parsed, n, before) && Sound(s, parsed, ts, now) && n == |ts| && NotBefore(later, now)
    requires var key := s.slots[|s.slots| - 1]; key.possible && IsStale(key, now)
    ensures Settled(Expired(s, |s.slots| - 1), parsed, n + 1, false, later)
  {
    var last := |s.slots| - 1;
    var r := Expired(s, last);
    assert forall i :: 0 <= i < last && r.slots[i].possible ==> IsStale(s.slots[i], now);
    ExpiredSound(s, parsed, ts, now, last);
    assert Resting(s, parsed) == {};
  }

  lemma NothingRests(s: Keys, parsed: nat)
    requires |s.slots| == 1
    ensures Resting(s, parsed) == {}
  {
  }
}
