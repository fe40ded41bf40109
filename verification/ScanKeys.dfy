/** What a lexeme does to the simple keys: where the next one may begin, and which slots hold one. */
module ScanKeys {
  import opened SimpleKeys
  import opened ScanSteps
  import opened BlockColumns

  predicate IsContent(kind: Kind) { kind.Alias? || kind.Anchor? || kind.Tag? || kind.FlowScalar? || kind.PlainScalar? }

  predicate OpensFlow(kind: Kind) { kind.FlowSequenceStart? || kind.FlowMappingStart? }

  predicate EndsFlow(kind: Kind) { kind.FlowSequenceEnd? || kind.FlowMappingEnd? }

  /** Behind these a simple key may begin on the same line: an opening bracket, a comma, `-`, a block scalar, a plain
      scalar of several lines, and in block context `?` and a `:` that has no simple key. */
  predicate LetsKeyFollow(kind: Kind, breaks: bool, block: bool, lone: bool) {
    || OpensFlow(kind) || kind.FlowEntry? || kind.BlockEntry? || kind.BlockScalar?
    || (kind.PlainScalar? && breaks)
    || (block && (kind.Key? || (kind.Value? && lone)))
  }

  /** Whether a simple key may begin at the next lexeme `y`: in block context on every new line, and otherwise as the
      lexeme before it lets one follow. */
  lemma KeyAllowedExactlyWhen(v: View, x: Lexeme, y: Lexeme)
    requires Slotted(v) && Accepts(v, x) && (x.breaks ==> x.kind.PlainScalar?)
    ensures var r := Fetched(v, x);
      Closed(r, y).allowed
      <==> LetsKeyFollow(x.kind, x.breaks, v.flowLevel == 0, !Live(Inner(v), v.mark)) || (r.flowLevel == 0 && y.start.line > r.mark.line)
  {
    hide Unrolled, Removed, Expired, Popped, Pushed, OnSave, WithKey, Rolled, Deepened;
    UnrolledAllowed(ScannedTo(Fetched(v, x), y.start), y.start.column);
  }

  lemma UnrolledAllowed(v: View, column: int)
    ensures Unrolled(v, column).allowed == v.allowed
  {
  }

  /** The slots behind a lexeme. Content leaves the key that begins with it, where one is allowed, and else what was
      there; so does an opening bracket, and it brings a slot of its own without a key; a closing one takes its slot
      away; anything else leaves the slot of its level without a key. No other slot is touched. */
  predicate SlotsFollow(v: View, x: Lexeme, r: seq<SimpleKey>)
    requires v.keys.slots != []
  {
    var s, last := v.keys.slots, |v.keys.slots| - 1;
    && (forall i :: 0 <= i < last ==> i < |r| && r[i] == s[i])
    && if IsContent(x.kind) || OpensFlow(x.kind) then
         && |r| == |s| + (if OpensFlow(x.kind) then 1 else 0)
         && r[last] == (if v.allowed then SimpleKey(true, KeyHere(v).required, |v.stream|, v.mark) else s[last])
         && (OpensFlow(x.kind) ==> !r[last + 1].possible)
       else if EndsFlow(x.kind) && last > 0 then |r| == last
       else |r| == |s| && !r[last].possible
  }

  lemma SlotsAfter(v: View, x: Lexeme)
    requires Slotted(v) && Accepts(v, x)
    ensures SlotsFollow(v, x, Fetched(v, x).keys.slots)
  {
    hide Unrolled, WithKey, Rolled, Deepened, SlotsFollow, Removed, Expired, Popped, Pushed, OnSave;
    UnrolledKeys(v, -1);
    UnrolledKeys(v.(mark := NextLine(v.mark)), -1);
    if IsContent(x.kind) || OpensFlow(x.kind) { SlotsSaved(v, x); } else { SlotsGivenUp(v, x); }
  }

  lemma SlotsSaved(v: View, x: Lexeme)
    requires v.keys.slots != [] && (IsContent(x.kind) || OpensFlow(x.kind))
    ensures var k := OnSave(v.keys, v.allowed, KeyHere(v));
      if OpensFlow(x.kind) then SlotsFollow(v, x, Pushed(k, |v.stream|, v.mark).slots) else SlotsFollow(v, x, k.slots)
  {
  }

  lemma SlotsGivenUp(v: View, x: Lexeme)
    requires v.keys.slots != [] && !IsContent(x.kind) && !OpensFlow(x.kind)
    ensures if EndsFlow(x.kind) && |v.keys.slots| > 1 then SlotsFollow(v, x, Popped(Removed(v.keys)).slots)
            else SlotsFollow(v, x, Removed(v.keys).slots) && SlotsFollow(v, x, Expired(v.keys, |v.keys.slots| - 1).slots)
  {
  }

  lemma UnrolledKeys(v: View, column: int)
    ensures Unrolled(v, column).keys == v.keys
  {
  }
}
