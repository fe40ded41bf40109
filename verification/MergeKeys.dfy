/** What merge keys mean: a mapping decodes to its own entries, then, for keys it does not have, to
    the first entry among the merged mappings in listed order, through any nesting of merges and
    aliases. One key escapes: the text of the merge key itself. */
module MergeKeys {
  import opened Options
  import opened Events
  import opened Graph
  import opened Decoder

  /** A key, the node of its value and the aliases open around it. */
  datatype Entry = Entry(id: int, node: nat, open: set<nat>)

  ghost predicate ValidEntries(g: seq<GraphNode>, es: seq<Entry>) { forall i :: 0 <= i < |es| ==> es[i].node < |g| }

  // ----- The entries, listed -----

  /** The entries of mapping `j` from `k` on, merge keys left out. */
  ghost function PairsFrom(g: seq<GraphNode>, j: nat, k: nat, open: set<nat>, resolve: Resolver, text: bool): (es: seq<Entry>)
    requires Decodable(g) && j < |g| && g[j].kind.MappingNode? && k <= |g[j].content| && k % 2 == 0
    ensures ValidEntries(g, es)
    decreases |g[j].content| - k
  {
    assert ValidNode(g, j);
    var c := g[j].content;
    if k == |c| then []
    else
      var rest := PairsFrom(g, j, k + 2, open, resolve, text);
      if IsMerge(g[c[k]]) then rest
      else
        match KeyOf(g, j, k, open, resolve, text)
        case Good(Atom(id)) => [Entry(id, c[k + 1], open)] + rest
        case _ => rest
  }

  /** The value of the last merge key of mapping `j`. */
  ghost function MergeValue(g: seq<GraphNode>, j: nat, k: nat, merge: Option<nat>): (m: Option<nat>)
    requires Decodable(g) && j < |g| && g[j].kind.MappingNode? && k <= |g[j].content| && k % 2 == 0
    requires merge.Some? ==> j < merge.value < |g|
    ensures m.Some? ==> j < m.value < |g|
    decreases |g[j].content| - k
  {
    assert ValidNode(g, j);
    var c := g[j].content;
    if k == |c| then merge else MergeValue(g, j, k + 2, if IsMerge(g[c[k]]) then Some(c[k + 1]) else merge)
  }

  /** Everything mapping `j`, or the mapping an alias `j` stands for, offers to a merge. */
  ghost function Offered(g: seq<GraphNode>, j: nat, open: set<nat>, resolve: Resolver, text: bool): (es: seq<Entry>)
    requires Decodable(g) && j < |g| && IsMappingOrAlias(g, j)
    ensures ValidEntries(g, es)
    decreases Closed(g, open), |g| - j, 6, 1
  {
    assert ValidNode(g, j);
    if g[j].kind.AliasNode? then
      if j in open then []
      else
        OpeningShrinks(g, open, j);
        Offered(g, g[j].target.value, open + {j}, resolve, text)
    else if Duplicated(g, j) then []
    else
      match MergeValue(g, j, 0, None)
      case None => PairsFrom(g, j, 0, open, resolve, text)
      case Some(m) => PairsFrom(g, j, 0, open, resolve, text) + OfferedBy(g, j, m, open, resolve, text)
  }

  /** Everything the value `m` of a merge key of node `i` offers. */
  ghost function OfferedBy(g: seq<GraphNode>, i: nat, m: nat, open: set<nat>, resolve: Resolver, text: bool): (es: seq<Entry>)
    requires Decodable(g) && i < m < |g|
    ensures ValidEntries(g, es)
    decreases Closed(g, open), |g| - i, 0, 1
  {
    if IsMappingOrAlias(g, m) then Offered(g, m, open, resolve, text)
    else if g[m].kind.SequenceNode? then OfferedFrom(g, m, 0, open, resolve, text)
    else []
  }

  ghost function OfferedFrom(g: seq<GraphNode>, m: nat, k: nat, open: set<nat>, resolve: Resolver, text: bool): (es: seq<Entry>)
    requires Decodable(g) && m < |g| && k <= |g[m].content|
    ensures ValidEntries(g, es)
    decreases Closed(g, open), |g| - m, 1, |g[m].content| - k
  {
    assert ValidNode(g, m);
    if k == |g[m].content| then []
    else
      var rest := OfferedFrom(g, m, k + 1, open, resolve, text);
      if IsMappingOrAlias(g, g[m].content[k]) then Offered(g, g[m].content[k], open, resolve, text) + rest else rest
  }

  // ----- What a list of entries means -----

  datatype Slot = Absent | Present(value: Value)

  function SlotOf(out: map<int, Value>, id: int): Slot { if id in out then Present(out[id]) else Absent }

  /** The slot after entry `e` is stored into it. */
  ghost function Effect(g: seq<GraphNode>, resolve: Resolver, e: Entry, before: Slot): Slot
    requires Decodable(g) && e.node < |g|
  {
    match Decode(g, e.node, e.open, resolve)
    case Good(v) => Present(v)
    case Skipped => if TagOf(g, e.node) == "!!null" && before.Absent? then Present(Atom(NIL)) else before
    case Failed(_) => before
  }

  ghost function FirstEffect(g: seq<GraphNode>, resolve: Resolver, es: seq<Entry>, id: int, before: Slot): Slot
    requires Decodable(g) && ValidEntries(g, es)
  {
    if es == [] then before
    else if es[0].id == id then Effect(g, resolve, es[0], before)
    else FirstEffect(g, resolve, es[1..], id, before)
  }

  ghost function LastEffect(g: seq<GraphNode>, resolve: Resolver, es: seq<Entry>, id: int, before: Slot): Slot
    requires Decodable(g) && ValidEntries(g, es)
  {
    if es == [] then before
    else LastEffect(g, resolve, es[1..], id, if es[0].id == id then Effect(g, resolve, es[0], before) else before)
  }

  function Ids(es: seq<Entry>): set<int> { set i | 0 <= i < |es| :: es[i].id }

  /** Merging `es` turns `out` and `claimed` into `out1` and `claimed1`. */
  ghost predicate Absorbs(g: seq<GraphNode>, resolve: Resolver, out: map<int, Value>, claimed: set<int>, es: seq<Entry>,
                          out1: map<int, Value>, claimed1: set<int>)
    requires Decodable(g) && ValidEntries(g, es)
  {
    && claimed1 == claimed + Ids(es)
    && forall id :: SlotOf(out1, id) == if id in claimed then SlotOf(out, id) else FirstEffect(g, resolve, es, id, SlotOf(out, id))
  }

  lemma {:induction false} FirstEffectOther(g: seq<GraphNode>, resolve: Resolver, es: seq<Entry>, id: int, before: Slot)
    requires Decodable(g) && ValidEntries(g, es) && id !in Ids(es)
    ensures FirstEffect(g, resolve, es, id, before) == before
  {
    if es != [] {
      assert es[0].id in Ids(es);
      assert Ids(es[1..]) <= Ids(es) by {
        forall x | x in Ids(es[1..]) ensures x in Ids(es) {
          var i :| 0 <= i < |es[1..]| && es[1..][i].id == x;
          assert es[i + 1].id == x;
        }
      }
      FirstEffectOther(g, resolve, es[1..], id, before);
    }
  }

  lemma {:induction false} FirstEffectConcat(g: seq<GraphNode>, resolve: Resolver, a: seq<Entry>, b: seq<Entry>, id: int, before: Slot)
    requires Decodable(g) && ValidEntries(g, a) && ValidEntries(g, b)
    ensures ValidEntries(g, a + b)
    ensures FirstEffect(g, resolve, a + b, id, before)
      == if id in Ids(a) then FirstEffect(g, resolve, a, id, before) else FirstEffect(g, resolve, b, id, before)
  {
    if a == [] {
      assert a + b == b;
    } else {
      assert (a + b)[1..] == a[1..] + b;
      FirstEffectConcat(g, resolve, a[1..], b, id, before);
      IdsCons(a);
    }
  }

  lemma IdsCons(es: seq<Entry>)
    requires es != []
    ensures Ids(es) == {es[0].id} + Ids(es[1..])
  {
    forall x | x in Ids(es) ensures x in {es[0].id} + Ids(es[1..]) {
      var i :| 0 <= i < |es| && es[i].id == x;
      if i > 0 { assert es[1..][i - 1].id == x; }
    }
    forall x | x in Ids(es[1..]) ensures x in Ids(es) {
      var i :| 0 <= i < |es[1..]| && es[1..][i].id == x;
      assert es[i + 1].id == x;
    }
    assert es[0].id in Ids(es);
  }

  lemma {:induction false} IdsConcat(a: seq<Entry>, b: seq<Entry>)
    ensures Ids(a + b) == Ids(a) + Ids(b)
  {
    if a == [] {
      assert a + b == b;
    } else {
      IdsConcat(a[1..], b);
      assert (a + b)[1..] == a[1..] + b;
      IdsCons(a);
      IdsCons(a + b);
    }
  }

  lemma AbsorbsNothing(g: seq<GraphNode>, resolve: Resolver, out: map<int, Value>, claimed: set<int>)
    requires Decodable(g)
    ensures Absorbs(g, resolve, out, claimed, [], out, claimed)
  {
  }

  lemma AbsorbsThen(g: seq<GraphNode>, resolve: Resolver, out: map<int, Value>, claimed: set<int>, a: seq<Entry>,
                    out1: map<int, Value>, claimed1: set<int>, b: seq<Entry>, out2: map<int, Value>, claimed2: set<int>)
    requires Decodable(g) && ValidEntries(g, a) && ValidEntries(g, b)
    requires Absorbs(g, resolve, out, claimed, a, out1, claimed1) && Absorbs(g, resolve, out1, claimed1, b, out2, claimed2)
    ensures ValidEntries(g, a + b) && Absorbs(g, resolve, out, claimed, a + b, out2, claimed2)
  {
    IdsConcat(a, b);
    forall id
      ensures SlotOf(out2, id) == if id in claimed then SlotOf(out, id) else FirstEffect(g, resolve, a + b, id, SlotOf(out, id))
    {
      FirstEffectConcat(g, resolve, a, b, id, SlotOf(out, id));
      if id !in Ids(a) { FirstEffectOther(g, resolve, a, id, SlotOf(out, id)); }
    }
  }

  /** One unclaimed entry. */
  lemma AbsorbsOne(g: seq<GraphNode>, resolve: Resolver, out: map<int, Value>, claimed: set<int>, e: Entry, out1: map<int, Value>)
    requires Decodable(g) && e.node < |g|
    requires if e.id in claimed then out1 == out
      else SlotOf(out1, e.id) == Effect(g, resolve, e, SlotOf(out, e.id))
           && forall id :: id != e.id ==> SlotOf(out1, id) == SlotOf(out, id)
    ensures ValidEntries(g, [e]) && Absorbs(g, resolve, out, claimed, [e], out1, claimed + {e.id})
  {
    hide Effect;
    IdsCons([e]);
    assert [e][1..] == [];
    assert Ids([]) == {};
    forall id
      ensures SlotOf(out1, id) == if id in claimed then SlotOf(out, id) else FirstEffect(g, resolve, [e], id, SlotOf(out, id))
    {
      assert FirstEffect(g, resolve, [], id, SlotOf(out, id)) == SlotOf(out, id);
    }
  }

  // ----- The decoder against the list -----

  lemma StepAbsorbs(g: seq<GraphNode>, j: nat, k: nat, open: set<nat>, resolve: Resolver, out: map<int, Value>, claimed: set<int>, id: int)
    requires Decodable(g) && j < |g| && g[j].kind.MappingNode? && k + 1 < |g[j].content|
    requires ValidNode(g, j) && id !in claimed && !DecodeChild(g, j, k + 1, open, resolve).Failed?
    ensures var v := g[j].content[k + 1];
      var out1 := Stored(g, DecodeChild(g, j, k + 1, open, resolve), v, id, out);
      ValidEntries(g, [Entry(id, v, open)]) && Absorbs(g, resolve, out, claimed, [Entry(id, v, open)], out1, claimed + {id})
  {
    hide Decode;
    var v := g[j].content[k + 1];
    var out1 := Stored(g, DecodeChild(g, j, k + 1, open, resolve), v, id, out);
    AbsorbsOne(g, resolve, out, claimed, Entry(id, v, open), out1);
  }

  lemma {:induction false} MergedFromAbsorbs(g: seq<GraphNode>, j: nat, k: nat, open: set<nat>, resolve: Resolver,
                                             out: map<int, Value>, claimed: set<int>, merge: Option<nat>, text: bool)
    requires Decodable(g) && j < |g| && g[j].kind.MappingNode? && k <= |g[j].content| && k % 2 == 0
    requires merge.Some? ==> j < merge.value < |g|
    ensures var r := MergedFrom(g, j, k, open, resolve, out, claimed, merge, text);
      r.Merged? ==>
        r.merge == MergeValue(g, j, k, merge) && Absorbs(g, resolve, out, claimed, PairsFrom(g, j, k, open, resolve, text), r.out, r.claimed)
    decreases |g[j].content| - k
  {
    hide Decode, KeyOf, DecodeChild, Absorbs, Effect, Stored;
    assert ValidNode(g, j);
    var c := g[j].content;
    if k == |c| {
      AbsorbsNothing(g, resolve, out, claimed);
    } else if IsMerge(g[c[k]]) {
      MergedFromAbsorbs(g, j, k + 2, open, resolve, out, claimed, Some(c[k + 1]), text);
    } else {
      match KeyOf(g, j, k, open, resolve, text) {
        case Good(Atom(id)) =>
          var e, rest := Entry(id, c[k + 1], open), PairsFrom(g, j, k + 2, open, resolve, text);
          if id in claimed {
            MergedFromAbsorbs(g, j, k + 2, open, resolve, out, claimed, merge, text);
            AbsorbsOne(g, resolve, out, claimed, e, out);
            assert claimed + {id} == claimed;
            var r := MergedFrom(g, j, k + 2, open, resolve, out, claimed, merge, text);
            if r.Merged? { AbsorbsThen(g, resolve, out, claimed, [e], out, claimed, rest, r.out, r.claimed); }
          } else {
            var d := DecodeChild(g, j, k + 1, open, resolve);
            if !d.Failed? {
              StepAbsorbs(g, j, k, open, resolve, out, claimed, id);
              var out1 := Stored(g, d, c[k + 1], id, out);
              MergedFromAbsorbs(g, j, k + 2, open, resolve, out1, claimed + {id}, merge, text);
              var r := MergedFrom(g, j, k + 2, open, resolve, out1, claimed + {id}, merge, text);
              if r.Merged? { AbsorbsThen(g, resolve, out, claimed, [e], out1, claimed + {id}, rest, r.out, r.claimed); }
            }
          }
        case Skipped => MergedFromAbsorbs(g, j, k + 2, open, resolve, out, claimed, merge, text);
        case _ =>
      }
    }
  }

  lemma {:induction false} MergeIntoAbsorbs(g: seq<GraphNode>, j: nat, open: set<nat>, resolve: Resolver,
                                            out: map<int, Value>, claimed: set<int>, text: bool)
    requires Decodable(g) && j < |g| && IsMappingOrAlias(g, j)
    ensures var r := MergeInto(g, j, open, resolve, out, claimed, text);
      r.Merged? ==> Absorbs(g, resolve, out, claimed, Offered(g, j, open, resolve, text), r.out, r.claimed)
    decreases Closed(g, open), |g| - j, 6, 1
  {
    hide Decode, Absorbs, PairsFrom, MergedFrom, MergeNode, OfferedBy;
    assert ValidNode(g, j);
    if g[j].kind.AliasNode? {
      if j !in open {
        OpeningShrinks(g, open, j);
        MergeIntoAbsorbs(g, g[j].target.value, open + {j}, resolve, out, claimed, text);
      }
    } else if Duplicated(g, j) {
      AbsorbsNothing(g, resolve, out, claimed);
    } else {
      MergedFromAbsorbs(g, j, 0, open, resolve, out, claimed, None, text);
      match MergedFrom(g, j, 0, open, resolve, out, claimed, None, text) {
        case Merged(out1, claimed1, Some(m)) =>
          MergeNodeAbsorbs(g, j, m, open, resolve, out1, claimed1, text);
          var r := MergeNode(g, j, m, open, resolve, out1, claimed1, text);
          if r.Merged? {
            AbsorbsThen(g, resolve, out, claimed, PairsFrom(g, j, 0, open, resolve, text), out1, claimed1,
                        OfferedBy(g, j, m, open, resolve, text), r.out, r.claimed);
          }
        case _ =>
      }
    }
  }

  lemma {:induction false} MergeNodeAbsorbs(g: seq<GraphNode>, i: nat, m: nat, open: set<nat>, resolve: Resolver,
                                            out: map<int, Value>, claimed: set<int>, text: bool)
    requires Decodable(g) && i < m < |g|
    ensures var r := MergeNode(g, i, m, open, resolve, out, claimed, text);
      r.Merged? ==> Absorbs(g, resolve, out, claimed, OfferedBy(g, i, m, open, resolve, text), r.out, r.claimed)
    decreases Closed(g, open), |g| - i, 0, 1
  {
    hide Absorbs, MergeInto, MergeItems, Offered, OfferedFrom;
    if IsMappingOrAlias(g, m) {
      MergeIntoAbsorbs(g, m, open, resolve, out, claimed, text);
    } else if g[m].kind.SequenceNode? {
      MergeItemsAbsorbs(g, m, 0, open, resolve, out, claimed, text);
    }
  }

  lemma {:induction false} MergeItemsAbsorbs(g: seq<GraphNode>, m: nat, k: nat, open: set<nat>, resolve: Resolver,
                                             out: map<int, Value>, claimed: set<int>, text: bool)
    requires Decodable(g) && m < |g| && k <= |g[m].content|
    ensures var r := MergeItems(g, m, k, open, resolve, out, claimed, text);
      r.Merged? ==> Absorbs(g, resolve, out, claimed, OfferedFrom(g, m, k, open, resolve, text), r.out, r.claimed)
    decreases Closed(g, open), |g| - m, 1, |g[m].content| - k
  {
    hide Absorbs, MergeInto, Offered;
    assert ValidNode(g, m);
    if k == |g[m].content| {
      AbsorbsNothing(g, resolve, out, claimed);
    } else if IsMappingOrAlias(g, g[m].content[k]) {
      var c := g[m].content[k];
      MergeIntoAbsorbs(g, c, open, resolve, out, claimed, text);
      match MergeInto(g, c, open, resolve, out, claimed, text) {
        case MergeFailed(_) =>
        case Merged(out1, claimed1, _) =>
          MergeItemsAbsorbs(g, m, k + 1, open, resolve, out1, claimed1, text);
          var r := MergeItems(g, m, k + 1, open, resolve, out1, claimed1, text);
          if r.Merged? {
            AbsorbsThen(g, resolve, out, claimed, Offered(g, c, open, resolve, text), out1, claimed1,
                        OfferedFrom(g, m, k + 1, open, resolve, text), r.out, r.claimed);
          }
      }
    }
  }

  // ----- A whole mapping -----

  lemma StoredSlot(g: seq<GraphNode>, i: nat, k: nat, open: set<nat>, resolve: Resolver, key: int, out: map<int, Value>, id: int)
    requires Decodable(g) && i < |g| && k + 1 < |g[i].content| && ValidNode(g, i) && !DecodeChild(g, i, k + 1, open, resolve).Failed?
    ensures var v := g[i].content[k + 1];
      SlotOf(Stored(g, DecodeChild(g, i, k + 1, open, resolve), v, key, out), id)
      == if key == id then Effect(g, resolve, Entry(key, v, open), SlotOf(out, id)) else SlotOf(out, id)
  {
    hide Decode;
  }

  lemma {:induction false} OwnFromKeepsLast(g: seq<GraphNode>, i: nat, k: nat, open: set<nat>, resolve: Resolver,
                                            out: map<int, Value>, merge: Option<nat>, text: bool, id: int)
    requires Decodable(g) && i < |g| && g[i].kind.MappingNode? && k <= |g[i].content| && k % 2 == 0
    requires merge.Some? ==> i < merge.value < |g|
    ensures var r := OwnFrom(g, i, k, open, resolve, out, merge, text);
      r.Own? ==>
        && r.merge == MergeValue(g, i, k, merge)
        && SlotOf(r.out, id) == LastEffect(g, resolve, PairsFrom(g, i, k, open, resolve, text), id, SlotOf(out, id))
    decreases |g[i].content| - k
  {
    hide Decode, KeyOf, DecodeChild, Stored;
    assert ValidNode(g, i);
    var c := g[i].content;
    if k < |c| {
      if IsMerge(g[c[k]]) {
        OwnFromKeepsLast(g, i, k + 2, open, resolve, out, Some(c[k + 1]), text, id);
      } else {
        match KeyOf(g, i, k, open, resolve, text) {
          case Good(Atom(key)) =>
            var d := DecodeChild(g, i, k + 1, open, resolve);
            if !d.Failed? {
              var out1 := Stored(g, d, c[k + 1], key, out);
              OwnFromKeepsLast(g, i, k + 2, open, resolve, out1, merge, text, id);
              var e, rest := Entry(key, c[k + 1], open), PairsFrom(g, i, k + 2, open, resolve, text);
              assert ([e] + rest)[1..] == rest;
              StoredSlot(g, i, k, open, resolve, key, out, id);
              assert SlotOf(out1, id) == if key == id then Effect(g, resolve, e, SlotOf(out, id)) else SlotOf(out, id);
            }
          case Skipped => OwnFromKeepsLast(g, i, k + 2, open, resolve, out, merge, text, id);
          case _ =>
        }
      }
    }
  }

  /** The atoms the merge keys of mapping `i` themselves decode to. */
  ghost function MergeIds(g: seq<GraphNode>, i: nat, k: nat, resolve: Resolver): set<int>
    requires Decodable(g) && i < |g| && g[i].kind.MappingNode? && k <= |g[i].content| && k % 2 == 0
    decreases |g[i].content| - k
  {
    assert ValidNode(g, i);
    var c := g[i].content;
    if k == |c| then {}
    else
      var rest := MergeIds(g, i, k + 2, resolve);
      if IsMerge(g[c[k]]) && resolve.value(g[c[k]]).Some? then {resolve.value(g[c[k]]).value} + rest else rest
  }

  lemma {:induction false} KeysAreClaimed(g: seq<GraphNode>, i: nat, k: nat, open: set<nat>, resolve: Resolver, text: bool, ids: set<int>)
    requires Decodable(g) && i < |g| && g[i].kind.MappingNode? && k <= |g[i].content| && k % 2 == 0
    requires text ==> Agreeing(resolve) && TextKeys(g, i)
    ensures var r := KeysFrom(g, i, k, open, resolve, ids);
      r.Keys? ==> r.ids == ids + Ids(PairsFrom(g, i, k, open, resolve, text)) + MergeIds(g, i, k, resolve)
    decreases |g[i].content| - k
  {
    hide Ids, Decode, DecodeChild, ClaimNode, KeyOf, Agreeing, TextKeys;
    assert ValidNode(g, i);
    var c := g[i].content;
    if k == |c| {
      assert Ids([]) == {} by { NoIds(); }
    } else {
      var rest := PairsFrom(g, i, k + 2, open, resolve, text);
      if IsMerge(g[c[k]]) { ScalarDecodes(g, i, k, open, resolve); }
      ClaimIsDecode(g, c[k], open, resolve, ids);
      ChildIs(g, i, k, open, resolve);
      match ClaimNode(g, c[k], open, resolve, ids).result {
        case Good(Atom(id)) =>
          KeysAreClaimed(g, i, k + 2, open, resolve, text, ids + {id});
          if !IsMerge(g[c[k]]) {
            KeyAgrees(g, i, k, open, resolve, text);
            var e := Entry(id, c[k + 1], open);
            IdsCons([e] + rest);
            assert ([e] + rest)[1..] == rest;
          }
        case Skipped =>
          KeysAreClaimed(g, i, k + 2, open, resolve, text, ids);
          KeyAgrees(g, i, k, open, resolve, text);
        case _ =>
      }
    }
  }

  lemma ChildIs(g: seq<GraphNode>, i: nat, k: nat, open: set<nat>, resolve: Resolver)
    requires Decodable(g) && i < |g| && k < |g[i].content| && ValidNode(g, i)
    ensures DecodeChild(g, i, k, open, resolve) == Decode(g, g[i].content[k], open, resolve)
  {
    hide Decode;
  }

  /** Every key of mapping `i` is tagged as a string or a merge key. */
  ghost predicate TextKeys(g: seq<GraphNode>, i: nat)
    requires ValidGraph(g) && i < |g|
  {
    ValidNode(g, i) && IsStringMap(g, i)
  }

  /** Where the keys are tagged as strings, a key that is no collection is the same as text and as value. */
  lemma KeyAgrees(g: seq<GraphNode>, i: nat, k: nat, open: set<nat>, resolve: Resolver, text: bool)
    requires Decodable(g) && i < |g| && g[i].kind.MappingNode? && k < |g[i].content| && k % 2 == 0
    requires text ==> Agreeing(resolve) && TextKeys(g, i)
    ensures var d := DecodeChild(g, i, k, open, resolve);
      d.Skipped? || (d.Good? && d.value.Atom?) ==> KeyOf(g, i, k, open, resolve, text) == d
  {
    hide Agreeing;
    assert ValidNode(g, i);
    if text { TextAgrees(g, g[i].content[k], open, resolve); }
  }

  lemma TextAgrees(g: seq<GraphNode>, j: nat, open: set<nat>, resolve: Resolver)
    requires Decodable(g) && j < |g| && !g[j].kind.DocumentNode? && Agreeing(resolve) && TextTag(TagOf(g, j))
    ensures var d := Decode(g, j, open, resolve);
      d.Skipped? || (d.Good? && d.value.Atom?) ==> DecodeText(g, j, open, resolve) == d
    decreases Closed(g, open)
  {
    assert ValidNode(g, j);
    match g[j].kind {
      case AliasNode =>
        if j !in open {
          OpeningShrinks(g, open, j);
          var t := g[j].target.value;
          TargetIsNoAlias(g, j);
          TextAgrees(g, t, open + {j}, resolve);
        }
      case ScalarNode => assert TextTag(ShortTag(g[j].tag));
      case SequenceNode => ListIsNoAtom(g, j, 0, open, resolve, []);
      case MappingNode => MappingIsNoAtom(g, j, open, resolve);
    }
  }

  lemma ScalarDecodes(g: seq<GraphNode>, i: nat, k: nat, open: set<nat>, resolve: Resolver)
    requires Decodable(g) && i < |g| && k < |g[i].content| && ValidNode(g, i) && g[g[i].content[k]].kind.ScalarNode?
    ensures DecodeChild(g, i, k, open, resolve)
      == match resolve.value(g[g[i].content[k]]) case None => Failed(BadScalar) case Some(id) => Good(Atom(id))
  {
  }

  lemma NoIds()
    ensures Ids([]) == {}
  {
  }

  /** The entries the merge keys of mapping `i` bring in. */
  ghost function Inherited(g: seq<GraphNode>, i: nat, open: set<nat>, resolve: Resolver): (es: seq<Entry>)
    requires Decodable(g) && i < |g| && g[i].kind.MappingNode?
    ensures ValidEntries(g, es)
  {
    match MergeValue(g, i, 0, None)
    case None => []
    case Some(m) => OfferedBy(g, i, m, open, resolve, TextMap(g, i))
  }

  /** Whether mapping `i` decodes into a map with string keys. */
  ghost predicate TextMap(g: seq<GraphNode>, i: nat)
    requires Decodable(g) && i < |g|
  {
    assert ValidNode(g, i);
    IsStringMap(g, i)
  }

  /** The own entries of mapping `i`, its keys decoded for the map they go into. */
  ghost function OwnPairs(g: seq<GraphNode>, i: nat, open: set<nat>, resolve: Resolver): (es: seq<Entry>)
    requires Decodable(g) && i < |g| && g[i].kind.MappingNode?
    ensures ValidEntries(g, es)
  {
    PairsFrom(g, i, 0, open, resolve, TextMap(g, i))
  }

  /** The left-biased union: own entries, then the first inherited one. */
  ghost function UnionSlot(g: seq<GraphNode>, i: nat, open: set<nat>, resolve: Resolver, id: int): Slot
    requires Decodable(g) && i < |g| && g[i].kind.MappingNode?
  {
    var own := OwnPairs(g, i, open, resolve);
    if id in Ids(own) then LastEffect(g, resolve, own, id, Absent)
    else FirstEffect(g, resolve, Inherited(g, i, open, resolve), id, Absent)
  }

  lemma {:induction false} LastEffectOther(g: seq<GraphNode>, resolve: Resolver, es: seq<Entry>, id: int, before: Slot)
    requires Decodable(g) && ValidEntries(g, es) && id !in Ids(es)
    ensures LastEffect(g, resolve, es, id, before) == before
  {
    if es != [] {
      IdsCons(es);
      LastEffectOther(g, resolve, es[1..], id, before);
    }
  }

  /** A mapping decodes, key by key, to the left-biased union of its own entries and everything it
      inherits, except that it never inherits the key its merge key decodes to. */
  lemma DecodedMapping(g: seq<GraphNode>, i: nat, open: set<nat>, resolve: Resolver, id: int)
    requires Decodable(g) && i < |g| && g[i].kind.MappingNode? && Agreeing(resolve)
    ensures var r := DecodeMapping(g, i, open, resolve);
      r.Good? ==>
        && r.value.Dict?
        && SlotOf(r.value.entries, id) ==
             if id in MergeIds(g, i, 0, resolve) && id !in Ids(OwnPairs(g, i, open, resolve)) then Absent
             else UnionSlot(g, i, open, resolve, id)
  {
    hide Decode, MergeNode, OfferedBy, LastEffect, FirstEffect, Ids, PairsFrom, MergeIds, MergeValue, OwnFrom, KeysFrom, Agreeing, IsStringMap;
    assert ValidNode(g, i);
    var own, text := OwnPairs(g, i, open, resolve), TextMap(g, i);
    OwnFromKeepsLast(g, i, 0, open, resolve, map[], None, text, id);
    KeysAreClaimed(g, i, 0, open, resolve, text, {});
    match OwnFrom(g, i, 0, open, resolve, map[], None, text) {
      case OwnFailed(_) =>
      case Own(out, None) =>
        if id !in Ids(own) { LastEffectOther(g, resolve, own, id, Absent); }
        NothingInherited(g, i, open, resolve, id);
      case Own(out, Some(m)) =>
        match KeysFrom(g, i, 0, open, resolve, {}) {
          case KeysFailed(_) =>
          case Keys(ids) =>
            MergeNodeAbsorbs(g, i, m, open, resolve, out, ids, text);
            if id !in Ids(own) { LastEffectOther(g, resolve, own, id, Absent); }
        }
    }
  }

  lemma NothingInherited(g: seq<GraphNode>, i: nat, open: set<nat>, resolve: Resolver, id: int)
    requires Decodable(g) && i < |g| && g[i].kind.MappingNode? && MergeValue(g, i, 0, None) == None
    ensures FirstEffect(g, resolve, Inherited(g, i, open, resolve), id, Absent) == Absent
    ensures MergeIds(g, i, 0, resolve) == {}
  {
    NoMergeKeys(g, i, 0, None, resolve);
  }

  lemma {:induction false} NoMergeKeys(g: seq<GraphNode>, i: nat, k: nat, merge: Option<nat>, resolve: Resolver)
    requires Decodable(g) && i < |g| && g[i].kind.MappingNode? && k <= |g[i].content| && k % 2 == 0
    requires merge.Some? ==> i < merge.value < |g|
    ensures merge.Some? ==> MergeValue(g, i, k, merge).Some?
    ensures MergeValue(g, i, k, merge) == None ==> MergeIds(g, i, k, resolve) == {}
    decreases |g[i].content| - k
  {
    assert ValidNode(g, i);
    var c := g[i].content;
    if k < |c| {
      NoMergeKeys(g, i, k + 2, if IsMerge(g[c[k]]) then Some(c[k + 1]) else merge, resolve);
    }
  }

  /** Some inherited entry has the text of the merge key for its key. */
  ghost predicate InheritsMergeText(g: seq<GraphNode>, i: nat, open: set<nat>, resolve: Resolver)
    requires Decodable(g) && i < |g| && g[i].kind.MappingNode?
  {
    exists id :: id in MergeIds(g, i, 0, resolve) && id !in Ids(OwnPairs(g, i, open, resolve))
      && FirstEffect(g, resolve, Inherited(g, i, open, resolve), id, Absent).Present?
  }

  /** The decoded mapping is the left-biased union exactly when the merge key's own text is not inherited. */
  lemma UnionExactlyWhen(g: seq<GraphNode>, i: nat, open: set<nat>, resolve: Resolver)
    requires Decodable(g) && i < |g| && g[i].kind.MappingNode? && Agreeing(resolve) && DecodeMapping(g, i, open, resolve).Good?
    ensures DecodeMapping(g, i, open, resolve).value.Dict?
    ensures (forall id :: SlotOf(DecodeMapping(g, i, open, resolve).value.entries, id) == UnionSlot(g, i, open, resolve, id))
      <==> !InheritsMergeText(g, i, open, resolve)
  {
    hide Decode, DecodeMapping, LastEffect, FirstEffect, Ids, OwnPairs, MergeIds, Inherited, Agreeing;
    DecodedMapping(g, i, open, resolve, 0);
    var out := DecodeMapping(g, i, open, resolve).value.entries;
    forall id
      ensures SlotOf(out, id) == if id in MergeIds(g, i, 0, resolve) && id !in Ids(OwnPairs(g, i, open, resolve)) then Absent
        else UnionSlot(g, i, open, resolve, id)
    {
      DecodedMapping(g, i, open, resolve, id);
    }
    if InheritsMergeText(g, i, open, resolve) {
      var id :| id in MergeIds(g, i, 0, resolve) && id !in Ids(OwnPairs(g, i, open, resolve))
        && FirstEffect(g, resolve, Inherited(g, i, open, resolve), id, Absent).Present?;
      assert SlotOf(out, id) != UnionSlot(g, i, open, resolve, id);
    } else {
      forall id ensures SlotOf(out, id) == UnionSlot(g, i, open, resolve, id) {
        if id in MergeIds(g, i, 0, resolve) && id !in Ids(OwnPairs(g, i, open, resolve)) {
          assert !FirstEffect(g, resolve, Inherited(g, i, open, resolve), id, Absent).Present?;
        }
      }
    }
  }

  // ----- The key that is lost -----

  function PlainNode(tag: string, text: string, style: ScalarStyle): GraphNode {
    GraphNode(ScalarNode, tag, Scalar("", "", text, style.PlainStyle?, !style.PlainStyle?, style), [], None)
  }

  function MapNode(content: seq<nat>): GraphNode {
    GraphNode(MappingNode, "!!map", MappingStart("", "", true, Block), content, None)
  }

  /** The graph of `{<<: {"<<": 1}}`. */
  const LOST: seq<GraphNode> :=
    [MapNode([1, 2]), PlainNode(MERGE_TAG, "<<", PlainStyle), MapNode([3, 4]),
     PlainNode("!!str", "<<", DoubleQuotedStyle), PlainNode("!!int", "1", PlainStyle)]

  const LOST_RESOLVER := Resolver(n => if ValueOf(n) == "<<" then Some(7) else Some(1), n => if ValueOf(n) == "<<" then Text(7) else Text(1))

  lemma LostIsDecodable()
    ensures Decodable(LOST)
  {
    forall i | 0 <= i < |LOST| ensures ValidNode(LOST, i) {}
  }

  /** The quoted key `<<` of the merged mapping is its only entry, and it does not arrive. */
  lemma QuotedMergeKeyIsLost()
    ensures Decodable(LOST) && Agreeing(LOST_RESOLVER)
    ensures DecodeMapping(LOST, 0, {}, LOST_RESOLVER) == Good(Dict(map[]))
    ensures UnionSlot(LOST, 0, {}, LOST_RESOLVER, 7) == Present(Atom(1))
  {
    LostIsDecodable();
    assert ShortTag("!!str") == "!!str" && ShortTag(MERGE_TAG) == MERGE_TAG;
    assert IsMerge(LOST[1]) && !IsMerge(LOST[3]);
    var none: map<int, Value> := map[];
    assert OwnFrom(LOST, 0, 2, {}, LOST_RESOLVER, none, Some(2), true) == Own(none, Some(2));
    assert OwnFrom(LOST, 0, 0, {}, LOST_RESOLVER, none, None, true) == Own(none, Some(2));
    LostKeys();
    LostMerge(none);
    LostUnion();
  }

  lemma LostKeys()
    requires Decodable(LOST)
    ensures KeysFrom(LOST, 0, 0, {}, LOST_RESOLVER, {}) == Keys({7})
  {
    assert ValidNode(LOST, 0);
    ScalarDecodes(LOST, 0, 0, {}, LOST_RESOLVER);
    assert KeysFrom(LOST, 0, 2, {}, LOST_RESOLVER, {7}) == Keys({7});
    assert {} + {7} == {7};
  }

  lemma LostMerge(none: map<int, Value>)
    requires Decodable(LOST) && !IsMerge(LOST[3])
    ensures MergeNode(LOST, 0, 2, {}, LOST_RESOLVER, none, {7}, true) == Merged(none, {7}, None)
  {
    assert ValidNode(LOST, 2);
    ScalarDecodes(LOST, 2, 0, {}, LOST_RESOLVER);
    assert MergedFrom(LOST, 2, 2, {}, LOST_RESOLVER, none, {7}, None, true) == Merged(none, {7}, None);
    assert MergedFrom(LOST, 2, 0, {}, LOST_RESOLVER, none, {7}, None, true) == Merged(none, {7}, None);
    assert !Duplicated(LOST, 2);
    assert MergeInto(LOST, 2, {}, LOST_RESOLVER, none, {7}, true) == Merged(none, {7}, None);
  }

  lemma LostUnion()
    requires Decodable(LOST) && IsMerge(LOST[1]) && !IsMerge(LOST[3])
    ensures UnionSlot(LOST, 0, {}, LOST_RESOLVER, 7) == Present(Atom(1))
  {
    assert ValidNode(LOST, 0) && ValidNode(LOST, 2);
    assert PairsFrom(LOST, 0, 2, {}, LOST_RESOLVER, true) == [];
    assert PairsFrom(LOST, 0, 0, {}, LOST_RESOLVER, true) == [];
    NoIds();
    assert MergeValue(LOST, 0, 2, Some(2)) == Some(2);
    assert MergeValue(LOST, 0, 0, None) == Some(2);
    ScalarDecodes(LOST, 2, 0, {}, LOST_RESOLVER);
    ScalarDecodes(LOST, 2, 1, {}, LOST_RESOLVER);
    assert PairsFrom(LOST, 2, 2, {}, LOST_RESOLVER, true) == [];
    assert PairsFrom(LOST, 2, 0, {}, LOST_RESOLVER, true) == [Entry(7, 4, {})];
    assert MergeValue(LOST, 2, 2, None) == None;
    assert MergeValue(LOST, 2, 0, None) == None;
    assert !Duplicated(LOST, 2);
    assert Offered(LOST, 2, {}, LOST_RESOLVER, true) == [Entry(7, 4, {})];
    assert Inherited(LOST, 0, {}, LOST_RESOLVER) == [Entry(7, 4, {})];
    assert Decode(LOST, 4, {}, LOST_RESOLVER) == DecodeChild(LOST, 2, 1, {}, LOST_RESOLVER);
  }
}
