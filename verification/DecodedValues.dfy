/** What nodes decode to, kind by kind, in terms of what their parts decode to; mappings are the matter of
    `MergeKeys`. */
module DecodedValues {
  import opened Options
  import opened Events
  import opened Graph
  import opened Decoder

  // ----- Sequences -----

  /** The values of those that have one, in order. */
  function Values(rs: seq<Result>): seq<Value> {
    if rs == [] then [] else (if rs[0].Good? then [rs[0].value] else []) + Values(rs[1..])
  }

  lemma {:induction false} AllHaveValues(rs: seq<Result>)
    requires forall k :: 0 <= k < |rs| ==> rs[k].Good?
    ensures |Values(rs)| == |rs| && forall k :: 0 <= k < |rs| ==> Values(rs)[k] == rs[k].value
  {
    if rs != [] {
      AllHaveValues(rs[1..]);
      forall k | 0 <= k < |rs| ensures Values(rs)[k] == rs[k].value { if k > 0 { assert rs[k] == rs[1..][k - 1]; } }
    }
  }

  predicate NoneFails(rs: seq<Result>) { forall k :: 0 <= k < |rs| ==> !rs[k].Failed? }

  /** What the parts of a node decode to. */
  ghost function Parts(g: seq<GraphNode>, i: nat, open: set<nat>, resolve: Resolver): (rs: seq<Result>)
    requires Decodable(g) && i < |g|
    ensures |rs| == |g[i].content| && forall k :: 0 <= k < |rs| ==> rs[k] == DecodeChild(g, i, k, open, resolve)
  {
    seq(|g[i].content|, k requires 0 <= k < |g[i].content| => DecodeChild(g, i, k, open, resolve))
  }

  /** The parts before `l` do not fail; `l` is the first that does, or there is none. */
  lemma {:induction false} ListIs(g: seq<GraphNode>, i: nat, k: nat, open: set<nat>, resolve: Resolver, items: seq<Value>) returns (l: nat)
    requires Decodable(g) && i < |g| && k <= |g[i].content|
    ensures k <= l <= |g[i].content| && NoneFails(Parts(g, i, open, resolve)[k..l])
    ensures var rs, r := Parts(g, i, open, resolve), ListFrom(g, i, k, open, resolve, items);
      if l == |rs| then r == Good(List(items + Values(rs[k..]))) else rs[l].Failed? && r == rs[l]
    decreases |g[i].content| - k
  {
    hide DecodeChild, Parts;
    var rs := Parts(g, i, open, resolve);
    l := k;
    if k == |rs| {
      assert items + [] == items;
    } else if !rs[k].Failed? {
      var items' := if rs[k].Good? then items + [rs[k].value] else items;
      l := ListIs(g, i, k + 1, open, resolve, items');
      assert rs[k..l] == [rs[k]] + rs[k + 1..l];
      ConsValues(items, rs[k], rs[k + 1..]);
      assert rs[k..] == [rs[k]] + rs[k + 1..];
    }
  }

  lemma ConsValues(items: seq<Value>, r: Result, rs: seq<Result>)
    ensures (if r.Good? then items + [r.value] else items) + Values(rs) == items + Values([r] + rs)
  {
    assert ([r] + rs)[1..] == rs;
  }

  /** A sequence decodes to the list of what its parts decode to, in their order and without those that are skipped;
      if parts fail, it fails as the first of them does. */
  lemma DecodedSequence(g: seq<GraphNode>, i: nat, open: set<nat>, resolve: Resolver)
    requires Decodable(g) && i < |g| && g[i].kind.SequenceNode?
    ensures var rs := Parts(g, i, open, resolve); var r := Decode(g, i, open, resolve);
      && (NoneFails(rs) ==> r == Good(List(Values(rs))))
      && ((forall k :: 0 <= k < |rs| ==> rs[k].Good?) ==>
            r.Good? && r.value.List? && |r.value.items| == |rs| && forall k :: 0 <= k < |rs| ==> Good(r.value.items[k]) == rs[k])
      && (!NoneFails(rs) ==> exists l :: 0 <= l < |rs| && rs[l].Failed? && r == rs[l] && NoneFails(rs[..l]))
  {
    hide DecodeChild, Parts, ListFrom;
    var rs := Parts(g, i, open, resolve);
    var l := ListIs(g, i, 0, open, resolve, []);
    assert rs[0..l] == rs[..l] && rs[0..] == rs && [] + Values(rs) == Values(rs);
    if l == |rs| { assert rs[..l] == rs; }
    if forall k :: 0 <= k < |rs| ==> rs[k].Good? { AllHaveValues(rs); }
  }

  /** `rs` is what the parts of node `j` decode to one after the other while keys are being claimed, from part `k` on,
      and `claims` what is claimed before and after each. */
  ghost predicate Claims(g: seq<GraphNode>, j: nat, k: nat, open: set<nat>, resolve: Resolver, rs: seq<Result>, claims: seq<set<int>>)
    requires Decodable(g) && j < |g|
  {
    assert ValidNode(g, j);
    && |claims| == |rs| + 1 && k + |rs| <= |g[j].content|
    && forall l :: 0 <= l < |rs| ==> ClaimNode(g, g[j].content[k + l], open, resolve, claims[l]) == Claim(rs[l], claims[l + 1])
  }

  lemma {:induction false} ItemsAre(g: seq<GraphNode>, j: nat, k: nat, open: set<nat>, resolve: Resolver, claimed: set<int>, items: seq<Value>)
    returns (rs: seq<Result>, claims: seq<set<int>>)
    requires Decodable(g) && j < |g| && k <= |g[j].content|
    ensures Claims(g, j, k, open, resolve, rs, claims) && claims[0] == claimed
    ensures var c := ClaimItems(g, j, k, open, resolve, claimed, items);
      && c.claimed == claims[|rs|]
      && (if NoneFails(rs) then k + |rs| == |g[j].content| && c.result == Good(List(items + Values(rs)))
          else NoneFails(rs[..|rs| - 1]) && c.result == rs[|rs| - 1])
    decreases |g[j].content| - k
  {
    hide ClaimNode, Values, NoneFails, Claims;
    assert ValidNode(g, j);
    NoneAtAll(items);
    if k == |g[j].content| {
      rs, claims := [], [claimed];
      assert Claims(g, j, k, open, resolve, rs, claims) by { NoClaims(g, j, k, open, resolve, claimed); }
    } else {
      var c := ClaimNode(g, g[j].content[k], open, resolve, claimed);
      if c.result.Failed? {
        rs, claims := [c.result], [claimed, c.claimed];
        FailedClaim(g, j, k, open, resolve, claimed, c);
      } else {
        var items' := if c.result.Good? then items + [c.result.value] else items;
        var rs', claims' := ItemsAre(g, j, k + 1, open, resolve, c.claimed, items');
        rs, claims := [c.result] + rs', [claimed] + claims';
        ConsValues(items, c.result, rs');
        assert [c.result] + rs' == rs && (rs' != [] ==> rs[..|rs| - 1] == ([c.result] + rs')[..|rs'|] && rs[|rs| - 1] == rs'[|rs'| - 1]);
        ConsClaims(g, j, k, open, resolve, claimed, c, rs', claims');
        ConsFails(c.result, rs');
      }
    }
  }

  lemma NoneAtAll(items: seq<Value>)
    ensures items + Values([]) == items && NoneFails([])
  {
  }

  lemma NoClaims(g: seq<GraphNode>, j: nat, k: nat, open: set<nat>, resolve: Resolver, claimed: set<int>)
    requires Decodable(g) && j < |g| && k <= |g[j].content|
    ensures Claims(g, j, k, open, resolve, [], [claimed])
  {
  }

  lemma FailedClaim(g: seq<GraphNode>, j: nat, k: nat, open: set<nat>, resolve: Resolver, claimed: set<int>, c: Claim)
    requires Decodable(g) && j < |g| && k < |g[j].content| && ValidNode(g, j)
    requires c == ClaimNode(g, g[j].content[k], open, resolve, claimed) && c.result.Failed?
    ensures Claims(g, j, k, open, resolve, [c.result], [claimed, c.claimed])
    ensures !NoneFails([c.result]) && NoneFails([c.result][..0])
  {
    hide ClaimNode;
    assert [c.result][0] == c.result;
  }

  lemma ConsClaims(g: seq<GraphNode>, j: nat, k: nat, open: set<nat>, resolve: Resolver, claimed: set<int>, c: Claim,
                   rs: seq<Result>, claims: seq<set<int>>)
    requires Decodable(g) && j < |g| && k < |g[j].content| && ValidNode(g, j) && c == ClaimNode(g, g[j].content[k], open, resolve, claimed)
    requires Claims(g, j, k + 1, open, resolve, rs, claims) && claims[0] == c.claimed
    ensures Claims(g, j, k, open, resolve, [c.result] + rs, [claimed] + claims)
  {
    hide ClaimNode;
    var rs1, claims1 := [c.result] + rs, [claimed] + claims;
    forall l | 0 <= l < |rs1| ensures ClaimNode(g, g[j].content[k + l], open, resolve, claims1[l]) == Claim(rs1[l], claims1[l + 1]) {
      if l > 0 { assert k + l == k + 1 + (l - 1) && claims1[l] == claims[l - 1] && claims1[l + 1] == claims[l] && rs1[l] == rs[l - 1]; }
    }
  }

  lemma ConsFails(r: Result, rs: seq<Result>)
    requires !r.Failed?
    ensures NoneFails([r] + rs) <==> NoneFails(rs)
    ensures rs != [] ==> (NoneFails(([r] + rs)[..|rs|]) <==> NoneFails(rs[..|rs| - 1]))
  {
    var all := [r] + rs;
    assert forall k :: 0 <= k < |rs| ==> rs[k] == all[k + 1];
    if rs != [] {
      var a, b := all[..|rs|], rs[..|rs| - 1];
      assert forall k :: 0 <= k < |b| ==> b[k] == a[k + 1];
    }
  }

  /** The same while keys are being claimed: each part is decoded with what is claimed before it. */
  lemma ClaimedSequence(g: seq<GraphNode>, j: nat, open: set<nat>, resolve: Resolver, claimed: set<int>)
    returns (rs: seq<Result>, claims: seq<set<int>>)
    requires Decodable(g) && j < |g| && g[j].kind.SequenceNode?
    ensures Claims(g, j, 0, open, resolve, rs, claims) && claims[0] == claimed
    ensures var c := ClaimNode(g, j, open, resolve, claimed);
      && c.claimed == claims[|rs|]
      && (NoneFails(rs) ==> |rs| == |g[j].content| && c.result == Good(List(Values(rs))))
      && ((forall k :: 0 <= k < |rs| ==> rs[k].Good?) ==>
            c.result.Good? && c.result.value.List? && |c.result.value.items| == |rs| && forall k :: 0 <= k < |rs| ==> Good(c.result.value.items[k]) == rs[k])
      && (!NoneFails(rs) ==> NoneFails(rs[..|rs| - 1]) && c.result == rs[|rs| - 1])
  {
    hide ClaimItems, Claims;
    assert ValidNode(g, j);
    rs, claims := ItemsAre(g, j, 0, open, resolve, claimed, []);
    assert [] + Values(rs) == Values(rs);
    if forall k :: 0 <= k < |rs| ==> rs[k].Good? { AllHaveValues(rs); }
  }

  // ----- Aliases -----

  const CYCLE := Failed(SelfContaining)

  /** The aliases being expanded decide nothing but whether one of them is met again. */
  lemma {:induction false} SameNode(g: seq<GraphNode>, i: nat, open: set<nat>, more: set<nat>, resolve: Resolver)
    requires Decodable(g) && i < |g| && open <= more
    ensures Decode(g, i, more, resolve) != CYCLE ==> Decode(g, i, open, resolve) == Decode(g, i, more, resolve)
    decreases Closed(g, open), |g| - i, 6, 0
  {
    hide DecodeChild, ListFrom, DecodeMapping;
    assert ValidNode(g, i);
    match g[i].kind {
      case DocumentNode => if |g[i].content| == 1 { SameChild(g, i, 0, open, more, resolve); }
      case AliasNode =>
        if i !in more {
          OpeningShrinks(g, open, i);
          SameNode(g, g[i].target.value, open + {i}, more + {i}, resolve);
        }
      case ScalarNode =>
      case SequenceNode => SameList(g, i, 0, open, more, resolve, []);
      case MappingNode => if !Duplicated(g, i) { SameMapping(g, i, open, more, resolve); }
    }
  }

  lemma SameChild(g: seq<GraphNode>, i: nat, k: nat, open: set<nat>, more: set<nat>, resolve: Resolver)
    requires Decodable(g) && i < |g| && open <= more && k < |g[i].content|
    ensures DecodeChild(g, i, k, more, resolve) != CYCLE ==> DecodeChild(g, i, k, open, resolve) == DecodeChild(g, i, k, more, resolve)
    decreases Closed(g, open), |g| - i, 0, 0
  {
    hide Decode;
    assert ValidNode(g, i);
    SameNode(g, g[i].content[k], open, more, resolve);
  }

  lemma {:induction false} SameText(g: seq<GraphNode>, i: nat, open: set<nat>, more: set<nat>, resolve: Resolver)
    requires Decodable(g) && i < |g| && open <= more
    ensures DecodeText(g, i, more, resolve) != CYCLE ==> DecodeText(g, i, open, resolve) == DecodeText(g, i, more, resolve)
    decreases Closed(g, open)
  {
    assert ValidNode(g, i);
    if g[i].kind.AliasNode? && i !in more {
      OpeningShrinks(g, open, i);
      SameText(g, g[i].target.value, open + {i}, more + {i}, resolve);
    }
  }

  lemma SameKey(g: seq<GraphNode>, i: nat, k: nat, open: set<nat>, more: set<nat>, resolve: Resolver, text: bool)
    requires Decodable(g) && i < |g| && open <= more && k < |g[i].content|
    ensures KeyOf(g, i, k, more, resolve, text) != CYCLE ==> KeyOf(g, i, k, open, resolve, text) == KeyOf(g, i, k, more, resolve, text)
    decreases Closed(g, open), |g| - i, 0, 1
  {
    hide DecodeChild, DecodeText;
    assert ValidNode(g, i);
    if text { SameText(g, g[i].content[k], open, more, resolve); } else { SameChild(g, i, k, open, more, resolve); }
  }

  lemma {:induction false} SameList(g: seq<GraphNode>, i: nat, k: nat, open: set<nat>, more: set<nat>, resolve: Resolver, items: seq<Value>)
    requires Decodable(g) && i < |g| && open <= more && k <= |g[i].content|
    ensures var r := ListFrom(g, i, k, more, resolve, items); r != CYCLE ==> ListFrom(g, i, k, open, resolve, items) == r
    decreases Closed(g, open), |g| - i, 1, |g[i].content| - k
  {
    hide DecodeChild;
    if k < |g[i].content| {
      SameChild(g, i, k, open, more, resolve);
      match DecodeChild(g, i, k, more, resolve) {
        case Failed(_) =>
        case Skipped => SameList(g, i, k + 1, open, more, resolve, items);
        case Good(v) => SameList(g, i, k + 1, open, more, resolve, items + [v]);
      }
    }
  }

  lemma SameMapping(g: seq<GraphNode>, i: nat, open: set<nat>, more: set<nat>, resolve: Resolver)
    requires Decodable(g) && i < |g| && open <= more && g[i].kind.MappingNode?
    ensures DecodeMapping(g, i, more, resolve) != CYCLE ==> DecodeMapping(g, i, open, resolve) == DecodeMapping(g, i, more, resolve)
    decreases Closed(g, open), |g| - i, 5, 0
  {
    hide OwnFrom, KeysFrom, MergeNode, IsStringMap;
    assert ValidNode(g, i);
    var text := IsStringMap(g, i);
    SameOwn(g, i, 0, open, more, resolve, map[], None, text);
    SameKeys(g, i, 0, open, more, resolve, {});
    match OwnFrom(g, i, 0, more, resolve, map[], None, text) {
      case Own(out, Some(m)) =>
        match KeysFrom(g, i, 0, more, resolve, {}) {
          case Keys(ids) => SameMerge(g, i, m, open, more, resolve, out, ids, text);
          case _ =>
        }
      case _ =>
    }
  }

  lemma {:induction false} SameOwn(g: seq<GraphNode>, i: nat, k: nat, open: set<nat>, more: set<nat>, resolve: Resolver,
                                   out: map<int, Value>, merge: Option<nat>, text: bool)
    requires Decodable(g) && i < |g| && open <= more && g[i].kind.MappingNode? && k <= |g[i].content| && k % 2 == 0
    requires merge.Some? ==> i < merge.value < |g|
    ensures var r := OwnFrom(g, i, k, more, resolve, out, merge, text);
      r != OwnFailed(SelfContaining) ==> OwnFrom(g, i, k, open, resolve, out, merge, text) == r
    decreases Closed(g, open), |g| - i, 1, |g[i].content| - k
  {
    hide KeyOf, DecodeChild;
    assert ValidNode(g, i);
    var c := g[i].content;
    if k < |c| {
      if IsMerge(g[c[k]]) {
        SameOwn(g, i, k + 2, open, more, resolve, out, Some(c[k + 1]), text);
      } else {
        SameKey(g, i, k, open, more, resolve, text);
        SameChild(g, i, k + 1, open, more, resolve);
        match KeyOf(g, i, k, more, resolve, text) {
          case Skipped => SameOwn(g, i, k + 2, open, more, resolve, out, merge, text);
          case Good(Atom(id)) =>
            SameOwn(g, i, k + 2, open, more, resolve, Stored(g, DecodeChild(g, i, k + 1, more, resolve), c[k + 1], id, out), merge, text);
          case _ =>
        }
      }
    }
  }

  lemma {:induction false} SameKeys(g: seq<GraphNode>, i: nat, k: nat, open: set<nat>, more: set<nat>, resolve: Resolver, ids: set<int>)
    requires Decodable(g) && i < |g| && open <= more && g[i].kind.MappingNode? && k <= |g[i].content| && k % 2 == 0
    ensures var r := KeysFrom(g, i, k, more, resolve, ids); r != KeysFailed(SelfContaining) ==> KeysFrom(g, i, k, open, resolve, ids) == r
    decreases Closed(g, open), |g| - i, 1, |g[i].content| - k
  {
    hide ClaimNode;
    assert ValidNode(g, i);
    if k < |g[i].content| {
      var c := g[i].content[k];
      SameClaim(g, c, open, more, resolve, ids);
      match ClaimNode(g, c, more, resolve, ids).result {
        case Skipped => SameKeys(g, i, k + 2, open, more, resolve, ids);
        case Good(Atom(id)) => SameKeys(g, i, k + 2, open, more, resolve, ids + {id});
        case _ =>
      }
    }
  }

  lemma {:induction false} SameClaim(g: seq<GraphNode>, j: nat, open: set<nat>, more: set<nat>, resolve: Resolver, claimed: set<int>)
    requires Decodable(g) && j < |g| && open <= more && !g[j].kind.DocumentNode?
    ensures var c := ClaimNode(g, j, more, resolve, claimed); c.result != CYCLE ==> ClaimNode(g, j, open, resolve, claimed) == c
    decreases Closed(g, open), |g| - j, 7, 0
  {
    hide MergeInto, ClaimItems;
    assert ValidNode(g, j);
    match g[j].kind {
      case AliasNode =>
        if j !in more {
          OpeningShrinks(g, open, j);
          TargetIsNoAlias(g, j);
          SameClaim(g, g[j].target.value, open + {j}, more + {j}, resolve, claimed);
        }
      case ScalarNode =>
      case SequenceNode => SameItems(g, j, 0, open, more, resolve, claimed, []);
      case MappingNode => if !Duplicated(g, j) { SameInto(g, j, open, more, resolve, map[], claimed, IsStringMap(g, j)); }
    }
  }

  lemma {:induction false} SameItems(g: seq<GraphNode>, j: nat, k: nat, open: set<nat>, more: set<nat>, resolve: Resolver, claimed: set<int>, items: seq<Value>)
    requires Decodable(g) && j < |g| && open <= more && k <= |g[j].content|
    ensures var c := ClaimItems(g, j, k, more, resolve, claimed, items); c.result != CYCLE ==> ClaimItems(g, j, k, open, resolve, claimed, items) == c
    decreases Closed(g, open), |g| - j, 1, |g[j].content| - k
  {
    hide ClaimNode;
    assert ValidNode(g, j);
    if k < |g[j].content| {
      SameClaim(g, g[j].content[k], open, more, resolve, claimed);
      match ClaimNode(g, g[j].content[k], more, resolve, claimed) {
        case Claim(Skipped, claimed1) => SameItems(g, j, k + 1, open, more, resolve, claimed1, items);
        case Claim(Good(v), claimed1) => SameItems(g, j, k + 1, open, more, resolve, claimed1, items + [v]);
        case _ =>
      }
    }
  }

  const MERGE_CYCLE := MergeFailed(SelfContaining)

  lemma SameMerge(g: seq<GraphNode>, i: nat, m: nat, open: set<nat>, more: set<nat>, resolve: Resolver,
                  out: map<int, Value>, claimed: set<int>, text: bool)
    requires Decodable(g) && i < m < |g| && open <= more
    ensures var r := MergeNode(g, i, m, more, resolve, out, claimed, text); r != MERGE_CYCLE ==> MergeNode(g, i, m, open, resolve, out, claimed, text) == r
    decreases Closed(g, open), |g| - i, 0, 1
  {
    hide MergeInto, MergeItems;
    if IsMappingOrAlias(g, m) {
      SameInto(g, m, open, more, resolve, out, claimed, text);
    } else if g[m].kind.SequenceNode? {
      SameMerges(g, m, 0, open, more, resolve, out, claimed, text);
    }
  }

  lemma {:induction false} SameMerges(g: seq<GraphNode>, m: nat, k: nat, open: set<nat>, more: set<nat>, resolve: Resolver,
                                      out: map<int, Value>, claimed: set<int>, text: bool)
    requires Decodable(g) && m < |g| && open <= more && k <= |g[m].content|
    ensures var r := MergeItems(g, m, k, more, resolve, out, claimed, text); r != MERGE_CYCLE ==> MergeItems(g, m, k, open, resolve, out, claimed, text) == r
    decreases Closed(g, open), |g| - m, 1, |g[m].content| - k
  {
    hide MergeInto;
    assert ValidNode(g, m);
    if k < |g[m].content| && IsMappingOrAlias(g, g[m].content[k]) {
      SameInto(g, g[m].content[k], open, more, resolve, out, claimed, text);
      match MergeInto(g, g[m].content[k], more, resolve, out, claimed, text) {
        case Merged(out1, claimed1, _) => SameMerges(g, m, k + 1, open, more, resolve, out1, claimed1, text);
        case _ =>
      }
    }
  }

  lemma {:induction false} SameInto(g: seq<GraphNode>, j: nat, open: set<nat>, more: set<nat>, resolve: Resolver,
                                    out: map<int, Value>, claimed: set<int>, text: bool)
    requires Decodable(g) && j < |g| && IsMappingOrAlias(g, j) && open <= more
    ensures var r := MergeInto(g, j, more, resolve, out, claimed, text); r != MERGE_CYCLE ==> MergeInto(g, j, open, resolve, out, claimed, text) == r
    decreases Closed(g, open), |g| - j, 6, 1
  {
    hide MergedFrom, MergeNode;
    assert ValidNode(g, j);
    if g[j].kind.AliasNode? {
      if j !in more {
        OpeningShrinks(g, open, j);
        SameInto(g, g[j].target.value, open + {j}, more + {j}, resolve, out, claimed, text);
      }
    } else if !Duplicated(g, j) {
      SameMerged(g, j, 0, open, more, resolve, out, claimed, None, text);
      match MergedFrom(g, j, 0, more, resolve, out, claimed, None, text) {
        case Merged(out1, claimed1, Some(m)) => SameMerge(g, j, m, open, more, resolve, out1, claimed1, text);
        case _ =>
      }
    }
  }

  lemma {:induction false} SameMerged(g: seq<GraphNode>, j: nat, k: nat, open: set<nat>, more: set<nat>, resolve: Resolver,
                                      out: map<int, Value>, claimed: set<int>, merge: Option<nat>, text: bool)
    requires Decodable(g) && j < |g| && open <= more && g[j].kind.MappingNode? && k <= |g[j].content| && k % 2 == 0
    requires merge.Some? ==> j < merge.value < |g|
    ensures var r := MergedFrom(g, j, k, more, resolve, out, claimed, merge, text);
      r != MERGE_CYCLE ==> MergedFrom(g, j, k, open, resolve, out, claimed, merge, text) == r
    decreases Closed(g, open), |g| - j, 1, |g[j].content| - k
  {
    hide KeyOf, DecodeChild;
    assert ValidNode(g, j);
    var c := g[j].content;
    if k < |c| {
      if IsMerge(g[c[k]]) {
        SameMerged(g, j, k + 2, open, more, resolve, out, claimed, Some(c[k + 1]), text);
      } else {
        SameKey(g, j, k, open, more, resolve, text);
        match KeyOf(g, j, k, more, resolve, text) {
          case Skipped => SameMerged(g, j, k + 2, open, more, resolve, out, claimed, merge, text);
          case Good(Atom(id)) =>
            if id in claimed {
              SameMerged(g, j, k + 2, open, more, resolve, out, claimed, merge, text);
            } else {
              SameChild(g, j, k + 1, open, more, resolve);
              SameMerged(g, j, k + 2, open, more, resolve, Stored(g, DecodeChild(g, j, k + 1, more, resolve), c[k + 1], id, out),
                         claimed + {id}, merge, text);
            }
          case _ =>
        }
      }
    }
  }

  /** An alias decodes to what the node decodes to that it stands for, the last one before it with its name; unless
      that node is met again on the way. */
  lemma DecodedAlias(g: seq<GraphNode>, i: nat, open: set<nat>, resolve: Resolver)
    requires Decodable(g) && i < |g| && g[i].kind.AliasNode?
    ensures ValidNode(g, i)
    ensures Decode(g, i, open, resolve) != CYCLE ==> Decode(g, i, open, resolve) == Decode(g, g[i].target.value, open, resolve)
  {
    hide Decode;
    assert ValidNode(g, i);
    AliasOpens(g, i, open, resolve);
    if i !in open { SameNode(g, g[i].target.value, open, open + {i}, resolve); }
  }

  lemma AliasOpens(g: seq<GraphNode>, i: nat, open: set<nat>, resolve: Resolver)
    requires Decodable(g) && i < |g| && g[i].kind.AliasNode?
    ensures ValidNode(g, i) && Decode(g, i, open, resolve) == if i in open then CYCLE else Decode(g, g[i].target.value, open + {i}, resolve)
  {
    assert ValidNode(g, i);
  }

  // ----- Keys that are defined twice -----

  /** Two keys that count as the same: scalars with the same text, however they are tagged or quoted; aliases of the same
      name; and any two sequences and any two mappings, whatever they hold. */
  predicate CountAsOne(a: GraphNode, b: GraphNode) {
    || (a.event.Scalar? && b.event.Scalar? && a.event.value == b.event.value)
    || (a.event.Alias? && b.event.Alias? && a.event.name == b.event.name)
    || (a.event.SequenceStart? && b.event.SequenceStart?)
    || (a.event.MappingStart? && b.event.MappingStart?)
  }

  lemma DuplicatedExactlyWhen(g: seq<GraphNode>, i: nat)
    requires ValidGraph(g) && i < |g|
    ensures Below(g, i, g[i].content)
    ensures Duplicated(g, i) <==>
      exists a, b :: 0 <= a < b < |g[i].content| && a % 2 == 0 && b % 2 == 0 && CountAsOne(g[g[i].content[a]], g[g[i].content[b]])
  {
    assert ValidNode(g, i);
    var c := g[i].content;
    forall k | 0 <= k < |c| ensures KindMatches(g[c[k]]) { assert ValidNode(g, c[k]); }
    forall a, b | 0 <= a < b < |c|
      ensures CountAsOne(g[c[a]], g[c[b]]) <==> g[c[a]].kind == g[c[b]].kind && ValueText(g[c[a]]) == ValueText(g[c[b]])
    {
      KeysAgree(g[c[a]], g[c[b]]);
    }
  }

  lemma KeysAgree(x: GraphNode, y: GraphNode)
    requires KindMatches(x) && KindMatches(y) && !x.kind.DocumentNode? && !y.kind.DocumentNode?
    ensures CountAsOne(x, y) <==> x.kind == y.kind && ValueText(x) == ValueText(y)
  {
  }

  /** So a mapping with two lists for keys counts as one that defines a key twice, and is skipped. */
  lemma TwoListsAreOneKey(g: seq<GraphNode>, i: nat, open: set<nat>, resolve: Resolver, a: nat, b: nat)
    requires Decodable(g) && i < |g| && g[i].kind.MappingNode? && a < b < |g[i].content| && a % 2 == 0 && b % 2 == 0
    requires g[i].content[a] < |g| && g[i].content[b] < |g|
    requires g[g[i].content[a]].kind.SequenceNode? && g[g[i].content[b]].kind.SequenceNode?
    ensures Decode(g, i, open, resolve).Skipped?
  {
    hide DecodeMapping;
    DuplicatedExactlyWhen(g, i);
    assert ValidNode(g, i) && ValidNode(g, g[i].content[a]) && ValidNode(g, g[i].content[b]);
    assert CountAsOne(g[g[i].content[a]], g[g[i].content[b]]);
  }

  // ----- Scalars and documents -----

  /** As a text, a scalar decodes to its text, to nothing for null, or fails; a collection to nothing; and an alias to what
      the node it stands for does, unless it is being expanded. */
  lemma DecodedText(g: seq<GraphNode>, i: nat, open: set<nat>, resolve: Resolver)
    requires Decodable(g) && i < |g|
    ensures ValidNode(g, i)
    ensures g[i].kind.ScalarNode? ==> forall v :: DecodeText(g, i, open, resolve) == Good(v) <==> v.Atom? && resolve.text(g[i]) == Text(v.id)
    ensures g[i].kind.ScalarNode? ==> (DecodeText(g, i, open, resolve).Skipped? <==> resolve.text(g[i]).NoText?)
    ensures g[i].kind.SequenceNode? || g[i].kind.MappingNode? ==> DecodeText(g, i, open, resolve).Skipped?
    ensures g[i].kind.AliasNode? ==>
      if i in open then DecodeText(g, i, open, resolve) == CYCLE
      else DecodeText(g, i, open, resolve) == CYCLE || DecodeText(g, i, open, resolve) == DecodeText(g, g[i].target.value, open, resolve)
  {
    assert ValidNode(g, i);
    if g[i].kind.AliasNode? && i !in open { SameText(g, g[i].target.value, open, open + {i}, resolve); }
  }

  /** A scalar decodes to what it resolves to; a document to what its one node decodes to, and to null where that is
      skipped. */
  lemma DecodedLeaf(g: seq<GraphNode>, i: nat, open: set<nat>, resolve: Resolver)
    requires Decodable(g) && i < |g|
    ensures g[i].kind.ScalarNode? ==> forall v :: Decode(g, i, open, resolve) == Good(v) <==> v.Atom? && resolve.value(g[i]) == Some(v.id)
    ensures g[i].kind.ScalarNode? && resolve.value(g[i]).None? ==> Decode(g, i, open, resolve) == Failed(BadScalar)
    ensures g[i].kind.DocumentNode? && |g[i].content| == 1 ==>
      Decode(g, i, open, resolve) == if Parts(g, i, open, resolve)[0].Skipped? then Good(Atom(NIL)) else Parts(g, i, open, resolve)[0]
    ensures g[i].kind.DocumentNode? && |g[i].content| != 1 ==> Decode(g, i, open, resolve).Skipped?
  {
    hide DecodeChild;
    assert ValidNode(g, i);
  }
}
