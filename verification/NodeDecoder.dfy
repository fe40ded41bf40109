/** The decoder object (decode.go, type `decoder`): it fills maps in place, remembers in
    `mergedFields` which keys a merge may no longer set, and counts its calls to refuse documents that
    are mostly alias expansion. What it stores is what module Decoder says. */
module NodeDecoder {
  import opened Options
  import opened Events
  import opened Graph
  import opened Decoder

  // ----- The alias budget -----

  const RATIO_LOW := 400000.0
  const RATIO_HIGH := 4000000.0

  function AllowedAliasRatio(decodeCount: int): real {
    if decodeCount as real <= RATIO_LOW then 0.99
    else if decodeCount as real >= RATIO_HIGH then 0.10
    else 0.99 - 0.89 * ((decodeCount as real - RATIO_LOW) / (RATIO_HIGH - RATIO_LOW))
  }

  /** The check in `unmarshal` passes. */
  predicate WithinBudget(decodeCount: nat, aliasCount: nat) {
    !(aliasCount > 100 && decodeCount > 1000 && aliasCount as real / decodeCount as real > AllowedAliasRatio(decodeCount))
  }

  lemma RatioAtMost(d: int)
    ensures 0.10 <= AllowedAliasRatio(d) <= 0.99
  {
    if RATIO_LOW < d as real < RATIO_HIGH {
      var x := (d as real - RATIO_LOW) / (RATIO_HIGH - RATIO_LOW);
      assert 0.0 < x < 1.0;
    }
  }

  /** At every passed check the work is bounded by what the document itself contains. */
  lemma BudgetBound(d: nat, a: nat)
    requires WithinBudget(d, a) && a <= d
    ensures d <= 1000 || d <= (d - a) + 100 || d <= 100 * (d - a)
  {
    if d > 1000 && a > 100 {
      RatioAtMost(d);
      var r := a as real / d as real;
      assert r * d as real == a as real;
      assert r <= 0.99;
      assert a as real <= 0.99 * d as real;
    }
  }

  /** For documents of up to 400,000 steps the bound is the check. */
  lemma BudgetExact(d: nat, a: nat)
    requires a <= d <= 400000
    ensures WithinBudget(d, a) <==> d <= 1000 || d <= (d - a) + 100 || d <= 100 * (d - a)
  {
    if d > 1000 && a > 100 {
      var r := a as real / d as real;
      assert r * d as real == a as real;
      if d <= 100 * (d - a) {
        assert 100.0 * a as real <= 99.0 * d as real;
        if r > 0.99 { assert r * d as real > 0.99 * d as real; }
      } else {
        assert 100.0 * a as real > 99.0 * d as real;
        if r <= 0.99 { assert r * d as real <= 0.99 * d as real; }
      }
    }
  }

  lemma SameProduct(a: real, b: real, x: real)
    requires a == b
    ensures a * x == b * x
  {
  }

  /** The parabola between the two ends, its vertex near 2,202,247. */
  lemma Peak(x: real, r: real)
    requires 400000.0 <= x <= 4000000.0 && r * 3600000.0 == 3920000.0 - 0.89 * x
    ensures r * x < 1200000.0
  {
    Parabola(x, r);
    var y := x - 2202247.0;
    assert y * y == x * x - 2.0 * 2202247.0 * x + 2202247.0 * 2202247.0;
    PeakLinear(r * x, x * x, y * y, x);
  }

  lemma PeakLinear(p: real, square: real, gap: real, x: real)
    requires 3600000.0 * p == 3920000.0 * x - 0.89 * square && x <= 4000000.0
    requires gap == square - 4404494.0 * x + 4849891849009.0 && gap >= 0.0
    ensures p < 1200000.0
  {
  }

  /** The comment on `allowedAliasRatio` promises 396,000 to 400,000 alias-driven steps over the whole
      range. In between far more are allowed; 1,200,000 is the bound. */
  lemma AliasStepsPeak(d: nat)
    requires 400000 <= d <= 4000000
    ensures AllowedAliasRatio(d) * (d as real) < 1200000.0
  {
    Peak(d as real, AllowedAliasRatio(d));
  }

  lemma AliasStepsExceedTheComment()
    ensures AllowedAliasRatio(2200000) * 2200000.0 > 1198000.0
  {
    assert (2200000.0 - RATIO_LOW) / (RATIO_HIGH - RATIO_LOW) == 0.5;
  }

  /** Between the ends the ratio is a line. */
  lemma RatioLine(d: nat)
    requires 400000 <= d <= 4000000
    ensures AllowedAliasRatio(d) * 3600000.0 == 3920000.0 - 0.89 * d as real
  {
    assert RATIO_HIGH - RATIO_LOW == 3600000.0;
    if RATIO_LOW < d as real < RATIO_HIGH {
      var x := (d as real - RATIO_LOW) / 3600000.0;
      assert x * 3600000.0 == d as real - RATIO_LOW;
    }
  }

  /** The steps on that line, as a parabola. */
  lemma Parabola(x: real, r: real)
    requires r * 3600000.0 == 3920000.0 - 0.89 * x
    ensures 3600000.0 * (r * x) == 3920000.0 * x - 0.89 * (x * x)
  {
    SameProduct(r * 3600000.0, 3920000.0 - 0.89 * x, x);
    assert (r * 3600000.0) * x == 3600000.0 * (r * x);
    assert (3920000.0 - 0.89 * x) * x == 3920000.0 * x - 0.89 * (x * x);
  }

  lemma ProductSign(u: real, v: real)
    ensures u >= 0.0 && v >= 0.0 ==> u * v >= 0.0
    ensures v >= 0.0 ==> (u * v > 0.0 <==> u > 0.0 && v > 0.0)
  {
    if u <= 0.0 && v >= 0.0 { assert (-u) * v >= 0.0; }
  }

  lemma Factored(x: real, a: real, b: real, c: real, d: real)
    ensures (a * x - b) * (c - d * x) == (a * c + b * d) * x - (a * d) * (x * x) - b * c
  {
  }

  lemma LowSign(x: real)
    requires 400000.0 <= x <= 4000000.0
    ensures 3920000.0 * x - 0.89 * (x * x) >= 1425600000000.0
  {
    var u, v := 1.0 * x - 400000.0, 3564000.0 - 0.89 * x;
    ProductSign(u, v);
    Factored(x, 1.0, 400000.0, 3564000.0, 0.89);
  }

  lemma HighSign(x: real)
    requires 400000.0 <= x <= 4000000.0
    ensures 3920000.0 * x - 0.89 * (x * x) > 1440000000000.0 <==> 0.89 * x > 360000.0 && x < 4000000.0
  {
    var u, v := 0.89 * x - 360000.0, 4000000.0 - 1.0 * x;
    ProductSign(u, v);
    Factored(x, 0.89, 360000.0, 4000000.0, 1.0);
  }

  /** Never below 396,000, and above 400,000 strictly between the roots of the parabola. */
  lemma BetweenRoots(x: real, p: real)
    requires 400000.0 <= x <= 4000000.0 && 3600000.0 * p == 3920000.0 * x - 0.89 * (x * x)
    ensures p >= 396000.0
    ensures p > 400000.0 <==> 0.89 * x > 360000.0 && x < 4000000.0
  {
    LowSign(x);
    HighSign(x);
  }

  lemma RootIs(d: nat)
    ensures 0.89 * d as real > 360000.0 <==> d > 404494
    ensures d as real < 4000000.0 <==> d < 4000000
  {
    assert 0.89 * 404494.0 <= 360000.0 < 0.89 * 404495.0;
    if d > 404494 { assert d as real >= 404495.0; } else { assert d as real <= 404494.0; }
  }

  /** Exactly when the comment on `allowedAliasRatio` holds: at the two ends of the range. */
  lemma PromiseHoldsExactlyWhen(d: nat)
    requires 400000 <= d <= 4000000
    ensures AllowedAliasRatio(d) * (d as real) >= 396000.0
    ensures AllowedAliasRatio(d) * (d as real) <= 400000.0 <==> d <= 404494 || d == 4000000
  {
    hide AllowedAliasRatio;
    RatioLine(d);
    Parabola(d as real, AllowedAliasRatio(d));
    BetweenRoots(d as real, AllowedAliasRatio(d) * (d as real));
    RootIs(d);
  }

  // ----- The decoder -----

  /** Go's maps: references to contents that change in place. */
  class Table {
    const text: bool  // whether the keys are strings
    var entries: map<int, Value>

    constructor (stringKeys: bool)
      ensures entries == map[] && text == stringKeys
    {
      text, entries := stringKeys, map[];
    }
  }

  class KeySet {
    var keys: set<int>

    constructor ()
      ensures keys == {}
    {
      keys := {};
    }
  }

  ghost function DecodeAs(g: seq<GraphNode>, i: nat, open: set<nat>, resolve: Resolver, text: bool): Result
    requires Decodable(g) && i < |g|
  {
    if text then DecodeText(g, i, open, resolve) else Decode(g, i, open, resolve)
  }

  predicate NoAliases(g: seq<GraphNode>) { forall i :: 0 <= i < |g| ==> !g[i].kind.AliasNode? }

  predicate Refused(r: Result) { r == Failed(ExcessiveAliasing) }

  lemma NodeIsValid(g: seq<GraphNode>, i: nat)
    requires Decodable(g) && i < |g| && g[i].kind.MappingNode?
    ensures ValidNode(g, i) && |g[i].content| % 2 == 0
  {
  }

  lemma ChildIs(g: seq<GraphNode>, i: nat, k: nat, open: set<nat>, resolve: Resolver, text: bool)
    requires Decodable(g) && i < |g| && k < |g[i].content| && ValidNode(g, i)
    ensures DecodeChild(g, i, k, open, resolve) == Decode(g, g[i].content[k], open, resolve)
    ensures KeyOf(g, i, k, open, resolve, text) == DecodeAs(g, g[i].content[k], open, resolve, text)
  {
    hide Decode, DecodeText;
  }

  /** The next key. */
  lemma KeyClaimed(g: seq<GraphNode>, i: nat, k: nat, open: set<nat>, resolve: Resolver, ids: set<int>)
    requires Decodable(g) && i < |g| && g[i].kind.MappingNode? && k + 1 < |g[i].content| && k % 2 == 0 && ValidNode(g, i)
    ensures i < g[i].content[k] < |g| && !g[g[i].content[k]].kind.DocumentNode?
    ensures var c := ClaimNode(g, g[i].content[k], open, resolve, ids);
      && (c.result.Skipped? || (c.result.Good? && c.result.value.Atom?) ==> c.claimed == ids)
      && KeysFrom(g, i, k, open, resolve, ids)
        == match c.result
           case Failed(problem) => KeysFailed(problem)
           case Skipped => KeysFrom(g, i, k + 2, open, resolve, ids)
           case Good(key) => if !key.Atom? then KeysFailed(UnhashableKey) else KeysFrom(g, i, k + 2, open, resolve, ids + {key.id})
  {
    hide Decode, ClaimNode;
    ClaimIsDecode(g, g[i].content[k], open, resolve, ids);
  }

  lemma ValueIs(g: seq<GraphNode>, j: nat, open: set<nat>, resolve: Resolver)
    requires Decodable(g) && j < |g|
    ensures DecodeAs(g, j, open, resolve, false) == Decode(g, j, open, resolve)
  {
  }

  lemma KeysDone(g: seq<GraphNode>, i: nat, open: set<nat>, resolve: Resolver, ids: set<int>)
    requires Decodable(g) && i < |g| && g[i].kind.MappingNode? && |g[i].content| % 2 == 0
    ensures KeysFrom(g, i, |g[i].content|, open, resolve, ids) == Keys(ids)
  {
  }

  /** A merge key is remembered, and left for later. */
  lemma MergeNoted(g: seq<GraphNode>, i: nat, k: nat, open: set<nat>, resolve: Resolver, out: map<int, Value>, claimed: set<int>, merge: Option<nat>, text: bool)
    requires Decodable(g) && i < |g| && g[i].kind.MappingNode? && k + 1 < |g[i].content| && k % 2 == 0
    requires (merge.Some? ==> i < merge.value < |g|) && ValidNode(g, i) && IsMerge(g[g[i].content[k]])
    ensures var m := Some(g[i].content[k + 1]);
      && i < m.value < |g|
      && OwnFrom(g, i, k, open, resolve, out, merge, text) == OwnFrom(g, i, k + 2, open, resolve, out, m, text)
      && MergedFrom(g, i, k, open, resolve, out, claimed, merge, text) == MergedFrom(g, i, k + 2, open, resolve, out, claimed, m, text)
  {
    hide KeyOf, DecodeChild;
  }

  /** One entry that is not a merge key. */
  lemma EntryStep(g: seq<GraphNode>, i: nat, k: nat, open: set<nat>, resolve: Resolver, out: map<int, Value>, claimed: set<int>, merge: Option<nat>, text: bool)
    requires Decodable(g) && i < |g| && g[i].kind.MappingNode? && k + 1 < |g[i].content| && k % 2 == 0
    requires (merge.Some? ==> i < merge.value < |g|) && ValidNode(g, i) && !IsMerge(g[g[i].content[k]])
    ensures var c := g[i].content;
      OwnFrom(g, i, k, open, resolve, out, merge, text) ==
        match DecodeAs(g, c[k], open, resolve, text)
        case Failed(problem) => OwnFailed(problem)
        case Skipped => OwnFrom(g, i, k + 2, open, resolve, out, merge, text)
        case Good(key) =>
          if !key.Atom? then OwnFailed(InvalidKey)
          else
            match Decode(g, c[k + 1], open, resolve)
            case Failed(problem) => OwnFailed(problem)
            case v => OwnFrom(g, i, k + 2, open, resolve, Stored(g, v, c[k + 1], key.id, out), merge, text)
    ensures var c := g[i].content;
      MergedFrom(g, i, k, open, resolve, out, claimed, merge, text) ==
        match DecodeAs(g, c[k], open, resolve, text)
        case Failed(problem) => MergeFailed(problem)
        case Skipped => MergedFrom(g, i, k + 2, open, resolve, out, claimed, merge, text)
        case Good(key) =>
          if !key.Atom? then MergeFailed(UnhashableKey)
          else if key.id in claimed then MergedFrom(g, i, k + 2, open, resolve, out, claimed, merge, text)
          else
            match Decode(g, c[k + 1], open, resolve)
            case Failed(problem) => MergeFailed(problem)
            case v => MergedFrom(g, i, k + 2, open, resolve, Stored(g, v, c[k + 1], key.id, out), claimed + {key.id}, merge, text)
  {
    hide Decode, DecodeText, DecodeAs, KeyOf, DecodeChild;
    ChildIs(g, i, k, open, resolve, text);
    ChildIs(g, i, k + 1, open, resolve, text);
  }

  lemma EntriesDone(g: seq<GraphNode>, i: nat, open: set<nat>, resolve: Resolver, out: map<int, Value>, claimed: set<int>, merge: Option<nat>, text: bool)
    requires Decodable(g) && i < |g| && g[i].kind.MappingNode? && |g[i].content| % 2 == 0
    requires merge.Some? ==> i < merge.value < |g|
    ensures OwnFrom(g, i, |g[i].content|, open, resolve, out, merge, text) == Own(out, merge)
    ensures MergedFrom(g, i, |g[i].content|, open, resolve, out, claimed, merge, text) == Merged(out, claimed, merge)
  {
    hide KeyOf, DecodeChild;
  }

  class NodeDecoder {
    const graph: seq<GraphNode>
    const resolve: Resolver
    var aliases: set<nat>
    var decodeCount: nat
    var aliasCount: nat
    var aliasDepth: nat
    var mergedFields: KeySet?

    /** The counters passed the last check. */
    ghost predicate Valid()
      reads this
    {
      Decodable(graph) && aliasCount <= decodeCount && (decodeCount == 0 || WithinBudget(decodeCount, aliasCount))
    }

    constructor (g: seq<GraphNode>, r: Resolver)
      requires Decodable(g)
      ensures Valid() && graph == g && resolve == r && aliases == {} && mergedFields == null
    {
      graph, resolve := g, r;
      aliases, decodeCount, aliasCount, aliasDepth, mergedFields := {}, 0, 0, 0, null;
    }

    twostate predicate Kept()
      reads this
    {
      && Valid() && aliases == old(aliases) && aliasDepth == old(aliasDepth) && mergedFields == old(mergedFields)
      && decodeCount >= old(decodeCount) && aliasCount >= old(aliasCount)
    }

    /** Every call counts, and so does every call while an alias is being expanded; where there are no aliases, none
        does. */
    twostate predicate Counted()
      reads this
    {
      && 0 <= aliasCount - old(aliasCount) <= decodeCount - old(decodeCount)
      && (old(aliasDepth) > 0 ==> aliasCount - old(aliasCount) == decodeCount - old(decodeCount))
      && (old(aliasDepth) == 0 && NoAliases(graph) ==> aliasCount == old(aliasCount))
    }

    /** `unmarshal`: into a new value when `out` is null, a string if `text`, else into the map being
        merged into. */
    method Unmarshal(i: nat, text: bool, out: Table?) returns (r: Result)
      requires Valid() && i < |graph| && (text ==> out == null && mergedFields == null)
      requires text || mergedFields != null ==> !graph[i].kind.DocumentNode?
      requires out != null ==> mergedFields != null && IsMappingOrAlias(graph, i)
      modifies this, out, mergedFields
      ensures !r.Failed? ==> Kept() && decodeCount > 0
      ensures Counted() && (Refused(r) ==> !WithinBudget(decodeCount, aliasCount))
      ensures decodeCount > old(decodeCount) && (old(aliasDepth) == 0 && old(aliasCount) <= 100 && NoAliases(graph) ==> !Refused(r))
      ensures graph[i].kind.ScalarNode? ==> decodeCount == old(decodeCount) + 1
      ensures graph[i].kind.AliasNode? && old(aliasDepth) == 0 ==> aliasCount - old(aliasCount) == decodeCount - old(decodeCount) - 1
      ensures graph[i].kind.SequenceNode? && !text && !r.Failed? ==> decodeCount > old(decodeCount) + |graph[i].content|
      ensures out == null && old(mergedFields) == null && !Refused(r) ==> r == DecodeAs(graph, i, old(aliases), resolve, text)
      ensures out == null && old(mergedFields) != null && !Refused(r) ==>
        var c := ClaimNode(graph, i, old(aliases), resolve, old(mergedFields.keys));
        r == c.result && (!r.Failed? ==> mergedFields.keys == c.claimed)
      ensures out != null && !Refused(r) ==>
        var m := MergeInto(graph, i, old(aliases), resolve, old(out.entries), old(mergedFields.keys), out.text);
        if r.Failed? then m == MergeFailed(r.problem)
        else m.Merged? && out.entries == m.out && mergedFields.keys == m.claimed
      decreases Closed(graph, aliases), |graph| - i, 7, 0
    {
      decodeCount := decodeCount + 1;
      if aliasDepth > 0 { aliasCount := aliasCount + 1; }
      if !WithinBudget(decodeCount, aliasCount) { return Failed(ExcessiveAliasing); }
      assert ValidNode(graph, i);
      match graph[i].kind {
        case DocumentNode => r := Document(i);
        case AliasNode => r := Alias(i, text, out);
        case ScalarNode => r := Scalar(graph[i], text);
        case SequenceNode => r := Sequence(i, text);
        case MappingNode => r := Mapping(i, text, out);
      }
    }

    /** `scalar`, for the two kinds of target. */
    method Scalar(n: GraphNode, text: bool) returns (r: Result)
      ensures r == if text then (match resolve.text(n) case Text(id) => Good(Atom(id)) case NoText => Skipped case BadText => Failed(BadScalar))
        else (match resolve.value(n) case None => Failed(BadScalar) case Some(id) => Good(Atom(id)))
    {
      if text {
        match resolve.text(n) {
          case Text(id) => r := Good(Atom(id));
          case NoText => r := Skipped;
          case BadText => r := Failed(BadScalar);
        }
      } else {
        match resolve.value(n) {
          case None => r := Failed(BadScalar);
          case Some(id) => r := Good(Atom(id));
        }
      }
    }

    method Document(i: nat) returns (r: Result)
      requires Valid() && i < |graph| && graph[i].kind.DocumentNode? && decodeCount > 0 && mergedFields == null
      modifies this
      ensures !r.Failed? ==> Kept() && decodeCount > 0
      ensures Counted() && (Refused(r) ==> !WithinBudget(decodeCount, aliasCount))
      ensures !Refused(r) ==> r == Decode(graph, i, old(aliases), resolve)
      decreases Closed(graph, aliases), |graph| - i, 6, 0
    {
      assert ValidNode(graph, i);
      if |graph[i].content| != 1 { return Skipped; }
      ChildIs(graph, i, 0, aliases, resolve, false);
      r := Unmarshal(graph[i].content[0], false, null);
      if r.Skipped? { r := Good(Atom(NIL)); }
    }

    method Alias(i: nat, text: bool, out: Table?) returns (r: Result)
      requires Valid() && i < |graph| && graph[i].kind.AliasNode? && decodeCount > 0 && (text ==> out == null && mergedFields == null)
      requires out != null ==> mergedFields != null && IsMappingOrAlias(graph, i)
      modifies this, out, mergedFields
      ensures !r.Failed? ==> Kept() && decodeCount > 0
      ensures Counted() && (Refused(r) ==> !WithinBudget(decodeCount, aliasCount))
      ensures aliasCount - old(aliasCount) == decodeCount - old(decodeCount)
      ensures out == null && old(mergedFields) == null && !Refused(r) ==> r == DecodeAs(graph, i, old(aliases), resolve, text)
      ensures out == null && old(mergedFields) != null && !Refused(r) ==>
        var c := ClaimNode(graph, i, old(aliases), resolve, old(mergedFields.keys));
        r == c.result && (!r.Failed? ==> mergedFields.keys == c.claimed)
      ensures out != null && !Refused(r) ==>
        var m := MergeInto(graph, i, old(aliases), resolve, old(out.entries), old(mergedFields.keys), out.text);
        if r.Failed? then m == MergeFailed(r.problem)
        else m.Merged? && out.entries == m.out && mergedFields.keys == m.claimed
      decreases Closed(graph, aliases), |graph| - i, 6, 0
    {
      assert ValidNode(graph, i);
      if i in aliases { return Failed(SelfContaining); }
      OpeningShrinks(graph, aliases, i);
      TargetIsNoAlias(graph, i);
      ghost var before := aliases;
      aliases := aliases + {i};
      aliasDepth := aliasDepth + 1;
      r := Unmarshal(graph[i].target.value, text, out);
      if r.Failed? { return; }
      aliasDepth := aliasDepth - 1;
      aliases := aliases - {i};
      assert aliases == before;
    }

    method Sequence(i: nat, text: bool) returns (r: Result)
      requires Valid() && i < |graph| && graph[i].kind.SequenceNode? && decodeCount > 0 && (text ==> mergedFields == null)
      modifies this, mergedFields
      ensures !r.Failed? ==> Kept() && decodeCount > 0
      ensures Counted() && (Refused(r) ==> !WithinBudget(decodeCount, aliasCount))
      ensures !text && !r.Failed? ==> decodeCount >= old(decodeCount) + |graph[i].content|
      ensures old(mergedFields) == null && !Refused(r) ==> r == DecodeAs(graph, i, old(aliases), resolve, text)
      ensures old(mergedFields) != null && !Refused(r) ==>
        var c := ClaimNode(graph, i, old(aliases), resolve, old(mergedFields.keys));
        r == c.result && (!r.Failed? ==> mergedFields.keys == c.claimed)
      decreases Closed(graph, aliases), |graph| - i, 6, 0
    {
      if text { return Skipped; }
      assert ValidNode(graph, i);
      var items, k := [], 0;
      while k < |graph[i].content|
        invariant 0 <= k <= |graph[i].content| && Kept() && decodeCount > 0
        invariant Counted()
        invariant decodeCount >= old(decodeCount) + k
        invariant mergedFields == null ==>
          ListFrom(graph, i, k, aliases, resolve, items) == ListFrom(graph, i, 0, aliases, resolve, [])
        invariant mergedFields != null ==>
          ClaimItems(graph, i, k, aliases, resolve, mergedFields.keys, items) == ClaimItems(graph, i, 0, aliases, resolve, old(mergedFields.keys), [])
      {
        ChildIs(graph, i, k, aliases, resolve, false);
        var item := Unmarshal(graph[i].content[k], false, null);
        match item {
          case Failed(problem) => return item;
          case Skipped =>
          case Good(v) => items := items + [v];
        }
        k := k + 1;
      }
      r := Good(List(items));
    }

    /** The check for `uniqueKeys`. */
    method HasDuplicates(i: nat) returns (found: bool)
      requires i < |graph| && Below(graph, i, graph[i].content)
      ensures found == Duplicated(graph, i)
    {
      hide ValueText;
      var c := graph[i].content;
      var a := 0;
      while a < |c|
        invariant a % 2 == 0
        invariant forall x, y :: 0 <= x < a && x < y < |c| && x % 2 == 0 && y % 2 == 0 ==>
          graph[c[x]].kind != graph[c[y]].kind || ValueText(graph[c[x]]) != ValueText(graph[c[y]])
      {
        var b := a + 2;
        while b < |c|
          invariant a < b && b % 2 == 0
          invariant forall y :: a < y < b && y < |c| && y % 2 == 0 ==>
            graph[c[a]].kind != graph[c[y]].kind || ValueText(graph[c[a]]) != ValueText(graph[c[y]])
        {
          if graph[c[a]].kind == graph[c[b]].kind && ValueText(graph[c[a]]) == ValueText(graph[c[b]]) { return true; }
          b := b + 2;
        }
        a := a + 2;
      }
      found := false;
    }

    /** `mapping`. While the entries are read `mergedFields` is nil, so nested maps are not affected. */
    method Mapping(i: nat, text: bool, out: Table?) returns (r: Result)
      requires Valid() && i < |graph| && graph[i].kind.MappingNode? && decodeCount > 0 && (text ==> out == null && mergedFields == null)
      requires out != null ==> mergedFields != null
      modifies this, out, mergedFields
      ensures !r.Failed? ==> Kept() && decodeCount > 0
      ensures Counted() && (Refused(r) ==> !WithinBudget(decodeCount, aliasCount))
      ensures out == null && old(mergedFields) == null && !Refused(r) ==> r == DecodeAs(graph, i, old(aliases), resolve, text)
      ensures out == null && old(mergedFields) != null && !Refused(r) ==>
        var c := ClaimNode(graph, i, old(aliases), resolve, old(mergedFields.keys));
        r == c.result && (!r.Failed? ==> mergedFields.keys == c.claimed)
      ensures out != null && !Refused(r) ==>
        var m := MergeInto(graph, i, old(aliases), resolve, old(out.entries), old(mergedFields.keys), out.text);
        if r.Failed? then m == MergeFailed(r.problem)
        else m.Merged? && out.entries == m.out && mergedFields.keys == m.claimed
      decreases Closed(graph, aliases), |graph| - i, 6, 0
    {
      hide Duplicated, IsStringMap, DecodeMapping, MergedFrom, MergeNode, WithinBudget;
      assert ValidNode(graph, i);
      var duplicated := HasDuplicates(i);
      if duplicated || text { return Skipped; }
      var table := out;
      if out == null {
        var strings := StringMap(i);
        table := new Table(strings);
      }
      r := Fill(i, table);
    }

    /** The entries, and what they merge, into a map. */
    method Fill(i: nat, table: Table) returns (r: Result)
      requires Valid() && i < |graph| && graph[i].kind.MappingNode? && decodeCount > 0 && ValidNode(graph, i) && !Duplicated(graph, i)
      modifies this, table, mergedFields
      ensures !r.Failed? ==> Kept() && decodeCount > 0
      ensures Counted() && (Refused(r) ==> !WithinBudget(decodeCount, aliasCount))
      ensures old(mergedFields) == null && old(table.entries) == map[] && table.text == IsStringMap(graph, i) && !Refused(r) ==>
        r == DecodeMapping(graph, i, old(aliases), resolve)
      ensures old(mergedFields) != null && !Refused(r) ==>
        var m := MergeInto(graph, i, old(aliases), resolve, old(table.entries), old(mergedFields.keys), table.text);
        if r.Failed? then m == MergeFailed(r.problem)
        else m.Merged? && r == Good(Dict(m.out)) && table.entries == m.out && mergedFields.keys == m.claimed
      decreases Closed(graph, aliases), |graph| - i, 5, 1
    {
      hide Duplicated, Decode, DecodeText, OwnFrom, MergedFrom, KeysFrom, MergeNode, ClaimNode, IsStringMap, WithinBudget;
      var failed, merge := Entries(i, table);
      if failed.Some? { return Failed(failed.value); }
      if merge.Some? {
        r := Merge(i, merge.value, table);
        if r.Failed? { return; }
      }
      r := Good(Dict(table.entries));
    }

    /** `isStringMap`. */
    method StringMap(i: nat) returns (strings: bool)
      requires i < |graph| && Below(graph, i, graph[i].content)
      ensures strings == IsStringMap(graph, i)
    {
      var k := 0;
      while k < |graph[i].content|
        invariant 0 <= k && k % 2 == 0
        invariant forall j :: 0 <= j < k && j < |graph[i].content| && j % 2 == 0 ==> TextTag(TagOf(graph, graph[i].content[j]))
      {
        var tag := TagOf(graph, graph[i].content[k]);
        if tag != "!!str" && tag != MERGE_TAG { return false; }
        k := k + 2;
      }
      strings := true;
    }

    /** One entry that is not a merge key. */
    method StoreEntry(i: nat, k: nat, table: Table, claimed: KeySet?, ghost merge: Option<nat>) returns (failed: Option<Problem>)
      requires Valid() && i < |graph| && graph[i].kind.MappingNode? && ValidNode(graph, i) && decodeCount > 0
      requires mergedFields == null && k + 1 < |graph[i].content| && k % 2 == 0 && !IsMerge(graph[graph[i].content[k]])
      requires merge.Some? ==> i < merge.value < |graph|
      modifies this, table, claimed
      ensures failed.None? ==> Kept() && decodeCount > 0
      ensures Counted() && (failed == Some(ExcessiveAliasing) ==> !WithinBudget(decodeCount, aliasCount))
      ensures claimed == null && failed != Some(ExcessiveAliasing) ==>
        var o := OwnFrom(graph, i, k, old(aliases), resolve, old(table.entries), merge, table.text);
        match failed
        case Some(problem) => o == OwnFailed(problem)
        case None => o == OwnFrom(graph, i, k + 2, old(aliases), resolve, table.entries, merge, table.text)
      ensures claimed != null && failed != Some(ExcessiveAliasing) ==>
        var m := MergedFrom(graph, i, k, old(aliases), resolve, old(table.entries), old(claimed.keys), merge, table.text);
        match failed
        case Some(problem) => m == MergeFailed(problem)
        case None => m == MergedFrom(graph, i, k + 2, old(aliases), resolve, table.entries, claimed.keys, merge, table.text)
      decreases Closed(graph, aliases), |graph| - i, 4, 0
    {
      hide Decode, DecodeText, DecodeAs, OwnFrom, MergedFrom, Decodable, WithinBudget;
      EntryStep(graph, i, k, aliases, resolve, table.entries, if claimed == null then {} else claimed.keys, merge, table.text);
      ValueIs(graph, graph[i].content[k + 1], aliases, resolve);
      var c := graph[i].content;
      failed := None;
      var key := Unmarshal(c[k], table.text, null);
      if key.Failed? { return Some(key.problem); }
      if key.Skipped? { return; }
      if claimed != null {
        if !key.value.Atom? { return Some(UnhashableKey); }
        if key.value.id in claimed.keys { return; }
        claimed.keys := claimed.keys + {key.value.id};
      }
      if !key.value.Atom? { return Some(InvalidKey); }
      var value := Unmarshal(c[k + 1], false, null);
      if value.Failed? { return Some(value.problem); }
      table.entries := Stored(graph, value, c[k + 1], key.value.id, table.entries);
    }

    /** The loop over the entries. */
    method Entries(i: nat, table: Table) returns (failed: Option<Problem>, merge: Option<nat>)
      requires Valid() && i < |graph| && graph[i].kind.MappingNode? && decodeCount > 0
      modifies this, table, mergedFields
      ensures failed.None? ==> Kept() && decodeCount > 0 && (merge.Some? ==> i < merge.value < |graph|)
      ensures Counted() && (failed == Some(ExcessiveAliasing) ==> !WithinBudget(decodeCount, aliasCount))
      ensures old(mergedFields) == null && failed != Some(ExcessiveAliasing) ==>
        var o := OwnFrom(graph, i, 0, old(aliases), resolve, old(table.entries), None, table.text);
        match failed case Some(problem) => o == OwnFailed(problem) case None => o == Own(table.entries, merge)
      ensures old(mergedFields) != null && failed != Some(ExcessiveAliasing) ==>
        var m := MergedFrom(graph, i, 0, old(aliases), resolve, old(table.entries), old(mergedFields.keys), None, table.text);
        match failed
        case Some(problem) => m == MergeFailed(problem)
        case None => m == Merged(table.entries, mergedFields.keys, merge)
      decreases Closed(graph, aliases), |graph| - i, 5, 0
    {
      hide OwnFrom, MergedFrom, Decodable, WithinBudget, IsMerge, KeyOf, DecodeChild, Closed, ValidGraph, KindMatches, Resolves;
      ghost var own, merged := OwnFrom(graph, i, 0, aliases, resolve, table.entries, None, table.text),
        MergedFrom(graph, i, 0, aliases, resolve, table.entries, if mergedFields == null then {} else mergedFields.keys, None, table.text);
      NodeIsValid(graph, i);
      var c := graph[i].content;
      var claimed := mergedFields;
      mergedFields := null;
      merge := None;
      var k := 0;
      while k < |c|
        invariant 0 <= k <= |c| && k % 2 == 0 && Valid() && decodeCount > 0 && mergedFields == null
        invariant aliases == old(aliases) && aliasDepth == old(aliasDepth)
        invariant decodeCount >= old(decodeCount) && aliasCount >= old(aliasCount)
        invariant Counted()
        invariant merge.Some? ==> i < merge.value < |graph|
        invariant claimed == null ==> OwnFrom(graph, i, k, aliases, resolve, table.entries, merge, table.text) == own
        invariant claimed != null ==> MergedFrom(graph, i, k, aliases, resolve, table.entries, claimed.keys, merge, table.text) == merged
        decreases |c| - k
      {
        if IsMerge(graph[c[k]]) {
          MergeNoted(graph, i, k, aliases, resolve, table.entries, if claimed == null then {} else claimed.keys, merge, table.text);
          merge := Some(c[k + 1]);
          k := k + 2;
          continue;
        }
        failed := StoreEntry(i, k, table, claimed, merge);
        if failed.Some? { return; }
        k := k + 2;
      }
      EntriesDone(graph, i, aliases, resolve, table.entries, if claimed == null then {} else claimed.keys, merge, table.text);
      mergedFields := claimed;
      failed := None;
    }

    /** `merge`. */
    method Merge(parent: nat, m: nat, table: Table) returns (r: Result)
      requires Valid() && parent < m < |graph| && graph[parent].kind.MappingNode? && ValidNode(graph, parent) && decodeCount > 0
      modifies this, table, mergedFields
      ensures !r.Failed? ==> Kept() && decodeCount > 0
      ensures Counted() && (Refused(r) ==> !WithinBudget(decodeCount, aliasCount))
      ensures old(mergedFields) == null && !Refused(r) ==>
        match KeysFrom(graph, parent, 0, old(aliases), resolve, {})
        case KeysFailed(problem) => r == Failed(problem)
        case Keys(ids) =>
          var n := MergeNode(graph, parent, m, old(aliases), resolve, old(table.entries), ids, table.text);
          if r.Failed? then n == MergeFailed(r.problem) else n.Merged? && table.entries == n.out
      ensures old(mergedFields) != null && !Refused(r) ==>
        var n := MergeNode(graph, parent, m, old(aliases), resolve, old(table.entries), old(mergedFields.keys), table.text);
        if r.Failed? then n == MergeFailed(r.problem)
        else n.Merged? && table.entries == n.out && mergedFields.keys == n.claimed
      decreases Closed(graph, aliases), |graph| - parent, 4, 0
    {
      var before := mergedFields;
      if before == null {
        mergedFields := new KeySet();
        var failed := ClaimKeys(parent);
        if failed.Some? { return Failed(failed.value); }
      }
      r := MergeValueOf(parent, m, table);
      if r.Failed? { return; }
      mergedFields := before;
    }

    /** The keys of the mapping that merges are claimed before anything is merged. */
    method ClaimKeys(i: nat) returns (failed: Option<Problem>)
      requires Valid() && i < |graph| && graph[i].kind.MappingNode? && ValidNode(graph, i) && decodeCount > 0
      requires mergedFields != null && mergedFields.keys == {}
      modifies this, mergedFields
      ensures failed.None? ==> Kept() && decodeCount > 0
      ensures Counted() && (failed == Some(ExcessiveAliasing) ==> !WithinBudget(decodeCount, aliasCount))
      ensures failed != Some(ExcessiveAliasing) ==>
        var ks := KeysFrom(graph, i, 0, old(aliases), resolve, {});
        match failed
        case Some(problem) => ks == KeysFailed(problem)
        case None => ks == Keys(mergedFields.keys)
      decreases Closed(graph, aliases), |graph| - i, 3, 0
    {
      hide KeysFrom, Decodable, WithinBudget, Decode, ClaimNode;
      NodeIsValid(graph, i);
      ghost var all := KeysFrom(graph, i, 0, aliases, resolve, {});
      var c, k := graph[i].content, 0;
      while k < |c|
        invariant 0 <= k <= |c| && k % 2 == 0 && Kept() && decodeCount > 0
        invariant Counted()
        invariant KeysFrom(graph, i, k, aliases, resolve, mergedFields.keys) == all
      {
        KeyClaimed(graph, i, k, aliases, resolve, mergedFields.keys);
        var key := Unmarshal(c[k], false, null);
        match key {
          case Failed(problem) => return Some(problem);
          case Skipped =>
          case Good(v) =>
            if !v.Atom? { return Some(UnhashableKey); }
            mergedFields.keys := mergedFields.keys + {v.id};
        }
        k := k + 2;
      }
      KeysDone(graph, i, aliases, resolve, mergedFields.keys);
      failed := None;
    }

    method MergeValueOf(parent: nat, m: nat, table: Table) returns (r: Result)
      requires Valid() && parent < m < |graph| && mergedFields != null && decodeCount > 0
      modifies this, table, mergedFields
      ensures !r.Failed? ==> Kept() && decodeCount > 0
      ensures Counted() && (Refused(r) ==> !WithinBudget(decodeCount, aliasCount))
      ensures !Refused(r) ==>
        var n := MergeNode(graph, parent, m, old(aliases), resolve, old(table.entries), old(mergedFields.keys), table.text);
        if r.Failed? then n == MergeFailed(r.problem)
        else n.Merged? && table.entries == n.out && mergedFields.keys == n.claimed
      decreases Closed(graph, aliases), |graph| - parent, 3, 0
    {
      assert ValidNode(graph, m);
      if IsMappingOrAlias(graph, m) {
        r := Unmarshal(m, false, table);
      } else if graph[m].kind.SequenceNode? {
        var c, k := graph[m].content, 0;
        while k < |c|
          invariant 0 <= k <= |c| && Kept() && decodeCount > 0
          invariant Counted()
          invariant MergeItems(graph, m, k, aliases, resolve, table.entries, mergedFields.keys, table.text)
            == MergeItems(graph, m, 0, aliases, resolve, old(table.entries), old(mergedFields.keys), table.text)
        {
          if !IsMappingOrAlias(graph, c[k]) { return Failed(WantMap); }
          r := Unmarshal(c[k], false, table);
          if r.Failed? { return; }
          k := k + 1;
        }
        r := Skipped;
      } else {
        r := Failed(WantMap);
      }
    }
  }
}
