/** Collections as keys, and keys as text. A mapping whose keys are all tagged as strings decodes into a
    map with string keys, and so does whatever is merged into it; any other mapping keeps the values of its
    keys. This, and that a mapping which merges first claims its own keys, decides what becomes of a key
    that is a collection. */
module MapKeys {
  import opened Options
  import opened Events
  import opened Graph
  import opened Decoder
  import opened MergeKeys

  /** Node `j`, or the node it stands for, is a sequence, or a mapping that defines no key twice. */
  predicate IsCollection(g: seq<GraphNode>, j: nat)
    requires ValidGraph(g) && j < |g|
  {
    assert ValidNode(g, j);
    var t := if g[j].kind.AliasNode? then g[j].target.value else j;
    assert ValidNode(g, t);
    g[t].kind.SequenceNode? || (g[t].kind.MappingNode? && !Duplicated(g, t))
  }

  lemma CollectionDecodes(g: seq<GraphNode>, j: nat, open: set<nat>, resolve: Resolver)
    requires Decodable(g) && j < |g| && !g[j].kind.DocumentNode?
    ensures var d := Decode(g, j, open, resolve);
      !d.Failed? ==> (IsCollection(g, j) <==> d.Good? && !d.value.Atom?)
    decreases Closed(g, open)
  {
    assert ValidNode(g, j);
    match g[j].kind {
      case AliasNode =>
        if j !in open {
          OpeningShrinks(g, open, j);
          TargetIsNoAlias(g, j);
          CollectionDecodes(g, g[j].target.value, open + {j}, resolve);
        }
      case ScalarNode =>
      case SequenceNode => ListIsNoAtom(g, j, 0, open, resolve, []);
      case MappingNode => MappingIsNoAtom(g, j, open, resolve);
    }
  }

  lemma TextIsNoCollection(g: seq<GraphNode>, j: nat, open: set<nat>, resolve: Resolver)
    requires Decodable(g) && j < |g|
    ensures var d := DecodeText(g, j, open, resolve); d.Good? ==> d.value.Atom?
    decreases Closed(g, open)
  {
    assert ValidNode(g, j);
    if g[j].kind.AliasNode? && j !in open {
      OpeningShrinks(g, open, j);
      TextIsNoCollection(g, g[j].target.value, open + {j}, resolve);
    }
  }

  /** Some key of mapping `j` from `k` on is a collection. */
  predicate HasCollectionKey(g: seq<GraphNode>, j: nat, k: nat)
    requires ValidGraph(g) && j < |g|
  {
    assert ValidNode(g, j);
    exists l :: k <= l < |g[j].content| && l % 2 == 0 && IsCollection(g, g[j].content[l])
  }

  /** From `k` on, no key and no value of mapping `j` fails by itself. */
  ghost predicate EntriesDecode(g: seq<GraphNode>, j: nat, k: nat, open: set<nat>, resolve: Resolver, text: bool)
    requires Decodable(g) && j < |g|
  {
    forall l :: k <= l < |g[j].content| - 1 && l % 2 == 0 && j < g[j].content[l] < |g| && !IsMerge(g[g[j].content[l]]) ==>
      !KeyOf(g, j, l, open, resolve, text).Failed? && !DecodeChild(g, j, l + 1, open, resolve).Failed?
  }

  /** The key at `k`, when it does not fail. */
  lemma KeyKind(g: seq<GraphNode>, j: nat, k: nat, open: set<nat>, resolve: Resolver, text: bool)
    requires Decodable(g) && j < |g| && g[j].kind.MappingNode? && k < |g[j].content| && k % 2 == 0
    requires ValidNode(g, j) && !IsMerge(g[g[j].content[k]])
    ensures var d := KeyOf(g, j, k, open, resolve, text);
      !d.Failed? ==> (d.Good? && !d.value.Atom? <==> !text && IsCollection(g, g[j].content[k]))
    ensures HasCollectionKey(g, j, k) <==> IsCollection(g, g[j].content[k]) || HasCollectionKey(g, j, k + 2)
  {
    hide Decode, DecodeText;
    CollectionDecodes(g, g[j].content[k], open, resolve);
    TextIsNoCollection(g, g[j].content[k], open, resolve);
    assert forall l :: k <= l < |g[j].content| && l % 2 == 0 ==> l == k || k + 2 <= l;
  }

  lemma EntryDecodes(g: seq<GraphNode>, j: nat, k: nat, open: set<nat>, resolve: Resolver, text: bool)
    requires Decodable(g) && j < |g| && g[j].kind.MappingNode? && k < |g[j].content| && k % 2 == 0
    requires EntriesDecode(g, j, k, open, resolve, text)
    ensures k + 1 < |g[j].content| && EntriesDecode(g, j, k + 2, open, resolve, text)
    ensures ValidNode(g, j) && (!IsMerge(g[g[j].content[k]]) ==>
      !KeyOf(g, j, k, open, resolve, text).Failed? && !DecodeChild(g, j, k + 1, open, resolve).Failed?)
  {
    hide KeyOf, DecodeChild;
    assert ValidNode(g, j);
  }

  lemma MergeKeyPassed(g: seq<GraphNode>, j: nat, k: nat)
    requires Decodable(g) && j < |g| && g[j].kind.MappingNode? && k < |g[j].content| && k % 2 == 0
    requires ValidNode(g, j) && IsMerge(g[g[j].content[k]])
    ensures HasCollectionKey(g, j, k) <==> HasCollectionKey(g, j, k + 2)
  {
    assert forall l :: k <= l < |g[j].content| && l % 2 == 0 ==> l == k || k + 2 <= l;
  }

  /** Merging a mapping whose keys and values do not fail by themselves crashes exactly when the map being
      filled keeps values for keys and some key is a collection; otherwise it does not fail. */
  lemma {:induction false} MergedCrashesExactlyWhen(g: seq<GraphNode>, j: nat, k: nat, open: set<nat>, resolve: Resolver,
                                                    out: map<int, Value>, claimed: set<int>, merge: Option<nat>, text: bool)
    requires Decodable(g) && j < |g| && g[j].kind.MappingNode? && k <= |g[j].content| && k % 2 == 0
    requires (merge.Some? ==> j < merge.value < |g|) && EntriesDecode(g, j, k, open, resolve, text)
    ensures var r := MergedFrom(g, j, k, open, resolve, out, claimed, merge, text);
      if !text && HasCollectionKey(g, j, k) then r == MergeFailed(UnhashableKey) else r.Merged?
    decreases |g[j].content| - k
  {
    hide Decode, KeyOf, DecodeChild, EntriesDecode, HasCollectionKey, IsCollection;
    assert ValidNode(g, j);
    var c := g[j].content;
    if k == |c| {
      NoKeyLeft(g, j);
    } else {
      EntryDecodes(g, j, k, open, resolve, text);
      if IsMerge(g[c[k]]) {
        MergeKeyPassed(g, j, k);
        MergedCrashesExactlyWhen(g, j, k + 2, open, resolve, out, claimed, Some(c[k + 1]), text);
      } else {
        KeyKind(g, j, k, open, resolve, text);
        match KeyOf(g, j, k, open, resolve, text) {
          case Good(Atom(id)) =>
            var out1 := Stored(g, DecodeChild(g, j, k + 1, open, resolve), c[k + 1], id, out);
            if id in claimed {
              MergedCrashesExactlyWhen(g, j, k + 2, open, resolve, out, claimed, merge, text);
            } else {
              MergedCrashesExactlyWhen(g, j, k + 2, open, resolve, out1, claimed + {id}, merge, text);
            }
          case Skipped => MergedCrashesExactlyWhen(g, j, k + 2, open, resolve, out, claimed, merge, text);
          case _ =>
        }
      }
    }
  }

  lemma NoKeyLeft(g: seq<GraphNode>, j: nat)
    requires ValidGraph(g) && j < |g|
    ensures !HasCollectionKey(g, j, |g[j].content|)
  {
  }

  /** The same of a mapping that is not merged, where the collection is an invalid key. */
  lemma {:induction false} InvalidKeyExactlyWhen(g: seq<GraphNode>, i: nat, k: nat, open: set<nat>, resolve: Resolver,
                                                 out: map<int, Value>, merge: Option<nat>, text: bool)
    requires Decodable(g) && i < |g| && g[i].kind.MappingNode? && k <= |g[i].content| && k % 2 == 0
    requires (merge.Some? ==> i < merge.value < |g|) && EntriesDecode(g, i, k, open, resolve, text)
    ensures var r := OwnFrom(g, i, k, open, resolve, out, merge, text);
      if !text && HasCollectionKey(g, i, k) then r == OwnFailed(InvalidKey) else r.Own?
    decreases |g[i].content| - k
  {
    hide Decode, KeyOf, DecodeChild, EntriesDecode, HasCollectionKey, IsCollection;
    assert ValidNode(g, i);
    var c := g[i].content;
    if k == |c| {
      NoKeyLeft(g, i);
    } else {
      EntryDecodes(g, i, k, open, resolve, text);
      if IsMerge(g[c[k]]) {
        MergeKeyPassed(g, i, k);
        InvalidKeyExactlyWhen(g, i, k + 2, open, resolve, out, Some(c[k + 1]), text);
      } else {
        KeyKind(g, i, k, open, resolve, text);
        match KeyOf(g, i, k, open, resolve, text) {
          case Good(Atom(id)) =>
            InvalidKeyExactlyWhen(g, i, k + 2, open, resolve, Stored(g, DecodeChild(g, i, k + 1, open, resolve), c[k + 1], id, out), merge, text);
          case Skipped => InvalidKeyExactlyWhen(g, i, k + 2, open, resolve, out, merge, text);
          case _ =>
        }
      }
    }
  }

  // ----- Through nested merges -----

  /** Merging `j` meets no problem but, perhaps, a collection as a key. */
  ghost predicate Clean(g: seq<GraphNode>, j: nat, open: set<nat>, resolve: Resolver, text: bool)
    requires Decodable(g) && j < |g| && IsMappingOrAlias(g, j)
    decreases Closed(g, open), |g| - j, 6, 1
  {
    assert ValidNode(g, j);
    if g[j].kind.AliasNode? then
      j !in open && (OpeningShrinks(g, open, j); Clean(g, g[j].target.value, open + {j}, resolve, text))
    else if Duplicated(g, j) then true
    else
      && EntriesDecode(g, j, 0, open, resolve, text)
      && match MergeValue(g, j, 0, None)
         case None => true
         case Some(m) => CleanBy(g, j, m, open, resolve, text)
  }

  ghost predicate CleanBy(g: seq<GraphNode>, i: nat, m: nat, open: set<nat>, resolve: Resolver, text: bool)
    requires Decodable(g) && i < m < |g|
    decreases Closed(g, open), |g| - i, 0, 1
  {
    if IsMappingOrAlias(g, m) then Clean(g, m, open, resolve, text)
    else g[m].kind.SequenceNode? && CleanFrom(g, m, 0, open, resolve, text)
  }

  ghost predicate CleanFrom(g: seq<GraphNode>, m: nat, k: nat, open: set<nat>, resolve: Resolver, text: bool)
    requires Decodable(g) && m < |g| && k <= |g[m].content|
    decreases Closed(g, open), |g| - m, 1, |g[m].content| - k
  {
    assert ValidNode(g, m);
    k == |g[m].content|
    || (&& IsMappingOrAlias(g, g[m].content[k]) && Clean(g, g[m].content[k], open, resolve, text)
        && CleanFrom(g, m, k + 1, open, resolve, text))
  }

  /** Merging `j` reads a mapping with a collection for a key. */
  ghost predicate Meets(g: seq<GraphNode>, j: nat, open: set<nat>)
    requires Decodable(g) && j < |g| && IsMappingOrAlias(g, j)
    decreases Closed(g, open), |g| - j, 6, 1
  {
    assert ValidNode(g, j);
    if g[j].kind.AliasNode? then
      j !in open && (OpeningShrinks(g, open, j); Meets(g, g[j].target.value, open + {j}))
    else if Duplicated(g, j) then false
    else
      || HasCollectionKey(g, j, 0)
      || match MergeValue(g, j, 0, None)
         case None => false
         case Some(m) => MeetsBy(g, j, m, open)
  }

  ghost predicate MeetsBy(g: seq<GraphNode>, i: nat, m: nat, open: set<nat>)
    requires Decodable(g) && i < m < |g|
    decreases Closed(g, open), |g| - i, 0, 1
  {
    if IsMappingOrAlias(g, m) then Meets(g, m, open)
    else g[m].kind.SequenceNode? && MeetsFrom(g, m, 0, open)
  }

  ghost predicate MeetsFrom(g: seq<GraphNode>, m: nat, k: nat, open: set<nat>)
    requires Decodable(g) && m < |g| && k <= |g[m].content|
    decreases Closed(g, open), |g| - m, 1, |g[m].content| - k
  {
    assert ValidNode(g, m);
    k < |g[m].content|
    && ((IsMappingOrAlias(g, g[m].content[k]) && Meets(g, g[m].content[k], open)) || MeetsFrom(g, m, k + 1, open))
  }

  predicate CrashesOr(r: Merged, crash: bool) { if crash then r == MergeFailed(UnhashableKey) else r.Merged? }

  /** A mapping or an alias of one, merged into a map, with everything it merges in turn. */
  lemma {:induction false} MergeCrashesExactlyWhen(g: seq<GraphNode>, j: nat, open: set<nat>, resolve: Resolver,
                                                   out: map<int, Value>, claimed: set<int>, text: bool)
    requires Decodable(g) && j < |g| && IsMappingOrAlias(g, j) && Clean(g, j, open, resolve, text)
    ensures CrashesOr(MergeInto(g, j, open, resolve, out, claimed, text), !text && Meets(g, j, open))
    decreases Closed(g, open), |g| - j, 6, 1
  {
    hide Decode, KeyOf, DecodeChild, EntriesDecode, HasCollectionKey, MergedFrom, MergeNode, MergeValue, CleanBy, MeetsBy;
    assert ValidNode(g, j);
    if g[j].kind.AliasNode? {
      OpeningShrinks(g, open, j);
      MergeCrashesExactlyWhen(g, g[j].target.value, open + {j}, resolve, out, claimed, text);
    } else if !Duplicated(g, j) {
      MergedCrashesExactlyWhen(g, j, 0, open, resolve, out, claimed, None, text);
      MergedFromAbsorbs(g, j, 0, open, resolve, out, claimed, None, text);
      match MergedFrom(g, j, 0, open, resolve, out, claimed, None, text) {
        case Merged(out1, claimed1, Some(m)) => NodeCrashesExactlyWhen(g, j, m, open, resolve, out1, claimed1, text);
        case _ =>
      }
    }
  }

  lemma {:induction false} NodeCrashesExactlyWhen(g: seq<GraphNode>, i: nat, m: nat, open: set<nat>, resolve: Resolver,
                                                  out: map<int, Value>, claimed: set<int>, text: bool)
    requires Decodable(g) && i < m < |g| && CleanBy(g, i, m, open, resolve, text)
    ensures CrashesOr(MergeNode(g, i, m, open, resolve, out, claimed, text), !text && MeetsBy(g, i, m, open))
    decreases Closed(g, open), |g| - i, 0, 1
  {
    hide MergeInto, MergeItems, Clean, CleanFrom, Meets, MeetsFrom;
    if IsMappingOrAlias(g, m) {
      MergeCrashesExactlyWhen(g, m, open, resolve, out, claimed, text);
    } else {
      ItemsCrashExactlyWhen(g, m, 0, open, resolve, out, claimed, text);
    }
  }

  lemma {:induction false} ItemsCrashExactlyWhen(g: seq<GraphNode>, m: nat, k: nat, open: set<nat>, resolve: Resolver,
                                                 out: map<int, Value>, claimed: set<int>, text: bool)
    requires Decodable(g) && m < |g| && k <= |g[m].content| && CleanFrom(g, m, k, open, resolve, text)
    ensures CrashesOr(MergeItems(g, m, k, open, resolve, out, claimed, text), !text && MeetsFrom(g, m, k, open))
    decreases Closed(g, open), |g| - m, 1, |g[m].content| - k
  {
    hide MergeInto, Clean, Meets;
    assert ValidNode(g, m);
    if k < |g[m].content| {
      MergeCrashesExactlyWhen(g, g[m].content[k], open, resolve, out, claimed, text);
      match MergeInto(g, g[m].content[k], open, resolve, out, claimed, text) {
        case Merged(out1, claimed1, _) => ItemsCrashExactlyWhen(g, m, k + 1, open, resolve, out1, claimed1, text);
        case _ =>
      }
    }
  }

  // ----- The keys that are claimed -----

  /** Claiming a key of mapping `i` meets no problem but, perhaps, that it is a collection. */
  ghost predicate ClaimsClean(g: seq<GraphNode>, i: nat, k: nat, open: set<nat>, resolve: Resolver)
    requires Decodable(g) && i < |g|
  {
    forall l, ids: set<int> :: k <= l < |g[i].content| && l % 2 == 0 && i < g[i].content[l] < |g| && !g[g[i].content[l]].kind.DocumentNode? ==>
      var r := ClaimNode(g, g[i].content[l], open, resolve, ids).result; r.Failed? ==> r.problem == UnhashableKey
  }

  /** A key that is no collection is claimed as an atom or not at all. */
  lemma ClaimKind(g: seq<GraphNode>, j: nat, open: set<nat>, resolve: Resolver, claimed: set<int>)
    requires Decodable(g) && j < |g| && !g[j].kind.DocumentNode?
    ensures var r := ClaimNode(g, j, open, resolve, claimed).result;
      if IsCollection(g, j) then r.Failed? || (r.Good? && !r.value.Atom?)
      else r == Failed(SelfContaining) || r == Failed(BadScalar) || r.Skipped? || (r.Good? && r.value.Atom?)
    decreases Closed(g, open)
  {
    assert ValidNode(g, j);
    match g[j].kind {
      case AliasNode =>
        if j !in open {
          OpeningShrinks(g, open, j);
          TargetIsNoAlias(g, j);
          ClaimKind(g, g[j].target.value, open + {j}, resolve, claimed);
        }
      case ScalarNode =>
      case SequenceNode => ItemsAreNoAtom(g, j, 0, open, resolve, claimed, []);
      case MappingNode =>
    }
  }

  /** Claiming the keys of a mapping crashes exactly when one of them is a collection. */
  lemma {:induction false} ClaimCrashesExactlyWhen(g: seq<GraphNode>, i: nat, k: nat, open: set<nat>, resolve: Resolver, ids: set<int>)
    requires Decodable(g) && i < |g| && g[i].kind.MappingNode? && k <= |g[i].content| && k % 2 == 0 && ClaimsClean(g, i, k, open, resolve)
    ensures var r := KeysFrom(g, i, k, open, resolve, ids);
      if HasCollectionKey(g, i, k) then r == KeysFailed(UnhashableKey) else r.Keys?
    decreases |g[i].content| - k
  {
    hide ClaimNode, IsCollection, HasCollectionKey;
    assert ValidNode(g, i);
    var c := g[i].content;
    if k == |c| {
      NoKeyLeft(g, i);
    } else {
      KeyCounts(g, i, k);
      ClaimKind(g, c[k], open, resolve, ids);
      match ClaimNode(g, c[k], open, resolve, ids).result {
        case Skipped => ClaimCrashesExactlyWhen(g, i, k + 2, open, resolve, ids);
        case Good(Atom(id)) => ClaimCrashesExactlyWhen(g, i, k + 2, open, resolve, ids + {id});
        case _ =>
      }
    }
  }

  lemma KeyCounts(g: seq<GraphNode>, i: nat, k: nat)
    requires Decodable(g) && i < |g| && k < |g[i].content| && k % 2 == 0 && ValidNode(g, i)
    ensures HasCollectionKey(g, i, k) <==> IsCollection(g, g[i].content[k]) || HasCollectionKey(g, i, k + 2)
  {
    assert ValidNode(g, g[i].content[k]);
    assert forall l :: k <= l < |g[i].content| && l % 2 == 0 ==> l == k || k + 2 <= l;
  }

  /** `{..., <<: ...}`: a mapping whose entries, claimed keys and merges meet no problem of their own. A
      collection among its own keys is an invalid key, unless all keys are tagged as strings: then the entry
      is skipped, and claiming the key crashes. A collection among the keys of what is merged, at any depth,
      crashes unless all keys of the mapping are tagged as strings. Otherwise the mapping decodes. */
  lemma DecodeCrashesExactlyWhen(g: seq<GraphNode>, i: nat, m: nat, open: set<nat>, resolve: Resolver)
    requires Decodable(g) && i < m < |g| && g[i].kind.MappingNode? && MergeValue(g, i, 0, None) == Some(m)
    requires EntriesDecode(g, i, 0, open, resolve, TextMap(g, i)) && ClaimsClean(g, i, 0, open, resolve)
    requires CleanBy(g, i, m, open, resolve, TextMap(g, i))
    ensures var r := DecodeMapping(g, i, open, resolve);
      if !TextMap(g, i) && HasCollectionKey(g, i, 0) then r == Failed(InvalidKey)
      else if (TextMap(g, i) && HasCollectionKey(g, i, 0)) || (!TextMap(g, i) && MeetsBy(g, i, m, open)) then r == Failed(UnhashableKey)
      else r.Good?
  {
    hide Decode, CleanBy, MeetsBy, OwnFrom, KeysFrom, MergeNode, MergeValue, IsStringMap, EntriesDecode, ClaimsClean, HasCollectionKey;
    assert ValidNode(g, i);
    var own := OwnFrom(g, i, 0, open, resolve, map[], None, TextMap(g, i));
    InvalidKeyExactlyWhen(g, i, 0, open, resolve, map[], None, TextMap(g, i));
    OwnFromKeepsLast(g, i, 0, open, resolve, map[], None, TextMap(g, i), 0);
    ClaimCrashesExactlyWhen(g, i, 0, open, resolve, {});
    var keys := KeysFrom(g, i, 0, open, resolve, {});
    if own.Own? && keys.Keys? { NodeCrashesExactlyWhen(g, i, m, open, resolve, own.out, keys.ids, TextMap(g, i)); }
  }

  // ----- Examples -----

  function TextId(s: string): int {
    if s == "1" then 10 else if s == "a" then 20 else if s == "b" then 21 else if s == "<<" then 7 else 30
  }

  const RESOLVER := Resolver((n: GraphNode) => if ShortTag(n.tag) == "!!int" then Some(100 + TextId(ValueOf(n))) else Some(TextId(ValueOf(n))),
                             (n: GraphNode) => Text(TextId(ValueOf(n))))

  lemma ResolverAgrees()
    ensures Agreeing(RESOLVER)
  {
  }

  function ListNode(content: seq<nat>): GraphNode {
    GraphNode(SequenceNode, "!!seq", SequenceStart("", "", true, Flow), content, None)
  }

  const MERGE_KEY := PlainNode(MERGE_TAG, "<<", PlainStyle)

  /** `{1: x, <<: {? [a] : b}}`. */
  const CRASH: seq<GraphNode> :=
    [MapNode([1, 2, 3, 4]), PlainNode("!!int", "1", PlainStyle), PlainNode("!!str", "x", PlainStyle), MERGE_KEY,
     MapNode([5, 7]), ListNode([6]), PlainNode("!!str", "a", PlainStyle), PlainNode("!!str", "b", PlainStyle)]

  /** `{<<: {? [a] : b}}`. */
  const SKIP: seq<GraphNode> :=
    [MapNode([1, 2]), MERGE_KEY, MapNode([3, 5]), ListNode([4]), PlainNode("!!str", "a", PlainStyle), PlainNode("!!str", "b", PlainStyle)]

  /** `{!!str [a] : b, <<: {}}`. */
  const TAGGED: seq<GraphNode> :=
    [MapNode([1, 3, 4, 5]), GraphNode(SequenceNode, "!!str", SequenceStart("", "!!str", false, Flow), [2], None), PlainNode("!!str", "a", PlainStyle),
     PlainNode("!!str", "b", PlainStyle), MERGE_KEY, MapNode([])]

  /** `{"1": a, <<: {1: b}}`. */
  const TEXT: seq<GraphNode> :=
    [MapNode([1, 2, 3, 4]), PlainNode("!!str", "1", DoubleQuotedStyle), PlainNode("!!str", "a", PlainStyle), MERGE_KEY,
     MapNode([5, 6]), PlainNode("!!int", "1", PlainStyle), PlainNode("!!str", "b", PlainStyle)]

  lemma ExamplesDecodable()
    ensures Decodable(CRASH) && Decodable(SKIP) && Decodable(TEXT)
  {
    CrashDecodable();
    SkipDecodable();
    TextDecodable();
  }

  lemma CrashDecodable()
    ensures Decodable(CRASH)
  {
    forall i | 0 <= i < |CRASH| ensures ValidNode(CRASH, i) {}
  }

  lemma SkipDecodable()
    ensures Decodable(SKIP)
  {
    forall i | 0 <= i < |SKIP| ensures ValidNode(SKIP, i) {}
  }

  lemma TextDecodable()
    ensures Decodable(TEXT)
  {
    forall i | 0 <= i < |TEXT| ensures ValidNode(TEXT, i) {}
  }

  lemma Tags()
    ensures ShortTag("!!int") == "!!int" && ShortTag("!!str") == "!!str" && ShortTag(MERGE_TAG) == MERGE_TAG
    ensures IsMerge(MERGE_KEY) && forall tag: string, s: string, style: ScalarStyle :: s != "<<" ==> !IsMerge(PlainNode(tag, s, style))
  {
  }

  /** The entries of a mapping at `k`, one step. */
  lemma ScalarKey(g: seq<GraphNode>, i: nat, k: nat, resolve: Resolver, text: bool)
    requires Decodable(g) && i < |g| && k < |g[i].content| && ValidNode(g, i) && g[g[i].content[k]].kind.ScalarNode?
    ensures var n := g[g[i].content[k]];
      && (resolve.value(n).Some? ==> DecodeChild(g, i, k, {}, resolve) == Good(Atom(resolve.value(n).value)))
      && (text && resolve.text(n).Text? ==> KeyOf(g, i, k, {}, resolve, text) == Good(Atom(resolve.text(n).id)))
      && (!text && resolve.value(n).Some? ==> KeyOf(g, i, k, {}, resolve, text) == Good(Atom(resolve.value(n).value)))
  {
  }

  lemma CrashOwn()
    requires Decodable(CRASH)
    ensures EntriesDecode(CRASH, 0, 0, {}, RESOLVER, false) && ClaimsClean(CRASH, 0, 0, {}, RESOLVER) && !HasCollectionKey(CRASH, 0, 0)
    ensures MergeValue(CRASH, 0, 0, None) == Some(4)
  {
    Tags();
    assert ValidNode(CRASH, 0);
    ScalarKey(CRASH, 0, 0, RESOLVER, false);
    ScalarKey(CRASH, 0, 1, RESOLVER, false);
    hide KeyOf, DecodeChild;
    assert MergeValue(CRASH, 0, 4, Some(4)) == Some(4);
    assert MergeValue(CRASH, 0, 2, None) == Some(4);
  }

  lemma CrashMerge()
    requires Decodable(CRASH)
    ensures CleanBy(CRASH, 0, 4, {}, RESOLVER, false) && MeetsBy(CRASH, 0, 4, {})
  {
    Tags();
    assert ValidNode(CRASH, 4);
    ListKeyDecodes(CRASH, 4, 5);
    hide EntriesDecode;
    assert MergeValue(CRASH, 4, 2, None) == None;
    assert MergeValue(CRASH, 4, 0, None) == None;
    assert HasCollectionKey(CRASH, 4, 0) by { assert IsCollection(CRASH, CRASH[4].content[0]); }
    assert Clean(CRASH, 4, {}, RESOLVER, false) && Meets(CRASH, 4, {});
  }

  /** A mapping with an integer key that merges a mapping with a list for a key. */
  lemma CollectionKeyCrashes()
    ensures Agreeing(RESOLVER) && Decodable(CRASH) && DecodeMapping(CRASH, 0, {}, RESOLVER) == Failed(UnhashableKey)
  {
    hide Agreeing, EntriesDecode, ClaimsClean, MergeValue, HasCollectionKey, OwnFrom, KeysFrom, Duplicated, CleanBy, MeetsBy, DecodeMapping;
    ResolverAgrees();
    ExamplesDecodable();
    assert ValidNode(CRASH, 0);
    assert !TextMap(CRASH, 0) by {
      Tags();
      assert TagOf(CRASH, CRASH[0].content[0]) == "!!int";
    }
    CrashOwn();
    CrashMerge();
    DecodeCrashesExactlyWhen(CRASH, 0, 4, {}, RESOLVER);
  }

  lemma TaggedDecodable()
    ensures Decodable(TAGGED)
  {
    forall i | 0 <= i < |TAGGED| ensures ValidNode(TAGGED, i) {}
  }

  lemma TaggedOwn()
    requires Decodable(TAGGED)
    ensures EntriesDecode(TAGGED, 0, 0, {}, RESOLVER, true) && HasCollectionKey(TAGGED, 0, 0) && MergeValue(TAGGED, 0, 0, None) == Some(5)
  {
    Tags();
    assert ValidNode(TAGGED, 0);
    ScalarKey(TAGGED, 0, 1, RESOLVER, true);
    assert KeyOf(TAGGED, 0, 0, {}, RESOLVER, true) == Skipped;
    hide KeyOf, DecodeChild;
    assert MergeValue(TAGGED, 0, 4, Some(5)) == Some(5);
    assert MergeValue(TAGGED, 0, 2, None) == Some(5);
    assert IsCollection(TAGGED, TAGGED[0].content[0]);
  }

  lemma TaggedClaims()
    requires Decodable(TAGGED)
    ensures ClaimsClean(TAGGED, 0, 0, {}, RESOLVER)
  {
    assert ValidNode(TAGGED, 1);
    forall ids: set<int> ensures ClaimNode(TAGGED, 1, {}, RESOLVER, ids).result.Good? {
      var v := ClaimNode(TAGGED, 2, {}, RESOLVER, ids).result.value;
      assert ClaimItems(TAGGED, 1, 1, {}, RESOLVER, ids, [] + [v]).result.Good?;
    }
  }

  /** All keys are tagged as strings and nothing is merged: claiming the list crashes all the same. */
  lemma TaggedCollectionCrashes()
    ensures Agreeing(RESOLVER) && Decodable(TAGGED) && TextMap(TAGGED, 0)
    ensures DecodeMapping(TAGGED, 0, {}, RESOLVER) == Failed(UnhashableKey)
  {
    ResolverAgrees();
    TaggedDecodable();
    assert ValidNode(TAGGED, 0) && ValidNode(TAGGED, 5);
    assert TextMap(TAGGED, 0) by {
      Tags();
      assert TagOf(TAGGED, 1) == "!!str" && TagOf(TAGGED, 4) == MERGE_TAG;
    }
    TaggedOwn();
    TaggedClaims();
    assert CleanBy(TAGGED, 0, 5, {}, RESOLVER, true) by {
      assert MergeValue(TAGGED, 5, 0, None) == None;
      assert Clean(TAGGED, 5, {}, RESOLVER, true);
    }
    hide Agreeing, EntriesDecode, ClaimsClean, MergeValue, HasCollectionKey, OwnFrom, KeysFrom, Duplicated, CleanBy, MeetsBy, DecodeMapping;
    DecodeCrashesExactlyWhen(TAGGED, 0, 5, {}, RESOLVER);
  }

  /** The one entry of `{? [a] : b}`. */
  lemma ListKeyDecodes(g: seq<GraphNode>, m: nat, l: nat)
    requires Decodable(g) && m < l < |g| - 2 && g[m] == MapNode([l, l + 2]) && g[l] == ListNode([l + 1])
    requires g[l + 1].kind.ScalarNode? && g[l + 2].kind.ScalarNode?
    ensures EntriesDecode(g, m, 0, {}, RESOLVER, false) && EntriesDecode(g, m, 0, {}, RESOLVER, true)
    ensures KeyOf(g, m, 0, {}, RESOLVER, true) == Skipped
  {
    assert ValidNode(g, m) && ValidNode(g, l);
    ScalarKey(g, l, 0, RESOLVER, false);
    ScalarKey(g, m, 1, RESOLVER, false);
    var v := DecodeChild(g, l, 0, {}, RESOLVER).value;
    assert ListFrom(g, l, 1, {}, RESOLVER, [v]) == Good(List([v]));
    assert [] + [v] == [v];
    assert ListFrom(g, l, 0, {}, RESOLVER, []) == Good(List([v]));
    assert Decode(g, l, {}, RESOLVER) == Good(List([v]));
  }

  /** With string keys only, the list is a type error and the entry is skipped. */
  lemma CollectionKeyIsSkipped()
    ensures Decodable(SKIP) && DecodeMapping(SKIP, 0, {}, RESOLVER) == Good(Dict(map[]))
  {
    ExamplesDecodable();
    assert ValidNode(SKIP, 0);
    assert TextMap(SKIP, 0) by {
      Tags();
      assert TagOf(SKIP, 1) == MERGE_TAG;
    }
    SkipOwn();
    SkipMerge({7});
    hide OwnFrom, KeysFrom, MergeInto, IsStringMap;
  }

  lemma SkipOwn()
    requires Decodable(SKIP)
    ensures OwnFrom(SKIP, 0, 0, {}, RESOLVER, map[], None, true) == Own(map[], Some(2))
    ensures KeysFrom(SKIP, 0, 0, {}, RESOLVER, {}) == Keys({7})
  {
    Tags();
    assert ValidNode(SKIP, 0);
    ScalarKey(SKIP, 0, 0, RESOLVER, true);
    var none: map<int, Value> := map[];
    hide KeyOf, DecodeChild;
    assert {} + {7} == {7};
    assert OwnFrom(SKIP, 0, 2, {}, RESOLVER, none, Some(2), true) == Own(none, Some(2));
    assert KeysFrom(SKIP, 0, 2, {}, RESOLVER, {7}) == Keys({7});
  }

  lemma SkipMerge(ids: set<int>)
    requires Decodable(SKIP)
    ensures MergeInto(SKIP, 2, {}, RESOLVER, map[], ids, true) == Merged(map[], ids, None)
  {
    Tags();
    assert ValidNode(SKIP, 2);
    ListKeyDecodes(SKIP, 2, 3);
    var none: map<int, Value> := map[];
    hide KeyOf, DecodeChild, EntriesDecode;
    assert MergedFrom(SKIP, 2, 2, {}, RESOLVER, none, ids, None, true) == Merged(none, ids, None);
    assert MergedFrom(SKIP, 2, 0, {}, RESOLVER, none, ids, None, true) == Merged(none, ids, None);
    assert !Duplicated(SKIP, 2);
  }

  /** With string keys only, the integer key of the merged mapping becomes a text, and is there already. */
  lemma IntegerKeyBecomesText()
    ensures Decodable(TEXT) && DecodeMapping(TEXT, 0, {}, RESOLVER) == Good(Dict(map[10 := Atom(20)]))
  {
    ExamplesDecodable();
    assert ValidNode(TEXT, 0) && ValidNode(TEXT, 4);
    assert TextMap(TEXT, 0) by {
      Tags();
      assert TagOf(TEXT, 1) == "!!str" && TagOf(TEXT, 3) == MERGE_TAG;
    }
    var one: map<int, Value> := map[10 := Atom(20)];
    TextOwn(one);
    TextMerge(one, {10, 7});
    hide OwnFrom, KeysFrom, MergeInto, IsStringMap;
  }

  lemma TextOwn(one: map<int, Value>)
    requires Decodable(TEXT) && one == map[10 := Atom(20)]
    ensures OwnFrom(TEXT, 0, 0, {}, RESOLVER, map[], None, true) == Own(one, Some(4))
    ensures KeysFrom(TEXT, 0, 0, {}, RESOLVER, {}) == Keys({10, 7})
  {
    Tags();
    assert ValidNode(TEXT, 0);
    ScalarKey(TEXT, 0, 0, RESOLVER, true);
    ScalarKey(TEXT, 0, 1, RESOLVER, true);
    ScalarKey(TEXT, 0, 2, RESOLVER, true);
    var none: map<int, Value> := map[];
    hide KeyOf, DecodeChild;
    assert none[10 := Atom(20)] == one && {} + {10} + {7} == {10, 7};
    assert OwnFrom(TEXT, 0, 4, {}, RESOLVER, one, Some(4), true) == Own(one, Some(4));
    assert OwnFrom(TEXT, 0, 2, {}, RESOLVER, one, None, true) == Own(one, Some(4));
    assert KeysFrom(TEXT, 0, 4, {}, RESOLVER, {10, 7}) == Keys({10, 7});
    assert KeysFrom(TEXT, 0, 2, {}, RESOLVER, {} + {10}) == Keys({10, 7});
  }

  lemma TextMerge(one: map<int, Value>, ids: set<int>)
    requires Decodable(TEXT) && 10 in ids
    ensures MergeInto(TEXT, 4, {}, RESOLVER, one, ids, true) == Merged(one, ids, None)
  {
    Tags();
    assert ValidNode(TEXT, 4);
    ScalarKey(TEXT, 4, 0, RESOLVER, true);
    hide KeyOf, DecodeChild;
    assert MergedFrom(TEXT, 4, 2, {}, RESOLVER, one, ids, None, true) == Merged(one, ids, None);
    assert MergedFrom(TEXT, 4, 0, {}, RESOLVER, one, ids, None, true) == Merged(one, ids, None);
    assert !Duplicated(TEXT, 4);
  }
}
