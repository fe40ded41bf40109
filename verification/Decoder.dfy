/** Decoding a node graph into generic values (decode.go, type `decoder`).

    The functions say what each node decodes to when `open` are the aliases being expanded; they
    recurse through aliases, so that Dafny's acceptance of them is the proof that decoding
    terminates on every graph, cyclic ones included. Scalars decode to abstract atoms. */
module Decoder {
  import opened Options
  import opened Events
  import opened Graph

  datatype Value = Atom(id: int) | List(items: seq<Value>) | Dict(entries: map<int, Value>)

  datatype Problem =
    | SelfContaining         // an alias inside its own anchor's value
    | WantMap                // the value of a merge key is not a map
    | InvalidKey             // a key that is itself a map or a list
    | UnhashableKey          // the same, looked up or entered in `mergedFields`: Go's map panics
    | BadScalar
    | ExcessiveAliasing

  /** `Skipped`: nothing was stored, as for a mapping that defines a key twice. */
  datatype Result = Good(value: Value) | Skipped | Failed(problem: Problem)

  /** A scalar decoded into a Go string: its text; nothing, for null; or a failure. */
  datatype TextKey = Text(id: int) | NoText | BadText

  /** How scalars resolve: as a value, where `None` is a failure, and as a text. */
  datatype Resolver = Resolver(value: GraphNode -> Option<int>, text: GraphNode -> TextKey)

  predicate TextTag(tag: string) { tag == "!!str" || tag == MERGE_TAG }

  /** The value of a scalar tagged as a string is its text. */
  ghost predicate Agreeing(r: Resolver) {
    forall n: GraphNode :: TextTag(ShortTag(n.tag)) ==> r.text(n) == match r.value(n) case None => BadText case Some(id) => Text(id)
  }

  const NIL := 0  // the atom for null

  ghost predicate Decodable(g: seq<GraphNode>) {
    ValidGraph(g) && forall i :: 0 <= i < |g| && g[i].kind.MappingNode? ==> |g[i].content| % 2 == 0
  }

  function Aliases(g: seq<GraphNode>): set<nat> { set i: nat | i < |g| && g[i].kind.AliasNode? }

  /** Alias nodes not being expanded: the first component of every termination measure. */
  function Closed(g: seq<GraphNode>, open: set<nat>): nat { |Aliases(g) - open| }

  lemma OpeningShrinks(g: seq<GraphNode>, open: set<nat>, i: nat)
    requires i < |g| && g[i].kind.AliasNode? && i !in open
    ensures Closed(g, open + {i}) < Closed(g, open)
  {
    assert Aliases(g) - (open + {i}) < Aliases(g) - open by {
      assert i in Aliases(g) - open;
    }
    SubsetSize(Aliases(g) - (open + {i}), Aliases(g) - open);
  }

  lemma SubsetSize(a: set<nat>, b: set<nat>)
    requires a < b
    ensures |a| < |b|
  {
    var x :| x in b && x !in a;
    assert a <= b - {x};
    SubsetAtMost(a, b - {x});
  }

  lemma {:induction false} SubsetAtMost(a: set<nat>, b: set<nat>)
    requires a <= b
    ensures |a| <= |b|
    decreases |a|
  {
    if a != {} {
      var x :| x in a;
      SubsetAtMost(a - {x}, b - {x});
    }
  }

  function ValueText(n: GraphNode): string { match n.event case Scalar(_, _, v, _, _, _) => v case Alias(name) => name case _ => "" }

  /** Two keys of the same kind with the same text (for an alias, the same name). */
  predicate Duplicated(g: seq<GraphNode>, i: nat)
    requires i < |g| && Below(g, i, g[i].content)
  {
    var c := g[i].content;
    exists a, b :: 0 <= a < b < |c| && a % 2 == 0 && b % 2 == 0 && g[c[a]].kind == g[c[b]].kind && ValueText(g[c[a]]) == ValueText(g[c[b]])
  }

  function TagOf(g: seq<GraphNode>, i: nat): string
    requires i < |g|
  {
    var n := g[i];
    if n.kind.AliasNode? && n.target.Some? && n.target.value < |g| then ShortTag(g[n.target.value].tag) else ShortTag(n.tag)
  }

  /** The map once the value that node `v` decoded to is stored under `id`. A value that was skipped
      is stored as null if its tag says so and the key is new. */
  function Stored(g: seq<GraphNode>, value: Result, v: nat, id: int, out: map<int, Value>): map<int, Value>
    requires v < |g|
  {
    match value
    case Good(x) => out[id := x]
    case Skipped => if TagOf(g, v) == "!!null" && id !in out then out[id := Atom(NIL)] else out
    case Failed(_) => out
  }

  datatype Own = Own(out: map<int, Value>, merge: Option<nat>) | OwnFailed(problem: Problem)

  datatype Merged = Merged(out: map<int, Value>, claimed: set<int>, merge: Option<nat>) | MergeFailed(problem: Problem)

  datatype Claim = Claim(result: Result, claimed: set<int>)

  datatype Keys = Keys(ids: set<int>) | KeysFailed(problem: Problem)

  ghost function Decode(g: seq<GraphNode>, i: nat, open: set<nat>, resolve: Resolver): Result
    requires Decodable(g) && i < |g|
    decreases Closed(g, open), |g| - i, 6, 0
  {
    assert ValidNode(g, i);
    match g[i].kind
    case DocumentNode =>
      if |g[i].content| != 1 then Skipped
      else
        (match DecodeChild(g, i, 0, open, resolve)
         case Skipped => Good(Atom(NIL))
         case r => r)
    case AliasNode =>
      if i in open then Failed(SelfContaining)
      else
        OpeningShrinks(g, open, i);
        Decode(g, g[i].target.value, open + {i}, resolve)
    case ScalarNode => (match resolve.value(g[i]) case None => Failed(BadScalar) case Some(id) => Good(Atom(id)))
    case SequenceNode => ListFrom(g, i, 0, open, resolve, [])
    case MappingNode => if Duplicated(g, i) then Skipped else DecodeMapping(g, i, open, resolve)
  }

  ghost function DecodeChild(g: seq<GraphNode>, i: nat, k: nat, open: set<nat>, resolve: Resolver): Result
    requires Decodable(g) && i < |g| && k < |g[i].content|
    decreases Closed(g, open), |g| - i, 0, 0
  {
    assert ValidNode(g, i);
    Decode(g, g[i].content[k], open, resolve)
  }

  /** Node `i` decoded into a Go string, as for a key of a map with string keys: a collection is a type
      error and leaves nothing. */
  ghost function DecodeText(g: seq<GraphNode>, i: nat, open: set<nat>, resolve: Resolver): Result
    requires Decodable(g) && i < |g|
    decreases Closed(g, open)
  {
    assert ValidNode(g, i);
    match g[i].kind
    case AliasNode =>
      if i in open then Failed(SelfContaining)
      else
        OpeningShrinks(g, open, i);
        DecodeText(g, g[i].target.value, open + {i}, resolve)
    case ScalarNode =>
      (match resolve.text(g[i])
       case Text(id) => Good(Atom(id))
       case NoText => Skipped
       case BadText => Failed(BadScalar))
    case _ => Skipped
  }

  /** `isStringMap`: whether a new map for mapping `i` gets string keys. */
  predicate IsStringMap(g: seq<GraphNode>, i: nat)
    requires i < |g| && Below(g, i, g[i].content)
  {
    forall k :: 0 <= k < |g[i].content| && k % 2 == 0 ==> TextTag(TagOf(g, g[i].content[k]))
  }

  /** The key at `k`, decoded for a map with string keys or with any keys. */
  ghost function KeyOf(g: seq<GraphNode>, i: nat, k: nat, open: set<nat>, resolve: Resolver, text: bool): Result
    requires Decodable(g) && i < |g| && k < |g[i].content|
    decreases Closed(g, open), |g| - i, 0, 1
  {
    assert ValidNode(g, i);
    if text then DecodeText(g, g[i].content[k], open, resolve) else DecodeChild(g, i, k, open, resolve)
  }

  ghost function ListFrom(g: seq<GraphNode>, i: nat, k: nat, open: set<nat>, resolve: Resolver, items: seq<Value>): Result
    requires Decodable(g) && i < |g| && k <= |g[i].content|
    decreases Closed(g, open), |g| - i, 1, |g[i].content| - k
  {
    if k == |g[i].content| then Good(List(items))
    else
      match DecodeChild(g, i, k, open, resolve)
      case Failed(problem) => Failed(problem)
      case Skipped => ListFrom(g, i, k + 1, open, resolve, items)
      case Good(v) => ListFrom(g, i, k + 1, open, resolve, items + [v])
  }

  /** `mapping` into a new map; what is merged into it gets keys of the same kind. */
  ghost function DecodeMapping(g: seq<GraphNode>, i: nat, open: set<nat>, resolve: Resolver): Result
    requires Decodable(g) && i < |g| && g[i].kind.MappingNode?
    decreases Closed(g, open), |g| - i, 5, 0
  {
    assert ValidNode(g, i);
    var text := IsStringMap(g, i);
    match OwnFrom(g, i, 0, open, resolve, map[], None, text)
    case OwnFailed(problem) => Failed(problem)
    case Own(out, None) => Good(Dict(out))
    case Own(out, Some(m)) =>
      match KeysFrom(g, i, 0, open, resolve, {})
      case KeysFailed(problem) => Failed(problem)
      case Keys(ids) =>
        match MergeNode(g, i, m, open, resolve, out, ids, text)
        case MergeFailed(problem) => Failed(problem)
        case Merged(out', _, _) => Good(Dict(out'))
  }

  /** The entries of a mapping that is not being merged: a later value for a key replaces an earlier one. */
  ghost function OwnFrom(g: seq<GraphNode>, i: nat, k: nat, open: set<nat>, resolve: Resolver,
                         out: map<int, Value>, merge: Option<nat>, text: bool): (r: Own)
    requires Decodable(g) && i < |g| && g[i].kind.MappingNode? && k <= |g[i].content| && k % 2 == 0
    requires merge.Some? ==> i < merge.value < |g|
    ensures r.Own? && r.merge.Some? ==> i < r.merge.value < |g|
    decreases Closed(g, open), |g| - i, 1, |g[i].content| - k
  {
    assert ValidNode(g, i);
    var c := g[i].content;
    if k == |c| then Own(out, merge)
    else if IsMerge(g[c[k]]) then OwnFrom(g, i, k + 2, open, resolve, out, Some(c[k + 1]), text)
    else
      match KeyOf(g, i, k, open, resolve, text)
      case Failed(problem) => OwnFailed(problem)
      case Skipped => OwnFrom(g, i, k + 2, open, resolve, out, merge, text)
      case Good(key) =>
        if !key.Atom? then OwnFailed(InvalidKey)
        else
          match DecodeChild(g, i, k + 1, open, resolve)
          case Failed(problem) => OwnFailed(problem)
          case v => OwnFrom(g, i, k + 2, open, resolve, Stored(g, v, c[k + 1], key.id, out), merge, text)
  }

  /** The keys of the mapping that merges, its merge key included: each is decoded as a value, whatever the
      kind of the map, and while the keys before it are claimed already. */
  ghost function KeysFrom(g: seq<GraphNode>, i: nat, k: nat, open: set<nat>, resolve: Resolver, ids: set<int>): Keys
    requires Decodable(g) && i < |g| && g[i].kind.MappingNode? && k <= |g[i].content| && k % 2 == 0
    decreases Closed(g, open), |g| - i, 1, |g[i].content| - k
  {
    assert ValidNode(g, i);
    if k == |g[i].content| then Keys(ids)
    else
      match ClaimNode(g, g[i].content[k], open, resolve, ids).result
      case Failed(problem) => KeysFailed(problem)
      case Skipped => KeysFrom(g, i, k + 2, open, resolve, ids)
      case Good(key) =>
        if !key.Atom? then KeysFailed(UnhashableKey) else KeysFrom(g, i, k + 2, open, resolve, ids + {key.id})
  }

  /** What a node decodes to while keys are being claimed, and what is claimed after it. `mergedFields` is in
      use, so a mapping is read as one being merged, into a map of its own. */
  ghost function ClaimNode(g: seq<GraphNode>, j: nat, open: set<nat>, resolve: Resolver, claimed: set<int>): Claim
    requires Decodable(g) && j < |g| && !g[j].kind.DocumentNode?
    decreases Closed(g, open), |g| - j, 7, 0
  {
    assert ValidNode(g, j);
    match g[j].kind
    case AliasNode =>
      if j in open then Claim(Failed(SelfContaining), claimed)
      else
        OpeningShrinks(g, open, j);
        TargetIsNoAlias(g, j);
        ClaimNode(g, g[j].target.value, open + {j}, resolve, claimed)
    case ScalarNode => Claim(match resolve.value(g[j]) case None => Failed(BadScalar) case Some(id) => Good(Atom(id)), claimed)
    case SequenceNode => ClaimItems(g, j, 0, open, resolve, claimed, [])
    case MappingNode =>
      if Duplicated(g, j) then Claim(Skipped, claimed)
      else
        match MergeInto(g, j, open, resolve, map[], claimed, IsStringMap(g, j))
        case MergeFailed(problem) => Claim(Failed(problem), claimed)
        case Merged(out, claimed', _) => Claim(Good(Dict(out)), claimed')
  }

  ghost function ClaimItems(g: seq<GraphNode>, j: nat, k: nat, open: set<nat>, resolve: Resolver, claimed: set<int>, items: seq<Value>): Claim
    requires Decodable(g) && j < |g| && k <= |g[j].content|
    decreases Closed(g, open), |g| - j, 1, |g[j].content| - k
  {
    assert ValidNode(g, j);
    if k == |g[j].content| then Claim(Good(List(items)), claimed)
    else
      match ClaimNode(g, g[j].content[k], open, resolve, claimed)
      case Claim(Failed(problem), claimed') => Claim(Failed(problem), claimed')
      case Claim(Skipped, claimed') => ClaimItems(g, j, k + 1, open, resolve, claimed', items)
      case Claim(Good(v), claimed') => ClaimItems(g, j, k + 1, open, resolve, claimed', items + [v])
  }

  predicate IsMappingOrAlias(g: seq<GraphNode>, j: nat)
    requires j < |g|
  {
    || g[j].kind.MappingNode?
    || (g[j].kind.AliasNode? && g[j].target.Some? && g[j].target.value < |g| && g[g[j].target.value].kind.MappingNode?)
  }

  /** `merge`: the value `m` of a merge key of node `i` goes into `out`, except what is claimed. */
  ghost function MergeNode(g: seq<GraphNode>, i: nat, m: nat, open: set<nat>, resolve: Resolver,
                           out: map<int, Value>, claimed: set<int>, text: bool): (r: Merged)
    requires Decodable(g) && i < m < |g|
    decreases Closed(g, open), |g| - i, 0, 1
  {
    if IsMappingOrAlias(g, m) then MergeInto(g, m, open, resolve, out, claimed, text)
    else if g[m].kind.SequenceNode? then MergeItems(g, m, 0, open, resolve, out, claimed, text)
    else MergeFailed(WantMap)
  }

  ghost function MergeItems(g: seq<GraphNode>, m: nat, k: nat, open: set<nat>, resolve: Resolver,
                            out: map<int, Value>, claimed: set<int>, text: bool): (r: Merged)
    requires Decodable(g) && m < |g| && k <= |g[m].content|
    decreases Closed(g, open), |g| - m, 1, |g[m].content| - k
  {
    assert ValidNode(g, m);
    if k == |g[m].content| then Merged(out, claimed, None)
    else if !IsMappingOrAlias(g, g[m].content[k]) then MergeFailed(WantMap)
    else
      match MergeInto(g, g[m].content[k], open, resolve, out, claimed, text)
      case MergeFailed(problem) => MergeFailed(problem)
      case Merged(out', claimed', _) => MergeItems(g, m, k + 1, open, resolve, out', claimed', text)
  }

  /** `unmarshal` of a mapping, or an alias of one, into the map being merged into. */
  ghost function MergeInto(g: seq<GraphNode>, j: nat, open: set<nat>, resolve: Resolver,
                           out: map<int, Value>, claimed: set<int>, text: bool): (r: Merged)
    requires Decodable(g) && j < |g| && IsMappingOrAlias(g, j)
    decreases Closed(g, open), |g| - j, 6, 1
  {
    assert ValidNode(g, j);
    if g[j].kind.AliasNode? then
      if j in open then MergeFailed(SelfContaining)
      else
        OpeningShrinks(g, open, j);
        MergeInto(g, g[j].target.value, open + {j}, resolve, out, claimed, text)
    else if Duplicated(g, j) then Merged(out, claimed, None)
    else
      match MergedFrom(g, j, 0, open, resolve, out, claimed, None, text)
      case MergeFailed(problem) => MergeFailed(problem)
      case Merged(out', claimed', None) => Merged(out', claimed', None)
      case Merged(out', claimed', Some(m)) => MergeNode(g, j, m, open, resolve, out', claimed', text)
  }

  /** The entries of a mapping being merged: the first to claim a key keeps it. */
  ghost function MergedFrom(g: seq<GraphNode>, j: nat, k: nat, open: set<nat>, resolve: Resolver,
                            out: map<int, Value>, claimed: set<int>, merge: Option<nat>, text: bool): (r: Merged)
    requires Decodable(g) && j < |g| && g[j].kind.MappingNode? && k <= |g[j].content| && k % 2 == 0
    requires merge.Some? ==> j < merge.value < |g|
    ensures r.Merged? && r.merge.Some? ==> j < r.merge.value < |g|
    decreases Closed(g, open), |g| - j, 1, |g[j].content| - k
  {
    assert ValidNode(g, j);
    var c := g[j].content;
    if k == |c| then Merged(out, claimed, merge)
    else if IsMerge(g[c[k]]) then MergedFrom(g, j, k + 2, open, resolve, out, claimed, Some(c[k + 1]), text)
    else
      match KeyOf(g, j, k, open, resolve, text)
      case Failed(problem) => MergeFailed(problem)
      case Skipped => MergedFrom(g, j, k + 2, open, resolve, out, claimed, merge, text)
      case Good(key) =>
        if !key.Atom? then MergeFailed(UnhashableKey)
        else if key.id in claimed then MergedFrom(g, j, k + 2, open, resolve, out, claimed, merge, text)
        else
          match DecodeChild(g, j, k + 1, open, resolve)
          case Failed(problem) => MergeFailed(problem)
          case v => MergedFrom(g, j, k + 2, open, resolve, Stored(g, v, c[k + 1], key.id, out), claimed + {key.id}, merge, text)
  }

  lemma {:induction false} ListIsNoAtom(g: seq<GraphNode>, i: nat, k: nat, open: set<nat>, resolve: Resolver, items: seq<Value>)
    requires Decodable(g) && i < |g| && k <= |g[i].content|
    ensures var r := ListFrom(g, i, k, open, resolve, items); r.Failed? || (r.Good? && r.value.List?)
    decreases |g[i].content| - k
  {
    hide Decode;
    if k < |g[i].content| {
      match DecodeChild(g, i, k, open, resolve) {
        case Skipped => ListIsNoAtom(g, i, k + 1, open, resolve, items);
        case Good(v) => ListIsNoAtom(g, i, k + 1, open, resolve, items + [v]);
        case _ =>
      }
    }
  }

  lemma MappingIsNoAtom(g: seq<GraphNode>, i: nat, open: set<nat>, resolve: Resolver)
    requires Decodable(g) && i < |g| && g[i].kind.MappingNode?
    ensures DecodeMapping(g, i, open, resolve).Failed?
      || (DecodeMapping(g, i, open, resolve).Good? && DecodeMapping(g, i, open, resolve).value.Dict?)
  {
  }

  lemma TargetIsNoAlias(g: seq<GraphNode>, j: nat)
    requires Decodable(g) && j < |g| && g[j].kind.AliasNode?
    ensures ValidNode(g, j) && var t := g[j].target.value; !g[t].kind.AliasNode? && !g[t].kind.DocumentNode? && TagOf(g, t) == TagOf(g, j)
  {
    assert ValidNode(g, j);
    assert ValidNode(g, g[j].target.value);
  }

  lemma {:induction false} ItemsAreNoAtom(g: seq<GraphNode>, j: nat, k: nat, open: set<nat>, resolve: Resolver, claimed: set<int>, items: seq<Value>)
    requires Decodable(g) && j < |g| && k <= |g[j].content|
    ensures var r := ClaimItems(g, j, k, open, resolve, claimed, items).result; r.Failed? || (r.Good? && r.value.List?)
    decreases |g[j].content| - k
  {
    hide ClaimNode;
    assert ValidNode(g, j);
    if k < |g[j].content| {
      match ClaimNode(g, g[j].content[k], open, resolve, claimed) {
        case Claim(Skipped, claimed1) => ItemsAreNoAtom(g, j, k + 1, open, resolve, claimed1, items);
        case Claim(Good(v), claimed1) => ItemsAreNoAtom(g, j, k + 1, open, resolve, claimed1, items + [v]);
        case _ =>
      }
    }
  }

  /** Where nothing or an atom comes of it, claiming is decoding, and claims nothing. */
  lemma ClaimIsDecode(g: seq<GraphNode>, j: nat, open: set<nat>, resolve: Resolver, claimed: set<int>)
    requires Decodable(g) && j < |g| && !g[j].kind.DocumentNode?
    ensures var c, d := ClaimNode(g, j, open, resolve, claimed), Decode(g, j, open, resolve);
      && (c.result.Skipped? || (c.result.Good? && c.result.value.Atom?) ==> c == Claim(d, claimed))
      && (d.Skipped? || (d.Good? && d.value.Atom?) ==> c == Claim(d, claimed))
    decreases Closed(g, open)
  {
    assert ValidNode(g, j);
    match g[j].kind {
      case AliasNode =>
        if j !in open {
          OpeningShrinks(g, open, j);
          TargetIsNoAlias(g, j);
          ClaimIsDecode(g, g[j].target.value, open + {j}, resolve, claimed);
        }
      case ScalarNode =>
      case SequenceNode =>
        ListIsNoAtom(g, j, 0, open, resolve, []);
        ItemsAreNoAtom(g, j, 0, open, resolve, claimed, []);
      case MappingNode => MappingIsNoAtom(g, j, open, resolve);
    }
  }
}
