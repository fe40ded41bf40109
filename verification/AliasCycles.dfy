/** "Anchor value contains itself" is reported exactly for the cycles that decoding runs into: what is
    reported is an alias that decoding reads inside its own expansion, and a decode that succeeds reads
    none. Where every node lies strictly above its children and every alias strictly above what it stands
    for, it is never reported. */
module AliasCycles {
  import opened Options
  import opened Events
  import opened Graph
  import opened Decoder
  import opened MergeKeys

  /** `height` goes down along children and through aliases. */
  ghost predicate Acyclic(g: seq<GraphNode>, height: nat -> nat)
    requires ValidGraph(g)
  {
    forall i :: 0 <= i < |g| ==>
      && (forall k :: 0 <= k < |g[i].content| ==> height(g[i].content[k]) < height(i))
      && (g[i].target.Some? ==> height(g[i].target.value) < height(i))
  }

  /** Everything being expanded lies above node `i`. */
  ghost predicate Above(open: set<nat>, i: nat, height: nat -> nat) { forall a :: a in open ==> height(i) < height(a) }

  lemma ChildAbove(g: seq<GraphNode>, i: nat, k: nat, open: set<nat>, height: nat -> nat)
    requires Decodable(g) && Acyclic(g, height) && i < |g| && k < |g[i].content|
    requires forall a :: a in open ==> height(i) <= height(a)
    ensures g[i].content[k] < |g| && Above(open, g[i].content[k], height)
  {
    assert ValidNode(g, i);
  }

  lemma {:induction false} DecodeSound(g: seq<GraphNode>, i: nat, open: set<nat>, resolve: Resolver, height: nat -> nat)
    requires Decodable(g) && Acyclic(g, height) && i < |g| && Above(open, i, height)
    ensures Decode(g, i, open, resolve) != Failed(SelfContaining)
    decreases Closed(g, open), |g| - i, 6, 0
  {
    hide Acyclic, DecodeMapping, ListFrom;
    assert ValidNode(g, i);
    match g[i].kind {
      case DocumentNode => if |g[i].content| == 1 { ChildSound(g, i, 0, open, resolve, height); }
      case AliasNode =>
        assert i !in open;
        OpeningShrinks(g, open, i);
        TargetAbove(g, i, open, height);
        DecodeSound(g, g[i].target.value, open + {i}, resolve, height);
      case ScalarNode =>
      case SequenceNode => ListSound(g, i, 0, open, resolve, [], height);
      case MappingNode => if !Duplicated(g, i) { MappingSound(g, i, open, resolve, height); }
    }
  }

  lemma TargetAbove(g: seq<GraphNode>, i: nat, open: set<nat>, height: nat -> nat)
    requires Decodable(g) && Acyclic(g, height) && i < |g| && g[i].kind.AliasNode? && Above(open, i, height) && ValidNode(g, i)
    ensures Above(open + {i}, g[i].target.value, height)
  {
    assert height(g[i].target.value) < height(i);
  }

  lemma ChildSound(g: seq<GraphNode>, i: nat, k: nat, open: set<nat>, resolve: Resolver, height: nat -> nat)
    requires Decodable(g) && Acyclic(g, height) && i < |g| && Above(open, i, height) && k < |g[i].content|
    ensures DecodeChild(g, i, k, open, resolve) != Failed(SelfContaining)
    decreases Closed(g, open), |g| - i, 0, 0
  {
    hide Acyclic, Decode;
    assert ValidNode(g, i);
    ChildAbove(g, i, k, open, height);
    DecodeSound(g, g[i].content[k], open, resolve, height);
  }

  lemma TextSound(g: seq<GraphNode>, i: nat, open: set<nat>, resolve: Resolver, height: nat -> nat)
    requires Decodable(g) && Acyclic(g, height) && i < |g| && Above(open, i, height)
    ensures DecodeText(g, i, open, resolve) != Failed(SelfContaining)
    decreases Closed(g, open)
  {
    hide Acyclic;
    assert ValidNode(g, i);
    if g[i].kind.AliasNode? {
      assert i !in open;
      OpeningShrinks(g, open, i);
      TargetAbove(g, i, open, height);
      TextSound(g, g[i].target.value, open + {i}, resolve, height);
    }
  }

  lemma KeySound(g: seq<GraphNode>, i: nat, k: nat, open: set<nat>, resolve: Resolver, text: bool, height: nat -> nat)
    requires Decodable(g) && Acyclic(g, height) && i < |g| && Above(open, i, height) && k < |g[i].content|
    ensures KeyOf(g, i, k, open, resolve, text) != Failed(SelfContaining)
    decreases Closed(g, open), |g| - i, 0, 1
  {
    hide Acyclic, Decode, DecodeText;
    assert ValidNode(g, i);
    ChildAbove(g, i, k, open, height);
    TextSound(g, g[i].content[k], open, resolve, height);
    ChildSound(g, i, k, open, resolve, height);
  }

  lemma {:induction false} ListSound(g: seq<GraphNode>, i: nat, k: nat, open: set<nat>, resolve: Resolver, items: seq<Value>, height: nat -> nat)
    requires Decodable(g) && Acyclic(g, height) && i < |g| && Above(open, i, height) && k <= |g[i].content|
    ensures ListFrom(g, i, k, open, resolve, items) != Failed(SelfContaining)
    decreases Closed(g, open), |g| - i, 1, |g[i].content| - k
  {
    hide Acyclic, DecodeChild;
    if k < |g[i].content| {
      ChildSound(g, i, k, open, resolve, height);
      match DecodeChild(g, i, k, open, resolve) {
        case Failed(_) =>
        case Skipped => ListSound(g, i, k + 1, open, resolve, items, height);
        case Good(v) => ListSound(g, i, k + 1, open, resolve, items + [v], height);
      }
    }
  }

  lemma MappingSound(g: seq<GraphNode>, i: nat, open: set<nat>, resolve: Resolver, height: nat -> nat)
    requires Decodable(g) && Acyclic(g, height) && i < |g| && Above(open, i, height) && g[i].kind.MappingNode?
    ensures DecodeMapping(g, i, open, resolve) != Failed(SelfContaining)
    decreases Closed(g, open), |g| - i, 5, 0
  {
    hide Acyclic, OwnFrom, KeysFrom, MergeNode, IsStringMap;
    assert ValidNode(g, i);
    var text := IsStringMap(g, i);
    OwnSound(g, i, 0, open, resolve, map[], None, text, height);
    KeysSound(g, i, 0, open, resolve, {}, height);
    match OwnFrom(g, i, 0, open, resolve, map[], None, text) {
      case Own(out, Some(m)) =>
        match KeysFrom(g, i, 0, open, resolve, {}) {
          case Keys(ids) =>
            MergeIsChild(g, i, 0, open, resolve, map[], None, text);
            MergeNodeSound(g, i, m, open, resolve, out, ids, text, height);
          case _ =>
        }
      case _ =>
    }
  }

  predicate IsChild(g: seq<GraphNode>, i: nat, m: Option<nat>)
    requires i < |g|
  {
    m.Some? ==> m.value in g[i].content
  }

  lemma {:induction false} MergeIsChild(g: seq<GraphNode>, i: nat, k: nat, open: set<nat>, resolve: Resolver, out: map<int, Value>, merge: Option<nat>, text: bool)
    requires Decodable(g) && i < |g| && g[i].kind.MappingNode? && k <= |g[i].content| && k % 2 == 0
    requires (merge.Some? ==> i < merge.value < |g|) && IsChild(g, i, merge)
    ensures var r := OwnFrom(g, i, k, open, resolve, out, merge, text); r.Own? ==> IsChild(g, i, r.merge)
    decreases |g[i].content| - k
  {
    hide KeyOf, DecodeChild;
    assert ValidNode(g, i);
    var c := g[i].content;
    if k < |c| {
      if IsMerge(g[c[k]]) {
        MergeIsChild(g, i, k + 2, open, resolve, out, Some(c[k + 1]), text);
      } else {
        match KeyOf(g, i, k, open, resolve, text) {
          case Skipped => MergeIsChild(g, i, k + 2, open, resolve, out, merge, text);
          case Good(Atom(id)) =>
            MergeIsChild(g, i, k + 2, open, resolve, Stored(g, DecodeChild(g, i, k + 1, open, resolve), c[k + 1], id, out), merge, text);
          case _ =>
        }
      }
    }
  }

  lemma {:induction false} OwnSound(g: seq<GraphNode>, i: nat, k: nat, open: set<nat>, resolve: Resolver, out: map<int, Value>,
                                    merge: Option<nat>, text: bool, height: nat -> nat)
    requires Decodable(g) && Acyclic(g, height) && i < |g| && Above(open, i, height) && g[i].kind.MappingNode?
    requires k <= |g[i].content| && k % 2 == 0 && (merge.Some? ==> i < merge.value < |g|)
    ensures OwnFrom(g, i, k, open, resolve, out, merge, text) != OwnFailed(SelfContaining)
    decreases Closed(g, open), |g| - i, 1, |g[i].content| - k
  {
    hide Acyclic, KeyOf, DecodeChild;
    assert ValidNode(g, i);
    var c := g[i].content;
    if k < |c| {
      if IsMerge(g[c[k]]) {
        OwnSound(g, i, k + 2, open, resolve, out, Some(c[k + 1]), text, height);
      } else {
        KeySound(g, i, k, open, resolve, text, height);
        ChildSound(g, i, k + 1, open, resolve, height);
        match KeyOf(g, i, k, open, resolve, text) {
          case Skipped => OwnSound(g, i, k + 2, open, resolve, out, merge, text, height);
          case Good(Atom(id)) =>
            OwnSound(g, i, k + 2, open, resolve, Stored(g, DecodeChild(g, i, k + 1, open, resolve), c[k + 1], id, out), merge, text, height);
          case _ =>
        }
      }
    }
  }

  lemma {:induction false} KeysSound(g: seq<GraphNode>, i: nat, k: nat, open: set<nat>, resolve: Resolver, ids: set<int>, height: nat -> nat)
    requires Decodable(g) && Acyclic(g, height) && i < |g| && Above(open, i, height) && g[i].kind.MappingNode?
    requires k <= |g[i].content| && k % 2 == 0
    ensures KeysFrom(g, i, k, open, resolve, ids) != KeysFailed(SelfContaining)
    decreases Closed(g, open), |g| - i, 1, |g[i].content| - k
  {
    hide Acyclic, ClaimNode;
    assert ValidNode(g, i);
    if k < |g[i].content| {
      var c := g[i].content[k];
      ChildAbove(g, i, k, open, height);
      ClaimSound(g, c, open, resolve, ids, height);
      match ClaimNode(g, c, open, resolve, ids).result {
        case Skipped => KeysSound(g, i, k + 2, open, resolve, ids, height);
        case Good(Atom(id)) => KeysSound(g, i, k + 2, open, resolve, ids + {id}, height);
        case _ =>
      }
    }
  }

  lemma ClaimSound(g: seq<GraphNode>, j: nat, open: set<nat>, resolve: Resolver, claimed: set<int>, height: nat -> nat)
    requires Decodable(g) && Acyclic(g, height) && j < |g| && Above(open, j, height) && !g[j].kind.DocumentNode?
    ensures ClaimNode(g, j, open, resolve, claimed).result != Failed(SelfContaining)
    decreases Closed(g, open), |g| - j, 7, 0
  {
    hide Acyclic, MergeInto, ClaimItems;
    assert ValidNode(g, j);
    match g[j].kind {
      case AliasNode =>
        assert j !in open;
        OpeningShrinks(g, open, j);
        TargetAbove(g, j, open, height);
        TargetIsNoAlias(g, j);
        ClaimSound(g, g[j].target.value, open + {j}, resolve, claimed, height);
      case ScalarNode =>
      case SequenceNode => ClaimItemsSound(g, j, 0, open, resolve, claimed, [], height);
      case MappingNode => if !Duplicated(g, j) { IntoSound(g, j, open, resolve, map[], claimed, IsStringMap(g, j), height); }
    }
  }

  lemma {:induction false} ClaimItemsSound(g: seq<GraphNode>, j: nat, k: nat, open: set<nat>, resolve: Resolver, claimed: set<int>,
                                           items: seq<Value>, height: nat -> nat)
    requires Decodable(g) && Acyclic(g, height) && j < |g| && Above(open, j, height) && k <= |g[j].content|
    ensures ClaimItems(g, j, k, open, resolve, claimed, items).result != Failed(SelfContaining)
    decreases Closed(g, open), |g| - j, 1, |g[j].content| - k
  {
    hide Acyclic, ClaimNode;
    assert ValidNode(g, j);
    if k < |g[j].content| {
      ChildAbove(g, j, k, open, height);
      ClaimSound(g, g[j].content[k], open, resolve, claimed, height);
      match ClaimNode(g, g[j].content[k], open, resolve, claimed) {
        case Claim(Skipped, claimed1) => ClaimItemsSound(g, j, k + 1, open, resolve, claimed1, items, height);
        case Claim(Good(v), claimed1) => ClaimItemsSound(g, j, k + 1, open, resolve, claimed1, items + [v], height);
        case _ =>
      }
    }
  }

  lemma MergeNodeSound(g: seq<GraphNode>, i: nat, m: nat, open: set<nat>, resolve: Resolver, out: map<int, Value>, claimed: set<int>, text: bool, height: nat -> nat)
    requires Decodable(g) && Acyclic(g, height) && i < m < |g| && Above(open, i, height) && m in g[i].content
    ensures MergeNode(g, i, m, open, resolve, out, claimed, text) != MergeFailed(SelfContaining)
    decreases Closed(g, open), |g| - i, 0, 1
  {
    hide Acyclic, MergeInto, MergeItems;
    var k :| 0 <= k < |g[i].content| && g[i].content[k] == m;
    ChildAbove(g, i, k, open, height);
    if IsMappingOrAlias(g, m) {
      IntoSound(g, m, open, resolve, out, claimed, text, height);
    } else if g[m].kind.SequenceNode? {
      ItemsSound(g, m, 0, open, resolve, out, claimed, text, height);
    }
  }

  lemma {:induction false} ItemsSound(g: seq<GraphNode>, m: nat, k: nat, open: set<nat>, resolve: Resolver, out: map<int, Value>,
                                      claimed: set<int>, text: bool, height: nat -> nat)
    requires Decodable(g) && Acyclic(g, height) && m < |g| && Above(open, m, height) && k <= |g[m].content|
    ensures MergeItems(g, m, k, open, resolve, out, claimed, text) != MergeFailed(SelfContaining)
    decreases Closed(g, open), |g| - m, 1, |g[m].content| - k
  {
    hide Acyclic, MergeInto;
    assert ValidNode(g, m);
    if k < |g[m].content| && IsMappingOrAlias(g, g[m].content[k]) {
      ChildAbove(g, m, k, open, height);
      IntoSound(g, g[m].content[k], open, resolve, out, claimed, text, height);
      match MergeInto(g, g[m].content[k], open, resolve, out, claimed, text) {
        case Merged(out1, claimed1, _) => ItemsSound(g, m, k + 1, open, resolve, out1, claimed1, text, height);
        case _ =>
      }
    }
  }

  lemma {:induction false} IntoSound(g: seq<GraphNode>, j: nat, open: set<nat>, resolve: Resolver, out: map<int, Value>, claimed: set<int>, text: bool, height: nat -> nat)
    requires Decodable(g) && Acyclic(g, height) && j < |g| && IsMappingOrAlias(g, j) && Above(open, j, height)
    ensures MergeInto(g, j, open, resolve, out, claimed, text) != MergeFailed(SelfContaining)
    decreases Closed(g, open), |g| - j, 6, 1
  {
    hide Acyclic, MergedFrom, MergeNode;
    assert ValidNode(g, j);
    if g[j].kind.AliasNode? {
      assert j !in open;
      OpeningShrinks(g, open, j);
      TargetAbove(g, j, open, height);
      IntoSound(g, g[j].target.value, open + {j}, resolve, out, claimed, text, height);
    } else if !Duplicated(g, j) {
      MergedSound(g, j, 0, open, resolve, out, claimed, None, text, height);
      match MergedFrom(g, j, 0, open, resolve, out, claimed, None, text) {
        case Merged(out1, claimed1, Some(m)) => MergeNodeSound(g, j, m, open, resolve, out1, claimed1, text, height);
        case _ =>
      }
    }
  }

  lemma {:induction false} MergedSound(g: seq<GraphNode>, j: nat, k: nat, open: set<nat>, resolve: Resolver, out: map<int, Value>,
                                       claimed: set<int>, merge: Option<nat>, text: bool, height: nat -> nat)
    requires Decodable(g) && Acyclic(g, height) && j < |g| && Above(open, j, height) && g[j].kind.MappingNode?
    requires k <= |g[j].content| && k % 2 == 0 && (merge.Some? ==> j < merge.value < |g|) && IsChild(g, j, merge)
    ensures var r := MergedFrom(g, j, k, open, resolve, out, claimed, merge, text);
      r != MergeFailed(SelfContaining) && (r.Merged? ==> IsChild(g, j, r.merge))
    decreases Closed(g, open), |g| - j, 1, |g[j].content| - k
  {
    hide Acyclic, KeyOf, DecodeChild;
    assert ValidNode(g, j);
    var c := g[j].content;
    if k < |c| {
      if IsMerge(g[c[k]]) {
        MergedSound(g, j, k + 2, open, resolve, out, claimed, Some(c[k + 1]), text, height);
      } else {
        KeySound(g, j, k, open, resolve, text, height);
        ChildSound(g, j, k + 1, open, resolve, height);
        match KeyOf(g, j, k, open, resolve, text) {
          case Skipped => MergedSound(g, j, k + 2, open, resolve, out, claimed, merge, text, height);
          case Good(Atom(id)) =>
            MergedSound(g, j, k + 2, open, resolve, out, claimed, merge, text, height);
            MergedSound(g, j, k + 2, open, resolve, Stored(g, DecodeChild(g, j, k + 1, open, resolve), c[k + 1], id, out),
                        claimed + {id}, merge, text, height);
          case _ =>
        }
      }
    }
  }

  // ----- Every cycle that is met is reported -----

  /** How a node is read: as a value, as a string, into a map being merged into, or as a key being claimed. */
  datatype Mode = Read | AsText | Into(text: bool, claimed: set<int>) | Claiming(claimed: set<int>)

  datatype Visit = Visit(node: nat, open: set<nat>, mode: Mode)

  ghost predicate Legal(g: seq<GraphNode>, v: Visit) {
    && v.node < |g| && (v.mode.Into? ==> IsMappingOrAlias(g, v.node)) && (v.mode.Claiming? ==> !g[v.node].kind.DocumentNode?)
  }

  /** Reading the node does not fail; when merged, for some map. */
  ghost predicate Succeeds(g: seq<GraphNode>, v: Visit, resolve: Resolver)
    requires Decodable(g) && Legal(g, v)
  {
    match v.mode
    case Read => !Decode(g, v.node, v.open, resolve).Failed?
    case AsText => !DecodeText(g, v.node, v.open, resolve).Failed?
    case Into(text, claimed) => exists out: map<int, Value> :: MergeInto(g, v.node, v.open, resolve, out, claimed, text).Merged?
    case Claiming(claimed) => !ClaimNode(g, v.node, v.open, resolve, claimed).result.Failed?
  }

  function KeyMode(text: bool): Mode { if text then AsText else Read }

  /** Of mapping `i`, the keys claimed before key `l`, when `ids` are claimed before key `k`. */
  ghost function KeysAt(g: seq<GraphNode>, i: nat, k: nat, l: nat, open: set<nat>, resolve: Resolver, ids: set<int>): set<int>
    requires Decodable(g) && i < |g| && l <= |g[i].content|
    decreases l - k
  {
    assert ValidNode(g, i);
    if k >= l then ids
    else
      match ClaimNode(g, g[i].content[k], open, resolve, ids).result
      case Good(Atom(id)) => KeysAt(g, i, k + 2, l, open, resolve, ids + {id})
      case _ => KeysAt(g, i, k + 2, l, open, resolve, ids)
  }

  /** The same of the items of a sequence that is itself a key. */
  ghost function ItemsAt(g: seq<GraphNode>, j: nat, k: nat, l: nat, open: set<nat>, resolve: Resolver, claimed: set<int>): set<int>
    requires Decodable(g) && j < |g| && l <= |g[j].content|
    decreases l - k
  {
    assert ValidNode(g, j);
    if k >= l then claimed
    else ItemsAt(g, j, k + 1, l, open, resolve, ClaimNode(g, g[j].content[k], open, resolve, claimed).claimed)
  }

  /** Of a mapping being merged, the keys claimed before key `l`. */
  ghost function PairsAt(g: seq<GraphNode>, j: nat, k: nat, l: nat, open: set<nat>, resolve: Resolver, text: bool, claimed: set<int>): set<int>
    requires Decodable(g) && j < |g| && l <= |g[j].content|
    decreases l - k
  {
    assert ValidNode(g, j);
    if k >= l then claimed
    else if IsMerge(g[g[j].content[k]]) then PairsAt(g, j, k + 2, l, open, resolve, text, claimed)
    else
      match KeyOf(g, j, k, open, resolve, text)
      case Good(Atom(id)) => PairsAt(g, j, k + 2, l, open, resolve, text, claimed + {id})
      case _ => PairsAt(g, j, k + 2, l, open, resolve, text, claimed)
  }

  /** The keys claimed before item `l` of a sequence of mappings is merged. */
  ghost function MergedAt(g: seq<GraphNode>, m: nat, k: nat, l: nat, open: set<nat>, resolve: Resolver, text: bool, claimed: set<int>): set<int>
    requires Decodable(g) && m < |g| && l <= |g[m].content|
    decreases l - k
  {
    assert ValidNode(g, m);
    if k >= l then claimed
    else if IsMappingOrAlias(g, g[m].content[k]) then
      MergedAt(g, m, k + 1, l, open, resolve, text, claimed + Ids(Offered(g, g[m].content[k], open, resolve, text)))
    else claimed
  }

  /** The value `m` of a merge key makes the decoder read `w`. */
  ghost predicate Merges(g: seq<GraphNode>, m: nat, open: set<nat>, text: bool, claimed: set<int>, w: Visit, resolve: Resolver)
    requires Decodable(g) && m < |g|
  {
    if IsMappingOrAlias(g, m) then w == Visit(m, open, Into(text, claimed))
    else
      && g[m].kind.SequenceNode?
      && exists l :: 0 <= l < |g[m].content| && w == Visit(g[m].content[l], open, Into(text, MergedAt(g, m, 0, l, open, resolve, text, claimed)))
  }

  /** Reading `v` reads `w` next: children of documents and sequences, what an alias stands for, and of a
      mapping every key, the value of every key that is not skipped, the keys claimed before a merge, and
      every merged mapping; of a mapping being merged, its keys, the values of keys not claimed yet, and the
      mappings it merges in turn. */
  ghost predicate Leads(g: seq<GraphNode>, v: Visit, w: Visit, resolve: Resolver)
    requires Decodable(g) && Legal(g, v) && Legal(g, w)
  {
    assert ValidNode(g, v.node);
    var n := g[v.node];
    match n.kind
    case DocumentNode => v.mode.Read? && |n.content| == 1 && w == Visit(n.content[0], v.open, Read)
    case AliasNode => v.node !in v.open && w == Visit(n.target.value, v.open + {v.node}, v.mode)
    case ScalarNode => false
    case SequenceNode => SequenceLeads(g, v, w, resolve)
    case MappingNode =>
      !Duplicated(g, v.node) &&
      match v.mode
      case AsText => false
      case Read => MappingLeads(g, v.node, v.open, w, resolve)
      case Into(text, claimed) => MergedLeads(g, v.node, v.open, text, claimed, w, resolve)
      case Claiming(claimed) => MergedLeads(g, v.node, v.open, IsStringMap(g, v.node), claimed, w, resolve)
  }

  ghost predicate SequenceLeads(g: seq<GraphNode>, v: Visit, w: Visit, resolve: Resolver)
    requires Decodable(g) && v.node < |g|
  {
    var c := g[v.node].content;
    match v.mode
    case Read => exists l :: 0 <= l < |c| && w == Visit(c[l], v.open, Read)
    case Claiming(claimed) =>
      exists l :: 0 <= l < |c| && w == Visit(c[l], v.open, Claiming(ItemsAt(g, v.node, 0, l, v.open, resolve, claimed)))
    case _ => false
  }

  ghost predicate MappingLeads(g: seq<GraphNode>, i: nat, open: set<nat>, w: Visit, resolve: Resolver)
    requires Decodable(g) && i < |g| && g[i].kind.MappingNode? && ValidNode(g, i)
  {
    var c, text, merge := g[i].content, IsStringMap(g, i), MergeValue(g, i, 0, None);
    || (exists k :: 0 <= k < |c| && k % 2 == 0 && !IsMerge(g[c[k]]) && w == Visit(c[k], open, KeyMode(text)))
    || (exists k :: 0 <= k < |c| - 1 && k % 2 == 0 && !IsMerge(g[c[k]]) && KeyOf(g, i, k, open, resolve, text).Good? && w == Visit(c[k + 1], open, Read))
    || (merge.Some? && exists k :: 0 <= k < |c| && k % 2 == 0 && w == Visit(c[k], open, Claiming(KeysAt(g, i, 0, k, open, resolve, {}))))
    || (merge.Some? && Merges(g, merge.value, open, text, KeysAt(g, i, 0, |c|, open, resolve, {}), w, resolve))
  }

  ghost predicate MergedLeads(g: seq<GraphNode>, j: nat, open: set<nat>, text: bool, claimed: set<int>, w: Visit, resolve: Resolver)
    requires Decodable(g) && j < |g| && g[j].kind.MappingNode? && ValidNode(g, j)
  {
    var c, merge := g[j].content, MergeValue(g, j, 0, None);
    || (exists k :: 0 <= k < |c| && k % 2 == 0 && !IsMerge(g[c[k]]) && w == Visit(c[k], open, KeyMode(text)))
    || (exists k :: 0 <= k < |c| - 1 && k % 2 == 0 && Unclaimed(g, j, k, open, resolve, text, claimed) && w == Visit(c[k + 1], open, Read))
    || (merge.Some? && Merges(g, merge.value, open, text, PairsAt(g, j, 0, |c|, open, resolve, text, claimed), w, resolve))
  }

  /** The key at `k` of a mapping being merged is not claimed when its turn comes. */
  ghost predicate Unclaimed(g: seq<GraphNode>, j: nat, k: nat, open: set<nat>, resolve: Resolver, text: bool, claimed: set<int>)
    requires Decodable(g) && j < |g| && k < |g[j].content| && ValidNode(g, j)
  {
    var key := KeyOf(g, j, k, open, resolve, text);
    !IsMerge(g[g[j].content[k]]) && key.Good? && key.value.Atom? && key.value.id !in PairsAt(g, j, 0, k, open, resolve, text, claimed)
  }

  lemma {:induction false} ListReads(g: seq<GraphNode>, i: nat, k: nat, open: set<nat>, resolve: Resolver, items: seq<Value>, l: nat)
    requires Decodable(g) && i < |g| && k <= l < |g[i].content| && !ListFrom(g, i, k, open, resolve, items).Failed?
    ensures !DecodeChild(g, i, l, open, resolve).Failed?
    decreases |g[i].content| - k
  {
    hide DecodeChild;
    if k < l {
      match DecodeChild(g, i, k, open, resolve) {
        case Skipped => ListReads(g, i, k + 1, open, resolve, items, l);
        case Good(v) => ListReads(g, i, k + 1, open, resolve, items + [v], l);
      }
    }
  }

  lemma {:induction false} OwnReads(g: seq<GraphNode>, i: nat, k: nat, open: set<nat>, resolve: Resolver,
                                    out: map<int, Value>, merge: Option<nat>, text: bool, l: nat)
    requires Decodable(g) && i < |g| && g[i].kind.MappingNode? && k <= l < |g[i].content| && k % 2 == 0 && l % 2 == 0
    requires (merge.Some? ==> i < merge.value < |g|) && OwnFrom(g, i, k, open, resolve, out, merge, text).Own?
    ensures ValidNode(g, i) && l + 1 < |g[i].content|
    ensures !IsMerge(g[g[i].content[l]]) ==>
      && !KeyOf(g, i, l, open, resolve, text).Failed?
      && (KeyOf(g, i, l, open, resolve, text).Good? ==> !DecodeChild(g, i, l + 1, open, resolve).Failed?)
    decreases |g[i].content| - k
  {
    hide KeyOf, DecodeChild;
    assert ValidNode(g, i);
    var c := g[i].content;
    if k < l {
      if IsMerge(g[c[k]]) {
        OwnReads(g, i, k + 2, open, resolve, out, Some(c[k + 1]), text, l);
      } else {
        match KeyOf(g, i, k, open, resolve, text) {
          case Skipped => OwnReads(g, i, k + 2, open, resolve, out, merge, text, l);
          case Good(key) =>
            OwnReads(g, i, k + 2, open, resolve, Stored(g, DecodeChild(g, i, k + 1, open, resolve), c[k + 1], key.id, out), merge, text, l);
        }
      }
    }
  }

  lemma {:induction false} KeysRead(g: seq<GraphNode>, i: nat, k: nat, open: set<nat>, resolve: Resolver, ids: set<int>, l: nat)
    requires Decodable(g) && i < |g| && g[i].kind.MappingNode? && k <= l <= |g[i].content| && k % 2 == 0 && l % 2 == 0
    requires KeysFrom(g, i, k, open, resolve, ids).Keys?
    ensures ValidNode(g, i)
    ensures l < |g[i].content| ==> !ClaimNode(g, g[i].content[l], open, resolve, KeysAt(g, i, k, l, open, resolve, ids)).result.Failed?
    ensures l == |g[i].content| ==> KeysFrom(g, i, k, open, resolve, ids).ids == KeysAt(g, i, k, l, open, resolve, ids)
    decreases |g[i].content| - k
  {
    hide ClaimNode;
    assert ValidNode(g, i);
    if k < l {
      match ClaimNode(g, g[i].content[k], open, resolve, ids).result {
        case Skipped => KeysRead(g, i, k + 2, open, resolve, ids, l);
        case Good(key) => KeysRead(g, i, k + 2, open, resolve, ids + {key.id}, l);
      }
    }
  }

  lemma {:induction false} ItemsClaimed(g: seq<GraphNode>, j: nat, k: nat, open: set<nat>, resolve: Resolver, claimed: set<int>, items: seq<Value>, l: nat)
    requires Decodable(g) && j < |g| && k <= l < |g[j].content| && !ClaimItems(g, j, k, open, resolve, claimed, items).result.Failed?
    ensures ValidNode(g, j) && !ClaimNode(g, g[j].content[l], open, resolve, ItemsAt(g, j, k, l, open, resolve, claimed)).result.Failed?
    decreases |g[j].content| - k
  {
    hide ClaimNode;
    assert ValidNode(g, j);
    if k < l {
      match ClaimNode(g, g[j].content[k], open, resolve, claimed) {
        case Claim(Skipped, claimed1) => ItemsClaimed(g, j, k + 1, open, resolve, claimed1, items, l);
        case Claim(Good(v), claimed1) => ItemsClaimed(g, j, k + 1, open, resolve, claimed1, items + [v], l);
      }
    }
  }

  lemma {:induction false} MergedReads(g: seq<GraphNode>, j: nat, k: nat, open: set<nat>, resolve: Resolver, out: map<int, Value>,
                                       claimed: set<int>, merge: Option<nat>, text: bool, l: nat)
    requires Decodable(g) && j < |g| && g[j].kind.MappingNode? && k <= l <= |g[j].content| && k % 2 == 0 && l % 2 == 0
    requires (merge.Some? ==> j < merge.value < |g|) && MergedFrom(g, j, k, open, resolve, out, claimed, merge, text).Merged?
    ensures ValidNode(g, j)
    ensures l < |g[j].content| && !IsMerge(g[g[j].content[l]]) ==>
      && l + 1 < |g[j].content| && !KeyOf(g, j, l, open, resolve, text).Failed?
      && (NewKey(KeyOf(g, j, l, open, resolve, text), PairsAt(g, j, k, l, open, resolve, text, claimed)) ==> !DecodeChild(g, j, l + 1, open, resolve).Failed?)
    ensures l == |g[j].content| ==>
      MergedFrom(g, j, k, open, resolve, out, claimed, merge, text).claimed == PairsAt(g, j, k, l, open, resolve, text, claimed)
    decreases |g[j].content| - k
  {
    hide KeyOf, DecodeChild, Stored;
    assert ValidNode(g, j);
    var c := g[j].content;
    if k < l {
      if IsMerge(g[c[k]]) {
        MergedReads(g, j, k + 2, open, resolve, out, claimed, Some(c[k + 1]), text, l);
      } else {
        match KeyOf(g, j, k, open, resolve, text) {
          case Skipped => MergedReads(g, j, k + 2, open, resolve, out, claimed, merge, text, l);
          case Good(key) =>
            if key.id in claimed {
              assert claimed + {key.id} == claimed;
              MergedReads(g, j, k + 2, open, resolve, out, claimed, merge, text, l);
            } else {
              MergedReads(g, j, k + 2, open, resolve, Stored(g, DecodeChild(g, j, k + 1, open, resolve), c[k + 1], key.id, out),
                          claimed + {key.id}, merge, text, l);
            }
        }
      }
    }
  }

  predicate NewKey(r: Result, claimed: set<int>) { r.Good? && r.value.Atom? && r.value.id !in claimed }

  lemma {:induction false} ItemsRead(g: seq<GraphNode>, m: nat, k: nat, open: set<nat>, resolve: Resolver, out: map<int, Value>,
                                     claimed: set<int>, text: bool, l: nat)
    requires Decodable(g) && m < |g| && k <= l < |g[m].content|
    requires MergeItems(g, m, k, open, resolve, out, claimed, text).Merged?
    ensures ValidNode(g, m) && IsMappingOrAlias(g, g[m].content[l])
    ensures Succeeds(g, Visit(g[m].content[l], open, Into(text, MergedAt(g, m, k, l, open, resolve, text, claimed))), resolve)
    decreases |g[m].content| - k
  {
    hide MergeInto, Absorbs;
    assert ValidNode(g, m);
    var r := MergeInto(g, g[m].content[k], open, resolve, out, claimed, text);
    if k < l {
      MergeIntoAbsorbs(g, g[m].content[k], open, resolve, out, claimed, text);
      ClaimedBy(g, resolve, out, claimed, Offered(g, g[m].content[k], open, resolve, text), r.out, r.claimed);
      ItemsRead(g, m, k + 1, open, resolve, r.out, r.claimed, text, l);
    }
  }

  lemma ClaimedBy(g: seq<GraphNode>, resolve: Resolver, out: map<int, Value>, claimed: set<int>, es: seq<Entry>, out1: map<int, Value>, claimed1: set<int>)
    requires Decodable(g) && ValidEntries(g, es) && Absorbs(g, resolve, out, claimed, es, out1, claimed1)
    ensures claimed1 == claimed + Ids(es)
  {
  }

  /** Merging the value `m` of a merge key reads every mapping it merges. */
  lemma MergeReads(g: seq<GraphNode>, i: nat, m: nat, open: set<nat>, resolve: Resolver, out: map<int, Value>, claimed: set<int>, text: bool, w: Visit)
    requires Decodable(g) && i < m < |g| && MergeNode(g, i, m, open, resolve, out, claimed, text).Merged?
    requires Legal(g, w) && Merges(g, m, open, text, claimed, w, resolve)
    ensures Succeeds(g, w, resolve)
  {
    hide MergeInto, MergeItems;
    if !IsMappingOrAlias(g, m) {
      var l :| 0 <= l < |g[m].content| && w == Visit(g[m].content[l], open, Into(text, MergedAt(g, m, 0, l, open, resolve, text, claimed)));
      ItemsRead(g, m, 0, open, resolve, out, claimed, text, l);
    }
  }

  lemma MappingReads(g: seq<GraphNode>, i: nat, open: set<nat>, w: Visit, resolve: Resolver)
    requires Decodable(g) && i < |g| && g[i].kind.MappingNode? && ValidNode(g, i) && Legal(g, w)
    requires DecodeMapping(g, i, open, resolve).Good? && MappingLeads(g, i, open, w, resolve)
    ensures Succeeds(g, w, resolve)
  {
    hide Decode, DecodeText, OwnFrom, KeysFrom, MergeNode, MergeInto, MergeValue, IsStringMap, Merges, ClaimNode;
    var c, text := g[i].content, IsStringMap(g, i);
    var own, keys := OwnFrom(g, i, 0, open, resolve, map[], None, text), KeysFrom(g, i, 0, open, resolve, {});
    OwnFromKeepsLast(g, i, 0, open, resolve, map[], None, text, 0);
    if k :| 0 <= k < |c| && k % 2 == 0 && !IsMerge(g[c[k]]) && w == Visit(c[k], open, KeyMode(text)) {
      OwnReads(g, i, 0, open, resolve, map[], None, text, k);
    } else if k :| 0 <= k < |c| - 1 && k % 2 == 0 && !IsMerge(g[c[k]]) && KeyOf(g, i, k, open, resolve, text).Good? && w == Visit(c[k + 1], open, Read) {
      OwnReads(g, i, 0, open, resolve, map[], None, text, k);
    } else if k :| MergeValue(g, i, 0, None).Some? && 0 <= k < |c| && k % 2 == 0 && w == Visit(c[k], open, Claiming(KeysAt(g, i, 0, k, open, resolve, {}))) {
      KeysRead(g, i, 0, open, resolve, {}, k);
    } else {
      KeysRead(g, i, 0, open, resolve, {}, |c|);
      MergeReads(g, i, own.merge.value, open, resolve, own.out, keys.ids, text, w);
    }
  }

  lemma MergedMappingReads(g: seq<GraphNode>, j: nat, open: set<nat>, text: bool, w: Visit, resolve: Resolver, out: map<int, Value>, claimed: set<int>)
    requires Decodable(g) && j < |g| && g[j].kind.MappingNode? && ValidNode(g, j) && Legal(g, w) && !Duplicated(g, j)
    requires MergeInto(g, j, open, resolve, out, claimed, text).Merged? && MergedLeads(g, j, open, text, claimed, w, resolve)
    ensures Succeeds(g, w, resolve)
  {
    hide Decode, DecodeText, MergedFrom, MergeNode, MergeValue, Merges;
    var c, r := g[j].content, MergedFrom(g, j, 0, open, resolve, out, claimed, None, text);
    MergedFromAbsorbs(g, j, 0, open, resolve, out, claimed, None, text);
    if k :| 0 <= k < |c| && k % 2 == 0 && !IsMerge(g[c[k]]) && w == Visit(c[k], open, KeyMode(text)) {
      MergedReads(g, j, 0, open, resolve, out, claimed, None, text, k);
    } else if k :| 0 <= k < |c| - 1 && k % 2 == 0 && Unclaimed(g, j, k, open, resolve, text, claimed) && w == Visit(c[k + 1], open, Read) {
      MergedReads(g, j, 0, open, resolve, out, claimed, None, text, k);
    } else {
      MergedReads(g, j, 0, open, resolve, out, claimed, None, text, |c|);
      MergeReads(g, j, r.merge.value, open, resolve, r.out, r.claimed, text, w);
    }
  }

  /** What succeeds reads nothing that fails. */
  lemma StepSucceeds(g: seq<GraphNode>, v: Visit, w: Visit, resolve: Resolver)
    requires Decodable(g) && Legal(g, v) && Legal(g, w) && Leads(g, v, w, resolve) && Succeeds(g, v, resolve)
    ensures Succeeds(g, w, resolve)
  {
    hide ListFrom, DecodeMapping, MergedFrom, MergeInto, MergeNode, MappingLeads, MergedLeads, SequenceLeads, Duplicated, ClaimItems;
    var i, open := v.node, v.open;
    assert ValidNode(g, i);
    match g[i].kind {
      case DocumentNode => assert DecodeChild(g, i, 0, open, resolve) == Decode(g, w.node, open, resolve);
      case AliasNode => AliasReads(g, v, w, resolve);
      case ScalarNode =>
      case SequenceNode => SequenceReads(g, v, w, resolve);
      case MappingNode =>
        match v.mode {
          case Read =>
            MappingIsNoAtom(g, i, open, resolve);
            MappingReads(g, i, open, w, resolve);
          case Into(text, claimed) =>
            var out: map<int, Value> :| MergeInto(g, i, open, resolve, out, claimed, text).Merged?;
            MergedMappingReads(g, i, open, text, w, resolve, out, claimed);
          case Claiming(claimed) => MergedMappingReads(g, i, open, IsStringMap(g, i), w, resolve, map[], claimed);
          case AsText =>
        }
    }
  }

  lemma SequenceReads(g: seq<GraphNode>, v: Visit, w: Visit, resolve: Resolver)
    requires Decodable(g) && Legal(g, v) && Legal(g, w) && g[v.node].kind.SequenceNode? && SequenceLeads(g, v, w, resolve) && Succeeds(g, v, resolve)
    ensures Succeeds(g, w, resolve)
  {
    hide ListFrom, ClaimItems, ItemsAt;
    var i, open := v.node, v.open;
    assert ValidNode(g, i);
    match v.mode {
      case Read =>
        var l :| 0 <= l < |g[i].content| && w == Visit(g[i].content[l], open, Read);
        ListReads(g, i, 0, open, resolve, [], l);
      case Claiming(claimed) =>
        var l :| 0 <= l < |g[i].content| && w == Visit(g[i].content[l], open, Claiming(ItemsAt(g, i, 0, l, open, resolve, claimed)));
        ItemsClaimed(g, i, 0, open, resolve, claimed, [], l);
      case _ =>
    }
  }

  lemma AliasReads(g: seq<GraphNode>, v: Visit, w: Visit, resolve: Resolver)
    requires Decodable(g) && Legal(g, v) && Legal(g, w) && Leads(g, v, w, resolve) && Succeeds(g, v, resolve) && g[v.node].kind.AliasNode?
    ensures Succeeds(g, w, resolve)
  {
    hide ListFrom, DecodeMapping, MergedFrom, MergeNode, ClaimItems;
    assert ValidNode(g, v.node);
    OpeningShrinks(g, v.open, v.node);
    match v.mode {
      case Into(text, claimed) =>
        var out: map<int, Value> :| MergeInto(g, v.node, v.open, resolve, out, claimed, text).Merged?;
        assert MergeInto(g, w.node, w.open, resolve, out, claimed, text).Merged?;
      case _ =>
    }
  }

  /** An alias that is being expanded already. */
  predicate Closes(g: seq<GraphNode>, v: Visit) { v.node < |g| && g[v.node].kind.AliasNode? && v.node in v.open }

  lemma ClosingFails(g: seq<GraphNode>, v: Visit, resolve: Resolver)
    requires Decodable(g) && Legal(g, v) && Closes(g, v)
    ensures !Succeeds(g, v, resolve)
  {
    assert ValidNode(g, v.node);
  }

  ghost predicate Path(g: seq<GraphNode>, vs: seq<Visit>, resolve: Resolver)
    requires Decodable(g)
  {
    && (forall k :: 0 <= k < |vs| ==> Legal(g, vs[k]))
    && forall k :: 0 <= k < |vs| - 1 ==> Leads(g, vs[k], vs[k + 1], resolve)
  }

  lemma {:induction false} PathSucceeds(g: seq<GraphNode>, vs: seq<Visit>, resolve: Resolver, k: nat)
    requires Decodable(g) && Path(g, vs, resolve) && k < |vs| && Succeeds(g, vs[0], resolve)
    ensures Succeeds(g, vs[k], resolve)
  {
    hide Leads, Succeeds, Legal;
    if k > 0 {
      PathSucceeds(g, vs, resolve, k - 1);
      assert Leads(g, vs[k - 1], vs[k - 1 + 1], resolve);
      StepSucceeds(g, vs[k - 1], vs[k], resolve);
    }
  }

  /** Every cycle that decoding runs into is reported: when what is read leads, step by step, to an alias
      inside its own expansion, decoding fails. */
  lemma EveryCycleFails(g: seq<GraphNode>, vs: seq<Visit>, resolve: Resolver)
    requires Decodable(g) && vs != [] && Path(g, vs, resolve) && Closes(g, vs[|vs| - 1]) && vs[0].mode == Read
    ensures Decode(g, vs[0].node, vs[0].open, resolve).Failed?
  {
    hide Decode;
    ClosingFails(g, vs[|vs| - 1], resolve);
    if Succeeds(g, vs[0], resolve) { PathSucceeds(g, vs, resolve, |vs| - 1); }
  }

  // ----- What is reported is met -----

  /** Reading the node reports an anchor that contains itself. */
  ghost predicate Reports(g: seq<GraphNode>, v: Visit, resolve: Resolver)
    requires Decodable(g) && Legal(g, v)
  {
    match v.mode
    case Read => Decode(g, v.node, v.open, resolve) == Failed(SelfContaining)
    case AsText => DecodeText(g, v.node, v.open, resolve) == Failed(SelfContaining)
    case Into(text, claimed) =>
      exists out: map<int, Value> :: MergeInto(g, v.node, v.open, resolve, out, claimed, text) == MergeFailed(SelfContaining)
    case Claiming(claimed) => ClaimNode(g, v.node, v.open, resolve, claimed).result == Failed(SelfContaining)
  }

  lemma {:induction false} ListFinds(g: seq<GraphNode>, i: nat, k: nat, open: set<nat>, resolve: Resolver, items: seq<Value>) returns (l: nat)
    requires Decodable(g) && i < |g| && k <= |g[i].content| && ListFrom(g, i, k, open, resolve, items) == Failed(SelfContaining)
    ensures k <= l < |g[i].content| && DecodeChild(g, i, l, open, resolve) == Failed(SelfContaining)
    decreases |g[i].content| - k
  {
    hide DecodeChild;
    match DecodeChild(g, i, k, open, resolve) {
      case Skipped => l := ListFinds(g, i, k + 1, open, resolve, items);
      case Good(v) => l := ListFinds(g, i, k + 1, open, resolve, items + [v]);
      case _ => l := k;
    }
  }

  lemma {:induction false} ClaimItemsFinds(g: seq<GraphNode>, j: nat, k: nat, open: set<nat>, resolve: Resolver, claimed: set<int>, items: seq<Value>)
    returns (l: nat)
    requires Decodable(g) && j < |g| && k <= |g[j].content| && ClaimItems(g, j, k, open, resolve, claimed, items).result == Failed(SelfContaining)
    ensures k <= l < |g[j].content| && ValidNode(g, j)
    ensures ClaimNode(g, g[j].content[l], open, resolve, ItemsAt(g, j, k, l, open, resolve, claimed)).result == Failed(SelfContaining)
    decreases |g[j].content| - k
  {
    hide ClaimNode;
    assert ValidNode(g, j);
    match ClaimNode(g, g[j].content[k], open, resolve, claimed) {
      case Claim(Skipped, claimed1) => l := ClaimItemsFinds(g, j, k + 1, open, resolve, claimed1, items);
      case Claim(Good(v), claimed1) => l := ClaimItemsFinds(g, j, k + 1, open, resolve, claimed1, items + [v]);
      case _ => l := k;
    }
  }

  lemma {:induction false} OwnFinds(g: seq<GraphNode>, i: nat, k: nat, open: set<nat>, resolve: Resolver,
                                    out: map<int, Value>, merge: Option<nat>, text: bool) returns (l: nat)
    requires Decodable(g) && i < |g| && g[i].kind.MappingNode? && k <= |g[i].content| && k % 2 == 0
    requires (merge.Some? ==> i < merge.value < |g|) && OwnFrom(g, i, k, open, resolve, out, merge, text) == OwnFailed(SelfContaining)
    ensures k <= l < |g[i].content| - 1 && l % 2 == 0 && ValidNode(g, i) && !IsMerge(g[g[i].content[l]])
    ensures KeyOf(g, i, l, open, resolve, text) == Failed(SelfContaining)
      || (KeyOf(g, i, l, open, resolve, text).Good? && DecodeChild(g, i, l + 1, open, resolve) == Failed(SelfContaining))
    decreases |g[i].content| - k
  {
    hide KeyOf, DecodeChild, Stored;
    assert ValidNode(g, i);
    var c := g[i].content;
    if IsMerge(g[c[k]]) {
      l := OwnFinds(g, i, k + 2, open, resolve, out, Some(c[k + 1]), text);
    } else {
      l := k;
      match KeyOf(g, i, k, open, resolve, text) {
        case Skipped => l := OwnFinds(g, i, k + 2, open, resolve, out, merge, text);
        case Good(Atom(id)) =>
          var d := DecodeChild(g, i, k + 1, open, resolve);
          if !d.Failed? { l := OwnFinds(g, i, k + 2, open, resolve, Stored(g, d, c[k + 1], id, out), merge, text); }
        case _ =>
      }
    }
  }

  lemma {:induction false} KeysFind(g: seq<GraphNode>, i: nat, k: nat, open: set<nat>, resolve: Resolver, ids: set<int>) returns (l: nat)
    requires Decodable(g) && i < |g| && g[i].kind.MappingNode? && k <= |g[i].content| && k % 2 == 0
    requires KeysFrom(g, i, k, open, resolve, ids) == KeysFailed(SelfContaining)
    ensures k <= l < |g[i].content| && l % 2 == 0 && ValidNode(g, i)
    ensures ClaimNode(g, g[i].content[l], open, resolve, KeysAt(g, i, k, l, open, resolve, ids)).result == Failed(SelfContaining)
    decreases |g[i].content| - k
  {
    hide ClaimNode;
    assert ValidNode(g, i);
    match ClaimNode(g, g[i].content[k], open, resolve, ids).result {
      case Skipped => l := KeysFind(g, i, k + 2, open, resolve, ids);
      case Good(Atom(id)) => l := KeysFind(g, i, k + 2, open, resolve, ids + {id});
      case _ => l := k;
    }
  }

  lemma {:induction false} MergedFinds(g: seq<GraphNode>, j: nat, k: nat, open: set<nat>, resolve: Resolver, out: map<int, Value>,
                                       claimed: set<int>, merge: Option<nat>, text: bool) returns (l: nat)
    requires Decodable(g) && j < |g| && g[j].kind.MappingNode? && k <= |g[j].content| && k % 2 == 0
    requires (merge.Some? ==> j < merge.value < |g|) && MergedFrom(g, j, k, open, resolve, out, claimed, merge, text) == MergeFailed(SelfContaining)
    ensures k <= l < |g[j].content| - 1 && l % 2 == 0 && ValidNode(g, j) && !IsMerge(g[g[j].content[l]])
    ensures KeyOf(g, j, l, open, resolve, text) == Failed(SelfContaining)
      || (NewKey(KeyOf(g, j, l, open, resolve, text), PairsAt(g, j, k, l, open, resolve, text, claimed))
          && DecodeChild(g, j, l + 1, open, resolve) == Failed(SelfContaining))
    decreases |g[j].content| - k
  {
    hide KeyOf, DecodeChild, Stored;
    assert ValidNode(g, j);
    var c := g[j].content;
    if IsMerge(g[c[k]]) {
      l := MergedFinds(g, j, k + 2, open, resolve, out, claimed, Some(c[k + 1]), text);
    } else {
      l := k;
      match KeyOf(g, j, k, open, resolve, text) {
        case Skipped => l := MergedFinds(g, j, k + 2, open, resolve, out, claimed, merge, text);
        case Good(Atom(id)) =>
          var d := DecodeChild(g, j, k + 1, open, resolve);
          if id in claimed {
            assert claimed + {id} == claimed;
            l := MergedFinds(g, j, k + 2, open, resolve, out, claimed, merge, text);
          } else if !d.Failed? {
            l := MergedFinds(g, j, k + 2, open, resolve, Stored(g, d, c[k + 1], id, out), claimed + {id}, merge, text);
          }
        case _ =>
      }
    }
  }

  lemma {:induction false} ItemsFind(g: seq<GraphNode>, m: nat, k: nat, open: set<nat>, resolve: Resolver, out: map<int, Value>,
                                     claimed: set<int>, text: bool) returns (l: nat)
    requires Decodable(g) && m < |g| && k <= |g[m].content|
    requires MergeItems(g, m, k, open, resolve, out, claimed, text) == MergeFailed(SelfContaining)
    ensures k <= l < |g[m].content| && ValidNode(g, m) && IsMappingOrAlias(g, g[m].content[l])
    ensures Reports(g, Visit(g[m].content[l], open, Into(text, MergedAt(g, m, k, l, open, resolve, text, claimed))), resolve)
    decreases |g[m].content| - k
  {
    hide MergeInto, Absorbs;
    assert ValidNode(g, m);
    var c := g[m].content[k];
    match MergeInto(g, c, open, resolve, out, claimed, text) {
      case MergeFailed(_) => l := k;
      case Merged(out1, claimed1, _) =>
        MergeIntoAbsorbs(g, c, open, resolve, out, claimed, text);
        ClaimedBy(g, resolve, out, claimed, Offered(g, c, open, resolve, text), out1, claimed1);
        l := ItemsFind(g, m, k + 1, open, resolve, out1, claimed1, text);
    }
  }

  lemma NodeFinds(g: seq<GraphNode>, i: nat, m: nat, open: set<nat>, resolve: Resolver, out: map<int, Value>, claimed: set<int>, text: bool)
    returns (w: Visit)
    requires Decodable(g) && i < m < |g| && MergeNode(g, i, m, open, resolve, out, claimed, text) == MergeFailed(SelfContaining)
    ensures Legal(g, w) && w.node >= m && w.open == open && Merges(g, m, open, text, claimed, w, resolve) && Reports(g, w, resolve)
  {
    hide MergeInto, MergeItems;
    assert ValidNode(g, m);
    if IsMappingOrAlias(g, m) {
      w := Visit(m, open, Into(text, claimed));
    } else {
      var l := ItemsFind(g, m, 0, open, resolve, out, claimed, text);
      w := Visit(g[m].content[l], open, Into(text, MergedAt(g, m, 0, l, open, resolve, text, claimed)));
    }
  }

  /** Of a mapping that reports, something it reads does. */
  lemma MappingFinds(g: seq<GraphNode>, i: nat, open: set<nat>, resolve: Resolver) returns (w: Visit)
    requires Decodable(g) && i < |g| && g[i].kind.MappingNode? && ValidNode(g, i) && DecodeMapping(g, i, open, resolve) == Failed(SelfContaining)
    ensures Legal(g, w) && w.node > i && w.open == open && MappingLeads(g, i, open, w, resolve) && Reports(g, w, resolve)
  {
    hide Decode, DecodeText, OwnFrom, KeysFrom, MergeNode, MergeInto, MergeValue, IsStringMap, Merges, ClaimNode, MergedAt, KeysAt;
    var c, text := g[i].content, IsStringMap(g, i);
    OwnFromKeepsLast(g, i, 0, open, resolve, map[], None, text, 0);
    match OwnFrom(g, i, 0, open, resolve, map[], None, text) {
      case OwnFailed(_) =>
        var l := OwnFinds(g, i, 0, open, resolve, map[], None, text);
        if KeyOf(g, i, l, open, resolve, text) == Failed(SelfContaining) {
          w := Visit(c[l], open, KeyMode(text));
        } else {
          w := Visit(c[l + 1], open, Read);
        }
      case Own(out, Some(m)) =>
        match KeysFrom(g, i, 0, open, resolve, {}) {
          case KeysFailed(_) =>
            var l := KeysFind(g, i, 0, open, resolve, {});
            w := Visit(c[l], open, Claiming(KeysAt(g, i, 0, l, open, resolve, {})));
          case Keys(ids) =>
            KeysRead(g, i, 0, open, resolve, {}, |c|);
            w := NodeFinds(g, i, m, open, resolve, out, ids, text);
        }
    }
  }

  lemma MergedMappingFinds(g: seq<GraphNode>, j: nat, open: set<nat>, text: bool, resolve: Resolver, out: map<int, Value>, claimed: set<int>)
    returns (w: Visit)
    requires Decodable(g) && j < |g| && g[j].kind.MappingNode? && ValidNode(g, j) && !Duplicated(g, j)
    requires MergeInto(g, j, open, resolve, out, claimed, text) == MergeFailed(SelfContaining)
    ensures Legal(g, w) && w.node > j && w.open == open && MergedLeads(g, j, open, text, claimed, w, resolve) && Reports(g, w, resolve)
  {
    hide Decode, DecodeText, MergedFrom, MergeNode, MergeValue, Merges, PairsAt, MergedAt;
    var c := g[j].content;
    MergedFromAbsorbs(g, j, 0, open, resolve, out, claimed, None, text);
    match MergedFrom(g, j, 0, open, resolve, out, claimed, None, text) {
      case MergeFailed(_) =>
        var l := MergedFinds(g, j, 0, open, resolve, out, claimed, None, text);
        if KeyOf(g, j, l, open, resolve, text) == Failed(SelfContaining) {
          w := Visit(c[l], open, KeyMode(text));
        } else {
          assert Unclaimed(g, j, l, open, resolve, text, claimed);
          w := Visit(c[l + 1], open, Read);
        }
      case Merged(out1, claimed1, Some(m)) =>
        MergedReads(g, j, 0, open, resolve, out, claimed, None, text, |c|);
        w := NodeFinds(g, j, m, open, resolve, out1, claimed1, text);
    }
  }

  /** What reports is an alias inside its own expansion, or reads something that reports. */
  lemma StepReports(g: seq<GraphNode>, v: Visit, resolve: Resolver) returns (w: Visit)
    requires Decodable(g) && Legal(g, v) && Reports(g, v, resolve) && !Closes(g, v)
    ensures Legal(g, w) && Leads(g, v, w, resolve) && Reports(g, w, resolve)
    ensures Closed(g, w.open) < Closed(g, v.open) || (w.open == v.open && w.node > v.node)
  {
    hide ListFrom, DecodeMapping, MergedFrom, MergeInto, MergeNode, MappingLeads, MergedLeads, Duplicated, ClaimItems, ItemsAt;
    var i, open := v.node, v.open;
    assert ValidNode(g, i);
    match g[i].kind {
      case DocumentNode =>
        w := Visit(g[i].content[0], open, Read);
        assert DecodeChild(g, i, 0, open, resolve) == Decode(g, w.node, open, resolve);
      case AliasNode => w := AliasFinds(g, v, resolve);
      case SequenceNode =>
        match v.mode {
          case Read =>
            var l := ListFinds(g, i, 0, open, resolve, []);
            w := Visit(g[i].content[l], open, Read);
          case Claiming(claimed) =>
            var l := ClaimItemsFinds(g, i, 0, open, resolve, claimed, []);
            w := Visit(g[i].content[l], open, Claiming(ItemsAt(g, i, 0, l, open, resolve, claimed)));
        }
      case MappingNode =>
        match v.mode {
          case Read => w := MappingFinds(g, i, open, resolve);
          case Into(text, claimed) =>
            var out: map<int, Value> :| MergeInto(g, i, open, resolve, out, claimed, text) == MergeFailed(SelfContaining);
            DuplicatedIsSkipped(g, i, open, resolve, out, claimed, text);
            w := MergedMappingFinds(g, i, open, text, resolve, out, claimed);
          case Claiming(claimed) => w := MergedMappingFinds(g, i, open, IsStringMap(g, i), resolve, map[], claimed);
        }
    }
  }

  lemma DuplicatedIsSkipped(g: seq<GraphNode>, j: nat, open: set<nat>, resolve: Resolver, out: map<int, Value>, claimed: set<int>, text: bool)
    requires Decodable(g) && j < |g| && g[j].kind.MappingNode? && ValidNode(g, j)
    ensures Duplicated(g, j) ==> MergeInto(g, j, open, resolve, out, claimed, text).Merged?
  {
  }

  lemma AliasFinds(g: seq<GraphNode>, v: Visit, resolve: Resolver) returns (w: Visit)
    requires Decodable(g) && Legal(g, v) && Reports(g, v, resolve) && !Closes(g, v) && g[v.node].kind.AliasNode?
    ensures Legal(g, w) && Leads(g, v, w, resolve) && Reports(g, w, resolve) && Closed(g, w.open) < Closed(g, v.open)
  {
    hide ListFrom, DecodeMapping, MergedFrom, MergeNode, ClaimItems;
    assert ValidNode(g, v.node);
    OpeningShrinks(g, v.open, v.node);
    TargetIsNoAlias(g, v.node);
    w := Visit(g[v.node].target.value, v.open + {v.node}, v.mode);
    match v.mode {
      case Into(text, claimed) =>
        var out: map<int, Value> :| MergeInto(g, v.node, v.open, resolve, out, claimed, text) == MergeFailed(SelfContaining);
        assert MergeInto(g, w.node, w.open, resolve, out, claimed, text) == MergeFailed(SelfContaining);
      case _ =>
    }
  }

  lemma {:induction false} CycleIsThere(g: seq<GraphNode>, v: Visit, resolve: Resolver) returns (vs: seq<Visit>)
    requires Decodable(g) && Legal(g, v) && Reports(g, v, resolve)
    ensures vs != [] && vs[0] == v && Path(g, vs, resolve) && Closes(g, vs[|vs| - 1])
    decreases Closed(g, v.open), |g| - v.node
  {
    hide Reports, Leads;
    if Closes(g, v) {
      vs := [v];
    } else {
      var w := StepReports(g, v, resolve);
      var rest := CycleIsThere(g, w, resolve);
      vs := [v] + rest;
      forall k | 0 <= k < |vs| - 1 ensures Leads(g, vs[k], vs[k + 1], resolve) {
        if k > 0 { assert vs[k] == rest[k - 1] && vs[k + 1] == rest[k - 1 + 1]; }
      }
    }
  }

  ghost predicate ReadsItself(g: seq<GraphNode>, i: nat, open: set<nat>, resolve: Resolver)
    requires Decodable(g) && i < |g|
  {
    exists vs: seq<Visit> :: vs != [] && vs[0] == Visit(i, open, Read) && Path(g, vs, resolve) && Closes(g, vs[|vs| - 1])
  }

  /** Decoding that meets no other problem reports an anchor that contains itself exactly when what it reads
      leads to an alias inside its own expansion. */
  lemma ReportedExactlyWhen(g: seq<GraphNode>, i: nat, open: set<nat>, resolve: Resolver)
    requires Decodable(g) && i < |g|
    requires var d := Decode(g, i, open, resolve); d.Failed? ==> d.problem == SelfContaining
    ensures Decode(g, i, open, resolve) == Failed(SelfContaining) <==> ReadsItself(g, i, open, resolve)
  {
    hide Decode, Path;
    var v := Visit(i, open, Read);
    if Reports(g, v, resolve) {
      var vs := CycleIsThere(g, v, resolve);
    }
    if ReadsItself(g, i, open, resolve) {
      var vs: seq<Visit> :| vs != [] && vs[0] == v && Path(g, vs, resolve) && Closes(g, vs[|vs| - 1]);
      EveryCycleFails(g, vs, resolve);
    }
  }

  /** The smallest cycle: an anchored list whose only item is an alias of the list. */
  const CYCLE: seq<GraphNode> :=
    [GraphNode(SequenceNode, "!!seq", SequenceStart("x", "", true, Flow), [1], None),
     GraphNode(AliasNode, "", Alias("x"), [], Some(0))]

  lemma CycleIsReported(resolve: Resolver)
    ensures Decodable(CYCLE) && Decode(CYCLE, 0, {}, resolve) == Failed(SelfContaining)
  {
    forall i | 0 <= i < |CYCLE| ensures ValidNode(CYCLE, i) {}
    assert Decode(CYCLE, 1, {1}, resolve) == Failed(SelfContaining);
    assert DecodeChild(CYCLE, 0, 0, {1}, resolve) == Failed(SelfContaining);
    assert ListFrom(CYCLE, 0, 0, {1}, resolve, []) == Failed(SelfContaining);
    assert Decode(CYCLE, 0, {1}, resolve) == Failed(SelfContaining);
    assert {} + {1} == {1};
    OpeningShrinks(CYCLE, {}, 1);
    assert Decode(CYCLE, 1, {}, resolve) == Failed(SelfContaining);
    assert DecodeChild(CYCLE, 0, 0, {}, resolve) == Failed(SelfContaining);
  }
}
