/** The token spellings of a stream of documents are read back as its trees: one lemma for each
    production of the parser (parserc.go), and for the two productions that fall short of the grammar
    exactly which spellings they read. */
module TokenReading {
  import opened Options
  import opened Events
  import opened Tokens
  import opened Parser
  import opened ParserGrammar
  import opened TokenTrees

  // ----- Reading -----

  /** The parser once it has emitted exactly `evs`. */
  function Reads(p: P, evs: seq<Event>): Option<P>
    decreases |evs|
  {
    if evs == [] then Some(p)
    else if p.state.EndState? then None
    else
      match Next(p)
      case Emit(e, q) => if e == evs[0] then Reads(q, evs[1..]) else None
      case _ => None
  }

  lemma {:induction false} ReadsOn(p: P, a: seq<Event>, b: seq<Event>)
    requires Reads(p, a).Some?
    ensures Reads(p, a + b) == Reads(Reads(p, a).value, b)
    decreases |a|
  {
    hide Next;
    if a == [] {
      assert a + b == b;
    } else {
      assert (a + b)[1..] == a[1..] + b;
      ReadsOn(Next(p).next, a[1..], b);
    }
  }

  lemma ReadsOne(p: P, e: Event)
    requires !p.state.EndState? && Next(p).Emit? && Next(p).event == e
    ensures Reads(p, [e]) == Some(Next(p).next)
  {
    hide Next;
    assert [e][1..] == [];
  }

  /** `o` begins `evs`, and reading the rest leads to `r`. */
  predicate Begins(o: Outcome, evs: seq<Event>, r: P) {
    o.Emit? && evs != [] && o.event == evs[0] && Reads(o.next, evs[1..]) == Some(r)
  }

  function Move(p: P, k: nat): P { p.(pos := p.pos + k) }

  /** `p` when the node it was asked for is `k` tokens behind it. */
  function Finish(p: P, k: nat): P
    requires p.states != []
  {
    Move(p, k).(state := Last(p.states), states := Init(p.states))
  }

  predicate Spelled(ts: seq<Token>, i: nat, s: seq<Token>) { i + |s| <= |ts| && ts[i..i + |s|] == s }

  predicate At(p: P, s: seq<Token>) { Spelled(p.tokens, p.pos, s) }

  lemma Cut(p: P, a: seq<Token>, b: seq<Token>)
    requires At(p, a + b)
    ensures At(p, a) && At(Move(p, |a|), b)
    ensures b != [] ==> At(p, a + [b[0]])
    ensures a != [] ==> HasToken(p) && Peek(p) == a[0]
    ensures a == [] && b != [] ==> HasToken(p) && Peek(p) == b[0]
  {
    var s := a + b;
    assert s[..|a|] == a && s[|a|..] == b;
    AtIndices(p, s);
    if b != [] { assert p.tokens[p.pos + |a|] == b[0]; }
    if a != [] { assert p.tokens[p.pos + 0] == a[0]; }
  }

  lemma AtIndices(p: P, s: seq<Token>)
    requires At(p, s)
    ensures forall k {:trigger s[k]} :: 0 <= k < |s| ==> p.tokens[p.pos + k] == s[k]
    ensures forall k {:trigger p.tokens[k]} :: p.pos <= k < p.pos + |s| ==> p.tokens[k] == s[k - p.pos]
  {
    forall k | 0 <= k < |s| ensures p.tokens[p.pos + k] == s[k] {
      assert p.tokens[p.pos..p.pos + |s|][k] == s[k];
    }
  }

  // The parser's tags and scalars are those of the trees.

  lemma {:induction false} PrefixAgrees(ds: seq<(string, string)>, handle: string)
    ensures Prefix(ds, handle) == PrefixOf(ds, handle)
  {
    if |ds| > 1 {
      PrefixAgrees(ds[..|ds| - 1], handle);
      PrefixLast(ds[..|ds| - 1], ds[|ds| - 1], handle);
      assert ds == ds[..|ds| - 1] + [ds[|ds| - 1]];
    }
  }

  lemma {:induction false} PrefixLast(ds: seq<(string, string)>, d: (string, string), handle: string)
    ensures Prefix(ds + [d], handle) == if Prefix(ds, handle).Some? then Prefix(ds, handle) else if d.0 == handle then Some(d.1) else None
  {
    if ds == [] {
      assert [d][1..] == [] && ds + [d] == [d];
    } else {
      assert (ds + [d])[1..] == ds[1..] + [d];
      PrefixLast(ds[1..], d, handle);
    }
  }

  lemma TagAgrees(ds: seq<(string, string)>, ps: Props)
    ensures ResolveTag(ds, ps.tag) == if IsKnown(ds, ps) then Some(TagOf(ds, ps)) else None
  {
    if ps.tag.Some? { PrefixAgrees(ds, ps.tag.value.0); }
  }

  lemma ScalarAgrees(anchor: string, tag: string, value: string, style: ScalarStyle)
    ensures ScalarEvent(anchor, tag, value, style) == ScalarOf(anchor, tag, value, style)
  {
  }

  lemma KnownAgrees(d: Document)
    ensures Known(d) == AddDefaults(Tags(d.directives))
  {
    var tags := Tags(d.directives);
    var more := tags + [("!", "!")];
    assert forall i :: 0 <= i < |tags| ==> more[i] == tags[i];
    assert HasHandle(more, "!!") <==> HasHandle(tags, "!!") by { assert more[|tags|] == ("!", "!"); }
  }

  lemma PropsParsed(p: P, ps: Props, t: Token, block: bool, indentless: bool)
    requires At(p, SpellProps(ps) + [t]) && !t.Anchor? && !t.Tag? && !t.AliasToken?
    requires IsKnown(p.directives, ps)
    ensures var q := Move(p, |SpellProps(ps)|);
      HasToken(q) && Peek(q) == t
      && ParseNode(p, block, indentless) == ParseContent(q, ps.anchor, TagOf(p.directives, ps), block, indentless)
  {
    hide ParseContent, ResolveTag, ReadProperties, SpellProps, IsKnown, TagOf;
    TagAgrees(p.directives, ps);
    PropsRead(p, ps, t);
    NotAlias(p, ps, t);
  }

  lemma NotAlias(p: P, ps: Props, t: Token)
    requires At(p, SpellProps(ps) + [t]) && !t.AliasToken?
    ensures HasToken(p) && !Peek(p).AliasToken?
  {
    Cut(p, SpellProps(ps), [t]);
  }

  lemma PropsRead(p: P, ps: Props, t: Token)
    requires At(p, SpellProps(ps) + [t]) && !t.Anchor? && !t.Tag?
    ensures var q := Move(p, |SpellProps(ps)|);
      HasToken(p) && HasToken(q) && Peek(q) == t && ReadProperties(p) == Properties(q, ps.anchor, ps.tag)
  {
    hide At, SpellProps, ReadProperties;
    PropsTokens(p, SpellProps(ps) + [t]);
    PropsShape(ps, t);
    PropsTaken(p, ps, t);
  }

  lemma PropsTokens(p: P, s: seq<Token>)
    requires At(p, s) && s != []
    ensures HasToken(p) && Peek(p) == s[0]
    ensures |s| > 1 ==> HasToken(Skip(p)) && Peek(Skip(p)) == s[1]
    ensures |s| > 2 ==> HasToken(Move(p, 2)) && Peek(Move(p, 2)) == s[2]
  {
    AtIndices(p, s);
    assert p.tokens[p.pos + 0] == s[0];
    if |s| > 1 { assert p.tokens[p.pos + 1] == s[1]; }
    if |s| > 2 { assert p.tokens[p.pos + 2] == s[2]; }
  }

  lemma PropsShape(ps: Props, t: Token)
    ensures var s := SpellProps(ps) + [t];
      s == if ps.anchor == "" && ps.tag.None? then [t]
        else if ps.tag.None? then [Anchor(ps.anchor), t]
        else if ps.anchor == "" then [Tag(ps.tag.value.0, ps.tag.value.1), t]
        else if ps.tagFirst then [Tag(ps.tag.value.0, ps.tag.value.1), Anchor(ps.anchor), t]
        else [Anchor(ps.anchor), Tag(ps.tag.value.0, ps.tag.value.1), t]
  {
  }

  lemma PropsTaken(p: P, ps: Props, t: Token)
    requires !t.Anchor? && !t.Tag?
    requires var s := SpellProps(ps) + [t];
      && HasToken(p) && Peek(p) == s[0]
      && (|s| > 1 ==> HasToken(Skip(p)) && Peek(Skip(p)) == s[1])
      && (|s| > 2 ==> HasToken(Move(p, 2)) && Peek(Move(p, 2)) == s[2])
    ensures var q := Move(p, |SpellProps(ps)|);
      HasToken(q) && Peek(q) == t && ReadProperties(p) == Properties(q, ps.anchor, ps.tag)
  {
    hide SpellProps;
    PropsShape(ps, t);
    assert |SpellProps(ps)| == |SpellProps(ps) + [t]| - 1;
  }

  lemma SlotHead(q: P, slot: Slot, block: bool, indentless: bool, t: Token)
    requires At(q, SpellSlot(slot) + [t]) && SlotAllowed(slot, q.directives, block, indentless)
    ensures HasToken(q) && if slot.Missing? then Peek(q) == t else Starts(Peek(q), indentless)
  {
    hide Spell, Allowed;
    if slot.Present? { FirstToken(slot.node, q.directives, block, indentless); }
    Cut(q, SpellSlot(slot), [t]);
  }

  /** A node, or the empty scalar for it, read by a production that returns to state `s`. */
  lemma {:induction false} SlotRead(p: P, q: P, slot: Slot, s: State, block: bool, indentless: bool, t: Token)
    requires !p.state.EndState? && (indentless ==> block)
    requires At(q, SpellSlot(slot) + [t]) && SlotAllowed(slot, q.directives, block, indentless) && Closes(t, block, indentless)
    requires Next(p) == if slot.Missing? then Emit(EMPTY_SCALAR, q.(state := s)) else ParseNode(Push(q, s), block, indentless)
    ensures Reads(p, Flatten(SlotNode(slot, q.directives))) == Some(Move(q, |SpellSlot(slot)|).(state := s))
    decreases slot, 4
  {
    hide Next, ParseNode, Allowed, Meaning, Spell;
    if slot.Missing? {
      ReadsOne(p, EMPTY_SCALAR);
    } else {
      NodeRead(Push(q, s), slot.node, t, block, indentless);
      assert Init(q.states + [s]) == q.states;
    }
  }

  lemma ReferenceRead(p: P, name: string, t: Token, block: bool, indentless: bool)
    requires p.states != [] && At(p, [AliasToken(name)] + [t])
    ensures Begins(ParseNode(p, block, indentless), [Alias(name)], Finish(p, 1))
  {
    hide ResolveTag, ParseContent, ReadProperties;
    Cut(p, [AliasToken(name)], [t]);
    assert [Alias(name)][1..] == [];
  }

  lemma {:induction false} NodeRead(p: P, n: Tree, t: Token, block: bool, indentless: bool)
    requires p.states != [] && (indentless ==> block)
    requires Allowed(n, p.directives, block, indentless) && At(p, Spell(n) + [t]) && Closes(t, block, indentless)
    ensures Begins(ParseNode(p, block, indentless), Flatten(Meaning(n, p.directives)), Finish(p, |Spell(n)|))
    decreases n, 3
  {
    hide ParseNode, ParseContent, SpellProps, SpellContent, ContentAllowed, IsKnown, Begins, Closes, At;
    if n.Reference? {
      ReferenceRead(p, n.name, t, block, indentless);
    } else {
      hide Meaning, Flatten;
      var rest := SpellContent(n) + [t];
      assert Spell(n) + [t] == SpellProps(n.props) + rest;
      Cut(p, SpellProps(n.props), rest);
      ContentHead(n, p.directives, t, block, indentless);
      PropsParsed(p, n.props, rest[0], block, indentless);
      ContentRead(Move(p, |SpellProps(n.props)|), n, t, block, indentless);
    }
  }

  lemma ContentHead(n: Tree, ds: seq<(string, string)>, t: Token, block: bool, indentless: bool)
    requires !n.Reference? && ContentAllowed(n, ds, block, indentless) && Closes(t, block, indentless)
    ensures var c := (SpellContent(n) + [t])[0]; !c.Anchor? && !c.Tag? && !c.AliasToken?
  {
  }

  predicate IsCollection(n: Tree) { !n.Reference? && !n.Text? && !n.Bare? }

  function OpenState(n: Tree): State
    requires IsCollection(n)
  {
    match n
    case BlockList(_, _) => BlockSequenceFirstEntry
    case FlatList(_, _) => IndentlessSequenceEntry
    case BlockTable(_, _) => BlockMappingFirstKey
    case FlowList(_, _, _) => FlowSequenceFirstEntry
    case FlowTable(_, _, _) => FlowMappingFirstKey
  }

  function Within(n: Node): seq<Event>
    requires !n.Leaf?
  {
    if n.Sequence? then FlattenAll(n.items) + [SequenceEnd] else FlattenAll(n.content) + [MappingEnd]
  }

  lemma LeafRead(q: P, n: Tree, t: Token, block: bool, indentless: bool)
    requires q.states != [] && (n.Text? || n.Bare?)
    requires ContentAllowed(n, q.directives, block, indentless)
    requires At(q, SpellContent(n) + [t]) && Closes(t, block, indentless)
    ensures HasToken(q)
    ensures Begins(ParseContent(q, n.props.anchor, TagOf(q.directives, n.props), block, indentless),
                   Flatten(Meaning(n, q.directives)), Finish(q, |SpellContent(n)|))
  {
    hide ScalarEvent, ScalarOf, TagOf, Reads;
    if n.Text? { ScalarAgrees(n.props.anchor, TagOf(q.directives, n.props), n.value, n.style); }
    Cut(q, SpellContent(n), [t]);
    var m := Meaning(n, q.directives);
    assert Flatten(m) == [m.leaf] && Flatten(m)[1..] == [];
    ReadsNothing(Finish(q, |SpellContent(n)|));
  }

  lemma ContentOpens(q: P, n: Tree, t: Token, block: bool, indentless: bool)
    requires IsCollection(n) && ContentAllowed(n, q.directives, block, indentless) && At(q, SpellContent(n) + [t])
    ensures HasToken(q)
    ensures var o, m := ParseContent(q, n.props.anchor, TagOf(q.directives, n.props), block, indentless), Meaning(n, q.directives);
      !m.Leaf? && Flatten(m)[1..] == Within(m) && o == Emit(Flatten(m)[0], q.(state := OpenState(n)))
  {
    hide TagOf, FlattenAll, Slots, Rows, Entries;
    Cut(q, SpellContent(n), [t]);
    var m := Meaning(n, q.directives);
    assert Flatten(m) == [m.open] + Within(m);
  }

  lemma {:induction false} ContentRead(q: P, n: Tree, t: Token, block: bool, indentless: bool)
    requires q.states != [] && (indentless ==> block) && !n.Reference?
    requires ContentAllowed(n, q.directives, block, indentless)
    requires At(q, SpellContent(n) + [t]) && Closes(t, block, indentless)
    ensures HasToken(q)
    ensures Begins(ParseContent(q, n.props.anchor, TagOf(q.directives, n.props), block, indentless),
                   Flatten(Meaning(n, q.directives)), Finish(q, |SpellContent(n)|))
    decreases n, 2
  {
    hide ParseContent, Spelled, Closes, Flatten, TagOf;
    if !IsCollection(n) {
      LeafRead(q, n, t, block, indentless);
    } else {
      ContentOpens(q, n, t, block, indentless);
      CollectionRead(q.(state := OpenState(n)), n, t, block, indentless);
    }
  }

  lemma {:induction false} CollectionRead(p: P, n: Tree, t: Token, block: bool, indentless: bool)
    requires p.states != [] && IsCollection(n) && p.state == OpenState(n)
    requires ContentAllowed(n, p.directives, block, indentless)
    requires At(p, SpellContent(n) + [t]) && Closes(t, block, indentless)
    ensures Reads(p, Within(Meaning(n, p.directives))) == Some(Finish(p, |SpellContent(n)|))
    decreases n, 1
  {
    hide Reads, SlotAllowed, RowAllowed, EntryAllowed, SpellItems, SpellRows, SpellEntries, Slots, Rows, Entries, FlattenAll, At, TagOf;
    Cut(p, SpellContent(n), [t]);
    match n {
      case BlockList(_, items) => BlockListRead(p, items);
      case FlatList(_, items) => FlatListRead(p, items, t);
      case BlockTable(_, rows) => BlockTableRead(p, rows);
      case FlowList(_, es, trailing) =>
        FlowCut(p, FlowSequenceStart, es, true, trailing);
        FlowRead(p, es, true, trailing);
      case FlowTable(_, es, trailing) =>
        FlowCut(p, FlowMappingStart, es, false, trailing);
        FlowRead(p, es, false, trailing);
    }
  }

  lemma FlowCut(p: P, bracket: Token, es: seq<Entry>, list: bool, trailing: bool)
    requires At(p, [bracket] + SpellEntries(es, true) + Comma(trailing) + [EndToken(list)])
    ensures HasToken(p) && At(Skip(p), SpellEntries(es, true) + FlowTail(trailing, list))
    ensures |[bracket] + SpellEntries(es, true) + Comma(trailing) + [EndToken(list)]| == 1 + |SpellEntries(es, true)| + |FlowTail(trailing, list)|
  {
    hide SpellEntries;
    var rest := SpellEntries(es, true) + FlowTail(trailing, list);
    assert [bracket] + SpellEntries(es, true) + Comma(trailing) + [EndToken(list)] == [bracket] + rest;
    Cut(p, [bracket], rest);
  }

  // ----- Block collections -----

  /** Entering a collection changes nothing about what comes next, except for the mark. */
  lemma SameNext(p: P, p1: P, evs: seq<Event>)
    requires !p.state.EndState? && !p1.state.EndState? && Next(p) == Next(p1) && evs != []
    ensures Reads(p, evs) == Reads(p1, evs)
  {
    hide Next;
  }

  /** The end of a collection. */
  lemma CloseRead(p: P, p1: P, evs: seq<Event>, p2: P, e: Event)
    requires !p.state.EndState? && !p1.state.EndState? && Next(p) == Next(p1)
    requires Reads(p1, evs) == Some(p2) && !p2.state.EndState? && Next(p2).Emit? && Next(p2).event == e
    ensures Reads(p, evs + [e]) == Some(Next(p2).next)
  {
    hide Next;
    ReadsOn(p1, evs, [e]);
    ReadsOne(p2, e);
    SameNext(p, p1, evs + [e]);
  }

  lemma {:induction false} BlockListRead(p: P, items: seq<Slot>)
    requires p.state.BlockSequenceFirstEntry? && p.states != []
    requires forall i :: 0 <= i < |items| ==> SlotAllowed(items[i], p.directives, true, false)
    requires At(p, [BlockSequenceStart] + SpellItems(items) + [BlockEnd])
    ensures Reads(p, FlattenAll(Slots(items, p.directives)) + [SequenceEnd]) == Some(Finish(p, |SpellItems(items)| + 2))
    decreases items, 1
  {
    hide Next, ParseNode, SlotAllowed, SpellItems, Slots, FlattenAll, Reads;
    var p1 := ListEntered(p, items);
    ItemsRead(p1, items, BlockEnd);
    var p2 := Move(p1, |SpellItems(items)|);
    Cut(p1, SpellItems(items), [BlockEnd]);
    assert Init(p.marks + [p.pos]) == p.marks;
    BlockEndNext(p2);
    CloseRead(p, p1, FlattenAll(Slots(items, p.directives)), p2, SequenceEnd);
  }

  /** Behind the start of a block sequence. */
  lemma ListEntered(p: P, items: seq<Slot>) returns (p1: P)
    requires p.state.BlockSequenceFirstEntry? && At(p, [BlockSequenceStart] + SpellItems(items) + [BlockEnd])
    ensures p1 == Enter(p).(state := BlockSequenceEntry) && Next(p) == Next(p1) && At(p1, SpellItems(items) + [BlockEnd])
  {
    hide Next, SpellItems;
    var rest := SpellItems(items) + [BlockEnd];
    assert [BlockSequenceStart] + SpellItems(items) + [BlockEnd] == [BlockSequenceStart] + rest;
    Cut(p, [BlockSequenceStart], rest);
    p1 := Enter(p).(state := BlockSequenceEntry);
    BlockSequenceFirst(p);
  }

  /** A node is parsed alike from whatever state. */
  lemma StateUnread(p: P, s: State, block: bool, indentless: bool)
    ensures ParseNode(p.(state := s), block, indentless) == ParseNode(p, block, indentless)
  {
    hide ResolveTag, ParseContent;
    if HasToken(p) && !Peek(p).AliasToken? {
      match ReadProperties(p) {
        case NoToken =>
        case Properties(q, anchor, rawTag) =>
          assert ReadProperties(p.(state := s)) == Properties(q.(state := s), anchor, rawTag);
          if ResolveTag(q.directives, rawTag).Some? {
            assert q.pos < |q.tokens|;
            ContentStateUnread(q, s, anchor, ResolveTag(q.directives, rawTag).value, block, indentless);
          }
      }
    }
  }

  lemma ContentStateUnread(q: P, s: State, anchor: string, tag: string, block: bool, indentless: bool)
    requires HasToken(q)
    ensures ParseContent(q.(state := s), anchor, tag, block, indentless) == ParseContent(q, anchor, tag, block, indentless)
  {
    hide ParseNoContent, ScalarEvent;
    assert ParseNoContent(q.(state := s), anchor, tag) == ParseNoContent(q, anchor, tag) by { NoContentStateUnread(q, s, anchor, tag); }
  }

  lemma NoContentStateUnread(q: P, s: State, anchor: string, tag: string)
    ensures ParseNoContent(q.(state := s), anchor, tag) == ParseNoContent(q, anchor, tag)
  {
  }

  lemma BlockEndNext(p: P)
    requires (p.state.BlockSequenceEntry? || p.state.BlockMappingKey?) && p.states != [] && p.marks != [] && HasToken(p) && Peek(p).BlockEnd?
    ensures Next(p) == Emit(if p.state.BlockSequenceEntry? then SequenceEnd else MappingEnd, Finish(p, 1).(marks := Init(p.marks)))
  {
    hide ParseNode;
  }

  lemma BlockSequenceFirst(p: P)
    requires p.state.BlockSequenceFirstEntry? && HasToken(p)
    ensures Next(p) == Next(Enter(p).(state := BlockSequenceEntry))
  {
    hide ParseNode;
    StateUnread(Push(Skip(Enter(p)), BlockSequenceEntry), BlockSequenceEntry, true, false);
  }

  lemma {:induction false} FlatListRead(p: P, items: seq<Slot>, t: Token)
    requires p.state.IndentlessSequenceEntry? && p.states != [] && Closes(t, true, true)
    requires forall i :: 0 <= i < |items| ==> SlotAllowed(items[i], p.directives, true, false)
    requires At(p, SpellItems(items) + [t])
    ensures Reads(p, FlattenAll(Slots(items, p.directives)) + [SequenceEnd]) == Some(Finish(p, |SpellItems(items)|))
    decreases items, 1
  {
    hide ParseNode, SlotAllowed, SpellItems, Slots, FlattenAll, Reads;
    Cut(p, SpellItems(items), [t]);
    ItemsRead(p, items, t);
    var p2 := Move(p, |SpellItems(items)|);
    CloseRead(p, p, FlattenAll(Slots(items, p.directives)), p2, SequenceEnd);
  }

  lemma ItemNext(p: P, slot: Slot, t: Token)
    requires p.state.BlockSequenceEntry? || p.state.IndentlessSequenceEntry?
    requires t.BlockEntry? || if p.state.BlockSequenceEntry? then t.BlockEnd? else Closes(t, true, true)
    requires SlotAllowed(slot, p.directives, true, false)
    requires HasToken(p) && Peek(p).BlockEntry? && At(Skip(p), SpellSlot(slot) + [t])
    ensures Next(p) == if slot.Missing? then Emit(EMPTY_SCALAR, Skip(p).(state := p.state)) else ParseNode(Push(Skip(p), p.state), true, false)
  {
    hide ParseNode, SlotAllowed, SpellSlot, At;
    SlotHead(Skip(p), slot, true, false, t);
  }

  lemma {:induction false} ItemsRead(p: P, items: seq<Slot>, t: Token)
    requires p.state.BlockSequenceEntry? || p.state.IndentlessSequenceEntry?
    requires if p.state.BlockSequenceEntry? then t.BlockEnd? else Closes(t, true, true)
    requires forall i :: 0 <= i < |items| ==> SlotAllowed(items[i], p.directives, true, false)
    requires At(p, SpellItems(items) + [t])
    ensures Reads(p, FlattenAll(Slots(items, p.directives))) == Some(Move(p, |SpellItems(items)|))
    decreases items, 0
  {
    hide Next, Reads, SlotAllowed, SpellSlot, SlotNode, Flatten, At, Move;
    if items != [] {
      var slot, rest := items[0], SpellItems(items[1..]) + [t];
      var head := [BlockEntry] + SpellSlot(slot);
      assert SpellItems(items) + [t] == head + rest;
      Cut(p, head, rest);
      ItemRead(p, slot, rest[0]);
      Moved(p, |head|, |SpellItems(items[1..])|);
      ItemsRead(Move(p, |head|), items[1..], t);
      ReadsOn(p, Flatten(SlotNode(slot, p.directives)), FlattenAll(Slots(items[1..], p.directives)));
      assert Slots(items, p.directives)[1..] == Slots(items[1..], p.directives);
    } else {
      ReadsNothing(p);
    }
  }

  lemma {:induction false} ItemRead(p: P, slot: Slot, t: Token)
    requires p.state.BlockSequenceEntry? || p.state.IndentlessSequenceEntry?
    requires t.BlockEntry? || if p.state.BlockSequenceEntry? then t.BlockEnd? else Closes(t, true, true)
    requires SlotAllowed(slot, p.directives, true, false) && At(p, ([BlockEntry] + SpellSlot(slot)) + [t])
    ensures Reads(p, Flatten(SlotNode(slot, p.directives))) == Some(Move(p, 1 + |SpellSlot(slot)|))
    decreases slot, 5
  {
    hide Next, SlotAllowed, SpellSlot, SlotNode, Flatten, ParseNode;
    assert ([BlockEntry] + SpellSlot(slot)) + [t] == [BlockEntry] + (SpellSlot(slot) + [t]);
    Cut(p, [BlockEntry], SpellSlot(slot) + [t]);
    ItemNext(p, slot, t);
    SlotRead(p, Skip(p), slot, p.state, true, false, t);
  }

  // ----- Pairs -----

  /** The state after a value. */
  function AfterValue(s: State): State
    requires s.BlockMappingValue? || s.FlowMappingValue? || s.FlowSequenceEntryMappingValue?
  {
    if s.BlockMappingValue? then BlockMappingKey else if s.FlowMappingValue? then FlowMappingKey else FlowSequenceEntryMappingEnd
  }

  /** What comes after a pair with the value `v`; only behind a value can a further VALUE stand. */
  predicate ClosesPair(t: Token, s: State, v: Option<Slot>) {
    match s
    case BlockMappingValue => t.Key? || t.BlockEnd? || (v.Some? && t.Value?)
    case FlowMappingValue => t.FlowEntry? || t.FlowMappingEnd?
    case FlowSequenceEntryMappingValue => t.FlowEntry? || t.FlowSequenceEnd?
    case _ => false
  }

  lemma PairCloses(t: Token, s: State, v: Option<Slot>)
    requires ClosesPair(t, s, v)
    ensures Closes(t, s.BlockMappingValue?, s.BlockMappingValue?)
  {
  }

  lemma ValueNext(p: P, slot: Slot, t: Token)
    requires ClosesPair(t, p.state, Some(slot)) && SlotAllowed(slot, p.directives, p.state.BlockMappingValue?, p.state.BlockMappingValue?)
    requires HasToken(p) && Peek(p).Value? && At(Skip(p), SpellSlot(slot) + [t])
    ensures var s, block := AfterValue(p.state), p.state.BlockMappingValue?;
      Next(p) == if slot.Missing? then Emit(EMPTY_SCALAR, Skip(p).(state := s)) else ParseNode(Push(Skip(p), s), block, block)
  {
    hide ParseNode, SlotAllowed, SpellSlot, At;
    SlotHead(Skip(p), slot, p.state.BlockMappingValue?, p.state.BlockMappingValue?, t);
  }

  lemma NoValueNext(p: P, t: Token)
    requires ClosesPair(t, p.state, None) && HasToken(p) && Peek(p) == t
    ensures Next(p) == Emit(EMPTY_SCALAR, p.(state := AfterValue(p.state)))
  {
    hide ParseNode;
  }

  lemma NoValueRead(p: P, t: Token)
    requires ClosesPair(t, p.state, None) && At(p, [] + [t])
    ensures Reads(p, Flatten(EMPTY)) == Some(p.(state := AfterValue(p.state)))
  {
    hide Next;
    Cut(p, [], [t]);
    NoValueNext(p, t);
    ReadsOne(p, EMPTY_SCALAR);
  }

  lemma {:induction false} ValueRead(p: P, v: Option<Slot>, t: Token)
    requires ClosesPair(t, p.state, v) && At(p, SpellValue(v) + [t])
    requires v.Some? ==> SlotAllowed(v.value, p.directives, p.state.BlockMappingValue?, p.state.BlockMappingValue?)
    ensures Reads(p, Flatten(ValueNode(v, p.directives))) == Some(Move(p, |SpellValue(v)|).(state := AfterValue(p.state)))
    decreases v, 5
  {
    hide Next, SlotAllowed, SpellSlot, ParseNode, SlotNode, Flatten, Closes;
    match v {
      case None => NoValueRead(p, t);
      case Some(slot) =>
        assert SpellValue(v) + [t] == [Value] + (SpellSlot(slot) + [t]);
        Cut(p, [Value], SpellSlot(slot) + [t]);
        ValueNext(p, slot, t);
        assert Closes(t, p.state.BlockMappingValue?, p.state.BlockMappingValue?) by { PairCloses(t, p.state, v); }
        SlotRead(p, Skip(p), slot, AfterValue(p.state), p.state.BlockMappingValue?, p.state.BlockMappingValue?, t);
    }
  }

  /** Key and value, once `Next(p)` is known to read the key at `q` and go on in the value state `s`. */
  lemma {:induction false} PairRead(p: P, q: P, pair: Pair, s: State, t: Token)
    requires !p.state.EndState? && ClosesPair(t, s, pair.value) && PairAllowed(pair, q.directives, s.BlockMappingValue?)
    requires At(q, SpellSlot(pair.key) + (SpellValue(pair.value) + [t]))
    requires Next(p) == if pair.key.Missing? then Emit(EMPTY_SCALAR, q.(state := s)) else ParseNode(Push(q, s), s.BlockMappingValue?, s.BlockMappingValue?)
    ensures Reads(p, FlattenAll(PairNodes(pair, q.directives)))
      == Some(Move(q, |SpellSlot(pair.key)| + |SpellValue(pair.value)|).(state := AfterValue(s)))
    decreases pair, 6
  {
    hide Next, SlotAllowed, SpellSlot, SpellValue, ParseNode, SlotNode, ValueNode, Flatten;
    var block, rest := s.BlockMappingValue?, SpellValue(pair.value) + [t];
    AfterKey(pair.value, t, s);
    Cut(q, SpellSlot(pair.key), rest);
    SlotRead(p, q, pair.key, s, block, block, rest[0]);
    var p2 := Move(q, |SpellSlot(pair.key)|).(state := s);
    ValueRead(p2, pair.value, t);
    var k, v := SlotNode(pair.key, q.directives), ValueNode(pair.value, q.directives);
    ReadsOn(p, Flatten(k), Flatten(v));
    FlattenTwo(k, v);
  }

  lemma AfterKey(v: Option<Slot>, t: Token, s: State)
    requires ClosesPair(t, s, v)
    ensures var c := (SpellValue(v) + [t])[0]; Closes(c, s.BlockMappingValue?, s.BlockMappingValue?) && (c.Value? || c == t)
  {
  }

  lemma FlattenTwo(k: Node, v: Node)
    ensures FlattenAll([k, v]) == Flatten(k) + Flatten(v)
  {
    hide Flatten;
    FlattenAllAppend([k], v);
    FlattenAllAppend([], k);
    assert [k] + [v] == [k, v] && [] + [k] == [k];
  }

  lemma {:induction false} FlattenAllConcat(a: seq<Node>, b: seq<Node>)
    ensures FlattenAll(a + b) == FlattenAll(a) + FlattenAll(b)
  {
    if a == [] {
      assert a + b == b;
    } else {
      assert (a + b)[1..] == a[1..] + b;
      FlattenAllConcat(a[1..], b);
    }
  }

  // ----- Block mappings -----

  lemma BlockKeyNext(p: P, key: Slot, t: Token)
    requires p.state.BlockMappingKey? && (t.Value? || t.Key? || t.BlockEnd?) && SlotAllowed(key, p.directives, true, true)
    requires HasToken(p) && Peek(p).Key? && At(Skip(p), SpellSlot(key) + [t])
    ensures Next(p) == if key.Missing? then Emit(EMPTY_SCALAR, Skip(p).(state := BlockMappingValue)) else ParseNode(Push(Skip(p), BlockMappingValue), true, true)
  {
    hide ParseNode, SlotAllowed, SpellSlot, At;
    SlotHead(Skip(p), key, true, true, t);
  }

  lemma BlockMappingFirst(p: P)
    requires p.state.BlockMappingFirstKey? && HasToken(p)
    ensures Next(p) == Next(Enter(p).(state := BlockMappingKey))
  {
    hide ParseNode;
    StateUnread(Push(Skip(Enter(p)), BlockMappingValue), BlockMappingKey, true, true);
  }

  lemma {:induction false} BlockTableRead(p: P, rows: seq<Row>)
    requires p.state.BlockMappingFirstKey? && p.states != []
    requires forall i :: 0 <= i < |rows| ==> RowAllowed(rows[i], p.directives) && rows[i].WithKey?
    requires At(p, [BlockMappingStart] + SpellRows(rows) + [BlockEnd])
    ensures Reads(p, FlattenAll(Rows(rows, p.directives)) + [MappingEnd]) == Some(Finish(p, |SpellRows(rows)| + 2))
    decreases rows, 1
  {
    hide Next, ParseNode, RowAllowed, SpellRows, Rows, FlattenAll, Reads;
    var p1 := TableEntered(p, rows);
    RowsRead(p1, rows);
    var p2 := Move(p1, |SpellRows(rows)|);
    Cut(p1, SpellRows(rows), [BlockEnd]);
    assert Init(p.marks + [p.pos]) == p.marks;
    BlockEndNext(p2);
    CloseRead(p, p1, FlattenAll(Rows(rows, p.directives)), p2, MappingEnd);
  }

  /** Behind the start of a block mapping. */
  lemma TableEntered(p: P, rows: seq<Row>) returns (p1: P)
    requires p.state.BlockMappingFirstKey? && At(p, [BlockMappingStart] + SpellRows(rows) + [BlockEnd])
    ensures p1 == Enter(p).(state := BlockMappingKey) && Next(p) == Next(p1) && At(p1, SpellRows(rows) + [BlockEnd])
  {
    hide Next, SpellRows;
    var rest := SpellRows(rows) + [BlockEnd];
    assert [BlockMappingStart] + SpellRows(rows) + [BlockEnd] == [BlockMappingStart] + rest;
    Cut(p, [BlockMappingStart], rest);
    p1 := Enter(p).(state := BlockMappingKey);
    BlockMappingFirst(p);
  }

  lemma {:induction false} RowsRead(p: P, rows: seq<Row>)
    requires p.state.BlockMappingKey? && At(p, SpellRows(rows) + [BlockEnd])
    requires forall i :: 0 <= i < |rows| ==> RowAllowed(rows[i], p.directives) && rows[i].WithKey?
    ensures Reads(p, FlattenAll(Rows(rows, p.directives))) == Some(Move(p, |SpellRows(rows)|))
    decreases rows, 0
  {
    hide Next, Reads, PairAllowed, SpellPair, PairNodes, At, Move;
    if rows != [] {
      var pair, rest := rows[0].pair, SpellRows(rows[1..]) + [BlockEnd];
      assert SpellRows(rows) + [BlockEnd] == SpellPair(pair) + rest;
      Cut(p, SpellPair(pair), rest);
      RowsHead(rows[1..]);
      RowRead(p, rows[0], rest[0]);
      Moved(p, |SpellPair(pair)|, |SpellRows(rows[1..])|);
      RowsRead(Move(p, |SpellPair(pair)|), rows[1..]);
      ReadsOn(p, FlattenAll(PairNodes(pair, p.directives)), FlattenAll(Rows(rows[1..], p.directives)));
      FlattenAllConcat(PairNodes(pair, p.directives), Rows(rows[1..], p.directives));
    } else {
      ReadsNothing(p);
    }
  }

  lemma {:induction false} RowRead(p: P, r: Row, t: Token)
    requires p.state.BlockMappingKey? && r.WithKey? && ClosesPair(t, BlockMappingValue, r.pair.value) && RowAllowed(r, p.directives)
    requires At(p, SpellRow(r) + [t])
    ensures Reads(p, FlattenAll(RowNodes(r, p.directives))) == Some(Move(p, |SpellRow(r)|))
    decreases r, 8
  {
    hide Next, PairAllowed, SpellPair, PairNodes, FlattenAll, Reads;
    BlockPairRead(p, r.pair, t);
  }

  lemma Moved(p: P, j: nat, k: nat)
    ensures Move(Move(p, j), k) == Move(p, j + k) && Move(p, j).state == p.state && Move(p, j).directives == p.directives
  {
  }

  lemma ReadsNothing(p: P)
    ensures Reads(p, []) == Some(Move(p, 0))
  {
  }

  lemma {:induction false} BlockPairRead(p: P, pair: Pair, t: Token)
    requires p.state.BlockMappingKey? && ClosesPair(t, BlockMappingValue, pair.value) && PairAllowed(pair, p.directives, true)
    requires At(p, SpellPair(pair) + [t])
    ensures Reads(p, FlattenAll(PairNodes(pair, p.directives))) == Some(Move(p, |SpellPair(pair)|))
    decreases pair, 7
  {
    hide Next, PairAllowed, SpellSlot, SpellValue, PairNodes, ParseNode, FlattenAll;
    var inner := SpellSlot(pair.key) + (SpellValue(pair.value) + [t]);
    assert SpellPair(pair) + [t] == [Key] + inner;
    Cut(p, [Key], inner);
    PairNext(p, pair, t);
    PairRead(p, Skip(p), pair, BlockMappingValue, t);
  }

  lemma RowsHead(rows: seq<Row>)
    ensures var c := (SpellRows(rows) + [BlockEnd])[0];
      if rows == [] then c.BlockEnd? else if rows[0].WithKey? then c.Key? else c.Value?
  {
    hide SpellRow;
    if rows != [] {
      RowHead(rows[0]);
      assert (SpellRows(rows) + [BlockEnd])[0] == SpellRow(rows[0])[0];
    }
  }

  lemma RowHead(r: Row)
    ensures SpellRow(r) != [] && SpellRow(r)[0] == if r.WithKey? then Key else Value
  {
    hide SpellSlot, SpellValue;
  }

  lemma PairNext(p: P, pair: Pair, t: Token)
    requires p.state.BlockMappingKey? && ClosesPair(t, BlockMappingValue, pair.value) && PairAllowed(pair, p.directives, true)
    requires HasToken(p) && Peek(p).Key? && At(Skip(p), SpellSlot(pair.key) + (SpellValue(pair.value) + [t]))
    ensures Next(p) == if pair.key.Missing? then Emit(EMPTY_SCALAR, Skip(p).(state := BlockMappingValue)) else ParseNode(Push(Skip(p), BlockMappingValue), true, true)
  {
    hide Next, SlotAllowed, SpellSlot, SpellValue, ParseNode;
    AfterKey(pair.value, t, BlockMappingValue);
    Cut(Skip(p), SpellSlot(pair.key), SpellValue(pair.value) + [t]);
    BlockKeyNext(p, pair.key, (SpellValue(pair.value) + [t])[0]);
  }

  // ----- Flow collections -----

  predicate InFlowSequence(s: State) { s.FlowSequenceFirstEntry? || s.FlowSequenceEntry? }

  function EntryState(list: bool): State { if list then FlowSequenceEntry else FlowMappingKey }

  function FirstState(list: bool): State { if list then FlowSequenceFirstEntry else FlowMappingFirstKey }

  function EndToken(list: bool): Token { if list then FlowSequenceEnd else FlowMappingEnd }

  function EndEvent(list: bool): Event { if list then SequenceEnd else MappingEnd }

  /** `q` is where the entry read by `p` begins: after the bracket, or after a comma. */
  predicate EntryAt(p: P, q: P, list: bool) {
    && HasToken(p) && HasToken(q) && Peek(q) != EndToken(list)
    && if p.state == FirstState(list) then q == Enter(p) else p.state == EntryState(list) && Peek(p).FlowEntry? && q == Skip(p)
  }

  lemma EntryNext(p: P, q: P, list: bool)
    requires EntryAt(p, q, list)
    ensures Next(p) ==
      if !list then ParseFlowMappingItem(q)
      else if Peek(q).Key? then Emit(MappingStart("", "", true, Flow), Skip(q).(state := FlowSequenceEntryMappingKey))
      else ParseNode(Push(q, FlowSequenceEntry), false, false)
  {
    hide ParseNode;
    if list && p.state.FlowSequenceFirstEntry? {
      assert Next(p) == ParseFlowSequenceEntry(p, true);
    }
  }

  /** A node read by a production that returns to state `s`. */
  lemma {:induction false} LoneRead(p: P, q: P, n: Tree, s: State, t: Token)
    requires !p.state.EndState? && At(q, Spell(n) + [t]) && Allowed(n, q.directives, false, false) && Closes(t, false, false)
    requires Next(p) == ParseNode(Push(q, s), false, false)
    ensures Reads(p, Flatten(Meaning(n, q.directives))) == Some(Move(q, |Spell(n)|).(state := s))
    decreases n, 4
  {
    hide Next, ParseNode, Allowed, Meaning, Spell;
    NodeRead(Push(q, s), n, t, false, false);
    assert Init(q.states + [s]) == q.states;
  }

  lemma {:induction false} EntryRead(p: P, q: P, e: Entry, list: bool, t: Token)
    requires EntryAt(p, q, list) && (t.FlowEntry? || t == EndToken(list))
    requires At(q, SpellEntry(e) + [t]) && EntryAllowed(e, q.directives) && (list ==> !Keyless(e))
    ensures Reads(p, FlattenAll(EntryNodes(e, list, q.directives))) == Some(Move(q, |SpellEntry(e)|).(state := EntryState(list)))
    decreases e, 8
  {
    hide Next, ParseNode, Allowed, PairAllowed, Meaning, PairNodes, Spell, SpellPair, Flatten, FlattenAll, At;
    match e {
      case Single(n) => SingleRead(p, q, n, list, t);
      case Keyed(pair) => if list { ListedPairRead(p, q, pair, t); } else { TabledPairRead(p, q, pair, t); }
    }
  }

  lemma {:induction false} SingleRead(p: P, q: P, n: Tree, list: bool, t: Token)
    requires EntryAt(p, q, list) && (t.FlowEntry? || t == EndToken(list))
    requires At(q, Spell(n) + [t]) && Allowed(n, q.directives, false, false)
    ensures Reads(p, FlattenAll(EntryNodes(Single(n), list, q.directives))) == Some(Move(q, |Spell(n)|).(state := EntryState(list)))
    decreases n, 7
  {
    hide Next, ParseNode, Allowed, Meaning, Spell, Flatten, FlattenAll;
    Cut(q, Spell(n), [t]);
    FirstToken(n, q.directives, false, false);
    EntryNext(p, q, list);
    var m := Meaning(n, q.directives);
    if list {
      LoneRead(p, q, n, FlowSequenceEntry, t);
      FlattenOne(m);
    } else {
      LoneRead(p, q, n, FlowMappingEmptyValue, t);
      EmptyValue(Move(q, |Spell(n)|).(state := FlowMappingEmptyValue));
      ReadsOn(p, Flatten(m), Flatten(EMPTY));
      FlattenTwo(m, EMPTY);
    }
  }

  lemma EmptyValue(p: P)
    requires p.state.FlowMappingEmptyValue? && HasToken(p)
    ensures Reads(p, Flatten(EMPTY)) == Some(p.(state := FlowMappingKey))
  {
    hide ParseNode;
    assert Next(p) == Emit(EMPTY_SCALAR, p.(state := FlowMappingKey));
    hide Next;
    ReadsOne(p, EMPTY_SCALAR);
  }

  lemma FlattenOne(m: Node)
    ensures FlattenAll([m]) == Flatten(m)
  {
    hide Flatten;
    FlattenAllAppend([], m);
    assert [] + [m] == [m];
  }

  lemma PairCut(q: P, pair: Pair, t: Token)
    requires At(q, SpellPair(pair) + [t])
    ensures HasToken(q) && Peek(q).Key? && At(Skip(q), SpellSlot(pair.key) + (SpellValue(pair.value) + [t]))
    ensures At(Move(q, |SpellPair(pair)|), [t])
  {
    hide SpellSlot, SpellValue;
    var rest := SpellSlot(pair.key) + (SpellValue(pair.value) + [t]);
    assert SpellPair(pair) + [t] == [Key] + rest;
    Cut(q, [Key], rest);
    Cut(q, SpellPair(pair), [t]);
  }

  lemma {:induction false} TabledPairRead(p: P, q: P, pair: Pair, t: Token)
    requires EntryAt(p, q, false) && (t.FlowEntry? || t.FlowMappingEnd?)
    requires At(q, SpellPair(pair) + [t]) && PairAllowed(pair, q.directives, false)
    ensures Reads(p, FlattenAll(PairNodes(pair, q.directives))) == Some(Move(q, |SpellPair(pair)|).(state := FlowMappingKey))
    decreases pair, 7
  {
    hide Next, ParseNode, SlotAllowed, SpellSlot, SpellValue, PairNodes, FlattenAll, At;
    PairCut(q, pair, t);
    EntryNext(p, q, false);
    FlowKeyNext(q, pair, FlowMappingValue, t);
    PairRead(p, Skip(q), pair, FlowMappingValue, t);
  }

  lemma FlowKeyNext(q: P, pair: Pair, s: State, t: Token)
    requires HasToken(q) && Peek(q).Key? && PairAllowed(pair, q.directives, false)
    requires s.FlowMappingValue? && ClosesPair(t, s, pair.value)
    requires At(Skip(q), SpellSlot(pair.key) + (SpellValue(pair.value) + [t]))
    ensures ParseFlowMappingItem(q) == if pair.key.Missing? then Emit(EMPTY_SCALAR, Skip(q).(state := s)) else ParseNode(Push(Skip(q), s), false, false)
  {
    hide ParseNode, SlotAllowed, SpellSlot, SpellValue;
    AfterKey(pair.value, t, s);
    Cut(Skip(q), SpellSlot(pair.key), SpellValue(pair.value) + [t]);
    SlotHead(Skip(q), pair.key, false, false, (SpellValue(pair.value) + [t])[0]);
  }

  lemma {:induction false} ListedPairRead(p: P, q: P, pair: Pair, t: Token)
    requires EntryAt(p, q, true) && (t.FlowEntry? || t.FlowSequenceEnd?)
    requires At(q, SpellPair(pair) + [t]) && PairAllowed(pair, q.directives, false) && !Keyless(Keyed(pair))
    ensures Reads(p, FlattenAll(EntryNodes(Keyed(pair), true, q.directives))) == Some(Move(q, |SpellPair(pair)|).(state := FlowSequenceEntry))
    decreases pair, 8
  {
    hide Next, ParseNode, PairAllowed, SpellSlot, SpellValue, PairNodes, Flatten, FlattenAll;
    PairCut(q, pair, t);
    EntryNext(p, q, true);
    var p1 := Skip(q).(state := FlowSequenceEntryMappingKey);
    if pair.key.Present? {
      FlowPairRead(p1, pair, t, |SpellPair(pair)| - 1);
    } else {
      ValueAloneRead(p1, t);
    }
    FlattenPair(pair, q.directives);
    var evs := FlattenAll(PairNodes(pair, q.directives)) + [MappingEnd];
    assert ([MappingStart("", "", true, Flow)] + evs)[1..] == evs;
  }

  lemma FlattenPair(pair: Pair, ds: seq<(string, string)>)
    ensures FlattenAll(EntryNodes(Keyed(pair), true, ds)) == [MappingStart("", "", true, Flow)] + (FlattenAll(PairNodes(pair, ds)) + [MappingEnd])
  {
    hide PairNodes;
    FlattenOne(Mapping(MappingStart("", "", true, Flow), PairNodes(pair, ds)));
  }

  /** A pair of a flow sequence, after its KEY; it must have a key. */
  lemma {:induction false} FlowPairRead(p: P, pair: Pair, t: Token, k: nat)
    requires p.state.FlowSequenceEntryMappingKey? && (t.FlowEntry? || t.FlowSequenceEnd?)
    requires PairAllowed(pair, p.directives, false) && pair.key.Present? && k == |SpellSlot(pair.key)| + |SpellValue(pair.value)|
    requires At(p, SpellSlot(pair.key) + (SpellValue(pair.value) + [t])) && At(Move(p, k), [t])
    ensures Reads(p, FlattenAll(PairNodes(pair, p.directives)) + [MappingEnd]) == Some(Move(p, k).(state := FlowSequenceEntry))
    decreases pair, 7
  {
    hide Next, ParseNode, SlotAllowed, SpellSlot, SpellValue, PairNodes, FlattenAll;
    AfterKey(pair.value, t, FlowSequenceEntryMappingValue);
    Cut(p, SpellSlot(pair.key), SpellValue(pair.value) + [t]);
    FlowPairKeyNext(p, pair.key, (SpellValue(pair.value) + [t])[0]);
    PairRead(p, p, pair, FlowSequenceEntryMappingValue, t);
    ReadsOn(p, FlattenAll(PairNodes(pair, p.directives)), [MappingEnd]);
    PairEnds(Move(p, k).(state := FlowSequenceEntryMappingEnd));
  }

  /** A value indicator alone: both nodes are empty. */
  lemma ValueAloneRead(p: P, t: Token)
    requires p.state.FlowSequenceEntryMappingKey? && (t.FlowEntry? || t.FlowSequenceEnd?)
    requires At(p, SpellSlot(Missing) + (SpellValue(Some(Missing)) + [t]))
    ensures Reads(p, FlattenAll(PairNodes(Pair(Missing, Some(Missing)), p.directives)) + [MappingEnd])
      == Some(Move(p, |SpellPair(Pair(Missing, Some(Missing)))| - 1).(state := FlowSequenceEntry))
  {
    hide Next, Flatten, FlattenAll, Reads;
    var q := Skip(p).(state := FlowSequenceEntryMappingValue);
    assert SpellSlot(Missing) + (SpellValue(Some(Missing)) + [t]) == [Value] + [t];
    Cut(p, [Value], [t]);
    Cut(Skip(p), [], [t]);
    KeylessNext(p);
    KeylessEvents(p, q, EMPTY);
    UnvaluedRead(q, EMPTY);
  }

  lemma FlowPairKeyNext(p: P, key: Slot, t: Token)
    requires p.state.FlowSequenceEntryMappingKey? && key.Present? && SlotAllowed(key, p.directives, false, false)
    requires At(p, SpellSlot(key) + [t])
    ensures Next(p) == ParseNode(Push(p, FlowSequenceEntryMappingValue), false, false)
  {
    hide ParseNode, SlotAllowed, SpellSlot, At;
    SlotHead(p, key, false, false, t);
  }

  lemma PairEnds(p: P)
    requires p.state.FlowSequenceEntryMappingEnd? && HasToken(p)
    ensures Reads(p, [MappingEnd]) == Some(p.(state := FlowSequenceEntry))
  {
    assert [MappingEnd][1..] == [];
  }

  /** What follows the entries. */
  function FlowTail(trailing: bool, list: bool): seq<Token> { Comma(trailing) + [EndToken(list)] }

  lemma EntriesHead(es: seq<Entry>, trailing: bool, list: bool)
    ensures var c := (SpellEntries(es, false) + FlowTail(trailing, list))[0]; c.FlowEntry? || c == EndToken(list)
  {
    hide SpellEntry;
  }

  function Leave(p: P, k: nat): P
    requires p.states != [] && p.marks != []
  {
    Finish(p, k).(marks := Init(p.marks))
  }

  lemma FlowEnds(p: P, trailing: bool, list: bool)
    requires p.state == EntryState(list) && p.states != [] && p.marks != [] && At(p, FlowTail(trailing, list))
    ensures Reads(p, [EndEvent(list)]) == Some(Leave(p, |FlowTail(trailing, list)|))
  {
    hide Next;
    if trailing {
      Cut(p, [FlowEntry], [EndToken(list)]);
      Cut(Skip(p), [], [EndToken(list)]);
    } else {
      assert FlowTail(trailing, list) == [] + [EndToken(list)];
      Cut(p, [], [EndToken(list)]);
    }
    FlowEndsNext(p, trailing, list);
    ReadsOne(p, EndEvent(list));
  }

  lemma FlowEndsNext(p: P, trailing: bool, list: bool)
    requires p.state == EntryState(list) && p.states != [] && p.marks != [] && HasToken(p)
    requires if trailing then Peek(p).FlowEntry? && HasToken(Skip(p)) && Peek(Skip(p)) == EndToken(list) else Peek(p) == EndToken(list)
    ensures Next(p) == Emit(EndEvent(list), Leave(p, if trailing then 2 else 1))
  {
    hide ParseNode;
  }

  lemma {:induction false} EntriesRead(p: P, es: seq<Entry>, list: bool, trailing: bool)
    requires p.state == EntryState(list) && p.states != [] && p.marks != []
    requires forall i :: 0 <= i < |es| ==> EntryAllowed(es[i], p.directives) && (list ==> !Keyless(es[i]))
    requires At(p, SpellEntries(es, false) + FlowTail(trailing, list))
    ensures Reads(p, FlattenAll(Entries(es, list, p.directives)) + [EndEvent(list)])
      == Some(Leave(p, |SpellEntries(es, false)| + |FlowTail(trailing, list)|))
    decreases es, 11
  {
    hide Next, EntryAllowed, SpellEntry, EntryNodes, FlattenAll, FlowTail, Reads, Leave, At;
    if es == [] {
      assert SpellEntries(es, false) + FlowTail(trailing, list) == FlowTail(trailing, list);
      FlowEnds(p, trailing, list);
      NoEntries(list, p.directives);
    } else {
      var rest := SpellEntry(es[0]) + (SpellEntries(es[1..], false) + FlowTail(trailing, list));
      assert SpellEntries(es, false) + FlowTail(trailing, list) == [FlowEntry] + rest;
      Cut(p, [FlowEntry], rest);
      EntriesOn(p, Skip(p), es, list, trailing);
      Left(p, Skip(p), 1, |rest|);
    }
  }

  lemma NoEntries(list: bool, ds: seq<(string, string)>)
    ensures FlattenAll(Entries([], list, ds)) + [EndEvent(list)] == [EndEvent(list)]
  {
  }

  lemma Left(p: P, q: P, j: nat, k: nat)
    requires p.states != [] && p.marks != [] && q == Move(p, j)
    ensures Leave(q, k) == Leave(p, j + k)
  {
  }

  /** The entries from `es[0]` on, which begins at `q`. */
  lemma {:induction false} EntriesOn(p: P, q: P, es: seq<Entry>, list: bool, trailing: bool)
    requires es != [] && p.states != [] && q.states == p.states && q.marks != [] && q.directives == p.directives
    requires HasToken(p) && if p.state == FirstState(list) then q == Enter(p) else p.state == EntryState(list) && Peek(p).FlowEntry? && q == Skip(p)
    requires forall i :: 0 <= i < |es| ==> EntryAllowed(es[i], p.directives) && (list ==> !Keyless(es[i]))
    requires At(q, SpellEntry(es[0]) + (SpellEntries(es[1..], false) + FlowTail(trailing, list)))
    ensures Reads(p, FlattenAll(Entries(es, list, p.directives)) + [EndEvent(list)])
      == Some(Leave(q, |SpellEntry(es[0])| + |SpellEntries(es[1..], false)| + |FlowTail(trailing, list)|))
    decreases es, 10
  {
    hide Next, EntryAllowed, SpellEntry, SpellEntries, EntryNodes, Flatten, FlattenAll, Reads, At, Leave;
    var ds, rest := p.directives, SpellEntries(es[1..], false) + FlowTail(trailing, list);
    Cut(q, SpellEntry(es[0]), rest);
    EntriesHead(es[1..], trailing, list);
    EntryHead(q, es[0], list, rest[0]);
    EntryRead(p, q, es[0], list, rest[0]);
    var p2 := Move(q, |SpellEntry(es[0])|).(state := EntryState(list));
    SameAt(Move(q, |SpellEntry(es[0])|), p2, rest);
    EntriesRead(p2, es[1..], list, trailing);
    var a, b := FlattenAll(EntryNodes(es[0], list, ds)), FlattenAll(Entries(es[1..], list, ds));
    ReadsOn(p, a, b + [EndEvent(list)]);
    FlattenAllConcat(EntryNodes(es[0], list, ds), Entries(es[1..], list, ds));
    assert (a + b) + [EndEvent(list)] == a + (b + [EndEvent(list)]);
    LeftState(p2, q, |SpellEntry(es[0])|, |rest|);
  }

  lemma LeftState(p: P, q: P, j: nat, k: nat)
    requires q.states != [] && q.marks != [] && p == Move(q, j).(state := p.state)
    ensures Leave(p, k) == Leave(q, j + k)
  {
  }

  lemma SameAt(p: P, q: P, s: seq<Token>)
    requires At(p, s) && q.tokens == p.tokens && q.pos == p.pos
    ensures At(q, s)
  {
  }

  lemma EntryHead(q: P, e: Entry, list: bool, t: Token)
    requires At(q, SpellEntry(e) + [t]) && EntryAllowed(e, q.directives)
    ensures HasToken(q) && Peek(q) != EndToken(list)
  {
    hide Spell, SpellPair, Allowed, PairAllowed;
    Cut(q, SpellEntry(e), [t]);
    match e {
      case Single(n) => FirstToken(n, q.directives, false, false);
      case Keyed(pair) => PairCut(q, pair, t);
    }
  }

  lemma {:induction false} FlowRead(p: P, es: seq<Entry>, list: bool, trailing: bool)
    requires p.state == FirstState(list) && p.states != [] && (trailing ==> es != [])
    requires forall i :: 0 <= i < |es| ==> EntryAllowed(es[i], p.directives) && (list ==> !Keyless(es[i]))
    requires HasToken(p) && At(Skip(p), SpellEntries(es, true) + FlowTail(trailing, list))
    ensures Reads(p, FlattenAll(Entries(es, list, p.directives)) + [EndEvent(list)])
      == Some(Finish(p, 1 + |SpellEntries(es, true)| + |FlowTail(trailing, list)|))
    decreases es, 11
  {
    hide Next, EntryAllowed, SpellEntry, EntryNodes, Flatten, FlowTail, Reads, At;
    assert Init(p.marks + [p.pos]) == p.marks;
    if es == [] {
      assert SpellEntries(es, true) + FlowTail(trailing, list) == FlowTail(false, list);
      EmptyFlow(p, list);
      NoEntries(list, p.directives);
    } else {
      var rest := SpellEntry(es[0]) + (SpellEntries(es[1..], false) + FlowTail(trailing, list));
      assert SpellEntries(es, true) + FlowTail(trailing, list) == rest;
      SameAt(Skip(p), Enter(p), rest);
      EntriesOn(p, Enter(p), es, list, trailing);
    }
  }

  lemma EmptyFlow(p: P, list: bool)
    requires p.state == FirstState(list) && p.states != [] && HasToken(p) && At(Skip(p), FlowTail(false, list))
    ensures Reads(p, [EndEvent(list)]) == Some(Finish(p, 1 + |FlowTail(false, list)|))
  {
    hide ParseNode;
    assert [EndEvent(list)][1..] == [];
    assert Init(p.marks + [p.pos]) == p.marks;
    assert FlowTail(false, list) == [] + [EndToken(list)];
    Cut(Skip(p), [], [EndToken(list)]);
  }

  // ----- Documents -----

  predicate Between(p: P, first: bool) {
    p.states == [] && p.marks == [] && p.directives == [] && p.state == if first then ImplicitDocumentStart else DocumentStartState
  }

  lemma DocumentsHead(docs: seq<Document>, k: nat)
    requires forall i :: 0 <= i < |docs| ==> DocumentAllowed(docs[i], false)
    ensures SpellDocuments(docs) != []
    ensures var c := (Dots(k) + SpellDocuments(docs))[0]; OutsideDocument(c) && (k == 0 ==> !c.DocumentEndToken?)
  {
    FirstOfDocuments(docs);
    hide SpellDocuments, DocumentAllowed;
    if k > 0 {
      assert (Dots(k) + SpellDocuments(docs))[0] == Dots(k)[0];
    } else {
      assert Dots(k) + SpellDocuments(docs) == SpellDocuments(docs);
    }
  }

  lemma FirstOfDocuments(docs: seq<Document>)
    requires forall i :: 0 <= i < |docs| ==> DocumentAllowed(docs[i], false)
    ensures SpellDocuments(docs) != []
    ensures var c := SpellDocuments(docs)[0]; OutsideDocument(c) && !c.DocumentEndToken?
  {
    hide SpellSlot, SlotAllowed, Known, SpellHeader, Dots;
    if docs != [] {
      assert DocumentAllowed(docs[0], false);
      HeaderHead(docs[0]);
      assert SpellDocuments(docs)[0] == SpellHeader(docs[0])[0];
    }
  }

  lemma HeaderHead(d: Document)
    requires d.explicit
    ensures SpellHeader(d) != []
    ensures var c := SpellHeader(d)[0]; c.VersionDirective? || c.TagDirective? || c.DocumentStartToken?
  {
  }

  lemma {:induction false} DotsSkipped(p: P, k: nat, t: Token)
    requires At(p, Dots(k) + [t]) && !t.DocumentEndToken?
    ensures SkipDocumentEnds(p) == Move(p, k) && HasToken(Move(p, k)) && Peek(Move(p, k)) == t
    decreases k
  {
    Cut(p, Dots(k), [t]);
    if k > 0 {
      assert Dots(k) + [t] == [DocumentEndToken] + (Dots(k - 1) + [t]);
      Cut(p, [DocumentEndToken], Dots(k - 1) + [t]);
      DotsSkipped(Skip(p), k - 1, t);
    }
  }

  lemma {:induction false} DirectivesProcessed(p: P, version: bool, acc: seq<(string, string)>, ds: seq<Directive>)
    requires At(p, SpellDirectives(ds) + [DocumentStartToken])
    requires Distinct(p.directives + Tags(ds)) && Versions(ds) <= (if version then 0 else 1)
    ensures ProcessDirectives(p, version, acc)
      == Directives(Move(p, |SpellDirectives(ds)|).(directives := AddDefaults(p.directives + Tags(ds))), version || Versions(ds) > 0, acc + Tags(ds))
    decreases |ds|
  {
    hide AddDefaults, Distinct;
    Cut(p, SpellDirectives(ds), [DocumentStartToken]);
    if ds == [] {
      assert p.directives + Tags(ds) == p.directives && acc + Tags(ds) == acc;
    } else {
      var rest := SpellDirectives(ds[1..]) + [DocumentStartToken];
      assert SpellDirectives(ds) + [DocumentStartToken] == [SpellDirective(ds[0])] + rest;
      Cut(p, [SpellDirective(ds[0])], rest);
      match ds[0] {
        case Version =>
          assert Tags(ds) == Tags(ds[1..]);
          DirectivesProcessed(Skip(p), true, acc, ds[1..]);
        case TagDefinition(handle, prefix) =>
          var more := Tags(ds[1..]);
          NewHandle(p.directives, (handle, prefix), more);
          assert acc + Tags(ds) == (acc + [(handle, prefix)]) + more;
          DirectivesProcessed(Skip(p).(directives := p.directives + [(handle, prefix)]), version, acc + [(handle, prefix)], ds[1..]);
      }
    }
  }

  lemma NewHandle(known: seq<(string, string)>, tag: (string, string), more: seq<(string, string)>)
    requires Distinct(known + ([tag] + more))
    ensures !HasHandle(known, tag.0) && known + ([tag] + more) == (known + [tag]) + more
  {
    var all := known + ([tag] + more);
    assert all[|known|] == tag && forall i :: 0 <= i < |known| ==> all[i] == known[i];
  }

  lemma HeaderProcessed(p: P, d: Document, first: bool)
    requires d.explicit && DocumentAllowed(d, first) && p.directives == [] && At(p, SpellHeader(d))
    ensures var q := Move(p, |SpellHeader(d)| - 1).(directives := Known(d));
      ProcessDirectives(p, false, []) == Directives(q, Versions(d.directives) > 0, Tags(d.directives)) && HasToken(q) && Peek(q).DocumentStartToken?
  {
    hide AddDefaults, Known, SlotAllowed, SpellDirectives, ProcessDirectives, Distinct;
    KnownAgrees(d);
    assert [] + Tags(d.directives) == Tags(d.directives);
    DirectivesProcessed(p, false, [], d.directives);
    Cut(p, SpellDirectives(d.directives), [DocumentStartToken]);
  }

  /** The parser inside a document, about to read its root. */
  function Inside(p: P, d: Document, k: nat): P {
    Move(p, k).(directives := Known(d), states := [DocumentEndState], state := if d.explicit then DocumentContent else BlockNode)
  }

  lemma ExplicitStart(p: P, d: Document, first: bool, k: nat)
    requires d.explicit && DocumentAllowed(d, first) && Between(p, first) && (first ==> k == 0)
    requires At(p, Dots(k) + SpellHeader(d))
    ensures Next(p) == Emit(StartOf(d), Inside(p, d, k + |SpellHeader(d)|))
  {
    hide Known, SlotAllowed, ProcessDirectives, SpellHeader, At;
    HeaderHead(d);
    Cut(p, Dots(k), SpellHeader(d));
    DotsSkipped(p, k, SpellHeader(d)[0]);
    HeaderProcessed(Move(p, k), d, first);
    assert p.states + [DocumentEndState] == [DocumentEndState];
  }

  lemma ImplicitStart(p: P, d: Document, t: Token)
    requires !d.explicit && DocumentAllowed(d, true) && Between(p, true) && At(p, SpellSlot(d.root) + [t])
    ensures Next(p) == Emit(StartOf(d), Inside(p, d, 0))
  {
    hide SlotAllowed, SpellSlot, At, Known, AddDefaults;
    KnownAgrees(d);
    assert Tags(d.directives) == [];
    SameAt(p, p.(directives := AddDefaults([])), SpellSlot(d.root) + [t]);
    SlotHead(p.(directives := AddDefaults([])), d.root, true, false, t);
    assert p.states + [DocumentEndState] == [DocumentEndState];
  }

  lemma RootRead(p: P, d: Document, t: Token)
    requires p.states == [DocumentEndState] && p.state == (if d.explicit then DocumentContent else BlockNode)
    requires SlotAllowed(d.root, p.directives, true, false) && At(p, SpellSlot(d.root) + [t]) && OutsideDocument(t)
    requires d.explicit || d.root.Present?
    ensures Reads(p, Flatten(SlotNode(d.root, p.directives))) == Some(Move(p, |SpellSlot(d.root)|).(state := DocumentEndState, states := []))
  {
    hide Next, Reads, Meaning, Allowed, Spell, At;
    SlotHead(p, d.root, true, false, t);
    assert Init([DocumentEndState]) == [];
    if d.root.Present? {
      RootNode(p, d.root.node, t);
    } else {
      EmptyRoot(p, t);
      ReadsOne(p, EMPTY_SCALAR);
      assert Flatten(EMPTY) == [EMPTY_SCALAR];
    }
  }

  lemma EmptyRoot(p: P, t: Token)
    requires p.states == [DocumentEndState] && p.state.DocumentContent? && HasToken(p) && Peek(p) == t && OutsideDocument(t)
    ensures Next(p) == Emit(EMPTY_SCALAR, p.(state := DocumentEndState, states := []))
  {
    assert Init([DocumentEndState]) == [];
  }

  lemma RootNode(p: P, n: Tree, t: Token)
    requires p.states == [DocumentEndState] && (p.state.DocumentContent? || p.state.BlockNode?)
    requires Allowed(n, p.directives, true, false) && At(p, Spell(n) + [t]) && OutsideDocument(t)
    requires HasToken(p) && Starts(Peek(p), false)
    ensures Reads(p, Flatten(Meaning(n, p.directives))) == Some(Finish(p, |Spell(n)|))
  {
    hide ParseNode, Allowed, Spell, Meaning;
    NodeRead(p, n, t, true, false);
    assert Next(p) == ParseNode(p, true, false);
  }

  lemma EndRead(p: P, k: nat, t: Token)
    requires p.state.DocumentEndState? && At(p, Dots(k) + [t]) && !t.DocumentEndToken?
    ensures Next(p) == Emit(DocumentEnd(k == 0), Move(p, if k == 0 then 0 else 1).(directives := [], state := DocumentStartState))
    ensures k > 0 ==> At(Move(p, 1), Dots(k - 1) + [t])
  {
    Cut(p, Dots(k), [t]);
    if k > 0 {
      assert Dots(k) + [t] == [DocumentEndToken] + (Dots(k - 1) + [t]);
      Cut(p, [DocumentEndToken], Dots(k - 1) + [t]);
    }
  }

  /** One document, from just before its header (or the markers left over from the one before) to just
      after its end marker. */
  lemma DocumentRead(p: P, d: Document, first: bool, k: nat, next: seq<Token>)
    requires DocumentAllowed(d, first) && Between(p, first) && (first ==> k == 0)
    requires next != [] && OutsideDocument(next[0]) && !next[0].DocumentEndToken?
    requires At(p, Dots(k) + (SpellHeader(d) + (SpellSlot(d.root) + (Dots(d.ends) + next))))
    ensures var left := if d.ends == 0 then 0 else d.ends - 1;
      var r := Reads(p, [StartOf(d)] + (Flatten(SlotNode(d.root, Known(d))) + [DocumentEnd(d.ends == 0)]));
      && r.Some? && Between(r.value, false) && r.value.tokens == p.tokens
      && At(r.value, Dots(left) + next)
  {
    hide Next, Reads, Known, SpellHeader, SpellSlot, SlotAllowed, SlotNode, Flatten, At, Dots;
    var after := Dots(d.ends) + next;
    var header, root := SpellHeader(d), SpellSlot(d.root);
    assert Dots(k) + (header + (root + after)) == (Dots(k) + header) + (root + after);
    Cut(p, Dots(k) + header, root + after);
    BeforeRoot(p, d, first, k, root + after);
    var p1 := Inside(p, d, k + |header|);
    SameAt(Move(p, k + |header|), p1, root + after);
    Cut(p1, root, after);
    AfterRoot(d.ends, next);
    RootRead(p1, d, after[0]);
    var p2 := Move(p1, |root|).(state := DocumentEndState, states := []);
    SameAt(Move(p1, |root|), p2, after);
    Cut(p2, Dots(d.ends), next);
    EndRead(p2, d.ends, next[0]);
    var evs := Flatten(SlotNode(d.root, Known(d)));
    ReadsOne(p, StartOf(d));
    ReadsOne(p2, DocumentEnd(d.ends == 0));
    ReadsOn(p1, evs, [DocumentEnd(d.ends == 0)]);
    ReadsOn(p, [StartOf(d)], evs + [DocumentEnd(d.ends == 0)]);
    var p3 := Next(p2).next;
    DotsLeft(p2, p3, d.ends, next);
  }

  lemma BeforeRoot(p: P, d: Document, first: bool, k: nat, rest: seq<Token>)
    requires DocumentAllowed(d, first) && Between(p, first) && (first ==> k == 0) && rest != []
    requires At(p, Dots(k) + SpellHeader(d)) && At(p, (Dots(k) + SpellHeader(d)) + rest)
    requires !d.explicit ==> exists t :: rest == SpellSlot(d.root) + t && t != []
    ensures Next(p) == Emit(StartOf(d), Inside(p, d, k + |SpellHeader(d)|))
  {
    hide Next, Known, SlotAllowed, SpellSlot, At;
    if d.explicit {
      ExplicitStart(p, d, first, k);
    } else {
      var t :| rest == SpellSlot(d.root) + t && t != [];
      assert (Dots(k) + SpellHeader(d)) + rest == rest;
      Cut(p, SpellSlot(d.root), t);
      ImplicitStart(p, d, t[0]);
    }
  }

  lemma AfterRoot(k: nat, next: seq<Token>)
    requires next != [] && OutsideDocument(next[0])
    ensures Dots(k) + next != [] && OutsideDocument((Dots(k) + next)[0])
  {
  }

  /** The document end consumes one marker of those there are. */
  lemma DotsLeft(p: P, q: P, k: nat, next: seq<Token>)
    requires At(p, Dots(k) + next) && q.tokens == p.tokens && q.pos == p.pos + (if k == 0 then 0 else 1)
    ensures At(q, Dots(if k == 0 then 0 else k - 1) + next)
  {
    if k > 0 {
      assert Dots(k) + next == [DocumentEndToken] + (Dots(k - 1) + next);
      Cut(p, [DocumentEndToken], Dots(k - 1) + next);
    }
  }

  lemma StreamEndRead(p: P, first: bool, k: nat)
    requires Between(p, first) && (first ==> k == 0) && At(p, Dots(k) + [StreamEndToken])
    ensures var r := Reads(p, [StreamEnd]); r.Some? && r.value.state.EndState?
  {
    assert [StreamEnd][1..] == [];
    DotsSkipped(p, k, StreamEndToken);
  }

  lemma {:induction false} DocumentsRead(p: P, docs: seq<Document>, first: bool, k: nat)
    requires Between(p, first) && (first ==> k == 0) && At(p, Dots(k) + SpellDocuments(docs))
    requires forall i :: 0 <= i < |docs| ==> DocumentAllowed(docs[i], first && i == 0)
    ensures var r := Reads(p, DocumentEvents(docs)); r.Some? && r.value.state.EndState?
    decreases |docs|
  {
    hide Next, Reads, DocumentAllowed, SpellHeader, SpellSlot, SlotNode, Flatten, At, Dots, Known, Between;
    if docs == [] {
      StreamEndRead(p, first, k);
    } else {
      var d, rest := docs[0], docs[1..];
      assert forall i :: 0 <= i < |rest| ==> DocumentAllowed(rest[i], false) by {
        assert forall i :: 0 <= i < |rest| ==> rest[i] == docs[i + 1];
      }
      FirstOfDocuments(rest);
      DocumentRead(p, d, first, k, SpellDocuments(rest));
      var a, b := Flatten(SlotNode(d.root, Known(d))), [DocumentEnd(d.ends == 0)];
      var start := [StartOf(d)];
      var q := Reads(p, start + (a + b)).value;
      DocumentsRead(q, rest, false, if d.ends == 0 then 0 else d.ends - 1);
      ReadsOn(p, start + (a + b), DocumentEvents(rest));
      assert DocumentEvents(docs) == (start + (a + b)) + DocumentEvents(rest);
    }
  }

  lemma {:induction false} ReadsIsRun(p: P, evs: seq<Event>)
    requires Coherent(p) && p.pos <= |p.tokens| && Reads(p, evs).Some? && Reads(p, evs).value.state.EndState?
    ensures RunEvents(p) == (evs, None)
    decreases |evs|
  {
    hide Next, Coherent;
    if evs != [] {
      NextSimulates(p);
      ReadsIsRun(Next(p).next, evs[1..]);
      assert [evs[0]] + evs[1..] == evs;
    }
  }

  /** Every spelling of a stream of documents is read, without error, as the trees it stands for. */
  lemma EverySpellingIsRead(docs: seq<Document>)
    requires forall i :: 0 <= i < |docs| ==> DocumentAllowed(docs[i], i == 0)
    ensures var p := Initial([StreamStartToken] + SpellDocuments(docs));
      Coherent(p) && RunEvents(p) == ([StreamStart] + DocumentEvents(docs), None)
  {
    hide DocumentAllowed, SpellDocuments, DocumentEvents, RunEvents, Next, At, Between;
    var p := Initial([StreamStartToken] + SpellDocuments(docs));
    StreamBegins(SpellDocuments(docs));
    DocumentsRead(Skip(p).(state := ImplicitDocumentStart), docs, true, 0);
    assert ([StreamStart] + DocumentEvents(docs))[1..] == DocumentEvents(docs);
    ReadsIsRun(p, [StreamStart] + DocumentEvents(docs));
  }

  lemma StreamBegins(rest: seq<Token>)
    ensures var p := Initial([StreamStartToken] + rest);
      var q := Skip(p).(state := ImplicitDocumentStart);
      Coherent(p) && Next(p) == Emit(StreamStart, q) && Between(q, true) && At(q, Dots(0) + rest)
  {
    var tokens := [StreamStartToken] + rest;
    var p := Initial(tokens);
    assert At(p, tokens) by { assert tokens[0..|tokens|] == tokens; }
    Cut(p, [StreamStartToken], rest);
    assert Dots(0) + rest == rest;
  }

  // ----- The pair without a key -----

  lemma {:induction false} ReadsForward(p: P, evs: seq<Event>)
    requires Coherent(p) && p.pos <= |p.tokens| && Reads(p, evs).Some?
    ensures Reads(p, evs).value.pos >= p.pos
    decreases |evs|
  {
    hide Next, Coherent;
    if evs != [] {
      NextSimulates(p);
      ReadsForward(Next(p).next, evs[1..]);
    }
  }

  lemma KeylessNext(p: P)
    requires p.state.FlowSequenceEntryMappingKey? && HasToken(p) && (Peek(p).Value? || Peek(p).FlowEntry? || Peek(p).FlowSequenceEnd?)
    ensures Next(p) == Emit(EMPTY_SCALAR, Skip(p).(state := FlowSequenceEntryMappingValue))
  {
    hide ParseNode;
  }

  lemma UnvaluedRead(p: P, m: Node)
    requires p.state.FlowSequenceEntryMappingValue? && HasToken(p) && !Peek(p).Value? && (m.Leaf? || !m.open.Scalar?)
    ensures var r := Reads(p, Flatten(m) + [MappingEnd]);
      (r.Some? ==> r.value == p.(state := FlowSequenceEntry)) && (m == EMPTY ==> r.Some?)
  {
    hide ParseNode;
    var q := p.(state := FlowSequenceEntryMappingEnd);
    assert Next(p) == Emit(EMPTY_SCALAR, q);
    assert Next(q) == Emit(MappingEnd, q.(state := FlowSequenceEntry));
    var evs := Flatten(m) + [MappingEnd];
    if evs[0] == EMPTY_SCALAR {
      assert m.Leaf? ==> evs[1..] == [MappingEnd] && [MappingEnd][1..] == [];
      if !m.Leaf? { FlattenOpens(m); }
    }
  }

  lemma FlattenOpens(m: Node)
    requires !m.Leaf?
    ensures Flatten(m)[0] == m.open && |Flatten(m)| > 1
  {
  }

  /** With no key in a pair of a flow sequence, the production skips the token in front, whichever it is
      (`[? : v]` is an error). The pair is read as it should be, up to the token behind it, exactly when
      it has a value indicator and no value. */
  lemma KeylessPairExactlyWhen(p: P, v: Option<Slot>, t: Token)
    requires p.state.FlowSequenceEntryMappingKey? && (t.FlowEntry? || t.FlowSequenceEnd?) && Coherent(p)
    requires v.Some? ==> SlotAllowed(v.value, p.directives, false, false)
    requires At(p, SpellValue(v) + [t])
    ensures Reads(p, FlattenAll(PairNodes(Pair(Missing, v), p.directives)) + [MappingEnd])
        == Some(Move(p, |SpellValue(v)|).(state := FlowSequenceEntry))
      <==> v == Some(Missing)
  {
    hide Next, Coherent, Meaning, Flatten, FlattenAll, Reads, SlotAllowed, Spell;
    var m := ValueNode(v, p.directives);
    var q := Skip(p).(state := FlowSequenceEntryMappingValue);
    Cut(p, SpellValue(v), [t]);
    KeylessNext(p);
    KeylessEvents(p, q, m);
    match v {
      case None =>
        NextSimulates(p);
        if Reads(q, Flatten(m) + [MappingEnd]).Some? { ReadsForward(q, Flatten(m) + [MappingEnd]); }
      case Some(slot) =>
        assert SpellValue(v) + [t] == [Value] + (SpellSlot(slot) + [t]);
        Cut(p, [Value], SpellSlot(slot) + [t]);
        SameAt(Skip(p), q, SpellSlot(slot) + [t]);
        SlotHead(q, slot, false, false, t);
        SlotShape(slot, p.directives);
        UnvaluedRead(q, m);
    }
  }

  lemma SlotShape(slot: Slot, ds: seq<(string, string)>)
    requires SlotAllowed(slot, ds, false, false)
    ensures var m := ValueNode(Some(slot), ds);
      && (m.Leaf? || !m.open.Scalar?)
      && (if slot.Missing? then m == EMPTY && SpellSlot(slot) == [] else SpellSlot(slot) != [])
  {
    if slot.Present? {
      FirstToken(slot.node, ds, false, false);
      assert ValueNode(Some(slot), ds) == Meaning(slot.node, ds);
    }
  }

  lemma KeylessEvents(p: P, q: P, m: Node)
    requires !p.state.EndState? && Next(p) == Emit(EMPTY_SCALAR, q)
    ensures Reads(p, FlattenAll([EMPTY, m]) + [MappingEnd]) == Reads(q, Flatten(m) + [MappingEnd])
  {
    hide Next;
    FlattenTwo(EMPTY, m);
    assert FlattenAll([EMPTY, m]) + [MappingEnd] == [EMPTY_SCALAR] + (Flatten(m) + [MappingEnd]);
    ReadsOne(p, EMPTY_SCALAR);
    ReadsOn(p, [EMPTY_SCALAR], Flatten(m) + [MappingEnd]);
  }

  // ----- The row without its KEY -----

  lemma ValueNeedsKey(p: P)
    requires p.state.BlockMappingKey? && p.marks != [] && HasToken(p) && Peek(p).Value?
    ensures Next(p) == Error(ExpectedKey)
  {
    hide ParseNode;
  }

  /** What is read from one place is read one way: the shorter of two readings begins the longer. */
  lemma {:induction false} ReadingsAgree(p: P, a: seq<Event>, b: seq<Event>)
    requires Reads(p, a).Some? && Reads(p, b).Some? && |a| <= |b|
    ensures b[..|a|] == a && Reads(Reads(p, a).value, b[|a|..]) == Reads(p, b)
    decreases |a|
  {
    hide Next;
    if a == [] {
      assert b[0..] == b;
    } else {
      ReadingsAgree(Next(p).next, a[1..], b[1..]);
      assert b[..|a|] == [b[0]] + b[1..][..|a| - 1] && a == [a[0]] + a[1..];
      assert b[|a|..] == b[1..][|a| - 1..];
    }
  }

  predicate AllWithKey(rows: seq<Row>) { forall i :: 0 <= i < |rows| ==> rows[i].WithKey? }

  /** The parser's own reading of rows: nodes, to the end of the mapping or to an error. */
  ghost predicate Traced(p: P, rows: seq<Row>, ns: seq<Node>, ended: bool, q: P) {
    var all := FlattenAll(Rows(rows, p.directives));
    && AllWellFormed(ns) && Reads(p, FlattenAll(ns) + if ended then [MappingEnd] else []) == Some(q)
    && |FlattenAll(ns)| <= |all| && (ended && !AllWithKey(rows) ==> |FlattenAll(ns)| < |all|)
    && (!ended ==> !q.state.EndState? && Next(q).Error?)
  }

  /** A KEY without a VALUE takes the VALUE of the row behind it; any other VALUE where a KEY is due is
      an error. */
  lemma {:induction false} RowsTrace(p: P, rows: seq<Row>) returns (ns: seq<Node>, ended: bool, q: P)
    requires p.state.BlockMappingKey? && p.states != [] && p.marks != [] && At(p, SpellRows(rows) + [BlockEnd])
    requires forall i :: 0 <= i < |rows| ==> RowAllowed(rows[i], p.directives)
    ensures Traced(p, rows, ns, ended, q)
    decreases |rows|
  {
    hide Next, Reads, RowAllowed, SpellPair, At, Traced, Flatten, Rows;
    RowsHead(rows);
    if rows == [] {
      q := NoRowsTrace(p);
      ns, ended := [], true;
    } else if rows[0].ValueOnly? {
      ns, ended, q := [], false, p;
      StuckTrace(p, rows);
    } else {
      var fused := rows[0].pair.value.None? && |rows| > 1 && rows[1].ValueOnly?;
      var pair := if fused then Pair(rows[0].pair.key, Some(rows[1].value)) else rows[0].pair;
      var rest := if fused then rows[2..] else rows[1..];
      PairInFront(p, rows, fused, pair, rest);
      var p1 := Move(p, |SpellPair(pair)|);
      var more;
      more, ended, q := RowsTrace(p1, rest);
      ns := PairNodes(pair, p.directives) + more;
      TraceOn(p, rows, fused, pair, rest, more, ended, q);
    }
  }

  lemma NoRowsTrace(p: P) returns (q: P)
    requires p.state.BlockMappingKey? && p.states != [] && p.marks != [] && At(p, SpellRows([]) + [BlockEnd])
    ensures Traced(p, [], [], true, q)
  {
    hide Next;
    assert SpellRows([]) + [BlockEnd] == [] + [BlockEnd];
    Cut(p, [], [BlockEnd]);
    BlockEndNext(p);
    q := Next(p).next;
    ReadsOne(p, MappingEnd);
    assert [] + [MappingEnd] == [MappingEnd];
  }

  lemma StuckTrace(p: P, rows: seq<Row>)
    requires p.state.BlockMappingKey? && p.marks != [] && At(p, SpellRows(rows) + [BlockEnd]) && rows != [] && rows[0].ValueOnly?
    ensures Traced(p, rows, [], false, p)
  {
    hide Next, SpellRows, Rows;
    RowsHead(rows);
    AtIndices(p, SpellRows(rows) + [BlockEnd]);
    assert p.tokens[p.pos + 0] == (SpellRows(rows) + [BlockEnd])[0];
    ValueNeedsKey(p);
  }

  /** The pair the parser reads first, and what it leaves. */
  lemma PairInFront(p: P, rows: seq<Row>, fused: bool, pair: Pair, rest: seq<Row>)
    requires p.state.BlockMappingKey? && At(p, SpellRows(rows) + [BlockEnd])
    requires rows != [] && rows[0].WithKey? && fused == (rows[0].pair.value.None? && |rows| > 1 && rows[1].ValueOnly?)
    requires pair == (if fused then Pair(rows[0].pair.key, Some(rows[1].value)) else rows[0].pair)
    requires rest == (if fused then rows[2..] else rows[1..])
    requires forall i :: 0 <= i < |rows| ==> RowAllowed(rows[i], p.directives)
    ensures Reads(p, FlattenAll(PairNodes(pair, p.directives))) == Some(Move(p, |SpellPair(pair)|))
    ensures At(Move(p, |SpellPair(pair)|), SpellRows(rest) + [BlockEnd])
    ensures forall i :: 0 <= i < |rest| ==> RowAllowed(rest[i], p.directives)
  {
    hide Next, Reads, FlattenAll, At, SlotAllowed, SpellSlot, PairNodes;
    hide SpellPair, SpellRows;
    RowsSpelled(rows, fused, pair, rest);
    var after := SpellRows(rest) + [BlockEnd];
    assert (SpellPair(pair) + SpellRows(rest)) + [BlockEnd] == SpellPair(pair) + after;
    Cut(p, SpellPair(pair), after);
    RowsHead(rest);
    PairIsAllowed(rows, fused, pair, p.directives);
    RowAfterPair(rows, fused, pair, rest, after[0]);
    BlockPairRead(p, pair, after[0]);
  }

  lemma PairIsAllowed(rows: seq<Row>, fused: bool, pair: Pair, ds: seq<(string, string)>)
    requires rows != [] && rows[0].WithKey? && fused == (rows[0].pair.value.None? && |rows| > 1 && rows[1].ValueOnly?)
    requires pair == (if fused then Pair(rows[0].pair.key, Some(rows[1].value)) else rows[0].pair)
    requires forall i :: 0 <= i < |rows| ==> RowAllowed(rows[i], ds)
    ensures PairAllowed(pair, ds, true)
  {
    hide SlotAllowed;
    assert RowAllowed(rows[0], ds);
    assert PairAllowed(rows[0].pair, ds, true);
    if fused {
      assert RowAllowed(rows[1], ds);
      assert SlotAllowed(rows[1].value, ds, true, true);
      assert pair.value == Some(rows[1].value) && pair.key == rows[0].pair.key;
    }
  }

  lemma RowAfterPair(rows: seq<Row>, fused: bool, pair: Pair, rest: seq<Row>, t: Token)
    requires rows != [] && rows[0].WithKey? && fused == (rows[0].pair.value.None? && |rows| > 1 && rows[1].ValueOnly?)
    requires pair == (if fused then Pair(rows[0].pair.key, Some(rows[1].value)) else rows[0].pair)
    requires rest == (if fused then rows[2..] else rows[1..])
    requires if rest == [] then t.BlockEnd? else if rest[0].WithKey? then t.Key? else t.Value?
    ensures ClosesPair(t, BlockMappingValue, pair.value)
  {
  }

  lemma RowsSpelled(rows: seq<Row>, fused: bool, pair: Pair, rest: seq<Row>)
    requires rows != [] && rows[0].WithKey? && fused == (rows[0].pair.value.None? && |rows| > 1 && rows[1].ValueOnly?)
    requires pair == (if fused then Pair(rows[0].pair.key, Some(rows[1].value)) else rows[0].pair)
    requires rest == (if fused then rows[2..] else rows[1..])
    ensures SpellRows(rows) == SpellPair(pair) + SpellRows(rest)
  {
    hide SpellSlot;
    if fused {
      assert rows[1..][1..] == rest;
      assert SpellRows(rows[1..]) == SpellRow(rows[1]) + SpellRows(rest);
      var k, v := [Key] + SpellSlot(pair.key), [Value] + SpellSlot(rows[1].value);
      assert SpellPair(rows[0].pair) == k + [] == k && SpellPair(pair) == k + v;
      assert k + (v + SpellRows(rest)) == (k + v) + SpellRows(rest);
    }
  }

  lemma TraceOn(p: P, rows: seq<Row>, fused: bool, pair: Pair, rest: seq<Row>, more: seq<Node>, ended: bool, q: P)
    requires rows != [] && rows[0].WithKey? && fused == (rows[0].pair.value.None? && |rows| > 1 && rows[1].ValueOnly?)
    requires pair == (if fused then Pair(rows[0].pair.key, Some(rows[1].value)) else rows[0].pair)
    requires rest == (if fused then rows[2..] else rows[1..])
    requires var p1 := Move(p, |SpellPair(pair)|);
      Reads(p, FlattenAll(PairNodes(pair, p.directives))) == Some(p1) && Traced(p1, rest, more, ended, q)
    ensures Traced(p, rows, PairNodes(pair, p.directives) + more, ended, q)
  {
    hide Next, Reads, FlattenAll, SpellPair, PairNodes, WellFormed, Rows;
    var ds, nodes := p.directives, PairNodes(pair, p.directives);
    var a, b, tail := FlattenAll(nodes), FlattenAll(more), if ended then [MappingEnd] else [];
    PairWellFormed(pair, ds);
    FlattenAllConcat(nodes, more);
    assert (a + b) + tail == a + (b + tail);
    ReadsOn(p, a, b + tail);
    RowsWeigh(rows, fused, pair, rest, ds);
    if !fused && AllWithKey(rest) {
      assert forall i :: 0 < i < |rows| ==> rows[i] == rest[i - 1];
    }
  }

  /** Reading two rows as one pair saves two empty nodes. */
  lemma RowsWeigh(rows: seq<Row>, fused: bool, pair: Pair, rest: seq<Row>, ds: seq<(string, string)>)
    requires rows != [] && rows[0].WithKey? && fused == (rows[0].pair.value.None? && |rows| > 1 && rows[1].ValueOnly?)
    requires pair == (if fused then Pair(rows[0].pair.key, Some(rows[1].value)) else rows[0].pair)
    requires rest == (if fused then rows[2..] else rows[1..])
    ensures |FlattenAll(Rows(rows, ds))| == |FlattenAll(PairNodes(pair, ds))| + |FlattenAll(Rows(rest, ds))| + if fused then 2 else 0
  {
    hide SlotNode, FlattenAll, Flatten;
    FlattenAllConcat(RowNodes(rows[0], ds), Rows(rows[1..], ds));
    if fused {
      assert rows[1..][1..] == rest;
      KeyOnlyNodes(rows[0].pair, ds);
      assert rows[0] == WithKey(rows[0].pair);
      assert RowNodes(rows[1], ds) == [EMPTY, SlotNode(rows[1].value, ds)];
      assert PairNodes(pair, ds) == [SlotNode(pair.key, ds), SlotNode(rows[1].value, ds)];
      assert Rows(rows[1..], ds) == RowNodes(rows[1], ds) + Rows(rest, ds);
      FlattenAllConcat(RowNodes(rows[1], ds), Rows(rest, ds));
      FlattenTwo(SlotNode(pair.key, ds), EMPTY);
      FlattenTwo(EMPTY, SlotNode(rows[1].value, ds));
      FlattenTwo(SlotNode(pair.key, ds), SlotNode(rows[1].value, ds));
      EmptyIsOne();
    }
  }

  lemma KeyOnlyNodes(pair: Pair, ds: seq<(string, string)>)
    requires pair.value.None?
    ensures RowNodes(WithKey(pair), ds) == [SlotNode(pair.key, ds), EMPTY]
  {
    hide SlotNode;
    assert ValueNode(pair.value, ds) == EMPTY;
    assert PairNodes(pair, ds) == [SlotNode(pair.key, ds), EMPTY];
  }

  lemma EmptyIsOne()
    ensures |Flatten(EMPTY)| == 1
  {
  }

  /** A block mapping spelled by the grammar is read as its tree exactly when every row has its KEY;
      otherwise the parser reports an error or emits other events. */
  lemma BlockTableExactlyWhen(p: P, rows: seq<Row>)
    requires p.state.BlockMappingFirstKey? && p.states != []
    requires forall i :: 0 <= i < |rows| ==> RowAllowed(rows[i], p.directives)
    requires At(p, [BlockMappingStart] + SpellRows(rows) + [BlockEnd])
    ensures Reads(p, FlattenAll(Rows(rows, p.directives)) + [MappingEnd])
      == if AllWithKey(rows) then Some(Finish(p, |SpellRows(rows)| + 2)) else None
  {
    hide Next, Reads, RowAllowed, SpellRows, FlattenAll, At, Rows, AllWellFormed;
    if AllWithKey(rows) {
      BlockTableRead(p, rows);
    } else {
      var all := FlattenAll(Rows(rows, p.directives));
      var p1 := TableEntered(p, rows);
      var ns, ended, q := RowsTrace(p1, rows);
      SameNext(p, p1, all + [MappingEnd]);
      NotAlsoRead(p1, rows, ns, ended, q);
    }
  }

  lemma NotAlsoRead(p: P, rows: seq<Row>, ns: seq<Node>, ended: bool, q: P)
    requires Traced(p, rows, ns, ended, q) && !AllWithKey(rows)
    ensures Reads(p, FlattenAll(Rows(rows, p.directives)) + [MappingEnd]) == None
  {
    hide Next, FlattenAll, Rows, AllWellFormed;
    var all := FlattenAll(Rows(rows, p.directives)) + [MappingEnd];
    var tr := FlattenAll(ns) + if ended then [MappingEnd] else [];
    if ended {
      RowsWellFormed(rows, p.directives);
      EndsOnce(ns, Rows(rows, p.directives), MappingEnd);
    } else {
      ErrorReadsNothing(q, all[|tr|..]);
    }
    if Reads(p, all).Some? { ReadingsAgree(p, tr, all); }
  }

  lemma ErrorReadsNothing(q: P, evs: seq<Event>)
    requires !q.state.EndState? && Next(q).Error? && evs != []
    ensures Reads(q, evs) == None
  {
    hide Next;
  }

  /** The smallest such input, `: v`. */
  lemma ValueWithoutKey(v: string, style: ScalarStyle)
    ensures var p := Initial([StreamStartToken, BlockMappingStart, Value, ScalarToken(v, style), BlockEnd, StreamEndToken]);
      && Coherent(p)
      && RunEvents(p) == ([StreamStart, DocumentStart(false, false, []), MappingStart("", "", true, Block)], Some(ExpectedKey))
  {
    hide RunEvents, Coherent;
    var p := Initial([StreamStartToken, BlockMappingStart, Value, ScalarToken(v, style), BlockEnd, StreamEndToken]);
    InitialCoherent(p.tokens);
    var p1 := RunOn(p);
    var p2 := RunOn(p1);
    var p3 := RunOn(p2);
    RunStops(p3);
    assert [MappingStart("", "", true, Block)] + [] == [MappingStart("", "", true, Block)];
    assert [DocumentStart(false, false, [])] + [MappingStart("", "", true, Block)] == [DocumentStart(false, false, []), MappingStart("", "", true, Block)];
    assert [StreamStart] + [DocumentStart(false, false, []), MappingStart("", "", true, Block)]
      == [StreamStart, DocumentStart(false, false, []), MappingStart("", "", true, Block)];
    assert Next(p).event == StreamStart && Next(p1).event == DocumentStart(false, false, []);
    assert Next(p2).event == MappingStart("", "", true, Block) && Next(p3) == Error(ExpectedKey);
  }

  lemma InitialCoherent(tokens: seq<Token>)
    ensures Coherent(Initial(tokens))
  {
  }

  lemma RunOn(p: P) returns (q: P)
    requires Coherent(p) && p.pos <= |p.tokens| && !p.state.EndState? && Next(p).Emit?
    ensures q == Next(p).next && Coherent(q) && q.pos <= |q.tokens|
    ensures RunEvents(p) == ([Next(p).event] + RunEvents(q).0, RunEvents(q).1)
  {
    hide Next, Coherent;
    NextSimulates(p);
    q := Next(p).next;
  }

  lemma RunStops(p: P)
    requires Coherent(p) && p.pos <= |p.tokens| && !p.state.EndState? && Next(p).Error?
    ensures RunEvents(p) == ([], Some(Next(p).problem))
  {
    hide Next, Coherent;
  }

  /** `[? : v]`: the value indicator is skipped as if it were the missing key, and the value is not expected. */
  lemma ValueOfMissingKey(v: string, style: ScalarStyle)
    ensures var p := Initial([StreamStartToken, FlowSequenceStart, Key, Value, ScalarToken(v, style), FlowSequenceEnd, StreamEndToken]);
      && Coherent(p)
      && RunEvents(p).1 == Some(ExpectedFlowSequenceEnd)
  {
    hide RunEvents, Coherent;
    var p := Initial([StreamStartToken, FlowSequenceStart, Key, Value, ScalarToken(v, style), FlowSequenceEnd, StreamEndToken]);
    InitialCoherent(p.tokens);
    var p1 := RunOn(p);
    var p2 := RunOn(p1);
    var p3 := RunOn(p2);
    var p4 := RunOn(p3);
    var p5 := RunOn(p4);
    var p6 := RunOn(p5);
    var p7 := RunOn(p6);
    assert Next(p7) == Error(ExpectedFlowSequenceEnd);
    RunStops(p7);
  }

  function LateKeyTokens(a: string, b: string, c: string, style: ScalarStyle): seq<Token> {
    [StreamStartToken, FlowSequenceStart, Key, ScalarToken(a, style), Value, ScalarToken(b, style), FlowSequenceEnd,
     Key, BlockMappingStart, Value, ScalarToken(c, style), BlockEnd, StreamEndToken]
  }

  lemma LateKeyOpens(p: P, a: string, b: string, c: string, style: ScalarStyle) returns (q: P)
    requires p == Initial(LateKeyTokens(a, b, c, style)) && Coherent(p)
    ensures q == p.(pos := 3, state := FlowSequenceEntryMappingKey, states := [DocumentEndState], marks := q.marks, directives := q.directives)
    ensures Coherent(q) && |q.marks| == 1 && RunEvents(p).1 == RunEvents(q).1
  {
    hide RunEvents, Coherent;
    var p1 := RunOn(p);
    var p2 := RunOn(p1);
    var p3 := RunOn(p2);
    q := RunOn(p3);
  }

  lemma LateKeyKey(p: P, a: string, b: string, c: string, style: ScalarStyle) returns (q: P)
    requires Coherent(p) && p.tokens == LateKeyTokens(a, b, c, style) && |p.marks| == 1
    requires p.pos == 3 && p.state == FlowSequenceEntryMappingKey && p.states == [DocumentEndState]
    ensures Coherent(q) && q.tokens == p.tokens && q.pos == 4 && q.state == FlowSequenceEntryMappingValue && q.states == [DocumentEndState]
    ensures |q.marks| == 1 && RunEvents(p).1 == RunEvents(q).1
  {
    hide RunEvents, Coherent;
    q := RunOn(p);
  }

  lemma LateKeyValue(p: P, a: string, b: string, c: string, style: ScalarStyle) returns (q: P)
    requires Coherent(p) && p.tokens == LateKeyTokens(a, b, c, style) && |p.marks| == 1
    requires p.pos == 4 && p.state == FlowSequenceEntryMappingValue && p.states == [DocumentEndState]
    ensures Coherent(q) && q.tokens == p.tokens && q.pos == 6 && q.state == FlowSequenceEntry && q.states == [DocumentEndState]
    ensures |q.marks| == 1 && RunEvents(p).1 == RunEvents(q).1
  {
    hide RunEvents, Coherent;
    var p1 := RunOn(p);
    q := RunOn(p1);
  }

  /** `[? a : b]: c`, with KEY and BLOCK-MAPPING-START behind the collection, where the scanner puts them: valid
      YAML is refused. */
  lemma LateKeyIsRefused(a: string, b: string, c: string, style: ScalarStyle)
    ensures var p := Initial(LateKeyTokens(a, b, c, style)); Coherent(p) && RunEvents(p).1 == Some(ExpectedDocumentStart)
  {
    hide RunEvents, Coherent;
    var p := Initial(LateKeyTokens(a, b, c, style));
    InitialCoherent(p.tokens);
    var p4 := LateKeyOpens(p, a, b, c, style);
    var p5 := LateKeyKey(p4, a, b, c, style);
    var p7 := LateKeyValue(p5, a, b, c, style);
    var p8 := RunOn(p7);
    var p9 := RunOn(p8);
    assert Next(p9) == Error(ExpectedDocumentStart);
    RunStops(p9);
  }
}
