/** What the parser's productions mean: the trees that documents stand for, and their token spellings.
    The spellings are the token grammar set out at the head of parserc.go, written from the tree's side:
    nothing here knows the parser. It does not read all of them: see `Allowed`. */
module TokenTrees {
  import opened Options
  import opened Events
  import opened Tokens

  /** Anchor and tag, in either order. */
  datatype Props = Props(anchor: string, tag: Option<(string, string)>, tagFirst: bool)

  datatype Tree =
    | Reference(name: string)
    | Text(props: Props, value: string, style: ScalarStyle)
    | Bare(props: Props)                                   // properties and nothing else
    | BlockList(props: Props, items: seq<Slot>)
    | FlatList(props: Props, items: seq<Slot>)             // a sequence no deeper than its mapping
    | BlockTable(props: Props, rows: seq<Row>)
    | FlowList(props: Props, entries: seq<Entry>, trailing: bool)
    | FlowTable(props: Props, entries: seq<Entry>, trailing: bool)

  datatype Slot = Missing | Present(node: Tree)

  /** A value may be there, be empty after its indicator, or lack the indicator too. */
  datatype Pair = Pair(key: Slot, value: Option<Slot>)

  /** In a block mapping the grammar makes either indicator optional. */
  datatype Row = WithKey(pair: Pair) | ValueOnly(value: Slot)

  datatype Entry = Single(node: Tree) | Keyed(pair: Pair)

  // ----- Spelling -----

  function SpellProps(ps: Props): seq<Token> {
    var a := if ps.anchor == "" then [] else [Anchor(ps.anchor)];
    var t := if ps.tag.None? then [] else [Tag(ps.tag.value.0, ps.tag.value.1)];
    if ps.tagFirst then t + a else a + t
  }

  function Spell(n: Tree): seq<Token> {
    if n.Reference? then [AliasToken(n.name)] else SpellProps(n.props) + SpellContent(n)
  }

  function SpellContent(n: Tree): seq<Token>
    requires !n.Reference?
    decreases n, 0
  {
    match n
    case Text(_, value, style) => [ScalarToken(value, style)]
    case Bare(_) => []
    case BlockList(_, items) => [BlockSequenceStart] + SpellItems(items) + [BlockEnd]
    case FlatList(_, items) => SpellItems(items)
    case BlockTable(_, rows) => [BlockMappingStart] + SpellRows(rows) + [BlockEnd]
    case FlowList(_, entries, trailing) => [FlowSequenceStart] + SpellEntries(entries, true) + Comma(trailing) + [FlowSequenceEnd]
    case FlowTable(_, entries, trailing) => [FlowMappingStart] + SpellEntries(entries, true) + Comma(trailing) + [FlowMappingEnd]
  }

  function Comma(present: bool): seq<Token> { if present then [FlowEntry] else [] }

  function SpellSlot(s: Slot): seq<Token> { if s.Missing? then [] else Spell(s.node) }

  function SpellItems(items: seq<Slot>): seq<Token> {
    if items == [] then [] else [BlockEntry] + SpellSlot(items[0]) + SpellItems(items[1..])
  }

  function SpellValue(v: Option<Slot>): seq<Token> {
    match v
    case None => []
    case Some(slot) => [Value] + SpellSlot(slot)
  }

  function SpellPair(pair: Pair): seq<Token> { [Key] + SpellSlot(pair.key) + SpellValue(pair.value) }

  function SpellRow(r: Row): seq<Token> {
    match r
    case WithKey(pair) => SpellPair(pair)
    case ValueOnly(value) => [Value] + SpellSlot(value)
  }

  function SpellRows(rows: seq<Row>): seq<Token> {
    if rows == [] then [] else SpellRow(rows[0]) + SpellRows(rows[1..])
  }

  function SpellEntry(e: Entry): seq<Token> {
    match e
    case Single(n) => Spell(n)
    case Keyed(pair) => SpellPair(pair)
  }

  function SpellEntries(es: seq<Entry>, first: bool): seq<Token> {
    if es == [] then [] else Comma(!first) + SpellEntry(es[0]) + SpellEntries(es[1..], false)
  }

  // ----- Meaning -----

  /** The prefix that a handle stands for: that of the first directive for it. */
  function PrefixOf(ds: seq<(string, string)>, handle: string): Option<string> {
    if ds == [] then None
    else
      var earlier := PrefixOf(ds[..|ds| - 1], handle);
      if earlier.None? && ds[|ds| - 1].0 == handle then Some(ds[|ds| - 1].1) else earlier
  }

  /** A tag has a known handle, or none, and does not come out empty. */
  predicate IsKnown(ds: seq<(string, string)>, ps: Props) {
    ps.tag.None? || ps.tag.value.0 == "" || (PrefixOf(ds, ps.tag.value.0).Some? && TagOf(ds, ps) != "")
  }

  /** The tag in full; no tag is the empty one. */
  function TagOf(ds: seq<(string, string)>, ps: Props): string {
    if ps.tag.None? then ""
    else if ps.tag.value.0 == "" then ps.tag.value.1
    else match PrefixOf(ds, ps.tag.value.0) case None => "" case Some(prefix) => prefix + ps.tag.value.1
  }

  const EMPTY := Leaf(Scalar("", "", "", true, false, PlainStyle))

  /** A scalar as it is spelled. It may be printed plain without its tag if it had none and was plain, or had the tag
      `!`, and quoted without one if it had none and was quoted. */
  function ScalarOf(anchor: string, tag: string, value: string, style: ScalarStyle): Event {
    Scalar(anchor, tag, value, if tag == "" then style.PlainStyle? else tag == "!", tag == "" && !style.PlainStyle?, style)
  }

  function Meaning(n: Tree, ds: seq<(string, string)>): Node {
    match n
    case Reference(name) => Leaf(Alias(name))
    case Text(ps, value, style) => Leaf(ScalarOf(ps.anchor, TagOf(ds, ps), value, style))
    case Bare(ps) => Leaf(Scalar(ps.anchor, TagOf(ds, ps), "", TagOf(ds, ps) == "", false, PlainStyle))
    case BlockList(ps, items) => Sequence(SequenceStart(ps.anchor, TagOf(ds, ps), TagOf(ds, ps) == "", Block), Slots(items, ds))
    case FlatList(ps, items) => Sequence(SequenceStart(ps.anchor, TagOf(ds, ps), TagOf(ds, ps) == "", Block), Slots(items, ds))
    case BlockTable(ps, rows) => Mapping(MappingStart(ps.anchor, TagOf(ds, ps), TagOf(ds, ps) == "", Block), Rows(rows, ds))
    case FlowList(ps, entries, _) => Sequence(SequenceStart(ps.anchor, TagOf(ds, ps), TagOf(ds, ps) == "", Flow), Entries(entries, true, ds))
    case FlowTable(ps, entries, _) => Mapping(MappingStart(ps.anchor, TagOf(ds, ps), TagOf(ds, ps) == "", Flow), Entries(entries, false, ds))
  }

  function SlotNode(s: Slot, ds: seq<(string, string)>): Node { if s.Missing? then EMPTY else Meaning(s.node, ds) }

  function Slots(items: seq<Slot>, ds: seq<(string, string)>): seq<Node> {
    if items == [] then [] else [SlotNode(items[0], ds)] + Slots(items[1..], ds)
  }

  function ValueNode(v: Option<Slot>, ds: seq<(string, string)>): Node {
    match v case None => EMPTY case Some(slot) => SlotNode(slot, ds)
  }

  function PairNodes(pair: Pair, ds: seq<(string, string)>): seq<Node> {
    [SlotNode(pair.key, ds), ValueNode(pair.value, ds)]
  }

  function RowNodes(r: Row, ds: seq<(string, string)>): seq<Node> {
    match r
    case WithKey(pair) => PairNodes(pair, ds)
    case ValueOnly(value) => [EMPTY, SlotNode(value, ds)]
  }

  function Rows(rows: seq<Row>, ds: seq<(string, string)>): seq<Node> {
    if rows == [] then [] else RowNodes(rows[0], ds) + Rows(rows[1..], ds)
  }

  /** In a flow sequence a pair is a mapping of its own; in a flow mapping a lone node is a key
      without a value. */
  function EntryNodes(e: Entry, list: bool, ds: seq<(string, string)>): seq<Node> {
    match e
    case Single(n) => if list then [Meaning(n, ds)] else [Meaning(n, ds), EMPTY]
    case Keyed(pair) => if list then [Mapping(MappingStart("", "", true, Flow), PairNodes(pair, ds))] else PairNodes(pair, ds)
  }

  function Entries(es: seq<Entry>, list: bool, ds: seq<(string, string)>): seq<Node> {
    if es == [] then [] else EntryNodes(es[0], list, ds) + Entries(es[1..], list, ds)
  }

  // What a tree means is a well-formed node.

  lemma {:induction false} MeaningWellFormed(n: Tree, ds: seq<(string, string)>)
    ensures WellFormed(Meaning(n, ds))
    decreases n, 0
  {
    hide TagOf, ScalarOf;
    match n {
      case BlockList(_, items) => SlotsWellFormed(items, ds);
      case FlatList(_, items) => SlotsWellFormed(items, ds);
      case BlockTable(_, rows) => RowsWellFormed(rows, ds);
      case FlowList(_, entries, _) => EntriesWellFormed(entries, true, ds);
      case FlowTable(_, entries, _) => EntriesWellFormed(entries, false, ds);
      case _ => LeafWellFormed(n, ds);
    }
  }

  lemma LeafWellFormed(n: Tree, ds: seq<(string, string)>)
    requires n.Reference? || n.Text? || n.Bare?
    ensures WellFormed(Meaning(n, ds))
  {
  }

  lemma {:induction false} SlotWellFormed(s: Slot, ds: seq<(string, string)>)
    ensures WellFormed(SlotNode(s, ds))
    decreases s, 0
  {
    hide Meaning;
    if s.Present? { MeaningWellFormed(s.node, ds); }
  }

  lemma {:induction false} SlotsWellFormed(items: seq<Slot>, ds: seq<(string, string)>)
    ensures AllWellFormed(Slots(items, ds))
    decreases items, 0
  {
    hide SlotNode, WellFormed;
    if items != [] {
      SlotWellFormed(items[0], ds);
      SlotsWellFormed(items[1..], ds);
    }
  }

  lemma {:induction false} PairWellFormed(pair: Pair, ds: seq<(string, string)>)
    ensures AllWellFormed(PairNodes(pair, ds))
    decreases pair, 0
  {
    hide SlotNode;
    SlotWellFormed(pair.key, ds);
    if pair.value.Some? { SlotWellFormed(pair.value.value, ds); }
  }

  lemma {:induction false} RowWellFormed(r: Row, ds: seq<(string, string)>)
    ensures AllWellFormed(RowNodes(r, ds)) && |RowNodes(r, ds)| == 2
    decreases r, 0
  {
    hide SlotNode;
    match r {
      case WithKey(pair) => PairWellFormed(pair, ds);
      case ValueOnly(value) => SlotWellFormed(value, ds);
    }
  }

  lemma {:induction false} RowsWellFormed(rows: seq<Row>, ds: seq<(string, string)>)
    ensures AllWellFormed(Rows(rows, ds)) && |Rows(rows, ds)| % 2 == 0
    decreases rows, 0
  {
    hide RowNodes, WellFormed;
    if rows != [] {
      RowWellFormed(rows[0], ds);
      RowsWellFormed(rows[1..], ds);
    }
  }

  lemma {:induction false} EntryWellFormed(e: Entry, list: bool, ds: seq<(string, string)>)
    ensures AllWellFormed(EntryNodes(e, list, ds)) && (!list ==> |EntryNodes(e, list, ds)| == 2)
    decreases e, 0
  {
    hide Meaning;
    match e {
      case Single(n) => MeaningWellFormed(n, ds);
      case Keyed(pair) => PairWellFormed(pair, ds);
    }
  }

  lemma {:induction false} EntriesWellFormed(es: seq<Entry>, list: bool, ds: seq<(string, string)>)
    ensures AllWellFormed(Entries(es, list, ds)) && (!list ==> |Entries(es, list, ds)| % 2 == 0)
    decreases es, 0
  {
    hide EntryNodes, WellFormed;
    if es != [] {
      EntryWellFormed(es[0], list, ds);
      EntriesWellFormed(es[1..], list, ds);
    }
  }

  // ----- Where a tree may stand -----

  /** Block collections stand in block context, an unindented sequence only as a key or value there;
      a tag has a known handle; properties alone are not nothing. Two restrictions are not in the grammar,
      because the parser does not read what they leave out: every row of a block mapping has its KEY
      (see `TokenReading.BlockTableExactlyWhen`), and a pair of a flow sequence has a key or is a value
      indicator alone (see `TokenReading.KeylessPairExactlyWhen`). */
  predicate Allowed(n: Tree, ds: seq<(string, string)>, block: bool, indentless: bool)
    decreases n, 1
  {
    n.Reference? || (IsKnown(ds, n.props) && ContentAllowed(n, ds, block, indentless))
  }

  predicate ContentAllowed(n: Tree, ds: seq<(string, string)>, block: bool, indentless: bool)
    requires !n.Reference?
    decreases n, 0
  {
    match n
    case Text(_, _, _) => true
    case Bare(ps) => ps.anchor != "" || TagOf(ds, ps) != ""
    case BlockList(_, items) => block && forall i :: 0 <= i < |items| ==> SlotAllowed(items[i], ds, true, false)
    case FlatList(_, items) => indentless && items != [] && forall i :: 0 <= i < |items| ==> SlotAllowed(items[i], ds, true, false)
    case BlockTable(_, rows) => block && forall i :: 0 <= i < |rows| ==> RowAllowed(rows[i], ds) && rows[i].WithKey?
    case FlowList(_, es, trailing) => (trailing ==> es != []) && forall i :: 0 <= i < |es| ==> EntryAllowed(es[i], ds) && !Keyless(es[i])
    case FlowTable(_, es, trailing) => (trailing ==> es != []) && forall i :: 0 <= i < |es| ==> EntryAllowed(es[i], ds)
  }

  predicate Keyless(e: Entry) { e.Keyed? && e.pair.key.Missing? && e.pair.value != Some(Missing) }

  predicate SlotAllowed(s: Slot, ds: seq<(string, string)>, block: bool, indentless: bool) {
    s.Present? ==> Allowed(s.node, ds, block, indentless)
  }

  predicate PairAllowed(pair: Pair, ds: seq<(string, string)>, block: bool) {
    && SlotAllowed(pair.key, ds, block, block)
    && (pair.value.Some? ==> SlotAllowed(pair.value.value, ds, block, block))
  }

  predicate RowAllowed(r: Row, ds: seq<(string, string)>) {
    match r
    case WithKey(pair) => PairAllowed(pair, ds, true)
    case ValueOnly(value) => SlotAllowed(value, ds, true, true)
  }

  predicate EntryAllowed(e: Entry, ds: seq<(string, string)>) {
    match e
    case Single(n) => Allowed(n, ds, false, false)
    case Keyed(pair) => PairAllowed(pair, ds, false)
  }

  /** What comes after a node. */
  predicate Closes(t: Token, block: bool, indentless: bool) {
    if indentless then t.Key? || t.Value? || t.BlockEnd?
    else if block then t.BlockEntry? || t.Key? || t.Value? || t.BlockEnd? || OutsideDocument(t)
    else t.FlowEntry? || t.FlowSequenceEnd? || t.FlowMappingEnd? || t.Value?
  }

  predicate OutsideDocument(t: Token) {
    t.VersionDirective? || t.TagDirective? || t.DocumentStartToken? || t.DocumentEndToken? || t.StreamEndToken?
  }

  predicate Starts(t: Token, indentless: bool) {
    || t.AliasToken? || t.Anchor? || t.Tag? || t.ScalarToken?
    || t.BlockSequenceStart? || t.BlockMappingStart? || t.FlowSequenceStart? || t.FlowMappingStart?
    || (indentless && t.BlockEntry?)
  }

  lemma FirstToken(n: Tree, ds: seq<(string, string)>, block: bool, indentless: bool)
    requires Allowed(n, ds, block, indentless)
    ensures Spell(n) != [] && Starts(Spell(n)[0], indentless)
  {
    if !n.Reference? {
      if SpellProps(n.props) == [] { assert Spell(n) == SpellContent(n); } else { assert Spell(n)[0] == SpellProps(n.props)[0]; }
    }
  }

  // ----- Documents -----

  datatype Directive = Version | TagDefinition(handle: string, prefix: string)

  /** `ends` counts the document end markers. */
  datatype Document = Document(explicit: bool, directives: seq<Directive>, root: Slot, ends: nat)

  /** The tag directives in order. */
  function Tags(ds: seq<Directive>): seq<(string, string)> {
    if ds == [] then [] else (if ds[0].Version? then [] else [(ds[0].handle, ds[0].prefix)]) + Tags(ds[1..])
  }

  function Versions(ds: seq<Directive>): nat {
    if ds == [] then 0 else (if ds[0].Version? then 1 else 0) + Versions(ds[1..])
  }

  function SpellDirective(d: Directive): Token {
    match d
    case Version => VersionDirective(1, 1)
    case TagDefinition(handle, prefix) => TagDirective(handle, prefix)
  }

  function SpellDirectives(ds: seq<Directive>): seq<Token> {
    if ds == [] then [] else [SpellDirective(ds[0])] + SpellDirectives(ds[1..])
  }

  function SpellHeader(d: Document): seq<Token> {
    if d.explicit then SpellDirectives(d.directives) + [DocumentStartToken] else []
  }

  function StartOf(d: Document): Event { DocumentStart(false, Versions(d.directives) > 0, Tags(d.directives)) }

  /** The tag directives in force inside the document. */
  function Known(d: Document): seq<(string, string)> { InForce(Tags(d.directives)) }

  function Dots(k: nat): (r: seq<Token>)
    ensures |r| == k
  {
    seq(k, _ => DocumentEndToken)
  }

  function SpellDocuments(docs: seq<Document>): seq<Token> {
    if docs == [] then [StreamEndToken]
    else SpellHeader(docs[0]) + (SpellSlot(docs[0].root) + (Dots(docs[0].ends) + SpellDocuments(docs[1..])))
  }

  function DocumentEvents(docs: seq<Document>): seq<Event> {
    if docs == [] then [StreamEnd]
    else
      var d := docs[0];
      [StartOf(d)]
      + (Flatten(SlotNode(d.root, Known(d))) + ([DocumentEnd(d.ends == 0)] + DocumentEvents(docs[1..])))
  }

  predicate Distinct(tags: seq<(string, string)>) {
    forall i, j :: 0 <= i < j < |tags| ==> tags[i].0 != tags[j].0
  }

  /** Directives come in any order, but only one gives the version and no handle is defined twice. Only
      the first document may lack its header: it then has no directives and is not empty. */
  predicate DocumentAllowed(d: Document, first: bool) {
    && Distinct(Tags(d.directives)) && Versions(d.directives) <= 1
    && SlotAllowed(d.root, Known(d), true, false)
    && (d.explicit || (first && d.directives == [] && d.root.Present?))
  }
}
