/** Which tokens each state of the parser takes, and which it refuses: a table that knows the productions only by the
    states they belong to. With `ParserGrammar` it says when a call fails, and with `TokenReading` what it gives. */
module ParserTable {
  import opened Options
  import opened Events
  import opened Tokens
  import opened Parser
  import opened ParserGrammar

  /** There are tokens up to the one at `k` places from here. */
  predicate Has(p: P, k: nat) { p.pos + k < |p.tokens| }

  function Ahead(p: P, k: nat): Token
    requires Has(p, k)
  {
    p.tokens[p.pos + k]
  }

  // ----- Nodes -----

  /** How many of the next tokens are the anchor and the tag of a node; each comes at most once. */
  function Properties(p: P): nat {
    if !Has(p, 0) then 0
    else if Ahead(p, 0).Anchor? then (if Has(p, 1) && Ahead(p, 1).Tag? then 2 else 1)
    else if Ahead(p, 0).Tag? then (if Has(p, 1) && Ahead(p, 1).Anchor? then 2 else 1)
    else 0
  }

  /** The tag among the next `n` tokens, if there is one, has a directive for its handle and does not come out empty. */
  predicate TagIsKnown(p: P, n: nat)
    requires n == 0 || Has(p, n - 1)
  {
    forall k :: 0 <= k < n && Ahead(p, k).Tag? ==>
      var t := Ahead(p, k);
      t.handle != "" ==> exists d :: 0 <= d < |p.directives| && First(p.directives, d, t.handle) && p.directives[d].1 + t.suffix != ""
  }

  predicate First(ds: seq<(string, string)>, d: nat, handle: string)
    requires d < |ds|
  {
    ds[d].0 == handle && forall j :: 0 <= j < d ==> ds[j].0 != handle
  }

  /** Anchor or tag make a node of nothing, unless both are empty. */
  predicate NamesNode(p: P, n: nat)
    requires n == 0 || Has(p, n - 1)
  {
    exists k :: 0 <= k < n && match Ahead(p, k)
      case Anchor(name) => name != ""
      case Tag(handle, suffix) => handle != "" || suffix != ""
      case _ => false
  }

  /** What begins the content of a node. */
  predicate BeginsContent(t: Token, block: bool, indentless: bool) {
    || t.ScalarToken? || t.FlowSequenceStart? || t.FlowMappingStart?
    || (block && (t.BlockSequenceStart? || t.BlockMappingStart?))
    || (indentless && t.BlockEntry?)
  }

  /** A node can be read here. */
  predicate TakesNode(p: P, block: bool, indentless: bool) {
    && Has(p, 0)
    && (Ahead(p, 0).AliasToken? || (
          var n := Properties(p);
          && Has(p, n) && TagIsKnown(p, n)
          && (BeginsContent(Ahead(p, n), block, indentless) || NamesNode(p, n))))
  }

  lemma {:induction false} PrefixIs(ds: seq<(string, string)>, handle: string)
    ensures Prefix(ds, handle).None? <==> forall d :: 0 <= d < |ds| ==> ds[d].0 != handle
    ensures forall d :: 0 <= d < |ds| && First(ds, d, handle) ==> Prefix(ds, handle) == Some(ds[d].1)
    ensures Prefix(ds, handle).Some? ==> exists d :: 0 <= d < |ds| && First(ds, d, handle)
  {
    if ds != [] {
      var rest := ds[1..];
      PrefixIs(rest, handle);
      assert forall d :: 0 <= d < |rest| ==> rest[d] == ds[d + 1];
      if ds[0].0 == handle {
        assert First(ds, 0, handle);
      } else {
        forall d | 0 <= d < |ds| && First(ds, d, handle) ensures Prefix(ds, handle) == Some(ds[d].1) { assert First(rest, d - 1, handle); }
        if Prefix(rest, handle).Some? {
          var d :| 0 <= d < |rest| && First(rest, d, handle);
          assert First(ds, d + 1, handle);
        }
      }
    }
  }

  lemma TagResolves(ds: seq<(string, string)>, handle: string, suffix: string)
    ensures ResolveTag(ds, Some((handle, suffix))).Some? <==>
      (handle != "" ==> exists d :: 0 <= d < |ds| && First(ds, d, handle) && ds[d].1 + suffix != "")
    ensures ResolveTag(ds, Some((handle, suffix))).Some? && handle != "" ==> ResolveTag(ds, Some((handle, suffix))).value != ""
    ensures handle == "" ==> ResolveTag(ds, Some((handle, suffix))) == Some(suffix)
  {
    PrefixIs(ds, handle);
  }

  /** A node is read exactly where one can be. */
  lemma NodeTakenExactlyWhen(p: P, block: bool, indentless: bool)
    requires p.states != []
    ensures ParseNode(p, block, indentless).Emit? <==> TakesNode(p, block, indentless)
  {
    hide ResolveTag, ReadProperties, TagIsKnown, NamesNode, Properties;
    if HasToken(p) && !Peek(p).AliasToken? {
      if Has(p, Properties(p)) { NamedNode(p, block, indentless); } else { NoContentAhead(p); }
    }
  }

  lemma NamedNode(p: P, block: bool, indentless: bool)
    requires p.states != [] && Has(p, 0) && !Ahead(p, 0).AliasToken? && Has(p, Properties(p))
    ensures ParseNode(p, block, indentless).Emit? <==>
      var n := Properties(p);
      TagIsKnown(p, n) && (BeginsContent(Ahead(p, n), block, indentless) || NamesNode(p, n))
  {
    hide ResolveTag, ReadProperties, TagIsKnown, NamesNode, Properties;
    PropertiesAre(p);
    PropertiesTold(p);
    var r := ReadProperties(p);
    assert Peek(r.next) == Ahead(p, Properties(p));
  }

  /** When the tag is known, and when a node of nothing has a name. */
  lemma PropertiesTold(p: P)
    requires Has(p, 0) && Has(p, Properties(p))
    ensures var n, r := Properties(p), ReadProperties(p);
      && r.Properties?
      && (ResolveTag(p.directives, r.tag).Some? <==> TagIsKnown(p, n))
      && (ResolveTag(p.directives, r.tag).Some? ==>
            (NamesNode(p, n) <==> r.anchor != "" || ResolveTag(p.directives, r.tag).value != ""))
  {
    hide ResolveTag;
    PropertiesAre(p);
    var r := ReadProperties(p);
    if r.tag.Some? { TagResolves(p.directives, r.tag.value.0, r.tag.value.1); } else { NoTagResolves(p.directives); }
  }

  lemma NoTagResolves(ds: seq<(string, string)>)
    ensures ResolveTag(ds, None) == Some("")
  {
  }

  /** What `ReadProperties` finds. */
  lemma PropertiesAre(p: P)
    requires Has(p, 0) && Has(p, Properties(p))
    ensures var n, r := Properties(p), ReadProperties(p);
      && r.Properties? && r.next == p.(pos := p.pos + n)
      && (r.tag.None? <==> forall k :: 0 <= k < n ==> !Ahead(p, k).Tag?)
      && (r.tag.Some? ==> forall k :: 0 <= k < n && Ahead(p, k).Tag? ==> Ahead(p, k) == Tag(r.tag.value.0, r.tag.value.1))
      && (r.anchor != "" <==> exists k :: 0 <= k < n && Ahead(p, k).Anchor? && Ahead(p, k).name != "")
  {
  }

  lemma NoContentAhead(p: P)
    requires Has(p, 0) && !Has(p, Properties(p))
    ensures ReadProperties(p).NoToken?
  {
  }

  // ----- Directives -----

  predicate IsDirective(t: Token) { t.VersionDirective? || t.TagDirective? }

  /** How many directives come next. */
  function Directives(p: P): (n: nat)
    ensures p.pos + n <= |p.tokens| || n == 0
    ensures forall k :: p.pos <= k < p.pos + n ==> IsDirective(p.tokens[k])
    ensures Has(p, n) ==> !IsDirective(Ahead(p, n))
    decreases |p.tokens| - p.pos
  {
    if Has(p, 0) && IsDirective(Ahead(p, 0)) then Directives(Skip(p)) + 1 else 0
  }

  /** The next `n` tokens are directives that may stand together: one version, which is 1.1, unless it was given before;
      and no handle twice, or that is known. Something comes behind them. */
  ghost predicate Sound(p: P, n: nat, version: bool) {
    && Has(p, n)
    && (forall k :: p.pos <= k < p.pos + n && p.tokens[k].VersionDirective? ==> !version && p.tokens[k] == VersionDirective(1, 1))
    && (forall j, k :: p.pos <= j < k < p.pos + n ==> !(p.tokens[j].VersionDirective? && p.tokens[k].VersionDirective?))
    && (forall k :: p.pos <= k < p.pos + n && p.tokens[k].TagDirective? ==> !HasHandle(p.directives, p.tokens[k].handle))
    && forall j, k :: p.pos <= j < k < p.pos + n && p.tokens[j].TagDirective? && p.tokens[k].TagDirective? ==> p.tokens[j].handle != p.tokens[k].handle
  }

  lemma {:induction false} DirectivesTakenExactlyWhen(p: P, version: bool, tags: seq<(string, string)>)
    ensures ProcessDirectives(p, version, tags).Directives? <==> Sound(p, Directives(p), version)
    ensures ProcessDirectives(p, version, tags).Directives? ==>
      var q := ProcessDirectives(p, version, tags).next; q.pos == p.pos + Directives(p) && q.tokens == p.tokens
    decreases |p.tokens| - p.pos
  {
    hide Sound, HasHandle;
    if Has(p, 0) && IsDirective(Ahead(p, 0)) {
      var n := Directives(Skip(p));
      match Ahead(p, 0) {
        case VersionDirective(major, minor) =>
          if !version && major == 1 && minor == 1 {
            DirectivesTakenExactlyWhen(Skip(p), true, tags);
            VersionFirst(p, n);
          } else {
            VersionRefused(p, n, version);
          }
        case TagDirective(handle, prefix) =>
          if !HasHandle(p.directives, handle) {
            var q := Skip(p).(directives := p.directives + [(handle, prefix)]);
            SameDirectives(Skip(p), q);
            DirectivesTakenExactlyWhen(q, version, tags + [(handle, prefix)]);
            TagFirst(p, q, n, version);
          } else {
            TagRefused(p, n, version);
          }
      }
    } else {
      NoDirectives(p, version);
    }
  }

  lemma NoDirectives(p: P, version: bool)
    ensures Sound(p, 0, version) <==> Has(p, 0)
  {
  }

  lemma VersionRefused(p: P, n: nat, version: bool)
    requires Has(p, 0) && Ahead(p, 0).VersionDirective? && (version || Ahead(p, 0) != VersionDirective(1, 1))
    ensures !Sound(p, n + 1, version)
  {
    assert p.tokens[p.pos].VersionDirective?;
  }

  lemma TagRefused(p: P, n: nat, version: bool)
    requires Has(p, 0) && Ahead(p, 0).TagDirective? && HasHandle(p.directives, Ahead(p, 0).handle)
    ensures !Sound(p, n + 1, version)
  {
    assert p.tokens[p.pos].TagDirective?;
  }

  lemma {:induction false} SameDirectives(p: P, q: P)
    requires q == p.(directives := q.directives)
    ensures Directives(q) == Directives(p)
    decreases |p.tokens| - p.pos
  {
    if Has(p, 0) && IsDirective(Ahead(p, 0)) { SameDirectives(Skip(p), Skip(q)); }
  }

  lemma VersionFirst(p: P, n: nat)
    requires Has(p, 0) && Ahead(p, 0) == VersionDirective(1, 1)
    ensures Sound(p, n + 1, false) <==> Sound(Skip(p), n, true)
  {
    hide HasHandle;
    assert p.tokens[p.pos].VersionDirective?;
  }

  lemma TagFirst(p: P, q: P, n: nat, version: bool)
    requires Has(p, 0) && Ahead(p, 0).TagDirective? && !HasHandle(p.directives, Ahead(p, 0).handle)
    requires q == Skip(p).(directives := p.directives + [(Ahead(p, 0).handle, Ahead(p, 0).prefix)])
    ensures Sound(p, n + 1, version) <==> Sound(q, n, version)
  {
    var d := (Ahead(p, 0).handle, Ahead(p, 0).prefix);
    forall handle: string ensures HasHandle(q.directives, handle) <==> HasHandle(p.directives, handle) || handle == d.0 { HandleAdded(p.directives, d, handle); }
    hide HasHandle;
    assert p.tokens[p.pos].TagDirective?;
  }

  lemma HandleAdded(ds: seq<(string, string)>, d: (string, string), handle: string)
    ensures HasHandle(ds + [d], handle) <==> HasHandle(ds, handle) || handle == d.0
  {
    var r := ds + [d];
    assert forall i :: 0 <= i < |ds| ==> r[i] == ds[i];
    assert r[|ds|] == d;
  }

  // ----- The table -----

  predicate EndsContent(t: Token) { IsDirective(t) || t.DocumentStartToken? || t.DocumentEndToken? || t.StreamEndToken? }

  predicate EndsBlockEntry(t: Token) { t.BlockEntry? || t.BlockEnd? }

  predicate EndsBlockPart(t: Token) { t.Key? || t.Value? || t.BlockEnd? }

  predicate EndsListPart(t: Token) { t.FlowEntry? || t.FlowSequenceEnd? }

  predicate EndsTablePart(t: Token) { t.FlowEntry? || t.FlowMappingEnd? }

  /** Sound directives and `---`. */
  ghost predicate TakesHeader(p: P) { Sound(p, Directives(p), false) && Ahead(p, Directives(p)).DocumentStartToken? }

  /** How many DOCUMENT-END come next. */
  function Ends(p: P): nat
    decreases |p.tokens| - p.pos
  {
    if Has(p, 0) && Ahead(p, 0).DocumentEndToken? then Ends(Skip(p)) + 1 else 0
  }

  ghost predicate TakesDocument(p: P) { Has(p, 0) && (Ahead(p, 0).StreamEndToken? || TakesHeader(p)) }

  predicate TakesBlockEntry(p: P) {
    Has(p, 0) && (Ahead(p, 0).BlockEnd? || (Ahead(p, 0).BlockEntry? && Has(p, 1) && (EndsBlockEntry(Ahead(p, 1)) || TakesNode(Skip(p), true, false))))
  }

  predicate TakesBlockKey(p: P) {
    Has(p, 0) && (Ahead(p, 0).BlockEnd? || (Ahead(p, 0).Key? && Has(p, 1) && (EndsBlockPart(Ahead(p, 1)) || TakesNode(Skip(p), true, true))))
  }

  predicate TakesListItem(p: P) {
    Has(p, 0) && (Ahead(p, 0).Key? || Ahead(p, 0).FlowSequenceEnd? || TakesNode(p, false, false))
  }

  predicate TakesTableItem(p: P) {
    && Has(p, 0)
    && (|| Ahead(p, 0).FlowMappingEnd?
        || if Ahead(p, 0).Key? then Has(p, 1) && (Ahead(p, 1).Value? || EndsTablePart(Ahead(p, 1)) || TakesNode(Skip(p), false, false))
           else TakesNode(p, false, false))
  }

  /** What each state takes. */
  ghost predicate Takes(p: P)
    requires !p.state.EndState?
  {
    match p.state
    case StreamStartState => Has(p, 0) && Ahead(p, 0).StreamStartToken?
    case ImplicitDocumentStart => Has(p, 0) && (IsDirective(Ahead(p, 0)) || Ahead(p, 0).DocumentStartToken? ==> TakesHeader(p))
    case DocumentStartState => TakesDocument(p.(pos := p.pos + Ends(p)))
    case DocumentContent => Has(p, 0) && (EndsContent(Ahead(p, 0)) || TakesNode(p, true, false))
    case DocumentEndState => Has(p, 0)
    case BlockNode => TakesNode(p, true, false)
    case BlockSequenceFirstEntry => TakesBlockEntry(Skip(p))
    case BlockSequenceEntry => TakesBlockEntry(p)
    case IndentlessSequenceEntry =>
      Has(p, 0) && (Ahead(p, 0).BlockEntry? ==> Has(p, 1) && (Ahead(p, 1).BlockEntry? || EndsBlockPart(Ahead(p, 1)) || TakesNode(Skip(p), true, false)))
    case BlockMappingFirstKey => TakesBlockKey(Skip(p))
    case BlockMappingKey => TakesBlockKey(p)
    case BlockMappingValue => Has(p, 0) && (Ahead(p, 0).Value? ==> Has(p, 1) && (EndsBlockPart(Ahead(p, 1)) || TakesNode(Skip(p), true, true)))
    case FlowSequenceFirstEntry => TakesListItem(Skip(p))
    case FlowSequenceEntry => Has(p, 0) && (Ahead(p, 0).FlowSequenceEnd? || (Ahead(p, 0).FlowEntry? && TakesListItem(Skip(p))))
    case FlowSequenceEntryMappingKey => Has(p, 0) && (Ahead(p, 0).Value? || EndsListPart(Ahead(p, 0)) || TakesNode(p, false, false))
    case FlowSequenceEntryMappingValue => Has(p, 0) && (Ahead(p, 0).Value? ==> Has(p, 1) && (EndsListPart(Ahead(p, 1)) || TakesNode(Skip(p), false, false)))
    case FlowSequenceEntryMappingEnd => Has(p, 0)
    case FlowMappingFirstKey => TakesTableItem(Skip(p))
    case FlowMappingKey => Has(p, 0) && (Ahead(p, 0).FlowMappingEnd? || (Ahead(p, 0).FlowEntry? && TakesTableItem(Skip(p))))
    case FlowMappingValue => Has(p, 0) && (Ahead(p, 0).Value? ==> Has(p, 1) && (EndsTablePart(Ahead(p, 1)) || TakesNode(Skip(p), false, false)))
    case FlowMappingEmptyValue => Has(p, 0)
  }

  /** A node is taken alike with whatever else is on the stacks. */
  lemma SameNode(p: P, q: P, block: bool, indentless: bool)
    requires q == p.(state := q.state, states := q.states, marks := q.marks)
    ensures TakesNode(q, block, indentless) == TakesNode(p, block, indentless)
  {
    assert Properties(q) == Properties(p);
  }

  lemma NodeIn(p: P, q: P, block: bool, indentless: bool)
    requires q == p.(state := q.state, states := q.states, marks := q.marks) && q.states != []
    ensures ParseNode(q, block, indentless).Emit? <==> TakesNode(p, block, indentless)
  {
    hide TakesNode, ParseNode;
    SameNode(p, q, block, indentless);
    NodeTakenExactlyWhen(q, block, indentless);
  }

  lemma {:induction false} EndsSkipped(p: P)
    ensures SkipDocumentEnds(p) == p.(pos := p.pos + Ends(p))
    decreases |p.tokens| - p.pos
  {
    if Has(p, 0) && Ahead(p, 0).DocumentEndToken? { EndsSkipped(Skip(p)); }
  }

  /** A node behind `k` tokens, to be returned from to `s`; `q` is the parser there. */
  lemma NodeBehind(p: P, k: nat, q: P, s: State, block: bool, indentless: bool)
    requires Has(p, k) && q == p.(pos := p.pos + k, marks := q.marks)
    ensures ParseNode(Push(q, s), block, indentless).Emit? <==> TakesNode(p.(pos := p.pos + k), block, indentless)
  {
    hide TakesNode, ParseNode;
    NodeIn(p.(pos := p.pos + k), Push(q, s), block, indentless);
  }

  lemma BlockSequenceTaken(p: P, first: bool)
    requires p.states != [] && (if first then Has(p, 0) else p.marks != [])
    ensures ParseBlockSequenceEntry(p, first).Emit? <==> TakesBlockEntry(if first then Skip(p) else p)
  {
    hide TakesNode, ParseNode;
    var k, q := if first then 1 else 0, Skip(if first then Enter(p) else p);
    if Has(p, k + 1) { NodeBehind(p, k + 1, q, BlockSequenceEntry, true, false); }
  }

  lemma IndentlessTaken(p: P)
    requires p.states != [] && p.state.IndentlessSequenceEntry?
    ensures ParseIndentlessSequenceEntry(p).Emit? <==> Takes(p)
  {
    hide TakesNode, ParseNode;
    if Has(p, 1) { NodeBehind(p, 1, Skip(p), IndentlessSequenceEntry, true, false); }
  }

  lemma BlockKeyTaken(p: P, first: bool)
    requires p.states != [] && (if first then Has(p, 0) else p.marks != [])
    ensures ParseBlockMappingKey(p, first).Emit? <==> TakesBlockKey(if first then Skip(p) else p)
  {
    hide TakesNode, ParseNode;
    var k, q := if first then 1 else 0, Skip(if first then Enter(p) else p);
    if Has(p, k + 1) { NodeBehind(p, k + 1, q, BlockMappingValue, true, true); }
  }

  lemma BlockValueTaken(p: P)
    requires p.states != [] && p.state.BlockMappingValue?
    ensures ParseBlockMappingValue(p).Emit? <==> Takes(p)
  {
    hide TakesNode, ParseNode;
    if Has(p, 1) { NodeBehind(p, 1, Skip(p), BlockMappingKey, true, true); }
  }

  lemma ListItemTaken(p: P, first: bool)
    requires p.states != [] && (if first then Has(p, 0) else p.marks != [])
    ensures ParseFlowSequenceEntry(p, first).Emit? <==>
      if first then TakesListItem(Skip(p)) else Has(p, 0) && (Ahead(p, 0).FlowSequenceEnd? || (Ahead(p, 0).FlowEntry? && TakesListItem(Skip(p))))
  {
    hide TakesNode, ParseNode;
    if Has(p, 1) { NodeBehind(p, 1, if first then Enter(p) else Skip(p), FlowSequenceEntry, false, false); }
  }

  lemma ListPairTaken(p: P)
    requires p.states != [] && (p.state.FlowSequenceEntryMappingKey? || p.state.FlowSequenceEntryMappingValue? || p.state.FlowSequenceEntryMappingEnd?)
    ensures Next(p).Emit? <==> Takes(p)
  {
    hide TakesNode, ParseNode;
    if Has(p, 0) { NodeBehind(p, 0, p, FlowSequenceEntryMappingValue, false, false); }
    if Has(p, 1) { NodeBehind(p, 1, Skip(p), FlowSequenceEntryMappingEnd, false, false); }
    assert p.(pos := p.pos + 0) == p;
  }

  lemma TableItemTaken(p: P, first: bool)
    requires p.states != [] && (if first then Has(p, 0) else p.marks != [])
    ensures ParseFlowMappingKey(p, first).Emit? <==>
      if first then TakesTableItem(Skip(p)) else Has(p, 0) && (Ahead(p, 0).FlowMappingEnd? || (Ahead(p, 0).FlowEntry? && TakesTableItem(Skip(p))))
  {
    hide TakesNode, ParseNode;
    if Has(p, 1) { NodeBehind(p, 1, if first then Enter(p) else Skip(p), FlowMappingEmptyValue, false, false); }
    if Has(p, 2) { NodeBehind(p, 2, Skip(if first then Enter(p) else Skip(p)), FlowMappingValue, false, false); }
    assert Skip(Skip(p)) == p.(pos := p.pos + 2);
  }

  lemma TableValueTaken(p: P)
    requires p.states != [] && (p.state.FlowMappingValue? || p.state.FlowMappingEmptyValue?)
    ensures Next(p).Emit? <==> Takes(p)
  {
    hide TakesNode, ParseNode;
    if Has(p, 1) { NodeBehind(p, 1, Skip(p), FlowMappingKey, false, false); }
  }

  lemma DocumentTaken(p: P)
    requires p.state.ImplicitDocumentStart? || p.state.DocumentStartState?
    ensures Next(p).Emit? <==> Takes(p)
  {
    hide Sound, ProcessDirectives, SkipDocumentEnds, Directives;
    EndsSkipped(p);
    var q := if p.state.ImplicitDocumentStart? then p else p.(pos := p.pos + Ends(p));
    DirectivesTakenExactlyWhen(q, false, []);
    HeaderAhead(q);
  }

  lemma HeaderAhead(p: P)
    ensures Sound(p, Directives(p), false) ==> Has(p, Directives(p)) && Has(p, 0)
    ensures Has(p, 0) && !IsDirective(Ahead(p, 0)) ==> Directives(p) == 0 && Sound(p, 0, false)
  {
  }

  /** In every state that the parser can be in, a call succeeds exactly when the state takes what comes. */
  lemma CallSucceedsExactlyWhen(p: P)
    requires Coherent(p) && !p.state.EndState?
    ensures Next(p).Emit? <==> Takes(p)
  {
    hide TakesNode, ParseNode, TakesBlockEntry, TakesBlockKey, TakesListItem, TakesTableItem, Sound, Directives, ProcessDirectives;
    match p.state {
      case StreamStartState =>
      case ImplicitDocumentStart => DocumentTaken(p);
      case DocumentStartState => DocumentTaken(p);
      case DocumentContent => NodeIn(p, p, true, false);
      case DocumentEndState =>
      case BlockNode => NodeIn(p, p, true, false);
      case BlockSequenceFirstEntry => BlockSequenceTaken(p, true);
      case BlockSequenceEntry => BlockSequenceTaken(p, false);
      case IndentlessSequenceEntry => IndentlessTaken(p);
      case BlockMappingFirstKey => BlockKeyTaken(p, true);
      case BlockMappingKey => BlockKeyTaken(p, false);
      case BlockMappingValue => BlockValueTaken(p);
      case FlowSequenceFirstEntry => ListItemTaken(p, true);
      case FlowSequenceEntry => ListItemTaken(p, false);
      case FlowSequenceEntryMappingKey => ListPairTaken(p);
      case FlowSequenceEntryMappingValue => ListPairTaken(p);
      case FlowSequenceEntryMappingEnd => ListPairTaken(p);
      case FlowMappingFirstKey => TableItemTaken(p, true);
      case FlowMappingKey => TableItemTaken(p, false);
      case FlowMappingValue => TableValueTaken(p);
      case FlowMappingEmptyValue => TableValueTaken(p);
    }
  }
}
