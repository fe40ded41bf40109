/** What a tree looks like in print, but for spaces and line breaks: a printer that goes down the tree, and knows
    nothing of the emitter's states. It decides on its own where anchors and tags stand, what is a simple key, and in
    which style a scalar is printed. */
module TreePrinter {
  import opened Options
  import opened Chars
  import opened Events
  import opened ScalarEmitter
  import opened CharacterSets
  import TagUri

  predicate IsLayout(c: char) { c == ' ' || IsBreak(c) }

  /** A text without its spaces and line breaks. */
  function Ink(t: string): string {
    if t == "" then "" else (if IsLayout(t[0]) then "" else [t[0]]) + Ink(t[1..])
  }

  // ----- Scalars -----

  /** The indentation hint, and whether the line breaks at the end are stripped or kept. */
  function HeaderInk(v: string, bestIndent: int): string
    requires v != ""
  {
    (if (v[0] == ' ' || IsBreak(v[0])) && 0 <= bestIndent <= 9 then ['0' + bestIndent as char] else "")
    + (if !IsBreak(v[|v| - 1]) then "-" else if |v| == 1 || IsBreak(v[|v| - 2]) then "+" else "")
  }

  /** Every quote twice. */
  function Doubled(v: string): string {
    if v == "" then "" else (if v[0] == '\'' then "''" else [v[0]]) + Doubled(v[1..])
  }

  /** The characters that have an escape of one letter, and the letters. */
  const ESCAPED := "\0\U{07}\U{08}\t\n\U{0B}\U{0C}\r\U{1B}\"\\\U{85}\U{A0}\U{2028}\U{2029}"
  const ESCAPES := "0abtnvfre\"\\N_LP"

  function UpperDigits(v: nat, n: nat): string {
    if n == 0 then "" else UpperDigits(v / 16, n - 1) + ["0123456789ABCDEF"[v % 16]]
  }

  /** The escape of a character: its letter, or its number in as few digits as there is a form for. */
  function Escape(c: char): string {
    if k :| 0 <= k < |ESCAPED| && ESCAPED[k] == c then ['\\', ESCAPES[k]]
    else if c as int < 0x100 then "\\x" + UpperDigits(c as int, 2)
    else if c as int < 0x1_0000 then "\\u" + UpperDigits(c as int, 4)
    else "\\U" + UpperDigits(c as int, 8)
  }

  /** What cannot stand for itself between double quotes; nothing can in a value that begins with a byte order mark. */
  predicate IsEscaped(v: string, i: nat, unicode: bool)
    requires i < |v|
  {
    v[0] == '\U{FEFF}' || NeedsEscape(v[i], unicode) || Among(v[i], "\t\"\\") || Among(v[i], BREAKS)
  }

  /** Every character from `i` on, escaped where it must be. The only mark that layout leaves: `marks[k]` says that a
      line was folded before character `i + k`, a space, and the next one, a space too, is kept by a backslash. */
  function EscapedInk(v: string, unicode: bool, i: nat, marks: seq<bool>): string
    requires |marks| == |v| - i
    decreases |v| - i
  {
    if i >= |v| then ""
    else
      (if IsEscaped(v, i, unicode) then Ink(Escape(v[i]))
       else if v[i] == ' ' then (if marks[0] then "\\" else "")
       else [v[i]])
      + EscapedInk(v, unicode, i + 1, marks[1..])
  }

  ghost predicate ShowsScalar(v: string, style: Style, settings: Settings, ink: string) {
    match style
    case Any => false
    case Plain => ink == Ink(v)
    case SingleQuoted => ink == "'" + Ink(Doubled(v)) + "'"
    case DoubleQuoted => exists marks: seq<bool> :: |marks| == |v| && ink == "\"" + EscapedInk(v, settings.unicode, 0, marks) + "\""
    case Literal => v != "" && ink == "|" + HeaderInk(v, settings.bestIndent) + Ink(v)
    case Folded => v != "" && ink == ">" + HeaderInk(v, settings.bestIndent) + Ink(v)
  }

  // ----- Styles -----

  /** Not printable, or not with the `unicode` setting off; a tab is another matter. */
  predicate NeedsEscape(c: char, unicode: bool) { c != '\t' && (!IsPrintable(c) || (c as int > 0x7F && !unicode)) }

  predicate SpansLines(v: string) { exists i :: 0 <= i < |v| && Among(v[i], BREAKS) }

  /** A space at the end of a line. */
  predicate EndsInSpace(v: string, i: nat)
    requires i < |v|
  {
    v[i] == ' ' && (i + 1 == |v| || Among(v[i + 1], BREAKS))
  }

  /** A space at the beginning of a line. */
  predicate BeginsWithSpace(v: string, i: nat)
    requires i < |v|
  {
    v[i] == ' ' && (i == 0 || Among(v[i - 1], BREAKS))
  }

  /** The values that single quotes keep: none of their lines but the first begins, and none but the last ends, with a
      space, and there is nothing to escape. */
  predicate MayBeQuoted(v: string, unicode: bool) {
    forall i :: 0 <= i < |v| ==>
      && v[i] != '\t' && !NeedsEscape(v[i], unicode)
      && (EndsInSpace(v, i) ==> i == |v| - 1) && (BeginsWithSpace(v, i) ==> i == 0)
  }

  /** The values that a literal or folded scalar keeps. */
  predicate MayBeBlock(v: string, unicode: bool) {
    v != "" && forall i :: 0 <= i < |v| ==> !NeedsEscape(v[i], unicode) && !EndsInSpace(v, i)
  }

  /** Nothing, or a blank, is at `i`. */
  predicate Separates(v: string, i: nat) { i >= |v| || Among(v[i], BLANKS) }

  /** The character could be taken for an indicator. */
  predicate Misleads(v: string, i: nat, flow: bool)
    requires i < |v|
  {
    var c := v[i];
    if i == 0 then
      || Among(c, "#,[]{}&*!|>'\"%@`")
      || (Among(c, "?:") && (flow || Separates(v, 1)))
      || (c == '-' && Separates(v, 1))
    else
      || (c == '#' && !IsText(v[i - 1]))
      || (if flow then Among(c, ",?[]{}:") else c == ':' && Separates(v, i + 1))
  }

  /** The values that need no quotes: a single line without a space at either end, where nothing misleads. */
  predicate MayBePlain(v: string, flow: bool, simple: bool, unicode: bool) {
    && (v == "" ==> !flow && !simple)
    && MayBeQuoted(v, unicode) && !SpansLines(v) && (v != "" ==> v[0] != ' ' && v[|v| - 1] != ' ')
    && !StartsWith(v, "---") && !StartsWith(v, "...") && forall i :: 0 <= i < |v| ==> !Misleads(v, i, flow)
  }

  /** The style asked for where value and place allow it, and otherwise the next that keeps the value. A plain scalar
      without a tag must be one that is read as what it is. */
  function StyleIn(env: Env, flow: bool, simple: bool, e: Event): Style
    requires e.Scalar?
  {
    var v, unicode := e.value, env.settings.unicode;
    if env.settings.canonical || (simple && SpansLines(v)) then DoubleQuoted
    else
      match e.style
      case DoubleQuotedStyle => DoubleQuoted
      case SingleQuotedStyle => if MayBeQuoted(v, unicode) then SingleQuoted else DoubleQuoted
      case LiteralStyle => if MayBeBlock(v, unicode) && !flow && !simple then Literal else DoubleQuoted
      case FoldedStyle => if MayBeBlock(v, unicode) && !flow && !simple then Folded else DoubleQuoted
      case _ =>
        if MayBePlain(v, flow, simple, unicode) && (e.implicit || !Unmarked(env, e)) then Plain
        else if MayBeQuoted(v, unicode) then SingleQuoted
        else DoubleQuoted
  }

  // ----- Anchors and tags -----

  /** What does not change inside a document. */
  datatype Env = Env(settings: Settings, directives: seq<(string, string)>)

  function OpenOf(n: Node): Event { match n case Leaf(e) => e case Sequence(e, _) => e case Mapping(e, _) => e }

  function TagOf(e: Event): string {
    if e.Scalar? || e.SequenceStart? || e.MappingStart? then e.tag else ""
  }

  /** A tag stands where there is one, unless the flags say that it goes without saying. */
  predicate Tagged(env: Env, e: Event) {
    TagOf(e) != "" && (env.settings.canonical || !(e.implicit || (e.Scalar? && e.quotedImplicit)))
  }

  /** The first directive whose prefix begins the tag. */
  function Fitting(ds: seq<(string, string)>, tag: string): (k: nat)
    ensures k <= |ds| && (k < |ds| ==> ds[k].1 <= tag) && forall j :: 0 <= j < k ==> !(ds[j].1 <= tag)
  {
    if ds == [] then 0
    else
      var k := Fitting(ds[..|ds| - 1], tag);
      if k < |ds| - 1 || ds[|ds| - 1].1 <= tag then k else |ds|
  }

  /** Handle and suffix: of a directive that is in force, whose prefix and the suffix make up the tag, or else no handle. */
  function Shorthand(env: Env, e: Event): (string, string) {
    if !Tagged(env, e) then ("", "")
    else
      var k := Fitting(env.directives, TagOf(e));
      if k < |env.directives| then (env.directives[k].0, TagOf(e)[|env.directives[k].1|..]) else ("", TagOf(e))
  }

  predicate Unmarked(env: Env, e: Event) { Shorthand(env, e) == ("", "") }

  function AnchorOf(e: Event): string {
    if e.Alias? then e.name else if e.Scalar? || e.SequenceStart? || e.MappingStart? then e.anchor else ""
  }

  function AnchorInk(e: Event): string {
    if AnchorOf(e) == "" then "" else (if e.Alias? then "*" else "&") + Ink(AnchorOf(e))
  }

  function TagInk(handle: string, suffix: string): string {
    if handle != "" then Ink(handle) + Ink(TagUri.TagText(suffix))
    else if suffix != "" then "!<" + Ink(TagUri.TagText(suffix)) + ">"
    else ""
  }

  function PropertiesInk(env: Env, e: Event): string {
    AnchorInk(e) + TagInk(Shorthand(env, e).0, Shorthand(env, e).1)
  }

  // ----- Trees -----

  datatype Kind = FlowList | FlowTable | BlockList | BlockTable

  predicate InFlow(k: Kind) { k.FlowList? || k.FlowTable? }

  predicate IsTable(k: Kind) { k.FlowTable? || k.BlockTable? }

  function Opening(k: Kind): string { match k case FlowList => "[" case FlowTable => "{" case _ => "" }

  function Closing(k: Kind): string { match k case FlowList => "]" case FlowTable => "}" case _ => "" }

  /** The event behind the first of a node, as far as it matters: an empty collection ends at once. */
  function Behind(n: Node): Option<Event> {
    match n
    case Sequence(_, items) => if items == [] then Some(SequenceEnd) else None
    case Mapping(_, content) => if content == [] then Some(MappingEnd) else None
    case Leaf(_) => None
  }

  predicate OnOneLine(n: Node) {
    match n
    case Leaf(e) => e.Alias? || (e.Scalar? && !SpansLines(e.value))
    case Sequence(_, items) => items == []
    case Mapping(_, content) => content == []
  }

  function Octets(s: string): nat { |EncodeAll(s)| }

  /** The octets of anchor, tag and value. */
  function Weight(env: Env, e: Event): nat {
    Octets(AnchorOf(e)) + Octets(Shorthand(env, e).0) + Octets(Shorthand(env, e).1) + if e.Scalar? then Octets(e.value) else 0
  }

  /** A key that needs no `?`. */
  predicate SimpleKey(env: Env, k: Kind, n: Node) {
    !(k.FlowTable? && env.settings.canonical) && OnOneLine(n) && Weight(env, OpenOf(n)) <= 128
  }

  function KindOf(env: Env, n: Node, flow: bool): Kind
    requires !n.Leaf?
  {
    var inFlow := flow || env.settings.canonical || Behind(n).Some? || (OpenOf(n).SequenceStart? && OpenOf(n).collection.Flow?)
      || (OpenOf(n).MappingStart? && OpenOf(n).collection.Flow?);
    if n.Sequence? then (if inFlow then FlowList else BlockList) else if inFlow then FlowTable else BlockTable
  }

  /** What comes before a node of a collection: `second` is a value after its key. */
  function Before(k: Kind, first: bool, second: bool, simple: bool): string {
    if second then ":"
    else
      match k
      case FlowList => if first then "" else ","
      case FlowTable => (if first then "" else ",") + (if simple then "" else "?")
      case BlockList => "-"
      case BlockTable => if simple then "" else "?"
  }

  /** A scalar that goes without its tag, but would be read as something else without quotes, is marked by `!`. */
  ghost predicate ShowsLeaf(e: Event, flow: bool, simple: bool, env: Env, ink: string) {
    if e.Alias? then ink == AnchorInk(e)
    else
      e.Scalar? &&
      var style := StyleIn(env, flow, simple, e);
      var tag := if Unmarked(env, e) && !e.quotedImplicit && !style.Plain? then "!" else TagInk(Shorthand(env, e).0, Shorthand(env, e).1);
      exists x: string :: ShowsScalar(e.value, style, env.settings, x) && ink == AnchorInk(e) + tag + x
  }

  ghost predicate Shows(n: Node, flow: bool, simple: bool, env: Env, ink: string)
    decreases n, 0
  {
    if n.Leaf? then ShowsLeaf(n.leaf, flow, simple, env, ink)
    else
      var k, ns := KindOf(env, n, flow), if n.Sequence? then n.items else n.content;
      exists body: string ::
        && ShowsAll(ns, k, true, false, env, body)
        && ink == PropertiesInk(env, OpenOf(n)) + Opening(k) + body
                  + (if InFlow(k) && env.settings.canonical && ns != [] then "," else "") + Closing(k)
  }

  ghost predicate ShowsAll(ns: seq<Node>, k: Kind, first: bool, second: bool, env: Env, ink: string)
    decreases ns, 1
  {
    if ns == [] then ink == ""
    else
      var simple := IsTable(k) && !second && SimpleKey(env, k, ns[0]);
      exists a: string, rest: string ::
        && Shows(ns[0], InFlow(k), simple, env, a)
        && ShowsAll(ns[1..], k, false, IsTable(k) && !second, env, rest)
        && ink == Before(k, first, second, simple) + a + rest
  }

  // ----- Documents -----

  datatype Document = Document(start: Event, root: Node, end: Event)

  predicate WholeDocument(d: Document) {
    d.start.DocumentStart? && WellFormed(d.root) && d.end.DocumentEnd?
  }

  function EventsOf(docs: seq<Document>): seq<Event> {
    if docs == [] then [StreamEnd] else [docs[0].start] + (Flatten(docs[0].root) + ([docs[0].end] + EventsOf(docs[1..])))
  }

  function DirectivesInk(ds: seq<(string, string)>): string {
    if ds == [] then "" else "%TAG" + Ink(ds[0].0) + Ink(TagUri.TagText(ds[0].1)) + DirectivesInk(ds[1..])
  }

  /** Only the first document may do without its marker, when it has no directives. Directives behind
      an open text are separated from it by `...`. */
  function StartInk(e: Event, first: bool, open: bool, canonical: bool): string
    requires e.DocumentStart?
  {
    (if open && (e.version || e.directives != []) then "..." else "")
    + (if e.version then "%YAML1.1" else "") + DirectivesInk(e.directives)
    + (if e.implicitStart && first && !canonical && !e.version && e.directives == [] then "" else "---")
  }

  function EnvIn(d: Document, settings: Settings): Env
    requires d.start.DocumentStart?
  {
    Env(settings, InForce(d.start.directives))
  }

  /** The root is a scalar that is printed plain. */
  ghost predicate PlainRoot(n: Node, env: Env) {
    n.Leaf? && n.leaf.Scalar? && StyleIn(env, false, false, n.leaf).Plain?
  }

  /** Nothing in the text marks the end of the document: a plain root and no `...` behind it. */
  ghost predicate LeftOpen(d: Document, settings: Settings)
    requires WholeDocument(d)
  {
    d.end.implicitEnd && PlainRoot(d.root, EnvIn(d, settings))
  }

  /** `open`: the document before was left open. Then `...` comes before directives and before the end
      of the stream, and only then. */
  ghost predicate ShowsDocuments(docs: seq<Document>, first: bool, open: bool, settings: Settings, ink: string) {
    if docs == [] then ink == if open then "..." else ""
    else
      var d := docs[0];
      WholeDocument(d) &&
      exists x: string, rest: string ::
        && Shows(d.root, false, false, EnvIn(d, settings), x)
        && ShowsDocuments(docs[1..], false, LeftOpen(d, settings), settings, rest)
        && ink == StartInk(d.start, first, open, settings.canonical) + x + (if d.end.implicitEnd then "" else "...") + rest
  }
}
