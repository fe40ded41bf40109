/** How scalars are spelled, and what each spelling means: an account of sections 5.4, 5.7, 6.5 and 7.3 of
    YAML 1.2, with the departures of this engine, that knows no scanner. */
module ScalarSpellings {
  import opened CharacterSets

  // ----- Characters -----

  /** `c` is a digit of value `d`, in either case. */
  predicate IsDigit(c: char, d: int) { 0 <= d < 16 && ("0123456789abcdef"[d] == c || "0123456789ABCDEF"[d] == c) }

  /** The digits spell the number. */
  predicate Spells(digits: string, v: nat) {
    if digits == "" then v == 0 else IsDigit(digits[|digits| - 1], v % 16) && Spells(digits[..|digits| - 1], v / 16)
  }

  /** The escapes of one letter, and what they stand for. */
  const LETTERS := "0abt\tnvfre \"'\\N_LP"
  const MEANINGS := "\0\U{07}\U{08}\t\t\n\U{0B}\U{0C}\r\U{1B} \"'\\\U{85}\U{A0}\U{2028}\U{2029}"

  predicate IsEscape(letter: char, c: char) { exists i :: 0 <= i < |LETTERS| && LETTERS[i] == letter && MEANINGS[i] == c }

  /** The letters that announce a number, and with how many digits. */
  function Digits(letter: char): nat { if letter == 'x' then 2 else if letter == 'u' then 4 else if letter == 'U' then 8 else 0 }

  // ----- Line breaks -----

  datatype LineBreak = CrLf | Cr | Lf | Nel | Ls | Ps

  function BreakText(b: LineBreak): string {
    match b
    case CrLf => "\r\n"
    case Cr => "\r"
    case Lf => "\n"
    case Nel => "\U{85}"
    case Ls => "\U{2028}"
    case Ps => "\U{2029}"
  }

  predicate Kept(b: LineBreak) { b.Ls? || b.Ps? }

  function BreakMeaning(b: LineBreak): string { if Kept(b) then BreakText(b) else "\n" }

  /** A line break, and the blanks that the next line begins with. */
  datatype Line = Line(ends: LineBreak, blanks: string)

  function LinesText(lines: seq<Line>): string {
    if lines == [] then "" else BreakText(lines[0].ends) + lines[0].blanks + LinesText(lines[1..])
  }

  function LinesMeaning(lines: seq<Line>): string {
    if lines == [] then "" else BreakMeaning(lines[0].ends) + LinesMeaning(lines[1..])
  }

  /** Line folding: a single break is a space, and the first of several is dropped, unless it is LS or PS. */
  function Folded(lines: seq<Line>): string
    requires lines != []
  {
    if Kept(lines[0].ends) then LinesMeaning(lines) else if |lines| == 1 then " " else LinesMeaning(lines[1..])
  }

  predicate AllBlank(s: string) { forall i :: 0 <= i < |s| ==> Among(s[i], BLANKS) }

  /** No CR stands right before a LF, which would be one break. */
  predicate AreLines(lines: seq<Line>) {
    && (forall i :: 0 <= i < |lines| ==> AllBlank(lines[i].blanks))
    && forall i :: 0 <= i < |lines| - 1 && lines[i].ends == Cr && lines[i].blanks == "" ==> lines[i + 1].ends != Lf
  }

  // ----- Pieces -----

  datatype Piece =
    | Raw(c: char)                                 // a character as it stands
    | Doubled                                      // two single quotes
    | Letter(letter: char, c: char)                // a backslash and a letter
    | Code(letter: char, digits: string, c: char)  // a backslash, a letter and digits
    | Blanks(blanks: string)                       // blanks within a line
    | Broken(blanks: string, lines: seq<Line>)     // blanks, and line breaks that are folded
    | Continued(lines: seq<Line>)                  // a backslash and line breaks, of which the first is not there

  predicate IsGap(x: Piece) { x.Blanks? || x.Broken? }

  function PieceText(x: Piece): string {
    match x
    case Raw(c) => [c]
    case Doubled => "''"
    case Letter(letter, _) => ['\\', letter]
    case Code(letter, digits, _) => ['\\', letter] + digits
    case Blanks(blanks) => blanks
    case Broken(blanks, lines) => blanks + LinesText(lines)
    case Continued(lines) => "\\" + LinesText(lines)
  }

  function PieceMeaning(x: Piece): string {
    match x
    case Raw(c) => [c]
    case Doubled => "'"
    case Letter(_, c) => [c]
    case Code(_, _, c) => [c]
    case Blanks(blanks) => blanks
    case Broken(_, lines) => if lines == [] then "" else Folded(lines)
    case Continued(lines) => if lines == [] then "" else LinesMeaning(lines[1..])
  }

  function Text(ps: seq<Piece>): string { if ps == [] then "" else PieceText(ps[0]) + Text(ps[1..]) }

  function Meaning(ps: seq<Piece>): string { if ps == [] then "" else PieceMeaning(ps[0]) + Meaning(ps[1..]) }

  /** The column behind a piece that begins in column `col`. */
  function PieceColumn(col: nat, x: Piece): nat {
    if EndsLine(x) then |x.lines[|x.lines| - 1].blanks| else col + |PieceText(x)|
  }

  predicate EndsLine(x: Piece) { (x.Broken? || x.Continued?) && x.lines != [] }

  function Column(col: nat, ps: seq<Piece>): nat
    decreases |ps|
  {
    if ps == [] then col else Column(PieceColumn(col, ps[0]), ps[1..])
  }

  predicate IsQuotedPiece(single: bool, x: Piece) {
    match x
    case Raw(c) => IsText(c) && (if single then c != '\'' else c != '"' && c != '\\')
    case Doubled => single
    case Letter(letter, c) => !single && IsEscape(letter, c)
    case Code(letter, digits, c) => !single && |digits| == Digits(letter) > 0 && Spells(digits, c as int)
    case Blanks(blanks) => blanks != "" && AllBlank(blanks)
    case Broken(blanks, lines) => AllBlank(blanks) && lines != [] && AreLines(lines)
    case Continued(lines) => !single && lines != [] && AreLines(lines)
  }

  /** What may stand between the quotes: a gap is one piece. */
  predicate IsQuoted(single: bool, ps: seq<Piece>) {
    && (forall i :: 0 <= i < |ps| ==> IsQuotedPiece(single, ps[i]))
    && forall i :: 0 <= i < |ps| - 1 && (IsGap(ps[i]) || ps[i].Continued?) ==> !IsGap(ps[i + 1])
  }

  /** A line that begins so is the marker of a document. */
  predicate IsMarker(s: string) {
    && (StartsWith(s, "---") || StartsWith(s, "..."))
    && (|s| > 3 ==> !IsText(s[3]))
  }

  /** A line of the scalar other than its first, behind which `tail` stands, begins with a marker. */
  predicate HoldsMarker(ps: seq<Piece>, tail: string) {
    ps != [] && ((EndsLine(ps[0]) && PieceColumn(0, ps[0]) == 0 && IsMarker(Text(ps[1..]) + tail)) || HoldsMarker(ps[1..], tail))
  }
}
