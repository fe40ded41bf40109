/** What the reader makes of its input (readerc.go, `yaml_parser_update_buffer`): one character at a
    time, from UTF-8 (section 3 of RFC 3629) or UTF-16 (section 2 of RFC 2781). Nothing here depends
    on how the input was cut into reads. */
module Decoding {
  import opened Chars
  import opened Options

  datatype Encoding = Utf8 | Utf16LE | Utf16BE

  datatype ErrorKind =
    | InvalidLeading | IncompleteUtf8 | InvalidTrailing | InvalidLength | InvalidCharacter
    | IncompleteUtf16 | UnexpectedLow | IncompletePair | ExpectedLow
    | ControlCharacter

  datatype Problem = Problem(kind: ErrorKind, offset: nat)

  /** `More`: the octets in view do not make up a character yet; the kind is reported at end of file. */
  datatype Found = More(kind: ErrorKind) | Character(c: char, width: nat) | Bad(problem: Problem)

  predicate IsSurrogate(v: int) { 0xD800 <= v <= 0xDFFF }

  /** The last check, common to all encodings. */
  function Checked(v: int, width: nat, p: nat): Found
    requires 0 <= v <= 0x10FFFF && !IsSurrogate(v)
  {
    if ReaderAccepts(v) then Character(v as char, width) else Bad(Problem(ControlCharacter, p))
  }

  predicate IsTrailing(b: Byte) { 0x80 <= b < 0xC0 }

  /** The first octet from `k` on that does not continue the character. */
  function FirstBad(bs: seq<Byte>, k: nat): (r: nat)
    requires k <= |bs|
    ensures k <= r <= |bs| && (r < |bs| ==> !IsTrailing(bs[r]))
    ensures forall j :: k <= j < r ==> IsTrailing(bs[j])
    decreases |bs| - k
  {
    if k < |bs| && IsTrailing(bs[k]) then FirstBad(bs, k + 1) else k
  }

  function Smallest(width: nat): int {
    if width <= 1 then 0 else if width == 2 then 0x80 else if width == 3 then 0x800 else 0x10000
  }

  /** `bs` is as long as its leading octet says. */
  function Utf8Value(bs: seq<Byte>, p: nat): Found
    requires 1 <= |bs| <= 4
  {
    var bad := FirstBad(bs, 1);
    if bad < |bs| then Bad(Problem(InvalidTrailing, p + bad))
    else
      var v := Assemble(bs);
      if v < Smallest(|bs|) then Bad(Problem(InvalidLength, p))
      else if IsSurrogate(v) || v > 0x10FFFF then Bad(Problem(InvalidCharacter, p))
      else Checked(v, |bs|, p)
  }

  function Utf8At(input: seq<Byte>, p: nat, avail: nat): Found
    requires 0 < avail && p + avail <= |input|
  {
    var width := Width(input[p]);
    if width == 0 then Bad(Problem(InvalidLeading, p))
    else if width > avail then More(IncompleteUtf8)
    else Utf8Value(input[p..p + width], p)
  }

  function Unit(big: bool, first: int, second: int): int {
    if big then first * 0x100 + second else second * 0x100 + first
  }

  predicate IsHigh(v: int) { 0xD800 <= v <= 0xDBFF }

  predicate IsLow(v: int) { 0xDC00 <= v <= 0xDFFF }

  /** The mask tests of the source are range tests. */
  lemma SurrogateMasks(v: bv16)
    ensures (v & 0xFC00 == 0xDC00) <==> 0xDC00 <= v <= 0xDFFF
    ensures (v & 0xFC00 == 0xD800) <==> 0xD800 <= v <= 0xDBFF
  {
  }

  function Utf16At(big: bool, input: seq<Byte>, p: nat, avail: nat): Found
    requires 0 < avail && p + avail <= |input|
  {
    if avail < 2 then More(IncompleteUtf16)
    else
      var v := Unit(big, input[p], input[p + 1]);
      if IsLow(v) then Bad(Problem(UnexpectedLow, p))
      else if IsHigh(v) then
        if avail < 4 then More(IncompletePair)
        else
          var v2 := Unit(big, input[p + 2], input[p + 3]);
          if !IsLow(v2) then Bad(Problem(ExpectedLow, p + 2)) else Checked(Pair(v, v2), 4, p)
      else Checked(v, 2, p)
  }

  function Pair(high: int, low: int): int { 0x10000 + (high - 0xD800) * 0x400 + (low - 0xDC00) }

  function FoundAt(enc: Encoding, input: seq<Byte>, p: nat, avail: nat): (f: Found)
    requires 0 < avail && p + avail <= |input|
    ensures f.Character? ==> 1 <= f.width <= avail && f.width <= 4 && ReaderAccepts(f.c as int)
    ensures f.Character? ==> |Encode(f.c)| <= if enc.Utf8? then f.width else f.width + f.width / 2
    ensures f.More? ==> avail < 4
  {
    match enc
    case Utf8 => Utf8At(input, p, avail)
    case Utf16LE => Utf16At(false, input, p, avail)
    case Utf16BE => Utf16At(true, input, p, avail)
  }

  /** Seeing more octets never changes an answer. */
  lemma SeeingMore(enc: Encoding, input: seq<Byte>, p: nat, a: nat, b: nat)
    requires 0 < a <= b && p + b <= |input| && !FoundAt(enc, input, p, a).More?
    ensures FoundAt(enc, input, p, b) == FoundAt(enc, input, p, a)
  {
  }

  datatype Decoded = Decoded(chars: string, problem: Option<Problem>)

  /** The whole input from `p` on: the characters up to the end or to the first problem. */
  function Decode(enc: Encoding, input: seq<Byte>, p: nat): Decoded
    requires p <= |input|
    decreases |input| - p
  {
    if p == |input| then Decoded("", None)
    else
      match FoundAt(enc, input, p, |input| - p)
      case More(kind) => Decoded("", Some(Problem(kind, p)))
      case Bad(problem) => Decoded("", Some(problem))
      case Character(c, width) =>
        var rest := Decode(enc, input, p + width);
        Decoded([c] + rest.chars, rest.problem)
  }

  /** The encoding, and where the text begins: section 3 of RFC 2781 for the byte order mark. */
  function Bom(input: seq<Byte>): (Encoding, nat) {
    if |input| >= 2 && input[0] == 0xFF && input[1] == 0xFE then (Utf16LE, 2)
    else if |input| >= 2 && input[0] == 0xFE && input[1] == 0xFF then (Utf16BE, 2)
    else if |input| >= 3 && input[0] == 0xEF && input[1] == 0xBB && input[2] == 0xBF then (Utf8, 3)
    else (Utf8, 0)
  }

  // ----- Against the encodings themselves -----

  function EncodeUtf16(big: bool, c: char): (bs: seq<Byte>) {
    var v := c as int;
    if v <= 0xFFFF then Octets(big, v)
    else
      var u := v - 0x10000;
      Octets(big, 0xD800 + u / 0x400) + Octets(big, 0xDC00 + u % 0x400)
  }

  function Octets(big: bool, v: int): (bs: seq<Byte>)
    requires 0 <= v <= 0xFFFF
    ensures |bs| == 2
  {
    if big then [v / 0x100, v % 0x100] else [v % 0x100, v / 0x100]
  }

  function EncodeAs(enc: Encoding, c: char): seq<Byte> {
    match enc
    case Utf8 => Encode(c)
    case Utf16LE => EncodeUtf16(false, c)
    case Utf16BE => EncodeUtf16(true, c)
  }

  function EncodeAllAs(enc: Encoding, s: string): seq<Byte> {
    if s == "" then [] else EncodeAs(enc, s[0]) + EncodeAllAs(enc, s[1..])
  }

  predicate AllAccepted(s: string) { forall i :: 0 <= i < |s| ==> ReaderAccepts(s[i] as int) }

  predicate HasAt(input: seq<Byte>, p: nat, bs: seq<Byte>) { p + |bs| <= |input| && input[p..p + |bs|] == bs }

  /** A character is found exactly where its own encoding stands: overlong forms, lone surrogates
      and values out of range are not characters. */
  lemma FoundIsEncoded(enc: Encoding, input: seq<Byte>, p: nat, c: char)
    requires p < |input|
    ensures FoundAt(enc, input, p, |input| - p) == Character(c, |EncodeAs(enc, c)|)
      <==> HasAt(input, p, EncodeAs(enc, c)) && ReaderAccepts(c as int)
    ensures FoundAt(enc, input, p, |input| - p).Character? && FoundAt(enc, input, p, |input| - p).c == c ==>
      FoundAt(enc, input, p, |input| - p).width == |EncodeAs(enc, c)|
  {
    match enc {
      case Utf8 => Utf8Found(input, p, c);
      case Utf16LE => Utf16Found(false, input, p, c);
      case Utf16BE => Utf16Found(true, input, p, c);
    }
  }

  lemma Utf8Found(input: seq<Byte>, p: nat, c: char)
    requires p < |input|
    ensures Utf8At(input, p, |input| - p) == Character(c, |Encode(c)|) <==> HasAt(input, p, Encode(c)) && ReaderAccepts(c as int)
    ensures var f := Utf8At(input, p, |input| - p); f.Character? && f.c == c ==> f.width == |Encode(c)|
  {
    hide Utf8Value, Encode, ReaderAccepts;
    var width := Width(input[p]);
    if HasAt(input, p, Encode(c)) {
      assert input[p] == input[p..p + |Encode(c)|][0] == Encode(c)[0];
    }
    if 0 < width <= |input| - p {
      Utf8ValueIs(input[p..p + width], p, c);
    }
  }

  lemma Utf8ValueIs(bs: seq<Byte>, p: nat, c: char)
    requires 1 <= |bs| <= 4 && Width(bs[0]) == |bs|
    ensures Utf8Value(bs, p) == Character(c, |bs|) <==> bs == Encode(c) && ReaderAccepts(c as int)
    ensures Utf8Value(bs, p).Character? ==> Utf8Value(bs, p).width == |bs|
  {
    hide ReaderAccepts;
    if bs == Encode(c) {
      AssembleEncode(c);
      EncodeIsShortest(c);
    }
    if Utf8Value(bs, p) == Character(c, |bs|) {
      assert Assemble(bs) == c as int;
      AssembledEncodes(bs, c);
    }
  }

  lemma EncodeIsShortest(c: char)
    ensures Smallest(|Encode(c)|) <= c as int
  {
  }

  /** Only the shortest form of a scalar value passes the length check. */
  lemma AssembledEncodes(bs: seq<Byte>, c: char)
    requires 1 <= |bs| <= 4 && Width(bs[0]) == |bs| && forall k :: 1 <= k < |bs| ==> IsTrailing(bs[k])
    requires Assemble(bs) == c as int && Smallest(|bs|) <= c as int
    ensures bs == Encode(c)
  {
    var v := c as int;
    var b0: int := bs[0];
    if |bs| == 2 {
      var b1: int := bs[1];
      assert v == (b0 - 0xC0) * 0x40 + (b1 - 0x80);
    } else if |bs| == 3 {
      var b1: int, b2: int := bs[1], bs[2];
      DigitsOfThree(v, b0 - 0xE0, b1 - 0x80, b2 - 0x80);
    } else if |bs| == 4 {
      var b1: int, b2: int, b3: int := bs[1], bs[2], bs[3];
      DigitsOfFour(v, b0 - 0xF0, b1 - 0x80, b2 - 0x80, b3 - 0x80);
    }
  }

  /** Digits to the base 64. */
  lemma DigitsOfThree(v: int, x: int, y: int, z: int)
    requires 0 <= x && 0 <= y < 0x40 && 0 <= z < 0x40 && v == (x * 0x40 + y) * 0x40 + z
    ensures v / 0x1000 == x && v / 0x40 % 0x40 == y && v % 0x40 == z
  {
    assert v / 0x40 == x * 0x40 + y;
  }

  lemma DigitsOfFour(v: int, w: int, x: int, y: int, z: int)
    requires 0 <= w && 0 <= x < 0x40 && 0 <= y < 0x40 && 0 <= z < 0x40 && v == ((w * 0x40 + x) * 0x40 + y) * 0x40 + z
    ensures v / 0x40000 == w && v / 0x1000 % 0x40 == x && v / 0x40 % 0x40 == y && v % 0x40 == z
  {
    assert v / 0x40 == (w * 0x40 + x) * 0x40 + y;
    assert v / 0x1000 == w * 0x40 + x;
  }

  lemma Utf16Found(big: bool, input: seq<Byte>, p: nat, c: char)
    requires p < |input|
    ensures Utf16At(big, input, p, |input| - p) == Character(c, |EncodeUtf16(big, c)|)
      <==> HasAt(input, p, EncodeUtf16(big, c)) && ReaderAccepts(c as int)
    ensures var f := Utf16At(big, input, p, |input| - p); f.Character? && f.c == c ==> f.width == |EncodeUtf16(big, c)|
  {
    hide ReaderAccepts, Unit, Pair;
    var v := c as int;
    if v <= 0xFFFF { HasTwo(big, input, p, v); } else { HasFour(big, input, p, v); }
    if |input| - p >= 2 {
      UnitRange(big, input[p], input[p + 1]);
      if |input| - p >= 4 {
        UnitRange(big, input[p + 2], input[p + 3]);
        PairRange(Unit(big, input[p], input[p + 1]), Unit(big, input[p + 2], input[p + 3]));
      }
    }
  }

  lemma UnitRange(big: bool, a: Byte, b: Byte)
    ensures 0 <= Unit(big, a, b) <= 0xFFFF
  {
  }

  /** A surrogate pair stands for one value above 0xFFFF, and no other pair does. */
  lemma PairRange(high: int, low: int)
    ensures IsHigh(high) && IsLow(low) ==> 0x10000 <= Pair(high, low) <= 0x10FFFF
    ensures IsHigh(high) && IsLow(low) ==>
      high == 0xD800 + (Pair(high, low) - 0x10000) / 0x400 && low == 0xDC00 + (Pair(high, low) - 0x10000) % 0x400
  {
  }

  lemma HasTwo(big: bool, input: seq<Byte>, p: nat, v: int)
    requires 0 <= v <= 0xFFFF
    ensures HasAt(input, p, Octets(big, v)) <==> p + 2 <= |input| && Unit(big, input[p], input[p + 1]) == v
  {
    if p + 2 <= |input| {
      var b0: int, b1: int := input[p], input[p + 1];
      assert input[p..p + 2] == [input[p], input[p + 1]];
    }
  }

  lemma HasFour(big: bool, input: seq<Byte>, p: nat, v: int)
    requires 0x10000 <= v <= 0x10FFFF
    ensures var u := v - 0x10000;
      HasAt(input, p, Octets(big, 0xD800 + u / 0x400) + Octets(big, 0xDC00 + u % 0x400))
      <==> p + 4 <= |input| && Unit(big, input[p], input[p + 1]) == 0xD800 + u / 0x400
           && Unit(big, input[p + 2], input[p + 3]) == 0xDC00 + u % 0x400
    ensures var u := v - 0x10000; Pair(0xD800 + u / 0x400, 0xDC00 + u % 0x400) == v
  {
    hide Octets, Unit;
    var u := v - 0x10000;
    var a, b := Octets(big, 0xD800 + u / 0x400), Octets(big, 0xDC00 + u % 0x400);
    HasTwo(big, input, p, 0xD800 + u / 0x400);
    HasTwo(big, input, p + 2, 0xDC00 + u % 0x400);
    if p + 4 <= |input| {
      assert input[p..p + 4] == input[p..p + 2] + input[p + 2..p + 4];
    }
  }

  /** The decoder is the inverse of the encoder, on exactly the strings the reader accepts. */
  lemma {:induction false} DecodesExactly(enc: Encoding, input: seq<Byte>, p: nat, s: string)
    requires p <= |input|
    ensures Decode(enc, input, p) == Decoded(s, None) <==> input[p..] == EncodeAllAs(enc, s) && AllAccepted(s)
    decreases |input| - p
  {
    hide FoundAt, EncodeAs, ReaderAccepts, Decode;
    DecodedHead(enc, input, p, s);
    if p == |input| {
      if s != "" { NonEmpty(enc, s[0]); }
    } else if s != "" {
      var c, bs, rest := s[0], EncodeAs(enc, s[0]), s[1..];
      FoundIsEncoded(enc, input, p, c);
      NonEmpty(enc, c);
      HeadAndTail(input, p, bs, EncodeAllAs(enc, rest));
      AcceptedHead(s);
      if HasAt(input, p, bs) {
        DecodesExactly(enc, input, p + |bs|, rest);
      }
      assert s == [c] + rest;
    }
  }

  /** Decoding `s` is decoding its first character and then the rest. */
  lemma DecodedHead(enc: Encoding, input: seq<Byte>, p: nat, s: string)
    requires p <= |input|
    ensures p == |input| ==> Decode(enc, input, p) == Decoded("", None)
    ensures p < |input| && s == "" ==> Decode(enc, input, p) != Decoded(s, None)
    ensures p < |input| && s != "" ==>
      var f := FoundAt(enc, input, p, |input| - p);
      Decode(enc, input, p) == Decoded(s, None)
      <==> f.Character? && f.c == s[0] && p + f.width <= |input| && Decode(enc, input, p + f.width) == Decoded(s[1..], None)
  {
    hide FoundAt;
    if p < |input| && FoundAt(enc, input, p, |input| - p).Character? {
      var f := FoundAt(enc, input, p, |input| - p);
      var rest := Decode(enc, input, p + f.width).chars;
      assert ([f.c] + rest)[1..] == rest;
      if s != "" { assert s == [s[0]] + s[1..]; }
    }
  }

  lemma HeadAndTail(input: seq<Byte>, p: nat, bs: seq<Byte>, tail: seq<Byte>)
    requires p <= |input|
    ensures input[p..] == bs + tail <==> HasAt(input, p, bs) && input[p + |bs|..] == tail
  {
    if input[p..] == bs + tail {
      assert input[p..p + |bs|] == (bs + tail)[..|bs|];
      assert input[p + |bs|..] == (bs + tail)[|bs|..];
    }
    if HasAt(input, p, bs) {
      assert input[p..] == input[p..p + |bs|] + input[p + |bs|..];
    }
  }

  lemma AcceptedHead(s: string)
    requires s != ""
    ensures AllAccepted(s) <==> ReaderAccepts(s[0] as int) && AllAccepted(s[1..])
  {
    if ReaderAccepts(s[0] as int) && AllAccepted(s[1..]) {
      forall i | 0 <= i < |s| ensures ReaderAccepts(s[i] as int) {
        if i > 0 { assert s[i] == s[1..][i - 1]; }
      }
    }
  }

  lemma NonEmpty(enc: Encoding, c: char)
    ensures |EncodeAs(enc, c)| > 0
  {
  }

  // ----- What is read -----

  const MARK: char := '\U{FEFF}'

  /** Each of the three encodings is told by U+FEFF encoded in it, and without that mark the text is in UTF-8. */
  lemma MarkTellsEncoding(enc: Encoding, rest: seq<Byte>)
    ensures Bom(EncodeAs(enc, MARK) + rest) == (enc, |EncodeAs(enc, MARK)|)
    ensures (forall e: Encoding :: !(EncodeAs(e, MARK) <= rest)) ==> Bom(rest) == (Utf8, 0)
  {
    MarkOctets();
    var input := EncodeAs(enc, MARK) + rest;
    assert forall i :: 0 <= i < |EncodeAs(enc, MARK)| ==> input[i] == EncodeAs(enc, MARK)[i];
    if forall e: Encoding :: !(EncodeAs(e, MARK) <= rest) {
      assert !(EncodeAs(Utf8, MARK) <= rest) && !(EncodeAs(Utf16LE, MARK) <= rest) && !(EncodeAs(Utf16BE, MARK) <= rest);
      if |rest| >= 2 { assert rest[..2] == [rest[0], rest[1]]; }
      if |rest| >= 3 { assert rest[..3] == [rest[0], rest[1], rest[2]]; }
    }
  }

  lemma MarkOctets()
    ensures EncodeAs(Utf8, MARK) == [0xEF, 0xBB, 0xBF] && EncodeAs(Utf16LE, MARK) == [0xFF, 0xFE] && EncodeAs(Utf16BE, MARK) == [0xFE, 0xFF]
  {
  }

  /** A text behind its mark is read as it was written, in each of the encodings. */
  lemma MarkedTextIsRead(enc: Encoding, s: string)
    requires AllAccepted(s)
    ensures var input := EncodeAs(enc, MARK) + EncodeAllAs(enc, s);
      Bom(input).1 <= |input| && Decode(Bom(input).0, input, Bom(input).1) == Decoded(s, None)
  {
    hide EncodeAs, EncodeAllAs, Decode;
    var mark := EncodeAs(enc, MARK);
    MarkTellsEncoding(enc, EncodeAllAs(enc, s));
    assert (mark + EncodeAllAs(enc, s))[|mark|..] == EncodeAllAs(enc, s);
    DecodesExactly(enc, mark + EncodeAllAs(enc, s), |mark|, s);
  }

  /** What is read of an input with a problem in it: the characters in front of the problem, and there no accepted
      character begins. */
  lemma {:induction false} ReadUpToProblem(enc: Encoding, input: seq<Byte>, p: nat) returns (q: nat)
    requires p <= |input|
    ensures p <= q <= |input|
    ensures var d := Decode(enc, input, p);
      && input[p..q] == EncodeAllAs(enc, d.chars) && AllAccepted(d.chars)
      && (d.problem.None? <==> q == |input|)
      && (d.problem.Some? ==> d.problem.value.offset >= q && forall c: char :: ReaderAccepts(c as int) ==> !HasAt(input, q, EncodeAs(enc, c)))
    decreases |input| - p
  {
    hide FoundAt, EncodeAs, EncodeAllAs, AllAccepted, ReaderAccepts;
    q := p;
    NothingRead(enc);
    assert input[p..p] == [];
    if p < |input| {
      var f := FoundAt(enc, input, p, |input| - p);
      if f.Character? {
        FoundIsEncoded(enc, input, p, f.c);
        q := ReadUpToProblem(enc, input, p + f.width);
        OneMore(enc, input, p, p + f.width, q, f.c, Decode(enc, input, p + f.width).chars);
      } else {
        ProblemIsAhead(enc, input, p);
        forall c: char | ReaderAccepts(c as int) ensures !HasAt(input, p, EncodeAs(enc, c)) { FoundIsEncoded(enc, input, p, c); }
      }
    }
  }

  lemma NothingRead(enc: Encoding)
    ensures EncodeAllAs(enc, "") == [] && AllAccepted("")
  {
  }

  lemma OneMore(enc: Encoding, input: seq<Byte>, p: nat, k: nat, q: nat, c: char, rest: string)
    requires p <= k <= q <= |input| && input[p..k] == EncodeAs(enc, c) && ReaderAccepts(c as int)
    requires input[k..q] == EncodeAllAs(enc, rest) && AllAccepted(rest)
    ensures input[p..q] == EncodeAllAs(enc, [c] + rest) && AllAccepted([c] + rest)
  {
    hide EncodeAs, ReaderAccepts;
    assert ([c] + rest)[1..] == rest;
    assert input[p..q] == input[p..k] + input[k..q];
    AcceptedHead([c] + rest);
  }

  lemma ProblemIsAhead(enc: Encoding, input: seq<Byte>, p: nat)
    requires p < |input|
    ensures var f := FoundAt(enc, input, p, |input| - p); f.Bad? ==> f.problem.offset >= p
  {
  }

  /** How many octets the first one announces; a continuation, and what is too large, announces none. */
  function Announced(b: Byte): nat {
    if b < 0x80 then 1 else if b < 0xC0 then 0 else if b < 0xE0 then 2 else if b < 0xF0 then 3 else if b < 0xF8 then 4 else 0
  }

  /** Some character has the number. */
  predicate IsNumber(v: int) { 0 <= v < 0xD800 || 0xE000 <= v < 0x11_0000 }

  lemma AssembledProblem(bs: seq<Byte>, p: nat)
    requires 1 <= |bs| <= 4 && Width(bs[0]) == |bs|
    ensures match Utf8Value(bs, p)
      case Character(_, width) => width == |bs|
      case More(_) => false
      case Bad(Problem(kind, offset)) =>
        match kind
        case InvalidTrailing => p < offset < p + |bs| && !IsTrailing(bs[offset - p]) && forall k :: 0 < k < offset - p ==> IsTrailing(bs[k])
        case InvalidLength => offset == p && (forall k :: 0 < k < |bs| ==> IsTrailing(bs[k])) && Assemble(bs) < [0, 0x80, 0x800, 0x10000][|bs| - 1]
        case InvalidCharacter => offset == p && (forall k :: 0 < k < |bs| ==> IsTrailing(bs[k])) && !IsNumber(Assemble(bs))
        case ControlCharacter => offset == p && exists c: char :: bs == Encode(c) && !ReaderAccepts(c as int)
        case _ => false
  {
    hide ReaderAccepts, Encode;
    var v := Assemble(bs);
    if FirstBad(bs, 1) == |bs| && Smallest(|bs|) <= v <= 0x10FFFF && !IsSurrogate(v) {
      AssembledEncodes(bs, v as char);
    }
  }

  /** The kind of a problem says what stands there, in UTF-8. */
  lemma Utf8ProblemTells(input: seq<Byte>, p: nat)
    requires p < |input|
    ensures var f, n := FoundAt(Utf8, input, p, |input| - p), Announced(input[p]);
      match f
      case Character(_, width) => width == n
      case More(kind) => kind == IncompleteUtf8 && n > |input| - p
      case Bad(Problem(kind, offset)) =>
        match kind
        case InvalidLeading => n == 0 && offset == p
        case InvalidTrailing => p < offset < p + n <= |input| && !IsTrailing(input[offset]) && forall k :: p < k < offset ==> IsTrailing(input[k])
        case InvalidLength =>
          && 0 < n <= |input| - p && offset == p && (forall k :: p < k < p + n ==> IsTrailing(input[k]))
          && Assemble(input[p..p + n]) < [0, 0x80, 0x800, 0x10000][n - 1]
        case InvalidCharacter =>
          && 0 < n <= |input| - p && offset == p && (forall k :: p < k < p + n ==> IsTrailing(input[k]))
          && !IsNumber(Assemble(input[p..p + n]))
        case ControlCharacter => offset == p && exists c: char :: HasAt(input, p, Encode(c)) && !ReaderAccepts(c as int)
        case _ => false
  {
    hide ReaderAccepts, Assemble, Encode, Utf8Value;
    var n := Announced(input[p]);
    if 0 < n <= |input| - p {
      var bs := input[p..p + n];
      assert forall k :: 0 <= k < n ==> bs[k] == input[p + k];
      AssembledProblem(bs, p);
    }
  }
}
