/** The scanner of tags: every spelling of a URI is read as the octets it stands for (section 2.1 of RFC 3986), with
    digits of either case, and nothing else is accepted. */
module TagSpellings {
  import opened CharacterSets
  import opened ScalarSpellings
  import opened Chars
  import opened TagUri
  import Q = QuotedSpellings

  const URI_MARKS := "_-;/?:@&=+$,.!~*'()[]%"

  predicate IsUri(c: char) { 'A' <= c <= 'Z' || 'a' <= c <= 'z' || '0' <= c <= '9' || Among(c, URI_MARKS) }

  /** An octet and the two digits that spell it. */
  datatype Escaped = Escaped(digits: string, value: Byte)

  predicate IsEscaped(e: Escaped) { |e.digits| == 2 && Spells(e.digits, e.value) }

  /** How many octets the character has that begins with this one; none begins with a continuation. */
  function Octets(first: Byte): nat {
    if first < 0x80 then 1 else if first < 0xC0 then 0 else if first < 0xE0 then 2 else if first < 0xF0 then 3 else if first < 0xF8 then 4 else 0
  }

  predicate IsContinuation(b: Byte) { 0x80 <= b < 0xC0 }

  /** The first octets of a character. */
  predicate AreFirst(es: seq<Escaped>) {
    && (forall i :: 0 <= i < |es| ==> IsEscaped(es[i]))
    && (es != [] ==> |es| <= Octets(es[0].value))
    && forall i :: 1 <= i < |es| ==> IsContinuation(es[i].value)
  }

  datatype Piece = Plain(c: char) | Escapes(es: seq<Escaped>)

  predicate IsPiece(x: Piece) {
    match x
    case Plain(c) => IsUri(c) && c != '%'
    case Escapes(es) => es != [] && AreFirst(es) && |es| == Octets(es[0].value)
  }

  function EscapesText(es: seq<Escaped>): string { if es == [] then "" else "%" + es[0].digits + EscapesText(es[1..]) }

  function EscapesMeaning(es: seq<Escaped>): seq<Byte> { if es == [] then [] else [es[0].value] + EscapesMeaning(es[1..]) }

  function PieceText(x: Piece): string { if x.Plain? then [x.c] else EscapesText(x.es) }

  function PieceMeaning(x: Piece): seq<Byte> {
    if x.Escapes? then EscapesMeaning(x.es) else if x.c as int < 0x100 then [x.c as int] else []
  }

  predicate IsTag(us: seq<Piece>) { forall i :: 0 <= i < |us| ==> IsPiece(us[i]) }

  function Text(us: seq<Piece>): string { if us == [] then "" else PieceText(us[0]) + Text(us[1..]) }

  function Meaning(us: seq<Piece>): seq<Byte> { if us == [] then [] else PieceMeaning(us[0]) + Meaning(us[1..]) }

  /** The text begins with an escaped octet. */
  predicate Begins(s: string, e: Escaped) { |s| >= 3 && s[0] == '%' && s[1..3] == e.digits && IsEscaped(e) }

  ghost predicate IsEscape(s: string) { exists e :: Begins(s, e) }

  /** A character whose octets do not go on as they must: `es` are those it has, and `tail` stands behind them. */
  ghost predicate IsStuck(es: seq<Escaped>, tail: string) {
    && AreFirst(es) && (if es == [] then At(tail, 0) == '%' else |es| < Octets(es[0].value))
    && forall e :: Begins(tail, e) ==> if es == [] then Octets(e.value) == 0 else !IsContinuation(e.value)
  }

  ghost function ProblemOf(es: seq<Escaped>, tail: string): Problem {
    if !IsEscape(tail) then NoOctet else if es == [] then BadLeadingOctet else BadTrailingOctet
  }

  lemma UriAgrees(c: char)
    ensures IsUriChar(c) <==> IsUri(c)
  {
    var u := URI_MARKS;
    assert u[0] == '_' && u[1] == '-' && u[2] == ';' && u[3] == '/' && u[4] == '?' && u[5] == ':' && u[6] == '@';
    assert u[7] == '&' && u[8] == '=' && u[9] == '+' && u[10] == '$' && u[11] == ',' && u[12] == '.' && u[13] == '!';
    assert u[14] == '~' && u[15] == '*' && u[16] == '\'' && u[17] == '(' && u[18] == ')' && u[19] == '[' && u[20] == ']' && u[21] == '%';
    assert |u| == 22;
  }

  // ----- One octet -----

  lemma TwoDigits(digits: string, v: Byte)
    ensures |digits| == 2 && Spells(digits, v) <==> |digits| == 2 && IsDigit(digits[0], v / 16) && IsDigit(digits[1], v % 16)
  {
    if |digits| == 2 {
      assert digits[..1][..0] == "" && digits[..1][0] == digits[0];
      assert Spells(digits[..1], v / 16) <==> IsDigit(digits[0], v / 16 % 16) && Spells("", v / 16 / 16);
    }
  }

  lemma EscapeReads(t: string, p: nat, s: string, e: Escaped)
    requires Q.Stands(t, p, s) && Begins(s, e)
    ensures At(t, p) == '%' && IsHex(At(t, p + 1)) && IsHex(At(t, p + 2)) && AsHex(At(t, p + 1)) * 16 + AsHex(At(t, p + 2)) == e.value
    ensures p + 3 <= |t| && Q.Stands(t, p + 3, s[3..])
  {
    TwoDigits(e.digits, e.value);
    assert t[p] == t[p..][0] && t[p + 1] == t[p..][1] && t[p + 2] == t[p..][2];
    assert e.digits[0] == s[1..3][0] && e.digits[1] == s[1..3][1];
    Q.HexIsPlace(t[p + 1]);
    Q.HexIsPlace(t[p + 2]);
    assert t[p + 3..] == t[p..][3..];
  }

  /** Where the scanner sees an octet there is one. */
  lemma ReadsEscape(t: string, p: nat, s: string) returns (e: Escaped)
    requires Q.Stands(t, p, s) && At(t, p) == '%' && IsHex(At(t, p + 1)) && IsHex(At(t, p + 2))
    ensures Begins(s, e) && e.value == AsHex(At(t, p + 1)) * 16 + AsHex(At(t, p + 2))
  {
    hide IsHex, AsHex;
    Q.NulIsNoDigit();
    assert p + 2 < |t|;
    assert t[p] == t[p..][0] && t[p + 1] == t[p..][1] && t[p + 2] == t[p..][2];
    Q.HexIsPlace(t[p + 1]);
    Q.HexIsPlace(t[p + 2]);
    var hi, lo := AsHex(t[p + 1]), AsHex(t[p + 2]);
    e := Escaped(s[1..3], hi * 16 + lo);
    assert e.value / 16 == hi && e.value % 16 == lo;
    TwoDigits(e.digits, e.value);
  }

  // ----- Characters -----

  lemma WidthIsOctets(b: Byte)
    ensures Width(b) == Octets(b)
  {
  }

  lemma RestFirst(es: seq<Escaped>)
    requires es != [] && forall i :: 0 <= i < |es| ==> IsEscaped(es[i]) && (IsContinuation(es[i].value) || i == 0)
    ensures forall i :: 0 <= i < |es| - 1 ==> IsEscaped(es[1..][i]) && IsContinuation(es[1..][i].value)
    ensures forall more: string :: EscapesText(es) + more == "%" + es[0].digits + (EscapesText(es[1..]) + more)
    ensures |EscapesText(es)| == 3 + |EscapesText(es[1..])|
  {
    forall more: string ensures EscapesText(es) + more == "%" + es[0].digits + (EscapesText(es[1..]) + more) { }
  }

  lemma BeginsWith(e: Escaped, more: string)
    requires IsEscaped(e)
    ensures Begins("%" + e.digits + more, e) && ("%" + e.digits + more)[3..] == more
  {
    assert ("%" + e.digits + more)[1..3] == e.digits;
  }

  lemma OctetTaken(t: string, p: nat, first: bool, left: nat, e: Escaped, rest: string, s: seq<Byte>)
    requires Q.Stands(t, p, "%" + e.digits + rest) && IsEscaped(e)
    requires if first then Octets(e.value) > 0 else left > 0 && IsContinuation(e.value)
    ensures At(t, p) == '%' && p + 3 <= |t| && Q.Stands(t, p + 3, rest)
    ensures ScanEscapes(t, p, first, left, s)
         == ScanEscapes(t, p + 3, false, if first then Octets(e.value) - 1 else left - 1, s + [e.value])
  {
    hide Q.Stands, Begins, IsHex, AsHex, Octets, Width, IsEscaped;
    BeginsWith(e, rest);
    EscapeReads(t, p, "%" + e.digits + rest, e);
    WidthIsOctets(e.value);
  }

  lemma {:induction false} ContinuationsRead(t: string, p: nat, es: seq<Escaped>, more: string, left: nat, s: seq<Byte>)
    requires Q.Stands(t, p, EscapesText(es) + more) && |es| <= left
    requires forall i :: 0 <= i < |es| ==> IsEscaped(es[i]) && IsContinuation(es[i].value)
    ensures p + |EscapesText(es)| <= |t| && Q.Stands(t, p + |EscapesText(es)|, more)
    ensures ScanEscapes(t, p, false, left, s) == ScanEscapes(t, p + |EscapesText(es)|, false, left - |es|, s + EscapesMeaning(es))
    decreases |es|
  {
    hide Q.Stands, IsEscaped, EscapesText, ScanEscapes, Octets;
    if es == [] {
      NoEscapes(t, p, more);
      assert s + [] == s;
    } else {
      var rest := EscapesText(es[1..]) + more;
      RestFirst(es);
      OctetTaken(t, p, false, left, es[0], rest, s);
      ContinuationsRead(t, p + 3, es[1..], more, left - 1, s + [es[0].value]);
      assert (s + [es[0].value]) + EscapesMeaning(es[1..]) == s + EscapesMeaning(es);
    }
  }

  lemma NoEscapes(t: string, p: nat, more: string)
    requires Q.Stands(t, p, EscapesText([]) + more)
    ensures EscapesText([]) == "" && Q.Stands(t, p, more) && p <= |t|
  {
    assert "" + more == more;
  }

  /** The octets of a character, or the first of them. */
  lemma CharacterReads(t: string, p: nat, es: seq<Escaped>, more: string, s: seq<Byte>)
    requires Q.Stands(t, p, EscapesText(es) + more) && es != [] && AreFirst(es)
    ensures At(t, p) == '%'
    ensures p + |EscapesText(es)| <= |t| && Q.Stands(t, p + |EscapesText(es)|, more)
    ensures ScanEscapes(t, p, true, 0, s)
         == ScanEscapes(t, p + |EscapesText(es)|, false, Octets(es[0].value) - |es|, s + EscapesMeaning(es))
  {
    hide Q.Stands, IsEscaped, EscapesText, ScanEscapes, Octets;
    var rest := EscapesText(es[1..]) + more;
    RestFirst(es);
    OctetTaken(t, p, true, 0, es[0], rest, s);
    ContinuationsRead(t, p + 3, es[1..], more, Octets(es[0].value) - 1, s + [es[0].value]);
    assert (s + [es[0].value]) + EscapesMeaning(es[1..]) == s + EscapesMeaning(es);
  }

  lemma StuckFails(t: string, p: nat, es: seq<Escaped>, tail: string, s: seq<Byte>)
    requires Q.Stands(t, p, EscapesText(es) + tail) && IsStuck(es, tail)
    ensures At(t, p) == '%' && ScanEscapes(t, p, true, 0, s) == Failed(ProblemOf(es, tail))
  {
    hide Q.Stands, EscapesText, Begins, IsHex, AsHex, Width, Octets, EscapesMeaning;
    if es == [] {
      NoEscapes(t, p, tail);
      Q.NextAt(t, p, tail);
      assert At(t, p + 0) == At(tail, 0);
      OctetFails(t, p, true, 0, es, tail, s);
    } else {
      CharacterReads(t, p, es, tail, s);
      OctetFails(t, p + |EscapesText(es)|, false, Octets(es[0].value) - |es|, es, tail, s + EscapesMeaning(es));
    }
  }

  lemma OctetFails(t: string, p: nat, first: bool, left: nat, es: seq<Escaped>, tail: string, s: seq<Byte>)
    requires Q.Stands(t, p, tail) && (first <==> es == []) && (first || left > 0)
    requires forall e :: Begins(tail, e) ==> if first then Octets(e.value) == 0 else !IsContinuation(e.value)
    ensures ScanEscapes(t, p, first, left, s) == Failed(ProblemOf(es, tail))
  {
    hide Q.Stands, Begins, IsHex, AsHex, Width, Octets;
    if At(t, p) == '%' && IsHex(At(t, p + 1)) && IsHex(At(t, p + 2)) {
      var e := ReadsEscape(t, p, tail);
      WidthIsOctets(e.value);
    } else if IsEscape(tail) {
      var e :| Begins(tail, e);
      EscapeReads(t, p, tail, e);
      assert false;
    }
  }

  // ----- Whole tags -----

  lemma PieceReads(t: string, p: nat, x: Piece, more: string, s: seq<Byte>, hasTag: bool)
    requires Q.Stands(t, p, PieceText(x) + more) && IsPiece(x)
    ensures p + |PieceText(x)| <= |t| && Q.Stands(t, p + |PieceText(x)|, more)
    ensures ScanUri(t, p, s, hasTag) == ScanUri(t, p + |PieceText(x)|, s + PieceMeaning(x), true)
  {
    hide Q.Stands, ScanEscapes, EscapesText, EscapesMeaning, IsUriChar, IsUri;
    Q.StandsAt(t, p, PieceText(x), more);
    if x.Plain? {
      UriAgrees(x.c);
      assert At(t, p + 0) == PieceText(x)[0];
      SmallCode(x.c);
    } else {
      CharacterReads(t, p, x.es, more, s);
      UriAgrees('%');
      assert IsUri('%') by { assert URI_MARKS[21] == '%'; PercentIsUri(); }
      EscapesDone(t, p + |PieceText(x)|, s + PieceMeaning(x));
    }
  }

  lemma PercentIsUri()
    ensures IsUri('%')
  {
    assert URI_MARKS[21] == '%';
  }

  lemma SmallCode(c: char)
    requires IsUri(c)
    ensures c as int < 0x100
  {
  }

  lemma EscapesDone(t: string, p: nat, s: seq<Byte>)
    requires p <= |t|
    ensures ScanEscapes(t, p, false, 0, s) == Uri(s, p)
  {
  }

  lemma {:induction false} PiecesRead(t: string, p: nat, us: seq<Piece>, more: string, s: seq<Byte>, hasTag: bool)
    requires Q.Stands(t, p, Text(us) + more) && IsTag(us)
    ensures p + |Text(us)| <= |t| && Q.Stands(t, p + |Text(us)|, more)
    ensures ScanUri(t, p, s, hasTag) == ScanUri(t, p + |Text(us)|, s + Meaning(us), hasTag || us != [])
    decreases |us|
  {
    hide Q.Stands, ScanUri, PieceText, PieceMeaning, IsPiece;
    if us == [] {
      assert "" + more == more && s + [] == s;
      Q.StandsAt(t, p, "", more);
    } else {
      assert Text(us) + more == PieceText(us[0]) + (Text(us[1..]) + more);
      PieceReads(t, p, us[0], Text(us[1..]) + more, s, hasTag);
      PiecesRead(t, p + |PieceText(us[0])|, us[1..], more, s + PieceMeaning(us[0]), true);
      assert (s + PieceMeaning(us[0])) + Meaning(us[1..]) == s + Meaning(us);
    }
  }

  /** Every spelling is read as its octets, exactly up to the first character that cannot stand in a URI, and what is
      spelled wrong is refused. `head` is the part of the tag read before. */
  lemma EveryTagSpellingIsRead(t: string, p: nat, head: string, us: seq<Piece>, es: seq<Escaped>, tail: string)
    requires p <= |t| && t[p..] == Text(us) + (EscapesText(es) + tail) && IsTag(us)
    requires IsStuck(es, tail) || (es == [] && !IsUri(At(tail, 0)))
    ensures ScanTagUri(t, p, head)
         == if IsStuck(es, tail) then Failed(ProblemOf(es, tail))
            else if head == "" && us == [] then Failed(NoUri)
            else Uri((if head == "" then [] else EncodeAll(head[1..])) + Meaning(us), p + |Text(us)|)
  {
    hide ScanEscapes, ScanUri, IsStuck, ProblemOf, EncodeAll, EscapesText, Text, Meaning, IsTag, IsUri, Q.Stands;
    var s := if |head| > 1 then EncodeAll(head[1..]) else [];
    NothingEncoded(head);
    var q, more := p + |Text(us)|, EscapesText(es) + tail;
    StandsFrom(t, p, Text(us) + more);
    PiecesRead(t, p, us, more, s, |head| > 0);
    if IsStuck(es, tail) {
      StuckFails(t, q, es, tail, s + Meaning(us));
      StuckStops(t, q, s + Meaning(us), |head| > 0 || us != [], ProblemOf(es, tail));
    } else {
      NoEscapes(t, q, tail);
      Q.NextAt(t, q, tail);
      assert At(t, q + 0) == At(tail, 0);
      UriStops(t, q, s + Meaning(us), |head| > 0 || us != []);
    }
  }

  lemma StandsFrom(t: string, p: nat, x: string)
    requires p <= |t| && t[p..] == x
    ensures Q.Stands(t, p, x)
  {
  }

  lemma NothingEncoded(head: string)
    ensures (if |head| > 1 then EncodeAll(head[1..]) else []) == (if head == "" then [] else EncodeAll(head[1..]))
  {
  }

  lemma StuckStops(t: string, p: nat, s: seq<Byte>, hasTag: bool, problem: Problem)
    requires p <= |t| && At(t, p) == '%' && ScanEscapes(t, p, true, 0, s) == Failed(problem)
    ensures ScanUri(t, p, s, hasTag) == Failed(problem)
  {
  }

  lemma UriStops(t: string, p: nat, s: seq<Byte>, hasTag: bool)
    requires p <= |t| && !IsUri(At(t, p))
    ensures ScanUri(t, p, s, hasTag) == if hasTag then Uri(s, p) else Failed(NoUri)
  {
    UriAgrees(At(t, p));
  }

  // ----- Every text is a spelling or wrong -----

  lemma TakeEscape(s: string, e: Escaped)
    requires Begins(s, e)
    ensures s == "%" + e.digits + s[3..]
  {
    assert s == s[..1] + s[1..3] + s[3..];
  }

  /** As many continuations as there are, and no more than wanted. */
  lemma {:induction false} LeadingContinuations(s: string, n: nat) returns (es: seq<Escaped>, rest: string)
    ensures s == EscapesText(es) + rest && |es| <= n && forall i :: 0 <= i < |es| ==> IsEscaped(es[i]) && IsContinuation(es[i].value)
    ensures |es| < n ==> forall e :: Begins(rest, e) ==> !IsContinuation(e.value)
    decreases n
  {
    hide Begins, IsEscaped, EscapesText;
    if n > 0 && exists e :: Begins(s, e) && IsContinuation(e.value) {
      var e :| Begins(s, e) && IsContinuation(e.value);
      TakeEscape(s, e);
      EscapedIs(s, e);
      es, rest := LeadingContinuations(s[3..], n - 1);
      es := [e] + es;
      RestFirst(es);
    } else {
      es, rest := [], s;
      NoEscapesText(s);
    }
  }

  lemma EscapedIs(s: string, e: Escaped)
    requires Begins(s, e)
    ensures IsEscaped(e)
  {
  }

  lemma NoEscapesText(s: string)
    ensures EscapesText([]) + s == s
  {
  }

  /** The octets of one character, or those of them that are there. */
  lemma LeadingCharacter(s: string) returns (es: seq<Escaped>, rest: string)
    requires At(s, 0) == '%'
    ensures s == EscapesText(es) + rest && (IsStuck(es, rest) || IsPiece(Escapes(es)))
  {
    hide Begins, IsEscaped, EscapesText, Octets;
    if exists e :: Begins(s, e) && Octets(e.value) > 0 {
      var e :| Begins(s, e) && Octets(e.value) > 0;
      TakeEscape(s, e);
      EscapedIs(s, e);
      es, rest := LeadingContinuations(s[3..], Octets(e.value) - 1);
      es := [e] + es;
      RestFirst(es);
    } else {
      es, rest := [], s;
      NoEscapesText(s);
    }
  }

  lemma {:induction false} Spelled(s: string) returns (us: seq<Piece>, es: seq<Escaped>, tail: string)
    ensures s == Text(us) + (EscapesText(es) + tail) && IsTag(us)
    ensures IsStuck(es, tail) || (es == [] && !IsUri(At(tail, 0)))
    decreases |s|
  {
    hide IsStuck, IsUri, EscapesText, IsPiece;
    if s == "" || !IsUri(s[0]) {
      us, es, tail := [], [], s;
      NoEscapesText(s);
      assert Text(us) + s == s;
      NulIsNoUri();
    } else if s[0] == '%' {
      es, tail := LeadingCharacter(s);
      if IsStuck(es, tail) {
        us := [];
        assert Text(us) + s == s;
      } else {
        var x := Escapes(es);
        SomeText(x);
        assert |s| == |PieceText(x)| + |tail|;
        us, es, tail := Spelled(tail);
        TextPrepended(x, us, EscapesText(es) + tail);
        us := [x] + us;
      }
    } else {
      var x := Plain(s[0]);
      PlainIs(s[0]);
      us, es, tail := Spelled(s[1..]);
      TextPrepended(x, us, EscapesText(es) + tail);
      us := [x] + us;
    }
  }

  lemma NulIsNoUri()
    ensures !IsUri('\0')
  {
  }

  lemma PlainIs(c: char)
    requires IsUri(c) && c != '%'
    ensures IsPiece(Plain(c))
  {
  }

  lemma SomeText(x: Piece)
    requires IsPiece(x)
    ensures PieceText(x) != ""
  {
  }

  lemma TextPrepended(x: Piece, us: seq<Piece>, tail: string)
    ensures Text([x] + us) + tail == PieceText(x) + (Text(us) + tail)
  {
    assert ([x] + us)[1..] == us;
  }

  /** Every text is spelled so: the scanner does nothing else. */
  lemma TagScanIs(t: string, p: nat, head: string) returns (us: seq<Piece>, es: seq<Escaped>, tail: string)
    requires p <= |t|
    ensures t[p..] == Text(us) + (EscapesText(es) + tail) && IsTag(us) && (IsStuck(es, tail) || (es == [] && !IsUri(At(tail, 0))))
    ensures ScanTagUri(t, p, head)
         == if IsStuck(es, tail) then Failed(ProblemOf(es, tail))
            else if head == "" && us == [] then Failed(NoUri)
            else Uri((if head == "" then [] else EncodeAll(head[1..])) + Meaning(us), p + |Text(us)|)
  {
    us, es, tail := Spelled(t[p..]);
    EveryTagSpellingIsRead(t, p, head, us, es, tail);
  }

  /** The writer prints as it stands what the scanner takes for itself, but for `!`. */
  lemma PrintedAsItStands(c: char)
    ensures IsRaw(c) <==> IsUri(c) && c != '%' && c != '!'
  {
    UriAgrees(c);
  }
}
