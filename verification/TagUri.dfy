/** Percent-encoding of tags (emitterc.go, `yaml_emitter_write_tag_content`) and its scanner
    (scannerc.go, `yaml_parser_scan_tag_uri` and `yaml_parser_scan_uri_escapes`). The scanner
    yields octets, so what comes back is the UTF-8 of the tag. */
module TagUri {
  import opened Chars

  // ----- Writing -----

  predicate IsRaw(c: char) {
    || IsAlpha(c)
    || c == ';' || c == '/' || c == '?' || c == ':' || c == '@' || c == '&' || c == '=' || c == '+'
    || c == '$' || c == ',' || c == '_' || c == '.' || c == '~' || c == '*' || c == '\'' || c == '('
    || c == ')' || c == '[' || c == ']'
  }

  function Octet(b: Byte): (t: string)
    ensures |t| == 3 && t[0] == '%' && IsHex(t[1]) && IsHex(t[2]) && AsHex(t[1]) * 16 + AsHex(t[2]) == b
  {
    ['%', HexDigit(b / 16), HexDigit(b % 16)]
  }

  function Octets(bs: seq<Byte>): string {
    if bs == [] then "" else Octet(bs[0]) + Octets(bs[1..])
  }

  function Unit(c: char): string { if IsRaw(c) then [c] else Octets(Encode(c)) }

  function TagText(v: string): string {
    if v == "" then "" else Unit(v[0]) + TagText(v[1..])
  }

  lemma {:induction false} OctetsAppend(a: seq<Byte>, b: Byte)
    ensures Octets(a + [b]) == Octets(a) + Octet(b)
  {
    if a == [] {
      assert Octets([b]) == Octet(b) + Octets([]);
      assert "" + Octet(b) == Octet(b) == Octet(b) + "";
    } else {
      OctetsAppend(a[1..], b);
      assert (a + [b])[1..] == a[1..] + [b];
      assert (Octet(a[0]) + Octets(a[1..])) + Octet(b) == Octet(a[0]) + (Octets(a[1..]) + Octet(b));
    }
  }

  lemma {:induction false} TagTextAppend(a: string, c: char)
    ensures TagText(a + [c]) == TagText(a) + Unit(c)
  {
    hide Unit;
    if a == "" {
      assert TagText([c]) == Unit(c) + TagText("");
      assert "" + Unit(c) == Unit(c) == Unit(c) + "";
    } else {
      TagTextAppend(a[1..], c);
      assert (a + [c])[1..] == a[1..] + [c];
      assert (Unit(a[0]) + TagText(a[1..])) + Unit(c) == Unit(a[0]) + (TagText(a[1..]) + Unit(c));
    }
  }

  /** The inner loop: every octet of one character, escaped. */
  method WriteOctets(out0: string, bytes: seq<Byte>) returns (out: string)
    ensures out == out0 + Octets(bytes)
  {
    out := out0;
    var k := 0;
    while k < |bytes|
      invariant 0 <= k <= |bytes|
      invariant out == out0 + Octets(bytes[..k])
    {
      OctetsAppend(bytes[..k], bytes[k]);
      assert bytes[..k] + [bytes[k]] == bytes[..k + 1];
      assert (out0 + Octets(bytes[..k])) + Octet(bytes[k]) == out0 + (Octets(bytes[..k]) + Octet(bytes[k]));
      out := out + ['%', HexDigit(bytes[k] / 16), HexDigit(bytes[k] % 16)];
      k := k + 1;
    }
    assert bytes[..|bytes|] == bytes;
  }

  method WriteTagContent(v: string) returns (out: string)
    ensures out == TagText(v)
  {
    hide Encode;
    out := "";
    var i := 0;
    while i < |v|
      invariant 0 <= i <= |v|
      invariant out == TagText(v[..i])
    {
      TagTextAppend(v[..i], v[i]);
      assert v[..i] + [v[i]] == v[..i + 1];
      if IsRaw(v[i]) {
        out := out + [v[i]];
      } else {
        out := WriteOctets(out, Encode(v[i]));
      }
      i := i + 1;
    }
    assert v[..|v|] == v;
  }

  // ----- Scanning -----

  predicate IsUriChar(c: char) {
    || IsAlpha(c)
    || c == ';' || c == '/' || c == '?' || c == ':' || c == '@' || c == '&' || c == '=' || c == '+'
    || c == '$' || c == ',' || c == '.' || c == '!' || c == '~' || c == '*' || c == '\'' || c == '('
    || c == ')' || c == '[' || c == ']' || c == '%'
  }

  datatype Problem = NoUri | NoOctet | BadLeadingOctet | BadTrailingOctet

  datatype Scan = Uri(octets: seq<Byte>, pos: nat) | Failed(problem: Problem)

  /** The octets of one escaped character; `left` is the number still expected, `first` before the
      leading octet has been seen. */
  function ScanEscapes(t: string, p: nat, first: bool, left: nat, s: seq<Byte>): Scan
    requires p <= |t|
    decreases |t| - p
  {
    if !first && left == 0 then Uri(s, p)
    else if !(At(t, p) == '%' && IsHex(At(t, p + 1)) && IsHex(At(t, p + 2))) then Failed(NoOctet)
    else
      var octet: Byte := AsHex(At(t, p + 1)) * 16 + AsHex(At(t, p + 2));
      if first then
        if Width(octet) == 0 then Failed(BadLeadingOctet)
        else ScanEscapes(t, p + 3, false, Width(octet) - 1, s + [octet])
      else if !(0x80 <= octet < 0xC0) then Failed(BadTrailingOctet)
      else ScanEscapes(t, p + 3, false, left - 1, s + [octet])
  }

  lemma {:induction false} ScanEscapesAdvances(t: string, p: nat, first: bool, left: nat, s: seq<Byte>)
    requires p <= |t|
    ensures var r := ScanEscapes(t, p, first, left, s);
      r.Uri? ==> p <= r.pos <= |t| && (first ==> p < r.pos) && s <= r.octets && (p < r.pos ==> s < r.octets)
    decreases |t| - p
  {
    if (first || left > 0) && At(t, p) == '%' && IsHex(At(t, p + 1)) && IsHex(At(t, p + 2)) {
      var octet: Byte := AsHex(At(t, p + 1)) * 16 + AsHex(At(t, p + 2));
      if first && Width(octet) > 0 {
        ScanEscapesAdvances(t, p + 3, false, Width(octet) - 1, s + [octet]);
      } else if !first && 0x80 <= octet < 0xC0 {
        ScanEscapesAdvances(t, p + 3, false, left - 1, s + [octet]);
      }
    }
  }

  function ScanUri(t: string, p: nat, s: seq<Byte>, hasTag: bool): Scan
    requires p <= |t|
    decreases |t| - p
  {
    var c := At(t, p);
    if !IsUriChar(c) then
      if hasTag then Uri(s, p) else Failed(NoUri)
    else if c == '%' then
      ScanEscapesAdvances(t, p, true, 0, s);
      match ScanEscapes(t, p, true, 0, s)
      case Failed(problem) => Failed(problem)
      case Uri(s', q) => ScanUri(t, q, s', true)
    else ScanUri(t, p + 1, s + [c as int], true)
  }

  /** `head` is the part of a handle that turned out to belong to the tag, leading `!` included. */
  function ScanTagUri(t: string, p: nat, head: string): Scan
    requires p <= |t|
  {
    ScanUri(t, p, if |head| > 1 then EncodeAll(head[1..]) else [], |head| > 0)
  }

  class TagScanner {
    const buffer: string
    var pos: nat

    constructor (text: string, start: nat)
      requires start <= |text|
      ensures buffer == text && pos == start
    {
      buffer, pos := text, start;
    }

    method ScanUriEscapes(s0: seq<Byte>) returns (r: Scan)
      requires pos <= |buffer|
      modifies this`pos
      ensures r == ScanEscapes(buffer, old(pos), true, 0, s0)
      ensures r.Uri? ==> pos == r.pos
    {
      var s, first, left := s0, true, 0;
      while first || left > 0
        invariant pos <= |buffer|
        invariant ScanEscapes(buffer, pos, first, left, s) == ScanEscapes(buffer, old(pos), true, 0, s0)
        decreases |buffer| - pos
      {
        if !(At(buffer, pos) == '%' && IsHex(At(buffer, pos + 1)) && IsHex(At(buffer, pos + 2))) {
          return Failed(NoOctet);
        }
        var octet: Byte := AsHex(At(buffer, pos + 1)) * 16 + AsHex(At(buffer, pos + 2));
        if first {
          left := Width(octet);
          if left == 0 {
            return Failed(BadLeadingOctet);
          }
          first := false;
        } else if !(0x80 <= octet < 0xC0) {
          return Failed(BadTrailingOctet);
        }
        s, pos, left := s + [octet], pos + 3, left - 1;
      }
      return Uri(s, pos);
    }

    method ScanTag(head: string) returns (r: Scan)
      requires pos <= |buffer|
      modifies this`pos
      ensures r == ScanTagUri(buffer, old(pos), head)
    {
      var s: seq<Byte> := if |head| > 1 then EncodeAll(head[1..]) else [];
      var hasTag := |head| > 0;
      while IsUriChar(At(buffer, pos))
        invariant pos <= |buffer|
        invariant ScanUri(buffer, pos, s, hasTag) == ScanTagUri(buffer, old(pos), head)
        decreases |buffer| - pos
      {
        if At(buffer, pos) == '%' {
          ScanEscapesAdvances(buffer, pos, true, 0, s);
          var e := ScanUriEscapes(s);
          if e.Failed? {
            return e;
          }
          s := e.octets;
        } else {
          s, pos := s + [At(buffer, pos) as int], pos + 1;
        }
        hasTag := true;
      }
      if !hasTag {
        return Failed(NoUri);
      }
      return Uri(s, pos);
    }
  }

  // ----- Round trip -----

  predicate TextAt(t: string, p: nat, x: string) { p + |x| <= |t| && t[p..p + |x|] == x }

  lemma TextSplits(t: string, p: nat, x: string, y: string)
    requires TextAt(t, p, x + y)
    ensures TextAt(t, p, x) && TextAt(t, p + |x|, y)
  {
    assert t[p..p + |x|] == t[p..p + |x + y|][..|x|];
    assert t[p + |x|..p + |x| + |y|] == t[p..p + |x + y|][|x|..];
  }

  lemma ReadsOctet(t: string, p: nat, b: Byte)
    requires TextAt(t, p, Octet(b))
    ensures At(t, p) == '%' && IsHex(At(t, p + 1)) && IsHex(At(t, p + 2))
    ensures AsHex(At(t, p + 1)) * 16 + AsHex(At(t, p + 2)) == b
  {
    var o := Octet(b);
    assert t[p..p + 3][0] == o[0] && t[p..p + 3][1] == o[1] && t[p..p + 3][2] == o[2];
  }

  lemma {:induction false} ReadsTrailing(t: string, p: nat, bs: seq<Byte>, s: seq<Byte>)
    requires forall k :: 0 <= k < |bs| ==> 0x80 <= bs[k] < 0xC0
    requires TextAt(t, p, Octets(bs))
    ensures ScanEscapes(t, p, false, |bs|, s) == Uri(s + bs, p + |Octets(bs)|)
    decreases |bs|
  {
    if bs == [] {
      assert s + bs == s;
    } else {
      TextSplits(t, p, Octet(bs[0]), Octets(bs[1..]));
      ReadsOctet(t, p, bs[0]);
      ReadsTrailing(t, p + 3, bs[1..], s + [bs[0]]);
      assert (s + [bs[0]]) + bs[1..] == s + bs;
    }
  }

  lemma ReadsUnit(t: string, p: nat, c: char, s: seq<Byte>, hasTag: bool)
    requires TextAt(t, p, Unit(c))
    ensures ScanUri(t, p, s, hasTag) == ScanUri(t, p + |Unit(c)|, s + Encode(c), true)
  {
    if IsRaw(c) {
      hide ScanEscapes, Octets;
      assert Unit(c) == [c];
      assert t[p..p + |Unit(c)|] == [c];
      assert t[p..p + |Unit(c)|][0] == c;
      assert Encode(c) == [c as int];
    } else {
      hide Encode, Octets, ScanEscapes;
      ReadsEscapes(t, p, Encode(c), s);
    }
  }

  /** The octets of one whole character. */
  lemma ReadsEscapes(t: string, p: nat, bs: seq<Byte>, s: seq<Byte>)
    requires 1 <= |bs| <= 4 && Width(bs[0]) == |bs| && forall k :: 1 <= k < |bs| ==> 0x80 <= bs[k] < 0xC0
    requires TextAt(t, p, Octets(bs))
    ensures At(t, p) == '%' && ScanEscapes(t, p, true, 0, s) == Uri(s + bs, p + |Octets(bs)|)
  {
    hide Width;
    assert Octets(bs) == Octet(bs[0]) + Octets(bs[1..]);
    TextSplits(t, p, Octet(bs[0]), Octets(bs[1..]));
    ReadsOctet(t, p, bs[0]);
    ReadsTrailing(t, p + 3, bs[1..], s + [bs[0]]);
    assert (s + [bs[0]]) + bs[1..] == s + bs;
  }

  lemma {:induction false} ReadsText(t: string, p: nat, v: string, s: seq<Byte>, hasTag: bool)
    requires TextAt(t, p, TagText(v))
    ensures ScanUri(t, p, s, hasTag) == ScanUri(t, p + |TagText(v)|, s + EncodeAll(v), hasTag || v != "")
    decreases |v|
  {
    hide Unit, Encode, ScanUri;
    if v == "" {
      assert s + EncodeAll(v) == s;
    } else {
      TextSplits(t, p, Unit(v[0]), TagText(v[1..]));
      ReadsUnit(t, p, v[0], s, hasTag);
      ReadsText(t, p + |Unit(v[0])|, v[1..], s + Encode(v[0]), true);
      assert (s + Encode(v[0])) + EncodeAll(v[1..]) == s + (Encode(v[0]) + EncodeAll(v[1..]));
    }
  }

  lemma {:induction false} ScanUriKeeps(t: string, p: nat, s: seq<Byte>, hasTag: bool)
    requires p <= |t|
    ensures var r := ScanUri(t, p, s, hasTag); r.Uri? ==> s <= r.octets && (IsUriChar(At(t, p)) ==> s < r.octets)
    decreases |t| - p
  {
    var c := At(t, p);
    if IsUriChar(c) {
      if c == '%' {
        ScanEscapesAdvances(t, p, true, 0, s);
        var e := ScanEscapes(t, p, true, 0, s);
        if e.Uri? {
          ScanUriKeeps(t, e.pos, e.octets, true);
        }
      } else {
        ScanUriKeeps(t, p + 1, s + [c as int], true);
      }
    }
  }

  /** Section 2.1 of RFC 3986: a nonempty tag suffix is read back octet for octet, exactly when the
      character after it cannot be part of a URI. */
  lemma TagRoundTrip(v: string, rest: string)
    requires v != ""
    ensures ScanTagUri(TagText(v) + rest, 0, "") == Uri(EncodeAll(v), |TagText(v)|) <==> !IsUriChar(At(rest, 0))
  {
    hide TagText, Unit, Encode, EncodeAll, ScanEscapes, IsUriChar;
    var t := TagText(v) + rest;
    assert TextAt(t, 0, TagText(v));
    ReadsText(t, 0, v, [], false);
    assert [] + EncodeAll(v) == EncodeAll(v);
    assert At(t, |TagText(v)|) == At(rest, 0);
    ScanUriKeeps(t, |TagText(v)|, EncodeAll(v), true);
  }
}
