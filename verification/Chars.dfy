/** Character classes of the YAML engine (yamlprivateh.go) and the UTF-8 layer below them.
    The engine works on byte buffers and steps by `width`; the rest of this project works on
    `string`, whose `char` is a Unicode scalar value. `ByteClassesAgree` is the bridge: at the
    start of an encoded character every byte-level test answers as the character-level one. */
module Chars {
  type Byte = b: int | 0 <= b < 0x100

  predicate IsBlank(c: char) { c == ' ' || c == '\t' }

  predicate IsBreak(c: char) {
    c == '\r' || c == '\n' || c == '\U{85}' || c == '\U{2028}' || c == '\U{2029}'
  }

  predicate IsBlankz(c: char) { IsBlank(c) || IsBreak(c) || c == '\0' }

  predicate IsAscii(c: char) { c as int <= 0x7F }

  predicate IsPrintable(c: char) {
    var v := c as int;
    || v == 0x0A
    || 0x20 <= v <= 0x7E
    || 0xA0 <= v <= 0xD7FF
    || (0xE000 <= v <= 0xFFFD && v != 0xFEFF)
  }

  /** The characters `yaml_parser_update_buffer` lets into the buffer. */
  predicate ReaderAccepts(v: int) {
    || v == 0x09 || v == 0x0A || v == 0x0D
    || 0x20 <= v <= 0x7E
    || v == 0x85
    || 0xA0 <= v <= 0xD7FF
    || 0xE000 <= v <= 0xFFFD
    || 0x10000 <= v <= 0x10FFFF
  }

  /** What the reader accepts beyond what the emitter prints as it stands: TAB, CR, NEL, the byte order mark, and the
      characters that need two units in UTF-16. */
  lemma AcceptedExactlyWhen(c: char)
    ensures ReaderAccepts(c as int) <==> IsPrintable(c) || c == '\t' || c == '\r' || c == '\U{85}' || c == '\U{FEFF}' || c as int >= 0x1_0000
  {
  }

  predicate IsAlpha(c: char) {
    '0' <= c <= '9' || 'A' <= c <= 'Z' || 'a' <= c <= 'z' || c == '_' || c == '-'
  }

  predicate IsHex(c: char) { '0' <= c <= '9' || 'A' <= c <= 'F' || 'a' <= c <= 'f' }

  function AsHex(c: char): (d: int)
    requires IsHex(c)
    ensures 0 <= d < 16
  {
    if 'A' <= c <= 'F' then c as int - 'A' as int + 10
    else if 'a' <= c <= 'f' then c as int - 'a' as int + 10
    else c as int - '0' as int
  }

  /** The upper-case digit both emitter loops print for a nibble. */
  function HexDigit(d: int): (c: char)
    requires 0 <= d < 16
    ensures IsHex(c) && AsHex(c) == d
    ensures IsAscii(c) && IsPrintable(c)
  {
    if d < 10 then (d + '0' as int) as char else (d + 'A' as int - 10) as char
  }

  /** What the buffer holds at `p`: the reader puts NUL after the last character. */
  function At(t: string, p: nat): char { if p < |t| then t[p] else '\0' }

  // ----- UTF-8 -----

  function Width(b: Byte): nat {
    if b < 0x80 then 1
    else if 0xC0 <= b < 0xE0 then 2
    else if 0xE0 <= b < 0xF0 then 3
    else if 0xF0 <= b < 0xF8 then 4
    else 0
  }

  /** The mask tests of the source (`octet & 0xE0 == 0xC0` and the like) are the ranges of `Width`. */
  lemma WidthMasks(b: bv8)
    ensures (b & 0x80 == 0x00) <==> b < 0x80
    ensures (b & 0xE0 == 0xC0) <==> 0xC0 <= b < 0xE0
    ensures (b & 0xF0 == 0xE0) <==> 0xE0 <= b < 0xF0
    ensures (b & 0xF8 == 0xF0) <==> 0xF0 <= b < 0xF8
    ensures (b & 0xC0 == 0x80) <==> 0x80 <= b < 0xC0
  {
  }

  /** The encoder shared by the reader and by the `\x`, `\u`, `\U` escapes of the scanner. */
  function Encode(c: char): (bs: seq<Byte>)
    ensures 1 <= |bs| <= 4
    ensures Width(bs[0]) == |bs|
    ensures forall k :: 1 <= k < |bs| ==> 0x80 <= bs[k] < 0xC0
  {
    var v := c as int;
    if v <= 0x7F then [v]
    else if v <= 0x7FF then [0xC0 + v / 0x40, 0x80 + v % 0x40]
    else if v <= 0xFFFF then [0xE0 + v / 0x1000, 0x80 + v / 0x40 % 0x40, 0x80 + v % 0x40]
    else [0xF0 + v / 0x40000, 0x80 + v / 0x1000 % 0x40, 0x80 + v / 0x40 % 0x40, 0x80 + v % 0x40]
  }

  function EncodeAll(s: string): seq<Byte> {
    if s == [] then [] else Encode(s[0]) + EncodeAll(s[1..])
  }

  lemma {:induction false} EncodeAllConcat(a: string, b: string)
    ensures EncodeAll(a + b) == EncodeAll(a) + EncodeAll(b)
  {
    if a == [] {
      assert a + b == b;
    } else {
      var head, tail := Encode(a[0]), a[1..];
      EncodeAllConcat(tail, b);
      assert (a + b)[0] == a[0] && (a + b)[1..] == tail + b;
      ConcatAssociates(head, EncodeAll(tail), EncodeAll(b));
    }
  }

  lemma ConcatAssociates(x: seq<Byte>, y: seq<Byte>, z: seq<Byte>)
    ensures (x + y) + z == x + (y + z)
  {
  }

  /** The value both decoders (reader and double-quoted writer) assemble from `|bs|` octets. */
  function Assemble(bs: seq<int>): int
    requires 1 <= |bs| <= 4
  {
    if |bs| == 1 then bs[0]
    else if |bs| == 2 then (bs[0] - 0xC0) * 0x40 + (bs[1] - 0x80)
    else if |bs| == 3 then ((bs[0] - 0xE0) * 0x40 + (bs[1] - 0x80)) * 0x40 + (bs[2] - 0x80)
    else (((bs[0] - 0xF0) * 0x40 + (bs[1] - 0x80)) * 0x40 + (bs[2] - 0x80)) * 0x40 + (bs[3] - 0x80)
  }

  lemma AssembleEncode(c: char)
    ensures Assemble(Encode(c)) == c as int
  {
    var v := c as int;
    if v <= 0x7F {
    } else if v <= 0x7FF {
    } else if v <= 0xFFFF {
      assert v / 0x1000 == v / 0x40 / 0x40;
    } else {
      assert v / 0x1000 == v / 0x40 / 0x40;
      assert v / 0x40000 == v / 0x1000 / 0x40;
    }
  }

  // The byte tests of yamlprivateh.go; `b` holds a whole character at `i`, so the
  // short-circuit look-ahead never leaves the buffer.

  predicate IsPrintableAt(b: seq<Byte>, i: nat)
    requires i < |b| && i + Width(b[i]) <= |b|
  {
    || b[i] == 0x0A
    || 0x20 <= b[i] <= 0x7E
    || (b[i] == 0xC2 && b[i + 1] >= 0xA0)
    || 0xC2 < b[i] < 0xED
    || (b[i] == 0xED && b[i + 1] < 0xA0)
    || b[i] == 0xEE
    || (b[i] == 0xEF
        && !(b[i + 1] == 0xBB && b[i + 2] == 0xBF)
        && !(b[i + 1] == 0xBF && (b[i + 2] == 0xBE || b[i + 2] == 0xBF)))
  }

  predicate IsBreakAt(b: seq<Byte>, i: nat)
    requires i < |b| && i + Width(b[i]) <= |b|
  {
    || b[i] == 0x0D
    || b[i] == 0x0A
    || (b[i] == 0xC2 && b[i + 1] == 0x85)
    || (b[i] == 0xE2 && b[i + 1] == 0x80 && b[i + 2] == 0xA8)
    || (b[i] == 0xE2 && b[i + 1] == 0x80 && b[i + 2] == 0xA9)
  }

  lemma EncodedPrintable(c: char)
    ensures IsPrintableAt(Encode(c), 0) <==> IsPrintable(c)
  {
    var v := c as int;
    if v <= 0x7F {
    } else if v <= 0x7FF {
    } else if v <= 0xFFFF {
      assert v == v / 0x1000 * 0x1000 + v / 0x40 % 0x40 * 0x40 + v % 0x40;
    } else {
    }
  }

  lemma EncodedBreak(c: char)
    ensures IsBreakAt(Encode(c), 0) <==> IsBreak(c)
  {
    var v := c as int;
    if 0x7FF < v <= 0xFFFF {
      ThreeOctetBreak(c);
    } else if v > 0xFFFF {
      assert Encode(c)[0] >= 0xF0;
    } else if v > 0x7F {
      assert Encode(c) == [0xC0 + v / 0x40, 0x80 + v % 0x40];
    }
  }

  lemma ThreeOctetBreak(c: char)
    requires 0x7FF < c as int <= 0xFFFF
    ensures IsBreakAt(Encode(c), 0) <==> c == '\U{2028}' || c == '\U{2029}'
  {
    var v, b := c as int, Encode(c);
    var hi: int, mid: int, lo: int := v / 0x1000, v / 0x40 % 0x40, v % 0x40;
    assert v == 0x1000 * hi + 0x40 * mid + lo;
    assert b[0] as int == 0xE0 + hi && b[1] as int == 0x80 + mid && b[2] as int == 0x80 + lo;
  }

  /** Stepping a byte loop by `width` visits exactly the characters, and every byte test made
      there is the character test. */
  lemma ByteClassesAgree(b: seq<Byte>, i: nat, c: char)
    requires i + |Encode(c)| <= |b|
    requires b[i..i + |Encode(c)|] == Encode(c)
    ensures Width(b[i]) == |Encode(c)|
    ensures IsPrintableAt(b, i) <==> IsPrintable(c)
    ensures IsBreakAt(b, i) <==> IsBreak(c)
    ensures b[i] <= 0x7F <==> IsAscii(c)
    ensures IsAscii(c) ==> b[i] == c as int
  {
    var e := Encode(c);
    assert b[i] == e[0];
    if |e| >= 2 { assert b[i + 1] == e[1]; }
    if |e| >= 3 { assert b[i + 2] == e[2]; }
    EncodedPrintable(c);
    EncodedBreak(c);
  }
}
