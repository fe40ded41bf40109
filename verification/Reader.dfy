/** The sliding-buffer reader (readerc.go). `source` is what successive calls of the read handler
    will deliver; the class invariant ties the two buffers to the whole input, so that everything
    handed to the scanner is `Decode` of the input however it was cut. */
module Reader {
  import opened Chars
  import opened Options
  import opened Decoding

  const RAW_SIZE: nat := 512
  const BUFFER_SIZE: nat := 1536

  /** The most characters any part of the scanner asks for: the look-ahead of the comment scanners. */
  const LONGEST_REQUEST: nat := 512

  function Concat(source: seq<seq<Byte>>): seq<Byte> {
    if source == [] then [] else source[0] + Concat(source[1..])
  }

  function Size(source: seq<seq<Byte>>): nat {
    if source == [] then 0 else 1 + |source[0]| + Size(source[1..])
  }

  function Nuls(n: nat): (s: string)
    ensures |s| == n && forall i :: 0 <= i < n ==> s[i] == '\0'
  {
    seq(n, _ => '\0')
  }

  function Zeros(n: nat): (s: seq<Byte>)
    ensures |s| == n && forall i :: 0 <= i < n ==> s[i] == 0
  {
    seq(n, _ => 0)
  }

  lemma {:induction false} EncodedLength(s: string)
    ensures |s| <= |EncodeAll(s)| <= 4 * |s|
  {
    if s != "" { EncodedLength(s[1..]); }
  }

  lemma WideIsLong(c: char)
    requires !IsAscii(c)
    ensures |Encode(c)| > 1
  {
  }

  lemma {:induction false} EncodedAscii(s: string)
    requires forall i :: 0 <= i < |s| ==> IsAscii(s[i])
    ensures |EncodeAll(s)| == |s|
  {
    if s != "" { EncodedAscii(s[1..]); }
  }

  /** Go's `copy(a, a[from:to])`. */
  method CopyDown(a: array<Byte>, from: nat, to: nat)
    requires from <= to <= a.Length
    modifies a
    ensures a[..to - from] == old(a[from..to])
  {
    var i := 0;
    while i < to - from
      invariant 0 <= i <= to - from
      invariant a[..i] == old(a[from..from + i])
      invariant forall k :: from + i <= k < a.Length ==> a[k] == old(a[k])
    {
      a[i] := a[from + i];
      i := i + 1;
    }
  }

  /** The inner loop for UTF-8: the octets of one character, their number known. */
  method DecodeOctets(bs: seq<Byte>, offset: nat) returns (f: Found)
    requires 1 <= |bs| <= 4
    ensures f == Utf8Value(bs, offset)
  {
    var width := |bs|;
    var lead: int := bs[0];
    var value := lead - (if width == 1 then 0 else if width == 2 then 0xC0 else if width == 3 then 0xE0 else 0xF0);
    var k := 1;
    while k < width
      invariant 1 <= k <= width
      invariant FirstBad(bs, 1) == FirstBad(bs, k)
      invariant value == Accumulated(bs, k)
    {
      var octet: int := bs[k];
      if !(0x80 <= octet < 0xC0) { return Bad(Problem(InvalidTrailing, offset + k)); }
      value := value * 0x40 + (octet - 0x80);
      k := k + 1;
    }
    AccumulatedAll(bs);
    if value < Smallest(width) { return Bad(Problem(InvalidLength, offset)); }
    if IsSurrogate(value) || value > 0x10FFFF { return Bad(Problem(InvalidCharacter, offset)); }
    f := Checked(value, width, offset);
  }

  class Reader {
    const raw: array<Byte>
    const buffer: array<Byte>
    const eofWithData: bool  // whether the last read reports the end of file along with its data
    var rawPos: nat
    var rawLen: nat
    var bufferPos: nat
    var bufferLen: nat
    var unread: nat
    var eof: bool
    var encoding: Option<Encoding>
    var offset: nat
    var source: seq<seq<Byte>>
    ghost const input: seq<Byte>
    ghost var decoded: string  // every character put into the buffer so far,
    ghost var nuls: nat        // followed by this many NULs
    ghost var pads: nat        // NULs at the end of the buffer that `unread` does not count

    ghost function Full(): Decoded { Decode(Bom(input).0, input, Start()) }

    ghost function Start(): (p: nat)
      ensures p <= |input|
    {
      Bom(input).1
    }

    /** The characters in the buffer that have not been consumed. */
    ghost function Unread(): (s: string)
      requires unread <= |decoded| + nuls
      reads `unread, `decoded, `nuls
      ensures |s| == unread
    {
      (decoded + Nuls(nuls))[|decoded| + nuls - unread..]
    }

    /** How many characters have been taken. */
    ghost function Taken(): int
      reads `unread, `decoded, `nuls
    {
      |decoded| + nuls - unread
    }

    ghost predicate RawValid()
      reads `rawPos, `rawLen, `offset, `source, `eof, raw
    {
      && raw.Length == RAW_SIZE && raw != buffer && rawPos <= rawLen <= RAW_SIZE
      && offset + (rawLen - rawPos) <= |input|
      && raw[rawPos..rawLen] == input[offset..offset + (rawLen - rawPos)]
      && Concat(source) == input[offset + (rawLen - rawPos)..]
      && (eof ==> source == [])
    }

    ghost predicate BufferValid()
      reads `bufferPos, `bufferLen, `unread, `decoded, `nuls, `pads, buffer
    {
      && buffer.Length == BUFFER_SIZE && bufferPos <= bufferLen <= BUFFER_SIZE && buffer != raw
      && unread <= |decoded| + nuls && pads <= LONGEST_REQUEST && (pads > 0 ==> nuls > 0)
      && buffer[bufferPos..bufferLen] == EncodeAll(Unread()) + Zeros(pads)
    }

    ghost predicate Progress()
      reads `nuls, `eof, `offset, `encoding, `decoded, `rawPos, `rawLen
    {
      && (nuls > 0 ==> eof && offset == |input|)
      && offset <= |input|
      && match encoding
         case None => offset == 0 && decoded == "" && nuls == 0 && rawPos == 0 && rawLen == 0
         case Some(enc) =>
           && enc == Bom(input).0
           && Full() == Decoded(decoded + Decode(enc, input, offset).chars, Decode(enc, input, offset).problem)
    }

    ghost predicate Valid()
      reads this, raw, buffer
    {
      RawValid() && BufferValid() && Progress()
    }

    constructor (chunks: seq<seq<Byte>>, eofTogether: bool)
      ensures Valid() && fresh(raw) && fresh(buffer) && input == Concat(chunks)
      ensures unread == 0 && decoded == ""
    {
      hide Concat, Decode, Bom, Encode;
      raw := new Byte[RAW_SIZE](_ => 0);
      buffer := new Byte[BUFFER_SIZE](_ => 0);
      eofWithData, source, input := eofTogether, chunks, Concat(chunks);
      rawPos, rawLen, bufferPos, bufferLen, unread, eof, encoding, offset := 0, 0, 0, 0, 0, false, None, 0;
      decoded, nuls, pads := "", 0, 0;
      new;
      assert buffer != raw;
      assert EncodeAll(Unread()) == [];
    }

    /** The read handler: fills `raw` from `rawLen` on with what the next read delivers. */
    method Read() returns (n: nat, end: bool)
      requires raw.Length == RAW_SIZE && rawLen < RAW_SIZE
      modifies this`source, raw
      ensures rawLen + n <= RAW_SIZE
      ensures raw[..rawLen] == old(raw[..rawLen])
      ensures raw[rawLen..rawLen + n] + Concat(source) == Concat(old(source))
      ensures end ==> source == []
      ensures Size(source) <= Size(old(source))
      ensures !end ==> Size(source) < Size(old(source))
    {
      if source == [] { return 0, true; }
      var chunk, room := source[0], RAW_SIZE - rawLen;
      n := if |chunk| < room then |chunk| else room;
      var i := 0;
      while i < n
        invariant 0 <= i <= n
        invariant raw[..rawLen] == old(raw[..rawLen])
        invariant raw[rawLen..rawLen + i] == chunk[..i]
        invariant source == old(source)
      {
        raw[rawLen + i] := chunk[i];
        i := i + 1;
      }
      assert chunk == chunk[..n] + chunk[n..];
      assert (chunk[..n] + chunk[n..]) + Concat(source[1..]) == chunk[..n] + (chunk[n..] + Concat(source[1..]));
      if n == |chunk| {
        source := source[1..];
        assert chunk[n..] + Concat(source) == Concat(source);
      } else {
        source := [chunk[n..]] + source[1..];
        assert source[1..] == old(source)[1..];
      }
      end := eofWithData && source == [];
    }

    /** `update_raw_buffer`. */
    method UpdateRaw()
      requires RawValid()
      modifies this`rawPos, this`rawLen, this`eof, this`source, raw
      ensures RawValid() && rawLen - rawPos >= old(rawLen - rawPos)
      ensures old(eof) ==> eof && rawLen - rawPos == old(rawLen - rawPos)
      ensures Size(source) <= Size(old(source))
      ensures !old(eof) && !old(rawPos == 0 && rawLen == RAW_SIZE) ==> eof || Size(source) < Size(old(source))
    {
      hide Concat, Size;
      if rawPos == 0 && rawLen == RAW_SIZE { return; }
      if eof { return; }
      Compact();
      ghost var pending, more := raw[..rawLen], Concat(source);
      assert pending == raw[rawPos..rawLen];
      var n, end := Read();
      Appended(pending, more, n);
      rawLen := rawLen + n;
      eof := end;
    }

    /** What was pending, followed by what the read delivered. */
    lemma Appended(pending: seq<Byte>, more: seq<Byte>, n: nat)
      requires raw.Length == RAW_SIZE && rawLen + n <= RAW_SIZE && raw[..rawLen] == pending
      requires offset + rawLen <= |input| && pending == input[offset..offset + rawLen] && more == input[offset + rawLen..]
      requires raw[rawLen..rawLen + n] + Concat(source) == more
      ensures offset + rawLen + n <= |input| && raw[..rawLen + n] == input[offset..offset + rawLen + n]
      ensures Concat(source) == input[offset + rawLen + n..]
    {
      hide Concat;
      PrefixOf(input, offset, pending, raw[rawLen..rawLen + n], Concat(source));
      assert raw[..rawLen + n] == pending + raw[rawLen..rawLen + n];
    }

    /** Moves the octets not decoded yet to the beginning. */
    method Compact()
      requires RawValid()
      modifies this`rawPos, this`rawLen, raw
      ensures RawValid() && rawPos == 0 && rawLen == old(rawLen - rawPos)
    {
      ghost var pending := raw[rawPos..rawLen];
      if 0 < rawPos < rawLen { CopyDown(raw, rawPos, rawLen); }
      rawLen := rawLen - rawPos;
      rawPos := 0;
      assert raw[..rawLen] == pending;
    }

    lemma RawAt(k: nat)
      requires RawValid() && k < rawLen - rawPos
      ensures raw[rawPos + k] == input[offset + k]
    {
      assert raw[rawPos..rawLen][k] == input[offset..offset + (rawLen - rawPos)][k];
    }

    lemma RawSlice(n: nat)
      requires RawValid() && n <= rawLen - rawPos
      ensures raw[rawPos..rawPos + n] == input[offset..offset + n]
    {
      assert raw[rawPos..rawPos + n] == raw[rawPos..rawLen][..n];
      assert input[offset..offset + n] == input[offset..offset + (rawLen - rawPos)][..n];
    }

    /** Moves past `width` octets. */
    method Advance(width: nat)
      requires RawValid() && width <= rawLen - rawPos
      modifies this`rawPos, this`offset
      ensures RawValid() && rawPos == old(rawPos) + width && offset == old(offset) + width
    {
      assert raw[rawPos + width..rawLen] == raw[rawPos..rawLen][width..];
      assert input[offset + width..offset + (rawLen - rawPos)] == input[offset..offset + (rawLen - rawPos)][width..];
      rawPos, offset := rawPos + width, offset + width;
    }

    /** Reads until three octets are there, or all of them. */
    method FillThree()
      requires RawValid() && offset == 0 && rawPos == 0 && rawLen < RAW_SIZE
      modifies this`rawPos, this`rawLen, this`eof, this`source, raw
      ensures RawValid()
      ensures var avail := rawLen - rawPos;
        && rawPos <= rawLen <= raw.Length && avail <= |input| && (avail < 3 ==> avail == |input|)
        && forall k :: 0 <= k < avail ==> raw[rawPos + k] == input[k]
    {
      hide Concat;
      while !eof && rawLen - rawPos < 3
        invariant RawValid() && offset == 0
        decreases Size(source) + if eof then 0 else 1
      {
        UpdateRaw();
      }
      assert Concat([]) == [] by { NothingLeft(); }
      forall k | 0 <= k < rawLen - rawPos ensures raw[rawPos + k] == input[k] { RawAt(k); }
    }

    /** `determine_encoding`. */
    method DetermineEncoding()
      requires RawValid() && encoding == None && offset == 0 && rawPos == 0 && rawLen < RAW_SIZE
      modifies this`rawPos, this`rawLen, this`eof, this`source, this`encoding, this`offset, raw
      ensures RawValid() && encoding == Some(Bom(input).0) && offset == Start()
    {
      hide RawValid;
      FillThree();
      var avail := rawLen - rawPos;
      if avail >= 2 && raw[rawPos] == 0xFF && raw[rawPos + 1] == 0xFE {
        encoding := Some(Utf16LE);
        Advance(2);
      } else if avail >= 2 && raw[rawPos] == 0xFE && raw[rawPos + 1] == 0xFF {
        encoding := Some(Utf16BE);
        Advance(2);
      } else if avail >= 3 && raw[rawPos] == 0xEF && raw[rawPos + 1] == 0xBB && raw[rawPos + 2] == 0xBF {
        encoding := Some(Utf8);
        Advance(3);
      } else {
        encoding := Some(Utf8);
      }
    }

    /** Decodes the character at `rawPos`, octet by octet as the source does. */
    method DecodeNext() returns (f: Found)
      requires RawValid() && encoding.Some? && rawPos < rawLen
      ensures f == FoundAt(encoding.value, input, offset, rawLen - rawPos)
    {
      var unreadRaw := rawLen - rawPos;
      if encoding.value.Utf8? {
        f := DecodeUtf8(unreadRaw);
      } else {
        f := DecodeUtf16(encoding.value.Utf16BE?, unreadRaw);
      }
    }

    method DecodeUtf8(unreadRaw: nat) returns (f: Found)
      requires RawValid() && unreadRaw == rawLen - rawPos > 0
      ensures f == Utf8At(input, offset, unreadRaw)
    {
      RawAt(0);
      var octet := raw[rawPos];
      var width: nat;
      if octet < 0x80 { width := 1; }
      else if 0xC0 <= octet < 0xE0 { width := 2; }
      else if 0xE0 <= octet < 0xF0 { width := 3; }
      else if 0xF0 <= octet < 0xF8 { width := 4; }
      else { return Bad(Problem(InvalidLeading, offset)); }
      if width > unreadRaw { return More(IncompleteUtf8); }
      RawSlice(width);
      f := DecodeOctets(raw[rawPos..rawPos + width], offset);
    }

    method DecodeUtf16(big: bool, unreadRaw: nat) returns (f: Found)
      requires RawValid() && unreadRaw == rawLen - rawPos > 0
      ensures f == Utf16At(big, input, offset, unreadRaw)
    {
      var low, high := if big then 1 else 0, if big then 0 else 1;
      if unreadRaw < 2 { return More(IncompleteUtf16); }
      RawAt(0);
      RawAt(1);
      var value: int := raw[rawPos + low] + raw[rawPos + high] as int * 0x100;
      if IsLow(value) { return Bad(Problem(UnexpectedLow, offset)); }
      var width := 2;
      if IsHigh(value) {
        width := 4;
        if unreadRaw < 4 { return More(IncompletePair); }
        RawAt(2);
        RawAt(3);
        var value2: int := raw[rawPos + low + 2] + raw[rawPos + high + 2] as int * 0x100;
        if !IsLow(value2) { return Bad(Problem(ExpectedLow, offset + 2)); }
        value := 0x10000 + (value - 0xD800) * 0x400 + (value2 - 0xDC00);
      }
      f := Checked(value, width, offset);
    }

    /** Puts the UTF-8 of `c` behind the buffer. */
    method PutCharacter(c: char)
      requires buffer.Length == BUFFER_SIZE && bufferLen + 4 <= BUFFER_SIZE
      modifies this`bufferLen, buffer
      ensures bufferLen == old(bufferLen) + |Encode(c)|
      ensures buffer[..bufferLen] == old(buffer[..bufferLen]) + Encode(c)
    {
      var value := c as int;
      if value <= 0x7F {
        buffer[bufferLen] := value;
        bufferLen := bufferLen + 1;
      } else if value <= 0x7FF {
        buffer[bufferLen] := 0xC0 + value / 0x40;
        buffer[bufferLen + 1] := 0x80 + value % 0x40;
        bufferLen := bufferLen + 2;
      } else if value <= 0xFFFF {
        buffer[bufferLen] := 0xE0 + value / 0x1000;
        buffer[bufferLen + 1] := 0x80 + value / 0x40 % 0x40;
        buffer[bufferLen + 2] := 0x80 + value % 0x40;
        bufferLen := bufferLen + 3;
      } else {
        buffer[bufferLen] := 0xF0 + value / 0x40000;
        buffer[bufferLen + 1] := 0x80 + value / 0x1000 % 0x40;
        buffer[bufferLen + 2] := 0x80 + value / 0x40 % 0x40;
        buffer[bufferLen + 3] := 0x80 + value % 0x40;
        bufferLen := bufferLen + 4;
      }
    }

    // ----- Characters -----

    /** `unread` characters stand at the beginning of the buffer. */
    ghost predicate Open()
      reads `bufferPos, `bufferLen, `unread, `decoded, `nuls, `pads, buffer
    {
      BufferValid() && bufferPos == 0
    }

    method CompactBuffer()
      requires BufferValid()
      modifies this`bufferPos, this`bufferLen, buffer
      ensures Open()
    {
      ghost var pending := buffer[bufferPos..bufferLen];
      if 0 < bufferPos < bufferLen {
        CopyDown(buffer, bufferPos, bufferLen);
        bufferLen := bufferLen - bufferPos;
        bufferPos := 0;
      } else if bufferPos == bufferLen {
        bufferLen := 0;
        bufferPos := 0;
      }
      assert buffer[..bufferLen] == pending;
    }

    /** A decoded character goes behind the buffer. */
    method Append(c: char)
      requires Open() && nuls == 0 && bufferLen + 4 <= BUFFER_SIZE
      modifies this`bufferLen, this`unread, this`decoded, buffer
      ensures Open() && bufferLen == old(bufferLen) + |Encode(c)|
      ensures unread == old(unread) + 1 && decoded == old(decoded) + [c]
    {
      hide Encode, EncodeAll;
      CharacterAppended(decoded, unread, c);
      PutCharacter(c);
      unread := unread + 1;
      decoded := decoded + [c];
    }

    /** At the end of file: one NUL that counts as a character. */
    method AppendNul()
      requires Open() && bufferLen < BUFFER_SIZE
      modifies this`bufferLen, this`unread, this`nuls, buffer
      ensures Open() && bufferLen == old(bufferLen) + 1
      ensures unread == old(unread) + 1 && nuls == old(nuls) + 1
    {
      hide Encode, EncodeAll;
      NulAppended(decoded, nuls, unread, pads);
      buffer[bufferLen] := 0;
      bufferLen := bufferLen + 1;
      unread := unread + 1;
      nuls := nuls + 1;
    }

    /** NULs up to the requested length, not counted in `unread`. */
    method PadTo(length: nat)
      requires Open() && length <= LONGEST_REQUEST && (bufferLen < length ==> nuls > 0)
      modifies this`bufferLen, this`pads, buffer
      ensures Open() && bufferLen >= length
    {
      while bufferLen < length
        invariant Open() && (bufferLen < length ==> nuls > 0) && nuls == old(nuls)
      {
        ghost var before := EncodeAll(Unread());
        buffer[bufferLen] := 0;
        bufferLen := bufferLen + 1;
        pads := pads + 1;
        assert before + Zeros(pads) == (before + Zeros(pads - 1)) + [0];
      }
    }

    /** The inner loop: decodes until the raw buffer holds no whole character. */
    method DecodeRaw() returns (r: Option<Problem>)
      requires RawValid() && Open() && Progress() && encoding.Some?
      requires bufferLen <= 764 || rawPos == rawLen
      modifies this`rawPos, this`offset, this`bufferLen, this`unread, this`decoded, buffer
      ensures r.None? ==> RawValid() && Open() && Progress() && rawLen - rawPos < 4
      ensures r.None? ==> (eof ==> rawPos == rawLen)
      ensures r.None? ==> bufferLen <= if old(rawPos) == rawLen then old(bufferLen) else 1532
      ensures r.None? ==> bufferLen <= old(bufferLen) + 4 * (unread - old(unread)) && Taken() == old(Taken())
      ensures r.None? ==> unread >= old(unread) && old(decoded) <= decoded
      ensures r.None? && bufferLen > old(bufferLen) ==> nuls == 0
      ensures r.Some? ==> Full() == Decoded(decoded, r)
    {
      hide FoundAt, EncodeAll, Encode, Concat, Bom, Unread;
      ghost var start, base := rawPos, bufferLen;
      while rawPos != rawLen
        invariant RawValid() && Open() && Progress()
        invariant start <= rawPos && 2 * bufferLen <= 2 * base + 3 * (rawPos - start)
        invariant unread >= old(unread) && old(decoded) <= decoded
        invariant bufferLen <= old(bufferLen) + 4 * (unread - old(unread)) && Taken() == old(Taken())
        invariant bufferLen > old(bufferLen) ==> nuls == 0
        decreases rawLen - rawPos
      {
        var f := DecodeNext();
        ghost var whole := FoundAt(encoding.value, input, offset, |input| - offset);
        if !f.More? { SeeingMore(encoding.value, input, offset, rawLen - rawPos, |input| - offset); }
        match f {
          case More(kind) =>
            NothingLeft();
            if eof { return Some(Problem(kind, offset)); }
            return None;
          case Bad(problem) =>
            return Some(problem);
          case Character(c, width) =>
            StepForward(c, width);
        }
      }
      r := None;
    }

    /** A whole character moves from the raw buffer to the buffer. */
    method StepForward(c: char, width: nat)
      requires RawValid() && Open() && Progress() && encoding.Some? && rawPos < rawLen
      requires FoundAt(encoding.value, input, offset, rawLen - rawPos) == Character(c, width)
      requires bufferLen + 4 <= BUFFER_SIZE
      modifies this`rawPos, this`offset, this`bufferLen, this`unread, this`decoded, buffer
      ensures RawValid() && Open() && Progress() && nuls == 0
      ensures rawPos == old(rawPos) + width && 2 * bufferLen <= 2 * old(bufferLen) + 3 * width
      ensures bufferLen <= old(bufferLen) + 4
      ensures unread == old(unread) + 1 && decoded == old(decoded) + [c]
    {
      hide FoundAt, Decode, EncodeAll, Encode, Concat, Bom, Unread;
      SeeingMore(encoding.value, input, offset, rawLen - rawPos, |input| - offset);
      DecodeStep(encoding.value, input, offset, c, width, decoded);
      Advance(width);
      Append(c);
    }

    lemma BufferBound()
      requires BufferValid()
      ensures unread + pads <= bufferLen - bufferPos <= 4 * unread + pads
      ensures bufferLen - bufferPos == |EncodeAll(Unread())| + pads
      ensures bufferLen <= BUFFER_SIZE == buffer.Length && pads <= LONGEST_REQUEST && (pads > 0 ==> nuls > 0)
    {
      EncodedLength(Unread());
      assert |buffer[bufferPos..bufferLen]| == bufferLen - bufferPos;
    }

    /** Before the last of the missing characters comes, the octets waiting leave room for all that a
        full raw buffer can decode to. */
    ghost predicate Fits(length: nat)
      reads `bufferPos, `bufferLen, `unread, `pads
    {
      length <= LONGEST_REQUEST && (unread < length ==> bufferLen - bufferPos - pads + 4 * (length - unread - 1) <= 764)
    }

    /** Up to 192 characters can always be asked for. */
    lemma ShortFits(length: nat)
      requires BufferValid() && length <= 192
      ensures Fits(length)
    {
      BufferBound();
    }

    /** The comment scanners ask for one character more than they hold, up to 512, while what they hold
        is single octets, except that the last may be a wide line break. */
    lemma PeekFits(length: nat)
      requires BufferValid() && length <= LONGEST_REQUEST && length <= unread + 1
      requires forall i :: 0 <= i < unread - 1 ==> IsAscii(Unread()[i])
      ensures Fits(length)
    {
      BufferBound();
      var text := Unread();
      if unread > 0 {
        EncodedAscii(text[..unread - 1]);
        EncodedLength(text[unread - 1..]);
        EncodeAllConcat(text[..unread - 1], text[unread - 1..]);
        assert text == text[..unread - 1] + text[unread - 1..];
      }
    }

    /** Behind the end of the input nothing is left to decode. */
    lemma AtEnd()
      requires RawValid() && Progress()
      ensures raw != buffer && (nuls > 0 ==> eof && rawPos == rawLen)
    {
    }

    /** The end of file reached, everything decoded: one NUL behind it. */
    method EndInput()
      requires RawValid() && Open() && Progress() && encoding.Some? && eof && rawPos == rawLen && bufferLen < BUFFER_SIZE
      modifies this`bufferLen, this`unread, this`nuls, buffer
      ensures RawValid() && Open() && Progress() && nuls > 0 && Full() == Decoded(decoded, None)
      ensures unread == old(unread) + 1 && bufferLen == old(bufferLen) + 1 && decoded == old(decoded) && Taken() == old(Taken())
    {
      hide Decode, Bom, EncodeAll, Unread, BufferValid;
      NothingLeft();
      AppendNul();
      DecodeEnd(encoding.value, input);
    }

    /** The outer loop of `update_buffer`: reads and decodes until there are `length` characters. */
    method Fill(length: nat) returns (r: Option<Problem>)
      requires RawValid() && Open() && Progress() && encoding.Some? && Fits(length)
      modifies this, raw, buffer
      ensures r.None? ==> RawValid() && Open() && Progress() && encoding.Some?
      ensures r.None? ==> unread >= length || (nuls > 0 && unread > old(unread) && Full() == Decoded(decoded, None))
      ensures r.None? ==> old(decoded) <= decoded && unread >= old(unread) && Taken() == old(Taken())
      ensures r.Some? ==> Full() == Decoded(decoded, r)
    {
      hide FoundAt, Decode, EncodeAll, Concat, Bom, Unread, BufferValid, RawValid, Full;
      var first := true;
      while unread < length
        invariant RawValid() && Open() && Progress() && encoding.Some?
        invariant old(decoded) <= decoded && unread >= old(unread) && Taken() == old(Taken())
        invariant Fits(length)
        invariant !first ==> !eof && rawLen - rawPos < 4
        decreases Size(source) + (if eof then 0 else 1), first
      {
        AtEnd();
        if !first || rawPos == rawLen { UpdateRaw(); }
        first := false;
        BufferBound();
        r := DecodeRaw();
        if r.Some? { return; }
        if eof {
          EndInput();
          break;
        }
      }
      r := None;
    }

    /** `update_buffer`: at least `length` characters, or the end of the input in NULs. A failure is
        the problem of the input itself, and everything before it has been delivered. */
    method UpdateBuffer(length: nat) returns (r: Option<Problem>)
      requires Valid() && Fits(length)
      modifies this, raw, buffer
      ensures r.None? ==> Valid() && bufferLen - bufferPos >= length
      ensures r.None? ==> unread >= length || (nuls > 0 && unread > old(unread) && Full() == Decoded(decoded, None))
      ensures r.None? ==> old(decoded) <= decoded && unread >= old(unread) && Taken() == old(Taken())
      ensures r.Some? ==> Full() == Decoded(decoded, r)
    {
      hide FoundAt, Decode, EncodeAll, Concat, Bom, Unread, Full, Size, Zeros, RawValid;
      BufferBound();
      if unread >= length { return None; }
      if encoding == None { DetermineEncoding(); StartsHere(); }
      CompactBuffer();
      r := Fill(length);
      if r.None? {
        BufferBound();
        PadTo(length);
      }
    }

    lemma HeadInFront()
      requires BufferValid() && unread > 0
      ensures bufferPos < bufferLen <= buffer.Length
      ensures buffer[bufferPos..bufferLen] == Encode(Unread()[0]) + (EncodeAll(Unread()[1..]) + Zeros(pads))
      ensures Width(buffer[bufferPos]) == |Encode(Unread()[0])|
    {
      hide Encode;
      var text := Unread();
      assert EncodeAll(text) == Encode(text[0]) + EncodeAll(text[1..]);
      assert (Encode(text[0]) + EncodeAll(text[1..])) + Zeros(pads) == Encode(text[0]) + (EncodeAll(text[1..]) + Zeros(pads));
      assert buffer[bufferPos] == buffer[bufferPos..bufferLen][0] == Encode(text[0])[0];
    }

    /** `read` of the scanner: the octets of the next character, taken off the buffer. */
    method TakeCharacter() returns (bytes: seq<Byte>)
      requires Valid() && unread > 0
      modifies this`bufferPos, this`unread
      ensures Valid() && bytes == Encode(old(Unread())[0])
      ensures unread == old(unread) - 1 && Unread() == old(Unread())[1..]
    {
      hide RawValid, Progress, Encode, EncodeAll;
      ghost var text := Unread();
      ghost var rest := EncodeAll(text[1..]) + Zeros(pads);
      HeadInFront();
      var width := Width(buffer[bufferPos]);
      bytes := buffer[bufferPos..bufferPos + width];
      assert bytes == buffer[bufferPos..bufferLen][..width];
      assert buffer[bufferPos + width..bufferLen] == buffer[bufferPos..bufferLen][width..] == rest;
      bufferPos := bufferPos + width;
      unread := unread - 1;
      assert Unread() == text[1..];
    }

    /** The next character is the one of the whole input, or NUL behind its end. */
    lemma NextIsTheInputs()
      requires Valid() && encoding.Some? && unread > 0
      ensures Unread()[0] == At(Full().chars, Taken())
      ensures decoded <= Full().chars
    {
      hide RawValid, Decode, Bom, EncodeAll;
      if nuls > 0 { DecodeEnd(encoding.value, input); }
      assert Unread()[0] == (decoded + Nuls(nuls))[Taken()];
    }

    /** So are the ones behind it. */
    lemma UnreadAt(k: nat)
      requires Valid() && encoding.Some? && k < unread
      ensures Unread()[k] == At(Full().chars, Taken() + k)
    {
      hide RawValid, Decode, Bom, EncodeAll;
      if nuls > 0 { DecodeEnd(encoding.value, input); }
      assert Unread()[k] == (decoded + Nuls(nuls))[Taken() + k];
    }

    /** Behind `k` characters of one octet each stands the encoding of the next one. */
    lemma OctetsBehind(k: nat)
      requires BufferValid() && k < unread && forall i :: 0 <= i < k ==> IsAscii(Unread()[i])
      ensures var held, c := buffer[bufferPos..bufferLen], Unread()[k];
        k + |Encode(c)| <= |held| && held[k..k + |Encode(c)|] == Encode(c)
    {
      hide Encode;
      var text := Unread();
      EncodedAscii(text[..k]);
      EncodeAllConcat(text[..k], text[k..]);
      assert text == text[..k] + text[k..] && text[k..][0] == text[k];
      var held := buffer[bufferPos..bufferLen];
      assert held == EncodeAll(text[..k]) + (Encode(text[k]) + (EncodeAll(text[k..][1..]) + Zeros(pads)));
    }

    /** The octet at `k`, tested as the comment scanners do, when all characters before it but the last
        are single octets: the second octet of a wide character passes no test. */
    lemma OctetTests(k: nat)
      requires BufferValid() && k < unread && forall i :: 0 <= i < k - 1 ==> IsAscii(Unread()[i])
      ensures var held := buffer[bufferPos..bufferLen];
        && k < |held| && k + Width(held[k]) <= |held|
        && if k > 0 && !IsAscii(Unread()[k - 1]) then held[k] != 0x20 && held[k] != 0x09 && !IsBreakAt(held, k)
           else (held[k] == 0x20 || held[k] == 0x09 <==> IsBlank(Unread()[k])) && (IsBreakAt(held, k) <==> IsBreak(Unread()[k]))
    {
      hide Encode, EncodeAll, Unread;
      var held := buffer[bufferPos..bufferLen];
      if k > 0 && !IsAscii(Unread()[k - 1]) {
        var c := Unread()[k - 1];
        OctetsBehind(k - 1);
        WideIsLong(c);
        assert held[k] == held[k - 1..k - 1 + |Encode(c)|][1];
      } else {
        OctetsBehind(k);
        ByteClassesAgree(held, k, Unread()[k]);
      }
    }

    /** The look-ahead of `scan_line_comment`, over blanks, and of `scan_comments`, over line breaks too:
        octet by octet, asking for one character more each time. Nothing is taken, and no request is too
        long for the buffer. Behind a line break of more than one octet it stops at the second octet. */
    method LookAhead(breaks: bool) returns (peek: nat, failed: bool)
      requires Valid()
      modifies this, raw, buffer
      ensures !failed ==> Valid() && Taken() == old(Taken()) && peek <= unread && peek <= LONGEST_REQUEST
      ensures !failed ==> forall i :: 0 <= i < peek ==> IsBlank(Unread()[i]) || (breaks && IsBreak(Unread()[i]))
      ensures !failed && peek < LONGEST_REQUEST ==>
        peek < unread && ((peek > 0 && !IsAscii(Unread()[peek - 1])) || !(IsBlank(Unread()[peek]) || (breaks && IsBreak(Unread()[peek]))))
    {
      hide RawValid, Progress, Encode, EncodeAll, Unread, Decode, Bom, Full;
      peek, failed := 0, false;
      while peek < 512
        invariant Valid() && Taken() == old(Taken()) && peek <= unread && peek <= 512
        invariant forall i :: 0 <= i < peek ==> IsBlank(Unread()[i]) || (breaks && IsBreak(Unread()[i]))
        invariant forall i :: 0 <= i < peek - 1 ==> IsAscii(Unread()[i])
        decreases 512 - peek
      {
        if unread < peek + 1 {
          failed := AskForMore(peek);
          if failed { return; }
        }
        OctetTests(peek);
        var held := buffer[bufferPos..bufferLen];
        if held[peek] != 0x20 && held[peek] != 0x09 && !(breaks && IsBreakAt(held, peek)) { return; }
        peek := peek + 1;
      }
    }

    /** One character more than the `peek` held; the others stay. */
    method AskForMore(peek: nat) returns (failed: bool)
      requires Valid() && unread == peek < LONGEST_REQUEST && forall i :: 0 <= i < peek - 1 ==> IsAscii(Unread()[i])
      modifies this, raw, buffer
      ensures !failed ==> Valid() && Taken() == old(Taken()) && unread > peek && Unread()[..peek] == old(Unread())
    {
      hide RawValid, Progress, Encode, EncodeAll, Unread, Decode, Bom, Full;
      ghost var before, chars := Unread(), Full().chars;
      Started();
      forall i | 0 <= i < peek ensures before[i] == At(chars, Taken() + i) { UnreadAt(i); }
      PeekFits(peek + 1);
      var r := UpdateBuffer(peek + 1);
      failed := r.Some?;
      if !failed {
        Started();
        forall i | 0 <= i < peek ensures Unread()[i] == before[i] { UnreadAt(i); }
      }
    }

    /** Characters are there only once the encoding is known. */
    lemma Started()
      requires Valid()
      ensures unread > 0 ==> encoding.Some?
    {
      hide RawValid, Decode, Bom, EncodeAll;
    }

    /** Nothing has been decoded when the encoding becomes known. */
    lemma StartsHere()
      requires encoding == Some(Bom(input).0) && offset == Start() && decoded == "" && nuls == 0
      ensures Progress()
    {
      hide Decode;
      assert decoded + Decode(encoding.value, input, offset).chars == Decode(encoding.value, input, offset).chars;
    }
  }

  /** Two readers of the same input hand out the same characters, however the input was cut. */
  lemma ChunkingIsInvisible(a: Reader, b: Reader)
    requires a.Valid() && b.Valid() && a.input == b.input
    requires a.encoding.Some? && b.encoding.Some? && a.unread > 0 && b.unread > 0 && a.Taken() == b.Taken()
    ensures a.encoding == b.encoding && a.Unread()[0] == b.Unread()[0]
  {
    hide Decode, Bom;
    a.NextIsTheInputs();
    b.NextIsTheInputs();
  }

  /** One more character, seen from the whole input. */
  lemma DecodeStep(enc: Encoding, input: seq<Byte>, p: nat, c: char, width: nat, decoded: string)
    requires p < |input| && FoundAt(enc, input, p, |input| - p) == Character(c, width)
    ensures decoded + Decode(enc, input, p).chars == (decoded + [c]) + Decode(enc, input, p + width).chars
    ensures Decode(enc, input, p).problem == Decode(enc, input, p + width).problem
  {
    hide FoundAt;
    assert (decoded + [c]) + Decode(enc, input, p + width).chars == decoded + ([c] + Decode(enc, input, p + width).chars);
  }

  lemma CharacterAppended(decoded: string, unread: nat, c: char)
    requires unread <= |decoded|
    ensures var before, after := (decoded + Nuls(0))[|decoded| - unread..],
                                 ((decoded + [c]) + Nuls(0))[|decoded| + 1 - (unread + 1)..];
      EncodeAll(after) + Zeros(0) == (EncodeAll(before) + Zeros(0)) + Encode(c)
  {
    hide Encode;
    var before := (decoded + Nuls(0))[|decoded| - unread..];
    var after := ((decoded + [c]) + Nuls(0))[|decoded| - unread..];
    assert after == before + [c];
    EncodeAllConcat(before, [c]);
    assert EncodeAll([c]) == Encode(c) + EncodeAll("") == Encode(c);
  }

  lemma DecodeEnd(enc: Encoding, input: seq<Byte>)
    ensures Decode(enc, input, |input|) == Decoded("", None)
  {
  }

  lemma NulAppended(decoded: string, nuls: nat, unread: nat, pads: nat)
    requires unread <= |decoded| + nuls
    ensures var before, after := (decoded + Nuls(nuls))[|decoded| + nuls - unread..],
                                 (decoded + Nuls(nuls + 1))[|decoded| + nuls + 1 - (unread + 1)..];
      EncodeAll(after) + Zeros(pads) == (EncodeAll(before) + Zeros(pads)) + [0]
  {
    var before := (decoded + Nuls(nuls))[|decoded| + nuls - unread..];
    var after := (decoded + Nuls(nuls + 1))[|decoded| + nuls - unread..];
    assert Nuls(nuls + 1) == Nuls(nuls) + "\0";
    assert after == before + "\0";
    EncodeAllConcat(before, "\0");
    assert EncodeAll("\0") == Encode('\0') + EncodeAll("") == [0];
    assert [0] + Zeros(pads) == Zeros(pads) + [0];
    assert (EncodeAll(before) + [0]) + Zeros(pads) == EncodeAll(before) + ([0] + Zeros(pads));
  }

  lemma NothingLeft()
    ensures Concat([]) == []
  {
  }

  /** The value of the first `k` octets of a UTF-8 sequence. */
  function Accumulated(bs: seq<int>, k: nat): int
    requires 1 <= k <= |bs| <= 4
  {
    if k == 1 then bs[0] - (if |bs| == 1 then 0 else if |bs| == 2 then 0xC0 else if |bs| == 3 then 0xE0 else 0xF0)
    else Accumulated(bs, k - 1) * 0x40 + (bs[k - 1] - 0x80)
  }

  lemma AccumulatedAll(bs: seq<int>)
    requires 1 <= |bs| <= 4
    ensures Accumulated(bs, |bs|) == Assemble(bs)
  {
    if |bs| >= 2 { assert Accumulated(bs, 2) == Accumulated(bs, 1) * 0x40 + (bs[1] - 0x80); }
    if |bs| >= 3 { assert Accumulated(bs, 3) == Accumulated(bs, 2) * 0x40 + (bs[2] - 0x80); }
  }

  lemma PrefixOf(input: seq<Byte>, p: nat, a: seq<Byte>, b: seq<Byte>, rest: seq<Byte>)
    requires p + |a| <= |input| && input[p..p + |a|] == a && input[p + |a|..] == b + rest
    ensures p + |a| + |b| <= |input| && input[p..p + |a| + |b|] == a + b && input[p + |a| + |b|..] == rest
  {
    assert input[p + |a|..][..|b|] == b && input[p + |a|..][|b|..] == rest;
    assert input[p..p + |a| + |b|] == input[p..p + |a|] + input[p + |a|..p + |a| + |b|];
  }
}
