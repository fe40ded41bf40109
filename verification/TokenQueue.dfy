/** The token queue (apic.go, `yaml_insert_token`): a slice with a moving head, compacted when it is
    full, into which tokens may be inserted behind others. */
module TokenQueue {
  /** A negative position appends. */
  function InsertAt<T>(s: seq<T>, pos: int, t: T): (r: seq<T>)
    requires pos <= |s|
    ensures |r| == |s| + 1
  {
    if pos < 0 then s + [t] else s[..pos] + [t] + s[pos..]
  }

  /** Nothing is lost and nothing changes places: taking the new token out again gives the old queue. */
  lemma InsertKeepsOrder<T>(s: seq<T>, pos: int, t: T)
    requires pos <= |s|
    ensures var p, r := if pos < 0 then |s| else pos, InsertAt(s, pos, t);
      r[p] == t && r[..p] + r[p + 1..] == s
  {
    var p, r := if pos < 0 then |s| else pos, InsertAt(s, pos, t);
    assert r[..p] == s[..p] && r[p + 1..] == s[p..];
  }

  lemma InsertedAt<T>(s: seq<T>, pos: nat, t: T, appended: seq<T>, r: seq<T>)
    requires pos <= |s| && appended == s + [t] && r == appended[..pos] + [t] + appended[pos..|appended| - 1]
    ensures r == InsertAt(s, pos, t)
  {
    assert appended[..pos] == s[..pos] && appended[pos..|appended| - 1] == s[pos..];
  }

  class TokenQueue<T> {
    var buffer: array<T>
    var head: nat
    var len: nat

    ghost predicate Valid()
      reads this
    {
      head <= len <= buffer.Length
    }

    ghost function Contents(): (s: seq<T>)
      requires Valid()
      reads this, buffer
    {
      buffer[head..len]
    }

    constructor (capacity: nat, filler: T)
      ensures Valid() && fresh(buffer) && Contents() == []
    {
      buffer := new T[capacity](_ => filler);
      head, len := 0, 0;
    }

    /** Go's `copy(tokens, tokens[head:])`, when the slice has reached its capacity. */
    method Compact()
      requires Valid() && head > 0
      modifies this`head, this`len, buffer
      ensures Valid() && head == 0 && buffer == old(buffer) && len == old(len - head)
      ensures Contents() == old(Contents())
    {
      var i := 0;
      while i < len - head
        invariant Valid() && head == old(head) && len == old(len) && buffer == old(buffer)
        invariant 0 <= i <= len - head
        invariant buffer[..i] == old(buffer[head..head + i])
        invariant forall k :: head + i <= k < buffer.Length ==> buffer[k] == old(buffer[k])
      {
        buffer[i] := buffer[head + i];
        i := i + 1;
      }
      head, len := 0, len - head;
    }

    /** Go's `append`. */
    method Append(t: T)
      requires Valid()
      modifies this`buffer, this`len, buffer
      ensures Valid() && head == old(head) && (buffer == old(buffer) || fresh(buffer))
      ensures len == old(len) + 1 && Contents() == old(Contents()) + [t]
    {
      if len == buffer.Length {
        var old_ := buffer;
        var n := len;
        buffer := new T[2 * len + 1](i requires 0 <= i reads old_ => if i < n <= old_.Length then old_[i] else t);
        assert buffer[head..len] == old(buffer[head..len]);
      }
      buffer[len] := t;
      len := len + 1;
    }

    method Insert(pos: int, t: T)
      requires Valid() && pos <= |Contents()|
      modifies this, buffer
      ensures Valid() && (buffer == old(buffer) || fresh(buffer))
      ensures Contents() == InsertAt(old(Contents()), pos, t)
    {
      if head > 0 && len == buffer.Length { Compact(); }
      Append(t);
      if pos < 0 { return; }
      ghost var before := Contents();
      Shift(head + pos, t);
      InsertedAt(old(Contents()), pos, t, before, Contents());
    }

    /** Go's `copy(tokens[at+1:], tokens[at:])`, backwards since the two overlap. */
    method ShiftUp(at: nat)
      requires Valid() && head <= at < len
      modifies buffer
      ensures buffer[..at] == old(buffer[..at])
      ensures buffer[at + 1..len] == old(buffer[at..len - 1])
    {
      var i := len - 1;
      while at < i
        invariant at <= i < len
        invariant forall k :: 0 <= k <= i ==> buffer[k] == old(buffer[k])
        invariant forall k :: i < k < len ==> buffer[k] == old(buffer[k - 1])
      {
        buffer[i] := buffer[i - 1];
        i := i - 1;
      }
    }

    method Shift(at: nat, t: T)
      requires Valid() && head <= at < len
      modifies buffer
      ensures Valid()
      ensures Contents() == old(Contents())[..at - head] + [t] + old(Contents())[at - head..|old(Contents())| - 1]
    {
      ghost var was := buffer[..];
      assert was[head..at] == was[head..len][..at - head];
      assert was[at..len - 1] == was[head..len][at - head..len - 1 - head];
      ShiftUp(at);
      buffer[at] := t;
      assert buffer[head..at] == buffer[..at][head..] == was[..at][head..] == was[head..at];
      assert buffer[head..len] == buffer[head..at] + [buffer[at]] + buffer[at + 1..len];
    }

    /** `skip_token`. */
    method Take() returns (t: T)
      requires Valid() && |Contents()| > 0
      modifies this`head
      ensures Valid() && [t] + Contents() == old(Contents())
    {
      t := buffer[head];
      head := head + 1;
    }
  }
}
