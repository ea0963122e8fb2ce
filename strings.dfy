/** `basic_string<Char>` of code/string.hpp: a heap buffer of `capacity + 1`
    character units whose text runs up to the first NUL. The class owns the
    buffer; every operation keeps a NUL in the last unit, so the text is at
    most `capacity` units long. Narrow and wide strings differ only in the
    unit type, which the model does not distinguish. */
module Strings {

  import opened Units

  /** The scan of `endof`: the offset of the terminator of a C string from
      its start. A null pointer is returned as it is, an offset of 0. */
  method EndOf(p: Option<seq<char>>) returns (k: nat)
    requires IsCString(p)
    ensures k == |PointedText(p)|
    ensures p.Some? ==> k == NulIndex(p.value)
  {
    k := 0;
    if p.None? {
      return;
    }
    var s := p.value;
    while s[k] != NUL
      invariant k <= NulIndex(s)
      decreases NulIndex(s) - k
    {
      k := k + 1;
    }
  }

  /** The units from a pointer up to `endof` of it: the range the C-string
      operations copy. */
  method Span(p: Option<seq<char>>) returns (text: seq<char>)
    requires IsCString(p)
    ensures text == PointedText(p)
  {
    var k := EndOf(p);
    text := if p.Some? then p.value[..k] else [];
  }

  /** `std::copy` of a range into a buffer at offset `at`: the units of the
      range replace exactly `|s|` units of the buffer. */
  method CopySeq(s: seq<char>, dst: array<char>, at: nat)
    requires at + |s| <= dst.Length
    modifies dst
    ensures dst[..] == old(dst[..at]) + s + old(dst[at + |s|..])
  {
    var i := 0;
    while i < |s|
      invariant 0 <= i <= |s|
      invariant forall k :: 0 <= k < at ==> dst[k] == old(dst[k])
      invariant forall k :: 0 <= k < i ==> dst[at + k] == s[k]
      invariant forall k :: at + i <= k < dst.Length ==> dst[k] == old(dst[k])
    {
      dst[at + i] := s[i];
      i := i + 1;
    }
    assert dst[..] == old(dst[..at]) + s + old(dst[at + |s|..]) by {
      var r := old(dst[..at]) + s + old(dst[at + |s|..]);
      assert |r| == dst.Length;
      forall k | 0 <= k < dst.Length ensures dst[k] == r[k] {
        if k < at {
        } else if k < at + |s| {
          assert dst[at + (k - at)] == s[k - at];
        }
      }
    }
  }

  /** The allocation of the capacity constructor: `capacity + 1` units with
      a NUL at the front and at the end; the units between are unspecified. */
  method NewBuffer(capacity: nat) returns (buffer: array<char>)
    ensures fresh(buffer) && buffer.Length == capacity + 1
    ensures buffer[0] == NUL && buffer[capacity] == NUL
  {
    buffer := new char[capacity + 1];
    buffer[capacity] := NUL;
    buffer[0] := NUL;
  }

  /** A copy of `text` into a buffer, then a terminator after it: the
      buffer now reads as the C string of `text`, and the units after the
      terminator are as they were. */
  method PlaceText(text: seq<char>, buffer: array<char>)
    requires |text| < buffer.Length
    modifies buffer
    ensures NUL in buffer[..] && CString(buffer[..]) == CString(text + [NUL])
    ensures NUL !in text ==> CString(buffer[..]) == text
    ensures buffer[|text|] == NUL
    ensures forall k :: |text| < k < buffer.Length ==> buffer[k] == old(buffer[k])
  {
    ghost var rest := buffer[|text|..];
    CopySeq(text, buffer, 0);
    ghost var copied := buffer[..];
    assert copied == text + rest;
    buffer[|text|] := NUL;
    forall k | |text| < k < buffer.Length
      ensures buffer[k] == old(buffer[k])
    {
      assert buffer[k] == copied[k] == rest[k - |text|];
    }
    assert buffer[..|text|] == text by {
      assert forall k :: 0 <= k < |text| ==> buffer[k] == copied[k];
    }
    Terminated(text, buffer[..]);
  }

  class BasicString {

    var capacity: nat
    var data: array<char>

    /** The buffer holds `capacity + 1` units and the last one is a NUL. */
    ghost predicate Valid()
      reads this, data
    {
      data.Length == capacity + 1 && data[capacity] == NUL
    }

    /** The text the buffer holds: every unit before the first NUL. */
    ghost function Contents(): (r: string)
      reads this, data
      requires Valid()
      ensures |r| <= capacity
    {
      assert data[..][capacity] == NUL;
      CString(data[..])
    }

    /** `basic_string(size_type capacity)`: an empty text in a buffer of
        exactly that capacity. */
    constructor WithCapacity(n: nat)
      ensures Valid() && capacity == n && Contents() == []
      ensures data[0] == NUL && fresh(data)
    {
      var buffer := NewBuffer(n);
      capacity, data := n, buffer;
      new;
      NulIndexAt(data[..], 0);
    }

    /** `basic_string(const char *)` and `basic_string(const sql_char *)`:
        a copy of the C string in a buffer exactly as large as its text. */
    constructor FromCString(value: Option<seq<char>>)
      requires IsCString(value)
      ensures Valid() && capacity == |PointedText(value)| && Contents() == PointedText(value)
      ensures value.None? ==> capacity == 0 && Contents() == []
      ensures fresh(data)
    {
      var text := Span(value);
      var buffer := NewBuffer(|text|);
      PlaceText(text, buffer);
      capacity, data := |text|, buffer;
    }

    /** The copy constructor: the other string's text, in a buffer of the
        other string's capacity. */
    constructor Copy(other: BasicString)
      requires other.Valid()
      ensures Valid() && capacity == other.capacity && Contents() == other.Contents()
      ensures fresh(data)
    {
      var n := other.Length();
      var text := other.data[..n];
      var buffer := NewBuffer(other.capacity);
      PlaceText(text, buffer);
      capacity, data := other.capacity, buffer;
    }

    /** The constructors from `std::basic_string`: a buffer of the standard
        string's capacity receiving all of its units, embedded NULs included,
        so the text stops at the first of them. */
    constructor FromStdString(text: seq<char>, stdCapacity: nat)
      requires |text| <= stdCapacity
      ensures Valid() && capacity == stdCapacity && Contents() == CString(text + [NUL])
      ensures fresh(data)
    {
      var buffer := NewBuffer(stdCapacity);
      PlaceText(text, buffer);
      capacity, data := stdCapacity, buffer;
    }

    /** `length()` and `size()`: the distance from the start to the NUL
        found by `endof`. */
    method Length() returns (n: nat)
      requires Valid()
      ensures n == |Contents()| && n <= capacity
      ensures data[n] == NUL && Contents() == data[..n]
    {
      assert data[..][capacity] == NUL;
      n := EndOf(Some(data[..]));
    }

    /** `clear()`: the text becomes empty; buffer and capacity stay. */
    method Clear()
      requires Valid()
      modifies data
      ensures Valid() && Contents() == []
    {
      data[0] := NUL;
      NulIndexAt(data[..], 0);
    }

    /** `reserve(minimum)`: a larger request moves the text into a fresh
        buffer of exactly that capacity; a smaller one changes nothing. */
    method Reserve(minimum: nat)
      requires Valid()
      modifies this
      ensures Valid() && Contents() == old(Contents())
      ensures minimum > old(capacity) ==> capacity == minimum && fresh(data)
      ensures minimum <= old(capacity) ==> capacity == old(capacity) && data == old(data)
    {
      if minimum > capacity {
        var n := Length();
        var text := data[..n];
        var buffer := NewBuffer(minimum);
        PlaceText(text, buffer);
        capacity, data := minimum, buffer;
      }
    }

    /** `swap(other)`: the two strings exchange buffers and capacities. */
    method Swap(other: BasicString)
      requires Valid() && other.Valid()
      modifies this, other
      ensures data == old(other.data) && capacity == old(other.capacity)
      ensures other.data == old(data) && other.capacity == old(capacity)
      ensures Valid() && other.Valid()
      ensures Contents() == old(other.Contents()) && other.Contents() == old(Contents())
    {
      var d, c := data, capacity;
      data, capacity := other.data, other.capacity;
      other.data, other.capacity := d, c;
    }

    /** `*std::copy(first, last, position) = 0`: the units of the range
        from `at` on, then a terminator, within the buffer. */
    method WriteTerminated(at: nat, text: seq<char>)
      requires Valid() && at + |text| <= capacity
      modifies data
      ensures Valid()
      ensures data[..] == old(data[..at]) + text + [NUL] + old(data[at + |text| + 1..])
    {
      CopySeq(text, data, at);
      data[at + |text|] := NUL;
    }

    /** `append(begin, end)`: the range is written after the text and
        terminated; a NUL inside the range cuts the text short there. */
    method Append(range: seq<char>)
      requires Valid()
      modifies this, data
      ensures data == old(data) || fresh(data)
      ensures Valid()
      ensures Contents() == CString(old(Contents()) + range + [NUL])
      ensures NUL !in range ==> Contents() == old(Contents()) + range
      ensures old(capacity) >= |old(Contents())| + |range| ==> capacity == old(capacity)
      ensures old(capacity) < |old(Contents())| + |range| ==> capacity == |old(Contents())| + |range|
    {
      ghost var before := Contents();
      var n := Length();
      Reserve(n + |range|);
      var end := Length();
      WriteTerminated(end, range);
      Terminated(before + range, data[..]);
    }

    /** `assign(begin, end)`: the range is written from the start and
        terminated. */
    method Assign(range: seq<char>)
      requires Valid()
      modifies this, data
      ensures data == old(data) || fresh(data)
      ensures Valid()
      ensures Contents() == CString(range + [NUL])
      ensures NUL !in range ==> Contents() == range
      ensures capacity == if |range| > old(capacity) then |range| else old(capacity)
    {
      Reserve(|range|);
      WriteTerminated(0, range);
      Terminated(range, data[..]);
    }

    /** `operator=(const basic_string&)`: copy, then swap with the copy. The
        other string is left as it was, even when it is this one. */
    method AssignString(other: BasicString)
      requires Valid() && other.Valid()
      modifies this
      ensures Valid() && Contents() == old(other.Contents()) && capacity == old(other.capacity)
      ensures fresh(data)
    {
      var copy := new BasicString.Copy(other);
      Swap(copy);
    }

    /** `operator+=(const basic_string&)`: the suffix's text after this
        text; appending a string to itself doubles it. */
    method AppendString(suffix: BasicString)
      requires Valid() && suffix.Valid()
      modifies this, data
      ensures data == old(data) || fresh(data)
      ensures Valid() && Contents() == old(Contents()) + old(suffix.Contents())
      ensures capacity >= |old(Contents())| + |old(suffix.Contents())|
    {
      var m := suffix.Length();
      Append(suffix.data[..m]);
    }

    /** `operator+=(const char_type *)`: the C string's text after this text. */
    method AppendCString(suffix: Option<seq<char>>)
      requires Valid() && IsCString(suffix)
      modifies this, data
      ensures data == old(data) || fresh(data)
      ensures Valid() && Contents() == old(Contents()) + PointedText(suffix)
      ensures suffix.None? ==> Contents() == old(Contents())
      ensures capacity >= |old(Contents())| + |PointedText(suffix)|
    {
      var text := Span(suffix);
      Append(text);
    }

    /** `operator=(const char *)` and `operator=(const sql_char_type *)` as
        written: the buffer is grown to the C string's length only, and the
        copy starts at `end()`, so the C string lands after the old text.
        The writes stay inside the buffer only under the precondition;
        without it they run past the end. */
    method AssignCStringAsWritten(value: Option<seq<char>>)
      requires Valid() && IsCString(value)
      requires AssignAsWrittenInBounds(|Contents()|, capacity, |PointedText(value)|)
      modifies this, data
      ensures data == old(data) || fresh(data)
      ensures Valid() && Contents() == old(Contents()) + PointedText(value)
      ensures capacity == if |PointedText(value)| > old(capacity) then |PointedText(value)| else old(capacity)
    {
      ghost var before := Contents();
      var text := Span(value);
      Reserve(|text|);
      var end := Length();
      WriteTerminated(end, text);
      Terminated(before + text, data[..]);
    }

    /** The assignment those operators document: the text is replaced by
        the C string's text, as `assign` does. */
    method AssignCString(value: Option<seq<char>>)
      requires Valid() && IsCString(value)
      modifies this, data
      ensures data == old(data) || fresh(data)
      ensures Valid() && Contents() == PointedText(value)
      ensures value.None? ==> Contents() == []
      ensures capacity >= |PointedText(value)|
    {
      var text := Span(value);
      Assign(text);
    }
  }

  /** The as-written C-string assignment reserves `|value|` units and then
      writes `|value| + 1` units starting at the old length. */
  predicate AssignAsWrittenInBounds(length: nat, capacity: nat, valueLength: nat) {
    length + valueLength <= if valueLength > capacity then valueLength else capacity
  }

  /** A buffer that starts with `t` and a NUL holds the C string `CString(t + [NUL])`. */
  lemma Terminated(t: seq<char>, buffer: seq<char>)
    requires |t| < |buffer| && buffer[..|t|] == t && buffer[|t|] == NUL
    ensures NUL in buffer && CString(buffer) == CString(t + [NUL])
    ensures NUL !in t ==> CString(buffer) == t
  {
    assert buffer == (t + [NUL]) + buffer[|t| + 1..];
    CStringOfPrefix(t + [NUL], buffer[|t| + 1..]);
    if NUL !in t {
      CStringOfTerminated(t, []);
    }
  }

  /** Assigning "cd" to a string holding "ab" in a buffer of capacity 4
      leaves "abcd": the operator appends instead of replacing. */
  method AssignAsWrittenAppends() returns (s: BasicString)
    ensures s.Valid() && s.capacity == 4
    ensures s.Contents() == "abcd" && s.Contents() != "cd"
  {
    var ab, cd := "ab" + [NUL], "cd" + [NUL];
    CStringOfTerminated("ab", []);
    CStringOfTerminated("cd", []);
    assert ab == "ab" + [NUL] + [] && cd == "cd" + [NUL] + [];
    s := new BasicString.FromCString(Some(ab));
    s.Reserve(4);
    s.AssignCStringAsWritten(Some(cd));
  }

  /** In a buffer of capacity 2 holding "ab", assigning "cd" reserves
      nothing and writes three units from index 2: past the end. */
  lemma AssignAsWrittenOverruns()
    ensures !AssignAsWrittenInBounds(|"ab"|, 2, |"cd"|)
  {
  }
}
