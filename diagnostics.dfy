/** `Diagnostic` of code/Diagnostic.cpp and sql/Diagnostic.cpp: the first
    diagnostic record of a handle, a status and a message of at most
    `MessageLength - 1` units in a fixed buffer. */
module Diagnostics {

  import opened Units
  import opened Statuses

  const MessageLength: nat := 128

  /** What `SQLGetDiagRec` left behind: its return code, the five units in
      the local status buffer, all the units of the message buffer, and the
      length it reported. The driver is not part of the model. */
  datatype Record = Record(result: ReturnCode, state: seq<char>, message: seq<char>, length: Int16)

  /** The reported length, clamped so that the terminator fits. The
      `int16` is compared with the `unsigned int` `MessageLength - 1`, so a
      negative length converts to a value above 127 and is clamped too. */
  function Clamp(length: Int16): (n: nat)
    ensures n <= MessageLength - 1
    ensures 0 <= length <= MessageLength - 1 ==> n == length
    ensures length < 0 || length > MessageLength - 1 ==> n == MessageLength - 1
  {
    if length < 0 || length > MessageLength - 1 then MessageLength - 1 else length
  }

  /** The status code the constructor stores: none when there was no
      record, otherwise the five units the driver wrote. */
  function StateOf(record: Record): (r: string)
    requires |record.state| >= 5
    ensures |r| <= 5 && NUL !in r
    ensures record.result == NoData ==> r == []
  {
    if record.result == NoData then [] else CString(record.state[..5] + [NUL])
  }

  class Diagnostic {

    /** `myStatus`. */
    const status: Status
    /** `myMessage[MessageLength]`. */
    const message: array<char>

    ghost predicate Valid()
      reads this, status, status.value, message
    {
      status.Valid() && message.Length == MessageLength && NUL in message[..]
    }

    /** `what()`: the message as a C string. */
    function What(): (r: string)
      reads this, message
      requires NUL in message[..]
      ensures |r| < message.Length && NUL !in r
    {
      CString(message[..])
    }

    /** `Diagnostic(const Handle&)`, with the driver's answer as input: the
        status buffer gets a terminator at index 5 first, is zeroed on
        `SQL_NO_DATA`, and the message is cut at the clamped length. */
    constructor FromRecord(record: Record)
      requires |record.state| >= 5 && |record.message| == MessageLength
      ensures Valid() && fresh(status) && fresh(status.value) && fresh(message)
      ensures status.Raw() == StateOf(record)
      ensures message[..] == record.message[..Clamp(record.length)] + [NUL] + record.message[Clamp(record.length) + 1..]
      ensures What() == CString(record.message[..Clamp(record.length)] + [NUL])
    {
      var local := StatusBuffer(record);
      var length: nat := Clamp(record.length);
      var s := new Status();
      s.SetRaw(local[..]);
      assert local[..][..5] == local[..5];
      var m := MessageBuffer(record.message, length);
      status, message := s, m;
    }

    /** The copy constructor: the status and all 128 message units. */
    constructor Copy(other: Diagnostic)
      requires other.Valid()
      ensures Valid() && fresh(status) && fresh(status.value) && fresh(message)
      ensures status.value[..] == other.status.value[..] && message[..] == other.message[..]
      ensures Text() == other.Text()
    {
      var s := new Status.Copy(other.status);
      var m := new char[MessageLength];
      CopyMessage(other.message[..], m);
      status, message := s, m;
    }

    /** `operator=`: the status, then all 128 message units. */
    method Assign(other: Diagnostic)
      requires Valid() && other.Valid()
      modifies status.value, message
      ensures Valid()
      ensures status.value[..] == old(other.status.value[..]) && message[..] == old(other.message[..])
      ensures Text() == old(other.Text())
    {
      var units := other.message[..];
      status.Assign(other.status);
      CopyMessage(units, message);
    }

    /** `operator<<`: the status, a colon and a space, then the message. */
    function Text(): (r: string)
      reads this, status, status.value, message
      requires Valid()
      ensures |r| == |status.Raw()| + 2 + |What()|
      ensures r[..|status.Raw()|] == status.Raw() && r[|status.Raw()|..|status.Raw()| + 2] == ": "
      ensures r[|status.Raw()| + 2..] == What()
    {
      status.Raw() + ": " + What()
    }
  }

  /** The `memcpy` of the whole message buffer. */
  method CopyMessage(units: seq<char>, m: array<char>)
    requires |units| == m.Length
    modifies m
    ensures m[..] == units
  {
    for i := 0 to m.Length
      invariant forall k :: 0 <= k < i ==> m[k] == units[k]
    {
      m[i] := units[i];
    }
  }

  /** The local `status[6]`: a terminator at index 5, the driver's five
      units, then zeros on `SQL_NO_DATA`. */
  method StatusBuffer(record: Record) returns (local: array<char>)
    requires |record.state| >= 5
    ensures fresh(local) && local.Length == 6 && local[5] == NUL
    ensures CString(local[..5] + [NUL]) == StateOf(record)
  {
    local := new char[6];
    local[5] := NUL;
    for i := 0 to 5
      invariant local[5] == NUL
      invariant forall k :: 0 <= k < i ==> local[k] == record.state[k]
    {
      local[i] := record.state[i];
    }
    assert local[..5] == record.state[..5];
    if record.result == NoData {
      for i := 0 to 5
        invariant local[5] == NUL
        invariant forall k :: 0 <= k < i ==> local[k] == NUL
      {
        local[i] := NUL;
      }
      NulIndexAt(local[..5] + [NUL], 0);
    }
  }

  /** `myMessage` as the driver left it, with the terminator written at
      the clamped length. */
  method MessageBuffer(units: seq<char>, length: nat) returns (m: array<char>)
    requires |units| == MessageLength && length < MessageLength
    ensures fresh(m) && m[..] == units[..length] + [NUL] + units[length + 1..]
    ensures NUL in m[..] && CString(m[..]) == CString(units[..length] + [NUL])
  {
    m := new char[MessageLength](i requires 0 <= i < MessageLength => units[i]);
    m[length] := NUL;
    assert m[..] == units[..length] + [NUL] + units[length + 1..];
    CStringOfPrefix(units[..length] + [NUL], units[length + 1..]);
  }
}
