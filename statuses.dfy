/** `Status` of code/Status.cpp: a five-unit SQLSTATE code in a buffer of
    six units whose last unit is always a NUL. */
module Statuses {

  import opened Units

  /** `strcmp(a, b) == 0`: the two C strings agree unit by unit up to and
      including the first terminator. */
  function StrEqual(a: seq<char>, b: seq<char>): (r: bool)
    requires NUL in a && NUL in b
    ensures r <==> CString(a) == CString(b)
    decreases |a|
  {
    CStringCons(a);
    CStringCons(b);
    if a[0] != b[0] then
      assert a[0] != NUL && b[0] != NUL ==> CString(a)[0] != CString(b)[0];
      false
    else if a[0] == NUL then true
    else
      assert CString(a) == CString(b) ==> CString(a)[1..] == CString(b)[1..];
      StrEqual(a[1..], b[1..])
  }

  class Status {

    /** `myValue[6]`. */
    const value: array<char>

    ghost predicate Valid()
      reads this, value
    {
      value.Length == 6 && value[5] == NUL
    }

    /** `raw()`: the code as a C string, at most five units. */
    function Raw(): (r: string)
      reads this, value
      requires Valid()
      ensures |r| <= 5 && NUL !in r
    {
      assert value[..][5] == NUL;
      CString(value[..])
    }

    /** `Status()`: six NULs, the empty code. */
    constructor ()
      ensures Valid() && fresh(value)
      ensures value[..] == seq(6, _ => NUL) && Raw() == []
    {
      value := new char[6](_ => NUL);
      new;
      NulIndexAt(value[..], 0);
    }

    /** `Status(const character*)`: the first five units of the code,
        then a terminator. */
    constructor OfCode(code: seq<char>)
      requires |code| >= 5
      ensures Valid() && fresh(value)
      ensures value[..] == code[..5] + [NUL] && Raw() == CString(code[..5] + [NUL])
    {
      value := new char[6];
      new;
      SetRaw(code);
    }

    /** The implicit copy constructor. */
    constructor Copy(other: Status)
      requires other.Valid()
      ensures Valid() && fresh(value)
      ensures value[..] == other.value[..] && Raw() == other.Raw()
    {
      value := new char[6];
      new;
      CopyUnits(other.value[..]);
    }

    /** `raw(const character*)`: copies exactly five units and forces the
        terminator; at least five units must be readable. */
    method SetRaw(code: seq<char>)
      requires value.Length == 6 && |code| >= 5
      modifies value
      ensures Valid() && value[..] == code[..5] + [NUL]
      ensures Raw() == CString(code[..5] + [NUL])
    {
      for i := 0 to 5
        invariant forall k :: 0 <= k < i ==> value[k] == code[k]
      {
        value[i] := code[i];
      }
      value[5] := NUL;
      assert value[..] == code[..5] + [NUL];
    }

    /** The implicit copy assignment: all six units. */
    method Assign(other: Status)
      requires Valid() && other.Valid()
      modifies value
      ensures Valid() && value[..] == old(other.value[..]) && Raw() == old(other.Raw())
    {
      CopyUnits(other.value[..]);
    }

    method CopyUnits(units: seq<char>)
      requires value.Length == 6 && |units| == 6 && units[5] == NUL
      modifies value
      ensures Valid() && value[..] == units
    {
      for i := 0 to 6
        invariant forall k :: 0 <= k < i ==> value[k] == units[k]
      {
        value[i] := units[i];
      }
    }

    /** `operator==`: `strcmp(lhs.raw(), rhs.raw()) == 0`. */
    function Equals(other: Status): (r: bool)
      reads this, value, other, other.value
      requires Valid() && other.Valid()
      ensures r <==> Raw() == other.Raw()
    {
      StrEqual(value[..], other.value[..])
    }

    /** `operator!=`: `strcmp(...) != 0`, the exact negation. */
    function Differs(other: Status): (r: bool)
      reads this, value, other, other.value
      requires Valid() && other.Valid()
      ensures r <==> !Equals(other)
      ensures r <==> Raw() != other.Raw()
    {
      !StrEqual(value[..], other.value[..])
    }
  }

  /** `Status::none()`: the default status. */
  method None() returns (s: Status)
    ensures fresh(s) && fresh(s.value) && s.Valid() && s.Raw() == []
  {
    s := new Status();
  }

  /** `Status::connection_rejected()`: SQLSTATE 08004. */
  method ConnectionRejected() returns (s: Status)
    ensures fresh(s) && fresh(s.value) && s.Valid() && s.Raw() == "08004"
  {
    s := new Status.OfCode("08004");
    CStringOfTerminated("08004", []);
    assert "08004"[..5] + [NUL] == "08004" + [NUL] + [];
  }
}
