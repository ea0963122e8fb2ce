/** Fixed-width integer types, return codes of the ODBC driver, and
    NUL-terminated character buffers, shared by every part of the model. */
module Units {

  type Uint8 = x: int | 0 <= x < 0x100
  type Int16 = x: int | -0x8000 <= x < 0x8000
  type Uint16 = x: int | 0 <= x < 0x1_0000
  type Uint32 = x: int | 0 <= x < 0x1_0000_0000

  lemma Associative<T>(a: seq<T>, b: seq<T>, c: seq<T>)
    ensures (a + b) + c == a + (b + c)
  {
  }

  /** The terminator of a C string. */
  const NUL: char := '\0'

  datatype Option<T> = None | Some(value: T)

  /** What an ODBC call returns; only SQL_SUCCESS and SQL_SUCCESS_WITH_INFO
      are told apart by the wrapper, the rest are kept for readability. */
  datatype ReturnCode =
    | Success          // SQL_SUCCESS
    | SuccessWithInfo  // SQL_SUCCESS_WITH_INFO
    | NoData           // SQL_NO_DATA
    | Error            // SQL_ERROR
    | InvalidHandle    // SQL_INVALID_HANDLE
    | StillExecuting   // SQL_STILL_EXECUTING
    | NeedData         // SQL_NEED_DATA

  /** `++x` on an unsigned 16-bit integer. */
  function Increment16(x: Uint16): (r: Uint16)
    ensures x < 0xFFFF ==> r == x + 1
    ensures x == 0xFFFF ==> r == 0
  {
    (x + 1) % 0x1_0000
  }

  /** Index of the first NUL: where `endof` stops scanning. */
  function NulIndex(s: seq<char>): (k: nat)
    requires NUL in s
    ensures k < |s| && s[k] == NUL
    ensures forall j :: 0 <= j < k ==> s[j] != NUL
  {
    if s[0] == NUL then 0 else 1 + NulIndex(s[1..])
  }

  /** The C string stored in a buffer: every unit before the first NUL. */
  function CString(s: seq<char>): (r: seq<char>)
    requires NUL in s
    ensures NUL !in r && |r| < |s|
    ensures r <= s && s[|r|] == NUL
  {
    s[..NulIndex(s)]
  }

  /** A `const T*` argument: a null pointer, or a buffer holding a C string. */
  predicate IsCString(p: Option<seq<char>>) {
    p.Some? ==> NUL in p.value
  }

  /** The text a `const T*` argument denotes. `endof` hands a null pointer
      back unchanged, so the range it spans is empty. */
  function PointedText(p: Option<seq<char>>): (r: seq<char>)
    requires IsCString(p)
    ensures NUL !in r
    ensures p.None? ==> r == []
    ensures p.Some? ==> r <= p.value && p.value[|r|] == NUL
  {
    if p.None? then [] else CString(p.value)
  }

  /** The first NUL is the only index with a NUL before which there is none. */
  lemma NulIndexAt(s: seq<char>, k: nat)
    requires k < |s| && s[k] == NUL
    requires forall j :: 0 <= j < k ==> s[j] != NUL
    ensures NUL in s && NulIndex(s) == k && CString(s) == s[..k]
  {
  }

  /** A terminated text reads back as itself, whatever follows the terminator. */
  lemma CStringOfTerminated(t: seq<char>, rest: seq<char>)
    requires NUL !in t
    ensures NUL in t + [NUL] + rest
    ensures CString(t + [NUL] + rest) == t
  {
    var s := t + [NUL] + rest;
    assert forall j :: 0 <= j < |t| ==> s[j] == t[j];
    NulIndexAt(s, |t|);
  }

  /** Whatever follows the first NUL is invisible to a C-string reader. */
  lemma CStringOfPrefix(a: seq<char>, rest: seq<char>)
    requires NUL in a
    ensures NUL in a + rest
    ensures CString(a + rest) == CString(a)
  {
    var s := a + rest;
    var k := NulIndex(a);
    assert forall j :: 0 <= j <= k ==> s[j] == a[j];
    NulIndexAt(s, k);
  }

  /** Text without a NUL is read through to the C string that follows it. */
  lemma CStringThrough(a: seq<char>, b: seq<char>)
    requires NUL !in a && NUL in b
    ensures NUL in a + b
    ensures CString(a + b) == a + CString(b)
  {
    var s := a + b;
    var k := NulIndex(b);
    assert forall j :: 0 <= j < |a| ==> s[j] == a[j];
    assert forall j :: |a| <= j <= |a| + k ==> s[j] == b[j - |a|];
    NulIndexAt(s, |a| + k);
    assert s[..|a| + k] == a + b[..k];
  }

  /** Reading a buffer as a C string: everything after the first NUL is
      ignored, so text placed after the terminator cannot be seen. */
  lemma CStringOfConcat(a: seq<char>, b: seq<char>)
    requires NUL in b
    ensures NUL in a + b
    ensures CString(a + b) == if NUL in a then CString(a) else a + CString(b)
  {
    if NUL in a {
      CStringOfPrefix(a, b);
    } else {
      CStringThrough(a, b);
    }
  }

  /** A C string read one unit at a time from the front. */
  lemma CStringCons(s: seq<char>)
    requires NUL in s
    ensures s[0] == NUL ==> CString(s) == []
    ensures s[0] != NUL ==> NUL in s[1..] && CString(s) == [s[0]] + CString(s[1..])
  {
    if s[0] != NUL {
      assert s == [s[0]] + s[1..];
      CStringThrough([s[0]], s[1..]);
    }
  }
}
