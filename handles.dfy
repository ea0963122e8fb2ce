/** `Handle` of sql/Handle.cpp: an ODBC handle value with its type code,
    released at most once. `SQLFreeHandle` belongs to the driver; the model
    returns the call `free` would make instead of making it. */
module Handles {

  import opened Units

  /** SQL_HANDLE_ENV, SQL_HANDLE_DBC, SQL_HANDLE_STMT, SQL_HANDLE_DESC. */
  datatype HandleType = Env | Dbc | Stmt | Desc

  /** SQL_NULL_HANDLE. */
  const NullHandle: nat := 0

  /** A call `SQLFreeHandle(type, value)`. */
  datatype Release = Release(htype: HandleType, value: nat)

  /** The two fields of a handle. */
  datatype HandleState = HandleState(value: nat, htype: HandleType)

  /** One `free()`: an ok handle is released and reset to the null
      environment handle; a bad one is left alone and nothing is released. */
  function FreeStep(h: HandleState): (r: (HandleState, Option<Release>))
    ensures h.value != NullHandle ==>
      r.1 == Some(Release(h.htype, h.value)) && r.0 == HandleState(NullHandle, Env)
    ensures h.value == NullHandle ==> r == (h, None)
  {
    if h.value != NullHandle then (HandleState(NullHandle, Env), Some(Release(h.htype, h.value)))
    else (h, None)
  }

  /** `n` calls to `free()` in a row: the final state and every release
      made, in order. */
  function FreeRepeated(h: HandleState, n: nat): (HandleState, seq<Release>)
    decreases n
  {
    if n == 0 then (h, [])
    else
      var (next, call) := FreeStep(h);
      var (last, calls) := FreeRepeated(next, n - 1);
      (last, (if call.Some? then [call.value] else []) + calls)
  }

  /** `free` is idempotent: however often it is called, the handle ends
      up null and is released once if it was ok, never if it was bad. */
  lemma {:induction false} FreeIdempotent(h: HandleState, n: nat)
    requires n >= 1
    ensures FreeRepeated(h, n).0 == FreeStep(h).0
    ensures FreeRepeated(h, n).1 == if h.value != NullHandle then [Release(h.htype, h.value)] else []
    decreases n
  {
    if n > 1 {
      FreeIdempotent(FreeStep(h).0, n - 1);
    }
  }

  class Handle {

    /** `myValue`. */
    var value: nat
    /** `myType`. */
    var htype: HandleType

    /** `Handle(value, type)`. */
    constructor (value: nat, htype: HandleType)
      ensures Value() == value && Type() == htype
    {
      this.value, this.htype := value, htype;
    }

    /** `bad()`: the value is the null handle. */
    function Bad(): (r: bool)
      reads this
      ensures r <==> Value() == NullHandle
    {
      value == NullHandle
    }

    /** `ok()`: the exact negation of `bad()`. */
    function Ok(): (r: bool)
      reads this
      ensures r <==> !Bad()
    {
      value != NullHandle
    }

    function Value(): nat
      reads this
    {
      value
    }

    function Type(): HandleType
      reads this
    {
      htype
    }

    /** `free()`: returns the `SQLFreeHandle` call it makes, if any. */
    method Free() returns (call: Option<Release>)
      modifies this
      ensures (HandleState(value, htype), call) == FreeStep(old(HandleState(value, htype)))
    {
      if Ok() {
        call := Some(Release(htype, value));
        htype := Env;
        value := NullHandle;
      } else {
        call := None;
      }
    }
  }
}
