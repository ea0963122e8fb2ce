/** Parameter binding of code/PreparedStatement.cpp, sql/PreparedStatement.cpp
    and sql/PreparedUpdate.cpp: the next-parameter counter, and the fixed
    (C type, SQL type, column size, length indicator) each `bind` overload
    hands to `SQLBindParameter`. The driver's answers are inputs. */
module Binding {

  import opened Units

  /** The overloads of `bind`, by the C++ type of the bound value. A string
      carries its `length()`, the only part of it the call depends on. */
  datatype ValueKind =
    | Int8 | UInt8 | Int16 | UInt16 | Int32 | UInt32 | Int64 | UInt64
    | Float | Double
    | Text(length: nat) | WideText(length: nat)
    | DateValue | GuidValue | NumericValue | TimeValue | TimestampValue

  /** The C data types (`SQL_C_*`) the overloads pass. */
  datatype CType =
    | CSTinyInt | CUTinyInt | CSShort | CUShort | CSLong | CULong | CSBigInt | CUBigInt
    | CFloat | CDouble | CChar | CWChar
    | CTypeDate | CGuid | CNumeric | CTypeTime | CTypeTimestamp

  /** The SQL data types (`SQL_*`) the overloads pass. */
  datatype SqlType =
    | TinyInt | SmallInt | Integer | BigInt | Real | DoublePrecision | Char | WChar
    | TypeDate | Guid | Numeric | TypeTime | TypeTimestamp

  /** The length indicator: `0` for fixed-size values, `SQL_NTS` for strings. */
  datatype Indicator = Zero | Nts

  /** The arguments of one `SQLBindParameter` call that vary between calls. */
  datatype Call = Call(number: Uint16, ctype: CType, sqlType: SqlType, columnSize: nat, indicator: Indicator)

  /** The C type of each overload: the one whose natural SQL type is the
      SQL type the overload is meant to declare. */
  function CTypeOf(kind: ValueKind): (c: CType)
    ensures NaturalSqlType(c) == SqlTypeOf(kind)
  {
    match kind
    case Int8 => CSTinyInt
    case UInt8 => CUTinyInt
    case Int16 => CSShort
    case UInt16 => CUShort
    case Int32 => CSLong
    case UInt32 => CULong
    case Int64 => CSBigInt
    case UInt64 => CUBigInt
    case Float => CFloat
    case Double => CDouble
    case Text(_) => CChar
    case WideText(_) => CWChar
    case DateValue => CTypeDate
    case GuidValue => CGuid
    case NumericValue => CNumeric
    case TimeValue => CTypeTime
    case TimestampValue => CTypeTimestamp
  }

  /** The SQL type each overload passes as written: the `Date` overload
      passes `SQL_TYPE_TIME` beside `SQL_C_TYPE_DATE`. */
  function SqlTypeAsWritten(kind: ValueKind): (t: SqlType)
    ensures t == NaturalSqlType(CTypeOf(kind)) <==> !kind.DateValue?
    ensures kind.DateValue? ==> t == TypeTime
  {
    if kind.DateValue? then TypeTime else SqlTypeOf(kind)
  }

  /** The SQL type each overload evidently means to pass. */
  function SqlTypeOf(kind: ValueKind): SqlType {
    match kind
    case Int8 => TinyInt
    case UInt8 => TinyInt
    case Int16 => SmallInt
    case UInt16 => SmallInt
    case Int32 => Integer
    case UInt32 => Integer
    case Int64 => BigInt
    case UInt64 => BigInt
    case Float => Real
    case Double => DoublePrecision
    case Text(_) => Char
    case WideText(_) => WChar
    case DateValue => TypeDate
    case GuidValue => Guid
    case NumericValue => Numeric
    case TimeValue => TypeTime
    case TimestampValue => TypeTimestamp
  }

  /** The SQL type a C type is the natural transfer type of, as the ODBC
      conversion tables pair them: the reference the table is checked against. */
  function NaturalSqlType(c: CType): SqlType {
    match c
    case CSTinyInt => TinyInt
    case CUTinyInt => TinyInt
    case CSShort => SmallInt
    case CUShort => SmallInt
    case CSLong => Integer
    case CULong => Integer
    case CSBigInt => BigInt
    case CUBigInt => BigInt
    case CFloat => Real
    case CDouble => DoublePrecision
    case CChar => Char
    case CWChar => WChar
    case CTypeDate => TypeDate
    case CGuid => Guid
    case CNumeric => Numeric
    case CTypeTime => TypeTime
    case CTypeTimestamp => TypeTimestamp
  }

  /** The column size argument: the string's length, the struct's size for
      the struct types (SQL_DATE_STRUCT and SQL_TIME_STRUCT 6 bytes,
      SQL_TIMESTAMP_STRUCT and SQLGUID 16, SQL_NUMERIC_STRUCT 19), 0 otherwise. */
  function ColumnSize(kind: ValueKind): (n: nat)
    ensures kind.Text? || kind.WideText? ==> n == kind.length
    ensures !(kind.Text? || kind.WideText?) ==>
      (n > 0 <==> CTypeOf(kind) in {CTypeDate, CGuid, CNumeric, CTypeTime, CTypeTimestamp})
  {
    match kind
    case Text(n) => n
    case WideText(n) => n
    case DateValue => 6
    case TimeValue => 6
    case TimestampValue => 16
    case GuidValue => 16
    case NumericValue => 19
    case _ => 0
  }

  function IndicatorOf(kind: ValueKind): (i: Indicator)
    ensures i == Nts <==> kind.Text? || kind.WideText?
  {
    if kind.Text? || kind.WideText? then Nts else Zero
  }

  /** The call a `bind` overload issues at parameter `number`, as written:
      every overload but `Date` declares the SQL type its C type names,
      and `Date` declares a time. */
  function CallAsWritten(kind: ValueKind, number: Uint16): (c: Call)
    ensures c.number == number && c.ctype == CTypeOf(kind)
    ensures c.sqlType == NaturalSqlType(c.ctype) <==> !kind.DateValue?
    ensures kind.DateValue? ==> c.sqlType == TypeTime
    ensures c.columnSize == ColumnSize(kind) && c.indicator == IndicatorOf(kind)
  {
    Call(number, CTypeOf(kind), SqlTypeAsWritten(kind), ColumnSize(kind), IndicatorOf(kind))
  }

  /** The call with the SQL type the C type calls for. */
  function CallOf(kind: ValueKind, number: Uint16): (c: Call)
    ensures c.number == number && c.ctype == CTypeOf(kind) && c.sqlType == NaturalSqlType(c.ctype)
    ensures c.columnSize == ColumnSize(kind) && c.indicator == IndicatorOf(kind)
  {
    Call(number, CTypeOf(kind), SqlTypeOf(kind), ColumnSize(kind), IndicatorOf(kind))
  }

  /** The integer overloads pass the SQL type of their width, signed or not. */
  lemma IntegerWidths()
    ensures SqlTypeAsWritten(Int8) == SqlTypeAsWritten(UInt8) == TinyInt
    ensures SqlTypeAsWritten(Int16) == SqlTypeAsWritten(UInt16) == SmallInt
    ensures SqlTypeAsWritten(Int32) == SqlTypeAsWritten(UInt32) == Integer
    ensures SqlTypeAsWritten(Int64) == SqlTypeAsWritten(UInt64) == BigInt
  {
  }

  /** Every overload but `Date` pairs its C type with that type's SQL type;
      the `Date` overload declares a time column. */
  lemma AsWrittenMismatch(kind: ValueKind)
    ensures SqlTypeAsWritten(kind) == NaturalSqlType(CTypeOf(kind)) <==> !kind.DateValue?
    ensures kind.DateValue? ==> CallAsWritten(kind, 1).sqlType == TypeTime && CallOf(kind, 1).sqlType == TypeDate
  {
  }

  /** The corrected table differs from the written one only at `Date`. */
  lemma CorrectionIsLocal(kind: ValueKind, number: Uint16)
    ensures kind.DateValue? <==> CallOf(kind, number) != CallAsWritten(kind, number)
  {
  }

  /** Distinct overloads pass distinct C types: two values with the same C
      type are the same kind, and differ at most in a string's length. */
  lemma CTypeIdentifiesOverload(a: ValueKind, b: ValueKind)
    requires CTypeOf(a) == CTypeOf(b)
    ensures a == b || (a.Text? && b.Text?) || (a.WideText? && b.WideText?)
  {
  }

  /** Where the counter goes after one `bind`: `++myNext` on a 16-bit
      counter once the call succeeded; a failed call throws first. */
  function AfterBind(next: Uint16, result: ReturnCode): (r: Uint16)
    ensures result == Success ==> r == Increment16(next)
    ensures result != Success ==> r == next
  {
    if result == Success then Increment16(next) else next
  }

  /** The counter after a series of binds, each of which may throw. */
  function Binds(next: Uint16, results: seq<ReturnCode>): Uint16
    decreases |results|
  {
    if results == [] then next else Binds(AfterBind(next, results[0]), results[1..])
  }

  /** How many of the binds succeeded: all of them exactly when every
      result is a success, none exactly when no result is. */
  function Successes(results: seq<ReturnCode>): (n: nat)
    ensures n <= |results|
    ensures n == |results| <==> forall i :: 0 <= i < |results| ==> results[i] == Success
    ensures n == 0 <==> forall i :: 0 <= i < |results| ==> results[i] != Success
    decreases |results|
  {
    if results == [] then 0
    else
      assert forall i :: 1 <= i < |results| ==> results[i] == results[1..][i - 1];
      (if results[0] == Success then 1 else 0) + Successes(results[1..])
  }

  /** The counter moves by exactly the number of binds that succeeded,
      modulo 2^16. */
  lemma {:induction false} BindsCount(next: Uint16, results: seq<ReturnCode>)
    ensures Binds(next, results) == (next + Successes(results)) % 0x1_0000
    decreases |results|
  {
    if results != [] {
      var after := AfterBind(next, results[0]);
      BindsCount(after, results[1..]);
      if results[0] == Success {
        assert after == (next + 1) % 0x1_0000;
        ModShift(next, Successes(results[1..]));
      }
    }
  }

  lemma ModShift(next: Uint16, k: nat)
    ensures (((next + 1) % 0x1_0000) + k) % 0x1_0000 == (next + 1 + k) % 0x1_0000
  {
    if next == 0xFFFF {
      assert (next + 1) % 0x1_0000 == 0;
      assert (next + 1 + k) % 0x1_0000 == (0x1_0000 + k) % 0x1_0000 == k % 0x1_0000;
    }
  }

  /** After a reset, `n` successful binds fill parameters 1 to `n` and leave
      the counter on `n + 1`. */
  lemma FromReset(results: seq<ReturnCode>)
    requires |results| < 0xFFFF
    requires forall i :: 0 <= i < |results| ==> results[i] == Success
    ensures Binds(1, results) == |results| + 1
  {
    BindsCount(1, results);
  }

  /** A bind that throws leaves the counter where it was, so the failed
      value is retried at the same parameter. */
  lemma FailedBindsStay(next: Uint16, results: seq<ReturnCode>)
    requires forall i :: 0 <= i < |results| ==> results[i] != Success
    ensures Binds(next, results) == next
  {
    BindsCount(next, results);
  }

  /** The counter past `execute`: reset once the statement ran, unchanged
      when `Statement::execute` threw. */
  function AfterExecute(next: Uint16, executed: bool): (r: Uint16)
    ensures executed ==> r == 1
    ensures !executed ==> r == next
  {
    if executed then 1 else next
  }

  /** `PreparedStatement` of both generations and its `myNext`. */
  class PreparedStatement {

    var next: Uint16

    /** The constructor: `SQLPrepare`, then `myNext(1)`; a preparation
        that does not succeed throws and yields no statement. */
    static method Prepare(prepared: ReturnCode) returns (statement: PreparedStatement?)
      ensures prepared == Success <==> statement != null
      ensures statement != null ==> fresh(statement) && statement.next == 1
    {
      if prepared != Success {
        return null;
      }
      statement := new PreparedStatement.Ready();
    }

    constructor Ready()
      ensures next == 1
    {
      next := 1;
    }

    /** `reset()`, and the free `reset(statement)` manipulator. */
    method Reset()
      modifies this
      ensures next == 1
    {
      next := 1;
    }

    /** Every `bind` overload: one `SQLBindParameter` call at `myNext`, with
        the arguments as written (so a `Date` declares `SQL_TYPE_TIME`); on
        anything but success a `Diagnostic` is thrown before `++myNext`. */
    method Bind(kind: ValueKind, result: ReturnCode) returns (call: Call, thrown: bool)
      modifies this
      ensures call == CallAsWritten(kind, old(next))
      ensures next == AfterBind(old(next), result)
      ensures thrown <==> result != Success
    {
      call := CallAsWritten(kind, next);
      if result != Success {
        return call, true;
      }
      next := Increment16(next);
      thrown := false;
    }

    /** `execute()`: `Statement::execute()`, then `reset()`; when the
        statement throws the reset is skipped. */
    method Execute(executed: bool) returns (thrown: bool)
      modifies this
      ensures next == AfterExecute(old(next), executed)
      ensures thrown <==> !executed
    {
      if !executed {
        return true;
      }
      Reset();
      return false;
    }
  }

  /** `PreparedUpdate` of sql/PreparedUpdate.cpp: a `PreparedStatement`
      with a second `myNext` of its own that hides the base one. Its
      `bind` and `reset` touch only its own counter; its `execute` resets
      its own counter, then runs the base `execute`, which resets the base
      counter after the statement ran. */
  class PreparedUpdate {

    var next: Uint16
    /** The base class's `PreparedStatement::myNext`. */
    var baseNext: Uint16

    static method Prepare(prepared: ReturnCode) returns (update: PreparedUpdate?)
      ensures prepared == Success <==> update != null
      ensures update != null ==> fresh(update) && update.next == 1 && update.baseNext == 1
    {
      if prepared != Success {
        return null;
      }
      update := new PreparedUpdate.Ready();
    }

    constructor Ready()
      ensures next == 1 && baseNext == 1
    {
      next, baseNext := 1, 1;
    }

    method Reset()
      modifies this
      ensures next == 1 && baseNext == old(baseNext)
    {
      next := 1;
    }

    method Bind(kind: ValueKind, result: ReturnCode) returns (call: Call, thrown: bool)
      modifies this
      ensures call == CallAsWritten(kind, old(next))
      ensures next == AfterBind(old(next), result) && baseNext == old(baseNext)
      ensures thrown <==> result != Success
    {
      call := CallAsWritten(kind, next);
      if result != Success {
        return call, true;
      }
      next := Increment16(next);
      thrown := false;
    }

    /** The reset comes first, so the own counter is 1 even when the
        statement throws; the base counter is reset only when it ran. */
    method Execute(executed: bool) returns (thrown: bool)
      modifies this
      ensures next == 1
      ensures baseNext == AfterExecute(old(baseNext), executed)
      ensures thrown <==> !executed
    {
      Reset();
      if !executed {
        return true;
      }
      baseNext := 1;
      return false;
    }
  }
}
