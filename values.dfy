/** The date and time value types of code/Date.hpp, code/Time.hpp,
    code/Timestamp.hpp and their older copies under sql/: each wraps one
    ODBC struct, reads and writes its fields, and compares it with
    `memcmp` over the struct's bytes. */
module Values {

  import opened Units
  import Layout
  import Text

  /** SQL_DATE_STRUCT: a signed 16-bit year, unsigned 16-bit month and day. */
  datatype DateStruct = DateStruct(year: Int16, month: Uint16, day: Uint16)

  /** SQL_TIME_STRUCT: unsigned 16-bit hour, minute and second. */
  datatype TimeStruct = TimeStruct(hour: Uint16, minute: Uint16, second: Uint16)

  /** SQL_TIMESTAMP_STRUCT: a date, a time and an unsigned 32-bit fraction. */
  datatype TimestampStruct = TimestampStruct(
    year: Int16, month: Uint16, day: Uint16,
    hour: Uint16, minute: Uint16, second: Uint16,
    fraction: Uint32)

  const ZeroDate := DateStruct(0, 0, 0)
  const ZeroTime := TimeStruct(0, 0, 0)

  /** The fields of a date as unsigned numbers, with their sizes in bytes. */
  function DateFields(v: DateStruct): seq<nat> {
    [Layout.Unsigned16(v.year), v.month, v.day]
  }

  function TimeFields(v: TimeStruct): seq<nat> {
    [v.hour, v.minute, v.second]
  }

  function TimestampFields(v: TimestampStruct): seq<nat> {
    [Layout.Unsigned16(v.year), v.month, v.day, v.hour, v.minute, v.second, v.fraction]
  }

  const DateWidths: seq<nat> := [2, 2, 2]
  const TimeWidths: seq<nat> := [2, 2, 2]
  const TimestampWidths: seq<nat> := [2, 2, 2, 2, 2, 2, 4]

  /** The bytes `memcmp` compares. */
  function DateBytes(v: DateStruct): (b: seq<Uint8>)
    ensures |b| == 6
  {
    Layout.PackedLength(DateFields(v), DateWidths);
    Layout.Pack(DateFields(v), DateWidths)
  }

  function TimeBytes(v: TimeStruct): (b: seq<Uint8>)
    ensures |b| == 6
  {
    Layout.PackedLength(TimeFields(v), TimeWidths);
    Layout.Pack(TimeFields(v), TimeWidths)
  }

  function TimestampBytes(v: TimestampStruct): (b: seq<Uint8>)
    ensures |b| == 16
  {
    Layout.PackedLength(TimestampFields(v), TimestampWidths);
    Layout.Pack(TimestampFields(v), TimestampWidths)
  }

  lemma Pow256()
    ensures Text.Pow(256, 2) == 0x1_0000 && Text.Pow(256, 4) == 0x1_0000_0000
  {
    assert Text.Pow(256, 1) == 256;
    assert Text.Pow(256, 3) == 256 * Text.Pow(256, 2);
  }

  /** Two dates compare equal byte for byte exactly when all three fields
      are equal: the struct has no padding. */
  lemma DateBytesInjective(a: DateStruct, b: DateStruct)
    ensures DateBytes(a) == DateBytes(b) <==> a == b
  {
    Pow256();
    Layout.PackInjective(DateFields(a), DateFields(b), DateWidths);
    if DateFields(a) == DateFields(b) {
      assert DateFields(a)[0] == DateFields(b)[0];
    }
  }

  lemma TimeBytesInjective(a: TimeStruct, b: TimeStruct)
    ensures TimeBytes(a) == TimeBytes(b) <==> a == b
  {
    Pow256();
    Layout.PackInjective(TimeFields(a), TimeFields(b), TimeWidths);
    if TimeFields(a) == TimeFields(b) {
      assert TimeFields(a)[0] == TimeFields(b)[0];
    }
  }

  lemma TimestampBytesInjective(a: TimestampStruct, b: TimestampStruct)
    ensures TimestampBytes(a) == TimestampBytes(b) <==> a == b
  {
    Pow256();
    Layout.PackInjective(TimestampFields(a), TimestampFields(b), TimestampWidths);
    if TimestampFields(a) == TimestampFields(b) {
      assert TimestampFields(a)[0] == TimestampFields(b)[0];
    }
  }

  /** `Timestamp::date()`: the date fields. */
  function DatePart(v: TimestampStruct): DateStruct {
    DateStruct(v.year, v.month, v.day)
  }

  /** `Timestamp::time()`: the time fields. */
  function TimePart(v: TimestampStruct): TimeStruct {
    TimeStruct(v.hour, v.minute, v.second)
  }

  /** What the three-argument `Timestamp` constructor stores. */
  function Combine(d: DateStruct, t: TimeStruct, fraction: Uint32): (v: TimestampStruct)
    ensures DatePart(v) == d && TimePart(v) == t && v.fraction == fraction
  {
    TimestampStruct(d.year, d.month, d.day, t.hour, t.minute, t.second, fraction)
  }

  /** A timestamp is exactly its date, its time and its fraction. */
  lemma CombineParts(v: TimestampStruct)
    ensures Combine(DatePart(v), TimePart(v), v.fraction) == v
  {
  }

  /** `Date`: a SQL_DATE_STRUCT with accessors. */
  class Date {

    var value: DateStruct

    /** `Date()`: year, month and day all zero. */
    constructor ()
      ensures value == ZeroDate
    {
      value := ZeroDate;
    }

    constructor OfFields(year: Int16, month: Uint16, day: Uint16)
      ensures Year() == year && Month() == month && Day() == day
    {
      value := DateStruct(year, month, day);
    }

    /** `Date(const Value)`: a copy of the struct. */
    constructor OfValue(v: DateStruct)
      ensures value == v
    {
      value := v;
    }

    function Year(): Int16
      reads this
    {
      value.year
    }

    function Month(): Uint16
      reads this
    {
      value.month
    }

    function Day(): Uint16
      reads this
    {
      value.day
    }

    method SetYear(year: Int16)
      modifies this
      ensures Year() == year && Month() == old(Month()) && Day() == old(Day())
    {
      value := value.(year := year);
    }

    method SetMonth(month: Uint16)
      modifies this
      ensures Month() == month && Year() == old(Year()) && Day() == old(Day())
    {
      value := value.(month := month);
    }

    method SetDay(day: Uint16)
      modifies this
      ensures Day() == day && Year() == old(Year()) && Month() == old(Month())
    {
      value := value.(day := day);
    }

    /** `operator=(const Value&)`: every field replaced. */
    method Assign(v: DateStruct)
      modifies this
      ensures value == v
    {
      value := v;
    }

    /** `operator==`: `memcmp(...) == 0` over the six bytes. */
    function Equals(other: Date): (r: bool)
      reads this, other
      ensures r <==> Year() == other.Year() && Month() == other.Month() && Day() == other.Day()
    {
      DateBytesInjective(value, other.value);
      DateBytes(value) == DateBytes(other.value)
    }

    /** `operator!=`: `memcmp(...) != 0`, the negation of `==`. */
    function Differs(other: Date): (r: bool)
      reads this, other
      ensures r <==> !Equals(other)
      ensures r <==> value != other.value
    {
      DateBytesInjective(value, other.value);
      DateBytes(value) != DateBytes(other.value)
    }
  }

  /** `Time`: a SQL_TIME_STRUCT with accessors. */
  class Time {

    var value: TimeStruct

    /** `Time()`: 00:00:00. */
    constructor ()
      ensures value == ZeroTime
    {
      value := ZeroTime;
    }

    constructor OfFields(hour: Uint16, minute: Uint16, second: Uint16)
      ensures Hour() == hour && Minute() == minute && Second() == second
    {
      value := TimeStruct(hour, minute, second);
    }

    constructor OfValue(v: TimeStruct)
      ensures value == v
    {
      value := v;
    }

    function Hour(): Uint16
      reads this
    {
      value.hour
    }

    function Minute(): Uint16
      reads this
    {
      value.minute
    }

    function Second(): Uint16
      reads this
    {
      value.second
    }

    method SetHour(hour: Uint16)
      modifies this
      ensures Hour() == hour && Minute() == old(Minute()) && Second() == old(Second())
    {
      value := value.(hour := hour);
    }

    method SetMinute(minute: Uint16)
      modifies this
      ensures Minute() == minute && Hour() == old(Hour()) && Second() == old(Second())
    {
      value := value.(minute := minute);
    }

    method SetSecond(second: Uint16)
      modifies this
      ensures Second() == second && Hour() == old(Hour()) && Minute() == old(Minute())
    {
      value := value.(second := second);
    }

    method Assign(v: TimeStruct)
      modifies this
      ensures value == v
    {
      value := v;
    }

    function Equals(other: Time): (r: bool)
      reads this, other
      ensures r <==> Hour() == other.Hour() && Minute() == other.Minute() && Second() == other.Second()
    {
      TimeBytesInjective(value, other.value);
      TimeBytes(value) == TimeBytes(other.value)
    }

    function Differs(other: Time): (r: bool)
      reads this, other
      ensures r <==> !Equals(other)
      ensures r <==> value != other.value
    {
      TimeBytesInjective(value, other.value);
      TimeBytes(value) != TimeBytes(other.value)
    }
  }

  /** `Timestamp`: a SQL_TIMESTAMP_STRUCT with accessors by part and by field. */
  class Timestamp {

    var value: TimestampStruct

    /** `Timestamp(date = Date(), time = Time(), fraction = 0)`: every field
        is written through `date(d)`, `time(t)` and `fraction(f)`. */
    constructor (date: DateStruct, time: TimeStruct, fraction: Uint32)
      ensures DateOf() == date && TimeOf() == time && Fraction() == fraction
    {
      value := Combine(date, time, fraction);
    }

    /** `Timestamp(date)`: the defaulted time is 00:00:00 and the fraction 0. */
    constructor OfDate(date: DateStruct)
      ensures DateOf() == date && TimeOf() == ZeroTime && Fraction() == 0
    {
      value := Combine(date, ZeroTime, 0);
    }

    constructor OfValue(v: TimestampStruct)
      ensures value == v
    {
      value := v;
    }

    function DateOf(): DateStruct
      reads this
    {
      DatePart(value)
    }

    function TimeOf(): TimeStruct
      reads this
    {
      TimePart(value)
    }

    function Fraction(): Uint32
      reads this
    {
      value.fraction
    }

    /** `date(d)`: year, month and day; the time and fraction stay. */
    method SetDate(d: DateStruct)
      modifies this
      ensures DateOf() == d && TimeOf() == old(TimeOf()) && Fraction() == old(Fraction())
    {
      value := value.(year := d.year, month := d.month, day := d.day);
    }

    /** `time(t)`: hour, minute and second; the date and fraction stay. */
    method SetTime(t: TimeStruct)
      modifies this
      ensures TimeOf() == t && DateOf() == old(DateOf()) && Fraction() == old(Fraction())
    {
      value := value.(hour := t.hour, minute := t.minute, second := t.second);
    }

    method SetYear(year: Int16)
      modifies this
      ensures value == old(value).(year := year)
    {
      value := value.(year := year);
    }

    method SetMonth(month: Uint16)
      modifies this
      ensures value == old(value).(month := month)
    {
      value := value.(month := month);
    }

    method SetDay(day: Uint16)
      modifies this
      ensures value == old(value).(day := day)
    {
      value := value.(day := day);
    }

    method SetHour(hour: Uint16)
      modifies this
      ensures value == old(value).(hour := hour)
    {
      value := value.(hour := hour);
    }

    method SetMinute(minute: Uint16)
      modifies this
      ensures value == old(value).(minute := minute)
    {
      value := value.(minute := minute);
    }

    method SetSecond(second: Uint16)
      modifies this
      ensures value == old(value).(second := second)
    {
      value := value.(second := second);
    }

    method SetFraction(fraction: Uint32)
      modifies this
      ensures value == old(value).(fraction := fraction)
    {
      value := value.(fraction := fraction);
    }

    method Assign(v: TimestampStruct)
      modifies this
      ensures value == v
    {
      value := v;
    }

    /** `operator==` over the sixteen bytes; there is no `operator!=`. */
    function Equals(other: Timestamp): (r: bool)
      reads this, other
      ensures r <==> DateOf() == other.DateOf() && TimeOf() == other.TimeOf() && Fraction() == other.Fraction()
    {
      TimestampBytesInjective(value, other.value);
      CombineParts(value);
      CombineParts(other.value);
      TimestampBytes(value) == TimestampBytes(other.value)
    }
  }
}
