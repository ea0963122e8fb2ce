/** The stream insertions of code/Date.cpp, code/Time.cpp and their sql/
    copies, and of sql/Timestamp.cpp: the text each value type writes, the
    same for the narrow and the wide stream, and what the `std::string` and
    `std::wstring` conversions return. Readers of that text state the
    round trips. */
module Formats {

  import opened Units
  import opened Text
  import opened Values

  /** `out << year << '-' << setfill('0') << setw(2) << month << '-' <<
      setfill('0') << setw(2) << day`: the year as a plain signed decimal,
      month and day zero-filled to at least two digits. */
  function DateText(v: DateStruct): (r: string)
    ensures |r| >= 7 && (v.year < 0 ==> r[0] == '-')
  {
    Signed(v.year) + ("-" + (Filled(v.month, 10, 2) + ("-" + Filled(v.day, 10, 2))))
  }

  /** Hour, minute and second, each zero-filled to at least two digits. */
  function TimeText(v: TimeStruct): (r: string)
    ensures |r| >= 8
  {
    Filled(v.hour, 10, 2) + (":" + (Filled(v.minute, 10, 2) + (":" + Filled(v.second, 10, 2))))
  }

  /** The date text, a space, the time text, a dot and the fraction
      zero-filled to at least four digits. */
  function TimestampText(v: TimestampStruct): (r: string)
    ensures |r| >= 21
  {
    DateText(DatePart(v)) + (" " + (TimeText(TimePart(v)) + ("." + Filled(v.fraction, 10, 4))))
  }

  /** A decimal field that fits 16 unsigned bits. */
  function Read16(s: string): (r: Option<Uint16>)
    ensures r.Some? ==> ReadNumber(s, 10) == Some(r.value as nat)
  {
    match ReadNumber(s, 10)
    case Some(n) => if n < 0x1_0000 then Some(n) else None
    case None => None
  }

  /** A year: its magnitude and whether a minus sign came before it. */
  function ReadYear(s: string, negative: bool): Option<Int16> {
    match ReadNumber(s, 10)
    case Some(n) =>
      var y: int := if negative then -(n as int) else n;
      if -0x8000 <= y < 0x8000 then Some(y) else None
    case None => None
  }

  function BuildDate(year: Option<Int16>, month: Option<Uint16>, day: Option<Uint16>): Option<DateStruct> {
    if year.Some? && month.Some? && day.Some? then Some(DateStruct(year.value, month.value, day.value)) else None
  }

  /** Reads the text `DateText` writes: three fields between dashes, or
      four when the year has a minus sign. */
  function ReadDate(s: string): Option<DateStruct> {
    ReadDateFields(Split(s, '-'))
  }

  function ReadDateFields(parts: seq<string>): Option<DateStruct> {
    if |parts| == 3 then BuildDate(ReadYear(parts[0], false), Read16(parts[1]), Read16(parts[2]))
    else if |parts| == 4 && parts[0] == [] then BuildDate(ReadYear(parts[1], true), Read16(parts[2]), Read16(parts[3]))
    else None
  }

  function ReadTime(s: string): Option<TimeStruct> {
    var parts := Split(s, ':');
    if |parts| == 3 && Read16(parts[0]).Some? && Read16(parts[1]).Some? && Read16(parts[2]).Some? then
      Some(TimeStruct(Read16(parts[0]).value, Read16(parts[1]).value, Read16(parts[2]).value))
    else None
  }

  function ReadTimestamp(s: string): Option<TimestampStruct> {
    var halves := Split(s, ' ');
    if |halves| != 2 then None
    else
      var clock := Split(halves[1], '.');
      if |clock| != 2 then None
      else
        var d, t, f := ReadDate(halves[0]), ReadTime(clock[0]), ReadNumber(clock[1], 10);
        if d.Some? && t.Some? && f.Some? && f.value < 0x1_0000_0000 then Some(Combine(d.value, t.value, f.value))
        else None
  }

  /** A zero-filled field is digits only and reads back as its number. */
  lemma FilledField(n: Uint16, width: nat, sep: char)
    requires !IsDigit(sep, 10)
    ensures sep !in Filled(n, 10, width)
    ensures Read16(Filled(n, 10, width)) == Some(n)
  {
    FilledShape(n, 10, width);
    ReadFilled(n, 10, width);
    DigitsHaveNo(Filled(n, 10, width), 10, sep);
  }

  /** The unpadded numeral of a magnitude. */
  lemma NumeralField(n: nat, sep: char)
    requires !IsDigit(sep, 10)
    ensures sep !in Numeral(n, 10)
    ensures ReadNumber(Numeral(n, 10), 10) == Some(n)
  {
    assert Filled(n, 10, 0) == Numeral(n, 10);
    FilledShape(n, 10, 0);
    ReadFilled(n, 10, 0);
    DigitsHaveNo(Numeral(n, 10), 10, sep);
  }

  /** Three fields joined by a separator none of them holds split back apart. */
  lemma SplitThree(a: string, b: string, c: string, sep: char)
    requires sep !in a && sep !in b && sep !in c
    ensures Split(a + ([sep] + (b + ([sep] + c))), sep) == [a] + ([b] + [c])
  {
    SplitJoin(a, sep, b + ([sep] + c));
    SplitJoin(b, sep, c);
    SplitLast(c, sep);
  }

  lemma SplitTwo(a: string, b: string, sep: char)
    requires sep !in a && sep !in b
    ensures Split(a + ([sep] + b), sep) == [a] + [b]
  {
    SplitJoin(a, sep, b);
    SplitLast(b, sep);
  }

  /** The fields of a date text between its dashes: an empty field first
      when the year is negative. */
  function DateFieldsOf(v: DateStruct): seq<string> {
    var m, d := Filled(v.month, 10, 2), Filled(v.day, 10, 2);
    if v.year >= 0 then [Numeral(v.year, 10)] + ([m] + [d])
    else [[]] + ([Numeral(-(v.year as int), 10)] + ([m] + [d]))
  }

  lemma DateSplits(v: DateStruct)
    ensures Split(DateText(v), '-') == DateFieldsOf(v)
  {
    var m, d := Filled(v.month, 10, 2), Filled(v.day, 10, 2);
    FilledField(v.month, 2, '-');
    FilledField(v.day, 2, '-');
    var rest := "-" + (m + ("-" + d));
    if v.year >= 0 {
      NumeralField(v.year, '-');
      SplitThree(Numeral(v.year, 10), m, d, '-');
    } else {
      var y := Numeral(-(v.year as int), 10);
      NumeralField(-(v.year as int), '-');
      SplitThree(y, m, d, '-');
      Associative("-", y, rest);
      assert [] + ("-" + (y + rest)) == "-" + (y + rest);
      SplitJoin([], '-', y + rest);
    }
  }

  lemma ReadsDateFields(v: DateStruct)
    ensures ReadDateFields(DateFieldsOf(v)) == Some(v)
  {
    var m, d := Filled(v.month, 10, 2), Filled(v.day, 10, 2);
    FilledField(v.month, 2, '-');
    FilledField(v.day, 2, '-');
    var magnitude: nat := if v.year >= 0 then v.year else -(v.year as int);
    YearField(magnitude, v.year < 0);
    var y := Numeral(magnitude, 10);
    assert ReadYear(y, v.year < 0) == Some(v.year);
  }

  /** The magnitude of a year, read back with its sign. */
  lemma YearField(magnitude: nat, negative: bool)
    requires if negative then 0 < magnitude <= 0x8000 else magnitude < 0x8000
    ensures ReadYear(Numeral(magnitude, 10), negative) == Some(if negative then -(magnitude as int) else magnitude)
  {
    NumeralField(magnitude, '-');
  }

  /** The date text reads back as the date, whatever its sign. */
  lemma DateRoundTrip(v: DateStruct)
    ensures ReadDate(DateText(v)) == Some(v)
  {
    DateSplits(v);
    ReadsDateFields(v);
  }

  lemma TimeRoundTrip(v: TimeStruct)
    ensures ReadTime(TimeText(v)) == Some(v)
  {
    FilledField(v.hour, 2, ':');
    FilledField(v.minute, 2, ':');
    FilledField(v.second, 2, ':');
    SplitThree(Filled(v.hour, 10, 2), Filled(v.minute, 10, 2), Filled(v.second, 10, 2), ':');
  }

  /** No space and no dot in a date or time text. */
  lemma DateTextHasNo(v: DateStruct, c: char)
    requires !IsDigit(c, 10) && c != '-'
    ensures c !in DateText(v)
  {
    FilledField(v.month, 2, c);
    FilledField(v.day, 2, c);
    if v.year >= 0 {
      NumeralField(v.year, c);
    } else {
      NumeralField(-(v.year as int), c);
    }
  }

  lemma TimeTextHasNo(v: TimeStruct, c: char)
    requires !IsDigit(c, 10) && c != ':'
    ensures c !in TimeText(v)
  {
    FilledField(v.hour, 2, c);
    FilledField(v.minute, 2, c);
    FilledField(v.second, 2, c);
  }

  lemma TimestampRoundTrip(v: TimestampStruct)
    ensures ReadTimestamp(TimestampText(v)) == Some(v)
  {
    var dt, tt, f := DateText(DatePart(v)), TimeText(TimePart(v)), Filled(v.fraction, 10, 4);
    TimestampSplits(v);
    ReadFilled(v.fraction, 10, 4);
    DateRoundTrip(DatePart(v));
    TimeRoundTrip(TimePart(v));
    CombineParts(v);
    ReadsTimestampParts(TimestampText(v), dt, tt, f, v);
  }

  /** A reader that finds the three parts in place reads the timestamp. */
  lemma ReadsTimestampParts(s: string, dt: string, tt: string, f: string, v: TimestampStruct)
    requires Split(s, ' ') == [dt] + [tt + ("." + f)]
    requires Split(tt + ("." + f), '.') == [tt] + [f]
    requires ReadDate(dt) == Some(DatePart(v)) && ReadTime(tt) == Some(TimePart(v))
    requires ReadNumber(f, 10) == Some(v.fraction as nat)
    ensures ReadTimestamp(s) == Some(v)
  {
    CombineParts(v);
  }

  /** Where a reader cuts a timestamp text: at its one space, then at its one dot. */
  lemma TimestampSplits(v: TimestampStruct)
    ensures Split(TimestampText(v), ' ') ==
      [DateText(DatePart(v))] + [TimeText(TimePart(v)) + ("." + Filled(v.fraction, 10, 4))]
    ensures Split(TimeText(TimePart(v)) + ("." + Filled(v.fraction, 10, 4)), '.') ==
      [TimeText(TimePart(v))] + [Filled(v.fraction, 10, 4)]
  {
    var dt, tt, f := DateText(DatePart(v)), TimeText(TimePart(v)), Filled(v.fraction, 10, 4);
    DateTextHasNo(DatePart(v), ' ');
    TimeTextHasNo(TimePart(v), ' ');
    TimeTextHasNo(TimePart(v), '.');
    FilledShape(v.fraction, 10, 4);
    DigitsHaveNo(f, 10, ' ');
    DigitsHaveNo(f, 10, '.');
    SplitTwo(dt, tt + ("." + f), ' ');
    SplitTwo(tt, f, '.');
  }

  /** Different values never print the same: equal text means equal fields. */
  lemma DateTextInjective(a: DateStruct, b: DateStruct)
    ensures DateText(a) == DateText(b) <==> a == b
  {
    DateRoundTrip(a);
    DateRoundTrip(b);
  }

  lemma TimeTextInjective(a: TimeStruct, b: TimeStruct)
    ensures TimeText(a) == TimeText(b) <==> a == b
  {
    TimeRoundTrip(a);
    TimeRoundTrip(b);
  }

  lemma TimestampTextInjective(a: TimestampStruct, b: TimestampStruct)
    ensures TimestampText(a) == TimestampText(b) <==> a == b
  {
    TimestampRoundTrip(a);
    TimestampRoundTrip(b);
  }

  /** Below 100 every time field takes exactly two digits: eight units,
      colons at 2 and 5. */
  lemma TimeTextWidth(v: TimeStruct)
    requires v.hour < 100 && v.minute < 100 && v.second < 100
    ensures |TimeText(v)| == 8 && TimeText(v)[2] == ':' && TimeText(v)[5] == ':'
  {
    assert Pow(10, 2) == 100 by {
      assert Pow(10, 1) == 10;
    }
    FilledWidth(v.hour, 10, 2);
    FilledWidth(v.minute, 10, 2);
    FilledWidth(v.second, 10, 2);
    ClockWidth(Filled(v.hour, 10, 2), Filled(v.minute, 10, 2), Filled(v.second, 10, 2));
  }

  lemma ClockWidth(h: string, m: string, s: string)
    requires |h| == 2 && |m| == 2 && |s| == 2
    ensures var t := h + (":" + (m + (":" + s))); |t| == 8 && t[2] == ':' && t[5] == ':'
  {
  }

  /** The examples of the data-type unit tests. */
  lemma DateExample()
    ensures DateText(DateStruct(2009, 1, 26)) == "2009-01-26"
  {
    Decimal(2009, "2009");
    Decimal(26, "26");
    Decimal(1, "1");
  }

  lemma TimeExample()
    ensures TimeText(TimeStruct(7, 12, 26)) == "07:12:26"
  {
    Decimal(7, "7");
    Decimal(12, "12");
    Decimal(26, "26");
  }

  lemma TimestampExample()
    ensures TimestampText(Combine(DateStruct(2010, 2, 27), TimeStruct(15, 30, 59), 0)) == "2010-02-27 15:30:59.0000"
  {
    var v := Combine(DateStruct(2010, 2, 27), TimeStruct(15, 30, 59), 0);
    TimestampDateExample();
    TimestampTimeExample();
    Decimal(0, "0");
    assert Filled(0, 10, 4) == "0000";
    Spaced(DateText(DatePart(v)), TimeText(TimePart(v)), Filled(0, 10, 4));
  }

  lemma TimestampDateExample()
    ensures DateText(DateStruct(2010, 2, 27)) == "2010-02-27"
  {
    Decimal(2010, "2010");
    Decimal(2, "2");
    Decimal(27, "27");
  }

  lemma TimestampTimeExample()
    ensures TimeText(TimeStruct(15, 30, 59)) == "15:30:59"
  {
    Decimal(15, "15");
    Decimal(30, "30");
    Decimal(59, "59");
  }

  lemma Spaced(dt: string, tt: string, f: string)
    requires dt == "2010-02-27" && tt == "15:30:59" && f == "0000"
    ensures dt + (" " + (tt + ("." + f))) == "2010-02-27 15:30:59.0000"
  {
  }

  /** The numeral of a literal, digit by digit. */
  lemma Decimal(n: nat, s: string)
    requires n < 10000 && |s| >= 1
    requires s == (if n < 10 then [DigitChar(n)]
                   else if n < 100 then [DigitChar(n / 10), DigitChar(n % 10)]
                   else if n < 1000 then [DigitChar(n / 100), DigitChar(n / 10 % 10), DigitChar(n % 10)]
                   else [DigitChar(n / 1000), DigitChar(n / 100 % 10), DigitChar(n / 10 % 10), DigitChar(n % 10)])
    ensures Numeral(n, 10) == s
  {
    if n >= 10 {
      assert Numeral(n, 10) == Numeral(n / 10, 10) + [DigitChar(n % 10)];
      if n >= 100 {
        assert Numeral(n / 10, 10) == Numeral(n / 100, 10) + [DigitChar(n / 10 % 10)];
        if n >= 1000 {
          assert Numeral(n / 100, 10) == Numeral(n / 1000, 10) + [DigitChar(n / 100 % 10)];
        }
      }
    }
  }
}
