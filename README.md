# sqlxx: a verified model of the ODBC wrapper's self-contained logic

sqlxx is a C++ wrapper around the ODBC C API. It has two generations of
sources: `code/` is the newer and `sql/` the older. Most of the wrapper
forwards calls to the ODBC driver. This project models the parts that do
their own work around those calls and proves what they promise:

- **`basic_string`** (`code/string.hpp`): a NUL-terminated character buffer
  with an explicit capacity. It is modelled as the class `Strings.BasicString`
  over an `array<char>`, with the invariant "a NUL at `capacity`, text up to
  the first NUL". Each operation is proved against that invariant and the
  old contents.
- **The result stream** (`code/Results.cpp`, `sql/Results.cpp`,
  `sql/ResultSet.cpp`), which has three parts:
  - the `State` flag word, modelled as the `bv32` datatype `ResultState.State`;
  - the column cursor;
  - the chunked string read loop.

  The driver's replies (`SQLFetch`, `SQLGetData`) are inputs: a return code,
  or a finite sequence of chunk replies that ends in a reply that stops the
  loop. The `Results` class is proved against the specification functions
  `FetchRow`, `ReadColumn`, `ReadText` and `TextOf`. Lemmas over arbitrary
  sequences of reads cover the latch, flag monotonicity and cursor
  arithmetic.
- **The parameter-binding cursor** (`code/PreparedStatement.cpp`,
  `sql/PreparedStatement.cpp`, `sql/PreparedUpdate.cpp`). This covers:
  - the 16-bit `myNext` counter;
  - the reset order of `execute`;
  - the shadowing counter of `PreparedUpdate`;
  - the fixed table of C and SQL types each `bind` overload passes.
- **Value types and their text forms**:
  - `Date`, `Time` and `Timestamp` are classes over the ODBC structs. Their
    `memcmp` equality is modelled over the structs' little-endian bytes.
  - The stream formatters are functions. They are proved injective, and each
    has a reader that inverts it.
  - `Guid` is proved against the UUID string layout of section 3 of RFC 4122.
  - `Status` is a six-unit array.
  - `Diagnostic` is built from a diagnostic record taken as input.
  - `Handle::free`, and the connection-string builders for SQLite, MySQL and
    Firebird, including the `ostream::sentry` guard of the older `put`
    overrides.

Conventions:
- Numeric widths are explicit. `int16`, `uint16`, `uint32` and `uint8` are
  subset types of `int`. `++myNext` wraps modulo 2^16 (`Units.Increment16`).
- Narrow and wide character units are both Dafny `char`.
- C strings are sequences that contain a NUL. `Units.CString` is the text
  before the first NUL.

## Model

| member | source | states |
|---|---|---|
| Units.Increment16 | code/PreparedStatement.cpp:83 | `++` on a `uint16`: one more below 0xFFFF, wrapping to 0 at 0xFFFF |
| Units.CString | code/string.hpp:241-251 | the text of a C string has no NUL, is a prefix of the units and is followed by the terminator |
| Strings.EndOf | code/string.hpp:241-251 | the `endof` scan: for a C string, the index of its first NUL, which is the length of its text; for a null pointer, offset 0 (the pointer is returned as it is) |
| Strings.Span | code/string.hpp:154-156 | the range `[value, endof(value))` the C-string operations copy: the C string's text, empty for a null pointer |
| Strings.CopySeq | code/string.hpp:412 | `std::copy` into the buffer replaces exactly as many units as it has, at the offset, and keeps the rest |
| Strings.PlaceText | code/string.hpp:156 | `*std::copy(first, last, buffer) = 0` into a new buffer: the buffer reads as the copied text's C string, and the units after the terminator are untouched |
| Strings.NewBuffer | code/string.hpp:184-188 | the allocation has `capacity + 1` units with a NUL at index 0 and at index `capacity` |
| Strings.BasicString.WithCapacity | code/string.hpp:184-188 | a new buffer has exactly the requested capacity, empty text, and NUL at 0 and at the capacity |
| Strings.BasicString.FromCString | code/string.hpp:151-158 | construction from a `const char*`: capacity equals the text's length and the contents equal the text; a null pointer gives capacity 0 and empty text |
| Strings.BasicString.Copy | code/string.hpp:194-200 | the copy has the source's capacity and contents |
| Strings.BasicString.FromStdString | code/string.hpp:219-225 | capacity is the std string's capacity; contents are its text up to the first NUL |
| Strings.BasicString.Length | code/string.hpp:276-291 | `length()`/`size()` is the number of units before the first NUL, at most the capacity |
| Strings.BasicString.Clear | code/string.hpp:260-265 | empty text, capacity unchanged, invariant kept |
| Strings.BasicString.Reserve | code/string.hpp:381-388 | a larger minimum becomes the capacity and the contents are kept; otherwise the object does not change |
| Strings.BasicString.Swap | code/string.hpp:395-399 | buffers, capacities and contents are exchanged |
| Strings.BasicString.WriteTerminated | code/string.hpp:412 | `*std::copy(...) = 0`: the text, then a NUL, over exactly those units |
| Strings.BasicString.Append | code/string.hpp:408-413 | old contents followed by the range (up to an embedded NUL); capacity grows to the needed length only when too small |
| Strings.BasicString.Assign | code/string.hpp:420-425 | contents equal the range (up to an embedded NUL); capacity is the larger of the old one and the range length |
| Strings.BasicString.AssignString | code/string.hpp:436-441 | copy assignment: the source's contents and capacity |
| Strings.BasicString.AppendString | code/string.hpp:487-492 | `+= string`: old contents followed by the suffix, capacity at least the sum |
| Strings.BasicString.AppendCString | code/string.hpp:501-507 | `+= const char_type*`: old contents followed by the C string's text (nothing for a null pointer), capacity at least the sum |
| Strings.BasicString.AssignCStringAsWritten | code/string.hpp:450-478 | as written, both `operator=` overloads from a pointer append its text (nothing for a null pointer) and grow the capacity only to that text's length; they stay in bounds only when old length + new length fits that capacity |
| Strings.BasicString.AssignCString | code/string.hpp:450-478 | corrected `operator=`: contents equal the pointer's text (empty for a null pointer) and the capacity is large enough |
| Strings.AssignAsWrittenAppends | code/string.hpp:450-456 | the verified call sequence `FromCString("ab")`, `Reserve(4)`, `AssignCStringAsWritten("cd")` on the as-written `operator=` from a C string ends holding "abcd", not the documented "cd" |
| Strings.AssignAsWrittenOverruns | code/string.hpp:453-454 | "ab" assigned "cd" in capacity 2 writes past the reserved buffer |
| ResultState.MaskValues | code/Results.cpp:43-45 | good, null and fail are 0, 1 and 2; only good is truthy; null and fail do not overlap |
| ResultState.State.IsGood | code/Results.cpp:72-75 | `operator bool`: true exactly for the state with no flag |
| ResultState.State.Set | code/Results.cpp:57-60 | `set(mask)`: every flag of the mask is raised and no flag of the state is lowered; a non-empty mask makes the state falsy |
| ResultState.State.Get | code/Results.cpp:67-70 | `get(mask)`: only a falsy state and a non-empty mask can answer true; against the full mask it is "not good" |
| ResultState.State.ClearAsWritten | code/Results.cpp:62-65 | as written, `clear(mask)` keeps the flags of the mask as they were and lowers every flag outside it |
| ResultState.State.Clear | code/Results.hpp:147-151 | the documented `clear(mask)`: no flag of the mask stays raised and the flags outside it are kept |
| ResultState.State.Intersect | code/Results.cpp:87-90 | the bitwise-and operator gives the same state as `operator&=`, the as-written `clear` |
| ResultState.State.Union | code/Results.cpp:92-95 | the bitwise-or operator gives the same state as its compound assignment, which is `set` |
| ResultState.IntersectRaises | code/Results.cpp:87-90 | a flag raised in the bitwise and of two states is raised in both |
| ResultState.UnionRaises | code/Results.cpp:92-95 | a flag is raised in the bitwise or of two states exactly when it is raised in either |
| ResultState.State.GoodPerDoc | code/Results.hpp:155-157 | the documented `operator bool`, false exactly when `get(fail())`, holds for every state the written one calls good |
| ResultState.GoodDiffersFromDoc | code/Results.cpp:72-75 | the written `operator bool` (`myBits == 0`) and the documented one disagree exactly when a flag is raised but fail is not; for states of null and fail only, exactly when null is raised alone, as `null()` leaves a good stream |
| ResultState.SetKeeps | code/Results.cpp:57-60 | `set` never lowers a flag |
| ResultState.SetRaises | code/Results.cpp:57-60 | after `set(mask)` every flag of the mask is raised |
| ResultState.SetRaisesNothingElse | code/Results.cpp:57-60 | `set(mask)` raises no flag outside the state and the mask |
| ResultState.GoodMeansNoFlag | code/Results.cpp:67-75 | a truthy state has no flag; setting a non-empty mask makes it falsy |
| ResultState.ClearAsWrittenKeeps | code/Results.cpp:62-65 | as written, `clear(fail)` leaves fail raised and `clear(null)` on {null, fail} leaves only null |
| ResultState.ClearAsWrittenKeepsOnlyMask | sql/Results.cpp:46-49 | as written, `clear` keeps only flags of the mask that were already raised |
| ResultState.ClearLowers | code/Results.cpp:62-65 | corrected `clear(mask)` leaves no flag of the mask raised |
| ResultState.ClearKeepsOthers | code/Results.hpp:147-151 | corrected `clear` leaves the flags outside the mask as they were |
| ResultState.ClearUndoesSet | code/Results.hpp:147-151 | corrected `clear` undoes `set` of the same mask; clearing fail from fail is good |
| ResultStream.FetchRow | code/Results.cpp:109-120 | not good: nothing changes; good: column 1, and good afterwards exactly when the fetch succeeded |
| ResultStream.ReadColumn | code/Results.cpp:140-156 | not good: nothing changes; good: column advances by one, fail is raised iff the read did not succeed |
| ResultStream.ReadText | code/Results.cpp:320-357 | not good: nothing changes; a fault raises fail without advancing; otherwise it is a column read with the last reply's code |
| ResultStream.TextOf | code/Results.cpp:320-357 | the text read: every chunk up to its NUL, through the stopping reply (a faulted reply adds nothing); empty when not good |
| ResultStream.ReadTextGood | sql/Results.cpp:304-341 | with a good stream, the string read is the column read of the stopping reply, or a fault |
| ResultStream.SingleChunk | code/Results.cpp:336-341 | a single successful 32-unit chunk yields its C string and advances the column by one |
| ResultStream.NotGoodIsFrozen | code/Results.cpp:109-113 | from a failed state, any sequence of reads changes neither state nor column |
| ResultStream.FlagsOnlyRise | code/Results.cpp:109-477 | a raised flag stays raised after any sequence of reads: fail is a latch |
| ResultStream.GoodIffAllSucceed | code/Results.cpp:115-155 | from a good state, the stream is good after a sequence of reads iff every read succeeded |
| ResultStream.ReadsAdvance | code/Results.cpp:146-155 | n successful column reads advance the column by exactly n |
| ResultStream.RowThenColumns | code/Results.cpp:115-120 | a fetch followed by n successful column reads leaves the column at n + 1 |
| ResultStream.AppendChunks | code/Results.cpp:330-350 | the `do … while (SQL_SUCCESS_WITH_INFO)` loop appends exactly the collected chunks and stops at the stopping reply |
| ResultStream.Results.constructor | code/Results.hpp:211-213 | a new result stream has column 0 and a good state |
| ResultStream.Results.Ok | code/Results.hpp:240-242 | `operator bool` holds iff no flag is raised (null and fail in particular) |
| ResultStream.Results.Fetch | code/Results.cpp:109-120 | the read `>> Row` moves the cursor as `FetchRow` says |
| ResultStream.Results.ReadValue | code/Results.cpp:140-156 | a scalar read moves the cursor as `ReadColumn` says; the target changes only when the stream was good |
| ResultStream.Results.ReadString | code/Results.cpp:320-357 | the string read clears the target, then the cursor and the target are as `ReadText` and `TextOf` say |
| ResultStream.Results.Chunks | code/Results.cpp:328-357 | the loop and its conclusion, from an empty target and a good stream |
| ResultStream.Results.Conclude | code/Results.cpp:343-356 | after the loop: fail without advancing on a fault, else a column read with the final code |
| ResultStream.Results.ReadWString | code/Results.cpp:360-386 | the wide string read, which has no structured-exception path: same cursor and text as `ReadText`/`TextOf` |
| Binding.IndicatorOf | code/PreparedStatement.cpp:203-227 | the length indicator is `SQL_NTS` exactly for the string overloads |
| Binding.CallAsWritten | code/PreparedStatement.cpp:73-296 | as written, each overload's call: the counter, its C type, an SQL type that is its C type's natural SQL type for every overload except `Date`, which declares `SQL_TYPE_TIME`, and its column size and indicator |
| Binding.CTypeOf | code/PreparedStatement.cpp:73-296 | each overload's C type is the one whose natural SQL type is the overload's intended SQL type |
| Binding.SqlTypeAsWritten | code/PreparedStatement.cpp:229-241 | the SQL type as written agrees with the C type's natural SQL type exactly for the overloads other than `Date`, which passes `SQL_TYPE_TIME` |
| Binding.ColumnSize | code/PreparedStatement.cpp:73-296 | strings pass their length; among the others, exactly the struct types (date, time, timestamp, GUID, numeric) pass a non-zero size |
| Binding.CallOf | code/PreparedStatement.cpp:73-296 | corrected call: the SQL type is the one the C type names |
| Binding.IntegerWidths | code/PreparedStatement.cpp:73-175 | int8/uint8 bind as TINYINT, int16/uint16 as SMALLINT, int32/uint32 as INTEGER, int64/uint64 as BIGINT |
| Binding.AsWrittenMismatch | code/PreparedStatement.cpp:233-234 | the written SQL type agrees with the C type for every overload except `Date`, which declares a time |
| Binding.CorrectionIsLocal | sql/PreparedStatement.cpp:212-213 | the corrected call differs from the written one exactly for `Date` |
| Binding.CTypeIdentifiesOverload | code/PreparedStatement.cpp:73-296 | no two overloads pass the same C type |
| Binding.AfterBind | code/PreparedStatement.cpp:80-83 | a successful bind advances the counter by one (mod 2^16); a failed one throws before `++myNext` |
| Binding.BindsCount | code/PreparedStatement.cpp:73-84 | after a series of binds the counter has advanced by the number of successes, modulo 2^16 |
| Binding.FromReset | code/PreparedStatement.cpp:68-84 | from 1, n < 65535 successful binds leave the counter at n + 1 |
| Binding.FailedBindsStay | sql/PreparedStatement.cpp:52-63 | failing binds never move the counter |
| Binding.AfterExecute | code/PreparedStatement.cpp:57-66 | `execute` resets to 1 only when the statement ran |
| Binding.PreparedStatement.Prepare | code/PreparedStatement.cpp:43-55 | a statement exists iff `SQLPrepare` succeeded, and it starts at counter 1 |
| Binding.PreparedStatement.Ready | sql/PreparedStatement.cpp:27 | `myNext(1)` |
| Binding.PreparedStatement.Reset | code/PreparedStatement.cpp:68-71 | the counter is 1 whatever it was |
| Binding.PreparedStatement.Bind | code/PreparedStatement.cpp:73-84 | one call, as written (`SQL_TYPE_TIME` for a `Date`), at the current counter; the counter moves as `AfterBind`; throws iff the driver did not succeed |
| Binding.PreparedStatement.Execute | sql/PreparedStatement.cpp:38-45 | the counter moves as `AfterExecute`; throws iff the statement threw |
| Binding.PreparedUpdate.Prepare | sql/PreparedUpdate.cpp:28-33 | an update has both its own and the base counter at 1 |
| Binding.PreparedUpdate.Ready | sql/PreparedUpdate.hpp:37 | its own `myNext(1)` beside the base one |
| Binding.PreparedUpdate.Reset | sql/PreparedUpdate.cpp:35-38 | its own counter is 1; the base counter is untouched |
| Binding.PreparedUpdate.Bind | sql/PreparedUpdate.cpp:40-51 | the same call as written, at its own counter; only its own counter advances, the base counter is untouched; throws iff the driver did not succeed |
| Binding.PreparedUpdate.Execute | sql/PreparedUpdate.hpp:151-155 | its own counter is 1 even when the statement throws; the base counter resets only when it ran |
| Layout.LittleEndianRoundTrip | code/Date.hpp:106-108 | a field stored in k little-endian bytes reads back as itself when it fits |
| Layout.PackInjective | code/Date.hpp:106-108 | packing fields that fit their widths is injective, so `memcmp == 0` is field equality |
| Layout.FirstDifference | code/Guid.cpp:104-107 | unequal byte strings of the same length have a first differing byte, which decides `memcmp` |
| Values.DateBytesInjective | code/Date.hpp:106-112 | two dates have equal bytes iff they are equal |
| Values.TimeBytesInjective | code/Time.hpp:170-181 | two times have equal bytes iff they are equal |
| Values.TimestampBytesInjective | code/Timestamp.hpp:163-165 | two timestamps have equal bytes iff they are equal |
| Values.Combine | code/Timestamp.hpp:54-61 | the three-argument constructor's value has exactly the given date, time and fraction |
| Values.CombineParts | code/Timestamp.hpp:77-97 | a timestamp is its date, its time and its fraction |
| Values.Date.constructor | code/Date.hpp:52-54 | the default date is (0, 0, 0) |
| Values.Date.OfFields | code/Date.hpp:56-58 | the getters return the year, month and day given |
| Values.Date.OfValue | code/Date.hpp:60-62 | construction from a struct keeps it |
| Values.Date.SetYear | code/Date.hpp:78-80 | only the year changes |
| Values.Date.SetMonth | code/Date.hpp:86-88 | only the month changes |
| Values.Date.SetDay | sql/Date.hpp:75-77 | only the day changes |
| Values.Date.Assign | code/Date.hpp:100-104 | `operator=` replaces all fields |
| Values.Date.Equals | code/Date.hpp:106-108 | `==` (memcmp over the struct) holds iff year, month and day are equal |
| Values.Date.Differs | sql/Date.hpp:91-93 | `!=` is the negation of `==`, i.e. some field differs |
| Values.Time.constructor | code/Time.hpp:59-61 | the default time is 00:00:00 |
| Values.Time.OfFields | code/Time.hpp:69-74 | the getters return the hour, minute and second given |
| Values.Time.OfValue | code/Time.hpp:80-82 | construction from a struct keeps it |
| Values.Time.SetHour | code/Time.hpp:116-118 | only the hour changes |
| Values.Time.SetMinute | code/Time.hpp:132-134 | only the minute changes |
| Values.Time.SetSecond | code/Time.hpp:148-150 | only the second changes |
| Values.Time.Assign | code/Time.hpp:159-163 | `operator=` replaces all fields |
| Values.Time.Equals | code/Time.hpp:170-172 | `==` holds iff all three fields are equal |
| Values.Time.Differs | code/Time.hpp:179-181 | `!=` is the negation of `==` |
| Values.Timestamp.constructor | code/Timestamp.hpp:54-61 | `date()`, `time()` and `fraction()` return what was passed |
| Values.Timestamp.OfDate | code/Timestamp.hpp:54-61 | `Timestamp(date)` has time 00:00:00 and fraction 0 |
| Values.Timestamp.OfValue | code/Timestamp.hpp:63-65 | construction from a struct keeps it |
| Values.Timestamp.SetDate | code/Timestamp.hpp:81-86 | `date(d)`: then `date() == d`; time and fraction unchanged |
| Values.Timestamp.SetTime | code/Timestamp.hpp:92-97 | `time(t)`: then `time() == t`; date and fraction unchanged |
| Values.Timestamp.SetYear | code/Timestamp.hpp:103-105 | only the year changes |
| Values.Timestamp.SetMonth | code/Timestamp.hpp:111-113 | only the month changes |
| Values.Timestamp.SetDay | code/Timestamp.hpp:119-121 | only the day changes |
| Values.Timestamp.SetHour | code/Timestamp.hpp:127-129 | only the hour changes |
| Values.Timestamp.SetMinute | code/Timestamp.hpp:135-137 | only the minute changes |
| Values.Timestamp.SetSecond | code/Timestamp.hpp:143-145 | only the second changes |
| Values.Timestamp.SetFraction | code/Timestamp.hpp:147-149 | only the fraction changes |
| Values.Timestamp.Assign | code/Timestamp.hpp:157-161 | `operator=` replaces all fields |
| Values.Timestamp.Equals | code/Timestamp.hpp:163-165 | `==` holds iff date, time and fraction are all equal |
| Text.FilledShape | code/Date.cpp:52-53 | `setfill('0') << setw(w) << n` is digits only and denotes n |
| Text.FilledWidth | code/Time.cpp:51-53 | a zero-filled number below base^w is exactly w units wide |
| Text.ReadFilled | code/Time.cpp:51-53 | a zero-filled field reads back as its number |
| Formats.DateRoundTrip | code/Date.cpp:48-55 | reading `year-MM-DD` (signed unpadded year, month and day zero-filled to 2, wider when larger) gives back the date |
| Formats.DateText | code/Date.cpp:48-55 | the date insertion writes at least 7 units (a year digit, two dashes, two 2-wide fields) and starts with '-' for a negative year |
| Formats.TimeText | code/Time.cpp:48-55 | the time insertion writes at least 8 units: three 2-wide fields and two colons |
| Formats.TimestampText | sql/Timestamp.cpp:14-19 | the timestamp insertion writes at least 21 units: date, space, time, dot and a 4-wide fraction |
| Formats.TimeRoundTrip | code/Time.cpp:48-55 | reading `HH:MM:SS` gives back the time |
| Formats.TimestampRoundTrip | sql/Timestamp.cpp:14-19 | reading `date time.ffff` gives back the timestamp |
| Formats.DateTextInjective | sql/Date.cpp:29-36 | two dates print the same iff they are equal |
| Formats.TimeTextInjective | sql/Time.cpp:29-36 | two times print the same iff they are equal |
| Formats.TimestampTextInjective | sql/Timestamp.cpp:14-19 | two timestamps print the same iff they are equal, so `==` timestamps print identically |
| Formats.TimestampSplits | sql/Timestamp.cpp:16-17 | the output is the Date text, a space, the Time text, a dot and the zero-filled fraction |
| Formats.TimeTextWidth | code/Time.cpp:48-55 | with all fields below 100 the text is exactly 8 units with ':' at 2 and 5 |
| Formats.DateExample | code/Date.cpp:48-55 | `Date(2009,1,26)` prints `2009-01-26` |
| Formats.TimeExample | code/Time.cpp:48-55 | `Time(7,12,26)` prints `07:12:26` |
| Formats.TimestampExample | sql/Timestamp.cpp:16-17 | `Timestamp(Date(2010,2,27), Time(15,30,59))` prints `2010-02-27 15:30:59.0000` |
| Guids.GuidBytesInjective | code/Guid.cpp:99-102 | two GUIDs have equal bytes iff all fields are equal |
| Guids.ZeroBytes | code/Guid.cpp:34 | `Guid::zero` is sixteen zero bytes |
| Guids.RenderShape | code/Guid.cpp:123-140 | both overloads print 36 units with '-' at 8, 13, 18 and 23, and 8/4/4 zero-filled hex digits for Data1-Data3 |
| Guids.Render | code/Guid.cpp:123-159 | both `operator<<` overloads write 36 units with dashes at 8, 13, 18 and 23 |
| Guids.OverloadsShareHead | code/Guid.cpp:142-159 | narrow and wide output agree on the first 19 units |
| Guids.RenderRoundTrip | sql/Guid.cpp:106-138 | reading either overload's output gives back the GUID |
| Guids.RenderInjective | sql/Guid.cpp:106-121 | two GUIDs print the same iff they are equal |
| Guids.WideIsUuidText | code/Guid.cpp:142-159 | the wide output is hex digits in the 8-4-4-4-12 layout of RFC 4122, section 3 |
| Guids.NarrowIsNotUuidText | code/Guid.cpp:130-137 | the narrow output of the zero GUID is not in that layout: Data4 is inserted as characters |
| Guids.NarrowExample | sql/Guid.cpp:109-111 | `Guid(0x2c20b6bd, 0x04fb, 0x43da, …)` prints 36 units beginning `2c20b6bd-04fb-43da-` |
| Guids.Guid.constructor | code/Guid.cpp:63-66 | the default GUID is `zero`, all bytes 0 |
| Guids.Guid.OfParts | code/Guid.cpp:68-76 | a, b, c become Data1-Data3 and d…k become Data4[0..7] |
| Guids.Guid.OfValue | code/Guid.cpp:78-81 | construction from a struct keeps it |
| Guids.Guid.Assign | code/Guid.cpp:93-97 | `operator=` replaces the value |
| Guids.Guid.Equals | code/Guid.cpp:99-102 | `==` holds iff the values are equal |
| Guids.Guid.DiffersAsWritten | code/Guid.cpp:104-107 | as written, `!=` tests `memcmp == 1`; it only implies that `==` is false |
| Guids.DiffersAsWrittenMisses | code/Guid.cpp:104-107 | two GUIDs where the first one's Data1 low byte is smaller, such as zero against (1, 0, 0, 0…): every `memcmp` result the C standard allows for them is negative, so `!=` is false though they differ |
| Guids.Guid.Differs | sql/Guid.cpp:87-90 | corrected `!=` is exactly the negation of `==` |
| Guids.Guid.WideText | code/Guid.cpp:116-121 | the wide string conversion is in UUID layout and reads back as the GUID |
| Guids.Guid.NarrowTextAsWritten | code/Guid.cpp:109-114 | the narrow conversion as written: 36 units, the dashes, the wide text's first 19 units, and it reads back |
| Guids.Guid.NarrowText | code/Guid.cpp:109-114 | corrected narrow conversion: the UUID layout, equal to the wide text |
| Statuses.StrEqual | code/Status.cpp:78-82 | `strcmp == 0` holds iff the two C strings are equal |
| Statuses.Status.Raw | code/Status.cpp:67-70 | `raw()` is NUL-terminated within six units, so at most five |
| Statuses.Status.constructor | code/Status.cpp:42-45 | six NULs; `raw()` is empty |
| Statuses.Status.OfCode | code/Status.cpp:47-51 | exactly five units copied, then NUL at index 5 |
| Statuses.Status.Copy | code/Status.hpp:53 | the implicit copy constructor copies all six units of `myValue` |
| Statuses.Status.SetRaw | code/Status.cpp:72-76 | `raw(value)` copies exactly five units and puts NUL at index 5 |
| Statuses.Status.Assign | code/Status.hpp:53 | the implicit assignment copies all six units of `myValue` |
| Statuses.Status.Equals | code/Status.cpp:78-82 | `==` holds iff the `raw()` texts are equal |
| Statuses.Status.Differs | code/Status.cpp:84-88 | `!=` is the exact negation of `==` |
| Statuses.None | code/Status.cpp:32-35 | `none()` is the default, empty status |
| Statuses.ConnectionRejected | code/Status.cpp:37-40 | `connection_rejected()` reads `08004` |
| Diagnostics.Clamp | code/Diagnostic.cpp:44-46 | a length in 0..127 is kept; a larger one, or a negative one (which the comparison with the `unsigned int` `MessageLength - 1` turns into a large unsigned value), is clamped to `MessageLength - 1` = 127 |
| Diagnostics.StateOf | code/Diagnostic.cpp:41-47 | the status text is at most five units, and empty on `SQL_NO_DATA` |
| Diagnostics.StatusBuffer | code/Diagnostic.cpp:34-43 | the local status buffer has NUL at index 5 and yields `StateOf` |
| Diagnostics.MessageBuffer | code/Diagnostic.cpp:39-48 | the message is the driver's 128 units with NUL written at the clamped length |
| Diagnostics.Diagnostic.FromRecord | code/Diagnostic.cpp:32-49 | status is `StateOf(record)`; the message is NUL-terminated at the clamped length |
| Diagnostics.Diagnostic.Copy | code/Diagnostic.cpp:51-55 | the copy has the same status and all 128 message units |
| Diagnostics.Diagnostic.Assign | code/Diagnostic.cpp:67-72 | assignment copies the status and all 128 message units |
| Diagnostics.Diagnostic.What | code/Diagnostic.cpp:62-65 | `what()` is the message up to its NUL, shorter than the buffer |
| Diagnostics.Diagnostic.Text | code/Diagnostic.cpp:74-79 | streaming writes the status, then ": ", then the message |
| Handles.FreeStep | sql/Handle.cpp:41-49 | an ok handle is released once and becomes (null, ENV); a bad one changes nothing and releases nothing |
| Handles.FreeIdempotent | sql/Handle.cpp:41-49 | any n ≥ 1 calls of `free` end as one call does, with at most one release |
| Handles.Handle.constructor | sql/Handle.cpp:12-15 | `value()` and `type()` return what was given |
| Handles.Handle.Bad | sql/Handle.cpp:21-24 | `bad()` holds iff the value is `SQL_NULL_HANDLE` |
| Handles.Handle.Ok | sql/Handle.cpp:26-29 | `ok()` is the negation of `bad()` |
| Handles.Handle.Free | sql/Handle.cpp:41-49 | the new state and the release issued are those of `FreeStep` |
| ConnectionStrings.SplitTerminated | code/mysql.cpp:17-22 | `;`-terminated fields without `;` split back into the fields |
| ConnectionStrings.SqliteFormat | code/sqlite.cpp:13-19 | `Driver={SQLite ODBC Driver};Database=`, the database verbatim, `;`; length 38 + the database's |
| ConnectionStrings.SqliteText | code/sqlite.cpp:16-17 | the SQLite fields render as `Driver={SQLite ODBC Driver};Database=` + database + `;` for every database |
| ConnectionStrings.SqliteInjective | code/sqlite.cpp:16-17 | different databases give different connection strings |
| ConnectionStrings.MysqlFormat | code/mysql.cpp:13-24 | for every input the text is `Driver={MySQL ODBC 5.1 Driver};Server=localhost;Database=` + database + `;User=` + user + `;Password=` + password + `;Option=3;`, the values inserted verbatim; ends with `Option=3;`; splits at `;` into Driver, Server=localhost, Database, User, Password, Option when no value has a `;` |
| ConnectionStrings.MysqlText | code/mysql.cpp:17-22 | the six `;`-terminated MySQL fields render as `Driver={MySQL ODBC 5.1 Driver};Server=localhost;Database=` + database + `;User=` + user + `;Password=` + password + `;Option=3;` for every database, user and password |
| ConnectionStrings.MysqlNotEscaped | code/mysql.cpp:19-21 | values are not escaped: `("a;User=b", "c")` and `("a", "b;User=c")` give the same string |
| ConnectionStrings.MysqlShiftsUser | code/mysql.cpp:19-21 | for every database `a`, users `b`, `c` and password: the database `a;User=b` with user `c` gives the same string as the database `a` with user `b;User=c` |
| ConnectionStrings.Write | sql/sqlite.cpp:23-24 | a stream whose sentry fails is left as it is; otherwise the text is appended |
| ConnectionStrings.SqlitePut | sql/sqlite.cpp:21-30 | nothing is written when the sentry fails; otherwise exactly the `code/sqlite.cpp` format |
| ConnectionStrings.MysqlPut | sql/mysql.cpp:12-25 | nothing is written when the sentry fails; otherwise exactly the `code/mysql.cpp` format |
| ConnectionStrings.FirebirdSplit | sql/firebird.cpp:17-21 | when no value has a `;`, the text splits at `;` into DRIVER, DATABASE, USER, PASSWORD and `CHARSET=WIN1250`, in order, each `;`-terminated |
| ConnectionStrings.FirebirdText | sql/firebird.cpp:17-21 | the five `;`-terminated Firebird fields render as `DRIVER={Firebird/Interbase(r) Driver (*.fdb)};DATABASE=` + database + `;USER=` + user + `;PASSWORD=` + password + `;CHARSET=WIN1250;` for every database, user and password |
| ConnectionStrings.FirebirdConnectionString.constructor | sql/firebird.hpp:30-34 | the fields given are stored |
| ConnectionStrings.FirebirdConnectionString.SetDatabase | sql/firebird.hpp:42-44 | only the database changes |
| ConnectionStrings.FirebirdConnectionString.SetUser | sql/firebird.hpp:50-52 | only the user changes |
| ConnectionStrings.FirebirdConnectionString.SetPassword | sql/firebird.hpp:58-60 | only the password changes |
| ConnectionStrings.FirebirdConnectionString.Put | sql/firebird.cpp:12-24 | nothing is written when the sentry fails; otherwise the new text is the old text followed by `DRIVER={Firebird/Interbase(r) Driver (*.fdb)};DATABASE=` + database + `;USER=` + user + `;PASSWORD=` + password + `;CHARSET=WIN1250;`, the values inserted verbatim, and what follows the old text splits into the Firebird fields when no value has a `;` |
| ConnectionStrings.Driver.Sqlite | code/sqlite.cpp:25-28 | the connection hands exactly `format(database)` to `Driver` |
| ConnectionStrings.Driver.Mysql | code/mysql.cpp:30-34 | the connection hands exactly `format(database, username, password)` to `Driver` |

## Left out

- Everything the ODBC driver does is an input: `SQLFetch`, `SQLGetData`,
  `SQLBindParameter`, `SQLPrepare`, `SQLGetDiagRec`, `SQLFreeHandle`
  and `Statement::execute`. Environment and connection allocation,
  transactions, `Driver` connect and disconnect, `DirectStatement`,
  `sql/execute.cpp`, catalogs and data-source browsing are foreign calls
  and are not modelled.
- The `Status(Handle, index)` constructor: its value is whatever
  `SQLGetDiagRec` writes. `Diagnostic`'s own use of that call is modelled
  through `Diagnostics.Record`.
- Structured exceptions (`__try/__except`) in the string read become a
  `Faulted` reply that raises fail and returns without advancing.
- Floating-point binds and reads: only their effect on the counter, the
  column and the state is modelled (`Binding.ValueKind.Float`, `ReadValue`),
  not the values.
- `Numeric` is an opaque struct. It appears only in the bind table.
- `Row` (all its code is inside `#if 0`), `Results::skip` and
  `bind(const Null&)`: no implementation is shown.
- Stream state other than the text: `setfill` persisting after the
  insertion, `std::hex`/`std::dec` switching, and the `std::string`/
  `std::wstring` conversions are all taken as "the text the stream
  produced". The narrow and wide overloads use the same functions, except
  for `Guid`, where they differ.
- `value()` accessors returning mutable references: the model exposes the
  value field instead of aliases into it.
- Narrow and wide character units are not distinguished; both are `char`.
- `sql/sqlite.hpp` declares only `sqlite::Connection` and its constructor.
  The `sqlite::ConnectionString` of sql/sqlite.cpp:21 and the
  `mysql::LocalConnectionString` of sql/mysql.cpp:12, whose accessors
  `database()`, `user()` and `password()` supply the values, are declared
  in headers that are not part of this model. Their `put` overrides are
  modelled as functions of the database, user and password.
- `code/mysql.hpp` is not part of this model. The MySQL connection is
  modelled through `code/mysql.cpp`'s `format` and constructor.
- Strings.BasicString.AssignCStringAsWritten: requires that old length +
  new length fit the capacity reserved by `operator=`. Without that
  precondition the code writes past the buffer, which the model cannot
  express. `Strings.AssignAsWrittenOverruns` shows an input that breaks it.
- Guids.Guid.DiffersAsWritten: takes the `memcmp` result as a parameter
  constrained only by its sign. The C library fixes the sign of that
  result but not its magnitude.
- ResultStream.TextReplies, ResultStream.Results.ReadString and
  ResultStream.Results.ReadWString: every chunk reply is taken to leave a
  32-unit buffer holding a NUL. A reply that leaves the buffer untouched
  (an error or `SQL_NO_DATA`) is modelled as terminated. On a failing
  first call the source appends its uninitialized `buffer[32]`; that read
  of uninitialized memory is not modelled.
- Python bindings, command-line tools and test harnesses are not modelled.
  Their literal test values appear in the example lemmas.

## Findings

| source | as written | input that shows it | evidently intended | confidence | as-written member | corrected member |
|---|---|---|---|---|---|---|
| code/string.hpp:450-456 | `operator=` from a C string copies to `end()`, so it appends, and it reserves only the incoming length | a string "ab" of capacity 2 assigned "cd" | replace the contents, reserving the incoming length | not executed | Strings.BasicString.AssignCStringAsWritten | Strings.BasicString.AssignCString |
| code/Results.cpp:62-65 | `clear(bits)` is `myBits &= bits`, which keeps only the named flags | `clear(fail)` on {fail} leaves fail raised | reset the named flags (`myBits &= ~bits`) | not executed | ResultState.ClearAsWrittenKeeps | ResultState.ClearLowers |
| code/Results.hpp:155-157 | `operator bool` is `myBits == 0` (code/Results.cpp:72-75), though documented as false only when `get(fail())` | the state `null()` raises alone, which the documentation calls true and the code false | false exactly when fail is raised | not executed; the code may be the intended behaviour and the comment stale, so the rest of the model keeps the code's test | ResultState.GoodDiffersFromDoc | ResultState.State.GoodPerDoc |
| code/PreparedStatement.cpp:233-234 | the `Date` overload passes `SQL_TYPE_TIME` beside `SQL_C_TYPE_DATE` | binding any `Date` | `SQL_TYPE_DATE` | not executed | Binding.AsWrittenMismatch | Binding.CallOf |
| code/Guid.cpp:104-107 | `!=` is `memcmp(...) == 1` | zero against (1, 0, 0, 0…), whose memcmp is negative on every C library | `!(*this == other)`, as in sql/Guid.cpp | not executed | Guids.DiffersAsWrittenMisses | Guids.Guid.Differs |
| code/Guid.cpp:130-137 | narrow output inserts the `unsigned char` Data4 bytes as characters | the zero GUID prints NUL units after the third dash | two lowercase hex digits per byte, as the wide overload prints | not executed | Guids.NarrowIsNotUuidText | Guids.Guid.NarrowText |
