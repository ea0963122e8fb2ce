/** The GUID value type of code/Guid.cpp and sql/Guid.cpp: a SQLGUID
    struct, compared with `memcmp` over its 16 bytes and written in the
    8-4-4-4-12 layout of the UUID string representation (section 3 of
    RFC 4122). */
module Guids {

  import opened Units
  import Layout
  import Text

  /** The eight trailing bytes, `Data4[8]`. */
  type Node = s: seq<Uint8> | |s| == 8 witness [0, 0, 0, 0, 0, 0, 0, 0]

  /** SQLGUID: an unsigned 32-bit Data1, 16-bit Data2 and Data3, then Data4. */
  datatype GuidStruct = GuidStruct(data1: Uint32, data2: Uint16, data3: Uint16, data4: Node)

  /** The file-local `Zero` that `Guid::zero` is built from. */
  const Zero := GuidStruct(0, 0, 0, [0, 0, 0, 0, 0, 0, 0, 0])

  function GuidFields(v: GuidStruct): seq<nat> {
    [v.data1, v.data2, v.data3] + v.data4
  }

  const GuidWidths: seq<nat> := [4, 2, 2, 1, 1, 1, 1, 1, 1, 1, 1]

  /** The bytes `memcmp` compares. */
  function GuidBytes(v: GuidStruct): (b: seq<Uint8>)
    ensures |b| == 16
  {
    Layout.PackedLength(GuidFields(v), GuidWidths);
    Layout.Pack(GuidFields(v), GuidWidths)
  }

  lemma Pow256()
    ensures Text.Pow(256, 1) == 0x100 && Text.Pow(256, 2) == 0x1_0000
    ensures Text.Pow(256, 4) == 0x1_0000_0000
  {
    assert Text.Pow(256, 3) == 256 * Text.Pow(256, 2);
  }

  /** Two GUIDs agree byte for byte exactly when all eleven fields agree:
      SQLGUID has no padding. */
  lemma GuidBytesInjective(a: GuidStruct, b: GuidStruct)
    ensures GuidBytes(a) == GuidBytes(b) <==> a == b
  {
    Pow256();
    Layout.PackInjective(GuidFields(a), GuidFields(b), GuidWidths);
    if GuidFields(a) == GuidFields(b) {
      assert GuidFields(a)[..3] == GuidFields(b)[..3];
      assert GuidFields(a)[3..] == a.data4 && GuidFields(b)[3..] == b.data4;
    }
  }

  /** The default constructor's `memset(&myValue, 0, sizeof(myValue))`. */
  lemma ZeroBytes()
    ensures GuidBytes(Zero) == seq(16, _ => 0)
  {
    var fields := GuidFields(Zero);
    assert forall i :: 0 <= i < |fields| ==> fields[i] == 0;
    Layout.PackOfZeros(fields, GuidWidths);
  }

  // ---------------------------------------------------------------------
  // Text
  // ---------------------------------------------------------------------

  /** One `Data4` byte after `h2` (`setw(2)`, fill '0'). A wide stream
      promotes the `unsigned char` to `int` and prints two hex digits; a
      narrow stream inserts it as a character, so the field is '0'
      followed by the byte itself. */
  function ByteField(b: Uint8, wide: bool): (r: string)
    ensures |r| == 2
  {
    if wide then
      Hex2Width(b);
      Text.Filled(b, 16, 2)
    else
      Text.Pad([b as char], 2, '0')
  }

  lemma Hex2Width(b: Uint8)
    ensures |Text.Filled(b, 16, 2)| == 2
  {
    assert Text.Pow(16, 2) == 256;
    Text.FilledWidth(b, 16, 2);
  }

  function NodeText(bytes: seq<Uint8>, wide: bool): (r: string)
    ensures |r| == 2 * |bytes|
  {
    if bytes == [] then [] else ByteField(bytes[0], wide) + NodeText(bytes[1..], wide)
  }

  /** Five fields separated by dashes. */
  function Dashed(a: string, b: string, c: string, d: string, e: string): string {
    a + ("-" + (b + ("-" + (c + ("-" + (d + ("-" + e)))))))
  }

  /** `operator<<`: Data1 as `h8` hex, Data2 and Data3 as `h4` hex, then
      two and six `h2` byte fields. */
  function Render(v: GuidStruct, wide: bool): (r: string)
    ensures |r| == 36 && r[8] == '-' && r[13] == '-' && r[18] == '-' && r[23] == '-'
  {
    HexWidths(v);
    DashedParts(Text.Filled(v.data1, 16, 8), Text.Filled(v.data2, 16, 4), Text.Filled(v.data3, 16, 4),
                NodeText(v.data4[..2], wide), NodeText(v.data4[2..], wide));
    Dashed(Text.Filled(v.data1, 16, 8), Text.Filled(v.data2, 16, 4), Text.Filled(v.data3, 16, 4),
           NodeText(v.data4[..2], wide), NodeText(v.data4[2..], wide))
  }

  lemma HexWidths(v: GuidStruct)
    ensures |Text.Filled(v.data1, 16, 8)| == 8
    ensures |Text.Filled(v.data2, 16, 4)| == 4 && |Text.Filled(v.data3, 16, 4)| == 4
  {
    assert Text.Pow(16, 2) == 256;
    assert Text.Pow(16, 4) == 0x1_0000;
    assert Text.Pow(16, 8) == Text.Pow(16, 4) * Text.Pow(16, 4) by {
      assert Text.Pow(16, 6) == 256 * Text.Pow(16, 4);
    }
    Text.FilledWidth(v.data1, 16, 8);
    Text.FilledWidth(v.data2, 16, 4);
    Text.FilledWidth(v.data3, 16, 4);
  }

  /** Where a reader finds the five fields and the four dashes. */
  lemma DashedParts(a: string, b: string, c: string, d: string, e: string)
    requires |a| == 8 && |b| == 4 && |c| == 4 && |d| == 4 && |e| == 12
    ensures var s := Dashed(a, b, c, d, e);
      |s| == 36 && s[8] == '-' && s[13] == '-' && s[18] == '-' && s[23] == '-' &&
      s[..8] == a && s[9..13] == b && s[14..18] == c && s[19..23] == d && s[24..] == e
  {
    var s := Dashed(a, b, c, d, e);
    var r1 := b + ("-" + (c + ("-" + (d + ("-" + e)))));
    var r2 := c + ("-" + (d + ("-" + e)));
    var r3 := d + ("-" + e);
    assert s == a + ("-" + r1);
    assert s[9..] == r1;
    assert r1[5..] == r2 && s[14..] == r2;
    assert r2[5..] == r3 && s[19..] == r3;
    assert s[24..] == r3[5..];
  }

  /** Both overloads agree on the dashes and the three hex fields. */
  lemma {:induction false} RenderShape(v: GuidStruct, wide: bool)
    ensures var s := Render(v, wide);
      |s| == 36 && s[8] == '-' && s[13] == '-' && s[18] == '-' && s[23] == '-' &&
      s[..8] == Text.Filled(v.data1, 16, 8) &&
      s[9..13] == Text.Filled(v.data2, 16, 4) &&
      s[14..18] == Text.Filled(v.data3, 16, 4) &&
      s[19..23] == NodeText(v.data4[..2], wide) && s[24..] == NodeText(v.data4[2..], wide)
  {
    HexWidths(v);
    DashedParts(Text.Filled(v.data1, 16, 8), Text.Filled(v.data2, 16, 4), Text.Filled(v.data3, 16, 4),
                NodeText(v.data4[..2], wide), NodeText(v.data4[2..], wide));
  }

  /** The first 19 units (Data1 to Data3 and their dashes) are the same
      in the narrow and the wide output. */
  lemma OverloadsShareHead(v: GuidStruct)
    ensures Render(v, false)[..19] == Render(v, true)[..19]
  {
    RenderShape(v, false);
    RenderShape(v, true);
    var n, w := Render(v, false), Render(v, true);
    forall i | 0 <= i < 19 ensures n[i] == w[i] {
      if i < 8 {
        assert n[i] == n[..8][i] && w[i] == w[..8][i];
      } else if 9 <= i < 13 {
        assert n[i] == n[9..13][i - 9] && w[i] == w[9..13][i - 9];
      } else if 14 <= i < 18 {
        assert n[i] == n[14..18][i - 14] && w[i] == w[14..18][i - 14];
      }
    }
  }

  // ---------------------------------------------------------------------
  // Reading the text back
  // ---------------------------------------------------------------------

  function ReadByte(s: string, wide: bool): Option<Uint8>
    requires |s| == 2
  {
    if wide then
      match Text.ReadNumber(s, 16)
      case Some(n) => if n < 0x100 then Some(n) else None
      case None => None
    else if s[0] == '0' && (s[1] as int) < 0x100 then Some(s[1] as int)
    else None
  }

  function ReadNode(s: string, wide: bool): Option<seq<Uint8>>
    decreases |s|
  {
    if s == [] then Some([])
    else if |s| < 2 then None
    else match (ReadByte(s[..2], wide), ReadNode(s[2..], wide))
      case (Some(b), Some(rest)) => Some([b] + rest)
      case _ => None
  }

  /** Reads the output of `Render` back into the struct. */
  function ReadGuid(s: string, wide: bool): Option<GuidStruct> {
    if |s| != 36 || s[8] != '-' || s[13] != '-' || s[18] != '-' || s[23] != '-' then None
    else
      match (Text.ReadNumber(s[..8], 16), Text.ReadNumber(s[9..13], 16), Text.ReadNumber(s[14..18], 16),
             ReadNode(s[19..23] + s[24..], wide))
      case (Some(a), Some(b), Some(c), Some(node)) =>
        if a < 0x1_0000_0000 && b < 0x1_0000 && c < 0x1_0000 && |node| == 8
        then Some(GuidStruct(a, b, c, node)) else None
      case _ => None
  }

  lemma ByteRoundTrip(b: Uint8, wide: bool)
    ensures ReadByte(ByteField(b, wide), wide) == Some(b)
  {
    if wide {
      Text.ReadFilled(b, 16, 2);
    } else {
      assert ByteField(b, wide) == ['0', b as char];
    }
  }

  lemma {:induction false} NodeRoundTrip(bytes: seq<Uint8>, wide: bool)
    ensures ReadNode(NodeText(bytes, wide), wide) == Some(bytes)
    decreases |bytes|
  {
    if bytes != [] {
      var s := NodeText(bytes, wide);
      assert s[..2] == ByteField(bytes[0], wide);
      assert s[2..] == NodeText(bytes[1..], wide);
      ByteRoundTrip(bytes[0], wide);
      NodeRoundTrip(bytes[1..], wide);
      assert bytes == [bytes[0]] + bytes[1..];
    }
  }

  lemma {:induction false} NodeConcat(a: seq<Uint8>, b: seq<Uint8>, wide: bool)
    ensures NodeText(a + b, wide) == NodeText(a, wide) + NodeText(b, wide)
    decreases |a|
  {
    if a != [] {
      assert (a + b)[0] == a[0] && (a + b)[1..] == a[1..] + b;
      assert NodeText(a + b, wide) == ByteField(a[0], wide) + NodeText(a[1..] + b, wide);
      assert NodeText(a, wide) == ByteField(a[0], wide) + NodeText(a[1..], wide);
      NodeConcat(a[1..], b, wide);
      Associative(ByteField(a[0], wide), NodeText(a[1..], wide), NodeText(b, wide));
    } else {
      assert a + b == b;
    }
  }

  /** Either overload's output determines the GUID: reading it back gives
      the struct that was written. */
  lemma RenderRoundTrip(v: GuidStruct, wide: bool)
    ensures ReadGuid(Render(v, wide), wide) == Some(v)
  {
    var s := Render(v, wide);
    RenderShape(v, wide);
    Text.ReadFilled(v.data1, 16, 8);
    Text.ReadFilled(v.data2, 16, 4);
    Text.ReadFilled(v.data3, 16, 4);
    NodeConcat(v.data4[..2], v.data4[2..], wide);
    assert v.data4[..2] + v.data4[2..] == v.data4;
    NodeRoundTrip(v.data4, wide);
  }

  lemma RenderInjective(a: GuidStruct, b: GuidStruct, wide: bool)
    ensures Render(a, wide) == Render(b, wide) <==> a == b
  {
    RenderRoundTrip(a, wide);
    RenderRoundTrip(b, wide);
  }

  // ---------------------------------------------------------------------
  // The UUID string representation
  // ---------------------------------------------------------------------

  /** Section 3 of RFC 4122: 32 hexadecimal digits in groups of 8, 4, 4,
      4 and 12, separated by dashes. */
  predicate IsUuidText(s: string) {
    |s| == 36 && s[8] == '-' && s[13] == '-' && s[18] == '-' && s[23] == '-' &&
    Text.AllDigits(s[..8], 16) && Text.AllDigits(s[9..13], 16) && Text.AllDigits(s[14..18], 16) &&
    Text.AllDigits(s[19..23], 16) && Text.AllDigits(s[24..], 16)
  }

  lemma {:induction false} WideNodeDigits(bytes: seq<Uint8>)
    ensures Text.AllDigits(NodeText(bytes, true), 16)
    decreases |bytes|
  {
    if bytes != [] {
      Text.FilledShape(bytes[0], 16, 2);
      WideNodeDigits(bytes[1..]);
    }
  }

  /** The wide overload writes the RFC 4122 layout. */
  lemma WideIsUuidText(v: GuidStruct)
    ensures IsUuidText(Render(v, true))
  {
    RenderShape(v, true);
    Text.FilledShape(v.data1, 16, 8);
    Text.FilledShape(v.data2, 16, 4);
    Text.FilledShape(v.data3, 16, 4);
    WideNodeDigits(v.data4[..2]);
    WideNodeDigits(v.data4[2..]);
  }

  /** The narrow overload as written does not: for the zero GUID its
      20th unit is the byte 0 itself rather than a hex digit. */
  lemma NarrowIsNotUuidText()
    ensures !IsUuidText(Render(Zero, false))
  {
    RenderShape(Zero, false);
    var s := Render(Zero, false);
    assert s[19..23][1] == NodeText(Zero.data4[..2], false)[1] == NUL;
    assert !Text.IsDigit(NUL, 16);
  }

  /** The narrow output for the first GUID of the data-type tests,
      `(0x2c20b6bd, 0x04fb, 0x43da, 0x88, 0x72, ...)`, begins
      `2c20b6bd-04fb-43da-` whatever its trailing bytes. */
  lemma NarrowExample(v: GuidStruct)
    requires v.data1 == 0x2c20b6bd && v.data2 == 0x04fb && v.data3 == 0x43da
    ensures |Render(v, false)| == 36 && Render(v, false)[..19] == "2c20b6bd-04fb-43da-"
  {
    Data1Example();
    Data2Example();
    Data3Example();
    ExampleText(v);
  }

  lemma Data1Example()
    ensures Text.Filled(0x2c20b6bd, 16, 8) == "2c20b6bd"
  {
    assert Text.Numeral(0x2c20, 16) == "2c20";
    assert Text.Numeral(0x2c20b6bd, 16) == Text.Numeral(0x2c20b6b, 16) + "d";
    assert Text.Numeral(0x2c20b6b, 16) == Text.Numeral(0x2c20b6, 16) + "b";
    assert Text.Numeral(0x2c20b6, 16) == Text.Numeral(0x2c20b, 16) + "6";
    assert Text.Numeral(0x2c20b, 16) == Text.Numeral(0x2c20, 16) + "b";
  }

  lemma Data2Example()
    ensures Text.Filled(0x04fb, 16, 4) == "04fb"
  {
    assert Text.Numeral(0x04fb, 16) == "4fb";
  }

  lemma Data3Example()
    ensures Text.Filled(0x43da, 16, 4) == "43da"
  {
    assert Text.Numeral(0x43da, 16) == "43da";
  }

  lemma ExampleText(v: GuidStruct)
    requires Text.Filled(v.data1, 16, 8) == "2c20b6bd"
    requires Text.Filled(v.data2, 16, 4) == "04fb" && Text.Filled(v.data3, 16, 4) == "43da"
    ensures |Render(v, false)| == 36 && Render(v, false)[..19] == "2c20b6bd-04fb-43da-"
  {
    RenderShape(v, false);
    RenderHead(v, false);
    ExampleHead(Text.Filled(v.data1, 16, 8), Text.Filled(v.data2, 16, 4), Text.Filled(v.data3, 16, 4));
  }

  lemma ExampleHead(a: string, b: string, c: string)
    requires a == "2c20b6bd" && b == "04fb" && c == "43da"
    ensures a + ("-" + (b + ("-" + (c + "-")))) == "2c20b6bd-04fb-43da-"
  {
  }

  lemma RenderHead(v: GuidStruct, wide: bool)
    ensures Render(v, wide)[..19]
         == Text.Filled(v.data1, 16, 8) + ("-" + (Text.Filled(v.data2, 16, 4) + ("-" + (Text.Filled(v.data3, 16, 4) + "-"))))
  {
    HexWidths(v);
    DashedHead(Text.Filled(v.data1, 16, 8), Text.Filled(v.data2, 16, 4), Text.Filled(v.data3, 16, 4),
               NodeText(v.data4[..2], wide), NodeText(v.data4[2..], wide));
  }

  lemma DashedHead(a: string, b: string, c: string, d: string, e: string)
    requires |a| == 8 && |b| == 4 && |c| == 4
    ensures Dashed(a, b, c, d, e)[..19] == a + ("-" + (b + ("-" + (c + "-"))))
  {
    var s := Dashed(a, b, c, d, e);
    var h := a + ("-" + (b + ("-" + (c + "-"))));
    assert s == h + (d + ("-" + e));
  }

  // ---------------------------------------------------------------------
  // The class
  // ---------------------------------------------------------------------

  /** `Guid`: a SQLGUID with equality and conversions to text. */
  class Guid {

    var value: GuidStruct

    /** `Guid()`: every byte zero, the same value as `Guid::zero`. */
    constructor ()
      ensures value == Zero && GuidBytes(value) == seq(16, _ => 0)
    {
      value := Zero;
      ZeroBytes();
    }

    /** `Guid(a, b, c, d, ..., k)`. */
    constructor OfParts(a: Uint32, b: Uint16, c: Uint16,
                        d: Uint8, e: Uint8, f: Uint8, g: Uint8,
                        h: Uint8, i: Uint8, j: Uint8, k: Uint8)
      ensures value.data1 == a && value.data2 == b && value.data3 == c
      ensures value.data4 == [d, e, f, g, h, i, j, k]
    {
      value := GuidStruct(a, b, c, [d, e, f, g, h, i, j, k]);
    }

    /** `Guid(const Value&)`, which also builds `Guid::zero`. */
    constructor OfValue(v: GuidStruct)
      ensures value == v
    {
      value := v;
    }

    /** `operator=(const Value&)`. */
    method Assign(v: GuidStruct)
      modifies this
      ensures value == v
    {
      value := v;
    }

    /** `operator==`: `memcmp(...) == 0` over the 16 bytes. */
    function Equals(other: Guid): (r: bool)
      reads this, other
      ensures r <==> value == other.value
    {
      GuidBytesInjective(value, other.value);
      GuidBytes(value) == GuidBytes(other.value)
    }

    /** code/Guid.cpp's `operator!=`: `memcmp(...) == 1`, where `cmp` is
        whatever the C library's `memcmp` returned. It is never true of
        equal GUIDs, but it may be false of different ones. */
    function DiffersAsWritten(other: Guid, cmp: int): (r: bool)
      requires Layout.IsMemcmp(GuidBytes(value), GuidBytes(other.value), cmp)
      reads this, other
      ensures r ==> !Equals(other)
    {
      cmp == 1
    }

    /** sql/Guid.cpp's `operator!=`: `!(*this == other)`. */
    function Differs(other: Guid): (r: bool)
      reads this, other
      ensures r <==> !Equals(other)
      ensures r <==> value != other.value
    {
      !Equals(other)
    }

    /** `operator std::wstring()`: the wide stream output. */
    function WideText(): (s: string)
      reads this
      ensures IsUuidText(s) && ReadGuid(s, true) == Some(value)
    {
      WideIsUuidText(value);
      RenderRoundTrip(value, true);
      Render(value, true)
    }

    /** `operator std::string()` as written: the narrow stream output,
        whose last ten fields are '0' and a raw byte. */
    function NarrowTextAsWritten(): (s: string)
      reads this
      ensures |s| == 36 && s[8] == '-' && s[13] == '-' && s[18] == '-' && s[23] == '-'
      ensures s[..19] == WideText()[..19]
      ensures ReadGuid(s, false) == Some(value)
    {
      RenderShape(value, false);
      OverloadsShareHead(value);
      RenderRoundTrip(value, false);
      Render(value, false)
    }

    /** `operator std::string()` with the bytes printed in hex, as the wide
        overload does. */
    function NarrowText(): (s: string)
      reads this
      ensures IsUuidText(s) && ReadGuid(s, true) == Some(value)
      ensures s == WideText()
    {
      WideText()
    }
  }

  /** Two GUIDs the first byte tells apart, such as the zero GUID and
      `(1, 0, 0, ...)`: whatever `memcmp` returns for them, it is negative,
      so code/Guid.cpp's `!=` says they are not different. */
  lemma DiffersAsWrittenMisses(g: Guid, h: Guid, cmp: int)
    requires g.value.data1 % 256 < h.value.data1 % 256
    requires Layout.IsMemcmp(GuidBytes(g.value), GuidBytes(h.value), cmp)
    ensures cmp < 0 && !g.Equals(h) && !g.DiffersAsWritten(h, cmp)
  {
    FirstByte(g.value);
    FirstByte(h.value);
    var x, y := GuidBytes(g.value), GuidBytes(h.value);
    assert x[0] < y[0];
    assert Layout.FirstDifference(x, y) == 0;
  }

  /** `memcmp` sees the low byte of Data1 first. */
  lemma FirstByte(v: GuidStruct)
    ensures GuidBytes(v)[0] == v.data1 % 256
  {
    var f := GuidFields(v);
    assert f[0] == v.data1;
    assert GuidBytes(v) == Layout.LittleEndian(f[0], 4) + Layout.Pack(f[1..], GuidWidths[1..]);
  }
}
