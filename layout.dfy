/** The bytes of the SQL structs the value types wrap, as `memcmp` sees them:
    each field in declaration order, little-endian, with no padding between
    fields (every field of SQL_DATE_STRUCT, SQL_TIME_STRUCT,
    SQL_TIMESTAMP_STRUCT and SQLGUID is aligned to its own size). */
module Layout {

  import opened Units
  import Text

  /** The low `k` bytes of `n`, least significant first. */
  function LittleEndian(n: nat, k: nat): (r: seq<Uint8>)
    ensures |r| == k
  {
    if k == 0 then [] else [n % 256] + LittleEndian(n / 256, k - 1)
  }

  function FromLittleEndian(s: seq<Uint8>): nat {
    if s == [] then 0 else s[0] + 256 * FromLittleEndian(s[1..])
  }

  lemma {:induction false} LittleEndianRoundTrip(n: nat, k: nat)
    requires n < Text.Pow(256, k)
    ensures FromLittleEndian(LittleEndian(n, k)) == n
    decreases k
  {
    if k > 0 {
      assert Text.Pow(256, k) == 256 * Text.Pow(256, k - 1);
      Text.DivBelow(n, 256, Text.Pow(256, k - 1));
      LittleEndianRoundTrip(n / 256, k - 1);
      assert LittleEndian(n, k)[1..] == LittleEndian(n / 256, k - 1);
    }
  }

  /** Two's complement of a 16-bit signed field. */
  function Unsigned16(i: Int16): (u: Uint16)
    ensures (i >= 0 ==> u == i) && (i < 0 ==> u == i + 0x1_0000)
  {
    if i < 0 then i + 0x1_0000 else i
  }

  predicate Fits(values: seq<nat>, widths: seq<nat>) {
    |values| == |widths| &&
    forall i :: 0 <= i < |values| ==> values[i] < Text.Pow(256, widths[i])
  }

  /** The fields laid end to end. */
  function Pack(values: seq<nat>, widths: seq<nat>): (r: seq<Uint8>)
    requires |values| == |widths|
    decreases |values|
  {
    if values == [] then []
    else LittleEndian(values[0], widths[0]) + Pack(values[1..], widths[1..])
  }

  /** The size of a struct whose fields have these sizes. */
  function Sum(widths: seq<nat>): nat {
    if widths == [] then 0 else widths[0] + Sum(widths[1..])
  }

  lemma {:induction false} PackedLength(values: seq<nat>, widths: seq<nat>)
    requires |values| == |widths|
    ensures |Pack(values, widths)| == Sum(widths)
    decreases |values|
  {
    if values != [] {
      PackedLength(values[1..], widths[1..]);
    }
  }

  /** A struct of zero fields is all zero bytes, as `memset` leaves it. */
  lemma {:induction false} PackOfZeros(values: seq<nat>, widths: seq<nat>)
    requires |values| == |widths| && forall i :: 0 <= i < |values| ==> values[i] == 0
    ensures Pack(values, widths) == seq(Sum(widths), _ => 0)
    decreases |values|
  {
    if values != [] {
      LittleEndianOfZero(widths[0]);
      PackOfZeros(values[1..], widths[1..]);
    }
  }

  lemma {:induction false} LittleEndianOfZero(k: nat)
    ensures LittleEndian(0, k) == seq(k, _ => 0)
  {
    if k > 0 {
      LittleEndianOfZero(k - 1);
    }
  }

  /** Byte-wise equality of a padding-free struct is field-wise equality. */
  lemma {:induction false} PackInjective(v: seq<nat>, u: seq<nat>, widths: seq<nat>)
    requires Fits(v, widths) && Fits(u, widths)
    ensures Pack(v, widths) == Pack(u, widths) <==> v == u
    decreases |v|
  {
    if v != [] && Pack(v, widths) == Pack(u, widths) {
      var w := widths[0];
      var a, b := Pack(v, widths), Pack(u, widths);
      assert a[..w] == LittleEndian(v[0], w);
      assert b[..w] == LittleEndian(u[0], w);
      LittleEndianRoundTrip(v[0], w);
      LittleEndianRoundTrip(u[0], w);
      assert a[w..] == Pack(v[1..], widths[1..]);
      assert b[w..] == Pack(u[1..], widths[1..]);
      assert Fits(v[1..], widths[1..]) && Fits(u[1..], widths[1..]) by {
        forall i | 0 <= i < |v| - 1 ensures v[1..][i] < Text.Pow(256, widths[1..][i]) {
          assert v[1..][i] == v[i + 1] && widths[1..][i] == widths[i + 1];
        }
        forall i | 0 <= i < |u| - 1 ensures u[1..][i] < Text.Pow(256, widths[1..][i]) {
          assert u[1..][i] == u[i + 1] && widths[1..][i] == widths[i + 1];
        }
      }
      PackInjective(v[1..], u[1..], widths[1..]);
      assert v == [v[0]] + v[1..] && u == [u[0]] + u[1..];
    }
  }

  /** Index of the first byte where two equally long buffers differ. */
  function FirstDifference(x: seq<Uint8>, y: seq<Uint8>): (k: nat)
    requires |x| == |y| && x != y
    ensures k < |x| && x[k] != y[k] && x[..k] == y[..k]
  {
    if x[0] != y[0] then 0
    else
      assert x == [x[0]] + x[1..] && y == [y[0]] + y[1..];
      var k := 1 + FirstDifference(x[1..], y[1..]);
      assert x[..k] == [x[0]] + x[1..][..k - 1];
      assert y[..k] == [y[0]] + y[1..][..k - 1];
      k
  }

  /** What the C standard promises of `memcmp(x, y, n) == r`: zero exactly
      for equal buffers, otherwise the sign of the first differing byte
      (compared as unsigned char). The magnitude is left to the library. */
  predicate IsMemcmp(x: seq<Uint8>, y: seq<Uint8>, r: int)
    requires |x| == |y|
  {
    (r == 0 <==> x == y) &&
    (x != y ==> (r < 0 <==> x[FirstDifference(x, y)] < y[FirstDifference(x, y)]))
  }
}
