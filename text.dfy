/** What the standard output streams produce for the insertions the value
    types use: an unsigned integer in decimal or lowercase hexadecimal, a
    signed integer in decimal, a field padded on the left to a minimum width
    with a fill character (`std::setw` and `std::setfill`, default right
    adjustment), and a matching reader used to state round trips. */
module Text {

  import opened Units

  /** The digit for `d` in bases up to 16, lowercase as `std::hex` prints it. */
  function DigitChar(d: nat): char
    requires d < 16
  {
    if d < 10 then ('0' as int + d) as char else ('a' as int + d - 10) as char
  }

  predicate IsDigit(c: char, base: nat) {
    ('0' <= c <= '9' && (c as int - '0' as int) < base) ||
    ('a' <= c <= 'f' && (c as int - 'a' as int) + 10 < base)
  }

  function DigitValue(c: char, base: nat): (v: nat)
    requires IsDigit(c, base)
    ensures v < base
  {
    if '0' <= c <= '9' then c as int - '0' as int else c as int - 'a' as int + 10
  }

  lemma DigitRoundTrip(d: nat, base: nat)
    requires d < base <= 16
    ensures IsDigit(DigitChar(d), base) && DigitValue(DigitChar(d), base) == d
  {
  }

  predicate AllDigits(s: string, base: nat) {
    forall i :: 0 <= i < |s| ==> IsDigit(s[i], base)
  }

  /** `n` without leading zeros; "0" for zero. */
  function Numeral(n: nat, base: nat): string
    requires 2 <= base <= 16
    decreases n
  {
    if n < base then [DigitChar(n)]
    else Numeral(n / base, base) + [DigitChar(n % base)]
  }

  /** The number a string of digits denotes, most significant digit first. */
  function ValueOf(s: string, base: nat): nat
    requires AllDigits(s, base)
  {
    if s == [] then 0
    else ValueOf(s[..|s| - 1], base) * base + DigitValue(s[|s| - 1], base)
  }

  /** Decimal insertion of a signed integer: a minus sign, then the magnitude. */
  function Signed(i: int): string {
    if i < 0 then "-" + Numeral(-i, 10) else Numeral(i, 10)
  }

  /** A field of at least `width` units: the fill goes to the left. */
  function Pad(s: string, width: nat, fill: char): (r: string)
    ensures |r| == if |s| < width then width else |s|
  {
    if |s| < width then seq(width - |s|, _ => fill) + s else s
  }

  /** The text ends the field and the fill makes up the rest. */
  lemma PadShape(s: string, width: nat, fill: char)
    ensures var r := Pad(s, width, fill);
      r[|r| - |s|..] == s && forall i :: 0 <= i < |r| - |s| ==> r[i] == fill
  {
  }

  /** A numeral zero-filled to `width`, as `setw(width) << setfill('0') << n`. */
  function Filled(n: nat, base: nat, width: nat): string
    requires 2 <= base <= 16
  {
    Pad(Numeral(n, base), width, '0')
  }

  function Pow(b: nat, k: nat): nat {
    if k == 0 then 1 else b * Pow(b, k - 1)
  }

  lemma {:induction false} NumeralShape(n: nat, base: nat)
    requires 2 <= base <= 16
    ensures |Numeral(n, base)| >= 1 && AllDigits(Numeral(n, base), base)
    ensures ValueOf(Numeral(n, base), base) == n
    decreases n
  {
    if n >= base {
      NumeralShape(n / base, base);
      NumeralStep(n, base);
    } else {
      NumeralSingle(n, base);
    }
  }

  lemma NumeralSingle(n: nat, base: nat)
    requires 2 <= base <= 16 && n < base
    ensures |Numeral(n, base)| >= 1 && AllDigits(Numeral(n, base), base)
    ensures ValueOf(Numeral(n, base), base) == n
  {
    DigitRoundTrip(n, base);
    var d := DigitChar(n);
    assert Numeral(n, base) == [] + [d];
    AppendDigit([], d, base);
  }

  /** One more digit: the step of the induction in NumeralShape. */
  lemma NumeralStep(n: nat, base: nat)
    requires 2 <= base <= n && base <= 16
    requires AllDigits(Numeral(n / base, base), base)
    requires ValueOf(Numeral(n / base, base), base) == n / base
    ensures |Numeral(n, base)| >= 1 && AllDigits(Numeral(n, base), base)
    ensures ValueOf(Numeral(n, base), base) == n
  {
    var q, r := n / base, n % base;
    DigitRoundTrip(r, base);
    var p := Numeral(q, base);
    var d := DigitChar(r);
    assert Numeral(n, base) == p + [d];
    AppendDigit(p, d, base);
    DivMod(n, base);
  }

  lemma AppendDigit(p: string, d: char, base: nat)
    requires AllDigits(p, base) && IsDigit(d, base)
    ensures AllDigits(p + [d], base)
    ensures ValueOf(p + [d], base) == ValueOf(p, base) * base + DigitValue(d, base)
  {
    var s := p + [d];
    assert s[..|s| - 1] == p;
  }

  lemma DivMod(n: nat, b: nat)
    requires 0 < b
    ensures n == (n / b) * b + n % b
  {
  }

  /** A numeral of a number below `base^k` has at most `k` digits. */
  lemma {:induction false} NumeralLength(n: nat, base: nat, k: nat)
    requires 2 <= base <= 16 && 1 <= k && n < Pow(base, k)
    ensures |Numeral(n, base)| <= k
    decreases k
  {
    if n >= base {
      assert Pow(base, 1) == base;
      assert k > 1;
      var q := n / base;
      assert Pow(base, k) == base * Pow(base, k - 1);
      DivBelow(n, base, Pow(base, k - 1));
      NumeralLength(q, base, k - 1);
    }
  }

  lemma DivBelow(n: nat, b: nat, p: nat)
    requires 0 < b && n < b * p
    ensures n / b < p
  {
    var q := n / b;
    assert q * b <= n;
    if q >= p {
      MulMonotone(p, q, b);
    }
  }

  lemma MulMonotone(p: nat, q: nat, b: nat)
    requires p <= q
    ensures p * b <= q * b
  {
  }

  /** Leading zeros do not change the value of a digit string. */
  lemma {:induction false} LeadingZeros(z: nat, s: string, base: nat)
    requires 2 <= base <= 16 && AllDigits(s, base)
    ensures AllDigits(seq(z, _ => '0') + s, base)
    ensures ValueOf(seq(z, _ => '0') + s, base) == ValueOf(s, base)
    decreases |s| + z
  {
    var t := seq(z, _ => '0') + s;
    assert forall i :: 0 <= i < |t| ==> t[i] == (if i < z then '0' else s[i - z]);
    if s == [] {
      if z > 0 {
        assert t[..|t| - 1] == seq(z - 1, _ => '0') + [];
        LeadingZeros(z - 1, [], base);
      }
    } else {
      assert t[..|t| - 1] == seq(z, _ => '0') + s[..|s| - 1];
      LeadingZeros(z, s[..|s| - 1], base);
    }
  }

  /** A zero-filled numeral is digits only and reads back as the number. */
  lemma FilledShape(n: nat, base: nat, width: nat)
    requires 2 <= base <= 16
    ensures |Filled(n, base, width)| >= 1 && AllDigits(Filled(n, base, width), base)
    ensures ValueOf(Filled(n, base, width), base) == n
  {
    var s := Numeral(n, base);
    NumeralShape(n, base);
    if |s| < width {
      LeadingZeros(width - |s|, s, base);
    }
  }

  /** For `n < base^k` with `k >= width`, the zero-filled field is exactly `k` wide
      when `k == width`: the case of every fixed-width hexadecimal field. */
  lemma FilledWidth(n: nat, base: nat, width: nat)
    requires 2 <= base <= 16 && 1 <= width && n < Pow(base, width)
    ensures |Filled(n, base, width)| == width
  {
    NumeralLength(n, base, width);
  }

  lemma DigitsHaveNo(s: string, base: nat, c: char)
    requires AllDigits(s, base) && !IsDigit(c, base)
    ensures c !in s
  {
  }

  /** Index of the first occurrence of a separator. */
  function IndexOf(s: string, sep: char): (i: nat)
    requires sep in s
    ensures i < |s| && s[i] == sep && sep !in s[..i]
  {
    if s[0] == sep then 0
    else
      var i := 1 + IndexOf(s[1..], sep);
      assert s[..i] == [s[0]] + s[1..][..i - 1];
      i
  }

  /** The fields between separators, as a reader of the output would cut it. */
  function Split(s: string, sep: char): (r: seq<string>)
    ensures |r| >= 1
    decreases |s|
  {
    if sep !in s then [s]
    else
      var i := IndexOf(s, sep);
      [s[..i]] + Split(s[i + 1..], sep)
  }

  lemma SplitJoin(a: string, sep: char, b: string)
    requires sep !in a
    ensures Split(a + ([sep] + b), sep) == [a] + Split(b, sep)
  {
    var s := a + ([sep] + b);
    assert s[|a|] == sep;
    assert forall j :: 0 <= j < |a| ==> s[j] == a[j];
    IndexOfAt(s, sep, |a|);
    assert s[..|a|] == a;
    assert s[|a| + 1..] == b;
  }

  /** The first occurrence is the only index before which there is none. */
  lemma IndexOfAt(s: string, sep: char, k: nat)
    requires k < |s| && s[k] == sep && forall j :: 0 <= j < k ==> s[j] != sep
    ensures sep in s && IndexOf(s, sep) == k
  {
    var i := IndexOf(s, sep);
    assert forall j :: 0 <= j < i ==> s[..i][j] == s[j];
  }

  lemma SplitLast(a: string, sep: char)
    requires sep !in a
    ensures Split(a, sep) == [a]
  {
  }

  /** Reads an unsigned number; `None` unless the text is a non-empty run of digits. */
  function ReadNumber(s: string, base: nat): Option<nat>
  {
    if |s| >= 1 && AllDigits(s, base) then Some(ValueOf(s, base)) else None
  }

  lemma ReadFilled(n: nat, base: nat, width: nat)
    requires 2 <= base <= 16
    ensures ReadNumber(Filled(n, base, width), base) == Some(n)
  {
    FilledShape(n, base, width);
  }
}
