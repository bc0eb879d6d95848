/**
 * The string operations the modelled code uses: Python's decimal rendering of
 * integers (`str(n)`, `"%d"`, `"%02d"`, `"%4d"`), `str.endswith`, `s[:-k]`
 * and `s.split(sep)[-1]`.
 */
module Text {

  predicate IsDigit(c: char) {
    '0' <= c <= '9'
  }

  function DigitChar(d: nat): (c: char)
    requires d < 10
    ensures IsDigit(c) && (c as int) - ('0' as int) == d
  {
    (('0' as int) + d) as char
  }

  /** Decimal rendering of a natural number without leading zeros, as `str(n)`. */
  function Decimal(n: nat): (s: string)
    ensures 1 <= |s|
    ensures forall i :: 0 <= i < |s| ==> IsDigit(s[i])
    decreases n
  {
    if n < 10 then [DigitChar(n)] else Decimal(n / 10) + [DigitChar(n % 10)]
  }

  /** The number a string of decimal digits denotes. */
  function DecimalValue(s: string): nat
    requires forall i :: 0 <= i < |s| ==> IsDigit(s[i])
  {
    if s == [] then 0
    else DecimalValue(s[..|s| - 1]) * 10 + DigitValue(s[|s| - 1])
  }

  function DigitValue(c: char): nat
    requires IsDigit(c)
  {
    (c as int) - ('0' as int)
  }

  /** Reading back a rendered number gives the number. */
  lemma {:induction false} DecimalRoundTrip(n: nat)
    ensures DecimalValue(Decimal(n)) == n
    decreases n
  {
    if n >= 10 {
      var s := Decimal(n);
      assert s[..|s| - 1] == Decimal(n / 10);
      DecimalRoundTrip(n / 10);
    }
  }

  /** Distinct numbers render as distinct strings. */
  lemma DecimalInjective(a: nat, b: nat)
    requires Decimal(a) == Decimal(b)
    ensures a == b
  {
    DecimalRoundTrip(a);
    DecimalRoundTrip(b);
  }

  /** `s` preceded by enough copies of `pad` to reach `width` characters. */
  function PadLeft(s: string, width: nat, pad: char): (r: string)
    ensures |r| == if |s| >= width then |s| else width
    ensures r[|r| - |s|..] == s
    ensures forall i :: 0 <= i < |r| - |s| ==> r[i] == pad
  {
    if |s| >= width then s else seq(width - |s|, _ => pad) + s
  }

  /** Python's `"%0<width>d" % n` for a natural number. */
  function ZeroPadded(n: nat, width: nat): (s: string)
    ensures forall i :: 0 <= i < |s| ==> IsDigit(s[i])
  {
    PadLeft(Decimal(n), width, '0')
  }

  /** Python's `"%<width>d" % n` for a natural number: padded with spaces. */
  function SpacePadded(n: nat, width: nat): (s: string)
    ensures forall i :: 0 <= i < |s| ==> IsDigit(s[i]) || s[i] == ' '
  {
    PadLeft(Decimal(n), width, ' ')
  }

  /** Characters `from..to` of `s` are digits that denote `value`. */
  predicate FieldIs(s: string, from: nat, to: nat, value: nat) {
    && from <= to <= |s|
    && (forall i :: from <= i < to ==> IsDigit(s[i]))
    && DecimalValue(s[from..to]) == value
  }

  predicate EndsWith(s: string, suffix: string) {
    |suffix| <= |s| && s[|s| - |suffix|..] == suffix
  }

  /** Python's `s[:-k]` for `k > 0`: the empty string when `s` is shorter than `k`. */
  function DropLast(s: string, k: nat): (r: string)
    ensures |s| >= k ==> s == r + s[|s| - k..]
    ensures |s| < k ==> r == ""
  {
    if |s| >= k then s[..|s| - k] else ""
  }

  /** Python's `s.split(sep)[-1]`: the text after the last `sep`, or all of `s` when there is none. */
  function AfterLast(s: string, sep: char): (r: string)
    ensures sep !in r
    ensures |r| <= |s| && r == s[|s| - |r|..]
    ensures |r| < |s| ==> s[|s| - |r| - 1] == sep
    ensures sep !in s ==> r == s
  {
    if s == [] then ""
    else if s[|s| - 1] == sep then ""
    else AfterLast(s[..|s| - 1], sep) + [s[|s| - 1]]
  }

  /** Whatever precedes the last separator, the text after it is recovered. */
  lemma {:induction false} AfterLastOfJoin(p: string, sep: char, q: string)
    requires sep !in q
    ensures AfterLast(p + [sep] + q, sep) == q
    decreases |q|
  {
    var s := p + [sep] + q;
    if q != [] {
      assert s[..|s| - 1] == p + [sep] + q[..|q| - 1];
      AfterLastOfJoin(p, sep, q[..|q| - 1]);
      assert q == q[..|q| - 1] + [q[|q| - 1]];
    } else {
      assert s[|s| - 1] == sep;
    }
  }

  function Pow10(w: nat): (p: nat)
    ensures p >= 1
  {
    if w == 0 then 1 else 10 * Pow10(w - 1)
  }

  /** A number below 10^w takes at most w digits, one of at least 10^(w-1) at least w. */
  lemma {:induction false} DecimalLength(n: nat, w: nat)
    requires 1 <= w
    ensures n < Pow10(w) ==> |Decimal(n)| <= w
    ensures Pow10(w - 1) <= n ==> w <= |Decimal(n)|
    decreases w
  {
    if w > 1 {
      if n >= 10 {
        DecimalLength(n / 10, w - 1);
      } else {
        assert Pow10(w - 1) >= 10 by { assert Pow10(w - 1) == 10 * Pow10(w - 2); }
      }
    }
  }

  /** Leading zeros do not change the number a digit string denotes. */
  lemma {:induction false} LeadingZeros(z: nat, s: string)
    requires forall i :: 0 <= i < |s| ==> IsDigit(s[i])
    ensures DecimalValue(seq(z, _ => '0') + s) == DecimalValue(s)
    decreases |s|, z
  {
    var zs := seq(z, _ => '0');
    if s == [] {
      if z > 0 {
        assert (zs + s)[..z - 1] == seq(z - 1, _ => '0') + [];
        LeadingZeros(z - 1, []);
      } else {
        assert zs + s == [];
      }
    } else {
      assert (zs + s)[..|zs + s| - 1] == zs + s[..|s| - 1];
      LeadingZeros(z, s[..|s| - 1]);
    }
  }

  /** A zero-padded field of a number below 10^w has exactly w digits and reads back as the number. */
  lemma ZeroPaddedField(n: nat, w: nat)
    requires 1 <= w && n < Pow10(w)
    ensures |ZeroPadded(n, w)| == w
    ensures forall i :: 0 <= i < w ==> IsDigit(ZeroPadded(n, w)[i])
    ensures DecimalValue(ZeroPadded(n, w)) == n
  {
    DecimalLength(n, w);
    DecimalRoundTrip(n);
    var d := Decimal(n);
    if |d| < w {
      assert ZeroPadded(n, w) == seq(w - |d|, _ => '0') + d;
      LeadingZeros(w - |d|, d);
    } else {
      assert ZeroPadded(n, w) == d;
    }
  }
}
