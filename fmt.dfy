/**
 * The few formatting verbs of Go's fmt package that the runner relies on:
 * `%d` (thresholds written into the node environment, block indexes in error
 * texts), `%04d` (block file names), `%x` (staging keys, hashes in error
 * texts), and the byte-wise order of Go strings, which decides how block files
 * are listed.
 */
module Fmt {
  import opened Options

  /** Go's `byte`. */
  type byte = b: int | 0 <= b < 256

  type Bytes = seq<byte>

  predicate IsDigit(c: char) {
    '0' <= c <= '9'
  }

  predicate AllDigits(s: string) {
    forall i :: 0 <= i < |s| ==> IsDigit(s[i])
  }

  function DigitChar(d: nat): (c: char)
    requires d < 10
    ensures IsDigit(c) && c as int - '0' as int == d
  {
    ('0' as int + d) as char
  }

  function DigitValue(c: char): (d: nat)
    requires IsDigit(c)
    ensures d < 10
  {
    c as int - '0' as int
  }

  function Pow10(k: nat): (p: nat)
    ensures p >= 1
  {
    if k == 0 then 1 else 10 * Pow10(k - 1)
  }

  /** The decimal digits of n without leading zeros. */
  function Digits(n: nat): (s: string)
    ensures 1 <= |s| && AllDigits(s)
  {
    if n < 10 then [DigitChar(n)] else Digits(n / 10) + [DigitChar(n % 10)]
  }

  /** The number a string of decimal digits stands for. */
  function Value(s: string): nat
    requires AllDigits(s)
  {
    if s == [] then 0 else Value(s[..|s| - 1]) * 10 + DigitValue(s[|s| - 1])
  }

  /** `%d` of a Go int. */
  function Decimal(v: int): (s: string)
    ensures |s| >= 1
  {
    if v < 0 then "-" + Digits(-v) else Digits(v)
  }

  /** Reads back an optionally signed decimal numeral; the inverse of Decimal. */
  function ParseDecimal(s: string): Option<int> {
    if |s| > 1 && s[0] == '-' && AllDigits(s[1..]) then Some(-(Value(s[1..]) as int))
    else if |s| > 0 && AllDigits(s) then Some(Value(s))
    else None
  }

  function Zeros(k: nat): (s: string)
    ensures |s| == k && AllDigits(s)
  {
    if k == 0 then "" else "0" + Zeros(k - 1)
  }

  /** `%04d` of a non-negative int: at least four digits, padded with zeros. */
  function Pad4(n: nat): (s: string)
    ensures AllDigits(s)
  {
    var d := Digits(n);
    if |d| < 4 then Zeros(4 - |d|) + d else d
  }

  function HexChar(d: nat): char
    requires d < 16
  {
    if d < 10 then ('0' as int + d) as char else ('a' as int + d - 10) as char
  }

  function HexValue(c: char): (r: Option<nat>)
    ensures r.Some? ==> r.value < 16
  {
    if '0' <= c <= '9' then Some(c as int - '0' as int)
    else if 'a' <= c <= 'f' then Some(c as int - 'a' as int + 10)
    else None
  }

  /** `%x` of a byte slice: two lower-case hex digits per byte. */
  function Hex(bs: Bytes): (s: string)
    ensures |s| == 2 * |bs|
  {
    if bs == [] then "" else [HexChar(bs[0] / 16), HexChar(bs[0] % 16)] + Hex(bs[1..])
  }

  /** Reads back a string of lower-case hex digit pairs; the inverse of Hex. */
  function UnHex(s: string): Option<Bytes>
    decreases |s|
  {
    if |s| == 0 then Some([])
    else if |s| == 1 then None
    else match (HexValue(s[0]), HexValue(s[1]), UnHex(s[2..]))
      case (Some(hi), Some(lo), Some(rest)) => Some([hi * 16 + lo] + rest)
      case _ => None
  }

  /** Go's `bytes.Compare`: -1, 0 or 1 by the lexicographic order of the bytes. */
  function Compare(a: Bytes, b: Bytes): (c: int)
    ensures -1 <= c <= 1
    ensures c == 0 <==> a == b
  {
    if a == [] then (if b == [] then 0 else -1)
    else if b == [] then 1
    else if a[0] < b[0] then -1
    else if a[0] > b[0] then 1
    else (assert a == [a[0]] + a[1..] && b == [b[0]] + b[1..]; Compare(a[1..], b[1..]))
  }

  /** Go's `strings.HasPrefix`. */
  predicate HasPrefix(s: string, prefix: string) {
    |prefix| <= |s| && s[..|prefix|] == prefix
  }

  /** Go's `strings.HasSuffix`. */
  predicate HasSuffix(s: string, suffix: string) {
    |suffix| <= |s| && s[|s| - |suffix|..] == suffix
  }

  /** Go's `a < b` on strings: the byte-wise lexicographic order. */
  predicate LexLess(a: string, b: string) {
    |b| > 0 && (|a| == 0 || a[0] < b[0] || (a[0] == b[0] && LexLess(a[1..], b[1..])))
  }

  // ---------------------------------------------------------------------------
  // Decimal numerals

  lemma {:induction false} ValueOfDigits(n: nat)
    ensures Value(Digits(n)) == n
  {
    if n >= 10 {
      var s := Digits(n);
      assert s[..|s| - 1] == Digits(n / 10);
      ValueOfDigits(n / 10);
    }
  }

  /** Reading a numeral from its most significant digit. */
  lemma {:induction false} ValueFromFront(s: string)
    requires AllDigits(s) && |s| >= 1
    ensures Value(s) == DigitValue(s[0]) * Pow10(|s| - 1) + Value(s[1..])
  {
    var n := |s|;
    if n == 1 {
      assert s[..0] == [];
      assert s[1..] == [];
    } else {
      var init, tail := s[..n - 1], s[1..];
      ValueFromFront(init);
      assert init[1..] == tail[..n - 2];
      assert init[0] == s[0] && tail[n - 2] == s[n - 1];
      assert Value(tail) == Value(init[1..]) * 10 + DigitValue(s[n - 1]);
      ShiftDigit(DigitValue(s[0]), Pow10(n - 2), Value(init[1..]), DigitValue(s[n - 1]));
    }
  }

  /** Moving the leading digit's weight up one place. */
  lemma ShiftDigit(d: int, p: int, r: int, last: int)
    ensures (d * p + r) * 10 + last == d * (10 * p) + (r * 10 + last)
  {
  }

  lemma {:induction false} ValueBelow(s: string)
    requires AllDigits(s)
    ensures Value(s) < Pow10(|s|)
  {
    if s != [] {
      ValueBelow(s[..|s| - 1]);
    }
  }

  lemma {:induction false} ValueOfPadded(k: nat, s: string)
    requires AllDigits(s)
    ensures AllDigits(Zeros(k) + s) && Value(Zeros(k) + s) == Value(s)
  {
    if k > 0 {
      var t := Zeros(k) + s;
      assert t[1..] == Zeros(k - 1) + s;
      assert t[0] == '0';
      ValueOfPadded(k - 1, s);
      ValueFromFront(t);
      assert DigitValue(t[0]) * Pow10(|t| - 1) == 0;
    } else {
      assert Zeros(k) + s == s;
    }
  }

  lemma {:induction false} DigitsWidth(n: nat, k: nat)
    requires 1 <= k && n < Pow10(k)
    ensures |Digits(n)| <= k
  {
    if n >= 10 {
      assert k >= 2;
      assert n / 10 < Pow10(k - 1);
      DigitsWidth(n / 10, k - 1);
      assert |Digits(n)| == |Digits(n / 10)| + 1;
    }
  }

  /** Decimal has an inverse, so distinct thresholds give distinct strings. */
  lemma DecimalRoundTrip(v: int)
    ensures ParseDecimal(Decimal(v)) == Some(v)
  {
    if v < 0 {
      NegativeRoundTrip(v);
    } else {
      NaturalRoundTrip(v);
    }
  }

  lemma NegativeRoundTrip(v: int)
    requires v < 0
    ensures ParseDecimal(Decimal(v)) == Some(v)
  {
    var d := Digits(-v);
    assert Decimal(v) == "-" + d;
    assert ("-" + d)[1..] == d;
    ValueOfDigits(-v);
  }

  lemma NaturalRoundTrip(v: nat)
    ensures ParseDecimal(Decimal(v)) == Some(v)
  {
    var d := Digits(v);
    assert Decimal(v) == d;
    assert IsDigit(d[0]);
    ValueOfDigits(v);
  }

  /** `%04d` keeps the value and is exactly four digits wide below 10000. */
  lemma Pad4Value(n: nat)
    ensures Value(Pad4(n)) == n
    ensures n < 10000 <==> |Pad4(n)| == 4
  {
    var d := Digits(n);
    ValueOfDigits(n);
    if |d| < 4 {
      ValueOfPadded(4 - |d|, d);
    }
    if n < 10000 {
      assert Pow10(4) == 10000;
      DigitsWidth(n, 4);
    } else {
      ValueBelow(d);
      assert Pow10(4) == 10000;
      if |d| <= 4 {
        PowMonotone(|d|, 4);
        assert false;
      }
    }
  }

  lemma {:induction false} PowMonotone(i: nat, j: nat)
    requires i <= j
    ensures Pow10(i) <= Pow10(j)
  {
    if i < j {
      PowMonotone(i, j - 1);
    }
  }

  // ---------------------------------------------------------------------------
  // Hex

  lemma {:induction false} UnHexOfHex(bs: Bytes)
    ensures UnHex(Hex(bs)) == Some(bs)
  {
    if bs != [] {
      var s := Hex(bs);
      assert s[2..] == Hex(bs[1..]);
      UnHexOfHex(bs[1..]);
      assert HexValue(s[0]) == Some(bs[0] / 16);
      assert HexValue(s[1]) == Some(bs[0] % 16);
      assert (bs[0] / 16) * 16 + bs[0] % 16 == bs[0];
      assert [bs[0]] + bs[1..] == bs;
    }
  }

  /** Where the middle part of a three-part concatenation sits. */
  lemma Middle(pre: string, s: string, post: string)
    ensures (pre + s + post)[..|pre|] == pre
    ensures (pre + s + post)[|pre|..|pre| + |s|] == s
  {
  }

  // ---------------------------------------------------------------------------
  // Lexicographic order

  lemma {:induction false} LexIrreflexive(a: string)
    ensures !LexLess(a, a)
  {
    if a != [] {
      LexIrreflexive(a[1..]);
    }
  }

  /** A shared prefix does not affect the order. */
  lemma {:induction false} LexSharedPrefix(p: string, a: string, b: string)
    ensures LexLess(p + a, p + b) <==> LexLess(a, b)
  {
    if p != [] {
      assert (p + a)[0] == p[0] == (p + b)[0];
      assert (p + a)[1..] == p[1..] + a;
      assert (p + b)[1..] == p[1..] + b;
      LexSharedPrefix(p[1..], a, b);
      assert LexLess(p + a, p + b) == LexLess(p[1..] + a, p[1..] + b);
    } else {
      assert p + a == a && p + b == b;
    }
  }

  /** Two different strings of one length are ordered by their first difference, whatever follows. */
  lemma {:induction false} LexEqualLength(a: string, b: string, s: string, t: string)
    requires |a| == |b| && a != b
    ensures LexLess(a + s, b + t) <==> LexLess(a, b)
  {
    if a[0] == b[0] {
      assert a[1..] != b[1..];
      assert (a + s)[1..] == a[1..] + s;
      assert (b + t)[1..] == b[1..] + t;
      LexEqualLength(a[1..], b[1..], s, t);
    }
  }

  lemma MulStep(x: nat, y: nat, p: nat)
    requires x < y
    ensures x * p + p <= y * p
  {
    var d := y - x;
    assert y * p == x * p + d * p;
    assert d * p >= p by {
      assert d * p == p + (d - 1) * p;
    }
  }

  /** On numerals of one width, the string order is the numeric order. */
  lemma {:induction false} LexDigits(a: string, b: string)
    requires AllDigits(a) && AllDigits(b) && |a| == |b|
    ensures LexLess(a, b) <==> Value(a) < Value(b)
  {
    if a != [] {
      var n := |a|;
      ValueFromFront(a);
      ValueFromFront(b);
      ValueBelow(a[1..]);
      ValueBelow(b[1..]);
      LexDigits(a[1..], b[1..]);
      var x, y, p := DigitValue(a[0]), DigitValue(b[0]), Pow10(n - 1);
      if x < y {
        MulStep(x, y, p);
        assert a[0] < b[0];
      } else if x > y {
        MulStep(y, x, p);
        assert b[0] < a[0];
      } else {
        assert a[0] == b[0];
      }
    }
  }
}
