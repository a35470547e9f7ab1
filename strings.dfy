/**
  * String helpers shared by the whole model: the ordinal order that stands in for
  * `localeCompare`, prefix and suffix tests, `Array.prototype.join`, ASCII lower-casing
  * and the decimal rendering used by `toString().padStart(3, '0')`.
  */
module Strings {

  /** Ordinal lexicographic order on code points (the model of `a.localeCompare(b) < 0`). */
  predicate Less(a: string, b: string)
  {
    if |a| == 0 then |b| > 0
    else if |b| == 0 then false
    else if a[0] != b[0] then a[0] < b[0]
    else Less(a[1..], b[1..])
  }

  /** `a` does not sort after `b`. */
  predicate NotAfter(a: string, b: string)
  {
    !Less(b, a)
  }

  lemma {:induction false} LessIrreflexive(a: string)
    ensures !Less(a, a)
  {
    if |a| > 0 {
      LessIrreflexive(a[1..]);
    }
  }

  lemma {:induction false} LessAsymmetric(a: string, b: string)
    requires Less(a, b)
    ensures !Less(b, a)
  {
    if |a| > 0 && |b| > 0 && a[0] == b[0] {
      LessAsymmetric(a[1..], b[1..]);
    }
  }

  lemma {:induction false} LessTransitive(a: string, b: string, c: string)
    requires Less(a, b) && Less(b, c)
    ensures Less(a, c)
  {
    if |a| > 0 && |b| > 0 && |c| > 0 && a[0] == b[0] && b[0] == c[0] {
      LessTransitive(a[1..], b[1..], c[1..]);
    }
  }

  /** Distinct strings are always ordered one way or the other: the order is total. */
  lemma {:induction false} LessTotal(a: string, b: string)
    requires a != b
    ensures Less(a, b) || Less(b, a)
  {
    if |a| > 0 && |b| > 0 && a[0] == b[0] {
      assert a == [a[0]] + a[1..] && b == [b[0]] + b[1..];
      LessTotal(a[1..], b[1..]);
    }
  }

  /** `NotAfter` chains: the model's comparator is a total preorder. */
  lemma NotAfterTransitive(a: string, b: string, c: string)
    requires NotAfter(a, b) && NotAfter(b, c)
    ensures NotAfter(a, c)
  {
    if Less(c, a) {
      if a == b {
      } else if b == c {
      } else {
        LessTotal(a, b);
        LessTotal(b, c);
        LessTransitive(c, a, b);
      }
    }
  }

  /** A shared prefix does not change how two strings compare. */
  lemma {:induction false} LessCommonPrefix(p: string, a: string, b: string)
    ensures Less(p + a, p + b) <==> Less(a, b)
  {
    if |p| > 0 {
      assert (p + a)[0] == p[0] && (p + b)[0] == p[0];
      assert (p + a)[1..] == p[1..] + a;
      assert (p + b)[1..] == p[1..] + b;
      assert Less(p + a, p + b) == Less(p[1..] + a, p[1..] + b);
      LessCommonPrefix(p[1..], a, b);
    } else {
      assert p + a == a && p + b == b;
    }
  }

  /** Two strings that first differ at index `i` compare as their characters there do. */
  lemma {:induction false} LessAtFirstDifference(a: string, b: string, i: nat)
    requires i < |a| && i < |b|
    requires a[..i] == b[..i] && a[i] < b[i]
    ensures Less(a, b)
  {
    if i > 0 {
      assert a[1..][..i - 1] == a[..i][1..];
      assert b[1..][..i - 1] == b[..i][1..];
      LessAtFirstDifference(a[1..], b[1..], i - 1);
    }
  }

  predicate StartsWith(s: string, prefix: string)
  {
    |prefix| <= |s| && s[..|prefix|] == prefix
  }

  lemma FirstCharMismatch(s: string, prefix: string)
    requires |s| > 0 && |prefix| > 0 && s[0] != prefix[0]
    ensures !StartsWith(s, prefix)
  {
    if |prefix| <= |s| {
      assert s[..|prefix|][0] == s[0];
    }
  }

  predicate EndsWith(s: string, suffix: string)
  {
    |suffix| <= |s| && s[|s| - |suffix|..] == suffix
  }

  /** `parts.join(sep)`. */
  function Join(parts: seq<string>, sep: string): string
  {
    if |parts| == 0 then ""
    else if |parts| == 1 then parts[0]
    else parts[0] + sep + Join(parts[1..], sep)
  }

  predicate IsUpper(c: char)
  {
    'A' <= c <= 'Z'
  }

  predicate IsLower(c: char)
  {
    'a' <= c <= 'z'
  }

  predicate IsDigit(c: char)
  {
    '0' <= c <= '9'
  }

  /** `c.toLowerCase()` restricted to ASCII letters. */
  function LowerChar(c: char): (r: char)
    ensures IsUpper(c) ==> IsLower(r)
    ensures !IsUpper(c) ==> r == c
  {
    if IsUpper(c) then (c as int + 32) as char else c
  }

  /** `s.toLowerCase()` restricted to ASCII letters. */
  function ToLower(s: string): (r: string)
    ensures |r| == |s|
    ensures forall i :: 0 <= i < |s| ==> r[i] == LowerChar(s[i])
  {
    seq(|s|, i requires 0 <= i < |s| => LowerChar(s[i]))
  }

  function DigitChar(d: nat): (c: char)
    requires d < 10
    ensures IsDigit(c)
  {
    (d + '0' as int) as char
  }

  /** Decimal digits of a natural number, without leading zeros. */
  function NatToString(n: nat): string
  {
    if n < 10 then [DigitChar(n)] else NatToString(n / 10) + [DigitChar(n % 10)]
  }

  /** `n.toString()` for an integer. */
  function IntToString(n: int): string
  {
    if n < 0 then "-" + NatToString(-n) else NatToString(n)
  }

  /** `s.padStart(width, fill)` for a one-character fill string. */
  function PadStart(s: string, width: nat, fill: char): (r: string)
    ensures |r| == if |s| >= width then |s| else width
    ensures EndsWith(r, s)
  {
    if |s| >= width then s else seq(width - |s|, _ => fill) + s
  }

  /** For 0..999, padding to three places gives exactly the three decimal digits. */
  lemma ThreeDigits(n: nat)
    requires n <= 999
    ensures PadStart(IntToString(n), 3, '0') == [DigitChar(n / 100), DigitChar(n / 10 % 10), DigitChar(n % 10)]
  {
    if n < 10 {
      assert IntToString(n) == [DigitChar(n)];
    } else if n < 100 {
      assert NatToString(n / 10) == [DigitChar(n / 10)];
      assert IntToString(n) == [DigitChar(n / 10), DigitChar(n % 10)];
    } else {
      assert NatToString(n / 100) == [DigitChar(n / 100)];
      assert NatToString(n / 10) == [DigitChar(n / 100), DigitChar(n / 10 % 10)];
    }
  }

  /**
    * Three-place zero-padded numbers compare as the numbers do, whatever follows them:
    * this is what makes the count prefix of a sort key order by count.
    */
  lemma DigitOrder(m: nat, n: nat)
    requires m < n <= 999
    ensures m / 100 < 10 && m / 10 % 10 < 10 && n / 100 < 10 && n / 10 % 10 < 10
    ensures || m / 100 < n / 100
            || (m / 100 == n / 100 && m / 10 % 10 < n / 10 % 10)
            || (m / 100 == n / 100 && m / 10 % 10 == n / 10 % 10 && m % 10 < n % 10)
  {
    DecimalDigits(m);
    DecimalDigits(n);
  }

  lemma DecimalDigits(x: nat)
    requires x <= 999
    ensures x / 100 < 10 && x / 10 % 10 < 10 && x % 10 < 10
    ensures x == 100 * (x / 100) + 10 * (x / 10 % 10) + x % 10
  {
    var q := x / 10;
    assert x == 10 * q + x % 10;
    assert q == 10 * (q / 10) + q % 10;
    assert q / 10 == x / 100;
  }

  lemma DigitsLess(m0: nat, m1: nat, m2: nat, n0: nat, n1: nat, n2: nat, a: string, b: string)
    requires m0 < 10 && m1 < 10 && m2 < 10 && n0 < 10 && n1 < 10 && n2 < 10
    requires || m0 < n0 || (m0 == n0 && m1 < n1) || (m0 == n0 && m1 == n1 && m2 < n2)
    ensures Less([DigitChar(m0), DigitChar(m1), DigitChar(m2)] + a, [DigitChar(n0), DigitChar(n1), DigitChar(n2)] + b)
  {
    var x := [DigitChar(m0), DigitChar(m1), DigitChar(m2)] + a;
    var y := [DigitChar(n0), DigitChar(n1), DigitChar(n2)] + b;
    if m0 != n0 {
      LessAtFirstDifference(x, y, 0);
    } else if m1 != n1 {
      assert x[..1] == y[..1];
      LessAtFirstDifference(x, y, 1);
    } else {
      assert x[..2] == y[..2];
      LessAtFirstDifference(x, y, 2);
    }
  }

  lemma PaddedLess(m: nat, n: nat, a: string, b: string)
    requires m < n <= 999
    ensures Less(PadStart(IntToString(m), 3, '0') + a, PadStart(IntToString(n), 3, '0') + b)
  {
    ThreeDigits(m);
    ThreeDigits(n);
    DigitOrder(m, n);
    DigitsLess(m / 100, m / 10 % 10, m % 10, n / 100, n / 10 % 10, n % 10, a, b);
  }
}
