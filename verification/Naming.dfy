// The names of an attempt's CRs (src/controller/transfer.rs).
module Naming {
  function Digit(d: nat): char
    requires d < 10
  {
    "0123456789"[d]
  }

  function Decimal(n: nat): (s: string)
    ensures s != "" && forall ch <- s :: IsDigit(ch)
  {
    if n < 10 then [Digit(n)] else Decimal(n / 10) + [Digit(n % 10)]
  }

  function BkpName(evac: string, attempt: nat): string {
    evac + "-evac-a" + Decimal(attempt)
  }

  function RstName(evac: string, attempt: nat): string {
    evac + "-evacr-a" + Decimal(attempt)
  }

  lemma {:induction false} DecimalInjective(m: nat, n: nat)
    requires Decimal(m) == Decimal(n)
    ensures m == n
  {
    var s, t := Decimal(m), Decimal(n);
    assert s[|s| - 1] == Digit(m % 10) && t[|t| - 1] == Digit(n % 10);
    DigitInjective(m % 10, n % 10);
    if m >= 10 && n >= 10 {
      assert s[..|s| - 1] == Decimal(m / 10) && t[..|t| - 1] == Decimal(n / 10);
      DecimalInjective(m / 10, n / 10);
    } else {
      assert m >= 10 ==> |Decimal(m)| >= 2;
      assert n >= 10 ==> |Decimal(n)| >= 2;
    }
  }

  lemma DigitInjective(a: nat, b: nat)
    requires a < 10 && b < 10 && Digit(a) == Digit(b)
    ensures a == b
  {
  }

  predicate IsDigit(ch: char) {
    '0' <= ch <= '9'
  }

  // Where the digits at the end of a name begin.
  predicate DigitsFrom(s: string, i: nat) {
    0 < i <= |s| && !IsDigit(s[i - 1]) && forall k | i <= k < |s| :: IsDigit(s[k])
  }

  lemma DigitsAfterMark(x: string, mark: string, d: string)
    requires mark != "" && !IsDigit(mark[|mark| - 1]) && forall ch <- d :: IsDigit(ch)
    ensures DigitsFrom(x + mark + d, |x| + |mark|)
  {
    var s := x + mark + d;
    assert s[|x| + |mark| - 1] == mark[|mark| - 1];
    forall k | |x| + |mark| <= k < |s| ensures IsDigit(s[k]) {
      assert s[k] == d[k - |x| - |mark|] && s[k] in d;
    }
  }

  // A tail of digits after a marker that ends in a letter splits one way only.
  lemma SplitOnce(x: string, y: string, mark: string, d: string, e: string)
    requires x + mark + d == y + mark + e
    requires mark != "" && !IsDigit(mark[|mark| - 1])
    requires (forall ch <- d :: IsDigit(ch)) && (forall ch <- e :: IsDigit(ch))
    ensures x == y && d == e
  {
    var s := x + mark + d;
    DigitsAfterMark(x, mark, d);
    DigitsAfterMark(y, mark, e);
    assert |x| == |y|;
    assert x == s[..|x|] && y == s[..|y|] && d == s[|x| + |mark|..] && e == s[|y| + |mark|..];
  }

  // Names of distinct evacuations or attempts never collide, within a kind or
  // across the two.
  lemma NamesAreDistinct(evac: string, n: nat, other: string, m: nat)
    ensures BkpName(evac, n) == BkpName(other, m) <==> evac == other && n == m
    ensures RstName(evac, n) == RstName(other, m) <==> evac == other && n == m
    ensures BkpName(evac, n) != RstName(other, m)
  {
    if BkpName(evac, n) == BkpName(other, m) {
      SplitOnce(evac, other, "-evac-a", Decimal(n), Decimal(m));
      DecimalInjective(n, m);
    }
    if RstName(evac, n) == RstName(other, m) {
      SplitOnce(evac, other, "-evacr-a", Decimal(n), Decimal(m));
      DecimalInjective(n, m);
    }
    var b, r := BkpName(evac, n), RstName(other, m);
    var i, j := |evac| + |"-evac-a"|, |other| + |"-evacr-a"|;
    DigitsAfterMark(evac, "-evac-a", Decimal(n));
    DigitsAfterMark(other, "-evacr-a", Decimal(m));
    assert b[i - 3] == 'c' && r[j - 3] == 'r';
    assert i != j ==> !(DigitsFrom(b, i) && DigitsFrom(b, j));
  }
}
