/** Decimal rendering of integers, as Python's `str(int)` and `f"{n:02d}"` produce it. */
module Decimal {

  function Digit(d: nat): (c: char)
    requires d < 10
    ensures '0' <= c <= '9' && c as int - '0' as int == d
  {
    ('0' as int + d) as char
  }

  predicate IsDigit(c: char) { '0' <= c <= '9' }

  ghost predicate AllDigits(s: string) {
    forall i :: 0 <= i < |s| ==> IsDigit(s[i])
  }

  function NatText(n: nat): (s: string)
    ensures |s| > 0 && AllDigits(s)
  {
    if n < 10 then [Digit(n)] else NatText(n / 10) + [Digit(n % 10)]
  }

  function IntText(n: int): string {
    if n < 0 then "-" + NatText(-n) else NatText(n)
  }

  /** `n` padded with zeros to at least `width` digits. */
  function Padded(n: nat, width: nat): (s: string)
    ensures AllDigits(s) && |s| >= width
  {
    Zeros(width - |NatText(n)|) + NatText(n)
  }

  function Zeros(k: int): (s: string)
    ensures AllDigits(s) && |s| == if k <= 0 then 0 else k
  {
    if k <= 0 then "" else "0" + Zeros(k - 1)
  }

  /** Value of a digit string; leading zeros do not matter. */
  function NatValue(s: string): nat {
    if s == "" || !IsDigit(s[|s| - 1]) then 0
    else 10 * NatValue(s[..|s| - 1]) + (s[|s| - 1] as int - '0' as int)
  }

  lemma {:induction false} NatRoundTrip(n: nat)
    ensures NatValue(NatText(n)) == n
  {
    if n < 10 {
      assert NatText(n)[..0] == "";
    } else {
      NatRoundTrip(n / 10);
      assert NatText(n)[..|NatText(n)| - 1] == NatText(n / 10);
    }
  }

  lemma {:induction false} LeadingZero(s: string)
    requires AllDigits(s)
    ensures NatValue("0" + s) == NatValue(s)
  {
    if s == "" {
      assert ("0" + s)[..0] == "";
    } else {
      LeadingZero(s[..|s| - 1]);
      assert ("0" + s)[..|s|] == "0" + s[..|s| - 1];
    }
  }

  lemma {:induction false} ZerosAreNothing(k: int, s: string)
    requires AllDigits(s)
    ensures NatValue(Zeros(k) + s) == NatValue(s)
  {
    if k <= 0 {
      assert Zeros(k) + s == s;
    } else {
      ZerosAreNothing(k - 1, s);
      LeadingZero(Zeros(k - 1) + s);
      assert Zeros(k) + s == "0" + (Zeros(k - 1) + s);
    }
  }

  /** Padding is undone by reading the digits back. */
  lemma PaddedRoundTrip(n: nat, width: nat)
    ensures NatValue(Padded(n, width)) == n
  {
    ZerosAreNothing(width - |NatText(n)|, NatText(n));
    NatRoundTrip(n);
  }

  lemma IntTextInjective(a: int, b: int)
    ensures IntText(a) == IntText(b) ==> a == b
  {
    if IntText(a) == IntText(b) {
      if a < 0 && b < 0 {
        assert NatText(-a) == IntText(a)[1..] == IntText(b)[1..] == NatText(-b);
        NatRoundTrip(-a);
        NatRoundTrip(-b);
      } else if a >= 0 && b >= 0 {
        NatRoundTrip(a);
        NatRoundTrip(b);
      } else {
        assert IntText(a)[0] == '-' <==> a < 0 by { SignFirst(a); }
        SignFirst(b);
      }
    }
  }

  lemma SignFirst(a: int)
    ensures IntText(a) != ""
    ensures IntText(a)[0] == '-' <==> a < 0
  {
    if a >= 0 {
      assert IsDigit(NatText(a)[0]);
    }
  }

  lemma IntTextCharacters(n: int, c: char)
    requires c in IntText(n)
    ensures c == '-' || IsDigit(c)
  {
  }
}
