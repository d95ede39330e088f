/** Decimal digit strings of natural numbers. */
module Digits {

  type Digit = d: nat | d < 10

  function Pow10(n: nat): (p: nat)
    ensures p > 0
  {
    if n == 0 then 1 else 10 * Pow10(n - 1)
  }

  /** The number a digit string denotes, most significant digit first. */
  function Number(ds: seq<Digit>): nat {
    if ds == [] then 0 else 10 * Number(ds[..|ds| - 1]) + ds[|ds| - 1]
  }

  function ToDigits(n: nat): (ds: seq<Digit>)
    ensures Number(ds) == n
    ensures |ds| > 0 && (|ds| > 1 ==> ds[0] != 0)
  {
    if n < 10 then [n]
    else
      var front := ToDigits(n / 10);
      assert (front + [n % 10])[..|front|] == front;
      assert front[0] == 0 ==> |front| == 1;
      front + [n % 10]
  }

  lemma NumberAppend(ds: seq<Digit>, d: Digit)
    ensures Number(ds + [d]) == 10 * Number(ds) + d
  {
    assert (ds + [d])[..|ds|] == ds;
  }

  lemma {:induction false} NumberBelow(ds: seq<Digit>)
    ensures Number(ds) < Pow10(|ds|)
  {
    if ds != [] {
      NumberBelow(ds[..|ds| - 1]);
    }
  }

  /** A digit string without a leading zero is at least the power of ten of its length. */
  lemma {:induction false} NumberAtLeast(ds: seq<Digit>)
    requires ds != [] && ds[0] != 0
    ensures Number(ds) >= Pow10(|ds| - 1)
  {
    if |ds| > 1 {
      NumberAtLeast(ds[..|ds| - 1]);
    }
  }

  /** Equally long digit strings are determined by their number. */
  lemma {:induction false} SameLengthInjective(a: seq<Digit>, b: seq<Digit>)
    requires |a| == |b| && Number(a) == Number(b)
    ensures a == b
  {
    if a != [] {
      var n := |a| - 1;
      SameLengthInjective(a[..n], b[..n]);
      assert a == a[..n] + [a[n]] && b == b[..n] + [b[n]];
    }
  }

  lemma {:induction false} Pow10Monotone(a: nat, b: nat)
    requires a <= b
    ensures Pow10(a) <= Pow10(b)
  {
    if a < b {
      Pow10Monotone(a, b - 1);
    }
  }

  lemma Pow10Order(a: nat, b: nat)
    ensures a <= b ==> Pow10(a) <= Pow10(b)
  {
    if a <= b {
      Pow10Monotone(a, b);
    }
  }

  /** So are digit strings without leading zeros, of any length. */
  lemma CanonicalInjective(a: seq<Digit>, b: seq<Digit>)
    requires a != [] && b != [] && a[0] != 0 && b[0] != 0
    requires Number(a) == Number(b)
    ensures a == b
  {
    NumberBelow(a);
    NumberBelow(b);
    NumberAtLeast(a);
    NumberAtLeast(b);
    Pow10Order(|a|, |b| - 1);
    Pow10Order(|b|, |a| - 1);
    SameLengthInjective(a, b);
  }

  lemma DigitsAppend(n: nat, d: Digit)
    requires n > 0
    ensures ToDigits(10 * n + d) == ToDigits(n) + [d]
  {
    assert (10 * n + d) / 10 == n && (10 * n + d) % 10 == d;
  }

  /** How many digits a number needs. */
  lemma DigitCount(n: nat, k: nat)
    requires k > 0
    ensures |ToDigits(n)| <= k <==> n < Pow10(k)
  {
    var ds := ToDigits(n);
    NumberBelow(ds);
    if |ds| <= k {
      Pow10Monotone(|ds|, k);
    } else {
      NumberAtLeast(ds);
      Pow10Monotone(k, |ds| - 1);
    }
  }

  function DigitChar(d: Digit): char { ('0' as int + d) as char }

  function CharDigit(c: char): Digit
    requires '0' <= c <= '9'
  {
    c as int - '0' as int
  }

  function Text(ds: seq<Digit>): string {
    seq(|ds|, i requires 0 <= i < |ds| => DigitChar(ds[i]))
  }

  predicate AllDigits(s: string) { forall i :: 0 <= i < |s| ==> '0' <= s[i] <= '9' }

  function Read(s: string): seq<Digit>
    requires AllDigits(s)
  {
    seq(|s|, i requires 0 <= i < |s| => CharDigit(s[i]))
  }

  lemma ReadText(ds: seq<Digit>)
    ensures AllDigits(Text(ds)) && Read(Text(ds)) == ds
  {
  }

  /** Left-padded with zeros to a minimum width. */
  function Padded(n: nat, width: nat): string {
    var ds := ToDigits(n);
    if |ds| >= width then Text(ds) else seq(width - |ds|, _ => '0') + Text(ds)
  }

  lemma {:induction false} LeadingZeros(k: nat, ds: seq<Digit>)
    ensures Number(seq(k, _ => 0) + ds) == Number(ds)
    decreases |ds|, k
  {
    var zs: seq<Digit> := seq(k, _ => 0);
    if ds == [] {
      assert zs + ds == zs;
      if k > 0 {
        var ys: seq<Digit> := seq(k - 1, _ => 0);
        LeadingZeros(k - 1, []);
        assert ys + [] == ys && zs == ys + [0];
        NumberAppend(ys, 0);
      }
    } else {
      var n := |ds| - 1;
      LeadingZeros(k, ds[..n]);
      assert zs + ds == (zs + ds[..n]) + [ds[n]];
      NumberAppend(zs + ds[..n], ds[n]);
    }
  }

  lemma ReadZeroPadded(k: nat, ds: seq<Digit>)
    ensures AllDigits(seq(k, _ => '0') + Text(ds))
    ensures Read(seq(k, _ => '0') + Text(ds)) == seq(k, _ => 0) + ds
  {
    var t := seq(k, _ => '0') + Text(ds);
    assert |t| == k + |ds|;
    forall i | 0 <= i < |t|
      ensures '0' <= t[i] <= '9' && CharDigit(t[i]) == (seq(k, _ => 0) + ds)[i]
    {
      assert t[i] == if i < k then '0' else DigitChar(ds[i - k]);
    }
  }

  /** Padding keeps the number and the digit alphabet, and never shortens. */
  lemma ReadPadded(n: nat, width: nat)
    ensures AllDigits(Padded(n, width)) && Number(Read(Padded(n, width))) == n
    ensures |Padded(n, width)| == if |ToDigits(n)| >= width then |ToDigits(n)| else width
  {
    var ds := ToDigits(n);
    if |ds| < width {
      LeadingZeros(width - |ds|, ds);
      ReadZeroPadded(width - |ds|, ds);
    } else {
      ReadText(ds);
    }
  }
}
