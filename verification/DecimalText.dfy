/** Decimal numbers as sign, digits and exponent: canonical text and storage limits. */
module DecimalText {
  import opened Prelude
  import opened Digits

  /** A finite decimal; like the source's library, without leading zeros. */
  datatype Decimal = Decimal(negative: bool, digits: seq<Digit>, exponent: int) {
    predicate Valid() { |digits| > 0 && (|digits| > 1 ==> digits[0] != 0) }

    predicate IsZero() { digits == [0] }
  }

  datatype Numeric = Finite(decimal: Decimal) | NotFinite

  /** Ten to an integer power. */
  function Scale(e: int): real
    decreases if e >= 0 then 0 else -e
  {
    if e >= 0 then Pow10(e) as real else Scale(e + 1) / 10.0
  }

  function Magnitude(d: Decimal): real { Times(Number(d.digits) as real, Scale(d.exponent)) }

  function Value(d: Decimal): real { if d.negative then -Magnitude(d) else Magnitude(d) }

  // ---------------------------------------------------------------- fixed-point text

  function Zeros(n: nat): string { seq(n, _ => '0') }

  function Unsigned(d: Decimal): string
    requires d.Valid()
  {
    var point := |d.digits| + d.exponent;
    if d.exponent >= 0 then Text(d.digits) + Zeros(d.exponent)
    else if point > 0 then Text(d.digits[..point]) + "." + Text(d.digits[point..])
    else "0." + Zeros(-point) + Text(d.digits)
  }

  /** The fixed-point rendering, trailing zeros and all. */
  function FixedText(d: Decimal): string
    requires d.Valid()
  {
    (if d.negative then "-" else "") + Unsigned(d)
  }

  function StripRight(t: string, c: char): string {
    if |t| > 0 && t[|t| - 1] == c then StripRight(t[..|t| - 1], c) else t
  }

  function StripFraction(t: string): string {
    if '.' in t then StripRight(StripRight(t, '0'), '.') else t
  }

  const MAX_CHARACTERS := 1024

  /** The character count the source computes before rendering. */
  function MaximumCharacters(d: Decimal): int
    requires d.Valid()
  {
    var count := |d.digits|;
    (if d.exponent >= 0 then count + d.exponent
     else if count + d.exponent > 0 then count + 1
     else 2 - d.exponent)
    + if d.negative then 1 else 0
  }

  /** Canonical text of a decimal, or nothing when it is refused. */
  function CanonicalText(n: Numeric): Option<string>
    requires n.Finite? ==> n.decimal.Valid()
  {
    if n.NotFinite? then None
    else if n.decimal.IsZero() then Some("0")
    else if MaximumCharacters(n.decimal) > MAX_CHARACTERS then None
    else
      var rendered := StripFraction(FixedText(n.decimal));
      Some(if rendered == "-0" then "0" else rendered)
  }

  /** The precomputed count is exactly the length of the rendering it guards. */
  lemma CountIsExact(d: Decimal)
    requires d.Valid()
    ensures MaximumCharacters(d) == |FixedText(d)|
  {
  }

  // ---------------------------------------------------------------- reading it back

  function IndexOf(t: string, c: char): (i: nat)
    ensures i <= |t| && (forall k :: 0 <= k < i ==> t[k] != c) && (i < |t| ==> t[i] == c)
  {
    if t == [] || t[0] == c then 0 else 1 + IndexOf(t[1..], c)
  }

  /** The number written with these whole and fractional digits. */
  function NumberOf(whole: seq<Digit>, fraction: seq<Digit>): real {
    Times(Number(whole + fraction) as real, Scale(-|fraction|))
  }

  /** The number a plain decimal text without a sign denotes. */
  function ParseUnsigned(t: string): Option<real> {
    var dot := IndexOf(t, '.');
    var whole := t[..dot];
    var fraction := if dot < |t| then t[dot + 1..] else [];
    if whole == [] || !AllDigits(whole) || !AllDigits(fraction) || (dot < |t| && fraction == []) then None
    else Some(NumberOf(Read(whole), Read(fraction)))
  }

  function Parse(t: string): Option<real> {
    if t != [] && t[0] == '-' then
      var r := ParseUnsigned(t[1..]);
      if r.Some? then Some(-r.value) else None
    else ParseUnsigned(t)
  }

  // ---------------------------------------------------------------- powers of ten

  lemma ScaleStep(e: int)
    ensures Scale(e + 1) == 10.0 * Scale(e)
  {
    if e >= 0 {
      assert Pow10(e + 1) == 10 * Pow10(e);
    }
  }

  lemma {:induction false} ScalePositive(e: int)
    ensures Scale(e) > 0.0
    decreases if e >= 0 then 0 else -e
  {
    if e < 0 {
      ScalePositive(e + 1);
    }
  }

  lemma {:induction false} ScaleShift(e: int, k: nat)
    ensures Scale(e + k) == Times(Scale(e), Pow10(k) as real)
  {
    if k == 0 {
      TimesOne(Scale(e));
    } else {
      ScaleShift(e, k - 1);
      ScaleStep(e + (k - 1));
      assert e + (k - 1) + 1 == e + k;
      TenTimes(Scale(e), Pow10(k - 1) as real);
      assert Pow10(k) as real == 10.0 * Pow10(k - 1) as real;
    }
  }

  lemma TimesOne(a: real)
    ensures Times(a, 1.0) == a
  {
  }

  lemma TenTimes(a: real, b: real)
    ensures 10.0 * Times(a, b) == Times(a, 10.0 * b) == Times(10.0 * a, b)
  {
  }

  lemma PositiveTimes(a: real, b: real)
    requires a > 0.0 && b > 0.0
    ensures Times(a, b) > 0.0
  {
  }

  lemma ProductOfNats(a: nat, b: nat)
    ensures (a * b) as real == Times(a as real, b as real)
  {
  }

  // ---------------------------------------------------------------- trailing zeros

  /** Without its trailing zero digits, which move into the exponent. */
  function Stripped(d: Decimal): Decimal
    decreases |d.digits|
  {
    if |d.digits| > 1 && d.digits[|d.digits| - 1] == 0
    then Stripped(d.(digits := d.digits[..|d.digits| - 1], exponent := d.exponent + 1))
    else d
  }

  ghost predicate Canonical(d: Decimal) { d.Valid() && d.digits[|d.digits| - 1] != 0 }

  lemma PopKeepsValue(d: Decimal, ds: seq<Digit>)
    requires d.digits == ds + [0]
    ensures Magnitude(d) == Magnitude(d.(digits := ds, exponent := d.exponent + 1))
  {
    NumberAppend(ds, 0);
    ScaleStep(d.exponent);
    var n, s := Number(ds) as real, Scale(d.exponent);
    assert Number(d.digits) as real == 10.0 * n;
    TenTimes(n, s);
  }

  lemma {:induction false} StrippedKeepsValue(d: Decimal)
    requires d.Valid()
    ensures Value(Stripped(d)) == Value(d) && Stripped(d).Valid() && Stripped(d).negative == d.negative
    ensures !d.IsZero() ==> Canonical(Stripped(d))
    ensures d.IsZero() ==> Stripped(d) == d
    decreases |d.digits|
  {
    var n := |d.digits| - 1;
    if n > 0 && d.digits[n] == 0 {
      assert d.digits == d.digits[..n] + [0];
      PopKeepsValue(d, d.digits[..n]);
      StrippedKeepsValue(d.(digits := d.digits[..n], exponent := d.exponent + 1));
    }
  }

  // ---------------------------------------------------------------- text of the stripped number

  lemma {:induction false} StripRightAppend(t: string, c: char)
    ensures StripRight(t + [c], c) == StripRight(t, c)
  {
    assert (t + [c])[..|t|] == t;
  }

  lemma NoDotInDigits(ds: seq<Digit>, c: char)
    requires !('0' <= c <= '9')
    ensures c !in Text(ds)
  {
  }

  /** Dropping a trailing zero digit and raising the exponent does not change the stripped text. */
  lemma PopKeepsText(d: Decimal, ds: seq<Digit>)
    requires d.Valid() && ds != [] && d.digits == ds + [0]
    ensures d.(digits := ds, exponent := d.exponent + 1).Valid()
    ensures StripFraction(FixedText(d)) == StripFraction(FixedText(d.(digits := ds, exponent := d.exponent + 1)))
  {
    var d' := d.(digits := ds, exponent := d.exponent + 1);
    if d.exponent >= 0 {
      PopWhole(d, ds);
    } else if d.exponent == -1 {
      PopLastPlace(d, ds);
    } else {
      PopFraction(d, ds);
      var sign := if d.negative then "-" else "";
      assert FixedText(d) == FixedText(d') + ['0'] by {
        assert sign + (Unsigned(d') + ['0']) == (sign + Unsigned(d')) + ['0'];
      }
      StripRightAppend(FixedText(d'), '0');
    }
  }

  lemma TextAppend(ds: seq<Digit>, d: Digit)
    ensures Text(ds + [d]) == Text(ds) + [DigitChar(d)]
  {
  }

  lemma PopWhole(d: Decimal, ds: seq<Digit>)
    requires d.Valid() && ds != [] && d.digits == ds + [0] && d.exponent >= 0
    ensures Unsigned(d) == Unsigned(d.(digits := ds, exponent := d.exponent + 1))
  {
    TextAppend(ds, 0);
    assert Zeros(d.exponent + 1) == ['0'] + Zeros(d.exponent);
    assert (Text(ds) + ['0']) + Zeros(d.exponent) == Text(ds) + (['0'] + Zeros(d.exponent));
  }

  lemma PopLastPlace(d: Decimal, ds: seq<Digit>)
    requires d.Valid() && ds != [] && d.digits == ds + [0] && d.exponent == -1
    ensures StripFraction(FixedText(d)) == StripFraction(FixedText(d.(digits := ds, exponent := 0)))
  {
    var sign := if d.negative then "-" else "";
    var whole := sign + Text(ds);
    assert d.digits[..|ds|] == ds && d.digits[|ds|..] == [0];
    assert Text([0]) == ['0'];
    assert Unsigned(d) == Text(ds) + ['.'] + ['0'];
    assert FixedText(d) == whole + ['.'] + ['0'];
    NoDotInDigits(ds, '.');
    WholeStripsClean(whole);
    assert Text(ds) + Zeros(0) == Text(ds);
    assert FixedText(d.(digits := ds, exponent := 0)) == whole;
  }

  lemma PopFraction(d: Decimal, ds: seq<Digit>)
    requires d.Valid() && ds != [] && d.digits == ds + [0] && d.exponent < -1
    ensures var d' := d.(digits := ds, exponent := d.exponent + 1);
            Unsigned(d) == Unsigned(d') + ['0'] && '.' in FixedText(d')
  {
    var d' := d.(digits := ds, exponent := d.exponent + 1);
    if |ds| + d'.exponent > 0 {
      PopAfterPoint(d, ds, |ds| + d'.exponent);
    } else {
      PopSmall(d, ds, 0 - (|ds| + d'.exponent));
    }
    var sign := if d.negative then "-" else "";
    DotShows(sign, Unsigned(d'));
  }

  lemma DotShows(sign: string, t: string)
    requires '.' in t
    ensures '.' in sign + t
  {
    var k :| 0 <= k < |t| && t[k] == '.';
    assert (sign + t)[|sign| + k] == '.';
  }

  lemma PopAfterPoint(d: Decimal, ds: seq<Digit>, point: nat)
    requires d.Valid() && ds != [] && d.digits == ds + [0] && d.exponent < -1
    requires point == |ds| + d.exponent + 1 && point > 0
    ensures var d' := d.(digits := ds, exponent := d.exponent + 1);
            Unsigned(d) == Unsigned(d') + ['0'] && '.' in Unsigned(d')
  {
    var d' := d.(digits := ds, exponent := d.exponent + 1);
    assert d.digits[..point] == ds[..point] && d.digits[point..] == ds[point..] + [0];
    TextAppend(ds[point..], 0);
    var w, f := Text(ds[..point]), Text(ds[point..]);
    assert Unsigned(d') == w + "." + f;
    assert Unsigned(d) == w + "." + (f + ['0']);
    OneMoreZero(w, f);
  }

  lemma OneMoreZero(w: string, f: string)
    ensures w + "." + (f + ['0']) == (w + "." + f) + ['0'] && '.' in w + "." + f
  {
    assert (w + "." + f)[|w|] == '.';
  }

  lemma PopSmall(d: Decimal, ds: seq<Digit>, zeros: nat)
    requires d.Valid() && ds != [] && d.digits == ds + [0] && d.exponent < -1
    requires zeros == 0 - (|ds| + d.exponent + 1)
    ensures var d' := d.(digits := ds, exponent := d.exponent + 1);
            Unsigned(d) == Unsigned(d') + ['0'] && '.' in Unsigned(d')
  {
    var d' := d.(digits := ds, exponent := d.exponent + 1);
    TextAppend(ds, 0);
    assert Unsigned(d') == "0." + Zeros(zeros) + Text(ds);
    assert Unsigned(d')[1] == '.';
  }

  /** A whole number followed by a point and one zero strips back to the whole number. */
  lemma WholeStripsClean(t: string)
    requires t != [] && '.' !in t
    ensures StripFraction(t + ['.'] + ['0']) == t
  {
    StripRightAppend(t + ['.'], '0');
    assert StripRight(t + ['.'], '0') == t + ['.'];
    StripRightAppend(t, '.');
    assert StripRight(t, '.') == t;
  }

  lemma {:induction false} TextOfStripped(d: Decimal)
    requires d.Valid()
    ensures Stripped(d).Valid() && StripFraction(FixedText(d)) == StripFraction(FixedText(Stripped(d)))
    decreases |d.digits|
  {
    var n := |d.digits| - 1;
    if n > 0 && d.digits[n] == 0 {
      assert d.digits == d.digits[..n] + [0];
      PopKeepsText(d, d.digits[..n]);
      TextOfStripped(d.(digits := d.digits[..n], exponent := d.exponent + 1));
    }
  }

  /** The canonical form has nothing left to strip. */
  lemma CanonicalHasNothingToStrip(d: Decimal)
    requires Canonical(d)
    ensures StripFraction(FixedText(d)) == FixedText(d)
  {
    if d.exponent >= 0 {
      NoDotInWhole(d);
    } else {
      LastCharacter(d);
    }
  }

  lemma NoDotInWhole(d: Decimal)
    requires d.Valid() && d.exponent >= 0
    ensures '.' !in FixedText(d)
  {
    NoDotInDigits(d.digits, '.');
    assert '.' !in Zeros(d.exponent);
    assert Unsigned(d) == Text(d.digits) + Zeros(d.exponent);
  }

  lemma LastCharacter(d: Decimal)
    requires Canonical(d) && d.exponent < 0
    ensures var t := FixedText(d); t != [] && t[|t| - 1] != '0' && t[|t| - 1] != '.'
  {
    var last := DigitChar(d.digits[|d.digits| - 1]);
    var u := Unsigned(d);
    assert u != [] && u[|u| - 1] == last;
    assert last != '0' && last != '.';
  }

  // ---------------------------------------------------------------- round trip

  lemma TenIn(a: int, b: int)
    ensures 10 * (a * b) == a * (10 * b)
  {
  }

  lemma {:induction false} NumberShift(ds: seq<Digit>, k: nat)
    ensures Number(ds + seq(k, _ => 0)) == Number(ds) * Pow10(k)
  {
    var zs: seq<Digit> := seq(k, _ => 0);
    if k == 0 {
      assert ds + zs == ds;
    } else {
      var ys: seq<Digit> := seq(k - 1, _ => 0);
      NumberShift(ds, k - 1);
      assert ds + zs == (ds + ys) + [0];
      NumberAppend(ds + ys, 0);
      TenIn(Number(ds), Pow10(k - 1));
    }
  }

  lemma ParseDigits(t: string)
    requires t != [] && AllDigits(t)
    ensures ParseUnsigned(t) == Some(Number(Read(t)) as real)
  {
    assert IndexOf(t, '.') == |t|;
    assert t[..|t|] == t;
    WholeNumberOf(Read(t));
    assert Read([]) == [];
  }

  lemma WholeNumberOf(ds: seq<Digit>)
    ensures NumberOf(ds, []) == Number(ds) as real
  {
    assert ds + [] == ds;
    assert Scale(0) == 1.0;
    TimesOne(Number(ds) as real);
  }

  lemma ReadConcat(a: string, b: string)
    requires AllDigits(a) && AllDigits(b)
    ensures AllDigits(a + b) && Read(a + b) == Read(a) + Read(b)
  {
  }

  lemma ReadZeros(k: nat)
    ensures AllDigits(Zeros(k)) && Read(Zeros(k)) == seq(k, _ => 0)
  {
  }

  lemma ParseWhole(ds: seq<Digit>, k: nat)
    requires ds != []
    ensures ParseUnsigned(Text(ds) + Zeros(k)) == Some((Number(ds) * Pow10(k)) as real)
  {
    ReadText(ds);
    ReadZeros(k);
    ReadConcat(Text(ds), Zeros(k));
    ParseDigits(Text(ds) + Zeros(k));
    NumberShift(ds, k);
  }

  lemma ParsePoint(w: string, f: string)
    requires w != [] && f != [] && AllDigits(w) && AllDigits(f)
    ensures ParseUnsigned(w + "." + f) == Some(NumberOf(Read(w), Read(f)))
  {
    PointIndex(w, f);
  }

  lemma PointIndex(w: string, f: string)
    requires AllDigits(w)
    ensures var t := w + "." + f;
            IndexOf(t, '.') == |w| && |w| < |t| && t[..|w|] == w && t[|w| + 1..] == f
  {
    var t := w + "." + f;
    assert t[|w|] == '.';
    assert forall k :: 0 <= k < |w| ==> t[k] == w[k];
  }

  lemma ParseFraction(whole: seq<Digit>, fraction: seq<Digit>)
    requires whole != [] && fraction != []
    ensures ParseUnsigned(Text(whole) + "." + Text(fraction)) == Some(NumberOf(whole, fraction))
  {
    ReadText(whole);
    ReadText(fraction);
    ParsePoint(Text(whole), Text(fraction));
  }

  lemma ParseUnsignedFixed(d: Decimal)
    requires d.Valid()
    ensures ParseUnsigned(Unsigned(d)) == Some(Magnitude(d))
  {
    var point := |d.digits| + d.exponent;
    if d.exponent >= 0 {
      ParseLarge(d);
    } else if point > 0 {
      ParseMiddle(d, point);
    } else {
      ParseSmall(d, -point);
    }
  }

  lemma ParseLarge(d: Decimal)
    requires d.Valid() && d.exponent >= 0
    ensures ParseUnsigned(Text(d.digits) + Zeros(d.exponent)) == Some(Magnitude(d))
  {
    ParseWhole(d.digits, d.exponent);
    ProductOfNats(Number(d.digits), Pow10(d.exponent));
  }

  lemma ParseMiddle(d: Decimal, point: nat)
    requires d.Valid() && d.exponent < 0 && point == |d.digits| + d.exponent && point > 0
    ensures ParseUnsigned(Text(d.digits[..point]) + "." + Text(d.digits[point..])) == Some(Magnitude(d))
  {
    ParseFraction(d.digits[..point], d.digits[point..]);
    assert d.digits[..point] + d.digits[point..] == d.digits;
    assert -|d.digits[point..]| == d.exponent;
  }

  lemma UnsignedHasNoSign(d: Decimal)
    requires d.Valid()
    ensures Unsigned(d) != [] && Unsigned(d)[0] != '-'
  {
  }

  lemma ParseSmall(d: Decimal, zeros: nat)
    requires d.Valid() && d.exponent < 0 && |d.digits| + d.exponent + zeros == 0
    ensures ParseUnsigned("0." + Zeros(zeros) + Text(d.digits)) == Some(Magnitude(d))
  {
    var zs: seq<Digit> := seq(zeros, _ => 0);
    ParseFraction([0], zs + d.digits);
    SmallText(zeros, d.digits);
    SmallNumber(zeros, d.digits);
  }

  lemma SmallText(zeros: nat, ds: seq<Digit>)
    ensures Text([0]) + "." + Text(seq(zeros, _ => 0) + ds) == "0." + Zeros(zeros) + Text(ds)
  {
  }

  lemma SmallNumber(zeros: nat, ds: seq<Digit>)
    ensures NumberOf([0], seq(zeros, _ => 0) + ds) == Times(Number(ds) as real, Scale(0 - (zeros + |ds|)))
  {
    var zs: seq<Digit> := seq(zeros, _ => 0);
    assert [0] + (zs + ds) == seq(1 + zeros, _ => 0) + ds;
    LeadingZeros(1 + zeros, ds);
  }

  lemma ParseFixed(d: Decimal)
    requires d.Valid()
    ensures Parse(FixedText(d)) == Some(Value(d))
  {
    ParseUnsignedFixed(d);
    UnsignedHasNoSign(d);
    if d.negative {
      assert FixedText(d)[1..] == Unsigned(d);
    } else {
      assert FixedText(d) == Unsigned(d);
    }
  }

  lemma ZeroText(d: Decimal)
    requires d.Valid()
    ensures d.IsZero() ==> Value(d) == 0.0
    ensures !d.IsZero() ==> Value(d) != 0.0 && Number(d.digits) > 0
  {
    ScalePositive(d.exponent);
    if d.IsZero() {
      assert Number([0]) == 10 * Number([]) + 0;
    } else {
      assert d.digits[0] != 0;
      NumberAtLeast(d.digits);
      PositiveTimes(Number(d.digits) as real, Scale(d.exponent));
    }
  }

  /** What canonical text is: the fixed-point text of the stripped number. */
  lemma CanonicalTextIs(d: Decimal)
    requires d.Valid() && !d.IsZero() && CanonicalText(Finite(d)).Some?
    ensures Stripped(d).Valid() && CanonicalText(Finite(d)).value == FixedText(Stripped(d))
  {
    StrippedKeepsValue(d);
    ZeroText(d);
    ZeroText(Stripped(d));
    TextOfStripped(d);
    CanonicalHasNothingToStrip(Stripped(d));
    NeverMinusZero(Stripped(d));
  }

  lemma MinusZeroIsZero()
    ensures Parse("-0") == Some(0.0) && Parse("0") == Some(0.0)
  {
    assert "-0"[1..] == "0";
    assert AllDigits("0");
    ParseDigits("0");
    assert Read("0") == [0];
    assert Number([0]) == 10 * Number([]) + 0;
  }

  lemma NeverMinusZero(d: Decimal)
    requires d.Valid() && !d.IsZero()
    ensures FixedText(d) != "-0"
  {
    ParseFixed(d);
    ZeroText(d);
    MinusZeroIsZero();
  }

  /** Canonical text reads back as the same number. */
  lemma TextRoundTrip(d: Decimal)
    requires d.Valid() && CanonicalText(Finite(d)).Some?
    ensures Parse(CanonicalText(Finite(d)).value) == Some(Value(d))
  {
    ZeroText(d);
    if d.IsZero() {
      MinusZeroIsZero();
    } else {
      CanonicalTextIs(d);
      StrippedKeepsValue(d);
      ParseFixed(Stripped(d));
    }
  }

  // ---------------------------------------------------------------- equal text, equal number

  lemma TimesMonotone(x: real, y: real, s: real)
    requires s > 0.0
    ensures x < y ==> Times(x, s) < Times(y, s)
  {
    if x < y {
      PositiveTimes(y - x, s);
      assert Times(y - x, s) == Times(y, s) - Times(x, s);
    }
  }

  lemma CancelScale(x: real, y: real, s: real)
    requires s > 0.0 && Times(x, s) == Times(y, s)
    ensures x == y
  {
    TimesMonotone(x, y, s);
    TimesMonotone(y, x, s);
  }

  lemma TimesAssociates(a: real, b: real, c: real)
    ensures Times(a, Times(b, c)) == Times(Times(a, c), b) == Times(Times(a, b), c)
  {
  }

  /** A number at a higher exponent is a multiple of the power of ten between the two. */
  lemma SameMagnitude(a: Decimal, b: Decimal)
    requires a.exponent <= b.exponent && Magnitude(a) == Magnitude(b)
    ensures Number(a.digits) == Number(b.digits) * Pow10(b.exponent - a.exponent)
  {
    var k := b.exponent - a.exponent;
    ScaleShift(a.exponent, k);
    ScalePositive(a.exponent);
    var m, n, p, s := Number(a.digits) as real, Number(b.digits) as real, Pow10(k) as real, Scale(a.exponent);
    TimesAssociates(n, s, p);
    CancelScale(m, Times(n, p), s);
    ProductOfNats(Number(b.digits), Pow10(k));
  }

  lemma LastDigitIsRemainder(ds: seq<Digit>)
    requires ds != []
    ensures Number(ds) % 10 == ds[|ds| - 1]
  {
  }

  lemma MultipleOfTen(n: nat, k: nat)
    requires k > 0
    ensures (n * Pow10(k)) % 10 == 0
  {
    var q := n * Pow10(k - 1);
    assert n * Pow10(k) == 10 * q by {
      assert Pow10(k) == 10 * Pow10(k - 1);
      assert n * (10 * Pow10(k - 1)) == 10 * (n * Pow10(k - 1));
    }
  }

  lemma CanonicalExponent(a: Decimal, b: Decimal)
    requires Canonical(a) && Canonical(b) && a.exponent <= b.exponent && Magnitude(a) == Magnitude(b)
    ensures a.exponent == b.exponent && a.digits == b.digits
  {
    SameMagnitude(a, b);
    LastDigitIsRemainder(a.digits);
    if a.exponent < b.exponent {
      MultipleOfTen(Number(b.digits), b.exponent - a.exponent);
    } else {
      assert a.digits[0] != 0 && b.digits[0] != 0;
      CanonicalInjective(a.digits, b.digits);
    }
  }

  /** The canonical form of a number is unique. */
  lemma CanonicalFormIsUnique(a: Decimal, b: Decimal)
    requires Canonical(a) && Canonical(b) && Value(a) == Value(b)
    ensures a == b
  {
    MagnitudePositive(a);
    MagnitudePositive(b);
    if a.exponent <= b.exponent {
      CanonicalExponent(a, b);
    } else {
      CanonicalExponent(b, a);
    }
  }

  lemma MagnitudePositive(d: Decimal)
    requires Canonical(d)
    ensures Magnitude(d) > 0.0
  {
    NumberAtLeast(d.digits);
    ScalePositive(d.exponent);
    PositiveTimes(Number(d.digits) as real, Scale(d.exponent));
  }

  /** Two accepted decimals have the same text exactly when they are the same number, however written. */
  lemma TextEqualIffNumberEqual(a: Decimal, b: Decimal)
    requires a.Valid() && b.Valid() && CanonicalText(Finite(a)).Some? && CanonicalText(Finite(b)).Some?
    ensures CanonicalText(Finite(a)) == CanonicalText(Finite(b)) <==> Value(a) == Value(b)
  {
    TextRoundTrip(a);
    TextRoundTrip(b);
    ZeroText(a);
    ZeroText(b);
    if Value(a) == Value(b) && !a.IsZero() {
      CanonicalTextIs(a);
      CanonicalTextIs(b);
      StrippedKeepsValue(a);
      StrippedKeepsValue(b);
      CanonicalFormIsUnique(Stripped(a), Stripped(b));
    }
  }

  /** A finite decimal is refused exactly when it is nonzero and its unstripped rendering is too long. */
  lemma RefusedExactlyWhenTooLong(d: Decimal)
    requires d.Valid()
    ensures CanonicalText(Finite(d)).None? <==> !d.IsZero() && |FixedText(d)| > 1024
  {
    CountIsExact(d);
  }

  /** So acceptance, unlike the text itself, depends on how the number is written: one, with enough zeros. */
  lemma AcceptanceDependsOnForm(k: nat)
    requires k >= 1023
    ensures var long := Decimal(false, [1] + seq(k, _ => 0), 0 - k);
            && long.Valid() && Value(long) == 1.0 && CanonicalText(Finite(long)).None?
            && Value(Decimal(false, [1], 0)) == 1.0 && CanonicalText(Finite(Decimal(false, [1], 0))) == Some("1")
  {
    var long := Decimal(false, [1] + seq(k, _ => 0), 0 - k);
    var one := Decimal(false, [1], 0);
    assert Number([1]) == 10 * Number([]) + 1;
    NumberShift([1], k);
    ScaleShift(0 - k, k);
    var s, p := Scale(0 - k), Pow10(k) as real;
    assert Times(p, s) == Times(s, p);
    assert Scale(0) == 1.0;
    assert FixedText(one) == "1" by { assert Text([1]) + Zeros(0) == "1"; }
  }

  // ---------------------------------------------------------------- storage limits

  /** Digits with every trailing zero popped, and the exponent raised accordingly. */
  function Popped(digits: seq<Digit>, exponent: int): (seq<Digit>, int) {
    if digits != [] && digits[|digits| - 1] == 0 then Popped(digits[..|digits| - 1], exponent + 1)
    else (digits, exponent)
  }

  predicate FitsColumn(digits: seq<Digit>, exponent: int, scale: nat) {
    var fractional := if digits == [] || exponent >= 0 then 0 else -exponent;
    var integral := if digits == [] || |digits| + exponent <= 0 then 0 else |digits| + exponent;
    fractional <= scale && integral + fractional <= 38
  }

  predicate Accepts(n: Numeric, scale: nat) {
    n.Finite? && FitsColumn(Popped(n.decimal.digits, n.decimal.exponent).0, Popped(n.decimal.digits, n.decimal.exponent).1, scale)
  }

  /** The check as the source runs it, popping digits from a list. */
  method RequireDecimal(n: Numeric, scale: nat) returns (accepted: bool)
    ensures accepted == Accepts(n, scale)
  {
    if n.NotFinite? {
      return false;
    }
    var digits, exponent := n.decimal.digits, n.decimal.exponent;
    while digits != [] && digits[|digits| - 1] == 0
      invariant Popped(digits, exponent) == Popped(n.decimal.digits, n.decimal.exponent)
      decreases |digits|
    {
      digits := digits[..|digits| - 1];
      exponent := exponent + 1;
    }
    var fractional := if digits == [] || exponent >= 0 then 0 else -exponent;
    var integral := if digits == [] || |digits| + exponent <= 0 then 0 else |digits| + exponent;
    accepted := !(fractional > scale || integral + fractional > 38);
  }

  predicate IsWhole(x: real) { x.Floor as real == x }

  /** The number has this many decimal places, or fewer. */
  ghost predicate Places(v: real, f: nat) { IsWhole(Times(Abs(v), Pow10(f) as real)) }

  ghost predicate LeastPlaces(v: real, f: nat) {
    Places(v, f) && forall g: nat :: g < f ==> !Places(v, g)
  }

  lemma {:induction false} PoppedIsStripped(d: Decimal)
    requires d.Valid() && !d.IsZero()
    ensures Popped(d.digits, d.exponent) == (Stripped(d).digits, Stripped(d).exponent)
    decreases |d.digits|
  {
    var n := |d.digits| - 1;
    if n > 0 && d.digits[n] == 0 {
      PoppedIsStripped(d.(digits := d.digits[..n], exponent := d.exponent + 1));
    }
  }

  lemma WholeNumber(k: int)
    ensures IsWhole(k as real)
  {
  }

  /** Shifting a magnitude by a power of ten shifts its exponent. */
  lemma ShiftedMagnitude(d: Decimal, f: nat)
    ensures Times(Magnitude(d), Pow10(f) as real) == Times(Number(d.digits) as real, Scale(d.exponent + f))
  {
    ScaleShift(d.exponent, f);
    TimesAssociates(Number(d.digits) as real, Scale(d.exponent), Pow10(f) as real);
  }

  /** A canonical number needs exactly as many places as its exponent is below zero. */
  lemma CanonicalPlaces(d: Decimal)
    requires Canonical(d)
    ensures LeastPlaces(Value(d), if d.exponent >= 0 then 0 else -d.exponent)
  {
    var f: nat := if d.exponent >= 0 then 0 else -d.exponent;
    MagnitudePositive(d);
    assert Abs(Value(d)) == Magnitude(d);
    ShiftedMagnitude(d, f);
    ProductOfNats(Number(d.digits), Pow10(d.exponent + f));
    WholeNumber(Number(d.digits) * Pow10(d.exponent + f));
    forall g: nat | g < f
      ensures !Places(Value(d), g)
    {
      FewerPlacesAreNotEnough(d, g);
    }
  }

  lemma FewerPlacesAreNotEnough(d: Decimal, g: nat)
    requires Canonical(d) && d.exponent + g < 0
    ensures !IsWhole(Times(Magnitude(d), Pow10(g) as real))
  {
    ShiftedMagnitude(d, g);
    NumberAtLeast(d.digits);
    LastDigitIsRemainder(d.digits);
    NotWholeBelow(Number(d.digits), -(d.exponent + g));
  }

  /** A whole number that ten does not divide is not whole any more after dividing by a power of ten. */
  lemma NotWholeBelow(m: nat, h: nat)
    requires m > 0 && m % 10 != 0 && h > 0
    ensures !IsWhole(Times(m as real, Scale(0 - h)))
  {
    var x := Times(m as real, Scale(0 - h));
    ScaleShift(0 - h, h);
    TimesAssociates(m as real, Scale(0 - h), Pow10(h) as real);
    TimesOne(m as real);
    assert Times(x, Pow10(h) as real) == m as real;
    ScalePositive(0 - h);
    PositiveTimes(m as real, Scale(0 - h));
    if IsWhole(x) {
      ProductOfNats(x.Floor, Pow10(h));
      MultipleOfTen(x.Floor, h);
    }
  }

  lemma LeastPlacesUnique(v: real, f: nat, g: nat)
    requires LeastPlaces(v, f) && LeastPlaces(v, g)
    ensures f == g
  {
  }

  /** A digit string without a leading zero stays below 10^38 exactly when it has at most 38 digits. */
  lemma BelowLimit(ds: seq<Digit>)
    requires ds != [] && ds[0] != 0
    ensures Number(ds) < Pow10(38) <==> |ds| <= 38
  {
    NumberBelow(ds);
    NumberAtLeast(ds);
    Pow10Order(|ds|, 38);
    Pow10Order(38, |ds| - 1);
  }

  lemma ShiftedDigits(d: Decimal, f: nat, e: nat)
    requires d.exponent + f == e
    ensures Times(Magnitude(d), Pow10(f) as real) == Number(d.digits + seq(e, _ => 0)) as real
  {
    ShiftedMagnitude(d, f);
    WholeScale(e);
    ProductOfNats(Number(d.digits), Pow10(e));
    NumberShift(d.digits, e);
  }

  lemma WholeScale(e: nat)
    ensures Scale(e) == Pow10(e) as real
  {
    ScaleShift(0, e);
    assert Scale(0) == 1.0;
  }

  /** A canonical number fits the column exactly when its digits, shifted to a whole number, stay below 10^38. */
  lemma CanonicalFits(d: Decimal, scale: nat)
    requires Canonical(d) && scale <= 38
    ensures var f: nat := if d.exponent >= 0 then 0 else -d.exponent;
            FitsColumn(d.digits, d.exponent, scale) <==>
            f <= scale && Times(Magnitude(d), Pow10(f) as real) < Pow10(38) as real
  {
    var f: nat := if d.exponent >= 0 then 0 else -d.exponent;
    var e: nat := d.exponent + f;
    ShiftedDigits(d, f, e);
    BelowLimit(d.digits + seq(e, _ => 0));
  }

  /**
   The storage check does not see how a number is written: it accepts exactly the numbers whose least
   number of decimal places f is within the scale and whose value times 10^f is below 10^38.
   */
  lemma AcceptsExactlyWhen(d: Decimal, scale: nat, f: nat)
    requires d.Valid() && scale <= 38 && LeastPlaces(Value(d), f)
    ensures Accepts(Finite(d), scale) <==> f <= scale && Times(Abs(Value(d)), Pow10(f) as real) < Pow10(38) as real
  {
    if d.IsZero() {
      ZeroFits(d, scale, f);
    } else {
      PoppedIsStripped(d);
      StrippedKeepsValue(d);
      var s := Stripped(d);
      MagnitudePositive(s);
      CanonicalPlaces(s);
      LeastPlacesUnique(Value(d), f, if s.exponent >= 0 then 0 else -s.exponent);
      CanonicalFits(s, scale);
      assert Abs(Value(d)) == Magnitude(s);
    }
  }

  lemma ZeroFits(d: Decimal, scale: nat, f: nat)
    requires d.Valid() && d.IsZero() && LeastPlaces(Value(d), f)
    ensures Accepts(Finite(d), scale) && f == 0 && Times(Abs(Value(d)), Pow10(f) as real) < Pow10(38) as real
  {
    ZeroText(d);
    assert Popped([0], d.exponent) == Popped([], d.exponent + 1) by { assert [0][..0] == []; }
    WholeNumber(0);
    assert Places(0.0, 0);
    assert Pow10(0) == 1;
  }

  /** Every finite decimal has a least number of places, so the law above covers them all. */
  lemma LeastPlacesExist(d: Decimal) returns (f: nat)
    requires d.Valid()
    ensures LeastPlaces(Value(d), f)
  {
    if d.IsZero() {
      ZeroText(d);
      WholeNumber(0);
      f := 0;
    } else {
      StrippedKeepsValue(d);
      CanonicalPlaces(Stripped(d));
      f := if Stripped(d).exponent >= 0 then 0 else -Stripped(d).exponent;
    }
  }
}
