/** Portfolio weights carried through one price move. Floats are modelled as exact reals. */
module WeightDrift {
  import opened Prelude

  datatype Error = MissingReturn | InvalidGrowth | UnusableWeights

  datatype Drifted = Drifted(weights: seq<real>, cash: real, ret: real)

  const HELD := 0.000000000001

  function Over(a: real, b: real): real
    requires b != 0.0
  {
    a / b
  }

  function Sum(xs: seq<real>): real {
    if xs == [] then 0.0 else Sum(xs[..|xs| - 1]) + xs[|xs| - 1]
  }

  function Usable(r: Option<real>): real { r.GetOr(0.0) }

  /** The return earned by the weights, a missing return counting as none. */
  function Earned(weights: seq<real>, moves: seq<Option<real>>): real
    requires |weights| == |moves|
  {
    if weights == [] then 0.0
    else
      var n := |weights| - 1;
      Earned(weights[..n], moves[..n]) + Times(weights[n], Usable(moves[n]))
  }

  predicate Blocked(weights: seq<real>, moves: seq<Option<real>>)
    requires |weights| == |moves|
  {
    exists i :: 0 <= i < |weights| && weights[i] > HELD && moves[i].None?
  }

  function Grown(weights: seq<real>, moves: seq<Option<real>>, growth: real): (r: seq<real>)
    requires |weights| == |moves| && growth != 0.0
    ensures |r| == |weights|
    ensures forall i :: 0 <= i < |r| ==> r[i] == Over(Times(weights[i], 1.0 + Usable(moves[i])), growth)
  {
    seq(|weights|, i requires 0 <= i < |weights| => Over(Times(weights[i], 1.0 + Usable(moves[i])), growth))
  }

  function Normalized(weights: seq<real>, total: real): (r: seq<real>)
    requires total != 0.0
    ensures |r| == |weights|
    ensures forall i :: 0 <= i < |r| ==> r[i] == Max(0.0, Over(weights[i], total))
  {
    seq(|weights|, i requires 0 <= i < |weights| => Max(0.0, Over(weights[i], total)))
  }

  /** What the drifted weights are divided by. */
  function Divisor(weights: seq<real>, cash: real, moves: seq<Option<real>>): real
    requires |weights| == |moves| && 1.0 + Earned(weights, moves) != 0.0
  {
    var growth := 1.0 + Earned(weights, moves);
    Sum(Grown(weights, moves, growth)) + Over(cash, growth)
  }

  function Drift(weights: seq<real>, cash: real, moves: seq<Option<real>>): Result<Drifted, Error>
    requires |weights| == |moves|
  {
    if Blocked(weights, moves) then Err(MissingReturn)
    else
      var growth := 1.0 + Earned(weights, moves);
      if growth <= 0.0 then Err(InvalidGrowth)
      else
        var total := Divisor(weights, cash, moves);
        if total <= 0.0 then Err(UnusableWeights)
        else
          Ok(Drifted(Normalized(Grown(weights, moves, growth), total),
                     Max(0.0, Over(Over(cash, growth), total)), Earned(weights, moves)))
  }

  /** The source's form: a first loop collects usable returns and the rest is computed from them. */
  method DriftWeights(weights: seq<real>, cash: real, moves: seq<Option<real>>) returns (r: Result<Drifted, Error>)
    requires |weights| == |moves|
    ensures r == Drift(weights, cash, moves)
  {
    var usable: seq<real> := [];
    var earned := 0.0;
    var i := 0;
    while i < |weights|
      invariant 0 <= i <= |weights| && |usable| == i
      invariant forall k :: 0 <= k < i ==> usable[k] == Usable(moves[k]) && !(weights[k] > HELD && moves[k].None?)
      invariant earned == Earned(weights[..i], moves[..i])
    {
      if weights[i] > HELD && moves[i].None? {
        return Err(MissingReturn);
      }
      usable := usable + [Usable(moves[i])];
      assert weights[..i + 1][..i] == weights[..i] && moves[..i + 1][..i] == moves[..i];
      earned := earned + Times(weights[i], usable[i]);
      i := i + 1;
    }
    assert weights[..i] == weights && moves[..i] == moves;
    var growth := 1.0 + earned;
    if growth <= 0.0 {
      return Err(InvalidGrowth);
    }
    var drifted := seq(|weights|, k requires 0 <= k < |weights| => Over(Times(weights[k], 1.0 + usable[k]), growth));
    assert drifted == Grown(weights, moves, growth);
    var total := Sum(drifted) + Over(cash, growth);
    if total <= 0.0 {
      return Err(UnusableWeights);
    }
    r := Ok(Drifted(Normalized(drifted, total), Max(0.0, Over(Over(cash, growth), total)), earned));
  }

  // ---------------------------------------------------------------- arithmetic

  lemma OverTimes(a: real, b: real)
    requires b != 0.0
    ensures Times(Over(a, b), b) == a
  {
  }

  lemma OverOne(a: real)
    ensures Over(a, 1.0) == a
  {
  }

  lemma TimesSigns(a: real, b: real)
    requires a >= 0.0 && b > 0.0
    ensures Times(a, b) >= 0.0 && (a > 0.0 ==> Times(a, b) > 0.0)
  {
  }

  lemma OverSigns(a: real, b: real)
    requires a >= 0.0 && b > 0.0
    ensures Over(a, b) >= 0.0
  {
  }

  lemma Distributes(a: real, b: real, c: real)
    ensures Times(a + b, c) == Times(a, c) + Times(b, c)
    ensures Times(c, a + b) == Times(c, a) + Times(c, b)
  {
  }

  lemma CancelPositive(a: real, g: real)
    requires g > 0.0 && Times(a, g) == g
    ensures a == 1.0
  {
    assert a == a * g / g;
  }

  // ---------------------------------------------------------------- one move of a balanced book

  ghost predicate Balanced(weights: seq<real>, cash: real) {
    && (forall i :: 0 <= i < |weights| ==> weights[i] >= 0.0)
    && cash >= 0.0 && Sum(weights) + cash == 1.0
  }

  /** Every price is there and stays positive. */
  ghost predicate Priced(moves: seq<Option<real>>) {
    forall i :: 0 <= i < |moves| ==> moves[i].Some? && moves[i].value > -1.0
  }

  lemma {:induction false} SumNonnegative(xs: seq<real>)
    requires forall i :: 0 <= i < |xs| ==> xs[i] >= 0.0
    ensures Sum(xs) >= 0.0
  {
    if xs != [] {
      SumNonnegative(xs[..|xs| - 1]);
    }
  }

  /** What the holdings are worth after the move, per unit of wealth before it. */
  lemma {:induction false} HoldingsStayPositive(weights: seq<real>, moves: seq<Option<real>>)
    requires |weights| == |moves| && Priced(moves)
    requires forall i :: 0 <= i < |weights| ==> weights[i] >= 0.0
    ensures Sum(weights) + Earned(weights, moves) >= 0.0
    ensures Sum(weights) > 0.0 ==> Sum(weights) + Earned(weights, moves) > 0.0
  {
    if weights != [] {
      var n := |weights| - 1;
      HoldingsStayPositive(weights[..n], moves[..n]);
      SumNonnegative(weights[..n]);
      TimesSigns(weights[n], 1.0 + moves[n].value);
      Distributes(1.0, moves[n].value, weights[n]);
    }
  }

  lemma {:induction false} GrownTotal(weights: seq<real>, moves: seq<Option<real>>, growth: real)
    requires |weights| == |moves| && growth != 0.0
    ensures Times(Sum(Grown(weights, moves, growth)), growth) == Sum(weights) + Earned(weights, moves)
  {
    if weights != [] {
      var n := |weights| - 1;
      var grown := Grown(weights, moves, growth);
      assert grown[..n] == Grown(weights[..n], moves[..n], growth);
      GrownTotal(weights[..n], moves[..n], growth);
      Distributes(Sum(grown[..n]), grown[n], growth);
      OverTimes(Times(weights[n], 1.0 + Usable(moves[n])), growth);
      Distributes(1.0, Usable(moves[n]), weights[n]);
    }
  }

  lemma DivisorTimesGrowth(weights: seq<real>, cash: real, moves: seq<Option<real>>)
    requires |weights| == |moves| && 1.0 + Earned(weights, moves) > 0.0
    ensures Times(Divisor(weights, cash, moves), 1.0 + Earned(weights, moves)) == Sum(weights) + cash + Earned(weights, moves)
  {
    var growth := 1.0 + Earned(weights, moves);
    GrownTotal(weights, moves, growth);
    OverTimes(cash, growth);
    Distributes(Sum(Grown(weights, moves, growth)), Over(cash, growth), growth);
  }

  /** The divisor removes nothing exactly when the weights and cash totalled one before the move. */
  lemma DivisorIsOneExactlyWhen(weights: seq<real>, cash: real, moves: seq<Option<real>>)
    requires |weights| == |moves| && 1.0 + Earned(weights, moves) > 0.0
    ensures Divisor(weights, cash, moves) == 1.0 <==> Sum(weights) + cash == 1.0
  {
    DivisorTimesGrowth(weights, cash, moves);
    UnitFactor(Divisor(weights, cash, moves), 1.0 + Earned(weights, moves));
  }

  lemma UnitFactor(a: real, g: real)
    requires g > 0.0
    ensures Times(a, g) == g <==> a == 1.0
  {
    if Times(a, g) == g {
      CancelPositive(a, g);
    }
  }

  lemma BalancedGrowth(weights: seq<real>, cash: real, moves: seq<Option<real>>)
    requires |weights| == |moves| && Balanced(weights, cash) && Priced(moves)
    ensures 1.0 + Earned(weights, moves) > 0.0
  {
    HoldingsStayPositive(weights, moves);
    SumNonnegative(weights);
  }

  /** A balanced book stays balanced, no guard fires, and every holding moves with its own price. */
  lemma DriftKeepsHoldings(weights: seq<real>, cash: real, moves: seq<Option<real>>)
    requires |weights| == |moves| && Balanced(weights, cash) && Priced(moves)
    ensures 1.0 + Earned(weights, moves) > 0.0 && Divisor(weights, cash, moves) == 1.0
    ensures Drift(weights, cash, moves).Ok?
    ensures var d := Drift(weights, cash, moves).value;
            && d.ret == Earned(weights, moves)
            && Balanced(d.weights, d.cash) && |d.weights| == |weights|
            && Times(1.0 + d.ret, d.cash) == cash
            && forall i :: 0 <= i < |weights| ==>
                 Times(1.0 + d.ret, d.weights[i]) == Times(weights[i], 1.0 + moves[i].value)
  {
    BalancedGrowth(weights, cash, moves);
    DivisorIsOneExactlyWhen(weights, cash, moves);
    var growth := 1.0 + Earned(weights, moves);
    var grown := Grown(weights, moves, growth);
    OverSigns(cash, growth);
    OverOne(Over(cash, growth));
    OverTimes(cash, growth);
    forall i | 0 <= i < |weights|
      ensures Max(0.0, Over(grown[i], 1.0)) == grown[i] && grown[i] >= 0.0
      ensures Times(growth, grown[i]) == Times(weights[i], 1.0 + moves[i].value)
    {
      TimesSigns(weights[i], 1.0 + moves[i].value);
      OverSigns(Times(weights[i], 1.0 + moves[i].value), growth);
      OverOne(grown[i]);
      OverTimes(Times(weights[i], 1.0 + moves[i].value), growth);
    }
    assert Normalized(grown, 1.0) == grown;
  }

  // ---------------------------------------------------------------- any book, any prices

  /** Drifting fails exactly when more than a trillionth is held without a price, when growth is used up, or when nothing is left to divide. */
  lemma DriftFailsExactlyWhen(weights: seq<real>, cash: real, moves: seq<Option<real>>)
    requires |weights| == |moves|
    ensures var r, missing := Drift(weights, cash, moves), exists i :: 0 <= i < |weights| && 1000000000000.0 * weights[i] > 1.0 && moves[i].None?;
            && (r == Err(MissingReturn) <==> missing)
            && (r == Err(InvalidGrowth) <==> !missing && 1.0 + Earned(weights, moves) <= 0.0)
            && (r == Err(UnusableWeights) <==>
                  !missing && 1.0 + Earned(weights, moves) > 0.0 && Sum(weights) + cash + Earned(weights, moves) <= 0.0)
  {
    assert Blocked(weights, moves) <==> exists i :: 0 <= i < |weights| && 1000000000000.0 * weights[i] > 1.0 && moves[i].None?;
    if 1.0 + Earned(weights, moves) > 0.0 {
      DivisorTimesGrowth(weights, cash, moves);
      SignOfFactor(Divisor(weights, cash, moves), 1.0 + Earned(weights, moves));
    }
  }

  lemma SignOfFactor(a: real, g: real)
    requires g > 0.0
    ensures Times(a, g) > 0.0 <==> a > 0.0
  {
  }

  /** What a holding has become: it moved with its price, or stayed where there is none. */
  function MovedTo(weight: real, move: Option<real>): real {
    match move
    case Some(r) => Times(weight, 1.0 + r)
    case None => weight
  }

  /** In any book without shorts, each weight is what its holding has become over what all holdings and cash have become. */
  lemma DriftSharesOut(weights: seq<real>, cash: real, moves: seq<Option<real>>, i: nat)
    requires |weights| == |moves| && i < |weights| && Drift(weights, cash, moves).Ok?
    requires weights[i] >= 0.0 && cash >= 0.0 && (moves[i].Some? ==> moves[i].value > -1.0)
    ensures var d, all := Drift(weights, cash, moves).value, Sum(weights) + cash + Earned(weights, moves);
            all > 0.0 && Times(all, d.weights[i]) == MovedTo(weights[i], moves[i]) && Times(all, d.cash) == cash
  {
    var growth, divisor := 1.0 + Earned(weights, moves), Divisor(weights, cash, moves);
    DivisorTimesGrowth(weights, cash, moves);
    TimesSigns(divisor, growth);
    var became := Times(weights[i], 1.0 + Usable(moves[i]));
    TimesSigns(weights[i], 1.0 + Usable(moves[i]));
    assert became == MovedTo(weights[i], moves[i]) by { assert Times(weights[i], 1.0) == weights[i]; }
    TwiceOver(became, growth, divisor);
    TwiceOver(cash, growth, divisor);
  }

  lemma TwiceOver(a: real, g: real, d: real)
    requires a >= 0.0 && g > 0.0 && d > 0.0
    ensures Times(Times(d, g), Max(0.0, Over(Over(a, g), d))) == a
  {
    OverSigns(a, g);
    OverSigns(Over(a, g), d);
    assert d * g * (a / g / d) == a;
  }
}
