/** What a book of weights holds in shares, and that drifting its weights with prices keeps the shares. */
module ShareAccounting {
  import opened Prelude
  import opened WeightDrift

  type Price = x: real | x > 0.0 witness 1.0

  datatype Book = Book(equity: real, weights: seq<real>, cash: real)

  // ---------------------------------------------------------------- price moves

  function Move(before: Option<Price>, after: Option<Price>): Option<real> {
    if before.Some? && after.Some? then Some(Over(after.value, before.value) - 1.0) else None
  }

  function Moves(before: seq<Option<Price>>, after: seq<Option<Price>>): (r: seq<Option<real>>)
    requires |before| == |after|
    ensures |r| == |before| && forall i :: 0 <= i < |r| ==> r[i] == Move(before[i], after[i])
  {
    seq(|before|, i requires 0 <= i < |before| => Move(before[i], after[i]))
  }

  function Quotes(prices: seq<Price>): (r: seq<Option<Price>>)
    ensures |r| == |prices| && forall i :: 0 <= i < |r| ==> r[i] == Some(prices[i])
  {
    seq(|prices|, i requires 0 <= i < |prices| => Some(prices[i]))
  }

  /** The book after its holdings moved with the prices. */
  function Carried(b: Book, before: seq<Option<Price>>, after: seq<Option<Price>>): Result<(Book, real), Error>
    requires |b.weights| == |before| == |after|
  {
    var d := Drift(b.weights, b.cash, Moves(before, after));
    if d.Err? then Err(d.error)
    else Ok((Book(Times(b.equity, 1.0 + d.value.ret), d.value.weights, d.value.cash), d.value.ret))
  }

  predicate Full(quotes: seq<Option<Price>>) { forall i :: 0 <= i < |quotes| ==> quotes[i].Some? }

  function Closes(quotes: seq<Option<Price>>): (r: seq<Price>)
    requires Full(quotes)
    ensures |r| == |quotes| && Quotes(r) == quotes
  {
    seq(|quotes|, i requires 0 <= i < |quotes| => quotes[i].value)
  }

  lemma PositiveOver(a: real, b: real)
    requires a > 0.0 && b > 0.0
    ensures Over(a, b) > 0.0
  {
  }

  lemma OverAtMostOne(a: real, b: real)
    requires b > 0.0 && a <= b
    ensures Over(a, b) <= 1.0
  {
  }

  lemma MovesArePriced(before: seq<Price>, after: seq<Price>)
    requires |before| == |after|
    ensures Priced(Moves(Quotes(before), Quotes(after)))
  {
    var moves := Moves(Quotes(before), Quotes(after));
    forall i | 0 <= i < |moves|
      ensures moves[i].Some? && moves[i].value > -1.0
    {
      PositiveOver(after[i], before[i]);
      assert moves[i] == Some(Over(after[i], before[i]) - 1.0);
    }
  }

  // ---------------------------------------------------------------- holding shares

  ghost predicate HoldsShare(b: Book, bought: Book, base: seq<Price>, prices: seq<Price>, i: nat)
    requires |b.weights| == |bought.weights| == |base| == |prices| && i < |prices|
  {
    Times(b.equity, b.weights[i]) == Times(Times(bought.equity, bought.weights[i]), Over(prices[i], base[i]))
  }

  /** The book at these prices holds the shares another one bought at base prices, and the money that one kept. */
  ghost predicate HoldsShares(b: Book, bought: Book, base: seq<Price>, prices: seq<Price>) {
    && |b.weights| == |bought.weights| == |base| == |prices|
    && Balanced(b.weights, b.cash)
    && Times(b.equity, b.cash) == Times(bought.equity, bought.cash)
    && forall i :: 0 <= i < |prices| ==> HoldsShare(b, bought, base, prices, i)
  }

  /** What one unit of wealth in these weights has become when the prices went from the base to these. */
  function Relative(weights: seq<real>, base: seq<Price>, prices: seq<Price>): real
    requires |weights| == |base| == |prices|
  {
    if weights == [] then 0.0
    else
      var n := |weights| - 1;
      Relative(weights[..n], base[..n], prices[..n]) + Times(weights[n], Over(prices[n], base[n]))
  }

  lemma Associates(a: real, b: real, c: real)
    ensures Times(Times(a, b), c) == Times(a, Times(b, c))
  {
  }

  lemma ChainPrices(stake: real, base: real, before: real, after: real)
    requires base > 0.0 && before > 0.0
    ensures Times(Times(stake, Over(before, base)), Over(after, before)) == Times(stake, Over(after, base))
  {
    assert before / base * (after / before) == after / base;
    Associates(stake, Over(before, base), Over(after, before));
  }

  /** A balanced book holds its own shares. */
  lemma HoldsItself(b: Book, prices: seq<Price>)
    requires |b.weights| == |prices| && Balanced(b.weights, b.cash)
    ensures HoldsShares(b, b, prices, prices)
  {
    forall i | 0 <= i < |prices|
      ensures HoldsShare(b, b, prices, prices, i)
    {
      assert Over(prices[i], prices[i]) == 1.0;
      assert Times(Times(b.equity, b.weights[i]), 1.0) == Times(b.equity, b.weights[i]);
    }
  }

  /** One price move keeps the shares and the cash. */
  lemma MoveKeepsShares(b: Book, bought: Book, base: seq<Price>, before: seq<Price>, after: seq<Price>)
    requires HoldsShares(b, bought, base, before) && |after| == |before|
    ensures Carried(b, Quotes(before), Quotes(after)).Ok?
    ensures HoldsShares(Carried(b, Quotes(before), Quotes(after)).value.0, bought, base, after)
  {
    var moves := Moves(Quotes(before), Quotes(after));
    MovesArePriced(before, after);
    DriftKeepsHoldings(b.weights, b.cash, moves);
    var d := Drift(b.weights, b.cash, moves).value;
    var next := Book(Times(b.equity, 1.0 + d.ret), d.weights, d.cash);
    Associates(b.equity, 1.0 + d.ret, d.cash);
    forall i | 0 <= i < |after|
      ensures HoldsShare(next, bought, base, after, i)
    {
      assert HoldsShare(b, bought, base, before, i);
      assert 1.0 + moves[i].value == Over(after[i], before[i]);
      Associates(b.equity, 1.0 + d.ret, d.weights[i]);
      Associates(b.equity, b.weights[i], Over(after[i], before[i]));
      ChainPrices(Times(bought.equity, bought.weights[i]), base[i], before[i], after[i]);
    }
  }

  lemma {:induction false} HoldingsAddUp(equity: real, weights: seq<real>, capital: real, bought: seq<real>, base: seq<Price>, prices: seq<Price>)
    requires |weights| == |bought| == |base| == |prices|
    requires forall i :: 0 <= i < |prices| ==>
               Times(equity, weights[i]) == Times(Times(capital, bought[i]), Over(prices[i], base[i]))
    ensures Times(equity, Sum(weights)) == Times(capital, Relative(bought, base, prices))
  {
    if prices != [] {
      var n := |prices| - 1;
      HoldingsAddUp(equity, weights[..n], capital, bought[..n], base[..n], prices[..n]);
      Distributes(Sum(weights[..n]), weights[n], equity);
      Associates(capital, bought[n], Over(prices[n], base[n]));
      Distributes(Relative(bought[..n], base[..n], prices[..n]), Times(bought[n], Over(prices[n], base[n])), capital);
    }
  }

  /** So equity is the capital times the cash kept plus each weight times its price over its base price. */
  lemma EquityIsShares(b: Book, bought: Book, base: seq<Price>, prices: seq<Price>)
    requires HoldsShares(b, bought, base, prices)
    ensures b.equity == Times(bought.equity, bought.cash + Relative(bought.weights, base, prices))
  {
    forall i | 0 <= i < |prices|
      ensures Times(b.equity, b.weights[i]) == Times(Times(bought.equity, bought.weights[i]), Over(prices[i], base[i]))
    {
      assert HoldsShare(b, bought, base, prices, i);
    }
    HoldingsAddUp(b.equity, b.weights, bought.equity, bought.weights, base, prices);
    Distributes(Sum(b.weights), b.cash, b.equity);
    Distributes(bought.cash, Relative(bought.weights, base, prices), bought.equity);
    assert Times(b.equity, 1.0) == b.equity;
  }

  /** The same in ten-thousandths, the unit costs are charged in. */
  lemma EquityInTenThousandths(c: Book, u: Book, base: seq<Price>, prices: seq<Price>, charged: real)
    requires HoldsShares(c, u, base, prices) && Times(10000.0, u.equity) == charged
    ensures Times(10000.0, c.equity) == Times(charged, u.cash + Relative(u.weights, base, prices))
  {
    EquityIsShares(c, u, base, prices);
    Associates(10000.0, u.equity, u.cash + Relative(u.weights, base, prices));
  }
}
