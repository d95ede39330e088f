/** Buy-and-hold by repeated weight drifting, and the share accounting it must agree with. */
module BuyAndHold {
  import opened Prelude
  import opened WeightDrift
  import opened ShareAccounting

  /**
   Daily prices by session and asset. `first` is the first simulated session: the simulated sessions
   are all sessions from there on. A close may be missing; opens are validated to be there.
   */
  datatype Market = Market(opens: seq<seq<Price>>, closes: seq<seq<Option<Price>>>, first: nat)

  datatype Terms = Terms(target: seq<real>, capital: real, costBps: real, slippageBps: real)

  datatype DayRow = DayRow(book: Book, overnight: real, intraday: real, drawdown: real)

  ghost predicate Shaped(m: Market, n: nat) {
    && |m.opens| == |m.closes| && m.first < |m.opens|
    && forall t :: 0 <= t < |m.opens| ==> |m.opens[t]| == n && |m.closes[t]| == n
  }

  // ---------------------------------------------------------------- the purchase

  function IntendedCash(target: seq<real>): real { Max(0.0, 1.0 - Sum(target)) }

  function Changes(target: seq<real>): (r: seq<real>)
    ensures |r| == |target| && forall i :: 0 <= i < |r| ==> r[i] == Abs(target[i] - 0.0)
  {
    seq(|target|, i requires 0 <= i < |target| => Abs(target[i] - 0.0))
  }

  /** One-way turnover of moving from all cash into the target. */
  function Turnover(target: seq<real>): real { 0.5 * (Sum(Changes(target)) + Abs(IntendedCash(target) - 1.0)) }

  function CostFraction(t: Terms, bps: real): real { Times(Turnover(t.target), bps) / 10000.0 }

  /** The capital left once costs and slippage of the purchase are paid. */
  function Invested(t: Terms): real {
    t.capital - (Times(t.capital, CostFraction(t, t.costBps)) + Times(t.capital, CostFraction(t, t.slippageBps)))
  }

  /** The book right after the purchase. */
  function Purchase(p: Terms): Book { Book(Invested(p), p.target, IntendedCash(p.target)) }

  // ---------------------------------------------------------------- the simulation

  /** The book at the open of a session, holding what it held at the close before, or just bought. */
  ghost function AtOpen(m: Market, p: Terms, t: nat): (r: Result<(Book, real), Error>)
    requires Shaped(m, |p.target|) && m.first <= t < |m.opens|
    ensures r.Ok? ==> |r.value.0.weights| == |p.target|
    decreases t, 0
  {
    if t == m.first then Ok((Purchase(p), 0.0))
    else
      var before := AtClose(m, p, t - 1);
      if before.Err? then Err(before.error) else Carried(before.value.0, m.closes[t - 1], Quotes(m.opens[t]))
  }

  ghost function AtClose(m: Market, p: Terms, t: nat): (r: Result<(Book, real), Error>)
    requires Shaped(m, |p.target|) && m.first <= t < |m.opens|
    ensures r.Ok? ==> |r.value.0.weights| == |p.target|
    decreases t, 1
  {
    var open := AtOpen(m, p, t);
    if open.Err? then Err(open.error) else Carried(open.value.0, Quotes(m.opens[t]), m.closes[t])
  }

  /** Row `k` records the book at the close of the k-th simulated session and the session's two moves. */
  ghost predicate RowOf(m: Market, p: Terms, k: nat, row: DayRow)
    requires Shaped(m, |p.target|) && m.first + k < |m.opens|
  {
    var t := m.first + k;
    && AtClose(m, p, t) == Ok((row.book, row.intraday))
    && AtOpen(m, p, t).Ok? && AtOpen(m, p, t).value.1 == row.overnight
  }

  ghost predicate RowsOf(m: Market, p: Terms, rows: seq<DayRow>)
    requires Shaped(m, |p.target|) && m.first + |rows| <= |m.opens|
  {
    forall k {:trigger RowOf(m, p, k, rows[k])} :: 0 <= k < |rows| ==> RowOf(m, p, k, rows[k])
  }

  /** The highest of the starting capital and the equities so far. */
  function HighWater(capital: real, rows: seq<DayRow>): real {
    if rows == [] then capital else Max(HighWater(capital, rows[..|rows| - 1]), rows[|rows| - 1].book.equity)
  }

  /** The drawdown leads from the high-water mark to the equity. */
  ghost predicate FellTo(high: real, drawdown: real, equity: real) { Times(high, 1.0 + drawdown) == equity && drawdown <= 0.0 }

  ghost predicate FallsOf(capital: real, rows: seq<DayRow>) {
    forall k :: 0 <= k < |rows| ==> FellTo(HighWater(capital, rows[..k + 1]), rows[k].drawdown, rows[k].book.equity)
  }

  lemma FallsGrow(capital: real, rows: seq<DayRow>, row: DayRow)
    requires FallsOf(capital, rows) && FellTo(Max(HighWater(capital, rows), row.book.equity), row.drawdown, row.book.equity)
    ensures FallsOf(capital, rows + [row])
    ensures HighWater(capital, rows + [row]) == Max(HighWater(capital, rows), row.book.equity)
  {
    var more := rows + [row];
    assert more[..|rows|] == rows && more[..|rows| + 1] == more;
    forall k | 0 <= k < |more|
      ensures FellTo(HighWater(capital, more[..k + 1]), more[k].drawdown, more[k].book.equity)
    {
      if k < |rows| {
        assert more[..k + 1] == rows[..k + 1];
      }
    }
  }

  method Carry(b: Book, before: seq<Option<Price>>, after: seq<Option<Price>>) returns (r: Result<(Book, real), Error>)
    requires |b.weights| == |before| == |after|
    ensures r == Carried(b, before, after)
  {
    var d := DriftWeights(b.weights, b.cash, Moves(before, after));
    if d.Err? {
      return Err(d.error);
    }
    r := Ok((Book(Times(b.equity, 1.0 + d.value.ret), d.value.weights, d.value.cash), d.value.ret));
  }

  /** One session from the book held at the close before; the first session buys the target instead. */
  method Session(m: Market, p: Terms, k: nat, held: Book) returns (r: Result<DayRow, Error>)
    requires Shaped(m, |p.target|) && m.first + k < |m.opens|
    requires k > 0 ==> AtClose(m, p, m.first + k - 1).Ok? && AtClose(m, p, m.first + k - 1).value.0 == held
    ensures r.Ok? <==> Valued(m, p, k)
    ensures r.Ok? ==> RowOf(m, p, k, r.value)
  {
    var t := m.first + k;
    var open: Result<(Book, real), Error>;
    if k == 0 {
      open := Ok((Purchase(p), 0.0));
    } else {
      open := Carry(held, m.closes[t - 1], Quotes(m.opens[t]));
    }
    assert open == AtOpen(m, p, t);
    if open.Err? {
      return Err(open.error);
    }
    var close := Carry(open.value.0, Quotes(m.opens[t]), m.closes[t]);
    if close.Err? {
      return Err(close.error);
    }
    r := Ok(DayRow(close.value.0, open.value.1, close.value.1, 0.0));
  }

  method Fall(equity: real, peak: real) returns (high: real, drawdown: real)
    requires peak > 0.0
    ensures high > 0.0 && high == Max(peak, equity) && FellTo(high, drawdown, equity)
  {
    high := Max(peak, equity);
    drawdown := Over(equity, high) - 1.0;
    OverAtMostOne(equity, high);
    OverTimes(equity, high);
  }

  /** The k-th simulated session can be valued. */
  ghost predicate Valued(m: Market, p: Terms, k: nat)
    requires Shaped(m, |p.target|)
  {
    m.first + k < |m.opens| ==> AtClose(m, p, m.first + k).Ok?
  }

  /** What the loop carries: the rows so far, the book of the last of them and the running peak. */
  ghost predicate Progress(m: Market, p: Terms, rows: seq<DayRow>, book: Book, peak: real)
    requires Shaped(m, |p.target|) && m.first + |rows| <= |m.opens|
  {
    && peak > 0.0 && RowsOf(m, p, rows) && (rows != [] ==> rows[|rows| - 1].book == book)
    && peak == HighWater(p.capital, rows) && FallsOf(p.capital, rows)
  }

  lemma RowIgnoresDrawdown(m: Market, p: Terms, k: nat, row: DayRow, drawdown: real)
    requires Shaped(m, |p.target|) && m.first + k < |m.opens| && RowOf(m, p, k, row)
    ensures RowOf(m, p, k, row.(drawdown := drawdown))
  {
  }

  lemma LastBook(m: Market, p: Terms, rows: seq<DayRow>, book: Book, peak: real)
    requires Shaped(m, |p.target|) && 0 < |rows| && m.first + |rows| < |m.opens| && Progress(m, p, rows, book, peak)
    ensures AtClose(m, p, m.first + |rows| - 1).Ok? && AtClose(m, p, m.first + |rows| - 1).value.0 == book
  {
    assert RowOf(m, p, |rows| - 1, rows[|rows| - 1]);
  }

  method Step(m: Market, p: Terms, rows: seq<DayRow>, book: Book, peak: real)
      returns (r: Result<(seq<DayRow>, Book, real), Error>)
    requires Shaped(m, |p.target|) && m.first + |rows| < |m.opens| && Progress(m, p, rows, book, peak)
    ensures r.Ok? <==> Valued(m, p, |rows|)
    ensures r.Ok? ==> |r.value.0| == |rows| + 1 && Progress(m, p, r.value.0, r.value.1, r.value.2)
  {
    if rows != [] {
      LastBook(m, p, rows, book, peak);
    }
    var day := Session(m, p, |rows|, book);
    if day.Err? {
      return Err(day.error);
    }
    var high, drawdown := Fall(day.value.book.equity, peak);
    var row := day.value.(drawdown := drawdown);
    RowIgnoresDrawdown(m, p, |rows|, day.value, drawdown);
    FallsGrow(p.capital, rows, row);
    var more := AddRow(m, p, rows, row);
    r := Ok((more, day.value.book, high));
  }

  /** Every session so far could be valued, and the loop carries what those sessions gave. */
  ghost predicate Underway(m: Market, p: Terms, rows: seq<DayRow>, book: Book, peak: real)
    requires Shaped(m, |p.target|)
  {
    && m.first + |rows| <= |m.opens| && Progress(m, p, rows, book, peak)
    && forall k: nat :: k < |rows| ==> Valued(m, p, k)
  }

  lemma Continues(m: Market, p: Terms, rows: seq<DayRow>, book: Book, peak: real, next: (seq<DayRow>, Book, real))
    requires Shaped(m, |p.target|) && Underway(m, p, rows, book, peak) && Valued(m, p, |rows|)
    requires m.first + |rows| < |m.opens| && |next.0| == |rows| + 1 && Progress(m, p, next.0, next.1, next.2)
    ensures Underway(m, p, next.0, next.1, next.2)
  {
  }

  /** The whole run: a row per session, or the refusal of the first session that cannot be valued. */
  method Run(m: Market, p: Terms) returns (r: Result<seq<DayRow>, Error>)
    requires Shaped(m, |p.target|) && p.capital > 0.0
    ensures r.Ok? <==> forall k: nat :: m.first + k < |m.opens| ==> Valued(m, p, k)
    ensures r.Ok? ==> |r.value| == |m.opens| - m.first && RowsOf(m, p, r.value) && FallsOf(p.capital, r.value)
  {
    var book := Book(p.capital, seq(|p.target|, _ => 0.0), 1.0);
    var peak := p.capital;
    var rows: seq<DayRow> := [];
    while m.first + |rows| < |m.opens|
      invariant Underway(m, p, rows, book, peak)
      decreases |m.opens| - |rows|
    {
      var next := Step(m, p, rows, book, peak);
      if next.Err? {
        return Err(next.error);
      }
      Continues(m, p, rows, book, peak, next.value);
      rows, book, peak := next.value.0, next.value.1, next.value.2;
    }
    r := Ok(rows);
  }

  method AddRow(m: Market, p: Terms, rows: seq<DayRow>, row: DayRow) returns (r: seq<DayRow>)
    requires Shaped(m, |p.target|) && m.first + |rows| < |m.opens|
    requires RowsOf(m, p, rows) && RowOf(m, p, |rows|, row)
    ensures r == rows + [row] && RowsOf(m, p, r)
  {
    r := rows + [row];
    forall k | 0 <= k < |r|
      ensures RowOf(m, p, k, r[k])
    {
      if k < |rows| {
        assert RowOf(m, p, k, rows[k]);
      }
    }
  }

  // ---------------------------------------------------------------- share accounting

  /** A target a caller may ask for: no short positions, nothing borrowed. */
  ghost predicate Affordable(target: seq<real>) {
    (forall i :: 0 <= i < |target| ==> target[i] >= 0.0) && Sum(target) <= 1.0
  }

  /** Every close from the first session to `t` is there. */
  ghost predicate Quoted(m: Market, n: nat, t: nat)
    requires Shaped(m, n) && t < |m.opens|
  {
    forall s, i :: m.first <= s <= t && 0 <= i < n ==> m.closes[s][i].Some?
  }

  lemma QuotedEarlier(m: Market, n: nat, t: nat, s: nat)
    requires Shaped(m, n) && m.first <= s <= t < |m.opens| && Quoted(m, n, t)
    ensures Quoted(m, n, s) && Full(m.closes[s])
  {
  }

  /** At the open of a session the book holds the shares and the cash of the purchase. */
  ghost predicate HoldsAtOpen(m: Market, p: Terms, t: nat)
    requires Shaped(m, |p.target|) && m.first <= t < |m.opens|
  {
    AtOpen(m, p, t).Ok? && HoldsShares(AtOpen(m, p, t).value.0, Purchase(p), m.opens[m.first], m.opens[t])
  }

  ghost predicate HoldsAtClose(m: Market, p: Terms, t: nat)
    requires Shaped(m, |p.target|) && m.first <= t < |m.opens|
  {
    && Full(m.closes[t]) && AtClose(m, p, t).Ok?
    && HoldsShares(AtClose(m, p, t).value.0, Purchase(p), m.opens[m.first], Closes(m.closes[t]))
  }

  lemma OpenKeepsShares(m: Market, p: Terms, t: nat)
    requires Shaped(m, |p.target|) && m.first < t < |m.opens| && HoldsAtClose(m, p, t - 1)
    ensures HoldsAtOpen(m, p, t)
  {
    MoveKeepsShares(AtClose(m, p, t - 1).value.0, Purchase(p), m.opens[m.first], Closes(m.closes[t - 1]), m.opens[t]);
  }

  lemma CloseKeepsShares(m: Market, p: Terms, t: nat)
    requires Shaped(m, |p.target|) && m.first <= t < |m.opens| && Full(m.closes[t]) && HoldsAtOpen(m, p, t)
    ensures HoldsAtClose(m, p, t)
  {
    MoveKeepsShares(AtOpen(m, p, t).value.0, Purchase(p), m.opens[m.first], m.opens[t], Closes(m.closes[t]));
  }

  lemma {:induction false} SharesAreKept(m: Market, p: Terms, t: nat)
    requires Shaped(m, |p.target|) && m.first <= t < |m.opens| && Affordable(p.target) && Quoted(m, |p.target|, t)
    ensures HoldsAtOpen(m, p, t) && HoldsAtClose(m, p, t)
    decreases t
  {
    QuotedEarlier(m, |p.target|, t, t);
    if t == m.first {
      HoldsItself(Purchase(p), m.opens[m.first]);
    } else {
      QuotedEarlier(m, |p.target|, t, t - 1);
      SharesAreKept(m, p, t - 1);
      OpenKeepsShares(m, p, t);
    }
    CloseKeepsShares(m, p, t);
  }

  lemma CarryReports(b: Book, before: seq<Option<Price>>, after: seq<Option<Price>>)
    requires |b.weights| == |before| == |after| && Carried(b, before, after).Ok?
    ensures Times(b.equity, 1.0 + Carried(b, before, after).value.1) == Carried(b, before, after).value.0.equity
  {
  }

  /** The intraday move a row reports is the return from open to close. */
  lemma {:induction false} IntradayIsReported(m: Market, p: Terms, t: nat)
    requires Shaped(m, |p.target|) && m.first <= t < |m.opens| && AtClose(m, p, t).Ok?
    ensures AtOpen(m, p, t).Ok?
    ensures Times(AtOpen(m, p, t).value.0.equity, 1.0 + AtClose(m, p, t).value.1) == AtClose(m, p, t).value.0.equity
  {
    CarryReports(AtOpen(m, p, t).value.0, Quotes(m.opens[t]), m.closes[t]);
  }

  /** The overnight move is the return from the previous close to the open, and none in the first session. */
  lemma {:induction false} OvernightIsReported(m: Market, p: Terms, t: nat)
    requires Shaped(m, |p.target|) && m.first < t < |m.opens| && AtOpen(m, p, t).Ok?
    ensures AtClose(m, p, t - 1).Ok? && AtOpen(m, p, m.first).Ok? && AtOpen(m, p, m.first).value.1 == 0.0
    ensures Times(AtClose(m, p, t - 1).value.0.equity, 1.0 + AtOpen(m, p, t).value.1) == AtOpen(m, p, t).value.0.equity
  {
    CarryReports(AtClose(m, p, t - 1).value.0, m.closes[t - 1], Quotes(m.opens[t]));
  }

  lemma {:induction false} ChangesTotal(target: seq<real>)
    requires forall i :: 0 <= i < |target| ==> target[i] >= 0.0
    ensures Sum(Changes(target)) == Sum(target)
  {
    if target != [] {
      var n := |target| - 1;
      ChangesTotal(target[..n]);
      assert Changes(target)[..n] == Changes(target[..n]);
    }
  }

  /** Buying an affordable target turns over exactly what is bought. */
  lemma PurchaseTurnover(target: seq<real>)
    requires Affordable(target)
    ensures Turnover(target) == Sum(target) && IntendedCash(target) == 1.0 - Sum(target)
  {
    ChangesTotal(target);
    SumNonnegative(target);
  }

  /** Any target without shorts turns over what it buys; one that buys more than there is, half of that and of all the cash. */
  lemma {:induction false} TurnoverOfLongTarget(target: seq<real>)
    requires forall i :: 0 <= i < |target| ==> target[i] >= 0.0
    ensures Turnover(target) == Min(Sum(target), 0.5 * (Sum(target) + 1.0)) && IntendedCash(target) == Max(0.0, 1.0 - Sum(target))
  {
    ChangesTotal(target);
    SumNonnegative(target);
    var total := Sum(target);
    assert Turnover(target) == 0.5 * (total + Abs(Max(0.0, 1.0 - total) - 1.0));
  }

  lemma TenThousandths(capital: real, turnover: real, bps: real)
    ensures Times(10000.0, Times(capital, Times(turnover, bps) / 10000.0)) == Times(capital, Times(turnover, bps))
  {
  }

  /** The purchase costs both rates, in ten-thousandths of what is bought. */
  lemma PurchaseCosts(p: Terms)
    requires Affordable(p.target)
    ensures Times(10000.0, Purchase(p).equity) == Times(p.capital, 10000.0 - Times(Sum(p.target), p.costBps + p.slippageBps))
  {
    var bought := Sum(p.target);
    var cost, slippage := Times(p.capital, CostFraction(p, p.costBps)), Times(p.capital, CostFraction(p, p.slippageBps));
    PurchaseTurnover(p.target);
    TenThousandths(p.capital, bought, p.costBps);
    TenThousandths(p.capital, bought, p.slippageBps);
    Distributes(p.costBps, p.slippageBps, bought);
    Distributes(Times(bought, p.costBps), Times(bought, p.slippageBps), p.capital);
    Distributes(10000.0 - Times(bought, p.costBps + p.slippageBps), Times(bought, p.costBps + p.slippageBps), p.capital);
    assert Times(10000.0, p.capital - (cost + slippage)) == Times(10000.0, p.capital) - (Times(10000.0, cost) + Times(10000.0, slippage));
    assert Times(10000.0, p.capital) == Times(p.capital, 10000.0);
  }

  /**
   Drifting weights for any number of sessions is share accounting. At every close, equity is the capital less
   both rates of the amount bought, times the cash share kept plus each target weight times its close over its
   first open; weights and cash total one and no guard fires.
   */
  lemma DriftingIsShareAccounting(m: Market, p: Terms, t: nat)
    requires Shaped(m, |p.target|) && m.first <= t < |m.opens| && Affordable(p.target) && Quoted(m, |p.target|, t)
    ensures AtClose(m, p, t).Ok? && Full(m.closes[t])
    ensures var b := AtClose(m, p, t).value.0;
            && Balanced(b.weights, b.cash)
            && Times(10000.0, b.equity) ==
               Times(Times(p.capital, 10000.0 - Times(Sum(p.target), p.costBps + p.slippageBps)),
                     1.0 - Sum(p.target) + Relative(p.target, m.opens[m.first], Closes(m.closes[t])))
  {
    SharesAreKept(m, p, t);
    PurchaseTurnover(p.target);
    PurchaseCosts(p);
    EquityInTenThousandths(AtClose(m, p, t).value.0, Purchase(p), m.opens[m.first], Closes(m.closes[t]),
                           Times(p.capital, 10000.0 - Times(Sum(p.target), p.costBps + p.slippageBps)));
  }
}
