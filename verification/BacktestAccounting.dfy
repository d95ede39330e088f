/** The money of the rebalancing backtest: what a decision costs, buys and is worth until the next one. */
module BacktestAccounting {
  import opened Prelude
  import opened WeightDrift
  import opened ShareAccounting
  import opened SessionLoop
  import opened CausalBacktest

  function BookOf<S, R, A>(s: State<S, R, A>): Book { Book(s.equity, s.weights, s.cash) }

  function OpensAt(d: Data, p: Plan, t: nat): (r: seq<Price>)
    requires Shaped(d, p) && t < |d.opens|
  {
    Pick(d.opens[t], p.universe)
  }

  function ClosesAt(d: Data, p: Plan, t: nat): (r: seq<Price>)
    requires Shaped(d, p) && AllQuoted(d, p) && t < |d.closes|
  {
    Closes(Pick(d.closes[t], p.universe))
  }

  /** What every session of a run that cannot fail starts from. */
  ghost predicate Sound<S, R, A(!new)>(d: Data, p: Plan, b: Brains<S, R, A>) {
    Shaped(d, p) && AllQuoted(d, p) && p.capital > 0.0 && AlwaysPrudent(p, b)
  }

  // ---------------------------------------------------------------- one session

  /** Overnight, the book keeps its shares from the previous close to the open. */
  lemma OvernightHolds<S, R, A>(d: Data, p: Plan, s: State<S, R, A>, t: nat, bought: Book, base: seq<Price>)
    requires Shaped(d, p) && AllQuoted(d, p) && 0 < t < |d.opens| && |s.weights| == |p.universe|
    requires HoldsShares(BookOf(s), bought, base, ClosesAt(d, p, t - 1))
    ensures Overnight(d, p, s, t).Ok?
    ensures var open := Overnight(d, p, s, t).value.0;
            && HoldsShares(BookOf(open), bought, base, OpensAt(d, p, t))
            && open == s.(equity := open.equity, weights := open.weights, cash := open.cash)
            && Times(s.equity, 1.0 + Overnight(d, p, s, t).value.1) == open.equity
  {
    MoveKeepsShares(BookOf(s), bought, base, ClosesAt(d, p, t - 1), OpensAt(d, p, t));
  }

  /** During the day, from the open to the close. */
  lemma IntradayHolds<S, R, A>(d: Data, p: Plan, s: State<S, R, A>, overnight: real, t: nat, bought: Book, base: seq<Price>)
    requires Shaped(d, p) && AllQuoted(d, p) && 0 < t < |d.opens| && Healthy(p, s)
    requires HoldsShares(BookOf(s), bought, base, OpensAt(d, p, t))
    ensures Intraday(d, p, s, overnight, t).Ok?
    ensures HoldsShares(BookOf(Intraday(d, p, s, overnight, t).value), bought, base, ClosesAt(d, p, t))
  {
    MoveKeepsShares(BookOf(s), bought, base, OpensAt(d, p, t), ClosesAt(d, p, t));
    IntradayKeeps(d, p, s, overnight, t);
  }

  /** Both rates in ten-thousandths of the turnover, taken from the equity at the open. */
  lemma CostsAreCharged(equity: real, turnover: real, cost: real, slippage: real)
    ensures Times(10000.0, equity - (Times(equity, Fraction(turnover, cost)) + Times(equity, Fraction(turnover, slippage))))
         == Times(equity, 10000.0 - Times(turnover, cost + slippage))
  {
    assert Times(10000.0, Times(equity, Fraction(turnover, cost))) == Times(equity, Times(turnover, cost));
    assert Times(10000.0, Times(equity, Fraction(turnover, slippage))) == Times(equity, Times(turnover, slippage));
    ChargesAddUp(equity, turnover, cost, slippage, Times(equity, Fraction(turnover, cost)), Times(equity, Fraction(turnover, slippage)));
  }

  lemma ChargesAddUp(equity: real, turnover: real, cost: real, slippage: real, c: real, s: real)
    requires Times(10000.0, c) == Times(equity, Times(turnover, cost))
    requires Times(10000.0, s) == Times(equity, Times(turnover, slippage))
    ensures Times(10000.0, equity - (c + s)) == Times(equity, 10000.0 - Times(turnover, cost + slippage))
  {
    Distributes(cost, slippage, turnover);
    Distributes(Times(turnover, cost), Times(turnover, slippage), equity);
    Distributes(10000.0 - Times(turnover, cost + slippage), Times(turnover, cost + slippage), equity);
    Distributes(equity - (c + s), c + s, 10000.0);
    Distributes(c, s, 10000.0);
    assert Times(10000.0, equity) == Times(equity, 10000.0);
  }

  /** The standing a decision is based on: the book at the open, against the peak and against the previous close. */
  ghost predicate StandsAt<S, R, A>(standing: Standing, s: State<S, R, A>, open: State<S, R, A>) {
    && standing.weights == open.weights && standing.cash == open.cash && standing.equity == open.equity
    && standing.latched == s.latched
    && Times(s.peak, 1.0 + standing.drawdown) == open.equity
    && (if open.equity >= s.equity then standing.loss == 0.0
        else standing.loss < 0.0 && Times(s.equity, 1.0 + standing.loss) == open.equity)
  }

  lemma RatioMeans(a: real, b: real)
    requires b > 0.0
    ensures Times(b, 1.0 + Ratio(a, b)) == a
    ensures Ratio(a, b) >= 0.0 <==> a >= b
  {
    OverTimes(a, b);
    if a >= b {
      assert a / b >= 1.0;
    } else {
      assert a / b < 1.0;
    }
  }

  /** A due session: one receipt more, the decided weights and cash, and the equity at the open less both costs. */
  ghost predicate CarriedOut<S, R, A>(d: Data, p: Plan, s: State<S, R, A>, open: State<S, R, A>, u: State<S, R, A>, t: nat)
    requires Shaped(d, p) && t < |d.opens|
  {
    && |u.receipts| == |s.receipts| + 1 && u.receipts[..|s.receipts|] == s.receipts
    && var r := u.receipts[|s.receipts|];
       && r.session == t && StandsAt(r.before, s, open) && r.execution == OpensAt(d, p, t)
       && u.weights == r.risk.weights && u.cash == r.risk.cash && u.latched == r.risk.latched
       && Times(10000.0, u.equity) == Times(r.before.equity, 10000.0 - Times(r.risk.turnover, p.costBps + p.slippageBps))
       && u.equity == r.before.equity - (r.cost + r.slippage)
       && Times(10000.0, r.cost) == Times(r.before.equity, Times(r.risk.turnover, p.costBps))
       && u.peak == s.peak && u.rows == s.rows && u.previous == s.previous
  }

  lemma CostInTenThousandths(equity: real, turnover: real, bps: real)
    ensures Times(10000.0, Times(equity, Fraction(turnover, bps))) == Times(equity, Times(turnover, bps))
  {
  }

  lemma RebalanceIsCarriedOut<S, R, A(!new)>(d: Data, p: Plan, b: Brains<S, R, A>, s: State<S, R, A>, open: State<S, R, A>, t: nat)
    requires Shaped(d, p) && 0 < t < |d.opens| && AlwaysPrudent(p, b) && b.due(t, s.previous)
    requires s.equity > 0.0 && s.peak > 0.0
    requires open == s.(equity := open.equity, weights := open.weights, cash := open.cash) && Healthy(p, open)
    ensures Rebalanced(d, p, b, open, s.equity, t).Ok?
    ensures CarriedOut(d, p, s, open, Rebalanced(d, p, b, open, s.equity, t).value, t)
  {
    var r := Decide(d, p, b, StandingOf(open, s.equity), t);
    RebalanceKeeps(d, p, b, open, s.equity, t);
    assert Prudent(p, r.risk);
    assert Floored(r.risk.weights, |p.universe|) == r.risk.weights;
    RatioMeans(open.equity, s.peak);
    RatioMeans(open.equity, s.equity);
    CostsAreCharged(open.equity, r.risk.turnover, p.costBps, p.slippageBps);
    CostInTenThousandths(open.equity, r.risk.turnover, p.costBps);
  }

  // ---------------------------------------------------------------- the run

  /** Equity, peak and the session counter of a run that cannot fail. */
  ghost predicate Going<S, R, A>(p: Plan, s: State<S, R, A>) { Healthy(p, s) && s.peak > 0.0 }

  lemma {:induction false} RunGoes<S(!new), R(!new), A(!new)>(d: Data, p: Plan, b: Brains<S, R, A>, t: nat)
    requires Sound(d, p, b) && p.first <= t <= |d.opens|
    ensures Before(d, p, b, t).Ok? && Going(p, Before(d, p, b, t).value)
    ensures Before(d, p, b, t).value.previous == if t == p.first then None else Some(t - 1)
    decreases t
  {
    PrudentRunCompletes(d, p, b, t);
    if t > p.first {
      RunGoes(d, p, b, t - 1);
    }
  }

  /** The state at the open of a session, before any decision. */
  ghost function AtOpen<S, R, A>(d: Data, p: Plan, b: Brains<S, R, A>, t: nat): State<S, R, A>
    requires Shaped(d, p) && p.first <= t < |d.opens| && Before(d, p, b, t).Ok?
    requires |Before(d, p, b, t).value.weights| == |p.universe| && Overnight(d, p, Before(d, p, b, t).value, t).Ok?
  {
    Overnight(d, p, Before(d, p, b, t).value, t).value.0
  }

  predicate Due<S, R, A>(p: Plan, b: Brains<S, R, A>, t: nat)
    requires p.first <= t
  {
    b.due(t, if t == p.first then None else Some(t - 1))
  }

  /** The open of a session against the close before it: the same shares, and equity as their prices say. */
  ghost predicate OpensWith<S, R, A>(d: Data, p: Plan, s: State<S, R, A>, open: State<S, R, A>, t: nat)
    requires Shaped(d, p) && AllQuoted(d, p) && 0 < t < |d.opens| && |s.weights| == |p.universe|
  {
    && Healthy(p, open)
    && open == s.(equity := open.equity, weights := open.weights, cash := open.cash)
    && HoldsShares(BookOf(open), BookOf(s), ClosesAt(d, p, t - 1), OpensAt(d, p, t))
    && open.equity == Times(s.equity, s.cash + Relative(s.weights, ClosesAt(d, p, t - 1), OpensAt(d, p, t)))
  }

  lemma OvernightOpens<S, R, A>(d: Data, p: Plan, s: State<S, R, A>, t: nat)
    requires Shaped(d, p) && AllQuoted(d, p) && 0 < t < |d.opens| && Healthy(p, s)
    ensures Overnight(d, p, s, t).Ok? && OpensWith(d, p, s, Overnight(d, p, s, t).value.0, t)
  {
    HoldsItself(BookOf(s), ClosesAt(d, p, t - 1));
    OvernightHolds(d, p, s, t, BookOf(s), ClosesAt(d, p, t - 1));
    OvernightKeeps(d, p, s, t);
    EquityIsShares(BookOf(Overnight(d, p, s, t).value.0), BookOf(s), ClosesAt(d, p, t - 1), OpensAt(d, p, t));
  }

  /** Every session opens with the shares the previous one closed with, and equity follows the prices. */
  lemma SessionOpens<S(!new), R(!new), A(!new)>(d: Data, p: Plan, b: Brains<S, R, A>, t: nat)
    requires Sound(d, p, b) && p.first <= t < |d.opens|
    ensures Before(d, p, b, t).Ok? && Going(p, Before(d, p, b, t).value)
    ensures Overnight(d, p, Before(d, p, b, t).value, t).Ok?
    ensures OpensWith(d, p, Before(d, p, b, t).value, AtOpen(d, p, b, t), t)
  {
    RunGoes(d, p, b, t);
    OvernightOpens(d, p, Before(d, p, b, t).value, t);
  }

  /** A decision is taken, carried out and paid for exactly in the sessions that are due; otherwise nothing is touched. */
  lemma SessionDecides<S(!new), R(!new), A(!new)>(d: Data, p: Plan, b: Brains<S, R, A>, t: nat)
    requires Sound(d, p, b) && p.first <= t < |d.opens|
    ensures Before(d, p, b, t).Ok? && Decided(d, p, b, t).Ok? && Healthy(p, Decided(d, p, b, t).value.0)
    ensures var s := Before(d, p, b, t).value;
            && Healthy(p, s) && Overnight(d, p, s, t).Ok?
            && var open, u := AtOpen(d, p, b, t), Decided(d, p, b, t).value.0;
               if Due(p, b, t) then CarriedOut(d, p, s, open, u, t) else u == open
  {
    SessionOpens(d, p, b, t);
    RunGoes(d, p, b, t);
    var s := Before(d, p, b, t).value;
    MorningKeeps(d, p, b, s, t);
    if Due(p, b, t) {
      RebalanceIsCarriedOut(d, p, b, s, AtOpen(d, p, b, t), t);
    }
  }

  /** What a session closes with. */
  ghost predicate ClosedWith<S, R, A>(u: State<S, R, A>, c: State<S, R, A>, t: nat) {
    && c.latched == u.latched && c.previous == Some(t) && c.receipts == u.receipts
    && c.peak == Max(u.peak, c.equity)
    && |c.rows| == |u.rows| + 1 && c.rows[..|u.rows|] == u.rows
    && var row := c.rows[|u.rows|];
       && row.session == t && row.equity == c.equity && row.weights == c.weights && row.cash == c.cash
       && Times(c.peak, 1.0 + row.drawdown) == c.equity && row.drawdown <= 0.0
       && Times(u.equity, 1.0 + row.intraday) == c.equity
  }

  lemma IntradayCloses<S, R, A>(d: Data, p: Plan, u: State<S, R, A>, overnight: real, t: nat)
    requires Shaped(d, p) && 0 < t < |d.opens| && |u.weights| == |p.universe| && u.peak > 0.0
    requires Intraday(d, p, u, overnight, t).Ok?
    ensures ClosedWith(u, Intraday(d, p, u, overnight, t).value, t)
    ensures var c := Intraday(d, p, u, overnight, t).value;
            c.rows[|u.rows|].overnight == overnight
  {
    var c := Intraday(d, p, u, overnight, t).value;
    RatioMeans(c.equity, c.peak);
    RatioMeans(c.peak, c.peak);
    OverAtMostOne(c.equity, c.peak);
  }

  lemma DecisionKeepsPeak<S(!new), R(!new), A(!new)>(d: Data, p: Plan, b: Brains<S, R, A>, t: nat)
    requires Sound(d, p, b) && p.first <= t < |d.opens|
    ensures Before(d, p, b, t).Ok? && Decided(d, p, b, t).Ok?
    ensures Decided(d, p, b, t).value.0.peak == Before(d, p, b, t).value.peak > 0.0
    ensures Decided(d, p, b, t).value.0.rows == Before(d, p, b, t).value.rows
  {
    SessionOpens(d, p, b, t);
    SessionDecides(d, p, b, t);
  }

  /** From the decision to the close: shares are kept, equity follows the prices, and the row says so. */
  lemma SessionCloses<S(!new), R(!new), A(!new)>(d: Data, p: Plan, b: Brains<S, R, A>, t: nat, bought: Book, base: seq<Price>)
    requires Sound(d, p, b) && p.first <= t < |d.opens|
    requires Decided(d, p, b, t).Ok? && HoldsShares(BookOf(Decided(d, p, b, t).value.0), bought, base, OpensAt(d, p, t))
    ensures Before(d, p, b, t + 1).Ok?
    ensures var u, c := Decided(d, p, b, t).value.0, Before(d, p, b, t + 1).value;
            && ClosedWith(u, c, t)
            && HoldsShares(BookOf(c), bought, base, ClosesAt(d, p, t))
  {
    SessionDecides(d, p, b, t);
    DecisionKeepsPeak(d, p, b, t);
    var (u, overnight) := Decided(d, p, b, t).value;
    IntradayHolds(d, p, u, overnight, t, bought, base);
    IntradayCloses(d, p, u, overnight, t);
  }

  // ---------------------------------------------------------------- between two rebalances

  /** No rebalance is due after session `since` through session `until`. */
  ghost predicate Resting<S, R, A>(p: Plan, b: Brains<S, R, A>, since: nat, until: nat)
    requires p.first <= since
  {
    forall k :: since < k <= until ==> !Due(p, b, k)
  }

  /** A session in which nothing is due keeps the shares it started with from close to close. */
  lemma RestingSession<S(!new), R(!new), A(!new)>(d: Data, p: Plan, b: Brains<S, R, A>, t: nat, bought: Book, base: seq<Price>)
    requires Sound(d, p, b) && p.first <= t < |d.opens| && !Due(p, b, t)
    requires Before(d, p, b, t).Ok? && HoldsShares(BookOf(Before(d, p, b, t).value), bought, base, ClosesAt(d, p, t - 1))
    ensures Before(d, p, b, t + 1).Ok?
    ensures var s, c := Before(d, p, b, t).value, Before(d, p, b, t + 1).value;
            && HoldsShares(BookOf(c), bought, base, ClosesAt(d, p, t))
            && c.receipts == s.receipts && c.latched == s.latched
  {
    SessionDecides(d, p, b, t);
    OvernightHolds(d, p, Before(d, p, b, t).value, t, bought, base);
    SessionCloses(d, p, b, t, bought, base);
  }

  /** At the close of session `until` the run holds the shares decided on in session `since`, and has the same receipts. */
  ghost predicate HeldUntil<S, R, A>(d: Data, p: Plan, b: Brains<S, R, A>, since: nat, until: nat)
    requires Shaped(d, p) && AllQuoted(d, p) && p.first <= since <= until < |d.opens|
  {
    && Decided(d, p, b, since).Ok? && Before(d, p, b, until + 1).Ok?
    && var u, c := Decided(d, p, b, since).value.0, Before(d, p, b, until + 1).value;
       && HoldsShares(BookOf(c), BookOf(u), OpensAt(d, p, since), ClosesAt(d, p, until))
       && c.receipts == u.receipts && c.latched == u.latched
  }

  lemma HeldSameDay<S(!new), R(!new), A(!new)>(d: Data, p: Plan, b: Brains<S, R, A>, t: nat)
    requires Sound(d, p, b) && p.first <= t < |d.opens|
    ensures HeldUntil(d, p, b, t, t)
  {
    SessionDecides(d, p, b, t);
    var u := Decided(d, p, b, t).value.0;
    HoldsItself(BookOf(u), OpensAt(d, p, t));
    SessionCloses(d, p, b, t, BookOf(u), OpensAt(d, p, t));
  }

  lemma HeldNextDay<S(!new), R(!new), A(!new)>(d: Data, p: Plan, b: Brains<S, R, A>, since: nat, t: nat)
    requires Sound(d, p, b) && p.first <= since < t < |d.opens| && !Due(p, b, t) && HeldUntil(d, p, b, since, t - 1)
    ensures HeldUntil(d, p, b, since, t)
  {
    RestingSession(d, p, b, t, BookOf(Decided(d, p, b, since).value.0), OpensAt(d, p, since));
  }

  /** As long as nothing is due, every close holds the shares decided on, and only rows are added. */
  lemma {:induction false} SharesUntilNext<S(!new), R(!new), A(!new)>(d: Data, p: Plan, b: Brains<S, R, A>, since: nat, until: nat)
    requires Sound(d, p, b) && p.first <= since <= until < |d.opens| && Resting(p, b, since, until)
    ensures HeldUntil(d, p, b, since, until)
    decreases until
  {
    if since == until {
      HeldSameDay(d, p, b, since);
    } else {
      SharesUntilNext(d, p, b, since, until - 1);
      HeldNextDay(d, p, b, since, until);
    }
  }

  /** The last receipt of a run, its book and its equity, as they stand at the close of a later session. */
  ghost predicate PaidAndHeld<S, R, A>(d: Data, p: Plan, c: State<S, R, A>, since: nat, until: nat)
    requires Shaped(d, p) && AllQuoted(d, p) && since <= until < |d.opens|
  {
    && c.receipts != []
    && var r := c.receipts[|c.receipts| - 1];
       && r.session == since && |r.risk.weights| == |p.universe| && r.execution == OpensAt(d, p, since)
       && Times(10000.0, c.equity) ==
          Times(Times(r.before.equity, 10000.0 - Times(r.risk.turnover, p.costBps + p.slippageBps)),
                r.risk.cash + Relative(r.risk.weights, r.execution, ClosesAt(d, p, until)))
  }

  lemma PaidThenHeld<S, R, A>(d: Data, p: Plan, s: State<S, R, A>, open: State<S, R, A>, u: State<S, R, A>, c: State<S, R, A>,
                              since: nat, until: nat)
    requires Shaped(d, p) && AllQuoted(d, p) && since <= until < |d.opens| && CarriedOut(d, p, s, open, u, since)
    requires HoldsShares(BookOf(c), BookOf(u), OpensAt(d, p, since), ClosesAt(d, p, until)) && c.receipts == u.receipts
    ensures PaidAndHeld(d, p, c, since, until)
  {
    var r := u.receipts[|s.receipts|];
    EquityInTenThousandths(BookOf(c), BookOf(u), OpensAt(d, p, since), ClosesAt(d, p, until),
                           Times(r.before.equity, 10000.0 - Times(r.risk.turnover, p.costBps + p.slippageBps)));
  }

  /**
   Equity from a rebalance to the next, by share accounting: the last receipt's equity at the open less both
   rates of its turnover, times its cash plus each of its weights times the close over its execution price.
   */
  lemma EquityUntilNext<S(!new), R(!new), A(!new)>(d: Data, p: Plan, b: Brains<S, R, A>, since: nat, until: nat)
    requires Sound(d, p, b) && p.first <= since <= until < |d.opens| && Due(p, b, since) && Resting(p, b, since, until)
    ensures Before(d, p, b, until + 1).Ok? && PaidAndHeld(d, p, Before(d, p, b, until + 1).value, since, until)
  {
    SharesUntilNext(d, p, b, since, until);
    SessionDecides(d, p, b, since);
    PaidThenHeld(d, p, Before(d, p, b, since).value, AtOpen(d, p, b, since), Decided(d, p, b, since).value.0,
                 Before(d, p, b, until + 1).value, since, until);
  }

  // ---------------------------------------------------------------- what receipts and rows record

  /** The receipt's decisions are what the brains say to the closes before its session and to each other. */
  ghost predicate Justified<S, R, A>(d: Data, p: Plan, b: Brains<S, R, A>, r: Receipt<S, R, A>)
    requires Shaped(d, p)
  {
    && 0 < r.session < |d.opens|
    && var seen := d.closes[..r.session];
       var prices, history := PickAll(seen, p.universe), PickMoves(seen, p.universe);
       && r.momentum == b.momentum(prices, history, r.session - 1)
       && r.reversion == b.reversion(prices, history, r.session - 1)
       && r.regime == b.regime(seen, Returns(seen), r.session - 1)
       && r.allocation == b.allocate(r.regime, r.momentum, r.reversion)
       && r.risk == b.risk(r.allocation, r.before, history, r.session)
  }

  /** The returns of the universe in the given closes. */
  function PickMoves(closes: seq<Quoted>, universe: seq<nat>): (r: seq<Moved>)
    requires forall t :: 0 <= t < |closes| ==> Wide(closes[t], universe)
  {
    assert forall t :: 0 <= t < |closes| ==> |Returns(closes)[t]| == |closes[t]| && Wide(closes[t], universe);
    PickAll(Returns(closes), universe)
  }

  lemma DecisionIsJustified<S, R, A>(d: Data, p: Plan, b: Brains<S, R, A>, standing: Standing, t: nat)
    requires Shaped(d, p) && 0 < t < |d.opens|
    ensures Justified(d, p, b, Decide(d, p, b, standing, t))
  {
    ReturnsOfPrefix(d.closes, t);
  }

  /** The state the run keeps: its session counter and one receipt for each due session, in order and justified. */
  ghost predicate Recorded<S, R, A>(d: Data, p: Plan, b: Brains<S, R, A>, s: State<S, R, A>, t: nat)
    requires Shaped(d, p) && p.first <= t
  {
    && s.previous == (if t == p.first then None else Some(t - 1))
    && (forall r :: r in s.receipts ==> p.first <= r.session < t && Due(p, b, r.session) && Justified(d, p, b, r))
    && (forall i, j :: 0 <= i < j < |s.receipts| ==> s.receipts[i].session < s.receipts[j].session)
    && (forall k :: p.first <= k < t && Due(p, b, k) ==> Receipted(s, k))
  }

  ghost predicate Receipted<S, R, A>(s: State<S, R, A>, k: nat) { exists r :: r in s.receipts && r.session == k }

  lemma MorningRecords<S, R, A>(d: Data, p: Plan, b: Brains<S, R, A>, s: State<S, R, A>, t: nat)
    requires Shaped(d, p) && 0 < t < |d.opens| && |s.weights| == |p.universe| && Morning(d, p, b, s, t).Ok?
    ensures var u := Morning(d, p, b, s, t).value.0;
            if b.due(t, s.previous)
            then |u.receipts| == |s.receipts| + 1 && u.receipts[..|s.receipts|] == s.receipts
                 && u.receipts[|s.receipts|].session == t && Justified(d, p, b, u.receipts[|s.receipts|])
            else u.receipts == s.receipts
  {
    var open := Overnight(d, p, s, t).value.0;
    DecisionIsJustified(d, p, b, StandingOf(open, s.equity), t);
  }

  /** What a session may add to the receipts: its own, if it is due. */
  ghost predicate Adds<S, R, A>(d: Data, p: Plan, b: Brains<S, R, A>, s: State<S, R, A>, c: State<S, R, A>, t: nat)
    requires Shaped(d, p) && p.first <= t
  {
    if Due(p, b, t)
    then |c.receipts| == |s.receipts| + 1 && c.receipts[..|s.receipts|] == s.receipts
         && c.receipts[|s.receipts|].session == t && Justified(d, p, b, c.receipts[|s.receipts|])
    else c.receipts == s.receipts
  }

  lemma DueSessionRecords<S, R, A>(d: Data, p: Plan, b: Brains<S, R, A>, s: State<S, R, A>, c: State<S, R, A>, t: nat)
    requires Shaped(d, p) && p.first <= t < |d.opens| && Recorded(d, p, b, s, t) && c.previous == Some(t)
    requires Adds(d, p, b, s, c, t) && Due(p, b, t)
    ensures Recorded(d, p, b, c, t + 1)
  {
    var last := c.receipts[|s.receipts|];
    assert c.receipts == s.receipts + [last];
    assert last in c.receipts;
    forall k | p.first <= k < t + 1 && Due(p, b, k)
      ensures Receipted(c, k)
    {
      if k < t {
        assert Receipted(s, k);
        var r :| r in s.receipts && r.session == k;
        assert r in c.receipts;
      }
    }
  }

  lemma SessionRecords<S, R, A>(d: Data, p: Plan, b: Brains<S, R, A>, s: State<S, R, A>, c: State<S, R, A>, t: nat)
    requires Shaped(d, p) && p.first <= t < |d.opens| && Recorded(d, p, b, s, t) && c.previous == Some(t)
    requires Adds(d, p, b, s, c, t)
    ensures Recorded(d, p, b, c, t + 1)
  {
    if Due(p, b, t) {
      DueSessionRecords(d, p, b, s, c, t);
    } else {
      forall k | p.first <= k < t + 1 && Due(p, b, k)
        ensures Receipted(c, k)
      {
        assert Receipted(s, k);
      }
    }
  }

  /** A session that went through: its decisions from the state before it, its close from its decisions. */
  lemma SessionParts<S, R, A>(d: Data, p: Plan, b: Brains<S, R, A>, t: nat)
    requires Shaped(d, p) && p.first <= t < |d.opens| && Before(d, p, b, t + 1).Ok?
    ensures Before(d, p, b, t).Ok? && |Before(d, p, b, t).value.weights| == |p.universe|
    ensures Morning(d, p, b, Before(d, p, b, t).value, t).Ok?
    ensures var (u, overnight) := Morning(d, p, b, Before(d, p, b, t).value, t).value;
            && Intraday(d, p, u, overnight, t).Ok?
            && Before(d, p, b, t + 1).value == Intraday(d, p, u, overnight, t).value
  {
    BothHalves(EngineOf(d, p, b), Start(p), p.first, t);
  }

  lemma MorningKeepsRows<S, R, A>(d: Data, p: Plan, b: Brains<S, R, A>, s: State<S, R, A>, t: nat)
    requires Shaped(d, p) && 0 < t < |d.opens| && |s.weights| == |p.universe| && Morning(d, p, b, s, t).Ok?
    ensures var u := Morning(d, p, b, s, t).value.0;
            u.peak == s.peak && u.rows == s.rows
  {
  }

  lemma IntradayRecords<S, R, A>(d: Data, p: Plan, u: State<S, R, A>, overnight: real, t: nat)
    requires Shaped(d, p) && 0 < t < |d.opens| && |u.weights| == |p.universe| && Intraday(d, p, u, overnight, t).Ok?
    ensures var c := Intraday(d, p, u, overnight, t).value;
            c.receipts == u.receipts && c.previous == Some(t)
  {
  }

  /** However a run goes, its receipts are those of the sessions that were due, in order, each justified by earlier closes alone. */
  lemma ReceiptsTellDecisions<S(!new), R(!new), A(!new)>(d: Data, p: Plan, b: Brains<S, R, A>, t: nat)
    requires Shaped(d, p) && p.first <= t <= |d.opens| && Before(d, p, b, t).Ok?
    ensures Recorded(d, p, b, Before(d, p, b, t).value, t)
  {
    var g := EngineOf(d, p, b);
    forall s: State<S, R, A>, k: nat | p.first <= k < t && Recorded(d, p, b, s, k)
                                       && g.morning(s, k).Ok? && g.evening(g.morning(s, k).value, k).Ok?
      ensures Recorded(d, p, b, g.evening(g.morning(s, k).value, k).value, k + 1)
    {
      SessionIsRecorded(d, p, b, s, k);
    }
    RunHandsOn(g, Start(p), p.first, t, (s, k) => k >= p.first && Recorded(d, p, b, s, k));
  }

  lemma SessionIsRecorded<S, R, A>(d: Data, p: Plan, b: Brains<S, R, A>, s: State<S, R, A>, t: nat)
    requires Shaped(d, p) && p.first <= t < |d.opens| && |s.weights| == |p.universe| && Recorded(d, p, b, s, t)
    requires Morning(d, p, b, s, t).Ok?
    requires var (u, overnight) := Morning(d, p, b, s, t).value; Intraday(d, p, u, overnight, t).Ok?
    ensures var (u, overnight) := Morning(d, p, b, s, t).value;
            Recorded(d, p, b, Intraday(d, p, u, overnight, t).value, t + 1)
  {
    var (u, overnight) := Morning(d, p, b, s, t).value;
    MorningRecords(d, p, b, s, t);
    IntradayRecords(d, p, u, overnight, t);
    SessionRecords(d, p, b, s, Intraday(d, p, u, overnight, t).value, t);
  }

  /** The highest of the capital and the equities of the rows. */
  function HighWater(capital: real, rows: seq<Row>): real {
    if rows == [] then capital else Max(HighWater(capital, rows[..|rows| - 1]), rows[|rows| - 1].equity)
  }

  /** One row per session so far, the last one telling the state, and the peak over all of them. */
  ghost predicate RowsTell<S, R, A>(p: Plan, s: State<S, R, A>, t: nat)
    requires p.first <= t
  {
    && |s.rows| == t - p.first && (forall i :: 0 <= i < |s.rows| ==> s.rows[i].session == p.first + i)
    && s.peak == HighWater(p.capital, s.rows) && s.peak > 0.0
    && (s.rows == [] ==> s.equity == p.capital && s.cash == 1.0)
    && (s.rows != [] ==>
          var row := s.rows[|s.rows| - 1];
          && row.equity == s.equity && row.weights == s.weights && row.cash == s.cash
          && Times(s.peak, 1.0 + row.drawdown) == s.equity && row.drawdown <= 0.0)
  }

  /** However a run goes, its rows are one per session and each tells the equity, the weights and the fall from the highest equity. */
  lemma RowsTellTheRun<S(!new), R(!new), A(!new)>(d: Data, p: Plan, b: Brains<S, R, A>, t: nat)
    requires Shaped(d, p) && p.first <= t <= |d.opens| && p.capital > 0.0 && Before(d, p, b, t).Ok?
    ensures RowsTell(p, Before(d, p, b, t).value, t)
  {
    var g := EngineOf(d, p, b);
    forall s: State<S, R, A>, k: nat | p.first <= k < t && RowsTell(p, s, k)
                                       && g.morning(s, k).Ok? && g.evening(g.morning(s, k).value, k).Ok?
      ensures RowsTell(p, g.evening(g.morning(s, k).value, k).value, k + 1)
    {
      SessionTells(d, p, b, s, k);
    }
    RunHandsOn(g, Start(p), p.first, t, (s, k) => k >= p.first && RowsTell(p, s, k));
  }

  lemma SessionTells<S, R, A>(d: Data, p: Plan, b: Brains<S, R, A>, s: State<S, R, A>, t: nat)
    requires Shaped(d, p) && p.first <= t < |d.opens| && |s.weights| == |p.universe| && RowsTell(p, s, t)
    requires Morning(d, p, b, s, t).Ok?
    requires var (u, overnight) := Morning(d, p, b, s, t).value; Intraday(d, p, u, overnight, t).Ok?
    ensures var (u, overnight) := Morning(d, p, b, s, t).value;
            RowsTell(p, Intraday(d, p, u, overnight, t).value, t + 1)
  {
    var (u, overnight) := Morning(d, p, b, s, t).value;
    MorningKeepsRows(d, p, b, s, t);
    IntradayCloses(d, p, u, overnight, t);
    RowAdded(p, s, u, Intraday(d, p, u, overnight, t).value, t);
  }

  lemma RowAdded<S, R, A>(p: Plan, s: State<S, R, A>, u: State<S, R, A>, c: State<S, R, A>, t: nat)
    requires p.first <= t && RowsTell(p, s, t) && u.peak == s.peak && u.rows == s.rows && ClosedWith(u, c, t)
    ensures RowsTell(p, c, t + 1)
  {
  }

  // ---------------------------------------------------------------- whatever the risk engine says

  /** Nothing is held short, no cash is owed, and there is equity left. */
  ghost predicate Solvent<S, R, A>(s: State<S, R, A>) {
    (forall i :: 0 <= i < |s.weights| ==> s.weights[i] >= 0.0) && s.cash >= 0.0 && s.equity > 0.0
  }

  lemma DriftLeavesNothingShort(weights: seq<real>, cash: real, moves: seq<Option<real>>)
    requires |weights| == |moves| && Drift(weights, cash, moves).Ok?
    ensures var r := Drift(weights, cash, moves).value;
            (forall i :: 0 <= i < |r.weights| ==> r.weights[i] >= 0.0) && r.cash >= 0.0 && 1.0 + r.ret > 0.0
  {
  }

  /** A rebalance is refused exactly when both rates of its turnover eat up the equity. */
  lemma RefusedExactlyWhenCostsConsume<S, R, A>(d: Data, p: Plan, b: Brains<S, R, A>, s: State<S, R, A>, before: real, t: nat)
    requires Shaped(d, p) && 0 < t < |d.opens|
    ensures Rebalanced(d, p, b, s, before, t).Err? <==>
              && b.due(t, s.previous)
              && Times(Decide(d, p, b, StandingOf(s, before), t).risk.turnover, p.costBps + p.slippageBps) >= 10000.0
    ensures Rebalanced(d, p, b, s, before, t).Ok? && s.equity > 0.0 ==> Rebalanced(d, p, b, s, before, t).value.equity > 0.0
  {
    var r := Decide(d, p, b, StandingOf(s, before), t);
    var cost, slippage := Fraction(r.risk.turnover, p.costBps), Fraction(r.risk.turnover, p.slippageBps);
    Distributes(p.costBps, p.slippageBps, r.risk.turnover);
    assert 10000.0 * (cost + slippage) == Times(r.risk.turnover, p.costBps + p.slippageBps);
    if s.equity > 0.0 && cost + slippage < 1.0 {
      CostsLeaveEquity(s.equity, cost, slippage);
    }
  }

  lemma MorningStaysSolvent<S, R, A>(d: Data, p: Plan, b: Brains<S, R, A>, s: State<S, R, A>, t: nat)
    requires Shaped(d, p) && 0 < t < |d.opens| && |s.weights| == |p.universe| && Solvent(s) && Morning(d, p, b, s, t).Ok?
    ensures Solvent(Morning(d, p, b, s, t).value.0)
  {
    var moves := Moves(Pick(d.closes[t - 1], p.universe), Quotes(Pick(d.opens[t], p.universe)));
    DriftLeavesNothingShort(s.weights, s.cash, moves);
    TimesSigns(s.equity, 1.0 + Drift(s.weights, s.cash, moves).value.ret);
    RefusedExactlyWhenCostsConsume(d, p, b, Overnight(d, p, s, t).value.0, s.equity, t);
  }

  lemma IntradayStaysSolvent<S, R, A>(d: Data, p: Plan, u: State<S, R, A>, overnight: real, t: nat)
    requires Shaped(d, p) && 0 < t < |d.opens| && |u.weights| == |p.universe| && Intraday(d, p, u, overnight, t).Ok?
    ensures Solvent(Intraday(d, p, u, overnight, t).value)
  {
    DriftLeavesNothingShort(u.weights, u.cash, Moves(Quotes(Pick(d.opens[t], p.universe)), Pick(d.closes[t], p.universe)));
  }

  /** Whatever weights the risk engine returns, a run that goes on holds nothing short and stays solvent, at every close and after every decision. */
  lemma RunStaysSolvent<S(!new), R(!new), A(!new)>(d: Data, p: Plan, b: Brains<S, R, A>, t: nat)
    requires Shaped(d, p) && p.first <= t < |d.opens| && p.capital > 0.0 && Decided(d, p, b, t).Ok?
    ensures Before(d, p, b, t).Ok? && Solvent(Before(d, p, b, t).value) && Solvent(Decided(d, p, b, t).value.0)
  {
    if t > p.first {
      SessionParts(d, p, b, t - 1);
      var (u, overnight) := Morning(d, p, b, Before(d, p, b, t - 1).value, t - 1).value;
      IntradayStaysSolvent(d, p, u, overnight, t - 1);
    }
    MorningStaysSolvent(d, p, b, Before(d, p, b, t).value, t);
  }
}
