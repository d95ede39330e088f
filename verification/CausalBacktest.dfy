/** The rebalancing backtest loop over arbitrary strategies, and what its decisions may depend on. */
module CausalBacktest {
  import opened Prelude
  import opened WeightDrift
  import opened ShareAccounting
  import opened SessionLoop

  type Quoted = seq<Option<Price>>
  type Moved = seq<Option<real>>

  /** Sessions of prices for every column; a session is named by its index. */
  datatype Data = Data(opens: seq<seq<Price>>, closes: seq<Quoted>)

  datatype Risk = Risk(weights: seq<real>, cash: real, turnover: real, latched: bool)

  /** What the risk engine is told about the portfolio at the open. */
  datatype Standing = Standing(weights: seq<real>, cash: real, equity: real, drawdown: real, loss: real, latched: bool)

  /**
   The strategies, detector, allocator and risk engine, as arbitrary functions of what they are
   handed: histories of prices and returns, the signal session and each other's results.
   */
  datatype Brains<!S, !R, !A> = Brains(
    momentum: (seq<Quoted>, seq<Moved>, nat) -> S,
    reversion: (seq<Quoted>, seq<Moved>, nat) -> S,
    regime: (seq<Quoted>, seq<Moved>, nat) -> R,
    allocate: (R, S, S) -> A,
    risk: (A, Standing, seq<Moved>, nat) -> Risk,
    due: (nat, Option<nat>) -> bool)

  datatype Plan = Plan(universe: seq<nat>, first: nat, capital: real, costBps: real, slippageBps: real)

  /** What a rebalance writes down: all its inputs and results, and the prices it executes at. */
  datatype Receipt<S, R, A> = Receipt(
    session: nat,
    momentum: S,
    reversion: S,
    regime: R,
    allocation: A,
    before: Standing,
    risk: Risk,
    cost: real,
    slippage: real,
    execution: seq<Price>)

  datatype Failure = Drifting(error: Error) | CostsConsumeEquity | EquityInvalid | NoPreviousSession | Misshaped

  datatype Row = Row(session: nat, equity: real, overnight: real, intraday: real, drawdown: real, weights: seq<real>, cash: real)

  datatype State<S, R, A> = State(
    equity: real,
    peak: real,
    weights: seq<real>,
    cash: real,
    latched: bool,
    previous: Option<nat>,
    rows: seq<Row>,
    receipts: seq<Receipt<S, R, A>>)

  ghost predicate Shaped(d: Data, p: Plan) {
    && |d.opens| == |d.closes| && 0 < p.first <= |d.opens|
    && forall t :: 0 <= t < |d.opens| ==> Wide(d.opens[t], p.universe) && Wide(d.closes[t], p.universe)
  }

  predicate Wide<T>(row: seq<T>, universe: seq<nat>) { forall k :: 0 <= k < |universe| ==> universe[k] < |row| }

  function Pick<T>(row: seq<T>, universe: seq<nat>): (r: seq<T>)
    requires Wide(row, universe)
    ensures |r| == |universe|
  {
    seq(|universe|, k requires 0 <= k < |universe| => row[universe[k]])
  }

  function PickAll<T>(rows: seq<seq<T>>, universe: seq<nat>): (r: seq<seq<T>>)
    requires forall t :: 0 <= t < |rows| ==> Wide(rows[t], universe)
    ensures |r| == |rows|
  {
    seq(|rows|, t requires 0 <= t < |rows| => Pick(rows[t], universe))
  }

  /** Close-to-close returns, computed once over the whole history; the first session has none. */
  function Returns(closes: seq<Quoted>): (r: seq<Moved>)
    ensures |r| == |closes|
  {
    seq(|closes|, t requires 0 <= t < |closes| =>
      seq(|closes[t]|, i requires 0 <= i < |closes[t]| =>
        if t == 0 || i >= |closes[t - 1]| then None else Move(closes[t - 1][i], closes[t][i])))
  }

  // ---------------------------------------------------------------- one session

  function Start<S, R, A>(p: Plan): State<S, R, A> {
    State(p.capital, p.capital, seq(|p.universe|, _ => 0.0), 1.0, false, None, [], [])
  }

  /** Holdings carried from the previous close to this open. */
  function Overnight<S, R, A>(d: Data, p: Plan, s: State<S, R, A>, t: nat): Result<(State<S, R, A>, real), Failure>
    requires Shaped(d, p) && 0 < t < |d.opens| && |s.weights| == |p.universe|
  {
    var moves := Moves(Pick(d.closes[t - 1], p.universe), Quotes(Pick(d.opens[t], p.universe)));
    var r := Drift(s.weights, s.cash, moves);
    if r.Err? then Err(Drifting(r.error))
    else Ok((s.(equity := Times(s.equity, 1.0 + r.value.ret), weights := r.value.weights, cash := r.value.cash), r.value.ret))
  }

  function Ratio(a: real, b: real): real { if b == 0.0 then 0.0 else Over(a, b) - 1.0 }

  function StandingOf<S, R, A>(s: State<S, R, A>, before: real): Standing {
    Standing(s.weights, s.cash, s.equity, Ratio(s.equity, s.peak), Min(0.0, Ratio(s.equity, before)), s.latched)
  }

  function Floored(weights: seq<real>, n: nat): (r: seq<real>)
    ensures |r| == n
  {
    seq(n, k requires 0 <= k < n => if k < |weights| then Max(0.0, weights[k]) else 0.0)
  }

  function Fraction(turnover: real, bps: real): real { Times(turnover, bps) / 10000.0 }

  /** The histories the decision makers see: through the previous session, and nothing later. */
  function Decide<S, R, A>(d: Data, p: Plan, b: Brains<S, R, A>, s: Standing, t: nat): Receipt<S, R, A>
    requires Shaped(d, p) && 0 < t < |d.opens|
  {
    var prices := PickAll(d.closes[..t], p.universe);
    var history := PickAll(Returns(d.closes)[..t], p.universe);
    var momentum := b.momentum(prices, history, t - 1);
    var reversion := b.reversion(prices, history, t - 1);
    var regime := b.regime(d.closes[..t], Returns(d.closes)[..t], t - 1);
    var allocation := b.allocate(regime, momentum, reversion);
    var risk := b.risk(allocation, s, history, t);
    Receipt(t, momentum, reversion, regime, allocation, s, risk,
            Times(s.equity, Fraction(risk.turnover, p.costBps)), Times(s.equity, Fraction(risk.turnover, p.slippageBps)),
            Pick(d.opens[t], p.universe))
  }

  function Rebalanced<S, R, A>(d: Data, p: Plan, b: Brains<S, R, A>, s: State<S, R, A>, before: real, t: nat): Result<State<S, R, A>, Failure>
    requires Shaped(d, p) && 0 < t < |d.opens|
  {
    if !b.due(t, s.previous) then Ok(s)
    else
      var r := Decide(d, p, b, StandingOf(s, before), t);
      if Fraction(r.risk.turnover, p.costBps) + Fraction(r.risk.turnover, p.slippageBps) >= 1.0 then Err(CostsConsumeEquity)
      else
        Ok(s.(equity := s.equity - (r.cost + r.slippage),
              weights := Floored(r.risk.weights, |p.universe|),
              cash := Max(0.0, r.risk.cash),
              latched := r.risk.latched,
              receipts := s.receipts + [r]))
  }

  function Intraday<S, R, A>(d: Data, p: Plan, s: State<S, R, A>, overnight: real, t: nat): Result<State<S, R, A>, Failure>
    requires Shaped(d, p) && 0 < t < |d.opens| && |s.weights| == |p.universe|
  {
    var moves := Moves(Quotes(Pick(d.opens[t], p.universe)), Pick(d.closes[t], p.universe));
    var r := Drift(s.weights, s.cash, moves);
    if r.Err? then Err(Drifting(r.error))
    else
      var equity := Times(s.equity, 1.0 + r.value.ret);
      if equity <= 0.0 then Err(EquityInvalid)
      else
        var peak := Max(s.peak, equity);
        var row := Row(t, equity, overnight, r.value.ret, Ratio(equity, peak), r.value.weights, r.value.cash);
        Ok(State(equity, peak, r.value.weights, r.value.cash, s.latched, Some(t), s.rows + [row], s.receipts))
  }

  // ---------------------------------------------------------------- the run

  /** The first half of a session: the overnight move, then the rebalance if one is due. */
  function Morning<S, R, A>(d: Data, p: Plan, b: Brains<S, R, A>, s: State<S, R, A>, t: nat): (r: Result<(State<S, R, A>, real), Failure>)
    requires Shaped(d, p) && 0 < t < |d.opens| && |s.weights| == |p.universe|
    ensures r.Ok? ==> |r.value.0.weights| == |p.universe|
  {
    var open := Overnight(d, p, s, t);
    if open.Err? then Err(open.error)
    else
      var r := Rebalanced(d, p, b, open.value.0, s.equity, t);
      if r.Err? then Err(r.error) else Ok((r.value, open.value.1))
  }

  /** The backtest as a loop over sessions; a session without a predecessor is refused. */
  function EngineOf<S, R, A>(d: Data, p: Plan, b: Brains<S, R, A>): Engine<State<S, R, A>, (State<S, R, A>, real), Failure>
    requires Shaped(d, p)
  {
    Engine(
      (s: State<S, R, A>, t: nat) =>
        if !(0 < t < |d.opens|) then Err(NoPreviousSession)
        else if |s.weights| != |p.universe| then Err(Misshaped)
        else Morning(d, p, b, s, t),
      (u: (State<S, R, A>, real), t: nat) =>
        if !(0 < t < |d.opens|) then Err(NoPreviousSession)
        else if |u.0.weights| != |p.universe| then Err(Misshaped)
        else Intraday(d, p, u.0, u.1, t))
  }

  ghost function Before<S, R, A>(d: Data, p: Plan, b: Brains<S, R, A>, t: nat): Result<State<S, R, A>, Failure>
    requires Shaped(d, p) && p.first <= t
  {
    AtEnd(EngineOf(d, p, b), Start(p), p.first, t)
  }

  ghost function Decided<S, R, A>(d: Data, p: Plan, b: Brains<S, R, A>, t: nat): Result<(State<S, R, A>, real), Failure>
    requires Shaped(d, p) && p.first <= t
  {
    AtDecision(EngineOf(d, p, b), Start(p), p.first, t)
  }

  method RunDynamic<S, R, A>(d: Data, p: Plan, b: Brains<S, R, A>) returns (r: Result<State<S, R, A>, Failure>)
    requires Shaped(d, p)
    ensures r == Before(d, p, b, |d.opens|)
  {
    r := SessionLoop.Run(EngineOf(d, p, b), Start(p), p.first, |d.opens|);
  }

  // ---------------------------------------------------------------- no look-ahead

  /** Returns cut at a session are the returns of the prices cut there. */
  lemma ReturnsOfPrefix(closes: seq<Quoted>, t: nat)
    requires t <= |closes|
    ensures Returns(closes)[..t] == Returns(closes[..t])
  {
    var cut := closes[..t];
    forall k | 0 <= k < t
      ensures Returns(closes)[k] == Returns(cut)[k]
    {
      assert cut[k] == closes[k] && (k > 0 ==> cut[k - 1] == closes[k - 1]);
    }
  }

  /** A return leads from the previous close to this one; there is none in the first session or where a close is missing. */
  lemma ReturnsAreCloseToClose(closes: seq<Quoted>, t: nat, i: nat)
    requires t < |closes| && i < |closes[t]| && |Returns(closes)[t]| == |closes[t]| && (t > 0 ==> i < |closes[t - 1]|)
    ensures Returns(closes)[t][i].Some? <==> t > 0 && closes[t - 1][i].Some? && closes[t][i].Some?
    ensures Returns(closes)[t][i].Some? ==> Times(closes[t - 1][i].value, 1.0 + Returns(closes)[t][i].value) == closes[t][i].value
  {
    if t > 0 && closes[t - 1][i].Some? && closes[t][i].Some? {
      OverTimes(closes[t][i].value, closes[t - 1][i].value);
    }
  }

  /** The same closes before session `t` and the same opens through it. */
  ghost predicate AgreeUntil(d: Data, e: Data, t: nat) {
    && t < |d.opens| && t < |e.opens| && t <= |d.closes| && t <= |e.closes|
    && d.closes[..t] == e.closes[..t] && d.opens[..t + 1] == e.opens[..t + 1]
  }

  lemma AgreeEarlier(d: Data, e: Data, t: nat, s: nat)
    requires AgreeUntil(d, e, t) && s <= t
    ensures AgreeUntil(d, e, s)
  {
    assert d.closes[..t][..s] == d.closes[..s] && e.closes[..t][..s] == e.closes[..s];
    assert d.opens[..t + 1][..s + 1] == d.opens[..s + 1] && e.opens[..t + 1][..s + 1] == e.opens[..s + 1];
  }

  lemma SameDecision<S, R, A>(d: Data, e: Data, p: Plan, b: Brains<S, R, A>, s: Standing, t: nat)
    requires Shaped(d, p) && Shaped(e, p) && 0 < t && AgreeUntil(d, e, t)
    ensures Decide(d, p, b, s, t) == Decide(e, p, b, s, t)
  {
    ReturnsOfPrefix(d.closes, t);
    ReturnsOfPrefix(e.closes, t);
    assert d.opens[..t + 1][t] == d.opens[t] && e.opens[..t + 1][t] == e.opens[t];
  }

  lemma SameOvernight<S, R, A>(d: Data, e: Data, p: Plan, s: State<S, R, A>, t: nat)
    requires Shaped(d, p) && Shaped(e, p) && 0 < t && AgreeUntil(d, e, t) && |s.weights| == |p.universe|
    ensures Overnight(d, p, s, t) == Overnight(e, p, s, t)
  {
    assert d.opens[..t + 1][t] == d.opens[t] && e.opens[..t + 1][t] == e.opens[t];
    assert d.closes[..t][t - 1] == d.closes[t - 1] && e.closes[..t][t - 1] == e.closes[t - 1];
  }

  lemma SameMorning<S, R, A>(d: Data, e: Data, p: Plan, b: Brains<S, R, A>, s: State<S, R, A>, t: nat)
    requires Shaped(d, p) && Shaped(e, p) && 0 < t && AgreeUntil(d, e, t) && |s.weights| == |p.universe|
    ensures Morning(d, p, b, s, t) == Morning(e, p, b, s, t)
  {
    SameOvernight(d, e, p, s, t);
    var open := Overnight(d, p, s, t);
    if open.Ok? {
      SameRebalance(d, e, p, b, open.value.0, s.equity, t);
    }
  }

  lemma SameRebalance<S, R, A>(d: Data, e: Data, p: Plan, b: Brains<S, R, A>, s: State<S, R, A>, before: real, t: nat)
    requires Shaped(d, p) && Shaped(e, p) && 0 < t && AgreeUntil(d, e, t)
    ensures Rebalanced(d, p, b, s, before, t) == Rebalanced(e, p, b, s, before, t)
  {
    SameDecision(d, e, p, b, StandingOf(s, before), t);
  }

  lemma SameIntraday<S, R, A>(d: Data, e: Data, p: Plan, s: State<S, R, A>, overnight: real, t: nat)
    requires Shaped(d, p) && Shaped(e, p) && 0 < t < |d.opens| && t < |e.opens| && |s.weights| == |p.universe|
    requires d.opens[t] == e.opens[t] && d.closes[t] == e.closes[t]
    ensures Intraday(d, p, s, overnight, t) == Intraday(e, p, s, overnight, t)
  {
  }

  lemma MorningsAgree<S(!new), R(!new), A(!new)>(d: Data, e: Data, p: Plan, b: Brains<S, R, A>, t: nat)
    requires Shaped(d, p) && Shaped(e, p) && AgreeUntil(d, e, t)
    ensures SameMornings(EngineOf(d, p, b), EngineOf(e, p, b), p.first, t)
  {
    forall s: State<S, R, A>, k: nat | p.first <= k <= t
      ensures EngineOf(d, p, b).morning(s, k) == EngineOf(e, p, b).morning(s, k)
    {
      AgreeEarlier(d, e, t, k);
      if |s.weights| == |p.universe| {
        SameMorning(d, e, p, b, s, k);
      }
    }
  }

  lemma EveningsAgree<S(!new), R(!new), A(!new)>(d: Data, e: Data, p: Plan, b: Brains<S, R, A>, t: nat)
    requires Shaped(d, p) && Shaped(e, p) && t <= |d.opens| && t <= |e.opens|
    requires d.opens[..t] == e.opens[..t] && d.closes[..t] == e.closes[..t]
    ensures SameEvenings(EngineOf(d, p, b), EngineOf(e, p, b), p.first, t)
  {
    forall u: (State<S, R, A>, real), k: nat | p.first <= k < t
      ensures EngineOf(d, p, b).evening(u, k) == EngineOf(e, p, b).evening(u, k)
    {
      assert d.opens[..t][k] == d.opens[k] && e.opens[..t][k] == e.opens[k];
      assert d.closes[..t][k] == d.closes[k] && e.closes[..t][k] == e.closes[k];
      if |u.0.weights| == |p.universe| {
        SameIntraday(d, e, p, u.0, u.1, k);
      }
    }
  }

  /**
   Data that agree on closes before session `t` and opens through it give the same state before the
   session (rows, equity, receipts) and the same decisions and receipts in it, whatever the brains compute.
   */
  lemma NoLookAhead<S(!new), R(!new), A(!new)>(d: Data, e: Data, p: Plan, b: Brains<S, R, A>, t: nat)
    requires Shaped(d, p) && Shaped(e, p) && p.first <= t && AgreeUntil(d, e, t)
    ensures Before(d, p, b, t) == Before(e, p, b, t)
    ensures Decided(d, p, b, t) == Decided(e, p, b, t)
  {
    assert d.opens[..t + 1][..t] == d.opens[..t] && e.opens[..t + 1][..t] == e.opens[..t];
    MorningsAgree(d, e, p, b, t);
    EveningsAgree(d, e, p, b, t);
    SameRuns(EngineOf(d, p, b), EngineOf(e, p, b), Start(p), p.first, t);
  }

  /** Stopping the data after a session leaves everything up to that session as it was. */
  lemma TruncationChangesNothing<S(!new), R(!new), A(!new)>(d: Data, p: Plan, b: Brains<S, R, A>, t: nat)
    requires Shaped(d, p) && p.first <= t < |d.opens|
    ensures var cut := Data(d.opens[..t + 1], d.closes[..t + 1]);
            && Shaped(cut, p)
            && Decided(cut, p, b, t) == Decided(d, p, b, t)
            && Before(cut, p, b, t + 1) == Before(d, p, b, t + 1)
  {
    var cut := Data(d.opens[..t + 1], d.closes[..t + 1]);
    assert cut.closes[..t] == d.closes[..t] && cut.opens[..t + 1] == d.opens[..t + 1];
    NoLookAhead(cut, d, p, b, t);
    assert cut.opens[..t + 1] == d.opens[..t + 1] && cut.closes[..t + 1] == d.closes[..t + 1];
    EveningsAgree(cut, d, p, b, t + 1);
    assert SameEvenings(EngineOf(cut, p, b), EngineOf(d, p, b), p.first, t + 1);
  }

  // ---------------------------------------------------------------- a run that cannot fail

  /** A risk decision that invests no more than there is and whose costs leave something. */
  ghost predicate Prudent(p: Plan, r: Risk) {
    && |r.weights| == |p.universe| && Balanced(r.weights, r.cash)
    && Fraction(r.turnover, p.costBps) + Fraction(r.turnover, p.slippageBps) < 1.0
  }

  ghost predicate AlwaysPrudent<S, R, A(!new)>(p: Plan, b: Brains<S, R, A>) {
    forall a, s, h, t :: Prudent(p, b.risk(a, s, h, t))
  }

  ghost predicate AllQuoted(d: Data, p: Plan)
    requires Shaped(d, p)
  {
    forall t :: 0 <= t < |d.closes| ==> Full(Pick(d.closes[t], p.universe))
  }

  ghost predicate Healthy<S, R, A>(p: Plan, s: State<S, R, A>) {
    |s.weights| == |p.universe| && Balanced(s.weights, s.cash) && s.equity > 0.0
  }

  lemma FullMovesArePriced(before: Quoted, after: Quoted)
    requires |before| == |after| && Full(before) && Full(after)
    ensures Priced(Moves(before, after))
  {
    forall i | 0 <= i < |before|
      ensures Moves(before, after)[i].Some? && Moves(before, after)[i].value > -1.0
    {
      PositiveOver(after[i].value, before[i].value);
    }
  }

  lemma OvernightKeeps<S, R, A>(d: Data, p: Plan, s: State<S, R, A>, t: nat)
    requires Shaped(d, p) && AllQuoted(d, p) && 0 < t < |d.opens| && Healthy(p, s)
    ensures Overnight(d, p, s, t).Ok? && Healthy(p, Overnight(d, p, s, t).value.0)
  {
    var before, after := Pick(d.closes[t - 1], p.universe), Quotes(Pick(d.opens[t], p.universe));
    FullMovesArePriced(before, after);
    DriftKeepsHoldings(s.weights, s.cash, Moves(before, after));
    TimesSigns(s.equity, 1.0 + Earned(s.weights, Moves(before, after)));
  }

  lemma IntradayKeeps<S, R, A>(d: Data, p: Plan, s: State<S, R, A>, overnight: real, t: nat)
    requires Shaped(d, p) && AllQuoted(d, p) && 0 < t < |d.opens| && Healthy(p, s)
    ensures Intraday(d, p, s, overnight, t).Ok? && Healthy(p, Intraday(d, p, s, overnight, t).value)
  {
    var before, after := Quotes(Pick(d.opens[t], p.universe)), Pick(d.closes[t], p.universe);
    FullMovesArePriced(before, after);
    DriftKeepsHoldings(s.weights, s.cash, Moves(before, after));
    TimesSigns(s.equity, 1.0 + Earned(s.weights, Moves(before, after)));
  }

  lemma CostsLeaveEquity(equity: real, c: real, s: real)
    requires equity > 0.0 && c + s < 1.0
    ensures equity - (Times(equity, c) + Times(equity, s)) > 0.0
  {
    Distributes(c, s, equity);
    Distributes(1.0, 0.0 - (c + s), equity);
    Distributes(c + s, 0.0 - (c + s), equity);
    assert Times(equity, 1.0) == equity && Times(equity, 0.0) == 0.0;
    TimesSigns(equity, 1.0 - (c + s));
  }

  lemma RebalanceKeeps<S, R, A(!new)>(d: Data, p: Plan, b: Brains<S, R, A>, s: State<S, R, A>, before: real, t: nat)
    requires Shaped(d, p) && 0 < t < |d.opens| && Healthy(p, s) && AlwaysPrudent(p, b)
    ensures Rebalanced(d, p, b, s, before, t).Ok? && Healthy(p, Rebalanced(d, p, b, s, before, t).value)
  {
    var r := Decide(d, p, b, StandingOf(s, before), t);
    assert Prudent(p, r.risk);
    assert Floored(r.risk.weights, |p.universe|) == r.risk.weights;
    CostsLeaveEquity(s.equity, Fraction(r.risk.turnover, p.costBps), Fraction(r.risk.turnover, p.slippageBps));
  }

  lemma MorningKeeps<S, R, A(!new)>(d: Data, p: Plan, b: Brains<S, R, A>, s: State<S, R, A>, t: nat)
    requires Shaped(d, p) && AllQuoted(d, p) && 0 < t < |d.opens| && Healthy(p, s) && AlwaysPrudent(p, b)
    ensures Morning(d, p, b, s, t).Ok? && Healthy(p, Morning(d, p, b, s, t).value.0)
  {
    OvernightKeeps(d, p, s, t);
    RebalanceKeeps(d, p, b, Overnight(d, p, s, t).value.0, s.equity, t);
  }

  lemma {:induction false} AllCash(n: nat)
    ensures Sum(seq(n, _ => 0.0)) == 0.0
  {
    if n > 0 {
      AllCash(n - 1);
      assert seq(n, _ => 0.0)[..n - 1] == seq(n - 1, _ => 0.0);
    }
  }

  /**
   With every price quoted and prudent risk decisions, whatever the strategies do, the run completes:
   no growth, cost or equity guard fires, weights and cash total one and equity stays positive.
   */
  lemma PrudentRunCompletes<S(!new), R(!new), A(!new)>(d: Data, p: Plan, b: Brains<S, R, A>, t: nat)
    requires Shaped(d, p) && AllQuoted(d, p) && p.first <= t <= |d.opens| && p.capital > 0.0 && AlwaysPrudent(p, b)
    ensures Before(d, p, b, t).Ok? && Healthy(p, Before(d, p, b, t).value)
  {
    var g := EngineOf(d, p, b);
    AllCash(|p.universe|);
    forall s: State<S, R, A>, k: nat | p.first <= k < t && Healthy(p, s)
      ensures g.morning(s, k).Ok? && Healthy(p, g.morning(s, k).value.0)
    {
      MorningKeeps(d, p, b, s, k);
    }
    forall u: (State<S, R, A>, real), k: nat | p.first <= k < t && Healthy(p, u.0)
      ensures g.evening(u, k).Ok? && Healthy(p, g.evening(u, k).value)
    {
      IntradayKeeps(d, p, u.0, u.1, k);
    }
    RunKeeps(g, Start(p), p.first, t, s => Healthy(p, s), (u: (State<S, R, A>, real)) => Healthy(p, u.0));
  }
}
