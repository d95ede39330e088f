/** Planner, order manager and broker ledger together: safety of one rebalance, convergence of many. */
module Rebalance {
  import opened Prelude
  import opened LiveModels
  import opened OrderStore
  import opened PaperLedger
  import opened FakeBroker
  import opened OrderManager
  import opened OrderExecution
  import opened FreshBatch
  import opened ClientOrderId
  import opened TextOrder
  import opened Planner
  import opened PlannerGuarantees

  // ---------------------------------------------------------------- planning from the broker's own snapshot

  function Snapshot(l: Ledger): seq<Holding> {
    var keys := SortedSeq(l.positions.Keys);
    seq(|keys|, i requires 0 <= i < |keys| => assert keys[i] in keys;
      Holding(keys[i], l.positions[keys[i]].quantity, l.positions[keys[i]].marketValue))
  }

  /** The request with account and positions as the broker reports them. */
  ghost function At(req: Request, l: Ledger): Request {
    req.(cash := l.cash, equity := Equity(l), positions := Snapshot(l))
  }

  lemma {:induction false} PositionFound(ps: seq<Holding>, i: nat)
    requires i < |ps| && forall a, b :: 0 <= a < b < |ps| ==> ps[a].symbol != ps[b].symbol
    ensures PositionOf(ps, ps[i].symbol) == Some(ps[i])
  {
    if i < |ps| - 1 {
      PositionFound(ps[..|ps| - 1], i);
    }
  }

  lemma {:induction false} PositionMissing(ps: seq<Holding>, s: Symbol)
    requires forall i :: 0 <= i < |ps| ==> ps[i].symbol != s
    ensures PositionOf(ps, s) == None
  {
    if ps != [] {
      PositionMissing(ps[..|ps| - 1], s);
    }
  }

  lemma SnapshotPosition(l: Ledger, s: Symbol)
    ensures PositionOf(Snapshot(l), s) ==
              if s in l.positions then Some(Holding(s, l.positions[s].quantity, l.positions[s].marketValue)) else None
  {
    var keys := SortedSeq(l.positions.Keys);
    SortedIsDistinct(keys);
    if s in l.positions {
      assert s in keys;
      var i :| 0 <= i < |keys| && keys[i] == s;
      PositionFound(Snapshot(l), i);
    } else {
      assert forall i :: 0 <= i < |keys| ==> keys[i] in keys;
      PositionMissing(Snapshot(l), s);
    }
  }

  lemma {:induction false} NoPositionError(req: Request, ps: seq<Holding>)
    requires forall i :: 0 <= i < |ps| ==> ps[i].quantity >= 0.0 && ps[i].symbol in req.universe
    ensures PositionError(req, ps) == None
  {
    if ps != [] {
      NoPositionError(req, ps[..|ps| - 1]);
    }
  }

  lemma {:induction false} ReservedIsNonnegative(orders: seq<BrokerOrder>)
    requires forall o :: o in orders ==> o.requestedNotional.Some? ==> o.requestedNotional.value >= 0.0
    ensures ReservedBuys(orders) >= 0.0
  {
    if orders != [] {
      var n := |orders| - 1;
      assert forall o :: o in orders[..n] ==> o in orders;
      assert orders[n] in orders;
      ReservedIsNonnegative(orders[..n]);
    }
  }

  /** A plan made from the ledger's own snapshot is funded by that ledger. */
  lemma SnapshotPlanIsFunded(cfg: Config, req: Request, l: Ledger)
    requires cfg.Valid() && Nonnegative(l) && At(req, l).Valid() && MakePlan(cfg, At(req, l)).Ok?
    ensures var intents := MakePlan(cfg, At(req, l)).value.intents;
            && Funded(l, intents)
            && (exists sells: nat :: SellsFirst(intents, sells))
            && ((exists i :: i in intents && i.side == Buy) ==>
                  l.cash - Spend(intents) >= Worth(Equity(l), cfg.buffer) + ReservedBuys(req.openOrders))
  {
    var q := At(req, l);
    var intents := MakePlan(cfg, q).value.intents;
    PlanKeepsItsPromises(cfg, q);
    ReservedIsNonnegative(req.openOrders);
    WorthNonnegative(Equity(l), cfg.buffer);
    forall i | i in intents && i.side == Sell
      ensures i.Shares() <= Held(l, i.symbol)
    {
      assert IntentMeets(cfg, q, i);
      SnapshotPosition(l, i.symbol);
    }
    assert forall i :: i in intents ==> IntentMeets(cfg, q, i);
    if exists i :: i in intents && i.side == Buy {
      var i :| i in intents && i.side == Buy;
      BuyIsCounted(intents, i);
      IntentWorth(i);
    }
  }

  lemma {:induction false} BuyIsCounted(intents: seq<OrderIntent>, i: OrderIntent)
    requires i in intents && i.side == Buy && forall k :: k in intents ==> k.Valid()
    ensures Spend(intents) >= i.EstimatedNotional()
  {
    SpendIsNonnegative(intents[1..]);
    IntentWorth(intents[0]);
    if intents[0] != i {
      assert intents == [intents[0]] + intents[1..];
      BuyIsCounted(intents[1..], i);
    }
  }

  /**
   One rebalance is safe against every store, order book, callback and broker mood: the broker never
   refuses a short or a margin purchase, and if anything was to be bought, the cash left is at least
   the buffer plus the open buys, even if no sale brought anything in.
   */
  lemma RebalanceIsSafe(cfg: Config, req: Request, w: World, callback: Option<Callback>, subscribed: bool)
    requires cfg.Valid() && Nonnegative(w.broker.ledger) && At(req, w.broker.ledger).Valid()
    requires MakePlan(cfg, At(req, w.broker.ledger)).Ok?
    ensures var l, intents := w.broker.ledger, MakePlan(cfg, At(req, w.broker.ledger)).value.intents;
            && (forall i :: i in intents ==> i.Valid())
            && var (w', r) := Execute(w, intents, callback, subscribed);
               && r != Err(BrokerRefused)
               && Nonnegative(w'.broker.ledger)
               && ((exists i :: i in intents && i.side == Buy) ==>
                     w'.broker.ledger.cash >= Worth(Equity(l), cfg.buffer) + ReservedBuys(req.openOrders))
  {
    var intents := MakePlan(cfg, At(req, w.broker.ledger)).value.intents;
    SnapshotPlanIsFunded(cfg, req, w.broker.ledger);
    var sells: nat :| SellsFirst(intents, sells);
    FundedBatchIsSafe(w, intents, sells, callback, subscribed);
  }

  // ---------------------------------------------------------------- one round at fixed prices

  /** Standing conditions of repeated rebalancing: good inputs, and every quoted holding marked at its quote. */
  ghost predicate Steady(cfg: Config, req: Request, l: Ledger) {
    && cfg.Valid() && cfg.minimum > 0.0 && GoodNames(req)
    && (forall s :: s in req.weights ==> req.weights[s] >= 0.0) && req.weights.Keys <= req.universe
    && (forall s :: s in req.universe && s in req.quotes ==> req.quotes[s].price > 0.0)
    && (forall o :: o in req.openOrders ==> o.requestedNotional.Some? ==> o.requestedNotional.value >= 0.0)
    && Nonnegative(l) && l.positions.Keys <= req.universe && Equity(l) >= 0.0
    && Quoted(req, l)
  }

  ghost predicate Quoted(req: Request, l: Ledger) {
    forall s :: s in l.positions && s in req.quotes ==>
      l.positions[s].marketValue == Worth(l.positions[s].quantity, req.quotes[s].price)
  }

  /** Planning never fails from a steady state. */
  lemma SteadyPlanSucceeds(cfg: Config, req: Request, l: Ledger)
    requires Steady(cfg, req, l)
    ensures At(req, l).Valid() && MakePlan(cfg, At(req, l)).Ok?
  {
    var q := At(req, l);
    var keys := SortedSeq(l.positions.Keys);
    assert forall i :: 0 <= i < |keys| ==> keys[i] in keys;
    NoPositionError(q, Snapshot(l));
    assert InputError(q) == None;
    var symbols := SortedSeq(req.universe);
    assert forall i :: 0 <= i < |symbols| ==> symbols[i] in symbols;
    PlanFailsExactlyWhen(cfg, q);
  }

  ghost function PlanAt(cfg: Config, req: Request, l: Ledger): (intents: seq<OrderIntent>)
    requires Steady(cfg, req, l)
    ensures Funded(l, intents)
  {
    SteadyPlanSucceeds(cfg, req, l);
    SnapshotPlanIsFunded(cfg, req, l);
    MakePlan(cfg, At(req, l)).value.intents
  }

  /** The ledger after planning from it and filling the whole plan. */
  ghost function Round(cfg: Config, req: Request, l: Ledger): Ledger
    requires Steady(cfg, req, l)
  {
    ApplyAll(l, PlanAt(cfg, req, l))
  }

  ghost function Targets(cfg: Config, req: Request, l: Ledger): map<Symbol, real> {
    map s | s in req.universe :: Target(cfg, At(req, l), s)
  }

  // ---------------------------------------------------------------- distance to target

  ghost function GapOf(targets: map<Symbol, real>, l: Ledger, s: Symbol): real
    requires s in targets
  {
    targets[s] - Marked(l, s)
  }

  ghost function TotalGap(targets: map<Symbol, real>, symbols: seq<Symbol>, l: Ledger): real
    requires forall s :: s in symbols ==> s in targets
  {
    if symbols == [] then 0.0
    else
      var n := |symbols| - 1;
      assert symbols[n] in symbols;
      TotalGap(targets, symbols[..n], l) + Abs(GapOf(targets, l, symbols[n]))
  }

  lemma {:induction false} TotalGapNonnegative(targets: map<Symbol, real>, symbols: seq<Symbol>, l: Ledger)
    requires forall s :: s in symbols ==> s in targets
    ensures TotalGap(targets, symbols, l) >= 0.0
  {
    if symbols != [] {
      TotalGapNonnegative(targets, symbols[..|symbols| - 1], l);
    }
  }

  /** Moving one symbol towards its target by an amount takes that amount off the total distance. */
  lemma {:induction false} TotalGapMoves(targets: map<Symbol, real>, symbols: seq<Symbol>, l: Ledger, l': Ledger, x: Symbol, amount: real)
    requires forall s :: s in symbols ==> s in targets
    requires forall i, j :: 0 <= i < j < |symbols| ==> symbols[i] != symbols[j]
    requires forall s :: s != x ==> Marked(l', s) == Marked(l, s)
    requires x in targets && Abs(GapOf(targets, l', x)) == Abs(GapOf(targets, l, x)) - amount
    ensures TotalGap(targets, symbols, l') == TotalGap(targets, symbols, l) - if x in symbols then amount else 0.0
  {
    if symbols != [] {
      var n := |symbols| - 1;
      TotalGapMoves(targets, symbols[..n], l, l', x, amount);
      assert symbols == symbols[..n] + [symbols[n]];
      assert symbols[n] !in symbols[..n];
    }
  }

  /** An intent that moves its symbol towards the target without passing it. */
  ghost predicate Approaches(req: Request, targets: map<Symbol, real>, l: Ledger, i: OrderIntent) {
    && i.Valid() && i.symbol in targets && i.symbol in req.quotes && i.referencePrice == req.quotes[i.symbol].price
    && (i.side == Buy ==> i.EstimatedNotional() <= GapOf(targets, l, i.symbol))
    && (i.side == Sell ==> i.EstimatedNotional() <= -GapOf(targets, l, i.symbol))
  }

  function Traded(intents: seq<OrderIntent>): real
    requires forall i :: i in intents ==> i.Valid()
  {
    if intents == [] then 0.0 else intents[0].EstimatedNotional() + Traded(intents[1..])
  }

  /** Between the old gap and zero, on the same side of the target. */
  predicate NotPast(before: real, after: real) {
    (before >= 0.0 ==> 0.0 <= after <= before) && (before <= 0.0 ==> before <= after <= 0.0)
  }

  /** One approaching fill: same equity, quoted marks, the gap shrinks by exactly the amount traded. */
  lemma FillApproaches(req: Request, targets: map<Symbol, real>, l: Ledger, i: OrderIntent)
    requires Nonnegative(l) && Quoted(req, l) && Approaches(req, targets, l, i)
    requires ApplyFill(l, IntentFill(i)).Ok?
    ensures var l' := ApplyFill(l, IntentFill(i)).value;
            && Equity(l') == Equity(l) && Quoted(req, l') && Nonnegative(l')
            && (forall s :: s != i.symbol ==> Marked(l', s) == Marked(l, s))
            && l'.positions.Keys <= l.positions.Keys + {i.symbol}
            && NotPast(GapOf(targets, l, i.symbol), GapOf(targets, l', i.symbol))
            && Abs(GapOf(targets, l', i.symbol)) == Abs(GapOf(targets, l, i.symbol)) - i.EstimatedNotional()
  {
    var f := IntentFill(i);
    IntentWorth(i);
    FillEffect(l, f);
    NewMark(l, f);
    var l' := ApplyFill(l, f).value;
    assert Marked(l, i.symbol) == Worth(Held(l, i.symbol), f.price) by {
      if i.symbol !in l.positions {
        ZeroTimes(Held(l, i.symbol), f.price);
      }
    }
    assert Marked(l', i.symbol) == Marked(l, i.symbol) - CashEffect(f) by {
      assert Held(l', i.symbol) == NewQuantity(l, f);
    }
    assert Quoted(req, l') by {
      forall s | s in l'.positions && s in req.quotes
        ensures l'.positions[s].marketValue == Worth(l'.positions[s].quantity, req.quotes[s].price)
      {
        if s != i.symbol {
          assert s in l.positions && Held(l', s) == Held(l, s) && Marked(l', s) == Marked(l, s);
        }
      }
    }
  }

  /** The same equity, quoted marks, and every gap between its old value and zero. */
  ghost predicate Nearer(req: Request, targets: map<Symbol, real>, l: Ledger, l': Ledger) {
    && Equity(l') == Equity(l) && Quoted(req, l') && Nonnegative(l') && l'.positions.Keys <= targets.Keys
    && forall s :: s in targets ==> NotPast(GapOf(targets, l, s), GapOf(targets, l', s))
  }

  lemma NearerTransitive(req: Request, targets: map<Symbol, real>, a: Ledger, b: Ledger, c: Ledger)
    requires Nearer(req, targets, a, b) && Nearer(req, targets, b, c)
    ensures Nearer(req, targets, a, c)
  {
    forall s | s in targets
      ensures NotPast(GapOf(targets, a, s), GapOf(targets, c, s))
    {
      assert NotPast(GapOf(targets, a, s), GapOf(targets, b, s));
      assert NotPast(GapOf(targets, b, s), GapOf(targets, c, s));
    }
  }

  lemma FillIsNearer(req: Request, targets: map<Symbol, real>, symbols: seq<Symbol>, l: Ledger, i: OrderIntent)
    requires Nonnegative(l) && Quoted(req, l) && Approaches(req, targets, l, i)
    requires ApplyFill(l, IntentFill(i)).Ok?
    requires (forall s :: s in symbols <==> s in targets) && l.positions.Keys <= targets.Keys
    requires forall i, j :: 0 <= i < j < |symbols| ==> symbols[i] != symbols[j]
    ensures var l' := ApplyFill(l, IntentFill(i)).value;
            && Nearer(req, targets, l, l')
            && TotalGap(targets, symbols, l') == TotalGap(targets, symbols, l) - i.EstimatedNotional()
            && (forall s :: s != i.symbol ==> Marked(l', s) == Marked(l, s))
  {
    FillApproaches(req, targets, l, i);
    var l' := ApplyFill(l, IntentFill(i)).value;
    TotalGapMoves(targets, symbols, l, l', i.symbol, i.EstimatedNotional());
    forall s | s in targets
      ensures NotPast(GapOf(targets, l, s), GapOf(targets, l', s))
    {
      assert s != i.symbol ==> Marked(l', s) == Marked(l, s);
    }
  }

  ghost predicate AllApproach(req: Request, targets: map<Symbol, real>, l: Ledger, intents: seq<OrderIntent>) {
    forall k :: 0 <= k < |intents| ==> Approaches(req, targets, l, intents[k])
  }

  lemma RestApproaches(req: Request, targets: map<Symbol, real>, l: Ledger, l1: Ledger, intents: seq<OrderIntent>)
    requires intents != [] && AllApproach(req, targets, l, intents)
    requires forall i, j :: 0 <= i < j < |intents| ==> intents[i].symbol != intents[j].symbol
    requires forall s :: s != intents[0].symbol ==> Marked(l1, s) == Marked(l, s)
    ensures AllApproach(req, targets, l1, intents[1..])
  {
    var rest := intents[1..];
    forall k | 0 <= k < |rest|
      ensures Approaches(req, targets, l1, rest[k])
    {
      assert rest[k] == intents[k + 1] && Approaches(req, targets, l, intents[k + 1]);
      assert Marked(l1, rest[k].symbol) == Marked(l, rest[k].symbol);
    }
  }

  /** A whole batch of approaching intents, one per symbol. */
  lemma {:induction false} BatchApproaches(req: Request, targets: map<Symbol, real>, symbols: seq<Symbol>, l: Ledger, intents: seq<OrderIntent>)
    requires Funded(l, intents) && Quoted(req, l) && AllApproach(req, targets, l, intents)
    requires (forall s :: s in symbols <==> s in targets) && l.positions.Keys <= targets.Keys
    requires forall i, j :: 0 <= i < j < |symbols| ==> symbols[i] != symbols[j]
    ensures Nearer(req, targets, l, ApplyAll(l, intents))
    ensures TotalGap(targets, symbols, ApplyAll(l, intents)) == TotalGap(targets, symbols, l) - Traded(intents)
    decreases |intents|
  {
    if intents != [] {
      RestStaysFunded(l, intents, l);
      var l1 := ApplyFill(l, IntentFill(intents[0])).value;
      RestStaysFunded(l, intents, l1);
      FillIsNearer(req, targets, symbols, l, intents[0]);
      RestApproaches(req, targets, l, l1, intents);
      BatchApproaches(req, targets, symbols, l1, intents[1..]);
      NearerTransitive(req, targets, l, l1, ApplyAll(l1, intents[1..]));
    }
  }

  /** What planning from a steady ledger yields, without reference to how. */
  lemma PlanAtMeets(cfg: Config, req: Request, l: Ledger)
    requires Steady(cfg, req, l)
    ensures var intents := PlanAt(cfg, req, l);
            && (forall k :: 0 <= k < |intents| ==> IntentMeets(cfg, At(req, l), intents[k]))
            && (exists sells: nat :: SellsFirst(intents, sells))
  {
    SteadyPlanSucceeds(cfg, req, l);
    PlanKeepsItsPromises(cfg, At(req, l));
  }

  lemma MeetingIntentsApproach(cfg: Config, req: Request, l: Ledger, intents: seq<OrderIntent>)
    requires forall k :: 0 <= k < |intents| ==> IntentMeets(cfg, At(req, l), intents[k])
    ensures AllApproach(req, Targets(cfg, req, l), l, intents)
  {
    forall k | 0 <= k < |intents|
      ensures Approaches(req, Targets(cfg, req, l), l, intents[k])
    {
      assert IntentMeets(cfg, At(req, l), intents[k]);
      GapIsPlannersGap(cfg, req, l, intents[k].symbol);
    }
  }

  lemma TargetsFollowEquity(cfg: Config, req: Request, l: Ledger, l': Ledger)
    requires Equity(l') == Equity(l)
    ensures Targets(cfg, req, l') == Targets(cfg, req, l)
  {
    forall s | s in req.universe
      ensures Target(cfg, At(req, l'), s) == Target(cfg, At(req, l), s)
    {
    }
  }

  /**
   One round of plan and fill at fixed prices: equity and targets do not change, no symbol is pushed
   past its target, and the total distance to target falls by exactly what was traded.
   */
  lemma RoundApproachesTargets(cfg: Config, req: Request, l: Ledger)
    requires Steady(cfg, req, l)
    ensures var l', targets, symbols := Round(cfg, req, l), Targets(cfg, req, l), SortedSeq(req.universe);
            && Steady(cfg, req, l') && Equity(l') == Equity(l) && Targets(cfg, req, l') == targets
            && (forall s :: s in targets ==> NotPast(GapOf(targets, l, s), GapOf(targets, l', s)))
            && TotalGap(targets, symbols, l') == TotalGap(targets, symbols, l) - Traded(PlanAt(cfg, req, l))
  {
    PlanAtMeets(cfg, req, l);
    SortedIsDistinct(SortedSeq(req.universe));
    FilledRound(cfg, req, l, PlanAt(cfg, req, l));
  }

  lemma FilledRound(cfg: Config, req: Request, l: Ledger, intents: seq<OrderIntent>)
    requires Steady(cfg, req, l) && Funded(l, intents)
    requires forall k :: 0 <= k < |intents| ==> IntentMeets(cfg, At(req, l), intents[k])
    requires forall i, j :: 0 <= i < j < |SortedSeq(req.universe)| ==> SortedSeq(req.universe)[i] != SortedSeq(req.universe)[j]
    ensures var l', targets, symbols := ApplyAll(l, intents), Targets(cfg, req, l), SortedSeq(req.universe);
            && Steady(cfg, req, l') && Equity(l') == Equity(l) && Targets(cfg, req, l') == targets
            && (forall s :: s in targets ==> NotPast(GapOf(targets, l, s), GapOf(targets, l', s)))
            && TotalGap(targets, symbols, l') == TotalGap(targets, symbols, l) - Traded(intents)
  {
    MeetingIntentsApproach(cfg, req, l, intents);
    BatchApproaches(req, Targets(cfg, req, l), SortedSeq(req.universe), l, intents);
    TargetsFollowEquity(cfg, req, l, ApplyAll(l, intents));
  }

  lemma GapIsPlannersGap(cfg: Config, req: Request, l: Ledger, s: Symbol)
    requires s in req.universe
    ensures GapOf(Targets(cfg, req, l), l, s) == Gap(cfg, At(req, l), s)
  {
    SnapshotPosition(l, s);
  }

  // ---------------------------------------------------------------- convergence

  /** A positive amount below the order minimum and below a billionth share of every quoted symbol. */
  ghost predicate IsUnit(cfg: Config, req: Request, unit: real) {
    && 0.0 < unit <= cfg.minimum
    && forall s :: s in req.universe && s in req.quotes ==> unit <= Worth(NANO, req.quotes[s].price)
  }

  lemma IntentTradesAUnit(cfg: Config, q: Request, i: OrderIntent, unit: real)
    requires IntentMeets(cfg, q, i) && IsUnit(cfg, q, unit)
    ensures i.EstimatedNotional() >= unit
  {
    if i.side == Sell {
      WorthMonotone(NANO, i.quantity.value, i.referencePrice);
    }
  }

  /** Every planned intent trades at least the minimum (buys) or a billionth share (sells), so at least a unit. */
  lemma {:induction false} TradedAtLeast(intents: seq<OrderIntent>, unit: real)
    requires unit > 0.0 && forall i :: i in intents ==> i.Valid() && i.EstimatedNotional() >= unit
    ensures intents != [] ==> Traded(intents) >= unit
    ensures Traded(intents) >= 0.0
  {
    if intents != [] {
      assert forall k :: k in intents[1..] ==> k in intents;
      TradedAtLeast(intents[1..], unit);
      assert intents[0] in intents;
    }
  }

  ghost function Rounds(cfg: Config, req: Request, l: Ledger, n: nat): (l': Ledger)
    requires Steady(cfg, req, l)
    ensures Steady(cfg, req, l')
    decreases n
  {
    if n == 0 then l
    else
      RoundApproachesTargets(cfg, req, l);
      Rounds(cfg, req, Round(cfg, req, l), n - 1)
  }

  /** Total distance of the holdings from their targets. */
  ghost function Distance(cfg: Config, req: Request, l: Ledger): real {
    TotalGap(Targets(cfg, req, l), SortedSeq(req.universe), l)
  }

  /** A round that issues any intent brings the total distance down by at least a unit. */
  lemma RoundMakesProgress(cfg: Config, req: Request, l: Ledger, unit: real)
    requires Steady(cfg, req, l) && IsUnit(cfg, req, unit) && PlanAt(cfg, req, l) != []
    ensures Steady(cfg, req, Round(cfg, req, l))
    ensures 0.0 <= Distance(cfg, req, Round(cfg, req, l)) <= Distance(cfg, req, l) - unit
  {
    TotalGapNonnegative(Targets(cfg, req, l), SortedSeq(req.universe), Round(cfg, req, l));
    RoundApproachesTargets(cfg, req, l);
    PlanAtMeets(cfg, req, l);
    var intents := PlanAt(cfg, req, l);
    forall i | i in intents
      ensures i.Valid() && i.EstimatedNotional() >= unit
    {
      var k :| 0 <= k < |intents| && intents[k] == i;
      IntentTradesAUnit(cfg, At(req, l), i, unit);
    }
    TradedAtLeast(intents, unit);
  }

  /** From a steady ledger, planning after so many rounds issues no intent. */
  ghost predicate EmptyAfter(cfg: Config, req: Request, l: Ledger, n: nat) {
    Steady(cfg, req, l) && PlanAt(cfg, req, Rounds(cfg, req, l, n)) == []
  }

  /** A steady ledger less than so many units away from its targets. */
  ghost predicate Within(cfg: Config, req: Request, l: Ledger, unit: real, bound: nat) {
    Steady(cfg, req, l) && IsUnit(cfg, req, unit) && Distance(cfg, req, l) < Worth(unit, (bound + 1) as real)
  }

  lemma EmptyNow(cfg: Config, req: Request, l: Ledger)
    requires Steady(cfg, req, l)
    ensures EmptyAfter(cfg, req, l, 0) <==> PlanAt(cfg, req, l) == []
  {
  }

  lemma EmptyOneLater(cfg: Config, req: Request, l: Ledger, m: nat)
    requires Steady(cfg, req, l) && EmptyAfter(cfg, req, Round(cfg, req, l), m)
    ensures EmptyAfter(cfg, req, l, m + 1)
  {
    assert Rounds(cfg, req, l, m + 1) == Rounds(cfg, req, Round(cfg, req, l), m);
  }

  /**
   Convergence: repeated planning and filling at fixed prices and weights reaches an empty plan, after
   at most as many rounds as whole units fit into the initial distance to target.
   */
  lemma {:induction false} RebalancingConverges(cfg: Config, req: Request, l: Ledger, unit: real, bound: nat) returns (n: nat)
    requires Within(cfg, req, l, unit, bound)
    ensures n <= bound
    ensures EmptyAfter(cfg, req, l, n)
    decreases bound
  {
    var done, fewer := OneRoundOn(cfg, req, l, unit, bound);
    if done {
      n := 0;
    } else {
      var m := RebalancingConverges(cfg, req, Round(cfg, req, l), unit, fewer);
      n := OneMore(cfg, req, l, m);
    }
  }

  lemma OneMore(cfg: Config, req: Request, l: Ledger, m: nat) returns (n: nat)
    requires Steady(cfg, req, l) && EmptyAfter(cfg, req, Round(cfg, req, l), m)
    ensures n == m + 1 && EmptyAfter(cfg, req, l, n)
  {
    EmptyOneLater(cfg, req, l, m);
    n := m + 1;
  }

  lemma OneRoundOn(cfg: Config, req: Request, l: Ledger, unit: real, bound: nat) returns (done: bool, fewer: nat)
    requires Within(cfg, req, l, unit, bound)
    ensures done ==> EmptyAfter(cfg, req, l, 0)
    ensures !done ==> fewer + 1 == bound && Within(cfg, req, Round(cfg, req, l), unit, fewer)
  {
    EmptyNow(cfg, req, l);
    done := PlanAt(cfg, req, l) == [];
    fewer := 0;
    if !done {
      fewer := RoundNeedsFewer(cfg, req, l, unit, bound);
    }
  }

  lemma RoundNeedsFewer(cfg: Config, req: Request, l: Ledger, unit: real, bound: nat) returns (fewer: nat)
    requires Within(cfg, req, l, unit, bound) && PlanAt(cfg, req, l) != []
    ensures fewer + 1 == bound && Within(cfg, req, Round(cfg, req, l), unit, fewer)
  {
    RoundMakesProgress(cfg, req, l, unit);
    OneUnitLess(unit, bound, Distance(cfg, req, l), Distance(cfg, req, Round(cfg, req, l)));
    fewer := bound - 1;
  }

  lemma OneUnitLess(unit: real, bound: nat, before: real, after: real)
    requires unit > 0.0 && 0.0 <= after <= before - unit && before < Worth(unit, (bound + 1) as real)
    ensures bound > 0 && after < Worth(unit, bound as real)
  {
    assert unit * (bound + 1) as real == unit * bound as real + unit;
    assert bound == 0 ==> unit * bound as real == 0.0;
  }

  /** The smallest of the minimum and a billionth share of each listed, quoted symbol. */
  ghost function SmallestTrade(cfg: Config, req: Request, symbols: seq<Symbol>): real {
    if symbols == [] then cfg.minimum
    else
      var n := |symbols| - 1;
      var rest := SmallestTrade(cfg, req, symbols[..n]);
      if symbols[n] in req.quotes then Min(rest, Worth(NANO, req.quotes[symbols[n]].price)) else rest
  }

  lemma {:induction false} SmallestTradeIsSmallest(cfg: Config, req: Request, symbols: seq<Symbol>)
    requires cfg.minimum > 0.0
    requires forall s :: s in symbols && s in req.quotes ==> req.quotes[s].price > 0.0
    ensures 0.0 < SmallestTrade(cfg, req, symbols) <= cfg.minimum
    ensures forall s :: s in symbols && s in req.quotes ==> SmallestTrade(cfg, req, symbols) <= Worth(NANO, req.quotes[s].price)
  {
    if symbols != [] {
      var n := |symbols| - 1;
      assert symbols == symbols[..n] + [symbols[n]];
      SmallestTradeIsSmallest(cfg, req, symbols[..n]);
      if symbols[n] in req.quotes {
        assert symbols[n] in symbols;
        PositiveProduct(NANO, req.quotes[symbols[n]].price);
      }
    }
  }

  lemma UnitExists(cfg: Config, req: Request, l: Ledger)
    requires Steady(cfg, req, l)
    ensures IsUnit(cfg, req, SmallestTrade(cfg, req, SortedSeq(req.universe)))
  {
    SmallestTradeIsSmallest(cfg, req, SortedSeq(req.universe));
  }

  /** From every steady start, finitely many rounds reach an empty plan. */
  lemma RebalancingTerminates(cfg: Config, req: Request, l: Ledger)
    requires Steady(cfg, req, l)
    ensures exists n: nat :: EmptyAfter(cfg, req, l, n)
  {
    var unit := SmallestTrade(cfg, req, SortedSeq(req.universe));
    UnitExists(cfg, req, l);
    TotalGapNonnegative(Targets(cfg, req, l), SortedSeq(req.universe), l);
    var bound := WholeUnits(unit, Distance(cfg, req, l));
    var n := RebalancingConverges(cfg, req, l, unit, bound);
  }

  lemma WholeUnits(unit: real, distance: real) returns (bound: nat)
    requires unit > 0.0 && distance >= 0.0
    ensures distance < Worth(unit, (bound + 1) as real)
  {
    bound := (distance / unit).Floor;
    assert distance / unit < (bound + 1) as real;
    assert (distance / unit) * unit == distance;
  }

  // ---------------------------------------------------------------- rounds as executed

  ghost predicate StandardNames(req: Request, date: Date, digest: string) {
    forall s, side, n :: req.nameFor(s, side, n) == ClientIdFor(date, digest, s, side, n)
  }

  /** Ids within a plan are pairwise distinct. */
  lemma PlanIdsAreDistinct(cfg: Config, req: Request, date: Date, digest: string, a: nat, b: nat)
    requires cfg.Valid() && req.Valid() && MakePlan(cfg, req).Ok? && cfg.maxOrders <= 100_000_000_000
    requires date.Valid() && IsDigest(digest) && StandardNames(req, date, digest)
    requires a < b < |MakePlan(cfg, req).value.intents|
    ensures MakePlan(cfg, req).value.intents[a].clientId != MakePlan(cfg, req).value.intents[b].clientId
  {
    var intents := MakePlan(cfg, req).value.intents;
    PlanKeepsItsPromises(cfg, req);
    var i, j := intents[a], intents[b];
    assert i in intents && j in intents;
    var sells: nat :| SellsFirst(intents, sells);
    assert IntentMeets(cfg, req, i) && IntentMeets(cfg, req, j);
    IdsAreDistinct(date, digest, (i.symbol, i.side, i.sequence), (j.symbol, j.side, j.sequence));
  }

  /** Executing a steady ledger's plan under unseen names on the calm broker performs exactly one round. */
  lemma ExecutionPerformsTheRound(cfg: Config, req: Request, w: World, subscribed: bool)
    requires Steady(cfg, req, w.broker.ledger) && Calm(w.broker)
    requires UnseenBatch(w, PlanAt(cfg, req, w.broker.ledger))
    ensures var intents := PlanAt(cfg, req, w.broker.ledger);
            && AllFilled(Execute(w, intents, None, subscribed).1, |intents|)
            && Execute(w, intents, None, subscribed).0.broker.ledger == Round(cfg, req, w.broker.ledger)
  {
    var intents := PlanAt(cfg, req, w.broker.ledger);
    PlanAtMeets(cfg, req, w.broker.ledger);
    var sells: nat :| SellsFirst(intents, sells);
    PlannedBatchFillsCompletely(w, intents, sells, None, subscribed);
  }
}
