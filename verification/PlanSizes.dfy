/** What a plan asks for, exactly: the targets, the size of every intent, the reason of every skip and their order. */
module PlanSizes {
  import opened Prelude
  import opened LiveModels
  import opened TextOrder
  import opened Planner
  import opened PlannerGuarantees
  import opened OrderExecution

  // ---------------------------------------------------------------- the targets

  lemma {:induction false} SumScaled(keys: seq<Symbol>, m: map<Symbol, real>, scaled: map<Symbol, real>, factor: real)
    requires forall k :: k in keys ==> k in m && k in scaled && scaled[k] == Times(m[k], factor)
    ensures SumOf(keys, scaled) == Times(SumOf(keys, m), factor)
  {
    if keys != [] {
      var n := |keys| - 1;
      assert keys[n] in keys && forall k :: k in keys[..n] ==> k in keys;
      SumScaled(keys[..n], m, scaled, factor);
      ProductsAdd(SumOf(keys[..n], m), m[keys[n]], factor);
    }
  }

  lemma ProductsAdd(a: real, b: real, c: real)
    ensures Times(a + b, c) == Times(a, c) + Times(b, c)
  {
  }

  lemma ScaleMeans(cfg: Config, weights: map<Symbol, real>)
    requires NeedsScaling(cfg, weights)
    ensures Times(Gross(weights), Scale(cfg, weights)) == 1.0 - cfg.buffer
  {
  }

  lemma Reassociated(w: real, factor: real, whole: real)
    ensures Times(Times(w, factor), whole) == Times(w, Times(whole, factor))
  {
  }

  lemma GrossScaled(weights: map<Symbol, real>, scaled: map<Symbol, real>, factor: real)
    requires scaled.Keys == weights.Keys && forall s :: s in weights ==> scaled[s] == Times(weights[s], factor)
    ensures Gross(scaled) == Times(Gross(weights), factor)
  {
    SumScaled(SortedSeq(weights.Keys), weights, scaled, factor);
  }

  lemma ScaledGross(cfg: Config, weights: map<Symbol, real>)
    requires NeedsScaling(cfg, weights)
    ensures FinalWeights(cfg, weights).Keys == weights.Keys && Gross(FinalWeights(cfg, weights)) == 1.0 - cfg.buffer
  {
    var final := FinalWeights(cfg, weights);
    assert final.Keys == weights.Keys;
    GrossScaled(weights, final, Scale(cfg, weights));
    ScaleMeans(cfg, weights);
  }

  /** The weights a plan aims at: the same symbols in the same proportions, totalling what the cash buffer leaves at most. */
  lemma WeightsAreScaled(cfg: Config, weights: map<Symbol, real>)
    requires cfg.Valid()
    ensures var final := FinalWeights(cfg, weights);
            && final.Keys == weights.Keys
            && Gross(final) == Min(Gross(weights), 1.0 - cfg.buffer)
            && (Gross(weights) <= 1.0 - cfg.buffer ==> final == weights)
            && (forall s :: s in weights ==> Times(final[s], Gross(weights)) == Times(weights[s], Gross(final)))
  {
    if NeedsScaling(cfg, weights) {
      var final, gross := FinalWeights(cfg, weights), Gross(weights);
      ScaledGross(cfg, weights);
      forall s | s in weights
        ensures Times(final[s], gross) == Times(weights[s], 1.0 - cfg.buffer)
      {
        ScaleMeans(cfg, weights);
        Reassociated(weights[s], Scale(cfg, weights), gross);
      }
    }
  }

  lemma ScaledWorth(final: real, gross: real, w: real, part: real, equity: real)
    requires Times(final, gross) == Times(w, part)
    ensures Times(Worth(final, equity), gross) == Times(Worth(w, equity), part)
  {
    assert final * equity * gross == final * gross * equity;
    assert w * equity * part == w * part * equity;
  }

  /** A symbol's target value: its share of the equity, scaled down with all others if together they would touch the buffer. */
  lemma TargetIsShareOfEquity(cfg: Config, req: Request, s: Symbol)
    requires cfg.Valid()
    ensures s !in req.weights ==> Target(cfg, req, s) == 0.0
    ensures s in req.weights && Gross(req.weights) <= 1.0 - cfg.buffer ==> Target(cfg, req, s) == Worth(req.weights[s], req.equity)
    ensures s in req.weights && Gross(req.weights) > 1.0 - cfg.buffer ==>
              Times(Target(cfg, req, s), Gross(req.weights)) == Times(Worth(req.weights[s], req.equity), 1.0 - cfg.buffer)
  {
    WeightsAreScaled(cfg, req.weights);
    if s in req.weights && Gross(req.weights) > 1.0 - cfg.buffer {
      ScaledWorth(FinalWeights(cfg, req.weights)[s], Gross(req.weights), req.weights[s], 1.0 - cfg.buffer, req.equity);
    }
  }

  /** The cash set aside for open buys: each open buy order's own amount, and nothing for any other order. */
  lemma {:induction false} ReservedAddsUp(a: seq<BrokerOrder>, b: seq<BrokerOrder>, o: BrokerOrder)
    ensures ReservedBuys(a + [o] + b) ==
              ReservedBuys(a) + ReservedBuys(b) + if o.side == Buy && !OverWord(o.status) then o.requestedNotional.GetOr(0.0) else 0.0
    decreases |b|
  {
    if b == [] {
      assert (a + [o] + b)[..|a|] == a;
      assert a + [o] + b == a + [o];
    } else {
      var n := |b| - 1;
      assert (a + [o] + b)[..|a + [o] + b| - 1] == a + [o] + b[..n];
      ReservedAddsUp(a, b[..n], o);
    }
  }

  /** The status ends an order. */
  predicate OverWord(status: string) { OrderStates.Terminal(OrderStates.StateForBrokerStatus(status)) }

  // ---------------------------------------------------------------- the size of every intent

  /** What a symbol lacks: its target less the market value of its position, if it has one. */
  function Lack(cfg: Config, req: Request, s: Symbol): real {
    Target(cfg, req, s) - if PositionOf(req.positions, s).Some? then PositionOf(req.positions, s).value.marketValue else 0.0
  }

  /** What a symbol may trade at most in one order: its lack or surplus, capped by a fraction of the equity. */
  function Amount(cfg: Config, req: Request, s: Symbol): real { Min(Abs(Lack(cfg, req, s)), Worth(req.equity, cfg.maxFraction)) }

  /** The cash that buys may use: not the buffer, not what open buys will take. */
  function Usable(cfg: Config, req: Request): real {
    Max(0.0, req.cash - Worth(req.equity, cfg.buffer) - ReservedBuys(req.openOrders))
  }

  /** A buy takes the least of gap, cap and cash left; a sell the least of gap, cap and holding, down to a billionth share. */
  ghost predicate Sized(cfg: Config, req: Request, intents: seq<OrderIntent>, k: nat)
    requires k < |intents| && forall i :: i in intents ==> i.Valid()
  {
    var i := intents[k];
    assert i in intents && i.Valid();
    if i.side == Buy then
      i.notional == Some(Min(Amount(cfg, req, i.symbol), Usable(cfg, req) - SpentBefore(intents, k)))
    else
      && PositionOf(req.positions, i.symbol).Some? && i.quantity.Some?
      && var most := Min(PositionOf(req.positions, i.symbol).value.quantity, Amount(cfg, req, i.symbol) / i.referencePrice);
         most - NANO < i.quantity.value <= most
  }

  ghost function SpentBefore(intents: seq<OrderIntent>, k: nat): real
    requires k <= |intents| && forall i :: i in intents ==> i.Valid()
  {
    assert forall i :: i in intents[..k] ==> i in intents;
    Spend(intents[..k])
  }

  ghost predicate AllSized(cfg: Config, req: Request, intents: seq<OrderIntent>) {
    (forall i :: i in intents ==> i.Valid()) && forall k: nat :: k < |intents| ==> Sized(cfg, req, intents, k)
  }

  lemma SizedStays(cfg: Config, req: Request, intents: seq<OrderIntent>, i: OrderIntent)
    requires AllSized(cfg, req, intents) && i.Valid()
    requires Sized(cfg, req, intents + [i], |intents|)
    ensures AllSized(cfg, req, intents + [i])
  {
    var more := intents + [i];
    forall k: nat | k < |more|
      ensures Sized(cfg, req, more, k)
    {
      if k < |intents| {
        assert Sized(cfg, req, intents, k);
        assert more[k] == intents[k] && more[..k] == intents[..k];
      }
    }
  }

  /** The intent a step adds has its size. */
  lemma NewIntentSized(cfg: Config, req: Request, p: Progress, d: Delta)
    requires DeltaFits(cfg, req, d) && PlanNext(cfg, req, p, d).Ok?
    requires (forall i :: i in p.intents ==> i.Valid()) && Spend(p.intents) + p.budget == Budget(cfg, req)
    requires |PlanNext(cfg, req, p, d).value.intents| > |p.intents|
    ensures var i := PlanNext(cfg, req, p, d).value.intents[|p.intents|];
            && i.Valid() && PlanNext(cfg, req, p, d).value.intents == p.intents + [i]
            && Sized(cfg, req, p.intents + [i], |p.intents|)
  {
    var i := PlanNext(cfg, req, p, d).value.intents[|p.intents|];
    assert (p.intents + [i])[..|p.intents|] == p.intents;
    if d.side == Sell {
      RoundDown9Bounds(Min(PositionOf(req.positions, d.symbol).value.quantity, d.notional / d.price));
    }
  }

  // ---------------------------------------------------------------- the reason of every skip

  /** An order for the symbol, on either side, is not over. */
  ghost predicate Clashes(req: Request, s: Symbol) {
    exists o :: o in req.openOrders && o.symbol == s && !OverWord(o.status)
  }

  /** The symbol would be traded on this side but for order cap, cash and holding. */
  ghost predicate Wanted(cfg: Config, req: Request, s: Symbol, side: Side) {
    && s in req.universe && s in req.quotes && req.quotes[s].price > 0.0 && !TooOld(cfg, req, s) && !Clashes(req, s)
    && Abs(Lack(cfg, req, s)) >= cfg.minimum && (side == Buy <==> Lack(cfg, req, s) > 0.0)
  }

  predicate TooOld(cfg: Config, req: Request, s: Symbol) {
    s in req.quotes && req.quotes[s].age.Some? && req.quotes[s].age.value > cfg.staleAfter
  }

  /** After some of these intents, what is left of gap, cap and cash is below the minimum. */
  ghost predicate RanOut(cfg: Config, req: Request, intents: seq<OrderIntent>, s: Symbol) {
    && (forall i :: i in intents ==> i.Valid())
    && exists n: nat :: n <= |intents| && Min(Amount(cfg, req, s), Usable(cfg, req) - SpentBefore(intents, n)) < cfg.minimum
  }

  /** A skip says the truth about its symbol. */
  ghost predicate Truthful(cfg: Config, req: Request, intents: seq<OrderIntent>, skip: Skip) {
    match skip.symbol
    case None => skip.reason == CashBufferScaled && Gross(req.weights) > 1.0 - cfg.buffer
    case Some(s) =>
      s in req.universe &&
      match skip.reason
      case CashBufferScaled => false
      case MissingPrice => s !in req.quotes
      case StalePrice => TooOld(cfg, req, s)
      case BelowMinimum => 0.0 < Abs(Lack(cfg, req, s)) < cfg.minimum
      case ConflictingOpenOrder => Clashes(req, s) && Abs(Lack(cfg, req, s)) >= cfg.minimum
      case MaximumOrderCount => |intents| >= cfg.maxOrders && (Wanted(cfg, req, s, Buy) || Wanted(cfg, req, s, Sell))
      case InsufficientCash => Wanted(cfg, req, s, Buy) && RanOut(cfg, req, intents, s)
      case NoLongPosition => Wanted(cfg, req, s, Sell) && !Held(req, s)
      case SellRoundsToZero =>
        && Wanted(cfg, req, s, Sell) && Held(req, s)
        && Min(PositionOf(req.positions, s).value.quantity, Amount(cfg, req, s) / req.quotes[s].price) < NANO
  }

  predicate Held(req: Request, s: Symbol) {
    PositionOf(req.positions, s).Some? && PositionOf(req.positions, s).value.quantity > 0.0
  }

  lemma TruthStays(cfg: Config, req: Request, intents: seq<OrderIntent>, i: OrderIntent, skip: Skip)
    requires Truthful(cfg, req, intents, skip) && i.Valid()
    ensures Truthful(cfg, req, intents + [i], skip)
  {
    if skip.symbol.Some? && skip.reason == InsufficientCash {
      var s := skip.symbol.value;
      var n: nat :| n <= |intents| && Min(Amount(cfg, req, s), Usable(cfg, req) - SpentBefore(intents, n)) < cfg.minimum;
      assert (intents + [i])[..n] == intents[..n];
      assert Min(Amount(cfg, req, s), Usable(cfg, req) - SpentBefore(intents + [i], n)) < cfg.minimum;
    }
  }

  ghost predicate AllTruthful(cfg: Config, req: Request, intents: seq<OrderIntent>, skips: seq<Skip>) {
    forall k :: k in skips ==> Truthful(cfg, req, intents, k)
  }

  lemma SurveyNextTruthful(cfg: Config, req: Request, so: Survey, symbol: Symbol)
    requires AllTruthful(cfg, req, [], so.skips) && symbol in req.universe && SurveyNext(cfg, req, so, symbol).Ok?
    ensures AllTruthful(cfg, req, [], SurveyNext(cfg, req, so, symbol).value.skips)
  {
  }

  lemma {:induction false} SurveyTruthful(cfg: Config, req: Request, symbols: seq<Symbol>, start: Survey)
    requires AllTruthful(cfg, req, [], start.skips) && (forall s :: s in symbols ==> s in req.universe)
    ensures SurveyAll(cfg, req, symbols, start).Ok? ==> AllTruthful(cfg, req, [], SurveyAll(cfg, req, symbols, start).value.skips)
  {
    if symbols != [] {
      var n := |symbols| - 1;
      assert symbols[n] in symbols && forall s :: s in symbols[..n] ==> s in symbols;
      SurveyTruthful(cfg, req, symbols[..n], start);
      if SurveyAll(cfg, req, symbols, start).Ok? {
        SurveyNextTruthful(cfg, req, SurveyAll(cfg, req, symbols[..n], start).value, symbols[n]);
      }
    }
  }

  /** A skip that sizing adds says the truth. */
  lemma NewSkipTruthful(cfg: Config, req: Request, p: Progress, d: Delta)
    requires DeltaFits(cfg, req, d) && PlanNext(cfg, req, p, d).Ok?
    requires (forall i :: i in p.intents ==> i.Valid()) && Spend(p.intents) + p.budget == Budget(cfg, req)
    requires |PlanNext(cfg, req, p, d).value.intents| == |p.intents|
    ensures var p' := PlanNext(cfg, req, p, d).value;
            && p'.intents == p.intents && |p'.skips| == |p.skips| + 1 && p'.skips[..|p.skips|] == p.skips
            && Truthful(cfg, req, p.intents, p'.skips[|p.skips|])
  {
    assert Wanted(cfg, req, d.symbol, d.side);
    if d.side == Buy {
      assert p.intents[..|p.intents|] == p.intents;
      assert SpentBefore(p.intents, |p.intents|) == Spend(p.intents);
    } else if Held(req, d.symbol) {
      SmallSell(PositionOf(req.positions, d.symbol).value.quantity, d.notional, d.price);
    }
  }

  lemma SmallSell(held: real, notional: real, price: real)
    requires price > 0.0
    ensures SellQuantity(held, notional, price) <= 0.0 ==> Min(held, notional / price) < NANO
  {
    RoundDown9Bounds(Min(held, notional / price));
  }

  // ---------------------------------------------------------------- the order of the intents

  /** Within a side, by symbol. */
  ghost predicate BySymbol(ds: seq<Delta>) {
    forall i, j :: 0 <= i < j < |ds| && ds[i].side == ds[j].side ==> Less(ds[i].symbol, ds[j].symbol)
  }

  ghost predicate IntentsBySymbol(intents: seq<OrderIntent>) {
    forall i, j :: 0 <= i < j < |intents| && intents[i].side == intents[j].side ==> Less(intents[i].symbol, intents[j].symbol)
  }

  lemma {:induction false} WantsBySymbol(cfg: Config, req: Request, symbols: seq<Symbol>)
    requires Sorted(symbols)
    ensures BySymbol(Wants(cfg, req, symbols)) && forall d :: d in Wants(cfg, req, symbols) ==> d.symbol in symbols
  {
    if symbols != [] {
      var n := |symbols| - 1;
      var front, all := Wants(cfg, req, symbols[..n]), Wants(cfg, req, symbols);
      WantsBySymbol(cfg, req, symbols[..n]);
      forall k | 0 <= k < |front|
        ensures Less(front[k].symbol, symbols[n])
      {
        assert front[k] in front;
      }
      assert forall s :: s in symbols[..n] ==> s in symbols;
      assert symbols[n] in symbols;
    }
  }

  lemma {:induction false} OfSideBySymbol(ds: seq<Delta>, side: Side)
    requires BySymbol(ds)
    ensures BySymbol(OfSide(ds, side))
    ensures forall d :: d in OfSide(ds, side) ==> d in ds && d.side == side
  {
    if ds != [] {
      var n := |ds| - 1;
      var front := OfSide(ds[..n], side);
      OfSideBySymbol(ds[..n], side);
      forall k | 0 <= k < |front| && ds[n].side == side
        ensures Less(front[k].symbol, ds[n].symbol)
      {
        assert front[k] in front && front[k] in ds[..n];
      }
      assert forall d :: d in ds[..n] ==> d in ds;
    }
  }

  lemma WantedBySymbol(cfg: Config, req: Request)
    ensures BySymbol(WantedDeltas(cfg, req))
  {
    var ds := Wants(cfg, req, SortedSeq(req.universe));
    WantsBySymbol(cfg, req, SortedSeq(req.universe));
    OfSideBySymbol(ds, Sell);
    OfSideBySymbol(ds, Buy);
    var a, b := OfSide(ds, Sell), OfSide(ds, Buy);
    var all := a + b;
    forall i, j | 0 <= i < j < |all| && all[i].side == all[j].side
      ensures Less(all[i].symbol, all[j].symbol)
    {
      assert i < |a| ==> a[i] in a;
      assert j >= |a| ==> b[j - |a|] in b;
    }
  }

  // ---------------------------------------------------------------- the whole plan

  /** The plan so far: what was promised of it, every size, every reason, and the order. */
  ghost predicate Exact(cfg: Config, req: Request, ds: seq<Delta>, p: Progress) {
    && ProgressFits(cfg, req, ds, p)
    && AllSized(cfg, req, p.intents) && AllTruthful(cfg, req, p.intents, p.skips) && IntentsBySymbol(p.intents)
  }

  lemma AddedIntent(cfg: Config, req: Request, ds: seq<Delta>, d: Delta, p: Progress)
    requires Exact(cfg, req, ds, p) && DeltaFits(cfg, req, d) && BySymbol(ds + [d]) && PlanNext(cfg, req, p, d).Ok?
    requires |PlanNext(cfg, req, p, d).value.intents| > |p.intents|
    ensures var p' := PlanNext(cfg, req, p, d).value;
            AllSized(cfg, req, p'.intents) && AllTruthful(cfg, req, p'.intents, p'.skips) && IntentsBySymbol(p'.intents)
  {
    var i := PlanNext(cfg, req, p, d).value.intents[|p.intents|];
    NewIntentSized(cfg, req, p, d);
    SizedStays(cfg, req, p.intents, i);
    forall k | k in p.skips
      ensures Truthful(cfg, req, p.intents + [i], k)
    {
      TruthStays(cfg, req, p.intents, i, k);
    }
    forall n | 0 <= n < |p.intents| && p.intents[n].side == i.side
      ensures Less(p.intents[n].symbol, i.symbol)
    {
      assert ComesFrom(ds, p.intents[n]);
      var k :| 0 <= k < |ds| && ds[k].symbol == p.intents[n].symbol && ds[k].side == p.intents[n].side;
      assert (ds + [d])[k] == ds[k] && (ds + [d])[|ds|] == d;
    }
  }

  lemma AddedSkip(cfg: Config, req: Request, ds: seq<Delta>, d: Delta, p: Progress)
    requires Exact(cfg, req, ds, p) && DeltaFits(cfg, req, d) && PlanNext(cfg, req, p, d).Ok?
    requires |PlanNext(cfg, req, p, d).value.intents| == |p.intents|
    ensures var p' := PlanNext(cfg, req, p, d).value;
            AllSized(cfg, req, p'.intents) && AllTruthful(cfg, req, p'.intents, p'.skips) && IntentsBySymbol(p'.intents)
  {
    var p' := PlanNext(cfg, req, p, d).value;
    NewSkipTruthful(cfg, req, p, d);
    assert p'.skips == p.skips + [p'.skips[|p.skips|]];
  }

  lemma BySymbolPrefix(ds: seq<Delta>)
    requires ds != [] && BySymbol(ds)
    ensures BySymbol(ds[..|ds| - 1])
  {
  }

  lemma {:induction false} PlanAllExact(cfg: Config, req: Request, ds: seq<Delta>, start: Progress)
    requires Exact(cfg, req, [], start) && Orderly(cfg, req, ds) && BySymbol(ds)
    ensures PlanAll(cfg, req, ds, start).Ok? ==> Exact(cfg, req, ds, PlanAll(cfg, req, ds, start).value)
  {
    if ds != [] && PlanAll(cfg, req, ds, start).Ok? {
      var n := |ds| - 1;
      OrderlyPrefix(cfg, req, ds);
      BySymbolPrefix(ds);
      PlanAllExact(cfg, req, ds[..n], start);
      var p := PlanAll(cfg, req, ds[..n], start).value;
      StepFits(cfg, req, ds[..n], ds[n], p);
      if |PlanNext(cfg, req, p, ds[n]).value.intents| > |p.intents| {
        AddedIntent(cfg, req, ds[..n], ds[n], p);
      } else {
        AddedSkip(cfg, req, ds[..n], ds[n], p);
      }
    }
  }

  lemma FirstSkipsTruthful(cfg: Config, req: Request)
    ensures AllTruthful(cfg, req, [], FirstSkips(cfg, req))
  {
  }

  /** Every plan has exactly the sizes the targets, the caps, the cash and the holdings ask for, true reasons for its skips,
      and its sells and buys in symbol order. */
  lemma PlanIsExact(cfg: Config, req: Request)
    requires cfg.Valid() && MakePlan(cfg, req).Ok?
    ensures var plan := MakePlan(cfg, req).value;
            AllSized(cfg, req, plan.intents) && AllTruthful(cfg, req, plan.intents, plan.skips) && IntentsBySymbol(plan.intents)
  {
    PlanInTwoPasses(cfg, req);
    SurveyedDeltas(cfg, req);
    WantedBySymbol(cfg, req);
    FirstSkipsTruthful(cfg, req);
    SurveyTruthful(cfg, req, SortedSeq(req.universe), Survey([], FirstSkips(cfg, req)));
    var first := Progress([], Budget(cfg, req), FirstPass(cfg, req).value.skips);
    NothingPlannedFits(cfg, req, first.skips);
    PlanAllExact(cfg, req, WantedDeltas(cfg, req), first);
  }

  /** A symbol is passed over in silence exactly when it is quoted at a good, fresh price, on target, and some minimum is set. */
  lemma SilentExactlyWhen(cfg: Config, req: Request, s: Symbol)
    ensures Find(cfg, req, s).Even? <==>
              && s in req.quotes && req.quotes[s].price > 0.0 && !TooOld(cfg, req, s)
              && Lack(cfg, req, s) == 0.0 && cfg.minimum > 0.0
  {
  }

  /** Weights too high for the buffer are noted, once, as the plan's first skip; others never are. */
  lemma ScalingIsNoted(cfg: Config, req: Request)
    requires cfg.Valid()
    ensures FirstSkips(cfg, req) == if Gross(req.weights) > 1.0 - cfg.buffer then [Skip(None, CashBufferScaled)] else []
  {
  }

  // ---------------------------------------------------------------- what a plan refuses to start from

  predicate Good(req: Request, h: Holding) { h.quantity >= 0.0 && h.symbol in req.universe }

  /** The first position that is not good. */
  ghost predicate FirstBad(req: Request, ps: seq<Holding>, k: nat) {
    k < |ps| && !Good(req, ps[k]) && forall i :: 0 <= i < k ==> Good(req, ps[i])
  }

  lemma {:induction false} PositionsAreRefused(req: Request, ps: seq<Holding>)
    ensures PositionError(req, ps).None? <==> forall i :: 0 <= i < |ps| ==> Good(req, ps[i])
    ensures forall k: nat :: FirstBad(req, ps, k) ==>
              PositionError(req, ps) == Some(if ps[k].quantity < 0.0 then NegativePosition else UnexpectedPosition)
  {
    if ps != [] {
      var n := |ps| - 1;
      PositionsAreRefused(req, ps[..n]);
      assert PositionError(req, ps[..n]).None? <==> forall i :: 0 <= i < n ==> Good(req, ps[i]) by {
        assert forall i :: 0 <= i < n ==> ps[..n][i] == ps[i];
      }
      forall k: nat | FirstBad(req, ps, k)
        ensures PositionError(req, ps) == Some(if ps[k].quantity < 0.0 then NegativePosition else UnexpectedPosition)
      {
        if k < n {
          assert FirstBad(req, ps[..n], k);
        }
      }
    }
  }

  /** A request is refused for a negative weight, then for a symbol outside the universe, then for its first bad position. */
  lemma RequestIsRefusedExactlyWhen(req: Request)
    ensures InputError(req) == Some(InvalidWeight) <==> exists s :: s in req.weights && req.weights[s] < 0.0
    ensures InputError(req) == Some(OutsideUniverse) <==>
              (forall s :: s in req.weights ==> req.weights[s] >= 0.0) && exists s :: s in req.weights && s !in req.universe
    ensures InputError(req).None? <==>
              && (forall s :: s in req.weights ==> req.weights[s] >= 0.0 && s in req.universe)
              && (forall i :: 0 <= i < |req.positions| ==> Good(req, req.positions[i]))
    ensures forall k: nat :: FirstBad(req, req.positions, k) && (forall s :: s in req.weights ==> req.weights[s] >= 0.0 && s in req.universe) ==>
              InputError(req) == Some(if req.positions[k].quantity < 0.0 then NegativePosition else UnexpectedPosition)
  {
    PositionsAreRefused(req, req.positions);
    PositionErrors(req, req.positions);
  }

  lemma {:induction false} PositionErrors(req: Request, ps: seq<Holding>)
    ensures PositionError(req, ps) in {None, Some(NegativePosition), Some(UnexpectedPosition)}
  {
    if ps != [] {
      PositionErrors(req, ps[..|ps| - 1]);
    }
  }
}
