/** What every accepted plan looks like, for every configuration and request. */
module PlannerGuarantees {
  import opened Prelude
  import opened LiveModels
  import opened ClientOrderId
  import opened TextOrder
  import opened Planner
  import opened OrderExecution

  // ---------------------------------------------------------------- arithmetic

  lemma RoundDown9Bounds(x: real)
    ensures RoundDown9(x) <= x
    ensures RoundDown9(x) > 0.0 ==> RoundDown9(x) >= NANO
    ensures x - NANO < RoundDown9(x)
  {
    var n := (x * 1000000000.0).Floor;
    assert n as real <= x * 1000000000.0 < n as real + 1.0;
    assert RoundDown9(x) == n as real / 1000000000.0;
    if RoundDown9(x) > 0.0 {
      assert n >= 1;
    }
  }

  lemma WorthAtMost(q: real, notional: real, price: real)
    requires price > 0.0 && q <= notional / price
    ensures Worth(q, price) <= notional
  {
    assert (notional / price) * price == notional;
    WorthMonotone(q, notional / price, price);
  }

  lemma WorthMonotone(a: real, b: real, price: real)
    requires price >= 0.0 && a <= b
    ensures Worth(a, price) <= Worth(b, price)
  {
  }

  // ---------------------------------------------------------------- first pass

  /** What a delta says about its symbol. */
  ghost predicate DeltaFits(cfg: Config, req: Request, d: Delta) {
    && d.symbol in req.universe && d.symbol in req.quotes
    && d.price == req.quotes[d.symbol].price && d.price > 0.0
    && (req.quotes[d.symbol].age.Some? ==> req.quotes[d.symbol].age.value <= cfg.staleAfter)
    && !Conflicts(req, d.symbol)
    && Abs(Gap(cfg, req, d.symbol)) >= cfg.minimum
    && d.notional == Min(Abs(Gap(cfg, req, d.symbol)), Cap(cfg, req))
    && (d.side == Buy <==> Gap(cfg, req, d.symbol) > 0.0)
  }

  ghost predicate DistinctSymbols(ds: seq<Delta>) {
    forall i, j :: 0 <= i < j < |ds| ==> ds[i].symbol != ds[j].symbol
  }

  ghost predicate Within(ds: seq<Delta>, symbols: seq<Symbol>) {
    forall i :: 0 <= i < |ds| ==> ds[i].symbol in symbols
  }

  ghost predicate SurveyOk(cfg: Config, req: Request, symbols: seq<Symbol>, deltas: seq<Delta>) {
    && (forall i :: 0 <= i < |deltas| ==> DeltaFits(cfg, req, deltas[i]))
    && DistinctSymbols(deltas) && Within(deltas, symbols)
  }

  lemma SurveyNextFits(cfg: Config, req: Request, front: seq<Symbol>, s: Symbol, so: Survey)
    requires SurveyOk(cfg, req, front, so.deltas) && s in req.universe && s !in front
    requires SurveyNext(cfg, req, so, s).Ok?
    ensures SurveyOk(cfg, req, front + [s], SurveyNext(cfg, req, so, s).value.deltas)
  {
  }

  lemma {:induction false} SurveyFits(cfg: Config, req: Request, symbols: seq<Symbol>, start: Survey)
    requires forall s :: s in symbols ==> s in req.universe
    requires forall i, j :: 0 <= i < j < |symbols| ==> symbols[i] != symbols[j]
    requires start.deltas == []
    ensures SurveyAll(cfg, req, symbols, start).Ok? ==> SurveyOk(cfg, req, symbols, SurveyAll(cfg, req, symbols, start).value.deltas)
  {
    if symbols != [] {
      var n := |symbols| - 1;
      assert forall s :: s in symbols[..n] ==> s in symbols;
      SurveyFits(cfg, req, symbols[..n], start);
      assert symbols[n] in symbols;
      assert symbols[n] !in symbols[..n];
      assert symbols == symbols[..n] + [symbols[n]];
      if SurveyAll(cfg, req, symbols, start).Ok? {
        SurveyNextFits(cfg, req, symbols[..n], symbols[n], SurveyAll(cfg, req, symbols[..n], start).value);
      }
    }
  }

  lemma {:induction false} OfSideFits(cfg: Config, req: Request, ds: seq<Delta>, side: Side)
    ensures forall d :: d in OfSide(ds, side) <==> d in ds && d.side == side
    ensures DistinctSymbols(ds) ==> DistinctSymbols(OfSide(ds, side))
  {
    if ds != [] {
      var n := |ds| - 1;
      OfSideFits(cfg, req, ds[..n], side);
      assert ds == ds[..n] + [ds[n]];
      var front := OfSide(ds[..n], side);
      if DistinctSymbols(ds) {
        forall i | 0 <= i < |front|
          ensures front[i].symbol != ds[n].symbol
        {
          assert front[i] in ds[..n];
        }
      }
    }
  }

  /** Sells come before buys, and the symbols stay distinct. */
  lemma OrderedFits(cfg: Config, req: Request, ds: seq<Delta>)
    requires DistinctSymbols(ds)
    ensures var o := OrderedDeltas(ds);
            && DistinctSymbols(o)
            && (forall d :: d in o <==> d in ds)
            && (forall i, j :: 0 <= i < j < |o| && o[j].side == Sell ==> o[i].side == Sell)
  {
    OfSideFits(cfg, req, ds, Sell);
    OfSideFits(cfg, req, ds, Buy);
    var a, b := OfSide(ds, Sell), OfSide(ds, Buy);
    var o := a + b;
    forall i, j | 0 <= i < j < |o|
      ensures o[i].symbol != o[j].symbol
      ensures o[j].side == Sell ==> o[i].side == Sell
    {
      assert i < |a| ==> a[i] in a;
      assert j >= |a| ==> b[j - |a|] in b;
      if i < |a| && j >= |a| {
        var k :| 0 <= k < |ds| && ds[k] == a[i];
        var m :| 0 <= m < |ds| && ds[m] == b[j - |a|];
        assert k != m;
      }
    }
  }

  // ---------------------------------------------------------------- second pass

  /** The promise behind one planned intent, in terms of its symbol's gap to target. */
  ghost predicate IntentMeets(cfg: Config, req: Request, i: OrderIntent) {
    && i.Valid()
    && i.symbol in req.universe && i.symbol in req.quotes && i.referencePrice == req.quotes[i.symbol].price
    && !Conflicts(req, i.symbol)
    && i.decisionId == req.decisionId && i.createdAt == req.createdAt
    && i.clientId == req.nameFor(i.symbol, i.side, i.sequence)
    && i.EstimatedNotional() <= Cap(cfg, req)
    && (i.side == Buy ==>
          i.notional.Some? && cfg.minimum <= i.EstimatedNotional() <= Gap(cfg, req, i.symbol))
    && (i.side == Sell ==>
          && i.quantity.Some?
          && i.EstimatedNotional() <= -Gap(cfg, req, i.symbol)
          && NANO <= i.quantity.value
          && PositionOf(req.positions, i.symbol).Some?
          && i.quantity.value <= PositionOf(req.positions, i.symbol).value.quantity)
  }

  ghost predicate ComesFrom(ds: seq<Delta>, i: OrderIntent) {
    exists k :: 0 <= k < |ds| && ds[k].symbol == i.symbol && ds[k].side == i.side
  }

  lemma ComesFromMore(ds: seq<Delta>, d: Delta, i: OrderIntent)
    ensures ComesFrom(ds, i) ==> ComesFrom(ds + [d], i)
    ensures i.symbol == d.symbol && i.side == d.side ==> ComesFrom(ds + [d], i)
  {
    if ComesFrom(ds, i) {
      var k :| 0 <= k < |ds| && ds[k].symbol == i.symbol && ds[k].side == i.side;
      assert (ds + [d])[k] == ds[k];
    }
    assert (ds + [d])[|ds|] == d;
  }

  ghost predicate ProgressFits(cfg: Config, req: Request, ds: seq<Delta>, p: Progress) {
    && (forall i :: 0 <= i < |p.intents| ==> IntentMeets(cfg, req, p.intents[i]))
    && (forall i :: i in p.intents ==> i.Valid())
    && (forall i :: 0 <= i < |p.intents| ==> p.intents[i].sequence == i)
    && (forall i :: 0 <= i < |p.intents| ==> ComesFrom(ds, p.intents[i]))
    && (forall i, j :: 0 <= i < j < |p.intents| ==> p.intents[i].symbol != p.intents[j].symbol)
    && (forall i, j :: 0 <= i < j < |p.intents| && p.intents[j].side == Sell ==> p.intents[i].side == Sell)
    && |p.intents| <= cfg.maxOrders
    && p.budget >= 0.0
    && Spend(p.intents) + p.budget == Budget(cfg, req)
  }

  lemma {:induction false} SpendAppend(intents: seq<OrderIntent>, i: OrderIntent)
    requires i.Valid() && forall k :: k in intents ==> k.Valid()
    ensures Spend(intents + [i]) == Spend(intents) + SpendBy(i)
  {
    if intents != [] {
      assert (intents + [i])[1..] == intents[1..] + [i];
      SpendAppend(intents[1..], i);
    } else {
      assert [] + [i] == [i];
      assert Spend([i]) == SpendBy(i) + Spend([]);
    }
  }

  /** The sell a delta leads to never exceeds the holding, the gap or the cap. */
  lemma SellFits(cfg: Config, req: Request, d: Delta, held: real)
    requires DeltaFits(cfg, req, d) && d.side == Sell
    requires SellQuantity(held, d.notional, d.price) > 0.0
    ensures var q := SellQuantity(held, d.notional, d.price);
            && NANO <= q <= held
            && Worth(q, d.price) <= -Gap(cfg, req, d.symbol)
            && Worth(q, d.price) <= Cap(cfg, req)
  {
    var q := SellQuantity(held, d.notional, d.price);
    RoundDown9Bounds(Min(held, d.notional / d.price));
    WorthAtMost(q, d.notional, d.price);
  }

  ghost predicate NewIntent(cfg: Config, req: Request, p: Progress, d: Delta, i: OrderIntent) {
    IntentMeets(cfg, req, i) && i.sequence == |p.intents| && i.symbol == d.symbol && i.side == d.side
  }

  /** The intent, if any, that one step adds meets its promise. */
  lemma NewIntentMeets(cfg: Config, req: Request, p: Progress, d: Delta)
    requires DeltaFits(cfg, req, d) && PlanNext(cfg, req, p, d).Ok? && p.budget >= 0.0
    requires |PlanNext(cfg, req, p, d).value.intents| > |p.intents|
    ensures var p' := PlanNext(cfg, req, p, d).value;
            && |p'.intents| == |p.intents| + 1 && p'.intents[..|p.intents|] == p.intents
            && |p.intents| < cfg.maxOrders
            && p'.budget >= 0.0
            && NewIntent(cfg, req, p, d, p'.intents[|p.intents|])
            && p'.budget == p.budget - SpendBy(p'.intents[|p.intents|])
  {
    if d.side == Sell {
      SellFits(cfg, req, d, PositionOf(req.positions, d.symbol).value.quantity);
    }
  }

  lemma StepFits(cfg: Config, req: Request, ds: seq<Delta>, d: Delta, p: Progress)
    requires ProgressFits(cfg, req, ds, p) && DeltaFits(cfg, req, d)
    requires forall k :: 0 <= k < |ds| ==> ds[k].symbol != d.symbol
    requires d.side == Sell ==> forall k :: 0 <= k < |ds| ==> ds[k].side == Sell
    requires PlanNext(cfg, req, p, d).Ok?
    ensures ProgressFits(cfg, req, ds + [d], PlanNext(cfg, req, p, d).value)
  {
    var p' := PlanNext(cfg, req, p, d).value;
    forall n | 0 <= n < |p.intents|
      ensures ComesFrom(ds + [d], p.intents[n])
    {
      ComesFromMore(ds, d, p.intents[n]);
    }
    if |p'.intents| > |p.intents| {
      NewIntentMeets(cfg, req, p, d);
      GrownProgressFits(cfg, req, ds, d, p, p', p'.intents[|p.intents|]);
    } else {
      assert p'.intents == p.intents && p'.budget == p.budget;
    }
  }

  /** A new intent's symbol is new, and sells come before it if it is a sell. */
  lemma NewIntentStandsApart(ds: seq<Delta>, d: Delta, intents: seq<OrderIntent>)
    requires forall n :: 0 <= n < |intents| ==> ComesFrom(ds, intents[n])
    requires forall k :: 0 <= k < |ds| ==> ds[k].symbol != d.symbol
    requires d.side == Sell ==> forall k :: 0 <= k < |ds| ==> ds[k].side == Sell
    ensures forall n :: 0 <= n < |intents| ==> intents[n].symbol != d.symbol && (d.side == Sell ==> intents[n].side == Sell)
  {
    forall n | 0 <= n < |intents|
      ensures intents[n].symbol != d.symbol && (d.side == Sell ==> intents[n].side == Sell)
    {
      assert ComesFrom(ds, intents[n]);
    }
  }

  lemma GrownProgressFits(cfg: Config, req: Request, ds: seq<Delta>, d: Delta, p: Progress, p': Progress, i: OrderIntent)
    requires ProgressFits(cfg, req, ds, p) && NewIntent(cfg, req, p, d, i)
    requires p'.intents == p.intents + [i] && p'.budget == p.budget - SpendBy(i) && p'.budget >= 0.0
    requires |p.intents| < cfg.maxOrders
    requires forall k :: 0 <= k < |ds| ==> ds[k].symbol != d.symbol
    requires d.side == Sell ==> forall k :: 0 <= k < |ds| ==> ds[k].side == Sell
    requires forall n :: 0 <= n < |p.intents| ==> ComesFrom(ds + [d], p.intents[n])
    ensures ProgressFits(cfg, req, ds + [d], p')
  {
    assert i.Valid();
    SpendAppend(p.intents, i);
    ComesFromMore(ds, d, i);
    NewIntentStandsApart(ds, d, p.intents);
    forall n | 0 <= n < |p'.intents|
      ensures IntentMeets(cfg, req, p'.intents[n]) && ComesFrom(ds + [d], p'.intents[n])
    {
      assert p'.intents[n] == if n < |p.intents| then p.intents[n] else i;
    }
  }

  ghost predicate Orderly(cfg: Config, req: Request, ds: seq<Delta>) {
    && (forall d :: d in ds ==> DeltaFits(cfg, req, d))
    && DistinctSymbols(ds)
    && (forall i, j :: 0 <= i < j < |ds| && ds[j].side == Sell ==> ds[i].side == Sell)
  }

  lemma OrderlyPrefix(cfg: Config, req: Request, ds: seq<Delta>)
    requires Orderly(cfg, req, ds) && ds != []
    ensures var n := |ds| - 1;
            && Orderly(cfg, req, ds[..n]) && DeltaFits(cfg, req, ds[n]) && ds == ds[..n] + [ds[n]]
            && (forall k :: 0 <= k < n ==> ds[..n][k].symbol != ds[n].symbol)
            && (ds[n].side == Sell ==> forall k :: 0 <= k < n ==> ds[..n][k].side == Sell)
  {
    var n := |ds| - 1;
    assert forall d :: d in ds[..n] ==> d in ds;
    assert ds[n] in ds;
  }

  lemma {:induction false} PlanAllFits(cfg: Config, req: Request, ds: seq<Delta>, start: Progress)
    requires ProgressFits(cfg, req, [], start) && Orderly(cfg, req, ds)
    ensures PlanAll(cfg, req, ds, start).Ok? ==> ProgressFits(cfg, req, ds, PlanAll(cfg, req, ds, start).value)
  {
    if ds != [] && PlanAll(cfg, req, ds, start).Ok? {
      var n := |ds| - 1;
      OrderlyPrefix(cfg, req, ds);
      PlanAllFits(cfg, req, ds[..n], start);
      StepFits(cfg, req, ds[..n], ds[n], PlanAll(cfg, req, ds[..n], start).value);
    }
  }

  // ---------------------------------------------------------------- the deltas planning works through

  /** What the listed symbols want, in their order. */
  function Wants(cfg: Config, req: Request, symbols: seq<Symbol>): seq<Delta> {
    if symbols == [] then []
    else
      var n := |symbols| - 1;
      var found := Find(cfg, req, symbols[n]);
      Wants(cfg, req, symbols[..n]) + if found.Want? then [found.delta] else []
  }

  /** Everything the universe wants: sells, then buys, each by symbol. */
  function WantedDeltas(cfg: Config, req: Request): seq<Delta> {
    OrderedDeltas(Wants(cfg, req, SortedSeq(req.universe)))
  }

  lemma {:induction false} SurveyCollectsWants(cfg: Config, req: Request, symbols: seq<Symbol>, start: Survey)
    requires SurveyAll(cfg, req, symbols, start).Ok?
    ensures SurveyAll(cfg, req, symbols, start).value.deltas == start.deltas + Wants(cfg, req, symbols)
  {
    if symbols != [] {
      SurveyCollectsWants(cfg, req, symbols[..|symbols| - 1], start);
    }
  }

  /** What planning works through: the wanted deltas, sells first, one per symbol, each fitting its symbol. */
  lemma SurveyedDeltas(cfg: Config, req: Request)
    requires SurveyAll(cfg, req, SortedSeq(req.universe), Survey([], FirstSkips(cfg, req))).Ok?
    ensures OrderedDeltas(SurveyAll(cfg, req, SortedSeq(req.universe), Survey([], FirstSkips(cfg, req))).value.deltas) == WantedDeltas(cfg, req)
    ensures Orderly(cfg, req, WantedDeltas(cfg, req))
  {
    var symbols, start := SortedSeq(req.universe), Survey([], FirstSkips(cfg, req));
    SortedIsDistinct(symbols);
    SurveyFits(cfg, req, symbols, start);
    SurveyCollectsWants(cfg, req, symbols, start);
    var deltas := SurveyAll(cfg, req, symbols, start).value.deltas;
    assert [] + Wants(cfg, req, symbols) == Wants(cfg, req, symbols);
    OrderedFits(cfg, req, deltas);
    forall d | d in OrderedDeltas(deltas)
      ensures DeltaFits(cfg, req, d)
    {
      assert d in deltas;
    }
  }

  /**
   Every accepted plan: sells first and numbered from zero, at most the order cap, one intent per
   symbol, each intent within its gap, its cap and its holding, and all buys together within the cash
   left after the buffer and the open buys.
   */
  lemma PlanKeepsItsPromises(cfg: Config, req: Request)
    requires cfg.Valid() && req.Valid() && MakePlan(cfg, req).Ok?
    ensures var intents := MakePlan(cfg, req).value.intents;
            && (forall i :: i in intents ==> IntentMeets(cfg, req, i))
            && (forall i, j :: 0 <= i < j < |intents| ==> intents[i].symbol != intents[j].symbol)
            && (exists sells: nat :: SellsFirst(intents, sells))
            && |intents| <= cfg.maxOrders
            && Spend(intents) <= Budget(cfg, req)
  {
    var p := SecondPass(cfg, req);
    PromisesKept(cfg, req, WantedDeltas(cfg, req), p);
  }

  function FirstPass(cfg: Config, req: Request): Result<Survey, PlanError> {
    SurveyAll(cfg, req, SortedSeq(req.universe), Survey([], FirstSkips(cfg, req)))
  }

  lemma PlanInTwoPasses(cfg: Config, req: Request)
    requires MakePlan(cfg, req).Ok?
    ensures FirstPass(cfg, req).Ok?
    ensures var survey := FirstPass(cfg, req).value;
            var r := PlanAll(cfg, req, OrderedDeltas(survey.deltas), Progress([], Budget(cfg, req), survey.skips));
            r.Ok? && r.value.intents == MakePlan(cfg, req).value.intents
  {
  }

  lemma NothingPlannedFits(cfg: Config, req: Request, skips: seq<Skip>)
    requires cfg.Valid()
    ensures ProgressFits(cfg, req, [], Progress([], Budget(cfg, req), skips))
  {
  }

  /** The plan is what the second pass over the wanted deltas leaves. */
  lemma SecondPass(cfg: Config, req: Request) returns (p: Progress)
    requires cfg.Valid() && MakePlan(cfg, req).Ok?
    ensures p.intents == MakePlan(cfg, req).value.intents && ProgressFits(cfg, req, WantedDeltas(cfg, req), p)
  {
    PlanInTwoPasses(cfg, req);
    SurveyedDeltas(cfg, req);
    var first := Progress([], Budget(cfg, req), FirstPass(cfg, req).value.skips);
    NothingPlannedFits(cfg, req, first.skips);
    PlanAllFits(cfg, req, WantedDeltas(cfg, req), first);
    p := PlanAll(cfg, req, WantedDeltas(cfg, req), first).value;
  }

  lemma PromisesKept(cfg: Config, req: Request, ds: seq<Delta>, p: Progress)
    requires ProgressFits(cfg, req, ds, p)
    ensures (forall i :: i in p.intents ==> IntentMeets(cfg, req, i)) && Spend(p.intents) <= Budget(cfg, req)
    ensures exists sells: nat :: SellsFirst(p.intents, sells)
  {
    SplitPoint(p.intents, |p.intents|);
  }

  lemma {:induction false} SplitPoint(intents: seq<OrderIntent>, n: nat)
    requires n <= |intents|
    requires forall i :: 0 <= i < |intents| ==> intents[i].sequence == i
    requires forall i, j :: 0 <= i < j < |intents| && intents[j].side == Sell ==> intents[i].side == Sell
    requires forall i :: n <= i < |intents| ==> intents[i].side == Buy
    ensures exists sells: nat :: SellsFirst(intents, sells)
  {
    if n == 0 || intents[n - 1].side == Sell {
      assert SellsFirst(intents, n);
    } else {
      SplitPoint(intents, n - 1);
    }
  }

  // ---------------------------------------------------------------- when planning fails

  ghost predicate HasBadPrice(req: Request, symbols: seq<Symbol>) {
    exists i :: 0 <= i < |symbols| && symbols[i] in req.quotes && req.quotes[symbols[i]].price <= 0.0
  }

  lemma FaultExactlyWhen(cfg: Config, req: Request, so: Survey, s: Symbol)
    ensures SurveyNext(cfg, req, so, s) == Err(BadPrice) <==> s in req.quotes && req.quotes[s].price <= 0.0
    ensures SurveyNext(cfg, req, so, s).Err? ==> SurveyNext(cfg, req, so, s) == Err(BadPrice)
  {
  }

  lemma BadPriceLater(req: Request, symbols: seq<Symbol>)
    requires symbols != []
    ensures var n := |symbols| - 1;
            HasBadPrice(req, symbols) <==>
              HasBadPrice(req, symbols[..n]) || (symbols[n] in req.quotes && req.quotes[symbols[n]].price <= 0.0)
  {
    var n := |symbols| - 1;
    if HasBadPrice(req, symbols[..n]) {
      var i :| 0 <= i < n && symbols[..n][i] in req.quotes && req.quotes[symbols[..n][i]].price <= 0.0;
      assert symbols[i] == symbols[..n][i];
    }
    if HasBadPrice(req, symbols) {
      var i :| 0 <= i < |symbols| && symbols[i] in req.quotes && req.quotes[symbols[i]].price <= 0.0;
      assert i < n ==> symbols[..n][i] == symbols[i];
    }
  }

  lemma {:induction false} SurveyFailsOnBadPrice(cfg: Config, req: Request, symbols: seq<Symbol>, start: Survey)
    ensures SurveyAll(cfg, req, symbols, start).Err? <==> HasBadPrice(req, symbols)
    ensures SurveyAll(cfg, req, symbols, start).Err? ==> SurveyAll(cfg, req, symbols, start).error == BadPrice
  {
    if symbols != [] {
      var n := |symbols| - 1;
      SurveyFailsOnBadPrice(cfg, req, symbols[..n], start);
      BadPriceLater(req, symbols);
      var front := SurveyAll(cfg, req, symbols[..n], start);
      if front.Ok? {
        FaultExactlyWhen(cfg, req, front.value, symbols[n]);
      }
    }
  }

  /** Names the order constructor accepts. */
  ghost predicate GoodNames(req: Request) {
    req.decisionId != "" && forall s, side, n :: 0 < |req.nameFor(s, side, n)| <= 48
  }

  /** With a positive minimum, sizing a wanted delta never produces an intent its constructor rejects. */
  lemma StepNeverFails(cfg: Config, req: Request, p: Progress, d: Delta)
    requires cfg.minimum > 0.0 && GoodNames(req) && DeltaFits(cfg, req, d)
    ensures PlanNext(cfg, req, p, d).Ok?
  {
  }

  lemma {:induction false} StepsNeverFail(cfg: Config, req: Request, ds: seq<Delta>, start: Progress)
    requires cfg.minimum > 0.0 && GoodNames(req) && forall d :: d in ds ==> DeltaFits(cfg, req, d)
    ensures PlanAll(cfg, req, ds, start).Ok?
  {
    if ds != [] {
      var n := |ds| - 1;
      assert forall d :: d in ds[..n] ==> d in ds;
      StepsNeverFail(cfg, req, ds[..n], start);
      StepNeverFails(cfg, req, PlanAll(cfg, req, ds[..n], start).value, ds[n]);
    }
  }

  // ---------------------------------------------------------------- orders and amounts the deltas ask for

  /** A sell of at least a billionth share of something held. */
  predicate Sellable(req: Request, d: Delta) {
    && PositionOf(req.positions, d.symbol).Some? && PositionOf(req.positions, d.symbol).value.quantity > 0.0
    && d.price != 0.0 && SellQuantity(PositionOf(req.positions, d.symbol).value.quantity, d.notional, d.price) > 0.0
  }

  /** How many of the deltas ask for an order: every buy, and every sell of something sellable. */
  function Orders(req: Request, ds: seq<Delta>): nat {
    if ds == [] then 0
    else
      var last := ds[|ds| - 1];
      Orders(req, ds[..|ds| - 1]) + if last.side == Buy || Sellable(req, last) then 1 else 0
  }

  function BuyTotal(ds: seq<Delta>): real {
    if ds == [] then 0.0
    else
      var last := ds[|ds| - 1];
      BuyTotal(ds[..|ds| - 1]) + if last.side == Buy then last.notional else 0.0
  }

  /** The k-th delta is a buy within the order cap that has nothing to spend. */
  predicate Starves(cfg: Config, req: Request, ds: seq<Delta>, k: nat)
    requires k < |ds|
  {
    && ds[k].side == Buy && Orders(req, ds[..k]) < cfg.maxOrders
    && (ds[k].notional == 0.0 || BuyTotal(ds[..k]) >= Budget(cfg, req))
  }

  ghost predicate SomeBuyStarves(cfg: Config, req: Request, ds: seq<Delta>) {
    exists k: nat :: k < |ds| && Starves(cfg, req, ds, k)
  }

  // ---------------------------------------------------------------- sizing with a zero minimum

  /** The plan so far, told from the deltas behind it. */
  ghost predicate Tallies(cfg: Config, req: Request, p: Progress, ds: seq<Delta>) {
    && |p.intents| == (if Orders(req, ds) <= cfg.maxOrders then Orders(req, ds) else cfg.maxOrders)
    && p.budget >= 0.0
    && (Orders(req, ds) <= cfg.maxOrders ==> p.budget == Max(0.0, Budget(cfg, req) - BuyTotal(ds)))
  }

  lemma TallyAppend(req: Request, ds: seq<Delta>, d: Delta)
    ensures Orders(req, ds + [d]) == Orders(req, ds) + if d.side == Buy || Sellable(req, d) then 1 else 0
    ensures BuyTotal(ds + [d]) == BuyTotal(ds) + if d.side == Buy then d.notional else 0.0
  {
    assert (ds + [d])[..|ds|] == ds;
  }

  lemma BuyWithZeroMinimum(cfg: Config, req: Request, ds: seq<Delta>, p: Progress, d: Delta)
    requires cfg.Valid() && cfg.minimum == 0.0 && GoodNames(req) && DeltaFits(cfg, req, d) && d.notional >= 0.0
    requires Tallies(cfg, req, p, ds) && d.side == Buy
    ensures PlanNext(cfg, req, p, d).Err? <==>
              Orders(req, ds) < cfg.maxOrders && (d.notional == 0.0 || BuyTotal(ds) >= Budget(cfg, req))
    ensures PlanNext(cfg, req, p, d).Ok? ==> Tallies(cfg, req, PlanNext(cfg, req, p, d).value, ds + [d])
  {
    TallyAppend(req, ds, d);
  }

  lemma SellWithZeroMinimum(cfg: Config, req: Request, ds: seq<Delta>, p: Progress, d: Delta)
    requires cfg.Valid() && cfg.minimum == 0.0 && GoodNames(req) && DeltaFits(cfg, req, d)
    requires Tallies(cfg, req, p, ds) && d.side == Sell
    ensures PlanNext(cfg, req, p, d).Ok? && Tallies(cfg, req, PlanNext(cfg, req, p, d).value, ds + [d])
  {
    TallyAppend(req, ds, d);
  }

  lemma StarvesLater(cfg: Config, req: Request, ds: seq<Delta>)
    requires ds != []
    ensures var n := |ds| - 1;
            SomeBuyStarves(cfg, req, ds) <==> SomeBuyStarves(cfg, req, ds[..n]) || Starves(cfg, req, ds, n)
  {
    var n := |ds| - 1;
    var front := ds[..n];
    forall k: nat | k < n
      ensures Starves(cfg, req, front, k) <==> Starves(cfg, req, ds, k)
    {
      assert front[..k] == ds[..k];
    }
    if SomeBuyStarves(cfg, req, front) {
      var k: nat :| k < n && Starves(cfg, req, front, k);
      assert Starves(cfg, req, ds, k);
    }
    if SomeBuyStarves(cfg, req, ds) {
      var k: nat :| k < |ds| && Starves(cfg, req, ds, k);
      assert k < n ==> Starves(cfg, req, front, k);
    }
  }

  /** One delta with a zero minimum: it fails exactly when it starves, and otherwise the tally goes on. */
  lemma NextWithZeroMinimum(cfg: Config, req: Request, ds: seq<Delta>, p: Progress)
    requires cfg.Valid() && cfg.minimum == 0.0 && GoodNames(req) && ds != []
    requires var d := ds[|ds| - 1]; DeltaFits(cfg, req, d) && d.notional >= 0.0
    requires Tallies(cfg, req, p, ds[..|ds| - 1])
    ensures var n := |ds| - 1;
            && (PlanNext(cfg, req, p, ds[n]).Err? <==> Starves(cfg, req, ds, n))
            && (PlanNext(cfg, req, p, ds[n]).Ok? ==> Tallies(cfg, req, PlanNext(cfg, req, p, ds[n]).value, ds))
  {
    var n := |ds| - 1;
    assert ds == ds[..n] + [ds[n]];
    if ds[n].side == Buy {
      BuyWithZeroMinimum(cfg, req, ds[..n], p, ds[n]);
    } else {
      SellWithZeroMinimum(cfg, req, ds[..n], p, ds[n]);
    }
  }

  lemma PlanAllLast(cfg: Config, req: Request, ds: seq<Delta>, start: Progress)
    requires ds != []
    ensures var front := PlanAll(cfg, req, ds[..|ds| - 1], start);
            PlanAll(cfg, req, ds, start) == if front.Err? then front else PlanNext(cfg, req, front.value, ds[|ds| - 1])
  {
  }

  lemma {:induction false} ZeroMinimumFailsExactlyWhen(cfg: Config, req: Request, ds: seq<Delta>, start: Progress)
    requires cfg.Valid() && cfg.minimum == 0.0 && GoodNames(req) && Tallies(cfg, req, start, [])
    requires forall d :: d in ds ==> DeltaFits(cfg, req, d) && d.notional >= 0.0
    ensures PlanAll(cfg, req, ds, start).Err? <==> SomeBuyStarves(cfg, req, ds)
    ensures PlanAll(cfg, req, ds, start).Ok? ==> Tallies(cfg, req, PlanAll(cfg, req, ds, start).value, ds)
    decreases |ds|
  {
    if ds != [] {
      var n := |ds| - 1;
      assert forall d :: d in ds[..n] ==> d in ds;
      assert ds[n] in ds;
      ZeroMinimumFailsExactlyWhen(cfg, req, ds[..n], start);
      StarvesLater(cfg, req, ds);
      PlanAllLast(cfg, req, ds, start);
      var front := PlanAll(cfg, req, ds[..n], start);
      if front.Ok? {
        NextWithZeroMinimum(cfg, req, ds, front.value);
      }
    }
  }

  lemma NotionalNonnegative(cfg: Config, req: Request, d: Delta)
    requires cfg.Valid() && req.Valid() && DeltaFits(cfg, req, d)
    ensures d.notional >= 0.0
  {
    WorthNonnegative(req.equity, cfg.maxFraction);
  }

  /**
   Planning fails exactly on bad weights, positions or prices, and, when the minimum is zero, on a
   wanted buy within the order cap whose own amount is zero or whose predecessors use up the budget.
   */
  lemma PlanFailsExactlyWhen(cfg: Config, req: Request)
    requires cfg.Valid() && GoodNames(req) && (cfg.minimum == 0.0 ==> req.Valid())
    ensures MakePlan(cfg, req).Err? <==>
              || InputError(req).Some?
              || HasBadPrice(req, SortedSeq(req.universe))
              || (cfg.minimum == 0.0 && SomeBuyStarves(cfg, req, WantedDeltas(cfg, req)))
  {
    var symbols := SortedSeq(req.universe);
    var start := Survey([], FirstSkips(cfg, req));
    SurveyFailsOnBadPrice(cfg, req, symbols, start);
    var survey := SurveyAll(cfg, req, symbols, start);
    if survey.Ok? {
      SurveyedDeltas(cfg, req);
      SecondPassFails(cfg, req, WantedDeltas(cfg, req), survey.value.skips);
    }
  }

  lemma SecondPassFails(cfg: Config, req: Request, ds: seq<Delta>, skips: seq<Skip>)
    requires cfg.Valid() && GoodNames(req) && (cfg.minimum == 0.0 ==> req.Valid())
    requires forall d :: d in ds ==> DeltaFits(cfg, req, d)
    ensures PlanAll(cfg, req, ds, Progress([], Budget(cfg, req), skips)).Err? <==>
              cfg.minimum == 0.0 && SomeBuyStarves(cfg, req, ds)
  {
    if cfg.minimum == 0.0 {
      forall d | d in ds
        ensures d.notional >= 0.0
      {
        NotionalNonnegative(cfg, req, d);
      }
      ZeroMinimumFailsExactlyWhen(cfg, req, ds, Progress([], Budget(cfg, req), skips));
    } else {
      StepsNeverFail(cfg, req, ds, Progress([], Budget(cfg, req), skips));
    }
  }

  const ALL_IN_SPY := Request("d", (s, side, n) => "x", 0, map["SPY" := 1.0], 100.0, 0.0, [],
                              map["SPY" := Quote(1.0, None)], {"SPY"}, [])

  /** A whole request that fails that way: good inputs, a zero minimum and no cash. */
  lemma ZeroMinimumCanFail(cfg: Config)
    requires cfg.Valid() && cfg.minimum == 0.0 && cfg.buffer == 0.0
    ensures InputError(ALL_IN_SPY) == None && !HasBadPrice(ALL_IN_SPY, SortedSeq(ALL_IN_SPY.universe))
    ensures MakePlan(cfg, ALL_IN_SPY) == Err(InvalidIntent)
  {
    var req := ALL_IN_SPY;
    OneSymbol("SPY");
    AllInGap(cfg);
    var d := Delta(Buy, "SPY", Min(100.0, Cap(cfg, req)), 1.0);
    var start := Survey([], FirstSkips(cfg, req));
    OneDelta(cfg, req, "SPY", d, start);
    var first := Progress([], Budget(cfg, req), start.skips);
    assert PlanNext(cfg, req, first, d) == Err(InvalidIntent);
    OneStep(cfg, req, d, first);
  }

  lemma AllInGap(cfg: Config)
    requires cfg.Valid() && cfg.minimum == 0.0 && cfg.buffer == 0.0
    ensures Find(cfg, ALL_IN_SPY, "SPY") == Want(Delta(Buy, "SPY", Min(100.0, Cap(cfg, ALL_IN_SPY)), 1.0))
    ensures Budget(cfg, ALL_IN_SPY) == 0.0
  {
    var req := ALL_IN_SPY;
    OneSymbol("SPY");
    assert SumOf(["SPY"], req.weights) == 1.0 by { assert ["SPY"][..0] == []; }
    assert Gross(req.weights) == 1.0 by { assert req.weights.Keys == {"SPY"}; }
    assert Gap(cfg, req, "SPY") == 100.0;
  }

  lemma OneDelta(cfg: Config, req: Request, s: Symbol, d: Delta, start: Survey)
    requires Find(cfg, req, s) == Want(d) && start.deltas == []
    ensures SurveyAll(cfg, req, [s], start) == Ok(Survey([d], start.skips)) && OrderedDeltas([d]) == [d]
  {
    assert [s][..0] == [];
    assert SurveyAll(cfg, req, [], start) == Ok(start);
    assert [] + [d] == [d];
    assert [d][..0] == [];
    assert OfSide([], Buy) == [] && OfSide([], Sell) == [];
  }

  lemma OneStep(cfg: Config, req: Request, d: Delta, start: Progress)
    ensures PlanAll(cfg, req, [d], start) == PlanNext(cfg, req, start, d)
  {
    assert [d][..0] == [];
    assert PlanAll(cfg, req, [], start) == Ok(start);
  }

  lemma OneSymbol(s: Symbol)
    ensures SortedSeq({s}) == [s]
  {
    SortedIsUnique(SortedSeq({s}), [s]);
  }

  // ---------------------------------------------------------------- nothing is dropped silently

  function IntentCount(intents: seq<OrderIntent>, s: Symbol): nat {
    if intents == [] then 0
    else IntentCount(intents[..|intents| - 1], s) + if intents[|intents| - 1].symbol == s then 1 else 0
  }

  function SkipCount(skips: seq<Skip>, s: Symbol): nat {
    if skips == [] then 0
    else SkipCount(skips[..|skips| - 1], s) + if skips[|skips| - 1].symbol == Some(s) then 1 else 0
  }

  function DeltaCount(ds: seq<Delta>, s: Symbol): nat {
    if ds == [] then 0 else DeltaCount(ds[..|ds| - 1], s) + if ds[|ds| - 1].symbol == s then 1 else 0
  }

  function TimesIn(symbols: seq<Symbol>, s: Symbol): nat {
    if symbols == [] then 0 else TimesIn(symbols[..|symbols| - 1], s) + if symbols[|symbols| - 1] == s then 1 else 0
  }

  lemma SkipCountAppend(skips: seq<Skip>, k: Skip, s: Symbol)
    ensures SkipCount(skips + [k], s) == SkipCount(skips, s) + if k.symbol == Some(s) then 1 else 0
  {
    assert (skips + [k])[..|skips|] == skips;
  }

  lemma DeltaCountAppend(ds: seq<Delta>, d: Delta, s: Symbol)
    ensures DeltaCount(ds + [d], s) == DeltaCount(ds, s) + if d.symbol == s then 1 else 0
  {
    assert (ds + [d])[..|ds|] == ds;
  }

  lemma IntentCountAppend(intents: seq<OrderIntent>, i: OrderIntent, s: Symbol)
    ensures IntentCount(intents + [i], s) == IntentCount(intents, s) + if i.symbol == s then 1 else 0
  {
    assert (intents + [i])[..|intents|] == intents;
  }

  lemma {:induction false} SurveyCounts(cfg: Config, req: Request, symbols: seq<Symbol>, start: Survey, s: Symbol)
    requires SurveyAll(cfg, req, symbols, start).Ok?
    ensures var r := SurveyAll(cfg, req, symbols, start).value;
            DeltaCount(r.deltas, s) + SkipCount(r.skips, s) ==
            DeltaCount(start.deltas, s) + SkipCount(start.skips, s) + if Find(cfg, req, s).Even? then 0 else TimesIn(symbols, s)
  {
    if symbols != [] {
      var n := |symbols| - 1;
      SurveyCounts(cfg, req, symbols[..n], start, s);
      SurveyNextCounts(cfg, req, SurveyAll(cfg, req, symbols[..n], start).value, symbols[n], s);
    }
  }

  lemma SurveyNextCounts(cfg: Config, req: Request, so: Survey, symbol: Symbol, s: Symbol)
    requires SurveyNext(cfg, req, so, symbol).Ok?
    ensures var r := SurveyNext(cfg, req, so, symbol).value;
            DeltaCount(r.deltas, s) + SkipCount(r.skips, s) ==
            DeltaCount(so.deltas, s) + SkipCount(so.skips, s)
            + if symbol == s && !Find(cfg, req, symbol).Even? then 1 else 0
  {
    var f := Find(cfg, req, symbol);
    if f.Pass? {
      SkipCountAppend(so.skips, Skip(Some(symbol), f.reason), s);
    } else if f.Want? {
      DeltaCountAppend(so.deltas, f.delta, s);
    }
  }

  lemma {:induction false} OfSideCounts(ds: seq<Delta>, s: Symbol)
    ensures DeltaCount(OfSide(ds, Sell), s) + DeltaCount(OfSide(ds, Buy), s) == DeltaCount(ds, s)
  {
    if ds != [] {
      var n := |ds| - 1;
      OfSideCounts(ds[..n], s);
      DeltaCountAppend(OfSide(ds[..n], ds[n].side), ds[n], s);
      var other := if ds[n].side == Buy then Sell else Buy;
      assert OfSide(ds, other) == OfSide(ds[..n], other);
    }
  }

  lemma {:induction false} DeltaCountConcat(a: seq<Delta>, b: seq<Delta>, s: Symbol)
    ensures DeltaCount(a + b, s) == DeltaCount(a, s) + DeltaCount(b, s)
    decreases |b|
  {
    if b == [] {
      assert a + b == a;
    } else {
      var n := |b| - 1;
      assert (a + b)[..|a + b| - 1] == a + b[..n];
      DeltaCountConcat(a, b[..n], s);
    }
  }

  ghost function Accounted(p: Progress, s: Symbol): nat { IntentCount(p.intents, s) + SkipCount(p.skips, s) }

  /** Each delta becomes one intent or one skip. */
  lemma NextCounts(cfg: Config, req: Request, p: Progress, d: Delta, s: Symbol)
    requires PlanNext(cfg, req, p, d).Ok?
    ensures Accounted(PlanNext(cfg, req, p, d).value, s) == Accounted(p, s) + if d.symbol == s then 1 else 0
  {
    var p' := PlanNext(cfg, req, p, d).value;
    if |p'.intents| > |p.intents| {
      IntentCountAppend(p.intents, p'.intents[|p.intents|], s);
    } else {
      SkipCountAppend(p.skips, p'.skips[|p.skips|], s);
    }
  }

  lemma {:induction false} PlanCounts(cfg: Config, req: Request, ds: seq<Delta>, start: Progress, s: Symbol)
    requires PlanAll(cfg, req, ds, start).Ok?
    ensures Accounted(PlanAll(cfg, req, ds, start).value, s) == Accounted(start, s) + DeltaCount(ds, s)
  {
    if ds != [] {
      var n := |ds| - 1;
      PlanCounts(cfg, req, ds[..n], start, s);
      NextCounts(cfg, req, PlanAll(cfg, req, ds[..n], start).value, ds[n], s);
    }
  }

  lemma {:induction false} TimesInSorted(symbols: seq<Symbol>, s: Symbol)
    requires forall i, j :: 0 <= i < j < |symbols| ==> symbols[i] != symbols[j]
    ensures TimesIn(symbols, s) == if s in symbols then 1 else 0
  {
    if symbols != [] {
      var n := |symbols| - 1;
      TimesInSorted(symbols[..n], s);
      assert symbols == symbols[..n] + [symbols[n]];
      assert symbols[n] !in symbols[..n];
    }
  }

  /** Every symbol of the universe ends up in exactly one intent or one skip, unless it is already on target. */
  lemma EverySymbolIsAccountedFor(cfg: Config, req: Request, s: Symbol)
    requires MakePlan(cfg, req).Ok?
    ensures var p := MakePlan(cfg, req).value;
            IntentCount(p.intents, s) + SkipCount(p.skips, s) ==
            if s in req.universe && !Find(cfg, req, s).Even? then 1 else 0
  {
    var symbols := SortedSeq(req.universe);
    var start := Survey([], FirstSkips(cfg, req));
    SortedIsDistinct(symbols);
    TimesInSorted(symbols, s);
    SurveyCounts(cfg, req, symbols, start, s);
    var survey := SurveyAll(cfg, req, symbols, start).value;
    OfSideCounts(survey.deltas, s);
    DeltaCountConcat(OfSide(survey.deltas, Sell), OfSide(survey.deltas, Buy), s);
    PlanCounts(cfg, req, OrderedDeltas(survey.deltas), Progress([], Budget(cfg, req), survey.skips), s);
    SkipCountAppend([], Skip(None, CashBufferScaled), s);
    assert [] + [Skip(None, CashBufferScaled)] == [Skip(None, CashBufferScaled)];
  }
}
