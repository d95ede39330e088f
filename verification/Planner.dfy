/** Target weights to sell-first, cash-constrained order intents. */
module Planner {
  import opened Prelude
  import opened LiveModels
  import opened OrderStates
  import opened TextOrder

  datatype Config = Config(minimum: real, maxFraction: real, buffer: real, maxOrders: nat, staleAfter: int) {
    predicate Valid() {
      && minimum >= 0.0 && 0.0 <= buffer < 1.0 && 0.0 < maxFraction <= 1.0
      && maxOrders > 0 && staleAfter > 0
    }
  }

  /** A price and, when it is dated, its age in seconds at planning time. */
  datatype Quote = Quote(price: real, age: Option<int>)

  datatype Holding = Holding(symbol: Symbol, quantity: real, marketValue: real)

  /** `nameFor` gives the deterministic client id of an order of this decision. */
  datatype Request = Request(
    decisionId: string,
    nameFor: (Symbol, Side, nat) -> ClientId,
    createdAt: Instant,
    weights: map<Symbol, real>,
    equity: real,
    cash: real,
    positions: seq<Holding>,
    quotes: map<Symbol, Quote>,
    universe: set<Symbol>,
    openOrders: seq<BrokerOrder>
  ) {
    /** What the constructors of the source's request objects guarantee. */
    predicate Valid() {
      && equity >= 0.0 && cash >= 0.0
      && forall o :: o in openOrders ==> o.requestedNotional.Some? ==> o.requestedNotional.value >= 0.0
    }
  }

  datatype SkipReason =
    | CashBufferScaled
    | MissingPrice
    | StalePrice
    | BelowMinimum
    | ConflictingOpenOrder
    | MaximumOrderCount
    | InsufficientCash
    | NoLongPosition
    | SellRoundsToZero

  datatype Skip = Skip(symbol: Option<Symbol>, reason: SkipReason)

  datatype PlanError =
    | InvalidWeight
    | OutsideUniverse
    | NegativePosition
    | UnexpectedPosition
    | BadPrice
    | InvalidIntent

  datatype Plan = Plan(intents: seq<OrderIntent>, skips: seq<Skip>)

  // ---------------------------------------------------------------- targets

  function SumOf(keys: seq<Symbol>, m: map<Symbol, real>): real
    requires forall k :: k in keys ==> k in m
  {
    if keys == [] then 0.0 else SumOf(keys[..|keys| - 1], m) + m[keys[|keys| - 1]]
  }

  function Gross(weights: map<Symbol, real>): real { SumOf(SortedSeq(weights.Keys), weights) }

  predicate NeedsScaling(cfg: Config, weights: map<Symbol, real>) {
    Gross(weights) > 1.0 - cfg.buffer && Gross(weights) > 0.0
  }

  /** The factor that takes the gross weight down to what the cash buffer leaves. */
  function Scale(cfg: Config, weights: map<Symbol, real>): real
    requires NeedsScaling(cfg, weights)
  {
    (1.0 - cfg.buffer) / Gross(weights)
  }

  function FinalWeights(cfg: Config, weights: map<Symbol, real>): map<Symbol, real> {
    if NeedsScaling(cfg, weights)
    then map s | s in weights :: Times(weights[s], Scale(cfg, weights))
    else weights
  }

  function Target(cfg: Config, req: Request, symbol: Symbol): real {
    var weights := FinalWeights(cfg, req.weights);
    if symbol in weights then Worth(weights[symbol], req.equity) else 0.0
  }

  /** The last position reported for a symbol. */
  function PositionOf(positions: seq<Holding>, symbol: Symbol): Option<Holding> {
    if positions == [] then None
    else
      var last := positions[|positions| - 1];
      if last.symbol == symbol then Some(last) else PositionOf(positions[..|positions| - 1], symbol)
  }

  function CurrentValue(req: Request, symbol: Symbol): real {
    var p := PositionOf(req.positions, symbol);
    if p.Some? then p.value.marketValue else 0.0
  }

  /** What the symbol still lacks, or has too much of. */
  function Gap(cfg: Config, req: Request, symbol: Symbol): real {
    Target(cfg, req, symbol) - CurrentValue(req, symbol)
  }

  function Cap(cfg: Config, req: Request): real { Worth(req.equity, cfg.maxFraction) }

  predicate IsOpen(o: BrokerOrder) { !Terminal(StateForBrokerStatus(o.status)) }

  predicate Conflicts(req: Request, symbol: Symbol) {
    exists o :: o in req.openOrders && o.symbol == symbol && IsOpen(o)
  }

  function ReservedBuys(orders: seq<BrokerOrder>): real {
    if orders == [] then 0.0
    else
      var last := orders[|orders| - 1];
      ReservedBuys(orders[..|orders| - 1]) +
      if last.side == Buy && IsOpen(last) then last.requestedNotional.GetOr(0.0) else 0.0
  }

  function Budget(cfg: Config, req: Request): real {
    Max(0.0, req.cash - Worth(req.equity, cfg.buffer) - ReservedBuys(req.openOrders))
  }

  // ---------------------------------------------------------------- first pass: what each symbol wants

  datatype Delta = Delta(side: Side, symbol: Symbol, notional: real, price: real)

  datatype Finding = Fault | Pass(reason: SkipReason) | Even | Want(delta: Delta)

  function Find(cfg: Config, req: Request, symbol: Symbol): Finding {
    if symbol !in req.quotes then Pass(MissingPrice)
    else
      var quote := req.quotes[symbol];
      if quote.price <= 0.0 then Fault
      else if quote.age.Some? && quote.age.value > cfg.staleAfter then Pass(StalePrice)
      else
        var gap := Gap(cfg, req, symbol);
        if Abs(gap) < cfg.minimum then (if gap != 0.0 then Pass(BelowMinimum) else Even)
        else if Conflicts(req, symbol) then Pass(ConflictingOpenOrder)
        else Want(Delta(if gap > 0.0 then Buy else Sell, symbol, Min(Abs(gap), Cap(cfg, req)), quote.price))
  }

  datatype Survey = Survey(deltas: seq<Delta>, skips: seq<Skip>)

  function SurveyNext(cfg: Config, req: Request, so: Survey, symbol: Symbol): Result<Survey, PlanError> {
    match Find(cfg, req, symbol)
    case Fault => Err(BadPrice)
    case Pass(reason) => Ok(so.(skips := so.skips + [Skip(Some(symbol), reason)]))
    case Even => Ok(so)
    case Want(delta) => Ok(so.(deltas := so.deltas + [delta]))
  }

  function SurveyAll(cfg: Config, req: Request, symbols: seq<Symbol>, start: Survey): Result<Survey, PlanError> {
    if symbols == [] then Ok(start)
    else
      var front := SurveyAll(cfg, req, symbols[..|symbols| - 1], start);
      if front.Err? then front else SurveyNext(cfg, req, front.value, symbols[|symbols| - 1])
  }

  function OfSide(deltas: seq<Delta>, side: Side): seq<Delta> {
    if deltas == [] then []
    else
      var last := deltas[|deltas| - 1];
      OfSide(deltas[..|deltas| - 1], side) + if last.side == side then [last] else []
  }

  // ---------------------------------------------------------------- second pass: intents within the budget

  const NANO := 0.000000001

  /** Rounded down to nine decimal places. */
  function RoundDown9(x: real): real { (x * 1000000000.0).Floor as real / 1000000000.0 }

  function SellQuantity(held: real, notional: real, price: real): real
    requires price != 0.0
  {
    RoundDown9(Min(held, notional / price))
  }

  datatype Progress = Progress(intents: seq<OrderIntent>, budget: real, skips: seq<Skip>)

  function IntentFor(req: Request, d: Delta, sequence: nat, notional: Option<real>, quantity: Option<real>): OrderIntent {
    OrderIntent(req.decisionId, req.nameFor(d.symbol, d.side, sequence),
                d.symbol, d.side, sequence, d.price, req.createdAt, notional, quantity)
  }

  function Skipped(p: Progress, d: Delta, reason: SkipReason): Result<Progress, PlanError> {
    Ok(p.(skips := p.skips + [Skip(Some(d.symbol), reason)]))
  }

  function Appended(p: Progress, intent: OrderIntent, budget: real): Result<Progress, PlanError> {
    if intent.Valid() then Ok(p.(intents := p.intents + [intent], budget := budget)) else Err(InvalidIntent)
  }

  function PlanNext(cfg: Config, req: Request, p: Progress, d: Delta): Result<Progress, PlanError> {
    if |p.intents| >= cfg.maxOrders then Skipped(p, d, MaximumOrderCount)
    else if d.side == Buy then
      var permitted := Min(d.notional, p.budget);
      if permitted < cfg.minimum then Skipped(p, d, InsufficientCash)
      else Appended(p, IntentFor(req, d, |p.intents|, Some(permitted), None), p.budget - permitted)
    else
      var position := PositionOf(req.positions, d.symbol);
      if position.None? || position.value.quantity <= 0.0 then Skipped(p, d, NoLongPosition)
      else if d.price == 0.0 then Err(InvalidIntent)
      else
        var quantity := SellQuantity(position.value.quantity, d.notional, d.price);
        if quantity <= 0.0 then Skipped(p, d, SellRoundsToZero)
        else Appended(p, IntentFor(req, d, |p.intents|, None, Some(quantity)), p.budget)
  }

  function PlanAll(cfg: Config, req: Request, deltas: seq<Delta>, start: Progress): Result<Progress, PlanError> {
    if deltas == [] then Ok(start)
    else
      var front := PlanAll(cfg, req, deltas[..|deltas| - 1], start);
      if front.Err? then front else PlanNext(cfg, req, front.value, deltas[|deltas| - 1])
  }

  // ---------------------------------------------------------------- the whole plan

  function PositionError(req: Request, positions: seq<Holding>): Option<PlanError> {
    if positions == [] then None
    else
      var front := PositionError(req, positions[..|positions| - 1]);
      var last := positions[|positions| - 1];
      if front.Some? then front
      else if last.quantity < 0.0 then Some(NegativePosition)
      else if last.symbol !in req.universe then Some(UnexpectedPosition)
      else None
  }

  function InputError(req: Request): Option<PlanError> {
    if exists s :: s in req.weights && req.weights[s] < 0.0 then Some(InvalidWeight)
    else if !(req.weights.Keys <= req.universe) then Some(OutsideUniverse)
    else PositionError(req, req.positions)
  }

  function FirstSkips(cfg: Config, req: Request): seq<Skip> {
    if NeedsScaling(cfg, req.weights) then [Skip(None, CashBufferScaled)] else []
  }

  function OrderedDeltas(deltas: seq<Delta>): seq<Delta> { OfSide(deltas, Sell) + OfSide(deltas, Buy) }

  function MakePlan(cfg: Config, req: Request): Result<Plan, PlanError> {
    if InputError(req).Some? then Err(InputError(req).value)
    else
      var survey := SurveyAll(cfg, req, SortedSeq(req.universe), Survey([], FirstSkips(cfg, req)));
      if survey.Err? then Err(survey.error)
      else
        var built := PlanAll(cfg, req, OrderedDeltas(survey.value.deltas), Progress([], Budget(cfg, req), survey.value.skips));
        if built.Err? then Err(built.error) else Ok(Plan(built.value.intents, built.value.skips))
  }

  // ---------------------------------------------------------------- the planner as the source writes it

  method PlanOrders(cfg: Config, req: Request) returns (plan: Result<Plan, PlanError>)
    ensures plan == MakePlan(cfg, req)
  {
    if InputError(req).Some? {
      return Err(InputError(req).value);
    }
    var survey := SurveySymbols(cfg, req, SortedSeq(req.universe), FirstSkips(cfg, req));
    if survey.Err? {
      return Err(survey.error);
    }
    var built := BuildIntents(cfg, req, OrderedDeltas(survey.value.deltas), survey.value.skips);
    plan := if built.Err? then Err(built.error) else Ok(Plan(built.value.intents, built.value.skips));
  }

  method SurveySymbols(cfg: Config, req: Request, symbols: seq<Symbol>, first: seq<Skip>)
    returns (survey: Result<Survey, PlanError>)
    ensures survey == SurveyAll(cfg, req, symbols, Survey([], first))
  {
    var skips := first;
    var deltas: seq<Delta> := [];
    var k := 0;
    while k < |symbols|
      invariant 0 <= k <= |symbols|
      invariant SurveyAll(cfg, req, symbols[..k], Survey([], first)) == Ok(Survey(deltas, skips))
    {
      assert symbols[..k + 1][..k] == symbols[..k];
      var symbol := symbols[k];
      match Find(cfg, req, symbol) {
        case Fault =>
          SurveyStaysBad(cfg, req, symbols, k + 1, Survey([], first));
          return Err(BadPrice);
        case Pass(reason) => skips := skips + [Skip(Some(symbol), reason)];
        case Even =>
        case Want(delta) => deltas := deltas + [delta];
      }
      k := k + 1;
    }
    assert symbols[..k] == symbols;
    survey := Ok(Survey(deltas, skips));
  }

  method BuildIntents(cfg: Config, req: Request, ordered: seq<Delta>, first: seq<Skip>)
    returns (built: Result<Progress, PlanError>)
    ensures built == PlanAll(cfg, req, ordered, Progress([], Budget(cfg, req), first))
  {
    var intents: seq<OrderIntent> := [];
    var budget := Budget(cfg, req);
    var skips := first;
    ghost var start := Progress([], budget, skips);
    var k := 0;
    while k < |ordered|
      invariant 0 <= k <= |ordered|
      invariant PlanAll(cfg, req, ordered[..k], start) == Ok(Progress(intents, budget, skips))
    {
      assert ordered[..k + 1][..k] == ordered[..k];
      var intent, reason := SizeDelta(cfg, req, ordered[k], |intents|, budget);
      if reason.Some? {
        skips := skips + [Skip(Some(ordered[k].symbol), reason.value)];
      } else if !intent.Valid() {
        PlanStaysBad(cfg, req, ordered, k + 1, start);
        return Err(InvalidIntent);
      } else {
        intents := intents + [intent];
        if intent.side == Buy {
          budget := budget - intent.notional.value;
        }
      }
      k := k + 1;
    }
    assert ordered[..k] == ordered;
    built := Ok(Progress(intents, budget, skips));
  }

  /** The intent for one delta, or why there is none. */
  method SizeDelta(cfg: Config, req: Request, d: Delta, count: nat, budget: real)
    returns (intent: OrderIntent, reason: Option<SkipReason>)
    ensures forall p: Progress :: |p.intents| == count && p.budget == budget ==>
              PlanNext(cfg, req, p, d) ==
              if reason.Some? then Skipped(p, d, reason.value)
              else Appended(p, intent, if intent.side == Buy && intent.notional.Some? then budget - intent.notional.value else budget)
    ensures reason.None? && intent.side == Buy ==> intent.notional.Some?
  {
    reason := None;
    intent := IntentFor(req, d, count, None, None);
    if count >= cfg.maxOrders {
      reason := Some(MaximumOrderCount);
    } else if d.side == Buy {
      var permitted := Min(d.notional, budget);
      if permitted < cfg.minimum {
        reason := Some(InsufficientCash);
      }
      intent := IntentFor(req, d, count, Some(permitted), None);
    } else {
      var position := PositionOf(req.positions, d.symbol);
      if position.None? || position.value.quantity <= 0.0 {
        reason := Some(NoLongPosition);
      } else if d.price != 0.0 {
        var quantity := SellQuantity(position.value.quantity, d.notional, d.price);
        if quantity <= 0.0 {
          reason := Some(SellRoundsToZero);
        }
        intent := IntentFor(req, d, count, None, Some(quantity));
      }
    }
  }

  lemma {:induction false} SurveyStaysBad(cfg: Config, req: Request, symbols: seq<Symbol>, k: nat, start: Survey)
    requires k <= |symbols| && SurveyAll(cfg, req, symbols[..k], start).Err?
    ensures SurveyAll(cfg, req, symbols, start) == SurveyAll(cfg, req, symbols[..k], start)
    decreases |symbols| - k
  {
    if k == |symbols| {
      assert symbols[..k] == symbols;
    } else {
      assert symbols[..k + 1][..k] == symbols[..k];
      SurveyStaysBad(cfg, req, symbols, k + 1, start);
    }
  }

  lemma {:induction false} PlanStaysBad(cfg: Config, req: Request, deltas: seq<Delta>, k: nat, start: Progress)
    requires k <= |deltas| && PlanAll(cfg, req, deltas[..k], start).Err?
    ensures PlanAll(cfg, req, deltas, start) == PlanAll(cfg, req, deltas[..k], start)
    decreases |deltas| - k
  {
    if k == |deltas| {
      assert deltas[..k] == deltas;
    } else {
      assert deltas[..k + 1][..k] == deltas[..k];
      PlanStaysBad(cfg, req, deltas, k + 1, start);
    }
  }
}
