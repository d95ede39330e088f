/** The in-memory paper broker: an order book over a cash and position ledger. */
module FakeBroker {
  import opened Prelude
  import opened LiveModels
  import opened PaperLedger

  datatype Broker = Broker(
    ledger: Ledger,
    orders: map<ClientId, BrokerOrder>,
    submitCalls: nat,
    autoFill: bool,
    rejectIds: set<ClientId>,
    timeoutIds: set<ClientId>,
    now: Instant
  )

  /** The broker names an order after its client id, injectively. */
  function BrokerIdFor(id: ClientId): string { "uuid5:" + id }

  datatype SubmitOutcome =
    | Returned(order: BrokerOrder, emitted: Option<TradeUpdate>)
    | TimedOut
    | ShortRefused
    | FillRefused(refusal: Refusal)

  function StatusFor(b: Broker, id: ClientId): string {
    if id in b.rejectIds then "rejected" else if b.autoFill then "filled" else "accepted"
  }

  function MakeOrder(b: Broker, intent: OrderIntent, status: string): BrokerOrder
    requires intent.Valid()
  {
    var filled := status == "filled";
    BrokerOrder(intent.clientId, BrokerIdFor(intent.clientId), intent.symbol, intent.side, status, b.now,
                intent.notional,
                if filled then intent.Shares() else 0.0,
                if filled then Some(intent.referencePrice) else None)
  }

  function SubmissionUpdate(order: BrokerOrder): TradeUpdate {
    TradeUpdate(order.status, order, order.updatedAt,
                Some("fake:" + order.clientId + ":" + order.status), None,
                if order.status == "filled" then order.averageFillPrice else None)
  }

  function IntentFill(intent: OrderIntent): Fill
    requires intent.Valid()
  {
    Fill(intent.side, intent.symbol, intent.Shares(), intent.referencePrice)
  }

  /** The order book takes the order before a fill can still be refused. */
  function SubmitOrder(b: Broker, intent: OrderIntent): (Broker, SubmitOutcome)
    requires intent.Valid()
  {
    var id := intent.clientId;
    if id in b.orders then (b, Returned(b.orders[id], None))
    else
      var b1 := b.(submitCalls := b.submitCalls + 1);
      if intent.side == Sell && intent.Shares() > Held(b.ledger, intent.symbol) then (b1, ShortRefused)
      else
        var order := MakeOrder(b, intent, StatusFor(b, id));
        var b2 := b1.(orders := b.orders[id := order]);
        if order.status == "filled" then
          match ApplyFill(b.ledger, IntentFill(intent))
          case Err(refusal) => (b2, FillRefused(refusal))
          case Ok(ledger) => Reply(b2.(ledger := ledger), order)
        else Reply(b2, order)
  }

  function Reply(b: Broker, order: BrokerOrder): (Broker, SubmitOutcome) {
    if order.clientId in b.timeoutIds then (b, TimedOut)
    else (b, Returned(order, Some(SubmissionUpdate(order))))
  }

  datatype EmitOutcome =
    | Emitted(update: TradeUpdate)
    | NoSuchOrder
    | NegativeAmount
    | EmitRefused(refusal: Refusal)

  function Reported(b: Broker, prior: BrokerOrder, event: string, quantity: Option<real>, price: Option<real>): BrokerOrder {
    prior.(status := event,
           updatedAt := b.now,
           filledQuantity := prior.filledQuantity + quantity.GetOr(0.0),
           averageFillPrice := if price.Some? && price.value != 0.0 then price else prior.averageFillPrice)
  }

  /** An event moves the ledger only if it names a fill with a nonzero quantity and price. */
  predicate MovesLedger(event: string, quantity: Option<real>, price: Option<real>) {
    && event in {"partial_fill", "partially_filled", "fill", "filled"}
    && quantity.Some? && quantity.value != 0.0 && price.Some? && price.value != 0.0
  }

  function EmitTradeUpdate(b: Broker, id: ClientId, event: string, quantity: Option<real>, price: Option<real>,
                           eventId: string, executionId: Option<string>): (Broker, EmitOutcome)
  {
    if id !in b.orders then (b, NoSuchOrder)
    else if quantity.GetOr(0.0) < 0.0 || price.GetOr(0.0) < 0.0 then (b, NegativeAmount)
    else
      var order := Reported(b, b.orders[id], event, quantity, price);
      var b1 := b.(orders := b.orders[id := order]);
      var update := TradeUpdate(event, order, b.now, Some(eventId), executionId, price);
      if MovesLedger(event, quantity, price) then
        match ApplyFill(b.ledger, Fill(order.side, order.symbol, quantity.value, price.value))
        case Err(refusal) => (b1, EmitRefused(refusal))
        case Ok(ledger) => (b1.(ledger := ledger), Emitted(update))
      else (b1, Emitted(update))
  }

  /** Cancels one order of the book; the ledger is never involved. */
  function CancelOrder(b: Broker, id: ClientId): Broker {
    if id in b.orders then b.(orders := b.orders[id := b.orders[id].(status := "canceled", updatedAt := b.now)])
    else b
  }

  // ---------------------------------------------------------------- runs

  datatype Op =
    | Submit(intent: OrderIntent)
    | Emit(id: ClientId, event: string, quantity: Option<real>, price: Option<real>,
           eventId: string, executionId: Option<string>)
    | Cancel(id: ClientId)

  function AfterOp(b: Broker, op: Op): Broker {
    match op
    case Submit(intent) => if intent.Valid() then SubmitOrder(b, intent).0 else b
    case Emit(id, event, quantity, price, eventId, executionId) =>
      EmitTradeUpdate(b, id, event, quantity, price, eventId, executionId).0
    case Cancel(id) => CancelOrder(b, id)
  }

  /** The fill an operation asks the ledger for. */
  function RequestedFill(b: Broker, op: Op): Option<Fill> {
    match op
    case Submit(intent) =>
      if intent.Valid() && intent.clientId !in b.orders && StatusFor(b, intent.clientId) == "filled"
      then Some(IntentFill(intent)) else None
    case Emit(id, event, quantity, price, _, _) =>
      if id in b.orders && quantity.GetOr(0.0) >= 0.0 && price.GetOr(0.0) >= 0.0 && MovesLedger(event, quantity, price)
      then Some(Fill(b.orders[id].side, b.orders[id].symbol, quantity.value, price.value)) else None
    case Cancel(_) => None
  }

  /** The fill an operation gets: nothing if none was asked for or it was refused. */
  function AppliedFill(b: Broker, op: Op): seq<Fill> {
    var f := RequestedFill(b, op);
    if f.Some? && ApplyFill(b.ledger, f.value).Ok? then [f.value] else []
  }

  function RunOps(b: Broker, ops: seq<Op>): Broker {
    if ops == [] then b else AfterOp(RunOps(b, ops[..|ops| - 1]), ops[|ops| - 1])
  }

  function FillsOf(b: Broker, ops: seq<Op>): seq<Fill> {
    if ops == [] then []
    else
      var front := ops[..|ops| - 1];
      FillsOf(b, front) + AppliedFill(RunOps(b, front), ops[|ops| - 1])
  }

  /** Every operation either applies exactly its fill to the ledger or leaves the ledger alone. */
  lemma OpEffect(b: Broker, op: Op)
    requires Nonnegative(b.ledger)
    ensures AfterOp(b, op).ledger ==
              if AppliedFill(b, op) == [] then b.ledger else ApplyFill(b.ledger, AppliedFill(b, op)[0]).value
    ensures |AppliedFill(b, op)| <= 1
    ensures forall f :: f in AppliedFill(b, op) ==> f.quantity > 0.0 && f.price > 0.0 && ApplyFill(b.ledger, f).Ok?
  {
    if op.Submit? && op.intent.Valid() {
      var intent := op.intent;
      assert intent.Shares() > 0.0;
    }
  }

  /**
   Conservation over any sequence of submissions, reports and cancellations: cash and holdings stay
   nonnegative and equal the start plus the signed effects of exactly the fills that were applied.
   */
  lemma {:induction false} LedgerIsConserved(b: Broker, ops: seq<Op>)
    requires Nonnegative(b.ledger)
    ensures var b' := RunOps(b, ops);
            && Nonnegative(b'.ledger)
            && b'.ledger.cash == b.ledger.cash + SumCash(FillsOf(b, ops))
            && (forall s :: Held(b'.ledger, s) == Held(b.ledger, s) + SumShares(FillsOf(b, ops), s))
  {
    if ops != [] {
      var front, op := ops[..|ops| - 1], ops[|ops| - 1];
      LedgerIsConserved(b, front);
      var c := RunOps(b, front);
      OpEffect(c, op);
      if AppliedFill(c, op) != [] {
        var f := AppliedFill(c, op)[0];
        FillEffect(c.ledger, f);
        SumsAppend(FillsOf(b, front), f);
        assert AppliedFill(c, op) == [f];
      } else {
        assert FillsOf(b, ops) == FillsOf(b, front);
      }
    }
  }

  /** Equity moves only by revaluation: the holding that traded, at the new price instead of its mark. */
  lemma EquityMovesByRevaluation(b: Broker, op: Op)
    requires Nonnegative(b.ledger)
    ensures Equity(AfterOp(b, op).ledger) - Equity(b.ledger) ==
              if AppliedFill(b, op) == [] then 0.0
              else var f := AppliedFill(b, op)[0]; Worth(Held(b.ledger, f.symbol), f.price) - Marked(b.ledger, f.symbol)
  {
    OpEffect(b, op);
    if AppliedFill(b, op) != [] {
      FillEffect(b.ledger, AppliedFill(b, op)[0]);
    }
  }

  // ---------------------------------------------------------------- the broker object

  class FakePaperBroker {
    var cash: real
    var positions: map<Symbol, Position>
    var orders: map<ClientId, BrokerOrder>
    /** The client ids of the order book in the order they came in. */
    var book: seq<ClientId>
    var submitCalls: nat
    var rejectIds: set<ClientId>
    var timeoutIds: set<ClientId>
    var now: Instant
    const autoFill: bool

    function State(): Broker
      reads this
    {
      Broker(Ledger(cash, positions), orders, submitCalls, autoFill, rejectIds, timeoutIds, now)
    }

    /** Every order is listed, once. */
    ghost predicate Listed()
      reads this
    {
      && (forall c :: c in orders <==> c in book)
      && forall i, j :: 0 <= i < j < |book| ==> book[i] != book[j]
    }

    constructor (initialCash: real, autoFill: bool, now: Instant)
      requires initialCash >= 0.0
      ensures State() == Broker(Ledger(initialCash, map[]), map[], 0, autoFill, {}, {}, now)
      ensures book == [] && Listed()
    {
      this.cash, this.autoFill, this.now := initialCash, autoFill, now;
      positions, orders, book, submitCalls, rejectIds, timeoutIds := map[], map[], [], 0, {}, {};
    }

    /** Equity by summing the marks of every held position. */
    method GetAccount() returns (equity: real, available: real)
      ensures equity == Equity(State().ledger) && available == cash
    {
      var rest := positions;
      var value := 0.0;
      while rest != map[]
        invariant value + TotalValue(rest) == TotalValue(positions)
        decreases |rest|
      {
        var symbol :| symbol in rest;
        TotalWithout(rest, symbol);
        value := value + rest[symbol].marketValue;
        rest := rest - {symbol};
      }
      equity, available := cash + value, cash;
    }

    method ApplyFillToLedger(fill: Fill) returns (refusal: Option<Refusal>)
      modifies this`cash, this`positions
      ensures match ApplyFill(Ledger(old(cash), old(positions)), fill)
              case Err(e) => refusal == Some(e) && cash == old(cash) && positions == old(positions)
              case Ok(l) => refusal == None && cash == l.cash && positions == l.positions
    {
      var notional := Worth(fill.quantity, fill.price);
      var held := if fill.symbol in positions then positions[fill.symbol].quantity else 0.0;
      var quantity := if fill.side == Buy then held + fill.quantity else held - fill.quantity;
      if quantity < 0.0 {
        return Some(WouldShort);
      }
      if fill.side == Buy {
        if notional > cash {
          return Some(WouldUseMargin);
        }
        cash := cash - notional;
      } else {
        cash := cash + notional;
      }
      if quantity == 0.0 {
        positions := positions - {fill.symbol};
      } else {
        positions := positions[fill.symbol := Position(quantity, Worth(quantity, fill.price))];
      }
      refusal := None;
    }

    method Submit(intent: OrderIntent) returns (outcome: SubmitOutcome)
      requires intent.Valid()
      modifies this`cash, this`positions, this`orders, this`book, this`submitCalls
      ensures (State(), outcome) == SubmitOrder(old(State()), intent)
      ensures book == if orders.Keys == old(orders).Keys then old(book) else old(book) + [intent.clientId]
      ensures old(Listed()) ==> Listed()
    {
      var id := intent.clientId;
      if id in orders {
        return Returned(orders[id], None);
      }
      submitCalls := submitCalls + 1;
      if intent.side == Sell && intent.Shares() > Held(State().ledger, intent.symbol) {
        return ShortRefused;
      }
      var order := MakeOrder(State(), intent, StatusFor(State(), id));
      orders := orders[id := order];
      book := book + [id];
      assert id in orders.Keys && id !in old(orders).Keys;
      if order.status == "filled" {
        var refusal := ApplyFillToLedger(IntentFill(intent));
        if refusal.Some? {
          return FillRefused(refusal.value);
        }
      }
      if id in timeoutIds {
        return TimedOut;
      }
      outcome := Returned(order, Some(SubmissionUpdate(order)));
    }

    method EmitUpdate(id: ClientId, event: string, quantity: Option<real>, price: Option<real>,
                      eventId: string, executionId: Option<string>) returns (outcome: EmitOutcome)
      modifies this`cash, this`positions, this`orders
      ensures (State(), outcome) == EmitTradeUpdate(old(State()), id, event, quantity, price, eventId, executionId)
      ensures old(Listed()) ==> Listed()
    {
      if id !in orders {
        return NoSuchOrder;
      }
      if quantity.GetOr(0.0) < 0.0 || price.GetOr(0.0) < 0.0 {
        return NegativeAmount;
      }
      var order := Reported(State(), orders[id], event, quantity, price);
      orders := orders[id := order];
      if MovesLedger(event, quantity, price) {
        var refusal := ApplyFillToLedger(Fill(order.side, order.symbol, quantity.value, price.value));
        if refusal.Some? {
          return EmitRefused(refusal.value);
        }
      }
      outcome := Emitted(TradeUpdate(event, order, now, Some(eventId), executionId, price));
    }

    /** Searches the book in order and cancels the first order that carries the broker id, if there is one. */
    method Cancel(brokerId: string) returns (canceled: Option<ClientId>)
      requires Listed()
      modifies this`orders
      ensures Listed()
      ensures canceled.None? ==> State() == old(State()) && forall c :: c in orders ==> orders[c].brokerId != brokerId
      ensures canceled.Some? ==> State() == CancelOrder(old(State()), canceled.value)
      ensures canceled.Some? ==>
                exists k :: && 0 <= k < |book| && book[k] == canceled.value && old(orders)[book[k]].brokerId == brokerId
                            && forall j :: 0 <= j < k ==> old(orders)[book[j]].brokerId != brokerId
    {
      for k := 0 to |book|
        invariant orders == old(orders)
        invariant forall j :: 0 <= j < k ==> orders[book[j]].brokerId != brokerId
      {
        var c := book[k];
        if orders[c].brokerId == brokerId {
          orders := orders[c := orders[c].(status := "canceled", updatedAt := now)];
          return Some(c);
        }
      }
      canceled := None;
    }
  }
}
