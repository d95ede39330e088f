/** What the paper broker's order book says of an order after any sequence of operations. */
module OrderBook {
  import opened Prelude
  import opened LiveModels
  import opened OrderStates
  import opened PaperLedger
  import opened FakeBroker

  /** The cumulative quantity of an order, nothing while it is not booked. */
  function QuantityOf(b: Broker, id: ClientId): real {
    if id in b.orders then b.orders[id].filledQuantity else 0.0
  }

  /** The submission puts a new order into the book: it is new there and no short sale. */
  predicate Enters(b: Broker, op: Op, id: ClientId) {
    && op.Submit? && op.intent.Valid() && op.intent.clientId == id && id !in b.orders
    && !(op.intent.side == Sell && op.intent.Shares() > Held(b.ledger, op.intent.symbol))
  }

  /** The report is about a booked order and carries no negative amount. */
  predicate Reports(b: Broker, op: Op, id: ClientId) {
    op.Emit? && op.id == id && id in b.orders && op.quantity.GetOr(0.0) >= 0.0 && op.price.GetOr(0.0) >= 0.0
  }

  /** The broker fills a new order at once. */
  predicate FilledAtOnce(b: Broker, id: ClientId) { b.autoFill && id !in b.rejectIds }

  /** The shares an operation says were traded for an order. */
  function Claimed(b: Broker, op: Op, id: ClientId): real {
    if Enters(b, op, id) then if FilledAtOnce(b, id) then op.intent.Shares() else 0.0
    else if Reports(b, op, id) then op.quantity.GetOr(0.0)
    else 0.0
  }

  function ClaimedBy(b: Broker, ops: seq<Op>, id: ClientId): real {
    if ops == [] then 0.0
    else ClaimedBy(b, ops[..|ops| - 1], id) + Claimed(RunOps(b, ops[..|ops| - 1]), ops[|ops| - 1], id)
  }

  lemma OpClaims(b: Broker, op: Op, id: ClientId)
    ensures QuantityOf(AfterOp(b, op), id) == QuantityOf(b, id) + Claimed(b, op, id)
  {
  }

  /** An order's quantity is what it was booked with plus every quantity reported for it since. */
  lemma {:induction false} QuantitiesAddUp(b: Broker, ops: seq<Op>, id: ClientId)
    ensures QuantityOf(RunOps(b, ops), id) == QuantityOf(b, id) + ClaimedBy(b, ops, id)
  {
    if ops != [] {
      QuantitiesAddUp(b, ops[..|ops| - 1], id);
      OpClaims(RunOps(b, ops[..|ops| - 1]), ops[|ops| - 1], id);
    }
  }

  /** A report's update carries the booked order itself, and with it the total of all reports so far. */
  lemma UpdateCarriesTotal(b: Broker, ops: seq<Op>, op: Op, update: TradeUpdate)
    requires op.Emit?
    requires EmitTradeUpdate(RunOps(b, ops), op.id, op.event, op.quantity, op.price, op.eventId, op.executionId).1 == Emitted(update)
    ensures var b' := RunOps(b, ops + [op]);
            && op.id in b'.orders && update.order == b'.orders[op.id]
            && update.order.filledQuantity == QuantityOf(b, op.id) + ClaimedBy(b, ops + [op], op.id)
            && update.order.status == update.event == op.event && update.fillPrice == op.price
            && update.timestamp == update.order.updatedAt == b'.now
            && update.eventId == Some(op.eventId) && update.executionId == op.executionId
  {
    assert (ops + [op])[..|ops|] == ops;
    QuantitiesAddUp(b, ops + [op], op.id);
  }

  /** So does the update a submission emits. */
  lemma SubmissionCarriesTotal(b: Broker, ops: seq<Op>, intent: OrderIntent, order: BrokerOrder, update: TradeUpdate)
    requires intent.Valid() && SubmitOrder(RunOps(b, ops), intent).1 == Returned(order, Some(update))
    ensures var id, b' := intent.clientId, RunOps(b, ops + [Submit(intent)]);
            && id in b'.orders && update.order == order == b'.orders[id]
            && order.filledQuantity == QuantityOf(b, id) + ClaimedBy(b, ops + [Submit(intent)], id)
            && update.event == order.status && update.timestamp == order.updatedAt
            && (order.status == "filled" ==> update.fillPrice == order.averageFillPrice == Some(intent.referencePrice))
            && (order.status != "filled" ==> update.fillPrice == None && order.averageFillPrice == None)
  {
    assert (ops + [Submit(intent)])[..|ops|] == ops;
    QuantitiesAddUp(b, ops + [Submit(intent)], intent.clientId);
  }

  // ---------------------------------------------------------------- claimed and applied

  /** The order an operation is about. */
  function About(op: Op): ClientId {
    match op
    case Submit(intent) => intent.clientId
    case Emit(id, _, _, _, _, _) => id
    case Cancel(id) => id
  }

  /** The shares an operation moves in the ledger for an order. */
  function AppliedShares(b: Broker, op: Op, id: ClientId): real {
    if About(op) == id && AppliedFill(b, op) != [] then AppliedFill(b, op)[0].quantity else 0.0
  }

  function AppliedBy(b: Broker, ops: seq<Op>, id: ClientId): real {
    if ops == [] then 0.0
    else AppliedBy(b, ops[..|ops| - 1], id) + AppliedShares(RunOps(b, ops[..|ops| - 1]), ops[|ops| - 1], id)
  }

  /** Shares are claimed, but the report is no priced fill or the ledger refuses the fill. */
  predicate Unbacked(b: Broker, op: Op, id: ClientId) {
    && Claimed(b, op, id) > 0.0
    && (|| (op.Emit? && !MovesLedger(op.event, op.quantity, op.price))
        || (RequestedFill(b, op).Some? && ApplyFill(b.ledger, RequestedFill(b, op).value).Err?))
  }

  function UnbackedShares(b: Broker, op: Op, id: ClientId): real {
    if Unbacked(b, op, id) then Claimed(b, op, id) else 0.0
  }

  function UnbackedBy(b: Broker, ops: seq<Op>, id: ClientId): real {
    if ops == [] then 0.0
    else UnbackedBy(b, ops[..|ops| - 1], id) + UnbackedShares(RunOps(b, ops[..|ops| - 1]), ops[|ops| - 1], id)
  }

  /** A short sale the submission refuses is one the ledger would refuse as well. */
  lemma ShortsAreNotApplied(b: Broker, op: Op, id: ClientId)
    requires op.Submit? && op.intent.Valid() && op.intent.clientId == id && !Enters(b, op, id)
    ensures AppliedFill(b, op) == []
  {
  }

  lemma OpBacks(b: Broker, op: Op, id: ClientId)
    ensures AppliedShares(b, op, id) + UnbackedShares(b, op, id) == Claimed(b, op, id)
    ensures UnbackedShares(b, op, id) >= 0.0
  {
    if op.Submit? && op.intent.Valid() && op.intent.clientId == id {
      assert op.intent.Shares() > 0.0;
      if !Enters(b, op, id) {
        ShortsAreNotApplied(b, op, id);
      }
    }
  }

  lemma {:induction false} ClaimsAreAppliedOrUnbacked(b: Broker, ops: seq<Op>, id: ClientId)
    ensures AppliedBy(b, ops, id) + UnbackedBy(b, ops, id) == ClaimedBy(b, ops, id)
    ensures UnbackedBy(b, ops, id) >= 0.0
  {
    if ops != [] {
      ClaimsAreAppliedOrUnbacked(b, ops[..|ops| - 1], id);
      OpBacks(RunOps(b, ops[..|ops| - 1]), ops[|ops| - 1], id);
    }
  }

  /** No report or submission of this order was unbacked. */
  ghost predicate AllBacked(b: Broker, ops: seq<Op>, id: ClientId) {
    forall i :: 0 <= i < |ops| ==> !Unbacked(RunOps(b, ops[..i]), ops[i], id)
  }

  lemma BackedPrefix(b: Broker, ops: seq<Op>, id: ClientId)
    requires ops != []
    ensures AllBacked(b, ops, id) <==>
              AllBacked(b, ops[..|ops| - 1], id) && !Unbacked(RunOps(b, ops[..|ops| - 1]), ops[|ops| - 1], id)
  {
    var front := ops[..|ops| - 1];
    assert forall i :: 0 <= i < |front| ==> front[..i] == ops[..i];
  }

  lemma {:induction false} NothingUnbacked(b: Broker, ops: seq<Op>, id: ClientId)
    ensures UnbackedBy(b, ops, id) == 0.0 <==> AllBacked(b, ops, id)
    decreases |ops|
  {
    if ops != [] {
      var front := ops[..|ops| - 1];
      NothingUnbacked(b, front, id);
      BackedPrefix(b, ops, id);
      ClaimsAreAppliedOrUnbacked(b, front, id);
      OpBacks(RunOps(b, front), ops[|ops| - 1], id);
    }
  }

  /**
   A book quantity never falls short of the shares the ledger has applied for that order, and equals
   them exactly when every claimed quantity came with a priced fill the ledger took.
   */
  lemma BookMatchesLedgerExactlyWhen(b: Broker, ops: seq<Op>, id: ClientId)
    requires id !in b.orders
    ensures AppliedBy(b, ops, id) <= QuantityOf(RunOps(b, ops), id)
    ensures AppliedBy(b, ops, id) == QuantityOf(RunOps(b, ops), id) <==> AllBacked(b, ops, id)
  {
    QuantitiesAddUp(b, ops, id);
    ClaimsAreAppliedOrUnbacked(b, ops, id);
    NothingUnbacked(b, ops, id);
  }

  // ---------------------------------------------------------------- the rest of an order

  /** What identifies an order at the broker. */
  predicate SameOrder(a: BrokerOrder, b: BrokerOrder) {
    && a.clientId == b.clientId && a.brokerId == b.brokerId && a.symbol == b.symbol && a.side == b.side
    && a.requestedNotional == b.requestedNotional
  }

  /** Orders are never taken out of the book and never change their terms. */
  lemma {:induction false} TermsAreKept(b: Broker, ops: seq<Op>, id: ClientId)
    requires id in b.orders
    ensures var b' := RunOps(b, ops);
            id in b'.orders && SameOrder(b.orders[id], b'.orders[id])
  {
    if ops != [] {
      TermsAreKept(b, ops[..|ops| - 1], id);
    }
  }

  /** The status an operation gives an order, if it gives one. */
  function WordGiven(b: Broker, op: Op, id: ClientId): Option<string> {
    if Enters(b, op, id) then Some(if id in b.rejectIds then "rejected" else if b.autoFill then "filled" else "accepted")
    else if Reports(b, op, id) then Some(op.event)
    else if op.Cancel? && op.id == id && id in b.orders then Some("canceled")
    else None
  }

  function LastWord(b: Broker, ops: seq<Op>, id: ClientId): Option<string> {
    if ops == [] then if id in b.orders then Some(b.orders[id].status) else None
    else
      var front := ops[..|ops| - 1];
      var given := WordGiven(RunOps(b, front), ops[|ops| - 1], id);
      if given.Some? then given else LastWord(b, front, id)
  }

  /** The price an operation sets for an order, if it sets one: a new order has its own, a report only a nonzero one. */
  function PriceSet(b: Broker, op: Op, id: ClientId): Option<real> {
    if Enters(b, op, id) && FilledAtOnce(b, id) then Some(op.intent.referencePrice)
    else if Reports(b, op, id) && op.price.GetOr(0.0) > 0.0 then op.price
    else None
  }

  function LastPrice(b: Broker, ops: seq<Op>, id: ClientId): Option<real> {
    if ops == [] then if id in b.orders then b.orders[id].averageFillPrice else None
    else
      var front := ops[..|ops| - 1];
      var given := PriceSet(RunOps(b, front), ops[|ops| - 1], id);
      if given.Some? then given else LastPrice(b, front, id)
  }

  lemma OpGives(b: Broker, op: Op, id: ClientId)
    ensures var b' := AfterOp(b, op);
            && (id in b'.orders <==> id in b.orders || WordGiven(b, op, id).Some?)
            && (id in b'.orders ==> b'.orders[id].status == WordGiven(b, op, id).GetOr(if id in b.orders then b.orders[id].status else ""))
  {
  }

  lemma OpPrices(b: Broker, op: Op, id: ClientId)
    ensures var b' := AfterOp(b, op);
            && (id in b.orders ==> id in b'.orders)
            && (id in b'.orders && PriceSet(b, op, id).Some? ==> b'.orders[id].averageFillPrice == PriceSet(b, op, id))
            && (id in b'.orders && PriceSet(b, op, id).None? ==>
                  b'.orders[id].averageFillPrice == (if id in b.orders then b.orders[id].averageFillPrice else None))
            && (id !in b'.orders ==> PriceSet(b, op, id) == None)
  {
  }

  /** An order stands in the book exactly when somebody gave it a status, with the last status and the last nonzero price. */
  lemma {:induction false} LastReportStands(b: Broker, ops: seq<Op>, id: ClientId)
    ensures var b' := RunOps(b, ops);
            && (id in b'.orders <==> LastWord(b, ops, id).Some?)
            && (id in b'.orders ==> LastWord(b, ops, id) == Some(b'.orders[id].status))
            && (id in b'.orders ==> b'.orders[id].averageFillPrice == LastPrice(b, ops, id))
            && (id !in b'.orders ==> LastPrice(b, ops, id) == None)
  {
    if ops != [] {
      var here, op := RunOps(b, ops[..|ops| - 1]), ops[|ops| - 1];
      LastReportStands(b, ops[..|ops| - 1], id);
      OpGives(here, op, id);
      OpPrices(here, op, id);
    }
  }

  /** Some operation gave the order a status. */
  predicate Touched(b: Broker, ops: seq<Op>, id: ClientId) {
    ops != [] && (Touched(b, ops[..|ops| - 1], id) || WordGiven(RunOps(b, ops[..|ops| - 1]), ops[|ops| - 1], id).Some?)
  }

  lemma OpDates(b: Broker, op: Op, id: ClientId)
    requires id in b.orders
    ensures id in AfterOp(b, op).orders && AfterOp(b, op).now == b.now
    ensures AfterOp(b, op).orders[id].updatedAt == if WordGiven(b, op, id).Some? then b.now else b.orders[id].updatedAt
  {
  }

  /** Whoever gives a booked order a status dates it, and nobody else does. */
  lemma {:induction false} StatusesAreDated(b: Broker, ops: seq<Op>, id: ClientId)
    requires id in b.orders
    ensures id in RunOps(b, ops).orders && RunOps(b, ops).now == b.now
    ensures RunOps(b, ops).orders[id].updatedAt == if Touched(b, ops, id) then b.now else b.orders[id].updatedAt
  {
    if ops != [] {
      StatusesAreDated(b, ops[..|ops| - 1], id);
      OpDates(RunOps(b, ops[..|ops| - 1]), ops[|ops| - 1], id);
    }
  }

  // ---------------------------------------------------------------- the two readings of an event

  lemma FillWordsAreFills(event: string)
    requires event in {"partial_fill", "partially_filled", "fill", "filled"}
    ensures Lower(Strip(event)) == event
  {
    assert Strip("partial_fill") == "partial_fill" && Lower("partial_fill") == "partial_fill";
    assert Strip("partially_filled") == "partially_filled" && Lower("partially_filled") == "partially_filled";
    assert Strip("fill") == "fill" && Lower("fill") == "fill";
    assert Strip("filled") == "filled" && Lower("filled") == "filled";
  }

  lemma FillStates(word: string)
    ensures StateForWord(word) in {PartiallyFilled, LocalOrderState.Filled} <==>
              word in {"partial_fill", "partially_filled", "fill", "filled"}
  {
  }

  /**
   The broker moves its ledger for a report exactly when the report names a nonzero quantity and price and its event,
   written in lower case without outer blanks, means a partial or full fill to the order manager.
   */
  lemma LedgerMovesExactlyForFills(event: string, quantity: Option<real>, price: Option<real>)
    ensures MovesLedger(event, quantity, price) <==>
              && Lower(Strip(event)) == event
              && StateForBrokerStatus(event) in {PartiallyFilled, LocalOrderState.Filled}
              && quantity.GetOr(0.0) != 0.0 && price.GetOr(0.0) != 0.0
  {
    FillStates(Lower(Strip(event)));
    if event in {"partial_fill", "partially_filled", "fill", "filled"} {
      FillWordsAreFills(event);
    }
  }

  /** So an upper-case fill is recorded by the manager and not applied by the paper ledger. */
  lemma UpperCaseFillIsNotApplied()
    ensures StateForBrokerStatus("FILL") == LocalOrderState.Filled
    ensures !MovesLedger("FILL", Some(1.0), Some(1.0))
  {
    assert Strip("FILL") == "FILL";
    assert Lower("FILL") == "fill";
  }
}
