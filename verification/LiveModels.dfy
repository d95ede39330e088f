/** Broker-neutral values passed between planner, order manager, repository and broker. */
module LiveModels {
  import opened Prelude

  type ClientId = string
  type Symbol = string
  type Instant = int

  datatype Side = Buy | Sell

  /** What a number of shares is worth at a price. */
  function Worth(quantity: real, price: real): real { quantity * price }

  /** An order the planner asks for: a cash amount for buys, a share count for sells. */
  datatype OrderIntent = OrderIntent(
    decisionId: string,
    clientId: ClientId,
    symbol: Symbol,
    side: Side,
    sequence: nat,
    referencePrice: real,
    createdAt: Instant,
    notional: Option<real>,
    quantity: Option<real>
  ) {
    /** What the constructor of the source accepts: one positive amount and a positive price. */
    predicate Valid() {
      && decisionId != "" && clientId != "" && |clientId| <= 48
      && referencePrice > 0.0
      && (notional.Some? <==> quantity.None?)
      && (notional.Some? ==> notional.value > 0.0)
      && (quantity.Some? ==> quantity.value > 0.0)
    }

    function EstimatedNotional(): real
      requires Valid()
    {
      if notional.Some? then notional.value else Worth(quantity.value, referencePrice)
    }

    /** Shares a complete fill at the reference price trades. */
    function Shares(): (q: real)
      requires Valid()
      ensures q > 0.0
      ensures Worth(q, referencePrice) == EstimatedNotional()
    {
      if quantity.Some? then quantity.value
      else
        PositiveQuotient(notional.value, referencePrice);
        notional.value / referencePrice
    }
  }

  lemma PositiveQuotient(a: real, b: real)
    requires a > 0.0 && b > 0.0
    ensures a / b > 0.0
    ensures (a / b) * b == a
  {
  }

  lemma WorthNonnegative(a: real, b: real)
    requires a >= 0.0 && b >= 0.0
    ensures Worth(a, b) >= 0.0
  {
  }

  datatype BrokerOrder = BrokerOrder(
    clientId: ClientId,
    brokerId: string,
    symbol: Symbol,
    side: Side,
    status: string,
    updatedAt: Instant,
    requestedNotional: Option<real>,
    filledQuantity: real,
    averageFillPrice: Option<real>
  )

  datatype TradeUpdate = TradeUpdate(
    event: string,
    order: BrokerOrder,
    timestamp: Instant,
    eventId: Option<string>,
    executionId: Option<string>,
    fillPrice: Option<real>
  ) {
    /** Identity of a delivery: a broker event id, else an execution id, else the content itself. */
    function Fingerprint(): Fingerprint {
      if eventId.Some? && eventId.value != "" then ByEvent(eventId.value)
      else if executionId.Some? && executionId.value != "" then ByExecution(executionId.value, event)
      else ByContent(order.brokerId, order.clientId, event, timestamp, order.filledQuantity, order.averageFillPrice)
    }

    function FillKey(): FillKey {
      if executionId.Some? && executionId.value != "" then ExecutionFill(executionId.value)
      else UpdateFill(Fingerprint())
    }
  }

  /** The three prefixes of the source's text fingerprints; a digest stands for its own input. */
  datatype Fingerprint =
    | ByEvent(eventId: string)
    | ByExecution(executionId: string, event: string)
    | ByContent(brokerId: string, clientId: ClientId, event: string, timestamp: Instant,
                filled: real, average: Option<real>)

  /** Fill ids: a broker execution, an update without one, or a repair by the reconciler, whose prefix sets it apart. */
  datatype FillKey =
    | ExecutionFill(executionId: string)
    | UpdateFill(mark: Fingerprint)
    | RepairFill(brokerId: string, filled: real)

  predicate Named(id: Option<string>) { id.Some? && id.value != "" }

  /** The content an update without ids is recognized by. */
  predicate SameContent(u: TradeUpdate, v: TradeUpdate) {
    && u.order.brokerId == v.order.brokerId && u.order.clientId == v.order.clientId && u.event == v.event
    && u.timestamp == v.timestamp && u.order.filledQuantity == v.order.filledQuantity
    && u.order.averageFillPrice == v.order.averageFillPrice
  }

  /** Two deliveries count as one exactly when they share the event id, else execution id and event, else the content. */
  lemma SameDeliveryExactlyWhen(u: TradeUpdate, v: TradeUpdate)
    ensures u.Fingerprint() == v.Fingerprint() <==>
              if Named(u.eventId) || Named(v.eventId) then u.eventId == v.eventId
              else if Named(u.executionId) || Named(v.executionId) then u.executionId == v.executionId && u.event == v.event
              else SameContent(u, v)
  {
  }

  /** Two updates record one fill exactly when they share the execution id, or have none and are the same delivery. */
  lemma SameFillExactlyWhen(u: TradeUpdate, v: TradeUpdate)
    ensures u.FillKey() == v.FillKey() <==>
              if Named(u.executionId) || Named(v.executionId) then u.executionId == v.executionId
              else u.Fingerprint() == v.Fingerprint()
  {
  }
}
