/** The state changes the order manager, the update handler and the reconciler ask the store for. */
module OrderWrites {
  import opened Prelude
  import opened LiveModels
  import opened OrderStates
  import opened OrderStore

  function StartWrite(intent: OrderIntent): Write {
    Write(intent.clientId, SubmissionStarted, StartedKey(intent.clientId), None, None, None)
  }

  function UnknownWrite(intent: OrderIntent): Write {
    Write(intent.clientId, SubmissionUnknown, UnknownKey(intent.clientId), None, None, None)
  }

  function BrokerWrite(id: ClientId, order: BrokerOrder, key: EventKey): Write {
    Write(id, StateForBrokerStatus(order.status), key,
          Some(order.brokerId), Some(order.filledQuantity), order.averageFillPrice)
  }

  function ExistingWrite(intent: OrderIntent, order: BrokerOrder): Write {
    BrokerWrite(intent.clientId, order, ExistingKey(order.brokerId, order.status))
  }

  function ResponseWrite(intent: OrderIntent, order: BrokerOrder): Write {
    BrokerWrite(intent.clientId, order, ResponseKey(order.brokerId, order.status, order.filledQuantity))
  }

  function ReconcileWrite(order: BrokerOrder): Write {
    BrokerWrite(order.clientId, order,
                ReconcileKey(order.brokerId, order.status, order.filledQuantity, order.updatedAt))
  }

  function UpdateTarget(u: TradeUpdate): LocalOrderState {
    StateForBrokerStatus(if u.event != "" then u.event else u.order.status)
  }

  function UpdateWrite(u: TradeUpdate): Write {
    Write(u.order.clientId, UpdateTarget(u), UpdateKey(u.Fingerprint()),
          Some(u.order.brokerId), Some(u.order.filledQuantity), u.order.averageFillPrice)
  }

  /** The fill row a handled update leads to, given the quantity stored when it was read. */
  function FillFor(u: TradeUpdate, prior: real): Option<FillRow> {
    if UpdateTarget(u) in {PartiallyFilled, Filled} && u.order.filledQuantity - prior > 0.0 && u.fillPrice.Some?
    then Some(FillRow(u.FillKey(), u.order.clientId, u.order.filledQuantity - prior, u.fillPrice.value))
    else None
  }

  lemma WritesFit(intent: OrderIntent, order: BrokerOrder, u: TradeUpdate)
    ensures FitWrite(StartWrite(intent)) && FitWrite(UnknownWrite(intent))
    ensures FitWrite(ExistingWrite(intent, order)) && FitWrite(ResponseWrite(intent, order))
    ensures FitWrite(ReconcileWrite(order)) && FitWrite(UpdateWrite(u))
  {
    BrokerStatusIsExternal(order.status);
    BrokerStatusIsExternal(if u.event != "" then u.event else u.order.status);
  }

  /** The same broker id and status, and for the last two kinds of write also the same quantity and, for the last, date. */
  lemma KeysTellReportsApart(intent: OrderIntent, other: OrderIntent, a: BrokerOrder, b: BrokerOrder)
    ensures ExistingWrite(intent, a).key == ExistingWrite(other, b).key <==> a.brokerId == b.brokerId && a.status == b.status
    ensures ResponseWrite(intent, a).key == ResponseWrite(other, b).key <==>
              a.brokerId == b.brokerId && a.status == b.status && a.filledQuantity == b.filledQuantity
    ensures ReconcileWrite(a).key == ReconcileWrite(b).key <==>
              a.brokerId == b.brokerId && a.status == b.status && a.filledQuantity == b.filledQuantity && a.updatedAt == b.updatedAt
  {
  }

  /** The cumulative quantity the row of an order carries, nothing without a row. */
  function StoredFill(s: Store, id: ClientId): real {
    if id in s.orders then s.orders[id].filled else 0.0
  }

  /** Total of the fill ledger for one order. */
  function FillTotal(fills: seq<FillRow>, id: ClientId): real {
    if fills == [] then 0.0
    else
      var last := fills[|fills| - 1];
      FillTotal(fills[..|fills| - 1], id) + if last.clientId == id then last.quantity else 0.0
  }

  lemma FillTotalAppend(fills: seq<FillRow>, f: FillRow, id: ClientId)
    ensures FillTotal(fills + [f], id) == FillTotal(fills, id) + if f.clientId == id then f.quantity else 0.0
  {
    assert (fills + [f])[..|fills|] == fills;
  }

  /** Quantity times price over the fill ledger for one order. */
  function FillNotional(fills: seq<FillRow>, id: ClientId): real {
    if fills == [] then 0.0
    else
      var last := fills[|fills| - 1];
      FillNotional(fills[..|fills| - 1], id) + if last.clientId == id then Worth(last.quantity, last.price) else 0.0
  }

  lemma FillNotionalAppend(fills: seq<FillRow>, f: FillRow, id: ClientId)
    ensures FillNotional(fills + [f], id) == FillNotional(fills, id) + if f.clientId == id then Worth(f.quantity, f.price) else 0.0
  {
    assert (fills + [f])[..|fills|] == fills;
  }

  // ---------------------------------------------------------------- reconciliation

  type Tolerance = x: real | x >= 0.0 witness 0.0

  /** Whether the reconciler moves a row to what the broker reports. */
  predicate Advances(row: OrderRow, w: Write, tolerance: Tolerance) {
    && CanTransition(row.state, w.target)
    && if row.state != w.target then !Terminal(row.state) else Abs(w.filled.GetOr(row.filled) - row.filled) > tolerance
  }

  /** What the fill ledger lacks of the broker's cumulative quantity. */
  function LedgerGap(fills: seq<FillRow>, order: BrokerOrder): real {
    order.filledQuantity - FillTotal(fills, order.clientId)
  }

  /** The money the missing quantity must have moved, by the broker's average price. */
  function MissingNotional(fills: seq<FillRow>, order: BrokerOrder): real {
    Worth(order.filledQuantity, order.averageFillPrice.GetOr(0.0)) - FillNotional(fills, order.clientId)
  }

  function ImpliedPrice(notional: real, quantity: real): real
    requires quantity > 0.0
  {
    notional / quantity
  }

  /** The fill the reconciler adds to a ledger that trails a priced order. */
  function RepairFor(fills: seq<FillRow>, order: BrokerOrder, tolerance: Tolerance): Option<FillRow> {
    var gap := LedgerGap(fills, order);
    if gap > tolerance && order.averageFillPrice.Some? && ImpliedPrice(MissingNotional(fills, order), gap) > 0.0
    then Some(FillRow(RepairFill(order.brokerId, order.filledQuantity), order.clientId, gap,
                      ImpliedPrice(MissingNotional(fills, order), gap)))
    else None
  }
}
