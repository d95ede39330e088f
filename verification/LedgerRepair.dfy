/** One reconciliation of one order, undisturbed: what it stores and what it adds to the fill ledger. */
module LedgerRepair {
  import opened Prelude
  import opened LiveModels
  import opened OrderStates
  import opened OrderStore
  import opened OrderWrites
  import opened OrderProtocol

  function Reconciler(pc: Pc): Thread { Thread(NoBatch, pc) }

  /** What the reconciler does once it has read the row. */
  function AfterRead(row: OrderRow, order: BrokerOrder, tolerance: Tolerance): Pc {
    if Advances(row, ReconcileWrite(order), tolerance)
    then Writing(ReconcileWrite(order), row.state, row.filled, ThenRepair(order, tolerance))
    else Auditing(order, tolerance)
  }

  lemma ReconcilerReads(s: Sys, t: nat, order: BrokerOrder, tolerance: Tolerance)
    requires t !in s.threads && order.clientId in s.store.orders
    ensures Apply(Apply(s, SpawnReconcile(t, order, tolerance)), Act(t, ReadRow)) ==
              s.(threads := s.threads[t := Reconciler(AfterRead(s.store.orders[order.clientId], order, tolerance))])
  {
    var a := Apply(s, SpawnReconcile(t, order, tolerance));
    assert a == s.(threads := s.threads[t := Reconciler(Reading(ReconcileWrite(order), ThenRepair(order, tolerance)))]);
    var pc := AfterRead(s.store.orders[order.clientId], order, tolerance);
    assert a.threads[t := Reconciler(pc)] == s.threads[t := Reconciler(pc)];
  }

  lemma ReconcilerCommits(s: Sys, t: nat, order: BrokerOrder, tolerance: Tolerance)
    requires t in s.threads && s.threads[t].batch.NoBatch? && s.threads[t].pc.Writing?
    requires s.threads[t].pc.next == ThenRepair(order, tolerance)
    requires Transition(s.store, s.threads[t].pc.w, s.threads[t].pc.expected).1 != Refused
    ensures Apply(s, Act(t, CommitWrite)) ==
              s.(store := Transition(s.store, s.threads[t].pc.w, s.threads[t].pc.expected).0,
                 threads := s.threads[t := Reconciler(Auditing(order, tolerance))])
  {
  }

  /** The fill ledger after an audit. */
  function LedgerAfter(s: Store, order: BrokerOrder, tolerance: Tolerance): Store {
    match RepairFor(s.fills, order, tolerance)
    case Some(fill) => RecordFill(s, fill)
    case None => s
  }

  lemma ReconcilerRepairs(s: Sys, t: nat, order: BrokerOrder, tolerance: Tolerance)
    requires t in s.threads && s.threads[t] == Reconciler(Auditing(order, tolerance))
    ensures Apply(Apply(s, Act(t, ReadLedger)), Act(t, CommitFill)) ==
              s.(store := LedgerAfter(s.store, order, tolerance), threads := s.threads - {t})
  {
    var a := Apply(s, Act(t, ReadLedger));
    match RepairFor(s.store.fills, order, tolerance)
    case Some(fill) =>
      assert a == s.(threads := s.threads[t := Reconciler(Filling(fill))]);
      assert s.threads[t := Reconciler(Filling(fill))] - {t} == s.threads - {t};
    case None =>
      assert a == s.(threads := s.threads - {t});
  }

  // ---------------------------------------------------------------- the whole reconciliation

  /** Read, write if there is something to write, read the ledger, append if there is something to append. */
  function Reconciled(s: Sys, t: nat, order: BrokerOrder, tolerance: Tolerance): Sys {
    var read := Apply(Apply(s, SpawnReconcile(t, order, tolerance)), Act(t, ReadRow));
    Apply(Apply(Apply(read, Act(t, CommitWrite)), Act(t, ReadLedger)), Act(t, CommitFill))
  }

  /** The reconciler's write, if it has one, is not refused. */
  predicate Takes(s: Store, order: BrokerOrder, tolerance: Tolerance)
    requires order.clientId in s.orders
  {
    Advances(s.orders[order.clientId], ReconcileWrite(order), tolerance) ==>
      Transition(s, ReconcileWrite(order), s.orders[order.clientId].state).1 != Refused
  }

  /** The store after the reconciler's write, if it has one. */
  function Written(s: Store, order: BrokerOrder, tolerance: Tolerance): Store
    requires order.clientId in s.orders
  {
    if Advances(s.orders[order.clientId], ReconcileWrite(order), tolerance)
    then Transition(s, ReconcileWrite(order), s.orders[order.clientId].state).0 else s
  }

  /** The system in which one more thread, the reconciler, stands at this point. */
  function With(s: Sys, t: nat, pc: Pc): Sys { s.(threads := s.threads[t := Reconciler(pc)]) }

  lemma WritesIfNeeded(s: Sys, t: nat, order: BrokerOrder, tolerance: Tolerance)
    requires t !in s.threads && order.clientId in s.store.orders && Takes(s.store, order, tolerance)
    ensures var read := With(s, t, AfterRead(s.store.orders[order.clientId], order, tolerance));
            Apply(read, Act(t, CommitWrite)) == With(s, t, Auditing(order, tolerance)).(store := Written(s.store, order, tolerance))
  {
    var row := s.store.orders[order.clientId];
    var read := With(s, t, AfterRead(row, order, tolerance));
    if Advances(row, ReconcileWrite(order), tolerance) {
      ReconcilerCommits(read, t, order, tolerance);
      assert read.threads[t := Reconciler(Auditing(order, tolerance))] == s.threads[t := Reconciler(Auditing(order, tolerance))];
    }
  }

  lemma ReconciliationIs(s: Sys, t: nat, order: BrokerOrder, tolerance: Tolerance)
    requires t !in s.threads && order.clientId in s.store.orders && Takes(s.store, order, tolerance)
    ensures Reconciled(s, t, order, tolerance) == s.(store := LedgerAfter(Written(s.store, order, tolerance), order, tolerance))
  {
    ReconcilerReads(s, t, order, tolerance);
    WritesIfNeeded(s, t, order, tolerance);
    var written := With(s, t, Auditing(order, tolerance)).(store := Written(s.store, order, tolerance));
    ReconcilerRepairs(written, t, order, tolerance);
    assert written.threads - {t} == s.threads;
  }

  /** A repair the ledger takes: it trails the broker beyond the tolerance, the price is known and positive, and the repair is new. */
  predicate Repairable(fills: seq<FillRow>, order: BrokerOrder, tolerance: Tolerance) {
    RepairFor(fills, order, tolerance).Some? && forall f :: f in fills ==> f.key != RepairFor(fills, order, tolerance).value.key
  }

  lemma PositivePrice(notional: real, quantity: real)
    requires quantity > 0.0
    ensures ImpliedPrice(notional, quantity) > 0.0 <==> notional > 0.0
  {
  }

  /** A repair is made exactly when the ledger trails by more than the tolerance, the average price is known and the missing shares cost something. */
  lemma RepairedExactlyWhen(fills: seq<FillRow>, order: BrokerOrder, tolerance: Tolerance)
    ensures RepairFor(fills, order, tolerance).Some? <==>
              && order.filledQuantity - FillTotal(fills, order.clientId) > tolerance
              && order.averageFillPrice.Some?
              && Worth(order.filledQuantity, order.averageFillPrice.value) > FillNotional(fills, order.clientId)
  {
    if LedgerGap(fills, order) > tolerance {
      PositivePrice(MissingNotional(fills, order), LedgerGap(fills, order));
    }
  }

  lemma ImpliedPriceMeans(notional: real, quantity: real)
    requires quantity > 0.0
    ensures Worth(quantity, ImpliedPrice(notional, quantity)) == notional
  {
  }

  /** A taken repair brings the ledger to the broker's quantity, and its money to that quantity at the average price. */
  lemma RepairReachesBroker(s: Store, order: BrokerOrder, tolerance: Tolerance)
    requires Repairable(s.fills, order, tolerance)
    ensures FillTotal(LedgerAfter(s, order, tolerance).fills, order.clientId) == order.filledQuantity
    ensures FillNotional(LedgerAfter(s, order, tolerance).fills, order.clientId)
         == Worth(order.filledQuantity, order.averageFillPrice.GetOr(0.0))
    ensures LedgerAfter(s, order, tolerance) == s.(fills := LedgerAfter(s, order, tolerance).fills)
  {
    var fill := RepairFor(s.fills, order, tolerance).value;
    FillTotalAppend(s.fills, fill, order.clientId);
    FillNotionalAppend(s.fills, fill, order.clientId);
    ImpliedPriceMeans(MissingNotional(s.fills, order), LedgerGap(s.fills, order));
  }

  /**
   An undisturbed reconciliation makes the ledger agree with the broker wherever it is repairable,
   whatever becomes of the row: an applied write stores the broker's quantity, so ledger and row agree;
   a row the reconciler does not move keeps its quantity, so they agree exactly if the row already did.
   */
  lemma ReconciliationRepairs(s: Sys, t: nat, order: BrokerOrder, tolerance: Tolerance)
    requires t !in s.threads && order.clientId in s.store.orders && Takes(s.store, order, tolerance)
    requires Repairable(s.store.fills, order, tolerance)
    ensures var id, s', row := order.clientId, Reconciled(s, t, order, tolerance).store, s.store.orders[order.clientId];
            && FillTotal(s'.fills, id) == order.filledQuantity
            && FillNotional(s'.fills, id) == Worth(order.filledQuantity, order.averageFillPrice.GetOr(0.0))
            && StoredFill(s', id) == (if Advances(row, ReconcileWrite(order), tolerance)
                                         && Transition(s.store, ReconcileWrite(order), row.state).1 == Applied
                                      then order.filledQuantity else row.filled)
  {
    ReconciliationIs(s, t, order, tolerance);
    WriteKeepsFills(s.store, order, tolerance);
    RepairReachesBroker(Written(s.store, order, tolerance), order, tolerance);
  }

  lemma WriteKeepsFills(s: Store, order: BrokerOrder, tolerance: Tolerance)
    requires order.clientId in s.orders
    ensures var row, s' := s.orders[order.clientId], Written(s, order, tolerance);
            && s'.fills == s.fills && order.clientId in s'.orders
            && StoredFill(s', order.clientId) == (if Advances(row, ReconcileWrite(order), tolerance)
                                                     && Transition(s, ReconcileWrite(order), row.state).1 == Applied
                                                  then order.filledQuantity else row.filled)
  {
  }

  /** When the write took effect and the ledger did not exceed the broker, at most the tolerance is left between ledger and row. */
  lemma ReconciliationSettles(s: Sys, t: nat, order: BrokerOrder, tolerance: Tolerance)
    requires t !in s.threads && order.clientId in s.store.orders
    requires Advances(s.store.orders[order.clientId], ReconcileWrite(order), tolerance)
    requires Transition(s.store, ReconcileWrite(order), s.store.orders[order.clientId].state).1 == Applied
    requires LedgerGap(s.store.fills, order) >= 0.0
    requires LedgerGap(s.store.fills, order) > tolerance ==> Repairable(s.store.fills, order, tolerance)
    ensures var id, s' := order.clientId, Reconciled(s, t, order, tolerance).store;
            && StoredFill(s', id) == order.filledQuantity
            && 0.0 <= StoredFill(s', id) - FillTotal(s'.fills, id) <= tolerance
            && (LedgerGap(s.store.fills, order) > tolerance || tolerance == 0.0 ==> FillTotal(s'.fills, id) == StoredFill(s', id))
  {
    ReconciliationIs(s, t, order, tolerance);
    WriteKeepsFills(s.store, order, tolerance);
    if LedgerGap(s.store.fills, order) > tolerance {
      RepairReachesBroker(Written(s.store, order, tolerance), order, tolerance);
    }
  }
}
