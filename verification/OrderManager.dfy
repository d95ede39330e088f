/** Persist-first order submission and idempotent trade-update handling, one call at a time. */
module OrderManager {
  import opened Prelude
  import opened LiveModels
  import opened OrderStates
  import opened OrderStore
  import opened OrderWrites
  import opened FakeBroker

  datatype World = World(store: Store, broker: Broker)

  datatype Failure = UnknownOrder | InvalidTransition | StoreRefused | BrokerRefused

  // ---------------------------------------------------------------- moving an order

  /** Read, validate against the table, compare-and-set; the flag says whether the event was new. */
  function MoveOrder(s: Store, w: Write): (Store, Result<bool, Failure>) {
    if w.clientId !in s.orders then (s, Err(UnknownOrder))
    else
      var current := s.orders[w.clientId].state;
      if !CanTransition(current, w.target) then (s, Err(InvalidTransition))
      else
        var (s', outcome) := Transition(s, w, current);
        if outcome == Refused then (s, Err(StoreRefused)) else (s', Ok(outcome == Applied))
  }

  // ---------------------------------------------------------------- trade updates

  /** Handle one report; `crash` cuts the process off after its state change and before its fill. */
  function HandleUpdate(s: Store, u: TradeUpdate, crash: bool): (Store, Result<bool, Failure>) {
    if HasEvent(s, UpdateKey(u.Fingerprint())) then (s, Ok(false))
    else if u.order.clientId !in s.orders then (s, Ok(false))
    else
      var prior := s.orders[u.order.clientId].filled;
      var (s', r) := MoveOrder(s, UpdateWrite(u));
      if r == Ok(true) && !crash && FillFor(u, prior).Some?
      then (RecordFill(s', FillFor(u, prior).value), r)
      else (s', r)
  }

  /** What an update says the order has come to: its event, or its order's status where it has none. */
  function Says(u: TradeUpdate): LocalOrderState {
    if u.event == "" then StateForBrokerStatus(u.order.status) else StateForBrokerStatus(u.event)
  }

  /** Another row carries the update's broker id. */
  ghost predicate IdElsewhere(s: Store, u: TradeUpdate) {
    exists c :: c in s.orders && c != u.order.clientId && s.orders[c].brokerId == Some(u.order.brokerId)
  }

  /** How an update is answered: known deliveries and unknown orders are ignored, moves the table forbids and broker ids
      of other rows are errors, and everything else is stored. */
  lemma UpdateIsAnswered(s: Store, u: TradeUpdate)
    ensures var (s', r) := HandleUpdate(s, u, false);
            var known, id := HasEvent(s, UpdateKey(u.Fingerprint())), u.order.clientId;
            && (r == Ok(false) <==> known || id !in s.orders)
            && (r == Err(InvalidTransition) <==> !known && id in s.orders && !CanTransition(s.orders[id].state, Says(u)))
            && (r == Err(StoreRefused) <==> !known && id in s.orders && CanTransition(s.orders[id].state, Says(u)) && IdElsewhere(s, u))
            && (r == Ok(true) <==> !known && id in s.orders && CanTransition(s.orders[id].state, Says(u)) && !IdElsewhere(s, u))
            && (r != Ok(true) ==> s' == s)
            && (r == Ok(true) ==> id in s'.orders && s'.orders[id].state == Says(u) && s'.orders[id].filled == u.order.filledQuantity
                                  && s'.orders[id].brokerId == Some(u.order.brokerId))
  {
  }

  /** Anything that changes an order's stored quantity: a handled report or another move. */
  datatype Change = Deliver(update: TradeUpdate, crash: bool) | Advance(w: Write)

  function AfterChange(s: Store, c: Change): Store {
    match c
    case Deliver(u, crash) => HandleUpdate(s, u, crash).0
    case Advance(w) => MoveOrder(s, w).0
  }

  function AfterChanges(s: Store, cs: seq<Change>): Store {
    if cs == [] then s else AfterChange(AfterChanges(s, cs[..|cs| - 1]), cs[|cs| - 1])
  }

  function Increase(s: Store, c: Change, id: ClientId): real {
    StoredFill(AfterChange(s, c), id) - StoredFill(s, id)
  }

  function RecordedBy(s: Store, c: Change, id: ClientId): real {
    FillTotal(AfterChange(s, c).fills, id) - FillTotal(s.fills, id)
  }

  /** A report whose increase goes into the fill ledger: a priced partial or full fill, new in both tables. */
  predicate RecordsFill(s: Store, c: Change, id: ClientId) {
    && c.Deliver? && !c.crash && c.update.order.clientId == id
    && UpdateTarget(c.update) in {PartiallyFilled, Filled}
    && c.update.fillPrice.Some?
    && !HasFill(s, c.update.FillKey())
  }

  /** What a move does to the quantities: it stores the one it carries, for its order only, and records no fill. */
  lemma MoveStores(s: Store, w: Write, id: ClientId)
    ensures var (s', r) := MoveOrder(s, w);
            && s'.fills == s.fills
            && (r != Ok(true) ==> s' == s)
            && (r == Ok(true) && w.clientId == id && w.filled.Some? ==> StoredFill(s', id) == w.filled.value)
            && (w.clientId != id ==> StoredFill(s', id) == StoredFill(s, id))
  {
  }

  lemma DeliveryRecordsItsIncrease(s: Store, u: TradeUpdate, crash: bool, id: ClientId)
    ensures var c := Deliver(u, crash);
            RecordedBy(s, c, id) == if RecordsFill(s, c, id) && Increase(s, c, id) > 0.0 then Increase(s, c, id) else 0.0
  {
    MoveStores(s, UpdateWrite(u), id);
    var (s1, r) := MoveOrder(s, UpdateWrite(u));
    if !HasEvent(s, UpdateKey(u.Fingerprint())) && u.order.clientId in s.orders {
      var fill := FillFor(u, s.orders[u.order.clientId].filled);
      if r == Ok(true) && !crash && fill.Some? && !HasFill(s, fill.value.key) {
        FillTotalAppend(s1.fills, fill.value, id);
      }
    }
  }

  /** One change records either nothing or exactly the increase it made, the latter iff it is a recordable increase. */
  lemma ChangeRecordsItsIncrease(s: Store, c: Change, id: ClientId)
    ensures RecordedBy(s, c, id) == if RecordsFill(s, c, id) && Increase(s, c, id) > 0.0 then Increase(s, c, id) else 0.0
  {
    match c
    case Deliver(u, crash) => DeliveryRecordsItsIncrease(s, u, crash, id);
    case Advance(w) => MoveStores(s, w, id);
  }

  function PaidBy(s: Store, c: Change, id: ClientId): real {
    FillNotional(AfterChange(s, c).fills, id) - FillNotional(s.fills, id)
  }

  /** A recorded increase is recorded at the update's own fill price, whatever the order's average. */
  lemma ChangeRecordsItsPrice(s: Store, c: Change, id: ClientId)
    ensures PaidBy(s, c, id) == if RecordsFill(s, c, id) && Increase(s, c, id) > 0.0
                                then Worth(Increase(s, c, id), c.update.fillPrice.value) else 0.0
  {
    MoveStores(s, WriteOf(c), id);
    if c.Deliver? && !HasEvent(s, UpdateKey(c.update.Fingerprint())) && c.update.order.clientId in s.orders {
      var (s1, r) := MoveOrder(s, UpdateWrite(c.update));
      var fill := FillFor(c.update, s.orders[c.update.order.clientId].filled);
      if r == Ok(true) && !c.crash && fill.Some? && !HasFill(s, fill.value.key) {
        FillNotionalAppend(s1.fills, fill.value, id);
      }
    }
  }

  /** What the recorded increases of a history cost, each at its own price. */
  function Cost(s: Store, cs: seq<Change>, id: ClientId): real {
    if cs == [] then 0.0
    else
      var front, c := cs[..|cs| - 1], cs[|cs| - 1];
      var here := AfterChanges(s, front);
      Cost(s, front, id) +
      if RecordsFill(here, c, id) && Increase(here, c, id) > 0.0 then Worth(Increase(here, c, id), c.update.fillPrice.value) else 0.0
  }

  /** The money in the fill ledger is the sum of every recorded increase at its update's price. */
  lemma {:induction false} LedgerMoneyAddsUp(s: Store, cs: seq<Change>, id: ClientId)
    ensures FillNotional(AfterChanges(s, cs).fills, id) == FillNotional(s.fills, id) + Cost(s, cs, id)
  {
    if cs != [] {
      LedgerMoneyAddsUp(s, cs[..|cs| - 1], id);
      ChangeRecordsItsPrice(AfterChanges(s, cs[..|cs| - 1]), cs[|cs| - 1], id);
    }
  }

  /** Increases of the stored quantity that never reached the ledger, summed over a history. */
  function Missed(s: Store, cs: seq<Change>, id: ClientId): real {
    if cs == [] then 0.0
    else
      var front, c := cs[..|cs| - 1], cs[|cs| - 1];
      var here := AfterChanges(s, front);
      Missed(s, front, id) +
      if Increase(here, c, id) > 0.0 && !RecordsFill(here, c, id) then Increase(here, c, id) else 0.0
  }

  /** Decreases of the stored quantity, summed over a history. */
  function Dropped(s: Store, cs: seq<Change>, id: ClientId): real {
    if cs == [] then 0.0
    else
      var front, c := cs[..|cs| - 1], cs[|cs| - 1];
      var here := AfterChanges(s, front);
      Dropped(s, front, id) + if Increase(here, c, id) < 0.0 then -Increase(here, c, id) else 0.0
  }

  /**
   Conservation of fills, for every history of reports, crashes and other moves: the ledger plus what
   it missed equals the stored quantity plus what was taken back.
   */
  lemma {:induction false} FillsAreConserved(s: Store, cs: seq<Change>, id: ClientId)
    ensures var s' := AfterChanges(s, cs);
            FillTotal(s'.fills, id) - FillTotal(s.fills, id) + Missed(s, cs, id)
            == StoredFill(s', id) - StoredFill(s, id) + Dropped(s, cs, id)
  {
    if cs != [] {
      var front, c := cs[..|cs| - 1], cs[|cs| - 1];
      FillsAreConserved(s, front, id);
      ChangeRecordsItsIncrease(AfterChanges(s, front), c, id);
    }
  }

  /** As long as nothing is taken back the ledger stays within the stored quantity, and equals it exactly when nothing was missed. */
  lemma LedgerWithoutDrops(s: Store, cs: seq<Change>, id: ClientId)
    requires FillTotal(s.fills, id) == StoredFill(s, id)
    requires Dropped(s, cs, id) == 0.0
    ensures FillTotal(AfterChanges(s, cs).fills, id) <= StoredFill(AfterChanges(s, cs), id)
    ensures FillTotal(AfterChanges(s, cs).fills, id) == StoredFill(AfterChanges(s, cs), id) <==> Missed(s, cs, id) == 0.0
  {
    FillsAreConserved(s, cs, id);
    MissedIsNonnegative(s, cs, id);
  }

  // ---------------------------------------------------------------- reports that never decrease

  function WriteOf(c: Change): Write {
    match c
    case Deliver(u, _) => UpdateWrite(u)
    case Advance(w) => w
  }

  /** The cumulative quantity the i-th change reports for this order, if it takes effect and carries one. */
  function ReportOf(s: Store, cs: seq<Change>, i: nat, id: ClientId): Option<real>
    requires i < |cs|
  {
    var w := WriteOf(cs[i]);
    if w.clientId == id && MoveOrder(AfterChanges(s, cs[..i]), w).1 == Ok(true) then w.filled else None
  }

  /** Reports that take effect are at least the quantity at the start and never fall from one to a later one. */
  ghost predicate ReportsNeverFall(s: Store, cs: seq<Change>, id: ClientId) {
    && (forall i: nat :: i < |cs| && ReportOf(s, cs, i, id).Some? ==> StoredFill(s, id) <= ReportOf(s, cs, i, id).value)
    && (forall i: nat, j: nat :: i < j < |cs| && ReportOf(s, cs, i, id).Some? && ReportOf(s, cs, j, id).Some? ==>
          ReportOf(s, cs, i, id).value <= ReportOf(s, cs, j, id).value)
  }

  /** A change leaves the stored quantity alone or stores what it reports. */
  lemma ChangeStoresItsReport(s: Store, c: Change, id: ClientId)
    ensures var w, after := WriteOf(c), StoredFill(AfterChange(s, c), id);
            || after == StoredFill(s, id)
            || (w.clientId == id && MoveOrder(s, w).1 == Ok(true) && w.filled == Some(after))
  {
  }

  ghost predicate WasReported(s: Store, cs: seq<Change>, id: ClientId, quantity: real) {
    exists i: nat :: i < |cs| && ReportOf(s, cs, i, id) == Some(quantity)
  }

  lemma {:induction false} StoredWasReported(s: Store, cs: seq<Change>, id: ClientId)
    ensures StoredFill(AfterChanges(s, cs), id) == StoredFill(s, id) || WasReported(s, cs, id, StoredFill(AfterChanges(s, cs), id))
    decreases |cs|
  {
    if cs != [] {
      var n := |cs| - 1;
      var front := cs[..n];
      var before, after := StoredFill(AfterChanges(s, front), id), StoredFill(AfterChanges(s, cs), id);
      StoredWasReported(s, front, id);
      ChangeStoresItsReport(AfterChanges(s, front), cs[n], id);
      if after == before && WasReported(s, front, id, before) {
        var i: nat :| i < n && ReportOf(s, front, i, id) == Some(before);
        assert front[..i] == cs[..i];
        assert ReportOf(s, cs, i, id) == Some(after);
      } else if after != before {
        assert ReportOf(s, cs, n, id) == Some(after);
      }
    }
  }

  lemma NothingDroppedHere(s: Store, cs: seq<Change>, id: ClientId)
    requires cs != [] && ReportsNeverFall(s, cs, id)
    ensures Increase(AfterChanges(s, cs[..|cs| - 1]), cs[|cs| - 1], id) >= 0.0
  {
    var n := |cs| - 1;
    var front := cs[..n];
    var here := AfterChanges(s, front);
    var before := StoredFill(here, id);
    StoredWasReported(s, front, id);
    ChangeStoresItsReport(here, cs[n], id);
    if StoredFill(AfterChange(here, cs[n]), id) != before {
      assert ReportOf(s, cs, n, id) == Some(StoredFill(AfterChange(here, cs[n]), id));
      if before != StoredFill(s, id) {
        var i: nat :| i < n && ReportOf(s, front, i, id) == Some(before);
        assert front[..i] == cs[..i];
        assert ReportOf(s, cs, i, id) == Some(before);
      }
    }
  }

  lemma ReportsPrefix(s: Store, cs: seq<Change>, id: ClientId)
    requires cs != [] && ReportsNeverFall(s, cs, id)
    ensures ReportsNeverFall(s, cs[..|cs| - 1], id)
  {
    var front := cs[..|cs| - 1];
    forall i: nat | i < |front|
      ensures ReportOf(s, front, i, id) == ReportOf(s, cs, i, id)
    {
      assert front[..i] == cs[..i];
    }
  }

  /** Reports that never fall take nothing back. */
  lemma {:induction false} NothingIsDropped(s: Store, cs: seq<Change>, id: ClientId)
    requires ReportsNeverFall(s, cs, id)
    ensures Dropped(s, cs, id) == 0.0
  {
    if cs != [] {
      ReportsPrefix(s, cs, id);
      NothingIsDropped(s, cs[..|cs| - 1], id);
      NothingDroppedHere(s, cs, id);
    }
  }

  /** With reported quantities that never decrease, the ledger never exceeds the stored quantity; and
      it equals it exactly when nothing was missed. */
  lemma LedgerNeverExceedsStored(s: Store, cs: seq<Change>, id: ClientId)
    requires FillTotal(s.fills, id) == StoredFill(s, id)
    requires ReportsNeverFall(s, cs, id)
    ensures FillTotal(AfterChanges(s, cs).fills, id) <= StoredFill(AfterChanges(s, cs), id)
    ensures FillTotal(AfterChanges(s, cs).fills, id) == StoredFill(AfterChanges(s, cs), id) <==> Missed(s, cs, id) == 0.0
  {
    NothingIsDropped(s, cs, id);
    LedgerWithoutDrops(s, cs, id);
  }

  lemma {:induction false} MissedIsNonnegative(s: Store, cs: seq<Change>, id: ClientId)
    ensures Missed(s, cs, id) >= 0.0 && Dropped(s, cs, id) >= 0.0
  {
    if cs != [] {
      MissedIsNonnegative(s, cs[..|cs| - 1], id);
    }
  }

  /** Once its event is in the log, a report can be delivered again, anywhere and any number of times, to no effect. */
  lemma {:induction false} ReplaysChangeNothing(s: Store, cs: seq<Change>)
    requires forall i :: 0 <= i < |cs| ==> cs[i].Deliver? && HasEvent(s, UpdateKey(cs[i].update.Fingerprint()))
    ensures AfterChanges(s, cs) == s
  {
    if cs != [] {
      ReplaysChangeNothing(s, cs[..|cs| - 1]);
    }
  }

  /** A report that was taken in stays in the log, whatever happens next. */
  lemma {:induction false} EventsAreKept(s: Store, cs: seq<Change>, key: EventKey)
    requires HasEvent(s, key)
    ensures HasEvent(AfterChanges(s, cs), key)
  {
    if cs != [] {
      EventsAreKept(s, cs[..|cs| - 1], key);
      var here := AfterChanges(s, cs[..|cs| - 1]);
      var e :| e in here.events && e.key == key;
      assert here.events <= AfterChange(here, cs[|cs| - 1]).events;
      assert e in AfterChange(here, cs[|cs| - 1]).events;
    }
  }

  /** Delivering updates twice is delivering them once: replays after any further history change nothing. */
  lemma DuplicateDeliveriesAreAbsorbed(s: Store, u: TradeUpdate, between: seq<Change>, crash: bool)
    requires HandleUpdate(s, u, crash).1 == Ok(true)
    ensures var later := AfterChanges(HandleUpdate(s, u, crash).0, between);
            HandleUpdate(later, u, false) == (later, Ok(false))
  {
    var s1 := HandleUpdate(s, u, crash).0;
    assert s1.events[|s1.events| - 1].key == UpdateKey(u.Fingerprint());
    EventsAreKept(s1, between, UpdateKey(u.Fingerprint()));
  }

  // ---------------------------------------------------------------- the columns of a row

  /** The last value that a change which took effect gave to this column of the order's row. */
  function LastGiven<T>(s: Store, cs: seq<Change>, id: ClientId, column: Write -> Option<T>): Option<T> {
    if cs == [] then None
    else
      var front, w := cs[..|cs| - 1], WriteOf(cs[|cs| - 1]);
      if w.clientId == id && MoveOrder(AfterChanges(s, front), w).1 == Ok(true) && column(w).Some? then column(w)
      else LastGiven(s, front, id, column)
  }

  function OrElse<T>(a: Option<T>, b: Option<T>): Option<T> { if a.Some? then a else b }

  /** One change gives the order's row exactly the columns its write carries, and only if it takes effect. */
  lemma ChangeGives(s: Store, c: Change, id: ClientId)
    requires id in s.orders
    ensures id in AfterChange(s, c).orders
    ensures var row, row', w := s.orders[id], AfterChange(s, c).orders[id], WriteOf(c);
            if w.clientId == id && MoveOrder(s, w).1 == Ok(true)
            then && row'.state == w.target && row'.filled == w.filled.GetOr(row.filled)
                 && row'.brokerId == OrElse(w.brokerId, row.brokerId) && row'.averagePrice == OrElse(w.averagePrice, row.averagePrice)
            else row' == row
  {
  }

  /** Whatever changes come, each column of a row is the last one given to it, or what it was. */
  lemma {:induction false} ColumnsAreLastGiven(s: Store, cs: seq<Change>, id: ClientId)
    requires id in s.orders
    ensures id in AfterChanges(s, cs).orders
    ensures var row, row' := s.orders[id], AfterChanges(s, cs).orders[id];
            && row'.state == LastGiven(s, cs, id, (w: Write) => Some(w.target)).GetOr(row.state)
            && row'.filled == LastGiven(s, cs, id, (w: Write) => w.filled).GetOr(row.filled)
            && row'.brokerId == OrElse(LastGiven(s, cs, id, (w: Write) => w.brokerId), row.brokerId)
            && row'.averagePrice == OrElse(LastGiven(s, cs, id, (w: Write) => w.averagePrice), row.averagePrice)
  {
    if cs != [] {
      ColumnsAreLastGiven(s, cs[..|cs| - 1], id);
      ChangeGives(AfterChanges(s, cs[..|cs| - 1]), cs[|cs| - 1], id);
    }
  }
}
