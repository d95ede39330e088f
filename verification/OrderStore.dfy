/**
 The durable order tables: intents, one row per order, an append-only event log with unique keys,
 and a fill ledger with unique keys. Each function is one database transaction.
 */
module OrderStore {
  import opened Prelude
  import opened LiveModels
  import opened OrderStates

  /** Unique keys of the event log; the prefixes of the source's key texts keep the kinds apart. */
  datatype EventKey =
    | ReserveKey(clientId: ClientId)
    | StartedKey(clientId: ClientId)
    | UnknownKey(clientId: ClientId)
    | ExistingKey(brokerId: string, status: string)
    | ResponseKey(brokerId: string, status: string, filled: real)
    | ReconcileKey(brokerId: string, status: string, filled: real, updatedAt: Instant)
    | UpdateKey(mark: Fingerprint)

  /** At most one intent per decision, symbol and side. */
  datatype IntentKey = IntentKey(decisionId: string, symbol: Symbol, side: Side)

  datatype OrderRow = OrderRow(
    state: LocalOrderState,
    filled: real,
    brokerId: Option<string>,
    averagePrice: Option<real>
  )

  datatype OrderEvent = OrderEvent(
    key: EventKey,
    clientId: ClientId,
    fromState: LocalOrderState,
    toState: LocalOrderState
  )

  datatype FillRow = FillRow(key: FillKey, clientId: ClientId, quantity: real, price: real)

  datatype Store = Store(
    intents: map<ClientId, IntentKey>,
    orders: map<ClientId, OrderRow>,
    events: seq<OrderEvent>,
    fills: seq<FillRow>
  )

  const EMPTY_STORE := Store(map[], map[], [], [])

  /** A requested state change; optional columns keep their value when absent. */
  datatype Write = Write(
    clientId: ClientId,
    target: LocalOrderState,
    key: EventKey,
    brokerId: Option<string>,
    filled: Option<real>,
    averagePrice: Option<real>
  )

  datatype WriteOutcome = Applied | DuplicateEvent | Refused

  // ---------------------------------------------------------------- transactions

  function KeyFor(intent: OrderIntent): IntentKey {
    IntentKey(intent.decisionId, intent.symbol, intent.side)
  }

  predicate HasEvent(s: Store, key: EventKey) {
    exists e :: e in s.events && e.key == key
  }

  /** True when the intents table refuses the row: same client id, or same decision, symbol and side. */
  predicate IntentTaken(s: Store, intent: OrderIntent) {
    intent.clientId in s.intents || KeyFor(intent) in s.intents.Values
  }

  /** Three inserts in one transaction; a refused insert ends it but keeps the earlier ones. */
  function Reserve(s: Store, intent: OrderIntent): (r: (Store, bool)) {
    var id := intent.clientId;
    if IntentTaken(s, intent) then (s, false)
    else
      var s1 := s.(intents := s.intents[id := KeyFor(intent)]);
      if id in s.orders then (s1, false)
      else
        var s2 := s1.(orders := s1.orders[id := OrderRow(LocallyReserved, 0.0, None, None)]);
        if HasEvent(s, ReserveKey(id)) then (s2, false)
        else (s2.(events := s2.events + [OrderEvent(ReserveKey(id), id, Planned, LocallyReserved)]), true)
  }

  /** Dry-run intents go into the intents table alone, each one that its unique columns allow. */
  function RecordHypothetical(s: Store, intents: seq<OrderIntent>): (Store, seq<ClientId>) {
    if intents == [] then (s, [])
    else
      var (s1, recorded) := RecordHypothetical(s, intents[..|intents| - 1]);
      var last := intents[|intents| - 1];
      if IntentTaken(s1, last) then (s1, recorded)
      else (s1.(intents := s1.intents[last.clientId := KeyFor(last)]), recorded + [last.clientId])
  }

  /** Another row already carries this broker id (the column is unique). */
  predicate BrokerIdTaken(s: Store, id: ClientId, brokerId: Option<string>) {
    brokerId.Some? && exists c :: c in s.orders && c != id && s.orders[c].brokerId == brokerId
  }

  function UpdatedRow(row: OrderRow, w: Write): OrderRow {
    OrderRow(
      w.target,
      w.filled.GetOr(row.filled),
      if w.brokerId.Some? then w.brokerId else row.brokerId,
      if w.averagePrice.Some? then w.averagePrice else row.averagePrice
    )
  }

  /** Compare-and-set on the stored state, guarded by the unique event key. */
  function Transition(s: Store, w: Write, expected: LocalOrderState): (r: (Store, WriteOutcome)) {
    if HasEvent(s, w.key) then (s, DuplicateEvent)
    else if w.clientId !in s.orders || s.orders[w.clientId].state != expected
            || BrokerIdTaken(s, w.clientId, w.brokerId) then (s, Refused)
    else
      (s.(orders := s.orders[w.clientId := UpdatedRow(s.orders[w.clientId], w)],
          events := s.events + [OrderEvent(w.key, w.clientId, expected, w.target)]),
       Applied)
  }

  predicate HasFill(s: Store, key: FillKey) {
    exists f :: f in s.fills && f.key == key
  }

  function RecordFill(s: Store, fill: FillRow): Store {
    if HasFill(s, fill.key) then s else s.(fills := s.fills + [fill])
  }

  // ---------------------------------------------------------------- what the tables mean

  /** States an order entered, oldest first, read off the event log. */
  function Entered(events: seq<OrderEvent>, id: ClientId): seq<LocalOrderState> {
    if events == [] then []
    else
      var last := events[|events| - 1];
      Entered(events[..|events| - 1], id) + if last.clientId == id then [last.toState] else []
  }

  function History(s: Store, id: ClientId): seq<LocalOrderState> {
    [Planned] + Entered(s.events, id)
  }

  lemma EnteredAppend(events: seq<OrderEvent>, e: OrderEvent, id: ClientId)
    ensures Entered(events + [e], id) == Entered(events, id) + if e.clientId == id then [e.toState] else []
  {
    assert (events + [e])[..|events|] == events;
  }

  lemma {:induction false} EnteredContains(events: seq<OrderEvent>, e: OrderEvent)
    requires e in events
    ensures e.toState in Entered(events, e.clientId)
  {
    var n := |events| - 1;
    if events[n] != e {
      assert events == events[..n] + [events[n]];
      EnteredContains(events[..n], e);
    }
  }

  ghost predicate UniqueKeys(events: seq<OrderEvent>) {
    forall i, j :: 0 <= i < j < |events| ==> events[i].key != events[j].key
  }

  /** The row agrees with the event log, and the log is a path of the table. */
  ghost predicate RowAgrees(s: Store, id: ClientId) {
    if id in s.orders then
      && |History(s, id)| >= 2
      && History(s, id)[1] == LocallyReserved
      && History(s, id)[|History(s, id)| - 1] == s.orders[id].state
      && IsPath(History(s, id))
    else Entered(s.events, id) == []
  }

  /** No two intents share decision, symbol and side. */
  ghost predicate OneEach(intents: map<ClientId, IntentKey>) {
    forall a, b :: a in intents && b in intents && intents[a] == intents[b] ==> a == b
  }

  /** The decision, symbol and side of this intent are reserved under another client id. */
  ghost predicate HeldElsewhere(s: Store, intent: OrderIntent) {
    exists c :: c in s.intents && c != intent.clientId && s.intents[c] == KeyFor(intent)
  }

  /** The client id stands in the intents table without an order row: recorded by a dry run, and never executable. */
  ghost predicate Rehearsed(s: Store, id: ClientId) { id in s.intents && id !in s.orders }

  /** The intents table refuses this intent while it has no order row of its own. */
  ghost predicate Barred(s: Store, intent: OrderIntent) {
    HeldElsewhere(s, intent) || Rehearsed(s, intent.clientId)
  }

  ghost predicate ReservedIn(s: Store) {
    && s.orders.Keys <= s.intents.Keys
    && OneEach(s.intents)
    && forall i :: 0 <= i < |s.events| ==> s.events[i].clientId in s.orders
  }

  /** A submission-started or unknown key only ever labels its own order's move to that state. */
  ghost predicate KeysFit(e: OrderEvent) {
    && (e.key.ReserveKey? ==> e.key.clientId == e.clientId && e.toState == LocallyReserved)
    && (e.key.StartedKey? ==> e.key.clientId == e.clientId && e.toState == SubmissionStarted)
    && (e.key.UnknownKey? ==> e.key.clientId == e.clientId && e.toState == SubmissionUnknown)
    && (e.toState == LocallyReserved ==> e.key.ReserveKey?)
    && (e.toState == SubmissionStarted ==> e.key.StartedKey?)
  }

  ghost predicate ValidStore(s: Store) {
    && ReservedIn(s)
    && UniqueKeys(s.events)
    && (forall id :: RowAgrees(s, id))
    && (forall i :: 0 <= i < |s.events| ==> KeysFit(s.events[i]))
  }

  /** Writes the order manager and the reconciler ever ask for. */
  ghost predicate FitWrite(w: Write) {
    KeysFit(OrderEvent(w.key, w.clientId, Planned, w.target)) && w.target != LocallyReserved
  }

  lemma EmptyStoreIsValid()
    ensures ValidStore(EMPTY_STORE)
  {
    forall id ensures RowAgrees(EMPTY_STORE, id) {
    }
  }

  /** Appending one fitting event and moving its row accordingly keeps the store consistent. */
  lemma AppendEvent(s: Store, s': Store, e: OrderEvent)
    requires ValidStore(s)
    requires s'.events == s.events + [e] && !HasEvent(s, e.key) && KeysFit(e)
    requires s'.intents.Keys == s.intents.Keys + {e.clientId} && OneEach(s'.intents)
    requires s'.orders.Keys == s.orders.Keys + {e.clientId}
    requires s'.orders[e.clientId].state == e.toState
    requires forall id :: id in s.orders && id != e.clientId ==> s'.orders[id] == s.orders[id]
    requires if e.clientId in s.orders then CanTransition(s.orders[e.clientId].state, e.toState)
             else e.toState == LocallyReserved
    ensures ValidStore(s')
    ensures History(s', e.clientId) == History(s, e.clientId) + [e.toState]
    ensures forall id :: id != e.clientId ==> History(s', id) == History(s, id)
  {
    forall id
      ensures RowAgrees(s', id)
      ensures History(s', id) == History(s, id) + if id == e.clientId then [e.toState] else []
    {
      EnteredAppend(s.events, e, id);
      assert RowAgrees(s, id);
      AppendToHistory(s, s', e, id);
    }
    AppendToLog(s, s', e);
  }

  lemma AppendToLog(s: Store, s': Store, e: OrderEvent)
    requires ReservedIn(s) && UniqueKeys(s.events) && forall i :: 0 <= i < |s.events| ==> KeysFit(s.events[i])
    requires s'.events == s.events + [e] && !HasEvent(s, e.key) && KeysFit(e)
    requires s'.intents.Keys == s.intents.Keys + {e.clientId} && OneEach(s'.intents)
    requires s'.orders.Keys == s.orders.Keys + {e.clientId}
    ensures ReservedIn(s') && UniqueKeys(s'.events) && forall i :: 0 <= i < |s'.events| ==> KeysFit(s'.events[i])
  {
    assert forall i :: 0 <= i < |s.events| ==> s.events[i] in s.events;
  }

  lemma AppendToHistory(s: Store, s': Store, e: OrderEvent, id: ClientId)
    requires RowAgrees(s, id)
    requires Entered(s'.events, id) == Entered(s.events, id) + if id == e.clientId then [e.toState] else []
    requires id != e.clientId ==> (id in s'.orders <==> id in s.orders)
    requires id != e.clientId && id in s.orders ==> s'.orders[id] == s.orders[id]
    requires id == e.clientId ==> id in s'.orders && s'.orders[id].state == e.toState
    requires id == e.clientId && id in s.orders ==> CanTransition(s.orders[id].state, e.toState)
    requires id == e.clientId && id !in s.orders ==> e.toState == LocallyReserved
    ensures RowAgrees(s', id)
    ensures History(s', id) == History(s, id) + if id == e.clientId then [e.toState] else []
  {
    var h, h' := History(s, id), History(s', id);
    if id != e.clientId {
      assert h' == h;
    } else {
      assert h' == h + [e.toState];
      assert id !in s.orders ==> h == [Planned];
    }
  }

  /** In a consistent store a reservation fails only on the intents table, and then changes nothing. */
  lemma ReserveIsInsertIfAbsent(s: Store, intent: OrderIntent)
    requires ValidStore(s)
    ensures Reserve(s, intent).1 <==> !IntentTaken(s, intent)
    ensures !Reserve(s, intent).1 ==> Reserve(s, intent).0 == s
    ensures !Reserve(s, intent).1 <==> intent.clientId in s.orders || Barred(s, intent)
    ensures ValidStore(Reserve(s, intent).0)
    ensures Reserve(s, intent).1 ==>
              History(Reserve(s, intent).0, intent.clientId) == [Planned, LocallyReserved]
    ensures forall id :: id != intent.clientId ==>
              History(Reserve(s, intent).0, id) == History(s, id)
  {
    if !IntentTaken(s, intent) {
      ReserveFreshIntent(s, intent);
    }
  }

  lemma ReserveFreshIntent(s: Store, intent: OrderIntent)
    requires ValidStore(s) && !IntentTaken(s, intent)
    ensures Reserve(s, intent).1
    ensures ValidStore(Reserve(s, intent).0)
    ensures History(Reserve(s, intent).0, intent.clientId) == [Planned, LocallyReserved]
    ensures forall id :: id != intent.clientId ==>
              History(Reserve(s, intent).0, id) == History(s, id)
  {
    var id := intent.clientId;
    var e := OrderEvent(ReserveKey(id), id, Planned, LocallyReserved);
    assert id !in s.orders;
    assert History(s, id) == [Planned] by { assert RowAgrees(s, id); }
    assert !HasEvent(s, e.key) by {
      forall o | o in s.events
        ensures o.key != e.key
      {
        assert KeysFit(o);
      }
    }
    var s' := s.(intents := s.intents[id := KeyFor(intent)],
                 orders := s.orders[id := OrderRow(LocallyReserved, 0.0, None, None)],
                 events := s.events + [e]);
    assert Reserve(s, intent) == (s', true);
    AppendEvent(s, s', e);
  }

  lemma TakenAfterReserving(s: Store, a: OrderIntent, b: OrderIntent)
    requires Reserve(s, a).1
    ensures IntentTaken(Reserve(s, a).0, b) <==>
              || IntentTaken(s, b) || a.clientId == b.clientId
              || (a.decisionId == b.decisionId && a.symbol == b.symbol && a.side == b.side)
  {
    var s' := Reserve(s, a).0;
    assert s'.intents == s.intents[a.clientId := KeyFor(a)] && a.clientId !in s.intents;
    assert s'.intents[a.clientId] == KeyFor(a);
    if KeyFor(b) in s.intents.Values {
      var c :| c in s.intents && s.intents[c] == KeyFor(b);
      assert s'.intents[c] == KeyFor(b);
    }
  }

  /** A reservation bars another intent exactly when they share the client id, or decision, symbol and side. */
  lemma ReservationBarsItsKind(s: Store, a: OrderIntent, b: OrderIntent)
    requires ValidStore(s) && Reserve(s, a).1
    ensures Reserve(Reserve(s, a).0, b).1 <==>
              && Reserve(s, b).1 && a.clientId != b.clientId
              && !(a.decisionId == b.decisionId && a.symbol == b.symbol && a.side == b.side)
  {
    ReserveIsInsertIfAbsent(s, a);
    ReserveIsInsertIfAbsent(s, b);
    ReserveIsInsertIfAbsent(Reserve(s, a).0, b);
    TakenAfterReserving(s, a, b);
  }

  /** A dry run keeps the store consistent, adds no order row and no history, and takes no intent from anyone. */
  lemma {:induction false} HypotheticalKeeps(s: Store, intents: seq<OrderIntent>)
    requires ValidStore(s)
    ensures var (s', recorded) := RecordHypothetical(s, intents);
            && ValidStore(s')
            && s' == s.(intents := s'.intents)
            && (forall id :: id in s.intents ==> id in s'.intents && s'.intents[id] == s.intents[id])
            && (forall id :: id in s'.intents && id !in s.intents ==> id in recorded && Rehearsed(s', id))
  {
    if intents != [] {
      HypotheticalKeeps(s, intents[..|intents| - 1]);
      var s1 := RecordHypothetical(s, intents[..|intents| - 1]).0;
      var s' := RecordHypothetical(s, intents).0;
      forall id
        ensures RowAgrees(s', id)
      {
        assert RowAgrees(s1, id);
      }
    }
  }

  /** A table-respecting compare-and-set keeps the store consistent and appends one state to one history. */
  lemma TransitionKeepsPaths(s: Store, w: Write, expected: LocalOrderState)
    requires ValidStore(s)
    requires FitWrite(w) && CanTransition(expected, w.target)
    ensures ValidStore(Transition(s, w, expected).0)
    ensures Transition(s, w, expected).1 != Applied ==> Transition(s, w, expected).0 == s
    ensures Transition(s, w, expected).1 == Applied ==>
              History(Transition(s, w, expected).0, w.clientId) == History(s, w.clientId) + [w.target]
    ensures forall id :: id != w.clientId ==>
              History(Transition(s, w, expected).0, id) == History(s, id)
  {
    var (s', outcome) := Transition(s, w, expected);
    if outcome == Applied {
      AppendEvent(s, s', OrderEvent(w.key, w.clientId, expected, w.target));
    }
  }

  /** No two rows carry the same broker id. */
  ghost predicate OneBrokerIdEach(s: Store) {
    forall a, b :: a in s.orders && b in s.orders && a != b && s.orders[a].brokerId.Some? ==> s.orders[a].brokerId != s.orders[b].brokerId
  }

  lemma ReserveKeepsBrokerIds(s: Store, intent: OrderIntent)
    requires OneBrokerIdEach(s)
    ensures OneBrokerIdEach(Reserve(s, intent).0)
  {
  }

  lemma TransitionKeepsBrokerIds(s: Store, w: Write, expected: LocalOrderState)
    requires OneBrokerIdEach(s)
    ensures OneBrokerIdEach(Transition(s, w, expected).0)
  {
  }

  // ---------------------------------------------------------------- the repository object

  /** The repository as the source holds it: tables that its methods update in place. */
  class AuditRepository {
    var intents: map<ClientId, IntentKey>
    var orders: map<ClientId, OrderRow>
    var events: seq<OrderEvent>
    var fills: seq<FillRow>

    function Contents(): Store
      reads this
    {
      Store(intents, orders, events, fills)
    }

    constructor ()
      ensures Contents() == EMPTY_STORE
    {
      intents, orders, events, fills := map[], map[], [], [];
    }

    method ReserveOrderIntent(intent: OrderIntent) returns (reserved: bool)
      modifies this
      ensures (Contents(), reserved) == Reserve(old(Contents()), intent)
    {
      var id := intent.clientId;
      if id in intents || KeyFor(intent) in intents.Values {
        return false;
      }
      intents := intents[id := KeyFor(intent)];
      if id in orders {
        return false;
      }
      orders := orders[id := OrderRow(LocallyReserved, 0.0, None, None)];
      if exists e :: e in events && e.key == ReserveKey(id) {
        return false;
      }
      events := events + [OrderEvent(ReserveKey(id), id, Planned, LocallyReserved)];
      reserved := true;
    }

    method RecordHypotheticalIntents(wanted: seq<OrderIntent>) returns (recorded: seq<ClientId>)
      modifies this`intents
      ensures (Contents(), recorded) == RecordHypothetical(old(Contents()), wanted)
    {
      recorded := [];
      for k := 0 to |wanted|
        invariant (Contents(), recorded) == RecordHypothetical(old(Contents()), wanted[..k])
      {
        assert wanted[..k + 1][..k] == wanted[..k];
        if wanted[k].clientId !in intents && KeyFor(wanted[k]) !in intents.Values {
          intents := intents[wanted[k].clientId := KeyFor(wanted[k])];
          recorded := recorded + [wanted[k].clientId];
        }
      }
      assert wanted[..|wanted|] == wanted;
    }

    method TransitionOrder(w: Write, expected: LocalOrderState) returns (outcome: WriteOutcome)
      modifies this`orders, this`events
      ensures (Contents(), outcome) == Transition(old(Contents()), w, expected)
    {
      if HasEvent(Contents(), w.key) {
        return DuplicateEvent;
      }
      if w.clientId !in orders || orders[w.clientId].state != expected
         || BrokerIdTaken(Contents(), w.clientId, w.brokerId) {
        return Refused;
      }
      orders := orders[w.clientId := UpdatedRow(orders[w.clientId], w)];
      events := events + [OrderEvent(w.key, w.clientId, expected, w.target)];
      outcome := Applied;
    }

    method AppendFill(fill: FillRow)
      modifies this`fills
      ensures Contents() == RecordFill(old(Contents()), fill)
    {
      if !(exists f :: f in fills && f.key == fill.key) {
        fills := fills + [fill];
      }
    }
  }
}
