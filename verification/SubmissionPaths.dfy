/**
 Every way one call of `submit_intent` can go for an intent the store has not seen: answered, ambiguous,
 refused, adopted from the broker's book, or answered with an older order of that book.
 */
module SubmissionPaths {
  import opened Prelude
  import opened LiveModels
  import opened OrderStates
  import opened OrderStore
  import opened OrderWrites
  import opened PaperLedger
  import opened FakeBroker
  import opened OrderManager
  import opened OrderExecution

  /** Nobody has reserved this intent. */
  ghost predicate Free(s: Store, intent: OrderIntent) { ValidStore(s) && !IntentTaken(s, intent) }

  /** No event carries this broker id's answers, and no other row its broker id. */
  ghost predicate Unanswered(s: Store, id: ClientId, brokerId: string) {
    && (forall e :: e in s.events ==> !(e.key.ResponseKey? && e.key.brokerId == brokerId))
    && (forall e :: e in s.events ==> !(e.key.ExistingKey? && e.key.brokerId == brokerId))
    && !BrokerIdTaken(s, id, Some(brokerId))
  }

  const RESERVED := OrderRow(LocallyReserved, 0.0, None, None)
  const STARTED := OrderRow(SubmissionStarted, 0.0, None, None)

  // ---------------------------------------------------------------- one move at a time

  /** The store with this intent's row, and with the events and fills it has brought. */
  function Grown(s: Store, intent: OrderIntent, row: OrderRow, log: seq<OrderEvent>, fills: seq<FillRow>): Store {
    Store(s.intents[intent.clientId := KeyFor(intent)], s.orders[intent.clientId := row], s.events + log, s.fills + fills)
  }

  lemma {:induction false} EnteredConcat(a: seq<OrderEvent>, b: seq<OrderEvent>, id: ClientId)
    ensures Entered(a + b, id) == Entered(a, id) + Entered(b, id)
  {
    if b == [] {
      assert a + b == a;
    } else {
      var front, last := b[..|b| - 1], b[|b| - 1];
      EnteredConcat(a, front, id);
      EnteredAppend(a + front, last, id);
      assert a + front + [last] == a + b;
    }
  }

  /** A move the table allows, under a key not yet used, appends its event and updates its row. */
  lemma MoveGrows(s: Store, intent: OrderIntent, row: OrderRow, log: seq<OrderEvent>, fills: seq<FillRow>, w: Write)
    requires w.clientId == intent.clientId && CanTransition(row.state, w.target)
    requires !HasEvent(s, w.key) && (forall i :: 0 <= i < |log| ==> log[i].key != w.key)
    requires !BrokerIdTaken(s, w.clientId, w.brokerId)
    ensures MoveOrder(Grown(s, intent, row, log, fills), w)
         == (Grown(s, intent, UpdatedRow(row, w), log + [OrderEvent(w.key, w.clientId, row.state, w.target)], fills), Ok(true))
  {
    var s1 := Grown(s, intent, row, log, fills);
    assert !HasEvent(s1, w.key);
    assert !BrokerIdTaken(s1, w.clientId, w.brokerId);
    assert s1.orders[w.clientId := UpdatedRow(row, w)] == s.orders[w.clientId := UpdatedRow(row, w)];
    assert s.events + log + [OrderEvent(w.key, w.clientId, row.state, w.target)]
        == s.events + (log + [OrderEvent(w.key, w.clientId, row.state, w.target)]);
  }

  /** In a consistent store nobody has written an event under a key that names a client id without a row. */
  lemma OwnKeysAreFree(s: Store, id: ClientId)
    requires ValidStore(s) && id !in s.orders
    ensures !HasEvent(s, ReserveKey(id)) && !HasEvent(s, StartedKey(id)) && !HasEvent(s, UnknownKey(id))
    ensures Entered(s.events, id) == []
  {
    assert RowAgrees(s, id);
    forall e | e in s.events
      ensures e.key !in {ReserveKey(id), StartedKey(id), UnknownKey(id)}
    {
      var i :| 0 <= i < |s.events| && s.events[i] == e;
      assert KeysFit(s.events[i]) && s.events[i].clientId in s.orders;
    }
  }

  function Reserving(id: ClientId): OrderEvent { OrderEvent(ReserveKey(id), id, Planned, LocallyReserved) }

  function Starting(id: ClientId): OrderEvent { OrderEvent(StartedKey(id), id, LocallyReserved, SubmissionStarted) }

  lemma ReservationIsNew(s: Store, intent: OrderIntent)
    requires Free(s, intent)
    ensures Reserve(s, intent) == (Grown(s, intent, RESERVED, [Reserving(intent.clientId)], []), true)
  {
    var id := intent.clientId;
    assert id !in s.orders;
    OwnKeysAreFree(s, id);
    assert s.fills + [] == s.fills;
  }

  function Begun(s: Store, intent: OrderIntent): Store {
    Grown(s, intent, STARTED, [Reserving(intent.clientId), Starting(intent.clientId)], [])
  }

  lemma SubmissionBegins(s: Store, intent: OrderIntent)
    requires Free(s, intent)
    ensures Reserve(s, intent).1
    ensures MoveOrder(Reserve(s, intent).0, StartWrite(intent)) == (Begun(s, intent), Ok(true))
  {
    var id := intent.clientId;
    ReservationIsNew(s, intent);
    OwnKeysAreFree(s, id);
    MoveGrows(s, intent, RESERVED, [Reserving(id)], [], StartWrite(intent));
    assert [Reserving(id)] + [Starting(id)] == [Reserving(id), Starting(id)];
  }

  /** Only this intent's row, key, history and fills are new. */
  ghost predicate Became(s: Store, s': Store, intent: OrderIntent, row: OrderRow, entered: seq<LocalOrderState>, fills: seq<FillRow>) {
    && s'.orders == s.orders[intent.clientId := row]
    && s'.intents == s.intents[intent.clientId := KeyFor(intent)]
    && s'.fills == s.fills + fills
    && History(s', intent.clientId) == [Planned, LocallyReserved] + entered
    && (forall id :: id != intent.clientId ==> History(s', id) == History(s, id))
  }

  ghost predicate AllOf(log: seq<OrderEvent>, id: ClientId) { forall i :: 0 <= i < |log| ==> log[i].clientId == id }

  lemma {:induction false} NoneOfOthers(log: seq<OrderEvent>, id: ClientId, other: ClientId)
    requires AllOf(log, id) && other != id
    ensures Entered(log, other) == []
  {
    if log != [] {
      NoneOfOthers(log[..|log| - 1], id, other);
    }
  }

  lemma OwnHistory(events: seq<OrderEvent>, log: seq<OrderEvent>, id: ClientId)
    requires Entered(events, id) == []
    ensures [Planned] + Entered(events + ([Reserving(id)] + log), id) == [Planned, LocallyReserved] + Entered(log, id)
  {
    EnteredConcat([Reserving(id)], log, id);
    EnteredAppend([], Reserving(id), id);
    assert [] + [Reserving(id)] == [Reserving(id)];
    EnteredConcat(events, [Reserving(id)] + log, id);
    assert [Planned] + ([LocallyReserved] + Entered(log, id)) == [Planned, LocallyReserved] + Entered(log, id);
  }

  lemma OthersHistory(events: seq<OrderEvent>, log: seq<OrderEvent>, id: ClientId, other: ClientId)
    requires AllOf(log, id) && other != id
    ensures Entered(events + log, other) == Entered(events, other)
  {
    EnteredConcat(events, log, other);
    NoneOfOthers(log, id, other);
  }

  lemma GrownBecame(s: Store, intent: OrderIntent, row: OrderRow, log: seq<OrderEvent>, fills: seq<FillRow>)
    requires Entered(s.events, intent.clientId) == [] && AllOf(log, intent.clientId)
    ensures Became(s, Grown(s, intent, row, [Reserving(intent.clientId)] + log, fills), intent, row, Entered(log, intent.clientId), fills)
  {
    var id := intent.clientId;
    var all := [Reserving(id)] + log;
    OwnHistory(s.events, log, id);
    forall other | other != id
      ensures Entered(s.events + all, other) == Entered(s.events, other)
    {
      OthersHistory(s.events, all, id, other);
    }
  }

  /** The states of one, two or three moves. */
  lemma StatesOf(a: OrderEvent, b: OrderEvent, c: OrderEvent)
    requires a.clientId == b.clientId == c.clientId
    ensures Entered([a], a.clientId) == [a.toState]
    ensures Entered([a, b], a.clientId) == [a.toState, b.toState]
    ensures Entered([a, b, c], a.clientId) == [a.toState, b.toState, c.toState]
  {
    EnteredAppend([], a, a.clientId);
    EnteredAppend([a], b, a.clientId);
    EnteredAppend([a, b], c, a.clientId);
    assert [] + [a] == [a] && [a] + [b] == [a, b] && [a, b] + [c] == [a, b, c];
  }

  // ---------------------------------------------------------------- the broker's side

  /** The broker neither finds the order in its book nor refuses it. */
  predicate Accepts(b: Broker, intent: OrderIntent)
    requires intent.Valid()
  {
    && intent.clientId !in b.orders
    && (intent.side == Sell ==> intent.Shares() <= Held(b.ledger, intent.symbol))
    && (Fills(b, intent) ==> ApplyFill(b.ledger, IntentFill(intent)).Ok?)
  }

  /** The broker fills at once what it is not told to reject. */
  predicate Fills(b: Broker, intent: OrderIntent) { b.autoFill && intent.clientId !in b.rejectIds }

  function WordFor(b: Broker, intent: OrderIntent): string {
    if intent.clientId in b.rejectIds then "rejected" else if b.autoFill then "filled" else "accepted"
  }

  function OutcomeState(b: Broker, intent: OrderIntent): LocalOrderState {
    if intent.clientId in b.rejectIds then Rejected else if b.autoFill then LocalOrderState.Filled else Accepted
  }

  /** What the book says of an accepted order: the intent's own terms, filled completely or not at all. */
  ghost predicate Books(b: Broker, intent: OrderIntent, order: BrokerOrder)
    requires intent.Valid()
  {
    && order.clientId == intent.clientId && order.brokerId == BrokerIdFor(intent.clientId)
    && order.symbol == intent.symbol && order.side == intent.side && order.requestedNotional == intent.notional
    && order.status == WordFor(b, intent) && order.updatedAt == b.now
    && (if Fills(b, intent)
        then Worth(order.filledQuantity, intent.referencePrice) == intent.EstimatedNotional()
             && order.averageFillPrice == Some(intent.referencePrice)
        else order.filledQuantity == 0.0 && order.averageFillPrice == None)
  }

  /** The book gained this order, the ledger took its fill exactly when the broker fills, one call was counted. */
  ghost predicate Took(b: Broker, b': Broker, intent: OrderIntent)
    requires intent.Valid()
  {
    && intent.clientId in b'.orders && Books(b, intent, b'.orders[intent.clientId])
    && (Fills(b, intent) ==> ApplyFill(b.ledger, IntentFill(intent)).Ok?)
    && b' == b.(ledger := if Fills(b, intent) then ApplyFill(b.ledger, IntentFill(intent)).value else b.ledger,
                orders := b.orders[intent.clientId := b'.orders[intent.clientId]],
                submitCalls := b.submitCalls + 1)
  }

  lemma BrokerTakes(b: Broker, intent: OrderIntent)
    requires intent.Valid() && Accepts(b, intent)
    ensures var (b', outcome) := SubmitOrder(b, intent);
            && Took(b, b', intent)
            && outcome == if intent.clientId in b.timeoutIds then TimedOut
                          else Returned(b'.orders[intent.clientId], Some(SubmissionUpdate(b'.orders[intent.clientId])))
  {
    var q := intent.Shares();
  }

  /** An intent that is new to store and broker is reserved, started, submitted and answered. */
  lemma AsksTheBroker(w: World, intent: OrderIntent, subscribed: bool)
    requires intent.Valid() && Free(w.store, intent) && intent.clientId !in w.broker.orders
    ensures var (b', outcome) := SubmitOrder(w.broker, intent);
            var (s', r) := TakeReply(Begun(w.store, intent), intent, outcome, subscribed);
            SubmitIntent(w, intent, subscribed) == (World(s', b'), r)
  {
    SubmissionBegins(w.store, intent);
  }

  // ---------------------------------------------------------------- the ambiguous answer

  function Losing(id: ClientId): OrderEvent { OrderEvent(UnknownKey(id), id, SubmissionStarted, SubmissionUnknown) }

  const UNKNOWN := OrderRow(SubmissionUnknown, 0.0, None, None)

  lemma LostReply(s: Store, intent: OrderIntent, subscribed: bool)
    requires !HasEvent(s, UnknownKey(intent.clientId))
    ensures var id := intent.clientId;
            TakeReply(Begun(s, intent), intent, TimedOut, subscribed)
            == (Grown(s, intent, UNKNOWN, [Reserving(id)] + [Starting(id), Losing(id)], []), Ok(None))
  {
    var id := intent.clientId;
    MoveGrows(s, intent, STARTED, [Reserving(id), Starting(id)], [], UnknownWrite(intent));
    assert [Reserving(id), Starting(id)] + [Losing(id)] == [Reserving(id)] + [Starting(id), Losing(id)];
  }

  /** A submission without an answer leaves the row unknown and the order where the broker put it. */
  lemma AmbiguousSubmission(w: World, intent: OrderIntent, subscribed: bool)
    requires intent.Valid() && Free(w.store, intent) && Accepts(w.broker, intent)
    requires intent.clientId in w.broker.timeoutIds
    ensures var (w', r) := SubmitIntent(w, intent, subscribed);
            && r == Ok(None)
            && Became(w.store, w'.store, intent, UNKNOWN, [SubmissionStarted, SubmissionUnknown], [])
            && Took(w.broker, w'.broker, intent)
  {
    var id := intent.clientId;
    AsksTheBroker(w, intent, subscribed);
    BrokerTakes(w.broker, intent);
    OwnKeysAreFree(w.store, id);
    LostReply(w.store, intent, subscribed);
    GrownBecame(w.store, intent, UNKNOWN, [Starting(id), Losing(id)], []);
    StatesOf(Starting(id), Losing(id), Losing(id));
  }

  /** An intent that stands in the intents table is never sent again: the caller gets the broker's order, if there is one. */
  lemma NeverSentAgain(w: World, intent: OrderIntent, subscribed: bool)
    requires intent.Valid() && IntentTaken(w.store, intent)
    ensures var id := intent.clientId;
            SubmitIntent(w, intent, subscribed) == (w, Ok(if id in w.broker.orders then Some(w.broker.orders[id]) else None))
  {
  }

  /** Submitting an ambiguous intent again changes nothing and finds the order the broker had booked. */
  lemma AmbiguousThenFound(w: World, intent: OrderIntent, subscribed: bool, again: bool)
    requires intent.Valid() && Free(w.store, intent) && Accepts(w.broker, intent)
    requires intent.clientId in w.broker.timeoutIds
    ensures var w' := SubmitIntent(w, intent, subscribed).0;
            var (w2, r) := SubmitIntent(w', intent, again);
            w2 == w' && r.Ok? && r.value.Some? && Books(w.broker, intent, r.value.value)
  {
    AmbiguousSubmission(w, intent, subscribed);
    NeverSentAgain(SubmitIntent(w, intent, subscribed).0, intent, again);
  }

  // ---------------------------------------------------------------- the plain answer

  lemma WordsMean(b: Broker, intent: OrderIntent)
    ensures StateForBrokerStatus(WordFor(b, intent)) == OutcomeState(b, intent)
  {
    FilledWord();
    assert Strip("rejected") == "rejected" && Lower("rejected") == "rejected";
    assert Strip("accepted") == "accepted" && Lower("accepted") == "accepted";
  }

  function AnsweredRow(b: Broker, intent: OrderIntent): OrderRow
    requires intent.Valid()
  {
    OrderRow(OutcomeState(b, intent), if Fills(b, intent) then intent.Shares() else 0.0, Some(BrokerIdFor(intent.clientId)),
             if Fills(b, intent) then Some(intent.referencePrice) else None)
  }

  function PushedKey(b: Broker, intent: OrderIntent): EventKey {
    UpdateKey(ByEvent("fake:" + intent.clientId + ":" + WordFor(b, intent)))
  }

  /** Neither the answer nor the pushed update has been logged before. */
  ghost predicate NoNews(s: Store, b: Broker, intent: OrderIntent) {
    && Unanswered(s, intent.clientId, BrokerIdFor(intent.clientId))
    && !HasEvent(s, PushedKey(b, intent)) && !HasFill(s, UpdateFill(PushedKey(b, intent).mark))
  }

  /** The fill a pushed update brings. */
  function PushedFills(b: Broker, intent: OrderIntent): seq<FillRow>
    requires intent.Valid()
  {
    if Fills(b, intent) then [FillRow(UpdateFill(PushedKey(b, intent).mark), intent.clientId, intent.Shares(), intent.referencePrice)]
    else []
  }

  lemma BookedQuantity(b: Broker, intent: OrderIntent, order: BrokerOrder)
    requires intent.Valid() && Books(b, intent, order)
    ensures order.filledQuantity == if Fills(b, intent) then intent.Shares() else 0.0
  {
    if Fills(b, intent) {
      SameFactor(order.filledQuantity, intent.Shares(), intent.referencePrice);
    }
  }

  lemma SameFactor(a: real, b: real, c: real)
    requires Worth(a, c) == Worth(b, c) && c > 0.0
    ensures a == b
  {
    assert a == Worth(a, c) / c && b == Worth(b, c) / c;
  }

  ghost predicate InTheBook(b: Broker, intent: OrderIntent, order: BrokerOrder)
    requires intent.Valid()
  {
    Books(b, intent, order) && order.filledQuantity == if Fills(b, intent) then intent.Shares() else 0.0
  }

  /** The event of a pushed update, and the one of the answer. */
  function Pushing(b: Broker, intent: OrderIntent): OrderEvent {
    OrderEvent(PushedKey(b, intent), intent.clientId, SubmissionStarted, OutcomeState(b, intent))
  }

  function Answering(b: Broker, intent: OrderIntent, order: BrokerOrder, from: LocalOrderState): OrderEvent {
    OrderEvent(ResponseKey(order.brokerId, order.status, order.filledQuantity), intent.clientId, from, OutcomeState(b, intent))
  }

  lemma PushMoves(s: Store, b: Broker, intent: OrderIntent, order: BrokerOrder)
    requires intent.Valid() && InTheBook(b, intent, order) && NoNews(s, b, intent)
    ensures var id := intent.clientId;
            MoveOrder(Begun(s, intent), UpdateWrite(SubmissionUpdate(order))) ==
            (Grown(s, intent, AnsweredRow(b, intent), [Reserving(id), Starting(id), Pushing(b, intent)], []), Ok(true))
  {
    var id := intent.clientId;
    WordsMean(b, intent);
    assert SubmissionUpdate(order).Fingerprint() == PushedKey(b, intent).mark;
    MoveGrows(s, intent, STARTED, [Reserving(id), Starting(id)], [], UpdateWrite(SubmissionUpdate(order)));
    assert [Reserving(id), Starting(id)] + [Pushing(b, intent)] == [Reserving(id), Starting(id), Pushing(b, intent)];
  }

  lemma PushBrings(b: Broker, intent: OrderIntent, order: BrokerOrder)
    requires intent.Valid() && InTheBook(b, intent, order)
    ensures FillFor(SubmissionUpdate(order), 0.0) == if Fills(b, intent) then Some(PushedFills(b, intent)[0]) else None
  {
    WordsMean(b, intent);
  }

  /** The pushed update moves the started row to the outcome and records the fill. */
  lemma PushIsHandled(s: Store, b: Broker, intent: OrderIntent, order: BrokerOrder)
    requires intent.Valid() && InTheBook(b, intent, order) && NoNews(s, b, intent)
    ensures var id := intent.clientId;
            HandleUpdate(Begun(s, intent), SubmissionUpdate(order), false) ==
            (Grown(s, intent, AnsweredRow(b, intent), [Reserving(id), Starting(id), Pushing(b, intent)], PushedFills(b, intent)), Ok(true))
  {
    var id, u := intent.clientId, SubmissionUpdate(order);
    PushMoves(s, b, intent, order);
    PushBrings(b, intent, order);
    assert u.Fingerprint() == PushedKey(b, intent).mark;
    assert !HasEvent(Begun(s, intent), UpdateKey(u.Fingerprint()));
    assert s.fills + [] == s.fills;
  }

  /** The answer moves the row to the outcome, or confirms the outcome the update had brought. */
  lemma AnswerMoves(s: Store, b: Broker, intent: OrderIntent, order: BrokerOrder, row: OrderRow, log: seq<OrderEvent>, fills: seq<FillRow>)
    requires intent.Valid() && InTheBook(b, intent, order) && Unanswered(s, intent.clientId, order.brokerId)
    requires row in {STARTED, AnsweredRow(b, intent)}
    requires forall i :: 0 <= i < |log| ==> !log[i].key.ResponseKey?
    ensures MoveOrder(Grown(s, intent, row, log, fills), ResponseWrite(intent, order)) ==
            (Grown(s, intent, AnsweredRow(b, intent), log + [Answering(b, intent, order, row.state)], fills), Ok(true))
  {
    WordsMean(b, intent);
    MoveGrows(s, intent, row, log, fills, ResponseWrite(intent, order));
  }

  /** The events of an answered submission after its reservation. */
  function AnsweredLog(b: Broker, intent: OrderIntent, order: BrokerOrder, subscribed: bool): seq<OrderEvent> {
    if subscribed then [Starting(intent.clientId), Pushing(b, intent), Answering(b, intent, order, OutcomeState(b, intent))]
    else [Starting(intent.clientId), Answering(b, intent, order, SubmissionStarted)]
  }

  lemma PushedThenAnswered(s: Store, b: Broker, intent: OrderIntent, order: BrokerOrder)
    requires intent.Valid() && InTheBook(b, intent, order) && Unanswered(s, intent.clientId, order.brokerId)
    ensures var id := intent.clientId;
            MoveOrder(Grown(s, intent, AnsweredRow(b, intent), [Reserving(id), Starting(id), Pushing(b, intent)], PushedFills(b, intent)),
                      ResponseWrite(intent, order)) ==
            (Grown(s, intent, AnsweredRow(b, intent), [Reserving(id)] + AnsweredLog(b, intent, order, true), PushedFills(b, intent)), Ok(true))
  {
    var id, answer := intent.clientId, Answering(b, intent, order, OutcomeState(b, intent));
    AnswerMoves(s, b, intent, order, AnsweredRow(b, intent), [Reserving(id), Starting(id), Pushing(b, intent)], PushedFills(b, intent));
    assert [Reserving(id), Starting(id), Pushing(b, intent)] + [answer] == [Reserving(id)] + [Starting(id), Pushing(b, intent), answer];
  }

  lemma PushedReplyIsTaken(s: Store, b: Broker, intent: OrderIntent, order: BrokerOrder)
    requires intent.Valid() && InTheBook(b, intent, order) && NoNews(s, b, intent)
    ensures TakeReply(Begun(s, intent), intent, Returned(order, Some(SubmissionUpdate(order))), true) ==
            (Grown(s, intent, AnsweredRow(b, intent), [Reserving(intent.clientId)] + AnsweredLog(b, intent, order, true), PushedFills(b, intent)),
             Ok(Some(order)))
  {
    PushIsHandled(s, b, intent, order);
    PushedThenAnswered(s, b, intent, order);
  }

  lemma BareReplyIsTaken(s: Store, b: Broker, intent: OrderIntent, order: BrokerOrder)
    requires intent.Valid() && InTheBook(b, intent, order) && NoNews(s, b, intent)
    ensures TakeReply(Begun(s, intent), intent, Returned(order, Some(SubmissionUpdate(order))), false) ==
            (Grown(s, intent, AnsweredRow(b, intent), [Reserving(intent.clientId)] + AnsweredLog(b, intent, order, false), []),
             Ok(Some(order)))
  {
    var id, answer := intent.clientId, Answering(b, intent, order, SubmissionStarted);
    AnswerMoves(s, b, intent, order, STARTED, [Reserving(id), Starting(id)], []);
    assert [Reserving(id), Starting(id)] + [answer] == [Reserving(id)] + [Starting(id), answer];
  }

  lemma AnsweredStates(b: Broker, intent: OrderIntent, order: BrokerOrder, subscribed: bool)
    ensures var outcome := OutcomeState(b, intent);
            Entered(AnsweredLog(b, intent, order, subscribed), intent.clientId)
            == if subscribed then [SubmissionStarted, outcome, outcome] else [SubmissionStarted, outcome]
  {
    var id, outcome := intent.clientId, OutcomeState(b, intent);
    StatesOf(Starting(id), Pushing(b, intent), Answering(b, intent, order, outcome));
    StatesOf(Starting(id), Answering(b, intent, order, SubmissionStarted), Answering(b, intent, order, outcome));
  }

  /**
   An answered submission: the row carries the broker's outcome, the history names it once for the answer and
   once more for a pushed update, and only a pushed update brings the fill into the ledger.
   */
  lemma AnsweredSubmission(w: World, intent: OrderIntent, subscribed: bool)
    requires intent.Valid() && Free(w.store, intent) && Accepts(w.broker, intent)
    requires NoNews(w.store, w.broker, intent) && intent.clientId !in w.broker.timeoutIds
    ensures var (w', r) := SubmitIntent(w, intent, subscribed);
            var outcome := OutcomeState(w.broker, intent);
            && Took(w.broker, w'.broker, intent) && r == Ok(Some(w'.broker.orders[intent.clientId]))
            && Became(w.store, w'.store, intent, AnsweredRow(w.broker, intent),
                      if subscribed then [SubmissionStarted, outcome, outcome] else [SubmissionStarted, outcome],
                      if subscribed then PushedFills(w.broker, intent) else [])
  {
    var b, s := w.broker, w.store;
    AsksTheBroker(w, intent, subscribed);
    BrokerTakes(b, intent);
    var order := SubmitOrder(b, intent).0.orders[intent.clientId];
    BookedQuantity(b, intent, order);
    OwnKeysAreFree(s, intent.clientId);
    if subscribed {
      PushedReplyIsTaken(s, b, intent, order);
    } else {
      BareReplyIsTaken(s, b, intent, order);
    }
    GrownBecame(s, intent, AnsweredRow(b, intent), AnsweredLog(b, intent, order, subscribed),
                if subscribed then PushedFills(b, intent) else []);
    AnsweredStates(b, intent, order, subscribed);
  }

  // ---------------------------------------------------------------- refusals

  /** The broker would have to go short, or fill on margin. */
  predicate Refuses(b: Broker, intent: OrderIntent)
    requires intent.Valid()
  {
    && intent.clientId !in b.orders
    && (|| (intent.side == Sell && intent.Shares() > Held(b.ledger, intent.symbol))
        || (Fills(b, intent) && intent.side == Buy && intent.EstimatedNotional() > b.ledger.cash))
  }

  lemma RefusedOrAccepted(b: Broker, intent: OrderIntent)
    requires intent.Valid() && Nonnegative(b.ledger) && intent.clientId !in b.orders
    ensures Accepts(b, intent) <==> !Refuses(b, intent)
  {
    IntentWorth(intent);
    RefusedExactlyWhen(b.ledger, IntentFill(intent));
  }

  /** A refusal reaches the caller, leaves ledger and fills alone and the row started; a short sale is not even booked. */
  lemma RefusedSubmission(w: World, intent: OrderIntent, subscribed: bool)
    requires intent.Valid() && Free(w.store, intent) && Nonnegative(w.broker.ledger) && Refuses(w.broker, intent)
    ensures var (w', r) := SubmitIntent(w, intent, subscribed);
            && r == Err(BrokerRefused)
            && Became(w.store, w'.store, intent, STARTED, [SubmissionStarted], [])
            && w'.broker == w.broker.(orders := w'.broker.orders, submitCalls := w.broker.submitCalls + 1)
            && (intent.side == Sell ==> w'.broker.orders == w.broker.orders)
            && (intent.side == Buy ==> intent.clientId in w'.broker.orders && Books(w.broker, intent, w'.broker.orders[intent.clientId])
                                       && w'.broker.orders == w.broker.orders[intent.clientId := w'.broker.orders[intent.clientId]])
  {
    AsksTheBroker(w, intent, subscribed);
    IntentWorth(intent);
    RefusedExactlyWhen(w.broker.ledger, IntentFill(intent));
    BegunBecame(w.store, intent);
  }

  lemma BegunBecame(s: Store, intent: OrderIntent)
    requires Free(s, intent)
    ensures Became(s, Begun(s, intent), intent, STARTED, [SubmissionStarted], [])
  {
    var id := intent.clientId;
    OwnKeysAreFree(s, id);
    GrownBecame(s, intent, STARTED, [Starting(id)], []);
    StatesOf(Starting(id), Starting(id), Starting(id));
    assert [Reserving(id)] + [Starting(id)] == [Reserving(id), Starting(id)];
  }

  // ---------------------------------------------------------------- an order the broker already has

  function BrokerRow(order: BrokerOrder): OrderRow {
    OrderRow(StateForBrokerStatus(order.status), order.filledQuantity, Some(order.brokerId), order.averageFillPrice)
  }

  /** How an unseen intent with an order in the book goes through the store: only a replaced order does not fit. */
  ghost predicate Adopted(w: World, w': World, intent: OrderIntent, order: BrokerOrder, started: bool, r: Submission) {
    var state, before := StateForBrokerStatus(order.status), if started then [SubmissionStarted] else [];
    && w'.broker == w.broker
    && (if state != Replaced
        then r == Ok(Some(order)) && Became(w.store, w'.store, intent, BrokerRow(order), before + [state], [])
        else r == Err(InvalidTransition)
             && Became(w.store, w'.store, intent, if started then STARTED else RESERVED, before, []))
  }

  lemma EntersFromTheStart(order: BrokerOrder)
    ensures var state := StateForBrokerStatus(order.status);
            && (CanTransition(LocallyReserved, state) <==> state != Replaced)
            && (CanTransition(SubmissionStarted, state) <==> state != Replaced)
  {
    BrokerStatusIsExternal(order.status);
  }

  lemma OverMoves(s: Store, intent: OrderIntent, order: BrokerOrder, row: OrderRow, log: seq<OrderEvent>, w: Write)
    requires Unanswered(s, intent.clientId, order.brokerId)
    requires row in {RESERVED, STARTED} && w in {ResponseWrite(intent, order), ExistingWrite(intent, order)}
    requires forall i :: 0 <= i < |log| ==> !log[i].key.ResponseKey? && !log[i].key.ExistingKey?
    ensures MoveOrder(Grown(s, intent, row, log, []), w) ==
            if w.target != Replaced
            then (Grown(s, intent, BrokerRow(order), log + [OrderEvent(w.key, intent.clientId, row.state, w.target)], []), Ok(true))
            else (Grown(s, intent, row, log, []), Err(InvalidTransition))
  {
    EntersFromTheStart(order);
    if w.target != Replaced {
      MoveGrows(s, intent, row, log, [], w);
    }
  }

  /** The move that takes the broker's order over, from a row in the state before it. */
  lemma {:induction false} TakenOver(s: Store, intent: OrderIntent, order: BrokerOrder, row: OrderRow, log: seq<OrderEvent>, w: Write)
    requires Unanswered(s, intent.clientId, order.brokerId) && Entered(s.events, intent.clientId) == []
    requires row in {RESERVED, STARTED} && w in {ResponseWrite(intent, order), ExistingWrite(intent, order)}
    requires AllOf(log, intent.clientId) && forall i :: 0 <= i < |log| ==> !log[i].key.ResponseKey? && !log[i].key.ExistingKey?
    ensures var before := Grown(s, intent, row, [Reserving(intent.clientId)] + log, []);
            var (s', moved) := MoveOrder(before, w);
            if w.target != Replaced
            then moved == Ok(true) && Became(s, s', intent, BrokerRow(order), Entered(log, intent.clientId) + [w.target], [])
            else moved == Err(InvalidTransition) && s' == before
  {
    var id := intent.clientId;
    OverMoves(s, intent, order, row, [Reserving(id)] + log, w);
    if w.target != Replaced {
      var over := OrderEvent(w.key, id, row.state, w.target);
      assert [Reserving(id)] + log + [over] == [Reserving(id)] + (log + [over]);
      GrownBecame(s, intent, BrokerRow(order), log + [over], []);
      EnteredAppend(log, over, id);
    }
  }

  lemma ReservedBecame(s: Store, intent: OrderIntent)
    requires Free(s, intent)
    ensures Became(s, Reserve(s, intent).0, intent, RESERVED, [], [])
  {
    ReservationIsNew(s, intent);
    OwnKeysAreFree(s, intent.clientId);
    GrownBecame(s, intent, RESERVED, [], []);
    assert [Reserving(intent.clientId)] + [] == [Reserving(intent.clientId)];
  }

  /** An order as recent as the intent is adopted without asking the broker. */
  lemma RecentOrderIsAdopted(w: World, intent: OrderIntent, subscribed: bool, order: BrokerOrder)
    requires intent.Valid() && Free(w.store, intent)
    requires intent.clientId in w.broker.orders && w.broker.orders[intent.clientId] == order
    requires order.updatedAt >= intent.createdAt && Unanswered(w.store, intent.clientId, order.brokerId)
    ensures var (w', r) := SubmitIntent(w, intent, subscribed);
            Adopted(w, w', intent, order, false, r)
  {
    ReservationIsNew(w.store, intent);
    ReservedBecame(w.store, intent);
    OwnKeysAreFree(w.store, intent.clientId);
    assert [Reserving(intent.clientId)] + [] == [Reserving(intent.clientId)];
    TakenOver(w.store, intent, order, RESERVED, [], ExistingWrite(intent, order));
  }

  /** An older order is found only by submitting, and the broker then answers with it and counts no submission. */
  lemma OlderOrderIsFound(w: World, intent: OrderIntent, subscribed: bool, order: BrokerOrder)
    requires intent.Valid() && Free(w.store, intent)
    requires intent.clientId in w.broker.orders && w.broker.orders[intent.clientId] == order
    requires order.updatedAt < intent.createdAt && Unanswered(w.store, intent.clientId, order.brokerId)
    ensures var (w', r) := SubmitIntent(w, intent, subscribed);
            Adopted(w, w', intent, order, true, r)
  {
    SubmissionBegins(w.store, intent);
    BegunBecame(w.store, intent);
    var id := intent.clientId;
    OwnKeysAreFree(w.store, id);
    assert [Reserving(id)] + [Starting(id)] == [Reserving(id), Starting(id)];
    StatesOf(Starting(id), Starting(id), Starting(id));
    TakenOver(w.store, intent, order, STARTED, [Starting(id)], ResponseWrite(intent, order));
  }
}
