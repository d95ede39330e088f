/** A planned batch nobody has seen before, run against the auto-filling broker, fills completely. */
module FreshBatch {
  import opened Prelude
  import opened LiveModels
  import opened OrderStates
  import opened OrderStore
  import opened OrderWrites
  import opened PaperLedger
  import opened FakeBroker
  import opened OrderManager
  import opened OrderExecution

  /** Event keys that handling this intent may write. */
  predicate Mentions(key: EventKey, id: ClientId) {
    || key == ReserveKey(id)
    || key == StartedKey(id)
    || key == UpdateKey(ByEvent("fake:" + id + ":" + "filled"))
    || (key.ResponseKey? && key.brokerId == BrokerIdFor(id))
  }

  /** Nothing in the store or at the broker stems from this client id. */
  ghost predicate Unseen(w: World, id: ClientId) {
    && id !in w.store.intents && id !in w.store.orders && id !in w.broker.orders
    && (forall e :: e in w.store.events ==> !Mentions(e.key, id))
    && (forall c :: c in w.store.orders ==> w.store.orders[c].brokerId != Some(BrokerIdFor(id)))
  }

  predicate Calm(b: Broker) { b.autoFill && b.rejectIds == {} && b.timeoutIds == {} }

  function FilledOrder(b: Broker, intent: OrderIntent): BrokerOrder
    requires intent.Valid()
  {
    MakeOrder(b, intent, "filled")
  }

  function FilledRow(b: Broker, intent: OrderIntent): OrderRow
    requires intent.Valid()
  {
    OrderRow(LocalOrderState.Filled, intent.Shares(), Some(BrokerIdFor(intent.clientId)), Some(intent.referencePrice))
  }

  /** The store moves on for one order only, and logs only that order's keys. */
  ghost predicate OnlyTouches(s: Store, s': Store, id: ClientId) {
    && s.events <= s'.events
    && (forall i :: |s.events| <= i < |s'.events| ==> Mentions(s'.events[i].key, id))
  }

  lemma StartFresh(s: Store, intent: OrderIntent)
    requires intent.clientId in s.orders && s.orders[intent.clientId] == OrderRow(LocallyReserved, 0.0, None, None)
    requires !HasEvent(s, StartedKey(intent.clientId))
    ensures var (s', r) := MoveOrder(s, StartWrite(intent));
            && r == Ok(true)
            && s'.orders == s.orders[intent.clientId := OrderRow(SubmissionStarted, 0.0, None, None)]
            && s'.intents == s.intents
            && s'.events == s.events + [OrderEvent(StartedKey(intent.clientId), intent.clientId, LocallyReserved, SubmissionStarted)]
  {
  }

  /** From a started or already filled row, taking the filled answer leaves the row filled. */
  lemma TakeFilled(s: Store, w: Write, b: Broker, intent: OrderIntent)
    requires intent.Valid() && intent.clientId in s.orders
    requires s.orders[intent.clientId] in {OrderRow(SubmissionStarted, 0.0, None, None), FilledRow(b, intent)}
    requires w.clientId == intent.clientId && w.target == LocalOrderState.Filled
    requires w.brokerId == Some(BrokerIdFor(intent.clientId)) && w.filled == Some(intent.Shares())
    requires w.averagePrice == Some(intent.referencePrice)
    requires !HasEvent(s, w.key)
    requires forall c :: c in s.orders && c != intent.clientId ==> s.orders[c].brokerId != Some(BrokerIdFor(intent.clientId))
    ensures var (s', r) := MoveOrder(s, w);
            && r == Ok(true)
            && s'.orders == s.orders[intent.clientId := FilledRow(b, intent)]
            && s'.intents == s.intents
            && s'.events == s.events + [OrderEvent(w.key, intent.clientId, s.orders[intent.clientId].state, LocalOrderState.Filled)]
  {
  }

  /** Apart from reserving and starting, the store has no event of this order. */
  ghost predicate JustStarted(s: Store, id: ClientId) {
    && id in s.orders && s.orders[id] == OrderRow(SubmissionStarted, 0.0, None, None)
    && (forall e :: e in s.events && Mentions(e.key, id) ==> e.key.ReserveKey? || e.key.StartedKey?)
    && (forall c :: c in s.orders && c != id ==> s.orders[c].brokerId != Some(BrokerIdFor(id)))
  }

  /** The row is filled, and one fill or response event of the order was logged. */
  ghost predicate Settled(s: Store, s': Store, b: Broker, intent: OrderIntent)
    requires intent.Valid()
  {
    && s'.orders == s.orders[intent.clientId := FilledRow(b, intent)]
    && s'.intents == s.intents
    && OnlyTouches(s, s', intent.clientId)
  }

  lemma PushedFill(s: Store, b: Broker, intent: OrderIntent)
    requires intent.Valid() && JustStarted(s, intent.clientId)
    ensures var order := FilledOrder(b, intent);
            var (s1, handled) := HandleUpdate(s, SubmissionUpdate(order), false);
            handled.Ok? && Settled(s, s1, b, intent) && !HasEvent(s1, ResponseWrite(intent, order).key)
  {
    FilledWord();
    var u := SubmissionUpdate(FilledOrder(b, intent));
    assert u.Fingerprint() == ByEvent("fake:" + intent.clientId + ":" + "filled");
    assert !HasEvent(s, UpdateKey(u.Fingerprint()));
    TakeFilled(s, UpdateWrite(u), b, intent);
  }

  lemma AnsweredFill(s: Store, s1: Store, b: Broker, intent: OrderIntent)
    requires intent.Valid() && JustStarted(s, intent.clientId)
    requires s1 == s || Settled(s, s1, b, intent)
    requires !HasEvent(s1, ResponseWrite(intent, FilledOrder(b, intent)).key)
    ensures var (s2, moved) := MoveOrder(s1, ResponseWrite(intent, FilledOrder(b, intent)));
            moved.Ok? && Settled(s, s2, b, intent)
  {
    FilledWord();
    TakeFilled(s1, ResponseWrite(intent, FilledOrder(b, intent)), b, intent);
    assert s.orders[intent.clientId := FilledRow(b, intent)][intent.clientId := FilledRow(b, intent)]
        == s.orders[intent.clientId := FilledRow(b, intent)];
  }

  /** The pushed update, if there is a handler, and then the answer. */
  lemma TakeFilledReply(s: Store, b: Broker, intent: OrderIntent, subscribed: bool)
    requires intent.Valid() && JustStarted(s, intent.clientId)
    ensures var order := FilledOrder(b, intent);
            var (s', r) := TakeReply(s, intent, Returned(order, Some(SubmissionUpdate(order))), subscribed);
            r == Ok(Some(order)) && Settled(s, s', b, intent)
  {
    var order := FilledOrder(b, intent);
    if subscribed {
      PushedFill(s, b, intent);
      AnsweredFill(s, HandleUpdate(s, SubmissionUpdate(order), false).0, b, intent);
    } else {
      assert !HasEvent(s, ResponseWrite(intent, order).key);
      AnsweredFill(s, s, b, intent);
    }
  }

  lemma SubmitFills(b: Broker, intent: OrderIntent)
    requires intent.Valid() && Calm(b) && intent.clientId !in b.orders
    requires intent.side == Sell ==> intent.Shares() <= Held(b.ledger, intent.symbol)
    requires ApplyFill(b.ledger, IntentFill(intent)).Ok?
    ensures var order := FilledOrder(b, intent);
            SubmitOrder(b, intent) ==
            (b.(ledger := ApplyFill(b.ledger, IntentFill(intent)).value,
                orders := b.orders[intent.clientId := order],
                submitCalls := b.submitCalls + 1),
             Returned(order, Some(SubmissionUpdate(order))))
  {
  }

  /** Reserving and starting an unseen intent. */
  lemma UnseenIntentStarts(w: World, intent: OrderIntent)
    requires Unseen(w, intent.clientId) && KeyFor(intent) !in w.store.intents.Values
    ensures Reserve(w.store, intent).1
    ensures var (s2, started) := MoveOrder(Reserve(w.store, intent).0, StartWrite(intent));
            && started.Ok? && JustStarted(s2, intent.clientId)
            && s2.orders == w.store.orders[intent.clientId := OrderRow(SubmissionStarted, 0.0, None, None)]
            && s2.intents == w.store.intents[intent.clientId := KeyFor(intent)]
            && OnlyTouches(w.store, s2, intent.clientId)
  {
    var id := intent.clientId;
    var (s1, reserved) := Reserve(w.store, intent);
    assert !HasEvent(w.store, ReserveKey(id));
    assert reserved && s1.events == w.store.events + [OrderEvent(ReserveKey(id), id, Planned, LocallyReserved)];
    assert !HasEvent(s1, StartedKey(id));
    StartFresh(s1, intent);
    assert s1.orders[id := OrderRow(SubmissionStarted, 0.0, None, None)]
        == w.store.orders[id := OrderRow(SubmissionStarted, 0.0, None, None)];
  }

  lemma StartedThenSettled(s: Store, s2: Store, s3: Store, b: Broker, intent: OrderIntent)
    requires intent.Valid() && Settled(s2, s3, b, intent)
    requires s2.orders == s.orders[intent.clientId := OrderRow(SubmissionStarted, 0.0, None, None)]
    requires OnlyTouches(s, s2, intent.clientId)
    ensures s3.orders == s.orders[intent.clientId := FilledRow(b, intent)]
    ensures OnlyTouches(s, s3, intent.clientId)
  {
  }

  /** One unseen, fillable intent: filled at the broker, its row filled, nothing else disturbed. */
  lemma UnseenIntentFills(w: World, intent: OrderIntent, subscribed: bool)
    requires intent.Valid() && Calm(w.broker) && Unseen(w, intent.clientId)
    requires KeyFor(intent) !in w.store.intents.Values
    requires intent.side == Sell ==> intent.Shares() <= Held(w.broker.ledger, intent.symbol)
    requires ApplyFill(w.broker.ledger, IntentFill(intent)).Ok?
    ensures var (w', r) := SubmitIntent(w, intent, subscribed);
            && r == Ok(Some(FilledOrder(w.broker, intent)))
            && w'.broker.ledger == ApplyFill(w.broker.ledger, IntentFill(intent)).value
            && Calm(w'.broker) && w'.broker.now == w.broker.now
            && w'.broker.orders == w.broker.orders[intent.clientId := FilledOrder(w.broker, intent)]
            && w'.store.orders == w.store.orders[intent.clientId := FilledRow(w.broker, intent)]
            && w'.store.intents == w.store.intents[intent.clientId := KeyFor(intent)]
            && OnlyTouches(w.store, w'.store, intent.clientId)
  {
    UnseenIntentStarts(w, intent);
    var s2 := MoveOrder(Reserve(w.store, intent).0, StartWrite(intent)).0;
    SubmitFills(w.broker, intent);
    TakeFilledReply(s2, w.broker, intent, subscribed);
    StartedThenSettled(w.store, s2, SubmitIntent(w, intent, subscribed).0.store, w.broker, intent);
  }

  lemma MentionsOne(key: EventKey, a: ClientId, b: ClientId)
    requires Mentions(key, a) && Mentions(key, b)
    ensures a == b
  {
    if key.UpdateKey? {
      var t := "fake:" + a + ":" + "filled";
      assert t == "fake:" + b + ":" + "filled";
      assert t[5..5 + |a|] == a;
      assert t[5..5 + |b|] == b;
      assert |a| == |b|;
    } else if key.ResponseKey? {
      assert BrokerIdFor(a)[6..] == a && BrokerIdFor(b)[6..] == b;
    }
  }

  lemma StillUnseen(w: World, w': World, done: ClientId, id: ClientId, b: Broker, intent: OrderIntent)
    requires Unseen(w, id) && done != id && intent.Valid() && intent.clientId == done
    requires w'.store.orders == w.store.orders[done := FilledRow(b, intent)]
    requires w'.store.intents == w.store.intents[done := KeyFor(intent)]
    requires w'.broker.orders == w.broker.orders[done := FilledOrder(b, intent)]
    requires OnlyTouches(w.store, w'.store, done)
    ensures Unseen(w', id)
  {
    forall e | e in w'.store.events
      ensures !Mentions(e.key, id)
    {
      var i :| 0 <= i < |w'.store.events| && w'.store.events[i] == e;
      if i < |w.store.events| {
        assert e == w.store.events[i];
      } else if Mentions(e.key, id) {
        MentionsOne(e.key, done, id);
      }
    }
    assert BrokerIdFor(done)[6..] == done && BrokerIdFor(id)[6..] == id;
  }

  // ---------------------------------------------------------------- the whole batch

  /** All fills of a batch, in order; none of a funded batch is refused. */
  ghost function ApplyAll(l: Ledger, intents: seq<OrderIntent>): Ledger
    requires Funded(l, intents)
    decreases |intents|
  {
    if intents == [] then l
    else
      RestStaysFunded(l, intents, l);
      var l1 := ApplyFill(l, IntentFill(intents[0])).value;
      RestStaysFunded(l, intents, l1);
      ApplyAll(l1, intents[1..])
  }

  ghost predicate UnseenBatch(w: World, intents: seq<OrderIntent>) {
    && (forall i :: i in intents ==> Unseen(w, i.clientId) && KeyFor(i) !in w.store.intents.Values)
    && (forall i, j :: 0 <= i < j < |intents| ==> intents[i].clientId != intents[j].clientId)
    && (forall i, j :: 0 <= i < j < |intents| ==> KeyFor(intents[i]) != KeyFor(intents[j]))
  }

  lemma RestUnseen(w: World, intents: seq<OrderIntent>, w': World)
    requires intents != [] && UnseenBatch(w, intents) && intents[0].Valid()
    requires w'.store.orders == w.store.orders[intents[0].clientId := FilledRow(w.broker, intents[0])]
    requires w'.store.intents == w.store.intents[intents[0].clientId := KeyFor(intents[0])]
    requires w'.broker.orders == w.broker.orders[intents[0].clientId := FilledOrder(w.broker, intents[0])]
    requires OnlyTouches(w.store, w'.store, intents[0].clientId)
    ensures UnseenBatch(w', intents[1..])
  {
    forall i | i in intents[1..]
      ensures Unseen(w', i.clientId) && KeyFor(i) !in w'.store.intents.Values
    {
      var k :| 0 <= k < |intents[1..]| && intents[1..][k] == i;
      assert intents[k + 1] == i;
      StillUnseen(w, w', intents[0].clientId, i.clientId, w.broker, intents[0]);
    }
  }

  ghost predicate RowsKept(s: Store, s': Store) {
    forall c :: c in s.orders ==> c in s'.orders && s'.orders[c] == s.orders[c]
  }

  ghost predicate RowsFilled(s: Store, intents: seq<OrderIntent>) {
    forall i :: i in intents ==> i.clientId in s.orders && s.orders[i.clientId].state == LocalOrderState.Filled
  }

  ghost predicate AllFilled(r: Result<seq<Option<BrokerOrder>>, Failure>, n: nat) {
    r.Ok? && |r.value| == n && forall k :: 0 <= k < n ==> r.value[k].Some? && r.value[k].value.status == "filled"
  }

  /** The first part of a batch went through in full and the rest is as fresh and funded as before. */
  ghost predicate Through(w: World, now: seq<OrderIntent>, later: seq<OrderIntent>, w': World)
    requires Funded(w.broker.ledger, now + later)
  {
    && Funded(w'.broker.ledger, later) && Calm(w'.broker) && UnseenBatch(w', later)
    && ApplyAll(w.broker.ledger, now + later) == ApplyAll(w'.broker.ledger, later)
    && RowsKept(w.store, w'.store) && RowsFilled(w'.store, now)
  }

  lemma ThroughStep(w: World, now: seq<OrderIntent>, later: seq<OrderIntent>, w1: World, w2: World)
    requires now != [] && Funded(w.broker.ledger, now + later)
    requires ApplyFill(w.broker.ledger, IntentFill(now[0])).Ok?
    requires w1.broker.ledger == ApplyFill(w.broker.ledger, IntentFill(now[0])).value
    requires Funded(w1.broker.ledger, now[1..] + later)
    requires RowsKept(w.store, w1.store) && RowsFilled(w1.store, [now[0]])
    requires Through(w1, now[1..], later, w2)
    ensures Through(w, now, later, w2)
  {
    var all := now + later;
    assert all[0] == now[0] && all[1..] == now[1..] + later;
    assert now[0] in [now[0]];
    assert now == [now[0]] + now[1..];
  }

  lemma FirstFills(w: World, all: seq<OrderIntent>, subscribed: bool)
    requires all != [] && Funded(w.broker.ledger, all) && Calm(w.broker) && UnseenBatch(w, all)
    ensures all[0].Valid()
    ensures var (w1, first) := SubmitIntent(w, all[0], subscribed);
            && first.Ok? && first.value.Some? && first.value.value.status == "filled"
            && ApplyFill(w.broker.ledger, IntentFill(all[0])).Ok?
            && w1.broker.ledger == ApplyFill(w.broker.ledger, IntentFill(all[0])).value
            && Funded(w1.broker.ledger, all[1..]) && Calm(w1.broker) && UnseenBatch(w1, all[1..])
            && RowsKept(w.store, w1.store) && RowsFilled(w1.store, [all[0]])
  {
    assert all[0] in all;
    RestStaysFunded(w.broker.ledger, all, w.broker.ledger);
    UnseenIntentFills(w, all[0], subscribed);
    var w1 := SubmitIntent(w, all[0], subscribed).0;
    RestStaysFunded(w.broker.ledger, all, w1.broker.ledger);
    RestUnseen(w, all, w1);
  }

  ghost predicate Ready(w: World, intents: seq<OrderIntent>) {
    Funded(w.broker.ledger, intents) && Calm(w.broker) && UnseenBatch(w, intents)
  }

  lemma ReadyIsValid(w: World, now: seq<OrderIntent>, later: seq<OrderIntent>)
    requires Ready(w, now + later)
    ensures forall i :: i in now ==> i.Valid()
  {
    forall i | i in now
      ensures i.Valid()
    {
      assert i in now + later;
    }
  }

  lemma FirstOfBatchFills(w: World, now: seq<OrderIntent>, later: seq<OrderIntent>, subscribed: bool)
    requires Ready(w, now + later) && now != []
    ensures now[0].Valid()
    ensures var (w1, first) := SubmitIntent(w, now[0], subscribed);
            && first.Ok? && first.value.Some? && first.value.value.status == "filled"
            && ApplyFill(w.broker.ledger, IntentFill(now[0])).Ok?
            && w1.broker.ledger == ApplyFill(w.broker.ledger, IntentFill(now[0])).value
            && Ready(w1, now[1..] + later)
            && RowsKept(w.store, w1.store) && RowsFilled(w1.store, [now[0]])
  {
    var all := now + later;
    assert all[0] == now[0] && all[1..] == now[1..] + later;
    FirstFills(w, all, subscribed);
  }

  lemma OneThenAll(w: World, now: seq<OrderIntent>, subscribed: bool)
    requires now != [] && forall i :: i in now ==> i.Valid()
    requires SubmitIntent(w, now[0], subscribed).1.Ok? && SubmitIntent(w, now[0], subscribed).1.value.Some?
    requires SubmitIntent(w, now[0], subscribed).1.value.value.status == "filled"
    requires AllFilled(SubmitAll(SubmitIntent(w, now[0], subscribed).0, now[1..], subscribed).1, |now| - 1)
    ensures AllFilled(SubmitAll(w, now, subscribed).1, |now|)
    ensures SubmitAll(w, now, subscribed).0 == SubmitAll(SubmitIntent(w, now[0], subscribed).0, now[1..], subscribed).0
  {
  }

  lemma {:induction false} UnseenBatchFills(w: World, now: seq<OrderIntent>, later: seq<OrderIntent>, subscribed: bool)
    requires Ready(w, now + later)
    ensures forall i :: i in now ==> i.Valid()
    ensures AllFilled(SubmitAll(w, now, subscribed).1, |now|)
    ensures Through(w, now, later, SubmitAll(w, now, subscribed).0)
    decreases |now|
  {
    ReadyIsValid(w, now, later);
    if now == [] {
      assert now + later == later;
    } else {
      FirstOfBatchFills(w, now, later, subscribed);
      var w1 := SubmitIntent(w, now[0], subscribed).0;
      UnseenBatchFills(w1, now[1..], later, subscribed);
      OneThenAll(w, now, subscribed);
      ThroughStep(w, now, later, w1, SubmitAll(w1, now[1..], subscribed).0);
    }
  }

  /** The sells of a batch and then its buys, nothing in between. */
  ghost function SellsThenBuys(w: World, intents: seq<OrderIntent>, sells: nat, subscribed: bool): World
    requires sells <= |intents| && forall i :: i in intents ==> i.Valid()
  {
    assert intents == intents[..sells] + intents[sells..];
    SubmitAll(SubmitAll(w, intents[..sells], subscribed).0, intents[sells..], subscribed).0
  }

  /**
   Running an unseen, funded, planned batch against the calm auto-filling broker, with a callback that
   neither blocks nor moves orders, fills every intent and leaves exactly the ledger of all its fills.
   */
  lemma PlannedBatchFillsCompletely(w: World, intents: seq<OrderIntent>, sells: nat, callback: Option<Callback>, subscribed: bool)
    requires Funded(w.broker.ledger, intents) && SellsFirst(intents, sells)
    requires Calm(w.broker) && UnseenBatch(w, intents)
    requires callback.Some? ==> forall s :: callback.value(s) == (s, false)
    ensures AllFilled(Execute(w, intents, callback, subscribed).1, |intents|)
    ensures Execute(w, intents, callback, subscribed).0.broker.ledger == ApplyAll(w.broker.ledger, intents)
    ensures Execute(w, intents, callback, subscribed).0 == SellsThenBuys(w, intents, sells, subscribed)
    ensures Calm(Execute(w, intents, callback, subscribed).0.broker)
  {
    PlannedOrderIsKept(intents, sells);
    var first, second := intents[..sells], intents[sells..];
    assert intents == first + second;
    UnseenBatchFills(w, first, second, subscribed);
    var (w1, sold) := SubmitAll(w, first, subscribed);
    assert !AnyUnresolved(w1.store, first) by { assert RowsFilled(w1.store, first); }
    assert Reconcile(w1.store, first, callback) == (w1.store, false);
    assert second + [] == second;
    UnseenBatchFills(w1, second, [], subscribed);
    var (w2, bought) := SubmitAll(w1, second, subscribed);
    assert Execute(w, intents, callback, subscribed) == (w2, Ok(sold.value + bought.value));
  }

  // ---------------------------------------------------------------- what a batch leaves alone

  ghost predicate NotOf(intents: seq<OrderIntent>, id: ClientId) { forall i :: i in intents ==> i.clientId != id }

  ghost predicate KeyOf(intents: seq<OrderIntent>, key: IntentKey) { exists i :: i in intents && KeyFor(i) == key }

  /** The id stays unseen, and the intents table gained at most the keys of the batch. */
  ghost predicate LeavesAlone(w: World, intents: seq<OrderIntent>, w': World, id: ClientId, key: IntentKey) {
    Unseen(w', id) && (key in w'.store.intents.Values ==> key in w.store.intents.Values || KeyOf(intents, key))
  }

  lemma FirstLeavesAlone(w: World, all: seq<OrderIntent>, subscribed: bool, id: ClientId, key: IntentKey)
    requires all != [] && Ready(w, all) && Unseen(w, id) && all[0].clientId != id
    ensures all[0].Valid()
    ensures LeavesAlone(w, [all[0]], SubmitIntent(w, all[0], subscribed).0, id, key)
  {
    assert all[0] in all;
    RestStaysFunded(w.broker.ledger, all, w.broker.ledger);
    UnseenIntentFills(w, all[0], subscribed);
    var w1 := SubmitIntent(w, all[0], subscribed).0;
    StillUnseen(w, w1, all[0].clientId, id, w.broker, all[0]);
    if key in w1.store.intents.Values {
      var c :| c in w1.store.intents && w1.store.intents[c] == key;
      assert c == all[0].clientId || w.store.intents[c] == key;
      assert all[0] in [all[0]];
    }
  }

  lemma {:induction false} BatchLeavesAlone(w: World, now: seq<OrderIntent>, later: seq<OrderIntent>, subscribed: bool,
                                           id: ClientId, key: IntentKey)
    requires Ready(w, now + later) && Unseen(w, id) && NotOf(now, id)
    ensures forall i :: i in now ==> i.Valid()
    ensures LeavesAlone(w, now, SubmitAll(w, now, subscribed).0, id, key)
    decreases |now|
  {
    ReadyIsValid(w, now, later);
    if now != [] {
      var all := now + later;
      assert all[0] == now[0] && now[0] in now;
      FirstLeavesAlone(w, all, subscribed, id, key);
      FirstOfBatchFills(w, now, later, subscribed);
      var w1 := SubmitIntent(w, now[0], subscribed).0;
      assert forall i :: i in now[1..] ==> i in now;
      BatchLeavesAlone(w1, now[1..], later, subscribed, id, key);
      UnseenBatchFills(w1, now[1..], later, subscribed);
      OneThenAll(w, now, subscribed);
      KeysCombine(w, now, w1, SubmitAll(w1, now[1..], subscribed).0, id, key);
    }
  }

  lemma KeysCombine(w: World, now: seq<OrderIntent>, w1: World, w2: World, id: ClientId, key: IntentKey)
    requires now != [] && LeavesAlone(w, [now[0]], w1, id, key) && LeavesAlone(w1, now[1..], w2, id, key)
    ensures LeavesAlone(w, now, w2, id, key)
  {
    if KeyOf(now[1..], key) {
      var i :| i in now[1..] && KeyFor(i) == key;
      assert i in now;
    }
    if KeyOf([now[0]], key) {
      assert now[0] in now;
    }
  }

  lemma HalvesLeaveAlone(w: World, first: seq<OrderIntent>, second: seq<OrderIntent>, subscribed: bool, id: ClientId, key: IntentKey)
    requires Ready(w, first + second) && Unseen(w, id) && NotOf(first, id) && NotOf(second, id)
    ensures forall i :: i in first + second ==> i.Valid()
    ensures var w1 := SubmitAll(w, first, subscribed).0;
            LeavesAlone(w, first, w1, id, key) && LeavesAlone(w1, second, SubmitAll(w1, second, subscribed).0, id, key)
  {
    UnseenBatchFills(w, first, second, subscribed);
    BatchLeavesAlone(w, first, second, subscribed, id, key);
    assert second + [] == second;
    BatchLeavesAlone(SubmitAll(w, first, subscribed).0, second, [], subscribed, id, key);
  }

  lemma NotOfParts(intents: seq<OrderIntent>, sells: nat, id: ClientId)
    requires sells <= |intents| && NotOf(intents, id)
    ensures NotOf(intents[..sells], id) && NotOf(intents[sells..], id)
    ensures intents[..sells] + intents[sells..] == intents
  {
    assert forall i :: i in intents[..sells] ==> i in intents;
    assert forall i :: i in intents[sells..] ==> i in intents;
  }

  lemma BothHalvesLeaveAlone(w: World, intents: seq<OrderIntent>, sells: nat, subscribed: bool, id: ClientId, key: IntentKey)
    requires Ready(w, intents) && sells <= |intents| && Unseen(w, id) && NotOf(intents, id)
    ensures LeavesAlone(w, intents, SellsThenBuys(w, intents, sells, subscribed), id, key)
  {
    NotOfParts(intents, sells, id);
    HalvesLeaveAlone(w, intents[..sells], intents[sells..], subscribed, id, key);
    var w1 := SubmitAll(w, intents[..sells], subscribed).0;
    PartsOf(w, intents, sells, w1, SubmitAll(w1, intents[sells..], subscribed).0, id, key);
  }

  /** Executing a batch disturbs no other client id and takes no other decision's keys. */
  lemma ExecutionLeavesAlone(w: World, intents: seq<OrderIntent>, sells: nat, subscribed: bool, id: ClientId, key: IntentKey)
    requires Ready(w, intents) && SellsFirst(intents, sells) && Unseen(w, id) && NotOf(intents, id)
    ensures LeavesAlone(w, intents, Execute(w, intents, None, subscribed).0, id, key)
  {
    PlannedBatchFillsCompletely(w, intents, sells, None, subscribed);
    BothHalvesLeaveAlone(w, intents, sells, subscribed, id, key);
  }

  lemma PartsOf(w: World, intents: seq<OrderIntent>, sells: nat, w1: World, w2: World, id: ClientId, key: IntentKey)
    requires sells <= |intents| && LeavesAlone(w, intents[..sells], w1, id, key) && LeavesAlone(w1, intents[sells..], w2, id, key)
    ensures LeavesAlone(w, intents, w2, id, key)
  {
    assert intents == intents[..sells] + intents[sells..];
    if KeyOf(intents[..sells], key) {
      var i :| i in intents[..sells] && KeyFor(i) == key;
      assert i in intents;
    }
    if KeyOf(intents[sells..], key) {
      var i :| i in intents[sells..] && KeyFor(i) == key;
      assert i in intents;
    }
  }
}
