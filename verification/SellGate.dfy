/** What `execute` promises about its buys, whatever the store, the order book, the callback and the broker. */
module SellGate {
  import opened Prelude
  import opened LiveModels
  import opened OrderStates
  import opened OrderStore
  import opened OrderWrites
  import opened FakeBroker
  import opened OrderManager
  import opened OrderExecution

  // ---------------------------------------------------------------- a submission stays with its own order

  /** Rows and booked orders of other client ids are as before. */
  ghost predicate OthersAlone(w: World, w': World, c: ClientId) {
    && (c in w'.store.orders <==> c in w.store.orders) && (c in w.store.orders ==> w'.store.orders[c] == w.store.orders[c])
    && (c in w'.broker.orders <==> c in w.broker.orders) && (c in w.broker.orders ==> w'.broker.orders[c] == w.broker.orders[c])
  }

  ghost predicate RowAlone(s: Store, s': Store, c: ClientId) {
    (c in s'.orders <==> c in s.orders) && (c in s.orders ==> s'.orders[c] == s.orders[c])
  }

  lemma MoveLeavesRow(s: Store, write: Write, c: ClientId)
    requires write.clientId != c
    ensures RowAlone(s, MoveOrder(s, write).0, c)
  {
  }

  lemma ReplyLeavesRow(s: Store, intent: OrderIntent, outcome: SubmitOutcome, subscribed: bool, c: ClientId)
    requires intent.clientId != c
    requires outcome.Returned? && outcome.emitted.Some? ==> outcome.emitted.value.order.clientId == intent.clientId
    ensures RowAlone(s, TakeReply(s, intent, outcome, subscribed).0, c)
  {
    match outcome
    case Returned(order, emitted) =>
      if subscribed && emitted.Some? {
        MoveLeavesRow(s, UpdateWrite(emitted.value), c);
        MoveLeavesRow(HandleUpdate(s, emitted.value, false).0, ResponseWrite(intent, order), c);
      } else {
        MoveLeavesRow(s, ResponseWrite(intent, order), c);
      }
    case TimedOut => MoveLeavesRow(s, UnknownWrite(intent), c);
    case _ =>
  }

  lemma BrokerLeavesOthers(b: Broker, intent: OrderIntent, c: ClientId)
    requires intent.Valid() && intent.clientId != c
    ensures var (b', outcome) := SubmitOrder(b, intent);
            && (c in b'.orders <==> c in b.orders) && (c in b.orders ==> b'.orders[c] == b.orders[c])
            && (outcome.Returned? && outcome.emitted.Some? ==> outcome.emitted.value.order.clientId == intent.clientId)
  {
  }

  lemma SubmissionLeavesOthers(w: World, intent: OrderIntent, subscribed: bool, c: ClientId)
    requires intent.Valid() && intent.clientId != c
    ensures OthersAlone(w, SubmitIntent(w, intent, subscribed).0, c)
  {
    var s1 := Reserve(w.store, intent).0;
    var recent := FindRecent(w.broker, intent);
    if recent.Some? {
      MoveLeavesRow(s1, ExistingWrite(intent, recent.value), c);
    }
    MoveLeavesRow(s1, StartWrite(intent), c);
    BrokerLeavesOthers(w.broker, intent, c);
    ReplyLeavesRow(MoveOrder(s1, StartWrite(intent)).0, intent, SubmitOrder(w.broker, intent).1, subscribed, c);
  }

  ghost predicate NotAmong(intents: seq<OrderIntent>, c: ClientId) { forall i :: i in intents ==> i.clientId != c }

  lemma {:induction false} SubmissionsLeaveOthers(w: World, intents: seq<OrderIntent>, subscribed: bool, c: ClientId)
    requires (forall i :: i in intents ==> i.Valid()) && NotAmong(intents, c)
    ensures OthersAlone(w, SubmitAll(w, intents, subscribed).0, c)
    decreases |intents|
  {
    if intents != [] {
      assert intents[0] in intents && forall i :: i in intents[1..] ==> i in intents;
      SubmissionLeavesOthers(w, intents[0], subscribed, c);
      var (w1, first) := SubmitIntent(w, intents[0], subscribed);
      if first.Ok? {
        SubmissionsLeaveOthers(w1, intents[1..], subscribed, c);
      }
    }
  }

  lemma {:induction false} OneResultEach(w: World, intents: seq<OrderIntent>, subscribed: bool)
    requires forall i :: i in intents ==> i.Valid()
    ensures SubmitAll(w, intents, subscribed).1.Ok? ==> |SubmitAll(w, intents, subscribed).1.value| == |intents|
    decreases |intents|
  {
    if intents != [] {
      assert forall i :: i in intents[1..] ==> i in intents;
      OneResultEach(SubmitIntent(w, intents[0], subscribed).0, intents[1..], subscribed);
    }
  }

  // ---------------------------------------------------------------- the gate

  ghost predicate DistinctIds(intents: seq<OrderIntent>) {
    forall i, j :: 0 <= i < j < |intents| ==> intents[i].clientId != intents[j].clientId
  }

  /** The order book gained an order for this intent. */
  predicate Booked(w: World, w': World, intent: OrderIntent) {
    intent.clientId in w'.broker.orders && intent.clientId !in w.broker.orders
  }

  /** The sells of a batch have been submitted, nothing else yet. */
  function AfterSells(w: World, intents: seq<OrderIntent>, subscribed: bool): World
    requires forall i :: i in intents ==> i.Valid()
  {
    OrderedKeeps(intents, Sell);
    SubmitAll(w, Ordered(intents, Sell), subscribed).0
  }

  /** The store at the gate: what the callback made of it, if there is a sell and a callback. */
  function AtTheGate(w: World, intents: seq<OrderIntent>, callback: Option<Callback>, subscribed: bool): World
    requires forall i :: i in intents ==> i.Valid()
  {
    var w1 := AfterSells(w, intents, subscribed);
    if (exists i :: i in intents && i.side == Sell) && callback.Some? then w1.(store := callback.value(w1.store).0) else w1
  }

  /** Somebody sells, there is a callback, and it answers that buying must wait. */
  predicate ToldToWait(w: World, intents: seq<OrderIntent>, callback: Option<Callback>, subscribed: bool)
    requires forall i :: i in intents ==> i.Valid()
  {
    (exists i :: i in intents && i.side == Sell) && callback.Some? && callback.value(AfterSells(w, intents, subscribed).store).1
  }

  /** Every sell of the batch has no row or a terminal one. */
  ghost predicate SellsSettled(s: Store, intents: seq<OrderIntent>) {
    forall i :: i in intents && i.side == Sell ==> i.clientId !in s.orders || Terminal(s.orders[i.clientId].state)
  }

  lemma IdsApart(intents: seq<OrderIntent>, i: OrderIntent, j: OrderIntent)
    requires DistinctIds(intents) && i in intents && j in intents && i.side != j.side
    ensures i.clientId != j.clientId
  {
    var k :| 0 <= k < |intents| && intents[k] == i;
    var l :| 0 <= l < |intents| && intents[l] == j;
    assert k != l;
  }

  /** Submitting one side of a batch touches no order of the other side. */
  lemma SidesApart(intents: seq<OrderIntent>, side: Side, i: OrderIntent)
    requires DistinctIds(intents) && i in intents && i.side != side
    ensures NotAmong(Ordered(intents, side), i.clientId)
  {
    OrderedKeeps(intents, side);
    forall j | j in Ordered(intents, side)
      ensures j.clientId != i.clientId
    {
      IdsApart(intents, i, j);
    }
  }

  lemma NoSells(intents: seq<OrderIntent>)
    ensures Ordered(intents, Sell) == [] <==> !exists i :: i in intents && i.side == Sell
  {
    OrderedKeeps(intents, Sell);
    if Ordered(intents, Sell) != [] {
      assert Ordered(intents, Sell)[0] in Ordered(intents, Sell);
    }
  }

  /** The three ways a batch can end. */
  lemma ExecuteCases(w: World, intents: seq<OrderIntent>, callback: Option<Callback>, subscribed: bool)
    requires forall i :: i in intents ==> i.Valid()
    ensures (forall i :: i in Ordered(intents, Sell) ==> i.Valid()) && forall i :: i in Ordered(intents, Buy) ==> i.Valid()
    ensures var (w1, sold) := SubmitAll(w, Ordered(intents, Sell), subscribed);
            var w2 := AtTheGate(w, intents, callback, subscribed);
            var (w3, bought) := SubmitAll(w2, Ordered(intents, Buy), subscribed);
            var (w', r) := Execute(w, intents, callback, subscribed);
            || (sold.Err? && w' == w1 && r.Err?)
            || (sold.Ok? && (ToldToWait(w, intents, callback, subscribed) || !SellsSettled(w2.store, intents)) && w' == w2 && r == sold)
            || (sold.Ok? && !ToldToWait(w, intents, callback, subscribed) && SellsSettled(w2.store, intents) && w' == w3
                && (r.Ok? <==> bought.Ok?) && (r.Ok? ==> r.value == sold.value + bought.value))
  {
    OrderedKeeps(intents, Sell);
    OrderedKeeps(intents, Buy);
    NoSells(intents);
    var sells := Ordered(intents, Sell);
    var w1 := SubmitAll(w, sells, subscribed).0;
    var s2 := Reconcile(w1.store, sells, callback).0;
    assert AnyUnresolved(s2, sells) <==> !SellsSettled(s2, intents);
    assert Reconcile(w1.store, sells, callback).1 <==> ToldToWait(w, intents, callback, subscribed);
  }

  /** The buys leave the sells' rows alone, so what the gate saw is what the final store says. */
  lemma BuysLeaveSells(w: World, intents: seq<OrderIntent>, subscribed: bool)
    requires (forall i :: i in intents ==> i.Valid()) && DistinctIds(intents)
    ensures forall i :: i in Ordered(intents, Buy) ==> i.Valid()
    ensures SellsSettled(w.store, intents) <==> SellsSettled(SubmitAll(w, Ordered(intents, Buy), subscribed).0.store, intents)
  {
    OrderedKeeps(intents, Buy);
    var w' := SubmitAll(w, Ordered(intents, Buy), subscribed).0;
    forall i | i in intents && i.side == Sell
      ensures RowAlone(w.store, w'.store, i.clientId)
    {
      SidesApart(intents, Buy, i);
      SubmissionsLeaveOthers(w, Ordered(intents, Buy), subscribed, i.clientId);
    }
  }

  lemma SellsBookNoBuy(w: World, intents: seq<OrderIntent>, subscribed: bool, buy: OrderIntent)
    requires (forall i :: i in intents ==> i.Valid()) && DistinctIds(intents) && buy in intents && buy.side == Buy
    ensures !Booked(w, AfterSells(w, intents, subscribed), buy)
  {
    OrderedKeeps(intents, Sell);
    SidesApart(intents, Sell, buy);
    SubmissionsLeaveOthers(w, Ordered(intents, Sell), subscribed, buy.clientId);
  }

  /**
   A buy reaches the order book only if the callback did not ask to wait and every sell of the batch is
   without a row or terminal, in the store the batch leaves behind.
   */
  lemma BoughtOnlyPastTheGate(w: World, intents: seq<OrderIntent>, callback: Option<Callback>, subscribed: bool, buy: OrderIntent)
    requires (forall i :: i in intents ==> i.Valid()) && DistinctIds(intents) && buy in intents && buy.side == Buy
    requires Booked(w, Execute(w, intents, callback, subscribed).0, buy)
    ensures !ToldToWait(w, intents, callback, subscribed)
    ensures SellsSettled(Execute(w, intents, callback, subscribed).0.store, intents)
  {
    ExecuteCases(w, intents, callback, subscribed);
    SellsBookNoBuy(w, intents, subscribed, buy);
    BuysLeaveSells(AtTheGate(w, intents, callback, subscribed), intents, subscribed);
  }

  /** A batch that goes through reports on every intent past an open gate, and on its sells alone before a closed one. */
  lemma ResultsTellTheGate(w: World, intents: seq<OrderIntent>, callback: Option<Callback>, subscribed: bool)
    requires (forall i :: i in intents ==> i.Valid()) && DistinctIds(intents)
    ensures var (w', r) := Execute(w, intents, callback, subscribed);
            var closed := ToldToWait(w, intents, callback, subscribed) || !SellsSettled(w'.store, intents);
            && (r.Ok? ==> |r.value| == if closed then |Ordered(intents, Sell)| else |intents|)
            && (r.Ok? && closed ==> w' == AtTheGate(w, intents, callback, subscribed))
  {
    ExecuteCases(w, intents, callback, subscribed);
    OneResultEach(w, Ordered(intents, Sell), subscribed);
    var w2 := AtTheGate(w, intents, callback, subscribed);
    BuysLeaveSells(w2, intents, subscribed);
    OneResultEach(w2, Ordered(intents, Buy), subscribed);
    SidesAddUp(intents);
  }

  lemma {:induction false} InsertLength(intent: OrderIntent, sorted: seq<OrderIntent>)
    ensures |Insert(intent, sorted)| == |sorted| + 1
  {
    if sorted != [] && intent.sequence > sorted[0].sequence {
      InsertLength(intent, sorted[1..]);
    }
  }

  lemma {:induction false} SidesAddUp(intents: seq<OrderIntent>)
    ensures |Ordered(intents, Sell)| + |Ordered(intents, Buy)| == |intents|
  {
    if intents != [] {
      SidesAddUp(intents[1..]);
      InsertLength(intents[0], Ordered(intents[1..], intents[0].side));
    }
  }

  // ---------------------------------------------------------------- the order within a side

  function OfSequence(intents: seq<OrderIntent>, n: nat): seq<OrderIntent> {
    if intents == [] then []
    else (if intents[0].sequence == n then [intents[0]] else []) + OfSequence(intents[1..], n)
  }

  function OfSide(intents: seq<OrderIntent>, side: Side): seq<OrderIntent> {
    if intents == [] then []
    else (if intents[0].side == side then [intents[0]] else []) + OfSide(intents[1..], side)
  }

  ghost predicate BySequence(intents: seq<OrderIntent>) {
    forall i, j :: 0 <= i < j < |intents| ==> intents[i].sequence <= intents[j].sequence
  }

  lemma {:induction false} InsertSorts(intent: OrderIntent, sorted: seq<OrderIntent>)
    requires BySequence(sorted)
    ensures BySequence(Insert(intent, sorted))
  {
    if sorted != [] && intent.sequence > sorted[0].sequence {
      var rest := Insert(intent, sorted[1..]);
      InsertSorts(intent, sorted[1..]);
      InsertKeeps(intent, sorted[1..]);
      forall j | 0 <= j < |rest|
        ensures sorted[0].sequence <= rest[j].sequence
      {
        assert rest[j] in multiset(rest);
        assert rest[j] == intent || rest[j] in sorted[1..];
      }
    }
  }

  /** An intent goes before the ones with its own sequence number. */
  lemma {:induction false} InsertIsStable(intent: OrderIntent, sorted: seq<OrderIntent>, n: nat)
    ensures OfSequence(Insert(intent, sorted), n) == OfSequence([intent] + sorted, n)
  {
    if sorted != [] && intent.sequence > sorted[0].sequence {
      InsertIsStable(intent, sorted[1..], n);
      assert ([intent] + sorted[1..])[1..] == sorted[1..] && ([intent] + sorted)[1..] == sorted;
    }
  }

  /** One side of a batch goes out by sequence number, and in the given order where numbers are equal. */
  lemma {:induction false} OrderedIsSorted(intents: seq<OrderIntent>, side: Side, n: nat)
    ensures BySequence(Ordered(intents, side))
    ensures OfSequence(Ordered(intents, side), n) == OfSequence(OfSide(intents, side), n)
  {
    if intents != [] {
      var rest, chosen := Ordered(intents[1..], side), OfSide(intents[1..], side);
      OrderedIsSorted(intents[1..], side, n);
      if intents[0].side == side {
        InsertSorts(intents[0], rest);
        InsertIsStable(intents[0], rest, n);
        assert ([intents[0]] + rest)[1..] == rest && ([intents[0]] + chosen)[1..] == chosen;
      } else {
        assert [] + chosen == chosen;
      }
    }
  }
}
