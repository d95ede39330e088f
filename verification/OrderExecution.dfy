/** `submit_intent` and `execute` against the fake broker, and the safety of running a funded batch. */
module OrderExecution {
  import opened Prelude
  import opened LiveModels
  import opened OrderStates
  import opened OrderStore
  import opened OrderWrites
  import opened PaperLedger
  import opened FakeBroker
  import opened OrderManager

  type Submission = Result<Option<BrokerOrder>, Failure>

  // ---------------------------------------------------------------- one intent

  function FindOrder(b: Broker, id: ClientId): Option<BrokerOrder> {
    if id in b.orders then Some(b.orders[id]) else None
  }

  /** The broker's order for this intent, as far as it was updated after the intent was made. */
  function FindRecent(b: Broker, intent: OrderIntent): Option<BrokerOrder> {
    if intent.clientId in b.orders && b.orders[intent.clientId].updatedAt >= intent.createdAt
    then Some(b.orders[intent.clientId]) else None
  }

  function SubmitIntent(w: World, intent: OrderIntent, subscribed: bool): (World, Submission)
    requires intent.Valid()
  {
    var (s1, reserved) := Reserve(w.store, intent);
    if !reserved then (w.(store := s1), Ok(FindOrder(w.broker, intent.clientId)))
    else
      var recent := FindRecent(w.broker, intent);
      if recent.Some? then
        var (s2, moved) := MoveOrder(s1, ExistingWrite(intent, recent.value));
        (w.(store := s2), if moved.Ok? then Ok(recent) else Err(moved.error))
      else
        var (s2, started) := MoveOrder(s1, StartWrite(intent));
        if started.Err? then (w.(store := s2), Err(started.error))
        else
          var (b, outcome) := SubmitOrder(w.broker, intent);
          var (s3, result) := TakeReply(s2, intent, outcome, subscribed);
          (World(s3, b), result)
  }

  /** The broker pushes its update to a subscribed handler before it answers the caller. */
  function TakeReply(s: Store, intent: OrderIntent, outcome: SubmitOutcome, subscribed: bool): (Store, Submission) {
    match outcome
    case Returned(order, emitted) =>
      var (s1, handled) :=
        if subscribed && emitted.Some? then HandleUpdate(s, emitted.value, false) else (s, Ok(true));
      if handled.Err? then (s1, Err(handled.error))
      else
        var (s2, moved) := MoveOrder(s1, ResponseWrite(intent, order));
        (s2, if moved.Ok? then Ok(Some(order)) else Err(moved.error))
    case TimedOut =>
      var (s1, moved) := MoveOrder(s, UnknownWrite(intent));
      (s1, if moved.Ok? then Ok(None) else Err(moved.error))
    case ShortRefused => (s, Err(BrokerRefused))
    case FillRefused(_) => (s, Err(BrokerRefused))
  }

  // ---------------------------------------------------------------- a batch

  function SubmitAll(w: World, intents: seq<OrderIntent>, subscribed: bool): (World, Result<seq<Option<BrokerOrder>>, Failure>)
    requires forall i :: i in intents ==> i.Valid()
    decreases |intents|
  {
    if intents == [] then (w, Ok([]))
    else
      var (w1, first) := SubmitIntent(w, intents[0], subscribed);
      if first.Err? then (w1, Err(first.error))
      else
        var (w2, rest) := SubmitAll(w1, intents[1..], subscribed);
        (w2, if rest.Ok? then Ok([first.value] + rest.value) else rest)
  }

  function Insert(intent: OrderIntent, sorted: seq<OrderIntent>): seq<OrderIntent> {
    if sorted == [] || intent.sequence <= sorted[0].sequence then [intent] + sorted
    else [sorted[0]] + Insert(intent, sorted[1..])
  }

  /** One side of a batch, in order of sequence number. */
  function Ordered(intents: seq<OrderIntent>, side: Side): seq<OrderIntent> {
    if intents == [] then []
    else if intents[0].side == side then Insert(intents[0], Ordered(intents[1..], side))
    else Ordered(intents[1..], side)
  }

  predicate Unresolved(s: Store, intent: OrderIntent) {
    intent.clientId in s.orders && !Terminal(s.orders[intent.clientId].state)
  }

  predicate AnyUnresolved(s: Store, intents: seq<OrderIntent>) {
    exists i :: i in intents && Unresolved(s, i)
  }

  /** What the caller's reconciliation does between sells and buys: it may move orders, and it may block. */
  type Callback = Store -> (Store, bool)

  function Reconcile(s: Store, sells: seq<OrderIntent>, callback: Option<Callback>): (Store, bool) {
    if sells != [] && callback.Some? then callback.value(s) else (s, false)
  }

  function Execute(w: World, intents: seq<OrderIntent>, callback: Option<Callback>, subscribed: bool)
    : (World, Result<seq<Option<BrokerOrder>>, Failure>)
    requires forall i :: i in intents ==> i.Valid()
  {
    OrderedKeeps(intents, Sell);
    OrderedKeeps(intents, Buy);
    var sells, buys := Ordered(intents, Sell), Ordered(intents, Buy);
    var (w1, sold) := SubmitAll(w, sells, subscribed);
    if sold.Err? then (w1, sold)
    else
      var (s2, blocking) := Reconcile(w1.store, sells, callback);
      var w2 := w1.(store := s2);
      if blocking || AnyUnresolved(s2, sells) then (w2, sold)
      else
        var (w3, bought) := SubmitAll(w2, buys, subscribed);
        (w3, if bought.Ok? then Ok(sold.value + bought.value) else bought)
  }

  lemma InsertKeeps(intent: OrderIntent, sorted: seq<OrderIntent>)
    ensures multiset(Insert(intent, sorted)) == multiset(sorted) + multiset{intent}
  {
    if sorted != [] && intent.sequence > sorted[0].sequence {
      InsertKeeps(intent, sorted[1..]);
      assert sorted == [sorted[0]] + sorted[1..];
    }
  }

  /** Splitting and sorting a batch neither loses nor invents an intent. */
  lemma OrderedKeeps(intents: seq<OrderIntent>, side: Side)
    ensures forall i :: i in Ordered(intents, side) <==> i in intents && i.side == side
    ensures forall i :: multiset(Ordered(intents, side))[i] == if i.side == side then multiset(intents)[i] else 0
  {
    if intents != [] {
      OrderedKeeps(intents[1..], side);
      assert intents == [intents[0]] + intents[1..];
      if intents[0].side == side {
        InsertKeeps(intents[0], Ordered(intents[1..], side));
      }
      forall i
        ensures multiset(Ordered(intents, side))[i] == if i.side == side then multiset(intents)[i] else 0
        ensures i in Ordered(intents, side) <==> i in intents && i.side == side
      {
        assert i in Ordered(intents, side) <==> multiset(Ordered(intents, side))[i] > 0;
        assert i in intents <==> multiset(intents)[i] > 0;
      }
    }
  }

  // ---------------------------------------------------------------- funded batches are never refused

  function SpendBy(intent: OrderIntent): real
    requires intent.Valid()
  {
    if intent.side == Buy then intent.EstimatedNotional() else 0.0
  }

  function Spend(intents: seq<OrderIntent>): real
    requires forall i :: i in intents ==> i.Valid()
  {
    if intents == [] then 0.0 else SpendBy(intents[0]) + Spend(intents[1..])
  }

  /** Sells cover what is held, one intent per symbol, and the buys fit into the cash at hand. */
  ghost predicate Funded(l: Ledger, intents: seq<OrderIntent>) {
    && Nonnegative(l)
    && (forall i :: i in intents ==> i.Valid())
    && (forall i, j :: 0 <= i < j < |intents| ==> intents[i].symbol != intents[j].symbol)
    && (forall i :: i in intents && i.side == Sell ==> i.Shares() <= Held(l, i.symbol))
    && Spend(intents) <= l.cash
  }

  /** What the broker does to its ledger when asked to submit, and why it may refuse. */
  lemma BrokerTouchesLedgerOnce(b: Broker, intent: OrderIntent)
    requires intent.Valid()
    ensures var l, (b', outcome) := b.ledger, SubmitOrder(b, intent);
            && (|| b'.ledger == l
                || (ApplyFill(l, IntentFill(intent)).Ok? && b'.ledger == ApplyFill(l, IntentFill(intent)).value))
            && (outcome.ShortRefused? <==>
                  intent.clientId !in b.orders && intent.side == Sell && intent.Shares() > Held(l, intent.symbol))
            && (outcome.ShortRefused? ==> b' == b.(submitCalls := b.submitCalls + 1))
            && (outcome.FillRefused? ==> ApplyFill(l, IntentFill(intent)).Err? && b'.ledger == l)
  {
  }

  /** Only the broker's own refusals are passed on as such. */
  lemma RefusalsComeFromTheBroker(s: Store, intent: OrderIntent, outcome: SubmitOutcome, subscribed: bool)
    ensures TakeReply(s, intent, outcome, subscribed).1 == Err(BrokerRefused) ==> outcome.ShortRefused? || outcome.FillRefused?
  {
  }

  lemma MovesAreNotRefusals(s: Store, w: Write)
    ensures MoveOrder(s, w).1 != Err(BrokerRefused)
  {
  }

  /** A submission applies its intent's fill to the ledger once, or leaves the ledger alone. */
  lemma SubmissionTouchesLedgerOnce(w: World, intent: OrderIntent, subscribed: bool)
    requires intent.Valid()
    ensures var l, (w', r) := w.broker.ledger, SubmitIntent(w, intent, subscribed);
            && (|| w'.broker.ledger == l
                || (ApplyFill(l, IntentFill(intent)).Ok? && w'.broker.ledger == ApplyFill(l, IntentFill(intent)).value))
            && (r == Err(BrokerRefused) ==>
                  || (intent.side == Sell && intent.Shares() > Held(l, intent.symbol))
                  || ApplyFill(l, IntentFill(intent)).Err?)
  {
    var s1 := Reserve(w.store, intent).0;
    var recent := FindRecent(w.broker, intent);
    if recent.Some? {
      MovesAreNotRefusals(s1, ExistingWrite(intent, recent.value));
    }
    MovesAreNotRefusals(s1, StartWrite(intent));
    BrokerTouchesLedgerOnce(w.broker, intent);
    RefusalsComeFromTheBroker(MoveOrder(s1, StartWrite(intent)).0, intent, SubmitOrder(w.broker, intent).1, subscribed);
  }

  lemma {:induction false} SpendIsNonnegative(intents: seq<OrderIntent>)
    requires forall i :: i in intents ==> i.Valid()
    ensures Spend(intents) >= 0.0
  {
    if intents != [] {
      SpendIsNonnegative(intents[1..]);
      IntentWorth(intents[0]);
    }
  }

  lemma IntentWorth(intent: OrderIntent)
    requires intent.Valid()
    ensures intent.EstimatedNotional() > 0.0
    ensures Worth(intent.Shares(), intent.referencePrice) == intent.EstimatedNotional()
  {
    if intent.quantity.Some? {
      PositiveProduct(intent.quantity.value, intent.referencePrice);
    }
  }

  lemma PositiveProduct(a: real, b: real)
    requires a > 0.0 && b > 0.0
    ensures Worth(a, b) > 0.0
  {
  }

  /** Whatever becomes of the first intent, the rest of a funded batch stays funded. */
  lemma RestStaysFunded(l: Ledger, intents: seq<OrderIntent>, l': Ledger)
    requires Funded(l, intents) && intents != []
    requires l' == l || (ApplyFill(l, IntentFill(intents[0])).Ok? && l' == ApplyFill(l, IntentFill(intents[0])).value)
    ensures ApplyFill(l, IntentFill(intents[0])).Ok?
    ensures intents[0].side == Sell ==> intents[0].Shares() <= Held(l, intents[0].symbol)
    ensures Funded(l', intents[1..])
    ensures l'.cash - Spend(intents[1..]) >= l.cash - Spend(intents)
  {
    var first := intents[0];
    IntentWorth(first);
    SpendIsNonnegative(intents[1..]);
    RefusedExactlyWhen(l, IntentFill(first));
    if l' != l {
      FillEffect(l, IntentFill(first));
      assert first in intents;
      forall i | i in intents[1..]
        ensures Held(l', i.symbol) == Held(l, i.symbol)
      {
        var k :| 0 <= k < |intents[1..]| && intents[1..][k] == i;
        assert intents[k + 1] == i;
      }
    }
  }

  /** From a funded batch no submission is refused, and what is not yet submitted stays funded. */
  lemma {:induction false} FundedSubmissionsAreNotRefused(
      w: World, now: seq<OrderIntent>, later: seq<OrderIntent>, subscribed: bool)
    requires Funded(w.broker.ledger, now + later)
    ensures forall i :: i in now ==> i.Valid()
    ensures var (w', r) := SubmitAll(w, now, subscribed);
            && r != Err(BrokerRefused)
            && (r.Ok? ==> Funded(w'.broker.ledger, later))
            && Nonnegative(w'.broker.ledger)
            && w'.broker.ledger.cash >= w.broker.ledger.cash - Spend(now + later)
            && (r.Ok? ==> w'.broker.ledger.cash - Spend(later) >= w.broker.ledger.cash - Spend(now + later))
    decreases |now|
  {
    forall i | i in now
      ensures i.Valid()
    {
      assert i in now + later;
    }
    if now == [] {
      assert now + later == later;
      SpendIsNonnegative(later);
    } else {
      var l, all := w.broker.ledger, now + later;
      var (w1, first) := SubmitIntent(w, now[0], subscribed);
      SubmissionTouchesLedgerOnce(w, now[0], subscribed);
      RestStaysFunded(l, all, w1.broker.ledger);
      assert all[1..] == now[1..] + later;
      SpendIsNonnegative(all[1..]);
      if first.Ok? {
        FundedSubmissionsAreNotRefused(w1, now[1..], later, subscribed);
      }
    }
  }

  // ---------------------------------------------------------------- batches as the planner makes them

  /** Sells before buys, numbered from zero. */
  ghost predicate SellsFirst(intents: seq<OrderIntent>, sells: nat) {
    && sells <= |intents|
    && (forall i :: 0 <= i < |intents| ==> intents[i].sequence == i)
    && (forall i :: 0 <= i < |intents| ==> (intents[i].side == Sell <==> i < sells))
  }

  lemma {:induction false} OrderedIsStable(intents: seq<OrderIntent>, side: Side)
    requires forall i, j :: 0 <= i < j < |intents| ==> intents[i].sequence <= intents[j].sequence
    requires forall i :: 0 <= i < |intents| ==> intents[i].side == side
    ensures Ordered(intents, side) == intents
  {
    if intents != [] {
      OrderedIsStable(intents[1..], side);
    }
  }

  lemma {:induction false} OrderedConcat(a: seq<OrderIntent>, b: seq<OrderIntent>, side: Side)
    requires forall i :: 0 <= i < |a| ==> a[i].side != side
    ensures Ordered(a + b, side) == Ordered(b, side)
  {
    if a == [] {
      assert a + b == b;
    } else {
      assert (a + b)[1..] == a[1..] + b;
      OrderedConcat(a[1..], b, side);
    }
  }

  lemma {:induction false} OrderedPrefix(a: seq<OrderIntent>, b: seq<OrderIntent>, side: Side)
    requires forall i :: 0 <= i < |b| ==> b[i].side != side
    requires forall i :: 0 <= i < |a| ==> a[i].side == side
    ensures Ordered(a + b, side) == Ordered(a, side)
  {
    if a == [] {
      assert a + b == b;
      OrderedConcat(b, [], side);
      assert b + [] == b;
    } else {
      assert (a + b)[1..] == a[1..] + b;
      OrderedPrefix(a[1..], b, side);
    }
  }

  /** `execute` takes a planned batch in exactly the planned order. */
  lemma PlannedOrderIsKept(intents: seq<OrderIntent>, sells: nat)
    requires SellsFirst(intents, sells)
    ensures Ordered(intents, Sell) == intents[..sells]
    ensures Ordered(intents, Buy) == intents[sells..]
  {
    SellsAreKept(intents, sells);
    BuysAreKept(intents, sells);
  }

  lemma SellsAreKept(intents: seq<OrderIntent>, sells: nat)
    requires SellsFirst(intents, sells)
    ensures Ordered(intents, Sell) == intents[..sells]
  {
    var a, b := intents[..sells], intents[sells..];
    assert intents == a + b;
    OrderedPrefix(a, b, Sell);
    OrderedIsStable(a, Sell);
  }

  lemma BuysAreKept(intents: seq<OrderIntent>, sells: nat)
    requires SellsFirst(intents, sells)
    ensures Ordered(intents, Buy) == intents[sells..]
  {
    var a, b := intents[..sells], intents[sells..];
    assert intents == a + b;
    assert forall i :: 0 <= i < |b| ==> b[i] == intents[sells + i];
    OrderedConcat(a, b, Buy);
    OrderedIsStable(b, Buy);
  }

  /**
   Running a funded, planned batch is safe against every store, order book, callback and broker mood:
   no short or margin refusal, nothing goes negative, and no more cash leaves than the buys asked for.
   */
  lemma FundedBatchIsSafe(w: World, intents: seq<OrderIntent>, sells: nat, callback: Option<Callback>, subscribed: bool)
    requires Funded(w.broker.ledger, intents) && SellsFirst(intents, sells)
    ensures var (w', r) := Execute(w, intents, callback, subscribed);
            && r != Err(BrokerRefused)
            && Nonnegative(w'.broker.ledger)
            && w'.broker.ledger.cash >= w.broker.ledger.cash - Spend(intents)
  {
    PlannedOrderIsKept(intents, sells);
    var first, second := intents[..sells], intents[sells..];
    assert intents == first + second;
    FundedSubmissionsAreNotRefused(w, first, second, subscribed);
    var (w1, sold) := SubmitAll(w, first, subscribed);
    if sold.Ok? {
      SpendIsNonnegative(second);
      var s2 := Reconcile(w1.store, first, callback).0;
      var w2 := w1.(store := s2);
      assert second + [] == second;
      FundedSubmissionsAreNotRefused(w2, second, [], subscribed);
    }
  }
}
