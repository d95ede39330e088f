/** The order manager as the source writes it: methods that update a repository and a broker in place. */
module ManagerObject {
  import opened Prelude
  import opened LiveModels
  import opened OrderStates
  import opened OrderStore
  import opened OrderWrites
  import opened PaperLedger
  import opened FakeBroker
  import opened OrderManager
  import opened OrderExecution

  class Manager {
    const repository: AuditRepository
    const broker: FakePaperBroker
    /** Whether this manager's update handler is registered with the broker. */
    const subscribed: bool

    function Now(): World
      reads repository, broker
    {
      World(repository.Contents(), broker.State())
    }

    constructor (repository: AuditRepository, broker: FakePaperBroker, subscribed: bool)
      ensures this.repository == repository && this.broker == broker && this.subscribed == subscribed
    {
      this.repository, this.broker, this.subscribed := repository, broker, subscribed;
    }

    method MoveTo(w: Write) returns (moved: Result<bool, Failure>)
      modifies repository`orders, repository`events
      ensures (repository.Contents(), moved) == MoveOrder(old(repository.Contents()), w)
    {
      if w.clientId !in repository.orders {
        return Err(UnknownOrder);
      }
      var current := repository.orders[w.clientId].state;
      if !CanTransition(current, w.target) {
        return Err(InvalidTransition);
      }
      var outcome := repository.TransitionOrder(w, current);
      moved := if outcome == Refused then Err(StoreRefused) else Ok(outcome == Applied);
    }

    method ProcessTradeUpdate(u: TradeUpdate) returns (changed: Result<bool, Failure>)
      modifies repository`orders, repository`events, repository`fills
      ensures (repository.Contents(), changed) == HandleUpdate(old(repository.Contents()), u, false)
    {
      if HasEvent(repository.Contents(), UpdateKey(u.Fingerprint())) {
        return Ok(false);
      }
      if u.order.clientId !in repository.orders {
        return Ok(false);
      }
      var prior := repository.orders[u.order.clientId].filled;
      changed := MoveTo(UpdateWrite(u));
      var fill := FillFor(u, prior);
      if changed == Ok(true) && fill.Some? {
        repository.AppendFill(fill.value);
      }
    }

    method Submit(intent: OrderIntent) returns (result: Submission)
      requires intent.Valid()
      modifies repository, broker
      ensures (Now(), result) == SubmitIntent(old(Now()), intent, subscribed)
    {
      var reserved := repository.ReserveOrderIntent(intent);
      if !reserved {
        return Ok(FindOrder(broker.State(), intent.clientId));
      }
      var recent := FindRecent(broker.State(), intent);
      if recent.Some? {
        var moved := MoveTo(ExistingWrite(intent, recent.value));
        return if moved.Ok? then Ok(recent) else Err(moved.error);
      }
      var started := MoveTo(StartWrite(intent));
      if started.Err? {
        return Err(started.error);
      }
      var outcome := broker.Submit(intent);
      match outcome
      case Returned(order, emitted) =>
        if subscribed && emitted.Some? {
          var handled := ProcessTradeUpdate(emitted.value);
          if handled.Err? {
            return Err(handled.error);
          }
        }
        var moved := MoveTo(ResponseWrite(intent, order));
        result := if moved.Ok? then Ok(Some(order)) else Err(moved.error);
      case TimedOut =>
        var moved := MoveTo(UnknownWrite(intent));
        result := if moved.Ok? then Ok(None) else Err(moved.error);
      case ShortRefused => result := Err(BrokerRefused);
      case FillRefused(_) => result := Err(BrokerRefused);
    }

    method SubmitEach(intents: seq<OrderIntent>) returns (results: Result<seq<Option<BrokerOrder>>, Failure>)
      requires forall i :: i in intents ==> i.Valid()
      modifies repository, broker
      ensures (Now(), results) == SubmitAll(old(Now()), intents, subscribed)
    {
      var sent: seq<Option<BrokerOrder>> := [];
      ghost var start := Now();
      var k := 0;
      PrependNothing(SubmitAll(start, intents, subscribed));
      assert intents[0..] == intents;
      while k < |intents|
        invariant 0 <= k <= |intents|
        invariant SubmitAll(start, intents, subscribed) == Prepend(sent, SubmitAll(Now(), intents[k..], subscribed))
      {
        ghost var before := Now();
        assert intents[k] in intents;
        var here := Submit(intents[k]);
        SubmitAllStep(before, intents[k..], subscribed, sent);
        assert intents[k..][1..] == intents[k + 1..];
        if here.Err? {
          return Err(here.error);
        }
        sent := sent + [here.value];
        k := k + 1;
      }
      assert sent + [] == sent;
      results := Ok(sent);
    }

    method RunCallback(sells: seq<OrderIntent>, callback: Option<Callback>) returns (blocking: bool)
      modifies repository
      ensures (repository.Contents(), blocking) == Reconcile(old(repository.Contents()), sells, callback)
    {
      if sells == [] || callback.None? {
        return false;
      }
      var (after, blocks) := callback.value(repository.Contents());
      repository.intents, repository.orders := after.intents, after.orders;
      repository.events, repository.fills := after.events, after.fills;
      blocking := blocks;
    }

    /** Looks up every sell; a sell with a row that is not terminal leaves cash unaccounted for. */
    method FindUnresolved(sells: seq<OrderIntent>) returns (unresolved: bool)
      ensures unresolved == AnyUnresolved(repository.Contents(), sells)
    {
      unresolved := false;
      var k := 0;
      while k < |sells|
        invariant 0 <= k <= |sells|
        invariant unresolved == AnyUnresolved(repository.Contents(), sells[..k])
      {
        assert sells[..k + 1] == sells[..k] + [sells[k]];
        if Unresolved(repository.Contents(), sells[k]) {
          unresolved := true;
        }
        k := k + 1;
      }
      assert sells[..k] == sells;
    }

    method ExecuteBatch(intents: seq<OrderIntent>, reconcileAfterSells: Option<Callback>)
      returns (results: Result<seq<Option<BrokerOrder>>, Failure>)
      requires forall i :: i in intents ==> i.Valid()
      modifies repository, broker
      ensures (Now(), results) == Execute(old(Now()), intents, reconcileAfterSells, subscribed)
    {
      OrderedKeeps(intents, Sell);
      OrderedKeeps(intents, Buy);
      var sells, buys := Ordered(intents, Sell), Ordered(intents, Buy);
      results := SubmitEach(sells);
      if results.Err? {
        return;
      }
      var blocking := RunCallback(sells, reconcileAfterSells);
      var unresolved := FindUnresolved(sells);
      if unresolved || blocking {
        return;
      }
      var bought := SubmitEach(buys);
      results := if bought.Ok? then Ok(results.value + bought.value) else bought;
    }
  }

  function Prepend(sent: seq<Option<BrokerOrder>>, tail: (World, Result<seq<Option<BrokerOrder>>, Failure>))
    : (World, Result<seq<Option<BrokerOrder>>, Failure>)
  {
    (tail.0, if tail.1.Ok? then Ok(sent + tail.1.value) else tail.1)
  }

  lemma PrependNothing(r: (World, Result<seq<Option<BrokerOrder>>, Failure>))
    ensures Prepend([], r) == r
  {
    assert r.1.Ok? ==> [] + r.1.value == r.1.value;
  }

  lemma SubmitAllStep(w: World, rest: seq<OrderIntent>, subscribed: bool, sent: seq<Option<BrokerOrder>>)
    requires rest != [] && forall i :: i in rest ==> i.Valid()
    ensures var (w1, here) := SubmitIntent(w, rest[0], subscribed);
            Prepend(sent, SubmitAll(w, rest, subscribed)) ==
            if here.Err? then (w1, Err(here.error))
            else Prepend(sent + [here.value], SubmitAll(w1, rest[1..], subscribed))
  {
    var (w1, here) := SubmitIntent(w, rest[0], subscribed);
    if here.Ok? {
      var tail := SubmitAll(w1, rest[1..], subscribed).1;
      assert tail.Ok? ==> sent + ([here.value] + tail.value) == (sent + [here.value]) + tail.value;
    }
  }
}
