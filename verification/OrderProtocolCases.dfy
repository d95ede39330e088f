/** Runs that show where the protocol's guarantees stop, and by how much. */
module OrderProtocolCases {
  import opened Prelude
  import opened LiveModels
  import opened OrderStates
  import opened OrderStore
  import opened OrderWrites
  import opened OrderProtocol
  import opened LedgerRepair

  lemma {:induction false} RunFromConcat(s: Sys, a: seq<Step>, b: seq<Step>)
    ensures RunFrom(s, a + b) == RunFrom(RunFrom(s, a), b)
    decreases |b|
  {
    if b == [] {
      assert a + b == a;
    } else {
      assert (a + b)[..|a + b| - 1] == a + b[..|b| - 1];
      RunFromConcat(s, a, b[..|b| - 1]);
    }
  }

  lemma RunFromOne(s: Sys, step: Step)
    ensures RunFrom(s, [step]) == Apply(s, step)
  {
    assert [step][..0] == [];
    assert RunFrom(s, []) == s;
  }

  // ---------------------------------------------------------------- a fresh intent is submitted

  function SubmissionSteps(t: nat): seq<Step> {
    [Act(t, ReserveNext), Act(t, Lookup(None)), Act(t, ReadRow), Act(t, CommitWrite), Act(t, CallBroker)]
  }

  /** Undisturbed, a batch thread takes an unreserved intent all the way to the broker. */
  lemma FreshIntentReachesBroker(s: Sys, t: nat, intent: OrderIntent)
    requires Inv(s) && t in s.threads && s.threads[t].pc == Idle
    requires Current(s.threads[t].batch) == Some(intent) && !IntentTaken(s.store, intent)
    ensures var s' := RunFrom(s, SubmissionSteps(t));
            && s'.calls == s.calls + [Call(intent, s.threads[t].batch, s'.store)]
            && s'.threads == s.threads[t := Thread(s.threads[t].batch, Awaiting(intent))]
            && s'.store.orders == s.store.orders[intent.clientId := OrderRow(SubmissionStarted, 0.0, None, None)]
            && s'.store.intents == s.store.intents[intent.clientId := KeyFor(intent)]
  {
    FiveSteps(s, Act(t, ReserveNext), Act(t, Lookup(None)), Act(t, ReadRow), Act(t, CommitWrite), Act(t, CallBroker));
    ReservationStep(s, t, intent);
    ReservedReachesBroker(s, Apply(s, Act(t, ReserveNext)), t, intent);
  }

  lemma ReservedReachesBroker(s: Sys, s1: Sys, t: nat, intent: OrderIntent)
    requires t in s.threads && s1.calls == s.calls
    requires s1.threads == s.threads[t := Thread(s.threads[t].batch, LookingUp(intent))]
    requires s1.store.orders == s.store.orders[intent.clientId := OrderRow(LocallyReserved, 0.0, None, None)]
    requires s1.store.intents == s.store.intents[intent.clientId := KeyFor(intent)]
    requires !HasEvent(s1.store, StartedKey(intent.clientId))
    ensures var s' := Apply(Apply(Apply(Apply(s1, Act(t, Lookup(None))), Act(t, ReadRow)), Act(t, CommitWrite)), Act(t, CallBroker));
            && s'.calls == s.calls + [Call(intent, s.threads[t].batch, s'.store)]
            && s'.threads == s.threads[t := Thread(s.threads[t].batch, Awaiting(intent))]
            && s'.store.orders == s.store.orders[intent.clientId := OrderRow(SubmissionStarted, 0.0, None, None)]
            && s'.store.intents == s.store.intents[intent.clientId := KeyFor(intent)]
  {
    StartAndCallSteps(s1, t, intent);
  }

  lemma ReservationStep(s: Sys, t: nat, intent: OrderIntent)
    requires Inv(s) && t in s.threads && s.threads[t].pc == Idle
    requires Current(s.threads[t].batch) == Some(intent) && !IntentTaken(s.store, intent)
    ensures var s' := DoReserve(s, t);
            && s'.calls == s.calls
            && s'.threads == s.threads[t := Thread(s.threads[t].batch, LookingUp(intent))]
            && s'.store.orders == s.store.orders[intent.clientId := OrderRow(LocallyReserved, 0.0, None, None)]
            && s'.store.intents == s.store.intents[intent.clientId := KeyFor(intent)]
            && !HasEvent(s'.store, StartedKey(intent.clientId))
  {
    ReserveIsInsertIfAbsent(s.store, intent);
    var id := intent.clientId;
    assert id !in s.store.orders;
    forall i | 0 <= i < |s.store.events|
      ensures s.store.events[i].key != StartedKey(id)
    {
      assert KeysFit(s.store.events[i]);
    }
    assert s.threads[t := s.threads[t].(pc := LookingUp(intent))] == s.threads[t := Thread(s.threads[t].batch, LookingUp(intent))];
  }

  lemma StartAndCallSteps(s: Sys, t: nat, intent: OrderIntent)
    requires t in s.threads && s.threads[t].pc == LookingUp(intent)
    requires intent.clientId in s.store.orders
    requires s.store.orders[intent.clientId] == OrderRow(LocallyReserved, 0.0, None, None)
    requires !HasEvent(s.store, StartedKey(intent.clientId))
    ensures var s' := Apply(Apply(Apply(Apply(s, Act(t, Lookup(None))), Act(t, ReadRow)), Act(t, CommitWrite)), Act(t, CallBroker));
            && s'.calls == s.calls + [Call(intent, s.threads[t].batch, s'.store)]
            && s'.threads == s.threads[t := Thread(s.threads[t].batch, Awaiting(intent))]
            && s'.store.orders == s.store.orders[intent.clientId := OrderRow(SubmissionStarted, 0.0, None, None)]
            && s'.store.intents == s.store.intents
  {
    var s2 := DoLookup(s, t, None);
    var s3 := DoRead(s2, t);
    assert s3.threads[t].pc == Writing(StartWrite(intent), LocallyReserved, 0.0, ThenCall(intent));
    var s4 := DoWrite(s3, t);
    assert s4.threads[t].pc == Calling(intent);
    var s5 := DoCall(s4, t);
    assert s5.threads == s.threads[t := Thread(s.threads[t].batch, Awaiting(intent))];
  }

  lemma FiveSteps(s: Sys, a: Step, b: Step, c: Step, d: Step, e: Step)
    ensures RunFrom(s, [a, b, c, d, e]) == Apply(Apply(Apply(Apply(Apply(s, a), b), c), d), e)
  {
    RunFromOne(s, a);
    RunFromConcat(s, [a], [b]);
    RunFromOne(Apply(s, a), b);
    RunFromConcat(s, [a, b], [c]);
    RunFromOne(RunFrom(s, [a, b]), c);
    RunFromConcat(s, [a, b, c], [d]);
    RunFromOne(RunFrom(s, [a, b, c]), d);
    RunFromConcat(s, [a, b, c, d], [e]);
    RunFromOne(RunFrom(s, [a, b, c, d]), e);
    assert [a] + [b] == [a, b];
    assert [a, b] + [c] == [a, b, c];
    assert [a, b, c] + [d] == [a, b, c, d];
    assert [a, b, c, d] + [e] == [a, b, c, d, e];
  }

  lemma RunOneMore(steps: seq<Step>, step: Step)
    ensures Run(steps + [step]) == Apply(Run(steps), step)
  {
    assert (steps + [step])[..|steps|] == steps;
  }

  // ---------------------------------------------------------------- a sell without a row

  const FIRST_SELL := OrderIntent("d", "a", "SPY", Sell, 0, 1.0, 0, None, Some(1.0))
  const REPLANNED_SELL := OrderIntent("d", "b", "SPY", Sell, 1, 1.0, 0, None, Some(1.0))
  const FUNDED_BUY := OrderIntent("d", "c", "QQQ", Buy, 2, 1.0, 0, Some(1.0), None)

  /**
   The sell gate has a hole: a sell re-planned under another client id is refused by the
   one-intent-per-decision-symbol-side rule, has no row, and counts as resolved. The batch's buy then
   reaches the broker while the first sell of that very decision and symbol is still in flight.
   */
  lemma BuyOvertakesReplannedSell() returns (steps: seq<Step>, c: Call)
    ensures c in Run(steps).calls && c.intent.side == Buy
    ensures c.batch.Batch? && REPLANNED_SELL in c.batch.sells && REPLANNED_SELL.clientId !in c.store.orders
    ensures KeyFor(FIRST_SELL) == KeyFor(REPLANNED_SELL)
    ensures FIRST_SELL.clientId in c.store.orders
            && !Terminal(c.store.orders[FIRST_SELL.clientId].state)
  {
    var spawn0 := SpawnBatch(0, [FIRST_SELL], [], false);
    var s0 := Apply(INITIAL, spawn0);
    RunFromOne(INITIAL, spawn0);
    RunKeeps([spawn0]);
    FreshIntentReachesBroker(s0, 0, FIRST_SELL);
    steps := [spawn0] + SubmissionSteps(0);
    RunFromConcat(INITIAL, [spawn0], SubmissionSteps(0));
    RunKeeps(steps);
    assert KeyFor(REPLANNED_SELL) == Run(steps).store.intents[FIRST_SELL.clientId];
    steps, c := PassTheGate(steps);
  }

  /** A sell that a dry run recorded is passed over in the same way. */
  lemma BuyOvertakesRehearsedSell() returns (steps: seq<Step>, c: Call)
    ensures c in Run(steps).calls && c.intent.side == Buy
    ensures c.batch.Batch? && REPLANNED_SELL in c.batch.sells && REPLANNED_SELL.clientId !in c.store.orders
    ensures Rehearsed(c.store, REPLANNED_SELL.clientId) && !HeldElsewhere(c.store, REPLANNED_SELL)
  {
    steps := [DryRun([REPLANNED_SELL])];
    RunFromOne(INITIAL, steps[0]);
    assert [REPLANNED_SELL][..0] == [];
    assert RecordHypothetical(EMPTY_STORE, []) == (EMPTY_STORE, []);
    assert Run(steps).store == EMPTY_STORE.(intents := map[REPLANNED_SELL.clientId := KeyFor(REPLANNED_SELL)]);
    RunKeeps(steps);
    steps, c := PassTheGate(steps);
  }

  /** From any run with a free thread, an untaken buy and a taken, rowless sell, the batch reaches the broker with its buy. */
  lemma PassTheGate(before: seq<Step>) returns (steps: seq<Step>, c: Call)
    requires var s := Run(before);
             && 1 !in s.threads && IntentTaken(s.store, REPLANNED_SELL) && REPLANNED_SELL.clientId !in s.store.orders
             && !IntentTaken(s.store, FUNDED_BUY)
    ensures c in Run(steps).calls && c.intent == FUNDED_BUY
    ensures c.batch.Batch? && c.batch.sells == [REPLANNED_SELL]
    ensures c.store.intents == Run(before).store.intents[FUNDED_BUY.clientId := KeyFor(FUNDED_BUY)]
    ensures c.store.orders == Run(before).store.orders[FUNDED_BUY.clientId := OrderRow(SubmissionStarted, 0.0, None, None)]
  {
    var spawn := SpawnBatch(1, [REPLANNED_SELL], [FUNDED_BUY], false);
    RunFromConcat(INITIAL, before, [spawn] + GateSteps(1));
    var s := RunFrom(Run(before), [spawn] + GateSteps(1));
    RefusedSellPassesGate(Run(before), spawn);
    steps := before + ([spawn] + GateSteps(1));
    RunKeeps(steps);
    FreshIntentReachesBroker(s, 1, FUNDED_BUY);
    RunFromConcat(INITIAL, steps, SubmissionSteps(1));
    steps := steps + SubmissionSteps(1);
    c := Run(steps).calls[|Run(steps).calls| - 1];
  }

  function GateSteps(t: nat): seq<Step> {
    [Act(t, ReserveNext), Act(t, NextPhase), Act(t, CheckSell), Act(t, NextPhase)]
  }

  lemma RefusedSellPassesGate(s: Sys, spawn: Step)
    requires spawn == SpawnBatch(1, [REPLANNED_SELL], [FUNDED_BUY], false)
    requires 1 !in s.threads && IntentTaken(s.store, REPLANNED_SELL) && REPLANNED_SELL.clientId !in s.store.orders
    requires !IntentTaken(s.store, FUNDED_BUY)
    ensures var s' := RunFrom(s, [spawn] + GateSteps(1));
            && s'.store == s.store && 1 in s'.threads
            && s'.threads[1] == Thread(Batch([REPLANNED_SELL], [FUNDED_BUY], false, Buying(0), None, false), Idle)
            && !IntentTaken(s'.store, FUNDED_BUY)
  {
    var a := Apply(s, spawn);
    RefusalStep(a);
    var b := Apply(a, Act(1, ReserveNext));
    CheckSteps(b);
    FiveSteps(s, spawn, Act(1, ReserveNext), Act(1, NextPhase), Act(1, CheckSell), Act(1, NextPhase));
    assert [spawn] + GateSteps(1) == [spawn, Act(1, ReserveNext), Act(1, NextPhase), Act(1, CheckSell), Act(1, NextPhase)];
  }

  function ReplannedBatch(phase: Phase): Thread {
    Thread(Batch([REPLANNED_SELL], [FUNDED_BUY], false, phase, None, false), Idle)
  }

  lemma RefusalStep(s: Sys)
    requires IntentTaken(s.store, REPLANNED_SELL)
    requires 1 in s.threads && s.threads[1] == ReplannedBatch(Selling(0))
    ensures var s' := Apply(s, Act(1, ReserveNext));
            && s'.store == s.store
            && 1 in s'.threads && s'.threads[1] == ReplannedBatch(Selling(1))
  {
    assert Reserve(s.store, REPLANNED_SELL) == (s.store, false);
  }

  lemma CheckSteps(s: Sys)
    requires 1 in s.threads && s.threads[1] == ReplannedBatch(Selling(1))
    requires REPLANNED_SELL.clientId !in s.store.orders
    ensures var s' := Apply(Apply(Apply(s, Act(1, NextPhase)), Act(1, CheckSell)), Act(1, NextPhase));
            && s'.store == s.store && 1 in s'.threads
            && s'.threads[1] == ReplannedBatch(Buying(0))
  {
    var c := Apply(s, Act(1, NextPhase));
    assert c.threads[1] == ReplannedBatch(Checking(0));
    var d := Apply(c, Act(1, CheckSell));
    assert d.threads[1] == ReplannedBatch(Checking(1));
  }

  // ---------------------------------------------------------------- a call after the row has moved on

  const OLD_FILL := BrokerOrder("a", "A", "SPY", Sell, "filled", 0, None, 1.0, Some(1.0))

  /**
   The row need not read submission-started any more when the broker is called: the pre-submission
   lookup misses an order that is older than the intent, and reconciliation reports it as filled
   between the start and the call.
   */
  lemma CallAfterReconciledFill() returns (steps: seq<Step>, c: Call)
    ensures c in Run(steps).calls && c.intent == FIRST_SELL
    ensures FIRST_SELL.clientId in c.store.orders && c.store.orders[FIRST_SELL.clientId].state == LocalOrderState.Filled
  {
    var spawn := SpawnBatch(0, [FIRST_SELL], [], false);
    steps := [spawn, Act(0, ReserveNext), Act(0, Lookup(None)), Act(0, ReadRow), Act(0, CommitWrite)];
    FiveSteps(INITIAL, steps[0], steps[1], steps[2], steps[3], steps[4]);
    StartedSell();
    FillOvertakesCall(Run(steps));
    ThreeMore(steps, SpawnReconcile(1, OLD_FILL, 0.0), Act(1, ReadRow), Act(1, CommitWrite));
    steps := steps + [SpawnReconcile(1, OLD_FILL, 0.0), Act(1, ReadRow), Act(1, CommitWrite)];
    RunOneMore(steps, Act(0, CallBroker));
    CallNow(Run(steps), 0);
    steps := steps + [Act(0, CallBroker)];
    c := Run(steps).calls[0];
  }

  lemma ThreeMore(steps: seq<Step>, a: Step, b: Step, c: Step)
    ensures Run(steps + [a, b, c]) == Apply(Apply(Apply(Run(steps), a), b), c)
  {
    RunOneMore(steps, a);
    RunOneMore(steps + [a], b);
    RunOneMore(steps + [a] + [b], c);
    assert steps + [a] + [b] + [c] == steps + [a, b, c];
  }

  lemma CallNow(s: Sys, t: nat)
    requires t in s.threads && s.threads[t].pc.Calling?
    ensures Apply(s, Act(t, CallBroker)).calls == s.calls + [Call(s.threads[t].pc.intent, s.threads[t].batch, s.store)]
  {
  }

  lemma StartedSell()
    ensures var a := Apply(Apply(INITIAL, SpawnBatch(0, [FIRST_SELL], [], false)), Act(0, ReserveNext));
            var s := Apply(Apply(Apply(a, Act(0, Lookup(None))), Act(0, ReadRow)), Act(0, CommitWrite));
            && s.store.orders == map["a" := OrderRow(SubmissionStarted, 0.0, None, None)]
            && (forall e :: e in s.store.events ==> e.key.ReserveKey? || e.key.StartedKey?)
            && s.calls == [] && 0 in s.threads && s.threads[0].pc == Calling(FIRST_SELL) && 1 !in s.threads
  {
    var s0 := Apply(INITIAL, SpawnBatch(0, [FIRST_SELL], [], false));
    assert Current(s0.threads[0].batch) == Some(FIRST_SELL);
    var a := Apply(s0, Act(0, ReserveNext));
    assert a.store == Reserve(EMPTY_STORE, FIRST_SELL).0;
    assert a.store.events == [OrderEvent(ReserveKey("a"), "a", Planned, LocallyReserved)];
    var b := Apply(a, Act(0, Lookup(None)));
    var c := Apply(b, Act(0, ReadRow));
    assert c.threads[0].pc == Writing(StartWrite(FIRST_SELL), LocallyReserved, 0.0, ThenCall(FIRST_SELL));
    assert !HasEvent(c.store, StartedKey("a"));
  }

  lemma FillOvertakesCall(s: Sys)
    requires s.store.orders == map["a" := OrderRow(SubmissionStarted, 0.0, None, None)]
    requires forall e :: e in s.store.events ==> e.key.ReserveKey? || e.key.StartedKey?
    requires 0 in s.threads && s.threads[0].pc == Calling(FIRST_SELL) && 1 !in s.threads
    ensures var s' := Apply(Apply(Apply(s, SpawnReconcile(1, OLD_FILL, 0.0)), Act(1, ReadRow)), Act(1, CommitWrite));
            && s'.calls == s.calls && 0 in s'.threads && s'.threads[0] == s.threads[0]
            && "a" in s'.store.orders && s'.store.orders["a"].state == LocalOrderState.Filled
  {
    FilledWord();
    ReconcilerReads(s, 1, OLD_FILL, 0.0);
    var b := Apply(Apply(s, SpawnReconcile(1, OLD_FILL, 0.0)), Act(1, ReadRow));
    assert b.threads[1].pc == Writing(ReconcileWrite(OLD_FILL), SubmissionStarted, 0.0, ThenRepair(OLD_FILL, 0.0));
    assert !HasEvent(b.store, ReconcileWrite(OLD_FILL).key);
    ReconcilerCommits(b, 1, OLD_FILL, 0.0);
  }

  // ---------------------------------------------------------------- interleaved trade updates

  const ORDER_REPORT := BrokerOrder("a", "A", "SPY", Sell, "partial_fill", 0, None, 0.0, None)

  /** The k-th report of a partially filled order, at a cumulative quantity of ten shares per report. */
  function Report(name: string, filled: real): TradeUpdate {
    TradeUpdate("partial_fill", ORDER_REPORT.(filledQuantity := filled), 0, Some(name), None, Some(1.0))
  }

  predicate ReadyToCommit(s: Sys, t: nat, u: TradeUpdate, prior: real) {
    t in s.threads && s.threads[t] == Thread(NoBatch, Writing(UpdateWrite(u), PartiallyFilled, prior, ThenFill(u)))
  }

  /** A handler that finds its event new reads the row and is ready to commit. */
  lemma HandlerReads(s: Sys, t: nat, u: TradeUpdate)
    requires t !in s.threads && !HasEvent(s.store, UpdateKey(u.Fingerprint()))
    requires UpdateTarget(u) == PartiallyFilled
    requires u.order.clientId in s.store.orders && s.store.orders[u.order.clientId].state == PartiallyFilled
    ensures var s' := Apply(Apply(Apply(s, SpawnUpdate(t, u)), Act(t, CheckEvent)), Act(t, ReadRow));
            && s'.store == s.store && s'.calls == s.calls
            && ReadyToCommit(s', t, u, s.store.orders[u.order.clientId].filled)
            && s'.threads == s.threads[t := s'.threads[t]]
  {
    var a := Apply(s, SpawnUpdate(t, u));
    var b := Apply(a, Act(t, CheckEvent));
    assert b.threads[t].pc == Reading(UpdateWrite(u), ThenFill(u));
    var c := Apply(b, Act(t, ReadRow));
    assert c.threads == s.threads[t := c.threads[t]];
  }

  /** Committing and recording a ready handler while the row is still partially filled. */
  lemma HandlerCommits(s: Sys, t: nat, u: TradeUpdate, prior: real)
    requires ReadyToCommit(s, t, u, prior)
    requires UpdateTarget(u) == PartiallyFilled && u.fillPrice.Some? && u.order.filledQuantity > prior
    requires u.order.clientId in s.store.orders && s.store.orders[u.order.clientId].state == PartiallyFilled
    requires !HasEvent(s.store, UpdateKey(u.Fingerprint())) && !HasFill(s.store, u.FillKey())
    requires !BrokerIdTaken(s.store, u.order.clientId, Some(u.order.brokerId))
    ensures var s' := Apply(Apply(s, Act(t, CommitWrite)), Act(t, CommitFill));
            var id := u.order.clientId;
            && s'.store.orders.Keys == s.store.orders.Keys
            && s'.store.orders[id].state == PartiallyFilled
            && s'.store.orders[id].filled == u.order.filledQuantity
            && s'.store.events == s.store.events + [OrderEvent(UpdateKey(u.Fingerprint()), id, PartiallyFilled, PartiallyFilled)]
            && s'.store.fills == s.store.fills + [FillRow(u.FillKey(), id, u.order.filledQuantity - prior, u.fillPrice.value)]
            && s'.threads == s.threads - {t}
  {
    var a := Apply(s, Act(t, CommitWrite));
    assert a.threads[t].pc.Filling?;
    var b := Apply(a, Act(t, CommitFill));
    assert b.threads == s.threads - {t};
  }

  /**
   Two handlers that both read before either commits: the ledger ends at thirty shares for an order
   whose stored, and reported, cumulative quantity is twenty.
   */
  lemma InterleavedUpdatesOvercount(s: Sys)
    requires s.store.orders.Keys == {"a"} && s.store.orders["a"].state == PartiallyFilled
    requires s.store.orders["a"].filled == 0.0 && s.store.fills == []
    requires 2 !in s.threads && 3 !in s.threads
    requires forall e :: e in s.store.events ==>
               e.key != UpdateKey(ByEvent("one")) && e.key != UpdateKey(ByEvent("two"))
    ensures var s' := RunFrom(s, OvercountSteps());
            s'.store.orders.Keys == {"a"} && s'.store.orders["a"].filled == 20.0 && FillTotal(s'.store.fills, "a") == 30.0
  {
    var one, two := Report("one", 10.0), Report("two", 20.0);
    TwoHandlers(s, one, two);
    var front := [SpawnUpdate(2, one), Act(2, CheckEvent), Act(2, ReadRow), SpawnUpdate(3, two), Act(3, CheckEvent)];
    FiveSteps(s, SpawnUpdate(2, one), Act(2, CheckEvent), Act(2, ReadRow), SpawnUpdate(3, two), Act(3, CheckEvent));
    var back := [Act(3, ReadRow), Act(2, CommitWrite), Act(2, CommitFill), Act(3, CommitWrite), Act(3, CommitFill)];
    FiveSteps(RunFrom(s, front), Act(3, ReadRow), Act(2, CommitWrite), Act(2, CommitFill), Act(3, CommitWrite), Act(3, CommitFill));
    RunFromConcat(s, front, back);
    assert OvercountSteps() == front + back;
  }

  function BothRead(s: Sys, one: TradeUpdate, two: TradeUpdate): Sys {
    var a := Apply(Apply(Apply(s, SpawnUpdate(2, one)), Act(2, CheckEvent)), Act(2, ReadRow));
    Apply(Apply(Apply(a, SpawnUpdate(3, two)), Act(3, CheckEvent)), Act(3, ReadRow))
  }

  function BothCommit(s: Sys): Sys {
    var c := Apply(Apply(s, Act(2, CommitWrite)), Act(2, CommitFill));
    Apply(Apply(c, Act(3, CommitWrite)), Act(3, CommitFill))
  }

  lemma TwoHandlers(s: Sys, one: TradeUpdate, two: TradeUpdate)
    requires one == Report("one", 10.0) && two == Report("two", 20.0)
    requires s.store.orders.Keys == {"a"} && s.store.orders["a"].state == PartiallyFilled
    requires s.store.orders["a"].filled == 0.0 && s.store.fills == []
    requires 2 !in s.threads && 3 !in s.threads
    requires forall e :: e in s.store.events ==>
               e.key != UpdateKey(ByEvent("one")) && e.key != UpdateKey(ByEvent("two"))
    ensures var s' := BothCommit(BothRead(s, one, two));
            s'.store.orders.Keys == {"a"} && s'.store.orders["a"].filled == 20.0 && FillTotal(s'.store.fills, "a") == 30.0
  {
    PartialFillWord();
    HandlerReads(s, 2, one);
    var a := Apply(Apply(Apply(s, SpawnUpdate(2, one)), Act(2, CheckEvent)), Act(2, ReadRow));
    HandlerReads(a, 3, two);
    var b := BothRead(s, one, two);
    HandlerCommits(b, 2, one, 0.0);
    var c := Apply(Apply(b, Act(2, CommitWrite)), Act(2, CommitFill));
    HandlerCommits(c, 3, two, 0.0);
    TwoFills(FillRow(one.FillKey(), "a", 10.0, 1.0), FillRow(two.FillKey(), "a", 20.0, 1.0));
  }

  lemma TwoFills(f: FillRow, g: FillRow)
    requires f.clientId == g.clientId
    ensures FillTotal([f] + [g], f.clientId) == f.quantity + g.quantity
    ensures [] + [f] == [f]
  {
    FillTotalAppend([], f, f.clientId);
    FillTotalAppend([f], g, f.clientId);
    assert [] + [f] == [f];
  }

  function OvercountSteps(): seq<Step> {
    [SpawnUpdate(2, Report("one", 10.0)), Act(2, CheckEvent), Act(2, ReadRow),
     SpawnUpdate(3, Report("two", 20.0)), Act(3, CheckEvent), Act(3, ReadRow),
     Act(2, CommitWrite), Act(2, CommitFill), Act(3, CommitWrite), Act(3, CommitFill)]
  }

  const ZERO_REPORT := Report("zero", 0.0)

  /** A sell is reserved and reported as partially filled, with nothing filled yet. */
  function PartialSteps(): seq<Step> {
    [SpawnBatch(0, [FIRST_SELL], [], false), Act(0, ReserveNext), SpawnUpdate(1, ZERO_REPORT), Act(1, CheckEvent), Act(1, ReadRow)]
    + [Act(1, CommitWrite)]
  }

  lemma PartialOrder()
    ensures var s := Run(PartialSteps());
            && s.store.orders.Keys == {"a"} && s.store.orders["a"].state == PartiallyFilled
            && s.store.orders["a"].filled == 0.0 && s.store.fills == [] && s.threads.Keys == {0}
            && s.store.events == [OrderEvent(ReserveKey("a"), "a", Planned, LocallyReserved),
                                  OrderEvent(UpdateKey(ByEvent("zero")), "a", LocallyReserved, PartiallyFilled)]
    ensures var s := Run(PartialSteps()[..5]);
            1 in s.threads && s.threads[1].pc.Writing? && s.threads[1].pc.w == UpdateWrite(ZERO_REPORT)
  {
    PartialFillWord();
    var five := [SpawnBatch(0, [FIRST_SELL], [], false), Act(0, ReserveNext), SpawnUpdate(1, ZERO_REPORT), Act(1, CheckEvent), Act(1, ReadRow)];
    FiveSteps(INITIAL, five[0], five[1], five[2], five[3], five[4]);
    ReservedThenRead(ZERO_REPORT);
    RunOneMore(five, Act(1, CommitWrite));
    FirstReport(Run(five), ZERO_REPORT);
    assert PartialSteps() == five + [Act(1, CommitWrite)] && PartialSteps()[..5] == five;
  }

  /** And such a system is reached from the empty one. */
  lemma OvercountIsReachable() returns (steps: seq<Step>)
    ensures "a" in Run(steps).store.orders
    ensures FillTotal(Run(steps).store.fills, "a") > Run(steps).store.orders["a"].filled
  {
    PartialOrder();
    InterleavedUpdatesOvercount(Run(PartialSteps()));
    RunFromConcat(INITIAL, PartialSteps(), OvercountSteps());
    steps := PartialSteps() + OvercountSteps();
  }

  lemma ReservedThenRead(first: TradeUpdate)
    requires first == Report("zero", 0.0) && UpdateTarget(first) == PartiallyFilled
    ensures var s := Apply(Apply(INITIAL, SpawnBatch(0, [FIRST_SELL], [], false)), Act(0, ReserveNext));
            var s' := Apply(Apply(Apply(s, SpawnUpdate(1, first)), Act(1, CheckEvent)), Act(1, ReadRow));
            && s'.store.orders == map["a" := OrderRow(LocallyReserved, 0.0, None, None)]
            && s'.store.events == [OrderEvent(ReserveKey("a"), "a", Planned, LocallyReserved)]
            && s'.store.fills == [] && s'.threads.Keys == {0, 1}
            && s'.threads[1] == Thread(NoBatch, Writing(UpdateWrite(first), LocallyReserved, 0.0, ThenFill(first)))
  {
    var s0 := Apply(INITIAL, SpawnBatch(0, [FIRST_SELL], [], false));
    assert Current(s0.threads[0].batch) == Some(FIRST_SELL);
    var s := Apply(s0, Act(0, ReserveNext));
    assert s.store == Reserve(EMPTY_STORE, FIRST_SELL).0;
    assert s.store.events == [OrderEvent(ReserveKey("a"), "a", Planned, LocallyReserved)];
    var s2 := Apply(s, SpawnUpdate(1, first));
    assert !HasEvent(s2.store, UpdateKey(first.Fingerprint()));
    var s3 := Apply(s2, Act(1, CheckEvent));
    assert s3.threads[1].pc == Reading(UpdateWrite(first), ThenFill(first));
  }

  lemma FirstReport(s: Sys, first: TradeUpdate)
    requires first == Report("zero", 0.0) && UpdateTarget(first) == PartiallyFilled
    requires s.store.orders == map["a" := OrderRow(LocallyReserved, 0.0, None, None)]
    requires s.store.events == [OrderEvent(ReserveKey("a"), "a", Planned, LocallyReserved)]
    requires 1 in s.threads
    requires s.threads[1] == Thread(NoBatch, Writing(UpdateWrite(first), LocallyReserved, 0.0, ThenFill(first)))
    ensures var s' := Apply(s, Act(1, CommitWrite));
            && s'.store.orders.Keys == {"a"} && s'.store.orders["a"].state == PartiallyFilled
            && s'.store.orders["a"].filled == 0.0 && s'.store.fills == s.store.fills
            && s'.threads == s.threads - {1}
            && s'.store.events == s.store.events + [OrderEvent(UpdateKey(first.Fingerprint()), "a", LocallyReserved, PartiallyFilled)]
  {
    assert !HasEvent(s.store, UpdateKey(first.Fingerprint()));
    assert Transition(s.store, UpdateWrite(first), LocallyReserved).1 == Applied;
  }
}
