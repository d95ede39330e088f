/** When the order row still reads submission-started at the moment the broker is called. */
module DurableStart {
  import opened Prelude
  import opened LiveModels
  import opened OrderStates
  import opened OrderStore
  import opened OrderWrites
  import opened OrderProtocol

  // ---------------------------------------------------------------- one busy thread per order

  /** A batch thread in the middle of submitting its current intent. */
  predicate Busy(th: Thread) { th.batch.Batch? && th.pc != Idle && Current(th.batch).Some? }

  function BusyId(th: Thread): ClientId
    requires Busy(th)
  {
    Current(th.batch).value.clientId
  }

  /** Batch threads write their current order only; other threads write states the broker reports. */
  ghost predicate WritesOwn(th: Thread) {
    && (th.batch.Batch? ==> !th.pc.CheckingEvent? && !th.pc.Filling? && !th.pc.Auditing?)
    && (th.pc.Reading? || th.pc.Writing? ==>
          && (th.batch.Batch? ==> !th.pc.next.ThenFill? && !th.pc.next.ThenRepair? && Current(th.batch).Some? && th.pc.w.clientId == Current(th.batch).value.clientId)
          && (th.batch.NoBatch? ==> Stage(th.pc.w.target) == 4 && !th.pc.next.ThenCall?))
  }

  ghost predicate Solo(threads: map<nat, Thread>) {
    forall t, u :: t in threads && u in threads && t != u && Busy(threads[t]) && Busy(threads[u]) ==>
      BusyId(threads[t]) != BusyId(threads[u])
  }

  ghost predicate Own(s: Sys) {
    (forall t :: t in s.threads ==> WritesOwn(s.threads[t])) && Solo(s.threads)
  }

  /** A thread is busy with the order it was busy with before, or with one that had no row before. */
  ghost predicate StaysBusy(s: Sys, th: Thread, th': Thread) {
    Busy(th') ==> (Busy(th) && BusyId(th) == BusyId(th')) || BusyId(th') !in s.store.orders
  }

  ghost predicate MovesOnly(s: Sys, s': Sys, t: nat) {
    forall u :: u != t ==> (u in s.threads <==> u in s'.threads) && (u in s.threads ==> s'.threads[u] == s.threads[u])
  }

  lemma BroadcastTargets(order: BrokerOrder, u: TradeUpdate)
    ensures Stage(ReconcileWrite(order).target) == 4 && Stage(UpdateWrite(u).target) == 4
  {
    BrokerStatusIsExternal(order.status);
    BrokerStatusIsExternal(if u.event != "" then u.event else u.order.status);
  }

  lemma FinishMoves(s: Sys, t: nat)
    requires t in s.threads
    ensures MovesOnly(s, Finish(s, t), t) && Finish(s, t).store == s.store
    ensures t in Finish(s, t).threads ==> Finish(s, t).threads[t].pc == Idle
  {
  }

  lemma ReserveMoves(s: Sys, t: nat)
    requires Inv(s) && t in s.threads && WritesOwn(s.threads[t])
    ensures var s' := DoReserve(s, t);
            MovesOnly(s, s', t) && (t in s'.threads ==> WritesOwn(s'.threads[t]) && StaysBusy(s, s.threads[t], s'.threads[t]))
  {
    var th := s.threads[t];
    if th.pc == Idle && Current(th.batch).Some? {
      var intent := Current(th.batch).value;
      ReserveGrows(s.store, intent);
      FinishMoves(s.(store := Reserve(s.store, intent).0), t);
    }
  }

  lemma SubmissionMoves(s: Sys, t: nat, action: Action)
    requires Inv(s) && t in s.threads && WritesOwn(s.threads[t])
    requires action.Lookup? || action.ReadRow? || action.CallBroker? || action.BrokerReply?
    ensures var s' := Do(s, t, action);
            MovesOnly(s, s', t) && (t in s'.threads ==> WritesOwn(s'.threads[t]) && StaysBusy(s, s.threads[t], s'.threads[t]))
  {
    assert ThreadFits(s.store, s.threads[t]);
  }

  /** What becomes of a committing thread. */
  lemma WriteOutcomes(s: Sys, t: nat)
    requires t in s.threads && s.threads[t].pc.Writing?
    ensures var th := s.threads[t];
            var s1 := s.(store := Transition(s.store, th.pc.w, th.pc.expected).0);
            || DoWrite(s, t) == Drop(s1, t)
            || (!th.pc.next.ThenCall? && DoWrite(s, t) == Finish(s1, t))
            || (th.pc.next.ThenRepair? && DoWrite(s, t) == Put(s1, t, th.(pc := Auditing(th.pc.next.order, th.pc.next.tolerance))))
            || (th.pc.next.ThenCall? && Transition(s.store, th.pc.w, th.pc.expected).1 != Refused
                && DoWrite(s, t) == Put(s1, t, th.(pc := Calling(th.pc.next.intent))))
            || (th.pc.next.ThenFill? && FillFor(th.pc.next.update, th.pc.prior).Some?
                && DoWrite(s, t) == Put(s1, t, th.(pc := Filling(FillFor(th.pc.next.update, th.pc.prior).value))))
  {
  }

  lemma WriteMoves(s: Sys, t: nat)
    requires Inv(s) && t in s.threads && WritesOwn(s.threads[t])
    ensures var s' := DoWrite(s, t);
            MovesOnly(s, s', t) && (t in s'.threads ==> WritesOwn(s'.threads[t]) && StaysBusy(s, s.threads[t], s'.threads[t]))
  {
    if s.threads[t].pc.Writing? {
      WriteOutcomes(s, t);
      FinishMoves(s.(store := Transition(s.store, s.threads[t].pc.w, s.threads[t].pc.expected).0), t);
    }
  }

  lemma BatchMoves(s: Sys, t: nat, action: Action)
    requires Inv(s) && t in s.threads && WritesOwn(s.threads[t])
    requires action.CallbackReply? || action.CheckSell? || action.NextPhase? || action.Crash?
    ensures var s' := Do(s, t, action);
            MovesOnly(s, s', t) && (t in s'.threads ==> WritesOwn(s'.threads[t]) && StaysBusy(s, s.threads[t], s'.threads[t]))
  {
  }

  lemma UpdateMoves(s: Sys, t: nat, action: Action)
    requires Inv(s) && t in s.threads && WritesOwn(s.threads[t])
    requires action.CheckEvent? || action.CommitFill? || action.ReadLedger?
    ensures var s' := Do(s, t, action);
            MovesOnly(s, s', t) && (t in s'.threads ==> WritesOwn(s'.threads[t]) && StaysBusy(s, s.threads[t], s'.threads[t]))
  {
    var th := s.threads[t];
    if th.pc.CheckingEvent? {
      BroadcastTargets(th.pc.update.order, th.pc.update);
    }
    if th.pc.Filling? {
      FinishMoves(s.(store := RecordFill(s.store, th.pc.fill)), t);
    }
    FinishMoves(s, t);
  }

  /** Every action moves its own thread only, and never onto an order another thread is busy with. */
  lemma ActionMoves(s: Sys, t: nat, action: Action)
    requires Inv(s) && t in s.threads && WritesOwn(s.threads[t])
    ensures var s' := Do(s, t, action);
            MovesOnly(s, s', t) && (t in s'.threads ==> WritesOwn(s'.threads[t]) && StaysBusy(s, s.threads[t], s'.threads[t]))
  {
    match action
    case ReserveNext => ReserveMoves(s, t);
    case Lookup(_) => SubmissionMoves(s, t, action);
    case ReadRow => SubmissionMoves(s, t, action);
    case CallBroker => SubmissionMoves(s, t, action);
    case BrokerReply(_) => SubmissionMoves(s, t, action);
    case CommitWrite => WriteMoves(s, t);
    case CheckEvent => UpdateMoves(s, t, action);
    case CommitFill => UpdateMoves(s, t, action);
    case ReadLedger => UpdateMoves(s, t, action);
    case _ => BatchMoves(s, t, action);
  }

  lemma MoveKeepsOwn(s: Sys, s': Sys, t: nat)
    requires Inv(s) && Own(s) && MovesOnly(s, s', t)
    requires t in s'.threads ==> WritesOwn(s'.threads[t])
    requires t in s'.threads && Busy(s'.threads[t]) ==> t in s.threads && StaysBusy(s, s.threads[t], s'.threads[t])
    ensures Own(s')
  {
    forall u | u in s'.threads && u != t && Busy(s'.threads[u])
      ensures BusyId(s'.threads[u]) in s.store.orders
    {
      assert ThreadFits(s.store, s.threads[u]);
    }
  }

  lemma StepKeepsOwn(s: Sys, step: Step)
    requires Inv(s) && Own(s)
    ensures Own(Apply(s, step))
  {
    match step
    case SpawnBatch(t, sells, buys, callback) => MoveKeepsOwn(s, Apply(s, step), t);
    case SpawnUpdate(t, update) => MoveKeepsOwn(s, Apply(s, step), t);
    case SpawnReconcile(t, order, _) =>
      BrokerStatusIsExternal(order.status);
      MoveKeepsOwn(s, Apply(s, step), t);
    case DryRun(_) =>
    case Act(t, action) =>
      if t in s.threads {
        ActionMoves(s, t, action);
        MoveKeepsOwn(s, Apply(s, step), t);
      }
  }

  lemma {:induction false} RunKeepsOwn(steps: seq<Step>)
    ensures Own(Run(steps))
  {
    if steps != [] {
      RunKeepsOwn(steps[..|steps| - 1]);
      RunKeeps(steps[..|steps| - 1]);
      StepKeepsOwn(Run(steps[..|steps| - 1]), steps[|steps| - 1]);
    }
  }

  // ---------------------------------------------------------------- writes and calls within a run

  /** Step `m` commits a write of this order. */
  ghost predicate WriteAppliedAt(steps: seq<Step>, m: nat, id: ClientId) {
    && m < |steps| && steps[m].Act? && steps[m].action == CommitWrite
    && var s, t := Run(steps[..m]), steps[m].t;
       && t in s.threads && s.threads[t].pc.Writing? && s.threads[t].pc.w.clientId == id
       && Transition(s.store, s.threads[t].pc.w, s.threads[t].pc.expected).1 == Applied
  }

  /** Step `m` commits an update handler's or the reconciler's write of this order. */
  ghost predicate OutsideWriteAt(steps: seq<Step>, m: nat, id: ClientId) {
    WriteAppliedAt(steps, m, id) && Run(steps[..m]).threads[steps[m].t].batch.NoBatch?
  }

  /** Step `n` is the broker call `c`. */
  ghost predicate MadeAt(steps: seq<Step>, n: nat, c: Call) {
    && n < |steps| && steps[n].Act? && steps[n].action == CallBroker
    && var s, t := Run(steps[..n]), steps[n].t;
       && t in s.threads && s.threads[t].pc == Calling(c.intent)
       && c == Call(c.intent, s.threads[t].batch, s.store)
  }

  lemma CallsOfStep(s: Sys, step: Step)
    ensures Apply(s, step).calls == s.calls
            || (step.Act? && step.action == CallBroker && step.t in s.threads && s.threads[step.t].pc.Calling?
                && Apply(s, step).calls == s.calls + [Call(s.threads[step.t].pc.intent, s.threads[step.t].batch, s.store)])
  {
  }

  /** Every recorded call was made at some step. */
  lemma {:induction false} EveryCallIsMade(steps: seq<Step>, c: Call)
    requires c in Run(steps).calls
    ensures exists n: nat :: MadeAt(steps, n, c)
  {
    var last := |steps| - 1;
    var front := steps[..last];
    CallsOfStep(Run(front), steps[last]);
    if c in Run(front).calls {
      EveryCallIsMade(front, c);
      var n: nat :| MadeAt(front, n, c);
      assert front[..n] == steps[..n];
      assert MadeAt(steps, n, c);
    } else {
      assert MadeAt(steps, last, c);
    }
  }

  // ---------------------------------------------------------------- an order nobody else writes

  /** Whoever still has to call the broker for this order finds the row where it left it. */
  ghost predicate Undisturbed(s: Sys, id: ClientId) {
    forall t :: t in s.threads && Owned(s.threads[t].pc) == Some(id) ==> RowIsHis(s, t, id)
  }

  ghost predicate RowIsHis(s: Sys, t: nat, id: ClientId)
    requires t in s.threads
  {
    && id in s.store.orders
    && (s.store.orders[id].state == SubmissionStarted
        || (s.store.orders[id].state == LocallyReserved && !s.threads[t].pc.Calling?))
  }

  lemma OwnerIsBusy(s: Sys, t: nat)
    requires Inv(s) && t in s.threads && Owned(s.threads[t].pc).Some?
    ensures Busy(s.threads[t]) && BusyId(s.threads[t]) == Owned(s.threads[t].pc).value
    ensures BusyId(s.threads[t]) in s.store.orders
  {
    assert ThreadFits(s.store, s.threads[t]) && OwnerFits(s, s.threads[t]);
  }

  /** The row of an order changes only by its own reservation or by an applied write of it. */
  lemma RowStays(s: Sys, t: nat, action: Action, id: ClientId)
    requires t in s.threads && id in s.store.orders
    requires action == CommitWrite && s.threads[t].pc.Writing? && s.threads[t].pc.w.clientId == id ==>
               Transition(s.store, s.threads[t].pc.w, s.threads[t].pc.expected).1 != Applied
    ensures var s' := Do(s, t, action); id in s'.store.orders && s'.store.orders[id] == s.store.orders[id]
  {
    if action != CommitWrite {
      OtherStores(s, t, action);
    } else if s.threads[t].pc.Writing? {
      WriteStore(s, t);
    }
  }

  lemma OtherStores(s: Sys, t: nat, action: Action)
    requires t in s.threads && action != CommitWrite
    ensures forall id :: id in s.store.orders ==>
              id in Do(s, t, action).store.orders && Do(s, t, action).store.orders[id] == s.store.orders[id]
  {
  }

  /** The committing thread of an applied write that is not an outside write is the busy one. */
  ghost predicate NoOutsideCommit(s: Sys, t: nat, action: Action, id: ClientId)
    requires t in s.threads
  {
    action == CommitWrite && s.threads[t].pc.Writing? && s.threads[t].pc.w.clientId == id && s.threads[t].batch.NoBatch? ==>
      Transition(s.store, s.threads[t].pc.w, s.threads[t].pc.expected).1 != Applied
  }

  lemma OthersUndisturbed(s: Sys, t: nat, action: Action, id: ClientId, u: nat)
    requires Inv(s) && Own(s) && Undisturbed(s, id) && t in s.threads && NoOutsideCommit(s, t, action, id)
    requires u in s.threads && u != t && Owned(s.threads[u].pc) == Some(id)
    ensures var s' := Do(s, t, action); id in s'.store.orders && s'.store.orders[id] == s.store.orders[id]
  {
    OwnerIsBusy(s, u);
    if action == CommitWrite && s.threads[t].pc.Writing? && s.threads[t].pc.w.clientId == id && s.threads[t].batch.Batch? {
      assert false;
    }
    RowStays(s, t, action, id);
  }

  lemma StartedIsNotReserved(s: Store, id: ClientId)
    requires ValidStore(s) && Started(s, id) && id in s.orders
    ensures s.orders[id].state != LocallyReserved
  {
    var h := History(s, id);
    assert RowAgrees(s, id);
    var k :| 0 <= k < |h| && h[k] == SubmissionStarted;
    if k < |h| - 1 {
      StageNeverFalls(h, k, |h| - 1);
    }
  }

  /** A start that goes through, or had gone through before, leaves the row started if nobody else wrote it. */
  lemma StartLeavesStarted(s: Sys, t: nat, intent: OrderIntent)
    requires Inv(s) && Undisturbed(s, intent.clientId) && t in s.threads && s.threads[t].pc.Writing?
    requires s.threads[t].pc.next == ThenCall(intent) && Transition(s.store, s.threads[t].pc.w, s.threads[t].pc.expected).1 != Refused
    ensures var store, id := Transition(s.store, s.threads[t].pc.w, s.threads[t].pc.expected).0, intent.clientId;
            id in store.orders && store.orders[id].state == SubmissionStarted
  {
    assert ThreadFits(s.store, s.threads[t]);
    assert Owned(s.threads[t].pc) == Some(intent.clientId);
    if Transition(s.store, s.threads[t].pc.w, s.threads[t].pc.expected).1 == DuplicateEvent {
      StartIsDurable(s.store, intent, s.threads[t].pc.expected);
      StartedIsNotReserved(s.store, intent.clientId);
    }
  }

  lemma ReservedRow(s: Store, intent: OrderIntent)
    requires ValidStore(s) && Reserve(s, intent).1
    ensures var store := Reserve(s, intent).0;
            intent.clientId in store.orders && store.orders[intent.clientId].state == LocallyReserved
  {
  }

  lemma SelfReserves(s: Sys, t: nat, id: ClientId)
    requires Inv(s) && Undisturbed(s, id) && t in s.threads
    requires var s' := DoReserve(s, t); t in s'.threads && Owned(s'.threads[t].pc) == Some(id)
    ensures RowIsHis(DoReserve(s, t), t, id)
  {
    var th := s.threads[t];
    if th.pc == Idle && Current(th.batch).Some? {
      var (store, reserved) := Reserve(s.store, Current(th.batch).value);
      FinishMoves(s.(store := store), t);
      if reserved {
        ReservedRow(s.store, Current(th.batch).value);
      }
    }
  }

  /** Whoever owns an order after its commit is on its way to the broker. */
  lemma OwnsAfterCommit(s: Sys, t: nat)
    requires t in s.threads && s.threads[t].pc.Writing?
    requires t in DoWrite(s, t).threads && Owned(DoWrite(s, t).threads[t].pc).Some?
    ensures s.threads[t].pc.next.ThenCall? && Transition(s.store, s.threads[t].pc.w, s.threads[t].pc.expected).1 != Refused
    ensures Owned(DoWrite(s, t).threads[t].pc).value == s.threads[t].pc.next.intent.clientId
  {
    WriteOutcomes(s, t);
    FinishMoves(s.(store := Transition(s.store, s.threads[t].pc.w, s.threads[t].pc.expected).0), t);
  }

  lemma SelfCommits(s: Sys, t: nat, id: ClientId)
    requires Inv(s) && Undisturbed(s, id) && t in s.threads
    requires var s' := DoWrite(s, t); t in s'.threads && Owned(s'.threads[t].pc) == Some(id)
    ensures RowIsHis(DoWrite(s, t), t, id)
  {
    if s.threads[t].pc.Writing? {
      OwnsAfterCommit(s, t);
      StartLeavesStarted(s, t, s.threads[t].pc.next.intent);
      WriteStore(s, t);
    }
  }

  lemma SelfMoves(s: Sys, t: nat, action: Action, id: ClientId)
    requires Undisturbed(s, id) && t in s.threads && !action.ReserveNext? && !action.CommitWrite? && !action.CommitFill? && !action.ReadLedger?
    requires var s' := Do(s, t, action); t in s'.threads && Owned(s'.threads[t].pc) == Some(id)
    ensures RowIsHis(Do(s, t, action), t, id)
  {
  }

  lemma SelfUndisturbed(s: Sys, t: nat, action: Action, id: ClientId)
    requires Inv(s) && Undisturbed(s, id) && t in s.threads
    requires var s' := Do(s, t, action); t in s'.threads && Owned(s'.threads[t].pc) == Some(id)
    ensures RowIsHis(Do(s, t, action), t, id)
  {
    match action
    case ReserveNext => SelfReserves(s, t, id);
    case CommitWrite => SelfCommits(s, t, id);
    case CommitFill =>
      if s.threads[t].pc.Filling? {
        FinishMoves(s.(store := RecordFill(s.store, s.threads[t].pc.fill)), t);
      }
    case ReadLedger => FinishMoves(s, t);
    case _ => SelfMoves(s, t, action, id);
  }

  lemma StepKeepsUndisturbed(s: Sys, step: Step, id: ClientId)
    requires Inv(s) && Own(s) && Undisturbed(s, id)
    requires step.Act? && step.t in s.threads ==> NoOutsideCommit(s, step.t, step.action, id)
    ensures Undisturbed(Apply(s, step), id)
  {
    if step.Act? && step.t in s.threads {
      var t, s' := step.t, Do(s, step.t, step.action);
      ActionMoves(s, t, step.action);
      forall u | u in s'.threads && Owned(s'.threads[u].pc) == Some(id)
        ensures RowIsHis(s', u, id)
      {
        if u == t {
          SelfUndisturbed(s, t, step.action, id);
        } else {
          OthersUndisturbed(s, t, step.action, id, u);
        }
      }
    } else if step.DryRun? {
      HypotheticalStores(s.store, step.intents);
    }
  }

  lemma HypotheticalStores(s: Store, intents: seq<OrderIntent>)
    ensures RecordHypothetical(s, intents).0.orders == s.orders
  {
  }

  lemma {:induction false} RunKeepsUndisturbed(steps: seq<Step>, id: ClientId)
    requires forall m: nat :: m < |steps| ==> !OutsideWriteAt(steps, m, id)
    ensures Undisturbed(Run(steps), id)
  {
    if steps != [] {
      var n := |steps| - 1;
      var front := steps[..n];
      forall m: nat | m < n
        ensures !OutsideWriteAt(front, m, id)
      {
        assert front[..m] == steps[..m];
        assert !OutsideWriteAt(steps, m, id);
      }
      RunKeepsUndisturbed(front, id);
      RunKeeps(front);
      RunKeepsOwn(front);
      assert !OutsideWriteAt(steps, n, id);
      StepKeepsUndisturbed(Run(front), steps[n], id);
    }
  }

  // ---------------------------------------------------------------- what an outside write leaves

  lemma OutsideCommitLeavesStart(s: Sys, t: nat)
    requires Inv(s) && t in s.threads && s.threads[t].pc.Writing? && s.threads[t].batch.NoBatch? && WritesOwn(s.threads[t])
    requires Transition(s.store, s.threads[t].pc.w, s.threads[t].pc.expected).1 == Applied
    ensures var id, h := s.threads[t].pc.w.clientId, History(DoWrite(s, t).store, s.threads[t].pc.w.clientId);
            id in DoWrite(s, t).store.orders && |h| > 0 && Stage(h[|h| - 1]) == 4
  {
    var w := s.threads[t].pc.w;
    assert PcFits(s.store, s.threads[t].pc) by { assert ThreadFits(s.store, s.threads[t]); }
    TransitionKeepsPaths(s.store, w, s.threads[t].pc.expected);
    WriteStore(s, t);
  }

  lemma OutsideWriteAfter(steps: seq<Step>, m: nat, id: ClientId)
    requires OutsideWriteAt(steps, m, id)
    ensures var s, h := Run(steps[..m + 1]).store, History(Run(steps[..m + 1]).store, id);
            id in s.orders && |h| > 0 && Stage(h[|h| - 1]) == 4
  {
    RunKeeps(steps[..m]);
    RunKeepsOwn(steps[..m]);
    assert WritesOwn(Run(steps[..m]).threads[steps[m].t]);
    OutsideCommitLeavesStart(Run(steps[..m]), steps[m].t);
    NextState(steps, m);
  }

  /** After an outside write the order has left the early states for good. */
  lemma OutsideWriteLeavesStart(steps: seq<Step>, m: nat, n: nat, id: ClientId)
    requires OutsideWriteAt(steps, m, id) && m < n <= |steps|
    ensures var s := Run(steps[..n]); id in s.store.orders && s.store.orders[id].state != SubmissionStarted
  {
    OutsideWriteAfter(steps, m, id);
    PrefixExtends(steps, m + 1, n);
    RunKeeps(steps[..n]);
    StageSticks(Run(steps[..m + 1]).store, Run(steps[..n]).store, id);
  }

  lemma WriteStore(s: Sys, t: nat)
    requires t in s.threads && s.threads[t].pc.Writing?
    ensures DoWrite(s, t).store == Transition(s.store, s.threads[t].pc.w, s.threads[t].pc.expected).0
  {
  }

  lemma StageSticks(a: Store, b: Store, id: ClientId)
    requires ValidStore(b) && Grows(a, b) && id in a.orders
    requires var h := History(a, id); |h| > 0 && Stage(h[|h| - 1]) == 4
    ensures id in b.orders && Stage(b.orders[id].state) == 4
  {
    var h, g := History(a, id), History(b, id);
    assert RowAgrees(b, id) && h <= g;
    if |h| < |g| {
      StageNeverFalls(g, |h| - 1, |g| - 1);
    }
  }

  // ---------------------------------------------------------------- theorems

  /**
   The broker is called for an order while its row reads submission-started if and only if no update
   or reconciliation write of that order was committed before the call.
   */
  lemma CalledWhileStartedExactlyWhen(steps: seq<Step>, n: nat, c: Call)
    requires MadeAt(steps, n, c)
    ensures c.intent.clientId in c.store.orders
    ensures c.store.orders[c.intent.clientId].state == SubmissionStarted <==>
              forall m: nat :: m < n ==> !OutsideWriteAt(steps, m, c.intent.clientId)
  {
    var id, front, t := c.intent.clientId, steps[..n], steps[n].t;
    RunKeeps(front);
    OwnerIsBusy(Run(front), t);
    if forall m: nat :: m < n ==> !OutsideWriteAt(steps, m, id) {
      forall m: nat | m < n
        ensures !OutsideWriteAt(front, m, id)
      {
        assert front[..m] == steps[..m] && !OutsideWriteAt(steps, m, id);
      }
      RunKeepsUndisturbed(front, id);
    } else {
      var m: nat :| m < n && OutsideWriteAt(steps, m, id);
      OutsideWriteLeavesStart(steps, m, n, id);
    }
  }

  /** The step announces news about this order from the feed or the reconciler. */
  predicate Announces(step: Step, id: ClientId) {
    || (step.SpawnUpdate? && step.update.order.clientId == id)
    || (step.SpawnReconcile? && step.order.clientId == id)
  }

  /** No thread outside a batch deals with this order. */
  ghost predicate NobodyElse(s: Sys, id: ClientId) {
    forall t :: t in s.threads && s.threads[t].batch.NoBatch? ==>
      match s.threads[t].pc
      case CheckingEvent(u) => u.order.clientId != id
      case Reading(w, _) => w.clientId != id
      case Writing(w, _, _, _) => w.clientId != id
      case _ => true
  }

  lemma StepKeepsNobodyElse(s: Sys, step: Step, id: ClientId)
    requires Inv(s) && Own(s) && NobodyElse(s, id) && !Announces(step, id)
    ensures NobodyElse(Apply(s, step), id)
  {
    if step.Act? && step.t in s.threads {
      var t, s' := step.t, Do(s, step.t, step.action);
      ActionMoves(s, t, step.action);
      if t in s'.threads && s'.threads[t].batch.NoBatch? {
        OutsiderStays(s, t, step.action, id);
      }
    }
  }

  lemma OutsiderStays(s: Sys, t: nat, action: Action, id: ClientId)
    requires Inv(s) && t in s.threads && NobodyElse(s, id)
    requires var s' := Do(s, t, action); t in s'.threads && s'.threads[t].batch.NoBatch?
    ensures match Do(s, t, action).threads[t].pc
            case CheckingEvent(u) => u.order.clientId != id
            case Reading(w, _) => w.clientId != id
            case Writing(w, _, _, _) => w.clientId != id
            case _ => true
  {
    assert Submitting(s.threads[t].pc).None? by {
      assert ThreadFits(s.store, s.threads[t]);
      SameBatchKind(s, t, action);
    }
    if action == CommitWrite && s.threads[t].pc.Writing? {
      WriteOutcomes(s, t);
    }
  }

  /** No action puts a batch onto a thread that has none, or takes one away. */
  lemma SameBatchKind(s: Sys, t: nat, action: Action)
    requires t in s.threads && t in Do(s, t, action).threads
    ensures s.threads[t].batch.NoBatch? <==> Do(s, t, action).threads[t].batch.NoBatch?
  {
  }

  lemma {:induction false} UnannouncedStaysAlone(steps: seq<Step>, id: ClientId)
    requires forall m: nat :: m < |steps| ==> !Announces(steps[m], id)
    ensures NobodyElse(Run(steps), id)
  {
    if steps != [] {
      var front := steps[..|steps| - 1];
      UnannouncedStaysAlone(front, id);
      RunKeeps(front);
      RunKeepsOwn(front);
      StepKeepsNobodyElse(Run(front), steps[|steps| - 1], id);
    }
  }

  /** In terms of the inputs: without news of the order before the call, the row reads submission-started at the call. */
  lemma UnannouncedCallsAreStarted(steps: seq<Step>, n: nat, c: Call)
    requires MadeAt(steps, n, c)
    requires forall m: nat :: m < n ==> !Announces(steps[m], c.intent.clientId)
    ensures c.intent.clientId in c.store.orders && c.store.orders[c.intent.clientId].state == SubmissionStarted
  {
    var id := c.intent.clientId;
    forall m: nat | m < n
      ensures !OutsideWriteAt(steps, m, id)
    {
      UnannouncedStaysAlone(steps[..m], id);
    }
    CalledWhileStartedExactlyWhen(steps, n, c);
  }
}
