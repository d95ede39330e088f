/** What the fill ledger of an order holds in every run, however update handlers and the reconciler interleave. */
module ConcurrentFills {
  import opened Prelude
  import opened LiveModels
  import opened OrderStates
  import opened OrderStore
  import opened OrderWrites
  import opened OrderProtocol
  import opened DurableStart

  // ---------------------------------------------------------------- fills on their way to the ledger

  function PendingIn(th: Thread, id: ClientId): real {
    if th.pc.Filling? && th.pc.fill.clientId == id then th.pc.fill.quantity else 0.0
  }

  /** Fills of this order that some handler or the reconciler is about to record. */
  ghost function Pending(threads: map<nat, Thread>, id: ClientId): real {
    if threads == map[] then 0.0
    else
      var t :| t in threads;
      PendingIn(threads[t], id) + Pending(threads - {t}, id)
  }

  lemma {:induction false} PendingWithout(threads: map<nat, Thread>, t: nat, id: ClientId)
    requires t in threads
    ensures Pending(threads, id) == PendingIn(threads[t], id) + Pending(threads - {t}, id)
    decreases |threads|
  {
    var u :| u in threads && Pending(threads, id) == PendingIn(threads[u], id) + Pending(threads - {u}, id);
    if u != t {
      PendingWithout(threads - {u}, t, id);
      PendingWithout(threads - {t}, u, id);
      assert threads - {u} - {t} == threads - {t} - {u};
    }
  }

  function PendingAt(threads: map<nat, Thread>, t: nat, id: ClientId): real {
    if t in threads then PendingIn(threads[t], id) else 0.0
  }

  /** Moving one thread changes what is pending by what that thread has pending. */
  lemma PendingMoves(s: Sys, s': Sys, t: nat, id: ClientId)
    requires MovesOnly(s, s', t)
    ensures Pending(s'.threads, id) - Pending(s.threads, id) == PendingAt(s'.threads, t, id) - PendingAt(s.threads, t, id)
  {
    assert s.threads - {t} == s'.threads - {t};
    if t in s.threads {
      PendingWithout(s.threads, t, id);
    } else {
      assert s.threads - {t} == s.threads;
    }
    if t in s'.threads {
      PendingWithout(s'.threads, t, id);
    } else {
      assert s'.threads - {t} == s'.threads;
    }
  }

  // ---------------------------------------------------------------- handlers write what they were told

  ghost predicate HandlerFits(th: Thread) {
    && (th.pc.Reading? || th.pc.Writing? ==> (th.pc.next.ThenFill? ==> th.pc.w == UpdateWrite(th.pc.next.update)))
    && (th.pc.Filling? ==> th.pc.fill.quantity > 0.0)
  }

  ghost predicate HandlersFit(s: Sys) { forall t :: t in s.threads ==> HandlerFits(s.threads[t]) }

  lemma ActionKeepsHandler(s: Sys, t: nat, action: Action)
    requires t in s.threads && HandlerFits(s.threads[t])
    ensures t in Do(s, t, action).threads ==> HandlerFits(Do(s, t, action).threads[t])
  {
    if action == CommitWrite && s.threads[t].pc.Writing? {
      WriteOutcomes(s, t);
    }
  }

  lemma {:induction false} RunKeepsHandlers(steps: seq<Step>)
    ensures HandlersFit(Run(steps))
  {
    if steps != [] {
      var front, step := steps[..|steps| - 1], steps[|steps| - 1];
      RunKeepsHandlers(front);
      if step.Act? && step.t in Run(front).threads {
        RunKeeps(front);
        RunKeepsOwn(front);
        ActionMoves(Run(front), step.t, step.action);
        ActionKeepsHandler(Run(front), step.t, step.action);
      }
    }
  }

  // ---------------------------------------------------------------- the books of one step

  /** The step commits an update of this order that goes on to record a fill. */
  predicate Records(s: Sys, step: Step, id: ClientId) {
    && step.Act? && step.action == CommitWrite && step.t in s.threads
    && var pc := s.threads[step.t].pc;
       && pc.Writing? && pc.next.ThenFill? && pc.w.clientId == id
       && Transition(s.store, pc.w, pc.expected).1 == Applied && FillFor(pc.next.update, pc.prior).Some?
  }

  /** By how much the step raises the stored quantity. */
  function Rise(s: Sys, step: Step, id: ClientId): real {
    StoredFill(Apply(s, step).store, id) - StoredFill(s.store, id)
  }

  /** What others stored between a recording handler's read and its commit. */
  function OverlapOf(s: Sys, step: Step, id: ClientId): real {
    if Records(s, step, id) then StoredFill(s.store, id) - s.threads[step.t].pc.prior else 0.0
  }

  /** A pending fill that will never be recorded: its handler vanishes, or its key is in the ledger already. */
  function AbandonedBy(s: Sys, step: Step, id: ClientId): real {
    if step.Act? && step.t in s.threads && s.threads[step.t].pc.Filling?
       && (step.action == Crash || (step.action == CommitFill && HasFill(s.store, s.threads[step.t].pc.fill.key)))
    then PendingIn(s.threads[step.t], id) else 0.0
  }

  /** Increases of the stored quantity that no fill stands for. */
  function MissedBy(s: Sys, step: Step, id: ClientId): real {
    AbandonedBy(s, step, id) + if !Records(s, step, id) && Rise(s, step, id) > 0.0 then Rise(s, step, id) else 0.0
  }

  /** Decreases of the stored quantity by anything but a recording handler. */
  function DroppedBy(s: Sys, step: Step, id: ClientId): real {
    if !Records(s, step, id) && Rise(s, step, id) < 0.0 then 0.0 - Rise(s, step, id) else 0.0
  }

  /** The step reads the ledger and decides to repair it. */
  predicate Repairs(s: Sys, step: Step, id: ClientId) {
    && step.Act? && step.action == ReadLedger && step.t in s.threads
    && var pc := s.threads[step.t].pc;
       pc.Auditing? && pc.order.clientId == id && RepairFor(s.store.fills, pc.order, pc.tolerance).Some?
  }

  /** What the reconciler found the ledger to lack and decides to add. */
  function RepairedBy(s: Sys, step: Step, id: ClientId): real {
    if Repairs(s, step, id) then LedgerGap(s.store.fills, s.threads[step.t].pc.order) else 0.0
  }

  ghost predicate Balances(s: Sys, step: Step, id: ClientId) {
    var s' := Apply(s, step);
    FillTotal(s'.store.fills, id) - FillTotal(s.store.fills, id)
    + Pending(s'.threads, id) - Pending(s.threads, id) + MissedBy(s, step, id)
    == Rise(s, step, id) + DroppedBy(s, step, id) + OverlapOf(s, step, id) + RepairedBy(s, step, id)
  }

  lemma CommitBalances(s: Sys, t: nat, id: ClientId)
    requires Inv(s) && Own(s) && t in s.threads && HandlerFits(s.threads[t])
    ensures Balances(s, Act(t, CommitWrite), id)
  {
    var th := s.threads[t];
    WriteMoves(s, t);
    PendingMoves(s, DoWrite(s, t), t, id);
    if th.pc.Writing? {
      WriteStore(s, t);
      CommitPends(s, t, id);
    }
  }

  lemma CommitPends(s: Sys, t: nat, id: ClientId)
    requires t in s.threads && s.threads[t].pc.Writing? && HandlerFits(s.threads[t])
    ensures var pc := s.threads[t].pc;
            PendingAt(DoWrite(s, t).threads, t, id) ==
            if Records(s, Act(t, CommitWrite), id) then pc.next.update.order.filledQuantity - pc.prior else 0.0
    ensures Records(s, Act(t, CommitWrite), id) ==>
              StoredFill(DoWrite(s, t).store, id) == s.threads[t].pc.next.update.order.filledQuantity
  {
    FinishMoves(s.(store := Transition(s.store, s.threads[t].pc.w, s.threads[t].pc.expected).0), t);
  }

  lemma FillBooks(s: Sys, t: nat, id: ClientId)
    requires t in s.threads && s.threads[t].pc.Filling?
    ensures var s' := DoFill(s, t);
            && StoredFill(s'.store, id) == StoredFill(s.store, id) && PendingAt(s'.threads, t, id) == 0.0
            && FillTotal(s'.store.fills, id) - FillTotal(s.store.fills, id) ==
               if HasFill(s.store, s.threads[t].pc.fill.key) then 0.0 else PendingIn(s.threads[t], id)
  {
    FinishMoves(s.(store := RecordFill(s.store, s.threads[t].pc.fill)), t);
    FillTotalAppend(s.store.fills, s.threads[t].pc.fill, id);
  }

  lemma FillBalances(s: Sys, t: nat, id: ClientId)
    requires Inv(s) && Own(s) && t in s.threads
    ensures Balances(s, Act(t, CommitFill), id)
  {
    if s.threads[t].pc.Filling? {
      UpdateMoves(s, t, CommitFill);
      PendingMoves(s, DoFill(s, t), t, id);
      FillBooks(s, t, id);
    } else {
      assert Apply(s, Act(t, CommitFill)) == s;
    }
  }

  /** Reading the ledger changes nothing but what is pending. */
  lemma AuditPends(s: Sys, t: nat, id: ClientId)
    requires t in s.threads && s.threads[t].pc.Auditing?
    ensures var s' := DoAudit(s, t);
            s'.store == s.store && PendingAt(s'.threads, t, id) == RepairedBy(s, Act(t, ReadLedger), id)
  {
    FinishMoves(s, t);
  }

  lemma AuditSums(s: Sys, t: nat, id: ClientId)
    requires t in s.threads && s.threads[t].pc.Auditing? && DoAudit(s, t).store == s.store
    requires Pending(DoAudit(s, t).threads, id) == Pending(s.threads, id) + RepairedBy(s, Act(t, ReadLedger), id)
    ensures Balances(s, Act(t, ReadLedger), id)
    ensures Rise(s, Act(t, ReadLedger), id) == 0.0
  {
    assert Apply(s, Act(t, ReadLedger)) == DoAudit(s, t);
  }

  lemma AuditorBalances(s: Sys, t: nat, id: ClientId)
    requires Inv(s) && Own(s) && t in s.threads && s.threads[t].pc.Auditing?
    ensures Balances(s, Act(t, ReadLedger), id)
    ensures Rise(s, Act(t, ReadLedger), id) == 0.0
  {
    UpdateMoves(s, t, ReadLedger);
    PendingMoves(s, DoAudit(s, t), t, id);
    AuditPends(s, t, id);
    AuditSums(s, t, id);
  }

  lemma IdleBalances(s: Sys, t: nat, id: ClientId)
    requires t in s.threads && !s.threads[t].pc.Auditing?
    ensures Balances(s, Act(t, ReadLedger), id)
    ensures Rise(s, Act(t, ReadLedger), id) == 0.0
  {
    assert Apply(s, Act(t, ReadLedger)) == s;
  }

  lemma AuditBalances(s: Sys, t: nat, id: ClientId)
    requires Inv(s) && Own(s) && t in s.threads
    ensures Balances(s, Act(t, ReadLedger), id)
    ensures Rise(s, Act(t, ReadLedger), id) == 0.0
  {
    if s.threads[t].pc.Auditing? {
      AuditorBalances(s, t, id);
    } else {
      IdleBalances(s, t, id);
    }
  }

  /** All other actions leave the ledger, the stored quantities and, unless they end a handler, the pending fills. */
  lemma OtherActions(s: Sys, t: nat, action: Action, id: ClientId)
    requires t in s.threads && action != CommitWrite && action != CommitFill && action != ReadLedger
    ensures var s' := Do(s, t, action);
            && s'.store.fills == s.store.fills && StoredFill(s'.store, id) == StoredFill(s.store, id)
            && PendingAt(s'.threads, t, id) == if action == Crash then 0.0 else PendingIn(s.threads[t], id)
  {
  }

  lemma HypotheticalFills(s: Store, intents: seq<OrderIntent>)
    ensures RecordHypothetical(s, intents).0.fills == s.fills
  {
  }

  lemma StepBalances(s: Sys, step: Step, id: ClientId)
    requires Inv(s) && Own(s) && HandlersFit(s)
    ensures Balances(s, step, id)
  {
    if step.Act? && step.t in s.threads {
      var t := step.t;
      if step.action == CommitWrite {
        CommitBalances(s, t, id);
      } else if step.action == CommitFill {
        FillBalances(s, t, id);
      } else if step.action == ReadLedger {
        AuditBalances(s, t, id);
      } else {
        ActionMoves(s, t, step.action);
        PendingMoves(s, Do(s, t, step.action), t, id);
        OtherActions(s, t, step.action, id);
      }
    } else if step.DryRun? {
      HypotheticalStores(s.store, step.intents);
      HypotheticalFills(s.store, step.intents);
    } else if !step.Act? {
      PendingMoves(s, Apply(s, step), step.t, id);
    }
  }

  // ---------------------------------------------------------------- the books of a run

  ghost function Overlap(steps: seq<Step>, id: ClientId): real {
    if steps == [] then 0.0
    else
      var front := steps[..|steps| - 1];
      Overlap(front, id) + OverlapOf(Run(front), steps[|steps| - 1], id)
  }

  ghost function Missed(steps: seq<Step>, id: ClientId): real {
    if steps == [] then 0.0
    else
      var front := steps[..|steps| - 1];
      Missed(front, id) + MissedBy(Run(front), steps[|steps| - 1], id)
  }

  ghost function Dropped(steps: seq<Step>, id: ClientId): real {
    if steps == [] then 0.0
    else
      var front := steps[..|steps| - 1];
      Dropped(front, id) + DroppedBy(Run(front), steps[|steps| - 1], id)
  }

  ghost function Repaired(steps: seq<Step>, id: ClientId): real {
    if steps == [] then 0.0
    else
      var front := steps[..|steps| - 1];
      Repaired(front, id) + RepairedBy(Run(front), steps[|steps| - 1], id)
  }

  /**
   Conservation of fills in every run: what is recorded, pending or missed equals what is stored, was
   taken back, was counted twice by overlapping handlers, or was added by repairs.
   */
  lemma {:induction false} FillsAreConserved(steps: seq<Step>, id: ClientId)
    ensures var s := Run(steps);
            FillTotal(s.store.fills, id) + Pending(s.threads, id) + Missed(steps, id)
            == StoredFill(s.store, id) + Dropped(steps, id) + Overlap(steps, id) + Repaired(steps, id)
  {
    if steps != [] {
      var front := steps[..|steps| - 1];
      FillsAreConserved(front, id);
      RunKeeps(front);
      RunKeepsOwn(front);
      RunKeepsHandlers(front);
      StepBalances(Run(front), steps[|steps| - 1], id);
    }
  }

  /** Exactly when the ledger stays within the stored quantity. */
  lemma LedgerStaysWithinStoredExactlyWhen(steps: seq<Step>, id: ClientId)
    ensures FillTotal(Run(steps).store.fills, id) <= StoredFill(Run(steps).store, id) <==>
              Dropped(steps, id) + Overlap(steps, id) + Repaired(steps, id) <= Pending(Run(steps).threads, id) + Missed(steps, id)
  {
    FillsAreConserved(steps, id);
  }

  lemma {:induction false} PendingNonnegative(threads: map<nat, Thread>, id: ClientId)
    requires forall t :: t in threads ==> HandlerFits(threads[t])
    ensures Pending(threads, id) >= 0.0
    decreases |threads|
  {
    if threads == map[] {
      assert Pending(threads, id) == 0.0;
    } else {
      var t :| t in threads;
      PendingWithout(threads, t, id);
      assert HandlerFits(threads[t]);
      PendingNonnegative(threads - {t}, id);
    }
  }

  lemma MissedByNonnegative(s: Sys, step: Step, id: ClientId)
    requires HandlersFit(s)
    ensures MissedBy(s, step, id) >= 0.0
  {
    if step.Act? && step.t in s.threads {
      assert HandlerFits(s.threads[step.t]);
    }
    assert AbandonedBy(s, step, id) >= 0.0;
  }

  lemma {:induction false} MissedNonnegative(steps: seq<Step>, id: ClientId)
    ensures Missed(steps, id) >= 0.0
  {
    if steps != [] {
      var front, step := steps[..|steps| - 1], steps[|steps| - 1];
      MissedNonnegative(front, id);
      RunKeepsHandlers(front);
      MissedByNonnegative(Run(front), step, id);
    }
  }

  // ---------------------------------------------------------------- serialized handlers do not overlap

  /** The handler that commits at step `n` read the row of this order at step `m`. */
  ghost predicate HandledFrom(steps: seq<Step>, m: nat, n: nat, id: ClientId) {
    && m < n < |steps| && steps[n].Act? && steps[n].action == CommitWrite && steps[m] == Act(steps[n].t, ReadRow)
    && var t := steps[n].t;
       && t in Run(steps[..n]).threads
       && var pc := Run(steps[..n]).threads[t].pc;
          && pc.Writing? && pc.next.ThenFill? && pc.w.clientId == id
          && forall k: nat :: m < k <= n ==> HoldsAt(steps, k, t, pc)
  }

  ghost predicate HoldsAt(steps: seq<Step>, k: nat, t: nat, pc: Pc) {
    k <= |steps| && t in Run(steps[..k]).threads && Run(steps[..k]).threads[t].pc == pc
  }

  /** Deliveries of one order are serialized: nothing writes the order between a handler's read and its commit. */
  ghost predicate Serialized(steps: seq<Step>, id: ClientId) {
    forall m: nat, k: nat, n: nat :: HandledFrom(steps, m, n, id) && m < k < n ==> !WriteAppliedAt(steps, k, id)
  }

  lemma WritingComesFromReading(s: Sys, step: Step, t: nat)
    requires Inv(s) && Own(s) && t in Apply(s, step).threads && Apply(s, step).threads[t].pc.Writing?
    ensures t in s.threads
    ensures var pc := Apply(s, step).threads[t].pc;
            || s.threads[t].pc == pc
            || (step == Act(t, ReadRow) && pc.w.clientId in s.store.orders
                && pc.prior == s.store.orders[pc.w.clientId].filled && Apply(s, step).store == s.store)
  {
    if step.Act? && step.t in s.threads {
      ActionMoves(s, step.t, step.action);
      if step.t == t {
        OwnWriting(s, t, step.action);
      }
    }
  }

  lemma OwnWriting(s: Sys, t: nat, action: Action)
    requires t in s.threads && t in Do(s, t, action).threads && Do(s, t, action).threads[t].pc.Writing?
    ensures var pc := Do(s, t, action).threads[t].pc;
            || s.threads[t].pc == pc
            || (action == ReadRow && pc.w.clientId in s.store.orders
                && pc.prior == s.store.orders[pc.w.clientId].filled && Do(s, t, action).store == s.store)
  {
    if action == CommitWrite && s.threads[t].pc.Writing? {
      WriteOutcomes(s, t);
    }
  }

  /** At step `m` the thread read the row it holds on to since. */
  ghost predicate ReadAt(steps: seq<Step>, m: nat, t: nat, pc: Pc) {
    && pc.Writing? && m < |steps| && steps[m] == Act(t, ReadRow)
    && pc.w.clientId in Run(steps[..m]).store.orders && pc.prior == Run(steps[..m]).store.orders[pc.w.clientId].filled
    && forall k: nat :: m < k <= |steps| ==> HoldsAt(steps, k, t, pc)
  }

  lemma ReadNow(steps: seq<Step>, t: nat, pc: Pc)
    requires steps != [] && steps[|steps| - 1] == Act(t, ReadRow) && pc.Writing? && HoldsAt(steps, |steps|, t, pc)
    requires var s := Run(steps[..|steps| - 1]);
             pc.w.clientId in s.store.orders && pc.prior == s.store.orders[pc.w.clientId].filled
    ensures ReadAt(steps, |steps| - 1, t, pc)
  {
  }

  lemma ReadBefore(steps: seq<Step>, m: nat, t: nat, pc: Pc)
    requires steps != [] && ReadAt(steps[..|steps| - 1], m, t, pc) && HoldsAt(steps, |steps|, t, pc)
    ensures ReadAt(steps, m, t, pc)
  {
    var front := steps[..|steps| - 1];
    assert front[..m] == steps[..m];
    forall k: nat | m < k <= |steps|
      ensures HoldsAt(steps, k, t, pc)
    {
      if k <= |front| {
        assert HoldsAt(front, k, t, pc) && front[..k] == steps[..k];
      }
    }
  }

  /** Every thread about to commit read its row at some step and has held on to it since. */
  lemma {:induction false} WasRead(steps: seq<Step>, t: nat) returns (m: nat)
    requires t in Run(steps).threads && Run(steps).threads[t].pc.Writing?
    ensures ReadAt(steps, m, t, Run(steps).threads[t].pc)
  {
    var n := |steps| - 1;
    var front, pc := steps[..n], Run(steps).threads[t].pc;
    RunKeeps(front);
    RunKeepsOwn(front);
    WritingComesFromReading(Run(front), steps[n], t);
    assert steps[..|steps|] == steps;
    if Run(front).threads[t].pc == pc {
      m := WasRead(front, t);
      ReadBefore(steps, m, t, pc);
    } else {
      m := n;
      ReadNow(steps, t, pc);
    }
  }

  lemma StoredStaysStep(s: Sys, step: Step, id: ClientId)
    requires Inv(s) && id in s.store.orders
    requires step.Act? && step.action == CommitWrite && step.t in s.threads && s.threads[step.t].pc.Writing?
             && s.threads[step.t].pc.w.clientId == id ==>
               Transition(s.store, s.threads[step.t].pc.w, s.threads[step.t].pc.expected).1 != Applied
    ensures id in Apply(s, step).store.orders && Apply(s, step).store.orders[id] == s.store.orders[id]
  {
    if step.Act? && step.t in s.threads {
      RowStays(s, step.t, step.action, id);
    } else if step.DryRun? {
      HypotheticalStores(s.store, step.intents);
    }
  }

  lemma {:induction false} StoredStays(steps: seq<Step>, m: nat, n: nat, id: ClientId)
    requires m <= n <= |steps| && id in Run(steps[..m]).store.orders
    requires forall k: nat :: m <= k < n ==> !WriteAppliedAt(steps, k, id)
    ensures id in Run(steps[..n]).store.orders && Run(steps[..n]).store.orders[id] == Run(steps[..m]).store.orders[id]
    decreases n - m
  {
    if m < n {
      StoredStays(steps, m, n - 1, id);
      RunKeeps(steps[..n - 1]);
      NextState(steps, n - 1);
      assert !WriteAppliedAt(steps, n - 1, id);
      StoredStaysStep(Run(steps[..n - 1]), steps[n - 1], id);
    }
  }

  lemma HandledHere(steps: seq<Step>, id: ClientId) returns (m: nat)
    requires steps != [] && Records(Run(steps[..|steps| - 1]), steps[|steps| - 1], id)
    ensures HandledFrom(steps, m, |steps| - 1, id)
    ensures var s := Run(steps[..m]);
            id in s.store.orders && Run(steps[..|steps| - 1]).threads[steps[|steps| - 1].t].pc.prior == s.store.orders[id].filled
  {
    var n := |steps| - 1;
    var front, t := steps[..n], steps[n].t;
    m := WasRead(front, t);
    assert front[..m] == steps[..m] && front[..n] == steps[..n];
    var pc := Run(front).threads[t].pc;
    forall k: nat | m < k <= n
      ensures HoldsAt(steps, k, t, pc)
    {
      assert HoldsAt(front, k, t, pc) && front[..k] == steps[..k];
    }
  }

  /** A recording handler that nobody interrupted counts exactly its own increase. */
  lemma NoOverlapHere(steps: seq<Step>, id: ClientId)
    requires steps != [] && Serialized(steps, id)
    ensures OverlapOf(Run(steps[..|steps| - 1]), steps[|steps| - 1], id) == 0.0
  {
    var n := |steps| - 1;
    if Records(Run(steps[..n]), steps[n], id) {
      var m := HandledHere(steps, id);
      forall k: nat | m <= k < n
        ensures !WriteAppliedAt(steps, k, id)
      {
        if k > m {
          assert HandledFrom(steps, m, n, id) && m < k < n;
        }
      }
      StoredStays(steps, m, n, id);
    }
  }

  lemma SerializedPrefix(steps: seq<Step>, id: ClientId)
    requires steps != [] && Serialized(steps, id)
    ensures Serialized(steps[..|steps| - 1], id)
  {
    var front := steps[..|steps| - 1];
    forall m: nat, k: nat, n: nat | HandledFrom(front, m, n, id) && m < k < n
      ensures !WriteAppliedAt(front, k, id)
    {
      assert front[..n] == steps[..n] && front[..k] == steps[..k];
      var t := front[n].t;
      var pc := Run(front[..n]).threads[t].pc;
      forall j: nat | m < j <= n
        ensures HoldsAt(steps, j, t, pc)
      {
        assert HoldsAt(front, j, t, pc) && front[..j] == steps[..j];
      }
      assert HandledFrom(steps, m, n, id);
      assert !WriteAppliedAt(steps, k, id);
    }
  }

  lemma {:induction false} SerializedDoNotOverlap(steps: seq<Step>, id: ClientId)
    requires Serialized(steps, id)
    ensures Overlap(steps, id) == 0.0
  {
    if steps != [] {
      SerializedPrefix(steps, id);
      SerializedDoNotOverlap(steps[..|steps| - 1], id);
      NoOverlapHere(steps, id);
    }
  }

  // ---------------------------------------------------------------- reports that never fall take nothing back

  /** The cumulative quantity the write at step `k` carries. */
  ghost function ReportAt(steps: seq<Step>, k: nat, id: ClientId): Option<real>
    requires WriteAppliedAt(steps, k, id)
  {
    Run(steps[..k]).threads[steps[k].t].pc.w.filled
  }

  /** Reported cumulative quantities of this order are never negative and never fall from one write to a later one. */
  ghost predicate ReportsNeverFall(steps: seq<Step>, id: ClientId) {
    && (forall k: nat :: WriteAppliedAt(steps, k, id) && ReportAt(steps, k, id).Some? ==> ReportAt(steps, k, id).value >= 0.0)
    && (forall j: nat, k: nat :: j < k && WriteAppliedAt(steps, j, id) && WriteAppliedAt(steps, k, id)
                                 && ReportAt(steps, j, id).Some? && ReportAt(steps, k, id).Some? ==>
          ReportAt(steps, j, id).value <= ReportAt(steps, k, id).value)
  }

  ghost predicate ReportedAt(steps: seq<Step>, k: nat, id: ClientId, quantity: real) {
    WriteAppliedAt(steps, k, id) && ReportAt(steps, k, id) == Some(quantity)
  }

  lemma SameWrite(steps: seq<Step>, front: seq<Step>, k: nat, id: ClientId)
    requires front <= steps && k < |front|
    ensures WriteAppliedAt(front, k, id) <==> WriteAppliedAt(steps, k, id)
    ensures WriteAppliedAt(front, k, id) ==> ReportAt(front, k, id) == ReportAt(steps, k, id)
  {
    assert front[..k] == steps[..k] && front[k] == steps[k];
  }

  lemma {:induction false} StoredWasReported(steps: seq<Step>, id: ClientId)
    ensures StoredFill(Run(steps).store, id) == 0.0
            || exists k: nat :: ReportedAt(steps, k, id, StoredFill(Run(steps).store, id))
    decreases |steps|
  {
    if steps != [] {
      var n := |steps| - 1;
      var front := steps[..n];
      StoredWasReported(front, id);
      StoredAfter(steps, id);
      var before := StoredFill(Run(front).store, id);
      if StoredFill(Run(steps).store, id) == before && before != 0.0 {
        var k: nat :| ReportedAt(front, k, id, before);
        SameWrite(steps, front, k, id);
        assert ReportedAt(steps, k, id, before);
      }
    }
  }

  /** The last step leaves the stored quantity alone or stores what it reports. */
  lemma StoredAfter(steps: seq<Step>, id: ClientId)
    requires steps != []
    ensures var n := |steps| - 1;
            || StoredFill(Run(steps).store, id) == StoredFill(Run(steps[..n]).store, id)
            || ReportedAt(steps, n, id, StoredFill(Run(steps).store, id))
  {
    var n := |steps| - 1;
    var s, step := Run(steps[..n]), steps[n];
    if WriteAppliedAt(steps, n, id) {
      WriteStore(s, step.t);
    } else if id in s.store.orders {
      RunKeeps(steps[..n]);
      StoredStaysStep(s, step, id);
    } else if step.Act? && step.t in s.threads {
      NoQuantityYet(s, step.t, step.action, id);
    } else if step.DryRun? {
      HypotheticalStores(s.store, step.intents);
    }
  }

  lemma NoQuantityYet(s: Sys, t: nat, action: Action, id: ClientId)
    requires t in s.threads && id !in s.store.orders
    ensures StoredFill(Do(s, t, action).store, id) == 0.0
  {
    if action == CommitWrite && s.threads[t].pc.Writing? {
      WriteStore(s, t);
    }
  }

  lemma NothingDroppedHere(steps: seq<Step>, id: ClientId)
    requires steps != [] && ReportsNeverFall(steps, id)
    ensures Rise(Run(steps[..|steps| - 1]), steps[|steps| - 1], id) >= 0.0
  {
    var n := |steps| - 1;
    var front := steps[..n];
    StoredAfter(steps, id);
    StoredWasReported(front, id);
    var before, after := StoredFill(Run(front).store, id), StoredFill(Run(steps).store, id);
    if after != before && before != 0.0 {
      var k: nat :| ReportedAt(front, k, id, before);
      SameWrite(steps, front, k, id);
      assert ReportedAt(steps, k, id, before) && ReportedAt(steps, n, id, after) && k < n;
    }
  }

  lemma ReportsPrefix(steps: seq<Step>, id: ClientId)
    requires steps != [] && ReportsNeverFall(steps, id)
    ensures ReportsNeverFall(steps[..|steps| - 1], id)
  {
    var front := steps[..|steps| - 1];
    forall k: nat | k < |front|
      ensures WriteAppliedAt(front, k, id) <==> WriteAppliedAt(steps, k, id)
      ensures WriteAppliedAt(front, k, id) ==> ReportAt(front, k, id) == ReportAt(steps, k, id)
    {
      SameWrite(steps, front, k, id);
    }
  }

  lemma {:induction false} NothingIsDropped(steps: seq<Step>, id: ClientId)
    requires ReportsNeverFall(steps, id)
    ensures Dropped(steps, id) == 0.0
  {
    if steps != [] {
      ReportsPrefix(steps, id);
      NothingIsDropped(steps[..|steps| - 1], id);
      NothingDroppedHere(steps, id);
    }
  }

  // ---------------------------------------------------------------- repairs that fit

  /** The broker's quantity, on top of what is under way, is within the stored one. */
  ghost predicate RepairFits(s: Sys, step: Step, id: ClientId) {
    Repairs(s, step, id) ==> s.threads[step.t].pc.order.filledQuantity + Pending(s.threads, id) <= StoredFill(s.store, id)
  }

  /** Every repair of this order is decided on a ledger and a row that leave room for it. */
  ghost predicate RepairsFit(steps: seq<Step>, id: ClientId) {
    forall n: nat :: n < |steps| ==> RepairFits(Run(steps[..n]), steps[n], id)
  }

  /** Nobody is between deciding on a fill of this order and recording it. */
  ghost predicate Quiet(s: Sys, id: ClientId) {
    forall t :: t in s.threads ==> !(s.threads[t].pc.Filling? && s.threads[t].pc.fill.clientId == id)
  }

  /**
   What the reconciler's caller can see to: it reads the ledger of an order only while nobody is about to
   record a fill of it, and repairs only up to the stored quantity.
   */
  ghost predicate RepairsAreQuiet(steps: seq<Step>, id: ClientId) {
    forall n: nat :: n < |steps| && Repairs(Run(steps[..n]), steps[n], id) ==>
      && Quiet(Run(steps[..n]), id)
      && Run(steps[..n]).threads[steps[n].t].pc.order.filledQuantity <= StoredFill(Run(steps[..n]).store, id)
  }

  lemma {:induction false} NothingPending(threads: map<nat, Thread>, id: ClientId)
    requires forall t :: t in threads ==> !(threads[t].pc.Filling? && threads[t].pc.fill.clientId == id)
    ensures Pending(threads, id) == 0.0
    decreases |threads|
  {
    if threads == map[] {
      assert Pending(threads, id) == 0.0;
    } else {
      var t :| t in threads;
      PendingWithout(threads, t, id);
      NothingPending(threads - {t}, id);
    }
  }

  lemma QuietRepairsFit(steps: seq<Step>, id: ClientId)
    requires RepairsAreQuiet(steps, id)
    ensures RepairsFit(steps, id)
  {
    forall n: nat | n < |steps|
      ensures RepairFits(Run(steps[..n]), steps[n], id)
    {
      if Repairs(Run(steps[..n]), steps[n], id) {
        NothingPending(Run(steps[..n]).threads, id);
      }
    }
  }

  lemma RepairsPrefix(steps: seq<Step>, id: ClientId)
    requires steps != [] && RepairsFit(steps, id)
    ensures RepairsFit(steps[..|steps| - 1], id) && RepairFits(Run(steps[..|steps| - 1]), steps[|steps| - 1], id)
  {
    var front := steps[..|steps| - 1];
    forall n: nat | n < |front|
      ensures RepairFits(Run(front[..n]), front[n], id)
    {
      assert front[..n] == steps[..n];
      assert RepairFits(Run(steps[..n]), steps[n], id);
    }
  }

  /** Recorded and pending fills together. */
  ghost function Accounted(s: Sys, id: ClientId): real { FillTotal(s.store.fills, id) + Pending(s.threads, id) }

  /** One step that neither overlaps nor drops nor repairs too much keeps the accounts within the stored quantity. */
  lemma StepStaysWithin(s: Sys, step: Step, id: ClientId)
    requires Inv(s) && Own(s) && HandlersFit(s) && Accounted(s, id) <= StoredFill(s.store, id)
    requires OverlapOf(s, step, id) == 0.0 && Rise(s, step, id) >= 0.0 && RepairFits(s, step, id)
    ensures Accounted(Apply(s, step), id) <= StoredFill(Apply(s, step).store, id)
  {
    StepBalances(s, step, id);
    MissedByNonnegative(s, step, id);
    if Repairs(s, step, id) {
      AuditBalances(s, step.t, id);
    }
  }

  lemma {:induction false} AccountsStayWithinStored(steps: seq<Step>, id: ClientId)
    requires Serialized(steps, id) && ReportsNeverFall(steps, id) && RepairsFit(steps, id)
    ensures Accounted(Run(steps), id) <= StoredFill(Run(steps).store, id)
  {
    if steps != [] {
      var front := steps[..|steps| - 1];
      SerializedPrefix(steps, id);
      ReportsPrefix(steps, id);
      RepairsPrefix(steps, id);
      AccountsStayWithinStored(front, id);
      NoOverlapHere(steps, id);
      NothingDroppedHere(steps, id);
      RunKeeps(front);
      RunKeepsOwn(front);
      RunKeepsHandlers(front);
      StepStaysWithin(Run(front), steps[|steps| - 1], id);
    }
  }

  /**
   With serialized deliveries, reports that never fall and repairs that fit, recorded fills, pending ones
   included, never exceed the stored quantity in any run, and the ledger equals it exactly when nothing is
   pending and the repairs made good what was missed.
   */
  lemma SerializedLedgerNeverExceedsStored(steps: seq<Step>, id: ClientId)
    requires Serialized(steps, id) && ReportsNeverFall(steps, id) && RepairsFit(steps, id)
    ensures var s := Run(steps);
            && FillTotal(s.store.fills, id) + Pending(s.threads, id) <= StoredFill(s.store, id)
            && FillTotal(s.store.fills, id) <= StoredFill(s.store, id)
            && (FillTotal(s.store.fills, id) == StoredFill(s.store, id) <==>
                  Pending(s.threads, id) == 0.0 && Missed(steps, id) == Repaired(steps, id))
  {
    AccountsStayWithinStored(steps, id);
    FillsAreConserved(steps, id);
    SerializedDoNotOverlap(steps, id);
    NothingIsDropped(steps, id);
    RunKeepsHandlers(steps);
    PendingNonnegative(Run(steps).threads, id);
  }

  /** The same from conditions a caller can see to. */
  lemma QuietLedgerNeverExceedsStored(steps: seq<Step>, id: ClientId)
    requires Serialized(steps, id) && ReportsNeverFall(steps, id) && RepairsAreQuiet(steps, id)
    ensures FillTotal(Run(steps).store.fills, id) <= StoredFill(Run(steps).store, id)
  {
    QuietRepairsFit(steps, id);
    SerializedLedgerNeverExceedsStored(steps, id);
  }
}
