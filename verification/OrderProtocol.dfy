/**
 Order submission as a concurrent protocol. Threads run `execute` batches, trade-update handling and
 reconciliation writes; every database transaction and every broker call is one step, threads
 interleave freely and may vanish at any point. The broker and the feed may answer anything.
 */
module OrderProtocol {
  import opened Prelude
  import opened LiveModels
  import opened OrderStates
  import opened OrderStore
  import opened OrderWrites

  // ---------------------------------------------------------------- threads

  /** What a thread does once its current write has gone through. */
  datatype Next =
    | ThenFinish
    | ThenCall(intent: OrderIntent)
    | ThenFill(update: TradeUpdate)
    | ThenRepair(order: BrokerOrder, tolerance: Tolerance)

  datatype Pc =
    | Idle
    | LookingUp(intent: OrderIntent)
    | Reading(w: Write, next: Next)
    | Writing(w: Write, expected: LocalOrderState, prior: real, next: Next)
    | Calling(intent: OrderIntent)
    | Awaiting(intent: OrderIntent)
    | CheckingEvent(update: TradeUpdate)
    | Filling(fill: FillRow)
    | Auditing(order: BrokerOrder, tolerance: Tolerance)

  datatype Phase = Selling(next: nat) | Reconciling | Checking(next: nat) | Buying(next: nat)

  /**
   Progress of one `execute` call. `answer` is what the reconciliation callback said about blocking,
   `unresolved` whether some checked sell was still open.
   */
  datatype Batch =
    | NoBatch
    | Batch(sells: seq<OrderIntent>, buys: seq<OrderIntent>, callback: bool, phase: Phase,
            answer: Option<bool>, unresolved: bool)

  datatype Thread = Thread(batch: Batch, pc: Pc)

  /** One invocation of the broker's submit operation, with the durable state it was made in. */
  datatype Call = Call(intent: OrderIntent, batch: Batch, store: Store)

  datatype Sys = Sys(store: Store, threads: map<nat, Thread>, calls: seq<Call>)

  datatype Reply = Answered(order: BrokerOrder) | Ambiguous | Raised

  /** What an existing thread does next. */
  datatype Action =
    | ReserveNext
    | Lookup(found: Option<BrokerOrder>)
    | ReadRow
    | CommitWrite
    | CallBroker
    | BrokerReply(reply: Reply)
    | CallbackReply(blocking: bool)
    | CheckSell
    | NextPhase
    | CheckEvent
    | CommitFill
    | ReadLedger
    | Crash

  datatype Step =
    | SpawnBatch(t: nat, sells: seq<OrderIntent>, buys: seq<OrderIntent>, callback: bool)
    | SpawnUpdate(t: nat, update: TradeUpdate)
    | SpawnReconcile(t: nat, order: BrokerOrder, tolerance: Tolerance)
    | DryRun(intents: seq<OrderIntent>)
    | Act(t: nat, action: Action)

  const INITIAL := Sys(EMPTY_STORE, map[], [])

  // ---------------------------------------------------------------- steps

  function Put(s: Sys, t: nat, th: Thread): Sys { s.(threads := s.threads[t := th]) }

  function Drop(s: Sys, t: nat): Sys { s.(threads := s.threads - {t}) }

  /** A submission or write returned normally: a batch moves to its next intent, other threads end. */
  function Finish(s: Sys, t: nat): Sys
    requires t in s.threads
  {
    var th := s.threads[t];
    match th.batch
    case Batch(_, _, _, Selling(i), _, _) => Put(s, t, Thread(th.batch.(phase := Selling(i + 1)), Idle))
    case Batch(_, _, _, Buying(i), _, _) => Put(s, t, Thread(th.batch.(phase := Buying(i + 1)), Idle))
    case _ => Drop(s, t)
  }

  /** The intent a batch submits next, if it is between submissions of its sell or buy phase. */
  function Current(b: Batch): Option<OrderIntent> {
    match b
    case Batch(sells, _, _, Selling(i), _, _) => if i < |sells| then Some(sells[i]) else None
    case Batch(_, buys, _, Buying(i), _, _) => if i < |buys| then Some(buys[i]) else None
    case _ => None
  }

  function Spawn(s: Sys, t: nat, th: Thread): Sys {
    if t in s.threads then s else Put(s, t, th)
  }

  function DoReserve(s: Sys, t: nat): Sys
    requires t in s.threads
  {
    var th := s.threads[t];
    if th.pc != Idle || Current(th.batch).None? then s
    else
      var intent := Current(th.batch).value;
      var (store, reserved) := Reserve(s.store, intent);
      if reserved then Put(s.(store := store), t, th.(pc := LookingUp(intent)))
      else
        // A prior process holds this intent: the broker is only queried, never called.
        Finish(s.(store := store), t)
  }

  function DoLookup(s: Sys, t: nat, found: Option<BrokerOrder>): Sys
    requires t in s.threads
  {
    var th := s.threads[t];
    if !th.pc.LookingUp? then s
    else
      match found
      case Some(order) => Put(s, t, th.(pc := Reading(ExistingWrite(th.pc.intent, order), ThenFinish)))
      case None => Put(s, t, th.(pc := Reading(StartWrite(th.pc.intent), ThenCall(th.pc.intent))))
  }

  /**
   Read the stored state and validate the move; an unknown order or an invalid move ends the thread,
   except that the reconciler goes on to audit the ledger when it has nothing to move.
   */
  function DoRead(s: Sys, t: nat): Sys
    requires t in s.threads
  {
    var th := s.threads[t];
    if !th.pc.Reading? then s
    else
      var w := th.pc.w;
      if w.clientId !in s.store.orders then Drop(s, t)
      else
        var row := s.store.orders[w.clientId];
        if th.pc.next.ThenRepair? && !Advances(row, w, th.pc.next.tolerance)
        then Put(s, t, th.(pc := Auditing(th.pc.next.order, th.pc.next.tolerance)))
        else if !CanTransition(row.state, w.target) then Drop(s, t)
        else Put(s, t, th.(pc := Writing(w, row.state, row.filled, th.pc.next)))
  }

  function DoWrite(s: Sys, t: nat): Sys
    requires t in s.threads
  {
    var th := s.threads[t];
    if !th.pc.Writing? then s
    else
      var (store, outcome) := Transition(s.store, th.pc.w, th.pc.expected);
      var s' := s.(store := store);
      if outcome == Refused then Drop(s', t)
      else
        match th.pc.next
        case ThenFinish => Finish(s', t)
        case ThenCall(intent) => Put(s', t, th.(pc := Calling(intent)))
        case ThenRepair(order, tolerance) => Put(s', t, th.(pc := Auditing(order, tolerance)))
        case ThenFill(u) =>
          if outcome == Applied && FillFor(u, th.pc.prior).Some?
          then Put(s', t, th.(pc := Filling(FillFor(u, th.pc.prior).value)))
          else Finish(s', t)
  }

  function DoCall(s: Sys, t: nat): Sys
    requires t in s.threads
  {
    var th := s.threads[t];
    if !th.pc.Calling? then s
    else
      Put(s.(calls := s.calls + [Call(th.pc.intent, th.batch, s.store)]), t, th.(pc := Awaiting(th.pc.intent)))
  }

  function DoReply(s: Sys, t: nat, reply: Reply): Sys
    requires t in s.threads
  {
    var th := s.threads[t];
    if !th.pc.Awaiting? then s
    else
      match reply
      case Answered(order) => Put(s, t, th.(pc := Reading(ResponseWrite(th.pc.intent, order), ThenFinish)))
      case Ambiguous => Put(s, t, th.(pc := Reading(UnknownWrite(th.pc.intent), ThenFinish)))
      case Raised => Drop(s, t)
  }

  function DoCallback(s: Sys, t: nat, blocking: bool): Sys
    requires t in s.threads
  {
    var th := s.threads[t];
    if th.pc != Idle || th.batch.NoBatch? || th.batch.phase != Reconciling then s
    else Put(s, t, th.(batch := th.batch.(phase := Checking(0), answer := Some(blocking))))
  }

  /** A sell with no row, or with a terminal row, counts as resolved. */
  function DoCheckSell(s: Sys, t: nat): Sys
    requires t in s.threads
  {
    var th := s.threads[t];
    if th.pc != Idle || th.batch.NoBatch? || !th.batch.phase.Checking? || th.batch.phase.next >= |th.batch.sells| then s
    else
      var b := th.batch;
      var id := b.sells[b.phase.next].clientId;
      var open := id in s.store.orders && !Terminal(s.store.orders[id].state);
      Put(s, t, th.(batch := b.(phase := Checking(b.phase.next + 1), unresolved := b.unresolved || open)))
  }

  function DoNextPhase(s: Sys, t: nat): Sys
    requires t in s.threads
  {
    var th := s.threads[t];
    var b := th.batch;
    if th.pc != Idle || b.NoBatch? then s
    else
      match b.phase
      case Selling(i) =>
        if i < |b.sells| then s
        else if b.sells != [] && b.callback then Put(s, t, th.(batch := b.(phase := Reconciling)))
        else Put(s, t, th.(batch := b.(phase := Checking(0))))
      case Checking(i) =>
        if i < |b.sells| then s
        else if b.unresolved || (b.answer.Some? && b.answer.value) then Drop(s, t)
        else Put(s, t, th.(batch := b.(phase := Buying(0))))
      case Buying(i) => if i < |b.buys| then s else Drop(s, t)
      case Reconciling => s
  }

  function DoCheckEvent(s: Sys, t: nat): Sys
    requires t in s.threads
  {
    var th := s.threads[t];
    if !th.pc.CheckingEvent? then s
    else if HasEvent(s.store, UpdateKey(th.pc.update.Fingerprint())) then Drop(s, t)
    else Put(s, t, th.(pc := Reading(UpdateWrite(th.pc.update), ThenFill(th.pc.update))))
  }

  function DoFill(s: Sys, t: nat): Sys
    requires t in s.threads
  {
    var th := s.threads[t];
    if !th.pc.Filling? then s
    else Finish(s.(store := RecordFill(s.store, th.pc.fill)), t)
  }

  /** The reconciler reads the ledger totals and decides on a repair. */
  function DoAudit(s: Sys, t: nat): Sys
    requires t in s.threads
  {
    var th := s.threads[t];
    if !th.pc.Auditing? then s
    else
      match RepairFor(s.store.fills, th.pc.order, th.pc.tolerance)
      case Some(fill) => Put(s, t, th.(pc := Filling(fill)))
      case None => Finish(s, t)
  }

  predicate SidesFit(sells: seq<OrderIntent>, buys: seq<OrderIntent>) {
    && (forall i :: 0 <= i < |sells| ==> sells[i].side == Sell)
    && (forall i :: 0 <= i < |buys| ==> buys[i].side == Buy)
  }

  function Do(s: Sys, t: nat, action: Action): Sys
    requires t in s.threads
  {
    match action
    case ReserveNext => DoReserve(s, t)
    case Lookup(found) => DoLookup(s, t, found)
    case ReadRow => DoRead(s, t)
    case CommitWrite => DoWrite(s, t)
    case CallBroker => DoCall(s, t)
    case BrokerReply(reply) => DoReply(s, t, reply)
    case CallbackReply(blocking) => DoCallback(s, t, blocking)
    case CheckSell => DoCheckSell(s, t)
    case NextPhase => DoNextPhase(s, t)
    case CheckEvent => DoCheckEvent(s, t)
    case CommitFill => DoFill(s, t)
    case ReadLedger => DoAudit(s, t)
    case Crash => Drop(s, t)
  }

  /** One step of the system; a step that is not enabled changes nothing. */
  function Apply(s: Sys, step: Step): Sys {
    match step
    case SpawnBatch(t, sells, buys, callback) =>
      if SidesFit(sells, buys)
      then Spawn(s, t, Thread(Batch(sells, buys, callback, Selling(0), None, false), Idle))
      else s
    case SpawnUpdate(t, update) => Spawn(s, t, Thread(NoBatch, CheckingEvent(update)))
    case SpawnReconcile(t, order, tolerance) =>
      Spawn(s, t, Thread(NoBatch, Reading(ReconcileWrite(order), ThenRepair(order, tolerance))))
    case DryRun(intents) => s.(store := RecordHypothetical(s.store, intents).0)
    case Act(t, action) => if t in s.threads then Do(s, t, action) else s
  }

  function RunFrom(s: Sys, steps: seq<Step>): Sys {
    if steps == [] then s else Apply(RunFrom(s, steps[..|steps| - 1]), steps[|steps| - 1])
  }

  function Run(steps: seq<Step>): Sys { RunFrom(INITIAL, steps) }

  // ---------------------------------------------------------------- invariant

  /** The submission whose broker call this thread has yet to make. */
  function Owned(pc: Pc): Option<ClientId> {
    match pc
    case LookingUp(intent) => Some(intent.clientId)
    case Reading(_, ThenCall(intent)) => Some(intent.clientId)
    case Writing(_, _, _, ThenCall(intent)) => Some(intent.clientId)
    case Calling(intent) => Some(intent.clientId)
    case _ => None
  }

  /** The intent a thread is in the middle of submitting. */
  function Submitting(pc: Pc): Option<OrderIntent> {
    match pc
    case LookingUp(intent) => Some(intent)
    case Reading(_, ThenCall(intent)) => Some(intent)
    case Writing(_, _, _, ThenCall(intent)) => Some(intent)
    case Calling(intent) => Some(intent)
    case Awaiting(intent) => Some(intent)
    case _ => None
  }

  /** The order's durable history contains the start of a submission. */
  ghost predicate Started(store: Store, id: ClientId) {
    SubmissionStarted in History(store, id)
  }

  predicate RowIsTerminal(store: Store, intent: OrderIntent) {
    intent.clientId in store.orders && Terminal(store.orders[intent.clientId].state)
  }

  ghost predicate SellSettled(store: Store, sell: OrderIntent) {
    RowIsTerminal(store, sell) || Barred(store, sell)
  }

  ghost predicate PcFits(store: Store, pc: Pc) {
    match pc
    case Reading(w, next) => FitWrite(w) && (next.ThenCall? ==> w == StartWrite(next.intent))
    case Writing(w, expected, _, next) =>
      FitWrite(w) && CanTransition(expected, w.target) && (next.ThenCall? ==> w == StartWrite(next.intent))
    case Calling(intent) => Started(store, intent.clientId)
    case _ => true
  }

  /** How far the sells of a batch have been dealt with. */
  function SellsDone(b: Batch): nat
    requires b.Batch?
  {
    match b.phase
    case Selling(i) => i
    case _ => |b.sells|
  }

  ghost predicate BatchFits(store: Store, b: Batch)
    requires b.Batch?
  {
    && SidesFit(b.sells, b.buys)
    && SellsDone(b) <= |b.sells|
    && (forall k :: 0 <= k < SellsDone(b) ==> b.sells[k].clientId in store.orders || Barred(store, b.sells[k]))
    && (b.phase.Checking? ==> b.phase.next <= |b.sells|)
    && (b.phase.Checking? && !b.unresolved ==>
          forall k :: 0 <= k < b.phase.next ==> SellSettled(store, b.sells[k]))
    && (b.phase.Buying? ==> forall k :: 0 <= k < |b.sells| ==> SellSettled(store, b.sells[k]))
    && (b.phase.Checking? && b.callback && b.sells != [] ==> b.answer.Some?)
    && (b.phase.Buying? && b.callback && b.sells != [] ==> b.answer.Some? && !b.answer.value)
  }

  ghost predicate ThreadFits(store: Store, th: Thread) {
    && PcFits(store, th.pc)
    && (if th.batch.NoBatch? then Submitting(th.pc).None?
        else
          && BatchFits(store, th.batch)
          && (Submitting(th.pc).Some? ==> Current(th.batch) == Submitting(th.pc))
          && (th.pc != Idle ==> Current(th.batch).Some? && Current(th.batch).value.clientId in store.orders))
  }

  /** What is true of the durable state and the batch at the moment of a broker call. */
  ghost predicate CallFits(c: Call) {
    && Started(c.store, c.intent.clientId)
    && ValidStore(c.store)
    && c.batch.Batch? && BatchFits(c.store, c.batch)
    && Current(c.batch) == Some(c.intent)
  }

  predicate CallsFor(calls: seq<Call>, id: ClientId) {
    exists i :: 0 <= i < |calls| && calls[i].intent.clientId == id
  }

  ghost predicate CallsOnce(calls: seq<Call>) {
    forall i, j :: 0 <= i < j < |calls| ==> calls[i].intent.clientId != calls[j].intent.clientId
  }

  ghost predicate OwnerFits(s: Sys, th: Thread) {
    Owned(th.pc).Some? ==> Owned(th.pc).value in s.store.orders && !CallsFor(s.calls, Owned(th.pc).value)
  }

  ghost predicate OneOwner(threads: map<nat, Thread>) {
    forall t, u :: t in threads && u in threads && t != u && Owned(threads[t].pc).Some? ==>
      Owned(threads[t].pc) != Owned(threads[u].pc)
  }

  ghost predicate Inv(s: Sys) {
    && ValidStore(s.store)
    && (forall t :: t in s.threads ==> ThreadFits(s.store, s.threads[t]) && OwnerFits(s, s.threads[t]))
    && OneOwner(s.threads)
    && CallsOnce(s.calls)
    && (forall i :: 0 <= i < |s.calls| ==> CallFits(s.calls[i]) && s.calls[i].intent.clientId in s.store.orders)
  }

  // ---------------------------------------------------------------- the store only grows

  ghost predicate Grows(a: Store, b: Store) {
    && a.orders.Keys <= b.orders.Keys
    && (forall id :: id in a.orders && Terminal(a.orders[id].state) ==> b.orders[id].state == a.orders[id].state)
    && (forall id :: id in a.intents ==> id in b.intents && b.intents[id] == a.intents[id])
    && (forall id :: Rehearsed(a, id) ==> Rehearsed(b, id))
    && (forall id :: History(a, id) <= History(b, id))
  }

  lemma BarredStaysBarred(a: Store, b: Store, intent: OrderIntent)
    requires Grows(a, b)
    ensures Barred(a, intent) ==> Barred(b, intent)
    ensures SellSettled(a, intent) ==> SellSettled(b, intent)
  {
    if HeldElsewhere(a, intent) {
      var c :| c in a.intents && c != intent.clientId && a.intents[c] == KeyFor(intent);
      assert c in b.intents && b.intents[c] == KeyFor(intent);
    }
  }

  lemma HypotheticalGrows(s: Store, intents: seq<OrderIntent>)
    requires ValidStore(s)
    ensures ValidStore(RecordHypothetical(s, intents).0) && Grows(s, RecordHypothetical(s, intents).0)
  {
    HypotheticalKeeps(s, intents);
  }

  lemma ReserveExtends(s: Store, intent: OrderIntent, id: ClientId)
    requires ValidStore(s)
    ensures History(s, id) <= History(Reserve(s, intent).0, id)
  {
    ReserveIsInsertIfAbsent(s, intent);
    assert RowAgrees(s, id);
  }

  lemma ReserveGrows(s: Store, intent: OrderIntent)
    requires ValidStore(s)
    ensures ValidStore(Reserve(s, intent).0) && Grows(s, Reserve(s, intent).0)
    ensures Reserve(s, intent).1 ==> intent.clientId !in s.orders && intent.clientId in Reserve(s, intent).0.orders
    ensures !Reserve(s, intent).1 ==> intent.clientId in s.orders || Barred(s, intent)
  {
    ReserveIsInsertIfAbsent(s, intent);
    forall id
      ensures History(s, id) <= History(Reserve(s, intent).0, id)
    {
      ReserveExtends(s, intent, id);
    }
  }

  lemma TransitionGrows(s: Store, w: Write, expected: LocalOrderState)
    requires ValidStore(s) && FitWrite(w) && CanTransition(expected, w.target)
    ensures ValidStore(Transition(s, w, expected).0) && Grows(s, Transition(s, w, expected).0)
  {
    TransitionKeepsPaths(s, w, expected);
  }

  lemma RecordFillGrows(s: Store, fill: FillRow)
    requires ValidStore(s)
    ensures ValidStore(RecordFill(s, fill)) && Grows(s, RecordFill(s, fill))
  {
    var s' := RecordFill(s, fill);
    forall id
      ensures History(s', id) == History(s, id) && RowAgrees(s', id)
    {
      assert RowAgrees(s, id);
    }
  }

  lemma ThreadFitsGrows(a: Store, b: Store, th: Thread)
    requires Grows(a, b) && ThreadFits(a, th)
    ensures ThreadFits(b, th)
  {
    if th.pc.Calling? {
      assert History(a, th.pc.intent.clientId) <= History(b, th.pc.intent.clientId);
    }
    if th.batch.Batch? {
      forall k | 0 <= k < |th.batch.sells|
        ensures Barred(a, th.batch.sells[k]) ==> Barred(b, th.batch.sells[k])
        ensures SellSettled(a, th.batch.sells[k]) ==> SellSettled(b, th.batch.sells[k])
      {
        BarredStaysBarred(a, b, th.batch.sells[k]);
      }
    }
  }

  // ---------------------------------------------------------------- invariant preservation

  /** One thread moves on, the store grows, no call is made. */
  lemma MoveThread(s: Sys, store: Store, t: nat, th: Thread)
    requires Inv(s) && ValidStore(store) && Grows(s.store, store)
    requires ThreadFits(store, th)
    requires Owned(th.pc).Some? ==>
               || (t in s.threads && Owned(th.pc) == Owned(s.threads[t].pc))
               || (Owned(th.pc).value !in s.store.orders && Owned(th.pc).value in store.orders)
    ensures Inv(Put(s.(store := store), t, th))
  {
    var s' := Put(s.(store := store), t, th);
    forall u | u in s'.threads
      ensures ThreadFits(s'.store, s'.threads[u]) && OwnerFits(s', s'.threads[u])
    {
      if u != t {
        ThreadFitsGrows(s.store, store, s.threads[u]);
      }
    }
  }

  lemma DropThread(s: Sys, store: Store, t: nat)
    requires Inv(s) && ValidStore(store) && Grows(s.store, store)
    ensures Inv(Drop(s.(store := store), t))
  {
    var s' := Drop(s.(store := store), t);
    forall u | u in s'.threads
      ensures ThreadFits(s'.store, s'.threads[u]) && OwnerFits(s', s'.threads[u])
    {
      ThreadFitsGrows(s.store, store, s.threads[u]);
    }
  }

  lemma GrowsRefl(a: Store)
    ensures Grows(a, a)
  {
  }

  /** The batch once its current intent is done with. */
  function Advanced(b: Batch): Batch
    requires Current(b).Some?
  {
    if b.phase.Selling? then b.(phase := Selling(b.phase.next + 1)) else b.(phase := Buying(b.phase.next + 1))
  }

  /** Finishing the current intent keeps the bookkeeping of its batch, once the intent has a row or is barred. */
  lemma AdvancedFits(store: Store, b: Batch)
    requires b.Batch? && BatchFits(store, b) && Current(b).Some?
    requires Current(b).value.clientId in store.orders || Barred(store, Current(b).value)
    ensures BatchFits(store, Advanced(b)) && Advanced(b).Batch?
  {
  }

  lemma IdleFits(store: Store, b: Batch)
    requires b.Batch? && BatchFits(store, b)
    ensures ThreadFits(store, Thread(b, Idle)) && Owned(Thread(b, Idle).pc).None?
  {
  }

  lemma BatchStillFits(s: Sys, store: Store, t: nat)
    requires Inv(s) && Grows(s.store, store) && t in s.threads
    ensures s.threads[t].batch.Batch? ==> BatchFits(store, s.threads[t].batch)
  {
    ThreadFitsGrows(s.store, store, s.threads[t]);
  }

  lemma FinishIs(s: Sys, t: nat)
    requires t in s.threads && Current(s.threads[t].batch).Some?
    ensures Finish(s, t) == Put(s, t, Thread(Advanced(s.threads[t].batch), Idle))
  {
  }

  lemma AdvanceBatch(s: Sys, store: Store, t: nat)
    requires Inv(s) && ValidStore(store) && Grows(s.store, store)
    requires t in s.threads && Current(s.threads[t].batch).Some?
    requires var intent := Current(s.threads[t].batch).value; intent.clientId in store.orders || Barred(store, intent)
    ensures Inv(Finish(s.(store := store), t))
  {
    var b := s.threads[t].batch;
    BatchStillFits(s, store, t);
    AdvancedFits(store, b);
    IdleFits(store, Advanced(b));
    MoveThread(s, store, t, Thread(Advanced(b), Idle));
    FinishIs(s.(store := store), t);
  }

  /** A batch in the middle of an intent has a row for it. */
  lemma BusyBatchHasRow(s: Sys, t: nat)
    requires Inv(s) && t in s.threads && s.threads[t].pc != Idle && s.threads[t].batch.Batch?
    ensures Current(s.threads[t].batch).Some? && Current(s.threads[t].batch).value.clientId in s.store.orders
  {
    assert ThreadFits(s.store, s.threads[t]);
  }

  lemma FinishThread(s: Sys, store: Store, t: nat)
    requires Inv(s) && ValidStore(store) && Grows(s.store, store)
    requires t in s.threads && s.threads[t].pc != Idle
    ensures Inv(Finish(s.(store := store), t))
  {
    if s.threads[t].batch.Batch? {
      BusyBatchHasRow(s, t);
      AdvanceBatch(s, store, t);
    } else {
      DropThread(s, store, t);
    }
  }

  lemma ReserveKeeps(s: Sys, t: nat)
    requires Inv(s) && t in s.threads
    ensures Inv(DoReserve(s, t))
  {
    var th := s.threads[t];
    if th.pc == Idle && Current(th.batch).Some? {
      var intent := Current(th.batch).value;
      var (store, reserved) := Reserve(s.store, intent);
      ReserveGrows(s.store, intent);
      if reserved {
        ThreadFitsGrows(s.store, store, th);
        MoveThread(s, store, t, th.(pc := LookingUp(intent)));
      } else {
        BarredStaysBarred(s.store, store, intent);
        AdvanceBatch(s, store, t);
      }
    }
  }

  lemma LookupKeeps(s: Sys, t: nat, found: Option<BrokerOrder>)
    requires Inv(s) && t in s.threads
    ensures Inv(DoLookup(s, t, found))
  {
    var th := s.threads[t];
    if th.pc.LookingUp? {
      GrowsRefl(s.store);
      match found
      case Some(order) =>
        BrokerStatusIsExternal(order.status);
        MoveThread(s, s.store, t, th.(pc := Reading(ExistingWrite(th.pc.intent, order), ThenFinish)));
      case None =>
        MoveThread(s, s.store, t, th.(pc := Reading(StartWrite(th.pc.intent), ThenCall(th.pc.intent))));
    }
  }

  lemma ReadKeeps(s: Sys, t: nat)
    requires Inv(s) && t in s.threads
    ensures Inv(DoRead(s, t))
  {
    var th := s.threads[t];
    if th.pc.Reading? {
      GrowsRefl(s.store);
      var w := th.pc.w;
      if w.clientId in s.store.orders && th.pc.next.ThenRepair?
         && !Advances(s.store.orders[w.clientId], w, th.pc.next.tolerance) {
        MoveThread(s, s.store, t, th.(pc := Auditing(th.pc.next.order, th.pc.next.tolerance)));
      } else if w.clientId in s.store.orders && CanTransition(s.store.orders[w.clientId].state, w.target) {
        var row := s.store.orders[w.clientId];
        MoveThread(s, s.store, t, th.(pc := Writing(w, row.state, row.filled, th.pc.next)));
      } else {
        DropThread(s, s.store, t);
      }
    }
  }

  /** Whether the start was written now or its key was already there, the start is in the history. */
  lemma StartIsDurable(s: Store, intent: OrderIntent, expected: LocalOrderState)
    requires ValidStore(s) && CanTransition(expected, SubmissionStarted)
    requires Transition(s, StartWrite(intent), expected).1 != Refused
    ensures Started(Transition(s, StartWrite(intent), expected).0, intent.clientId)
  {
    TransitionKeepsPaths(s, StartWrite(intent), expected);
    if Transition(s, StartWrite(intent), expected).1 == DuplicateEvent {
      var e :| e in s.events && e.key == StartedKey(intent.clientId);
      assert KeysFit(e);
      EnteredContains(s.events, e);
    }
  }

  /** The writer goes on to something other than a broker call. */
  lemma WriteGoesOn(s: Sys, store: Store, t: nat, pc: Pc)
    requires Inv(s) && ValidStore(store) && Grows(s.store, store) && t in s.threads && s.threads[t].pc.Writing?
    requires !s.threads[t].pc.next.ThenCall? && (pc.Filling? || pc.Auditing?)
    ensures Inv(Put(s.(store := store), t, s.threads[t].(pc := pc)))
  {
    ThreadFitsGrows(s.store, store, s.threads[t]);
    MoveThread(s, store, t, s.threads[t].(pc := pc));
  }

  lemma StartedWriteCalls(s: Sys, t: nat)
    requires Inv(s) && t in s.threads && s.threads[t].pc.Writing? && s.threads[t].pc.next.ThenCall?
    requires Transition(s.store, s.threads[t].pc.w, s.threads[t].pc.expected).1 != Refused
    ensures Inv(DoWrite(s, t))
  {
    var th := s.threads[t];
    var store := Transition(s.store, th.pc.w, th.pc.expected).0;
    TransitionGrows(s.store, th.pc.w, th.pc.expected);
    ThreadFitsGrows(s.store, store, th);
    StartIsDurable(s.store, th.pc.next.intent, th.pc.expected);
    MoveThread(s, store, t, th.(pc := Calling(th.pc.next.intent)));
  }

  lemma WriteKeeps(s: Sys, t: nat)
    requires Inv(s) && t in s.threads
    ensures Inv(DoWrite(s, t))
  {
    var th := s.threads[t];
    if th.pc.Writing? {
      assert PcFits(s.store, th.pc) by { assert ThreadFits(s.store, th); }
      var (store, outcome) := Transition(s.store, th.pc.w, th.pc.expected);
      TransitionGrows(s.store, th.pc.w, th.pc.expected);
      if outcome == Refused {
        DropThread(s, store, t);
      } else {
        match th.pc.next
        case ThenFinish => FinishThread(s, store, t);
        case ThenCall(_) => StartedWriteCalls(s, t);
        case ThenRepair(order, tolerance) => WriteGoesOn(s, store, t, Auditing(order, tolerance));
        case ThenFill(u) =>
          if outcome == Applied && FillFor(u, th.pc.prior).Some? {
            WriteGoesOn(s, store, t, Filling(FillFor(u, th.pc.prior).value));
          } else {
            FinishThread(s, store, t);
          }
      }
    }
  }

  lemma ReadyCallFits(s: Sys, t: nat)
    requires Inv(s) && t in s.threads && s.threads[t].pc.Calling?
    ensures CallFits(Call(s.threads[t].pc.intent, s.threads[t].batch, s.store))
    ensures s.threads[t].pc.intent.clientId in s.store.orders && !CallsFor(s.calls, s.threads[t].pc.intent.clientId)
    ensures ThreadFits(s.store, s.threads[t].(pc := Awaiting(s.threads[t].pc.intent)))
  {
    assert ThreadFits(s.store, s.threads[t]) && OwnerFits(s, s.threads[t]);
  }

  lemma OtherOwners(s: Sys, t: nat, u: nat)
    requires Inv(s) && t in s.threads && u in s.threads && t != u && s.threads[t].pc.Calling?
    ensures ThreadFits(s.store, s.threads[u]) && OwnerFits(DoCall(s, t), s.threads[u])
  {
    assert OwnerFits(s, s.threads[u]) && Owned(s.threads[u].pc) != Owned(s.threads[t].pc);
  }

  lemma CallKeeps(s: Sys, t: nat)
    requires Inv(s) && t in s.threads
    ensures Inv(DoCall(s, t))
  {
    if s.threads[t].pc.Calling? {
      ReadyCallFits(s, t);
      var s' := DoCall(s, t);
      forall u | u in s'.threads
        ensures ThreadFits(s'.store, s'.threads[u]) && OwnerFits(s', s'.threads[u])
      {
        if u != t {
          OtherOwners(s, t, u);
        }
      }
    }
  }

  lemma ReplyKeeps(s: Sys, t: nat, reply: Reply)
    requires Inv(s) && t in s.threads
    ensures Inv(DoReply(s, t, reply))
  {
    var th := s.threads[t];
    if th.pc.Awaiting? {
      GrowsRefl(s.store);
      match reply
      case Answered(order) =>
        BrokerStatusIsExternal(order.status);
        MoveThread(s, s.store, t, th.(pc := Reading(ResponseWrite(th.pc.intent, order), ThenFinish)));
      case Ambiguous =>
        MoveThread(s, s.store, t, th.(pc := Reading(UnknownWrite(th.pc.intent), ThenFinish)));
      case Raised =>
        DropThread(s, s.store, t);
    }
  }

  lemma CallbackKeeps(s: Sys, t: nat, blocking: bool)
    requires Inv(s) && t in s.threads
    ensures Inv(DoCallback(s, t, blocking))
  {
    var th := s.threads[t];
    if th.pc == Idle && th.batch.Batch? && th.batch.phase.Reconciling? {
      GrowsRefl(s.store);
      assert ThreadFits(s.store, th);
      MoveThread(s, s.store, t, DoCallback(s, t, blocking).threads[t]);
    }
  }

  lemma CheckSellKeeps(s: Sys, t: nat)
    requires Inv(s) && t in s.threads
    ensures Inv(DoCheckSell(s, t))
  {
    var th := s.threads[t];
    if th.pc == Idle && th.batch.Batch? && th.batch.phase.Checking? && th.batch.phase.next < |th.batch.sells| {
      GrowsRefl(s.store);
      CheckSellFits(s, t);
      MoveThread(s, s.store, t, DoCheckSell(s, t).threads[t]);
    }
  }

  /** Only a batch that found nothing open and was not blocked goes on to its buys. */
  lemma NextPhaseFits(store: Store, b: Batch, phase: Phase)
    requires b.Batch? && BatchFits(store, b)
    requires || (b.phase == Selling(|b.sells|) && phase == (if b.sells != [] && b.callback then Reconciling else Checking(0)))
             || (b.phase == Checking(|b.sells|) && phase == Buying(0) && !b.unresolved && b.answer != Some(true))
    ensures BatchFits(store, b.(phase := phase))
  {
  }

  lemma NextPhaseKeeps(s: Sys, t: nat)
    requires Inv(s) && t in s.threads
    ensures Inv(DoNextPhase(s, t))
  {
    var th := s.threads[t];
    var s' := DoNextPhase(s, t);
    if th.pc == Idle && th.batch.Batch? && s' != s {
      GrowsRefl(s.store);
      assert ThreadFits(s.store, th);
      if t in s'.threads {
        NextPhaseFits(s.store, th.batch, s'.threads[t].batch.phase);
        MoveThread(s, s.store, t, s'.threads[t]);
      } else {
        DropThread(s, s.store, t);
      }
    }
  }

  lemma CheckSellFits(s: Sys, t: nat)
    requires Inv(s) && t in s.threads
    requires s.threads[t].pc == Idle && s.threads[t].batch.Batch? && s.threads[t].batch.phase.Checking?
    requires s.threads[t].batch.phase.next < |s.threads[t].batch.sells|
    ensures ThreadFits(s.store, DoCheckSell(s, t).threads[t])
  {
    var b, b' := s.threads[t].batch, DoCheckSell(s, t).threads[t].batch;
    assert ThreadFits(s.store, s.threads[t]);
    var sell := b.sells[b.phase.next];
    assert sell.clientId in s.store.orders || Barred(s.store, sell);
    forall k | 0 <= k < b'.phase.next && !b'.unresolved
      ensures SellSettled(s.store, b'.sells[k])
    {
      if k < b.phase.next {
        assert SellSettled(s.store, b.sells[k]);
      }
    }
  }

  lemma UpdateKeeps(s: Sys, t: nat)
    requires Inv(s) && t in s.threads
    ensures Inv(DoCheckEvent(s, t)) && Inv(DoFill(s, t))
  {
    var th := s.threads[t];
    GrowsRefl(s.store);
    if th.pc.CheckingEvent? {
      var u := th.pc.update;
      BrokerStatusIsExternal(if u.event != "" then u.event else u.order.status);
      DropThread(s, s.store, t);
      MoveThread(s, s.store, t, th.(pc := Reading(UpdateWrite(u), ThenFill(u))));
    }
    if th.pc.Filling? {
      RecordFillGrows(s.store, th.pc.fill);
      FinishThread(s, RecordFill(s.store, th.pc.fill), t);
    }
  }

  lemma AuditKeeps(s: Sys, t: nat)
    requires Inv(s) && t in s.threads
    ensures Inv(DoAudit(s, t))
  {
    var th := s.threads[t];
    if th.pc.Auditing? {
      GrowsRefl(s.store);
      match RepairFor(s.store.fills, th.pc.order, th.pc.tolerance)
      case Some(fill) => MoveThread(s, s.store, t, th.(pc := Filling(fill)));
      case None => FinishThread(s, s.store, t);
    }
  }

  lemma StoreGrowthKeeps(s: Sys, store: Store)
    requires Inv(s) && ValidStore(store) && Grows(s.store, store)
    ensures Inv(s.(store := store))
  {
    forall u | u in s.threads
      ensures ThreadFits(store, s.threads[u])
    {
      ThreadFitsGrows(s.store, store, s.threads[u]);
    }
  }

  lemma StepKeeps(s: Sys, step: Step)
    requires Inv(s)
    ensures Inv(Apply(s, step))
  {
    GrowsRefl(s.store);
    match step
    case SpawnBatch(t, sells, buys, callback) =>
      if SidesFit(sells, buys) && t !in s.threads {
        MoveThread(s, s.store, t, Thread(Batch(sells, buys, callback, Selling(0), None, false), Idle));
      }
    case SpawnUpdate(t, update) =>
      if t !in s.threads {
        MoveThread(s, s.store, t, Thread(NoBatch, CheckingEvent(update)));
      }
    case SpawnReconcile(t, order, tolerance) =>
      if t !in s.threads {
        BrokerStatusIsExternal(order.status);
        MoveThread(s, s.store, t, Thread(NoBatch, Reading(ReconcileWrite(order), ThenRepair(order, tolerance))));
      }
    case DryRun(intents) =>
      HypotheticalGrows(s.store, intents);
      StoreGrowthKeeps(s, RecordHypothetical(s.store, intents).0);
    case Act(t, action) =>
      if t in s.threads {
        ActionKeeps(s, t, action);
      }
  }

  lemma ActionKeeps(s: Sys, t: nat, action: Action)
    requires Inv(s) && t in s.threads
    ensures Inv(Do(s, t, action))
  {
    match action
    case ReserveNext => ReserveKeeps(s, t);
    case Lookup(found) => LookupKeeps(s, t, found);
    case ReadRow => ReadKeeps(s, t);
    case CommitWrite => WriteKeeps(s, t);
    case CallBroker => CallKeeps(s, t);
    case BrokerReply(reply) => ReplyKeeps(s, t, reply);
    case CallbackReply(blocking) => CallbackKeeps(s, t, blocking);
    case CheckSell => CheckSellKeeps(s, t);
    case NextPhase => NextPhaseKeeps(s, t);
    case CheckEvent => UpdateKeeps(s, t);
    case CommitFill => UpdateKeeps(s, t);
    case ReadLedger => AuditKeeps(s, t);
    case Crash =>
      GrowsRefl(s.store);
      DropThread(s, s.store, t);
  }

  lemma {:induction false} RunKeeps(steps: seq<Step>)
    ensures Inv(Run(steps))
  {
    if steps == [] {
      EmptyStoreIsValid();
    } else {
      RunKeeps(steps[..|steps| - 1]);
      StepKeeps(Run(steps[..|steps| - 1]), steps[|steps| - 1]);
    }
  }

  // ---------------------------------------------------------------- theorems over every run

  /** The broker's submit operation is invoked at most once per client order id. */
  lemma SubmittedAtMostOnce(steps: seq<Step>, i: nat, j: nat)
    requires i < |Run(steps).calls| && j < |Run(steps).calls|
    requires Run(steps).calls[i].intent.clientId == Run(steps).calls[j].intent.clientId
    ensures i == j
  {
    RunKeeps(steps);
  }

  /**
   Persist before calling: at every broker call the order's row exists and its durable history holds
   the start of a submission exactly once.
   */
  lemma CallsFollowDurableStart(steps: seq<Step>, c: Call)
    requires c in Run(steps).calls
    ensures c.intent.clientId in c.store.orders
    ensures exists k: nat :: k < |History(c.store, c.intent.clientId)|
              && History(c.store, c.intent.clientId)[k] == SubmissionStarted
              && (forall j: nat ::
                    (j < |History(c.store, c.intent.clientId)|
                     && History(c.store, c.intent.clientId)[j] == SubmissionStarted) ==> j == k)
  {
    RunKeeps(steps);
    assert CallFits(c);
    var id := c.intent.clientId;
    var h := History(c.store, id);
    assert RowAgrees(c.store, id);
    var k: nat :| k < |h| && h[k] == SubmissionStarted;
    assert h[0] == Planned;
    assert |h| > 1;
    forall j: nat | j < |h| && h[j] == SubmissionStarted
      ensures j == k
    {
      OnceOnlyStates(h, k, j);
    }
  }

  /** Every stored history is a path of the state table that ends in the row's state. */
  lemma HistoriesArePaths(steps: seq<Step>, id: ClientId)
    requires id in Run(steps).store.orders
    ensures var h := History(Run(steps).store, id);
            && IsPath(h) && h[0] == Planned && |h| >= 2 && h[1] == LocallyReserved
            && h[|h| - 1] == Run(steps).store.orders[id].state
  {
    RunKeeps(steps);
    assert RowAgrees(Run(steps).store, id);
  }

  /** The life of an order in every run: no way out of terminal states, no second start, no forgotten fill. */
  lemma OrderLifecycle(steps: seq<Step>, id: ClientId, i: nat, j: nat)
    requires id in Run(steps).store.orders
    requires i < j < |History(Run(steps).store, id)|
    ensures var h := History(Run(steps).store, id);
            && (Terminal(h[i]) ==> h[j] == h[i])
            && (h[i] in {Planned, LocallyReserved, SubmissionStarted, SubmissionUnknown} ==> h[j] != h[i])
            && (h[i] == PartiallyFilled && h[j] in {Submitted, Accepted, Pending} ==>
                  exists k :: i < k < j && h[k] == ReconciliationRequired)
  {
    HistoriesArePaths(steps, id);
    var h := History(Run(steps).store, id);
    if Terminal(h[i]) {
      TerminalAbsorbs(h, i, j);
    }
    StageNeverFalls(h, i, j);
    if h[i] == PartiallyFilled {
      PartialFillNeverForgotten(h, i, j);
    }
  }

  lemma NextStateExtends(steps: seq<Step>, step: Step)
    ensures Grows(Run(steps).store, Run(steps + [step]).store)
  {
    RunKeeps(steps);
    StepGrows(Run(steps), step);
    assert (steps + [step])[..|steps|] == steps;
  }

  /** What a later state of the run may do to an order: extend its history, never leave a terminal state. */
  lemma {:induction false} LaterStatesExtend(steps: seq<Step>, more: seq<Step>)
    ensures Grows(Run(steps).store, Run(steps + more).store)
    decreases |more|
  {
    if more == [] {
      assert steps + more == steps;
      GrowsRefl(Run(steps).store);
    } else {
      var n := |more| - 1;
      var before := steps + more[..n];
      LaterStatesExtend(steps, more[..n]);
      NextStateExtends(before, more[n]);
      assert before + [more[n]] == steps + more;
      GrowsTransitive(Run(steps).store, Run(before).store, Run(steps + more).store);
    }
  }

  lemma NextState(steps: seq<Step>, m: nat)
    requires m < |steps|
    ensures Run(steps[..m + 1]) == Apply(Run(steps[..m]), steps[m])
  {
    assert steps[..m + 1][..m] == steps[..m];
  }

  /** From one state of a run to a later one. */
  lemma PrefixExtends(steps: seq<Step>, m: nat, n: nat)
    requires m <= n <= |steps|
    ensures Grows(Run(steps[..m]).store, Run(steps[..n]).store)
  {
    assert steps[..n] == steps[..m] + steps[m..n];
    LaterStatesExtend(steps[..m], steps[m..n]);
  }

  lemma GrowsTransitive(a: Store, b: Store, c: Store)
    requires Grows(a, b) && Grows(b, c)
    ensures Grows(a, c)
  {
    forall id
      ensures History(a, id) <= History(c, id)
    {
      assert History(a, id) <= History(b, id) <= History(c, id);
    }
  }

  lemma StepGrows(s: Sys, step: Step)
    requires Inv(s)
    ensures Grows(s.store, Apply(s, step).store)
  {
    GrowsRefl(s.store);
    if step.DryRun? {
      HypotheticalGrows(s.store, step.intents);
    } else if step.Act? && step.t in s.threads {
      ActionGrows(s, step.t, step.action);
    }
  }

  /** The store after an action: one transaction's result, or unchanged. */
  lemma ActionStore(s: Sys, t: nat, action: Action)
    requires t in s.threads
    ensures var th := s.threads[t]; var store := Do(s, t, action).store;
            || store == s.store
            || (Current(th.batch).Some? && store == Reserve(s.store, Current(th.batch).value).0)
            || (th.pc.Writing? && store == Transition(s.store, th.pc.w, th.pc.expected).0)
            || (th.pc.Filling? && store == RecordFill(s.store, th.pc.fill))
  {
  }

  lemma ActionGrows(s: Sys, t: nat, action: Action)
    requires Inv(s) && t in s.threads
    ensures Grows(s.store, Do(s, t, action).store)
  {
    var th := s.threads[t];
    assert PcFits(s.store, th.pc) by { assert ThreadFits(s.store, th); }
    ActionStore(s, t, action);
    var store := Do(s, t, action).store;
    if store == s.store {
      GrowsRefl(s.store);
    } else if th.pc.Writing? && store == Transition(s.store, th.pc.w, th.pc.expected).0 {
      TransitionGrows(s.store, th.pc.w, th.pc.expected);
    } else if th.pc.Filling? && store == RecordFill(s.store, th.pc.fill) {
      RecordFillGrows(s.store, th.pc.fill);
    } else {
      ReserveGrows(s.store, Current(th.batch).value);
    }
  }

  /**
   A buy reaches the broker only after the reconciliation callback, if there was one to ask, reported
   non-blocking, and only when each sell of its batch is in a terminal state, or the intents table
   bars it: its decision, symbol and side are reserved under another client id, or a dry run recorded
   its own id.
   */
  lemma BuysWaitForSells(steps: seq<Step>, c: Call, k: nat)
    requires c in Run(steps).calls && c.intent.side == Buy
    ensures c.batch.Batch? && c.intent in c.batch.buys
    ensures c.batch.sells != [] && c.batch.callback ==> c.batch.answer == Some(false)
    ensures k < |c.batch.sells| ==> RowIsTerminal(c.store, c.batch.sells[k]) || Barred(c.store, c.batch.sells[k])
  {
    RunKeeps(steps);
    assert CallFits(c);
    if k < |c.batch.sells| {
      assert SellSettled(c.store, c.batch.sells[k]);
    }
  }

  /**
   Exactly when the gate holds: provided client ids stand for one intent each, every sell of the batch
   has a terminal row at every buy if and only if nobody else holds its decision, symbol and side and
   its own id, if recorded, has a row.
   */
  lemma SellGateHoldsExactlyWhen(steps: seq<Step>, c: Call, k: nat)
    requires c in Run(steps).calls && c.intent.side == Buy && c.batch.Batch? && k < |c.batch.sells|
    requires var sell := c.batch.sells[k]; sell.clientId in c.store.intents ==> c.store.intents[sell.clientId] == KeyFor(sell)
    ensures var sell := c.batch.sells[k];
            RowIsTerminal(c.store, sell) <==> !HeldElsewhere(c.store, sell) && !Rehearsed(c.store, sell.clientId)
  {
    BuysWaitForSells(steps, c, k);
    RunKeeps(steps);
    assert CallFits(c);
    assert OneEach(c.store.intents);
  }
}
