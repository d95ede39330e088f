/**
 The order manager run call by call is one run of the concurrent protocol: a thread that nobody disturbs, and to
 which the fake broker answers, makes the same writes, the same broker calls and the same decisions.
 */
module ProtocolRefinement {
  import opened Prelude
  import opened LiveModels
  import opened OrderStates
  import opened OrderStore
  import opened OrderWrites
  import opened FakeBroker
  import opened OrderManager
  import opened OrderExecution
  import opened OrderProtocol
  import opened OrderProtocolCases

  // ---------------------------------------------------------------- runs of one thread

  /** One thread acts several times in a row. */
  function Acting(s: Sys, t: nat, actions: seq<Action>): Sys
    decreases |actions|
  {
    if actions == [] then s else Acting(Apply(s, Act(t, actions[0])), t, actions[1..])
  }

  function Acts(t: nat, actions: seq<Action>): (steps: seq<Step>)
    ensures |steps| == |actions|
  {
    seq(|actions|, i requires 0 <= i < |actions| => Act(t, actions[i]))
  }

  lemma {:induction false} ActingIsRun(s: Sys, t: nat, actions: seq<Action>)
    ensures Acting(s, t, actions) == RunFrom(s, Acts(t, actions))
    decreases |actions|
  {
    if actions != [] {
      ActingIsRun(Apply(s, Act(t, actions[0])), t, actions[1..]);
      RunFromConcat(s, [Act(t, actions[0])], Acts(t, actions[1..]));
      RunFromOne(s, Act(t, actions[0]));
      assert Acts(t, actions) == [Act(t, actions[0])] + Acts(t, actions[1..]);
    }
  }

  lemma {:induction false} ActingOn(s: Sys, t: nat, a: seq<Action>, b: seq<Action>)
    ensures Acting(s, t, a + b) == Acting(Acting(s, t, a), t, b)
    decreases |a|
  {
    if a == [] {
      assert a + b == b;
    } else {
      assert (a + b)[1..] == a[1..] + b;
      ActingOn(Apply(s, Act(t, a[0])), t, a[1..], b);
    }
  }

  lemma TwoActs(s: Sys, t: nat, a: Action, b: Action)
    ensures Acting(s, t, [a, b]) == Apply(Apply(s, Act(t, a)), Act(t, b))
    ensures Acting(s, t, [a]) == Apply(s, Act(t, a))
  {
    assert [a, b][1..] == [b] && [b][1..] == [] && [a][1..] == [];
    assert Acting(Apply(s, Act(t, a)), t, [b]) == Acting(Apply(Apply(s, Act(t, a)), Act(t, b)), t, []);
  }

  /** A thread that is gone does nothing. */
  lemma {:induction false} GoneStaysGone(s: Sys, t: nat, actions: seq<Action>)
    requires t !in s.threads
    ensures Acting(s, t, actions) == s
    decreases |actions|
  {
    if actions != [] {
      GoneStaysGone(s, t, actions[1..]);
    }
  }

  // ---------------------------------------------------------------- one write

  /** What becomes of the thread once its write went through. */
  function After(s: Sys, t: nat, next: Next): Sys
    requires t in s.threads
  {
    match next
    case ThenCall(intent) => Put(s, t, s.threads[t].(pc := Calling(intent)))
    case _ => Finish(s, t)
  }

  /** Reading and committing undisturbed is one move of the order manager; a failed one ends the thread. */
  lemma WriteIsMove(s: Sys, t: nat, w: Write, next: Next)
    requires t in s.threads && s.threads[t].pc == Reading(w, next) && (next.ThenFinish? || next.ThenCall?)
    ensures var (store, moved) := MoveOrder(s.store, w);
            Acting(s, t, [ReadRow, CommitWrite]) ==
            if moved.Ok? then After(s.(store := store), t, next) else Drop(s.(store := store), t)
  {
    TwoActs(s, t, ReadRow, CommitWrite);
    var th := s.threads[t];
    if w.clientId in s.store.orders && CanTransition(s.store.orders[w.clientId].state, w.target) {
      var row := s.store.orders[w.clientId];
      var writing := Thread(th.batch, Writing(w, row.state, row.filled, next));
      assert Apply(s, Act(t, ReadRow)) == Put(s, t, writing);
      WriteCommits(s, t, w, row, next, writing);
    } else {
      assert Apply(s, Act(t, ReadRow)) == Drop(s, t);
    }
  }

  lemma WriteCommits(s: Sys, t: nat, w: Write, row: OrderRow, next: Next, writing: Thread)
    requires t in s.threads && (next.ThenFinish? || next.ThenCall?)
    requires w.clientId in s.store.orders && s.store.orders[w.clientId] == row && CanTransition(row.state, w.target)
    requires writing == Thread(s.threads[t].batch, Writing(w, row.state, row.filled, next))
    ensures var (store, moved) := MoveOrder(s.store, w);
            Apply(Put(s, t, writing), Act(t, CommitWrite)) ==
            if moved.Ok? then After(s.(store := store), t, next) else Drop(s.(store := store), t)
  {
    var (store, outcome) := Transition(s.store, w, row.state);
    var s1 := Put(s, t, writing);
    assert outcome == Refused ==> store == s.store;
    SamePut(s, t, writing);
    assert s1.threads[t] == writing;
    if next.ThenCall? {
      assert s1.threads[t := writing.(pc := Calling(next.intent))] == s.threads[t := s.threads[t].(pc := Calling(next.intent))];
    }
  }

  /** Putting a thread of the same batch first changes nothing that is put or dropped afterwards. */
  lemma SamePut(s: Sys, t: nat, th: Thread)
    requires t in s.threads && th.batch == s.threads[t].batch
    ensures Drop(Put(s, t, th), t) == Drop(s, t)
    ensures forall u: Thread :: Put(Put(s, t, th), t, u) == Put(s, t, u)
    ensures forall store: Store :: Finish(Put(s, t, th).(store := store), t) == Finish(s.(store := store), t)
  {
    assert s.threads[t := th] - {t} == s.threads - {t};
    forall u: Thread
      ensures Put(Put(s, t, th), t, u) == Put(s, t, u)
    {
      assert s.threads[t := th][t := u] == s.threads[t := u];
    }
    forall store: Store
      ensures Finish(Put(s, t, th).(store := store), t) == Finish(s.(store := store), t)
    {
      assert s.threads[t := th] - {t} == s.threads - {t};
    }
  }

  // ---------------------------------------------------------------- one submission

  function ReplyFor(outcome: SubmitOutcome): Reply {
    match outcome
    case Returned(order, _) => Answered(order)
    case TimedOut => Ambiguous
    case ShortRefused => Raised
    case FillRefused(_) => Raised
  }

  /** What a thread does to submit one intent, with the fake broker's answers. */
  function SubmissionActions(w: World, intent: OrderIntent): seq<Action>
    requires intent.Valid()
  {
    if !Reserve(w.store, intent).1 then [ReserveNext]
    else if FindRecent(w.broker, intent).Some?
    then [ReserveNext, Lookup(FindRecent(w.broker, intent))] + [ReadRow, CommitWrite]
    else [ReserveNext, Lookup(None)] + [ReadRow, CommitWrite]
         + ([CallBroker, BrokerReply(ReplyFor(SubmitOrder(w.broker, intent).1))] + [ReadRow, CommitWrite])
  }

  /** The submission gets as far as calling the broker. */
  predicate Asks(w: World, intent: OrderIntent) {
    var (s1, reserved) := Reserve(w.store, intent);
    reserved && FindRecent(w.broker, intent).None? && MoveOrder(s1, StartWrite(intent)).1.Ok?
  }

  /** The calls of the protocol a submission makes, with the durable state it makes them in. */
  function CallsMade(w: World, intent: OrderIntent, batch: Batch): seq<Call> {
    if Asks(w, intent) then [Call(intent, batch, MoveOrder(Reserve(w.store, intent).0, StartWrite(intent)).0)] else []
  }

  /** The thread after a submission: on to the next intent, or gone with the failure. */
  function Submitted(s: Sys, t: nat, store: Store, ok: bool, calls: seq<Call>): Sys
    requires t in s.threads
  {
    var s' := s.(store := store, calls := s.calls + calls);
    if ok then Finish(s', t) else Drop(s', t)
  }

  /** The thread stands before this intent, and the stores agree. */
  ghost predicate Before(s: Sys, t: nat, w: World, intent: OrderIntent) {
    && t in s.threads && s.threads[t].pc == Idle && Current(s.threads[t].batch) == Some(intent)
    && s.store == w.store
  }

  lemma ReservesAndLooks(s: Sys, t: nat, w: World, intent: OrderIntent, found: Option<BrokerOrder>)
    requires Before(s, t, w, intent)
    ensures var (store, reserved) := Reserve(w.store, intent);
            && (!reserved ==> Acting(s, t, [ReserveNext]) == Finish(s.(store := store), t))
            && (reserved ==> Acting(s, t, [ReserveNext, Lookup(found)]) ==
                             Put(s.(store := store), t, s.threads[t].(pc :=
                               if found.Some? then Reading(ExistingWrite(intent, found.value), ThenFinish)
                               else Reading(StartWrite(intent), ThenCall(intent)))))
  {
    TwoActs(s, t, ReserveNext, Lookup(found));
    var (store, reserved) := Reserve(w.store, intent);
    if reserved {
      var th := s.threads[t].(pc := LookingUp(intent));
      assert Apply(s, Act(t, ReserveNext)) == Put(s.(store := store), t, th);
      SamePut(s.(store := store), t, th);
    }
  }

  lemma CallsAndHears(s: Sys, t: nat, intent: OrderIntent, outcome: SubmitOutcome)
    requires t in s.threads && s.threads[t].pc == Calling(intent)
    ensures var s1 := s.(calls := s.calls + [Call(intent, s.threads[t].batch, s.store)]);
            Acting(s, t, [CallBroker, BrokerReply(ReplyFor(outcome))]) ==
            match outcome
            case Returned(order, _) => Put(s1, t, s.threads[t].(pc := Reading(ResponseWrite(intent, order), ThenFinish)))
            case TimedOut => Put(s1, t, s.threads[t].(pc := Reading(UnknownWrite(intent), ThenFinish)))
            case _ => Drop(s1, t)
  {
    TwoActs(s, t, CallBroker, BrokerReply(ReplyFor(outcome)));
    var s1 := s.(calls := s.calls + [Call(intent, s.threads[t].batch, s.store)]);
    var waiting := s.threads[t].(pc := Awaiting(intent));
    assert Apply(s, Act(t, CallBroker)) == Put(s1, t, waiting);
    SamePut(s1, t, waiting);
    Hears(s1, t, intent, outcome, waiting);
  }

  lemma Hears(s: Sys, t: nat, intent: OrderIntent, outcome: SubmitOutcome, waiting: Thread)
    requires t in s.threads && waiting == s.threads[t].(pc := Awaiting(intent))
    ensures Apply(Put(s, t, waiting), Act(t, BrokerReply(ReplyFor(outcome)))) ==
            match outcome
            case Returned(order, _) => Put(s, t, s.threads[t].(pc := Reading(ResponseWrite(intent, order), ThenFinish)))
            case TimedOut => Put(s, t, s.threads[t].(pc := Reading(UnknownWrite(intent), ThenFinish)))
            case _ => Drop(s, t)
  {
    SamePut(s, t, waiting);
  }

  /** The reply: the answer or the loss is written down, a refusal ends the thread. */
  lemma HearsReply(s: Sys, t: nat, intent: OrderIntent, outcome: SubmitOutcome)
    requires t in s.threads && s.threads[t].pc == Calling(intent)
    ensures var (store, r) := TakeReply(s.store, intent, outcome, false);
            Acting(s, t, [CallBroker, BrokerReply(ReplyFor(outcome))] + [ReadRow, CommitWrite])
            == Submitted(s, t, store, r.Ok?, [Call(intent, s.threads[t].batch, s.store)])
  {
    var th, call := s.threads[t], Call(intent, s.threads[t].batch, s.store);
    var s1 := s.(calls := s.calls + [call]);
    ActingOn(s, t, [CallBroker, BrokerReply(ReplyFor(outcome))], [ReadRow, CommitWrite]);
    CallsAndHears(s, t, intent, outcome);
    match outcome
    case Returned(order, _) =>
      var reading := th.(pc := Reading(ResponseWrite(intent, order), ThenFinish));
      WriteIsMove(Put(s1, t, reading), t, ResponseWrite(intent, order), ThenFinish);
      SamePut(s1, t, reading);
    case TimedOut =>
      var reading := th.(pc := Reading(UnknownWrite(intent), ThenFinish));
      WriteIsMove(Put(s1, t, reading), t, UnknownWrite(intent), ThenFinish);
      SamePut(s1, t, reading);
    case _ =>
      GoneStaysGone(Drop(s1, t), t, [ReadRow, CommitWrite]);
  }

  /** A thread that looked the intent up in vain starts the submission and then calls the broker. */
  lemma StartsAndCalls(s: Sys, t: nat, intent: OrderIntent, outcome: SubmitOutcome)
    requires t in s.threads && s.threads[t].pc == Reading(StartWrite(intent), ThenCall(intent))
    ensures var (s2, started) := MoveOrder(s.store, StartWrite(intent));
            var (s3, r) := TakeReply(s2, intent, outcome, false);
            Acting(s, t, [ReadRow, CommitWrite] + ([CallBroker, BrokerReply(ReplyFor(outcome))] + [ReadRow, CommitWrite])) ==
            if started.Err? then Submitted(s, t, s2, false, [])
            else Submitted(s, t, s3, r.Ok?, [Call(intent, s.threads[t].batch, s2)])
  {
    var rest := [CallBroker, BrokerReply(ReplyFor(outcome))] + [ReadRow, CommitWrite];
    var (s2, started) := MoveOrder(s.store, StartWrite(intent));
    ActingOn(s, t, [ReadRow, CommitWrite], rest);
    WriteIsMove(s, t, StartWrite(intent), ThenCall(intent));
    if started.Err? {
      GoneStaysGone(Drop(s.(store := s2), t), t, rest);
      assert s.calls + [] == s.calls;
    } else {
      var calling := s.threads[t].(pc := Calling(intent));
      HearsReply(Put(s.(store := s2), t, calling), t, intent, outcome);
      SameSubmitted(s.(store := s2), t, calling);
    }
  }

  lemma SameSubmitted(s: Sys, t: nat, th: Thread)
    requires t in s.threads && th.batch == s.threads[t].batch
    ensures forall store: Store, ok: bool, calls: seq<Call> :: Submitted(Put(s, t, th), t, store, ok, calls) == Submitted(s, t, store, ok, calls)
  {
    forall store: Store, ok: bool, calls: seq<Call>
      ensures Submitted(Put(s, t, th), t, store, ok, calls) == Submitted(s, t, store, ok, calls)
    {
      var s' := s.(store := store, calls := s.calls + calls);
      SamePut(s', t, th);
      assert Put(s, t, th).(store := store, calls := s.calls + calls) == Put(s', t, th).(store := store);
    }
  }

  /** Undisturbed, a thread submits an intent exactly as the order manager does against that broker. */
  lemma SubmissionIsRun(s: Sys, t: nat, w: World, intent: OrderIntent)
    requires intent.Valid() && Before(s, t, w, intent)
    ensures var (w', r) := SubmitIntent(w, intent, false);
            Acting(s, t, SubmissionActions(w, intent)) == Submitted(s, t, w'.store, r.Ok?, CallsMade(w, intent, s.threads[t].batch))
  {
    var (s1, reserved) := Reserve(w.store, intent);
    var found := FindRecent(w.broker, intent);
    ReservesAndLooks(s, t, w, intent, found);
    if !reserved {
      assert s.calls + [] == s.calls;
    } else if found.Some? {
      AdoptionIsRun(s, t, w, intent, found.value);
    } else {
      CallIsRun(s, t, w, intent);
    }
  }

  lemma AdoptionIsRun(s: Sys, t: nat, w: World, intent: OrderIntent, order: BrokerOrder)
    requires intent.Valid() && Before(s, t, w, intent) && Reserve(w.store, intent).1 && FindRecent(w.broker, intent) == Some(order)
    ensures var (w', r) := SubmitIntent(w, intent, false);
            Acting(s, t, SubmissionActions(w, intent)) == Submitted(s, t, w'.store, r.Ok?, [])
  {
    var s1 := Reserve(w.store, intent).0;
    var reading := s.threads[t].(pc := Reading(ExistingWrite(intent, order), ThenFinish));
    ActingOn(s, t, [ReserveNext, Lookup(Some(order))], [ReadRow, CommitWrite]);
    ReservesAndLooks(s, t, w, intent, Some(order));
    WriteIsMove(Put(s.(store := s1), t, reading), t, ExistingWrite(intent, order), ThenFinish);
    SamePut(s.(store := s1), t, reading);
    assert s.calls + [] == s.calls;
  }

  lemma CallIsRun(s: Sys, t: nat, w: World, intent: OrderIntent)
    requires intent.Valid() && Before(s, t, w, intent) && Reserve(w.store, intent).1 && FindRecent(w.broker, intent).None?
    ensures var (w', r) := SubmitIntent(w, intent, false);
            Acting(s, t, SubmissionActions(w, intent)) == Submitted(s, t, w'.store, r.Ok?, CallsMade(w, intent, s.threads[t].batch))
  {
    var s1 := Reserve(w.store, intent).0;
    var outcome := SubmitOrder(w.broker, intent).1;
    var reading := s.threads[t].(pc := Reading(StartWrite(intent), ThenCall(intent)));
    var rest := [CallBroker, BrokerReply(ReplyFor(outcome))] + [ReadRow, CommitWrite];
    assert SubmissionActions(w, intent) == [ReserveNext, Lookup(None)] + ([ReadRow, CommitWrite] + rest);
    ActingOn(s, t, [ReserveNext, Lookup(None)], [ReadRow, CommitWrite] + rest);
    ReservesAndLooks(s, t, w, intent, None);
    StartsAndCalls(Put(s.(store := s1), t, reading), t, intent, outcome);
    SameSubmitted(s.(store := s1), t, reading);
  }

  // ---------------------------------------------------------------- a batch

  function IntentsOf(calls: seq<Call>): (r: seq<OrderIntent>)
    ensures |r| == |calls|
  {
    seq(|calls|, i requires 0 <= i < |calls| => calls[i].intent)
  }

  /** What a thread does to submit one side of a batch. */
  function SideActions(w: World, intents: seq<OrderIntent>): seq<Action>
    requires forall i :: i in intents ==> i.Valid()
    decreases |intents|
  {
    if intents == [] then []
    else
      var (w1, first) := SubmitIntent(w, intents[0], false);
      SubmissionActions(w, intents[0]) + if first.Ok? then SideActions(w1, intents[1..]) else []
  }

  /** The intents of one side for which the broker is called. */
  function AskedFor(w: World, intents: seq<OrderIntent>): seq<OrderIntent>
    requires forall i :: i in intents ==> i.Valid()
    decreases |intents|
  {
    if intents == [] then []
    else
      var (w1, first) := SubmitIntent(w, intents[0], false);
      (if Asks(w, intents[0]) then [intents[0]] else []) + if first.Ok? then AskedFor(w1, intents[1..]) else []
  }

  /** The batch at intent `i` of a side. */
  function At(b: Batch, side: Side, i: nat): Batch
    requires b.Batch?
  {
    b.(phase := if side == Sell then Selling(i) else Buying(i))
  }

  function SideOf(b: Batch, side: Side): seq<OrderIntent>
    requires b.Batch?
  {
    if side == Sell then b.sells else b.buys
  }

  /** The thread after one side: before the next phase, or gone with a failure; the calls made are for these intents. */
  ghost predicate SideDone(s: Sys, s': Sys, t: nat, b: Batch, side: Side, store: Store, ok: bool, asked: seq<OrderIntent>)
    requires b.Batch?
  {
    && s'.store == store
    && IntentsOf(s'.calls) == IntentsOf(s.calls) + asked
    && s'.threads == if ok then s.threads[t := Thread(At(b, side, |SideOf(b, side)|), Idle)] else s.threads - {t}
  }

  lemma IntentsConcat(a: seq<Call>, b: seq<Call>)
    ensures IntentsOf(a + b) == IntentsOf(a) + IntentsOf(b)
  {
  }

  lemma OneCallMade(w: World, intent: OrderIntent, batch: Batch)
    ensures IntentsOf(CallsMade(w, intent, batch)) == if Asks(w, intent) then [intent] else []
  {
  }

  /** One submission of a side, told by what it leaves. */
  lemma OneOfSide(s: Sys, t: nat, w: World, b: Batch, side: Side, i: nat, intent: OrderIntent)
    requires b.Batch? && i < |SideOf(b, side)| && SideOf(b, side)[i] == intent && intent.Valid()
    requires t in s.threads && s.threads[t] == Thread(At(b, side, i), Idle) && s.store == w.store
    ensures var (w1, first) := SubmitIntent(w, intent, false);
            var s1 := Acting(s, t, SubmissionActions(w, intent));
            && s1.store == w1.store
            && s1.threads == (if first.Ok? then s.threads[t := Thread(At(b, side, i + 1), Idle)] else s.threads - {t})
            && IntentsOf(s1.calls) == IntentsOf(s.calls) + if Asks(w, intent) then [intent] else []
  {
    SubmissionIsRun(s, t, w, intent);
    IntentsConcat(s.calls, CallsMade(w, intent, s.threads[t].batch));
    OneCallMade(w, intent, s.threads[t].batch);
  }

  lemma Combine(s: Sys, s1: Sys, s': Sys, t: nat, b: Batch, side: Side, i: nat, store: Store, ok: bool,
                head: seq<OrderIntent>, tail: seq<OrderIntent>)
    requires b.Batch? && t in s.threads && s1.threads == s.threads[t := Thread(At(b, side, i + 1), Idle)]
    requires IntentsOf(s1.calls) == IntentsOf(s.calls) + head && SideDone(s1, s', t, b, side, store, ok, tail)
    ensures SideDone(s, s', t, b, side, store, ok, head + tail)
  {
    var last := Thread(At(b, side, |SideOf(b, side)|), Idle);
    assert s1.threads[t := last] == s.threads[t := last] && s1.threads - {t} == s.threads - {t};
    assert IntentsOf(s.calls) + head + tail == IntentsOf(s.calls) + (head + tail);
  }

  lemma NothingToSubmit(s: Sys, t: nat, w: World, b: Batch, side: Side)
    requires b.Batch? && t in s.threads && s.threads[t] == Thread(At(b, side, |SideOf(b, side)|), Idle) && s.store == w.store
    ensures SideDone(s, Acting(s, t, []), t, b, side, w.store, true, [])
  {
    assert IntentsOf(s.calls) + [] == IntentsOf(s.calls);
    assert s.threads[t := s.threads[t]] == s.threads;
  }

  /** How actions, calls and results of a side start with those of its first intent. */
  lemma SideUnfolds(w: World, intents: seq<OrderIntent>, w1: World, ok: bool)
    requires intents != [] && forall i :: i in intents ==> i.Valid()
    requires w1 == SubmitIntent(w, intents[0], false).0 && ok == SubmitIntent(w, intents[0], false).1.Ok?
    ensures forall i :: i in intents[1..] ==> i.Valid()
    ensures SideActions(w, intents) == SubmissionActions(w, intents[0]) + if ok then SideActions(w1, intents[1..]) else []
    ensures AskedFor(w, intents) == (if Asks(w, intents[0]) then [intents[0]] else []) + if ok then AskedFor(w1, intents[1..]) else []
    ensures ok ==> SubmitAll(w, intents, false).0 == SubmitAll(w1, intents[1..], false).0
                   && SubmitAll(w, intents, false).1.Ok? == SubmitAll(w1, intents[1..], false).1.Ok?
    ensures !ok ==> SubmitAll(w, intents, false).0 == w1 && SubmitAll(w, intents, false).1.Err?
  {
    assert forall i :: i in intents[1..] ==> i in intents;
  }

  /** The outcome of submitting the rest of a side. */
  ghost predicate SideRuns(s: Sys, t: nat, w: World, b: Batch, side: Side, rest: seq<OrderIntent>)
    requires b.Batch? && forall i :: i in rest ==> i.Valid()
  {
    SideDone(s, Acting(s, t, SideActions(w, rest)), t, b, side, SubmitAll(w, rest, false).0.store,
             SubmitAll(w, rest, false).1.Ok?, AskedFor(w, rest))
  }

  lemma FirstThenRest(s: Sys, t: nat, w: World, b: Batch, side: Side, i: nat, rest: seq<OrderIntent>, s1: Sys, w1: World, ok: bool)
    requires b.Batch? && rest != [] && t in s.threads && forall k :: k in rest ==> k.Valid()
    requires w1 == SubmitIntent(w, rest[0], false).0 && ok == SubmitIntent(w, rest[0], false).1.Ok?
    requires s1 == Acting(s, t, SubmissionActions(w, rest[0])) && s1.store == w1.store
    requires s1.threads == if ok then s.threads[t := Thread(At(b, side, i + 1), Idle)] else s.threads - {t}
    requires IntentsOf(s1.calls) == IntentsOf(s.calls) + if Asks(w, rest[0]) then [rest[0]] else []
    requires forall k :: k in rest[1..] ==> k.Valid()
    requires ok ==> SideRuns(s1, t, w1, b, side, rest[1..])
    ensures SideRuns(s, t, w, b, side, rest)
  {
    SideUnfolds(w, rest, w1, ok);
    ActingOn(s, t, SubmissionActions(w, rest[0]), if ok then SideActions(w1, rest[1..]) else []);
    var head := if Asks(w, rest[0]) then [rest[0]] else [];
    if ok {
      Combine(s, s1, Acting(s1, t, SideActions(w1, rest[1..])), t, b, side, i, SubmitAll(w1, rest[1..], false).0.store,
              SubmitAll(w1, rest[1..], false).1.Ok?, head, AskedFor(w1, rest[1..]));
    } else {
      assert Acting(s1, t, []) == s1 && head + [] == head;
    }
  }

  lemma {:induction false} SideIsRun(s: Sys, t: nat, w: World, b: Batch, side: Side, i: nat)
    requires b.Batch? && i <= |SideOf(b, side)| && (forall k :: k in SideOf(b, side) ==> k.Valid())
    requires t in s.threads && s.threads[t] == Thread(At(b, side, i), Idle) && s.store == w.store
    ensures forall k :: k in SideOf(b, side)[i..] ==> k.Valid()
    ensures SideRuns(s, t, w, b, side, SideOf(b, side)[i..])
    decreases |SideOf(b, side)| - i
  {
    var rest := SideOf(b, side)[i..];
    assert forall k :: k in rest ==> k in SideOf(b, side);
    if rest == [] {
      NothingToSubmit(s, t, w, b, side);
    } else {
      var (w1, first) := SubmitIntent(w, rest[0], false);
      assert rest[0] in rest && rest[1..] == SideOf(b, side)[i + 1..];
      OneOfSide(s, t, w, b, side, i, rest[0]);
      var s1 := Acting(s, t, SubmissionActions(w, rest[0]));
      if first.Ok? {
        SideIsRun(s1, t, w1, b, side, i + 1);
      }
      FirstThenRest(s, t, w, b, side, i, rest, s1, w1, first.Ok?);
    }
  }

  // ---------------------------------------------------------------- between sells and buys

  /** A callback that answers and leaves the store to others. */
  function AnswerOnly(answer: Option<bool>): Option<Callback> {
    match answer
    case Some(blocking) => Some((s: Store) => (s, blocking))
    case None => None
  }

  function Checks(n: nat): seq<Action> { seq(n, _ => CheckSell) }

  /** Some sell from this one on has a row that is not terminal. */
  predicate OpenFrom(store: Store, sells: seq<OrderIntent>, k: nat)
    requires k <= |sells|
  {
    exists i :: k <= i < |sells| && Unresolved(store, sells[i])
  }

  lemma OpenFromHere(store: Store, sells: seq<OrderIntent>, k: nat)
    requires k < |sells|
    ensures OpenFrom(store, sells, k) <==> Unresolved(store, sells[k]) || OpenFrom(store, sells, k + 1)
  {
  }

  /** The batch once all its sells were looked at. */
  function Checked(b: Batch, store: Store, k: nat): Batch
    requires b.Batch? && k <= |b.sells|
  {
    b.(phase := Checking(|b.sells|), unresolved := b.unresolved || OpenFrom(store, b.sells, k))
  }

  lemma {:induction false} ChecksAreRun(s: Sys, t: nat, b: Batch, k: nat)
    requires b.Batch? && k <= |b.sells| && t in s.threads && s.threads[t] == Thread(b, Idle) && b.phase == Checking(k)
    ensures Acting(s, t, Checks(|b.sells| - k)) == Put(s, t, Thread(Checked(b, s.store, k), Idle))
    decreases |b.sells| - k
  {
    if k == |b.sells| {
      assert Checks(0) == [];
      assert s.threads[t := Thread(b, Idle)] == s.threads;
    } else {
      var next := b.(phase := Checking(k + 1), unresolved := b.unresolved || Unresolved(s.store, b.sells[k]));
      var s1 := Apply(s, Act(t, CheckSell));
      assert s1 == Put(s, t, Thread(next, Idle));
      ChecksAreRun(s1, t, next, k + 1);
      OpenFromHere(s.store, b.sells, k);
      assert Checks(|b.sells| - k)[1..] == Checks(|b.sells| - (k + 1));
      var last := Thread(Checked(b, s.store, k), Idle);
      assert s.threads[t := Thread(next, Idle)][t := last] == s.threads[t := last];
    }
  }

  /** From the last sell to the first buy: the callback if there is one, every sell looked at, and the decision. */
  function GateActions(sells: seq<OrderIntent>, answer: Option<bool>): seq<Action> {
    Asking(sells, answer) + (Checks(|sells|) + [NextPhase])
  }

  function Asking(sells: seq<OrderIntent>, answer: Option<bool>): seq<Action> {
    if sells != [] && answer.Some? then [NextPhase, CallbackReply(answer.value)] else [NextPhase]
  }

  predicate Closed(store: Store, sells: seq<OrderIntent>, answer: Option<bool>) {
    (sells != [] && answer == Some(true)) || AnyUnresolved(store, sells)
  }

  function Fresh(sells: seq<OrderIntent>, buys: seq<OrderIntent>, callback: bool): Batch {
    Batch(sells, buys, callback, Selling(0), None, false)
  }

  lemma AskingIsRun(s: Sys, t: nat, sells: seq<OrderIntent>, buys: seq<OrderIntent>, answer: Option<bool>)
    requires t in s.threads && s.threads[t] == Thread(At(Fresh(sells, buys, answer.Some?), Sell, |sells|), Idle)
    ensures var b := Fresh(sells, buys, answer.Some?).(phase := Checking(0), answer := if sells != [] then answer else None);
            Acting(s, t, Asking(sells, answer)) == Put(s, t, Thread(b, Idle))
  {
    var b := Fresh(sells, buys, answer.Some?);
    if sells != [] && answer.Some? {
      TwoActs(s, t, NextPhase, CallbackReply(answer.value));
      var waiting := Thread(b.(phase := Reconciling), Idle);
      assert Apply(s, Act(t, NextPhase)) == Put(s, t, waiting);
      var asked := Thread(b.(phase := Checking(0), answer := answer), Idle);
      assert s.threads[t := waiting][t := asked] == s.threads[t := asked];
    } else {
      TwoActs(s, t, NextPhase, NextPhase);
    }
  }

  lemma OpenFromStart(store: Store, sells: seq<OrderIntent>)
    ensures OpenFrom(store, sells, 0) <==> AnyUnresolved(store, sells)
  {
    if AnyUnresolved(store, sells) {
      var i :| i in sells && Unresolved(store, i);
      var k :| 0 <= k < |sells| && sells[k] == i;
    }
  }

  /** The batch at the gate: everything looked at, nothing decided. */
  function AtGate(store: Store, sells: seq<OrderIntent>, buys: seq<OrderIntent>, answer: Option<bool>): Batch {
    Batch(sells, buys, answer.Some?, Checking(|sells|), if sells != [] then answer else None, AnyUnresolved(store, sells))
  }

  lemma LooksAtAll(s: Sys, t: nat, sells: seq<OrderIntent>, buys: seq<OrderIntent>, answer: Option<bool>)
    requires t in s.threads && s.threads[t] == Thread(At(Fresh(sells, buys, answer.Some?), Sell, |sells|), Idle)
    ensures Acting(s, t, Asking(sells, answer) + Checks(|sells|)) == Put(s, t, Thread(AtGate(s.store, sells, buys, answer), Idle))
  {
    var asked := Fresh(sells, buys, answer.Some?).(phase := Checking(0), answer := if sells != [] then answer else None);
    var s1 := Put(s, t, Thread(asked, Idle));
    ActingOn(s, t, Asking(sells, answer), Checks(|sells|));
    AskingIsRun(s, t, sells, buys, answer);
    ChecksAreRun(s1, t, asked, 0);
    OpenFromStart(s.store, sells);
    var gate := Thread(AtGate(s.store, sells, buys, answer), Idle);
    assert s.threads[t := Thread(asked, Idle)][t := gate] == s.threads[t := gate];
  }

  lemma GateIsRun(s: Sys, t: nat, sells: seq<OrderIntent>, buys: seq<OrderIntent>, answer: Option<bool>)
    requires t in s.threads && s.threads[t] == Thread(At(Fresh(sells, buys, answer.Some?), Sell, |sells|), Idle)
    ensures Acting(s, t, GateActions(sells, answer)) ==
            if Closed(s.store, sells, answer) then Drop(s, t)
            else Put(s, t, Thread(At(AtGate(s.store, sells, buys, answer), Buy, 0), Idle))
  {
    var b := AtGate(s.store, sells, buys, answer);
    var s1 := Put(s, t, Thread(b, Idle));
    assert GateActions(sells, answer) == Asking(sells, answer) + Checks(|sells|) + [NextPhase];
    ActingOn(s, t, Asking(sells, answer) + Checks(|sells|), [NextPhase]);
    LooksAtAll(s, t, sells, buys, answer);
    TwoActs(s1, t, NextPhase, NextPhase);
    Decides(s, t, b, Closed(s.store, sells, answer));
  }

  lemma Decides(s: Sys, t: nat, b: Batch, closed: bool)
    requires t in s.threads && b.Batch? && b.phase == Checking(|b.sells|)
    requires closed <==> b.unresolved || b.answer == Some(true)
    ensures var s' := Apply(Put(s, t, Thread(b, Idle)), Act(t, NextPhase));
            if closed then s' == Drop(s, t) else s' == Put(s, t, Thread(At(b, Buy, 0), Idle))
  {
    assert s.threads[t := Thread(b, Idle)] - {t} == s.threads - {t};
    assert s.threads[t := Thread(b, Idle)][t := Thread(At(b, Buy, 0), Idle)] == s.threads[t := Thread(At(b, Buy, 0), Idle)];
  }

  // ---------------------------------------------------------------- the whole batch

  /** What a thread does to execute a batch, with the fake broker's answers and this answer of the callback. */
  function BatchActions(w: World, sells: seq<OrderIntent>, buys: seq<OrderIntent>, answer: Option<bool>): seq<Action>
    requires (forall i :: i in sells ==> i.Valid()) && forall i :: i in buys ==> i.Valid()
  {
    var (w1, sold) := SubmitAll(w, sells, false);
    SideActions(w, sells) + if sold.Err? then [] else GateActions(sells, answer) + BuyActions(w1, sells, buys, answer)
  }

  function BuyActions(w: World, sells: seq<OrderIntent>, buys: seq<OrderIntent>, answer: Option<bool>): seq<Action>
    requires forall i :: i in buys ==> i.Valid()
  {
    if Closed(w.store, sells, answer) then [] else SideActions(w, buys) + [NextPhase]
  }

  /** The intents of a batch for which the broker is called. */
  function AskedInAll(w: World, sells: seq<OrderIntent>, buys: seq<OrderIntent>, answer: Option<bool>): seq<OrderIntent>
    requires (forall i :: i in sells ==> i.Valid()) && forall i :: i in buys ==> i.Valid()
  {
    var (w1, sold) := SubmitAll(w, sells, false);
    AskedFor(w, sells) + if sold.Err? || Closed(w1.store, sells, answer) then [] else AskedFor(w1, buys)
  }

  /** A thread that is done leaves the store, the calls for these intents and the other threads. */
  ghost predicate Left(s: Sys, s': Sys, t: nat, store: Store, asked: seq<OrderIntent>) {
    s'.store == store && s'.threads == s.threads - {t} && IntentsOf(s'.calls) == IntentsOf(s.calls) + asked
  }

  lemma BuysEnd(s: Sys, s1: Sys, t: nat, b: Batch, store: Store, ok: bool, asked: seq<OrderIntent>)
    requires b.Batch? && t in s.threads && SideDone(s, s1, t, b, Buy, store, ok, asked)
    ensures Left(s, Apply(s1, Act(t, NextPhase)), t, store, asked)
  {
    if ok {
      var done := Thread(At(b, Buy, |b.buys|), Idle);
      assert s1.threads[t] == done;
      assert Apply(s1, Act(t, NextPhase)) == Drop(s1, t);
      assert s.threads[t := done] - {t} == s.threads - {t};
    }
  }

  lemma BuysAreRun(s: Sys, t: nat, w: World, b: Batch)
    requires b.Batch? && (forall i :: i in b.buys ==> i.Valid())
    requires t in s.threads && s.threads[t] == Thread(At(b, Buy, 0), Idle) && s.store == w.store
    ensures Left(s, Acting(s, t, SideActions(w, b.buys) + [NextPhase]), t, SubmitAll(w, b.buys, false).0.store, AskedFor(w, b.buys))
  {
    assert b.buys[0..] == b.buys;
    SideIsRun(s, t, w, b, Buy, 0);
    var s1 := Acting(s, t, SideActions(w, b.buys));
    ActingOn(s, t, SideActions(w, b.buys), [NextPhase]);
    TwoActs(s1, t, NextPhase, NextPhase);
    BuysEnd(s, s1, t, b, SubmitAll(w, b.buys, false).0.store, SubmitAll(w, b.buys, false).1.Ok?, AskedFor(w, b.buys));
  }

  lemma AfterSells(s: Sys, t: nat, w: World, sells: seq<OrderIntent>, buys: seq<OrderIntent>, answer: Option<bool>)
    requires forall i :: i in buys ==> i.Valid()
    requires t in s.threads && s.threads[t] == Thread(At(Fresh(sells, buys, answer.Some?), Sell, |sells|), Idle) && s.store == w.store
    ensures var closed := Closed(w.store, sells, answer);
            Left(s, Acting(s, t, GateActions(sells, answer) + BuyActions(w, sells, buys, answer)), t,
                 if closed then w.store else SubmitAll(w, buys, false).0.store, if closed then [] else AskedFor(w, buys))
  {
    var rest := BuyActions(w, sells, buys, answer);
    ActingOn(s, t, GateActions(sells, answer), rest);
    GateIsRun(s, t, sells, buys, answer);
    if Closed(w.store, sells, answer) {
      assert Acting(Drop(s, t), t, []) == Drop(s, t);
      assert IntentsOf(s.calls) + [] == IntentsOf(s.calls);
    } else {
      var b := AtGate(s.store, sells, buys, answer);
      var s1 := Put(s, t, Thread(At(b, Buy, 0), Idle));
      BuysAreRun(s1, t, w, b);
      assert s1.threads - {t} == s.threads - {t};
    }
  }

  /** A fresh batch thread, undisturbed and answered by the fake broker, from its first sell to its end. */
  lemma BatchIsRun(s: Sys, t: nat, w: World, sells: seq<OrderIntent>, buys: seq<OrderIntent>, answer: Option<bool>)
    requires (forall i :: i in sells ==> i.Valid()) && forall i :: i in buys ==> i.Valid()
    requires t in s.threads && s.threads[t] == Thread(Fresh(sells, buys, answer.Some?), Idle) && s.store == w.store
    ensures Left(s, Acting(s, t, BatchActions(w, sells, buys, answer)), t, StoreAfter(w, sells, buys, answer),
                 AskedInAll(w, sells, buys, answer))
  {
    var b := Fresh(sells, buys, answer.Some?);
    var (w1, sold) := SubmitAll(w, sells, false);
    assert sells[0..] == sells && At(b, Sell, 0) == b;
    SideIsRun(s, t, w, b, Sell, 0);
    var s1 := Acting(s, t, SideActions(w, sells));
    var rest := if sold.Err? then [] else GateActions(sells, answer) + BuyActions(w1, sells, buys, answer);
    ActingOn(s, t, SideActions(w, sells), rest);
    if sold.Err? {
      assert Acting(s1, t, []) == s1 && AskedFor(w, sells) + [] == AskedFor(w, sells);
    } else {
      AfterSells(s1, t, w1, sells, buys, answer);
      var asked := if Closed(w1.store, sells, answer) then [] else AskedFor(w1, buys);
      LeftLater(s, s1, Acting(s1, t, rest), t, b, StoreAfter(w, sells, buys, answer), AskedFor(w, sells), asked);
    }
  }

  lemma LeftLater(s: Sys, s1: Sys, s': Sys, t: nat, b: Batch, store: Store, head: seq<OrderIntent>, tail: seq<OrderIntent>)
    requires b.Batch? && t in s.threads && s1.threads == s.threads[t := Thread(At(b, Sell, |b.sells|), Idle)]
    requires IntentsOf(s1.calls) == IntentsOf(s.calls) + head && Left(s1, s', t, store, tail)
    ensures Left(s, s', t, store, head + tail)
  {
    assert s1.threads - {t} == s.threads - {t};
    assert IntentsOf(s.calls) + head + tail == IntentsOf(s.calls) + (head + tail);
  }

  /** The store a batch leaves, sells and buys taken one after the other around the gate. */
  function StoreAfter(w: World, sells: seq<OrderIntent>, buys: seq<OrderIntent>, answer: Option<bool>): Store
    requires (forall i :: i in sells ==> i.Valid()) && forall i :: i in buys ==> i.Valid()
  {
    var (w1, sold) := SubmitAll(w, sells, false);
    if sold.Err? || Closed(w1.store, sells, answer) then w1.store else SubmitAll(w1, buys, false).0.store
  }

  lemma ExecuteIsStoreAfter(w: World, intents: seq<OrderIntent>, answer: Option<bool>)
    requires forall i :: i in intents ==> i.Valid()
    ensures (forall i :: i in Ordered(intents, Sell) ==> i.Valid()) && forall i :: i in Ordered(intents, Buy) ==> i.Valid()
    ensures Execute(w, intents, AnswerOnly(answer), false).0.store
         == StoreAfter(w, Ordered(intents, Sell), Ordered(intents, Buy), answer)
  {
    OrderedKeeps(intents, Sell);
    OrderedKeeps(intents, Buy);
    var (w1, sold) := SubmitAll(w, Ordered(intents, Sell), false);
    if sold.Ok? {
      assert w1.(store := w1.store) == w1;
      assert Reconcile(w1.store, Ordered(intents, Sell), AnswerOnly(answer)).0 == w1.store;
    }
  }

  /** The steps of an executed batch: its thread starts, then acts until it is done. */
  function ExecutionSteps(t: nat, w: World, intents: seq<OrderIntent>, answer: Option<bool>): seq<Step>
    requires forall i :: i in intents ==> i.Valid()
  {
    OrderedKeeps(intents, Sell);
    OrderedKeeps(intents, Buy);
    var sells, buys := Ordered(intents, Sell), Ordered(intents, Buy);
    [SpawnBatch(t, sells, buys, answer.Some?)] + Acts(t, BatchActions(w, sells, buys, answer))
  }

  lemma SpawnsFresh(s: Sys, t: nat, sells: seq<OrderIntent>, buys: seq<OrderIntent>, callback: bool)
    requires t !in s.threads && SidesFit(sells, buys)
    ensures Apply(s, SpawnBatch(t, sells, buys, callback)) == Put(s, t, Thread(Fresh(sells, buys, callback), Idle))
  {
  }

  lemma OrderedSidesFit(intents: seq<OrderIntent>)
    ensures SidesFit(Ordered(intents, Sell), Ordered(intents, Buy))
  {
    OrderedKeeps(intents, Sell);
    OrderedKeeps(intents, Buy);
    var sells, buys := Ordered(intents, Sell), Ordered(intents, Buy);
    assert forall i :: 0 <= i < |sells| ==> sells[i] in sells;
    assert forall i :: 0 <= i < |buys| ==> buys[i] in buys;
  }

  /**
   After any run, whatever its state, executing a batch call by call is a continuation of that run: it leads to the
   same store, ends its thread, disturbs no other thread and calls the broker for exactly the intents that get that far.
   So all that is proved of every run of the protocol holds of the order manager.
   */
  lemma ExecutionIsRun(steps: seq<Step>, t: nat, broker: Broker, intents: seq<OrderIntent>, answer: Option<bool>)
    requires (forall i :: i in intents ==> i.Valid()) && t !in Run(steps).threads
    ensures var w := World(Run(steps).store, broker);
            var s' := Run(steps + ExecutionSteps(t, w, intents, answer));
            && s'.store == Execute(w, intents, AnswerOnly(answer), false).0.store
            && s'.threads == Run(steps).threads
    ensures (forall i :: i in Ordered(intents, Sell) ==> i.Valid()) && forall i :: i in Ordered(intents, Buy) ==> i.Valid()
    ensures var w := World(Run(steps).store, broker);
            IntentsOf(Run(steps + ExecutionSteps(t, w, intents, answer)).calls)
            == IntentsOf(Run(steps).calls) + AskedInAll(w, Ordered(intents, Sell), Ordered(intents, Buy), answer)
  {
    var s, w := Run(steps), World(Run(steps).store, broker);
    ExecuteIsStoreAfter(w, intents, answer);
    ExecutionRuns(s, t, w, intents, answer);
    RunFromConcat(INITIAL, steps, ExecutionSteps(t, w, intents, answer));
    assert s.threads - {t} == s.threads;
  }

  lemma ExecutionRuns(s: Sys, t: nat, w: World, intents: seq<OrderIntent>, answer: Option<bool>)
    requires (forall i :: i in intents ==> i.Valid()) && t !in s.threads && s.store == w.store
    ensures (forall i :: i in Ordered(intents, Sell) ==> i.Valid()) && forall i :: i in Ordered(intents, Buy) ==> i.Valid()
    ensures var sells, buys := Ordered(intents, Sell), Ordered(intents, Buy);
            Left(s, RunFrom(s, ExecutionSteps(t, w, intents, answer)), t, StoreAfter(w, sells, buys, answer), AskedInAll(w, sells, buys, answer))
  {
    OrderedKeeps(intents, Sell);
    OrderedKeeps(intents, Buy);
    OrderedSidesFit(intents);
    var sells, buys := Ordered(intents, Sell), Ordered(intents, Buy);
    var actions := BatchActions(w, sells, buys, answer);
    var begun := Put(s, t, Thread(Fresh(sells, buys, answer.Some?), Idle));
    RunFromConcat(s, [SpawnBatch(t, sells, buys, answer.Some?)], Acts(t, actions));
    RunFromOne(s, SpawnBatch(t, sells, buys, answer.Some?));
    SpawnsFresh(s, t, sells, buys, answer.Some?);
    ActingIsRun(begun, t, actions);
    BatchIsRun(begun, t, w, sells, buys, answer);
    assert begun.threads - {t} == s.threads - {t};
  }

  // ---------------------------------------------------------------- a delivered update

  function DeliverySteps(t: nat, u: TradeUpdate): seq<Step> {
    [SpawnUpdate(t, u), Act(t, CheckEvent), Act(t, ReadRow), Act(t, CommitWrite), Act(t, CommitFill)]
  }

  lemma EventIsChecked(s: Sys, t: nat, u: TradeUpdate)
    requires t !in s.threads
    ensures Apply(Apply(s, SpawnUpdate(t, u)), Act(t, CheckEvent)) ==
            if HasEvent(s.store, UpdateKey(u.Fingerprint())) then s else Put(s, t, Thread(NoBatch, Reading(UpdateWrite(u), ThenFill(u))))
  {
    var checking, reading := Thread(NoBatch, CheckingEvent(u)), Thread(NoBatch, Reading(UpdateWrite(u), ThenFill(u)));
    assert Apply(s, SpawnUpdate(t, u)) == Put(s, t, checking);
    assert s.threads[t := checking] - {t} == s.threads;
    assert s.threads[t := checking][t := reading] == s.threads[t := reading];
  }

  /** A handler that nobody disturbs handles its update as the order manager does. */
  lemma DeliveryIsRun(s: Sys, t: nat, u: TradeUpdate)
    requires t !in s.threads
    ensures var s' := RunFrom(s, DeliverySteps(t, u));
            s'.store == HandleUpdate(s.store, u, false).0 && s'.threads == s.threads && s'.calls == s.calls
  {
    FiveSteps(s, SpawnUpdate(t, u), Act(t, CheckEvent), Act(t, ReadRow), Act(t, CommitWrite), Act(t, CommitFill));
    EventIsChecked(s, t, u);
    if !HasEvent(s.store, UpdateKey(u.Fingerprint())) {
      DeliveryReads(s, t, u);
    }
  }

  lemma DeliveryReads(s: Sys, t: nat, u: TradeUpdate)
    requires t !in s.threads && !HasEvent(s.store, UpdateKey(u.Fingerprint()))
    ensures var s2 := Put(s, t, Thread(NoBatch, Reading(UpdateWrite(u), ThenFill(u))));
            var s' := Apply(Apply(Apply(s2, Act(t, ReadRow)), Act(t, CommitWrite)), Act(t, CommitFill));
            s'.store == HandleUpdate(s.store, u, false).0 && s'.threads == s.threads && s'.calls == s.calls
  {
    var w, id := UpdateWrite(u), u.order.clientId;
    var s2 := Put(s, t, Thread(NoBatch, Reading(w, ThenFill(u))));
    assert s2.threads - {t} == s.threads;
    if id in s.store.orders && CanTransition(s.store.orders[id].state, w.target) {
      var row := s.store.orders[id];
      var writing := Thread(NoBatch, Writing(w, row.state, row.filled, ThenFill(u)));
      assert Apply(s2, Act(t, ReadRow)) == Put(s, t, writing) by {
        assert s2.threads[t := writing] == s.threads[t := writing];
      }
      DeliveryCommits(s, t, u, row);
    } else {
      assert Apply(s2, Act(t, ReadRow)) == s;
    }
  }

  lemma DeliveryCommits(s: Sys, t: nat, u: TradeUpdate, row: OrderRow)
    requires t !in s.threads && !HasEvent(s.store, UpdateKey(u.Fingerprint()))
    requires u.order.clientId in s.store.orders && s.store.orders[u.order.clientId] == row && CanTransition(row.state, UpdateTarget(u))
    ensures var s3 := Put(s, t, Thread(NoBatch, Writing(UpdateWrite(u), row.state, row.filled, ThenFill(u))));
            var s' := Apply(Apply(s3, Act(t, CommitWrite)), Act(t, CommitFill));
            s'.store == HandleUpdate(s.store, u, false).0 && s'.threads == s.threads && s'.calls == s.calls
  {
    var w := UpdateWrite(u);
    var s3 := Put(s, t, Thread(NoBatch, Writing(w, row.state, row.filled, ThenFill(u))));
    var (store, outcome) := Transition(s.store, w, row.state);
    assert s3.threads - {t} == s.threads;
    if outcome == Applied && FillFor(u, row.filled).Some? {
      var filling := Thread(NoBatch, Filling(FillFor(u, row.filled).value));
      assert Apply(s3, Act(t, CommitWrite)) == Put(s.(store := store), t, filling) by {
        assert s3.threads[t := filling] == s.threads[t := filling];
      }
      assert s.threads[t := filling] - {t} == s.threads;
    } else {
      assert Apply(s3, Act(t, CommitWrite)) == s.(store := store);
    }
  }
}
