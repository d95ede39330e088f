/** The local order-state table and what every path through it must look like. */
module OrderStates {

  datatype LocalOrderState =
    | Planned
    | LocallyReserved
    | SubmissionStarted
    | Submitted
    | Accepted
    | Pending
    | PartiallyFilled
    | Filled
    | CancelRequested
    | Canceled
    | Rejected
    | Expired
    | Replaced
    | SubmissionUnknown
    | ReconciliationRequired

  /** States an order may move to; terminal states list only themselves. */
  function Successors(state: LocalOrderState): set<LocalOrderState> {
    match state
    case Planned => {LocallyReserved}
    case LocallyReserved =>
      {SubmissionStarted, Submitted, Accepted, Pending, PartiallyFilled, Filled,
       Canceled, Rejected, Expired, ReconciliationRequired}
    case SubmissionStarted =>
      {Submitted, Accepted, Pending, PartiallyFilled, Filled,
       Canceled, Rejected, Expired, SubmissionUnknown, ReconciliationRequired}
    case Submitted =>
      {Submitted, Accepted, Pending, PartiallyFilled, Filled, CancelRequested,
       Canceled, Rejected, Expired, Replaced, ReconciliationRequired}
    case Accepted =>
      {Accepted, Pending, PartiallyFilled, Filled, CancelRequested,
       Canceled, Rejected, Expired, Replaced, ReconciliationRequired}
    case Pending =>
      {Pending, Accepted, PartiallyFilled, Filled, CancelRequested,
       Canceled, Rejected, Expired, Replaced, ReconciliationRequired}
    case PartiallyFilled =>
      {PartiallyFilled, Filled, CancelRequested, Canceled, Expired, Replaced, ReconciliationRequired}
    case CancelRequested =>
      {CancelRequested, PartiallyFilled, Filled, Canceled, Rejected, ReconciliationRequired}
    case SubmissionUnknown =>
      {Submitted, Accepted, Pending, PartiallyFilled, Filled,
       Canceled, Rejected, Expired, ReconciliationRequired}
    case ReconciliationRequired =>
      {Submitted, Accepted, Pending, PartiallyFilled, Filled,
       Canceled, Rejected, Expired, Replaced, ReconciliationRequired}
    case Filled => {Filled}
    case Canceled => {Canceled}
    case Rejected => {Rejected}
    case Expired => {Expired}
    case Replaced => {Replaced}
  }

  predicate CanTransition(current: LocalOrderState, target: LocalOrderState) {
    target in Successors(current)
  }

  predicate Terminal(state: LocalOrderState) {
    state in {Filled, Canceled, Rejected, Expired, Replaced}
  }

  // ---------------------------------------------------------------- broker status text

  predicate IsBlank(c: char) { c == ' ' || '\t' <= c <= '\r' || '\U{1c}' <= c <= '\U{1f}' }

  function Strip(text: string): string {
    if |text| > 0 && IsBlank(text[0]) then Strip(text[1..])
    else if |text| > 0 && IsBlank(text[|text| - 1]) then Strip(text[..|text| - 1])
    else text
  }

  function LowerChar(c: char): char {
    if 'A' <= c <= 'Z' then (c as int + 32) as char else c
  }

  function Lower(text: string): string {
    seq(|text|, i requires 0 <= i < |text| => LowerChar(text[i]))
  }

  /** Broker vocabulary to local state; unknown words ask for reconciliation. */
  function StateForBrokerStatus(status: string): LocalOrderState { StateForWord(Lower(Strip(status))) }

  function StateForWord(word: string): LocalOrderState {
    if word in {"new", "submitted"} then Submitted
    else if word == "accepted" then Accepted
    else if word in {"pending", "pending_new", "pending_cancel", "pending_replace", "pending_review",
                     "accepted_for_bidding", "held", "calculated", "stopped", "suspended",
                     "done_for_day"} then Pending
    else if word in {"partial_fill", "partially_filled"} then PartiallyFilled
    else if word in {"fill", "filled"} then Filled
    else if word in {"canceled", "cancelled"} then Canceled
    else if word == "rejected" then Rejected
    else if word == "expired" then Expired
    else if word == "replaced" then Replaced
    else ReconciliationRequired
  }

  /** No broker word moves an order to a state only the local side may enter. */
  lemma BrokerStatusIsExternal(status: string)
    ensures StateForBrokerStatus(status) !in
              {Planned, LocallyReserved, SubmissionStarted, SubmissionUnknown, CancelRequested}
  {
    var word := Lower(Strip(status));
    assert word in {"new", "submitted"} ==> StateForBrokerStatus(status) == Submitted;
  }

  lemma FilledWord()
    ensures StateForBrokerStatus("filled") == Filled
  {
    var w := "filled";
    assert Strip(w) == w;
    assert Lower(w) == w;
  }

  lemma PartialFillWord()
    ensures StateForBrokerStatus("partial_fill") == PartiallyFilled
  {
    var w := "partial_fill";
    assert Strip(w) == w;
    assert Lower(w) == w;
  }

  // ---------------------------------------------------------------- paths

  /** Consecutive states of an order's history, each step allowed by the table. */
  ghost predicate IsPath(history: seq<LocalOrderState>) {
    forall i :: 0 <= i < |history| - 1 ==> CanTransition(history[i], history[i + 1])
  }

  /** States passed at most once, in this order; everything later shares one stage. */
  function Stage(state: LocalOrderState): nat {
    match state
    case Planned => 0
    case LocallyReserved => 1
    case SubmissionStarted => 2
    case SubmissionUnknown => 3
    case _ => 4
  }

  lemma {:induction false} StageNeverFalls(history: seq<LocalOrderState>, i: nat, j: nat)
    requires IsPath(history) && i < j < |history|
    ensures Stage(history[i]) <= Stage(history[j])
    ensures Stage(history[i]) < 4 ==> Stage(history[i]) < Stage(history[j])
    decreases j - i
  {
    assert CanTransition(history[j - 1], history[j]);
    if i < j - 1 {
      StageNeverFalls(history, i, j - 1);
    }
  }

  /** Planned, LocallyReserved, SubmissionStarted and SubmissionUnknown are entered at most once. */
  lemma OnceOnlyStates(history: seq<LocalOrderState>, i: nat, j: nat)
    requires IsPath(history) && i < |history| && j < |history|
    requires history[i] in {Planned, LocallyReserved, SubmissionStarted, SubmissionUnknown}
    requires history[j] == history[i]
    ensures i == j
  {
    if i < j {
      StageNeverFalls(history, i, j);
    } else if j < i {
      StageNeverFalls(history, j, i);
    }
  }

  /** A terminal state is never left. */
  lemma {:induction false} TerminalAbsorbs(history: seq<LocalOrderState>, i: nat, j: nat)
    requires IsPath(history) && i <= j < |history|
    requires Terminal(history[i])
    ensures history[j] == history[i]
    decreases j - i
  {
    if i < j {
      TerminalAbsorbs(history, i, j - 1);
      assert CanTransition(history[j - 1], history[j]);
    }
  }

  /** The states an order can be in after a partial fill while it stays clear of reconciliation. */
  function AfterPartialFill(): set<LocalOrderState> {
    {PartiallyFilled, Filled, CancelRequested, Canceled, Rejected, Expired, Replaced}
  }

  /** After a partial fill, an order is back at an open unfilled state only by way of reconciliation. */
  lemma {:induction false} PartialFillNeverForgotten(history: seq<LocalOrderState>, i: nat, j: nat)
    requires IsPath(history) && i <= j < |history|
    requires history[i] == PartiallyFilled
    ensures history[j] in AfterPartialFill() || exists k :: i < k <= j && history[k] == ReconciliationRequired
    decreases j - i
  {
    if i < j {
      PartialFillNeverForgotten(history, i, j - 1);
      assert CanTransition(history[j - 1], history[j]);
      if history[j - 1] in AfterPartialFill() && history[j] !in AfterPartialFill() {
        assert history[j] == ReconciliationRequired;
      }
    }
  }

  /** The other direction: each of those states is reached by some reconciliation-free path. */
  lemma AfterPartialFillIsReached(state: LocalOrderState) returns (history: seq<LocalOrderState>)
    requires state in AfterPartialFill()
    ensures |history| > 0 && history[0] == PartiallyFilled && history[|history| - 1] == state
    ensures IsPath(history) && ReconciliationRequired !in history
  {
    if state == PartiallyFilled {
      history := [PartiallyFilled];
    } else if state == Rejected {
      history := [PartiallyFilled, CancelRequested, Rejected];
    } else {
      history := [PartiallyFilled, state];
    }
  }
}
