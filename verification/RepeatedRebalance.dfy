/** Rebalancing again and again through the order manager, each round a decision of its own. */
module RepeatedRebalance {
  import opened Prelude
  import opened LiveModels
  import opened OrderStore
  import opened PaperLedger
  import opened FakeBroker
  import opened OrderManager
  import opened OrderExecution
  import opened FreshBatch
  import opened ClientOrderId
  import opened TextOrder
  import opened Planner
  import opened PlannerGuarantees
  import opened Rebalance

  /** What distinguishes one round from another: its decision, its order names and its time. */
  datatype Naming = Naming(decisionId: string, nameFor: (Symbol, Side, nat) -> ClientId, createdAt: Instant)

  function Named(req: Request, n: Naming): Request {
    req.(decisionId := n.decisionId, nameFor := n.nameFor, createdAt := n.createdAt)
  }

  /** Names of one round: accepted by the order constructor, different for different sequence numbers below a cap. */
  ghost predicate Proper(n: Naming, cap: nat) {
    && n.decisionId != "" && (forall s, side, k: nat :: 0 < |n.nameFor(s, side, k)| <= 48)
    && (forall s, side, k: nat, s', side', k': nat :: k < cap && k' < cap && k != k' ==> n.nameFor(s, side, k) != n.nameFor(s', side', k'))
  }

  /** No decision id and no name of one round is used in another. */
  ghost predicate Apart(a: Naming, b: Naming, cap: nat) {
    && a.decisionId != b.decisionId
    && (forall s, side, k: nat, s', side', k': nat :: k < cap && k' < cap ==> a.nameFor(s, side, k) != b.nameFor(s', side', k'))
  }

  /** Nothing in the store or at the broker stems from this round's decision or names. */
  ghost predicate Untouched(w: World, n: Naming, cap: nat) {
    && (forall s, side, k: nat :: k < cap ==> Unseen(w, n.nameFor(s, side, k)))
    && (forall key :: key in w.store.intents.Values ==> key.decisionId != n.decisionId)
  }

  /** Every round up to the last one has names of its own. */
  ghost predicate Namings(names: nat -> Naming, cap: nat, last: nat) {
    && (forall k: nat :: k <= last ==> Proper(names(k), cap))
    && (forall j: nat, k: nat :: j <= last && k <= last && j != k ==> Apart(names(j), names(k), cap))
  }

  ghost predicate FreshFrom(w: World, names: nat -> Naming, cap: nat, k: nat, last: nat) {
    forall j: nat :: k <= j <= last ==> Untouched(w, names(j), cap)
  }

  /** The deterministic client ids of a decision. */
  ghost predicate Standard(n: Naming, date: Date, digest: string) {
    && date.Valid() && IsDigest(digest) && n.decisionId != ""
    && forall s, side, k: nat :: n.nameFor(s, side, k) == ClientIdFor(date, digest, s, side, k)
  }

  lemma StandardIsProper(n: Naming, date: Date, digest: string, cap: nat)
    requires Standard(n, date, digest) && cap <= 100_000_000_000
    ensures Proper(n, cap)
  {
    forall s, side, k: nat
      ensures 0 < |n.nameFor(s, side, k)| <= 48
    {
      IdsFit(date, digest, s, side, k);
    }
    forall s, side, k: nat, s', side', k': nat | k < cap && k' < cap && k != k'
      ensures n.nameFor(s, side, k) != n.nameFor(s', side', k')
    {
      IdsAreDistinct(date, digest, (s, side, k), (s', side', k'));
    }
  }

  lemma StandardsAreApart(a: Naming, date: Date, x: string, b: Naming, date': Date, y: string, cap: nat)
    requires Standard(a, date, x) && Standard(b, date', y) && cap <= 100_000_000_000
    requires x != y && a.decisionId != b.decisionId
    ensures Apart(a, b, cap)
  {
    forall s, side, k: nat, s', side', k': nat | k < cap && k' < cap
      ensures a.nameFor(s, side, k) != b.nameFor(s', side', k')
    {
      DigestsShow(date, x, s, side, k, date', y, s', side', k');
    }
  }

  /** Deterministic client ids under pairwise different decisions and digests give every round names of its own. */
  lemma StandardNamings(names: nat -> Naming, dates: nat -> Date, digests: nat -> string, cap: nat, last: nat)
    requires cap <= 100_000_000_000
    requires forall k: nat :: k <= last ==> Standard(names(k), dates(k), digests(k))
    requires forall j: nat, k: nat :: j <= last && k <= last && j != k ==>
               digests(j) != digests(k) && names(j).decisionId != names(k).decisionId
    ensures Namings(names, cap, last)
  {
    forall k: nat | k <= last
      ensures Proper(names(k), cap)
    {
      StandardIsProper(names(k), dates(k), digests(k), cap);
    }
    forall j: nat, k: nat | j <= last && k <= last && j != k
      ensures Apart(names(j), names(k), cap)
    {
      StandardsAreApart(names(j), dates(j), digests(j), names(k), dates(k), digests(k), cap);
    }
  }

  lemma DigestsShow(a: Date, x: string, s: Symbol, side: Side, n: nat, b: Date, y: string, s': Symbol, side': Side, n': nat)
    requires a.Valid() && b.Valid() && IsDigest(x) && IsDigest(y) && x != y && n < 100_000_000_000 && n' < 100_000_000_000
    ensures ClientIdFor(a, x, s, side, n) != ClientIdFor(b, y, s', side', n')
  {
    IdsFit(a, x, s, side, n);
    IdsFit(b, y, s', side', n');
    DecodeInvertsEncode(a, x, s, side, n);
    DecodeInvertsEncode(b, y, s', side', n');
  }

  // ---------------------------------------------------------------- names do not matter to the plan's effect

  lemma SteadyIgnoresNames(cfg: Config, req: Request, a: Naming, b: Naming, l: Ledger)
    requires Steady(cfg, Named(req, a), l) && Proper(b, cfg.maxOrders)
    ensures Steady(cfg, Named(req, b), l)
  {
  }

  lemma DistanceIgnoresNames(cfg: Config, req: Request, a: Naming, b: Naming, l: Ledger)
    ensures Distance(cfg, Named(req, a), l) == Distance(cfg, Named(req, b), l)
  {
    assert Targets(cfg, Named(req, a), l) == Targets(cfg, Named(req, b), l) by {
      forall s | s in req.universe
        ensures Target(cfg, At(Named(req, a), l), s) == Target(cfg, At(Named(req, b), l), s)
      {
      }
    }
  }

  // ---------------------------------------------------------------- one executed round

  /** Plan from the broker's snapshot under this round's names and execute. */
  ghost function Executed(cfg: Config, req: Request, w: World, subscribed: bool): World {
    if Steady(cfg, req, w.broker.ledger) then Execute(w, PlanAt(cfg, req, w.broker.ledger), None, subscribed).0 else w
  }

  /** Round `k`, one of the rounds up to the last, can go ahead. */
  ghost predicate Set(cfg: Config, req: Request, names: nat -> Naming, last: nat, k: nat, w: World) {
    && k <= last && Namings(names, cfg.maxOrders, last) && FreshFrom(w, names, cfg.maxOrders, k, last)
    && Steady(cfg, Named(req, names(k)), w.broker.ledger) && Calm(w.broker)
  }

  /** A plan under proper, untouched names is a batch nobody has seen. */
  lemma PlanIsUnseen(cfg: Config, req: Request, n: Naming, w: World)
    requires Proper(n, cfg.maxOrders) && Untouched(w, n, cfg.maxOrders) && Steady(cfg, Named(req, n), w.broker.ledger)
    ensures UnseenBatch(w, PlanAt(cfg, Named(req, n), w.broker.ledger))
  {
    var l, q := w.broker.ledger, Named(req, n);
    var intents := PlanAt(cfg, q, l);
    PlanNames(cfg, q, l);
    forall i | i in intents
      ensures Unseen(w, i.clientId) && KeyFor(i) !in w.store.intents.Values
    {
      assert i.clientId == n.nameFor(i.symbol, i.side, i.sequence);
    }
  }

  /** How the intents of a plan are named and numbered. */
  lemma PlanNames(cfg: Config, q: Request, l: Ledger)
    requires Steady(cfg, q, l)
    ensures var intents := PlanAt(cfg, q, l);
            && (forall i :: i in intents ==> i.decisionId == q.decisionId && i.clientId == q.nameFor(i.symbol, i.side, i.sequence))
            && |intents| <= cfg.maxOrders && (forall i :: 0 <= i < |intents| ==> intents[i].sequence == i)
            && (forall i, j :: 0 <= i < j < |intents| ==> intents[i].symbol != intents[j].symbol)
            && exists sells: nat :: SellsFirst(intents, sells)
  {
    SteadyPlanSucceeds(cfg, q, l);
    PlanKeepsItsPromises(cfg, At(q, l));
    var intents := PlanAt(cfg, q, l);
    var sells: nat :| SellsFirst(intents, sells);
    forall i | i in intents
      ensures i.decisionId == q.decisionId && i.clientId == q.nameFor(i.symbol, i.side, i.sequence)
    {
      assert IntentMeets(cfg, At(q, l), i);
    }
  }

  lemma NoNameOfOthers(cfg: Config, req: Request, n: Naming, other: Naming, l: Ledger, s: Symbol, side: Side, k: nat)
    requires Apart(n, other, cfg.maxOrders) && Steady(cfg, Named(req, n), l) && k < cfg.maxOrders
    ensures NotOf(PlanAt(cfg, Named(req, n), l), other.nameFor(s, side, k))
  {
    var intents := PlanAt(cfg, Named(req, n), l);
    PlanNames(cfg, Named(req, n), l);
    forall i | i in intents
      ensures i.clientId != other.nameFor(s, side, k)
    {
      assert i.clientId == n.nameFor(i.symbol, i.side, i.sequence) && i.sequence < cfg.maxOrders;
    }
  }

  /** Executing one round leaves any name of another unseen and takes no key of its decision. */
  lemma OtherNameStaysUnseen(cfg: Config, req: Request, n: Naming, other: Naming, w: World, subscribed: bool,
                             s: Symbol, side: Side, k: nat, key: IntentKey)
    requires Proper(n, cfg.maxOrders) && Untouched(w, n, cfg.maxOrders) && Apart(n, other, cfg.maxOrders)
    requires Steady(cfg, Named(req, n), w.broker.ledger) && Calm(w.broker)
    requires k < cfg.maxOrders && Unseen(w, other.nameFor(s, side, k))
    ensures var w' := Executed(cfg, Named(req, n), w, subscribed);
            && Unseen(w', other.nameFor(s, side, k))
            && (key in w'.store.intents.Values ==> key in w.store.intents.Values || key.decisionId == n.decisionId)
  {
    var q := Named(req, n);
    var intents := PlanAt(cfg, q, w.broker.ledger);
    PlanIsUnseen(cfg, req, n, w);
    PlanNames(cfg, q, w.broker.ledger);
    NoNameOfOthers(cfg, req, n, other, w.broker.ledger, s, side, k);
    var sells: nat :| SellsFirst(intents, sells);
    ExecutionLeavesAlone(w, intents, sells, subscribed, other.nameFor(s, side, k), key);
    if KeyOf(intents, key) {
      var i :| i in intents && KeyFor(i) == key;
    }
  }

  lemma OtherRoundsStayUntouched(cfg: Config, req: Request, n: Naming, other: Naming, w: World, subscribed: bool)
    requires Proper(n, cfg.maxOrders) && Untouched(w, n, cfg.maxOrders)
    requires Apart(n, other, cfg.maxOrders) && Untouched(w, other, cfg.maxOrders)
    requires Steady(cfg, Named(req, n), w.broker.ledger) && Calm(w.broker)
    ensures Untouched(Executed(cfg, Named(req, n), w, subscribed), other, cfg.maxOrders)
  {
    var w' := Executed(cfg, Named(req, n), w, subscribed);
    forall s, side, k: nat | k < cfg.maxOrders
      ensures Unseen(w', other.nameFor(s, side, k))
    {
      OtherNameStaysUnseen(cfg, req, n, other, w, subscribed, s, side, k, IntentKey("", "", Buy));
    }
    forall key | key in w'.store.intents.Values
      ensures key.decisionId != other.decisionId
    {
      OtherNameStaysUnseen(cfg, req, n, other, w, subscribed, "", Buy, 0, key);
    }
  }

  lemma RoundOnLedger(cfg: Config, req: Request, n: Naming, w: World, subscribed: bool)
    requires Proper(n, cfg.maxOrders) && Untouched(w, n, cfg.maxOrders) && Steady(cfg, Named(req, n), w.broker.ledger) && Calm(w.broker)
    ensures var w' := Executed(cfg, Named(req, n), w, subscribed);
            w'.broker.ledger == Round(cfg, Named(req, n), w.broker.ledger) && Calm(w'.broker)
    ensures var intents := PlanAt(cfg, Named(req, n), w.broker.ledger);
            AllFilled(Execute(w, intents, None, subscribed).1, |intents|)
  {
    var q := Named(req, n);
    var intents := PlanAt(cfg, q, w.broker.ledger);
    PlanIsUnseen(cfg, req, n, w);
    PlanNames(cfg, q, w.broker.ledger);
    var sells: nat :| SellsFirst(intents, sells);
    PlannedBatchFillsCompletely(w, intents, sells, None, subscribed);
  }

  lemma RoundLeavesFresh(cfg: Config, req: Request, names: nat -> Naming, last: nat, k: nat, w: World, subscribed: bool)
    requires Set(cfg, req, names, last, k, w)
    ensures FreshFrom(Executed(cfg, Named(req, names(k)), w, subscribed), names, cfg.maxOrders, k + 1, last)
  {
    forall j: nat | k + 1 <= j <= last
      ensures Untouched(Executed(cfg, Named(req, names(k)), w, subscribed), names(j), cfg.maxOrders)
    {
      OtherRoundsStayUntouched(cfg, req, names(k), names(j), w, subscribed);
    }
  }

  lemma RoundLeavesSteady(cfg: Config, req: Request, a: Naming, b: Naming, l: Ledger)
    requires Steady(cfg, Named(req, a), l) && Proper(b, cfg.maxOrders)
    ensures Steady(cfg, Named(req, b), Round(cfg, Named(req, a), l))
  {
    RoundApproachesTargets(cfg, Named(req, a), l);
    SteadyIgnoresNames(cfg, req, a, b, Round(cfg, Named(req, a), l));
  }

  /** One executed round performs the planned round on the ledger and leaves everything set for the next. */
  lemma RoundLeavesSet(cfg: Config, req: Request, names: nat -> Naming, last: nat, k: nat, w: World, subscribed: bool)
    requires Set(cfg, req, names, last, k, w) && k < last
    ensures var w' := Executed(cfg, Named(req, names(k)), w, subscribed);
            w'.broker.ledger == Round(cfg, Named(req, names(k)), w.broker.ledger) && Set(cfg, req, names, last, k + 1, w')
    ensures var intents := PlanAt(cfg, Named(req, names(k)), w.broker.ledger);
            AllFilled(Execute(w, intents, None, subscribed).1, |intents|)
  {
    RoundOnLedger(cfg, req, names(k), w, subscribed);
    RoundLeavesFresh(cfg, req, names, last, k, w, subscribed);
    RoundLeavesSteady(cfg, req, names(k), names(k + 1), w.broker.ledger);
  }

  // ---------------------------------------------------------------- many executed rounds

  /** The number of the next round, and the world it finds. */
  type Stage = (nat, World)

  ghost function NextStage(cfg: Config, req: Request, names: nat -> Naming, subscribed: bool): Stage -> Stage {
    (x: Stage) => After(cfg, req, names, subscribed, x)
  }

  ghost function After(cfg: Config, req: Request, names: nat -> Naming, subscribed: bool, x: Stage): Stage {
    var next: nat := x.0 + 1;
    (next, Executed(cfg, Named(req, names(x.0)), x.1, subscribed))
  }

  /** The next plan is empty. */
  ghost predicate Settled(cfg: Config, req: Request, names: nat -> Naming, x: Stage) {
    var q, l := Named(req, names(x.0)), x.1.broker.ledger;
    Steady(cfg, q, l) && PlanAt(cfg, q, l) == []
  }

  /** Everything is set for the next round and the ledger is less than so many units away from its targets. */
  ghost predicate SetWithin(cfg: Config, req: Request, names: nat -> Naming, last: nat, x: Stage, unit: real, bound: nat) {
    && Set(cfg, req, names, last, x.0, x.1) && x.0 + bound <= last && IsUnit(cfg, req, unit)
    && Distance(cfg, Named(req, names(x.0)), x.1.broker.ledger) < Worth(unit, (bound + 1) as real)
  }

  lemma RoundGetsNearer(cfg: Config, req: Request, a: Naming, b: Naming, l: Ledger, unit: real, bound: nat)
    requires Steady(cfg, Named(req, a), l) && IsUnit(cfg, req, unit) && PlanAt(cfg, Named(req, a), l) != []
    requires Distance(cfg, Named(req, a), l) < Worth(unit, (bound + 1) as real)
    ensures bound > 0 && Distance(cfg, Named(req, b), Round(cfg, Named(req, a), l)) < Worth(unit, bound as real)
  {
    var q := Named(req, a);
    RoundMakesProgress(cfg, q, l, unit);
    DistanceIgnoresNames(cfg, req, a, b, Round(cfg, q, l));
    OneUnitLess(unit, bound, Distance(cfg, q, l), Distance(cfg, q, Round(cfg, q, l)));
  }

  /** Unless the next plan is empty, executing it leaves everything set and the ledger a unit nearer. */
  lemma StageGetsNearer(cfg: Config, req: Request, names: nat -> Naming, last: nat, subscribed: bool, x: Stage, unit: real, bound: nat)
    requires SetWithin(cfg, req, names, last, x, unit, bound) && !Settled(cfg, req, names, x)
    ensures bound > 0 && SetWithin(cfg, req, names, last, After(cfg, req, names, subscribed, x), unit, bound - 1)
  {
    var k, w := x.0, x.1;
    assert Steady(cfg, Named(req, names(k)), w.broker.ledger);
    RoundGetsNearer(cfg, req, names(k), names(k + 1), w.broker.ledger, unit, bound);
    RoundLeavesSet(cfg, req, names, last, k, w, subscribed);
  }

  ghost function WithinOf(cfg: Config, req: Request, names: nat -> Naming, last: nat, unit: real): (Stage, nat) -> bool {
    (y: Stage, b: nat) => SetWithin(cfg, req, names, last, y, unit, b)
  }

  ghost function SettledOf(cfg: Config, req: Request, names: nat -> Naming): Stage -> bool {
    (y: Stage) => Settled(cfg, req, names, y)
  }

  lemma StagesDescend(cfg: Config, req: Request, names: nat -> Naming, last: nat, subscribed: bool, unit: real, y: Stage, b: nat)
    requires WithinOf(cfg, req, names, last, unit)(y, b) && !SettledOf(cfg, req, names)(y)
    ensures b > 0 && WithinOf(cfg, req, names, last, unit)(NextStage(cfg, req, names, subscribed)(y), b - 1)
  {
    StageGetsNearer(cfg, req, names, last, subscribed, y, unit, b);
  }

  lemma ExecutedRoundsConverge(cfg: Config, req: Request, names: nat -> Naming, last: nat, subscribed: bool, x: Stage, unit: real, bound: nat)
      returns (n: nat)
    requires WithinOf(cfg, req, names, last, unit)(x, bound)
    ensures n <= bound && SettledOf(cfg, req, names)(Iterate(NextStage(cfg, req, names, subscribed), x, n))
  {
    var step, within, done := NextStage(cfg, req, names, subscribed), WithinOf(cfg, req, names, last, unit), SettledOf(cfg, req, names);
    n := Descent(cfg, req, names, last, subscribed, unit, step, within, done, x, bound);
  }

  lemma Descent(cfg: Config, req: Request, names: nat -> Naming, last: nat, subscribed: bool, unit: real,
                step: Stage -> Stage, within: (Stage, nat) -> bool, done: Stage -> bool, x: Stage, bound: nat) returns (n: nat)
    requires step == NextStage(cfg, req, names, subscribed) && within == WithinOf(cfg, req, names, last, unit)
    requires done == SettledOf(cfg, req, names) && within(x, bound)
    ensures n <= bound && done(Iterate(step, x, n))
  {
    forall y: Stage, b: nat | within(y, b) && !done(y)
      ensures b > 0 && within(step(y), b - 1)
    {
      StagesDescend(cfg, req, names, last, subscribed, unit, y, b);
    }
    n := Descends(step, within, done, x, bound);
  }

  /**
   From every steady ledger of the calm broker there is a number of rounds such that planning from the
   snapshot and executing, each round under a decision and names of its own, reaches an empty plan
   within that many executions.
   */
  lemma ExecutedRebalancingTerminates(cfg: Config, req: Request, l: Ledger) returns (last: nat)
    requires Steady(cfg, req, l)
    ensures forall names: nat -> Naming, w: World, subscribed: bool ::
              w.broker.ledger == l && Set(cfg, req, names, last, 0, w) ==> SettlesWithin(cfg, req, names, w, subscribed, last)
  {
    var unit := SmallestTrade(cfg, req, SortedSeq(req.universe));
    UnitExists(cfg, req, l);
    TotalGapNonnegative(Targets(cfg, req, l), SortedSeq(req.universe), l);
    last := WholeUnits(unit, Distance(cfg, req, l));
    forall names: nat -> Naming, w: World, subscribed: bool | w.broker.ledger == l && Set(cfg, req, names, last, 0, w)
      ensures SettlesWithin(cfg, req, names, w, subscribed, last)
    {
      DistanceIgnoresNames(cfg, req, Naming(req.decisionId, req.nameFor, req.createdAt), names(0), l);
      assert Named(req, Naming(req.decisionId, req.nameFor, req.createdAt)) == req;
      assert SetWithin(cfg, req, names, last, (0, w), unit, last);
      var n := ExecutedRoundsConverge(cfg, req, names, last, subscribed, (0, w), unit, last);
      assert Settled(cfg, req, names, Iterate(NextStage(cfg, req, names, subscribed), (0, w), n));
    }
  }

  ghost predicate SettlesWithin(cfg: Config, req: Request, names: nat -> Naming, w: World, subscribed: bool, last: nat) {
    exists n: nat :: n <= last && Settled(cfg, req, names, Iterate(NextStage(cfg, req, names, subscribed), (0, w), n))
  }
}
