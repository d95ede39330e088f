/** A run in which the reconciler's repair and a handler's pending fill stand for the same shares. */
module RepairCases {
  import opened Prelude
  import opened LiveModels
  import opened OrderStates
  import opened OrderStore
  import opened OrderWrites
  import opened OrderProtocol
  import opened DurableStart
  import opened LedgerRepair
  import opened OrderProtocolCases
  import opened ConcurrentFills

  const TEN := Report("one", 10.0)
  const TEN_AT_BROKER := ORDER_REPORT.(filledQuantity := 10.0, averageFillPrice := Some(1.0))

  /** A handler stores ten shares and is about to record them when the reconciler finds the ledger ten shares short. */
  function RepairSteps(): seq<Step> {
    [SpawnUpdate(2, TEN), Act(2, CheckEvent), Act(2, ReadRow), Act(2, CommitWrite), SpawnReconcile(3, TEN_AT_BROKER, 0.0)]
    + [Act(3, ReadRow), Act(3, ReadLedger), Act(3, CommitFill), Act(2, CommitFill)]
  }

  function WholeRun(): seq<Step> { PartialSteps() + RepairSteps() }

  function TenShares(): FillRow { FillRow(TEN.FillKey(), "a", 10.0, 1.0) }

  /** The handler has committed ten shares. */
  lemma HandlerStores(s: Sys)
    requires s.store.orders.Keys == {"a"} && s.store.orders["a"].state == PartiallyFilled
    requires s.store.orders["a"].filled == 0.0 && s.store.fills == [] && s.threads.Keys == {0}
    requires forall e :: e in s.store.events ==> e.key != UpdateKey(ByEvent("one"))
    ensures var r := Apply(Apply(Apply(s, SpawnUpdate(2, TEN)), Act(2, CheckEvent)), Act(2, ReadRow));
            var c := Apply(r, Act(2, CommitWrite));
            && 2 in r.threads && r.threads[2].pc.Writing? && r.threads[2].pc.w == UpdateWrite(TEN)
            && c.threads == s.threads[2 := Thread(NoBatch, Filling(TenShares()))]
            && c.store.fills == [] && c.store.orders.Keys == {"a"}
            && c.store.orders["a"].state == PartiallyFilled && c.store.orders["a"].filled == 10.0
  {
    PartialFillWord();
    assert !HasEvent(s.store, UpdateKey(TEN.Fingerprint()));
    HandlerReads(s, 2, TEN);
    var r := Apply(Apply(Apply(s, SpawnUpdate(2, TEN)), Act(2, CheckEvent)), Act(2, ReadRow));
    assert Transition(r.store, UpdateWrite(TEN), PartiallyFilled).1 == Applied;
    assert r.threads[2 := Thread(NoBatch, Filling(TenShares()))] == s.threads[2 := Thread(NoBatch, Filling(TenShares()))];
  }

  /** The reconciler sees nothing to move, an empty ledger, and adds ten shares. */
  lemma ReconcilerAdds(s: Sys)
    requires s.store.orders.Keys == {"a"} && s.store.orders["a"].state == PartiallyFilled
    requires s.store.orders["a"].filled == 10.0 && s.store.fills == [] && 3 !in s.threads
    ensures var a := Apply(Apply(s, SpawnReconcile(3, TEN_AT_BROKER, 0.0)), Act(3, ReadRow));
            var b := Apply(Apply(a, Act(3, ReadLedger)), Act(3, CommitFill));
            && b.threads == s.threads && b.store.orders == s.store.orders
            && b.store.fills == [FillRow(RepairFill("A", 10.0), "a", 10.0, 1.0)]
  {
    NothingToMove(s.store.orders["a"]);
    ReconcilerReads(s, 3, TEN_AT_BROKER, 0.0);
    var a := s.(threads := s.threads[3 := Reconciler(Auditing(TEN_AT_BROKER, 0.0))]);
    ReconcilerRepairs(a, 3, TEN_AT_BROKER, 0.0);
    EmptyLedgerRepair(s.store);
    assert a.threads - {3} == s.threads;
  }

  lemma NothingToMove(row: OrderRow)
    requires row.state == PartiallyFilled && row.filled == 10.0
    ensures AfterRead(row, TEN_AT_BROKER, 0.0) == Auditing(TEN_AT_BROKER, 0.0)
  {
    PartialFillWord();
  }

  lemma TenMissing()
    ensures RepairFor([], TEN_AT_BROKER, 0.0) == Some(FillRow(RepairFill("A", 10.0), "a", 10.0, 1.0))
  {
    assert FillTotal([], "a") == 0.0 && FillNotional([], "a") == 0.0;
    assert Worth(10.0, 1.0) == 10.0;
    assert ImpliedPrice(10.0, 10.0) == 1.0;
  }

  lemma FirstFill(s: Store, fill: FillRow)
    requires s.fills == []
    ensures RecordFill(s, fill) == s.(fills := [fill])
  {
    assert [] + [fill] == [fill];
  }

  lemma EmptyLedgerRepair(s: Store)
    requires s.fills == []
    ensures LedgerAfter(s, TEN_AT_BROKER, 0.0) == s.(fills := [FillRow(RepairFill("A", 10.0), "a", 10.0, 1.0)])
  {
    TenMissing();
    FirstFill(s, FillRow(RepairFill("A", 10.0), "a", 10.0, 1.0));
  }

  lemma HandlerRecords(s: Sys)
    requires 2 in s.threads && s.threads[2] == Thread(NoBatch, Filling(TenShares()))
    requires s.store.fills == [FillRow(RepairFill("A", 10.0), "a", 10.0, 1.0)]
    ensures var s' := Apply(s, Act(2, CommitFill));
            s'.store.orders == s.store.orders && FillTotal(s'.store.fills, "a") == 20.0
  {
    TwoFills(s.store.fills[0], TenShares());
    assert s.store.fills == [s.store.fills[0]];
  }

  function UpToCommit(): seq<Step> {
    PartialSteps() + [SpawnUpdate(2, TEN), Act(2, CheckEvent), Act(2, ReadRow)] + [Act(2, CommitWrite)]
  }

  lemma CommittedTen()
    ensures var s := Run(UpToCommit()[..9]);
            2 in s.threads && s.threads[2].pc.Writing? && s.threads[2].pc.w == UpdateWrite(TEN)
    ensures var s := Run(UpToCommit());
            && s.threads.Keys == {0, 2} && s.threads[2] == Thread(NoBatch, Filling(TenShares()))
            && s.store.fills == [] && s.store.orders.Keys == {"a"}
            && s.store.orders["a"].state == PartiallyFilled && s.store.orders["a"].filled == 10.0
  {
    PartialOrder();
    HandlerStores(Run(PartialSteps()));
    ThreeMore(PartialSteps(), SpawnUpdate(2, TEN), Act(2, CheckEvent), Act(2, ReadRow));
    var read := PartialSteps() + [SpawnUpdate(2, TEN), Act(2, CheckEvent), Act(2, ReadRow)];
    RunOneMore(read, Act(2, CommitWrite));
    assert UpToCommit()[..9] == read;
  }

  lemma RecordedTwice()
    ensures var s := Run(WholeRun());
            && "a" in s.store.orders && StoredFill(s.store, "a") == 10.0 && FillTotal(s.store.fills, "a") == 20.0
  {
    CommittedTen();
    var c := UpToCommit();
    ReconcilerAdds(Run(c));
    RunOneMore(c, SpawnReconcile(3, TEN_AT_BROKER, 0.0));
    var spawned := c + [SpawnReconcile(3, TEN_AT_BROKER, 0.0)];
    ThreeMore(spawned, Act(3, ReadRow), Act(3, ReadLedger), Act(3, CommitFill));
    var repaired := spawned + [Act(3, ReadRow), Act(3, ReadLedger), Act(3, CommitFill)];
    RunOneMore(repaired, Act(2, CommitFill));
    HandlerRecords(Run(repaired));
    assert WholeRun() == repaired + [Act(2, CommitFill)];
  }

  /** Where this run commits writes. */
  lemma CommitsOfTheRun(k: nat)
    requires k < |WholeRun()| && WholeRun()[k].Act? && WholeRun()[k].action == CommitWrite
    ensures (k == 5 && WholeRun()[k].t == 1) || (k == 9 && WholeRun()[k].t == 2)
  {
  }

  lemma ReadsOfTheRun(m: nat, t: nat)
    requires m < |WholeRun()| && WholeRun()[m] == Act(t, ReadRow) && (t == 1 || t == 2)
    ensures m == if t == 1 then 4 else 8
  {
  }

  lemma RunIsSerialized()
    ensures Serialized(WholeRun(), "a")
  {
    forall m: nat, n: nat | HandledFrom(WholeRun(), m, n, "a")
      ensures m == n - 1
    {
      CommitsOfTheRun(n);
      ReadsOfTheRun(m, WholeRun()[n].t);
    }
  }

  lemma RunReports(k: nat)
    requires WriteAppliedAt(WholeRun(), k, "a")
    ensures (k == 5 && ReportAt(WholeRun(), k, "a") == Some(0.0)) || (k == 9 && ReportAt(WholeRun(), k, "a") == Some(10.0))
  {
    CommitsOfTheRun(k);
    if k == 5 {
      PartialOrder();
      assert WholeRun()[..5] == PartialSteps()[..5];
    } else {
      CommittedTen();
      assert WholeRun()[..9] == UpToCommit()[..9];
    }
  }

  /**
   Serialized deliveries and reports that never fall are not enough once the reconciler repairs: here it
   reads the ledger between a handler's commit and its fill, and ten stored shares are recorded twice.
   */
  lemma RepairOvercounts()
    ensures Serialized(WholeRun(), "a") && ReportsNeverFall(WholeRun(), "a")
    ensures FillTotal(Run(WholeRun()).store.fills, "a") == 20.0 && StoredFill(Run(WholeRun()).store, "a") == 10.0
  {
    RunIsSerialized();
    RecordedTwice();
    forall k: nat | WriteAppliedAt(WholeRun(), k, "a")
      ensures (k == 5 && ReportAt(WholeRun(), k, "a") == Some(0.0)) || (k == 9 && ReportAt(WholeRun(), k, "a") == Some(10.0))
    {
      RunReports(k);
    }
  }
}
