/** The unique columns of the order tables hold in every state of every run. */
module UniqueColumns {
  import opened Prelude
  import opened LiveModels
  import opened OrderStates
  import opened OrderStore
  import opened OrderWrites
  import opened OrderProtocol

  ghost predicate OneFillEach(s: Store) {
    forall i, j :: 0 <= i < j < |s.fills| ==> s.fills[i].key != s.fills[j].key
  }

  /** One row per broker id, one fill per fill key. */
  ghost predicate Unique(s: Store) { OneBrokerIdEach(s) && OneFillEach(s) }

  lemma RecordFillKeeps(s: Store, fill: FillRow)
    requires Unique(s)
    ensures Unique(RecordFill(s, fill))
  {
  }

  lemma {:induction false} HypotheticalKeepsUnique(s: Store, intents: seq<OrderIntent>)
    ensures RecordHypothetical(s, intents).0.orders == s.orders && RecordHypothetical(s, intents).0.fills == s.fills
  {
    if intents != [] {
      HypotheticalKeepsUnique(s, intents[..|intents| - 1]);
    }
  }

  lemma ActionKeepsUnique(s: Sys, t: nat, action: Action)
    requires t in s.threads && Unique(s.store)
    ensures Unique(Do(s, t, action).store)
  {
    var th := s.threads[t];
    if action == ReserveNext && th.pc == Idle && Current(th.batch).Some? {
      ReserveKeepsBrokerIds(s.store, Current(th.batch).value);
    } else if action == CommitWrite && th.pc.Writing? {
      TransitionKeepsBrokerIds(s.store, th.pc.w, th.pc.expected);
    } else if action == CommitFill && th.pc.Filling? {
      RecordFillKeeps(s.store, th.pc.fill);
    }
  }

  /** In every run, whatever broker and feed report, no two rows share a broker id and no two fills a fill key. */
  lemma {:induction false} RunKeepsUnique(steps: seq<Step>)
    ensures Unique(Run(steps).store)
  {
    if steps != [] {
      var front, step := steps[..|steps| - 1], steps[|steps| - 1];
      RunKeepsUnique(front);
      var s := Run(front);
      if step.Act? && step.t in s.threads {
        ActionKeepsUnique(s, step.t, step.action);
      } else if step.DryRun? {
        HypotheticalKeepsUnique(s.store, step.intents);
      }
    }
  }
}
