/** The hash backfill over the three bar tables. */
module BarBackfill {
  import opened Prelude
  import opened BarLog
  import opened BarProjection

  datatype Outcome = Done | Refused | LostFence

  // ---------------------------------------------------------------- tables as values

  ghost predicate DistinctEvents(events: seq<Event>) {
    forall i, j :: 0 <= i < j < |events| ==> events[i].id != events[j].id
  }

  predicate Referenced(identities: map<string, Identity>, events: seq<Event>) {
    forall e :: e in events ==> e.facts.identity in identities
  }

  function Joined(identities: map<string, Identity>, events: seq<Event>): (rows: seq<Row>)
    requires Referenced(identities, events)
    ensures |rows| == |events|
    ensures forall i :: 0 <= i < |rows| ==> rows[i] == Row(events[i], identities[events[i].facts.identity])
  {
    seq(|events|, i requires 0 <= i < |events| => Row(events[i], identities[events[i].facts.identity]))
  }

  predicate HasOrphan(identities: map<string, Identity>, events: seq<Event>) {
    exists bar :: bar in identities && forall e :: e in events ==> e.facts.identity != bar
  }

  /** What the backfill demands of the tables, said without any scan. */
  ghost predicate Acceptable(h: Hashing, identities: map<string, Identity>, events: seq<Event>, latest: seq<LatestRow>)
    requires Referenced(identities, events)
  {
    && !HasOrphan(identities, events)
    && LogOk(h, Joined(identities, events))
    && ProjectionOk(latest, Joined(identities, events))
  }

  /** A revision after the backfill: the old content hash becomes the payload hash. */
  function Rehashed(h: Hashing, e: Event): Event {
    e.(normalized := Some(e.content), content := NewContent(h, e).GetOr(""))
  }

  /** The revisions in `done` rewritten, the others as they were. */
  function RehashedOnly(h: Hashing, events: seq<Event>, done: set<string>): (r: seq<Event>)
    ensures |r| == |events|
    ensures forall i :: 0 <= i < |r| ==> r[i] == if events[i].id in done then Rehashed(h, events[i]) else events[i]
  {
    seq(|events|, i requires 0 <= i < |events| => if events[i].id in done then Rehashed(h, events[i]) else events[i])
  }

  // ---------------------------------------------------------------- the two fenced statements

  predicate EventHit(e: Event, u: Update) { e.id == u.event && e.content == u.normalized && e.normalized == None }

  function EventHits(events: seq<Event>, u: Update): set<int> {
    set i | 0 <= i < |events| && EventHit(events[i], u)
  }

  function EventsAfter(events: seq<Event>, u: Update): (r: seq<Event>)
    ensures |r| == |events|
    ensures forall i :: 0 <= i < |r| ==>
              r[i] == if EventHit(events[i], u) then events[i].(normalized := Some(u.normalized), content := u.content) else events[i]
  {
    seq(|events|, i requires 0 <= i < |events| =>
      if EventHit(events[i], u) then events[i].(normalized := Some(u.normalized), content := u.content) else events[i])
  }

  predicate LatestHit(l: LatestRow, u: Update) {
    l.identity == u.identity && l.event == u.event && l.revision == u.revision && l.content == u.normalized
  }

  function LatestHits(latest: seq<LatestRow>, u: Update): set<int> {
    set i | 0 <= i < |latest| && LatestHit(latest[i], u)
  }

  function LatestAfter(latest: seq<LatestRow>, u: Update): (r: seq<LatestRow>)
    ensures |r| == |latest|
    ensures forall i :: 0 <= i < |r| ==> r[i] == if LatestHit(latest[i], u) then latest[i].(content := u.content) else latest[i]
  {
    seq(|latest|, i requires 0 <= i < |latest| =>
      if LatestHit(latest[i], u) then latest[i].(content := u.content) else latest[i])
  }

  lemma EventFenceHolds(h: Hashing, events: seq<Event>, done: set<string>, k: nat)
    requires DistinctEvents(events) && k < |events| && events[k].id !in done
    requires forall e :: e in events ==> e.normalized == None
    requires NewContent(h, events[k]).Some?
    ensures EventHits(RehashedOnly(h, events, done), UpdateFor(h, events[k])) == {k}
    ensures EventsAfter(RehashedOnly(h, events, done), UpdateFor(h, events[k])) == RehashedOnly(h, events, done + {events[k].id})
  {
    var now, u := RehashedOnly(h, events, done), UpdateFor(h, events[k]);
    assert forall i :: 0 <= i < |events| ==> events[i] in events && (EventHit(now[i], u) <==> i == k);
  }

  lemma LatestFenceHolds(before: seq<LatestRow>, now: seq<LatestRow>, i: nat, u: Update)
    requires DistinctBars(before) && i < |before| == |now| && LatestHit(before[i], u)
    requires forall j :: 0 <= j < |now| ==> now[j].identity == before[j].identity
    requires now[i] == before[i]
    ensures LatestHits(now, u) == {i}
    ensures LatestAfter(now, u) == now[i := now[i].(content := u.content)]
  {
    assert forall j :: 0 <= j < |now| ==> (LatestHit(now[j], u) <==> j == i);
  }

  /** Acceptable tables have exactly one latest row for every bar of the identity table, and none for any other. */
  lemma EveryBarIsProjected(h: Hashing, identities: map<string, Identity>, events: seq<Event>, latest: seq<LatestRow>, bar: string)
    requires Referenced(identities, events) && Acceptable(h, identities, events, latest)
    ensures bar in identities <==> exists l :: l in latest && l.identity == bar
  {
    var rows := Joined(identities, events);
    if bar in identities {
      var e :| e in events && e.facts.identity == bar;
      var i :| 0 <= i < |events| && events[i] == e;
      assert rows[i] in rows;
      TerminalExists(rows, bar);
      var r :| IsTerminal(rows, r) && r.event.facts.identity == bar;
      assert Projected(latest, r);
    }
    if exists l :: l in latest && l.identity == bar {
      var l :| l in latest && l.identity == bar;
      assert OfTerminal(rows, l);
      var r :| IsTerminal(rows, r) && Projects(l, r.event);
      var i :| 0 <= i < |rows| && rows[i] == r;
      assert events[i] in events;
    }
  }

  /** The fences: an update finds an event only as it was read and not yet rewritten, and a latest row only as it was checked. */
  lemma ChangedRowsAreNotHit(events: seq<Event>, latest: seq<LatestRow>, u: Update)
    ensures forall i :: 0 <= i < |events| && (events[i].content != u.normalized || events[i].normalized.Some? || events[i].id != u.event) ==>
              i !in EventHits(events, u) && EventsAfter(events, u)[i] == events[i]
    ensures forall i :: 0 <= i < |latest| && !(latest[i].identity == u.identity && latest[i].event == u.event
                                               && latest[i].revision == u.revision && latest[i].content == u.normalized) ==>
              i !in LatestHits(latest, u) && LatestAfter(latest, u)[i] == latest[i]
  {
  }

  // ---------------------------------------------------------------- the tables in place

  class BarTables {
    var identities: map<string, Identity>
    var events: seq<Event>
    var latest: seq<LatestRow>

    /** The primary and foreign keys of the tables, with the payload hash column just added. */
    ghost predicate Valid()
      reads this
    {
      && DistinctEvents(events) && Referenced(identities, events)
      && forall e :: e in events ==> e.normalized == None
    }

    method UpdateEvent(u: Update) returns (count: nat)
      modifies this`events
      ensures count == |EventHits(old(events), u)|
      ensures events == EventsAfter(old(events), u)
    {
      count := |EventHits(events, u)|;
      events := EventsAfter(events, u);
    }

    method UpdateLatest(u: Update) returns (count: nat)
      modifies this`latest
      ensures count == |LatestHits(old(latest), u)|
      ensures latest == LatestAfter(old(latest), u)
    {
      count := |LatestHits(latest, u)|;
      latest := LatestAfter(latest, u);
    }

    method RewriteEvents(h: Hashing, rows: seq<Row>) returns (fenced: bool)
      requires Valid()
      requires DistinctIds(rows)
      requires forall r :: r in rows <==> r in Joined(identities, events)
      requires forall r :: r in rows ==> NewContent(h, r.event).Some?
      modifies this`events
      ensures !fenced
      ensures events == RehashedOnly(h, old(events), AllIds(old(events)))
    {
      ghost var before := events;
      ghost var done: set<string> := {};
      var updates := UpdatesFor(h, rows);
      assert events == RehashedOnly(h, before, done);
      var i := 0;
      while i < |updates|
        invariant 0 <= i <= |updates|
        invariant forall id :: id in done <==> exists k :: 0 <= k < i && rows[k].event.id == id
        invariant events == RehashedOnly(h, before, done)
      {
        ghost var k := RowStandsIn(identities, before, rows[i]);
        EventFenceHolds(h, before, done, k);
        var count := UpdateEvent(updates[i]);
        if count != 1 {
          assert false;
          return true;
        }
        done := done + {rows[i].event.id};
        i := i + 1;
      }
      AllRewritten(h, identities, before, rows, done);
      fenced := false;
    }

    method RewriteLatest(rows: seq<LatestRow>, byEvent: map<string, Update>) returns (fenced: bool)
      requires latest == rows && DistinctBars(rows)
      requires forall l :: l in rows ==> l.event in byEvent && LatestHit(l, byEvent[l.event])
      modifies this`latest
      ensures !fenced
      ensures |latest| == |rows|
      ensures forall i :: 0 <= i < |rows| ==> latest[i] == rows[i].(content := byEvent[rows[i].event].content)
    {
      var i := 0;
      while i < |rows|
        invariant 0 <= i <= |rows| == |latest|
        invariant forall j :: 0 <= j < i ==> latest[j] == rows[j].(content := byEvent[rows[j].event].content)
        invariant forall j :: i <= j < |rows| ==> latest[j] == rows[j]
      {
        assert rows[i] in rows;
        var u := byEvent[rows[i].event];
        LatestFenceHolds(rows, latest, i, u);
        var count := UpdateLatest(u);
        if count != 1 {
          assert false;
          return true;
        }
        i := i + 1;
      }
      fenced := false;
    }

    /**
     Accepts exactly the acceptable tables; a refusal writes nothing; no fence is ever lost; on
     acceptance every revision is rehashed and the latest rows follow their terminal revisions.
     */
    method Backfill(h: Hashing) returns (outcome: Outcome)
      requires Valid()
      modifies this`events, this`latest
      ensures outcome != LostFence
      ensures outcome == Done <==> Acceptable(h, identities, old(events), old(latest))
      ensures outcome == Refused ==> events == old(events) && latest == old(latest)
      ensures outcome == Done ==> events == RehashedOnly(h, old(events), AllIds(old(events)))
      ensures outcome == Done ==> Followed(h, Joined(identities, old(events)), old(latest), latest)
    {
      if HasOrphan(identities, events) {
        return Refused;
      }
      ghost var joined := Joined(identities, events);
      JoinedIsDistinct(identities, events);
      var rows := InOrder(Joined(identities, events));
      InOrderIsOrdered(joined);
      SameRows(rows, joined);
      ScanDecidesLog(h, joined);
      var updates := PrepareUpdates(h, rows);
      if updates.None? {
        return Refused;
      }
      CheckDecidesProjection(h, joined, latest);
      var latestRows := latest;
      var byEvent := ValidateLatest(latestRows, updates.value);
      if byEvent.None? {
        return Refused;
      }
      ByEventFinds(h, rows);
      LatestRowsAreHit(h, joined, latestRows, byEvent.value);
      var fenced := RewriteEvents(h, rows);
      if fenced {
        return LostFence;
      }
      fenced := RewriteLatest(latestRows, byEvent.value);
      if fenced {
        return LostFence;
      }
      LatestRowsFollow(h, joined, latestRows, latest, byEvent.value);
      outcome := Done;
    }
  }

  // ---------------------------------------------------------------- steps of the argument

  /** Every latest row keeps its columns and carries the new content hash of its terminal revision. */
  ghost predicate Followed(h: Hashing, rows: seq<Row>, before: seq<LatestRow>, after: seq<LatestRow>) {
    && |after| == |before|
    && forall i :: 0 <= i < |before| ==> FollowedRow(h, rows, before[i], after[i])
  }

  ghost predicate FollowedRow(h: Hashing, rows: seq<Row>, before: LatestRow, after: LatestRow) {
    exists r :: IsTerminal(rows, r) && Projects(before, r.event) && after == before.(content := Rehashed(h, r.event).content)
  }

  lemma JoinedIsDistinct(identities: map<string, Identity>, events: seq<Event>)
    requires Referenced(identities, events) && DistinctEvents(events)
    ensures DistinctIds(Joined(identities, events))
  {
  }

  lemma RowStandsIn(identities: map<string, Identity>, events: seq<Event>, r: Row) returns (k: nat)
    requires Referenced(identities, events) && r in Joined(identities, events)
    ensures k < |events| && events[k] == r.event
  {
    k :| 0 <= k < |events| && Joined(identities, events)[k] == r;
  }

  lemma AllRewritten(h: Hashing, identities: map<string, Identity>, events: seq<Event>, rows: seq<Row>, done: set<string>)
    requires Referenced(identities, events) && forall r :: r in rows <==> r in Joined(identities, events)
    requires forall id :: id in done <==> exists k :: 0 <= k < |rows| && rows[k].event.id == id
    ensures RehashedOnly(h, events, done) == RehashedOnly(h, events, AllIds(events))
  {
    forall i | 0 <= i < |events|
      ensures events[i].id in done
    {
      var r := Joined(identities, events)[i];
      assert r in rows;
      var k :| 0 <= k < |rows| && rows[k] == r;
    }
  }

  lemma LatestRowsAreHit(h: Hashing, rows: seq<Row>, latest: seq<LatestRow>, byEvent: map<string, Update>)
    requires ProjectionOk(latest, rows)
    requires forall r :: r in rows ==> r.event.id in byEvent && byEvent[r.event.id] == UpdateFor(h, r.event)
    ensures forall l :: l in latest ==> l.event in byEvent && LatestHit(l, byEvent[l.event])
  {
    forall l | l in latest
      ensures l.event in byEvent && LatestHit(l, byEvent[l.event])
    {
      assert OfTerminal(rows, l);
      var r :| IsTerminal(rows, r) && Projects(l, r.event);
    }
  }

  lemma LatestRowsFollow(h: Hashing, rows: seq<Row>, before: seq<LatestRow>, after: seq<LatestRow>, byEvent: map<string, Update>)
    requires ProjectionOk(before, rows) && |after| == |before|
    requires forall r :: r in rows ==> r.event.id in byEvent && byEvent[r.event.id] == UpdateFor(h, r.event)
    requires forall l :: l in before ==> l.event in byEvent
    requires forall i :: 0 <= i < |before| ==> after[i] == before[i].(content := byEvent[before[i].event].content)
    ensures Followed(h, rows, before, after)
  {
    forall i | 0 <= i < |before|
      ensures FollowedRow(h, rows, before[i], after[i])
    {
      assert before[i] in before && OfTerminal(rows, before[i]);
      var r :| IsTerminal(rows, r) && Projects(before[i], r.event);
    }
  }

  // ---------------------------------------------------------------- what an accepted backfill leaves behind

  function AllIds(events: seq<Event>): set<string> { set e | e in events :: e.id }

  /** The rewritten log has the same rows, each with its two hashes moved on. */
  lemma RewrittenRows(h: Hashing, identities: map<string, Identity>, events: seq<Event>)
    requires Referenced(identities, events)
    ensures var after := RehashedOnly(h, events, AllIds(events));
            && Referenced(identities, after)
            && |Joined(identities, after)| == |Joined(identities, events)|
            && forall i :: 0 <= i < |events| ==>
                 Joined(identities, after)[i] == Moved(h, Joined(identities, events)[i])
  {
    var after := RehashedOnly(h, events, AllIds(events));
    assert forall i :: 0 <= i < |events| ==> events[i] in events && after[i] == Rehashed(h, events[i]);
  }

  function Moved(h: Hashing, r: Row): Row { r.(event := Rehashed(h, r.event)) }

  ghost predicate MovedAll(h: Hashing, rows: seq<Row>, moved: seq<Row>) {
    |moved| == |rows| && forall i :: 0 <= i < |rows| ==> moved[i] == Moved(h, rows[i])
  }

  lemma TerminalMoves(h: Hashing, rows: seq<Row>, moved: seq<Row>, i: nat)
    requires MovedAll(h, rows, moved) && i < |rows|
    ensures IsTerminal(rows, rows[i]) <==> IsTerminal(moved, moved[i])
  {
    if IsTerminal(rows, rows[i]) {
      forall s | s in moved && s.event.facts.identity == moved[i].event.facts.identity
        ensures s.event.facts.revision <= moved[i].event.facts.revision
      {
        var j :| 0 <= j < |moved| && moved[j] == s;
        assert rows[j] in rows;
      }
    }
    if IsTerminal(moved, moved[i]) {
      forall s | s in rows && s.event.facts.identity == rows[i].event.facts.identity
        ensures s.event.facts.revision <= rows[i].event.facts.revision
      {
        var j :| 0 <= j < |rows| && rows[j] == s;
        assert moved[j] in moved;
      }
    }
  }

  lemma FollowingRowsProject(h: Hashing, rows: seq<Row>, moved: seq<Row>, l: LatestRow, after: LatestRow)
    requires MovedAll(h, rows, moved) && FollowedRow(h, rows, l, after)
    ensures OfTerminal(moved, after)
  {
    var r :| IsTerminal(rows, r) && Projects(l, r.event) && after == l.(content := Rehashed(h, r.event).content);
    var i :| 0 <= i < |rows| && rows[i] == r;
    TerminalMoves(h, rows, moved, i);
    assert Projects(after, moved[i].event);
  }

  lemma TerminalsAreProjected(h: Hashing, rows: seq<Row>, moved: seq<Row>, before: seq<LatestRow>, after: seq<LatestRow>, i: nat)
    requires MovedAll(h, rows, moved) && Followed(h, rows, before, after) && LogOk(h, rows)
    requires i < |rows| && IsTerminal(rows, rows[i]) && Projected(before, rows[i])
    ensures Projected(after, moved[i])
  {
    var l :| l in before && Projects(l, rows[i].event);
    var k :| 0 <= k < |before| && before[k] == l;
    assert FollowedRow(h, rows, before[k], after[k]);
    var r :| IsTerminal(rows, r) && Projects(l, r.event) && after[k] == l.(content := Rehashed(h, r.event).content);
    TerminalIsUnique(h, rows, r, rows[i]);
    assert after[k] in after && Projects(after[k], moved[i].event);
  }

  lemma MovedProjection(h: Hashing, rows: seq<Row>, moved: seq<Row>, before: seq<LatestRow>, after: seq<LatestRow>)
    requires MovedAll(h, rows, moved) && LogOk(h, rows) && ProjectionOk(before, rows) && Followed(h, rows, before, after)
    ensures forall l :: l in after ==> OfTerminal(moved, l)
    ensures forall r :: IsTerminal(moved, r) ==> Projected(after, r)
  {
    forall l | l in after
      ensures OfTerminal(moved, l)
    {
      var k :| 0 <= k < |after| && after[k] == l;
      FollowingRowsProject(h, rows, moved, before[k], l);
    }
    forall r | IsTerminal(moved, r)
      ensures Projected(after, r)
    {
      var i :| 0 <= i < |moved| && moved[i] == r;
      TerminalMoves(h, rows, moved, i);
      assert Projected(before, rows[i]);
      TerminalsAreProjected(h, rows, moved, before, after, i);
    }
  }

  lemma FollowedBarsDiffer(h: Hashing, rows: seq<Row>, before: seq<LatestRow>, after: seq<LatestRow>)
    requires DistinctBars(before) && Followed(h, rows, before, after)
    ensures DistinctBars(after)
  {
    assert forall k :: 0 <= k < |before| ==> FollowedRow(h, rows, before[k], after[k]) && after[k].identity == before[k].identity;
  }

  /** The rewritten latest rows are again one to one with the rewritten terminal revisions. */
  lemma ProjectionSurvives(h: Hashing, identities: map<string, Identity>, events: seq<Event>,
                           before: seq<LatestRow>, after: seq<LatestRow>)
    requires Referenced(identities, events) && Acceptable(h, identities, events, before)
    requires Followed(h, Joined(identities, events), before, after)
    ensures Referenced(identities, RehashedOnly(h, events, AllIds(events)))
    ensures ProjectionOk(after, Joined(identities, RehashedOnly(h, events, AllIds(events))))
  {
    RewrittenRows(h, identities, events);
    var rows := Joined(identities, events);
    var moved := Joined(identities, RehashedOnly(h, events, AllIds(events)));
    assert MovedAll(h, rows, moved);
    MovedProjection(h, rows, moved, before, after);
    FollowedBarsDiffer(h, rows, before, after);
  }

  /** The rewritten log would pass the scan again only if no content hash moved at all. */
  lemma SecondPassIsRefused(h: Hashing, identities: map<string, Identity>, events: seq<Event>)
    requires Referenced(identities, events) && LogOk(h, Joined(identities, events))
    ensures Referenced(identities, RehashedOnly(h, events, AllIds(events)))
    ensures LogOk(h, Joined(identities, RehashedOnly(h, events, AllIds(events)))) <==>
            forall e :: e in events ==> NewContent(h, e) == Some(e.content)
  {
    RewrittenRows(h, identities, events);
    var rows := Joined(identities, events);
    var moved := Joined(identities, RehashedOnly(h, events, AllIds(events)));
    assert MovedAll(h, rows, moved);
    if LogOk(h, moved) {
      forall e | e in events
        ensures NewContent(h, e) == Some(e.content)
      {
        var i :| 0 <= i < |events| && events[i] == e;
        assert moved[i] in moved && rows[i] in rows;
        assert Sound(h, moved[i]) && Sound(h, rows[i]);
      }
    }
    if forall e :: e in events ==> NewContent(h, e) == Some(e.content) {
      StillLog(h, rows, moved);
    }
  }

  ghost predicate Fixed(h: Hashing, r: Row) { NewContent(h, r.event) == Some(r.event.content) }

  lemma MovedFixed(h: Hashing, r: Row)
    requires Fixed(h, r)
    ensures Moved(h, r) == r.(event := r.event.(normalized := Some(r.event.content)))
    ensures Sound(h, r) ==> Sound(h, Moved(h, r))
    ensures Opens(r) ==> Opens(Moved(h, r))
  {
  }

  lemma MovedSucceeds(h: Hashing, p: Row, r: Row)
    requires Fixed(h, p) && Fixed(h, r) && Succeeds(p, r)
    ensures Succeeds(Moved(h, p), Moved(h, r))
  {
    MovedFixed(h, p);
    MovedFixed(h, r);
  }

  lemma StillRow(h: Hashing, rows: seq<Row>, moved: seq<Row>, i: nat)
    requires MovedAll(h, rows, moved) && LogOk(h, rows) && i < |rows|
    requires forall i :: 0 <= i < |rows| ==> Fixed(h, rows[i])
    ensures Sound(h, moved[i]) && moved[i].event.facts.revision >= 1
    ensures moved[i].event.facts.revision == 1 ==> Opens(moved[i])
    ensures moved[i].event.facts.revision > 1 ==> HasPrior(moved, moved[i])
  {
    assert rows[i] in rows;
    MovedFixed(h, rows[i]);
    if rows[i].event.facts.revision > 1 {
      assert HasPrior(rows, rows[i]);
      var q :| q in rows && Succeeds(q, rows[i]);
      var j :| 0 <= j < |rows| && rows[j] == q;
      MovedSucceeds(h, rows[j], rows[i]);
      assert moved[j] in moved;
    }
  }

  lemma MovedKeys(h: Hashing, rows: seq<Row>, moved: seq<Row>)
    requires MovedAll(h, rows, moved) && LogOk(h, rows)
    ensures forall r, s :: r in moved && s in moved && SameKey(r, s) ==> r == s
  {
    forall r, s | r in moved && s in moved && SameKey(r, s)
      ensures r == s
    {
      var i :| 0 <= i < |moved| && moved[i] == r;
      var j :| 0 <= j < |moved| && moved[j] == s;
      assert rows[i] in rows && rows[j] in rows && SameKey(rows[i], rows[j]);
    }
  }

  lemma StillLog(h: Hashing, rows: seq<Row>, moved: seq<Row>)
    requires MovedAll(h, rows, moved) && LogOk(h, rows)
    requires forall i :: 0 <= i < |rows| ==> Fixed(h, rows[i])
    ensures LogOk(h, moved)
  {
    forall r | r in moved
      ensures Sound(h, r) && r.event.facts.revision >= 1
      ensures r.event.facts.revision == 1 ==> Opens(r)
      ensures r.event.facts.revision > 1 ==> HasPrior(moved, r)
    {
      var i :| 0 <= i < |moved| && moved[i] == r;
      StillRow(h, rows, moved, i);
    }
    MovedKeys(h, rows, moved);
  }
}
