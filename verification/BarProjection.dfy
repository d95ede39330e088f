/** The latest projection of the bar log: one row for the last revision of every bar. */
module BarProjection {
  import opened Prelude
  import opened BarLog

  // ---------------------------------------------------------------- the projection, without any order

  ghost predicate IsTerminal(rows: seq<Row>, r: Row) {
    && r in rows
    && forall s :: s in rows && s.event.facts.identity == r.event.facts.identity ==>
        s.event.facts.revision <= r.event.facts.revision
  }

  predicate Projects(l: LatestRow, e: Event) {
    && l.identity == e.facts.identity && l.event == e.id
    && l.revision == e.facts.revision && l.version == e.facts.revision
    && l.projected == e.facts.received && l.content == e.content
  }

  ghost predicate DistinctBars(latest: seq<LatestRow>) {
    forall i, j :: 0 <= i < j < |latest| ==> latest[i].identity != latest[j].identity
  }

  /** Latest rows and terminal revisions correspond one to one. */
  ghost predicate ProjectionOk(latest: seq<LatestRow>, rows: seq<Row>) {
    && DistinctBars(latest)
    && (forall l :: l in latest ==> OfTerminal(rows, l))
    && (forall r :: IsTerminal(rows, r) ==> Projected(latest, r))
  }

  ghost predicate OfTerminal(rows: seq<Row>, l: LatestRow) {
    exists r :: IsTerminal(rows, r) && Projects(l, r.event)
  }

  ghost predicate Projected(latest: seq<LatestRow>, r: Row) {
    exists l :: l in latest && Projects(l, r.event)
  }

  // ---------------------------------------------------------------- the dictionaries of the check

  /** Later updates replace earlier ones of the same bar. */
  function LastByBar(updates: seq<Update>): map<string, Update> {
    if updates == [] then map[]
    else LastByBar(updates[..|updates| - 1])[updates[|updates| - 1].identity := updates[|updates| - 1]]
  }

  function ByEvent(updates: seq<Update>): map<string, Update> {
    if updates == [] then map[]
    else ByEvent(updates[..|updates| - 1])[updates[|updates| - 1].event := updates[|updates| - 1]]
  }

  predicate Matches(l: LatestRow, terminal: map<string, Update>, byEvent: map<string, Update>) {
    && l.event in byEvent && l.identity in terminal && terminal[l.identity] == byEvent[l.event]
    && l.revision == byEvent[l.event].revision && l.version == byEvent[l.event].revision
    && l.projected == byEvent[l.event].received && l.content == byEvent[l.event].normalized
  }

  ghost predicate AllMatch(latest: seq<LatestRow>, updates: seq<Update>) {
    && DistinctBars(latest)
    && (forall l :: l in latest ==> Matches(l, LastByBar(updates), ByEvent(updates)))
    && (forall b :: b in LastByBar(updates) ==> Covered(latest, b))
  }

  ghost predicate Covered(latest: seq<LatestRow>, bar: string) {
    exists l :: l in latest && l.identity == bar
  }

  method ValidateLatest(latest: seq<LatestRow>, updates: seq<Update>) returns (r: Option<map<string, Update>>)
    ensures r.Some? <==> AllMatch(latest, updates)
    ensures r.Some? ==> r.value == ByEvent(updates)
  {
    var terminal := LastByBar(updates);
    var byEvent := ByEvent(updates);
    var observed: set<string> := {};
    var i := 0;
    while i < |latest|
      invariant 0 <= i <= |latest|
      invariant DistinctBars(latest[..i])
      invariant forall b :: b in observed <==> exists k :: 0 <= k < i && latest[k].identity == b
      invariant forall k :: 0 <= k < i ==> Matches(latest[k], terminal, byEvent)
    {
      if latest[i].identity in observed || !Matches(latest[i], terminal, byEvent) {
        assert latest[i] in latest;
        return None;
      }
      observed := observed + {latest[i].identity};
      i := i + 1;
    }
    assert latest[..i] == latest;
    assert forall l :: l in latest ==> l.identity in observed;
    assert forall b :: b in observed ==> b in terminal;
    if observed != terminal.Keys {
      var b :| b in terminal && b !in observed;
      return None;
    }
    forall b | b in terminal
      ensures Covered(latest, b)
    {
      assert b in observed;
      var k :| 0 <= k < i && latest[k].identity == b;
      assert latest[k] in latest;
    }
    r := Some(byEvent);
  }

  // ---------------------------------------------------------------- what the dictionaries hold

  lemma {:induction false} ByEventFinds(h: Hashing, rows: seq<Row>)
    requires DistinctIds(rows)
    ensures forall r :: r in rows ==> r.event.id in ByEvent(UpdatesFor(h, rows))
                                      && ByEvent(UpdatesFor(h, rows))[r.event.id] == UpdateFor(h, r.event)
    ensures forall id :: id in ByEvent(UpdatesFor(h, rows)) ==> ByEvent(UpdatesFor(h, rows))[id].event == id
  {
    if rows != [] {
      var n := |rows| - 1;
      assert rows == rows[..n] + [rows[n]];
      assert UpdatesFor(h, rows)[..n] == UpdatesFor(h, rows[..n]);
      ByEventFinds(h, rows[..n]);
      assert rows[n] in rows;
    }
  }

  ghost predicate LastOf(rows: seq<Row>, k: int) {
    && 0 <= k < |rows|
    && forall j :: k < j < |rows| ==> rows[j].event.facts.identity != rows[k].event.facts.identity
  }

  lemma {:induction false} LastByBarFinds(h: Hashing, rows: seq<Row>, bar: string)
    ensures bar in LastByBar(UpdatesFor(h, rows)) ==>
              exists k :: LastOf(rows, k) && rows[k].event.facts.identity == bar
                          && LastByBar(UpdatesFor(h, rows))[bar] == UpdateFor(h, rows[k].event)
    ensures forall r :: r in rows && r.event.facts.identity == bar ==> bar in LastByBar(UpdatesFor(h, rows))
  {
    if rows != [] {
      var n := |rows| - 1;
      assert rows == rows[..n] + [rows[n]];
      assert UpdatesFor(h, rows)[..n] == UpdatesFor(h, rows[..n]);
      LastByBarFinds(h, rows[..n], bar);
      if rows[n].event.facts.identity == bar {
        assert LastOf(rows, n);
      } else if bar in LastByBar(UpdatesFor(h, rows)) {
        var k :| LastOf(rows[..n], k) && rows[..n][k].event.facts.identity == bar
                 && LastByBar(UpdatesFor(h, rows[..n]))[bar] == UpdateFor(h, rows[..n][k].event);
        assert LastOf(rows, k);
      }
    }
  }

  lemma LastOfIsTerminal(h: Hashing, rows: seq<Row>, k: nat)
    requires Ordered(rows) && Chained(h, rows) && LastOf(rows, k)
    ensures IsTerminal(rows, rows[k])
  {
    forall s | s in rows && s.event.facts.identity == rows[k].event.facts.identity
      ensures s.event.facts.revision <= rows[k].event.facts.revision
    {
      var j :| 0 <= j < |rows| && rows[j] == s;
      if j < k {
        ChainedKeysDiffer(h, rows, j, k);
      }
    }
  }

  lemma TerminalIsUnique(h: Hashing, rows: seq<Row>, r: Row, s: Row)
    requires LogOk(h, rows) && IsTerminal(rows, r) && IsTerminal(rows, s)
    requires r.event.facts.identity == s.event.facts.identity
    ensures r == s
  {
    assert SameKey(r, s);
  }

  /** The two dictionaries hold the updates of the terminal revisions and of all revisions. */
  ghost predicate Indexes(h: Hashing, rows: seq<Row>, terminal: map<string, Update>, byEvent: map<string, Update>) {
    && (forall r :: r in rows ==> r.event.id in byEvent && byEvent[r.event.id] == UpdateFor(h, r.event))
    && (forall r :: IsTerminal(rows, r) ==>
          r.event.facts.identity in terminal && terminal[r.event.facts.identity] == UpdateFor(h, r.event))
    && (forall bar :: bar in terminal ==> HasTerminal(rows, bar))
    && (forall id :: id in byEvent ==> byEvent[id].event == id)
  }

  ghost predicate HasTerminal(rows: seq<Row>, bar: string) {
    exists r :: IsTerminal(rows, r) && r.event.facts.identity == bar
  }

  ghost predicate OfBar(rows: seq<Row>, bar: string) { exists r :: r in rows && r.event.facts.identity == bar }

  /** Every bar with a revision has a terminal one. */
  lemma {:induction false} TerminalExists(rows: seq<Row>, bar: string)
    requires OfBar(rows, bar)
    ensures HasTerminal(rows, bar)
  {
    var n := |rows| - 1;
    var last := rows[n];
    assert rows == rows[..n] + [last];
    if OfBar(rows[..n], bar) {
      TerminalExists(rows[..n], bar);
      var r :| IsTerminal(rows[..n], r) && r.event.facts.identity == bar;
      var top := if last.event.facts.identity == bar && last.event.facts.revision > r.event.facts.revision then last else r;
      assert IsTerminal(rows, top);
    } else {
      assert IsTerminal(rows, last);
    }
  }

  lemma LastByBarIsTerminal(h: Hashing, rows: seq<Row>, bar: string)
    requires Ordered(rows) && Chained(h, rows) && LogOk(h, rows)
    ensures bar in LastByBar(UpdatesFor(h, rows)) ==> HasTerminal(rows, bar)
    ensures forall r :: IsTerminal(rows, r) && r.event.facts.identity == bar ==>
                          bar in LastByBar(UpdatesFor(h, rows))
                          && LastByBar(UpdatesFor(h, rows))[bar] == UpdateFor(h, r.event)
  {
    LastByBarFinds(h, rows, bar);
    if bar in LastByBar(UpdatesFor(h, rows)) {
      var k :| LastOf(rows, k) && rows[k].event.facts.identity == bar
               && LastByBar(UpdatesFor(h, rows))[bar] == UpdateFor(h, rows[k].event);
      LastOfIsTerminal(h, rows, k);
      forall r | IsTerminal(rows, r) && r.event.facts.identity == bar
        ensures r == rows[k]
      {
        TerminalIsUnique(h, rows, r, rows[k]);
      }
    }
  }

  lemma ScanBuildsIndexes(h: Hashing, rows: seq<Row>)
    requires Ordered(rows) && DistinctIds(rows) && Chained(h, rows) && LogOk(h, rows)
    ensures Indexes(h, rows, LastByBar(UpdatesFor(h, rows)), ByEvent(UpdatesFor(h, rows)))
  {
    ByEventFinds(h, rows);
    forall bar
      ensures bar in LastByBar(UpdatesFor(h, rows)) ==> HasTerminal(rows, bar)
      ensures forall r :: IsTerminal(rows, r) && r.event.facts.identity == bar ==>
                            bar in LastByBar(UpdatesFor(h, rows))
                            && LastByBar(UpdatesFor(h, rows))[bar] == UpdateFor(h, r.event)
    {
      LastByBarIsTerminal(h, rows, bar);
    }
  }

  // ---------------------------------------------------------------- the check decides the projection

  lemma MatchIsProjection(h: Hashing, rows: seq<Row>, terminal: map<string, Update>, byEvent: map<string, Update>,
                          l: LatestRow)
    requires Indexes(h, rows, terminal, byEvent)
    ensures Matches(l, terminal, byEvent) <==> OfTerminal(rows, l)
  {
    if Matches(l, terminal, byEvent) {
      assert HasTerminal(rows, l.identity);
      var r :| IsTerminal(rows, r) && r.event.facts.identity == l.identity;
      assert Projects(l, r.event);
    }
    if OfTerminal(rows, l) {
      var r :| IsTerminal(rows, r) && Projects(l, r.event);
      assert byEvent[l.event] == UpdateFor(h, r.event);
    }
  }

  lemma CoverageIsProjection(h: Hashing, rows: seq<Row>, terminal: map<string, Update>, byEvent: map<string, Update>,
                             latest: seq<LatestRow>)
    requires Indexes(h, rows, terminal, byEvent) && LogOk(h, rows)
    requires forall l :: l in latest ==> OfTerminal(rows, l)
    ensures (forall b :: b in terminal ==> Covered(latest, b)) <==> (forall r :: IsTerminal(rows, r) ==> Projected(latest, r))
  {
    if forall b :: b in terminal ==> Covered(latest, b) {
      forall r | IsTerminal(rows, r)
        ensures Projected(latest, r)
      {
        assert Covered(latest, r.event.facts.identity);
        var l :| l in latest && l.identity == r.event.facts.identity;
        assert OfTerminal(rows, l);
        var s :| IsTerminal(rows, s) && Projects(l, s.event);
        TerminalIsUnique(h, rows, r, s);
      }
    }
    if forall r :: IsTerminal(rows, r) ==> Projected(latest, r) {
      forall b | b in terminal
        ensures Covered(latest, b)
      {
        assert HasTerminal(rows, b);
        var r :| IsTerminal(rows, r) && r.event.facts.identity == b;
        assert Projected(latest, r);
      }
    }
  }

  lemma CheckDecidesOrdered(h: Hashing, rows: seq<Row>, latest: seq<LatestRow>)
    requires Ordered(rows) && DistinctIds(rows) && Chained(h, rows) && LogOk(h, rows)
    ensures AllMatch(latest, UpdatesFor(h, rows)) <==> ProjectionOk(latest, rows)
  {
    var terminal, byEvent := LastByBar(UpdatesFor(h, rows)), ByEvent(UpdatesFor(h, rows));
    ScanBuildsIndexes(h, rows);
    forall l | l in latest
      ensures Matches(l, terminal, byEvent) <==> OfTerminal(rows, l)
    {
      MatchIsProjection(h, rows, terminal, byEvent, l);
    }
    if forall l :: l in latest ==> OfTerminal(rows, l) {
      CoverageIsProjection(h, rows, terminal, byEvent, latest);
    }
  }

  lemma ProjectionIgnoresOrder(latest: seq<LatestRow>, a: seq<Row>, b: seq<Row>)
    requires forall r :: r in a <==> r in b
    ensures ProjectionOk(latest, a) ==> ProjectionOk(latest, b)
  {
    if ProjectionOk(latest, a) {
      assert forall r :: IsTerminal(a, r) <==> IsTerminal(b, r);
      forall l | l in latest
        ensures OfTerminal(b, l)
      {
        assert OfTerminal(a, l);
      }
    }
  }

  /** For a well-formed log the check accepts exactly the one-to-one projections. */
  lemma CheckDecidesProjection(h: Hashing, rows: seq<Row>, latest: seq<LatestRow>)
    requires DistinctIds(rows) && LogOk(h, rows)
    ensures AllMatch(latest, UpdatesFor(h, InOrder(rows))) <==> ProjectionOk(latest, rows)
  {
    var sorted := InOrder(rows);
    ScanDecidesLog(h, rows);
    InOrderIsOrdered(rows);
    SameRows(sorted, rows);
    LogOkIgnoresOrder(h, rows, sorted);
    CheckDecidesOrdered(h, sorted, latest);
    ProjectionIgnoresOrder(latest, sorted, rows);
    ProjectionIgnoresOrder(latest, rows, sorted);
  }
}
