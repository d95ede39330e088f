/** The append-only bar revision log, its validation pass and the check of the latest projection. */
module BarLog {
  import opened Prelude
  import opened TextOrder
  import opened DecimalText

  /** One row of the identity table, without its key. Times are instants on one UTC axis. */
  datatype Identity = Identity(
    provider: string,
    feed: string,
    adjustment: string,
    symbol: string,
    timeframe: string,
    start: int,
    end: int,
    contentHash: string,
    created: int)

  /** The payload columns of a revision. */
  datatype Bar = Bar(
    schema: int,
    providerTime: Option<int>,
    open: Numeric,
    high: Numeric,
    low: Numeric,
    close: Numeric,
    volume: Numeric,
    trades: Option<int>,
    vwap: Option<Numeric>,
    flags: seq<string>,
    lineage: Option<string>)

  /** The columns of a revision that no migration rewrites. */
  datatype Facts = Facts(
    identity: string,
    revision: int,
    received: int,
    link: Option<string>,
    source: string,
    sourceEvent: Option<string>,
    sourcePayload: string,
    bar: Bar)

  datatype Event = Event(id: string, facts: Facts, created: int, content: string, normalized: Option<string>)

  /** A revision joined with the identity it belongs to. */
  datatype Row = Row(event: Event, identity: Identity)

  datatype LatestRow = LatestRow(
    identity: string,
    event: string,
    revision: int,
    content: string,
    version: int,
    projected: int)

  /** The three digests of the pass; `None` is a refusal to hash. */
  datatype Hashing = Hashing(
    payload: (Identity, Facts) -> Option<string>,
    eventId: (string, int, string) -> Option<string>,
    content: (string, string, Facts) -> Option<string>)

  datatype Update = Update(
    event: string,
    identity: string,
    revision: int,
    received: int,
    normalized: string,
    content: string)

  // ---------------------------------------------------------------- the log, without any order

  function NewContent(h: Hashing, e: Event): Option<string> { h.content(e.id, e.content, e.facts) }

  /** What a revision must satisfy whatever came before it. */
  predicate Sound(h: Hashing, row: Row) {
    var e := row.event;
    && h.payload(row.identity, e.facts) == Some(e.content)
    && h.eventId(e.facts.identity, e.facts.revision, e.content) == Some(e.id)
    && e.created == e.facts.received
    && NewContent(h, e).Some?
  }

  predicate Opens(row: Row) {
    && row.event.facts.revision == 1
    && row.event.facts.link == None
    && row.identity.created == row.event.facts.received
  }

  /** `row` is the revision right after `prior` of the same bar, and changes its payload. */
  predicate Succeeds(prior: Row, row: Row) {
    var p, e := prior.event, row.event;
    && p.facts.identity == e.facts.identity
    && e.facts.revision == p.facts.revision + 1
    && e.facts.link == Some(p.id)
    && p.facts.received <= e.facts.received
    && p.content != e.content
  }

  /** The log as a set of revisions: no sequence, no order. */
  ghost predicate LogOk(h: Hashing, rows: seq<Row>) {
    && (forall r :: r in rows ==> Sound(h, r) && r.event.facts.revision >= 1)
    && (forall r :: r in rows && r.event.facts.revision == 1 ==> Opens(r))
    && (forall r {:trigger HasPrior(rows, r)} :: r in rows && r.event.facts.revision > 1 ==> HasPrior(rows, r))
    && (forall r, s :: r in rows && s in rows && SameKey(r, s) ==> r == s)
  }

  ghost predicate HasPrior(rows: seq<Row>, r: Row) { exists p :: p in rows && Succeeds(p, r) }

  predicate SameKey(r: Row, s: Row) {
    r.event.facts.identity == s.event.facts.identity && r.event.facts.revision == s.event.facts.revision
  }

  // ---------------------------------------------------------------- the order of the scan

  predicate Before(r: Row, s: Row) {
    var a, b := r.event.facts, s.event.facts;
    Less(a.identity, b.identity) || (a.identity == b.identity && a.revision <= b.revision)
  }

  ghost predicate Ordered(rows: seq<Row>) {
    forall i, j :: 0 <= i < j < |rows| ==> Before(rows[i], rows[j])
  }

  ghost predicate DistinctIds(rows: seq<Row>) {
    forall i, j :: 0 <= i < j < |rows| ==> rows[i].event.id != rows[j].event.id
  }

  lemma BeforeIsTotal(r: Row, s: Row)
    ensures Before(r, s) || Before(s, r)
    ensures Before(r, s) && Before(s, r) ==> SameKey(r, s)
  {
    Trichotomy(r.event.facts.identity, s.event.facts.identity);
  }

  lemma BeforeIsTransitive(r: Row, s: Row, t: Row)
    requires Before(r, s) && Before(s, t)
    ensures Before(r, t)
  {
    if Less(r.event.facts.identity, s.event.facts.identity) && Less(s.event.facts.identity, t.event.facts.identity) {
      Transitive(r.event.facts.identity, s.event.facts.identity, t.event.facts.identity);
    }
  }

  function InsertRow(r: Row, rows: seq<Row>): seq<Row> {
    if rows == [] || Before(r, rows[0]) then [r] + rows else [rows[0]] + InsertRow(r, rows[1..])
  }

  /** The rows ordered by identity and revision. */
  function InOrder(rows: seq<Row>): seq<Row> {
    if rows == [] then [] else InsertRow(rows[0], InOrder(rows[1..]))
  }

  lemma {:induction false} InsertRowElements(r: Row, rows: seq<Row>)
    ensures multiset(InsertRow(r, rows)) == multiset([r]) + multiset(rows)
  {
    if rows != [] && !Before(r, rows[0]) {
      InsertRowElements(r, rows[1..]);
      assert rows == [rows[0]] + rows[1..];
    }
  }

  lemma {:induction false} InsertRowOrdered(r: Row, rows: seq<Row>)
    requires Ordered(rows)
    ensures Ordered(InsertRow(r, rows))
  {
    if rows != [] {
      BeforeIsTotal(r, rows[0]);
      if Before(r, rows[0]) {
        forall j | 0 <= j < |rows|
          ensures Before(r, rows[j])
        {
          if j > 0 {
            BeforeIsTransitive(r, rows[0], rows[j]);
          }
        }
      } else {
        var rest := InsertRow(r, rows[1..]);
        InsertRowOrdered(r, rows[1..]);
        InsertRowElements(r, rows[1..]);
        forall j | 0 <= j < |rest|
          ensures Before(rows[0], rest[j])
        {
          assert rest[j] in multiset(rest);
          assert rest[j] == r || rest[j] in rows[1..];
        }
      }
    }
  }

  lemma {:induction false} InOrderIsOrdered(rows: seq<Row>)
    ensures Ordered(InOrder(rows)) && multiset(InOrder(rows)) == multiset(rows)
  {
    if rows != [] {
      InOrderIsOrdered(rows[1..]);
      InsertRowOrdered(rows[0], InOrder(rows[1..]));
      InsertRowElements(rows[0], InOrder(rows[1..]));
      assert rows == [rows[0]] + rows[1..];
    }
  }

  // ---------------------------------------------------------------- the scan

  /** The row before `i`, when it belongs to the same bar. */
  function Prior(rows: seq<Row>, i: nat): Option<Row>
    requires i < |rows|
  {
    if i > 0 && rows[i - 1].event.facts.identity == rows[i].event.facts.identity then Some(rows[i - 1]) else None
  }

  predicate Follows(prior: Option<Row>, row: Row) {
    match prior
    case None => Opens(row)
    case Some(p) => Succeeds(p, row)
  }

  ghost predicate Chained(h: Hashing, rows: seq<Row>) {
    forall i :: 0 <= i < |rows| ==> Sound(h, rows[i]) && Follows(Prior(rows, i), rows[i])
  }

  function UpdateFor(h: Hashing, e: Event): Update {
    Update(e.id, e.facts.identity, e.facts.revision, e.facts.received, e.content, NewContent(h, e).GetOr(""))
  }

  function UpdatesFor(h: Hashing, rows: seq<Row>): (updates: seq<Update>)
    ensures |updates| == |rows|
    ensures forall i :: 0 <= i < |rows| ==> updates[i] == UpdateFor(h, rows[i].event)
  {
    seq(|rows|, i requires 0 <= i < |rows| => UpdateFor(h, rows[i].event))
  }

  /** The test of one row against what the scan carries, in the order of the source. */
  predicate Passes(h: Hashing, row: Row, expected: int, priorEvent: Option<string>, priorHash: Option<string>, priorReceived: Option<int>) {
    var e := row.event;
    var hash := h.payload(row.identity, e.facts);
    && hash.Some?
    && e.facts.revision == expected
    && Some(e.id) == h.eventId(e.facts.identity, e.facts.revision, hash.value)
    && e.content == hash.value
    && e.facts.link == priorEvent
    && e.created == e.facts.received
    && (expected == 1 ==> row.identity.created == e.facts.received)
    && hash != priorHash
    && (priorReceived.Some? ==> e.facts.received >= priorReceived.value)
    && h.content(e.id, hash.value, e.facts).Some?
  }

  lemma PassesFirst(h: Hashing, row: Row)
    ensures Passes(h, row, 1, None, None, None) <==> Sound(h, row) && Opens(row)
  {
  }

  lemma PassesNext(h: Hashing, prior: Row, row: Row)
    requires prior.event.facts.identity == row.event.facts.identity && prior.event.facts.revision >= 1
    ensures var p := prior.event;
            Passes(h, row, p.facts.revision + 1, Some(p.id), Some(p.content), Some(p.facts.received)) <==>
            Sound(h, row) && Succeeds(prior, row)
  {
  }

  /** One pass, carrying what the previous row said; accepts exactly the chained sequences. */
  method PrepareUpdates(h: Hashing, rows: seq<Row>) returns (r: Option<seq<Update>>)
    ensures r.Some? <==> Chained(h, rows)
    ensures r.Some? ==> r.value == UpdatesFor(h, rows)
  {
    var updates: seq<Update> := [];
    var priorIdentity: Option<string> := None;
    var priorEvent: Option<string> := None;
    var priorHash: Option<string> := None;
    var priorReceived: Option<int> := None;
    var expected := 0;
    var i := 0;
    while i < |rows|
      invariant 0 <= i <= |rows|
      invariant Chained(h, rows[..i])
      invariant updates == UpdatesFor(h, rows[..i])
      invariant i == 0 ==> priorIdentity == None
      invariant i > 0 ==> Carried(rows[i - 1].event, priorIdentity, priorEvent, priorHash, priorReceived, expected)
    {
      var e := rows[i].event;
      if Some(e.facts.identity) != priorIdentity {
        expected := 1;
        priorEvent, priorHash, priorReceived := None, None, None;
        PassesFirst(h, rows[i]);
      } else {
        expected := expected + 1;
        PassesNext(h, rows[i - 1], rows[i]);
      }
      if !Passes(h, rows[i], expected, priorEvent, priorHash, priorReceived) {
        RefusedAt(h, rows, i);
        return None;
      }
      ChainGrows(h, rows, i);
      updates := updates + [UpdateFor(h, e)];
      priorIdentity, priorEvent, priorHash, priorReceived :=
        Some(e.facts.identity), Some(e.id), Some(e.content), Some(e.facts.received);
      i := i + 1;
    }
    assert rows[..i] == rows;
    r := Some(updates);
  }

  ghost predicate Carried(e: Event, identity: Option<string>, event: Option<string>, hash: Option<string>,
                          received: Option<int>, expected: int) {
    && identity == Some(e.facts.identity) && event == Some(e.id) && hash == Some(e.content)
    && received == Some(e.facts.received) && expected == e.facts.revision && expected >= 1
  }

  lemma RefusedAt(h: Hashing, rows: seq<Row>, i: nat)
    requires i < |rows| && !(Sound(h, rows[i]) && Follows(Prior(rows, i), rows[i]))
    ensures !Chained(h, rows)
  {
  }

  lemma ChainGrows(h: Hashing, rows: seq<Row>, i: nat)
    requires i < |rows| && Chained(h, rows[..i]) && Sound(h, rows[i]) && Follows(Prior(rows, i), rows[i])
    ensures Chained(h, rows[..i + 1])
  {
    var longer := rows[..i + 1];
    forall k | 0 <= k < |longer|
      ensures Sound(h, longer[k]) && Follows(Prior(longer, k), longer[k])
    {
      assert Prior(longer, k) == Prior(rows, k) && longer[k] == rows[k];
      if k < i {
        assert rows[..i][k] == rows[k] && Prior(rows[..i], k) == Prior(rows, k);
      }
    }
  }

  // ---------------------------------------------------------------- the scan decides the log

  lemma {:induction false} ChainedRevisionsPositive(h: Hashing, rows: seq<Row>, i: nat)
    requires Chained(h, rows) && i < |rows|
    ensures rows[i].event.facts.revision >= 1
  {
    if Prior(rows, i).Some? {
      ChainedRevisionsPositive(h, rows, i - 1);
    }
  }

  /** Whatever stands between two revisions of one bar is a revision of that bar, between them. */
  lemma Squeeze(r: Row, q: Row, s: Row)
    requires Before(r, q) && Before(q, s) && r.event.facts.identity == s.event.facts.identity
    ensures q.event.facts.identity == r.event.facts.identity
    ensures r.event.facts.revision <= q.event.facts.revision <= s.event.facts.revision
  {
    Trichotomy(r.event.facts.identity, q.event.facts.identity);
    Trichotomy(r.event.facts.identity, r.event.facts.identity);
  }

  lemma ChainedKeysDiffer(h: Hashing, rows: seq<Row>, i: nat, j: nat)
    requires Chained(h, rows) && Ordered(rows) && i < j < |rows|
    requires rows[i].event.facts.identity == rows[j].event.facts.identity
    ensures rows[i].event.facts.revision < rows[j].event.facts.revision
  {
    if i + 1 < j {
      Squeeze(rows[i], rows[i + 1], rows[j]);
    }
    assert Prior(rows, i + 1) == Some(rows[i]);
  }

  lemma ChainedRowOk(h: Hashing, rows: seq<Row>, i: nat)
    requires Chained(h, rows) && i < |rows|
    ensures Sound(h, rows[i]) && rows[i].event.facts.revision >= 1
    ensures rows[i].event.facts.revision == 1 ==> Opens(rows[i])
    ensures rows[i].event.facts.revision > 1 ==> HasPrior(rows, rows[i])
  {
    ChainedRevisionsPositive(h, rows, i);
    if i > 0 {
      ChainedRevisionsPositive(h, rows, i - 1);
      assert rows[i - 1] in rows;
    }
  }

  lemma ChainedKeysUnique(h: Hashing, rows: seq<Row>, i: nat, j: nat)
    requires Ordered(rows) && Chained(h, rows) && i < |rows| && j < |rows| && SameKey(rows[i], rows[j])
    ensures i == j
  {
    if i < j {
      ChainedKeysDiffer(h, rows, i, j);
      assert false;
    } else if j < i {
      ChainedKeysDiffer(h, rows, j, i);
      assert false;
    }
  }

  lemma ChainedIsOk(h: Hashing, rows: seq<Row>)
    requires Ordered(rows) && Chained(h, rows)
    ensures LogOk(h, rows)
  {
    forall r | r in rows
      ensures Sound(h, r) && r.event.facts.revision >= 1
      ensures r.event.facts.revision == 1 ==> Opens(r)
      ensures r.event.facts.revision > 1 ==> HasPrior(rows, r)
    {
      var i :| 0 <= i < |rows| && rows[i] == r;
      ChainedRowOk(h, rows, i);
    }
    forall r, s | r in rows && s in rows && SameKey(r, s)
      ensures r == s
    {
      var i :| 0 <= i < |rows| && rows[i] == r;
      var j :| 0 <= j < |rows| && rows[j] == s;
      ChainedKeysUnique(h, rows, i, j);
    }
  }

  lemma SameKeySameIndex(h: Hashing, rows: seq<Row>, i: nat, j: nat)
    requires LogOk(h, rows) && DistinctIds(rows) && i < |rows| && j < |rows|
    ensures SameKey(rows[i], rows[j]) ==> i == j
  {
    assert rows[i] in rows && rows[j] in rows;
  }

  lemma EarlierStandsEarlier(rows: seq<Row>, j: nat, i: nat)
    requires Ordered(rows) && i < |rows| && j < |rows|
    requires rows[j].event.facts.identity == rows[i].event.facts.identity
    requires rows[j].event.facts.revision < rows[i].event.facts.revision
    ensures j < i
  {
    Trichotomy(rows[i].event.facts.identity, rows[i].event.facts.identity);
    if i <= j {
      assert false;
    }
  }

  /** In an ordered log the predecessor of a revision stands right before it. */
  lemma PredecessorIsAdjacent(h: Hashing, rows: seq<Row>, i: nat, j: nat)
    requires Ordered(rows) && LogOk(h, rows) && DistinctIds(rows) && i < |rows| && j < |rows|
    requires rows[j].event.facts.identity == rows[i].event.facts.identity
    requires rows[j].event.facts.revision == rows[i].event.facts.revision - 1
    ensures j == i - 1
  {
    EarlierStandsEarlier(rows, j, i);
    SameKeySameIndex(h, rows, i - 1, j);
    SameKeySameIndex(h, rows, i - 1, i);
    if j < i - 1 {
      Squeeze(rows[j], rows[i - 1], rows[i]);
    }
  }

  lemma OkIsChained(h: Hashing, rows: seq<Row>)
    requires Ordered(rows) && LogOk(h, rows) && DistinctIds(rows)
    ensures Chained(h, rows)
  {
    forall i | 0 <= i < |rows|
      ensures Sound(h, rows[i]) && Follows(Prior(rows, i), rows[i])
    {
      assert rows[i] in rows;
      if rows[i].event.facts.revision > 1 {
        assert HasPrior(rows, rows[i]);
        var p :| p in rows && Succeeds(p, rows[i]);
        var j :| 0 <= j < |rows| && rows[j] == p;
        PredecessorIsAdjacent(h, rows, i, j);
      } else if i > 0 {
        FirstRevisionStandsFirst(h, rows, i);
      }
    }
  }

  lemma FirstRevisionStandsFirst(h: Hashing, rows: seq<Row>, i: nat)
    requires Ordered(rows) && LogOk(h, rows) && DistinctIds(rows) && 0 < i < |rows|
    requires rows[i].event.facts.revision == 1
    ensures Prior(rows, i) == None
  {
    var q, r := rows[i - 1], rows[i];
    assert q in rows && r in rows && Before(q, r);
    Trichotomy(r.event.facts.identity, r.event.facts.identity);
    if q.event.facts.identity == r.event.facts.identity {
      assert false;
    }
  }

  /** The one-pass scan in (identity, revision) order accepts exactly the well-formed logs. */
  lemma ScanDecidesLog(h: Hashing, rows: seq<Row>)
    requires DistinctIds(rows)
    ensures Chained(h, InOrder(rows)) <==> LogOk(h, rows)
  {
    var sorted := InOrder(rows);
    InOrderIsOrdered(rows);
    SameRows(sorted, rows);
    LogOkIgnoresOrder(h, sorted, rows);
    LogOkIgnoresOrder(h, rows, sorted);
    if Chained(h, sorted) {
      ChainedIsOk(h, sorted);
    }
    if LogOk(h, sorted) {
      OkIsChained(h, sorted);
    }
  }

  lemma LogOkIgnoresOrder(h: Hashing, a: seq<Row>, b: seq<Row>)
    requires forall r :: r in a <==> r in b
    ensures LogOk(h, a) ==> LogOk(h, b)
  {
    if LogOk(h, a) {
      forall r | r in b && r.event.facts.revision > 1
        ensures HasPrior(b, r)
      {
        assert HasPrior(a, r);
        var p :| p in a && Succeeds(p, r);
        assert p in b;
      }
    }
  }

  /** Sorting keeps the rows and their distinctness. */
  lemma SameRows(sorted: seq<Row>, rows: seq<Row>)
    requires multiset(sorted) == multiset(rows)
    ensures |sorted| == |rows| && (forall r :: r in sorted <==> r in rows)
    ensures DistinctIds(rows) ==> DistinctIds(sorted)
  {
    assert |multiset(sorted)| == |multiset(rows)|;
    forall r
      ensures r in sorted <==> r in rows
    {
      assert r in multiset(sorted) <==> r in multiset(rows);
    }
    if DistinctIds(rows) {
      forall i, j | 0 <= i < j < |sorted|
        ensures sorted[i].event.id != sorted[j].event.id
      {
        if sorted[i].event.id == sorted[j].event.id {
          assert sorted[i] in rows && sorted[j] in rows;
          IdNamesRow(rows, sorted[i], sorted[j]);
          OccursOnce(rows, sorted[i]);
          OccursTwice(sorted, i, j);
        }
      }
    }
  }

  lemma IdNamesRow(rows: seq<Row>, r: Row, s: Row)
    requires DistinctIds(rows) && r in rows && s in rows && r.event.id == s.event.id
    ensures r == s
  {
    var i :| 0 <= i < |rows| && rows[i] == r;
    var j :| 0 <= j < |rows| && rows[j] == s;
    assert i == j;
  }

  lemma {:induction false} OccursOnce(rows: seq<Row>, r: Row)
    requires DistinctIds(rows)
    ensures multiset(rows)[r] <= 1
  {
    if rows != [] {
      var n := |rows| - 1;
      OccursOnce(rows[..n], r);
      assert rows == rows[..n] + [rows[n]];
      if rows[n] == r {
        assert r !in rows[..n];
      }
    }
  }

  /** The revisions recorded for one bar. */
  function Revisions(rows: seq<Row>, identity: string): set<int> {
    set r | r in rows && r.event.facts.identity == identity :: r.event.facts.revision
  }

  lemma {:induction false} RevisionsReachDown(h: Hashing, rows: seq<Row>, identity: string, n: int, k: int)
    requires LogOk(h, rows) && n in Revisions(rows, identity) && 1 <= k <= n
    ensures k in Revisions(rows, identity)
    decreases n
  {
    if k < n {
      var r :| r in rows && r.event.facts.identity == identity && r.event.facts.revision == n;
      assert HasPrior(rows, r);
      var p :| p in rows && Succeeds(p, r);
      assert p.event.facts.revision in Revisions(rows, identity);
      RevisionsReachDown(h, rows, identity, n - 1, k);
    }
  }

  /** The last revision of a bar, 0 when it has none. */
  function TopRevision(rows: seq<Row>, identity: string): (n: int)
    ensures n >= 0
  {
    if rows == [] then 0
    else
      var rest, last := TopRevision(rows[..|rows| - 1], identity), rows[|rows| - 1].event.facts;
      if last.identity == identity && last.revision > rest then last.revision else rest
  }

  lemma {:induction false} TopRevisionIsLast(rows: seq<Row>, identity: string)
    ensures TopRevision(rows, identity) > 0 ==> TopRevision(rows, identity) in Revisions(rows, identity)
    ensures forall k :: k in Revisions(rows, identity) ==> k <= TopRevision(rows, identity)
  {
    if rows != [] {
      var n := |rows| - 1;
      TopRevisionIsLast(rows[..n], identity);
      assert rows == rows[..n] + [rows[n]];
      assert rows[n].event.facts.identity == identity ==> rows[n].event.facts.revision in Revisions(rows, identity);
      assert forall k :: k in Revisions(rows, identity) ==>
        k in Revisions(rows[..n], identity) || (k == rows[n].event.facts.revision && rows[n].event.facts.identity == identity);
      assert forall k :: k in Revisions(rows[..n], identity) ==> k in Revisions(rows, identity);
    }
  }

  /** In an accepted log the revisions of every bar are exactly 1..n, each recorded once. */
  lemma RevisionsAreGapless(h: Hashing, rows: seq<Row>, identity: string)
    requires LogOk(h, rows)
    ensures forall k :: k in Revisions(rows, identity) <==> 1 <= k <= TopRevision(rows, identity)
    ensures forall r, s :: r in rows && s in rows && SameKey(r, s) ==> r == s
  {
    TopRevisionIsLast(rows, identity);
    var n := TopRevision(rows, identity);
    forall k | 1 <= k <= n
      ensures k in Revisions(rows, identity)
    {
      RevisionsReachDown(h, rows, identity, n, k);
    }
  }
}
