/** The digests of the backfill built from canonical values, and what equal digests mean. */
module BarHashes {
  import opened Prelude
  import D = DecimalText
  import opened HashValues
  import N = HashNormalizer
  import opened BarLog

  /**
   What lies outside the model: the digest of a normalized value, the text of an instant (`None` when
   either fails) and the column checks of a joined row.
   */
  datatype Outside = Outside(
    digest: Norm -> Option<string>,
    time: int -> Option<string>,
    canonical: (Identity, Facts) -> bool)

  /** Different normalized values get different digests, different instants different texts. */
  ghost predicate CollisionFree(o: Outside) {
    && (forall a, b :: o.digest(a).Some? && o.digest(a) == o.digest(b) ==> a == b)
    && (forall s, t :: o.time(s).Some? && o.time(s) == o.time(t) ==> s == t)
  }

  /** The hash of a canonical value: refused when it exceeds a budget. */
  function Hash(o: Outside, v: Value): Option<string> {
    if FitsOn(CostOf(v), 0, 0, 0) then o.digest(Rendered(v)) else None
  }

  function TimeOrNull(o: Outside, t: Option<int>): Value { if t.Some? then Time(o.time(t.value)) else Null }

  function IntOrNull(n: Option<int>): Value { if n.Some? then Int(n.value) else Null }

  function DecOrNull(n: Option<D.Numeric>): Value { if n.Some? then Dec(n.value) else Null }

  function TextOrNull(t: Option<string>): Value { if t.Some? then Str(t.value) else Null }

  function Texts(ts: seq<string>): (r: seq<Value>)
    ensures |r| == |ts| && forall i :: 0 <= i < |ts| ==> r[i] == Str(ts[i])
  {
    seq(|ts|, i requires 0 <= i < |ts| => Str(ts[i]))
  }

  function IdentityInput(o: Outside, i: Identity): Value {
    Tuple([Str(i.provider), Str(i.feed), Str(i.adjustment), Str(i.symbol), Str(i.timeframe), Time(o.time(i.start))])
  }

  function BarItems(o: Outside, identityHash: string, end: int, bar: Bar): (items: seq<Value>)
    ensures |items| == 13
  {
    [Str("canonical_bar_v1"), Int(bar.schema), Str(identityHash), Time(o.time(end)), TimeOrNull(o, bar.providerTime),
     Dec(bar.open), Dec(bar.high), Dec(bar.low), Dec(bar.close), Dec(bar.volume),
     IntOrNull(bar.trades), DecOrNull(bar.vwap), Tuple(Texts(bar.flags))]
  }

  function LineageItems(bar: Bar): seq<Value> {
    if bar.lineage.Some? then [Str("lineage"), Str(bar.lineage.value)] else []
  }

  function PayloadInput(o: Outside, identityHash: string, end: int, bar: Bar): Value {
    Tuple(BarItems(o, identityHash, end, bar) + LineageItems(bar))
  }

  function PayloadHash(o: Outside, i: Identity, f: Facts): Option<string> {
    if !o.canonical(i, f) then None
    else
      var identityHash := Hash(o, IdentityInput(o, i));
      if identityHash.None? || f.identity != "bar_identity_" + identityHash.value || i.contentHash != identityHash.value then None
      else Hash(o, PayloadInput(o, identityHash.value, i.end, f.bar))
  }

  function EventIdFor(o: Outside, identity: string, revision: int, payload: string): Option<string> {
    var hash := Hash(o, Tuple([Str(identity), Int(revision), Str(payload)]));
    if hash.None? then None else Some("bar_event_" + hash.value)
  }

  function ContentEntries(o: Outside, id: string, payload: string, f: Facts): seq<Entry> {
    [Entry("bar_event_id", Str(id)),
     Entry("bar_identity_id", Str(f.identity)),
     Entry("correction_of_event_id", TextOrNull(f.link)),
     Entry("created_at", Time(o.time(f.received))),
     Entry("normalized_payload_hash", Str(payload)),
     Entry("received_at", Time(o.time(f.received))),
     Entry("revision", Int(f.revision)),
     Entry("schema", Str("bar_event_v1")),
     Entry("source", Str(f.source)),
     Entry("source_event_id", TextOrNull(f.sourceEvent)),
     Entry("source_payload_hash", Str(f.sourcePayload))]
  }

  function ContentHash(o: Outside, id: string, payload: string, f: Facts): Option<string> {
    Hash(o, Dict(ContentEntries(o, id, payload, f), true))
  }

  function BarHashing(o: Outside): Hashing {
    Hashing((i, f) => PayloadHash(o, i, f), (b, n, p) => EventIdFor(o, b, n, p), (e, p, f) => ContentHash(o, e, p, f))
  }

  // ---------------------------------------------------------------- values with equal renderings

  lemma {:induction false} RenderedAt(items: seq<Value>)
    ensures |RenderedAll(items)| == |items|
    ensures forall i :: 0 <= i < |items| ==> RenderedAll(items)[i] == Rendered(items[i])
  {
    if items != [] {
      RenderedAt(items[..|items| - 1]);
    }
  }

  lemma TuplesRenderEqually(a: seq<Value>, b: seq<Value>)
    ensures Rendered(Tuple(a)) == Rendered(Tuple(b)) <==>
            |a| == |b| && forall i :: 0 <= i < |a| ==> Rendered(a[i]) == Rendered(b[i])
  {
    RenderedAt(a);
    RenderedAt(b);
  }

  ghost predicate SameNumber(a: D.Numeric, b: D.Numeric) {
    a.Finite? && b.Finite? && D.Value(a.decimal) == D.Value(b.decimal)
  }

  lemma DecimalsRenderEqually(a: D.Numeric, b: D.Numeric)
    requires WellFormed(Dec(a)) && WellFormed(Dec(b)) && CostOf(Dec(a)).ok && CostOf(Dec(b)).ok
    ensures Rendered(Dec(a)) == Rendered(Dec(b)) <==> SameNumber(a, b)
  {
    D.TextEqualIffNumberEqual(a.decimal, b.decimal);
  }

  lemma FlagsRenderEqually(a: seq<string>, b: seq<string>)
    ensures Rendered(Tuple(Texts(a))) == Rendered(Tuple(Texts(b))) <==> a == b
  {
    TuplesRenderEqually(Texts(a), Texts(b));
    if Rendered(Tuple(Texts(a))) == Rendered(Tuple(Texts(b))) {
      assert forall i :: 0 <= i < |a| ==> Rendered(Texts(a)[i]) == NText(a[i]) && Rendered(Texts(b)[i]) == NText(b[i]);
    }
  }

  lemma TimesRenderEqually(o: Outside, s: Option<int>, t: Option<int>)
    requires CollisionFree(o) && CostOf(TimeOrNull(o, s)).ok && CostOf(TimeOrNull(o, t)).ok
    ensures Rendered(TimeOrNull(o, s)) == Rendered(TimeOrNull(o, t)) <==> s == t
  {
    if s.Some? && t.Some? && Rendered(TimeOrNull(o, s)) == Rendered(TimeOrNull(o, t)) {
      assert o.time(s.value) == o.time(t.value) && o.time(s.value).Some?;
      assert s.value == t.value;
    }
  }

  lemma PartIsOk(items: seq<Value>, i: nat)
    requires CostOf(Tuple(items)).ok && i < |items|
    ensures CostOf(items[i]).ok
  {
    var costs := CostsOf(items);
    N.SumAtLeast(costs, i + 1);
    N.NextFits(costs, i, 0, 0, 0);
  }

  // ---------------------------------------------------------------- equal payload hashes

  ghost predicate SamePrice(a: Option<D.Numeric>, b: Option<D.Numeric>) {
    if a.Some? && b.Some? then SameNumber(a.value, b.value) else a == b
  }

  /** The same payload, whatever exponents and trailing zeros its decimals carry. */
  ghost predicate SameBar(a: Bar, b: Bar) {
    && a.schema == b.schema && a.providerTime == b.providerTime
    && SameNumber(a.open, b.open) && SameNumber(a.high, b.high) && SameNumber(a.low, b.low)
    && SameNumber(a.close, b.close) && SameNumber(a.volume, b.volume)
    && a.trades == b.trades && SamePrice(a.vwap, b.vwap) && a.flags == b.flags && a.lineage == b.lineage
  }

  ghost predicate Legal(n: D.Numeric) { WellFormed(Dec(n)) }

  ghost predicate LegalBar(bar: Bar) {
    && Legal(bar.open) && Legal(bar.high) && Legal(bar.low) && Legal(bar.close) && Legal(bar.volume)
    && (bar.vwap.Some? ==> Legal(bar.vwap.value))
  }

  ghost predicate AllOk(items: seq<Value>) { forall i :: 0 <= i < |items| ==> CostOf(items[i]).ok }

  ghost predicate SameItems(a: seq<Value>, b: seq<Value>) {
    |a| == |b| && forall i :: 0 <= i < |a| ==> Rendered(a[i]) == Rendered(b[i])
  }

  lemma PriceItems(a: Option<D.Numeric>, b: Option<D.Numeric>)
    requires (a.Some? ==> Legal(a.value)) && (b.Some? ==> Legal(b.value))
    requires CostOf(DecOrNull(a)).ok && CostOf(DecOrNull(b)).ok
    ensures Rendered(DecOrNull(a)) == Rendered(DecOrNull(b)) <==> SamePrice(a, b)
  {
    if a.Some? && b.Some? {
      DecimalsRenderEqually(a.value, b.value);
    }
  }

  lemma LineagesRenderEqually(a: Bar, b: Bar)
    ensures SameItems(LineageItems(a), LineageItems(b)) <==> a.lineage == b.lineage
  {
    if SameItems(LineageItems(a), LineageItems(b)) && a.lineage.Some? {
      assert Rendered(LineageItems(a)[1]) == Rendered(LineageItems(b)[1]);
    }
  }

  ghost predicate PriceColumns(x: seq<Value>, a: Bar) {
    && |x| == 13
    && x[5] == Dec(a.open) && x[6] == Dec(a.high) && x[7] == Dec(a.low) && x[8] == Dec(a.close) && x[9] == Dec(a.volume)
  }

  ghost predicate LabelColumns(o: Outside, x: seq<Value>, a: Bar) {
    && |x| == 13
    && x[1] == Int(a.schema) && x[4] == TimeOrNull(o, a.providerTime) && x[10] == IntOrNull(a.trades)
    && x[11] == DecOrNull(a.vwap) && x[12] == Tuple(Texts(a.flags))
  }

  lemma FivePrices(x: seq<Value>, y: seq<Value>, a: Bar, b: Bar)
    requires AllOk(x) && AllOk(y) && LegalBar(a) && LegalBar(b) && PriceColumns(x, a) && PriceColumns(y, b)
    ensures Rendered(x[5]) == Rendered(y[5]) <==> SameNumber(a.open, b.open)
    ensures Rendered(x[6]) == Rendered(y[6]) <==> SameNumber(a.high, b.high)
    ensures Rendered(x[7]) == Rendered(y[7]) <==> SameNumber(a.low, b.low)
    ensures Rendered(x[8]) == Rendered(y[8]) <==> SameNumber(a.close, b.close)
    ensures Rendered(x[9]) == Rendered(y[9]) <==> SameNumber(a.volume, b.volume)
  {
    DecimalsRenderEqually(a.open, b.open);
    DecimalsRenderEqually(a.high, b.high);
    DecimalsRenderEqually(a.low, b.low);
    DecimalsRenderEqually(a.close, b.close);
    DecimalsRenderEqually(a.volume, b.volume);
  }

  lemma FiveLabels(o: Outside, x: seq<Value>, y: seq<Value>, a: Bar, b: Bar)
    requires AllOk(x) && AllOk(y) && LegalBar(a) && LegalBar(b) && CollisionFree(o)
    requires LabelColumns(o, x, a) && LabelColumns(o, y, b)
    ensures Rendered(x[1]) == Rendered(y[1]) <==> a.schema == b.schema
    ensures Rendered(x[4]) == Rendered(y[4]) <==> a.providerTime == b.providerTime
    ensures Rendered(x[10]) == Rendered(y[10]) <==> a.trades == b.trades
    ensures Rendered(x[11]) == Rendered(y[11]) <==> SamePrice(a.vwap, b.vwap)
    ensures Rendered(x[12]) == Rendered(y[12]) <==> a.flags == b.flags
  {
    TimesRenderEqually(o, a.providerTime, b.providerTime);
    PriceItems(a.vwap, b.vwap);
    FlagsRenderEqually(a.flags, b.flags);
  }

  /** Thirteen positions, each decided by its own column. */
  lemma ColumnsRenderEqually(o: Outside, x: seq<Value>, y: seq<Value>, a: Bar, b: Bar)
    requires AllOk(x) && AllOk(y) && LegalBar(a) && LegalBar(b) && CollisionFree(o)
    requires PriceColumns(x, a) && PriceColumns(y, b) && LabelColumns(o, x, a) && LabelColumns(o, y, b)
    requires x[0] == y[0] && x[2] == y[2] && x[3] == y[3]
    ensures SameItems(x, y) <==> SameBar(a, b.(lineage := a.lineage))
  {
    FivePrices(x, y, a, b);
    FiveLabels(o, x, y, a, b);
    SameThirteen(x, y);
  }

  lemma BarColumns(o: Outside, hash: string, end: int, a: Bar)
    ensures var x := BarItems(o, hash, end, a);
            && PriceColumns(x, a) && LabelColumns(o, x, a)
            && x[0] == Str("canonical_bar_v1") && x[2] == Str(hash) && x[3] == Time(o.time(end))
  {
  }

  lemma BarItemsRenderEqually(o: Outside, hash: string, end: int, x: seq<Value>, y: seq<Value>, a: Bar, b: Bar)
    requires CollisionFree(o) && LegalBar(a) && LegalBar(b) && AllOk(x) && AllOk(y)
    requires x == BarItems(o, hash, end, a) && y == BarItems(o, hash, end, b)
    ensures SameItems(x, y) <==> SameBar(a, b.(lineage := a.lineage))
  {
    BarColumns(o, hash, end, a);
    BarColumns(o, hash, end, b);
    ColumnsRenderEqually(o, x, y, a, b);
  }

  lemma SameThirteen(x: seq<Value>, y: seq<Value>)
    requires |x| == |y| == 13
    ensures SameItems(x, y) <==>
              && Rendered(x[0]) == Rendered(y[0]) && Rendered(x[1]) == Rendered(y[1]) && Rendered(x[2]) == Rendered(y[2])
              && Rendered(x[3]) == Rendered(y[3]) && Rendered(x[4]) == Rendered(y[4]) && Rendered(x[5]) == Rendered(y[5])
              && Rendered(x[6]) == Rendered(y[6]) && Rendered(x[7]) == Rendered(y[7]) && Rendered(x[8]) == Rendered(y[8])
              && Rendered(x[9]) == Rendered(y[9]) && Rendered(x[10]) == Rendered(y[10]) && Rendered(x[11]) == Rendered(y[11])
              && Rendered(x[12]) == Rendered(y[12])
  {
  }

  lemma SplitSameItems(a: seq<Value>, b: seq<Value>, c: seq<Value>, d: seq<Value>)
    requires |a| == |b|
    ensures SameItems(a + c, b + d) <==> SameItems(a, b) && SameItems(c, d)
  {
    if SameItems(a + c, b + d) {
      forall i | 0 <= i < |a|
        ensures Rendered(a[i]) == Rendered(b[i])
      {
        assert (a + c)[i] == a[i] && (b + d)[i] == b[i];
      }
      forall i | 0 <= i < |c|
        ensures Rendered(c[i]) == Rendered(d[i])
      {
        assert (a + c)[|a| + i] == c[i] && (b + d)[|a| + i] == d[i];
      }
    }
  }

  lemma OkItems(items: seq<Value>, more: seq<Value>)
    requires CostOf(Tuple(items + more)).ok
    ensures AllOk(items)
  {
    forall i | 0 <= i < |items|
      ensures CostOf(items[i]).ok
    {
      PartIsOk(items + more, i);
      assert (items + more)[i] == items[i];
    }
  }

  lemma InputsRenderEqually(o: Outside, hash: string, end: int, a: Bar, b: Bar)
    requires CollisionFree(o) && LegalBar(a) && LegalBar(b)
    requires CostOf(PayloadInput(o, hash, end, a)).ok && CostOf(PayloadInput(o, hash, end, b)).ok
    ensures Rendered(PayloadInput(o, hash, end, a)) == Rendered(PayloadInput(o, hash, end, b)) <==> SameBar(a, b)
  {
    var x, y := BarItems(o, hash, end, a), BarItems(o, hash, end, b);
    OkItems(x, LineageItems(a));
    OkItems(y, LineageItems(b));
    BarItemsRenderEqually(o, hash, end, x, y, a, b);
    LineagesRenderEqually(a, b);
    SplitSameItems(x, y, LineageItems(a), LineageItems(b));
    TuplesRenderEqually(x + LineageItems(a), y + LineageItems(b));
  }

  /** Two hashed payloads of one bar get equal hashes exactly when they are the same numbers and labels. */
  lemma PayloadHashIsExact(o: Outside, i: Identity, f: Facts, g: Facts)
    requires CollisionFree(o) && LegalBar(f.bar) && LegalBar(g.bar)
    requires PayloadHash(o, i, f).Some? && PayloadHash(o, i, g).Some?
    ensures PayloadHash(o, i, f) == PayloadHash(o, i, g) <==> SameBar(f.bar, g.bar)
  {
    var hash := Hash(o, IdentityInput(o, i)).value;
    InputsRenderEqually(o, hash, i.end, f.bar, g.bar);
  }

  // ---------------------------------------------------------------- what identity and event ids name

  /** The columns that make a bar the same bar. */
  predicate SameInstrument(i: Identity, j: Identity) {
    && i.provider == j.provider && i.feed == j.feed && i.adjustment == j.adjustment
    && i.symbol == j.symbol && i.timeframe == j.timeframe && i.start == j.start
  }

  function IdentityItems(o: Outside, i: Identity): seq<Value> {
    [Str(i.provider), Str(i.feed), Str(i.adjustment), Str(i.symbol), Str(i.timeframe), Time(o.time(i.start))]
  }

  lemma TuplePartsAreOk(items: seq<Value>)
    requires CostOf(Tuple(items)).ok
    ensures AllOk(items)
  {
    forall i | 0 <= i < |items|
      ensures CostOf(items[i]).ok
    {
      PartIsOk(items, i);
    }
  }

  lemma SameSix(x: seq<Value>, y: seq<Value>)
    requires |x| == |y| == 6
    ensures SameItems(x, y) <==>
              && Rendered(x[0]) == Rendered(y[0]) && Rendered(x[1]) == Rendered(y[1]) && Rendered(x[2]) == Rendered(y[2])
              && Rendered(x[3]) == Rendered(y[3]) && Rendered(x[4]) == Rendered(y[4]) && Rendered(x[5]) == Rendered(y[5])
  {
  }

  lemma IdentityColumns(o: Outside, i: Identity, j: Identity)
    requires CollisionFree(o) && AllOk(IdentityItems(o, i)) && AllOk(IdentityItems(o, j))
    ensures SameItems(IdentityItems(o, i), IdentityItems(o, j)) <==> SameInstrument(i, j)
  {
    var x, y := IdentityItems(o, i), IdentityItems(o, j);
    SameSix(x, y);
    assert CostOf(x[5]).ok && CostOf(y[5]).ok;
    TimesRenderEqually(o, Some(i.start), Some(j.start));
  }

  /** Identity hashes agree exactly when provider, feed, adjustment, symbol, timeframe and start do. */
  lemma IdentityHashIsExact(o: Outside, i: Identity, j: Identity)
    requires CollisionFree(o) && Hash(o, IdentityInput(o, i)).Some? && Hash(o, IdentityInput(o, j)).Some?
    ensures Hash(o, IdentityInput(o, i)) == Hash(o, IdentityInput(o, j)) <==> SameInstrument(i, j)
  {
    var x, y := IdentityItems(o, i), IdentityItems(o, j);
    assert IdentityInput(o, i) == Tuple(x) && IdentityInput(o, j) == Tuple(y);
    TuplePartsAreOk(x);
    TuplePartsAreOk(y);
    IdentityColumns(o, i, j);
    TuplesRenderEqually(x, y);
  }

  /** So two hashed revisions carry the same identity id exactly when they are of the same instrument and start. */
  lemma IdentityIdNamesInstrument(o: Outside, i: Identity, f: Facts, j: Identity, g: Facts)
    requires CollisionFree(o) && PayloadHash(o, i, f).Some? && PayloadHash(o, j, g).Some?
    ensures f.identity == g.identity <==> SameInstrument(i, j)
    ensures i.contentHash == j.contentHash <==> SameInstrument(i, j)
  {
    IdentityHashIsExact(o, i, j);
    assert f.identity[13..] == i.contentHash && g.identity[13..] == j.contentHash;
  }

  /** Payload hashes of any two revisions agree exactly when instrument, start, end, numbers and labels do. */
  lemma PayloadHashNamesBar(o: Outside, i: Identity, f: Facts, j: Identity, g: Facts)
    requires CollisionFree(o) && LegalBar(f.bar) && LegalBar(g.bar)
    requires PayloadHash(o, i, f).Some? && PayloadHash(o, j, g).Some?
    ensures PayloadHash(o, i, f) == PayloadHash(o, j, g) <==> SameInstrument(i, j) && i.end == j.end && SameBar(f.bar, g.bar)
  {
    var a, b := Hash(o, IdentityInput(o, i)).value, Hash(o, IdentityInput(o, j)).value;
    IdentityHashIsExact(o, i, j);
    if PayloadHash(o, i, f) == PayloadHash(o, j, g) {
      PayloadBindsPlace(o, a, i.end, f.bar, b, j.end, g.bar);
    }
    if a == b && i.end == j.end {
      InputsRenderEqually(o, a, i.end, f.bar, g.bar);
    }
  }

  lemma PayloadBindsPlace(o: Outside, a: string, end: int, x: Bar, b: string, end': int, y: Bar)
    requires CollisionFree(o) && CostOf(PayloadInput(o, a, end, x)).ok && CostOf(PayloadInput(o, b, end', y)).ok
    requires Rendered(PayloadInput(o, a, end, x)) == Rendered(PayloadInput(o, b, end', y))
    ensures a == b && end == end'
  {
    var c, d := BarItems(o, a, end, x), BarItems(o, b, end', y);
    TuplesRenderEqually(c + LineageItems(x), d + LineageItems(y));
    OkItems(c, LineageItems(x));
    OkItems(d, LineageItems(y));
    assert Rendered((c + LineageItems(x))[2]) == Rendered((d + LineageItems(y))[2]);
    assert Rendered((c + LineageItems(x))[3]) == Rendered((d + LineageItems(y))[3]);
    assert c[2] == Str(a) && d[2] == Str(b) && c[3] == Time(o.time(end)) && d[3] == Time(o.time(end'));
    assert CostOf(c[3]).ok && CostOf(d[3]).ok;
    TimesRenderEqually(o, Some(end), Some(end'));
  }

  /** Event ids agree exactly when bar, revision number and payload hash do. */
  lemma EventIdNamesRevision(o: Outside, bar: string, n: int, payload: string, bar': string, n': int, payload': string)
    requires CollisionFree(o) && EventIdFor(o, bar, n, payload).Some?
    ensures EventIdFor(o, bar, n, payload) == EventIdFor(o, bar', n', payload') <==> bar == bar' && n == n' && payload == payload'
  {
    var x, y := [Str(bar), Int(n), Str(payload)], [Str(bar'), Int(n'), Str(payload')];
    if EventIdFor(o, bar, n, payload) == EventIdFor(o, bar', n', payload') {
      var h, h' := Hash(o, Tuple(x)).value, Hash(o, Tuple(y)).value;
      assert ("bar_event_" + h)[10..] == h && ("bar_event_" + h')[10..] == h';
      TuplesRenderEqually(x, y);
      assert Rendered(x[0]) == Rendered(y[0]) && Rendered(x[1]) == Rendered(y[1]) && Rendered(x[2]) == Rendered(y[2]);
    }
  }

  // ---------------------------------------------------------------- corrections

  lemma SoundHashes(o: Outside, r: Row)
    requires Sound(BarHashing(o), r)
    ensures PayloadHash(o, r.identity, r.event.facts) == Some(r.event.content)
    ensures ContentHash(o, r.event.id, r.event.content, r.event.facts) == NewContent(BarHashing(o), r.event)
    ensures NewContent(BarHashing(o), r.event).Some?
  {
  }

  lemma SuccessorDiffers(o: Outside, p: Row, r: Row)
    requires CollisionFree(o) && Sound(BarHashing(o), p) && Sound(BarHashing(o), r) && Succeeds(p, r)
    requires LegalBar(p.event.facts.bar) && LegalBar(r.event.facts.bar) && p.identity == r.identity
    ensures !SameBar(p.event.facts.bar, r.event.facts.bar)
  {
    SoundHashes(o, p);
    SoundHashes(o, r);
    PayloadHashIsExact(o, r.identity, p.event.facts, r.event.facts);
  }

  /** In an accepted log a correction really corrects: its numbers or labels differ from the revision before. */
  lemma CorrectionsChangeTheBar(o: Outside, rows: seq<Row>, r: Row)
    requires CollisionFree(o) && LogOk(BarHashing(o), rows)
    requires forall s :: s in rows ==> LegalBar(s.event.facts.bar)
    requires forall s, t :: s in rows && t in rows && s.event.facts.identity == t.event.facts.identity ==> s.identity == t.identity
    requires r in rows && r.event.facts.revision > 1
    ensures exists p :: p in rows && Succeeds(p, r) && !SameBar(p.event.facts.bar, r.event.facts.bar)
  {
    assert HasPrior(rows, r);
    var p :| p in rows && Succeeds(p, r);
    SuccessorDiffers(o, p, r);
  }

  // ---------------------------------------------------------------- equal content hashes

  lemma ContentKeysDiffer(o: Outside, id: string, payload: string, f: Facts)
    ensures DistinctKeys(ContentEntries(o, id, payload, f))
  {
    var e := ContentEntries(o, id, payload, f);
    assert |e[0].key| == 12 && |e[1].key| == 15 && |e[2].key| == 22 && |e[3].key| == 10;
    assert |e[4].key| == 23 && |e[5].key| == 11 && |e[6].key| == 8 && |e[7].key| == 6;
    assert |e[8].key| == 6 && |e[9].key| == 15 && |e[10].key| == 19;
    assert e[1].key[0] == 'b' && e[9].key[0] == 's' && e[7].key[1] == 'c' && e[8].key[1] == 'o';
  }

  lemma ContentRendersEntry(a: seq<Entry>, b: seq<Entry>, k: nat)
    requires DistinctKeys(a) && DistinctKeys(b) && k < |a| && k < |b| && a[k].key == b[k].key
    requires Rendered(Dict(a, true)) == Rendered(Dict(b, true))
    ensures Rendered(a[k].value) == Rendered(b[k].value)
  {
    RenderedLookup(a, k);
    RenderedLookup(b, k);
  }

  lemma EntryIsOk(entries: seq<Entry>, k: nat)
    requires CostOf(Dict(entries, true)).ok && k < |entries|
    ensures CostOf(entries[k].value).ok
  {
    var costs := EntryCosts(entries);
    N.SumAtLeast(costs, k + 1);
    N.NextFits(costs, k, 0, 0, 0);
  }

  lemma LinksRenderEqually(a: Option<string>, b: Option<string>)
    requires Rendered(TextOrNull(a)) == Rendered(TextOrNull(b))
    ensures a == b
  {
  }

  lemma TextColumns(o: Outside, a: seq<Entry>, b: seq<Entry>, id: string, payload: string, f: Facts, id': string, payload': string, g: Facts)
    requires a == ContentEntries(o, id, payload, f) && b == ContentEntries(o, id', payload', g)
    requires forall k :: 0 <= k < |a| ==> Rendered(a[k].value) == Rendered(b[k].value)
    ensures id == id' && payload == payload' && f.identity == g.identity && f.revision == g.revision
    ensures f.link == g.link && f.source == g.source && f.sourceEvent == g.sourceEvent && f.sourcePayload == g.sourcePayload
  {
    assert Rendered(a[0].value) == Rendered(b[0].value) && Rendered(a[1].value) == Rendered(b[1].value);
    assert Rendered(a[2].value) == Rendered(b[2].value) && Rendered(a[9].value) == Rendered(b[9].value);
    LinksRenderEqually(f.link, g.link);
    LinksRenderEqually(f.sourceEvent, g.sourceEvent);
    assert Rendered(a[4].value) == Rendered(b[4].value) && Rendered(a[6].value) == Rendered(b[6].value);
    assert Rendered(a[8].value) == Rendered(b[8].value) && Rendered(a[10].value) == Rendered(b[10].value);
  }

  /** Equal content hashes bind every column of the revision, the payload through its own hash. */
  lemma ContentHashBinds(o: Outside, id: string, payload: string, f: Facts, id': string, payload': string, g: Facts)
    requires CollisionFree(o) && ContentHash(o, id, payload, f).Some?
    requires ContentHash(o, id, payload, f) == ContentHash(o, id', payload', g)
    ensures id == id' && payload == payload' && f == g.(bar := f.bar)
  {
    var a, b := ContentEntries(o, id, payload, f), ContentEntries(o, id', payload', g);
    ContentKeysDiffer(o, id, payload, f);
    ContentKeysDiffer(o, id', payload', g);
    BindColumns(o, a, b);
    TextColumns(o, a, b, id, payload, f, id', payload', g);
    EntryIsOk(a, 3);
    EntryIsOk(b, 3);
    assert Rendered(a[3].value) == Rendered(b[3].value);
    TimesRenderEqually(o, Some(f.received), Some(g.received));
  }

  lemma BindColumns(o: Outside, a: seq<Entry>, b: seq<Entry>)
    requires CollisionFree(o) && DistinctKeys(a) && DistinctKeys(b) && |a| == |b|
    requires forall k :: 0 <= k < |a| ==> a[k].key == b[k].key
    requires Hash(o, Dict(a, true)).Some? && Hash(o, Dict(a, true)) == Hash(o, Dict(b, true))
    ensures forall k :: 0 <= k < |a| ==> Rendered(a[k].value) == Rendered(b[k].value)
    ensures CostOf(Dict(a, true)).ok && CostOf(Dict(b, true)).ok
  {
    assert Rendered(Dict(a, true)) == Rendered(Dict(b, true));
    forall k | 0 <= k < |a|
      ensures Rendered(a[k].value) == Rendered(b[k].value)
    {
      ContentRendersEntry(a, b, k);
    }
  }

  /** After the backfill, two revisions with equal content hashes are the same revision. */
  lemma ContentHashNamesRevision(o: Outside, r: Row, s: Row)
    requires CollisionFree(o) && Sound(BarHashing(o), r) && Sound(BarHashing(o), s)
    requires LegalBar(r.event.facts.bar) && LegalBar(s.event.facts.bar) && r.identity == s.identity
    ensures NewContent(BarHashing(o), r.event) == NewContent(BarHashing(o), s.event) <==>
              r.event.id == s.event.id && r.event.facts == s.event.facts.(bar := r.event.facts.bar)
              && SameBar(r.event.facts.bar, s.event.facts.bar)
  {
    SoundHashes(o, r);
    SoundHashes(o, s);
    PayloadHashIsExact(o, r.identity, r.event.facts, s.event.facts);
    if NewContent(BarHashing(o), r.event) == NewContent(BarHashing(o), s.event) {
      ContentHashBinds(o, r.event.id, r.event.content, r.event.facts, s.event.id, s.event.content, s.event.facts);
    }
    if r.event.id == s.event.id && r.event.facts == s.event.facts.(bar := r.event.facts.bar)
       && SameBar(r.event.facts.bar, s.event.facts.bar) {
      BarIsNotHashedAgain(o, r.event.id, r.event.content, r.event.facts, s.event.facts);
    }
  }

  lemma BarIsNotHashedAgain(o: Outside, id: string, payload: string, f: Facts, g: Facts)
    requires f == g.(bar := f.bar)
    ensures ContentHash(o, id, payload, f) == ContentHash(o, id, payload, g)
  {
    assert ContentEntries(o, id, payload, f) == ContentEntries(o, id, payload, g);
  }
}
