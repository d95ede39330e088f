/** The price history a forward decision may use: completed sessions before the current one. */
module CompletedHistory {
  import opened Prelude

  /** A daily bar; the session is the New York day it started on, a close that is not finite is `None`. */
  datatype DailyBar = DailyBar(symbol: string, session: int, close: Option<real>)

  /** One completed session with a close for every symbol of the universe, in the universe's order. */
  datatype Session = Session(day: int, closes: seq<real>)

  datatype History = History(prices: seq<Session>, cutoff: int, received: nat, excluded: nat)

  predicate Usable(bar: DailyBar) { bar.close.Some? && bar.close.value > 0.0 }

  predicate SameCell(a: DailyBar, b: DailyBar) { a.session == b.session && a.symbol == b.symbol }

  /** In-universe bars of sessions before the current one. */
  function Relevant(bars: seq<DailyBar>, universe: seq<string>, current: int): seq<DailyBar> {
    if bars == [] then []
    else
      var n := |bars| - 1;
      var rest := Relevant(bars[..n], universe, current);
      if bars[n].symbol in universe && bars[n].session < current then rest + [bars[n]] else rest
  }

  /** In-universe bars of the current session or later. */
  function Incomplete(bars: seq<DailyBar>, universe: seq<string>, current: int): nat {
    if bars == [] then 0
    else
      var n := |bars| - 1;
      Incomplete(bars[..n], universe, current) + if bars[n].symbol in universe && bars[n].session >= current then 1 else 0
  }

  // ---------------------------------------------------------------- the pivoted table

  function InsertDay(days: seq<int>, day: int): seq<int> {
    if days == [] || day < days[0] then [day] + days
    else if day == days[0] then days
    else [days[0]] + InsertDay(days[1..], day)
  }

  /** The sessions that have a bar, ascending. */
  function Days(rows: seq<DailyBar>): seq<int> {
    if rows == [] then [] else InsertDay(Days(rows[..|rows| - 1]), rows[|rows| - 1].session)
  }

  function Cell(rows: seq<DailyBar>, day: int, symbol: string): Option<real> {
    if rows == [] then None
    else
      var last := rows[|rows| - 1];
      if last.session == day && last.symbol == symbol then last.close else Cell(rows[..|rows| - 1], day, symbol)
  }

  /** The closes of one session, or `None` when a symbol has none. */
  function FillSession(rows: seq<DailyBar>, universe: seq<string>, day: int): Option<seq<real>> {
    if universe == [] then Some([])
    else
      var n := |universe| - 1;
      var rest, cell := FillSession(rows, universe[..n], day), Cell(rows, day, universe[n]);
      if rest.Some? && cell.Some? then Some(rest.value + [cell.value]) else None
  }

  function FillAll(rows: seq<DailyBar>, universe: seq<string>, days: seq<int>): Option<seq<Session>> {
    if days == [] then Some([])
    else
      var n := |days| - 1;
      var rest, closes := FillAll(rows, universe, days[..n]), FillSession(rows, universe, days[n]);
      if rest.Some? && closes.Some? then Some(rest.value + [Session(days[n], closes.value)]) else None
  }

  /** The last `minimum` sessions of the pivoted table, refused when there are too few or a close is missing. */
  function Table(rows: seq<DailyBar>, universe: seq<string>, minimum: nat): Option<seq<Session>> {
    var days := Days(rows);
    if |days| < minimum then None else FillAll(rows, universe, days[|days| - minimum..])
  }

  // ---------------------------------------------------------------- the source's pass

  ghost predicate DistinctCells(rows: seq<DailyBar>) {
    forall i, j :: 0 <= i < j < |rows| ==> !SameCell(rows[i], rows[j])
  }

  /** What a history must offer, said of the bars alone and in no order. */
  ghost predicate Acceptable(rows: seq<DailyBar>, universe: seq<string>, minimum: nat) {
    && rows != []
    && DistinctCells(rows)
    && (forall bar :: bar in rows ==> Usable(bar))
    && |SessionSet(rows)| >= minimum
    && forall day :: Recent(rows, minimum, day) ==> Covers(rows, universe, day)
  }

  function SessionSet(rows: seq<DailyBar>): set<int> { set bar | bar in rows :: bar.session }

  function Later(rows: seq<DailyBar>, day: int): set<int> { set d | d in SessionSet(rows) && d > day }

  ghost predicate HasBar(rows: seq<DailyBar>, day: int, symbol: string) {
    exists bar :: bar in rows && bar.session == day && bar.symbol == symbol
  }

  /**
   Accepts exactly the acceptable bars; the table depends on the relevant bars only and its cutoff is
   the last session of it, before the current one.
   */
  method Build(bars: seq<DailyBar>, universe: seq<string>, minimum: nat, current: int) returns (r: Option<History>)
    requires minimum >= 1
    ensures r.Some? <==> Acceptable(Relevant(bars, universe, current), universe, minimum)
    ensures r.Some? ==> Table(Relevant(bars, universe, current), universe, minimum) == Some(r.value.prices)
    ensures r.Some? ==> |r.value.prices| == minimum && r.value.cutoff == r.value.prices[minimum - 1].day < current
    ensures r.Some? ==> r.value.received == |bars| && r.value.excluded == Incomplete(bars, universe, current)
  {
    ghost var relevant := Relevant(bars, universe, current);
    var rows: seq<DailyBar> := [];
    var seen: set<(int, string)> := {};
    var excluded := 0;
    var i := 0;
    while i < |bars|
      invariant 0 <= i <= |bars|
      invariant rows == Relevant(bars[..i], universe, current) && excluded == Incomplete(bars[..i], universe, current)
      invariant DistinctCells(rows) && forall bar :: bar in rows ==> Usable(bar)
      invariant forall day, symbol :: (day, symbol) in seen <==> HasBar(rows, day, symbol)
    {
      assert bars[..i + 1][..i] == bars[..i];
      RelevantIsPrefix(bars, universe, current, i + 1);
      var bar := bars[i];
      i := i + 1;
      if bar.symbol !in universe {
        continue;
      }
      if bar.session >= current {
        excluded := excluded + 1;
        continue;
      }
      if (bar.session, bar.symbol) in seen {
        DuplicateRefused(rows, bar, relevant, universe, minimum);
        return None;
      }
      if bar.close.None? || bar.close.value <= 0.0 {
        UnusableRefused(rows, bar, relevant, universe, minimum);
        return None;
      }
      SeenGrows(rows, bar);
      seen := seen + {(bar.session, bar.symbol)};
      rows := rows + [bar];
    }
    assert bars[..i] == bars;
    if rows == [] {
      return None;
    }
    TableDecides(rows, universe, minimum);
    var table := Table(rows, universe, minimum);
    if table.None? {
      return None;
    }
    var prices := table.value;
    TableShape(rows, universe, minimum);
    RelevantIsBefore(bars, universe, current);
    var cutoff := prices[|prices| - 1].day;
    if cutoff >= current {
      assert false;
      return None;
    }
    r := Some(History(prices, cutoff, |bars|, excluded));
  }

  // ---------------------------------------------------------------- steps of the pass

  lemma {:induction false} RelevantIsPrefix(bars: seq<DailyBar>, universe: seq<string>, current: int, i: nat)
    requires i <= |bars|
    ensures Relevant(bars[..i], universe, current) <= Relevant(bars, universe, current)
    decreases |bars| - i
  {
    if i == |bars| {
      assert bars[..i] == bars;
    } else {
      RelevantIsPrefix(bars, universe, current, i + 1);
      assert bars[..i + 1][..i] == bars[..i];
    }
  }

  lemma {:induction false} RelevantIsBefore(bars: seq<DailyBar>, universe: seq<string>, current: int)
    ensures forall bar :: bar in Relevant(bars, universe, current) ==> bar.session < current && bar.symbol in universe && bar in bars
  {
    if bars != [] {
      RelevantIsBefore(bars[..|bars| - 1], universe, current);
    }
  }

  lemma DuplicateRefused(rows: seq<DailyBar>, bar: DailyBar, relevant: seq<DailyBar>, universe: seq<string>, minimum: nat)
    requires HasBar(rows, bar.session, bar.symbol) && rows + [bar] <= relevant
    ensures !Acceptable(relevant, universe, minimum)
  {
    var other :| other in rows && other.session == bar.session && other.symbol == bar.symbol;
    var i :| 0 <= i < |rows| && rows[i] == other;
    assert (rows + [bar])[i] == relevant[i] && (rows + [bar])[|rows|] == relevant[|rows|];
    assert SameCell(relevant[i], relevant[|rows|]);
  }

  lemma UnusableRefused(rows: seq<DailyBar>, bar: DailyBar, relevant: seq<DailyBar>, universe: seq<string>, minimum: nat)
    requires !Usable(bar) && rows + [bar] <= relevant
    ensures !Acceptable(relevant, universe, minimum)
  {
    assert (rows + [bar])[|rows|] == relevant[|rows|];
    assert bar in relevant;
  }

  lemma SeenGrows(rows: seq<DailyBar>, bar: DailyBar)
    ensures forall day, symbol :: HasBar(rows + [bar], day, symbol) <==>
              HasBar(rows, day, symbol) || (day == bar.session && symbol == bar.symbol)
  {
    forall day, symbol
      ensures HasBar(rows + [bar], day, symbol) <==>
                HasBar(rows, day, symbol) || (day == bar.session && symbol == bar.symbol)
    {
      assert bar in rows + [bar];
      if HasBar(rows, day, symbol) {
        var other :| other in rows && other.session == day && other.symbol == symbol;
        assert other in rows + [bar];
      }
    }
  }

  // ---------------------------------------------------------------- the days are sorted

  ghost predicate Ascending(days: seq<int>) { forall i, j :: 0 <= i < j < |days| ==> days[i] < days[j] }

  lemma {:induction false} InsertDayKeeps(days: seq<int>, day: int)
    requires Ascending(days)
    ensures Ascending(InsertDay(days, day))
    ensures forall d :: d in InsertDay(days, day) <==> d in days || d == day
  {
    if days != [] && day > days[0] {
      InsertDayKeeps(days[1..], day);
      assert days == [days[0]] + days[1..];
      var rest := InsertDay(days[1..], day);
      forall j | 0 <= j < |rest|
        ensures days[0] < rest[j]
      {
        assert rest[j] in rest;
      }
    }
  }

  lemma {:induction false} DaysAreSessions(rows: seq<DailyBar>)
    ensures Ascending(Days(rows)) && forall d :: d in Days(rows) <==> d in SessionSet(rows)
  {
    if rows != [] {
      var n := |rows| - 1;
      DaysAreSessions(rows[..n]);
      InsertDayKeeps(Days(rows[..n]), rows[n].session);
      assert rows == rows[..n] + [rows[n]];
      assert SessionSet(rows) == SessionSet(rows[..n]) + {rows[n].session};
    }
  }

  lemma {:induction false} AscendingIsUnique(a: seq<int>, b: seq<int>)
    requires Ascending(a) && Ascending(b) && forall d :: d in a <==> d in b
    ensures a == b
    decreases |a|
  {
    if a == [] {
      NoDays(a, b);
    } else {
      assert a[0] in b && b != [] && b[0] in a;
      assert a == [a[0]] + a[1..] && b == [b[0]] + b[1..];
      FirstDaysAgree(a, b);
      assert a[0] !in a[1..] && b[0] !in b[1..];
      forall d
        ensures d in a[1..] <==> d in b[1..]
      {
        assert d in a <==> d == a[0] || d in a[1..];
        assert d in b <==> d == b[0] || d in b[1..];
      }
      AscendingIsUnique(a[1..], b[1..]);
    }
  }

  lemma FirstDaysAgree(a: seq<int>, b: seq<int>)
    requires Ascending(a) && Ascending(b) && a != [] && b != [] && a[0] in b && b[0] in a
    ensures a[0] == b[0]
  {
    var i :| 0 <= i < |b| && b[i] == a[0];
    var j :| 0 <= j < |a| && a[j] == b[0];
  }

  lemma NoDays(a: seq<int>, b: seq<int>)
    requires forall d :: d in a <==> d in b
    ensures |a| == 0 ==> |b| == 0
  {
    if |b| > 0 {
      var d := b[0];
      assert d in b;
      assert d in a;
    }
  }

  lemma {:induction false} CountAscending(days: seq<int>)
    requires Ascending(days)
    ensures |set d | d in days| == |days|
  {
    if days != [] {
      CountAscending(days[1..]);
      assert days == [days[0]] + days[1..];
      assert (set d | d in days) == (set d | d in days[1..]) + {days[0]};
    }
  }

  lemma LaterIsTail(days: seq<int>, i: nat, d: int)
    requires Ascending(days) && i < |days|
    ensures d in days && d > days[i] <==> d in days[i + 1..]
  {
    var tail := days[i + 1..];
    if d in days && d > days[i] {
      var k :| 0 <= k < |days| && days[k] == d;
      assert k > i;
      assert tail[k - i - 1] == d;
    }
    if d in tail {
      var k :| 0 <= k < |tail| && tail[k] == d;
      assert days[i + 1 + k] == d;
    }
  }

  /** Among ascending days, position and number of later days determine each other. */
  lemma LaterCount(rows: seq<DailyBar>, i: nat)
    requires i < |Days(rows)|
    ensures |Later(rows, Days(rows)[i])| == |Days(rows)| - 1 - i
  {
    var days := Days(rows);
    DaysAreSessions(rows);
    var tail := days[i + 1..];
    CountAscending(tail);
    forall d
      ensures d in Later(rows, days[i]) <==> d in tail
    {
      LaterIsTail(days, i, d);
    }
    assert Later(rows, days[i]) == set d | d in tail;
  }

  // ---------------------------------------------------------------- the table decides acceptance

  lemma {:induction false} CellIsBar(rows: seq<DailyBar>, day: int, symbol: string)
    requires forall bar :: bar in rows ==> Usable(bar)
    ensures Cell(rows, day, symbol).Some? <==> HasBar(rows, day, symbol)
    ensures Cell(rows, day, symbol).Some? ==> DailyBar(symbol, day, Cell(rows, day, symbol)) in rows
  {
    if rows != [] {
      var n := |rows| - 1;
      CellIsBar(rows[..n], day, symbol);
      assert rows == rows[..n] + [rows[n]];
      SeenGrows(rows[..n], rows[n]);
      assert rows[n] in rows && Usable(rows[n]);
      if rows[n].session == day && rows[n].symbol == symbol {
        assert DailyBar(symbol, day, rows[n].close) == rows[n];
      } else {
        assert HasBar(rows, day, symbol) <==> HasBar(rows[..n], day, symbol);
      }
    }
  }

  lemma {:induction false} SessionFilled(rows: seq<DailyBar>, universe: seq<string>, day: int)
    ensures FillSession(rows, universe, day).Some? <==> forall symbol :: symbol in universe ==> Cell(rows, day, symbol).Some?
    ensures FillSession(rows, universe, day).Some? ==>
              && |FillSession(rows, universe, day).value| == |universe|
              && forall k :: 0 <= k < |universe| ==> Some(FillSession(rows, universe, day).value[k]) == Cell(rows, day, universe[k])
  {
    if universe != [] {
      var n := |universe| - 1;
      SessionFilled(rows, universe[..n], day);
      assert universe == universe[..n] + [universe[n]];
      assert universe[n] in universe;
      var filled := FillSession(rows, universe, day);
      if filled.Some? {
        forall symbol | symbol in universe
          ensures Cell(rows, day, symbol).Some?
        {
          assert symbol in universe[..n] || symbol == universe[n];
        }
        forall k | 0 <= k < |universe|
          ensures Some(filled.value[k]) == Cell(rows, day, universe[k])
        {
          assert k < n ==> universe[..n][k] == universe[k];
        }
      }
    }
  }

  lemma {:induction false} AllFilled(rows: seq<DailyBar>, universe: seq<string>, days: seq<int>)
    ensures FillAll(rows, universe, days).Some? <==> forall day :: day in days ==> FillSession(rows, universe, day).Some?
    ensures FillAll(rows, universe, days).Some? ==>
              && |FillAll(rows, universe, days).value| == |days|
              && forall i :: 0 <= i < |days| ==>
                   && FillSession(rows, universe, days[i]).Some?
                   && FillAll(rows, universe, days).value[i] == Session(days[i], FillSession(rows, universe, days[i]).value)
  {
    if days != [] {
      var n := |days| - 1;
      AllFilled(rows, universe, days[..n]);
      assert days == days[..n] + [days[n]];
      assert days[n] in days;
      var filled := FillAll(rows, universe, days);
      if filled.Some? {
        forall day | day in days
          ensures FillSession(rows, universe, day).Some?
        {
          assert day in days[..n] || day == days[n];
        }
        forall i | 0 <= i < |days|
          ensures FillSession(rows, universe, days[i]).Some?
          ensures filled.value[i] == Session(days[i], FillSession(rows, universe, days[i]).value)
        {
          assert i < n ==> days[..n][i] == days[i];
        }
      }
    }
  }

  lemma TailIsRecent(rows: seq<DailyBar>, minimum: nat, day: int)
    requires |Days(rows)| >= minimum
    ensures day in Days(rows)[|Days(rows)| - minimum..] <==> day in SessionSet(rows) && |Later(rows, day)| < minimum
  {
    var days := Days(rows);
    DaysAreSessions(rows);
    var tail := days[|days| - minimum..];
    if day in SessionSet(rows) {
      assert day in days;
      var i :| 0 <= i < |days| && days[i] == day;
      LaterCount(rows, i);
      if i >= |days| - minimum {
        assert tail[i - (|days| - minimum)] == day;
      }
      if day in tail {
        var k :| 0 <= k < |tail| && tail[k] == day;
        assert days[|days| - minimum + k] == day;
      }
    }
    if day in tail {
      var k :| 0 <= k < |tail| && tail[k] == day;
      assert days[|days| - minimum + k] == day;
    }
  }

  ghost predicate Covers(rows: seq<DailyBar>, universe: seq<string>, day: int) {
    forall symbol :: symbol in universe ==> HasBar(rows, day, symbol)
  }

  lemma SessionCovered(rows: seq<DailyBar>, universe: seq<string>, day: int)
    requires forall bar :: bar in rows ==> Usable(bar)
    ensures FillSession(rows, universe, day).Some? <==> Covers(rows, universe, day)
  {
    SessionFilled(rows, universe, day);
    forall symbol | symbol in universe
      ensures Cell(rows, day, symbol).Some? <==> HasBar(rows, day, symbol)
    {
      CellIsBar(rows, day, symbol);
    }
  }

  lemma DaysCount(rows: seq<DailyBar>)
    ensures |Days(rows)| == |SessionSet(rows)|
  {
    DaysAreSessions(rows);
    CountAscending(Days(rows));
    assert SessionSet(rows) == set d | d in Days(rows);
  }

  ghost predicate Recent(rows: seq<DailyBar>, minimum: nat, day: int) {
    day in SessionSet(rows) && |Later(rows, day)| < minimum
  }

  lemma DaysCovered(rows: seq<DailyBar>, universe: seq<string>, days: seq<int>)
    requires forall bar :: bar in rows ==> Usable(bar)
    ensures FillAll(rows, universe, days).Some? <==> forall day :: day in days ==> Covers(rows, universe, day)
  {
    AllFilled(rows, universe, days);
    forall day | day in days
      ensures FillSession(rows, universe, day).Some? <==> Covers(rows, universe, day)
    {
      SessionCovered(rows, universe, day);
    }
  }

  lemma TailCovered(rows: seq<DailyBar>, universe: seq<string>, minimum: nat)
    requires |Days(rows)| >= minimum && forall bar :: bar in rows ==> Usable(bar)
    ensures FillAll(rows, universe, Days(rows)[|Days(rows)| - minimum..]).Some? <==>
            forall day :: Recent(rows, minimum, day) ==> Covers(rows, universe, day)
  {
    var tail := Days(rows)[|Days(rows)| - minimum..];
    DaysCovered(rows, universe, tail);
    forall day
      ensures day in tail <==> Recent(rows, minimum, day)
    {
      TailIsRecent(rows, minimum, day);
    }
  }

  lemma TableDecides(rows: seq<DailyBar>, universe: seq<string>, minimum: nat)
    requires rows != [] && DistinctCells(rows) && forall bar :: bar in rows ==> Usable(bar)
    ensures Table(rows, universe, minimum).Some? <==> Acceptable(rows, universe, minimum)
  {
    DaysCount(rows);
    if |Days(rows)| >= minimum {
      TailCovered(rows, universe, minimum);
    }
  }

  /** Rows of the table: the latest sessions, ascending, each cell the close of the one bar for it. */
  lemma TableShape(rows: seq<DailyBar>, universe: seq<string>, minimum: nat)
    requires Table(rows, universe, minimum).Some? && forall bar :: bar in rows ==> Usable(bar)
    ensures var t := Table(rows, universe, minimum).value;
            && |t| == minimum
            && (forall i, j :: 0 <= i < j < |t| ==> t[i].day < t[j].day)
            && (forall i :: 0 <= i < |t| ==> t[i].day in SessionSet(rows) && |t[i].closes| == |universe|)
            && forall i, k :: 0 <= i < |t| && 0 <= k < |universe| ==> DailyBar(universe[k], t[i].day, Some(t[i].closes[k])) in rows
  {
    var days := Days(rows);
    DaysAreSessions(rows);
    var tail := days[|days| - minimum..];
    AllFilled(rows, universe, tail);
    var t := Table(rows, universe, minimum).value;
    forall i | 0 <= i < |t|
      ensures t[i].day in SessionSet(rows) && |t[i].closes| == |universe|
      ensures forall k :: 0 <= k < |universe| ==> DailyBar(universe[k], t[i].day, Some(t[i].closes[k])) in rows
    {
      assert tail[i] in days;
      SessionFilled(rows, universe, tail[i]);
      forall k | 0 <= k < |universe|
        ensures DailyBar(universe[k], t[i].day, Some(t[i].closes[k])) in rows
      {
        CellIsBar(rows, tail[i], universe[k]);
      }
    }
  }

  // ---------------------------------------------------------------- order and irrelevant bars

  lemma SameMembers(a: seq<DailyBar>, b: seq<DailyBar>)
    requires multiset(a) == multiset(b)
    ensures |a| == |b| && forall bar :: bar in a <==> bar in b
  {
    assert |multiset(a)| == |multiset(b)|;
    forall bar
      ensures bar in a <==> bar in b
    {
      assert bar in multiset(a) <==> bar in multiset(b);
    }
  }

  lemma {:induction false} CountedOnce(rows: seq<DailyBar>, bar: DailyBar)
    requires DistinctCells(rows)
    ensures multiset(rows)[bar] <= 1
  {
    if rows != [] {
      var n := |rows| - 1;
      CountedOnce(rows[..n], bar);
      assert rows == rows[..n] + [rows[n]];
      if rows[n] == bar {
        assert bar !in rows[..n];
      }
    }
  }

  lemma CellsStayDistinct(a: seq<DailyBar>, b: seq<DailyBar>)
    requires multiset(a) == multiset(b) && DistinctCells(a)
    ensures DistinctCells(b)
  {
    SameMembers(a, b);
    forall i, j | 0 <= i < j < |b|
      ensures !SameCell(b[i], b[j])
    {
      if SameCell(b[i], b[j]) {
        assert b[i] in a && b[j] in a;
        var k :| 0 <= k < |a| && a[k] == b[i];
        var l :| 0 <= l < |a| && a[l] == b[j];
        assert k == l;
        CountedOnce(a, b[i]);
        OccursTwice(b, i, j);
      }
    }
  }

  lemma SameCells(a: seq<DailyBar>, b: seq<DailyBar>, day: int, symbol: string)
    requires DistinctCells(a) && (forall bar :: bar in a <==> bar in b) && forall bar :: bar in a ==> Usable(bar)
    ensures Cell(a, day, symbol) == Cell(b, day, symbol)
  {
    CellIsBar(a, day, symbol);
    CellIsBar(b, day, symbol);
    if HasBar(a, day, symbol) {
      var x, y := DailyBar(symbol, day, Cell(a, day, symbol)), DailyBar(symbol, day, Cell(b, day, symbol));
      assert HasBar(b, day, symbol);
      assert x in a && y in a;
      var i :| 0 <= i < |a| && a[i] == x;
      var j :| 0 <= j < |a| && a[j] == y;
      assert i == j;
    } else {
      assert !HasBar(b, day, symbol);
    }
  }

  lemma {:induction false} SameSession(a: seq<DailyBar>, b: seq<DailyBar>, universe: seq<string>, day: int)
    requires DistinctCells(a) && (forall bar :: bar in a <==> bar in b) && forall bar :: bar in a ==> Usable(bar)
    ensures FillSession(a, universe, day) == FillSession(b, universe, day)
  {
    if universe != [] {
      SameSession(a, b, universe[..|universe| - 1], day);
      SameCells(a, b, day, universe[|universe| - 1]);
    }
  }

  lemma {:induction false} SameSessions(a: seq<DailyBar>, b: seq<DailyBar>, universe: seq<string>, days: seq<int>)
    requires DistinctCells(a) && (forall bar :: bar in a <==> bar in b) && forall bar :: bar in a ==> Usable(bar)
    ensures FillAll(a, universe, days) == FillAll(b, universe, days)
  {
    if days != [] {
      SameSessions(a, b, universe, days[..|days| - 1]);
      SameSession(a, b, universe, days[|days| - 1]);
    }
  }

  lemma SameTable(a: seq<DailyBar>, b: seq<DailyBar>, universe: seq<string>, minimum: nat)
    requires DistinctCells(a) && (forall bar :: bar in a <==> bar in b) && forall bar :: bar in a ==> Usable(bar)
    ensures Table(a, universe, minimum) == Table(b, universe, minimum)
  {
    DaysAreSessions(a);
    DaysAreSessions(b);
    assert SessionSet(a) == SessionSet(b);
    AscendingIsUnique(Days(a), Days(b));
    if |Days(a)| >= minimum {
      SameSessions(a, b, universe, Days(a)[|Days(a)| - minimum..]);
    }
  }

  lemma VerdictIgnoresOrder(a: seq<DailyBar>, b: seq<DailyBar>, universe: seq<string>, minimum: nat)
    requires multiset(a) == multiset(b) && Acceptable(a, universe, minimum)
    ensures Acceptable(b, universe, minimum) && Table(a, universe, minimum) == Table(b, universe, minimum)
  {
    SameMembers(a, b);
    CellsStayDistinct(a, b);
    SameTable(a, b, universe, minimum);
    TableDecides(a, universe, minimum);
    TableDecides(b, universe, minimum);
  }

  lemma {:induction false} RelevantAppend(a: seq<DailyBar>, b: seq<DailyBar>, universe: seq<string>, current: int)
    ensures Relevant(a + b, universe, current) == Relevant(a, universe, current) + Relevant(b, universe, current)
  {
    if b == [] {
      assert a + b == a;
    } else {
      RelevantAppend(a, b[..|b| - 1], universe, current);
      assert (a + b)[..|a + b| - 1] == a + b[..|b| - 1];
    }
  }

  lemma RelevantTakeOut(b: seq<DailyBar>, i: nat, universe: seq<string>, current: int)
    requires i < |b|
    ensures multiset(Relevant(b, universe, current))
         == multiset(Relevant(b[..i] + b[i + 1..], universe, current)) + multiset(Relevant([b[i]], universe, current))
    ensures multiset(b[..i] + b[i + 1..]) == multiset(b) - multiset{b[i]}
  {
    assert b == b[..i] + [b[i]] + b[i + 1..];
    RelevantAppend(b[..i], b[i + 1..], universe, current);
    RelevantAppend(b[..i] + [b[i]], b[i + 1..], universe, current);
    RelevantAppend(b[..i], [b[i]], universe, current);
  }

  /** Permuted bars have permuted relevant bars. */
  lemma {:induction false} RelevantPermutes(a: seq<DailyBar>, b: seq<DailyBar>, universe: seq<string>, current: int)
    requires multiset(a) == multiset(b)
    ensures multiset(Relevant(a, universe, current)) == multiset(Relevant(b, universe, current))
    decreases |a|
  {
    if a == [] {
      assert |multiset(b)| == 0;
    } else {
      var n := |a| - 1;
      assert a[n] in multiset(a);
      assert a[n] in multiset(b);
      var i :| 0 <= i < |b| && b[i] == a[n];
      RelevantTakeOut(a, n, universe, current);
      RelevantTakeOut(b, i, universe, current);
      RelevantPermutes(a[..n] + a[n + 1..], b[..i] + b[i + 1..], universe, current);
    }
  }

  /**
   Reordering the supplied bars, or adding bars that are out of the universe or not before the current
   session, changes neither the verdict nor the prices.
   */
  lemma OnlyRelevantBarsMatter(a: seq<DailyBar>, b: seq<DailyBar>, extra: seq<DailyBar>, universe: seq<string>, minimum: nat, current: int)
    requires multiset(b) == multiset(a + extra)
    requires forall bar :: bar in extra ==> bar.symbol !in universe || bar.session >= current
    ensures Acceptable(Relevant(a, universe, current), universe, minimum) <==> Acceptable(Relevant(b, universe, current), universe, minimum)
    ensures Acceptable(Relevant(a, universe, current), universe, minimum) ==>
              Table(Relevant(a, universe, current), universe, minimum) == Table(Relevant(b, universe, current), universe, minimum)
  {
    RelevantPermutes(b, a + extra, universe, current);
    RelevantAppend(a, extra, universe, current);
    NothingRelevant(extra, universe, current);
    var x, y := Relevant(a, universe, current), Relevant(b, universe, current);
    assert multiset(x) == multiset(y);
    if Acceptable(x, universe, minimum) {
      VerdictIgnoresOrder(x, y, universe, minimum);
    }
    if Acceptable(y, universe, minimum) {
      VerdictIgnoresOrder(y, x, universe, minimum);
    }
  }

  lemma {:induction false} NothingRelevant(extra: seq<DailyBar>, universe: seq<string>, current: int)
    requires forall bar :: bar in extra ==> bar.symbol !in universe || bar.session >= current
    ensures Relevant(extra, universe, current) == []
  {
    if extra != [] {
      NothingRelevant(extra[..|extra| - 1], universe, current);
    }
  }
}
