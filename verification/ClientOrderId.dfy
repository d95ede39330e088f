/** Deterministic, readable client order ids of at most 48 characters. */
module ClientOrderId {
  import opened Prelude
  import opened LiveModels
  import opened Digits

  const MAX_LENGTH := 48

  datatype Date = Date(year: nat, month: nat, day: nat) {
    /** Calendar dates with a four-digit year. */
    predicate Valid() { 1000 <= year <= 9999 && 1 <= month <= 12 && 1 <= day <= 31 }
  }

  function DateText(d: Date): string { Padded(d.year, 4) + Padded(d.month, 2) + Padded(d.day, 2) }

  predicate IsDigestChar(c: char) { '0' <= c <= '9' || 'a' <= c <= 'f' }

  /** The first ten hexadecimal characters of the decision's hash. */
  predicate IsDigest(s: string) { |s| == 10 && forall i :: 0 <= i < 10 ==> IsDigestChar(s[i]) }

  predicate IsSymbolChar(c: char) { 'A' <= c <= 'Z' || '0' <= c <= '9' }

  function Filter(symbol: Symbol): string {
    if symbol == [] then []
    else (if IsSymbolChar(symbol[0]) then [symbol[0]] else []) + Filter(symbol[1..])
  }

  /** Letters and digits only, at most ten of them, never empty. */
  function ShortSymbol(symbol: Symbol): string {
    var kept := Filter(symbol);
    var cut := if |kept| > 10 then kept[..10] else kept;
    if cut == [] then "ASSET" else cut
  }

  function SideChar(side: Side): char { if side == Buy then 'b' else 's' }

  /** Everything before the symbol: prefix, date and digest. */
  function Head(date: Date, digest: string): string { "apa-" + DateText(date) + "-" + digest + "-" }

  /** Everything after the symbol: side and sequence. */
  function Tail(side: Side, sequence: nat): string { ['-', SideChar(side), '-'] + Padded(sequence, 2) }

  function FullId(date: Date, digest: string, symbol: Symbol, side: Side, sequence: nat): string {
    Head(date, digest) + ShortSymbol(symbol) + Tail(side, sequence)
  }

  function ClientIdFor(date: Date, digest: string, symbol: Symbol, side: Side, sequence: nat): string {
    var id := FullId(date, digest, symbol, side, sequence);
    if |id| > MAX_LENGTH then id[..MAX_LENGTH] else id
  }

  // ---------------------------------------------------------------- reading an id back

  datatype Parts = Parts(date: Date, digest: string, symbol: string, side: Side, sequence: nat)

  /** Index of the first dash at or after a position. */
  function DashFrom(s: string, at: nat): (dash: nat)
    requires at <= |s|
    ensures at <= dash <= |s|
    decreases |s| - at
  {
    if at == |s| || s[at] == '-' then at else DashFrom(s, at + 1)
  }

  function Decode(id: string): Option<Parts> {
    if |id| < 25 || id[..4] != "apa-" || !AllDigits(id[4..12]) || id[12] != '-' || id[23] != '-' then None
    else
      var dash := DashFrom(id, 24);
      if dash + 3 >= |id| || id[dash + 2] != '-' || id[dash + 1] !in {'b', 's'}
         || !AllDigits(id[dash + 3..]) then None
      else
        var date := id[4..12];
        Some(Parts(
               Date(Number(Read(date[..4])), Number(Read(date[4..6])), Number(Read(date[6..]))),
               id[13..23], id[24..dash],
               if id[dash + 1] == 'b' then Buy else Sell,
               Number(Read(id[dash + 3..]))))
  }

  lemma {:induction false} FilterIsAlphanumeric(symbol: Symbol)
    ensures forall i :: 0 <= i < |Filter(symbol)| ==> IsSymbolChar(Filter(symbol)[i])
  {
    if symbol != [] {
      FilterIsAlphanumeric(symbol[1..]);
    }
  }

  /** The characters of a symbol that an id keeps. */
  predicate CapitalOrDigit(c: char) {
    || c in {'A', 'B', 'C', 'D', 'E', 'F', 'G', 'H', 'I', 'J', 'K', 'L', 'M'}
    || c in {'N', 'O', 'P', 'Q', 'R', 'S', 'T', 'U', 'V', 'W', 'X', 'Y', 'Z'}
    || c in {'0', '1', '2', '3', '4', '5', '6', '7', '8', '9'}
  }

  lemma SymbolChars(c: char)
    ensures IsSymbolChar(c) <==> CapitalOrDigit(c)
  {
  }

  lemma {:induction false} FilterConcat(a: Symbol, b: Symbol)
    ensures Filter(a + b) == Filter(a) + Filter(b)
  {
    if a == [] {
      assert a + b == b;
    } else {
      assert (a + b)[1..] == a[1..] + b;
      FilterConcat(a[1..], b);
    }
  }

  /** Character by character, an id keeps the capitals and digits of a symbol, the first ten of them, or says ASSET. */
  lemma SymbolInId(before: Symbol, c: char, after: Symbol)
    ensures Filter(before + [c] + after)
         == Filter(before) + (if CapitalOrDigit(c) then [c] else []) + Filter(after)
    ensures var kept, short := Filter(before + [c] + after), ShortSymbol(before + [c] + after);
            && (kept == [] ==> short == "ASSET")
            && (0 < |kept| <= 10 ==> short == kept)
            && (|kept| > 10 ==> |short| == 10 && short <= kept)
  {
    SymbolChars(c);
    FilterConcat(before + [c], after);
    FilterConcat(before, [c]);
    assert Filter([c]) == if IsSymbolChar(c) then [c] else [] by {
      assert [c][1..] == [];
    }
  }

  lemma ShortSymbolShape(symbol: Symbol)
    ensures 1 <= |ShortSymbol(symbol)| <= 10
    ensures forall i :: 0 <= i < |ShortSymbol(symbol)| ==> IsSymbolChar(ShortSymbol(symbol)[i])
  {
    FilterIsAlphanumeric(symbol);
  }

  lemma {:induction false} DashFromFinds(s: string, at: nat, dash: nat)
    requires at <= dash < |s| && s[dash] == '-'
    requires forall i :: at <= i < dash ==> s[i] != '-'
    ensures DashFrom(s, at) == dash
    decreases dash - at
  {
    if at < dash {
      DashFromFinds(s, at + 1, dash);
    }
  }

  lemma PaddedField(n: nat, width: nat)
    requires width > 0 && n < Pow10(width)
    ensures |Padded(n, width)| == width && AllDigits(Padded(n, width)) && Number(Read(Padded(n, width))) == n
  {
    ReadPadded(n, width);
    DigitCount(n, width);
  }

  lemma ThreeFields(y: string, m: string, d: string)
    requires |y| == 4 && |m| == 2 && |d| == 2 && AllDigits(y) && AllDigits(m) && AllDigits(d)
    ensures var t := y + m + d;
            |t| == 8 && AllDigits(t) && t[..4] == y && t[4..6] == m && t[6..] == d
  {
  }

  lemma DateTextShape(d: Date)
    requires d.Valid()
    ensures |DateText(d)| == 8 && AllDigits(DateText(d))
    ensures Number(Read(DateText(d)[..4])) == d.year
    ensures Number(Read(DateText(d)[4..6])) == d.month
    ensures Number(Read(DateText(d)[6..])) == d.day
  {
    Powers();
    PaddedField(d.year, 4);
    PaddedField(d.month, 2);
    PaddedField(d.day, 2);
    ThreeFields(Padded(d.year, 4), Padded(d.month, 2), Padded(d.day, 2));
  }

  lemma Powers()
    ensures Pow10(2) == 100 && Pow10(4) == 10_000 && Pow10(10) == 10_000_000_000 && Pow10(11) == 100_000_000_000
  {
    assert Pow10(1) == 10;
    assert Pow10(2) == 100;
    assert Pow10(3) == 1000;
    assert Pow10(4) == 10_000;
    assert Pow10(5) == 100_000;
    assert Pow10(6) == 1_000_000;
    assert Pow10(7) == 10_000_000;
    assert Pow10(8) == 100_000_000;
    assert Pow10(9) == 1_000_000_000;
    assert Pow10(10) == 10_000_000_000;
  }

  /** Exact length of an id before truncation. */
  lemma FullIdLength(date: Date, digest: string, symbol: Symbol, side: Side, sequence: nat)
    requires date.Valid() && IsDigest(digest)
    ensures var digits := if |ToDigits(sequence)| >= 2 then |ToDigits(sequence)| else 2;
            |FullId(date, digest, symbol, side, sequence)| == 27 + |ShortSymbol(symbol)| + digits
  {
    DateTextShape(date);
    ReadPadded(sequence, 2);
  }

  /** Ids never exceed the limit, and below 10^11 the sequence number is never cut. */
  lemma IdsFit(date: Date, digest: string, symbol: Symbol, side: Side, sequence: nat)
    requires date.Valid() && IsDigest(digest)
    ensures 0 < |ClientIdFor(date, digest, symbol, side, sequence)| <= MAX_LENGTH
    ensures sequence < 100_000_000_000 ==>
              ClientIdFor(date, digest, symbol, side, sequence) == FullId(date, digest, symbol, side, sequence)
    ensures (ClientIdFor(date, digest, symbol, side, sequence) == FullId(date, digest, symbol, side, sequence)) <==>
              (|ShortSymbol(symbol)| + |ToDigits(sequence)| <= 21)
  {
    FullIdLength(date, digest, symbol, side, sequence);
    ShortSymbolShape(symbol);
    Powers();
    DigitCount(sequence, 11);
  }

  /** An uncut id reads back to everything that went into it. */
  lemma DecodeInvertsEncode(date: Date, digest: string, symbol: Symbol, side: Side, sequence: nat)
    requires date.Valid() && IsDigest(digest)
    ensures Decode(FullId(date, digest, symbol, side, sequence)) ==
              Some(Parts(date, digest, ShortSymbol(symbol), side, sequence))
  {
    HeadShape(date, digest);
    ShortSymbolShape(symbol);
    TailShape(side, sequence);
    Slices(Head(date, digest), ShortSymbol(symbol), Tail(side, sequence));
    DateTextShape(date);
    DecodeAtDash(FullId(date, digest, symbol, side, sequence), 24 + |ShortSymbol(symbol)|, DateText(date));
  }

  lemma TailShape(side: Side, sequence: nat)
    ensures var t := Tail(side, sequence);
            && |t| > 3 && t[0] == '-' && t[1] == SideChar(side) && t[2] == '-'
            && AllDigits(t[3..]) && Number(Read(t[3..])) == sequence
  {
    ReadPadded(sequence, 2);
    assert Tail(side, sequence)[3..] == Padded(sequence, 2);
  }

  /** Decoding, once the places of its parts are known. */
  lemma DecodeAtDash(id: string, dash: nat, date: string)
    requires 25 <= |id| && dash + 3 < |id| && id[..4] == "apa-" && id[4..12] == date && id[12] == '-' && id[23] == '-'
    requires 24 <= dash && DashFrom(id, 24) == dash && id[dash + 1] in {'b', 's'} && id[dash + 2] == '-'
    requires AllDigits(date) && AllDigits(id[dash + 3..])
    ensures Decode(id) ==
              Some(Parts(
                Date(Number(Read(date[..4])), Number(Read(date[4..6])), Number(Read(date[6..]))),
                id[13..23], id[24..dash], if id[dash + 1] == 'b' then Buy else Sell, Number(Read(id[dash + 3..]))))
  {
  }

  lemma HeadShape(date: Date, digest: string)
    requires date.Valid() && IsDigest(digest)
    ensures var h := Head(date, digest);
            && |h| == 24 && h[..4] == "apa-" && h[4..12] == DateText(date) && h[12] == '-'
            && h[13..23] == digest && h[23] == '-'
  {
    DateTextShape(date);
  }

  /** Cutting an id at its fixed places and at the dash after the symbol. */
  lemma Slices(head: string, sym: string, tail: string)
    requires |head| == 24 && |tail| > 3 && tail[0] == '-'
    requires forall i :: 0 <= i < |sym| ==> IsSymbolChar(sym[i])
    ensures var id := head + sym + tail;
            var dash := 24 + |sym|;
            && id[..4] == head[..4] && id[4..12] == head[4..12] && id[12] == head[12]
            && id[13..23] == head[13..23] && id[23] == head[23]
            && DashFrom(id, 24) == dash && id[24..dash] == sym
            && id[dash + 1] == tail[1] && id[dash + 2] == tail[2] && id[dash + 3..] == tail[3..]
  {
    var id, dash := head + sym + tail, 24 + |sym|;
    assert id[24..dash] == sym && id[dash] == '-';
    forall i | 24 <= i < dash
      ensures id[i] != '-'
    {
      assert id[i] == sym[i - 24];
    }
    DashFromFinds(id, 24, dash);
  }

  /** Different sequence numbers below 10^11 give different ids, whatever the symbols and sides. */
  lemma IdsAreDistinct(date: Date, digest: string, a: (Symbol, Side, nat), b: (Symbol, Side, nat))
    requires date.Valid() && IsDigest(digest)
    requires a.2 < 100_000_000_000 && b.2 < 100_000_000_000 && a.2 != b.2
    ensures ClientIdFor(date, digest, a.0, a.1, a.2) != ClientIdFor(date, digest, b.0, b.1, b.2)
  {
    IdsFit(date, digest, a.0, a.1, a.2);
    IdsFit(date, digest, b.0, b.1, b.2);
    DecodeInvertsEncode(date, digest, a.0, a.1, a.2);
    DecodeInvertsEncode(date, digest, b.0, b.1, b.2);
  }

  /** At 10^11 the guarantee ends: with a full symbol, numbers that differ only in a twelfth digit share an id. */
  lemma LongSequencesCollide(date: Date, digest: string, m: nat, c: Digit, d: Digit)
    requires date.Valid() && IsDigest(digest)
    requires 10_000_000_000 <= m < 100_000_000_000
    ensures ClientIdFor(date, digest, "ABCDEFGHIJ", Buy, 10 * m + c) == ClientIdFor(date, digest, "ABCDEFGHIJ", Buy, 10 * m + d)
  {
    LastDigitIsCut(date, digest, m, c);
    LastDigitIsCut(date, digest, m, d);
  }

  lemma LastDigitIsCut(date: Date, digest: string, m: nat, d: Digit)
    requires date.Valid() && IsDigest(digest)
    requires 10_000_000_000 <= m < 100_000_000_000
    ensures ClientIdFor(date, digest, "ABCDEFGHIJ", Buy, 10 * m + d) ==
              Head(date, digest) + "ABCDEFGHIJ" + ['-', 'b', '-'] + Text(ToDigits(m))
  {
    ElevenDigits(m);
    TenLetters();
    HeadShape(date, digest);
    CutAfterEleven(Head(date, digest) + "ABCDEFGHIJ" + ['-', 'b', '-'], m, d);
    Regroup(Head(date, digest), "ABCDEFGHIJ", ['-', 'b', '-'], Padded(10 * m + d, 2));
  }

  lemma Regroup(a: string, b: string, c: string, d: string)
    ensures a + b + (c + d) == a + b + c + d
  {
  }

  lemma ElevenDigits(m: nat)
    requires 10_000_000_000 <= m < 100_000_000_000
    ensures |ToDigits(m)| == 11
  {
    Powers();
    DigitCount(m, 11);
    DigitCount(m, 10);
  }

  lemma CutAfterEleven(front: string, m: nat, d: Digit)
    requires |front| == 37 && |ToDigits(m)| == 11 && m > 0
    ensures |front + Padded(10 * m + d, 2)| == 49
    ensures (front + Padded(10 * m + d, 2))[..48] == front + Text(ToDigits(m))
  {
    DigitsAppend(m, d);
    assert Text(ToDigits(m) + [d]) == Text(ToDigits(m)) + [DigitChar(d)];
  }

  lemma TenLetters()
    ensures ShortSymbol("ABCDEFGHIJ") == "ABCDEFGHIJ"
  {
    ShortSymbolKeeps("ABCDEFGHIJ");
  }

  lemma ShortSymbolKeeps(s: string)
    requires 0 < |s| <= 10 && forall i :: 0 <= i < |s| ==> IsSymbolChar(s[i])
    ensures ShortSymbol(s) == s
  {
    FilterKeepsAll(s);
  }

  lemma {:induction false} FilterKeepsAll(s: string)
    requires forall i :: 0 <= i < |s| ==> IsSymbolChar(s[i])
    ensures Filter(s) == s
  {
    if s != [] {
      FilterKeepsAll(s[1..]);
    }
  }
}
