/** Normalization of canonical hash input under depth, node and text budgets. */
module HashValues {
  import opened Prelude
  import opened DecimalText
  import opened TextOrder

  const MAX_DEPTH := 32
  const MAX_NODES := 4096
  const MAX_STRING_BYTES := 65_536
  const MAX_TEXT_BYTES := 1_048_576
  const MAX_INT := 0x7fff_ffff_ffff_ffff
  const MIN_INT := -0x8000_0000_0000_0000

  /**
   What the normalizer may be handed. `Broken` stands for text that has no UTF-8 form and for every
   unsupported type; a time carries its rendering, if it has one. A mapping lists its entries in
   insertion order; `textKeys` is false when some key is not encodable text.
   */
  datatype Value =
    | Null
    | Int(n: int)
    | Str(text: string)
    | Dec(number: Numeric)
    | Time(rendered: Option<string>)
    | Tuple(items: seq<Value>)
    | Dict(entries: seq<Entry>, textKeys: bool)
    | Broken

  datatype Entry = Entry(key: string, value: Value)

  /** The normalized form: scalars, lists and string-keyed mappings. */
  datatype Norm =
    | NNull
    | NInt(n: int)
    | NText(text: string)
    | NList(items: seq<Norm>)
    | NMap(entries: map<string, Norm>)

  ghost predicate DistinctKeys(entries: seq<Entry>) {
    forall i, j :: 0 <= i < j < |entries| ==> entries[i].key != entries[j].key
  }

  /** Decimals as the library builds them, mapping keys unique at every level. */
  ghost predicate WellFormed(v: Value) {
    match v
    case Dec(number) => number.Finite? ==> number.decimal.Valid()
    case Tuple(items) => forall i :: 0 <= i < |items| ==> WellFormed(items[i])
    case Dict(entries, _) => DistinctKeys(entries) && forall i :: 0 <= i < |entries| ==> WellFormed(entries[i].value)
    case _ => true
  }

  // ---------------------------------------------------------------- what a value costs

  /** Nodes and text bytes add up, nesting takes the deepest, and every part must be acceptable in itself. */
  datatype Cost = Cost(nodes: nat, text: nat, depth: int, ok: bool)

  const NO_COST := Cost(0, 0, -1, true)

  function Both(a: Cost, b: Cost): Cost {
    Cost(a.nodes + b.nodes, a.text + b.text, if a.depth >= b.depth then a.depth else b.depth, a.ok && b.ok)
  }

  /** A container is one node, one level above its contents. */
  function Wrapped(inner: Cost): Cost { Cost(inner.nodes + 1, inner.text, inner.depth + 1, inner.ok) }

  function Leaf(text: nat, ok: bool): Cost { Cost(1, text, 0, ok) }

  function Utf8Length(c: char): nat {
    var n := c as int;
    if n < 0x80 then 1 else if n < 0x800 then 2 else if n < 0x1_0000 then 3 else 4
  }

  /** How many bits of a code point a UTF-8 form of this many bytes carries. */
  function PayloadBits(bytes: nat): nat
    requires 1 <= bytes <= 4
  {
    if bytes == 1 then 7 else 5 * bytes + 1
  }

  function Pow2(n: nat): nat { if n == 0 then 1 else 2 * Pow2(n - 1) }

  lemma Powers2()
    ensures Pow2(7) == 0x80 && Pow2(11) == 0x800 && Pow2(16) == 0x1_0000 && Pow2(21) == 0x20_0000
  {
    assert Pow2(7) == 128;
    assert Pow2(11) == 16 * Pow2(7);
    assert Pow2(16) == 32 * Pow2(11);
    assert Pow2(21) == 32 * Pow2(16);
  }

  /** Integers are those of 64 bits. */
  lemma IntLimits()
    ensures MAX_INT + 1 == Pow2(63) && MIN_INT + Pow2(63) == 0
  {
    Powers2();
    assert Pow2(42) == 0x20_0000 * Pow2(21) by { PowersMultiply(21, 21); }
    PowersMultiply(21, 42);
  }

  lemma {:induction false} PowersMultiply(a: nat, b: nat)
    ensures Pow2(a + b) == Pow2(a) * Pow2(b)
  {
    if a > 0 {
      PowersMultiply(a - 1, b);
    }
  }

  /** A code point takes the fewest bytes whose payload can carry it. */
  lemma Utf8LengthIsLeast(c: char)
    ensures 1 <= Utf8Length(c) <= 4 && c as int < Pow2(PayloadBits(Utf8Length(c)))
    ensures forall k: nat :: 1 <= k < Utf8Length(c) ==> Pow2(PayloadBits(k)) <= c as int
  {
    Powers2();
    forall k: nat | 1 <= k < Utf8Length(c)
      ensures Pow2(PayloadBits(k)) <= c as int
    {
      assert k == 1 || k == 2 || k == 3;
    }
  }

  function Utf8Bytes(t: string): nat {
    if t == [] then 0 else Utf8Bytes(t[..|t| - 1]) + Utf8Length(t[|t| - 1])
  }

  predicate StringFits(t: string) { |t| <= MAX_STRING_BYTES && Utf8Bytes(t) <= MAX_STRING_BYTES }

  function DecText(number: Numeric): Option<string> {
    if number.Finite? && !number.decimal.Valid() then None else CanonicalText(number)
  }

  function CostOf(v: Value): Cost
    decreases v
  {
    match v
    case Null => Leaf(0, true)
    case Int(n) => Leaf(0, MIN_INT <= n <= MAX_INT)
    case Str(t) => Leaf(Utf8Bytes(t), StringFits(t))
    case Dec(number) => Leaf(|DecText(number).GetOr("")|, DecText(number).Some?)
    case Time(rendered) => Leaf(|rendered.GetOr("")|, rendered.Some?)
    case Tuple(items) => Wrapped(Sum(CostsOf(items)))
    case Dict(entries, textKeys) => Wrapped(Both(KeysCost(entries, textKeys), Sum(EntryCosts(entries))))
    case Broken => Leaf(0, false)
  }

  function CostsOf(items: seq<Value>): (costs: seq<Cost>)
    ensures |costs| == |items|
    decreases items
  {
    seq(|items|, i requires 0 <= i < |items| => CostOf(items[i]))
  }

  function EntryCosts(entries: seq<Entry>): (costs: seq<Cost>)
    ensures |costs| == |entries|
    decreases entries
  {
    seq(|entries|, i requires 0 <= i < |entries| => CostOf(entries[i].value))
  }

  function Sum(costs: seq<Cost>): Cost {
    if costs == [] then NO_COST else Both(Sum(costs[..|costs| - 1]), costs[|costs| - 1])
  }

  function KeyCost(key: string): Cost { Cost(0, Utf8Bytes(key), -1, StringFits(key)) }

  function KeyCosts(entries: seq<Entry>): (costs: seq<Cost>)
    ensures |costs| == |entries|
  {
    seq(|entries|, i requires 0 <= i < |entries| => KeyCost(entries[i].key))
  }

  function KeysCost(entries: seq<Entry>, textKeys: bool): Cost {
    Both(NO_COST.(ok := textKeys), Sum(KeyCosts(entries)))
  }

  // ---------------------------------------------------------------- what a value becomes

  function Rendered(v: Value): Norm
    decreases v
  {
    match v
    case Null => NNull
    case Int(n) => NInt(n)
    case Str(t) => NText(t)
    case Dec(number) => NText(DecText(number).GetOr(""))
    case Time(rendered) => NText(rendered.GetOr(""))
    case Tuple(items) => NList(RenderedAll(items))
    case Dict(entries, _) => NMap(RenderedEntries(entries))
    case Broken => NNull
  }

  function RenderedAll(items: seq<Value>): seq<Norm>
    decreases items
  {
    if items == [] then [] else RenderedAll(items[..|items| - 1]) + [Rendered(items[|items| - 1])]
  }

  function RenderedEntries(entries: seq<Entry>): map<string, Norm>
    decreases entries
  {
    if entries == [] then map[]
    else
      var last := entries[|entries| - 1];
      RenderedEntries(entries[..|entries| - 1])[last.key := Rendered(last.value)]
  }

  // ---------------------------------------------------------------- the budget object

  class FrozenHashBudget {
    var nodes: nat
    var textBytes: nat

    constructor ()
      ensures nodes == 0 && textBytes == 0
    {
      nodes, textBytes := 0, 0;
    }

    method ConsumeNode(depth: nat) returns (ok: bool)
      modifies this`nodes
      ensures ok ==> nodes == old(nodes) + 1
      ensures ok <==> depth <= 32 && old(nodes) + 1 <= 4096
    {
      if depth > MAX_DEPTH {
        return false;
      }
      nodes := nodes + 1;
      ok := nodes <= MAX_NODES;
    }

    method ConsumeText(size: nat) returns (ok: bool)
      modifies this`textBytes
      ensures textBytes == old(textBytes) + size
      ensures ok <==> textBytes <= 1024 * 1024
    {
      textBytes := textBytes + size;
      ok := textBytes <= MAX_TEXT_BYTES;
    }

    method ConsumeString(t: string) returns (ok: bool)
      modifies this`textBytes
      ensures ok ==> textBytes == old(textBytes) + Utf8Bytes(t)
      ensures ok <==> |t| <= 65536 && Utf8Bytes(t) <= 64 * 1024 && old(textBytes) + Utf8Bytes(t) <= 1024 * 1024
    {
      if |t| > MAX_STRING_BYTES || Utf8Bytes(t) > MAX_STRING_BYTES {
        return false;
      }
      ok := ConsumeText(Utf8Bytes(t));
    }
  }

  /** A cost fits on top of what a budget has already used, at a nesting depth. */
  predicate FitsOn(c: Cost, depth: nat, nodes: nat, text: nat) {
    c.ok && depth + c.depth <= MAX_DEPTH && nodes + c.nodes <= MAX_NODES && text + c.text <= MAX_TEXT_BYTES
  }

  // ---------------------------------------------------------------- order does not matter

  lemma BothSwaps(a: Cost, b: Cost, c: Cost)
    ensures Both(Both(a, b), c) == Both(Both(a, c), b)
    ensures Both(a, Both(b, c)) == Both(Both(a, b), c)
  {
  }

  function Without<T>(xs: seq<T>, i: nat): seq<T>
    requires i < |xs|
  {
    xs[..i] + xs[i + 1..]
  }

  /** Taking any one part out of a sum. */
  lemma {:induction false} TakeOut(costs: seq<Cost>, i: nat)
    requires i < |costs|
    ensures Sum(costs) == Both(Sum(Without(costs, i)), costs[i])
  {
    var n := |costs| - 1;
    if i == n {
      assert Without(costs, i) == costs[..n];
    } else {
      TakeOut(costs[..n], i);
      assert Without(costs, i)[..n - 1] == Without(costs[..n], i);
      BothSwaps(Sum(Without(costs[..n], i)), costs[i], costs[n]);
    }
  }

  lemma WithoutAt<T>(xs: seq<T>, i: nat, k: nat)
    requires i < |xs| && k < |xs| - 1
    ensures Without(xs, i)[k] == xs[if k < i then k else k + 1]
  {
  }

  lemma EntryCostsWithout(entries: seq<Entry>, i: nat)
    requires i < |entries|
    ensures EntryCosts(Without(entries, i)) == Without(EntryCosts(entries), i)
  {
    var costs := EntryCosts(entries);
    forall k | 0 <= k < |entries| - 1
      ensures EntryCosts(Without(entries, i))[k] == Without(costs, i)[k]
    {
      WithoutAt(entries, i, k);
      WithoutAt(costs, i, k);
    }
  }

  lemma KeyCostsWithout(entries: seq<Entry>, i: nat)
    requires i < |entries|
    ensures KeyCosts(Without(entries, i)) == Without(KeyCosts(entries), i)
  {
    var costs := KeyCosts(entries);
    forall k | 0 <= k < |entries| - 1
      ensures KeyCosts(Without(entries, i))[k] == Without(costs, i)[k]
    {
      WithoutAt(entries, i, k);
      WithoutAt(costs, i, k);
    }
  }

  lemma MultisetWithout(a: seq<Entry>, i: nat)
    requires i < |a|
    ensures multiset(Without(a, i)) == multiset(a) - multiset{a[i]}
  {
    assert a == a[..i] + [a[i]] + a[i + 1..];
  }

  /** Costs of entries do not depend on their order. */
  lemma {:induction false} CostIgnoresOrder(a: seq<Entry>, b: seq<Entry>)
    requires multiset(a) == multiset(b)
    ensures Sum(EntryCosts(a)) == Sum(EntryCosts(b))
    ensures Sum(KeyCosts(a)) == Sum(KeyCosts(b))
    decreases |a|
  {
    if a == [] {
      assert |multiset(b)| == 0;
    } else {
      var n := |a| - 1;
      assert a[n] in multiset(a) && a[n] in multiset(b);
      var i :| 0 <= i < |b| && b[i] == a[n];
      EntryCostsWithout(a, n);
      EntryCostsWithout(b, i);
      KeyCostsWithout(a, n);
      KeyCostsWithout(b, i);
      TakeOut(EntryCosts(a), n);
      TakeOut(EntryCosts(b), i);
      TakeOut(KeyCosts(a), n);
      TakeOut(KeyCosts(b), i);
      MultisetWithout(a, n);
      MultisetWithout(b, i);
      CostIgnoresOrder(Without(a, n), Without(b, i));
    }
  }

  // ---------------------------------------------------------------- entries in key order

  function Keys(entries: seq<Entry>): set<string> {
    set e | e in entries :: e.key
  }

  function FindKey(entries: seq<Entry>, key: string): (i: nat)
    requires key in Keys(entries)
    ensures i < |entries| && entries[i].key == key
  {
    if entries[|entries| - 1].key == key then |entries| - 1
    else
      assert entries == entries[..|entries| - 1] + [entries[|entries| - 1]];
      FindKey(entries[..|entries| - 1], key)
  }

  /** The entries sorted by key. */
  function InKeyOrder(entries: seq<Entry>): seq<Entry> {
    var keys := SortedSeq(Keys(entries));
    seq(|keys|, i requires 0 <= i < |keys| => assert keys[i] in keys; entries[FindKey(entries, keys[i])])
  }

  lemma FindKeyIsUnique(entries: seq<Entry>, i: nat)
    requires DistinctKeys(entries) && i < |entries|
    ensures entries[i].key in Keys(entries) && FindKey(entries, entries[i].key) == i
  {
    assert entries[i] in entries;
    var j := FindKey(entries, entries[i].key);
    assert entries[j].key == entries[i].key;
  }

  lemma KeyOrderKeys(entries: seq<Entry>)
    ensures var keys, sorted := SortedSeq(Keys(entries)), InKeyOrder(entries);
            && |sorted| == |keys|
            && forall i :: 0 <= i < |keys| ==> sorted[i].key == keys[i] && sorted[i] in entries
  {
    var keys := SortedSeq(Keys(entries));
    assert forall i :: 0 <= i < |keys| ==> keys[i] in keys;
  }

  lemma KeyOrderFinds(entries: seq<Entry>, i: nat)
    requires DistinctKeys(entries) && i < |entries|
    ensures entries[i] in InKeyOrder(entries)
  {
    var keys, sorted := SortedSeq(Keys(entries)), InKeyOrder(entries);
    FindKeyIsUnique(entries, i);
    assert entries[i].key in keys;
    var k :| 0 <= k < |keys| && keys[k] == entries[i].key;
    assert sorted[k] == entries[i];
  }

  lemma KeyOrderElements(entries: seq<Entry>)
    requires DistinctKeys(entries)
    ensures DistinctKeys(InKeyOrder(entries))
    ensures forall e :: e in InKeyOrder(entries) <==> e in entries
    ensures |InKeyOrder(entries)| == |entries|
  {
    KeyOrderKeys(entries);
    SortedIsDistinct(SortedSeq(Keys(entries)));
    forall e | e in entries
      ensures e in InKeyOrder(entries)
    {
      var i :| 0 <= i < |entries| && entries[i] == e;
      KeyOrderFinds(entries, i);
    }
    KeysCount(entries);
  }

  lemma {:induction false} KeysCount(entries: seq<Entry>)
    requires DistinctKeys(entries)
    ensures |Keys(entries)| == |entries|
  {
    if entries != [] {
      var n := |entries| - 1;
      KeysCount(entries[..n]);
      assert entries == entries[..n] + [entries[n]];
      assert Keys(entries) == Keys(entries[..n]) + {entries[n].key};
      assert entries[n].key !in Keys(entries[..n]);
    }
  }

  lemma {:induction false} DistinctSameElements(a: seq<Entry>, b: seq<Entry>)
    requires DistinctKeys(a) && DistinctKeys(b) && forall e :: e in a <==> e in b
    ensures multiset(a) == multiset(b)
  {
    forall e
      ensures multiset(a)[e] == multiset(b)[e]
    {
      AtMostOnce(a, e);
      AtMostOnce(b, e);
      assert e in a <==> multiset(a)[e] > 0;
      assert e in b <==> multiset(b)[e] > 0;
    }
  }

  lemma {:induction false} AtMostOnce(a: seq<Entry>, e: Entry)
    requires DistinctKeys(a)
    ensures multiset(a)[e] <= 1
  {
    if a != [] {
      var n := |a| - 1;
      AtMostOnce(a[..n], e);
      assert a == a[..n] + [a[n]];
      if a[n] == e {
        assert e !in a[..n];
      }
    }
  }

  lemma KeyOrderCost(entries: seq<Entry>)
    requires DistinctKeys(entries)
    ensures Sum(EntryCosts(InKeyOrder(entries))) == Sum(EntryCosts(entries))
    ensures Sum(KeyCosts(InKeyOrder(entries))) == Sum(KeyCosts(entries))
  {
    KeyOrderElements(entries);
    DistinctSameElements(InKeyOrder(entries), entries);
    CostIgnoresOrder(InKeyOrder(entries), entries);
  }

  lemma {:induction false} RenderedKeys(entries: seq<Entry>)
    ensures RenderedEntries(entries).Keys == Keys(entries)
  {
    if entries != [] {
      var n := |entries| - 1;
      RenderedKeys(entries[..n]);
      assert entries == entries[..n] + [entries[n]];
      assert Keys(entries) == Keys(entries[..n]) + {entries[n].key};
    }
  }

  lemma {:induction false} RenderedLookup(entries: seq<Entry>, i: nat)
    requires DistinctKeys(entries) && i < |entries|
    ensures entries[i].key in RenderedEntries(entries) && RenderedEntries(entries)[entries[i].key] == Rendered(entries[i].value)
  {
    var n := |entries| - 1;
    if i < n {
      RenderedLookup(entries[..n], i);
      assert entries[..n][i] == entries[i];
    }
  }

  /** What a mapping becomes does not depend on the order of its entries either. */
  lemma RenderedIgnoresOrder(a: seq<Entry>, b: seq<Entry>)
    requires DistinctKeys(a) && DistinctKeys(b) && forall e :: e in a <==> e in b
    ensures RenderedEntries(a) == RenderedEntries(b)
  {
    forall k | k in RenderedEntries(a) || k in RenderedEntries(b)
      ensures k in RenderedEntries(a) && k in RenderedEntries(b) && RenderedEntries(a)[k] == RenderedEntries(b)[k]
    {
      SameLookup(a, b, k);
      SameLookup(b, a, k);
    }
  }

  lemma SameLookup(a: seq<Entry>, b: seq<Entry>, k: string)
    requires DistinctKeys(a) && DistinctKeys(b) && forall e :: e in a <==> e in b
    ensures k in RenderedEntries(a) ==> k in RenderedEntries(b) && RenderedEntries(a)[k] == RenderedEntries(b)[k]
  {
    if k in RenderedEntries(a) {
      RenderedKeys(a);
      var i := FindKey(a, k);
      RenderedLookup(a, i);
      assert a[i] in b;
      var j :| 0 <= j < |b| && b[j] == a[i];
      RenderedLookup(b, j);
    }
  }
}
