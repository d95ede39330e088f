/** The normalizer as the source runs it, one budget object shared by the whole walk. */
module HashNormalizer {
  import opened Prelude
  import opened TextOrder
  import opened HashValues

  // ---------------------------------------------------------------- budgets along a walk

  lemma {:induction false} SumAtLeast(costs: seq<Cost>, i: nat)
    requires i <= |costs|
    ensures Sum(costs[..i]).nodes <= Sum(costs).nodes && Sum(costs[..i]).text <= Sum(costs).text
    ensures Sum(costs[..i]).depth <= Sum(costs).depth && (Sum(costs).ok ==> Sum(costs[..i]).ok)
    decreases |costs|
  {
    if i == |costs| {
      assert costs[..i] == costs;
    } else {
      var n := |costs| - 1;
      SumAtLeast(costs[..n], i);
      assert costs[..n][..i] == costs[..i];
    }
  }

  /** One more part fits exactly when it fits on top of the parts before it. */
  lemma NextFits(costs: seq<Cost>, i: nat, depth: nat, nodes: nat, text: nat)
    requires i < |costs|
    ensures FitsOn(Sum(costs[..i + 1]), depth, nodes, text) <==>
              FitsOn(Sum(costs[..i]), depth, nodes, text)
              && FitsOn(costs[i], depth, nodes + Sum(costs[..i]).nodes, text + Sum(costs[..i]).text)
    ensures Sum(costs[..i + 1]) == Both(Sum(costs[..i]), costs[i])
  {
    assert costs[..i + 1][..i] == costs[..i];
  }

  /** If some first parts do not fit, the whole does not. */
  lemma WholeFitsLess(costs: seq<Cost>, i: nat, depth: nat, nodes: nat, text: nat)
    requires i <= |costs|
    ensures FitsOn(Sum(costs), depth, nodes, text) ==> FitsOn(Sum(costs[..i]), depth, nodes, text)
  {
    SumAtLeast(costs, i);
  }

  // ---------------------------------------------------------------- the walk

  /**
   Succeeds exactly when depth, total nodes, total text, every string, every integer and every decimal
   are within their limits; on success the budget has grown by exactly the value's totals.
   */
  method Normalize(v: Value, depth: nat, budget: FrozenHashBudget) returns (r: Option<Norm>)
    requires WellFormed(v)
    requires budget.nodes <= MAX_NODES && budget.textBytes <= MAX_TEXT_BYTES
    modifies budget
    ensures r.Some? <==> FitsOn(CostOf(v), depth, old(budget.nodes), old(budget.textBytes))
    ensures r.Some? ==> r.value == Rendered(v)
    ensures r.Some? ==> budget.nodes == old(budget.nodes) + CostOf(v).nodes
    ensures r.Some? ==> budget.textBytes == old(budget.textBytes) + CostOf(v).text
    decreases v, 2
  {
    if v.Tuple? {
      r := NormalizeTuple(v, depth, budget);
      return;
    }
    if v.Dict? {
      DictFits(v, depth, budget.nodes, budget.textBytes);
      r := NormalizeDict(v, depth, budget);
      return;
    }
    var counted := budget.ConsumeNode(depth);
    if !counted {
      return None;
    }
    match v
    case Null =>
      r := Some(NNull);
    case Int(n) =>
      r := if MIN_INT <= n <= MAX_INT then Some(NInt(n)) else None;
    case Str(t) =>
      var ok := budget.ConsumeString(t);
      r := if ok then Some(NText(t)) else None;
    case Dec(number) =>
      var text := DecText(number);
      if text.None? {
        return None;
      }
      var ok := budget.ConsumeText(|text.value|);
      r := if ok then Some(NText(text.value)) else None;
    case Time(rendered) =>
      if rendered.None? {
        return None;
      }
      var ok := budget.ConsumeText(|rendered.value|);
      r := if ok then Some(NText(rendered.value)) else None;
    case Broken =>
      r := None;
  }

  /** What the walk over a tuple carries after its first `i` items. */
  ghost predicate Listed(items: seq<Value>, i: nat, depth: nat, nodes: nat, text: nat, done: seq<Norm>,
                         nodesNow: nat, textNow: nat)
    requires i <= |items|
  {
    var cost := Sum(CostsOf(items)[..i]);
    && FitsOn(cost, depth, nodes, text)
    && nodesNow == nodes + cost.nodes && textNow == text + cost.text
    && done == RenderedAll(items[..i])
  }

  lemma ListedNext(items: seq<Value>, i: nat, depth: nat, nodes: nat, text: nat, done: seq<Norm>,
                   nodesNow: nat, textNow: nat)
    requires i < |items| && Listed(items, i, depth, nodes, text, done, nodesNow, textNow)
    ensures var c := CostOf(items[i]);
            && (FitsOn(c, depth, nodesNow, textNow) ==>
                  Listed(items, i + 1, depth, nodes, text, done + [Rendered(items[i])], nodesNow + c.nodes, textNow + c.text))
            && (!FitsOn(c, depth, nodesNow, textNow) ==> !FitsOn(Sum(CostsOf(items)), depth, nodes, text))
  {
    NextFits(CostsOf(items), i, depth, nodes, text);
    WholeFitsLess(CostsOf(items), i + 1, depth, nodes, text);
    assert items[..i + 1][..i] == items[..i];
  }

  lemma ListedAll(items: seq<Value>, depth: nat, nodes: nat, text: nat, done: seq<Norm>, nodesNow: nat, textNow: nat)
    requires Listed(items, |items|, depth, nodes, text, done, nodesNow, textNow)
    ensures var cost := Sum(CostsOf(items));
            && FitsOn(cost, depth, nodes, text)
            && nodesNow == nodes + cost.nodes && textNow == text + cost.text
            && done == RenderedAll(items)
  {
    assert CostsOf(items)[..|items|] == CostsOf(items) && items[..|items|] == items;
  }

  /** A tuple fits when it is itself a node within limits and its items fit one level down. */
  lemma TupleFits(items: seq<Value>, depth: nat, nodes: nat, text: nat)
    ensures FitsOn(CostOf(Tuple(items)), depth, nodes, text) <==>
              depth <= MAX_DEPTH && nodes + 1 <= MAX_NODES && FitsOn(Sum(CostsOf(items)), depth + 1, nodes + 1, text)
    ensures CostOf(Tuple(items)).nodes == 1 + Sum(CostsOf(items)).nodes && CostOf(Tuple(items)).text == Sum(CostsOf(items)).text
  {
    SumDepth(CostsOf(items));
  }

  method NormalizeTuple(v: Value, depth: nat, budget: FrozenHashBudget) returns (r: Option<Norm>)
    requires v.Tuple? && WellFormed(v)
    requires budget.nodes <= MAX_NODES && budget.textBytes <= MAX_TEXT_BYTES
    modifies budget
    ensures r.Some? <==> FitsOn(CostOf(v), depth, old(budget.nodes), old(budget.textBytes))
    ensures r.Some? ==> r.value == Rendered(v)
    ensures r.Some? ==> budget.nodes == old(budget.nodes) + CostOf(v).nodes
    ensures r.Some? ==> budget.textBytes == old(budget.textBytes) + CostOf(v).text
    decreases v, 1
  {
    ghost var nodes, text := budget.nodes + 1, budget.textBytes;
    TupleFits(v.items, depth, budget.nodes, budget.textBytes);
    var counted := budget.ConsumeNode(depth);
    if !counted {
      return None;
    }
    var items: seq<Norm> := [];
    var i := 0;
    while i < |v.items|
      invariant 0 <= i <= |v.items|
      invariant Listed(v.items, i, depth + 1, nodes, text, items, budget.nodes, budget.textBytes)
    {
      ListedNext(v.items, i, depth + 1, nodes, text, items, budget.nodes, budget.textBytes);
      var item := Normalize(v.items[i], depth + 1, budget);
      if item.None? {
        return None;
      }
      items := items + [item.value];
      i := i + 1;
    }
    ListedAll(v.items, depth + 1, nodes, text, items, budget.nodes, budget.textBytes);
    r := Some(NList(items));
  }

  method ConsumeKeys(entries: seq<Entry>, budget: FrozenHashBudget) returns (ok: bool)
    requires budget.textBytes <= MAX_TEXT_BYTES
    modifies budget`textBytes
    ensures ok <==> Sum(KeyCosts(entries)).ok && old(budget.textBytes) + Sum(KeyCosts(entries)).text <= MAX_TEXT_BYTES
    ensures ok ==> budget.textBytes == old(budget.textBytes) + Sum(KeyCosts(entries)).text
  {
    ghost var costs := KeyCosts(entries);
    var i := 0;
    while i < |entries|
      invariant 0 <= i <= |entries| && |costs| == |entries|
      invariant Sum(costs[..i]).ok && budget.textBytes == old(budget.textBytes) + Sum(costs[..i]).text <= MAX_TEXT_BYTES
    {
      NextFits(costs, i, 0, 0, 0);
      SumAtLeast(costs, i + 1);
      var fits := budget.ConsumeString(entries[i].key);
      if !fits {
        return false;
      }
      i := i + 1;
    }
    assert costs[..i] == costs;
    ok := true;
  }

  /** A sum of key costs has no nodes and no depth of its own. */
  lemma {:induction false} KeySumShape(entries: seq<Entry>)
    ensures Sum(KeyCosts(entries)).nodes == 0 && Sum(KeyCosts(entries)).depth == -1
  {
    if entries != [] {
      var n := |entries| - 1;
      KeySumShape(entries[..n]);
      assert KeyCosts(entries)[..n] == KeyCosts(entries[..n]);
    }
  }

  /** A mapping is itself a node within limits, then its keys fit, then its values one level down. */
  ghost predicate FitInStages(keys: Cost, values: Cost, textKeys: bool, depth: nat, nodes: nat, text: nat) {
    && depth <= MAX_DEPTH && nodes + 1 <= MAX_NODES
    && textKeys && keys.ok && text + keys.text <= MAX_TEXT_BYTES
    && FitsOn(values, depth + 1, nodes + 1, text + keys.text)
  }

  ghost predicate DictFitsOn(v: Value, depth: nat, nodes: nat, text: nat)
    requires v.Dict?
  {
    FitInStages(Sum(KeyCosts(v.entries)), Sum(EntryCosts(v.entries)), v.textKeys, depth, nodes, text)
  }

  function DictTotal(keys: Cost, values: Cost, textKeys: bool): Cost {
    Cost(1 + values.nodes, keys.text + values.text, 1 + values.depth, textKeys && keys.ok && values.ok)
  }

  lemma StagesFitTogether(keys: Cost, values: Cost, textKeys: bool, depth: nat, nodes: nat, text: nat)
    requires values.depth >= -1
    ensures FitsOn(DictTotal(keys, values, textKeys), depth, nodes, text) <==>
              FitInStages(keys, values, textKeys, depth, nodes, text)
  {
  }

  lemma SumDepth(costs: seq<Cost>)
    ensures Sum(costs).depth >= -1
  {
    SumAtLeast(costs, 0);
  }

  lemma DictCost(v: Value)
    requires v.Dict?
    ensures CostOf(v) == DictTotal(Sum(KeyCosts(v.entries)), Sum(EntryCosts(v.entries)), v.textKeys)
    ensures Sum(EntryCosts(v.entries)).depth >= -1
  {
    KeySumShape(v.entries);
    SumDepth(EntryCosts(v.entries));
  }

  lemma DictFits(v: Value, depth: nat, nodes: nat, text: nat)
    requires v.Dict?
    ensures CostOf(v).nodes == 1 + Sum(EntryCosts(v.entries)).nodes
    ensures CostOf(v).text == Sum(KeyCosts(v.entries)).text + Sum(EntryCosts(v.entries)).text
    ensures FitsOn(CostOf(v), depth, nodes, text) <==> DictFitsOn(v, depth, nodes, text)
  {
    DictCost(v);
    StagesFitTogether(Sum(KeyCosts(v.entries)), Sum(EntryCosts(v.entries)), v.textKeys, depth, nodes, text);
  }

  /** Counts the mapping itself and then all of its keys, before any of its values. */
  method OpenDict(entries: seq<Entry>, textKeys: bool, depth: nat, budget: FrozenHashBudget) returns (ok: bool)
    requires budget.nodes <= MAX_NODES && budget.textBytes <= MAX_TEXT_BYTES
    modifies budget
    ensures ok <==> depth <= MAX_DEPTH && old(budget.nodes) + 1 <= MAX_NODES && textKeys && Sum(KeyCosts(entries)).ok
                    && old(budget.textBytes) + Sum(KeyCosts(entries)).text <= MAX_TEXT_BYTES
    ensures ok ==> budget.nodes == old(budget.nodes) + 1
    ensures ok ==> budget.textBytes == old(budget.textBytes) + Sum(KeyCosts(entries)).text
  {
    ok := budget.ConsumeNode(depth);
    if !ok || !textKeys {
      return false;
    }
    ok := ConsumeKeys(entries, budget);
  }

  method NormalizeDict(v: Value, depth: nat, budget: FrozenHashBudget) returns (r: Option<Norm>)
    requires v.Dict? && WellFormed(v)
    requires budget.nodes <= MAX_NODES && budget.textBytes <= MAX_TEXT_BYTES
    modifies budget
    ensures r.Some? <==> DictFitsOn(v, depth, old(budget.nodes), old(budget.textBytes))
    ensures r.Some? ==> r.value == NMap(RenderedEntries(v.entries))
    ensures r.Some? ==> budget.nodes == old(budget.nodes) + 1 + Sum(EntryCosts(v.entries)).nodes
    ensures r.Some? ==> budget.textBytes == old(budget.textBytes) + Sum(KeyCosts(v.entries)).text + Sum(EntryCosts(v.entries)).text
    decreases v, 1
  {
    var begun := OpenDict(v.entries, v.textKeys, depth, budget);
    if !begun {
      return None;
    }
    var entries := NormalizeEntries(v, depth + 1, budget);
    r := if entries.Some? then Some(NMap(entries.value)) else None;
  }

  lemma EntryInOrder(entries: seq<Entry>, i: nat)
    requires i < |SortedSeq(Keys(entries))|
    ensures var key := SortedSeq(Keys(entries))[i];
            && key in Keys(entries)
            && InKeyOrder(entries)[i] == entries[FindKey(entries, key)]
            && InKeyOrder(entries)[i].key == key
            && EntryCosts(InKeyOrder(entries))[i] == CostOf(entries[FindKey(entries, key)].value)
  {
    var keys := SortedSeq(Keys(entries));
    assert keys[i] in keys;
  }

  lemma RenderedNext(entries: seq<Entry>, i: nat)
    requires i < |entries|
    ensures RenderedEntries(entries[..i + 1]) == RenderedEntries(entries[..i])[entries[i].key := Rendered(entries[i].value)]
  {
    assert entries[..i + 1][..i] == entries[..i];
  }

  /** What the walk over a mapping's values carries after the first `i` keys. */
  ghost predicate Walked(sorted: seq<Entry>, i: nat, depth: nat, nodes: nat, text: nat, done: map<string, Norm>,
                         nodesNow: nat, textNow: nat)
    requires i <= |sorted|
  {
    var cost := Sum(EntryCosts(sorted)[..i]);
    && FitsOn(cost, depth, nodes, text)
    && nodesNow == nodes + cost.nodes && textNow == text + cost.text
    && done == RenderedEntries(sorted[..i])
  }

  lemma WalkedNext(sorted: seq<Entry>, i: nat, depth: nat, nodes: nat, text: nat, done: map<string, Norm>,
                   nodesNow: nat, textNow: nat)
    requires i < |sorted| && Walked(sorted, i, depth, nodes, text, done, nodesNow, textNow)
    ensures var c := CostOf(sorted[i].value);
            && (FitsOn(c, depth, nodesNow, textNow) ==>
                  Walked(sorted, i + 1, depth, nodes, text, done[sorted[i].key := Rendered(sorted[i].value)],
                         nodesNow + c.nodes, textNow + c.text))
            && (!FitsOn(c, depth, nodesNow, textNow) ==> !FitsOn(Sum(EntryCosts(sorted)), depth, nodes, text))
  {
    NextFits(EntryCosts(sorted), i, depth, nodes, text);
    WholeFitsLess(EntryCosts(sorted), i + 1, depth, nodes, text);
    RenderedNext(sorted, i);
  }

  lemma WalkedAll(sorted: seq<Entry>, depth: nat, nodes: nat, text: nat, done: map<string, Norm>, nodesNow: nat, textNow: nat)
    requires Walked(sorted, |sorted|, depth, nodes, text, done, nodesNow, textNow)
    ensures var cost := Sum(EntryCosts(sorted));
            && FitsOn(cost, depth, nodes, text)
            && nodesNow == nodes + cost.nodes && textNow == text + cost.text
            && done == RenderedEntries(sorted)
  {
    assert EntryCosts(sorted)[..|sorted|] == EntryCosts(sorted) && sorted[..|sorted|] == sorted;
  }

  lemma InOrderTotals(entries: seq<Entry>)
    requires DistinctKeys(entries)
    ensures Sum(EntryCosts(InKeyOrder(entries))) == Sum(EntryCosts(entries))
    ensures RenderedEntries(InKeyOrder(entries)) == RenderedEntries(entries)
  {
    KeyOrderCost(entries);
    KeyOrderElements(entries);
    RenderedIgnoresOrder(InKeyOrder(entries), entries);
  }

  /** The values of a mapping, visited in key order. */
  method NormalizeEntries(v: Value, depth: nat, budget: FrozenHashBudget) returns (r: Option<map<string, Norm>>)
    requires v.Dict? && WellFormed(v)
    requires budget.nodes <= MAX_NODES && budget.textBytes <= MAX_TEXT_BYTES && depth <= MAX_DEPTH + 1
    modifies budget
    ensures r.Some? <==> FitsOn(Sum(EntryCosts(v.entries)), depth, old(budget.nodes), old(budget.textBytes))
    ensures r.Some? ==> r.value == RenderedEntries(v.entries)
    ensures r.Some? ==> budget.nodes == old(budget.nodes) + Sum(EntryCosts(v.entries)).nodes
    ensures r.Some? ==> budget.textBytes == old(budget.textBytes) + Sum(EntryCosts(v.entries)).text
    decreases v, 0
  {
    var keys := SortedSeq(Keys(v.entries));
    ghost var sorted := InKeyOrder(v.entries);
    ghost var nodes, text := budget.nodes, budget.textBytes;
    InOrderTotals(v.entries);
    var done: map<string, Norm> := map[];
    var i := 0;
    while i < |keys|
      invariant 0 <= i <= |keys| == |sorted|
      invariant Walked(sorted, i, depth, nodes, text, done, budget.nodes, budget.textBytes)
    {
      EntryInOrder(v.entries, i);
      WalkedNext(sorted, i, depth, nodes, text, done, budget.nodes, budget.textBytes);
      var at := FindKey(v.entries, keys[i]);
      var entry := v.entries[at];
      assert sorted[i] == entry && entry.key == keys[i] && WellFormed(entry.value);
      var item := Normalize(entry.value, depth, budget);
      if item.None? {
        return None;
      }
      done := done[keys[i] := item.value];
      i := i + 1;
    }
    WalkedAll(sorted, depth, nodes, text, done, budget.nodes, budget.textBytes);
    r := Some(done);
  }

  // ---------------------------------------------------------------- insertion order is forgotten

  /** The value with every mapping, at every level, listed in key order. */
  function Canon(v: Value): Value
    decreases v
  {
    match v
    case Tuple(items) => Tuple(CanonAll(items))
    case Dict(entries, textKeys) => Dict(InKeyOrder(CanonEntries(entries)), textKeys)
    case _ => v
  }

  function CanonAll(items: seq<Value>): (r: seq<Value>)
    ensures |r| == |items|
    decreases items
  {
    seq(|items|, i requires 0 <= i < |items| => Canon(items[i]))
  }

  function CanonEntries(entries: seq<Entry>): (r: seq<Entry>)
    ensures |r| == |entries|
    ensures forall i :: 0 <= i < |r| ==> r[i].key == entries[i].key
    decreases entries
  {
    seq(|entries|, i requires 0 <= i < |entries| => Entry(entries[i].key, Canon(entries[i].value)))
  }

  /** Listing mappings in key order changes neither what a value costs nor what it becomes. */
  lemma {:induction false} CanonIsEquivalent(v: Value)
    requires WellFormed(v)
    ensures CostOf(Canon(v)) == CostOf(v) && Rendered(Canon(v)) == Rendered(v)
    decreases v
  {
    match v
    case Tuple(items) =>
      forall i | 0 <= i < |items|
        ensures CostOf(CanonAll(items)[i]) == CostOf(items[i]) && Rendered(CanonAll(items)[i]) == Rendered(items[i])
      {
        CanonIsEquivalent(items[i]);
      }
      assert CostsOf(CanonAll(items)) == CostsOf(items);
      SameRenderings(CanonAll(items), items);
    case Dict(entries, textKeys) =>
      var canon := CanonEntries(entries);
      forall i | 0 <= i < |entries|
        ensures CostOf(canon[i].value) == CostOf(entries[i].value) && Rendered(canon[i].value) == Rendered(entries[i].value)
      {
        CanonIsEquivalent(entries[i].value);
      }
      assert EntryCosts(canon) == EntryCosts(entries);
      assert KeyCosts(canon) == KeyCosts(entries);
      KeyOrderCost(canon);
      KeyOrderElements(canon);
      RenderedIgnoresOrder(InKeyOrder(canon), canon);
      SameEntryRenderings(canon, entries);
    case _ =>
  }

  lemma {:induction false} SameRenderings(a: seq<Value>, b: seq<Value>)
    requires |a| == |b| && forall i :: 0 <= i < |a| ==> Rendered(a[i]) == Rendered(b[i])
    ensures RenderedAll(a) == RenderedAll(b)
  {
    if a != [] {
      SameRenderings(a[..|a| - 1], b[..|b| - 1]);
    }
  }

  lemma {:induction false} SameEntryRenderings(a: seq<Entry>, b: seq<Entry>)
    requires |a| == |b|
    requires forall i :: 0 <= i < |a| ==> a[i].key == b[i].key && Rendered(a[i].value) == Rendered(b[i].value)
    ensures RenderedEntries(a) == RenderedEntries(b)
  {
    if a != [] {
      SameEntryRenderings(a[..|a| - 1], b[..|b| - 1]);
    }
  }

  /** Two listings of the same entries have the same key-ordered form. */
  lemma CanonForgetsOrder(a: seq<Entry>, b: seq<Entry>, textKeys: bool)
    requires DistinctKeys(a) && DistinctKeys(b) && forall e :: e in a <==> e in b
    ensures Canon(Dict(a, textKeys)) == Canon(Dict(b, textKeys))
  {
    var x, y := CanonEntries(a), CanonEntries(b);
    forall e
      ensures e in x <==> e in y
    {
      CanonMember(a, b, e);
      CanonMember(b, a, e);
    }
    KeyOrderIsUnique(x, y);
  }

  lemma CanonMember(a: seq<Entry>, b: seq<Entry>, e: Entry)
    requires forall e :: e in a <==> e in b
    ensures e in CanonEntries(a) ==> e in CanonEntries(b)
  {
    if e in CanonEntries(a) {
      var i :| 0 <= i < |a| && CanonEntries(a)[i] == e;
      assert a[i] in b;
      var j :| 0 <= j < |b| && b[j] == a[i];
      assert CanonEntries(b)[j] == e;
    }
  }

  lemma KeyOrderIsUnique(x: seq<Entry>, y: seq<Entry>)
    requires DistinctKeys(x) && DistinctKeys(y) && forall e :: e in x <==> e in y
    ensures InKeyOrder(x) == InKeyOrder(y)
  {
    assert Keys(x) == Keys(y);
    var keys := SortedSeq(Keys(x));
    forall k | 0 <= k < |keys|
      ensures InKeyOrder(x)[k] == InKeyOrder(y)[k]
    {
      assert keys[k] in keys;
      var i := FindKey(x, keys[k]);
      assert x[i] in y;
      var j :| 0 <= j < |y| && y[j] == x[i];
      FindKeyIsUnique(y, j);
    }
  }

  /** So the verdict, the budget totals and the result are the same however the mappings were filled. */
  lemma InsertionOrderIsIrrelevant(v: Value, w: Value, depth: nat, nodes: nat, text: nat)
    requires WellFormed(v) && WellFormed(w) && Canon(v) == Canon(w)
    ensures FitsOn(CostOf(v), depth, nodes, text) <==> FitsOn(CostOf(w), depth, nodes, text)
    ensures CostOf(v) == CostOf(w) && Rendered(v) == Rendered(w)
  {
    CanonIsEquivalent(v);
    CanonIsEquivalent(w);
  }
}
