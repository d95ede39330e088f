/** The check that no price series misses more than five sessions in a row. */
module GapCheck {
  const ALLOWED := 5

  // ---------------------------------------------------------------- the grouped computation

  /** Running count of present observations: a group starts at every present one. */
  function Groups(missing: seq<bool>): (groups: seq<nat>)
    ensures |groups| == |missing|
    decreases |missing|, 0
  {
    if missing == [] then []
    else
      var n := |missing| - 1;
      Groups(missing[..n]) + [LastGroup(missing[..n]) + if missing[n] then 0 else 1]
  }

  function LastGroup(missing: seq<bool>): nat
    decreases |missing|, 1
  {
    if missing == [] then 0 else Groups(missing)[|missing| - 1]
  }

  function Lookup(m: map<nat, nat>, g: nat): nat { if g in m then m[g] else 0 }

  /** Missing observations added up by group. */
  function GroupSums(missing: seq<bool>, groups: seq<nat>): map<nat, nat>
    requires |missing| == |groups|
  {
    if missing == [] then map[]
    else
      var n := |missing| - 1;
      var sums := GroupSums(missing[..n], groups[..n]);
      sums[groups[n] := Lookup(sums, groups[n]) + if missing[n] then 1 else 0]
  }

  function LargestUpTo(sums: map<nat, nat>, g: nat): nat {
    var here := Lookup(sums, g);
    if g == 0 then here
    else
      var below := LargestUpTo(sums, g - 1);
      if here >= below then here else below
  }

  function Longest(missing: seq<bool>): nat {
    if missing == [] then 0 else LargestUpTo(GroupSums(missing, Groups(missing)), LastGroup(missing))
  }

  /** Every required series is examined; those with a long gap are reported with its length. */
  method LongGaps(required: seq<string>, series: map<string, seq<bool>>) returns (gaps: map<string, nat>)
    requires forall t :: t in required ==> t in series
    ensures forall t :: t in gaps <==> t in required && HasRun(series[t], 6)
    ensures forall t :: t in gaps ==> t in series && HasRun(series[t], gaps[t]) && !HasRun(series[t], gaps[t] + 1)
  {
    gaps := map[];
    for i := 0 to |required|
      invariant forall t :: t in gaps <==> t in required[..i] && HasRun(series[t], ALLOWED + 1)
      invariant forall t :: t in gaps ==> t in series && HasRun(series[t], gaps[t]) && !HasRun(series[t], gaps[t] + 1)
    {
      var longest := Longest(series[required[i]]);
      LongestIsLongestRun(series[required[i]]);
      RejectsExactlyLongGaps(series[required[i]], ALLOWED + 1);
      assert required[..i + 1] == required[..i] + [required[i]];
      if longest > ALLOWED {
        gaps := gaps[required[i] := longest];
      }
    }
    assert required[..|required|] == required;
  }

  // ---------------------------------------------------------------- consecutive missing observations

  ghost predicate RunAt(missing: seq<bool>, i: int, n: nat) {
    0 <= i <= i + n <= |missing| && forall k :: i <= k < i + n ==> missing[k]
  }

  ghost predicate HasRun(missing: seq<bool>, n: nat) { exists i :: RunAt(missing, i, n) }

  /** Missing observations at the very end. */
  function Trailing(missing: seq<bool>): (n: nat)
    ensures n <= |missing|
  {
    if missing == [] || !missing[|missing| - 1] then 0 else 1 + Trailing(missing[..|missing| - 1])
  }

  lemma {:induction false} TrailingIsRun(missing: seq<bool>, n: nat)
    ensures n <= Trailing(missing) <==> n <= |missing| && RunAt(missing, |missing| - n, n)
  {
    if missing != [] && n > 0 {
      var last := |missing| - 1;
      TrailingIsRun(missing[..last], n - 1);
      if n <= |missing| {
        assert RunAt(missing, |missing| - n, n) <==> missing[last] && RunAt(missing[..last], last - (n - 1), n - 1);
      }
    }
  }

  lemma RunsGrow(missing: seq<bool>, n: nat)
    requires missing != []
    ensures HasRun(missing, n) <==> HasRun(missing[..|missing| - 1], n) || n <= Trailing(missing)
  {
    var last := |missing| - 1;
    TrailingIsRun(missing, n);
    if HasRun(missing, n) {
      var i :| RunAt(missing, i, n);
      if i + n <= last {
        assert RunAt(missing[..last], i, n);
      } else {
        assert i == |missing| - n;
      }
    }
    if HasRun(missing[..last], n) {
      var i :| RunAt(missing[..last], i, n);
      assert RunAt(missing, i, n);
    }
  }

  // ---------------------------------------------------------------- the groups follow the runs

  lemma GroupsOfPrefix(missing: seq<bool>)
    requires missing != []
    ensures Groups(missing)[..|missing| - 1] == Groups(missing[..|missing| - 1])
  {
  }

  lemma {:induction false} NoLaterGroup(missing: seq<bool>, g: nat)
    requires g > LastGroup(missing)
    ensures Lookup(GroupSums(missing, Groups(missing)), g) == 0
    decreases |missing|
  {
    if missing != [] {
      GroupsOfPrefix(missing);
      NoLaterGroup(missing[..|missing| - 1], g);
    }
  }

  /** The last group has collected exactly the missing observations at the end. */
  lemma {:induction false} LastGroupIsTrailing(missing: seq<bool>)
    ensures Lookup(GroupSums(missing, Groups(missing)), LastGroup(missing)) == Trailing(missing)
    decreases |missing|
  {
    if missing != [] {
      var before := missing[..|missing| - 1];
      GroupsOfPrefix(missing);
      LastGroupIsTrailing(before);
      NoLaterGroup(before, LastGroup(before) + 1);
    }
  }

  lemma {:induction false} LargestChangesAbove(a: map<nat, nat>, b: map<nat, nat>, g: nat)
    requires forall k :: 0 <= k <= g ==> Lookup(a, k) == Lookup(b, k)
    ensures LargestUpTo(a, g) == LargestUpTo(b, g)
  {
    if g > 0 {
      LargestChangesAbove(a, b, g - 1);
    }
  }

  /** Adding an observation touches no group but the last. */
  lemma OtherGroupsStay(missing: seq<bool>, k: nat)
    requires missing != [] && k != LastGroup(missing)
    ensures Lookup(GroupSums(missing, Groups(missing)), k)
         == Lookup(GroupSums(missing[..|missing| - 1], Groups(missing[..|missing| - 1])), k)
  {
    GroupsOfPrefix(missing);
  }

  lemma LargestBelowStays(missing: seq<bool>, g: nat)
    requires missing != [] && g < LastGroup(missing)
    ensures LargestUpTo(GroupSums(missing, Groups(missing)), g)
         == LargestUpTo(GroupSums(missing[..|missing| - 1], Groups(missing[..|missing| - 1])), g)
  {
    forall k: nat | k <= g
      ensures Lookup(GroupSums(missing, Groups(missing)), k)
           == Lookup(GroupSums(missing[..|missing| - 1], Groups(missing[..|missing| - 1])), k)
    {
      OtherGroupsStay(missing, k);
    }
    LargestChangesAbove(GroupSums(missing, Groups(missing)),
                        GroupSums(missing[..|missing| - 1], Groups(missing[..|missing| - 1])), g);
  }

  lemma LastGroupMoves(missing: seq<bool>)
    requires missing != []
    ensures LastGroup(missing) == LastGroup(missing[..|missing| - 1]) + if missing[|missing| - 1] then 0 else 1
    ensures Longest(missing[..|missing| - 1])
         == LargestUpTo(GroupSums(missing[..|missing| - 1], Groups(missing[..|missing| - 1])), LastGroup(missing[..|missing| - 1]))
  {
  }

  /** One more observation changes the longest run exactly by the run it ends. */
  lemma LongestGrows(missing: seq<bool>)
    requires missing != []
    ensures var before := Longest(missing[..|missing| - 1]);
            Longest(missing) == if Trailing(missing) >= before then Trailing(missing) else before
  {
    LastGroupMoves(missing);
    LastGroupIsTrailing(missing);
    LastGroupIsTrailing(missing[..|missing| - 1]);
    if LastGroup(missing) > 0 {
      LargestBelowStays(missing, LastGroup(missing) - 1);
    }
  }

  /** The grouped maximum is the length of the longest run of missing observations, wherever it lies. */
  lemma {:induction false} LongestIsLongestRun(missing: seq<bool>)
    ensures HasRun(missing, Longest(missing)) && !HasRun(missing, Longest(missing) + 1)
    decreases |missing|
  {
    if missing == [] {
      assert RunAt(missing, 0, 0);
    } else {
      LongestIsLongestRun(missing[..|missing| - 1]);
      LongestGrows(missing);
      var before, longest := Longest(missing[..|missing| - 1]), Longest(missing);
      RunsGrow(missing, longest);
      RunsGrow(missing, longest + 1);
      ShorterRun(missing[..|missing| - 1], before + 1, longest + 1);
    }
  }

  lemma ShorterRun(missing: seq<bool>, n: nat, m: nat)
    requires n <= m
    ensures HasRun(missing, m) ==> HasRun(missing, n)
  {
    if HasRun(missing, m) {
      var i :| RunAt(missing, i, m);
      assert RunAt(missing, i, n);
    }
  }

  /** The longest run reaches `n` exactly when some `n` consecutive observations are missing. */
  lemma RejectsExactlyLongGaps(missing: seq<bool>, n: nat)
    ensures Longest(missing) >= n <==> HasRun(missing, n)
  {
    LongestIsLongestRun(missing);
    if Longest(missing) >= n {
      ShorterRun(missing, n, Longest(missing));
    } else {
      ShorterRun(missing, Longest(missing) + 1, n);
    }
  }
}
