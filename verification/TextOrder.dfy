/** Code-point order of texts and sorted enumerations of sets of texts. */
module TextOrder {

  predicate Less(a: string, b: string) {
    if b == [] then false
    else if a == [] then true
    else if a[0] != b[0] then a[0] < b[0]
    else Less(a[1..], b[1..])
  }

  lemma {:induction false} Trichotomy(a: string, b: string)
    ensures a == b || Less(a, b) || Less(b, a)
    ensures !(Less(a, b) && Less(b, a)) && !Less(a, a)
  {
    if a != [] && b != [] {
      Trichotomy(a[1..], b[1..]);
      assert a == [a[0]] + a[1..] && b == [b[0]] + b[1..];
    }
    if a != [] {
      Trichotomy(a[1..], a[1..]);
    }
  }

  lemma {:induction false} Transitive(a: string, b: string, c: string)
    requires Less(a, b) && Less(b, c)
    ensures Less(a, c)
  {
    if a != [] && b != [] && c != [] && a[0] == b[0] == c[0] {
      Transitive(a[1..], b[1..], c[1..]);
    }
  }

  ghost predicate Sorted(xs: seq<string>) {
    forall i, j :: 0 <= i < j < |xs| ==> Less(xs[i], xs[j])
  }

  predicate Least(m: string, s: set<string>) {
    m in s && forall x :: x in s ==> x == m || Less(m, x)
  }

  lemma {:induction false} LeastExists(s: set<string>)
    requires s != {}
    ensures exists m :: Least(m, s)
    decreases |s|
  {
    var x :| x in s;
    var rest := s - {x};
    if rest == {} {
      assert s == {x};
      assert Least(x, s);
    } else {
      LeastExists(rest);
      var m :| Least(m, rest);
      Trichotomy(x, m);
      var least := if Less(x, m) then x else m;
      forall y | y in s
        ensures y == least || Less(least, y)
      {
        if y != x && y != m && Less(x, m) {
          Transitive(x, m, y);
        }
      }
      assert Least(least, s);
    }
  }

  lemma LeastIsUnique(s: set<string>)
    ensures forall a, b :: Least(a, s) && Least(b, s) ==> a == b
  {
    forall a, b | Least(a, s) && Least(b, s)
      ensures a == b
    {
      Trichotomy(a, b);
    }
  }

  /** The elements of a set in ascending order. */
  function SortedSeq(s: set<string>): (xs: seq<string>)
    ensures forall x :: x in xs <==> x in s
    ensures Sorted(xs)
    ensures |xs| == |s|
    decreases |s|
  {
    if s == {} then []
    else
      LeastExists(s);
      LeastIsUnique(s);
      var m :| Least(m, s);
      assert |s - {m}| < |s|;
      var rest := SortedSeq(s - {m});
      [m] + rest
  }

  lemma SortedIsDistinct(xs: seq<string>)
    requires Sorted(xs)
    ensures forall i, j :: 0 <= i < j < |xs| ==> xs[i] != xs[j]
  {
    forall i, j | 0 <= i < j < |xs|
      ensures xs[i] != xs[j]
    {
      Trichotomy(xs[i], xs[j]);
    }
  }

  /** A sorted enumeration is determined by what it enumerates. */
  lemma {:induction false} SortedIsUnique(xs: seq<string>, ys: seq<string>)
    requires Sorted(xs) && Sorted(ys)
    requires forall x :: x in xs <==> x in ys
    ensures xs == ys
    decreases |xs|
  {
    if xs == [] {
      EmptySameElements(xs, ys);
    } else {
      assert xs[0] in ys && ys != [] && ys[0] in xs;
      HeadsAgree(xs, ys);
      SortedIsDistinct(xs);
      SortedIsDistinct(ys);
      assert xs == [xs[0]] + xs[1..] && ys == [ys[0]] + ys[1..];
      forall x
        ensures x in xs[1..] <==> x in ys[1..]
      {
        assert x in xs <==> x in ys;
      }
      SortedIsUnique(xs[1..], ys[1..]);
    }
  }

  lemma EmptySameElements(xs: seq<string>, ys: seq<string>)
    requires forall x :: x in xs <==> x in ys
    ensures |xs| == 0 ==> |ys| == 0
  {
    if |ys| > 0 {
      assert ys[0] in xs;
    }
  }

  lemma HeadsAgree(xs: seq<string>, ys: seq<string>)
    requires Sorted(xs) && Sorted(ys) && xs != [] && ys != []
    requires xs[0] in ys && ys[0] in xs
    ensures xs[0] == ys[0]
  {
    var i :| 0 <= i < |ys| && ys[i] == xs[0];
    var j :| 0 <= j < |xs| && xs[j] == ys[0];
    if i > 0 && j > 0 {
      Trichotomy(xs[0], ys[0]);
    }
  }
}
