/** Small value types shared by every module of the model. */
module Prelude {

  datatype Option<+T> = None | Some(value: T) {
    function GetOr(default: T): T {
      match this
      case Some(v) => v
      case None => default
    }
  }

  datatype Result<+T, +E> = Ok(value: T) | Err(error: E)

  function Min(a: real, b: real): real { if a <= b then a else b }

  function Max(a: real, b: real): real { if a >= b then a else b }

  function Abs(a: real): real { if a < 0.0 then -a else a }

  /** A product kept under a name, so that proofs see products only through the laws they ask for. */
  function Times(a: real, b: real): real { a * b }

  lemma OccursTwice<T>(xs: seq<T>, i: nat, j: nat)
    requires i < j < |xs| && xs[i] == xs[j]
    ensures multiset(xs)[xs[i]] >= 2
  {
    assert xs == xs[..j] + xs[j..];
    assert xs[i] == xs[..j][i] && xs[j] == xs[j..][0];
    assert xs[i] in multiset(xs[..j]) && xs[i] in multiset(xs[j..]);
  }

  function Iterate<T>(step: T -> T, x: T, n: nat): T {
    if n == 0 then x else Iterate(step, step(x), n - 1)
  }

  /** A step that uses up part of a bound wherever it is not done gets done within the bound. */
  lemma {:induction false} Descends<T(!new)>(step: T -> T, within: (T, nat) -> bool, done: T -> bool, x: T, bound: nat) returns (n: nat)
    requires within(x, bound)
    requires forall y: T, b: nat :: within(y, b) && !done(y) ==> b > 0 && within(step(y), b - 1)
    ensures n <= bound && done(Iterate(step, x, n))
    decreases bound
  {
    if done(x) {
      n := 0;
    } else {
      var m := Descends(step, within, done, step(x), bound - 1);
      n := m + 1;
    }
  }
}
