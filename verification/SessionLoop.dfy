/** A loop over sessions, each in two halves: decisions at the open, then the move to the close. */
module SessionLoop {
  import opened Prelude

  /** `morning` takes the state before a session to its decisions, `evening` takes those to its close. */
  datatype Engine<!T, !U, !E> = Engine(morning: (T, nat) -> Result<U, E>, evening: (U, nat) -> Result<T, E>)

  /** The decisions of session `t`, all sessions from `first` on having been run before it. */
  ghost function AtDecision<T, U, E>(g: Engine<T, U, E>, start: T, first: nat, t: nat): Result<U, E>
    requires first <= t
    decreases t, 1
  {
    var s := AtEnd(g, start, first, t);
    if s.Err? then Err(s.error) else g.morning(s.value, t)
  }

  /** The state before session `t`. */
  ghost function AtEnd<T, U, E>(g: Engine<T, U, E>, start: T, first: nat, t: nat): Result<T, E>
    requires first <= t
    decreases t, 0
  {
    if t == first then Ok(start)
    else
      var u := AtDecision(g, start, first, t - 1);
      if u.Err? then Err(u.error) else g.evening(u.value, t - 1)
  }

  /** A session that went through had a state before it and both its halves. */
  lemma BothHalves<T, U, E>(g: Engine<T, U, E>, start: T, first: nat, t: nat)
    requires first <= t && AtEnd(g, start, first, t + 1).Ok?
    ensures AtEnd(g, start, first, t).Ok?
    ensures g.morning(AtEnd(g, start, first, t).value, t).Ok?
    ensures AtEnd(g, start, first, t + 1) == g.evening(g.morning(AtEnd(g, start, first, t).value, t).value, t)
  {
    assert AtDecision(g, start, first, t).Ok?;
  }

  lemma {:induction false} FailureStays<T, U, E>(g: Engine<T, U, E>, start: T, first: nat, t: nat, last: nat)
    requires first <= t <= last && AtEnd(g, start, first, t).Err?
    ensures AtEnd(g, start, first, last) == AtEnd(g, start, first, t)
  {
    if t < last {
      FailureStays(g, start, first, t, last - 1);
    }
  }

  /** The loop itself; the first failing half ends it. */
  method Run<T, U, E>(g: Engine<T, U, E>, start: T, first: nat, last: nat) returns (r: Result<T, E>)
    requires first <= last
    ensures r == AtEnd(g, start, first, last)
  {
    var s := start;
    var t := first;
    while t < last
      invariant first <= t <= last
      invariant AtEnd(g, start, first, t) == Ok(s)
    {
      var decided := g.morning(s, t);
      if decided.Err? {
        FailureStays(g, start, first, t + 1, last);
        return Err(decided.error);
      }
      var closed := g.evening(decided.value, t);
      if closed.Err? {
        FailureStays(g, start, first, t + 1, last);
        return closed;
      }
      s := closed.value;
      t := t + 1;
    }
    r := Ok(s);
  }

  ghost predicate SameMornings<T(!new), U, E>(g: Engine<T, U, E>, h: Engine<T, U, E>, first: nat, t: nat) {
    forall s, k :: first <= k <= t ==> g.morning(s, k) == h.morning(s, k)
  }

  ghost predicate SameEvenings<T, U(!new), E>(g: Engine<T, U, E>, h: Engine<T, U, E>, first: nat, t: nat) {
    forall u, k :: first <= k < t ==> g.evening(u, k) == h.evening(u, k)
  }

  /** Engines with the same mornings through `t` and the same evenings before it cannot be told apart by then. */
  lemma {:induction false} SameRuns<T(!new), U(!new), E>(g: Engine<T, U, E>, h: Engine<T, U, E>, start: T, first: nat, t: nat)
    requires first <= t && SameMornings(g, h, first, t) && SameEvenings(g, h, first, t)
    ensures AtEnd(g, start, first, t) == AtEnd(h, start, first, t)
    ensures AtDecision(g, start, first, t) == AtDecision(h, start, first, t)
    decreases t
  {
    if t > first {
      SameRuns(g, h, start, first, t - 1);
    }
  }

  /** Whatever the halves keep holds of every state a run reaches, and no half fails if none fails on such states. */
  lemma {:induction false} RunKeeps<T(!new), U(!new), E>(g: Engine<T, U, E>, start: T, first: nat, t: nat,
                                         before: T -> bool, between: U -> bool)
    requires first <= t && before(start)
    requires forall s, k :: first <= k < t && before(s) ==> g.morning(s, k).Ok? && between(g.morning(s, k).value)
    requires forall u, k :: first <= k < t && between(u) ==> g.evening(u, k).Ok? && before(g.evening(u, k).value)
    ensures AtEnd(g, start, first, t).Ok? && before(AtEnd(g, start, first, t).value)
    decreases t
  {
    if t > first {
      RunKeeps(g, start, first, t - 1, before, between);
    }
  }

  /** What holds at the start and is handed on by every session that goes through holds as far as a run goes. */
  lemma {:induction false} RunHandsOn<T(!new), U, E>(g: Engine<T, U, E>, start: T, first: nat, t: nat, holds: (T, nat) -> bool)
    requires first <= t && holds(start, first)
    requires forall s, k :: first <= k < t && holds(s, k) && g.morning(s, k).Ok? && g.evening(g.morning(s, k).value, k).Ok? ==>
               holds(g.evening(g.morning(s, k).value, k).value, k + 1)
    ensures AtEnd(g, start, first, t).Ok? ==> holds(AtEnd(g, start, first, t).value, t)
    decreases t
  {
    if t > first && AtEnd(g, start, first, t).Ok? {
      BothHalves(g, start, first, t - 1);
      RunHandsOn(g, start, first, t - 1, holds);
    }
  }
}
