/** Runs of several steps. The driver's run loop calls `step` again and
    again and stops at the first call that does not return `Ok(())`. This
    module states that loop once, for any engine, as `Iterate` over the
    engine's step function, bounded by a number of steps `n`. */
module Runs {
  import opened Errors

  /** At most `n` successive applications of `next`: the run stops at the
      first step whose outcome is not `Done` and reports that outcome. */
  function Iterate<S>(next: S -> (S, Outcome), s: S, n: nat): (S, Outcome)
    decreases n
  {
    if n == 0 then (s, Done)
    else
      var r := next(s);
      if r.1 != Done then r else Iterate(next, r.0, n - 1)
  }

  /** A property that every step preserves holds at the end of every run. */
  lemma {:induction false} IterateKeeps<S>(next: S -> (S, Outcome), inv: S -> bool, s: S, n: nat)
    requires inv(s)
    requires forall t :: inv(t) ==> inv(next(t).0)
    ensures inv(Iterate(next, s, n).0)
    decreases n
  {
    if n > 0 && next(s).1 == Done {
      IterateKeeps(next, inv, next(s).0, n - 1);
    }
  }

  /** A counter that every completed step increments and every other step
      leaves alone counts the completed steps of a run: exactly `n` when the
      run completes, fewer when it stops early. */
  lemma {:induction false} IterateCounts<S>(next: S -> (S, Outcome), count: S -> nat, s: S, n: nat)
    requires forall t :: next(t).1 == Done ==> count(next(t).0) == count(t) + 1
    requires forall t :: next(t).1 != Done ==> count(next(t).0) == count(t)
    ensures var r := Iterate(next, s, n);
            && (r.1 == Done ==> count(r.0) == count(s) + n)
            && (r.1 != Done ==> count(s) <= count(r.0) < count(s) + n)
    decreases n
  {
    if n > 0 && next(s).1 == Done {
      IterateCounts(next, count, next(s).0, n - 1);
    }
  }

  /** A run of `a + b` steps is a run of `a` steps followed, when those all
      completed, by a run of `b` more. */
  lemma {:induction false} IterateCompose<S>(next: S -> (S, Outcome), s: S, a: nat, b: nat)
    ensures var r := Iterate(next, s, a);
            Iterate(next, s, a + b) == if r.1 != Done then r else Iterate(next, r.0, b)
    decreases a
  {
    if a > 0 && next(s).1 == Done {
      IterateCompose(next, next(s).0, a - 1, b);
    }
  }
}
