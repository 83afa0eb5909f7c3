/** Work done one commit at a time, that may be cut after any commit and run again. */
module Resumption {
  import opened Basics

  /** A process commits until nothing remains; every commit leaves one fewer. */
  ghost predicate Progresses<T(!new)>(next: T -> T, ok: T -> bool, remaining: T -> nat) {
    forall x: T | ok(x) ::
      && ok(next(x)) && (remaining(x) == 0 ==> next(x) == x)
      && (remaining(x) > 0 ==> remaining(next(x)) == remaining(x) - 1)
  }

  /** The state after n commits of an uninterrupted run. */
  function Iterate<T>(next: T -> T, x: T, n: nat): T {
    if n == 0 then x else next(Iterate(next, x, n - 1))
  }

  /** A run that is cut after the given number of commits, or ends before. */
  function CutRun<T>(next: T -> T, remaining: T -> nat, x: T, budget: nat): T {
    Iterate(next, x, Min(budget, remaining(x)))
  }

  function CutRuns<T>(next: T -> T, remaining: T -> nat, x: T, budgets: seq<nat>): T {
    if |budgets| == 0 then x
    else CutRun(next, remaining, CutRuns(next, remaining, x, budgets[..|budgets| - 1]), budgets[|budgets| - 1])
  }

  function Total(budgets: seq<nat>): nat {
    if |budgets| == 0 then 0 else Total(budgets[..|budgets| - 1]) + budgets[|budgets| - 1]
  }

  lemma {:induction false} IterateCounts<T(!new)>(next: T -> T, ok: T -> bool, remaining: T -> nat, x: T, n: nat)
    requires Progresses(next, ok, remaining) && ok(x)
    ensures ok(Iterate(next, x, n))
    ensures remaining(Iterate(next, x, n)) == remaining(x) - Min(n, remaining(x))
  {
    if n > 0 { IterateCounts(next, ok, remaining, x, n - 1); }
  }

  lemma {:induction false} IterateComposes<T>(next: T -> T, x: T, m: nat, n: nat)
    ensures Iterate(next, Iterate(next, x, m), n) == Iterate(next, x, m + n)
  {
    if n > 0 { IterateComposes(next, x, m, n - 1); }
  }

  /** Cutting after any commits and running again, any number of times, goes through the states of one
      uninterrupted run, and reaches its last state as soon as enough was committed in all. */
  lemma {:induction false} CutsDoNotMatter<T(!new)>(next: T -> T, ok: T -> bool, remaining: T -> nat, x: T,
                                                    budgets: seq<nat>)
    requires Progresses(next, ok, remaining) && ok(x)
    ensures CutRuns(next, remaining, x, budgets) == Iterate(next, x, Min(Total(budgets), remaining(x)))
  {
    hide Progresses;
    if |budgets| > 0 {
      var front, b := budgets[..|budgets| - 1], budgets[|budgets| - 1];
      CutsDoNotMatter(next, ok, remaining, x, front);
      var m := Min(Total(front), remaining(x));
      IterateCounts(next, ok, remaining, x, m);
      IterateComposes(next, x, m, Min(b, remaining(x) - m));
    }
  }
}
