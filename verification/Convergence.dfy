/** When a list of reconcile steps, run over and over, comes to rest. */
module Convergence {
  import opened Prelude

  /** A step gives the new state, or nothing if it fails. */
  ghost predicate Stable<X>(step: X -> Option<X>, x: X) {
    step(x) == Some(x)
  }

  ghost predicate Idempotent<X(!new)>(step: X -> Option<X>) {
    forall x :: step(x).Some? ==> Stable(step, step(x).value)
  }

  /** Running `other` leaves `step` with nothing to do if it had nothing to do before. */
  ghost predicate Respects<X(!new)>(other: X -> Option<X>, step: X -> Option<X>) {
    forall x :: Stable(step, x) && other(x).Some? ==> Stable(step, other(x).value)
  }

  /** All steps in order; the first failure ends the pass. */
  function Pass<X>(steps: seq<X -> Option<X>>, x: X): Option<X> {
    if steps == [] then Some(x)
    else match steps[0](x)
         case None => None
         case Some(y) => Pass(steps[1..], y)
  }

  function Passes<X>(steps: seq<X -> Option<X>>, x: X, n: nat): Option<X> {
    if n == 0 then Some(x)
    else match Passes(steps, x, n - 1)
         case None => None
         case Some(y) => Pass(steps, y)
  }

  /** A step can be disturbed only by steps of lower levels. */
  ghost predicate Layered<X(!new)>(steps: seq<X -> Option<X>>, level: nat -> nat) {
    && (forall i :: 0 <= i < |steps| ==> Idempotent(steps[i]))
    && (forall i: nat, j: nat :: i < |steps| && j < |steps| && i != j && level(i) <= level(j)
                                 ==> Respects(steps[j], steps[i]))
  }

  ghost predicate SettledBelow<X>(steps: seq<X -> Option<X>>, level: nat -> nat, k: nat, x: X) {
    forall i: nat :: i < |steps| && level(i) < k ==> Stable(steps[i], x)
  }

  ghost predicate AllStable<X>(steps: seq<X -> Option<X>>, x: X) {
    forall i :: 0 <= i < |steps| ==> Stable(steps[i], x)
  }

  lemma {:induction false} PassSettlesOneMoreLevel<X(!new)>(steps: seq<X -> Option<X>>, level: nat -> nat,
                                                            k: nat, n: nat, x: X)
    requires Layered(steps, level) && n <= |steps|
    requires SettledBelow(steps, level, k, x)
    requires forall i: nat :: i < n && level(i) == k ==> Stable(steps[i], x)
    requires Pass(steps[n..], x).Some?
    ensures SettledBelow(steps, level, k + 1, Pass(steps[n..], x).value)
    decreases |steps| - n
  {
    if n < |steps| {
      assert steps[n..][0] == steps[n] && steps[n..][1..] == steps[n + 1..];
      var y := steps[n](x).value;
      assert Idempotent(steps[n]);
      if level(n) < k {
        assert Stable(steps[n], x);
      } else {
        forall i: nat | i < |steps| && i != n && level(i) <= k && Stable(steps[i], x)
          ensures Stable(steps[i], y)
        {
          assert Respects(steps[n], steps[i]);
        }
      }
      PassSettlesOneMoreLevel(steps, level, k, n + 1, y);
    }
  }

  lemma {:induction false} PassesSettleLevels<X(!new)>(steps: seq<X -> Option<X>>, level: nat -> nat, x: X, n: nat)
    requires Layered(steps, level) && Passes(steps, x, n).Some?
    ensures SettledBelow(steps, level, n, Passes(steps, x, n).value)
  {
    if n > 0 {
      PassesSettleLevels(steps, level, x, n - 1);
      var y := Passes(steps, x, n - 1).value;
      assert steps[0..] == steps;
      PassSettlesOneMoreLevel(steps, level, n - 1, 0, y);
    }
  }

  lemma {:induction false} PassOfStableSteps<X(!new)>(steps: seq<X -> Option<X>>, x: X)
    requires AllStable(steps, x)
    ensures Pass(steps, x) == Some(x)
  {
    if steps != [] {
      assert Stable(steps[0], x);
      forall i | 0 <= i < |steps[1..]|
        ensures Stable(steps[1..][i], x)
      {
        assert steps[1..][i] == steps[i + 1];
      }
      PassOfStableSteps(steps[1..], x);
    }
  }

  /** Idempotent steps in `levels` levels come to rest after as many passes, in whatever state they
      start: every step is stable and one more pass changes nothing. */
  lemma LayeredStepsConverge<X(!new)>(steps: seq<X -> Option<X>>, level: nat -> nat, levels: nat, x: X)
    requires Layered(steps, level) && Passes(steps, x, levels).Some?
    requires forall i: nat :: i < |steps| ==> level(i) < levels
    ensures var y := Passes(steps, x, levels).value;
            AllStable(steps, y) && Pass(steps, y) == Some(y)
  {
    PassesSettleLevels(steps, level, x, levels);
    PassOfStableSteps(steps, Passes(steps, x, levels).value);
  }

  // ---- passes that are cut short ----

  /** A step that makes several updates may fail between them: `torn(n, x, y)` says that step n, begun in x, may leave
      y behind. What it leaves is no harm if it is nothing new where the step had nothing to do, and gives no other
      step of its own or a lower level anything to do. */
  ghost predicate Harmless<X(!new)>(steps: seq<X -> Option<X>>, level: nat -> nat, torn: (nat, X, X) -> bool) {
    && (forall n, x, y :: 0 <= n < |steps| && torn(n, x, y) && Stable(steps[n], x) ==> y == x)
    && (forall n: nat, i: nat, x, y ::
          (n < |steps| && i < |steps| && i != n && level(i) <= level(n) && torn(n, x, y) && Stable(steps[i], x))
          ==> Stable(steps[i], y))
  }

  /** A pass that succeeds, or one that gets through `length` steps and fails in the next. */
  datatype Attempt<X> = Whole | Cut(length: nat, left: X)

  function AfterAttempt<X(==)>(steps: seq<X -> Option<X>>, torn: (nat, X, X) -> bool, x: X, a: Attempt<X>): Option<X> {
    match a
    case Whole => Pass(steps, x)
    case Cut(n, left) =>
      if |steps| <= n then None
      else match Pass(steps[..n], x)
           case None => None
           case Some(y) => if left == y || torn(n, y, left) then Some(left) else None
  }

  /** One attempt after the other; None if they cannot go like this. */
  function AfterAttempts<X(==)>(steps: seq<X -> Option<X>>, torn: (nat, X, X) -> bool, x: X, attempts: seq<Attempt<X>>)
    : Option<X>
    decreases |attempts|
  {
    if attempts == [] then Some(x)
    else match AfterAttempts(steps, torn, x, attempts[..|attempts| - 1])
         case None => None
         case Some(y) => AfterAttempt(steps, torn, y, attempts[|attempts| - 1])
  }

  function WholePasses<X>(attempts: seq<Attempt<X>>): nat
    decreases |attempts|
  {
    if attempts == [] then 0
    else WholePasses(attempts[..|attempts| - 1]) + if attempts[|attempts| - 1].Whole? then 1 else 0
  }

  lemma {:induction false} CutShortPassKeepsLevels<X(!new)>(steps: seq<X -> Option<X>>, level: nat -> nat,
                                                           k: nat, m: nat, n: nat, x: X)
    requires Layered(steps, level) && m <= n <= |steps|
    requires SettledBelow(steps, level, k, x) && Pass(steps[m..n], x).Some?
    ensures SettledBelow(steps, level, k, Pass(steps[m..n], x).value)
    decreases n - m
  {
    if m < n {
      assert steps[m..n][0] == steps[m] && steps[m..n][1..] == steps[m + 1..n];
      var y := steps[m](x).value;
      if level(m) < k {
        assert Stable(steps[m], x);
      } else {
        forall i: nat | i < |steps| && level(i) < k
          ensures Stable(steps[i], y)
        {
          assert Stable(steps[i], x) && Respects(steps[m], steps[i]);
        }
      }
      CutShortPassKeepsLevels(steps, level, k, m + 1, n, y);
    }
  }

  lemma TornStepKeepsLevels<X(!new)>(steps: seq<X -> Option<X>>, level: nat -> nat, torn: (nat, X, X) -> bool,
                                    k: nat, n: nat, x: X, y: X)
    requires Harmless(steps, level, torn) && n < |steps| && torn(n, x, y)
    requires SettledBelow(steps, level, k, x)
    ensures SettledBelow(steps, level, k, y)
  {
    if level(n) < k {
      assert Stable(steps[n], x);
    } else {
      forall i: nat | i < |steps| && level(i) < k
        ensures Stable(steps[i], y)
      {
        assert Stable(steps[i], x);
      }
    }
  }

  lemma AttemptSettlesLevels<X(!new)>(steps: seq<X -> Option<X>>, level: nat -> nat, torn: (nat, X, X) -> bool,
                                     k: nat, x: X, a: Attempt<X>)
    requires Layered(steps, level) && Harmless(steps, level, torn)
    requires SettledBelow(steps, level, k, x) && AfterAttempt(steps, torn, x, a).Some?
    ensures var y := AfterAttempt(steps, torn, x, a).value;
            SettledBelow(steps, level, if a.Whole? then k + 1 else k, y)
  {
    match a
    case Whole =>
      assert steps[0..] == steps;
      PassSettlesOneMoreLevel(steps, level, k, 0, x);
    case Cut(n, left) =>
      assert steps[0..n] == steps[..n];
      CutShortPassKeepsLevels(steps, level, k, 0, n, x);
      var y := Pass(steps[..n], x).value;
      if left != y {
        TornStepKeepsLevels(steps, level, torn, k, n, y, left);
      }
  }

  /** Every whole pass settles one more level, and those that are cut short do no harm. */
  lemma {:induction false} AttemptsSettleLevels<X(!new)>(steps: seq<X -> Option<X>>, level: nat -> nat,
                                                        torn: (nat, X, X) -> bool, x: X, attempts: seq<Attempt<X>>)
    requires Layered(steps, level) && Harmless(steps, level, torn)
    requires AfterAttempts(steps, torn, x, attempts).Some?
    ensures SettledBelow(steps, level, WholePasses(attempts), AfterAttempts(steps, torn, x, attempts).value)
    decreases |attempts|
  {
    if attempts != [] {
      var before := attempts[..|attempts| - 1];
      AttemptsSettleLevels(steps, level, torn, x, before);
      AttemptSettlesLevels(steps, level, torn, WholePasses(before), AfterAttempts(steps, torn, x, before).value,
                           attempts[|attempts| - 1]);
    }
  }

  /** As many whole passes as there are levels are enough, with any number of others before, between and after. */
  lemma AttemptsConverge<X(!new)>(steps: seq<X -> Option<X>>, level: nat -> nat, torn: (nat, X, X) -> bool,
                                 levels: nat, x: X, attempts: seq<Attempt<X>>)
    requires Layered(steps, level) && Harmless(steps, level, torn)
    requires AfterAttempts(steps, torn, x, attempts).Some? && levels <= WholePasses(attempts)
    requires forall i: nat :: i < |steps| ==> level(i) < levels
    ensures var y := AfterAttempts(steps, torn, x, attempts).value;
            AllStable(steps, y) && Pass(steps, y) == Some(y)
  {
    AttemptsSettleLevels(steps, level, torn, x, attempts);
    PassOfStableSteps(steps, AfterAttempts(steps, torn, x, attempts).value);
  }

  // ---- when a pass succeeds ----

  /** No step can make another fail, or keep it from failing. */
  ghost predicate Independent<X(!new)>(steps: seq<X -> Option<X>>) {
    forall i, j, x :: 0 <= i < |steps| && 0 <= j < |steps| && steps[j](x).Some?
                      ==> (steps[i](steps[j](x).value).Some? <==> steps[i](x).Some?)
  }

  lemma {:induction false} PassSucceedsIff<X(!new)>(steps: seq<X -> Option<X>>, n: nat, x: X)
    requires Independent(steps) && n <= |steps|
    ensures Pass(steps[n..], x).Some? <==> forall i :: n <= i < |steps| ==> steps[i](x).Some?
    decreases |steps| - n
  {
    if n < |steps| {
      assert steps[n..][0] == steps[n] && steps[n..][1..] == steps[n + 1..];
      if steps[n](x).Some? {
        PassSucceedsIff(steps, n + 1, steps[n](x).value);
      }
    }
  }

  lemma {:induction false} PassKeepsSuccess<X(!new)>(steps: seq<X -> Option<X>>, n: nat, x: X)
    requires Independent(steps) && n <= |steps| && Pass(steps[n..], x).Some?
    ensures var y := Pass(steps[n..], x).value;
            forall i :: 0 <= i < |steps| ==> (steps[i](y).Some? <==> steps[i](x).Some?)
    decreases |steps| - n
  {
    if n < |steps| {
      assert steps[n..][0] == steps[n] && steps[n..][1..] == steps[n + 1..];
      PassKeepsSuccess(steps, n + 1, steps[n](x).value);
    }
  }

  /** If a pass succeeds, so does the next one. */
  lemma PassSucceedsAgain<X(!new)>(steps: seq<X -> Option<X>>, x: X)
    requires Independent(steps) && Pass(steps, x).Some?
    ensures Pass(steps, Pass(steps, x).value).Some?
  {
    assert steps[0..] == steps;
    PassKeepsSuccess(steps, 0, x);
    PassSucceedsIff(steps, 0, x);
    PassSucceedsIff(steps, 0, Pass(steps, x).value);
  }
}
