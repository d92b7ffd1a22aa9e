/** Repeating a step. */
module Iteration {
  ghost function Iterate<S>(step: S -> S, s: S, n: nat): S {
    if n == 0 then s else step(Iterate(step, s, n - 1))
  }

  /** What holds at the start and is kept by every step holds after any number of steps. */
  lemma {:induction false} IterateInduction<S(!new)>(step: S -> S, s: S, n: nat, P: (S, nat) -> bool)
    requires P(s, 0)
    requires forall x, k: nat {:trigger step(x), P(x, k)} :: P(x, k) ==> P(step(x), k + 1)
    ensures P(Iterate(step, s, n), n)
    decreases n
  {
    if n == 0 {
    } else {
      IterateInduction(step, s, n - 1, P);
      assert P(step(Iterate(step, s, n - 1)), n - 1 + 1);
    }
  }

  lemma {:induction false} IterateAdds<S>(step: S -> S, s: S, m: nat, n: nat)
    ensures Iterate(step, Iterate(step, s, m), n) == Iterate(step, s, m + n)
    decreases n
  {
    if n == 0 {
    } else {
      IterateAdds(step, s, m, n - 1);
    }
  }

  /** How many of the first `n` steps start in a state that is hit. */
  ghost function Tally<S>(step: S -> S, hit: S -> bool, s: S, n: nat): nat {
    if n == 0 then 0
    else Tally(step, hit, s, n - 1) + if hit(Iterate(step, s, n - 1)) then 1 else 0
  }

  /** Induction over the steps together with their tally. */
  lemma {:induction false} TallyInduction<S(!new)>(step: S -> S, hit: S -> bool, s: S, n: nat, P: (S, nat, nat) -> bool)
    requires P(s, 0, 0)
    requires forall x, k: nat, c: nat {:trigger step(x), P(x, k, c)} ::
               P(x, k, c) ==> P(step(x), k + 1, c + if hit(x) then 1 else 0)
    ensures P(Iterate(step, s, n), n, Tally(step, hit, s, n))
    decreases n
  {
    if n == 0 {
    } else {
      TallyInduction(step, hit, s, n - 1, P);
      var x, c := Iterate(step, s, n - 1), Tally(step, hit, s, n - 1);
      assert P(step(x), n - 1 + 1, c + if hit(x) then 1 else 0);
    }
  }

  function AtLeastZero(i: int): int {
    if i < 0 then 0 else i
  }

  /**
   * A quantity that every step lowers by at least one until it is zero, and by exactly one unless
   * the step is hit.
   */
  lemma {:induction false} Countdown<S(!new)>(
      step: S -> S, hit: S -> bool, inv: S -> bool, left: S -> int, s: S, n: nat)
    requires inv(s) && left(s) >= 0
    requires forall x {:trigger step(x)} :: inv(x) ==>
               inv(step(x)) && 0 <= left(step(x)) <= AtLeastZero(left(x) - 1)
    requires forall x {:trigger step(x)} :: inv(x) && !hit(x) ==> left(step(x)) == AtLeastZero(left(x) - 1)
    ensures inv(Iterate(step, s, n))
    ensures 0 <= left(Iterate(step, s, n)) <= AtLeastZero(left(s) - n)
    ensures Tally(step, hit, s, n) == 0 ==> left(Iterate(step, s, n)) == AtLeastZero(left(s) - n)
    decreases n
  {
    if n == 0 {
    } else {
      Countdown(step, hit, inv, left, s, n - 1);
      var x := Iterate(step, s, n - 1);
      assert Iterate(step, s, n) == step(x);
    }
  }

  /** Steps that are hit use up one unit of credit, and no step adds any. */
  lemma {:induction false} CreditBoundsTally<S(!new)>(
      step: S -> S, hit: S -> bool, inv: S -> bool, credit: S -> int, s: S, n: nat)
    requires inv(s)
    requires forall x {:trigger step(x)} :: inv(x) ==>
               inv(step(x)) && credit(step(x)) + (if hit(x) then 1 else 0) <= credit(x)
    ensures inv(Iterate(step, s, n))
    ensures Tally(step, hit, s, n) + credit(Iterate(step, s, n)) <= credit(s)
    decreases n
  {
    if n == 0 {
    } else {
      CreditBoundsTally(step, hit, inv, credit, s, n - 1);
      var x := Iterate(step, s, n - 1);
      assert Iterate(step, s, n) == step(x);
    }
  }

  /** What is kept by every step holds after any number of steps. */
  lemma {:induction false} IterateKeeps<S(!new)>(step: S -> S, inv: S -> bool, s: S, n: nat)
    requires inv(s)
    requires forall x {:trigger step(x)} :: inv(x) ==> inv(step(x))
    ensures inv(Iterate(step, s, n))
    decreases n
  {
    if n == 0 {
    } else {
      IterateKeeps(step, inv, s, n - 1);
      var x := Iterate(step, s, n - 1);
      assert Iterate(step, s, n) == step(x);
    }
  }

  /**
   * A level that sinks by at most one a step, and that steps from a state that fires leave at `top - 1`
   * or above, is at least `top - k` after `k >= 1` further steps.
   */
  lemma {:induction false} LevelAfterFiring<S(!new)>(
      step: S -> S, inv: S -> bool, fires: S -> bool, level: S -> int, top: int, s: S, first: nat, k: nat)
    requires inv(s) && k >= 1
    requires forall x {:trigger step(x)} :: inv(x) ==>
               inv(step(x)) && level(step(x)) >= level(x) - 1 && (fires(x) ==> level(step(x)) >= top - 1)
    requires fires(Iterate(step, s, first))
    ensures level(Iterate(step, s, first + k)) >= top - k
    decreases k
  {
    var x := Iterate(step, s, first + k - 1);
    IterateKeeps(step, inv, s, first + k - 1);
    assert Iterate(step, s, first + k) == step(x);
    if k == 1 {
    } else {
      LevelAfterFiring(step, inv, fires, level, top, s, first, k - 1);
    }
  }
}
