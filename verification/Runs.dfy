/**
  Runs of a transition system whose steps are labelled with actions, and the
  few facts about them that every protocol of this project uses: an inductive
  invariant holds at the end of any run, a measure bounds the length of any
  run, and a system with a decreasing measure can be driven to rest.

  `next(s, a, t)` says that action `a` may take state `s` to state `t`; which
  action happens is up to the scheduler, so a claim about all runs is a claim
  about all schedules.
 */
module Runs {

  ghost predicate Run<S(!new), A>(next: (S, A, S) -> bool, s: S, acts: seq<A>, t: S)
    decreases |acts|
  {
    if acts == [] then s == t
    else exists m :: next(s, acts[0], m) && Run(next, m, acts[1..], t)
  }

  /** A state in which no step is possible. */
  ghost predicate AtRest<S(!new), A(!new)>(next: (S, A, S) -> bool, s: S) {
    forall a, t :: !next(s, a, t)
  }

  ghost predicate Inductive<S(!new), A(!new)>(next: (S, A, S) -> bool, inv: S -> bool) {
    forall s, a, t :: inv(s) && next(s, a, t) ==> inv(t)
  }

  /** Each step lowers `measure`, except for the credit its action brings. */
  ghost predicate Paid<S(!new), A(!new)>(
    next: (S, A, S) -> bool, inv: S -> bool, measure: S -> int, credit: A -> nat)
  {
    forall s, a, t :: inv(s) && next(s, a, t) ==> measure(t) + 1 <= measure(s) + credit(a)
  }

  function Total<A>(credit: A -> nat, acts: seq<A>): nat {
    if acts == [] then 0 else credit(acts[0]) + Total(credit, acts[1..])
  }

  lemma {:induction false} RunInvariant<S(!new), A(!new)>(
    next: (S, A, S) -> bool, inv: S -> bool, s: S, acts: seq<A>, t: S)
    requires inv(s) && Inductive(next, inv) && Run(next, s, acts, t)
    ensures inv(t)
    decreases |acts|
  {
    if acts != [] {
      var m :| next(s, acts[0], m) && Run(next, m, acts[1..], t);
      RunInvariant(next, inv, m, acts[1..], t);
    }
  }

  lemma {:induction false} RunLength<S(!new), A(!new)>(
    next: (S, A, S) -> bool, inv: S -> bool, measure: S -> int, credit: A -> nat,
    s: S, acts: seq<A>, t: S)
    requires inv(s) && Inductive(next, inv) && Paid(next, inv, measure, credit)
    requires Run(next, s, acts, t)
    ensures |acts| + measure(t) <= measure(s) + Total(credit, acts)
    decreases |acts|
  {
    if acts != [] {
      var m :| next(s, acts[0], m) && Run(next, m, acts[1..], t);
      RunLength(next, inv, measure, credit, m, acts[1..], t);
    }
  }

  lemma {:induction false} NoCredit<A(!new)>(credit: A -> nat, acts: seq<A>)
    requires forall a :: credit(a) == 0
    ensures Total(credit, acts) == 0
  {
    if acts != [] {
      NoCredit(credit, acts[1..]);
    }
  }

  /** Without credit, a measure bounds the length of any run. */
  lemma RunShrinks<S(!new), A(!new)>(
    next: (S, A, S) -> bool, inv: S -> bool, measure: S -> int, s: S, acts: seq<A>, t: S)
    requires inv(s) && Inductive(next, inv)
    requires forall x, a, y :: inv(x) && next(x, a, y) ==> measure(y) + 1 <= measure(x)
    requires Run(next, s, acts, t)
    ensures |acts| + measure(t) <= measure(s)
  {
    var free := (a: A) => 0 as nat;
    RunLength(next, inv, measure, free, s, acts, t);
    NoCredit(free, acts);
  }

  lemma {:induction false} Concat<S(!new), A(!new)>(
    next: (S, A, S) -> bool, s: S, left: seq<A>, m: S, right: seq<A>, t: S)
    requires Run(next, s, left, m) && Run(next, m, right, t)
    ensures Run(next, s, left + right, t)
    decreases |left|
  {
    if left == [] {
      assert left + right == right;
    } else {
      var n :| next(s, left[0], n) && Run(next, n, left[1..], m);
      Concat(next, n, left[1..], m, right, t);
      assert (left + right)[1..] == left[1..] + right;
    }
  }

  lemma Prepend<S(!new), A(!new)>(next: (S, A, S) -> bool, s: S, a: A, m: S, acts: seq<A>, t: S)
    requires next(s, a, m) && Run(next, m, acts, t)
    ensures Run(next, s, [a] + acts, t)
  {
    assert ([a] + acts)[1..] == acts;
  }

  lemma Single<S(!new), A(!new)>(next: (S, A, S) -> bool, s: S, a: A, t: S)
    requires next(s, a, t)
    ensures Run(next, s, [a], t)
  {
    assert Run(next, t, [a][1..], t);
  }

  lemma Append<S(!new), A(!new)>(next: (S, A, S) -> bool, s: S, acts: seq<A>, m: S, a: A, t: S)
    requires Run(next, s, acts, m) && next(m, a, t)
    ensures Run(next, s, acts + [a], t)
  {
    Single(next, m, a, t);
    Concat(next, s, acts, m, [a], t);
  }

  /** States each a step from the one before make a run. */
  lemma {:induction false} Ladder<S(!new), A(!new)>(
    next: (S, A, S) -> bool, state: nat -> S, action: nat -> A, n: nat) returns (acts: seq<A>)
    requires forall k: nat :: k < n ==> next(state(k), action(k), state(k + 1))
    ensures Run(next, state(0), acts, state(n))
  {
    acts := [];
    if n > 0 {
      acts := Ladder(next, state, action, n - 1);
      assert next(state(n - 1), action(n - 1), state(n - 1 + 1));
      Append(next, state(0), acts, state(n - 1), action(n - 1), state(n));
      acts := acts + [action(n - 1)];
    }
  }

  /** Fewer possible steps, fewer runs. */
  lemma {:induction false} Weaken<S(!new), A(!new)>(
    narrow: (S, A, S) -> bool, wide: (S, A, S) -> bool, s: S, acts: seq<A>, t: S)
    requires forall x, a, y :: narrow(x, a, y) ==> wide(x, a, y)
    requires Run(narrow, s, acts, t)
    ensures Run(wide, s, acts, t)
    decreases |acts|
  {
    if acts != [] {
      var m :| narrow(s, acts[0], m) && Run(narrow, m, acts[1..], t);
      Weaken(narrow, wide, m, acts[1..], t);
    }
  }

  /** With a decreasing measure, some run reaches a state of rest. */
  lemma {:induction false} RunToRest<S(!new), A(!new)>(
    next: (S, A, S) -> bool, inv: S -> bool, measure: S -> nat, s: S)
    returns (acts: seq<A>, t: S)
    requires inv(s) && Inductive(next, inv)
    requires forall x, a, y :: inv(x) && next(x, a, y) ==> measure(y) < measure(x)
    ensures Run(next, s, acts, t) && inv(t) && AtRest(next, t)
    decreases measure(s)
  {
    if AtRest(next, s) {
      acts, t := [], s;
    } else {
      var a, m :| next(s, a, m);
      var rest;
      rest, t := RunToRest(next, inv, measure, m);
      acts := [a] + rest;
      assert acts[1..] == rest;
    }
  }
}

/** Sums of a weight over a sequence, one entry a thread. */
module Sums {

  function Sum<T>(w: T -> nat, s: seq<T>): nat {
    if s == [] then 0 else w(s[0]) + Sum(w, s[1..])
  }

  function Identity(n: nat): nat { n }

  function Lengths<T>(items: seq<seq<T>>): seq<nat> {
    seq(|items|, i requires 0 <= i < |items| => |items[i]|)
  }

  lemma {:induction false} SumUpdate<T>(w: T -> nat, s: seq<T>, i: nat, x: T)
    requires i < |s|
    ensures Sum(w, s[i := x]) + w(s[i]) == Sum(w, s) + w(x)
  {
    if i == 0 {
      assert s[i := x][1..] == s[1..];
    } else {
      assert s[i := x][1..] == s[1..][i - 1 := x];
      SumUpdate(w, s[1..], i - 1, x);
    }
  }

  /** Entries that grow by at most `d` each make the sum grow by at most `d` a thread. */
  lemma {:induction false} SumGrowth<T>(w: T -> nat, s: seq<T>, t: seq<T>, d: nat)
    requires |s| == |t| && forall i :: 0 <= i < |s| ==> w(t[i]) <= w(s[i]) + d
    ensures Sum(w, t) <= Sum(w, s) + d * |s|
  {
    if s != [] {
      SumGrowth(w, s[1..], t[1..], d);
      assert w(t[0]) <= w(s[0]) + d;
    }
  }

  /** A sum that reaches the number of threads, with weights of at most one, has weight one everywhere. */
  lemma {:induction false} SumFull<T>(w: T -> nat, s: seq<T>)
    requires forall i :: 0 <= i < |s| ==> w(s[i]) <= 1
    ensures Sum(w, s) <= |s|
    ensures Sum(w, s) == |s| ==> forall i :: 0 <= i < |s| ==> w(s[i]) == 1
  {
    if s != [] {
      SumFull(w, s[1..]);
      assert forall i :: 0 < i < |s| ==> s[i] == s[1..][i - 1];
    }
  }

  lemma {:induction false} SumZero<T>(w: T -> nat, s: seq<T>)
    ensures Sum(w, s) == 0 <==> forall i :: 0 <= i < |s| ==> w(s[i]) == 0
  {
    if s != [] {
      SumZero(w, s[1..]);
      assert forall i :: 0 < i < |s| ==> s[i] == s[1..][i - 1];
      assert s[0] == s[0];
    }
  }

  lemma {:induction false} SumMember<T>(w: T -> nat, s: seq<T>, i: nat)
    requires i < |s|
    ensures w(s[i]) <= Sum(w, s)
  {
    if i > 0 {
      SumMember(w, s[1..], i - 1);
    }
  }

  lemma {:induction false} SumConstant<T>(w: T -> nat, s: seq<T>, k: nat)
    requires forall i :: 0 <= i < |s| ==> w(s[i]) == k
    ensures Sum(w, s) == k * |s|
  {
    if s != [] {
      SumConstant(w, s[1..], k);
      assert w(s[0]) == k;
    }
  }

  /** Smaller entries have a smaller sum, strictly so if one entry is strictly smaller. */
  lemma {:induction false} SumOrder(w: nat -> nat, s: seq<nat>, t: seq<nat>)
    requires |s| == |t| && forall i :: 0 <= i < |s| ==> w(s[i]) <= w(t[i])
    ensures Sum(w, s) <= Sum(w, t)
    ensures (exists i :: 0 <= i < |s| && w(s[i]) < w(t[i])) ==> Sum(w, s) < Sum(w, t)
  {
    if s != [] {
      SumOrder(w, s[1..], t[1..]);
      assert w(s[0]) <= w(t[0]);
      if i :| 0 < i < |s| && w(s[i]) < w(t[i]) {
        assert w(s[1..][i - 1]) < w(t[1..][i - 1]);
      }
    }
  }
}
