/** Runs of a step system: the shape every safety theorem of this project takes.
    A protocol is a predicate on first states and a relation between a state and
    the state one atomic action later; a run is any finite sequence of states
    that starts in the first and is linked by the second. */
module Runs {

  ghost predicate IsRun<S(!new)>(init: S -> bool, next: (S, S) -> bool, run: seq<S>) {
    && |run| > 0
    && init(run[0])
    && forall i :: 0 <= i < |run| - 1 ==> next(run[i], run[i + 1])
  }

  /** Induction over runs. */
  lemma {:induction false} Always<S(!new)>(
    init: S -> bool, next: (S, S) -> bool, inv: S -> bool, run: seq<S>, k: nat)
    requires IsRun(init, next, run) && k < |run|
    requires forall s :: init(s) ==> inv(s)
    requires forall s, t :: inv(s) && next(s, t) ==> inv(t)
    ensures inv(run[k])
  {
    if k > 0 {
      Always(init, next, inv, run, k - 1);
      assert next(run[k - 1], run[k - 1 + 1]);
    }
  }

  /** Two steps, three, and four in a row are runs from where they start. */
  lemma Steps3<S(!new)>(next: (S, S) -> bool, s0: S, s1: S, s2: S)
    requires next(s0, s1) && next(s1, s2)
    ensures var run := [s0, s1, s2]; IsRun((x: S) => x == s0, next, run) && run[|run| - 1] == s2
  {
  }

  lemma Steps4<S(!new)>(next: (S, S) -> bool, s0: S, s1: S, s2: S, s3: S)
    requires next(s0, s1) && next(s1, s2) && next(s2, s3)
    ensures var run := [s0, s1, s2, s3]; IsRun((x: S) => x == s0, next, run) && run[|run| - 1] == s3
  {
  }

  lemma Steps5<S(!new)>(next: (S, S) -> bool, s0: S, s1: S, s2: S, s3: S, s4: S)
    requires next(s0, s1) && next(s1, s2) && next(s2, s3) && next(s3, s4)
    ensures var run := [s0, s1, s2, s3, s4]; IsRun((x: S) => x == s0, next, run) && run[|run| - 1] == s4
  {
  }

  /** A step before a run is a longer run. */
  lemma Prepend<S(!new)>(next: (S, S) -> bool, s: S, run: seq<S>)
    requires |run| > 0 && next(s, run[0]) && IsRun((x: S) => x == run[0], next, run)
    ensures IsRun((x: S) => x == s, next, [s] + run)
  {
    var longer := [s] + run;
    forall i | 0 <= i < |longer| - 1 ensures next(longer[i], longer[i + 1]) {
      if i > 0 { assert next(run[i - 1], run[i - 1 + 1]); }
    }
  }

  /** What holds from some state on. */
  lemma {:induction false} Onward<S(!new)>(
    init: S -> bool, next: (S, S) -> bool, inv: S -> bool, run: seq<S>, k: nat, m: nat)
    requires IsRun(init, next, run) && k <= m < |run|
    requires inv(run[k])
    requires forall s, t :: inv(s) && next(s, t) ==> inv(t)
    ensures inv(run[m])
  {
    if k < m {
      Onward(init, next, inv, run, k, m - 1);
      assert next(run[m - 1], run[m - 1 + 1]);
    }
  }

  /** What no step changes while a condition lasts is unchanged as long as it lasts. */
  lemma {:induction false} Constant<S(!new), V>(
    init: S -> bool, next: (S, S) -> bool, inside: S -> bool, view: S -> V, run: seq<S>, k: nat, m: nat)
    requires IsRun(init, next, run) && k <= m < |run|
    requires forall i :: k <= i < m ==> inside(run[i])
    requires forall s, t :: inside(s) && next(s, t) ==> view(t) == view(s)
    ensures view(run[m]) == view(run[k])
  {
    if k < m {
      Constant(init, next, inside, view, run, k, m - 1);
      assert next(run[m - 1], run[m - 1 + 1]);
    }
  }

  /** A run goes on with any step from its last state. */
  lemma Extend<S(!new)>(init: S -> bool, next: (S, S) -> bool, run: seq<S>, s: S)
    requires IsRun(init, next, run) && next(run[|run| - 1], s)
    ensures IsRun(init, next, run + [s])
  {
    var longer := run + [s];
    forall i | 0 <= i < |longer| - 1 ensures next(longer[i], longer[i + 1]) {
      if i < |run| - 1 { assert next(run[i], run[i + 1]); }
    }
  }
}

/** The two-valued result of a search or of an optional field. */
module Options {
  datatype Option<+T> = None | Some(value: T)
}

/** Sums over the threads of a system, and what one thread's move does to them. */
module Sums {

  function Bit(b: bool): int { if b then 1 else 0 }

  ghost function Sum<T>(f: T -> int, xs: seq<T>): int {
    if |xs| == 0 then 0 else Sum(f, xs[..|xs| - 1]) + f(xs[|xs| - 1])
  }

  /** Replacing one element moves the sum by the difference of its two shares. */
  lemma {:induction false} Update<T>(f: T -> int, xs: seq<T>, i: nat, x: T)
    requires i < |xs|
    ensures Sum(f, xs[i := x]) == Sum(f, xs) - f(xs[i]) + f(x)
  {
    var n := |xs| - 1;
    var ys := xs[i := x];
    if i == n {
      assert ys[..n] == xs[..n];
    } else {
      Update(f, xs[..n], i, x);
      assert ys[..n] == xs[..n][i := x];
    }
  }

  /** A sum of non-negative shares is non-negative, and at least every share. */
  lemma {:induction false} AtLeastEach<T>(f: T -> int, xs: seq<T>, i: nat)
    requires forall k :: 0 <= k < |xs| ==> f(xs[k]) >= 0
    ensures Sum(f, xs) >= 0
    ensures i < |xs| ==> Sum(f, xs) >= f(xs[i])
  {
    if |xs| > 0 {
      var init := xs[..|xs| - 1];
      assert forall k :: 0 <= k < |init| ==> f(init[k]) == f(xs[k]);
      AtLeastEach(f, init, i);
    }
  }

  /** A positive sum has a positive share. */
  lemma {:induction false} PositiveWitness<T>(f: T -> int, xs: seq<T>) returns (i: nat)
    requires Sum(f, xs) > 0
    ensures i < |xs| && f(xs[i]) > 0
  {
    var n := |xs| - 1;
    if f(xs[n]) > 0 {
      i := n;
    } else {
      i := PositiveWitness(f, xs[..n]);
    }
  }

  /** A sum of zeros is zero. */
  lemma {:induction false} AllZero<T>(f: T -> int, xs: seq<T>)
    requires forall k :: 0 <= k < |xs| ==> f(xs[k]) == 0
    ensures Sum(f, xs) == 0
  {
    if |xs| > 0 {
      var init := xs[..|xs| - 1];
      assert forall k :: 0 <= k < |init| ==> f(init[k]) == f(xs[k]);
      AllZero(f, init);
    }
  }

  lemma {:induction false} SumAtMost<T>(f: T -> int, g: T -> int, xs: seq<T>)
    requires forall k :: 0 <= k < |xs| ==> f(xs[k]) <= g(xs[k])
    ensures Sum(f, xs) <= Sum(g, xs)
  {
    if xs != [] { SumAtMost(f, g, xs[..|xs| - 1]); }
  }
}

/** Wait queues: sequences in which nobody stands twice. */
module WaitQueues {

  predicate Distinct(xs: seq<nat>) { forall k, l :: 0 <= k < l < |xs| ==> xs[k] != xs[l] }

  /** Dropping the first `n` leaves the queue distinct, and none of them in it. */
  lemma DistinctDrop(xs: seq<nat>, n: nat)
    requires Distinct(xs) && n <= |xs|
    ensures Distinct(xs[n..]) && forall k :: 0 <= k < n ==> xs[k] !in xs[n..]
  {
    var rest := xs[n..];
    forall k, l | 0 <= k < n && 0 <= l < |rest| ensures rest[l] != xs[k] { assert rest[l] == xs[n + l]; }
    forall k, l | 0 <= k < l < |rest| ensures rest[k] != rest[l] {
      assert rest[k] == xs[n + k] && rest[l] == xs[n + l];
    }
  }

  /** Removal of the first occurrence. */
  function Remove(xs: seq<nat>, x: nat): seq<nat> {
    if xs == [] then [] else if xs[0] == x then xs[1..] else [xs[0]] + Remove(xs[1..], x)
  }

  lemma {:induction false} RemoveShrinks(xs: seq<nat>, x: nat)
    requires Distinct(xs)
    ensures forall y :: y in Remove(xs, x) <==> y in xs && y != x
    ensures Distinct(Remove(xs, x))
  {
    if xs != [] {
      var rest := xs[1..];
      DistinctDrop(xs, 1);
      RemoveShrinks(rest, x);
      assert forall y :: y in xs <==> y == xs[0] || y in rest;
      if xs[0] != x {
        var r := Remove(rest, x);
        assert Remove(xs, x) == [xs[0]] + r;
        assert forall y :: y in [xs[0]] + r <==> y == xs[0] || y in r;
        assert forall k :: 0 <= k < |r| ==> r[k] in r;
      }
    }
  }
}

/** The machine word: `usize` and `u64` wrap at this bound. */
module Words {
  const WORD := 0x1_0000_0000_0000_0000
}
