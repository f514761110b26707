/** Completion of a `Future` (`mt_asyncio/asyncio/_futures.py`) under wake deferral
    (`mt_asyncio/asyncio/_wakes.py`): any number of threads complete it, add and remove
    callbacks, and enter and leave nested deferral regions. */
module Futures {
  import opened Sums
  import opened Runs
  import opened Options

  type Callback = nat

  /** What a completion sets off: resuming the awaiters, or scheduling one callback. */
  datatype Job = WakeAwaiters | Call(cb: Callback)

  /** A thread: how many regions it is inside, the jobs it has collected there, those left
      to release on its way out, and those its current operation has still to emit.
      `emitted` and `released` record its jobs in order. */
  datatype Thread = Thread(depth: nat, pending: seq<Job>, flushing: seq<Job>, todo: seq<Job>,
                           emitted: seq<Job>, released: seq<Job>)

  /** `wins` counts the completions that found the future pending; `live` holds the
      callbacks added and not removed, once for each time one was added. */
  datatype State = State(done: bool, callbacks: seq<Callback>, threads: seq<Thread>, wins: nat,
                         live: multiset<Callback>)

  datatype Action =
    | Enter(t: nat) | Exit(t: nat)
    | Complete(t: nat)                   // the critical section of set_result, set_exception or cancel
    | AddCallback(t: nat, cb: Callback)
    | RemoveCallback(t: nat, cb: Callback)
    | Emit(t: nat)                       // `_wake`, or `call_soon` for one callback
    | Flush(t: nat)                      // the next deferred job, whether or not it raises

  const QUIET := Thread(0, [], [], [], [], [])

  predicate Init(s: State) {
    && !s.done && s.callbacks == [] && s.wins == 0 && s.live == multiset{}
    && forall t :: 0 <= t < |s.threads| ==> s.threads[t] == QUIET
  }

  predicate Enabled(s: State, a: Action) {
    && a.t < |s.threads|
    && (match a
        case Emit(t) => s.threads[t].todo != []
        case Flush(t) => s.threads[t].flushing != []
        case _ => s.threads[a.t].todo == [] && s.threads[a.t].flushing == [])
    && (a.Exit? ==> s.threads[a.t].depth > 0)
  }

  function Set(s: State, t: nat, x: Thread): State
    requires t < |s.threads|
  {
    s.(threads := s.threads[t := x])
  }

  function Calls(cbs: seq<Callback>): (js: seq<Job>)
    ensures |js| == |cbs| && forall i :: 0 <= i < |cbs| ==> js[i] == Call(cbs[i])
  {
    seq(|cbs|, i requires 0 <= i < |cbs| => Call(cbs[i]))
  }

  function Keep(cbs: seq<Callback>, gone: Callback): seq<Callback> {
    if cbs == [] then []
    else if cbs[0] == gone then Keep(cbs[1..], gone)
    else [cbs[0]] + Keep(cbs[1..], gone)
  }

  /** `__enter__` and `__exit__`: only the outermost exit releases what was collected. */
  function Entered(x: Thread): Thread { x.(depth := x.depth + 1) }

  function Exited(x: Thread): Thread
    requires x.depth > 0
  {
    if x.depth == 1 then x.(depth := 0, flushing := x.pending, pending := []) else x.(depth := x.depth - 1)
  }

  /** A job is released at once, or collected while inside a region. */
  function Emitted(x: Thread): Thread
    requires x.todo != []
  {
    var j := x.todo[0];
    var x1 := x.(todo := x.todo[1..], emitted := x.emitted + [j]);
    if x.depth == 0 then x1.(released := x.released + [j]) else x1.(pending := x.pending + [j])
  }

  function Flushed(x: Thread): Thread
    requires x.flushing != []
  {
    x.(flushing := x.flushing[1..], released := x.released + [x.flushing[0]])
  }

  function Step(s: State, a: Action): State
    requires Enabled(s, a)
  {
    var x := s.threads[a.t];
    match a
    case Enter(t) => Set(s, t, Entered(x))
    case Exit(t) => Set(s, t, Exited(x))
    case Complete(t) =>
      if s.done then s
      else Set(s, t, x.(todo := [WakeAwaiters] + Calls(s.callbacks))).(done := true, callbacks := [], wins := s.wins + 1)
    case AddCallback(t, cb) =>
      var s1 := s.(live := s.live + multiset{cb});
      if s.done then Set(s1, t, x.(todo := [Call(cb)])) else s1.(callbacks := s.callbacks + [cb])
    case RemoveCallback(t, cb) =>
      var kept := Keep(s.callbacks, cb);
      var s1 := if s.done then s else s.(live := s.live[cb := 0]);
      if |kept| == |s.callbacks| then s1 else s1.(callbacks := kept)
    case Emit(t) => Set(s, t, Emitted(x))
    case Flush(t) => Set(s, t, Flushed(x))
  }

  ghost predicate Next(s: State, t: State) {
    exists a :: Enabled(s, a) && t == Step(s, a)
  }

  // ----- one thread: order and holding back -----

  predicate ThreadOk(x: Thread) {
    && x.emitted == x.released + x.flushing + x.pending
    && (x.depth == 0 ==> x.pending == [])
    && (x.flushing != [] ==> x.depth == 0 && x.todo == [])
  }

  lemma ThreadOkStep(s: State, a: Action)
    requires Enabled(s, a) && ThreadOk(s.threads[a.t])
    ensures |Step(s, a).threads| == |s.threads| && ThreadOk(Step(s, a).threads[a.t])
  {
    var x := s.threads[a.t];
    if a.Emit? {
      assert x.flushing == [];
      assert x.released + [] + x.pending + [x.todo[0]] == x.released + [] + (x.pending + [x.todo[0]]);
      assert x.depth == 0 ==> x.released + [x.todo[0]] + [] + [] == x.emitted + [x.todo[0]];
    } else if a.Flush? {
      assert x.flushing == [x.flushing[0]] + x.flushing[1..];
      assert x.released + ([x.flushing[0]] + x.flushing[1..]) == x.released + [x.flushing[0]] + x.flushing[1..];
    } else if a.Exit? {
      assert x.released + [] + x.pending == x.released + x.pending + [];
    }
  }

  // ----- all threads: each job exactly once -----

  /** How often job `j` is with a thread: to be emitted, held back, or released. */
  function Share(x: Thread, j: Job): int {
    multiset(x.todo)[j] + multiset(x.emitted)[j]
  }

  ghost function Weigh(j: Job): Thread -> int { (x: Thread) => Share(x, j) }

  ghost function Occurrences(s: State, j: Job): int {
    (if j.Call? then multiset(s.callbacks)[j.cb] else 0) + Sum(Weigh(j), s.threads)
  }

  ghost predicate JobOk(s: State, j: Job) {
    Occurrences(s, j) == if j.WakeAwaiters? then s.wins else s.live[j.cb]
  }

  /** Nothing has been set off while the future is pending. */
  predicate NothingYet(x: Thread) { x.todo == [] && x.emitted == [] }

  ghost predicate Inv(s: State) {
    && (!s.done ==> forall t :: 0 <= t < |s.threads| ==> NothingYet(s.threads[t]))
    && s.wins == (if s.done then 1 else 0)
    && (s.done ==> s.callbacks == [])
    && (forall t :: 0 <= t < |s.threads| ==> ThreadOk(s.threads[t]))
    && (forall j :: JobOk(s, j))
  }

  lemma ShareMove(s: State, t: nat, x: Thread, j: Job)
    requires t < |s.threads|
    ensures Sum(Weigh(j), s.threads[t := x]) == Sum(Weigh(j), s.threads) - Share(s.threads[t], j) + Share(x, j)
    ensures Sum(Weigh(j), s.threads) >= Share(s.threads[t], j) >= 0
  {
    Update(Weigh(j), s.threads, t, x);
    AtLeastEach(Weigh(j), s.threads, t);
  }

  lemma {:induction false} CallsCount(cbs: seq<Callback>, j: Job)
    ensures multiset(Calls(cbs))[j] == if j.Call? then multiset(cbs)[j.cb] else 0
  {
    if cbs != [] {
      var init, last := cbs[..|cbs| - 1], cbs[|cbs| - 1];
      CallsCount(init, j);
      assert cbs == init + [last];
      assert Calls(cbs) == Calls(init) + [Call(last)];
    }
  }

  lemma {:induction false} KeepCount(cbs: seq<Callback>, gone: Callback, cb: Callback)
    ensures multiset(Keep(cbs, gone))[cb] == if cb == gone then 0 else multiset(cbs)[cb]
  {
    if cbs != [] {
      KeepCount(cbs[1..], gone, cb);
      assert cbs == [cbs[0]] + cbs[1..];
      if cbs[0] != gone { assert Keep(cbs, gone) == [cbs[0]] + Keep(cbs[1..], gone); }
    }
  }

  lemma EmitShare(x: Thread, j: Job)
    requires x.todo != []
    ensures Share(Emitted(x), j) == Share(x, j)
  {
    assert x.todo == [x.todo[0]] + x.todo[1..];
  }

  lemma CompleteShare(x: Thread, cbs: seq<Callback>, j: Job)
    requires x.todo == []
    ensures Share(x.(todo := [WakeAwaiters] + Calls(cbs)), j) ==
            Share(x, j) + if j.WakeAwaiters? then 1 else multiset(cbs)[j.cb]
  {
    CallsCount(cbs, j);
    assert multiset([WakeAwaiters] + Calls(cbs)) == multiset{WakeAwaiters} + multiset(Calls(cbs));
  }

  lemma CompleteJob(s: State, t: nat, j: Job)
    requires JobOk(s, j) && Enabled(s, Complete(t)) && !s.done
    ensures JobOk(Step(s, Complete(t)), j)
  {
    var x' := s.threads[t].(todo := [WakeAwaiters] + Calls(s.callbacks));
    CompleteShare(s.threads[t], s.callbacks, j);
    ShareMove(s, t, x', j);
  }

  lemma AddJob(s: State, a: Action, j: Job)
    requires JobOk(s, j) && Enabled(s, a) && a.AddCallback?
    ensures JobOk(Step(s, a), j)
  {
    var x := s.threads[a.t].(todo := [Call(a.cb)]);
    if s.done {
      assert Share(x, j) == Share(s.threads[a.t], j) + if j == Call(a.cb) then 1 else 0;
      ShareMove(s, a.t, x, j);
    } else {
      assert Step(s, a).threads == s.threads;
    }
  }

  lemma RemoveJob(s: State, a: Action, j: Job)
    requires JobOk(s, j) && Enabled(s, a) && a.RemoveCallback?
    requires if s.done then s.callbacks == [] else forall t :: 0 <= t < |s.threads| ==> NothingYet(s.threads[t])
    ensures JobOk(Step(s, a), j)
  {
    assert Step(s, a).threads == s.threads;
    KeepLength(s.callbacks, a.cb);
    if j.Call? { KeepCount(s.callbacks, a.cb, j.cb); }
    if !s.done { AllZero(Weigh(j), s.threads); }
  }

  /** A callback removed while the future is pending is nowhere: it will never be called. */
  lemma RemovedIsGone(run: seq<State>, k: nat, t: nat, cb: Callback)
    requires IsRun(Init, Next, run) && k < |run| && Enabled(run[k], RemoveCallback(t, cb)) && !run[k].done
    ensures Occurrences(Step(run[k], RemoveCallback(t, cb)), Call(cb)) == 0
    ensures forall other: Callback :: other != cb ==>
              Occurrences(Step(run[k], RemoveCallback(t, cb)), Call(other)) == Occurrences(run[k], Call(other))
  {
    RunInv(run, k);
    var s, s' := run[k], Step(run[k], RemoveCallback(t, cb));
    assert s'.threads == s.threads;
    KeepLength(s.callbacks, cb);
    KeepCount(s.callbacks, cb, cb);
    AllZero(Weigh(Call(cb)), s.threads);
    forall other: Callback | other != cb ensures Occurrences(s', Call(other)) == Occurrences(s, Call(other)) {
      KeepCount(s.callbacks, cb, other);
    }
  }

  /** Entering, leaving, emitting and releasing pass jobs along inside one thread. */
  lemma PassJob(s: State, a: Action, j: Job)
    requires JobOk(s, j) && Enabled(s, a) && (a.Enter? || a.Exit? || a.Emit? || a.Flush?)
    ensures JobOk(Step(s, a), j)
  {
    var x := s.threads[a.t];
    var x' := if a.Enter? then Entered(x) else if a.Exit? then Exited(x) else if a.Emit? then Emitted(x) else Flushed(x);
    if a.Emit? { EmitShare(x, j); }
    assert Share(x', j) == Share(x, j);
    ShareMove(s, a.t, x', j);
    assert Step(s, a) == Set(s, a.t, x');
  }

  lemma JobStep(s: State, a: Action, j: Job)
    requires Inv(s) && Enabled(s, a)
    ensures JobOk(Step(s, a), j)
  {
    assert JobOk(s, j);
    if a.Complete? {
      if !s.done { CompleteJob(s, a.t, j); }
    } else if a.AddCallback? {
      AddJob(s, a, j);
    } else if a.RemoveCallback? {
      RemoveJob(s, a, j);
    } else {
      PassJob(s, a, j);
    }
  }

  lemma NothingYetStep(s: State, a: Action)
    requires Enabled(s, a) && !Step(s, a).done
    requires forall t :: 0 <= t < |s.threads| ==> NothingYet(s.threads[t])
    ensures forall t :: 0 <= t < |Step(s, a).threads| ==> NothingYet(Step(s, a).threads[t])
  {
    assert NothingYet(s.threads[a.t]);
  }

  lemma ThreadsOkStep(s: State, a: Action)
    requires Enabled(s, a) && forall t :: 0 <= t < |s.threads| ==> ThreadOk(s.threads[t])
    ensures forall t :: 0 <= t < |Step(s, a).threads| ==> ThreadOk(Step(s, a).threads[t])
  {
    var s' := Step(s, a);
    ThreadOkStep(s, a);
    forall t | 0 <= t < |s'.threads| ensures ThreadOk(s'.threads[t]) { assert t == a.t || s'.threads[t] == s.threads[t]; }
  }

  lemma DoneStep(s: State, a: Action)
    requires Enabled(s, a) && s.wins == (if s.done then 1 else 0) && (s.done ==> s.callbacks == [])
    ensures var s' := Step(s, a); s'.wins == (if s'.done then 1 else 0) && (s'.done ==> s'.callbacks == []) && (s.done ==> s'.done)
  {
  }

  lemma StepInv(s: State, a: Action)
    requires Inv(s) && Enabled(s, a)
    ensures Inv(Step(s, a))
  {
    DoneStep(s, a);
    ThreadsOkStep(s, a);
    if !Step(s, a).done { NothingYetStep(s, a); }
    forall j ensures JobOk(Step(s, a), j) { JobStep(s, a, j); }
  }

  lemma InitInv(s: State)
    requires Init(s)
    ensures Inv(s)
  {
    forall j ensures JobOk(s, j) { AllZero(Weigh(j), s.threads); }
  }

  lemma RunInv(run: seq<State>, k: nat)
    requires IsRun(Init, Next, run) && k < |run|
    ensures Inv(run[k])
  {
    forall s | Init(s) ensures Inv(s) { InitInv(s); }
    forall s, t | Inv(s) && Next(s, t) ensures Inv(t) {
      var a :| Enabled(s, a) && t == Step(s, a);
      StepInv(s, a);
    }
    Always(Init, Next, Inv, run, k);
  }

  /** In every run: at most one completion wins, and it wakes the awaiters once; every
      callback is waiting at the future, on its way, held back or scheduled exactly as
      often as it was added and not removed; and what each thread has set off is released
      in the order it was set off. */
  lemma EachJobExactlyOnce(run: seq<State>, k: nat)
    requires IsRun(Init, Next, run) && k < |run|
    ensures var s := run[k];
            && s.wins <= 1
            && Occurrences(s, WakeAwaiters) == s.wins
            && (forall cb :: Occurrences(s, Call(cb)) == s.live[cb])
            && (forall t :: 0 <= t < |s.threads| ==>
                  s.threads[t].emitted == s.threads[t].released + s.threads[t].flushing + s.threads[t].pending)
  {
    RunInv(run, k);
    assert JobOk(run[k], WakeAwaiters);
    forall cb ensures Occurrences(run[k], Call(cb)) == run[k].live[cb] {
      assert JobOk(run[k], Call(cb));
    }
  }

  /** With the future done and every thread outside its regions with nothing left to do,
      everything has been released: the awaiters' wake once, each callback as often as it
      was added and not removed. */
  lemma AllReleasedAtRest(run: seq<State>, k: nat, j: Job)
    requires IsRun(Init, Next, run) && k < |run| && run[k].done
    requires forall t :: 0 <= t < |run[k].threads| ==>
               run[k].threads[t].depth == 0 && run[k].threads[t].todo == [] && run[k].threads[t].flushing == []
    ensures Sum((x: Thread) => multiset(x.released)[j], run[k].threads)
         == if j.WakeAwaiters? then 1 else run[k].live[j.cb]
  {
    RunInv(run, k);
    var s := run[k];
    assert JobOk(s, j);
    forall t | 0 <= t < |s.threads|
      ensures Weigh(j)(s.threads[t]) == multiset(s.threads[t].released)[j]
    {
      assert ThreadOk(s.threads[t]);
      assert s.threads[t].emitted == s.threads[t].released + [] + [];
    }
    SameSum(Weigh(j), (x: Thread) => multiset(x.released)[j], s.threads);
  }

  lemma {:induction false} SameSum(f: Thread -> int, g: Thread -> int, xs: seq<Thread>)
    requires forall i :: 0 <= i < |xs| ==> f(xs[i]) == g(xs[i])
    ensures Sum(f, xs) == Sum(g, xs)
  {
    if xs != [] {
      SameSum(f, g, xs[..|xs| - 1]);
    }
  }

  predicate InRegion(s: State, t: nat) {
    t < |s.threads| && ThreadOk(s.threads[t]) && s.threads[t].depth > 0
  }

  function ReleasedBy(s: State, t: nat): seq<Job> {
    if t < |s.threads| then s.threads[t].released else []
  }

  lemma HeldBackStep(s: State, s': State, t: nat)
    requires Next(s, s') && InRegion(s, t)
    ensures ReleasedBy(s', t) == ReleasedBy(s, t)
  {
    var a :| Enabled(s, a) && s' == Step(s, a);
  }

  /** While a thread stays inside regions, however nested, it releases nothing: all it has
      set off since stands behind what it had released, in order. */
  lemma RegionHoldsBack(run: seq<State>, k: nat, m: nat, t: nat)
    requires IsRun(Init, Next, run) && k <= m < |run|
    requires forall i :: k <= i <= m ==> t < |run[i].threads| && run[i].threads[t].depth > 0
    ensures run[m].threads[t].released == run[k].threads[t].released
    ensures run[m].threads[t].emitted == run[k].threads[t].released + run[m].threads[t].pending
  {
    forall i | k <= i <= m ensures InRegion(run[i], t) { RunInv(run, i); }
    forall s, s' | InRegion(s, t) && Next(s, s') ensures ReleasedBy(s', t) == ReleasedBy(s, t) { HeldBackStep(s, s', t); }
    Constant(Init, Next, s => InRegion(s, t), s => ReleasedBy(s, t), run, k, m);
    var x := run[m].threads[t];
    assert InRegion(run[m], t) && x.released + [] + x.pending == x.released + x.pending;
  }

  // ----- a completion inside a region, from end to end -----

  /** Thread `t` sets off all it has to set off; and releases all it has to release. */
  function AllEmitted(s: State, t: nat): State
    requires t < |s.threads|
    decreases |s.threads[t].todo|
  {
    if s.threads[t].todo == [] then s else AllEmitted(Step(s, Emit(t)), t)
  }

  function AllFlushed(s: State, t: nat): State
    requires t < |s.threads|
    decreases |s.threads[t].flushing|
  {
    if s.threads[t].flushing == [] then s else AllFlushed(Step(s, Flush(t)), t)
  }

  /** Thread `x` once it has set off all of `todo`, inside a region or outside. */
  function ThroughWith(x: Thread): Thread {
    var x1 := x.(todo := [], emitted := x.emitted + x.todo);
    if x.depth == 0 then x1.(released := x.released + x.todo) else x1.(pending := x.pending + x.todo)
  }

  lemma OneThenRest(done: seq<Job>, todo: seq<Job>)
    requires todo != []
    ensures (done + [todo[0]]) + todo[1..] == done + todo
  {
  }

  lemma OneEmitted(x: Thread)
    requires x.todo != []
    ensures ThroughWith(Emitted(x)) == ThroughWith(x)
  {
    OneThenRest(x.emitted, x.todo);
    OneThenRest(x.released, x.todo);
    OneThenRest(x.pending, x.todo);
  }

  lemma {:induction false} EmitsAll(s: State, t: nat)
    requires t < |s.threads|
    ensures var s' := AllEmitted(s, t);
            && |s'.threads| == |s.threads| && s'.done == s.done && s'.callbacks == s.callbacks
            && s'.threads[t] == ThroughWith(s.threads[t])
    decreases |s.threads[t].todo|
  {
    var x := s.threads[t];
    if x.todo != [] {
      EmitsAll(Step(s, Emit(t)), t);
      OneEmitted(x);
    } else {
      assert x.emitted + [] == x.emitted && x.released + [] == x.released && x.pending + [] == x.pending;
    }
  }

  lemma {:induction false} FlushesAll(s: State, t: nat)
    requires t < |s.threads|
    ensures var x, s' := s.threads[t], AllFlushed(s, t);
            |s'.threads| == |s.threads| && s'.threads[t] == x.(flushing := [], released := x.released + x.flushing)
    decreases |s.threads[t].flushing|
  {
    var x := s.threads[t];
    if x.flushing != [] {
      FlushesAll(Step(s, Flush(t)), t);
      assert x.released + x.flushing == x.released + [x.flushing[0]] + x.flushing[1..];
    } else {
      assert x.released + [] == x.released;
    }
  }

  /** The state in which thread `t` has entered a region, completed the future and set off
      what that sets off. */
  function CompletedInside(s: State, t: nat): State
    requires Enabled(s, Enter(t)) && !s.done
  {
    AllEmitted(Step(Step(s, Enter(t)), Complete(t)), t)
  }

  lemma HeldInside(s: State, t: nat)
    requires Enabled(s, Enter(t)) && !s.done && ThreadOk(s.threads[t]) && s.threads[t].depth == 0
    ensures var s', x, jobs := CompletedInside(s, t), s.threads[t], [WakeAwaiters] + Calls(s.callbacks);
            && s'.done && |s'.threads| == |s.threads|
            && s'.threads[t] == Thread(1, jobs, [], [], x.emitted + jobs, x.released)
  {
    var s2 := Step(Step(s, Enter(t)), Complete(t));
    EmitsAll(s2, t);
    assert [] + s2.threads[t].todo == s2.threads[t].todo;
  }

  /** A thread outside any region enters one, completes the future, and leaves: the future is
      done at once, nothing is released before the exit, and on the way out the awaiters'
      wake and every callback, in the order they were added. */
  lemma RegionRoundTrip(s: State, t: nat)
    requires Enabled(s, Enter(t)) && !s.done && ThreadOk(s.threads[t]) && s.threads[t].depth == 0
    ensures var s3 := CompletedInside(s, t);
            && s3.done && t < |s3.threads| && s3.threads[t].released == s.threads[t].released
            && Enabled(s3, Exit(t))
            && var s4 := AllFlushed(Step(s3, Exit(t)), t);
               && t < |s4.threads| && s4.threads[t].depth == 0 && s4.threads[t].flushing == []
               && s4.threads[t].released == s.threads[t].released + ([WakeAwaiters] + Calls(s.callbacks))
  {
    HeldInside(s, t);
    FlushesAll(Step(CompletedInside(s, t), Exit(t)), t);
  }

  // ----- the critical sections as an object -----

  lemma {:induction false} KeepLength(cbs: seq<Callback>, gone: Callback)
    ensures |Keep(cbs, gone)| == |cbs| - multiset(cbs)[gone]
  {
    if cbs != [] {
      KeepLength(cbs[1..], gone);
      assert cbs == [cbs[0]] + cbs[1..];
    }
  }

  class Future<Outcome(==)> {
    var outcome: Option<Outcome>
    var callbacks: seq<Callback>

    constructor ()
      ensures outcome == None && callbacks == []
    {
      outcome, callbacks := None, [];
    }

    /** What set_result, set_exception and cancel do under the lock: the first one in
        leaves its outcome for good and carries the callbacks away. */
    method Complete(o: Outcome) returns (won: bool, todo: seq<Job>)
      modifies this
      ensures won == old(outcome).None?
      ensures won ==> outcome == Some(o) && callbacks == [] && todo == [WakeAwaiters] + Calls(old(callbacks))
      ensures !won ==> outcome == old(outcome) && callbacks == old(callbacks) && todo == []
    {
      if outcome.Some? { return false, []; }
      outcome := Some(o);
      todo := [WakeAwaiters] + Calls(callbacks);
      callbacks := [];
      return true, todo;
    }

    method AddDoneCallback(cb: Callback) returns (todo: seq<Job>)
      modifies this`callbacks
      ensures outcome.None? ==> callbacks == old(callbacks) + [cb] && todo == []
      ensures outcome.Some? ==> callbacks == old(callbacks) && todo == [Call(cb)]
    {
      if outcome.None? {
        callbacks := callbacks + [cb];
        return [];
      }
      return [Call(cb)];
    }

    /** Every registration of `cb` goes, the others keep their order, and the caller learns
        how many went. */
    method RemoveDoneCallback(cb: Callback) returns (removed: nat)
      modifies this`callbacks
      ensures callbacks == Keep(old(callbacks), cb)
      ensures removed == multiset(old(callbacks))[cb]
    {
      var kept: seq<Callback> := [];
      for i := 0 to |callbacks|
        invariant callbacks == old(callbacks)
        invariant kept + Keep(callbacks[i..], cb) == Keep(callbacks, cb)
      {
        assert callbacks[i..] == [callbacks[i]] + callbacks[i + 1..];
        if callbacks[i] != cb { kept := kept + [callbacks[i]]; }
      }
      KeepLength(callbacks, cb);
      removed := |callbacks| - |kept|;
      if removed > 0 { callbacks := kept; } else { KeepAll(callbacks, cb); }
    }
  }

  /** `at` says where in `cbs` each of `kept` stands, in increasing order. */
  predicate StandsAt(cbs: seq<Callback>, kept: seq<Callback>, at: seq<nat>) {
    && |at| == |kept|
    && (forall i :: 0 <= i < |at| ==> at[i] < |cbs| && kept[i] == cbs[at[i]])
    && (forall i, j :: 0 <= i < j < |at| ==> at[i] < at[j])
  }

  lemma OneFurther(cbs: seq<Callback>, kept: seq<Callback>, rest: seq<nat>) returns (at: seq<nat>)
    requires cbs != [] && StandsAt(cbs[1..], kept, rest)
    ensures StandsAt(cbs, kept, at) && forall i :: 0 <= i < |at| ==> at[i] > 0
  {
    at := seq(|rest|, i requires 0 <= i < |rest| => rest[i] + 1);
    forall i | 0 <= i < |at| ensures at[i] < |cbs| && kept[i] == cbs[at[i]] { assert cbs[1..][rest[i]] == cbs[at[i]]; }
  }

  lemma InFront(cbs: seq<Callback>, kept: seq<Callback>, rest: seq<nat>) returns (at: seq<nat>)
    requires cbs != [] && StandsAt(cbs, kept, rest) && forall i :: 0 <= i < |rest| ==> rest[i] > 0
    ensures StandsAt(cbs, [cbs[0]] + kept, at)
  {
    at := [0] + rest;
    assert forall i :: 0 < i < |at| ==> at[i] == rest[i - 1] && ([cbs[0]] + kept)[i] == kept[i - 1];
  }

  /** What is kept keeps its order: each kept callback stands for one of the old ones, at a
      position further back than the one before. */
  lemma {:induction false} KeepsOrder(cbs: seq<Callback>, gone: Callback) returns (at: seq<nat>)
    ensures StandsAt(cbs, Keep(cbs, gone), at)
  {
    at := [];
    if cbs != [] {
      var rest := KeepsOrder(cbs[1..], gone);
      at := OneFurther(cbs, Keep(cbs[1..], gone), rest);
      if cbs[0] != gone { at := InFront(cbs, Keep(cbs[1..], gone), at); }
    }
  }

  lemma {:induction false} KeepAll(cbs: seq<Callback>, gone: Callback)
    requires |Keep(cbs, gone)| == |cbs|
    ensures Keep(cbs, gone) == cbs
  {
    KeepLength(cbs, gone);
    if cbs != [] {
      KeepLength(cbs[1..], gone);
      assert cbs == [cbs[0]] + cbs[1..];
      KeepAll(cbs[1..], gone);
    }
  }

  // ----- the deferral region as an object -----

  /** How many of the jobs raise. */
  function Failures(jobs: seq<Job>, raises: Job -> bool): nat {
    if jobs == [] then 0
    else Failures(jobs[..|jobs| - 1], raises) + if raises(jobs[|jobs| - 1]) then 1 else 0
  }

  class DeferWakes {
    var depth: nat
    var pending: seq<Job>
    var released: seq<Job>
    var reported: nat

    ghost predicate Valid()
      reads this
    {
      depth == 0 ==> pending == []
    }

    constructor ()
      ensures Valid() && depth == 0 && released == [] && reported == 0
    {
      depth, pending, released, reported := 0, [], [], 0;
    }

    method EnterRegion()
      requires Valid()
      modifies this`depth, this`pending
      ensures Valid() && depth == old(depth) + 1 && pending == old(pending)
    {
      if depth == 0 { pending := []; }
      depth := depth + 1;
    }

    method Append(j: Job)
      requires Valid()
      modifies this`pending, this`released
      ensures Valid()
      ensures depth > 0 ==> pending == old(pending) + [j] && released == old(released)
      ensures depth == 0 ==> pending == old(pending) && released == old(released) + [j]
    {
      if depth > 0 { pending := pending + [j]; } else { released := released + [j]; }
    }

    /** `__exit__`: an inner exit releases nothing; the outermost releases everything
        collected, in order, going on after a wake that raises and reporting each one that
        does. */
    method ExitRegion(raises: Job -> bool)
      requires Valid() && depth > 0
      modifies this
      ensures Valid() && depth == old(depth) - 1
      ensures depth > 0 ==> pending == old(pending) && released == old(released) && reported == old(reported)
      ensures depth == 0 ==>
                && pending == [] && released == old(released) + old(pending)
                && reported == old(reported) + Failures(old(pending), raises)
    {
      depth := depth - 1;
      if depth > 0 { return; }
      var jobs := pending;
      pending := [];
      for i := 0 to |jobs|
        invariant depth == old(depth) - 1 && pending == []
        invariant released == old(released) + jobs[..i]
        invariant reported == old(reported) + Failures(jobs[..i], raises)
      {
        assert jobs[..i + 1][..i] == jobs[..i];
        released := released + [jobs[i]];
        if raises(jobs[i]) { reported := reported + 1; }
      }
      assert jobs[..|jobs|] == jobs;
    }
  }
}
