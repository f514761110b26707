/** The theorems about whole runs of the parking protocol. */
module ParkingTheorems {
  import opened Sums
  import opened Parking
  import opened ParkingSafety
  import opened ParkingCoverage
  import opened Runs
  import opened Words

  /** The history fields mean what they say. */
  predicate HistoryOk(s: State) {
    && s.urgent <= s.issued && s.elided <= s.issued
    && (forall h :: h in s.injector ==> h in s.issued)
    && (forall t :: 0 <= t < |s.calls| && s.calls[t].handle.Some? ==>
          && s.calls[t].handle.value in s.issued
          && (s.calls[t].forced <==> s.calls[t].handle.value in s.urgent))
    && s.elided !! s.urgent
    && OneAnnouncer(s)
  }

  /** No two wake calls announce the same handle. */
  predicate OneAnnouncer(s: State) {
    forall t, u ::
      (0 <= t < |s.calls| && 0 <= u < |s.calls| && s.calls[t].handle.Some? && s.calls[t].handle == s.calls[u].handle)
      ==> t == u
  }

  lemma HistoryStep(s: State, a: Action)
    requires Shape(s) && HistoryOk(s) && Enabled(s, a)
    ensures HistoryOk(Step(s, a))
  {
    match a {
      case Work(w) =>
        WorkCalls(s, w);
        WorkTakes(s, w);
      case Wakeup(t) => HistoryWake(s, t);
      case _ =>
    }
  }

  lemma HistoryWake(s: State, t: nat)
    requires HistoryOk(s) && Enabled(s, Wakeup(t))
    ensures HistoryOk(WakeStep(s, t))
  {
    HistoryCall(s, t);
    var s' := WakeStep(s, t);
    forall u | 0 <= u < |s'.calls| && s'.calls[u].handle.Some?
      ensures s'.calls[u].handle.value in s'.issued
      ensures s'.calls[u].forced <==> s'.calls[u].handle.value in s'.urgent
    {
      assert s.calls[u].handle == s'.calls[u].handle;
    }
  }

  /** A wake call ends or goes on as what it is; and what it records is its own handle. */
  lemma HistoryCall(s: State, t: nat)
    requires Enabled(s, Wakeup(t))
    ensures var s', c := WakeStep(s, t), s.calls[t];
            && |s'.calls| == |s.calls| && s'.calls == s.calls[t := s'.calls[t]]
            && (s'.calls[t] == NO_CALL || (s'.calls[t].handle == c.handle && s'.calls[t].forced == c.forced))
            && s'.injector == s.injector && s'.issued == s.issued && s'.urgent == s.urgent
            && (s'.elided == s.elided || (c.handle.Some? && !c.forced && s'.elided == s.elided + {c.handle.value}))
  {
  }

  lemma WorkTakes(s: State, w: nat)
    requires Enabled(s, Work(w))
    ensures var s' := WorkStep(s, w);
            && (s'.injector == s.injector || (s.injector != [] && s'.injector == s.injector[1..]))
            && s'.issued == s.issued && s'.urgent == s.urgent && s'.elided == s.elided
  {
  }

  ghost predicate Inv(s: State) {
    Shape(s) && Accounting(s) && AllReachable(s) && AllAccounted(s) && HistoryOk(s)
  }

  lemma InitInv(s: State)
    requires Init(s)
    ensures Inv(s)
  {
    AllZero(IdleShare, s.workers);
    AllZero(ClaimShare, s.calls);
    AllZero(TokenShare, s.workers);
    AllZero(SweepShare, s.calls);
  }

  lemma StepInv(s: State, a: Action)
    requires Inv(s) && Enabled(s, a)
    ensures Inv(Step(s, a))
  {
    var s' := Step(s, a);
    ShapeStep(s, a);
    AccountingStep(s, a);
    HistoryStep(s, a);
    assert |s'.workers| == |s.workers| by { ReachableStep(s, a, 0); SameWorkers(s, a); }
    forall v | 0 <= v < |s'.workers| ensures Reachable(s', v) {
      assert Reachable(s, v);
      ReachableStep(s, a, v);
    }
    forall h | h in s'.injector ensures Accounted(s', h) {
      AccountedStep(s, a, h);
    }
  }

  lemma SameWorkers(s: State, a: Action)
    requires Enabled(s, a)
    ensures |Step(s, a).workers| == |s.workers| && |Step(s, a).calls| == |s.calls|
  {
    match a {
      case Work(w) =>
        var p, y := StolenFrom(s, w);
        WorkCalls(s, w);
      case _ =>
    }
  }

  /** One more action at the end of a run. */
  lemma Then(run: seq<State>, a: Action, s: State) returns (longer: seq<State>)
    requires IsRun(Init, Next, run) && Enabled(run[|run| - 1], a) && s == Step(run[|run| - 1], a)
    ensures longer == run + [s] && IsRun(Init, Next, longer)
  {
    longer := run + [s];
    Extend(Init, Next, run, s);
  }

  /** Every state of every run satisfies the invariant. */
  lemma RunInv(run: seq<State>, k: nat)
    requires IsRun(Init, Next, run) && k < |run|
    ensures Inv(run[k])
  {
    forall s | Init(s) ensures Inv(s) { InitInv(s); }
    forall s, t | Inv(s) && Next(s, t) ensures Inv(t) {
      var a :| Enabled(s, a) && t == Step(s, a);
      StepInv(s, a);
    }
    Always(Init, Next, Inv, run, k);
  }

  // ----- counters -----

  /** The counters account for the threads in every state of every run; and they
      stay so close to zero that a machine word holding them, wrapping below zero
      while a claim overtakes its own advertisement, is zero exactly when they are. */
  lemma CountersAccount(run: seq<State>, k: nat)
    requires IsRun(Init, Next, run) && k < |run|
    ensures var s := run[k];
            && s.idleCount == Sum(IdleShare, s.workers) + Sum(ClaimShare, s.calls)
            && s.speculation == Sum(TokenShare, s.workers) + Sum(SweepShare, s.calls)
            && -|s.workers| <= s.idleCount <= |s.workers| + |s.calls|
            && 0 <= s.speculation <= 3 * |s.workers| + |s.calls|
            && (|s.workers| + |s.calls| < WORD ==> (s.idleCount % WORD == 0 <==> s.idleCount == 0))
  {
    RunInv(run, k);
    var s := run[k];
    SumBounds(IdleShare, s.workers, -1, 1);
    SumBounds(ClaimShare, s.calls, 0, 1);
    SumBounds(TokenShare, s.workers, 0, 3);
    SumBounds(SweepShare, s.calls, 0, 1);
  }

  lemma {:induction false} SumBounds<T>(f: T -> int, xs: seq<T>, lo: int, hi: int)
    requires forall i :: 0 <= i < |xs| ==> lo <= f(xs[i]) <= hi
    ensures lo * |xs| <= Sum(f, xs) <= hi * |xs|
  {
    if |xs| > 0 {
      var init := xs[..|xs| - 1];
      assert forall i :: 0 <= i < |init| ==> f(init[i]) == f(xs[i]);
      SumBounds(f, init, lo, hi);
    }
  }

  /** Nothing moves: every worker is blocked in `park` and no wake call is open. */
  predicate Quiescent(s: State) {
    && (forall w :: 0 <= w < |s.workers| ==> s.workers[w].pc.Park? && !s.workers[w].token)
    && (forall t :: 0 <= t < |s.calls| ==> s.calls[t].wake.Outside?)
  }

  /** When nothing moves the throttle is open, every worker is counted idle, every
      local deque is empty, and the injector holds only elided handles. */
  lemma QuiescentIsClean(run: seq<State>, k: nat)
    requires IsRun(Init, Next, run) && k < |run| && Quiescent(run[k])
    ensures var s := run[k];
            && s.speculation == 0
            && s.idleCount == |s.workers|
            && (forall w :: 0 <= w < |s.workers| ==> s.workers[w].flag && s.workers[w].local == [])
            && (forall h :: h in s.injector ==> h in s.elided)
  {
    RunInv(run, k);
    var s := run[k];
    forall w | 0 <= w < |s.workers| ensures s.workers[w].flag && s.workers[w].local == [] {
      assert Reachable(s, w) && WorkerOk(s.workers[w]);
    }
    SumBounds(IdleShare, s.workers, 1, 1);
    SumBounds(ClaimShare, s.calls, 0, 0);
    SumBounds(TokenShare, s.workers, 0, 0);
    SumBounds(SweepShare, s.calls, 0, 0);
    forall h | h in s.injector ensures h in s.elided {
      assert Accounted(s, h);
    }
  }

  // ----- no stranded work -----

  /** `h` is in the injector, its wake call is over or past deciding, every worker is
      blocked in `park`, and no unpark is pending or still being looked for. */
  ghost predicate Stranded(s: State, h: Handle) {
    && h in s.injector
    && !Fresh(s, h)
    && (forall w :: 0 <= w < |s.workers| ==> s.workers[w].pc.Park? && !s.workers[w].token && !Claimed(s, w))
    && (forall t :: 0 <= t < |s.calls| ==> !SweepsOn(s.calls[t], |s.workers|))
  }

  lemma StrandedIsElided(s: State, h: Handle)
    requires Inv(s) && Stranded(s, h)
    ensures h in s.elided
  {
    assert Accounted(s, h);
    if w :| 0 <= w < |s.workers| && Awake(s, w) {}
  }

  /** In every run, only a handle whose throttled wake was dropped against an outside
      thread past its last flag can be stranded. */
  lemma StrandedOnlyIfElided(run: seq<State>, k: nat, h: Handle)
    requires IsRun(Init, Next, run) && k < |run|
    ensures Stranded(run[k], h) ==> h in run[k].elided
  {
    RunInv(run, k);
    if Stranded(run[k], h) { StrandedIsElided(run[k], h); }
  }

  /** A handle announced by the forced wake is never stranded. */
  lemma ForcedNeverStranded(run: seq<State>, k: nat, h: Handle)
    requires IsRun(Init, Next, run) && k < |run| && h in run[k].urgent
    ensures !Stranded(run[k], h)
  {
    RunInv(run, k);
    if Stranded(run[k], h) { StrandedIsElided(run[k], h); }
  }

  // ----- runs in which no announcement is dropped in a deserted state -----

  /** The step drops a throttled announcement in a deserted state. */
  predicate DropsDeserted(s: State, a: Action)
    requires Enabled(s, a)
  {
    && a.Wakeup? && s.calls[a.t].wake.TakeToken? && !s.calls[a.t].forced && s.calls[a.t].handle.Some?
    && s.speculation != 0 && Deserted(s)
  }

  ghost predicate WatchfulNext(s: State, t: State) {
    exists a :: Enabled(s, a) && t == Step(s, a) && !DropsDeserted(s, a)
  }

  ghost predicate WatchfulInv(s: State) { Inv(s) && s.elided == {} }

  lemma WatchfulStep(s: State, a: Action)
    requires WatchfulInv(s) && Enabled(s, a) && !DropsDeserted(s, a)
    ensures WatchfulInv(Step(s, a))
  {
    StepInv(s, a);
    match a {
      case Work(w) => WorkTakes(s, w);
      case _ =>
    }
  }

  /** In every run without such a drop, no handle is ever stranded, however it was
      announced and however the threads interleave. */
  lemma WatchfulNeverStranded(run: seq<State>, k: nat, h: Handle)
    requires IsRun(Init, WatchfulNext, run) && k < |run|
    ensures !Stranded(run[k], h)
  {
    forall s | Init(s) ensures WatchfulInv(s) { InitInv(s); }
    forall s, t | WatchfulInv(s) && WatchfulNext(s, t) ensures WatchfulInv(t) {
      var a :| Enabled(s, a) && t == Step(s, a) && !DropsDeserted(s, a);
      WatchfulStep(s, a);
    }
    Always(Init, WatchfulNext, WatchfulInv, run, k);
    if Stranded(run[k], h) { StrandedIsElided(run[k], h); }
  }

  /** At most one outside thread is between its push and the end of its wake call. */
  predicate OneOutsider(s: State) {
    forall t, u ::
      (|s.workers| <= t < |s.calls| && |s.workers| <= u < |s.calls|
       && !s.calls[t].wake.Outside? && !s.calls[u].wake.Outside?)
      ==> t == u
  }

  ghost predicate SoloNext(s: State, t: State) { OneOutsider(s) && Next(s, t) }

  /** In a deserted state the token that stops thread `t` is with another outside thread
      past its last flag, and `t` is an outside thread itself. */
  lemma DesertedHasExhausted(s: State, t: nat)
    requires Inv(s) && Deserted(s) && s.speculation != 0 && t < |s.calls| && s.calls[t].wake.TakeToken?
    ensures t >= |s.workers| && ExhaustedElsewhere(s, t)
  {
    DesertedIsUncovered(s);
    TokenOutIsCovered(s, t);
  }

  lemma SoloStep(s: State, a: Action)
    requires WatchfulInv(s) && OneOutsider(s) && Enabled(s, a)
    ensures WatchfulInv(Step(s, a))
  {
    if DropsDeserted(s, a) { DesertedHasExhausted(s, a.t); }
    WatchfulStep(s, a);
  }

  /** With outside threads taking turns, no handle is ever stranded, however it was
      announced and however the workers interleave. */
  lemma TakingTurnsNeverStranded(run: seq<State>, k: nat, h: Handle)
    requires IsRun(Init, SoloNext, run) && k < |run|
    ensures !Stranded(run[k], h)
  {
    forall s | Init(s) ensures WatchfulInv(s) { InitInv(s); }
    forall s, t | WatchfulInv(s) && SoloNext(s, t) ensures WatchfulInv(t) {
      var a :| Enabled(s, a) && t == Step(s, a);
      SoloStep(s, a);
    }
    Always(Init, SoloNext, WatchfulInv, run, k);
    if Stranded(run[k], h) { StrandedIsElided(run[k], h); }
  }
}
