/** A dispatch runs the user's callback, and a cancelled handle's does not. */
module FdHandleDispatch {
  import opened Readiness
  import opened FdHandles
  import opened FdHandleSafety
  import opened FdHandleLevel
  import opened Sums
  import opened Runs

  /** The thread has begun a dispatch of direction `d` and is not through with the callback. */
  predicate Dispatching(pc: Pc, d: Direction) { (pc.Dispatch? || pc.UserCallback?) && pc.d == d }

  ghost function Begun(d: Direction): Pc -> int { (pc: Pc) => Bit(Dispatching(pc, d)) }

  /** The thread is inside the user's callback. */
  predicate Inside(pc: Pc, d: Direction) { pc == UserCallback(d) }

  ghost function Calling(d: Direction): Pc -> int { (pc: Pc) => Bit(Inside(pc, d)) }

  ghost predicate LogOk(s: State, d: Direction) {
    var x, side := GetLog(s, d), Get(s, d);
    && x.begun == x.ran + x.skipped + Sum(Begun(d), s.threads)
    && (x.skipped > 0 ==> x.cancelled)
    && (side.active <==> side.added && !x.cancelled)
    && (x.cancelled ==> side.added)
  }

  lemma LogThread(s: State, t: nat, d: Direction)
    requires LogOk(s, d) && OneToken(s, d) && Enabled(s, Proceed(t))
    ensures LogOk(ThreadMove(s, t), d)
  {
    ThreadGentle(s, t);
    ThreadLog(s, t, d);
    if On(s.threads[t], d) { ActingAdded(s, t, d); }
    Update(Begun(d), s.threads, t, ThreadMove(s, t).threads[t]);
  }

  lemma ActingAdded(s: State, t: nat, d: Direction)
    requires OneToken(s, d) && t < |s.threads| && On(s.threads[t], d)
    ensures Get(s, d).added
  {
    AtLeastEach(OnReader, s.threads, t);
    AtLeastEach(OnWriter, s.threads, t);
  }

  /** What a thread's step does to the log. */
  predicate Logs(s: State, s': State, t: nat, d: Direction)
    requires t < |s.threads|
  {
    var x, x' := GetLog(s, d), GetLog(s', d);
    && t < |s'.threads|
    && x'.begun == x.begun && x'.cancelled == x.cancelled
    && x'.ran == x.ran + Bit(Inside(s.threads[t], d))
    && x'.skipped == x.skipped + Bit(s.threads[t] == Dispatch(d) && !Get(s, d).active)
    && (Dispatching(s'.threads[t], d) <==> s.threads[t] == Dispatch(d) && Get(s, d).active)
    && (Inside(s'.threads[t], d) <==> s.threads[t] == Dispatch(d) && Get(s, d).active)
  }

  lemma ThreadLog(s: State, t: nat, d: Direction)
    requires Enabled(s, Proceed(t))
    ensures Logs(s, ThreadMove(s, t), t, d)
  {
    var pc := s.threads[t];
    if Arming(pc) {
      assert Logs(s, ArmMove(s, t, pc.d, pc.n), t, d);
    } else if Reconciling(pc) {
      ReconcileLog(s, t, d);
    } else {
      DispatchLog(s, t, d);
    }
  }

  lemma ReconcileLog(s: State, t: nat, d: Direction)
    requires Enabled(s, Proceed(t)) && Reconciling(s.threads[t])
    ensures Logs(s, ReconcileMove(s, t), t, d)
  {
  }

  lemma DispatchLog(s: State, t: nat, d: Direction)
    requires Enabled(s, Proceed(t)) && !Arming(s.threads[t]) && !Reconciling(s.threads[t])
    ensures Logs(s, DispatchMove(s, t), t, d)
  {
  }

  lemma LogStart(s: State, a: Action, d: Direction)
    requires LogOk(s, d) && Enabled(s, a) && (a.Add? || a.StartDispatch? || a.StartTold?)
    ensures LogOk(Step(s, a), d)
  {
    if a.Add? { LogAdd(s, a.t, a.d, d); } else { LogTake(s, a, d); }
  }

  lemma LogAdd(s: State, t: nat, mine: Direction, d: Direction)
    requires LogOk(s, d) && Enabled(s, Add(t, mine))
    ensures LogOk(Step(s, Add(t, mine)), d)
  {
    Update(Begun(d), s.threads, t, Arm(mine, 0));
    assert Step(s, Add(t, mine)).threads == s.threads[t := Arm(mine, 0)];
  }

  lemma LogTake(s: State, a: Action, d: Direction)
    requires LogOk(s, d) && Enabled(s, a) && (a.StartDispatch? || a.StartTold?)
    ensures LogOk(Step(s, a), d)
  {
    var pc := if a.StartDispatch? then Dispatch(a.d) else Tell(a.d);
    Update(Begun(d), s.threads, a.t, pc);
    assert Step(s, a).threads == s.threads[a.t := pc];
  }

  lemma LogPoll(s: State, d: Direction)
    requires LogOk(s, d) && Enabled(s, PollStep)
    ensures LogOk(PollMove(s), d)
  {
    PollSeen(s);
    PollHandsOn(s, d);
    assert GetLog(PollMove(s), d) == GetLog(s, d);
  }

  lemma LogElsewhere(s: State, a: Action, d: Direction)
    requires LogOk(s, d) && Enabled(s, a) && (a.Rise? || a.Fall? || a.Fetch? || a.Deregister? || a.Cancel?)
    ensures LogOk(Step(s, a), d)
  {
    assert Step(s, a).threads == s.threads;
  }

  lemma LogStep(s: State, a: Action, d: Direction)
    requires LogOk(s, d) && OneToken(s, d) && Enabled(s, a)
    ensures LogOk(Step(s, a), d)
  {
    if a.Proceed? {
      LogThread(s, a.t, d);
    } else if a.PollStep? {
      LogPoll(s, d);
    } else if a.Add? || a.StartDispatch? || a.StartTold? {
      LogStart(s, a, d);
    } else {
      LogElsewhere(s, a, d);
    }
  }

  ghost predicate Recorder(s: State) { TokenInv(s) && LogOk(s, Reader) && LogOk(s, Writer) }

  lemma RecorderStep(s: State, a: Action)
    requires Recorder(s) && Enabled(s, a)
    ensures Recorder(Step(s, a))
  {
    OneTokenStep(s, a, Reader);
    OneTokenStep(s, a, Writer);
    LogStep(s, a, Reader);
    LogStep(s, a, Writer);
  }

  lemma RecorderAt(run: seq<State>, k: nat)
    requires IsRun(Init, Next, run) && k < |run|
    ensures Recorder(run[k])
  {
    forall s | Init(s) ensures Recorder(s) {
      InitInv(s);
      AllZero(Begun(Reader), s.threads);
      AllZero(Begun(Writer), s.threads);
    }
    forall s, s' | Recorder(s) && Next(s, s') ensures Recorder(s') {
      var a :| Enabled(s, a) && s' == Step(s, a);
      RecorderStep(s, a);
    }
    Always(Init, Next, Recorder, run, k);
  }

  /** In every run, every dispatch begun has run the user's callback, is on its way to or
      inside it, or was skipped; and none is skipped unless the handle was cancelled, which
      is the only way for an added handle to be inactive. */
  lemma EveryDispatchRuns(run: seq<State>, k: nat, d: Direction)
    requires IsRun(Init, Next, run) && k < |run|
    ensures var x := GetLog(run[k], d);
            && x.begun == x.ran + x.skipped + Sum(Begun(d), run[k].threads)
            && (!x.cancelled ==> x.skipped == 0)
            && (Get(run[k], d).active <==> Get(run[k], d).added && !x.cancelled)
  {
    RecorderAt(run, k);
    assert LogOk(run[k], d);
  }

  // ----- after a cancel -----

  /** The handle is cancelled, and at most `bound` callbacks have run or are running. */
  ghost predicate Winding(s: State, d: Direction, bound: int) {
    Recorder(s) && GetLog(s, d).cancelled && GetLog(s, d).ran + Sum(Calling(d), s.threads) <= bound
  }

  lemma WindingThread(s: State, t: nat, d: Direction, bound: int)
    requires Winding(s, d, bound) && Enabled(s, Proceed(t))
    ensures GetLog(ThreadMove(s, t), d).cancelled
    ensures GetLog(ThreadMove(s, t), d).ran + Sum(Calling(d), ThreadMove(s, t).threads) <= bound
  {
    ThreadGentle(s, t);
    ThreadLog(s, t, d);
    assert LogOk(s, d);
    Update(Calling(d), s.threads, t, ThreadMove(s, t).threads[t]);
  }

  lemma WindingStart(s: State, a: Action, d: Direction)
    requires Enabled(s, a) && (a.Add? || a.StartDispatch? || a.StartTold?)
    ensures var s' := Step(s, a);
            && GetLog(s', d).cancelled == GetLog(s, d).cancelled && GetLog(s', d).ran == GetLog(s, d).ran
            && Sum(Calling(d), s'.threads) == Sum(Calling(d), s.threads)
  {
    Update(Calling(d), s.threads, a.t, Step(s, a).threads[a.t]);
  }

  lemma WindingElsewhere(s: State, a: Action, d: Direction)
    requires Enabled(s, a) && !a.Proceed? && !a.Add? && !a.StartDispatch? && !a.StartTold?
    ensures var s' := Step(s, a);
            && (GetLog(s, d).cancelled ==> GetLog(s', d).cancelled) && GetLog(s', d).ran == GetLog(s, d).ran
            && s'.threads == s.threads
  {
  }

  lemma WindingStep(s: State, a: Action, d: Direction, bound: int)
    requires Winding(s, d, bound) && Enabled(s, a)
    ensures Winding(Step(s, a), d, bound)
  {
    RecorderStep(s, a);
    if a.Proceed? {
      WindingThread(s, a.t, d, bound);
    } else if a.Add? || a.StartDispatch? || a.StartTold? {
      WindingStart(s, a, d);
    } else {
      WindingElsewhere(s, a, d);
    }
  }

  lemma CallingAtMostOne(s: State, d: Direction)
    requires OneToken(s, d)
    ensures 0 <= Sum(Calling(d), s.threads) <= 1
  {
    AtLeastEach(Calling(d), s.threads, 0);
    if d.Reader? { SumAtMost(Calling(d), OnReader, s.threads); } else { SumAtMost(Calling(d), OnWriter, s.threads); }
  }

  /** Once a handle is cancelled, its callback does not start again: at most the one call
      that was under way is still to finish. */
  lemma CancelStopsTheCallback(run: seq<State>, k: nat, m: nat, d: Direction)
    requires IsRun(Init, Next, run) && k <= m < |run| && GetLog(run[k], d).cancelled
    ensures GetLog(run[m], d).ran <= GetLog(run[k], d).ran + Sum(Calling(d), run[k].threads)
    ensures Sum(Calling(d), run[k].threads) <= 1
  {
    RecorderAt(run, k);
    assert OneToken(run[k], d);
    CallingAtMostOne(run[k], d);
    var bound := GetLog(run[k], d).ran + Sum(Calling(d), run[k].threads);
    forall s, s' | Winding(s, d, bound) && Next(s, s') ensures Winding(s', d, bound) {
      var a :| Enabled(s, a) && s' == Step(s, a);
      WindingStep(s, a, d, bound);
    }
    Onward(Init, Next, s => Winding(s, d, bound), run, k, m);
    AtLeastEach(Calling(d), run[m].threads, 0);
  }
}
