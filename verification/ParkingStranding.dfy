/** Exactly when the wake dropped at work.rs:70 strands its handle: for the moment, and
    for good. */
module ParkingStranding {
  import opened Options
  import opened Sums
  import opened Parking
  import opened ParkingSafety
  import opened ParkingCoverage
  import opened ParkingTheorems
  import opened Runs

  function Last(run: seq<State>): State
    requires run != []
  {
    run[|run| - 1]
  }

  /** `longer` is a run that goes on from `run`. */
  ghost predicate Continues(run: seq<State>, longer: seq<State>) {
    run != [] && run <= longer && IsRun(Init, Next, longer)
  }

  /** Thread `t`'s throttled announcement of `h` is about to be dropped. */
  predicate Dropping(s: State, t: nat, h: Handle) {
    t < |s.calls| && s.calls[t] == Call(TakeToken, false, Some(h)) && s.speculation != 0
  }

  // ----- dropped while covered: never stranded -----

  ghost predicate WatchedFor(s: State, h: Handle) {
    Inv(s) && h in s.issued && (h in s.injector ==> Covered(s))
  }

  /** A handle gone from the injector does not come back. */
  lemma NotPushedAgain(s: State, a: Action, h: Handle)
    requires Enabled(s, a) && h in s.issued
    ensures h in Step(s, a).issued && (h in Step(s, a).injector ==> h in s.injector)
  {
    match a {
      case Work(w) => WorkTakes(s, w);
      case _ =>
    }
  }

  lemma WatchedForStep(s: State, a: Action, h: Handle)
    requires WatchedFor(s, h) && Enabled(s, a)
    ensures WatchedFor(Step(s, a), h)
  {
    StepInv(s, a);
    NotPushedAgain(s, a, h);
    if h in Step(s, a).injector { CoveredStep(s, a); }
  }

  lemma WatchedForOnward(run: seq<State>, k: nat, m: nat, h: Handle)
    requires IsRun(Init, Next, run) && k <= m < |run| && WatchedFor(run[k], h)
    ensures WatchedFor(run[m], h)
  {
    forall s, t | WatchedFor(s, h) && Next(s, t) ensures WatchedFor(t, h) {
      var a :| Enabled(s, a) && t == Step(s, a);
      WatchedForStep(s, a, h);
    }
    Onward(Init, Next, s => WatchedFor(s, h), run, k, m);
  }

  // ----- dropped while deserted: stranded in some continuation -----

  /** Nobody is coming, and nobody will announce `h` again. */
  ghost predicate Doomed(s: State, h: Handle) {
    Deserted(s) && h in s.injector && !Fresh(s, h)
  }

  lemma LastInv(run: seq<State>)
    requires IsRun(Init, Next, run)
    ensures Inv(Last(run))
  {
    RunInv(run, |run| - 1);
  }

  /** Past its last look, a worker finds the deques empty. */
  lemma ScansEmpty(s: State, w: nat)
    requires Shape(s) && Deserted(s) && w < |s.workers| && s.workers[w].pc.ScanPeers2?
    ensures Enabled(s, Work(w))
    ensures var x, p := s.workers[w], s.workers[w].pc.peer;
            WorkStep(s, w) == SetWorker(s, w, x.(pc := if p < |s.workers| then ScanPeers2(p + 1) else Park))
  {
    var p := s.workers[w].pc.peer;
    assert WorkerOk(s.workers[w]) && Quiet(s.workers[w]);
    if p < |s.workers| { assert WorkerOk(s.workers[p]) && Quiet(s.workers[p]); }
  }

  lemma DoomedMove(s: State, w: nat, pc: Pc, h: Handle)
    requires Doomed(s, h) && w < |s.workers| && (pc.Park? || (pc.ScanPeers2? && s.workers[w].pc.ScanPeers2?))
    ensures Doomed(SetWorker(s, w, s.workers[w].(pc := pc)), h)
  {
    var s' := SetWorker(s, w, s.workers[w].(pc := pc));
    forall v | 0 <= v < |s'.workers| ensures Quiet(s'.workers[v]) && !s'.workers[v].token {
      assert Quiet(s.workers[v]) && !s.workers[v].token;
    }
    forall t | 0 <= t < |s'.calls| ensures Spent(s', t) { assert Spent(s, t); }
  }

  /** `s'` is `s` with worker `w` parked. */
  predicate ParksWorker(s: State, s': State, w: nat) {
    && |s'.workers| == |s.workers| && s'.calls == s.calls
    && w < |s.workers| && s'.workers[w].pc.Park?
    && forall v :: 0 <= v < |s.workers| && v != w ==> s'.workers[v] == s.workers[v]
  }

  /** One step of worker `w` from `s` to `s'`, on to the next deque or into `park`. */
  predicate Walks(s: State, s': State, w: nat) {
    && w < |s.workers| && s.workers[w].pc.ScanPeers2?
    && s' == SetWorker(s, w, s.workers[w].(pc :=
         if s.workers[w].pc.peer < |s.workers| then ScanPeers2(s.workers[w].pc.peer + 1) else Park))
  }

  lemma WalkStep(run: seq<State>, w: nat, h: Handle) returns (longer: seq<State>)
    requires IsRun(Init, Next, run) && Doomed(Last(run), h)
    requires w < |Last(run).workers| && Last(run).workers[w].pc.ScanPeers2?
    ensures Continues(run, longer) && Doomed(Last(longer), h) && Walks(Last(run), Last(longer), w)
  {
    var s := Last(run);
    LastInv(run);
    ScansEmpty(s, w);
    DoomedMove(s, w, if s.workers[w].pc.peer < |s.workers| then ScanPeers2(s.workers[w].pc.peer + 1) else Park, h);
    longer := Then(run, Work(w), Step(s, Work(w)));
  }

  lemma {:induction false} WalkOne(run: seq<State>, w: nat, h: Handle) returns (longer: seq<State>)
    requires IsRun(Init, Next, run) && Doomed(Last(run), h) && w < |Last(run).workers|
    ensures Continues(run, longer) && Doomed(Last(longer), h) && ParksWorker(Last(run), Last(longer), w)
    decreases var pc := Last(run).workers[w].pc;
              if pc.ScanPeers2? && pc.peer <= |Last(run).workers| then |Last(run).workers| - pc.peer else 0
  {
    var s := Last(run);
    assert Quiet(s.workers[w]);
    if s.workers[w].pc.Park? {
      longer := run;
    } else {
      longer := WalkStep(run, w, h);
      if s.workers[w].pc.peer < |s.workers| { longer := WalkOne(longer, w, h); }
    }
  }

  /** Every worker walks over the empty deques into `park`. */
  lemma {:induction false} WalkAll(run: seq<State>, n: nat, h: Handle) returns (longer: seq<State>)
    requires IsRun(Init, Next, run) && Doomed(Last(run), h) && n <= |Last(run).workers|
    ensures Continues(run, longer) && Doomed(Last(longer), h)
    ensures |Last(longer).workers| == |Last(run).workers| && Last(longer).calls == Last(run).calls
    ensures forall w :: 0 <= w < n ==> Last(longer).workers[w].pc.Park?
  {
    if n == 0 {
      longer := run;
    } else {
      var before := WalkAll(run, n - 1, h);
      longer := WalkOne(before, n - 1, h);
    }
  }

  predicate AllParked(s: State) { forall w :: 0 <= w < |s.workers| ==> s.workers[w].pc.Park? }

  function SweepOver(c: Call): Call { if c.wake.Sweep? then NO_CALL else c }

  /** A sweep past its last flag gives its token back. */
  lemma DropOne(run: seq<State>, t: nat, h: Handle) returns (longer: seq<State>)
    requires IsRun(Init, Next, run) && Doomed(Last(run), h) && t < |Last(run).calls|
    ensures Continues(run, longer) && Doomed(Last(longer), h)
    ensures Last(longer).workers == Last(run).workers && |Last(longer).calls| == |Last(run).calls|
    ensures Last(longer).calls[t] == SweepOver(Last(run).calls[t])
    ensures forall u :: 0 <= u < |Last(run).calls| && u != t ==> Last(longer).calls[u] == Last(run).calls[u]
  {
    var s := Last(run);
    assert Spent(s, t);
    if s.calls[t].wake.Sweep? {
      SweepEnds(s, t, h);
      longer := Then(run, Wakeup(t), WakeStep(s, t));
    } else {
      longer := run;
    }
  }

  lemma SweepEnds(s: State, t: nat, h: Handle)
    requires Doomed(s, h) && t < |s.calls| && s.calls[t].wake.Sweep?
    ensures Enabled(s, Wakeup(t)) && Doomed(WakeStep(s, t), h)
    ensures WakeStep(s, t) == SetCall(s, t, NO_CALL).(speculation := s.speculation - 1)
  {
    var s' := WakeStep(s, t);
    assert Spent(s, t);
    forall u | 0 <= u < |s'.calls| ensures Spent(s', u) && !Announces(s'.calls[u], h) {
      assert Spent(s, u) && !Announces(s.calls[u], h);
    }
  }

  lemma {:induction false} DropAll(run: seq<State>, n: nat, h: Handle) returns (longer: seq<State>)
    requires IsRun(Init, Next, run) && Doomed(Last(run), h) && n <= |Last(run).calls|
    ensures Continues(run, longer) && Doomed(Last(longer), h)
    ensures Last(longer).workers == Last(run).workers && |Last(longer).calls| == |Last(run).calls|
    ensures forall t :: 0 <= t < |Last(run).calls| ==>
              Last(longer).calls[t] == if t < n then SweepOver(Last(run).calls[t]) else Last(run).calls[t]
  {
    if n == 0 {
      longer := run;
    } else {
      var before := DropAll(run, n - 1, h);
      longer := DropOne(before, n - 1, h);
    }
  }

  lemma ParkedIsStranded(s: State, h: Handle)
    requires Inv(s) && Doomed(s, h) && AllParked(s)
    requires forall t :: 0 <= t < |s.calls| ==> !s.calls[t].wake.Sweep?
    ensures Stranded(s, h) && s.speculation == 0
  {
    DesertedIsUncovered(s);
    forall w | 0 <= w < |s.workers| ensures TokenShare(s.workers[w]) == 0 {
      if TokenShare(s.workers[w]) > 0 { TokenHolderIsAwake(s, w); }
    }
    AllZero(TokenShare, s.workers);
    AllZero(SweepShare, s.calls);
    forall w | 0 <= w < |s.workers| ensures !s.workers[w].token && !Claimed(s, w) { assert !Awake(s, w); }
  }

  /** No thread is past the push of a wake call and short of its sweep. */
  predicate AllDecided(s: State) {
    forall t :: 0 <= t < |s.calls| ==> s.calls[t].wake.Outside? || s.calls[t].wake.Sweep?
  }

  /** From a deserted state with `h` left behind, the workers park and the last tokens come
      back: `h` is stranded, and with no wake call undecided nothing is left to move. */
  lemma DoomedParks(run: seq<State>, h: Handle) returns (longer: seq<State>)
    requires IsRun(Init, Next, run) && Doomed(Last(run), h)
    ensures Continues(run, longer) && Stranded(Last(longer), h) && Last(longer).speculation == 0
    ensures AllDecided(Last(run)) ==> Quiescent(Last(longer))
  {
    var parked := WalkAll(run, |Last(run).workers|, h);
    longer := DropAll(parked, |Last(parked).calls|, h);
    LastInv(longer);
    ParkedIsStranded(Last(longer), h);
  }

  lemma DropDooms(s: State, t: nat, h: Handle)
    requires Inv(s) && Deserted(s) && Dropping(s, t, h) && h in s.injector
    ensures Enabled(s, Wakeup(t)) && Doomed(WakeStep(s, t), h)
  {
    var s' := WakeStep(s, t);
    forall u | 0 <= u < |s'.calls| ensures Spent(s', u) && !Announces(s'.calls[u], h) {
      assert Spent(s, u);
      assert u != t ==> s.calls[u].handle != s.calls[t].handle;
    }
  }

  // ----- the exact condition, for the moment -----

  ghost predicate CanStrand(run: seq<State>, h: Handle) {
    exists longer :: Continues(run, longer) && Stranded(Last(longer), h)
  }

  /** A throttled announcement is about to be dropped at work.rs:70. Some continuation
      strands its handle, if only until another announcement comes through, if and only if
      the handle is still in the injector and the state is deserted. Then the token that
      stopped the announcement is with another outside thread past its last flag. */
  lemma DropStrandsExactly(run: seq<State>, t: nat, h: Handle)
    requires IsRun(Init, Next, run) && Dropping(Last(run), t, h)
    ensures Enabled(Last(run), Wakeup(t))
    ensures CanStrand(run + [Step(Last(run), Wakeup(t))], h) <==> Deserted(Last(run)) && h in Last(run).injector
    ensures Deserted(Last(run)) ==> t >= |Last(run).workers| && ExhaustedElsewhere(Last(run), t)
  {
    LastInv(run);
    var s := Last(run);
    var after := Then(run, Wakeup(t), Step(s, Wakeup(t)));
    if Deserted(s) { DesertedHasExhausted(s, t); }
    if Deserted(s) && h in s.injector {
      DropDooms(s, t, h);
      var longer := DoomedParks(after, h);
    } else {
      CoveredDropIsSafe(run, t, h);
    }
  }

  lemma CoveredDropIsSafe(run: seq<State>, t: nat, h: Handle)
    requires IsRun(Init, Next, run) && Dropping(Last(run), t, h)
    requires !Deserted(Last(run)) || h !in Last(run).injector
    ensures !CanStrand(run + [Step(Last(run), Wakeup(t))], h)
  {
    LastInv(run);
    var s, k := Last(run), |run| - 1;
    WatchedAtDrop(s, t, h);
    forall longer | Continues(run + [Step(s, Wakeup(t))], longer) ensures !Stranded(Last(longer), h) {
      assert longer[k] == (run + [Step(s, Wakeup(t))])[k] == s;
      WatchedForOnward(longer, k, |longer| - 1, h);
      WatchedIsNotStranded(Last(longer), h);
    }
  }

  lemma WatchedAtDrop(s: State, t: nat, h: Handle)
    requires Inv(s) && Dropping(s, t, h) && (!Deserted(s) || h !in s.injector)
    ensures WatchedFor(s, h)
  {
    DesertedIsUncovered(s);
  }

  lemma WatchedIsNotStranded(s: State, h: Handle)
    requires WatchedFor(s, h)
    ensures !Stranded(s, h)
  {
  }

  // ----- the exact condition, for good -----

  /** A forced wake is under way and has not started its sweep. */
  predicate ForcedComing(s: State) {
    exists t :: 0 <= t < |s.calls| && s.calls[t].forced && Undecided(s.calls[t])
  }

  /** `h` is never left without someone bound to look or a forced wake under way. */
  ghost predicate RescuedFor(s: State, h: Handle) {
    Inv(s) && h in s.issued && (h in s.injector ==> Covered(s) || ForcedComing(s))
  }

  /** A forced wake sees idle workers, because an uncovered state counts some, and sweeps. */
  lemma ForcedGoesOn(s: State, a: Action)
    requires Inv(s) && Enabled(s, a) && ForcedComing(s) && !Covered(s) && Step(s, a).injector != []
    ensures Covered(Step(s, a)) || ForcedComing(Step(s, a))
  {
    var s' := Step(s, a);
    var t :| 0 <= t < |s.calls| && s.calls[t].forced && Undecided(s.calls[t]);
    if a == Wakeup(t) {
      ForcedOwnStep(s, t);
    } else {
      CallStays(s, a, t);
      assert s'.calls[t].forced && Undecided(s'.calls[t]);
    }
  }

  lemma ForcedOwnStep(s: State, t: nat)
    requires Inv(s) && Enabled(s, Wakeup(t)) && s.calls[t].forced && Undecided(s.calls[t]) && !Covered(s)
    ensures Covered(WakeStep(s, t)) || ForcedComing(WakeStep(s, t))
  {
    var s' := WakeStep(s, t);
    if s.calls[t].wake.LoadIdle? {
      if s.idleCount == 0 { NobodyIdleIsCovered(s); }
      assert s'.calls[t].forced && Undecided(s'.calls[t]);
    } else {
      assert SweepsOn(s'.calls[t], |s'.workers|);
    }
  }

  /** An open wake call waits for its own thread. */
  lemma CallStays(s: State, a: Action, t: nat)
    requires Shape(s) && Enabled(s, a) && t < |s.calls| && !s.calls[t].wake.Outside? && a != Wakeup(t)
    ensures t < |Step(s, a).calls| && Step(s, a).calls[t] == s.calls[t]
  {
    match a {
      case Work(w) => WorkCalls(s, w);
      case _ =>
    }
  }

  lemma RescuedForStep(s: State, a: Action, h: Handle)
    requires RescuedFor(s, h) && Enabled(s, a)
    ensures RescuedFor(Step(s, a), h)
  {
    StepInv(s, a);
    NotPushedAgain(s, a, h);
    if h in Step(s, a).injector {
      if Covered(s) { CoveredStep(s, a); } else { ForcedGoesOn(s, a); }
    }
  }

  lemma RescuedForOnward(run: seq<State>, k: nat, m: nat, h: Handle)
    requires IsRun(Init, Next, run) && k <= m < |run| && RescuedFor(run[k], h)
    ensures RescuedFor(run[m], h)
  {
    forall s, t | RescuedFor(s, h) && Next(s, t) ensures RescuedFor(t, h) {
      var a :| Enabled(s, a) && t == Step(s, a);
      RescuedForStep(s, a, h);
    }
    Onward(Init, Next, s => RescuedFor(s, h), run, k, m);
  }

  lemma QuiescentIsUncovered(s: State)
    requires Quiescent(s)
    ensures !Covered(s) && !ForcedComing(s)
  {
    assert forall t :: 0 <= t < |s.calls| ==> s.calls[t].wake.Outside?;
  }

  // ----- throttled calls come to nothing while a token is out -----

  /** The state after `t`'s undecided throttled call has taken one step and not swept. */
  lemma ThrottledStep(s: State, t: nat, h: Handle)
    requires Doomed(s, h) && s.speculation != 0 && t < |s.calls| && Undecided(s.calls[t]) && !s.calls[t].forced
    ensures Enabled(s, Wakeup(t)) && Doomed(WakeStep(s, t), h)
    ensures var s', c := WakeStep(s, t), s.calls[t];
            && s'.workers == s.workers && s'.speculation == s.speculation && |s'.calls| == |s.calls|
            && (s'.calls[t] == NO_CALL || (c.wake.LoadIdle? && s'.calls[t] == c.(wake := TakeToken)))
            && forall u :: 0 <= u < |s.calls| && u != t ==> s'.calls[u] == s.calls[u]
  {
    var s' := WakeStep(s, t);
    forall u | 0 <= u < |s'.calls| ensures Spent(s', u) && !Announces(s'.calls[u], h) {
      assert Spent(s, u) && !Announces(s.calls[u], h);
    }
  }

  /** Thread `t`'s call, if undecided, is over; nobody else has moved. */
  predicate Closes(s: State, s': State, t: nat) {
    && t < |s.calls| == |s'.calls| && s'.workers == s.workers && s'.speculation == s.speculation
    && s'.calls[t] == (if Undecided(s.calls[t]) then NO_CALL else s.calls[t])
    && forall u :: 0 <= u < |s.calls| && u != t ==> s'.calls[u] == s.calls[u]
  }

  lemma {:induction false} CloseOne(run: seq<State>, t: nat, h: Handle) returns (longer: seq<State>)
    requires IsRun(Init, Next, run) && Doomed(Last(run), h) && Last(run).speculation != 0
    requires t < |Last(run).calls| && (Undecided(Last(run).calls[t]) ==> !Last(run).calls[t].forced)
    ensures Continues(run, longer) && Doomed(Last(longer), h) && Closes(Last(run), Last(longer), t)
    decreases if Last(run).calls[t].wake.LoadIdle? then 1 else 0
  {
    var s := Last(run);
    if Undecided(s.calls[t]) {
      ThrottledStep(s, t, h);
      longer := Then(run, Wakeup(t), WakeStep(s, t));
      if Undecided(Last(longer).calls[t]) { longer := CloseOne(longer, t, h); }
    } else {
      longer := run;
    }
  }

  lemma {:induction false} CloseAll(run: seq<State>, n: nat, h: Handle) returns (longer: seq<State>)
    requires IsRun(Init, Next, run) && Doomed(Last(run), h) && Last(run).speculation != 0
    requires n <= |Last(run).calls| && !ForcedComing(Last(run))
    ensures Continues(run, longer) && Doomed(Last(longer), h) && Last(longer).speculation != 0
    ensures |Last(longer).calls| == |Last(run).calls| && !ForcedComing(Last(longer))
    ensures forall t :: 0 <= t < n ==> !Undecided(Last(longer).calls[t])
  {
    if n == 0 {
      longer := run;
    } else {
      var before := CloseAll(run, n - 1, h);
      longer := CloseOne(before, n - 1, h);
    }
  }

  /** From a deserted state with `h` left behind, a token out and no forced wake under way,
      everything can come to rest with `h` in the injector: the throttled calls are
      dropped, the workers walk over empty deques into `park`, the last tokens come back. */
  lemma DoomedStrands(run: seq<State>, h: Handle) returns (longer: seq<State>)
    requires IsRun(Init, Next, run) && Doomed(Last(run), h)
    requires Last(run).speculation != 0 && !ForcedComing(Last(run))
    ensures Continues(run, longer) && Quiescent(Last(longer)) && Stranded(Last(longer), h)
  {
    var closed := CloseAll(run, |Last(run).calls|, h);
    assert AllDecided(Last(closed)) by {
      forall t | 0 <= t < |Last(closed).calls| ensures Last(closed).calls[t].wake.Outside? || Last(closed).calls[t].wake.Sweep? {
        assert Spent(Last(closed), t) && !Undecided(Last(closed).calls[t]);
      }
    }
    longer := DoomedParks(closed, h);
  }

  /** The run can come to rest with `h` left in the injector. */
  ghost predicate CanEnd(run: seq<State>, h: Handle) {
    exists longer :: Continues(run, longer) && Quiescent(Last(longer)) && h in Last(longer).injector
  }

  /** At rest, nothing but a new push can move anything. */
  lemma OnlyAPushMovesOn(s: State, a: Action)
    requires Quiescent(s) && Enabled(s, a)
    ensures a.Push? && !IsWorker(s, a.t)
  {
  }

  lemma RescuedDropIsSafe(run: seq<State>, t: nat, h: Handle)
    requires IsRun(Init, Next, run) && Dropping(Last(run), t, h)
    requires !Deserted(Last(run)) || h !in Last(run).injector || ForcedComing(Last(run))
    ensures !CanEnd(run + [Step(Last(run), Wakeup(t))], h)
  {
    LastInv(run);
    var s, k := Last(run), |run| - 1;
    DesertedIsUncovered(s);
    forall longer | Continues(run + [Step(s, Wakeup(t))], longer) && Quiescent(Last(longer)) ensures h !in Last(longer).injector {
      assert longer[k] == (run + [Step(s, Wakeup(t))])[k] == s;
      RescuedForOnward(longer, k, |longer| - 1, h);
      QuiescentIsUncovered(Last(longer));
    }
  }

  /** A throttled announcement is about to be dropped at work.rs:70. Some continuation comes
      to rest with its handle left behind, every worker blocked in `park` and no wake call
      open, if and only if the handle is still in the injector, the state is deserted, and
      no forced wake is under way. */
  lemma DropStrandsForGood(run: seq<State>, t: nat, h: Handle)
    requires IsRun(Init, Next, run) && Dropping(Last(run), t, h)
    ensures Enabled(Last(run), Wakeup(t))
    ensures CanEnd(run + [Step(Last(run), Wakeup(t))], h) <==>
            Deserted(Last(run)) && h in Last(run).injector && !ForcedComing(Last(run))
  {
    LastInv(run);
    var s := Last(run);
    if Deserted(s) && h in s.injector && !ForcedComing(s) {
      var after := Then(run, Wakeup(t), Step(s, Wakeup(t)));
      DropDooms(s, t, h);
      DropForcesNobody(s, t, h);
      var longer := DoomedStrands(after, h);
    } else {
      RescuedDropIsSafe(run, t, h);
    }
  }

  lemma DropForcesNobody(s: State, t: nat, h: Handle)
    requires Dropping(s, t, h) && !ForcedComing(s)
    ensures Enabled(s, Wakeup(t)) && !ForcedComing(WakeStep(s, t)) && WakeStep(s, t).speculation == s.speculation
  {
    var s' := WakeStep(s, t);
    assert forall u :: 0 <= u < |s'.calls| ==> s'.calls[u] == s.calls[u] || s'.calls[u] == NO_CALL;
  }
}
