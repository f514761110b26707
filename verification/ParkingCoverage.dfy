/** No stranded work. While the injector holds a handle whose wake call is over,
    some worker is bound to look at the injector again before it can block, or an
    unpark is on its way to one; the only handles excepted are those whose
    throttled wake was dropped in a deserted state. */
module ParkingCoverage {
  import opened Options
  import opened Sums
  import opened Parking
  import opened ParkingSafety

  /** Thread `t` has claimed worker `w`'s flag and not yet unparked it. */
  predicate ClaimedBy(c: Call, w: nat) {
    c.wake == CountClaim(w) || c.wake == Notify(w)
  }

  ghost predicate Claimed(s: State, w: nat) {
    exists t :: 0 <= t < |s.calls| && ClaimedBy(s.calls[t], w)
  }

  /** Every advertised worker can still be reached: its flag is up, or its claimer
      has left a parker token, or is about to. */
  ghost predicate Reachable(s: State, w: nat)
    requires w < |s.workers|
  {
    Listening(s.workers[w].pc) ==> s.workers[w].flag || s.workers[w].token || Claimed(s, w)
  }

  ghost predicate AllReachable(s: State) {
    forall w :: 0 <= w < |s.workers| ==> Reachable(s, w)
  }

  /** Bound to look at the injector before blocking, now or once its unpark arrives. */
  ghost predicate Awake(s: State, w: nat)
    requires w < |s.workers|
  {
    !Quiet(s.workers[w]) || s.workers[w].token || Claimed(s, w)
  }

  predicate SweepsOn(c: Call, n: nat) { c.wake.Sweep? && c.wake.next < n }

  ghost predicate Covered(s: State) {
    || (exists w :: 0 <= w < |s.workers| && Awake(s, w))
    || (exists t :: 0 <= t < |s.calls| && SweepsOn(s.calls[t], |s.workers|))
  }

  /** Covered is what a deserted state is not. */
  lemma DesertedIsUncovered(s: State)
    requires Shape(s)
    ensures Deserted(s) <==> !Covered(s)
  {
    if Deserted(s) {
      assert forall t :: 0 <= t < |s.calls| ==> Spent(s, t) && !SweepsOn(s.calls[t], |s.workers|);
      forall w | 0 <= w < |s.workers| ensures !Awake(s, w) {
        assert Quiet(s.workers[w]) && forall t :: 0 <= t < |s.calls| ==> !ClaimedBy(s.calls[t], w);
      }
    } else if !Covered(s) {
      UncoveredIsDeserted(s);
    }
  }

  lemma UncoveredIsDeserted(s: State)
    requires Shape(s) && !Covered(s)
    ensures Deserted(s)
  {
    forall w | 0 <= w < |s.workers| ensures Quiet(s.workers[w]) && !s.workers[w].token { assert !Awake(s, w); }
    forall t | 0 <= t < |s.calls| ensures Spent(s, t) {
      var c := s.calls[t];
      assert CallOk(c, |s.workers|) && !SweepsOn(c, |s.workers|);
      if c.wake.CountClaim? || c.wake.Notify? {
        assert ClaimedBy(c, c.wake.claimed) && !Awake(s, c.wake.claimed);
      }
    }
  }

  /** The wake call that announces `h` has not decided anything yet. */
  predicate Announces(c: Call, h: Handle) {
    c.handle == Some(h) && (c.wake.LoadIdle? || c.wake.TakeToken?)
  }

  ghost predicate Fresh(s: State, h: Handle) {
    exists t :: 0 <= t < |s.calls| && Announces(s.calls[t], h)
  }

  ghost predicate Accounted(s: State, h: Handle) {
    Fresh(s, h) || Covered(s) || h in s.elided
  }

  ghost predicate AllAccounted(s: State) {
    forall h :: h in s.injector ==> Accounted(s, h)
  }

  // ----- claims reach their worker -----

  lemma ClaimPersists(s: State, s': State, t: nat, v: nat)
    requires |s.calls| == |s'.calls| && t < |s.calls|
    requires s'.calls == s.calls[t := s'.calls[t]]
    requires Claimed(s, v)
    requires ClaimedBy(s.calls[t], v) ==> ClaimedBy(s'.calls[t], v)
    ensures Claimed(s', v)
  {
    var u :| 0 <= u < |s.calls| && ClaimedBy(s.calls[u], v);
    assert ClaimedBy(s'.calls[u], v);
  }

  lemma WorkClaims(s: State, w: nat, v: nat)
    requires Enabled(s, Work(w)) && Claimed(s, v)
    ensures Claimed(WorkStep(s, w), v)
  {
    WorkCalls(s, w);
    ClaimPersists(s, WorkStep(s, w), w, v);
  }

  lemma WakeClaims(s: State, t: nat, v: nat)
    requires Enabled(s, Wakeup(t)) && v < |s.workers| && (Claimed(s, v) || s.workers[v].token)
    ensures |WakeStep(s, t).workers| == |s.workers|
    ensures Claimed(WakeStep(s, t), v) || WakeStep(s, t).workers[v].token
  {
    var s' := WakeStep(s, t);
    if !s.workers[v].token && s.calls[t].wake != Notify(v) {
      ClaimPersists(s, s', t, v);
    }
  }

  /** What a wake step does to the workers: a flag goes down with its claim, or a token goes up. */
  lemma WakeFrame(s: State, t: nat, v: nat)
    requires Enabled(s, Wakeup(t)) && v < |s.workers|
    ensures var s' := WakeStep(s, t);
            && |s'.workers| == |s.workers| && |s'.calls| == |s.calls|
            && s'.workers[v].pc == s.workers[v].pc
            && s'.workers[v].speculating == s.workers[v].speculating
            && (s.workers[v].token ==> s'.workers[v].token)
            && (s.workers[v].flag ==> s'.workers[v].flag || ClaimedBy(s'.calls[t], v))
  {
  }

  lemma ReachableOwn(s: State, w: nat)
    requires Enabled(s, Work(w)) && Reachable(s, w)
    ensures w < |WorkStep(s, w).workers| && Reachable(WorkStep(s, w), w)
  {
    if Claimed(s, w) { WorkClaims(s, w, w); }
    OwnMove(s, w);
  }

  /** A worker on its way into `park` has put its flag up, or was on that way already and
      has neither lowered it nor used a parker token. */
  predicate Approaches(x: Worker, x': Worker) {
    Listening(x'.pc) ==> x'.flag || (Listening(x.pc) && x'.flag == x.flag && x'.token == x.token)
  }

  /** It comes to rest past its last look only if it was there, or the injector is empty. */
  predicate ComesToRest(x: Worker, s': State, w: nat) {
    w < |s'.workers| &&
    (s'.injector != [] && Quiet(s'.workers[w]) ==> Quiet(x) && s'.workers[w].token == x.token)
  }

  lemma OwnMove(s: State, w: nat)
    requires Enabled(s, Work(w))
    ensures w < |WorkStep(s, w).workers| && Approaches(s.workers[w], WorkStep(s, w).workers[w])
    ensures ComesToRest(s.workers[w], WorkStep(s, w), w)
  {
    if Searching(s.workers[w].pc) {
      OwnSearch(s, w);
    } else if Rescanning(s.workers[w].pc) {
      OwnRescan(s, w);
    } else {
      OwnPark(s, w);
    }
  }

  lemma OwnSearch(s: State, w: nat)
    requires Enabled(s, Work(w)) && Searching(s.workers[w].pc)
    ensures w < |SearchStep(s, w).workers| && Approaches(s.workers[w], SearchStep(s, w).workers[w])
    ensures ComesToRest(s.workers[w], SearchStep(s, w), w)
  {
  }

  lemma OwnRescan(s: State, w: nat)
    requires Enabled(s, Work(w)) && Rescanning(s.workers[w].pc)
    ensures w < |RescanStep(s, w).workers| && Approaches(s.workers[w], RescanStep(s, w).workers[w])
    ensures ComesToRest(s.workers[w], RescanStep(s, w), w)
  {
  }

  lemma OwnPark(s: State, w: nat)
    requires Enabled(s, Work(w)) && !Searching(s.workers[w].pc) && !Rescanning(s.workers[w].pc)
    ensures w < |ParkStep(s, w).workers| && Approaches(s.workers[w], ParkStep(s, w).workers[w])
    ensures ComesToRest(s.workers[w], ParkStep(s, w), w)
  {
  }

  lemma ReachableStep(s: State, a: Action, v: nat)
    requires Shape(s) && Enabled(s, a) && v < |s.workers| && Reachable(s, v)
    ensures v < |Step(s, a).workers| && Reachable(Step(s, a), v)
  {
    var s' := Step(s, a);
    match a {
      case Work(w) =>
        if v == w { ReachableOwn(s, w); }
        else { WorkFrame(s, w, v); if Claimed(s, v) { WorkClaims(s, w, v); } }
      case Wakeup(t) =>
        WakeFrame(s, t, v);
        if Listening(s.workers[v].pc) && (s.workers[v].token || Claimed(s, v)) { WakeClaims(s, t, v); }
      case Push(t, _, _) => if Claimed(s, v) { ClaimPersists(s, s', t, v); }
      case PushLocal(w, _) => if Claimed(s, v) { ClaimPersists(s, s', w, v); }
      case Finish(w) => if Claimed(s, v) { ClaimPersists(s, s', w, v); }
    }
  }

  // ----- coverage lasts as long as there is work -----

  lemma AwakeOwn(s: State, w: nat)
    requires Enabled(s, Work(w)) && Awake(s, w) && WorkStep(s, w).injector != []
    ensures w < |WorkStep(s, w).workers| && Awake(WorkStep(s, w), w)
  {
    if Claimed(s, w) { WorkClaims(s, w, w); }
    OwnMove(s, w);
  }

  /** A worker bound to look again stays bound while the injector is not empty. */
  lemma AwakeStep(s: State, a: Action, v: nat)
    requires Shape(s) && Enabled(s, a) && v < |s.workers| && Awake(s, v) && Step(s, a).injector != []
    ensures v < |Step(s, a).workers| && Awake(Step(s, a), v)
  {
    var s' := Step(s, a);
    match a {
      case Work(w) =>
        if v == w { AwakeOwn(s, w); }
        else { WorkFrame(s, w, v); if Claimed(s, v) { WorkClaims(s, w, v); } }
      case Wakeup(t) =>
        WakeFrame(s, t, v);
        if s.workers[v].token || Claimed(s, v) { WakeClaims(s, t, v); }
      case Push(t, _, _) => if Claimed(s, v) { ClaimPersists(s, s', t, v); }
      case PushLocal(w, _) => if Claimed(s, v) { ClaimPersists(s, s', w, v); }
      case Finish(w) => if Claimed(s, v) { ClaimPersists(s, s', w, v); }
    }
  }

  /** Trying one flag settles it: up, its worker is claimed; down, its worker is awake. */
  lemma SweepCovers(s: State, t: nat)
    requires Shape(s) && AllReachable(s) && Enabled(s, Wakeup(t)) && SweepsOn(s.calls[t], |s.workers|)
    ensures Covered(WakeStep(s, t))
  {
    var i, s' := s.calls[t].wake.next, WakeStep(s, t);
    assert Reachable(s, i);
    WakeFrame(s, t, i);
    if s.workers[i].flag {
      assert ClaimedBy(s'.calls[t], i);
    } else if Claimed(s, i) {
      ClaimPersists(s, s', t, i);
    }
    assert Awake(s', i);
  }

  lemma SweepPersists(s: State, a: Action, t: nat)
    requires Shape(s) && Enabled(s, a) && t < |s.calls| && SweepsOn(s.calls[t], |s.workers|) && a != Wakeup(t)
    ensures t < |Step(s, a).calls| && SweepsOn(Step(s, a).calls[t], |Step(s, a).workers|)
  {
    match a {
      case Work(w) =>
        WorkCalls(s, w);
        assert WorkerOk(s.workers[w]);
        WorkPaid(s, w);
      case Wakeup(u) => WakeFrame(s, u, 0);
      case _ =>
    }
  }

  lemma CoveredStep(s: State, a: Action)
    requires Shape(s) && AllReachable(s) && Covered(s) && Enabled(s, a) && Step(s, a).injector != []
    ensures Covered(Step(s, a))
  {
    if w :| 0 <= w < |s.workers| && Awake(s, w) {
      AwakeStep(s, a, w);
    } else {
      var t :| 0 <= t < |s.calls| && SweepsOn(s.calls[t], |s.workers|);
      if a == Wakeup(t) { SweepCovers(s, t); } else { SweepPersists(s, a, t); }
    }
  }

  // ----- the two early returns of a wake call -----

  /** work.rs:62 and 77: `idle_count` reads zero only while someone is bound to look again. */
  lemma NobodyIdleIsCovered(s: State)
    requires Shape(s) && Accounting(s) && AllReachable(s) && s.idleCount == 0
    ensures Covered(s)
  {
    if forall w :: 0 <= w < |s.workers| ==> !s.workers[w].pc.CountIdle? {
      AtLeastEach(IdleShare, s.workers, 0);
      AtLeastEach(ClaimShare, s.calls, 0);
      assert Reachable(s, 0);
      assert Awake(s, 0);
    } else {
      var w :| 0 <= w < |s.workers| && s.workers[w].pc.CountIdle?;
      assert Awake(s, w);
    }
  }

  lemma TokenHolderIsAwake(s: State, w: nat)
    requires Shape(s) && AllReachable(s) && w < |s.workers| && TokenShare(s.workers[w]) > 0
    ensures Awake(s, w)
  {
    assert WorkerOk(s.workers[w]) && Reachable(s, w);
  }

  /** An outside thread other than `t` holds a token and has no flag left to try. */
  predicate ExhaustedElsewhere(s: State, t: nat) {
    exists u :: |s.workers| <= u < |s.calls| && u != t
      && s.calls[u].wake.Sweep? && s.calls[u].wake.next >= |s.workers|
  }

  /** work.rs:70: a token is out only while someone is bound to look again, or an
      outside thread has tried every flag and still holds it. */
  lemma TokenOutIsCovered(s: State, t: nat)
    requires Shape(s) && Accounting(s) && AllReachable(s) && s.speculation != 0
    requires t < |s.calls| && !s.calls[t].wake.Sweep?
    ensures Covered(s) || ExhaustedElsewhere(s, t)
  {
    AtLeastEach(TokenShare, s.workers, 0);
    AtLeastEach(SweepShare, s.calls, 0);
    if Sum(TokenShare, s.workers) > 0 {
      var w := PositiveWitness(TokenShare, s.workers);
      TokenHolderIsAwake(s, w);
    } else {
      var u := PositiveWitness(SweepShare, s.calls);
      if u < |s.workers| { assert Awake(s, u); }
      else if s.calls[u].wake.next < |s.workers| { assert SweepsOn(s.calls[u], |s.workers|); }
    }
  }

  // ----- every handle in the injector is accounted for -----

  lemma FreshPersists(s: State, a: Action, t: nat, h: Handle)
    requires Shape(s) && Enabled(s, a) && t < |s.calls| && Announces(s.calls[t], h) && a != Wakeup(t)
    ensures Fresh(Step(s, a), h)
  {
    var s' := Step(s, a);
    match a {
      case Work(w) => WorkCalls(s, w);
      case Wakeup(u) => WakeFrame(s, u, 0);
      case _ =>
    }
    assert Announces(s'.calls[t], h);
  }

  lemma Decides(s: State, t: nat, h: Handle)
    requires Shape(s) && Accounting(s) && AllReachable(s) && Enabled(s, Wakeup(t))
    requires Announces(s.calls[t], h) && h in WakeStep(s, t).injector
    ensures Accounted(WakeStep(s, t), h)
  {
    var c, s' := s.calls[t], WakeStep(s, t);
    if c.wake.LoadIdle? {
      if s.idleCount == 0 {
        NobodyIdleIsCovered(s);
        CoveredStep(s, Wakeup(t));
      } else {
        assert Announces(s'.calls[t], h);
      }
    } else if c.forced || s.speculation == 0 {
      assert SweepsOn(s'.calls[t], |s'.workers|);
    } else if Covered(s) {
      CoveredStep(s, Wakeup(t));
    } else {
      DesertedIsUncovered(s);
    }
  }

  /** A handle gets into the injector by its push only, and out of `elided` never. */
  lemma RecordsOnly(s: State, a: Action, h: Handle)
    requires Enabled(s, a)
    ensures h in Step(s, a).injector ==> h in s.injector || (a.Push? && a.h == h)
    ensures s.elided <= Step(s, a).elided
  {
  }

  lemma AccountedStep(s: State, a: Action, h: Handle)
    requires Shape(s) && Accounting(s) && AllReachable(s) && AllAccounted(s) && Enabled(s, a)
    requires h in Step(s, a).injector
    ensures Accounted(Step(s, a), h)
  {
    var s' := Step(s, a);
    if a.Push? && a.h == h {
      assert Announces(s'.calls[a.t], h);
    } else {
      RecordsOnly(s, a, h);
      assert Accounted(s, h);
      if Covered(s) {
        CoveredStep(s, a);
      } else if t :| 0 <= t < |s.calls| && Announces(s.calls[t], h) {
        if a == Wakeup(t) { Decides(s, t, h); } else { FreshPersists(s, a, t, h); }
      }
    }
  }
}
