/** A forgetting clear does forget: exactly when a handle can be left parked for good on a
    descriptor the kernel calls ready. */
module FdHandleForgetting {
  import opened Options
  import opened Readiness
  import opened FdHandles
  import opened FdHandleSafety
  import opened FdHandleLevel
  import opened Sums
  import opened Runs

  ghost predicate Forgotten(s: State, d: Direction) {
    Get(s, d).active && Shows(s.level, d) && !Attended(s, d)
  }

  /** From `s`, steps other than forgetting clears can leave the handle forgotten. */
  ghost predicate CanBeForgotten(s: State, d: Direction) {
    exists tail :: IsRun((x: State) => x == s, MindfulNext, tail) && Forgotten(tail[|tail| - 1], d)
  }

  lemma KnownIsNotForgotten(s: State, d: Direction)
    requires Inv(s)
    ensures !CanBeForgotten(s, d)
  {
    forall tail | IsRun((x: State) => x == s, MindfulNext, tail) ensures !Forgotten(tail[|tail| - 1], d) {
      forall x, y | Inv(x) && MindfulNext(x, y) ensures Inv(y) { MindfulStep(x, y); }
      Always((x: State) => x == s, MindfulNext, Inv, tail, |tail| - 1);
      var last := tail[|tail| - 1];
      if Forgotten(last, d) { InvAttends(last, d); }
    }
  }

  lemma ForgottenNow(s: State, d: Direction)
    requires Forgotten(s, d)
    ensures CanBeForgotten(s, d)
  {
    var tail := [s];
    assert IsRun((x: State) => x == s, MindfulNext, tail) && Forgotten(tail[|tail| - 1], d);
  }

  lemma ForgottenLater(s: State, s': State, d: Direction)
    requires MindfulNext(s, s') && CanBeForgotten(s', d)
    ensures CanBeForgotten(s, d)
  {
    var tail :| IsRun((x: State) => x == s', MindfulNext, tail) && Forgotten(tail[|tail| - 1], d);
    Prepend(MindfulNext, s, tail);
    var longer := [s] + tail;
    assert longer[|longer| - 1] == tail[|tail| - 1];
  }

  // ----- the lock, the registration and the fetched event -----

  /** With no edge undelivered, an event in the poll thread's hand shows all the kernel does. */
  predicate FetchOk(s: State) { s.poll.Fetched? && !s.edge ==> Subset(s.level, s.poll.ready) }

  predicate RegistrationOk(s: State) { s.registration.Live? <==> !s.status.shutdown }

  predicate LockHeld(s: State) {
    s.lock.Some? ==> s.lock.value < |s.threads| && s.threads[s.lock.value].ArmStore?
  }

  predicate Kept(s: State) { FetchOk(s) && RegistrationOk(s) && LockHeld(s) }

  lemma LockThread(s: State, t: nat)
    requires LockHeld(s) && Enabled(s, Proceed(t))
    ensures LockHeld(ThreadMove(s, t))
  {
    ThreadGentle(s, t);
  }

  lemma KeptPoll(s: State)
    requires Kept(s) && Enabled(s, PollStep)
    ensures Kept(PollMove(s))
  {
  }

  lemma KeptElsewhere(s: State, a: Action)
    requires Kept(s) && Enabled(s, a) && !a.Proceed? && !a.PollStep?
    ensures Kept(Step(s, a))
  {
  }

  lemma KeptStep(s: State, a: Action)
    requires Kept(s) && Enabled(s, a)
    ensures Kept(Step(s, a))
  {
    if a.Proceed? {
      ThreadGentle(s, a.t);
      LockThread(s, a.t);
    } else if a.PollStep? {
      KeptPoll(s);
    } else {
      KeptElsewhere(s, a);
    }
  }

  lemma KeptAt(run: seq<State>, k: nat)
    requires IsRun(Init, MindfulNext, run) && k < |run|
    ensures Kept(run[k])
  {
    forall s, t | Kept(s) && MindfulNext(s, t) ensures Kept(t) {
      var a :| Enabled(s, a) && t == Step(s, a) && (a.Proceed? ==> !Forgets(s, a.t));
      KeptStep(s, a);
    }
    Always(Init, MindfulNext, Kept, run, k);
  }

  // ----- a forgetting clear of an active handle forgets -----

  /** The kernel reports the direction, the word does not, and no edge or event will. */
  predicate Bare(s: State, t: nat, d: Direction) {
    && t < |s.threads| && On(s.threads[t], d)
    && Get(s, d).active && Shows(s.level, d) && Armable(s.status, d)
    && !s.edge && !s.poll.Fetched? && s.registration.Live?
  }

  /** The handle's thread goes on to park it, unless somebody gets in between. */
  predicate Unattended(s: State, t: nat, d: Direction) { Bare(s, t, d) && s.poll.Waiting? }

  lemma ParkStep(s: State, t: nat, d: Direction) returns (s': State)
    requires Unattended(s, t, d) && (s.threads[t].Arm? || s.threads[t].ArmFirst? || s.threads[t].ArmAgain?) && s.lock.None?
    requires OneToken(s, d)
    ensures MindfulNext(s, s') && Unattended(s', t, d) && OneToken(s', d)
    ensures var pc, n := s.threads[t], s.threads[t].n;
            && s'.threads[t] == (if pc.Arm? then ArmFirst(d, n) else if pc.ArmFirst? then ArmAgain(d, n) else ArmStore(d, n))
            && s'.lock == (if pc.ArmAgain? then Some(t) else None)
  {
    var a := Proceed(t);
    s' := ThreadMove(s, t);
    assert Enabled(s, a) && Step(s, a) == s' && !Forgets(s, t);
    OneTokenThread(s, t, d);
  }

  lemma StoreStep(s: State, t: nat, d: Direction) returns (s': State)
    requires Unattended(s, t, d) && s.threads[t].ArmStore? && s.lock == Some(t) && OneToken(s, d)
    ensures MindfulNext(s, s') && Forgotten(s', d)
  {
    var a := Proceed(t);
    s' := ThreadMove(s, t);
    assert Enabled(s, a) && Step(s, a) == s' && !Forgets(s, t);
    assert Get(s', d).parked && Get(s', d).active;
    OneTokenThread(s, t, d);
    ActingNonNegative(s', d);
    forall u | 0 <= u < |s'.threads| ensures !On(s'.threads[u], d) {
      AtLeastEach(OnReader, s'.threads, u);
      AtLeastEach(OnWriter, s'.threads, u);
    }
  }

  /** Four steps of its own thread park an unattended handle. */
  lemma ParksForgotten(s: State, t: nat, d: Direction)
    requires Unattended(s, t, d) && s.threads[t].Arm? && s.lock.None? && OneToken(s, d)
    ensures CanBeForgotten(s, d)
  {
    var s1 := ParkStep(s, t, d);
    var s2 := ParkStep(s1, t, d);
    var s3 := ParkStep(s2, t, d);
    var s4 := StoreStep(s3, t, d);
    ForgottenNow(s4, d);
    ForgottenLater(s3, s4, d);
    ForgottenLater(s2, s3, d);
    ForgottenLater(s1, s2, d);
    ForgottenLater(s, s1, d);
  }

  /** How many steps the poll thread needs to be done with what it has published. */
  function PollLeft(p: Poll): nat {
    match p
    case Waiting => 0
    case Fetched(_) => 5
    case Published(_) => 4
    case Calling(reader, writer) => 1 + (if reader then 1 else 0) + (if writer then 1 else 0)
  }

  lemma BarePoll(s: State, t: nat, d: Direction)
    requires Bare(s, t, d) && !s.poll.Waiting? && s.lock.None? && s.threads[t].Arm? && OneToken(s, d)
    ensures var s' := PollMove(s);
            && MindfulNext(s, s') && Bare(s', t, d) && s'.threads == s.threads && s'.lock.None? && OneToken(s', d)
            && PollLeft(s'.poll) < PollLeft(s.poll)
  {
    var a := PollStep;
    assert Enabled(s, a) && Step(s, a) == PollMove(s);
    OneTokenElsewhere(s, a, d);
  }

  /** The poll thread finishes first. */
  lemma {:induction false} PollForgotten(s: State, t: nat, d: Direction)
    requires Bare(s, t, d) && s.lock.None? && s.threads[t].Arm? && OneToken(s, d)
    ensures CanBeForgotten(s, d)
    decreases PollLeft(s.poll)
  {
    if s.poll.Waiting? {
      ParksForgotten(s, t, d);
    } else {
      BarePoll(s, t, d);
      PollForgotten(PollMove(s), t, d);
      ForgottenLater(s, PollMove(s), d);
    }
  }

  /** Whoever holds the lock is storing the other direction's callback, and gives it up. */
  lemma BareUnlock(s: State, t: nat, d: Direction, u: nat)
    requires Bare(s, t, d) && s.lock == Some(u) && LockHeld(s) && s.threads[t].Arm? && OneToken(s, d)
    ensures Enabled(s, Proceed(u))
    ensures var s' := ThreadMove(s, u);
            MindfulNext(s, s') && Bare(s', t, d) && s'.lock.None? && s'.threads[t].Arm? && OneToken(s', d)
  {
    var a := Proceed(u);
    if s.threads[u].d == d { Exclusive(s, t, u, d); }
    assert Enabled(s, a) && Step(s, a) == ThreadMove(s, u) && !Forgets(s, u);
    OneTokenThread(s, u, d);
  }

  lemma BareForgotten(s: State, t: nat, d: Direction)
    requires Bare(s, t, d) && LockHeld(s) && s.threads[t].Arm? && OneToken(s, d)
    ensures CanBeForgotten(s, d)
  {
    if s.lock.Some? {
      BareUnlock(s, t, d, s.lock.value);
      PollForgotten(ThreadMove(s, s.lock.value), t, d);
      ForgottenLater(s, ThreadMove(s, s.lock.value), d);
    } else {
      PollForgotten(s, t, d);
    }
  }

  lemma ClearBares(s: State, t: nat, d: Direction)
    requires Kept(s) && Forgets(s, t) && s.threads[t].d == d && Get(s, d).active && s.registration.Live?
    ensures Enabled(s, Proceed(t)) && Bare(ThreadMove(s, t), t, d) && ThreadMove(s, t).threads[t].Arm?
  {
  }

  // ----- a cancelled handle, or one of a registration that is going, is not forgotten -----

  /** A cancelled handle stays cancelled. */
  predicate Retired(s: State, d: Direction) { Get(s, d).added && !Get(s, d).active }

  lemma RetiredStep(s: State, a: Action, d: Direction)
    requires Retired(s, d) && Enabled(s, a)
    ensures Retired(Step(s, a), d)
  {
    if a.Proceed? { ThreadGentle(s, a.t); }
  }

  lemma RetiredIsNotForgotten(s: State, d: Direction)
    requires Retired(s, d)
    ensures !CanBeForgotten(s, d)
  {
    forall tail | IsRun((x: State) => x == s, MindfulNext, tail) ensures !Forgotten(tail[|tail| - 1], d) {
      forall x, y | Retired(x, d) && MindfulNext(x, y) ensures Retired(y, d) {
        var a :| Enabled(x, a) && y == Step(x, a) && (a.Proceed? ==> !Forgets(x, a.t));
        RetiredStep(x, a, d);
      }
      Always((x: State) => x == s, MindfulNext, (x: State) => Retired(x, d), tail, |tail| - 1);
    }
  }

  /** On a registration that is going, a handle that is neither parked nor about to be
      stored never parks again. */
  ghost predicate NeverParks(s: State, d: Direction) {
    && s.status.shutdown && !Get(s, d).parked && OneToken(s, d)
    && forall u :: 0 <= u < |s.threads| ==> !(s.threads[u].ArmStore? && s.threads[u].d == d)
  }

  lemma NeverParksThread(s: State, t: nat, d: Direction)
    requires NeverParks(s, d) && Enabled(s, Proceed(t))
    ensures NeverParks(ThreadMove(s, t), d)
  {
    var s' := ThreadMove(s, t);
    ThreadGentle(s, t);
    OneTokenThread(s, t, d);
    assert !s'.threads[t].ArmStore?;
  }

  lemma NeverParksElsewhere(s: State, a: Action, d: Direction)
    requires NeverParks(s, d) && Enabled(s, a) && !a.Proceed?
    ensures NeverParks(Step(s, a), d)
  {
    OneTokenStep(s, a, d);
    UnparkedElsewhere(s, a, d);
  }

  /** Nothing but a thread's own step parks a handle or starts storing its callback. */
  predicate Unparks(s: State, s': State, d: Direction) {
    && s'.status.shutdown && !Get(s', d).parked && |s'.threads| == |s.threads|
    && forall u :: 0 <= u < |s.threads| ==> !s'.threads[u].ArmStore? || s'.threads[u] == s.threads[u]
  }

  lemma UnparkedElsewhere(s: State, a: Action, d: Direction)
    requires Enabled(s, a) && !a.Proceed? && s.status.shutdown && !Get(s, d).parked
    ensures Unparks(s, Step(s, a), d)
  {
    if a.PollStep? {
      UnparkedPoll(s, d);
    } else if a.Add? || a.StartDispatch? || a.StartTold? {
      UnparkedStart(s, a, d);
    }
  }

  lemma UnparkedPoll(s: State, d: Direction)
    requires Enabled(s, PollStep) && s.status.shutdown && !Get(s, d).parked
    ensures Unparks(s, PollMove(s), d)
  {
    assert PollMove(s).threads == s.threads;
  }

  lemma UnparkedStart(s: State, a: Action, d: Direction)
    requires Enabled(s, a) && (a.Add? || a.StartDispatch? || a.StartTold?) && s.status.shutdown && !Get(s, d).parked
    ensures Unparks(s, Step(s, a), d)
  {
  }

  lemma NeverParksIsAttended(s: State, d: Direction)
    requires NeverParks(s, d)
    ensures !Forgotten(s, d)
  {
    if Acting(s, d) > 0 {
      SomebodyActs(s, d);
    } else {
      ActingNonNegative(s, d);
    }
  }

  lemma NeverParksIsNotForgotten(s: State, d: Direction)
    requires NeverParks(s, d)
    ensures !CanBeForgotten(s, d)
  {
    forall tail | IsRun((x: State) => x == s, MindfulNext, tail) ensures !Forgotten(tail[|tail| - 1], d) {
      forall x, y | NeverParks(x, d) && MindfulNext(x, y) ensures NeverParks(y, d) {
        var a :| Enabled(x, a) && y == Step(x, a) && (a.Proceed? ==> !Forgets(x, a.t));
        if a.Proceed? { NeverParksThread(x, a.t, d); } else { NeverParksElsewhere(x, a, d); }
      }
      Always((x: State) => x == s, MindfulNext, (x: State) => NeverParks(x, d), tail, |tail| - 1);
      NeverParksIsAttended(tail[|tail| - 1], d);
    }
  }

  /** A thread acts for the handle: it was added, and it is not parked. */
  lemma ActingIsToken(s: State, t: nat, d: Direction)
    requires OneToken(s, d) && t < |s.threads| && On(s.threads[t], d)
    ensures Get(s, d).added && !Get(s, d).parked
  {
    AtLeastEach(OnReader, s.threads, t);
    AtLeastEach(OnWriter, s.threads, t);
  }

  lemma ClearNeverParks(s: State, t: nat, d: Direction)
    requires Enabled(s, Proceed(t)) && s.threads[t].ClearStale? && s.threads[t].d == d && OneToken(s, d) && s.status.shutdown
    ensures NeverParks(ThreadMove(s, t), d)
  {
    ActingIsToken(s, t, d);
    forall u | 0 <= u < |s.threads| ensures !(s.threads[u].ArmStore? && s.threads[u].d == d) {
      if On(s.threads[u], d) { Exclusive(s, t, u, d); }
    }
    NeverParksThread(s, t, d);
  }

  // ----- the exact condition -----

  /** A thread is about to clear a stale bit, in any reachable state. What the kernel
      reports stays known if and only if the clear does not forget. And the handle can be
      left forgotten afterwards, without a further forgetting clear, if and only if this
      clear forgets, the handle is active and its registration live. */
  lemma ClearForgetsExactly(run: seq<State>, k: nat, t: nat)
    requires IsRun(Init, MindfulNext, run) && k < |run| && t < |run[k].threads| && run[k].threads[t].ClearStale?
    ensures Enabled(run[k], Proceed(t))
    ensures LevelKnown(Step(run[k], Proceed(t))) <==> !Forgets(run[k], t)
    ensures var s, d := run[k], run[k].threads[t].d;
            CanBeForgotten(Step(s, Proceed(t)), d) <==> Forgets(s, t) && Get(s, d).active && s.registration.Live?
  {
    MindfulInv(run, k);
    KeptAt(run, k);
    ClearLosesExactly(run[k], t);
    ClearForgets(run[k], t, run[k].threads[t].d);
  }

  lemma ClearForgets(s: State, t: nat, d: Direction)
    requires Inv(s) && Kept(s) && Enabled(s, Proceed(t)) && s.threads[t].ClearStale? && s.threads[t].d == d
    ensures CanBeForgotten(ThreadMove(s, t), d) <==> Forgets(s, t) && Get(s, d).active && s.registration.Live?
  {
    var s' := ThreadMove(s, t);
    assert OneToken(s, d);
    if !Forgets(s, t) {
      StepInv(s, Proceed(t));
      KnownIsNotForgotten(s', d);
    } else if !Get(s, d).active {
      ActingIsToken(s, t, d);
      RetiredStep(s, Proceed(t), d);
      RetiredIsNotForgotten(s', d);
    } else if !s.registration.Live? {
      ClearNeverParks(s, t, d);
      NeverParksIsNotForgotten(s', d);
    } else {
      ClearBares(s, t, d);
      OneTokenThread(s, t, d);
      LockThread(s, t);
      BareForgotten(s', t, d);
    }
  }
}
