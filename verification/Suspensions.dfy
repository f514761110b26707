/** Exactly-once resume (`src/events.rs`, `src/time.rs`): one coroutine suspended on one
    event that is never cleared, without a checkpoint, with any number of threads setting
    the event and possibly a timer. */
module Suspensions {
  import opened Runs

  /** The suspended coroutine's registration: about to add its waker; waker added or woken
      inline; timer pushed too, or none wanted. */
  datatype Registration = AddingWaker | AddingTimer | Registered

  /** A thread setting the event: about to try the flag; it won, about to notify. */
  datatype Setter = Idle | TryFlag | Notifying

  /** `waker` says whether the suspension's waker is queued at the event, `timer` whether
      its timer is in the heap, `timerRuns` how many of its timers have been taken out to
      run and `timersRun` how many of those are through, `winners` how many resumers have won the consumed flag without having enqueued
      their handle yet, `handles` how many handles are on a run queue, `sets` how many calls
      of `set` are over. */
  datatype State = State(flag: bool, waker: bool, consumed: bool, winners: nat, handles: nat,
                         registration: Registration, wantsTimer: bool, timer: bool, timerRuns: nat,
                         timersRun: nat, setters: seq<Setter>, sets: nat)

  datatype Action = Register | Set(t: nat) | Proceed(t: nat) | Expire | RunTimer | Enqueue

  predicate Init(s: State) {
    && !s.flag && !s.waker && !s.consumed && s.winners == 0 && s.handles == 0 && s.registration.AddingWaker?
    && !s.timer && s.timerRuns == 0 && s.timersRun == 0 && s.sets == 0
    && forall t :: 0 <= t < |s.setters| ==> s.setters[t].Idle?
  }

  predicate Enabled(s: State, a: Action) {
    match a
    case Register => !s.registration.Registered?
    case Set(t) => t < |s.setters| && s.setters[t].Idle?
    case Proceed(t) => t < |s.setters| && !s.setters[t].Idle?
    case Expire => s.timer
    case RunTimer => s.timerRuns > 0
    case Enqueue => s.winners > 0
  }

  /** `CoroSuspension::resume`: whoever wins the flag goes on to enqueue the one handle. */
  function Resumed(s: State): State {
    if s.consumed then s else s.(consumed := true, winners := s.winners + 1)
  }

  function Step(s: State, a: Action): State
    requires Enabled(s, a)
  {
    match a
    case Register =>
      if s.registration.AddingWaker? then
        // `add_waker` under the event's lock: wake inline if the flag is up, else queue
        var s1 := s.(registration := if s.wantsTimer then AddingTimer else Registered);
        if s.flag then Resumed(s1) else s1.(waker := true)
      else s.(registration := Registered, timer := true)
    case Set(t) => s.(setters := s.setters[t := TryFlag])
    case Proceed(t) =>
      if s.setters[t].TryFlag? then
        if s.flag then s.(setters := s.setters[t := Idle], sets := s.sets + 1)
        else s.(flag := true, setters := s.setters[t := Notifying])
      else
        // `notify` under the lock: every queued waker is popped and woken
        var s1 := s.(setters := s.setters[t := Idle], sets := s.sets + 1, waker := false);
        if s.waker then Resumed(s1) else s1
    case Expire => s.(timer := false, timerRuns := s.timerRuns + 1)
    case RunTimer => Resumed(s.(timerRuns := s.timerRuns - 1, timersRun := s.timersRun + 1))
    case Enqueue => s.(winners := s.winners - 1, handles := s.handles + 1)
  }

  ghost predicate Next(s: State, t: State) {
    exists a :: Enabled(s, a) && t == Step(s, a)
  }

  ghost predicate NotifyPending(s: State) {
    exists t :: 0 <= t < |s.setters| && s.setters[t].Notifying?
  }

  ghost predicate Inv(s: State) {
    && s.winners + s.handles == (if s.consumed then 1 else 0)
    && (s.waker ==> !s.registration.AddingWaker?)
    && (!s.flag ==> !NotifyPending(s))
    && (s.waker && s.flag ==> NotifyPending(s))
    && (!s.registration.AddingWaker? && !s.waker ==> s.consumed)
    && (s.registration.AddingTimer? ==> s.wantsTimer)
    && (if s.timer then 1 else 0) + s.timerRuns + s.timersRun == (if s.wantsTimer && s.registration.Registered? then 1 else 0)
    && (s.timersRun > 0 ==> s.consumed)
    && (s.sets > 0 ==> s.flag)
  }

  lemma StepInv(s: State, a: Action)
    requires Inv(s) && Enabled(s, a)
    ensures Inv(Step(s, a))
  {
    var s' := Step(s, a);
    if NotifyPending(s') && !(a.Proceed? && s.setters[a.t].TryFlag?) {
      var t :| 0 <= t < |s'.setters| && s'.setters[t].Notifying?;
      assert s.setters[t].Notifying?;
    }
    if s'.waker && s'.flag {
      if a.Proceed? && s.setters[a.t].TryFlag? && !s.flag {
        assert s'.setters[a.t].Notifying?;
      } else {
        var t :| 0 <= t < |s.setters| && s.setters[t].Notifying?;
        assert s'.setters[t].Notifying?;
      }
    }
  }

  lemma RunInv(run: seq<State>, k: nat)
    requires IsRun(Init, Next, run) && k < |run|
    ensures Inv(run[k])
  {
    forall s, t | Inv(s) && Next(s, t) ensures Inv(t) {
      var a :| Enabled(s, a) && t == Step(s, a);
      StepInv(s, a);
    }
    Always(Init, Next, Inv, run, k);
  }

  /** In every interleaving of setters, the inline wake and the timer, the suspension is
      put on a run queue at most once; once its waker is registered and the event is set
      with nobody still notifying, or its timer has run, one handle is enqueued or on its
      way; and until then a suspension nobody has resumed still has its waker queued. A
      `set` that is over has left the event set. A wanted timer, once registered, is in
      exactly one place: the heap, on its way to run, or run. */
  lemma ResumedExactlyOnce(run: seq<State>, k: nat)
    requires IsRun(Init, Next, run) && k < |run|
    ensures run[k].winners + run[k].handles <= 1
    ensures !run[k].registration.AddingWaker? && run[k].flag && !NotifyPending(run[k]) ==>
              run[k].winners + run[k].handles == 1
    ensures run[k].sets > 0 ==> run[k].flag
    ensures run[k].timersRun > 0 ==> run[k].winners + run[k].handles == 1
    ensures !run[k].registration.AddingWaker? && run[k].winners + run[k].handles == 0 ==> run[k].waker
    ensures run[k].wantsTimer && run[k].registration.Registered? ==>
              (if run[k].timer then 1 else 0) + run[k].timerRuns + run[k].timersRun == 1
  {
    RunInv(run, k);
  }

  /** A `set` that nobody disturbs is the object's: the event is set, and a queued waker has
      been woken. */
  lemma SetAlone(s: State, t: nat) returns (s': State)
    requires Enabled(s, Set(t)) && (s.flag ==> !s.waker)
    ensures s'.flag && !s'.waker && (s.waker ==> s'.consumed) && s'.setters == s.setters
    ensures s'.winners == s.winners + (if s.waker && !s.consumed then 1 else 0)
    ensures exists steps :: IsRun((x: State) => x == s, Next, steps) && steps[|steps| - 1] == s'
  {
    var s1 := Then(s, Set(t));
    var s2 := Then(s1, Proceed(t));
    if s.flag {
      s' := s2;
      Steps3(Next, s, s1, s2);
    } else {
      var s3 := Then(s2, Proceed(t));
      s' := s3;
      Steps4(Next, s, s1, s2, s3);
    }
  }

  lemma Then(s: State, a: Action) returns (s': State)
    requires Enabled(s, a)
    ensures s' == Step(s, a) && Next(s, s')
  {
    s' := Step(s, a);
  }

  /** The event as an object: any number of suspensions may be queued on it. */
  class Event {
    var flag: bool
    var watchers: seq<nat>
    var consumed: set<nat>
    var handles: seq<nat>

    /** A handle has been enqueued once for every consumed suspension. */
    ghost predicate Unique()
      reads this
    {
      && (forall x :: x in consumed <==> x in handles)
      && (forall i, j :: 0 <= i < j < |handles| ==> handles[i] != handles[j])
    }

    /** And a set event has nobody left waiting. */
    ghost predicate Valid()
      reads this
    {
      Unique() && (flag ==> watchers == [])
    }

    constructor ()
      ensures Valid() && !flag && watchers == [] && handles == []
    {
      flag, watchers, consumed, handles := false, [], {}, [];
    }

    method Resume(target: nat)
      requires Unique()
      modifies this`consumed, this`handles
      ensures Unique()
      ensures target in handles
      ensures handles == if target in old(handles) then old(handles) else old(handles) + [target]
    {
      if target !in consumed {
        consumed := consumed + {target};
        handles := handles + [target];
      }
    }

    method AddWaker(target: nat)
      requires Valid()
      modifies this
      ensures Valid() && flag == old(flag)
      ensures flag ==>
                && watchers == old(watchers)
                && handles == if target in old(handles) then old(handles) else old(handles) + [target]
      ensures !flag ==> handles == old(handles) && watchers == old(watchers) + [target]
    {
      if flag {
        Resume(target);
        return;
      }
      watchers := watchers + [target];
    }

    /** `set`: everyone queued is resumed, nobody twice, and nobody else. */
    method SetFlag()
      requires Valid()
      modifies this
      ensures Valid() && flag
      ensures old(handles) <= handles
      ensures forall x :: x in handles <==> x in old(handles) || x in old(watchers)
    {
      if flag { return; }
      flag := true;
      while watchers != []
        invariant flag && Unique()
        invariant old(handles) <= handles
        invariant forall x :: x in handles || x in watchers <==> x in old(handles) || x in old(watchers)
        invariant forall x :: x in handles ==> x in old(handles) || x in old(watchers)
        decreases |watchers|
      {
        var next := watchers[0];
        assert watchers == [next] + watchers[1..];
        watchers := watchers[1..];
        Resume(next);
      }
    }
  }
}
