/** The wait loop of `TaskGroup` (`mt_asyncio/asyncio/_tg.py`) against the completion
    callbacks of its children, which run on other workers. Children are created by the
    parent's body or by children that are still running; a child may run, and even
    finish, before its creator has put it into the group. */
module TaskGroups {
  import opened Options
  import opened Runs

  /** `create_task` has: made the task; put it into `_tasks`; added the done callback. */
  datatype Stage = Spawned | Added | Registered

  datatype Life = Running | Finished(failed: bool)

  /** `_on_task_done`: not run; past its first critical section; about to wake; over. */
  datatype Callback = NotRun | Recorded | Waking(fut: nat) | Over

  /** `creator` is the child that made this one, or nobody for the parent's body. */
  datatype Child = Child(creator: Option<nat>, stage: Stage, life: Life, callback: Callback)

  datatype Parent =
    | Body
    | Looping              // top of the wait loop
    | Awaiting(fut: nat)
    | Resetting            // awake again, about to drop the waiter
    | Left                 // out of the loop

  /** `settled` holds the waiter futures that are done or cancelled. */
  datatype State = State(children: seq<Child>, tasks: set<nat>, errors: seq<nat>, parent: Parent,
                         waiter: Option<nat>, nextFut: nat, settled: set<nat>)

  datatype Action =
    | Create(creator: Option<nat>)
    | Add(c: nat)
    | Register(c: nat)
    | Finish(c: nat, failed: bool)
    | Record(c: nat)               // first critical section of `_on_task_done`
    | Decide(c: nat)               // second one
    | SetWaiter(c: nat)
    | ExitBody
    | Loop
    | CancelWaiter                 // the parent is cancelled while it waits
    | Wake
    | Reset

  predicate Init(s: State) {
    s.children == [] && s.tasks == {} && s.errors == [] && s.parent.Body? && s.waiter.None? && s.settled == {}
  }

  /** Somebody is in the middle of creating child `c`. */
  predicate Creating(x: Child, creator: Option<nat>) { x.creator == creator && !x.stage.Registered? }

  ghost predicate Busy(s: State, creator: Option<nat>) {
    exists c :: 0 <= c < |s.children| && Creating(s.children[c], creator)
  }

  ghost predicate Enabled(s: State, a: Action) {
    match a
    case Create(creator) =>
      && !Busy(s, creator)
      && (if creator.None? then s.parent.Body?
          else creator.value < |s.children| && s.children[creator.value].life.Running?)
    case Add(c) => c < |s.children| && s.children[c].stage.Spawned?
    case Register(c) => c < |s.children| && s.children[c].stage.Added?
    case Finish(c, _) => c < |s.children| && s.children[c].life.Running? && !Busy(s, Some(c))
    case Record(c) =>
      c < |s.children| && s.children[c].life.Finished? && s.children[c].stage.Registered? && s.children[c].callback.NotRun?
    case Decide(c) => c < |s.children| && s.children[c].callback.Recorded?
    case SetWaiter(c) => c < |s.children| && s.children[c].callback.Waking?
    case ExitBody => s.parent.Body? && !Busy(s, None)
    case Loop => s.parent.Looping?
    case CancelWaiter => s.parent.Awaiting? && s.parent.fut !in s.settled
    case Wake => s.parent.Awaiting?
    case Reset => s.parent.Resetting?
  }

  function Set(s: State, c: nat, x: Child): State
    requires c < |s.children|
  {
    s.(children := s.children[c := x])
  }

  /** The first critical section: out of the set and, if it failed, into the errors, at once. */
  function Struck(tasks: set<nat>, errors: seq<nat>, c: nat, failed: bool): (set<nat>, seq<nat>) {
    (tasks - {c}, if failed then errors + [c] else errors)
  }

  /** The head of the wait loop: leave if the group is empty, else wait on the one future. */
  function Waited(tasks: set<nat>, waiter: Option<nat>, next: nat): Option<nat> {
    if tasks == {} then None else if waiter.None? then Some(next) else waiter
  }

  /** The second critical section: the last child out wakes the parent's waiter, if any. */
  function WokenBy(tasks: set<nat>, waiter: Option<nat>): Option<nat> {
    if tasks == {} then waiter else None
  }

  ghost function Step(s: State, a: Action): State
    requires Enabled(s, a)
  {
    match a
    case Create(creator) => s.(children := s.children + [Child(creator, Spawned, Running, NotRun)])
    case Add(c) => Set(s, c, s.children[c].(stage := Added)).(tasks := s.tasks + {c})
    case Register(c) => Set(s, c, s.children[c].(stage := Registered))
    case Finish(c, failed) => Set(s, c, s.children[c].(life := Finished(failed)))
    case Record(c) =>
      var (tasks, errors) := Struck(s.tasks, s.errors, c, s.children[c].life.failed);
      Set(s, c, s.children[c].(callback := Recorded)).(tasks := tasks, errors := errors)
    case Decide(c) =>
      var wake := WokenBy(s.tasks, s.waiter);
      Set(s, c, s.children[c].(callback := if wake.Some? then Waking(wake.value) else Over))
    case SetWaiter(c) => Set(s, c, s.children[c].(callback := Over)).(settled := s.settled + {s.children[c].callback.fut})
    case ExitBody => s.(parent := Looping)
    case Loop =>
      var w := Waited(s.tasks, s.waiter, s.nextFut);
      if w.None? then s.(parent := Left)
      else s.(parent := Awaiting(w.value), waiter := w, nextFut := if s.waiter.None? then s.nextFut + 1 else s.nextFut)
    case CancelWaiter => s.(settled := s.settled + {s.parent.fut})
    case Wake => s.(parent := Resetting)
    case Reset => s.(parent := Looping, waiter := None)
  }

  ghost predicate Next(s: State, t: State) {
    exists a :: Enabled(s, a) && t == Step(s, a)
  }

  /** The group's own fields, updated in place. */
  class TaskGroup {
    var tasks: set<nat>
    var errors: seq<nat>
    var waiter: Option<nat>
    var nextFut: nat

    constructor ()
      ensures tasks == {} && errors == [] && waiter == None
    {
      tasks, errors, waiter, nextFut := {}, [], None, 0;
    }

    method RecordDone(c: nat, failed: bool)
      modifies this`tasks, this`errors
      ensures (tasks, errors) == Struck(old(tasks), old(errors), c, failed)
    {
      tasks := tasks - {c};
      if failed { errors := errors + [c]; }
    }

    method DecideWake() returns (wake: Option<nat>)
      ensures wake == WokenBy(tasks, waiter)
    {
      wake := if waiter.Some? && tasks == {} then waiter else None;
    }

    method NextWait() returns (wait: Option<nat>)
      modifies this`waiter, this`nextFut
      ensures wait == Waited(tasks, old(waiter), old(nextFut))
      ensures waiter == if wait.None? then old(waiter) else wait
      ensures nextFut == if waiter == old(waiter) then old(nextFut) else old(nextFut) + 1
    {
      if tasks == {} { return None; }
      if waiter.None? {
        waiter := Some(nextFut);
        nextFut := nextFut + 1;
      }
      wait := waiter;
    }
  }

  // ----- what every step keeps -----

  /** A child that is not registered yet is being created by somebody still running. */
  predicate CreatorRuns(s: State, c: nat)
    requires c < |s.children|
  {
    var x := s.children[c];
    x.stage.Registered?
    || (if x.creator.None? then s.parent.Body?
        else x.creator.value < c && s.children[x.creator.value].life.Running?)
  }

  predicate ChildOk(s: State, c: nat)
    requires c < |s.children|
  {
    var x := s.children[c];
    && CreatorRuns(s, c)
    && (!x.callback.NotRun? ==> x.life.Finished? && x.stage.Registered?)
    && (c in s.tasks <==> !x.stage.Spawned? && x.callback.NotRun?)
    && (x.callback.Waking? ==> x.callback.fut < s.nextFut)
  }

  predicate FailureRecorded(x: Child) { x.life.Finished? && x.life.failed && !x.callback.NotRun? }

  ghost predicate ErrorsOk(s: State) {
    forall c :: multiset(s.errors)[c] == (if 0 <= c < |s.children| && FailureRecorded(s.children[c]) then 1 else 0)
  }

  ghost predicate ParentOk(s: State) {
    && (s.parent.Awaiting? ==> s.waiter == Some(s.parent.fut))
    && (s.waiter.Some? ==> s.waiter.value < s.nextFut)
    && (s.parent.Awaiting? && s.parent.fut !in s.settled && s.tasks == {} ==> WakeOwed(s))
    && (s.parent.Left? ==> forall c :: 0 <= c < |s.children| ==> !s.children[c].callback.NotRun?)
  }

  /** Some child's callback still has to look at the parent's waiter, or to wake it. */
  ghost predicate WakeOwed(s: State) {
    s.parent.Awaiting? &&
    exists c :: 0 <= c < |s.children| && Owes(s.children[c], s.parent.fut)
  }

  predicate Owes(x: Child, fut: nat) { x.callback.Recorded? || x.callback == Waking(fut) }

  ghost predicate Inv(s: State) {
    && (forall c :: 0 <= c < |s.children| ==> ChildOk(s, c))
    && (forall c :: c in s.tasks ==> c < |s.children|)
    && ErrorsOk(s) && ParentOk(s)
  }

  /** With the set empty, every child ever created has been recorded: the first that was
      not would still be with a creator that runs, hence an even earlier one. */
  lemma {:induction false} EmptyMeansAllRecorded(s: State, c: nat)
    requires forall c :: 0 <= c < |s.children| ==> ChildOk(s, c)
    requires s.tasks == {} && !s.parent.Body? && c < |s.children|
    ensures !s.children[c].callback.NotRun?
  {
    assert ChildOk(s, c);
    if s.children[c].callback.NotRun? {
      var d := s.children[c].creator.value;
      assert ChildOk(s, d);
      EmptyMeansAllRecorded(s, d);
    }
  }

  lemma ChildOkStep(s: State, a: Action, c: nat)
    requires Inv(s) && Enabled(s, a) && c < |Step(s, a).children|
    ensures ChildOk(Step(s, a), c)
  {
    var s' := Step(s, a);
    if c < |s.children| {
      assert ChildOk(s, c);
      if a.Finish? || a.ExitBody? {
        if !s.children[c].stage.Registered? { assert Creating(s.children[c], s.children[c].creator); }
      }
    }
  }

  lemma {:induction false} ErrorsStep(s: State, a: Action)
    requires Inv(s) && Enabled(s, a)
    ensures ErrorsOk(Step(s, a))
  {
    var s' := Step(s, a);
    forall c ensures multiset(s'.errors)[c] == (if 0 <= c < |s'.children| && FailureRecorded(s'.children[c]) then 1 else 0)
    {
      assert multiset(s.errors)[c] == (if 0 <= c < |s.children| && FailureRecorded(s.children[c]) then 1 else 0);
      if 0 <= c < |s.children| { assert ChildOk(s, c); }
    }
  }

  lemma OwedStep(s: State, a: Action)
    requires Inv(s) && Enabled(s, a) && Step(s, a).parent.Awaiting?
    requires Step(s, a).parent.fut !in Step(s, a).settled && Step(s, a).tasks == {}
    ensures WakeOwed(Step(s, a))
  {
    var s' := Step(s, a);
    if a.Record? {
      assert Owes(s'.children[a.c], s'.parent.fut);
    } else {
      assert s.parent == s'.parent && s.tasks == {};
      var c :| 0 <= c < |s.children| && Owes(s.children[c], s.parent.fut);
      assert Owes(s'.children[c], s'.parent.fut);
    }
  }

  lemma ParentStep(s: State, a: Action)
    requires Inv(s) && Enabled(s, a)
    ensures ParentOk(Step(s, a))
  {
    var s' := Step(s, a);
    if s'.parent.Awaiting? && s'.parent.fut !in s'.settled && s'.tasks == {} { OwedStep(s, a); }
    if s'.parent.Left? {
      forall c | 0 <= c < |s'.children| ensures !s'.children[c].callback.NotRun? {
        LeftStays(s, a, c);
      }
    }
  }

  /** Once the parent has left, there is nobody left to create a child. */
  lemma NobodyCreates(s: State, creator: Option<nat>)
    requires Inv(s) && s.parent.Left?
    ensures !Enabled(s, Create(creator))
  {
    if creator.Some? && creator.value < |s.children| { assert ChildOk(s, creator.value); }
  }

  lemma LeftStays(s: State, a: Action, c: nat)
    requires Inv(s) && Enabled(s, a) && Step(s, a).parent.Left? && c < |Step(s, a).children|
    ensures !Step(s, a).children[c].callback.NotRun?
  {
    if a.Loop? {
      EmptyMeansAllRecorded(s, c);
    } else {
      if a.Create? { NobodyCreates(s, a.creator); }
    }
  }

  lemma StepInv(s: State, a: Action)
    requires Inv(s) && Enabled(s, a)
    ensures Inv(Step(s, a))
  {
    var s' := Step(s, a);
    forall c | 0 <= c < |s'.children| ensures ChildOk(s', c) { ChildOkStep(s, a, c); }
    ErrorsStep(s, a);
    ParentStep(s, a);
  }

  lemma RunInv(run: seq<State>, k: nat)
    requires IsRun(Init, Next, run) && k < |run|
    ensures Inv(run[k])
  {
    forall s, t | Inv(s) && Next(s, t) ensures Inv(t) {
      var a :| Enabled(s, a) && t == Step(s, a);
      StepInv(s, a);
    }
    Always(Init, Next, Inv, run, k);
  }

  /** When the parent is out of its wait loop, every child has finished and been recorded,
      none can appear any more, and the errors hold each failed child exactly once and
      nothing else. */
  lemma NoErrorIsLost(run: seq<State>, k: nat)
    requires IsRun(Init, Next, run) && k < |run| && run[k].parent.Left?
    ensures var s := run[k];
            && (forall c :: 0 <= c < |s.children| ==> s.children[c].life.Finished? && !s.children[c].callback.NotRun?)
            && (forall c :: multiset(s.errors)[c] ==
                  (if 0 <= c < |s.children| && s.children[c].life == Finished(true) then 1 else 0))
            && (forall creator :: !Enabled(s, Create(creator)))
  {
    RunInv(run, k);
    var s := run[k];
    forall c | 0 <= c < |s.children| ensures s.children[c].life.Finished? { assert ChildOk(s, c); }
    forall creator ensures !Enabled(s, Create(creator)) { NobodyCreates(s, creator); }
    forall c ensures multiset(s.errors)[c] == (if 0 <= c < |s.children| && s.children[c].life == Finished(true) then 1 else 0)
    {
      assert multiset(s.errors)[c] == (if 0 <= c < |s.children| && FailureRecorded(s.children[c]) then 1 else 0);
    }
  }

  /** A parent waiting on an empty group is owed its wake by some child's callback. */
  lemma NoWakeIsLost(run: seq<State>, k: nat)
    requires IsRun(Init, Next, run) && k < |run|
    requires run[k].parent.Awaiting? && run[k].parent.fut !in run[k].settled && run[k].tasks == {}
    ensures WakeOwed(run[k])
  {
    RunInv(run, k);
  }

  // ----- nobody is woken early -----

  /** The body is over, and every child there is has been recorded. */
  ghost predicate AllRecorded(s: State) {
    !s.parent.Body? && s.tasks == {} && forall c :: 0 <= c < |s.children| ==> !s.children[c].callback.NotRun?
  }

  /** With every child recorded nobody is left to create one, so it stays so. */
  lemma AllRecordedStays(s: State, a: Action)
    requires Inv(s) && AllRecorded(s) && Enabled(s, a)
    ensures AllRecorded(Step(s, a))
  {
    forall c | 0 <= c < |s.children| ensures s.children[c].life.Finished? && s.children[c].stage.Registered? {
      assert ChildOk(s, c);
    }
  }

  ghost predicate WakesLate(s: State) {
    && (s.waiter.Some? ==> !s.parent.Body?)
    && forall c :: 0 <= c < |s.children| && s.children[c].callback.Waking? ==> AllRecorded(s)
  }

  lemma WakesLateStep(s: State, a: Action)
    requires Inv(s) && WakesLate(s) && Enabled(s, a)
    ensures WakesLate(Step(s, a))
  {
    var s' := Step(s, a);
    forall c | 0 <= c < |s'.children| && s'.children[c].callback.Waking? ensures AllRecorded(s') {
      if a == Decide(c) {
        forall d | 0 <= d < |s.children| ensures !s.children[d].callback.NotRun? { EmptyMeansAllRecorded(s, d); }
        AllRecordedStays(s, a);
      } else {
        assert c < |s.children| && s.children[c].callback.Waking?;
        AllRecordedStays(s, a);
      }
    }
  }

  /** In every run, a child's callback sets out to wake the parent only when the body is
      over and no child, created by anybody, is still to be recorded: one with siblings in
      the set wakes nobody. */
  lemma NoEarlyWake(run: seq<State>, k: nat, c: nat)
    requires IsRun(Init, Next, run) && k < |run| && c < |run[k].children| && run[k].children[c].callback.Waking?
    ensures !run[k].parent.Body? && run[k].tasks == {}
    ensures forall d :: 0 <= d < |run[k].children| ==> run[k].children[d].life.Finished? && !run[k].children[d].callback.NotRun?
  {
    forall s, t | Inv(s) && WakesLate(s) && Next(s, t) ensures Inv(t) && WakesLate(t) {
      var a :| Enabled(s, a) && t == Step(s, a);
      StepInv(s, a);
      WakesLateStep(s, a);
    }
    Always(Init, Next, s => Inv(s) && WakesLate(s), run, k);
    forall d | 0 <= d < |run[k].children| ensures run[k].children[d].life.Finished? { assert ChildOk(run[k], d); }
  }

  // ----- every wait is a new one -----

  ghost predicate WaitsAnew(s: State) {
    && (s.parent.Body? || s.parent.Looping? ==> s.waiter.None?)
    && (s.waiter.Some? ==> s.waiter.value < s.nextFut)
    && (forall c :: 0 <= c < |s.children| && s.children[c].callback.Waking? ==> s.children[c].callback.fut < s.nextFut)
    && (s.parent.Awaiting? ==> s.parent.fut < s.nextFut)
    && forall f :: f in s.settled ==> f < s.nextFut
  }

  lemma WaitsAnewStep(s: State, a: Action)
    requires WaitsAnew(s) && Enabled(s, a)
    ensures WaitsAnew(Step(s, a))
  {
  }

  /** In every run, a parent at the head of its loop has dropped the future it waited on, and
      the one it would wait on next is nobody's yet: no wait ends before it began. */
  lemma EachWaitIsNew(run: seq<State>, k: nat)
    requires IsRun(Init, Next, run) && k < |run| && run[k].parent.Looping?
    ensures run[k].waiter.None? && run[k].nextFut !in run[k].settled
    ensures Enabled(run[k], Loop)
    ensures var s' := Step(run[k], Loop); s'.parent.Awaiting? ==> s'.parent.fut !in s'.settled
  {
    forall s, t | WaitsAnew(s) && Next(s, t) ensures WaitsAnew(t) {
      var a :| Enabled(s, a) && t == Step(s, a);
      WaitsAnewStep(s, a);
    }
    Always(Init, Next, WaitsAnew, run, k);
  }
}
