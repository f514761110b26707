/** `Semaphore` and `Lock` of `mt_asyncio/asyncio/_sync.py`, as objects: the critical
    sections of `acquire` and `release` on the wait queue. */
module SemaphoreObjects {
  import opened Options

  /** A semaphore's own fields: free permits and the queue of waiting futures. */
  datatype Core = Core(value: nat, waiters: seq<nat>)

  /** The first waiter in the queue whose future is not done yet, if any. */
  function FirstLive(waiters: seq<nat>, done: set<nat>): (k: nat)
    ensures k <= |waiters|
    ensures k < |waiters| ==> waiters[k] !in done
    ensures forall i :: 0 <= i < k ==> waiters[i] in done
  {
    if waiters == [] || waiters[0] !in done then 0 else 1 + FirstLive(waiters[1..], done)
  }

  /** `release`: skip the waiters that are done; hand the permit to the first that is not,
      or put it back when there is none. */
  function Released(c: Core, done: set<nat>): (Core, Option<nat>) {
    var k := FirstLive(c.waiters, done);
    if k < |c.waiters| then (Core(c.value, c.waiters[k + 1..]), Some(c.waiters[k]))
    else (Core(c.value + 1, []), None)
  }

  /** `acquire` up to the await: take a permit, or join the queue. */
  function Requested(c: Core, fut: nat): (Core, bool) {
    if c.value > 0 && c.waiters == [] then (Core(c.value - 1, []), true)
    else (Core(c.value, c.waiters + [fut]), false)
  }

  class Semaphore {
    var value: nat
    var waiters: seq<nat>
    var done: set<nat>       // the futures that are finished or cancelled

    ghost function Contents(): Core
      reads this
    {
      Core(value, waiters)
    }

    constructor (value: nat)
      ensures Contents() == Core(value, []) && done == {}
    {
      this.value, waiters, done := value, [], {};
    }

    /** A permit is taken only if one is free and nobody is queued for it. */
    method Request(fut: nat) returns (taken: bool)
      modifies this`value, this`waiters
      ensures (Contents(), taken) == Requested(old(Contents()), fut)
      ensures taken <==> old(value) > 0 && old(waiters) == []
      ensures taken ==> value == old(value) - 1 && waiters == []
      ensures !taken ==> value == old(value) && waiters == old(waiters) + [fut]
    {
      if value > 0 && waiters == [] {
        value := value - 1;
        return true;
      }
      waiters := waiters + [fut];
      return false;
    }

    /** The permit goes to the first waiter that is not done, and otherwise back: nobody is
        passed over, and the waiters behind stay queued in order. */
    method Release() returns (granted: Option<nat>)
      modifies this
      ensures (Contents(), granted) == Released(old(Contents()), old(done))
      ensures granted.None? ==>
                && value == old(value) + 1 && waiters == []
                && forall i :: 0 <= i < |old(waiters)| ==> old(waiters)[i] in old(done)
      ensures granted.Some? ==>
                && value == old(value) && granted.value !in old(done)
                && exists k :: 0 <= k < |old(waiters)| && old(waiters)[k] == granted.value
                     && waiters == old(waiters)[k + 1..] && forall i :: 0 <= i < k ==> old(waiters)[i] in old(done)
      ensures done == old(done) + if granted.Some? then {granted.value} else {}
    {
      ghost var skipped := 0;
      while waiters != []
        invariant 0 <= skipped <= |old(waiters)| && waiters == old(waiters)[skipped..]
        invariant done == old(done) && value == old(value)
        invariant FirstLive(old(waiters), done) == skipped + FirstLive(waiters, done)
        decreases |waiters|
      {
        var fut := waiters[0];
        waiters := waiters[1..];
        if fut !in done {
          done := done + {fut};
          return Some(fut);
        }
        skipped := skipped + 1;
      }
      value := value + 1;
      return None;
    }
  }

  class Lock {
    var locked: bool
    var waiters: seq<nat>
    var done: set<nat>

    /** A lock is a semaphore with one permit, free when the lock is not held. */
    ghost function Contents(): Core
      reads this
    {
      Core(if locked then 0 else 1, waiters)
    }

    constructor ()
      ensures Contents() == Core(1, []) && done == {}
    {
      locked, waiters, done := false, [], {};
    }

    method Request(fut: nat) returns (taken: bool)
      modifies this`locked, this`waiters
      ensures (Contents(), taken) == Requested(old(Contents()), fut)
      ensures taken <==> !old(locked) && old(waiters) == []
      ensures taken ==> locked && waiters == []
      ensures !taken ==> locked == old(locked) && waiters == old(waiters) + [fut]
    {
      if !locked && waiters == [] {
        locked := true;
        return true;
      }
      waiters := waiters + [fut];
      return false;
    }

    /** Releasing a held lock is the semaphore's release; the permit of a lock that is
        not held does not multiply. */
    method Release() returns (granted: Option<nat>)
      modifies this
      ensures old(locked) ==> (Contents(), granted) == Released(old(Contents()), old(done))
      ensures granted == Released(old(Contents()), old(done)).1 && waiters == Released(old(Contents()), old(done)).0.waiters
      ensures granted.None? ==>
                !locked && waiters == [] && forall i :: 0 <= i < |old(waiters)| ==> old(waiters)[i] in old(done)
      ensures granted.Some? ==> locked == old(locked) && granted.value in old(waiters) && granted.value !in old(done)
      ensures done == old(done) + if granted.Some? then {granted.value} else {}
    {
      ghost var skipped := 0;
      while waiters != []
        invariant 0 <= skipped <= |old(waiters)| && waiters == old(waiters)[skipped..]
        invariant done == old(done) && locked == old(locked)
        invariant FirstLive(old(waiters), done) == skipped + FirstLive(waiters, done)
        decreases |waiters|
      {
        var fut := waiters[0];
        waiters := waiters[1..];
        if fut !in done {
          done := done + {fut};
          return Some(fut);
        }
        skipped := skipped + 1;
      }
      locked := false;
      return None;
    }
  }
}

/** Permits under cancellation: any number of tasks acquire, hold and release, and may be
    cancelled at any point of their wait. The test `fut.done()` and the `set_result` that
    follows it are separate steps, because a cancellation does not take the semaphore's
    lock. */
module Semaphores {
  import opened Options
  import opened Sums
  import opened Runs
  import opened WaitQueues
  import SemaphoreObjects

  datatype Fut = NoFut | Pending | Granted | Cancelled

  datatype Pc =
    | Outside
    | Waiting            // awaiting its future
    | CleaningUp         // CancelledError raised: about to take the lock
    | Holding
    | Releasing          // `release`, about to take the lock
    | Popping            //   under the lock: next waiter, or put the permit back
    | Testing(j: nat)    //   popped j: is its future done?
    | Granting(j: nat)   //   it was not: set its result

  datatype Task = Task(pc: Pc, fut: Fut)

  /** `lost` counts permits that vanished in a `set_result` that found a cancelled future. */
  datatype State = State(initial: nat, value: nat, waiters: seq<nat>, lock: Option<nat>, tasks: seq<Task>, lost: nat)

  datatype Action =
    | Acquire(i: nat)
    | CancelFuture(i: nat)     // `Task.cancel` reaches the future the task is parked on
    | Raise(i: nat)            // the await raises CancelledError
    | Obtain(i: nat)           // the await returns
    | CleanUp(i: nat)
    | Release(i: nat)
    | Proceed(i: nat)

  predicate Init(s: State) {
    && s.value == s.initial && s.waiters == [] && s.lock.None? && s.lost == 0
    && forall i :: 0 <= i < |s.tasks| ==> s.tasks[i] == Task(Outside, NoFut)
  }

  predicate InRelease(pc: Pc) { pc.Popping? || pc.Testing? || pc.Granting? }

  predicate Enabled(s: State, a: Action) {
    && a.i < |s.tasks|
    && match a
       case Acquire(i) => s.tasks[i].pc.Outside? && s.lock.None?
       case CancelFuture(i) => s.tasks[i].pc.Waiting? && s.tasks[i].fut.Pending?
       case Raise(i) => s.tasks[i].pc.Waiting?
       case Obtain(i) => s.tasks[i].pc.Waiting? && s.tasks[i].fut.Granted?
       case CleanUp(i) => s.tasks[i].pc.CleaningUp? && s.lock.None?
       case Release(i) => s.tasks[i].pc.Holding?
       case Proceed(i) =>
         || (s.tasks[i].pc.Releasing? && s.lock.None?)
         || (InRelease(s.tasks[i].pc) && s.lock == Some(i)
             && (s.tasks[i].pc.Popping? || s.tasks[i].pc.j < |s.tasks|))
  }

  function Set(s: State, i: nat, x: Task): State
    requires i < |s.tasks|
  {
    s.(tasks := s.tasks[i := x])
  }

  function ReleaseStep(s: State, i: nat): State
    requires Enabled(s, Proceed(i))
  {
    match s.tasks[i].pc
    case Releasing => Set(s, i, Task(Popping, NoFut)).(lock := Some(i))
    case Popping =>
      if s.waiters == [] then Set(s, i, Task(Outside, NoFut)).(value := s.value + 1, lock := None)
      else Set(s, i, Task(Testing(s.waiters[0]), NoFut)).(waiters := s.waiters[1..])
    case Testing(j) => Set(s, i, Task(if s.tasks[j].fut.Pending? then Granting(j) else Popping, NoFut))
    case Granting(j) =>
      if s.tasks[j].fut.Pending? then
        Set(Set(s, j, s.tasks[j].(fut := Granted)), i, Task(Outside, NoFut)).(lock := None)
      else Set(s, i, Task(Outside, NoFut)).(lock := None, lost := s.lost + 1)
    case _ => s
  }

  function Step(s: State, a: Action): State
    requires Enabled(s, a)
  {
    match a
    case Acquire(i) =>
      if s.value > 0 && s.waiters == [] then Set(s, i, Task(Holding, NoFut)).(value := s.value - 1)
      else Set(s, i, Task(Waiting, Pending)).(waiters := s.waiters + [i])
    case CancelFuture(i) => Set(s, i, Task(Waiting, Cancelled))
    case Raise(i) => Set(s, i, Task(CleaningUp, s.tasks[i].fut))
    case Obtain(i) => Set(s, i, Task(Holding, NoFut))
    case CleanUp(i) =>
      if i in s.waiters then Set(s, i, Task(Outside, NoFut)).(waiters := Remove(s.waiters, i))
      else Set(s, i, Task(if s.tasks[i].fut.Granted? then Releasing else Outside, NoFut))
    case Release(i) => Set(s, i, Task(Releasing, NoFut))
    case Proceed(i) => ReleaseStep(s, i)
  }

  ghost predicate Next(s: State, t: State) {
    exists a :: Enabled(s, a) && t == Step(s, a)
  }

  // ----- conservation -----

  predicate Waits(x: Task) { x.pc.Waiting? || x.pc.CleaningUp? }

  /** The permits with a task: held, granted but not yet taken up, or being released. */
  function Share(x: Task): int {
    if x.pc.Holding? || x.pc.Releasing? || InRelease(x.pc) || (Waits(x) && x.fut.Granted?) then 1 else 0
  }

  predicate TaskOk(x: Task) { Waits(x) <==> !x.fut.NoFut? }

  predicate QueueOk(s: State) {
    && (s.value > 0 ==> s.waiters == [])
    && (forall k :: 0 <= k < |s.waiters| ==>
          s.waiters[k] < |s.tasks| && Waits(s.tasks[s.waiters[k]]) && !s.tasks[s.waiters[k]].fut.Granted?)
    && Distinct(s.waiters)
  }

  /** Only the task inside `release` has the lock, and what it popped is still waiting. */
  predicate LockOk(s: State) {
    && (forall i :: 0 <= i < |s.tasks| && InRelease(s.tasks[i].pc) ==> s.lock == Some(i))
    && (forall i :: 0 <= i < |s.tasks| && (s.tasks[i].pc.Testing? || s.tasks[i].pc.Granting?) ==>
          Popped(s, s.tasks[i].pc.j))
  }

  predicate Popped(s: State, j: nat) {
    j < |s.tasks| && Waits(s.tasks[j]) && !s.tasks[j].fut.Granted? && j !in s.waiters
  }

  ghost predicate Conserved(s: State) {
    s.value + Sum(Share, s.tasks) + s.lost == s.initial
  }

  ghost predicate Inv(s: State) {
    && (forall i :: 0 <= i < |s.tasks| ==> TaskOk(s.tasks[i]))
    && QueueOk(s) && LockOk(s) && Conserved(s)
  }

  lemma ConservedRelease(s: State, i: nat)
    requires Inv(s) && Enabled(s, Proceed(i))
    ensures Conserved(ReleaseStep(s, i))
  {
    if s.tasks[i].pc.Granting? {
      ConservedGrant(s, i);
    } else {
      Update(Share, s.tasks, i, ReleaseStep(s, i).tasks[i]);
    }
  }

  lemma ConservedGrant(s: State, i: nat)
    requires Inv(s) && Enabled(s, Proceed(i)) && s.tasks[i].pc.Granting?
    ensures Conserved(ReleaseStep(s, i))
  {
    var j, out := s.tasks[i].pc.j, Task(Outside, NoFut);
    assert Popped(s, j) && TaskOk(s.tasks[i]);
    var y := s.tasks[j].(fut := Granted);
    Update(Share, s.tasks, j, y);
    Update(Share, s.tasks[j := y], i, out);
    Update(Share, s.tasks, i, out);
  }

  lemma ConservedStep(s: State, a: Action)
    requires Inv(s) && Enabled(s, a)
    ensures Conserved(Step(s, a))
  {
    if a.Proceed? {
      ConservedRelease(s, a.i);
    } else {
      assert TaskOk(s.tasks[a.i]);
      if a.CleanUp? && a.i in s.waiters { assert !s.tasks[a.i].fut.Granted?; }
      Update(Share, s.tasks, a.i, Step(s, a).tasks[a.i]);
    }
  }

  /** What a step does to a task other than the acting one: nothing, or grant its future. */
  lemma OthersStep(s: State, a: Action, k: nat)
    requires Enabled(s, a) && k < |s.tasks| && k != a.i
    ensures |Step(s, a).tasks| == |s.tasks|
    ensures var x, x' := s.tasks[k], Step(s, a).tasks[k];
            x' == x || (x' == x.(fut := Granted) && a.Proceed? && s.tasks[a.i].pc == Granting(k))
  {
  }

  lemma TasksOkStep(s: State, a: Action, k: nat)
    requires Inv(s) && Enabled(s, a) && k < |s.tasks|
    ensures |Step(s, a).tasks| == |s.tasks| && TaskOk(Step(s, a).tasks[k])
  {
    assert TaskOk(s.tasks[k]);
    if k != a.i {
      OthersStep(s, a, k);
      if s.tasks[a.i].pc == Granting(k) { assert Popped(s, k); }
    }
  }

  /** Where the queue comes from: the old queue, less what was taken out, plus a new waiter. */
  lemma QueueStep(s: State, a: Action)
    requires Inv(s) && Enabled(s, a)
    ensures var s' := Step(s, a);
            && (forall x :: x in s'.waiters ==> x in s.waiters || (a == Acquire(x) && s'.tasks[x] == Task(Waiting, Pending)))
            && Distinct(s'.waiters)
            && (a.CleanUp? ==> a.i !in s'.waiters)
            && (s'.value > 0 ==> s'.waiters == [])
  {
    if a.CleanUp? && a.i in s.waiters {
      RemoveShrinks(s.waiters, a.i);
    } else if a.Acquire? {
      assert a.i !in s.waiters;
    } else if s.waiters != [] {
      DistinctDrop(s.waiters, 1);
    }
  }

  lemma QueueOkStep(s: State, a: Action)
    requires Inv(s) && Enabled(s, a)
    ensures QueueOk(Step(s, a))
  {
    var s' := Step(s, a);
    QueueStep(s, a);
    forall k | 0 <= k < |s'.waiters|
      ensures s'.waiters[k] < |s'.tasks| && Waits(s'.tasks[s'.waiters[k]]) && !s'.tasks[s'.waiters[k]].fut.Granted?
    {
      var w := s'.waiters[k];
      assert w in s'.waiters;
      if w in s.waiters { StillQueued(s, a, w); }
    }
  }

  lemma StillQueued(s: State, a: Action, w: nat)
    requires Inv(s) && Enabled(s, a) && w in s.waiters && w in Step(s, a).waiters && (a.CleanUp? ==> a.i != w)
    ensures w < |Step(s, a).tasks| && Waits(Step(s, a).tasks[w]) && !Step(s, a).tasks[w].fut.Granted?
  {
    assert s.tasks[a.i].pc.Granting? ==> Popped(s, s.tasks[a.i].pc.j);
    if w != a.i { OthersStep(s, a, w); }
  }

  lemma PoppedStep(s: State, a: Action, j: nat)
    requires Inv(s) && Enabled(s, a) && Popped(s, j) && s.lock.Some?
    requires a.Proceed? ==> s.lock == Some(a.i) && s.tasks[a.i].pc != Granting(j)
    ensures Popped(Step(s, a), j)
  {
    assert TaskOk(s.tasks[j]);
    if j != a.i { OthersStep(s, a, j); }
  }

  lemma LockOkStep(s: State, a: Action, k: nat)
    requires Inv(s) && Enabled(s, a) && k < |s.tasks|
    ensures var s' := Step(s, a);
            && |s'.tasks| == |s.tasks|
            && (InRelease(s'.tasks[k].pc) ==> s'.lock == Some(k))
            && (s'.tasks[k].pc.Testing? || s'.tasks[k].pc.Granting? ==> Popped(s', s'.tasks[k].pc.j))
  {
    var s' := Step(s, a);
    if k == a.i {
      LockOkOwn(s, a);
    } else {
      OthersStep(s, a, k);
      if s.tasks[k].pc.Testing? || s.tasks[k].pc.Granting? {
        PoppedStep(s, a, s.tasks[k].pc.j);
      }
    }
  }

  lemma LockOkOwn(s: State, a: Action)
    requires Inv(s) && Enabled(s, a)
    ensures var s', k := Step(s, a), a.i;
            && |s'.tasks| == |s.tasks|
            && (InRelease(s'.tasks[k].pc) ==> s'.lock == Some(k))
            && (s'.tasks[k].pc.Testing? || s'.tasks[k].pc.Granting? ==> Popped(s', s'.tasks[k].pc.j))
  {
    var s' := Step(s, a);
    if a.Proceed? && s.tasks[a.i].pc.Popping? && s.waiters != [] {
      var j := s.waiters[0];
      assert j in s.waiters && j !in s.waiters[1..];
      assert TaskOk(s.tasks[a.i]);
      assert s'.tasks[j] == s.tasks[j];
    }
    if a.Proceed? && s.tasks[a.i].pc.Testing? {
      PoppedStep(s, a, s.tasks[a.i].pc.j);
    }
  }

  lemma StepInv(s: State, a: Action)
    requires Inv(s) && Enabled(s, a)
    ensures Inv(Step(s, a))
  {
    var s' := Step(s, a);
    TasksOkStep(s, a, a.i);
    forall k | 0 <= k < |s'.tasks| ensures TaskOk(s'.tasks[k]) { TasksOkStep(s, a, k); }
    QueueOkStep(s, a);
    ConservedStep(s, a);
    forall k | 0 <= k < |s'.tasks|
      ensures (InRelease(s'.tasks[k].pc) ==> s'.lock == Some(k))
              && (s'.tasks[k].pc.Testing? || s'.tasks[k].pc.Granting? ==> Popped(s', s'.tasks[k].pc.j))
    {
      LockOkStep(s, a, k);
    }
  }

  /** In every run, permits are conserved up to the lost ones: free, held, in flight and
      being released never add up to more than the initial value; and a free permit never
      sits beside a queued waiter. */
  lemma PermitsConserved(run: seq<State>, k: nat)
    requires IsRun(Init, Next, run) && k < |run|
    ensures var s := run[k];
            && s.value + Sum(Share, s.tasks) + s.lost == s.initial
            && (s.value > 0 ==> s.waiters == [])
  {
    RunInv(run, k);
  }

  lemma RunInv(run: seq<State>, k: nat)
    requires IsRun(Init, Next, run) && k < |run|
    ensures Inv(run[k])
  {
    forall s | Init(s) ensures Inv(s) { AllZero(Share, s.tasks); }
    forall s, t | Inv(s) && Next(s, t) ensures Inv(t) {
      var a :| Enabled(s, a) && t == Step(s, a);
      StepInv(s, a);
    }
    Always(Init, Next, Inv, run, k);
  }

  /** With one permit, as for `Lock`, no two tasks hold it, have been granted it, or are
      releasing it at the same time. */
  lemma MutualExclusion(run: seq<State>, k: nat, i: nat, j: nat)
    requires IsRun(Init, Next, run) && k < |run| && run[k].initial == 1
    requires i < |run[k].tasks| && j < |run[k].tasks| && Share(run[k].tasks[i]) == Share(run[k].tasks[j]) == 1
    ensures i == j
  {
    RunInv(run, k);
    var s, out := run[k], Task(Outside, NoFut);
    if i != j {
      var others := s.tasks[i := out];
      assert others[j] == s.tasks[j];
      Update(Share, s.tasks, i, out);
      AtLeastEach(Share, others, j);
    }
  }

  // ----- the undisturbed calls, against the object -----

  /** The futures the object's `done()` test finds finished or cancelled. */
  function DoneTasks(s: State): set<nat> {
    set j | 0 <= j < |s.tasks| && !s.tasks[j].fut.Pending?
  }

  function CoreOf(s: State): SemaphoreObjects.Core { SemaphoreObjects.Core(s.value, s.waiters) }

  /** An acquire nobody disturbs is the object's request. */
  lemma AcquireAlone(s: State, i: nat)
    requires Enabled(s, Acquire(i))
    ensures var s' := Step(s, Acquire(i));
            && CoreOf(s') == SemaphoreObjects.Requested(CoreOf(s), i).0
            && (s'.tasks[i].pc.Holding? <==> SemaphoreObjects.Requested(CoreOf(s), i).1)
            && (s'.tasks[i] == Task(Waiting, Pending) <==> !SemaphoreObjects.Requested(CoreOf(s), i).1)
  {
  }

  /** Task `i` is under the lock, and so is nobody else; the waiters are other tasks. */
  predicate Undisturbed(s: State, i: nat) {
    && i < |s.tasks| && s.lock == Some(i) && s.tasks[i].fut.NoFut?
    && forall k :: 0 <= k < |s.waiters| ==> s.waiters[k] < |s.tasks| && s.waiters[k] != i
  }

  /** The critical section of `release` from its loop head to its end, nobody disturbing it. */
  function LoopAlone(s: State, i: nat): State
    requires Undisturbed(s, i) && s.tasks[i].pc.Popping?
    decreases |s.waiters|
  {
    var s1 := ReleaseStep(s, i);
    if s.waiters == [] then s1
    else
      var s2 := ReleaseStep(s1, i);
      if s2.tasks[i].pc.Granting? then ReleaseStep(s2, i) else LoopAlone(s2, i)
  }

  /** The state at a loop head as the object sees it, and what the rest of the loop must
      come to. */
  ghost predicate EndsAsReleased(s: State, s': State, i: nat) {
    var (core, granted) := SemaphoreObjects.Released(CoreOf(s), DoneTasks(s));
    && i < |s'.tasks| == |s.tasks|
    && CoreOf(s') == core && s'.lock.None? && s'.lost == s.lost && s'.tasks[i] == Task(Outside, NoFut)
    && (granted.None? ==> s'.tasks == s.tasks[i := Task(Outside, NoFut)])
    && (granted.Some? ==>
          && granted.value < |s.tasks|
          && s'.tasks == s.tasks[granted.value := s.tasks[granted.value].(fut := Granted)][i := Task(Outside, NoFut)])
  }

  lemma {:induction false} LoopIsTheObjects(s: State, i: nat)
    requires Undisturbed(s, i) && s.tasks[i].pc.Popping?
    ensures EndsAsReleased(s, LoopAlone(s, i), i)
    decreases |s.waiters|
  {
    if s.waiters != [] {
      var j := s.waiters[0];
      var s1 := ReleaseStep(s, i);
      var s2 := ReleaseStep(s1, i);
      assert s1.tasks[j] == s.tasks[j];
      if s.tasks[j].fut.Pending? {
        FoundLive(s, i);
      } else {
        SkipsDone(s, i);
        LoopIsTheObjects(s2, i);
      }
    }
  }

  lemma FoundLive(s: State, i: nat)
    requires Undisturbed(s, i) && s.tasks[i].pc.Popping? && s.waiters != [] && s.tasks[s.waiters[0]].fut.Pending?
    ensures EndsAsReleased(s, LoopAlone(s, i), i)
  {
    var j := s.waiters[0];
    var s1 := ReleaseStep(s, i);
    var s2 := ReleaseStep(s1, i);
    assert s1.tasks[j] == s.tasks[j] && s2.tasks[j] == s.tasks[j];
    assert j !in DoneTasks(s) && SemaphoreObjects.FirstLive(s.waiters, DoneTasks(s)) == 0;
    assert s2.tasks[j := s.tasks[j].(fut := Granted)][i := Task(Outside, NoFut)]
        == s.tasks[j := s.tasks[j].(fut := Granted)][i := Task(Outside, NoFut)];
  }

  /** A waiter that is done is dropped, and the loop comes round. */
  lemma SkipsDone(s: State, i: nat)
    requires Undisturbed(s, i) && s.tasks[i].pc.Popping? && s.waiters != [] && !s.tasks[s.waiters[0]].fut.Pending?
    ensures var s2 := s.(tasks := s.tasks[i := Task(Popping, NoFut)], waiters := s.waiters[1..]);
            && LoopAlone(s, i) == LoopAlone(s2, i) && ReleaseStep(ReleaseStep(s, i), i) == s2
            && DoneTasks(s2) == DoneTasks(s)
            && SemaphoreObjects.FirstLive(s.waiters, DoneTasks(s)) == 1 + SemaphoreObjects.FirstLive(s2.waiters, DoneTasks(s2))
  {
    var j := s.waiters[0];
    assert ReleaseStep(s, i).tasks[j] == s.tasks[j];
    assert s.tasks[i := Task(Testing(j), NoFut)][i := Task(Popping, NoFut)] == s.tasks[i := Task(Popping, NoFut)];
    assert j in DoneTasks(s);
  }

  /** A whole release nobody disturbs does to permits and queue what the object's `Release`
      does, and grants the future it grants. */
  lemma ReleaseAlone(run: seq<State>, k: nat, i: nat)
    requires IsRun(Init, Next, run) && k < |run| && Enabled(run[k], Proceed(i)) && run[k].tasks[i].pc.Releasing?
    ensures var s := run[k];
            && Undisturbed(ReleaseStep(s, i), i)
            && EndsAsReleased(s, LoopAlone(ReleaseStep(s, i), i), i)
  {
    RunInv(run, k);
    var s := run[k];
    assert TaskOk(s.tasks[i]);
    forall l | 0 <= l < |s.waiters| ensures s.waiters[l] != i { assert Waits(s.tasks[s.waiters[l]]); }
    var s1 := ReleaseStep(s, i);
    LoopIsTheObjects(s1, i);
    assert DoneTasks(s1) == DoneTasks(s);
    EntersLoop(s, s1, LoopAlone(s1, i), i);
  }

  lemma EntersLoop(s: State, s1: State, s': State, i: nat)
    requires Undisturbed(s1, i) && i < |s.tasks| && s1 == s.(tasks := s.tasks[i := Task(Popping, NoFut)], lock := Some(i))
    requires DoneTasks(s1) == DoneTasks(s) && EndsAsReleased(s1, s', i)
    requires forall l :: 0 <= l < |s.waiters| ==> s.waiters[l] != i
    ensures EndsAsReleased(s, s', i)
  {
    var granted := SemaphoreObjects.Released(CoreOf(s), DoneTasks(s)).1;
    if granted.Some? {
      var j := granted.value;
      assert j in s.waiters && j != i;
      assert s1.tasks[j := s1.tasks[j].(fut := Granted)][i := Task(Outside, NoFut)]
          == s.tasks[j := s.tasks[j].(fut := Granted)][i := Task(Outside, NoFut)];
    } else {
      assert s1.tasks[i := Task(Outside, NoFut)] == s.tasks[i := Task(Outside, NoFut)];
    }
  }

  // ----- no waiter is forgotten -----

  ghost predicate InHand(s: State, j: nat) {
    exists i :: 0 <= i < |s.tasks| && (s.tasks[i].pc == Testing(j) || s.tasks[i].pc == Granting(j))
  }

  /** A task waiting on a pending future is in the queue, or in a releaser's hand. */
  ghost predicate Remembered(s: State, j: nat)
    requires j < |s.tasks|
  {
    Waits(s.tasks[j]) && s.tasks[j].fut.Pending? ==> j in s.waiters || InHand(s, j)
  }

  ghost predicate AllRemembered(s: State) { forall j :: 0 <= j < |s.tasks| ==> Remembered(s, j) }

  lemma RememberedStep(s: State, a: Action, j: nat)
    requires Inv(s) && AllRemembered(s) && Enabled(s, a) && j < |s.tasks|
    ensures |Step(s, a).tasks| == |s.tasks| && Remembered(Step(s, a), j)
  {
    var s' := Step(s, a);
    assert Remembered(s, j) && TaskOk(s.tasks[j]);
    if j != a.i { OthersStep(s, a, j); }
    if Waits(s'.tasks[j]) && s'.tasks[j].fut.Pending? {
      if a == Acquire(j) {
        assert s'.waiters[|s.waiters|] == j;
      } else if j in s.waiters {
        QueueKeeps(s, a, j);
      } else {
        var i :| 0 <= i < |s.tasks| && (s.tasks[i].pc == Testing(j) || s.tasks[i].pc == Granting(j));
        if i != a.i { OthersStep(s, a, i); }
        assert s'.tasks[i].pc == Testing(j) || s'.tasks[i].pc == Granting(j);
      }
    }
  }

  lemma QueueKeeps(s: State, a: Action, j: nat)
    requires Inv(s) && Enabled(s, a) && j in s.waiters && a != CleanUp(j)
    ensures j in Step(s, a).waiters || InHand(Step(s, a), j)
  {
    var s' := Step(s, a);
    if a.CleanUp? && a.i in s.waiters {
      RemoveShrinks(s.waiters, a.i);
    } else if a.Proceed? && s.tasks[a.i].pc.Popping? && s.waiters[0] == j {
      assert s'.tasks[a.i].pc == Testing(j);
    }
  }

  // ----- exactly when a permit is lost -----

  /** A releaser has tested task `j`'s future and not yet set its result. */
  ghost predicate Exposed(s: State, j: nat) {
    exists i :: 0 <= i < |s.tasks| && s.tasks[i].pc == Granting(j)
  }

  /** A step that does not cancel a future between its test and its grant. */
  ghost predicate CarefulNext(s: State, t: State) {
    exists a :: Enabled(s, a) && t == Step(s, a) && !(a.CancelFuture? && Exposed(s, a.i))
  }

  ghost predicate CarefulInv(s: State) {
    && Inv(s) && AllRemembered(s) && s.lost == 0
    && forall i :: 0 <= i < |s.tasks| && s.tasks[i].pc.Granting? ==>
         s.tasks[i].pc.j < |s.tasks| && s.tasks[s.tasks[i].pc.j].fut.Pending?
  }

  lemma CarefulStep(s: State, a: Action)
    requires CarefulInv(s) && Enabled(s, a) && !(a.CancelFuture? && Exposed(s, a.i))
    ensures CarefulInv(Step(s, a))
  {
    var s' := Step(s, a);
    StepInv(s, a);
    forall j | 0 <= j < |s'.tasks| ensures Remembered(s', j) { TasksOkStep(s, a, a.i); RememberedStep(s, a, j); }
    forall i | 0 <= i < |s'.tasks| && s'.tasks[i].pc.Granting?
      ensures s'.tasks[i].pc.j < |s'.tasks| && s'.tasks[s'.tasks[i].pc.j].fut.Pending?
    {
      TasksOkStep(s, a, a.i);
      GrantStaysPending(s, a, i);
    }
  }

  lemma GrantStaysPending(s: State, a: Action, i: nat)
    requires CarefulInv(s) && Enabled(s, a) && !(a.CancelFuture? && Exposed(s, a.i))
    requires |Step(s, a).tasks| == |s.tasks| && i < |s.tasks| && Step(s, a).tasks[i].pc.Granting?
    ensures Step(s, a).tasks[i].pc.j < |s.tasks| && Step(s, a).tasks[Step(s, a).tasks[i].pc.j].fut.Pending?
  {
    var s' := Step(s, a);
    var j := s'.tasks[i].pc.j;
    if i == a.i {
      assert s.tasks[i].pc == Testing(j);
      assert Popped(s, j) && TaskOk(s.tasks[i]);
      OthersStep(s, a, j);
    } else {
      OthersStep(s, a, i);
      assert Exposed(s, j) && s.lock == Some(i) && Popped(s, j);
      if j != a.i { OthersStep(s, a, j); }
    }
  }

  /** If no future is cancelled between its test and its grant, no permit is ever lost and
      no waiter forgotten: free, held, in flight and being released are always exactly the
      initial value. */
  lemma CarefulRunsLoseNothing(run: seq<State>, k: nat)
    requires IsRun(Init, CarefulNext, run) && k < |run|
    ensures run[k].value + Sum(Share, run[k].tasks) == run[k].initial
    ensures forall j :: 0 <= j < |run[k].tasks| ==> Remembered(run[k], j)
  {
    forall s | Init(s) ensures CarefulInv(s) { AllZero(Share, s.tasks); }
    forall s, t | CarefulInv(s) && CarefulNext(s, t) ensures CarefulInv(t) {
      var a :| Enabled(s, a) && t == Step(s, a) && !(a.CancelFuture? && Exposed(s, a.i));
      CarefulStep(s, a);
    }
    Always(Init, CarefulNext, CarefulInv, run, k);
  }

  /** And such a cancellation always costs the permit: in every run, a releaser past its
      test can go on, and loses the permit exactly if that future is cancelled by now. */
  lemma GrantLosesExactlyIfCancelled(run: seq<State>, k: nat, i: nat)
    requires IsRun(Init, Next, run) && k < |run| && i < |run[k].tasks| && run[k].tasks[i].pc.Granting?
    ensures Enabled(run[k], Proceed(i))
    ensures var s := run[k];
            var s' := Step(s, Proceed(i));
            && (s'.lost == s.lost + 1 <==> s.tasks[s.tasks[i].pc.j].fut.Cancelled?)
            && (s'.value + Sum(Share, s'.tasks) == s.value + Sum(Share, s.tasks) <==> s.tasks[s.tasks[i].pc.j].fut.Pending?)
  {
    RunInv(run, k);
    var s := run[k];
    assert Popped(s, s.tasks[i].pc.j) && TaskOk(s.tasks[s.tasks[i].pc.j]);
    ConservedStep(s, Proceed(i));
  }

  lemma Then(run: seq<State>, a: Action, s: State) returns (longer: seq<State>)
    requires IsRun(Init, Next, run) && Enabled(run[|run| - 1], a) && s == Step(run[|run| - 1], a)
    ensures IsRun(Init, Next, longer) && longer[|longer| - 1] == s
  {
    longer := run + [s];
    Extend(Init, Next, run, s);
  }

  /** Otherwise a permit can be lost: a run with one permit ends with it free nowhere, held
      by nobody, and nobody waiting. */
  lemma PermitCanBeLost() returns (run: seq<State>)
    ensures IsRun(Init, Next, run)
    ensures var s := run[|run| - 1];
            && s.initial == 1 && s.value == 0 && s.lost == 1 && s.waiters == []
            && forall i :: 0 <= i < |s.tasks| ==> s.tasks[i] == Task(Outside, NoFut)
  {
    var out, hold := Task(Outside, NoFut), Task(Holding, NoFut);
    run := [State(1, 1, [], None, [out, out], 0)];
    run := Then(run, Acquire(0), State(1, 0, [], None, [hold, out], 0));
    run := Then(run, Acquire(1), State(1, 0, [1], None, [hold, Task(Waiting, Pending)], 0));
    run := Then(run, Release(0), State(1, 0, [1], None, [Task(Releasing, NoFut), Task(Waiting, Pending)], 0));
    run := Then(run, Proceed(0), State(1, 0, [1], Some(0), [Task(Popping, NoFut), Task(Waiting, Pending)], 0));
    run := Loses(run);
  }

  lemma Loses(run: seq<State>) returns (longer: seq<State>)
    requires IsRun(Init, Next, run)
    requires run[|run| - 1] == State(1, 0, [1], Some(0), [Task(Popping, NoFut), Task(Waiting, Pending)], 0)
    ensures IsRun(Init, Next, longer)
    ensures longer[|longer| - 1] == State(1, 0, [], None, [Task(Outside, NoFut), Task(Outside, NoFut)], 1)
  {
    longer := Then(run, Proceed(0), State(1, 0, [], Some(0), [Task(Testing(1), NoFut), Task(Waiting, Pending)], 0));
    longer := Then(longer, Proceed(0), State(1, 0, [], Some(0), [Task(Granting(1), NoFut), Task(Waiting, Pending)], 0));
    longer := Then(longer, CancelFuture(1), State(1, 0, [], Some(0), [Task(Granting(1), NoFut), Task(Waiting, Cancelled)], 0));
    longer := Then(longer, Proceed(0), State(1, 0, [], None, [Task(Outside, NoFut), Task(Waiting, Cancelled)], 1));
    longer := Then(longer, Raise(1), State(1, 0, [], None, [Task(Outside, NoFut), Task(CleaningUp, Cancelled)], 1));
    longer := Then(longer, CleanUp(1), State(1, 0, [], None, [Task(Outside, NoFut), Task(Outside, NoFut)], 1));
  }
}
