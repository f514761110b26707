/** `Queue` of `mt_asyncio/asyncio/_sync.py` as an object: storage, capacity and the
    wake-ups of its critical sections. */
module QueueObjects {
  import opened Options
  import opened SemaphoreObjects

  /** The wait queue after waking its first live waiter, and who that was. */
  function WakeFirst(waiters: seq<nat>, done: set<nat>): (seq<nat>, Option<nat>) {
    var k := FirstLive(waiters, done);
    if k < |waiters| then (waiters[k + 1..], Some(waiters[k])) else ([], None)
  }

  /** The futures that are done once the first live waiter has been woken. */
  function Settled(waiters: seq<nat>, done: set<nat>): set<nat> {
    var woken := WakeFirst(waiters, done).1;
    if woken.Some? then done + {woken.value} else done
  }

  predicate HasRoom(maxsize: int, size: nat) { maxsize <= 0 || size < maxsize }

  class Queue<T> {
    const maxsize: int
    var items: seq<T>
    var getters: seq<nat>
    var putters: seq<nat>
    var done: set<nat>

    ghost predicate Valid()
      reads this
    {
      maxsize > 0 ==> |items| <= maxsize
    }

    constructor (maxsize: int)
      ensures Valid() && this.maxsize == maxsize && items == [] && getters == [] && putters == [] && done == {}
    {
      this.maxsize := maxsize;
      items, getters, putters, done := [], [], [], {};
    }

    /** Somebody is woken whenever one is live: the first such, and those behind stay
        queued in order. */
    method WakeGetter() returns (woken: Option<nat>)
      modifies this`getters, this`done
      ensures (getters, woken) == WakeFirst(old(getters), old(done))
      ensures woken.None? ==> getters == [] && forall i :: 0 <= i < |old(getters)| ==> old(getters)[i] in old(done)
      ensures woken.Some? ==>
                && woken.value !in old(done)
                && exists k :: 0 <= k < |old(getters)| && old(getters)[k] == woken.value
                     && getters == old(getters)[k + 1..] && forall i :: 0 <= i < k ==> old(getters)[i] in old(done)
      ensures done == Settled(old(getters), old(done))
    {
      ghost var skipped := 0;
      while getters != []
        invariant 0 <= skipped <= |old(getters)| && getters == old(getters)[skipped..] && done == old(done)
        invariant FirstLive(old(getters), done) == skipped + FirstLive(getters, done)
        decreases |getters|
      {
        var fut := getters[0];
        getters := getters[1..];
        if fut !in done {
          done := done + {fut};
          return Some(fut);
        }
        skipped := skipped + 1;
      }
      return None;
    }

    method WakePutter() returns (woken: Option<nat>)
      modifies this`putters, this`done
      ensures (putters, woken) == WakeFirst(old(putters), old(done))
      ensures woken.None? ==> putters == [] && forall i :: 0 <= i < |old(putters)| ==> old(putters)[i] in old(done)
      ensures woken.Some? ==>
                && woken.value !in old(done)
                && exists k :: 0 <= k < |old(putters)| && old(putters)[k] == woken.value
                     && putters == old(putters)[k + 1..] && forall i :: 0 <= i < k ==> old(putters)[i] in old(done)
      ensures done == Settled(old(putters), old(done))
    {
      ghost var skipped := 0;
      while putters != []
        invariant 0 <= skipped <= |old(putters)| && putters == old(putters)[skipped..] && done == old(done)
        invariant FirstLive(old(putters), done) == skipped + FirstLive(putters, done)
        decreases |putters|
      {
        var fut := putters[0];
        putters := putters[1..];
        if fut !in done {
          done := done + {fut};
          return Some(fut);
        }
        skipped := skipped + 1;
      }
      return None;
    }

    /** One turn of `put`: store and wake a getter, or join the putters. */
    method TryPut(item: T, fut: nat) returns (stored: bool)
      requires Valid()
      modifies this`items, this`getters, this`putters, this`done
      ensures Valid()
      ensures stored <==> HasRoom(maxsize, |old(items)|)
      ensures stored ==>
                && items == old(items) + [item] && putters == old(putters)
                && getters == WakeFirst(old(getters), old(done)).0 && done == Settled(old(getters), old(done))
      ensures !stored ==> items == old(items) && getters == old(getters) && putters == old(putters) + [fut] && done == old(done)
    {
      if maxsize <= 0 || |items| < maxsize {
        items := items + [item];
        var _ := WakeGetter();
        return true;
      }
      putters := putters + [fut];
      return false;
    }

    /** One turn of `get`: take the oldest item and wake a putter, or join the getters. */
    method TryGet(fut: nat) returns (item: Option<T>)
      requires Valid()
      modifies this`items, this`getters, this`putters, this`done
      ensures Valid()
      ensures item.Some? <==> old(items) != []
      ensures item.Some? ==>
                && old(items) == [item.value] + items && getters == old(getters)
                && putters == WakeFirst(old(putters), old(done)).0 && done == Settled(old(putters), old(done))
      ensures item.None? ==> items == [] && putters == old(putters) && getters == old(getters) + [fut] && done == old(done)
    {
      if items != [] {
        item := Some(items[0]);
        items := items[1..];
        var _ := WakePutter();
        return;
      }
      getters := getters + [fut];
      return None;
    }
  }
}

/** Any number of tasks put and get; woken waiters re-check and may find that somebody
    else was faster. The test `fut.done()` and the `set_result` that follows it are
    separate steps, because a cancellation does not take the queue's lock. */
module Queues {
  import opened Options
  import opened Sums
  import opened Runs
  import opened WaitQueues
  import QueueObjects

  datatype Fut = Pending | Woken | Cancelled

  /** The loop that wakes one waiter: pop the next; test it; it was not done, set its result. */
  datatype Stage = Popping | Testing(j: nat) | Granting(j: nat)

  /** `Waking` is under the lock: `put` has stored `item` and wakes a getter, or `get` has
      removed `item` and wakes a putter. */
  datatype Task =
    | Outside
    | Getting(woken: bool)             // about to take the lock; a re-check if woken
    | GetWait(fut: Fut)
    | Putting(item: nat, woken: bool)
    | PutWait(item: nat, fut: Fut)
    | Waking(getters: bool, item: nat, stage: Stage)

  /** `put` and `removed` record the items in the order they went in and came out,
      `returned` those that `get` gave its caller, `lost` those whose `get` raised after
      removing them. */
  datatype State = State(maxsize: int, items: seq<nat>, getters: seq<nat>, putters: seq<nat>, lock: Option<nat>,
                         tasks: seq<Task>, put: seq<nat>, removed: seq<nat>,
                         returned: multiset<nat>, lost: multiset<nat>)

  datatype Action =
    | StartGet(i: nat) | StartPut(i: nat, item: nat)
    | Turn(i: nat)                     // the head of the critical section of `get` or `put`
    | Proceed(i: nat)                  // the next step of its waking loop
    | Resume(i: nat)                   // a woken waiter goes round again
    | Cancel(i: nat)                   // a waiter's future is cancelled
    | Abandon(i: nat)                  // its task leaves, taking itself off the queue

  predicate Init(s: State) {
    && s.items == [] && s.getters == [] && s.putters == [] && s.lock.None? && s.put == [] && s.removed == []
    && s.returned == multiset{} && s.lost == multiset{}
    && forall i :: 0 <= i < |s.tasks| ==> s.tasks[i].Outside?
  }

  predicate Waits(x: Task, fut: Fut) { (x.GetWait? || x.PutWait?) && x.fut == fut }

  predicate Enabled(s: State, a: Action) {
    && a.i < |s.tasks|
    && match a
       case StartGet(i) => s.tasks[i].Outside?
       case StartPut(i, _) => s.tasks[i].Outside?
       case Turn(i) => (s.tasks[i].Getting? || s.tasks[i].Putting?) && s.lock.None?
       case Proceed(i) => s.tasks[i].Waking? && s.lock == Some(i)
       case Resume(i) => Waits(s.tasks[i], Woken)
       case Cancel(i) => Waits(s.tasks[i], Pending)
       case Abandon(i) => (s.tasks[i].GetWait? || s.tasks[i].PutWait?) && s.lock.None?
  }

  function Set(s: State, i: nat, x: Task): State
    requires i < |s.tasks|
  {
    s.(tasks := s.tasks[i := x])
  }

  /** The getters' queue, or the putters'. */
  function Queue(s: State, g: bool): seq<nat> { if g then s.getters else s.putters }

  function SetQueue(s: State, g: bool, q: seq<nat>): State {
    if g then s.(getters := q) else s.(putters := q)
  }

  predicate IsPending(tasks: seq<Task>, j: nat) { j < |tasks| && Waits(tasks[j], Pending) }

  function GetTurn(s: State, i: nat): State
    requires i < |s.tasks| && s.tasks[i].Getting?
  {
    if s.items == [] then Set(s, i, GetWait(Pending)).(getters := s.getters + [i])
    else
      Set(s, i, Waking(false, s.items[0], Popping))
      .(items := s.items[1..], removed := s.removed + [s.items[0]], lock := Some(i))
  }

  function PutTurn(s: State, i: nat): State
    requires i < |s.tasks| && s.tasks[i].Putting?
  {
    var item := s.tasks[i].item;
    if !QueueObjects.HasRoom(s.maxsize, |s.items|) then
      Set(s, i, PutWait(item, Pending)).(putters := s.putters + [i])
    else
      Set(s, i, Waking(true, item, Popping)).(items := s.items + [item], put := s.put + [item], lock := Some(i))
  }

  /** The end of the critical section: `get` returns its item. */
  function Leave(s: State, i: nat): State
    requires i < |s.tasks| && s.tasks[i].Waking?
  {
    var x := s.tasks[i];
    Set(s, i, Outside).(lock := None, returned := if x.getters then s.returned else s.returned + multiset{x.item})
  }

  /** `set_result` raises: `put` fails with its item stored, `get` with its item removed. */
  function Raise(s: State, i: nat): State
    requires i < |s.tasks| && s.tasks[i].Waking?
  {
    var x := s.tasks[i];
    Set(s, i, Outside).(lock := None, lost := if x.getters then s.lost else s.lost + multiset{x.item})
  }

  function WakeStep(s: State, i: nat): State
    requires Enabled(s, Proceed(i))
  {
    var x := s.tasks[i];
    var q := Queue(s, x.getters);
    match x.stage
    case Popping =>
      if q == [] then Leave(s, i)
      else SetQueue(Set(s, i, Waking(x.getters, x.item, Testing(q[0]))), x.getters, q[1..])
    case Testing(j) => Set(s, i, Waking(x.getters, x.item, if IsPending(s.tasks, j) then Granting(j) else Popping))
    case Granting(j) =>
      if IsPending(s.tasks, j) then Set(Leave(s, i), j, s.tasks[j].(fut := Woken)) else Raise(s, i)
  }

  function Step(s: State, a: Action): State
    requires Enabled(s, a)
  {
    match a
    case StartGet(i) => Set(s, i, Getting(false))
    case StartPut(i, item) => Set(s, i, Putting(item, false))
    case Turn(i) => if s.tasks[i].Getting? then GetTurn(s, i) else PutTurn(s, i)
    case Proceed(i) => WakeStep(s, i)
    case Resume(i) => Set(s, i, if s.tasks[i].GetWait? then Getting(true) else Putting(s.tasks[i].item, true))
    case Cancel(i) => Set(s, i, s.tasks[i].(fut := Cancelled))
    case Abandon(i) =>
      Set(s, i, Outside).(getters := if i in s.getters then Remove(s.getters, i) else s.getters,
                          putters := if i in s.putters then Remove(s.putters, i) else s.putters)
  }

  ghost predicate Next(s: State, t: State) {
    exists a :: Enabled(s, a) && t == Step(s, a)
  }

  // ----- nothing reordered, never too full, every item accounted for -----

  /** Exactly the task inside the critical section has the lock. */
  predicate LockOk(s: State) {
    && (forall i :: 0 <= i < |s.tasks| && s.tasks[i].Waking? ==> s.lock == Some(i))
    && (s.lock.Some? ==> s.lock.value < |s.tasks| && s.tasks[s.lock.value].Waking?)
  }

  /** The item a `get` has removed and not returned yet. */
  function InHand(s: State): multiset<nat> {
    if s.lock.Some? && s.lock.value < |s.tasks| && s.tasks[s.lock.value].Waking? && !s.tasks[s.lock.value].getters
    then multiset{s.tasks[s.lock.value].item} else multiset{}
  }

  predicate Stored(s: State) {
    && LockOk(s)
    && s.removed + s.items == s.put
    && (s.maxsize > 0 ==> |s.items| <= s.maxsize)
    && multiset(s.removed) == s.returned + s.lost + InHand(s)
  }

  lemma StoredTurn(s: State, i: nat)
    requires Stored(s) && Enabled(s, Turn(i))
    ensures Stored(Step(s, Turn(i)))
  {
    if s.tasks[i].Getting? { StoredGet(s, i); } else { StoredPut(s, i); }
  }

  lemma StoredGet(s: State, i: nat)
    requires Stored(s) && s.lock.None? && i < |s.tasks| && s.tasks[i].Getting?
    ensures Stored(GetTurn(s, i))
  {
    if s.items != [] {
      assert s.removed + [s.items[0]] + s.items[1..] == s.removed + s.items;
    }
  }

  lemma StoredPut(s: State, i: nat)
    requires Stored(s) && s.lock.None? && i < |s.tasks| && s.tasks[i].Putting?
    ensures Stored(PutTurn(s, i))
  {
    var x := s.tasks[i].item;
    assert s.removed + (s.items + [x]) == (s.removed + s.items) + [x];
  }

  /** What a step of the waking loop does: the section goes on, or it is over. */
  lemma WakeFrame(s: State, i: nat)
    requires Enabled(s, Proceed(i))
    ensures var s', x := WakeStep(s, i), s.tasks[i];
            && |s'.tasks| == |s.tasks|
            && s'.maxsize == s.maxsize && s'.items == s.items && s'.put == s.put && s'.removed == s.removed
            && (forall k :: 0 <= k < |s.tasks| && k != i ==> s'.tasks[k].Waking? == s.tasks[k].Waking?)
            && (if s'.lock.Some? then
                  && s'.lock == Some(i) && s'.tasks[i].Waking? && s'.tasks[i].getters == x.getters
                  && s'.tasks[i].item == x.item && s'.returned == s.returned && s'.lost == s.lost
                else
                  && !s'.tasks[i].Waking?
                  && s'.returned + s'.lost == s.returned + s.lost + if x.getters then multiset{} else multiset{x.item})
  {
    if s.tasks[i].stage.Granting? && IsPending(s.tasks, s.tasks[i].stage.j) { GrantFrame(s, i); }
  }

  lemma GrantFrame(s: State, i: nat)
    requires Enabled(s, Proceed(i)) && s.tasks[i].stage.Granting? && IsPending(s.tasks, s.tasks[i].stage.j)
    ensures var s' := WakeStep(s, i);
            && |s'.tasks| == |s.tasks| && s'.tasks[i].Outside?
            && (forall k :: 0 <= k < |s.tasks| && k != i ==> s'.tasks[k].Waking? == s.tasks[k].Waking?)
  {
  }

  lemma StoredWake(s: State, i: nat)
    requires Stored(s) && Enabled(s, Proceed(i))
    ensures Stored(WakeStep(s, i))
  {
    WakeFrame(s, i);
  }

  lemma StoredElsewhere(s: State, a: Action)
    requires Stored(s) && Enabled(s, a) && !a.Turn? && !a.Proceed?
    ensures Stored(Step(s, a))
  {
    ElsewhereFrame(s, a);
    SameBooks(s, Step(s, a), a.i);
  }

  /** The books do not change. */
  predicate SameItems(s: State, s': State) {
    && s'.maxsize == s.maxsize && s'.items == s.items && s'.lock == s.lock && s'.put == s.put && s'.removed == s.removed
    && s'.returned == s.returned && s'.lost == s.lost
  }

  lemma ElsewhereFrame(s: State, a: Action)
    requires Enabled(s, a) && !a.Turn? && !a.Proceed?
    ensures SameItems(s, Step(s, a)) && !s.tasks[a.i].Waking?
    ensures |Step(s, a).tasks| == |s.tasks| && !Step(s, a).tasks[a.i].Waking?
    ensures Step(s, a).tasks == s.tasks[a.i := Step(s, a).tasks[a.i]]
  {
  }

  lemma SameBooks(s: State, s': State, i: nat)
    requires Stored(s) && SameItems(s, s') && i < |s.tasks| == |s'.tasks|
    requires !s.tasks[i].Waking? && !s'.tasks[i].Waking? && s'.tasks == s.tasks[i := s'.tasks[i]]
    ensures Stored(s')
  {
    assert InHand(s') == InHand(s);
  }

  lemma StoredStep(s: State, a: Action)
    requires Stored(s) && Enabled(s, a)
    ensures Stored(Step(s, a))
  {
    if a.Turn? {
      StoredTurn(s, a.i);
    } else if a.Proceed? {
      StoredWake(s, a.i);
    } else {
      StoredElsewhere(s, a);
    }
  }

  /** In every run, cancellations included: what came out followed by what is stored is
      what went in, in order; a bounded queue never exceeds its bound; and what came out
      was returned once each, is in a getter's hand, or is lost. */
  lemma FifoWithinCapacity(run: seq<State>, k: nat)
    requires IsRun(Init, Next, run) && k < |run|
    ensures run[k].removed + run[k].items == run[k].put
    ensures run[k].maxsize > 0 ==> |run[k].items| <= run[k].maxsize
    ensures multiset(run[k].removed) == run[k].returned + run[k].lost + InHand(run[k])
  {
    forall s, t | Stored(s) && Next(s, t) ensures Stored(t) {
      var a :| Enabled(s, a) && t == Step(s, a);
      StoredStep(s, a);
    }
    Always(Init, Next, Stored, run, k);
  }

  // ----- the wait queues -----

  predicate WaitsIn(x: Task, g: bool) { if g then x.GetWait? else x.PutWait? }

  predicate PendingIn(x: Task, g: bool) { WaitsIn(x, g) && x.fut.Pending? }

  /** Waiting, and nobody has woken it. */
  predicate Asleep(x: Task, g: bool) { WaitsIn(x, g) && !x.fut.Woken? }

  ghost predicate SomePending(s: State, g: bool) {
    exists i :: 0 <= i < |s.tasks| && PendingIn(s.tasks[i], g)
  }

  /** A waking task has popped `j`. */
  predicate Pops(x: Task, g: bool, j: nat) {
    x.Waking? && x.getters == g && (x.stage == Testing(j) || x.stage == Granting(j))
  }

  predicate Held(s: State, g: bool, j: nat) {
    s.lock.Some? && s.lock.value < |s.tasks| && Pops(s.tasks[s.lock.value], g, j)
  }

  /** A queue holds tasks waiting in it that nobody has woken, each once; what has been
      popped is one more such task; and every pending waiter is queued or popped. */
  ghost predicate QueueOk(s: State, g: bool) {
    var q := Queue(s, g);
    && (forall k :: 0 <= k < |q| ==> q[k] < |s.tasks| && Asleep(s.tasks[q[k]], g))
    && Distinct(q)
    && (forall j: nat :: Held(s, g, j) ==> j < |s.tasks| && Asleep(s.tasks[j], g) && j !in q)
    && (forall i :: 0 <= i < |s.tasks| && PendingIn(s.tasks[i], g) ==> i in q || Held(s, g, i))
  }

  /** One task changes outside the lock: a sleeper stays one, and no new one appears. */
  lemma TaskFrame(s: State, i: nat, x: Task, g: bool)
    requires QueueOk(s, g) && i < |s.tasks| && !s.tasks[i].Waking? && !x.Waking?
    requires Asleep(s.tasks[i], g) ==> Asleep(x, g)
    requires PendingIn(x, g) ==> PendingIn(s.tasks[i], g)
    ensures QueueOk(Set(s, i, x), g)
    ensures SomePending(Set(s, i, x), g) ==> SomePending(s, g)
  {
    var s' := Set(s, i, x);
    assert forall j :: Held(s', g, j) == Held(s, g, j);
    if k :| 0 <= k < |s'.tasks| && PendingIn(s'.tasks[k], g) { assert PendingIn(s.tasks[k], g); }
  }

  /** Taking the lock, with the queues untouched. */
  lemma QueueLock(s: State, i: nat, x: Task, s': State, g: bool)
    requires QueueOk(s, g) && s.lock.None? && i < |s.tasks| && !s.tasks[i].GetWait? && !s.tasks[i].PutWait?
    requires x.Waking? && x.stage.Popping?
    requires s'.tasks == s.tasks[i := x] && s'.getters == s.getters && s'.putters == s.putters && s'.lock == Some(i)
    ensures QueueOk(s', g)
    ensures SomePending(s', g) ==> SomePending(s, g)
  {
    if k :| 0 <= k < |s'.tasks| && PendingIn(s'.tasks[k], g) { assert PendingIn(s.tasks[k], g); }
  }

  /** Joining a queue. */
  lemma QueueJoin(s: State, i: nat, x: Task, g: bool, h: bool)
    requires QueueOk(s, h) && s.lock.None? && i < |s.tasks| && !s.tasks[i].GetWait? && !s.tasks[i].PutWait? && PendingIn(x, g)
    ensures QueueOk(SetQueue(Set(s, i, x), g, Queue(s, g) + [i]), h)
    ensures g != h && SomePending(SetQueue(Set(s, i, x), g, Queue(s, g) + [i]), h) ==> SomePending(s, h)
  {
    var s' := SetQueue(Set(s, i, x), g, Queue(s, g) + [i]);
    if g == h {
      assert Queue(s', h)[|Queue(s, h)|] == i;
    } else {
      assert Queue(s', h) == Queue(s, h);
      if k :| 0 <= k < |s'.tasks| && PendingIn(s'.tasks[k], h) { assert PendingIn(s.tasks[k], h); }
    }
  }

  lemma QueueTurn(s: State, i: nat, g: bool)
    requires QueueOk(s, g) && Enabled(s, Turn(i))
    ensures QueueOk(Step(s, Turn(i)), g)
    ensures Step(s, Turn(i)).lock.Some? ==> (SomePending(Step(s, Turn(i)), g) ==> SomePending(s, g))
    ensures g != s.tasks[i].Getting? ==> (SomePending(Step(s, Turn(i)), g) ==> SomePending(s, g))
  {
    var s' := Step(s, Turn(i));
    if s'.lock.Some? {
      QueueLock(s, i, s'.tasks[i], s', g);
    } else {
      QueueJoin(s, i, s'.tasks[i], s.tasks[i].Getting?, g);
    }
  }

  lemma QueuePop(s: State, i: nat, g: bool)
    requires QueueOk(s, g) && Enabled(s, Proceed(i)) && s.tasks[i].stage.Popping?
    ensures QueueOk(WakeStep(s, i), g)
  {
    if s.tasks[i].getters != g {
      QueueBystander(s, WakeStep(s, i), i, g);
    } else if Queue(s, g) == [] {
      assert forall k :: 0 <= k < |s.tasks| ==> !PendingIn(s.tasks[k], g);
    } else {
      QueuePopOwn(s, i, g);
    }
  }

  /** Waking in the other queue, the critical section does not touch this one. */
  lemma QueueBystander(s: State, s': State, i: nat, g: bool)
    requires QueueOk(s, g) && i < |s.tasks| && s.lock == Some(i) && s.tasks[i].Waking? && s.tasks[i].getters != g
    requires |s'.tasks| == |s.tasks| && Queue(s', g) == Queue(s, g)
    requires forall k :: 0 <= k < |s.tasks| && (WaitsIn(s.tasks[k], g) || WaitsIn(s'.tasks[k], g)) ==> s'.tasks[k] == s.tasks[k]
    requires s'.lock.None? || (s'.lock == Some(i) && s'.tasks[i].Waking? && s'.tasks[i].getters != g)
    ensures QueueOk(s', g)
  {
    assert forall j: nat :: !Held(s', g, j) && !Held(s, g, j);
  }

  lemma QueuePopOwn(s: State, i: nat, g: bool)
    requires QueueOk(s, g) && Enabled(s, Proceed(i)) && s.tasks[i].stage.Popping?
    requires s.tasks[i].getters == g && Queue(s, g) != []
    ensures QueueOk(WakeStep(s, i), g)
  {
    var s' := WakeStep(s, i);
    var q := Queue(s, g);
    DistinctDrop(q, 1);
    assert Queue(s', g) == q[1..];
    assert forall k :: 0 <= k < |q| - 1 ==> q[1..][k] == q[k + 1];
    assert Held(s', g, q[0]) && forall j: nat :: Held(s', g, j) ==> j == q[0];
    forall k | 0 <= k < |s'.tasks| && PendingIn(s'.tasks[k], g) ensures k in q[1..] || Held(s', g, k) {
      assert PendingIn(s.tasks[k], g) && k in q;
    }
  }

  lemma QueueTest(s: State, i: nat, g: bool)
    requires QueueOk(s, g) && Enabled(s, Proceed(i)) && s.tasks[i].stage.Testing?
    ensures QueueOk(WakeStep(s, i), g)
  {
    var s' := WakeStep(s, i);
    var j := s.tasks[i].stage.j;
    assert Queue(s', g) == Queue(s, g);
    assert forall k :: Held(s', g, k) ==> Held(s, g, k);
    forall k | 0 <= k < |s'.tasks| && PendingIn(s'.tasks[k], g)
      ensures k in Queue(s', g) || Held(s', g, k)
    {
      assert PendingIn(s.tasks[k], g);
      if Held(s, g, k) { assert k == j && IsPending(s.tasks, j); }
    }
  }

  lemma QueueGrant(s: State, i: nat, g: bool)
    requires QueueOk(s, g) && QueueOk(s, !g) && Enabled(s, Proceed(i)) && s.tasks[i].stage.Granting?
    ensures QueueOk(WakeStep(s, i), g)
  {
    assert Held(s, s.tasks[i].getters, s.tasks[i].stage.j);
    if s.tasks[i].getters == g {
      QueueGrantOwn(s, i, g);
    } else {
      QueueBystander(s, WakeStep(s, i), i, g);
    }
  }

  lemma QueueGrantOwn(s: State, i: nat, g: bool)
    requires QueueOk(s, g) && Enabled(s, Proceed(i)) && s.tasks[i].stage.Granting? && s.tasks[i].getters == g
    ensures QueueOk(WakeStep(s, i), g)
  {
    var s', j := WakeStep(s, i), s.tasks[i].stage.j;
    assert Held(s, g, j) && forall k: nat :: Held(s, g, k) ==> k == j;
    GrantedQueue(s, s', i, j, g);
  }

  lemma GrantedQueue(s: State, s': State, i: nat, j: nat, g: bool)
    requires QueueOk(s, g) && i < |s.tasks| == |s'.tasks| && s.tasks[i].Waking?
    requires Held(s, g, j) && forall k: nat :: Held(s, g, k) ==> k == j
    requires Queue(s', g) == Queue(s, g) && s'.lock.None? && s'.tasks[i].Outside? && !PendingIn(s'.tasks[j], g)
    requires forall k :: 0 <= k < |s.tasks| && k != i && k != j ==> s'.tasks[k] == s.tasks[k]
    ensures QueueOk(s', g)
  {
  }

  lemma QueueAbandon(s: State, i: nat, g: bool)
    requires QueueOk(s, g) && Enabled(s, Abandon(i))
    ensures QueueOk(Step(s, Abandon(i)), g)
    ensures SomePending(Step(s, Abandon(i)), g) ==> SomePending(s, g)
  {
    var s' := Step(s, Abandon(i));
    AbandonedQueue(s, i, g);
    if k :| 0 <= k < |s'.tasks| && PendingIn(s'.tasks[k], g) { assert PendingIn(s.tasks[k], g); }
  }

  lemma AbandonedQueue(s: State, i: nat, g: bool)
    requires QueueOk(s, g) && Enabled(s, Abandon(i))
    ensures QueueOk(Step(s, Abandon(i)), g)
  {
    var s' := Step(s, Abandon(i));
    var q := Queue(s, g);
    assert Queue(s', g) == if i in q then Remove(q, i) else q;
    RemoveShrinks(q, i);
    LeftQueue(s, s', i, g);
  }

  lemma LeftQueue(s: State, s': State, i: nat, g: bool)
    requires QueueOk(s, g) && s.lock.None? && s'.lock.None? && i < |s.tasks| && s'.tasks == s.tasks[i := Outside]
    requires Distinct(Queue(s', g)) && forall y :: y in Queue(s', g) <==> y in Queue(s, g) && y != i
    ensures QueueOk(s', g)
  {
    var q, q' := Queue(s, g), Queue(s', g);
    forall k | 0 <= k < |q'| ensures q'[k] in q && q'[k] != i { assert q'[k] in q'; }
  }

  ghost predicate QueuesInv(s: State) { Stored(s) && QueueOk(s, true) && QueueOk(s, false) }

  lemma QueueWake(s: State, i: nat, g: bool)
    requires QueuesInv(s) && Enabled(s, Proceed(i))
    ensures QueueOk(WakeStep(s, i), g)
  {
    assert QueueOk(s, g) && QueueOk(s, !g);
    if s.tasks[i].stage.Popping? {
      QueuePop(s, i, g);
    } else if s.tasks[i].stage.Testing? {
      QueueTest(s, i, g);
    } else {
      QueueGrant(s, i, g);
    }
  }

  lemma QueueStep(s: State, a: Action, g: bool)
    requires QueuesInv(s) && Enabled(s, a)
    ensures QueueOk(Step(s, a), g)
  {
    assert QueueOk(s, g);
    if a.Proceed? {
      QueueWake(s, a.i, g);
    } else if a.Turn? {
      QueueTurn(s, a.i, g);
    } else if a.Abandon? {
      QueueAbandon(s, a.i, g);
    } else {
      TaskFrame(s, a.i, Step(s, a).tasks[a.i], g);
    }
  }

  lemma QueuesStep(s: State, a: Action)
    requires QueuesInv(s) && Enabled(s, a)
    ensures QueuesInv(Step(s, a))
  {
    StoredStep(s, a);
    QueueStep(s, a, true);
    QueueStep(s, a, false);
  }

  lemma QueuesRun(run: seq<State>, k: nat)
    requires IsRun(Init, Next, run) && k < |run|
    ensures QueuesInv(run[k])
  {
    forall s, t | QueuesInv(s) && Next(s, t) ensures QueuesInv(t) {
      var a :| Enabled(s, a) && t == Step(s, a);
      QueuesStep(s, a);
    }
    Always(Init, Next, QueuesInv, run, k);
  }

  // ----- exactly when an item is lost -----

  /** The waking task has tested `j`'s future and not yet set its result. */
  predicate Exposed(s: State, j: nat) {
    s.lock.Some? && s.lock.value < |s.tasks| && s.tasks[s.lock.value].Waking?
    && s.tasks[s.lock.value].stage == Granting(j)
  }

  /** A cancellation that strikes between test and grant. */
  predicate Strikes(s: State, a: Action) { a.Cancel? && Exposed(s, a.i) }

  ghost predicate CarefulNext(s: State, t: State) {
    exists a :: Enabled(s, a) && t == Step(s, a) && !Strikes(s, a)
  }

  ghost predicate CarefulInv(s: State) {
    && QueuesInv(s) && s.lost == multiset{}
    && forall j :: Exposed(s, j) ==> IsPending(s.tasks, j)
  }

  lemma CarefulStep(s: State, a: Action)
    requires CarefulInv(s) && Enabled(s, a) && !Strikes(s, a)
    ensures CarefulInv(Step(s, a))
  {
    QueuesStep(s, a);
    var s' := Step(s, a);
    forall j | Exposed(s', j) ensures IsPending(s'.tasks, j) { StaysExposed(s, a, j); }
    if a.Proceed? && s.tasks[a.i].stage.Granting? { assert Exposed(s, s.tasks[a.i].stage.j); }
  }

  lemma StaysExposed(s: State, a: Action, j: nat)
    requires CarefulInv(s) && Enabled(s, a) && !Strikes(s, a) && Exposed(Step(s, a), j)
    ensures IsPending(Step(s, a).tasks, j)
  {
    if a.Proceed? { ExposedByTest(s, a.i, j); } else { ExposedStill(s, a, j); }
  }

  lemma ExposedByTest(s: State, i: nat, j: nat)
    requires LockOk(s) && Enabled(s, Proceed(i)) && Exposed(WakeStep(s, i), j)
    ensures IsPending(WakeStep(s, i).tasks, j)
  {
    WakeFrame(s, i);
    assert s.tasks[i].stage == Testing(j) && IsPending(s.tasks, j);
  }

  lemma ExposedStill(s: State, a: Action, j: nat)
    requires CarefulInv(s) && Enabled(s, a) && !Strikes(s, a) && !a.Proceed? && Exposed(Step(s, a), j)
    ensures IsPending(Step(s, a).tasks, j)
  {
    assert s.lock.Some? && Exposed(s, j);
    assert a.i != j;
  }

  /** If no waiter is cancelled between its test and its grant, every item removed from
      the queue is returned, or about to be. */
  lemma CarefulRunsLoseNothing(run: seq<State>, k: nat)
    requires IsRun(Init, CarefulNext, run) && k < |run|
    ensures multiset(run[k].removed) == run[k].returned + InHand(run[k])
  {
    forall s, t | CarefulInv(s) && CarefulNext(s, t) ensures CarefulInv(t) {
      var a :| Enabled(s, a) && t == Step(s, a) && !Strikes(s, a);
      CarefulStep(s, a);
    }
    Always(Init, CarefulNext, CarefulInv, run, k);
  }

  /** And such a cancellation always costs the item: in every run a `get` past its test
      goes on, and loses its item exactly if that putter is cancelled by now. */
  lemma GetLosesExactlyIfCancelled(run: seq<State>, k: nat, i: nat)
    requires IsRun(Init, Next, run) && k < |run| && i < |run[k].tasks|
    requires run[k].tasks[i].Waking? && !run[k].tasks[i].getters && run[k].tasks[i].stage.Granting?
    ensures Enabled(run[k], Proceed(i)) && run[k].tasks[i].stage.j < |run[k].tasks|
    ensures var s, x := run[k], run[k].tasks[i];
            var s' := Step(s, Proceed(i));
            && (s'.lost == s.lost + multiset{x.item} <==> Waits(s.tasks[x.stage.j], Cancelled))
            && (s'.returned == s.returned + multiset{x.item} <==> Waits(s.tasks[x.stage.j], Pending))
  {
    QueuesRun(run, k);
    var s, x := run[k], run[k].tasks[i];
    assert Held(s, false, x.stage.j) && Asleep(s.tasks[x.stage.j], false);
    assert |s.lost + multiset{x.item}| == |s.lost| + 1 && |s.returned + multiset{x.item}| == |s.returned| + 1;
  }

  // ----- nobody sleeps beside work, unless a woken waiter is cancelled -----

  /** Woken and not yet back at the queue, or about to wake somebody. */
  function Promise(x: Task, g: bool): int {
    Bit((WaitsIn(x, g) && x.fut.Woken?) || (if g then x.Getting? && x.woken else x.Putting? && x.woken)
        || (x.Waking? && x.getters == g))
  }

  ghost function Weigh(g: bool): Task -> int { (x: Task) => Promise(x, g) }

  /** Items to get, or slots to put into. */
  function Available(s: State, g: bool): int { if g then |s.items| else s.maxsize - |s.items| }

  /** A pending getter means that every stored item is spoken for by a woken getter on its
      way back, or a wake about to happen; a pending putter means the same of every free slot. */
  ghost predicate NoIdleSleep(s: State, g: bool) {
    SomePending(s, g) ==> (g || s.maxsize > 0) && Available(s, g) <= Sum(Weigh(g), s.tasks)
  }

  /** A waiter that has been woken leaves without going back to the queue. */
  predicate Forsakes(s: State, a: Action)
    requires Enabled(s, a)
  {
    a.Abandon? && Waits(s.tasks[a.i], Woken)
  }

  ghost predicate FaithfulNext(s: State, t: State) {
    exists a :: Enabled(s, a) && t == Step(s, a) && !Strikes(s, a) && !Forsakes(s, a)
  }

  ghost predicate FaithfulInv(s: State) { CarefulInv(s) && NoIdleSleep(s, true) && NoIdleSleep(s, false) }

  lemma Moves(tasks: seq<Task>, i: nat, x: Task, g: bool)
    requires i < |tasks|
    ensures Sum(Weigh(g), tasks[i := x]) == Sum(Weigh(g), tasks) - Promise(tasks[i], g) + Promise(x, g)
    ensures Sum(Weigh(g), tasks) >= 0
  {
    Update(Weigh(g), tasks, i, x);
    AtLeastEach(Weigh(g), tasks, 0);
  }

  lemma SleepTurn(s: State, i: nat, g: bool)
    requires QueueOk(s, g) && NoIdleSleep(s, g) && Enabled(s, Turn(i))
    ensures NoIdleSleep(Step(s, Turn(i)), g)
  {
    var s' := Step(s, Turn(i));
    QueueTurn(s, i, g);
    TurnBalance(s, i, g);
    Moves(s.tasks, i, s'.tasks[i], g);
    Moves(s'.tasks, i, s'.tasks[i], g);
  }

  /** A turn that stores or removes takes or makes no more than it promises; one that joins
      a queue found nothing available. */
  lemma TurnBalance(s: State, i: nat, g: bool)
    requires Enabled(s, Turn(i))
    ensures var s' := Step(s, Turn(i));
            && |s'.tasks| == |s.tasks| && s'.tasks == s.tasks[i := s'.tasks[i]] && s'.maxsize == s.maxsize
            && (if s'.lock.None? && g == s.tasks[i].Getting? then Available(s', g) <= 0 && (g || s.maxsize > 0)
                else Available(s', g) - Available(s, g) <= Promise(s'.tasks[i], g) - Promise(s.tasks[i], g))
  {
  }

  lemma SleepPop(s: State, i: nat, g: bool)
    requires LockOk(s) && QueueOk(s, g) && NoIdleSleep(s, g) && Enabled(s, Proceed(i)) && s.tasks[i].stage.Popping?
    ensures NoIdleSleep(WakeStep(s, i), g)
  {
    var s' := WakeStep(s, i);
    Moves(s.tasks, i, s'.tasks[i], g);
    if k :| 0 <= k < |s'.tasks| && PendingIn(s'.tasks[k], g) {
      assert PendingIn(s.tasks[k], g);
      assert k in Queue(s, g);
    }
  }

  lemma SleepTest(s: State, i: nat, g: bool)
    requires NoIdleSleep(s, g) && Enabled(s, Proceed(i)) && s.tasks[i].stage.Testing?
    ensures NoIdleSleep(WakeStep(s, i), g)
  {
    var s' := WakeStep(s, i);
    Moves(s.tasks, i, s'.tasks[i], g);
    if k :| 0 <= k < |s'.tasks| && PendingIn(s'.tasks[k], g) { assert PendingIn(s.tasks[k], g); }
  }

  /** The promise passes from the waking task to the one it wakes. */
  lemma SleepGrant(s: State, i: nat, g: bool)
    requires FaithfulInv(s) && Enabled(s, Proceed(i)) && s.tasks[i].stage.Granting?
    ensures NoIdleSleep(WakeStep(s, i), g)
  {
    var x := s.tasks[i];
    assert Exposed(s, x.stage.j) && Held(s, x.getters, x.stage.j);
    assert NoIdleSleep(s, g) && QueueOk(s, x.getters);
    SleepGrantTo(s, i, x.stage.j, g);
  }

  lemma SleepGrantTo(s: State, i: nat, j: nat, g: bool)
    requires Enabled(s, Proceed(i)) && s.tasks[i].stage == Granting(j) && NoIdleSleep(s, g)
    requires j < |s.tasks| && PendingIn(s.tasks[j], s.tasks[i].getters)
    ensures NoIdleSleep(WakeStep(s, i), g)
  {
    var s' := WakeStep(s, i);
    var y := s.tasks[j].(fut := Woken);
    assert s'.tasks == s.tasks[i := Outside][j := y];
    Moves(s.tasks, i, Outside, g);
    Moves(s.tasks[i := Outside], j, y, g);
    GrantPending(s, i, j, g);
  }

  lemma GrantPending(s: State, i: nat, j: nat, g: bool)
    requires Enabled(s, Proceed(i)) && s.tasks[i].stage == Granting(j) && IsPending(s.tasks, j)
    ensures SomePending(WakeStep(s, i), g) ==> SomePending(s, g)
  {
    var s' := WakeStep(s, i);
    if k :| 0 <= k < |s'.tasks| && PendingIn(s'.tasks[k], g) { assert PendingIn(s.tasks[k], g); }
  }

  lemma SleepElsewhere(s: State, a: Action, g: bool)
    requires QueueOk(s, g) && NoIdleSleep(s, g) && Enabled(s, a) && !a.Turn? && !a.Proceed? && !Forsakes(s, a)
    ensures NoIdleSleep(Step(s, a), g)
  {
    Moves(s.tasks, a.i, Step(s, a).tasks[a.i], g);
    if a.Abandon? { QueueAbandon(s, a.i, g); } else { TaskFrame(s, a.i, Step(s, a).tasks[a.i], g); }
  }

  lemma SleepStep(s: State, a: Action, g: bool)
    requires FaithfulInv(s) && Enabled(s, a) && !Strikes(s, a) && !Forsakes(s, a)
    ensures NoIdleSleep(Step(s, a), g)
  {
    assert NoIdleSleep(s, g) && QueueOk(s, g);
    if a.Turn? {
      SleepTurn(s, a.i, g);
    } else if !a.Proceed? {
      SleepElsewhere(s, a, g);
    } else if s.tasks[a.i].stage.Popping? {
      SleepPop(s, a.i, g);
    } else if s.tasks[a.i].stage.Testing? {
      SleepTest(s, a.i, g);
    } else {
      SleepGrant(s, a.i, g);
    }
  }

  lemma FaithfulRun(run: seq<State>, k: nat)
    requires IsRun(Init, FaithfulNext, run) && k < |run|
    ensures FaithfulInv(run[k])
  {
    forall s, t | FaithfulInv(s) && FaithfulNext(s, t) ensures FaithfulInv(t) {
      var a :| Enabled(s, a) && t == Step(s, a) && !Strikes(s, a) && !Forsakes(s, a);
      CarefulStep(s, a);
      SleepStep(s, a, true);
      SleepStep(s, a, false);
    }
    Always(Init, FaithfulNext, FaithfulInv, run, k);
  }

  /** In every run in which no waiter is cancelled after it was woken or while it is being
      woken, whatever else is cancelled: nobody sleeps beside available work. */
  lemma NobodySleepsBesideWork(run: seq<State>, k: nat, g: bool)
    requires IsRun(Init, FaithfulNext, run) && k < |run|
    ensures SomePending(run[k], g) ==>
              (g || run[k].maxsize > 0) && Available(run[k], g) <= Sum(Weigh(g), run[k].tasks)
  {
    FaithfulRun(run, k);
    assert NoIdleSleep(run[k], g);
  }

  /** Exactly when a woken waiter may leave after all: if no other one is pending, or the
      promises outnumber what is available. */
  lemma ForsakingExact(run: seq<State>, k: nat, i: nat, g: bool)
    requires IsRun(Init, FaithfulNext, run) && k < |run| && run[k].lock.None?
    requires i < |run[k].tasks| && WaitsIn(run[k].tasks[i], g) && run[k].tasks[i].fut.Woken?
    ensures var s := run[k];
            NoIdleSleep(Step(s, Abandon(i)), g) <==> (SomePending(s, g) ==> Available(s, g) < Sum(Weigh(g), s.tasks))
  {
    FaithfulRun(run, k);
    assert NoIdleSleep(run[k], g) && QueueOk(run[k], g);
    ForsakenAbandon(run[k], i, g);
  }

  lemma ForsakenAbandon(s: State, i: nat, g: bool)
    requires NoIdleSleep(s, g) && QueueOk(s, g) && Enabled(s, Abandon(i))
    requires WaitsIn(s.tasks[i], g) && s.tasks[i].fut.Woken?
    ensures NoIdleSleep(Step(s, Abandon(i)), g) <==> (SomePending(s, g) ==> Available(s, g) < Sum(Weigh(g), s.tasks))
  {
    var s' := Step(s, Abandon(i));
    QueueAbandon(s, i, g);
    Moves(s.tasks, i, Outside, g);
    if j :| 0 <= j < |s.tasks| && PendingIn(s.tasks[j], g) { assert PendingIn(s'.tasks[j], g); }
  }

  lemma StrikeExposes(s: State, i: nat)
    requires FaithfulInv(s) && i < |s.tasks| && s.tasks[i].Waking? && s.tasks[i].stage.Granting?
    ensures var j := s.tasks[i].stage.j;
            && Enabled(s, Cancel(j)) && PendingIn(s.tasks[j], s.tasks[i].getters) && s.lock == Some(i) && j != i
  {
    var j := s.tasks[i].stage.j;
    assert s.lock == Some(i) && Exposed(s, j) && Held(s, s.tasks[i].getters, j);
    assert QueueOk(s, s.tasks[i].getters);
  }

  /** And exactly when a cancellation between test and grant leaves somebody asleep beside
      work: when somebody else is pending, and the promises, the broken one among them, no
      more than cover what is available. */
  lemma StrikingExact(run: seq<State>, k: nat, i: nat)
    requires IsRun(Init, FaithfulNext, run) && k < |run|
    requires i < |run[k].tasks| && run[k].tasks[i].Waking? && run[k].tasks[i].stage.Granting?
    ensures Enabled(run[k], Cancel(run[k].tasks[i].stage.j))
    ensures var g, s := run[k].tasks[i].getters, Step(run[k], Cancel(run[k].tasks[i].stage.j));
            && Enabled(s, Proceed(i))
            && (NoIdleSleep(Step(s, Proceed(i)), g) <==> (SomePending(s, g) ==> Available(s, g) < Sum(Weigh(g), s.tasks)))
  {
    FaithfulRun(run, k);
    StrikeExposes(run[k], i);
    var g, j := run[k].tasks[i].getters, run[k].tasks[i].stage.j;
    var s := Step(run[k], Cancel(j));
    assert NoIdleSleep(run[k], g);
    if m :| 0 <= m < |s.tasks| && PendingIn(s.tasks[m], g) { assert PendingIn(run[k].tasks[m], g); }
    StruckGrant(s, i, g);
  }

  lemma StruckGrant(s: State, i: nat, g: bool)
    requires Enabled(s, Proceed(i)) && s.tasks[i].stage.Granting? && s.tasks[i].getters == g
    requires !IsPending(s.tasks, s.tasks[i].stage.j) && (SomePending(s, g) ==> g || s.maxsize > 0)
    ensures NoIdleSleep(Step(s, Proceed(i)), g) <==> (SomePending(s, g) ==> Available(s, g) < Sum(Weigh(g), s.tasks))
  {
    var s' := Step(s, Proceed(i));
    Moves(s.tasks, i, Outside, g);
    if m :| 0 <= m < |s.tasks| && PendingIn(s.tasks[m], g) { assert PendingIn(s'.tasks[m], g); }
    if m :| 0 <= m < |s'.tasks| && PendingIn(s'.tasks[m], g) { assert PendingIn(s.tasks[m], g); }
  }

  // ----- the two losses, as runs -----

  lemma Then(run: seq<State>, a: Action, s: State) returns (longer: seq<State>)
    requires IsRun(Init, Next, run) && Enabled(run[|run| - 1], a) && s == Step(run[|run| - 1], a)
    ensures IsRun(Init, Next, longer) && longer[|longer| - 1] == s
  {
    longer := run + [s];
    Extend(Init, Next, run, s);
  }

  /** An unbounded queue and nothing returned or lost. */
  function Plain(items: seq<nat>, getters: seq<nat>, lock: Option<nat>, tasks: seq<Task>, put: seq<nat>): State {
    State(0, items, getters, [], lock, tasks, put, [], multiset{}, multiset{})
  }

  /** A cancelled woken getter takes the wake with it: a run ends with an item stored, a
      getter asleep, and nobody on the way. */
  lemma ForsakenWakeIsLost() returns (run: seq<State>)
    ensures IsRun(Init, Next, run)
    ensures var s := run[|run| - 1];
            s.items == [7] && s.tasks == [Outside, GetWait(Pending), Outside] && !NoIdleSleep(s, true)
  {
    var w := GetWait(Pending);
    run := [Plain([], [], None, [Outside, Outside, Outside], [])];
    run := Then(run, StartGet(0), Plain([], [], None, [Getting(false), Outside, Outside], []));
    run := Then(run, Turn(0), Plain([], [0], None, [w, Outside, Outside], []));
    run := Then(run, StartGet(1), Plain([], [0], None, [w, Getting(false), Outside], []));
    run := Then(run, Turn(1), Plain([], [0, 1], None, [w, w, Outside], []));
    run := Then(run, StartPut(2, 7), Plain([], [0, 1], None, [w, w, Putting(7, false)], []));
    run := Forsaken(run);
    AllZero(Weigh(true), run[|run| - 1].tasks);
    assert PendingIn(run[|run| - 1].tasks[1], true);
  }

  lemma Forsaken(run: seq<State>) returns (longer: seq<State>)
    requires IsRun(Init, Next, run)
    requires run[|run| - 1] == Plain([], [0, 1], None, [GetWait(Pending), GetWait(Pending), Putting(7, false)], [])
    ensures IsRun(Init, Next, longer)
    ensures longer[|longer| - 1] == Plain([7], [1], None, [Outside, GetWait(Pending), Outside], [7])
  {
    var w := GetWait(Pending);
    longer := Then(run, Turn(2), Plain([7], [0, 1], Some(2), [w, w, Waking(true, 7, Popping)], [7]));
    longer := Then(longer, Proceed(2), Plain([7], [1], Some(2), [w, w, Waking(true, 7, Testing(0))], [7]));
    longer := Then(longer, Proceed(2), Plain([7], [1], Some(2), [w, w, Waking(true, 7, Granting(0))], [7]));
    longer := Then(longer, Proceed(2), Plain([7], [1], None, [GetWait(Woken), w, Outside], [7]));
    longer := Then(longer, Abandon(0), Plain([7], [1], None, [Outside, w, Outside], [7]));
  }

  /** A queue of one slot, a putter of 8 and a third task. */
  function Full(items: seq<nat>, putters: seq<nat>, lock: Option<nat>, tasks: seq<Task>,
                removed: seq<nat>, lost: multiset<nat>): State
  {
    State(1, items, [], putters, lock, tasks, [7], removed, multiset{}, lost)
  }

  /** A putter cancelled between its test and its grant costs a getter its item: a run ends
      with an item that went in, is not stored, and was given to nobody. */
  lemma ItemCanBeLost() returns (run: seq<State>)
    ensures IsRun(Init, Next, run)
    ensures var s := run[|run| - 1];
            s.put == [7] && s.items == [] && s.returned == multiset{} && s.lost == multiset{7}
  {
    run := [State(1, [], [], [], None, [Outside, Outside], [], [], multiset{}, multiset{})];
    run := Then(run, StartPut(0, 7), State(1, [], [], [], None, [Putting(7, false), Outside], [], [], multiset{}, multiset{}));
    run := Then(run, Turn(0), Full([7], [], Some(0), [Waking(true, 7, Popping), Outside], [], multiset{}));
    run := Then(run, Proceed(0), Full([7], [], None, [Outside, Outside], [], multiset{}));
    run := Then(run, StartPut(0, 8), Full([7], [], None, [Putting(8, false), Outside], [], multiset{}));
    run := Then(run, Turn(0), Full([7], [0], None, [PutWait(8, Pending), Outside], [], multiset{}));
    run := Struck(run);
  }

  lemma Struck(run: seq<State>) returns (longer: seq<State>)
    requires IsRun(Init, Next, run)
    requires run[|run| - 1] == Full([7], [0], None, [PutWait(8, Pending), Outside], [], multiset{})
    ensures IsRun(Init, Next, longer)
    ensures longer[|longer| - 1] == Full([], [], None, [PutWait(8, Cancelled), Outside], [7], multiset{7})
  {
    var w := PutWait(8, Pending);
    longer := Then(run, StartGet(1), Full([7], [0], None, [w, Getting(false)], [], multiset{}));
    longer := Then(longer, Turn(1), Full([], [0], Some(1), [w, Waking(false, 7, Popping)], [7], multiset{}));
    longer := Then(longer, Proceed(1), Full([], [], Some(1), [w, Waking(false, 7, Testing(0))], [7], multiset{}));
    longer := Strike(longer);
  }

  lemma Strike(run: seq<State>) returns (longer: seq<State>)
    requires IsRun(Init, Next, run)
    requires run[|run| - 1] == Full([], [], Some(1), [PutWait(8, Pending), Waking(false, 7, Testing(0))], [7], multiset{})
    ensures IsRun(Init, Next, longer)
    ensures longer[|longer| - 1] == Full([], [], None, [PutWait(8, Cancelled), Outside], [7], multiset{7})
  {
    var w := PutWait(8, Pending);
    longer := Then(run, Proceed(1), Full([], [], Some(1), [w, Waking(false, 7, Granting(0))], [7], multiset{}));
    longer := Then(longer, Cancel(0), Full([], [], Some(1), [PutWait(8, Cancelled), Waking(false, 7, Granting(0))], [7], multiset{}));
    longer := Then(longer, Proceed(1), Full([], [], None, [PutWait(8, Cancelled), Outside], [7], multiset{7}));
  }
}
