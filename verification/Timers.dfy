/** Deadlines: the inverted ordering of `src/time.rs`, the timer pass of `Runtime::poll`,
    and the bound on how long the poll thread sleeps. */
module Timers {
  import opened Options
  import opened Runs
  import opened Words

  datatype Timer = Timer(when: nat, id: nat)

  datatype Ordering = Less | Equal | Greater

  /** `Ord for Timer`: an earlier deadline compares greater. */
  function Compare(a: Timer, b: Timer): Ordering {
    if a.when < b.when then Greater else if a.when > b.when then Less else Equal
  }

  function Flip(o: Ordering): Ordering {
    match o case Less => Greater case Equal => Equal case Greater => Less
  }

  /** The ordering is a total preorder, and its maxima are the earliest deadlines: a
      max-heap over it is a min-heap over deadlines. */
  lemma CompareIsInverted(a: Timer, b: Timer, c: Timer)
    ensures Compare(b, a) == Flip(Compare(a, b))
    ensures Compare(a, b) != Less && Compare(b, c) != Less ==> Compare(a, c) != Less
    ensures Compare(a, b) != Less <==> a.when <= b.when
  {
  }

  /** The greatest element, as `BinaryHeap::peek` promises it. */
  ghost predicate IsPeek(heap: multiset<Timer>, t: Timer) {
    t in heap && forall x :: x in heap ==> Compare(t, x) != Less
  }

  lemma {:induction false} PeekExists(heap: multiset<Timer>)
    requires heap != multiset{}
    ensures exists t :: IsPeek(heap, t)
    decreases |heap|
  {
    var x :| x in heap;
    var rest := heap - multiset{x};
    if rest == multiset{} {
      assert heap == multiset{x};
      assert IsPeek(heap, x);
    } else {
      PeekExists(rest);
      var y :| IsPeek(rest, y);
      var best := if Compare(x, y) != Less then x else y;
      forall z | z in heap ensures Compare(best, z) != Less { if z != x { assert z in rest; } }
      assert IsPeek(heap, best);
    }
  }

  predicate Sorted(ts: seq<Timer>) {
    forall i, j :: 0 <= i < j < |ts| ==> ts[i].when <= ts[j].when
  }

  /** Part of a pass: what has been fired is due, in order, and not later than what is left. */
  ghost predicate SoFar(before: multiset<Timer>, left: multiset<Timer>, fired: seq<Timer>, tick: nat) {
    && before == left + multiset(fired)
    && (forall i :: 0 <= i < |fired| ==> fired[i].when <= tick)
    && Sorted(fired)
    && (forall i, t :: 0 <= i < |fired| && t in left ==> fired[i].when <= t.when)
  }

  lemma OneMore(before: multiset<Timer>, left: multiset<Timer>, fired: seq<Timer>, tick: nat, t: Timer)
    requires SoFar(before, left, fired, tick) && IsPeek(left, t) && t.when <= tick
    ensures SoFar(before, left - multiset{t}, fired + [t], tick)
  {
    var rest := left - multiset{t};
    assert multiset(fired + [t]) == multiset(fired) + multiset{t};
    forall x | x in rest ensures t.when <= x.when { assert x in left; CompareIsInverted(t, x, x); }
  }

  class TimerHeap {
    var heap: multiset<Timer>

    constructor ()
      ensures heap == multiset{}
    {
      heap := multiset{};
    }

    method Push(t: Timer)
      modifies this
      ensures heap == old(heap) + multiset{t}
      ensures IsPeek(heap, t) <==> forall x :: x in old(heap) ==> t.when <= x.when
    {
      heap := heap + multiset{t};
      assert forall x :: x in heap <==> x == t || x in old(heap);
    }

    method Peek() returns (t: Option<Timer>)
      ensures t.None? <==> heap == multiset{}
      ensures t.Some? ==> IsPeek(heap, t.value)
    {
      if heap == multiset{} { return None; }
      PeekExists(heap);
      var best :| best in heap && forall x | x in heap :: Compare(best, x) != Less;
      t := Some(best);
    }

    /** The timer pass of one poll, at clock reading `tick`: exactly the timers due by then
        leave the heap, each once, in order of their deadlines. */
    method Pass(tick: nat) returns (fired: seq<Timer>)
      modifies this
      ensures old(heap) == heap + multiset(fired)
      ensures forall t :: t in heap ==> t.when > tick
      ensures forall i :: 0 <= i < |fired| ==> fired[i].when <= tick
      ensures Sorted(fired)
    {
      fired := [];
      var next := Peek();
      while next.Some? && next.value.when <= tick
        invariant SoFar(old(heap), heap, fired, tick)
        invariant next.None? <==> heap == multiset{}
        invariant next.Some? ==> IsPeek(heap, next.value)
        decreases |heap|
      {
        OneMore(old(heap), heap, fired, tick, next.value);
        heap := heap - multiset{next.value};
        fired := fired + [next.value];
        next := Peek();
      }
    }
  }

  /** What a pass leaves and fires is determined, up to the order of equal deadlines. */
  lemma PassIsDetermined(before: multiset<Timer>, tick: nat, kept: multiset<Timer>, fired: seq<Timer>, t: Timer)
    requires before == kept + multiset(fired)
    requires forall x :: x in kept ==> x.when > tick
    requires forall i :: 0 <= i < |fired| ==> fired[i].when <= tick
    ensures kept[t] == (if t.when > tick then before[t] else 0)
    ensures multiset(fired)[t] == (if t.when <= tick then before[t] else 0)
  {
    if t in multiset(fired) { assert t in fired; }
  }

  /** What pushing `t` changes about a pass at `tick`: it fires once more if it is due, stays
      once more if it is not, and every other timer fares as it would have without it. */
  lemma PushedFiresWhenDue(before: multiset<Timer>, tick: nat, t: Timer,
                           kept: multiset<Timer>, fired: seq<Timer>, kept': multiset<Timer>, fired': seq<Timer>)
    requires before == kept + multiset(fired) && before + multiset{t} == kept' + multiset(fired')
    requires forall x :: x in kept || x in kept' ==> x.when > tick
    requires forall x :: x in fired || x in fired' ==> x.when <= tick
    ensures multiset(fired') == multiset(fired) + (if t.when <= tick then multiset{t} else multiset{})
    ensures kept' == kept + (if t.when <= tick then multiset{} else multiset{t})
  {
    forall x
      ensures multiset(fired')[x] == multiset(fired)[x] + (if x == t && t.when <= tick then 1 else 0)
      ensures kept'[x] == kept[x] + (if x == t && t.when > tick then 1 else 0)
    {
      PassIsDetermined(before, tick, kept, fired, x);
      PassIsDetermined(before + multiset{t}, tick, kept', fired', x);
    }
  }

  // ----- the sleeping poll thread against adders -----

  /** The poll thread: about to look at the heap; knowing how long to sleep; asleep since
      `start`; woken. `sampled` is the clock reading the budget was computed from. */
  datatype Poll =
    | Looking
    | Decided(sampled: nat, budget: Option<nat>)
    | Asleep(sampled: nat, budget: Option<nat>, start: nat)
    | Woken

  /** `adding[t]` is the timer thread `t` has pushed without having called `wake` yet. `calls`
      and `early` record the calls of `wake` and the sleeps one of them ended. */
  datatype State = State(now: nat, heap: multiset<Timer>, wakeup: bool, poll: Poll, adding: seq<Option<Timer>>,
                         calls: nat, early: nat)

  datatype Action = Tick | Add(t: nat, timer: Timer) | CallWake(t: nat) | PollStep(peek: Option<Timer>)

  predicate Init(s: State) {
    s.heap == multiset{} && s.poll.Looking? && !s.wakeup && s.calls == 0 && s.early == 0 && forall t :: 0 <= t < |s.adding| ==> s.adding[t].None?
  }

  ghost predicate Enabled(s: State, a: Action) {
    match a
    case Tick => true
    case Add(t, _) => t < |s.adding| && s.adding[t].None?
    case CallWake(t) => t < |s.adding| && s.adding[t].Some?
    case PollStep(peek) =>
      && (s.poll.Looking? ==> if s.heap == multiset{} then peek.None? else peek.Some? && IsPeek(s.heap, peek.value))
      && (s.poll.Asleep? ==> s.wakeup || (s.poll.budget.Some? && s.now >= s.poll.start + s.poll.budget.value))
  }

  /** The poll timeout for the earliest deadline `when` at clock reading `now`; the source
      narrows the difference to 64 bits. */
  function Budget(when: nat, now: nat): nat { if when > now then (when - now) % WORD else 0 }

  ghost predicate Step(s: State, a: Action, s': State) {
    Enabled(s, a) &&
    match a
    case Tick => s' == s.(now := s.now + 1)
    case Add(t, timer) => s' == s.(heap := s.heap + multiset{timer}, adding := s.adding[t := Some(timer)])
    case CallWake(t) => s' == s.(wakeup := true, calls := s.calls + 1, adding := s.adding[t := None])
    case PollStep(peek) =>
      match s.poll
      case Looking =>
        s' == s.(poll := Decided(s.now, if peek.None? then None else Some(Budget(peek.value.when, s.now))))
      case Decided(sampled, budget) => s' == s.(poll := Asleep(sampled, budget, s.now))
      case Asleep(_, _, _) => s' == s.(poll := Woken, wakeup := false, early := if s.wakeup then s.early + 1 else s.early)
      case Woken =>
        && s' == s.(poll := Looking, heap := s'.heap)
        && s'.heap <= s.heap
        && forall t :: s'.heap[t] == if t.when > s.now then s.heap[t] else 0
  }

  ghost predicate Next(s: State, s': State) { exists a :: Step(s, a, s') }

  /** A sleep of `budget`, computed at `sampled`, is not longer than timer `t` allows. */
  predicate InTime(sampled: nat, budget: Option<nat>, t: Timer) {
    budget.Some? && (if t.when > sampled then sampled + budget.value <= t.when else budget.value == 0)
  }

  ghost predicate Announced(s: State, t: Timer) {
    s.wakeup || exists i :: 0 <= i < |s.adding| && s.adding[i] == Some(t)
  }

  /** A limited sleep is as long as some timer in the heap asks for. */
  ghost predicate SleepsForATimer(s: State)
    requires s.poll.Decided? || s.poll.Asleep?
  {
    s.poll.budget.Some? ==> exists t :: t in s.heap && s.poll.budget.value == Budget(t.when, s.poll.sampled)
  }

  ghost predicate Inv(s: State) {
    && s.early + (if s.wakeup then 1 else 0) <= s.calls
    && (s.poll.Decided? || s.poll.Asleep? ==>
          forall t :: t in s.heap ==> InTime(s.poll.sampled, s.poll.budget, t) || Announced(s, t))
    && (s.poll.Decided? || s.poll.Asleep? ==> SleepsForATimer(s))
    && (s.poll.Decided? ==> s.poll.sampled <= s.now)
    && (s.poll.Asleep? ==> s.poll.sampled <= s.poll.start <= s.now)
  }

  function Max(a: nat, b: nat): nat { if a < b then b else a }

  lemma StepInv(s: State, a: Action, s': State)
    requires Inv(s) && Step(s, a, s')
    ensures Inv(s')
  {
    if s'.poll.Decided? || s'.poll.Asleep? { StillForATimer(s, a, s'); }
    if s'.poll.Decided? || s'.poll.Asleep? {
      forall t | t in s'.heap ensures InTime(s'.poll.sampled, s'.poll.budget, t) || Announced(s', t) {
        if s.poll.Looking? && a.PollStep? {
          BudgetInTime(a.peek.value, t, s.now);
        } else if a.Add? && a.timer == t {
          assert s'.adding[a.t] == Some(t);
        } else {
          assert t in s.heap;
          if !InTime(s.poll.sampled, s.poll.budget, t) && !s.wakeup {
            var i :| 0 <= i < |s.adding| && s.adding[i] == Some(t);
            assert a == CallWake(i) || s'.adding[i] == Some(t);
          }
        }
      }
    }
  }

  lemma StillForATimer(s: State, a: Action, s': State)
    requires Inv(s) && Step(s, a, s') && (s'.poll.Decided? || s'.poll.Asleep?)
    ensures SleepsForATimer(s')
  {
    if s'.poll.budget.Some? {
      if s.poll.Looking? && a.PollStep? {
        assert a.peek.value in s'.heap;
      } else {
        var t :| t in s.heap && s.poll.budget.value == Budget(t.when, s.poll.sampled);
        assert t in s'.heap;
      }
    }
  }

  lemma BudgetInTime(peek: Timer, t: Timer, now: nat)
    requires Compare(peek, t) != Less
    ensures InTime(now, Some(Budget(peek.when, now)), t)
  {
    if peek.when > now {
      assert (peek.when - now) % WORD <= peek.when - now;
    }
  }

  /** In every run, while the poll thread sleeps or is about to, each timer in the heap
      allows that sleep, or a wake for it is pending, or its adder is still mid-call. Once
      asleep, the thread is due to wake no later after the deadline, or after the clock was
      sampled if that had passed, than the time it took from the sample to falling asleep. */
  lemma NeverOutsleepsATimer(run: seq<State>, k: nat, t: Timer)
    requires IsRun(Init, Next, run) && k < |run|
    requires (run[k].poll.Decided? || run[k].poll.Asleep?) && t in run[k].heap
    ensures InTime(run[k].poll.sampled, run[k].poll.budget, t) || Announced(run[k], t)
    ensures run[k].poll.Asleep? && !Announced(run[k], t) ==>
              var p := run[k].poll;
              && p.budget.Some? && p.sampled <= p.start
              && p.start + p.budget.value <= Max(t.when, p.sampled) + (p.start - p.sampled)
  {
    InvAt(run, k);
  }

  lemma InvAt(run: seq<State>, k: nat)
    requires IsRun(Init, Next, run) && k < |run|
    ensures Inv(run[k])
  {
    forall s, s' | Inv(s) && Next(s, s') ensures Inv(s') {
      var a :| Step(s, a, s');
      StepInv(s, a, s');
    }
    Always(Init, Next, Inv, run, k);
  }

  /** And it does not wake for nothing: when an unwoken sleep is over, some timer in the heap
      is due, unless its deadline was further off than 64 bits can hold. Without a limit the
      thread sleeps only over a heap whose every timer is announced. */
  lemma WakesForATimer(run: seq<State>, k: nat)
    requires IsRun(Init, Next, run) && k < |run| && run[k].poll.Asleep? && !run[k].wakeup
    ensures Enabled(run[k], PollStep(None)) ==>
              exists t :: t in run[k].heap && (t.when <= run[k].now || t.when - run[k].poll.sampled >= WORD)
    ensures run[k].poll.budget.None? ==> forall t :: t in run[k].heap ==> Announced(run[k], t)
  {
    InvAt(run, k);
    var s := run[k];
    if Enabled(s, PollStep(None)) {
      var t :| t in s.heap && s.poll.budget.value == Budget(t.when, s.poll.sampled);
      if t.when - s.poll.sampled < WORD { assert t.when <= s.poll.sampled + s.poll.budget.value; }
    }
  }

  /** A call of `wake` ends at most one sleep. */
  lemma NoSleepEndsUnasked(run: seq<State>, k: nat)
    requires IsRun(Init, Next, run) && k < |run|
    ensures run[k].early <= run[k].calls
  {
    InvAt(run, k);
  }
}
