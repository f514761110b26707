/** The timeout scope of `mt_asyncio/asyncio/_timeouts.py` against the cancellation
    counter of `mt_asyncio/asyncio/_tasks.py`: one task inside one scope, any number of
    timer callbacks and of outside threads that cancel and uncancel the task. Each
    counter update and each critical section is one step. */
module Timeouts {
  import opened Options
  import opened Sums
  import opened Runs

  datatype Scope = Entered | Expiring | Expired | Exited

  /** How the body ends. */
  datatype Ending = Normally | Cancelled | Otherwise

  /** The task inside the scope. */
  datatype Body =
    | Running
    | Parked(fut: nat, pending: bool)   // `_fut_waiter` is future number `fut`
    | Exiting(et: Ending)               // `__aexit__`, about to take the scope's lock
    | Uncounting(et: Ending)            // the deadline won: `uncancel`, counter first
    | Clearing(et: Ending)              //   it reached zero: withdraw `_must_cancel`
    | Reading(et: Ending)               //   its result is read
    | Left(et: Ending, raised: bool)

  /** A timer callback (`timer` true, holding the scope's lock) or an outside thread. */
  datatype Actor =
    | Idle
    | Knocking                          // `_on_timeout`, about to take the scope's lock
    | Count(timer: bool)                // `cancel`: the counter
    | Look(timer: bool)                 //   the task lock: parked, or set the flag
    | Hit(timer: bool, fut: nat)        //   cancel the future it is parked on
    | Flag(timer: bool)                 //   it was done already: set the flag
    | Withdraw                          // `uncancel` reached zero: withdraw the flag

  /** `credit` counts finished outside cancels not withdrawn since; `charged` what timers
      have added to the task's counter less what the scope took back. Two more
      fields record the scope's history: `timerWon`, that a timer callback found the task inside the scope,
      and `owed`, the outside requests standing when `__aexit__` read the counter; two
      more count the requests made, by timers and outsiders alike, and those delivered,
      through a cancelled future or at an await. */
  datatype State = State(scope: Scope, lock: Option<nat>, body: Body, count: int, mustCancel: bool,
                         nextFut: nat, actors: seq<Actor>, credit: nat, charged: int,
                         timerWon: bool, owed: int, requests: nat, delivered: nat)

  datatype Action =
    | Await | FutureDone | Resume | EndBody(et: Ending) | ExitStep
    | TimerFires(i: nat) | OutsideCancel(i: nat) | OutsideUncancel(i: nat) | Act(i: nat)

  predicate Init(s: State) {
    && s.scope.Entered? && s.lock.None? && s.body.Running? && s.count == 0 && !s.mustCancel
    && s.credit == 0 && s.charged == 0 && !s.timerWon && s.owed == 0
    && s.requests == 0 && s.delivered == 0
    && forall i :: 0 <= i < |s.actors| ==> s.actors[i].Idle?
  }

  predicate Enabled(s: State, a: Action) {
    match a
    case Await => s.body.Running?
    case FutureDone => s.body.Parked? && s.body.pending
    case Resume => s.body.Parked? && !s.body.pending
    case EndBody(_) => s.body.Running?
    case ExitStep =>
      (s.body.Exiting? && s.lock.None?) || s.body.Uncounting? || s.body.Clearing? || s.body.Reading?
    case TimerFires(i) => i < |s.actors| && s.actors[i].Idle?
    case OutsideCancel(i) => i < |s.actors| && s.actors[i].Idle?
    case OutsideUncancel(i) => i < |s.actors| && s.actors[i].Idle? && s.credit > 0
    case Act(i) => i < |s.actors| && !s.actors[i].Idle? && (s.actors[i].Knocking? ==> s.lock.None?)
  }

  function Move(s: State, i: nat, x: Actor): State
    requires i < |s.actors|
  {
    s.(actors := s.actors[i := x])
  }

  /** A `cancel` is over: a timer callback gives up the scope's lock, an outside request
      is now one that can be withdrawn. */
  function Finished(s: State, i: nat, timer: bool): State
    requires i < |s.actors|
  {
    if timer then Move(s, i, Idle).(lock := None) else Move(s, i, Idle).(credit := s.credit + 1)
  }

  predicate Cancelling(x: Actor) { x.Count? || x.Look? || x.Hit? || x.Flag? }

  /** `Task.cancel`, on behalf of a timer callback or of an outside thread. */
  function CancelStep(s: State, i: nat): State
    requires i < |s.actors| && Cancelling(s.actors[i])
  {
    match s.actors[i]
    case Count(timer) =>
      Move(s, i, Look(timer)).(requests := s.requests + 1, count := s.count + 1, charged := if timer then s.charged + 1 else s.charged)
    case Look(timer) =>
      if s.body.Parked? then Move(s, i, Hit(timer, s.body.fut)) else Finished(s.(mustCancel := true), i, timer)
    case Hit(timer, fut) =>
      if s.body.Parked? && s.body.fut == fut && s.body.pending
      then Finished(s.(body := s.body.(pending := false), delivered := s.delivered + 1), i, timer)
      else Move(s, i, Flag(timer))
    case Flag(timer) => Finished(s.(mustCancel := true), i, timer)
  }

  function ActStep(s: State, i: nat): State
    requires Enabled(s, Act(i))
  {
    if Cancelling(s.actors[i]) then CancelStep(s, i)
    else if s.actors[i].Withdraw? then Move(s, i, Idle).(mustCancel := false)
    else if s.scope.Entered? then Move(s, i, Count(true)).(scope := Expiring, lock := Some(i), timerWon := true)
    else Move(s, i, Idle)
  }

  /** An outside request that is counted and not yet finished. */
  function InFlight(x: Actor): int { Bit((x.Look? || x.Hit? || x.Flag?) && !x.timer) }

  /** The outside requests standing: finished and not withdrawn, or still in flight. */
  ghost function Standing(s: State): int { s.credit + Sum(InFlight, s.actors) }

  ghost function ExitMove(s: State): State
    requires Enabled(s, ExitStep)
  {
    match s.body
    case Exiting(et) =>
      if s.scope.Expiring? then s.(scope := Expired, body := Uncounting(et))
      else s.(scope := Exited, body := Left(et, false))
    case Uncounting(et) =>
      if s.count > 0 then
        s.(count := s.count - 1, charged := s.charged - 1,
           body := if s.count == 1 then Clearing(et) else Reading(et))
      else s.(body := Reading(et))
    case Clearing(et) => s.(mustCancel := false, body := Reading(et))
    case Reading(et) => s.(body := Left(et, s.count <= 0 && et.Cancelled?), owed := Standing(s))
    case _ => s
  }

  ghost function Step(s: State, a: Action): State
    requires Enabled(s, a)
  {
    match a
    case Await =>
      if s.mustCancel then s.(mustCancel := false, delivered := s.delivered + 1)
      else s.(body := Parked(s.nextFut, true), nextFut := s.nextFut + 1)
    case FutureDone => s.(body := s.body.(pending := false))
    case Resume => s.(body := Running)
    case EndBody(et) => s.(body := Exiting(et))
    case ExitStep => ExitMove(s)
    case TimerFires(i) => Move(s, i, Knocking)
    case OutsideCancel(i) => Move(s, i, Count(false))
    case OutsideUncancel(i) =>
      Move(s, i, if s.count == 1 then Withdraw else Idle).(count := s.count - 1, credit := s.credit - 1)
    case Act(i) => ActStep(s, i)
  }

  ghost predicate Next(s: State, t: State) {
    exists a :: Enabled(s, a) && t == Step(s, a)
  }

  // ----- what every step keeps -----

  predicate TimerCancelling(x: Actor) { Cancelling(x) && x.timer }

  predicate InScope(b: Body) { b.Running? || b.Parked? || b.Exiting? }

  predicate LockOk(s: State) {
    && (s.lock.Some? ==> s.lock.value < |s.actors| && TimerCancelling(s.actors[s.lock.value]) && s.scope.Expiring?)
    && (forall i :: 0 <= i < |s.actors| && TimerCancelling(s.actors[i]) ==> s.lock == Some(i))
    && (s.scope.Entered? || s.scope.Expiring? <==> InScope(s.body))
    && (s.body.Left? ==> s.scope.Expired? || s.scope.Exited?)
    && (s.timerWon <==> s.scope.Expiring? || s.scope.Expired?)
    && (s.body.Uncounting? || s.body.Clearing? || s.body.Reading? ==> s.scope.Expired?)
  }

  /** The scope's own account with the task's counter. */
  function Charge(s: State): int {
    match s.scope
    case Entered => 0
    case Expiring => Bit(!(s.lock.Some? && s.lock.value < |s.actors| && s.actors[s.lock.value].Count?))
    case Expired => Bit(s.body.Uncounting?)
    case Exited => 0
  }

  ghost predicate CountOk(s: State) {
    && s.charged == Charge(s)
    && s.count == Standing(s) + s.charged
  }

  /** Somebody who saw the counter reach zero is about to withdraw the flag. */
  ghost predicate WithdrawPending(s: State) {
    s.body.Clearing? || exists i :: 0 <= i < |s.actors| && s.actors[i].Withdraw?
  }

  ghost predicate FlagOk(s: State) { s.mustCancel && s.count == 0 ==> WithdrawPending(s) }

  /** The verdict of `__aexit__`, by what happened. */
  predicate VerdictOk(s: State) {
    s.body.Left? ==> (s.body.raised <==> s.timerWon && s.body.et.Cancelled? && s.owed == 0)
  }

  ghost predicate Inv(s: State) { LockOk(s) && CountOk(s) && FlagOk(s) && VerdictOk(s) }

  lemma LockCancel(s: State, i: nat)
    requires LockOk(s) && i < |s.actors| && Cancelling(s.actors[i])
    ensures LockOk(CancelStep(s, i))
  {
    var x, s' := s.actors[i], CancelStep(s, i);
    assert s'.actors[i].Idle? || (Cancelling(s'.actors[i]) && s'.actors[i].timer == x.timer);
    assert s'.scope == s.scope && InScope(s'.body) == InScope(s.body);
  }

  lemma LockAct(s: State, i: nat)
    requires LockOk(s) && Enabled(s, Act(i))
    ensures LockOk(ActStep(s, i))
  {
    if Cancelling(s.actors[i]) { LockCancel(s, i); }
  }

  lemma LockStep(s: State, a: Action)
    requires LockOk(s) && Enabled(s, a)
    ensures LockOk(Step(s, a))
  {
    match a {
      case Act(i) => LockAct(s, i);
      case _ =>
    }
  }

  lemma CountCancel(s: State, i: nat)
    requires LockOk(s) && CountOk(s) && i < |s.actors| && Cancelling(s.actors[i])
    ensures CountOk(CancelStep(s, i))
  {
    var s' := CancelStep(s, i);
    Update(InFlight, s.actors, i, s'.actors[i]);
    CancelAdds(s, i);
    CancelCharges(s, i);
  }

  lemma CancelAdds(s: State, i: nat)
    requires i < |s.actors| && Cancelling(s.actors[i])
    ensures var x, s' := s.actors[i], CancelStep(s, i);
            && |s'.actors| == |s.actors| && s'.actors == s.actors[i := s'.actors[i]]
            && s'.count - s.count == Bit(x.Count?)
            && s'.charged - s.charged == Bit(x.Count? && x.timer)
            && s'.credit - s.credit + InFlight(s'.actors[i]) - InFlight(x) == Bit(x.Count? && !x.timer)
  {
  }

  lemma CancelCharges(s: State, i: nat)
    requires LockOk(s) && i < |s.actors| && Cancelling(s.actors[i])
    ensures Charge(CancelStep(s, i)) - Charge(s) == Bit(s.actors[i].Count? && s.actors[i].timer)
  {
    assert s.actors[i].timer ==> s.lock == Some(i);
  }

  lemma CountAct(s: State, i: nat)
    requires LockOk(s) && CountOk(s) && Enabled(s, Act(i))
    ensures CountOk(ActStep(s, i))
  {
    if Cancelling(s.actors[i]) {
      CountCancel(s, i);
    } else {
      Update(InFlight, s.actors, i, ActStep(s, i).actors[i]);
    }
  }

  lemma CountOutside(s: State, a: Action)
    requires LockOk(s) && CountOk(s) && Enabled(s, a) && (a.TimerFires? || a.OutsideCancel? || a.OutsideUncancel?)
    ensures CountOk(Step(s, a))
  {
    Update(InFlight, s.actors, a.i, Step(s, a).actors[a.i]);
  }

  lemma CountExit(s: State)
    requires LockOk(s) && CountOk(s) && Enabled(s, ExitStep)
    ensures CountOk(ExitMove(s))
  {
    AtLeastEach(InFlight, s.actors, 0);
  }

  lemma CountBody(s: State, a: Action)
    requires LockOk(s) && CountOk(s) && Enabled(s, a) && (a.Await? || a.FutureDone? || a.Resume? || a.EndBody?)
    ensures CountOk(Step(s, a))
  {
  }

  lemma CountStep(s: State, a: Action)
    requires LockOk(s) && CountOk(s) && Enabled(s, a)
    ensures CountOk(Step(s, a))
  {
    if a.Act? {
      CountAct(s, a.i);
    } else if a.ExitStep? {
      CountExit(s);
    } else if a.TimerFires? || a.OutsideCancel? || a.OutsideUncancel? {
      CountOutside(s, a);
    } else {
      CountBody(s, a);
    }
  }

  /** Setting the flag is part of a request that is still counted. */
  lemma FlagAct(s: State, i: nat)
    requires LockOk(s) && CountOk(s) && FlagOk(s) && Enabled(s, Act(i))
    ensures FlagOk(ActStep(s, i))
  {
    var s' := ActStep(s, i);
    AtLeastEach(InFlight, s.actors, i);
    if s'.mustCancel && s'.count == 0 {
      assert s.mustCancel && s.count == 0;
      if !s.body.Clearing? {
        var j :| 0 <= j < |s.actors| && s.actors[j].Withdraw?;
        assert s'.actors[j].Withdraw?;
      }
    }
  }

  /** A pending withdrawal stays pending until its own next step. */
  lemma WithdrawPersists(s: State, a: Action)
    requires Enabled(s, a) && WithdrawPending(s) && !a.Act? && !(a.ExitStep? && s.body.Clearing?)
    ensures WithdrawPending(Step(s, a))
  {
    if !s.body.Clearing? {
      var j :| 0 <= j < |s.actors| && s.actors[j].Withdraw?;
      assert Step(s, a).actors[j].Withdraw?;
    }
  }

  lemma FlagStep(s: State, a: Action)
    requires LockOk(s) && CountOk(s) && FlagOk(s) && Enabled(s, a)
    ensures FlagOk(Step(s, a))
  {
    var s' := Step(s, a);
    if a.Act? {
      FlagAct(s, a.i);
    } else if a.OutsideUncancel? && s.count == 1 {
      assert s'.actors[a.i].Withdraw?;
    } else if s.mustCancel && s.count == 0 && !(a.ExitStep? && s.body.Clearing?) {
      WithdrawPersists(s, a);
    }
  }

  lemma VerdictStep(s: State, a: Action)
    requires LockOk(s) && CountOk(s) && VerdictOk(s) && Enabled(s, a)
    ensures VerdictOk(Step(s, a))
  {
    AtLeastEach(InFlight, s.actors, 0);
    if a.Act? {
      ActKeepsVerdict(s, a.i);
    }
  }

  lemma ActKeepsVerdict(s: State, i: nat)
    requires LockOk(s) && Enabled(s, Act(i))
    ensures var s' := ActStep(s, i);
            s'.body.Left? ==> s.body == s'.body && s'.timerWon == s.timerWon && s'.owed == s.owed
  {
  }

  lemma StepInv(s: State, a: Action)
    requires Inv(s) && Enabled(s, a)
    ensures Inv(Step(s, a))
  {
    LockStep(s, a);
    CountStep(s, a);
    FlagStep(s, a);
    VerdictStep(s, a);
  }

  lemma RunInv(run: seq<State>, k: nat)
    requires IsRun(Init, Next, run) && k < |run|
    ensures Inv(run[k])
  {
    forall s | Init(s) ensures Inv(s) { AllZero(InFlight, s.actors); }
    forall s, t | Inv(s) && Next(s, t) ensures Inv(t) {
      var a :| Enabled(s, a) && t == Step(s, a);
      StepInv(s, a);
    }
    Always(Init, Next, Inv, run, k);
  }

  // ----- a cancel takes effect -----

  /** However a `cancel` is interleaved, the step that ends it leaves the flag up, or has just
      ended the pending future the task is parked on. */
  lemma CancelTakesEffect(s: State, i: nat)
    requires Enabled(s, Act(i)) && Cancelling(s.actors[i]) && i < |Step(s, Act(i)).actors|
    requires Step(s, Act(i)).actors[i].Idle?
    ensures var s' := Step(s, Act(i));
            || s'.mustCancel
            || (s.body.Parked? && s.body.pending && s'.body == s.body.(pending := false))
  {
  }

  /** `cancel` run to its end by actor `i` while nobody else moves. */
  function CancelAlone(s: State, i: nat): State
    requires i < |s.actors|
    decreases match s.actors[i] case Count(_) => 4 case Look(_) => 3 case Hit(_, _) => 2 case Flag(_) => 1 case _ => 0
  {
    if Cancelling(s.actors[i]) then CancelAlone(CancelStep(s, i), i) else s
  }

  /** What `Task.Cancel` promises of an undisturbed call: one more request; the pending
      future the task is parked on is ended and the flag left alone, and otherwise the flag
      goes up. */
  lemma CancelAloneIsTheObjects(s: State, i: nat)
    requires i < |s.actors| && s.actors[i].Count?
    ensures var s' := CancelAlone(s, i);
            && s'.count == s.count + 1 && |s'.actors| == |s.actors| && s'.actors[i].Idle? && s'.scope == s.scope
            && (s.body.Parked? && s.body.pending ==>
                  s'.body == s.body.(pending := false) && s'.mustCancel == s.mustCancel)
            && (!(s.body.Parked? && s.body.pending) ==> s'.body == s.body && s'.mustCancel)
  {
    var s1 := CancelStep(s, i);
    var s2 := CancelStep(s1, i);
    assert CancelAlone(s, i) == CancelAlone(s1, i) == CancelAlone(s2, i);
    if s.body.Parked? {
      var s3 := CancelStep(s2, i);
      assert CancelAlone(s2, i) == CancelAlone(s3, i);
      if s.body.pending {
        assert CancelAlone(s3, i) == s3;
      } else {
        var s4 := CancelStep(s3, i);
        assert CancelAlone(s3, i) == CancelAlone(s4, i) == s4;
      }
    } else {
      assert CancelAlone(s2, i) == s2;
    }
  }

  /** An outside `cancel` that nobody disturbs does the same, from its call on. */
  lemma OutsideAloneIsTheObjects(s: State, i: nat)
    requires Enabled(s, OutsideCancel(i))
    ensures var s0 := Step(s, OutsideCancel(i));
            && i < |s0.actors|
            && var s' := CancelAlone(s0, i);
               && s'.count == s.count + 1 && |s'.actors| == |s.actors| && s'.actors[i].Idle? && s'.scope == s.scope
               && (s.body.Parked? && s.body.pending ==>
                     s'.body == s.body.(pending := false) && s'.mustCancel == s.mustCancel)
               && (!(s.body.Parked? && s.body.pending) ==> s'.body == s.body && s'.mustCancel)
  {
    CancelAloneIsTheObjects(Step(s, OutsideCancel(i)), i);
  }

  /** A timer callback that nobody disturbs does what `OnTimeout` promises: inside the scope
      it moves it on and cancels the task; outside, nothing. */
  lemma TimerAloneIsTheObjects(s: State, i: nat)
    requires LockOk(s) && Enabled(s, TimerFires(i)) && s.lock.None?
    ensures Enabled(Step(s, TimerFires(i)), Act(i))
    ensures var s1 := ActStep(Step(s, TimerFires(i)), i);
            && |s1.actors| == |s.actors|
            && (!s.scope.Entered? ==>
                  s1.actors[i].Idle? && s1.scope == s.scope && s1.count == s.count && s1.mustCancel == s.mustCancel && s1.body == s.body)
            && (s.scope.Entered? ==>
                  var s' := CancelAlone(s1, i);
                  && s'.scope.Expiring? && s'.count == s.count + 1 && |s'.actors| == |s.actors| && s'.actors[i].Idle?
                  && (s.body.Parked? && s.body.pending ==>
                        s'.body == s.body.(pending := false) && s'.mustCancel == s.mustCancel)
                  && (!(s.body.Parked? && s.body.pending) ==> s'.body == s.body && s'.mustCancel))
  {
    if s.scope.Entered? { CancelAloneIsTheObjects(ActStep(Step(s, TimerFires(i)), i), i); }
  }

  /** An `uncancel` that nobody disturbs withdraws the flag with the last request, and only
      then. */
  lemma UncancelAloneIsTheObjects(s: State, i: nat)
    requires Enabled(s, OutsideUncancel(i)) && s.count > 0
    ensures var s1 := Step(s, OutsideUncancel(i));
            && |s1.actors| == |s.actors| && s1.count == s.count - 1
            && (s1.count > 0 ==> s1.actors[i].Idle? && s1.mustCancel == s.mustCancel)
            && (s1.count == 0 ==>
                  && Enabled(s1, Act(i))
                  && var s2 := ActStep(s1, i); s2.count == 0 && !s2.mustCancel && s2.actors[i].Idle?)
  {
  }

  /** The exit with nobody else moving, to its verdict. */
  ghost function ExitAlone(s: State): State
    requires s.body.Exiting? ==> s.lock.None?
    decreases match s.body case Exiting(_) => 4 case Uncounting(_) => 3 case Clearing(_) => 2 case Reading(_) => 1 case _ => 0
  {
    if s.body.Exiting? || s.body.Uncounting? || s.body.Clearing? || s.body.Reading? then ExitAlone(ExitMove(s)) else s
  }

  /** It does what the object's `Exit` promises: leave the scope, take a lapsed deadline's
      request back with the flag if it was the last, and raise on a cancelled body exactly if
      no request is left. */
  lemma ExitAloneIsTheObjects(s: State, et: Ending)
    requires LockOk(s) && s.body == Exiting(et) && s.lock.None? && s.count >= 0
    ensures var s' := ExitAlone(s);
            && s'.body.Left? && s'.body.et == et
            && (s.scope.Entered? ==>
                  s'.scope.Exited? && s'.count == s.count && s'.mustCancel == s.mustCancel && !s'.body.raised)
            && (s.scope.Expiring? && s.count > 0 ==>
                  && s'.scope.Expired? && s'.count == s.count - 1
                  && s'.mustCancel == (s.mustCancel && s'.count > 0)
                  && (s'.body.raised <==> s'.count == 0 && et.Cancelled?))
  {
    var s1 := ExitMove(s);
    assert ExitAlone(s) == ExitAlone(s1);
    if s.scope.Expiring? {
      var s2 := ExitMove(s1);
      assert ExitAlone(s1) == ExitAlone(s2);
      if s.count == 1 {
        var s3 := ExitMove(s2);
        assert s2.body == Clearing(et) && ExitAlone(s2) == ExitAlone(s3);
        ReadsAlone(s3, et);
      } else {
        ReadsAlone(s2, et);
      }
    }
  }

  lemma ReadsAlone(s: State, et: Ending)
    requires s.body == Reading(et)
    ensures ExitAlone(s) == s.(body := Left(et, s.count <= 0 && et.Cancelled?), owed := Standing(s))
  {
    assert ExitAlone(s) == ExitAlone(ExitMove(s));
  }

  // ----- parking -----

  /** Every future a cancel is aimed at, or the task is parked on, has been handed out. */
  predicate AimedAtOld(s: State) {
    && (s.body.Parked? ==> s.body.fut < s.nextFut)
    && forall i :: 0 <= i < |s.actors| && s.actors[i].Hit? ==> s.actors[i].fut < s.nextFut
  }

  lemma AimedAtOldAct(s: State, i: nat)
    requires AimedAtOld(s) && Enabled(s, Act(i))
    ensures AimedAtOld(ActStep(s, i))
  {
  }

  lemma AimedAtOldStep(s: State, a: Action)
    requires AimedAtOld(s) && Enabled(s, a)
    ensures AimedAtOld(Step(s, a))
  {
    if a.Act? { AimedAtOldAct(s, a.i); }
  }

  /** An await with the flag up delivers the cancellation instead of parking; with the flag
      down it parks, on a future no cancel under way is aimed at: one that comes too late for
      an earlier future cannot hit this one. */
  lemma ParksUncancelled(run: seq<State>, k: nat)
    requires IsRun(Init, Next, run) && k < |run| && Enabled(run[k], Await)
    ensures var s, s' := run[k], Step(run[k], Await);
            && (s'.body.Parked? <==> !s.mustCancel)
            && (s.mustCancel ==> s'.body.Running? && !s'.mustCancel && s'.delivered == s.delivered + 1)
            && (s'.body.Parked? ==>
                  s'.body.pending && forall i :: 0 <= i < |s'.actors| && s'.actors[i].Hit? ==> s'.actors[i].fut != s'.body.fut)
  {
    forall s, t | AimedAtOld(s) && Next(s, t) ensures AimedAtOld(t) {
      var a :| Enabled(s, a) && t == Step(s, a);
      AimedAtOldStep(s, a);
    }
    Always(Init, Next, AimedAtOld, run, k);
  }

  // ----- no more deliveries than requests -----

  /** A request that is counted and has not taken effect yet. */
  function Underway(x: Actor): int { Bit(x.Look? || x.Hit? || x.Flag?) }

  ghost predicate PaidFor(s: State) { s.delivered + Bit(s.mustCancel) + Sum(Underway, s.actors) <= s.requests }

  lemma PaidForAct(s: State, i: nat)
    requires PaidFor(s) && Enabled(s, Act(i))
    ensures PaidFor(ActStep(s, i))
  {
    var s' := ActStep(s, i);
    Update(Underway, s.actors, i, s'.actors[i]);
    ActPays(s, i);
  }

  lemma ActPays(s: State, i: nat)
    requires Enabled(s, Act(i))
    ensures var s' := ActStep(s, i);
            && |s'.actors| == |s.actors| && s'.actors == s.actors[i := s'.actors[i]]
            && s'.delivered + Bit(s'.mustCancel) + Underway(s'.actors[i]) - s'.requests
               <= s.delivered + Bit(s.mustCancel) + Underway(s.actors[i]) - s.requests
  {
  }

  lemma PaidForStep(s: State, a: Action)
    requires PaidFor(s) && Enabled(s, a)
    ensures PaidFor(Step(s, a))
  {
    if a.Act? {
      PaidForAct(s, a.i);
    } else if a.TimerFires? || a.OutsideCancel? || a.OutsideUncancel? {
      Update(Underway, s.actors, a.i, Step(s, a).actors[a.i]);
    }
  }

  /** In every run, cancellations reach the task no more often than they were asked for: a
      request is delivered once, at a future or at an await, or withdrawn. */
  lemma NoDeliveryUnasked(run: seq<State>, k: nat)
    requires IsRun(Init, Next, run) && k < |run|
    ensures run[k].delivered + Bit(run[k].mustCancel) <= run[k].requests
  {
    forall s | Init(s) ensures PaidFor(s) { AllZero(Underway, s.actors); }
    forall s, t | PaidFor(s) && Next(s, t) ensures PaidFor(t) {
      var a :| Enabled(s, a) && t == Step(s, a);
      PaidForStep(s, a);
    }
    Always(Init, Next, PaidFor, run, k);
    AtLeastEach(Underway, run[k].actors, 0);
  }

  // ----- the scope does not leak -----

  /** After the scope: no timer callback is cancelling the task or ever can, the scope's
      net effect on the counter is nil, the counter is what outside requests made it, and
      a cancellation flag still up has an outside request behind it, or is being
      withdrawn. */
  lemma ScopeDoesNotLeak(run: seq<State>, k: nat)
    requires IsRun(Init, Next, run) && k < |run| && run[k].body.Left?
    ensures var s := run[k];
            && (forall i :: 0 <= i < |s.actors| ==> !TimerCancelling(s.actors[i]))
            && s.charged == 0
            && s.count == Standing(s) && s.count >= 0
            && (s.mustCancel ==> s.count > 0 || WithdrawPending(s))
    ensures forall a :: Enabled(run[k], a) ==> Step(run[k], a).body == run[k].body && Step(run[k], a).charged == 0
  {
    RunInv(run, k);
    var s := run[k];
    AtLeastEach(InFlight, s.actors, 0);
    forall a | Enabled(s, a) ensures Step(s, a).body == s.body && Step(s, a).charged == 0 {
      StepInv(s, a);
      AfterwardsStays(s, a);
    }
  }

  lemma AfterwardsStays(s: State, a: Action)
    requires Enabled(s, a) && Inv(s) && s.body.Left?
    ensures Step(s, a).body == s.body && Step(s, a).scope == s.scope
  {
    if a.Act? { assert ActStep(s, a.i).body == s.body; }
  }

  /** Whoever has left the scope left it with TimeoutError if and only if a timer callback
      got in before the exit took the lock, the body ended in a cancellation, and no outside
      request was standing when the exit read the counter. */
  lemma TimeoutRaisedExactly(run: seq<State>, k: nat)
    requires IsRun(Init, Next, run) && k < |run| && run[k].body.Left?
    ensures run[k].body.raised <==> run[k].timerWon && run[k].body.et.Cancelled? && run[k].owed == 0
  {
    RunInv(run, k);
  }

  /** None standing means that no finished request is left to withdraw and none is in flight. */
  lemma NoneStanding(s: State)
    ensures Standing(s) == 0 <==> s.credit == 0 && forall i :: 0 <= i < |s.actors| ==> InFlight(s.actors[i]) == 0
  {
    AtLeastEach(InFlight, s.actors, 0);
    if Standing(s) == 0 {
      forall i | 0 <= i < |s.actors| ensures InFlight(s.actors[i]) == 0 { AtLeastEach(InFlight, s.actors, i); }
    } else if forall i :: 0 <= i < |s.actors| ==> InFlight(s.actors[i]) == 0 {
      AllZero(InFlight, s.actors);
    }
  }

  // ----- the same verdict, read off the run -----

  /** Between states `i` and `i + 1` a timer callback gets in. */
  predicate TimerGetsIn(run: seq<State>, i: nat) {
    i + 1 < |run| && run[i].scope.Entered? && run[i + 1].scope.Expiring?
  }

  /** Between states `j` and `j + 1` the exit gives its verdict on a lapsed deadline. */
  predicate VerdictFalls(run: seq<State>, j: nat) {
    j + 1 < |run| && run[j].body.Reading? && run[j + 1].body.Left?
  }

  lemma StepTimer(s: State, t: State)
    requires Inv(s) && Next(s, t)
    ensures t.timerWon <==> s.timerWon || (s.scope.Entered? && t.scope.Expiring?)
  {
    var a :| Enabled(s, a) && t == Step(s, a);
    if a.Act? { ActTimer(s, a.i); }
  }

  lemma ActTimer(s: State, i: nat)
    requires LockOk(s) && Enabled(s, Act(i))
    ensures var t := ActStep(s, i);
            t.timerWon <==> s.timerWon || (s.scope.Entered? && t.scope.Expiring?)
  {
    if Cancelling(s.actors[i]) { assert ActStep(s, i).scope == s.scope && ActStep(s, i).timerWon == s.timerWon; }
  }

  lemma TimerAt(run: seq<State>, k: nat)
    requires IsRun(Init, Next, run) && k < |run|
    ensures k == 0 ==> !run[k].timerWon
    ensures k > 0 ==> (run[k].timerWon <==> run[k - 1].timerWon || TimerGetsIn(run, k - 1))
  {
    if k > 0 {
      RunInv(run, k - 1);
      assert Next(run[k - 1], run[k - 1 + 1]);
      StepTimer(run[k - 1], run[k]);
    }
  }

  /** A fact that starts false and turns true only at certain moments is true exactly if
      one of them has been. */
  lemma {:induction false} TimerWonIsHistory(run: seq<State>, k: nat)
    requires k < |run|
    requires forall m :: 0 <= m < |run| ==>
               if m == 0 then !run[m].timerWon else run[m].timerWon <==> run[m - 1].timerWon || TimerGetsIn(run, m - 1)
    ensures run[k].timerWon <==> exists i :: 0 <= i < k && TimerGetsIn(run, i)
  {
    assert if k == 0 then !run[k].timerWon else run[k].timerWon <==> run[k - 1].timerWon || TimerGetsIn(run, k - 1);
    if k > 0 { TimerWonIsHistory(run, k - 1); }
  }

  lemma WonByHistory(run: seq<State>, k: nat)
    requires IsRun(Init, Next, run) && k < |run|
    ensures run[k].timerWon <==> exists i :: 0 <= i < k && TimerGetsIn(run, i)
  {
    forall m | 0 <= m < |run|
      ensures if m == 0 then !run[m].timerWon else run[m].timerWon <==> run[m - 1].timerWon || TimerGetsIn(run, m - 1)
    {
      TimerAt(run, m);
    }
    TimerWonIsHistory(run, k);
  }

  lemma StepsToLeft(s: State, t: State)
    requires Inv(s) && Next(s, t) && t.body.Left? && t.timerWon
    ensures if s.body.Left? then s.timerWon && t.owed == s.owed else s.body.Reading? && t.owed == Standing(s)
  {
    var a :| Enabled(s, a) && t == Step(s, a);
    if a.Act? { ActKeepsVerdict(s, a.i); }
  }

  lemma {:induction false} VerdictHasFallen(run: seq<State>, k: nat) returns (j: nat)
    requires IsRun(Init, Next, run) && k < |run| && run[k].body.Left? && run[k].timerWon
    ensures j < k && VerdictFalls(run, j)
  {
    if k > 0 {
      RunInv(run, k - 1);
      assert Next(run[k - 1], run[k - 1 + 1]);
      StepsToLeft(run[k - 1], run[k]);
      if run[k - 1].body.Left? { j := VerdictHasFallen(run, k - 1); } else { j := k - 1; }
    }
  }

  ghost predicate LeftOwing(s: State, owed: int) { Inv(s) && s.body.Left? && s.timerWon && s.owed == owed }

  lemma OwedStays(run: seq<State>, j: nat, k: nat)
    requires IsRun(Init, Next, run) && j < k < |run| && VerdictFalls(run, j)
    ensures run[k].body.Left? && run[k].owed == Standing(run[j])
  {
    RunInv(run, j);
    RunInv(run, j + 1);
    assert Next(run[j], run[j + 1]);
    var a :| Enabled(run[j], a) && run[j + 1] == Step(run[j], a);
    if a.Act? { ActKeepsVerdict(run[j], a.i); }
    forall s, t | LeftOwing(s, Standing(run[j])) && Next(s, t) ensures LeftOwing(t, Standing(run[j])) {
      var b :| Enabled(s, b) && t == Step(s, b);
      StepInv(s, b);
      AfterwardsStays(s, b);
      if b.Act? { ActKeepsVerdict(s, b.i); }
    }
    Onward(Init, Next, s => LeftOwing(s, Standing(run[j])), run, j + 1, k);
  }

  /** Over any run that leaves the scope: TimeoutError was raised if and only if the body
      ended in a cancellation, a timer callback got in on the way, and nothing stood
      outside at the moment the verdict fell. */
  lemma TimeoutRaisedByHistory(run: seq<State>, k: nat)
    requires IsRun(Init, Next, run) && k < |run| && run[k].body.Left?
    ensures run[k].body.raised <==>
            && run[k].body.et.Cancelled?
            && (exists i :: 0 <= i < k && TimerGetsIn(run, i))
            && (exists j :: 0 <= j < k && VerdictFalls(run, j) && Standing(run[j]) == 0)
  {
    TimeoutRaisedExactly(run, k);
    WonByHistory(run, k);
    if run[k].timerWon {
      var j := VerdictHasFallen(run, k);
      OwedStays(run, j, k);
    }
    forall j | 0 <= j < k && VerdictFalls(run, j) ensures run[k].owed == Standing(run[j]) { OwedStays(run, j, k); }
  }
}

/** `Task`'s cancellation fields and `Timeout` as objects, undisturbed. */
module TimeoutObjects {
  import opened Options
  import opened Timeouts

  class Task {
    var count: int
    var mustCancel: bool
    var parkedOn: Option<bool>   // `_fut_waiter`: is there one, and is it still pending

    constructor ()
      ensures count == 0 && !mustCancel && parkedOn == None
    {
      count, mustCancel, parkedOn := 0, false, None;
    }

    method Cancel()
      modifies this
      ensures count == old(count) + 1
      ensures old(parkedOn) == Some(true) ==> parkedOn == Some(false) && mustCancel == old(mustCancel)
      ensures old(parkedOn) != Some(true) ==> parkedOn == old(parkedOn) && mustCancel
    {
      count := count + 1;
      if parkedOn == None {
        mustCancel := true;
        return;
      }
      if parkedOn == Some(true) {
        parkedOn := Some(false);
        return;
      }
      mustCancel := true;
    }

    method Uncancel() returns (left: int)
      modifies this`count, this`mustCancel
      ensures left == count == (if old(count) > 0 then old(count) - 1 else old(count))
      ensures mustCancel == (old(mustCancel) && old(count) != 1)
    {
      if count > 0 {
        count := count - 1;
        if count == 0 { mustCancel := false; }
      }
      left := count;
    }
  }

  class Timeout {
    var scope: Scope
    const task: Task

    constructor (task: Task)
      ensures scope == Entered && this.task == task
    {
      scope := Entered;
      this.task := task;
    }

    method OnTimeout()
      modifies this, task
      ensures old(scope) != Entered ==>
                && scope == old(scope) && task.count == old(task.count)
                && task.mustCancel == old(task.mustCancel) && task.parkedOn == old(task.parkedOn)
      ensures old(scope) == Entered ==>
                && scope == Expiring && task.count == old(task.count) + 1
                && task.parkedOn == (if old(task.parkedOn) == Some(true) then Some(false) else old(task.parkedOn))
                && task.mustCancel == (old(task.mustCancel) || old(task.parkedOn) != Some(true))
    {
      if scope != Entered { return; }
      scope := Expiring;
      task.Cancel();
    }

    method Exit(et: Ending) returns (raised: bool)
      modifies this, task
      ensures scope == (match old(scope) case Entered => Exited case Expiring => Expired case other => other)
      ensures old(scope) != Expiring ==> !raised && task.count == old(task.count) && task.mustCancel == old(task.mustCancel)
      ensures old(scope) == Expiring && old(task.count) > 0 ==>
                && task.count == old(task.count) - 1
                && task.mustCancel == (old(task.mustCancel) && task.count > 0)
                && (raised <==> task.count == 0 && et.Cancelled?)
      ensures old(scope) == Expiring && old(task.count) <= 0 ==>
                && task.count == old(task.count) && task.mustCancel == old(task.mustCancel)
                && (raised <==> et.Cancelled?)
      ensures task.parkedOn == old(task.parkedOn)
    {
      var expiring := scope == Expiring;
      if expiring {
        scope := Expired;
      } else if scope == Entered {
        scope := Exited;
      }
      raised := false;
      if expiring {
        var left := task.Uncancel();
        raised := left <= 0 && et.Cancelled?;
      }
    }

    /** A deadline inside the scope, in either order with the exit, leaves the task's
        counter as it was. */
    method FireAndExit(deadlineFirst: bool, et: Ending) returns (raised: bool)
      requires scope == Entered && task.count >= 0
      modifies this, task
      ensures task.count == old(task.count)
      ensures raised <==> deadlineFirst && et.Cancelled? && task.count == 0
      ensures task.count == 0 && !old(task.mustCancel) ==> !task.mustCancel
    {
      if deadlineFirst {
        OnTimeout();
        raised := Exit(et);
      } else {
        raised := Exit(et);
        OnTimeout();
      }
    }
  }
}
