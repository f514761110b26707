/** `_FdHandle` as an object, arming itself on its `ScheduledIO` with nobody else moving. */
module FdHandleObjects {
  import opened Options
  import opened Readiness
  import opened ScheduledIOs
  import opened FdHandles

  class FdHandle {
    const sio: ScheduledIO
    const d: Direction
    const id: Callback
    var active: bool
    var queued: nat

    constructor (sio: ScheduledIO, d: Direction, id: Callback)
      ensures this.sio == sio && this.d == d && this.id == id && active && queued == 0
    {
      this.sio, this.d, this.id := sio, d, id;
      active, queued := true, 0;
    }

    method Cancel()
      modifies this`active
      ensures !active
    {
      active := false;
    }

    /** The slots with this handle's callback in place. */
    ghost function Parked(slots: WakeSet): WakeSet
    {
      if d.Reader? then slots.(readerCb := Some(id)) else slots.(writerCb := Some(id))
    }

    /** `_arm` against a kernel whose level is `level` throughout. A quiet direction is
        parked at once; a ready one is dispatched; a stale bit is cleared and the handle
        parked; and on a registration that is gone, whose SHUTDOWN bit no clear removes,
        the loop gives up after its retries and dispatches. */
    method ArmLoop(level: Bits)
      requires sio.Valid()
      modifies this`queued, sio
      ensures sio.Valid()
      ensures !active ==>
                queued == old(queued) && sio.slots == old(sio.slots) && sio.status == old(sio.status)
      ensures active && Armable(old(sio.status), d) ==>
                queued == old(queued) && sio.slots == Parked(old(sio.slots)) && sio.status == old(sio.status)
      ensures active && !Armable(old(sio.status), d) && Shows(level, d) ==>
                queued == old(queued) + 1 && sio.slots == old(sio.slots) && sio.status == old(sio.status)
      ensures active && !Armable(old(sio.status), d) && !Shows(level, d) && !old(sio.status).shutdown ==>
                queued == old(queued) && sio.slots == Parked(old(sio.slots)) && sio.status == Consume(old(sio.status), d)
      ensures active && !Shows(level, d) && old(sio.status).shutdown ==>
                queued == old(queued) + 1 && sio.slots == old(sio.slots) && sio.status == Consume(old(sio.status), d)
    {
      var attempts := 0;
      while active
        invariant sio.Valid() && attempts < ARM_RETRIES
        invariant queued == old(queued) && sio.slots == old(sio.slots)
        invariant attempts == 0 ==> sio.status == old(sio.status)
        invariant attempts > 0 ==>
          sio.status == Consume(old(sio.status), d) && !Shows(level, d) && !Armable(old(sio.status), d)
        invariant attempts > 0 ==> active
        invariant attempts > 1 ==> old(sio.status).shutdown
        decreases ARM_RETRIES - attempts
      {
        var ready := sio.ArmCb(d, id);
        if !ready { return; }
        if Shows(level, d) {
          queued := queued + 1;
          return;
        }
        attempts := attempts + 1;
        if attempts >= ARM_RETRIES {
          queued := queued + 1;
          return;
        }
        sio.ClearDirection(d);
      }
    }
  }
}

/** The step system's `_arm` with nobody else moving, against the object's loop. */
module FdHandleAlone {
  import opened Options
  import opened Readiness
  import opened FdHandles

  predicate InArm(pc: Pc) {
    && (pc.Arm? || Arming(pc) || Reconciling(pc) || pc.Requeue?)
    && (pc.Requeue? || pc.n < ARM_RETRIES)
  }

  /** Thread `t` is inside `_arm`, and has the lock or nobody does. */
  predicate Ready(s: State, t: nat) {
    && t < |s.threads| && InArm(s.threads[t])
    && s.lock == (if s.threads[t].ArmStore? then Some(t) else None)
  }

  /** How much of the loop is left at most. */
  function Rank(pc: Pc): nat
    requires InArm(pc)
  {
    if pc.Requeue? then 1
    else
      var round := 10 * (ARM_RETRIES - pc.n);
      match pc
      case ClearStale(_, _) => round + 10
      case Arm(_, _) => round + 9
      case ArmFirst(_, _) => round + 8
      case ArmAgain(_, _) => round + 7
      case ArmStore(_, _) => round + 6
      case LoadTick(_, _) => round + 5
      case StoreTick(_, _, _) => round + 4
      case _ => round + 3
  }

  lemma GoesOn(s: State, t: nat)
    requires Ready(s, t)
    ensures Enabled(s, Proceed(t))
    ensures var s' := ThreadMove(s, t);
            s'.threads[t].Idle? || (Ready(s', t) && Rank(s'.threads[t]) < Rank(s.threads[t]))
  {
  }

  /** The loop to its end. */
  function Alone(s: State, t: nat): State
    requires Ready(s, t)
    decreases Rank(s.threads[t])
  {
    GoesOn(s, t);
    var s' := ThreadMove(s, t);
    if s'.threads[t].Idle? then s' else Alone(s', t)
  }

  /** The handle's side, the word and the other side at the end. */
  predicate Ends(s: State, s': State, d: Direction, parked: bool, dispatched: nat, status: Status) {
    && Get(s', d).parked == parked && Get(s', d).queued == Get(s, d).queued + dispatched && s'.status == status
    && Get(s', Opposite(d)) == Get(s, Opposite(d)) && s'.level == s.level && s'.edge == s.edge
  }

  lemma CancelledAlone(s: State, t: nat, d: Direction, n: nat)
    requires Ready(s, t) && s.threads[t] == Arm(d, n) && !Get(s, d).active
    ensures Ends(s, Alone(s, t), d, Get(s, d).parked, 0, s.status)
  {
  }

  /** A quiet direction is parked at once. */
  lemma QuietAlone(s: State, t: nat, d: Direction, n: nat)
    requires Ready(s, t) && s.threads[t] == Arm(d, n) && Get(s, d).active && Armable(s.status, d)
    ensures Ends(s, Alone(s, t), d, true, 0, s.status)
  {
    GoesOn(s, t);
    var s1 := ThreadMove(s, t);
    GoesOn(s1, t);
    var s2 := ThreadMove(s1, t);
    GoesOn(s2, t);
    var s3 := ThreadMove(s2, t);
    assert Alone(s, t) == Alone(s1, t) == Alone(s2, t) == Alone(s3, t) == ThreadMove(s3, t);
  }

  /** From the cached bit to the answer of the kernel. */
  lemma AsksAlone(s: State, t: nat, d: Direction, n: nat) returns (s': State)
    requires Ready(s, t) && s.threads[t] == Arm(d, n) && Get(s, d).active && !Armable(s.status, d)
    ensures Ready(s', t) && Alone(s, t) == Alone(s', t)
    ensures s'.threads[t] == (if Shows(s.level, d) || n + 1 >= ARM_RETRIES then Requeue(d) else ClearStale(d, n + 1))
    ensures s' == Put(Move(s, t, s'.threads[t]), d, Get(s, d).(seen := s.status.edges))
  {
    GoesOn(s, t);
    var s1 := ThreadMove(s, t);
    GoesOn(s1, t);
    var s2 := ThreadMove(s1, t);
    assert s2 == Move(s, t, LoadTick(d, n)) && Alone(s, t) == Alone(s1, t) == Alone(s2, t);
    s' := ProbesAlone(s2, t, d, n);
    assert s'.threads == s.threads[t := s'.threads[t]];
  }

  lemma ProbesAlone(s: State, t: nat, d: Direction, n: nat) returns (s': State)
    requires Ready(s, t) && s.threads[t] == LoadTick(d, n)
    ensures Ready(s', t) && Alone(s, t) == Alone(s', t)
    ensures s'.threads[t] == (if Shows(s.level, d) || n + 1 >= ARM_RETRIES then Requeue(d) else ClearStale(d, n + 1))
    ensures s' == Put(Move(s, t, s'.threads[t]), d, Get(s, d).(seen := s.status.edges))
  {
    GoesOn(s, t);
    var s1 := ThreadMove(s, t);
    GoesOn(s1, t);
    var s2 := ThreadMove(s1, t);
    GoesOn(s2, t);
    s' := ThreadMove(s2, t);
    assert s'.threads == s.threads[t := s'.threads[t]];
    assert Alone(s, t) == Alone(s1, t) == Alone(s2, t) == Alone(s', t);
  }

  /** A ready direction is dispatched, and so is the last of the retries. */
  lemma ReadyAlone(s: State, t: nat, d: Direction, n: nat)
    requires Ready(s, t) && s.threads[t] == Arm(d, n) && Get(s, d).active && !Armable(s.status, d)
    requires Shows(s.level, d) || n + 1 >= ARM_RETRIES
    ensures Ends(s, Alone(s, t), d, Get(s, d).parked, 1, s.status)
  {
    var s1 := AsksAlone(s, t, d, n);
    assert Alone(s1, t) == ThreadMove(s1, t);
  }

  /** A stale bit is cleared, and the loop comes round. */
  lemma StaleAlone(s: State, t: nat, d: Direction, n: nat) returns (s': State)
    requires Ready(s, t) && s.threads[t] == Arm(d, n) && Get(s, d).active && !Armable(s.status, d)
    requires !Shows(s.level, d) && n + 1 < ARM_RETRIES
    ensures Ready(s', t) && Alone(s, t) == Alone(s', t) && s'.threads[t] == Arm(d, n + 1)
    ensures Ends(s, s', d, Get(s, d).parked, 0, Consume(s.status, d)) && Get(s', d).active
  {
    var s1 := AsksAlone(s, t, d, n);
    GoesOn(s1, t);
    s' := ThreadMove(s1, t);
  }

  /** On a registration that is gone, the retries run out. */
  lemma {:induction false} GoneAlone(s: State, t: nat, d: Direction, n: nat)
    requires Ready(s, t) && s.threads[t] == Arm(d, n) && Get(s, d).active && s.status.shutdown && !Shows(s.level, d)
    requires n > 0 ==> !Shows(s.status.bits, d)
    ensures Ends(s, Alone(s, t), d, Get(s, d).parked, 1, Consume(s.status, d))
    decreases ARM_RETRIES - n
  {
    if n + 1 >= ARM_RETRIES {
      ReadyAlone(s, t, d, n);
    } else {
      var s' := StaleAlone(s, t, d, n);
      GoneAlone(s', t, d, n + 1);
    }
  }

  /** `_arm` undisturbed does what the object's loop does, case by case. */
  lemma ArmAlone(s: State, t: nat, d: Direction)
    requires Ready(s, t) && s.threads[t] == Arm(d, 0)
    ensures var s', side := Alone(s, t), Get(s, d);
            && (!side.active ==> Ends(s, s', d, side.parked, 0, s.status))
            && (side.active && Armable(s.status, d) ==> Ends(s, s', d, true, 0, s.status))
            && (side.active && !Armable(s.status, d) && Shows(s.level, d) ==> Ends(s, s', d, side.parked, 1, s.status))
            && (side.active && !Armable(s.status, d) && !Shows(s.level, d) && !s.status.shutdown ==>
                  Ends(s, s', d, true, 0, Consume(s.status, d)))
            && (side.active && !Shows(s.level, d) && s.status.shutdown ==>
                  Ends(s, s', d, side.parked, 1, Consume(s.status, d)))
  {
    if !Get(s, d).active {
      CancelledAlone(s, t, d, 0);
    } else if Armable(s.status, d) {
      QuietAlone(s, t, d, 0);
    } else if Shows(s.level, d) {
      ReadyAlone(s, t, d, 0);
    } else if s.status.shutdown {
      GoneAlone(s, t, d, 0);
    } else {
      var s' := StaleAlone(s, t, d, 0);
      QuietAlone(s', t, d, 1);
    }
  }

  /** Tearing the registration down, undisturbed, is the object's `Shutdown`: no direction can
      be armed any more, and whoever was parked is told. */
  lemma DeregisterAlone(s: State, d: Direction)
    requires s.registration.Live? && s.lock.None?
    ensures Enabled(s, Deregister) && Enabled(Step(s, Deregister), Deregister)
    ensures var s' := Step(Step(s, Deregister), Deregister);
            && s'.registration.Gone? && !Armable(s'.status, d) && !Get(s', d).parked
            && Get(s', d).told == Get(s, d).told + (if Get(s, d).parked then 1 else 0)
  {
  }
}
