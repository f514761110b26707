/** `ScheduledIO` as the object the source updates in place, with the packed word. */
module ScheduledIOs {
  import opened Options
  import opened Readiness

  type Callback = nat

  /** What was parked on the directions that just became ready. */
  datatype WakeSet = WakeSet(reader: Option<Callback>, writer: Option<Callback>,
                             readerCb: Option<Callback>, writerCb: Option<Callback>)

  const NO_ONE := WakeSet(None, None, None, None)

  /** The four waiter slots after a wake with `ready`, and what it took out of them. */
  function Left(slots: WakeSet, ready: Bits): WakeSet {
    var a := if Shows(ready, Reader) then slots.(reader := None, readerCb := None) else slots;
    if Shows(ready, Writer) then a.(writer := None, writerCb := None) else a
  }

  function Taken(slots: WakeSet, ready: Bits): WakeSet {
    WakeSet(if Shows(ready, Reader) then slots.reader else None,
            if Shows(ready, Writer) then slots.writer else None,
            if Shows(ready, Reader) then slots.readerCb else None,
            if Shows(ready, Writer) then slots.writerCb else None)
  }

  const ALL := Bits(true, true, true, true, true)

  class ScheduledIO {
    var readiness: Word
    var tickR: Word
    var tickW: Word
    var slots: WakeSet
    ghost var status: Status
    ghost var seenR: nat
    ghost var seenW: nat

    /** The packed fields pack what the ghost record says. */
    ghost predicate Valid()
      reads this
    {
      readiness == Pack(status) && tickR == Tick(seenR) && tickW == Tick(seenW)
    }

    ghost function Seen(d: Direction): nat
      reads this
    {
      if d.Reader? then seenR else seenW
    }

    constructor ()
      ensures Valid() && status == FRESH && slots == NO_ONE
    {
      readiness, tickR, tickW := 0, 0, 0;
      slots := NO_ONE;
      status, seenR, seenW := FRESH, 0, 0;
      new;
      FreshIsZero();
    }

    /** `arm_r_cb` and `arm_w_cb`: the callback is stored exactly when the direction is not
        ready and the registration not gone; otherwise the current tick is recorded. */
    method ArmCb(d: Direction, cb: Callback) returns (ready: bool)
      requires Valid()
      modifies this`slots, this`tickR, this`tickW, this`seenR, this`seenW
      ensures Valid()
      ensures ready <==> !Armable(status, d)
      ensures !ready ==>
                && slots == (if d.Reader? then old(slots).(readerCb := Some(cb)) else old(slots).(writerCb := Some(cb)))
                && seenR == old(seenR) && seenW == old(seenW)
      ensures ready ==>
                && slots == old(slots) && Seen(d) == status.edges
                && Seen(Opposite(d)) == old(Seen(Opposite(d)))
    {
      ArmTestPacks(status, d);
      ready := readiness & (Mask(d) | SHUTDOWN) != 0;
      if ready {
        RecordTick(d);
      } else if d.Reader? {
        slots := slots.(readerCb := Some(cb));
      } else {
        slots := slots.(writerCb := Some(cb));
      }
    }

    method RecordTick(d: Direction)
      requires Valid()
      modifies this`tickR, this`tickW, this`seenR, this`seenW
      ensures Valid()
      ensures Seen(d) == status.edges && Seen(Opposite(d)) == old(Seen(Opposite(d)))
    {
      TickOfPack(status);
      if d.Reader? {
        tickR := TickOf(readiness);
        seenR := status.edges;
      } else {
        tickW := TickOf(readiness);
        seenW := status.edges;
      }
    }

    /** `clear_r` and `clear_w`, guarded by the recorded tick. */
    method ClearDirection(d: Direction)
      requires Valid()
      modifies this`readiness, this`status
      ensures Valid()
      ensures status == Clear(old(status), d, Seen(d))
      ensures Seen(d) <= old(status).edges < Seen(d) + 256 ==>
                (status.bits == old(status).bits || old(status).edges == Seen(d))
    {
      ClearPacks(status, d, Seen(d));
      var tick := if d.Reader? then tickR else tickW;
      if TickOf(readiness) == tick {
        readiness := readiness & !Mask(d);
      }
      status := Clear(status, d, Seen(d));
    }

    /** `consume_r` and `consume_w`: drain the direction, reporting whether it showed anything. */
    method ConsumeDirection(d: Direction) returns (any: bool)
      requires Valid()
      modifies this`readiness, this`status
      ensures Valid()
      ensures any <==> Shows(old(status).bits, d)
      ensures status == Consume(old(status), d) && !Shows(status.bits, d)
    {
      any := AnyOf(d);
      if any { DropNow(d); }
    }

    method DropNow(d: Direction)
      requires Valid()
      modifies this`readiness, this`status
      ensures Valid() && status == Consume(old(status), d)
    {
      DropPacks(status, d);
      readiness := readiness & !Mask(d);
      status := Consume(status, d);
    }

    method AnyOf(d: Direction) returns (any: bool)
      requires Valid()
      ensures any <==> Shows(status.bits, d)
    {
      ShowsPacks(status, d);
      any := readiness & Mask(d) != 0;
    }

    method PublishEdge(ready: Bits)
      requires Valid()
      modifies this`readiness, this`status
      ensures Valid()
      ensures status == Publish(old(status), ready)
    {
      PublishPacks(status, ready);
      readiness := SetReadiness(readiness, PackBits(ready));
      status := Publish(status, ready);
    }

    /** Each direction that became ready hands out what is parked on it and is left empty;
        the other one keeps what it has. */
    method Wake(ready: Bits) returns (woken: WakeSet)
      modifies this`slots
      ensures woken == Taken(old(slots), ready) && slots == Left(old(slots), ready)
      ensures ready.readable || ready.readClosed || ready.error ==>
                && woken.reader == old(slots).reader && woken.readerCb == old(slots).readerCb
                && slots.reader == None && slots.readerCb == None
      ensures !ready.readable && !ready.readClosed && !ready.error ==>
                && woken.reader == None && woken.readerCb == None
                && slots.reader == old(slots).reader && slots.readerCb == old(slots).readerCb
      ensures ready.writable || ready.writeClosed || ready.error ==>
                && woken.writer == old(slots).writer && woken.writerCb == old(slots).writerCb
                && slots.writer == None && slots.writerCb == None
      ensures !ready.writable && !ready.writeClosed && !ready.error ==>
                && woken.writer == None && woken.writerCb == None
                && slots.writer == old(slots).writer && slots.writerCb == old(slots).writerCb
    {
      woken := NO_ONE;
      if Shows(ready, Reader) {
        woken := woken.(reader := slots.reader, readerCb := slots.readerCb);
        slots := slots.(reader := None, readerCb := None);
      }
      if Shows(ready, Writer) {
        woken := woken.(writer := slots.writer, writerCb := slots.writerCb);
        slots := slots.(writer := None, writerCb := None);
      }
    }

    /** From here on every arm reports ready, and nothing stays parked. */
    method Shutdown() returns (woken: WakeSet)
      requires Valid()
      modifies this`readiness, this`status, this`slots
      ensures Valid()
      ensures status == Shut(old(status)) && !Armable(status, Reader) && !Armable(status, Writer)
      ensures woken == old(slots) && slots == NO_ONE
    {
      ShutPacks(status);
      readiness := readiness | SHUTDOWN;
      status := Shut(status);
      woken := Wake(ALL);
    }
  }
}

/** Arming against publishing: any number of threads arm, publish and wake, clear,
    consume and shut down, one atomic operation or critical section at a time. */
module Arming {
  import opened Options
  import opened Readiness
  import opened Sums
  import opened Runs
  import ScheduledIOs

  type Callback = nat

  /** Where a thread is. */
  datatype Pc =
    | Idle
    | ArmFirst(d: Direction, cb: Callback)   // first look at the word
    | ArmAgain(d: Direction, cb: Callback)   // take the lock and look again
    | ArmStore(d: Direction, cb: Callback)   // under the lock, about to store
    | Waking(ready: Bits)                    // published, about to take the lock and wake
    | ShutWaking                             // SHUTDOWN set, about to wake both directions

  /** Four fields record history: `issued`, the callbacks passed to an arm; `refused`, those
      whose arm reported ready; `replaced`, those a later arm put another in place of;
      `taken`, those handed out by wakes. */
  datatype State = State(status: Status, reader: Option<Callback>, writer: Option<Callback>,
                         lock: Option<nat>, threads: seq<Pc>, taken: multiset<Callback>,
                         refused: multiset<Callback>, replaced: multiset<Callback>, issued: multiset<Callback>)

  datatype Action =
    | BeginArm(t: nat, d: Direction, cb: Callback)
    | Proceed(t: nat)
    | PublishEdge(t: nat, ready: Bits)
    | MarkShut(t: nat)
    | ClearNow(t: nat, d: Direction, seen: nat)
    | ConsumeNow(t: nat, d: Direction)

  function Slot(s: State, d: Direction): Option<Callback> { if d.Reader? then s.reader else s.writer }

  predicate Init(s: State) {
    && s.status == FRESH && s.reader.None? && s.writer.None? && s.lock.None?
    && (forall t :: 0 <= t < |s.threads| ==> s.threads[t] == Idle)
    && s.taken == multiset{} && s.refused == multiset{} && s.replaced == multiset{} && s.issued == multiset{}
  }

  predicate Enabled(s: State, a: Action) {
    && a.t < |s.threads|
    && (if a.Proceed? then
          match s.threads[a.t]
          case Idle => false
          case ArmFirst(_, _) => true
          case ArmStore(_, _) => s.lock == Some(a.t)
          case _ => s.lock.None?
        else s.threads[a.t].Idle?)
  }

  function Move(s: State, t: nat, pc: Pc): State
    requires t < |s.threads|
  {
    s.(threads := s.threads[t := pc])
  }

  /** The arm reports ready and the callback goes back. */
  function Refuse(s: State, t: nat, cb: Callback): State
    requires t < |s.threads|
  {
    Move(s, t, Idle).(refused := s.refused + multiset{cb})
  }

  /** The callback goes into its direction's slot. */
  function Store(s: State, t: nat, d: Direction, cb: Callback): State
    requires t < |s.threads|
  {
    var gone := if Slot(s, d).Some? then multiset{Slot(s, d).value} else multiset{};
    var s1 := Move(s, t, Idle).(lock := None, replaced := s.replaced + gone);
    if d.Reader? then s1.(reader := Some(cb)) else s1.(writer := Some(cb))
  }

  /** Take the callback of one direction, if it is to be woken and there is one. */
  function TakeSlot(s: State, d: Direction, ready: Bits): (s': State)
    ensures s'.threads == s.threads && s'.status == s.status && s'.lock == s.lock
  {
    if !Shows(ready, d) || Slot(s, d).None? then s
    else
      var s1 := s.(taken := s.taken + multiset{Slot(s, d).value});
      if d.Reader? then s1.(reader := None) else s1.(writer := None)
  }

  /** The critical section of `wake`. */
  function Emptied(s: State, ready: Bits): (s': State)
    ensures s'.threads == s.threads && s'.status == s.status && s'.lock == s.lock
  {
    TakeSlot(TakeSlot(s, Reader, ready), Writer, ready)
  }

  function Step(s: State, a: Action): State
    requires Enabled(s, a)
  {
    match a
    case BeginArm(t, d, cb) => Move(s, t, ArmFirst(d, cb)).(issued := s.issued + multiset{cb})
    case PublishEdge(t, ready) => Move(s, t, Waking(ready)).(status := Publish(s.status, ready))
    case MarkShut(t) => Move(s, t, ShutWaking).(status := Shut(s.status))
    case ClearNow(t, d, seen) => s.(status := Clear(s.status, d, seen))
    case ConsumeNow(t, d) => s.(status := Consume(s.status, d))
    case Proceed(t) =>
      match s.threads[t]
      case Idle => s
      case ArmFirst(d, cb) => if Armable(s.status, d) then Move(s, t, ArmAgain(d, cb)) else Refuse(s, t, cb)
      case ArmAgain(d, cb) =>
        if Armable(s.status, d) then Move(s, t, ArmStore(d, cb)).(lock := Some(t)) else Refuse(s, t, cb)
      case ArmStore(d, cb) => Store(s, t, d, cb)
      case Waking(ready) => Emptied(Move(s, t, Idle), ready)
      case ShutWaking => Emptied(Move(s, t, Idle), Bits(true, true, true, true, true))
  }

  ghost predicate Next(s: State, t: State) {
    exists a :: Enabled(s, a) && t == Step(s, a)
  }

  // ----- no lost edge -----

  /** Thread position `pc` will look at direction `d`'s slot under the lock. */
  predicate Wakes(pc: Pc, d: Direction) {
    pc.ShutWaking? || (pc.Waking? && Shows(pc.ready, d))
  }

  ghost predicate WakePending(s: State, d: Direction) {
    exists t :: 0 <= t < |s.threads| && Wakes(s.threads[t], d)
  }

  /** A stored callback on a direction that shows readiness, or whose registration is
      gone, has a publisher between publishing and waking. */
  ghost predicate NoLostEdge(s: State, d: Direction) {
    Slot(s, d).Some? && !Armable(s.status, d) ==> WakePending(s, d)
  }

  /** The same for a callback about to be stored. */
  ghost predicate StoreSafe(s: State, t: nat)
    requires t < |s.threads|
  {
    s.threads[t].ArmStore? ==>
      s.lock == Some(t) && (!Armable(s.status, s.threads[t].d) ==> WakePending(s, s.threads[t].d))
  }

  ghost predicate EdgeInv(s: State) {
    && NoLostEdge(s, Reader) && NoLostEdge(s, Writer)
    && forall t :: 0 <= t < |s.threads| ==> StoreSafe(s, t)
  }

  /** A thread that is not idle waits for its own next step. */
  lemma OthersStay(s: State, a: Action, u: nat)
    requires Enabled(s, a) && u < |s.threads|
    ensures |Step(s, a).threads| == |s.threads|
    ensures s.threads[u] != Idle && a != Proceed(u) ==> Step(s, a).threads[u] == s.threads[u]
  {
    if a.Proceed? { ProceedsAlone(s, a.t); }
  }

  lemma ProceedsAlone(s: State, t: nat)
    requires Enabled(s, Proceed(t))
    ensures var s' := Step(s, Proceed(t));
            |s'.threads| == |s.threads| && s'.threads == s.threads[t := s'.threads[t]]
  {
  }

  /** A pending wake stays pending until that thread's own next step. */
  lemma PendingPersists(s: State, a: Action, d: Direction, u: nat)
    requires Enabled(s, a) && u < |s.threads| && Wakes(s.threads[u], d) && a != Proceed(u)
    ensures WakePending(Step(s, a), d)
  {
    OthersStay(s, a, u);
    assert Wakes(Step(s, a).threads[u], d);
  }

  /** A direction that stops being armable has just been published or shut, and its wake
      is still to come. */
  lemma WakeFollows(s: State, a: Action, d: Direction)
    requires Enabled(s, a) && Armable(s.status, d) && !Armable(Step(s, a).status, d)
    ensures WakePending(Step(s, a), d)
  {
    assert a.PublishEdge? || a.MarkShut?;
    assert Wakes(Step(s, a).threads[a.t], d);
  }

  lemma NoLostEdgeStep(s: State, a: Action, d: Direction)
    requires EdgeInv(s) && Enabled(s, a)
    ensures NoLostEdge(Step(s, a), d)
  {
    assert StoreSafe(s, a.t) && NoLostEdge(s, d);
    if Slot(Step(s, a), d).Some? && !Armable(Step(s, a).status, d) {
      if Armable(s.status, d) { WakeFollows(s, a, d); } else { StillPending(s, a, d); }
    }
  }

  lemma StillPending(s: State, a: Action, d: Direction)
    requires NoLostEdge(s, d) && Enabled(s, a) && StoreSafe(s, a.t)
    requires Slot(Step(s, a), d).Some? && !Armable(s.status, d)
    ensures WakePending(Step(s, a), d)
  {
    SlotBefore(s, a, d);
    var u :| 0 <= u < |s.threads| && Wakes(s.threads[u], d);
    PendingPersists(s, a, d, u);
  }

  /** A slot that is full was full before or has just been stored to, and no wake that
      covers it has just run. */
  lemma SlotBefore(s: State, a: Action, d: Direction)
    requires Enabled(s, a) && Slot(Step(s, a), d).Some?
    ensures Slot(s, d).Some? || (s.threads[a.t].ArmStore? && s.threads[a.t].d == d)
    ensures a.Proceed? ==> !Wakes(s.threads[a.t], d)
  {
  }

  lemma StoreSafeStep(s: State, a: Action, t: nat)
    requires EdgeInv(s) && Enabled(s, a) && t < |s.threads|
    ensures t < |Step(s, a).threads| && StoreSafe(Step(s, a), t)
  {
    OthersStay(s, a, t);
    assert StoreSafe(s, t);
    if s.threads[t].ArmStore? && a != Proceed(t) {
      StillToStore(s, a, t);
    } else if Step(s, a).threads[t].ArmStore? {
      assert a == Proceed(t) && s.threads[t].ArmAgain?;
    }
  }

  lemma StillToStore(s: State, a: Action, t: nat)
    requires t < |s.threads| && StoreSafe(s, t) && Enabled(s, a) && s.threads[t].ArmStore? && a != Proceed(t)
    ensures t < |Step(s, a).threads| && StoreSafe(Step(s, a), t)
  {
    var d := s.threads[t].d;
    OthersStay(s, a, t);
    assert Step(s, a).lock == s.lock;
    if !Armable(Step(s, a).status, d) {
      if Armable(s.status, d) {
        WakeFollows(s, a, d);
      } else {
        var u :| 0 <= u < |s.threads| && Wakes(s.threads[u], d);
        PendingPersists(s, a, d, u);
      }
    }
  }

  lemma EdgeStep(s: State, a: Action)
    requires EdgeInv(s) && Enabled(s, a)
    ensures EdgeInv(Step(s, a))
  {
    NoLostEdgeStep(s, a, Reader);
    NoLostEdgeStep(s, a, Writer);
    OthersStay(s, a, a.t);
    forall t | 0 <= t < |Step(s, a).threads| ensures StoreSafe(Step(s, a), t) { StoreSafeStep(s, a, t); }
  }

  // ----- every callback is accounted for -----

  predicate Arms(pc: Pc, cb: Callback) {
    (pc.ArmFirst? || pc.ArmAgain? || pc.ArmStore?) && pc.cb == cb
  }

  ghost function Weigh(cb: Callback): Pc -> int { (pc: Pc) => Bit(Arms(pc, cb)) }

  /** How often `cb` is with a thread arming it, in a slot, given back, replaced or taken. */
  ghost function Places(s: State, cb: Callback): int {
    Sum(Weigh(cb), s.threads) + Bit(s.reader == Some(cb)) + Bit(s.writer == Some(cb))
    + s.refused[cb] + s.replaced[cb] + s.taken[cb]
  }

  ghost predicate Conserved(s: State) { forall cb: Callback :: Places(s, cb) == s.issued[cb] }

  lemma Moves(s: State, t: nat, pc: Pc, cb: Callback)
    requires t < |s.threads|
    ensures Sum(Weigh(cb), Move(s, t, pc).threads) == Sum(Weigh(cb), s.threads) - Bit(Arms(s.threads[t], cb)) + Bit(Arms(pc, cb))
  {
    Update(Weigh(cb), s.threads, t, pc);
  }

  lemma TakeKeeps(s: State, d: Direction, ready: Bits, cb: Callback)
    ensures Places(TakeSlot(s, d, ready), cb) == Places(s, cb)
  {
  }

  lemma LookConserves(s: State, t: nat, cb: Callback)
    requires Enabled(s, Proceed(t)) && (s.threads[t].ArmFirst? || s.threads[t].ArmAgain?)
    ensures Places(Step(s, Proceed(t)), cb) == Places(s, cb)
  {
    Moves(s, t, Step(s, Proceed(t)).threads[t], cb);
  }

  lemma StoreConserves(s: State, t: nat, cb: Callback)
    requires Enabled(s, Proceed(t)) && s.threads[t].ArmStore?
    ensures Places(Step(s, Proceed(t)), cb) == Places(s, cb)
  {
    Moves(s, t, Idle, cb);
  }

  lemma WakeConserves(s: State, t: nat, cb: Callback)
    requires Enabled(s, Proceed(t)) && (s.threads[t].Waking? || s.threads[t].ShutWaking?)
    ensures Places(Step(s, Proceed(t)), cb) == Places(s, cb)
  {
    var ready := if s.threads[t].Waking? then s.threads[t].ready else Bits(true, true, true, true, true);
    var s1 := Move(s, t, Idle);
    Moves(s, t, Idle, cb);
    TakeKeeps(s1, Reader, ready, cb);
    TakeKeeps(TakeSlot(s1, Reader, ready), Writer, ready, cb);
  }

  lemma ConservedStep(s: State, a: Action, cb: Callback)
    requires Enabled(s, a) && Places(s, cb) == s.issued[cb]
    ensures Places(Step(s, a), cb) == Step(s, a).issued[cb]
  {
    if !a.Proceed? {
      BeginConserves(s, a, cb);
    } else if s.threads[a.t].Waking? || s.threads[a.t].ShutWaking? {
      WakeConserves(s, a.t, cb);
    } else if s.threads[a.t].ArmStore? {
      StoreConserves(s, a.t, cb);
    } else {
      LookConserves(s, a.t, cb);
    }
  }

  lemma BeginConserves(s: State, a: Action, cb: Callback)
    requires Enabled(s, a) && !a.Proceed? && Places(s, cb) == s.issued[cb]
    ensures Places(Step(s, a), cb) == Step(s, a).issued[cb]
  {
    Moves(s, a.t, Step(s, a).threads[a.t], cb);
    assert s.threads[a.t := s.threads[a.t]] == s.threads;
  }

  ghost predicate Inv(s: State) { EdgeInv(s) && Conserved(s) }

  lemma StepInv(s: State, a: Action)
    requires Inv(s) && Enabled(s, a)
    ensures Inv(Step(s, a))
  {
    EdgeStep(s, a);
    forall cb: Callback ensures Places(Step(s, a), cb) == Step(s, a).issued[cb] { ConservedStep(s, a, cb); }
  }

  /** In every interleaving: a parked callback whose direction shows readiness is about to
      be woken; and every callback is, as often as it was passed to an arm, with a thread
      arming it, parked, given back because the direction was ready, replaced by a later
      arm, or taken by a wake. So none is handed out more often than it was armed. */
  lemma NoEdgeIsLost(run: seq<State>, k: nat, d: Direction)
    requires IsRun(Init, Next, run) && k < |run|
    ensures Slot(run[k], d).Some? && !Armable(run[k].status, d) ==> WakePending(run[k], d)
    ensures forall cb: Callback ::
              Sum(Weigh(cb), run[k].threads) + Bit(run[k].reader == Some(cb)) + Bit(run[k].writer == Some(cb))
              + run[k].refused[cb] + run[k].replaced[cb] + run[k].taken[cb] == run[k].issued[cb]
    ensures forall cb: Callback :: run[k].taken[cb] <= run[k].issued[cb]
  {
    forall s | Init(s) ensures Inv(s) {
      forall cb: Callback ensures Places(s, cb) == s.issued[cb] { AllZero(Weigh(cb), s.threads); }
    }
    forall s, t | Inv(s) && Next(s, t) ensures Inv(t) {
      var a :| Enabled(s, a) && t == Step(s, a);
      StepInv(s, a);
    }
    Always(Init, Next, Inv, run, k);
    assert NoLostEdge(run[k], d);
    forall cb: Callback ensures Places(run[k], cb) == run[k].issued[cb] && run[k].taken[cb] <= run[k].issued[cb] {
      AtLeastEach(Weigh(cb), run[k].threads, 0);
    }
  }

  // ----- the undisturbed calls, against the object -----

  /** The callback slots as the object keeps them. */
  function SlotsOf(s: State): ScheduledIOs.WakeSet { ScheduledIOs.WakeSet(None, None, s.reader, s.writer) }

  function Handed(woken: ScheduledIOs.WakeSet): multiset<Callback> {
    (if woken.readerCb.Some? then multiset{woken.readerCb.value} else multiset{})
    + (if woken.writerCb.Some? then multiset{woken.writerCb.value} else multiset{})
  }

  /** Taking one direction's callback. */
  lemma TakeIsTheObjects(s: State, d: Direction, ready: Bits)
    ensures var s' := TakeSlot(s, d, ready);
            && Slot(s', Opposite(d)) == Slot(s, Opposite(d)) && s'.refused == s.refused && s'.replaced == s.replaced
            && Slot(s', d) == (if Shows(ready, d) then None else Slot(s, d))
            && s'.taken == s.taken + (if Shows(ready, d) && Slot(s, d).Some? then multiset{Slot(s, d).value} else multiset{})
  {
  }

  /** The critical section of a wake does to the slots what the object's `Wake` does, and
      hands out what it hands out. */
  lemma EmptiedIsTheObjects(s: State, ready: Bits)
    ensures var s' := Emptied(s, ready);
            && SlotsOf(s') == ScheduledIOs.Left(SlotsOf(s), ready)
            && s'.taken == s.taken + Handed(ScheduledIOs.Taken(SlotsOf(s), ready))
  {
    TakeIsTheObjects(s, Reader, ready);
    TakeIsTheObjects(TakeSlot(s, Reader, ready), Writer, ready);
  }

  /** Publishing an edge and waking, undisturbed, is the object's `PublishEdge` and `Wake`:
      the bits and one more edge are there, and whoever they concern has been handed out. */
  lemma PublishAlone(s: State, t: nat, ready: Bits)
    requires Enabled(s, PublishEdge(t, ready)) && s.lock.None?
    ensures var s1 := Step(s, PublishEdge(t, ready));
            && Enabled(s1, Proceed(t))
            && var s' := Step(s1, Proceed(t));
               && Subset(ready, s'.status.bits) && Subset(s.status.bits, s'.status.bits) && s'.status.edges == s.status.edges + 1
               && s'.status.bits == Join(s.status.bits, ready) && s'.status.shutdown == s.status.shutdown
               && SlotsOf(s') == ScheduledIOs.Left(SlotsOf(s), ready)
               && s'.taken == s.taken + Handed(ScheduledIOs.Taken(SlotsOf(s), ready))
  {
    var s1 := Move(Step(s, PublishEdge(t, ready)), t, Idle);
    EmptiedIsTheObjects(s1, ready);
  }

  /** Shutting down undisturbed is the object's `Shutdown`: nothing can be armed any more, and
      nothing stays parked. */
  lemma ShutdownAlone(s: State, t: nat)
    requires Enabled(s, MarkShut(t)) && s.lock.None?
    ensures var s1 := Step(s, MarkShut(t));
            && Enabled(s1, Proceed(t))
            && var s' := Step(s1, Proceed(t));
               && (forall d :: !Armable(s'.status, d)) && s'.reader.None? && s'.writer.None?
               && s'.taken == s.taken + Handed(SlotsOf(s))
  {
    var all := Bits(true, true, true, true, true);
    var s1 := Move(Step(s, MarkShut(t)), t, Idle);
    EmptiedIsTheObjects(s1, all);
  }

  /** A consume leaves its direction quiet, a clear does so if its tick is current, and
      neither touches anything else. */
  lemma DropAlone(s: State, t: nat, d: Direction, seen: nat)
    requires Enabled(s, ConsumeNow(t, d))
    ensures var s' := Step(s, ConsumeNow(t, d));
            !Shows(s'.status.bits, d) && DropsOnly(s.status, s'.status, d) && s' == s.(status := s'.status)
    ensures Enabled(s, ClearNow(t, d, seen))
    ensures var s' := Step(s, ClearNow(t, d, seen));
            && (!Shows(s'.status.bits, d) || s.status.edges % 256 != seen % 256)
            && DropsOnly(s.status, s'.status, d) && s' == s.(status := s'.status)
  {
  }

  /** An arm nobody disturbs stores its callback exactly if the direction is quiet and the
      registration not gone, as `ArmCb` does; otherwise the callback is given back. */
  lemma ArmAlone(s: State, t: nat, d: Direction, cb: Callback) returns (s': State)
    requires Enabled(s, BeginArm(t, d, cb)) && s.lock.None?
    ensures s'.threads == s.threads && s'.status == s.status && s'.lock.None?
    ensures Armable(s.status, d) ==> Slot(s', d) == Some(cb) && s'.refused == s.refused
    ensures !Armable(s.status, d) ==> Slot(s', d) == Slot(s, d) && s'.refused == s.refused + multiset{cb}
    ensures Slot(s', Opposite(d)) == Slot(s, Opposite(d))
    ensures exists steps :: IsRun((x: State) => x == s, Next, steps) && steps[|steps| - 1] == s'
  {
    var s1 := Then(s, BeginArm(t, d, cb));
    var s2 := Then(s1, Proceed(t));
    if !Armable(s.status, d) {
      s' := s2;
      Steps3(Next, s, s1, s2);
    } else {
      var s3 := Then(s2, Proceed(t));
      s' := StoreAlone(s3, t, d, cb);
      assert s'.threads == s.threads;
      Steps5(Next, s, s1, s2, s3, s');
    }
  }

  lemma StoreAlone(s: State, t: nat, d: Direction, cb: Callback) returns (s': State)
    requires t < |s.threads| && s.threads[t] == ArmStore(d, cb) && s.lock == Some(t)
    ensures s'.threads == s.threads[t := Idle] && s'.status == s.status && s'.lock.None? && s'.refused == s.refused
    ensures Slot(s', d) == Some(cb) && Slot(s', Opposite(d)) == Slot(s, Opposite(d)) && Next(s, s')
  {
    s' := Then(s, Proceed(t));
  }

  lemma Then(s: State, a: Action) returns (s': State)
    requires Enabled(s, a)
    ensures s' == Step(s, a) && Next(s, s')
  {
    s' := Step(s, a);
  }
}
