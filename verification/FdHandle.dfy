/** Level-triggered readers and writers over edge-triggered readiness: `_FdHandle` of
    `mt_asyncio/asyncio/_loop.py` running against `ScheduledIO`, the poll thread and
    the kernel. One handle per direction of one descriptor; any number of worker
    threads; one atomic operation or critical section at a time. */
module FdHandles {
  import opened Options
  import opened Readiness

  const ARM_RETRIES := 8

  /** Where a worker thread is, on behalf of the handle of direction `d`. */
  datatype Pc =
    | Idle
    | Dispatch(d: Direction)                 // `_dispatch`: test `_active`
    | UserCallback(d: Direction)             // `self._run()`
    | Arm(d: Direction, n: nat)              // top of the `_arm` loop, n attempts made
    | ArmFirst(d: Direction, n: nat)         // `arm_cb`: first look at the word
    | ArmAgain(d: Direction, n: nat)         //   take the lock and look again
    | ArmStore(d: Direction, n: nat)         //   under the lock, about to store
    | LoadTick(d: Direction, n: nat)         // ready: read the current tick
    | StoreTick(d: Direction, n: nat, v: nat) //   and record it
    | Probe(d: Direction, n: nat)            // `_fd_ready`
    | ClearStale(d: Direction, n: nat)       // `clear_r` / `clear_w`
    | Requeue(d: Direction)                  // `_dispatch_soon`
    | Tell(d: Direction)                     // `_wake`, run from a torn-down registration

  /** The poll thread: waiting; holding an event; having published it; making the calls. */
  datatype Poll = Waiting | Fetched(ready: Bits) | Published(ready: Bits) | Calling(reader: bool, writer: bool)

  /** The registration: live; SHUTDOWN set but nobody woken yet; gone. */
  datatype Registration = Live | Marked | Gone

  /** One direction: its handle was added and is active, it is parked in the slot, the edge
      count behind its recorded tick, its queued dispatches and its queued `_wake` calls. */
  datatype Side = Side(added: bool, active: bool, parked: bool, seen: nat, queued: nat, told: nat)

  /** What has happened to one direction's dispatches: begun, run to the end of the user's
      callback, skipped because the handle was inactive; and whether it was cancelled.
      Only a record. */
  datatype Log = Log(begun: nat, ran: nat, skipped: nat, cancelled: bool)

  const NO_LOG := Log(0, 0, 0, false)

  /** `level` is what the kernel would report now, `edge` whether it has an undelivered event. */
  datatype State = State(level: Bits, edge: bool, status: Status, lock: Option<nat>,
                         reader: Side, writer: Side, poll: Poll, registration: Registration,
                         threads: seq<Pc>, readerLog: Log, writerLog: Log)

  datatype Action =
    | Rise(more: Bits)                 // the descriptor becomes more ready: a new edge
    | Fall(rest: Bits)                 // something is drained
    | Fetch                            // the poll thread collects the event
    | PollStep
    | Deregister                       // the two halves of `shutdown`
    | Add(t: nat, d: Direction)        // `add_reader` / `add_writer`, once
    | Cancel(d: Direction)
    | StartDispatch(t: nat, d: Direction)
    | StartTold(t: nat, d: Direction)
    | Proceed(t: nat)

  function Get(s: State, d: Direction): Side { if d.Reader? then s.reader else s.writer }

  function Put(s: State, d: Direction, x: Side): State {
    if d.Reader? then s.(reader := x) else s.(writer := x)
  }

  function GetLog(s: State, d: Direction): Log { if d.Reader? then s.readerLog else s.writerLog }

  function PutLog(s: State, d: Direction, x: Log): State {
    if d.Reader? then s.(readerLog := x) else s.(writerLog := x)
  }

  function Move(s: State, t: nat, pc: Pc): State
    requires t < |s.threads|
  {
    s.(threads := s.threads[t := pc])
  }

  predicate Init(s: State) {
    && s.status == FRESH && s.lock.None?
    && s.reader == Side(false, false, false, 0, 0, 0) && s.writer == s.reader
    && s.poll.Waiting? && s.registration.Live?
    && (s.edge || s.level == NOTHING)
    && s.readerLog == NO_LOG && s.writerLog == NO_LOG
    && forall t :: 0 <= t < |s.threads| ==> s.threads[t].Idle?
  }

  predicate Enabled(s: State, a: Action) {
    match a
    case Rise(_) => true
    case Fall(rest) => Subset(rest, s.level)
    case Fetch => s.poll.Waiting? && s.edge
    case PollStep => !s.poll.Waiting? && (s.poll.Published? ==> s.lock.None?)
    case Deregister => s.registration.Live? || (s.registration.Marked? && s.lock.None?)
    case Add(t, d) => t < |s.threads| && s.threads[t].Idle? && !Get(s, d).added
    case Cancel(d) => Get(s, d).added
    case StartDispatch(t, d) => t < |s.threads| && s.threads[t].Idle? && Get(s, d).queued > 0
    case StartTold(t, d) => t < |s.threads| && s.threads[t].Idle? && Get(s, d).told > 0
    case Proceed(t) =>
      && t < |s.threads| && !s.threads[t].Idle?
      && (s.threads[t].ArmAgain? ==> s.lock.None?)
      && (s.threads[t].ArmStore? ==> s.lock == Some(t))
  }

  /** A wake that covers direction `d` empties its slot. */
  function Unparked(x: Side, woken: bool): Side { x.(parked := x.parked && !woken) }

  function Queue(x: Side): Side { x.(queued := x.queued + 1) }

  /** `_wake`: queue a dispatch if the handle is still active. */
  function Woken(s: State, d: Direction): State {
    if Get(s, d).active then Put(s, d, Queue(Get(s, d))) else s
  }

  function PollMove(s: State): State
    requires Enabled(s, PollStep)
  {
    match s.poll
    case Waiting => s
    case Fetched(ready) => s.(poll := Published(ready), status := Publish(s.status, ready))
    case Published(ready) =>
      s.(poll := Calling(s.reader.parked && Shows(ready, Reader), s.writer.parked && Shows(ready, Writer)),
         reader := Unparked(s.reader, Shows(ready, Reader)), writer := Unparked(s.writer, Shows(ready, Writer)))
    case Calling(reader, writer) =>
      if reader then Woken(s, Reader).(poll := Calling(false, writer))
      else if writer then Woken(s, Writer).(poll := Calling(false, false))
      else s.(poll := Waiting)
  }

  function TellParked(x: Side): Side {
    if x.parked then x.(parked := false, told := x.told + 1) else x
  }

  function DeregisterMove(s: State): State {
    if s.registration.Live? then s.(registration := Marked, status := Shut(s.status))
    else s.(registration := Gone, reader := TellParked(s.reader), writer := TellParked(s.writer))
  }

  /** `arm_cb` up to its store. */
  function ArmMove(s: State, t: nat, d: Direction, n: nat): State
    requires t < |s.threads|
  {
    match s.threads[t]
    case ArmFirst(_, _) => Move(s, t, if Armable(s.status, d) then ArmAgain(d, n) else LoadTick(d, n))
    case ArmAgain(_, _) =>
      if Armable(s.status, d) then Move(s, t, ArmStore(d, n)).(lock := Some(t)) else Move(s, t, LoadTick(d, n))
    case _ => Put(Move(s, t, Idle), d, Get(s, d).(parked := true)).(lock := None)
  }

  predicate Arming(pc: Pc) { pc.ArmFirst? || pc.ArmAgain? || pc.ArmStore? }

  predicate Reconciling(pc: Pc) { pc.LoadTick? || pc.StoreTick? || pc.Probe? || pc.ClearStale? }

  /** The cached bit says ready: record the tick, ask the kernel, clear a stale bit. */
  function ReconcileMove(s: State, t: nat): State
    requires Enabled(s, Proceed(t)) && Reconciling(s.threads[t])
  {
    match s.threads[t]
    case LoadTick(d, n) => Move(s, t, StoreTick(d, n, s.status.edges))
    case StoreTick(d, n, v) => Put(Move(s, t, Probe(d, n)), d, Get(s, d).(seen := v))
    case Probe(d, n) =>
      if Shows(s.level, d) || n + 1 >= ARM_RETRIES then Move(s, t, Requeue(d))
      else Move(s, t, ClearStale(d, n + 1))
    case ClearStale(d, n) => Move(s, t, Arm(d, n)).(status := Clear(s.status, d, Get(s, d).seen))
  }

  /** Running the user's callback, and what comes before and after it. */
  function DispatchMove(s: State, t: nat): State
    requires Enabled(s, Proceed(t)) && !Arming(s.threads[t]) && !Reconciling(s.threads[t])
  {
    match s.threads[t]
    case Dispatch(d) =>
      var x := GetLog(s, d);
      if Get(s, d).active then Move(s, t, UserCallback(d)) else PutLog(Move(s, t, Idle), d, x.(skipped := x.skipped + 1))
    case UserCallback(d) =>
      var x := GetLog(s, d);
      PutLog(Move(s, t, Arm(d, 0)), d, x.(ran := x.ran + 1))
    case Arm(d, n) => Move(s, t, if Get(s, d).active then ArmFirst(d, n) else Idle)
    case Requeue(d) => Put(Move(s, t, Idle), d, Queue(Get(s, d)))
    case Tell(d) => Woken(Move(s, t, Idle), d)
  }

  function ThreadMove(s: State, t: nat): State
    requires Enabled(s, Proceed(t))
  {
    var pc := s.threads[t];
    if Arming(pc) then ArmMove(s, t, pc.d, pc.n)
    else if Reconciling(pc) then ReconcileMove(s, t)
    else DispatchMove(s, t)
  }

  function Step(s: State, a: Action): State
    requires Enabled(s, a)
  {
    match a
    case Rise(more) => s.(level := Join(s.level, more), edge := true)
    case Fall(rest) => s.(level := rest)
    case Fetch => s.(poll := Fetched(s.level), edge := false)
    case PollStep => PollMove(s)
    case Deregister => DeregisterMove(s)
    case Add(t, d) => Put(Move(s, t, Arm(d, 0)), d, Get(s, d).(added := true, active := true))
    case Cancel(d) => PutLog(Put(s, d, Get(s, d).(active := false)), d, GetLog(s, d).(cancelled := true))
    case StartDispatch(t, d) =>
      var x := GetLog(s, d);
      PutLog(Put(Move(s, t, Dispatch(d)), d, Get(s, d).(queued := Get(s, d).queued - 1)), d, x.(begun := x.begun + 1))
    case StartTold(t, d) => Put(Move(s, t, Tell(d)), d, Get(s, d).(told := Get(s, d).told - 1))
    case Proceed(t) => ThreadMove(s, t)
  }

  ghost predicate Next(s: State, t: State) {
    exists a :: Enabled(s, a) && t == Step(s, a)
  }
}

/** What the emulation keeps. */
module FdHandleSafety {
  import opened Readiness
  import opened FdHandles
  import opened Sums

  // ----- one token per handle -----

  predicate On(pc: Pc, d: Direction) { !pc.Idle? && pc.d == d }

  function OnReader(pc: Pc): int { Bit(On(pc, Reader)) }

  function OnWriter(pc: Pc): int { Bit(On(pc, Writer)) }

  /** How many threads act for the handle of direction `d`. */
  ghost function Acting(s: State, d: Direction): int {
    if d.Reader? then Sum(OnReader, s.threads) else Sum(OnWriter, s.threads)
  }

  function InHand(p: Poll, d: Direction): int {
    Bit(p.Calling? && if d.Reader? then p.reader else p.writer)
  }

  /** The places a handle's next dispatch can be waiting in, or its current one running in. */
  ghost function Tokens(s: State, d: Direction): int {
    Bit(Get(s, d).parked) + InHand(s.poll, d) + Get(s, d).queued + Get(s, d).told + Acting(s, d)
  }

  ghost predicate OneToken(s: State, d: Direction) {
    && Tokens(s, d) <= 1
    && (Get(s, d).active ==> Get(s, d).added && Tokens(s, d) == 1)
    && (!Get(s, d).added ==> Tokens(s, d) == 0)
  }

  lemma ActingMove(s: State, t: nat, pc: Pc, d: Direction)
    requires t < |s.threads|
    ensures Acting(Move(s, t, pc), d) == Acting(s, d) - Bit(On(s.threads[t], d)) + Bit(On(pc, d))
  {
    Update(OnReader, s.threads, t, pc);
    Update(OnWriter, s.threads, t, pc);
  }

  lemma ActingNonNegative(s: State, d: Direction)
    ensures Acting(s, d) >= 0
  {
    AtLeastEach(OnReader, s.threads, 0);
    AtLeastEach(OnWriter, s.threads, 0);
  }

  /** Where the token rests when no thread has it. */
  function Resting(s: State, d: Direction): int {
    Bit(Get(s, d).parked) + InHand(s.poll, d) + Get(s, d).queued + Get(s, d).told
  }

  /** A thread's step hands the token on, keeps it, or drops it for good once the
      handle is cancelled. */
  lemma ThreadHandsOn(s: State, t: nat, d: Direction)
    requires Enabled(s, Proceed(t))
    requires On(s.threads[t], d) ==> !Get(s, d).parked
    ensures var s' := ThreadMove(s, t);
            && |s'.threads| == |s.threads| && s'.threads == s.threads[t := s'.threads[t]]
            && Get(s', d).active == Get(s, d).active && Get(s', d).added == Get(s, d).added
            && (var before := Resting(s, d) + Bit(On(s.threads[t], d));
                var after := Resting(s', d) + Bit(On(s'.threads[t], d));
                after == before || (after < before && !Get(s, d).active))
  {
    if On(s.threads[t], d) { ThreadHandsOnOwn(s, t, d); } else { ThreadLeavesOther(s, t, d); }
  }

  /** A thread that does not act for this direction leaves its handle alone. */
  predicate LeavesAlone(s: State, s': State, t: nat, d: Direction)
    requires t < |s.threads|
  {
    && |s'.threads| == |s.threads| && s'.threads == s.threads[t := s'.threads[t]]
    && Get(s', d) == Get(s, d) && s'.poll == s.poll && !On(s'.threads[t], d)
  }

  lemma ThreadLeavesOther(s: State, t: nat, d: Direction)
    requires Enabled(s, Proceed(t)) && !On(s.threads[t], d)
    ensures LeavesAlone(s, ThreadMove(s, t), t, d)
  {
    var pc := s.threads[t];
    if Arming(pc) {
      assert LeavesAlone(s, ArmMove(s, t, pc.d, pc.n), t, d);
    } else if Reconciling(pc) {
      ReconcileLeavesOther(s, t, d);
    } else {
      DispatchLeavesOther(s, t, d);
    }
  }

  lemma ReconcileLeavesOther(s: State, t: nat, d: Direction)
    requires Enabled(s, Proceed(t)) && !On(s.threads[t], d) && Reconciling(s.threads[t])
    ensures LeavesAlone(s, ReconcileMove(s, t), t, d)
  {
  }

  lemma DispatchLeavesOther(s: State, t: nat, d: Direction)
    requires Enabled(s, Proceed(t)) && !On(s.threads[t], d) && !Arming(s.threads[t]) && !Reconciling(s.threads[t])
    ensures LeavesAlone(s, DispatchMove(s, t), t, d)
  {
  }

  /** The token `t` holds for `d` is kept, put to rest once, or dropped because the handle
      is cancelled. */
  predicate HandsOn(s: State, s': State, t: nat, d: Direction)
    requires t < |s.threads|
  {
    && |s'.threads| == |s.threads| && s'.threads == s.threads[t := s'.threads[t]]
    && Get(s', d).active == Get(s, d).active && Get(s', d).added == Get(s, d).added
    && (var after := Resting(s', d) + Bit(On(s'.threads[t], d));
        after == Resting(s, d) + 1 || (after == Resting(s, d) && !Get(s, d).active))
  }

  lemma ThreadHandsOnOwn(s: State, t: nat, d: Direction)
    requires Enabled(s, Proceed(t)) && On(s.threads[t], d) && !Get(s, d).parked
    ensures HandsOn(s, ThreadMove(s, t), t, d)
  {
    var pc := s.threads[t];
    if Arming(pc) {
      assert HandsOn(s, ArmMove(s, t, pc.d, pc.n), t, d);
    } else if Reconciling(pc) {
      ReconcileHandsOn(s, t, d);
    } else {
      DispatchHandsOn(s, t, d);
    }
  }

  lemma ReconcileHandsOn(s: State, t: nat, d: Direction)
    requires Enabled(s, Proceed(t)) && On(s.threads[t], d) && Reconciling(s.threads[t])
    ensures HandsOn(s, ReconcileMove(s, t), t, d)
  {
  }

  lemma DispatchHandsOn(s: State, t: nat, d: Direction)
    requires Enabled(s, Proceed(t)) && On(s.threads[t], d) && !Arming(s.threads[t]) && !Reconciling(s.threads[t])
    ensures HandsOn(s, DispatchMove(s, t), t, d)
  {
    var pc := s.threads[t];
    if pc.Requeue? || (pc.Tell? && Get(s, d).active) {
      QueueHandsOn(s, t, d);
      assert DispatchMove(s, t) == Put(Move(s, t, Idle), d, Queue(Get(s, d)));
    } else {
      CallHandsOn(s, t, d);
    }
  }

  /** The steps of a dispatch that queue nothing. */
  lemma CallHandsOn(s: State, t: nat, d: Direction)
    requires Enabled(s, Proceed(t)) && On(s.threads[t], d) && !Arming(s.threads[t]) && !Reconciling(s.threads[t])
    requires !s.threads[t].Requeue? && !(s.threads[t].Tell? && Get(s, d).active)
    ensures HandsOn(s, DispatchMove(s, t), t, d)
  {
    var s' := DispatchMove(s, t);
    MoveHandsOn(s, t, d, s'.threads[t]);
    assert s' == Move(s, t, s'.threads[t]).(readerLog := s'.readerLog, writerLog := s'.writerLog);
  }

  lemma QueueHandsOn(s: State, t: nat, d: Direction)
    requires t < |s.threads| && On(s.threads[t], d)
    ensures HandsOn(s, Put(Move(s, t, Idle), d, Queue(Get(s, d))), t, d)
  {
  }

  lemma MoveHandsOn(s: State, t: nat, d: Direction, pc: Pc)
    requires t < |s.threads| && On(s.threads[t], d) && (On(pc, d) || !Get(s, d).active)
    ensures HandsOn(s, Move(s, t, pc), t, d)
  {
  }

  lemma OneTokenThread(s: State, t: nat, d: Direction)
    requires OneToken(s, d) && Enabled(s, Proceed(t))
    ensures OneToken(ThreadMove(s, t), d)
  {
    var s' := ThreadMove(s, t);
    ActingMove(s, t, Idle, d);
    ActingNonNegative(Move(s, t, Idle), d);
    ThreadHandsOn(s, t, d);
    ActingMove(s, t, s'.threads[t], d);
    assert Acting(s', d) == Acting(Move(s, t, s'.threads[t]), d);
  }

  lemma OneTokenElsewhere(s: State, a: Action, d: Direction)
    requires OneToken(s, d) && Enabled(s, a) && !a.Proceed? && !a.Add? && !a.StartDispatch? && !a.StartTold?
    ensures OneToken(Step(s, a), d)
  {
    var s' := Step(s, a);
    assert Acting(s', d) == Acting(s, d);
    ActingNonNegative(s, d);
    if a.PollStep? {
      PollHandsOn(s, d);
    } else {
      assert Resting(s', d) == Resting(s, d);
    }
  }

  lemma PollHandsOn(s: State, d: Direction)
    requires Enabled(s, PollStep)
    ensures var s' := PollMove(s);
            && Get(s', d).active == Get(s, d).active && Get(s', d).added == Get(s, d).added
            && (Resting(s', d) == Resting(s, d) || (Resting(s', d) < Resting(s, d) && !Get(s, d).active))
  {
    match s.poll {
      case Waiting =>
      case Fetched(_) =>
      case Published(_) =>
      case Calling(r, w) =>
    }
  }

  /** An idle thread takes the token up. */
  lemma OneTokenStart(s: State, a: Action, t: nat, d: Direction)
    requires OneToken(s, d) && Enabled(s, a)
    requires a.Add? || a.StartDispatch? || a.StartTold?
    requires a.t == t
    ensures OneToken(Step(s, a), d)
  {
    var s' := Step(s, a);
    ActingMove(s, t, s'.threads[t], d);
    assert Acting(s', d) == Acting(Move(s, t, s'.threads[t]), d);
    TakesUp(s, a, t, d);
  }

  lemma TakesUp(s: State, a: Action, t: nat, d: Direction)
    requires Enabled(s, a) && (a.Add? || a.StartDispatch? || a.StartTold?) && a.t == t
    ensures var s' := Step(s, a);
            && t < |s'.threads| && On(s'.threads[t], a.d) && !On(s'.threads[t], Opposite(a.d)) && s'.poll == s.poll
            && (a.d != d ==> Get(s', d) == Get(s, d))
            && (a.d == d ==>
                  && Resting(s', d) == (if a.Add? then Resting(s, d) else Resting(s, d) - 1)
                  && (a.Add? ==> Get(s', d).added && Get(s', d).active)
                  && (!a.Add? ==> Get(s', d).added == Get(s, d).added && Get(s', d).active == Get(s, d).active))
  {
  }

  lemma OneTokenStep(s: State, a: Action, d: Direction)
    requires OneToken(s, d) && Enabled(s, a)
    ensures OneToken(Step(s, a), d)
  {
    var s' := Step(s, a);
    match a {
      case Add(t, _) => OneTokenStart(s, a, t, d);
      case StartDispatch(t, _) => OneTokenStart(s, a, t, d);
      case StartTold(t, _) => OneTokenStart(s, a, t, d);
      case Proceed(t) => OneTokenThread(s, t, d);
      case _ => OneTokenElsewhere(s, a, d);
    }
  }
}
