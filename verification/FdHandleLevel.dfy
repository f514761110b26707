/** A ready descriptor is never forgotten, except by a clear whose recorded tick is whole
    laps of 256 edges old. */
module FdHandleLevel {
  import opened Options
  import opened Readiness
  import opened FdHandles
  import opened FdHandleSafety
  import opened Sums
  import opened Runs

  // ----- a parked handle is woken when its direction shows readiness -----

  predicate WakeComing(s: State, d: Direction) {
    (s.poll.Published? && Shows(s.poll.ready, d)) || s.registration.Marked?
  }

  predicate ParkSafe(s: State, d: Direction) {
    Get(s, d).parked && !Armable(s.status, d) ==> WakeComing(s, d)
  }

  /** The same for a handle about to be parked, under the lock. */
  predicate StoreSafe(s: State, t: nat)
    requires t < |s.threads|
  {
    s.threads[t].ArmStore? ==>
      s.lock == Some(t) && (!Armable(s.status, s.threads[t].d) ==> WakeComing(s, s.threads[t].d))
  }

  predicate AllStoreSafe(s: State) {
    forall t :: 0 <= t < |s.threads| ==> StoreSafe(s, t)
  }

  /** What a thread's step can do: only `ArmStore` parks, only `ClearStale` touches the word,
      to drop bits, only `StoreTick` records a tick and only `LoadTick` reads one; a thread
      about to store has the lock; and no handle is added or cancelled. */
  predicate Gentle(s: State, s': State, t: nat)
    requires t < |s.threads|
  {
    && s'.poll == s.poll && s'.registration == s.registration && s'.edge == s.edge && s'.level == s.level
    && |s'.threads| == |s.threads| && s'.threads == s.threads[t := s'.threads[t]]
    && s'.status.edges == s.status.edges && s'.status.shutdown == s.status.shutdown
    && Subset(s'.status.bits, s.status.bits)
    && (s.threads[t].ClearStale? || s'.status == s.status)
    && (s'.threads[t].ArmStore? ==> s'.lock == Some(t) && Armable(s'.status, s'.threads[t].d))
    && (s.lock.Some? && s.lock != Some(t) ==> s'.lock == s.lock)
    && (s'.lock == s.lock || s'.lock.None? || (s'.lock == Some(t) && s'.threads[t].ArmStore?))
    && (s.threads[t].ArmStore? ==> s'.lock.None?)
    && (s'.threads[t].StoreTick? ==> s'.threads[t].v == s.status.edges)
    && SideKept(s, s', t, Reader) && SideKept(s, s', t, Writer)
    && s'.reader.parked == (s.reader.parked || (s.threads[t].ArmStore? && s.threads[t].d.Reader?))
    && s'.writer.parked == (s.writer.parked || (s.threads[t].ArmStore? && s.threads[t].d.Writer?))
  }

  predicate SideKept(s: State, s': State, t: nat, d: Direction)
    requires t < |s.threads|
  {
    && Get(s', d).active == Get(s, d).active && Get(s', d).added == Get(s, d).added
    && (Get(s', d).seen == Get(s, d).seen
        || (s.threads[t].StoreTick? && s.threads[t].d == d && Get(s', d).seen == s.threads[t].v))
  }

  lemma ThreadGentle(s: State, t: nat)
    requires Enabled(s, Proceed(t))
    ensures Gentle(s, ThreadMove(s, t), t)
  {
    var pc := s.threads[t];
    if Arming(pc) {
      ArmGentle(s, t);
    } else if Reconciling(pc) {
      ReconcileGentle(s, t);
    } else {
      DispatchGentle(s, t);
    }
  }

  lemma ArmGentle(s: State, t: nat)
    requires Enabled(s, Proceed(t)) && Arming(s.threads[t])
    ensures Gentle(s, ArmMove(s, t, s.threads[t].d, s.threads[t].n), t)
  {
  }

  lemma ReconcileGentle(s: State, t: nat)
    requires Enabled(s, Proceed(t)) && Reconciling(s.threads[t])
    ensures Gentle(s, ReconcileMove(s, t), t)
  {
  }

  lemma DispatchGentle(s: State, t: nat)
    requires Enabled(s, Proceed(t)) && !Arming(s.threads[t]) && !Reconciling(s.threads[t])
    ensures Gentle(s, DispatchMove(s, t), t)
  {
    var pc, s' := s.threads[t], DispatchMove(s, t);
    if pc.Requeue? || pc.Tell? {
      assert s' == Move(s, t, Idle) || s' == Put(Move(s, t, Idle), pc.d, Queue(Get(s, pc.d)));
    } else {
      assert s' == Move(s, t, s'.threads[t]).(readerLog := s'.readerLog, writerLog := s'.writerLog);
    }
  }

  lemma ParkSafePoll(s: State, d: Direction)
    requires Enabled(s, PollStep) && ParkSafe(s, d)
    ensures ParkSafe(PollMove(s), d)
  {
  }

  lemma ParkSafeStep(s: State, a: Action, d: Direction)
    requires Enabled(s, a) && ParkSafe(s, d) && AllStoreSafe(s)
    ensures ParkSafe(Step(s, a), d)
  {
    match a {
      case Proceed(t) =>
        assert StoreSafe(s, t);
        ThreadGentle(s, t);
      case PollStep => ParkSafePoll(s, d);
      case _ =>
    }
  }

  lemma StoreSafePoll(s: State, t: nat)
    requires Enabled(s, PollStep) && t < |s.threads| && StoreSafe(s, t)
    ensures |PollMove(s).threads| == |s.threads| && StoreSafe(PollMove(s), t)
  {
  }

  lemma StoreSafeStep(s: State, a: Action, u: nat)
    requires Enabled(s, a) && u < |s.threads| && AllStoreSafe(s)
    ensures |Step(s, a).threads| == |s.threads| && StoreSafe(Step(s, a), u)
  {
    assert StoreSafe(s, u);
    match a {
      case Proceed(t) =>
        assert StoreSafe(s, t);
        ThreadGentle(s, t);
      case PollStep => StoreSafePoll(s, u);
      case _ =>
    }
  }

  // ----- the kernel's level is always cached or on its way -----

  function Held(p: Poll): Bits { if p.Fetched? then p.ready else NOTHING }

  function Only(b: Bits, d: Direction): Bits {
    if d.Reader? then b.(writable := false, writeClosed := false) else b.(readable := false, readClosed := false)
  }

  predicate LevelKnown(s: State) {
    s.edge || Subset(s.level, Join(s.status.bits, Held(s.poll)))
  }

  predicate SeenOk(s: State) {
    && s.reader.seen <= s.status.edges && s.writer.seen <= s.status.edges
    && forall t :: 0 <= t < |s.threads| && s.threads[t].StoreTick? ==> s.threads[t].v <= s.status.edges
  }

  /** Since the tick was recorded, the direction has been seen quiet, and whatever came
      after is undelivered, in the poll thread's hand, or has moved the tick. */
  predicate Quieted(s: State, d: Direction) {
    s.edge || s.status.edges > Get(s, d).seen || Subset(Only(s.level, d), Held(s.poll))
  }

  predicate AllQuieted(s: State) {
    forall t :: 0 <= t < |s.threads| && s.threads[t].ClearStale? ==> Quieted(s, s.threads[t].d)
  }

  /** The tick has moved since it was recorded, by whole laps: it looks as if it had not. */
  predicate Lapped(s: State, d: Direction) {
    s.status.edges != Get(s, d).seen && s.status.edges % 256 == Get(s, d).seen % 256
  }

  /** Thread `t` is about to clear by a lapped tick, while the kernel reports something of
      the direction that is neither an undelivered edge nor with the poll thread. */
  predicate Forgets(s: State, t: nat) {
    && t < |s.threads| && s.threads[t].ClearStale?
    && Lapped(s, s.threads[t].d) && !s.edge && !Subset(Only(s.level, s.threads[t].d), Held(s.poll))
  }

  lemma SeenOkStep(s: State, a: Action)
    requires Enabled(s, a) && SeenOk(s)
    ensures SeenOk(Step(s, a))
  {
    match a {
      case Proceed(t) => SeenOkThread(s, t);
      case PollStep => SeenOkPoll(s);
      case _ =>
    }
  }

  lemma SeenOkThread(s: State, t: nat)
    requires Enabled(s, Proceed(t)) && SeenOk(s)
    ensures SeenOk(ThreadMove(s, t))
  {
    ThreadGentle(s, t);
  }

  lemma SeenOkPoll(s: State)
    requires Enabled(s, PollStep) && SeenOk(s)
    ensures SeenOk(PollMove(s))
  {
  }

  lemma LevelKnownStep(s: State, a: Action)
    requires Enabled(s, a) && LevelKnown(s) && SeenOk(s) && AllQuieted(s)
    requires a.Proceed? ==> !Forgets(s, a.t)
    ensures LevelKnown(Step(s, a))
  {
    match a {
      case Proceed(t) =>
        ThreadGentle(s, t);
        if s.threads[t].ClearStale? { ClearLosesExactly(s, t); }
      case PollStep => LevelKnownPoll(s);
      case _ =>
    }
  }

  lemma LevelKnownPoll(s: State)
    requires Enabled(s, PollStep) && LevelKnown(s)
    ensures LevelKnown(PollMove(s))
  {
    if s.poll.Fetched? { LevelKnownPublish(s, s.poll.ready); } else { LevelKnownOtherwise(s); }
  }

  lemma LevelKnownPublish(s: State, ready: Bits)
    requires s.poll == Fetched(ready) && LevelKnown(s)
    ensures Enabled(s, PollStep) && LevelKnown(PollMove(s))
  {
    var s' := PollMove(s);
    assert s'.status.bits == Join(s.status.bits, ready) && s'.level == s.level && s'.edge == s.edge;
  }

  lemma LevelKnownOtherwise(s: State)
    requires Enabled(s, PollStep) && !s.poll.Fetched? && LevelKnown(s)
    ensures LevelKnown(PollMove(s))
  {
    var s' := PollMove(s);
    assert s'.status == s.status && s'.level == s.level && s'.edge == s.edge && !s'.poll.Fetched?;
  }

  /** The clear keeps the kernel's level known if and only if it does not forget. */
  lemma ClearLosesExactly(s: State, t: nat)
    requires Enabled(s, Proceed(t)) && s.threads[t].ClearStale?
    requires LevelKnown(s) && SeenOk(s) && AllQuieted(s)
    ensures LevelKnown(ThreadMove(s, t)) <==> !Forgets(s, t)
  {
    var d := s.threads[t].d;
    assert Quieted(s, d);
    var s' := ThreadMove(s, t);
    assert s'.status == Clear(s.status, d, Get(s, d).seen) && s'.edge == s.edge && s'.poll == s.poll && s'.level == s.level;
  }

  lemma Exclusive(s: State, t: nat, u: nat, d: Direction)
    requires OneToken(s, d) && t < |s.threads| && u < |s.threads| && On(s.threads[t], d) && On(s.threads[u], d)
    ensures t == u
  {
    if t != u {
      var s1 := Move(s, t, Idle);
      assert s1.threads[u] == s.threads[u];
      ActingMove(s, t, Idle, d);
      AtLeastEach(OnReader, s1.threads, u);
      AtLeastEach(OnWriter, s1.threads, u);
    }
  }

  lemma QuietedThread(s: State, t: nat, u: nat)
    requires Enabled(s, Proceed(t)) && AllQuieted(s) && SeenOk(s) && OneToken(s, Reader) && OneToken(s, Writer)
    requires u < |ThreadMove(s, t).threads| && ThreadMove(s, t).threads[u].ClearStale?
    ensures Quieted(ThreadMove(s, t), ThreadMove(s, t).threads[u].d)
  {
    var s' := ThreadMove(s, t);
    ThreadGentle(s, t);
    if u != t {
      QuietedBeside(s, t, u);
    } else {
      assert s.threads[t].Probe? && !Shows(s.level, s.threads[t].d);
    }
  }

  lemma QuietedBeside(s: State, t: nat, u: nat)
    requires Enabled(s, Proceed(t)) && AllQuieted(s) && OneToken(s, Reader) && OneToken(s, Writer)
    requires u < |s.threads| && u != t && s.threads[u].ClearStale?
    ensures Quieted(ThreadMove(s, t), s.threads[u].d)
  {
    var d := s.threads[u].d;
    ThreadGentle(s, t);
    assert Quieted(s, d) && SideKept(s, ThreadMove(s, t), t, d) && OneToken(s, d);
    if s.threads[t].StoreTick? && s.threads[t].d == d { Exclusive(s, t, u, d); }
  }

  lemma QuietedStep(s: State, a: Action, u: nat)
    requires Enabled(s, a) && AllQuieted(s) && SeenOk(s) && OneToken(s, Reader) && OneToken(s, Writer)
    requires u < |Step(s, a).threads| && Step(s, a).threads[u].ClearStale?
    ensures Quieted(Step(s, a), Step(s, a).threads[u].d)
  {
    if a.Proceed? {
      QuietedThread(s, a.t, u);
    } else if a.PollStep? {
      QuietedPoll(s, u);
    } else {
      QuietedElsewhere(s, a, u);
    }
  }

  lemma QuietedPoll(s: State, u: nat)
    requires Enabled(s, PollStep) && AllQuieted(s) && SeenOk(s)
    requires u < |PollMove(s).threads| && PollMove(s).threads[u].ClearStale?
    ensures Quieted(PollMove(s), PollMove(s).threads[u].d)
  {
    PollSeen(s);
    assert Quieted(s, s.threads[u].d);
    if s.poll.Fetched? { assert PollMove(s).status.edges == s.status.edges + 1; }
  }

  /** The poll thread records no tick and keeps the threads and the level; what it held it
      has published. */
  lemma PollSeen(s: State)
    requires Enabled(s, PollStep)
    ensures var s' := PollMove(s);
            && s'.threads == s.threads && s'.reader.seen == s.reader.seen && s'.writer.seen == s.writer.seen
            && s'.edge == s.edge && s'.level == s.level && !s'.poll.Fetched?
            && (!s.poll.Fetched? ==> s'.status == s.status)
  {
  }

  lemma QuietedElsewhere(s: State, a: Action, u: nat)
    requires Enabled(s, a) && !a.Proceed? && !a.PollStep? && AllQuieted(s)
    requires u < |Step(s, a).threads| && Step(s, a).threads[u].ClearStale?
    ensures Quieted(Step(s, a), Step(s, a).threads[u].d)
  {
    assert Step(s, a).threads[u] == s.threads[u] && Quieted(s, s.threads[u].d);
  }

  // ----- every run -----

  ghost predicate Inv(s: State) {
    && OneToken(s, Reader) && OneToken(s, Writer)
    && ParkSafe(s, Reader) && ParkSafe(s, Writer) && AllStoreSafe(s)
    && LevelKnown(s) && SeenOk(s) && AllQuieted(s)
  }

  lemma StepInv(s: State, a: Action)
    requires Inv(s) && Enabled(s, a) && (a.Proceed? ==> !Forgets(s, a.t))
    ensures Inv(Step(s, a))
  {
    var s' := Step(s, a);
    OneTokenStep(s, a, Reader);
    OneTokenStep(s, a, Writer);
    ParkSafeStep(s, a, Reader);
    ParkSafeStep(s, a, Writer);
    LevelKnownStep(s, a);
    SeenOkStep(s, a);
    forall u | 0 <= u < |s'.threads| ensures StoreSafe(s', u) {
      if u < |s.threads| { StoreSafeStep(s, a, u); } else { StoreSafeStep(s, a, 0); }
    }
    forall u | 0 <= u < |s'.threads| && s'.threads[u].ClearStale? ensures Quieted(s', s'.threads[u].d) {
      QuietedStep(s, a, u);
    }
  }

  ghost predicate TokenInv(s: State) { OneToken(s, Reader) && OneToken(s, Writer) }

  lemma InitInv(s: State)
    requires Init(s)
    ensures Inv(s)
  {
    AllZero(OnReader, s.threads);
    AllZero(OnWriter, s.threads);
  }

  /** In every run, at most one thread acts for a handle: its dispatches never overlap,
      and neither does an arm with a dispatch. */
  lemma DispatchesNeverOverlap(run: seq<State>, k: nat, d: Direction, t: nat, u: nat)
    requires IsRun(Init, Next, run) && k < |run|
    requires t < |run[k].threads| && u < |run[k].threads|
    requires On(run[k].threads[t], d) && On(run[k].threads[u], d)
    ensures t == u
  {
    forall s | Init(s) ensures TokenInv(s) { InitInv(s); }
    forall s, s' | TokenInv(s) && Next(s, s') ensures TokenInv(s') {
      var a :| Enabled(s, a) && s' == Step(s, a);
      OneTokenStep(s, a, Reader);
      OneTokenStep(s, a, Writer);
    }
    Always(Init, Next, TokenInv, run, k);
    Exclusive(run[k], t, u, d);
  }

  /** Something will still get to the handle of direction `d`: an edge the kernel has not
      delivered, an event or the callback in the poll thread's hand, a queued or running
      dispatch, an arm in progress, or the other half of a shutdown. */
  ghost predicate Attended(s: State, d: Direction) {
    || s.edge
    || (s.poll.Fetched? && Shows(s.poll.ready, d))
    || (s.poll.Published? && Shows(s.poll.ready, d))
    || InHand(s.poll, d) > 0
    || Get(s, d).queued > 0 || Get(s, d).told > 0
    || s.registration.Marked?
    || exists t :: 0 <= t < |s.threads| && On(s.threads[t], d)
  }

  lemma SomebodyActs(s: State, d: Direction)
    requires Acting(s, d) > 0
    ensures exists t :: 0 <= t < |s.threads| && On(s.threads[t], d)
  {
    if d.Reader? {
      var t := PositiveWitness(OnReader, s.threads);
      assert On(s.threads[t], d);
    } else {
      var t := PositiveWitness(OnWriter, s.threads);
      assert On(s.threads[t], d);
    }
  }

  lemma InvAttends(s: State, d: Direction)
    requires Inv(s) && Get(s, d).active && Shows(s.level, d)
    ensures Attended(s, d)
  {
    if Acting(s, d) > 0 {
      SomebodyActs(s, d);
    } else {
      assert OneToken(s, d) && ParkSafe(s, d);
      ActingNonNegative(s, d);
    }
  }

  /** A step that is not a forgetting clear. */
  ghost predicate MindfulNext(s: State, t: State) {
    exists a :: Enabled(s, a) && t == Step(s, a) && (a.Proceed? ==> !Forgets(s, a.t))
  }

  lemma MindfulStep(s: State, t: State)
    requires Inv(s) && MindfulNext(s, t)
    ensures Inv(t)
  {
    var a :| Enabled(s, a) && t == Step(s, a) && (a.Proceed? ==> !Forgets(s, a.t));
    StepInv(s, a);
  }

  lemma MindfulInv(run: seq<State>, k: nat)
    requires IsRun(Init, MindfulNext, run) && k < |run|
    ensures Inv(run[k])
  {
    forall s | Init(s) ensures Inv(s) { InitInv(s); }
    forall s, t | Inv(s) && MindfulNext(s, t) ensures Inv(t) { MindfulStep(s, t); }
    Always(Init, MindfulNext, Inv, run, k);
  }

  /** Level-triggered: in every run without a forgetting clear, an active handle is never
      left parked on a descriptor the kernel calls ready. */
  lemma LevelTriggered(run: seq<State>, k: nat, d: Direction)
    requires IsRun(Init, MindfulNext, run) && k < |run|
    requires Get(run[k], d).active && Shows(run[k].level, d)
    ensures Attended(run[k], d)
  {
    MindfulInv(run, k);
    InvAttends(run[k], d);
  }
}

/** A forgetting clear in a run: with exactly 256 edges between the tick and the clear, the
    handle is parked for good on a readable descriptor. */
module FdHandleLap {
  import opened Options
  import opened Readiness
  import opened FdHandles
  import opened FdHandleLevel
  import opened Runs

  const READABLE := Bits(true, false, false, false, false)
  const UNUSED := Side(false, false, false, 0, 0, 0)

  /** One worker thread; a reader handle whose recorded tick is that of edge 1. */
  function One(level: Bits, edge: bool, bits: Bits, edges: nat, lock: Option<nat>,
               side: Side, poll: Poll, pc: Pc): State
  {
    State(level, edge, Status(bits, false, edges), lock, side, UNUSED, poll, Live, [pc], NO_LOG, NO_LOG)
  }

  lemma Then(run: seq<State>, a: Action, s: State) returns (longer: seq<State>)
    requires IsRun(Init, Next, run) && Enabled(run[|run| - 1], a) && s == Step(run[|run| - 1], a)
    ensures IsRun(Init, Next, longer) && longer[|longer| - 1] == s
  {
    longer := run + [s];
    Extend(Init, Next, run, s);
  }

  /** One edge arrives, is collected, published, finds nobody parked, and is done. */
  lemma OneEdge(run: seq<State>, level: Bits, bits: Bits, edges: nat, side: Side, pc: Pc)
    returns (longer: seq<State>)
    requires IsRun(Init, Next, run) && !side.parked
    requires (level == NOTHING || level == READABLE) && (bits == NOTHING || bits == READABLE)
    requires run[|run| - 1] == One(level, false, bits, edges, None, side, Waiting, pc)
    ensures IsRun(Init, Next, longer)
    ensures longer[|longer| - 1] == One(READABLE, false, READABLE, edges + 1, None, side, Waiting, pc)
  {
    longer := Then(run, Rise(READABLE), One(READABLE, true, bits, edges, None, side, Waiting, pc));
    longer := Then(longer, Fetch, One(READABLE, false, bits, edges, None, side, Fetched(READABLE), pc));
    longer := Then(longer, PollStep, One(READABLE, false, READABLE, edges + 1, None, side, Published(READABLE), pc));
    longer := Then(longer, PollStep, One(READABLE, false, READABLE, edges + 1, None, side, Calling(false, false), pc));
    longer := Then(longer, PollStep, One(READABLE, false, READABLE, edges + 1, None, side, Waiting, pc));
  }

  lemma {:induction false} ManyEdges(run: seq<State>, level: Bits, edges: nat, more: nat, side: Side, pc: Pc)
    returns (longer: seq<State>)
    requires IsRun(Init, Next, run) && !side.parked && more > 0 && (level == NOTHING || level == READABLE)
    requires run[|run| - 1] == One(level, false, READABLE, edges, None, side, Waiting, pc)
    ensures IsRun(Init, Next, longer)
    ensures longer[|longer| - 1] == One(READABLE, false, READABLE, edges + more, None, side, Waiting, pc)
    decreases more
  {
    longer := OneEdge(run, level, READABLE, edges, side, pc);
    if more > 1 {
      longer := ManyEdges(longer, READABLE, edges + 1, more - 1, side, pc);
    }
  }

  /** The reader is added over a stale bit and gets as far as clearing it. */
  lemma ReachesClear(run: seq<State>) returns (longer: seq<State>)
    requires IsRun(Init, Next, run)
    requires run[|run| - 1] == One(READABLE, false, READABLE, 1, None, UNUSED, Waiting, Idle)
    ensures IsRun(Init, Next, longer)
    ensures longer[|longer| - 1] ==
            One(NOTHING, false, READABLE, 1, None, Side(true, true, false, 1, 0, 0), Waiting, ClearStale(Reader, 1))
  {
    var side := Side(true, true, false, 0, 0, 0);
    longer := Then(run, Fall(NOTHING), One(NOTHING, false, READABLE, 1, None, UNUSED, Waiting, Idle));
    longer := Then(longer, Add(0, Reader), One(NOTHING, false, READABLE, 1, None, side, Waiting, Arm(Reader, 0)));
    longer := Then(longer, Proceed(0), One(NOTHING, false, READABLE, 1, None, side, Waiting, ArmFirst(Reader, 0)));
    longer := Then(longer, Proceed(0), One(NOTHING, false, READABLE, 1, None, side, Waiting, LoadTick(Reader, 0)));
    longer := Records(longer);
  }

  lemma Records(run: seq<State>) returns (longer: seq<State>)
    requires IsRun(Init, Next, run)
    requires run[|run| - 1] ==
             One(NOTHING, false, READABLE, 1, None, Side(true, true, false, 0, 0, 0), Waiting, LoadTick(Reader, 0))
    ensures IsRun(Init, Next, longer)
    ensures longer[|longer| - 1] ==
            One(NOTHING, false, READABLE, 1, None, Side(true, true, false, 1, 0, 0), Waiting, ClearStale(Reader, 1))
  {
    var side := Side(true, true, false, 0, 0, 0);
    longer := Then(run, Proceed(0), One(NOTHING, false, READABLE, 1, None, side, Waiting, StoreTick(Reader, 0, 1)));
    longer := Then(longer, Proceed(0), One(NOTHING, false, READABLE, 1, None, side.(seen := 1), Waiting, Probe(Reader, 0)));
    longer := Then(longer, Proceed(0), One(NOTHING, false, READABLE, 1, None, side.(seen := 1), Waiting, ClearStale(Reader, 1)));
  }

  /** The clear takes the newer edge's bit with it, and the handle parks. */
  lemma ParksForGood(run: seq<State>) returns (longer: seq<State>)
    requires IsRun(Init, Next, run)
    requires run[|run| - 1] ==
             One(READABLE, false, READABLE, 257, None, Side(true, true, false, 1, 0, 0), Waiting, ClearStale(Reader, 1))
    ensures IsRun(Init, Next, longer)
    ensures longer[|longer| - 1] ==
            One(READABLE, false, NOTHING, 257, None, Side(true, true, true, 1, 0, 0), Waiting, Idle)
  {
    var side := Side(true, true, false, 1, 0, 0);
    longer := Then(run, Proceed(0), One(READABLE, false, NOTHING, 257, None, side, Waiting, Arm(Reader, 1)));
    longer := Then(longer, Proceed(0), One(READABLE, false, NOTHING, 257, None, side, Waiting, ArmFirst(Reader, 1)));
    longer := Then(longer, Proceed(0), One(READABLE, false, NOTHING, 257, None, side, Waiting, ArmAgain(Reader, 1)));
    longer := Then(longer, Proceed(0), One(READABLE, false, NOTHING, 257, Some(0), side, Waiting, ArmStore(Reader, 1)));
    longer := Then(longer, Proceed(0), One(READABLE, false, NOTHING, 257, None, side.(parked := true), Waiting, Idle));
  }

  /** A run with 256 edges between the recorded tick and its clear ends with an active
      reader parked on a readable descriptor and nothing left to wake it. */
  lemma FullLapForgets() returns (run: seq<State>)
    ensures IsRun(Init, Next, run)
    ensures var s := run[|run| - 1];
            Get(s, Reader).active && Get(s, Reader).parked && Shows(s.level, Reader) && !Attended(s, Reader)
  {
    run := [One(NOTHING, false, NOTHING, 0, None, UNUSED, Waiting, Idle)];
    run := OneEdge(run, NOTHING, NOTHING, 0, UNUSED, Idle);
    run := ReachesClear(run);
    run := ManyEdges(run, NOTHING, 1, 256, Side(true, true, false, 1, 0, 0), ClearStale(Reader, 1));
    run := ParksForGood(run);
  }
}
