/** The feed/wait handoff of `mt_asyncio/asyncio/_streams.py`: one reading task, any
    number of feeders on other workers. The buffer operations of the standard library's
    parsing layer are taken as single steps. */
module Streams {
  import opened Runs

  type Byte = bv8

  /** The future the reading task parks on. */
  datatype Fut = NoFut | Pending | Done | Failed | Cancelled

  /** The reader's shared fields: `waiting` is whether `_waiter` is set, `fut` the state of
      the future last put there. */
  datatype Core = Core(buffer: seq<Byte>, eof: bool, failed: bool, feedGen: nat, seenGen: nat,
                       waiting: bool, fut: Fut)

  const EMPTY := Core([], false, false, 0, 0, false, NoFut)

  /** Something a reader can act on. */
  predicate Visible(c: Core) { c.buffer != [] || c.eof || c.failed }

  /** `_wakeup_waiter`, and what `set_exception` does to the waiter: settle it as `how`,
      unless it is cancelled. */
  function Woken(c: Core, how: Fut): Core {
    if c.waiting then c.(waiting := false, fut := if c.fut.Cancelled? then Cancelled else how) else c
  }

  /** `feed_data`: every call bumps the generation, but only a non-empty one wakes. */
  function FedData(c: Core, data: seq<Byte>): Core {
    var c1 := c.(feedGen := c.feedGen + 1);
    if data == [] then c1 else Woken(c1.(buffer := c.buffer + data), Done)
  }

  function FedEof(c: Core): Core { Woken(c.(feedGen := c.feedGen + 1, eof := true), Done) }

  function FedException(c: Core): Core { Woken(c.(feedGen := c.feedGen + 1, failed := true), Failed) }

  /** The critical section of `_wait_for_data` up to its decision: catch up with the
      generation, then either hand control back or register a waiter. */
  function Decided(c: Core): (Core, bool) {
    var caught := c.(seenGen := c.feedGen);
    if c.feedGen != c.seenGen && Visible(c) then (caught, false)
    else if c.eof || c.failed then (caught, false)
    else (caught.(waiting := true, fut := Pending), true)
  }

  class StreamReader {
    var buffer: seq<Byte>
    var eof: bool
    var failed: bool
    var feedGen: nat
    var seenGen: nat
    var waiting: bool
    var fut: Fut

    ghost function Contents(): Core
      reads this
    {
      Core(buffer, eof, failed, feedGen, seenGen, waiting, fut)
    }

    constructor ()
      ensures Contents() == EMPTY
    {
      buffer, eof, failed, feedGen, seenGen, waiting, fut := [], false, false, 0, 0, false, NoFut;
    }

    method WakeupWaiter(how: Fut)
      modifies this`waiting, this`fut
      ensures Contents() == Woken(old(Contents()), how)
    {
      if waiting {
        waiting := false;
        if fut != Cancelled { fut := how; }
      }
    }

    method FeedData(data: seq<Byte>)
      modifies this
      ensures Contents() == FedData(old(Contents()), data)
    {
      feedGen := feedGen + 1;
      if data == [] { return; }
      buffer := buffer + data;
      WakeupWaiter(Done);
    }

    method FeedEof()
      modifies this
      ensures Contents() == FedEof(old(Contents()))
    {
      feedGen := feedGen + 1;
      eof := true;
      WakeupWaiter(Done);
    }

    method SetException()
      modifies this
      ensures Contents() == FedException(old(Contents()))
    {
      feedGen := feedGen + 1;
      failed := true;
      WakeupWaiter(Failed);
    }

    method DecideToPark() returns (park: bool)
      modifies this
      ensures (Contents(), park) == Decided(old(Contents()))
    {
      if feedGen != seenGen {
        seenGen := feedGen;
        if buffer != [] || eof || failed { return false; }
      }
      if eof || failed { return false; }
      waiting := true;
      fut := Pending;
      return true;
    }
  }

  // ----- the reading task -----

  /** What a read waits for: anything at all, tested once, or so many bytes, tested in a loop. */
  datatype Need = Some(limit: nat) | Exactly(n: nat)

  predicate Satisfied(need: Need, buffer: seq<Byte>) {
    match need case Some(_) => buffer != [] case Exactly(n) => |buffer| >= n
  }

  predicate Sensible(need: Need) { match need case Some(limit) => limit > 0 case Exactly(n) => n > 0 }

  datatype Pc =
    | Outside                  // between reads
    | Checking(need: Need)     // testing the buffer
    | Deciding(need: Need)     // entering `_wait_for_data`'s critical section
    | Parked(need: Need)       // awaiting the future
    | CatchingUp(need: Need)   // resumed, `_waiter` reset, about to note the generation; then, if the future
                             //   was cancelled or failed, its exception leaves the read
    | Taking(need: Need)       // taking bytes from the buffer

  /** How a read ended: it gave its caller bytes (to `readexactly` at the end of the stream,
      those there were); raised the stream's exception; or was cancelled. */
  datatype Outcome = Gave(need: Need, bytes: seq<Byte>) | Raised(need: Need) | Interrupted(need: Need)

  /** All but `core` and `pc` record history: every byte that went in and came out; the waits
      that handed control back because the generation had moved; the feeds, whether the end
      or a failure was among them; whether a failure struck, or a cancellation stopped, the
      current or last read while it was parked; the reads begun, how each ended, and the cancellations; and the parked waits that a feed
      ended. */
  datatype State = State(core: Core, pc: Pc, fed: seq<Byte>, returned: seq<Byte>, early: nat,
                         feeds: nat, ended: bool, broken: bool, struck: bool, stopped: bool,
                         begun: nat, log: seq<Outcome>, cancels: nat, wakes: nat)

  datatype Action = Feed(data: seq<Byte>) | FeedEnd | FeedFailure | Read(need: Need) | CancelRead | Proceed

  predicate Init(s: State) { s == State(EMPTY, Outside, [], [], 0, 0, false, false, false, false, 0, [], 0, 0) }

  predicate Enabled(s: State, a: Action) {
    match a
    case Feed(_) => !s.core.eof
    case FeedEnd => true
    case FeedFailure => true
    case Read(need) => s.pc.Outside? && Sensible(need)
    case CancelRead => s.pc.Parked? && s.core.fut.Pending?
    case Proceed => !s.pc.Outside? && (s.pc.Parked? ==> !s.core.fut.Pending?)
  }

  /** What a read takes: up to its limit; or the bytes it waited for, all there is at the
      end of the stream. */
  function Share(need: Need, buffer: seq<Byte>): nat {
    var n := match need case Some(limit) => limit case Exactly(n) => n;
    if n <= |buffer| then n else |buffer|
  }

  function Proceeded(s: State): State
    requires Enabled(s, Proceed)
  {
    match s.pc
    case Outside => s
    case Checking(need) =>
      s.(pc := if Satisfied(need, s.core.buffer) || s.core.eof then Taking(need) else Deciding(need))
    case Deciding(need) =>
      var (core, park) := Decided(s.core);
      s.(core := core,
         pc := if park then Parked(need) else if need.Some? then Taking(need) else Checking(need),
         early := if !park && s.core.feedGen != s.core.seenGen then s.early + 1 else s.early)
    case Parked(need) => s.(core := s.core.(waiting := false), pc := CatchingUp(need))
    case CatchingUp(need) =>
      var s1 := s.(core := s.core.(seenGen := s.core.feedGen));
      if s.core.fut.Cancelled? then s1.(pc := Outside, log := s.log + [Interrupted(need)])
      else if s.core.fut.Failed? then s1.(pc := Outside, log := s.log + [Raised(need)])
      else s1.(pc := if need.Some? then Taking(need) else Checking(need), wakes := s.wakes + 1)
    case Taking(need) =>
      var k := Share(need, s.core.buffer);
      s.(core := s.core.(buffer := s.core.buffer[k..]), returned := s.returned + s.core.buffer[..k], pc := Outside,
         log := s.log + [Gave(need, s.core.buffer[..k])])
  }

  function Step(s: State, a: Action): State
    requires Enabled(s, a)
  {
    match a
    case Feed(data) => s.(core := FedData(s.core, data), fed := s.fed + data, feeds := s.feeds + 1)
    case FeedEnd => s.(core := FedEof(s.core), feeds := s.feeds + 1, ended := true)
    case FeedFailure =>
      s.(core := FedException(s.core), feeds := s.feeds + 1, broken := true,
         struck := s.struck || (s.pc.Parked? && s.core.fut.Pending?))
    case Read(need) =>
      var s1 := s.(begun := s.begun + 1, struck := false, stopped := false);
      if s.core.failed then s1.(log := s.log + [Raised(need)]) else s1.(pc := Checking(need))
    case CancelRead => s.(core := s.core.(fut := Cancelled), cancels := s.cancels + 1, stopped := true)
    case Proceed => Proceeded(s)
  }

  ghost predicate Next(s: State, t: State) {
    exists a :: Enabled(s, a) && t == Step(s, a)
  }

  predicate Inv(s: State) {
    && s.returned + s.core.buffer == s.fed
    && s.early + s.wakes <= s.core.seenGen <= s.core.feedGen
    && ((s.pc.Parked? || s.pc.CatchingUp?) && s.core.fut.Done? ==> s.core.seenGen < s.core.feedGen)
    && (!s.pc.Outside? ==> Sensible(s.pc.need))
    && (s.core.waiting ==> s.pc.Parked? && (s.core.fut.Pending? || s.core.fut.Cancelled?))
    && (s.pc.Deciding? && s.core.feedGen == s.core.seenGen ==> !Satisfied(s.pc.need, s.core.buffer))
    && (s.pc.Parked? && s.core.fut.Pending? ==>
          s.core.waiting && !Satisfied(s.pc.need, s.core.buffer) && !s.core.eof && !s.core.failed)
    && (s.pc.Parked? ==> !s.core.fut.NoFut?)
    && ((s.pc.Parked? || s.pc.CatchingUp?) && s.core.fut.Done? ==> Visible(s.core))
    && (s.pc.CatchingUp? ==> s.core.fut.Done? || s.core.fut.Failed? || s.core.fut.Cancelled?)
    && (s.pc.Taking? && s.pc.need.Some? ==> Visible(s.core))
    && (s.pc.Taking? && s.pc.need.Exactly? ==> |s.core.buffer| >= s.pc.need.n || s.core.eof)
    && Recorded(s)
  }

  /** What a read's ending says about the stream. */
  predicate OutcomeOk(s: State, o: Outcome) {
    match o
    case Gave(need, bytes) =>
      if need.Some? then |bytes| <= need.limit && (bytes == [] ==> s.ended || s.broken)
      else |bytes| <= need.n && (|bytes| < need.n ==> s.ended)
    case Raised(_) => s.broken
    case Interrupted(_) => s.cancels > 0
  }

  /** All the bytes the reads gave, in order. */
  function Given(log: seq<Outcome>): seq<Byte> {
    if log == [] then []
    else
      var o := log[|log| - 1];
      Given(log[..|log| - 1]) + if o.Gave? then o.bytes else []
  }

  predicate Recorded(s: State) {
    && (s.core.eof <==> s.ended) && (s.core.failed <==> s.broken) && s.core.feedGen == s.feeds
    && s.begun == |s.log| + (if s.pc.Outside? then 0 else 1)
    && Given(s.log) == s.returned
    && (forall i :: 0 <= i < |s.log| ==> OutcomeOk(s, s.log[i]))
    && (s.core.fut.Failed? ==> s.broken) && (s.core.fut.Cancelled? ==> s.cancels > 0)
    && (s.struck && !s.pc.Outside? ==> (s.pc.Parked? || s.pc.CatchingUp?) && s.core.fut.Failed?)
    && (s.stopped && !s.pc.Outside? ==> (s.pc.Parked? || s.pc.CatchingUp?) && s.core.fut.Cancelled?)
    && (s.stopped && s.pc.Outside? ==> s.log != [] && s.log[|s.log| - 1].Interrupted?)
    && (s.struck && s.pc.Outside? ==> s.log != [] && s.log[|s.log| - 1].Raised?)
  }

  /** One more read is over. */
  lemma Logged(s: State, s': State, o: Outcome)
    requires Recorded(s) && s'.log == s.log + [o] && s'.returned == s.returned + if o.Gave? then o.bytes else []
    requires s'.ended == s.ended && s'.broken == s.broken && s'.cancels == s.cancels && OutcomeOk(s', o)
    ensures Given(s'.log) == s'.returned && forall i :: 0 <= i < |s'.log| ==> OutcomeOk(s', s'.log[i])
  {
    assert s'.log[..|s'.log| - 1] == s.log;
  }

  lemma FeedInv(s: State, a: Action)
    requires Inv(s) && Enabled(s, a) && (a.Feed? || a.FeedEnd? || a.FeedFailure?)
    ensures Inv(Step(s, a))
  {
    if a.Feed? {
      assert s.returned + (s.core.buffer + a.data) == s.fed + a.data;
    }
  }

  lemma ProceedInv(s: State)
    requires Inv(s) && Enabled(s, Proceed)
    ensures Inv(Proceeded(s))
  {
    if s.pc.Taking? {
      TakeInv(s);
    } else if s.pc.CatchingUp? {
      CaughtUpInv(s);
    }
  }

  lemma TakeInv(s: State)
    requires Inv(s) && s.pc.Taking?
    ensures Inv(Proceeded(s))
  {
    var k := Share(s.pc.need, s.core.buffer);
    assert s.core.buffer[..k] + s.core.buffer[k..] == s.core.buffer;
    Logged(s, Proceeded(s), Gave(s.pc.need, s.core.buffer[..k]));
  }

  lemma CaughtUpInv(s: State)
    requires Inv(s) && s.pc.CatchingUp?
    ensures Inv(Proceeded(s))
  {
    if s.core.fut.Cancelled? {
      Logged(s, Proceeded(s), Interrupted(s.pc.need));
    } else if s.core.fut.Failed? {
      Logged(s, Proceeded(s), Raised(s.pc.need));
    }
  }

  lemma StepInv(s: State, a: Action)
    requires Inv(s) && Enabled(s, a)
    ensures Inv(Step(s, a))
  {
    if a.Proceed? {
      ProceedInv(s);
    } else if a.Read? {
      if s.core.failed { Logged(s, Step(s, a), Raised(a.need)); }
    } else if !a.CancelRead? {
      FeedInv(s, a);
    }
  }

  lemma RunInv(run: seq<State>, k: nat)
    requires IsRun(Init, Next, run) && k < |run|
    ensures Inv(run[k])
  {
    forall s, t | Inv(s) && Next(s, t) ensures Inv(t) {
      var a :| Enabled(s, a) && t == Step(s, a);
      StepInv(s, a);
    }
    Always(Init, Next, Inv, run, k);
  }

  /** No wake is lost: a task parked on a pending future is waiting for something that is
      not there yet, and its future is registered for the next feed to find. */
  lemma ParkedHasSeenEveryFeed(run: seq<State>, k: nat)
    requires IsRun(Init, Next, run) && k < |run|
    requires run[k].pc.Parked? && run[k].core.fut.Pending?
    ensures var c := run[k].core;
            c.waiting && !Satisfied(run[k].pc.need, c.buffer) && !c.eof && !c.failed
  {
    RunInv(run, k);
  }

  /** `read(n)` with `n > 0` comes back empty-handed only at the end of the stream or after
      a failure, even though it tests the buffer only once. */
  lemma EmptyReadMeansEnd(run: seq<State>, k: nat)
    requires IsRun(Init, Next, run) && k < |run|
    requires run[k].pc.Taking? && run[k].pc.need.Some?
    ensures Proceeded(run[k]).returned == run[k].returned ==> run[k].core.eof || run[k].core.failed
  {
    RunInv(run, k);
    var s := run[k];
    if s.core.buffer != [] {
      var k := Share(s.pc.need, s.core.buffer);
      assert k > 0 && |Proceeded(s).returned| == |s.returned| + k;
    }
  }

  /** Bytes come out once each, in the order they went in; and a wait comes back,
      early or woken, no more often than something was fed. */
  lemma NothingLostOrInvented(run: seq<State>, k: nat)
    requires IsRun(Init, Next, run) && k < |run|
    ensures run[k].returned + run[k].core.buffer == run[k].fed
    ensures run[k].early + run[k].wakes <= run[k].feeds
  {
    RunInv(run, k);
  }

  /** Every read keeps its word: all reads begun have ended but the one under way; `read(n)`
      gave at most `n` bytes, and some unless the stream had ended or failed; `readexactly(n)`
      gave exactly `n`, or fewer at the end; one raised only after a failure and one was
      interrupted only by a cancellation; and what they gave, in order, is what came out. */
  lemma ReadsKeepTheirWord(run: seq<State>, k: nat)
    requires IsRun(Init, Next, run) && k < |run|
    ensures var s := run[k];
            && s.begun == |s.log| + (if s.pc.Outside? then 0 else 1)
            && Given(s.log) == s.returned
            && (s.core.eof <==> s.ended) && (s.core.failed <==> s.broken)
    ensures forall i :: 0 <= i < |run[k].log| && run[k].log[i].Gave? ==>
              var o := run[k].log[i];
              if o.need.Some? then |o.bytes| <= o.need.limit && (o.bytes == [] ==> run[k].ended || run[k].broken)
              else |o.bytes| <= o.need.n && (|o.bytes| < o.need.n ==> run[k].ended)
    ensures forall i :: 0 <= i < |run[k].log| ==>
              (run[k].log[i].Raised? ==> run[k].broken) && (run[k].log[i].Interrupted? ==> run[k].cancels > 0)
  {
    RunInv(run, k);
    forall i | 0 <= i < |run[k].log| ensures OutcomeOk(run[k], run[k].log[i]) {}
  }

  /** A cancellation interrupts the read it finds parked, whatever is fed before the task
      gets to run. */
  lemma CancelInterruptsTheParkedRead(run: seq<State>, k: nat)
    requires IsRun(Init, Next, run) && k < |run| && run[k].stopped
    ensures !run[k].pc.Outside? ==> (run[k].pc.Parked? || run[k].pc.CatchingUp?) && run[k].core.fut.Cancelled?
    ensures run[k].pc.Outside? ==> run[k].log != [] && run[k].log[|run[k].log| - 1].Interrupted?
  {
    RunInv(run, k);
  }

  /** A failure raises in the read it finds parked: until that read is over it can only
      raise, and then it has raised. */
  lemma FailureRaisesInTheParkedRead(run: seq<State>, k: nat)
    requires IsRun(Init, Next, run) && k < |run| && run[k].struck
    ensures !run[k].pc.Outside? ==> (run[k].pc.Parked? || run[k].pc.CatchingUp?) && run[k].core.fut.Failed?
    ensures run[k].pc.Outside? ==> run[k].log != [] && run[k].log[|run[k].log| - 1].Raised?
  {
    RunInv(run, k);
  }
}
