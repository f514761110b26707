/** Registration lifetimes in `src/runtime.rs`. A registration's token is the address of
    its `ScheduledIO`, and addresses are used again after they are freed; the poll thread
    dereferences tokens found in a batch of events fetched earlier. */
module Registrations {
  import opened Runs

  type Addr = nat
  type Fd = nat

  /** One `ScheduledIO` in memory: which registration it is, and of which descriptor. */
  datatype Entry = Entry(id: nat, fd: Fd)

  /** An event carries a token; `id` records which registration it was generated for. */
  datatype Event = Event(token: Addr, id: nat)

  datatype Pc =
    | Idle
    | Inserted(a: Addr)    // `io_register`: in the map, about to ask the kernel
    | Undoing(a: Addr)     //   the kernel refused: about to leave the map
    | Removed(a: Addr)     // `io_deregister`: out of the map, about to tell the kernel
    | Unhooked(a: Addr)    //   out of the kernel, about to queue for release
    | Queued(a: Addr)      //   queued, about to raise the flag

  /** The poll thread: before the release point; told to release; about to poll; dispatching. */
  datatype Poll = AtRelease | Releasing | AboutToPoll | Dispatching

  datatype State = State(
    memory: map<Addr, Entry>,       // every live `ScheduledIO`
    registered: set<Addr>,          // `io_registrations`
    kernel: map<Fd, Event>,         // the poller's interest set
    batch: seq<Event>,              // events fetched and not dispatched yet
    pending: seq<Addr>,             // `io_pending_release`
    needsRelease: bool,
    users: multiset<Addr>,          // references held by the descriptors' users
    poll: Poll, threads: seq<Pc>, nextId: nat)

  datatype Action =
    | Register(t: nat, fd: Fd, a: Addr)
    | KernelAccepts(t: nat)
    | KernelRefuses(t: nat)
    | Undo(t: nat)
    | Deregister(t: nat, a: Addr)
    | Proceed(t: nat)
    | CloseFd(fd: Fd)               // the kernel forgets a closed descriptor
    | Share(a: Addr)                // a user clones or drops its reference
    | Unshare(a: Addr)
    | Free(a: Addr)                 // the last reference is gone
    | Fetch(events: seq<Event>)
    | PollStep

  predicate Init(s: State) {
    && s.memory == map[] && s.registered == {} && s.kernel == map[] && s.batch == [] && s.pending == []
    && s.users == multiset{} && s.poll.AtRelease? && !s.needsRelease
    && forall t :: 0 <= t < |s.threads| ==> s.threads[t].Idle?
  }

  predicate Holds(pc: Pc, a: Addr) { !pc.Idle? && pc.a == a }

  /** Somebody owns a reference to the entry at `a`. */
  predicate Owned(s: State, a: Addr) {
    || a in s.registered || a in s.pending || a in s.users
    || exists t :: 0 <= t < |s.threads| && Holds(s.threads[t], a)
  }

  predicate Enabled(s: State, x: Action) {
    match x
    case Register(t, _, a) => t < |s.threads| && s.threads[t].Idle? && a !in s.memory
    case KernelAccepts(t) =>
      t < |s.threads| && s.threads[t].Inserted? && s.threads[t].a in s.memory
      && s.memory[s.threads[t].a].fd !in s.kernel
    case KernelRefuses(t) => t < |s.threads| && s.threads[t].Inserted?
    case Undo(t) => t < |s.threads| && s.threads[t].Undoing?
    case Deregister(t, a) => t < |s.threads| && s.threads[t].Idle? && a in s.users
    case Proceed(t) =>
      t < |s.threads| && (s.threads[t].Removed? || s.threads[t].Unhooked? || s.threads[t].Queued?)
      && s.threads[t].a in s.memory
    case CloseFd(_) => true
    case Share(a) => a in s.users
    case Unshare(a) => a in s.users
    case Free(a) => a in s.memory && !Owned(s, a)
    case Fetch(events) => s.poll.AboutToPoll? && forall e :: e in events ==> e in s.kernel.Values
    case PollStep => !s.poll.AboutToPoll?
  }

  function Move(s: State, t: nat, pc: Pc): State
    requires t < |s.threads|
  {
    s.(threads := s.threads[t := pc])
  }

  function Step(s: State, x: Action): State
    requires Enabled(s, x)
  {
    match x
    case Register(t, fd, a) =>
      Move(s, t, Inserted(a)).(memory := s.memory[a := Entry(s.nextId, fd)], registered := s.registered + {a},
                               nextId := s.nextId + 1)
    case KernelAccepts(t) =>
      var a := s.threads[t].a;
      Move(s, t, Idle).(kernel := s.kernel[s.memory[a].fd := Event(a, s.memory[a].id)],
                        users := s.users + multiset{a})
    case KernelRefuses(t) => Move(s, t, Undoing(s.threads[t].a))
    case Undo(t) => Move(s, t, Idle).(registered := s.registered - {s.threads[t].a})
    case Deregister(t, a) =>
      if a in s.registered then Move(s, t, Removed(a)).(registered := s.registered - {a}) else s
    case Proceed(t) =>
      var a := s.threads[t].a;
      if s.threads[t].Removed? then Move(s, t, Unhooked(a)).(kernel := s.kernel - {s.memory[a].fd})
      else if s.threads[t].Unhooked? then Move(s, t, Queued(a)).(pending := s.pending + [a])
      else Move(s, t, Idle).(needsRelease := true)
    case CloseFd(fd) => s.(kernel := s.kernel - {fd})
    case Share(a) => s.(users := s.users + multiset{a})
    case Unshare(a) => s.(users := s.users - multiset{a})
    case Free(a) => s.(memory := s.memory - {a})
    case Fetch(events) => s.(batch := events, poll := Dispatching)
    case PollStep =>
      match s.poll
      case AtRelease => if s.needsRelease then s.(needsRelease := false, poll := Releasing) else s.(poll := AboutToPoll)
      case Releasing => s.(pending := [], poll := AboutToPoll)
      case Dispatching => if s.batch == [] then s.(poll := AtRelease) else s.(batch := s.batch[1..])
      case AboutToPoll => s
  }

  ghost predicate Next(s: State, t: State) {
    exists x :: Enabled(s, x) && t == Step(s, x)
  }

  // ----- tokens name live registrations -----

  predicate Unhooking(pc: Pc, a: Addr) { pc == Removed(a) }

  predicate Leaving(pc: Pc, a: Addr) { pc == Removed(a) || pc == Unhooked(a) }

  /** The kernel knows a token only while its entry is in the map, or a deregister that
      took it out has not reached the kernel yet. */
  ghost predicate KernelHeld(s: State, a: Addr) {
    a in s.registered || exists t :: 0 <= t < |s.threads| && Unhooking(s.threads[t], a)
  }

  /** A fetched token's entry is in the map, with a deregister, or waiting for release. */
  ghost predicate BatchHeld(s: State, a: Addr) {
    a in s.registered || a in s.pending || exists t :: 0 <= t < |s.threads| && Leaving(s.threads[t], a)
  }

  /** The token points at the registration the event was generated for. */
  predicate Names(s: State, e: Event) {
    e.token in s.memory && s.memory[e.token].id == e.id
  }

  ghost predicate KernelOk(s: State) {
    forall fd :: fd in s.kernel ==>
      Names(s, s.kernel[fd]) && s.memory[s.kernel[fd].token].fd == fd && KernelHeld(s, s.kernel[fd].token)
  }

  ghost predicate BatchOk(s: State) {
    && (s.batch != [] ==> s.poll.Dispatching?)
    && forall i :: 0 <= i < |s.batch| ==> Names(s, s.batch[i]) && BatchHeld(s, s.batch[i].token)
  }

  /** Whoever owns a reference owns it to something in memory. */
  ghost predicate OwnersOk(s: State) { forall a :: Owned(s, a) ==> a in s.memory }

  /** A registration still being made, or undone, is known to nobody else. */
  ghost predicate BirthOk(s: State) {
    forall t :: 0 <= t < |s.threads| && (s.threads[t].Inserted? || s.threads[t].Undoing?) ==> Private(s, t, s.threads[t].a)
  }

  ghost predicate Private(s: State, t: nat, a: Addr) {
    && a !in s.users && a in s.registered
    && (forall fd :: fd in s.kernel ==> s.kernel[fd].token != a)
    && (forall i :: 0 <= i < |s.batch| ==> s.batch[i].token != a)
    && (forall u :: 0 <= u < |s.threads| && u != t ==> !Holds(s.threads[u], a))
  }

  ghost predicate Inv(s: State) { KernelOk(s) && BatchOk(s) && OwnersOk(s) && BirthOk(s) }

  /** Nothing is freed or overwritten in memory while it is owned. */
  lemma MemoryKept(s: State, x: Action, a: Addr)
    requires Enabled(s, x) && a in s.memory && Owned(s, a)
    ensures a in Step(s, x).memory && Step(s, x).memory[a] == s.memory[a]
  {
  }

  lemma KernelHeldOwned(s: State, a: Addr)
    requires KernelHeld(s, a) || BatchHeld(s, a)
    ensures Owned(s, a)
  {
    if a !in s.registered && KernelHeld(s, a) {
      var t :| 0 <= t < |s.threads| && Unhooking(s.threads[t], a);
      assert Holds(s.threads[t], a);
    } else if a !in s.registered && a !in s.pending {
      var t :| 0 <= t < |s.threads| && Leaving(s.threads[t], a);
      assert Holds(s.threads[t], a);
    }
  }

  lemma KernelHeldStep(s: State, x: Action, a: Addr)
    requires Enabled(s, x) && KernelHeld(s, a)
    requires x.Undo? ==> s.threads[x.t].a != a
    requires x.Proceed? ==> s.threads[x.t] != Removed(a)
    ensures KernelHeld(Step(s, x), a)
  {
    if a in s.registered {
      Delisted(s, x, a);
      if a !in Step(s, x).registered { assert Unhooking(Step(s, x).threads[x.t], a); }
    } else {
      var t :| 0 <= t < |s.threads| && Unhooking(s.threads[t], a);
      LeaverStays(s, x, t);
      assert Unhooking(Step(s, x).threads[t], a);
    }
  }

  /** An entry leaves the map by an undo or with a deregister. */
  lemma Delisted(s: State, x: Action, a: Addr)
    requires Enabled(s, x) && a in s.registered && (x.Undo? ==> s.threads[x.t].a != a)
    ensures a in Step(s, x).registered || (x.Deregister? && x.t < |Step(s, x).threads| && Step(s, x).threads[x.t] == Removed(a))
  {
  }

  /** A thread inside a deregister moves only by its own next step. */
  lemma LeaverStays(s: State, x: Action, t: nat)
    requires Enabled(s, x) && t < |s.threads| && (s.threads[t].Removed? || s.threads[t].Unhooked?) && x != Proceed(t)
    ensures |Step(s, x).threads| == |s.threads| && Step(s, x).threads[t] == s.threads[t]
  {
  }

  lemma KernelOkStep(s: State, x: Action, fd: Fd)
    requires Inv(s) && Enabled(s, x) && fd in Step(s, x).kernel
    ensures var s' := Step(s, x);
            Names(s', s'.kernel[fd]) && s'.memory[s'.kernel[fd].token].fd == fd && KernelHeld(s', s'.kernel[fd].token)
  {
    var s' := Step(s, x);
    if x.KernelAccepts? && s.memory[s.threads[x.t].a].fd == fd {
      assert Private(s, x.t, s.threads[x.t].a);
    } else {
      assert fd in s.kernel && s.kernel[fd] == s'.kernel[fd];
      var a := s.kernel[fd].token;
      assert KernelHeld(s, a) && Names(s, s.kernel[fd]);
      KernelHeldOwned(s, a);
      MemoryKept(s, x, a);
      if x.Undo? { assert Private(s, x.t, s.threads[x.t].a); }
      KernelHeldStep(s, x, a);
    }
  }

  lemma BatchHeldStep(s: State, x: Action, a: Addr)
    requires Enabled(s, x) && BatchHeld(s, a) && s.poll.Dispatching?
    requires x.Undo? ==> s.threads[x.t].a != a
    ensures BatchHeld(Step(s, x), a)
  {
    var s' := Step(s, x);
    if a in s.registered {
      Delisted(s, x, a);
      if a !in s'.registered { assert Leaving(s'.threads[x.t], a); }
    } else if a in s.pending {
      StaysPending(s, x, a);
    } else {
      var t :| 0 <= t < |s.threads| && Leaving(s.threads[t], a);
      if x == Proceed(t) {
        LeaverProceeds(s, t, a);
      } else {
        LeaverStays(s, x, t);
        assert Leaving(s'.threads[t], a);
      }
    }
  }

  /** Only the release point empties the release list. */
  lemma StaysPending(s: State, x: Action, a: Addr)
    requires Enabled(s, x) && a in s.pending && s.poll.Dispatching?
    ensures a in Step(s, x).pending
  {
  }

  lemma LeaverProceeds(s: State, t: nat, a: Addr)
    requires Enabled(s, Proceed(t)) && Leaving(s.threads[t], a)
    ensures BatchHeld(Step(s, Proceed(t)), a)
  {
    var s' := Step(s, Proceed(t));
    if s.threads[t].Unhooked? {
      assert s'.pending[|s.pending|] == a;
    } else {
      assert Leaving(s'.threads[t], a);
    }
  }

  lemma BatchEventStep(s: State, x: Action, e: Event)
    requires Inv(s) && Enabled(s, x) && e in Step(s, x).batch
    ensures Names(Step(s, x), e) && BatchHeld(Step(s, x), e.token)
  {
    if x.Fetch? {
      FetchedEvent(s, x, e);
    } else {
      assert e in s.batch;
      var i :| 0 <= i < |s.batch| && s.batch[i] == e;
      KernelHeldOwned(s, e.token);
      MemoryKept(s, x, e.token);
      if x.Undo? { assert Private(s, x.t, s.threads[x.t].a); }
      BatchHeldStep(s, x, e.token);
    }
  }

  lemma FetchedEvent(s: State, x: Action, e: Event)
    requires KernelOk(s) && Enabled(s, x) && x.Fetch? && e in x.events
    ensures Names(Step(s, x), e) && BatchHeld(Step(s, x), e.token)
  {
    var s' := Step(s, x);
    var fd :| fd in s.kernel && s.kernel[fd] == e;
    assert KernelHeld(s, e.token) && Names(s, e);
    if e.token !in s.registered {
      var t :| 0 <= t < |s.threads| && Unhooking(s.threads[t], e.token);
      assert Leaving(s'.threads[t], e.token);
    }
  }

  lemma BatchOkStep(s: State, x: Action)
    requires Inv(s) && Enabled(s, x)
    ensures BatchOk(Step(s, x))
  {
    var s' := Step(s, x);
    forall i | 0 <= i < |s'.batch| ensures Names(s', s'.batch[i]) && BatchHeld(s', s'.batch[i].token) {
      BatchEventStep(s, x, s'.batch[i]);
    }
  }

  /** Ownership starts with the allocation and is passed on from owner to owner. */
  lemma OwnedBefore(s: State, x: Action, a: Addr)
    requires Enabled(s, x) && Owned(Step(s, x), a) && !(x.Register? && x.a == a)
    ensures Owned(s, a)
  {
    var s' := Step(s, x);
    if t :| 0 <= t < |s'.threads| && Holds(s'.threads[t], a) {
      HeldBefore(s, x, a, t);
    } else {
      ListedBefore(s, x, a);
    }
  }

  lemma HeldBefore(s: State, x: Action, a: Addr, t: nat)
    requires Enabled(s, x) && t < |Step(s, x).threads| && Holds(Step(s, x).threads[t], a) && !(x.Register? && x.a == a)
    ensures Owned(s, a)
  {
    assert t < |s.threads|;
    if x.Deregister? && x.t == t {
    } else {
      assert Holds(s.threads[t], a);
    }
  }

  lemma ListedBefore(s: State, x: Action, a: Addr)
    requires Enabled(s, x) && !(x.Register? && x.a == a)
    requires a in Step(s, x).registered || a in Step(s, x).pending || a in Step(s, x).users
    ensures Owned(s, a)
  {
    var s' := Step(s, x);
    if a in s'.users {
      UsersBefore(s, x, a);
    } else if a in s'.pending {
      PendingBefore(s, x, a);
    } else {
      assert a in s.registered;
    }
  }

  lemma UsersBefore(s: State, x: Action, a: Addr)
    requires Enabled(s, x) && a in Step(s, x).users
    ensures Owned(s, a)
  {
    if x.KernelAccepts? { assert Holds(s.threads[x.t], s.threads[x.t].a); }
  }

  lemma PendingBefore(s: State, x: Action, a: Addr)
    requires Enabled(s, x) && a in Step(s, x).pending
    ensures Owned(s, a)
  {
    if x.Proceed? { assert Holds(s.threads[x.t], s.threads[x.t].a); }
  }

  lemma OwnersOkStep(s: State, x: Action)
    requires OwnersOk(s) && Enabled(s, x)
    ensures OwnersOk(Step(s, x))
  {
    forall a | Owned(Step(s, x), a) ensures a in Step(s, x).memory {
      if !(x.Register? && x.a == a) {
        OwnedBefore(s, x, a);
        MemoryKept(s, x, a);
      }
    }
  }

  predicate Unborn(pc: Pc) { pc.Inserted? || pc.Undoing? }

  /** Nobody else comes to hold an address that is still private to `t`. */
  lemma OnlyHolder(s: State, x: Action, t: nat, u: nat)
    requires Enabled(s, x) && t < |s.threads| && u < |s.threads| && u != t
    requires Unborn(s.threads[t]) && Private(s, t, s.threads[t].a) && s.threads[t].a in s.memory
    ensures |Step(s, x).threads| == |s.threads| && !Holds(Step(s, x).threads[u], s.threads[t].a)
  {
  }

  lemma KernelKnowsOnly(s: State, x: Action, a: Addr)
    requires Enabled(s, x) && (forall fd :: fd in s.kernel ==> s.kernel[fd].token != a)
    requires x.KernelAccepts? ==> s.threads[x.t].a != a
    ensures forall fd :: fd in Step(s, x).kernel ==> Step(s, x).kernel[fd].token != a
  {
  }

  lemma StaysListed(s: State, x: Action, a: Addr)
    requires Enabled(s, x) && a in s.registered && a !in s.users
    requires x.KernelAccepts? || x.Undo? ==> s.threads[x.t].a != a
    ensures a in Step(s, x).registered && a !in Step(s, x).users
  {
  }

  lemma PrivateStep(s: State, x: Action, t: nat)
    requires Inv(s) && Enabled(s, x) && t < |s.threads| && Unborn(s.threads[t])
    requires x != KernelAccepts(t) && x != Undo(t)
    ensures Private(Step(s, x), t, s.threads[t].a)
  {
    var a, s' := s.threads[t].a, Step(s, x);
    assert Private(s, t, a);
    assert Holds(s.threads[t], a) && Owned(s, a);
    forall u | 0 <= u < |s'.threads| && u != t ensures !Holds(s'.threads[u], a) { OnlyHolder(s, x, t, u); }
    if x.KernelAccepts? || x.Undo? { assert !Holds(s.threads[x.t], a); }
    KernelKnowsOnly(s, x, a);
    StaysListed(s, x, a);
    BatchKnowsOnly(s, x, a);
  }

  lemma BatchKnowsOnly(s: State, x: Action, a: Addr)
    requires Enabled(s, x)
    requires forall fd :: fd in s.kernel ==> s.kernel[fd].token != a
    requires forall i :: 0 <= i < |s.batch| ==> s.batch[i].token != a
    ensures forall i :: 0 <= i < |Step(s, x).batch| ==> Step(s, x).batch[i].token != a
  {
    if x.Fetch? {
      forall i | 0 <= i < |x.events| ensures x.events[i].token != a { assert x.events[i] in s.kernel.Values; }
    }
  }

  lemma StillUnborn(s: State, x: Action, t: nat)
    requires Enabled(s, x) && t < |Step(s, x).threads| && Unborn(Step(s, x).threads[t]) && !(x.Register? && x.t == t)
    ensures t < |s.threads| && Unborn(s.threads[t]) && Step(s, x).threads[t].a == s.threads[t].a
    ensures x != KernelAccepts(t) && x != Undo(t)
  {
  }

  lemma BirthOkStep(s: State, x: Action)
    requires Inv(s) && Enabled(s, x)
    ensures BirthOk(Step(s, x))
  {
    var s' := Step(s, x);
    forall t | 0 <= t < |s'.threads| && (s'.threads[t].Inserted? || s'.threads[t].Undoing?)
      ensures Private(s', t, s'.threads[t].a)
    {
      if x.Register? && x.t == t {
        BornPrivate(s, x);
      } else {
        StillUnborn(s, x, t);
        PrivateStep(s, x, t);
      }
    }
  }

  lemma BornPrivate(s: State, x: Action)
    requires Inv(s) && Enabled(s, x) && x.Register?
    ensures Private(Step(s, x), x.t, x.a)
  {
    forall fd | fd in s.kernel ensures s.kernel[fd].token != x.a { assert Names(s, s.kernel[fd]); }
    forall i | 0 <= i < |s.batch| ensures s.batch[i].token != x.a { assert Names(s, s.batch[i]); }
    assert !Owned(s, x.a);
  }

  lemma StepInv(s: State, x: Action)
    requires Inv(s) && Enabled(s, x)
    ensures Inv(Step(s, x))
  {
    forall fd | fd in Step(s, x).kernel
      ensures var s' := Step(s, x);
              Names(s', s'.kernel[fd]) && s'.memory[s'.kernel[fd].token].fd == fd && KernelHeld(s', s'.kernel[fd].token)
    {
      KernelOkStep(s, x, fd);
    }
    BatchOkStep(s, x);
    OwnersOkStep(s, x);
    BirthOkStep(s, x);
  }

  /** In every run, whatever addresses are freed and used again: every token the kernel
      knows or a batch still carries points at the registration it was issued for, which
      the map, a deregister in progress or the release list still owns. */
  lemma TokensNameLiveRegistrations(run: seq<State>, k: nat)
    requires IsRun(Init, Next, run) && k < |run|
    ensures var s := run[k];
            && (forall fd :: fd in s.kernel ==> Names(s, s.kernel[fd]) && KernelHeld(s, s.kernel[fd].token))
            && (forall i :: 0 <= i < |s.batch| ==> Names(s, s.batch[i]) && BatchHeld(s, s.batch[i].token))
  {
    forall s, t | Inv(s) && Next(s, t) ensures Inv(t) {
      var x :| Enabled(s, x) && t == Step(s, x);
      StepInv(s, x);
    }
    Always(Init, Next, Inv, run, k);
  }

  // ----- what is queued for release is released -----

  ghost predicate RaisePending(s: State, a: Addr) {
    exists t :: 0 <= t < |s.threads| && s.threads[t] == Queued(a)
  }

  /** Whatever lies in the release list: the flag is up, the poll thread is about to empty
      the list, or the deregister that put it there is about to raise the flag. */
  ghost predicate Flagged(s: State) {
    forall a :: a in s.pending ==> s.needsRelease || s.poll.Releasing? || RaisePending(s, a)
  }

  lemma FlaggedStep(s: State, x: Action, a: Addr)
    requires Flagged(s) && Enabled(s, x) && a in Step(s, x).pending
    ensures var s' := Step(s, x); s'.needsRelease || s'.poll.Releasing? || RaisePending(s', a)
  {
    if x.Proceed? {
      FlaggedProceed(s, x.t, a);
    } else if x.PollStep? {
      FlaggedPoll(s, a);
    } else {
      FlaggedElsewhere(s, x, a);
    }
  }

  lemma FlaggedPoll(s: State, a: Addr)
    requires Flagged(s) && Enabled(s, PollStep) && a in Step(s, PollStep).pending
    ensures var s' := Step(s, PollStep); s'.needsRelease || s'.poll.Releasing? || RaisePending(s', a)
  {
    assert Step(s, PollStep).threads == s.threads;
    assert !s.poll.Releasing? && a in s.pending;
  }

  lemma FlaggedProceed(s: State, t: nat, a: Addr)
    requires Flagged(s) && Enabled(s, Proceed(t)) && a in Step(s, Proceed(t)).pending
    ensures var s' := Step(s, Proceed(t)); s'.needsRelease || s'.poll.Releasing? || RaisePending(s', a)
  {
    var s' := Step(s, Proceed(t));
    if s.threads[t] == Unhooked(a) {
      assert s'.threads[t] == Queued(a);
    } else if !s.threads[t].Queued? && RaisePending(s, a) {
      var u :| 0 <= u < |s.threads| && s.threads[u] == Queued(a);
      assert s'.threads[u] == Queued(a);
    }
  }

  lemma FlaggedElsewhere(s: State, x: Action, a: Addr)
    requires Flagged(s) && Enabled(s, x) && !x.Proceed? && !x.PollStep? && a in Step(s, x).pending
    ensures var s' := Step(s, x); s'.needsRelease || s'.poll.Releasing? || RaisePending(s', a)
  {
    assert a in s.pending;
    if RaisePending(s, a) {
      var u :| 0 <= u < |s.threads| && s.threads[u] == Queued(a);
      assert Step(s, x).threads[u] == Queued(a);
    }
  }

  /** In every run, at the release point: an address in the list whose deregister is over is
      out of the list once the poll thread has passed that point. */
  lemma ReleasePointReleases(run: seq<State>, k: nat, a: Addr)
    requires IsRun(Init, Next, run) && k < |run|
    requires run[k].poll.AtRelease? && a in run[k].pending && !RaisePending(run[k], a)
    ensures Enabled(run[k], PollStep) && Enabled(Step(run[k], PollStep), PollStep)
    ensures var s' := Step(Step(run[k], PollStep), PollStep); a !in s'.pending && s'.poll.AboutToPoll?
  {
    forall s, t | Flagged(s) && Next(s, t) ensures Flagged(t) {
      var x :| Enabled(s, x) && t == Step(s, x);
      forall b | b in t.pending ensures t.needsRelease || t.poll.Releasing? || RaisePending(t, b) { FlaggedStep(s, x, b); }
    }
    Always(Init, Next, Flagged, run, k);
  }

  // ----- the undisturbed calls as an object -----

  /** The steps `xs`, each enabled in turn, lead from `s` to `s'`. */
  predicate Leads(s: State, xs: seq<Action>, s': State)
    decreases |xs|
  {
    if xs == [] then s == s' else Enabled(s, xs[0]) && Leads(Step(s, xs[0]), xs[1..], s')
  }

  class Runtime {
    var memory: map<Addr, Entry>
    var registered: set<Addr>
    var kernel: map<Fd, Event>
    var pending: seq<Addr>
    var needsRelease: bool
    var users: multiset<Addr>
    var nextId: nat

    /** The runtime between calls, with one thread to call it and the poller at `poll`. */
    function View(poll: Poll): State
      reads this
    {
      State(memory, registered, kernel, [], pending, needsRelease, users, poll, [Idle], nextId)
    }

    constructor ()
      ensures Init(View(AtRelease))
    {
      memory, registered, kernel, pending := map[], {}, map[], [];
      needsRelease, users, nextId := false, multiset{}, 0;
    }

    /** `io_register`: the entry is in the map before the kernel hears of it, and out of it
        again if the kernel refuses. */
    method IoRegister(fd: Fd, a: Addr, accepted: bool) returns (ok: bool)
      requires a !in memory && a !in registered && (accepted ==> fd !in kernel)
      modifies this
      ensures ok == accepted
      ensures ok ==> Leads(old(View(AtRelease)), [Register(0, fd, a), KernelAccepts(0)], View(AtRelease))
      ensures !ok ==> Leads(old(View(AtRelease)), [Register(0, fd, a), KernelRefuses(0), Undo(0)], View(AtRelease))
      ensures memory == old(memory)[a := Entry(old(nextId), fd)] && pending == old(pending)
      ensures ok ==>
                && registered == old(registered) + {a} && kernel == old(kernel)[fd := Event(a, old(nextId))]
                && users == old(users) + multiset{a}
      ensures !ok ==> registered == old(registered) && kernel == old(kernel) && users == old(users)
    {
      ghost var s0 := View(AtRelease);
      memory := memory[a := Entry(nextId, fd)];
      registered := registered + {a};
      nextId := nextId + 1;
      if !accepted {
        registered := registered - {a};
        RefusedAlone(s0, fd, a);
        assert registered == s0.registered;
        return false;
      }
      kernel := kernel[fd := Event(a, memory[a].id)];
      users := users + multiset{a};
      AcceptedAlone(s0, fd, a);
      return true;
    }

    /** `io_deregister`: out of the map, out of the kernel, and only then queued for the
        release point; a second call finds nothing to do. */
    method IoDeregister(a: Addr)
      requires a in users && a in memory
      modifies this
      ensures a in old(registered) ==>
                Leads(old(View(AtRelease)), [Deregister(0, a), Proceed(0), Proceed(0), Proceed(0)], View(AtRelease))
      ensures a in old(registered) ==>
                && registered == old(registered) - {a} && kernel == old(kernel) - {old(memory)[a].fd}
                && pending == old(pending) + [a] && needsRelease
      ensures a !in old(registered) ==> View(AtRelease) == old(View(AtRelease))
    {
      if a !in registered { return; }
      ghost var s0 := View(AtRelease);
      registered := registered - {a};
      kernel := kernel - {memory[a].fd};
      pending := pending + [a];
      needsRelease := true;
      LeadsFour(s0, Deregister(0, a), Proceed(0));
      assert View(AtRelease) == Step(Step(Step(Step(s0, Deregister(0, a)), Proceed(0)), Proceed(0)), Proceed(0));
    }

    /** The top of `poll`. */
    method ReleasePoint()
      modifies this
      ensures old(needsRelease) ==> Leads(old(View(AtRelease)), [PollStep, PollStep], View(AboutToPoll))
      ensures !old(needsRelease) ==> Leads(old(View(AtRelease)), [PollStep], View(AboutToPoll))
      ensures old(needsRelease) ==> pending == [] && !needsRelease
      ensures !old(needsRelease) ==> pending == old(pending)
    {
      ghost var s0 := View(AtRelease);
      if needsRelease {
        needsRelease := false;
        pending := [];
        LeadsTwo(s0, PollStep, PollStep);
      }
    }
  }

  lemma RefusedAlone(s: State, fd: Fd, a: Addr)
    requires s.threads == [Idle] && a !in s.memory && a !in s.registered
    ensures Leads(s, [Register(0, fd, a), KernelRefuses(0), Undo(0)],
                  s.(memory := s.memory[a := Entry(s.nextId, fd)], nextId := s.nextId + 1))
  {
    LeadsThree(s, Register(0, fd, a), KernelRefuses(0), Undo(0));
    assert s.registered + {a} - {a} == s.registered;
    assert s.threads[0 := Inserted(a)][0 := Undoing(a)][0 := Idle] == s.threads;
  }

  lemma AcceptedAlone(s: State, fd: Fd, a: Addr)
    requires s.threads == [Idle] && a !in s.memory && fd !in s.kernel
    ensures Leads(s, [Register(0, fd, a), KernelAccepts(0)],
                  s.(memory := s.memory[a := Entry(s.nextId, fd)], registered := s.registered + {a},
                     kernel := s.kernel[fd := Event(a, s.nextId)], users := s.users + multiset{a}, nextId := s.nextId + 1))
  {
    LeadsTwo(s, Register(0, fd, a), KernelAccepts(0));
    assert s.threads[0 := Inserted(a)][0 := Idle] == s.threads;
  }

  lemma LeadsTwo(s: State, x: Action, y: Action)
    requires Enabled(s, x) && Enabled(Step(s, x), y)
    ensures Leads(s, [x, y], Step(Step(s, x), y))
  {
    assert [x, y][1..] == [y] && [y][1..] == [];
  }

  lemma LeadsThree(s: State, x: Action, y: Action, z: Action)
    requires Enabled(s, x) && Enabled(Step(s, x), y) && Enabled(Step(Step(s, x), y), z)
    ensures Leads(s, [x, y, z], Step(Step(Step(s, x), y), z))
  {
    LeadsTwo(Step(s, x), y, z);
    assert [x, y, z][1..] == [y, z];
  }

  lemma LeadsFour(s: State, x: Action, y: Action)
    requires Enabled(s, x) && Enabled(Step(s, x), y) && Enabled(Step(Step(s, x), y), y)
    requires Enabled(Step(Step(Step(s, x), y), y), y)
    ensures Leads(s, [x, y, y, y], Step(Step(Step(Step(s, x), y), y), y))
  {
    LeadsThree(Step(s, x), y, y, y);
    assert [x, y, y, y][1..] == [y, y, y];
  }
}
