/** The worker parking protocol of `src/work.rs`.

    Any number of workers and of outside threads take turns, one atomic
    operation at a time. A worker's program counter names the next operation of
    `work_loop`; a thread's wake call names the next operation of `unpark_one`,
    `unpark` or `wake_idle`. Shutdown is not part of the protocol here:
    `work_stopping` stays false. */
module Parking {
  import opened Options

  type Handle = nat

  /** Where a worker is in `work_loop`. */
  datatype Pc =
    | Top                      // first `find_work`: pop the own deque
    | ScanInjector             //   then steal from the injector
    | ScanPeers(peer: nat)     //   then from the other deques
    | DropOwn                  // work found: give the own token back, then run
    | Advertise                // `set_idle`: store the flag
    | CountIdle                //   then count it
    | Pop2                     // second `find_work`
    | ScanInjector2
    | ScanPeers2(peer: nat)
    | Retract                  // work found: `clear_idle`
    | Uncount                  //   the flag was still ours: uncount it
    | Absorb                   //   the flag was claimed: drop the claimer's token
    | StopSearching            // no work and speculating: drop the own token
    | ScanInjector3            //   and look at the injector once more
    | Park                     // `parker.park()`: goes on only with a parker token
    | Acknowledge              // `clear_idle` after the park
    | Uncount4                 //   the flag was still ours: a stale token woke us
    | Running                  // inside `handle.run`

  /** `hand` is the handle a scan has found and `handle.run` is not over with. */
  datatype Worker = Worker(pc: Pc, flag: bool, token: bool, speculating: bool, local: seq<Handle>, hand: Option<Handle>)

  /** Where a thread is in a wake call. */
  datatype Wake =
    | Outside                  // in no wake call
    | LoadIdle                 // load `idle_count`
    | TakeToken                // CAS or add on `speculation`
    | Sweep(next: nat)         // CAS on the next flag; past the last one: drop the token
    | CountClaim(claimed: nat) // flag claimed: subtract it from `idle_count`
    | Notify(claimed: nat)     // then unpark its worker

  /** A thread's wake call: forced or throttled, and the handle it announces, if any. */
  datatype Call = Call(wake: Wake, forced: bool, handle: Option<Handle>)

  /** Thread `t` with `t < |workers|` is worker `t`; the others are outside threads.
      `issued`, `urgent` and `elided` only record history: the handles pushed so
      far, those announced by the forced `unpark`, and those whose throttled
      announcement was dropped at work.rs:70 in a deserted state. So do `ran`, the handles
      whose `handle.run` is over, and `unparks` and `parks`, the parker tokens given and
      the returns from `park`, and `told`, the handles whose announcement has decided. */
  datatype State = State(
    workers: seq<Worker>, calls: seq<Call>, injector: seq<Handle>,
    idleCount: int, speculation: int,
    issued: set<Handle>, urgent: set<Handle>, elided: set<Handle>,
    ran: multiset<Handle>, unparks: nat, parks: nat, told: set<Handle>)

  datatype Action =
    | Work(w: nat)                             // worker w's next operation in `work_loop`
    | Wakeup(t: nat)                           // thread t's next operation in its wake call
    | Push(t: nat, h: Handle, forced: bool)    // injector push, opening a wake call
    | PushLocal(w: nat, h: Handle)             // `add_handle` on a worker thread
    | Finish(w: nat)                           // `handle.run` returns

  const NO_CALL := Call(Outside, false, None)

  predicate Init(s: State) {
    && |s.workers| >= 1
    && |s.calls| >= |s.workers|
    && (forall w :: 0 <= w < |s.workers| ==> s.workers[w] == Worker(Top, false, false, false, [], None))
    && (forall t :: 0 <= t < |s.calls| ==> s.calls[t] == NO_CALL)
    && s.injector == [] && s.idleCount == 0 && s.speculation == 0
    && s.issued == {} && s.urgent == {} && s.elided == {}
    && s.ran == multiset{} && s.unparks == 0 && s.parks == 0 && s.told == {}
  }

  predicate IsWorker(s: State, t: nat) { t < |s.workers| }

  predicate Enabled(s: State, a: Action) {
    match a
    case Work(w) =>
      && w < |s.workers| <= |s.calls|
      && s.calls[w].wake.Outside?
      && !s.workers[w].pc.Running?
      && (s.workers[w].pc.Park? ==> s.workers[w].token)
    case Wakeup(t) =>
      && t < |s.calls|
      && !s.calls[t].wake.Outside?
      && (s.calls[t].wake.Notify? ==> s.calls[t].wake.claimed < |s.workers|)
    case Push(t, h, _) =>
      && t < |s.calls|
      && s.calls[t].wake.Outside?
      && (IsWorker(s, t) ==> s.workers[t].pc.Running?)
      && h !in s.issued
    case PushLocal(w, h) =>
      && w < |s.workers| <= |s.calls|
      && s.calls[w].wake.Outside?
      && s.workers[w].pc.Running?
      && h !in s.issued
    case Finish(w) =>
      && w < |s.workers| <= |s.calls|
      && s.calls[w].wake.Outside?
      && s.workers[w].pc.Running?
  }

  // ----- the operations of `work_loop` -----

  function SetWorker(s: State, w: nat, x: Worker): State
    requires w < |s.workers|
  {
    s.(workers := s.workers[w := x])
  }

  function SetCall(s: State, t: nat, c: Call): State
    requires t < |s.calls|
  {
    s.(calls := s.calls[t := c])
  }

  /** `find_work`, first line: the own deque is popped at its newest end. */
  function PopOwn(s: State, w: nat, found: Pc, empty: Pc): State
    requires w < |s.workers|
  {
    var x := s.workers[w];
    if x.local != [] then
      var n := |x.local| - 1;
      SetWorker(s, w, x.(pc := found, local := x.local[..n], hand := Some(x.local[n])))
    else SetWorker(s, w, x.(pc := empty))
  }

  function StealInjector(s: State, w: nat, found: Pc, empty: Pc): State
    requires w < |s.workers|
  {
    var x := s.workers[w];
    if s.injector != [] then
      SetWorker(s, w, x.(pc := found, hand := Some(s.injector[0]))).(injector := s.injector[1..])
    else SetWorker(s, w, x.(pc := empty))
  }

  /** One peer of the stealing loop; a peer's deque is stolen from at its oldest end. */
  function StealPeer(s: State, w: nat, peer: nat, found: Pc, next: Pc): State
    requires w < |s.workers| && peer < |s.workers|
  {
    var x, y := s.workers[w], s.workers[peer];
    if peer == w || y.local == [] then SetWorker(s, w, x.(pc := next))
    else SetWorker(SetWorker(s, peer, y.(local := y.local[1..])), w, x.(pc := found, hand := Some(y.local[0])))
  }

  /** Give the own speculation token back; the last one out wakes one more worker. */
  function DropToken(s: State, w: nat): State
    requires w < |s.workers| <= |s.calls|
  {
    var x := s.workers[w];
    if !x.speculating then SetWorker(s, w, x.(pc := Running))
    else
      var s1 := SetWorker(s, w, x.(pc := Running, speculating := false))
                .(speculation := s.speculation - 1);
      if s.speculation == 1 then SetCall(s1, w, Call(LoadIdle, false, None)) else s1
  }

  predicate Searching(pc: Pc) {
    pc.Top? || pc.ScanInjector? || pc.ScanPeers? || pc.DropOwn? || pc.Advertise?
  }

  predicate Rescanning(pc: Pc) {
    pc.CountIdle? || pc.Pop2? || pc.ScanInjector2? || pc.ScanPeers2? || pc.Retract? || pc.Uncount? || pc.Absorb?
  }

  /** work.rs:148-166: the first scan, and running what it found. */
  function SearchStep(s: State, w: nat): State
    requires Enabled(s, Work(w)) && Searching(s.workers[w].pc)
  {
    var x := s.workers[w];
    match x.pc
    case Top => PopOwn(s, w, DropOwn, ScanInjector)
    case ScanInjector => StealInjector(s, w, DropOwn, ScanPeers(0))
    case ScanPeers(p) =>
      if p < |s.workers| then StealPeer(s, w, p, DropOwn, ScanPeers(p + 1))
      else SetWorker(s, w, x.(pc := Advertise))
    case DropOwn => DropToken(s, w)
    case Advertise => SetWorker(s, w, x.(pc := CountIdle, flag := true))
  }

  /** work.rs:166-181: advertised, the second scan, and taking the flag back. */
  function RescanStep(s: State, w: nat): State
    requires Enabled(s, Work(w)) && Rescanning(s.workers[w].pc)
  {
    var x := s.workers[w];
    match x.pc
    case CountIdle => SetWorker(s, w, x.(pc := Pop2)).(idleCount := s.idleCount + 1)
    case Pop2 => PopOwn(s, w, Retract, ScanInjector2)
    case ScanInjector2 => StealInjector(s, w, Retract, ScanPeers2(0))
    case ScanPeers2(p) =>
      if p < |s.workers| then StealPeer(s, w, p, Retract, ScanPeers2(p + 1))
      else SetWorker(s, w, x.(pc := if x.speculating then StopSearching else Park))
    case Retract =>
      if x.flag then SetWorker(s, w, x.(pc := Uncount, flag := false))
      else SetWorker(s, w, x.(pc := Absorb))
    case Uncount => SetWorker(s, w, x.(pc := DropOwn)).(idleCount := s.idleCount - 1)
    case Absorb => SetWorker(s, w, x.(pc := DropOwn)).(speculation := s.speculation - 1)
  }

  /** work.rs:190-226: the last look at the injector, the park, and the way out of it. */
  function ParkStep(s: State, w: nat): State
    requires Enabled(s, Work(w)) && !Searching(s.workers[w].pc) && !Rescanning(s.workers[w].pc)
  {
    var x := s.workers[w];
    match x.pc
    case StopSearching =>
      SetWorker(s, w, x.(pc := ScanInjector3, speculating := false)).(speculation := s.speculation - 1)
    case ScanInjector3 => StealInjector(s, w, Retract, Park)
    case Park => SetWorker(s, w, x.(pc := Acknowledge, token := false)).(parks := s.parks + 1)
    case Acknowledge =>
      if x.flag then SetWorker(s, w, x.(pc := Uncount4, flag := false))
      else SetWorker(s, w, x.(pc := Top, speculating := true))
    case Uncount4 => SetWorker(s, w, x.(pc := Top, speculating := false)).(idleCount := s.idleCount - 1)
  }

  function WorkStep(s: State, w: nat): State
    requires Enabled(s, Work(w))
  {
    if Searching(s.workers[w].pc) then SearchStep(s, w)
    else if Rescanning(s.workers[w].pc) then RescanStep(s, w)
    else ParkStep(s, w)
  }

  // ----- the operations of a wake call -----

  /** Past its last look at the injector: such a worker blocks unless something comes for it. */
  predicate Quiet(x: Worker) {
    x.pc.Park? || (x.pc.ScanPeers2? && !x.speculating)
  }

  /** A wake call that will claim no worker: it has claimed none so far, and if it is
      sweeping, it is an outside thread's and past the last flag. */
  predicate Spent(s: State, t: nat)
    requires t < |s.calls|
  {
    var w := s.calls[t].wake;
    !w.CountClaim? && !w.Notify? && (w.Sweep? ==> !IsWorker(s, t) && w.next >= |s.workers|)
  }

  /** Every worker is past its last look, without a parker token; nobody has claimed one,
      and whoever still sweeps is an outside thread that has tried every flag. */
  predicate Deserted(s: State) {
    && (forall w :: 0 <= w < |s.workers| ==> Quiet(s.workers[w]) && !s.workers[w].token)
    && (forall t :: 0 <= t < |s.calls| ==> Spent(s, t))
  }

  /** A wake call that has not decided anything yet. */
  predicate Undecided(c: Call) { c.wake.LoadIdle? || c.wake.TakeToken? }

  function WakeMove(s: State, t: nat): State
    requires Enabled(s, Wakeup(t))
  {
    var c := s.calls[t];
    match c.wake
    case Outside => s
    case LoadIdle =>
      if s.idleCount == 0 then SetCall(s, t, NO_CALL) else SetCall(s, t, c.(wake := TakeToken))
    case TakeToken =>
      if c.forced || s.speculation == 0 then
        SetCall(s, t, c.(wake := Sweep(0))).(speculation := s.speculation + 1)
      else SetCall(s, t, NO_CALL)
    case Sweep(i) =>
      if i >= |s.workers| then SetCall(s, t, NO_CALL).(speculation := s.speculation - 1)
      else if s.workers[i].flag then
        SetCall(SetWorker(s, i, s.workers[i].(flag := false)), t, c.(wake := CountClaim(i)))
      else SetCall(s, t, c.(wake := Sweep(i + 1)))
    case CountClaim(i) =>
      SetCall(s, t, c.(wake := Notify(i))).(idleCount := s.idleCount - 1)
    case Notify(i) =>
      SetCall(SetWorker(s, i, s.workers[i].(token := true)), t, NO_CALL).(unparks := s.unparks + 1)
  }

  /** The handle that thread `t`'s next operation decides about. */
  function Decided(s: State, t: nat): set<Handle>
    requires t < |s.calls|
  {
    var c := s.calls[t];
    if c.handle.Some? && (c.wake.TakeToken? || (c.wake.LoadIdle? && s.idleCount == 0)) then {c.handle.value} else {}
  }

  /** The operation drops its throttled announcement. */
  predicate Drops(s: State, t: nat)
    requires t < |s.calls|
  {
    var c := s.calls[t];
    c.wake.TakeToken? && !c.forced && s.speculation != 0 && c.handle.Some?
  }

  /** The operation, and its record. */
  function WakeStep(s: State, t: nat): (s': State)
    requires Enabled(s, Wakeup(t))
    ensures s'.workers == WakeMove(s, t).workers && s'.calls == WakeMove(s, t).calls
    ensures s'.idleCount == WakeMove(s, t).idleCount && s'.speculation == WakeMove(s, t).speculation
  {
    WakeMove(s, t).(
      told := s.told + Decided(s, t),
      elided := if Drops(s, t) && Deserted(s) then s.elided + {s.calls[t].handle.value} else s.elided)
  }

  function Step(s: State, a: Action): State
    requires Enabled(s, a)
  {
    match a
    case Work(w) => WorkStep(s, w)
    case Wakeup(t) => WakeStep(s, t)
    case Push(t, h, forced) =>
      SetCall(s, t, Call(LoadIdle, forced, Some(h)))
      .(injector := s.injector + [h], issued := s.issued + {h},
        urgent := if forced then s.urgent + {h} else s.urgent)
    case PushLocal(w, h) =>
      var x := s.workers[w];
      SetCall(SetWorker(s, w, x.(local := x.local + [h])), w, Call(LoadIdle, false, Some(h)))
      .(issued := s.issued + {h})
    case Finish(w) =>
      var x := s.workers[w];
      SetWorker(s, w, x.(pc := Top, hand := None))
      .(ran := if x.hand.Some? then s.ran + multiset{x.hand.value} else s.ran)
  }

  ghost predicate Next(s: State, t: State) {
    exists a :: Enabled(s, a) && t == Step(s, a)
  }
}
