/** Every handle pushed is in exactly one place until it has run, once; and every return from
    `park` was paid for by an unpark. */
module ParkingConservation {
  import opened Options
  import opened Sums
  import opened Parking
  import opened ParkingSafety
  import opened ParkingCoverage
  import opened ParkingTheorems
  import opened Runs

  // ----- what a worker has in hand -----

  /** From finding a handle to the end of its run. */
  predicate Carries(pc: Pc) { pc.DropOwn? || pc.Retract? || pc.Uncount? || pc.Absorb? || pc.Running? }

  predicate HandOk(x: Worker) { x.hand.Some? <==> Carries(x.pc) }

  predicate AllHandsOk(s: State) { forall w :: 0 <= w < |s.workers| ==> HandOk(s.workers[w]) }

  lemma HandSearch(s: State, w: nat)
    requires Enabled(s, Work(w)) && Searching(s.workers[w].pc) && HandOk(s.workers[w])
    ensures w < |SearchStep(s, w).workers| && HandOk(SearchStep(s, w).workers[w])
  {
  }

  lemma HandRescan(s: State, w: nat)
    requires Enabled(s, Work(w)) && Rescanning(s.workers[w].pc) && HandOk(s.workers[w])
    ensures w < |RescanStep(s, w).workers| && HandOk(RescanStep(s, w).workers[w])
  {
  }

  lemma HandWork(s: State, w: nat)
    requires Enabled(s, Work(w)) && AllHandsOk(s)
    ensures AllHandsOk(WorkStep(s, w))
  {
    var s' := WorkStep(s, w);
    var p, y := StolenFrom(s, w);
    assert HandOk(s.workers[w]);
    if Searching(s.workers[w].pc) { HandSearch(s, w); } else if Rescanning(s.workers[w].pc) { HandRescan(s, w); }
    forall v | 0 <= v < |s'.workers| ensures HandOk(s'.workers[v]) {
      if v != w { WorkFrame(s, w, v); assert HandOk(s.workers[v]); }
    }
  }

  lemma HandStep(s: State, a: Action)
    requires Shape(s) && Enabled(s, a) && AllHandsOk(s)
    ensures AllHandsOk(Step(s, a))
  {
    match a {
      case Work(w) => HandWork(s, w);
      case Wakeup(t) => assert CallOk(s.calls[t], |s.workers|);
      case _ =>
    }
  }

  // ----- conservation -----

  /** How often handle `h` is with a worker. */
  function Share(x: Worker, h: Handle): int { multiset(x.local)[h] + Bit(x.hand == Some(h)) }

  ghost function Weigh(h: Handle): Worker -> int { (x: Worker) => Share(x, h) }

  /** How often `h` is anywhere: waiting, with a worker, or run. */
  ghost function Places(s: State, h: Handle): int {
    multiset(s.injector)[h] + Sum(Weigh(h), s.workers) + s.ran[h]
  }

  ghost predicate Conserved(s: State, h: Handle) { Places(s, h) == Bit(h in s.issued) }

  /** One worker changes. */
  lemma WorkerMoves(s: State, w: nat, x: Worker, h: Handle)
    requires w < |s.workers|
    ensures Sum(Weigh(h), s.workers[w := x]) == Sum(Weigh(h), s.workers) - Share(s.workers[w], h) + Share(x, h)
  {
    Update(Weigh(h), s.workers, w, x);
  }

  lemma TakeNewest(hs: seq<Handle>, h: Handle)
    requires hs != []
    ensures multiset(hs)[h] == multiset(hs[..|hs| - 1])[h] + Bit(hs[|hs| - 1] == h)
  {
    assert hs == hs[..|hs| - 1] + [hs[|hs| - 1]];
  }

  lemma TakeOldest(hs: seq<Handle>, h: Handle)
    requires hs != []
    ensures multiset(hs)[h] == multiset(hs[1..])[h] + Bit(hs[0] == h)
  {
    assert hs == [hs[0]] + hs[1..];
  }

  /** What worker `w` gains, the injector loses. */
  lemma Moved(s: State, s': State, w: nat, x: Worker, h: Handle)
    requires w < |s.workers| && s'.workers == s.workers[w := x] && s'.ran == s.ran
    requires multiset(s'.injector)[h] + Share(x, h) == multiset(s.injector)[h] + Share(s.workers[w], h)
    ensures Places(s', h) == Places(s, h)
  {
    WorkerMoves(s, w, x, h);
  }

  lemma PopConserves(s: State, w: nat, found: Pc, empty: Pc, h: Handle)
    requires w < |s.workers| && s.workers[w].hand.None?
    ensures Places(PopOwn(s, w, found, empty), h) == Places(s, h)
  {
    var x, s' := s.workers[w], PopOwn(s, w, found, empty);
    if x.local != [] { TakeNewest(x.local, h); }
    assert Share(s'.workers[w], h) == Share(x, h);
    Moved(s, s', w, s'.workers[w], h);
  }

  lemma StealConserves(s: State, w: nat, found: Pc, empty: Pc, h: Handle)
    requires w < |s.workers| && s.workers[w].hand.None?
    ensures Places(StealInjector(s, w, found, empty), h) == Places(s, h)
  {
    var s' := StealInjector(s, w, found, empty);
    if s.injector != [] { TakeOldest(s.injector, h); }
    Moved(s, s', w, s'.workers[w], h);
  }

  lemma PeerConserves(s: State, w: nat, peer: nat, found: Pc, next: Pc, h: Handle)
    requires w < |s.workers| && peer < |s.workers| && s.workers[w].hand.None?
    ensures Places(StealPeer(s, w, peer, found, next), h) == Places(s, h)
  {
    var y, s' := s.workers[peer], StealPeer(s, w, peer, found, next);
    if peer == w || y.local == [] {
      Moved(s, s', w, s'.workers[w], h);
    } else {
      StolenShares(s.workers[w], y, found, h);
      PassedOn(s, s', peer, y.(local := y.local[1..]), w, s'.workers[w], h);
    }
  }

  lemma StolenShares(x: Worker, y: Worker, found: Pc, h: Handle)
    requires x.hand.None? && y.local != []
    ensures Share(y.(local := y.local[1..]), h) + Share(x.(pc := found, hand := Some(y.local[0])), h) == Share(y, h) + Share(x, h)
  {
    TakeOldest(y.local, h);
  }

  /** What worker `w` gains, worker `p` loses. */
  lemma PassedOn(s: State, s': State, p: nat, y: Worker, w: nat, x: Worker, h: Handle)
    requires p < |s.workers| && w < |s.workers| && p != w && s'.workers == s.workers[p := y][w := x]
    requires s'.injector == s.injector && s'.ran == s.ran
    requires Share(y, h) + Share(x, h) == Share(s.workers[p], h) + Share(s.workers[w], h)
    ensures Places(s', h) == Places(s, h)
  {
    Update(Weigh(h), s.workers, p, y);
    Update(Weigh(h), s.workers[p := y], w, x);
  }

  lemma SearchConserves(s: State, w: nat, h: Handle)
    requires Enabled(s, Work(w)) && Searching(s.workers[w].pc) && HandOk(s.workers[w])
    ensures Places(SearchStep(s, w), h) == Places(s, h)
  {
    var x := s.workers[w];
    if x.pc.Top? {
      PopConserves(s, w, DropOwn, ScanInjector, h);
    } else if x.pc.ScanInjector? {
      StealConserves(s, w, DropOwn, ScanPeers(0), h);
    } else if x.pc.ScanPeers? && x.pc.peer < |s.workers| {
      PeerConserves(s, w, x.pc.peer, DropOwn, ScanPeers(x.pc.peer + 1), h);
    } else {
      WorkerMoves(s, w, SearchStep(s, w).workers[w], h);
    }
  }

  lemma RescanConserves(s: State, w: nat, h: Handle)
    requires Enabled(s, Work(w)) && Rescanning(s.workers[w].pc) && HandOk(s.workers[w])
    ensures Places(RescanStep(s, w), h) == Places(s, h)
  {
    var x := s.workers[w];
    if x.pc.Pop2? {
      PopConserves(s, w, Retract, ScanInjector2, h);
    } else if x.pc.ScanInjector2? {
      StealConserves(s, w, Retract, ScanPeers2(0), h);
    } else if x.pc.ScanPeers2? && x.pc.peer < |s.workers| {
      PeerConserves(s, w, x.pc.peer, Retract, ScanPeers2(x.pc.peer + 1), h);
    } else {
      WorkerMoves(s, w, RescanStep(s, w).workers[w], h);
    }
  }

  lemma ParkConserves(s: State, w: nat, h: Handle)
    requires Enabled(s, Work(w)) && !Searching(s.workers[w].pc) && !Rescanning(s.workers[w].pc) && HandOk(s.workers[w])
    ensures Places(ParkStep(s, w), h) == Places(s, h)
  {
    if s.workers[w].pc.ScanInjector3? {
      StealConserves(s, w, Retract, Park, h);
    } else {
      WorkerMoves(s, w, ParkStep(s, w).workers[w], h);
    }
  }

  lemma WorkConserves(s: State, w: nat, h: Handle)
    requires Enabled(s, Work(w)) && HandOk(s.workers[w])
    ensures Places(WorkStep(s, w), h) == Places(s, h)
  {
    if Searching(s.workers[w].pc) {
      SearchConserves(s, w, h);
    } else if Rescanning(s.workers[w].pc) {
      RescanConserves(s, w, h);
    } else {
      ParkConserves(s, w, h);
    }
  }

  /** A wake call's operation changes one worker's flag or token. */
  lemma MoveTouches(s: State, t: nat)
    requires Shape(s) && Enabled(s, Wakeup(t))
    ensures var s', i := WakeStep(s, t), Touched(s, t);
            && i < |s.workers| && s'.workers == s.workers[i := s'.workers[i]]
            && s'.workers[i].local == s.workers[i].local && s'.workers[i].hand == s.workers[i].hand
            && s'.injector == s.injector && s'.issued == s.issued && s'.ran == s.ran && s'.parks == s.parks
            && s'.unparks + ParkerShare(s.workers[i]) >= s.unparks + ParkerShare(s'.workers[i])
  {
    assert CallOk(s.calls[t], |s.workers|);
    assert s.workers[Touched(s, t) := s.workers[Touched(s, t)]] == s.workers;
  }

  lemma WakeConserves(s: State, t: nat, h: Handle)
    requires Shape(s) && Enabled(s, Wakeup(t))
    ensures Places(WakeStep(s, t), h) == Places(s, h)
  {
    MoveTouches(s, t);
    WorkerMoves(s, Touched(s, t), WakeStep(s, t).workers[Touched(s, t)], h);
  }

  lemma ConservedStep(s: State, a: Action, h: Handle)
    requires Shape(s) && AllHandsOk(s) && Conserved(s, h) && Enabled(s, a)
    ensures Conserved(Step(s, a), h)
  {
    match a {
      case Work(w) =>
        assert HandOk(s.workers[w]);
        WorkConserves(s, w, h);
        WorkTakes(s, w);
      case Wakeup(t) => WakeConserves(s, t, h);
      case Push(_, _, _) =>
      case PushLocal(w, mine) => LocalConserves(s, w, mine, h);
      case Finish(w) => FinishConserves(s, w, h);
    }
  }

  lemma LocalConserves(s: State, w: nat, mine: Handle, h: Handle)
    requires Conserved(s, h) && Enabled(s, PushLocal(w, mine))
    ensures Conserved(Step(s, PushLocal(w, mine)), h)
  {
    var x := s.workers[w];
    WorkerMoves(s, w, x.(local := x.local + [mine]), h);
  }

  lemma FinishConserves(s: State, w: nat, h: Handle)
    requires AllHandsOk(s) && Conserved(s, h) && Enabled(s, Finish(w))
    ensures Conserved(Step(s, Finish(w)), h)
  {
    var x := s.workers[w];
    assert HandOk(x);
    WorkerMoves(s, w, x.(pc := Top, hand := None), h);
  }

  // ----- parker tokens -----

  function ParkerShare(x: Worker): int { Bit(x.token) }

  /** No more returns than unparks, the tokens still lying at a parker aside. */
  ghost predicate PaidFor(s: State) { s.parks + Sum(ParkerShare, s.workers) <= s.unparks }

  lemma ParkerOwn(s: State, w: nat)
    requires Enabled(s, Work(w))
    ensures var s' := WorkStep(s, w);
            && w < |s'.workers| && s'.unparks == s.unparks
            && s'.parks + ParkerShare(s'.workers[w]) == s.parks + ParkerShare(s.workers[w])
  {
  }

  lemma PaidForWork(s: State, w: nat)
    requires PaidFor(s) && Enabled(s, Work(w))
    ensures PaidFor(WorkStep(s, w))
  {
    var s' := WorkStep(s, w);
    var p, y := StolenFrom(s, w);
    ParkerOwn(s, w);
    Update(ParkerShare, s.workers, p, y);
    Update(ParkerShare, s.workers[p := y], w, s'.workers[w]);
  }

  lemma PaidForWake(s: State, t: nat)
    requires Shape(s) && PaidFor(s) && Enabled(s, Wakeup(t))
    ensures PaidFor(WakeStep(s, t))
  {
    MoveTouches(s, t);
    Update(ParkerShare, s.workers, Touched(s, t), WakeStep(s, t).workers[Touched(s, t)]);
  }

  lemma PaidForStep(s: State, a: Action)
    requires Shape(s) && PaidFor(s) && Enabled(s, a)
    ensures PaidFor(Step(s, a))
  {
    match a {
      case Work(w) => PaidForWork(s, w);
      case Wakeup(t) => PaidForWake(s, t);
      case Push(_, _, _) =>
      case PushLocal(w, _) => Update(ParkerShare, s.workers, w, Step(s, a).workers[w]);
      case Finish(w) => Update(ParkerShare, s.workers, w, Step(s, a).workers[w]);
    }
  }

  // ----- announcements -----

  /** Every handle pushed has a wake call that has decided about it, or is about to. */
  ghost predicate Announced(s: State, h: Handle) { h in s.issued <==> h in s.told || Fresh(s, h) }

  lemma AnnouncedWork(s: State, w: nat, h: Handle)
    requires Shape(s) && Announced(s, h) && Enabled(s, Work(w))
    ensures Announced(WorkStep(s, w), h)
  {
    var s' := WorkStep(s, w);
    WorkTakes(s, w);
    WorkCalls(s, w);
    WorkTells(s, w);
    if t :| 0 <= t < |s.calls| && Announces(s.calls[t], h) { assert Announces(s'.calls[t], h); }
    if t :| 0 <= t < |s'.calls| && Announces(s'.calls[t], h) { assert Announces(s.calls[t], h); }
  }

  lemma WorkTells(s: State, w: nat)
    requires Enabled(s, Work(w))
    ensures WorkStep(s, w).told == s.told
  {
  }

  lemma AnnouncedWake(s: State, t: nat, h: Handle)
    requires HistoryOk(s) && Announced(s, h) && Enabled(s, Wakeup(t))
    ensures Announced(WakeStep(s, t), h)
  {
    var c, s' := s.calls[t], WakeStep(s, t);
    HistoryCall(s, t);
    WakeTells(s, t);
    if u :| 0 <= u < |s.calls| && Announces(s.calls[u], h) { assert Announces(s'.calls[u], h) || h in s'.told; }
    if u :| 0 <= u < |s'.calls| && Announces(s'.calls[u], h) { assert s.calls[u].handle == Some(h); }
  }

  /** An announcement is decided when its call leaves the first two steps, and only then. */
  lemma WakeTells(s: State, t: nat)
    requires Enabled(s, Wakeup(t))
    ensures forall h :: h in WakeStep(s, t).told <==>
              h in s.told || (Announces(s.calls[t], h) && !Announces(WakeStep(s, t).calls[t], h))
    ensures forall h :: Announces(WakeStep(s, t).calls[t], h) ==> Announces(s.calls[t], h)
  {
  }

  lemma AnnouncedStep(s: State, a: Action, h: Handle)
    requires Shape(s) && HistoryOk(s) && Announced(s, h) && Enabled(s, a)
    ensures Announced(Step(s, a), h)
  {
    match a {
      case Work(w) => AnnouncedWork(s, w, h);
      case Wakeup(t) => AnnouncedWake(s, t, h);
      case Push(t, mine, forced) => AnnouncedPush(s, Step(s, a), t, Call(LoadIdle, forced, Some(mine)), mine, h);
      case PushLocal(w, mine) => AnnouncedPush(s, Step(s, a), w, Call(LoadIdle, false, Some(mine)), mine, h);
      case Finish(w) => assert Step(s, a).calls == s.calls;
    }
  }

  lemma AnnouncedPush(s: State, s': State, t: nat, c: Call, mine: Handle, h: Handle)
    requires Announced(s, h) && t < |s.calls| && s.calls[t].wake.Outside?
    requires c.wake.LoadIdle? && c.handle == Some(mine) && s'.calls == s.calls[t := c]
    requires s'.issued == s.issued + {mine} && s'.told == s.told
    ensures Announced(s', h)
  {
    assert Announces(s'.calls[t], mine);
    if u :| 0 <= u < |s.calls| && Announces(s.calls[u], h) { assert Announces(s'.calls[u], h); }
    if u :| 0 <= u < |s'.calls| && Announces(s'.calls[u], h) { assert u == t || Announces(s.calls[u], h); }
  }

  // ----- every run -----

  ghost predicate Kept(s: State) {
    && Shape(s) && HistoryOk(s) && AllHandsOk(s) && PaidFor(s)
    && (forall h :: Conserved(s, h)) && (forall h :: Announced(s, h))
  }

  lemma KeptStep(s: State, a: Action)
    requires Kept(s) && Enabled(s, a)
    ensures Kept(Step(s, a))
  {
    ShapeStep(s, a);
    HistoryStep(s, a);
    HandStep(s, a);
    PaidForStep(s, a);
    forall h ensures Conserved(Step(s, a), h) {
      assert Conserved(s, h);
      ConservedStep(s, a, h);
    }
    forall h ensures Announced(Step(s, a), h) {
      assert Announced(s, h);
      AnnouncedStep(s, a, h);
    }
  }

  lemma KeptInit(s: State)
    requires Init(s)
    ensures Kept(s)
  {
    AllZero(ParkerShare, s.workers);
    forall h ensures Conserved(s, h) { AllZero(Weigh(h), s.workers); }
  }

  lemma KeptAt(run: seq<State>, k: nat)
    requires IsRun(Init, Next, run) && k < |run|
    ensures Kept(run[k])
  {
    forall s | Init(s) ensures Kept(s) { KeptInit(s); }
    forall s, t | Kept(s) && Next(s, t) ensures Kept(t) {
      var a :| Enabled(s, a) && t == Step(s, a);
      KeptStep(s, a);
    }
    Always(Init, Next, Kept, run, k);
  }

  /** In every state of every run, every handle pushed is in exactly one place, once: the
      injector, a local deque, a worker's hand, or run; and one never pushed in none. */
  lemma EveryHandleOnce(run: seq<State>, k: nat, h: Handle)
    requires IsRun(Init, Next, run) && k < |run|
    ensures multiset(run[k].injector)[h] + Sum(Weigh(h), run[k].workers) + run[k].ran[h] == (if h in run[k].issued then 1 else 0)
  {
    KeptAt(run, k);
    assert Conserved(run[k], h);
  }

  /** When nothing moves, every handle pushed has run, once, but for elided ones that lie in
      the injector. */
  lemma AllRunAtRest(run: seq<State>, k: nat, h: Handle)
    requires IsRun(Init, Next, run) && k < |run| && Quiescent(run[k]) && h in run[k].issued
    ensures run[k].ran[h] == (if h in run[k].injector then 0 else 1)
    ensures h in run[k].injector ==> h in run[k].elided
  {
    KeptAt(run, k);
    QuiescentIsClean(run, k);
    var s := run[k];
    forall w | 0 <= w < |s.workers| ensures Share(s.workers[w], h) == 0 { assert HandOk(s.workers[w]); }
    AllZero(Weigh(h), s.workers);
    assert Conserved(s, h);
  }

  /** In every run, every push is announced: a wake call has decided about its handle, or one
      that has not is open; and about a handle never pushed nobody decides. */
  lemma EveryPushAnnounced(run: seq<State>, k: nat, h: Handle)
    requires IsRun(Init, Next, run) && k < |run|
    ensures h in run[k].issued <==> h in run[k].told || Fresh(run[k], h)
  {
    KeptAt(run, k);
    assert Announced(run[k], h);
  }

  /** Workers come back from `park` no more often than they were unparked. */
  lemma NoReturnUnpaid(run: seq<State>, k: nat)
    requires IsRun(Init, Next, run) && k < |run|
    ensures run[k].parks <= run[k].unparks
  {
    KeptAt(run, k);
    AtLeastEach(ParkerShare, run[k].workers, 0);
  }

  // ----- the last searcher out -----

  /** Nobody but worker `w` has a speculation token out. */
  predicate OnlyToken(s: State, w: nat) {
    && (forall v :: 0 <= v < |s.workers| && v != w ==> TokenShare(s.workers[v]) == 0)
    && (forall t :: 0 <= t < |s.calls| ==> SweepShare(s.calls[t]) == 0)
  }

  /** A searching worker that found a handle gives its token back on the way to running it,
      and opens a throttled wake call if and only if no other token was out: the search is
      passed on by the last one to leave it, and by nobody else. */
  lemma LastSearcherPassesOn(run: seq<State>, k: nat, w: nat)
    requires IsRun(Init, Next, run) && k < |run| && w < |run[k].workers|
    requires run[k].workers[w].pc.DropOwn? && run[k].workers[w].speculating
    ensures Enabled(run[k], Work(w))
    ensures var s, s' := run[k], Step(run[k], Work(w));
            && !s'.workers[w].speculating && s'.workers[w].pc.Running? && s'.workers[w].hand == s.workers[w].hand
            && (s'.calls[w] == Call(LoadIdle, false, None) <==> OnlyToken(s, w))
  {
    RunInv(run, k);
    var s := run[k];
    assert WorkerOk(s.workers[w]) && s.calls[w].wake.Outside?;
    OnlyTokenCounts(s, w);
  }

  lemma OnlyTokenCounts(s: State, w: nat)
    requires Accounting(s) && w < |s.workers| && TokenShare(s.workers[w]) == 1
    ensures s.speculation == 1 <==> OnlyToken(s, w)
  {
    var rest := s.workers[w := Worker(Top, false, false, false, [], None)];
    Update(TokenShare, s.workers, w, rest[w]);
    AtLeastEach(TokenShare, rest, 0);
    AtLeastEach(SweepShare, s.calls, 0);
    if s.speculation == 1 {
      forall v | 0 <= v < |s.workers| && v != w ensures TokenShare(s.workers[v]) == 0 {
        AtLeastEach(TokenShare, rest, v);
        assert rest[v] == s.workers[v];
      }
      forall t | 0 <= t < |s.calls| ensures SweepShare(s.calls[t]) == 0 { AtLeastEach(SweepShare, s.calls, t); }
    }
    if OnlyToken(s, w) {
      forall v | 0 <= v < |rest| ensures TokenShare(rest[v]) == 0 { assert v == w || rest[v] == s.workers[v]; }
      AllZero(TokenShare, rest);
      AllZero(SweepShare, s.calls);
    }
  }
}
