/** What every interleaving of the parking protocol keeps: the two counters
    account exactly for the threads' positions, and work in the injector is never
    left behind by a finished forced wake. */
module ParkingSafety {
  import opened Options
  import opened Sums
  import opened Parking

  // ----- shape: what a program counter says about the fields beside it -----

  /** From the store of the own idle flag up to the `clear_idle` that ends the cycle. */
  predicate Advertised(pc: Pc) {
    pc.CountIdle? || pc.Pop2? || pc.ScanInjector2? || pc.ScanPeers2? || pc.Retract?
    || pc.StopSearching? || pc.ScanInjector3? || pc.Park? || pc.Acknowledge?
  }

  /** Advertised and on the way into `park`: a claim made now must be able to reach it. */
  predicate Listening(pc: Pc) {
    Advertised(pc) && !pc.Retract? && !pc.Acknowledge?
  }

  /** The own deque was found empty and nothing has run since. */
  predicate Drained(pc: Pc) {
    !(pc.Top? || pc.DropOwn? || pc.Retract? || pc.Uncount? || pc.Absorb? || pc.Running?)
  }

  predicate WorkerOk(x: Worker) {
    && (x.flag ==> Advertised(x.pc))
    && (x.speculating ==>
          !(x.pc.ScanInjector3? || x.pc.Park? || x.pc.Acknowledge? || x.pc.Uncount4? || x.pc.Running?))
    && (x.pc.StopSearching? ==> x.speculating)
    && (Drained(x.pc) ==> x.local == [])
  }

  predicate CallOk(c: Call, n: nat) {
    match c.wake
    case Sweep(i) => i <= n
    case CountClaim(i) => i < n
    case Notify(i) => i < n
    case _ => true
  }

  predicate Shape(s: State) {
    && 1 <= |s.workers| <= |s.calls|
    && (forall w :: 0 <= w < |s.workers| ==> WorkerOk(s.workers[w]))
    && (forall t :: 0 <= t < |s.calls| ==> CallOk(s.calls[t], |s.workers|))
    && (forall w :: 0 <= w < |s.workers| ==>
          s.calls[w].wake.Outside? || s.workers[w].pc.Running?)
  }

  /** A step of worker `w` leaves its peers alone, except that one may lose its
      oldest local handle to `w`. */
  lemma WorkFrame(s: State, w: nat, v: nat)
    requires Enabled(s, Work(w)) && v < |s.workers| && v != w
    ensures |WorkStep(s, w).workers| == |s.workers| && |WorkStep(s, w).calls| == |s.calls|
    ensures var y, y' := s.workers[v], WorkStep(s, w).workers[v];
            y' == y || (y.local != [] && y' == y.(local := y.local[1..]))
  {
  }

  lemma WorkCalls(s: State, w: nat)
    requires Enabled(s, Work(w))
    ensures var s' := WorkStep(s, w);
            s'.calls == s.calls ||
            (s.workers[w].pc.DropOwn? && s'.workers[w].pc.Running?
             && s'.calls == s.calls[w := Call(LoadIdle, false, None)])
  {
  }

  lemma WorkerOkStep(s: State, w: nat)
    requires Enabled(s, Work(w)) && WorkerOk(s.workers[w])
    ensures WorkerOk(WorkStep(s, w).workers[w])
  {
    if Searching(s.workers[w].pc) {
      WorkerOkSearch(s, w);
    } else if Rescanning(s.workers[w].pc) {
      WorkerOkRescan(s, w);
    }
  }

  lemma WorkerOkSearch(s: State, w: nat)
    requires Enabled(s, Work(w)) && Searching(s.workers[w].pc) && WorkerOk(s.workers[w])
    ensures WorkerOk(SearchStep(s, w).workers[w])
  {
  }

  lemma WorkerOkRescan(s: State, w: nat)
    requires Enabled(s, Work(w)) && Rescanning(s.workers[w].pc) && WorkerOk(s.workers[w])
    ensures WorkerOk(RescanStep(s, w).workers[w])
  {
  }

  lemma ShapeWork(s: State, w: nat)
    requires Shape(s) && Enabled(s, Work(w))
    ensures Shape(WorkStep(s, w))
  {
    var s' := WorkStep(s, w);
    WorkCalls(s, w);
    WorkerOkStep(s, w);
    assert |s'.workers| == |s.workers| by { if |s.workers| > 1 { WorkFrame(s, w, if w == 0 then 1 else 0); } }
    forall v | 0 <= v < |s'.workers|
      ensures WorkerOk(s'.workers[v]) && (s'.calls[v].wake.Outside? || s'.workers[v].pc.Running?)
    {
      if v != w { WorkFrame(s, w, v); assert WorkerOk(s.workers[v]); }
    }
    forall t | 0 <= t < |s'.calls| ensures CallOk(s'.calls[t], |s'.workers|) {
      assert CallOk(s.calls[t], |s.workers|);
    }
  }

  lemma ShapeWake(s: State, t: nat)
    requires Shape(s) && Enabled(s, Wakeup(t))
    ensures Shape(WakeStep(s, t))
  {
    assert CallOk(s.calls[t], |s.workers|);
  }

  lemma ShapeStep(s: State, a: Action)
    requires Shape(s) && Enabled(s, a)
    ensures Shape(Step(s, a))
  {
    match a {
      case Work(w) => ShapeWork(s, w);
      case Wakeup(t) => ShapeWake(s, t);
      case _ =>
    }
  }

  // ----- accounting -----

  /** A worker's share of `idle_count`: its set flag, unless not yet counted;
      or a flag it took back itself and has not subtracted yet. */
  function IdleShare(x: Worker): int {
    Bit(x.flag) - Bit(x.pc.CountIdle?) + Bit(x.pc.Uncount? || x.pc.Uncount4?)
  }

  /** A wake call's share of `idle_count`: a claim not yet subtracted. */
  function ClaimShare(c: Call): int { Bit(c.wake.CountClaim?) }

  /** A worker's share of `speculation`: its own search, plus a claim on it that it
      has not acknowledged. */
  function TokenShare(x: Worker): int {
    Bit(x.speculating) + Bit(Advertised(x.pc) && !x.flag) + Bit(x.pc.Absorb?)
  }

  /** A wake call's share of `speculation`: it sweeps the flags holding a token. */
  function SweepShare(c: Call): int { Bit(c.wake.Sweep?) }

  ghost predicate Accounting(s: State) {
    && s.idleCount == Sum(IdleShare, s.workers) + Sum(ClaimShare, s.calls)
    && s.speculation == Sum(TokenShare, s.workers) + Sum(SweepShare, s.calls)
  }

  /** One worker and one call change, and the counters move by what they owe. */
  lemma Rebalance(s: State, s': State, w: nat, x: Worker, t: nat, c: Call)
    requires Accounting(s) && w < |s.workers| && t < |s.calls|
    requires s'.workers == s.workers[w := x] && s'.calls == s.calls[t := c]
    requires s'.idleCount == s.idleCount
             - IdleShare(s.workers[w]) + IdleShare(x) - ClaimShare(s.calls[t]) + ClaimShare(c)
    requires s'.speculation == s.speculation
             - TokenShare(s.workers[w]) + TokenShare(x) - SweepShare(s.calls[t]) + SweepShare(c)
    ensures Accounting(s')
  {
    Update(IdleShare, s.workers, w, x);
    Update(TokenShare, s.workers, w, x);
    Update(ClaimShare, s.calls, t, c);
    Update(SweepShare, s.calls, t, c);
  }

  /** The change a step makes at worker `w` is paid for by the counters. */
  predicate Paid(s: State, s': State, w: nat)
    requires w < |s.workers| == |s'.workers| && w < |s.calls| == |s'.calls|
  {
    && s'.idleCount - s.idleCount == IdleShare(s'.workers[w]) - IdleShare(s.workers[w])
    && s'.speculation - s.speculation == TokenShare(s'.workers[w]) - TokenShare(s.workers[w])
    && ClaimShare(s'.calls[w]) == ClaimShare(s.calls[w])
    && SweepShare(s'.calls[w]) == SweepShare(s.calls[w])
  }

  lemma SearchPaid(s: State, w: nat)
    requires Enabled(s, Work(w)) && Searching(s.workers[w].pc) && WorkerOk(s.workers[w])
    ensures |SearchStep(s, w).workers| == |s.workers| && |SearchStep(s, w).calls| == |s.calls|
    ensures Paid(s, SearchStep(s, w), w)
  {
    if s.workers[w].pc.DropOwn? { DropPaid(s, w); } else { ScanPaid(s, w); }
  }

  lemma DropPaid(s: State, w: nat)
    requires Enabled(s, Work(w)) && s.workers[w].pc.DropOwn?
    ensures |DropToken(s, w).workers| == |s.workers| && |DropToken(s, w).calls| == |s.calls|
    ensures Paid(s, DropToken(s, w), w)
  {
  }

  lemma ScanPaid(s: State, w: nat)
    requires Enabled(s, Work(w)) && Searching(s.workers[w].pc) && !s.workers[w].pc.DropOwn? && WorkerOk(s.workers[w])
    ensures |SearchStep(s, w).workers| == |s.workers| && SearchStep(s, w).calls == s.calls
    ensures Paid(s, SearchStep(s, w), w)
  {
  }

  lemma RescanPaid(s: State, w: nat)
    requires Enabled(s, Work(w)) && Rescanning(s.workers[w].pc) && WorkerOk(s.workers[w])
    ensures |RescanStep(s, w).workers| == |s.workers| && |RescanStep(s, w).calls| == |s.calls|
    ensures Paid(s, RescanStep(s, w), w)
  {
    var pc := s.workers[w].pc;
    if pc.Retract? || pc.Uncount? || pc.Absorb? { RetractPaid(s, w); } else { ScanAgainPaid(s, w); }
  }

  lemma RetractPaid(s: State, w: nat)
    requires Enabled(s, Work(w)) && WorkerOk(s.workers[w])
    requires s.workers[w].pc.Retract? || s.workers[w].pc.Uncount? || s.workers[w].pc.Absorb?
    ensures |RescanStep(s, w).workers| == |s.workers| && RescanStep(s, w).calls == s.calls
    ensures Paid(s, RescanStep(s, w), w)
  {
  }

  lemma ScanAgainPaid(s: State, w: nat)
    requires Enabled(s, Work(w)) && WorkerOk(s.workers[w]) && Rescanning(s.workers[w].pc)
    requires !s.workers[w].pc.Retract? && !s.workers[w].pc.Uncount? && !s.workers[w].pc.Absorb?
    ensures |RescanStep(s, w).workers| == |s.workers| && RescanStep(s, w).calls == s.calls
    ensures Paid(s, RescanStep(s, w), w)
  {
  }

  lemma ParkPaid(s: State, w: nat)
    requires Enabled(s, Work(w)) && !Searching(s.workers[w].pc) && !Rescanning(s.workers[w].pc)
    requires WorkerOk(s.workers[w])
    ensures |ParkStep(s, w).workers| == |s.workers| && |ParkStep(s, w).calls| == |s.calls|
    ensures Paid(s, ParkStep(s, w), w)
  {
  }

  lemma WorkPaid(s: State, w: nat)
    requires Enabled(s, Work(w)) && WorkerOk(s.workers[w])
    ensures |WorkStep(s, w).workers| == |s.workers| && |WorkStep(s, w).calls| == |s.calls|
    ensures Paid(s, WorkStep(s, w), w)
  {
    if Searching(s.workers[w].pc) {
      SearchPaid(s, w);
    } else if Rescanning(s.workers[w].pc) {
      RescanPaid(s, w);
    } else {
      ParkPaid(s, w);
    }
  }

  /** Which worker `w` steals from, if any: itself means nobody. */
  lemma StolenFrom(s: State, w: nat) returns (p: nat, y: Worker)
    requires Enabled(s, Work(w))
    ensures p < |s.workers| && y.pc == s.workers[p].pc
            && y.flag == s.workers[p].flag && y.speculating == s.workers[p].speculating && y.token == s.workers[p].token
    ensures var s' := WorkStep(s, w);
            |s'.workers| == |s.workers| && s'.workers == s.workers[p := y][w := s'.workers[w]]
  {
    var x := s.workers[w];
    p, y := w, x;
    if (x.pc.ScanPeers? || x.pc.ScanPeers2?) && x.pc.peer < |s.workers| && s.workers[x.pc.peer].local != [] {
      p := x.pc.peer;
      y := s.workers[p].(local := s.workers[p].local[1..]);
    }
  }

  lemma WorkAccounting(s: State, w: nat)
    requires Accounting(s) && Enabled(s, Work(w)) && WorkerOk(s.workers[w])
    ensures Accounting(WorkStep(s, w))
  {
    var s' := WorkStep(s, w);
    WorkPaid(s, w);
    WorkCalls(s, w);
    var p, y := StolenFrom(s, w);
    var s1 := SetWorker(s, p, y);
    assert s.calls[w := s.calls[w]] == s.calls;
    Rebalance(s, s1, p, y, w, s.calls[w]);
    Rebalance(s1, s', w, s'.workers[w], w, s'.calls[w]);
  }

  lemma WakeAccounting(s: State, t: nat)
    requires Shape(s) && Accounting(s) && Enabled(s, Wakeup(t))
    ensures Accounting(WakeStep(s, t))
  {
    MoveAccounting(s, t);
  }

  /** Which worker a wake call's operation touches, if any. */
  function Touched(s: State, t: nat): nat
    requires t < |s.calls|
  {
    match s.calls[t].wake case Sweep(i) => (if i < |s.workers| then i else 0) case Notify(i) => i case _ => 0
  }

  lemma MoveAccounting(s: State, t: nat)
    requires Shape(s) && Accounting(s) && Enabled(s, Wakeup(t))
    ensures Accounting(WakeMove(s, t))
  {
    var c, s', i := s.calls[t], WakeMove(s, t), Touched(s, t);
    assert CallOk(c, |s.workers|);
    assert WorkerOk(s.workers[i]);
    assert s.workers[i := s.workers[i]] == s.workers;
    Rebalance(s, s', i, s'.workers[i], t, s'.calls[t]);
  }

  lemma AccountingStep(s: State, a: Action)
    requires Shape(s) && Accounting(s) && Enabled(s, a)
    ensures Accounting(Step(s, a))
  {
    var s' := Step(s, a);
    match a {
      case Work(w) =>
        assert WorkerOk(s.workers[w]);
        WorkAccounting(s, w);
      case Wakeup(t) => WakeAccounting(s, t);
      case Push(t, h, forced) =>
        assert s.workers[0 := s.workers[0]] == s.workers;
        Rebalance(s, s', 0, s.workers[0], t, s'.calls[t]);
      case PushLocal(w, h) => Rebalance(s, s', w, s'.workers[w], w, s'.calls[w]);
      case Finish(w) =>
        assert s.calls[w := s.calls[w]] == s.calls;
        Rebalance(s, s', w, s'.workers[w], w, s.calls[w]);
    }
  }
}
