/** The run that strands a throttled handle: one worker, two outside threads. */
module ParkingGap {
  import opened Options
  import opened Parking
  import opened ParkingTheorems
  import opened ParkingConservation
  import opened Runs

  /** The handle a call has still to decide about. */
  function Announced(c: Call): set<Handle> {
    if c.handle.Some? && (c.wake.LoadIdle? || c.wake.TakeToken?) then {c.handle.value} else {}
  }

  /** One worker (thread 0) with a clear parker token, an empty deque and no token
      of its own, which runs handle 10 if any; outside threads 1 and 2. */
  function Two(pc: Pc, flag: bool, c1: Call, c2: Call, injector: seq<Handle>,
               idleCount: int, speculation: int, issued: set<Handle>, elided: set<Handle>): State
  {
    var ran := 10 in issued && 10 !in injector && !Carries(pc);
    State([Worker(pc, flag, false, false, [], if Carries(pc) then Some(10) else None)], [NO_CALL, c1, c2], injector,
          idleCount, speculation, issued, {}, elided, if ran then multiset{10} else multiset{}, 0, 0,
          issued - Announced(c1) - Announced(c2))
  }

  /** The worker finds nothing and advertises itself. */
  lemma Advertises(run: seq<State>, c1: Call, issued: set<Handle>, spec: int) returns (longer: seq<State>)
    requires IsRun(Init, Next, run)
    requires run[|run| - 1] == Two(Top, false, c1, NO_CALL, [], 0, spec, issued, {})
    ensures IsRun(Init, Next, longer)
    ensures longer[|longer| - 1] == Two(ScanInjector2, true, c1, NO_CALL, [], 1, spec, issued, {})
  {
    longer := Then(run, Work(0), Two(ScanInjector, false, c1, NO_CALL, [], 0, spec, issued, {}));
    longer := Then(longer, Work(0), Two(ScanPeers(0), false, c1, NO_CALL, [], 0, spec, issued, {}));
    longer := FindsNobody(longer, c1, issued, spec);
    longer := Counts(longer, c1, issued, spec);
  }

  lemma FindsNobody(run: seq<State>, c1: Call, issued: set<Handle>, spec: int) returns (longer: seq<State>)
    requires IsRun(Init, Next, run)
    requires run[|run| - 1] == Two(ScanPeers(0), false, c1, NO_CALL, [], 0, spec, issued, {})
    ensures IsRun(Init, Next, longer)
    ensures longer[|longer| - 1] == Two(Advertise, false, c1, NO_CALL, [], 0, spec, issued, {})
  {
    longer := Then(run, Work(0), Two(ScanPeers(1), false, c1, NO_CALL, [], 0, spec, issued, {}));
    longer := Then(longer, Work(0), Two(Advertise, false, c1, NO_CALL, [], 0, spec, issued, {}));
  }

  lemma Counts(run: seq<State>, c1: Call, issued: set<Handle>, spec: int) returns (longer: seq<State>)
    requires IsRun(Init, Next, run)
    requires run[|run| - 1] == Two(Advertise, false, c1, NO_CALL, [], 0, spec, issued, {})
    ensures IsRun(Init, Next, longer)
    ensures longer[|longer| - 1] == Two(ScanInjector2, true, c1, NO_CALL, [], 1, spec, issued, {})
  {
    longer := Then(run, Work(0), Two(CountIdle, true, c1, NO_CALL, [], 0, spec, issued, {}));
    longer := Then(longer, Work(0), Two(Pop2, true, c1, NO_CALL, [], 1, spec, issued, {}));
    longer := Then(longer, Work(0), Two(ScanInjector2, true, c1, NO_CALL, [], 1, spec, issued, {}));
  }

  /** Thread 1 pushes handle 10 and sees an idle worker; that worker takes the handle
      itself, so thread 1 sweeps the flags in vain and stops before dropping its token. */
  lemma SweepsInVain(run: seq<State>) returns (longer: seq<State>)
    requires IsRun(Init, Next, run)
    requires run[|run| - 1] == Two(ScanInjector2, true, NO_CALL, NO_CALL, [], 1, 0, {}, {})
    ensures IsRun(Init, Next, longer)
    ensures longer[|longer| - 1] == Two(Top, false, Call(Sweep(1), false, Some(10)), NO_CALL, [], 0, 1, {10}, {})
  {
    longer := Announces10(run);
    longer := Retracts(longer);
    longer := Sweeps(longer);
    longer := Then(longer, Finish(0), Two(Top, false, Call(Sweep(1), false, Some(10)), NO_CALL, [], 0, 1, {10}, {}));
  }

  lemma Announces10(run: seq<State>) returns (longer: seq<State>)
    requires IsRun(Init, Next, run)
    requires run[|run| - 1] == Two(ScanInjector2, true, NO_CALL, NO_CALL, [], 1, 0, {}, {})
    ensures IsRun(Init, Next, longer)
    ensures longer[|longer| - 1] == Two(ScanInjector2, true, Call(TakeToken, false, Some(10)), NO_CALL, [10], 1, 0, {10}, {})
  {
    longer := Then(run, Push(1, 10, false),
                     Two(ScanInjector2, true, Call(LoadIdle, false, Some(10)), NO_CALL, [10], 1, 0, {10}, {}));
    longer := Then(longer, Wakeup(1),
                     Two(ScanInjector2, true, Call(TakeToken, false, Some(10)), NO_CALL, [10], 1, 0, {10}, {}));
  }

  lemma Sweeps(run: seq<State>) returns (longer: seq<State>)
    requires IsRun(Init, Next, run)
    requires run[|run| - 1] == Two(Running, false, Call(TakeToken, false, Some(10)), NO_CALL, [], 0, 0, {10}, {})
    ensures IsRun(Init, Next, longer)
    ensures longer[|longer| - 1] == Two(Running, false, Call(Sweep(1), false, Some(10)), NO_CALL, [], 0, 1, {10}, {})
  {
    longer := Then(run, Wakeup(1), Two(Running, false, Call(Sweep(0), false, Some(10)), NO_CALL, [], 0, 1, {10}, {}));
    longer := Then(longer, Wakeup(1), Two(Running, false, Call(Sweep(1), false, Some(10)), NO_CALL, [], 0, 1, {10}, {}));
  }

  lemma Retracts(run: seq<State>) returns (longer: seq<State>)
    requires IsRun(Init, Next, run)
    requires run[|run| - 1] == Two(ScanInjector2, true, Call(TakeToken, false, Some(10)), NO_CALL, [10], 1, 0, {10}, {})
    ensures IsRun(Init, Next, longer)
    ensures longer[|longer| - 1] == Two(Running, false, Call(TakeToken, false, Some(10)), NO_CALL, [], 0, 0, {10}, {})
  {
    var take := Call(TakeToken, false, Some(10));
    longer := Then(run, Work(0), Two(Retract, true, take, NO_CALL, [], 1, 0, {10}, {}));
    longer := Then(longer, Work(0), Two(Uncount, false, take, NO_CALL, [], 1, 0, {10}, {}));
    longer := Then(longer, Work(0), Two(DropOwn, false, take, NO_CALL, [], 0, 0, {10}, {}));
    longer := Then(longer, Work(0), Two(Running, false, take, NO_CALL, [], 0, 0, {10}, {}));
  }

  /** The worker finds nothing and parks. */
  lemma Parks(run: seq<State>) returns (longer: seq<State>)
    requires IsRun(Init, Next, run)
    requires run[|run| - 1] == Two(ScanInjector2, true, Call(Sweep(1), false, Some(10)), NO_CALL, [], 1, 1, {10}, {})
    ensures IsRun(Init, Next, longer)
    ensures longer[|longer| - 1] == Two(Park, true, Call(Sweep(1), false, Some(10)), NO_CALL, [], 1, 1, {10}, {})
  {
    longer := Walks(run, ScanInjector2, ScanPeers2(0));
    longer := Walks(longer, ScanPeers2(0), ScanPeers2(1));
    longer := Walks(longer, ScanPeers2(1), Park);
  }

  /** One step of a worker that finds nothing. */
  lemma Walks(run: seq<State>, from: Pc, to: Pc) returns (longer: seq<State>)
    requires IsRun(Init, Next, run)
    requires run[|run| - 1] == Two(from, true, Call(Sweep(1), false, Some(10)), NO_CALL, [], 1, 1, {10}, {})
    requires (from, to) == (ScanInjector2, ScanPeers2(0)) || (from, to) == (ScanPeers2(0), ScanPeers2(1))
             || (from, to) == (ScanPeers2(1), Park)
    ensures IsRun(Init, Next, longer)
    ensures longer[|longer| - 1] == Two(to, true, Call(Sweep(1), false, Some(10)), NO_CALL, [], 1, 1, {10}, {})
  {
    longer := Then(run, Work(0), Two(to, true, Call(Sweep(1), false, Some(10)), NO_CALL, [], 1, 1, {10}, {}));
  }

  /** Thread 2 pushes handle 20 and finds the token out, which thread 1 then drops. */
  lemma Elides(run: seq<State>) returns (longer: seq<State>)
    requires IsRun(Init, Next, run)
    requires run[|run| - 1] == Two(Park, true, Call(Sweep(1), false, Some(10)), NO_CALL, [], 1, 1, {10}, {})
    ensures IsRun(Init, Next, longer)
    ensures longer[|longer| - 1] == Two(Park, true, NO_CALL, NO_CALL, [20], 1, 0, {10, 20}, {20})
  {
    var c1 := Call(Sweep(1), false, Some(10));
    longer := Then(run, Push(2, 20, false),
                     Two(Park, true, c1, Call(LoadIdle, false, Some(20)), [20], 1, 1, {10, 20}, {}));
    longer := Then(longer, Wakeup(2),
                     Two(Park, true, c1, Call(TakeToken, false, Some(20)), [20], 1, 1, {10, 20}, {}));
    assert Deserted(longer[|longer| - 1]);
    longer := Then(longer, Wakeup(2), Two(Park, true, c1, NO_CALL, [20], 1, 1, {10, 20}, {20}));
    longer := Then(longer, Wakeup(1), Two(Park, true, NO_CALL, NO_CALL, [20], 1, 0, {10, 20}, {20}));
  }

  /** The throttled wake can lose a handle: a run ends with handle 20 in the injector,
      its push finished, the only worker blocked in `park`, and nothing left to move. */
  lemma ThrottledWakeCanStrand() returns (run: seq<State>)
    ensures IsRun(Init, Next, run)
    ensures Stranded(run[|run| - 1], 20) && Quiescent(run[|run| - 1])
  {
    run := [Two(Top, false, NO_CALL, NO_CALL, [], 0, 0, {}, {})];
    run := Advertises(run, NO_CALL, {}, 0);
    run := SweepsInVain(run);
    run := Advertises(run, Call(Sweep(1), false, Some(10)), {10}, 1);
    run := Parks(run);
    run := Elides(run);
  }
}
