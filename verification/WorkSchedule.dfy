/** `WorkSchedule` and `find_work` as objects updated in place, and the proof that
    a wake call of the step system, when no other thread moves, does what the
    method does. */
module WorkSchedules {
  import opened Options
  import opened Parking

  // ----- specification -----

  /** The shared words of a `WorkSchedule`: flags, parker tokens and counters. */
  datatype Board = Board(flags: seq<bool>, tokens: seq<bool>, idleCount: int, speculation: int)

  /** The first raised flag at or after `i`; the number of flags when there is none. */
  function FirstRaised(flags: seq<bool>, i: nat): (r: nat)
    requires i <= |flags|
    ensures i <= r <= |flags|
    ensures r < |flags| ==> flags[r]
    ensures forall k :: i <= k < r ==> !flags[k]
    decreases |flags| - i
  {
    if i == |flags| || flags[i] then i else FirstRaised(flags, i + 1)
  }

  /** A sweep from flag `i` with a token in hand: the first raised flag is taken down and
      its worker unparked, keeping the token out; with none raised the token goes back. */
  function Swept(b: Board, i: nat): Board
    requires i <= |b.flags| == |b.tokens|
  {
    var r := FirstRaised(b.flags, i);
    if r < |b.flags| then
      b.(flags := b.flags[r := false], tokens := b.tokens[r := true], idleCount := b.idleCount - 1)
    else b.(speculation := b.speculation - 1)
  }

  function Unparked(b: Board, forced: bool): Board
    requires |b.flags| == |b.tokens|
  {
    if b.idleCount == 0 || (!forced && b.speculation != 0) then b
    else Swept(b.(speculation := b.speculation + 1), 0)
  }

  /** Every flag down: nobody to wake. */
  predicate NobodyIdle(b: Board) { forall i :: 0 <= i < |b.flags| ==> !b.flags[i] }

  /** `b'` is `b` with the first raised flag taken down, its worker given a parker token and
      the claim subtracted. */
  predicate WokeFirst(b: Board, b': Board) {
    && |b'.flags| == |b.flags| == |b.tokens| == |b'.tokens| && b'.idleCount == b.idleCount - 1
    && exists r :: 0 <= r < |b.flags| && b.flags[r] && (forall i :: 0 <= i < r ==> !b.flags[i])
         && b'.flags == b.flags[r := false] && b'.tokens == b.tokens[r := true]
  }

  // ----- the object -----

  class WorkSchedule {
    const idleFlags: array<bool>
    const parkers: array<bool>
    var idleCount: int
    var speculation: int

    ghost predicate Valid()
      reads this
    {
      idleFlags != parkers && idleFlags.Length == parkers.Length
    }

    ghost function Contents(): Board
      reads this, idleFlags, parkers
    {
      Board(idleFlags[..], parkers[..], idleCount, speculation)
    }

    constructor (workers: nat)
      ensures Valid() && fresh(idleFlags) && fresh(parkers)
      ensures |Contents().flags| == workers && idleCount == 0 && speculation == 0
      ensures forall i :: 0 <= i < workers ==> !Contents().flags[i] && !Contents().tokens[i]
    {
      idleFlags := new bool[workers](_ => false);
      parkers := new bool[workers](_ => false);
      idleCount := 0;
      speculation := 0;
    }

    method SetIdle(idx: nat)
      requires Valid() && idx < idleFlags.Length
      modifies this`idleCount, idleFlags
      ensures Valid()
      ensures Contents() == old(Contents()).(flags := old(idleFlags[..])[idx := true], idleCount := old(idleCount) + 1)
    {
      idleFlags[idx] := true;
      idleCount := idleCount + 1;
    }

    method ClearIdle(idx: nat) returns (ours: bool)
      requires Valid() && idx < idleFlags.Length
      modifies this`idleCount, idleFlags
      ensures Valid()
      ensures ours == old(idleFlags[idx]) && !idleFlags[idx]
      ensures ours ==> Contents() == old(Contents()).(flags := old(idleFlags[..])[idx := false], idleCount := old(idleCount) - 1)
      ensures !ours ==> Contents() == old(Contents())
    {
      if idleFlags[idx] {
        idleFlags[idx] := false;
        idleCount := idleCount - 1;
        return true;
      }
      return false;
    }

    method UnparkOne()
      requires Valid()
      modifies this`idleCount, this`speculation, idleFlags, parkers
      ensures Valid()
      ensures Contents() == Unparked(old(Contents()), false)
      ensures old(idleCount) == 0 || old(speculation) != 0 || NobodyIdle(old(Contents())) ==> Contents() == old(Contents())
      ensures old(idleCount) != 0 && old(speculation) == 0 && !NobodyIdle(old(Contents())) ==>
                WokeFirst(old(Contents()), Contents()) && speculation == 1
    {
      if idleCount == 0 { return; }
      if speculation != 0 { return; }
      speculation := 1;
      WakeIdle();
    }

    method Unpark()
      requires Valid()
      modifies this`idleCount, this`speculation, idleFlags, parkers
      ensures Valid()
      ensures Contents() == Unparked(old(Contents()), true)
      ensures old(idleCount) == 0 || NobodyIdle(old(Contents())) ==> Contents() == old(Contents())
      ensures old(idleCount) != 0 && !NobodyIdle(old(Contents())) ==>
                WokeFirst(old(Contents()), Contents()) && speculation == old(speculation) + 1
    {
      if idleCount == 0 { return; }
      speculation := speculation + 1;
      WakeIdle();
    }

    method WakeIdle()
      requires Valid()
      modifies this`idleCount, this`speculation, idleFlags, parkers
      ensures Valid()
      ensures Contents() == Swept(old(Contents()), 0)
      ensures NobodyIdle(old(Contents())) ==> Contents() == old(Contents()).(speculation := old(speculation) - 1)
      ensures !NobodyIdle(old(Contents())) ==> WokeFirst(old(Contents()), Contents()) && speculation == old(speculation)
    {
      var i := 0;
      while i < idleFlags.Length
        invariant 0 <= i <= idleFlags.Length
        invariant Contents() == old(Contents())
        invariant FirstRaised(old(idleFlags[..]), 0) == FirstRaised(old(idleFlags[..]), i)
      {
        if idleFlags[i] {
          idleFlags[i] := false;
          idleCount := idleCount - 1;
          parkers[i] := true;
          assert idleFlags[..] == old(idleFlags[..])[i := false] && parkers[..] == old(parkers[..])[i := true];
          return;
        }
        i := i + 1;
      }
      speculation := speculation - 1;
    }
  }

  // ----- the step system, undisturbed -----

  function BoardOf(s: State): Board {
    Board(seq(|s.workers|, i requires 0 <= i < |s.workers| => s.workers[i].flag),
          seq(|s.workers|, i requires 0 <= i < |s.workers| => s.workers[i].token),
          s.idleCount, s.speculation)
  }

  /** How many operations a wake call has left at most. */
  function Left(w: Wake, n: nat): nat {
    match w
    case Outside => 0
    case LoadIdle => n + 5
    case TakeToken => n + 4
    case Sweep(i) => if i < n then n - i + 3 else 3
    case CountClaim(_) => 2
    case Notify(_) => 1
  }

  predicate InRange(s: State, t: nat) {
    t < |s.calls| && match s.calls[t].wake
                     case Sweep(i) => i <= |s.workers|
                     case CountClaim(i) => i < |s.workers|
                     case Notify(i) => i < |s.workers|
                     case _ => true
  }

  /** Thread `t` finishes its wake call while nobody else moves. */
  function Undisturbed(s: State, t: nat): State
    requires InRange(s, t)
    decreases if t < |s.calls| then Left(s.calls[t].wake, |s.workers|) else 0
  {
    if s.calls[t].wake.Outside? then s else Undisturbed(WakeStep(s, t), t)
  }

  lemma {:induction false} SweepAlone(s: State, t: nat)
    requires InRange(s, t) && s.calls[t].wake.Sweep?
    ensures BoardOf(Undisturbed(s, t)) == Swept(BoardOf(s), s.calls[t].wake.next)
    ensures Undisturbed(s, t).calls == s.calls[t := NO_CALL]
    decreases |s.workers| - s.calls[t].wake.next
  {
    var i, b := s.calls[t].wake.next, BoardOf(s);
    var s1 := WakeStep(s, t);
    if i == |s.workers| {
      assert Undisturbed(s, t) == Undisturbed(s1, t) == s1;
      assert BoardOf(s1).flags == b.flags && BoardOf(s1).tokens == b.tokens;
    } else if s.workers[i].flag {
      ClaimAlone(s1, t, i);
      assert BoardOf(s1).flags == b.flags[i := false] && BoardOf(s1).tokens == b.tokens;
    } else {
      assert BoardOf(s1) == b;
      SweepAlone(s1, t);
      assert s1.calls[t := NO_CALL] == s.calls[t := NO_CALL];
    }
  }

  lemma ClaimAlone(s: State, t: nat, i: nat)
    requires InRange(s, t) && s.calls[t].wake == CountClaim(i)
    ensures BoardOf(Undisturbed(s, t)) ==
            BoardOf(s).(tokens := BoardOf(s).tokens[i := true], idleCount := s.idleCount - 1)
    ensures Undisturbed(s, t).calls == s.calls[t := NO_CALL]
  {
    var s1 := WakeStep(s, t);
    var s2 := WakeStep(s1, t);
    assert Undisturbed(s, t) == Undisturbed(s1, t) == Undisturbed(s2, t) == s2;
    assert BoardOf(s2).flags == BoardOf(s).flags;
    assert BoardOf(s2).tokens == BoardOf(s).tokens[i := true];
    assert s2.calls == s.calls[t := NO_CALL];
  }

  /** A whole wake call of the step system with no interference is one call of
      `unpark_one` or `unpark` on the object. */
  lemma WakeCallAlone(s: State, t: nat)
    requires t < |s.calls| && s.calls[t].wake.LoadIdle?
    ensures BoardOf(Undisturbed(s, t)) == Unparked(BoardOf(s), s.calls[t].forced)
    ensures Undisturbed(s, t).calls == s.calls[t := NO_CALL]
  {
    var s1 := WakeStep(s, t);
    assert BoardOf(s1) == BoardOf(s);
    if s.idleCount == 0 {
      assert Undisturbed(s, t) == Undisturbed(s1, t) == s1;
    } else {
      var s2 := WakeStep(s1, t);
      assert Undisturbed(s, t) == Undisturbed(s1, t) == Undisturbed(s2, t);
      assert BoardOf(s2).flags == BoardOf(s).flags && BoardOf(s2).tokens == BoardOf(s).tokens;
      if s2.calls[t].wake.Sweep? {
        SweepAlone(s2, t);
        assert s2.calls[t := NO_CALL] == s.calls[t := NO_CALL];
      } else {
        assert Undisturbed(s2, t) == s2;
        assert s2.calls == s.calls[t := NO_CALL];
      }
    }
  }

  // ----- find_work -----

  /** Where `find_work` takes from, in order of preference, and what is left there. */
  datatype Queues = Queues(local: seq<seq<Handle>>, injector: seq<Handle>)

  /** The first deque other than `idx`, from `i` on, that holds something. */
  function FirstLoaded(local: seq<seq<Handle>>, idx: nat, i: nat): (r: nat)
    requires i <= |local|
    ensures i <= r <= |local|
    ensures r < |local| ==> r != idx && local[r] != []
    ensures forall k :: i <= k < r && k != idx ==> local[k] == []
    decreases |local| - i
  {
    if i == |local| || (i != idx && local[i] != []) then i else FirstLoaded(local, idx, i + 1)
  }

  /** What `find_work` takes for worker `idx`, and what it leaves. */
  function Taken(q: Queues, idx: nat): (Option<Handle>, Queues)
    requires idx < |q.local|
  {
    var mine := q.local[idx];
    if mine != [] then (Some(mine[|mine| - 1]), q.(local := q.local[idx := mine[..|mine| - 1]]))
    else if q.injector != [] then (Some(q.injector[0]), q.(injector := q.injector[1..]))
    else
      var p := FirstLoaded(q.local, idx, 0);
      if p < |q.local| then (Some(q.local[p][0]), q.(local := q.local[p := q.local[p][1..]])) else (None, q)
  }

  class RunQueues {
    const local: array<seq<Handle>>
    var injector: seq<Handle>

    ghost function Contents(): Queues
      reads this, local
    {
      Queues(local[..], injector)
    }

    constructor (workers: nat)
      ensures fresh(local) && local.Length == workers && injector == []
      ensures forall i :: 0 <= i < workers ==> local[i] == []
    {
      local := new seq<Handle>[workers](_ => []);
      injector := [];
    }

    /** The own deque's newest handle, else the injector's oldest, else the oldest of
        the first loaded peer; nothing exactly when all of them are empty. */
    method FindWork(idx: nat) returns (found: Option<Handle>)
      requires idx < local.Length
      modifies this`injector, local
      ensures (found, Contents()) == Taken(old(Contents()), idx)
      ensures found.None? <==>
              old(injector) == [] && forall i :: 0 <= i < local.Length ==> old(local[i]) == []
      ensures found.None? ==> Contents() == old(Contents())
      ensures old(local[idx]) != [] ==>
                && injector == old(injector) && found.Some?
                && local[..] == old(local[..])[idx := local[idx]]
                && old(local[idx]) == local[idx] + [found.value]
      ensures old(local[idx]) == [] && old(injector) != [] ==>
                && local[..] == old(local[..]) && found.Some?
                && old(injector) == [found.value] + injector
      ensures old(local[idx]) == [] && old(injector) == [] && found.Some? ==>
                var p := FirstLoaded(old(local[..]), idx, 0);
                && p < local.Length && injector == []
                && local[..] == old(local[..])[p := local[p]]
                && old(local[p]) == [found.value] + local[p]
    {
      if local[idx] != [] {
        var mine := local[idx];
        found := Some(mine[|mine| - 1]);
        local[idx] := mine[..|mine| - 1];
        return;
      }
      if injector != [] {
        found := Some(injector[0]);
        injector := injector[1..];
        return;
      }
      var i := 0;
      while i < local.Length
        invariant 0 <= i <= local.Length
        invariant Contents() == old(Contents())
        invariant forall k :: 0 <= k < i ==> local[k] == []
        invariant FirstLoaded(old(local[..]), idx, 0) == FirstLoaded(old(local[..]), idx, i)
      {
        if i != idx && local[i] != [] {
          var theirs := local[i];
          found := Some(theirs[0]);
          local[i] := theirs[1..];
          return;
        }
        i := i + 1;
      }
      return None;
    }
  }

  // ----- the step system's first scan, undisturbed -----

  function QueuesOf(s: State): Queues {
    Queues(seq(|s.workers|, i requires 0 <= i < |s.workers| => s.workers[i].local), s.injector)
  }

  predicate Scanning(pc: Pc) { pc.Top? || pc.ScanInjector? || pc.ScanPeers? }

  /** Worker `w` finishes its first scan while nobody else moves. */
  function Scanned(s: State, w: nat): State
    requires w < |s.workers| <= |s.calls| && s.calls[w].wake.Outside?
    decreases match s.workers[w].pc
              case Top => |s.workers| + 3
              case ScanInjector => |s.workers| + 2
              case ScanPeers(p) => if p <= |s.workers| then |s.workers| - p + 1 else 1
              case _ => 0
  {
    if Scanning(s.workers[w].pc) then Scanned(SearchStep(s, w), w) else s
  }

  lemma QueuesAfter(s: State, w: nat, x: Worker)
    requires w < |s.workers|
    ensures QueuesOf(SetWorker(s, w, x)).local == QueuesOf(s).local[w := x.local]
  {
  }

  lemma {:induction false} PeersAlone(s: State, w: nat)
    requires w < |s.workers| <= |s.calls| && s.calls[w].wake.Outside?
    requires s.workers[w].pc.ScanPeers? && s.workers[w].pc.peer <= |s.workers| && s.workers[w].hand.None?
    ensures var q, p := QueuesOf(s), FirstLoaded(QueuesOf(s).local, w, s.workers[w].pc.peer);
            var s' := Scanned(s, w);
            && w < |s'.workers|
            && (if p < |s.workers| then
                  && s'.workers[w].hand == Some(q.local[p][0]) && s'.workers[w].pc.DropOwn?
                  && QueuesOf(s') == q.(local := q.local[p := q.local[p][1..]])
                else s'.workers[w].hand == None && s'.workers[w].pc.Advertise? && QueuesOf(s') == q)
    decreases |s.workers| - s.workers[w].pc.peer
  {
    var p, q, s1 := s.workers[w].pc.peer, QueuesOf(s), SearchStep(s, w);
    assert Scanned(s, w) == Scanned(s1, w);
    if p == |s.workers| {
      assert QueuesOf(s1).local == q.local;
    } else if p != w && s.workers[p].local != [] {
      var y := s.workers[p].(local := s.workers[p].local[1..]);
      QueuesAfter(s, p, y);
      QueuesAfter(SetWorker(s, p, y), w, s1.workers[w]);
      assert Scanned(s1, w) == s1;
      assert QueuesOf(s1).local == q.local[p := q.local[p][1..]];
    } else {
      assert QueuesOf(s1).local == q.local;
      PeersAlone(s1, w);
    }
  }

  /** A whole first scan of the step system with no interference takes what `find_work` on
      the object takes, and leaves what it leaves. */
  lemma FindWorkAlone(s: State, w: nat)
    requires w < |s.workers| <= |s.calls| && s.calls[w].wake.Outside?
    requires s.workers[w].pc.Top? && s.workers[w].hand.None?
    ensures var (found, left) := Taken(QueuesOf(s), w);
            var s' := Scanned(s, w);
            && w < |s'.workers| && s'.workers[w].hand == found && QueuesOf(s') == left
            && s'.workers[w].pc == (if found.Some? then DropOwn else Advertise)
  {
    var s1 := SearchStep(s, w);
    QueuesAfter(s, w, s1.workers[w]);
    assert Scanned(s, w) == Scanned(s1, w);
    if s.workers[w].local == [] {
      assert QueuesOf(s1).local == QueuesOf(s).local;
      var s2 := SearchStep(s1, w);
      QueuesAfter(s1, w, s2.workers[w]);
      assert QueuesOf(s2).local == QueuesOf(s).local;
      assert Scanned(s1, w) == Scanned(s2, w);
      if s.injector == [] { PeersAlone(s2, w); } else { assert Scanned(s2, w) == s2; }
    } else {
      assert Scanned(s1, w) == s1;
    }
  }

  // ----- advertising and coming back, undisturbed -----

  /** The two steps into idleness are the object's `SetIdle`. */
  lemma AdvertiseAlone(s: State, w: nat)
    requires Enabled(s, Work(w)) && s.workers[w].pc.Advertise?
    ensures Enabled(SearchStep(s, w), Work(w))
    ensures var s1 := SearchStep(s, w);
            var s' := RescanStep(s1, w);
            && BoardOf(s') == BoardOf(s).(flags := BoardOf(s).flags[w := true], idleCount := s.idleCount + 1)
            && w < |s'.workers| && s'.workers[w].pc.Pop2? && QueuesOf(s') == QueuesOf(s)
  {
    var s' := RescanStep(SearchStep(s, w), w);
    assert BoardOf(s').flags == BoardOf(s).flags[w := true];
    assert BoardOf(s').tokens == BoardOf(s).tokens;
    assert QueuesOf(s').local == QueuesOf(s).local;
  }

  /** A return from `park` uses the parker token up, takes the flag back as the object's
      `ClearIdle` does, and goes back to the first scan: as a searcher exactly if a producer
      had claimed the flag. */
  lemma ReturnAlone(s: State, w: nat)
    requires Enabled(s, Work(w)) && s.workers[w].pc.Park?
    ensures var s' := Returned(s, w);
            && w < |s'.workers| && s'.workers[w].pc.Top? && s'.workers[w].speculating == !s.workers[w].flag
            && !s'.workers[w].flag && !s'.workers[w].token
            && BoardOf(s') == BoardOf(s).(flags := BoardOf(s).flags[w := false], tokens := BoardOf(s).tokens[w := false],
                                          idleCount := if s.workers[w].flag then s.idleCount - 1 else s.idleCount)
            && QueuesOf(s') == QueuesOf(s)
  {
    var s' := Returned(s, w);
    assert BoardOf(s').flags == BoardOf(s).flags[w := false];
    assert BoardOf(s').tokens == BoardOf(s).tokens[w := false];
    assert QueuesOf(s').local == QueuesOf(s).local;
  }

  function Returned(s: State, w: nat): State
    requires Enabled(s, Work(w)) && s.workers[w].pc.Park?
  {
    var s2 := ParkStep(ParkStep(s, w), w);
    if s.workers[w].flag then ParkStep(s2, w) else s2
  }

  /** With work found after advertising, the flag comes back or, if it was claimed, the
      claimer's token goes: `ClearIdle`, and one token less if it says no. */
  lemma RetractAlone(s: State, w: nat)
    requires Enabled(s, Work(w)) && s.workers[w].pc.Retract?
    ensures Enabled(RescanStep(s, w), Work(w))
    ensures var s' := RescanStep(RescanStep(s, w), w);
            && w < |s'.workers| && s'.workers[w] == s.workers[w].(pc := DropOwn, flag := false)
            && BoardOf(s') == (if s.workers[w].flag
                               then BoardOf(s).(flags := BoardOf(s).flags[w := false], idleCount := s.idleCount - 1)
                               else BoardOf(s).(speculation := s.speculation - 1))
  {
    var s' := RescanStep(RescanStep(s, w), w);
    assert BoardOf(s').flags == BoardOf(s).flags[w := false];
    assert !s.workers[w].flag ==> BoardOf(s).flags[w := false] == BoardOf(s).flags;
    assert BoardOf(s').tokens == BoardOf(s).tokens;
  }
}
