/** `gather` (`mt_asyncio/asyncio/_ctl.py`): the children's done-callbacks run in any order
    on any threads, each under one lock, while the outer future may be cancelled. */
module Gathers {
  import opened Options

  /** How a child ended. Cancellation counts as an exception of its own. */
  datatype Outcome<V, X> = Returned(value: V) | Raised(error: X) | Cancelled

  /** An entry of the result list: a value, or what a child raised. */
  datatype Cell<V, X> = Value(value: V) | Error(error: X) | CancelledError

  datatype Settlement<V, X> =
    | Results(cells: seq<Option<Cell<V, X>>>)
    | Failure(cell: Cell<V, X>)
    | OuterCancelled

  /** `settlements` counts how often the outer future was settled. */
  datatype State<V, X> = State(results: seq<Option<Cell<V, X>>>, remaining: int, settled: bool,
                               outer: Option<Settlement<V, X>>, settlements: nat)

  /** The arguments of one call: its children's outcomes and `return_exceptions`. */
  datatype Call<V, X> = Call(outcomes: seq<Outcome<V, X>>, keepErrors: bool)

  datatype Event = Done(child: nat) | Cancel

  function AsCell<V, X>(o: Outcome<V, X>): Cell<V, X> {
    match o
    case Returned(v) => Value(v)
    case Raised(e) => Error(e)
    case Cancelled => CancelledError
  }

  predicate Fails<V, X>(c: Call<V, X>, i: nat)
    requires i < |c.outcomes|
  {
    !c.outcomes[i].Returned? && !c.keepErrors
  }

  function Settle<V, X>(s: State<V, X>, verdict: Settlement<V, X>): State<V, X> {
    if s.outer.Some? then s else s.(outer := Some(verdict), settlements := s.settlements + 1)
  }

  /** `gather()` with no children returns at once. */
  function Start<V, X>(c: Call<V, X>): State<V, X> {
    var s := State(seq(|c.outcomes|, _ => None), |c.outcomes|, false, None, 0);
    if c.outcomes == [] then Settle(s, Results([])) else s
  }

  function Step<V, X>(c: Call<V, X>, s: State<V, X>, e: Event): State<V, X>
    requires |s.results| == |c.outcomes| && (e.Done? ==> e.child < |c.outcomes|)
  {
    if e.Cancel? then Settle(s, OuterCancelled)
    else if s.settled then s
    else if Fails(c, e.child) then Settle(s.(settled := true), Failure(AsCell(c.outcomes[e.child])))
    else
      var s1 := s.(results := s.results[e.child := Some(AsCell(c.outcomes[e.child]))], remaining := s.remaining - 1);
      if s1.remaining == 0 then Settle(s1.(settled := true), Results(s1.results)) else s1
  }

  /** Each child's callback runs at most once; cancellation may come at any point. */
  predicate IsHistory<V, X>(c: Call<V, X>, h: seq<Event>) {
    && (forall k :: 0 <= k < |h| && h[k].Done? ==> h[k].child < |c.outcomes|)
    && (forall k, m :: 0 <= k < m < |h| && h[k].Done? ==> h[k] != h[m])
  }

  function After<V, X>(c: Call<V, X>, h: seq<Event>): (s: State<V, X>)
    requires IsHistory(c, h)
    ensures |s.results| == |c.outcomes|
  {
    if h == [] then Start(c)
    else
      var n := |h| - 1;
      Step(c, After(c, h[..n]), h[n])
  }

  // ----- what the outer future should hold, read off the history alone -----

  /** Event `k` decides: a cancellation, a child that fails, or the last child to report. */
  predicate Decides<V, X>(c: Call<V, X>, h: seq<Event>, k: nat)
    requires IsHistory(c, h) && k < |h|
  {
    || h[k].Cancel?
    || Fails(c, h[k].child)
    || forall i :: 0 <= i < |c.outcomes| ==> Done(i) in h[..k + 1]
  }

  function Decision<V, X>(c: Call<V, X>, e: Event): Settlement<V, X>
    requires e.Done? ==> e.child < |c.outcomes|
  {
    if e.Cancel? then OuterCancelled
    else if Fails(c, e.child) then Failure(AsCell(c.outcomes[e.child]))
    else Results(InArgumentOrder(c))
  }

  function InArgumentOrder<V, X>(c: Call<V, X>): seq<Option<Cell<V, X>>> {
    seq(|c.outcomes|, i requires 0 <= i < |c.outcomes| => Some(AsCell(c.outcomes[i])))
  }

  // ----- the locked fields against the history -----

  function Reported<V, X>(c: Call<V, X>, h: seq<Event>): (r: set<nat>) {
    set i: nat | i < |c.outcomes| && Done(i) in h
  }

  function Indices(n: nat): (r: set<nat>)
    ensures |r| == n && forall i: nat :: i in r <==> i < n
  {
    if n == 0 then {} else Indices(n - 1) + {n - 1}
  }

  /** While unsettled, the list holds exactly the outcomes reported so far and `remaining`
      counts the rest. */
  ghost predicate Tracks<V, X>(c: Call<V, X>, h: seq<Event>, s: State<V, X>) {
    && |s.results| == |c.outcomes|
    && (forall i :: 0 <= i < |c.outcomes| ==>
          s.results[i] == if Done(i) in h then Some(AsCell(c.outcomes[i])) else None)
    && s.remaining == |c.outcomes| - |Reported(c, h)|
    && (s.remaining == 0 <==> c.outcomes == [])
  }

  lemma AllReported<V, X>(c: Call<V, X>, h: seq<Event>)
    ensures |Reported(c, h)| <= |c.outcomes|
    ensures |Reported(c, h)| == |c.outcomes| <==> forall i :: 0 <= i < |c.outcomes| ==> Done(i) in h
  {
    var all := Indices(|c.outcomes|);
    var some := Reported(c, h);
    assert some <= all;
    assert all == some + (all - some);
    if forall i :: 0 <= i < |c.outcomes| ==> Done(i) in h {
      assert some == all;
    } else {
      var i :| 0 <= i < |c.outcomes| && Done(i) !in h;
      assert i in all - some;
    }
  }

  lemma OneMore<V, X>(c: Call<V, X>, h: seq<Event>, e: Event)
    requires IsHistory(c, h + [e])
    ensures |Reported(c, h + [e])| == |Reported(c, h)| + if e.Done? then 1 else 0
  {
    if e.Done? {
      forall k | 0 <= k < |h| ensures h[k] != e {
        assert (h + [e])[k] == h[k] && (h + [e])[|h|] == e;
      }
      forall i: nat ensures Done(i) in h + [e] <==> Done(i) in h || i == e.child { assert e == Done(i) <==> i == e.child; }
      assert Reported(c, h + [e]) == Reported(c, h) + {e.child};
    } else {
      forall i: nat ensures Done(i) in h + [e] <==> Done(i) in h { assert e != Done(i); }
      assert Reported(c, h + [e]) == Reported(c, h);
    }
  }

  ghost predicate Inv<V, X>(c: Call<V, X>, h: seq<Event>, s: State<V, X>) {
    && s.settlements == (if s.outer.Some? then 1 else 0)
    && (s.settled ==> s.outer.Some?)
    && (!s.settled ==> Tracks(c, h, s))
  }

  lemma StartInv<V, X>(c: Call<V, X>)
    ensures Inv(c, [], Start(c))
  {
    assert Reported(c, []) == {};
  }

  lemma StepInv<V, X>(c: Call<V, X>, h: seq<Event>, s: State<V, X>, e: Event)
    requires IsHistory(c, h + [e]) && |s.results| == |c.outcomes| && Inv(c, h, s)
    requires e.Done? ==> e.child < |c.outcomes|
    ensures Inv(c, h + [e], Step(c, s, e))
  {
    OneMore(c, h, e);
  }

  /** One event settles the outer future exactly if it decides, and as it decides. */
  lemma StepSettles<V, X>(c: Call<V, X>, h: seq<Event>, s: State<V, X>, e: Event)
    requires IsHistory(c, h + [e]) && |s.results| == |c.outcomes| && Inv(c, h, s) && s.outer.None?
    requires e.Done? ==> e.child < |c.outcomes|
    ensures Step(c, s, e).outer == if Decides(c, h + [e], |h|) then Some(Decision(c, e)) else None
  {
    assert (h + [e])[..|h| + 1] == h + [e];
    if e.Done? && !Fails(c, e.child) {
      OneMore(c, h, e);
      AllReported(c, h + [e]);
      var results := s.results[e.child := Some(AsCell(c.outcomes[e.child]))];
      if Decides(c, h + [e], |h|) {
        assert results == InArgumentOrder(c);
      }
    }
  }

  lemma {:induction false} AfterInv<V, X>(c: Call<V, X>, h: seq<Event>)
    requires IsHistory(c, h)
    ensures Inv(c, h, After(c, h))
  {
    if h == [] {
      StartInv(c);
    } else {
      var n := |h| - 1;
      AfterInv(c, h[..n]);
      assert h == h[..n] + [h[n]];
      StepInv(c, h[..n], After(c, h[..n]), h[n]);
    }
  }

  lemma {:induction false} Undecided<V, X>(c: Call<V, X>, h: seq<Event>)
    requires IsHistory(c, h) && c.outcomes != []
    requires forall k :: 0 <= k < |h| ==> !Decides(c, h, k)
    ensures After(c, h).outer == None
  {
    if h != [] {
      var n := |h| - 1;
      assert h == h[..n] + [h[n]];
      forall k | 0 <= k < n ensures !Decides(c, h[..n], k) {
        assert !Decides(c, h, k);
        assert h[..n][..k + 1] == h[..k + 1];
      }
      Undecided(c, h[..n]);
      AfterInv(c, h[..n]);
      StepSettles(c, h[..n], After(c, h[..n]), h[n]);
    }
  }

  lemma {:induction false} DecidedBy<V, X>(c: Call<V, X>, h: seq<Event>, p: nat)
    requires IsHistory(c, h) && c.outcomes != [] && p < |h|
    requires Decides(c, h, p) && forall k :: 0 <= k < p ==> !Decides(c, h, k)
    ensures After(c, h).outer == Some(Decision(c, h[p]))
  {
    var n := |h| - 1;
    assert h == h[..n] + [h[n]];
    forall k | 0 <= k < n ensures Decides(c, h[..n], k) == Decides(c, h, k) {
      assert h[..n][..k + 1] == h[..k + 1];
    }
    if p < n {
      DecidedBy(c, h[..n], p);
    } else {
      Undecided(c, h[..n]);
      AfterInv(c, h[..n]);
      StepSettles(c, h[..n], After(c, h[..n]), h[n]);
    }
  }

  lemma {:induction false} NoChildren<V, X>(c: Call<V, X>, h: seq<Event>)
    requires IsHistory(c, h) && c.outcomes == []
    ensures After(c, h).outer == Some(Results([]))
  {
    if h != [] { NoChildren(c, h[..|h| - 1]); }
  }

  /** For every order of the callbacks, with the outer future cancelled at any point or
      never: before any event decides the outer future is pending; from the first deciding
      event on it holds that event's verdict; and it is settled at most once. */
  lemma SettledByFirstDecision<V, X>(c: Call<V, X>, h: seq<Event>)
    requires IsHistory(c, h)
    ensures After(c, h).settlements == if After(c, h).outer.Some? then 1 else 0
    ensures c.outcomes == [] ==> After(c, h).outer == Some(Results([]))
    ensures c.outcomes != [] && (forall k :: 0 <= k < |h| ==> !Decides(c, h, k)) ==> After(c, h).outer == None
    ensures forall p :: c.outcomes != [] && 0 <= p < |h| && Decides(c, h, p) && (forall k :: 0 <= k < p ==> !Decides(c, h, k))
              ==> After(c, h).outer == Some(Decision(c, h[p]))
  {
    AfterInv(c, h);
    if c.outcomes == [] { NoChildren(c, h); }
    if c.outcomes != [] && (forall k :: 0 <= k < |h| ==> !Decides(c, h, k)) { Undecided(c, h); }
    forall p | c.outcomes != [] && 0 <= p < |h| && Decides(c, h, p) && (forall k :: 0 <= k < p ==> !Decides(c, h, k))
      ensures After(c, h).outer == Some(Decision(c, h[p]))
    {
      DecidedBy(c, h, p);
    }
  }

  /** Once every child has reported, with none failing and no cancellation, the outer future
      holds all outcomes in argument order, whatever the order they came in. */
  lemma OrderDoesNotMatter<V, X>(c: Call<V, X>, h: seq<Event>)
    requires IsHistory(c, h) && forall i :: 0 <= i < |c.outcomes| ==> Done(i) in h && !Fails(c, i)
    requires Cancel !in h
    ensures After(c, h).outer == Some(Results(InArgumentOrder(c)))
  {
    if c.outcomes == [] {
      NoChildren(c, h);
      assert InArgumentOrder(c) == [];
    } else {
      assert Done(0) in h;
      var n := |h| - 1;
      assert h[..n + 1] == h;
      assert Decides(c, h, n);
      var p := FirstDeciding(c, h, n);
      DecidedBy(c, h, p);
      assert h[p] in h;
    }
  }

  lemma {:induction false} FirstDeciding<V, X>(c: Call<V, X>, h: seq<Event>, k: nat) returns (p: nat)
    requires IsHistory(c, h) && k < |h| && Decides(c, h, k)
    ensures p <= k && Decides(c, h, p) && forall m :: 0 <= m < p ==> !Decides(c, h, m)
  {
    if m :| 0 <= m < k && Decides(c, h, m) {
      p := FirstDeciding(c, h, m);
    } else {
      p := k;
    }
  }

  /** What one child's outcome puts where it goes, case by case. */
  ghost predicate Shown<V, X>(o: Outcome<V, X>, cell: Cell<V, X>) {
    && (o.Returned? ==> cell == Value(o.value))
    && (o.Raised? ==> cell == Error(o.error))
    && (o.Cancelled? ==> cell == CancelledError)
  }

  /** Without `return_exceptions`, the first callback of a child that raised or was cancelled
      settles the outer future with that exception, whoever reports afterwards. */
  lemma FirstFailureWins<V, X>(c: Call<V, X>, h: seq<Event>, p: nat)
    requires IsHistory(c, h) && p < |h| && !c.keepErrors && (forall k :: 0 <= k <= p ==> h[k].Done?)
    requires !c.outcomes[h[p].child].Returned? && forall k :: 0 <= k < p ==> c.outcomes[h[k].child].Returned?
    ensures After(c, h).outer.Some? && After(c, h).outer.value.Failure?
    ensures Shown(c.outcomes[h[p].child], After(c, h).outer.value.cell)
  {
    forall k | 0 <= k < p ensures !Decides(c, h, k) {
      var early := h[..k + 1];
      assert forall m :: 0 <= m < |early| ==> early[m] != h[p];
    }
    DecidedBy(c, h, p);
  }

  /** With every child reported, and with `return_exceptions` or every child returned, the
      outer future holds one entry a child: its value, its exception, or its cancellation. */
  lemma EveryOutcomeInItsPlace<V, X>(c: Call<V, X>, h: seq<Event>)
    requires IsHistory(c, h) && Cancel !in h && forall i :: 0 <= i < |c.outcomes| ==> Done(i) in h
    requires c.keepErrors || forall i :: 0 <= i < |c.outcomes| ==> c.outcomes[i].Returned?
    ensures After(c, h).outer.Some? && After(c, h).outer.value.Results?
    ensures var cells := After(c, h).outer.value.cells;
            |cells| == |c.outcomes| && forall i :: 0 <= i < |cells| ==> cells[i].Some? && Shown(c.outcomes[i], cells[i].value)
  {
    OrderDoesNotMatter(c, h);
  }

  // ----- the call as an object -----

  /** The variables `_child_done` closes over. */
  class Gather<V(0), X(0)> {
    const call: Call<V, X>
    var results: seq<Option<Cell<V, X>>>
    var remaining: int
    var settled: bool
    var outer: Option<Settlement<V, X>>
    var settlements: nat

    function View(): State<V, X>
      reads this
    {
      State(results, remaining, settled, outer, settlements)
    }

    constructor (c: Call<V, X>)
      ensures call == c && View() == Start(c)
    {
      call := c;
      results := seq(|c.outcomes|, _ => None);
      remaining, settled := |c.outcomes|, false;
      outer := if c.outcomes == [] then Some(Results([])) else None;
      settlements := if c.outcomes == [] then 1 else 0;
    }

    method SettleOuter(verdict: Settlement<V, X>)
      modifies this`outer, this`settlements
      ensures View() == Settle(old(View()), verdict)
    {
      if outer.None? {
        outer := Some(verdict);
        settlements := settlements + 1;
      }
    }

    method ChildDone(index: nat)
      requires index < |call.outcomes| == |results|
      modifies this
      ensures View() == Step(call, old(View()), Done(index))
    {
      if settled { return; }
      var child := call.outcomes[index];
      if !child.Returned? && !call.keepErrors {
        settled := true;
        SettleOuter(Failure(AsCell(child)));
        return;
      }
      results := results[index := Some(AsCell(child))];
      remaining := remaining - 1;
      if remaining == 0 {
        settled := true;
        SettleOuter(Results(results));
      }
    }

    /** The callbacks run one after another, in any order. */
    method RunAll(h: seq<Event>)
      requires View() == Start(call) && IsHistory(call, h)
      modifies this
      ensures View() == After(call, h)
    {
      for k := 0 to |h|
        invariant IsHistory(call, h[..k]) && View() == After(call, h[..k])
      {
        assert IsHistory(call, h[..k + 1]) && h[..k + 1][..k] == h[..k];
        if h[k].Cancel? { SettleOuter(OuterCancelled); } else { ChildDone(h[k].child); }
      }
      assert h[..|h|] == h;
    }
  }
}
