/** The readiness word of `src/io/schedule.rs`, twice: as a record of what it means,
    and packed into machine bits as the source keeps it. Every operation on the packed
    word is proved to be the packing of the operation on the record. */
module Readiness {

  // ----- what the word means -----

  datatype Direction = Reader | Writer

  datatype Bits = Bits(readable: bool, writable: bool, readClosed: bool, writeClosed: bool, error: bool)

  /** The cached readiness, whether the registration is gone, and the number of edges
      published so far. */
  datatype Status = Status(bits: Bits, shutdown: bool, edges: nat)

  const NOTHING := Bits(false, false, false, false, false)
  const FRESH := Status(NOTHING, false, 0)

  function Opposite(d: Direction): Direction { if d.Reader? then Writer else Reader }

  /** The bits of a direction: ready, closed or in error. */
  predicate Shows(b: Bits, d: Direction) {
    if d.Reader? then b.readable || b.readClosed || b.error else b.writable || b.writeClosed || b.error
  }

  function Join(a: Bits, b: Bits): Bits {
    Bits(a.readable || b.readable, a.writable || b.writable, a.readClosed || b.readClosed,
         a.writeClosed || b.writeClosed, a.error || b.error)
  }

  function Without(b: Bits, d: Direction): Bits {
    if d.Reader? then b.(readable := false, readClosed := false, error := false)
    else b.(writable := false, writeClosed := false, error := false)
  }

  predicate Subset(a: Bits, b: Bits) {
    && (a.readable ==> b.readable) && (a.writable ==> b.writable) && (a.readClosed ==> b.readClosed)
    && (a.writeClosed ==> b.writeClosed) && (a.error ==> b.error)
  }

  /** What `arm` tests. */
  predicate Armable(s: Status, d: Direction) { !Shows(s.bits, d) && !s.shutdown }

  /** `set_readiness`: one more edge. */
  function Publish(s: Status, ready: Bits): Status {
    s.(bits := Join(s.bits, ready), edges := s.edges + 1)
  }

  /** `clear` with a tick read after `seen` edges: it cannot tell edge counts apart that
      differ by a multiple of 256. */
  function Clear(s: Status, d: Direction, seen: nat): Status {
    if s.edges % 256 == seen % 256 then s.(bits := Without(s.bits, d)) else s
  }

  function Consume(s: Status, d: Direction): Status { s.(bits := Without(s.bits, d)) }

  function Shut(s: Status): Status { s.(shutdown := true) }

  // ----- how the source packs it -----

  type Word = bv16

  const SHUTDOWN: Word := 0x20
  const TICK_MASK: Word := 0x3fc0

  function TickOf(w: Word): Word { (w & TICK_MASK) >> 6 }

  function SetReadiness(w: Word, ready: Word): Word {
    (((TickOf(w) + 1) & 0xff) << 6) | (w & !TICK_MASK) | ready
  }

  function ClearWord(w: Word, ready: Word, tick: Word): Word {
    if TickOf(w) != tick then w else w & !ready
  }

  /** The tick after `edges` edges from zero: eight bits, wrapping. */
  function Tick(edges: nat): Word {
    if edges == 0 then 0 else (Tick(edges - 1) + 1) & 0xff
  }

  /** READABLE, WRITABLE, READ_CLOSED, WRITE_CLOSED and ERROR, from the lowest bit up. */
  function PackBits(b: Bits): Word {
    (if b.readable then 0x01 else 0) | (if b.writable then 0x02 else 0) | (if b.readClosed then 0x04 else 0)
    | (if b.writeClosed then 0x08 else 0) | (if b.error then 0x10 else 0)
  }

  /** READ_ALL and WRITE_ALL. */
  function Mask(d: Direction): Word { if d.Reader? then 0x15 else 0x1a }

  function Pack(s: Status): Word {
    PackBits(s.bits) | (if s.shutdown then 0x20 else 0) | (Tick(s.edges) << 6)
  }

  lemma {:induction false} TickSmall(n: nat)
    ensures Tick(n) & !0xff == 0
  {
  }

  lemma {:induction false} TickPlus(a: nat, b: nat)
    ensures Tick(a + b) == (Tick(a) + Tick(b)) & 0xff
  {
    TickSmall(a);
    if b > 0 {
      TickPlus(a, b - 1);
      assert a + b - 1 == a + (b - 1);
    }
  }

  /** 256 edges are a lap. */
  lemma Lap()
    ensures Tick(256) == 0
  {
    TickPlus(1, 1);
    TickPlus(2, 2);
    TickPlus(4, 4);
    TickPlus(8, 8);
    TickPlus(16, 16);
    TickPlus(32, 32);
    TickPlus(64, 64);
    TickPlus(128, 128);
  }

  lemma SmallMasked(t: Word)
    requires t & !0xff == 0
    ensures (t + 0) & 0xff == t
  {
  }

  lemma LapAdds(n: nat)
    ensures Tick(n + 256) == Tick(n)
  {
    TickPlus(n, 256);
    TickSmall(n);
    Lap();
    SmallMasked(Tick(n));
  }

  lemma {:induction false} TickModulo(n: nat)
    ensures Tick(n) == Tick(n % 256)
  {
    if n >= 256 {
      TickModulo(n - 256);
      LapAdds(n - 256);
    }
  }

  lemma Increment(t: Word)
    requires t < 0xff
    ensures ((t + 1) & 0xff) as int == t as int + 1
  {
    assert (t + 1) & 0xff == t + 1;
  }

  /** Within a lap the tick is the count. */
  lemma {:induction false} TickValue(n: nat)
    requires n < 256
    ensures Tick(n) as int == n
  {
    if n > 0 {
      TickValue(n - 1);
      Increment(Tick(n - 1));
    }
  }

  lemma TickInjective(m: nat, n: nat)
    ensures Tick(m) == Tick(n) <==> m % 256 == n % 256
  {
    TickModulo(m);
    TickModulo(n);
    TickValue(m % 256);
    TickValue(n % 256);
  }

  // ----- the packing is faithful -----

  lemma MaskPacks(d: Direction)
    ensures Mask(d) == PackBits(Without(Bits(true, true, true, true, true), Opposite(d)).(error := true))
  {
  }

  lemma TickOfPack(s: Status)
    ensures TickOf(Pack(s)) == Tick(s.edges)
  {
    TickSmall(s.edges);
  }

  lemma PublishPacks(s: Status, ready: Bits)
    ensures SetReadiness(Pack(s), PackBits(ready)) == Pack(Publish(s, ready))
  {
    TickOfPack(s);
    JoinPacks(s.bits, ready);
    var low: Word := PackBits(s.bits) | (if s.shutdown then 0x20 else 0);
    assert low & TICK_MASK == 0;
    TickSmall(s.edges);
    Splice(low, Tick(s.edges));
  }

  lemma JoinPacks(a: Bits, b: Bits)
    ensures PackBits(a) | PackBits(b) == PackBits(Join(a, b))
  {
  }

  lemma Splice(low: Word, tick: Word)
    requires low & TICK_MASK == 0 && tick & !0xff == 0
    ensures (low | (tick << 6)) & !TICK_MASK == low
  {
  }

  /** The drain of each direction, whatever stands above it. */
  lemma DropReader(b: Bits, shut: Word, tick: Word)
    requires (shut == 0 || shut == 0x20) && tick & !0xff == 0
    ensures (PackBits(b) | shut | (tick << 6)) & !0x15 == PackBits(Without(b, Reader)) | shut | (tick << 6)
  {
  }

  lemma DropWriter(b: Bits, shut: Word, tick: Word)
    requires (shut == 0 || shut == 0x20) && tick & !0xff == 0
    ensures (PackBits(b) | shut | (tick << 6)) & !0x1a == PackBits(Without(b, Writer)) | shut | (tick << 6)
  {
  }

  lemma DropPacks(s: Status, d: Direction)
    ensures Pack(s) & !Mask(d) == Pack(Consume(s, d))
  {
    TickSmall(s.edges);
    var shut: Word := if s.shutdown then 0x20 else 0;
    if d.Reader? { DropReader(s.bits, shut, Tick(s.edges)); } else { DropWriter(s.bits, shut, Tick(s.edges)); }
  }

  lemma ShowsPacks(s: Status, d: Direction)
    ensures Pack(s) & Mask(d) != 0 <==> Shows(s.bits, d)
  {
    TickSmall(s.edges);
    if d.Reader? {
      assert Mask(d) == 0x15;
    } else {
      assert Mask(d) == 0x1a;
    }
  }

  lemma ClearPacks(s: Status, d: Direction, seen: nat)
    ensures ClearWord(Pack(s), Mask(d), Tick(seen)) == Pack(Clear(s, d, seen))
  {
    TickOfPack(s);
    TickInjective(s.edges, seen);
    DropPacks(s, d);
  }

  lemma ShutPacks(s: Status)
    ensures Pack(s) | SHUTDOWN == Pack(Shut(s))
  {
  }

  lemma ArmTestPacks(s: Status, d: Direction)
    ensures Pack(s) & (Mask(d) | SHUTDOWN) == 0 <==> Armable(s, d)
  {
    TickSmall(s.edges);
    if d.Reader? {
      assert Mask(d) | SHUTDOWN == 0x35;
    } else {
      assert Mask(d) | SHUTDOWN == 0x3a;
    }
  }

  // ----- every history of the word -----

  datatype Op = Edge(ready: Bits) | Drop(d: Direction, seen: nat) | Take(d: Direction) | Close

  function WordStep(w: Word, op: Op): Word {
    match op
    case Edge(ready) => SetReadiness(w, PackBits(ready))
    case Drop(d, seen) => ClearWord(w, Mask(d), Tick(seen))
    case Take(d) => w & !Mask(d)
    case Close => w | SHUTDOWN
  }

  function MeantStep(s: Status, op: Op): Status {
    match op
    case Edge(ready) => Publish(s, ready)
    case Drop(d, seen) => Clear(s, d, seen)
    case Take(d) => Consume(s, d)
    case Close => Shut(s)
  }

  lemma StepPacks(s: Status, op: Op)
    ensures WordStep(Pack(s), op) == Pack(MeantStep(s, op))
    ensures MeantStep(s, op).edges == s.edges + if op.Edge? then 1 else 0
  {
    match op {
      case Edge(ready) => PublishPacks(s, ready);
      case Drop(d, seen) => ClearPacks(s, d, seen);
      case Take(d) => DropPacks(s, d);
      case Close => ShutPacks(s);
    }
  }

  /** The word as the source computes it, from a new registration. */
  function WordAfter(ops: seq<Op>): Word {
    if ops == [] then Pack(FRESH) else WordStep(WordAfter(ops[..|ops| - 1]), ops[|ops| - 1])
  }

  function Meant(ops: seq<Op>): Status {
    if ops == [] then FRESH else MeantStep(Meant(ops[..|ops| - 1]), ops[|ops| - 1])
  }

  function Edges(ops: seq<Op>): nat {
    if ops == [] then 0 else Edges(ops[..|ops| - 1]) + if ops[|ops| - 1].Edge? then 1 else 0
  }

  lemma {:induction false} HistoryPacks(ops: seq<Op>)
    ensures WordAfter(ops) == Pack(Meant(ops)) && Meant(ops).edges == Edges(ops)
  {
    if ops != [] {
      HistoryPacks(ops[..|ops| - 1]);
      StepPacks(Meant(ops[..|ops| - 1]), ops[|ops| - 1]);
    }
  }

  lemma {:induction false} EdgesAdd(a: seq<Op>, b: seq<Op>)
    ensures Edges(a + b) == Edges(a) + Edges(b)
  {
    if b == [] {
      assert a + b == a;
    } else {
      assert (a + b)[..|a + b| - 1] == a + b[..|b| - 1];
      EdgesAdd(a, b[..|b| - 1]);
    }
  }

  lemma FreshIsZero()
    ensures Pack(FRESH) == 0
  {
  }

  lemma SameLap(n: nat, more: nat)
    ensures (n + more) % 256 == n % 256 <==> more % 256 == 0
  {
  }

  lemma TickAfter(ops: seq<Op>)
    ensures TickOf(WordAfter(ops)) == Tick(Edges(ops))
  {
    HistoryPacks(ops);
    TickOfPack(Meant(ops));
  }

  lemma TicksAgree(before: seq<Op>, since: seq<Op>)
    ensures TickOf(WordAfter(before + since)) == TickOf(WordAfter(before)) <==> Edges(since) % 256 == 0
  {
    TickAfter(before);
    TickAfter(before + since);
    EdgesAdd(before, since);
    TickInjective(Edges(before) + Edges(since), Edges(before));
    SameLap(Edges(before), Edges(since));
  }

  /** The guard is exact. A word has been through `before` when its tick is read and
      through `since` as well when the clear comes: the clear drops the direction's bits
      if the number of edges published since is a multiple of 256, and otherwise leaves
      the word alone. With fewer than 256 edges in between, no newer edge is erased. */
  lemma TickGuardExact(before: seq<Op>, since: seq<Op>, d: Direction)
    ensures var now := WordAfter(before + since);
            ClearWord(now, Mask(d), TickOf(WordAfter(before))) ==
            if Edges(since) % 256 == 0 then now & !Mask(d) else now
  {
    TicksAgree(before, since);
  }

  /** The bits only direction `d` looks at. */
  function Own(b: Bits, d: Direction): (bool, bool) {
    if d.Reader? then (b.readable, b.readClosed) else (b.writable, b.writeClosed)
  }

  /** Nothing but direction `d`'s readiness was dropped on the way from `s` to `t`. */
  predicate DropsOnly(s: Status, t: Status, d: Direction) {
    && t.shutdown == s.shutdown && t.edges == s.edges
    && Subset(t.bits, s.bits)
    && Own(t.bits, Opposite(d)) == Own(s.bits, Opposite(d))
  }

  /** SHUTDOWN and the tick survive every clear and consume, in the record and in the
      packed word, and the other direction loses at most the ERROR bit the two share. */
  lemma DropsKeep(s: Status, d: Direction, seen: nat)
    ensures DropsOnly(s, Clear(s, d, seen), d) && DropsOnly(s, Consume(s, d), d)
    ensures TickOf(Pack(s) & !Mask(d)) == TickOf(Pack(s))
    ensures (Pack(s) & !Mask(d)) & SHUTDOWN == Pack(s) & SHUTDOWN
  {
    DropPacks(s, d);
    TickOfPack(s);
    TickOfPack(Consume(s, d));
    TickSmall(s.edges);
  }
}
