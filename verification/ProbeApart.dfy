// The frames of a probed datagram after the probe: each goes its own way, and
// no later number ever carries two of them.
module ProbeApart {
  import opened AckSet
  import opened Acks
  import opened Bytes
  import opened Deadlines
  import opened Errors
  import opened Frames
  import opened Ledger
  import opened Packing
  import opened ProbeRuns
  import opened ProbeSamples
  import opened Renumber
  import opened Sender
  import opened Serial
  import opened TailProbe

  // ---------------------------------------------------------------------
  // Every reliable frame is held at most once.

  ghost predicate Single(held: multiset<Packet>, bound: nat) {
    forall p <- held | p.frame.IsReliable() :: held[p] == 1 && p.serial < bound
  }

  ghost predicate Settled(s: SendState) {
    && Single(Held(s), s.counters.reliable)
    && forall p <- Packets(s.flight.items) :: p.frame.IsReliable()
  }

  lemma SettledShrinks(s: SendState, t: SendState)
    requires Settled(s) && Held(t) <= Held(s) && t.counters.reliable == s.counters.reliable
    requires forall p <- Packets(t.flight.items) :: p.frame.IsReliable()
    ensures Settled(t)
  {
    hide Held, Packets;
    forall p | p in Held(t) && p.frame.IsReliable() ensures Held(t)[p] == 1 && p.serial < t.counters.reliable {
      assert p in Held(s);
    }
  }

  /** Fewer items over the same queue. */
  lemma FewerSettled(s: SendState, t: SendState)
    requires Settled(s) && t.queue.packets == s.queue.packets && t.counters == s.counters
    requires Packets(t.flight.items) <= Packets(s.flight.items)
    ensures Settled(t)
  {
    hide Packets;
    SettledShrinks(s, t);
  }

  lemma AckSettled(q: Probing, ranges: seq<Range>, tick: int)
    requires Settled(q.send)
    ensures Settled(AckProbing(q, ranges, tick).send)
  {
    hide Settled, Packets, AckDirectProbing, CompactProbing, Retired;
    RetiredLeave(q, ranges, tick);
    AckKeepsQueue(q, ranges, tick);
    FewerSettled(q.send, AckProbing(q, ranges, tick).send);
  }

  lemma AckKeepsQueue(q: Probing, ranges: seq<Range>, tick: int)
    ensures var r := AckProbing(q, ranges, tick).send; r.queue == q.send.queue && r.counters == q.send.counters
  {
    hide SweepProbing, MoveMark, Find, NameFor, Retire, LatencySample, Rtt, ActiveProbe, Newer;
  }

  lemma NackSettled(q: Probing, ranges: seq<Range>, tick: int)
    requires Settled(q.send)
    ensures Settled(q.send.(flight := NackRanges(q.send.flight, ranges, tick)))
  {
    hide Settled, Packets, NackRanges;
    var f := q.send.flight;
    NackRangesExact(f, ranges, tick);
    SamePacketsWeigh(f.items, NackRanges(f, ranges, tick).items);
    FewerSettled(q.send, q.send.(flight := NackRanges(f, ranges, tick)));
  }

  lemma MoreSettled(held: multiset<Packet>, more: seq<Packet>, bound: nat, next: nat)
    requires Single(held, bound) && bound <= next
    requires forall i | 0 <= i < |more| && more[i].frame.IsReliable() :: bound <= more[i].serial < next
    requires forall i, j | 0 <= i < j < |more| && more[i].frame.IsReliable() :: more[i].serial != more[j].serial
    ensures Single(held + multiset(more), next)
  {
    forall p | p in held + multiset(more) && p.frame.IsReliable()
      ensures (held + multiset(more))[p] == 1 && p.serial < next
    {
      if p in multiset(more) {
        var i :| 0 <= i < |more| && more[i] == p;
        assert p !in held;
        OnceOnly(more, i);
      }
    }
  }

  lemma OnceOnly(more: seq<Packet>, i: nat)
    requires i < |more|
    requires forall j | 0 <= j < |more| && j != i :: more[j] != more[i]
    ensures multiset(more)[more[i]] == 1
  {
    assert more == more[..i] + [more[i]] + more[i + 1..];
    assert more[i] !in more[..i] && more[i] !in more[i + 1..];
  }

  lemma EnqueueSettled(s: SendState, mode: Reliability, data: seq<byte>, channel: byte)
    requires Settled(s)
    ensures Settled(Enqueue(s, mode, data, channel).0)
  {
    hide Packets, DivCeil, Wrap, Chunk, Single;
    var (t, r) := Enqueue(s, mode, data, channel);
    if r.Ok? {
      var more := Added(s, mode, data, channel);
      HeldGrows(s, more);
      MoreSettled(Held(s), more, s.counters.reliable, t.counters.reliable);
    }
  }

  /** The frames a message becomes. */
  ghost function Added(s: SendState, mode: Reliability, data: seq<byte>, channel: byte): (more: seq<Packet>)
    requires Enqueue(s, mode, data, channel).1.Ok?
    ensures var t := Enqueue(s, mode, data, channel).0;
      && t.queue.packets == s.queue.packets + more && t.flight == s.flight
      && s.counters.reliable <= t.counters.reliable
      && (forall i | 0 <= i < |more| && more[i].frame.IsReliable() ::
            s.counters.reliable <= more[i].serial < t.counters.reliable)
      && (forall i, j | 0 <= i < j < |more| && more[i].frame.IsReliable() :: more[i].serial != more[j].serial)
  {
    if Splits(s.mtu, mode, |data|) then Pieces(s.counters, data, s.mtu - 60, channel)
    else
      WholeIsNoFragment(s.counters, mode, data, channel);
      [Whole(s.counters, mode, data, channel)]
  }

  // ---------------------------------------------------------------------
  // Flushing holds no more than before.

  ghost function PumpHolds(p: Pump): multiset<Packet> {
    multiset(p.queue.packets) + Packets(p.flight.items)
  }

  lemma StepHolds(p: Pump, mtu: u16, tick: int)
    requires p.queue.packets != [] && (p.group.Some? ==> p.group.value < p.flight.sequence)
    requires forall x <- Packets(p.flight.items) :: x.frame.IsReliable()
    ensures var q := PumpStep(p, mtu, tick);
      && PumpHolds(q) <= PumpHolds(p) && (q.group.Some? ==> q.group.value < q.flight.sequence)
      && forall x <- Packets(q.flight.items) :: x.frame.IsReliable()
  {
    hide PumpStep, Packets, Packable;
    var id := StepShape(p, mtu, tick);
    var first, rest := p.queue.packets[0], p.queue.packets[1..];
    assert p.queue.packets == [first] + rest;
    PacketsSnoc(p.flight.items, Item(first, id, true, tick, 0, []));
  }

  lemma {:induction false} PumpHoldsNoMore(p: Pump, mtu: u16, tick: int, n: nat)
    requires p.group.Some? ==> p.group.value < p.flight.sequence
    requires forall x <- Packets(p.flight.items) :: x.frame.IsReliable()
    ensures var q := PumpAll(p, mtu, tick, n);
      PumpHolds(q) <= PumpHolds(p) && forall x <- Packets(q.flight.items) :: x.frame.IsReliable()
    decreases n
  {
    hide PumpStep, Packets, PumpHolds;
    if n > 0 && !PumpStops(p) {
      StepHolds(p, mtu, tick);
      PumpHoldsNoMore(PumpStep(p, mtu, tick), mtu, tick, n - 1);
    }
  }

  lemma TickHolds(q: Probing, tick: int)
    ensures var r := TickProbe(Refreshed(q, tick), tick);
      && SamePackets(Items(q), Items(r)) && r.send.queue == q.send.queue && r.send.counters == q.send.counters
  {
    hide Scan, Probes, ActiveProbe, RetryTimeout;
    var q1 := ProbeTail(Refreshed(q, tick), tick);
    var f := q1.send.flight.(nextRetry := NEVER);
    ScanExact(f, tick, ActiveProbe(q1), 0);
  }

  /** The flight of a flush before new frames join it. */
  ghost function Resent(q1: Probing, tick: int, order: seq<nat>): (Flight, seq<Outgoing>)
    requires IsPermutation(order, |Items(q1)|)
  {
    ResendProbing(Arrange(q1.send.flight, order), tick, Replay(q1))
  }

  lemma ResentExact(q1: Probing, tick: int, order: seq<nat>)
    requires Sorts(Items(q1), order)
    ensures var f, (g, out) := Arrange(q1.send.flight, order), Resent(q1, tick, order);
      && |g.items| == |f.items| == |Items(q1)| && g.sequence == q1.send.flight.sequence
      && (forall k | 0 <= k < |f.items| ::
            g.items[k].packet == f.items[k].packet && g.items[k].id == f.items[k].id
              && g.items[k].past == f.items[k].past)
      && (out == [] || out == Waiting(f.items, 0))
      && Packets(g.items) == Packets(Items(q1))
  {
    hide ResendAll, Sorted, Packets;
    var f := Arrange(q1.send.flight, order);
    ResendAllExact(f, [], tick, Replay(q1), 0);
    PermutedPackets(f.items, Items(q1));
    SamePacketsWeigh(f.items, Resent(q1, tick, order).0.items);
  }

  ghost function Pumped(q1: Probing, tick: int, order: seq<nat>): Pump
    requires IsPermutation(order, |Items(q1)|)
  {
    var (f, out) := Resent(q1, tick, order);
    StartPump(q1.send, f, out).(coalesced := TailProbe.Packed(q1))
  }

  lemma FlushParts(q: Probing, tick: int, order: seq<nat>)
    requires IsPermutation(order, |Items(q)|)
    ensures var q1 := TickProbe(Refreshed(q, tick), tick);
      var end, r := PumpAll(Pumped(q1, tick, order), q1.send.mtu, tick, |q1.send.queue.packets|),
        FlushProbing(q, tick, order);
      && r.queue.send.queue == end.queue && r.queue.send.flight == end.flight && r.out == end.out
      && r.queue.send.counters == q1.send.counters
  {
    hide TickProbe, PumpAll, ResendProbing, Arrange, Refreshed;
  }

  lemma FlushSettled(q: Probing, tick: nat, order: seq<nat>)
    requires Settled(q.send) && ProbeRuns.Flushable(q, tick, order)
    ensures Settled(FlushProbing(q, tick, order).queue.send)
  {
    hide TickProbe, Refreshed, Packets, PumpAll, ResendProbing, FlushProbing, Sorts, Single, SamePackets;
    var q1 := TickProbe(Refreshed(q, tick), tick);
    TickHolds(q, tick);
    SamePacketsWeigh(Items(q), Items(q1));
    ResentExact(q1, tick, order);
    FlushParts(q, tick, order);
    var start := Pumped(q1, tick, order);
    PumpHoldsNoMore(start, q1.send.mtu, tick, |q1.send.queue.packets|);
    assert PumpHolds(start) == Held(q.send);
    SettledShrinks(q.send, FlushProbing(q, tick, order).queue.send);
  }

  lemma {:induction false} RunSettled(r: Run, mtu: u16, n: nat)
    requires IsRun(r, mtu) && n < |r.states|
    ensures Settled(r.states[n].send)
    decreases n
  {
    if n == 0 {
      assert Held(NewSender(mtu)) == multiset{};
    } else {
      hide Settled, AckProbing, NackRanges, Enqueue, FlushProbing, SetOptions, ProbeRuns.Flushable;
      RunSettled(r, mtu, n - 1);
      var q, op := r.states[n - 1], r.ops[n - 1];
      assert StepsTo(q, op, r.states[n], r.outs[n - 1]);
      match op
      case Add(mode, data, channel) => EnqueueSettled(q.send, mode, data, channel);
      case StartBatch => FlagsSettled(q.send);
      case Acked(ranges, at) => AckSettled(q, ranges, at);
      case Nacked(ranges, at) => NackSettled(q, ranges, at);
      case Replace(options, at) => OptionsKeepSend(q, options, at);
      case Flushing(at, order) => FlushSettled(q, at, order);
    }
  }

  lemma FlagsSettled(s: SendState)
    requires Settled(s)
    ensures Settled(EnableCoalescing(s))
  {
  }

  lemma OptionsKeepSend(q: Probing, options: RecoveryOptions, now: int)
    ensures SetOptions(q, options, now).send == q.send
  {
  }

  lemma {:induction false} HeldTwice(items: seq<Item>, i: nat, j: nat)
    requires i < j < |items| && items[i].packet == items[j].packet
    ensures Packets(items)[items[i].packet] >= 2
    decreases |items|
  {
    var n := |items| - 1;
    if j == n {
      HeldOnce(items[..n], i);
    } else {
      HeldTwice(items[..n], i, j);
    }
  }

  lemma {:induction false} HeldOnce(items: seq<Item>, i: nat)
    requires i < |items|
    ensures Packets(items)[items[i].packet] >= 1
    decreases |items|
  {
    if i < |items| - 1 {
      HeldOnce(items[..|items| - 1], i);
    }
  }

  /** Frames in flight are different frames. */
  lemma FlightDiffers(s: SendState, i: nat, j: nat)
    requires Settled(s) && i < j < |s.flight.items|
    ensures s.flight.items[i].packet != s.flight.items[j].packet
    ensures s.flight.items[i].packet.frame.IsReliable() && s.flight.items[i].packet.serial < s.counters.reliable
    ensures s.flight.items[j].packet.frame.IsReliable() && s.flight.items[j].packet.serial < s.counters.reliable
  {
    hide Packets;
    var p := s.flight.items[i].packet;
    HeldOnce(s.flight.items, i);
    HeldOnce(s.flight.items, j);
    assert p in Packets(s.flight.items) && p in Held(s);
    if p == s.flight.items[j].packet {
      HeldTwice(s.flight.items, i, j);
    }
  }

  // ---------------------------------------------------------------------
  // Two frames that go their own ways.

  /** One frame: sent under several numbers, never again under one of the other's. */
  ghost predicate Clear(items: seq<Item>, sequence: nat, p: Packet, others: set<nat>) {
    forall i | 0 <= i < |items| && items[i].packet == p ::
      items[i].past != [] && items[i].id < sequence && items[i].id !in others
  }

  /**
   Two frames that once shared the number `id`: `ones` and `twos` are the
   numbers above it they have left under, and what they are on now is not shared.
   */
  ghost predicate Split(items: seq<Item>, sequence: nat, a: Packet, b: Packet, id: nat, ones: set<nat>, twos: set<nat>)
  {
    && Clear(items, sequence, a, twos) && Clear(items, sequence, b, ones)
    && (forall i, k | 0 <= i < |items| && 0 <= k < |items| && items[i].packet == a && items[k].packet == b ::
          items[i].id > id && items[k].id > id ==> items[i].id != items[k].id)
    && (forall x <- ones :: x < sequence) && (forall x <- twos :: x < sequence) && ones !! twos
  }

  /** Neither frame will enter the flight again. */
  ghost predicate Out(s: SendState, p: Packet) {
    p.frame.IsReliable() && p.serial < s.counters.reliable && p !in s.queue.packets
  }

  /** Every item of `after` is one of `items`, up to its send time and retry count. */
  ghost predicate Among(items: seq<Item>, after: seq<Item>) {
    forall k | 0 <= k < |after| :: HasNames(items, after[k])
  }

  ghost predicate HasNames(items: seq<Item>, y: Item) {
    exists i | 0 <= i < |items| :: SameNames(items[i], y)
  }

  ghost predicate SameNames(x: Item, y: Item) {
    x.packet == y.packet && x.id == y.id && x.past == y.past
  }

  lemma SplitAmong(items: seq<Item>, after: seq<Item>, sequence: nat, a: Packet, b: Packet, id: nat, ones: set<nat>,
      twos: set<nat>)
    requires Split(items, sequence, a, b, id, ones, twos) && Among(items, after)
    ensures Split(after, sequence, a, b, id, ones, twos)
  {
    forall i, k | 0 <= i < |after| && 0 <= k < |after| && after[i].packet == a && after[k].packet == b
      ensures after[i].id > id && after[k].id > id ==> after[i].id != after[k].id
    {
      assert HasNames(items, after[i]) && HasNames(items, after[k]);
      var x :| 0 <= x < |items| && SameNames(items[x], after[i]);
      var y :| 0 <= y < |items| && SameNames(items[y], after[k]);
    }
  }

  lemma SplitRenumbered(f: Flight, g: Flight, a: Packet, b: Packet, id: nat, ones: set<nat>, twos: set<nat>)
    requires Split(f.items, f.sequence, a, b, id, ones, twos) && Renumbered(f, g) && a != b
    ensures Split(g.items, g.sequence, a, b, id, ones, twos)
  {
    hide Spent, Stirred, SameFlags;
    forall i | 0 <= i < |g.items|
      ensures g.items[i].packet == f.items[i].packet
      ensures g.items[i] == f.items[i] || (f.sequence <= g.items[i].id < g.sequence && g.items[i].past != [])
    {
    }
    forall i, k | 0 <= i < |g.items| && 0 <= k < |g.items| && g.items[i].packet == a && g.items[k].packet == b
      ensures g.items[i].id > id && g.items[k].id > id ==> g.items[i].id != g.items[k].id
    {
      assert i < k || k < i;
      if Changed(f, g, i) && Changed(f, g, k) {
        assert g.items[i].id != g.items[k].id;
      }
    }
  }

  // ---------------------------------------------------------------------
  // A flush keeps them apart.

  /** The numbers above `id` under which a frame leaves. */
  ghost function Numbers(out: seq<Outgoing>, p: Packet, id: nat): set<nat> {
    set o | o in out && o.packet == p && o.id > id :: o.id
  }

  lemma {:induction false} WaitingFrom(items: seq<Item>, i: nat, o: Outgoing)
    requires i <= |items| && o in Waiting(items, i)
    ensures Carried(items, o.packet, o.id)
    decreases |items| - i
  {
    if i < |items| && o in Waiting(items, i + 1) {
      WaitingFrom(items, i + 1, o);
    } else {
      assert items[i].packet == o.packet && items[i].id == o.id;
    }
  }

  lemma SplitSent(items: seq<Item>, sequence: nat, out: seq<Outgoing>, a: Packet, b: Packet, id: nat, ones: set<nat>,
      twos: set<nat>)
    requires Split(items, sequence, a, b, id, ones, twos)
    requires forall o <- out :: Carried(items, o.packet, o.id)
    ensures Split(items, sequence, a, b, id, ones + Numbers(out, a, id), twos + Numbers(out, b, id))
  {
    forall x | x in Numbers(out, a, id) ensures Carried(items, a, x) && x < sequence && x !in twos {
      assert Outgoing(a, x) in out;
    }
    forall x | x in Numbers(out, b, id) ensures Carried(items, b, x) && x < sequence && x !in ones {
      assert Outgoing(b, x) in out;
    }
    forall x | x in Numbers(out, a, id) ensures x !in Numbers(out, b, id) {
      assert Carried(items, a, x);
    }
    var ones', twos' := ones + Numbers(out, a, id), twos + Numbers(out, b, id);
    forall x | x in ones' ensures x < sequence && x !in twos' {
    }
    forall x | x in twos' ensures x < sequence {
    }
  }

  ghost predicate Carried(items: seq<Item>, p: Packet, x: nat) {
    exists k | 0 <= k < |items| :: items[k].packet == p && items[k].id == x
  }

  /** New frames join the flight behind them. */
  ghost predicate Pumping(p: Pump, a: Packet, b: Packet, id: nat, ones: set<nat>, twos: set<nat>) {
    && Split(p.flight.items, p.flight.sequence, a, b, id, ones, twos)
    && a !in p.queue.packets && b !in p.queue.packets
    && (p.group.Some? ==> p.group.value < p.flight.sequence)
  }

  lemma StepSplits(p: Pump, mtu: u16, tick: int, a: Packet, b: Packet, id: nat, ones: set<nat>, twos: set<nat>)
    requires Pumping(p, a, b, id, ones, twos) && p.queue.packets != []
    ensures var q := PumpStep(p, mtu, tick);
      && Pumping(q, a, b, id, ones, twos)
      && Numbers(q.out, a, id) == Numbers(p.out, a, id) && Numbers(q.out, b, id) == Numbers(p.out, b, id)
  {
    hide PumpStep, Packable;
    var x := StepShape(p, mtu, tick);
    assert p.queue.packets[0] in p.queue.packets;
  }

  lemma {:induction false} PumpSplits(p: Pump, mtu: u16, tick: int, n: nat, a: Packet, b: Packet, id: nat,
      ones: set<nat>, twos: set<nat>)
    requires Pumping(p, a, b, id, ones, twos)
    ensures var q := PumpAll(p, mtu, tick, n);
      && Pumping(q, a, b, id, ones, twos)
      && Numbers(q.out, a, id) == Numbers(p.out, a, id) && Numbers(q.out, b, id) == Numbers(p.out, b, id)
    decreases n
  {
    hide PumpStep, Pumping, Numbers;
    if n > 0 && !PumpStops(p) {
      StepSplits(p, mtu, tick, a, b, id, ones, twos);
      PumpSplits(PumpStep(p, mtu, tick), mtu, tick, n - 1, a, b, id, ones, twos);
    }
  }

  lemma ArrangeAmong(f: Flight, order: seq<nat>)
    requires IsPermutation(order, |f.items|)
    ensures Among(f.items, Arrange(f, order).items)
  {
    var g := Arrange(f, order);
    forall k | 0 <= k < |g.items| ensures HasNames(f.items, g.items[k]) {
      var i := if f.dirty then order[k] else k;
      assert SameNames(f.items[i], g.items[k]);
    }
  }

  lemma AmongItself(items: seq<Item>, after: seq<Item>)
    requires |after| == |items| && forall k | 0 <= k < |items| :: SameNames(items[k], after[k])
    ensures Among(items, after)
  {
    forall k | 0 <= k < |after| ensures HasNames(items, after[k]) {
      assert SameNames(items[k], after[k]);
    }
  }

  /** What a flush sends again, seen from the flight it leaves. */
  lemma ResentSplits(q1: Probing, tick: int, order: seq<nat>, a: Packet, b: Packet, id: nat, ones: set<nat>,
      twos: set<nat>)
    requires Sorts(Items(q1), order) && Split(Items(q1), q1.send.flight.sequence, a, b, id, ones, twos)
    ensures var (g, out) := Resent(q1, tick, order);
      Split(g.items, g.sequence, a, b, id, ones + Numbers(out, a, id), twos + Numbers(out, b, id))
  {
    hide Split, Resent, Sorted, Packets, Waiting, Numbers;
    var f := Arrange(q1.send.flight, order);
    var (g, out) := Resent(q1, tick, order);
    ResentExact(q1, tick, order);
    ArrangeAmong(q1.send.flight, order);
    SplitAmong(Items(q1), f.items, g.sequence, a, b, id, ones, twos);
    AmongItself(f.items, g.items);
    SplitAmong(f.items, g.items, g.sequence, a, b, id, ones, twos);
    forall o | o in out ensures Carried(g.items, o.packet, o.id) {
      WaitingFrom(f.items, 0, o);
      var k :| 0 <= k < |f.items| && f.items[k].packet == o.packet && f.items[k].id == o.id;
      assert g.items[k].packet == o.packet && g.items[k].id == o.id;
    }
    SplitSent(g.items, g.sequence, out, a, b, id, ones, twos);
  }

  /** The rest of a flush, once the flight has been timed. */
  lemma RestSplits(q: Probing, tick: nat, order: seq<nat>, a: Packet, b: Packet, id: nat, ones: set<nat>,
      twos: set<nat>)
    requires ProbeRuns.Flushable(q, tick, order) && Out(q.send, a) && Out(q.send, b)
    requires var q1 := TickProbe(Refreshed(q, tick), tick);
      Split(Items(q1), q1.send.flight.sequence, a, b, id, ones, twos)
    ensures var r := FlushProbing(q, tick, order);
      && Split(Items(r.queue), r.queue.send.flight.sequence, a, b, id, ones + Numbers(r.out, a, id),
        twos + Numbers(r.out, b, id))
      && Out(r.queue.send, a) && Out(r.queue.send, b)
  {
    hide TickProbe, Refreshed, PumpAll, ResendProbing, FlushProbing, Sorts, SamePackets, Split, Numbers;
    var q1 := TickProbe(Refreshed(q, tick), tick);
    TickHolds(q, tick);
    ResentSplits(q1, tick, order, a, b, id, ones, twos);
    var start := Pumped(q1, tick, order);
    var ones', twos' := ones + Numbers(start.out, a, id), twos + Numbers(start.out, b, id);
    PumpSplits(start, q1.send.mtu, tick, |q1.send.queue.packets|, a, b, id, ones', twos');
    FlushParts(q, tick, order);
  }

  lemma AbsentSplits(items: seq<Item>, sequence: nat, a: Packet, b: Packet, id: nat, ones: set<nat>, twos: set<nat>)
    requires forall i | 0 <= i < |items| :: items[i].packet != a && items[i].packet != b
    requires (forall x <- ones :: x < sequence) && (forall x <- twos :: x < sequence) && ones !! twos
    ensures Split(items, sequence, a, b, id, ones, twos)
  {
  }

  lemma TickSplits(q: Probing, tick: int, a: Packet, b: Packet, id: nat, ones: set<nat>, twos: set<nat>)
    requires Split(Items(q), q.send.flight.sequence, a, b, id, ones, twos) && a != b
    ensures var r := TickProbe(Refreshed(q, tick), tick); Split(Items(r), r.send.flight.sequence, a, b, id, ones, twos)
  {
    hide Scan, ProbeTail, ActiveProbe, Renumbered;
    var q0 := Refreshed(q, tick);
    var q1 := ProbeTail(q0, tick);
    assert Split(Items(q1), q1.send.flight.sequence, a, b, id, ones, twos) by {
      ProbeSplits(q0, tick, a, b, id, ones, twos);
    }
    var f := q1.send.flight.(nextRetry := NEVER);
    ScanExact(f, tick, ActiveProbe(q1), 0);
    SplitRenumbered(f, Scan(f, tick, ActiveProbe(q1), 0), a, b, id, ones, twos);
  }

  /** While one of them is in flight there is no other probe. */
  lemma ProbeSplits(q: Probing, tick: int, a: Packet, b: Packet, id: nat, ones: set<nat>, twos: set<nat>)
    requires Split(Items(q), q.send.flight.sequence, a, b, id, ones, twos)
    ensures var r := ProbeTail(q, tick); Split(Items(r), r.send.flight.sequence, a, b, id, ones, twos)
  {
    if i :| 0 <= i < |Items(q)| && (Items(q)[i].packet == a || Items(q)[i].packet == b) {
      NoSecondProbe(q, tick, i);
    } else {
      hide Probes, RetryTimeout;
      var r := ProbeTail(q, tick);
      AbsentSplits(Items(r), r.send.flight.sequence, a, b, id, ones, twos);
    }
  }

  // ---------------------------------------------------------------------
  // So do the other steps.

  lemma ProgressAmong(q: Probing, items: seq<Item>, now: int, sampled: bool)
    ensures Among(items, Items(Progressed(WithItems(q, items), now, sampled)))
    ensures Progressed(WithItems(q, items), now, sampled).send.flight.sequence == q.send.flight.sequence
  {
    hide ActiveProbe;
    AmongItself(items, Items(Progressed(WithItems(q, items), now, sampled)));
  }

  lemma FewerAmong(items: seq<Item>, kept: seq<Item>)
    requires forall x <- kept :: x in items
    ensures Among(items, kept)
  {
    forall k | 0 <= k < |kept| ensures HasNames(items, kept[k]) {
      assert kept[k] in items;
      var i :| 0 <= i < |items| && items[i] == kept[k];
      assert SameNames(items[i], kept[k]);
    }
  }

  lemma MarkSplits(f: Flight, previous: int, newest: int, tick: int, a: Packet, b: Packet, id: nat, ones: set<nat>,
      twos: set<nat>)
    requires Split(f.items, f.sequence, a, b, id, ones, twos) && a != b
    ensures var g := MoveMark(f, previous, newest, tick); Split(g.items, g.sequence, a, b, id, ones, twos)
  {
    hide Split, MoveMark;
    MoveMarkExact(f, previous, newest, tick);
    SplitRenumbered(f, MoveMark(f, previous, newest, tick), a, b, id, ones, twos);
  }

  /** Progress over some of the items. */
  lemma ProgressSplits(q: Probing, items: seq<Item>, now: int, sampled: bool, a: Packet, b: Packet, id: nat,
      ones: set<nat>, twos: set<nat>)
    requires Split(Items(q), q.send.flight.sequence, a, b, id, ones, twos) && forall x <- items :: x in Items(q)
    ensures Split(items, q.send.flight.sequence, a, b, id, ones, twos)
    ensures var r := Progressed(WithItems(q, items), now, sampled);
      Split(Items(r), r.send.flight.sequence, a, b, id, ones, twos)
  {
    hide Split, Progressed;
    FewerAmong(Items(q), items);
    SplitAmong(Items(q), items, q.send.flight.sequence, a, b, id, ones, twos);
    ProgressAmong(q, items, now, sampled);
    SplitAmong(items, Items(Progressed(WithItems(q, items), now, sampled)), q.send.flight.sequence, a, b, id, ones,
      twos);
  }

  lemma DirectSplits(q: Probing, number: u24, tick: int, a: Packet, b: Packet, id: nat, ones: set<nat>, twos: set<nat>)
    requires Split(Items(q), q.send.flight.sequence, a, b, id, ones, twos) && a != b
    ensures var r := AckDirectProbing(q, number, tick); Split(Items(r), r.send.flight.sequence, a, b, id, ones, twos)
  {
    hide Split, Progressed, MoveMark, NameFor, LatencySample, Retire, Find, Newer, Rtt;
    var k := Find(Items(q), number, 0);
    if k < |Items(q)| {
      var item, items := Items(q)[k], Removed(Items(q), k);
      ProgressSplits(q, items, tick, Unambiguous(item), a, b, id, ones, twos);
      var f := Progressed(WithItems(q, items), tick, Unambiguous(item)).send.flight;
      MarkSplits(f, f.ackMark, NameFor(item, number), tick, a, b, id, ones, twos);
    }
  }

  lemma SurvivorsAmong(items: seq<Item>, ranges: seq<Range>)
    ensures forall x <- Survivors(items, ranges) :: x in items
  {
    forall x | x in Survivors(items, ranges) ensures x in items {
      SurvivorsExact(items, ranges, x);
    }
  }

  lemma CompactSplits(q: Probing, ranges: seq<Range>, tick: int, a: Packet, b: Packet, id: nat, ones: set<nat>,
      twos: set<nat>)
    requires Split(Items(q), q.send.flight.sequence, a, b, id, ones, twos) && a != b
    ensures var r := CompactProbing(q, ranges, tick); Split(Items(r), r.send.flight.sequence, a, b, id, ones, twos)
  {
    hide Split, Progressed, MoveMark, SweepProbing, Survivors;
    var f := q.send.flight;
    var start := Swept(StartSweep(q.send), false);
    var swept := SweepProbing(start, f.items, ranges, tick, f.grouped);
    ProbeSamples.SweepKeeps(start, f.items, ranges, tick, f.grouped);
    SurvivorsAmong(f.items, ranges);
    var w := swept.sweep;
    ProgressSplits(q, w.kept, tick, swept.sampled, a, b, id, ones, twos);
    var q2 := if w.released != 0 then Progressed(WithItems(q, w.kept), tick, swept.sampled) else WithItems(q, w.kept);
    MarkSplits(SetLatency(q2.send.flight, w.latency), f.ackMark, w.newest, tick, a, b, id, ones, twos);
  }

  lemma QuietSplits(q: Probing, op: Op, a: Packet, b: Packet, id: nat, ones: set<nat>, twos: set<nat>)
    requires !op.Flushing? && a != b && Out(q.send, a) && Out(q.send, b)
    requires Split(Items(q), q.send.flight.sequence, a, b, id, ones, twos)
    ensures var r := Apply(q, op);
      Split(Items(r), r.send.flight.sequence, a, b, id, ones, twos) && Out(r.send, a) && Out(r.send, b)
  {
    hide Split, AckDirectProbing, CompactProbing, NackRanges, Enqueue, SetOptions;
    match op
    case Add(mode, data, channel) =>
      if Enqueue(q.send, mode, data, channel).1.Ok? {
        var more := Added(q.send, mode, data, channel);
      } else {
        RefusedChangesNothing(q.send, mode, data, channel);
      }
    case StartBatch =>
    case Acked(ranges, at) =>
      AckKeepsQueue(q, ranges, at);
      if Direct(q, ranges) {
        DirectSplits(q, ranges[0].first, at, a, b, id, ones, twos);
      } else {
        CompactSplits(q, ranges, at, a, b, id, ones, twos);
      }
    case Nacked(ranges, at) =>
      NackRangesExact(q.send.flight, ranges, at);
      SplitRenumbered(q.send.flight, NackRanges(q.send.flight, ranges, at), a, b, id, ones, twos);
    case Replace(options, at) => OptionsKeepSend(q, options, at);
  }

  lemma RefusedChangesNothing(s: SendState, mode: Reliability, data: seq<byte>, channel: byte)
    requires Enqueue(s, mode, data, channel).1.Err?
    ensures Enqueue(s, mode, data, channel).0 == s
  {
    hide Pieces, Whole, DivCeil;
  }

  // ---------------------------------------------------------------------
  // Whole runs.

  /** The numbers above `id` a frame has left under since step `m`. */
  ghost function LeftUnder(r: Run, m: nat, n: nat, p: Packet, id: nat): set<nat>
    requires m <= n <= |r.outs|
    decreases n
  {
    if n == m then {} else LeftUnder(r, m, n - 1, p, id) + Numbers(r.outs[n - 1], p, id)
  }

  ghost predicate Parted(r: Run, m: nat, n: nat, a: Packet, b: Packet, id: nat)
    requires m <= n <= |r.outs| && |r.states| == |r.outs| + 1
  {
    var q := r.states[n];
    && Split(Items(q), q.send.flight.sequence, a, b, id, LeftUnder(r, m, n, a, id), LeftUnder(r, m, n, b, id))
    && Out(q.send, a) && Out(q.send, b)
  }

  lemma PartedStep(r: Run, mtu: u16, m: nat, n: nat, a: Packet, b: Packet, id: nat)
    requires IsRun(r, mtu) && m <= n < |r.ops| && a != b && Parted(r, m, n, a, b, id)
    ensures Parted(r, m, n + 1, a, b, id)
  {
    hide Split, Apply, FlushProbing, ProbeRuns.Flushable, Out, Numbers, TickProbe;
    var q, op := r.states[n], r.ops[n];
    var ones, twos := LeftUnder(r, m, n, a, id), LeftUnder(r, m, n, b, id);
    assert StepsTo(q, op, r.states[n + 1], r.outs[n]);
    if op.Flushing? {
      TickSplits(q, op.at, a, b, id, ones, twos);
      RestSplits(q, op.at, op.order, a, b, id, ones, twos);
    } else {
      QuietSplits(q, op, a, b, id, ones, twos);
      NoNumbers(a, id);
      NoNumbers(b, id);
      assert ones + {} == ones && twos + {} == twos;
    }
  }

  lemma NoNumbers(p: Packet, id: nat)
    ensures Numbers([], p, id) == {}
  {
  }

  /** The probe itself puts both on its own number. */
  lemma PartedStart(r: Run, mtu: u16, m: nat, i: nat, j: nat)
    requires IsRun(r, mtu) && m < |r.ops| && r.ops[m].Flushing? && Probes(r.states[m], r.ops[m].at)
    requires i < |Items(r.states[m])| && j < |Items(r.states[m])| && i != j
    ensures var a, b := Items(r.states[m])[i].packet, Items(r.states[m])[j].packet;
      a != b && Parted(r, m, m + 1, a, b, r.states[m].send.flight.sequence)
  {
    hide Settled, Scan, Probes, FlushProbing, Cached, NumbersBelow, ProbeRuns.Recorded, Sorts, RetryTimeout, Numbers;
    var q, tick, id := r.states[m], r.ops[m].at, r.states[m].send.flight.sequence;
    var a, b := Items(q)[i].packet, Items(q)[j].packet;
    assert StepsTo(q, r.ops[m], r.states[m + 1], r.outs[m]);
    RunSettled(r, mtu, m);
    if i < j {
      FlightDiffers(q.send, i, j);
    } else {
      FlightDiffers(q.send, j, i);
    }
    RunKeeps(r, mtu, m);
    FreshProbeIsEarly(q, tick);
    ProbeReplays(q, tick);
    var q1 := TickProbe(Refreshed(q, tick), tick);
    assert Split(Items(q1), q1.send.flight.sequence, a, b, id, {}, {});
    RestSplits(q, tick, r.ops[m].order, a, b, id, {}, {});
    assert LeftUnder(r, m, m, a, id) == {} == LeftUnder(r, m, m, b, id);
  }

  lemma {:induction false} PartedRun(r: Run, mtu: u16, m: nat, n: nat, i: nat, j: nat)
    requires IsRun(r, mtu) && m < n <= |r.ops| && r.ops[m].Flushing? && Probes(r.states[m], r.ops[m].at)
    requires i < |Items(r.states[m])| && j < |Items(r.states[m])| && i != j
    ensures var a, b := Items(r.states[m])[i].packet, Items(r.states[m])[j].packet;
      a != b && Parted(r, m, n, a, b, r.states[m].send.flight.sequence)
    decreases n
  {
    hide Parted, StepsTo, Probes;
    PartedStart(r, mtu, m, i, j);
    if n > m + 1 {
      PartedRun(r, mtu, m, n - 1, i, j);
      PartedStep(r, mtu, m, n - 1, Items(r.states[m])[i].packet, Items(r.states[m])[j].packet,
        r.states[m].send.flight.sequence);
    }
  }

  lemma {:induction false} LeftUnderHas(r: Run, m: nat, n: nat, k: nat, p: Packet, id: nat, x: nat)
    requires m <= k < n <= |r.outs| && x > id && Outgoing(p, x) in r.outs[k]
    ensures x in LeftUnder(r, m, n, p, id)
    decreases n
  {
    if k < n - 1 {
      LeftUnderHas(r, m, n - 1, k, p, id, x);
    } else {
      assert Outgoing(p, x).packet == p;
    }
  }

  /**
   In every run, two frames of a probed datagram never again leave under one
   number: none above the probe's ever carries both.
   */
  lemma NeverTogether(r: Run, mtu: u16, m: nat, i: nat, j: nat, k: nat, l: nat, x: nat)
    requires IsRun(r, mtu) && m < |r.ops| && r.ops[m].Flushing? && Probes(r.states[m], r.ops[m].at)
    requires i < |Items(r.states[m])| && j < |Items(r.states[m])| && i != j
    requires m <= k < |r.outs| && m <= l < |r.outs| && x > r.states[m].send.flight.sequence
    requires Outgoing(Items(r.states[m])[i].packet, x) in r.outs[k]
    ensures Outgoing(Items(r.states[m])[j].packet, x) !in r.outs[l]
  {
    hide StepsTo, Probes, LeftUnder, Clear;
    var a, b, id := Items(r.states[m])[i].packet, Items(r.states[m])[j].packet, r.states[m].send.flight.sequence;
    var n := |r.ops|;
    PartedRun(r, mtu, m, n, i, j);
    LeftUnderHas(r, m, n, k, a, id, x);
    if Outgoing(b, x) in r.outs[l] {
      LeftUnderHas(r, m, n, l, b, id, x);
    }
  }

  /**
   In every run: once a datagram has been probed, any two of its frames that no
   ACK names have left, by any flush at or after the timeout the datagram had
   before the probe, under two different numbers above the probe's.
   */
  lemma ProbedLeaveApart(r: Run, mtu: u16, m: nat, n: nat, i: nat, j: nat) returns (x: nat, y: nat)
    requires IsRun(r, mtu) && m < n < |r.ops| && r.ops[m].Flushing? && r.ops[n].Flushing?
    requires Probes(r.states[m], r.ops[m].at)
    requires i < |Items(r.states[m])| && j < |Items(r.states[m])| && i != j
    requires NeverAcked(r, m + 1, n, Items(r.states[m])[i].packet)
    requires NeverAcked(r, m + 1, n, Items(r.states[m])[j].packet)
    requires r.ops[n].at >= Deadline(r.states[m].send.flight, Items(r.states[m])[0])
    ensures x != y && x > r.states[m].send.flight.sequence && y > r.states[m].send.flight.sequence
    ensures exists k | m < k <= n :: Outgoing(Items(r.states[m])[i].packet, x) in r.outs[k]
    ensures exists l | m < l <= n :: Outgoing(Items(r.states[m])[j].packet, y) in r.outs[l]
  {
    hide StepsTo, Probes, NeverAcked, Deadline;
    var a, b, id := Items(r.states[m])[i].packet, Items(r.states[m])[j].packet, r.states[m].send.flight.sequence;
    ProbeNeverDelays(r, mtu, m, n, i);
    ProbeNeverDelays(r, mtu, m, n, j);
    var k :| m + 1 <= k <= n && SentAbove(r.outs[k], a, id);
    var l :| m + 1 <= l <= n && SentAbove(r.outs[l], b, id);
    x :| x > id && Outgoing(a, x) in r.outs[k];
    y :| y > id && Outgoing(b, y) in r.outs[l];
    NeverTogether(r, mtu, m, i, j, k, l, x);
  }
}
