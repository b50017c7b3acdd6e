// The send queue under a policy: unreliable frames wait in a lane of their own,
// admission works on two byte counts, and a scheduled flush serves the lanes.
module Policy {
  import opened AckSet
  import opened Admission
  import opened Bytes
  import opened Deadlines
  import opened Errors
  import opened Frames
  import opened Ledger
  import opened Renumber
  import opened Scheduler
  import opened Sender
  import opened SendOptions
  import opened Serial
  import opened Sums

  datatype Policed = Policed(
    send: SendState, lane: seq<Packet>, laneBytes: int, nextLane: nat, options: SendOptions, useLegacy: bool)

  /** The queue without the lane and its bytes. */
  function Alone(p: Policed): SendState {
    Without(p.send, p.laneBytes)
  }

  function Without(s: SendState, bytes: int): SendState {
    s.(ledger := s.ledger.(buffered := s.ledger.buffered - bytes))
  }

  /** Both counters are exact: the lane's, and what is left for the reliable frames. */
  ghost predicate Kept(p: Policed) {
    && Ledgered(Alone(p)) && p.send.queue.unreliable == 0
    && p.laneBytes == Reserved(p.lane)
    && p.send.ledger.buffered <= MAX_BUFFERED
    && p.options.Valid()
    && Announced(p.send.flight)
  }

  /** What admission sees of the queue. */
  function LoadOf(p: Policed): Load
    requires p.laneBytes >= 0 && p.send.ledger.buffered >= 0
  {
    Load(p.send.ledger.buffered, p.laneBytes)
  }

  lemma KeptLoad(p: Policed)
    requires Kept(p)
    ensures p.laneBytes >= 0 && p.send.ledger.buffered >= 0 && LoadOf(p).Valid()
  {
    hide Balanced, Held, Total;
    BalanceNonNegative(Held(Alone(p)), Alone(p).ledger);
  }

  // ---------------------------------------------------------------------
  // Switching the policy on.

  function Sifted(packets: seq<Packet>, reliable: bool): seq<Packet> {
    if packets == [] then []
    else
      var front, last := Sifted(packets[..|packets| - 1], reliable), packets[|packets| - 1];
      if last.frame.IsReliable() == reliable then front + [last] else front
  }

  /** The queue's unreliable frames move to the lane. */
  function Configure(s: SendState, o: SendOptions): Result<Policed> {
    if o.inFlightBytes < s.mtu || o.flushBytes < s.mtu || o.unreliableQueueBytes < s.mtu then Err(PacketSizeExceedMTU)
    else
      var lane, d := Sifted(s.queue.packets, false), DefaultOptions();
      Ok(Policed(
        s.(queue := Queue(Sifted(s.queue.packets, true), 0)), lane, Reserved(lane), 2, o,
        && o.inFlightFrames == d.inFlightFrames && o.inFlightBytes == d.inFlightBytes && o.flushBytes == d.flushBytes
        && s.mtu * MAX_IN_FLIGHT <= o.flushBytes))
  }

  lemma {:induction false} SiftedExact(packets: seq<Packet>)
    ensures multiset(Sifted(packets, true)) + multiset(Sifted(packets, false)) == multiset(packets)
    ensures forall i | 0 <= i < |Sifted(packets, true)| :: Sifted(packets, true)[i].frame.IsReliable()
    ensures forall i | 0 <= i < |Sifted(packets, false)| ::
      !Sifted(packets, false)[i].frame.IsReliable() && Sifted(packets, false)[i] in packets
    decreases |packets|
  {
    if packets != [] {
      var front := packets[..|packets| - 1];
      assert packets == front + [packets[|packets| - 1]];
      SiftedExact(front);
    }
  }

  lemma {:induction false} TakeLane(held: multiset<Packet>, ledger: Sender.Ledger, lane: seq<Packet>)
    requires Balanced(held + multiset(lane), ledger)
    requires forall i | 0 <= i < |lane| :: !lane[i].frame.IsFragment()
    ensures Balanced(held, ledger.(buffered := ledger.buffered - Reserved(lane)))
    decreases |lane|
  {
    hide Balanced;
    if lane == [] {
      assert held + multiset(lane) == held;
    } else {
      var front, last := lane[..|lane| - 1], lane[|lane| - 1];
      assert lane == front + [last];
      RemoveWhole(held + multiset(lane), ledger, last);
      assert held + multiset(lane) - multiset{last} == held + multiset(front);
      TakeLane(held, ledger.(buffered := ledger.buffered - |last.frame.data| - FRAME_BUDGET), front);
    }
  }

  /** All frames reliable and none counted as loose are the same thing. */
  lemma {:induction false} LooseExact(packets: seq<Packet>)
    ensures Total(multiset(packets), Loose()) == 0 <==> forall i | 0 <= i < |packets| :: packets[i].frame.IsReliable()
    decreases |packets|
  {
    if packets == [] {
      assert multiset(packets) == multiset{};
    } else {
      hide Total;
      var front, last := packets[..|packets| - 1], packets[|packets| - 1];
      assert packets == front + [last];
      TotalAdd(multiset(front), last, Loose());
      LooseExact(front);
    }
  }

  /** A queue put under a policy at any moment keeps its frames and its exact counters. */
  lemma ConfigureKeeps(s: SendState, o: SendOptions)
    requires Ledgered(s) && Announced(s.flight) && o.Valid() && Configure(s, o).Ok?
    ensures var p := Configure(s, o).value;
      && Kept(p) && p.send.ledger == s.ledger && p.send.counters == s.counters
      && Held(p.send) + multiset(p.lane) == Held(s)
  {
    hide Total, Balanced, Packets, Sifted, Reserved;
    var p := Configure(s, o).value;
    SiftedExact(s.queue.packets);
    assert Held(p.send) + multiset(p.lane) == Held(s);
    TakeLane(Held(p.send), s.ledger, p.lane);
    LooseExact(p.send.queue.packets);
  }

  // ---------------------------------------------------------------------
  // Insertion.

  function Offer(p: Policed, mode: Reliability, data: seq<byte>, channel: byte): (Policed, Result<()>) {
    var (s, r) := Enqueue(p.send, mode, data, channel);
    if r.Err? then (p, r)
    else if ModeReliable(mode) then (p.(send := s), r)
    else
      (p.(send := s.(queue := p.send.queue), lane := p.lane + [Whole(p.send.counters, mode, data, channel)],
          laneBytes := p.laneBytes + |data| + FRAME_BUDGET), r)
  }

  lemma ReliableOffer(p: Policed, mode: Reliability, data: seq<byte>, channel: byte)
    requires Kept(p) && ModeReliable(mode) && Enqueue(p.send, mode, data, channel).1.Ok?
    ensures Alone(Offer(p, mode, data, channel).0) == Enqueue(Alone(p), mode, data, channel).0
    ensures Kept(Offer(p, mode, data, channel).0)
  {
    hide Pieces, Whole, DivCeil, Balanced, Held, Total, Reserved, FragmentsReliable, Announced;
    EnqueueReserves(p.send, mode, data, channel);
    EnqueueLedgered(Alone(p), mode, data, channel);
  }

  lemma UnreliableOffer(p: Policed, mode: Reliability, data: seq<byte>, channel: byte)
    requires Kept(p) && !ModeReliable(mode) && Enqueue(p.send, mode, data, channel).1.Ok?
    ensures Kept(Offer(p, mode, data, channel).0)
  {
    hide Pieces, DivCeil, Balanced, Total, Reserved, FragmentsReliable, Announced, Packets;
    EnqueueReserves(p.send, mode, data, channel);
    ReservedSnoc(p.lane, Whole(p.send.counters, mode, data, channel));
    assert Held(Alone(Offer(p, mode, data, channel).0)) == Held(Alone(p));
  }

  /**
   An insertion succeeds exactly when its bytes fit the cap and the message its
   mode, and is booked where admission expects it.
   */
  lemma OfferBooks(p: Policed, mode: Reliability, data: seq<byte>, channel: byte)
    requires Kept(p)
    ensures var (t, r) := Offer(p, mode, data, channel);
      && Kept(t) && t.send.mtu == p.send.mtu && t.options == p.options
      && (r.Err? ==> t == p)
      && (r.Ok? <==> && RequiredBytes(p.send.mtu, mode, |data|).Ok?
                     && p.send.ledger.buffered + RequiredBytes(p.send.mtu, mode, |data|).value <= MAX_BUFFERED
                     && (mode.ReliableOrdered? || |data| <= p.send.mtu - 60))
      && LoadOf(p).Valid() && LoadOf(t).Valid()
      && (r.Ok? ==> LoadOf(t) == Admit(LoadOf(p), mode, RequiredBytes(p.send.mtu, mode, |data|).value))
  {
    hide Kept, Pieces, Whole, DivCeil;
    KeptLoad(p);
    EnqueueReserves(p.send, mode, data, channel);
    if Enqueue(p.send, mode, data, channel).1.Ok? {
      if ModeReliable(mode) {
        ReliableOffer(p, mode, data, channel);
      } else {
        UnreliableOffer(p, mode, data, channel);
      }
    }
    KeptLoad(Offer(p, mode, data, channel).0);
  }

  function OfferAll(p: Policed, mode: Reliability, messages: seq<seq<byte>>, channel: byte): (Policed, Result<()>) {
    if messages == [] then (p, Ok(()))
    else
      var (t, r) := OfferAll(p, mode, messages[..|messages| - 1], channel);
      if r.Err? then (t, r) else Offer(t, mode, messages[|messages| - 1], channel)
  }

  /** The bytes a batch of insertions books before it ends or is refused. */
  lemma {:induction false} BatchBooks(p: Policed, mode: Reliability, messages: seq<seq<byte>>, channel: byte)
      returns (taken: nat)
    requires Kept(p) && BatchBytes(p.send.mtu, mode, Lengths(messages)).Ok?
    requires p.send.ledger.buffered + BatchBytes(p.send.mtu, mode, Lengths(messages)).value <= MAX_BUFFERED
    ensures var (t, r) := OfferAll(p, mode, messages, channel);
      var required := BatchBytes(p.send.mtu, mode, Lengths(messages)).value;
      && Kept(t) && t.send.mtu == p.send.mtu && t.options == p.options
      && LoadOf(p).Valid() && LoadOf(t).Valid() && LoadOf(t) == Admit(LoadOf(p), mode, taken)
      && taken <= required
      && (r.Ok? <==> Fits(p.send.mtu, mode, messages))
      && (r.Ok? ==> taken == required)
    decreases |messages|
  {
    hide Kept, Offer, RequiredBytes;
    KeptLoad(p);
    if messages == [] {
      taken := 0;
    } else {
      var front, last := messages[..|messages| - 1], messages[|messages| - 1];
      LengthsFront(messages);
      taken := BatchBooks(p, mode, front, channel);
      var (t, r) := OfferAll(p, mode, front, channel);
      if r.Ok? {
        OfferBooks(t, mode, last, channel);
        if Offer(t, mode, last, channel).1.Ok? {
          taken := taken + RequiredBytes(p.send.mtu, mode, |last|).value;
        }
      }
    }
  }

  /** The queue's answer for a whole batch. */
  ghost function BatchGranted(p: Policed, mode: Reliability, messages: seq<seq<byte>>): Result<bool>
    requires Kept(p)
  {
    KeptLoad(p);
    var required :- BatchBytes(p.send.mtu, mode, Lengths(messages));
    HasBatchRequiredCapacity(LoadOf(p), Some(p.options), mode, required)
  }

  /**
   Under a policy too a granted batch never fails half-way: every insertion
   succeeds exactly when each message fits its mode. Whatever is inserted stays
   under the cap; reliable messages leave the whole unreliable reserve free, and
   unreliable ones leave it as it was.
   */
  lemma PolicedBatchFits(p: Policed, mode: Reliability, messages: seq<seq<byte>>, channel: byte)
    requires Kept(p) && BatchGranted(p, mode, messages) == Ok(true)
    ensures var (t, r) := OfferAll(p, mode, messages, channel);
      && Kept(t) && t.options == p.options && t.send.mtu == p.send.mtu
      && LoadOf(p).Valid() && LoadOf(t).Valid()
      && (r.Ok? <==> Fits(p.send.mtu, mode, messages))
      && (r.Ok? ==> LoadOf(t) == Admit(LoadOf(p), mode, BatchBytes(p.send.mtu, mode, Lengths(messages)).value))
      && (if ModeReliable(mode) then ReserveFree(LoadOf(t), p.options)
          else LoadOf(t).buffered - LoadOf(t).unreliable == LoadOf(p).buffered - LoadOf(p).unreliable)
  {
    hide BatchBytes, OfferAll;
    KeptLoad(p);
    assert p.options.Valid();
    hide Kept;
    var required := BatchBytes(p.send.mtu, mode, Lengths(messages)).value;
    AdmissionKeepsReserve(LoadOf(p), p.options, mode, required);
    var taken := BatchBooks(p, mode, messages, channel);
  }

  // ---------------------------------------------------------------------
  // Acknowledgements do not see the lane.

  lemma {:induction false} SweepWithout(w: Sweep, bytes: int, items: seq<Item>, ranges: seq<Range>, tick: int,
      grouped: bool)
    ensures SweepAll(w.(ledger := w.ledger.(buffered := w.ledger.buffered - bytes)), items, ranges, tick, grouped)
         == var v := SweepAll(w, items, ranges, tick, grouped);
            v.(ledger := v.ledger.(buffered := w.ledger.buffered - bytes))
    ensures SweepAll(w, items, ranges, tick, grouped).ledger.buffered == w.ledger.buffered
    decreases |items|
  {
    hide AckedName, LatencySample, Rtt;
    if items != [] {
      SweepWithout(w, bytes, items[..|items| - 1], ranges, tick, grouped);
    }
  }

  lemma AckWithout(s: SendState, bytes: int, ranges: seq<Range>, tick: int)
    ensures AckRanges(Without(s, bytes), ranges, tick) == Without(AckRanges(s, ranges, tick), bytes)
  {
    hide SweepAll, MoveMark, Find, LatencySample, Rtt, NameFor, Removed;
    SweepWithout(StartSweep(s), bytes, s.flight.items, ranges, tick, s.flight.grouped);
    if |ranges| == 1 {
      SweepWithout(StartSweep(s), bytes, s.flight.items, [Range(ranges[0].first, ranges[0].first)], tick,
        s.flight.grouped);
    }
  }

  lemma {:induction false} KeptWereThere(w: Sweep, items: seq<Item>, ranges: seq<Range>, tick: int, grouped: bool)
    ensures forall x <- SweepAll(w, items, ranges, tick, grouped).kept :: x in w.kept || x in items
    decreases |items|
  {
    hide AckedName, LatencySample, Rtt, Retire;
    if items != [] {
      KeptWereThere(w, items[..|items| - 1], ranges, tick, grouped);
    }
  }

  lemma FewerAnnounced(f: Flight, g: Flight)
    requires Announced(f) && g.retriesPending == f.retriesPending && forall x <- g.items :: x in f.items
    ensures Announced(g)
  {
    forall i | 0 <= i < |g.items| && !g.items[i].sent ensures g.retriesPending {
      assert g.items[i] in f.items;
    }
  }

  lemma MarkAnnounces(f: Flight, previous: int, newest: int, tick: int)
    requires Announced(f)
    ensures Announced(MoveMark(f, previous, newest, tick))
  {
    MoveMarkExact(f, previous, newest, tick);
    RenumberedAnnounces(f, MoveMark(f, previous, newest, tick));
  }

  lemma CompactAnnounces(s: SendState, ranges: seq<Range>, tick: int)
    requires Announced(s.flight)
    ensures Announced(Compact(s, ranges, tick).flight)
  {
    hide SweepAll, MoveMark, Announced;
    var f := s.flight;
    KeptWereThere(StartSweep(s), f.items, ranges, tick, f.grouped);
    var w := SweepAll(StartSweep(s), f.items, ranges, tick, f.grouped);
    var f1 := SetLatency(f.(items := w.kept, grouped := f.grouped && w.kept != []), w.latency);
    FewerAnnounced(f, f1);
    MarkAnnounces(f1, f.ackMark, w.newest, tick);
  }

  lemma DirectAnnounces(s: SendState, number: u24, tick: int)
    requires Announced(s.flight)
    ensures Announced(AckDirect(s, number, tick).flight)
  {
    hide MoveMark, Find, LatencySample, Rtt, NameFor, Retire;
    var f := s.flight;
    var k := Find(f.items, number, 0);
    if k < |f.items| {
      var items := Removed(f.items, k);
      var f1 := f.(items := items, grouped := f.grouped && items != []);
      FewerAnnounced(f, f1);
      MarkAnnounces(f1, f1.ackMark, NameFor(f.items[k], number), tick);
    }
  }

  lemma AckKeeps(p: Policed, ranges: seq<Range>, tick: int)
    requires Kept(p)
    ensures var t := p.(send := AckRanges(p.send, ranges, tick));
      Kept(t) && t.send.ledger.buffered <= p.send.ledger.buffered
  {
    hide Ledgered, AckRanges, Announced, Reserved;
    AckWithout(p.send, p.laneBytes, ranges, tick);
    AckLedgered(Alone(p), ranges, tick);
    AckAnnounces(p.send, ranges, tick);
  }

  lemma AckAnnounces(s: SendState, ranges: seq<Range>, tick: int)
    requires Announced(s.flight)
    ensures Announced(AckRanges(s, ranges, tick).flight) && AckRanges(s, ranges, tick).queue == s.queue
  {
    hide Announced, SweepAll, MoveMark, Find, LatencySample, Rtt, NameFor, Retire;
    CompactAnnounces(s, ranges, tick);
    if |ranges| == 1 {
      CompactAnnounces(s, [Range(ranges[0].first, ranges[0].first)], tick);
      DirectAnnounces(s, ranges[0].first, tick);
    }
  }

  lemma NackKeeps(p: Policed, ranges: seq<Range>, tick: int)
    requires Kept(p)
    ensures Kept(p.(send := p.send.(flight := NackRanges(p.send.flight, ranges, tick))))
  {
    hide Ledgered, NackRanges, Announced, Reserved;
    NackLedgered(Alone(p), ranges, tick);
    NackRangesExact(p.send.flight, ranges, tick);
    RenumberedAnnounces(p.send.flight, NackRanges(p.send.flight, ranges, tick));
  }

  // ---------------------------------------------------------------------
  // Flushing.

  /** The lanes as the scheduler sees them once the flight is timed and sorted. */
  ghost function LanesOf(p: Policed, tick: int, order: seq<nat>): Lanes
    requires IsPermutation(order, |p.send.flight.items|)
  {
    Lanes(Arrange(Tick(p.send.flight, tick), order), p.send.queue.packets, p.lane,
          p.send.ledger.buffered, p.laneBytes, p.nextLane)
  }

  function Took(p: Policed, l: Lanes): Policed {
    p.(send := p.send.(flight := l.flight, queue := p.send.queue.(packets := l.packets),
                       ledger := p.send.ledger.(buffered := l.buffered)),
       lane := l.unreliable, laneBytes := l.unreliableBytes, nextLane := l.nextLane)
  }

  /** A flight out of order is sorted first. */
  ghost predicate Rearranges(f: Flight, order: seq<nat>) {
    IsPermutation(order, |f.items|) && (f.dirty ==> Sorts(f.items, order))
  }

  /** Default limits and an empty lane take the plain flush, everything else the scheduler. */
  ghost predicate FlushesTo(p: Policed, tick: int, order: seq<nat>, r: Burst, t: Policed) {
    && Rearranges(Tick(p.send.flight, tick), order)
    && (if p.useLegacy && p.lane == [] then
          Sorts(Tick(p.send.flight, tick).items, order) && t == p.(send := Flush(p.send, tick, order).state)
        else
          && Scheduled(LanesOf(p, tick, order), p.options, tick, r)
          && Announced(r.lanes.flight)
          && t == Took(p, r.lanes))
  }

  lemma {:induction false} ReservedConcat(a: seq<Packet>, b: seq<Packet>)
    ensures Reserved(a + b) == Reserved(a) + Reserved(b)
    decreases |b|
  {
    if b == [] {
      assert a + b == a;
    } else {
      assert (a + b)[..|a + b| - 1] == a + b[..|b| - 1];
      ReservedConcat(a, b[..|b| - 1]);
    }
  }

  /** New items hold exactly the packets that left their lane. */
  lemma {:induction false} NewItemsHold(items: seq<Item>, packets: seq<Packet>)
    requires |items| == |packets| && forall i | 0 <= i < |items| :: items[i].packet == packets[i]
    ensures Packets(items) == multiset(packets)
    decreases |items|
  {
    if items != [] {
      var n := |items| - 1;
      NewItemsHold(items[..n], packets[..n]);
      assert packets == packets[..n] + [packets[n]];
    }
  }

  lemma FlownHolds(s0: Lanes, s: Lanes, out: seq<Sent>, cursor: nat, tick: int)
    requires Flown(s0, s, out, cursor, tick)
    ensures Packets(s.flight.items) == Packets(s0.flight.items) + multiset(Through(out, 2))
  {
    hide Packets, Through, WaitingBelow;
    var n, items := |s0.flight.items|, s.flight.items;
    var first, rest := items[..n], items[n..];
    SamePacketsWeigh(first, s0.flight.items);
    NewItemsHold(rest, Through(out, 2));
    PacketsConcat(first, rest);
    assert items == first + rest;
  }

  lemma ArrangedHolds(f: Flight, tick: int, order: seq<nat>)
    requires Rearranges(Tick(f, tick), order)
    ensures Packets(Arrange(Tick(f, tick), order).items) == Packets(f.items)
  {
    hide Packets, TickFrom, Sorted, IsPermutation;
    var f1 := Tick(f, tick);
    TickRenumbers(f, tick);
    SamePacketsWeigh(f.items, f1.items);
    if f1.dirty {
      PermutedPackets(Arrange(f1, order).items, f1.items);
    }
  }

  /** A scheduled flush neither gains nor loses a reliable frame. */
  lemma ScheduledHolds(p: Policed, tick: int, order: seq<nat>, r: Burst)
    requires Rearranges(Tick(p.send.flight, tick), order)
    requires Scheduled(LanesOf(p, tick, order), p.options, tick, r)
    ensures Held(Took(p, r.lanes).send) == Held(p.send)
  {
    hide Packets, WithinBudget, WorkConserving, Flown, Through, TickFrom, Sorted;
    var s0 := LanesOf(p, tick, order);
    var cursor: nat :| Flown(s0, r.lanes, r.out, cursor, tick) && cursor <= |r.lanes.flight.items|;
    FlownHolds(s0, r.lanes, r.out, cursor, tick);
    ArrangedHolds(p.send.flight, tick, order);
    assert multiset(p.send.queue.packets) == multiset(Through(r.out, 2)) + multiset(r.lanes.packets);
  }

  /** It takes the same bytes off both counters, the lane's share. */
  lemma ScheduledCounts(s0: Lanes, o: SendOptions, tick: int, r: Burst)
    requires Scheduled(s0, o, tick, r) && s0.unreliableBytes == Reserved(s0.unreliable)
    ensures r.lanes.unreliableBytes == Reserved(r.lanes.unreliable) <= s0.unreliableBytes
    ensures r.lanes.buffered - r.lanes.unreliableBytes == s0.buffered - s0.unreliableBytes
  {
    hide WithinBudget, WorkConserving, Flown, Reserved, Through;
    ReservedConcat(Through(r.out, 0), r.lanes.unreliable);
  }

  lemma SuffixReliable(packets: seq<Packet>, gone: seq<Packet>, rest: seq<Packet>)
    requires packets == gone + rest && FragmentsReliable(packets) && Total(multiset(packets), Loose()) == 0
    ensures FragmentsReliable(rest) && Total(multiset(rest), Loose()) == 0
  {
    hide Total;
    LooseExact(packets);
    LooseExact(rest);
    assert forall i | 0 <= i < |rest| :: rest[i] == packets[|gone| + i];
  }

  lemma ScheduledKeeps(p: Policed, tick: int, order: seq<nat>, r: Burst)
    requires Kept(p) && Rearranges(Tick(p.send.flight, tick), order)
    requires Scheduled(LanesOf(p, tick, order), p.options, tick, r) && Announced(r.lanes.flight)
    ensures var t := Took(p, r.lanes);
      && Kept(t) && t.laneBytes <= p.laneBytes
      && t.send.ledger.buffered - t.laneBytes == p.send.ledger.buffered - p.laneBytes
  {
    hide Balanced, Held, Total, Flown, WithinBudget, WorkConserving, Sorted, TickFrom, Announced, Reserved, Through,
      FragmentsReliable;
    var s0 := LanesOf(p, tick, order);
    ScheduledHolds(p, tick, order, r);
    ScheduledCounts(s0, p.options, tick, r);
    SuffixReliable(p.send.queue.packets, Through(r.out, 2), r.lanes.packets);
    HeldIgnoresBytes(p.send, p.laneBytes);
    HeldIgnoresBytes(Took(p, r.lanes).send, r.lanes.unreliableBytes);
  }

  lemma HeldIgnoresBytes(s: SendState, bytes: int)
    ensures Held(Without(s, bytes)) == Held(s)
  {
  }

  lemma {:induction false} PumpKeepsCount(q: Pump, mtu: u16, tick: int, n: nat)
    requires forall i | 0 <= i < |q.queue.packets| :: q.queue.packets[i].frame.IsReliable()
    requires Announced(q.flight)
    ensures PumpAll(q, mtu, tick, n).queue.unreliable == q.queue.unreliable
      && Announced(PumpAll(q, mtu, tick, n).flight)
    decreases n
  {
    hide Packable, Wrap, Later;
    if n > 0 && !PumpStops(q) {
      PumpKeepsCount(PumpStep(q, mtu, tick), mtu, tick, n - 1);
    }
  }

  lemma ResentAnnounces(f: Flight, tick: int)
    requires Announced(f)
    ensures Announced(ResendPending(f, tick).0)
  {
    hide ResendFrom;
    ResendFromExact(f, [], tick, 0);
  }

  lemma LegacyKeeps(p: Policed, tick: int, order: seq<nat>)
    requires Kept(p) && p.lane == [] && Sorts(Tick(p.send.flight, tick).items, order)
    ensures Kept(p.(send := Flush(p.send, tick, order).state))
  {
    hide Balanced, Held, Total, Sorted, Tick, ResendPending, PumpAll, FragmentsReliable;
    assert Alone(p) == p.send;
    FlushLedgered(p.send, tick, order);
    var f := Tick(p.send.flight, tick);
    TickAnnounces(p.send.flight, tick);
    if f.dirty {
      SortAnnounces(f, order);
    }
    ResentAnnounces(Arrange(f, order), tick);
    LooseExact(p.send.queue.packets);
    var (g, out) := ResendPending(Arrange(f, order), tick);
    PumpKeepsCount(StartPump(p.send, g, out), p.send.mtu, tick, |p.send.queue.packets|);
    BalanceNonNegative(Held(p.send), p.send.ledger);
  }

  /** The scheduler can always run: every state with exact counters meets what it needs. */
  method FlushPoliced(p: Policed, tick: int) returns (t: Policed, r: Burst, ghost order: seq<nat>)
    requires Kept(p) && p.send.mtu > 0 && !(p.useLegacy && p.lane == [])
    ensures FlushesTo(p, tick, order, r, t)
  {
    hide Scheduled, Ledgered, Tick;
    ghost var start;
    r, start, order := FlushScheduled(
      Lanes(p.send.flight, p.send.queue.packets, p.lane, p.send.ledger.buffered, p.laneBytes, p.nextLane),
      p.options, p.send.mtu, tick);
    t := Took(p, r.lanes);
  }

  // ---------------------------------------------------------------------
  // Whole runs.

  datatype Step =
    | Send(mode: Reliability, messages: seq<seq<byte>>, channel: byte)
    | Insert(mode: Reliability, data: seq<byte>, channel: byte)
    | Acked(ranges: seq<Range>, at: int)
    | Nacked(ranges: seq<Range>, at: int)
    | Flushing(at: int, order: seq<nat>, burst: Burst)

  /**
   A batch goes in only when the queue grants it. Control replies and the
   notice of closing are inserted without asking.
   */
  ghost predicate StepsTo(p: Policed, step: Step, t: Policed) {
    match step
    case Send(mode, messages, channel) =>
      Kept(p) && BatchGranted(p, mode, messages) == Ok(true) && t == OfferAll(p, mode, messages, channel).0
    case Insert(mode, data, channel) => t == Offer(p, mode, data, channel).0
    case Acked(ranges, at) => t == p.(send := AckRanges(p.send, ranges, at))
    case Nacked(ranges, at) => t == p.(send := p.send.(flight := NackRanges(p.send.flight, ranges, at)))
    case Flushing(at, order, burst) => FlushesTo(p, at, order, burst, t)
  }

  ghost predicate PolicyRun(states: seq<Policed>, steps: seq<Step>) {
    && |states| == |steps| + 1
    && forall n | 0 <= n < |steps| :: StepsTo(states[n], steps[n], states[n + 1])
  }

  /** By how much the reliable frames reach into the unreliable reserve; at most zero while it is free. */
  function Reach(p: Policed): int {
    p.send.ledger.buffered - p.laneBytes + p.options.unreliableQueueBytes - MAX_BUFFERED
  }

  /** Bytes a step inserts reliably without asking. */
  function Forced(p: Policed, step: Step): nat {
    if step.Insert? && ModeReliable(step.mode) && Offer(p, step.mode, step.data, step.channel).1.Ok?
    then |step.data| + FRAME_BUDGET * FramesOf(p.send.mtu, step.mode, |step.data|) else 0
  }

  function FramesOf(mtu: u16, mode: Reliability, length: nat): nat {
    if mtu > 60 && Splits(mtu, mode, length) then DivCeil(length, mtu - 60) else 1
  }

  function ForcedBefore(states: seq<Policed>, steps: seq<Step>, n: nat): nat
    requires n <= |steps| && |states| == |steps| + 1
  {
    if n == 0 then 0 else ForcedBefore(states, steps, n - 1) + Forced(states[n - 1], steps[n - 1])
  }

  lemma LegacyReleases(p: Policed, tick: int, order: seq<nat>)
    requires Kept(p) && p.lane == [] && Sorts(Tick(p.send.flight, tick).items, order)
    ensures Flush(p.send, tick, order).state.ledger.buffered == p.send.ledger.buffered
  {
    hide Total, Balanced, Sorted, Tick, ResendPending, PumpAll;
    LooseExact(p.send.queue.packets);
    var (g, out) := ResendPending(Arrange(Tick(p.send.flight, tick), order), tick);
    PumpKeepsBytes(StartPump(p.send, g, out), p.send.mtu, tick, |p.send.queue.packets|);
  }

  lemma {:induction false} PumpKeepsBytes(q: Pump, mtu: u16, tick: int, n: nat)
    requires forall i | 0 <= i < |q.queue.packets| :: q.queue.packets[i].frame.IsReliable()
    ensures PumpAll(q, mtu, tick, n).buffered == q.buffered
    decreases n
  {
    hide Packable, Wrap, Later;
    if n > 0 && !PumpStops(q) {
      PumpKeepsBytes(PumpStep(q, mtu, tick), mtu, tick, n - 1);
    }
  }

  /** An insertion that does not ask reaches into the reserve by exactly what it inserts reliably. */
  lemma InsertReaches(p: Policed, mode: Reliability, data: seq<byte>, channel: byte)
    requires Kept(p)
    ensures var t := Offer(p, mode, data, channel).0;
      Kept(t) && t.options == p.options && Reach(t) == Reach(p) + Forced(p, Insert(mode, data, channel))
  {
    hide Kept, Offer, DivCeil;
    OfferBooks(p, mode, data, channel);
  }

  lemma SendReaches(p: Policed, mode: Reliability, messages: seq<seq<byte>>, channel: byte)
    requires Kept(p) && BatchGranted(p, mode, messages) == Ok(true)
    ensures var t := OfferAll(p, mode, messages, channel).0;
      Kept(t) && t.options == p.options && Reach(t) <= Max(Reach(p), 0)
  {
    hide Kept, OfferAll, BatchGranted;
    PolicedBatchFits(p, mode, messages, channel);
  }

  lemma FlushReaches(p: Policed, tick: int, order: seq<nat>, r: Burst, t: Policed)
    requires Kept(p) && FlushesTo(p, tick, order, r, t)
    ensures Kept(t) && t.options == p.options && Reach(t) == Reach(p)
  {
    hide Kept, Flush, Scheduled, Sorts, Tick, Announced;
    if p.useLegacy && p.lane == [] {
      LegacyKeeps(p, tick, order);
      LegacyReleases(p, tick, order);
    } else {
      ScheduledKeeps(p, tick, order, r);
    }
  }

  /** Only insertions that do not ask take anything from the reserve. */
  lemma StepReaches(p: Policed, step: Step, t: Policed)
    requires Kept(p) && StepsTo(p, step, t)
    ensures Kept(t) && t.options == p.options && Reach(t) <= Max(Reach(p), 0) + Forced(p, step)
  {
    hide Kept, AckRanges, NackRanges, OfferAll, Offer, FlushesTo, BatchGranted;
    match step
    case Send(mode, messages, channel) => SendReaches(p, mode, messages, channel);
    case Insert(mode, data, channel) => InsertReaches(p, mode, data, channel);
    case Acked(ranges, at) => AckKeeps(p, ranges, at);
    case Nacked(ranges, at) => NackKeeps(p, ranges, at);
    case Flushing(at, order, burst) => FlushReaches(p, at, order, burst, t);
  }

  lemma {:induction false} RunReaches(states: seq<Policed>, steps: seq<Step>, n: nat)
    requires PolicyRun(states, steps) && n < |states| && Kept(states[0]) && Reach(states[0]) <= 0
    ensures Kept(states[n]) && states[n].options == states[0].options
      && Reach(states[n]) <= ForcedBefore(states, steps, n)
    decreases n
  {
    hide StepsTo, Kept, Reach, Forced;
    if n > 0 {
      RunReaches(states, steps, n - 1);
      StepReaches(states[n - 1], steps[n - 1], states[n]);
    }
  }

  /** Unreliable messages are granted exactly when their lane has room. */
  ghost predicate LaneDecides(p: Policed, mode: Reliability)
    requires Kept(p)
  {
    KeptLoad(p);
    forall required: nat ::
      HasReservedCapacity(LoadOf(p), Some(p.options), mode, required) == Ok(true)
      <==> Reserved(p.lane) + required <= p.options.unreliableQueueBytes
  }

  /** The lane alone decides if and only if the reserve is free, or the lane is over its budget anyway. */
  lemma LaneDecidesExactly(p: Policed, mode: Reliability)
    requires Kept(p) && !ModeReliable(mode)
    ensures LaneDecides(p, mode) <==> Reach(p) <= 0 || Reserved(p.lane) > p.options.unreliableQueueBytes
  {
    KeptLoad(p);
    hide Ledgered, Reserved, Announced;
    var room := p.options.unreliableQueueBytes - Reserved(p.lane);
    if LaneDecides(p, mode) && room >= 0 {
      assert HasReservedCapacity(LoadOf(p), Some(p.options), mode, room) == Ok(true)
        <==> Reserved(p.lane) + room <= p.options.unreliableQueueBytes;
    }
  }

  /**
   In every run of a policed queue both counters stay exact. A granted
   unreliable message has room in its lane. One with room there is granted, up
   to the bytes inserted reliably without asking: admitted traffic can never be
   the reason for a refusal.
   */
  lemma ReserveOverRuns(states: seq<Policed>, steps: seq<Step>, n: nat, mode: Reliability, required: nat)
    requires PolicyRun(states, steps) && n < |states| && Kept(states[0]) && Reach(states[0]) <= 0 && !ModeReliable(mode)
    ensures var p := states[n]; var forced := ForcedBefore(states, steps, n);
      && Kept(p) && LoadOf(p).Valid() && Reach(p) <= forced
      && var granted := HasReservedCapacity(LoadOf(p), Some(p.options), mode, required) == Ok(true);
         && (granted ==> Reserved(p.lane) + required <= p.options.unreliableQueueBytes)
         && (Reserved(p.lane) + required + forced <= p.options.unreliableQueueBytes ==> granted)
  {
    hide PolicyRun, Ledgered, Reserved, Announced, ForcedBefore;
    RunReaches(states, steps, n);
    KeptLoad(states[n]);
  }

  /** A fresh queue under any policy starts with the whole reserve free. */
  lemma FreshReserves(mtu: u16, o: SendOptions)
    requires o.Valid() && Configure(NewSender(mtu), o).Ok?
    ensures var p := Configure(NewSender(mtu), o).value;
      Kept(p) && Reach(p) <= 0 && Recorded(p.send, [])
  {
    NewIsLedgered(mtu);
    NewIsRecorded(mtu);
    ConfigureKeeps(NewSender(mtu), o);
  }

  /** A policy that leaves reliable traffic one small batch. */
  const TIGHT: SendOptions :=
    DefaultOptions().(reliableQueueBytes := 2048, unreliableQueueBytes := MAX_BYTES - 2048)

  lemma TwoMessages(message: seq<byte>)
    requires |message| == 896
    ensures BatchBytes(1492, ReliableOrdered, Lengths([message, message])) == Ok(2048)
    ensures Fits(1492, ReliableOrdered, [message, message])
  {
    var lengths := Lengths([message, message]);
    assert lengths == [896, 896] && lengths[..1] == [896] && lengths[..1][..0] == [];
    assert BatchBytes(1492, ReliableOrdered, [896]) == Ok(1024);
  }

  /**
   The reserve is not kept from insertions that do not ask: a granted batch
   fills the reliable budget, the notice of closing follows, and then an
   unreliable message that fits its lane is refused.
   */
  lemma ForcedEatsReserve(message: seq<byte>, notice: byte) returns (states: seq<Policed>, steps: seq<Step>)
    requires |message| == 896
    ensures |states| == 3 && Configure(NewSender(1492), TIGHT) == Ok(states[0]) && PolicyRun(states, steps)
    ensures steps == [Send(ReliableOrdered, [message, message], 0), Insert(Reliable, [notice], 0)]
    ensures Kept(states[2]) && !LaneDecides(states[2], Unreliable)
  {
    hide Kept, Offer, OfferAll, BatchBytes, LaneDecides, Reserved;
    var p := Configure(NewSender(1492), TIGHT).value;
    FreshReserves(1492, TIGHT);
    KeptLoad(p);
    TwoMessages(message);
    var t := OfferAll(p, ReliableOrdered, [message, message], 0).0;
    PolicedBatchFits(p, ReliableOrdered, [message, message], 0);
    var u := Offer(t, Reliable, [notice], 0).0;
    OfferBooks(t, Reliable, [notice], 0);
    states, steps := [p, t, u], [Send(ReliableOrdered, [message, message], 0), Insert(Reliable, [notice], 0)];
    KeptLane(u);
    LaneDecidesExactly(u, Unreliable);
  }

  lemma KeptLane(p: Policed)
    requires Kept(p)
    ensures p.laneBytes == Reserved(p.lane)
  {
  }

  // ---------------------------------------------------------------------
  // What the reliable part of the counter is.

  /** Cut payloads after a batch. */
  ghost function CutsOffered(
    p: Policed, mode: Reliability, messages: seq<seq<byte>>, channel: byte, cuts: seq<seq<byte>>): seq<seq<byte>>
  {
    if messages == [] then cuts
    else
      var front, last := messages[..|messages| - 1], messages[|messages| - 1];
      var (t, r) := OfferAll(p, mode, front, channel);
      var cuts1 := CutsOffered(p, mode, front, channel, cuts);
      if r.Err? then cuts1 else CutBy(t.send, mode, last, channel, cuts1)
  }

  ghost function CutsBefore(states: seq<Policed>, steps: seq<Step>, n: nat, cuts: seq<seq<byte>>): seq<seq<byte>>
    requires n <= |steps| && |states| == |steps| + 1
  {
    if n == 0 then cuts
    else
      var before := CutsBefore(states, steps, n - 1, cuts);
      match steps[n - 1]
      case Send(mode, messages, channel) => CutsOffered(states[n - 1], mode, messages, channel, before)
      case Insert(mode, data, channel) => CutBy(states[n - 1].send, mode, data, channel, before)
      case _ => before
  }

  lemma OfferRecords(p: Policed, mode: Reliability, data: seq<byte>, channel: byte, cuts: seq<seq<byte>>)
    requires Recorded(p.send, cuts)
    ensures Recorded(Offer(p, mode, data, channel).0.send, CutBy(p.send, mode, data, channel, cuts))
  {
    hide Enqueue;
    EnqueueRecords(p.send, mode, data, channel, cuts);
    if Enqueue(p.send, mode, data, channel).1.Err? {
      assert CutBy(p.send, mode, data, channel, cuts) == cuts;
    }
  }

  lemma {:induction false} OfferAllRecords(
    p: Policed, mode: Reliability, messages: seq<seq<byte>>, channel: byte, cuts: seq<seq<byte>>)
    requires Recorded(p.send, cuts)
    ensures Recorded(OfferAll(p, mode, messages, channel).0.send, CutsOffered(p, mode, messages, channel, cuts))
    decreases |messages|
  {
    hide Recorded, Offer, CutBy;
    if messages != [] {
      var front, last := messages[..|messages| - 1], messages[|messages| - 1];
      OfferAllRecords(p, mode, front, channel, cuts);
      var (t, r) := OfferAll(p, mode, front, channel);
      if r.Ok? {
        OfferRecords(t, mode, last, channel, CutsOffered(p, mode, front, channel, cuts));
      }
    }
  }

  lemma ThinnedRecords(s: SendState, t: SendState, cuts: seq<seq<byte>>)
    requires Recorded(s, cuts) && Thinned(s.ledger.shared, t.ledger.shared) && t.counters == s.counters
    ensures Recorded(t, cuts)
  {
  }

  lemma AckThins(p: Policed, ranges: seq<Range>, tick: int)
    requires Kept(p)
    ensures var t := AckRanges(p.send, ranges, tick);
      Thinned(p.send.ledger.shared, t.ledger.shared) && t.counters == p.send.counters
  {
    hide AckRanges, Ledgered;
    AckWithout(p.send, p.laneBytes, ranges, tick);
    AckLedgered(Alone(p), ranges, tick);
  }

  lemma FlushRecords(p: Policed, tick: int, order: seq<nat>, r: Burst, t: Policed, cuts: seq<seq<byte>>)
    requires FlushesTo(p, tick, order, r, t) && Recorded(p.send, cuts)
    ensures Recorded(t.send, cuts)
  {
    hide Scheduled, Sorts, Tick, Announced, PumpAll, ResendPending, Arrange;
  }

  lemma {:induction false} RunRecords(states: seq<Policed>, steps: seq<Step>, n: nat, cuts: seq<seq<byte>>)
    requires PolicyRun(states, steps) && n < |states| && Kept(states[0]) && Recorded(states[0].send, cuts)
    ensures Kept(states[n]) && Recorded(states[n].send, CutsBefore(states, steps, n, cuts))
    decreases n
  {
    hide Kept, Recorded, AckRanges, NackRanges, OfferAll, Offer, FlushesTo, BatchGranted, CutBy, CutsOffered;
    if n > 0 {
      RunRecords(states, steps, n - 1, cuts);
      var p, step, t := states[n - 1], steps[n - 1], states[n];
      assert StepsTo(p, step, t);
      StepReaches(p, step, t);
      var before := CutsBefore(states, steps, n - 1, cuts);
      match step
      case Send(mode, messages, channel) => OfferAllRecords(p, mode, messages, channel, before);
      case Insert(mode, data, channel) => OfferRecords(p, mode, data, channel, before);
      case Acked(ranges, at) =>
        AckThins(p, ranges, at);
        ThinnedRecords(p.send, t.send, before);
      case Nacked(ranges, at) => ThinnedRecords(p.send, t.send, before);
      case Flushing(at, order, burst) => FlushRecords(p, at, order, burst, t, before);
    }
  }

  /** In every run the counter is what the reliable frames cost plus what the lane's frames reserve. */
  lemma CountersOverRuns(states: seq<Policed>, steps: seq<Step>, n: nat, cuts: seq<seq<byte>>)
    requires PolicyRun(states, steps) && n < |states| && Kept(states[0]) && Recorded(states[0].send, cuts)
    ensures var p := states[n];
      p.send.ledger.buffered
        == Owed(Held(p.send), CutsBefore(states, steps, n, cuts)) + Reserved(p.lane) <= MAX_BUFFERED
  {
    hide StepsTo, Owed, Balanced, Held, Reserved, Announced, CutsBefore;
    RunRecords(states, steps, n, cuts);
    var p := states[n];
    HeldIgnoresBytes(p.send, p.laneBytes);
    RecordedIsOwed(Held(p.send), Alone(p).ledger, CutsBefore(states, steps, n, cuts));
  }
}
