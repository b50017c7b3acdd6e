/** The byte-budgeted flush over three lanes: unreliable frames, retries, new reliable frames. */
module Scheduler {
  import opened Bytes
  import opened Errors
  import opened Frames
  import opened Renumber
  import opened Sender
  import opened SendOptions
  import opened SendQueue
  import opened Serial

  /** What a scheduled flush works on. */
  datatype Lanes = Lanes(
    flight: Flight, packets: seq<Packet>, unreliable: seq<Packet>,
    buffered: int, unreliableBytes: int, nextLane: nat)

  /** A frame on its way out, with the lane it came from. */
  datatype Sent = Sent(lane: nat, out: Outgoing)

  // ---------------------------------------------------------------------
  // Measures.

  function Charge(out: seq<Sent>): nat {
    if out == [] then 0 else Charge(out[..|out| - 1]) + out[|out| - 1].out.packet.frame.Size()
  }

  /** The packets that left through a lane, in order. */
  function Through(out: seq<Sent>, lane: nat): seq<Packet> {
    if out == [] then []
    else
      var front, last := Through(out[..|out| - 1], lane), out[|out| - 1];
      if last.lane == lane then front + [last.out.packet] else front
  }

  function FlightBytes(items: seq<Item>): nat {
    if items == [] then 0 else FlightBytes(items[..|items| - 1]) + items[|items| - 1].packet.frame.Size()
  }

  /** Reserved bytes of unreliable frames. */
  function Reserved(packets: seq<Packet>): nat {
    if packets == [] then 0 else Reserved(packets[..|packets| - 1]) + |packets[|packets| - 1].frame.data| + FRAME_BUDGET
  }

  /** Packets waiting to be sent again among the first `n` items. */
  function WaitingBelow(items: seq<Item>, n: nat): seq<Packet>
    requires n <= |items|
  {
    if n == 0 then [] else WaitingBelow(items, n - 1) + if items[n - 1].sent then [] else [items[n - 1].packet]
  }

  // ---------------------------------------------------------------------
  // One lane's next frame.

  function SkipSent(items: seq<Item>, cursor: nat): (c: nat)
    requires cursor <= |items|
    ensures cursor <= c <= |items| && (c < |items| ==> !items[c].sent)
    ensures forall i | cursor <= i < c :: items[i].sent
    decreases |items| - cursor
  {
    if cursor < |items| && items[cursor].sent then SkipSent(items, cursor + 1) else cursor
  }

  /** Room for one more reliable frame of a size. */
  predicate HasRoom(s: Lanes, o: SendOptions, size: nat, flightBytes: nat) {
    |s.flight.items| < o.inFlightFrames && flightBytes + size <= o.inFlightBytes
  }

  /** Encoded size of the frame a lane would send next, if it can send one. */
  function Head(s: Lanes, o: SendOptions, lane: nat, cursor: nat, flightBytes: nat): Option<nat>
    requires cursor <= |s.flight.items|
  {
    if lane == 0 then
      if s.unreliable == [] then None else Some(s.unreliable[0].frame.Size())
    else if lane == 1 then
      if s.flight.retriesPending && cursor < |s.flight.items| then Some(s.flight.items[cursor].packet.frame.Size())
        else None
    else if s.packets == [] || !HasRoom(s, o, s.packets[0].frame.Size(), flightBytes) then None
    else Some(s.packets[0].frame.Size())
  }

  // ---------------------------------------------------------------------
  // Taking it.

  function TakeUnreliable(s: Lanes): (Lanes, Outgoing)
    requires s.unreliable != []
  {
    var p := s.unreliable[0];
    var reserved := |p.frame.data| + FRAME_BUDGET;
    (s.(unreliable := s.unreliable[1..], flight := s.flight.(sequence := s.flight.sequence + 1),
        buffered := s.buffered - reserved, unreliableBytes := s.unreliableBytes - reserved),
     Outgoing(p, s.flight.sequence))
  }

  function TakeRetry(s: Lanes, cursor: nat, tick: int): (Lanes, Outgoing)
    requires cursor < |s.flight.items|
  {
    var item := Resend(s.flight.items[cursor], tick);
    (s.(flight := s.flight.(items := s.flight.items[cursor := item],
                            nextRetry :=
                              Min(s.flight.nextRetry, Later(tick, RetryTimeout(s.flight.rto, item.retries))))),
     Outgoing(item.packet, item.id))
  }

  predicate JoinsBundle(s: Lanes, b: Bundle, p: Packet, mtu: u16) {
    && s.flight.coalesce && Packable(p) && b.number.Some? && b.frames < MAX_COALESCED
    && b.bytes + p.frame.Size() - 4 <= Max(mtu - 28, 0)
  }

  function NextBundle(s: Lanes, b: Bundle, p: Packet, mtu: u16): Bundle {
    if JoinsBundle(s, b, p, mtu) then Bundle(b.number, b.bytes + p.frame.Size() - 4, b.frames + 1)
    else Bundle(if s.flight.coalesce && Packable(p) then Some(s.flight.sequence) else None, p.frame.Size(), 1)
  }

  function TakeReliable(s: Lanes, b: Bundle, mtu: u16, tick: int): (Lanes, Outgoing)
    requires s.packets != []
  {
    var p, f := s.packets[0], s.flight;
    var joins := JoinsBundle(s, b, p, mtu);
    var id := if joins then b.number.value else f.sequence;
    (s.(packets := s.packets[1..],
        flight := f.(items := f.items + [Item(p, id, true, tick, 0, [])],
                     sequence := if joins then f.sequence else f.sequence + 1,
                     grouped := f.grouped || joins,
                     dirty := f.dirty || (f.items != [] && Wrap(f.items[|f.items| - 1].id) > Wrap(id)),
                     nextRetry := Min(f.nextRetry, Later(tick, f.rto)))),
     Outgoing(p, id))
  }

  // ---------------------------------------------------------------------
  // What the flush keeps while it runs.

  /** Frames leave their lanes in order and none is lost. */
  ghost predicate Conserved(s0: Lanes, s: Lanes, out: seq<Sent>) {
    && s0.unreliable == Through(out, 0) + s.unreliable
    && s0.packets == Through(out, 2) + s.packets
    && s.buffered == s0.buffered - Reserved(Through(out, 0))
    && s.unreliableBytes == s0.unreliableBytes - Reserved(Through(out, 0))
  }

  /** The flight: old items below the cursor have been sent, then the new ones follow. */
  ghost predicate Flown(s0: Lanes, s: Lanes, out: seq<Sent>, cursor: nat, tick: int) {
    var n, items := |s0.flight.items|, s.flight.items;
    && |items| == n + |Through(out, 2)| && cursor <= |items|
    && (forall i | 0 <= i < n ::
          items[i] == if i < cursor && !s0.flight.items[i].sent then Resend(s0.flight.items[i], tick)
            else s0.flight.items[i])
    && (forall i | n <= i < |items| :: items[i].sent && items[i].packet == Through(out, 2)[i - n])
    && Through(out, 1) == WaitingBelow(s0.flight.items, Min(cursor, n))
  }

  ghost predicate WithinBudget(s: Lanes, o: SendOptions, out: seq<Sent>, bytes: nat, flightBytes: nat) {
    && bytes == Charge(out) <= o.flushBytes
    && flightBytes == FlightBytes(s.flight.items)
    && (Through(out, 2) != [] ==> |s.flight.items| <= o.inFlightFrames && flightBytes <= o.inFlightBytes)
  }

  lemma SnocMeasures(out: seq<Sent>, x: Sent)
    ensures Charge(out + [x]) == Charge(out) + x.out.packet.frame.Size()
    ensures forall lane: nat ::
      Through(out + [x], lane) == Through(out, lane) + if x.lane == lane then [x.out.packet] else []
  {
    assert (out + [x])[..|out|] == out;
  }

  lemma ReservedSnoc(packets: seq<Packet>, p: Packet)
    ensures Reserved(packets + [p]) == Reserved(packets) + |p.frame.data| + FRAME_BUDGET
  {
    assert (packets + [p])[..|packets|] == packets;
  }

  lemma FlightSnoc(items: seq<Item>, item: Item)
    ensures FlightBytes(items + [item]) == FlightBytes(items) + item.packet.frame.Size()
  {
    assert (items + [item])[..|items|] == items;
  }

  lemma {:induction false} FlightSame(a: seq<Item>, b: seq<Item>)
    requires |a| == |b| && forall i | 0 <= i < |a| :: a[i].packet == b[i].packet
    ensures FlightBytes(a) == FlightBytes(b)
    decreases |a|
  {
    if a != [] {
      FlightSame(a[..|a| - 1], b[..|b| - 1]);
    }
  }

  lemma {:induction false} WaitingSkips(items: seq<Item>, a: nat, b: nat)
    requires a <= b <= |items| && forall i | a <= i < b :: items[i].sent
    ensures WaitingBelow(items, a) == WaitingBelow(items, b)
    decreases b - a
  {
    if a < b {
      WaitingSkips(items, a, b - 1);
    }
  }

  /** Moving the cursor over sent items changes nothing. */
  lemma SkipFlown(s0: Lanes, s: Lanes, out: seq<Sent>, cursor: nat, tick: int)
    requires Flown(s0, s, out, cursor, tick)
    ensures Flown(s0, s, out, SkipSent(s.flight.items, cursor), tick)
  {
    hide Through, WaitingBelow;
    var c, n := SkipSent(s.flight.items, cursor), |s0.flight.items|;
    forall i | cursor <= i < c && i < n ensures s0.flight.items[i].sent {
      assert s.flight.items[i].sent;
    }
    WaitingSkips(s0.flight.items, Min(cursor, n), Min(c, n));
  }

  lemma UnreliableTaken(s0: Lanes, s: Lanes, o: SendOptions, out: seq<Sent>, cursor: nat, tick: int, bytes: nat,
      flightBytes: nat)
    requires Conserved(s0, s, out) && Flown(s0, s, out, cursor, tick) && WithinBudget(s, o, out, bytes, flightBytes)
    requires s.unreliable != [] && bytes + s.unreliable[0].frame.Size() <= o.flushBytes
    ensures var (t, x) := TakeUnreliable(s); var out' := out + [Sent(0, x)];
      Conserved(s0, t, out') && Flown(s0, t, out', cursor, tick)
      && WithinBudget(t, o, out', bytes + s.unreliable[0].frame.Size(), flightBytes)
  {
    hide Charge, Through, FlightBytes, Reserved, WaitingBelow;
    var (t, x) := TakeUnreliable(s);
    SnocMeasures(out, Sent(0, x));
    ReservedSnoc(Through(out, 0), x.packet);
    assert s.unreliable == [s.unreliable[0]] + s.unreliable[1..];
    assert Through(out, 1) + [] == Through(out, 1) && Through(out, 2) + [] == Through(out, 2);
  }

  lemma RetryTaken(s0: Lanes, s: Lanes, o: SendOptions, out: seq<Sent>, cursor: nat, tick: int, bytes: nat,
      flightBytes: nat)
    requires Conserved(s0, s, out) && Flown(s0, s, out, cursor, tick) && WithinBudget(s, o, out, bytes, flightBytes)
    requires cursor < |s.flight.items| && !s.flight.items[cursor].sent
    requires bytes + s.flight.items[cursor].packet.frame.Size() <= o.flushBytes
    ensures var (t, x) := TakeRetry(s, cursor, tick); var out' := out + [Sent(1, x)];
      Conserved(s0, t, out') && Flown(s0, t, out', cursor + 1, tick)
      && WithinBudget(t, o, out', bytes + s.flight.items[cursor].packet.frame.Size(), flightBytes)
  {
    hide Charge, Through, FlightBytes, Reserved, RetryTimeout, Later;
    var (t, x) := TakeRetry(s, cursor, tick);
    SnocMeasures(out, Sent(1, x));
    FlightSame(s.flight.items, t.flight.items);
    assert Through(out, 0) + [] == Through(out, 0) && Through(out, 2) + [] == Through(out, 2);
    assert cursor < |s0.flight.items|;
  }

  lemma ReliableTaken(s0: Lanes, s: Lanes, o: SendOptions, b: Bundle, out: seq<Sent>, cursor: nat, mtu: u16, tick: int,
      bytes: nat, flightBytes: nat)
    requires Conserved(s0, s, out) && Flown(s0, s, out, cursor, tick) && WithinBudget(s, o, out, bytes, flightBytes)
    requires s.packets != [] && HasRoom(s, o, s.packets[0].frame.Size(), flightBytes)
    requires bytes + s.packets[0].frame.Size() <= o.flushBytes
    ensures var size := s.packets[0].frame.Size(); var (t, x) := TakeReliable(s, b, mtu, tick);
      var out' := out + [Sent(2, x)];
      Conserved(s0, t, out') && Flown(s0, t, out', cursor, tick)
        && WithinBudget(t, o, out', bytes + size, flightBytes + size)
  {
    hide Charge, Through, FlightBytes, Reserved, WaitingBelow, JoinsBundle, Wrap, Later;
    var (t, x) := TakeReliable(s, b, mtu, tick);
    SnocMeasures(out, Sent(2, x));
    FlightSnoc(s.flight.items, t.flight.items[|s.flight.items|]);
    assert s.packets == [s.packets[0]] + s.packets[1..];
    assert Through(out, 0) + [] == Through(out, 0) && Through(out, 1) + [] == Through(out, 1);
  }

  // ---------------------------------------------------------------------
  // The flush.

  /** One flush under way: the queues, what has left, and the loop's counters. */
  datatype Burst = Burst(lanes: Lanes, out: seq<Sent>, cursor: nat, bytes: nat, flightBytes: nat, bundle: Bundle)

  ghost predicate Sound(s0: Lanes, o: SendOptions, tick: int, r: Burst) {
    && Conserved(s0, r.lanes, r.out)
    && Flown(s0, r.lanes, r.out, r.cursor, tick)
    && WithinBudget(r.lanes, o, r.out, r.bytes, r.flightBytes)
    && r.cursor <= |r.lanes.flight.items|
    && AllSentBelow(r.lanes.flight.items, r.cursor)
    && Announced(r.lanes.flight)
  }

  /** A waiting item has set the retry flag. */
  ghost predicate Announced(f: Flight) {
    forall i | 0 <= i < |f.items| && !f.items[i].sent :: f.retriesPending
  }

  ghost predicate AllSentBelow(items: seq<Item>, n: nat) {
    n <= |items| && forall i | 0 <= i < n :: items[i].sent
  }

  /** Frames that can still leave. */
  function Left(r: Burst): nat
    requires r.cursor <= |r.lanes.flight.items|
  {
    |r.lanes.unreliable| + 2 * |r.lanes.packets| + |r.lanes.flight.items| - r.cursor
  }

  /** Before the retry lane looks, the cursor passes what has been sent. */
  function Skipped(r: Burst, lane: nat): Burst
    requires r.cursor <= |r.lanes.flight.items|
  {
    if lane == 1 then r.(cursor := SkipSent(r.lanes.flight.items, r.cursor)) else r
  }

  /** Send the head of a lane. */
  function Serve(r: Burst, o: SendOptions, lane: nat, mtu: u16, tick: int): Burst
    requires lane < 3 && r.cursor <= |r.lanes.flight.items| && Head(r.lanes, o, lane, r.cursor, r.flightBytes).Some?
  {
    var s, size := r.lanes, Head(r.lanes, o, lane, r.cursor, r.flightBytes).value;
    var next := (lane + 1) % 3;
    if lane == 0 then
      var (t, x) := TakeUnreliable(s);
      Burst(t.(nextLane := next), r.out + [Sent(0, x)], r.cursor, r.bytes + size, r.flightBytes,
        r.bundle.(number := None))
    else if lane == 1 then
      var (t, x) := TakeRetry(s, r.cursor, tick);
      Burst(t.(nextLane := next), r.out + [Sent(1, x)], r.cursor + 1, r.bytes + size, r.flightBytes,
        r.bundle.(number := None))
    else
      var (t, x) := TakeReliable(s, r.bundle, mtu, tick);
      Burst(t.(nextLane := next), r.out + [Sent(2, x)], r.cursor, r.bytes + size, r.flightBytes + size,
            NextBundle(s, r.bundle, s.packets[0], mtu))
  }

  lemma SkipKeeps(s0: Lanes, o: SendOptions, tick: int, r: Burst, lane: nat)
    requires Sound(s0, o, tick, r)
    ensures Sound(s0, o, tick, Skipped(r, lane)) && Left(Skipped(r, lane)) <= Left(r)
  {
    hide Conserved, WithinBudget, Flown;
    SkipFlown(s0, r.lanes, r.out, r.cursor, tick);
  }

  /** The next lane to start with is nobody's business but the scheduler's. */
  lemma LaneIgnored(s0: Lanes, o: SendOptions, tick: int, s: Lanes, out: seq<Sent>, cursor: nat, bytes: nat,
      flightBytes: nat, next: nat)
    requires Conserved(s0, s, out) && Flown(s0, s, out, cursor, tick) && WithinBudget(s, o, out, bytes, flightBytes)
    ensures var t := s.(nextLane := next);
      Conserved(s0, t, out) && Flown(s0, t, out, cursor, tick) && WithinBudget(t, o, out, bytes, flightBytes)
  {
    hide Charge, Through, FlightBytes, Reserved, WaitingBelow;
  }

  lemma ServeKeeps(s0: Lanes, o: SendOptions, mtu: u16, tick: int, r: Burst, lane: nat)
    requires lane < 3 && Sound(s0, o, tick, r) && (lane == 1 ==> r.cursor == SkipSent(r.lanes.flight.items, r.cursor))
    requires var head := Head(r.lanes, o, lane, r.cursor, r.flightBytes);
      head.Some? && r.bytes + head.value <= o.flushBytes
    ensures var t := Serve(r, o, lane, mtu, tick);
      Sound(s0, o, tick, t) && Left(t) < Left(r) && r.bytes < t.bytes <= o.flushBytes
  {
    hide Conserved, WithinBudget, Flown, RetryTimeout, JoinsBundle, Wrap, Later;
    var s, next := r.lanes, (lane + 1) % 3;
    if lane == 0 {
      UnreliableTaken(s0, s, o, r.out, r.cursor, tick, r.bytes, r.flightBytes);
      var (t, x) := TakeUnreliable(s);
      LaneIgnored(s0, o, tick, t, r.out + [Sent(0, x)], r.cursor, r.bytes + s.unreliable[0].frame.Size(),
        r.flightBytes, next);
    } else if lane == 1 {
      RetryTaken(s0, s, o, r.out, r.cursor, tick, r.bytes, r.flightBytes);
      var (t, x) := TakeRetry(s, r.cursor, tick);
      LaneIgnored(s0, o, tick, t, r.out + [Sent(1, x)], r.cursor + 1,
        r.bytes + s.flight.items[r.cursor].packet.frame.Size(), r.flightBytes, next);
    } else {
      var size := s.packets[0].frame.Size();
      ReliableTaken(s0, s, o, r.bundle, r.out, r.cursor, mtu, tick, r.bytes, r.flightBytes);
      var (t, x) := TakeReliable(s, r.bundle, mtu, tick);
      LaneIgnored(s0, o, tick, t, r.out + [Sent(2, x)], r.cursor, r.bytes + size, r.flightBytes + size, next);
    }
  }

  /** A lane cannot send its head now. */
  ghost predicate Stuck(r: Burst, o: SendOptions, lane: nat)
    requires r.cursor <= |r.lanes.flight.items|
  {
    var head := Head(r.lanes, o, lane, SkipSent(r.lanes.flight.items, r.cursor), r.flightBytes);
    head.None? || r.bytes + head.value > o.flushBytes
  }

  /** Nothing but the cursor has moved, and only over sent items. */
  ghost predicate Unmoved(r: Burst, t: Burst) {
    && t == r.(cursor := t.cursor)
    && r.cursor <= |r.lanes.flight.items| && t.cursor <= |t.lanes.flight.items|
    && SkipSent(r.lanes.flight.items, t.cursor) == SkipSent(r.lanes.flight.items, r.cursor)
  }

  lemma {:induction false} SkipTwice(items: seq<Item>, cursor: nat)
    requires cursor <= |items|
    ensures SkipSent(items, SkipSent(items, cursor)) == SkipSent(items, cursor)
    decreases |items| - cursor
  {
    if cursor < |items| && items[cursor].sent {
      SkipTwice(items, cursor + 1);
    }
  }

  lemma SkippedUnmoved(r: Burst, lane: nat)
    requires r.cursor <= |r.lanes.flight.items|
    ensures Unmoved(r, Skipped(r, lane))
    ensures lane == 1 ==> Skipped(r, lane).cursor == SkipSent(r.lanes.flight.items, Skipped(r, lane).cursor)
  {
    SkipTwice(r.lanes.flight.items, r.cursor);
  }

  lemma UnmovedStuck(r: Burst, t: Burst, o: SendOptions, lane: nat)
    requires Unmoved(r, t)
    ensures Stuck(r, o, lane) <==> Stuck(t, o, lane)
  {
  }

  lemma RefusedIsStuck(r: Burst, o: SendOptions, lane: nat)
    requires lane < 3 && r.cursor <= |r.lanes.flight.items|
    requires lane == 1 ==> r.cursor == SkipSent(r.lanes.flight.items, r.cursor)
    requires var head := Head(r.lanes, o, lane, r.cursor, r.flightBytes);
      head.None? || r.bytes + head.value > o.flushBytes
    ensures Stuck(r, o, lane)
  {
  }

  /** One lane's turn: it sends until its quantum or the budget is used, or its head cannot be sent. */
  method ServeLane(ghost s0: Lanes, r: Burst, o: SendOptions, mtu: u16, tick: int, lane: nat, quantum: nat)
    returns (t: Burst, progressed: bool)
    requires lane < 3 && Sound(s0, o, tick, r) && r.bytes < o.flushBytes && quantum > 0
    ensures Sound(s0, o, tick, t) && Left(t) <= Left(r) && r.bytes <= t.bytes <= o.flushBytes
    ensures progressed ==> Left(t) < Left(r)
    ensures !progressed ==> Unmoved(r, t) && Stuck(t, o, lane)
  {
    hide Sound, Left, Stuck, Unmoved, Head, Serve, Skipped;
    SoundCursor(s0, o, tick, r);
    t, progressed := r, false;
    var used := 0;
    UnmovedItself(r);
    while used < quantum && t.bytes < o.flushBytes
      invariant t.cursor <= |t.lanes.flight.items|
      invariant Sound(s0, o, tick, t) && Left(t) <= Left(r) && r.bytes <= t.bytes <= o.flushBytes
      invariant progressed ==> Left(t) < Left(r)
      invariant !progressed ==> used == 0 && t == r
      decreases Left(t)
    {
      SkipKeeps(s0, o, tick, t, lane);
      SkippedUnmoved(t, lane);
      ghost var before := t;
      t := Skipped(t, lane);
      SoundCursor(s0, o, tick, t);
      var head := Head(t.lanes, o, lane, t.cursor, t.flightBytes);
      if head.None? || t.bytes + head.value > o.flushBytes {
        RefusedIsStuck(t, o, lane);
        break;
      }
      ServeKeeps(s0, o, mtu, tick, t, lane);
      t := Serve(t, o, lane, mtu, tick);
      SoundCursor(s0, o, tick, t);
      used := used + head.value;
      progressed := true;
    }
  }

  lemma SoundCursor(s0: Lanes, o: SendOptions, tick: int, r: Burst)
    requires Sound(s0, o, tick, r)
    ensures r.cursor <= |r.lanes.flight.items|
  {
  }

  lemma UnmovedItself(r: Burst)
    requires r.cursor <= |r.lanes.flight.items|
    ensures Unmoved(r, r)
  {
  }

  /** Nothing left that fits: each lane is empty, blocked by the flight, or too big for what remains. */
  ghost predicate WorkConserving(r: Burst, o: SendOptions) {
    var s := r.lanes;
    && (s.unreliable != [] ==> r.bytes + s.unreliable[0].frame.Size() > o.flushBytes)
    && (forall i | 0 <= i < |s.flight.items| && !s.flight.items[i].sent && AllSentBelow(s.flight.items, i) ::
          r.bytes + s.flight.items[i].packet.frame.Size() > o.flushBytes)
    && (s.packets != [] ==>
          !HasRoom(s, o, s.packets[0].frame.Size(), r.flightBytes)
            || r.bytes + s.packets[0].frame.Size() > o.flushBytes)
  }

  lemma StuckConserves(s0: Lanes, o: SendOptions, tick: int, r: Burst)
    requires Sound(s0, o, tick, r) && Stuck(r, o, 0) && Stuck(r, o, 1) && Stuck(r, o, 2)
    ensures WorkConserving(r, o)
  {
    hide Conserved, Flown, WithinBudget;
    var items := r.lanes.flight.items;
    forall i | 0 <= i < |items| && !items[i].sent && AllSentBelow(items, i)
      ensures r.bytes + items[i].packet.frame.Size() > o.flushBytes
    {
      assert SkipSent(items, r.cursor) == i;
    }
  }

  lemma FullConserves(r: Burst, o: SendOptions)
    requires r.bytes == o.flushBytes
    ensures WorkConserving(r, o)
  {
  }

  /** What a scheduled flush promises about the queues it found. */
  ghost predicate Scheduled(s0: Lanes, o: SendOptions, tick: int, r: Burst) {
    && Conserved(s0, r.lanes, r.out)
    && (exists cursor: nat :: Flown(s0, r.lanes, r.out, cursor, tick) && cursor <= |r.lanes.flight.items|)
    && WithinBudget(r.lanes, o, r.out, r.bytes, r.flightBytes)
    && WorkConserving(r, o)
  }

  function LaneAt(start: nat, k: nat): nat {
    (start + k) % 3
  }

  ghost predicate StuckFrom(r: Burst, o: SendOptions, start: nat, n: nat)
    requires r.cursor <= |r.lanes.flight.items|
  {
    forall k: nat | k < n :: Stuck(r, o, LaneAt(start, k))
  }

  lemma StuckMore(r: Burst, t: Burst, o: SendOptions, start: nat, n: nat)
    requires Unmoved(r, t) && StuckFrom(r, o, start, n) && Stuck(t, o, LaneAt(start, n))
    ensures StuckFrom(t, o, start, n + 1) && t.bytes == r.bytes
  {
    hide Stuck;
    forall k: nat | k < n ensures Stuck(t, o, LaneAt(start, k)) {
      UnmovedStuck(r, t, o, LaneAt(start, k));
    }
  }

  lemma ThreeLanes(r: Burst, o: SendOptions, start: nat)
    requires r.cursor <= |r.lanes.flight.items| && StuckFrom(r, o, start, 3)
    ensures Stuck(r, o, 0) && Stuck(r, o, 1) && Stuck(r, o, 2)
  {
    hide Stuck;
    assert Stuck(r, o, LaneAt(start, 0)) && Stuck(r, o, LaneAt(start, 1)) && Stuck(r, o, LaneAt(start, 2));
  }

  /** Each lane has one turn, from the one after the last served. */
  method ServeRound(ghost s0: Lanes, r0: Burst, o: SendOptions, mtu: u16, tick: int)
      returns (r: Burst, progressed: bool)
    requires Sound(s0, o, tick, r0) && r0.bytes < o.flushBytes && mtu > 0
    ensures Sound(s0, o, tick, r) && r.bytes <= o.flushBytes && r.cursor <= |r.lanes.flight.items|
    ensures progressed ==> Left(r) < Left(r0)
    ensures !progressed ==> Left(r) <= Left(r0) && Stuck(r, o, 0) && Stuck(r, o, 1) && Stuck(r, o, 2)
  {
    hide Sound, Left, Stuck, Unmoved, StuckFrom;
    r, progressed := r0, false;
    SoundCursor(s0, o, tick, r);
    var start := r.lanes.nextLane;
    NoneStuck(r, o, start);
    for offset := 0 to 3
      invariant r.cursor <= |r.lanes.flight.items|
      invariant Sound(s0, o, tick, r) && r.bytes <= o.flushBytes && Left(r) <= Left(r0)
      invariant progressed ==> Left(r) < Left(r0)
      invariant !progressed ==> StuckFrom(r, o, start, offset) && r.bytes < o.flushBytes
    {
      if r.bytes < o.flushBytes {
        var t, moved := ServeLane(s0, r, o, mtu, tick, LaneAt(start, offset), mtu * 4);
        SoundCursor(s0, o, tick, t);
        if !moved && !progressed {
          StuckMore(r, t, o, start, offset);
        }
        r, progressed := t, progressed || moved;
      }
    }
    if !progressed {
      ThreeLanes(r, o, start);
    }
  }

  lemma NoneStuck(r: Burst, o: SendOptions, start: nat)
    requires r.cursor <= |r.lanes.flight.items|
    ensures StuckFrom(r, o, start, 0)
  {
  }

  method CountFlight(items: seq<Item>) returns (bytes: nat)
    ensures bytes == FlightBytes(items)
  {
    bytes := 0;
    for i := 0 to |items|
      invariant bytes == FlightBytes(items[..i])
    {
      assert items[..i + 1][..i] == items[..i];
      bytes := bytes + items[i].packet.frame.Size();
    }
    assert items[..|items|] == items;
  }

  /** Serve rounds until one sends nothing or the budget is used up. */
  method ServeLanes(s0: Lanes, o: SendOptions, mtu: u16, tick: int) returns (r: Burst)
    requires o.Valid() && mtu > 0 && Announced(s0.flight)
    ensures Scheduled(s0, o, tick, r)
  {
    hide Sound, Left, Stuck, WorkConserving, FlightBytes, Scheduled;
    var flightBytes := CountFlight(s0.flight.items);
    r := Burst(s0, [], 0, 0, flightBytes, Bundle(None, 0, 0));
    StartsSound(s0, o, tick, r);
    var progressed := true;
    while progressed && r.bytes < o.flushBytes
      invariant r.cursor <= |r.lanes.flight.items|
      invariant Sound(s0, o, tick, r) && r.bytes <= o.flushBytes
      invariant !progressed ==> Stuck(r, o, 0) && Stuck(r, o, 1) && Stuck(r, o, 2)
      decreases Left(r), progressed
    {
      r, progressed := ServeRound(s0, r, o, mtu, tick);
    }
    if r.bytes < o.flushBytes {
      StuckConserves(s0, o, tick, r);
    } else {
      FullConserves(r, o);
    }
    SoundIsScheduled(s0, o, tick, r);
  }

  lemma StartsSound(s0: Lanes, o: SendOptions, tick: int, r: Burst)
    requires o.Valid() && Announced(s0.flight) && r == Burst(s0, [], 0, 0, FlightBytes(s0.flight.items), r.bundle)
    ensures Sound(s0, o, tick, r)
  {
    assert [] + s0.unreliable == s0.unreliable && [] + s0.packets == s0.packets;
  }

  lemma SoundIsScheduled(s0: Lanes, o: SendOptions, tick: int, r: Burst)
    requires Sound(s0, o, tick, r) && WorkConserving(r, o)
    ensures Scheduled(s0, o, tick, r)
  {
    hide Conserved, Flown, WithinBudget, WorkConserving;
  }

  // ---------------------------------------------------------------------
  // The whole flush.

  lemma FlagIgnored(s0: Lanes, o: SendOptions, tick: int, r: Burst, pending: bool)
    requires Scheduled(s0, o, tick, r)
    ensures Scheduled(s0, o, tick, r.(lanes := r.lanes.(flight := r.lanes.flight.(retriesPending := pending))))
  {
    hide Charge, Through, FlightBytes, Reserved, WaitingBelow, AllSentBelow;
    var r' := r.(lanes := r.lanes.(flight := r.lanes.flight.(retriesPending := pending)));
    var cursor: nat :| Flown(s0, r.lanes, r.out, cursor, tick) && cursor <= |r.lanes.flight.items|;
    assert Flown(s0, r'.lanes, r'.out, cursor, tick);
    assert WorkConserving(r', o);
  }

  method AnyWaiting(items: seq<Item>) returns (waiting: bool)
    ensures waiting <==> exists i | 0 <= i < |items| :: !items[i].sent
  {
    for i := 0 to |items|
      invariant forall k | 0 <= k < i :: items[k].sent
    {
      if !items[i].sent {
        return true;
      }
    }
    waiting := false;
  }

  /**
   A scheduled flush conserves every frame, stays within the flush budget and
   both flight limits, and stops only when no lane's head could still go.
   */
  method FlushScheduled(s: Lanes, o: SendOptions, mtu: u16, tick: int)
      returns (r: Burst, ghost start: Lanes, ghost order: seq<nat>)
    requires o.Valid() && mtu > 0 && Announced(s.flight)
    ensures IsPermutation(order, |s.flight.items|)
    ensures start == s.(flight := Arrange(Tick(s.flight, tick), order))
    ensures Tick(s.flight, tick).dirty ==> Sorts(Tick(s.flight, tick).items, order)
    ensures Scheduled(start, o, tick, r)
    ensures r.lanes.flight.retriesPending <==> exists i | 0 <= i < |r.lanes.flight.items| ::
      !r.lanes.flight.items[i].sent
  {
    hide Tick, Scheduled, Sorted;
    var f := Tick(s.flight, tick);
    TickAnnounces(s.flight, tick);
    order := seq(|f.items|, i => i);
    if f.dirty {
      var sorted;
      sorted, order := SortItems(f.items);
      SortAnnounces(f, order);
      f := f.(items := sorted, dirty := false);
    }
    start := s.(flight := f);
    r := ServeLanes(s.(flight := f), o, mtu, tick);
    var waiting := AnyWaiting(r.lanes.flight.items);
    FlagIgnored(start, o, tick, r, waiting);
    r := r.(lanes := r.lanes.(flight := r.lanes.flight.(retriesPending := waiting)));
  }

  lemma RenumberedAnnounces(f: Flight, g: Flight)
    requires Announced(f) && Renumbered(f, g)
    ensures Announced(g)
  {
    assert g.items == f.items || Stirred(g);
  }

  lemma TickAnnounces(f: Flight, tick: int)
    requires Announced(f)
    ensures Announced(Tick(f, tick))
  {
    TickRenumbers(f, tick);
    RenumberedAnnounces(f, Tick(f, tick));
  }

  lemma SortAnnounces(f: Flight, order: seq<nat>)
    requires Announced(f) && IsPermutation(order, |f.items|)
    ensures Announced(f.(items := Reordered(f.items, order), dirty := false))
  {
  }
}
