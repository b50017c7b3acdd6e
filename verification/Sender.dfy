// The send queue of the default build, as functions on its state. Counters are
// kept unwrapped and every comparison, match and wire field goes through
// `Wrap`; `id` is a datagram number, `serial` a reliable index.
module Sender {
  import opened AckSet
  import opened Bytes
  import opened Errors
  import opened Frames
  import opened Fragments
  import opened Serial

  const MAX_IN_FLIGHT: int := 64
  const MAX_COALESCED: int := 8
  const MAX_BUFFERED: int := 64 * 1024 * 1024
  const SEND_HIGH_WATER: int := 256 * 1024
  const FRAME_BUDGET: int := 128
  const MAX_PAST: int := 64
  const DEFAULT_TIMEOUT: int := 50
  const RTO_UBOUND: int := 12000
  const RTO_LBOUND: int := 50
  const MAX_RETRIES: int := 0xffff_ffff
  /** The largest 64-bit time: no deadline. */
  const NEVER: int := 0x7fff_ffff_ffff_ffff

  // ---------------------------------------------------------------------
  // State.

  /** A queued frame; `message` names the payload its fragments share. */
  datatype Packet = Packet(frame: Frame, serial: nat, message: nat)

  /** A frame in flight, with the datagram numbers it was sent under before. */
  datatype Item = Item(packet: Packet, id: nat, sent: bool, time: int, retries: nat, past: seq<nat>)

  /** A frame leaving under a datagram number. */
  datatype Outgoing = Outgoing(packet: Packet, id: nat) {
    function Wire(): Frame {
      packet.frame.(sequenceNumber := Wrap(id))
    }
  }

  datatype Flight = Flight(
    items: seq<Item>, sequence: nat, ackMark: int, rto: int, srtt: int,
    dirty: bool, nextRetry: int, retriesPending: bool,
    coalesce: bool, coalescingAllowed: bool, grouped: bool)

  datatype Queue = Queue(packets: seq<Packet>, unreliable: int)

  /** A fragmented payload and how many of its fragments are still unacknowledged. */
  datatype Share = Share(remaining: nat, bytes: nat)

  datatype Ledger = Ledger(buffered: int, shared: map<nat, Share>)

  datatype Counters = Counters(reliable: nat, sequenced: map<byte, nat>, ordered: map<byte, nat>, compound: nat)

  datatype SendState = SendState(mtu: u16, flight: Flight, queue: Queue, ledger: Ledger, counters: Counters)

  function Count(m: map<byte, nat>, channel: byte): nat {
    if channel in m then m[channel] else 0
  }

  function NewSender(mtu: u16): SendState {
    SendState(mtu,
              Flight([], 0, -1, DEFAULT_TIMEOUT, DEFAULT_TIMEOUT, false, NEVER, false, false, true, false),
              Queue([], 0), Ledger(0, map[]), Counters(0, map[], map[], 0))
  }

  function Min(a: int, b: int): int {
    if a <= b then a else b
  }

  function Max(a: int, b: int): int {
    if a <= b then b else a
  }

  /** Addition that saturates at the largest time. */
  function Later(time: int, delay: int): int {
    Min(time + delay, NEVER)
  }

  // ---------------------------------------------------------------------
  // Admission.

  function DivCeil(n: nat, d: nat): nat
    requires d > 0
  {
    (n + d - 1) / d
  }

  function RequiredBytes(mtu: u16, mode: Reliability, length: nat): (r: Result<nat>)
    ensures r.Ok? ==> r.value <= MAX_BUFFERED
  {
    if mtu <= 60 then Err(PacketSizeExceedMTU)
    else
      var payload := mtu - 60;
      var frames := if mode.ReliableOrdered? && length > payload then DivCeil(length, payload) else 1;
      if frames > MAX_FRAGMENTS || frames * FRAME_BUDGET + length > MAX_BUFFERED then Err(PacketSizeExceedMTU)
      else Ok(frames * FRAME_BUDGET + length)
  }

  function HasCapacity(s: SendState, mode: Reliability, length: nat): Result<bool> {
    var required :- RequiredBytes(s.mtu, mode, length);
    Ok(s.ledger.buffered + required <= Max(SEND_HIGH_WATER, required))
  }

  function BatchBytes(mtu: u16, mode: Reliability, lengths: seq<nat>): (r: Result<nat>)
    ensures r.Ok? ==> r.value <= MAX_BUFFERED
  {
    if lengths == [] then Ok(0)
    else
      var total :- BatchBytes(mtu, mode, lengths[..|lengths| - 1]);
      var bytes :- RequiredBytes(mtu, mode, lengths[|lengths| - 1]);
      if total + bytes > MAX_BUFFERED then Err(PacketSizeExceedMTU) else Ok(total + bytes)
  }

  function HasBatchCapacity(s: SendState, mode: Reliability, lengths: seq<nat>): Result<bool> {
    var required :- BatchBytes(s.mtu, mode, lengths);
    Ok(s.ledger.buffered + required <= Max(SEND_HIGH_WATER, required))
  }

  // ---------------------------------------------------------------------
  // Insertion.

  function Chunk(data: seq<byte>, size: nat, i: nat): seq<byte>
    requires size > 0 && i * size <= |data|
  {
    data[i * size..Min(i * size + size, |data|)]
  }

  lemma ChunkInside(length: nat, size: nat, i: nat)
    requires size > 0 && i < DivCeil(length, size)
    ensures i * size < length
  {
    var n := DivCeil(length, size);
    assert n * size <= length + size - 1;
    MulMonotone(i + 1, n, size);
    assert (i + 1) * size == i * size + size;
  }

  lemma MulMonotone(a: nat, b: nat, c: nat)
    requires a <= b
    ensures a * c <= b * c
  {
    assert b * c == a * c + (b - a) * c;
  }

  /** Fragment `i` of a message, ready to be queued. */
  function Piece(c: Counters, data: seq<byte>, size: nat, channel: byte, i: nat): Packet
    requires size > 0 && i < DivCeil(|data|, size) <= MAX_FRAGMENTS
  {
    ChunkInside(|data|, size, i);
    var base := NewFrame(ReliableOrdered, Chunk(data, size, i));
    Packet(base.(flags := base.flags + FRAGMENT_FLAG,
                 compoundSize := DivCeil(|data|, size),
                 compoundId := c.compound % 0x1_0000,
                 fragmentIndex := i,
                 channel := channel,
                 reliableIndex := Wrap(c.reliable + i),
                 orderedIndex := Wrap(Count(c.ordered, channel))),
           c.reliable + i, c.compound)
  }

  function Pieces(c: Counters, data: seq<byte>, size: nat, channel: byte): seq<Packet>
    requires size > 0 && DivCeil(|data|, size) <= MAX_FRAGMENTS
  {
    seq(DivCeil(|data|, size), i requires 0 <= i < DivCeil(|data|, size) => Piece(c, data, size, channel, i))
  }

  /** The frame of a message that fits one datagram. */
  function Whole(c: Counters, mode: Reliability, data: seq<byte>, channel: byte): Packet {
    var base := NewFrame(mode, data);
    Packet(base.(channel := if ModeOrdered(mode) then channel else 0,
                 reliableIndex := if ModeReliable(mode) then Wrap(c.reliable) else 0,
                 sequencedIndex := if ModeSequenced(mode) then Wrap(Count(c.sequenced, channel)) else 0,
                 orderedIndex := if ModeOrdered(mode) then Wrap(Count(c.ordered, channel)) else 0),
           if ModeReliable(mode) then c.reliable else 0, 0)
  }

  predicate Splits(mtu: u16, mode: Reliability, length: nat) {
    mode.ReliableOrdered? && length > mtu - 60
  }

  /** Counters after a message of `frames` frames. */
  function Counted(c: Counters, mode: Reliability, channel: byte, frames: nat): Counters {
    Counters(
      if ModeReliable(mode) then c.reliable + frames else c.reliable,
      if ModeSequenced(mode) then c.sequenced[channel := Count(c.sequenced, channel) + 1] else c.sequenced,
      if mode.ReliableOrdered? then c.ordered[channel := Count(c.ordered, channel) + 1] else c.ordered,
      if frames > 1 then c.compound + 1 else c.compound)
  }

  function Enqueue(s: SendState, mode: Reliability, data: seq<byte>, channel: byte): (SendState, Result<()>) {
    var reserved := RequiredBytes(s.mtu, mode, |data|);
    if reserved.Err? then (s, Err(reserved.error))
    else if reserved.value > MAX_BUFFERED - s.ledger.buffered then (s, Err(PacketSizeExceedMTU))
    else if !mode.ReliableOrdered? && |data| > s.mtu - 60 then (s, Err(PacketSizeExceedMTU))
    else
      var c := s.counters;
      var buffered := s.ledger.buffered + reserved.value;
      if Splits(s.mtu, mode, |data|) then
        var pieces := Pieces(c, data, s.mtu - 60, channel);
        (s.(queue := s.queue.(packets := s.queue.packets + pieces),
            ledger := Ledger(buffered, s.ledger.shared[c.compound := Share(|pieces|, |data|)]),
            counters := Counted(c, mode, channel, |pieces|)), Ok(()))
      else
        (s.(queue := Queue(s.queue.packets + [Whole(c, mode, data, channel)],
                           if ModeReliable(mode) then s.queue.unreliable else s.queue.unreliable + 1),
            ledger := s.ledger.(buffered := buffered),
            counters := Counted(c, mode, channel, 1)), Ok(()))
  }

  // ---------------------------------------------------------------------
  // Resequencing.

  function PushPast(past: seq<nat>, id: nat): seq<nat> {
    (if |past| == MAX_PAST then past[1..] else past) + [id]
  }

  /** Give item `i` the next datagram number; it waits to be sent again. */
  function Resequence(f: Flight, i: nat, time: int): Flight
    requires i < |f.items|
  {
    var item := f.items[i];
    f.(items := f.items[i := item.(id := f.sequence, sent := false, time := time,
                                   past := PushPast(item.past, item.id))],
       sequence := f.sequence + 1,
       dirty := true, retriesPending := true, coalesce := false, coalescingAllowed := false)
  }

  function NackFrom(f: Flight, number: u24, tick: int, i: nat): (g: Flight)
    requires i <= |f.items|
    ensures |g.items| == |f.items|
    decreases |f.items| - i
  {
    if i == |f.items| then f
    else if f.items[i].sent && Wrap(f.items[i].id) == number then
      NackFrom(Resequence(f, i, tick), number, tick, i + 1)
    else NackFrom(f, number, tick, i + 1)
  }

  function Nack(f: Flight, number: u24, tick: int): Flight {
    NackFrom(f, number, tick, 0)
  }

  function NackAll(f: Flight, numbers: seq<u24>, tick: int): Flight
    decreases |numbers|
  {
    if numbers == [] then f else NackAll(Nack(f, numbers[0], tick), numbers[1..], tick)
  }

  function NumbersIn(items: seq<Item>, ranges: seq<Range>): seq<u24> {
    if items == [] then []
    else
      var front, number := NumbersIn(items[..|items| - 1], ranges), Wrap(items[|items| - 1].id);
      if Covered(ranges, number) then front + [number] else front
  }

  function NackRanges(f: Flight, ranges: seq<Range>, tick: int): Flight {
    if |ranges| == 1 && ranges[0].first == ranges[0].last then Nack(f, ranges[0].first, tick)
    else NackAll(f, NumbersIn(f.items, ranges), tick)
  }

  // ---------------------------------------------------------------------
  // Acknowledgement.

  /** Strictly between the old and new high-water marks. */
  predicate InGap(id: nat, previous: int, newest: int) {
    0 < Distance(Wrap(id), Wrap(previous)) < Distance(Wrap(newest), Wrap(previous))
  }

  function Missing(items: seq<Item>, previous: int, newest: int): seq<u24> {
    if items == [] then []
    else
      var front, id := Missing(items[..|items| - 1], previous, newest), items[|items| - 1].id;
      if InGap(id, previous, newest) then front + [Wrap(id)] else front
  }

  function LatencySample(srtt: int, rtt: int): (int, int) {
    var s := (srtt * 4 + rtt) / 5;
    (s, Max(RTO_LBOUND, Min(s * 3 / 2, RTO_UBOUND)))
  }

  function SetLatency(f: Flight, latency: (int, int)): Flight {
    f.(srtt := latency.0, rto := latency.1, nextRetry := if latency.1 != f.rto then 0 else f.nextRetry)
  }

  /** The numbers a frame answers to: the current one, then the remembered ones. */
  function Names(item: Item): seq<nat> {
    [item.id] + item.past
  }

  predicate NamedBy(item: Item, number: u24) {
    exists k | 0 <= k < |Names(item)| :: Wrap(Names(item)[k]) == number
  }

  /** The first of the names from `k` on that a range covers. */
  function FirstNamed(names: seq<nat>, ranges: seq<Range>, k: nat): Option<nat>
    requires k <= |names|
    decreases |names| - k
  {
    if k == |names| then None
    else if Covered(ranges, Wrap(names[k])) then Some(names[k])
    else FirstNamed(names, ranges, k + 1)
  }

  function AckedName(item: Item, ranges: seq<Range>): Option<nat> {
    FirstNamed(Names(item), ranges, 0)
  }

  /** Bytes given back when a frame is retired, and the ledger without it. */
  function Retire(ledger: Ledger, p: Packet): (Ledger, nat) {
    if !p.frame.IsFragment() then (ledger, |p.frame.data|)
    else if p.message !in ledger.shared then (ledger, 0)
    else
      var share := ledger.shared[p.message];
      if share.remaining <= 1 then (ledger.(shared := ledger.shared - {p.message}), share.bytes)
      else (ledger.(shared := ledger.shared[p.message := share.(remaining := share.remaining - 1)]), 0)
  }

  function Rtt(tick: int, item: Item): int {
    Max(tick - item.time, 0)
  }

  /** Index of the first item from `i` on that answers to `number`. */
  function Find(items: seq<Item>, number: u24, i: nat): (k: nat)
    requires i <= |items|
    ensures i <= k <= |items|
    decreases |items| - i
  {
    if i == |items| || NamedBy(items[i], number) then i else Find(items, number, i + 1)
  }

  function Removed<T>(s: seq<T>, i: nat): seq<T>
    requires i < |s|
  {
    s[..i] + s[i + 1..]
  }

  /** Advance the mark to `number` when it is newer, resequencing what it passed. */
  function MoveMark(f: Flight, previous: int, newest: int, tick: int): Flight {
    NackAll(f, Missing(f.items, previous, newest), tick).(ackMark := newest)
  }

  /** The name of an item that equals `number`. */
  function NameFor(item: Item, number: u24): int {
    var n := FirstNamed(Names(item), [Range(number, number)], 0);
    if n.Some? then n.value else number
  }

  /** Retire the first frame that answers to one number. */
  function AckDirect(s: SendState, number: u24, tick: int): SendState {
    var k := Find(s.flight.items, number, 0);
    if k == |s.flight.items| then s
    else
      var item := s.flight.items[k];
      var items := Removed(s.flight.items, k);
      var (ledger, bytes) := Retire(s.ledger, item.packet);
      var f1 := s.flight.(items := items, grouped := s.flight.grouped && items != []);
      var f2 := if Newer(number, Wrap(f1.ackMark)) then MoveMark(f1, f1.ackMark, NameFor(item, number), tick) else f1;
      var f3 := if item.retries == 0 then SetLatency(f2, LatencySample(f2.srtt, Rtt(tick, item))) else f2;
      s.(flight := f3, ledger := ledger.(buffered := ledger.buffered - bytes - FRAME_BUDGET))
  }

  /** One left-to-right pass over the flight. */
  datatype Sweep = Sweep(
    kept: seq<Item>, ledger: Ledger, released: nat, newest: int, latency: (int, int), sample: Option<u24>)

  function SweepItem(w: Sweep, item: Item, ranges: seq<Range>, tick: int, grouped: bool): Sweep {
    var name := AckedName(item, ranges);
    if name.None? then w.(kept := w.kept + [item])
    else
      var (ledger, bytes) := Retire(w.ledger, item.packet);
      var id := name.value;
      var samples := item.retries == 0 && (!grouped || w.sample != Some(Wrap(id)));
      w.(ledger := ledger, released := w.released + bytes + FRAME_BUDGET,
         newest := if Newer(Wrap(id), Wrap(w.newest)) then id else w.newest,
         sample := if samples && grouped then Some(Wrap(id)) else w.sample,
         latency := if samples then LatencySample(w.latency.0, Rtt(tick, item)) else w.latency)
  }

  function SweepAll(w: Sweep, items: seq<Item>, ranges: seq<Range>, tick: int, grouped: bool): Sweep {
    if items == [] then w
    else SweepItem(SweepAll(w, items[..|items| - 1], ranges, tick, grouped), items[|items| - 1], ranges, tick, grouped)
  }

  function StartSweep(s: SendState): Sweep {
    Sweep([], s.ledger, 0, s.flight.ackMark, (s.flight.srtt, s.flight.rto), None)
  }

  /** Retire every frame that answers to a number in the ranges. */
  function Compact(s: SendState, ranges: seq<Range>, tick: int): SendState {
    var f := s.flight;
    var w := SweepAll(StartSweep(s), f.items, ranges, tick, f.grouped);
    var f1 := SetLatency(f.(items := w.kept, grouped := f.grouped && w.kept != []), w.latency);
    var f2 := if w.newest != f.ackMark then MoveMark(f1, f.ackMark, w.newest, tick) else f1;
    s.(flight := f2, ledger := w.ledger.(buffered := w.ledger.buffered - w.released))
  }

  function Ack(s: SendState, number: u24, tick: int): SendState {
    if s.flight.grouped && |s.flight.items| > 1 then Compact(s, [Range(number, number)], tick)
    else AckDirect(s, number, tick)
  }

  function AckRanges(s: SendState, ranges: seq<Range>, tick: int): SendState {
    if |ranges| == 1 && ranges[0].first == ranges[0].last && (!s.flight.grouped || |s.flight.items| <= 1) then
      Ack(s, ranges[0].first, tick)
    else Compact(s, ranges, tick)
  }

  // ---------------------------------------------------------------------
  // Timeouts.

  /** Each retry multiplies the timeout by one and a half, up to the bound. */
  function Backoff(timeout: int, retries: nat): int
    decreases retries
  {
    if retries == 0 then timeout else Backoff(Min(timeout * 3 / 2, RTO_UBOUND), retries - 1)
  }

  function RetryTimeout(rto: int, retries: nat): int {
    Backoff(rto, Min(retries, 32))
  }

  predicate Expired(f: Flight, item: Item, tick: int) {
    tick - item.time >= RetryTimeout(f.rto, item.retries)
  }

  function TickFrom(f: Flight, tick: int, i: nat): (g: Flight)
    requires i <= |f.items|
    ensures |g.items| == |f.items|
    decreases |f.items| - i
  {
    if i == |f.items| then f
    else
      var item := f.items[i];
      if !item.sent then TickFrom(f, tick, i + 1)
      else if Expired(f, item, tick) then TickFrom(Resequence(f, i, item.time), tick, i + 1)
      else TickFrom(f.(nextRetry := Min(f.nextRetry, Later(item.time, RetryTimeout(f.rto, item.retries)))), tick, i + 1)
  }

  function Tick(f: Flight, tick: int): (g: Flight)
    ensures |g.items| == |f.items|
  {
    if tick < f.nextRetry then f else TickFrom(f.(nextRetry := NEVER), tick, 0)
  }

  // ---------------------------------------------------------------------
  // Flushing.

  ghost predicate Sorted(items: seq<Item>) {
    forall i, j | 0 <= i < j < |items| :: Wrap(items[i].id) <= Wrap(items[j].id)
  }

  ghost predicate IsPermutation(order: seq<nat>, n: nat) {
    && |order| == n
    && (forall i | 0 <= i < n :: order[i] < n)
    && (forall i, j | 0 <= i < j < n :: order[i] != order[j])
  }

  ghost function Reordered(items: seq<Item>, order: seq<nat>): (r: seq<Item>)
    requires IsPermutation(order, |items|)
    ensures |r| == |items|
  {
    seq(|items|, i requires 0 <= i < |items| => items[order[i]])
  }

  /** `sort_unstable_by_key`: any rearrangement in key order. */
  ghost predicate Sorts(items: seq<Item>, order: seq<nat>) {
    && IsPermutation(order, |items|)
    && Sorted(Reordered(items, order))
    && multiset(Reordered(items, order)) == multiset(items)
  }

  /** The flight sorted by `order`, when it needs sorting. */
  ghost function Arrange(f: Flight, order: seq<nat>): (g: Flight)
    requires IsPermutation(order, |f.items|)
    ensures |g.items| == |f.items|
  {
    if f.dirty then f.(items := Reordered(f.items, order), dirty := false) else f
  }

  function Resend(item: Item, tick: int): Item {
    item.(sent := true, time := tick, retries := Min(item.retries + 1, MAX_RETRIES))
  }

  /** Send every waiting item of the flight from `i` on again. */
  function ResendFrom(f: Flight, out: seq<Outgoing>, tick: int, i: nat): (Flight, seq<Outgoing>)
    requires i <= |f.items|
    decreases |f.items| - i
  {
    if i == |f.items| then (f, out)
    else if f.items[i].sent then ResendFrom(f, out, tick, i + 1)
    else
      var item := Resend(f.items[i], tick);
      ResendFrom(f.(items := f.items[i := item],
                    nextRetry := Min(f.nextRetry, Later(tick, RetryTimeout(f.rto, item.retries)))),
                 out + [Outgoing(item.packet, item.id)], tick, i + 1)
  }

  function ResendPending(f: Flight, tick: int): (Flight, seq<Outgoing>) {
    if !f.retriesPending then (f, [])
    else
      var (g, out) := ResendFrom(f, [], tick, 0);
      (g.(retriesPending := false), out)
  }

  /** The loop that moves queued frames out. */
  datatype Pump = Pump(
    flight: Flight, queue: Queue, buffered: int,
    group: Option<nat>, groupBytes: nat, groupFrames: nat,
    out: seq<Outgoing>, coalesced: bool)

  predicate Packable(p: Packet) {
    p.frame.Mode() == Ok(ReliableOrdered) && !p.frame.IsFragment()
  }

  /** Whether a frame joins the datagram being filled. */
  predicate Joins(p: Pump, packet: Packet, mtu: u16) {
    && p.flight.coalesce
    && Packable(packet)
    && p.group.Some?
    && p.groupFrames < MAX_COALESCED
    && p.groupBytes + packet.frame.Size() - 4 <= Max(mtu - 28, 0)
  }

  /** Choose the datagram number a frame leaves under. */
  function Assign(p: Pump, packet: Packet, mtu: u16): (Pump, nat) {
    if Joins(p, packet, mtu) then
      (p.(groupBytes := p.groupBytes + packet.frame.Size() - 4, groupFrames := p.groupFrames + 1,
          flight := p.flight.(grouped := true), coalesced := true), p.group.value)
    else
      var id := p.flight.sequence;
      var f := p.flight.(sequence := id + 1);
      if p.flight.coalesce then
        (p.(flight := f, group := if Packable(packet) then Some(id) else None,
            groupBytes := packet.frame.Size(), groupFrames := 1), id)
      else (p.(flight := f), id)
  }

  /** Put an assigned frame on the wire and, when reliable, in flight. */
  function Emit(p: Pump, packet: Packet, id: nat, tick: int): Pump {
    var f := p.flight;
    var out := p.out + [Outgoing(packet, id)];
    if packet.frame.IsReliable() then
      p.(out := out,
         flight := f.(items := f.items + [Item(packet, id, true, tick, 0, [])],
                      dirty := f.dirty || (f.items != [] && Wrap(f.items[|f.items| - 1].id) > Wrap(id)),
                      nextRetry := Min(f.nextRetry, Later(tick, f.rto))))
    else
      p.(out := out, queue := p.queue.(unreliable := p.queue.unreliable - 1),
         buffered := p.buffered - |packet.frame.data| - FRAME_BUDGET)
  }

  function PumpStep(p: Pump, mtu: u16, tick: int): Pump
    requires p.queue.packets != []
  {
    var packet := p.queue.packets[0];
    var rest := p.(queue := p.queue.(packets := p.queue.packets[1..]));
    if packet.frame.IsReliable() && |p.flight.items| >= MAX_IN_FLIGHT then
      rest.(queue := rest.queue.(packets := rest.queue.packets + [packet]))
    else
      var (p1, id) := Assign(rest, packet, mtu);
      Emit(p1, packet, id, tick)
  }

  predicate PumpStops(p: Pump) {
    || (|p.flight.items| >= MAX_IN_FLIGHT && p.queue.unreliable == 0)
    || p.queue.packets == []
  }

  function PumpAll(p: Pump, mtu: u16, tick: int, n: nat): Pump
    decreases n
  {
    if n == 0 || PumpStops(p) then p else PumpAll(PumpStep(p, mtu, tick), mtu, tick, n - 1)
  }

  function StartPump(s: SendState, f: Flight, out: seq<Outgoing>): Pump {
    Pump(f, s.queue, s.ledger.buffered, None, 0, 0, out, false)
  }

  /** What a flush leaves and what it emits. */
  datatype Flushed = Flushed(state: SendState, out: seq<Outgoing>, coalesced: bool)

  function Finish(s: SendState, p: Pump): Flushed {
    Flushed(s.(flight := p.flight, queue := p.queue, ledger := s.ledger.(buffered := p.buffered)), p.out, p.coalesced)
  }

  ghost function FlushFrom(s: SendState, ticked: Flight, tick: int, order: seq<nat>): Flushed
    requires IsPermutation(order, |ticked.items|)
  {
    var (f, out) := ResendPending(Arrange(ticked, order), tick);
    Finish(s, PumpAll(StartPump(s, f, out), s.mtu, tick, |s.queue.packets|))
  }

  ghost function Flush(s: SendState, tick: int, order: seq<nat>): Flushed
    requires IsPermutation(order, |s.flight.items|)
  {
    FlushFrom(s, Tick(s.flight, tick), tick, order)
  }

  predicate IsEmpty(s: SendState) {
    s.queue.packets == [] && s.flight.items == []
  }

  function EnableCoalescing(s: SendState): SendState {
    s.(flight := s.flight.(coalesce := s.flight.coalescingAllowed))
  }
}
