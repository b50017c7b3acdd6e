// The receive queue: duplicate filter, reassembly, per-channel reordering with
// a contiguous fast path, and the record of datagrams to acknowledge.
module Receiver {
  import opened AckSet
  import opened Bytes
  import opened Errors
  import opened Fragments
  import opened Frames
  import opened Serial
  import opened Window

  const MAX_HELD_BYTES: int := 64 * 1024 * 1024

  /** Per-channel indexes; channel zero is stored apart. */
  datatype ChannelIndexes = ChannelIndexes(primary: u24, others: map<byte, u24>) {
    function Get(channel: byte): u24 {
      if channel == 0 then primary else if channel in others then others[channel] else 0
    }

    function Set(channel: byte, index: u24): (c: ChannelIndexes)
      ensures c.Get(channel) == index
      ensures forall other: byte | other != channel :: c.Get(other) == Get(other)
    {
      if channel == 0 then this.(primary := index) else this.(others := others[channel := index])
    }
  }

  type Key = (byte, u24)

  /** Frames waiting for their turn, and frames whose turn has come. */
  datatype Order = Order(
    expected: ChannelIndexes, held: map<Key, Frame>, heldBytes: int, ready: seq<Frame>, readyBytes: int)

  datatype RecvState = RecvState(
    sequenced: ChannelIndexes,
    order: Order,
    acks: AckState,
    packets: map<u24, Frame>,
    fragments: FragmentState,
    window: WindowState)

  const NO_INDEXES: ChannelIndexes := ChannelIndexes(0, map[])
  const NEW_RECEIVER: RecvState :=
    RecvState(NO_INDEXES, Order(NO_INDEXES, map[], 0, [], 0), AckState([], [], 0), map[],
              FragmentState(map[], 0), WindowState(0, {}))

  // ---------------------------------------------------------------------
  // Reordering.

  /** Move one held frame to the ready list. */
  function Move(o: Order, key: Key): Order
    requires key in o.held
  {
    var f := o.held[key];
    o.(held := o.held - {key}, heldBytes := o.heldBytes - |f.data|,
       ready := o.ready + [f], readyBytes := o.readyBytes + |f.data|)
  }

  /** Move consecutive held frames of a channel, from `expected` on, to the ready list. */
  function Release(o: Order, channel: byte, expected: u24): Order
    decreases |o.held|
  {
    if (channel, expected) in o.held then Release(Move(o, (channel, expected)), channel, Next(expected))
    else o.(expected := o.expected.Set(channel, expected))
  }

  /** Put a frame straight on the ready list. */
  function PushReady(o: Order, f: Frame): Order {
    o.(ready := o.ready + [f], readyBytes := o.readyBytes + |f.data|)
  }

  /** Store a frame until its turn comes. */
  function Hold(o: Order, f: Frame): Order {
    o.(held := o.held[(f.channel, f.orderedIndex) := f], heldBytes := o.heldBytes + |f.data|)
  }

  predicate Overfull(o: Order, f: Frame) {
    || |o.held| + |o.ready| >= RECEIVE_WINDOW
    || o.heldBytes + o.readyBytes + |f.data| > MAX_HELD_BYTES
  }

  /** A complete message takes its place; contiguous traffic bypasses the table. */
  function Place(o: Order, f: Frame, expected: u24): (Order, Result<()>) {
    var key := (f.channel, f.orderedIndex);
    if key in o.held then (o, Ok(()))
    else if Overfull(o, f) then (o, Err(PacketParseError))
    else if f.orderedIndex == expected then
      (Release(PushReady(o, f), f.channel, Next(o.expected.Get(f.channel))), Ok(()))
    else (Hold(o, f), Ok(()))
  }

  function InsertOrdered(q: RecvState, f: Frame): (RecvState, Result<()>) {
    var expected := q.order.expected.Get(f.channel);
    if Newer(expected, f.orderedIndex) then (q, Ok(()))
    else if Distance(f.orderedIndex, expected) >= RECEIVE_WINDOW then (q, Err(PacketParseError))
    else if f.IsFragment() then
      var (fragments, complete) := InsertAndTake(q.fragments, f);
      if complete.Err? then (q.(fragments := fragments), Err(complete.error))
      else if complete.value.None? then (q.(fragments := fragments), Ok(()))
      else
        var (order, r) := Place(q.order, complete.value.value, expected);
        (q.(fragments := fragments, order := order), r)
    else
      var (order, r) := Place(q.order, f, expected);
      (q.(order := order), r)
  }

  // ---------------------------------------------------------------------
  // Every delivery mode.

  function InsertSequenced(q: RecvState, f: Frame): RecvState {
    var last := q.sequenced.Get(f.channel);
    if f.sequencedIndex == last || Newer(f.sequencedIndex, last) then
      q.(packets := if f.sequenceNumber in q.packets then q.packets else q.packets[f.sequenceNumber := f],
         sequenced := q.sequenced.Set(f.channel, Next(f.sequencedIndex)))
    else q
  }

  function Deliver(q: RecvState, f: Frame, mode: Reliability): (RecvState, Result<()>) {
    match mode
    case Unreliable =>
      (if f.sequenceNumber in q.packets then q else q.(packets := q.packets[f.sequenceNumber := f]), Ok(()))
    case Reliable => (q.(packets := q.packets[f.sequenceNumber := f]), Ok(()))
    case ReliableOrdered => InsertOrdered(q, f)
    case UnreliableSequenced => (InsertSequenced(q, f), Ok(()))
    case ReliableSequenced => (InsertSequenced(q, f), Ok(()))
  }

  function Receive(q: RecvState, f: Frame): (RecvState, Result<()>) {
    if f.Mode().Err? then (q, Err(f.Mode().error))
    else
      var q1 := q.(acks := AckSet.Insert(q.acks, f.sequenceNumber));
      if !ModeReliable(f.Mode().value) then Deliver(q1, f, f.Mode().value)
      else
        var (window, first) := Accept(q1.window, f.reliableIndex);
        if first.Err? then (q1.(window := window), Err(first.error))
        else if !first.value then (q1.(window := window), Ok(()))
        else Deliver(q1.(window := window), f, f.Mode().value)
  }

  ghost function Least(keys: set<u24>): (k: u24)
    requires keys != {}
    ensures k in keys && forall j <- keys :: k <= j
    decreases |keys|
  {
    var a :| a in keys;
    if keys == {a} then a else
      assert keys == {a} + (keys - {a});
      var k := Least(keys - {a});
      if a <= k then a else k
  }

  /** Frames by increasing datagram number. */
  ghost function InOrder(packets: map<u24, Frame>): seq<Frame>
    decreases |packets|
  {
    if packets == map[] then []
    else
      var k := Least(packets.Keys);
      [packets[k]] + InOrder(packets - {k})
  }

  ghost function Flush(q: RecvState): (RecvState, seq<Frame>) {
    (q.(packets := map[], order := q.order.(ready := [], readyBytes := 0)), q.order.ready + InOrder(q.packets))
  }

  class RecvQ {
    var sequenced: ChannelIndexes
    var order: Order
    var packets: map<u24, Frame>
    const acks: ACKSet
    const fragments: FragmentQ
    const window: ReliableWindow

    function State(): RecvState
      reads this, acks, fragments, window
    {
      RecvState(sequenced, order, acks.State(), packets, fragments.State(), window.State())
    }

    constructor ()
      ensures State() == NEW_RECEIVER
      ensures fresh(acks) && fresh(fragments) && fresh(window)
    {
      sequenced, packets := NO_INDEXES, map[];
      order := Order(NO_INDEXES, map[], 0, [], 0);
      acks := new ACKSet();
      fragments := new FragmentQ();
      window := new ReliableWindow(0);
    }

    method InsertFrame(f: Frame) returns (r: Result<()>)
      modifies this, acks, fragments, window
      ensures (State(), r) == Receive(old(State()), f)
    {
      hide AckSet.Insert, Accept, InsertOrdered;
      var mode :- f.Mode();
      acks.InsertNumber(f.sequenceNumber);
      if ModeReliable(mode) {
        var first :- window.AcceptIndex(f.reliableIndex);
        if !first {
          return Ok(());
        }
      }
      match mode {
        case Unreliable =>
          if f.sequenceNumber !in packets {
            packets := packets[f.sequenceNumber := f];
          }
        case UnreliableSequenced =>
          InsertInSequence(f);
        case Reliable =>
          packets := packets[f.sequenceNumber := f];
        case ReliableOrdered =>
          r := InsertInOrder(f);
          return;
        case ReliableSequenced =>
          InsertInSequence(f);
      }
      r := Ok(());
    }

    method InsertInSequence(f: Frame)
      modifies this
      ensures State() == InsertSequenced(old(State()), f)
    {
      var last := sequenced.Get(f.channel);
      if f.sequencedIndex == last || Newer(f.sequencedIndex, last) {
        if f.sequenceNumber !in packets {
          packets := packets[f.sequenceNumber := f];
        }
        sequenced := sequenced.Set(f.channel, Next(f.sequencedIndex));
      }
    }

    method InsertInOrder(f: Frame) returns (r: Result<()>)
      modifies this, fragments
      ensures (State(), r) == InsertOrdered(old(State()), f)
    {
      hide InsertAndTake, Place;
      var expected := order.expected.Get(f.channel);
      if Newer(expected, f.orderedIndex) {
        return Ok(());
      }
      if Distance(f.orderedIndex, expected) >= RECEIVE_WINDOW {
        return Err(PacketParseError);
      }
      var complete := Some(f);
      if f.IsFragment() {
        complete :- fragments.InsertAndTakeCompleted(f);
      }
      if complete.Some? {
        r := PlaceFrame(complete.value, expected);
      } else {
        r := Ok(());
      }
    }

    method PlaceFrame(f: Frame, expected: u24) returns (r: Result<()>)
      modifies this`order
      ensures (order, r) == Place(old(order), f, expected)
    {
      var key := (f.channel, f.orderedIndex);
      if key in order.held {
        return Ok(());
      }
      if |order.held| + |order.ready| >= RECEIVE_WINDOW
         || order.heldBytes + order.readyBytes + |f.data| > MAX_HELD_BYTES {
        return Err(PacketParseError);
      }
      if f.orderedIndex == expected {
        order := order.(ready := order.ready + [f], readyBytes := order.readyBytes + |f.data|);
        ghost var o := order;
        var next := Next(order.expected.Get(f.channel));
        ghost var first := next;
        while order.held != map[] && (f.channel, next) in order.held
          invariant Release(order, f.channel, next) == Release(o, f.channel, first)
          decreases |order.held|
        {
          var g := order.held[(f.channel, next)];
          order := order.(held := order.held - {(f.channel, next)}, heldBytes := order.heldBytes - |g.data|,
                          ready := order.ready + [g], readyBytes := order.readyBytes + |g.data|);
          next := Next(next);
        }
        order := order.(expected := order.expected.Set(f.channel, next));
      } else {
        order := order.(held := order.held[key := f], heldBytes := order.heldBytes + |f.data|);
      }
      r := Ok(());
    }

    method FlushInto() returns (frames: seq<Frame>)
      modifies this
      ensures (State(), frames) == Flush(old(State()))
    {
      frames := order.ready;
      order := order.(ready := [], readyBytes := 0);
      ghost var before := frames;
      var rest := packets;
      while rest != map[]
        invariant frames + InOrder(rest) == before + InOrder(packets)
        decreases |rest|
      {
        ghost var least := Least(rest.Keys);
        var k :| k in rest && forall j <- rest.Keys :: k <= j;
        assert k == least;
        assert frames + InOrder(rest) == frames + [rest[k]] + InOrder(rest - {k});
        frames := frames + [rest[k]];
        rest := rest - {k};
      }
      assert frames + [] == frames;
      packets := map[];
    }
  }
}
