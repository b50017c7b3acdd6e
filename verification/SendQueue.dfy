/** The send queue as an object whose methods update it in place. */
module SendQueue {
  import opened AckSet
  import opened Bytes
  import opened Errors
  import opened Fragments
  import opened Frames
  import opened Sender
  import opened Serial

  class SendQ {
    const mtu: u16
    var sequence: nat
    var ackMark: int
    var packets: seq<Packet>
    var queuedUnreliable: int
    var buffered: int
    var shared: map<nat, Share>
    var items: seq<Item>
    var dirty: bool
    var nextRetry: int
    var retriesPending: bool
    var coalesce: bool
    var coalescingAllowed: bool
    var grouped: bool
    var rto: int
    var srtt: int
    var counters: Counters

    function FlightState(): Flight
      reads this
    {
      Flight(items, sequence, ackMark, rto, srtt, dirty, nextRetry, retriesPending, coalesce, coalescingAllowed,
        grouped)
    }

    function State(): SendState
      reads this
    {
      SendState(mtu, FlightState(), Queue(packets, queuedUnreliable), Ledger(buffered, shared), counters)
    }

    constructor (mtu: u16)
      ensures State() == NewSender(mtu)
    {
      this.mtu := mtu;
      sequence, ackMark, packets, queuedUnreliable := 0, -1, [], 0;
      buffered, shared, items, dirty := 0, map[], [], false;
      nextRetry, retriesPending, coalesce, coalescingAllowed, grouped := NEVER, false, false, true, false;
      rto, srtt := DEFAULT_TIMEOUT, DEFAULT_TIMEOUT;
      counters := Counters(0, map[], map[], 0);
    }

    // -------------------------------------------------------------------
    // Insertion.

    /** Cut a long message into fragments and queue them. */
    method InsertFragments(data: seq<byte>, channel: byte)
      requires mtu > 60 && DivCeil(|data|, mtu - 60) <= MAX_FRAGMENTS
      modifies this`packets
      ensures packets == old(packets) + Pieces(counters, data, mtu - 60, channel)
    {
      hide Piece, DivCeil;
      ghost var pieces := Pieces(counters, data, mtu - 60, channel);
      var size := DivCeil(|data|, mtu - 60);
      for i := 0 to size
        invariant packets == old(packets) + pieces[..i]
      {
        packets := packets + [Piece(counters, data, mtu - 60, channel, i)];
        assert pieces[..i + 1] == pieces[..i] + [pieces[i]];
      }
      assert pieces[..size] == pieces;
    }

    method Insert(mode: Reliability, data: seq<byte>, channel: byte) returns (r: Result<()>)
      modifies this
      ensures (State(), r) == Enqueue(old(State()), mode, data, channel)
    {
      hide Piece, Whole, DivCeil;
      var reserved :- RequiredBytes(mtu, mode, |data|);
      if reserved > MAX_BUFFERED - buffered {
        return Err(PacketSizeExceedMTU);
      }
      var limit := mtu - 60;
      if !mode.ReliableOrdered? && |data| > limit {
        return Err(PacketSizeExceedMTU);
      }
      if mode.ReliableOrdered? && |data| > limit {
        var frames := DivCeil(|data|, limit);
        InsertFragments(data, channel);
        shared := shared[counters.compound := Share(frames, |data|)];
        counters := Counted(counters, mode, channel, frames);
      } else {
        packets := packets + [Whole(counters, mode, data, channel)];
        counters := Counted(counters, mode, channel, 1);
        if !ModeReliable(mode) {
          queuedUnreliable := queuedUnreliable + 1;
        }
      }
      buffered := buffered + reserved;
      r := Ok(());
    }

    method EnableCoalescing()
      modifies this`coalesce
      ensures State() == Sender.EnableCoalescing(old(State()))
    {
      coalesce := coalescingAllowed;
    }

    // -------------------------------------------------------------------
    // Resequencing.

    method ResequenceItem(i: nat, time: int)
      requires i < |items|
      modifies this`items, this`sequence, this`dirty, this`retriesPending, this`coalesce, this`coalescingAllowed
      ensures FlightState() == Resequence(old(FlightState()), i, time)
    {
      coalescingAllowed, coalesce := false, false;
      var item := items[i];
      dirty := true;
      var past := item.past;
      if |past| == MAX_PAST {
        past := past[1..];
      }
      items := items[i := item.(id := sequence, sent := false, time := time, past := past + [item.id])];
      sequence := sequence + 1;
      retriesPending := true;
    }

    method NackNumber(number: u24, tick: int)
      modifies this`items, this`sequence, this`dirty, this`retriesPending, this`coalesce, this`coalescingAllowed
      ensures FlightState() == Nack(old(FlightState()), number, tick)
    {
      hide Resequence, Wrap;
      var i := 0;
      while i < |items|
        invariant i <= |items|
        invariant NackFrom(FlightState(), number, tick, i) == NackFrom(old(FlightState()), number, tick, 0)
        invariant |items| == |old(items)|
        decreases |old(items)| - i
      {
        if items[i].sent && Wrap(items[i].id) == number {
          ResequenceKeepsLength(FlightState(), i, tick);
          ResequenceItem(i, tick);
        }
        i := i + 1;
      }
    }

    method NackNumbers(numbers: seq<u24>, tick: int)
      modifies this`items, this`sequence, this`dirty, this`retriesPending, this`coalesce, this`coalescingAllowed
      ensures FlightState() == NackAll(old(FlightState()), numbers, tick)
    {
      hide NackFrom;
      for k := 0 to |numbers|
        invariant NackAll(FlightState(), numbers[k..], tick) == NackAll(old(FlightState()), numbers, tick)
      {
        assert numbers[k..][1..] == numbers[k + 1..];
        NackNumber(numbers[k], tick);
      }
    }

    method NackRangeList(ranges: seq<Range>, tick: int)
      modifies this`items, this`sequence, this`dirty, this`retriesPending, this`coalesce, this`coalescingAllowed
      ensures FlightState() == NackRanges(old(FlightState()), ranges, tick)
    {
      hide NackFrom, NackAll, Wrap, Covered;
      if |ranges| == 1 && ranges[0].first == ranges[0].last {
        NackNumber(ranges[0].first, tick);
        return;
      }
      var numbers: seq<u24> := [];
      for i := 0 to |items|
        invariant numbers == NumbersIn(items[..i], ranges)
      {
        assert items[..i + 1][..i] == items[..i];
        if Covered(ranges, Wrap(items[i].id)) {
          numbers := numbers + [Wrap(items[i].id)];
        }
      }
      assert items[..|items|] == items;
      NackNumbers(numbers, tick);
    }

    /** Resequence what a newer acknowledgement has passed, and move the mark. */
    method Advance(previous: int, newest: int, tick: int)
      modifies this`items, this`sequence, this`dirty, this`retriesPending, this`coalesce, this`coalescingAllowed,
        this`ackMark
      ensures FlightState() == MoveMark(old(FlightState()), previous, newest, tick)
    {
      hide NackAll, Wrap, InGap;
      var missing: seq<u24> := [];
      for i := 0 to |items|
        invariant missing == Missing(items[..i], previous, newest)
      {
        assert items[..i + 1][..i] == items[..i];
        if InGap(items[i].id, previous, newest) {
          missing := missing + [Wrap(items[i].id)];
        }
      }
      assert items[..|items|] == items;
      NackNumbers(missing, tick);
      ackMark := newest;
    }

    // -------------------------------------------------------------------
    // Acknowledgement.

    method UpdateLatency(latency: (int, int))
      modifies this`srtt, this`rto, this`nextRetry
      ensures FlightState() == SetLatency(old(FlightState()), latency)
    {
      if rto != latency.1 {
        nextRetry := 0;
      }
      srtt, rto := latency.0, latency.1;
    }

    /** Account for a retired frame and return the payload bytes it gives back. */
    method RetireFrame(p: Packet) returns (bytes: nat)
      modifies this`shared
      ensures (Ledger(buffered, shared), bytes) == Retire(old(Ledger(buffered, shared)), p)
    {
      if !p.frame.IsFragment() {
        return |p.frame.data|;
      }
      bytes := 0;
      if p.message in shared {
        var share := shared[p.message];
        if share.remaining <= 1 {
          shared := shared - {p.message};
          bytes := share.bytes;
        } else {
          shared := shared[p.message := share.(remaining := share.remaining - 1)];
        }
      }
    }

    method FindItem(number: u24) returns (k: nat)
      ensures k == Find(items, number, 0)
    {
      hide NamedBy;
      k := 0;
      while k < |items| && !NamedBy(items[k], number)
        invariant k <= |items| && Find(items, number, k) == Find(items, number, 0)
      {
        k := k + 1;
      }
    }

    /** Take item `k` out of the flight and give its bytes back. */
    method TakeItem(k: nat) returns (item: Item)
      requires k < |items|
      modifies this`items, this`grouped, this`shared, this`buffered
      ensures item == old(items)[k]
      ensures items == Removed(old(items), k) && grouped == (old(grouped) && items != [])
      ensures var (ledger, bytes) := Retire(old(Ledger(buffered, shared)), item.packet);
        Ledger(buffered, shared) == ledger.(buffered := ledger.buffered - bytes - FRAME_BUDGET)
    {
      hide Retire;
      item := items[k];
      items := Removed(items, k);
      if grouped && items == [] {
        grouped := false;
      }
      RetireKeepsBuffered(Ledger(buffered, shared), item.packet);
      var bytes := RetireFrame(item.packet);
      buffered := buffered - bytes - FRAME_BUDGET;
    }

    method AckOne(number: u24, tick: int)
      modifies this
      ensures State() == AckDirect(old(State()), number, tick)
    {
      hide MoveMark, LatencySample, NameFor, Find, Retire, Newer, Rtt, SetLatency, Removed;
      var k := FindItem(number);
      if k == |items| {
        return;
      }
      var item := TakeItem(k);
      if Newer(number, Wrap(ackMark)) {
        Advance(ackMark, NameFor(item, number), tick);
      }
      if item.retries == 0 {
        UpdateLatency(LatencySample(srtt, Rtt(tick, item)));
      }
    }

    /** One pass over the flight: what the ranges name is retired, the rest is kept. */
    method SweepFlight(ranges: seq<Range>, tick: int)
      returns (kept: seq<Item>, released: nat, newest: int, latency: (int, int), ghost sample: Option<u24>)
      modifies this`shared
      ensures Sweep(kept, Ledger(buffered, shared), released, newest, latency, sample)
           == SweepAll(StartSweep(old(State())), items, ranges, tick, grouped)
    {
      hide LatencySample, AckedName, Retire, Newer, Rtt;
      newest, latency, released, kept := ackMark, (srtt, rto), 0, [];
      var previous: Option<u24> := None;
      for i := 0 to |items|
        invariant Sweep(kept, Ledger(buffered, shared), released, newest, latency, previous)
               == SweepAll(StartSweep(old(State())), items[..i], ranges, tick, grouped)
      {
        assert items[..i + 1][..i] == items[..i];
        var item := items[i];
        var name := AckedName(item, ranges);
        if name.None? {
          kept := kept + [item];
        } else {
          RetireKeepsBuffered(Ledger(buffered, shared), item.packet);
          var bytes := RetireFrame(item.packet);
          released := released + bytes + FRAME_BUDGET;
          if Newer(Wrap(name.value), Wrap(newest)) {
            newest := name.value;
          }
          if item.retries == 0 && (!grouped || previous != Some(Wrap(name.value))) {
            if grouped {
              previous := Some(Wrap(name.value));
            }
            latency := LatencySample(latency.0, Rtt(tick, item));
          }
        }
      }
      assert items[..|items|] == items;
      sample := previous;
    }

    /** Keep the survivors of a sweep and settle what it released. */
    method KeepItems(kept: seq<Item>, released: nat, latency: (int, int))
      modifies this`items, this`buffered, this`grouped, this`srtt, this`rto, this`nextRetry
      ensures FlightState()
        == SetLatency(old(FlightState()).(items := kept, grouped := old(grouped) && kept != []), latency)
      ensures buffered == old(buffered) - released
    {
      items := kept;
      buffered := buffered - released;
      if grouped && items == [] {
        grouped := false;
      }
      UpdateLatency(latency);
    }

    method Compact(ranges: seq<Range>, tick: int)
      modifies this
      ensures State() == Sender.Compact(old(State()), ranges, tick)
    {
      hide MoveMark, SweepAll, SetLatency;
      var previous := ackMark;
      var kept, released, newest, latency, _ := SweepFlight(ranges, tick);
      KeepItems(kept, released, latency);
      if newest != previous {
        Advance(previous, newest, tick);
      }
    }

    method AckNumber(number: u24, tick: int)
      modifies this
      ensures State() == Ack(old(State()), number, tick)
    {
      if grouped && |items| > 1 {
        Compact([Range(number, number)], tick);
      } else {
        AckOne(number, tick);
      }
    }

    method AckRangeList(ranges: seq<Range>, tick: int)
      modifies this
      ensures State() == AckRanges(old(State()), ranges, tick)
    {
      if |ranges| == 1 && ranges[0].first == ranges[0].last && (!grouped || |items| <= 1) {
        AckNumber(ranges[0].first, tick);
      } else {
        Compact(ranges, tick);
      }
    }

    // -------------------------------------------------------------------
    // Timeouts.

    method ExpireItems(tick: int)
      modifies this`items, this`sequence, this`dirty, this`retriesPending, this`coalesce, this`coalescingAllowed,
        this`nextRetry
      ensures FlightState() == Tick(old(FlightState()), tick)
    {
      hide Resequence, RetryTimeout, Later;
      if tick < nextRetry {
        return;
      }
      nextRetry := NEVER;
      ghost var start := FlightState();
      var i := 0;
      while i < |items|
        invariant i <= |items| == |start.items|
        invariant TickFrom(FlightState(), tick, i) == TickFrom(start, tick, 0)
        decreases |start.items| - i
      {
        var timeout := RetryTimeout(rto, items[i].retries);
        if items[i].sent && tick - items[i].time >= timeout {
          ResequenceKeepsLength(FlightState(), i, items[i].time);
          ResequenceItem(i, items[i].time);
        } else if items[i].sent {
          nextRetry := Min(nextRetry, Later(items[i].time, timeout));
        }
        i := i + 1;
      }
    }

    // -------------------------------------------------------------------
    // Flushing.

    method SortFlight() returns (order: seq<nat>)
      modifies this`items, this`dirty
      ensures Sorts(old(items), order) && items == Reordered(old(items), order) && !dirty
    {
      items, order := SortItems(items);
      dirty := false;
    }

    method ResendWaiting(tick: int) returns (out: seq<Outgoing>)
      modifies this`items, this`nextRetry, this`retriesPending
      ensures (FlightState(), out) == ResendPending(old(FlightState()), tick)
    {
      hide RetryTimeout, Later;
      out := [];
      if retriesPending {
        var i := 0;
        while i < |items|
          invariant i <= |items| == |old(items)| && retriesPending
          invariant ResendFrom(FlightState(), out, tick, i) == ResendFrom(old(FlightState()), [], tick, 0)
          decreases |old(items)| - i
        {
          if !items[i].sent {
            var item := Resend(items[i], tick);
            out := out + [Outgoing(item.packet, item.id)];
            items := items[i := item];
            nextRetry := Min(nextRetry, Later(tick, RetryTimeout(rto, item.retries)));
          }
          i := i + 1;
        }
        retriesPending := false;
      }
    }

    /** The pump made of the queue and one flush's local variables. */
    function PumpState(g: Bundle, out: seq<Outgoing>, coalesced: bool): Pump
      reads this
    {
      Pump(FlightState(), Queue(packets, queuedUnreliable), buffered, g.number, g.bytes, g.frames, out, coalesced)
    }

    /** Choose the datagram number for a frame taken from the queue. */
    method AssignNumber(packet: Packet, g: Bundle, ghost out: seq<Outgoing>, c: bool)
        returns (id: nat, g': Bundle, c': bool)
      modifies this`sequence, this`grouped
      ensures (PumpState(g', out, c'), id) == Assign(old(PumpState(g, out, c)), packet, mtu)
    {
      hide Packable;
      g', c' := g, c;
      if coalesce {
        var packable := Packable(packet);
        var frameBytes := packet.frame.Size() - 4;
        if packable && g.number.Some? && g.frames < MAX_COALESCED && g.bytes + frameBytes <= Max(mtu - 28, 0) {
          id := g.number.value;
          g' := Bundle(g.number, g.bytes + frameBytes, g.frames + 1);
          grouped, c' := true, true;
        } else {
          id := sequence;
          sequence := sequence + 1;
          g' := Bundle(if packable then Some(id) else None, 4 + frameBytes, 1);
        }
      } else {
        id := sequence;
        sequence := sequence + 1;
      }
    }

    /** Put an assigned frame on the wire. */
    method EmitFrame(packet: Packet, id: nat, tick: int, ghost g: Bundle, out: seq<Outgoing>, ghost c: bool)
        returns (out': seq<Outgoing>)
      modifies this`items, this`dirty, this`nextRetry, this`queuedUnreliable, this`buffered
      ensures PumpState(g, out', c) == Emit(old(PumpState(g, out, c)), packet, id, tick)
    {
      hide Wrap, Later;
      out' := out + [Outgoing(packet, id)];
      if packet.frame.IsReliable() {
        if items != [] && Wrap(items[|items| - 1].id) > Wrap(id) {
          dirty := true;
        }
        items := items + [Item(packet, id, true, tick, 0, [])];
        nextRetry := Min(nextRetry, Later(tick, rto));
      } else {
        queuedUnreliable := queuedUnreliable - 1;
        buffered := buffered - |packet.frame.data| - FRAME_BUDGET;
      }
    }

    /** Take the first queued frame: send it, or put it back when the flight is full. */
    method SendNext(tick: int, g: Bundle, out: seq<Outgoing>, c: bool)
        returns (g': Bundle, out': seq<Outgoing>, c': bool)
      requires packets != []
      modifies this
      ensures PumpState(g', out', c') == PumpStep(old(PumpState(g, out, c)), mtu, tick)
      ensures shared == old(shared) && counters == old(counters)
    {
      hide Assign, Emit;
      var packet := packets[0];
      packets := packets[1..];
      if packet.frame.IsReliable() && |items| >= MAX_IN_FLIGHT {
        packets := packets + [packet];
        g', out', c' := g, out, c;
        return;
      }
      var id;
      id, g', c' := AssignNumber(packet, g, out, c);
      out' := EmitFrame(packet, id, tick, g', out, c');
    }

    /** Move queued frames out while the flight has room. */
    method PumpQueue(tick: int, resent: seq<Outgoing>) returns (out: seq<Outgoing>, coalesced: bool)
      modifies this
      ensures Flushed(State(), out, coalesced)
           == Finish(old(State()),
             PumpAll(StartPump(old(State()), old(FlightState()), resent), mtu, tick, |old(packets)|))
    {
      hide PumpStep;
      var g := Bundle(None, 0, 0);
      out, coalesced := resent, false;
      ghost var start := PumpState(g, out, coalesced);
      var n: nat := |packets|;
      while n > 0
        invariant PumpAll(PumpState(g, out, coalesced), mtu, tick, n) == PumpAll(start, mtu, tick, |old(packets)|)
        invariant shared == old(shared) && counters == old(counters)
      {
        if |items| >= MAX_IN_FLIGHT && queuedUnreliable == 0 {
          break;
        }
        if packets == [] {
          break;
        }
        g, out, coalesced := SendNext(tick, g, out, coalesced);
        n := n - 1;
      }
    }

    /** The part of a flush that concerns frames already in flight. */
    method StartFlush(tick: int) returns (resent: seq<Outgoing>, ghost order: seq<nat>)
      modifies this`items, this`sequence, this`dirty, this`retriesPending, this`coalesce, this`coalescingAllowed,
        this`nextRetry
      ensures IsPermutation(order, |old(items)|)
      ensures Tick(old(FlightState()), tick).dirty ==> Sorts(Tick(old(FlightState()), tick).items, order)
      ensures (FlightState(), resent) == ResendPending(Arrange(Tick(old(FlightState()), tick), order), tick)
    {
      hide Tick, ResendPending, Sorted, Reordered;
      ExpireItems(tick);
      order := seq(|items|, i => i);
      if dirty {
        order := SortFlight();
      }
      resent := ResendWaiting(tick);
    }

    /** Time out, sort, resend and fill the flight; `order` is how the sort came out. */
    method FlushQueue(tick: int) returns (out: seq<Outgoing>, coalesced: bool, ghost order: seq<nat>)
      modifies this
      ensures IsPermutation(order, |old(items)|)
      ensures Tick(old(FlightState()), tick).dirty ==> Sorts(Tick(old(FlightState()), tick).items, order)
      ensures Flushed(State(), out, coalesced) == Sender.Flush(old(State()), tick, order)
    {
      hide Tick, PumpAll, ResendPending, Sorts, Arrange, IsPermutation;
      var resent;
      resent, order := StartFlush(tick);
      out, coalesced := PumpQueue(tick, resent);
    }
  }

  /** Sort by wire number; equal numbers may end up in any order. */
  method SortItems(items: seq<Item>) returns (sorted: seq<Item>, order: seq<nat>)
    ensures Sorts(items, order) && sorted == Reordered(items, order)
  {
    hide Wrap, Sorts, SortedSoFar;
    sorted, order := [], [];
    StartSorted(items);
    for i := 0 to |items|
      invariant |order| == |sorted| == i
      invariant SortedSoFar(items, sorted, order, i)
    {
      var k := 0;
      while k < i && Wrap(sorted[k].id) <= Wrap(items[i].id)
        invariant k <= i
        invariant forall j | 0 <= j < k :: Wrap(sorted[j].id) <= Wrap(items[i].id)
      {
        k := k + 1;
      }
      InsertKeepsSorted(items, sorted, order, i, k);
      sorted := sorted[..k] + [items[i]] + sorted[k..];
      order := order[..k] + [i] + order[k..];
    }
    SortedAll(items, sorted, order);
  }

  /** The datagram being filled: its number, encoded bytes and frames. */
  datatype Bundle = Bundle(number: Option<nat>, bytes: nat, frames: nat)

  /** The first `i` items, in order of wire number. */
  ghost predicate SortedSoFar(items: seq<Item>, sorted: seq<Item>, order: seq<nat>, i: nat) {
    && i <= |items| && |sorted| == |order| == i
    && IsPermutation(order, i)
    && Sorted(sorted)
    && (forall j | 0 <= j < i :: sorted[j] == items[order[j]])
    && multiset(sorted) == multiset(items[..i])
  }

  lemma StartSorted(items: seq<Item>)
    ensures SortedSoFar(items, [], [], 0)
  {
    assert items[..0] == [];
  }

  function InsertAt<T>(s: seq<T>, k: nat, x: T): (r: seq<T>)
    requires k <= |s|
    ensures |r| == |s| + 1
    ensures forall j | 0 <= j < |r| :: r[j] == if j < k then s[j] else if j == k then x else s[j - 1]
  {
    s[..k] + [x] + s[k..]
  }

  lemma InsertSorts(sorted: seq<Item>, k: nat, item: Item)
    requires Sorted(sorted) && k <= |sorted|
    requires forall j | 0 <= j < k :: Wrap(sorted[j].id) <= Wrap(item.id)
    requires k < |sorted| ==> Wrap(item.id) < Wrap(sorted[k].id)
    ensures Sorted(InsertAt(sorted, k, item))
  {
    hide Wrap;
    var r := InsertAt(sorted, k, item);
    forall i, j | 0 <= i < j < |r| ensures Wrap(r[i].id) <= Wrap(r[j].id) {
      if i == k {
        assert r[j] == sorted[j - 1];
        assert k < j - 1 ==> Wrap(sorted[k].id) <= Wrap(sorted[j - 1].id);
      }
    }
  }

  lemma InsertPermutes(order: seq<nat>, k: nat, n: nat)
    requires IsPermutation(order, n) && k <= n
    ensures IsPermutation(InsertAt(order, k, n), n + 1)
  {
    var r := InsertAt(order, k, n);
    forall i | 0 <= i < |r| ensures r[i] < n + 1 && (i != k ==> r[i] < n) {
    }
    forall i, j | 0 <= i < j < |r| ensures r[i] != r[j] {
    }
  }

  lemma InsertCounts(sorted: seq<Item>, items: seq<Item>, i: nat, k: nat)
    requires i < |items| && k <= |sorted| && multiset(sorted) == multiset(items[..i])
    ensures multiset(InsertAt(sorted, k, items[i])) == multiset(items[..i + 1])
  {
    assert items[..i + 1] == items[..i] + [items[i]];
    assert sorted == sorted[..k] + sorted[k..];
  }

  lemma InsertKeepsSorted(items: seq<Item>, sorted: seq<Item>, order: seq<nat>, i: nat, k: nat)
    requires i < |items| && SortedSoFar(items, sorted, order, i) && k <= i
    requires forall j | 0 <= j < k :: Wrap(sorted[j].id) <= Wrap(items[i].id)
    requires k < i ==> Wrap(items[i].id) < Wrap(sorted[k].id)
    ensures SortedSoFar(items, sorted[..k] + [items[i]] + sorted[k..], order[..k] + [i] + order[k..], i + 1)
  {
    var sorted', order' := InsertAt(sorted, k, items[i]), InsertAt(order, k, i);
    assert sorted' == sorted[..k] + [items[i]] + sorted[k..] && order' == order[..k] + [i] + order[k..];
    hide Wrap, InsertAt, Sorted, IsPermutation;
    InsertSorts(sorted, k, items[i]);
    InsertPermutes(order, k, i);
    InsertCounts(sorted, items, i, k);
    OrderInside(order, i);
  }

  lemma OrderInside(order: seq<nat>, n: nat)
    requires IsPermutation(order, n)
    ensures forall j | 0 <= j < n :: order[j] < n
  {
  }

  lemma SortedAll(items: seq<Item>, sorted: seq<Item>, order: seq<nat>)
    requires SortedSoFar(items, sorted, order, |items|)
    ensures Sorts(items, order) && sorted == Reordered(items, order)
  {
    hide Wrap;
    assert items[..|items|] == items;
    assert sorted == Reordered(items, order);
  }

  lemma ResequenceKeepsLength(f: Flight, i: nat, time: int)
    requires i < |f.items|
    ensures |Resequence(f, i, time).items| == |f.items|
  {
  }

  lemma RetireKeepsBuffered(ledger: Ledger, p: Packet)
    ensures Retire(ledger, p).0.buffered == ledger.buffered
  {
  }
}
