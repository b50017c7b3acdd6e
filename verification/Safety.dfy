/** Every step of the transport keeps its invariant, so every run is safe. */
module Safety {
  import opened AckSet
  import opened Acks
  import opened Admission
  import opened Bytes
  import opened ControlReplies
  import opened Custody
  import opened Datagrams
  import opened Deadlines
  import opened Delivery
  import opened Errors
  import opened FrameCodec
  import opened Frames
  import opened Inbound
  import opened Ledger
  import opened Outbound
  import opened Packing
  import opened RangeCodec
  import opened Renumber
  import opened Room
  import opened Sender
  import opened Serial
  import opened Transport
  import opened Window
  import Fragments
  import Plan
  import Receiver
  import Reorder

  // ---------------------------------------------------------------------
  // Flushing.

  lemma {:induction false} MembersExact(out: seq<Outgoing>, id: nat, o: Outgoing)
    ensures o in Members(out, id) <==> o in out && o.id == id
    decreases |out|
  {
    if out != [] {
      assert out == out[..|out| - 1] + [out[|out| - 1]];
      MembersExact(out[..|out| - 1], id, o);
    }
  }

  lemma InEmissions(out: seq<Outgoing>, o: Outgoing)
    ensures o in Emissions(out) <==> o in out
  {
  }

  lemma NewDatagramOk(out: seq<Outgoing>, d: seq<Outgoing>, sent: set<Outgoing>, low: nat, mtu: u16)
    requires WholeDatagram(d, out) && Packs(out, mtu) && WithinEpoch(out, low) && SentBelow(sent, low)
    requires forall i | 0 <= i < |out| :: Fit(out[i].packet, mtu)
    ensures DatagramOk(Encoded(d), sent + Emissions(out))
  {
    hide Decode, GroupBytes, Packs, Fit, Members, ValidGroup;
    DatagramRoundTrip(out, d, mtu);
    forall o: Outgoing ensures o in d <==> o in sent + Emissions(out) && o.id == d[0].id {
      MembersExact(out, d[0].id, o);
      InEmissions(out, o);
      if o in sent && o.id == d[0].id {
        MembersExact(out, d[0].id, d[0]);
      }
    }
  }

  lemma OldDatagramOk(d: Datagram, out: seq<Outgoing>, sent: set<Outgoing>, low: nat)
    requires DatagramOk(d, sent) && WithinEpoch(out, low) && SentBelow(sent, low)
    ensures DatagramOk(d, sent + Emissions(out))
  {
    hide Decode, Wires;
    assert d.contents[0] in d.contents;
    forall o: Outgoing ensures o in d.contents <==> o in sent + Emissions(out) && o.id == d.contents[0].id {
      InEmissions(out, o);
    }
  }

  lemma NetGrows(net: set<Datagram>, sent: set<Outgoing>, out: seq<Outgoing>, datagrams: seq<seq<Outgoing>>, low: nat,
      mtu: u16)
    requires NetOk(net, sent) && SentBelow(sent, low) && WithinEpoch(out, low) && Packs(out, mtu)
    requires forall i | 0 <= i < |out| :: Fit(out[i].packet, mtu)
    requires forall k | 0 <= k < |datagrams| :: WholeDatagram(datagrams[k], out)
    ensures NetOk(net + OnWire(datagrams), sent + Emissions(out))
  {
    hide DatagramOk, Packs, Fit, WholeDatagram, Encoded, SentBelow, WithinEpoch, Emissions;
    forall d <- net + OnWire(datagrams) ensures DatagramOk(d, sent + Emissions(out)) {
      if d in net {
        OldDatagramOk(d, out, sent, low);
      } else {
        var k :| 0 <= k < |datagrams| && d == Encoded(datagrams[k]);
        NewDatagramOk(out, datagrams[k], sent, low, mtu);
      }
    }
  }

  lemma ReceivedGrows(received: set<nat>, sent: set<Outgoing>, out: seq<Outgoing>, seen: Seen, low: nat, sequence: nat)
    requires ReceivedOk(received, sent, seen, low) && WithinEpoch(out, low) && low <= sequence
    ensures ReceivedOk(received, sent + Emissions(out), seen, sequence)
  {
  }

  lemma OutFits(out: seq<Outgoing>, sent: set<Outgoing>, log: seq<Plan.Sent>, mtu: u16)
    requires SentKnown(sent + Emissions(out), log, mtu)
    ensures forall i | 0 <= i < |out| :: Fit(out[i].packet, mtu)
  {
    hide Fit, Known;
    forall i | 0 <= i < |out| ensures Fit(out[i].packet, mtu) {
      InEmissions(out, out[i]);
    }
  }

  lemma KeepsNoLoss(s: SendState, t: SendState, log: seq<Plan.Sent>, seen: Seen)
    requires Keeps(Held(s), Held(t)) && NoLoss(s, log, seen) && Plan.ValidLog(log)
    ensures NoLoss(t, log, seen)
  {
    hide Held, Plan.ValidLog, Inbound.Arrived;
    forall j, i | 0 <= j < |log| && 0 <= i < |log[j].packets|
      ensures Inbound.Arrived(log[j], seen, i) || log[j].packets[i] in Held(t)
    {
      LoggedIsReliable(log, j, i);
    }
  }

  lemma LoggedIsReliable(log: seq<Plan.Sent>, j: nat, i: nat)
    requires Plan.ValidLog(log) && j < |log| && i < |log[j].packets|
    ensures log[j].packets[i].frame.IsReliable() && log[j].packets[i].serial == log[j].first + i
  {
    hide Plan.ValidLog;
    Plan.EntryValid(log, j);
    var m := log[j];
    if m.Fragmented() {
      MultiIsCut(m);
      assert Fragments.PieceOf(m.packets[i].frame, Plan.CutOf(m), i);
    }
  }

  /** What a step hands to its closing flush. */
  ghost predicate Prepared(w: World, s: SendState, log: seq<Plan.Sent>) {
    && Ready(s, w.sender.flight.sequence, w.sent, log)
    && NetOk(w.net, w.sent)
    && NoLoss(s, log, w.seen)
    && InboundOk(w.receiver, w.delivered, log, w.seen)
    && ReceivedOk(w.received, w.sent, w.seen, w.sender.flight.sequence)
    && AcksOk(w)
  }

  lemma DrainedIsCalm(s: SendState, replying: bool)
    requires Drained(s)
    ensures Calm(s, replying)
  {
    hide Packable;
  }

  /** The flush that ends a step restores the invariant. */
  lemma FlushLives(w: World, s: SendState, log: seq<Plan.Sent>, at: nat, order: seq<nat>,
      datagrams: seq<seq<Outgoing>>, replying: bool)
    requires Prepared(w, s, log) && Roomy(s) && Sorting(s, at, order)
    requires var r := Flush(s, at, order);
      forall k | 0 <= k < |datagrams| :: WholeDatagram(datagrams[k], r.out)
    ensures Live(Flushing(w, Flush(s, at, order), log, datagrams, replying))
  {
    hide Flush, Ready, Resting, NetOk, NoLoss, InboundOk, ReceivedOk, AcksOk, Drained, Calm, Keeps, WithinEpoch, Packs,
      Emissions, OnWire, WholeDatagram, Contiguous, Distinct, Fit, Roomy;
    var r, low := Flush(s, at, order), w.sender.flight.sequence;
    FlushSettles(s, at, order, low, w.sent, log);
    RestingParts(r.state, w.sent + Emissions(r.out), log);
    ReadyParts(s, low, w.sent, log);
    OutFits(r.out, w.sent, log, s.mtu);
    NetGrows(w.net, w.sent, r.out, datagrams, low, s.mtu);
    KeepsNoLoss(s, r.state, log, w.seen);
    ReceivedGrows(w.received, w.sent, r.out, w.seen, low, r.state.flight.sequence);
    DrainedIsCalm(r.state, replying);
    AcksIgnoreSender(w, Flushing(w, r, log, datagrams, replying));
    FlushKeepsRoom(s, at, order);
  }

  lemma FlushKeepsRoom(s: SendState, at: nat, order: seq<nat>)
    requires Roomy(s) && IsPermutation(order, |s.flight.items|)
    ensures Roomy(Flush(s, at, order).state)
  {
    hide Heavy, Tick, Arrange, ResendPending, PumpAll;
  }

  lemma RestingParts(s: SendState, sent: set<Outgoing>, log: seq<Plan.Sent>)
    requires Resting(s, sent, log)
    ensures SentKnown(sent, log, s.mtu) && Plan.ValidLog(log) && Plan.Logged(s.counters, log)
  {
  }

  lemma ReadyParts(s: SendState, low: nat, sent: set<Outgoing>, log: seq<Plan.Sent>)
    requires Ready(s, low, sent, log)
    ensures SentBelow(sent, low) && Plan.ValidLog(log) && |s.flight.items| <= MAX_IN_FLIGHT
  {
  }

  lemma AcksIgnoreSender(w: World, w': World)
    requires AcksOk(w) && w'.pending == w.pending && w'.received == w.received && w'.receiver == w.receiver
      && w'.receipts == w.receipts
    ensures AcksOk(w')
  {
    hide CoversOnly, ReceiptOk;
  }

  /** The socket's grouping sends each number as one datagram. */
  lemma TransmittedWhole(s: SendState, low: nat, sent: set<Outgoing>, log: seq<Plan.Sent>, at: nat, order: seq<nat>)
    requires Ready(s, low, sent, log) && Sorting(s, at, order)
    ensures var r := Flush(s, at, order); var datagrams := Transmitted(r.out, r.coalesced);
      forall k | 0 <= k < |datagrams| :: WholeDatagram(datagrams[k], r.out)
  {
    hide Flush, Ready, Resting, Drained, Keeps, Packs, Emissions;
    FlushSettles(s, at, order, low, sent, log);
    var r := Flush(s, at, order);
    DatagramsAreWhole(r.out, r.coalesced, low);
  }

  /** Maintenance sends frame by frame, and on a calm queue that is the same thing. */
  lemma MaintenanceWhole(s: SendState, low: nat, sent: set<Outgoing>, log: seq<Plan.Sent>, at: nat, order: seq<nat>,
      replying: bool)
    requires Ready(s, low, sent, log) && Sorting(s, at, order) && Calm(s, replying)
    ensures var r := Flush(s, at, order);
      forall k | 0 <= k < |Alone(r.out)| :: WholeDatagram(Alone(r.out)[k], r.out)
  {
    hide Flush, Ready, Resting, Drained, Keeps, Packs, Emissions, Contiguous, WithinEpoch, Sorted, Reordered;
    FlushSettles(s, at, order, low, sent, log);
    FlushStaysSingle(s, at, order);
    AloneIsWhole(Flush(s, at, order).out);
  }

  // ---------------------------------------------------------------------
  // Insertion.

  lemma NoLossGrows(s: SendState, log: seq<Plan.Sent>, seen: Seen, mode: Reliability, data: seq<byte>, channel: byte)
    requires NoLoss(s, log, seen) && Enqueue(s, mode, data, channel).1.Ok?
    ensures NoLoss(Enqueue(s, mode, data, channel).0, Extended(s, log, mode, data, channel), seen)
  {
    hide Enqueue, Held, Added, Inbound.Arrived;
    EnqueueAdds(s, mode, data, channel);
    var t, log', more := Enqueue(s, mode, data, channel).0, Extended(s, log, mode, data, channel),
      Added(s, mode, data, channel);
    forall j, i | 0 <= j < |log'| && 0 <= i < |log'[j].packets|
      ensures Inbound.Arrived(log'[j], seen, i) || log'[j].packets[i] in Held(t)
    {
      if j < |log| {
        assert log'[j] == log[j];
      } else {
        assert log'[j].packets[i] == more[i];
        assert more[i] in multiset(more);
      }
    }
  }

  lemma EnqueuePrepared(w: World, s: SendState, log: seq<Plan.Sent>, mode: Reliability, data: seq<byte>, channel: byte)
    requires Prepared(w, s, log)
    ensures Prepared(w, Enqueue(s, mode, data, channel).0, Extended(s, log, mode, data, channel))
  {
    hide Enqueue, Ready, NetOk, NoLoss, InboundOk, ReceivedOk, AcksOk, Plan.Entry;
    EnqueueReady(s, w.sender.flight.sequence, w.sent, log, mode, data, channel);
    var (t, r) := Enqueue(s, mode, data, channel);
    if r.Ok? {
      NoLossGrows(s, log, w.seen, mode, data, channel);
      ReadyParts(t, w.sender.flight.sequence, w.sent, Extended(s, log, mode, data, channel));
      if ModeReliable(mode) {
        EnqueueAdds(s, mode, data, channel);
        LogGrows(w.receiver, w.delivered, log, Plan.Entry(s, mode, data, channel), w.seen);
      }
    } else {
      RefusedIsSame(s, mode, data, channel);
    }
  }

  lemma {:induction false} BatchPrepared(w: World, s: SendState, log: seq<Plan.Sent>, mode: Reliability,
      messages: seq<seq<byte>>, channel: byte)
    requires Prepared(w, s, log) && EnqueueAll(s, mode, messages, channel).1.Ok?
    ensures Prepared(w, EnqueueAll(s, mode, messages, channel).0, ExtendedAll(s, log, mode, messages, channel))
    decreases |messages|
  {
    hide Prepared, Enqueue, Extended;
    if messages != [] {
      var front := messages[..|messages| - 1];
      BatchPrepared(w, s, log, mode, front, channel);
      EnqueuePrepared(w, EnqueueAll(s, mode, front, channel).0, ExtendedAll(s, log, mode, front, channel), mode,
        messages[|messages| - 1], channel);
    }
  }

  lemma LivePrepared(w: World)
    requires Live(w)
    ensures Prepared(w, w.sender, w.log) && Roomy(w.sender)
  {
    hide Roomy, Ready, NetOk, NoLoss, InboundOk, ReceivedOk, AcksOk;
  }

  lemma CoalescingReady(s: SendState, low: nat, sent: set<Outgoing>, log: seq<Plan.Sent>)
    requires Ready(s, low, sent, log)
    ensures Ready(EnableCoalescing(s), low, sent, log)
  {
    hide Timed, Packets, Trailed, WaitsAbove, SentBelow, SentKnown, Plan.ValidLog, Plan.Logged, Fit, Known, Balanced,
      RetryTimeout, Wrap;
    var t := EnableCoalescing(s);
    assert Cached(t.flight) by { CoalescingCached(s.flight, s.flight.coalescingAllowed); }
    assert Held(t) == Held(s);
  }

  lemma CoalescingCached(f: Flight, coalesce: bool)
    requires Cached(f)
    ensures Cached(f.(coalesce := coalesce))
  {
    hide RetryTimeout, Wrap, Later;
    assert forall i | 0 <= i < |f.items| :: Deadline(f.(coalesce := coalesce), f.items[i]) == Deadline(f, f.items[i]);
  }

  lemma CoalescingPrepared(w: World, s: SendState, log: seq<Plan.Sent>)
    requires Prepared(w, s, log)
    ensures Prepared(w, EnableCoalescing(s), log)
  {
    hide Ready, NetOk, InboundOk, ReceivedOk, AcksOk;
    CoalescingReady(s, w.sender.flight.sequence, w.sent, log);
    assert Held(EnableCoalescing(s)) == Held(s);
  }

  /** A granted batch is inserted whole. */
  lemma SendInserts(w: World, step: Step)
    requires Live(w) && step.Send?
    requires HasBatchCapacity(w.sender, step.mode, Lengths(step.messages)) == Ok(true)
    requires Fits(w.sender.mtu, step.mode, step.messages)
    ensures Prepared(w, SendQueue(w, step), SendLog(w, step)) && Roomy(SendQueue(w, step))
  {
    hide Prepared, EnqueueAll, ExtendedAll, Cached, Flushable, Balanced, Held, NetOk, NoLoss, InboundOk, ReceivedOk,
      AcksOk, HasBatchCapacity, Lengths, Fits, BatchBytes, Roomy;
    LivePrepared(w);
    var s := if step.batch && step.mode.ReliableOrdered? then EnableCoalescing(w.sender) else w.sender;
    CoalescingPrepared(w, w.sender, w.log);
    PreparedLedger(w, s, w.log);
    assert HasBatchCapacity(s, step.mode, Lengths(step.messages))
      == Ok(true) by { CapacityIgnoresCoalescing(w.sender, step.mode, Lengths(step.messages)); }
    GrantedBatchFits(s, step.mode, step.messages, step.channel);
    BatchPrepared(w, s, w.log, step.mode, step.messages, step.channel);
    SendKeepsRoom(s, step.mode, step.messages, step.channel);
  }

  lemma CapacityIgnoresCoalescing(s: SendState, mode: Reliability, lengths: seq<nat>)
    ensures HasBatchCapacity(EnableCoalescing(s), mode, lengths) == HasBatchCapacity(s, mode, lengths)
  {
  }

  lemma PreparedLedger(w: World, s: SendState, log: seq<Plan.Sent>)
    requires Prepared(w, s, log)
    ensures Ledgered(s) && Ready(s, w.sender.flight.sequence, w.sent, log)
  {
    hide NetOk, NoLoss, InboundOk, ReceivedOk, AcksOk, Ledgered, Cached, Flushable;
  }

  // ---------------------------------------------------------------------
  // Replies.

  lemma {:induction false} PackablesConcat(a: seq<Packet>, b: seq<Packet>)
    ensures Packables(a + b) == Packables(a) + Packables(b)
    decreases |a|
  {
    hide Packable;
    if a == [] {
      assert a + b == b;
    } else {
      assert (a + b)[1..] == a[1..] + b;
      PackablesConcat(a[1..], b);
    }
  }

  lemma {:induction false} FragmentsNotPackable(packets: seq<Packet>, message: nat)
    requires FragmentsOf(packets, message)
    ensures Packables(packets) == 0
    decreases |packets|
  {
    if packets != [] {
      FragmentsNotPackable(packets[1..], message);
    }
  }

  /** A message adds at most one frame that could be packed, and only when it is ordered and not cut. */
  function PackablePart(mtu: u16, mode: Reliability, length: nat): nat {
    if mode.ReliableOrdered? && !Splits(mtu, mode, length) then 1 else 0
  }

  lemma AddedPackables(s: SendState, mode: Reliability, data: seq<byte>, channel: byte)
    requires s.mtu > 60 && (Splits(s.mtu, mode, |data|) ==> DivCeil(|data|, s.mtu - 60) <= Fragments.MAX_FRAGMENTS)
    ensures Packables(Added(s, mode, data, channel)) <= PackablePart(s.mtu, mode, |data|)
  {
    hide Pieces, Packable, DivCeil, Whole;
    if Splits(s.mtu, mode, |data|) {
      PiecesAreFragments(s.counters, data, s.mtu - 60, channel);
      FragmentsNotPackable(Pieces(s.counters, data, s.mtu - 60, channel), s.counters.compound);
    } else {
      var p := Whole(s.counters, mode, data, channel);
      assert [p][1..] == [];
      if !mode.ReliableOrdered? {
        WholeMode(s.counters, mode, data, channel);
      }
    }
  }

  lemma WholeMode(c: Counters, mode: Reliability, data: seq<byte>, channel: byte)
    requires !mode.ReliableOrdered?
    ensures !Packable(Whole(c, mode, data, channel))
  {
    hide Wrap;
  }

  /** The invariant but for calm, which an insertion without a flush may disturb. */
  ghost predicate Unsettled(w: World, s: SendState, log: seq<Plan.Sent>) {
    && Resting(s, w.sent, log)
    && NoLoss(s, log, w.seen)
    && InboundOk(w.receiver, w.delivered, log, w.seen)
    && Roomy(s)
    && s.flight == w.sender.flight && s.mtu == w.sender.mtu
  }

  lemma UnsettledPrepared(w: World, s: SendState, log: seq<Plan.Sent>)
    requires Live(w) && Unsettled(w, s, log)
    ensures Prepared(w, s, log) && Ledgered(s)
  {
    hide NetOk, NoLoss, InboundOk, ReceivedOk, AcksOk, Cached, Ledgered, Flushable;
  }

  /** One insertion of a reply. */
  lemma InsertUnsettles(w: World, s: SendState, log: seq<Plan.Sent>, mode: Reliability, data: seq<byte>)
    requires Live(w) && Unsettled(w, s, log) && |data| <= MAX_REPLY
    ensures var (t, r) := Enqueue(s, mode, data, 0); var log' := Extended(s, log, mode, data, 0);
      && Unsettled(w, t, log')
      && (r.Err? ==> t == s && log' == log)
      && Packables(t.queue.packets) <= Packables(s.queue.packets) + PackablePart(s.mtu, mode, |data|)
  {
    hide Enqueue, Ready, NetOk, NoLoss, InboundOk, ReceivedOk, AcksOk, Extended, Packables, Added, AllSent, Held,
      DivCeil, Counted, Roomy, Ledgered, Live;
    UnsettledPrepared(w, s, log);
    EnqueuePrepared(w, s, log, mode, data, 0);
    ReplyKeepsRoom(s, mode, data, 0);
    if Enqueue(s, mode, data, 0).1.Ok? {
      EnqueueAdds(s, mode, data, 0);
      AddedPackables(s, mode, data, 0);
      PackablesConcat(s.queue.packets, Added(s, mode, data, 0));
    } else {
      RefusedIsSame(s, mode, data, 0);
      RefusedNotLogged(s, log, mode, data);
    }
  }

  lemma RefusedNotLogged(s: SendState, log: seq<Plan.Sent>, mode: Reliability, data: seq<byte>)
    requires Enqueue(s, mode, data, 0).1.Err?
    ensures Extended(s, log, mode, data, 0) == log
  {
    hide Enqueue;
  }

  lemma LiveUnsettled(w: World)
    requires Live(w)
    ensures Unsettled(w, w.sender, w.log)
  {
    hide Resting, NetOk, NoLoss, InboundOk, ReceivedOk, AcksOk, Calm, Roomy;
  }

  lemma ExtendedUnfold(s: SendState, log: seq<Plan.Sent>, replies: Replies)
    requires 1 <= |replies| <= 2
    ensures var (t, r) := Enqueue(s, replies[0].0, replies[0].1, 0);
      var log1 := Extended(s, log, replies[0].0, replies[0].1, 0);
      ExtendedReplies(s, log, replies)
        == if |replies| == 1 || r.Err? then log1 else Extended(t, log1, replies[1].0, replies[1].1, 0)
  {
    hide Enqueue, Extended;
    var one := replies[..1];
    assert one == [replies[0]] && one[..0] == replies[..0] && |replies[..0]| == 0;
    assert EnqueueReplies(s, replies[..0]) == (s, Ok(())) && ExtendedReplies(s, log, replies[..0]) == log;
    RepliesUnfold(s, one);
  }

  /** So close to the cap nothing as long as a ping goes in. */
  lemma TightRefuses(s: SendState, mode: Reliability, data: seq<byte>)
    requires s.mtu > 60 && |data| >= PING && Tight(s)
    ensures Enqueue(s, mode, data, 0).1.Err?
  {
    hide Pieces, Whole, DivCeil;
    if Splits(s.mtu, mode, |data|) {
      SplitsInTwo(|data|, s.mtu - 60);
    }
  }

  lemma PingRefused(s: SendState, ping: seq<byte>)
    requires s.mtu > 60 && |ping| == PING && Enqueue(s, Unreliable, ping, 0).1.Err?
    ensures Tight(s) || s.mtu - 60 < PING
  {
    hide Whole;
  }

  /**
   A whole reply leaves at most one frame to pack. Half a reply leaves one only
   when the cap cut it short, and after that nothing more fits until a flush.
   */
  lemma ReplyIsCalm(w: World, replies: Replies)
    requires Live(w) && !w.replying && Announces(replies)
    ensures var (s, r) := EnqueueReplies(w.sender, replies);
      Unsettled(w, s, ExtendedReplies(w.sender, w.log, replies)) && Calm(s, r.Ok?)
  {
    hide Enqueue, Extended, Packables, Unsettled, Live, Roomy, Tight;
    LiveUnsettled(w);
    LiveCalm(w);
    LiveRoom(w);
    RepliesUnfold(w.sender, replies);
    ExtendedUnfold(w.sender, w.log, replies);
    if Tight(w.sender) {
      TightRefuses(w.sender, replies[0].0, replies[0].1);
    }
    var (t, first) := Enqueue(w.sender, replies[0].0, replies[0].1, 0);
    var log1 := Extended(w.sender, w.log, replies[0].0, replies[0].1, 0);
    InsertUnsettles(w, w.sender, w.log, replies[0].0, replies[0].1);
    UnsettledFlight(w, t, log1);
    if |replies| == 2 && first.Ok? {
      var ping := replies[1].1;
      InsertUnsettles(w, t, log1, Unreliable, ping);
      UnsettledFlight(w, Enqueue(t, Unreliable, ping, 0).0, Extended(t, log1, Unreliable, ping, 0));
      if Enqueue(t, Unreliable, ping, 0).1.Err? {
        PingRefused(t, ping);
      }
    }
  }

  /** The notice of closing is never packed. */
  lemma LeaveLives(w: World)
    requires Live(w)
    ensures Live(Leaving(w))
  {
    hide Enqueue, Extended, Packables, Resting, NetOk, NoLoss, InboundOk, ReceivedOk, AcksOk, Roomy;
    LiveUnsettled(w);
    InsertUnsettles(w, w.sender, w.log, Reliable, [DISCONNECT]);
    EnqueueKeepsTight(w.sender, Reliable, [DISCONNECT], 0);
    AcksIgnoreSender(w, Leaving(w));
  }

  lemma EnqueueKeepsTight(s: SendState, mode: Reliability, data: seq<byte>, channel: byte)
    ensures Tight(s) ==> Tight(Enqueue(s, mode, data, channel).0)
  {
    hide Pieces, Whole, DivCeil;
  }

  lemma LiveCalm(w: World)
    requires Live(w)
    ensures Calm(w.sender, w.replying)
  {
  }

  lemma LiveRoom(w: World)
    requires Live(w)
    ensures Ledgered(w.sender) && Flushable(w.sender) && Roomy(w.sender) && 60 < w.sender.mtu <= 1492
  {
    hide NetOk, NoLoss, InboundOk, ReceivedOk, AcksOk, Calm, Ledgered, Flushable, Roomy;
  }

  lemma UnsettledFlight(w: World, s: SendState, log: seq<Plan.Sent>)
    requires Unsettled(w, s, log)
    ensures s.flight == w.sender.flight && s.mtu == w.sender.mtu
  {
  }

  lemma ReplyLives(w: World, replies: Replies, w': World)
    requires Live(w) && Answers(w, replies, w')
    ensures Live(w')
  {
    hide EnqueueReplies, ExtendedReplies, Resting, NetOk, NoLoss, InboundOk, ReceivedOk, Calm, AcksOk, Announces, Roomy;
    ReplyIsCalm(w, replies);
    AcksIgnoreSender(w, w');
  }

  // ---------------------------------------------------------------------
  // Feedback.

  lemma SameNumberSameId(a: nat, b: nat, sequence: nat)
    requires a < sequence <= a + EPOCH && b < sequence <= b + EPOCH && Wrap(a) == Wrap(b)
    ensures a == b
  {
    WrapInjective(a, b);
  }

  /** An acknowledged number names a datagram the receiver took whole, so what the sender retires was accepted. */
  lemma RetiredWasAccepted(w: World, receipt: Receipt, at: nat, p: Packet)
    requires Live(w) && receipt in w.receipts && Recent(w, receipt.ids) && ReadControl(receipt.bytes).Ok?
    requires p in Held(w.sender) && p !in Held(AckRanges(w.sender, ReadControl(receipt.bytes).value, at))
      && p.frame.IsReliable()
    ensures w.seen.Has(p.serial)
  {
    hide AckRanges, ReadControl, Ready, NetOk, NoLoss, InboundOk, Held, Covered, AllSent;
    var ranges, sequence := ReadControl(receipt.bytes).value, w.sender.flight.sequence;
    var id := RetiredWasNamed(w.sender, ranges, at, w.sent, w.log, p);
    assert ReceiptOk(receipt, w.received);
    var taken :| taken in receipt.ids && Wrap(taken) == Wrap(id);
    ReadyParts(w.sender, sequence, w.sent, w.log);
    SameNumberSameId(taken, id, sequence);
    assert Outgoing(p, id) in w.sent;
  }

  lemma AckPrepared(w: World, receipt: Receipt, at: nat)
    requires Live(w) && receipt in w.receipts && Recent(w, receipt.ids) && ReadControl(receipt.bytes).Ok?
    ensures var t := AckRanges(w.sender, ReadControl(receipt.bytes).value, at);
      Prepared(w, t, w.log) && Roomy(t)
  {
    hide AckRanges, ReadControl, Ready, NetOk, InboundOk, Held, Recent, ReceivedOk, AcksOk, AllSent, Inbound.Arrived,
      Roomy;
    var ranges := ReadControl(receipt.bytes).value;
    var t := AckRanges(w.sender, ranges, at);
    AckReady(w.sender, ranges, at, w.sent, w.log);
    AckKeepsRoom(w.sender, ranges, at);
    ReadyParts(w.sender, w.sender.flight.sequence, w.sent, w.log);
    forall j, i | 0 <= j < |w.log| && 0 <= i < |w.log[j].packets|
      ensures Inbound.Arrived(w.log[j], w.seen, i) || w.log[j].packets[i] in Held(t)
    {
      var p := w.log[j].packets[i];
      if !Inbound.Arrived(w.log[j], w.seen, i) && p !in Held(t) {
        LoggedIsReliable(w.log, j, i);
        RetiredWasAccepted(w, receipt, at, p);
        ArrivedIsSeen(w.log[j], w.seen, i);
      }
    }
  }

  lemma ArrivedIsSeen(m: Plan.Sent, seen: Seen, i: nat)
    ensures Inbound.Arrived(m, seen, i) <==> seen.Has(m.first + i)
  {
  }

  lemma NackPrepared(w: World, ranges: seq<Range>, at: nat)
    requires Live(w)
    ensures var t := w.sender.(flight := NackRanges(w.sender.flight, ranges, at));
      Prepared(w, t, w.log) && Roomy(t)
  {
    hide NackRanges, Ready, NetOk, InboundOk, ReceivedOk, AcksOk, AllSent, Inbound.Arrived, Packets;
    NackReady(w.sender, ranges, at, w.sent, w.log);
    NackKeepsPackets(w.sender.flight, ranges, at);
  }

  lemma NackKeepsPackets(f: Flight, ranges: seq<Range>, at: nat)
    ensures Packets(NackRanges(f, ranges, at).items) == Packets(f.items)
  {
    hide NackRanges, Packets, Covered, Changed;
    NackRangesExact(f, ranges, at);
    SamePacketsWeigh(f.items, NackRanges(f, ranges, at).items);
  }
}
