/** Whole runs of the transport: nothing is lost silently, and delivery is in order. */
module Runs {
  import opened AckSet
  import opened Admission
  import opened Bytes
  import opened ControlReplies
  import opened Custody
  import opened Datagrams
  import opened Deadlines
  import opened Delivery
  import opened Errors
  import opened FrameCodec
  import opened Frames
  import opened Inbound
  import opened Ledger
  import opened Outbound
  import opened Packing
  import opened RangeCodec
  import opened Room
  import opened Safety
  import opened Sender
  import opened Serial
  import opened Sums
  import opened Transport
  import opened Window
  import Fragments
  import Plan
  import Receiver
  import Reorder

  // ---------------------------------------------------------------------
  // How far the sender can run ahead of the receiver.

  ghost function SerialSet(held: multiset<Packet>): set<nat> {
    set p | p in held :: p.serial
  }

  lemma {:induction false} SerialSetBounded(held: multiset<Packet>)
    ensures |SerialSet(held)| <= |held|
    decreases |held|
  {
    if |held| > 0 {
      var p :| p in held;
      var rest := held - multiset{p};
      SerialSetBounded(rest);
      forall n <- SerialSet(held) ensures n in SerialSet(rest) + {p.serial} {
        var q :| q in held && q.serial == n;
        assert q == p || q in rest;
      }
      Subset(SerialSet(held), SerialSet(rest) + {p.serial});
    } else {
      assert SerialSet(held) == {};
    }
  }

  lemma UnionSize(a: set<nat>, b: set<nat>)
    ensures |a + b| <= |a| + |b|
  {
    assert a + b == a + (b - a);
    Subset(b - a, b);
  }

  ghost function Between(low: nat, high: nat): (s: set<nat>)
    requires low <= high
    ensures |s| == high - low && forall n: nat :: n in s <==> low <= n < high
    decreases high - low
  {
    if low == high then {} else Between(low, high - 1) + {high - 1}
  }

  lemma BaseInside(q: Receiver.RecvState, delivered: seq<Frame>, log: seq<Plan.Sent>, seen: Seen)
    requires InboundOk(q, delivered, log, seen)
    ensures seen.Valid() && seen.base <= Plan.Serials(log)
  {
    hide Plan.Serials, Fragments.Holds, ChannelOk, GroupsOk, Reorder.ReceiverValid;
    if seen.base > 0 {
      assert seen.Has(seen.base - 1);
    }
  }

  /** Every index past the base has been accepted, or is still held. */
  lemma AheadIsHeld(w: World, n: nat)
    requires Live(w) && w.seen.base <= n < Plan.Serials(w.log)
    ensures n in w.seen.ahead || n in SerialSet(Held(w.sender))
  {
    hide Held, NetOk, InboundOk, ReceivedOk, AcksOk, Calm, Plan.ValidLog, Plan.Logged, Cached, Ledgered, Flushable;
    RestingParts(w.sender, w.sent, w.log);
    var j := Plan.BySerial(w.log, n);
    var i := n - w.log[j].first;
    LoggedIsReliable(w.log, j, i);
    ArrivedIsSeen(w.log[j], w.seen, i);
  }

  /** The sender never runs more than a small part of an epoch ahead. */
  lemma SenderIsNear(w: World)
    requires Live(w)
    ensures Plan.Serials(w.log) <= w.seen.base + 589824 < w.seen.base + HALF
  {
    hide Held, NetOk, NoLoss, ReceivedOk, AcksOk, Calm, Plan.ValidLog, Plan.Logged, Cached, Flushable, InboundOk,
      Plan.Serials, Ledgered, SerialSet;
    BaseInside(w.receiver, w.delivered, w.log, w.seen);
    var base, top := w.seen.base, Plan.Serials(w.log);
    var ahead, held := w.seen.ahead, SerialSet(Held(w.sender));
    LiveLedger(w);
    FramesBounded(w.sender);
    HeldCount(w.sender);
    SerialSetBounded(Held(w.sender));
    Subset(ahead, Between(base, base + RECEIVE_WINDOW));
    forall n <- Between(base, top) ensures n in ahead + held {
      AheadIsHeld(w, n);
    }
    Subset(Between(base, top), ahead + held);
    UnionSize(ahead, held);
  }

  lemma LiveLedger(w: World)
    requires Live(w)
    ensures Ledgered(w.sender)
  {
    hide NetOk, NoLoss, ReceivedOk, AcksOk, Calm, InboundOk, Ledgered;
  }

  lemma HeldCount(s: SendState)
    ensures |Held(s)| == |s.queue.packets| + |s.flight.items|
  {
    hide Packets;
    PacketsCount(s.flight.items);
    assert |multiset(s.queue.packets)| == |s.queue.packets|;
  }

  // ---------------------------------------------------------------------
  // A datagram arrives.

  lemma SeenAfterKeeps(seen: Seen, r: nat, n: nat)
    requires seen.Valid() && seen.Has(n)
    ensures SeenAfter(seen, r).Has(n)
  {
  }

  lemma {:induction false} SeenAllKeeps(seen: Seen, contents: seq<Outgoing>, n: nat)
    requires seen.Valid() && seen.Has(n)
    ensures SeenAll(seen, contents).Has(n)
    decreases |contents|
  {
    hide SeenAfter;
    if contents != [] {
      var front, p := contents[..|contents| - 1], contents[|contents| - 1].packet;
      SeenAllKeeps(seen, front, n);
      SeenAfterKeeps(SeenAll(seen, front), p.serial, n);
    }
  }

  lemma ReceiveAcks(q: Receiver.RecvState, f: Frame)
    requires f.Mode().Ok?
    ensures Receiver.Receive(q, f).0.acks == AckSet.Insert(q.acks, f.sequenceNumber)
  {
    hide AckSet.Insert, Window.Accept, Fragments.InsertAndTake, Receiver.Place;
  }

  /** Frames of a datagram, as known to the log. */
  ghost predicate Arriving(contents: seq<Outgoing>, log: seq<Plan.Sent>, mtu: u16) {
    forall i | 0 <= i < |contents| ::
      && Known(log, contents[i].packet) && Fit(contents[i].packet, mtu)
      && (contents[i].packet.frame.IsReliable() ==> Plan.Serials(log) <= contents[i].packet.serial + HALF)
  }

  ghost predicate AllSeen(contents: seq<Outgoing>, seen: Seen) {
    forall i | 0 <= i < |contents| && contents[i].packet.frame.IsReliable() :: seen.Has(contents[i].packet.serial)
  }

  /** One frame of a datagram. */
  lemma FrameArrives(q: Receiver.RecvState, o: Outgoing, delivered: seq<Frame>, log: seq<Plan.Sent>, seen: Seen,
      mtu: u16)
    requires Plan.ValidLog(log) && InboundOk(q, delivered, log, seen) && seen.Valid()
    requires Known(log, o.packet) && Fit(o.packet, mtu)
    requires o.packet.frame.IsReliable() ==> Plan.Serials(log) <= o.packet.serial + HALF
    requires Plan.Serials(log) <= seen.base + HALF
    ensures var (q', r) := Receiver.Receive(q, o.Wire());
      var later := if o.packet.frame.IsReliable() then SeenAfter(seen, o.packet.serial) else seen;
      r.Ok? ==> InboundOk(q', delivered, log, later) && (o.packet.frame.IsReliable() ==> later.Has(o.packet.serial))
  {
    hide Plan.ValidLog, InboundOk, Receiver.Receive, SeenAfter, Plan.Serials, ValidFrame, Canonical;
    WireMode(o, mtu);
    if o.packet.frame.IsReliable() {
      var j :| 0 <= j < |log| && Outbound.At(log[j], o.packet);
      BaseInside(q, delivered, log, seen);
      Plan.EntryInside(log, j);
      assert Carries(o.Wire(), log[j], o.packet.serial - log[j].first);
      ReceiveReliable(q, o.Wire(), delivered, log, seen, j, o.packet.serial);
    } else {
      ReceiveUnreliable(q, o.Wire(), delivered, log, seen);
    }
  }

  lemma WireMode(o: Outgoing, mtu: u16)
    requires Fit(o.packet, mtu)
    ensures o.Wire().Mode() == o.packet.frame.Mode() && o.Wire().Mode().Ok? && o.Wire().sequenceNumber == Wrap(o.id)
    ensures o.packet.frame.IsReliable() <==> ModeReliable(o.Wire().Mode().value)
  {
    hide Wrap;
  }

  lemma {:induction false} IntakeDelivers(q: Receiver.RecvState, contents: seq<Outgoing>, delivered: seq<Frame>,
      log: seq<Plan.Sent>, seen: Seen, mtu: u16)
    requires Plan.ValidLog(log) && InboundOk(q, delivered, log, seen) && seen.Valid()
    requires Arriving(contents, log, mtu) && Plan.Serials(log) <= seen.base + HALF
    ensures var (q', ready, r) := Intake(q, Wires(contents));
      r.Ok? ==>
        && InboundOk(q', delivered + ready, log, SeenAll(seen, contents))
        && AllSeen(contents, SeenAll(seen, contents))
    decreases |contents|
  {
    hide Plan.ValidLog, InboundOk, Receiver.Receive, Receiver.Flush, SeenAfter, Plan.Serials, Known, Fit;
    if contents == [] {
      assert delivered + [] == delivered;
    } else {
      var front, last := contents[..|contents| - 1], contents[|contents| - 1];
      assert Wires(contents)[..|front|] == Wires(front);
      IntakeDelivers(q, front, delivered, log, seen, mtu);
      var (q1, ready, r) := Intake(q, Wires(front));
      if r.Ok? {
        var s1 := SeenAll(seen, front);
        FrameArrives(q1, last, delivered + ready, log, s1, mtu);
        var (q2, taken) := Receiver.Receive(q1, last.Wire());
        if taken.Ok? {
          var later := SeenAll(seen, contents);
          FlushDelivers(q2, delivered + ready, log, later);
          var (q3, more) := Receiver.Flush(q2);
          assert delivered + ready + more == delivered + (ready + more);
          forall i | 0 <= i < |contents|
            && contents[i].packet.frame.IsReliable() ensures later.Has(contents[i].packet.serial) {
            if i < |front| {
              assert contents[i] == front[i];
              SeenStep(s1, last, front[i].packet.serial);
            }
          }
        }
      }
    }
  }

  lemma SeenStep(seen: Seen, o: Outgoing, n: nat)
    requires seen.Valid() && seen.Has(n)
    ensures (if o.packet.frame.IsReliable() then SeenAfter(seen, o.packet.serial) else seen).Has(n)
  {
    SeenAfterKeeps(seen, o.packet.serial, n);
  }

  /** Acknowledgement records only gain the datagram's number. */
  lemma {:induction false} IntakeAcks(q: Receiver.RecvState, contents: seq<Outgoing>, id: nat, ids: set<nat>, mtu: u16)
    requires WellFormed(q.acks.ack) && CoversOnly(q.acks.ack, ids) && id in ids
    requires forall i | 0 <= i < |contents| :: Fit(contents[i].packet, mtu) && contents[i].id == id
    ensures var q' := Intake(q, Wires(contents)).0;
      Intake(q, Wires(contents)).2.Ok? ==> WellFormed(q'.acks.ack) && CoversOnly(q'.acks.ack, ids)
    decreases |contents|
  {
    hide Receiver.Receive, Receiver.InOrder, Fit, CoversOnly, WellFormed;
    if contents != [] {
      var front, last := contents[..|contents| - 1], contents[|contents| - 1];
      assert Wires(contents)[..|front|] == Wires(front);
      IntakeAcks(q, front, id, ids, mtu);
      var (q1, ready, r) := Intake(q, Wires(front));
      if r.Ok? {
        WireMode(last, mtu);
        ReceiveAcks(q1, last.Wire());
        InsertCovers(q1.acks, id, ids);
      }
    }
  }

  lemma InsertCovers(a: AckState, id: nat, ids: set<nat>)
    requires WellFormed(a.ack) && CoversOnly(a.ack, ids) && id in ids
    ensures WellFormed(AckSet.Insert(a, Wrap(id)).ack) && CoversOnly(AckSet.Insert(a, Wrap(id)).ack, ids)
  {
    hide Acknowledge, Covered, Retain, Passed, Wrap;
    AcknowledgeExact(a.ack, Wrap(id), 0, 0);
    forall n: u24 | Covered(Acknowledge(a.ack, Wrap(id), 0), n) ensures exists k <- ids :: Wrap(k) == n {
      AcknowledgeExact(a.ack, Wrap(id), 0, n);
    }
  }

  lemma CoversMore(ranges: seq<Range>, ids: set<nat>, more: set<nat>)
    requires CoversOnly(ranges, ids) && ids <= more
    ensures CoversOnly(ranges, more)
  {
    hide Covered, Wrap;
    forall n: u24 | Covered(ranges, n) ensures exists id <- more :: Wrap(id) == n {
      var id :| id in ids && Wrap(id) == n;
    }
  }

  lemma ContentsArriving(w: World, d: Datagram)
    requires Live(w) && d in w.net && Transport.Timely(w, d.contents)
    ensures Arriving(d.contents, w.log, w.sender.mtu)
    ensures d.contents != [] && Decode(d.bytes) == Ok(Wires(d.contents))
    ensures forall i | 0 <= i < |d.contents| :: d.contents[i].id == d.contents[0].id
  {
    hide Decode, Known, Fit, NoLoss, InboundOk, ReceivedOk, AcksOk, Calm, Ready, Plan.Serials, Wires;
    RestingParts(w.sender, w.sent, w.log);
    assert DatagramOk(d, w.sent);
    forall i | 0 <= i < |d.contents|
      ensures Known(w.log, d.contents[i].packet) && Fit(d.contents[i].packet, w.sender.mtu)
        && d.contents[i].id == d.contents[0].id
    {
      assert d.contents[i] in d.contents;
    }
  }

  lemma NoLossAfter(s: SendState, log: seq<Plan.Sent>, seen: Seen, contents: seq<Outgoing>)
    requires NoLoss(s, log, seen) && seen.Valid()
    ensures NoLoss(s, log, SeenAll(seen, contents))
  {
    hide Held, SeenAll, Inbound.Arrived;
    forall j, i | 0 <= j < |log| && 0 <= i < |log[j].packets|
      ensures Inbound.Arrived(log[j], SeenAll(seen, contents), i) || log[j].packets[i] in Held(s)
    {
      ArrivedIsSeen(log[j], seen, i);
      ArrivedIsSeen(log[j], SeenAll(seen, contents), i);
      if Inbound.Arrived(log[j], seen, i) {
        SeenAllKeeps(seen, contents, log[j].first + i);
      }
    }
  }

  lemma ReceivedAfter(w: World, d: Datagram)
    requires ReceivedOk(w.received, w.sent, w.seen, w.sender.flight.sequence) && DatagramOk(d, w.sent) && w.seen.Valid()
    requires AllSeen(d.contents, SeenAll(w.seen, d.contents)) && SentBelow(w.sent, w.sender.flight.sequence)
    ensures ReceivedOk(w.received + {d.contents[0].id}, w.sent, SeenAll(w.seen, d.contents), w.sender.flight.sequence)
  {
    hide Decode, Wires, SeenAll;
    var id := d.contents[0].id;
    assert d.contents[0] in d.contents;
    forall o <- w.sent | o.id in w.received + {id} && o.packet.frame.IsReliable()
      ensures SeenAll(w.seen, d.contents).Has(o.packet.serial)
    {
      if o.id == id {
        assert o in d.contents;
        var i :| 0 <= i < |d.contents| && d.contents[i] == o;
      } else {
        SeenAllKeeps(w.seen, d.contents, o.packet.serial);
      }
    }
  }

  lemma ReceiptsStay(receipts: set<Receipt>, received: set<nat>, more: set<nat>)
    requires (forall receipt <- receipts :: ReceiptOk(receipt, received)) && received <= more
    ensures forall receipt <- receipts :: ReceiptOk(receipt, more)
  {
    hide CoversOnly, ReadControl;
  }

  /** An arriving datagram, first or repeated, keeps the invariant; one the receiver refuses hands nothing over. */
  lemma ArriveLives(w: World, d: Datagram, w': World)
    requires Live(w) && Arrives(w, d, w')
    ensures Live(w')
    ensures w'.receiverClosed && !w.receiverClosed ==> w'.delivered == w.delivered
  {
    hide Roomy, Decode, NoLoss, InboundOk, Calm, Resting, Plan.Serials, Wires, Intake, SeenAll, ReceivedOk,
      Transport.Timely, NetOk, Arriving, CoversOnly, WellFormed, ReceiptOk;
    ContentsArriving(w, d);
    var (q, ready, r) := Intake(w.receiver, Wires(d.contents));
    if r.Ok? {
      var id, mtu := d.contents[0].id, w.sender.mtu;
      SenderIsNear(w);
      RestingBelow(w.sender, w.sent, w.log);
      IntakeDelivers(w.receiver, d.contents, w.delivered, w.log, w.seen, mtu);
      NoLossAfter(w.sender, w.log, w.seen, d.contents);
      NetHas(w, d);
      ReceivedAfter(w, d);
      ReceiptsStay(w.receipts, w.received, w.received + {id});
      CoversMore(w.receiver.acks.ack, w.pending, w.pending + {id});
      ArrivingFits(d.contents, w.log, mtu);
      IntakeAcks(w.receiver, d.contents, id, w.pending + {id}, mtu);
    }
  }

  lemma ArrivingFits(contents: seq<Outgoing>, log: seq<Plan.Sent>, mtu: u16)
    requires Arriving(contents, log, mtu)
    ensures forall i | 0 <= i < |contents| :: Fit(contents[i].packet, mtu)
  {
    hide Fit, Known, Plan.Serials;
  }

  lemma NetHas(w: World, d: Datagram)
    requires NetOk(w.net, w.sent) && d in w.net
    ensures DatagramOk(d, w.sent)
  {
  }

  lemma RestingBelow(s: SendState, sent: set<Outgoing>, log: seq<Plan.Sent>)
    requires Resting(s, sent, log)
    ensures SentBelow(sent, s.flight.sequence) && Plan.ValidLog(log)
  {
  }

  // ---------------------------------------------------------------------
  // The remaining steps.

  lemma NothingCovered(ids: set<nat>)
    ensures CoversOnly([], ids) && WellFormed([])
  {
  }

  lemma TakeAckLives(w: World)
    requires Live(w)
    ensures Live(w.(receiver := w.receiver.(acks := w.receiver.acks.(ack := [])), pending := {},
                    receipts := w.receipts + Issued(w.receiver.acks.ack, w.pending)))
  {
    hide NetOk, NoLoss, Resting, ReceivedOk, Calm, CoversOnly, WellFormed, ReadControl, ControlBytes, GroupsOk,
      ChannelOk, Plan.Serials, Represents;
    NothingCovered({});
    ControlRoundTrip(0xc0, w.receiver.acks.ack);
    Reorderless(w.receiver, w.receiver.acks.(ack := []));
  }

  lemma Reorderless(q: Receiver.RecvState, acks: AckState)
    requires Reorder.ReceiverValid(q)
    ensures Reorder.ReceiverValid(q.(acks := acks))
  {
  }

  lemma TakeNackLives(w: World)
    requires Live(w)
    ensures Live(w.(receiver := w.receiver.(acks := w.receiver.acks.(nack := []))))
  {
    hide NetOk, NoLoss, Resting, ReceivedOk, Calm, CoversOnly, WellFormed, ReadControl, GroupsOk, ChannelOk,
      Plan.Serials, Represents;
    Reorderless(w.receiver, w.receiver.acks.(nack := []));
  }

  lemma StartLives(mtu: u16)
    requires 60 < mtu <= 1492
    ensures Live(Start(mtu))
  {
    var w := Start(mtu);
    NewIsLedgered(mtu);
    NothingLong();
    StartReceives();
    NothingCovered({});
    hide Ledgered, InboundOk;
  }

  lemma StartReceives()
    ensures InboundOk(Receiver.NEW_RECEIVER, [], [], Seen(0, {}))
  {
    var q, seen := Receiver.NEW_RECEIVER, Seen(0, {});
    assert Reorder.ReceiverValid(q) by {
      assert Reorder.HeldCharges(q.order.held) == map[];
    }
    forall c: byte ensures ChannelOk(q.order, c, PayloadsOn([], c), [], seen) {
      assert PayloadsOn([], c) == [] && Plan.Accepted([], c) == [];
    }
    assert q.window.pending == set n | n in seen.ahead :: Wrap(n);
  }

  // ---------------------------------------------------------------------
  // Runs.

  lemma LiveInbound(w: World)
    requires Live(w)
    ensures InboundOk(w.receiver, w.delivered, w.log, w.seen) && Resting(w.sender, w.sent, w.log)
      && Calm(w.sender, w.replying)
  {
    hide NetOk, NoLoss, Resting, ReceivedOk, Calm, InboundOk, AcksOk, Roomy;
  }

  lemma SendLives(w: World, step: Step, w': World)
    requires Live(w) && step.Send? && Sends(w, step, w')
    ensures Live(w')
  {
    hide Live, Prepared, Flush, SendQueue, SendLog, Sorted, Reordered, IsPermutation, Tick, Flushing, Transmitted,
      HasBatchCapacity, Fits, Lengths, WholeDatagram;
    SendInserts(w, step);
    var s, log := SendQueue(w, step), SendLog(w, step);
    PreparedLedger(w, s, log);
    TransmittedWhole(s, w.sender.flight.sequence, w.sent, log, step.at, step.order);
    var r := Flush(s, step.at, step.order);
    FlushLives(w, s, log, step.at, step.order, Transmitted(r.out, r.coalesced), w.replying);
  }

  /** Steps that end in a flush sent by the socket's grouping. */
  lemma GroupedLives(w: World, s: SendState, at: nat, order: seq<nat>)
    requires Prepared(w, s, w.log) && Roomy(s) && Sorting(s, at, order)
    ensures var r := Flush(s, at, order); Live(Flushing(w, r, w.log, Transmitted(r.out, r.coalesced), false))
  {
    hide Live, Prepared, Flush, Sorted, Reordered, IsPermutation, Tick, Flushing, Transmitted, WholeDatagram;
    PreparedLedger(w, s, w.log);
    TransmittedWhole(s, w.sender.flight.sequence, w.sent, w.log, at, order);
    var r := Flush(s, at, order);
    FlushLives(w, s, w.log, at, order, Transmitted(r.out, r.coalesced), false);
  }

  lemma MaintainLives(w: World, at: nat, order: seq<nat>)
    requires Live(w) && Sorting(w.sender, at, order)
    ensures Live(Flushing(w, Flush(w.sender, at, order), w.log, Alone(Flush(w.sender, at, order).out), w.replying))
  {
    hide Live, Prepared, Flush, Sorted, Reordered, IsPermutation, Tick, Flushing, Alone, WholeDatagram, Calm, Resting;
    LivePrepared(w);
    LiveInbound(w);
    PreparedLedger(w, w.sender, w.log);
    MaintenanceWhole(w.sender, w.sender.flight.sequence, w.sent, w.log, at, order, w.replying);
    FlushLives(w, w.sender, w.log, at, order, Alone(Flush(w.sender, at, order).out), w.replying);
  }

  /** Every step of either peer keeps the invariant. */
  lemma StepLives(w: World, step: Step, w': World)
    requires Live(w) && StepsTo(w, step, w')
    ensures Live(w')
  {
    hide SenderStep, ReceiverStep;
    if SenderStep(w, step, w') {
      SenderLives(w, step, w');
    } else {
      ReceiverLives(w, step, w');
    }
  }

  lemma SenderLives(w: World, step: Step, w': World)
    requires Live(w) && SenderStep(w, step, w')
    ensures Live(w')
  {
    hide Live, Flush, Sorted, Reordered, IsPermutation, Tick, Flushing, Transmitted, Alone, Sends, Answers, AckRanges,
      NackRanges, Recent, ReadControl, Prepared, Roomy;
    match step
    case Send(_, _, _, _, _, _) => SendLives(w, step, w');
    case Reply(replies) => ReplyLives(w, replies, w');
    case Leave => LeaveLives(w);
    case Answer(at, order) =>
      LivePrepared(w);
      GroupedLives(w, w.sender, at, order);
    case Acked(receipt, at, order) =>
      AckPrepared(w, receipt, at);
      GroupedLives(w, AckRanges(w.sender, ReadControl(receipt.bytes).value, at), at, order);
    case Nacked(ranges, at, order) =>
      NackPrepared(w, ranges, at);
      GroupedLives(w, w.sender.(flight := NackRanges(w.sender.flight, ranges, at)), at, order);
    case Maintain(at, order) => MaintainLives(w, at, order);
    case CloseSender => ClosingLives(w, w');
    case _ =>
  }

  lemma ReceiverLives(w: World, step: Step, w': World)
    requires Live(w) && ReceiverStep(w, step, w')
    ensures Live(w')
  {
    hide Live, Arrives, Issued;
    match step
    case Arrive(d) => ArriveLives(w, d, w');
    case TakeAck => TakeAckLives(w);
    case TakeNack => TakeNackLives(w);
    case CloseReceiver => ClosingLives(w, w');
    case _ =>
  }

  /** Closing stops a peer and changes nothing else. */
  lemma ClosingLives(w: World, w': World)
    requires Live(w) && w' == w.(senderClosed := w'.senderClosed, receiverClosed := w'.receiverClosed)
    ensures Live(w')
  {
    hide Resting, NetOk, NoLoss, InboundOk, ReceivedOk, Calm, Roomy;
    AcksIgnoreSender(w, w');
  }

  /** A run: one world more than there are steps. */
  ghost predicate IsRun(worlds: seq<World>, steps: seq<Step>, mtu: u16) {
    && |worlds| == |steps| + 1
    && worlds[0] == Start(mtu)
    && forall i | 0 <= i < |steps| :: StepsTo(worlds[i], steps[i], worlds[i + 1])
  }

  /** The invariant holds in every reachable state. */
  lemma {:induction false} RunIsSafe(worlds: seq<World>, steps: seq<Step>, mtu: u16, n: nat)
    requires 60 < mtu <= 1492 && IsRun(worlds, steps, mtu) && n < |worlds|
    ensures Live(worlds[n])
    decreases n
  {
    hide Live, StepsTo;
    if n == 0 {
      StartLives(mtu);
    } else {
      RunIsSafe(worlds, steps, mtu, n - 1);
      StepLives(worlds[n - 1], steps[n - 1], worlds[n]);
    }
  }

  /** In every run, a drained queue with room in its flight takes a two-part reply whole, when the ping fits. */
  lemma RepliesAreWhole(worlds: seq<World>, steps: seq<Step>, mtu: u16, n: nat, replies: Replies)
    requires 60 < mtu <= 1492 && IsRun(worlds, steps, mtu) && n < |worlds| && ReplyShape(replies) && |replies| == 2
    requires var s := worlds[n].sender;
      s.queue.packets == [] && |s.flight.items| < MAX_IN_FLIGHT && PING <= s.mtu - 60
    ensures EnqueueReplies(worlds[n].sender, replies).1.Ok?
  {
    hide IsRun, Live, EnqueueReplies, Ledgered, Flushable, Roomy;
    RunIsSafe(worlds, steps, mtu, n);
    LiveRoom(worlds[n]);
    WholeReplyFits(worlds[n].sender, replies);
  }

  /**
   In every run, on every channel, what the receiver has handed over is a
   prefix of what the sender accepted there: nothing is lost, repeated,
   reordered or altered, through packing, fragmentation, retransmission and
   wrap-around. The receiver goes on so after the sender has closed.
   */
  lemma DeliveryInOrder(worlds: seq<World>, steps: seq<Step>, mtu: u16, n: nat, channel: byte)
    requires 60 < mtu <= 1492 && IsRun(worlds, steps, mtu) && n < |worlds|
    ensures PayloadsOn(worlds[n].delivered, channel) <= Plan.Accepted(worlds[n].log, channel)
  {
    hide Live, PayloadsOn, Plan.Accepted, IsRun;
    RunIsSafe(worlds, steps, mtu, n);
    LiveInbound(worlds[n]);
    DeliveredIsPrefix(worlds[n].receiver, worlds[n].delivered, worlds[n].log, worlds[n].seen, channel);
  }

  /**
   In every run,
     a reliable frame of an accepted message that the sender no longer holds has been accepted by the receiver.
   */
  lemma NoSilentLoss(worlds: seq<World>, steps: seq<Step>, mtu: u16, n: nat, j: nat, i: nat)
    requires 60 < mtu <= 1492 && IsRun(worlds, steps, mtu) && n < |worlds|
    requires j < |worlds[n].log| && i < |worlds[n].log[j].packets|
    requires worlds[n].log[j].packets[i] !in Held(worlds[n].sender)
    ensures worlds[n].seen.Has(worlds[n].log[j].first + i)
  {
    hide PayloadsOn, Plan.Accepted, IsRun, Resting, NetOk, InboundOk, ReceivedOk, AcksOk, Calm, Held;
    RunIsSafe(worlds, steps, mtu, n);
    ArrivedIsSeen(worlds[n].log[j], worlds[n].seen, i);
  }

  /** In every run, all frames ever emitted under one number are in one datagram. */
  lemma OneNumberOneDatagram(worlds: seq<World>, steps: seq<Step>, mtu: u16, n: nat, d: Datagram, o: Outgoing)
    requires 60 < mtu <= 1492 && IsRun(worlds, steps, mtu) && n < |worlds|
    requires d in worlds[n].net
    ensures d.contents != [] && Decode(d.bytes) == Ok(Wires(d.contents))
    ensures o in d.contents <==> o in worlds[n].sent && o.id == d.contents[0].id
  {
    hide PayloadsOn, Plan.Accepted, IsRun, Resting, NoLoss, InboundOk, ReceivedOk, AcksOk, Calm, Decode, Wires;
    RunIsSafe(worlds, steps, mtu, n);
    assert DatagramOk(d, worlds[n].sent);
  }

  /** When the sender is empty, everything accepted has been handed to the receiver, and delivered once handed over. */
  lemma EmptyMeansDelivered(worlds: seq<World>, steps: seq<Step>, mtu: u16, n: nat, channel: byte)
    requires 60 < mtu <= 1492 && IsRun(worlds, steps, mtu) && n < |worlds|
    requires IsEmpty(worlds[n].sender) && worlds[n].receiver.order.ready == []
    ensures PayloadsOn(worlds[n].delivered, channel) == Plan.Accepted(worlds[n].log, channel)
  {
    hide PayloadsOn, IsRun, Resting, NetOk, ReceivedOk, AcksOk, Calm, Reorder.ReceiverValid, GroupsOk, Represents,
      Plan.Accepted, Plan.Serials, Plan.ValidLog, Plan.Logged;
    RunIsSafe(worlds, steps, mtu, n);
    var w := worlds[n];
    RestingBelow(w.sender, w.sent, w.log);
    var e := Reached(w.receiver.order, channel, PayloadsOn(w.delivered, channel));
    assert ChannelOk(w.receiver.order, channel, PayloadsOn(w.delivered, channel), w.log, w.seen);
    NoPayloads(channel);
    var all := Plan.Accepted(w.log, channel);
    if e < |all| {
      var j := Plan.ByOrder(w.log, channel, e);
      EmptyAllDone(w.sender, w.log, w.seen, j);
      NextIsIncomplete(w.receiver.order, channel, PayloadsOn(w.delivered, channel), w.log, w.seen, j);
    }
    assert PayloadsOn(w.delivered, channel) + [] == PayloadsOn(w.delivered, channel);
    assert all[..|all|] == all;
  }

  lemma EmptyAllDone(s: SendState, log: seq<Plan.Sent>, seen: Seen, j: nat)
    requires IsEmpty(s) && NoLoss(s, log, seen) && j < |log|
    ensures Done(log[j], seen)
  {
    assert Held(s) == multiset{};
    forall i: nat | i < |log[j].packets| ensures i in Got(log[j], seen) {
      assert Inbound.Arrived(log[j], seen, i);
    }
  }
}
