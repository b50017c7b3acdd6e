/** Reliable messages without order: each accepted one is handed over exactly once. */
module Unordered {
  import opened Admission
  import opened Bytes
  import opened Custody
  import opened Delivery
  import opened Errors
  import opened FrameCodec
  import opened Frames
  import opened Inbound
  import opened Outbound
  import opened Packing
  import opened Plan
  import opened Receiver
  import opened Reorder
  import opened Runs
  import opened Safety
  import opened Serial
  import opened Transport
  import opened Window
  import AckSet
  import ControlReplies
  import Datagrams
  import Fragments
  import Sender

  // ---------------------------------------------------------------------
  // What has been handed over, and what has arrived.

  /** Payloads of the reliable unordered frames. */
  function ReliableData(frames: seq<Frame>): seq<seq<byte>> {
    if frames == [] then []
    else
      var front, last := ReliableData(frames[..|frames| - 1]), frames[|frames| - 1];
      if last.flags / 32 == 2 then front + [last.data] else front
  }

  lemma ReliableSnoc(frames: seq<Frame>, f: Frame)
    ensures ReliableData(frames + [f]) == ReliableData(frames) + if f.flags / 32 == 2 then [f.data] else []
  {
    assert (frames + [f])[..|frames|] == frames;
  }

  lemma {:induction false} ReliableConcat(a: seq<Frame>, b: seq<Frame>)
    ensures ReliableData(a + b) == ReliableData(a) + ReliableData(b)
    decreases |b|
  {
    hide ReliableData;
    if b == [] {
      assert a + b == a;
      NoReliable();
    } else {
      var front, last := b[..|b| - 1], b[|b| - 1];
      assert b == front + [last] && a + b == a + front + [last];
      ReliableConcat(a, front);
      ReliableSnoc(a + front, last);
      ReliableSnoc(front, last);
    }
  }

  lemma NoReliable()
    ensures ReliableData([]) == []
  {
  }

  lemma {:induction false} OrderedGivesNone(frames: seq<Frame>)
    requires forall i | 0 <= i < |frames| :: frames[i].flags / 32 == 3
    ensures ReliableData(frames) == []
    decreases |frames|
  {
    if frames != [] {
      OrderedGivesNone(frames[..|frames| - 1]);
    }
  }

  /** Payloads of the reliable unordered messages whose frame has been accepted. */
  ghost function Arrivals(log: seq<Sent>, seen: Seen): multiset<seq<byte>> {
    if log == [] then multiset{}
    else
      var front, last := Arrivals(log[..|log| - 1], seen), log[|log| - 1];
      if last.mode.Reliable? && seen.Has(last.first) then front + multiset{last.data} else front
  }

  lemma {:induction false} ArrivalsSame(log: seq<Sent>, seen: Seen, later: Seen)
    requires forall k | 0 <= k < |log| && log[k].mode.Reliable? :: seen.Has(log[k].first) == later.Has(log[k].first)
    ensures Arrivals(log, later) == Arrivals(log, seen)
    decreases |log|
  {
    if log != [] {
      ArrivalsSame(log[..|log| - 1], seen, later);
    }
  }

  lemma FirstElsewhere(log: seq<Sent>, j: nat, r: nat, k: nat)
    requires ValidLog(log) && j < |log| && k < |log| && k != j && log[j].first <= r < log[j].Next()
    ensures log[k].first != r
  {
    hide ValidLog, WellSent;
    EntryValid(log, k);
    if log[k].first == r {
      HasFrame(log[k]) by { EntryValid(log, k); }
      SerialIsUnique(log, j, k, r);
    }
  }

  lemma HasFrame(m: Sent)
    requires WellSent(m)
    ensures m.first < m.Next() && (!m.Ordered() ==> m.Next() == m.first + 1)
  {
  }

  /** Accepting one more frame adds its message, if it is an unordered one. */
  lemma {:induction false} ArrivalsGrow(log: seq<Sent>, j: nat, r: nat, seen: Seen, later: Seen)
    requires ValidLog(log) && SawNext(log, j, r, seen, later)
    ensures Arrivals(log, later) == Arrivals(log, seen) + if log[j].mode.Reliable? then multiset{log[j].data}
      else multiset{}
    decreases |log|
  {
    hide WellSent, Serials, Accepted, Cuts;
    var n := |log| - 1;
    var front := log[..n];
    if j == n {
      forall k | 0 <= k < n ensures seen.Has(front[k].first) == later.Has(front[k].first) {
        FirstElsewhere(log, j, r, k);
        SawElse(log, j, r, seen, later, log[k].first);
      }
      ArrivalsSame(front, seen, later);
      EntryValid(log, j);
      HasFrame(log[j]);
      SawIt(log, j, r, seen, later);
    } else {
      assert front[j] == log[j];
      ArrivalsGrow(front, j, r, seen, later);
      FirstElsewhere(log, j, r, n);
    }
  }

  lemma SawElse(log: seq<Sent>, j: nat, r: nat, seen: Seen, later: Seen, n: nat)
    requires SawNext(log, j, r, seen, later) && n != r
    ensures seen.Has(n) == later.Has(n)
  {
  }

  lemma SawIt(log: seq<Sent>, j: nat, r: nat, seen: Seen, later: Seen)
    requires SawNext(log, j, r, seen, later)
    ensures !seen.Has(r) && later.Has(r) && log[j].first <= r < log[j].Next()
  {
  }

  // ---------------------------------------------------------------------
  // Ordered frames stay apart.

  ghost predicate AllOrdered(o: Order) {
    && (forall i | 0 <= i < |o.ready| :: o.ready[i].flags / 32 == 3)
    && (forall key <- o.held :: o.held[key].flags / 32 == 3)
  }

  lemma {:induction false} ReleaseOrdered(o: Order, channel: byte, expected: u24)
    requires AllOrdered(o)
    ensures AllOrdered(Release(o, channel, expected))
    decreases |o.held|
  {
    if (channel, expected) in o.held {
      MoveShrinks(o, (channel, expected));
      assert AllOrdered(Move(o, (channel, expected)));
      hide AllOrdered, Move;
      ReleaseOrdered(Move(o, (channel, expected)), channel, Serial.Next(expected));
    }
  }

  lemma PlaceOrdered(o: Order, f: Frame, expected: u24)
    requires AllOrdered(o) && f.flags / 32 == 3
    ensures AllOrdered(Place(o, f, expected).0)
  {
    hide Release;
    assert AllOrdered(PushReady(o, f)) && AllOrdered(Hold(o, f));
    ReleaseOrdered(PushReady(o, f), f.channel, Serial.Next(o.expected.Get(f.channel)));
  }

  lemma InsertOrderedKeeps(q: RecvState, f: Frame)
    requires AllOrdered(q.order) && f.flags / 32 == 3 && q.fragments.Valid()
    ensures var (q', r) := InsertOrdered(q, f); AllOrdered(q'.order) && q'.packets == q.packets
  {
    hide AllOrdered, Place, Fragments.InsertAndTake, Newer, Distance;
    var expected := q.order.expected.Get(f.channel);
    CompletedKeepsPlace(q.fragments, f);
    var (_, complete) := Fragments.InsertAndTake(q.fragments, f);
    if complete.Ok? && complete.value.Some? {
      PlaceOrdered(q.order, complete.value.value, expected);
    }
    PlaceOrdered(q.order, f, expected);
  }

  /** Between frames: everything ready has been handed over. */
  ghost predicate Idle(q: RecvState) {
    q.packets == map[] && q.order.ready == [] && AllOrdered(q.order)
  }

  lemma FlushIsIdle(q: RecvState)
    requires AllOrdered(q.order)
    ensures Idle(Receiver.Flush(q).0)
  {
    hide InOrder;
  }

  lemma InOrderOne(n: u24, f: Frame)
    ensures InOrder(map[n := f]) == [f]
  {
    var m := map[n := f];
    assert n in m;
    var k := Least(m.Keys);
    assert k in m && k == n;
    assert m - {k} == map[];
    assert InOrder(map[]) == [];
  }

  /** What one frame hands over through the unordered side. */
  lemma HandsOver(q: RecvState, f: Frame, mode: Reliability)
    requires Idle(q) && f.flags / 32 == ToU8(mode) && q.fragments.Valid()
    ensures var (q', r) := Deliver(q, f, mode);
      && AllOrdered(q'.order)
      && ReliableData(Receiver.Flush(q').1) == if mode.Reliable? then [f.data] else []
  {
    hide InsertOrdered, InOrder, ReliableData, AllOrdered, Newer, Serial.Next;
    var (q', r) := Deliver(q, f, mode);
    if mode.ReliableOrdered? {
      InsertOrderedKeeps(q, f);
    }
    NoReliable();
    NothingInOrder();
    InOrderOne(f.sequenceNumber, f);
    ReliableSnoc([], f);
    assert [] + [f] == [f];
    ReadyOrdered(q'.order);
    ReliableConcat(q'.order.ready, InOrder(q'.packets));
    assert [] + [f] == [f] && [] + [f.data] == [f.data];
  }

  lemma NothingInOrder()
    ensures InOrder(map[]) == []
  {
  }

  lemma ReadyOrdered(o: Order)
    ensures AllOrdered(o) ==> ReliableData(o.ready) == []
  {
    hide ReliableData;
    if AllOrdered(o) {
      OrderedGivesNone(o.ready);
    }
  }

  // ---------------------------------------------------------------------
  // One frame of a datagram.

  lemma QuietHandsOver(q: RecvState)
    requires Idle(q)
    ensures ReliableData(Receiver.Flush(q).1) == []
  {
    hide InOrder, AllOrdered;
    NothingInOrder();
  }

  /** Receiving one frame hands over exactly the payload it newly accepts, if it is unordered. */
  lemma FrameHandsOver(q: RecvState, o: Sender.Outgoing, delivered: seq<Frame>, log: seq<Sent>, seen: Seen, mtu: u16)
    requires ValidLog(log) && InboundOk(q, delivered, log, seen) && seen.Valid() && Idle(q)
    requires Known(log, o.packet) && Fit(o.packet, mtu)
    requires o.packet.frame.IsReliable() ==> Serials(log) <= o.packet.serial + HALF
    requires Serials(log) <= seen.base + HALF
    ensures var (q1, r) := Receive(q, o.Wire());
      var later := if o.packet.frame.IsReliable() then SeenAfter(seen, o.packet.serial) else seen;
      r.Ok? ==> Idle(Receiver.Flush(q1).0)
                && Arrivals(log, later) == Arrivals(log, seen) + multiset(ReliableData(Receiver.Flush(q1).1))
  {
    hide ValidLog, InboundOk, Receive, SeenAfter, Serials, Idle, Receiver.Flush, ReliableData, Arrivals, ValidFrame,
      Canonical, Deliver;
    var f := o.Wire();
    WireMode(o, mtu);
    var (q1, r) := Receive(q, f);
    if r.Ok? {
      InboundFragments(q, delivered, log, seen);
      if o.packet.frame.IsReliable() {
        var j :| 0 <= j < |log| && Outbound.At(log[j], o.packet);
        BaseInside(q, delivered, log, seen);
        EntryInside(log, j);
        ReliableHandsOver(q, f, delivered, log, seen, j, o.packet.serial);
      } else {
        LooseHandsOver(q, f);
        assert multiset(ReliableData(Receiver.Flush(q1).1)) == multiset{};
      }
    }
  }

  lemma InboundFragments(q: RecvState, delivered: seq<Frame>, log: seq<Sent>, seen: Seen)
    requires InboundOk(q, delivered, log, seen)
    ensures q.fragments.Valid() && Represents(q.window, seen)
  {
    hide GroupsOk, ChannelOk, Ahead, Reorder.Counted, Bounded, Serials, Represents;
  }

  lemma LooseHandsOver(q: RecvState, f: Frame)
    requires Idle(q) && q.fragments.Valid() && f.Mode().Ok? && !ModeReliable(f.Mode().value)
    ensures var q1 := Receive(q, f).0; Idle(Receiver.Flush(q1).0) && ReliableData(Receiver.Flush(q1).1) == []
  {
    hide Deliver, AckSet.Insert, Accept, InOrder, AllOrdered;
    var q0 := q.(acks := AckSet.Insert(q.acks, f.sequenceNumber));
    ModeFlags(f);
    HandsOver(q0, f, f.Mode().value);
    FlushIsIdle(Receive(q, f).0);
  }

  lemma ModeFlags(f: Frame)
    requires f.Mode().Ok?
    ensures f.flags / 32 == ToU8(f.Mode().value)
  {
  }

  lemma ReliableHandsOver(q: RecvState, f: Frame, delivered: seq<Frame>, log: seq<Sent>, seen: Seen, j: nat, r: nat)
    requires ValidLog(log) && seen.Valid() && Idle(q) && q.fragments.Valid() && Represents(q.window, seen)
    requires j < |log| && log[j].first <= r < log[j].Next() && Delivery.Carries(f, log[j], r - log[j].first)
    requires seen.base - HALF <= r < seen.base + HALF && Receive(q, f).1.Ok?
    ensures var q1 := Receive(q, f).0; var later := SeenAfter(seen, r);
      Idle(Receiver.Flush(q1).0)
        && Arrivals(log, later) == Arrivals(log, seen) + multiset(ReliableData(Receiver.Flush(q1).1))
  {
    hide ValidLog, Receive, Deliver, Accept, AckSet.Insert, Idle, Receiver.Flush, ReliableData, Arrivals, Represents;
    CarriedMode(f, log, j, r - log[j].first);
    AcceptRefines(q.window, seen, r);
    ReceiveSplits(q, f, log[j].mode);
    var (w, first) := Accept(q.window, f.reliableIndex);
    var q0 := q.(acks := AckSet.Insert(q.acks, f.sequenceNumber), window := w);
    IdleIgnores(q, q0.acks, w);
    if seen.Has(r) {
      QuietHandsOver(q0);
      IdleOrdered(q0);
      FlushIsIdle(q0);
    } else {
      SeenNext(log, seen, j, r);
      ModeFlags(f);
      HandsOver(q0, f, log[j].mode);
      FlushIsIdle(Receive(q, f).0);
      ArrivalsGrow(log, j, r, seen, SeenAfter(seen, r));
      CarriedData(f, log, j, r - log[j].first);
    }
  }

  lemma IdleIgnores(q: RecvState, acks: AckSet.AckState, window: WindowState)
    requires Idle(q)
    ensures Idle(q.(acks := acks, window := window))
  {
  }

  lemma IdleOrdered(q: RecvState)
    requires Idle(q)
    ensures AllOrdered(q.order)
  {
  }

  /** An unordered message travels whole. */
  lemma CarriedData(f: Frame, log: seq<Sent>, j: nat, i: nat)
    requires ValidLog(log) && j < |log| && Delivery.Carries(f, log[j], i)
    ensures log[j].mode.Reliable? ==> f.data == log[j].data
  {
    hide ValidLog;
    EntryValid(log, j);
  }

  // ---------------------------------------------------------------------
  // A whole datagram.

  lemma {:induction false} IntakeHandsOver(q: RecvState, contents: seq<Sender.Outgoing>, delivered: seq<Frame>,
      log: seq<Sent>, seen: Seen, mtu: u16)
    requires ValidLog(log) && InboundOk(q, delivered, log, seen) && seen.Valid() && Idle(q)
    requires Arriving(contents, log, mtu) && Serials(log) <= seen.base + HALF
    ensures var (q', ready, r) := Intake(q, Wires(contents));
      r.Ok? ==>
        && Idle(q')
        && Arrivals(log, SeenAll(seen, contents)) == Arrivals(log, seen) + multiset(ReliableData(ready))
    decreases |contents|
  {
    hide ValidLog, InboundOk, Receive, Receiver.Flush, SeenAfter, Serials, Known, Fit, Idle, Arrivals, ReliableData;
    NoReliable();
    if contents != [] {
      var front, last := contents[..|contents| - 1], contents[|contents| - 1];
      assert Wires(contents)[..|front|] == Wires(front);
      IntakeHandsOver(q, front, delivered, log, seen, mtu);
      IntakeDelivers(q, front, delivered, log, seen, mtu);
      var (q1, ready, r) := Intake(q, Wires(front));
      if r.Ok? {
        var s1 := SeenAll(seen, front);
        FrameHandsOver(q1, last, delivered + ready, log, s1, mtu);
        var (q2, taken) := Receive(q1, last.Wire());
        if taken.Ok? {
          var (q3, more) := Receiver.Flush(q2);
          ReliableConcat(ready, more);
        }
      }
    }
  }

  // ---------------------------------------------------------------------
  // Runs.

  ghost predicate Exact(w: World) {
    Idle(w.receiver) && multiset(ReliableData(w.delivered)) == Arrivals(w.log, w.seen)
  }

  lemma {:induction false} PrefixArrivals(log: seq<Sent>, n: nat, seen: Seen)
    requires ValidLog(log) && n <= |log| && forall r: nat | seen.Has(r) :: r < Serials(log[..n])
    ensures Arrivals(log, seen) == Arrivals(log[..n], seen)
    decreases |log|
  {
    if n == |log| {
      assert log[..n] == log;
    } else {
      var front, last := log[..|log| - 1], log[|log| - 1];
      assert front[..n] == log[..n];
      Growth(log, n, |log| - 1, 0);
      PrefixArrivals(front, n, seen);
    }
  }

  /** The log only grows. */
  lemma {:induction false} BatchExtends(s: Sender.SendState, log: seq<Sent>, mode: Reliability,
      messages: seq<seq<byte>>, channel: byte)
    ensures log <= ExtendedAll(s, log, mode, messages, channel)
    decreases |messages|
  {
    hide Sender.Enqueue;
    if messages != [] {
      BatchExtends(s, log, mode, messages[..|messages| - 1], channel);
    }
  }

  lemma {:induction false} RepliesExtend(s: Sender.SendState, log: seq<Sent>, replies: ControlReplies.Replies)
    ensures log <= ExtendedReplies(s, log, replies)
    decreases |replies|
  {
    hide Sender.Enqueue, ControlReplies.EnqueueReplies;
    if replies != [] {
      RepliesExtend(s, log, replies[..|replies| - 1]);
    }
  }

  lemma StepExtends(w: World, step: Step, w': World)
    requires StepsTo(w, step, w')
    ensures w.log <= w'.log
    ensures !step.Arrive? ==> w'.delivered == w.delivered && w'.seen == w.seen
                              && w'.receiver.packets == w.receiver.packets && w'.receiver.order == w.receiver.order
  {
    hide Sender.Flush, Sender.Enqueue, Sender.AckRanges, Sender.NackRanges, SendQueue, Datagrams.Alone,
      Datagrams.Transmitted, Intake, Decode,
      Sender.HasBatchCapacity, Fits, Issued, EnqueueAll, ExtendedAll, ExtendedReplies, ControlReplies.EnqueueReplies,
        Announces, Emissions, OnWire, Sorting;
    match step
    case Send(mode, messages, channel, batch, at, order) =>
      var s := if batch && mode.ReliableOrdered? then Sender.EnableCoalescing(w.sender) else w.sender;
      BatchExtends(s, w.log, mode, messages, channel);
    case Reply(replies) =>
      RepliesExtend(w.sender, w.log, replies);
    case Leave =>
    case _ =>
  }

  lemma ArriveExact(w: World, d: Datagram, w': World)
    requires Live(w) && Exact(w) && Arrives(w, d, w')
    ensures Exact(w')
  {
    hide Decode, NoLoss, InboundOk, Calm, Resting, Serials, Wires, Intake, SeenAll, ReceivedOk, Transport.Timely,
      NetOk, Arriving, AcksOk,
      Idle, Arrivals, ReliableData;
    ContentsArriving(w, d);
    var (q, ready, r) := Intake(w.receiver, Wires(d.contents));
    if r.Ok? {
      SenderIsNear(w);
      RestingBelow(w.sender, w.sent, w.log);
      IntakeHandsOver(w.receiver, d.contents, w.delivered, w.log, w.seen, w.sender.mtu);
      ReliableConcat(w.delivered, ready);
    }
  }

  lemma StepExact(w: World, step: Step, w': World)
    requires Live(w) && Exact(w) && StepsTo(w, step, w')
    ensures Exact(w')
  {
    hide Live, Idle, Arrivals, ReliableData, StepsTo, InboundOk, Resting, Calm, ValidLog, Serials, SentBelow, Arrives;
    if step.Arrive? {
      ArrivesOf(w, step, w');
      ArriveExact(w, step.datagram, w');
    } else {
      StepExtends(w, step, w');
      StepLives(w, step, w');
      LiveInbound(w);
      LiveInbound(w');
      RestingBelow(w'.sender, w'.sent, w'.log);
      SeenInside(w.receiver, w.delivered, w.log, w.seen);
      assert w'.log[..|w.log|] == w.log;
      PrefixArrivals(w'.log, |w.log|, w.seen);
      IdleSame(w.receiver, w'.receiver);
    }
  }

  lemma ArrivesOf(w: World, step: Step, w': World)
    requires step.Arrive? && StepsTo(w, step, w')
    ensures Arrives(w, step.datagram, w')
  {
  }

  lemma SeenInside(q: RecvState, delivered: seq<Frame>, log: seq<Sent>, seen: Seen)
    requires InboundOk(q, delivered, log, seen)
    ensures forall r: nat | seen.Has(r) :: r < Serials(log)
  {
  }

  lemma IdleSame(q: RecvState, q': RecvState)
    requires Idle(q) && q'.packets == q.packets && q'.order == q.order
    ensures Idle(q')
  {
  }

  lemma StartExact(mtu: u16)
    ensures Exact(Start(mtu))
  {
  }

  lemma {:induction false} RunIsExact(worlds: seq<World>, steps: seq<Step>, mtu: u16, n: nat)
    requires 60 < mtu <= 1492 && IsRun(worlds, steps, mtu) && n < |worlds|
    ensures Exact(worlds[n])
    decreases n
  {
    hide Live, StepsTo, Exact, PayloadsOn, Accepted;
    if n == 0 {
      StartExact(mtu);
    } else {
      assert StepsTo(worlds[n - 1], steps[n - 1], worlds[n]);
      RunIsExact(worlds, steps, mtu, n - 1);
      RunIsSafe(worlds, steps, mtu, n - 1);
      StepExact(worlds[n - 1], steps[n - 1], worlds[n]);
    }
  }

  /**
   In every run the reliable unordered payloads handed
   over are, counted with repetition, exactly those of the accepted messages
   whose frame has been accepted: none twice, none missing, none altered.
   */
  lemma UnorderedExactlyOnce(worlds: seq<World>, steps: seq<Step>, mtu: u16, n: nat)
    requires 60 < mtu <= 1492 && IsRun(worlds, steps, mtu) && n < |worlds|
    ensures multiset(ReliableData(worlds[n].delivered)) == Arrivals(worlds[n].log, worlds[n].seen)
  {
    hide IsRun, ReliableData, Arrivals, Idle;
    RunIsExact(worlds, steps, mtu, n);
  }

  /** Payloads of all reliable unordered messages accepted by the sender. */
  function AcceptedUnordered(log: seq<Sent>): multiset<seq<byte>> {
    if log == [] then multiset{}
    else
      var front, last := AcceptedUnordered(log[..|log| - 1]), log[|log| - 1];
      if last.mode.Reliable? then front + multiset{last.data} else front
  }

  lemma {:induction false} AllArrived(log: seq<Sent>, seen: Seen)
    requires forall j | 0 <= j < |log| :: seen.Has(log[j].first)
    ensures Arrivals(log, seen) == AcceptedUnordered(log)
    decreases |log|
  {
    if log != [] {
      AllArrived(log[..|log| - 1], seen);
    }
  }

  /** When the sender is empty, every reliable unordered message has been handed over exactly once. */
  lemma EmptyMeansAllHandedOver(worlds: seq<World>, steps: seq<Step>, mtu: u16, n: nat)
    requires 60 < mtu <= 1492 && IsRun(worlds, steps, mtu) && n < |worlds|
    requires Sender.IsEmpty(worlds[n].sender)
    ensures multiset(ReliableData(worlds[n].delivered)) == AcceptedUnordered(worlds[n].log)
  {
    hide IsRun, ReliableData, Arrivals, AcceptedUnordered, Resting, NetOk, InboundOk, ReceivedOk, AcksOk, Calm,
      PayloadsOn, Accepted;
    var w := worlds[n];
    UnorderedExactlyOnce(worlds, steps, mtu, n);
    RunIsSafe(worlds, steps, mtu, n);
    RestingBelow(w.sender, w.sent, w.log);
    forall j | 0 <= j < |w.log| ensures w.seen.Has(w.log[j].first) {
      EmptyAllDone(w.sender, w.log, w.seen, j);
      FirstIsSeen(w.log, j, w.seen);
    }
    AllArrived(w.log, w.seen);
  }

  /**
   When the sender is empty every accepted message has
   been delivered: ordered ones in order on their channel, unordered ones
   exactly once.
   */
  lemma EmptyMeansEverythingDelivered(worlds: seq<World>, steps: seq<Step>, mtu: u16, n: nat, channel: byte)
    requires 60 < mtu <= 1492 && IsRun(worlds, steps, mtu) && n < |worlds|
    requires Sender.IsEmpty(worlds[n].sender)
    ensures PayloadsOn(worlds[n].delivered, channel) == Accepted(worlds[n].log, channel)
    ensures multiset(ReliableData(worlds[n].delivered)) == AcceptedUnordered(worlds[n].log)
  {
    hide IsRun, ReliableData, Arrivals, AcceptedUnordered, PayloadsOn, Accepted, AllOrdered, Sender.IsEmpty;
    RunIsExact(worlds, steps, mtu, n);
    EmptyMeansDelivered(worlds, steps, mtu, n, channel);
    EmptyMeansAllHandedOver(worlds, steps, mtu, n);
  }

  lemma FirstIsSeen(log: seq<Sent>, j: nat, seen: Seen)
    requires ValidLog(log) && j < |log| && Done(log[j], seen)
    ensures seen.Has(log[j].first)
  {
    hide ValidLog;
    EntryValid(log, j);
    assert 0 in Got(log[j], seen);
    assert Inbound.Arrived(log[j], seen, 0);
  }
}
