// Sender, network and receiver as one state machine. The network loses,
// duplicates and reorders; datagrams and acknowledgements travel as bytes.
module Transport {
  import opened AckSet
  import opened Acks
  import opened Admission
  import opened Bytes
  import opened ControlReplies
  import opened Custody
  import opened Datagrams
  import opened Deadlines
  import opened Delivery
  import opened Errors
  import opened FrameCodec
  import opened Frames
  import opened Inbound
  import opened Ledger
  import opened Outbound
  import opened Packing
  import opened RangeCodec
  import opened Room
  import opened Sender
  import opened Serial
  import opened Window
  import Plan
  import Receiver

  // ---------------------------------------------------------------------
  // State.

  /** Bytes on the wire, and the frames they were made from. */
  datatype Datagram = Datagram(bytes: seq<byte>, contents: seq<Outgoing>)

  /** An encoded acknowledgement, and the datagrams it stands for. */
  datatype Receipt = Receipt(bytes: seq<byte>, ids: set<nat>)

  /**
   `log`, `sent`, `seen`, `received`, `pending` and the second halves of
   datagrams and receipts are history: no step of either peer reads them.
   Each peer closes on its own, and the other goes on.
   */
  datatype World = World(
    sender: SendState,
    log: seq<Plan.Sent>,
    sent: set<Outgoing>,
    net: set<Datagram>,
    receiver: Receiver.RecvState,
    seen: Seen,
    received: set<nat>,
    pending: set<nat>,
    receipts: set<Receipt>,
    delivered: seq<Frame>,
    replying: bool,
    senderClosed: bool,
    receiverClosed: bool)

  ghost function Start(mtu: u16): World {
    World(NewSender(mtu), [], {}, {}, Receiver.NEW_RECEIVER, Seen(0, {}), {}, {}, {}, [], false, false, false)
  }

  // ---------------------------------------------------------------------
  // Steps.

  datatype Step =
    | Send(mode: Reliability, messages: seq<seq<byte>>, channel: byte, batch: bool, at: nat, order: seq<nat>)
    | Reply(replies: Replies)
    | Answer(at: nat, order: seq<nat>)
    | Leave
    | Acked(receipt: Receipt, at: nat, order: seq<nat>)
    | Nacked(ranges: seq<Range>, at: nat, order: seq<nat>)
    | Maintain(at: nat, order: seq<nat>)
    | Arrive(datagram: Datagram)
    | TakeAck
    | TakeNack
    | CloseSender
    | CloseReceiver

  ghost function Encoded(d: seq<Outgoing>): Datagram {
    Datagram(if ValidGroup(Wires(d)) then GroupBytes(Wires(d)) else [], d)
  }

  ghost function OnWire(datagrams: seq<seq<Outgoing>>): set<Datagram> {
    set k | 0 <= k < |datagrams| :: Encoded(datagrams[k])
  }

  /** The world after a flush whose datagrams all went out. */
  ghost function Flushing(w: World, r: Flushed, log: seq<Plan.Sent>, datagrams: seq<seq<Outgoing>>, replying: bool)
      : World
  {
    w.(sender := r.state, log := log, sent := w.sent + Emissions(r.out), net := w.net + OnWire(datagrams),
      replying := replying)
  }

  /** The log after a batch of insertions. */
  ghost function ExtendedAll(s: SendState, log: seq<Plan.Sent>, mode: Reliability, messages: seq<seq<byte>>,
      channel: byte): seq<Plan.Sent>
  {
    if messages == [] then log
    else
      var front := messages[..|messages| - 1];
      var t := EnqueueAll(s, mode, front, channel).0;
      Extended(t, ExtendedAll(s, log, mode, front, channel), mode, messages[|messages| - 1], channel)
  }

  /** Frames of a datagram are inserted one by one; what becomes ready is handed over when all were taken. */
  ghost function Intake(q: Receiver.RecvState, frames: seq<Frame>): (Receiver.RecvState, seq<Frame>, Result<()>)
    decreases |frames|
  {
    if frames == [] then (q, [], Ok(()))
    else
      var (q1, ready, r) := Intake(q, frames[..|frames| - 1]);
      if r.Err? then (q1, ready, r)
      else
        var (q2, taken) := Receiver.Receive(q1, frames[|frames| - 1]);
        if taken.Err? then (q2, ready, taken)
        else var (q3, more) := Receiver.Flush(q2); (q3, ready + more, Ok(()))
  }

  /** The duplicate filter after the frames of a datagram. */
  ghost function SeenAll(seen: Seen, contents: seq<Outgoing>): (s: Seen)
    requires seen.Valid()
    ensures s.Valid() && seen.base <= s.base
    decreases |contents|
  {
    if contents == [] then seen
    else
      var s, p := SeenAll(seen, contents[..|contents| - 1]), contents[|contents| - 1].packet;
      if p.frame.IsReliable() then SeenAfter(s, p.serial) else s
  }

  /** A datagram arrives before its sender is half an epoch of reliable indexes further. */
  ghost predicate Timely(w: World, contents: seq<Outgoing>) {
    forall i | 0 <= i < |contents| && contents[i].packet.frame.IsReliable() ::
      Plan.Serials(w.log) <= contents[i].packet.serial + HALF
  }

  /** Feedback arrives, and remembered numbers are dropped, within an epoch of datagram numbers. */
  ghost predicate Recent(w: World, ids: set<nat>) {
    && (forall id <- ids :: w.sender.flight.sequence <= id + EPOCH)
    && (forall i, k | 0 <= i < |w.sender.flight.items| && 0 <= k < |Names(w.sender.flight.items[i])| ::
          w.sender.flight.sequence <= Names(w.sender.flight.items[i])[k] + EPOCH)
  }

  ghost predicate Sorting(s: SendState, at: nat, order: seq<nat>) {
    Sorts(Tick(s.flight, at).items, order)
  }

  ghost function SendQueue(w: World, step: Step): SendState
    requires step.Send?
  {
    EnqueueAll(if step.batch && step.mode.ReliableOrdered? then EnableCoalescing(w.sender) else w.sender,
               step.mode, step.messages, step.channel).0
  }

  ghost function SendLog(w: World, step: Step): seq<Plan.Sent>
    requires step.Send?
  {
    ExtendedAll(if step.batch && step.mode.ReliableOrdered? then EnableCoalescing(w.sender) else w.sender,
                w.log, step.mode, step.messages, step.channel)
  }

  ghost predicate Sends(w: World, step: Step, w': World)
    requires step.Send?
  {
    && HasBatchCapacity(w.sender, step.mode, Lengths(step.messages)) == Ok(true)
    && Fits(w.sender.mtu, step.mode, step.messages)
    && var s := SendQueue(w, step);
       && Sorting(s, step.at, step.order)
       && var r := Flush(s, step.at, step.order);
          w' == Flushing(w, r, SendLog(w, step), Transmitted(r.out, r.coalesced), w.replying)
  }

  /** The log after the insertions of a reply. */
  ghost function ExtendedReplies(s: SendState, log: seq<Plan.Sent>, replies: Replies): seq<Plan.Sent> {
    if replies == [] then log
    else
      var front, last := replies[..|replies| - 1], replies[|replies| - 1];
      var (t, r) := EnqueueReplies(s, front);
      if r.Err? then ExtendedReplies(s, log, front) else Extended(t, ExtendedReplies(s, log, front), last.0, last.1, 0)
  }

  /** No reply is shorter than a ping, and one of two messages announces a connection. */
  predicate Announces(replies: Replies) {
    ReplyShape(replies) && |replies[0].1| >= if |replies| == 2 then ANNOUNCEMENT else PING
  }

  /**
   A control frame's reply is queued. When all of it went in, the receiving
   task flushes next; when some of it was refused, it goes on without.
   */
  ghost predicate Answers(w: World, replies: Replies, w': World) {
    && !w.replying && Announces(replies)
    && var (s, r) := EnqueueReplies(w.sender, replies);
       w' == w.(sender := s, log := ExtendedReplies(w.sender, w.log, replies), replying := r.Ok?)
  }

  /** Closing queues a notice without asking or flushing; a refused one changes nothing. */
  ghost function Leaving(w: World): World {
    w.(sender := Enqueue(w.sender, Reliable, [DISCONNECT], 0).0,
       log := Extended(w.sender, w.log, Reliable, [DISCONNECT], 0))
  }

  ghost predicate Acknowledges(w: World, step: Step, w': World)
    requires step.Acked?
  {
    && !w.replying && step.receipt in w.receipts && Recent(w, step.receipt.ids)
    && ReadControl(step.receipt.bytes).Ok?
    && var s := AckRanges(w.sender, ReadControl(step.receipt.bytes).value, step.at);
       && Sorting(s, step.at, step.order)
       && var r := Flush(s, step.at, step.order);
          w' == Flushing(w, r, w.log, Transmitted(r.out, r.coalesced), false)
  }

  ghost predicate Arrives(w: World, d: Datagram, w': World) {
    && d in w.net && Timely(w, d.contents) && w.seen.Valid()
    && if Decode(d.bytes).Err? || d.contents == [] then w' == w
       else
         var (q, ready, r) := Intake(w.receiver, Decode(d.bytes).value);
         if r.Err? then w' == w.(receiverClosed := true)
         else
           var id := d.contents[0].id;
           w' == w.(receiver := q, delivered := w.delivered + ready, seen := SeenAll(w.seen, d.contents),
                    received := w.received + {id}, pending := w.pending + {id})
  }

  /** The receipt sent for the ranges taken; a list too long to encode is not sent. */
  ghost function Issued(ranges: seq<Range>, ids: set<nat>): set<Receipt> {
    var bytes := ControlBytes(0xc0, ranges);
    if bytes.Ok? then {Receipt(bytes.value, ids)} else {}
  }

  ghost predicate SenderStep(w: World, step: Step, w': World) {
    && !w.senderClosed
    && match step
       case Send(_, _, _, _, _, _) => Sends(w, step, w')
       case Reply(replies) => Answers(w, replies, w')
       case Answer(at, order) =>
         && w.replying && Sorting(w.sender, at, order)
         && var r := Flush(w.sender, at, order);
            w' == Flushing(w, r, w.log, Transmitted(r.out, r.coalesced), false)
       case Leave => w' == Leaving(w)
       case Acked(_, _, _) => Acknowledges(w, step, w')
       case Nacked(ranges, at, order) =>
         && !w.replying
         && var s := w.sender.(flight := NackRanges(w.sender.flight, ranges, at));
            && Sorting(s, at, order)
            && var r := Flush(s, at, order);
               w' == Flushing(w, r, w.log, Transmitted(r.out, r.coalesced), false)
       case Maintain(at, order) =>
         && Sorting(w.sender, at, order)
         && var r := Flush(w.sender, at, order);
            w' == Flushing(w, r, w.log, Alone(r.out), w.replying)
       case CloseSender => w' == w.(senderClosed := true)
       case _ => false
  }

  ghost predicate ReceiverStep(w: World, step: Step, w': World) {
    && !w.receiverClosed
    && match step
       case Arrive(d) => Arrives(w, d, w')
       case TakeAck =>
         w' == w.(receiver := w.receiver.(acks := w.receiver.acks.(ack := [])), pending := {},
                  receipts := w.receipts + Issued(w.receiver.acks.ack, w.pending))
       case TakeNack => w' == w.(receiver := w.receiver.(acks := w.receiver.acks.(nack := [])))
       case CloseReceiver => w' == w.(receiverClosed := true)
       case _ => false
  }

  ghost predicate StepsTo(w: World, step: Step, w': World) {
    SenderStep(w, step, w') || ReceiverStep(w, step, w')
  }

  // ---------------------------------------------------------------------
  // What every step keeps.

  /** Every frame under a datagram's number is in it, and the bytes say so. */
  ghost predicate DatagramOk(d: Datagram, sent: set<Outgoing>) {
    && d.contents != [] && Decode(d.bytes) == Ok(Wires(d.contents))
    && forall o: Outgoing :: o in d.contents <==> o in sent && o.id == d.contents[0].id
  }

  ghost predicate NetOk(net: set<Datagram>, sent: set<Outgoing>) {
    forall d <- net :: DatagramOk(d, sent)
  }

  /** A reliable frame the sender no longer holds has been accepted by the receiver. */
  ghost predicate NoLoss(s: SendState, log: seq<Plan.Sent>, seen: Seen) {
    forall j, i | 0 <= j < |log| && 0 <= i < |log[j].packets| ::
      Inbound.Arrived(log[j], seen, i) || log[j].packets[i] in Held(s)
  }

  /** The reliable frames of received datagrams have been accepted. */
  ghost predicate ReceivedOk(received: set<nat>, sent: set<Outgoing>, seen: Seen, sequence: nat) {
    && (forall id <- received :: id < sequence)
    && forall o <- sent | o.id in received && o.packet.frame.IsReliable() :: seen.Has(o.packet.serial)
  }

  ghost predicate CoversOnly(ranges: seq<Range>, ids: set<nat>) {
    forall n: u24 | Covered(ranges, n) :: exists id <- ids :: Wrap(id) == n
  }

  ghost predicate ReceiptOk(receipt: Receipt, received: set<nat>) {
    && receipt.ids <= received
    && (ReadControl(receipt.bytes).Ok? ==> CoversOnly(ReadControl(receipt.bytes).value, receipt.ids))
  }

  ghost predicate AcksOk(w: World) {
    && w.pending <= w.received
    && WellFormed(w.receiver.acks.ack) && CoversOnly(w.receiver.acks.ack, w.pending)
    && forall receipt <- w.receipts :: ReceiptOk(receipt, w.received)
  }

  /** Not even a ping fits under the cap. */
  ghost predicate Tight(s: SendState) {
    s.ledger.buffered + PING + FRAME_BUDGET > MAX_BUFFERED
  }

  /**
   What maintenance finds: nothing it could pack together. Outside a reply one
   packable frame may be left of a reply that was cut short by the cap, and then
   no other can follow it.
   */
  ghost predicate Calm(s: SendState, replying: bool) {
    || |s.flight.items| >= MAX_IN_FLIGHT
    || Packables(s.queue.packets) == 0
    || (Packables(s.queue.packets) == 1 && (replying || Tight(s)))
  }

  ghost predicate Live(w: World) {
    && Resting(w.sender, w.sent, w.log)
    && NetOk(w.net, w.sent)
    && NoLoss(w.sender, w.log, w.seen)
    && InboundOk(w.receiver, w.delivered, w.log, w.seen)
    && ReceivedOk(w.received, w.sent, w.seen, w.sender.flight.sequence)
    && AcksOk(w)
    && Calm(w.sender, w.replying)
    && Roomy(w.sender)
  }
}
