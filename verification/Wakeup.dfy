// The idle-maintenance handshake: one maintenance task, any number of sending
// and closing tasks and one receiving task, interleaved at every atomic step. The wakeup
// holds one permit.
module Wakeup {
  import opened Admission
  import opened AckSet
  import opened Bytes
  import opened ControlReplies
  import opened Deadlines
  import opened Errors
  import opened Frames
  import opened Ledger
  import opened Sender
  import Receiver
  import Sums

  // ---------------------------------------------------------------------
  // State.

  /** Where the maintenance loop is; the flag is its local view of idleness. */
  datatype Maintenance =
    | Waiting(idle: bool)
    | Woken
    | Armed(quiet: bool)
    | ReceiveChecked(quiet: bool, receiveIdle: bool)
    | SendChecked(idle: bool)
    | Stopped

  /** A sending task after its insertion: it looks at the flag, clears it, notifies. */
  datatype Producer = Finished | Inserted | Observed | Swapped

  /** The receiving task: under the receive lock, or answering a control frame. */
  datatype Receiving = Free | Locked | LockedSwapped | Queued | Replied | RepliedSwapped

  /** `leaving` counts the closing tasks that have queued their notice and not yet closed the connection. */
  datatype Worker = Worker(
    idle: bool, permit: bool, enabled: bool,
    sendq: SendState, recvq: Receiver.RecvState,
    maintenance: Maintenance, producers: map<nat, Producer>, receiving: Receiving,
    leaving: nat, closed: bool)

  predicate NeedsMaintenance(q: Receiver.RecvState) {
    q.acks.nack != [] || q.fragments.groups != map[]
  }

  ghost function Initial(mtu: u16): Worker {
    Worker(false, false, false, NewSender(mtu), Receiver.NEW_RECEIVER, Waiting(false), map[], Free, 0, false)
  }

  // ---------------------------------------------------------------------
  // Steps.

  datatype Step =
    | Expire
    | TakePermit
    | Arm(quiet: bool)
    | CheckReceive
    | CheckSend(at: nat, order: seq<nat>)
    | Settle
    | Send(producer: nat, mode: Reliability, messages: seq<seq<byte>>, channel: byte, batch: bool, at: nat,
      order: seq<nat>)
    | Load(producer: nat)
    | Swap(producer: nat)
    | Notify(producer: nat)
    | Take(recvq: Receiver.RecvState)
    | Examine
    | LockNotify
    | QueueReplies(replies: Replies)
    | RefuseReplies(replies: Replies)
    | FlushReplies(at: nat, order: seq<nat>)
    | SwapReply
    | NotifyReply
    | Acked(ranges: seq<Range>, at: nat, order: seq<nat>)
    | Nacked(ranges: seq<Range>, at: nat, order: seq<nat>)
    | SetEnabled(enabled: bool)
    | Leave
    | Close
    | Drop

  ghost predicate Flushes(s: SendState, at: nat, order: seq<nat>, t: SendState, out: seq<Outgoing>) {
    && Sorts(Tick(s.flight, at).items, order)
    && var r := Flush(s, at, order); t == r.state && out == r.out
  }

  ghost predicate MaintenanceStep(w: Worker, step: Step, w': Worker) {
    match step
    case Expire => w.maintenance.Waiting? && w' == w.(maintenance := Woken)
    case TakePermit => w.maintenance == Waiting(true) && w.permit && w' == w.(maintenance := Woken, permit := false)
    case Arm(quiet) =>
      w.maintenance.Woken? && (quiet ==> w.enabled) && w' == w.(maintenance := Armed(quiet), idle := w.idle || quiet)
    case CheckReceive =>
      && w.maintenance.Armed? && !w.receiving.Locked? && !w.receiving.LockedSwapped?
      && var q := w.recvq.(acks := w.recvq.acks.(nack := []));
         w' == w.(recvq := q, maintenance := ReceiveChecked(w.maintenance.quiet, !NeedsMaintenance(q)))
    case CheckSend(at, order) =>
      && w.maintenance.ReceiveChecked?
      && (exists out: seq<Outgoing> :: Flushes(w.sendq, at, order, w'.sendq, out))
      && w' == w.(sendq := w'.sendq, maintenance := SendChecked(w.maintenance.quiet && w.maintenance.receiveIdle
        && IsEmpty(w'.sendq)))
    case Settle =>
      && w.maintenance.SendChecked?
      && w' == w.(maintenance := if w.closed then Stopped else Waiting(w.maintenance.idle),
                  idle := w.idle && w.maintenance.idle)
    case _ => false
  }

  ghost predicate ProducerStep(w: Worker, step: Step, w': Worker) {
    match step
    case Send(p, mode, messages, channel, batch, at, order) =>
      && (p in w.producers ==> w.producers[p].Finished?)
      && var (s, r) := EnqueueAll(if batch then EnableCoalescing(w.sendq) else w.sendq, mode, messages, channel);
         && r.Ok?
         && (exists out: seq<Outgoing> :: Flushes(s, at, order, w'.sendq, out))
         && w' == w.(sendq := w'.sendq, producers := w.producers[p := Inserted])
    case Load(p) =>
      && p in w.producers && w.producers[p].Inserted?
      && w' == w.(producers := w.producers[p := if w.idle then Observed else Finished])
    case Swap(p) =>
      && p in w.producers && (w.producers[p].Inserted? || w.producers[p].Observed?)
      && w' == w.(idle := false, producers := w.producers[p := if w.idle then Swapped else Finished])
    case Notify(p) =>
      && p in w.producers && w.producers[p].Swapped?
      && w' == w.(permit := true, producers := w.producers[p := Finished])
    case SetEnabled(e) => w' == w.(enabled := e, permit := w.permit || !e)
    case _ => false
  }

  ghost predicate ReceivingStep(w: Worker, step: Step, w': Worker) {
    match step
    case Take(q) => w.receiving.Free? && w' == w.(recvq := q, receiving := Locked)
    case Examine =>
      && w.receiving.Locked?
      && if NeedsMaintenance(w.recvq) then w' == w.(idle := false, receiving := if w.idle then LockedSwapped else Free)
         else w' == w.(receiving := Free)
    case LockNotify => w.receiving.LockedSwapped? && w' == w.(permit := true, receiving := Free)
    case QueueReplies(replies) =>
      && w.receiving.Free?
      && EnqueueReplies(w.sendq, replies).1.Ok?
      && w' == w.(sendq := EnqueueReplies(w.sendq, replies).0, receiving := Queued)
    case RefuseReplies(replies) =>
      && w.receiving.Free? && ReplyShape(replies)
      && EnqueueReplies(w.sendq, replies).1.Err?
      && w' == w.(sendq := EnqueueReplies(w.sendq, replies).0)
    case FlushReplies(at, order) =>
      && w.receiving.Queued?
      && exists out: seq<Outgoing> ::
           && Flushes(w.sendq, at, order, w'.sendq, out)
           && w' == w.(sendq := w'.sendq, receiving := if out == [] then Free else Replied)
    case SwapReply =>
      w.receiving.Replied? && w' == w.(idle := false, receiving := if w.idle then RepliedSwapped else Free)
    case NotifyReply => w.receiving.RepliedSwapped? && w' == w.(permit := true, receiving := Free)
    case Acked(ranges, at, order) =>
      && w.receiving.Free?
      && (exists out: seq<Outgoing> :: Flushes(AckRanges(w.sendq, ranges, at), at, order, w'.sendq, out))
      && w' == w.(sendq := w'.sendq)
    case Nacked(ranges, at, order) =>
      && w.receiving.Free?
      && (exists out: seq<Outgoing> ::
            Flushes(w.sendq.(flight := NackRanges(w.sendq.flight, ranges, at)), at, order, w'.sendq, out))
      && w' == w.(sendq := w'.sendq)
    case _ => false
  }

  /** Closing queues a notice, without asking, flushing or looking at the flag, and then ends every wait. */
  ghost predicate ClosingStep(w: Worker, step: Step, w': Worker) {
    match step
    case Leave =>
      var (s, r) := Enqueue(w.sendq, Reliable, [DISCONNECT], 0);
      w' == w.(sendq := s, leaving := if r.Ok? then w.leaving + 1 else w.leaving)
    case Close => w.leaving > 0 && w' == w.(leaving := w.leaving - 1, closed := true)
    case Drop => w' == w.(closed := true)
    case _ => false
  }

  ghost predicate StepsTo(w: Worker, step: Step, w': Worker) {
    MaintenanceStep(w, step, w') || ProducerStep(w, step, w') || ReceivingStep(w, step, w') || ClosingStep(w, step, w')
  }

  // ---------------------------------------------------------------------
  // The send queue's part.

  lemma EmptyFlight(f: Flight, tick: int, order: seq<nat>)
    requires f.items == [] && Sorts(Tick(f, tick).items, order)
    ensures var (g, out) := ResendPending(Arrange(Tick(f, tick), order), tick); g.items == [] && out == []
  {
    var t := Tick(f, tick);
    assert |t.items| == 0;
    var a := Arrange(t, order);
    assert |a.items| == 0;
    ResendFromExact(a, [], tick, 0);
  }

  /** An empty queue stays empty. */
  lemma EmptyStaysEmpty(s: SendState, at: nat, order: seq<nat>, t: SendState, out: seq<Outgoing>)
    requires IsEmpty(s) && Flushes(s, at, order, t, out)
    ensures IsEmpty(t)
  {
    hide Tick, Arrange, ResendPending;
    EmptyFlight(s.flight, at, order);
  }

  lemma AckOfEmpty(s: SendState, ranges: seq<Range>, tick: int)
    requires IsEmpty(s)
    ensures IsEmpty(AckRanges(s, ranges, tick))
  {
    assert NackAll(s.flight, [], tick) == s.flight;
  }

  lemma NackOfEmpty(f: Flight, ranges: seq<Range>, tick: int)
    requires f.items == []
    ensures NackRanges(f, ranges, tick).items == []
  {
  }

  /** With nothing in flight, a flush sends the first queued frame. */
  lemma QueuedIsSent(s: SendState, at: nat, order: seq<nat>, t: SendState, out: seq<Outgoing>)
    requires s.flight.items == [] && s.queue.packets != [] && Flushes(s, at, order, t, out)
    ensures out != []
  {
    hide Tick, Arrange, ResendPending, Joins, Packable, PumpStep;
    EmptyFlight(s.flight, at, order);
    var (f, resent) := ResendPending(Arrange(Tick(s.flight, at), order), at);
    var p := StartPump(s, f, resent);
    FirstIsSent(p, s.mtu, at);
    PumpExtends(PumpStep(p, s.mtu, at), s.mtu, at, |s.queue.packets| - 1);
  }

  lemma FirstIsSent(p: Pump, mtu: u16, tick: int)
    requires p.queue.packets != [] && |p.flight.items| < MAX_IN_FLIGHT
    ensures PumpStep(p, mtu, tick).out != []
  {
    hide Joins, Packable;
  }

  lemma {:induction false} RepliesKeepFlight(s: SendState, replies: Replies)
    ensures EnqueueReplies(s, replies).0.flight == s.flight
    decreases |replies|
  {
    hide Pieces, Whole, DivCeil;
    if replies != [] {
      RepliesKeepFlight(s, replies[..|replies| - 1]);
    }
  }

  /** The ping fits a datagram, or nothing does. */
  predicate PingFits(mtu: u16) {
    mtu <= 60 || PING <= mtu - 60
  }

  lemma SmallReplyFits(s: SendState, data: seq<byte>)
    requires Ledgered(s) && IsEmpty(s) && s.mtu > 60 && |data| <= MAX_REPLY
    ensures Enqueue(s, ReliableOrdered, data, 0).1.Ok?
    ensures Enqueue(s, ReliableOrdered, data, 0).0.ledger.buffered <= MAX_BUFFERED / 2
    ensures Enqueue(s, ReliableOrdered, data, 0).0.mtu == s.mtu
  {
    hide Ledgered, Pieces, Whole, Counted;
    EmptyOwesNothing(s);
    CeilBelow(|data|, s.mtu - 60);
  }

  lemma PingIsTaken(s: SendState, ping: seq<byte>)
    requires s.mtu > 60 && PING <= s.mtu - 60 && |ping| == PING && 0 <= s.ledger.buffered <= MAX_BUFFERED / 2
    ensures Enqueue(s, Unreliable, ping, 0).1.Ok?
  {
    hide Pieces, Whole, Counted;
  }

  lemma RefusedIsSame(s: SendState, mode: Reliability, data: seq<byte>)
    ensures Enqueue(s, mode, data, 0).1.Err? ==> Enqueue(s, mode, data, 0).0 == s
    ensures s.mtu <= 60 ==> Enqueue(s, mode, data, 0).1.Err?
  {
    hide Pieces, Whole, DivCeil, Counted;
  }

  /** An empty queue takes a whole reply or nothing of it, when the ping fits. */
  lemma NoHalfReply(s: SendState, replies: Replies)
    requires Ledgered(s) && IsEmpty(s) && ReplyShape(replies) && PingFits(s.mtu) && EnqueueReplies(s, replies).1.Err?
    ensures EnqueueReplies(s, replies).0 == s
  {
    hide Enqueue, Ledgered, IsEmpty;
    RepliesUnfold(s, replies);
    RefusedIsSame(s, replies[0].0, replies[0].1);
    if |replies| == 2 && s.mtu > 60 {
      SmallReplyFits(s, replies[0].1);
      var t := Enqueue(s, ReliableOrdered, replies[0].1, 0).0;
      EnqueueLedgered(s, ReliableOrdered, replies[0].1, 0);
      LedgerPositive(t);
      PingIsTaken(t, replies[1].1);
    }
  }

  lemma LedgerPositive(s: SendState)
    requires Ledgered(s)
    ensures s.ledger.buffered >= 0
  {
    hide Held, Balanced;
    BalanceNonNegative(Held(s), s.ledger);
  }

  lemma {:induction false} RepliesLedgered(s: SendState, replies: Replies)
    requires Ledgered(s)
    ensures Ledgered(EnqueueReplies(s, replies).0) && EnqueueReplies(s, replies).0.mtu == s.mtu
    decreases |replies|
  {
    hide Ledgered, Enqueue;
    if replies != [] {
      RepliesLedgered(s, replies[..|replies| - 1]);
      var last := replies[|replies| - 1];
      var t := EnqueueReplies(s, replies[..|replies| - 1]).0;
      EnqueueLedgered(t, last.0, last.1, 0);
      EnqueueReserves(t, last.0, last.1, 0);
    }
  }

  lemma {:induction false} BatchLedgered(s: SendState, mode: Reliability, messages: seq<seq<byte>>, channel: byte)
    requires Ledgered(s)
    ensures Ledgered(EnqueueAll(s, mode, messages, channel).0) && EnqueueAll(s, mode, messages, channel).0.mtu == s.mtu
    decreases |messages|
  {
    hide Ledgered, Enqueue;
    if messages != [] {
      BatchLedgered(s, mode, messages[..|messages| - 1], channel);
      var t := EnqueueAll(s, mode, messages[..|messages| - 1], channel).0;
      EnqueueLedgered(t, mode, messages[|messages| - 1], channel);
      EnqueueReserves(t, mode, messages[|messages| - 1], channel);
    }
  }

  lemma CoalescingLedgered(s: SendState)
    requires Ledgered(s)
    ensures Ledgered(EnableCoalescing(s)) && EnableCoalescing(s).mtu == s.mtu
  {
    hide Balanced, Packets, Sums.Total;
    assert Held(EnableCoalescing(s)) == Held(s);
  }

  lemma FlushedLedgered(s: SendState, at: nat, order: seq<nat>, t: SendState, out: seq<Outgoing>)
    requires Ledgered(s) && Flushes(s, at, order, t, out)
    ensures Ledgered(t) && t.mtu == s.mtu
  {
    hide Ledgered, Tick, Sorted, Reordered, Arrange, ResendPending, PumpAll;
    FlushLedgered(s, at, order);
  }

  lemma FeedbackLedgered(s: SendState, ranges: seq<Range>, at: nat)
    requires Ledgered(s)
    ensures Ledgered(AckRanges(s, ranges, at)) && AckRanges(s, ranges, at).mtu == s.mtu
    ensures Ledgered(s.(flight := NackRanges(s.flight, ranges, at)))
  {
    hide Ledgered, NackRanges;
    AckLedgered(s, ranges, at);
    NackLedgered(s, ranges, at);
    AckKeepsMtu(s, ranges, at);
  }

  lemma AckKeepsMtu(s: SendState, ranges: seq<Range>, tick: int)
    ensures AckRanges(s, ranges, tick).mtu == s.mtu
  {
    hide Find, MoveMark, SweepAll, Retire, LatencySample, NameFor;
  }

  // ---------------------------------------------------------------------
  // What every step keeps.

  /** This round of maintenance raised the flag and may still go idle. */
  ghost predicate MayIdle(m: Maintenance) {
    || m == Armed(true) || (m.ReceiveChecked? && m.quiet) || m == SendChecked(true) || m == Waiting(true)
  }

  ghost predicate ReceiveSettled(m: Maintenance) {
    m == ReceiveChecked(true, true) || m == SendChecked(true) || m == Waiting(true)
  }

  ghost predicate SendSettled(m: Maintenance) {
    m == SendChecked(true) || m == Waiting(true)
  }

  ghost predicate Notifying(w: Worker) {
    || w.receiving.LockedSwapped? || w.receiving.RepliedSwapped?
    || exists p <- w.producers :: w.producers[p].Swapped?
  }

  ghost predicate Looking(w: Worker) {
    exists p <- w.producers :: w.producers[p].Inserted? || w.producers[p].Observed?
  }

  ghost predicate Inv(w: Worker) {
    && Ledgered(w.sendq)
    && (MayIdle(w.maintenance) && !w.idle ==> w.permit || Notifying(w))
    && (ReceiveSettled(w.maintenance) && NeedsMaintenance(w.recvq) ==> !w.idle || w.receiving.Locked?)
    && (SendSettled(w.maintenance) && !IsEmpty(w.sendq) ==>
          w.leaving > 0 || w.closed || !w.idle || Looking(w) || w.receiving.Replied?
            || (w.receiving.Queued? && w.sendq.flight.items == []))
  }

  lemma MaintenanceKeeps(w: Worker, step: Step, w': Worker)
    requires Inv(w) && MaintenanceStep(w, step, w')
    ensures Inv(w') && w'.sendq.mtu == w.sendq.mtu
  {
    hide Flushes, IsEmpty, Ledgered;
    if step.CheckSend? {
      var out: seq<Outgoing> :| Flushes(w.sendq, step.at, step.order, w'.sendq, out);
      FlushedLedgered(w.sendq, step.at, step.order, w'.sendq, out);
    }
    assert w'.producers == w.producers && w'.receiving == w.receiving;
    assert Notifying(w') == Notifying(w) && Looking(w') == Looking(w);
  }

  lemma ProducersStay(w: Worker, w': Worker, p: nat)
    requires w'.receiving == w.receiving && p in w'.producers
    requires forall q <- w.producers | q != p :: q in w'.producers && w'.producers[q] == w.producers[q]
    requires p in w.producers && w.producers[p].Swapped? ==> w'.producers[p].Swapped?
    ensures Notifying(w) ==> Notifying(w')
    ensures Looking(w) && !(p in w.producers && (w.producers[p].Inserted? || w.producers[p].Observed?)) ==> Looking(w')
  {
    if q :| q in w.producers && w.producers[q].Swapped? {
      assert q in w'.producers && w'.producers[q].Swapped?;
    }
    if q :| q in w.producers && (w.producers[q].Inserted? || w.producers[q].Observed?) {
      if q != p {
        assert w'.producers[q] == w.producers[q];
      }
    }
  }

  lemma ProducerKeeps(w: Worker, step: Step, w': Worker)
    requires Inv(w) && ProducerStep(w, step, w')
    ensures Inv(w') && w'.sendq.mtu == w.sendq.mtu
  {
    hide Flushes, IsEmpty, EnqueueAll, NeedsMaintenance, Ledgered, EnableCoalescing;
    match step
    case Send(p, mode, messages, channel, batch, at, order) =>
      CoalescingLedgered(w.sendq);
      var s := if batch then EnableCoalescing(w.sendq) else w.sendq;
      BatchLedgered(s, mode, messages, channel);
      var t := EnqueueAll(s, mode, messages, channel).0;
      var out: seq<Outgoing> :| Flushes(t, at, order, w'.sendq, out);
      FlushedLedgered(t, at, order, w'.sendq, out);
      ProducersStay(w, w', p);
      assert w'.producers[p].Inserted?;
    case Load(p) =>
      ProducersStay(w, w', p);
      assert w.idle ==> w'.producers[p].Observed?;
    case Swap(p) =>
      ProducersStay(w, w', p);
      assert w.idle ==> w'.producers[p].Swapped?;
    case Notify(p) =>
      if w.producers[p].Swapped? {
        LookingStays(w, w', p);
      }
    case SetEnabled(e) =>
      assert w'.producers == w.producers && w'.receiving == w.receiving;
      assert Notifying(w') == Notifying(w) && Looking(w') == Looking(w);
    case _ =>
  }

  lemma LookingStays(w: Worker, w': Worker, p: nat)
    requires p in w.producers && w.producers[p].Swapped? && w'.producers == w.producers[p := Finished]
    ensures Looking(w) ==> Looking(w')
  {
    if q :| q in w.producers && (w.producers[q].Inserted? || w.producers[q].Observed?) {
      assert w'.producers[q] == w.producers[q];
    }
  }

  lemma ReceivingKeeps(w: Worker, step: Step, w': Worker)
    requires Inv(w) && ReceivingStep(w, step, w') && PingFits(w.sendq.mtu)
    ensures Inv(w') && w'.sendq.mtu == w.sendq.mtu
  {
    hide Flushes, AckRanges, NackRanges, EnqueueReplies, NeedsMaintenance, Ledgered, ReplyShape, IsEmpty;
    if step.QueueReplies? || step.RefuseReplies? || step.FlushReplies? {
      ReplyKeeps(w, step, w');
    } else if step.Acked? || step.Nacked? {
      FeedbackKeeps(w, step, w');
    } else {
      assert w'.producers == w.producers && Looking(w') == Looking(w);
      SwappedStay(w, w');
    }
  }

  lemma ReplyKeeps(w: Worker, step: Step, w': Worker)
    requires Inv(w) && ReceivingStep(w, step, w') && PingFits(w.sendq.mtu)
    requires step.QueueReplies? || step.RefuseReplies? || step.FlushReplies?
    ensures Inv(w') && w'.sendq.mtu == w.sendq.mtu
  {
    hide Flushes, EnqueueReplies, NeedsMaintenance, Ledgered, ReplyShape;
    assert Notifying(w') == Notifying(w) && Looking(w') == Looking(w);
    match step
    case QueueReplies(replies) =>
      RepliesKeepFlight(w.sendq, replies);
      RepliesLedgered(w.sendq, replies);
    case RefuseReplies(replies) =>
      RepliesLedgered(w.sendq, replies);
      if IsEmpty(w.sendq) {
        NoHalfReply(w.sendq, replies);
      }
    case FlushReplies(at, order) =>
      var out: seq<Outgoing> :| Flushes(w.sendq, at, order, w'.sendq, out)
        && w' == w.(sendq := w'.sendq, receiving := if out == [] then Free else Replied);
      FlushedLedgered(w.sendq, at, order, w'.sendq, out);
      if w.sendq.flight.items == [] {
        if w.sendq.queue.packets != [] {
          QueuedIsSent(w.sendq, at, order, w'.sendq, out);
        } else {
          EmptyStaysEmpty(w.sendq, at, order, w'.sendq, out);
        }
      }
    case _ =>
  }

  lemma FeedbackKeeps(w: Worker, step: Step, w': Worker)
    requires Inv(w) && ReceivingStep(w, step, w') && (step.Acked? || step.Nacked?)
    ensures Inv(w') && w'.sendq.mtu == w.sendq.mtu
  {
    hide Flushes, AckRanges, NackRanges, NeedsMaintenance, Ledgered;
    assert Notifying(w') == Notifying(w) && Looking(w') == Looking(w);
    match step
    case Acked(ranges, at, order) =>
      FeedbackLedgered(w.sendq, ranges, at);
      var out: seq<Outgoing> :| Flushes(AckRanges(w.sendq, ranges, at), at, order, w'.sendq, out);
      FlushedLedgered(AckRanges(w.sendq, ranges, at), at, order, w'.sendq, out);
      if IsEmpty(w.sendq) {
        AckOfEmpty(w.sendq, ranges, at);
        EmptyStaysEmpty(AckRanges(w.sendq, ranges, at), at, order, w'.sendq, out);
      }
    case Nacked(ranges, at, order) =>
      FeedbackLedgered(w.sendq, ranges, at);
      var s := w.sendq.(flight := NackRanges(w.sendq.flight, ranges, at));
      var out: seq<Outgoing> :| Flushes(s, at, order, w'.sendq, out);
      FlushedLedgered(s, at, order, w'.sendq, out);
      if IsEmpty(w.sendq) {
        NackOfEmpty(w.sendq.flight, ranges, at);
        EmptyStaysEmpty(s, at, order, w'.sendq, out);
      }
    case _ =>
  }

  /** A sending task about to notify stays so while the receiving task moves. */
  lemma SwappedStay(w: Worker, w': Worker)
    requires w'.producers == w.producers
    ensures (exists p <- w.producers :: w.producers[p].Swapped?) ==> Notifying(w')
    ensures Notifying(w) ==> Notifying(w') || w.receiving.LockedSwapped? || w.receiving.RepliedSwapped?
  {
  }

  lemma ClosingKeeps(w: Worker, step: Step, w': Worker)
    requires Inv(w) && ClosingStep(w, step, w')
    ensures Inv(w') && w'.sendq.mtu == w.sendq.mtu
  {
    hide Enqueue, NeedsMaintenance, Ledgered;
    assert Notifying(w') == Notifying(w) && Looking(w') == Looking(w);
    if step.Leave? {
      EnqueueLedgered(w.sendq, Reliable, [DISCONNECT], 0);
      EnqueueReserves(w.sendq, Reliable, [DISCONNECT], 0);
      RefusedIsSame(w.sendq, Reliable, [DISCONNECT]);
    }
  }

  // ---------------------------------------------------------------------
  // Runs.

  ghost predicate IsRun(workers: seq<Worker>, steps: seq<Step>, mtu: u16) {
    && |workers| == |steps| + 1
    && workers[0] == Initial(mtu)
    && forall i | 0 <= i < |steps| :: StepsTo(workers[i], steps[i], workers[i + 1])
  }

  lemma {:induction false} RunKeeps(workers: seq<Worker>, steps: seq<Step>, mtu: u16, n: nat)
    requires IsRun(workers, steps, mtu) && n < |workers| && PingFits(mtu)
    ensures Inv(workers[n]) && workers[n].sendq.mtu == mtu
    decreases n
  {
    hide Inv, MaintenanceStep, ProducerStep, ReceivingStep, ClosingStep;
    if n == 0 {
      InitialInv(mtu);
    } else {
      RunKeeps(workers, steps, mtu, n - 1);
      var w, step, w' := workers[n - 1], steps[n - 1], workers[n];
      assert StepsTo(w, step, w');
      if MaintenanceStep(w, step, w') {
        MaintenanceKeeps(w, step, w');
      } else if ProducerStep(w, step, w') {
        ProducerKeeps(w, step, w');
      } else if ReceivingStep(w, step, w') {
        ReceivingKeeps(w, step, w');
      } else {
        ClosingKeeps(w, step, w');
      }
    }
  }

  lemma InitialInv(mtu: u16)
    ensures Inv(Initial(mtu))
  {
    NewIsLedgered(mtu);
  }

  /** Every producer has finished its wake step. */
  ghost predicate AllFinished(w: Worker) {
    w.receiving.Free? && w.leaving == 0 && forall p <- w.producers :: w.producers[p].Finished?
  }

  /**
   Maintenance sleeps, everyone has finished, and a queue needs work that nobody
   will announce; a close ends the sleep.
   */
  ghost predicate Lost(w: Worker) {
    && w.maintenance == Waiting(true) && AllFinished(w)
    && !w.permit && !w.closed && (!IsEmpty(w.sendq) || NeedsMaintenance(w.recvq))
  }

  /**
   No lost wakeup: in every interleaving, when maintenance is in its long
   wait and every producer has finished, either neither queue needs it, or a
   permit is stored for it or the connection is closed, provided the reply's
   ping fits the datagram.
   */
  lemma NoLostWakeup(workers: seq<Worker>, steps: seq<Step>, mtu: u16, n: nat)
    requires IsRun(workers, steps, mtu) && n < |workers| && PingFits(mtu)
    ensures !Lost(workers[n])
  {
    hide IsRun, NeedsMaintenance, IsEmpty, Ledgered;
    RunKeeps(workers, steps, mtu, n);
  }

  // ---------------------------------------------------------------------
  // When the ping does not fit.

  ghost function Sleeping(mtu: u16): Worker {
    Initial(mtu).(idle := true, enabled := true, maintenance := Waiting(true))
  }

  lemma FlushNothing(mtu: u16)
    ensures Flushes(NewSender(mtu), 0, [], NewSender(mtu), [])
  {
    assert Reordered([], []) == [];
  }

  lemma ReachSleep(mtu: u16) returns (workers: seq<Worker>, steps: seq<Step>)
    ensures IsRun(workers, steps, mtu) && workers[|steps|] == Sleeping(mtu)
  {
    var w0 := Initial(mtu);
    var w1 := w0.(enabled := true);
    var w2 := w1.(maintenance := Woken);
    var w3 := w2.(maintenance := Armed(true), idle := true);
    var w4 := w3.(maintenance := ReceiveChecked(true, true));
    var w5 := w4.(maintenance := SendChecked(true));
    workers := [w0, w1, w2, w3, w4, w5, Sleeping(mtu)];
    steps := [SetEnabled(true), Expire, Arm(true), CheckReceive, CheckSend(0, []), Settle];
    hide Flushes;
    FlushNothing(mtu);
    assert MaintenanceStep(w1, Expire, w2) && MaintenanceStep(w2, Arm(true), w3)
      && MaintenanceStep(w3, CheckReceive, w4);
    assert MaintenanceStep(w4, CheckSend(0, []), w5) && MaintenanceStep(w5, Settle, Sleeping(mtu));
  }

  /**
   With a smaller datagram, every reply of an ordered message and a ping is
   queued by half, in fragments when it is longer than a datagram holds, and
   nobody is told.
   */
  lemma HalfReplyIsLost(mtu: u16, ordered: seq<byte>, ping: seq<byte>) returns (workers: seq<Worker>, steps: seq<Step>)
    requires 60 < mtu && !PingFits(mtu) && 1 <= |ordered| <= MAX_REPLY && |ping| == PING
    ensures IsRun(workers, steps, mtu) && Lost(workers[|steps|])
    ensures steps[|steps| - 1] == RefuseReplies([(ReliableOrdered, ordered), (Unreliable, ping)])
  {
    var before, path := ReachSleep(mtu);
    var replies: Replies := [(ReliableOrdered, ordered), (Unreliable, ping)];
    var w := Sleeping(mtu);
    var w' := w.(sendq := EnqueueReplies(w.sendq, replies).0);
    HalfQueued(mtu, replies);
    hide EnqueueReplies;
    assert ReceivingStep(w, RefuseReplies(replies), w');
    workers, steps := before + [w'], path + [RefuseReplies(replies)];
    hide MaintenanceStep, ProducerStep, ReceivingStep, ClosingStep;
    forall i | 0 <= i < |steps| ensures StepsTo(workers[i], steps[i], workers[i + 1]) {
      if i < |path| {
        assert StepsTo(before[i], path[i], before[i + 1]);
      }
    }
  }

  lemma HalfQueued(mtu: u16, replies: Replies)
    requires 60 < mtu && !PingFits(mtu) && |replies| == 2
    requires replies[0].0 == ReliableOrdered && 1 <= |replies[0].1| <= MAX_REPLY
    requires replies[1].0 == Unreliable && |replies[1].1| == PING
    ensures var (s, r) := EnqueueReplies(NewSender(mtu), replies); r.Err? && s.queue.packets != []
  {
    hide Whole, Counted, Piece;
    var s, data := NewSender(mtu), replies[0].1;
    RepliesUnfold(s, replies);
    CeilBelow(|data|, mtu - 60);
    if Splits(mtu, ReliableOrdered, |data|) {
      SplitsInTwo(|data|, mtu - 60);
    }
    hide DivCeil;
    assert Enqueue(s, ReliableOrdered, data, 0).1.Ok?;
  }

  /** No run loses a wakeup if and only if the ping fits the datagram or nothing does. */
  lemma WakeupsAreKept(mtu: u16)
    ensures (forall workers: seq<Worker>, steps: seq<Step>, n: nat | IsRun(workers, steps, mtu) && n < |workers| ::
      !Lost(workers[n]))
       <==> PingFits(mtu)
  {
    hide IsRun, Lost;
    if PingFits(mtu) {
      forall workers: seq<Worker>, steps: seq<Step>, n: nat | IsRun(workers, steps, mtu)
        && n < |workers| ensures !Lost(workers[n]) {
        NoLostWakeup(workers, steps, mtu, n);
      }
    } else {
      var workers, steps := HalfReplyIsLost(mtu, [0], [0, 0, 0, 0, 0, 0, 0, 0, 0]);
      RunLength(workers, steps, mtu);
    }
  }

  lemma RunLength(workers: seq<Worker>, steps: seq<Step>, mtu: u16)
    requires IsRun(workers, steps, mtu)
    ensures |workers| == |steps| + 1
  {
  }
}
