// The send queue against the log: which frames it still holds, which numbers
// they left under, and what each flush puts on the wire.
module Outbound {
  import opened AckSet
  import opened Acks
  import opened Bytes
  import opened Custody
  import opened Datagrams
  import opened Deadlines
  import opened Errors
  import opened FrameCodec
  import opened Frames
  import opened Ledger
  import opened Packing
  import opened Renumber
  import opened Sender
  import opened Serial
  import Plan

  /** A reliable frame of the log. */
  ghost predicate InLog(log: seq<Plan.Sent>, p: Packet) {
    exists j | 0 <= j < |log| :: At(log[j], p)
  }

  ghost predicate At(m: Plan.Sent, p: Packet) {
    m.first <= p.serial < m.Next() && m.packets[p.serial - m.first] == p
  }

  ghost predicate Known(log: seq<Plan.Sent>, p: Packet) {
    p.frame.IsReliable() ==> InLog(log, p)
  }

  ghost predicate HeldKnown(s: SendState, log: seq<Plan.Sent>) {
    forall p <- Held(s) :: Known(log, p)
  }

  ghost predicate SentKnown(sent: set<Outgoing>, log: seq<Plan.Sent>, mtu: u16) {
    forall o <- sent :: Known(log, o.packet) && Fit(o.packet, mtu)
  }

  ghost predicate SentBelow(sent: set<Outgoing>, low: nat) {
    forall o <- sent :: o.id < low
  }

  /** The queue in the middle of a step: numbers from `low` on are not on the wire yet. */
  ghost predicate Ready(s: SendState, low: nat, sent: set<Outgoing>, log: seq<Plan.Sent>) {
    && 60 < s.mtu <= 1492
    && Cached(s.flight) && Ledgered(s) && Flushable(s)
    && |s.flight.items| <= MAX_IN_FLIGHT
    && low <= s.flight.sequence <= low + MAX_IN_FLIGHT
    && Trailed(s.flight.items, sent) && WaitsAbove(s.flight.items, low)
    && SentBelow(sent, low) && SentKnown(sent, log, s.mtu)
    && Plan.ValidLog(log) && Plan.Logged(s.counters, log) && HeldKnown(s, log)
  }

  /** The queue between steps. */
  ghost predicate Resting(s: SendState, sent: set<Outgoing>, log: seq<Plan.Sent>) {
    Ready(s, s.flight.sequence, sent, log) && AllSent(s.flight.items)
  }

  // ---------------------------------------------------------------------
  // Fit.

  lemma {:induction false} ItemsFitFromHeld(items: seq<Item>, mtu: u16)
    requires ItemsFit(items, mtu)
    ensures forall p <- Packets(items) :: Fit(p, mtu)
    decreases |items|
  {
    hide Fit;
    if items != [] {
      ItemsFitFromHeld(items[..|items| - 1], mtu);
    }
  }

  lemma HeldFits(s: SendState, p: Packet)
    requires Flushable(s) && p in Held(s)
    ensures Fit(p, s.mtu)
  {
    hide Fit, Packets, Packing.Numbered;
    ItemsFitFromHeld(s.flight.items, s.mtu);
    if p in multiset(s.queue.packets) {
      var i :| 0 <= i < |s.queue.packets| && s.queue.packets[i] == p;
    }
  }

  // ---------------------------------------------------------------------
  // A flush at the end of a step.

  /** What a flush does to a ready queue. */
  ghost predicate Settled(s: SendState, low: nat, sent: set<Outgoing>, log: seq<Plan.Sent>, r: Flushed) {
    && Resting(r.state, sent + Emissions(r.out), log)
    && Drained(r.state)
    && Keeps(Held(s), Held(r.state))
    && WithinEpoch(r.out, low) && low <= r.state.flight.sequence
    && Contiguous(r.out) && Packs(r.out, s.mtu) && (!r.coalesced ==> Distinct(r.out))
    && r.state.mtu == s.mtu && r.state.counters == s.counters
  }

  lemma FlushLeaves(s: SendState, tick: int, order: seq<nat>)
    requires IsPermutation(order, |s.flight.items|)
    ensures Flush(s, tick, order).state.mtu == s.mtu && Flush(s, tick, order).state.counters == s.counters
  {
    hide Tick, Arrange, ResendPending, PumpAll;
  }

  lemma FlushSettles(s: SendState, tick: int, order: seq<nat>, low: nat, sent: set<Outgoing>, log: seq<Plan.Sent>)
    requires Ready(s, low, sent, log) && tick >= 0 && Sorts(Tick(s.flight, tick).items, order)
    ensures Settled(s, low, sent, log, Flush(s, tick, order))
  {
    hide Flush, Cached, Ledgered, Flushable, Trailed, WaitsAbove, AllSent, Packs, Distinct, Contiguous,
      Plan.ValidLog, Plan.Logged, SentKnown, HeldKnown, SentBelow, Keeps, OutFrom, Emissions, Held, Sorted, Reordered,
        Drained;
    var r := Flush(s, tick, order);
    FlushKeepsCached(s, tick, order);
    FlushLedgered(s, tick, order);
    FlushKeepsFlushable(s, tick, order);
    FlushDrains(s, tick, order);
    FlushPacks(s, tick, order);
    FlushCustody(s, tick, order, sent, low);
    FlushLeaves(s, tick, order);
    FramesBounded(s);
    EmissionsKnown(s, r, low, sent, log);
    NothingWaits(r.state.flight);
  }

  lemma NothingWaits(f: Flight)
    requires AllSent(f.items)
    ensures WaitsAbove(f.items, f.sequence)
  {
  }

  lemma EmissionsKnown(s: SendState, r: Flushed, low: nat, sent: set<Outgoing>, log: seq<Plan.Sent>)
    requires Flushable(s) && HeldKnown(s, log) && SentKnown(sent, log, s.mtu) && SentBelow(sent, low)
    requires OutFrom(r.out, Held(s)) && Keeps(Held(s), Held(r.state)) && Below(r.out, r.state.flight.sequence)
    requires low <= r.state.flight.sequence
    ensures SentKnown(sent + Emissions(r.out), log, s.mtu)
    ensures SentBelow(sent + Emissions(r.out), r.state.flight.sequence)
    ensures HeldKnown(r.state, log)
  {
    hide Known, Fit, Held, Flushable;
    forall o <- Emissions(r.out) ensures Known(log, o.packet) && Fit(o.packet, s.mtu)
      && o.id < r.state.flight.sequence {
      HeldFits(s, o.packet);
    }
  }

  // ---------------------------------------------------------------------
  // Insertion.

  lemma KnownGrows(log: seq<Plan.Sent>, m: Plan.Sent, p: Packet)
    requires Known(log, p)
    ensures Known(log + [m], p)
  {
    if p.frame.IsReliable() {
      var j :| 0 <= j < |log| && At(log[j], p);
      assert At((log + [m])[j], p);
    }
  }

  lemma EntryKnown(log: seq<Plan.Sent>, m: Plan.Sent, i: nat)
    requires i < |m.packets| && Plan.WellSent(m)
    ensures Known(log + [m], m.packets[i])
  {
    assert m.packets[i].serial == m.first + i;
    assert At((log + [m])[|log|], m.packets[i]);
  }

  /** The log after an insertion. */
  ghost function Extended(s: SendState, log: seq<Plan.Sent>, mode: Reliability, data: seq<byte>, channel: byte)
      : seq<Plan.Sent>
  {
    if Enqueue(s, mode, data, channel).1.Ok? && ModeReliable(mode) then
      EnqueueAdds(s, mode, data, channel);
      log + [Plan.Entry(s, mode, data, channel)]
    else log
  }

  lemma AddedKnown(s: SendState, log: seq<Plan.Sent>, mode: Reliability, data: seq<byte>, channel: byte)
    requires Plan.ValidLog(log) && Plan.Logged(s.counters, log) && Enqueue(s, mode, data, channel).1.Ok?
      && HeldKnown(s, log)
    ensures HeldKnown(Enqueue(s, mode, data, channel).0, Extended(s, log, mode, data, channel))
  {
    hide Enqueue, Held, Known, Plan.ValidLog, Plan.Logged, Plan.WellSent, Added;
    EnqueueAdds(s, mode, data, channel);
    var t, more, log' := Enqueue(s, mode, data, channel).0, Added(s, mode, data, channel),
      Extended(s, log, mode, data, channel);
    Plan.EnqueueLogs(s, log, mode, data, channel);
    forall p <- Held(t) ensures Known(log', p) {
      if p in Held(s) {
        if ModeReliable(mode) {
          KnownGrows(log, Plan.Entry(s, mode, data, channel), p);
        }
      } else {
        var i :| 0 <= i < |more| && more[i] == p;
        if ModeReliable(mode) {
          Plan.EntryValid(log', |log|);
          EntryKnown(log, Plan.Entry(s, mode, data, channel), i);
        } else {
          LooseKnown(s, log, mode, data, channel);
        }
      }
    }
  }

  lemma LooseKnown(s: SendState, log: seq<Plan.Sent>, mode: Reliability, data: seq<byte>, channel: byte)
    requires !ModeReliable(mode) && Enqueue(s, mode, data, channel).1.Ok? && s.mtu > 60 && !Splits(s.mtu, mode, |data|)
    ensures forall i | 0 <= i < |Added(s, mode, data, channel)| :: Known(log, Added(s, mode, data, channel)[i])
  {
    hide InLog;
    WholeIsNoFragment(s.counters, mode, data, channel);
  }

  lemma SentStaysKnown(sent: set<Outgoing>, log: seq<Plan.Sent>, m: Plan.Sent, mtu: u16)
    requires SentKnown(sent, log, mtu)
    ensures SentKnown(sent, log + [m], mtu)
  {
    hide Known, Fit;
    forall o <- sent ensures Known(log + [m], o.packet) {
      KnownGrows(log, m, o.packet);
    }
  }

  /** An accepted message leaves the queue ready, with the message in the log. */
  lemma EnqueueReady(s: SendState, low: nat, sent: set<Outgoing>, log: seq<Plan.Sent>, mode: Reliability,
      data: seq<byte>, channel: byte)
    requires Ready(s, low, sent, log)
    ensures Ready(Enqueue(s, mode, data, channel).0, low, sent, Extended(s, log, mode, data, channel))
  {
    hide Enqueue, Cached, Ledgered, ItemsFit, AllFit, Packing.Numbered, Trailed, WaitsAbove, Plan.ValidLog,
      Plan.Logged, SentKnown, HeldKnown, SentBelow, Held, Plan.Entry;
    var (t, r) := Enqueue(s, mode, data, channel);
    EnqueueLedgered(s, mode, data, channel);
    EnqueueKeepsFit(s, mode, data, channel);
    if r.Ok? {
      EnqueueAdds(s, mode, data, channel);
      Plan.EnqueueLogs(s, log, mode, data, channel);
      AddedKnown(s, log, mode, data, channel);
      if ModeReliable(mode) {
        SentStaysKnown(sent, log, Plan.Entry(s, mode, data, channel), s.mtu);
      }
    } else {
      RefusedIsSame(s, mode, data, channel);
    }
  }

  lemma RefusedIsSame(s: SendState, mode: Reliability, data: seq<byte>, channel: byte)
    requires Enqueue(s, mode, data, channel).1.Err?
    ensures Enqueue(s, mode, data, channel).0 == s
  {
    hide Pieces, Whole, DivCeil;
  }

  // ---------------------------------------------------------------------
  // Feedback.

  lemma AnsweredFit(f: Flight, h: Flight, g: Flight, mtu: u16)
    requires Answered(f, h, g) && ItemsFit(f.items, mtu) && Packing.Numbered(f)
    ensures ItemsFit(g.items, mtu) && Packing.Numbered(g)
  {
    hide Fit, Packing.Numbered, Spent;
    var at: seq<nat> :| Selects(at, h.items, f.items);
    forall i | 0 <= i < |h.items| ensures Fit(h.items[i].packet, mtu) {
      assert h.items[i] == f.items[at[i]];
    }
    forall i | 0 <= i < |g.items| ensures Fit(g.items[i].packet, mtu) {
      assert g.items[i].packet == h.items[i].packet;
    }
    SublistKeepsNumbered(f, h);
    RenumberedKeepsNumbered(h, g);
  }

  /** Replace the flight by one with the same numbers. */
  lemma AnsweredReady(s: SendState, t: SendState, h: Flight, g: Flight, ranges: seq<Range>, sent: set<Outgoing>,
      log: seq<Plan.Sent>)
    requires Resting(s, sent, log) && Answered(s.flight, h, g) && SameNumbers(g, t.flight)
      && OnlyAcked(s.flight, h, ranges)
    requires t.queue == s.queue && t.counters == s.counters && t.mtu == s.mtu && Cached(t.flight) && Ledgered(t)
    ensures Ready(t, s.flight.sequence, sent, log)
  {
    hide Cached, Ledgered, ItemsFit, AllFit, Trailed, AllSent, Plan.ValidLog, Plan.Logged, SentKnown, SentBelow,
      Answered, OnlyAcked, Packets, Known, SentCount;
    AnsweredFit(s.flight, h, g, s.mtu);
    AnsweredKeepsTrails(s.flight, h, g, sent);
    NumberedByNumbers(g, t.flight);
    forall p <- Held(t) ensures Known(log, p) {
      if p in Packets(g.items) {
        AnsweredHeld(s.flight, h, g, ranges, p);
      }
      assert p in Held(s);
    }
  }

  lemma NumberedByNumbers(f: Flight, g: Flight)
    requires SameNumbers(f, g) && Packing.Numbered(f)
    ensures Packing.Numbered(g)
  {
  }

  lemma AckReady(s: SendState, ranges: seq<Range>, tick: int, sent: set<Outgoing>, log: seq<Plan.Sent>)
    requires Resting(s, sent, log) && tick >= 0
    ensures Ready(AckRanges(s, ranges, tick), s.flight.sequence, sent, log)
  {
    hide Cached, Ledgered, Flushable, Trailed, WaitsAbove, AllSent, Plan.ValidLog, Plan.Logged, SentKnown, HeldKnown,
      SentBelow, AckRanges, Answered, OnlyAcked;
    var h, g := AckAnswers(s, ranges, tick);
    AckLeavesRest(s, ranges, tick);
    AckRangesKeepsCached(s, ranges, tick);
    AckLedgered(s, ranges, tick);
    AnsweredReady(s, AckRanges(s, ranges, tick), h, g, ranges, sent, log);
  }

  lemma NackAnswers(f: Flight, ranges: seq<Range>, tick: int)
    ensures Answered(f, f, NackRanges(f, ranges, tick)) && OnlyAcked(f, f, ranges)
  {
    hide NackRanges, Renumbered, AckedBy, Sublist, Covered, Changed;
    NackRangesExact(f, ranges, tick);
    SublistOfItself(f.items);
  }

  lemma NackReady(s: SendState, ranges: seq<Range>, tick: int, sent: set<Outgoing>, log: seq<Plan.Sent>)
    requires Resting(s, sent, log) && tick >= 0
    ensures Ready(s.(flight := NackRanges(s.flight, ranges, tick)), s.flight.sequence, sent, log)
  {
    hide Cached, Ledgered, Flushable, Trailed, WaitsAbove, AllSent, Plan.ValidLog, Plan.Logged, SentKnown, HeldKnown,
      SentBelow, NackRanges, Answered, OnlyAcked;
    var g := NackRanges(s.flight, ranges, tick);
    NackAnswers(s.flight, ranges, tick);
    NackRangesKeepsCached(s.flight, ranges, tick);
    NackLedgered(s, ranges, tick);
    AnsweredReady(s, s.(flight := g), s.flight, g, ranges, sent, log);
  }

  /** A reliable frame that an ACK makes the queue let go of left under an acknowledged number. */
  lemma RetiredWasNamed(s: SendState, ranges: seq<Range>, tick: int, sent: set<Outgoing>, log: seq<Plan.Sent>,
      p: Packet)
    returns (id: nat)
    requires Resting(s, sent, log) && p in Held(s) && p !in Held(AckRanges(s, ranges, tick))
    ensures Outgoing(p, id) in sent && Covered(ranges, Wrap(id))
    ensures exists i, k | 0 <= i < |s.flight.items| && 0 <= k < |Names(s.flight.items[i])| ::
      Names(s.flight.items[i])[k] == id
  {
    hide Cached, Ledgered, Flushable, WaitsAbove, Plan.ValidLog, Plan.Logged, SentKnown, HeldKnown, SentBelow,
      AckRanges, Answered, OnlyAcked, Packets, Covered;
    var h, g := AckAnswers(s, ranges, tick);
    AckLeavesRest(s, ranges, tick);
    AnsweredHeld(s.flight, h, g, ranges, p);
    var i :| 0 <= i < |s.flight.items| && s.flight.items[i].packet == p && AckedBy(s.flight.items[i], ranges);
    var item := s.flight.items[i];
    var k :| 0 <= k < |Names(item)| && Covered(ranges, Wrap(Names(item)[k]));
    id := Names(item)[k];
    assert ItemTrailed(item, sent);
    assert k > 0 ==> id == item.past[k - 1];
  }
}
