/** Runs of the send queue: what every flush emits, and what it leaves for the next acknowledgement. */
module FlightRuns {
  import opened AckSet
  import opened Acks
  import opened Bytes
  import opened Custody
  import opened Datagrams
  import opened DeadlineRuns
  import opened Deadlines
  import opened Errors
  import opened Frames
  import opened Naming
  import opened Outbound
  import opened Packing
  import opened Renumber
  import opened Sender
  import opened Serial

  // ---------------------------------------------------------------------
  // Packing, over every run.

  lemma QuietKeepsFlushable(s: SendState, op: Op)
    requires Cached(s.flight) && Flushable(s) && 60 < s.mtu <= 1492 && !op.Flushing?
    ensures Flushable(Quiet(s, op)) && Quiet(s, op).mtu == s.mtu
  {
    hide Cached, AckRanges, NackRanges, Enqueue, ItemsFit, AllFit, Answered, OnlyAcked, Packing.Numbered;
    match op
    case Add(mode, data, channel) =>
      EnqueueKeepsFit(s, mode, data, channel);
      EnqueueKeepsFlight(s, mode, data, channel);
    case StartBatch =>
      NumberedByNumbers(s.flight, EnableCoalescing(s).flight);
    case Acked(ranges, at) =>
      var h, g := AckAnswers(s, ranges, at);
      AnsweredFit(s.flight, h, g, s.mtu);
      AckLeavesRest(s, ranges, at);
      NumberedByNumbers(g, AckRanges(s, ranges, at).flight);
    case Nacked(ranges, at) =>
      NackAnswers(s.flight, ranges, at);
      AnsweredFit(s.flight, s.flight, NackRanges(s.flight, ranges, at), s.mtu);
  }

  lemma EnqueueKeepsFlight(s: SendState, mode: Reliability, data: seq<byte>, channel: byte)
    ensures Enqueue(s, mode, data, channel).0.flight == s.flight && Enqueue(s, mode, data, channel).0.mtu == s.mtu
  {
    hide Pieces, Whole, DivCeil;
  }

  lemma {:induction false} RunFlushable(r: Run, mtu: u16, n: nat)
    requires CachedRun(r) && r.states[0] == NewSender(mtu) && 60 < mtu <= 1492 && n < |r.states|
    ensures Flushable(r.states[n]) && r.states[n].mtu == mtu && Cached(r.states[n].flight)
    decreases n
  {
    hide Cached, Flushable, Quiet, Flush, Sorted, Reordered;
    NewIsCached(mtu);
    if n == 0 {
      NewIsFlushable(mtu);
    } else {
      RunFlushable(r, mtu, n - 1);
      RunKeepsCached(r, n);
      var s, op := r.states[n - 1], r.ops[n - 1];
      assert CachedStep(s, op, r.states[n], r.outs[n - 1], r.orders[n - 1]);
      if op.Flushing? {
        FlushKeepsFlushable(s, op.at, r.orders[n - 1]);
        FlushLeaves(s, op.at, r.orders[n - 1]);
      } else {
        QuietKeepsFlushable(s, op);
      }
    }
  }

  lemma NewIsFlushable(mtu: u16)
    requires mtu >= 28
    ensures Flushable(NewSender(mtu))
  {
  }

  /**
   In every run, the frames any flush emits under one number follow each
   other, are at most eight, and encode to at most MTU - 28 bytes.
   */
  lemma RunPacks(r: Run, mtu: u16, n: nat)
    requires CachedRun(r) && r.states[0] == NewSender(mtu) && 60 < mtu <= 1492 && n < |r.ops| && r.ops[n].Flushing?
    ensures Packs(r.outs[n], mtu) && Contiguous(r.outs[n])
  {
    hide Cached, Flushable, Flush, Sorted, Reordered, Packs, Contiguous;
    RunFlushable(r, mtu, n);
    assert CachedStep(r.states[n], r.ops[n], r.states[n + 1], r.outs[n], r.orders[n]);
    FlushPacks(r.states[n], r.ops[n].at, r.orders[n]);
  }

  // ---------------------------------------------------------------------
  // What a flush leaves for round-trip sampling.

  /** Frames under one number are neighbours in the flight. */
  ghost predicate Neighbours(items: seq<Item>) {
    forall i, j, k | 0 <= i < j < k < |items| && items[i].id == items[k].id :: items[j].id == items[i].id
  }

  ghost predicate ItemsWithin(items: seq<Item>, low: int) {
    forall i | 0 <= i < |items| :: low <= items[i].id < low + EPOCH
  }

  lemma SortedNeighbours(items: seq<Item>, low: int)
    requires Sorted(items) && ItemsWithin(items, low)
    ensures Neighbours(items)
  {
    hide Wrap;
    forall i, j, k | 0 <= i < j < k < |items| && items[i].id == items[k].id ensures items[j].id == items[i].id {
      assert Wrap(items[i].id) <= Wrap(items[j].id) <= Wrap(items[k].id);
      WrapInjective(items[j].id, items[i].id);
    }
  }

  lemma NeighboursAdjacent(items: seq<Item>, low: int)
    requires Neighbours(items) && ItemsWithin(items, low)
    ensures Adjacent(items)
  {
    hide Wrap;
    forall i, j, k | 0 <= i < j < k < |items| && Wrap(items[i].id) == Wrap(items[k].id)
      ensures Wrap(items[j].id) == Wrap(items[i].id)
    {
      WrapInjective(items[i].id, items[k].id);
    }
  }

  /** The group being filled is the last item's. */
  ghost predicate Filling(p: Pump) {
    && Packing.Numbered(p.flight) && Neighbours(p.flight.items)
    && (p.group.Some? ==> p.group.value < p.flight.sequence && p.flight.items != []
                          && p.flight.items[|p.flight.items| - 1].id == p.group.value)
  }

  lemma NeighboursSnoc(items: seq<Item>, item: Item)
    requires Neighbours(items)
    requires (forall i | 0 <= i < |items| :: items[i].id != item.id)
      || (items != [] && items[|items| - 1].id == item.id)
    ensures Neighbours(items + [item])
  {
    var n, longer := |items|, items + [item];
    forall i, j, k | 0 <= i < j < k < |longer| && longer[i].id == longer[k].id ensures longer[j].id == longer[i].id {
      assert longer[i] == items[i] && longer[j] == items[j];
      if k == n && j < n - 1 {
        assert items[i].id == items[n - 1].id;
      }
    }
  }

  lemma PumpStepFills(p: Pump, mtu: u16, tick: int)
    requires Filling(p) && p.queue.packets != [] && (!p.flight.coalesce ==> p.group.None?)
    ensures Filling(PumpStep(p, mtu, tick))
      && (!PumpStep(p, mtu, tick).flight.coalesce ==> PumpStep(p, mtu, tick).group.None?)
  {
    hide PumpStep, Packable, Neighbours;
    var id := StepShape(p, mtu, tick);
    StepGroups(p, mtu, tick);
    PumpStepKeepsNumbered(p, mtu, tick);
    if !Rotates(p) && p.queue.packets[0].frame.IsReliable() {
      NeighboursSnoc(p.flight.items, Item(p.queue.packets[0], id, true, tick, 0, []));
    }
  }

  /** After a step, an open group is the frame just emitted. */
  lemma StepGroups(p: Pump, mtu: u16, tick: int)
    requires p.queue.packets != [] && (!p.flight.coalesce ==> p.group.None?)
    ensures var q := PumpStep(p, mtu, tick);
      && (!q.flight.coalesce ==> q.group.None?)
      && (!Rotates(p) && q.group.Some? ==>
            && Packable(p.queue.packets[0])
            && p.queue.packets[0].frame.IsReliable()
            && q.flight.items != [] && q.flight.items[|q.flight.items| - 1].id == q.group.value)
  {
    hide Packable, Wrap, Later;
    if Packable(p.queue.packets[0]) {
      PackableIsReliable(p.queue.packets[0]);
    }
  }

  lemma {:induction false} PumpFills(p: Pump, mtu: u16, tick: int, n: nat)
    requires Filling(p) && (!p.flight.coalesce ==> p.group.None?)
    ensures Filling(PumpAll(p, mtu, tick, n))
    decreases n
  {
    hide Filling, PumpStep;
    if n > 0 && !PumpStops(p) {
      PumpStepFills(p, mtu, tick);
      PumpFills(PumpStep(p, mtu, tick), mtu, tick, n - 1);
    }
  }

  lemma ResendNeighbours(f: Flight, tick: int)
    requires Neighbours(f.items) && Packing.Numbered(f)
    ensures Neighbours(ResendPending(f, tick).0.items) && Packing.Numbered(ResendPending(f, tick).0)
  {
    ResendFromExact(f, [], tick, 0);
    ResendKeepsNumbered(f, tick);
    var g := ResendPending(f, tick).0;
    assert forall i | 0 <= i < |f.items| :: g.items[i].id == f.items[i].id;
  }

  lemma ArrangeSorts(f: Flight, order: seq<nat>)
    requires Cached(f) && Sorts(f.items, order)
    ensures Sorted(Arrange(f, order).items)
  {
    hide Timed, DeadlineKept, Wrap;
  }

  /** Frames that were never sent again answer to one number only. */
  ghost predicate FirstSent(items: seq<Item>) {
    forall i | 0 <= i < |items| && items[i].sent && items[i].retries == 0 :: items[i].past == []
  }

  /** Members of a packed datagram are neighbours after every flush while in-flight numbers span less than an epoch. */
  lemma FlushNeighbours(s: SendState, tick: int, order: seq<nat>, low: int)
    requires Cached(s.flight) && Packing.Numbered(s.flight) && tick >= 0 && Sorts(Tick(s.flight, tick).items, order)
    requires ItemsWithin(Tick(s.flight, tick).items, low)
    ensures Neighbours(Flush(s, tick, order).state.flight.items)
  {
    hide Cached, Packing.Numbered, Tick, ResendPending, PumpAll, Sorted, Neighbours;
    var f := Tick(s.flight, tick);
    TickKeepsCached(s.flight, tick);
    TickRenumbers(s.flight, tick);
    RenumberedKeepsNumbered(s.flight, f);
    ArrangeSorts(f, order);
    ArrangeKeepsNumbered(f, order);
    var g := Arrange(f, order);
    ArrangeWithin(f, order, low);
    SortedNeighbours(g.items, low);
    ResendNeighbours(g, tick);
    var (h, out) := ResendPending(g, tick);
    PumpFills(StartPump(s, h, out), s.mtu, tick, |s.queue.packets|);
  }

  lemma ArrangeWithin(f: Flight, order: seq<nat>, low: int)
    requires ItemsWithin(f.items, low) && IsPermutation(order, |f.items|)
    ensures ItemsWithin(Arrange(f, order).items, low)
  {
  }

  /** `FirstSent` through every operation of a run. */
  lemma RenumberedFirstSent(f: Flight, g: Flight)
    requires FirstSent(f.items) && Renumbered(f, g)
    ensures FirstSent(g.items)
  {
    hide Spent;
  }

  lemma SublistFirstSent(kept: seq<Item>, items: seq<Item>)
    requires FirstSent(items) && Sublist(kept, items)
    ensures FirstSent(kept)
  {
    var at: seq<nat> :| Selects(at, kept, items);
    assert forall i | 0 <= i < |kept| :: kept[i] == items[at[i]];
  }

  lemma AnsweredFirstSent(f: Flight, h: Flight, g: Flight)
    requires FirstSent(f.items) && Answered(f, h, g)
    ensures FirstSent(g.items)
  {
    hide FirstSent, Sublist, Renumbered;
    SublistFirstSent(h.items, f.items);
    RenumberedFirstSent(h, g);
  }

  lemma {:induction false} PumpFirstSent(p: Pump, mtu: u16, tick: int, n: nat)
    requires FirstSent(p.flight.items) && (p.group.Some? ==> p.group.value < p.flight.sequence)
    ensures FirstSent(PumpAll(p, mtu, tick, n).flight.items)
    decreases n
  {
    hide PumpStep, Packable;
    if n > 0 && !PumpStops(p) {
      var id := StepShape(p, mtu, tick);
      PumpFirstSent(PumpStep(p, mtu, tick), mtu, tick, n - 1);
    }
  }

  lemma FlushFirstSent(s: SendState, tick: int, order: seq<nat>)
    requires FirstSent(s.flight.items) && IsPermutation(order, |s.flight.items|)
    ensures FirstSent(Flush(s, tick, order).state.flight.items)
  {
    hide FirstSent, Tick, PumpAll, ResendPending, Arrange;
    var f := Tick(s.flight, tick);
    TickRenumbers(s.flight, tick);
    RenumberedFirstSent(s.flight, f);
    ArrangeFirstSent(f, order);
    var g := Arrange(f, order);
    ResendFirstSent(g, tick);
    var (h, out) := ResendPending(g, tick);
    PumpFirstSent(StartPump(s, h, out), s.mtu, tick, |s.queue.packets|);
  }

  lemma ArrangeFirstSent(f: Flight, order: seq<nat>)
    requires FirstSent(f.items) && IsPermutation(order, |f.items|)
    ensures FirstSent(Arrange(f, order).items)
  {
  }

  lemma ResendFirstSent(f: Flight, tick: int)
    requires FirstSent(f.items)
    ensures FirstSent(ResendPending(f, tick).0.items)
  {
    ResendFromExact(f, [], tick, 0);
  }

  lemma {:induction false} RunFirstSent(r: Run, mtu: u16, n: nat)
    requires CachedRun(r) && r.states[0] == NewSender(mtu) && n < |r.states|
    ensures FirstSent(r.states[n].flight.items)
    decreases n
  {
    hide Cached, FirstSent, Enqueue, Flush, Sorted, Reordered, AckRanges, NackRanges, Answered, OnlyAcked;
    if n == 0 {
      assert FirstSent([]) by { NoneFirstSent(); }
    } else {
      RunFirstSent(r, mtu, n - 1);
      NewIsCached(mtu);
      RunKeepsCached(r, n - 1);
      var s, op := r.states[n - 1], r.ops[n - 1];
      assert CachedStep(s, op, r.states[n], r.outs[n - 1], r.orders[n - 1]);
      match op
      case Add(mode, data, channel) => EnqueueKeepsFlight(s, mode, data, channel);
      case StartBatch =>
      case Acked(ranges, at) =>
        var h, g := AckAnswers(s, ranges, at);
        AnsweredFirstSent(s.flight, h, g);
      case Nacked(ranges, at) =>
        NackAnswers(s.flight, ranges, at);
        AnsweredFirstSent(s.flight, s.flight, NackRanges(s.flight, ranges, at));
      case Flushing(at) =>
        FlushFirstSent(s, at, r.orders[n - 1]);
    }
  }

  lemma NoneFirstSent()
    ensures FirstSent([])
  {
  }

  // ---------------------------------------------------------------------
  // Flights that were never packed.

  lemma {:induction false} UngroupedSamples(items: seq<Item>, ranges: seq<Range>)
    ensures forall i | 0 <= i < |items| && Fresh(items[i], ranges) :: items[i] in Sampled(items, ranges, false)
    ensures forall item <- Sampled(items, ranges, false) :: item in items && Fresh(item, ranges)
    decreases |items|
  {
    hide Fresh, SampleKey;
    if items != [] {
      var front, last := items[..|items| - 1], items[|items| - 1];
      UngroupedSamples(front, ranges);
      forall i | 0 <= i < |items| && Fresh(items[i], ranges) ensures items[i] in Sampled(items, ranges, false) {
        assert items[i] == if i < |front| then front[i] else last;
      }
    }
  }

  /** Different frames have left under different wire numbers. */
  ghost predicate WiresApart(items: seq<Item>) {
    forall i, j | 0 <= i < j < |items| :: Wrap(items[i].id) != Wrap(items[j].id)
  }

  lemma {:induction false} UngroupedApart(items: seq<Item>, ranges: seq<Range>)
    requires WiresApart(items)
    ensures WiresApart(Sampled(items, ranges, false))
    decreases |items|
  {
    hide Fresh, SampleKey, Wrap;
    if items != [] {
      var front, last := items[..|items| - 1], items[|items| - 1];
      UngroupedApart(front, ranges);
      var samples := Sampled(front, ranges, false);
      UngroupedSamples(front, ranges);
      forall i | 0 <= i < |samples| ensures Wrap(samples[i].id) != Wrap(last.id) {
        assert samples[i] in samples;
        var k :| 0 <= k < |front| && front[k] == samples[i];
        assert items[k] == front[k];
      }
    }
  }

  lemma DisjointWires(items: seq<Item>, low: int)
    requires AllApart(items) && ItemsWithin(items, low)
    ensures WiresApart(items)
  {
    hide Wrap;
    forall i, j | 0 <= i < j < |items| ensures Wrap(items[i].id) != Wrap(items[j].id) {
      assert Apart(items[i], items[j]);
      assert Answers(items[i], items[i].id) && Answers(items[j], items[j].id);
      WrapInjective(items[i].id, items[j].id);
    }
  }

  lemma UngroupedOnce(items: seq<Item>, ranges: seq<Range>)
    requires WiresApart(items)
    ensures SampledOnce(Sampled(items, ranges, false), items, ranges)
  {
    hide Fresh, Sampled, Wrap, HasNumber;
    var samples := Sampled(items, ranges, false);
    UngroupedSamples(items, ranges);
    UngroupedApart(items, ranges);
    forall i | 0 <= i < |samples| ensures samples[i] in items && Fresh(samples[i], ranges) {
      assert samples[i] in samples;
    }
    forall k | 0 <= k < |items| && Fresh(items[k], ranges) ensures HasNumber(samples, items[k]) {
      MemberHasNumber(samples, items[k]);
    }
  }

  lemma MemberHasNumber(samples: seq<Item>, item: Item)
    requires item in samples
    ensures HasNumber(samples, item)
  {
  }

  /** The latency an acknowledgement leaves is its samples folded into the old one. */
  lemma CompactLatency(s: SendState, ranges: seq<Range>, tick: int)
    ensures var f, g := s.flight, Compact(s, ranges, tick).flight;
      (g.srtt, g.rto) == FoldLatency((f.srtt, f.rto), Sampled(f.items, ranges, f.grouped), tick)
  {
    hide SweepAll, Sampled, FoldLatency, MoveMark, Survivors, Newest;
    var f := s.flight;
    SweepExact(s, f.items, ranges, tick, f.grouped);
    var w := SweepAll(StartSweep(s), f.items, ranges, tick, f.grouped);
    MarkKeepsLatency(SetLatency(f.(items := w.kept, grouped := f.grouped && w.kept != []), w.latency), f.ackMark,
      w.newest, tick);
  }

  /**
   In every run, an acknowledgement that follows a flush takes exactly one
   round-trip sample for each acknowledged datagram with a frame that was
   never retransmitted, and folds exactly those into the latency, as long as
   the numbers in flight span less than an epoch.
   */
  lemma RunSamplesOnce(r: Run, mtu: u16, n: nat, ranges: seq<Range>, tick: int, low: int)
    requires CachedRun(r) && r.states[0] == NewSender(mtu) && 60 < mtu <= 1492
    requires n < |r.ops| && r.ops[n].Flushing?
    requires ItemsWithin(Tick(r.states[n].flight, r.ops[n].at).items, low)
      && NamesWithin(r.states[n + 1].flight.items, low)
    ensures var s := r.states[n + 1]; var samples := Sampled(s.flight.items, ranges, s.flight.grouped);
      && SampledOnce(samples, s.flight.items, ranges)
      && var g := AckRanges(s, ranges, tick).flight;
         (g.srtt, g.rto) == FoldLatency((s.flight.srtt, s.flight.rto), samples, tick)
  {
    hide CachedStep, Named, SampledOnce, Sampled, FoldLatency, AckRanges, Compact, NamesWithin, ItemsWithin, Tick;
    var s := r.states[n + 1];
    RunNamed(r, mtu, n + 1);
    NamesThenItems(s.flight.items, low);
    if s.flight.grouped {
      RunGroupedOnce(r, mtu, n, ranges, low);
    } else {
      NamedUngrouped(s.flight);
      DisjointWires(s.flight.items, low);
      UngroupedOnce(s.flight.items, ranges);
    }
    RunAckIsOnePass(r, mtu, n + 1, ranges, tick, low);
    CompactLatency(s, ranges, tick);
  }

  lemma NamesThenItems(items: seq<Item>, low: int)
    requires NamesWithin(items, low)
    ensures ItemsWithin(items, low)
  {
    forall i | 0 <= i < |items| ensures low <= items[i].id < low + EPOCH {
      assert Answers(items[i], items[i].id);
    }
  }

  lemma NamedUngrouped(f: Flight)
    requires Named(f) && !f.grouped
    ensures AllApart(f.items)
  {
  }

  /** In a packed flight the sample key keeps the members of one datagram to one sample. */
  lemma RunGroupedOnce(r: Run, mtu: u16, n: nat, ranges: seq<Range>, low: int)
    requires CachedRun(r) && r.states[0] == NewSender(mtu) && 60 < mtu <= 1492
    requires n < |r.ops| && r.ops[n].Flushing?
    requires ItemsWithin(Tick(r.states[n].flight, r.ops[n].at).items, low)
      && ItemsWithin(r.states[n + 1].flight.items, low)
    ensures var items := r.states[n + 1].flight.items;
      SampledOnce(Sampled(items, ranges, true), items, ranges)
  {
    hide Cached, Packing.Numbered, Flush, FirstSent, Adjacent, FirstNames, SampledOnce, Sampled, ItemsFit, AllFit,
      Sorted, Reordered, ItemsWithin, Neighbours, Tick;
    var s, at, order := r.states[n], r.ops[n].at, r.orders[n];
    assert CachedStep(s, r.ops[n], r.states[n + 1], r.outs[n], order);
    RunFlushable(r, mtu, n);
    RunFirstSent(r, mtu, n);
    FlushNeighbours(s, at, order, low);
    FlushFirstSent(s, at, order);
    FlushKeepsCached(s, at, order);
    var items := r.states[n + 1].flight.items;
    NeighboursAdjacent(items, low);
    AllSentFirstNames(items);
    var q := OneSamplePerDatagram(items, ranges);
  }

  lemma AllSentFirstNames(items: seq<Item>)
    requires FirstSent(items) && AllSent(items)
    ensures FirstNames(items)
  {
  }
}
