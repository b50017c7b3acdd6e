/** Whole runs with tail probes: a probe never delays normal recovery. */
module ProbeRuns {
  import opened AckSet
  import opened Acks
  import opened Bytes
  import opened Deadlines
  import opened Errors
  import opened Frames
  import opened Packing
  import opened Renumber
  import opened Sender
  import opened Serial
  import opened TailProbe

  // ---------------------------------------------------------------------
  // What every step keeps.

  /** Sent again by a probe, and not by a timeout since. */
  ghost predicate Probed(item: Item) {
    item.sent && item.retries == 0 && item.past != []
  }

  ghost predicate Remembers(recovery: Option<Recovery>, item: Item) {
    recovery.Some? && recovery.value.pending.Some? && recovery.value.pending.value.number == Wrap(item.id)
  }

  /** Every probed frame's original timeout is still on record. */
  ghost predicate Recorded(items: seq<Item>, recovery: Option<Recovery>) {
    forall i | 0 <= i < |items| && Probed(items[i]) :: Remembers(recovery, items[i])
  }

  ghost predicate NumbersBelow(items: seq<Item>, bound: nat) {
    forall i | 0 <= i < |items| :: items[i].id < bound
  }

  ghost predicate Kept(q: Probing) {
    && Cached(q.send.flight)
    && NumbersBelow(Items(q), q.send.flight.sequence)
    && Recorded(Items(q), q.recovery)
    && Replay(q) == None
  }

  lemma RenumberedKeepsRecord(f: Flight, g: Flight, recovery: Option<Recovery>)
    requires Renumbered(f, g) && Recorded(f.items, recovery) && NumbersBelow(f.items, f.sequence)
    ensures Recorded(g.items, recovery) && NumbersBelow(g.items, g.sequence)
  {
    hide Spent, Remembers;
    forall i | 0 <= i < |g.items|
      ensures g.items[i].id < g.sequence && (Probed(g.items[i]) ==> Remembers(recovery, g.items[i]))
    {
    }
  }

  // ---------------------------------------------------------------------
  // Probing and timing out.

  lemma ProbeKeeps(q: Probing, now: int)
    requires Kept(q)
    ensures var r := ProbeTail(q, now);
      Cached(r.send.flight) && NumbersBelow(Items(r), r.send.flight.sequence) && Recorded(Items(r), r.recovery)
  {
    hide RetryTimeout, Wrap, Later;
    if Probes(q, now) {
      ProbesEligible(q, now);
      var r := ProbeTail(q, now);
      assert forall i | 0 <= i < |Items(r)| :: !Items(r)[i].sent && Items(r)[i].time == Items(q)[i].time;
    }
  }

  /** A flight with a frame that waits, or that has been sent again, is not probed. */
  lemma NoSecondProbe(q: Probing, now: int, i: nat)
    requires i < |Items(q)| && (!Items(q)[i].sent || Items(q)[i].past != [])
    ensures ProbeTail(q, now) == q
  {
    hide Wrap, Later, RetryTimeout;
    if Probes(q, now) {
      ProbesEligible(q, now);
    }
  }

  lemma {:induction false} ScanKeepsCached(f: Flight, tick: int, probe: Option<Probe>, i: nat)
    requires i <= |f.items| && Timed(f) && PendingKept(f) && OrderKept(f) && DeadlineKeptBelow(f, i)
    ensures Cached(Scan(f, tick, probe, i))
    decreases |f.items| - i
  {
    hide Overdue, RetryTimeout;
    if i < |f.items| {
      var item := f.items[i];
      if item.sent && Overdue(f, item, tick, probe) {
        ScanKeepsCached(Resequence(f, i, item.time), tick, probe, i + 1);
      } else if item.sent {
        ScanKeepsCached(f.(nextRetry := Min(f.nextRetry, Deadline(f, item))), tick, probe, i + 1);
      } else {
        ScanKeepsCached(f, tick, probe, i + 1);
      }
    }
  }

  lemma MemberIsActive(q: Probing, i: nat)
    requires i < |Items(q)| && q.recovery.Some? && q.recovery.value.pending.Some?
    requires Member(Items(q)[i], q.recovery.value.pending.value)
    ensures ActiveProbe(q) == q.recovery.value.pending
  {
  }

  /** Once the recorded timeout has passed, no probed frame is left waiting for it. */
  lemma FallbackClears(f: Flight, tick: int, probe: Probe, recovery: Option<Recovery>)
    requires Recorded(f.items, recovery) && recovery.Some? && recovery.value.pending == Some(probe)
      && tick >= probe.deadline
    ensures forall i | 0 <= i < |Scan(f, tick, Some(probe), 0).items| :: !Probed(Scan(f, tick, Some(probe), 0).items[i])
  {
    hide Spent, Expired;
    var g := Scan(f, tick, Some(probe), 0);
    ScanExact(f, tick, Some(probe), 0);
    forall i | 0 <= i < |g.items| ensures !Probed(g.items[i]) {
      if Probed(f.items[i]) {
        assert Changed(f, g, i);
      }
    }
  }

  lemma TickKeeps(q: Probing, tick: int)
    requires Kept(q)
    ensures var r := TickProbe(q, tick);
      Cached(r.send.flight) && NumbersBelow(Items(r), r.send.flight.sequence) && Recorded(Items(r), r.recovery)
  {
    hide Cached, NumbersBelow, Recorded, Scan, ProbeTail;
    ProbeKeeps(q, tick);
    var q1 := ProbeTail(q, tick);
    var probe, f := ActiveProbe(q1), q1.send.flight;
    if tick >= Min(f.nextRetry, if probe.Some? then probe.value.deadline else NEVER) {
      ScanFromStart(f, tick, probe);
      var f' := f.(nextRetry := NEVER);
      ScanExact(f', tick, probe, 0);
      RenumberedKeepsRecord(f', Scan(f', tick, probe, 0), q1.recovery);
      if probe.Some? && tick >= probe.value.deadline {
        FallbackClears(f', tick, probe.value, q1.recovery);
        NothingRecorded(Scan(f', tick, probe, 0).items, Some(q1.recovery.value.(pending := None)));
      }
    }
  }

  lemma NothingRecorded(items: seq<Item>, recovery: Option<Recovery>)
    requires forall i | 0 <= i < |items| :: !Probed(items[i])
    ensures Recorded(items, recovery)
  {
  }

  lemma ScanFromStart(f: Flight, tick: int, probe: Option<Probe>)
    requires Cached(f)
    ensures Cached(Scan(f.(nextRetry := NEVER), tick, probe, 0))
  {
    ScanKeepsCached(f.(nextRetry := NEVER), tick, probe, 0);
  }

  // ---------------------------------------------------------------------
  // Resending and pumping.

  lemma {:induction false} ResendAllKeepsDeadline(f: Flight, out: seq<Outgoing>, tick: int, replay: Option<u24>, i: nat)
    requires i <= |f.items| && DeadlineKept(f)
    ensures DeadlineKept(ResendAll(f, out, tick, replay, i).0)
    decreases |f.items| - i
  {
    hide RetryTimeout;
    if i < |f.items| {
      if f.items[i].sent {
        ResendAllKeepsDeadline(f, out, tick, replay, i + 1);
      } else {
        var item := ResendProbe(f.items[i], tick, replay);
        var f' := f.(items := f.items[i := item],
                     nextRetry := Min(f.nextRetry, Later(tick, RetryTimeout(f.rto, item.retries))));
        ResendAllKeepsDeadline(f', out + [Outgoing(item.packet, item.id)], tick, replay, i + 1);
      }
    }
  }

  lemma ResendKeepsCached(f: Flight, tick: int, replay: Option<u24>)
    requires Cached(f) && tick >= 0 && Sorted(f.items)
    ensures var (g, _) := ResendProbing(f, tick, replay); Cached(g) && AllSent(g.items)
  {
    hide RetryTimeout, Wrap;
    if f.retriesPending {
      ResendAllExact(f, [], tick, replay, 0);
      ResendAllKeepsDeadline(f, [], tick, replay, 0);
      var (h, _) := ResendAll(f, [], tick, replay, 0);
      var (g, _) := ResendProbing(f, tick, replay);
      assert g == h.(retriesPending := false);
      forall i | 0 <= i < |g.items| ensures g.items[i].id == f.items[i].id && g.items[i].sent && g.items[i].time >= 0 {
        ReplayKeepsFrame(f.items[i], tick, replay);
      }
    }
  }

  /** Waiting frames leave as retries, unless they are the probe being replayed. */
  lemma ResendKeepsRecord(f: Flight, tick: int, replay: Option<u24>, recovery: Option<Recovery>)
    requires Recorded(f.items, recovery) && NumbersBelow(f.items, f.sequence)
    requires replay.Some? ==>
      recovery.Some? && recovery.value.pending.Some? && recovery.value.pending.value.number == replay.value
    ensures var (g, _) := ResendProbing(f, tick, replay);
      Recorded(g.items, recovery) && NumbersBelow(g.items, g.sequence) && g.sequence == f.sequence
  {
    hide RetryTimeout, Wrap;
    if f.retriesPending {
      ResendAllExact(f, [], tick, replay, 0);
      var (g, _) := ResendProbing(f, tick, replay);
      forall i | 0 <= i < |g.items|
        ensures g.items[i].id == f.items[i].id && (Probed(g.items[i]) ==> Remembers(recovery, g.items[i]))
      {
        ReplayKeepsFrame(f.items[i], tick, replay);
      }
    }
  }

  lemma {:induction false} PumpKeepsRecord(p: Pump, recovery: Option<Recovery>, mtu: u16, tick: int, n: nat)
    requires Recorded(p.flight.items, recovery) && NumbersBelow(p.flight.items, p.flight.sequence)
    requires p.group.Some? ==> p.group.value < p.flight.sequence
    ensures var q := PumpAll(p, mtu, tick, n);
      Recorded(q.flight.items, recovery) && NumbersBelow(q.flight.items, q.flight.sequence)
    decreases n
  {
    hide PumpStep, Packable, Remembers;
    if n > 0 && !PumpStops(p) {
      var id := StepShape(p, mtu, tick);
      PumpKeepsRecord(PumpStep(p, mtu, tick), recovery, mtu, tick, n - 1);
    }
  }

  /** A replay belongs to the probe on record. */
  lemma ReplayIsPending(q: Probing, tick: int)
    requires Kept(q)
    ensures var r := TickProbe(q, tick);
      Replay(r).Some? ==> r.recovery.value.pending.Some? && r.recovery.value.pending.value.number == Replay(r).value
  {
    hide Wrap, RetryTimeout, Recorded, NumbersBelow, Scan;
    if Probes(q, tick) {
      ProbesEligible(q, tick);
      FreshProbeIsEarly(q, tick);
    }
  }

  /** A probe fires before the timeout it records. */
  lemma FreshProbeIsEarly(q: Probing, tick: int)
    requires Cached(q.send.flight) && Probes(q, tick)
    ensures ProbeTail(q, tick).recovery.Some? && ProbeTail(q, tick).recovery.value.pending.Some?
    ensures tick < ProbeTail(q, tick).recovery.value.pending.value.deadline
    ensures TickProbe(q, tick) == ProbeTail(q, tick)
  {
    hide Wrap, RetryTimeout, Scan;
    ProbesEligible(q, tick);
    var f := q.send.flight;
    assert Untouched(f.items[0], Wrap(f.items[0].id));
    assert f.nextRetry <= Deadline(f, f.items[0]);
  }

  lemma RefreshKeeps(q: Probing, tick: int)
    requires Kept(q)
    ensures Kept(Refreshed(q, tick))
  {
    hide Wrap, RetryTimeout, Later;
  }

  lemma FlushKeeps(q: Probing, tick: nat, order: seq<nat>)
    requires Kept(q) && Sorts(TickProbe(Refreshed(q, tick), tick).send.flight.items, order)
    ensures Kept(FlushProbing(q, tick, order).queue) && AllSent(Items(FlushProbing(q, tick, order).queue))
  {
    hide Cached, NumbersBelow, Recorded, TickProbe, ResendProbing, PumpAll, Refreshed, Arrange, Sorted, Reordered,
      AllSent;
    RefreshKeeps(q, tick);
    var q0 := Refreshed(q, tick);
    TickKeeps(q0, tick);
    ReplayIsPending(q0, tick);
    var q1 := TickProbe(q0, tick);
    var f := q1.send.flight;
    ArrangeKeepsCached(f, order);
    ArrangeKeepsRecord(f, order, q1.recovery);
    var g := Arrange(f, order);
    ResendKeepsCached(g, tick, Replay(q1));
    ResendKeepsRecord(g, tick, Replay(q1), q1.recovery);
    var (h, out) := ResendProbing(g, tick, Replay(q1));
    var pump := StartPump(q1.send, h, out).(coalesced := TailProbe.Packed(q1));
    PumpKeepsCached(pump, q1.send.mtu, tick, |q1.send.queue.packets|);
    PumpKeepsRecord(pump, q1.recovery, q1.send.mtu, tick, |q1.send.queue.packets|);
    PickUpKeepsRecord(FlushProbing(q, tick, order).queue.send.flight.items, q1);
  }

  lemma ArrangeKeepsRecord(f: Flight, order: seq<nat>, recovery: Option<Recovery>)
    requires Recorded(f.items, recovery) && NumbersBelow(f.items, f.sequence) && IsPermutation(order, |f.items|)
    ensures var g := Arrange(f, order); Recorded(g.items, recovery) && NumbersBelow(g.items, g.sequence)
  {
  }

  lemma PickUpKeepsRecord(items: seq<Item>, q: Probing)
    requires Recorded(items, q.recovery)
    ensures Recorded(items, PickedUp(q))
  {
  }

  // ---------------------------------------------------------------------
  // Feedback.

  lemma SublistKeepsRecord(kept: seq<Item>, items: seq<Item>, recovery: Option<Recovery>, bound: nat)
    requires Sublist(kept, items) && Recorded(items, recovery) && NumbersBelow(items, bound)
    ensures Recorded(kept, recovery) && NumbersBelow(kept, bound)
  {
    hide Remembers;
    var at: seq<nat> :| Selects(at, kept, items);
    assert forall i | 0 <= i < |kept| :: kept[i] == items[at[i]];
  }

  lemma ProgressKeeps(q: Probing, now: int, sampled: bool)
    requires Kept(q)
    ensures Kept(Progressed(q, now, sampled))
  {
    hide Wrap;
    if q.recovery.Some? {
      var r := Progressed(q, now, sampled);
      forall i | 0 <= i < |Items(r)|
        ensures Items(r)[i].id == Items(q)[i].id && Items(r)[i].sent == Items(q)[i].sent
          && Items(r)[i].time == Items(q)[i].time
        ensures Probed(Items(r)[i]) ==> Remembers(r.recovery, Items(r)[i])
        ensures Items(r)[i].sent ==> r.send.flight.nextRetry <= Deadline(r.send.flight, Items(r)[i])
      {
        if Probed(Items(r)[i]) {
          MemberIsActive(q, i);
        }
        TimeoutBounded(r.send.flight, Items(r)[i].retries);
      }
    }
  }

  lemma WithItemsKeeps(q: Probing, items: seq<Item>)
    requires Kept(q) && Sublist(items, Items(q))
    ensures Kept(WithItems(q, items))
  {
    hide Cached, NumbersBelow, Recorded, Sublist;
    SublistKeepsCached(q.send.flight, items, q.send.flight.grouped && items != []);
    SublistKeepsRecord(items, Items(q), q.recovery, q.send.flight.sequence);
  }

  lemma MarkKeeps(q: Probing, previous: int, newest: int, tick: nat)
    requires Kept(q)
    ensures Kept(q.(send := q.send.(flight := MoveMark(q.send.flight, previous, newest, tick))))
  {
    hide Cached, NumbersBelow, Recorded, MoveMark, Renumbered, InGap;
    MoveMarkKeepsCached(q.send.flight, previous, newest, tick);
    MoveMarkExact(q.send.flight, previous, newest, tick);
    RenumberedKeepsRecord(q.send.flight, MoveMark(q.send.flight, previous, newest, tick), q.recovery);
  }

  lemma LatencyKeeps(q: Probing, latency: (int, int))
    requires Kept(q) && 0 <= latency.0 && RTO_LBOUND <= latency.1 <= RTO_UBOUND
    ensures Kept(q.(send := q.send.(flight := SetLatency(q.send.flight, latency))))
  {
    hide Wrap, RetryTimeout;
    var g := SetLatency(q.send.flight, latency);
    forall i | 0 <= i < |g.items| && g.items[i].sent ensures g.nextRetry <= Deadline(g, g.items[i]) {
      TimeoutBounded(g, g.items[i].retries);
    }
  }

  lemma LedgerIgnored(q: Probing, ledger: Sender.Ledger)
    requires Kept(q)
    ensures Kept(q.(send := q.send.(ledger := ledger)))
  {
    hide Cached, NumbersBelow, Recorded;
  }

  lemma SampleBounds(srtt: int, rtt: int)
    requires 0 <= srtt && 0 <= rtt
    ensures 0 <= LatencySample(srtt, rtt).0 && RTO_LBOUND <= LatencySample(srtt, rtt).1 <= RTO_UBOUND
  {
  }

  lemma KeptLatency(q: Probing)
    requires Kept(q)
    ensures 0 <= q.send.flight.srtt && RTO_LBOUND <= q.send.flight.rto <= RTO_UBOUND
  {
    hide NumbersBelow, Recorded, RetryTimeout, Wrap;
  }

  lemma AckDirectKeeps(q: Probing, number: u24, tick: nat)
    requires Kept(q)
    ensures Kept(AckDirectProbing(q, number, tick))
  {
    hide Kept, Progressed, MoveMark, NameFor, LatencySample, Retire, WithItems, Find, Removed, SetLatency, Newer, Wrap;
    var k := Find(Items(q), number, 0);
    if k < |Items(q)| {
      var item := Items(q)[k];
      RemovedIsSublist(Items(q), k);
      WithItemsKeeps(q, Removed(Items(q), k));
      var q1 := WithItems(q, Removed(Items(q), k));
      ProgressKeeps(q1, tick, Unambiguous(item));
      var q2 := Progressed(q1, tick, Unambiguous(item));
      var f := q2.send.flight;
      var moves := Newer(number, Wrap(f.ackMark));
      MarkKeeps(q2, f.ackMark, NameFor(item, number), tick);
      var q3 := if moves then q2.(send := q2.send.(flight := MoveMark(f, f.ackMark, NameFor(item, number), tick)))
        else q2;
      KeptLatency(q3);
      SampleBounds(q3.send.flight.srtt, Rtt(tick, item));
      LatencyKeeps(q3, LatencySample(q3.send.flight.srtt, Rtt(tick, item)));
      var q4 := if Unambiguous(item)
        then q3.(send := q3.send.(flight := SetLatency(q3.send.flight,
          LatencySample(q3.send.flight.srtt, Rtt(tick, item))))) else q3;
      LedgerIgnored(q4, AckDirectProbing(q, number, tick).send.ledger);
    }
  }

  lemma {:induction false} SweepKeepsSome(w: Swept, items: seq<Item>, ranges: seq<Range>, tick: nat, grouped: bool)
    requires w.sweep.kept == [] && 0 <= w.sweep.latency.0 && RTO_LBOUND <= w.sweep.latency.1 <= RTO_UBOUND
    ensures var w' := SweepProbing(w, items, ranges, tick, grouped).sweep;
      Sublist(w'.kept, items) && 0 <= w'.latency.0 && RTO_LBOUND <= w'.latency.1 <= RTO_UBOUND
    decreases |items|
  {
    hide AckedName, Retire, Newer, Wrap, LatencySample;
    if items == [] {
      assert Selects([], w.sweep.kept, items);
    } else {
      var front, last := items[..|items| - 1], items[|items| - 1];
      SweepKeepsSome(w, front, ranges, tick, grouped);
      var w1 := SweepProbing(w, front, ranges, tick, grouped).sweep;
      SampleBounds(w1.latency.0, Rtt(tick, last));
      var at: seq<nat> :| Selects(at, w1.kept, front);
      assert Selects(at, w1.kept, items);
      assert Selects(at + [|front|], w1.kept + [last], items);
    }
  }

  lemma CompactKeeps(q: Probing, ranges: seq<Range>, tick: nat)
    requires Kept(q)
    ensures Kept(CompactProbing(q, ranges, tick))
  {
    hide Kept, Progressed, MoveMark, SweepProbing, WithItems, SetLatency, Sublist;
    var f := q.send.flight;
    KeptLatency(q);
    var start := Swept(StartSweep(q.send), false);
    SweepKeepsSome(start, f.items, ranges, tick, f.grouped);
    var swept := SweepProbing(start, f.items, ranges, tick, f.grouped);
    var w := swept.sweep;
    WithItemsKeeps(q, w.kept);
    var q1 := WithItems(q, w.kept);
    ProgressKeeps(q1, tick, swept.sampled);
    var q2 := if w.released != 0 then Progressed(q1, tick, swept.sampled) else q1;
    LatencyKeeps(q2, w.latency);
    var q3 := q2.(send := q2.send.(flight := SetLatency(q2.send.flight, w.latency)));
    MarkKeeps(q3, f.ackMark, w.newest, tick);
    var q4 := if w.newest != f.ackMark
      then q3.(send := q3.send.(flight := MoveMark(q3.send.flight, f.ackMark, w.newest, tick))) else q3;
    LedgerIgnored(q4, w.ledger.(buffered := w.ledger.buffered - w.released));
  }

  lemma AckKeeps(q: Probing, ranges: seq<Range>, tick: nat)
    requires Kept(q)
    ensures Kept(AckProbing(q, ranges, tick))
  {
    hide Kept, AckDirectProbing, CompactProbing;
    CompactKeeps(q, ranges, tick);
    if |ranges| == 1 {
      AckDirectKeeps(q, ranges[0].first, tick);
    }
  }

  lemma NackKeeps(q: Probing, ranges: seq<Range>, tick: nat)
    requires Kept(q)
    ensures Kept(q.(send := q.send.(flight := NackRanges(q.send.flight, ranges, tick))))
  {
    hide Cached, NumbersBelow, Recorded, NackRanges, Renumbered, Covered;
    NackRangesKeepsCached(q.send.flight, ranges, tick);
    NackRangesExact(q.send.flight, ranges, tick);
    RenumberedKeepsRecord(q.send.flight, NackRanges(q.send.flight, ranges, tick), q.recovery);
  }

  lemma OptionsKeep(q: Probing, options: RecoveryOptions, now: int)
    requires Kept(q)
    ensures Kept(SetOptions(q, options, now))
  {
    hide Cached, NumbersBelow, Wrap;
    var r := SetOptions(q, options, now);
    forall i | 0 <= i < |Items(r)| && Probed(Items(r)[i]) ensures Remembers(r.recovery, Items(r)[i]) {
      MemberIsActive(q, i);
    }
  }

  // ---------------------------------------------------------------------
  // What a probe does, and what follows it.

  /**
   A probe sends every frame of the datagram again under one number, keeps its
   timeout on record, and adds no backoff.
   */
  lemma ProbeIsNoRetry(q: Probing, tick: nat, order: seq<nat>)
    requires Kept(q) && Probes(q, tick) && Sorts(ProbeTail(q, tick).send.flight.items, order)
    ensures IsPermutation(order, |Items(q)|)
    ensures var r := FlushProbing(q, tick, order); var id := q.send.flight.sequence;
      && r.queue.recovery.Some?
      && r.queue.recovery.value.pending == Some(Probe(Wrap(id), Deadline(q.send.flight, Items(q)[0])))
      && |Items(r.queue)| == |Items(q)| && |r.out| == |Items(q)|
      && (forall k | 0 <= k < |Items(q)| :: var item := Items(r.queue)[k];
            item == Items(q)[order[k]].(id := id, time := tick, past := [Items(q)[0].id]))
      && (forall k | 0 <= k < |r.out| :: r.out[k].id == id)
      && (r.coalesced <==> |Items(q)| > 1)
  {
    hide Cached, NumbersBelow, Recorded, ProbeTail, ResendAll, RetryTimeout, Sorted, Wrap, Later, FlushProbing,
      TickProbe, PumpAll, Probes, ResendProbing;
    ProbesEligible(q, tick);
    FreshProbeIsEarly(q, tick);
    var q1 := ProbeTail(q, tick);
    ProbeReplays(q, tick);
    ProbeFlush(q, tick, order);
    var g := Arrange(q1.send.flight, order);
    assert forall k | 0 <= k < |g.items| :: g.items[k] == Items(q1)[order[k]];
    ReplaySends(g, tick, q.send.flight.sequence);
  }

  /** Replaying a datagram: every frame leaves under its number, and none counts as a retry. */
  lemma ReplaySends(g: Flight, tick: nat, id: nat)
    requires g.retriesPending && forall k | 0 <= k < |g.items| :: !g.items[k].sent && g.items[k].id == id
    ensures var (h, out) := ResendProbing(g, tick, Some(Wrap(id)));
      && |h.items| == |g.items| == |out|
      && (forall k | 0 <= k < |g.items| :: h.items[k] == g.items[k].(sent := true, time := tick))
      && (forall k | 0 <= k < |out| :: out[k].id == id)
  {
    hide ResendAll, RetryTimeout, Wrap, Later;
    ResendAllExact(g, [], tick, Some(Wrap(id)), 0);
    WaitingIsAll(g.items, 0);
    var (h, out) := ResendProbing(g, tick, Some(Wrap(id)));
    assert out == [] + Waiting(g.items, 0) == Waiting(g.items, 0);
    forall k | 0 <= k < |out| ensures out[k].id == id {
      var j := WaitingFrom(g.items, 0, k);
    }
  }

  /** With nothing queued, a flush only times out and resends. */
  lemma ProbeFlush(q: Probing, tick: nat, order: seq<nat>)
    requires Items(q) != [] && q.send.queue.packets == [] && IsPermutation(order, |Items(q)|)
    requires TickProbe(q, tick).send.queue == q.send.queue
    ensures var q1 := TickProbe(q, tick);
      var (h, out) := ResendProbing(Arrange(q1.send.flight, order), tick, Replay(q1));
      FlushProbing(q, tick, order)
        == Outcome(Probing(q1.send.(flight := h), PickedUp(q1)), out, TailProbe.Packed(q1))
  {
    hide TickProbe, ResendProbing, Arrange, PumpStep;
  }

  lemma ProbeReplays(q: Probing, tick: int)
    requires Probes(q, tick)
    ensures var r, id := ProbeTail(q, tick), q.send.flight.sequence;
      && r.send.flight.dirty && r.send.flight.retriesPending && r.send.queue == q.send.queue
        && q.send.queue.packets == []
      && r.recovery.Some? && r.recovery.value.replay == Some(Wrap(id)) && (r.recovery.value.packed <==> |Items(q)| > 1)
      && r.recovery.value.pending == Some(Probe(Wrap(id), Deadline(q.send.flight, Items(q)[0])))
      && |Items(r)| == |Items(q)|
      && forall k | 0 <= k < |Items(r)| ::
           && Items(r)[k] == Items(q)[k].(id := id, sent := false, past := [Items(q)[0].id])
           && Items(q)[k].sent && Items(q)[k].retries == 0
  {
    hide Wrap, RetryTimeout, Later;
    ProbesEligible(q, tick);
    forall k | 0 <= k < |Items(q)| ensures PushPast(Items(q)[k].past, Items(q)[0].id) == [Items(q)[0].id] {
      assert Untouched(Items(q)[k], Wrap(Items(q)[0].id));
    }
  }

  lemma {:induction false} WaitingIsAll(items: seq<Item>, i: nat)
    requires i <= |items| && forall k | i <= k < |items| :: !items[k].sent
    ensures |Waiting(items, i)| == |items| - i
    decreases |items| - i
  {
    if i < |items| {
      WaitingIsAll(items, i + 1);
    }
  }

  /** A frame that waits when the flush starts resending leaves with it. */
  lemma WaitingLeaves(q: Probing, tick: nat, order: seq<nat>, k: nat)
    requires IsPermutation(order, |Items(q)|)
    requires var q1 := TickProbe(Refreshed(q, tick), tick);
      k < |Items(q1)| && !Items(q1)[k].sent && q1.send.flight.retriesPending && Sorts(Items(q1), order)
    ensures var item := Items(TickProbe(Refreshed(q, tick), tick))[k];
      Outgoing(item.packet, item.id) in FlushProbing(q, tick, order).out
  {
    hide TickProbe, Refreshed, ResendAll, PumpAll, Sorted;
    var q1 := TickProbe(Refreshed(q, tick), tick);
    var j := ArrangeHas(q1.send.flight, order, k);
    var g := Arrange(q1.send.flight, order);
    ResendAllExact(g, [], tick, Replay(q1), 0);
    WaitingHas(g.items, 0, j);
    var (h, out) := ResendProbing(g, tick, Replay(q1));
    var pump := StartPump(q1.send, h, out).(coalesced := TailProbe.Packed(q1));
    PumpExtends(pump, q1.send.mtu, tick, |q1.send.queue.packets|);
    var o, all := Outgoing(Items(q1)[k].packet, Items(q1)[k].id), FlushProbing(q, tick, order).out;
    assert out == Waiting(g.items, 0) && out <= all;
    var i :| 0 <= i < |out| && out[i] == o;
    assert all[i] == o;
  }

  /** The number a frame gets when the flush times it out. */
  ghost function FreshNumber(q: Probing, tick: nat, k: nat): nat
    requires k < |Items(q)|
  {
    Items(TickProbe(Refreshed(q, tick), tick))[k].id
  }

  /**
   At or after the recorded timeout, a flush sends every probed frame again,
   each under its own fresh number, whatever became of the probe.
   */
  lemma FallbackIsResent(q: Probing, tick: nat, order: seq<nat>, k: nat)
    requires Kept(q) && k < |Items(q)| && Probed(Items(q)[k])
    requires tick >= q.recovery.value.pending.value.deadline
    requires IsPermutation(order, |Items(q)|) && Sorts(Items(TickProbe(Refreshed(q, tick), tick)), order)
    ensures Outgoing(Items(q)[k].packet, FreshNumber(q, tick, k)) in FlushProbing(q, tick, order).out
    ensures FreshNumber(q, tick, k) >= q.send.flight.sequence
    ensures forall j | 0 <= j < |Items(q)| && j != k && Probed(Items(q)[j]) ::
      FreshNumber(q, tick, j) != FreshNumber(q, tick, k)
  {
    hide Cached, NumbersBelow, Scan, ProbeTail, FlushProbing, Sorts;
    FallbackScans(q, tick, k);
    var f, probe := q.send.flight.(nextRetry := NEVER), q.recovery.value.pending;
    var g := Scan(f, tick, probe, 0);
    ScanExact(f, tick, probe, 0);
    forall j | 0 <= j < |Items(q)| && Probed(Items(q)[j]) ensures Changed(f, g, j)
      && Moved(f.items[j], g.items[j], f.sequence, g.sequence) {
      assert Remembers(q.recovery, Items(q)[j]);
    }
    assert Stirred(g);
    WaitingLeaves(q, tick, order, k);
  }

  lemma FallbackScans(q: Probing, tick: nat, k: nat)
    requires Kept(q) && k < |Items(q)| && Probed(Items(q)[k])
    requires tick >= q.recovery.value.pending.value.deadline
    ensures Refreshed(q, tick) == q && ProbeTail(q, tick) == q && ActiveProbe(q) == q.recovery.value.pending
    ensures TickProbe(q, tick)
         == Probing(q.send.(flight := Scan(q.send.flight.(nextRetry := NEVER), tick, q.recovery.value.pending, 0)),
                    Some(q.recovery.value.(pending := None)))
  {
    hide Cached, NumbersBelow, Scan, ProbeTail, Wrap;
    NoSecondProbe(q, tick, k);
    assert Remembers(q.recovery, Items(q)[k]);
    MemberIsActive(q, k);
  }

  // ---------------------------------------------------------------------
  // Runs.

  datatype Op =
    | Add(mode: Reliability, data: seq<byte>, channel: byte)
    | StartBatch
    | Acked(ranges: seq<Range>, at: nat)
    | Nacked(ranges: seq<Range>, at: nat)
    | Replace(options: RecoveryOptions, at: nat)
    | Flushing(at: nat, order: seq<nat>)

  function Apply(q: Probing, op: Op): Probing
    requires !op.Flushing?
  {
    match op
    case Add(mode, data, channel) => q.(send := Enqueue(q.send, mode, data, channel).0)
    case StartBatch => q.(send := EnableCoalescing(q.send))
    case Acked(ranges, at) => AckProbing(q, ranges, at)
    case Nacked(ranges, at) => q.(send := q.send.(flight := NackRanges(q.send.flight, ranges, at)))
    case Replace(options, at) => SetOptions(q, options, at)
  }

  ghost predicate Flushable(q: Probing, at: nat, order: seq<nat>) {
    IsPermutation(order, |Items(q)|) && Sorts(Items(TickProbe(Refreshed(q, at), at)), order)
  }

  ghost predicate StepsTo(q: Probing, op: Op, q': Probing, out: seq<Outgoing>) {
    if op.Flushing? then
      && Flushable(q, op.at, op.order)
      && var r := FlushProbing(q, op.at, op.order); q' == r.queue && out == r.out
    else q' == Apply(q, op) && out == []
  }

  datatype Run = Run(states: seq<Probing>, ops: seq<Op>, outs: seq<seq<Outgoing>>)

  ghost predicate IsRun(r: Run, mtu: u16) {
    && |r.states| == |r.ops| + 1 && |r.outs| == |r.ops|
    && r.states[0] == Probing(NewSender(mtu), None)
    && forall i | 0 <= i < |r.ops| :: StepsTo(r.states[i], r.ops[i], r.states[i + 1], r.outs[i])
  }

  lemma ApplyKeeps(q: Probing, op: Op)
    requires Kept(q) && !op.Flushing?
    ensures Kept(Apply(q, op))
  {
    hide Kept, AckProbing, NackRanges, SetOptions;
    match op
    case Add(mode, data, channel) => EnqueueKeeps(q, mode, data, channel);
    case StartBatch => CoalescingKeeps(q);
    case Acked(ranges, at) => AckKeeps(q, ranges, at);
    case Nacked(ranges, at) => NackKeeps(q, ranges, at);
    case Replace(options, at) => OptionsKeep(q, options, at);
  }

  lemma EnqueueKeeps(q: Probing, mode: Reliability, data: seq<byte>, channel: byte)
    requires Kept(q)
    ensures Kept(q.(send := Enqueue(q.send, mode, data, channel).0))
  {
    hide Cached, NumbersBelow, Recorded, Pieces, Whole, DivCeil;
  }

  lemma CoalescingKeeps(q: Probing)
    requires Kept(q)
    ensures Kept(q.(send := EnableCoalescing(q.send)))
  {
    hide RetryTimeout, Wrap, Later;
    var f, g := q.send.flight, EnableCoalescing(q.send).flight;
    assert forall i | 0 <= i < |f.items| :: Deadline(g, f.items[i]) == Deadline(f, f.items[i]);
  }

  lemma {:induction false} RunKeeps(r: Run, mtu: u16, n: nat)
    requires IsRun(r, mtu) && n < |r.states|
    ensures Kept(r.states[n])
    decreases n
  {
    hide Kept, Apply, FlushProbing, TickProbe, Refreshed, Sorted, Reordered;
    if n == 0 {
      NewIsKept(mtu);
    } else {
      RunKeeps(r, mtu, n - 1);
      var q, op := r.states[n - 1], r.ops[n - 1];
      assert StepsTo(q, op, r.states[n], r.outs[n - 1]);
      if op.Flushing? {
        FlushKeeps(q, op.at, op.order);
      } else {
        ApplyKeeps(q, op);
      }
    }
  }

  lemma NewIsKept(mtu: u16)
    ensures Kept(Probing(NewSender(mtu), None))
  {
  }

  /** The frame is in flight under the probe's number. */
  ghost predicate InFlight(q: Probing, p: Packet, id: nat) {
    exists i | 0 <= i < |Items(q)| :: Carries(Items(q)[i], p, id)
  }

  ghost predicate Carries(item: Item, p: Packet, id: nat) {
    item.packet == p && item.id == id && Probed(item)
  }

  function Pending(q: Probing): Option<Probe> {
    if q.recovery.Some? then q.recovery.value.pending else None
  }

  /** No frame of a flight is probed. */
  lemma NoneProbed(items: seq<Item>)
    requires Recorded(items, None)
    ensures forall i | 0 <= i < |items| :: !Probed(items[i])
  {
  }

  lemma ProbedRemembered(q: Probing, k: nat)
    requires Kept(q) && k < |Items(q)| && Probed(Items(q)[k])
    ensures q.recovery.Some? && q.recovery.value.pending.Some?
  {
    hide Cached, NumbersBelow;
  }

  /** After the fallback nothing is on the probe's number any more. */
  lemma FallbackEnds(q: Probing, tick: nat, order: seq<nat>, k: nat)
    requires Kept(q) && k < |Items(q)| && Probed(Items(q)[k]) && Flushable(q, tick, order)
    requires tick >= q.recovery.value.pending.value.deadline
    ensures Recorded(Items(FlushProbing(q, tick, order).queue), None)
  {
    hide Cached, NumbersBelow, Recorded, Scan, TickProbe, ResendProbing, PumpAll, Arrange, Sorted, Reordered, Refreshed;
    ProbedRemembered(q, k);
    FallbackScans(q, tick, k);
    var q1 := TickProbe(q, tick);
    var f', probe := q.send.flight.(nextRetry := NEVER), q.recovery.value.pending.value;
    FallbackClears(f', tick, probe, q.recovery);
    NothingRecorded(Items(q1), None);
    TickKeeps(q, tick);
    ArrangeKeepsRecord(q1.send.flight, order, None);
    var g := Arrange(q1.send.flight, order);
    ResendKeepsRecord(g, tick, Replay(q1), None);
    var (h, out) := ResendProbing(g, tick, Replay(q1));
    var pump := StartPump(q1.send, h, out).(coalesced := TailProbe.Packed(q1));
    PumpKeepsRecord(pump, None, q1.send.mtu, tick, |q1.send.queue.packets|);
  }

  lemma FlushPersists(q: Probing, tick: nat, order: seq<nat>, p: Packet, id: nat)
    requires Kept(q) && Flushable(q, tick, order) && InFlight(q, p, id)
      && InFlight(FlushProbing(q, tick, order).queue, p, id)
    ensures Pending(FlushProbing(q, tick, order).queue) == Pending(q)
  {
    hide Cached, NumbersBelow, Scan, ProbeTail, ResendProbing, PumpAll, Arrange, Sorted, Reordered, Wrap;
    var k :| 0 <= k < |Items(q)| && Carries(Items(q)[k], p, id);
    assert Remembers(q.recovery, Items(q)[k]);
    if tick >= q.recovery.value.pending.value.deadline {
      FallbackEnds(q, tick, order, k);
      NoneProbed(Items(FlushProbing(q, tick, order).queue));
      assert false;
    }
    NoSecondProbe(q, tick, k);
    MemberIsActive(q, k);
  }

  lemma ProgressPersists(q: Probing, now: int, sampled: bool, p: Packet, id: nat)
    requires Kept(q) && InFlight(q, p, id)
    ensures Pending(Progressed(q, now, sampled)) == Pending(q)
  {
    hide Cached, NumbersBelow, Relaxed, Wrap;
    var k :| 0 <= k < |Items(q)| && Carries(Items(q)[k], p, id);
    assert Remembers(q.recovery, Items(q)[k]);
    MemberIsActive(q, k);
  }

  /** A probed frame in the flight after a gap was there before it. */
  lemma MarkedBefore(f: Flight, previous: int, newest: int, tick: int, i: nat)
    requires i < |MoveMark(f, previous, newest, tick).items| && Probed(MoveMark(f, previous, newest, tick).items[i])
    ensures i < |f.items| && f.items[i] == MoveMark(f, previous, newest, tick).items[i]
  {
    hide MoveMark, InGap, Spent;
    MoveMarkExact(f, previous, newest, tick);
  }

  lemma RelaxedBefore(q: Probing, now: int, sampled: bool, p: Packet, id: nat)
    requires InFlight(Progressed(q, now, sampled), p, id)
    ensures InFlight(q, p, id)
  {
    hide ActiveProbe;
    var r := Progressed(q, now, sampled);
    var i :| 0 <= i < |Items(r)| && Carries(Items(r)[i], p, id);
    assert Carries(Items(q)[i], p, id);
  }

  lemma AckDirectPersists(q: Probing, number: u24, tick: nat, p: Packet, id: nat)
    requires Kept(q) && InFlight(q, p, id) && InFlight(AckDirectProbing(q, number, tick), p, id)
    ensures Pending(AckDirectProbing(q, number, tick)) == Pending(q)
  {
    hide Kept, Progressed, MoveMark, NameFor, LatencySample, Retire, Find, Removed, Newer, Wrap;
    var k := Find(Items(q), number, 0);
    if k < |Items(q)| {
      var item := Items(q)[k];
      RemovedIsSublist(Items(q), k);
      WithItemsKeeps(q, Removed(Items(q), k));
      var q1 := WithItems(q, Removed(Items(q), k));
      var q2 := Progressed(q1, tick, Unambiguous(item));
      var f := q2.send.flight;
      var r := AckDirectProbing(q, number, tick);
      var i :| 0 <= i < |Items(r)| && Carries(Items(r)[i], p, id);
      if Newer(number, Wrap(f.ackMark)) {
        MarkedBefore(f, f.ackMark, NameFor(item, number), tick, i);
      }
      assert Carries(Items(q2)[i], p, id);
      RelaxedBefore(q1, tick, Unambiguous(item), p, id);
      ProgressPersists(q1, tick, Unambiguous(item), p, id);
    }
  }

  lemma CompactPersists(q: Probing, ranges: seq<Range>, tick: nat, p: Packet, id: nat)
    requires Kept(q) && InFlight(q, p, id) && InFlight(CompactProbing(q, ranges, tick), p, id)
    ensures Pending(CompactProbing(q, ranges, tick)) == Pending(q)
  {
    hide Kept, Progressed, MoveMark, SweepProbing, Wrap;
    var f := q.send.flight;
    KeptLatency(q);
    var start := Swept(StartSweep(q.send), false);
    SweepKeepsSome(start, f.items, ranges, tick, f.grouped);
    var swept := SweepProbing(start, f.items, ranges, tick, f.grouped);
    var w := swept.sweep;
    WithItemsKeeps(q, w.kept);
    var q1 := WithItems(q, w.kept);
    var q2 := if w.released != 0 then Progressed(q1, tick, swept.sampled) else q1;
    var f1 := SetLatency(q2.send.flight, w.latency);
    var r := CompactProbing(q, ranges, tick);
    var i :| 0 <= i < |Items(r)| && Carries(Items(r)[i], p, id);
    if w.newest != f.ackMark {
      MarkedBefore(f1, f.ackMark, w.newest, tick, i);
    }
    assert Carries(Items(q2)[i], p, id);
    if w.released != 0 {
      RelaxedBefore(q1, tick, swept.sampled, p, id);
      ProgressPersists(q1, tick, swept.sampled, p, id);
    }
  }

  lemma OptionsPersist(q: Probing, options: RecoveryOptions, now: int, p: Packet, id: nat)
    requires Kept(q) && InFlight(q, p, id)
    ensures Pending(SetOptions(q, options, now)) == Pending(q)
  {
    hide Cached, NumbersBelow, Wrap;
    var k :| 0 <= k < |Items(q)| && Carries(Items(q)[k], p, id);
    assert Remembers(q.recovery, Items(q)[k]);
    MemberIsActive(q, k);
  }

  /** While the frame stays on the probe's number, its original timeout stays on record. */
  lemma StepPersists(q: Probing, op: Op, q': Probing, out: seq<Outgoing>, p: Packet, id: nat)
    requires Kept(q) && StepsTo(q, op, q', out) && InFlight(q, p, id) && InFlight(q', p, id)
    ensures Pending(q') == Pending(q)
  {
    hide Kept, InFlight, AckDirectProbing, CompactProbing, FlushProbing, SetOptions, Flushable, Enqueue, NackRanges;
    match op
    case Add(_, _, _) =>
    case StartBatch =>
    case Acked(ranges, at) =>
      if |ranges| == 1 && ranges[0].first == ranges[0].last && (!q.send.flight.grouped || |Items(q)| <= 1) {
        AckDirectPersists(q, ranges[0].first, at, p, id);
      } else {
        CompactPersists(q, ranges, at, p, id);
      }
    case Nacked(_, _) =>
    case Replace(options, at) => OptionsPersist(q, options, at, p, id);
    case Flushing(at, order) => FlushPersists(q, at, order, p, id);
  }

  lemma {:induction false} RecordPersists(r: Run, mtu: u16, m: nat, n: nat, p: Packet, id: nat)
    requires IsRun(r, mtu) && m <= n < |r.states|
    requires forall k | m <= k <= n :: InFlight(r.states[k], p, id)
    ensures Pending(r.states[n]) == Pending(r.states[m])
    decreases n - m
  {
    hide Kept, InFlight, StepsTo;
    if m < n {
      RecordPersists(r, mtu, m, n - 1, p, id);
      RunKeeps(r, mtu, n - 1);
      assert InFlight(r.states[n - 1], p, id) && InFlight(r.states[n], p, id);
      StepPersists(r.states[n - 1], r.ops[n - 1], r.states[n], r.outs[n - 1], p, id);
    }
  }

  // ---------------------------------------------------------------------
  // Following one frame.

  /** The frame waits to be sent under a number above the probe's. */
  ghost predicate Waits(item: Item, p: Packet, id: nat) {
    item.packet == p && !item.sent && item.id > id
  }

  ghost predicate Due(q: Probing, p: Packet, id: nat) {
    exists i | 0 <= i < |Items(q)| :: Waits(Items(q)[i], p, id)
  }

  /** No number the frame answers to is covered. */
  ghost predicate Unnamed(q: Probing, p: Packet, ranges: seq<Range>) {
    forall i | 0 <= i < |Items(q)| && Items(q)[i].packet == p :: !AckedBy(Items(q)[i], ranges)
  }

  /** `b` is `a`, possibly with its backoff reduced, or `a` waiting under a number from `bound` on. */
  ghost predicate Continues(a: Item, b: Item, bound: nat) {
    && b.packet == a.packet
    && ((b.sent == a.sent && b.id == a.id && b.past == a.past && (a.retries == 0 ==> b.retries == 0))
        || (a.sent && !b.sent && b.id >= bound))
  }

  ghost predicate Continued(a: Item, q: Probing, bound: nat) {
    exists j | 0 <= j < |Items(q)| :: Continues(a, Items(q)[j], bound)
  }

  lemma RenumberedContinues(f: Flight, g: Flight, a: Item, i: nat)
    requires Renumbered(f, g) && i < |f.items| && Continues(a, f.items[i], f.sequence) && f.items[i].sent == a.sent
    ensures Continues(a, g.items[i], f.sequence)
  {
    hide Spent;
    if g.items[i] != f.items[i] {
      assert Moved(f.items[i], g.items[i], f.sequence, g.sequence);
    }
  }

  /** Progress and the gap keep a frame that has survived. */
  lemma ProgressContinues(q: Probing, items: seq<Item>, now: int, sampled: bool, i: nat)
    requires i < |items|
    ensures var r := Progressed(WithItems(q, items), now, sampled);
      && |Items(r)| == |items| && r.send.flight.sequence == q.send.flight.sequence
      && Continues(items[i], Items(r)[i], q.send.flight.sequence) && Items(r)[i].sent == items[i].sent
  {
    hide ActiveProbe;
  }

  lemma MarkContinues(f: Flight, previous: int, newest: int, tick: int, a: Item, i: nat)
    requires i < |f.items| && Continues(a, f.items[i], f.sequence) && f.items[i].sent == a.sent
    ensures var g := MoveMark(f, previous, newest, tick); i < |g.items| && Continues(a, g.items[i], f.sequence)
  {
    hide MoveMark, InGap, Continues, Renumbered;
    MoveMarkExact(f, previous, newest, tick);
    RenumberedContinues(f, MoveMark(f, previous, newest, tick), a, i);
    RenumberedLength(f, MoveMark(f, previous, newest, tick));
  }

  lemma RenumberedLength(f: Flight, g: Flight)
    requires Renumbered(f, g)
    ensures |g.items| == |f.items|
  {
  }

  lemma DirectContinues(q: Probing, number: u24, tick: nat, i: nat)
    requires i < |Items(q)| && !AckedBy(Items(q)[i], Only(number))
    ensures Continued(Items(q)[i], AckDirectProbing(q, number, tick), q.send.flight.sequence)
  {
    hide AckedBy, NamedBy, Progressed, MoveMark, NameFor, LatencySample, Retire, Find, Removed, Newer, Wrap, Only,
      Continues, WithItems;
    var item, k, r := Items(q)[i], Find(Items(q), number, 0), AckDirectProbing(q, number, tick);
    FindExact(Items(q), number, 0);
    if k == |Items(q)| {
      ContinuesItself(item, q.send.flight.sequence);
      assert Continues(item, Items(r)[i], q.send.flight.sequence);
    } else {
      NamedByOnly(Items(q)[k], number);
      AckedNameExact(Items(q)[k], Only(number));
      var kept := Removed(Items(q), k);
      var j := RemovedAt(Items(q), k, i);
      var q2 := Progressed(WithItems(q, kept), tick, Unambiguous(Items(q)[k]));
      ProgressContinues(q, kept, tick, Unambiguous(Items(q)[k]), j);
      var f := q2.send.flight;
      MarkContinues(f, f.ackMark, NameFor(Items(q)[k], number), tick, item, j);
      assert Continues(item, Items(r)[j], q.send.flight.sequence);
    }
  }

  lemma ContinuesItself(a: Item, bound: nat)
    ensures Continues(a, a, bound)
  {
  }

  lemma RemovedAt(items: seq<Item>, k: nat, i: nat) returns (j: nat)
    requires k < |items| && i < |items| && i != k
    ensures j < |Removed(items, k)| && Removed(items, k)[j] == items[i]
  {
    j := if i < k then i else i - 1;
  }

  lemma {:induction false} SweepKeepsUnnamed(w: Swept, items: seq<Item>, ranges: seq<Range>, tick: int, grouped: bool,
      i: nat)
    requires i < |items| && !AckedBy(items[i], ranges)
    ensures items[i] in SweepProbing(w, items, ranges, tick, grouped).sweep.kept
    decreases |items|
  {
    hide AckedBy, AckedName, Retire, LatencySample, Newer, Wrap;
    var front, last := items[..|items| - 1], items[|items| - 1];
    if i < |front| {
      assert front[i] == items[i];
      SweepKeepsUnnamed(w, front, ranges, tick, grouped, i);
    } else {
      AckedNameExact(last, ranges);
    }
  }

  lemma CompactContinues(q: Probing, ranges: seq<Range>, tick: nat, i: nat)
    requires i < |Items(q)| && !AckedBy(Items(q)[i], ranges)
    ensures Continued(Items(q)[i], CompactProbing(q, ranges, tick), q.send.flight.sequence)
  {
    hide AckedBy, Progressed, MoveMark, SweepProbing, Continues, Wrap, WithItems;
    var f, item, r := q.send.flight, Items(q)[i], CompactProbing(q, ranges, tick);
    var start := Swept(StartSweep(q.send), false);
    SweepKeepsUnnamed(start, f.items, ranges, tick, f.grouped, i);
    var swept := SweepProbing(start, f.items, ranges, tick, f.grouped);
    var w := swept.sweep;
    var j :| 0 <= j < |w.kept| && w.kept[j] == item;
    WithItemsSame(q, w.kept);
    ContinuesItself(item, f.sequence);
    ProgressContinues(q, w.kept, tick, swept.sampled, j);
    var q1 := WithItems(q, w.kept);
    var q2 := if w.released != 0 then Progressed(q1, tick, swept.sampled) else q1;
    MarkContinues(SetLatency(q2.send.flight, w.latency), f.ackMark, w.newest, tick, item, j);
    assert Continues(item, Items(r)[j], f.sequence);
  }

  lemma WithItemsSame(q: Probing, items: seq<Item>)
    ensures Items(WithItems(q, items)) == items && WithItems(q, items).send.flight.sequence == q.send.flight.sequence
  {
  }

  lemma AckContinues(q: Probing, ranges: seq<Range>, tick: nat, i: nat)
    requires i < |Items(q)| && !AckedBy(Items(q)[i], ranges)
    ensures Continued(Items(q)[i], AckProbing(q, ranges, tick), q.send.flight.sequence)
  {
    hide AckedBy, AckDirectProbing, CompactProbing, Continued;
    if |ranges| == 1 && ranges[0].first == ranges[0].last && (!q.send.flight.grouped || |Items(q)| <= 1) {
      assert ranges == Only(ranges[0].first);
      DirectContinues(q, ranges[0].first, tick, i);
    } else {
      CompactContinues(q, ranges, tick, i);
    }
  }

  lemma NackContinues(q: Probing, ranges: seq<Range>, tick: nat, i: nat)
    requires i < |Items(q)|
    ensures Continued(Items(q)[i], q.(send := q.send.(flight := NackRanges(q.send.flight, ranges, tick))),
      q.send.flight.sequence)
  {
    hide NackRanges, Covered, Continues, Changed;
    var f, g := q.send.flight, NackRanges(q.send.flight, ranges, tick);
    NackRangesExact(f, ranges, tick);
    ContinuesItself(f.items[i], f.sequence);
    RenumberedContinues(f, g, f.items[i], i);
    var r := q.(send := q.send.(flight := g));
    assert Items(r)[i] == g.items[i];
    assert Continues(Items(q)[i], Items(r)[i], f.sequence);
  }

  /** Between flushes a frame that no ACK names goes on, or waits under a fresh number. */
  lemma ApplyContinues(q: Probing, op: Op, i: nat)
    requires !op.Flushing? && i < |Items(q)| && (op.Acked? ==> !AckedBy(Items(q)[i], op.ranges))
    ensures Continued(Items(q)[i], Apply(q, op), q.send.flight.sequence)
  {
    hide AckedBy, AckProbing, NackRanges, Continues, Enqueue;
    ContinuesItself(Items(q)[i], q.send.flight.sequence);
    match op
    case Add(mode, data, channel) => EnqueueSameItems(q.send, mode, data, channel);
      assert Continues(Items(q)[i], Items(Apply(q, op))[i], q.send.flight.sequence);
    case StartBatch =>
      assert Continues(Items(q)[i], Items(Apply(q, op))[i], q.send.flight.sequence);
    case Acked(ranges, at) => AckContinues(q, ranges, at, i);
    case Nacked(ranges, at) => NackContinues(q, ranges, at, i);
    case Replace(options, at) =>
      assert Continues(Items(q)[i], Items(Apply(q, op))[i], q.send.flight.sequence);
  }

  lemma EnqueueSameItems(s: SendState, mode: Reliability, data: seq<byte>, channel: byte)
    ensures Enqueue(s, mode, data, channel).0.flight == s.flight
  {
    hide Pieces, Whole, DivCeil;
  }

  // ---------------------------------------------------------------------
  // A flush sends the frame, or leaves it on the probe's number.

  /** The frame leaves under a number above the probe's. */
  ghost predicate SentAbove(out: seq<Outgoing>, p: Packet, id: nat) {
    exists x: nat :: x > id && Outgoing(p, x) in out
  }

  lemma {:induction false} PumpKeepsItems(p: Pump, mtu: u16, tick: int, n: nat)
    requires p.group.Some? ==> p.group.value < p.flight.sequence
    ensures p.flight.items <= PumpAll(p, mtu, tick, n).flight.items
    decreases n
  {
    hide PumpStep, Packable;
    if n > 0 && !PumpStops(p) {
      var id := StepShape(p, mtu, tick);
      PumpKeepsItems(PumpStep(p, mtu, tick), mtu, tick, n - 1);
    }
  }

  /** What is in flight and sent when the flush starts resending stays as it is. */
  lemma SentStays(q: Probing, tick: nat, order: seq<nat>, k: nat)
    requires Flushable(q, tick, order)
    requires k < |Items(TickProbe(Refreshed(q, tick), tick))| && Items(TickProbe(Refreshed(q, tick), tick))[k].sent
    ensures Items(TickProbe(Refreshed(q, tick), tick))[k] in Items(FlushProbing(q, tick, order).queue)
  {
    hide TickProbe, Refreshed, ResendAll, PumpAll, Sorted;
    var q1 := TickProbe(Refreshed(q, tick), tick);
    var j := ArrangeHas(q1.send.flight, order, k);
    var g := Arrange(q1.send.flight, order);
    ResendAllExact(g, [], tick, Replay(q1), 0);
    var (h, out) := ResendProbing(g, tick, Replay(q1));
    assert h.items[j] == g.items[j];
    var pump := StartPump(q1.send, h, out).(coalesced := TailProbe.Packed(q1));
    PumpKeepsItems(pump, q1.send.mtu, tick, |q1.send.queue.packets|);
    var items := Items(FlushProbing(q, tick, order).queue);
    assert h.items <= items && items[j] == h.items[j];
  }

  /** Timing out leaves waiting frames alone, and moves sent ones or leaves them alone. */
  lemma TickContinues(q: Probing, tick: nat, i: nat)
    requires Kept(q) && i < |Items(q)| && (!Items(q)[i].sent || Items(q)[i].past != [])
    ensures var r := TickProbe(Refreshed(q, tick), tick);
      && |Items(r)| == |Items(q)| && Cached(r.send.flight)
      && (Items(r)[i] == Items(q)[i]
          || Moved(Items(q)[i], Items(r)[i], q.send.flight.sequence, r.send.flight.sequence))
  {
    hide Cached, NumbersBelow, Recorded, Scan, Moved;
    assert Refreshed(q, tick) == q;
    TickKeeps(q, tick);
    NoSecondProbe(q, tick, i);
    var f' := q.send.flight.(nextRetry := NEVER);
    ScanExact(f', tick, ActiveProbe(q), 0);
    ScanMoves(f', Scan(f', tick, ActiveProbe(q), 0), i);
  }

  lemma ScanMoves(f: Flight, g: Flight, i: nat)
    requires Renumbered(f, g) && i < |f.items|
    ensures |g.items| == |f.items|
      && (g.items[i] == f.items[i] || Moved(f.items[i], g.items[i], f.sequence, g.sequence))
  {
    hide Spent;
  }

  lemma CachedAnnounces(f: Flight, i: nat)
    requires Cached(f) && i < |f.items| && !f.items[i].sent
    ensures f.retriesPending
  {
  }

  lemma FlushFollows(q: Probing, tick: nat, order: seq<nat>, p: Packet, id: nat, i: nat)
    requires Kept(q) && Flushable(q, tick, order) && i < |Items(q)|
    requires Waits(Items(q)[i], p, id) || Carries(Items(q)[i], p, id)
    ensures var r := FlushProbing(q, tick, order);
      SentAbove(r.out, p, id) || (Carries(Items(q)[i], p, id) && InFlight(r.queue, p, id))
  {
    hide Cached, NumbersBelow, Recorded, TickProbe, FlushProbing, Sorts, Flushable;
    TickContinues(q, tick, i);
    FlushablePermutes(q, tick, order);
    BelowSequence(q, i);
    var r := TickProbe(Refreshed(q, tick), tick);
    if Items(r)[i].sent {
      SentStays(q, tick, order, i);
      var items := Items(FlushProbing(q, tick, order).queue);
      var j :| 0 <= j < |items| && items[j] == Items(r)[i];
      assert Carries(items[j], p, id);
    } else {
      CachedAnnounces(r.send.flight, i);
      WaitingLeaves(q, tick, order, i);
      assert Outgoing(p, Items(r)[i].id) in FlushProbing(q, tick, order).out;
    }
  }

  lemma FlushablePermutes(q: Probing, tick: nat, order: seq<nat>)
    requires Flushable(q, tick, order)
    ensures IsPermutation(order, |Items(q)|) && Sorts(Items(TickProbe(Refreshed(q, tick), tick)), order)
  {
  }

  lemma BelowSequence(q: Probing, i: nat)
    requires Kept(q) && i < |Items(q)|
    ensures Items(q)[i].id < q.send.flight.sequence
  {
    hide Cached, Recorded;
  }

  // ---------------------------------------------------------------------
  // Until the deadline.

  /** No ACK from step `from` up to `to` names the frame, under any number it answers to. */
  ghost predicate NeverAcked(r: Run, from: nat, to: nat, p: Packet)
    requires |r.states| == |r.ops| + 1 && to <= |r.ops|
  {
    forall k | from <= k < to && r.ops[k].Acked? :: Unnamed(r.states[k], p, r.ops[k].ranges)
  }

  ghost predicate LeftAbove(r: Run, from: nat, to: nat, p: Packet, id: nat)
    requires to < |r.outs|
  {
    exists k | from <= k <= to :: SentAbove(r.outs[k], p, id)
  }

  /** A frame that is due stays due until a flush sends it. */
  lemma DueStep(r: Run, mtu: u16, k: nat, p: Packet, id: nat)
    requires IsRun(r, mtu) && k < |r.ops| && (r.ops[k].Acked? ==> Unnamed(r.states[k], p, r.ops[k].ranges))
    requires Due(r.states[k], p, id)
    ensures if r.ops[k].Flushing? then SentAbove(r.outs[k], p, id) else Due(r.states[k + 1], p, id)
  {
    hide Kept, AckedBy, FlushProbing, Flushable, Apply, SentAbove, Continued;
    var q, op, q' := r.states[k], r.ops[k], r.states[k + 1];
    RunKeeps(r, mtu, k);
    assert StepsTo(q, op, q', r.outs[k]);
    var i :| 0 <= i < |Items(q)| && Waits(Items(q)[i], p, id);
    if op.Flushing? {
      FlushFollows(q, op.at, op.order, p, id, i);
    } else {
      ApplyContinues(q, op, i);
      BelowSequence(q, i);
      ContinuedFollows(q, q', p, id, i);
    }
  }

  /** A frame on the probe's number stays there, becomes due, or is sent above it. */
  lemma CarryStep(r: Run, mtu: u16, k: nat, p: Packet, id: nat)
    requires IsRun(r, mtu) && k < |r.ops| && (r.ops[k].Acked? ==> Unnamed(r.states[k], p, r.ops[k].ranges))
    requires InFlight(r.states[k], p, id)
    ensures InFlight(r.states[k + 1], p, id) || if r.ops[k].Flushing? then SentAbove(r.outs[k], p, id)
      else Due(r.states[k + 1], p, id)
  {
    hide Kept, AckedBy, FlushProbing, Flushable, Apply, SentAbove, Continued, Due;
    var q, op, q' := r.states[k], r.ops[k], r.states[k + 1];
    RunKeeps(r, mtu, k);
    assert StepsTo(q, op, q', r.outs[k]);
    var i :| 0 <= i < |Items(q)| && Carries(Items(q)[i], p, id);
    if op.Flushing? {
      FlushFollows(q, op.at, op.order, p, id, i);
    } else {
      ApplyContinues(q, op, i);
      BelowSequence(q, i);
      ContinuedFollows(q, q', p, id, i);
    }
  }

  lemma ContinuedFollows(q: Probing, q': Probing, p: Packet, id: nat, i: nat)
    requires i < |Items(q)| && Continued(Items(q)[i], q', q.send.flight.sequence)
      && Items(q)[i].id < q.send.flight.sequence
    requires Waits(Items(q)[i], p, id) || Carries(Items(q)[i], p, id)
    ensures Due(q', p, id) || (Carries(Items(q)[i], p, id) && InFlight(q', p, id))
  {
    var j :| 0 <= j < |Items(q')| && Continues(Items(q)[i], Items(q')[j], q.send.flight.sequence);
    if Items(q')[j].sent {
      assert Carries(Items(q')[j], p, id);
    } else {
      assert Waits(Items(q')[j], p, id);
    }
  }

  /** A due frame leaves with the next flush at the latest. */
  lemma {:induction false} DueLeaves(r: Run, mtu: u16, k: nat, n: nat, p: Packet, id: nat)
    requires IsRun(r, mtu) && k <= n < |r.ops| && r.ops[n].Flushing? && NeverAcked(r, k, n, p)
    requires Due(r.states[k], p, id)
    ensures LeftAbove(r, k, n, p, id)
    decreases n - k
  {
    hide StepsTo, Unnamed, SentAbove, Due;
    DueStep(r, mtu, k, p, id);
    if !r.ops[k].Flushing? {
      DueLeaves(r, mtu, k + 1, n, p, id);
    }
  }

  /** A frame on the probe's number leaves by the first flush at or after the recorded deadline. */
  lemma {:induction false} CarriedLeaves(r: Run, mtu: u16, m: nat, k: nat, n: nat, p: Packet, id: nat)
    requires IsRun(r, mtu) && m <= k <= n < |r.ops| && r.ops[n].Flushing? && NeverAcked(r, k, n, p)
    requires forall j | m <= j <= k :: InFlight(r.states[j], p, id)
    requires Pending(r.states[m]).Some? && r.ops[n].at >= Pending(r.states[m]).value.deadline
    ensures LeftAbove(r, m, n, p, id)
    decreases n - k
  {
    hide StepsTo, Unnamed, SentAbove, Due, InFlight;
    assert InFlight(r.states[k], p, id);
    if k == n {
      RecordPersists(r, mtu, m, n, p, id);
      CarriedNow(r, mtu, n, p, id);
    } else {
      CarryStep(r, mtu, k, p, id);
      if InFlight(r.states[k + 1], p, id) {
        CarriedLeaves(r, mtu, m, k + 1, n, p, id);
      } else if !r.ops[k].Flushing? {
        DueLeaves(r, mtu, k + 1, n, p, id);
        var j :| k + 1 <= j <= n && SentAbove(r.outs[j], p, id);
      }
    }
  }

  lemma CarriedNow(r: Run, mtu: u16, n: nat, p: Packet, id: nat)
    requires IsRun(r, mtu) && n < |r.ops| && r.ops[n].Flushing? && InFlight(r.states[n], p, id)
    requires Pending(r.states[n]).Some? && r.ops[n].at >= Pending(r.states[n]).value.deadline
    ensures SentAbove(r.outs[n], p, id)
  {
    hide Kept, FlushProbing, Flushable;
    RunKeeps(r, mtu, n);
    assert StepsTo(r.states[n], r.ops[n], r.states[n + 1], r.outs[n]);
    var k :| 0 <= k < |Items(r.states[n])| && Carries(Items(r.states[n])[k], p, id);
    FallbackNow(r.states[n], r.ops[n].at, r.ops[n].order, k);
    BelowSequence(r.states[n], k);
    assert Outgoing(p, FreshNumber(r.states[n], r.ops[n].at, k)) in r.outs[n];
  }

  /** Right after the probe every frame of the datagram is on its number. */
  lemma ProbedCarries(q: Probing, tick: nat, order: seq<nat>, i: nat)
    requires Kept(q) && i < |Items(q)| && Probes(q, tick) && Flushable(q, tick, order)
    ensures InFlight(FlushProbing(q, tick, order).queue, Items(q)[i].packet, q.send.flight.sequence)
  {
    hide NumbersBelow, Recorded, Sorted, Probes, Wrap, RetryTimeout, FlushProbing, Timed, DeadlineKept, PendingKept,
      OrderKept, ProbeTail;
    FreshProbeIsEarly(q, tick);
    ProbeIsNoRetry(q, tick, order);
    ProbeReplays(q, tick);
    var q1, r := ProbeTail(q, tick), FlushProbing(q, tick, order).queue;
    var j := ArrangeHas(q1.send.flight, order, i);
    assert Arrange(q1.send.flight, order).items[j] == Items(q1)[order[j]];
    assert Carries(Items(r)[j], Items(q)[i].packet, q.send.flight.sequence);
  }

  /**
   In every run: once a datagram has been probed, each of its frames that no
   ACK names under any number it answers to has left under a number above the
   probe's by any flush at or after the timeout the datagram had before the
   probe, whether the probe was lost, a NACK or a gap came first, or the
   options were replaced.
   */
  lemma ProbeNeverDelays(r: Run, mtu: u16, m: nat, n: nat, i: nat)
    requires IsRun(r, mtu) && m < n < |r.ops| && r.ops[m].Flushing? && r.ops[n].Flushing?
    requires Probes(r.states[m], r.ops[m].at) && i < |Items(r.states[m])|
    requires NeverAcked(r, m + 1, n, Items(r.states[m])[i].packet)
    requires r.ops[n].at >= Deadline(r.states[m].send.flight, Items(r.states[m])[0])
    ensures LeftAbove(r, m + 1, n, Items(r.states[m])[i].packet, r.states[m].send.flight.sequence)
  {
    hide Kept, Flushable, FlushProbing, Probes, NeverAcked, LeftAbove, InFlight;
    var q, p, id := r.states[m], Items(r.states[m])[i].packet, r.states[m].send.flight.sequence;
    RunKeeps(r, mtu, m);
    assert StepsTo(q, r.ops[m], r.states[m + 1], r.outs[m]);
    ProbedThen(q, r.ops[m].at, r.ops[m].order);
    ProbedCarries(q, r.ops[m].at, r.ops[m].order, i);
    CarriedLeaves(r, mtu, m + 1, m + 1, n, p, id);
  }

  lemma ProbedThen(q: Probing, tick: nat, order: seq<nat>)
    requires Kept(q) && Items(q) != [] && Probes(q, tick) && Flushable(q, tick, order)
    ensures Pending(FlushProbing(q, tick, order).queue)
         == Some(Probe(Wrap(q.send.flight.sequence), Deadline(q.send.flight, Items(q)[0])))
  {
    hide NumbersBelow, Recorded, Sorted, Reordered, Probes, Wrap, RetryTimeout, FlushProbing, Timed, DeadlineKept,
      PendingKept, OrderKept;
    FreshProbeIsEarly(q, tick);
    ProbeIsNoRetry(q, tick, order);
  }

  lemma FallbackNow(q: Probing, tick: nat, order: seq<nat>, k: nat)
    requires Kept(q) && Flushable(q, tick, order) && k < |Items(q)| && Probed(Items(q)[k])
    requires Pending(q).Some? && tick >= Pending(q).value.deadline
    ensures Outgoing(Items(q)[k].packet, FreshNumber(q, tick, k)) in FlushProbing(q, tick, order).out
    ensures FreshNumber(q, tick, k) >= q.send.flight.sequence
  {
    hide Kept, FlushProbing, FreshNumber, Sorts, Probed;
    FallbackIsResent(q, tick, order, k);
  }
}
