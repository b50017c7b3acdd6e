// Round-trip samples with tail probes: a frame sent under several numbers, by a
// probe or by a timeout, is never measured.
module ProbeSamples {
  import opened AckSet
  import opened Acks
  import opened Bytes
  import opened Errors
  import opened Frames
  import opened Ledger
  import opened ProbeRuns
  import opened Renumber
  import opened Sender
  import opened Serial
  import opened TailProbe

  // ---------------------------------------------------------------------
  // What an ACK retires and measures.

  function Named(items: seq<Item>, ranges: seq<Range>): seq<Item> {
    if items == [] then []
    else
      var front, last := Named(items[..|items| - 1], ranges), items[|items| - 1];
      if AckedName(last, ranges).Some? then front + [last] else front
  }

  predicate Direct(q: Probing, ranges: seq<Range>) {
    |ranges| == 1 && ranges[0].first == ranges[0].last && (!q.send.flight.grouped || |Items(q)| <= 1)
  }

  /** The frames an ACK retires: the first one its number names, or all its ranges name. */
  function Retired(q: Probing, ranges: seq<Range>): seq<Item> {
    if Direct(q, ranges) then
      var k := Find(Items(q), ranges[0].first, 0);
      if k == |Items(q)| then [] else [Items(q)[k]]
    else Named(Items(q), ranges)
  }

  /** Those that give a sample: never sent again, and one for neighbours under one number in a packed flight. */
  function Measured(items: seq<Item>, ranges: seq<Range>, grouped: bool): seq<Item> {
    if items == [] then []
    else
      var front, last := Measured(items[..|items| - 1], ranges, grouped), items[|items| - 1];
      if Unambiguous(last)
         && (!grouped || front == [] || SampleKey(front[|front| - 1], ranges) != SampleKey(last, ranges))
      then front + [last] else front
  }

  lemma {:induction false} NamedExact(items: seq<Item>, ranges: seq<Range>, item: Item)
    ensures item in Named(items, ranges) <==> item in items && AckedBy(item, ranges)
    decreases |items|
  {
    hide AckedBy, AckedName;
    if items != [] {
      var front, last := items[..|items| - 1], items[|items| - 1];
      assert items == front + [last];
      NamedExact(front, ranges, item);
      AckedNameExact(last, ranges);
    }
  }

  lemma RetiredWereNamed(q: Probing, ranges: seq<Range>, item: Item)
    requires item in Retired(q, ranges)
    ensures item in Items(q) && AckedBy(item, ranges)
  {
    hide AckedBy, AckedName, Find, NamedBy;
    if Direct(q, ranges) {
      var number := ranges[0].first;
      FindExact(Items(q), number, 0);
      NamedByOnly(item, number);
      AckedNameExact(item, Only(number));
      assert ranges == Only(number);
    } else {
      NamedExact(Items(q), ranges, item);
    }
  }

  ghost predicate HasKey(samples: seq<Item>, item: Item, ranges: seq<Range>) {
    exists i | 0 <= i < |samples| :: SampleKey(samples[i], ranges) == SampleKey(item, ranges)
  }

  /** Only unambiguous frames are measured, and of those every number: all frames of a flight that is not packed. */
  lemma {:induction false} MeasuredExact(items: seq<Item>, ranges: seq<Range>, grouped: bool, item: Item)
    ensures var samples := Measured(items, ranges, grouped);
      && (item in samples ==> item in items && Unambiguous(item))
      && (item in items && Unambiguous(item) ==> HasKey(samples, item, ranges) && (!grouped ==> item in samples))
    decreases |items|
  {
    hide SampleKey;
    if items != [] {
      var front, last := items[..|items| - 1], items[|items| - 1];
      var before, after := Measured(front, ranges, grouped), Measured(items, ranges, grouped);
      assert items == front + [last];
      MeasuredExact(front, ranges, grouped, item);
      if HasKey(before, item, ranges) {
        var i :| 0 <= i < |before| && SampleKey(before[i], ranges) == SampleKey(item, ranges);
        assert after[i] == before[i];
      }
      if item == last && Unambiguous(item) {
        assert SampleKey(after[|after| - 1], ranges) == SampleKey(item, ranges);
      }
    }
  }

  // ---------------------------------------------------------------------
  // Both paths compute it.

  /** The estimate after an ACK, and the record of having one. */
  ghost predicate Folded(q: Probing, r: Probing, samples: seq<Item>, tick: int) {
    && (r.send.flight.srtt, r.send.flight.rto) == FoldLatency((q.send.flight.srtt, q.send.flight.rto), samples, tick)
    && r.recovery.Some? == q.recovery.Some?
    && (q.recovery.Some? ==> r.recovery.value.sampled == (q.recovery.value.sampled || samples != []))
  }

  lemma ProgressKeepsLatency(q: Probing, now: int, sampled: bool)
    ensures var r := Progressed(q, now, sampled);
      && r.send.flight.srtt == q.send.flight.srtt && r.send.flight.rto == q.send.flight.rto
      && r.recovery.Some? == q.recovery.Some?
      && (q.recovery.Some? ==> r.recovery.value.sampled == (q.recovery.value.sampled || sampled))
  {
    hide ActiveProbe;
  }

  lemma DirectFolds(q: Probing, number: u24, tick: int)
    ensures var k := Find(Items(q), number, 0);
      var samples := if k == |Items(q)| || !Unambiguous(Items(q)[k]) then [] else [Items(q)[k]];
      Folded(q, AckDirectProbing(q, number, tick), samples, tick)
  {
    hide Progressed, MoveMark, NameFor, LatencySample, Retire, Find, Removed, Newer, Rtt;
    var k := Find(Items(q), number, 0);
    if k < |Items(q)| {
      var item, q1 := Items(q)[k], WithItems(q, Removed(Items(q), k));
      ProgressKeepsLatency(q1, tick, Unambiguous(item));
      var f := Progressed(q1, tick, Unambiguous(item)).send.flight;
      MarkKeepsLatency(f, f.ackMark, NameFor(item, number), tick);
      assert FoldLatency((q.send.flight.srtt, q.send.flight.rto), [item][..0], tick)
        == (q.send.flight.srtt, q.send.flight.rto);
    }
  }

  /** A sweep that has taken exactly these samples. */
  ghost predicate Took(w: Swept, start: (int, int), samples: seq<Item>, ranges: seq<Range>, tick: int, grouped: bool) {
    && w.sweep.latency == FoldLatency(start, samples, tick)
    && w.sampled == (samples != [])
    && (w.sweep.released == 0 ==> samples == [])
    && (grouped ==> w.sweep.sample == if samples == [] then None else Some(SampleKey(samples[|samples| - 1], ranges)))
  }

  lemma MeasuredNone(ranges: seq<Range>, grouped: bool)
    ensures Measured([], ranges, grouped) == []
  {
  }

  lemma MeasuredSnoc(items: seq<Item>, last: Item, ranges: seq<Range>, grouped: bool)
    ensures var front := Measured(items, ranges, grouped);
      Measured(items + [last], ranges, grouped)
        == if Unambiguous(last)
              && (!grouped || front == [] || SampleKey(front[|front| - 1], ranges) != SampleKey(last, ranges))
           then front + [last] else front
  {
    assert (items + [last])[..|items|] == items;
  }

  lemma OneMeasures(w: Swept, item: Item, named: seq<Item>, start: (int, int), ranges: seq<Range>, tick: int,
      grouped: bool)
    requires Took(w, start, Measured(named, ranges, grouped), ranges, tick, grouped) && AckedName(item, ranges).Some?
    ensures Took(TailProbe.SweepOne(w, item, ranges, tick, grouped), start, Measured(named + [item], ranges, grouped),
      ranges, tick, grouped)
  {
    hide AckedName, Retire, LatencySample, Newer, Measured, Rtt, Wrap, FoldLatency;
    MeasuredSnoc(named, item, ranges, grouped);
    OneReleases(w, item, ranges, tick, grouped);
    FoldSnoc(start, Measured(named, ranges, grouped), item, tick);
  }

  lemma OneReleases(w: Swept, item: Item, ranges: seq<Range>, tick: int, grouped: bool)
    requires AckedName(item, ranges).Some?
    ensures TailProbe.SweepOne(w, item, ranges, tick, grouped).sweep.released > 0
  {
    hide AckedName, LatencySample, Newer, Rtt, Wrap;
  }

  lemma FoldSnoc(start: (int, int), samples: seq<Item>, last: Item, tick: int)
    ensures FoldLatency(start, samples + [last], tick)
         == LatencySample(FoldLatency(start, samples, tick).0, Rtt(tick, last))
  {
    hide LatencySample, Rtt;
    assert (samples + [last])[..|samples|] == samples;
  }

  lemma {:induction false} SweepMeasures(s: SendState, items: seq<Item>, ranges: seq<Range>, tick: int, grouped: bool)
    ensures Took(SweepProbing(Swept(StartSweep(s), false), items, ranges, tick, grouped), (s.flight.srtt, s.flight.rto),
                 Measured(Named(items, ranges), ranges, grouped), ranges, tick, grouped)
    decreases |items|
  {
    if items != [] {
      hide AckedName, TailProbe.SweepOne, Took, Measured;
      var front, last := items[..|items| - 1], items[|items| - 1];
      SweepMeasures(s, front, ranges, tick, grouped);
      var w := SweepProbing(Swept(StartSweep(s), false), front, ranges, tick, grouped);
      if AckedName(last, ranges).Some? {
        OneMeasures(w, last, Named(front, ranges), (s.flight.srtt, s.flight.rto), ranges, tick, grouped);
      } else {
        OneKeeps(w, last, ranges, tick, grouped);
        OnlyKeptChanged(w, TailProbe.SweepOne(w, last, ranges, tick, grouped), (s.flight.srtt, s.flight.rto),
                        Measured(Named(front, ranges), ranges, grouped), ranges, tick, grouped);
      }
    }
  }

  lemma OneKeeps(w: Swept, item: Item, ranges: seq<Range>, tick: int, grouped: bool)
    ensures var w' := TailProbe.SweepOne(w, item, ranges, tick, grouped);
      if AckedName(item, ranges).None? then w' == w.(sweep := w.sweep.(kept := w.sweep.kept + [item]))
      else w'.sweep.kept == w.sweep.kept
  {
    hide AckedName, Retire, LatencySample, Newer, Rtt, Wrap;
  }

  lemma OnlyKeptChanged(
    w: Swept, w': Swept, start: (int, int), samples: seq<Item>, ranges: seq<Range>, tick: int, grouped: bool)
    requires Took(w, start, samples, ranges, tick, grouped) && w' == w.(sweep := w.sweep.(kept := w'.sweep.kept))
    ensures Took(w', start, samples, ranges, tick, grouped)
  {
  }

  lemma CompactFolds(q: Probing, ranges: seq<Range>, tick: int)
    ensures Folded(q, CompactProbing(q, ranges, tick),
                   Measured(Named(Items(q), ranges), ranges, q.send.flight.grouped), tick)
  {
    hide Progressed, MoveMark, SweepProbing, Measured, Named, FoldLatency, SampleKey;
    var f := q.send.flight;
    SweepMeasures(q.send, f.items, ranges, tick, f.grouped);
    var swept := SweepProbing(Swept(StartSweep(q.send), false), f.items, ranges, tick, f.grouped);
    var q1 := WithItems(q, swept.sweep.kept);
    ProgressKeepsLatency(q1, tick, swept.sampled);
    var q2 := if swept.sweep.released != 0 then Progressed(q1, tick, swept.sampled) else q1;
    MarkKeepsLatency(SetLatency(q2.send.flight, swept.sweep.latency), f.ackMark, swept.sweep.newest, tick);
  }

  /** On either path the estimate an ACK leaves is the old one with the measured frames folded in, and no others. */
  lemma AckFolds(q: Probing, ranges: seq<Range>, tick: int)
    ensures Folded(q, AckProbing(q, ranges, tick),
                   Measured(Retired(q, ranges), ranges, q.send.flight.grouped), tick)
  {
    hide AckDirectProbing, CompactProbing, Find, Named, Unambiguous, Folded, Measured;
    var grouped := q.send.flight.grouped;
    if Direct(q, ranges) {
      DirectFolds(q, ranges[0].first, tick);
      MeasuredNone(ranges, grouped);
      if Retired(q, ranges) != [] {
        MeasuredSnoc([], Retired(q, ranges)[0], ranges, grouped);
        assert [] + Retired(q, ranges) == Retired(q, ranges) == [Retired(q, ranges)[0]];
      }
    } else {
      CompactFolds(q, ranges, tick);
    }
  }

  // ---------------------------------------------------------------------
  // What is retired is what leaves.

  lemma {:induction false} SweepKeeps(w: Swept, items: seq<Item>, ranges: seq<Range>, tick: int, grouped: bool)
    requires w.sweep.kept == []
    ensures SweepProbing(w, items, ranges, tick, grouped).sweep.kept == Survivors(items, ranges)
    decreases |items|
  {
    hide AckedName, TailProbe.SweepOne;
    if items != [] {
      var front, last := items[..|items| - 1], items[|items| - 1];
      SweepKeeps(w, front, ranges, tick, grouped);
      OneKeeps(SweepProbing(w, front, ranges, tick, grouped), last, ranges, tick, grouped);
    }
  }

  lemma {:induction false} NamedAndSurvivors(items: seq<Item>, ranges: seq<Range>)
    ensures Packets(Survivors(items, ranges)) + Packets(Named(items, ranges)) == Packets(items)
    decreases |items|
  {
    hide Packets, AckedName;
    if items == [] {
      NoPackets();
    } else {
      var front, last := items[..|items| - 1], items[|items| - 1];
      NamedAndSurvivors(front, ranges);
      PartsSnoc(front, last, Survivors(front, ranges), Named(front, ranges));
      assert items == front + [last];
    }
  }

  lemma NoPackets()
    ensures Packets([]) == multiset{}
  {
  }

  lemma PartsSnoc(items: seq<Item>, last: Item, kept: seq<Item>, named: seq<Item>)
    requires Packets(kept) + Packets(named) == Packets(items)
    ensures Packets(kept + [last]) + Packets(named) == Packets(items + [last])
    ensures Packets(kept) + Packets(named + [last]) == Packets(items + [last])
  {
    hide Packets;
    PacketsSnoc(items, last);
    PacketsSnoc(named, last);
    PacketsSnoc(kept, last);
  }

  lemma ProgressKeepsPackets(q: Probing, now: int, sampled: bool)
    ensures SamePackets(Items(Progressed(q, now, sampled)), Items(q))
  {
    hide ActiveProbe;
  }

  lemma MarkHolds(f: Flight, items: seq<Item>, previous: int, newest: int, tick: int)
    requires SamePackets(f.items, items)
    ensures Packets(MoveMark(f, previous, newest, tick).items) == Packets(items)
  {
    MarkKeepsPackets(f, previous, newest, tick);
    SamePacketsWeigh(f.items, items);
  }

  lemma DirectParts(q: Probing, number: u24, tick: int)
    ensures var k := Find(Items(q), number, 0);
      Packets(Items(AckDirectProbing(q, number, tick)))
        + (if k == |Items(q)| then multiset{} else multiset{Items(q)[k].packet}) == Packets(Items(q))
  {
    hide Progressed, MoveMark, NameFor, LatencySample, Retire, Find, Removed, Newer, Rtt, Packets, SamePackets;
    var k := Find(Items(q), number, 0);
    if k < |Items(q)| {
      var item, items := Items(q)[k], Removed(Items(q), k);
      PacketsRemoved(Items(q), k);
      ProgressKeepsPackets(WithItems(q, items), tick, Unambiguous(item));
      var f := Progressed(WithItems(q, items), tick, Unambiguous(item)).send.flight;
      MarkHolds(f, items, f.ackMark, NameFor(item, number), tick);
      SamePacketsWeigh(f.items, items);
    }
  }

  lemma CompactParts(q: Probing, ranges: seq<Range>, tick: int)
    ensures Packets(Items(CompactProbing(q, ranges, tick))) + Packets(Named(Items(q), ranges)) == Packets(Items(q))
  {
    hide Progressed, MoveMark, SweepProbing, Named, Survivors, Packets, SamePackets;
    var f := q.send.flight;
    var start := Swept(StartSweep(q.send), false);
    SweepKeeps(start, f.items, ranges, tick, f.grouped);
    NamedAndSurvivors(f.items, ranges);
    var swept := SweepProbing(start, f.items, ranges, tick, f.grouped);
    var w, q1 := swept.sweep, WithItems(q, swept.sweep.kept);
    ProgressKeepsPackets(q1, tick, swept.sampled);
    SameItself(w.kept);
    var q2 := if w.released != 0 then Progressed(q1, tick, swept.sampled) else q1;
    var f1 := SetLatency(q2.send.flight, w.latency);
    MarkHolds(f1, w.kept, f.ackMark, w.newest, tick);
    SamePacketsWeigh(f1.items, w.kept);
  }

  lemma SameItself(items: seq<Item>)
    ensures SamePackets(items, items)
  {
  }

  /** Retired frames leave the flight, and nothing else does. */
  lemma RetiredLeave(q: Probing, ranges: seq<Range>, tick: int)
    ensures Packets(Items(AckProbing(q, ranges, tick))) + Packets(Retired(q, ranges)) == Packets(Items(q))
  {
    hide AckDirectProbing, CompactProbing, Find, Named;
    if Direct(q, ranges) {
      DirectParts(q, ranges[0].first, tick);
      var k := Find(Items(q), ranges[0].first, 0);
      if k < |Items(q)| {
        PacketsSnoc([], Items(q)[k]);
        assert [] + [Items(q)[k]] == [Items(q)[k]];
      }
    } else {
      CompactParts(q, ranges, tick);
    }
  }

  // ---------------------------------------------------------------------
  // Ambiguous frames.

  /** Every frame the ranges name has been sent under more than one number. */
  ghost predicate Ambiguous(items: seq<Item>, ranges: seq<Range>) {
    forall i | 0 <= i < |items| && AckedBy(items[i], ranges) :: items[i].past != []
  }

  /** An ACK that names only frames sent under several numbers takes no sample, on either path. */
  lemma AmbiguousGivesNoSample(q: Probing, ranges: seq<Range>, tick: int)
    requires Ambiguous(Items(q), ranges)
    ensures Folded(q, AckProbing(q, ranges, tick), [], tick)
  {
    hide AckProbing, Folded, AckedBy, Retired, Measured;
    AckFolds(q, ranges, tick);
    var samples := Measured(Retired(q, ranges), ranges, q.send.flight.grouped);
    if samples != [] {
      var item := samples[0];
      MeasuredExact(Retired(q, ranges), ranges, q.send.flight.grouped, item);
      RetiredWereNamed(q, ranges, item);
      assert false;
    }
  }

  /**
   In every run, the estimate an ACK leaves is the old one with exactly the
   measured frames folded in, and a frame that was probed, timed out or
   renumbered is not among them, whatever else the ACK names.
   */
  lemma ProbedGivesNoSample(r: Run, mtu: u16, n: nat, item: Item)
    requires IsRun(r, mtu) && n < |r.ops| && r.ops[n].Acked?
    ensures var q, ranges := r.states[n], r.ops[n].ranges;
      var samples := Measured(Retired(q, ranges), ranges, q.send.flight.grouped);
      && Folded(q, r.states[n + 1], samples, r.ops[n].at)
      && (item in samples ==> item in Items(q) && AckedBy(item, ranges) && item.retries == 0 && item.past == [])
      && (item in Retired(q, ranges) && item.retries == 0 && item.past == [] ==> HasKey(samples, item, ranges))
  {
    hide AckProbing, Folded, AckedBy, Retired, Measured, HasKey;
    var q, ranges := r.states[n], r.ops[n].ranges;
    assert StepsTo(q, r.ops[n], r.states[n + 1], r.outs[n]);
    AckFolds(q, ranges, r.ops[n].at);
    MeasuredExact(Retired(q, ranges), ranges, q.send.flight.grouped, item);
    if item in Retired(q, ranges) {
      RetiredWereNamed(q, ranges, item);
    }
  }
}
