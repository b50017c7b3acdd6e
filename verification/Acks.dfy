/** What an acknowledgement does to the flight, in one pass or frame by frame. */
module Acks {
  import opened AckSet
  import opened Errors
  import opened Renumber
  import opened Sender
  import opened Serial

  // ---------------------------------------------------------------------
  // Which frames survive.

  /** A range covers the current number of the frame or one it remembers. */
  ghost predicate AckedBy(item: Item, ranges: seq<Range>) {
    exists k | 0 <= k < |Names(item)| :: Covered(ranges, Wrap(Names(item)[k]))
  }

  lemma {:induction false} FirstNamedExact(names: seq<nat>, ranges: seq<Range>, k: nat)
    requires k <= |names|
    ensures var r := FirstNamed(names, ranges, k);
      if r.None? then forall j | k <= j < |names| :: !Covered(ranges, Wrap(names[j]))
      else exists j | k <= j < |names| ::
             names[j] == r.value && Covered(ranges, Wrap(names[j])) && forall i | k <= i < j ::
               !Covered(ranges, Wrap(names[i]))
    decreases |names| - k
  {
    if k < |names| && !Covered(ranges, Wrap(names[k])) {
      FirstNamedExact(names, ranges, k + 1);
    }
  }

  lemma AckedNameExact(item: Item, ranges: seq<Range>)
    ensures AckedName(item, ranges).Some? <==> AckedBy(item, ranges)
    ensures AckedName(item, ranges).Some? ==>
      AckedName(item, ranges).value in Names(item) && Covered(ranges, Wrap(AckedName(item, ranges).value))
  {
    FirstNamedExact(Names(item), ranges, 0);
  }

  /** The frames no range names, in flight order. */
  function Survivors(items: seq<Item>, ranges: seq<Range>): seq<Item> {
    if items == [] then []
    else
      var front, last := Survivors(items[..|items| - 1], ranges), items[|items| - 1];
      if AckedName(last, ranges).None? then front + [last] else front
  }

  lemma {:induction false} SurvivorsExact(items: seq<Item>, ranges: seq<Range>, item: Item)
    ensures item in Survivors(items, ranges) <==> item in items && !AckedBy(item, ranges)
    decreases |items|
  {
    if items != [] {
      var front, last := items[..|items| - 1], items[|items| - 1];
      assert items == front + [last];
      SurvivorsExact(front, ranges, item);
      AckedNameExact(last, ranges);
    }
  }

  // ---------------------------------------------------------------------
  // Which frames give a round-trip sample.

  ghost predicate Fresh(item: Item, ranges: seq<Range>) {
    item.retries == 0 && AckedName(item, ranges).Some?
  }

  /** The frames whose round trip is sampled, in flight order. */
  ghost function Sampled(items: seq<Item>, ranges: seq<Range>, grouped: bool): seq<Item> {
    if items == [] then []
    else
      var front, last := Sampled(items[..|items| - 1], ranges, grouped), items[|items| - 1];
      if Fresh(last, ranges)
        && (!grouped || front == [] || SampleKey(front[|front| - 1], ranges) != SampleKey(last, ranges))
      then front + [last] else front
  }

  function SampleKey(item: Item, ranges: seq<Range>): u24 {
    var name := AckedName(item, ranges);
    if name.Some? then Wrap(name.value) else 0
  }

  function FoldLatency(latency: (int, int), items: seq<Item>, tick: int): (int, int) {
    if items == [] then latency
    else LatencySample(FoldLatency(latency, items[..|items| - 1], tick).0, Rtt(tick, items[|items| - 1]))
  }

  /** The newest acknowledged number, as the pass finds it. */
  function Newest(mark: int, items: seq<Item>, ranges: seq<Range>): int {
    if items == [] then mark
    else
      var front, name := Newest(mark, items[..|items| - 1], ranges), AckedName(items[|items| - 1], ranges);
      if name.Some? && Newer(Wrap(name.value), Wrap(front)) then name.value else front
  }

  /** The pass computes all of these at once. */
  lemma {:induction false} SweepExact(s: SendState, items: seq<Item>, ranges: seq<Range>, tick: int, grouped: bool)
    ensures var w := SweepAll(StartSweep(s), items, ranges, tick, grouped);
      var samples := Sampled(items, ranges, grouped);
      && w.kept == Survivors(items, ranges)
      && w.newest == Newest(s.flight.ackMark, items, ranges)
      && w.latency == FoldLatency((s.flight.srtt, s.flight.rto), samples, tick)
      && (grouped ==> w.sample == if samples == [] then None else Some(SampleKey(samples[|samples| - 1], ranges)))
    decreases |items|
  {
    if items != [] {
      var front, last := items[..|items| - 1], items[|items| - 1];
      hide AckedName, Retire, LatencySample, Newer;
      SweepExact(s, front, ranges, tick, grouped);
      var samples := Sampled(items, ranges, grouped);
      if samples != Sampled(front, ranges, grouped) {
        assert samples[..|samples| - 1] == Sampled(front, ranges, grouped);
      }
    }
  }

  // ---------------------------------------------------------------------
  // One sample per datagram.

  /** Frames of one datagram are next to each other in the flight. */
  ghost predicate Adjacent(items: seq<Item>) {
    forall i, j, k | 0 <= i < j < k < |items| && Wrap(items[i].id) == Wrap(items[k].id) ::
      Wrap(items[j].id) == Wrap(items[i].id)
  }

  /** A frame never sent again has no other name. */
  ghost predicate FirstNames(items: seq<Item>) {
    forall i | 0 <= i < |items| && items[i].retries == 0 :: items[i].past == []
  }

  lemma FreshKey(item: Item, ranges: seq<Range>)
    requires Fresh(item, ranges) && item.past == []
    ensures SampleKey(item, ranges) == Wrap(item.id)
  {
    AckedNameExact(item, ranges);
  }

  /** Samples are acknowledged frames never sent again, one for each such datagram. */
  ghost predicate SampledOnce(samples: seq<Item>, items: seq<Item>, ranges: seq<Range>) {
    && (forall i | 0 <= i < |samples| :: samples[i] in items && Fresh(samples[i], ranges))
    && (forall i, j | 0 <= i < j < |samples| :: Wrap(samples[i].id) != Wrap(samples[j].id))
    && (forall k | 0 <= k < |items| && Fresh(items[k], ranges) :: HasNumber(samples, items[k]))
  }

  ghost predicate HasNumber(samples: seq<Item>, item: Item) {
    exists i | 0 <= i < |samples| :: Wrap(samples[i].id) == Wrap(item.id)
  }

  /** The last sample carries the number of the last acknowledged frame never sent again. */
  ghost predicate EndsWith(samples: seq<Item>, items: seq<Item>, ranges: seq<Range>, q: nat) {
    samples != [] ==>
      && q < |items| && Fresh(items[q], ranges)
      && (forall k | q < k < |items| :: !Fresh(items[k], ranges))
      && Wrap(items[q].id) == Wrap(samples[|samples| - 1].id)
  }

  lemma AdjacentBetween(items: seq<Item>, i: nat, j: nat, k: nat)
    requires Adjacent(items) && i < j < k < |items|
    ensures Wrap(items[i].id) == Wrap(items[k].id) ==> Wrap(items[j].id) == Wrap(items[i].id)
  {
  }

  lemma AdjacentFront(items: seq<Item>)
    requires items != [] && Adjacent(items) && FirstNames(items)
    ensures Adjacent(items[..|items| - 1]) && FirstNames(items[..|items| - 1])
    ensures items[|items| - 1].retries == 0 ==> items[|items| - 1].past == []
  {
    hide Wrap;
    var front := items[..|items| - 1];
    assert forall i | 0 <= i < |front| :: front[i] == items[i];
  }

  /** A number that differs from the last sample's was not sampled before. */
  lemma NotSampledBefore(samples: seq<Item>, items: seq<Item>, ranges: seq<Range>, q: nat, i: nat)
    requires items != [] && Adjacent(items) && i < |samples|
    requires SampledOnce(samples, items[..|items| - 1], ranges) && EndsWith(samples, items[..|items| - 1], ranges, q)
    requires Wrap(samples[|samples| - 1].id) != Wrap(items[|items| - 1].id)
    ensures Wrap(samples[i].id) != Wrap(items[|items| - 1].id)
  {
    hide Fresh, Wrap, Adjacent, HasNumber;
    var front, n := items[..|items| - 1], |items| - 1;
    assert samples[i] in front && Fresh(samples[i], ranges);
    var p :| 0 <= p < |front| && front[p] == samples[i];
    assert p <= q;
    assert front[p] == items[p] && front[q] == items[q];
    if p < q {
      AdjacentBetween(items, p, q, n);
    }
  }

  /** A frame that adds no sample. */
  lemma SampleSkipped(samples: seq<Item>, front: seq<Item>, last: Item, ranges: seq<Range>, q: nat)
    requires SampledOnce(samples, front, ranges) && EndsWith(samples, front, ranges, q)
    requires Fresh(last, ranges) ==> samples != [] && Wrap(samples[|samples| - 1].id) == Wrap(last.id)
    ensures SampledOnce(samples, front + [last], ranges)
    ensures EndsWith(samples, front + [last], ranges, if Fresh(last, ranges) then |front| else q)
  {
    hide Fresh, Wrap, HasNumber;
    var items := front + [last];
    if Fresh(last, ranges) {
      LastHasNumber(samples, last);
    }
    forall i | 0 <= i < |samples| ensures samples[i] in items {
      assert samples[i] in front;
    }
    forall k | 0 <= k < |items| && Fresh(items[k], ranges) ensures HasNumber(samples, items[k]) {
      assert k < |front| ==> items[k] == front[k];
    }
  }

  lemma LastHasNumber(samples: seq<Item>, item: Item)
    requires samples != [] && Wrap(samples[|samples| - 1].id) == Wrap(item.id)
    ensures HasNumber(samples, item)
  {
    hide Wrap;
  }

  /** A frame that adds a sample. */
  lemma SampleAdded(samples: seq<Item>, front: seq<Item>, last: Item, ranges: seq<Range>, q: nat)
    requires Adjacent(front + [last]) && Fresh(last, ranges)
    requires SampledOnce(samples, front, ranges) && EndsWith(samples, front, ranges, q)
    requires samples == [] || Wrap(samples[|samples| - 1].id) != Wrap(last.id)
    ensures SampledOnce(samples + [last], front + [last], ranges)
    ensures EndsWith(samples + [last], front + [last], ranges, |front|)
  {
    hide Fresh, Wrap, Adjacent, HasNumber;
    var items, more := front + [last], samples + [last];
    assert items[..|items| - 1] == front;
    forall i | 0 <= i < |samples|
      ensures samples[i] in items && Wrap(samples[i].id) != Wrap(last.id)
    {
      NotSampledBefore(samples, items, ranges, q, i);
      assert samples[i] in front;
    }
    forall k | 0 <= k < |items| && Fresh(items[k], ranges) ensures HasNumber(more, items[k]) {
      assert k < |front| ==> items[k] == front[k];
      NumberKept(samples, last, items[k]);
    }
  }

  lemma NumberKept(samples: seq<Item>, last: Item, item: Item)
    ensures HasNumber(samples, item) || item == last ==> HasNumber(samples + [last], item)
  {
    hide Wrap;
    var more := samples + [last];
    if HasNumber(samples, item) {
      var i :| 0 <= i < |samples| && Wrap(samples[i].id) == Wrap(item.id);
      assert more[i] == samples[i];
    } else if item == last {
      assert more[|samples|] == item;
    }
  }

  lemma NothingSampled(ranges: seq<Range>)
    ensures SampledOnce([], [], ranges) && EndsWith([], [], ranges, 0)
  {
  }

  lemma SampledFresh(samples: seq<Item>, items: seq<Item>, ranges: seq<Range>)
    requires samples != [] && SampledOnce(samples, items, ranges)
    ensures Fresh(samples[|samples| - 1], ranges)
  {
  }

  /**
   In a flight whose datagrams are adjacent, every acknowledged datagram that
   was never sent again gives exactly one round-trip sample.
   */
  lemma {:induction false} OneSamplePerDatagram(items: seq<Item>, ranges: seq<Range>) returns (q: nat)
    requires Adjacent(items) && FirstNames(items)
    ensures SampledOnce(Sampled(items, ranges, true), items, ranges)
    ensures EndsWith(Sampled(items, ranges, true), items, ranges, q)
    ensures forall i | 0 <= i < |Sampled(items, ranges, true)| :: Sampled(items, ranges, true)[i].past == []
    decreases |items|
  {
    hide Wrap, Adjacent, FirstNames, SampledOnce, AckedName, EndsWith;
    q := 0;
    if items == [] {
      NothingSampled(ranges);
    } else {
      var front, last := items[..|items| - 1], items[|items| - 1];
      assert front + [last] == items;
      AdjacentFront(items);
      var q' := OneSamplePerDatagram(front, ranges);
      var samples := Sampled(front, ranges, true);
      if samples != [] {
        SampledFresh(samples, front, ranges);
        FreshKey(samples[|samples| - 1], ranges);
      }
      if Fresh(last, ranges) {
        FreshKey(last, ranges);
      }
      hide SampleKey, Fresh;
      if Fresh(last, ranges) && (samples == [] || Wrap(samples[|samples| - 1].id) != Wrap(last.id)) {
        SampleAdded(samples, front, last, ranges, q');
      } else {
        SampleSkipped(samples, front, last, ranges, q');
      }
      q := if Fresh(last, ranges) then |front| else q';
    }
  }

  // ---------------------------------------------------------------------
  // The high-water mark.

  /** Every number in play lies within half an epoch. */
  ghost predicate InSpan(f: Flight, low: int) {
    && low <= f.ackMark < low + HALF
    && forall i, k | 0 <= i < |f.items| && 0 <= k < |Names(f.items[i])| :: low <= Names(f.items[i])[k] < low + HALF
  }

  ghost predicate NamesInSpan(item: Item, low: int) {
    forall k | 0 <= k < |Names(item)| :: low <= Names(item)[k] < low + HALF
  }

  /** The pass finds the greatest acknowledged number, or keeps the mark. */
  lemma {:induction false} NewestIsGreatest(mark: int, items: seq<Item>, ranges: seq<Range>, low: int)
    requires low <= mark < low + HALF && forall i | 0 <= i < |items| :: NamesInSpan(items[i], low)
    ensures var n := Newest(mark, items, ranges);
      && mark <= n < low + HALF
      && (forall i | 0 <= i < |items| && AckedName(items[i], ranges).Some? :: AckedName(items[i], ranges).value <= n)
      && (n != mark ==> exists i | 0 <= i < |items| :: AckedName(items[i], ranges) == Some(n))
    decreases |items|
  {
    if items != [] {
      var front, last := items[..|items| - 1], items[|items| - 1];
      assert forall i | 0 <= i < |front| :: front[i] == items[i];
      NewestIsGreatest(mark, front, ranges, low);
      var n, name := Newest(mark, front, ranges), AckedName(last, ranges);
      if name.Some? {
        AckedNameExact(last, ranges);
        assert NamesInSpan(last, low);
        NewerIsGreater(name.value, n);
      }
      hide AckedName, Newer, NamesInSpan;
      if Newest(mark, items, ranges) == n && n != mark {
        var i :| 0 <= i < |front| && AckedName(front[i], ranges) == Some(n);
        assert AckedName(items[i], ranges) == Some(n);
      }
    }
  }

  /** Within half an epoch, the gap is the open interval between the marks. */
  lemma GapIsBetween(id: nat, previous: int, newest: int, low: int)
    requires low <= id < low + HALF && low <= previous <= newest < low + HALF
    ensures InGap(id, previous, newest) <==> previous < id < newest
  {
    DistanceWraps(id, previous);
    DistanceAhead(newest, previous);
  }

  /** What a pass over the ranges leaves of the flight. */
  ghost predicate Compacted(f: Flight, g: Flight, ranges: seq<Range>, tick: int) {
    var kept, newest := Survivors(f.items, ranges), Newest(f.ackMark, f.items, ranges);
    && g.ackMark == newest
    && |g.items| == |kept|
    && f.sequence <= g.sequence
    && (forall k | 0 <= k < |kept| ::
          if kept[k].sent && f.ackMark < kept[k].id < newest then Moved(kept[k], g.items[k], f.sequence, g.sequence)
          else g.items[k] == kept[k])
    && (g.srtt, g.rto) == FoldLatency((f.srtt, f.rto), Sampled(f.items, ranges, f.grouped), tick)
    && g.grouped == (f.grouped && kept != [])
    && g.nextRetry == if g.rto != f.rto then 0 else f.nextRetry
  }

  lemma {:induction false} SurvivorsInside(items: seq<Item>, ranges: seq<Range>, k: nat)
    requires k < |Survivors(items, ranges)|
    ensures Survivors(items, ranges)[k] in items
    decreases |items|
  {
    SurvivorsExact(items, ranges, Survivors(items, ranges)[k]);
  }

  lemma GapsAreBetween(f: Flight, ranges: seq<Range>, newest: int, low: int)
    requires InSpan(f, low) && f.ackMark <= newest < low + HALF
    ensures forall k | 0 <= k < |Survivors(f.items, ranges)| :: var id := Survivors(f.items, ranges)[k].id;
      InGap(id, f.ackMark, newest) <==> f.ackMark < id < newest
  {
    var kept := Survivors(f.items, ranges);
    forall k | 0 <= k < |kept|
      ensures InGap(kept[k].id, f.ackMark, newest) <==> f.ackMark < kept[k].id < newest
    {
      SurvivorsInside(f.items, ranges, k);
      var i :| 0 <= i < |f.items| && f.items[i] == kept[k];
      assert Names(f.items[i])[0] == kept[k].id;
      hide Survivors, InGap;
      GapIsBetween(kept[k].id, f.ackMark, newest, low);
    }
  }

  /**
   One pass removes exactly the acknowledged frames, keeps the others in
   order, samples each datagram once, moves the mark to the newest
   acknowledged number, and resequences exactly the sent survivors strictly
   between the two marks.
   */
  lemma CompactExact(s: SendState, ranges: seq<Range>, tick: int, low: int)
    requires InSpan(s.flight, low)
    ensures Compacted(s.flight, Compact(s, ranges, tick).flight, ranges, tick)
  {
    hide SweepAll, Survivors, Newest, Sampled, FoldLatency, MoveMark, InGap, Moved, AckedName;
    var f := s.flight;
    assert forall i | 0 <= i < |f.items| :: NamesInSpan(f.items[i], low);
    NewestIsGreatest(f.ackMark, f.items, ranges, low);
    SweepExact(s, f.items, ranges, tick, f.grouped);
    var w := SweepAll(StartSweep(s), f.items, ranges, tick, f.grouped);
    GapsAreBetween(f, ranges, w.newest, low);
    hide InSpan, NamesInSpan;
    var f1 := SetLatency(f.(items := w.kept, grouped := f.grouped && w.kept != []), w.latency);
    MoveMarkExact(f1, f.ackMark, w.newest, tick);
  }

  // ---------------------------------------------------------------------
  // The single-number path.

  /** How many frames in flight answer to a number. */
  function Matches(items: seq<Item>, number: u24): nat {
    if items == [] then 0
    else Matches(items[..|items| - 1], number) + if NamedBy(items[|items| - 1], number) then 1 else 0
  }

  function Only(number: u24): seq<Range> {
    [Range(number, number)]
  }

  lemma NamedByOnly(item: Item, number: u24)
    ensures NamedBy(item, number) <==> AckedName(item, Only(number)).Some?
  {
    AckedNameExact(item, Only(number));
    forall k | 0 <= k < |Names(item)|
      ensures Covered(Only(number), Wrap(Names(item)[k])) <==> Wrap(Names(item)[k]) == number
    {
      assert Covered(Only(number), Wrap(Names(item)[k])) <==> Only(number)[0].Has(Wrap(Names(item)[k]));
    }
  }

  lemma {:induction false} SurvivorCount(items: seq<Item>, number: u24)
    ensures |Survivors(items, Only(number))| == |items| - Matches(items, number)
    decreases |items|
  {
    if items != [] {
      SurvivorCount(items[..|items| - 1], number);
      NamedByOnly(items[|items| - 1], number);
    }
  }

  lemma {:induction false} FindExact(items: seq<Item>, number: u24, i: nat)
    requires i <= |items|
    ensures var k := Find(items, number, i);
      (forall j | i <= j < k :: !NamedBy(items[j], number)) && (k < |items| ==> NamedBy(items[k], number))
    decreases |items| - i
  {
    if i < |items| && !NamedBy(items[i], number) {
      FindExact(items, number, i + 1);
    }
  }

  lemma {:induction false} NoMatch(items: seq<Item>, number: u24)
    ensures Matches(items, number) == 0 <==> forall j | 0 <= j < |items| :: !NamedBy(items[j], number)
    decreases |items|
  {
    if items != [] {
      var front, last := items[..|items| - 1], items[|items| - 1];
      assert forall j | 0 <= j < |items| :: items[j] == if j < |front| then front[j] else last;
      hide NamedBy;
      NoMatch(front, number);
    }
  }

  /** A pass that matches nothing changes nothing. */
  lemma {:induction false} SweepNothing(w: Sweep, items: seq<Item>, number: u24, tick: int, grouped: bool)
    requires Matches(items, number) == 0
    ensures SweepAll(w, items, Only(number), tick, grouped) == w.(kept := w.kept + items)
    decreases |items|
  {
    if items == [] {
      assert w.kept + items == w.kept;
    } else {
      var front, last := items[..|items| - 1], items[|items| - 1];
      NamedByOnly(last, number);
      hide NamedBy, AckedName;
      SweepNothing(w, front, number, tick, grouped);
      assert w.kept + front + [last] == w.kept + items;
    }
  }

  /** A pass that matches one frame treats it and keeps the rest. */
  lemma {:induction false} SweepOne(w: Sweep, items: seq<Item>, k: nat, number: u24, tick: int, grouped: bool)
    requires k < |items| && w.kept == [] && Matches(items, number) == 1 && NamedBy(items[k], number)
    ensures SweepAll(w, items, Only(number), tick, grouped)
         == SweepItem(w, items[k], Only(number), tick, grouped).(kept := Removed(items, k))
    decreases |items|
  {
    hide NamedBy, SweepItem, Only;
    var front, last := items[..|items| - 1], items[|items| - 1];
    NoMatch(front, number);
    if k == |front| {
      SweepNothing(w, front, number, tick, grouped);
      assert [] + front == front;
      SweepMatched(w, front, last, number, tick, grouped);
      assert Removed(items, k) == front;
    } else {
      assert front[k] == items[k];
      assert Matches(front, number) != 0;
      assert !NamedBy(last, number);
      SweepOne(w, front, k, number, tick, grouped);
      SweepUnmatched(SweepAll(w, front, Only(number), tick, grouped), last, number, tick, grouped);
      hide SweepAll;
      assert Removed(front, k) + [last] == Removed(items, k);
    }
  }

  lemma SweepMatched(w: Sweep, kept: seq<Item>, item: Item, number: u24, tick: int, grouped: bool)
    requires NamedBy(item, number)
    ensures SweepItem(w.(kept := kept), item, Only(number), tick, grouped)
         == SweepItem(w, item, Only(number), tick, grouped).(kept := kept)
  {
    NamedByOnly(item, number);
  }

  lemma SweepUnmatched(w: Sweep, item: Item, number: u24, tick: int, grouped: bool)
    requires !NamedBy(item, number)
    ensures SweepItem(w, item, Only(number), tick, grouped) == w.(kept := w.kept + [item])
  {
    NamedByOnly(item, number);
  }

  // Resequencing does not read or write the latency estimate.

  function WithLatency(f: Flight, srtt: int, rto: int, due: int): Flight {
    f.(srtt := srtt, rto := rto, nextRetry := due)
  }

  lemma {:induction false} NackFromLatency(f: Flight, number: u24, tick: int, i: nat, srtt: int, rto: int, due: int)
    requires i <= |f.items|
    ensures NackFrom(WithLatency(f, srtt, rto, due), number, tick, i)
         == WithLatency(NackFrom(f, number, tick, i), srtt, rto, due)
    decreases |f.items| - i
  {
    if i < |f.items| {
      var hit := f.items[i].sent && Wrap(f.items[i].id) == number;
      NackFromLatency(if hit then Resequence(f, i, tick) else f, number, tick, i + 1, srtt, rto, due);
    }
  }

  lemma {:induction false} NackAllLatency(f: Flight, numbers: seq<u24>, tick: int, srtt: int, rto: int, due: int)
    ensures NackAll(WithLatency(f, srtt, rto, due), numbers, tick)
      == WithLatency(NackAll(f, numbers, tick), srtt, rto, due)
    decreases |numbers|
  {
    if numbers != [] {
      NackFromLatency(f, numbers[0], tick, 0, srtt, rto, due);
      NackAllLatency(Nack(f, numbers[0], tick), numbers[1..], tick, srtt, rto, due);
    }
  }

  lemma MarkThenLatency(f: Flight, previous: int, newest: int, tick: int, latency: (int, int))
    ensures MoveMark(SetLatency(f, latency), previous, newest, tick)
      == SetLatency(MoveMark(f, previous, newest, tick), latency)
  {
    var due := SetLatency(f, latency).nextRetry;
    NackAllLatency(f, Missing(f.items, previous, newest), tick, latency.0, latency.1, due);
    NackAllExact(f, Missing(f.items, previous, newest), tick);
  }

  lemma SameLatency(f: Flight)
    ensures SetLatency(f, (f.srtt, f.rto)) == f
  {
  }

  /** The matching frame is retired under the name the number stands for. */
  lemma NameMatches(item: Item, number: u24)
    requires NamedBy(item, number)
    ensures AckedName(item, Only(number)) == Some(NameFor(item, number)) && Wrap(NameFor(item, number)) == number
  {
    NamedByOnly(item, number);
    AckedNameExact(item, Only(number));
    var id := AckedName(item, Only(number)).value;
    var i :| 0 <= i < |Only(number)| && Only(number)[i].Has(Wrap(id));
  }

  /** The flight without item `k`. */
  function Drop(f: Flight, k: nat): Flight
    requires k < |f.items|
  {
    var items := Removed(f.items, k);
    f.(items := items, grouped := f.grouped && items != [])
  }

  function LatencyAfter(f: Flight, item: Item, tick: int): (int, int) {
    if item.retries == 0 then LatencySample(f.srtt, Rtt(tick, item)) else (f.srtt, f.rto)
  }

  /** What both paths compute when item `k` is the only match. */
  function AckOne(s: SendState, number: u24, tick: int, k: nat): SendState
    requires k < |s.flight.items|
  {
    var f, item := s.flight, s.flight.items[k];
    var (ledger, bytes) := Retire(s.ledger, item.packet);
    var f1 := SetLatency(Drop(f, k), LatencyAfter(f, item, tick));
    s.(flight := if Newer(number, Wrap(f.ackMark)) then MoveMark(f1, f.ackMark, NameFor(item, number), tick) else f1,
       ledger := ledger.(buffered := ledger.buffered - bytes - FRAME_BUDGET))
  }

  lemma CompactIsOne(s: SendState, number: u24, tick: int, k: nat)
    requires k < |s.flight.items| && Matches(s.flight.items, number) == 1 && NamedBy(s.flight.items[k], number)
    ensures Compact(s, Only(number), tick) == AckOne(s, number, tick, k)
  {
    hide SweepAll, NamedBy, AckedName, NameFor, MoveMark, Retire, LatencySample, Matches, Only;
    SweepOne(StartSweep(s), s.flight.items, k, number, tick, s.flight.grouped);
    NameMatches(s.flight.items[k], number);
    NotNewerThanSelf(s.flight.ackMark);
    var w := SweepItem(StartSweep(s), s.flight.items[k], Only(number), tick, s.flight.grouped);
    hide Newer, Wrap, Removed;
    assert w.newest != s.flight.ackMark <==> Newer(number, Wrap(s.flight.ackMark));
  }

  lemma NotNewerThanSelf(mark: int)
    ensures !Newer(Wrap(mark), Wrap(mark))
  {
  }

  lemma DirectIsOne(s: SendState, number: u24, tick: int, k: nat)
    requires k == Find(s.flight.items, number, 0) < |s.flight.items|
    ensures AckDirect(s, number, tick) == AckOne(s, number, tick, k)
  {
    hide NameFor, MoveMark, Retire, LatencySample, Find, Newer, Removed;
    var f, item := s.flight, s.flight.items[k];
    var f1, id := Drop(f, k), NameFor(item, number);
    MarkThenLatency(f1, f.ackMark, id, tick, LatencyAfter(f, item, tick));
    MarkKeepsLatency(f1, f.ackMark, id, tick);
    SameLatency(f1);
    SameLatency(MoveMark(f1, f.ackMark, id, tick));
  }

  lemma MarkKeepsLatency(f: Flight, previous: int, newest: int, tick: int)
    ensures var g := MoveMark(f, previous, newest, tick); g.srtt == f.srtt && g.rto == f.rto && |g.items| == |f.items|
  {
    MoveMarkExact(f, previous, newest, tick);
  }

  /** With no matching frame, neither path does anything. */
  lemma NoMatchAgrees(s: SendState, number: u24, tick: int)
    requires Matches(s.flight.items, number) == 0
    ensures AckDirect(s, number, tick) == s && Compact(s, Only(number), tick).flight.items == s.flight.items
    ensures (s.flight.grouped ==> s.flight.items != []) ==> Compact(s, Only(number), tick) == s
  {
    var f := s.flight;
    NoMatch(f.items, number);
    FindExact(f.items, number, 0);
    SweepNothing(StartSweep(s), f.items, number, tick, f.grouped);
    assert [] + f.items == f.items;
    SameLatency(f);
  }

  /**
   The single-number path agrees with the one-pass path exactly when at most
   one frame in flight answers to the number.
   */
  lemma SinglePathAgrees(s: SendState, number: u24, tick: int)
    requires s.flight.grouped ==> s.flight.items != []
    ensures AckDirect(s, number, tick) == Compact(s, Only(number), tick) <==> Matches(s.flight.items, number) <= 1
  {
    hide AckDirect, Compact, NamedBy;
    var f := s.flight;
    FindExact(f.items, number, 0);
    NoMatch(f.items, number);
    var k := Find(f.items, number, 0);
    if Matches(f.items, number) == 0 {
      NoMatchAgrees(s, number, tick);
    } else if Matches(f.items, number) == 1 {
      DirectIsOne(s, number, tick, k);
      CompactIsOne(s, number, tick, k);
    } else {
      DifferentCounts(s, number, tick);
    }
  }

  lemma DifferentCounts(s: SendState, number: u24, tick: int)
    requires Matches(s.flight.items, number) >= 2
    ensures |AckDirect(s, number, tick).flight.items| == |s.flight.items| - 1
    ensures |Compact(s, Only(number), tick).flight.items| == |s.flight.items| - Matches(s.flight.items, number)
  {
    hide AckDirect, Compact, NamedBy, Matches;
    var f := s.flight;
    FindExact(f.items, number, 0);
    NoMatch(f.items, number);
    var k := Find(f.items, number, 0);
    DirectIsOne(s, number, tick, k);
    hide MoveMark, Retire, LatencySample, NameFor;
    MarkKeepsLatency(SetLatency(Drop(f, k), LatencyAfter(f, f.items[k], tick)), f.ackMark, NameFor(f.items[k], number),
      tick);
    CompactCount(s, number, tick);
  }

  lemma CompactCount(s: SendState, number: u24, tick: int)
    ensures |Compact(s, Only(number), tick).flight.items| == |s.flight.items| - Matches(s.flight.items, number)
  {
    hide SweepAll, Survivors, Newest, Sampled, FoldLatency, Matches, MoveMark, Only;
    var f := s.flight;
    SweepExact(s, f.items, Only(number), tick, f.grouped);
    SurvivorCount(f.items, number);
    var w := SweepAll(StartSweep(s), f.items, Only(number), tick, f.grouped);
    MarkKeepsLatency(SetLatency(f.(items := w.kept, grouped := f.grouped && w.kept != []), w.latency), f.ackMark,
      w.newest, tick);
  }
}
