/** Whole runs of the send queue: trusting the caches refines rescanning. */
module DeadlineRuns {
  import opened AckSet
  import opened Bytes
  import opened Deadlines
  import opened Errors
  import opened Frames
  import opened Renumber
  import opened Sender
  import opened Serial

  // ---------------------------------------------------------------------
  // Feedback does not depend on the cached deadline.

  lemma {:induction false} NackFromSame(f: Flight, g: Flight, number: u24, tick: int, i: nat)
    requires SameFlight(f, g) && i <= |f.items|
    ensures SameFlight(NackFrom(f, number, tick, i), NackFrom(g, number, tick, i))
    decreases |f.items| - i
  {
    if i < |f.items| {
      if f.items[i].sent && Wrap(f.items[i].id) == number {
        NackFromSame(Resequence(f, i, tick), Resequence(g, i, tick), number, tick, i + 1);
      } else {
        NackFromSame(f, g, number, tick, i + 1);
      }
    }
  }

  lemma {:induction false} NackAllSame(f: Flight, g: Flight, numbers: seq<u24>, tick: int)
    requires SameFlight(f, g)
    ensures SameFlight(NackAll(f, numbers, tick), NackAll(g, numbers, tick))
    decreases |numbers|
  {
    if numbers != [] {
      NackFromSame(f, g, numbers[0], tick, 0);
      NackAllSame(Nack(f, numbers[0], tick), Nack(g, numbers[0], tick), numbers[1..], tick);
    }
  }

  lemma NackRangesSame(f: Flight, g: Flight, ranges: seq<Range>, tick: int)
    requires SameFlight(f, g)
    ensures SameFlight(NackRanges(f, ranges, tick), NackRanges(g, ranges, tick))
  {
    hide NackFrom, NackAll, NumbersIn;
    if |ranges| == 1 && ranges[0].first == ranges[0].last {
      NackFromSame(f, g, ranges[0].first, tick, 0);
    } else {
      NackAllSame(f, g, NumbersIn(f.items, ranges), tick);
    }
  }

  lemma MoveMarkSame(f: Flight, g: Flight, previous: int, newest: int, tick: int)
    requires SameFlight(f, g)
    ensures SameFlight(MoveMark(f, previous, newest, tick), MoveMark(g, previous, newest, tick))
  {
    NackAllSame(f, g, Missing(f.items, previous, newest), tick);
  }

  lemma AckDirectSame(s: SendState, t: SendState, number: u24, tick: int)
    requires Same(s, t)
    ensures Same(AckDirect(s, number, tick), AckDirect(t, number, tick))
  {
    hide MoveMark, Find, Retire, LatencySample;
    var k := Find(s.flight.items, number, 0);
    if k < |s.flight.items| {
      var items := Removed(s.flight.items, k);
      var name := NameFor(s.flight.items[k], number);
      var f1 := s.flight.(items := items, grouped := s.flight.grouped && items != []);
      var g1 := t.flight.(items := items, grouped := t.flight.grouped && items != []);
      MoveMarkSame(f1, g1, f1.ackMark, name, tick);
    }
  }

  lemma CompactSame(s: SendState, t: SendState, ranges: seq<Range>, tick: int)
    requires Same(s, t)
    ensures Same(Compact(s, ranges, tick), Compact(t, ranges, tick))
  {
    hide MoveMark, SweepAll;
    var f := s.flight;
    assert StartSweep(s) == StartSweep(t);
    var w := SweepAll(StartSweep(s), f.items, ranges, tick, f.grouped);
    var f1 := SetLatency(f.(items := w.kept, grouped := f.grouped && w.kept != []), w.latency);
    var g1 := SetLatency(t.flight.(items := w.kept, grouped := f.grouped && w.kept != []), w.latency);
    MoveMarkSame(f1, g1, f.ackMark, w.newest, tick);
  }

  lemma AckRangesSame(s: SendState, t: SendState, ranges: seq<Range>, tick: int)
    requires Same(s, t)
    ensures Same(AckRanges(s, ranges, tick), AckRanges(t, ranges, tick))
  {
    hide Compact, AckDirect;
    CompactSame(s, t, ranges, tick);
    if |ranges| == 1 {
      AckDirectSame(s, t, ranges[0].first, tick);
      CompactSame(s, t, [Range(ranges[0].first, ranges[0].first)], tick);
    }
  }

  // ---------------------------------------------------------------------
  // Runs.

  /** What the owner of a send queue does with it. */
  datatype Op =
    | Add(mode: Reliability, data: seq<byte>, channel: byte)
    | StartBatch
    | Acked(ranges: seq<Range>, at: nat)
    | Nacked(ranges: seq<Range>, at: nat)
    | Flushing(at: nat)

  /** The steps the two queues share. */
  function Quiet(s: SendState, op: Op): SendState
    requires !op.Flushing?
  {
    match op
    case Add(mode, data, channel) => Enqueue(s, mode, data, channel).0
    case StartBatch => EnableCoalescing(s)
    case Acked(ranges, at) => AckRanges(s, ranges, at)
    case Nacked(ranges, at) => s.(flight := NackRanges(s.flight, ranges, at))
  }

  /** One step of the queue as it is: `order` resolves the unstable sort. */
  ghost predicate CachedStep(s: SendState, op: Op, s': SendState, out: seq<Outgoing>, order: seq<nat>) {
    if op.Flushing? then
      && Sorts(Tick(s.flight, op.at).items, order)
      && var r := Flush(s, op.at, order); s' == r.state && out == r.out
    else s' == Quiet(s, op) && out == []
  }

  /** One step of the queue that rescans and sorts at every flush. */
  ghost predicate ScanStep(s: SendState, op: Op, s': SendState, out: seq<Outgoing>, order: seq<nat>) {
    if op.Flushing? then
      && Sorts(TickFrom(s.flight.(nextRetry := NEVER), op.at, 0).items, order)
      && var r := ScanFlush(s, op.at, order); s' == r.state && out == r.out
    else s' == Quiet(s, op) && out == []
  }

  /** A run: one state more than there are steps. */
  datatype Run = Run(states: seq<SendState>, ops: seq<Op>, outs: seq<seq<Outgoing>>, orders: seq<seq<nat>>)

  ghost predicate Shaped(r: Run) {
    |r.states| == |r.ops| + 1 && |r.outs| == |r.ops| && |r.orders| == |r.ops|
  }

  ghost predicate CachedRun(r: Run) {
    Shaped(r) && forall i | 0 <= i < |r.ops| ::
      CachedStep(r.states[i], r.ops[i], r.states[i + 1], r.outs[i], r.orders[i])
  }

  ghost predicate ScanRun(r: Run) {
    Shaped(r) && forall i | 0 <= i < |r.ops| ::
      ScanStep(r.states[i], r.ops[i], r.states[i + 1], r.outs[i], r.orders[i])
  }

  lemma NewIsCached(mtu: u16)
    ensures Cached(NewSender(mtu).flight)
  {
  }

  lemma QuietKeepsCached(s: SendState, op: Op)
    requires Cached(s.flight) && !op.Flushing?
    ensures Cached(Quiet(s, op).flight)
  {
    match op
    case Add(mode, data, channel) =>
    case StartBatch =>
    case Acked(ranges, at) => AckRangesKeepsCached(s, ranges, at);
    case Nacked(ranges, at) => NackRangesKeepsCached(s.flight, ranges, at);
  }

  lemma QuietSame(s: SendState, t: SendState, op: Op)
    requires Same(s, t) && !op.Flushing?
    ensures Same(Quiet(s, op), Quiet(t, op))
  {
    hide AckRanges, NackRanges, Pieces, Whole;
    match op
    case Add(mode, data, channel) =>
    case StartBatch =>
    case Acked(ranges, at) => AckRangesSame(s, t, ranges, at);
    case Nacked(ranges, at) => NackRangesSame(s.flight, t.flight, ranges, at);
  }

  /** The caches may be relied on after every step of every run. */
  lemma {:induction false} RunKeepsCached(r: Run, n: nat)
    requires CachedRun(r) && Cached(r.states[0].flight) && n < |r.states|
    ensures Cached(r.states[n].flight)
    decreases n
  {
    if n > 0 {
      RunKeepsCached(r, n - 1);
      var s, op := r.states[n - 1], r.ops[n - 1];
      assert CachedStep(s, op, r.states[n], r.outs[n - 1], r.orders[n - 1]);
      hide Cached, Quiet, Flush;
      if op.Flushing? {
        FlushKeepsCached(s, op.at, r.orders[n - 1]);
      } else {
        QuietKeepsCached(s, op);
      }
    }
  }

  lemma StepIsScan(s: SendState, t: SendState, op: Op, s': SendState, out: seq<Outgoing>, order: seq<nat>)
    returns (t': SendState, o: seq<nat>)
    requires Cached(s.flight) && Same(s, t) && CachedStep(s, op, s', out, order)
    ensures ScanStep(t, op, t', out, o) && Same(s', t')
  {
    hide Cached, Quiet, Same, Flush, ScanFlush;
    if op.Flushing? {
      FlushIsScan(s, t, op.at, order);
      o := ScanOrder(s, op.at, order);
      SortsPermutes(TickFrom(t.flight.(nextRetry := NEVER), op.at, 0).items, o);
      t' := ScanFlush(t, op.at, o).state;
    } else {
      QuietSame(s, t, op);
      t', o := Quiet(t, op), [];
    }
  }

  lemma {:induction false} FollowRun(r: Run, n: nat) returns (t: Run)
    requires CachedRun(r) && Cached(r.states[0].flight) && n <= |r.ops|
    ensures ScanRun(t) && t.ops == r.ops[..n] && t.outs == r.outs[..n]
    ensures t.states[0] == r.states[0] && Same(r.states[n], t.states[n])
    decreases n
  {
    if n == 0 {
      t := Run([r.states[0]], [], [], []);
    } else {
      var u := FollowRun(r, n - 1);
      RunKeepsCached(r, n - 1);
      hide Cached, Same, ScanStep;
      assert CachedStep(r.states[n - 1], r.ops[n - 1], r.states[n], r.outs[n - 1], r.orders[n - 1]);
      var t', o := StepIsScan(r.states[n - 1], u.states[n - 1], r.ops[n - 1], r.states[n], r.outs[n - 1],
        r.orders[n - 1]);
      t := Run(u.states + [t'], u.ops + [r.ops[n - 1]], u.outs + [r.outs[n - 1]], u.orders + [o]);
      forall i | 0 <= i < n
        ensures ScanStep(t.states[i], t.ops[i], t.states[i + 1], t.outs[i], t.orders[i])
      {
        if i < n - 1 {
          assert ScanStep(u.states[i], u.ops[i], u.states[i + 1], u.outs[i], u.orders[i]);
        }
      }
      assert r.ops[..n] == r.ops[..n - 1] + [r.ops[n - 1]];
      assert r.outs[..n] == r.outs[..n - 1] + [r.outs[n - 1]];
    }
  }

  /**
   Every run of the send queue is, flush by flush, a run of the queue that
   rescans and sorts every time: the caches never change what is emitted.
   */
  lemma CachedRunRefinesScan(r: Run, mtu: u16) returns (t: Run)
    requires CachedRun(r) && r.states[0] == NewSender(mtu)
    ensures ScanRun(t) && t.states[0] == NewSender(mtu) && t.ops == r.ops && t.outs == r.outs
  {
    NewIsCached(mtu);
    t := FollowRun(r, |r.ops|);
    assert r.ops[..|r.ops|] == r.ops && r.outs[..|r.outs|] == r.outs;
  }
}
