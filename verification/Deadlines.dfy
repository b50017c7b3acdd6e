// The cached retry deadline, the pending flag and the dirty flag of the send
// queue, compared with a queue that rescans and sorts on every flush.
module Deadlines {
  import opened AckSet
  import opened Bytes
  import opened Errors
  import opened Frames
  import opened Renumber
  import opened Sender
  import opened Serial

  // ---------------------------------------------------------------------
  // What the caches promise.

  function Deadline(f: Flight, item: Item): int {
    Later(item.time, RetryTimeout(f.rto, item.retries))
  }

  ghost predicate Timed(f: Flight) {
    && RTO_LBOUND <= f.rto <= RTO_UBOUND
    && 0 <= f.srtt
    && TimesKept(f.items)
  }

  ghost predicate TimesKept(items: seq<Item>) {
    forall i | 0 <= i < |items| :: items[i].time >= 0
  }

  /** No sent item is due before the cached deadline. */
  ghost predicate DeadlineKept(f: Flight) {
    forall i | 0 <= i < |f.items| && f.items[i].sent :: f.nextRetry <= Deadline(f, f.items[i])
  }

  ghost predicate PendingKept(f: Flight) {
    forall i | 0 <= i < |f.items| && !f.items[i].sent :: f.retriesPending
  }

  ghost predicate OrderKept(f: Flight) {
    f.dirty || Sorted(f.items)
  }

  ghost predicate Cached(f: Flight) {
    Timed(f) && DeadlineKept(f) && PendingKept(f) && OrderKept(f)
  }

  lemma {:induction false} BackoffBounded(timeout: int, retries: nat)
    requires RTO_LBOUND <= timeout <= RTO_UBOUND
    ensures timeout <= Backoff(timeout, retries) <= RTO_UBOUND
    decreases retries
  {
    if retries > 0 {
      BackoffBounded(Min(timeout * 3 / 2, RTO_UBOUND), retries - 1);
    }
  }

  lemma TimeoutBounded(f: Flight, retries: nat)
    requires RTO_LBOUND <= f.rto <= RTO_UBOUND
    ensures f.rto <= RetryTimeout(f.rto, retries) <= RTO_UBOUND
  {
    BackoffBounded(f.rto, Min(retries, 32));
  }

  // ---------------------------------------------------------------------
  // Every operation keeps the promise.

  /** Renumbering keeps it, provided the clock values stay sane. */
  lemma RenumberedKeepsCached(f: Flight, g: Flight)
    requires Cached(f) && Renumbered(f, g) && g.nextRetry == f.nextRetry
    requires TimesKept(g.items)
    ensures Cached(g)
  {
    forall i | 0 <= i < |g.items| && g.items[i].sent
      ensures g.nextRetry <= Deadline(g, g.items[i])
    {
      assert g.items[i] == f.items[i];
    }
    if g.items == f.items {
    } else {
      assert Stirred(g);
    }
  }

  lemma {:induction false} NackFromTimes(f: Flight, number: u24, tick: int, i: nat)
    requires i <= |f.items| && tick >= 0 && TimesKept(f.items)
    ensures TimesKept(NackFrom(f, number, tick, i).items)
    decreases |f.items| - i
  {
    if i < |f.items| {
      if f.items[i].sent && Wrap(f.items[i].id) == number {
        NackFromTimes(Resequence(f, i, tick), number, tick, i + 1);
      } else {
        NackFromTimes(f, number, tick, i + 1);
      }
    }
  }

  lemma {:induction false} NackAllKeepsCached(f: Flight, numbers: seq<u24>, tick: int)
    requires Cached(f) && tick >= 0
    ensures Cached(NackAll(f, numbers, tick))
    decreases |numbers|
  {
    if numbers != [] {
      NackFromExact(f, numbers[0], tick, 0);
      NackFromTimes(f, numbers[0], tick, 0);
      RenumberedKeepsCached(f, Nack(f, numbers[0], tick));
      NackAllKeepsCached(Nack(f, numbers[0], tick), numbers[1..], tick);
    }
  }

  lemma NackRangesKeepsCached(f: Flight, ranges: seq<Range>, tick: int)
    requires Cached(f) && tick >= 0
    ensures Cached(NackRanges(f, ranges, tick))
  {
    hide Cached;
    if |ranges| == 1 && ranges[0].first == ranges[0].last {
      NackAllKeepsCached(f, [ranges[0].first], tick);
      assert NackAll(f, [ranges[0].first], tick) == NackAll(Nack(f, ranges[0].first, tick), [], tick);
    } else {
      NackAllKeepsCached(f, NumbersIn(f.items, ranges), tick);
    }
  }

  lemma MoveMarkKeepsCached(f: Flight, previous: int, newest: int, tick: int)
    requires Cached(f) && tick >= 0
    ensures Cached(MoveMark(f, previous, newest, tick))
  {
    NackAllKeepsCached(f, Missing(f.items, previous, newest), tick);
  }

  lemma SetLatencyKeepsCached(f: Flight, srtt: int, rtt: int)
    requires Cached(f) && 0 <= srtt && 0 <= rtt
    ensures Cached(SetLatency(f, LatencySample(srtt, rtt)))
  {
    var g := SetLatency(f, LatencySample(srtt, rtt));
    forall i | 0 <= i < |g.items| && g.items[i].sent
      ensures g.nextRetry <= Deadline(g, g.items[i])
    {
      TimeoutBounded(g, g.items[i].retries);
    }
  }

  /** `kept` lists some of `items`, in their order. */
  ghost predicate Sublist(kept: seq<Item>, items: seq<Item>) {
    exists at: seq<nat> :: Selects(at, kept, items)
  }

  ghost predicate Selects(at: seq<nat>, kept: seq<Item>, items: seq<Item>) {
    && |at| == |kept|
    && (forall i | 0 <= i < |at| :: at[i] < |items| && kept[i] == items[at[i]])
    && (forall i, j | 0 <= i < j < |at| :: at[i] < at[j])
  }

  lemma SublistKeepsCached(f: Flight, kept: seq<Item>, grouped: bool)
    requires Cached(f) && Sublist(kept, f.items)
    ensures Cached(f.(items := kept, grouped := grouped))
  {
    var at: seq<nat> :| Selects(at, kept, f.items);
    var g := f.(items := kept, grouped := grouped);
    forall i | 0 <= i < |kept|
      ensures kept[i].time >= 0
      ensures kept[i].sent ==> g.nextRetry <= Deadline(g, kept[i])
      ensures !kept[i].sent ==> g.retriesPending
    {
      assert kept[i] == f.items[at[i]];
    }
    if !f.dirty {
      forall i, j | 0 <= i < j < |kept| ensures Wrap(kept[i].id) <= Wrap(kept[j].id) {
        assert kept[i] == f.items[at[i]] && kept[j] == f.items[at[j]];
      }
    }
  }

  lemma RemovedIsSublist(items: seq<Item>, k: nat)
    requires k < |items|
    ensures Sublist(Removed(items, k), items)
  {
    var n := |items| - 1;
    var at := seq(n, i requires 0 <= i < n => if i < k then i else i + 1);
    assert Selects(at, Removed(items, k), items);
  }

  lemma AckDirectKeepsCached(s: SendState, number: u24, tick: int)
    requires Cached(s.flight) && tick >= 0
    ensures Cached(AckDirect(s, number, tick).flight)
  {
    var k := Find(s.flight.items, number, 0);
    if k < |s.flight.items| {
      var item := s.flight.items[k];
      var items := Removed(s.flight.items, k);
      RemovedIsSublist(s.flight.items, k);
      SublistKeepsCached(s.flight, items, s.flight.grouped && items != []);
      var f1 := s.flight.(items := items, grouped := s.flight.grouped && items != []);
      MoveMarkKeepsCached(f1, f1.ackMark, NameFor(item, number), tick);
      var f2 := if Newer(number, Wrap(f1.ackMark)) then MoveMark(f1, f1.ackMark, NameFor(item, number), tick) else f1;
      hide MoveMark;
      SetLatencyKeepsCached(f2, f2.srtt, Rtt(tick, item));
    }
  }

  lemma {:induction false} SweepKeeps(w: Sweep, items: seq<Item>, ranges: seq<Range>, tick: int, grouped: bool)
    requires w.kept == [] && 0 <= w.latency.0 && RTO_LBOUND <= w.latency.1 <= RTO_UBOUND
    ensures var w' := SweepAll(w, items, ranges, tick, grouped);
      Sublist(w'.kept, items) && 0 <= w'.latency.0 && RTO_LBOUND <= w'.latency.1 <= RTO_UBOUND
    decreases |items|
  {
    if items == [] {
      assert Selects([], w.kept, items);
    } else {
      var front, last := items[..|items| - 1], items[|items| - 1];
      SweepKeeps(w, front, ranges, tick, grouped);
      var w1 := SweepAll(w, front, ranges, tick, grouped);
      var at: seq<nat> :| Selects(at, w1.kept, front);
      hide FirstNamed, Retire;
      assert Selects(at, w1.kept, items);
      assert Selects(at + [|front|], w1.kept + [last], items);
    }
  }

  lemma CompactKeepsCached(s: SendState, ranges: seq<Range>, tick: int)
    requires Cached(s.flight) && tick >= 0
    ensures Cached(Compact(s, ranges, tick).flight)
  {
    var f := s.flight;
    SweepKeeps(StartSweep(s), f.items, ranges, tick, f.grouped);
    var w := SweepAll(StartSweep(s), f.items, ranges, tick, f.grouped);
    SublistKeepsCached(f, w.kept, f.grouped && w.kept != []);
    var f0 := f.(items := w.kept, grouped := f.grouped && w.kept != []);
    var f1 := SetLatency(f0, w.latency);
    assert Cached(f1) by {
      forall i | 0 <= i < |f1.items| && f1.items[i].sent
        ensures f1.nextRetry <= Deadline(f1, f1.items[i])
      {
        TimeoutBounded(f1, f1.items[i].retries);
      }
    }
    MoveMarkKeepsCached(f1, f.ackMark, w.newest, tick);
  }

  lemma AckRangesKeepsCached(s: SendState, ranges: seq<Range>, tick: int)
    requires Cached(s.flight) && tick >= 0
    ensures Cached(AckRanges(s, ranges, tick).flight)
  {
    hide Cached, Compact, AckDirect;
    CompactKeepsCached(s, ranges, tick);
    if |ranges| == 1 {
      CompactKeepsCached(s, [Range(ranges[0].first, ranges[0].first)], tick);
      AckDirectKeepsCached(s, ranges[0].first, tick);
    }
  }

  // ---------------------------------------------------------------------
  // The stages of a flush.

  ghost predicate DeadlineKeptBelow(f: Flight, n: nat) {
    forall i | 0 <= i < n && i < |f.items| && f.items[i].sent :: f.nextRetry <= Deadline(f, f.items[i])
  }

  lemma {:induction false} TickFromKeepsCached(f: Flight, tick: int, i: nat)
    requires i <= |f.items| && Timed(f) && PendingKept(f) && OrderKept(f) && DeadlineKeptBelow(f, i)
    ensures Cached(TickFrom(f, tick, i))
    decreases |f.items| - i
  {
    if i < |f.items| {
      var item := f.items[i];
      if item.sent && Expired(f, item, tick) {
        TickFromKeepsCached(Resequence(f, i, item.time), tick, i + 1);
      } else if item.sent {
        TickFromKeepsCached(f.(nextRetry := Min(f.nextRetry, Deadline(f, item))), tick, i + 1);
      } else {
        TickFromKeepsCached(f, tick, i + 1);
      }
    }
  }

  lemma TickKeepsCached(f: Flight, tick: int)
    requires Cached(f)
    ensures Cached(Tick(f, tick))
  {
    if tick >= f.nextRetry {
      TickFromKeepsCached(f.(nextRetry := NEVER), tick, 0);
    }
  }

  lemma ArrangeKeepsCached(f: Flight, order: seq<nat>)
    requires Cached(f) && Sorts(f.items, order)
    ensures Cached(Arrange(f, order)) && Sorted(Arrange(f, order).items)
  {
    if f.dirty {
      var g := Arrange(f, order);
      forall i | 0 <= i < |g.items|
        ensures g.items[i].time >= 0
        ensures g.items[i].sent ==> g.nextRetry <= Deadline(g, g.items[i])
        ensures !g.items[i].sent ==> g.retriesPending
      {
        assert g.items[i] == f.items[order[i]];
      }
    }
  }

  /** The numbers waiting to be sent again from `i` on, in flight order. */
  function Waiting(items: seq<Item>, i: nat): seq<Outgoing>
    requires i <= |items|
    decreases |items| - i
  {
    if i == |items| then []
    else (if items[i].sent then [] else [Outgoing(items[i].packet, items[i].id)]) + Waiting(items, i + 1)
  }

  /** `g` is `f` with its waiting items from `i` on sent. */
  ghost predicate Resent(f: Flight, g: Flight, tick: int, i: nat) {
    && |g.items| == |f.items|
    && (forall k | 0 <= k < |f.items| ::
          g.items[k] == if k >= i && !f.items[k].sent then Resend(f.items[k], tick) else f.items[k])
    && g == f.(items := g.items, nextRetry := g.nextRetry)
  }

  lemma {:induction false} WaitingAfter(f: seq<Item>, g: seq<Item>, i: nat)
    requires i <= |f| == |g| && f[i..] == g[i..]
    ensures Waiting(f, i) == Waiting(g, i)
    decreases |f| - i
  {
    if i < |f| {
      assert f[i] == f[i..][0] == g[i..][0] == g[i];
      assert f[i + 1..] == f[i..][1..] == g[i + 1..];
      WaitingAfter(f, g, i + 1);
    }
  }

  lemma {:induction false} ResendFromExact(f: Flight, out: seq<Outgoing>, tick: int, i: nat)
    requires i <= |f.items|
    ensures var (g, out') := ResendFrom(f, out, tick, i);
      Resent(f, g, tick, i) && out' == out + Waiting(f.items, i)
    decreases |f.items| - i
  {
    if i < |f.items| {
      if f.items[i].sent {
        ResendFromExact(f, out, tick, i + 1);
      } else {
        var item := Resend(f.items[i], tick);
        var f' := f.(items := f.items[i := item],
                     nextRetry := Min(f.nextRetry, Later(tick, RetryTimeout(f.rto, item.retries))));
        var out1 := out + [Outgoing(item.packet, item.id)];
        ResendFromExact(f', out1, tick, i + 1);
        WaitingAfter(f.items, f'.items, i + 1);
        assert out1 + Waiting(f.items, i + 1) == out + Waiting(f.items, i);
        var (g, _) := ResendFrom(f', out1, tick, i + 1);
        assert forall k | 0 <= k < |f.items| && k != i :: f'.items[k] == f.items[k];
      }
    }
  }

  lemma {:induction false} ResendFromKeepsDeadline(f: Flight, out: seq<Outgoing>, tick: int, i: nat)
    requires i <= |f.items| && DeadlineKept(f)
    ensures DeadlineKept(ResendFrom(f, out, tick, i).0)
    decreases |f.items| - i
  {
    if i < |f.items| {
      if f.items[i].sent {
        ResendFromKeepsDeadline(f, out, tick, i + 1);
      } else {
        var item := Resend(f.items[i], tick);
        var f' := f.(items := f.items[i := item],
                     nextRetry := Min(f.nextRetry, Later(tick, RetryTimeout(f.rto, item.retries))));
        ResendFromKeepsDeadline(f', out + [Outgoing(item.packet, item.id)], tick, i + 1);
      }
    }
  }

  ghost predicate AllSent(items: seq<Item>) {
    forall i | 0 <= i < |items| :: items[i].sent
  }

  lemma ResendKeepsCached(f: Flight, tick: int)
    requires Cached(f) && tick >= 0
    ensures var (g, _) := ResendPending(f, tick); Cached(g) && AllSent(g.items)
  {
    if f.retriesPending {
      ResendFromExact(f, [], tick, 0);
      ResendFromKeepsDeadline(f, [], tick, 0);
      var (h, _) := ResendFrom(f, [], tick, 0);
      var (g, _) := ResendPending(f, tick);
      assert g == h.(retriesPending := false);
      if !f.dirty {
        forall i, j | 0 <= i < j < |g.items| ensures Wrap(g.items[i].id) <= Wrap(g.items[j].id) {
          assert g.items[i].id == f.items[i].id && g.items[j].id == f.items[j].id;
        }
      }
    }
  }

  lemma EmitKeepsCached(p: Pump, packet: Packet, id: nat, tick: int)
    requires Cached(p.flight) && AllSent(p.flight.items) && tick >= 0
    ensures var q := Emit(p, packet, id, tick); Cached(q.flight) && AllSent(q.flight.items)
  {
    var f, g := p.flight, Emit(p, packet, id, tick).flight;
    if packet.frame.IsReliable() {
      var n := |f.items|;
      assert RetryTimeout(g.rto, 0) == g.rto;
      forall i | 0 <= i < n + 1
        ensures g.items[i].time >= 0 && g.items[i].sent && g.nextRetry <= Deadline(g, g.items[i])
      {
        assert g.items[i] == if i < n then f.items[i] else Item(packet, id, true, tick, 0, []);
      }
      if !g.dirty {
        forall i, j | 0 <= i < j < n + 1 ensures Wrap(g.items[i].id) <= Wrap(g.items[j].id) {
          assert j < n ==> g.items[j] == f.items[j];
          assert g.items[i] == f.items[i];
          assert i < n - 1 ==> Wrap(f.items[i].id) <= Wrap(f.items[n - 1].id);
        }
      }
    }
  }

  lemma PumpStepKeepsCached(p: Pump, mtu: u16, tick: int)
    requires Cached(p.flight) && AllSent(p.flight.items) && tick >= 0 && p.queue.packets != []
    ensures var q := PumpStep(p, mtu, tick); Cached(q.flight) && AllSent(q.flight.items)
  {
    var packet := p.queue.packets[0];
    var rest := p.(queue := p.queue.(packets := p.queue.packets[1..]));
    if !(packet.frame.IsReliable() && |p.flight.items| >= MAX_IN_FLIGHT) {
      var (p1, id) := Assign(rest, packet, mtu);
      assert Cached(p1.flight) && AllSent(p1.flight.items);
      hide Cached, AllSent, Emit;
      EmitKeepsCached(p1, packet, id, tick);
    }
  }

  lemma {:induction false} PumpKeepsCached(p: Pump, mtu: u16, tick: int, n: nat)
    requires Cached(p.flight) && AllSent(p.flight.items) && tick >= 0
    ensures var q := PumpAll(p, mtu, tick, n); Cached(q.flight) && AllSent(q.flight.items)
    decreases n
  {
    hide Cached, AllSent, PumpStep;
    if n > 0 && !PumpStops(p) {
      PumpStepKeepsCached(p, mtu, tick);
      PumpKeepsCached(PumpStep(p, mtu, tick), mtu, tick, n - 1);
    }
  }

  /** After a flush the caches may still be relied on, and nothing waits. */
  lemma FlushKeepsCached(s: SendState, tick: int, order: seq<nat>)
    requires Cached(s.flight) && tick >= 0 && Sorts(Tick(s.flight, tick).items, order)
    ensures var r := Flush(s, tick, order); Cached(r.state.flight) && AllSent(r.state.flight.items)
  {
    hide Cached, AllSent;
    TickKeepsCached(s.flight, tick);
    var f1 := Tick(s.flight, tick);
    ArrangeKeepsCached(f1, order);
    var f2 := Arrange(f1, order);
    ResendKeepsCached(f2, tick);
    var (f3, out) := ResendPending(f2, tick);
    PumpKeepsCached(StartPump(s, f3, out), s.mtu, tick, |s.queue.packets|);
  }

  // ---------------------------------------------------------------------
  // The queue without caches.

  /** Scan every item, sort, and look for waiting items, on every flush. */
  ghost function ScanFlush(s: SendState, tick: int, order: seq<nat>): Flushed
    requires IsPermutation(order, |s.flight.items|)
  {
    var ticked := TickFrom(s.flight.(nextRetry := NEVER), tick, 0);
    var sorted := ticked.(items := Reordered(ticked.items, order), dirty := false);
    var (f, out) := ResendFrom(sorted, [], tick, 0);
    Finish(s, PumpAll(StartPump(s, f.(retriesPending := false), out), s.mtu, tick, |s.queue.packets|))
  }

  /** Equal up to the cached deadline. */
  ghost predicate SameFlight(f: Flight, g: Flight) {
    g == f.(nextRetry := g.nextRetry)
  }

  ghost predicate Same(s: SendState, t: SendState) {
    t == s.(flight := t.flight) && SameFlight(s.flight, t.flight)
  }

  lemma ScanFindsNothing(f: Flight, tick: int)
    requires Cached(f) && tick < f.nextRetry
    ensures SameFlight(f, TickFrom(f.(nextRetry := NEVER), tick, 0))
  {
    var f' := f.(nextRetry := NEVER);
    var g := TickFrom(f', tick, 0);
    TickFromExact(f', tick, 0);
    forall i | 0 <= i < |f.items|
      ensures g.items[i] == f.items[i]
    {
      assert f.items[i].sent ==> f.nextRetry <= Deadline(f, f.items[i]);
      assert !Changed(f', g, i);
    }
    assert g.items == f.items;
  }

  /** Skipping the scan before the deadline loses nothing. */
  lemma TickIsScan(f: Flight, tick: int)
    requires Cached(f)
    ensures SameFlight(Tick(f, tick), TickFrom(f.(nextRetry := NEVER), tick, 0))
  {
    if tick < f.nextRetry {
      ScanFindsNothing(f, tick);
    }
  }

  lemma {:induction false} ResendFromSame(f: Flight, g: Flight, out: seq<Outgoing>, tick: int, i: nat)
    requires SameFlight(f, g) && i <= |f.items|
    ensures var (f', a) := ResendFrom(f, out, tick, i); var (g', b) := ResendFrom(g, out, tick, i);
      SameFlight(f', g') && a == b
    decreases |f.items| - i
  {
    if i < |f.items| {
      if f.items[i].sent {
        ResendFromSame(f, g, out, tick, i + 1);
      } else {
        var item := Resend(f.items[i], tick);
        var due := Later(tick, RetryTimeout(f.rto, item.retries));
        ResendFromSame(f.(items := f.items[i := item], nextRetry := Min(f.nextRetry, due)),
                       g.(items := g.items[i := item], nextRetry := Min(g.nextRetry, due)),
                       out + [Outgoing(item.packet, item.id)], tick, i + 1);
      }
    }
  }

  ghost predicate SamePump(p: Pump, q: Pump) {
    q == p.(flight := q.flight) && SameFlight(p.flight, q.flight)
  }

  lemma AssignSame(p: Pump, q: Pump, packet: Packet, mtu: u16)
    requires SamePump(p, q)
    ensures var (p1, a) := Assign(p, packet, mtu); var (q1, b) := Assign(q, packet, mtu); SamePump(p1, q1) && a == b
  {
  }

  lemma EmitSame(p: Pump, q: Pump, packet: Packet, id: nat, tick: int)
    requires SamePump(p, q)
    ensures SamePump(Emit(p, packet, id, tick), Emit(q, packet, id, tick))
  {
  }

  lemma PumpStepSame(p: Pump, q: Pump, mtu: u16, tick: int)
    requires SamePump(p, q) && p.queue.packets != []
    ensures SamePump(PumpStep(p, mtu, tick), PumpStep(q, mtu, tick))
  {
    hide Assign, Emit;
    var packet := p.queue.packets[0];
    if !(packet.frame.IsReliable() && |p.flight.items| >= MAX_IN_FLIGHT) {
      var p0 := p.(queue := p.queue.(packets := p.queue.packets[1..]));
      var q0 := q.(queue := q.queue.(packets := q.queue.packets[1..]));
      AssignSame(p0, q0, packet, mtu);
      var (p1, id) := Assign(p0, packet, mtu);
      EmitSame(p1, Assign(q0, packet, mtu).0, packet, id, tick);
    }
  }

  lemma {:induction false} PumpSame(p: Pump, q: Pump, mtu: u16, tick: int, n: nat)
    requires SamePump(p, q)
    ensures SamePump(PumpAll(p, mtu, tick, n), PumpAll(q, mtu, tick, n))
    decreases n
  {
    hide PumpStep;
    if n > 0 && !PumpStops(p) {
      PumpStepSame(p, q, mtu, tick);
      PumpSame(PumpStep(p, mtu, tick), PumpStep(q, mtu, tick), mtu, tick, n - 1);
    }
  }

  ghost function Identity(n: nat): seq<nat> {
    seq(n, i requires 0 <= i < n => i)
  }

  lemma IdentityReorders(items: seq<Item>)
    ensures IsPermutation(Identity(|items|), |items|) && Reordered(items, Identity(|items|)) == items
  {
  }

  lemma {:induction false} NothingWaiting(items: seq<Item>, i: nat)
    requires i <= |items| && AllSent(items)
    ensures Waiting(items, i) == []
    decreases |items| - i
  {
    if i < |items| {
      NothingWaiting(items, i + 1);
    }
  }

  /** Skipping the resend pass when nothing is pending loses nothing. */
  lemma ResendIsScan(f: Flight, g: Flight, tick: int)
    requires Cached(f) && SameFlight(f, g)
    ensures var (f', a) := ResendPending(f, tick); var (g', b) := ResendFrom(g, [], tick, 0);
      SameFlight(f', g'.(retriesPending := false)) && a == b
  {
    ResendFromSame(f, g, [], tick, 0);
    if !f.retriesPending {
      ResendFromExact(f, [], tick, 0);
      NothingWaiting(f.items, 0);
      var (h, _) := ResendFrom(f, [], tick, 0);
      assert h.items == f.items;
    }
  }

  /** The order a rescanning queue may sort into: the cached queue's own. */
  ghost function ScanOrder(s: SendState, tick: int, order: seq<nat>): seq<nat> {
    if Tick(s.flight, tick).dirty then order else Identity(|s.flight.items|)
  }

  /** Skipping the sort when the flight is clean loses nothing. */
  lemma ArrangeIsScan(f: Flight, g: Flight, order: seq<nat>)
    requires Cached(f) && SameFlight(f, g) && Sorts(f.items, order)
    ensures var o := if f.dirty then order else Identity(|f.items|);
      Sorts(g.items, o) && SameFlight(Arrange(f, order), g.(items := Reordered(g.items, o), dirty := false))
  {
    IdentityReorders(g.items);
  }

  lemma PumpIsScan(s: SendState, t: SendState, f: Flight, g: Flight, out: seq<Outgoing>, tick: int)
    requires Same(s, t) && SameFlight(f, g)
    ensures var a := Finish(s, PumpAll(StartPump(s, f, out), s.mtu, tick, |s.queue.packets|));
      var b := Finish(t, PumpAll(StartPump(t, g, out), t.mtu, tick, |t.queue.packets|));
      a.out == b.out && a.coalesced == b.coalesced && Same(a.state, b.state)
  {
    hide PumpAll;
    PumpSame(StartPump(s, f, out), StartPump(t, g, out), s.mtu, tick, |s.queue.packets|);
  }

  /**
   From states equal up to the deadline, a flush that trusts its caches emits
   exactly what a rescanning flush may emit, and leaves the same queue.
   */
  lemma FlushIsScan(s: SendState, t: SendState, tick: int, order: seq<nat>)
    requires Cached(s.flight) && Same(s, t) && Sorts(Tick(s.flight, tick).items, order)
    ensures var scan := TickFrom(t.flight.(nextRetry := NEVER), tick, 0); var o := ScanOrder(s, tick, order);
      && Sorts(scan.items, o)
      && var a := Flush(s, tick, order); var b := ScanFlush(t, tick, o);
         a.out == b.out && a.coalesced == b.coalesced && Same(a.state, b.state)
  {
    hide Cached, Sorts, Sorted, Reordered, TickFrom, ResendFrom, ResendPending, PumpAll, Arrange, Finish;
    var f1, g1 := Tick(s.flight, tick), TickFrom(t.flight.(nextRetry := NEVER), tick, 0);
    TickIsScan(s.flight, tick);
    TickKeepsCached(s.flight, tick);
    var o := ScanOrder(s, tick, order);
    ArrangeIsScan(f1, g1, order);
    ArrangeKeepsCached(f1, order);
    SortsPermutes(f1.items, order);
    SortsPermutes(g1.items, o);
    var f2, g2 := Arrange(f1, order), g1.(items := Reordered(g1.items, o), dirty := false);
    ResendIsScan(f2, g2, tick);
    var (f3, out) := ResendPending(f2, tick);
    var (g3, _) := ResendFrom(g2, [], tick, 0);
    PumpIsScan(s, t, f3, g3.(retriesPending := false), out, tick);
  }

  lemma SortsPermutes(items: seq<Item>, order: seq<nat>)
    requires Sorts(items, order)
    ensures IsPermutation(order, |items|)
  {
  }

  // ---------------------------------------------------------------------
  // No frame waits longer than the largest timeout.

  lemma {:induction false} WaitingHas(items: seq<Item>, i: nat, k: nat)
    requires i <= k < |items| && !items[k].sent
    ensures Outgoing(items[k].packet, items[k].id) in Waiting(items, i)
    decreases |items| - i
  {
    if i < k {
      WaitingHas(items, i + 1, k);
    }
  }

  lemma {:induction false} PumpExtends(p: Pump, mtu: u16, tick: int, n: nat)
    ensures p.out <= PumpAll(p, mtu, tick, n).out
    decreases n
  {
    if n > 0 && !PumpStops(p) {
      assert p.out <= PumpStep(p, mtu, tick).out;
      hide PumpStep;
      PumpExtends(PumpStep(p, mtu, tick), mtu, tick, n - 1);
    }
  }

  lemma ArrangeHas(f: Flight, order: seq<nat>, k: nat) returns (j: nat)
    requires k < |f.items| && Sorts(f.items, order)
    ensures j < |f.items| && Arrange(f, order).items[j] == f.items[k]
  {
    if f.dirty {
      var items := Reordered(f.items, order);
      assert f.items[k] in multiset(f.items);
      assert f.items[k] in items;
      j :| 0 <= j < |items| && items[j] == f.items[k];
    } else {
      j := k;
    }
  }

  /** A scan at least the largest timeout after an item was sent makes it wait. */
  lemma OverdueWaits(f: Flight, tick: int, k: nat)
    requires Cached(f) && k < |f.items|
    requires !f.items[k].sent || tick - f.items[k].time >= RTO_UBOUND
    ensures var g := Tick(f, tick);
      |g.items| == |f.items| && !g.items[k].sent && g.items[k].packet == f.items[k].packet
  {
    hide TickFrom;
    var item := f.items[k];
    if item.sent {
      TimeoutBounded(f, item.retries);
      assert f.nextRetry <= Deadline(f, item) <= tick;
      var f' := f.(nextRetry := NEVER);
      TickFromExact(f', tick, 0);
      assert Changed(f', Tick(f, tick), k);
    } else {
      TickRenumbers(f, tick);
    }
  }

  /** Everything that waits when a flush starts leaves with it. */
  lemma WaitingIsResent(s: SendState, f: Flight, tick: int, order: seq<nat>, k: nat)
    requires f == Tick(s.flight, tick) && Cached(f) && Sorts(f.items, order) && k < |f.items| && !f.items[k].sent
    ensures exists id: nat :: Outgoing(f.items[k].packet, id) in Flush(s, tick, order).out
  {
    hide Tick, Timed, DeadlineKept, OrderKept, ResendFrom, PumpAll;
    var j := ArrangeHas(f, order, k);
    ArrangeKeepsCached(f, order);
    var g := Arrange(f, order);
    assert g.retriesPending;
    ResendFromExact(g, [], tick, 0);
    WaitingHas(g.items, 0, j);
    var (h, out) := ResendPending(g, tick);
    PumpExtends(StartPump(s, h, out), s.mtu, tick, |s.queue.packets|);
    var o, all := Outgoing(f.items[k].packet, g.items[j].id), Flush(s, tick, order).out;
    assert out == Waiting(g.items, 0) && out <= all;
    var i :| 0 <= i < |out| && out[i] == o;
    assert all[i] == o;
  }

  /**
   A flush re-emits every frame that waits, and every frame last sent at
   least 12,000 ms before it, whatever the cached deadline says.
   */
  lemma OverdueIsResent(s: SendState, tick: int, order: seq<nat>, k: nat)
    requires Cached(s.flight) && Sorts(Tick(s.flight, tick).items, order) && k < |s.flight.items|
    requires !s.flight.items[k].sent || tick - s.flight.items[k].time >= RTO_UBOUND
    ensures exists id: nat :: Outgoing(s.flight.items[k].packet, id) in Flush(s, tick, order).out
  {
    hide Cached, Tick, Sorts, Flush;
    OverdueWaits(s.flight, tick, k);
    TickKeepsCached(s.flight, tick);
    WaitingIsResent(s, Tick(s.flight, tick), tick, order, k);
  }
}
