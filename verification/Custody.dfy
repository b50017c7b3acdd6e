// Who holds each frame, and under which numbers it has left: what every step
// of the send queue keeps, in terms a peer can rely on.
module Custody {
  import opened AckSet
  import opened Acks
  import opened Bytes
  import opened Deadlines
  import opened Errors
  import Fragments
  import opened Frames
  import opened Ledger
  import opened Packing
  import opened Renumber
  import opened Sender
  import opened Serial

  // ---------------------------------------------------------------------
  // Feedback removes some items and renumbers others.

  /** `g` is what is left of `f`: the items of `h`, some of them renumbered. */
  ghost predicate Answered(f: Flight, h: Flight, g: Flight) {
    Sublist(h.items, f.items) && h.sequence == f.sequence && Renumbered(h, g)
  }

  /** Only acknowledged items disappear. */
  ghost predicate OnlyAcked(f: Flight, h: Flight, ranges: seq<Range>) {
    forall i | 0 <= i < |f.items| :: f.items[i] in h.items || AckedBy(f.items[i], ranges)
  }

  /** The parts of a flight that say which frames left under which numbers. */
  ghost predicate SameNumbers(f: Flight, g: Flight) {
    f.items == g.items && f.sequence == g.sequence
  }

  lemma CompactAnswers(s: SendState, ranges: seq<Range>, tick: int) returns (h: Flight, g: Flight)
    requires Cached(s.flight)
    ensures Answered(s.flight, h, g) && OnlyAcked(s.flight, h, ranges)
    ensures SameNumbers(g, Compact(s, ranges, tick).flight)
  {
    hide Cached, AckedBy, AckedName, MoveMark, Renumbered, Sublist, SweepAll;
    var f := s.flight;
    SweepExact(s, f.items, ranges, tick, f.grouped);
    CachedLatency(f);
    SweepKeeps(StartSweep(s), f.items, ranges, tick, f.grouped);
    var w := SweepAll(StartSweep(s), f.items, ranges, tick, f.grouped);
    h := SetLatency(f.(items := w.kept, grouped := f.grouped && w.kept != []), w.latency);
    MoveMarkExact(h, f.ackMark, w.newest, tick);
    RenumberedSame(h, h);
    g := Compact(s, ranges, tick).flight;
    forall i | 0 <= i < |f.items| ensures f.items[i] in h.items || AckedBy(f.items[i], ranges) {
      SurvivorsExact(f.items, ranges, f.items[i]);
    }
  }

  lemma CachedLatency(f: Flight)
    requires Cached(f)
    ensures 0 <= f.srtt && RTO_LBOUND <= f.rto <= RTO_UBOUND
  {
  }

  lemma DirectAnswers(s: SendState, number: u24, tick: int) returns (h: Flight, g: Flight)
    ensures Answered(s.flight, h, g) && OnlyAcked(s.flight, h, Only(number))
    ensures SameNumbers(g, AckDirect(s, number, tick).flight)
  {
    hide AckedBy, AckedName, MoveMark, Renumbered, LatencySample, NameFor, Find, NamedBy, Newer, Rtt, Retire, Removed,
      Sublist, Only;
    var f := s.flight;
    var k := Find(f.items, number, 0);
    FindExact(f.items, number, 0);
    if k == |f.items| {
      h, g := f, f;
      RenumberedSame(f, f);
      SublistOfItself(f.items);
    } else {
      var items := Removed(f.items, k);
      RemovedIsSublist(f.items, k);
      NamedByOnly(f.items[k], number);
      AckedNameExact(f.items[k], Only(number));
      h := f.(items := items, grouped := f.grouped && items != []);
      MoveMarkExact(h, h.ackMark, NameFor(f.items[k], number), tick);
      RenumberedSame(h, h);
      g := if Newer(number, Wrap(h.ackMark)) then MoveMark(h, h.ackMark, NameFor(f.items[k], number), tick) else h;
      forall i | 0 <= i < |f.items| && i != k ensures f.items[i] in items {
        RemovedHas(f.items, k, i);
      }
    }
  }

  lemma RemovedHas(items: seq<Item>, k: nat, i: nat)
    requires k < |items| && i < |items| && i != k
    ensures items[i] in Removed(items, k)
  {
    assert items[i] == Removed(items, k)[if i < k then i else i - 1];
  }

  lemma SublistOfItself(items: seq<Item>)
    ensures Sublist(items, items)
  {
    assert Selects(seq(|items|, i => i), items, items);
  }

  lemma AckAnswers(s: SendState, ranges: seq<Range>, tick: int) returns (h: Flight, g: Flight)
    requires Cached(s.flight)
    ensures Answered(s.flight, h, g) && OnlyAcked(s.flight, h, ranges)
    ensures SameNumbers(g, AckRanges(s, ranges, tick).flight)
  {
    hide Cached, Answered, OnlyAcked, Compact, AckDirect;
    if |ranges| == 1 && ranges[0].first == ranges[0].last && (!s.flight.grouped || |s.flight.items| <= 1) {
      assert ranges == Only(ranges[0].first);
      h, g := DirectAnswers(s, ranges[0].first, tick);
    } else {
      h, g := CompactAnswers(s, ranges, tick);
    }
  }

  lemma AckLeavesRest(s: SendState, ranges: seq<Range>, tick: int)
    ensures var t := AckRanges(s, ranges, tick);
      t.queue == s.queue && t.counters == s.counters && t.mtu == s.mtu
  {
    hide Find, MoveMark, SweepAll, Retire, LatencySample, NameFor, Newer;
  }

  // ---------------------------------------------------------------------
  // Trails: every number a frame answers to is one it left under.

  ghost predicate ItemTrailed(item: Item, sent: set<Outgoing>) {
    && (item.sent ==> Outgoing(item.packet, item.id) in sent)
    && forall k | 0 <= k < |item.past| :: Outgoing(item.packet, item.past[k]) in sent
  }

  ghost predicate Trailed(items: seq<Item>, sent: set<Outgoing>) {
    forall i | 0 <= i < |items| :: ItemTrailed(items[i], sent)
  }

  /** Waiting items carry numbers from `low` on, not used before. */
  ghost predicate WaitsAbove(items: seq<Item>, low: nat) {
    forall i | 0 <= i < |items| && !items[i].sent :: low <= items[i].id
  }

  lemma MovedTrailed(a: Item, b: Item, low: nat, high: nat, sent: set<Outgoing>)
    requires ItemTrailed(a, sent) && Moved(a, b, low, high)
    ensures ItemTrailed(b, sent)
  {
  }

  lemma RenumberedKeepsTrails(f: Flight, g: Flight, sent: set<Outgoing>, low: nat)
    requires Renumbered(f, g) && Trailed(f.items, sent) && WaitsAbove(f.items, low) && low <= f.sequence
    ensures Trailed(g.items, sent) && WaitsAbove(g.items, low)
  {
    hide ItemTrailed, Spent;
    forall i | 0 <= i < |g.items| ensures ItemTrailed(g.items[i], sent) && (!g.items[i].sent ==> low <= g.items[i].id) {
      if g.items[i] != f.items[i] {
        MovedTrailed(f.items[i], g.items[i], f.sequence, g.sequence, sent);
      }
    }
  }

  lemma SublistKeepsTrails(kept: seq<Item>, items: seq<Item>, sent: set<Outgoing>, low: nat)
    requires Sublist(kept, items) && Trailed(items, sent) && WaitsAbove(items, low)
    ensures Trailed(kept, sent) && WaitsAbove(kept, low) && |kept| <= |items|
  {
    hide ItemTrailed;
    var at: seq<nat> :| Selects(at, kept, items);
    forall i | 0 <= i < |kept| ensures kept[i] == items[at[i]] {
    }
    SelectsShrinks(at, kept, items);
  }

  lemma SelectsShrinks(at: seq<nat>, kept: seq<Item>, items: seq<Item>)
    requires Selects(at, kept, items)
    ensures |kept| <= |items|
  {
    if |at| > 0 {
      IncreasingAtLeast(at, |at| - 1);
    }
  }

  lemma {:induction false} IncreasingAtLeast(at: seq<nat>, n: nat)
    requires n < |at| && forall i, j | 0 <= i < j < |at| :: at[i] < at[j]
    ensures at[n] >= n
    decreases n
  {
    if n > 0 {
      IncreasingAtLeast(at, n - 1);
    }
  }

  lemma ArrangeKeepsTrails(f: Flight, order: seq<nat>, sent: set<Outgoing>, low: nat)
    requires IsPermutation(order, |f.items|) && Trailed(f.items, sent) && WaitsAbove(f.items, low)
    ensures Trailed(Arrange(f, order).items, sent) && WaitsAbove(Arrange(f, order).items, low)
  {
    hide ItemTrailed;
  }

  ghost function Emissions(out: seq<Outgoing>): set<Outgoing> {
    set i | 0 <= i < |out| :: out[i]
  }

  lemma ItemTrailedMore(item: Item, sent: set<Outgoing>, more: set<Outgoing>)
    requires ItemTrailed(item, sent) && sent <= more
    ensures ItemTrailed(item, more)
  {
  }

  lemma ResendKeepsTrails(f: Flight, tick: int, sent: set<Outgoing>, low: nat)
    requires Trailed(f.items, sent) && WaitsAbove(f.items, low) && PendingKept(f)
    ensures var (g, out) := ResendPending(f, tick);
      && Trailed(g.items, sent + Emissions(out))
      && g.sequence == f.sequence
      && (forall i | 0 <= i < |out| :: low <= out[i].id)
  {
    hide ItemTrailed;
    ResendFromExact(f, [], tick, 0);
    var (g, out) := ResendPending(f, tick);
    assert f.retriesPending ==> out == Waiting(f.items, 0);
    forall i | 0 <= i < |g.items| ensures ItemTrailed(g.items[i], sent + Emissions(out)) {
      ResentTrailed(f, tick, sent, i);
    }
    forall i | 0 <= i < |out| ensures low <= out[i].id {
      var j := WaitingFrom(f.items, 0, i);
    }
  }

  lemma ResentTrailed(f: Flight, tick: int, sent: set<Outgoing>, i: nat)
    requires Trailed(f.items, sent) && PendingKept(f) && i < |f.items|
    ensures var (g, out) := ResendPending(f, tick);
      i < |g.items| && ItemTrailed(g.items[i], sent + Emissions(out))
  {
    ResendFromExact(f, [], tick, 0);
    var (g, out) := ResendPending(f, tick);
    assert f.retriesPending ==> out == Waiting(f.items, 0);
    if !f.items[i].sent {
      WaitingHas(f.items, 0, i);
      assert Outgoing(f.items[i].packet, f.items[i].id) in Emissions(out);
    }
  }

  // ---------------------------------------------------------------------
  // The pump.

  ghost function PumpHeld(p: Pump): multiset<Packet> {
    multiset(p.queue.packets) + Packets(p.flight.items)
  }

  /** Reliable frames are never let go; others only disappear. */
  ghost predicate Keeps(before: multiset<Packet>, after: multiset<Packet>) {
    after <= before && forall p: Packet | p.frame.IsReliable() :: after[p] == before[p]
  }

  ghost predicate OutFrom(out: seq<Outgoing>, held: multiset<Packet>) {
    forall i | 0 <= i < |out| :: out[i].packet in held
  }

  /** Everything the pump keeps, relative to where it started. */
  ghost predicate Pumped(p: Pump, held: multiset<Packet>, sent: set<Outgoing>, low: nat) {
    && Keeps(held, PumpHeld(p))
    && OutFrom(p.out, held)
    && Trailed(p.flight.items, sent + Emissions(p.out))
    && (forall i | 0 <= i < |p.out| :: low <= p.out[i].id)
    && low <= p.flight.sequence
    && (p.group.Some? ==> low <= p.group.value < p.flight.sequence)
  }

  lemma HeldAfterStep(p: Pump, q: Pump, id: nat, tick: int)
    requires p.queue.packets != [] && !Rotates(p) && Emitted(p, q, id, tick)
    ensures Keeps(PumpHeld(p), PumpHeld(q)) && p.queue.packets[0] in PumpHeld(p)
  {
    hide Packets, Packable;
    var first, rest := p.queue.packets[0], p.queue.packets[1..];
    assert p.queue.packets == [first] + rest;
    assert multiset(p.queue.packets) == multiset{first} + multiset(rest);
    if first.frame.IsReliable() {
      PacketsSnoc(p.flight.items, Item(first, id, true, tick, 0, []));
    }
  }

  lemma HeldAfterRotation(p: Pump)
    requires p.queue.packets != []
    ensures multiset(p.queue.packets[1..] + [p.queue.packets[0]]) == multiset(p.queue.packets)
  {
    assert p.queue.packets == [p.queue.packets[0]] + p.queue.packets[1..];
  }

  lemma KeepsTransitive(a: multiset<Packet>, b: multiset<Packet>, c: multiset<Packet>)
    requires Keeps(a, b) && Keeps(b, c)
    ensures Keeps(a, c)
  {
  }

  lemma EmittedTrails(p: Pump, q: Pump, id: nat, tick: int, sent: set<Outgoing>)
    requires p.queue.packets != [] && Emitted(p, q, id, tick) && Trailed(p.flight.items, sent + Emissions(p.out))
    ensures Trailed(q.flight.items, sent + Emissions(q.out))
  {
    hide ItemTrailed, Packable;
    var before, after := sent + Emissions(p.out), sent + Emissions(q.out);
    var n := |p.out|;
    assert q.out[n] == Outgoing(p.queue.packets[0], id) && q.out[n] in Emissions(q.out);
    assert forall i | 0 <= i < n :: q.out[i] == p.out[i];
    assert Emissions(p.out) <= Emissions(q.out);
    forall i | 0 <= i < |q.flight.items| ensures ItemTrailed(q.flight.items[i], after) {
      if i < |p.flight.items| {
        ItemTrailedMore(p.flight.items[i], before, after);
      } else {
        FreshTrailed(p.queue.packets[0], id, tick, after);
      }
    }
  }

  lemma FreshTrailed(p: Packet, id: nat, tick: int, sent: set<Outgoing>)
    requires Outgoing(p, id) in sent
    ensures ItemTrailed(Item(p, id, true, tick, 0, []), sent)
  {
  }

  lemma PumpStepKeeps(p: Pump, held: multiset<Packet>, sent: set<Outgoing>, low: nat, mtu: u16, tick: int)
    requires p.queue.packets != [] && Pumped(p, held, sent, low)
    ensures Pumped(PumpStep(p, mtu, tick), held, sent, low)
    ensures PumpStep(p, mtu, tick).flight.sequence <= p.flight.sequence + 1
  {
    hide PumpStep, Packable, Trailed, Packets, Emissions;
    var q := PumpStep(p, mtu, tick);
    var id := StepShape(p, mtu, tick);
    PumpGroupAbove(p, mtu, tick, low);
    if Rotates(p) {
      HeldAfterRotation(p);
    } else {
      HeldAfterStep(p, q, id, tick);
      KeepsTransitive(held, PumpHeld(p), PumpHeld(q));
      EmittedTrails(p, q, id, tick, sent);
    }
  }

  lemma PumpGroupAbove(p: Pump, mtu: u16, tick: int, low: nat)
    requires p.queue.packets != [] && low <= p.flight.sequence && (p.group.Some? ==> low <= p.group.value)
    ensures PumpStep(p, mtu, tick).group.Some? ==> low <= PumpStep(p, mtu, tick).group.value
  {
    hide Packable, Wrap, Later;
  }

  lemma {:induction false} PumpKeeps(p: Pump, held: multiset<Packet>, sent: set<Outgoing>, low: nat, mtu: u16,
      tick: int, n: nat)
    requires Pumped(p, held, sent, low)
    ensures var q := PumpAll(p, mtu, tick, n);
      && Pumped(q, held, sent, low) && q.flight.sequence <= p.flight.sequence + n
    decreases n
  {
    hide PumpStep, Pumped;
    if n > 0 && !PumpStops(p) {
      PumpStepKeeps(p, held, sent, low, mtu, tick);
      PumpKeeps(PumpStep(p, mtu, tick), held, sent, low, mtu, tick, n - 1);
    }
  }

  // ---------------------------------------------------------------------
  // A whole flush.

  lemma {:induction false} InPackets(items: seq<Item>, i: nat)
    requires i < |items|
    ensures items[i].packet in Packets(items)
    decreases |items|
  {
    if i < |items| - 1 {
      InPackets(items[..|items| - 1], i);
    }
  }

  lemma {:induction false} FromPackets(items: seq<Item>, p: Packet) returns (i: nat)
    requires p in Packets(items)
    ensures i < |items| && items[i].packet == p
    decreases |items|
  {
    if items[|items| - 1].packet == p {
      i := |items| - 1;
    } else {
      i := FromPackets(items[..|items| - 1], p);
    }
  }

  lemma ResentFromFlight(f: Flight, tick: int)
    ensures OutFrom(ResendPending(f, tick).1, Packets(f.items))
  {
    hide Packets;
    ResendFromExact(f, [], tick, 0);
    var out := ResendPending(f, tick).1;
    assert f.retriesPending ==> out == Waiting(f.items, 0);
    forall k | 0 <= k < |out| ensures out[k].packet in Packets(f.items) {
      var j := WaitingFrom(f.items, 0, k);
      InPackets(f.items, j);
    }
  }

  /** Where the pump starts. */
  lemma StartPumped(s: SendState, tick: int, order: seq<nat>, sent: set<Outgoing>, low: nat)
    requires Cached(s.flight) && tick >= 0 && Sorts(Tick(s.flight, tick).items, order)
    requires Trailed(s.flight.items, sent) && WaitsAbove(s.flight.items, low) && low <= s.flight.sequence
    ensures var (f, out) := ResendPending(Arrange(Tick(s.flight, tick), order), tick);
      && Pumped(StartPump(s, f, out), Held(s), sent, low)
      && f.sequence <= s.flight.sequence + |s.flight.items|
  {
    hide Packets, Trailed, WaitsAbove, Emissions, Arrange, ResendPending, Tick, Sorted, Reordered, DeadlineKept, Timed,
      OrderKept, SentCount;
    var f1 := Tick(s.flight, tick);
    TickRenumbers(s.flight, tick);
    TickKeepsCached(s.flight, tick);
    RenumberedKeepsTrails(s.flight, f1, sent, low);
    ArrangeKeepsTrails(f1, order, sent, low);
    ArrangeKeepsCached(f1, order);
    var f2 := Arrange(f1, order);
    ResendKeepsTrails(f2, tick, sent, low);
    StartKeepsPackets(s.flight, tick, order);
    ArrangeKeepsPackets(f1, order);
    ResentFromFlight(f2, tick);
    TickKeepsPackets(s.flight, tick);
  }

  lemma ArrangeKeepsPackets(f: Flight, order: seq<nat>)
    requires Sorts(f.items, order)
    ensures Packets(Arrange(f, order).items) == Packets(f.items) && Arrange(f, order).sequence == f.sequence
  {
    hide Packets, Sorted;
    PermutedPackets(Arrange(f, order).items, f.items);
  }

  lemma TickKeepsPackets(f: Flight, tick: int)
    ensures Packets(Tick(f, tick).items) == Packets(f.items)
  {
    hide Packets, Tick;
    TickRenumbers(f, tick);
    SamePacketsWeigh(f.items, Tick(f, tick).items);
  }

  /**
   A flush lets go of no reliable frame, emits only frames it held, and adds
   to each frame's trail exactly the numbers it emits it under.
   */
  lemma FlushCustody(s: SendState, tick: int, order: seq<nat>, sent: set<Outgoing>, low: nat)
    requires Cached(s.flight) && tick >= 0 && Sorts(Tick(s.flight, tick).items, order)
    requires Trailed(s.flight.items, sent) && WaitsAbove(s.flight.items, low) && low <= s.flight.sequence
    ensures var r := Flush(s, tick, order);
      && Keeps(Held(s), Held(r.state))
      && OutFrom(r.out, Held(s))
      && Trailed(r.state.flight.items, sent + Emissions(r.out))
      && (forall i | 0 <= i < |r.out| :: low <= r.out[i].id)
      && low <= r.state.flight.sequence <= s.flight.sequence + |s.flight.items| + |s.queue.packets|
  {
    hide Packets, Trailed, WaitsAbove, Emissions, Arrange, ResendPending, Tick, Cached, Sorted, Reordered, PumpAll,
      Keeps, OutFrom;
    StartPumped(s, tick, order, sent, low);
    var (f, out) := ResendPending(Arrange(Tick(s.flight, tick), order), tick);
    PumpKeeps(StartPump(s, f, out), Held(s), sent, low, s.mtu, tick, |s.queue.packets|);
  }

  // ---------------------------------------------------------------------
  // Feedback and insertion.

  lemma AnsweredKeepsTrails(f: Flight, h: Flight, g: Flight, sent: set<Outgoing>)
    requires Answered(f, h, g) && Trailed(f.items, sent) && AllSent(f.items)
    ensures Trailed(g.items, sent) && WaitsAbove(g.items, f.sequence)
    ensures f.sequence <= g.sequence && |g.items| <= |f.items|
      && g.sequence + SentCount(g.items) <= f.sequence + |f.items|
  {
    hide Trailed, ItemTrailed, Sublist;
    SublistKeepsTrails(h.items, f.items, sent, f.sequence);
    RenumberedKeepsTrails(h, g, sent, f.sequence);
  }

  /** A frame no longer held after feedback was acknowledged under one of its numbers. */
  lemma AnsweredHeld(f: Flight, h: Flight, g: Flight, ranges: seq<Range>, p: Packet)
    requires Answered(f, h, g) && OnlyAcked(f, h, ranges)
    ensures p in Packets(g.items) ==> p in Packets(f.items)
    ensures p in Packets(f.items) && p !in Packets(g.items) ==>
      exists i | 0 <= i < |f.items| :: f.items[i].packet == p && AckedBy(f.items[i], ranges)
  {
    hide Packets, AckedBy, Spent;
    assert SamePackets(h.items, g.items);
    SamePacketsWeigh(h.items, g.items);
    if p in Packets(g.items) {
      var j := FromPackets(h.items, p);
      var at: seq<nat> :| Selects(at, h.items, f.items);
      InPackets(f.items, at[j]);
    } else if p in Packets(f.items) {
      var i := FromPackets(f.items, p);
      if f.items[i] in h.items {
        var j :| 0 <= j < |h.items| && h.items[j] == f.items[i];
        InPackets(h.items, j);
      }
      assert AckedBy(f.items[i], ranges);
    }
  }

  /** What an accepted message puts into the queue. */
  function Added(s: SendState, mode: Reliability, data: seq<byte>, channel: byte): seq<Packet>
    requires s.mtu > 60 && (Splits(s.mtu, mode, |data|) ==> DivCeil(|data|, s.mtu - 60) <= Fragments.MAX_FRAGMENTS)
  {
    if Splits(s.mtu, mode, |data|) then Pieces(s.counters, data, s.mtu - 60, channel)
    else [Whole(s.counters, mode, data, channel)]
  }

  lemma EnqueueAdds(s: SendState, mode: Reliability, data: seq<byte>, channel: byte)
    requires Enqueue(s, mode, data, channel).1.Ok?
    ensures s.mtu > 60 && (Splits(s.mtu, mode, |data|) ==> DivCeil(|data|, s.mtu - 60) <= Fragments.MAX_FRAGMENTS)
    ensures var t, more := Enqueue(s, mode, data, channel).0, Added(s, mode, data, channel);
      && t.queue.packets == s.queue.packets + more
      && Held(t) == Held(s) + multiset(more)
      && t.flight == s.flight && t.mtu == s.mtu
      && t.counters == Counted(s.counters, mode, channel, |more|)
  {
    hide Packets, Piece, Whole, DivCeil, Counted;
    HeldGrows(s, Added(s, mode, data, channel));
  }
}
