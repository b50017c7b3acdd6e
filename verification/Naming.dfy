// The numbers frames answer to. Unless frames have been packed since the
// flight was last empty, no two of them share a number, so the shortcut for a
// single acknowledged number never differs from the full pass.
module Naming {
  import opened AckSet
  import opened Acks
  import opened Bytes
  import opened Custody
  import opened DeadlineRuns
  import opened Deadlines
  import opened Errors
  import opened Frames
  import opened Outbound
  import opened Packing
  import opened Renumber
  import opened Sender
  import opened Serial

  ghost predicate Answers(item: Item, n: nat) {
    n in Names(item)
  }

  /** No number names both. */
  ghost predicate Apart(a: Item, b: Item) {
    forall n: nat :: !(Answers(a, n) && Answers(b, n))
  }

  ghost predicate AllApart(items: seq<Item>) {
    forall i, j | 0 <= i < j < |items| :: Apart(items[i], items[j])
  }

  ghost predicate NamesBelow(items: seq<Item>, bound: nat) {
    forall i, n: nat | 0 <= i < |items| && Answers(items[i], n) :: n < bound
  }

  /** Every name was handed out; the packing flag stands for a flight, and without it no name is shared. */
  ghost predicate Named(f: Flight) {
    && NamesBelow(f.items, f.sequence)
    && (f.grouped ==> f.items != [])
    && (!f.grouped ==> AllApart(f.items))
  }

  // ---------------------------------------------------------------------
  // Feedback.

  lemma MovedNames(a: Item, b: Item, low: nat, high: nat, n: nat)
    requires Moved(a, b, low, high) && Answers(b, n)
    ensures Answers(a, n) || n == b.id
  {
  }

  lemma RenumberedNames(f: Flight, g: Flight, i: nat, n: nat)
    requires Renumbered(f, g) && i < |g.items| && Answers(g.items[i], n)
    ensures Answers(f.items[i], n) || (Changed(f, g, i) && n == g.items[i].id && f.sequence <= n < g.sequence)
  {
    hide Spent, Answers;
    if Changed(f, g, i) {
      MovedNames(f.items[i], g.items[i], f.sequence, g.sequence, n);
    }
  }

  lemma RenumberedDisjoint(f: Flight, g: Flight, i: nat, j: nat)
    requires Renumbered(f, g) && NamesBelow(f.items, f.sequence) && i < j < |f.items| && Apart(f.items[i], f.items[j])
    ensures Apart(g.items[i], g.items[j])
  {
    hide Answers, Spent;
    forall n: nat ensures !(Answers(g.items[i], n) && Answers(g.items[j], n)) {
      if Answers(g.items[i], n) && Answers(g.items[j], n) {
        RenumberedNames(f, g, i, n);
        RenumberedNames(f, g, j, n);
        assert false;
      }
    }
  }

  lemma RenumberedNamed(f: Flight, g: Flight)
    requires Renumbered(f, g) && Named(f)
    ensures Named(g)
  {
    hide Answers, Spent, Apart;
    forall i, n: nat | 0 <= i < |g.items| && Answers(g.items[i], n) ensures n < g.sequence {
      RenumberedNames(f, g, i, n);
    }
    if !g.grouped {
      forall i, j | 0 <= i < j < |g.items| ensures Apart(g.items[i], g.items[j]) {
        RenumberedDisjoint(f, g, i, j);
      }
    }
  }

  lemma SublistNamed(f: Flight, g: Flight)
    requires Named(f) && Sublist(g.items, f.items) && g.sequence == f.sequence
      && g.grouped == (f.grouped && g.items != [])
    ensures Named(g)
  {
    hide Answers, Apart;
    var at: seq<nat> :| Selects(at, g.items, f.items);
    assert forall i | 0 <= i < |g.items| :: g.items[i] == f.items[at[i]];
    if !g.grouped && g.items != [] {
      forall i, j | 0 <= i < j < |g.items| ensures Apart(g.items[i], g.items[j]) {
        assert at[i] < at[j];
      }
    }
  }

  lemma NamedByNumbers(f: Flight, g: Flight)
    requires Named(f) && SameNumbers(f, g) && f.grouped == g.grouped
    ensures Named(g)
  {
  }

  lemma CompactNamed(s: SendState, ranges: seq<Range>, tick: int)
    requires Cached(s.flight) && Named(s.flight)
    ensures Named(Compact(s, ranges, tick).flight)
  {
    hide Cached, Named, MoveMark, SweepAll, Sublist, InGap;
    var f := s.flight;
    CachedLatency(f);
    SweepKeeps(StartSweep(s), f.items, ranges, tick, f.grouped);
    var w := SweepAll(StartSweep(s), f.items, ranges, tick, f.grouped);
    var h := SetLatency(f.(items := w.kept, grouped := f.grouped && w.kept != []), w.latency);
    SublistNamed(f, h);
    MoveMarkExact(h, f.ackMark, w.newest, tick);
    RenumberedNamed(h, MoveMark(h, f.ackMark, w.newest, tick));
  }

  lemma DirectNamed(s: SendState, number: u24, tick: int)
    requires Named(s.flight)
    ensures Named(AckDirect(s, number, tick).flight)
  {
    hide Named, MoveMark, LatencySample, NameFor, Find, Newer, Rtt, Retire, Removed, InGap;
    var f := s.flight;
    var k := Find(f.items, number, 0);
    if k < |f.items| {
      RemovedIsSublist(f.items, k);
      var items := Removed(f.items, k);
      var h := f.(items := items, grouped := f.grouped && items != []);
      SublistNamed(f, h);
      MoveMarkExact(h, h.ackMark, NameFor(f.items[k], number), tick);
      var moved := MoveMark(h, h.ackMark, NameFor(f.items[k], number), tick);
      RenumberedNamed(h, moved);
      var g := if Newer(number, Wrap(h.ackMark)) then moved else h;
      NamedByNumbers(g, AckDirect(s, number, tick).flight);
    }
  }

  lemma AckNamed(s: SendState, ranges: seq<Range>, tick: int)
    requires Cached(s.flight) && Named(s.flight)
    ensures Named(AckRanges(s, ranges, tick).flight)
  {
    hide Cached, Named, Compact, AckDirect;
    CompactNamed(s, ranges, tick);
    if |ranges| == 1 {
      DirectNamed(s, ranges[0].first, tick);
      CompactNamed(s, Only(ranges[0].first), tick);
    }
  }

  lemma NackNamed(f: Flight, ranges: seq<Range>, tick: int)
    requires Named(f)
    ensures Named(NackRanges(f, ranges, tick))
  {
    hide Named, NackRanges, Covered, Changed;
    NackRangesExact(f, ranges, tick);
    RenumberedNamed(f, NackRanges(f, ranges, tick));
  }

  // ---------------------------------------------------------------------
  // Flushing.

  lemma SameNames(items: seq<Item>, others: seq<Item>)
    requires |items| == |others| && forall i | 0 <= i < |items| :: Names(items[i]) == Names(others[i])
    ensures forall bound: nat | NamesBelow(items, bound) :: NamesBelow(others, bound)
    ensures AllApart(items) ==> AllApart(others)
  {
    hide Names;
    forall i, n: nat | 0 <= i < |items| ensures Answers(others[i], n) == Answers(items[i], n) {
    }
    forall bound: nat | NamesBelow(items, bound) ensures NamesBelow(others, bound) {
      forall i, n: nat | 0 <= i < |others| && Answers(others[i], n) ensures n < bound {
        assert Answers(items[i], n);
      }
    }
    if AllApart(items) {
      forall i, j | 0 <= i < j < |others| ensures Apart(others[i], others[j]) {
        assert Apart(items[i], items[j]);
      }
    }
  }

  lemma ArrangeNamed(f: Flight, order: seq<nat>)
    requires Named(f) && IsPermutation(order, |f.items|)
    ensures Named(Arrange(f, order))
  {
    hide Answers;
    if f.dirty {
      var g := Arrange(f, order);
      assert forall i | 0 <= i < |g.items| :: g.items[i] == f.items[order[i]];
      if !f.grouped {
        forall i, j | 0 <= i < j < |g.items| ensures Apart(g.items[i], g.items[j]) {
          var a, b := order[i], order[j];
          assert if a < b then Apart(f.items[a], f.items[b]) else Apart(f.items[b], f.items[a]);
        }
      }
    }
  }

  lemma ResendNamed(f: Flight, tick: int)
    requires Named(f)
    ensures Named(ResendPending(f, tick).0)
  {
    hide NamesBelow, AllApart, ResendFrom;
    ResendFromExact(f, [], tick, 0);
    var g := ResendPending(f, tick).0;
    forall i | 0 <= i < |f.items| ensures Names(g.items[i]) == Names(f.items[i]) {
    }
    SameNames(f.items, g.items);
  }

  ghost predicate PumpNamed(p: Pump) {
    Named(p.flight) && (p.group.Some? ==> p.group.value < p.flight.sequence)
  }

  lemma FreshItem(items: seq<Item>, item: Item, bound: nat)
    requires NamesBelow(items, bound) && item.past == []
    ensures NamesBelow(items + [item], Max(bound, item.id + 1))
    ensures AllApart(items) && item.id >= bound ==> AllApart(items + [item])
  {
    hide AllApart;
    var longer := items + [item];
    forall i, n: nat | 0 <= i < |longer| && Answers(longer[i], n) ensures n < Max(bound, item.id + 1) {
      assert i < |items| ==> Answers(items[i], n);
    }
    if AllApart(items) && item.id >= bound {
      DisjointSnoc(items, item, bound);
    }
  }

  lemma DisjointSnoc(items: seq<Item>, item: Item, bound: nat)
    requires NamesBelow(items, bound) && item.past == [] && AllApart(items) && item.id >= bound
    ensures AllApart(items + [item])
  {
    var longer := items + [item];
    forall i, j | 0 <= i < j < |longer| ensures Apart(longer[i], longer[j]) {
      if j < |items| {
        assert Apart(items[i], items[j]);
      }
    }
  }

  lemma PumpStepNamed(p: Pump, mtu: u16, tick: int)
    requires p.queue.packets != [] && PumpNamed(p)
    ensures PumpNamed(PumpStep(p, mtu, tick))
  {
    hide PumpStep, Packable, NamesBelow, AllApart;
    var id := StepShape(p, mtu, tick);
    var first := p.queue.packets[0];
    if !Rotates(p) {
      if Packable(first) {
        PackableIsReliable(first);
      }
      FreshItem(p.flight.items, Item(first, id, true, tick, 0, []), p.flight.sequence);
      NamesBelowMore(p.flight.items, p.flight.sequence, p.flight.sequence + 1);
    }
  }

  lemma NamesBelowMore(items: seq<Item>, bound: nat, more: nat)
    requires NamesBelow(items, bound) && bound <= more
    ensures NamesBelow(items, more)
  {
  }

  lemma {:induction false} PumpAllNamed(p: Pump, mtu: u16, tick: int, n: nat)
    requires PumpNamed(p)
    ensures PumpNamed(PumpAll(p, mtu, tick, n))
    decreases n
  {
    hide PumpNamed, PumpStep;
    if n > 0 && !PumpStops(p) {
      PumpStepNamed(p, mtu, tick);
      PumpAllNamed(PumpStep(p, mtu, tick), mtu, tick, n - 1);
    }
  }

  lemma FlushNamed(s: SendState, tick: int, order: seq<nat>)
    requires Named(s.flight) && IsPermutation(order, |s.flight.items|)
    ensures Named(Flush(s, tick, order).state.flight)
  {
    hide Named, Tick, PumpAll, ResendPending, Arrange;
    var f := Tick(s.flight, tick);
    TickRenumbers(s.flight, tick);
    RenumberedNamed(s.flight, f);
    ArrangeNamed(f, order);
    ResendNamed(Arrange(f, order), tick);
    var (h, out) := ResendPending(Arrange(f, order), tick);
    PumpAllNamed(StartPump(s, h, out), s.mtu, tick, |s.queue.packets|);
  }

  // ---------------------------------------------------------------------
  // Runs.

  lemma EnqueueSameFlight(s: SendState, mode: Reliability, data: seq<byte>, channel: byte)
    ensures Enqueue(s, mode, data, channel).0.flight == s.flight
  {
    hide Pieces, Whole, DivCeil;
  }

  lemma NewIsNamed(mtu: u16)
    ensures Named(NewSender(mtu).flight)
  {
  }

  /** Names are shared only in a packed flight, after every step of every run. */
  lemma {:induction false} RunNamed(r: Run, mtu: u16, n: nat)
    requires CachedRun(r) && r.states[0] == NewSender(mtu) && n < |r.states|
    ensures Named(r.states[n].flight)
    decreases n
  {
    hide Cached, Named, Enqueue, Flush, Sorted, Reordered, AckRanges, NackRanges;
    if n == 0 {
      NewIsNamed(mtu);
    } else {
      RunNamed(r, mtu, n - 1);
      NewIsCached(mtu);
      RunKeepsCached(r, n - 1);
      var s, op := r.states[n - 1], r.ops[n - 1];
      assert CachedStep(s, op, r.states[n], r.outs[n - 1], r.orders[n - 1]);
      match op
      case Add(mode, data, channel) => EnqueueSameFlight(s, mode, data, channel);
      case StartBatch => NamedByNumbers(s.flight, EnableCoalescing(s).flight);
      case Acked(ranges, at) => AckNamed(s, ranges, at);
      case Nacked(ranges, at) => NackNamed(s.flight, ranges, at);
      case Flushing(at) => FlushNamed(s, at, r.orders[n - 1]);
    }
  }

  // ---------------------------------------------------------------------
  // One number, at most one frame.

  /** Every number in flight is less than an epoch from every other. */
  ghost predicate NamesWithin(items: seq<Item>, low: int) {
    forall i, n: nat | 0 <= i < |items| && Answers(items[i], n) :: low <= n < low + EPOCH
  }

  lemma NamedIsAnswered(item: Item, number: u24) returns (n: nat)
    requires NamedBy(item, number)
    ensures Answers(item, n) && Wrap(n) == number
  {
    var k :| 0 <= k < |Names(item)| && Wrap(Names(item)[k]) == number;
    n := Names(item)[k];
  }

  lemma NeverBoth(items: seq<Item>, low: int, number: u24, i: nat, j: nat)
    requires AllApart(items) && NamesWithin(items, low) && i < j < |items|
    ensures !(NamedBy(items[i], number) && NamedBy(items[j], number))
  {
    hide Answers, NamedBy, Wrap;
    if NamedBy(items[i], number) && NamedBy(items[j], number) {
      var a := NamedIsAnswered(items[i], number);
      var b := NamedIsAnswered(items[j], number);
      WrapInjective(a, b);
      assert false;
    }
  }

  lemma {:induction false} AtMostOneMatch(items: seq<Item>, number: u24)
    requires forall i, j | 0 <= i < j < |items| :: !(NamedBy(items[i], number) && NamedBy(items[j], number))
    ensures Matches(items, number) <= 1
    decreases |items|
  {
    hide NamedBy;
    if items != [] {
      var front := items[..|items| - 1];
      AtMostOneMatch(front, number);
      if NamedBy(items[|items| - 1], number) {
        NoMatch(front, number);
      }
    }
  }

  lemma SingleMatch(f: Flight, low: int, number: u24)
    requires Named(f) && NamesWithin(f.items, low) && (!f.grouped || |f.items| <= 1)
    ensures Matches(f.items, number) <= 1
  {
    hide AllApart, NamesWithin, NamedBy, NamesBelow, Matches;
    forall i, j | 0 <= i < j < |f.items| ensures !(NamedBy(f.items[i], number) && NamedBy(f.items[j], number)) {
      NeverBoth(f.items, low, number, i, j);
    }
    AtMostOneMatch(f.items, number);
  }

  lemma AckIsOnePass(s: SendState, ranges: seq<Range>, tick: int, low: int)
    requires Named(s.flight) && NamesWithin(s.flight.items, low)
    ensures AckRanges(s, ranges, tick) == Compact(s, ranges, tick)
  {
    hide NamesBelow, AllApart, NamesWithin, AckDirect, Compact, Matches;
    if |ranges| == 1 && ranges[0].first == ranges[0].last && (!s.flight.grouped || |s.flight.items| <= 1) {
      SingleMatch(s.flight, low, ranges[0].first);
      SinglePathAgrees(s, ranges[0].first, tick);
      assert ranges == Only(ranges[0].first);
    }
  }

  /**
   In every run, while the numbers in flight span less than an epoch, an
   acknowledgement does what the one-pass form does, whichever path it takes.
   */
  lemma RunAckIsOnePass(r: Run, mtu: u16, n: nat, ranges: seq<Range>, tick: int, low: int)
    requires CachedRun(r) && r.states[0] == NewSender(mtu) && n < |r.states|
    requires NamesWithin(r.states[n].flight.items, low)
    ensures AckRanges(r.states[n], ranges, tick) == Compact(r.states[n], ranges, tick)
  {
    hide CachedRun, Named, NamesWithin, AckRanges, Compact;
    RunNamed(r, mtu, n);
    AckIsOnePass(r.states[n], ranges, tick, low);
  }
}
