// The byte ledger of the send queue: 128 bytes for every frame it holds, plus
// every unfragmented payload, plus every fragmented payload once for as long as
// any of its fragments is unacknowledged.
module Ledger {
  import opened AckSet
  import opened Acks
  import opened Bytes
  import opened DeadlineRuns
  import opened Deadlines
  import opened Errors
  import opened Fragments
  import opened Frames
  import opened Renumber
  import opened Sender
  import opened Serial
  import opened Sums

  // ---------------------------------------------------------------------
  // Weighing collections of frames.

  ghost function Cost(): Packet -> nat {
    (p: Packet) => FRAME_BUDGET + if p.frame.IsFragment() then 0 else |p.frame.data|
  }

  /** Counts the fragments of one message. */
  ghost function Of(message: nat): Packet -> nat {
    (p: Packet) => if p.frame.IsFragment() && p.message == message then 1 else 0
  }

  /** Counts frames that are sent once and forgotten. */
  ghost function Loose(): Packet -> nat {
    (p: Packet) => if p.frame.IsReliable() then 0 else 1
  }

  ghost function Payloads(shared: map<nat, Share>): map<nat, nat> {
    map m | m in shared :: shared[m].bytes
  }

  // ---------------------------------------------------------------------
  // The balance.

  ghost predicate Shares(held: multiset<Packet>, shared: map<nat, Share>) {
    && (forall m: nat :: m in shared <==> Total(held, Of(m)) > 0)
    && (forall m <- shared :: shared[m].remaining == Total(held, Of(m)))
  }

  ghost predicate Balanced(held: multiset<Packet>, ledger: Ledger) {
    && ledger.buffered == Total(held, Cost()) + Sum(Payloads(ledger.shared))
    && Shares(held, ledger.shared)
  }

  /** A message with a fragment among the held frames. */
  ghost predicate HasFragment(held: multiset<Packet>, message: nat) {
    exists p <- held :: p.frame.IsFragment() && p.message == message
  }

  lemma {:induction false} HasFragmentExact(held: multiset<Packet>, message: nat)
    ensures HasFragment(held, message) <==> Total(held, Of(message)) > 0
    decreases |held|
  {
    if |held| > 0 {
      var q := TotalUnfold(held, Of(message));
      HasFragmentExact(held - multiset{q}, message);
      if Of(message)(q) == 0 && HasFragment(held, message) {
        var p :| p in held && p.frame.IsFragment() && p.message == message;
        assert p in held - multiset{q};
      }
    }
  }

  /** Shares go away or lose fragments, and their payloads stay what they were. */
  ghost predicate Thinned(shared: map<nat, Share>, after: map<nat, Share>) {
    forall m <- after :: m in shared && after[m].bytes == shared[m].bytes
  }

  lemma AddWhole(held: multiset<Packet>, ledger: Ledger, p: Packet)
    requires Balanced(held, ledger) && !p.frame.IsFragment()
    ensures Balanced(held + multiset{p}, ledger.(buffered := ledger.buffered + FRAME_BUDGET + |p.frame.data|))
  {
    hide Sum, Total;
    TotalAdd(held, p, Cost());
    forall m: nat ensures Total(held + multiset{p}, Of(m)) == Total(held, Of(m)) {
      TotalAdd(held, p, Of(m));
    }
  }

  lemma RemoveWhole(held: multiset<Packet>, ledger: Ledger, p: Packet)
    requires Balanced(held, ledger) && p in held && !p.frame.IsFragment()
    ensures Balanced(held - multiset{p}, ledger.(buffered := ledger.buffered - |p.frame.data| - FRAME_BUDGET))
  {
    hide Sum, Total;
    TotalRemove(held, p, Cost());
    forall m: nat ensures Total(held - multiset{p}, Of(m)) == Total(held, Of(m)) {
      TotalRemove(held, p, Of(m));
    }
  }

  lemma SharesRemove(held: multiset<Packet>, ledger: Ledger, p: Packet)
    requires Shares(held, ledger.shared) && p in held && p.frame.IsFragment()
    ensures p.message in ledger.shared
    ensures Shares(held - multiset{p}, Retire(ledger, p).0.shared)
  {
    hide Total;
    forall m: nat
      ensures Total(held - multiset{p}, Of(m)) == Total(held, Of(m)) - (if m == p.message then 1 else 0)
    {
      TotalRemove(held, p, Of(m));
    }
  }

  lemma PayloadsRemove(shared: map<nat, Share>, m: nat)
    requires m in shared
    ensures Sum(Payloads(shared)) == shared[m].bytes + Sum(Payloads(shared - {m}))
  {
    SumRemove(Payloads(shared), m);
    assert Payloads(shared - {m}) == Payloads(shared) - {m};
  }

  lemma PayloadsKeep(shared: map<nat, Share>, m: nat, share: Share)
    requires m in shared && share.bytes == shared[m].bytes
    ensures Payloads(shared[m := share]) == Payloads(shared)
  {
  }

  lemma RetireFragment(held: multiset<Packet>, ledger: Ledger, p: Packet)
    requires Balanced(held, ledger) && p in held && p.frame.IsFragment()
    ensures var (after, bytes) := Retire(ledger, p);
      && Balanced(held - multiset{p}, after.(buffered := ledger.buffered - bytes - FRAME_BUDGET))
  {
    SharesRemove(held, ledger, p);
    TotalRemove(held, p, Cost());
    hide Sum, Total, Shares, Payloads, Of;
    var share := ledger.shared[p.message];
    PayloadsRemove(ledger.shared, p.message);
    if share.remaining > 1 {
      PayloadsKeep(ledger.shared, p.message, share.(remaining := share.remaining - 1));
    }
  }

  /**
   Retiring a held frame gives back its own payload, or a fragmented one exactly
   when no other fragment of it is held, and never more than is buffered.
   */
  lemma RetireBalanced(held: multiset<Packet>, ledger: Ledger, p: Packet)
    requires Balanced(held, ledger) && p in held
    ensures var (after, bytes) := Retire(ledger, p);
      && Balanced(held - multiset{p}, after.(buffered := ledger.buffered - bytes - FRAME_BUDGET))
      && ledger.buffered - bytes - FRAME_BUDGET >= 0
      && after.buffered == ledger.buffered
      && (p.frame.IsFragment() ==> p.message in ledger.shared)
      && bytes == (if !p.frame.IsFragment() then |p.frame.data|
                   else if HasFragment(held - multiset{p}, p.message) then 0
                   else ledger.shared[p.message].bytes)
  {
    hide Total, Sum;
    if p.frame.IsFragment() {
      SharesRemove(held, ledger, p);
      TotalRemove(held, p, Of(p.message));
      HasFragmentExact(held - multiset{p}, p.message);
    }
    if !p.frame.IsFragment() {
      RemoveWhole(held, ledger, p);
    } else {
      RetireFragment(held, ledger, p);
    }
    BalanceNonNegative(held - multiset{p},
      Retire(ledger, p).0.(buffered := ledger.buffered - Retire(ledger, p).1 - FRAME_BUDGET));
  }

  lemma BalanceNonNegative(held: multiset<Packet>, ledger: Ledger)
    requires Balanced(held, ledger)
    ensures ledger.buffered >= 0
  {
  }

  // ---------------------------------------------------------------------
  // What the queue holds.

  ghost function Packets(items: seq<Item>): multiset<Packet> {
    if items == [] then multiset{} else Packets(items[..|items| - 1]) + multiset{items[|items| - 1].packet}
  }

  lemma PacketsSnoc(items: seq<Item>, item: Item)
    ensures Packets(items + [item]) == Packets(items) + multiset{item.packet}
  {
    assert (items + [item])[..|items|] == items;
  }

  lemma {:induction false} PacketsConcat(a: seq<Item>, b: seq<Item>)
    ensures Packets(a + b) == Packets(a) + Packets(b)
    decreases |b|
  {
    if b == [] {
      assert a + b == a;
    } else {
      assert (a + b)[..|a + b| - 1] == a + b[..|b| - 1];
      PacketsConcat(a, b[..|b| - 1]);
    }
  }

  lemma PacketsRemoved(items: seq<Item>, k: nat)
    requires k < |items|
    ensures Packets(items) == Packets(Removed(items, k)) + multiset{items[k].packet}
  {
    hide Packets;
    var a, b := items[..k], items[k + 1..];
    PacketsSnoc(a, items[k]);
    PacketsConcat(a + [items[k]], b);
    PacketsConcat(a, b);
    assert items == a + [items[k]] + b;
  }

  ghost predicate SamePackets(a: seq<Item>, b: seq<Item>) {
    |a| == |b| && forall i | 0 <= i < |a| :: a[i].packet == b[i].packet
  }

  lemma {:induction false} SamePacketsWeigh(a: seq<Item>, b: seq<Item>)
    requires SamePackets(a, b)
    ensures Packets(a) == Packets(b)
    decreases |a|
  {
    if a != [] {
      SamePacketsWeigh(a[..|a| - 1], b[..|b| - 1]);
    }
  }

  /** Sorting moves packets around and loses none. */
  lemma {:induction false} PermutedPackets(a: seq<Item>, b: seq<Item>)
    requires multiset(a) == multiset(b)
    ensures Packets(a) == Packets(b)
    decreases |a|
  {
    hide Packets;
    if a == [] {
      assert |multiset(a)| == 0 && |multiset(b)| == |b|;
    } else {
      var n := |a| - 1;
      var k := MatchLast(a, b);
      PacketsRemoved(a, n);
      PacketsRemoved(b, k);
      PermutedPackets(Removed(a, n), Removed(b, k));
    }
  }

  lemma MatchLast(a: seq<Item>, b: seq<Item>) returns (k: nat)
    requires a != [] && multiset(a) == multiset(b)
    ensures k < |b| && b[k] == a[|a| - 1]
    ensures multiset(Removed(b, k)) == multiset(Removed(a, |a| - 1))
  {
    var n := |a| - 1;
    assert a[n] in multiset(b);
    k :| 0 <= k < |b| && b[k] == a[n];
    assert a == a[..n] + [a[n]] + a[n + 1..];
    assert b == b[..k] + [b[k]] + b[k + 1..];
    assert multiset(Removed(a, n)) == multiset(a) - multiset{a[n]};
  }

  /** Every frame the queue is responsible for. */
  ghost function Held(s: SendState): multiset<Packet> {
    multiset(s.queue.packets) + Packets(s.flight.items)
  }

  /** Fragments are always reliable. */
  ghost predicate FragmentsReliable(packets: seq<Packet>) {
    forall i | 0 <= i < |packets| && packets[i].frame.IsFragment() :: packets[i].frame.IsReliable()
  }

  ghost predicate Ledgered(s: SendState) {
    && Balanced(Held(s), s.ledger)
    && s.ledger.buffered <= MAX_BUFFERED
    && (forall m <- s.ledger.shared :: m < s.counters.compound)
    && s.queue.unreliable == Total(multiset(s.queue.packets), Loose())
    && FragmentsReliable(s.queue.packets)
  }

  lemma NewIsLedgered(mtu: u16)
    ensures Ledgered(NewSender(mtu))
  {
    var s := NewSender(mtu);
    assert Held(s) == multiset{};
    assert Payloads(s.ledger.shared) == map[];
  }

  // ---------------------------------------------------------------------
  // Acknowledgement.

  /** A ledger with released bytes taken off. */
  function Released(w: Sweep): Ledger {
    w.ledger.(buffered := w.ledger.buffered - w.released)
  }

  /** Sweeping one more item: kept items stay held, retired ones release their share. */
  lemma SweepItemBalanced(base: multiset<Packet>, w: Sweep, item: Item, ranges: seq<Range>, tick: int, grouped: bool)
    requires Balanced(base + multiset{item.packet} + Packets(w.kept), Released(w))
    ensures var w' := SweepItem(w, item, ranges, tick, grouped);
      && Balanced(base + Packets(w'.kept), Released(w'))
      && w'.ledger.buffered == w.ledger.buffered
      && Thinned(w.ledger.shared, w'.ledger.shared)
  {
    hide Balanced, AckedName, LatencySample, Newer, Packets, Rtt;
    var held := base + multiset{item.packet} + Packets(w.kept);
    if AckedName(item, ranges).None? {
      PacketsSnoc(w.kept, item);
      assert held == base + (Packets(w.kept) + multiset{item.packet});
    } else {
      RetireBalanced(held, Released(w), item.packet);
      assert held - multiset{item.packet} == base + Packets(w.kept);
    }
  }

  lemma {:induction false} SweepBalanced(base: multiset<Packet>, w: Sweep, items: seq<Item>, ranges: seq<Range>,
      tick: int, grouped: bool)
    requires w.kept == [] && w.released == 0 && Balanced(base + Packets(items), w.ledger)
    ensures var w' := SweepAll(w, items, ranges, tick, grouped);
      && Balanced(base + Packets(w'.kept), Released(w'))
      && w'.ledger.buffered == w.ledger.buffered
      && Thinned(w.ledger.shared, w'.ledger.shared)
    decreases |items|
  {
    hide Balanced, SweepItem;
    if items == [] {
      assert Released(w) == w.ledger;
    } else {
      var front, last := items[..|items| - 1], items[|items| - 1];
      assert base + multiset{last.packet} + Packets(front) == base + Packets(items);
      SweepBalanced(base + multiset{last.packet}, w, front, ranges, tick, grouped);
      SweepItemBalanced(base, SweepAll(w, front, ranges, tick, grouped), last, ranges, tick, grouped);
    }
  }

  lemma MarkKeepsPackets(f: Flight, previous: int, newest: int, tick: int)
    ensures Packets(MoveMark(f, previous, newest, tick).items) == Packets(f.items)
  {
    MoveMarkExact(f, previous, newest, tick);
    SamePacketsWeigh(f.items, MoveMark(f, previous, newest, tick).items);
  }

  lemma CompactLedgered(s: SendState, ranges: seq<Range>, tick: int)
    requires Ledgered(s)
    ensures Ledgered(Compact(s, ranges, tick))
    ensures Compact(s, ranges, tick).ledger.buffered <= s.ledger.buffered
    ensures Thinned(s.ledger.shared, Compact(s, ranges, tick).ledger.shared)
      && Compact(s, ranges, tick).counters == s.counters
  {
    hide Balanced, SweepAll, MoveMark, Packets, Total;
    var f := s.flight;
    SweepBalanced(multiset(s.queue.packets), StartSweep(s), f.items, ranges, tick, f.grouped);
    var w := SweepAll(StartSweep(s), f.items, ranges, tick, f.grouped);
    var f1 := SetLatency(f.(items := w.kept, grouped := f.grouped && w.kept != []), w.latency);
    MarkKeepsPackets(f1, f.ackMark, w.newest, tick);
  }

  lemma HeldRemoved(s: SendState, k: nat)
    requires k < |s.flight.items|
    ensures s.flight.items[k].packet in Held(s)
    ensures Held(s) - multiset{s.flight.items[k].packet}
         == multiset(s.queue.packets) + Packets(Removed(s.flight.items, k))
  {
    hide Packets, Removed;
    PacketsRemoved(s.flight.items, k);
  }

  lemma RetireShrinks(ledger: Ledger, p: Packet)
    ensures Thinned(ledger.shared, Retire(ledger, p).0.shared)
  {
  }

  lemma AckDirectLedgered(s: SendState, number: u24, tick: int)
    requires Ledgered(s)
    ensures Ledgered(AckDirect(s, number, tick))
    ensures AckDirect(s, number, tick).ledger.buffered <= s.ledger.buffered
    ensures Thinned(s.ledger.shared, AckDirect(s, number, tick).ledger.shared)
      && AckDirect(s, number, tick).counters == s.counters
  {
    hide Balanced, MoveMark, LatencySample, NameFor, Find, Packets, Removed, Newer, Rtt, Total, Retire,
      FragmentsReliable;
    var f := s.flight;
    var k := Find(f.items, number, 0);
    if k < |f.items| {
      var items, p := Removed(f.items, k), f.items[k].packet;
      HeldRemoved(s, k);
      RetireBalanced(Held(s), s.ledger, p);
      RetireShrinks(s.ledger, p);
      var f1 := f.(items := items, grouped := f.grouped && items != []);
      MarkKeepsPackets(f1, f.ackMark, NameFor(f.items[k], number), tick);
    }
  }

  /** Acknowledgements only ever release what the retired frames hold. */
  lemma AckLedgered(s: SendState, ranges: seq<Range>, tick: int)
    requires Ledgered(s)
    ensures Ledgered(AckRanges(s, ranges, tick))
    ensures AckRanges(s, ranges, tick).ledger.buffered <= s.ledger.buffered
    ensures Thinned(s.ledger.shared, AckRanges(s, ranges, tick).ledger.shared)
      && AckRanges(s, ranges, tick).counters == s.counters
  {
    hide Ledgered, Compact, AckDirect;
    CompactLedgered(s, ranges, tick);
    if |ranges| == 1 {
      CompactLedgered(s, [Range(ranges[0].first, ranges[0].first)], tick);
      AckDirectLedgered(s, ranges[0].first, tick);
    }
  }

  lemma NackLedgered(s: SendState, ranges: seq<Range>, tick: int)
    requires Ledgered(s)
    ensures Ledgered(s.(flight := NackRanges(s.flight, ranges, tick)))
  {
    NackRangesExact(s.flight, ranges, tick);
    SamePacketsWeigh(s.flight.items, NackRanges(s.flight, ranges, tick).items);
  }

  // ---------------------------------------------------------------------
  // Insertion.

  lemma {:induction false} TotalAddMany(held: multiset<Packet>, more: seq<Packet>, weight: Packet -> nat, each: nat)
    requires forall i | 0 <= i < |more| :: weight(more[i]) == each
    ensures Total(held + multiset(more), weight) == Total(held, weight) + |more| * each
    decreases |more|
  {
    hide Total;
    if more == [] {
      assert held + multiset(more) == held;
    } else {
      var front, last := more[..|more| - 1], more[|more| - 1];
      TotalAddMany(held, front, weight, each);
      TotalAdd(held + multiset(front), last, weight);
      assert more == front + [last];
      assert held + multiset(front) + multiset{last} == held + multiset(more);
    }
  }

  ghost predicate FragmentsOf(more: seq<Packet>, message: nat) {
    forall i | 0 <= i < |more| ::
      more[i].frame.IsFragment() && more[i].frame.IsReliable() && more[i].message == message
  }

  /** A fragmented message adds its frames' cost and its payload once. */
  lemma AddFragments(held: multiset<Packet>, ledger: Ledger, more: seq<Packet>, message: nat, bytes: nat)
    requires Balanced(held, ledger) && message !in ledger.shared && more != [] && FragmentsOf(more, message)
    ensures Balanced(held + multiset(more),
                     Ledger(ledger.buffered + |more| * FRAME_BUDGET + bytes,
                       ledger.shared[message := Share(|more|, bytes)]))
  {
    hide Total, Sum;
    var shared := ledger.shared[message := Share(|more|, bytes)];
    TotalAddMany(held, more, Cost(), FRAME_BUDGET);
    SumAdd(Payloads(ledger.shared), message, bytes);
    assert Payloads(shared) == Payloads(ledger.shared)[message := bytes];
    forall m: nat
      ensures Total(held + multiset(more), Of(m)) == Total(held, Of(m)) + (if m == message then |more| else 0)
    {
      TotalAddMany(held, more, Of(m), if m == message then 1 else 0);
    }
  }

  lemma PiecesAreFragments(c: Counters, data: seq<byte>, size: nat, channel: byte)
    requires size > 0 && DivCeil(|data|, size) <= MAX_FRAGMENTS
    ensures FragmentsOf(Pieces(c, data, size, channel), c.compound)
  {
    hide Chunk, DivCeil, Wrap;
  }

  lemma WholeIsNoFragment(c: Counters, mode: Reliability, data: seq<byte>, channel: byte)
    ensures var p := Whole(c, mode, data, channel);
      !p.frame.IsFragment() && (p.frame.IsReliable() <==> ModeReliable(mode)) && p.frame.data == data
  {
    hide Wrap;
  }

  ghost predicate QueueCounted(q: Queue) {
    q.unreliable == Total(multiset(q.packets), Loose()) && FragmentsReliable(q.packets)
  }

  lemma QueueGrows(q: Queue, more: seq<Packet>, loose: nat)
    requires QueueCounted(q) && FragmentsReliable(more)
    requires forall i | 0 <= i < |more| :: Loose()(more[i]) == loose
    ensures QueueCounted(Queue(q.packets + more, q.unreliable + |more| * loose))
  {
    hide Total;
    assert multiset(q.packets + more) == multiset(q.packets) + multiset(more);
    TotalAddMany(multiset(q.packets), more, Loose(), loose);
  }

  lemma HeldGrows(s: SendState, more: seq<Packet>)
    ensures multiset(s.queue.packets + more) + Packets(s.flight.items) == Held(s) + multiset(more)
  {
    hide Packets;
    assert multiset(s.queue.packets + more) == multiset(s.queue.packets) + multiset(more);
  }

  /** An accepted message reserves exactly what its frames will hold. */
  lemma EnqueueLedgered(s: SendState, mode: Reliability, data: seq<byte>, channel: byte)
    requires Ledgered(s)
    ensures Ledgered(Enqueue(s, mode, data, channel).0)
  {
    hide Ledgered, Piece, Whole, DivCeil;
    if Enqueue(s, mode, data, channel).1.Ok? {
      var c := s.counters;
      if Splits(s.mtu, mode, |data|) {
        SplitLedgered(s, data, channel);
      } else {
        var p := Whole(c, mode, data, channel);
        WholeIsNoFragment(c, mode, data, channel);
        WholeLedgered(s, p, Counted(c, mode, channel, 1));
      }
    }
  }

  lemma WholeLedgered(s: SendState, p: Packet, c: Counters)
    requires Ledgered(s) && !p.frame.IsFragment() && c.compound == s.counters.compound
    requires s.ledger.buffered + FRAME_BUDGET + |p.frame.data| <= MAX_BUFFERED
    ensures var unreliable := if p.frame.IsReliable() then s.queue.unreliable else s.queue.unreliable + 1;
      var buffered := s.ledger.buffered + FRAME_BUDGET + |p.frame.data|;
      Ledgered(s.(queue := Queue(s.queue.packets + [p], unreliable), ledger := s.ledger.(buffered := buffered),
                  counters := c))
  {
    hide Balanced, Packets, Total;
    assert QueueCounted(s.queue);
    QueueGrows(s.queue, [p], Loose()(p));
    HeldGrows(s, [p]);
    AddWhole(Held(s), s.ledger, p);
    assert multiset([p]) == multiset{p};
  }

  lemma SplitLedgered(s: SendState, data: seq<byte>, channel: byte)
    requires Ledgered(s) && s.mtu > 60 && |data| > s.mtu - 60 && DivCeil(|data|, s.mtu - 60) <= MAX_FRAGMENTS
    requires s.ledger.buffered + DivCeil(|data|, s.mtu - 60) * FRAME_BUDGET + |data| <= MAX_BUFFERED
    ensures var c, pieces := s.counters, Pieces(s.counters, data, s.mtu - 60, channel);
      Ledgered(s.(queue := s.queue.(packets := s.queue.packets + pieces),
                  ledger := Ledger(s.ledger.buffered + |pieces| * FRAME_BUDGET + |data|,
                                   s.ledger.shared[c.compound := Share(|pieces|, |data|)]),
                  counters := Counted(c, ReliableOrdered, channel, |pieces|)))
  {
    hide Balanced, Packets, Total, Piece;
    var c, pieces := s.counters, Pieces(s.counters, data, s.mtu - 60, channel);
    PiecesAreFragments(c, data, s.mtu - 60, channel);
    SplitsInTwo(|data|, s.mtu - 60);
    assert QueueCounted(s.queue);
    QueueGrows(s.queue, pieces, 0);
    HeldGrows(s, pieces);
    AddFragments(Held(s), s.ledger, pieces, c.compound, |data|);
  }

  lemma SplitsInTwo(length: nat, size: nat)
    requires 0 < size < length
    ensures DivCeil(length, size) >= 2
  {
    if DivCeil(length, size) <= 1 {
      MulMonotone(DivCeil(length, size), 1, size);
    }
  }

  // ---------------------------------------------------------------------
  // Flushing.

  ghost predicate PumpLedgered(p: Pump, shared: map<nat, Share>) {
    && Balanced(multiset(p.queue.packets) + Packets(p.flight.items), Ledger(p.buffered, shared))
    && QueueCounted(p.queue)
  }

  lemma QueueShrinks(q: Queue)
    requires QueueCounted(q) && q.packets != []
    ensures QueueCounted(Queue(q.packets[1..], q.unreliable - Loose()(q.packets[0])))
    ensures multiset(q.packets) == multiset(q.packets[1..]) + multiset{q.packets[0]}
  {
    hide Total;
    var rest := q.packets[1..];
    assert q.packets == [q.packets[0]] + rest;
    assert multiset(q.packets) == multiset(rest) + multiset{q.packets[0]};
    TotalAdd(multiset(rest), q.packets[0], Loose());
  }

  lemma FirstIsWholeOrReliable(q: Queue)
    requires QueueCounted(q) && q.packets != []
    ensures q.packets[0].frame.IsReliable() || !q.packets[0].frame.IsFragment()
    ensures Loose()(q.packets[0]) == if q.packets[0].frame.IsReliable() then 0 else 1
  {
  }

  lemma RotateLedgered(p: Pump, shared: map<nat, Share>)
    requires PumpLedgered(p, shared) && p.queue.packets != [] && p.queue.packets[0].frame.IsReliable()
    ensures PumpLedgered(p.(queue := p.queue.(packets := p.queue.packets[1..] + [p.queue.packets[0]])), shared)
  {
    hide Balanced, QueueCounted;
    QueueShrinks(p.queue);
    var rest, first := p.queue.packets[1..], p.queue.packets[0];
    QueueGrows(Queue(rest, p.queue.unreliable), [first], 0) by {
      assert !first.frame.IsFragment() || first.frame.IsReliable();
    }
    assert multiset(rest + [first]) == multiset(rest) + multiset{first};
  }

  /** Emitting a frame moves it into the flight, or lets it go when it is unreliable. */
  lemma EmitLedgered(p: Pump, q: Pump, shared: map<nat, Share>, id: nat, tick: int)
    requires PumpLedgered(p, shared) && p.queue.packets != []
    requires q == p.(queue := p.queue.(packets := p.queue.packets[1..]), flight := q.flight, group := q.group,
                     groupBytes := q.groupBytes, groupFrames := q.groupFrames, coalesced := q.coalesced)
    requires q.flight.items == p.flight.items
    ensures PumpLedgered(Emit(q, p.queue.packets[0], id, tick), shared)
    ensures Emit(q, p.queue.packets[0], id, tick).buffered <= p.buffered
  {
    hide Balanced, QueueCounted, Packets, Wrap, Loose, Later;
    var first, rest := p.queue.packets[0], p.queue.packets[1..];
    FirstIsWholeOrReliable(p.queue);
    QueueShrinks(p.queue);
    var held := multiset(p.queue.packets) + Packets(p.flight.items);
    if first.frame.IsReliable() {
      PacketsSnoc(p.flight.items, Item(first, id, true, tick, 0, []));
      assert held == multiset(rest) + (Packets(p.flight.items) + multiset{first});
    } else {
      RemoveWhole(held, Ledger(p.buffered, shared), first);
      assert held - multiset{first} == multiset(rest) + Packets(p.flight.items);
    }
  }

  lemma PumpStepLedgered(p: Pump, shared: map<nat, Share>, mtu: u16, tick: int)
    requires PumpLedgered(p, shared) && p.queue.packets != []
    ensures PumpLedgered(PumpStep(p, mtu, tick), shared)
    ensures PumpStep(p, mtu, tick).buffered <= p.buffered
  {
    hide PumpLedgered, Emit, Joins, Packable;
    var packet := p.queue.packets[0];
    var rest := p.(queue := p.queue.(packets := p.queue.packets[1..]));
    if packet.frame.IsReliable() && |p.flight.items| >= MAX_IN_FLIGHT {
      RotateLedgered(p, shared);
    } else {
      var (q, id) := Assign(rest, packet, mtu);
      EmitLedgered(p, q, shared, id, tick);
    }
  }

  lemma {:induction false} PumpAllLedgered(p: Pump, shared: map<nat, Share>, mtu: u16, tick: int, n: nat)
    requires PumpLedgered(p, shared)
    ensures PumpLedgered(PumpAll(p, mtu, tick, n), shared)
    ensures PumpAll(p, mtu, tick, n).buffered <= p.buffered
    decreases n
  {
    hide PumpLedgered, PumpStep;
    if n > 0 && !PumpStops(p) {
      PumpStepLedgered(p, shared, mtu, tick);
      PumpAllLedgered(PumpStep(p, mtu, tick), shared, mtu, tick, n - 1);
    }
  }

  /** Nothing a flush does before it pumps changes which frames are in flight. */
  lemma StartKeepsPackets(f: Flight, tick: int, order: seq<nat>)
    requires Sorts(Tick(f, tick).items, order)
    ensures Packets(ResendPending(Arrange(Tick(f, tick), order), tick).0.items) == Packets(f.items)
  {
    hide Packets, TickFrom, ResendFrom, Sorted, IsPermutation;
    var f1 := Tick(f, tick);
    TickRenumbers(f, tick);
    SamePacketsWeigh(f.items, f1.items);
    var f2 := Arrange(f1, order);
    PermutedPackets(f2.items, f1.items);
    ResendFromExact(f2, [], tick, 0);
    SamePacketsWeigh(f2.items, ResendPending(f2, tick).0.items);
  }

  lemma FlushLedgered(s: SendState, tick: int, order: seq<nat>)
    requires Ledgered(s) && Sorts(Tick(s.flight, tick).items, order)
    ensures Ledgered(Flush(s, tick, order).state)
    ensures Flush(s, tick, order).state.ledger.shared == s.ledger.shared
  {
    hide Packets, Balanced, PumpAll, Tick, Arrange, ResendPending, Total, Sorted, Reordered;
    StartKeepsPackets(s.flight, tick, order);
    var (f, out) := ResendPending(Arrange(Tick(s.flight, tick), order), tick);
    PumpAllLedgered(StartPump(s, f, out), s.ledger.shared, s.mtu, tick, |s.queue.packets|);
  }

  // ---------------------------------------------------------------------
  // What the recorded bytes stand for.

  /** The payloads cut into fragments so far, after one more insertion. */
  ghost function CutBy(s: SendState, mode: Reliability, data: seq<byte>, channel: byte, cuts: seq<seq<byte>>)
    : seq<seq<byte>>
  {
    if Enqueue(s, mode, data, channel).1.Ok? && Splits(s.mtu, mode, |data|) then cuts + [data] else cuts
  }

  /** Compound numbers count the cut payloads, and every share records the length of its own. */
  ghost predicate Recorded(s: SendState, cuts: seq<seq<byte>>) {
    && s.counters.compound == |cuts|
    && forall m <- s.ledger.shared :: m < |cuts| && s.ledger.shared[m].bytes == |cuts[m]|
  }

  /** Lengths of the cut payloads with a fragment among the held frames. */
  ghost function Unfinished(held: multiset<Packet>, cuts: seq<seq<byte>>): map<nat, nat> {
    map m: nat | m < |cuts| && HasFragment(held, m) :: |cuts[m]|
  }

  /** 128 bytes for every frame, every whole payload, and every cut payload once while a fragment of it is held. */
  ghost function Owed(held: multiset<Packet>, cuts: seq<seq<byte>>): nat {
    Total(held, Cost()) + Sum(Unfinished(held, cuts))
  }

  lemma RecordedIsOwed(held: multiset<Packet>, ledger: Ledger, cuts: seq<seq<byte>>)
    requires Balanced(held, ledger)
    requires forall m <- ledger.shared :: m < |cuts| && ledger.shared[m].bytes == |cuts[m]|
    ensures ledger.buffered == Owed(held, cuts)
  {
    hide Total, Sum, HasFragment;
    forall m: nat ensures m in ledger.shared <==> m in Unfinished(held, cuts) {
      HasFragmentExact(held, m);
    }
    assert Payloads(ledger.shared) == Unfinished(held, cuts);
  }

  /** Retiring a frame gives back exactly what holding it cost. */
  lemma RetireReturns(held: multiset<Packet>, ledger: Ledger, p: Packet, cuts: seq<seq<byte>>)
    requires Balanced(held, ledger) && p in held
    requires forall m <- ledger.shared :: m < |cuts| && ledger.shared[m].bytes == |cuts[m]|
    ensures Retire(ledger, p).1 + FRAME_BUDGET == Owed(held, cuts) - Owed(held - multiset{p}, cuts)
  {
    hide Balanced, Owed;
    var (after, bytes) := Retire(ledger, p);
    RetireBalanced(held, ledger, p);
    RetireShrinks(ledger, p);
    RecordedIsOwed(held, ledger, cuts);
    RecordedIsOwed(held - multiset{p}, after.(buffered := ledger.buffered - bytes - FRAME_BUDGET), cuts);
  }

  lemma EnqueueRecords(s: SendState, mode: Reliability, data: seq<byte>, channel: byte, cuts: seq<seq<byte>>)
    requires Recorded(s, cuts)
    ensures Recorded(Enqueue(s, mode, data, channel).0, CutBy(s, mode, data, channel, cuts))
  {
    hide Piece, Whole;
    if Enqueue(s, mode, data, channel).1.Ok? && Splits(s.mtu, mode, |data|) {
      SplitsInTwo(|data|, s.mtu - 60);
    }
  }

  /** An accepted message adds exactly what its frames cost. */
  lemma EnqueueOwes(s: SendState, mode: Reliability, data: seq<byte>, channel: byte, cuts: seq<seq<byte>>)
    requires Ledgered(s) && Recorded(s, cuts)
    ensures var t, cuts' := Enqueue(s, mode, data, channel).0, CutBy(s, mode, data, channel, cuts);
      Ledgered(t) && Recorded(t, cuts') && t.ledger.buffered == Owed(Held(t), cuts')
  {
    hide Enqueue, CutBy, Owed, Balanced, Held;
    EnqueueLedgered(s, mode, data, channel);
    EnqueueRecords(s, mode, data, channel, cuts);
    var t := Enqueue(s, mode, data, channel).0;
    RecordedIsOwed(Held(t), t.ledger, CutBy(s, mode, data, channel, cuts));
  }

  // ---------------------------------------------------------------------
  // Whole runs.

  /** The payloads cut by the first `n` steps. */
  ghost function Cuts(r: Run, n: nat): seq<seq<byte>>
    requires Shaped(r) && n <= |r.ops|
  {
    if n == 0 then []
    else if r.ops[n - 1].Add? then
      var op := r.ops[n - 1];
      CutBy(r.states[n - 1], op.mode, op.data, op.channel, Cuts(r, n - 1))
    else Cuts(r, n - 1)
  }

  lemma QuietLedgered(s: SendState, op: Op)
    requires Ledgered(s) && !op.Flushing?
    ensures Ledgered(Quiet(s, op))
    ensures !op.Add? ==> Thinned(s.ledger.shared, Quiet(s, op).ledger.shared) && Quiet(s, op).counters == s.counters
  {
    hide AckRanges, NackRanges, Enqueue, Packets, Total, Balanced;
    match op
    case Add(mode, data, channel) => EnqueueLedgered(s, mode, data, channel);
    case StartBatch =>
    case Acked(ranges, at) => AckLedgered(s, ranges, at);
    case Nacked(ranges, at) => NackLedgered(s, ranges, at);
  }

  lemma StepLedgered(r: Run, n: nat)
    requires CachedRun(r) && n < |r.ops| && Ledgered(r.states[n]) && Recorded(r.states[n], Cuts(r, n))
    ensures Ledgered(r.states[n + 1]) && Recorded(r.states[n + 1], Cuts(r, n + 1))
  {
    hide Ledgered, Sorts, PumpAll, Tick, ResendPending, Arrange, AckRanges, NackRanges, Enqueue, CutBy;
    var s, op := r.states[n], r.ops[n];
    assert CachedStep(s, op, r.states[n + 1], r.outs[n], r.orders[n]);
    if op.Flushing? {
      FlushLedgered(s, op.at, r.orders[n]);
    } else {
      QuietLedgered(s, op);
      if op.Add? {
        EnqueueRecords(s, op.mode, op.data, op.channel, Cuts(r, n));
      }
    }
  }

  lemma {:induction false} RunRecords(r: Run, mtu: u16, n: nat)
    requires CachedRun(r) && r.states[0] == NewSender(mtu) && n < |r.states|
    ensures Ledgered(r.states[n]) && Recorded(r.states[n], Cuts(r, n))
    decreases n
  {
    hide Ledgered, Recorded, CachedStep;
    if n == 0 {
      NewIsLedgered(mtu);
      assert Recorded(r.states[0], []) by { NewIsRecorded(mtu); }
    } else {
      RunRecords(r, mtu, n - 1);
      StepLedgered(r, n - 1);
    }
  }

  lemma NewIsRecorded(mtu: u16)
    ensures Recorded(NewSender(mtu), [])
  {
  }

  /**
   After every step of every run the counter is what the held frames cost,
   with the payloads of that run's own fragmented messages.
   */
  lemma RunLedgered(r: Run, mtu: u16, n: nat)
    requires CachedRun(r) && r.states[0] == NewSender(mtu) && n < |r.states|
    ensures Ledgered(r.states[n]) && Recorded(r.states[n], Cuts(r, n))
    ensures r.states[n].ledger.buffered == Owed(Held(r.states[n]), Cuts(r, n)) <= MAX_BUFFERED
  {
    hide CachedStep, Owed, Balanced, Held;
    RunRecords(r, mtu, n);
    RecordedIsOwed(Held(r.states[n]), r.states[n].ledger, Cuts(r, n));
  }

  lemma {:induction false} EveryFrameCosts(held: multiset<Packet>)
    ensures Total(held, Cost()) >= |held| * FRAME_BUDGET
    decreases |held|
  {
    if |held| > 0 {
      var p :| p in held;
      EveryFrameCosts(held - multiset{p});
      TotalRemove(held, p, Cost());
    }
  }

  lemma {:induction false} PacketsCount(items: seq<Item>)
    ensures |Packets(items)| == |items|
    decreases |items|
  {
    if items != [] {
      PacketsCount(items[..|items| - 1]);
    }
  }

  /** No queue ever holds more than 524288 frames. */
  lemma FramesBounded(s: SendState)
    requires Ledgered(s)
    ensures |s.queue.packets| + |s.flight.items| <= MAX_BUFFERED / FRAME_BUDGET == 524288
  {
    hide Packets, Total, Sum, Shares, Cost;
    EveryFrameCosts(Held(s));
    PacketsCount(s.flight.items);
    assert |Held(s)| == |multiset(s.queue.packets)| + |Packets(s.flight.items)|;
  }

  lemma NothingShared(shared: map<nat, Share>)
    requires Shares(multiset{}, shared)
    ensures shared == map[] && Sum(Payloads(shared)) == 0
  {
    forall m: nat ensures Total(multiset{}, Of(m)) == 0 {
    }
    assert shared == map[];
    assert Payloads(shared) == map[];
  }

  /** An empty queue owes nothing: neither bytes nor half-acknowledged messages. */
  lemma EmptyOwesNothing(s: SendState)
    requires Ledgered(s) && IsEmpty(s)
    ensures s.ledger == Ledger(0, map[]) && s.queue.unreliable == 0
  {
    assert Held(s) == multiset{};
    NothingShared(s.ledger.shared);
  }

  lemma {:induction false} SweepKeepsAll(w: Sweep, items: seq<Item>, ranges: seq<Range>, tick: int, grouped: bool)
    requires forall i | 0 <= i < |items| :: !AckedBy(items[i], ranges)
    ensures SweepAll(w, items, ranges, tick, grouped) == w.(kept := w.kept + items)
    decreases |items|
  {
    hide AckedBy, AckedName;
    if items == [] {
      assert w.kept + items == w.kept;
    } else {
      var front, last := items[..|items| - 1], items[|items| - 1];
      SweepKeepsAll(w, front, ranges, tick, grouped);
      AckedNameExact(last, ranges);
      assert w.kept + front + [last] == w.kept + items;
    }
  }

  lemma DirectFindsNothing(items: seq<Item>, number: u24)
    requires forall i | 0 <= i < |items| :: !AckedBy(items[i], Only(number))
    ensures Find(items, number, 0) == |items|
  {
    hide AckedBy, AckedName, NamedBy;
    FindExact(items, number, 0);
    var k := Find(items, number, 0);
    if k < |items| {
      AckedNameExact(items[k], Only(number));
      NamedByOnly(items[k], number);
    }
  }

  /** Replayed acknowledgements release nothing and retire nothing. */
  lemma ReplayReleasesNothing(s: SendState, ranges: seq<Range>, tick: int)
    requires forall i | 0 <= i < |s.flight.items| :: !AckedBy(s.flight.items[i], ranges)
    ensures var t := AckRanges(s, ranges, tick); t.(flight := t.flight.(grouped := s.flight.grouped)) == s
  {
    hide AckedBy, SweepAll, Find;
    SweepKeepsAll(StartSweep(s), s.flight.items, ranges, tick, s.flight.grouped);
    assert [] + s.flight.items == s.flight.items;
    SameLatency(s.flight);
    if |ranges| == 1 && ranges[0].first == ranges[0].last {
      assert ranges == Only(ranges[0].first);
      DirectFindsNothing(s.flight.items, ranges[0].first);
    }
  }
}
