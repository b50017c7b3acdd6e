// Free bytes under the cap. Admission lets at most one burst beyond the
// high-water mark in, and every fragment of it pays for its own bookkeeping,
// so the payloads of long messages never fill the cap; once the queue has
// drained, a control reply always fits.
module Room {
  import opened Admission
  import opened AckSet
  import opened Bytes
  import opened ControlReplies
  import opened Errors
  import opened Frames
  import opened Ledger
  import opened Packing
  import opened Sender
  import opened Serial
  import opened Sums
  import Fragments
  import Plan

  /** What the payloads of long messages never exceed. */
  const HEAVY_LIMIT: int := 60 * 1024 * 1024

  /** Payloads longer than a control reply. */
  ghost function Long(shared: map<nat, Share>): map<nat, nat> {
    map m | m in shared && shared[m].bytes > MAX_REPLY :: shared[m].bytes
  }

  ghost function Heavy(shared: map<nat, Share>): nat {
    Sum(Long(shared))
  }

  ghost predicate Roomy(s: SendState) {
    Heavy(s.ledger.shared) <= HEAVY_LIMIT
  }

  // ---------------------------------------------------------------------
  // Sums over part of a map.

  lemma LongWithout(shared: map<nat, Share>, m: nat)
    requires m in shared
    ensures Heavy(shared) == Heavy(shared - {m}) + if shared[m].bytes > MAX_REPLY then shared[m].bytes else 0
  {
    if shared[m].bytes > MAX_REPLY {
      SumRemove(Long(shared), m);
      assert Long(shared - {m}) == Long(shared) - {m};
    } else {
      assert Long(shared - {m}) == Long(shared);
    }
  }

  lemma LongWith(shared: map<nat, Share>, m: nat, share: Share)
    requires m !in shared
    ensures Heavy(shared[m := share]) == Heavy(shared) + if share.bytes > MAX_REPLY then share.bytes else 0
  {
    hide Heavy;
    LongWithout(shared[m := share], m);
    assert shared[m := share] - {m} == shared;
  }

  /** Long payloads are payloads, and the others are short. */
  lemma {:induction false} PayloadsSplit(shared: map<nat, Share>)
    ensures Heavy(shared) <= Sum(Payloads(shared)) <= Heavy(shared) + |shared| * MAX_REPLY
    decreases |shared|
  {
    hide Heavy, Sum;
    if shared == map[] {
      assert Payloads(shared) == map[];
      NothingLong();
    } else {
      var m :| m in shared;
      assert |shared - {m}| == |shared| - 1 by { Smaller(shared, m); }
      PayloadsSplit(shared - {m});
      PayloadsRemove(shared, m);
      LongWithout(shared, m);
    }
  }

  lemma Smaller(shared: map<nat, Share>, m: nat)
    requires m in shared
    ensures |shared - {m}| == |shared| - 1
  {
    assert (shared - {m}).Keys == shared.Keys - {m};
    assert |(shared - {m}).Keys| == |shared.Keys| - 1;
  }

  lemma NothingLong()
    ensures Heavy(map[]) == 0 && Sum<nat>(map[]) == 0
  {
    assert Long(map[]) == map[];
  }

  lemma HeavyIsBuffered(s: SendState)
    requires Ledgered(s)
    ensures Heavy(s.ledger.shared) <= s.ledger.buffered
  {
    hide Heavy, Sum, Total, Shares;
    PayloadsSplit(s.ledger.shared);
  }

  // ---------------------------------------------------------------------
  // Acknowledgement only takes payloads away.

  lemma RetireKeepsRoom(ledger: Sender.Ledger, p: Packet)
    ensures Heavy(Retire(ledger, p).0.shared) <= Heavy(ledger.shared)
  {
    hide Heavy;
    if p.frame.IsFragment() && p.message in ledger.shared {
      var share := ledger.shared[p.message];
      LongWithout(ledger.shared, p.message);
      if share.remaining > 1 {
        var fewer := ledger.shared[p.message := share.(remaining := share.remaining - 1)];
        LongWithout(fewer, p.message);
        assert fewer - {p.message} == ledger.shared - {p.message};
      }
    }
  }

  lemma {:induction false} SweepKeepsRoom(w: Sweep, items: seq<Item>, ranges: seq<Range>, tick: int, grouped: bool)
    ensures Heavy(SweepAll(w, items, ranges, tick, grouped).ledger.shared) <= Heavy(w.ledger.shared)
    decreases |items|
  {
    hide Heavy, AckedName, Retire, LatencySample, Newer, Rtt, Wrap;
    if items != [] {
      SweepKeepsRoom(w, items[..|items| - 1], ranges, tick, grouped);
      RetireKeepsRoom(SweepAll(w, items[..|items| - 1], ranges, tick, grouped).ledger, items[|items| - 1].packet);
    }
  }

  lemma AckKeepsRoom(s: SendState, ranges: seq<Range>, tick: int)
    requires Roomy(s)
    ensures Roomy(AckRanges(s, ranges, tick))
  {
    hide Heavy, SweepAll, Retire, Find, MoveMark, NameFor, LatencySample, Newer, Rtt, Removed;
    SweepKeepsRoom(StartSweep(s), s.flight.items, ranges, tick, s.flight.grouped);
    if |ranges| == 1 {
      SweepKeepsRoom(StartSweep(s), s.flight.items, [Range(ranges[0].first, ranges[0].first)], tick, s.flight.grouped);
      var k := Find(s.flight.items, ranges[0].first, 0);
      if k < |s.flight.items| {
        RetireKeepsRoom(s.ledger, s.flight.items[k].packet);
      }
    }
  }

  // ---------------------------------------------------------------------
  // Insertion.

  /** The payload a message adds to the long ones. */
  function HeavyPart(mtu: u16, mode: Reliability, length: nat): nat {
    if Splits(mtu, mode, length) && length > MAX_REPLY then length else 0
  }

  lemma EnqueueHeavy(s: SendState, mode: Reliability, data: seq<byte>, channel: byte)
    requires Ledgered(s)
    ensures var t := Enqueue(s, mode, data, channel).0;
      Heavy(t.ledger.shared) <= Heavy(s.ledger.shared) + HeavyPart(s.mtu, mode, |data|)
  {
    hide Heavy, Balanced, Pieces, Whole, DivCeil, Total, Held;
    if Enqueue(s, mode, data, channel).1.Ok? && Splits(s.mtu, mode, |data|) {
      var n := DivCeil(|data|, s.mtu - 60);
      PiecesCount(s.counters, data, s.mtu - 60, channel);
      LongWith(s.ledger.shared, s.counters.compound, Share(n, |data|));
    }
  }

  lemma PiecesCount(c: Counters, data: seq<byte>, size: nat, channel: byte)
    requires size > 0 && DivCeil(|data|, size) <= Fragments.MAX_FRAGMENTS
    ensures |Pieces(c, data, size, channel)| == DivCeil(|data|, size)
  {
    hide Piece, DivCeil;
  }

  /** A cut message reserves 128 bytes for at most every 1432 of its payload. */
  lemma HeavyPays(mtu: u16, mode: Reliability, length: nat)
    requires 60 < mtu <= 1492 && RequiredBytes(mtu, mode, length).Ok?
    ensures HeavyPart(mtu, mode, length) * 1560 <= RequiredBytes(mtu, mode, length).value * 1432
  {
    if Splits(mtu, mode, length) {
      CutPays(length, mtu - 60, DivCeil(length, mtu - 60)) by { Plan.CeilCovers(length, mtu - 60); }
    }
  }

  lemma CutPays(length: nat, size: nat, frames: nat)
    requires 0 < size <= 1432 && frames * size >= length
    ensures length * 1560 <= (frames * FRAME_BUDGET + length) * 1432
  {
    MulMonotone(size, 1432, frames);
    assert size * frames == frames * size;
  }

  lemma {:induction false} BatchHeavy(s: SendState, mode: Reliability, messages: seq<seq<byte>>, channel: byte)
    requires Ledgered(s) && 60 < s.mtu <= 1492 && BatchBytes(s.mtu, mode, Lengths(messages)).Ok?
    ensures var t := EnqueueAll(s, mode, messages, channel).0;
      && Ledgered(t) && t.mtu == s.mtu
      && Heavy(t.ledger.shared) * 1560 <= Heavy(s.ledger.shared) * 1560 + BatchBytes(s.mtu, mode,
        Lengths(messages)).value * 1432
    decreases |messages|
  {
    hide Heavy, Ledgered, Enqueue, RequiredBytes;
    if messages != [] {
      var front, last := messages[..|messages| - 1], messages[|messages| - 1];
      LengthsFront(messages);
      BatchHeavy(s, mode, front, channel);
      var (t, r) := EnqueueAll(s, mode, front, channel);
      EnqueueLedgered(t, mode, last, channel);
      EnqueueReserves(t, mode, last, channel);
      EnqueueHeavy(t, mode, last, channel);
      HeavyPays(t.mtu, mode, |last|);
    }
  }

  /** A granted batch that all goes in leaves room. */
  lemma SendKeepsRoom(s: SendState, mode: Reliability, messages: seq<seq<byte>>, channel: byte)
    requires Ledgered(s) && 60 < s.mtu <= 1492 && HasBatchCapacity(s, mode, Lengths(messages)) == Ok(true)
    requires EnqueueAll(s, mode, messages, channel).1.Ok?
    ensures Roomy(EnqueueAll(s, mode, messages, channel).0)
  {
    hide Heavy, Ledgered, EnqueueAll, BatchBytes, Lengths;
    var required := BatchBytes(s.mtu, mode, Lengths(messages)).value;
    BatchHeavy(s, mode, messages, channel);
    HeavyIsBuffered(s);
    HeavyIsBuffered(EnqueueAll(s, mode, messages, channel).0);
    LedgerCapped(s);
    BatchSucceeds(s, mode, messages, channel);
  }

  lemma LedgerCapped(s: SendState)
    requires Ledgered(s)
    ensures 0 <= s.ledger.buffered <= MAX_BUFFERED
  {
    hide Balanced, Held;
    BalanceNonNegative(Held(s), s.ledger);
  }

  // ---------------------------------------------------------------------
  // A drained queue.

  ghost function MessageSet(held: multiset<Packet>): set<nat> {
    set p | p in held :: p.message
  }

  lemma {:induction false} MessageSetBounded(held: multiset<Packet>)
    ensures |MessageSet(held)| <= |held|
    decreases |held|
  {
    if |held| > 0 {
      var p :| p in held;
      var rest := held - multiset{p};
      MessageSetBounded(rest);
      forall m <- MessageSet(held) ensures m in MessageSet(rest) + {p.message} {
        var q :| q in held && q.message == m;
        assert q == p || q in rest;
      }
      Subset(MessageSet(held), MessageSet(rest) + {p.message});
    } else {
      assert MessageSet(held) == {};
    }
  }

  lemma {:induction false} CountedIsHeld(held: multiset<Packet>, m: nat)
    requires Total(held, Of(m)) > 0
    ensures m in MessageSet(held)
    decreases |held|
  {
    var p := TotalUnfold(held, Of(m));
    if Of(m)(p) == 0 {
      CountedIsHeld(held - multiset{p}, m);
    }
  }

  /** Every shared payload has a fragment among the frames held. */
  lemma SharedAreHeld(held: multiset<Packet>, shared: map<nat, Share>)
    requires Shares(held, shared)
    ensures |shared| <= |held|
  {
    forall m <- shared.Keys ensures m in MessageSet(held) {
      CountedIsHeld(held, m);
    }
    Subset(shared.Keys, MessageSet(held));
    MessageSetBounded(held);
  }

  lemma {:induction false} FlightCost(items: seq<Item>, mtu: u16)
    requires ItemsFit(items, mtu) && mtu <= 1492
    ensures Total(Packets(items), Cost()) <= |items| * 1620
    decreases |items|
  {
    hide Total;
    if items == [] {
      assert Packets(items) == multiset{};
      NoCost();
    } else {
      var front, last := items[..|items| - 1], items[|items| - 1];
      FlightCost(front, mtu);
      TotalAdd(Packets(front), last.packet, Cost());
      assert Fit(last.packet, mtu);
    }
  }

  lemma NoCost()
    ensures Total(multiset{}, Cost()) == 0
  {
  }

  /** With the queue drained and the flight not full, at least two megabytes are free. */
  lemma DrainedHasRoom(s: SendState)
    requires Ledgered(s) && Flushable(s) && Roomy(s) && s.mtu <= 1492
    requires s.queue.packets == [] && |s.flight.items| < MAX_IN_FLIGHT
    ensures 0 <= s.ledger.buffered <= MAX_BUFFERED - 2 * 1024 * 1024
  {
    hide Heavy, Sum, Total, Packets, Shares, Cost, Payloads, Fit, Packing.Numbered;
    LedgerCapped(s);
    assert Held(s) == Packets(s.flight.items);
    FlightCost(s.flight.items, s.mtu);
    PacketsCount(s.flight.items);
    SharedAreHeld(Held(s), s.ledger.shared);
    PayloadsSplit(s.ledger.shared);
  }

  /** There a two-part reply is taken whole, when the ping fits. */
  lemma WholeReplyFits(s: SendState, replies: Replies)
    requires Ledgered(s) && Flushable(s) && Roomy(s) && 60 < s.mtu <= 1492 && PING <= s.mtu - 60
    requires s.queue.packets == [] && |s.flight.items| < MAX_IN_FLIGHT && ReplyShape(replies) && |replies| == 2
    ensures EnqueueReplies(s, replies).1.Ok?
  {
    hide Enqueue, RequiredBytes, Ledgered, Flushable, Roomy;
    DrainedHasRoom(s);
    RepliesUnfold(s, replies);
    var t := Enqueue(s, ReliableOrdered, replies[0].1, 0).0;
    EnqueueReserves(s, ReliableOrdered, replies[0].1, 0);
    EnqueueReserves(t, Unreliable, replies[1].1, 0);
    ReplyBytes(s.mtu, |replies[0].1|);
    PingBytes(s.mtu);
  }

  lemma ReplyBytes(mtu: u16, length: nat)
    requires mtu > 60 && length <= MAX_REPLY
    ensures RequiredBytes(mtu, ReliableOrdered, length).Ok?
      && RequiredBytes(mtu, ReliableOrdered, length).value <= 129 * 1025
  {
    CeilBelow(length, mtu - 60);
  }

  lemma PingBytes(mtu: u16)
    requires mtu > 60
    ensures RequiredBytes(mtu, Unreliable, PING) == Ok(FRAME_BUDGET + PING)
  {
  }

  lemma ReplyKeepsRoom(s: SendState, mode: Reliability, data: seq<byte>, channel: byte)
    requires Ledgered(s) && Roomy(s) && |data| <= MAX_REPLY
    ensures Roomy(Enqueue(s, mode, data, channel).0)
  {
    hide Heavy, Ledgered, Enqueue;
    EnqueueHeavy(s, mode, data, channel);
  }
}
