// The reliable messages a sender has accepted, in order, each with the frames
// it was cut into. Everything is counted without wrapping.
module Plan {
  import opened Bytes
  import opened Custody
  import opened Errors
  import opened Fragments
  import opened Frames
  import opened Ledger
  import opened Sender
  import opened Serial

  /** A message: its first serial, its index on its channel, and its compound number when cut. */
  datatype Sent = Sent(
    mode: Reliability, channel: byte, data: seq<byte>, first: nat, order: nat, compound: nat, packets: seq<Packet>)
  {
    predicate Ordered() {
      mode.ReliableOrdered?
    }

    predicate Fragmented() {
      |packets| > 1
    }

    function Next(): nat {
      first + |packets|
    }
  }

  ghost function CutOf(m: Sent): Cut {
    Cut(m.compound % 0x1_0000, Wrap(m.order), m.channel,
      seq(|m.packets|, i requires 0 <= i < |m.packets| => m.packets[i].frame.data))
  }

  /** The single frame of an ordered message. */
  ghost predicate WholeFrame(f: Frame, m: Sent) {
    f.flags == 96 && f.channel == m.channel && f.orderedIndex == Wrap(m.order) && f.data == m.data
  }

  ghost predicate Numbered(m: Sent) {
    forall i | 0 <= i < |m.packets| ::
      && m.packets[i].serial == m.first + i
      && m.packets[i].frame.reliableIndex == Wrap(m.first + i)
  }

  ghost predicate CutUp(m: Sent) {
    && |m.packets| <= MAX_FRAGMENTS
    && (forall i | 0 <= i < |m.packets| :: PieceOf(m.packets[i].frame, CutOf(m), i))
    && Flatten(CutOf(m).chunks) == m.data
  }

  ghost predicate WellSent(m: Sent) {
    && ModeReliable(m.mode) && m.packets != [] && Numbered(m)
    && (if !m.Ordered() then
          |m.packets| == 1 && m.packets[0].frame.flags == ToU8(m.mode) * 32 && m.packets[0].frame.data == m.data
        else if |m.packets| == 1 then WholeFrame(m.packets[0].frame, m)
        else CutUp(m))
  }

  // ---------------------------------------------------------------------
  // The log.

  /** Reliable indexes used so far. */
  function Serials(log: seq<Sent>): nat {
    if log == [] then 0 else Serials(log[..|log| - 1]) + |log[|log| - 1].packets|
  }

  /** Ordered payloads accepted on a channel. */
  function Accepted(log: seq<Sent>, channel: byte): seq<seq<byte>> {
    if log == [] then []
    else
      var front, last := Accepted(log[..|log| - 1], channel), log[|log| - 1];
      if last.Ordered() && last.channel == channel then front + [last.data] else front
  }

  function Cuts(log: seq<Sent>): nat {
    if log == [] then 0 else Cuts(log[..|log| - 1]) + if log[|log| - 1].Fragmented() then 1 else 0
  }

  ghost predicate ValidLog(log: seq<Sent>) {
    log != [] ==>
      var front, last := log[..|log| - 1], log[|log| - 1];
      && ValidLog(front)
      && WellSent(last)
      && last.first == Serials(front)
      && (last.Ordered() ==> last.order == |Accepted(front, last.channel)|)
      && (last.Fragmented() ==> last.compound == Cuts(front))
  }

  lemma {:induction false} PrefixValid(log: seq<Sent>, j: nat)
    requires ValidLog(log) && j <= |log|
    ensures ValidLog(log[..j])
    decreases |log|
  {
    if j < |log| {
      PrefixValid(log[..|log| - 1], j);
      assert log[..|log| - 1][..j] == log[..j];
    } else {
      assert log[..j] == log;
    }
  }

  /** What the log says about its message `j`. */
  lemma EntryValid(log: seq<Sent>, j: nat)
    requires ValidLog(log) && j < |log|
    ensures var m := log[j];
      && WellSent(m)
      && m.first == Serials(log[..j]) && m.Next() == Serials(log[..j + 1])
      && (m.Ordered() ==>
            && m.order == |Accepted(log[..j], m.channel)|
            && Accepted(log[..j + 1], m.channel) == Accepted(log[..j], m.channel) + [m.data])
      && (m.Fragmented() ==> m.compound == Cuts(log[..j]) && Cuts(log[..j + 1]) == m.compound + 1)
  {
    PrefixValid(log, j + 1);
    var front := log[..j + 1];
    assert front[..j] == log[..j];
  }

  /** Later parts of the log use at least one serial per ordered message and two per cut one. */
  lemma {:induction false} Growth(log: seq<Sent>, a: nat, b: nat, channel: byte)
    requires ValidLog(log) && a <= b <= |log|
    ensures Serials(log[..a]) <= Serials(log[..b])
    ensures Accepted(log[..a], channel) <= Accepted(log[..b], channel)
    ensures |Accepted(log[..b], channel)| - |Accepted(log[..a], channel)| <= Serials(log[..b]) - Serials(log[..a])
    ensures Cuts(log[..a]) <= Cuts(log[..b])
    ensures 2 * (Cuts(log[..b]) - Cuts(log[..a])) <= Serials(log[..b]) - Serials(log[..a])
    decreases b - a
  {
    if a < b {
      Growth(log, a, b - 1, channel);
      EntryValid(log, b - 1);
      assert log[..b][..b - 1] == log[..b - 1];
      hide ValidLog, WellSent;
    }
  }

  lemma WholeLog(log: seq<Sent>)
    ensures log[..|log|] == log
  {
  }

  // ---------------------------------------------------------------------
  // Finding messages.

  /** The message that carries a serial. */
  lemma {:induction false} BySerial(log: seq<Sent>, r: nat) returns (j: nat)
    requires ValidLog(log) && r < Serials(log)
    ensures j < |log| && log[j].first <= r < log[j].Next()
    decreases |log|
  {
    var n := |log| - 1;
    if r >= log[n].first {
      j := n;
    } else {
      j := BySerial(log[..n], r);
    }
  }

  /** The message with index `k` on a channel. */
  lemma {:induction false} ByOrder(log: seq<Sent>, channel: byte, k: nat) returns (j: nat)
    requires ValidLog(log) && k < |Accepted(log, channel)|
    ensures j < |log| && log[j].Ordered() && log[j].channel == channel && log[j].order == k
    ensures Accepted(log, channel)[k] == log[j].data
    decreases |log|
  {
    var n := |log| - 1;
    if k < |Accepted(log[..n], channel)| {
      j := ByOrder(log[..n], channel, k);
    } else {
      j := n;
    }
  }

  /** Distinct messages use distinct serials, in order. */
  lemma SpansApart(log: seq<Sent>, i: nat, j: nat)
    requires ValidLog(log) && i < j < |log|
    ensures log[i].Next() <= log[j].first
    ensures log[i].Ordered() && log[j].Ordered() && log[i].channel == log[j].channel ==>
      log[i].order < log[j].order && log[j].order - log[i].order <= log[j].first - log[i].Next() + 1
    ensures log[i].Fragmented() && log[j].Fragmented() ==>
      log[i].compound < log[j].compound && 2 * (log[j].compound - log[i].compound - 1) <= log[j].first - log[i].Next()
  {
    hide ValidLog, WellSent;
    EntryValid(log, i);
    EntryValid(log, j);
    Growth(log, i + 1, j, log[i].channel);
  }

  /** Two messages with the same wrapped compound number are far apart. */
  lemma ReuseIsFar(log: seq<Sent>, i: nat, j: nat)
    requires ValidLog(log) && i < j < |log| && log[i].Fragmented() && log[j].Fragmented()
    requires log[i].compound % 0x1_0000 == log[j].compound % 0x1_0000
    ensures log[j].first - log[i].Next() >= 131070
  {
    hide ValidLog;
    SpansApart(log, i, j);
    SameRemainder(log[i].compound, log[j].compound);
  }

  lemma SameRemainder(a: nat, b: nat)
    requires a < b && a % 0x1_0000 == b % 0x1_0000
    ensures b - a >= 0x1_0000
  {
  }

  /** A message is known by its channel and index. */
  lemma OrderIsUnique(log: seq<Sent>, i: nat, j: nat)
    requires ValidLog(log) && i < |log| && j < |log| && log[i].Ordered() && log[j].Ordered()
    requires log[i].channel == log[j].channel && log[i].order == log[j].order
    ensures i == j
  {
    if i < j {
      SpansApart(log, i, j);
    } else if j < i {
      SpansApart(log, j, i);
    }
  }

  lemma SerialIsUnique(log: seq<Sent>, i: nat, j: nat, r: nat)
    requires ValidLog(log) && i < |log| && j < |log|
    requires log[i].first <= r < log[i].Next() && log[j].first <= r < log[j].Next()
    ensures i == j
  {
    if i < j {
      SpansApart(log, i, j);
    } else if j < i {
      SpansApart(log, j, i);
    }
  }

  lemma EntryAccepted(log: seq<Sent>, j: nat)
    requires ValidLog(log) && j < |log| && log[j].Ordered()
    ensures log[j].order < |Accepted(log, log[j].channel)|
    ensures Accepted(log, log[j].channel)[log[j].order] == log[j].data
    ensures log[j].Next() <= Serials(log)
  {
    hide ValidLog, WellSent;
    EntryValid(log, j);
    Growth(log, j + 1, |log|, log[j].channel);
    WholeLog(log);
  }

  lemma EntryInside(log: seq<Sent>, j: nat)
    requires ValidLog(log) && j < |log|
    ensures log[j].Next() <= Serials(log)
  {
    hide ValidLog, WellSent;
    EntryValid(log, j);
    Growth(log, j + 1, |log|, 0);
    WholeLog(log);
  }

  // ---------------------------------------------------------------------
  // Insertion extends the log.

  /** The sender's counters are the log's. */
  ghost predicate Logged(c: Counters, log: seq<Sent>) {
    && c.reliable == Serials(log)
    && c.compound == Cuts(log)
    && forall channel: byte :: Count(c.ordered, channel) == |Accepted(log, channel)|
  }

  ghost function Entry(s: SendState, mode: Reliability, data: seq<byte>, channel: byte): Sent
    requires s.mtu > 60 && (Splits(s.mtu, mode, |data|) ==> DivCeil(|data|, s.mtu - 60) <= MAX_FRAGMENTS)
  {
    Sent(mode, channel, data, s.counters.reliable, Count(s.counters.ordered, channel), s.counters.compound,
         Added(s, mode, data, channel))
  }

  lemma {:induction false} ChunksRejoin(data: seq<byte>, size: nat, chunks: seq<seq<byte>>, n: nat)
    requires 0 < size && n <= |chunks| == DivCeil(|data|, size)
    requires forall i | 0 <= i < |chunks| :: i * size <= |data| && chunks[i] == Chunk(data, size, i)
    ensures n * size <= |data| + size && Flatten(chunks[..n]) == data[..Min(n * size, |data|)]
    decreases n
  {
    hide DivCeil;
    if n > 0 {
      ChunksRejoin(data, size, chunks, n - 1);
      ChunkInside(|data|, size, n - 1);
      assert n * size == (n - 1) * size + size;
      assert chunks[..n][..n - 1] == chunks[..n - 1];
      var a, b := (n - 1) * size, Min(n * size, |data|);
      assert data[..a] + data[a..b] == data[..b];
    } else {
      assert n * size == 0;
    }
  }

  lemma CeilCovers(length: nat, size: nat)
    requires size > 0
    ensures DivCeil(length, size) * size >= length
  {
    var n := length + size - 1;
    assert n == n / size * size + n % size;
  }

  lemma PieceIsPiece(c: Counters, data: seq<byte>, size: nat, channel: byte, cut: Cut, i: nat)
    requires size > 0 && i < DivCeil(|data|, size) == |cut.chunks| <= MAX_FRAGMENTS
    requires cut.id == c.compound % 0x1_0000 && cut.order == Wrap(Count(c.ordered, channel)) && cut.channel == channel
    requires cut.chunks[i] == Piece(c, data, size, channel, i).frame.data
    ensures PieceOf(Piece(c, data, size, channel, i).frame, cut, i)
    ensures Piece(c, data, size, channel, i).serial == c.reliable + i
    ensures Piece(c, data, size, channel, i).frame.reliableIndex == Wrap(c.reliable + i)
  {
    hide Wrap, DivCeil, Chunk;
  }

  lemma SplitIsWellSent(s: SendState, data: seq<byte>, channel: byte)
    requires s.mtu > 60 && |data| > s.mtu - 60 && DivCeil(|data|, s.mtu - 60) <= MAX_FRAGMENTS
    ensures WellSent(Entry(s, ReliableOrdered, data, channel))
    ensures |Entry(s, ReliableOrdered, data, channel).packets| >= 2
  {
    hide Wrap, Piece, DivCeil, Chunk, PieceOf, Flatten, Count;
    var c, size := s.counters, s.mtu - 60;
    var m := Entry(s, ReliableOrdered, data, channel);
    var cut, n := CutOf(m), DivCeil(|data|, size);
    SplitsInTwo(|data|, size);
    forall i | 0 <= i < n
      ensures PieceOf(m.packets[i].frame, cut, i)
      ensures m.packets[i].serial == m.first + i && m.packets[i].frame.reliableIndex == Wrap(m.first + i)
      ensures i * size <= |data| && cut.chunks[i] == Chunk(data, size, i)
    {
      PieceIsPiece(c, data, size, channel, cut, i);
      ChunkInside(|data|, size, i);
      PieceHasChunk(c, data, size, channel, i);
    }
    ChunksRejoin(data, size, cut.chunks, n);
    CeilCovers(|data|, size);
    assert cut.chunks[..n] == cut.chunks && data[..|data|] == data;
  }

  lemma PieceHasChunk(c: Counters, data: seq<byte>, size: nat, channel: byte, i: nat)
    requires size > 0 && i < DivCeil(|data|, size) <= MAX_FRAGMENTS
    ensures i * size <= |data| && Piece(c, data, size, channel, i).frame.data == Chunk(data, size, i)
  {
    hide Wrap, DivCeil, Chunk;
    ChunkInside(|data|, size, i);
  }

  lemma WholeIsWellSent(s: SendState, mode: Reliability, data: seq<byte>, channel: byte)
    requires s.mtu > 60 && ModeReliable(mode) && !Splits(s.mtu, mode, |data|)
    ensures WellSent(Entry(s, mode, data, channel))
  {
    hide Wrap, Count, DivCeil;
  }

  lemma LogSnoc(log: seq<Sent>, m: Sent, channel: byte)
    ensures (log + [m])[..|log|] == log
    ensures Serials(log + [m]) == Serials(log) + |m.packets|
    ensures Cuts(log + [m]) == Cuts(log) + if m.Fragmented() then 1 else 0
    ensures Accepted(log + [m], channel)
         == Accepted(log, channel) + if m.Ordered() && m.channel == channel then [m.data] else []
  {
    assert (log + [m])[..|log|] == log;
  }

  lemma CountedLogs(c: Counters, log: seq<Sent>, m: Sent)
    requires Logged(c, log) && ModeReliable(m.mode)
    ensures Logged(Counted(c, m.mode, m.channel, |m.packets|), log + [m])
  {
    hide Serials, Cuts, Accepted;
    LogSnoc(log, m, m.channel);
    forall channel: byte
      ensures Count(Counted(c, m.mode, m.channel, |m.packets|).ordered, channel) == |Accepted(log + [m], channel)|
    {
      LogSnoc(log, m, channel);
    }
  }

  lemma EntryExtends(log: seq<Sent>, m: Sent)
    requires ValidLog(log) && WellSent(m) && m.first == Serials(log)
    requires m.order == |Accepted(log, m.channel)| && m.compound == Cuts(log)
    ensures ValidLog(log + [m])
  {
    hide WellSent, Serials, Accepted, Cuts;
    assert (log + [m])[..|log|] == log;
  }

  /** A reliable message joins the log as one well-formed entry; others leave it alone. */
  lemma EnqueueLogs(s: SendState, log: seq<Sent>, mode: Reliability, data: seq<byte>, channel: byte)
    requires ValidLog(log) && Logged(s.counters, log) && Enqueue(s, mode, data, channel).1.Ok?
    ensures s.mtu > 60 && (Splits(s.mtu, mode, |data|) ==> DivCeil(|data|, s.mtu - 60) <= MAX_FRAGMENTS)
    ensures var t := Enqueue(s, mode, data, channel).0;
      if ModeReliable(mode) then
        var log' := log + [Entry(s, mode, data, channel)];
        ValidLog(log') && Logged(t.counters, log')
      else Logged(t.counters, log)
  {
    hide WellSent, Enqueue, Added, DivCeil, ValidLog, Serials, Accepted, Cuts;
    EnqueueAdds(s, mode, data, channel);
    if ModeReliable(mode) {
      var m := Entry(s, mode, data, channel);
      if Splits(s.mtu, mode, |data|) {
        SplitIsWellSent(s, data, channel);
      } else {
        WholeIsWellSent(s, mode, data, channel);
      }
      EntryExtends(log, m);
      CountedLogs(s.counters, log, m);
    } else {
      UnreliableCountsNothing(s, mode, data, channel);
    }
  }

  lemma UnreliableCountsNothing(s: SendState, mode: Reliability, data: seq<byte>, channel: byte)
    requires !ModeReliable(mode)
    ensures var c := Enqueue(s, mode, data, channel).0.counters;
      c.reliable == s.counters.reliable && c.ordered == s.counters.ordered && c.compound == s.counters.compound
  {
    hide Pieces, Whole, DivCeil;
  }
}
