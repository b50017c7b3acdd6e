/** From emitted frames to datagrams on the wire. */
module Datagrams {
  import opened AckSet
  import opened Bytes
  import opened Deadlines
  import opened Errors
  import opened Fragments
  import opened FrameCodec
  import opened Frames
  import opened Packing
  import opened Sender
  import opened Serial

  // ---------------------------------------------------------------------
  // How the socket groups frames.

  /** First position from `end` on whose wire number differs from that at `start`. */
  function RunEnd(out: seq<Outgoing>, start: nat, end: nat): (e: nat)
    requires start < end <= |out|
    ensures end <= e <= |out|
    decreases |out| - end
  {
    if end < |out| && Wrap(out[end].id) == Wrap(out[start].id) then RunEnd(out, start, end + 1) else end
  }

  function Groups(out: seq<Outgoing>, start: nat): seq<seq<Outgoing>>
    requires start <= |out|
    decreases |out| - start
  {
    if start == |out| then []
    else var end := RunEnd(out, start, start + 1); [out[start..end]] + Groups(out, end)
  }

  function Alone(out: seq<Outgoing>): seq<seq<Outgoing>> {
    seq(|out|, i requires 0 <= i < |out| => [out[i]])
  }

  /** The frames of each datagram sent for one flush. */
  function Transmitted(out: seq<Outgoing>, coalesced: bool): seq<seq<Outgoing>> {
    if |out| > 1 && coalesced then Groups(out, 0) else Alone(out)
  }

  method TransmitFrames(out: seq<Outgoing>, coalesced: bool) returns (datagrams: seq<seq<Outgoing>>)
    ensures datagrams == Transmitted(out, coalesced)
  {
    hide Groups, Wrap;
    if |out| > 1 && coalesced {
      datagrams := TransmitGroups(out);
    } else {
      datagrams := [];
      for i := 0 to |out|
        invariant datagrams == Alone(out)[..i]
      {
        datagrams := datagrams + [[out[i]]];
      }
    }
  }

  method TransmitGroups(out: seq<Outgoing>) returns (datagrams: seq<seq<Outgoing>>)
    ensures datagrams == Groups(out, 0)
  {
    hide Groups, Wrap;
    datagrams := [];
    var start := 0;
    while start < |out|
      invariant start <= |out|
      invariant datagrams + Groups(out, start) == Groups(out, 0)
    {
      GroupsUnfold(out, start);
      var end := start + 1;
      while end < |out| && Wrap(out[end].id) == Wrap(out[start].id)
        invariant start < end <= |out|
        invariant RunEnd(out, start, end) == RunEnd(out, start, start + 1)
      {
        end := end + 1;
      }
      ghost var rest := Groups(out, end);
      assert datagrams + ([out[start..end]] + rest) == datagrams + [out[start..end]] + rest;
      datagrams := datagrams + [out[start..end]];
      start := end;
    }
    GroupsUnfold(out, start);
    assert datagrams + [] == datagrams;
  }

  lemma GroupsUnfold(out: seq<Outgoing>, start: nat)
    requires start <= |out|
    ensures Groups(out, start) == if start == |out| then [] else
      [out[start..RunEnd(out, start, start + 1)]] + Groups(out, RunEnd(out, start, start + 1))
  {
  }

  // ---------------------------------------------------------------------
  // One number, one datagram.

  /** All numbers lie within one epoch, so equal wire numbers are equal numbers. */
  ghost predicate WithinEpoch(out: seq<Outgoing>, low: nat) {
    forall i | 0 <= i < |out| :: low <= out[i].id < low + EPOCH
  }

  lemma {:induction false} MembersOfRun(out: seq<Outgoing>, id: nat, a: nat, b: nat)
    requires a <= b <= |out|
    requires forall i | 0 <= i < |out| :: out[i].id == id <==> a <= i < b
    ensures Members(out, id) == out[a..b]
    decreases |out|
  {
    if out != [] {
      var front, n := out[..|out| - 1], |out| - 1;
      if b == |out| && a < b {
        assert forall i | 0 <= i < |front| :: front[i] == out[i];
        MembersOfRun(front, id, a, b - 1);
        assert front[a..b - 1] == out[a..b - 1];
        assert out[a..b] == out[a..b - 1] + [out[n]];
      } else {
        var a' := if a > n then n else a;
        var b' := if b > n then n else b;
        assert forall i | 0 <= i < |front| :: front[i] == out[i];
        MembersOfRun(front, id, a', b');
        assert front[a'..b'] == out[a'..b'];
        assert a' < a ==> a == b;
      }
    }
  }

  lemma {:induction false} RunEndExact(out: seq<Outgoing>, start: nat, end: nat, low: nat)
    requires start < end <= |out| && WithinEpoch(out, low)
    requires forall i | start <= i < end :: out[i].id == out[start].id
    ensures var e := RunEnd(out, start, end);
      && (forall i | start <= i < e :: out[i].id == out[start].id)
      && (e < |out| ==> out[e].id != out[start].id)
    decreases |out| - end
  {
    if end < |out| {
      WrapInjective(out[end].id, out[start].id);
      if Wrap(out[end].id) == Wrap(out[start].id) {
        RunEndExact(out, start, end + 1, low);
      }
    }
  }

  /** `d` is everything emitted under its number. */
  ghost predicate WholeDatagram(d: seq<Outgoing>, out: seq<Outgoing>) {
    d != [] && d == Members(out, d[0].id)
  }

  lemma RunIsWhole(out: seq<Outgoing>, start: nat, end: nat)
    requires start < end <= |out| && Contiguous(out)
    requires start > 0 ==> out[start - 1].id != out[start].id
    requires (forall i | start <= i < end :: out[i].id == out[start].id)
      && (end < |out| ==> out[end].id != out[start].id)
    ensures WholeDatagram(out[start..end], out)
  {
    forall i | 0 <= i < |out| ensures out[i].id == out[start].id <==> start <= i < end {
    }
    MembersOfRun(out, out[start].id, start, end);
  }

  lemma {:induction false} GroupsAreWhole(out: seq<Outgoing>, start: nat, low: nat)
    requires start <= |out| && Contiguous(out) && WithinEpoch(out, low)
    requires 0 < start < |out| ==> out[start - 1].id != out[start].id
    ensures forall k | 0 <= k < |Groups(out, start)| :: WholeDatagram(Groups(out, start)[k], out)
    ensures forall i | start <= i < |out| :: Members(out, out[i].id) in Groups(out, start)
    decreases |out| - start
  {
    hide Contiguous, WithinEpoch, Members;
    if start < |out| {
      RunEndExact(out, start, start + 1, low);
      var end := RunEnd(out, start, start + 1);
      RunIsWhole(out, start, end);
      GroupsAreWhole(out, end, low);
      assert out[start..end][0] == out[start];
      forall i | start <= i < |out| ensures Members(out, out[i].id) in Groups(out, start) {
        if i < end {
          assert out[i].id == out[start].id;
          assert Members(out, out[i].id) == Groups(out, start)[0];
        } else {
          assert Members(out, out[i].id) in Groups(out, end);
        }
      }
    }
  }

  lemma AloneIsWhole(out: seq<Outgoing>)
    requires Distinct(out)
    ensures forall k | 0 <= k < |Alone(out)| :: WholeDatagram(Alone(out)[k], out)
    ensures forall i | 0 <= i < |out| :: Members(out, out[i].id) in Alone(out)
  {
    forall k | 0 <= k < |out| ensures Members(out, out[k].id) == [out[k]] {
      MembersOfRun(out, out[k].id, k, k + 1);
      assert out[k..k + 1] == [out[k]];
    }
    forall i | 0 <= i < |out| ensures Members(out, out[i].id) in Alone(out) {
      assert Alone(out)[i] == [out[i]];
    }
  }

  /** All frames emitted under one number travel in one datagram, alone. */
  lemma DatagramsAreWhole(out: seq<Outgoing>, coalesced: bool, low: nat)
    requires Contiguous(out) && WithinEpoch(out, low) && (!coalesced ==> Distinct(out))
    ensures var datagrams := Transmitted(out, coalesced);
      && (forall k | 0 <= k < |datagrams| :: WholeDatagram(datagrams[k], out))
      && (forall i | 0 <= i < |out| :: Members(out, out[i].id) in datagrams)
  {
    if |out| > 1 && coalesced {
      GroupsAreWhole(out, 0, low);
    } else {
      AloneIsWhole(out);
    }
  }

  // ---------------------------------------------------------------------
  // Bytes.

  lemma {:induction false} MembersFrom(out: seq<Outgoing>, id: nat, k: nat) returns (i: nat)
    requires k < |Members(out, id)|
    ensures i < |out| && out[i] == Members(out, id)[k] && out[i].id == id
    decreases |out|
  {
    var front := out[..|out| - 1];
    if k < |Members(front, id)| {
      i := MembersFrom(front, id, k);
    } else {
      i := |out| - 1;
    }
  }

  /** Every datagram is encodable, fits the budget, and decodes to the very frames put into it. */
  lemma DatagramRoundTrip(out: seq<Outgoing>, d: seq<Outgoing>, mtu: u16)
    requires WholeDatagram(d, out) && Packs(out, mtu)
    requires forall i | 0 <= i < |out| :: Fit(out[i].packet, mtu)
    ensures ValidGroup(Wires(d))
    ensures |d| <= MAX_COALESCED && |GroupBytes(Wires(d))| <= mtu - 28
    ensures Decode(GroupBytes(Wires(d))) == Ok(Wires(d))
  {
    hide Decode, GroupBytes, GroupSize;
    var frames := Wires(d);
    forall k | 0 <= k < |d| ensures ValidFrame(frames[k]) && Canonical(frames[k])
      && frames[k].sequenceNumber == Wrap(d[0].id) {
      var i := MembersFrom(out, d[0].id, k);
      WireFits(out[i], mtu);
    }
    GroupSizeExact(frames);
    GroupRoundTrip(frames);
  }

  lemma WireFits(o: Outgoing, mtu: u16)
    requires Fit(o.packet, mtu)
    ensures ValidFrame(o.Wire()) && Canonical(o.Wire()) && o.Wire().sequenceNumber == Wrap(o.id)
  {
    hide Wrap;
    assert o.Wire().Mode() == o.packet.frame.Mode();
  }

  // ---------------------------------------------------------------------
  // Accepted messages fit.

  lemma WholeFits(c: Counters, mode: Reliability, data: seq<byte>, channel: byte, mtu: u16)
    requires 60 < mtu <= 1492 && |data| <= mtu - 60
    ensures Fit(Whole(c, mode, data, channel), mtu)
  {
    hide Wrap;
  }

  /** A reliable-ordered fragment of the right length fits. */
  lemma FragmentFits(p: Packet, mtu: u16)
    requires 60 < mtu <= 1492 && p.frame.flags == ORDERED_FRAGMENT && p.frame.length == |p.frame.data| <= mtu - 60
    requires p.frame.sequencedIndex == 0 && p.frame.fragmentIndex < p.frame.compoundSize
    ensures Fit(p, mtu)
  {
  }

  lemma ChunkLength(data: seq<byte>, size: nat, i: nat)
    requires size > 0 && i < DivCeil(|data|, size)
    ensures i * size <= |data| && |Chunk(data, size, i)| <= size
  {
    ChunkInside(|data|, size, i);
  }

  lemma PieceFitsMtu(c: Counters, data: seq<byte>, channel: byte, i: nat, mtu: u16)
    requires 60 < mtu <= 1492 && i < DivCeil(|data|, mtu - 60) <= MAX_FRAGMENTS
    ensures Fit(Piece(c, data, mtu - 60, channel, i), mtu)
  {
    hide Wrap, DivCeil, Fit, Chunk;
    ChunkLength(data, mtu - 60, i);
    FragmentFits(Piece(c, data, mtu - 60, channel, i), mtu);
  }

  /** Insertion only queues frames that fit. */
  lemma EnqueueKeepsFit(s: SendState, mode: Reliability, data: seq<byte>, channel: byte)
    requires 60 < s.mtu <= 1492 && AllFit(s.queue.packets, s.mtu)
    ensures AllFit(Enqueue(s, mode, data, channel).0.queue.packets, s.mtu)
  {
    hide Fit, Whole, Piece, DivCeil;
    if Enqueue(s, mode, data, channel).1.Ok? {
      if Splits(s.mtu, mode, |data|) {
        var pieces := Pieces(s.counters, data, s.mtu - 60, channel);
        forall i | 0 <= i < |pieces| ensures Fit(pieces[i], s.mtu) {
          PieceFitsMtu(s.counters, data, channel, i, s.mtu);
        }
      } else {
        WholeFits(s.counters, mode, data, channel, s.mtu);
      }
    }
  }
}
