/** Delivery on every channel, against the payloads the sender accepted there. */
module Delivery {
  import opened Bytes
  import opened Errors
  import opened Fragments
  import opened Frames
  import opened Inbound
  import opened Plan
  import opened Receiver
  import opened Reorder
  import opened Serial
  import opened Window
  import AckSet
  import Sums

  // ---------------------------------------------------------------------
  // Payloads.

  /** Payloads of the reliable-ordered frames. */
  function OrderedData(frames: seq<Frame>): seq<seq<byte>> {
    if frames == [] then []
    else
      var front, last := OrderedData(frames[..|frames| - 1]), frames[|frames| - 1];
      if last.flags / 32 == 3 then front + [last.data] else front
  }

  function PayloadsOn(frames: seq<Frame>, channel: byte): seq<seq<byte>> {
    OrderedData(OnChannel(frames, channel))
  }

  lemma PayloadsSnoc(frames: seq<Frame>, f: Frame, channel: byte)
    ensures PayloadsOn(frames + [f], channel)
         == PayloadsOn(frames, channel) + if f.channel == channel && f.flags / 32 == 3 then [f.data] else []
  {
    OnChannelSnoc(frames, f, channel);
    var on := OnChannel(frames, channel);
    assert (on + [f])[..|on|] == on;
  }

  lemma {:induction false} PayloadsConcat(a: seq<Frame>, b: seq<Frame>, channel: byte)
    ensures PayloadsOn(a + b, channel) == PayloadsOn(a, channel) + PayloadsOn(b, channel)
    decreases |b|
  {
    hide PayloadsOn;
    if b == [] {
      assert a + b == a;
      NoPayloads(channel);
    } else {
      var front, last := b[..|b| - 1], b[|b| - 1];
      assert b == front + [last] && a + b == a + front + [last];
      PayloadsConcat(a, front, channel);
      PayloadsSnoc(a + front, last, channel);
      PayloadsSnoc(front, last, channel);
    }
  }

  lemma NoPayloads(channel: byte)
    ensures PayloadsOn([], channel) == []
  {
  }

  // ---------------------------------------------------------------------
  // One channel.

  ghost predicate On(m: Sent, channel: byte) {
    m.Ordered() && m.channel == channel
  }

  ghost predicate InHeld(o: Order, channel: byte, k: nat, low: nat) {
    low <= k < low + RECEIVE_WINDOW && (channel, Wrap(k)) in o.held
  }

  ghost predicate HeldRight(f: Frame, channel: byte, all: seq<seq<byte>>, k: nat) {
    k < |all| && f.flags == 96 && f.channel == channel && f.data == all[k]
  }

  /** The channel has handed over its first `e` messages and holds exactly the later ones that are complete. */
  ghost predicate Opened(o: Order, channel: byte, before: seq<seq<byte>>, e: nat, log: seq<Sent>, seen: Seen) {
    var all := Accepted(log, channel);
    && e <= |all| && before + PayloadsOn(o.ready, channel) == all[..e]
    && (forall j | 0 <= j < |log| && On(log[j], channel) ::
          Done(log[j], seen) <==> log[j].order < e || InHeld(o, channel, log[j].order, e))
    && (forall k: nat | InHeld(o, channel, k, e) :: HeldRight(o.held[(channel, Wrap(k))], channel, all, k))
  }

  ghost function Reached(o: Order, channel: byte, before: seq<seq<byte>>): nat {
    |before| + |PayloadsOn(o.ready, channel)|
  }

  ghost predicate ChannelOk(o: Order, channel: byte, before: seq<seq<byte>>, log: seq<Sent>, seen: Seen) {
    var e := Reached(o, channel, before);
    && o.expected.Get(channel) == Wrap(e)
    && (channel, Wrap(e)) !in o.held
    && Opened(o, channel, before, e, log, seen)
  }

  /** Held indexes are within the window of what comes next. */
  lemma KeyNear(o: Order, channel: byte, e: nat, k: nat)
    requires AheadOf(o, channel, Wrap(e)) && e <= k < e + EPOCH && (channel, Wrap(k)) in o.held
    ensures k < e + RECEIVE_WINDOW
  {
    DistanceAhead(k, e);
  }

  lemma MoveOpens(o: Order, channel: byte, before: seq<seq<byte>>, e: nat, log: seq<Sent>, seen: Seen)
    requires Opened(o, channel, before, e, log, seen) && AheadOf(o, channel, Wrap(e))
    requires (channel, Wrap(e)) in o.held
    ensures Opened(Move(o, (channel, Wrap(e))), channel, before, e + 1, log, seen)
  {
    hide Accepted, PayloadsOn, Done, AheadOf, Wrap;
    var key := (channel, Wrap(e));
    var o', all := Move(o, key), Accepted(log, channel);
    assert InHeld(o, channel, e, e);
    PayloadsSnoc(o.ready, o.held[key], channel);
    assert before + (PayloadsOn(o.ready, channel) + [all[e]]) == all[..e] + [all[e]] == all[..e + 1];
    forall k: nat | k != e
      ensures InHeld(o', channel, k, e + 1) <==> InHeld(o, channel, k, e)
    {
      MoveKeepsKeys(o, channel, e, k);
    }
  }

  lemma MoveKeepsKeys(o: Order, channel: byte, e: nat, k: nat)
    requires AheadOf(o, channel, Wrap(e)) && (channel, Wrap(e)) in o.held && k != e
    ensures InHeld(Move(o, (channel, Wrap(e))), channel, k, e + 1) <==> InHeld(o, channel, k, e)
  {
    if e < k < e + EPOCH {
      WrapInjective(k, e);
      if (channel, Wrap(k)) in o.held {
        KeyNear(o, channel, e, k);
      }
    }
  }

  lemma {:induction false} ReleaseDelivers(o: Order, channel: byte, before: seq<seq<byte>>, e: nat, log: seq<Sent>,
      seen: Seen)
    requires Opened(o, channel, before, e, log, seen) && AheadOf(o, channel, Wrap(e))
    ensures ChannelOk(Release(o, channel, Wrap(e)), channel, before, log, seen)
    decreases |o.held|
  {
    hide AheadOf, Move, Accepted, PayloadsOn, Done, Wrap;
    if (channel, Wrap(e)) in o.held {
      MoveOpens(o, channel, before, e, log, seen);
      MoveKeepsAhead(o, channel, Wrap(e));
      MoveShrinks(o, (channel, Wrap(e)));
      NextWraps(e);
      ReleaseDelivers(Move(o, (channel, Wrap(e))), channel, before, e + 1, log, seen);
    } else {
      ReleaseStops(o, channel, before, e, log, seen);
    }
  }

  lemma ReleaseStops(o: Order, channel: byte, before: seq<seq<byte>>, e: nat, log: seq<Sent>, seen: Seen)
    requires Opened(o, channel, before, e, log, seen) && (channel, Wrap(e)) !in o.held
    ensures ChannelOk(o.(expected := o.expected.Set(channel, Wrap(e))), channel, before, log, seen)
  {
    hide Accepted, PayloadsOn, Done, Wrap;
    var o' := o.(expected := o.expected.Set(channel, Wrap(e)));
    assert |before + PayloadsOn(o.ready, channel)| == e;
    assert forall k: nat :: InHeld(o', channel, k, e) == InHeld(o, channel, k, e);
  }

  /** Only message `j` has become complete. */
  ghost predicate Completes(log: seq<Sent>, j: nat, seen: Seen, later: Seen) {
    && j < |log| && !Done(log[j], seen) && Done(log[j], later)
    && forall k | 0 <= k < |log| && k != j :: Done(log[k], later) == Done(log[k], seen)
  }

  lemma PushDelivers(o: Order, f: Frame, before: seq<seq<byte>>, log: seq<Sent>, seen: Seen, later: Seen, j: nat)
    requires Ahead(o) && Counted(o) && ValidLog(log) && Completes(log, j, seen, later) && WholeFrame(f, log[j])
      && On(log[j], f.channel)
    requires ChannelOk(o, f.channel, before, log, seen) && log[j].order == Reached(o, f.channel, before)
    ensures ChannelOk(Release(PushReady(o, f), f.channel, Next(o.expected.Get(f.channel))), f.channel, before, log,
      later)
  {
    hide Accepted, PayloadsOn, Done, Wrap, Counted, Ahead, AheadOf, Release, ValidLog;
    var c, e, all := f.channel, log[j].order, Accepted(log, f.channel);
    EntryAccepted(log, j);
    PayloadsSnoc(o.ready, f, c);
    assert before + (PayloadsOn(o.ready, c) + [all[e]]) == all[..e] + [all[e]] == all[..e + 1];
    PushKeeps(o, f);
    NextWraps(e);
    PushedOpens(o, f, before, log, seen, later, j);
    ReleaseDelivers(PushReady(o, f), c, before, e + 1, log, later);
  }

  lemma PushedOpens(o: Order, f: Frame, before: seq<seq<byte>>, log: seq<Sent>, seen: Seen, later: Seen, j: nat)
    requires Ahead(o) && ValidLog(log) && Completes(log, j, seen, later) && On(log[j], f.channel)
    requires ChannelOk(o, f.channel, before, log, seen) && log[j].order == Reached(o, f.channel, before)
    requires log[j].order < |Accepted(log, f.channel)|
    requires before + PayloadsOn(PushReady(o, f).ready, f.channel) == Accepted(log, f.channel)[..log[j].order + 1]
    ensures Opened(PushReady(o, f), f.channel, before, log[j].order + 1, log, later)
  {
    hide Accepted, PayloadsOn, Done, ValidLog, Wrap;
    var c, e, o' := f.channel, log[j].order, PushReady(o, f);
    forall k: nat | k != e ensures InHeld(o', c, k, e + 1) <==> InHeld(o, c, k, e) {
      KeysStay(o, c, e, k);
    }
    forall k | 0 <= k < |log| && On(log[k], c)
      ensures Done(log[k], later) <==> log[k].order < e + 1 || InHeld(o', c, log[k].order, e + 1)
    {
      if k != j && log[k].order == e {
        OrderIsUnique(log, j, k);
      }
    }
  }

  lemma KeysStay(o: Order, channel: byte, e: nat, k: nat)
    requires Ahead(o) && o.expected.Get(channel) == Wrap(e) && (channel, Wrap(e)) !in o.held && k != e
    ensures (e + 1 <= k < e + 1 + RECEIVE_WINDOW && (channel, Wrap(k)) in o.held) <==> InHeld(o, channel, k, e)
  {
    if k == e + RECEIVE_WINDOW && (channel, Wrap(k)) in o.held {
      DistanceAhead(k, e);
    }
  }

  lemma HoldDelivers(o: Order, f: Frame, before: seq<seq<byte>>, log: seq<Sent>, seen: Seen, later: Seen, j: nat)
    requires ValidLog(log) && Completes(log, j, seen, later) && WholeFrame(f, log[j]) && On(log[j], f.channel)
    requires ChannelOk(o, f.channel, before, log, seen)
    requires Reached(o, f.channel, before) < log[j].order < Reached(o, f.channel, before) + RECEIVE_WINDOW
    ensures ChannelOk(Hold(o, f), f.channel, before, log, later)
  {
    hide Accepted, PayloadsOn, Done, ValidLog, Wrap;
    var c, e, o', all := f.channel, Reached(o, f.channel, before), Hold(o, f), Accepted(log, f.channel);
    EntryAccepted(log, j);
    WrapInjective(log[j].order, e);
    forall k: nat | k != log[j].order ensures InHeld(o', c, k, e) <==> InHeld(o, c, k, e) {
      if e <= k < e + RECEIVE_WINDOW {
        WrapInjective(k, log[j].order);
      }
    }
    forall k: nat | InHeld(o', c, k, e) ensures HeldRight(o'.held[(c, Wrap(k))], c, all, k) {
      if k != log[j].order {
        WrapInjective(k, log[j].order);
      }
    }
    forall k | 0 <= k < |log| && On(log[k], c)
      ensures Done(log[k], later) <==> log[k].order < e || InHeld(o', c, log[k].order, e)
    {
      if k != j && log[k].order == log[j].order {
        OrderIsUnique(log, j, k);
      }
    }
  }

  /** A completed message that is taken is delivered in its turn. */
  lemma PlaceDelivers(o: Order, f: Frame, before: seq<seq<byte>>, log: seq<Sent>, seen: Seen, later: Seen, j: nat)
    requires Ahead(o) && Counted(o) && ValidLog(log) && Completes(log, j, seen, later)
    requires WholeFrame(f, log[j]) && On(log[j], f.channel)
    requires ChannelOk(o, f.channel, before, log, seen)
    requires log[j].order < Reached(o, f.channel, before) + RECEIVE_WINDOW
    ensures var (o', r) := Place(o, f, o.expected.Get(f.channel));
      r.Ok? ==> ChannelOk(o', f.channel, before, log, later)
  {
    hide Accepted, PayloadsOn, Done, ValidLog, Wrap, Ahead, Counted, Release, ChannelOk;
    var e := Reached(o, f.channel, before);
    NotYetHeld(o, f.channel, before, log, seen, j);
    if !Overfull(o, f) {
      if log[j].order == e {
        PushDelivers(o, f, before, log, seen, later, j);
      } else {
        WrapInjective(log[j].order, e);
        HoldDelivers(o, f, before, log, seen, later, j);
      }
    }
  }

  lemma NotYetHeld(o: Order, channel: byte, before: seq<seq<byte>>, log: seq<Sent>, seen: Seen, j: nat)
    requires ChannelOk(o, channel, before, log, seen) && j < |log| && On(log[j], channel) && !Done(log[j], seen)
    ensures Reached(o, channel, before) <= log[j].order
    ensures o.expected.Get(channel) == Wrap(Reached(o, channel, before))
    ensures log[j].order < Reached(o, channel, before) + RECEIVE_WINDOW ==> (channel, Wrap(log[j].order)) !in o.held
  {
    hide Accepted, PayloadsOn, Done, Wrap;
  }

  /** Nothing about the channel has changed. */
  lemma UntouchedDelivers(o: Order, o': Order, channel: byte, before: seq<seq<byte>>, log: seq<Sent>, seen: Seen,
      later: Seen)
    requires ChannelOk(o, channel, before, log, seen) && Untouched(o, o', channel)
    requires forall j | 0 <= j < |log| && On(log[j], channel) :: Done(log[j], later) == Done(log[j], seen)
    ensures ChannelOk(o', channel, before, log, later)
  {
    hide Accepted, Done, OrderedData, OnChannel;
    var e := Reached(o, channel, before);
    forall k: nat ensures InHeld(o', channel, k, e) <==> InHeld(o, channel, k, e) {
      assert (channel, Wrap(k)) in o'.held <==> (channel, Wrap(k)) in o.held;
    }
  }

  lemma UntouchedItself(o: Order, channel: byte)
    ensures Untouched(o, o, channel)
  {
  }

  // ---------------------------------------------------------------------
  // The whole receiver.

  ghost predicate InboundOk(q: RecvState, delivered: seq<Frame>, log: seq<Sent>, seen: Seen) {
    && Represents(q.window, seen)
    && (forall n: nat | seen.Has(n) :: n < Serials(log))
    && ReceiverValid(q)
    && GroupsOk(q.fragments, log, seen)
    && (forall c: byte :: ChannelOk(q.order, c, PayloadsOn(delivered, c), log, seen))
    && (forall n <- q.packets :: q.packets[n].flags / 32 != 3)
  }

  /** `f` is frame `i` of `m`, under some datagram number. */
  ghost predicate Carries(f: Frame, m: Sent, i: nat) {
    i < |m.packets| && f == m.packets[i].frame.(sequenceNumber := f.sequenceNumber)
  }

  ghost function SeenAfter(seen: Seen, r: nat): Seen
    requires seen.Valid()
  {
    if seen.Has(r) || r >= seen.base + RECEIVE_WINDOW then seen else See(seen, r)
  }

  /** The next message to deliver is incomplete, so the window bounds how far ahead any other can be. */
  lemma OrderNear(o: Order, before: seq<seq<byte>>, log: seq<Sent>, seen: Seen, j: nat, r: nat)
    requires ValidLog(log) && seen.Valid() && j < |log| && log[j].Ordered()
    requires log[j].first <= r < log[j].Next() && !seen.Has(r) && r < seen.base + RECEIVE_WINDOW
    requires ChannelOk(o, log[j].channel, before, log, seen)
    ensures log[j].order < Reached(o, log[j].channel, before) + RECEIVE_WINDOW
  {
    hide ValidLog, Accepted, PayloadsOn, Done, ChannelOk;
    var c, e := log[j].channel, Reached(o, log[j].channel, before);
    EntryAccepted(log, j);
    if log[j].order > e {
      var k := ByOrder(log, c, e);
      NextIsIncomplete(o, c, before, log, seen, k);
      var x := Unseen(log[k], seen);
      if j < k {
        SpansApart(log, j, k);
      } else {
        SpansApart(log, k, j);
      }
    }
  }

  lemma NextIsIncomplete(o: Order, channel: byte, before: seq<seq<byte>>, log: seq<Sent>, seen: Seen, k: nat)
    requires ChannelOk(o, channel, before, log, seen) && k < |log| && On(log[k], channel)
    requires log[k].order == Reached(o, channel, before)
    ensures !Done(log[k], seen)
  {
    hide Accepted, PayloadsOn, Done;
  }

  lemma IndexInTurn(k: nat, e: nat)
    requires e <= k < e + RECEIVE_WINDOW
    ensures !Newer(Wrap(e), Wrap(k)) && Distance(Wrap(k), Wrap(e)) == k - e
  {
    DistanceAhead(k, e);
    NewerIsGreater(e, k);
  }

  /** What happens to an accepted reliable-ordered frame's own channel and group. */
  lemma OrderedAccepted(q: RecvState, f: Frame, before: seq<seq<byte>>, log: seq<Sent>, seen: Seen, later: Seen,
      j: nat, r: nat)
    requires ValidLog(log) && seen.Valid() && ReceiverValid(q) && GroupsOk(q.fragments, log, seen)
    requires SawNext(log, j, r, seen, later) && r < seen.base + RECEIVE_WINDOW && log[j].Ordered()
    requires Carries(f, log[j], r - log[j].first)
    requires ChannelOk(q.order, log[j].channel, before, log, seen)
    ensures var (q', res) := InsertOrdered(q, f);
      && q'.window == q.window && q'.packets == q.packets
      && (res.Ok? ==> GroupsOk(q'.fragments, log, later) && ChannelOk(q'.order, log[j].channel, before, log, later))
  {
    hide ValidLog, GroupsOk, Accepted, PayloadsOn, Done, ChannelOk, Place, InsertAndTake, Ahead, Counted, Bounded, Got,
      PieceOf, WholeFrame, Partial, Newer, Distance, Wrap;
    var c, e := log[j].channel, Reached(q.order, log[j].channel, before);
    OrderNear(q.order, before, log, seen, j, r);
    OneMore(log, j, r, seen, later);
    NotYetHeld(q.order, c, before, log, seen, j);
    IndexInTurn(log[j].order, e);
    CarriedPlace(f, log, j, r - log[j].first);
    forall k | 0 <= k < |log| && k != j ensures Done(log[k], later) == Done(log[k], seen) {
      OthersUnchanged(log, j, r, seen, later, k);
    }
    if log[j].Fragmented() {
      FragmentAccepted(q.fragments, f, log, seen, later, j, r);
      var (fragments, complete) := InsertAndTake(q.fragments, f);
      if complete.Ok? && complete.value.Some? {
        WholeFrameChannel(complete.value.value, log[j]);
        PlaceDelivers(q.order, complete.value.value, before, log, seen, later, j);
      } else if complete.Ok? {
        UntouchedItself(q.order, c);
        UntouchedDelivers(q.order, q.order, c, before, log, seen, later);
      }
    } else {
      GroupsUndisturbed(q.fragments, log, seen, later, j, r);
      SingleIsDone(log[j], r, later);
      WholeFrameChannel(f, log[j]);
      PlaceDelivers(q.order, f, before, log, seen, later, j);
    }
  }

  lemma SingleIsDone(m: Sent, r: nat, seen: Seen)
    requires !m.Fragmented() && m.first <= r < m.Next() && seen.Has(r)
    ensures Done(m, seen)
  {
    assert Arrived(m, seen, 0);
  }

  lemma WholeFrameChannel(f: Frame, m: Sent)
    requires WholeFrame(f, m)
    ensures f.channel == m.channel
  {
  }

  /** How a carried frame presents itself to the receiver. */
  lemma CarriedPlace(f: Frame, log: seq<Sent>, j: nat, i: nat)
    requires ValidLog(log) && j < |log| && Carries(f, log[j], i) && log[j].Ordered()
    ensures f.channel == log[j].channel && f.orderedIndex == Wrap(log[j].order)
    ensures f.IsFragment() <==> log[j].Fragmented()
    ensures log[j].Fragmented() ==> PieceOf(f, CutOf(log[j]), i)
    ensures !log[j].Fragmented() ==> WholeFrame(f, log[j])
  {
    hide ValidLog, Wrap, Flatten;
    EntryValid(log, j);
    if log[j].Fragmented() {
      MultiIsCut(log[j]);
      assert PieceOf(log[j].packets[i].frame, CutOf(log[j]), i);
    }
  }

  lemma CarriedMode(f: Frame, log: seq<Sent>, j: nat, i: nat)
    requires ValidLog(log) && j < |log| && Carries(f, log[j], i)
    ensures f.Mode() == Ok(log[j].mode) && ModeReliable(log[j].mode)
    ensures f.reliableIndex == Wrap(log[j].first + i)
    ensures log[j].Ordered() ==> f.channel == log[j].channel
    ensures !log[j].Ordered() ==> f.flags / 32 != 3 && !log[j].Fragmented()
  {
    hide ValidLog, Wrap, Flatten;
    EntryValid(log, j);
    if log[j].Ordered() {
      CarriedPlace(f, log, j, i);
    }
  }

  /** An accepted frame that is not ordered changes no channel and no group. */
  lemma UnorderedAccepted(q: RecvState, f: Frame, log: seq<Sent>, seen: Seen, later: Seen, j: nat, r: nat,
      before: seq<seq<byte>>, c: byte)
    requires ValidLog(log) && SawNext(log, j, r, seen, later) && !log[j].Ordered()
    requires ChannelOk(q.order, c, before, log, seen)
    ensures ChannelOk(q.order, c, before, log, later)
  {
    hide ValidLog, ChannelOk, Done, Got;
    forall k | 0 <= k < |log| && On(log[k], c) ensures Done(log[k], later) == Done(log[k], seen) {
      OthersUnchanged(log, j, r, seen, later, k);
    }
    UntouchedItself(q.order, c);
    UntouchedDelivers(q.order, q.order, c, before, log, seen, later);
  }

  lemma DeliverPackets(q: RecvState, f: Frame, mode: Reliability)
    requires mode != ReliableOrdered && f.flags / 32 != 3 && forall n <- q.packets :: q.packets[n].flags / 32 != 3
    ensures var (q', r) := Deliver(q, f, mode);
      && r.Ok? && q'.order == q.order && q'.fragments == q.fragments && q'.window == q.window
      && (forall n <- q'.packets :: q'.packets[n].flags / 32 != 3)
  {
    hide InsertOrdered, Newer, Next;
  }

  lemma SeenNext(log: seq<Sent>, seen: Seen, j: nat, r: nat)
    requires seen.Valid() && j < |log| && log[j].first <= r < log[j].Next()
    requires !seen.Has(r) && r < seen.base + RECEIVE_WINDOW
    ensures SawNext(log, j, r, seen, SeenAfter(seen, r)) && SeenAfter(seen, r).Valid()
  {
  }

  /** The accepted frame's effect on everything but the window itself. */
  lemma NewFrameAccepted(q: RecvState, f: Frame, delivered: seq<Frame>, log: seq<Sent>, seen: Seen, later: Seen,
      j: nat, r: nat)
    requires ValidLog(log) && seen.Valid() && ReceiverValid(q) && GroupsOk(q.fragments, log, seen)
    requires SawNext(log, j, r, seen, later) && r < seen.base + RECEIVE_WINDOW && Carries(f, log[j], r - log[j].first)
    requires forall c: byte :: ChannelOk(q.order, c, PayloadsOn(delivered, c), log, seen)
    requires forall n <- q.packets :: q.packets[n].flags / 32 != 3
    ensures var (q', res) := Deliver(q, f, log[j].mode);
      && q'.window == q.window
      && (res.Ok? ==>
            && GroupsOk(q'.fragments, log, later)
            && (forall n <- q'.packets :: q'.packets[n].flags / 32 != 3)
            && (log[j].Ordered() ==> ChannelOk(q'.order, f.channel, PayloadsOn(delivered, f.channel), log, later))
            && (!log[j].Ordered() ==> forall c: byte :: ChannelOk(q'.order, c, PayloadsOn(delivered, c), log, later)))
  {
    hide ValidLog, GroupsOk, PayloadsOn, ChannelOk, InsertOrdered, InsertSequenced, ReceiverValid;
    CarriedMode(f, log, j, r - log[j].first);
    if log[j].Ordered() {
      OrderedAccepted(q, f, PayloadsOn(delivered, f.channel), log, seen, later, j, r);
    } else {
      DeliverPackets(q, f, log[j].mode);
      GroupsUndisturbed(q.fragments, log, seen, later, j, r);
      forall c: byte ensures ChannelOk(q.order, c, PayloadsOn(delivered, c), log, later) {
        UnorderedAccepted(q, f, log, seen, later, j, r, PayloadsOn(delivered, c), c);
      }
    }
  }

  /** Channels other than the frame's own. */
  lemma OtherChannels(q: RecvState, f: Frame, before: seq<seq<byte>>, log: seq<Sent>, seen: Seen, later: Seen, j: nat,
      r: nat, c: byte)
    requires ValidLog(log) && ReceiverValid(q) && SawNext(log, j, r, seen, later) && log[j].Ordered()
    requires c != f.channel == log[j].channel && ChannelOk(q.order, c, before, log, seen)
    ensures ChannelOk(Receive(q, f).0.order, c, before, log, later)
  {
    hide ValidLog, ChannelOk, Done, Got, ReceiverValid, Receive, Untouched;
    ReceiveKeeps(q, f, c);
    forall k | 0 <= k < |log| && On(log[k], c) ensures Done(log[k], later) == Done(log[k], seen) {
      OthersUnchanged(log, j, r, seen, later, k);
    }
    UntouchedDelivers(q.order, Receive(q, f).0.order, c, before, log, seen, later);
  }

  /** The three ways a reliable frame can be received. */
  lemma ReceiveSplits(q: RecvState, f: Frame, mode: Reliability)
    requires f.Mode() == Ok(mode) && ModeReliable(mode)
    ensures var (w, first) := Accept(q.window, f.reliableIndex);
      var q1 := q.(acks := AckSet.Insert(q.acks, f.sequenceNumber), window := w);
      Receive(q, f) == if first.Err? then (q1, Err(first.error)) else if !first.value then (q1, Ok(()))
        else Deliver(q1, f, mode)
  {
    hide Accept, AckSet.Insert, Deliver;
  }

  /**
   Receiving any reliable frame of the log, new or repeated, in any order:
   the receiver keeps handing over, on every channel, exactly the accepted
   payloads in order, and remembers the frame.
   */
  lemma ReceiveReliable(q: RecvState, f: Frame, delivered: seq<Frame>, log: seq<Sent>, seen: Seen, j: nat, r: nat)
    requires ValidLog(log) && InboundOk(q, delivered, log, seen)
    requires j < |log| && log[j].first <= r < log[j].Next() && Carries(f, log[j], r - log[j].first)
    requires seen.base - HALF <= r < seen.base + HALF
    ensures var (q', res) := Receive(q, f);
      res.Ok? ==> SeenAfter(seen, r).Has(r) && InboundOk(q', delivered, log, SeenAfter(seen, r))
  {
    hide ValidLog, GroupsOk, PayloadsOn, ChannelOk, Accept, Receive, Deliver, Represents, ReceiverValid;
    RepresentsValid(q.window, seen);
    CarriedMode(f, log, j, r - log[j].first);
    AcceptRefines(q.window, seen, r);
    ReceiveSplits(q, f, log[j].mode);
    var (w, first) := Accept(q.window, f.reliableIndex);
    var q1 := q.(acks := AckSet.Insert(q.acks, f.sequenceNumber), window := w);
    ValidIgnores(q, q1.acks, w);
    var (q', res) := Receive(q, f);
    if res.Ok? && !seen.Has(r) {
      var later := SeenAfter(seen, r);
      SeenNext(log, seen, j, r);
      NewFrameAccepted(q1, f, delivered, log, seen, later, j, r);
      ReceiveKeeps(q, f, 0);
      EntryInside(log, j);
      if log[j].Ordered() {
        forall c: byte ensures ChannelOk(q'.order, c, PayloadsOn(delivered, c), log, later) {
          if c != f.channel {
            OtherChannels(q, f, PayloadsOn(delivered, c), log, seen, later, j, r, c);
          }
        }
      }
    }
  }

  lemma RepresentsValid(w: WindowState, seen: Seen)
    requires Represents(w, seen)
    ensures seen.Valid()
  {
  }

  lemma ValidIgnores(q: RecvState, acks: AckSet.AckState, window: WindowState)
    requires ReceiverValid(q)
    ensures ReceiverValid(q.(acks := acks, window := window))
  {
  }

  /** Unreliable frames touch no ordered state. */
  lemma ReceiveUnreliable(q: RecvState, f: Frame, delivered: seq<Frame>, log: seq<Sent>, seen: Seen)
    requires InboundOk(q, delivered, log, seen) && f.Mode().Ok? && !ModeReliable(f.Mode().value)
    ensures var (q', res) := Receive(q, f); res.Ok? && InboundOk(q', delivered, log, seen)
  {
    hide GroupsOk, PayloadsOn, ChannelOk, AckSet.Insert, Accept, Represents, Deliver, ReceiverValid;
    var q1 := q.(acks := AckSet.Insert(q.acks, f.sequenceNumber));
    UnreliableFlags(f);
    DeliverPackets(q1, f, f.Mode().value);
    ReceiveKeeps(q, f, 0);
  }

  lemma UnreliableFlags(f: Frame)
    requires f.Mode().Ok? && !ModeReliable(f.Mode().value)
    ensures f.flags / 32 != 3 && f.Mode().value != ReliableOrdered
  {
  }

  // ---------------------------------------------------------------------
  // Handing over.

  lemma {:induction false} PacketsAreUnordered(packets: map<u24, Frame>, channel: byte)
    requires forall n <- packets :: packets[n].flags / 32 != 3
    ensures PayloadsOn(InOrder(packets), channel) == []
    decreases |packets|
  {
    hide PayloadsOn;
    NoPayloads(channel);
    if packets != map[] {
      var k := Least(packets.Keys);
      var rest := InOrder(packets - {k});
      PacketsAreUnordered(packets - {k}, channel);
      PayloadsSnoc([], packets[k], channel);
      assert [] + [packets[k]] == [packets[k]];
      PayloadsConcat([packets[k]], rest, channel);
    }
  }

  /** Handing the ready frames over only moves the line between ready and delivered. */
  lemma FlushDelivers(q: RecvState, delivered: seq<Frame>, log: seq<Sent>, seen: Seen)
    requires InboundOk(q, delivered, log, seen)
    ensures var (q', out) := Flush(q); InboundOk(q', delivered + out, log, seen)
  {
    hide GroupsOk, PayloadsOn, ChannelOk, InOrder, Represents, ReceiverValid;
    var (q', out) := Flush(q);
    forall c: byte ensures ChannelOk(q'.order, c, PayloadsOn(delivered + out, c), log, seen) {
      FlushedChannel(q.order, delivered, InOrder(q.packets), c, log, seen) by {
        PacketsAreUnordered(q.packets, c);
      }
    }
    FlushKeepsReceiver(q);
  }

  lemma FlushedChannel(o: Order, delivered: seq<Frame>, loose: seq<Frame>, c: byte, log: seq<Sent>, seen: Seen)
    requires ChannelOk(o, c, PayloadsOn(delivered, c), log, seen) && PayloadsOn(loose, c) == []
    ensures ChannelOk(o.(ready := [], readyBytes := 0), c, PayloadsOn(delivered + (o.ready + loose), c), log, seen)
  {
    hide PayloadsOn, Accepted, Done;
    PayloadsConcat(o.ready, loose, c);
    PayloadsConcat(delivered, o.ready + loose, c);
    NoPayloads(c);
    var o', e := o.(ready := [], readyBytes := 0), Reached(o, c, PayloadsOn(delivered, c));
    assert PayloadsOn(o.ready, c) + [] == PayloadsOn(o.ready, c);
    var all := PayloadsOn(delivered, c) + PayloadsOn(o.ready, c);
    assert all + [] == all;
    forall k: nat ensures InHeld(o', c, k, e) == InHeld(o, c, k, e) {
    }
  }

  lemma FlushKeepsReceiver(q: RecvState)
    requires ReceiverValid(q)
    ensures ReceiverValid(Flush(q).0)
  {
    hide Sums.Sum, InOrder;
    PayloadBytesPositive(q.order.ready);
  }

  lemma {:induction false} PayloadBytesPositive(frames: seq<Frame>)
    ensures PayloadBytes(frames) >= 0
  {
  }

  /** What has been handed over on a channel is a prefix of what was accepted for it. */
  lemma DeliveredIsPrefix(q: RecvState, delivered: seq<Frame>, log: seq<Sent>, seen: Seen, c: byte)
    requires InboundOk(q, delivered, log, seen)
    ensures PayloadsOn(delivered, c) <= Accepted(log, c)
  {
    hide PayloadsOn, Accepted, Done;
    assert ChannelOk(q.order, c, PayloadsOn(delivered, c), log, seen);
  }

  /** More messages in the log leave the receiver where it was. */
  lemma LogGrows(q: RecvState, delivered: seq<Frame>, log: seq<Sent>, m: Sent, seen: Seen)
    requires ValidLog(log + [m]) && InboundOk(q, delivered, log, seen)
    ensures InboundOk(q, delivered, log + [m], seen)
  {
    var log' := log + [m];
    assert log'[..|log|] == log;
    assert Serials(log') == Serials(log) + |m.packets| && m.first == Serials(log) && WellSent(m);
    hide ValidLog, WellSent, Serials, Represents, ReceiverValid, PayloadsOn, ChannelOk, GroupsOk;
    NothingArrived(m, seen);
    GroupsGrow(q.fragments, log, m, seen);
    forall c: byte ensures ChannelOk(q.order, c, PayloadsOn(delivered, c), log', seen) {
      ChannelGrows(q.order, c, PayloadsOn(delivered, c), log, m, seen);
    }
  }

  lemma NothingArrived(m: Sent, seen: Seen)
    requires m.packets != [] && forall n: nat | seen.Has(n) :: n < m.first
    ensures Got(m, seen) == {} && !Done(m, seen) && !Partial(m, seen)
  {
    forall i: nat | i < |m.packets| ensures !Arrived(m, seen, i) {
    }
    assert 0 !in Got(m, seen);
  }

  lemma GroupsGrow(q: FragmentState, log: seq<Sent>, m: Sent, seen: Seen)
    requires GroupsOk(q, log, seen) && !Partial(m, seen)
    ensures GroupsOk(q, log + [m], seen)
  {
    hide Partial, GroupHolds, Got;
    var log' := log + [m];
    forall id <- q.groups ensures exists k | 0 <= k < |log'| :: Owns(log'[k], seen, id) {
      var k :| 0 <= k < |log| && Owns(log[k], seen, id);
      assert Owns(log'[k], seen, id);
    }
  }

  lemma ChannelGrows(o: Order, c: byte, before: seq<seq<byte>>, log: seq<Sent>, m: Sent, seen: Seen)
    requires ValidLog(log + [m]) && ChannelOk(o, c, before, log, seen) && !Done(m, seen)
    ensures ChannelOk(o, c, before, log + [m], seen)
  {
    hide PayloadsOn, Done, WellSent;
    var log', e := log + [m], Reached(o, c, before);
    LogSnoc(log, m, c);
    assert On(m, c) ==> m.order == |Accepted(log, c)|;
    assert Accepted(log, c)[..e] == Accepted(log', c)[..e];
    hide Accepted, ValidLog;
    assert forall k: nat | InHeld(o, c, k, e) :: k < |Accepted(log, c)|;
  }
}
