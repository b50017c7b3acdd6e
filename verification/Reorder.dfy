// The receive queue's reordering, compared with the plain buffer it replaces:
// store every message, then release what has become contiguous.
module Reorder {
  import opened Bytes
  import opened Errors
  import opened Fragments
  import opened Frames
  import opened Receiver
  import opened Serial
  import opened Sums
  import AckSet
  import Window

  // ---------------------------------------------------------------------
  // What every insertion keeps.

  ghost function HeldCharges(held: map<Key, Frame>): map<Key, nat> {
    map key | key in held :: |held[key].data|
  }

  ghost function PayloadBytes(frames: seq<Frame>): nat {
    if frames == [] then 0 else PayloadBytes(frames[..|frames| - 1]) + |frames[|frames| - 1].data|
  }

  /** Held frames sit under their own channel and index, strictly ahead of what the channel expects. */
  ghost predicate Ahead(o: Order) {
    forall key <- o.held ::
      && o.held[key].channel == key.0 && o.held[key].orderedIndex == key.1
      && 0 < Distance(key.1, o.expected.Get(key.0)) < RECEIVE_WINDOW
  }

  /** Both byte counters are the sums of the payloads they stand for. */
  ghost predicate Counted(o: Order) {
    o.heldBytes == Sum(HeldCharges(o.held)) && o.readyBytes == PayloadBytes(o.ready)
  }

  ghost predicate Bounded(o: Order) {
    |o.held| + |o.ready| <= RECEIVE_WINDOW && o.heldBytes + o.readyBytes <= MAX_HELD_BYTES
  }

  /** As `Ahead`, while `channel` is about to expect `expected`, which may itself be held. */
  ghost predicate AheadOf(o: Order, channel: byte, expected: u24) {
    forall key <- o.held ::
      && o.held[key].channel == key.0 && o.held[key].orderedIndex == key.1
      && (if key.0 == channel then Distance(key.1, expected) < RECEIVE_WINDOW
          else 0 < Distance(key.1, o.expected.Get(key.0)) < RECEIVE_WINDOW)
  }

  lemma MoveKeepsAhead(o: Order, channel: byte, expected: u24)
    requires AheadOf(o, channel, expected) && (channel, expected) in o.held
    ensures AheadOf(Move(o, (channel, expected)), channel, Next(expected))
  {
    var o' := Move(o, (channel, expected));
    forall k | k in o'.held && k.0 == channel
      ensures Distance(k.1, Next(expected)) < RECEIVE_WINDOW
    {
      assert k.1 != expected;
      StepCloser(k.1, expected);
    }
  }

  lemma ReleaseEnds(o: Order, channel: byte, expected: u24)
    requires AheadOf(o, channel, expected) && (channel, expected) !in o.held
    ensures Ahead(o.(expected := o.expected.Set(channel, expected)))
  {
    forall k | k in o.held && k.0 == channel
      ensures Distance(k.1, expected) > 0
    {
      StepCloser(k.1, expected);
    }
  }

  lemma {:induction false} ReleaseKeepsAhead(o: Order, channel: byte, expected: u24)
    requires AheadOf(o, channel, expected)
    ensures Ahead(Release(o, channel, expected))
    decreases |o.held|
  {
    if (channel, expected) !in o.held {
      ReleaseEnds(o, channel, expected);
    } else {
      hide AheadOf, Ahead, Move;
      MoveKeepsAhead(o, channel, expected);
      MoveShrinks(o, (channel, expected));
      ReleaseKeepsAhead(Move(o, (channel, expected)), channel, Next(expected));
    }
  }

  lemma StepCloser(index: u24, expected: u24)
    requires index != expected
    ensures Distance(index, expected) > 0
    ensures Distance(index, Next(expected)) == Distance(index, expected) - 1
  {
  }

  lemma PayloadSnoc(frames: seq<Frame>, f: Frame)
    ensures PayloadBytes(frames + [f]) == PayloadBytes(frames) + |f.data|
  {
    assert (frames + [f])[..|frames|] == frames;
  }

  lemma HeldRemove(held: map<Key, Frame>, key: Key)
    requires key in held
    ensures Sum(HeldCharges(held)) == |held[key].data| + Sum(HeldCharges(held - {key}))
  {
    SumRemove(HeldCharges(held), key);
    assert HeldCharges(held - {key}) == HeldCharges(held) - {key};
  }

  /** Size and bytes of everything in the queue. */
  ghost predicate SameTotals(o: Order, o': Order) {
    && |o'.held| + |o'.ready| == |o.held| + |o.ready|
    && o'.heldBytes + o'.readyBytes == o.heldBytes + o.readyBytes
  }

  lemma MoveKeepsCounted(o: Order, key: Key)
    requires Counted(o) && key in o.held
    ensures Counted(Move(o, key)) && SameTotals(o, Move(o, key))
  {
    hide Sum, PayloadBytes, HeldCharges;
    HeldRemove(o.held, key);
    PayloadSnoc(o.ready, o.held[key]);
  }

  lemma {:induction false} ReleaseKeepsCounted(o: Order, channel: byte, expected: u24)
    requires Counted(o)
    ensures Counted(Release(o, channel, expected)) && SameTotals(o, Release(o, channel, expected))
    decreases |o.held|
  {
    if (channel, expected) in o.held {
      hide Counted, Move;
      MoveKeepsCounted(o, (channel, expected));
      MoveShrinks(o, (channel, expected));
      ReleaseKeepsCounted(Move(o, (channel, expected)), channel, Next(expected));
    }
  }

  lemma MoveShrinks(o: Order, key: Key)
    requires key in o.held
    ensures |Move(o, key).held| < |o.held|
  {
  }

  lemma PushKeeps(o: Order, f: Frame)
    requires Ahead(o) && Counted(o) && f.orderedIndex == o.expected.Get(f.channel)
    ensures AheadOf(PushReady(o, f), f.channel, Next(f.orderedIndex)) && Counted(PushReady(o, f))
  {
    hide Sum, PayloadBytes, HeldCharges;
    PayloadSnoc(o.ready, f);
    forall k | k in o.held && k.0 == f.channel
      ensures Distance(k.1, Next(f.orderedIndex)) < RECEIVE_WINDOW
    {
      StepCloser(k.1, f.orderedIndex);
    }
  }

  lemma HoldKeeps(o: Order, f: Frame)
    requires Ahead(o) && Counted(o) && (f.channel, f.orderedIndex) !in o.held
    requires 0 < Distance(f.orderedIndex, o.expected.Get(f.channel)) < RECEIVE_WINDOW
    ensures Ahead(Hold(o, f)) && Counted(Hold(o, f))
  {
    hide Sum, PayloadBytes, HeldCharges;
    var key := (f.channel, f.orderedIndex);
    HeldRemove(o.held[key := f], key);
    assert o.held[key := f] - {key} == o.held;
  }

  /** A message the queue takes leaves it counted, bounded, and with nothing at or behind its turn. */
  lemma PlaceKeeps(o: Order, f: Frame)
    requires Ahead(o) && Counted(o) && Bounded(o)
    requires Distance(f.orderedIndex, o.expected.Get(f.channel)) < RECEIVE_WINDOW
    ensures var (o', r) := Place(o, f, o.expected.Get(f.channel));
      Ahead(o') && Counted(o') && Bounded(o') && (r.Err? ==> o' == o)
  {
    hide Ahead, Counted, AheadOf, Release;
    if (f.channel, f.orderedIndex) !in o.held && !Overfull(o, f) {
      if f.orderedIndex == o.expected.Get(f.channel) {
        PushKeeps(o, f);
        ReleaseKeepsAhead(PushReady(o, f), f.channel, Next(f.orderedIndex));
        ReleaseKeepsCounted(PushReady(o, f), f.channel, Next(f.orderedIndex));
      } else {
        StepCloser(f.orderedIndex, o.expected.Get(f.channel));
        HoldKeeps(o, f);
      }
    }
  }

  // ---------------------------------------------------------------------
  // The plain reorder buffer.

  /** Always store, then release from the expected index. */
  function StoreAndRelease(o: Order, f: Frame): Order {
    Release(Hold(o, f), f.channel, o.expected.Get(f.channel))
  }

  ghost predicate Same(a: Order, b: Order) {
    && a.held == b.held && a.heldBytes == b.heldBytes && a.ready == b.ready && a.readyBytes == b.readyBytes
    && forall channel: byte :: a.expected.Get(channel) == b.expected.Get(channel)
  }

  /** The contiguous bypass does what the plain buffer does. */
  lemma BypassRefinesBuffer(o: Order, f: Frame)
    requires Ahead(o)
    ensures var (o', r) := Place(o, f, o.expected.Get(f.channel));
      r.Ok? && (f.channel, f.orderedIndex) !in o.held ==> Same(o', StoreAndRelease(o, f))
  {
    var expected := o.expected.Get(f.channel);
    var key := (f.channel, f.orderedIndex);
    if key !in o.held && !Overfull(o, f) {
      if f.orderedIndex == expected {
        assert Hold(o, f).held - {key} == o.held;
        assert Move(Hold(o, f), key) == PushReady(o, f);
      } else {
        assert (f.channel, expected) !in Hold(o, f).held;
      }
    }
  }

  // ---------------------------------------------------------------------
  // Channels do not disturb each other.

  function OnChannel(frames: seq<Frame>, channel: byte): seq<Frame> {
    if frames == [] then []
    else
      var front, last := OnChannel(frames[..|frames| - 1], channel), frames[|frames| - 1];
      if last.channel == channel then front + [last] else front
  }

  lemma OnChannelSnoc(frames: seq<Frame>, f: Frame, channel: byte)
    ensures OnChannel(frames + [f], channel)
         == OnChannel(frames, channel) + (if f.channel == channel then [f] else [])
  {
    assert (frames + [f])[..|frames|] == frames;
  }

  ghost predicate Untouched(o: Order, o': Order, channel: byte) {
    && o'.expected.Get(channel) == o.expected.Get(channel)
    && OnChannel(o'.ready, channel) == OnChannel(o.ready, channel)
    && (forall index: u24 :: (channel, index) in o'.held <==> (channel, index) in o.held)
    && (forall index: u24 | (channel, index) in o.held :: o'.held[(channel, index)] == o.held[(channel, index)])
  }

  lemma UntouchedTransitive(a: Order, b: Order, c: Order, channel: byte)
    requires Untouched(a, b, channel) && Untouched(b, c, channel)
    ensures Untouched(a, c, channel)
  {
    hide OnChannel;
  }

  lemma MoveLeavesOthers(o: Order, key: Key, other: byte)
    requires key in o.held && other != key.0 && o.held[key].channel == key.0
    ensures Untouched(o, Move(o, key), other)
  {
    OnChannelSnoc(o.ready, o.held[key], other);
  }

  lemma {:induction false} ReleaseLeavesOthers(o: Order, channel: byte, expected: u24, other: byte)
    requires other != channel && AheadOf(o, channel, expected)
    ensures Untouched(o, Release(o, channel, expected), other)
    decreases |o.held|
  {
    if (channel, expected) in o.held {
      MoveKeepsAhead(o, channel, expected);
      MoveLeavesOthers(o, (channel, expected), other);
      MoveShrinks(o, (channel, expected));
      hide Untouched, AheadOf, Move;
      var o' := Move(o, (channel, expected));
      ReleaseLeavesOthers(o', channel, Next(expected), other);
      UntouchedTransitive(o, o', Release(o', channel, Next(expected)), other);
    }
  }

  lemma PlaceLeavesOthers(o: Order, f: Frame, other: byte)
    requires Ahead(o) && Counted(o) && other != f.channel
    ensures Untouched(o, Place(o, f, o.expected.Get(f.channel)).0, other)
  {
    if (f.channel, f.orderedIndex) !in o.held && !Overfull(o, f) && f.orderedIndex == o.expected.Get(f.channel) {
      hide Counted, Ahead, Release;
      PushKeeps(o, f);
      OnChannelSnoc(o.ready, f, other);
      var o1 := PushReady(o, f);
      assert Untouched(o, o1, other);
      ReleaseLeavesOthers(o1, f.channel, Next(f.orderedIndex), other);
      UntouchedTransitive(o, o1, Release(o1, f.channel, Next(f.orderedIndex)), other);
    }
  }

  /** A message completed by a fragment keeps the fragment's channel, index and mode. */
  lemma CompletedKeepsPlace(q: FragmentState, f: Frame)
    requires q.Valid()
    ensures var (_, r) := InsertAndTake(q, f);
      r.Ok? && r.value.Some? ==>
        && r.value.value.channel == f.channel && r.value.value.orderedIndex == f.orderedIndex
        && r.value.value.flags / 32 == f.flags / 32 && !r.value.value.IsFragment()
  {
    hide InsertPiece, Merge, Refused, NewGroup;
    var g := if f.compoundId in q.groups then q.groups[f.compoundId] else NewGroup(f);
    PieceFits(g, f);
    var (q1, inserted) := InsertFrame(q, f);
    if inserted.Ok? {
      assert q1.groups[f.compoundId] == InsertPiece(g, f).0;
    }
  }

  lemma PieceFits(g: Group, f: Frame)
    requires !g.Full() || g == NewGroup(f)
    ensures var (g', added) := InsertPiece(g, f);
      added.Ok? && Merge(g').Ok? ==>
        var m := Merge(g').value;
        && m.channel == f.channel && m.orderedIndex == f.orderedIndex
        && m.flags / 32 == f.flags / 32 && !m.IsFragment()
  {
    hide Joined, Complete;
  }

  ghost predicate ReceiverValid(q: RecvState) {
    Ahead(q.order) && Counted(q.order) && Bounded(q.order) && q.fragments.Valid()
  }

  /**
   Every received frame keeps the reordering invariants and leaves every
   channel but its own exactly as it was.
   */
  lemma ReceiveKeeps(q: RecvState, f: Frame, other: byte)
    requires ReceiverValid(q)
    ensures var (q', r) := Receive(q, f);
      && (r.Ok? ==> ReceiverValid(q'))
      && (other != f.channel ==> Untouched(q.order, q'.order, other))
  {
    hide Ahead, Counted, Bounded, Place, Window.Accept, AckSet.Insert, InsertAndTake;
    var expected := q.order.expected.Get(f.channel);
    if f.IsFragment() {
      var (_, complete) := InsertAndTake(q.fragments, f);
      CompletedKeepsPlace(q.fragments, f);
      InsertionKeepsValid(q.fragments, f);
      if complete.Ok? && complete.value.Some? {
        PlaceBoth(q.order, complete.value.value, other);
      }
    } else {
      PlaceBoth(q.order, f, other);
    }
  }

  lemma PlaceBoth(o: Order, f: Frame, other: byte)
    requires Ahead(o) && Counted(o) && Bounded(o)
    ensures var (o', r) := Place(o, f, o.expected.Get(f.channel));
      && (Distance(f.orderedIndex, o.expected.Get(f.channel)) < RECEIVE_WINDOW ==>
            Ahead(o') && Counted(o') && Bounded(o'))
      && (other != f.channel ==> Untouched(o, o', other))
  {
    hide Ahead, Counted, Bounded, Place, Untouched;
    if Distance(f.orderedIndex, o.expected.Get(f.channel)) < RECEIVE_WINDOW {
      PlaceKeeps(o, f);
    }
    if other != f.channel {
      PlaceLeavesOthers(o, f, other);
    }
  }

  // ---------------------------------------------------------------------
  // Whole runs against a receive queue with the plain buffer.

  /** As `Place`, without the bypass. */
  function PlacePlain(o: Order, f: Frame): (Order, Result<()>) {
    if (f.channel, f.orderedIndex) in o.held then (o, Ok(()))
    else if Overfull(o, f) then (o, Err(PacketParseError))
    else (StoreAndRelease(o, f), Ok(()))
  }

  /** The message an ordered frame completes, if it is neither late nor too far ahead. */
  function Completed(q: RecvState, f: Frame): (RecvState, Result<Option<Frame>>) {
    var expected := q.order.expected.Get(f.channel);
    if Newer(expected, f.orderedIndex) then (q, Ok(None))
    else if Distance(f.orderedIndex, expected) >= RECEIVE_WINDOW then (q, Err(PacketParseError))
    else if f.IsFragment() then
      var (fragments, complete) := InsertAndTake(q.fragments, f);
      (q.(fragments := fragments), complete)
    else (q, Ok(Some(f)))
  }

  function InsertPlain(q: RecvState, f: Frame): (RecvState, Result<()>) {
    var (q1, m) := Completed(q, f);
    if m.Err? then (q1, Err(m.error))
    else if m.value.None? then (q1, Ok(()))
    else
      var (order, r) := PlacePlain(q1.order, m.value.value);
      (q1.(order := order), r)
  }

  /** Frames of the other modes never meet the buffer. */
  function ReceivePlain(q: RecvState, f: Frame): (RecvState, Result<()>) {
    if f.Mode() != Ok(ReliableOrdered) then Receive(q, f)
    else
      var (window, first) := Window.Accept(q.window, f.reliableIndex);
      var q1 := q.(acks := AckSet.Insert(q.acks, f.sequenceNumber), window := window);
      if first.Err? then (q1, Err(first.error))
      else if !first.value then (q1, Ok(()))
      else InsertPlain(q1, f)
  }

  /** Equal but for how the buffer writes its expected indexes. */
  ghost predicate Alike(a: RecvState, b: RecvState) {
    b == a.(order := b.order) && Same(a.order, b.order)
  }

  lemma SameMoves(a: Order, b: Order, key: Key)
    requires Same(a, b) && key in a.held
    ensures Same(Move(a, key), Move(b, key))
  {
  }

  lemma {:induction false} SameReleases(a: Order, b: Order, channel: byte, expected: u24)
    requires Same(a, b)
    ensures Same(Release(a, channel, expected), Release(b, channel, expected))
    decreases |a.held|
  {
    if (channel, expected) in a.held {
      MoveShrinks(a, (channel, expected));
      SameMoves(a, b, (channel, expected));
      hide Same, Move;
      SameReleases(Move(a, (channel, expected)), Move(b, (channel, expected)), channel, Next(expected));
    }
  }

  lemma SameTransitive(a: Order, b: Order, c: Order)
    requires Same(a, b) && Same(b, c)
    ensures Same(a, c)
  {
  }

  lemma PlaceRefines(a: Order, b: Order, f: Frame)
    requires Ahead(a) && Same(a, b)
    ensures var (a', r) := Place(a, f, a.expected.Get(f.channel));
      r == PlacePlain(b, f).1 && Same(a', PlacePlain(b, f).0)
  {
    hide Ahead, Release;
    BypassRefinesBuffer(a, f);
    if (f.channel, f.orderedIndex) !in a.held && !Overfull(a, f) {
      assert Same(Hold(a, f), Hold(b, f));
      SameReleases(Hold(a, f), Hold(b, f), f.channel, a.expected.Get(f.channel));
      SameTransitive(Place(a, f, a.expected.Get(f.channel)).0, StoreAndRelease(a, f), StoreAndRelease(b, f));
    }
  }

  lemma InsertRefines(a: RecvState, b: RecvState, f: Frame)
    requires ReceiverValid(a) && Alike(a, b)
    ensures InsertOrdered(a, f).1 == InsertPlain(b, f).1 && Alike(InsertOrdered(a, f).0, InsertPlain(b, f).0)
  {
    hide Ahead, Counted, Bounded, Place, PlacePlain, Newer, Distance, InsertAndTake;
    if f.IsFragment() {
      var (_, complete) := InsertAndTake(a.fragments, f);
      CompletedKeepsPlace(a.fragments, f);
      if complete.Ok? && complete.value.Some? {
        PlaceRefines(a.order, b.order, complete.value.value);
      }
    } else {
      PlaceRefines(a.order, b.order, f);
    }
  }

  /** One frame of any mode: equal queues decide alike and stay equal. */
  lemma ReceiveRefines(a: RecvState, b: RecvState, f: Frame)
    requires ReceiverValid(a) && Alike(a, b)
    ensures Receive(a, f).1 == ReceivePlain(b, f).1 && Alike(Receive(a, f).0, ReceivePlain(b, f).0)
  {
    hide ReceiverValid, InsertOrdered, InsertPlain, Newer, Window.Accept, AckSet.Insert;
    if f.Mode() == Ok(ReliableOrdered) {
      var (window, first) := Window.Accept(a.window, f.reliableIndex);
      var acks := AckSet.Insert(a.acks, f.sequenceNumber);
      OnlyPlaceMatters(a, acks, window);
      InsertRefines(a.(acks := acks, window := window), b.(acks := acks, window := window), f);
    }
  }

  lemma OnlyPlaceMatters(q: RecvState, acks: AckSet.AckState, window: Window.WindowState)
    requires ReceiverValid(q)
    ensures ReceiverValid(q.(acks := acks, window := window))
  {
  }

  /** A frame arrives, or the queue is flushed to the application. */
  datatype Event = Arrive(frame: Frame) | HandOver

  /** What a run hands over, event by event, or the refusal that ends it. */
  ghost function Outcomes(q: RecvState, events: seq<Event>, plain: bool): (RecvState, Result<seq<seq<Frame>>>) {
    if events == [] then (q, Ok([]))
    else
      var (q1, r) := Outcomes(q, events[..|events| - 1], plain);
      if r.Err? then (q1, r)
      else
        match events[|events| - 1]
        case HandOver => (Flush(q1).0, Ok(r.value + [Flush(q1).1]))
        case Arrive(f) =>
          var (q2, taken) := if plain then ReceivePlain(q1, f) else Receive(q1, f);
          if taken.Err? then (q2, Err(taken.error)) else (q2, Ok(r.value + [[]]))
  }

  lemma PayloadEmpty()
    ensures PayloadBytes([]) == 0
  {
  }

  lemma FlushKeeps(q: RecvState)
    requires ReceiverValid(q)
    ensures ReceiverValid(Flush(q).0)
  {
    hide Sum, HeldCharges, PayloadBytes;
    PayloadEmpty();
  }

  /**
   Over every run of arrivals and hand-overs the queue hands over the same
   frames at the same moments as one with the plain buffer, and refuses a frame
   exactly when that one does.
   */
  lemma {:induction false} RunRefinesBuffer(a: RecvState, b: RecvState, events: seq<Event>)
    requires ReceiverValid(a) && Alike(a, b)
    ensures var (a', r) := Outcomes(a, events, false); var (b', plain) := Outcomes(b, events, true);
      r == plain && (r.Ok? ==> ReceiverValid(a') && Alike(a', b'))
    decreases |events|
  {
    hide ReceiverValid, Receive, ReceivePlain;
    if events != [] {
      var front, last := events[..|events| - 1], events[|events| - 1];
      RunRefinesBuffer(a, b, front);
      var (a1, r) := Outcomes(a, front, false);
      if r.Ok? {
        var b1 := Outcomes(b, front, true).0;
        match last
        case HandOver => FlushKeeps(a1);
        case Arrive(f) =>
          ReceiveRefines(a1, b1, f);
          ReceiveKeeps(a1, f, f.channel);
      }
    }
  }
}
