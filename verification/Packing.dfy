/** How a flush packs frames into datagrams, and how the socket sends them. */
module Packing {
  import opened AckSet
  import opened Bytes
  import opened DeadlineRuns
  import opened Deadlines
  import opened Errors
  import opened FrameCodec
  import opened Frames
  import opened Renumber
  import opened Sender
  import opened Serial

  // ---------------------------------------------------------------------
  // Frames that leave under one number.

  /** A queued frame that encodes, decodes to itself, and fits a datagram alone. */
  ghost predicate Fit(p: Packet, mtu: u16) {
    ValidFrame(p.frame) && Canonical(p.frame) && p.frame.Size() <= mtu - 36
  }

  function Members(out: seq<Outgoing>, id: nat): seq<Outgoing> {
    if out == [] then []
    else
      var front, last := Members(out[..|out| - 1], id), out[|out| - 1];
      if last.id == id then front + [last] else front
  }

  function Wires(out: seq<Outgoing>): (frames: seq<Frame>)
    ensures |frames| == |out|
  {
    seq(|out|, i requires 0 <= i < |out| => out[i].Wire())
  }

  lemma MembersSnoc(out: seq<Outgoing>, o: Outgoing, id: nat)
    ensures Members(out + [o], id) == if o.id == id then Members(out, id) + [o] else Members(out, id)
  {
    assert (out + [o])[..|out|] == out;
  }

  lemma {:induction false} NoMembers(out: seq<Outgoing>, id: nat)
    requires forall i | 0 <= i < |out| :: out[i].id != id
    ensures Members(out, id) == []
    decreases |out|
  {
    if out != [] {
      NoMembers(out[..|out| - 1], id);
    }
  }

  lemma GroupSizeSnoc(group: seq<Outgoing>, o: Outgoing)
    requires group != []
    ensures GroupSize(Wires(group + [o])) == GroupSize(Wires(group)) + o.packet.frame.Size() - 4
  {
    assert Wires(group + [o])[..|group|] == Wires(group);
    assert o.Wire().Size() == o.packet.frame.Size();
  }

  lemma GroupSizeOne(o: Outgoing)
    ensures GroupSize(Wires([o])) == o.packet.frame.Size()
  {
  }

  ghost predicate GroupFits(group: seq<Outgoing>, mtu: u16) {
    |group| <= MAX_COALESCED && GroupSize(Wires(group)) <= mtu - 28
  }

  /** At most eight frames, and at most the datagram budget, under any one number. */
  ghost predicate Packs(out: seq<Outgoing>, mtu: u16) {
    forall id: nat | Members(out, id) != [] :: GroupFits(Members(out, id), mtu)
  }

  /** Frames under one number follow each other. */
  ghost predicate Contiguous(out: seq<Outgoing>) {
    forall i, j, k | 0 <= i < j < k < |out| && out[i].id == out[k].id :: out[j].id == out[i].id
  }

  ghost predicate Distinct(out: seq<Outgoing>) {
    forall i, j | 0 <= i < j < |out| :: out[i].id != out[j].id
  }

  ghost predicate Below(out: seq<Outgoing>, bound: nat) {
    forall i | 0 <= i < |out| :: out[i].id < bound
  }

  // ---------------------------------------------------------------------
  // Numbers in the flight.

  /** Every number was handed out, and waiting items do not share theirs. */
  ghost predicate Numbered(f: Flight) {
    && (forall i | 0 <= i < |f.items| :: f.items[i].id < f.sequence)
    && (forall i, j | 0 <= i < j < |f.items| && !f.items[i].sent && !f.items[j].sent :: f.items[i].id != f.items[j].id)
  }

  lemma RenumberedKeepsNumbered(f: Flight, g: Flight)
    requires Numbered(f) && Renumbered(f, g)
    ensures Numbered(g)
  {
    forall i | 0 <= i < |g.items|
      ensures g.items[i].id < g.sequence
      ensures !Changed(f, g, i) ==> g.items[i] == f.items[i]
      ensures Changed(f, g, i) ==> f.sequence <= g.items[i].id
    {
    }
    forall i, j | 0 <= i < j < |g.items| && !g.items[i].sent && !g.items[j].sent
      ensures g.items[i].id != g.items[j].id
    {
      if Changed(f, g, i) && Changed(f, g, j) {
      } else if Changed(f, g, i) || Changed(f, g, j) {
      }
    }
  }

  lemma SublistKeepsNumbered(f: Flight, g: Flight)
    requires Numbered(f) && Sublist(g.items, f.items) && g.sequence == f.sequence
    ensures Numbered(g)
  {
    var at: seq<nat> :| Selects(at, g.items, f.items);
    forall i | 0 <= i < |g.items| ensures g.items[i].id < g.sequence {
      assert g.items[i] == f.items[at[i]];
    }
    forall i, j | 0 <= i < j < |g.items| && !g.items[i].sent && !g.items[j].sent
      ensures g.items[i].id != g.items[j].id
    {
      assert at[i] < at[j];
      assert g.items[i] == f.items[at[i]] && g.items[j] == f.items[at[j]];
    }
  }

  lemma ArrangeKeepsNumbered(f: Flight, order: seq<nat>)
    requires Numbered(f) && IsPermutation(order, |f.items|)
    ensures Numbered(Arrange(f, order))
  {
    var g := Arrange(f, order);
    if f.dirty {
      forall i | 0 <= i < |g.items| ensures g.items[i].id < g.sequence {
        assert g.items[i] == f.items[order[i]];
      }
      forall i, j | 0 <= i < j < |g.items| && !g.items[i].sent && !g.items[j].sent
        ensures g.items[i].id != g.items[j].id
      {
        assert order[i] != order[j];
        assert g.items[i] == f.items[order[i]] && g.items[j] == f.items[order[j]];
      }
    }
  }

  /** The numbers of waiting items are waiting items' numbers. */
  lemma {:induction false} WaitingFrom(items: seq<Item>, i: nat, k: nat) returns (j: nat)
    requires i <= |items| && k < |Waiting(items, i)|
    ensures i <= j < |items| && !items[j].sent && Waiting(items, i)[k] == Outgoing(items[j].packet, items[j].id)
    decreases |items| - i
  {
    if items[i].sent {
      j := WaitingFrom(items, i + 1, k);
    } else if k == 0 {
      j := i;
    } else {
      j := WaitingFrom(items, i + 1, k - 1);
    }
  }

  lemma {:induction false} WaitingDistinct(f: Flight, i: nat)
    requires Numbered(f) && i <= |f.items|
    ensures Distinct(Waiting(f.items, i)) && Below(Waiting(f.items, i), f.sequence)
    decreases |f.items| - i
  {
    if i < |f.items| {
      WaitingDistinct(f, i + 1);
      var rest := Waiting(f.items, i + 1);
      if !f.items[i].sent {
        forall k | 0 <= k < |rest| ensures rest[k].id != f.items[i].id {
          var j := WaitingFrom(f.items, i + 1, k);
        }
        assert Waiting(f.items, i) == [Outgoing(f.items[i].packet, f.items[i].id)] + rest;
      }
    }
  }

  lemma {:induction false} DistinctPacks(out: seq<Outgoing>, mtu: u16)
    requires Distinct(out) && forall i | 0 <= i < |out| :: Fit(out[i].packet, mtu)
    ensures Packs(out, mtu)
    decreases |out|
  {
    if out != [] {
      var front, last := out[..|out| - 1], out[|out| - 1];
      DistinctPacks(front, mtu);
      forall id: nat | Members(out, id) != [] ensures GroupFits(Members(out, id), mtu) {
        if id == last.id {
          NoMembers(front, id);
          GroupSizeOne(last);
          assert Members(out, id) == [last];
        }
      }
    }
  }

  // ---------------------------------------------------------------------
  // The pump.

  ghost predicate AllFit(packets: seq<Packet>, mtu: u16) {
    forall i | 0 <= i < |packets| :: Fit(packets[i], mtu)
  }

  /** The group being filled is the last datagram emitted. */
  ghost predicate GroupOpen(p: Pump) {
    p.group.Some? ==>
      && p.out != [] && p.out[|p.out| - 1].id == p.group.value
      && p.groupFrames == |Members(p.out, p.group.value)|
      && p.groupBytes == GroupSize(Wires(Members(p.out, p.group.value)))
  }

  ghost predicate Packed(p: Pump, mtu: u16) {
    && Below(p.out, p.flight.sequence)
    && Contiguous(p.out)
    && Packs(p.out, mtu)
    && GroupOpen(p)
    && (!p.coalesced ==> Distinct(p.out))
  }

  lemma PacksSnoc(out: seq<Outgoing>, o: Outgoing, mtu: u16)
    requires Packs(out, mtu) && GroupFits(Members(out, o.id) + [o], mtu)
    ensures Packs(out + [o], mtu)
  {
    hide GroupFits;
    forall id: nat | Members(out + [o], id) != [] ensures GroupFits(Members(out + [o], id), mtu) {
      MembersSnoc(out, o, id);
    }
  }

  lemma JoinKeepsPacked(p: Pump, packet: Packet, mtu: u16)
    requires Packed(p, mtu) && Joins(p, packet, mtu) && mtu >= 28
    ensures var (q, id) := Assign(p, packet, mtu);
      Packed(q.(out := q.out + [Outgoing(packet, id)]), mtu)
  {
    hide Members, GroupSize, Packs, Wires, Packable;
    var id := p.group.value;
    var o := Outgoing(packet, id);
    var group := Members(p.out, id);
    OutHasMember(p.out, |p.out| - 1);
    GroupSizeSnoc(group, o);
    PacksSnoc(p.out, o, mtu);
    MembersSnoc(p.out, o, id);
  }

  lemma {:induction false} OutHasMember(out: seq<Outgoing>, i: nat)
    requires i < |out|
    ensures Members(out, out[i].id) != []
    decreases |out|
  {
    if i < |out| - 1 {
      OutHasMember(out[..|out| - 1], i);
    }
  }

  lemma FreshKeepsPacked(p: Pump, packet: Packet, mtu: u16)
    requires Packed(p, mtu) && !Joins(p, packet, mtu) && Fit(packet, mtu)
    requires !p.flight.coalesce ==> p.group.None?
    ensures var (q, id) := Assign(p, packet, mtu);
      Packed(q.(out := q.out + [Outgoing(packet, id)]), mtu)
  {
    hide Members, GroupSize, Packs, Wires, Packable, ValidFrame, Canonical;
    var id := p.flight.sequence;
    var o := Outgoing(packet, id);
    NoMembers(p.out, id);
    GroupSizeOne(o);
    assert [] + [o] == [o];
    PacksSnoc(p.out, o, mtu);
    MembersSnoc(p.out, o, id);
  }

  /** The number chosen for an emitted frame, and what the flight becomes. */
  ghost predicate Emitted(p: Pump, q: Pump, id: nat, tick: int)
    requires p.queue.packets != []
  {
    var first := p.queue.packets[0];
    && q.queue.packets == p.queue.packets[1..]
    && q.out == p.out + [Outgoing(first, id)]
    && q.flight.items
      == (if first.frame.IsReliable() then p.flight.items + [Item(first, id, true, tick, 0, [])] else p.flight.items)
    && q.flight.coalesce == p.flight.coalesce
    && (if id == p.flight.sequence then q.flight.sequence == id + 1 && q.flight.grouped == p.flight.grouped
        else q.flight.sequence == p.flight.sequence && q.flight.grouped && p.group == Some(id) && Packable(first))
  }

  predicate Rotates(p: Pump)
    requires p.queue.packets != []
  {
    p.queue.packets[0].frame.IsReliable() && |p.flight.items| >= MAX_IN_FLIGHT
  }

  lemma StepShape(p: Pump, mtu: u16, tick: int) returns (id: nat)
    requires p.queue.packets != [] && (p.group.Some? ==> p.group.value < p.flight.sequence)
    ensures var q := PumpStep(p, mtu, tick);
      && (if Rotates(p) then q == p.(queue := p.queue.(packets := p.queue.packets[1..] + [p.queue.packets[0]]))
          else Emitted(p, q, id, tick))
      && (q.group.Some? ==> q.group.value < q.flight.sequence)
  {
    hide Packable, Wrap, Later;
    var packet := p.queue.packets[0];
    var rest := p.(queue := p.queue.(packets := p.queue.packets[1..]));
    id := Assign(rest, packet, mtu).1;
  }

  /** What the pump needs of its surroundings, apart from the numbers. */
  ghost predicate Supplied(p: Pump, mtu: u16) {
    AllFit(p.queue.packets, mtu) && (!p.flight.coalesce ==> p.group.None?)
  }

  lemma EmitKeepsPacked(p: Pump, packet: Packet, id: nat, tick: int, mtu: u16)
    requires Packed(p.(out := p.out + [Outgoing(packet, id)]), mtu)
    ensures Packed(Emit(p, packet, id, tick), mtu)
  {
    hide Members, GroupSize, Packs, Wires, Wrap, Later;
  }

  lemma PumpStepPacks(p: Pump, mtu: u16, tick: int)
    requires Packed(p, mtu) && Supplied(p, mtu) && p.queue.packets != [] && mtu >= 28
    ensures Packed(PumpStep(p, mtu, tick), mtu) && Supplied(PumpStep(p, mtu, tick), mtu)
  {
    hide Fit, Joins, Packed, Packable;
    var packet := p.queue.packets[0];
    var rest := p.(queue := p.queue.(packets := p.queue.packets[1..]));
    if !(packet.frame.IsReliable() && |p.flight.items| >= MAX_IN_FLIGHT) {
      assert Packed(rest, mtu) by { PackedIgnoresQueue(p, rest.queue, mtu); }
      if Joins(rest, packet, mtu) {
        JoinKeepsPacked(rest, packet, mtu);
      } else {
        FreshKeepsPacked(rest, packet, mtu);
      }
      var (q, id) := Assign(rest, packet, mtu);
      EmitKeepsPacked(q, packet, id, tick, mtu);
    } else {
      PackedIgnoresQueue(p, PumpStep(p, mtu, tick).queue, mtu);
    }
  }

  lemma PackedIgnoresQueue(p: Pump, queue: Queue, mtu: u16)
    requires Packed(p, mtu)
    ensures Packed(p.(queue := queue), mtu)
  {
    hide Members, GroupSize, Packs, Wires;
  }

  lemma {:induction false} PumpPacks(p: Pump, mtu: u16, tick: int, n: nat)
    requires Packed(p, mtu) && Supplied(p, mtu) && mtu >= 28
    ensures Packed(PumpAll(p, mtu, tick, n), mtu)
    decreases n
  {
    hide Packed, Supplied, PumpStep;
    if n > 0 && !PumpStops(p) {
      PumpStepPacks(p, mtu, tick);
      PumpPacks(PumpStep(p, mtu, tick), mtu, tick, n - 1);
    }
  }

  // ---------------------------------------------------------------------
  // A whole flush.

  ghost predicate ItemsFit(items: seq<Item>, mtu: u16) {
    forall i | 0 <= i < |items| :: Fit(items[i].packet, mtu)
  }

  lemma ResendKeepsNumbered(f: Flight, tick: int)
    requires Numbered(f)
    ensures Numbered(ResendPending(f, tick).0) && ResendPending(f, tick).0.sequence == f.sequence
  {
    ResendFromExact(f, [], tick, 0);
    var g := ResendPending(f, tick).0;
    forall i | 0 <= i < |g.items|
      ensures g.items[i].id == f.items[i].id && (!g.items[i].sent ==> !f.items[i].sent)
    {
    }
  }

  lemma ResendPacks(f: Flight, tick: int, mtu: u16)
    requires Numbered(f) && ItemsFit(f.items, mtu)
    ensures var (g, out) := ResendPending(f, tick);
      Below(out, g.sequence) && Distinct(out) && Packs(out, mtu) && Contiguous(out)
  {
    hide Fit, Numbered, Packs;
    ResendFromExact(f, [], tick, 0);
    var out := Waiting(f.items, 0);
    assert [] + out == out;
    WaitingDistinct(f, 0);
    forall k | 0 <= k < |out| ensures Fit(out[k].packet, mtu) {
      var j := WaitingFrom(f.items, 0, k);
    }
    DistinctPacks(out, mtu);
    DistinctPacks([], mtu);
  }

  /** Ready to flush: numbers in order, frames that fit. */
  ghost predicate Flushable(s: SendState) {
    s.mtu >= 28 && Numbered(s.flight) && ItemsFit(s.flight.items, s.mtu) && AllFit(s.queue.packets, s.mtu)
  }

  lemma ArrangeKeepsFit(f: Flight, order: seq<nat>, mtu: u16)
    requires ItemsFit(f.items, mtu) && IsPermutation(order, |f.items|)
    ensures ItemsFit(Arrange(f, order).items, mtu)
  {
    hide Fit;
  }

  lemma StartPacks(s: SendState, tick: int, order: seq<nat>)
    requires Flushable(s) && IsPermutation(order, |s.flight.items|)
    ensures var (f, out) := ResendPending(Arrange(Tick(s.flight, tick), order), tick);
      && Packed(StartPump(s, f, out), s.mtu) && Supplied(StartPump(s, f, out), s.mtu)
      && Numbered(f)
  {
    hide Fit, Numbered, Packs, Tick, ResendPending, Arrange;
    TickRenumbers(s.flight, tick);
    var f1 := Tick(s.flight, tick);
    RenumberedKeepsNumbered(s.flight, f1);
    assert ItemsFit(f1.items, s.mtu);
    ArrangeKeepsNumbered(f1, order);
    ArrangeKeepsFit(f1, order, s.mtu);
    var f2 := Arrange(f1, order);
    ResendPacks(f2, tick, s.mtu);
    ResendKeepsNumbered(f2, tick);
  }

  /**
   Whatever the queue holds, the frames a flush emits under one number follow
   each other, are at most eight, and fit one datagram; without packing no two
   frames share a number.
   */
  lemma FlushPacks(s: SendState, tick: int, order: seq<nat>)
    requires Flushable(s) && IsPermutation(order, |s.flight.items|)
    ensures var r := Flush(s, tick, order);
      && Packs(r.out, s.mtu) && Contiguous(r.out)
      && Below(r.out, r.state.flight.sequence)
      && (!r.coalesced ==> Distinct(r.out))
  {
    hide Packs, Tick, Arrange, ResendPending, PumpAll, Flushable, Numbered, Supplied;
    StartPacks(s, tick, order);
    assert s.mtu >= 28 by { FlushableMtu(s); }
    var (f, out) := ResendPending(Arrange(Tick(s.flight, tick), order), tick);
    PumpPacks(StartPump(s, f, out), s.mtu, tick, |s.queue.packets|);
  }

  lemma FlushableMtu(s: SendState)
    requires Flushable(s)
    ensures s.mtu >= 28
  {
    hide Numbered, Fit;
  }

  // ---------------------------------------------------------------------
  // What a flush leaves.

  ghost predicate FlightReady(p: Pump) {
    && Numbered(p.flight)
    && (p.group.Some? ==> p.group.value < p.flight.sequence)
  }

  lemma PumpStepKeepsNumbered(p: Pump, mtu: u16, tick: int)
    requires FlightReady(p) && p.queue.packets != []
    ensures FlightReady(PumpStep(p, mtu, tick))
  {
    hide PumpStep, Packable;
    var id := StepShape(p, mtu, tick);
  }

  lemma {:induction false} PumpKeepsNumbered(p: Pump, mtu: u16, tick: int, n: nat)
    requires FlightReady(p)
    ensures FlightReady(PumpAll(p, mtu, tick, n))
    decreases n
  {
    hide FlightReady, PumpStep;
    if n > 0 && !PumpStops(p) {
      PumpStepKeepsNumbered(p, mtu, tick);
      PumpKeepsNumbered(PumpStep(p, mtu, tick), mtu, tick, n - 1);
    }
  }

  /** Frames in the queue or in flight come from the queue or the flight. */
  lemma PumpStepKeepsFit(p: Pump, mtu: u16, tick: int)
    requires p.queue.packets != [] && AllFit(p.queue.packets, mtu) && ItemsFit(p.flight.items, mtu) && FlightReady(p)
    ensures var q := PumpStep(p, mtu, tick); AllFit(q.queue.packets, mtu) && ItemsFit(q.flight.items, mtu)
  {
    hide PumpStep, Packable, Fit, Numbered;
    var id := StepShape(p, mtu, tick);
  }

  lemma {:induction false} PumpKeepsFit(p: Pump, mtu: u16, tick: int, n: nat)
    requires AllFit(p.queue.packets, mtu) && ItemsFit(p.flight.items, mtu) && FlightReady(p)
    ensures var q := PumpAll(p, mtu, tick, n); AllFit(q.queue.packets, mtu) && ItemsFit(q.flight.items, mtu)
    decreases n
  {
    hide AllFit, ItemsFit, PumpStep, FlightReady;
    if n > 0 && !PumpStops(p) {
      PumpStepKeepsNumbered(p, mtu, tick);
      PumpStepKeepsFit(p, mtu, tick);
      PumpKeepsFit(PumpStep(p, mtu, tick), mtu, tick, n - 1);
    }
  }

  lemma FlushKeepsFlushable(s: SendState, tick: int, order: seq<nat>)
    requires Flushable(s) && IsPermutation(order, |s.flight.items|)
    ensures Flushable(Flush(s, tick, order).state)
  {
    hide Fit, Packs, Tick, Arrange, ResendPending, PumpAll, Numbered, Packed;
    StartPacks(s, tick, order);
    var f1 := Tick(s.flight, tick);
    TickRenumbers(s.flight, tick);
    assert ItemsFit(f1.items, s.mtu);
    ArrangeKeepsFit(f1, order, s.mtu);
    var f2 := Arrange(f1, order);
    ResendKeepsFit(f2, tick, s.mtu);
    var (f, out) := ResendPending(f2, tick);
    PumpKeepsNumbered(StartPump(s, f, out), s.mtu, tick, |s.queue.packets|);
    PumpKeepsFit(StartPump(s, f, out), s.mtu, tick, |s.queue.packets|);
  }

  lemma ResendKeepsFit(f: Flight, tick: int, mtu: u16)
    requires ItemsFit(f.items, mtu)
    ensures ItemsFit(ResendPending(f, tick).0.items, mtu)
  {
    hide Fit;
    ResendFromExact(f, [], tick, 0);
  }

  /** After a flush the queue is empty or the flight is full. */
  ghost predicate Drained(s: SendState) {
    s.queue.packets == [] || |s.flight.items| >= MAX_IN_FLIGHT
  }

  lemma {:induction false} PumpDrains(p: Pump, mtu: u16, tick: int, n: nat)
    requires |p.flight.items| >= MAX_IN_FLIGHT || |p.queue.packets| <= n
    requires |p.flight.items| <= MAX_IN_FLIGHT
    ensures var q := PumpAll(p, mtu, tick, n);
      && (q.queue.packets == [] || |q.flight.items| >= MAX_IN_FLIGHT)
      && |q.flight.items| <= MAX_IN_FLIGHT
    decreases n
  {
    if n > 0 && !PumpStops(p) {
      PumpStepMoves(p, mtu, tick);
      hide PumpStep;
      PumpDrains(PumpStep(p, mtu, tick), mtu, tick, n - 1);
    }
  }

  lemma PumpStepMoves(p: Pump, mtu: u16, tick: int)
    requires p.queue.packets != [] && |p.flight.items| <= MAX_IN_FLIGHT
    ensures var q := PumpStep(p, mtu, tick);
      && |p.flight.items| <= |q.flight.items| <= MAX_IN_FLIGHT
      && (|q.queue.packets| == |p.queue.packets| - 1 || |q.flight.items| >= MAX_IN_FLIGHT)
  {
    hide Joins, Packable, Wrap, Later;
    var packet := p.queue.packets[0];
    var rest := p.(queue := p.queue.(packets := p.queue.packets[1..]));
    var (q, id) := Assign(rest, packet, mtu);
    assert q.flight.items == p.flight.items && q.queue.packets == p.queue.packets[1..];
  }

  lemma FlushDrains(s: SendState, tick: int, order: seq<nat>)
    requires IsPermutation(order, |s.flight.items|) && |s.flight.items| <= MAX_IN_FLIGHT
    ensures var t := Flush(s, tick, order).state; Drained(t) && |t.flight.items| <= MAX_IN_FLIGHT
  {
    hide Tick, PumpAll, ResendFrom;
    var f2 := Arrange(Tick(s.flight, tick), order);
    ResendFromExact(f2, [], tick, 0);
    var (f, out) := ResendPending(f2, tick);
    PumpDrains(StartPump(s, f, out), s.mtu, tick, |s.queue.packets|);
  }

  // ---------------------------------------------------------------------
  // Flushes that cannot pack.

  function Packables(packets: seq<Packet>): nat {
    if packets == [] then 0 else (if Packable(packets[0]) then 1 else 0) + Packables(packets[1..])
  }

  /** A full flight, or nothing to pack together. */
  ghost predicate Single(p: Pump) {
    || |p.flight.items| >= MAX_IN_FLIGHT
    || Packables(p.queue.packets) + (if p.group.Some? then 1 else 0) <= 1
  }

  lemma PackableIsReliable(p: Packet)
    requires Packable(p)
    ensures p.frame.IsReliable()
  {
  }

  lemma PumpStepStaysSingle(p: Pump, mtu: u16, tick: int)
    requires p.queue.packets != [] && Single(p) && (!p.flight.coalesce ==> p.group.None?)
    ensures var q := PumpStep(p, mtu, tick);
      Single(q) && q.coalesced == p.coalesced && (!q.flight.coalesce ==> q.group.None?)
  {
    hide Wrap, Later, Packable;
    var packet := p.queue.packets[0];
    if Packable(packet) {
      PackableIsReliable(packet);
    }
  }

  lemma {:induction false} PumpStaysSingle(p: Pump, mtu: u16, tick: int, n: nat)
    requires Single(p) && (!p.flight.coalesce ==> p.group.None?)
    ensures PumpAll(p, mtu, tick, n).coalesced == p.coalesced
    decreases n
  {
    hide Single, PumpStep;
    if n > 0 && !PumpStops(p) {
      PumpStepStaysSingle(p, mtu, tick);
      PumpStaysSingle(PumpStep(p, mtu, tick), mtu, tick, n - 1);
    }
  }

  /** With the flight full, or at most one frame to pack, a flush never packs. */
  lemma FlushStaysSingle(s: SendState, tick: int, order: seq<nat>)
    requires IsPermutation(order, |s.flight.items|)
    requires |s.flight.items| >= MAX_IN_FLIGHT || Packables(s.queue.packets) <= 1
    ensures !Flush(s, tick, order).coalesced
  {
    hide Tick, PumpAll, ResendFrom, Packables;
    var f2 := Arrange(Tick(s.flight, tick), order);
    ResendFromExact(f2, [], tick, 0);
    var (f, out) := ResendPending(f2, tick);
    PumpStaysSingle(StartPump(s, f, out), s.mtu, tick, |s.queue.packets|);
  }
}
