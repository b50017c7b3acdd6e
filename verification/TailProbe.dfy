// Tail probes: the send queue with recovery options. When one unacknowledged
// datagram is all that is outstanding, it may be sent once more, early, under
// one new number, without giving up its original timeout.
module TailProbe {
  import opened AckSet
  import opened Acks
  import opened Bytes
  import opened Deadlines
  import opened Errors
  import opened Frames
  import opened Packing
  import opened Renumber
  import opened Sender
  import opened Serial

  // ---------------------------------------------------------------------
  // State.

  datatype RecoveryOptions = RecoveryOptions(deadlineDriven: bool, minDelay: Option<nat>, resetBackoff: bool)

  const DEFAULT_OPTIONS: RecoveryOptions := RecoveryOptions(false, None, false)

  /** The probed datagram's number and the timeout it had before the probe. */
  datatype Probe = Probe(number: u24, deadline: int)

  datatype Recovery = Recovery(
    options: RecoveryOptions, lastProgress: int, sampled: bool, probed: bool, packed: bool,
    pending: Option<Probe>, replay: Option<u24>)

  /** The send queue and its recovery state. */
  datatype Probing = Probing(send: SendState, recovery: Option<Recovery>)

  function Items(q: Probing): seq<Item> {
    q.send.flight.items
  }

  // ---------------------------------------------------------------------
  // Probing.

  /** Never sent again, and still on its first number. */
  predicate Untouched(item: Item, number: u24) {
    item.sent && item.retries == 0 && item.past == [] && Wrap(item.id) == number
  }

  /** One datagram in flight, nothing queued. */
  predicate Eligible(q: Probing) {
    && Items(q) != [] && q.send.queue.packets == [] && |Items(q)| <= MAX_COALESCED
    && forall i | 0 <= i < |Items(q)| :: Untouched(Items(q)[i], Wrap(Items(q)[0].id))
  }

  function ProbeDeadline(q: Probing): int {
    if q.recovery.None? then NEVER
    else
      var r := q.recovery.value;
      if r.options.minDelay.None? || !r.sampled || r.probed || !Eligible(q) then NEVER
      else Later(r.lastProgress, Max(Max(r.options.minDelay.value, 1), (q.send.flight.srtt * 3 + 1) / 2))
  }

  /** Carries the pending probe's number and has not been resent by timeout. */
  predicate Member(item: Item, probe: Probe) {
    Wrap(item.id) == probe.number && item.retries == 0 && item.past != []
  }

  function ActiveProbe(q: Probing): Option<Probe> {
    if q.recovery.None? || q.recovery.value.pending.None? then None
    else
      var probe := q.recovery.value.pending.value;
      if exists i | 0 <= i < |Items(q)| :: Member(Items(q)[i], probe) then Some(probe) else None
  }

  /** Every frame of the datagram waits to be sent again under one new number. */
  function Replayed(items: seq<Item>, id: nat): (r: seq<Item>)
    requires items != []
    ensures |r| == |items|
  {
    seq(|items|, i requires 0 <= i < |items| =>
      items[i].(id := id, sent := false, past := PushPast(items[i].past, items[0].id)))
  }

  predicate Probes(q: Probing, now: int) {
    var deadline := ProbeDeadline(q);
    deadline != NEVER && deadline <= now < q.send.flight.nextRetry
  }

  lemma ProbesEligible(q: Probing, now: int)
    requires Probes(q, now)
    ensures q.recovery.Some? && Eligible(q)
  {
  }

  function ProbeTail(q: Probing, now: int): Probing {
    if !Probes(q, now) then q
    else
      var f := q.send.flight;
      var packed := |f.items| > 1;
      var fallback := Later(f.items[0].time, RetryTimeout(f.rto, f.items[0].retries));
      Probing(
        q.send.(flight := f.(items := Replayed(f.items, f.sequence), sequence := f.sequence + 1,
                             grouped := f.grouped || packed, dirty := true, retriesPending := true)),
        Some(q.recovery.value.(probed := true, packed := packed, replay := Some(Wrap(f.sequence)),
                               pending := Some(Probe(Wrap(f.sequence), fallback)))))
  }

  // ---------------------------------------------------------------------
  // Timeouts.

  /** Past its own timeout, or past the one it had before the probe. */
  predicate Overdue(f: Flight, item: Item, tick: int, probe: Option<Probe>) {
    || Expired(f, item, tick)
    || (probe.Some? && probe.value.number == Wrap(item.id) && tick >= probe.value.deadline)
  }

  function ScanOne(f: Flight, tick: int, probe: Option<Probe>, i: nat): (g: Flight)
    requires i < |f.items|
    ensures |g.items| == |f.items|
  {
    var item := f.items[i];
    if !item.sent then f
    else if Overdue(f, item, tick, probe) then Resequence(f, i, item.time)
    else f.(nextRetry := Min(f.nextRetry, Later(item.time, RetryTimeout(f.rto, item.retries))))
  }

  function Scan(f: Flight, tick: int, probe: Option<Probe>, i: nat): (g: Flight)
    requires i <= |f.items|
    ensures |g.items| == |f.items|
    decreases |f.items| - i
  {
    if i == |f.items| then f else Scan(ScanOne(f, tick, probe, i), tick, probe, i + 1)
  }

  function TickProbe(q: Probing, tick: int): (r: Probing)
    ensures |Items(r)| == |Items(q)|
  {
    var q1 := ProbeTail(q, tick);
    var probe, f := ActiveProbe(q1), q1.send.flight;
    if tick < Min(f.nextRetry, if probe.Some? then probe.value.deadline else NEVER) then q1
    else
      var g := Scan(f.(nextRetry := NEVER), tick, probe, 0);
      Probing(q1.send.(flight := g),
              if probe.Some? && tick >= probe.value.deadline then Some(q1.recovery.value.(pending := None))
                else q1.recovery)
  }

  // ---------------------------------------------------------------------
  // Flushing.

  /** A flight that has been retired leaves no deadline behind. */
  function Refreshed(q: Probing, tick: int): (r: Probing)
    ensures Items(r) == Items(q)
  {
    if Items(q) != [] then q
    else Probing(q.send.(flight := q.send.flight.(nextRetry := NEVER)),
                 if q.recovery.None? || q.recovery.value.options == DEFAULT_OPTIONS then None
                 else Some(q.recovery.value.(lastProgress := tick, probed := false, pending := None, replay := None)))
  }

  /** A probe replay is not a retry. */
  function ResendProbe(item: Item, tick: int, replay: Option<u24>): Item {
    if replay == Some(Wrap(item.id)) then item.(sent := true, time := tick) else Resend(item, tick)
  }

  function ResendAll(f: Flight, out: seq<Outgoing>, tick: int, replay: Option<u24>, i: nat): (Flight, seq<Outgoing>)
    requires i <= |f.items|
    decreases |f.items| - i
  {
    if i == |f.items| then (f, out)
    else if f.items[i].sent then ResendAll(f, out, tick, replay, i + 1)
    else
      var item := ResendProbe(f.items[i], tick, replay);
      ResendAll(f.(items := f.items[i := item],
                   nextRetry := Min(f.nextRetry, Later(tick, RetryTimeout(f.rto, item.retries)))),
                out + [Outgoing(item.packet, item.id)], tick, replay, i + 1)
  }

  function ResendProbing(f: Flight, tick: int, replay: Option<u24>): (Flight, seq<Outgoing>) {
    if !f.retriesPending then (f, [])
    else
      var (g, out) := ResendAll(f, [], tick, replay, 0);
      (g.(retriesPending := false), out)
  }

  function Replay(q: Probing): Option<u24> {
    if q.recovery.Some? then q.recovery.value.replay else None
  }

  function Packed(q: Probing): bool {
    q.recovery.Some? && q.recovery.value.packed
  }

  /** The recovery state once the flush has picked up what the probe left for it. */
  function PickedUp(q: Probing): Option<Recovery> {
    if q.recovery.Some? then Some(q.recovery.value.(packed := false, replay := None)) else None
  }

  datatype Outcome = Outcome(queue: Probing, out: seq<Outgoing>, coalesced: bool)

  ghost function FlushProbing(q: Probing, tick: int, order: seq<nat>): Outcome
    requires IsPermutation(order, |Items(q)|)
  {
    var q1 := TickProbe(Refreshed(q, tick), tick);
    var (f, out) := ResendProbing(Arrange(q1.send.flight, order), tick, Replay(q1));
    var pump := StartPump(q1.send, f, out).(coalesced := Packed(q1));
    var done := Finish(q1.send, PumpAll(pump, q1.send.mtu, tick, |q1.send.queue.packets|));
    Outcome(Probing(done.state, PickedUp(q1)), done.out, done.coalesced)
  }

  // ---------------------------------------------------------------------
  // Acknowledgement.

  /** Frames that give an unambiguous round trip. */
  predicate Unambiguous(item: Item) {
    item.retries == 0 && item.past == []
  }

  function Relaxed(items: seq<Item>): (r: seq<Item>)
    ensures |r| == |items|
  {
    seq(|items|, i requires 0 <= i < |items| => items[i].(retries := Min(items[i].retries, 1)))
  }

  /** Progress: a probe with no member left is over, and a sample may reduce the backoff. */
  function Progressed(q: Probing, now: int, sampled: bool): Probing {
    if q.recovery.None? then q
    else
      var r := q.recovery.value;
      var r' := r.(pending := ActiveProbe(q), sampled := r.sampled || sampled, lastProgress := now, probed := false);
      var f := q.send.flight;
      Probing(if r.options.resetBackoff
        && sampled then q.send.(flight := f.(items := Relaxed(f.items), nextRetry := 0)) else q.send,
              Some(r'))
  }

  function WithItems(q: Probing, items: seq<Item>): Probing {
    q.(send := q.send.(flight := q.send.flight.(items := items, grouped := q.send.flight.grouped && items != [])))
  }

  function AckDirectProbing(q: Probing, number: u24, tick: int): Probing {
    var k := Find(Items(q), number, 0);
    if k == |Items(q)| then q
    else
      var item := Items(q)[k];
      var q1 := Progressed(WithItems(q, Removed(Items(q), k)), tick, Unambiguous(item));
      var s := q1.send;
      var (ledger, bytes) := Retire(s.ledger, item.packet);
      var f1 := s.flight;
      var f2 := if Newer(number, Wrap(f1.ackMark)) then MoveMark(f1, f1.ackMark, NameFor(item, number), tick) else f1;
      var f3 := if Unambiguous(item) then SetLatency(f2, LatencySample(f2.srtt, Rtt(tick, item))) else f2;
      q1.(send := s.(flight := f3, ledger := ledger.(buffered := ledger.buffered - bytes - FRAME_BUDGET)))
  }

  /** A sweep, and whether it took a sample. */
  datatype Swept = Swept(sweep: Sweep, sampled: bool)

  function SweepOne(w: Swept, item: Item, ranges: seq<Range>, tick: int, grouped: bool): Swept {
    var name := AckedName(item, ranges);
    if name.None? then w.(sweep := w.sweep.(kept := w.sweep.kept + [item]))
    else
      var (ledger, bytes) := Retire(w.sweep.ledger, item.packet);
      var id := name.value;
      var samples := Unambiguous(item) && (!grouped || w.sweep.sample != Some(Wrap(id)));
      Swept(w.sweep.(ledger := ledger, released := w.sweep.released + bytes + FRAME_BUDGET,
                     newest := if Newer(Wrap(id), Wrap(w.sweep.newest)) then id else w.sweep.newest,
                     sample := if samples && grouped then Some(Wrap(id)) else w.sweep.sample,
                     latency := if samples then LatencySample(w.sweep.latency.0, Rtt(tick, item)) else w.sweep.latency),
            w.sampled || samples)
  }

  function SweepProbing(w: Swept, items: seq<Item>, ranges: seq<Range>, tick: int, grouped: bool): Swept {
    if items == [] then w
    else SweepOne(SweepProbing(w, items[..|items| - 1], ranges, tick, grouped), items[|items| - 1], ranges, tick,
      grouped)
  }

  function CompactProbing(q: Probing, ranges: seq<Range>, tick: int): Probing {
    var f := q.send.flight;
    var swept := SweepProbing(Swept(StartSweep(q.send), false), f.items, ranges, tick, f.grouped);
    var w := swept.sweep;
    var q1 := WithItems(q, w.kept);
    var q2 := if w.released != 0 then Progressed(q1, tick, swept.sampled) else q1;
    var f1 := SetLatency(q2.send.flight, w.latency);
    var f2 := if w.newest != f.ackMark then MoveMark(f1, f.ackMark, w.newest, tick) else f1;
    q2.(send := q2.send.(flight := f2, ledger := w.ledger.(buffered := w.ledger.buffered - w.released)))
  }

  function AckProbing(q: Probing, ranges: seq<Range>, tick: int): Probing {
    if |ranges| == 1 && ranges[0].first == ranges[0].last && (!q.send.flight.grouped || |Items(q)| <= 1) then
      AckDirectProbing(q, ranges[0].first, tick)
    else CompactProbing(q, ranges, tick)
  }

  function SetOptions(q: Probing, options: RecoveryOptions, now: int): Probing {
    var pending := ActiveProbe(q);
    q.(recovery := if options == DEFAULT_OPTIONS && pending.None? then None
                   else Some(Recovery(options, now, q.recovery.Some? && q.recovery.value.sampled, pending.Some?, false,
                     pending, Replay(q))))
  }

  // ---------------------------------------------------------------------
  // What the scan does.

  lemma ScanOneExact(f: Flight, tick: int, probe: Option<Probe>, i: nat)
    requires i < |f.items|
    ensures var g := ScanOne(f, tick, probe, i);
      && Renumbered(f, g) && g.rto == f.rto
      && (forall k | 0 <= k < |f.items| && k != i :: g.items[k] == f.items[k])
      && (Changed(f, g, i) <==> f.items[i].sent && Overdue(f, f.items[i], tick, probe))
  {
    hide Spent, Renumbered, Overdue;
    if f.items[i].sent && Overdue(f, f.items[i], tick, probe) {
      ResequenceRenumbers(f, i, f.items[i].time);
    } else {
      RenumberedSame(f, ScanOne(f, tick, probe, i));
    }
  }

  lemma OverdueSame(f: Flight, g: Flight, item: Item, tick: int, probe: Option<Probe>)
    requires f.rto == g.rto
    ensures Overdue(f, item, tick, probe) == Overdue(g, item, tick, probe)
  {
  }

  /** The scan moves exactly the sent items that are overdue, each to its own fresh number. */
  lemma {:induction false} ScanExact(f: Flight, tick: int, probe: Option<Probe>, i: nat)
    requires i <= |f.items|
    ensures var g := Scan(f, tick, probe, i);
      && Renumbered(f, g)
      && (forall k | 0 <= k < |f.items| ::
            Changed(f, g, k) <==> k >= i && f.items[k].sent && Overdue(f, f.items[k], tick, probe))
    decreases |f.items| - i
  {
    hide Renumbered, Overdue, ScanOne;
    if i == |f.items| {
      RenumberedSame(f, f);
    } else {
      var f', g := ScanOne(f, tick, probe, i), Scan(f, tick, probe, i);
      ScanOneExact(f, tick, probe, i);
      ScanExact(f', tick, probe, i + 1);
      RenumberedTransitive(f, f', g);
      forall k | 0 <= k < |f.items|
        ensures Changed(f, g, k) <==> k >= i && f.items[k].sent && Overdue(f, f.items[k], tick, probe)
      {
        assert Changed(f', g, k) <==> k >= i + 1 && f'.items[k].sent && Overdue(f', f'.items[k], tick, probe);
        OverdueSame(f, f', f'.items[k], tick, probe);
      }
    }
  }

  /** `g` is `f` with its waiting items sent, replays without a retry. */
  ghost predicate ResentProbing(f: Flight, g: Flight, tick: int, replay: Option<u24>, i: nat) {
    && |g.items| == |f.items|
    && (forall k | 0 <= k < |f.items| ::
          g.items[k] == if k >= i && !f.items[k].sent then ResendProbe(f.items[k], tick, replay) else f.items[k])
    && g == f.(items := g.items, nextRetry := g.nextRetry)
  }

  lemma {:induction false} ResendAllExact(f: Flight, out: seq<Outgoing>, tick: int, replay: Option<u24>, i: nat)
    requires i <= |f.items|
    ensures var (g, out') := ResendAll(f, out, tick, replay, i);
      ResentProbing(f, g, tick, replay, i) && out' == out + Waiting(f.items, i)
    decreases |f.items| - i
  {
    hide RetryTimeout, Later, ResendProbe;
    if i < |f.items| {
      if f.items[i].sent {
        ResendAllExact(f, out, tick, replay, i + 1);
      } else {
        var item := ResendProbe(f.items[i], tick, replay);
        var f' := f.(items := f.items[i := item],
                     nextRetry := Min(f.nextRetry, Later(tick, RetryTimeout(f.rto, item.retries))));
        var out1 := out + [Outgoing(item.packet, item.id)];
        ReplayKeepsFrame(f.items[i], tick, replay);
        ResendAllExact(f', out1, tick, replay, i + 1);
        WaitingAfter(f.items, f'.items, i + 1);
        assert out1 + Waiting(f.items, i + 1) == out + Waiting(f.items, i);
        OneMoreResent(f, f', ResendAll(f', out1, tick, replay, i + 1).0, tick, replay, i);
      }
    }
  }

  lemma OneMoreResent(f: Flight, f': Flight, g: Flight, tick: int, replay: Option<u24>, i: nat)
    requires i < |f.items| && !f.items[i].sent && ResendProbe(f.items[i], tick, replay).sent
    requires f' == f.(items := f.items[i := ResendProbe(f.items[i], tick, replay)], nextRetry := f'.nextRetry)
    requires ResentProbing(f', g, tick, replay, i + 1)
    ensures ResentProbing(f, g, tick, replay, i)
  {
    hide ResendProbe;
  }

  lemma ReplayKeepsFrame(item: Item, tick: int, replay: Option<u24>)
    ensures var r := ResendProbe(item, tick, replay);
      && r.packet == item.packet && r.id == item.id && r.past == item.past && r.sent && r.time == tick
      && (replay == Some(Wrap(item.id)) ==> r.retries == item.retries)
      && (replay != Some(Wrap(item.id)) ==> r.retries > 0)
  {
  }
}
