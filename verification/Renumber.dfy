/** What NACKs, ACK gaps and timeouts do to the flight: exactly some items get fresh numbers. */
module Renumber {
  import opened AckSet
  import opened Sender
  import opened Serial

  /** `b` is `a` waiting to be sent again under a fresh number. */
  ghost predicate Moved(a: Item, b: Item, low: nat, high: nat) {
    && a.sent && !b.sent
    && low <= b.id < high
    && b.packet == a.packet && b.retries == a.retries
    && b.past == PushPast(a.past, a.id)
  }

  ghost predicate Changed(f: Flight, g: Flight, i: nat)
    requires |f.items| == |g.items|
  {
    i < |f.items| && g.items[i] != f.items[i]
  }

  /** The flags that record whether anything was renumbered. */
  ghost predicate SameFlags(f: Flight, g: Flight) {
    && g.dirty == f.dirty && g.retriesPending == f.retriesPending
    && g.coalesce == f.coalesce && g.coalescingAllowed == f.coalescingAllowed
  }

  ghost predicate Stirred(g: Flight) {
    g.dirty && g.retriesPending && !g.coalesce && !g.coalescingAllowed
  }

  function SentCount(items: seq<Item>): (n: nat)
    ensures n <= |items|
  {
    if items == [] then 0
    else SentCount(items[..|items| - 1]) + if items[|items| - 1].sent then 1 else 0
  }

  lemma {:induction false} SentCountUpdate(items: seq<Item>, i: nat, item: Item)
    requires i < |items| && items[i].sent && !item.sent
    ensures SentCount(items[i := item]) == SentCount(items) - 1
    decreases |items|
  {
    var n := |items| - 1;
    if i < n {
      SentCountUpdate(items[..n], i, item);
      assert items[i := item][..n] == items[..n][i := item];
    } else {
      assert items[i := item][..n] == items[..n];
    }
  }

  /** Each fresh number turns one sent item into a waiting one. */
  ghost predicate Spent(f: Flight, g: Flight) {
    g.sequence + SentCount(g.items) == f.sequence + SentCount(f.items)
  }

  /** `g` is `f` with some sent items moved to fresh, distinct numbers. */
  ghost predicate Renumbered(f: Flight, g: Flight) {
    && |g.items| == |f.items|
    && f.sequence <= g.sequence && Spent(f, g)
    && g.rto == f.rto && g.srtt == f.srtt && g.grouped == f.grouped
    && (forall i | 0 <= i < |f.items| ::
          g.items[i] == f.items[i] || Moved(f.items[i], g.items[i], f.sequence, g.sequence))
    && (forall i, j | 0 <= i < j < |f.items| && Changed(f, g, i) && Changed(f, g, j) ::
          g.items[i].id != g.items[j].id)
    && (if g.items == f.items then g.sequence == f.sequence && SameFlags(f, g) else Stirred(g))
  }

  lemma RenumberedSame(f: Flight, g: Flight)
    requires g.items == f.items && g.sequence == f.sequence && SameFlags(f, g)
    requires g.rto == f.rto && g.srtt == f.srtt && g.grouped == f.grouped
    ensures Renumbered(f, g)
  {
  }

  lemma ResequenceRenumbers(f: Flight, i: nat, time: int)
    requires i < |f.items| && f.items[i].sent
    ensures Renumbered(f, Resequence(f, i, time))
  {
    hide SentCount;
    var g := Resequence(f, i, time);
    SentCountUpdate(f.items, i, g.items[i]);
    assert g.items[i] != f.items[i];
    assert forall k | 0 <= k < |f.items| && k != i :: g.items[k] == f.items[k];
  }

  lemma RenumberedTransitive(f: Flight, g: Flight, h: Flight)
    requires Renumbered(f, g) && Renumbered(g, h)
    ensures Renumbered(f, h)
  {
    hide SentCount;
    forall i | 0 <= i < |f.items|
      ensures h.items[i] == f.items[i] || Moved(f.items[i], h.items[i], f.sequence, h.sequence)
      ensures Changed(f, h, i) <==> Changed(f, g, i) || Changed(g, h, i)
      ensures Changed(f, g, i) ==> h.items[i] == g.items[i]
    {
      assert g.items[i] == f.items[i] || Moved(f.items[i], g.items[i], f.sequence, g.sequence);
      assert h.items[i] == g.items[i] || Moved(g.items[i], h.items[i], g.sequence, h.sequence);
    }
    forall i, j | 0 <= i < j < |f.items| && Changed(f, h, i) && Changed(f, h, j)
      ensures h.items[i].id != h.items[j].id
    {
      if Changed(f, g, i) && Changed(g, h, j) {
        assert h.items[i].id < g.sequence <= h.items[j].id;
      } else if Changed(g, h, i) && Changed(f, g, j) {
        assert h.items[j].id < g.sequence <= h.items[i].id;
      }
    }
    if h.items == f.items {
      forall i | 0 <= i < |f.items| ensures g.items[i] == f.items[i] {
        assert !Changed(f, h, i);
      }
      assert g.items == f.items;
    } else if h.items != g.items {
    } else {
      assert g.items != f.items;
    }
  }

  // ---------------------------------------------------------------------
  // NACKs.

  ghost predicate Hit(item: Item, numbers: seq<u24>) {
    item.sent && Wrap(item.id) in numbers
  }

  lemma {:induction false} NackFromExact(f: Flight, number: u24, tick: int, i: nat)
    requires i <= |f.items|
    ensures var g := NackFrom(f, number, tick, i);
      && Renumbered(f, g)
      && g.nextRetry == f.nextRetry && g.ackMark == f.ackMark
      && (forall k | 0 <= k < |f.items| :: Changed(f, g, k) <==> k >= i && Hit(f.items[k], [number]))
    decreases |f.items| - i
  {
    hide Spent;
    if i == |f.items| {
      RenumberedSame(f, f);
    } else {
      assert Hit(f.items[i], [number]) <==> f.items[i].sent && Wrap(f.items[i].id) == number;
      if f.items[i].sent && Wrap(f.items[i].id) == number {
        var f' := Resequence(f, i, tick);
        ResequenceRenumbers(f, i, tick);
        NackFromExact(f', number, tick, i + 1);
        var g := NackFrom(f', number, tick, i + 1);
        RenumberedTransitive(f, f', g);
        forall k | 0 <= k < |f.items|
          ensures Changed(f, g, k) <==> k >= i && Hit(f.items[k], [number])
        {
          assert k != i ==> f'.items[k] == f.items[k];
          assert Changed(f', g, k) <==> k >= i + 1 && Hit(f'.items[k], [number]);
        }
      } else {
        NackFromExact(f, number, tick, i + 1);
      }
    }
  }

  /** A batch of NACKs moves exactly the sent items carrying one of the numbers. */
  lemma {:induction false} NackAllExact(f: Flight, numbers: seq<u24>, tick: int)
    ensures var g := NackAll(f, numbers, tick);
      && Renumbered(f, g)
      && g.nextRetry == f.nextRetry && g.ackMark == f.ackMark
      && (forall k | 0 <= k < |f.items| :: Changed(f, g, k) <==> Hit(f.items[k], numbers))
    decreases |numbers|
  {
    if numbers == [] {
      RenumberedSame(f, f);
    } else {
      var f' := Nack(f, numbers[0], tick);
      NackFromExact(f, numbers[0], tick, 0);
      NackAllExact(f', numbers[1..], tick);
      var g := NackAll(f', numbers[1..], tick);
      RenumberedTransitive(f, f', g);
      forall k | 0 <= k < |f.items|
        ensures Changed(f, g, k) <==> Hit(f.items[k], numbers)
      {
        assert Changed(f, f', k) <==> Hit(f.items[k], [numbers[0]]);
        assert Changed(f', g, k) <==> Hit(f'.items[k], numbers[1..]);
        assert Wrap(f.items[k].id) in numbers <==>
          Wrap(f.items[k].id) in [numbers[0]] || Wrap(f.items[k].id) in numbers[1..];
        if Changed(f, f', k) {
          assert !f'.items[k].sent && g.items[k] == f'.items[k];
        }
      }
    }
  }

  lemma {:induction false} NumbersInExact(items: seq<Item>, ranges: seq<Range>, number: u24)
    ensures number in NumbersIn(items, ranges) <==>
      Covered(ranges, number) && exists k | 0 <= k < |items| :: Wrap(items[k].id) == number
    decreases |items|
  {
    if items != [] {
      var front, last := items[..|items| - 1], items[|items| - 1];
      NumbersInExact(front, ranges, number);
      assert forall k | 0 <= k < |items| :: items[k] == if k < |front| then front[k] else last;
    }
  }

  /** A NACK list moves exactly the sent items whose current number it covers. */
  lemma NackRangesExact(f: Flight, ranges: seq<Range>, tick: int)
    ensures var g := NackRanges(f, ranges, tick);
      && Renumbered(f, g)
      && g.nextRetry == f.nextRetry && g.ackMark == f.ackMark
      && (forall k | 0 <= k < |f.items| ::
            Changed(f, g, k) <==> f.items[k].sent && Covered(ranges, Wrap(f.items[k].id)))
  {
    if |ranges| == 1 && ranges[0].first == ranges[0].last {
      NackFromExact(f, ranges[0].first, tick, 0);
      forall k | 0 <= k < |f.items|
        ensures Hit(f.items[k], [ranges[0].first]) <==> f.items[k].sent && Covered(ranges, Wrap(f.items[k].id))
      {
        assert Covered(ranges, Wrap(f.items[k].id)) <==> ranges[0].Has(Wrap(f.items[k].id));
      }
    } else {
      NackAllExact(f, NumbersIn(f.items, ranges), tick);
      forall k | 0 <= k < |f.items|
        ensures Hit(f.items[k], NumbersIn(f.items, ranges))
           <==> f.items[k].sent && Covered(ranges, Wrap(f.items[k].id))
      {
        NumbersInExact(f.items, ranges, Wrap(f.items[k].id));
      }
    }
  }

  // ---------------------------------------------------------------------
  // The gap below a newer acknowledgement.

  lemma {:induction false} MissingExact(items: seq<Item>, previous: int, newest: int, number: u24)
    ensures number in Missing(items, previous, newest) <==>
      exists k | 0 <= k < |items| :: Wrap(items[k].id) == number && InGap(items[k].id, previous, newest)
    decreases |items|
  {
    if items != [] {
      var front, last := items[..|items| - 1], items[|items| - 1];
      MissingExact(front, previous, newest, number);
      assert forall k | 0 <= k < |items| :: items[k] == if k < |front| then front[k] else last;
    }
  }

  lemma MoveMarkExact(f: Flight, previous: int, newest: int, tick: int)
    ensures var g := MoveMark(f, previous, newest, tick);
      && Renumbered(f, g)
      && g.nextRetry == f.nextRetry && g.ackMark == newest
      && (forall k | 0 <= k < |f.items| ::
            Changed(f, g, k) <==> f.items[k].sent && InGap(f.items[k].id, previous, newest))
  {
    NackAllExact(f, Missing(f.items, previous, newest), tick);
    var h := NackAll(f, Missing(f.items, previous, newest), tick);
    forall k | 0 <= k < |f.items|
      ensures Hit(f.items[k], Missing(f.items, previous, newest))
         <==> f.items[k].sent && InGap(f.items[k].id, previous, newest)
    {
      MissingExact(f.items, previous, newest, Wrap(f.items[k].id));
      if j :| 0 <= j < |f.items| && Wrap(f.items[j].id) == Wrap(f.items[k].id)
              && InGap(f.items[j].id, previous, newest) {
        assert InGap(f.items[k].id, previous, newest);
      }
    }
    RenumberedSame(h, MoveMark(f, previous, newest, tick));
    RenumberedTransitive(f, h, MoveMark(f, previous, newest, tick));
  }

  // ---------------------------------------------------------------------
  // Timeouts.

  /** The scan's work on item `i` alone. */
  function TickOne(f: Flight, tick: int, i: nat): (g: Flight)
    requires i < |f.items|
    ensures |g.items| == |f.items|
  {
    var item := f.items[i];
    if !item.sent then f
    else if Expired(f, item, tick) then Resequence(f, i, item.time)
    else f.(nextRetry := Min(f.nextRetry, Later(item.time, RetryTimeout(f.rto, item.retries))))
  }

  lemma TickOneExact(f: Flight, tick: int, i: nat)
    requires i < |f.items|
    ensures var g := TickOne(f, tick, i);
      && Renumbered(f, g) && g.ackMark == f.ackMark
      && (forall k | 0 <= k < |f.items| && k != i :: g.items[k] == f.items[k])
      && (Changed(f, g, i) <==> f.items[i].sent && Expired(f, f.items[i], tick))
  {
    hide Spent, Renumbered, Expired;
    if f.items[i].sent && Expired(f, f.items[i], tick) {
      ResequenceRenumbers(f, i, f.items[i].time);
    } else {
      RenumberedSame(f, TickOne(f, tick, i));
    }
  }

  lemma RenumberedRto(f: Flight, g: Flight)
    requires Renumbered(f, g)
    ensures g.rto == f.rto && |g.items| == |f.items|
  {
  }

  /** A scan moves exactly the sent items whose timeout has run out. */
  lemma {:induction false} TickFromExact(f: Flight, tick: int, i: nat)
    requires i <= |f.items|
    ensures var g := TickFrom(f, tick, i);
      && Renumbered(f, g) && g.ackMark == f.ackMark
      && (forall k | 0 <= k < |f.items| ::
            Changed(f, g, k) <==> k >= i && f.items[k].sent && Expired(f, f.items[k], tick))
    decreases |f.items| - i
  {
    hide Renumbered;
    if i == |f.items| {
      RenumberedSame(f, f);
    } else {
      var f' := TickOne(f, tick, i);
      var g := TickFrom(f, tick, i);
      assert g == TickFrom(f', tick, i + 1);
      hide TickOne, Expired, RetryTimeout, TickFrom;
      TickOneExact(f, tick, i);
      TickFromExact(f', tick, i + 1);
      RenumberedTransitive(f, f', g);
      RenumberedRto(f, f');
      forall k | 0 <= k < |f.items|
        ensures Changed(f, g, k) <==> k >= i && f.items[k].sent && Expired(f, f.items[k], tick)
      {
        assert Changed(f', g, k) <==> k >= i + 1 && f'.items[k].sent && Expired(f', f'.items[k], tick);
        ExpiredSame(f, f', f'.items[k], tick);
      }
    }
  }

  lemma ExpiredSame(f: Flight, g: Flight, item: Item, tick: int)
    requires f.rto == g.rto
    ensures Expired(f, item, tick) == Expired(g, item, tick)
  {
  }

  lemma TickRenumbers(f: Flight, tick: int)
    ensures Renumbered(f, Tick(f, tick)) && Tick(f, tick).ackMark == f.ackMark
  {
    if tick < f.nextRetry {
      RenumberedSame(f, f);
    } else {
      var f' := f.(nextRetry := NEVER);
      RenumberedSame(f, f');
      TickFromExact(f', tick, 0);
      RenumberedTransitive(f, f', TickFrom(f', tick, 0));
    }
  }
}
