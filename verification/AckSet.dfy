// The receiver's record of datagram numbers: which to acknowledge, and which
// holes to report. Both are lists of inclusive 24-bit ranges.
module AckSet {
  import opened Errors
  import opened Serial

  datatype Range = Range(first: u24, last: u24) {
    predicate Has(id: int) {
      first <= id <= last
    }
  }

  predicate Covered(ranges: seq<Range>, id: int) {
    exists i | 0 <= i < |ranges| :: ranges[i].Has(id)
  }

  ghost predicate WellFormed(ranges: seq<Range>) {
    forall i | 0 <= i < |ranges| :: ranges[i].first <= ranges[i].last
  }

  ghost predicate Disjoint(ranges: seq<Range>) {
    forall i, j, id | 0 <= i < |ranges| && 0 <= j < |ranges| && i != j && ranges[i].Has(id) ::
      !ranges[j].Has(id)
  }

  // ---------------------------------------------------------------------
  // What `insert` computes.

  datatype AckState = AckState(ack: seq<Range>, nack: seq<Range>, next: u24)

  /** Remove `s` from every hole; a hole cut in the middle leaves its upper part in `split`. */
  function Retain(nack: seq<Range>, s: u24): (seq<Range>, Option<Range>) {
    if nack == [] then ([], None)
    else
      var (kept, split) := Retain(nack[..|nack| - 1], s);
      var r := nack[|nack| - 1];
      if !r.Has(s) then (kept + [r], split)
      else if r.first == r.last then (kept, split)
      else if s == r.first then (kept + [Range(s + 1, r.last)], split)
      else if s == r.last then (kept + [Range(r.first, s - 1)], split)
      else (kept + [Range(r.first, s - 1)], Some(Range(s + 1, r.last)))
  }

  function ToSeq(split: Option<Range>): seq<Range> {
    if split.None? then [] else [split.value]
  }

  /** The holes opened when `s` jumps past `next`, cut where the numbers wrap. */
  function Passed(next: u24, s: u24): seq<Range> {
    if !Newer(s, next) then []
    else if s > next then [Range(next, s - 1)]
    else [Range(next, MASK)] + if s != 0 then [Range(0, s - 1)] else []
  }

  function Acknowledge(ack: seq<Range>, s: u24, i: nat): seq<Range>
    requires i <= |ack|
    decreases |ack| - i
  {
    if i == |ack| then ack + [Range(s, s)]
    else if ack[i].Has(s) then ack
    else if ack[i].first != 0 && s == ack[i].first - 1 then ack[i := Range(s, ack[i].last)]
    else if s == ack[i].last + 1 then ack[i := Range(ack[i].first, s)]
    else Acknowledge(ack, s, i + 1)
  }

  function Insert(a: AckState, s: u24): AckState {
    var (kept, split) := Retain(a.nack, s);
    AckState(
      Acknowledge(a.ack, s, 0),
      kept + ToSeq(split) + Passed(a.next, s),
      if s == a.next || Newer(s, a.next) then Next(s) else a.next)
  }

  class ACKSet {
    var ack: seq<Range>
    var nack: seq<Range>
    var nextExpected: u24

    function State(): AckState
      reads this
    {
      AckState(ack, nack, nextExpected)
    }

    constructor ()
      ensures State() == AckState([], [], 0)
    {
      ack, nack, nextExpected := [], [], 0;
    }

    method InsertNumber(s: u24)
      modifies this
      ensures State() == Insert(old(State()), s)
    {
      var split := None;
      var kept := [];
      for i := 0 to |nack|
        invariant nack == old(nack) && ack == old(ack) && nextExpected == old(nextExpected)
        invariant (kept, split) == Retain(nack[..i], s)
      {
        var r := nack[i];
        assert nack[..i + 1][..i] == nack[..i];
        if !r.Has(s) {
          kept := kept + [r];
        } else if r.first == r.last {
        } else if s == r.first {
          kept := kept + [Range(s + 1, r.last)];
        } else if s == r.last {
          kept := kept + [Range(r.first, s - 1)];
        } else {
          split := Some(Range(s + 1, r.last));
          kept := kept + [Range(r.first, s - 1)];
        }
      }
      assert nack[..|nack|] == nack;
      nack := kept;
      if split.Some? {
        nack := nack + [split.value];
      }
      if s == nextExpected || Newer(s, nextExpected) {
        if s != nextExpected {
          if s > nextExpected {
            nack := nack + [Range(nextExpected, s - 1)];
          } else {
            nack := nack + [Range(nextExpected, MASK)];
            if s != 0 {
              nack := nack + [Range(0, s - 1)];
            }
          }
        }
        nextExpected := Next(s);
      }
      AddAck(s);
    }

    method AddAck(s: u24)
      modifies this`ack
      ensures ack == Acknowledge(old(ack), s, 0)
    {
      for i := 0 to |ack|
        invariant ack == old(ack)
        invariant Acknowledge(ack, s, i) == Acknowledge(ack, s, 0)
      {
        var a := ack[i];
        if a.Has(s) {
          return;
        }
        if a.first != 0 && s == a.first - 1 {
          ack := ack[i := Range(s, a.last)];
          return;
        }
        if s == a.last + 1 {
          ack := ack[i := Range(a.first, s)];
          return;
        }
      }
      ack := ack + [Range(s, s)];
    }

    method TakeAck() returns (output: seq<Range>)
      modifies this
      ensures output == old(ack) && State() == old(State()).(ack := [])
    {
      output := ack;
      ack := [];
    }

    method TakeNack() returns (output: seq<Range>)
      modifies this
      ensures output == old(nack) && State() == old(State()).(nack := [])
    {
      output := nack;
      nack := [];
    }
  }

  // ---------------------------------------------------------------------
  // Acknowledgements.

  lemma {:induction false} AcknowledgeExact(ack: seq<Range>, s: u24, i: nat, id: int)
    requires i <= |ack| && WellFormed(ack)
    ensures WellFormed(Acknowledge(ack, s, i))
    ensures Covered(Acknowledge(ack, s, i), id) <==> Covered(ack, id) || id == s
    decreases |ack| - i
  {
    var out := Acknowledge(ack, s, i);
    if i == |ack| {
      assert out[|ack|].Has(s);
      assert forall k | 0 <= k < |ack| :: out[k] == ack[k];
    } else if ack[i].Has(s) {
    } else if s == ack[i].first - 1 || s == ack[i].last + 1 {
      assert out[i].Has(s);
      assert forall k | 0 <= k < |ack| && k != i :: out[k] == ack[k];
      assert out[i].Has(id) <==> ack[i].Has(id) || id == s;
    } else {
      AcknowledgeExact(ack, s, i + 1, id);
    }
  }

  function InsertAll(a: AckState, numbers: seq<u24>): AckState
    decreases |numbers|
  {
    if numbers == [] then a else InsertAll(Insert(a, numbers[0]), numbers[1..])
  }

  /**
   The ranges taken for an acknowledgement cover exactly the datagram numbers
   received since the previous take, although they may overlap.
   */
  lemma {:induction false} AcksAreWhatArrived(a: AckState, numbers: seq<u24>, id: int)
    requires WellFormed(a.ack)
    ensures WellFormed(InsertAll(a, numbers).ack)
    ensures Covered(InsertAll(a, numbers).ack, id) <==> Covered(a.ack, id) || id in numbers
    decreases |numbers|
  {
    if numbers != [] {
      AcknowledgeExact(a.ack, numbers[0], 0, id);
      AcksAreWhatArrived(Insert(a, numbers[0]), numbers[1..], id);
    }
  }

  // ---------------------------------------------------------------------
  // Holes.

  lemma CoveredConcat(a: seq<Range>, b: seq<Range>, id: int)
    ensures Covered(a + b, id) <==> Covered(a, id) || Covered(b, id)
  {
    if Covered(a, id) {
      var i :| 0 <= i < |a| && a[i].Has(id);
      assert (a + b)[i].Has(id);
    }
    if Covered(b, id) {
      var i :| 0 <= i < |b| && b[i].Has(id);
      assert (a + b)[|a| + i].Has(id);
    }
    if Covered(a + b, id) {
      var i :| 0 <= i < |a + b| && (a + b)[i].Has(id);
      assert if i < |a| then a[i].Has(id) else b[i - |a|].Has(id);
    }
  }

  /** Lists that share no number join into a disjoint list. */
  lemma DisjointConcat(a: seq<Range>, b: seq<Range>)
    requires WellFormed(a) && WellFormed(b) && Disjoint(a) && Disjoint(b)
    requires forall id | Covered(a, id) :: !Covered(b, id)
    ensures WellFormed(a + b) && Disjoint(a + b)
  {
    var c := a + b;
    forall i, j, id | 0 <= i < |c| && 0 <= j < |c| && i != j && c[i].Has(id)
      ensures !c[j].Has(id)
    {
      assert c[i] == if i < |a| then a[i] else b[i - |a|];
      assert c[j] == if j < |a| then a[j] else b[j - |a|];
      assert if i < |a| then Covered(a, id) else Covered(b, id);
      assert c[j].Has(id) ==> if j < |a| then Covered(a, id) else Covered(b, id);
    }
  }

  /** What removing `s` leaves of one hole. */
  function Remainder(r: Range, s: u24): seq<Range> {
    if !r.Has(s) then [r]
    else (if s == r.first then [] else [Range(r.first, s - 1)]) +
         (if s == r.last then [] else [Range(s + 1, r.last)])
  }

  lemma RemainderExact(r: Range, s: u24, id: int)
    requires r.first <= r.last
    ensures WellFormed(Remainder(r, s)) && Disjoint(Remainder(r, s))
    ensures Covered(Remainder(r, s), id) <==> r.Has(id) && id != s
  {
    var rest := Remainder(r, s);
    if r.Has(id) && id != s {
      assert rest[0].Has(id) || rest[|rest| - 1].Has(id);
    }
  }

  /** `out` is disjoint and covers what `nack` covers, except `s`. */
  ghost predicate Without(out: seq<Range>, nack: seq<Range>, s: u24) {
    && WellFormed(out) && Disjoint(out)
    && (forall id :: Covered(out, id) <==> Covered(nack, id) && id != s)
  }

  lemma WithoutSnoc(out: seq<Range>, before: seq<Range>, r: Range, s: u24)
    requires WellFormed(before + [r]) && Disjoint(before + [r]) && Without(out, before, s)
    ensures Without(out + Remainder(r, s), before + [r], s)
    ensures Covered(before, s) ==> !r.Has(s) && Covered(before + [r], s)
  {
    var nack, rest := before + [r], Remainder(r, s);
    assert r == nack[|before|] && r.first <= r.last;
    forall id
      ensures Covered(rest, id) <==> r.Has(id) && id != s
      ensures Covered(nack, id) <==> Covered(before, id) || r.Has(id)
      ensures Covered(before, id) ==> !r.Has(id)
      ensures Covered(out + rest, id) <==> Covered(out, id) || Covered(rest, id)
    {
      RemainderExact(r, s, id);
      CoveredConcat(before, [r], id);
      CoveredConcat(out, rest, id);
      assert Covered([r], id) <==> [r][0].Has(id);
      if Covered(before, id) {
        var i :| 0 <= i < |before| && before[i].Has(id);
        assert nack[i].Has(id);
      }
    }
    RemainderExact(r, s, s);
    DisjointConcat(out, rest);
  }

  /** Removing a received number from disjoint holes leaves disjoint holes without it. */
  lemma {:induction false} RetainExact(nack: seq<Range>, s: u24)
    requires WellFormed(nack) && Disjoint(nack)
    ensures var (kept, split) := Retain(nack, s);
      Without(kept + ToSeq(split), nack, s) && (split.Some? ==> Covered(nack, s))
    decreases |nack|
  {
    if nack != [] {
      var before, r := nack[..|nack| - 1], nack[|nack| - 1];
      assert nack == before + [r];
      assert WellFormed(before) && Disjoint(before);
      RetainExact(before, s);
      var (kept0, split0) := Retain(before, s);
      var (kept, split) := Retain(nack, s);
      var out0 := kept0 + ToSeq(split0);
      WithoutSnoc(out0, before, r, s);
      if split0.Some? {
        SwapTail(kept0, [split0.value], [r]);
        assert kept + ToSeq(split) == kept0 + [r] + [split0.value];
      } else {
        assert kept + ToSeq(split) == out0 + Remainder(r, s);
        if split.Some? {
          assert nack[|before|].Has(s);
        }
      }
    }
  }

  /** The order of the holes does not matter. */
  lemma SwapTail(a: seq<Range>, b: seq<Range>, c: seq<Range>)
    requires WellFormed(a + b + c) && Disjoint(a + b + c)
    ensures WellFormed(a + c + b) && Disjoint(a + c + b)
    ensures forall id :: Covered(a + c + b, id) <==> Covered(a + b + c, id)
  {
    var x, y := a + b + c, a + c + b;
    forall i | 0 <= i < |y|
      ensures y[i] == x[Swapped(|a|, |b|, |c|, i)]
    {
    }
    forall i, j, id | 0 <= i < |y| && 0 <= j < |y| && i != j && y[i].Has(id)
      ensures !y[j].Has(id)
    {
      assert y[i] == x[Swapped(|a|, |b|, |c|, i)] && y[j] == x[Swapped(|a|, |b|, |c|, j)];
    }
    forall id
      ensures Covered(y, id) <==> Covered(x, id)
    {
      CoveredConcat(a + b, c, id);
      CoveredConcat(a, b, id);
      CoveredConcat(a + c, b, id);
      CoveredConcat(a, c, id);
    }
  }

  function Swapped(a: nat, b: nat, c: nat, i: nat): nat
    requires i < a + b + c
  {
    if i < a then i else if i < a + c then i + b else i - c
  }

  lemma PassedExact(next: u24, s: u24, id: int)
    requires Newer(s, next)
    ensures WellFormed(Passed(next, s)) && Disjoint(Passed(next, s))
    ensures Covered(Passed(next, s), id) <==> 0 <= id < EPOCH && Distance(id, next) < Distance(s, next)
  {
    var p := Passed(next, s);
    if 0 <= id < EPOCH && Distance(id, next) < Distance(s, next) {
      assert p[0].Has(id) || p[|p| - 1].Has(id);
    }
  }

  /** Unwrapped, the holes opened by `n` are the numbers from `high` up to it. */
  lemma PassedFrom(high: nat, n: nat, id: int)
    requires high - HALF <= n < high + HALF
    ensures Covered(Passed(Wrap(high), Wrap(n)), id) <==> exists u: nat | high <= u < n :: id == Wrap(u)
  {
    NewerIsGreater(n, high);
    if n <= high {
      assert Passed(Wrap(high), Wrap(n)) == [];
    } else {
      hide Passed;
      PassedExact(Wrap(high), Wrap(n), id);
      DistanceAhead(n, high);
      if Covered(Passed(Wrap(high), Wrap(n)), id) {
        WrapBack(high, id);
      }
      forall v: nat | high <= v < n && id == Wrap(v)
        ensures Distance(id, Wrap(high)) < n - high
      {
        DistanceAhead(v, high);
      }
    }
  }

  lemma WrapBack(high: int, id: u24)
    ensures Wrap(high + Distance(id, Wrap(high))) == id
  {
  }

  /**
   `a` is the record of a receiver that has seen the unbounded datagram
   numbers `received`, is about to expect `high`, and last reported its holes
   when it expected `mark`.
   */
  ghost predicate Tracks(a: AckState, mark: nat, high: nat, received: set<nat>) {
    && mark <= high <= mark + EPOCH
    && a.next == Wrap(high)
    && (forall u <- received :: u < high)
    && WellFormed(a.nack) && Disjoint(a.nack)
    && (forall u: nat | mark <= u < high :: Covered(a.nack, Wrap(u)) <==> u !in received)
    && (forall id | Covered(a.nack, id) :: exists u: nat | mark <= u < high :: id == Wrap(u))
  }

  /**
   The holes are exactly the numbers passed since the last report and still
   missing, through range splitting and the 24-bit wrap, for as long as the
   reports are no more than an epoch of datagrams apart.
   */
  lemma HolesExact(a: AckState, mark: nat, high: nat, received: set<nat>, n: nat)
    requires Tracks(a, mark, high, received)
    requires high - HALF <= n < high + HALF
    requires n < mark + EPOCH
    ensures Tracks(Insert(a, Wrap(n)), mark, if n < high then high else n + 1, received + {n})
  {
    var s, high' := Wrap(n), if n < high then high else n + 1;
    var (kept, split) := Retain(a.nack, s);
    var old' := kept + ToSeq(split);
    var passed := Passed(a.next, s);
    RetainExact(a.nack, s);
    NewerIsGreater(n, high);
    NextWraps(n);
    WrapInjective(n, high);
    forall id
      ensures Covered(passed, id) <==> exists u: nat | high <= u < n :: id == Wrap(u)
    {
      PassedFrom(high, n, id);
    }
    forall id | Covered(old', id)
      ensures !Covered(passed, id)
    {
      if Covered(passed, id) {
        var u: nat :| high <= u < n && id == Wrap(u);
        var v: nat :| mark <= v < high && id == Wrap(v);
        WrapInjective(u, v);
        assert false;
      }
    }
    if n > high {
      PassedExact(a.next, s, 0);
    }
    DisjointConcat(old', passed);
    var out := old' + passed;
    forall u: nat | mark <= u < high'
      ensures Covered(out, Wrap(u)) <==> u !in received + {n}
    {
      CoveredConcat(old', passed, Wrap(u));
      WrapInjective(u, n);
      if u < high && Covered(passed, Wrap(u)) {
        var v: nat :| high <= v < n && Wrap(u) == Wrap(v);
        WrapInjective(u, v);
      }
    }
    forall id | Covered(out, id)
      ensures exists u: nat | mark <= u < high' :: id == Wrap(u)
    {
      CoveredConcat(old', passed, id);
    }
  }

  /** The number expected after a run of arrivals. */
  function HighAfter(high: nat, arrivals: seq<nat>): (h: nat)
    ensures h >= high
    decreases |arrivals|
  {
    if arrivals == [] then high
    else HighAfter(if arrivals[0] < high then high else arrivals[0] + 1, arrivals[1..])
  }

  /** Each arrival is within half an epoch of the expected number and an epoch of the last report. */
  ghost predicate InTime(mark: nat, high: nat, arrivals: seq<nat>)
    decreases |arrivals|
  {
    arrivals != [] ==>
      && high - HALF <= arrivals[0] < high + HALF
      && arrivals[0] < mark + EPOCH
      && InTime(mark, if arrivals[0] < high then high else arrivals[0] + 1, arrivals[1..])
  }

  function Wrapped(arrivals: seq<nat>): seq<u24> {
    seq(|arrivals|, i requires 0 <= i < |arrivals| => Wrap(arrivals[i]))
  }

  ghost function Arrived(arrivals: seq<nat>): set<nat> {
    set n | n in arrivals
  }

  lemma {:induction false} HolesOverRun(a: AckState, mark: nat, high: nat, received: set<nat>, arrivals: seq<nat>)
    requires Tracks(a, mark, high, received) && InTime(mark, high, arrivals)
    ensures Tracks(InsertAll(a, Wrapped(arrivals)), mark, HighAfter(high, arrivals),
                   received + Arrived(arrivals))
    decreases |arrivals|
  {
    hide Tracks, Insert;
    if arrivals == [] {
      assert received + Arrived(arrivals) == received;
    } else {
      var n, rest := arrivals[0], arrivals[1..];
      var a', high' := Insert(a, Wrap(n)), if n < high then high else n + 1;
      assert Wrapped(arrivals)[0] == Wrap(n) && Wrapped(arrivals)[1..] == Wrapped(rest);
      assert InsertAll(a, Wrapped(arrivals)) == InsertAll(a', Wrapped(rest));
      assert HighAfter(high, arrivals) == HighAfter(high', rest);
      assert received + {n} + Arrived(rest) == received + Arrived(arrivals);
      HolesExact(a, mark, high, received, n);
      HolesOverRun(a', mark, high', received + {n}, rest);
    }
  }

  /**
   A report taken at any moment names exactly the numbers passed since the
   previous report and not received, no range of it wraps, and the next
   report starts afresh from here.
   */
  lemma ReportExact(a: AckState, mark: nat, high: nat, received: set<nat>, id: int)
    requires Tracks(a, mark, high, received)
    ensures Covered(a.nack, id) <==> exists u: nat | mark <= u < high && u !in received :: id == Wrap(u)
    ensures Tracks(a.(nack := []), high, high, received)
  {
    if Covered(a.nack, id) {
      var u: nat :| mark <= u < high && id == Wrap(u);
      assert u !in received;
    }
  }
}
