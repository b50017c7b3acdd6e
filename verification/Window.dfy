// The receiver's duplicate filter for reliable frames. Contiguous frames need
// no memory; only frames that arrived ahead of a hole are remembered.
module Window {
  import opened Errors
  import opened Serial

  /** The 24-bit state the receiver keeps. */
  datatype WindowState = WindowState(next: u24, pending: set<u24>)

  function Drain(next: u24, pending: set<u24>): (w: WindowState)
    decreases |pending|
  {
    if next in pending then Drain(Next(next), pending - {next}) else WindowState(next, pending)
  }

  function Accept(w: WindowState, index: u24): (WindowState, Result<bool>) {
    var delta := Distance(index, w.next);
    if delta >= HALF then (w, Ok(false))
    else if delta >= RECEIVE_WINDOW then (w, Err(PacketParseError))
    else if delta != 0 then (w.(pending := w.pending + {index}), Ok(index !in w.pending))
    else (Drain(Next(w.next), w.pending), Ok(true))
  }

  class ReliableWindow {
    var next: u24
    var pending: set<u24>

    function State(): WindowState
      reads this
    {
      WindowState(next, pending)
    }

    constructor (start: u24)
      ensures State() == WindowState(start, {})
    {
      next, pending := start, {};
    }

    method AcceptIndex(index: u24) returns (r: Result<bool>)
      modifies this
      ensures (State(), r) == Accept(old(State()), index)
    {
      var delta := Distance(index, next);
      if delta >= HALF {
        return Ok(false);
      }
      if delta >= RECEIVE_WINDOW {
        return Err(PacketParseError);
      }
      if delta != 0 {
        r := Ok(index !in pending);
        pending := pending + {index};
        return;
      }
      next := Next(next);
      while next in pending
        invariant Drain(next, pending) == Drain(Next(old(next)), old(pending))
        decreases |pending|
      {
        pending := pending - {next};
        next := Next(next);
      }
      r := Ok(true);
    }
  }

  // ---------------------------------------------------------------------
  // The unbounded filter: every index below `base` and every index in
  // `ahead` has been seen; nothing else has.

  datatype Seen = Seen(base: nat, ahead: set<nat>) {
    predicate Has(n: nat) {
      n < base || n in ahead
    }

    predicate Valid() {
      forall n <- ahead :: base < n < base + RECEIVE_WINDOW
    }
  }

  function Advance(base: nat, ahead: set<nat>): (s: Seen)
    requires forall n <- ahead :: base <= n < base + RECEIVE_WINDOW
    ensures s.Valid() && base <= s.base
    ensures forall n: nat :: s.Has(n) <==> n < base || n in ahead
    decreases |ahead|
  {
    if base in ahead then
      assert forall n: nat :: (n < base + 1 || n in ahead - {base}) <==> (n < base || n in ahead);
      Advance(base + 1, ahead - {base})
    else Seen(base, ahead)
  }

  /** Record the first sight of `n`. */
  function See(s: Seen, n: nat): (t: Seen)
    requires s.Valid() && !s.Has(n) && n < s.base + RECEIVE_WINDOW
    ensures t.Valid() && s.base <= t.base
    ensures forall m: nat :: t.Has(m) <==> s.Has(m) || m == n
  {
    if n == s.base then Advance(s.base + 1, s.ahead) else Seen(s.base, s.ahead + {n})
  }

  /** The 24-bit state stands for the unbounded one. */
  ghost predicate Represents(w: WindowState, s: Seen) {
    && s.Valid()
    && w.next == Wrap(s.base)
    && w.pending == set n | n in s.ahead :: Wrap(n)
  }

  lemma PendingMember(w: WindowState, s: Seen, n: nat)
    requires Represents(w, s) && s.base <= n < s.base + RECEIVE_WINDOW
    ensures Wrap(n) in w.pending <==> n in s.ahead
  {
    if Wrap(n) in w.pending {
      var m :| m in s.ahead && Wrap(m) == Wrap(n);
      WrapInjective(m, n);
    }
  }

  lemma {:induction false} DrainRefines(base: nat, ahead: set<nat>, pending: set<u24>)
    requires forall n <- ahead :: base <= n < base + RECEIVE_WINDOW
    requires pending == set n | n in ahead :: Wrap(n)
    ensures Represents(Drain(Wrap(base), pending), Advance(base, ahead))
    decreases |ahead|
  {
    if base in ahead {
      NextWraps(base);
      forall n | n in ahead ensures Wrap(n) == Wrap(base) <==> n == base {
        WrapInjective(n, base);
      }
      assert pending - {Wrap(base)} == set n | n in ahead - {base} :: Wrap(n);
      DrainRefines(base + 1, ahead - {base}, pending - {Wrap(base)});
    } else if Wrap(base) in pending {
      var m :| m in ahead && Wrap(m) == Wrap(base);
      WrapInjective(m, base);
      assert false;
    }
  }

  /**
   Deciding on the wrapped index is deciding on the unbounded one, for every
   index within half an epoch: an index a whole window ahead is refused,
   anything else is accepted exactly on first sight.
   */
  lemma AcceptRefines(w: WindowState, s: Seen, n: nat)
    requires Represents(w, s)
    requires s.base - HALF <= n < s.base + HALF
    ensures var (w', r) := Accept(w, Wrap(n));
      if n >= s.base + RECEIVE_WINDOW then r.Err? && w' == w
      else if s.Has(n) then r == Ok(false) && w' == w
      else r == Ok(true) && Represents(w', See(s, n))
  {
    DistanceWraps(n, s.base);
    if s.base <= n < s.base + RECEIVE_WINDOW {
      DistanceAhead(n, s.base);
      PendingMember(w, s, n);
      if n == s.base {
        NextWraps(s.base);
        DrainRefines(s.base + 1, s.ahead, w.pending);
      } else {
        var (w', r) := Accept(w, Wrap(n));
        assert w'.pending == set m | m in s.ahead + {n} :: Wrap(m);
        if n in s.ahead {
          assert s.ahead + {n} == s.ahead;
        }
      }
    }
  }

  // ---------------------------------------------------------------------
  // Whole runs.

  /** Verdicts for a sequence of arrivals; `None` once an index has been refused. */
  function Verdicts(w: WindowState, arrivals: seq<nat>): Option<seq<bool>>
    decreases |arrivals|
  {
    if arrivals == [] then Some([])
    else
      var (w', r) := Accept(w, Wrap(arrivals[0]));
      if r.Err? then None
      else
        var rest := Verdicts(w', arrivals[1..]);
        if rest.None? then None else Some([r.value] + rest.value)
  }

  /** The unbounded filter after the arrivals, while each is within half an epoch of it. */
  ghost predicate Timely(s: Seen, arrivals: seq<nat>)
    requires s.Valid()
    decreases |arrivals|
  {
    arrivals != [] ==>
      && s.base - HALF <= arrivals[0] < s.base + HALF
      && (arrivals[0] < s.base + RECEIVE_WINDOW ==>
            Timely(if s.Has(arrivals[0]) then s else See(s, arrivals[0]), arrivals[1..]))
  }

  /** Over a whole run, an arrival is accepted exactly when it was never seen before. */
  lemma {:induction false} AcceptedExactlyOnce(w: WindowState, s: Seen, arrivals: seq<nat>)
    requires Represents(w, s) && Timely(s, arrivals) && Verdicts(w, arrivals).Some?
    ensures var verdicts := Verdicts(w, arrivals).value;
      && |verdicts| == |arrivals|
      && forall i | 0 <= i < |arrivals| ::
           verdicts[i] <==> !s.Has(arrivals[i]) && arrivals[i] !in arrivals[..i]
    decreases |arrivals|
  {
    if arrivals != [] {
      var n, rest := arrivals[0], arrivals[1..];
      AcceptRefines(w, s, n);
      var (w', r) := Accept(w, Wrap(n));
      var s' := if s.Has(n) then s else See(s, n);
      AcceptedExactlyOnce(w', s', rest);
      var verdicts := Verdicts(w, arrivals).value;
      forall i | 0 <= i < |arrivals|
        ensures verdicts[i] <==> !s.Has(arrivals[i]) && arrivals[i] !in arrivals[..i]
      {
        if i > 0 {
          assert arrivals[i] == rest[i - 1];
          assert arrivals[..i] == [n] + rest[..i - 1];
        }
      }
    }
  }
}
