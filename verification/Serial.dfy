// Arithmetic of RakNet's 24-bit serial numbers, and its relation to the
// unbounded counters they abbreviate.
module Serial {

  const EPOCH: int := 0x100_0000
  const MASK: int := 0xFF_FFFF
  const HALF: int := 0x80_0000
  const RECEIVE_WINDOW: int := 65_536

  type u24 = x: int | 0 <= x < 0x100_0000

  function Next(value: u24): u24 {
    (value + 1) % 0x100_0000
  }

  function Distance(value: u24, base: u24): u24 {
    (value - base) % 0x100_0000
  }

  predicate Newer(value: u24, base: u24) {
    var delta := Distance(value, base);
    delta != 0 && delta < HALF
  }

  /** The 24-bit form of an unbounded counter. */
  function Wrap(n: int): u24 {
    n % 0x100_0000
  }

  /** Stepping the wrapped counter is stepping the unbounded one. */
  lemma NextWraps(n: int)
    ensures Next(Wrap(n)) == Wrap(n + 1)
  {
  }

  lemma DistanceWraps(a: int, b: int)
    ensures Distance(Wrap(a), Wrap(b)) == (a - b) % 0x100_0000
  {
  }

  /** Wrapped distance is exact ahead of the base, for anything less than an epoch ahead. */
  lemma DistanceAhead(a: int, b: int)
    requires 0 <= a - b < EPOCH
    ensures Distance(Wrap(a), Wrap(b)) == a - b
  {
    DistanceWraps(a, b);
  }

  /** Serial comparison is numeric comparison for counters within half an epoch. */
  lemma NewerIsGreater(a: int, b: int)
    requires -HALF <= a - b < HALF
    ensures Newer(Wrap(a), Wrap(b)) <==> a > b
  {
    DistanceWraps(a, b);
  }

  /** Two counters less than an epoch apart never share their wrapped form. */
  lemma WrapInjective(a: int, b: int)
    requires -EPOCH < a - b < EPOCH
    ensures Wrap(a) == Wrap(b) <==> a == b
  {
  }
}
