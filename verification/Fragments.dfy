/** Reassembly of fragmented messages. */
module Fragments {
  import opened Bytes
  import opened Errors
  import opened Frames
  import opened Serial
  import opened Sums

  const MAX_FRAGMENTS: int := 65_536
  const MAX_GROUPS: int := 1024
  const MAX_FRAGMENT_BYTES: int := 64 * 1024 * 1024
  const FRAME_OVERHEAD: int := 128

  /** The fragments of one message received so far. */
  datatype Group = Group(
    flags: byte, size: u32, order: u24, channel: byte, frames: map<u32, Frame>, bytes: nat)
  {
    predicate Full() {
      size != 0 && |frames| == size
    }

    ghost predicate Valid() {
      size != 0 && forall i <- frames :: i < size
    }
  }

  datatype FragmentState = FragmentState(groups: map<u16, Group>, bytes: int) {
    /** Only incomplete groups are kept. */
    ghost predicate Valid() {
      forall id <- groups :: groups[id].Valid() && !groups[id].Full()
    }
  }

  // ---------------------------------------------------------------------
  // One group.

  predicate Fits(g: Group, f: Frame) {
    && f.fragmentIndex < g.size
    && f.compoundSize == g.size
    && f.channel == g.channel
    && f.orderedIndex == g.order
    && f.flags / 32 == g.flags / 32
  }

  function InsertPiece(g: Group, f: Frame): (Group, Result<nat>) {
    if g.Full() then (g, Ok(0))
    else if !Fits(g, f) then (g, Err(PacketParseError))
    else if f.fragmentIndex in g.frames then (g, Ok(0))
    else
      var bytes := |f.data| + FRAME_OVERHEAD;
      (g.(frames := g.frames[f.fragmentIndex := f], bytes := g.bytes + bytes), Ok(bytes))
  }

  predicate Complete(frames: map<u32, Frame>, n: nat)
    requires n <= 0xffff_ffff
  {
    forall i: u32 | 0 <= i < n :: i in frames
  }

  /** The payloads of the first `n` fragments, in index order. */
  function Joined(frames: map<u32, Frame>, n: nat): seq<byte>
    requires n <= 0xffff_ffff && Complete(frames, n)
  {
    if n == 0 then [] else Joined(frames, n - 1) + frames[n - 1].data
  }

  function Merge(g: Group): Result<Frame> {
    if !g.Full() then Err(PacketParseError)
    else if g.size - 1 !in g.frames then Err(PacketParseError)
    else if !Complete(g.frames, g.size) then Err(PacketSizeExceedMTU)
    else
      var mode :- FromU8(g.flags / 32);
      Ok(NewFrame(mode, Joined(g.frames, g.size)).(
           orderedIndex := g.order,
           channel := g.channel,
           sequenceNumber := g.frames[g.size - 1].sequenceNumber))
  }

  method MergeGroup(g: Group) returns (r: Result<Frame>)
    ensures r == Merge(g)
  {
    if !g.Full() || g.size - 1 !in g.frames {
      return Err(PacketParseError);
    }
    for index := 0 to g.size
      invariant Complete(g.frames, index)
    {
      if index !in g.frames {
        return Err(PacketSizeExceedMTU);
      }
    }
    var data := [];
    for index := 0 to g.size
      invariant data == Joined(g.frames, index)
    {
      data := data + g.frames[index].data;
    }
    var mode :- FromU8(g.flags / 32);
    r := Ok(NewFrame(mode, data).(
              orderedIndex := g.order,
              channel := g.channel,
              sequenceNumber := g.frames[g.size - 1].sequenceNumber));
  }

  // ---------------------------------------------------------------------
  // The queue of incomplete groups.

  function NewGroup(f: Frame): Group {
    Group(f.flags, f.compoundSize, f.orderedIndex, f.channel, map[], 0)
  }

  predicate Refused(q: FragmentState, f: Frame) {
    || f.compoundSize == 0
    || f.compoundSize > MAX_FRAGMENTS
    || q.bytes + |f.data| + FRAME_OVERHEAD > MAX_FRAGMENT_BYTES
    || (|q.groups| >= MAX_GROUPS && f.compoundId !in q.groups)
  }

  function InsertFrame(q: FragmentState, f: Frame): (FragmentState, Result<u16>) {
    if Refused(q, f) then (q, Err(PacketParseError))
    else
      var g := if f.compoundId in q.groups then q.groups[f.compoundId] else NewGroup(f);
      var (g', added) := InsertPiece(g, f);
      if added.Err? then (q.(groups := q.groups[f.compoundId := g']), Err(added.error))
      else (FragmentState(q.groups[f.compoundId := g'], q.bytes + added.value), Ok(f.compoundId))
  }

  function InsertAndTake(q: FragmentState, f: Frame): (FragmentState, Result<Option<Frame>>) {
    var (q', inserted) := InsertFrame(q, f);
    if inserted.Err? then (q', Err(inserted.error))
    else if f.compoundId in q'.groups && q'.groups[f.compoundId].Full() then
      var g := q'.groups[f.compoundId];
      var merged := Merge(g);
      (FragmentState(q'.groups - {f.compoundId}, q'.bytes - g.bytes),
       if merged.Err? then Err(merged.error) else Ok(Some(merged.value)))
    else (q', Ok(None))
  }

  class FragmentQ {
    var groups: map<u16, Group>
    var bytes: int

    function State(): FragmentState
      reads this
    {
      FragmentState(groups, bytes)
    }

    constructor ()
      ensures State() == FragmentState(map[], 0)
    {
      groups, bytes := map[], 0;
    }

    method Insert(f: Frame) returns (r: Result<u16>)
      modifies this
      ensures (State(), r) == InsertFrame(old(State()), f)
    {
      if f.compoundSize == 0 || f.compoundSize > MAX_FRAGMENTS
         || bytes + (|f.data| + FRAME_OVERHEAD) > MAX_FRAGMENT_BYTES
         || (|groups| >= MAX_GROUPS && f.compoundId !in groups) {
        return Err(PacketParseError);
      }
      var entry := if f.compoundId in groups then groups[f.compoundId] else NewGroup(f);
      var (g, added) := InsertPiece(entry, f);
      groups := groups[f.compoundId := g];
      if added.Err? {
        return Err(added.error);
      }
      bytes := bytes + added.value;
      r := Ok(f.compoundId);
    }

    method InsertAndTakeCompleted(f: Frame) returns (r: Result<Option<Frame>>)
      modifies this
      ensures (State(), r) == InsertAndTake(old(State()), f)
    {
      hide InsertPiece, Merge, NewGroup, Refused;
      var id :- Insert(f);
      if id in groups && groups[id].Full() {
        var g := groups[id];
        groups := groups - {id};
        bytes := bytes - g.bytes;
        var merged :- MergeGroup(g);
        r := Ok(Some(merged));
      } else {
        r := Ok(None);
      }
    }
  }

  // ---------------------------------------------------------------------
  // What every insertion keeps.

  /** A full group holds every index, so merging it cannot fail for a missing one. */
  lemma FullIsComplete(g: Group)
    requires g.Valid() && g.Full()
    ensures Complete(g.frames, g.size)
  {
    if i: u32 :| 0 <= i < g.size && i !in g.frames {
      CardinalityBelow(g.frames.Keys, Below(g.size) - {i});
      assert false;
    }
  }

  ghost function Below(n: nat): (s: set<u32>)
    requires n <= 0xffff_ffff
    ensures |s| == n && forall i: u32 :: i in s <==> i < n
  {
    if n == 0 then {} else Below(n - 1) + {n - 1}
  }

  lemma CardinalityBelow<T>(a: set<T>, b: set<T>)
    requires a <= b
    ensures |a| <= |b|
  {
    assert b == a + (b - a);
  }

  lemma InsertionKeepsValid(q: FragmentState, f: Frame)
    requires q.Valid()
    ensures var (q', r) := InsertAndTake(q, f); r.Ok? ==> q'.Valid()
  {
    hide Merge;
  }

  // ---------------------------------------------------------------------
  // The byte counters.

  ghost function Charge(frames: map<u32, Frame>): map<u32, nat> {
    map i | i in frames :: |frames[i].data| + FRAME_OVERHEAD
  }

  /** A group's counter is 128 plus the payload, for each fragment it holds. */
  ghost predicate GroupAccounted(g: Group) {
    g.bytes == Sum(Charge(g.frames))
  }

  ghost function Totals(groups: map<u16, Group>): map<u16, nat> {
    map id | id in groups :: groups[id].bytes
  }

  /** The queue's counter is the sum over its groups. */
  ghost predicate Accounted(q: FragmentState) {
    && q.bytes == Sum(Totals(q.groups))
    && (forall id <- q.groups :: GroupAccounted(q.groups[id]))
  }

  lemma PieceAccounted(g: Group, f: Frame)
    requires GroupAccounted(g)
    ensures var (g', added) := InsertPiece(g, f);
      GroupAccounted(g') && (added.Ok? ==> g'.bytes == g.bytes + added.value)
  {
    hide Sum;
    var g' := InsertPiece(g, f).0;
    if g' != g {
      var charge := |f.data| + FRAME_OVERHEAD;
      SumAdd(Charge(g.frames), f.fragmentIndex, charge);
      assert Charge(g'.frames) == Charge(g.frames)[f.fragmentIndex := charge];
    }
  }

  lemma TotalsSet(groups: map<u16, Group>, id: u16, g: Group)
    ensures Sum(Totals(groups[id := g])) == g.bytes + Sum(Totals(groups - {id}))
  {
    SumSet(Totals(groups), id, g.bytes);
    assert Totals(groups[id := g]) == Totals(groups)[id := g.bytes];
    assert Totals(groups - {id}) == Totals(groups) - {id};
  }

  lemma TotalsRemove(groups: map<u16, Group>, id: u16)
    ensures Sum(Totals(groups)) == (if id in groups then groups[id].bytes else 0) + Sum(Totals(groups - {id}))
  {
    if id in groups {
      TotalsSet(groups, id, groups[id]);
      assert groups[id := groups[id]] == groups;
    } else {
      assert groups - {id} == groups;
    }
  }

  lemma InsertAccounted(q: FragmentState, f: Frame)
    requires Accounted(q)
    ensures var (q', inserted) := InsertFrame(q, f); inserted.Ok? ==> Accounted(q')
  {
    hide GroupAccounted, Sum, InsertPiece, Totals, NewGroup;
    var (q', inserted) := InsertFrame(q, f);
    if inserted.Ok? {
      var id := f.compoundId;
      NewGroupAccounted(f);
      var g0 := if id in q.groups then q.groups[id] else NewGroup(f);
      PieceAccounted(g0, f);
      NewGroupEmpty(f);
      var g := InsertPiece(g0, f).0;
      TotalsSet(q.groups, id, g);
      TotalsRemove(q.groups, id);
      assert q'.groups == q.groups[id := g];
    }
  }

  lemma NewGroupEmpty(f: Frame)
    ensures NewGroup(f).bytes == 0
  {
  }

  lemma NewGroupAccounted(f: Frame)
    ensures GroupAccounted(NewGroup(f))
  {
    assert Charge(map[]) == map[];
  }

  /**
   The counters are exact after every insertion, successful ones never take
   the queue over its budget, and a completed message gives its bytes back.
   */
  lemma BytesExact(q: FragmentState, f: Frame)
    requires Accounted(q) && q.bytes <= MAX_FRAGMENT_BYTES
    ensures var (q', r) := InsertAndTake(q, f);
      r.Ok? ==> Accounted(q') && 0 <= q'.bytes <= MAX_FRAGMENT_BYTES
  {
    hide GroupAccounted, Sum, Totals, Merge;
    var (q1, inserted) := InsertFrame(q, f);
    InsertAccounted(q, f);
    if inserted.Ok? {
      assert q1.bytes <= MAX_FRAGMENT_BYTES && f.compoundId in q1.groups;
      hide InsertFrame;
      TotalsRemove(q1.groups, f.compoundId);
      var q' := InsertAndTake(q, f).0;
      assert q' == q1 || q'.groups == q1.groups - {f.compoundId};
      assert Accounted(q') && 0 <= q'.bytes;
    }
  }

  // ---------------------------------------------------------------------
  // Rebuilding one message.

  /** Flag byte of a fragment of a reliable-ordered message. */
  const ORDERED_FRAGMENT: byte := 112

  /** A fragmented message as the sender cut it. */
  datatype Cut = Cut(id: u16, order: u24, channel: byte, chunks: seq<seq<byte>>)

  ghost predicate PieceOf(f: Frame, cut: Cut, i: nat) {
    && i < |cut.chunks| <= MAX_FRAGMENTS
    && f.flags == ORDERED_FRAGMENT
    && f.compoundId == cut.id && f.compoundSize == |cut.chunks| && f.fragmentIndex == i
    && f.orderedIndex == cut.order && f.channel == cut.channel
    && f.data == cut.chunks[i]
  }

  function Flatten(chunks: seq<seq<byte>>): seq<byte> {
    if chunks == [] then [] else Flatten(chunks[..|chunks| - 1]) + chunks[|chunks| - 1]
  }

  /** The queue holds exactly the pieces `got` of `cut` under its id, and not all of them. */
  ghost predicate Holds(q: FragmentState, cut: Cut, got: set<nat>) {
    && (forall i <- got :: i < |cut.chunks|)
    && |cut.chunks| <= MAX_FRAGMENTS
    && (got == {} ==> cut.id !in q.groups)
    && (got != {} ==>
          cut.id in q.groups && GroupHolds(q.groups[cut.id], cut, got))
  }

  ghost predicate GroupHolds(g: Group, cut: Cut, got: set<nat>)
    requires forall i <- got :: i < |cut.chunks|
  {
    && g.flags / 32 == 3 && g.size == |cut.chunks| && g.order == cut.order && g.channel == cut.channel
    && g.frames.Keys == got
    && (forall i <- got :: g.frames[i].data == cut.chunks[i])
  }

  lemma {:induction false} JoinedIsFlattened(frames: map<u32, Frame>, chunks: seq<seq<byte>>, n: nat)
    requires n <= |chunks| <= 0xffff_ffff && Complete(frames, n)
    requires forall i: u32 | 0 <= i < n :: frames[i].data == chunks[i]
    ensures Joined(frames, n) == Flatten(chunks[..n])
  {
    if n > 0 {
      JoinedIsFlattened(frames, chunks, n - 1);
      assert chunks[..n][..n - 1] == chunks[..n - 1];
    }
  }

  lemma PieceJoinsGroup(g: Group, f: Frame, cut: Cut, got: set<nat>, i: nat)
    requires g.Valid() && !g.Full() && PieceOf(f, cut, i) && i !in got
    requires (forall j <- got :: j < |cut.chunks|) && GroupHolds(g, cut, got)
    ensures var (g', added) := InsertPiece(g, f);
      added.Ok? && g'.Valid() && GroupHolds(g', cut, got + {i})
  {
    var g' := InsertPiece(g, f).0;
    assert g'.frames == g.frames[i := f];
  }

  lemma PieceStartsGroup(f: Frame, cut: Cut, i: nat)
    requires PieceOf(f, cut, i)
    ensures var g := NewGroup(f); g.Valid() && !g.Full() && GroupHolds(g, cut, {})
  {
  }

  /** The group of `cut` once piece `i` has joined the pieces `got`. */
  lemma GroupGrows(q: FragmentState, f: Frame, cut: Cut, got: set<nat>, i: nat)
    requires q.Valid() && Holds(q, cut, got) && PieceOf(f, cut, i) && i !in got
    ensures var (q', inserted) := InsertFrame(q, f);
      && (forall id | id != cut.id :: id in q'.groups <==> id in q.groups)
      && (forall id | id != cut.id && id in q.groups :: q'.groups[id] == q.groups[id])
      && (inserted.Ok? ==> Holds(q', cut, got + {i}) && q'.groups[cut.id].Valid())
  {
    hide InsertPiece, GroupHolds, NewGroup, Refused;
    var (q', inserted) := InsertFrame(q, f);
    PieceStartsGroup(f, cut, i);
    PieceJoinsGroup(if got != {} then q.groups[cut.id] else NewGroup(f), f, cut, got, i);
  }

  /** A full group of `cut` merges to its payload. */
  lemma FullGroupMerges(q: FragmentState, cut: Cut, got: set<nat>)
    requires Holds(q, cut, got) && got != {} && q.groups[cut.id].Valid() && q.groups[cut.id].Full()
    ensures var m := Merge(q.groups[cut.id]);
      && m.Ok?
      && m.value.flags == 96 && m.value.channel == cut.channel && m.value.orderedIndex == cut.order
      && m.value.data == Flatten(cut.chunks)
  {
    var g := q.groups[cut.id];
    FullIsComplete(g);
    JoinedIsFlattened(g.frames, cut.chunks, g.size);
    assert cut.chunks[..g.size] == cut.chunks;
  }

  /**
   A new piece joins its group; the piece that completes it, whichever it is,
   yields the message byte for byte, exactly then, and frees the group.
   Nothing under another id changes.
   */
  lemma PieceJoins(q: FragmentState, f: Frame, cut: Cut, got: set<nat>, i: nat)
    requires q.Valid() && Holds(q, cut, got) && PieceOf(f, cut, i) && i !in got
    ensures var (q', r) := InsertAndTake(q, f);
      && (forall id | id != cut.id :: id in q'.groups <==> id in q.groups)
      && (forall id | id != cut.id && id in q.groups :: q'.groups[id] == q.groups[id])
      && (r.Ok? ==>
            if |got| + 1 == |cut.chunks| then
              && Holds(q', cut, {})
              && r.value.Some?
              && var m := r.value.value;
                 && m.flags == 96 && m.channel == cut.channel && m.orderedIndex == cut.order
                 && m.data == Flatten(cut.chunks)
            else r.value.None? && Holds(q', cut, got + {i}))
  {
    GroupGrows(q, f, cut, got, i);
    var (q1, inserted) := InsertFrame(q, f);
    if inserted.Ok? {
      hide InsertFrame, Merge, Flatten;
      assert |got + {i}| == |got| + 1;
      if q1.groups[cut.id].Full() {
        FullGroupMerges(q1, cut, got + {i});
      }
    }
  }
}
