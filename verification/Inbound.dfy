// The receive queue against the sender's log: what has been accepted decides
// exactly which messages are rebuilt, held, or delivered, channel by channel.
module Inbound {
  import opened Bytes
  import opened Errors
  import opened Fragments
  import opened Frames
  import opened Plan
  import opened Receiver
  import opened Reorder
  import opened Serial
  import opened Sums
  import opened Window
  import AckSet
  import Sender

  // ---------------------------------------------------------------------
  // What has been accepted of a message.

  ghost predicate Arrived(m: Sent, seen: Seen, i: nat) {
    seen.Has(m.first + i)
  }

  ghost function Got(m: Sent, seen: Seen): set<nat> {
    set i: nat | i < |m.packets| && Arrived(m, seen, i)
  }

  ghost predicate Done(m: Sent, seen: Seen) {
    forall i: nat | i < |m.packets| :: i in Got(m, seen)
  }

  ghost predicate Partial(m: Sent, seen: Seen) {
    Got(m, seen) != {} && !Done(m, seen)
  }

  /** `later` has seen serial `r` of message `j`, and nothing else new. */
  ghost predicate SawNext(log: seq<Sent>, j: nat, r: nat, seen: Seen, later: Seen) {
    && j < |log| && log[j].first <= r < log[j].Next()
    && !seen.Has(r)
    && forall n: nat :: later.Has(n) <==> seen.Has(n) || n == r
  }

  lemma OthersUnchanged(log: seq<Sent>, j: nat, r: nat, seen: Seen, later: Seen, k: nat)
    requires ValidLog(log) && SawNext(log, j, r, seen, later) && k < |log| && k != j
    ensures Got(log[k], later) == Got(log[k], seen)
    ensures Done(log[k], later) == Done(log[k], seen) && Partial(log[k], later) == Partial(log[k], seen)
  {
    hide ValidLog;
    forall i: nat | i < |log[k].packets| ensures Arrived(log[k], later, i) == Arrived(log[k], seen, i) {
      if log[k].first + i == r {
        SerialIsUnique(log, j, k, r);
      }
    }
    assert Got(log[k], later) == Got(log[k], seen);
  }

  lemma OneMore(log: seq<Sent>, j: nat, r: nat, seen: Seen, later: Seen)
    requires SawNext(log, j, r, seen, later)
    ensures var i := r - log[j].first;
      && i !in Got(log[j], seen)
      && Got(log[j], later) == Got(log[j], seen) + {i}
      && !Done(log[j], seen)
  {
    var i := r - log[j].first;
    assert i !in Got(log[j], seen);
    assert Got(log[j], later) == Got(log[j], seen) + {i};
  }

  lemma DoneIsFull(m: Sent, seen: Seen)
    ensures |Got(m, seen)| <= |m.packets|
    ensures Done(m, seen) <==> |Got(m, seen)| == |m.packets|
  {
    var all := Upto(|m.packets|);
    assert Got(m, seen) <= all;
    Subset(Got(m, seen), all);
    if Done(m, seen) {
      assert Got(m, seen) == all;
    }
  }

  function Upto(n: nat): (s: set<nat>)
    ensures |s| == n && forall i: nat :: i in s <==> i < n
  {
    if n == 0 then {} else Upto(n - 1) + {n - 1}
  }

  lemma Unseen(m: Sent, seen: Seen) returns (x: nat)
    requires !Done(m, seen)
    ensures m.first <= x < m.Next() && !seen.Has(x) && seen.base <= x
  {
    var i: nat :| i < |m.packets| && i !in Got(m, seen);
    x := m.first + i;
  }

  lemma SeenOne(m: Sent, seen: Seen) returns (y: nat)
    requires Got(m, seen) != {}
    ensures m.first <= y < m.Next() && seen.Has(y)
  {
    var i :| i in Got(m, seen);
    y := m.first + i;
  }

  // ---------------------------------------------------------------------
  // Compound numbers.

  /**
   While a message is incomplete, the receive window refuses every fragment
   of another message whose compound number wraps to the same value.
   */
  lemma NoReuse(log: seq<Sent>, seen: Seen, j: nat, r: nat, k: nat)
    requires ValidLog(log) && seen.Valid() && j < |log| && k < |log| && j != k
    requires log[j].Fragmented() && log[k].Fragmented()
    requires log[j].first <= r < log[j].Next() && !seen.Has(r) && r < seen.base + RECEIVE_WINDOW
    requires Partial(log[k], seen)
    ensures log[j].compound % 0x1_0000 != log[k].compound % 0x1_0000
  {
    hide ValidLog, Got, Done;
    if log[j].compound % 0x1_0000 == log[k].compound % 0x1_0000 {
      if k < j {
        ReuseIsFar(log, k, j);
        var x := Unseen(log[k], seen);
      } else {
        ReuseIsFar(log, j, k);
        var y := SeenOne(log[k], seen);
      }
      assert false;
    }
  }

  ghost predicate GroupOf(q: FragmentState, m: Sent, seen: Seen) {
    var cut := CutOf(m);
    && (forall i <- Got(m, seen) :: i < |cut.chunks|)
    && cut.id in q.groups && GroupHolds(q.groups[cut.id], cut, Got(m, seen))
  }

  ghost predicate Rebuilding(m: Sent, seen: Seen) {
    m.Fragmented() && Partial(m, seen)
  }

  ghost predicate Owns(m: Sent, seen: Seen, id: u16) {
    Rebuilding(m, seen) && m.compound % 0x1_0000 == id
  }

  /** The groups are exactly the partly accepted messages, each with exactly its accepted pieces. */
  ghost predicate GroupsOk(q: FragmentState, log: seq<Sent>, seen: Seen) {
    && q.Valid()
    && (forall k | 0 <= k < |log| && Rebuilding(log[k], seen) :: GroupOf(q, log[k], seen))
    && (forall id <- q.groups :: exists k | 0 <= k < |log| :: Owns(log[k], seen, id))
  }

  lemma HoldsBefore(q: FragmentState, log: seq<Sent>, seen: Seen, j: nat, r: nat)
    requires ValidLog(log) && seen.Valid() && GroupsOk(q, log, seen)
    requires j < |log| && log[j].Fragmented() && log[j].first <= r < log[j].Next() && !seen.Has(r)
    requires r < seen.base + RECEIVE_WINDOW
    ensures Holds(q, CutOf(log[j]), Got(log[j], seen))
  {
    hide ValidLog, GroupHolds;
    EntryValid(log, j);
    MultiIsCut(log[j]);
    var got := Got(log[j], seen);
    assert r - log[j].first !in got;
    if got == {} {
      if CutOf(log[j]).id in q.groups {
        var k :| 0 <= k < |log| && Owns(log[k], seen, CutOf(log[j]).id);
        NoReuse(log, seen, j, r, k);
        assert false;
      }
    } else {
      assert Rebuilding(log[j], seen);
      assert GroupOf(q, log[j], seen);
    }
  }

  lemma MultiIsCut(m: Sent)
    requires WellSent(m) && m.Fragmented()
    ensures m.Ordered() && CutUp(m) && |CutOf(m).chunks| == |m.packets|
  {
  }

  lemma OthersKeepGroups(q: FragmentState, q': FragmentState, log: seq<Sent>, seen: Seen, later: Seen, j: nat, r: nat,
      k: nat)
    requires ValidLog(log) && seen.Valid() && GroupsOk(q, log, seen) && SawNext(log, j, r, seen, later)
    requires log[j].Fragmented() && r < seen.base + RECEIVE_WINDOW && k < |log| && k != j
    requires forall id | id != CutOf(log[j]).id :: id in q'.groups <==> id in q.groups
    requires forall id | id != CutOf(log[j]).id && id in q.groups :: q'.groups[id] == q.groups[id]
    ensures Rebuilding(log[k], later) ==> GroupOf(q', log[k], later) && log[k].compound % 0x1_0000 != CutOf(log[j]).id
    ensures Rebuilding(log[k], later) <==> Rebuilding(log[k], seen)
  {
    hide ValidLog, GroupHolds, Got, Done;
    OthersUnchanged(log, j, r, seen, later, k);
    if Rebuilding(log[k], seen) {
      NoReuse(log, seen, j, r, k);
      assert GroupOf(q, log[k], seen);
    }
  }

  /**
   An accepted fragment joins its own message's group and no other; the last
   one to arrive yields the message byte for byte and frees the group.
   */
  lemma FragmentAccepted(q: FragmentState, f: Frame, log: seq<Sent>, seen: Seen, later: Seen, j: nat, r: nat)
    requires ValidLog(log) && seen.Valid() && GroupsOk(q, log, seen) && SawNext(log, j, r, seen, later)
    requires log[j].Fragmented() && r < seen.base + RECEIVE_WINDOW && PieceOf(f, CutOf(log[j]), r - log[j].first)
    ensures var (q', res) := InsertAndTake(q, f);
      res.Ok? ==>
        && GroupsOk(q', log, later)
        && (res.value.Some? <==> Done(log[j], later))
        && (res.value.Some? ==> WholeFrame(res.value.value, log[j]))
  {
    hide ValidLog, GroupHolds, InsertAndTake, GroupsOk, PieceOf;
    var (q', res) := InsertAndTake(q, f);
    if res.Ok? {
      var cut, got, i := CutOf(log[j]), Got(log[j], seen), r - log[j].first;
      HoldsBefore(q, log, seen, j, r);
      OneMore(log, j, r, seen, later);
      GroupsValid(q, log, seen);
      PieceJoins(q, f, cut, got, i);
      InsertionKeepsValid(q, f);
      DoneIsFull(log[j], later);
      EntryValid(log, j);
      MultiIsCut(log[j]);
      assert |got + {i}| == |got| + 1;
      GroupsAfter(q, q', log, seen, later, j, r);
    }
  }

  lemma GroupsValid(q: FragmentState, log: seq<Sent>, seen: Seen)
    requires GroupsOk(q, log, seen)
    ensures q.Valid()
  {
  }

  lemma GroupsAfter(q: FragmentState, q': FragmentState, log: seq<Sent>, seen: Seen, later: Seen, j: nat, r: nat)
    requires ValidLog(log) && seen.Valid() && GroupsOk(q, log, seen) && SawNext(log, j, r, seen, later)
    requires log[j].Fragmented() && r < seen.base + RECEIVE_WINDOW && q'.Valid()
    requires forall id | id != CutOf(log[j]).id :: id in q'.groups <==> id in q.groups
    requires forall id | id != CutOf(log[j]).id && id in q.groups :: q'.groups[id] == q.groups[id]
    requires Holds(q', CutOf(log[j]), if Done(log[j], later) then {} else Got(log[j], later))
    requires Got(log[j], later) != {}
    ensures GroupsOk(q', log, later)
  {
    hide ValidLog, GroupHolds, Got, Done;
    forall k | 0 <= k < |log| && Rebuilding(log[k], later) ensures GroupOf(q', log[k], later) {
      if k != j {
        OthersKeepGroups(q, q', log, seen, later, j, r, k);
      }
    }
    forall id <- q'.groups ensures exists k | 0 <= k < |log| :: Owns(log[k], later, id) {
      if id == CutOf(log[j]).id {
        assert Owns(log[j], later, id);
      } else {
        var k :| 0 <= k < |log| && Owns(log[k], seen, id);
        OthersKeepGroups(q, q', log, seen, later, j, r, k);
        assert Owns(log[k], later, id);
      }
    }
  }

  /** Accepting a frame that is no fragment leaves the groups alone. */
  lemma GroupsUndisturbed(q: FragmentState, log: seq<Sent>, seen: Seen, later: Seen, j: nat, r: nat)
    requires ValidLog(log) && GroupsOk(q, log, seen) && SawNext(log, j, r, seen, later) && !log[j].Fragmented()
    ensures GroupsOk(q, log, later)
  {
    hide ValidLog, GroupHolds, Got, Done;
    forall k | 0 <= k < |log| && k != j
      ensures Rebuilding(log[k], later) <==> Rebuilding(log[k], seen)
      ensures Rebuilding(log[k], later) ==> GroupOf(q, log[k], later)
    {
      OthersUnchanged(log, j, r, seen, later, k);
    }
    forall id <- q.groups ensures exists k | 0 <= k < |log| :: Owns(log[k], later, id) {
      var k :| 0 <= k < |log| && Owns(log[k], seen, id);
      assert Owns(log[k], later, id);
    }
  }
}
