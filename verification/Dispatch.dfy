// The listener's dispatch cache against its session map, with the collector
// and the sessions themselves moving between the listener's steps.
module Dispatch {
  import opened Errors

  const LIMIT: int := 4096

  /** A peer address; IPv6 addresses are two 64-bit halves. */
  datatype Address =
    | V4(ip: bv32, port: bv16)
    | V6(high: bv64, low: bv64, port: bv16, flow: bv32, scope: bv32)

  /** The slot an address maps to. */
  function Slot(a: Address): (slot: nat)
    ensures slot < LIMIT
  {
    var ip: bv64 := match a case V4(ip, _) => ip as bv64 case V6(high, low, _, _, _) => low ^ high;
    var first := ip ^ (ip >> 33);
    var second := first * 0xff51_afd7_ed55_8ccd;
    var mixed := second ^ (second >> 33);
    ((mixed ^ (a.port as bv64)) as nat) % LIMIT
  }

  /** Sessions are told apart by a number that is never reused. */
  datatype Cached = Cached(address: Address, session: nat)

  type Entries = seq<Option<Cached>>

  /** Sessions whose close signal fired, and sessions whose queue has no reader left. */
  datatype Ended = Ended(closed: set<nat>, dropped: set<nat>) {
    predicate Open(session: nat) {
      session !in closed && session !in dropped
    }
  }

  // ---------------------------------------------------------------------
  // The cache.

  function Lookup(entries: Entries, a: Address, ended: Ended): Option<nat>
    requires |entries| == LIMIT
  {
    var entry := entries[Slot(a)];
    if entry.Some? && entry.value.address == a && ended.Open(entry.value.session) then Some(entry.value.session)
      else None
  }

  function Remembered(entries: Entries, a: Address, session: nat): (r: Entries)
    requires |entries| == LIMIT
    ensures |r| == LIMIT
  {
    entries[Slot(a) := Some(Cached(a, session))]
  }

  function Forgotten(entries: Entries, a: Address): (r: Entries)
    requires |entries| == LIMIT
    ensures |r| == LIMIT
  {
    var entry := entries[Slot(a)];
    if entry.Some? && entry.value.address == a then entries[Slot(a) := None] else entries
  }

  function PrunedEntry(entry: Option<Cached>, ended: Ended): Option<Cached> {
    if entry.Some? && !ended.Open(entry.value.session) then None else entry
  }

  function Pruned(entries: Entries, ended: Ended): (r: Entries)
    ensures |r| == |entries|
  {
    seq(|entries|, i requires 0 <= i < |entries| => PrunedEntry(entries[i], ended))
  }

  class SessionDispatchCache {
    const entries: array<Option<Cached>>

    ghost predicate Valid()
      reads this
    {
      entries.Length == LIMIT
    }

    constructor ()
      ensures Valid() && fresh(entries) && forall i | 0 <= i < LIMIT :: entries[i] == None
    {
      entries := new Option<Cached>[LIMIT](i => None);
    }

    method Sender(a: Address, ended: Ended) returns (r: Option<nat>)
      requires Valid()
      ensures r == Lookup(entries[..], a, ended)
    {
      hide Slot;
      var entry := entries[Slot(a)];
      if entry.Some? && entry.value.address == a && ended.Open(entry.value.session) {
        return Some(entry.value.session);
      }
      r := None;
    }

    method Remember(a: Address, session: nat)
      requires Valid()
      modifies entries
      ensures entries[..] == Remembered(old(entries[..]), a, session)
    {
      hide Slot;
      entries[Slot(a)] := Some(Cached(a, session));
    }

    method Forget(a: Address)
      requires Valid()
      modifies entries
      ensures entries[..] == Forgotten(old(entries[..]), a)
    {
      hide Slot;
      var entry := entries[Slot(a)];
      if entry.Some? && entry.value.address == a {
        entries[Slot(a)] := None;
      }
    }

    method Prune(ended: Ended)
      requires Valid()
      modifies entries
      ensures entries[..] == Pruned(old(entries[..]), ended)
    {
      for i := 0 to LIMIT
        invariant forall k | 0 <= k < i :: entries[k] == PrunedEntry(old(entries[k]), ended)
        invariant forall k | i <= k < LIMIT :: entries[k] == old(entries[k])
      {
        if entries[i].Some? && !ended.Open(entries[i].value.session) {
          entries[i] := None;
        }
      }
    }
  }

  // ---------------------------------------------------------------------
  // The listener and its surroundings.

  /** Where the listener is between two of its own atomic steps. */
  datatype Listener =
    | Ready
    | Hit(address: Address, session: nat)
    | Missed(address: Address)
    | Gone(address: Address)
    | Removing(address: Address)
    | Requested(address: Address)
    | Creating(address: Address)
    | Disconnecting(address: Address)
    | Closing(taken: Option<nat>)

  datatype Server = Server(
    sessions: map<Address, nat>, ended: Ended, entries: Entries, next: nat, listener: Listener)

  ghost function Started(): Server {
    Server(map[], Ended({}, {}), seq(LIMIT, i => None), 0, Ready)
  }

  datatype Step =
    | Datagram(address: Address)
    | SendCached
    | LookUp
    | Forget
    | Remove
    | Request(address: Address)
    | CheckExisting
    | Create
    | Disconnect(address: Address)
    | TakeOut
    | CloseTaken
    | Prune
    | SessionCloses(session: nat)
    | SessionDrops(session: nat)
    | Collect(address: Address)
    | Shutdown

  /** Sending to a session fails as closed exactly when nobody reads its queue any more. */
  predicate Closed(ended: Ended, session: nat) {
    session in ended.dropped
  }

  ghost predicate ListenerStep(s: Server, step: Step, s': Server)
    requires |s.entries| == LIMIT
  {
    match step
    case Datagram(a) =>
      && s.listener.Ready?
      && var hit := Lookup(s.entries, a, s.ended);
         if hit.Some? then s' == s.(listener := Hit(a, hit.value))
         else s' == s.(entries := Forgotten(s.entries, a), listener := Missed(a))
    case SendCached =>
      && s.listener.Hit?
      && s' == s.(listener := if Closed(s.ended, s.listener.session) then Gone(s.listener.address) else Ready)
    case LookUp =>
      && s.listener.Missed?
      && var a := s.listener.address;
         if a in s.sessions then
           s' == s.(entries := Remembered(s.entries, a, s.sessions[a]),
                    listener := if Closed(s.ended, s.sessions[a]) then Gone(a) else Ready)
         else s' == s.(listener := Ready)
    case Forget =>
      && s.listener.Gone?
      && s' == s.(entries := Forgotten(s.entries, s.listener.address), listener := Removing(s.listener.address))
    case Remove =>
      && s.listener.Removing?
      && s' == s.(sessions := s.sessions - {s.listener.address}, listener := Ready)
    case Request(a) =>
      s.listener.Ready? && s' == s.(entries := Forgotten(s.entries, a), listener := Requested(a))
    case CheckExisting =>
      && s.listener.Requested?
      && s' == s.(listener := if s.listener.address in s.sessions then Ready else Creating(s.listener.address))
    case Create =>
      && s.listener.Creating?
      && s' == s.(sessions := s.sessions[s.listener.address := s.next], next := s.next + 1, listener := Ready)
    case Disconnect(a) =>
      s.listener.Ready? && s' == s.(entries := Forgotten(s.entries, a), listener := Disconnecting(a))
    case TakeOut =>
      && s.listener.Disconnecting?
      && var a := s.listener.address;
         s' == s.(sessions := s.sessions - {a},
           listener := Closing(if a in s.sessions then Some(s.sessions[a]) else None))
    case CloseTaken =>
      && s.listener.Closing?
      && var taken := s.listener.taken;
         s' == s.(ended := if taken.Some? then s.ended.(closed := s.ended.closed + {taken.value}) else s.ended,
           listener := Ready)
    case Prune => s.listener.Ready? && s' == s.(entries := Pruned(s.entries, s.ended))
    case _ => false
  }

  ghost predicate OtherStep(s: Server, step: Step, s': Server) {
    match step
    case SessionCloses(id) => id < s.next && s' == s.(ended := s.ended.(closed := s.ended.closed + {id}))
    case SessionDrops(id) => id < s.next && s' == s.(ended := s.ended.(dropped := s.ended.dropped + {id}))
    case Collect(a) =>
      s' == if a in s.sessions && s.sessions[a] in s.ended.closed then s.(sessions := s.sessions - {a}) else s
    case Shutdown =>
      s' == s.(ended := s.ended.(closed := s.ended.closed + s.sessions.Values), sessions := map[])
    case _ => false
  }

  ghost predicate StepsTo(s: Server, step: Step, s': Server)
    requires |s.entries| == LIMIT
  {
    ListenerStep(s, step, s') || OtherStep(s, step, s')
  }

  // ---------------------------------------------------------------------
  // What every step keeps.

  /** An open session in the cache is the one the map holds for its address. */
  ghost predicate EntryOk(s: Server, entry: Option<Cached>) {
    entry.Some? ==>
      && entry.value.session < s.next
      && (s.ended.Open(entry.value.session) ==>
            entry.value.address in s.sessions && s.sessions[entry.value.address] == entry.value.session)
  }

  ghost predicate CacheOk(s: Server) {
    |s.entries| == LIMIT && forall i | 0 <= i < LIMIT :: EntryOk(s, s.entries[i]) && Placed(s.entries[i], i)
  }

  /** Entries sit in the slot of their address. */
  ghost predicate Placed(entry: Option<Cached>, i: nat) {
    entry.Some? ==> Slot(entry.value.address) == i
  }

  ghost predicate Uncached(s: Server, a: Address)
    requires |s.entries| == LIMIT
  {
    s.entries[Slot(a)].Some? ==> s.entries[Slot(a)].value.address != a
  }

  /** What the listener knows between its steps. */
  ghost predicate ListenerOk(s: Server)
    requires |s.entries| == LIMIT
  {
    match s.listener
    case Ready => true
    case Hit(a, id) => id < s.next && (a in s.sessions ==> s.sessions[a] == id)
    case Missed(a) => Uncached(s, a)
    case Gone(a) => a in s.sessions ==> s.sessions[a] in s.ended.dropped
    case Removing(a) => Uncached(s, a) && (a in s.sessions ==> s.sessions[a] in s.ended.dropped)
    case Requested(a) => Uncached(s, a)
    case Creating(a) => Uncached(s, a) && a !in s.sessions
    case Disconnecting(a) => Uncached(s, a)
    case Closing(taken) => (taken.Some? ==> taken.value < s.next)
  }

  ghost predicate Inv(s: Server) {
    && CacheOk(s)
    && (forall a <- s.sessions :: s.sessions[a] < s.next)
    && ListenerOk(s)
  }

  lemma ForgetUncaches(s: Server, a: Address)
    requires CacheOk(s)
    ensures var s' := s.(entries := Forgotten(s.entries, a)); CacheOk(s') && Uncached(s', a)
  {
    hide Slot;
  }

  /** Taking an address out of the map is harmless to the cache once it is not cached. */
  lemma RemovalKeeps(s: Server, a: Address)
    requires CacheOk(s) && Uncached(s, a)
    ensures CacheOk(s.(sessions := s.sessions - {a}))
  {
    hide Slot;
    var s' := s.(sessions := s.sessions - {a});
    forall i | 0 <= i < LIMIT ensures EntryOk(s', s'.entries[i]) {
      assert EntryOk(s, s.entries[i]) && Placed(s.entries[i], i);
    }
  }

  lemma ListenerKeeps(s: Server, step: Step, s': Server)
    requires Inv(s) && ListenerStep(s, step, s')
    ensures Inv(s')
  {
    hide Slot;
    match step
    case Datagram(a) => ForgetUncaches(s, a);
    case SendCached =>
    case LookUp =>
    case Forget => ForgetUncaches(s, s.listener.address);
    case Remove => RemovalKeeps(s, s.listener.address);
    case Request(a) => ForgetUncaches(s, a);
    case CheckExisting =>
    case Create =>
      forall i | 0 <= i < LIMIT ensures EntryOk(s', s'.entries[i]) {
        assert EntryOk(s, s.entries[i]) && Placed(s.entries[i], i);
      }
    case Disconnect(a) => ForgetUncaches(s, a);
    case TakeOut => RemovalKeeps(s, s.listener.address);
    case CloseTaken =>
    case Prune =>
    case _ =>
  }

  lemma OtherKeeps(s: Server, step: Step, s': Server)
    requires Inv(s) && OtherStep(s, step, s')
    ensures Inv(s')
  {
    hide Slot;
    forall i | 0 <= i < LIMIT ensures EntryOk(s', s'.entries[i]) && Placed(s'.entries[i], i) {
      assert EntryOk(s, s.entries[i]) && Placed(s.entries[i], i);
    }
  }

  // ---------------------------------------------------------------------
  // Runs.

  ghost predicate IsRun(servers: seq<Server>, steps: seq<Step>) {
    && |servers| == |steps| + 1
    && servers[0] == Started()
    && (forall i | 0 <= i < |servers| :: |servers[i].entries| == LIMIT)
    && forall i | 0 <= i < |steps| :: StepsTo(servers[i], steps[i], servers[i + 1])
  }

  lemma {:induction false} RunKeeps(servers: seq<Server>, steps: seq<Step>, n: nat)
    requires IsRun(servers, steps) && n < |servers|
    ensures Inv(servers[n])
    decreases n
  {
    hide Slot, ListenerStep, OtherStep;
    if n > 0 {
      RunKeeps(servers, steps, n - 1);
      assert StepsTo(servers[n - 1], steps[n - 1], servers[n]);
      if ListenerStep(servers[n - 1], steps[n - 1], servers[n]) {
        ListenerKeeps(servers[n - 1], steps[n - 1], servers[n]);
      } else {
        OtherKeeps(servers[n - 1], steps[n - 1], servers[n]);
      }
    }
  }

  /**
   In every interleaving a cache hit is the session the map holds for that
   full address, whatever collided, closed, was collected or came back.
   */
  lemma HitAgreesWithMap(servers: seq<Server>, steps: seq<Step>, n: nat, a: Address)
    requires IsRun(servers, steps) && n < |servers|
    requires Lookup(servers[n].entries, a, servers[n].ended).Some?
    ensures a in servers[n].sessions
    ensures Lookup(servers[n].entries, a, servers[n].ended) == Some(servers[n].sessions[a])
  {
    hide Slot, IsRun;
    RunKeeps(servers, steps, n);
    assert EntryOk(servers[n], servers[n].entries[Slot(a)]);
  }

  /** Until it has sent, the listener's choice is still the map's, or the map has none. */
  lemma SendAgreesWithMap(servers: seq<Server>, steps: seq<Step>, n: nat)
    requires IsRun(servers, steps) && n < |servers| && servers[n].listener.Hit?
    ensures var l := servers[n].listener;
      l.address in servers[n].sessions ==> servers[n].sessions[l.address] == l.session
  {
    hide Slot, IsRun;
    RunKeeps(servers, steps, n);
  }

  /** What the listener removes for a failed send is the session that ended, never a replacement. */
  lemma OnlyEndedRemoved(servers: seq<Server>, steps: seq<Step>, n: nat)
    requires IsRun(servers, steps) && n < |servers| && servers[n].listener.Removing?
    ensures var a := servers[n].listener.address;
      a in servers[n].sessions ==> servers[n].sessions[a] in servers[n].ended.dropped
  {
    hide Slot, IsRun;
    RunKeeps(servers, steps, n);
  }
}
