/** Capacity checks against the insertions they promise room for. */
module Admission {
  import opened Bytes
  import opened Errors
  import opened Fragments
  import opened Frames
  import opened Ledger
  import opened Sender
  import opened SendOptions

  // ---------------------------------------------------------------------
  // Without a policy.

  /** A caller inserting messages one after another, stopping at the first refusal. */
  function EnqueueAll(s: SendState, mode: Reliability, messages: seq<seq<byte>>, channel: byte): (SendState, Result<()>)
  {
    if messages == [] then (s, Ok(()))
    else
      var (t, r) := EnqueueAll(s, mode, messages[..|messages| - 1], channel);
      if r.Err? then (t, r) else Enqueue(t, mode, messages[|messages| - 1], channel)
  }

  function Lengths(messages: seq<seq<byte>>): seq<nat> {
    seq(|messages|, i requires 0 <= i < |messages| => |messages[i]|)
  }

  /** Only ReliableOrdered messages may exceed one datagram. */
  predicate Fits(mtu: u16, mode: Reliability, messages: seq<seq<byte>>) {
    mode.ReliableOrdered? || forall i | 0 <= i < |messages| :: |messages[i]| <= mtu - 60
  }

  lemma LengthsFront(messages: seq<seq<byte>>)
    requires messages != []
    ensures Lengths(messages)[..|messages| - 1] == Lengths(messages[..|messages| - 1])
    ensures Lengths(messages)[|messages| - 1] == |messages[|messages| - 1]|
  {
  }

  lemma EnqueueReserves(s: SendState, mode: Reliability, data: seq<byte>, channel: byte)
    ensures var (t, r) := Enqueue(s, mode, data, channel);
      && t.mtu == s.mtu
      && (r.Ok? <==> && RequiredBytes(s.mtu, mode, |data|).Ok?
                     && s.ledger.buffered + RequiredBytes(s.mtu, mode, |data|).value <= MAX_BUFFERED
                     && (mode.ReliableOrdered? || |data| <= s.mtu - 60))
      && (r.Ok? ==> t.ledger.buffered == s.ledger.buffered + RequiredBytes(s.mtu, mode, |data|).value)
  {
    hide Pieces, Whole, DivCeil;
  }

  lemma {:induction false} BatchSucceeds(s: SendState, mode: Reliability, messages: seq<seq<byte>>, channel: byte)
    requires BatchBytes(s.mtu, mode, Lengths(messages)).Ok?
    requires s.ledger.buffered + BatchBytes(s.mtu, mode, Lengths(messages)).value <= MAX_BUFFERED
    ensures var (t, r) := EnqueueAll(s, mode, messages, channel);
      && t.mtu == s.mtu
      && (r.Ok? <==> Fits(s.mtu, mode, messages))
      && (r.Ok? ==> t.ledger.buffered == s.ledger.buffered + BatchBytes(s.mtu, mode, Lengths(messages)).value)
    decreases |messages|
  {
    hide Enqueue, RequiredBytes;
    if messages != [] {
      var front, last := messages[..|messages| - 1], messages[|messages| - 1];
      LengthsFront(messages);
      BatchSucceeds(s, mode, front, channel);
      var (t, r) := EnqueueAll(s, mode, front, channel);
      if r.Ok? {
        EnqueueReserves(t, mode, last, channel);
      }
    }
  }

  /**
   A granted batch never fails half-way: every insertion succeeds exactly when
   each message fits its mode, and what was granted is what gets reserved.
   */
  lemma GrantedBatchFits(s: SendState, mode: Reliability, messages: seq<seq<byte>>, channel: byte)
    requires Ledgered(s)
    requires HasBatchCapacity(s, mode, Lengths(messages)) == Ok(true)
    ensures var (t, r) := EnqueueAll(s, mode, messages, channel);
      && (r.Ok? <==> Fits(s.mtu, mode, messages))
      && (r.Ok? ==> t.ledger.buffered == s.ledger.buffered + BatchBytes(s.mtu, mode, Lengths(messages)).value)
  {
    hide BatchBytes, EnqueueAll, Balanced, Held;
    BalanceNonNegative(Held(s), s.ledger);
    BatchSucceeds(s, mode, messages, channel);
  }

  /** The same for one message. */
  lemma GrantedMessageFits(s: SendState, mode: Reliability, data: seq<byte>, channel: byte)
    requires Ledgered(s)
    requires HasCapacity(s, mode, |data|) == Ok(true)
    ensures Enqueue(s, mode, data, channel).1.Ok? <==> mode.ReliableOrdered? || |data| <= s.mtu - 60
  {
    hide Enqueue, RequiredBytes, Balanced, Held;
    BalanceNonNegative(Held(s), s.ledger);
    EnqueueReserves(s, mode, data, channel);
  }

  // ---------------------------------------------------------------------
  // Under a policy.

  /** What admission reads: all buffered bytes, and the unreliable lane's part. */
  datatype Load = Load(buffered: nat, unreliable: nat) {
    predicate Valid() {
      unreliable <= buffered <= MAX_BUFFERED
    }
  }

  /** The general reservation formula. */
  function GeneralCapacity(l: Load, o: SendOptions, mode: Reliability, required: nat): Result<bool>
    requires l.Valid()
  {
    if !ModeReliable(mode) then
      if required > o.unreliableQueueBytes then Err(PacketSizeExceedMTU)
      else Ok(l.unreliable + required <= o.unreliableQueueBytes && l.buffered + required <= MAX_BUFFERED)
    else
      var hard := MAX_BUFFERED - o.unreliableQueueBytes;
      if required > hard then Err(PacketSizeExceedMTU)
      else Ok(&& l.buffered - l.unreliable + required <= Min(Max(o.reliableQueueBytes, required), hard)
              && l.buffered + required <= MAX_BUFFERED)
  }

  /** As the queue decides: reliable traffic alone skips the reservation arithmetic. */
  function HasReservedCapacity(l: Load, policy: Option<SendOptions>, mode: Reliability, required: nat): Result<bool>
    requires l.Valid()
  {
    if policy.None? then Ok(l.buffered + required <= Max(SEND_HIGH_WATER, required))
    else if ModeReliable(mode) && l.unreliable == 0 && required <= policy.value.reliableQueueBytes then
      Ok(l.buffered + required <= policy.value.reliableQueueBytes)
    else GeneralCapacity(l, policy.value, mode, required)
  }

  function HasBatchRequiredCapacity(l: Load, policy: Option<SendOptions>, mode: Reliability, required: nat)
      : Result<bool>
    requires l.Valid()
  {
    if !ModeReliable(mode) && policy.Some? && required > policy.value.unreliableQueueBytes then Ok(false)
    else HasReservedCapacity(l, policy, mode, required)
  }

  /** The shortcut decides as the formula does. */
  lemma ShortcutIsGeneral(l: Load, o: SendOptions, mode: Reliability, required: nat)
    requires l.Valid() && o.Valid()
    ensures HasReservedCapacity(l, Some(o), mode, required) == GeneralCapacity(l, o, mode, required)
  {
  }

  /** An admitted message takes its bytes, in the unreliable lane when it is unreliable. */
  function Admit(l: Load, mode: Reliability, required: nat): Load {
    Load(l.buffered + required, if ModeReliable(mode) then l.unreliable else l.unreliable + required)
  }

  /** The whole unreliable reserve still fits under the cap, whatever the lane holds now. */
  predicate ReserveFree(l: Load, o: SendOptions) {
    l.Valid() && l.buffered - l.unreliable + o.unreliableQueueBytes <= MAX_BUFFERED
  }

  /** Granted bytes fit the cap, and reliable admission never eats into the unreliable reserve. */
  lemma AdmissionKeepsReserve(l: Load, o: SendOptions, mode: Reliability, required: nat)
    requires l.Valid() && o.Valid() && HasReservedCapacity(l, Some(o), mode, required) == Ok(true)
    ensures Admit(l, mode, required).Valid()
    ensures ModeReliable(mode) || ReserveFree(l, o) ==> ReserveFree(Admit(l, mode, required), o)
  {
    ShortcutIsGeneral(l, o, mode, required);
  }

  /** A run of admissions: each is taken when the queue grants it. */
  datatype Offer = Offer(mode: Reliability, required: nat)

  ghost function Granted(l: Load, o: SendOptions, offers: seq<Offer>): (r: Load)
    requires l.Valid() && o.Valid()
    ensures r.Valid()
    decreases |offers|
  {
    if offers == [] then l
    else
      var front, last := Granted(l, o, offers[..|offers| - 1]), offers[|offers| - 1];
      if HasReservedCapacity(front, Some(o), last.mode, last.required) == Ok(true) then
        AdmissionKeepsReserve(front, o, last.mode, last.required);
        Admit(front, last.mode, last.required)
      else front
  }

  /** With the reserve free, an unreliable message is granted exactly when its own lane has room for it. */
  lemma ReserveGrants(l: Load, o: SendOptions, mode: Reliability, required: nat)
    requires ReserveFree(l, o) && !ModeReliable(mode)
    ensures HasReservedCapacity(l, Some(o), mode, required) == Ok(true)
      <==> l.unreliable + required <= o.unreliableQueueBytes
  {
  }

  /**
   After one reliable admission and any mix of further offers, an unreliable
   message is granted exactly when its own lane has room for it: reliable
   traffic can no longer be the reason for a refusal.
   */
  lemma {:induction false} ReserveIsUsable(l: Load, o: SendOptions, offers: seq<Offer>, mode: Reliability,
      required: nat)
    requires l.Valid() && o.Valid() && ReserveFree(l, o) && !ModeReliable(mode)
    ensures var r := Granted(l, o, offers);
      && ReserveFree(r, o)
      && (HasReservedCapacity(r, Some(o), mode, required) == Ok(true)
        <==> r.unreliable + required <= o.unreliableQueueBytes)
    decreases |offers|
  {
    if offers != [] {
      var last := offers[|offers| - 1];
      ReserveIsUsable(l, o, offers[..|offers| - 1], mode, required);
      var front := Granted(l, o, offers[..|offers| - 1]);
      if HasReservedCapacity(front, Some(o), last.mode, last.required) == Ok(true) {
        AdmissionKeepsReserve(front, o, last.mode, last.required);
      }
    }
    ReserveGrants(Granted(l, o, offers), o, mode, required);
  }
}
