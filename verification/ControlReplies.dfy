// What the receiving task queues in answer to control frames. A reply is
// inserted message by message, and a refusal leaves what went in before it.
module ControlReplies {
  import opened Bytes
  import opened Errors
  import opened Frames
  import opened Sender

  /** More than any control reply. */
  const MAX_REPLY: int := 1024
  /** A connected ping. */
  const PING: int := 9
  /** A new-connection announcement with an IPv4 server address; with an IPv6 one it is longer. */
  const ANNOUNCEMENT: int := 94

  /** The one byte that says goodbye. */
  const DISCONNECT: byte := 0x15

  type Replies = seq<(Reliability, seq<byte>)>

  /** Insertions one after another, up to the first refusal. */
  function EnqueueReplies(s: SendState, replies: Replies): (SendState, Result<()>) {
    if replies == [] then (s, Ok(()))
    else
      var (t, r) := EnqueueReplies(s, replies[..|replies| - 1]);
      var last := replies[|replies| - 1];
      if r.Err? then (t, r) else Enqueue(t, last.0, last.1, 0)
  }

  /** One message, or an ordered one and a ping. */
  predicate ReplyShape(replies: Replies) {
    || (|replies| == 1 && |replies[0].1| <= MAX_REPLY)
    || (|replies| == 2 && replies[0].0.ReliableOrdered? && replies[1].0.Unreliable?
        && |replies[0].1| <= MAX_REPLY && |replies[1].1| == PING)
  }

  lemma RepliesUnfold(s: SendState, replies: Replies)
    requires 1 <= |replies| <= 2
    ensures var first := Enqueue(s, replies[0].0, replies[0].1, 0);
      EnqueueReplies(s, replies)
        == if |replies| == 1 then first else if first.1.Err? then first
          else Enqueue(first.0, replies[1].0, replies[1].1, 0)
  {
    hide Enqueue;
    assert EnqueueReplies(s, []) == (s, Ok(()));
    var one := replies[..1];
    assert one == [replies[0]] && one[..0] == replies[..0] && |replies[..0]| == 0;
  }

  /** Fragments are at least a byte long. */
  lemma CeilBelow(length: nat, size: nat)
    requires size > 0
    ensures DivCeil(length, size) <= length
  {
    var n := DivCeil(length, size);
    if n > 0 {
      ChunkInside(length, size, n - 1);
      MulMonotone(1, size, n - 1);
    }
  }
}
