/** Frames as they travel inside a datagram, and what their flag byte says. */
module Frames {
  import opened Bytes
  import opened Errors
  import opened Serial

  datatype Reliability = Unreliable | UnreliableSequenced | Reliable | ReliableOrdered | ReliableSequenced

  function ToU8(r: Reliability): byte {
    match r
    case Unreliable => 0
    case UnreliableSequenced => 1
    case Reliable => 2
    case ReliableOrdered => 3
    case ReliableSequenced => 4
  }

  function FromU8(v: int): Result<Reliability> {
    if v == 0 then Ok(Unreliable)
    else if v == 1 then Ok(UnreliableSequenced)
    else if v == 2 then Ok(Reliable)
    else if v == 3 then Ok(ReliableOrdered)
    else if v == 4 then Ok(ReliableSequenced)
    else Err(IncorrectReliability)
  }

  predicate ModeReliable(r: Reliability) {
    r.Reliable? || r.ReliableOrdered? || r.ReliableSequenced?
  }

  predicate ModeOrdered(r: Reliability) {
    r.UnreliableSequenced? || r.ReliableOrdered? || r.ReliableSequenced?
  }

  predicate ModeSequenced(r: Reliability) {
    r.UnreliableSequenced? || r.ReliableSequenced?
  }

  /** Bit 4 of the flag byte. */
  const FRAGMENT_FLAG: int := 16

  datatype Frame = Frame(
    sequenceNumber: u24,
    flags: byte,
    length: u16,
    reliableIndex: u24,
    sequencedIndex: u24,
    orderedIndex: u24,
    channel: byte,
    compoundSize: u32,
    compoundId: u16,
    fragmentIndex: u32,
    data: seq<byte>)
  {
    /** The top three flag bits. */
    function Mode(): Result<Reliability> {
      FromU8(flags / 32)
    }

    predicate IsFragment() {
      flags / 16 % 2 == 1
    }

    predicate IsReliable() {
      Mode().Ok? && ModeReliable(Mode().value)
    }

    predicate IsOrdered() {
      Mode().Ok? && ModeOrdered(Mode().value)
    }

    predicate IsSequenced() {
      Mode().Ok? && ModeSequenced(Mode().value)
    }

    /** Encoded size as the only frame of a datagram. */
    function Size(): nat {
      7
      + (if IsReliable() then 3 else 0)
      + (if IsSequenced() then 3 else 0)
      + (if IsOrdered() then 4 else 0)
      + (if IsFragment() then 10 else 0)
      + |data|
    }
  }

  function NewFrame(r: Reliability, data: seq<byte>): Frame {
    Frame(0, ToU8(r) * 32, |data| % 0x1_0000, 0, 0, 0, 0, 0, 0, 0, data)
  }
}
