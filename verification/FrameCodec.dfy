/** Encoding and decoding of frame-set datagrams. */
module FrameCodec {
  import opened Bytes
  import opened Errors
  import opened Frames
  import opened Serial

  const MAX_FRAME_DATA: int := 8191

  // ---------------------------------------------------------------------
  // Wire format.

  /** What the writer checks before encoding a frame. */
  function Validate(f: Frame): Result<()> {
    if |f.data| != f.length || |f.data| > MAX_FRAME_DATA
       || (f.IsFragment() && (f.compoundSize == 0 || f.fragmentIndex >= f.compoundSize)) then
      Err(PacketParseError)
    else if f.Mode().Err? then Err(f.Mode().error)
    else Ok(())
  }

  predicate ValidFrame(f: Frame) {
    Validate(f).Ok?
  }

  /** Packet kind and datagram number, once per datagram. */
  function Prefix(f: Frame): seq<byte> {
    [if f.IsFragment() && f.fragmentIndex != 0 then 0x8c else 0x84] + U24Little(f.sequenceNumber)
  }

  function IndexBytes(present: bool, index: u24): seq<byte> {
    if present then U24Little(index) else []
  }

  function OrderBytes(f: Frame): seq<byte> {
    if f.IsOrdered() then U24Little(f.orderedIndex) + [f.channel] else []
  }

  function CompoundBytes(f: Frame): seq<byte> {
    if f.IsFragment() then U32Big(f.compoundSize) + (U16Big(f.compoundId) + U32Big(f.fragmentIndex)) else []
  }

  // A frame's own header, field by field.

  function Lead(f: Frame): seq<byte>
    requires ValidFrame(f)
  {
    [f.flags] + U16Big(f.length * 8)
  }

  function ReliablePart(f: Frame): seq<byte> {
    IndexBytes(f.IsReliable(), f.reliableIndex)
  }

  function SequencedPart(f: Frame): seq<byte> {
    IndexBytes(f.IsSequenced(), f.sequencedIndex)
  }

  function Header(f: Frame): seq<byte>
    requires ValidFrame(f)
  {
    Lead(f) + ReliablePart(f) + SequencedPart(f) + OrderBytes(f) + CompoundBytes(f)
  }

  function Body(f: Frame): seq<byte>
    requires ValidFrame(f)
  {
    Header(f) + f.data
  }

  ghost predicate AllValid(frames: seq<Frame>) {
    forall i | 0 <= i < |frames| :: ValidFrame(frames[i])
  }

  function Bodies(frames: seq<Frame>): seq<byte>
    requires AllValid(frames)
  {
    if frames == [] then [] else Body(frames[0]) + Bodies(frames[1..])
  }

  ghost predicate SameNumber(frames: seq<Frame>, number: u24) {
    forall i | 0 <= i < |frames| :: frames[i].sequenceNumber == number
  }

  ghost predicate ValidGroup(frames: seq<Frame>) {
    frames != [] && AllValid(frames) && SameNumber(frames, frames[0].sequenceNumber)
  }

  function GroupBytes(frames: seq<Frame>): seq<byte>
    requires ValidGroup(frames)
  {
    Prefix(frames[0]) + Bodies(frames)
  }

  // ---------------------------------------------------------------------
  // Writing.

  /** Packet kind, datagram number and frame header; the last two parts are separate results. */
  method EncodeHeader(f: Frame) returns (r: Result<(seq<byte>, seq<byte>)>)
    ensures r.Ok? <==> ValidFrame(f)
    ensures r.Ok? ==> r.value == (Prefix(f), Header(f))
  {
    var checked := Validate(f);
    if checked.Err? {
      return Err(checked.error);
    }
    var id := 0x84;
    if f.IsFragment() && f.fragmentIndex != 0 {
      id := 0x8c;
    }
    var prefix := [id] + U24Little(f.sequenceNumber);
    var header := [f.flags] + U16Big(f.length * 8);
    header := header + IndexBytes(f.IsReliable(), f.reliableIndex);
    header := header + IndexBytes(f.IsSequenced(), f.sequencedIndex);
    header := header + OrderBytes(f);
    header := header + CompoundBytes(f);
    r := Ok((prefix, header));
  }

  /** The bytes of the first `i` frames of a group. */
  function PartialGroup(frames: seq<Frame>, i: nat): seq<byte>
    requires i <= |frames| && AllValid(frames[..i])
  {
    if i == 0 then [] else Prefix(frames[0]) + Bodies(frames[..i])
  }

  lemma PartialStep(frames: seq<Frame>, i: nat)
    requires i < |frames| && AllValid(frames[..i]) && ValidFrame(frames[i])
    ensures AllValid(frames[..i + 1])
    ensures PartialGroup(frames, i + 1)
         == PartialGroup(frames, i) + (if i == 0 then Prefix(frames[0]) else []) + Header(frames[i]) + frames[i].data
  {
    hide Header, Prefix, Validate;
    BodiesSnoc(frames[..i], frames[i]);
    assert frames[..i] + [frames[i]] == frames[..i + 1];
  }

  method SerializeGroup(frames: seq<Frame>) returns (r: Result<seq<byte>>)
    ensures r.Ok? <==> ValidGroup(frames)
    ensures r.Ok? ==> r.value == GroupBytes(frames)
  {
    hide Header, Prefix, Validate, Bodies;
    if frames == [] {
      return Err(PacketParseError);
    }
    var output := [];
    for i := 0 to |frames|
      invariant AllValid(frames[..i]) && SameNumber(frames[..i], frames[0].sequenceNumber)
      invariant output == PartialGroup(frames, i)
    {
      if frames[i].sequenceNumber != frames[0].sequenceNumber {
        return Err(PacketParseError);
      }
      var encoded := EncodeHeader(frames[i]);
      if encoded.Err? {
        return Err(encoded.error);
      }
      PartialStep(frames, i);
      output := output + (if i == 0 then encoded.value.0 else []) + encoded.value.1 + frames[i].data;
    }
    assert frames[..|frames|] == frames;
    r := Ok(output);
  }

  lemma {:induction false} BodiesSnoc(frames: seq<Frame>, f: Frame)
    requires ValidFrame(f) && AllValid(frames)
    ensures AllValid(frames + [f])
    ensures Bodies(frames + [f]) == Bodies(frames) + Body(f)
  {
    assert AllValid(frames + [f]);
    if frames == [] {
      assert Bodies([f]) == Body(f) + Bodies([]);
    } else {
      assert (frames + [f])[1..] == frames[1..] + [f];
      BodiesSnoc(frames[1..], f);
      assert Body(frames[0]) + (Bodies(frames[1..]) + Body(f)) == Bodies(frames) + Body(f);
    }
  }

  // ---------------------------------------------------------------------
  // Reading.

  function GetIndex(buf: seq<byte>, pos: nat, present: bool): (r: Result<(u24, nat)>)
    requires pos <= |buf|
    ensures r.Ok? ==> pos <= r.value.1 <= |buf|
  {
    if !present then Ok((0, pos))
    else
      var v :- GetU24(buf, pos);
      Ok((v, pos + 3))
  }

  function GetOrder(buf: seq<byte>, pos: nat, present: bool): (r: Result<(u24, byte, nat)>)
    requires pos <= |buf|
    ensures r.Ok? ==> pos <= r.value.2 <= |buf|
  {
    if !present then Ok((0, 0, pos))
    else
      var v :- GetU24(buf, pos);
      var channel :- GetU8(buf, pos + 3);
      Ok((v, channel, pos + 4))
  }

  function GetCompound(buf: seq<byte>, pos: nat, present: bool): (r: Result<(u32, u16, u32, nat)>)
    requires pos <= |buf|
    ensures r.Ok? ==> pos <= r.value.3 <= |buf|
  {
    if !present then Ok((0, 0, 0, pos))
    else
      var size :- GetU32(buf, pos);
      var id :- GetU16(buf, pos + 4);
      var index :- GetU32(buf, pos + 6);
      if size == 0 || index >= size then Err(PacketParseError) else Ok((size, id, index, pos + 10))
  }

  /** The frame at `pos` and the position after it. */
  function ParseFrame(buf: seq<byte>, pos: nat, number: u24): (r: Result<(Frame, nat)>)
    requires pos <= |buf|
    ensures r.Ok? ==> pos < r.value.1 <= |buf|
    ensures r.Ok? ==> var (f, p) := r.value; f.length <= p && f.data == buf[p - f.length..p]
  {
    var flags :- GetU8(buf, pos);
    var bits :- GetU16(buf, pos + 1);
    if bits % 8 != 0 then Err(PacketParseError)
    else
      var mode :- FromU8(flags / 32);
      var (reliable, p1) :- GetIndex(buf, pos + 3, ModeReliable(mode));
      var (sequenced, p2) :- GetIndex(buf, p1, ModeSequenced(mode));
      var (ordered, channel, p3) :- GetOrder(buf, p2, ModeOrdered(mode));
      var (size, id, index, p4) :- GetCompound(buf, p3, flags / 16 % 2 == 1);
      var data :- GetSlice(buf, p4, bits / 8);
      Ok((Frame(number, flags, bits / 8, reliable, sequenced, ordered, channel, size, id, index, data),
          p4 + bits / 8))
  }

  function ParseFrames(buf: seq<byte>, pos: nat, number: u24): (r: Result<seq<Frame>>)
    requires pos <= |buf|
    decreases |buf| - pos
  {
    if pos == |buf| then Ok([])
    else
      var (f, p) :- ParseFrame(buf, pos, number);
      var rest :- ParseFrames(buf, p, number);
      Ok([f] + rest)
  }

  function Decode(buf: seq<byte>): Result<seq<Frame>> {
    var id :- GetU8(buf, 0);
    if !(0x80 <= id <= 0x8d) then Err(PacketHeaderError)
    else
      var number :- GetU24(buf, 1);
      if |buf| == 4 then Err(PacketParseError) else ParseFrames(buf, 4, number)
  }

  function Prepend(frames: seq<Frame>, r: Result<seq<Frame>>): Result<seq<Frame>> {
    if r.Err? then r else Ok(frames + r.value)
  }

  /** A lone frame whose payload copy was skipped. */
  function WithoutLoneData(frames: seq<Frame>): seq<Frame> {
    if |frames| == 1 then [frames[0].(data := [])] else frames
  }

  method ReadIndex(reader: RaknetReader, present: bool) returns (r: Result<u24>)
    requires reader.Valid()
    modifies reader
    ensures reader.Valid()
    ensures var got := GetIndex(reader.buf, old(reader.pos), present);
      if got.Err? then r == Err(got.error) else r == Ok(got.value.0) && reader.pos == got.value.1
  {
    if !present {
      return Ok(0);
    }
    r := reader.ReadU24();
  }

  method ReadOrder(reader: RaknetReader, present: bool) returns (r: Result<(u24, byte)>)
    requires reader.Valid()
    modifies reader
    ensures reader.Valid()
    ensures var got := GetOrder(reader.buf, old(reader.pos), present);
      if got.Err? then r == Err(got.error)
      else r == Ok((got.value.0, got.value.1)) && reader.pos == got.value.2
  {
    if !present {
      return Ok((0, 0));
    }
    var index :- reader.ReadU24();
    var channel :- reader.ReadU8();
    r := Ok((index, channel));
  }

  method ReadCompound(reader: RaknetReader, present: bool) returns (r: Result<(u32, u16, u32)>)
    requires reader.Valid()
    modifies reader
    ensures reader.Valid()
    ensures var got := GetCompound(reader.buf, old(reader.pos), present);
      if got.Err? then r == Err(got.error)
      else r == Ok((got.value.0, got.value.1, got.value.2)) && reader.pos == got.value.3
  {
    if !present {
      return Ok((0, 0, 0));
    }
    var size :- reader.ReadU32();
    var id :- reader.ReadU16();
    var index :- reader.ReadU32();
    if size == 0 || index >= size {
      return Err(PacketParseError);
    }
    r := Ok((size, id, index));
  }

  method ReadFrame(reader: RaknetReader, number: u24) returns (r: Result<Frame>)
    requires reader.Valid()
    modifies reader
    ensures reader.Valid()
    ensures var parsed := ParseFrame(reader.buf, old(reader.pos), number);
      if parsed.Err? then r == Err(parsed.error)
      else r == Ok(parsed.value.0) && reader.pos == parsed.value.1
  {
    hide GetU8, GetU16, GetIndex, GetOrder, GetCompound, GetSlice;
    var flags :- reader.ReadU8();
    var bits :- reader.ReadU16();
    if bits % 8 != 0 {
      return Err(PacketParseError);
    }
    var mode :- FromU8(flags / 32);
    var reliable :- ReadIndex(reader, ModeReliable(mode));
    var sequenced :- ReadIndex(reader, ModeSequenced(mode));
    var order :- ReadOrder(reader, ModeOrdered(mode));
    var compound :- ReadCompound(reader, flags / 16 % 2 == 1);
    var data :- reader.ReadSlice(bits / 8);
    r := Ok(Frame(number, flags, bits / 8, reliable, sequenced, order.0, order.1,
                  compound.0, compound.1, compound.2, data));
  }

  /** With `owned`, the payload of a lone frame is left for the caller to move in. */
  method DecodeWith(buf: seq<byte>, owned: bool) returns (r: Result<seq<Frame>>)
    ensures Decode(buf).Err? ==> r == Decode(buf)
    ensures Decode(buf).Ok? ==>
      r == Ok(if owned then WithoutLoneData(Decode(buf).value) else Decode(buf).value)
    ensures Decode(buf).Ok? && |Decode(buf).value| == 1 ==>
      var f := Decode(buf).value[0]; f.length <= |buf| && f.data == buf[|buf| - f.length..]
  {
    hide ParseFrame;
    var reader := new RaknetReader(buf);
    var id :- reader.ReadU8();
    if !(0x80 <= id <= 0x8d) {
      return Err(PacketHeaderError);
    }
    var number :- reader.ReadU24();
    if reader.pos == |buf| {
      return Err(PacketParseError);
    }
    var frames := [];
    ghost var full := [];
    assert ParseFrames(buf, 4, number).Ok?
      ==> [] + ParseFrames(buf, 4, number).value == ParseFrames(buf, 4, number).value;
    while reader.pos < |buf|
      invariant reader.Valid() && 4 <= reader.pos && (|full| == 0 <==> reader.pos == 4)
      invariant Prepend(full, ParseFrames(buf, reader.pos, number)) == ParseFrames(buf, 4, number)
      invariant |frames| == |full|
      invariant reader.pos < |buf| || !owned || |full| != 1 ==> frames == full
      invariant reader.pos == |buf| && owned && |full| == 1 ==> frames == [full[0].(data := [])]
      invariant reader.pos == |buf| && |full| == 1 ==>
        full[0].length <= |buf| && full[0].data == buf[|buf| - full[0].length..]
      decreases |buf| - reader.pos
    {
      ghost var parsed := ParseFrame(buf, reader.pos, number);
      if parsed.Ok? {
        PrependStep(full, buf, reader.pos, number);
      }
      var frame :- ReadFrame(reader, number);
      full := full + [frame];
      if !owned || frames != [] || reader.pos != |buf| {
        frames := frames + [frame];
      } else {
        frames := frames + [frame.(data := [])];
      }
    }
    assert full + [] == full;
    r := Ok(frames);
  }

  lemma PrependStep(full: seq<Frame>, buf: seq<byte>, pos: nat, number: u24)
    requires pos < |buf| && ParseFrame(buf, pos, number).Ok?
    ensures var (f, p) := ParseFrame(buf, pos, number).value;
      Prepend(full, ParseFrames(buf, pos, number)) == Prepend(full + [f], ParseFrames(buf, p, number))
  {
    hide ParseFrame;
    var (f, p) := ParseFrame(buf, pos, number).value;
    if ParseFrames(buf, p, number).Ok? {
      var rest := ParseFrames(buf, p, number).value;
      assert full + ([f] + rest) == full + [f] + rest;
    }
  }

  method DecodeInto(buf: seq<byte>) returns (r: Result<seq<Frame>>)
    ensures r == Decode(buf)
  {
    r := DecodeWith(buf, false);
  }

  /** The in-place decoder agrees with the copying one on every byte string. */
  method DecodeOwnedInto(buf: seq<byte>) returns (r: Result<seq<Frame>>)
    ensures r == Decode(buf)
  {
    var frames :- DecodeWith(buf, true);
    if |frames| == 1 {
      // Compact the body in place: the payload is the tail of the datagram.
      var offset := |buf| - frames[0].length;
      var body := buf[offset..];
      ghost var whole := Decode(buf).value;
      frames := [frames[0].(data := body)];
      assert whole == [whole[0]];
    }
    r := Ok(frames);
  }

  // ---------------------------------------------------------------------
  // Decoding inverts encoding.

  /** Fields that a frame's mode does not put on the wire hold their default. */
  predicate Canonical(f: Frame) {
    && (!f.IsReliable() ==> f.reliableIndex == 0)
    && (!f.IsSequenced() ==> f.sequencedIndex == 0)
    && (!f.IsOrdered() ==> f.orderedIndex == 0 && f.channel == 0)
    && (!f.IsFragment() ==> f.compoundSize == 0 && f.compoundId == 0 && f.fragmentIndex == 0)
  }

  lemma IndexReadBack(buf: seq<byte>, pos: nat, present: bool, index: u24)
    requires At(buf, pos, IndexBytes(present, index)) && (!present ==> index == 0)
    ensures GetIndex(buf, pos, present) == Ok((index, pos + |IndexBytes(present, index)|))
  {
    if present {
      ReadBack24(buf, pos, index);
    }
  }

  lemma OrderReadBack(buf: seq<byte>, pos: nat, f: Frame)
    requires At(buf, pos, OrderBytes(f)) && Canonical(f)
    ensures GetOrder(buf, pos, f.IsOrdered()) == Ok((f.orderedIndex, f.channel, pos + |OrderBytes(f)|))
  {
    if f.IsOrdered() {
      AtSplit(buf, pos, U24Little(f.orderedIndex), [f.channel]);
      ReadBack24(buf, pos, f.orderedIndex);
      assert buf[pos + 3] == buf[pos + 3..pos + 4][0];
    }
  }

  lemma CompoundReadBack(buf: seq<byte>, pos: nat, f: Frame)
    requires At(buf, pos, CompoundBytes(f)) && Canonical(f) && ValidFrame(f)
    ensures GetCompound(buf, pos, f.IsFragment())
         == Ok((f.compoundSize, f.compoundId, f.fragmentIndex, pos + |CompoundBytes(f)|))
  {
    if f.IsFragment() {
      AtSplit(buf, pos, U32Big(f.compoundSize), U16Big(f.compoundId) + U32Big(f.fragmentIndex));
      AtSplit(buf, pos + 4, U16Big(f.compoundId), U32Big(f.fragmentIndex));
      ReadBack32(buf, pos, f.compoundSize);
      ReadBack16(buf, pos + 4, f.compoundId);
      ReadBack32(buf, pos + 6, f.fragmentIndex);
    }
  }

  /** Where each header field of an encoded frame lies. */
  lemma FieldsAt(buf: seq<byte>, pos: nat, f: Frame)
    requires ValidFrame(f) && At(buf, pos, Body(f))
    ensures var p1 := pos + 3; var p2 := p1 + |ReliablePart(f)|; var p3 := p2 + |SequencedPart(f)|;
      var p4 := p3 + |OrderBytes(f)|; var p5 := p4 + |CompoundBytes(f)|;
      && At(buf, pos, Lead(f)) && At(buf, p1, ReliablePart(f)) && At(buf, p2, SequencedPart(f))
      && At(buf, p3, OrderBytes(f)) && At(buf, p4, CompoundBytes(f)) && At(buf, p5, f.data)
      && pos + |Body(f)| == p5 + |f.data|
  {
    AtSplit(buf, pos, Header(f), f.data);
    var d := Lead(f) + ReliablePart(f) + SequencedPart(f) + OrderBytes(f);
    AtSplit(buf, pos, d, CompoundBytes(f));
    var c := Lead(f) + ReliablePart(f) + SequencedPart(f);
    AtSplit(buf, pos, c, OrderBytes(f));
    AtSplit(buf, pos, Lead(f) + ReliablePart(f), SequencedPart(f));
    AtSplit(buf, pos, Lead(f), ReliablePart(f));
  }

  lemma LeadReadBack(buf: seq<byte>, pos: nat, f: Frame)
    requires ValidFrame(f) && At(buf, pos, Lead(f))
    ensures GetU8(buf, pos) == Ok(f.flags) && GetU16(buf, pos + 1) == Ok(f.length * 8)
  {
    AtSplit(buf, pos, [f.flags], U16Big(f.length * 8));
    assert buf[pos] == buf[pos..pos + 1][0];
    ReadBack16(buf, pos + 1, f.length * 8);
  }

  /** Every reader of the frame parser finds the field that was written. */
  ghost predicate FieldsRead(buf: seq<byte>, pos: nat, f: Frame, p2: nat, p3: nat, p4: nat, p5: nat) {
    && pos + 3 <= p2 <= p3 <= p4 <= p5 <= |buf|
    && GetU8(buf, pos) == Ok(f.flags)
    && GetU16(buf, pos + 1) == Ok(f.length * 8)
    && GetIndex(buf, pos + 3, f.IsReliable()) == Ok((f.reliableIndex, p2))
    && GetIndex(buf, p2, f.IsSequenced()) == Ok((f.sequencedIndex, p3))
    && GetOrder(buf, p3, f.IsOrdered()) == Ok((f.orderedIndex, f.channel, p4))
    && GetCompound(buf, p4, f.IsFragment()) == Ok((f.compoundSize, f.compoundId, f.fragmentIndex, p5))
    && GetSlice(buf, p5, f.length) == Ok(f.data)
  }

  lemma FieldsReadBack(buf: seq<byte>, pos: nat, f: Frame) returns (p2: nat, p3: nat, p4: nat, p5: nat)
    requires ValidFrame(f) && Canonical(f) && At(buf, pos, Body(f))
    ensures FieldsRead(buf, pos, f, p2, p3, p4, p5) && pos + |Body(f)| == p5 + f.length
  {
    hide Header, GetIndex, GetOrder, GetCompound, GetU8, GetU16;
    FieldsAt(buf, pos, f);
    LeadReadBack(buf, pos, f);
    IndexReadBack(buf, pos + 3, f.IsReliable(), f.reliableIndex);
    p2 := pos + 3 + |ReliablePart(f)|;
    IndexReadBack(buf, p2, f.IsSequenced(), f.sequencedIndex);
    p3 := p2 + |SequencedPart(f)|;
    OrderReadBack(buf, p3, f);
    p4 := p3 + |OrderBytes(f)|;
    CompoundReadBack(buf, p4, f);
    p5 := p4 + |CompoundBytes(f)|;
  }

  lemma FrameParsed(buf: seq<byte>, pos: nat, f: Frame, p2: nat, p3: nat, p4: nat, p5: nat)
    requires ValidFrame(f) && FieldsRead(buf, pos, f, p2, p3, p4, p5)
    ensures ParseFrame(buf, pos, f.sequenceNumber) == Ok((f, p5 + f.length))
  {
    var mode := f.Mode().value;
    assert f.IsReliable() == ModeReliable(mode) && f.IsSequenced() == ModeSequenced(mode);
    assert f.IsOrdered() == ModeOrdered(mode);
    assert f.length * 8 / 8 == f.length && f.length * 8 % 8 == 0;
  }

  lemma FrameReadBack(buf: seq<byte>, pos: nat, f: Frame)
    requires ValidFrame(f) && Canonical(f) && At(buf, pos, Body(f))
    ensures ParseFrame(buf, pos, f.sequenceNumber) == Ok((f, pos + |Body(f)|))
  {
    hide FieldsRead, ParseFrame, Header, At;
    var p2, p3, p4, p5 := FieldsReadBack(buf, pos, f);
    FrameParsed(buf, pos, f, p2, p3, p4, p5);
  }

  ghost predicate AllCanonical(frames: seq<Frame>) {
    forall i | 0 <= i < |frames| :: Canonical(frames[i])
  }

  lemma {:induction false} FramesReadBack(buf: seq<byte>, pos: nat, frames: seq<Frame>, number: u24)
    requires AllValid(frames) && AllCanonical(frames) && SameNumber(frames, number)
    requires pos <= |buf| && buf[pos..] == Bodies(frames)
    ensures ParseFrames(buf, pos, number) == Ok(frames)
    decreases |frames|
  {
    if frames != [] {
      hide ParseFrame, Body, Validate, Canonical;
      var body := Body(frames[0]);
      TailSplit(buf, pos, body, Bodies(frames[1..]));
      FrameReadBack(buf, pos, frames[0]);
      FramesReadBack(buf, pos + |body|, frames[1..], number);
      assert [frames[0]] + frames[1..] == frames;
    }
  }

  /** Decoding inverts encoding on every valid group of frames. */
  lemma GroupRoundTrip(frames: seq<Frame>)
    requires ValidGroup(frames) && AllCanonical(frames)
    ensures Decode(GroupBytes(frames)) == Ok(frames)
  {
    var buf, number := GroupBytes(frames), frames[0].sequenceNumber;
    assert buf[1..4] == U24Little(number);
    ReadBack24(buf, 1, number);
    assert buf[4..] == Bodies(frames);
    assert |Bodies(frames)| >= |Body(frames[0])| > 0;
    FramesReadBack(buf, 4, frames, number);
  }

  /** Encoded size of a group: the shared prefix is counted once. */
  function GroupSize(frames: seq<Frame>): nat {
    if frames == [] then 0
    else if |frames| == 1 then frames[0].Size()
    else GroupSize(frames[..|frames| - 1]) + frames[|frames| - 1].Size() - 4
  }

  lemma BodySize(f: Frame)
    requires ValidFrame(f)
    ensures |Prefix(f)| == 4 && |Body(f)| == f.Size() - 4
  {
  }

  lemma {:induction false} GroupSizeExact(frames: seq<Frame>)
    requires ValidGroup(frames)
    ensures |GroupBytes(frames)| == GroupSize(frames)
    decreases |frames|
  {
    hide Body, Prefix, Validate;
    var n := |frames|;
    BodySize(frames[n - 1]);
    BodySize(frames[0]);
    if n > 1 {
      var front, last := frames[..n - 1], frames[n - 1];
      assert frames == front + [last];
      GroupSizeExact(front);
      BodiesSnoc(front, last);
    } else {
      assert frames == [] + [frames[0]];
      BodiesSnoc([], frames[0]);
    }
  }
}
