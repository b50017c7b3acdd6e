/** Encoding and decoding of ACK and NACK range lists. */
module RangeCodec {
  import opened AckSet
  import opened Bytes
  import opened Errors
  import opened Serial

  function RecordBytes(r: Range): seq<byte> {
    if r.first == r.last then [1] + U24Little(r.first) else [0] + (U24Little(r.first) + U24Little(r.last))
  }

  function RecordsBytes(ranges: seq<Range>): seq<byte> {
    if ranges == [] then [] else RecordBytes(ranges[0]) + RecordsBytes(ranges[1..])
  }

  function ControlBytes(kind: byte, ranges: seq<Range>): Result<seq<byte>> {
    if |ranges| > 0xffff then Err(PacketParseError)
    else Ok([kind] + U16Big(|ranges|) + RecordsBytes(ranges))
  }

  method WriteControlRanges(kind: byte, ranges: seq<Range>) returns (r: Result<seq<byte>>)
    ensures r == ControlBytes(kind, ranges)
  {
    hide RecordBytes, U16Big;
    if |ranges| > 0xffff {
      return Err(PacketParseError);
    }
    var output := [kind] + U16Big(|ranges|);
    ghost var head := output;
    for i := 0 to |ranges|
      invariant output == head + RecordsBytes(ranges[..i])
    {
      RecordsSnoc(ranges[..i], ranges[i]);
      assert ranges[..i] + [ranges[i]] == ranges[..i + 1];
      var record := WriteRecord(ranges[i]);
      output := output + record;
    }
    assert ranges[..|ranges|] == ranges;
    r := Ok(output);
  }

  method WriteRecord(r: Range) returns (output: seq<byte>)
    ensures output == RecordBytes(r)
  {
    var single := if r.first == r.last then 1 else 0;
    output := [single] + U24Little(r.first);
    if single == 0 {
      output := output + U24Little(r.last);
    }
  }

  lemma {:induction false} RecordsSnoc(ranges: seq<Range>, r: Range)
    ensures RecordsBytes(ranges + [r]) == RecordsBytes(ranges) + RecordBytes(r)
  {
    hide RecordBytes;
    if ranges == [] {
      assert RecordsBytes([r]) == RecordBytes(r) + RecordsBytes([]);
    } else {
      assert (ranges + [r])[1..] == ranges[1..] + [r];
      RecordsSnoc(ranges[1..], r);
    }
  }

  // ---------------------------------------------------------------------
  // Reading.

  function ParseRecord(buf: seq<byte>, pos: nat): (r: Result<(Range, nat)>)
    requires pos <= |buf|
    ensures r.Ok? ==> pos < r.value.1 <= |buf| && r.value.0.first <= r.value.0.last
  {
    var single :- GetU8(buf, pos);
    if single > 1 then Err(PacketParseError)
    else
      var first :- GetU24(buf, pos + 1);
      var last :- if single == 1 then Ok(first) else GetU24(buf, pos + 4);
      if last < first then Err(PacketParseError)
      else Ok((Range(first, last), if single == 1 then pos + 4 else pos + 7))
  }

  function ParseRecords(buf: seq<byte>, pos: nat, count: nat): (r: Result<seq<Range>>)
    requires pos <= |buf|
    ensures r.Ok? ==> |r.value| == count && WellFormed(r.value)
    decreases count
  {
    if count == 0 then Ok([])
    else
      var (range, p) :- ParseRecord(buf, pos);
      var rest :- ParseRecords(buf, p, count - 1);
      Ok([range] + rest)
  }

  function ReadControl(buf: seq<byte>): (r: Result<seq<Range>>)
    ensures r.Ok? ==> WellFormed(r.value)
  {
    var kind :- GetU8(buf, 0);
    var count :- GetU16(buf, 1);
    if count > (|buf| - 3) / 4 then Err(PacketParseError) else ParseRecords(buf, 3, count)
  }

  function Prepend(ranges: seq<Range>, r: Result<seq<Range>>): Result<seq<Range>> {
    if r.Err? then r else Ok(ranges + r.value)
  }

  lemma PrependStep(ranges: seq<Range>, buf: seq<byte>, pos: nat, count: nat)
    requires pos <= |buf| && count > 0 && ParseRecord(buf, pos).Ok?
    ensures var (range, p) := ParseRecord(buf, pos).value;
      Prepend(ranges, ParseRecords(buf, pos, count)) == Prepend(ranges + [range], ParseRecords(buf, p, count - 1))
  {
    hide ParseRecord;
    var (range, p) := ParseRecord(buf, pos).value;
    var rest := ParseRecords(buf, p, count - 1);
    if rest.Ok? {
      assert ranges + ([range] + rest.value) == ranges + [range] + rest.value;
    }
  }

  method ReadRecord(reader: RaknetReader) returns (r: Result<Range>)
    requires reader.Valid()
    modifies reader
    ensures reader.Valid()
    ensures var parsed := ParseRecord(reader.buf, old(reader.pos));
      if parsed.Err? then r == Err(parsed.error)
      else r == Ok(parsed.value.0) && reader.pos == parsed.value.1
  {
    hide GetU8, GetU24;
    var single :- reader.ReadU8();
    if single > 1 {
      return Err(PacketParseError);
    }
    var first :- reader.ReadU24();
    var last := first;
    if single != 1 {
      last :- reader.ReadU24();
    }
    if last < first {
      return Err(PacketParseError);
    }
    r := Ok(Range(first, last));
  }

  method ReadControlRanges(buf: seq<byte>) returns (r: Result<seq<Range>>)
    ensures r == ReadControl(buf)
  {
    hide ParseRecord;
    var reader := new RaknetReader(buf);
    var kind :- reader.ReadU8();
    var count :- reader.ReadU16();
    // A refused count could not have been parsed either: no record is shorter than four bytes.
    if count > (|buf| - reader.pos) / 4 {
      return Err(PacketParseError);
    }
    var ranges := [];
    ghost var goal := ParseRecords(buf, 3, count);
    assert goal.Ok? ==> [] + goal.value == goal.value;
    for i := 0 to count
      invariant reader.Valid()
      invariant Prepend(ranges, ParseRecords(buf, reader.pos, count - i)) == goal
    {
      if ParseRecord(buf, reader.pos).Ok? {
        PrependStep(ranges, buf, reader.pos, count - i);
      }
      var range :- ReadRecord(reader);
      ranges := ranges + [range];
    }
    assert ranges + [] == ranges;
    r := Ok(ranges);
  }

  // ---------------------------------------------------------------------
  // Reading what was written.

  lemma RecordReadBack(buf: seq<byte>, pos: nat, r: Range)
    requires r.first <= r.last && At(buf, pos, RecordBytes(r))
    ensures ParseRecord(buf, pos) == Ok((r, pos + |RecordBytes(r)|))
  {
    assert buf[pos] == buf[pos..pos + |RecordBytes(r)|][0];
    if r.first == r.last {
      AtSplit(buf, pos, [1], U24Little(r.first));
      ReadBack24(buf, pos + 1, r.first);
    } else {
      AtSplit(buf, pos, [0], U24Little(r.first) + U24Little(r.last));
      AtSplit(buf, pos + 1, U24Little(r.first), U24Little(r.last));
      ReadBack24(buf, pos + 1, r.first);
      ReadBack24(buf, pos + 4, r.last);
    }
  }

  lemma ParseCons(buf: seq<byte>, pos: nat, range: Range, p: nat, rest: seq<Range>)
    requires pos <= |buf| && ParseRecord(buf, pos) == Ok((range, p))
    requires p <= |buf| && ParseRecords(buf, p, |rest|) == Ok(rest)
    ensures ParseRecords(buf, pos, |rest| + 1) == Ok([range] + rest)
  {
    hide ParseRecord, WellFormed;
  }

  lemma WellFormedCons(ranges: seq<Range>)
    requires WellFormed(ranges) && ranges != []
    ensures WellFormed(ranges[1..]) && ranges[0].first <= ranges[0].last
  {
  }

  lemma {:induction false} RecordsReadBack(buf: seq<byte>, pos: nat, ranges: seq<Range>)
    requires WellFormed(ranges) && pos <= |buf| && buf[pos..] == RecordsBytes(ranges)
    ensures ParseRecords(buf, pos, |ranges|) == Ok(ranges)
    decreases |ranges|
  {
    if ranges != [] {
      hide ParseRecord, RecordBytes, WellFormed, ParseRecords;
      var record, rest := RecordBytes(ranges[0]), ranges[1..];
      WellFormedCons(ranges);
      TailSplit(buf, pos, record, RecordsBytes(rest));
      RecordReadBack(buf, pos, ranges[0]);
      RecordsReadBack(buf, pos + |record|, rest);
      ParseCons(buf, pos, ranges[0], pos + |record|, rest);
      assert [ranges[0]] + rest == ranges;
    }
  }

  lemma {:induction false} RecordsSize(ranges: seq<Range>)
    ensures |RecordsBytes(ranges)| >= 4 * |ranges|
  {
    if ranges != [] {
      RecordsSize(ranges[1..]);
    }
  }

  /** Every list of at most 65,535 well-formed ranges survives the wire unchanged. */
  lemma ControlRoundTrip(kind: byte, ranges: seq<Range>)
    requires WellFormed(ranges)
    ensures ControlBytes(kind, ranges).Ok? <==> |ranges| <= 0xffff
    ensures |ranges| <= 0xffff ==> ReadControl(ControlBytes(kind, ranges).value) == Ok(ranges)
  {
    if |ranges| <= 0xffff {
      var buf := ControlBytes(kind, ranges).value;
      assert buf[1..3] == U16Big(|ranges|);
      ReadBack16(buf, 1, |ranges|);
      assert buf[3..] == RecordsBytes(ranges);
      RecordsReadBack(buf, 3, ranges);
      RecordsSize(ranges);
    }
  }
}
