/**
 * The Relay batch format (internal/tun/batch.go): a five-byte magic followed by
 * records of a big-endian 32-bit length and that many packet bytes.
 */
module RelayCodec {
  import opened Common

  const TUN_BATCH_MAX: nat := 128 * 1024
  const TUN_MAGIC: Bytes := [0x54, 0x54, 0x55, 0x4e, 0x01]
  const MAX_PACKET: nat := 65535

  /** The packets appendTunBatch accepts at all. */
  predicate Carried(packet: Packet) {
    1 <= |packet| <= MAX_PACKET
  }

  function Record(packet: Packet): (r: Bytes)
    requires |packet| <= MAX_PACKET
    ensures |r| == 4 + |packet|
  {
    [0, 0, (|packet| / 256) as byte, (|packet| % 256) as byte] + packet
  }

  function ReadLength(b: Bytes): nat
    requires |b| >= 4
  {
    ((b[0] as nat * 256 + b[1] as nat) * 256 + b[2] as nat) * 256 + b[3] as nat
  }

  /** None is the refusal, which leaves the destination as it was. */
  function AppendBatch(dst: Bytes, packet: Packet): Option<Bytes> {
    if !Carried(packet) then None
    else
      var start := if |dst| == 0 then TUN_MAGIC else dst;
      if |start| + 4 + |packet| > TUN_BATCH_MAX then None else Some(start + Record(packet))
  }

  predicate Framed(frame: Bytes) {
    TUN_MAGIC <= frame
  }

  /** Packets handed to the sink before the first malformed record, and whether there was none. */
  datatype Parsed = Parsed(packets: seq<Packet>, clean: bool)

  function ParseRecords(body: Bytes, maxPacketBytes: int): Parsed {
    if |body| == 0 then Parsed([], true)
    else if |body| < 4 then Parsed([], false)
    else
      var n := ReadLength(body);
      if n <= 0 || n > maxPacketBytes || n > |body| - 4 then Parsed([], false)
      else
        var rest := ParseRecords(body[4 + n..], maxPacketBytes);
        Parsed([body[4..4 + n]] + rest.packets, rest.clean)
  }

  function Decode(frame: Bytes, maxPacketBytes: int): Parsed {
    if !Framed(frame) then
      if |frame| == 0 || |frame| > maxPacketBytes then Parsed([], false) else Parsed([frame], true)
    else
      var parsed := ParseRecords(frame[|TUN_MAGIC|..], maxPacketBytes);
      Parsed(parsed.packets, parsed.clean && parsed.packets != [])
  }

  function AppendAll(dst: Bytes, packets: seq<Packet>): Option<Bytes>
    decreases |packets|
  {
    if packets == [] then Some(dst)
    else
      match AppendBatch(dst, packets[0])
      case None => None
      case Some(next) => AppendAll(next, packets[1..])
  }

  // ---------------------------------------------------------------- codec laws

  lemma RecordReads(packet: Packet, rest: Bytes)
    requires Carried(packet)
    ensures ReadLength(Record(packet) + rest) == |packet|
    ensures (Record(packet) + rest)[4..4 + |packet|] == packet
    ensures (Record(packet) + rest)[4 + |packet|..] == rest
  {
  }

  lemma ParseCons(packet: Packet, rest: Bytes, maxPacketBytes: int)
    requires Carried(packet) && |packet| <= maxPacketBytes
    ensures var tail := ParseRecords(rest, maxPacketBytes);
            ParseRecords(Record(packet) + rest, maxPacketBytes) == Parsed([packet] + tail.packets, tail.clean)
  {
    RecordReads(packet, rest);
  }

  /** A clean, non-empty body starts with one whole record. */
  lemma ParseSplit(body: Bytes, maxPacketBytes: int) returns (packet: Packet, tail: Bytes)
    requires ParseRecords(body, maxPacketBytes).clean && |body| > 0 && maxPacketBytes <= MAX_PACKET
    ensures Carried(packet) && |packet| <= maxPacketBytes && body == Record(packet) + tail
    ensures ParseRecords(tail, maxPacketBytes).clean
    ensures ParseRecords(body, maxPacketBytes).packets == [packet] + ParseRecords(tail, maxPacketBytes).packets
  {
    var n := ReadLength(body);
    packet, tail := body[4..4 + n], body[4 + n..];
    assert Record(packet) == body[..4 + n];
  }

  lemma {:induction false} ParseSnoc(body: Bytes, packet: Packet, maxPacketBytes: int)
    requires ParseRecords(body, maxPacketBytes).clean && Carried(packet)
    requires |packet| <= maxPacketBytes <= MAX_PACKET
    ensures ParseRecords(body + Record(packet), maxPacketBytes)
         == Parsed(ParseRecords(body, maxPacketBytes).packets + [packet], true)
    decreases |body|
  {
    hide ReadLength;
    hide Record;
    var parsed := ParseRecords(body, maxPacketBytes);
    if |body| == 0 {
      ParseCons(packet, [], maxPacketBytes);
      assert body + Record(packet) == Record(packet) + [];
      assert parsed == Parsed([], true) && [packet] + [] == parsed.packets + [packet];
    } else {
      var first, tail := ParseSplit(body, maxPacketBytes);
      ParseSnoc(tail, packet, maxPacketBytes);
      ParseCons(first, tail + Record(packet), maxPacketBytes);
      assert body + Record(packet) == Record(first) + (tail + Record(packet));
      assert [first] + (ParseRecords(tail, maxPacketBytes).packets + [packet]) == parsed.packets + [packet];
    }
  }

  /** A batch being collected: either not started, or framed, within bounds and clean. */
  predicate OpenBatch(batch: Bytes, maxPacketBytes: int) {
    |batch| <= TUN_BATCH_MAX &&
    (batch == [] || (Framed(batch) && ParseRecords(batch[|TUN_MAGIC|..], maxPacketBytes).clean))
  }

  function PacketsOf(batch: Bytes, maxPacketBytes: int): seq<Packet> {
    if batch == [] then [] else Decode(batch, maxPacketBytes).packets
  }

  lemma AppendKeepsBatch(batch: Bytes, packet: Packet, maxPacketBytes: int)
    requires OpenBatch(batch, maxPacketBytes) && AppendBatch(batch, packet).Some?
    requires |packet| <= maxPacketBytes <= MAX_PACKET
    ensures var next := AppendBatch(batch, packet).value;
            && OpenBatch(next, maxPacketBytes) && |next| >= |batch| + 5
            && Decode(next, maxPacketBytes) == Parsed(PacketsOf(batch, maxPacketBytes) + [packet], true)
            && PacketsOf(next, maxPacketBytes) == PacketsOf(batch, maxPacketBytes) + [packet]
  {
    hide ReadLength;
    hide Record;
    var start := if |batch| == 0 then TUN_MAGIC else batch;
    var next := AppendBatch(batch, packet).value;
    ParseSnoc(start[|TUN_MAGIC|..], packet, maxPacketBytes);
    assert next[|TUN_MAGIC|..] == start[|TUN_MAGIC|..] + Record(packet);
    assert next[..|TUN_MAGIC|] == TUN_MAGIC;
    if batch == [] {
      assert start[|TUN_MAGIC|..] == [];
    }
  }

  lemma SplitFirst(before: seq<Packet>, packets: seq<Packet>)
    requires packets != []
    ensures before + packets == (before + [packets[0]]) + packets[1..]
  {
  }

  lemma {:induction false} DecodeAppendAll(batch: Bytes, packets: seq<Packet>, maxPacketBytes: int)
    requires OpenBatch(batch, maxPacketBytes) && maxPacketBytes <= MAX_PACKET && packets != []
    requires forall p :: p in packets ==> |p| <= maxPacketBytes
    requires AppendAll(batch, packets).Some?
    ensures Decode(AppendAll(batch, packets).value, maxPacketBytes)
         == Parsed(PacketsOf(batch, maxPacketBytes) + packets, true)
    decreases |packets|
  {
    hide Decode, OpenBatch, PacketsOf, AppendBatch;
    AppendKeepsBatch(batch, packets[0], maxPacketBytes);
    var next := AppendBatch(batch, packets[0]).value;
    if |packets| == 1 {
      assert AppendAll(next, packets[1..]) == Some(next);
      assert packets == [packets[0]];
    } else {
      DecodeAppendAll(next, packets[1..], maxPacketBytes);
      SplitFirst(PacketsOf(batch, maxPacketBytes), packets);
    }
  }

  /** Round trip: a receiver whose limit covers the packets gets exactly those packets. */
  lemma RoundTrip(packets: seq<Packet>, maxPacketBytes: int)
    requires maxPacketBytes <= MAX_PACKET && packets != []
    requires forall p :: p in packets ==> |p| <= maxPacketBytes
    requires AppendAll([], packets).Some?
    ensures Decode(AppendAll([], packets).value, maxPacketBytes) == Parsed(packets, true)
  {
    DecodeAppendAll([], packets, maxPacketBytes);
  }

  lemma AppendNext(dst: Bytes, packet: Packet, rest: seq<Packet>)
    requires |dst| > 0 && Carried(packet) && |dst| + 4 + |packet| <= TUN_BATCH_MAX
    ensures AppendAll(dst, [packet] + rest) == AppendAll(dst + Record(packet), rest)
  {
    hide Record;
    assert ([packet] + rest)[1..] == rest;
  }

  lemma ReencodeNothing(prefix: Bytes, body: Bytes, maxPacketBytes: int)
    requires |body| == 0
    ensures AppendAll(prefix, ParseRecords(body, maxPacketBytes).packets) == Some(prefix + body)
  {
    assert prefix + body == prefix;
  }

  lemma Regroup(a: Bytes, b: Bytes, c: Bytes)
    ensures (a + b) + c == a + (b + c)
  {
  }

  lemma {:induction false} ReencodeFrom(prefix: Bytes, body: Bytes, maxPacketBytes: int)
    requires maxPacketBytes <= MAX_PACKET && ParseRecords(body, maxPacketBytes).clean
    requires |prefix| > 0 && |prefix| + |body| <= TUN_BATCH_MAX
    ensures AppendAll(prefix, ParseRecords(body, maxPacketBytes).packets) == Some(prefix + body)
    decreases |body|
  {
    hide ReadLength, Record, ParseRecords, AppendAll;
    if |body| == 0 {
      ReencodeNothing(prefix, body, maxPacketBytes);
    } else {
      var packet, tail := ParseSplit(body, maxPacketBytes);
      ReencodeFrom(prefix + Record(packet), tail, maxPacketBytes);
      AppendNext(prefix, packet, ParseRecords(tail, maxPacketBytes).packets);
      Regroup(prefix, Record(packet), tail);
    }
  }

  /** Converse: an in-bound framed batch that decodes cleanly re-encodes to the identical bytes. */
  lemma DecodeInjective(frame: Bytes, maxPacketBytes: int)
    requires Framed(frame) && |frame| <= TUN_BATCH_MAX && maxPacketBytes <= MAX_PACKET
    requires Decode(frame, maxPacketBytes).clean
    ensures AppendAll([], Decode(frame, maxPacketBytes).packets) == Some(frame)
  {
    var body := frame[|TUN_MAGIC|..];
    ReencodeFrom(TUN_MAGIC, body, maxPacketBytes);
    assert TUN_MAGIC + body == frame;
    var packet, tail := ParseSplit(body, maxPacketBytes);
    var packets := ParseRecords(body, maxPacketBytes).packets;
    assert packets[0] == packet && AppendBatch([], packet) == AppendBatch(TUN_MAGIC, packet);
  }

  /** The wire format, told without decoding: each packet behind its length in four bytes, high byte first. */
  function Flat(packets: seq<Packet>): Bytes {
    if packets == [] then []
    else
      var n := |packets[0]| % 0x1_0000;
      [0, 0, (n / 256) as byte, (n % 256) as byte] + packets[0] + Flat(packets[1..])
  }

  ghost predicate AllCarried(packets: seq<Packet>, maxPacketBytes: int) {
    forall p :: p in packets ==> 1 <= |p| <= maxPacketBytes
  }

  lemma FlatCons(packet: Packet, rest: seq<Packet>, maxPacketBytes: int)
    requires 1 <= |packet| <= maxPacketBytes <= 65535
    ensures Flat([packet] + rest) == Record(packet) + Flat(rest)
    ensures AllCarried([packet] + rest, maxPacketBytes) <==> AllCarried(rest, maxPacketBytes)
  {
    assert ([packet] + rest)[1..] == rest;
    assert forall p :: p in rest ==> p in [packet] + rest;
  }

  lemma {:induction false} FlatParses(packets: seq<Packet>, maxPacketBytes: int)
    requires AllCarried(packets, maxPacketBytes) && maxPacketBytes <= 65535
    ensures ParseRecords(Flat(packets), maxPacketBytes) == Parsed(packets, true)
  {
    if packets != [] {
      hide ParseRecords, Flat, Record;
      var first, rest := packets[0], packets[1..];
      assert packets == [first] + rest;
      FlatCons(first, rest, maxPacketBytes);
      FlatParses(rest, maxPacketBytes);
      ParseCons(first, Flat(rest), maxPacketBytes);
    }
  }

  lemma {:induction false} ParsesFlat(body: Bytes, maxPacketBytes: int)
    requires ParseRecords(body, maxPacketBytes).clean && maxPacketBytes <= 65535
    ensures var packets := ParseRecords(body, maxPacketBytes).packets;
            AllCarried(packets, maxPacketBytes) && body == Flat(packets)
    decreases |body|
  {
    if body != [] {
      hide ParseRecords, Flat, Record;
      var packet, tail := ParseSplit(body, maxPacketBytes);
      ParsesFlat(tail, maxPacketBytes);
      FlatCons(packet, ParseRecords(tail, maxPacketBytes).packets, maxPacketBytes);
    }
  }

  /**
   * A framed payload decodes cleanly to these packets exactly when it is "TTUN", 1, followed by them, one
   * or more, in the wire format; anything else within the limit is one packet, itself.
   */
  lemma DecodesExactly(frame: Bytes, packets: seq<Packet>, maxPacketBytes: int)
    requires maxPacketBytes <= 65535
    ensures Decode(frame, maxPacketBytes) == Parsed(packets, true) <==>
      if [0x54, 0x54, 0x55, 0x4e, 1] <= frame
      then packets != [] && AllCarried(packets, maxPacketBytes) && frame == [0x54, 0x54, 0x55, 0x4e, 1] + Flat(packets)
      else packets == [frame] && 1 <= |frame| <= maxPacketBytes
  {
    hide ParseRecords, Flat;
    if packets != [] && AllCarried(packets, maxPacketBytes) && frame == [0x54, 0x54, 0x55, 0x4e, 1] + Flat(packets) {
      FlatParses(packets, maxPacketBytes);
      assert frame[5..] == Flat(packets);
    }
    if Framed(frame) && Decode(frame, maxPacketBytes) == Parsed(packets, true) {
      ParsesFlat(frame[5..], maxPacketBytes);
      assert frame == frame[..5] + frame[5..];
    }
  }

  // ------------------------------------------------------------ the decoder

  /** A TUN device that accepts `room` more packets and then fails. */
  class PacketSink {
    var written: seq<Packet>
    var room: nat

    constructor (capacity: nat)
      ensures written == [] && room == capacity
    {
      written, room := [], capacity;
    }

    method Write(packet: Packet) returns (ok: bool)
      modifies this
      ensures ok == (old(room) > 0)
      ensures ok ==> written == old(written) + [packet] && room == old(room) - 1
      ensures !ok ==> written == old(written) && room == old(room)
    {
      ok := room > 0;
      if ok {
        written, room := written + [packet], room - 1;
      }
    }
  }

  /** One record of a frame, read at a position. */
  lemma ParseStep(frame: Bytes, pos: nat, maxPacketBytes: int)
    requires pos <= |frame|
    ensures var rest := ParseRecords(frame[pos..], maxPacketBytes);
            if pos == |frame| then rest == Parsed([], true)
            else if |frame| - pos < 4 then rest == Parsed([], false)
            else
              var n := ReadLength(frame[pos..]);
              if n <= 0 || n > maxPacketBytes || n > |frame| - pos - 4 then rest == Parsed([], false)
              else
                var tail := ParseRecords(frame[pos + 4 + n..], maxPacketBytes);
                rest == Parsed([frame[pos + 4..pos + 4 + n]] + tail.packets, tail.clean)
  {
    hide ReadLength;
    if |frame| - pos >= 4 {
      var n := ReadLength(frame[pos..]);
      if 0 < n <= |frame| - pos - 4 {
        assert frame[pos..][4 + n..] == frame[pos + 4 + n..];
        assert frame[pos..][4..4 + n] == frame[pos + 4..pos + 4 + n];
      }
    }
  }

  datatype DecodeError = InvalidUnframed | TruncatedLength | InvalidLength(length: nat) | WriteFailed | EmptyBatch

  function Min(a: nat, b: nat): nat {
    if a < b then a else b
  }

  /** What a sink with `room` left got of the parsed packets, and what is reported. */
  ghost predicate Handed(parsed: Parsed, written: seq<Packet>, room: nat, after: seq<Packet>, left: nat,
                         err: Option<DecodeError>) {
    var done := Min(|parsed.packets|, room);
    && after == written + parsed.packets[..done]
    && left == room - done
    && (err.None? <==> parsed.clean && |parsed.packets| <= room)
    && (err == Some(WriteFailed) <==> room < |parsed.packets|)
  }

  /** All packets before `rest` were handed over, and there is room for no more than `rest`. */
  lemma HandedAll(packets: seq<Packet>, clean: bool, written: seq<Packet>, room: nat, err: Option<DecodeError>)
    requires |packets| <= room && (err.None? <==> clean) && err != Some(WriteFailed)
    ensures Handed(Parsed(packets, clean), written, room, written + packets, room - |packets|, err)
  {
    assert packets[..|packets|] == packets;
  }

  lemma HandedSome(packets: seq<Packet>, clean: bool, done: seq<Packet>, written: seq<Packet>)
    requires done <= packets && |done| < |packets|
    ensures Handed(Parsed(packets, clean), written, |done|, written + done, 0, Some(WriteFailed))
  {
    assert packets[..|done|] == done;
  }

  /** The packets from a position on, after those already handed over. */
  ghost predicate Ahead(all: Parsed, done: seq<Packet>, frame: Bytes, pos: nat, maxPacketBytes: int)
    requires pos <= |frame|
  {
    var rest := ParseRecords(frame[pos..], maxPacketBytes);
    all.packets == done + rest.packets && all.clean == rest.clean
  }

  /** One record: a malformed one ends the parse, a good one comes next. */
  lemma OneRecord(all: Parsed, done: seq<Packet>, frame: Bytes, pos: nat, maxPacketBytes: int)
    requires pos <= |frame| && Ahead(all, done, frame, pos, maxPacketBytes)
    ensures pos == |frame| ==> all == Parsed(done, true)
    ensures 0 < |frame| - pos < 4 ==> all == Parsed(done, false)
    ensures |frame| - pos >= 4 ==>
      var n := ReadLength(frame[pos..]);
      if n <= 0 || n > maxPacketBytes || n > |frame| - pos - 4 then all == Parsed(done, false)
      else
        var packet := frame[pos + 4..pos + 4 + n];
        done + [packet] <= all.packets && Ahead(all, done + [packet], frame, pos + 4 + n, maxPacketBytes)
  {
    ParseStep(frame, pos, maxPacketBytes);
    hide ReadLength, ParseRecords;
    if |frame| - pos >= 4 {
      var n := ReadLength(frame[pos..]);
      if 0 < n <= |frame| - pos - 4 && n <= maxPacketBytes {
        var packet, tail := frame[pos + 4..pos + 4 + n], ParseRecords(frame[pos + 4 + n..], maxPacketBytes);
        assert done + ([packet] + tail.packets) == (done + [packet]) + tail.packets;
      }
    }
  }

  /** The record at a position: a packet and where the next record starts, or why there is none. */
  datatype RecordRead = Good(packet: Packet, next: nat) | Bad(err: DecodeError)

  /** Reads one record; `done` are the packets before it and `all` those of the whole frame. */
  method ReadRecord(frame: Bytes, from: nat, maxPacketBytes: int, ghost all: Parsed, ghost done: seq<Packet>)
    returns (record: RecordRead)
    requires from < |frame| && Ahead(all, done, frame, from, maxPacketBytes)
    ensures record.Bad? ==> all == Parsed(done, false)
    ensures record.Bad? ==>
      record.err == if |frame| - from < 4 then TruncatedLength else InvalidLength(ReadLength(frame[from..]))
    ensures record.Good? ==>
      && from < record.next <= |frame|
      && done + [record.packet] <= all.packets
      && Ahead(all, done + [record.packet], frame, record.next, maxPacketBytes)
  {
    hide ReadLength, ParseRecords, Ahead;
    OneRecord(all, done, frame, from, maxPacketBytes);
    if |frame| - from < 4 {
      return Bad(TruncatedLength);
    }
    var pos, length := from + 4, ReadLength(frame[from..]);
    if length <= 0 || length > maxPacketBytes || length > |frame| - pos {
      return Bad(InvalidLength(length));
    }
    return Good(frame[pos..pos + length], pos + length);
  }

  lemma StartAhead(frame: Bytes, maxPacketBytes: int)
    requires Framed(frame)
    ensures var all := ParseRecords(frame[|TUN_MAGIC|..], maxPacketBytes);
            && Decode(frame, maxPacketBytes) == Parsed(all.packets, all.clean && all.packets != [])
            && Ahead(all, [], frame, |TUN_MAGIC|, maxPacketBytes)
  {
  }

  /** The records of a framed batch, read front to back. */
  method DecodeRecords(frame: Bytes, maxPacketBytes: int, sink: PacketSink) returns (err: Option<DecodeError>)
    requires Framed(frame)
    modifies sink
    ensures Handed(Decode(frame, maxPacketBytes), old(sink.written), old(sink.room), sink.written, sink.room, err)
    ensures err == Some(EmptyBatch) <==> |frame| == 5
    ensures err != Some(InvalidUnframed)
  {
    hide ReadLength, ParseRecords, Handed, Decode, Ahead;
    StartAhead(frame, maxPacketBytes);
    ghost var all := ParseRecords(frame[|TUN_MAGIC|..], maxPacketBytes);
    hide Framed;
    var pos, count := |TUN_MAGIC|, 0;
    ghost var done: seq<Packet> := [];
    while pos < |frame|
      invariant 0 <= pos <= |frame|
      invariant count == |done| <= old(sink.room) && (count == 0 <==> pos == |TUN_MAGIC|)
      invariant Ahead(all, done, frame, pos, maxPacketBytes)
      invariant sink.written == old(sink.written) + done
      invariant sink.room == old(sink.room) - count
    {
      var record := ReadRecord(frame, pos, maxPacketBytes, all, done);
      if record.Bad? {
        err := Some(record.err);
        HandedAll(done, false, old(sink.written), old(sink.room), err);
        return;
      }
      var ok := sink.Write(record.packet);
      if !ok {
        HandedSome(all.packets, all.clean && all.packets != [], done, old(sink.written));
        return Some(WriteFailed);
      }
      done := done + [record.packet];
      pos, count := record.next, count + 1;
    }
    OneRecord(all, done, frame, pos, maxPacketBytes);
    err := if count == 0 then Some(EmptyBatch) else None;
    HandedAll(done, count != 0, old(sink.written), old(sink.room), err);
  }

  /** Hands every packet before the first malformed record to the sink, stopping at a failed write. */
  method DecodeTunBatch(frame: Bytes, maxPacketBytes: int, sink: PacketSink) returns (err: Option<DecodeError>)
    modifies sink
    ensures Handed(Decode(frame, maxPacketBytes), old(sink.written), old(sink.room), sink.written, sink.room, err)
    ensures err == Some(InvalidUnframed) <==>
      !([0x54, 0x54, 0x55, 0x4e, 1] <= frame) && (|frame| == 0 || |frame| > maxPacketBytes)
    ensures err == Some(EmptyBatch) <==> frame == [0x54, 0x54, 0x55, 0x4e, 1]
  {
    hide ReadLength, ParseRecords;
    if |frame| < |TUN_MAGIC| || frame[..|TUN_MAGIC|] != TUN_MAGIC {
      if |frame| == 0 || |frame| > maxPacketBytes {
        return Some(InvalidUnframed);
      }
      var ok := sink.Write(frame);
      return if ok then None else Some(WriteFailed);
    }
    err := DecodeRecords(frame, maxPacketBytes, sink);
  }
}
