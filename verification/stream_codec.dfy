/**
 * The stream batch format (internal/tun/stream.go): a two-byte magic followed by
 * records of a big-endian 16-bit length and that many packet bytes.
 */
module StreamCodec {
  import opened Common

  const STREAM_BATCH_MAX: nat := 128 * 1024
  const STREAM_MAGIC: Bytes := [0x54, 0x50]

  /** A packet the TUN reader may queue: non-empty and at most 65535 bytes. */
  predicate Admissible(packet: Packet) {
    1 <= |packet| <= 0xffff
  }

  function Record(packet: Packet): (r: Bytes)
    requires |packet| <= 0xffff
    ensures |r| == 2 + |packet|
  {
    [(|packet| / 256) as byte, (|packet| % 256) as byte] + packet
  }

  function ReadLength(b: Bytes): nat
    requires |b| >= 2
  {
    b[0] as nat * 256 + b[1] as nat
  }

  /** Appending leaves the batch alone (None) when the packet does not fit. */
  function AppendPacket(batch: Bytes, packet: Packet): Option<Bytes> {
    if |packet| > 0xffff || |batch| + 2 + |packet| > STREAM_BATCH_MAX then None
    else Some(batch + Record(packet))
  }

  predicate IsStreamBatch(payload: Bytes) {
    |payload| >= 2 && payload[0] == STREAM_MAGIC[0] && payload[1] == STREAM_MAGIC[1]
  }

  /** The records of a batch body, read front to back; None when malformed. */
  function ParseBody(body: Bytes): Option<seq<Packet>> {
    if |body| == 0 then Some([])
    else if |body| < 2 then None
    else
      var n := ReadLength(body);
      if n == 0 || n > |body| - 2 then None
      else
        match ParseBody(body[2 + n..])
        case None => None
        case Some(rest) => Some([body[2..2 + n]] + rest)
  }

  function Decode(payload: Bytes): Option<seq<Packet>> {
    if !IsStreamBatch(payload) then None
    else
      match ParseBody(payload[2..])
      case None => None
      case Some(packets) => if packets == [] then None else Some(packets)
  }

  /** What a receiver writes to its TUN device for one accepted payload. */
  function Unbatch(payload: Bytes): (packets: seq<Packet>) {
    match Decode(payload)
    case Some(packets) => packets
    case None => [payload]
  }

  /** The fold of AppendPacket over a packet list, starting from a batch. */
  function AppendAll(batch: Bytes, packets: seq<Packet>): Option<Bytes>
    decreases |packets|
  {
    if packets == [] then Some(batch)
    else
      match AppendPacket(batch, packets[0])
      case None => None
      case Some(next) => AppendAll(next, packets[1..])
  }

  // ---------------------------------------------------------------- codec laws

  lemma RecordReads(packet: Packet, rest: Bytes)
    requires Admissible(packet)
    ensures ReadLength(Record(packet) + rest) == |packet|
    ensures (Record(packet) + rest)[2..2 + |packet|] == packet
    ensures (Record(packet) + rest)[2 + |packet|..] == rest
  {
  }

  lemma ParseCons(packet: Packet, rest: Bytes)
    requires Admissible(packet) && ParseBody(rest).Some?
    ensures ParseBody(Record(packet) + rest) == Some([packet] + ParseBody(rest).value)
  {
    RecordReads(packet, rest);
  }

  /** A non-empty parseable body is its first record followed by a parseable tail. */
  lemma ParseSplit(body: Bytes) returns (packet: Packet, tail: Bytes)
    requires ParseBody(body).Some? && |body| > 0
    ensures Admissible(packet) && body == Record(packet) + tail && ParseBody(tail).Some?
    ensures ParseBody(body).value == [packet] + ParseBody(tail).value
  {
    var n := ReadLength(body);
    packet, tail := body[2..2 + n], body[2 + n..];
    assert Record(packet) == body[..2 + n];
  }

  /** Appending a record at the back appends its packet to the parse. */
  lemma {:induction false} ParseSnoc(body: Bytes, packet: Packet)
    requires ParseBody(body).Some? && Admissible(packet)
    ensures ParseBody(body + Record(packet)) == Some(ParseBody(body).value + [packet])
    decreases |body|
  {
    hide ReadLength;
    hide Record;
    if |body| == 0 {
      ParseCons(packet, []);
      assert body + Record(packet) == Record(packet) + [];
      var none: seq<Packet> := [];
      assert ParseBody(body).value == none && [packet] + none == none + [packet];
    } else {
      var first, tail := ParseSplit(body);
      ParseSnoc(tail, packet);
      ParseCons(first, tail + Record(packet));
      assert body + Record(packet) == Record(first) + (tail + Record(packet));
      assert [first] + (ParseBody(tail).value + [packet]) == ParseBody(body).value + [packet];
    }
  }

  /** A batch under construction: magic-prefixed, parseable and within bounds. */
  predicate OpenBatch(batch: Bytes) {
    IsStreamBatch(batch) && |batch| <= STREAM_BATCH_MAX && ParseBody(batch[2..]).Some?
  }

  lemma AppendKeepsBatch(batch: Bytes, packet: Packet)
    requires OpenBatch(batch) && Admissible(packet) && AppendPacket(batch, packet).Some?
    ensures var next := AppendPacket(batch, packet).value;
            OpenBatch(next) && |next| > |batch| &&
            ParseBody(next[2..]).value == ParseBody(batch[2..]).value + [packet]
  {
    var next := AppendPacket(batch, packet).value;
    assert next[2..] == batch[2..] + Record(packet);
    ParseSnoc(batch[2..], packet);
  }

  /** Absorbing one packet into a batch appends exactly that packet to what is delivered. */
  lemma UnbatchAppend(batch: Bytes, packet: Packet)
    requires OpenBatch(batch) && ParseBody(batch[2..]).value != []
    requires Admissible(packet) && AppendPacket(batch, packet).Some?
    ensures Unbatch(AppendPacket(batch, packet).value) == Unbatch(batch) + [packet]
  {
    AppendKeepsBatch(batch, packet);
  }

  /** The first packet of a batch always fits and is delivered alone. */
  lemma UnbatchFirst(packet: Packet)
    requires Admissible(packet)
    ensures AppendPacket(STREAM_MAGIC, packet).Some?
    ensures var batch := AppendPacket(STREAM_MAGIC, packet).value;
            OpenBatch(batch) && ParseBody(batch[2..]).value == [packet] && Unbatch(batch) == [packet]
  {
    assert STREAM_MAGIC[2..] == [];
    AppendKeepsBatch(STREAM_MAGIC, packet);
  }

  lemma {:induction false} ParseAppendAll(batch: Bytes, packets: seq<Packet>)
    requires OpenBatch(batch) && (forall p :: p in packets ==> Admissible(p))
    requires AppendAll(batch, packets).Some?
    ensures var out := AppendAll(batch, packets).value;
            OpenBatch(out) && ParseBody(out[2..]).value == ParseBody(batch[2..]).value + packets
    decreases |packets|
  {
    if packets != [] {
      AppendKeepsBatch(batch, packets[0]);
      var next := AppendPacket(batch, packets[0]).value;
      ParseAppendAll(next, packets[1..]);
      assert ParseBody(batch[2..]).value + packets
          == (ParseBody(batch[2..]).value + [packets[0]]) + packets[1..];
    }
  }

  /** Round trip: decoding the fold of appends returns the packets. */
  lemma RoundTrip(packets: seq<Packet>)
    requires packets != [] && (forall p :: p in packets ==> Admissible(p))
    requires AppendAll(STREAM_MAGIC, packets).Some?
    ensures Decode(AppendAll(STREAM_MAGIC, packets).value) == Some(packets)
  {
    assert STREAM_MAGIC[2..] == [];
    ParseAppendAll(STREAM_MAGIC, packets);
    assert [] + packets == packets;
  }

  lemma {:induction false} ReencodeFrom(prefix: Bytes, body: Bytes)
    requires ParseBody(body).Some? && |prefix| + |body| <= STREAM_BATCH_MAX
    ensures AppendAll(prefix, ParseBody(body).value) == Some(prefix + body)
    ensures forall p :: p in ParseBody(body).value ==> Admissible(p)
    decreases |body|
  {
    if |body| == 0 {
      assert prefix + body == prefix;
    } else {
      var n := ReadLength(body);
      var packet, tail := body[2..2 + n], body[2 + n..];
      assert Record(packet) == body[..2 + n];
      var next := prefix + Record(packet);
      assert AppendPacket(prefix, packet) == Some(next);
      assert next + tail == prefix + body;
      ReencodeFrom(next, tail);
      var packets := ParseBody(body).value;
      assert packets[0] == packet && packets[1..] == ParseBody(tail).value;
    }
  }

  /** Converse: an in-bound frame that decodes re-encodes to the identical bytes. */
  lemma DecodeInjective(payload: Bytes)
    requires |payload| <= STREAM_BATCH_MAX && Decode(payload).Some?
    ensures AppendAll(STREAM_MAGIC, Decode(payload).value) == Some(payload)
    ensures forall p :: p in Decode(payload).value ==> Admissible(p)
  {
    ReencodeFrom(payload[..2], payload[2..]);
    assert payload[..2] + payload[2..] == payload;
    assert payload[..2] == STREAM_MAGIC;
  }

  /** The wire format, told without decoding: each packet behind its length in two bytes, high byte first. */
  function Flat(packets: seq<Packet>): Bytes {
    if packets == [] then []
    else
      var n := |packets[0]| % 0x1_0000;
      [(n / 256) as byte, (n % 256) as byte] + packets[0] + Flat(packets[1..])
  }

  ghost predicate AllCarried(packets: seq<Packet>) {
    forall p :: p in packets ==> 1 <= |p| <= 65535
  }

  lemma FlatCons(packet: Packet, rest: seq<Packet>)
    requires 1 <= |packet| <= 65535
    ensures Flat([packet] + rest) == Record(packet) + Flat(rest)
    ensures AllCarried([packet] + rest) <==> AllCarried(rest)
  {
    assert ([packet] + rest)[1..] == rest;
    assert forall p :: p in rest ==> p in [packet] + rest;
  }

  lemma {:induction false} FlatParses(packets: seq<Packet>)
    requires AllCarried(packets)
    ensures ParseBody(Flat(packets)) == Some(packets)
  {
    if packets != [] {
      hide ParseBody, Flat, Record;
      var first, rest := packets[0], packets[1..];
      assert packets == [first] + rest;
      FlatCons(first, rest);
      FlatParses(rest);
      ParseCons(first, Flat(rest));
    }
  }

  lemma {:induction false} ParsesFlat(body: Bytes)
    requires ParseBody(body).Some?
    ensures AllCarried(ParseBody(body).value) && body == Flat(ParseBody(body).value)
    decreases |body|
  {
    if body != [] {
      hide ParseBody, Flat, Record;
      var packet, tail := ParseSplit(body);
      ParsesFlat(tail);
      FlatCons(packet, ParseBody(tail).value);
    }
  }

  /** A payload decodes to these packets exactly when it is "TP" followed by them, one or more, in the wire format. */
  lemma DecodesExactly(payload: Bytes, packets: seq<Packet>)
    ensures Decode(payload) == Some(packets) <==>
      packets != [] && AllCarried(packets) && payload == [0x54, 0x50] + Flat(packets)
  {
    hide ParseBody, Flat;
    if packets != [] && AllCarried(packets) && payload == [0x54, 0x50] + Flat(packets) {
      FlatParses(packets);
      assert payload[2..] == Flat(packets);
    }
    if Decode(payload) == Some(packets) {
      ParsesFlat(payload[2..]);
      assert payload == payload[..2] + payload[2..];
    }
  }

  // ------------------------------------------------------- the packet queue

  /** The port's buffered packet channel, seen by one consumer. */
  class PacketQueue {
    var items: seq<Packet>

    constructor (initial: seq<Packet>)
      ensures items == initial
    {
      items := initial;
    }

    method TryTake() returns (packet: Option<Packet>)
      modifies this
      ensures old(items) == [] ==> packet == None && items == []
      ensures old(items) != [] ==> packet == Some(old(items)[0]) && items == old(items)[1..]
    {
      if items == [] {
        packet := None;
      } else {
        packet, items := Some(items[0]), items[1..];
      }
    }
  }

  /** The queue held `taken`, then possibly an overflow packet, then what is left. */
  ghost predicate Drained(before: seq<Packet>, taken: seq<Packet>, overflow: Option<Packet>, after: seq<Packet>) {
    && before == taken + (if overflow.Some? then [overflow.value] else []) + after
    && (overflow.None? ==> after == [])
  }

  /** Absorbs queued packets in order until one does not fit or none is left. */
  method AppendStreamBatch(batch: Bytes, queue: PacketQueue) returns (out: Bytes, overflow: Option<Packet>)
    modifies queue
    ensures !IsStreamBatch(batch) ==> out == batch && overflow == None && queue.items == old(queue.items)
    ensures IsStreamBatch(batch) ==>
      exists taken :: AppendAll(batch, taken) == Some(out) && Drained(old(queue.items), taken, overflow, queue.items)
    ensures overflow.Some? ==> |overflow.value| > 0xffff || |out| + 2 + |overflow.value| > 128 * 1024
  {
    out, overflow := batch, None;
    if !IsStreamBatch(batch) {
      return;
    }
    ghost var taken: seq<Packet> := [];
    while true
      invariant AppendAll(batch, taken) == Some(out)
      invariant old(queue.items) == taken + queue.items
      invariant overflow == None
      decreases |queue.items|
    {
      var next := queue.TryTake();
      if next.None? {
        assert Drained(old(queue.items), taken, overflow, queue.items);
        return;
      }
      var packet := next.value;
      assert old(queue.items)[|taken|] == packet;
      var added := AppendPacket(out, packet);
      if added.None? {
        overflow := Some(packet);
        assert Drained(old(queue.items), taken, overflow, queue.items);
        return;
      }
      AppendAllSnoc(batch, taken, packet);
      out := added.value;
      taken := taken + [packet];
    }
  }

  lemma {:induction false} AppendAllSnoc(batch: Bytes, packets: seq<Packet>, packet: Packet)
    requires AppendAll(batch, packets).Some?
    ensures AppendAll(batch, packets + [packet]) == AppendPacket(AppendAll(batch, packets).value, packet)
    decreases |packets|
  {
    if packets == [] {
      assert ([packet])[1..] == [];
    } else {
      AppendAllSnoc(AppendPacket(batch, packets[0]).value, packets[1..], packet);
      assert (packets + [packet])[1..] == packets[1..] + [packet];
    }
  }

  /**
   * Starts a batch from one packet, then drains what is already queued. A first
   * packet that cannot start a batch is returned unframed.
   */
  method EncodeStreamBatch(first: Packet, queue: PacketQueue) returns (batch: Bytes, overflow: Option<Packet>)
    modifies queue
    ensures |first| > 0xffff ==> batch == first && overflow == None && queue.items == old(queue.items)
    ensures |first| <= 0xffff ==>
      exists taken ::
        && AppendAll(STREAM_MAGIC, [first] + taken) == Some(batch)
        && Drained(old(queue.items), taken, overflow, queue.items)
    ensures overflow.Some? ==> |overflow.value| > 0xffff || |batch| + 2 + |overflow.value| > 128 * 1024
    ensures Admissible(first) && (forall p :: p in old(queue.items) ==> Admissible(p)) ==>
      OpenBatch(batch) && Drained(old([first] + queue.items), Unbatch(batch), overflow, queue.items)
  {
    var start := AppendPacket(STREAM_MAGIC, first);
    if start.None? {
      return first, None;
    }
    batch, overflow := AppendStreamBatch(start.value, queue);
    ghost var taken :| AppendAll(start.value, taken) == Some(batch)
      && Drained(old(queue.items), taken, overflow, queue.items);
    assert ([first] + taken)[1..] == taken;
    assert AppendAll(STREAM_MAGIC, [first] + taken) == Some(batch);
    if Admissible(first) && (forall p :: p in old(queue.items) ==> Admissible(p)) {
      EncodedInOrder(first, old(queue.items), taken, batch, overflow, queue.items);
    }
  }

  lemma EncodedInOrder(first: Packet, before: seq<Packet>, taken: seq<Packet>, batch: Bytes, overflow: Option<Packet>,
                       after: seq<Packet>)
    requires Admissible(first) && (forall p :: p in before ==> Admissible(p))
    requires AppendAll(STREAM_MAGIC, [first] + taken) == Some(batch) && Drained(before, taken, overflow, after)
    ensures OpenBatch(batch) && Drained([first] + before, Unbatch(batch), overflow, after)
  {
    hide ReadLength, Record, Decode;
    var packets := [first] + taken;
    forall p | p in packets ensures Admissible(p) {
      if p != first {
        var i :| 0 <= i < |taken| && taken[i] == p;
        assert before[i] == p;
      }
    }
    RoundTrip(packets);
    assert STREAM_MAGIC[2..] == [];
    ParseAppendAll(STREAM_MAGIC, packets);
    var extra := if overflow.Some? then [overflow.value] else [];
    assert [first] + (taken + extra + after) == packets + extra + after;
  }

  /** The packets read so far, and what is left to read from `offset` on, make up the whole body. */
  ghost predicate ReadUpTo(payload: Bytes, packets: seq<Packet>, offset: nat)
    requires 2 <= offset <= |payload|
  {
    match ParseBody(payload[offset..])
    case None => ParseBody(payload[2..]).None?
    case Some(rest) => ParseBody(payload[2..]) == Some(packets + rest)
  }

  /** One record: a malformed one makes the body so, a good one is read. */
  lemma ReadNext(payload: Bytes, packets: seq<Packet>, offset: nat)
    requires 2 <= offset < |payload| && ReadUpTo(payload, packets, offset)
    ensures |payload| - offset < 2 ==> ParseBody(payload[2..]).None?
    ensures |payload| - offset >= 2 ==>
      var n := ReadLength(payload[offset..]);
      if n == 0 || n > |payload| - (offset + 2) then ParseBody(payload[2..]).None?
      else ReadUpTo(payload, packets + [payload[offset + 2..offset + 2 + n]], offset + 2 + n)
  {
    hide ReadLength;
    var rest := payload[offset..];
    if |rest| >= 2 {
      var n := ReadLength(rest);
      if 0 < n <= |rest| - 2 {
        assert rest[2 + n..] == payload[offset + 2 + n..];
        var packet := payload[offset + 2..offset + 2 + n];
        assert rest[2..2 + n] == packet;
        if ParseBody(rest).Some? {
          var later := ParseBody(rest[2 + n..]).value;
          assert packets + ([packet] + later) == (packets + [packet]) + later;
        }
      }
    }
  }

  lemma ReadNothing(payload: Bytes)
    requires |payload| >= 2
    ensures ReadUpTo(payload, [], 2)
  {
    hide ReadLength;
    if ParseBody(payload[2..]).Some? {
      assert [] + ParseBody(payload[2..]).value == ParseBody(payload[2..]).value;
    }
  }

  lemma ReadAll(payload: Bytes, packets: seq<Packet>)
    requires |payload| >= 2 && ReadUpTo(payload, packets, |payload|)
    ensures ParseBody(payload[2..]) == Some(packets)
  {
    hide ReadLength;
    assert packets + [] == packets;
  }

  method DecodeStreamBatch(payload: Bytes) returns (packets: seq<Packet>, ok: bool)
    ensures ok == Decode(payload).Some?
    ensures ok ==> packets == Decode(payload).value
  {
    hide ParseBody, ReadUpTo, ReadLength;
    packets := [];
    if !IsStreamBatch(payload) {
      return packets, false;
    }
    ReadNothing(payload);
    var offset := 2;
    while offset < |payload|
      invariant 2 <= offset <= |payload|
      invariant ReadUpTo(payload, packets, offset)
    {
      ReadNext(payload, packets, offset);
      if |payload| - offset < 2 {
        return packets, false;
      }
      var length := ReadLength(payload[offset..]);
      if length == 0 || length > |payload| - (offset + 2) {
        return packets, false;
      }
      packets := packets + [payload[offset + 2..offset + 2 + length]];
      offset := offset + 2 + length;
    }
    ReadAll(payload, packets);
    ok := |packets| > 0;
  }
}
