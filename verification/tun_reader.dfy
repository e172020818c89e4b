/** What the TUN reader admits (readTUNLoop in internal/tun/runtime.go) and why framing stays unambiguous. */
module TunReader {
  import opened Common
  import opened RouteTable
  import StreamCodec
  import RelayCodec

  /** The peer a packet read from the TUN device is sent to, if it is sent at all. */
  function Admitted(routes: seq<Route>, maxPacketBytes: nat, packet: Packet): Option<nat> {
    if |packet| == 0 || |packet| > maxPacketBytes then None
    else
      match RouteOf(routes, packet)
      case None => None
      case Some(r) => Some(r.peer)
  }

  /** Neither decoder takes a routable packet for a batch: a version nibble is 4 or 6, both magics start with 5. */
  lemma RoutableIsUnframed(packet: Packet)
    requires PacketDestination(packet).Some?
    ensures packet[0] / 16 == 4 || packet[0] / 16 == 6
    ensures !StreamCodec.IsStreamBatch(packet) && !RelayCodec.Framed(packet)
  {
  }

  /** A batch has no destination, so no batch can be routed as if it were a packet. */
  lemma BatchIsUnroutable(payload: Bytes)
    requires StreamCodec.IsStreamBatch(payload) || RelayCodec.Framed(payload)
    ensures PacketDestination(payload).None?
  {
  }

  /**
   * From TUN read to TUN write: an admitted packet arrives as itself, whether it travels raw or
   * at any place of a batch, over the stream and over the Relay.
   */
  lemma ArrivesAsItself(routes: seq<Route>, maxPacketBytes: nat, packets: seq<Packet>)
    requires maxPacketBytes <= RelayCodec.MAX_PACKET && packets != []
    requires forall p :: p in packets ==> Admitted(routes, maxPacketBytes, p).Some?
    ensures forall p :: p in packets ==> StreamCodec.Admissible(p) && RelayCodec.Carried(p)
    ensures forall p :: p in packets ==>
      StreamCodec.Unbatch(p) == [p] && RelayCodec.Decode(p, maxPacketBytes) == RelayCodec.Parsed([p], true)
    ensures var batch := StreamCodec.AppendAll(StreamCodec.STREAM_MAGIC, packets);
            batch.Some? ==> StreamCodec.Unbatch(batch.value) == packets
    ensures var batch := RelayCodec.AppendAll([], packets);
            batch.Some? ==> RelayCodec.Decode(batch.value, maxPacketBytes) == RelayCodec.Parsed(packets, true)
  {
    hide StreamCodec.AppendAll, RelayCodec.AppendAll, StreamCodec.ParseBody, RelayCodec.ParseRecords;
    forall p | p in packets
      ensures StreamCodec.Admissible(p) && RelayCodec.Carried(p)
      ensures StreamCodec.Unbatch(p) == [p] && RelayCodec.Decode(p, maxPacketBytes) == RelayCodec.Parsed([p], true)
    {
      RoutableIsUnframed(p);
    }
    if StreamCodec.AppendAll(StreamCodec.STREAM_MAGIC, packets).Some? {
      StreamCodec.RoundTrip(packets);
    }
    if RelayCodec.AppendAll([], packets).Some? {
      RelayCodec.RoundTrip(packets, maxPacketBytes);
    }
  }

  /** One packet read, with what the two queues of its peer would answer at that moment. */
  datatype Read = Read(packet: Packet, streamTakes: bool, relayTakes: bool)

  datatype Queued = ToStream(peer: nat, packet: Packet) | ToRelay(peer: nat, packet: Packet)

  function Queue(routes: seq<Route>, maxPacketBytes: nat, read: Read): Option<Queued> {
    match Admitted(routes, maxPacketBytes, read.packet)
    case None => None
    case Some(peer) =>
      if read.streamTakes then Some(ToStream(peer, read.packet))
      else if read.relayTakes then Some(ToRelay(peer, read.packet))
      else None
  }

  /** The packet can be sent to this peer: its size is allowed and a route gives it the peer. */
  predicate HasPeer(routes: seq<Route>, maxPacketBytes: nat, packet: Packet, peer: nat) {
    1 <= |packet| <= maxPacketBytes && RouteOf(routes, packet).Some? && RouteOf(routes, packet).value.peer == peer
  }

  /** Where it may be queued: on the stream whenever that takes it, on the Relay only when the stream does not. */
  predicate Goes(routes: seq<Route>, maxPacketBytes: nat, read: Read, queued: Queued) {
    && queued.packet == read.packet && HasPeer(routes, maxPacketBytes, read.packet, queued.peer)
    && (queued.ToStream? <==> read.streamTakes)
    && (queued.ToRelay? ==> read.relayTakes)
  }

  lemma QueueExactly(routes: seq<Route>, maxPacketBytes: nat, read: Read)
    ensures forall queued ::
      (Queue(routes, maxPacketBytes, read) == Some(queued)) <==> Goes(routes, maxPacketBytes, read, queued)
    ensures Queue(routes, maxPacketBytes, read).None? <==>
      || (forall peer :: !HasPeer(routes, maxPacketBytes, read.packet, peer))
      || (!read.streamTakes && !read.relayTakes)
  {
    hide RouteOf;
    if RouteOf(routes, read.packet).Some? && 1 <= |read.packet| <= maxPacketBytes {
      assert HasPeer(routes, maxPacketBytes, read.packet, RouteOf(routes, read.packet).value.peer);
    }
  }

  /** `out` holds, in order, what was queued for the packets at `from`, and every packet a queue would take is there. */
  ghost predicate QueuedInOrder(routes: seq<Route>, maxPacketBytes: nat, input: seq<Read>, out: seq<Queued>,
                                from: seq<nat>) {
    && |from| == |out|
    && (forall i :: 0 <= i < |from| ==> from[i] < |input| && Goes(routes, maxPacketBytes, input[from[i]], out[i]))
    && (forall i, j :: 0 <= i < j < |from| ==> from[i] < from[j])
    && (forall r, peer :: 0 <= r < |input| && HasPeer(routes, maxPacketBytes, input[r].packet, peer) ==>
          input[r].streamTakes || input[r].relayTakes ==> r in from)
  }

  lemma NextQueued(routes: seq<Route>, maxPacketBytes: nat, input: seq<Read>, out: seq<Queued>, from: seq<nat>, r: nat)
    requires r < |input| && QueuedInOrder(routes, maxPacketBytes, input[..r], out, from)
    ensures match Queue(routes, maxPacketBytes, input[r])
            case None => QueuedInOrder(routes, maxPacketBytes, input[..r + 1], out, from)
            case Some(queued) => QueuedInOrder(routes, maxPacketBytes, input[..r + 1], out + [queued], from + [r])
  {
    hide Queue, HasPeer, Goes;
    QueueExactly(routes, maxPacketBytes, input[r]);
    assert input[..r + 1] == input[..r] + [input[r]];
    assert forall q :: q in from ==> q in from + [r];
    assert (from + [r])[|from|] == r;
  }

  /** One packet read: the stream's queue first, then the Relay's, when its destination has a peer. */
  method QueueOne(table: Table, maxPacketBytes: nat, read: Read) returns (queued: Option<Queued>)
    ensures queued.Some? ==> Goes(table.routes, maxPacketBytes, read, queued.value)
    ensures queued.None? <==>
      || (forall peer :: !HasPeer(table.routes, maxPacketBytes, read.packet, peer))
      || (!read.streamTakes && !read.relayTakes)
    ensures queued == Queue(table.routes, maxPacketBytes, read)
  {
    hide RouteOf, PacketDestination, FirstMatch, HasPeer, Goes;
    QueueExactly(table.routes, maxPacketBytes, read);
    if |read.packet| == 0 || |read.packet| > maxPacketBytes {
      return None;
    }
    var peer := table.Lookup(read.packet);
    if peer.Some? {
      if read.streamTakes {
        return Some(ToStream(peer.value, read.packet));
      }
      if read.relayTakes {
        return Some(ToRelay(peer.value, read.packet));
      }
    }
    return None;
  }

  /**
   * Each packet is queued at most once, on the stream when it takes it and else on the Relay, and
   * the queues get the packets in reading order.
   */
  method ReadTunLoop(table: Table, maxPacketBytes: nat, input: seq<Read>) returns (out: seq<Queued>)
    ensures exists from: seq<nat> :: QueuedInOrder(table.routes, maxPacketBytes, input, out, from)
  {
    hide Queue, QueuedInOrder;
    out := [];
    ghost var from: seq<nat> := [];
    assert QueuedInOrder(table.routes, maxPacketBytes, input[..0], out, from) by {
      NothingQueued(table.routes, maxPacketBytes, input);
    }
    for r := 0 to |input|
      invariant QueuedInOrder(table.routes, maxPacketBytes, input[..r], out, from)
    {
      var queued := QueueOne(table, maxPacketBytes, input[r]);
      NextQueued(table.routes, maxPacketBytes, input, out, from, r);
      if queued.Some? {
        out, from := out + [queued.value], from + [r];
      }
    }
    assert input[..|input|] == input;
  }

  lemma NothingQueued(routes: seq<Route>, maxPacketBytes: nat, input: seq<Read>)
    ensures QueuedInOrder(routes, maxPacketBytes, input[..0], [], [])
  {
  }
}
