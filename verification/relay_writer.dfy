/** The Relay writer loop (internal/tun/runtime.go) over every sequence of select outcomes. */
module RelayWriter {
  import opened Common
  import opened RelayCodec

  /** What one `select` can observe: a queued packet, the batch timer, or the port's done channel. */
  datatype Event = Arrived(packet: Packet) | Elapsed | Closed

  /** A Relay connection that accepts `room` more frames and then fails. */
  class RelayConn {
    var sent: seq<Bytes>
    var room: nat

    constructor (capacity: nat)
      ensures sent == [] && room == capacity
    {
      sent, room := [], capacity;
    }

    method Send(frame: Bytes) returns (ok: bool)
      modifies this
      ensures ok == (old(room) > 0)
      ensures ok ==> sent == old(sent) + [frame] && room == old(room) - 1
      ensures !ok ==> sent == old(sent) && room == old(room)
    {
      ok := room > 0;
      if ok {
        sent, room := sent + [frame], room - 1;
      }
    }
  }

  /** The packets of a list that the Relay format can carry at all. */
  function Carriable(packets: seq<Packet>): seq<Packet> {
    if packets == [] then []
    else
      var last := packets[|packets| - 1];
      Carriable(packets[..|packets| - 1]) + (if Carried(last) then [last] else [])
  }

  function Held(pending: Option<Packet>): seq<Packet> {
    match pending
    case None => []
    case Some(packet) => if Carried(packet) then [packet] else []
  }

  /** Everything a receiver with the largest limit decodes from the frames, in order. */
  function Delivered(frames: seq<Bytes>): seq<Packet> {
    if frames == [] then []
    else Delivered(frames[..|frames| - 1]) + Decode(frames[|frames| - 1], MAX_PACKET).packets
  }

  ghost predicate GoodFrame(frame: Bytes) {
    Framed(frame) && |frame| <= TUN_BATCH_MAX && Decode(frame, MAX_PACKET).clean
  }

  /** The packets taken from the queue by a run that consumed `events`. */
  function Arrivals(events: seq<Event>): seq<Packet> {
    if events == [] then []
    else
      var last := events[|events| - 1];
      Arrivals(events[..|events| - 1]) + (if last.Arrived? then [last.packet] else [])
  }

  lemma ArrivalsNext(events: seq<Event>, used: nat)
    requires used < |events|
    ensures Arrivals(events[..used + 1])
         == (if events[used].Arrived? then Arrivals(events[..used]) + [events[used].packet]
             else Arrivals(events[..used]))
  {
    assert events[..used + 1][..used] == events[..used];
  }

  lemma CarriableSnoc(packets: seq<Packet>, packet: Packet)
    ensures Carriable(packets + [packet]) == Carriable(packets) + Held(Some(packet))
  {
    assert (packets + [packet])[..|packets|] == packets;
  }

  lemma DeliveredSnoc(frames: seq<Bytes>, frame: Bytes)
    ensures Delivered(frames + [frame]) == Delivered(frames) + Decode(frame, MAX_PACKET).packets
  {
    assert (frames + [frame])[..|frames|] == frames;
  }

  /** Sent batches, the batch in hand and the carry-over packet account for every carriable dequeued packet. */
  ghost predicate Conserved(taken: seq<Packet>, sent: seq<Bytes>, batch: Bytes, pending: Option<Packet>) {
    && OpenBatch(batch, MAX_PACKET)
    && (forall f :: f in sent ==> GoodFrame(f))
    && Carriable(taken) == Delivered(sent) + PacketsOf(batch, MAX_PACKET) + Held(pending)
  }

  lemma NothingTaken(events: seq<Event>)
    ensures Conserved(Arrivals(events[..0]), [], [], None)
  {
    assert events[..0] == [];
  }

  lemma AbsorbKeeps(taken: seq<Packet>, sent: seq<Bytes>, batch: Bytes, packet: Packet)
    requires Conserved(taken, sent, batch, None)
    ensures AppendBatch(batch, packet).None? ==> Conserved(taken + [packet], sent, batch, Some(packet))
    ensures AppendBatch(batch, packet).Some? ==>
      Conserved(taken + [packet], sent, AppendBatch(batch, packet).value, None)
  {
    hide Decode;
    hide ParseRecords;
    CarriableSnoc(taken, packet);
    if AppendBatch(batch, packet).Some? {
      AppendKeepsBatch(batch, packet, MAX_PACKET);
    }
  }

  lemma TakeKeeps(taken: seq<Packet>, sent: seq<Bytes>, packet: Packet)
    requires Conserved(taken, sent, [], None)
    ensures Conserved(taken + [packet], sent, [], Some(packet))
  {
    CarriableSnoc(taken, packet);
  }

  lemma StartKeeps(taken: seq<Packet>, sent: seq<Bytes>, packet: Packet)
    requires Conserved(taken, sent, [], Some(packet))
    ensures AppendBatch([], packet).None? <==> !(1 <= |packet| <= 65535)
    ensures AppendBatch([], packet).None? ==> Conserved(taken, sent, [], None)
    ensures AppendBatch([], packet).Some? ==>
      && Conserved(taken, sent, AppendBatch([], packet).value, None)
      && GoodFrame(AppendBatch([], packet).value)
  {
    hide Decode;
    hide ParseRecords;
    if AppendBatch([], packet).Some? {
      AppendKeepsBatch([], packet, MAX_PACKET);
    }
  }

  lemma SendKeeps(taken: seq<Packet>, sent: seq<Bytes>, batch: Bytes, pending: Option<Packet>)
    requires Conserved(taken, sent, batch, pending) && GoodFrame(batch)
    ensures Conserved(taken, sent + [batch], [], pending)
  {
    hide Decode;
    DeliveredSnoc(sent, batch);
  }

  // ------------------------------------------------- what one batch consists of

  /** The packets among the events `from` to `to`. */
  function Between(events: seq<Event>, from: nat, to: nat): seq<Packet>
    requires from <= to <= |events|
  {
    if from == to then []
    else Between(events, from, to - 1) + (if events[to - 1].Arrived? then [events[to - 1].packet] else [])
  }

  function Listed(packet: Option<Packet>): seq<Packet> {
    if packet.Some? then [packet.value] else []
  }

  /** A batch and the packet it refused are all that arrived from one event on; only the last may be no arrival. */
  ghost predicate Gathered(events: seq<Event>, from: nat, to: nat, batch: Bytes, refused: Option<Packet>) {
    && from < to <= |events| && GoodFrame(batch)
    && Between(events, from, to) == Decode(batch, MAX_PACKET).packets + Listed(refused)
    && forall k :: from <= k < to - 1 ==> events[k].Arrived?
  }

  /** Why a batch may be sent: it refused the last packet, it is full, or the timer ran out. */
  ghost predicate Complete(events: seq<Event>, to: nat, batch: Bytes, refused: Option<Packet>) {
    && 0 < to <= |events|
    && match refused
       case Some(packet) =>
         && events[to - 1] == Arrived(packet)
         && (|packet| == 0 || |packet| > 65535 || |batch| + 4 + |packet| > 128 * 1024)
       case None => |batch| >= 128 * 1024 || events[to - 1].Elapsed?
  }

  lemma GatherFirst(events: seq<Event>, from: nat)
    requires from < |events| && events[from].Arrived? && AppendBatch([], events[from].packet).Some?
    ensures Gathered(events, from, from + 1, AppendBatch([], events[from].packet).value, None)
  {
    hide Decode, ParseRecords;
    AppendKeepsBatch([], events[from].packet, MAX_PACKET);
    assert Between(events, from, from) == [];
  }

  lemma GatherNext(events: seq<Event>, from: nat, to: nat, batch: Bytes)
    requires Gathered(events, from, to, batch, None) && to < |events| && events[to - 1].Arrived?
    ensures !events[to].Arrived? ==> Gathered(events, from, to + 1, batch, None)
    ensures events[to].Arrived? && AppendBatch(batch, events[to].packet).None? ==>
      Gathered(events, from, to + 1, batch, Some(events[to].packet))
    ensures events[to].Arrived? && AppendBatch(batch, events[to].packet).Some? ==>
      Gathered(events, from, to + 1, AppendBatch(batch, events[to].packet).value, None)
  {
    hide ParseRecords;
    if events[to].Arrived? && AppendBatch(batch, events[to].packet).Some? {
      GrowsGood(batch, events[to].packet);
      AppendKeepsBatch(batch, events[to].packet, MAX_PACKET);
    }
  }

  lemma Refused(events: seq<Event>, to: nat, batch: Bytes)
    requires 0 < to <= |events| && events[to - 1].Arrived? && GoodFrame(batch)
    requires AppendBatch(batch, events[to - 1].packet).None?
    ensures Complete(events, to, batch, Some(events[to - 1].packet))
  {
  }

  // ----------------------------------------------------------------- the loop

  /** How collecting one batch ended. */
  datatype Outcome = Full | TimedOut | PortClosed | NoMoreEvents

  /** The inner collect loop: absorbs packets until the batch is full, refuses one, times out or is closed. */
  method Collect(events: seq<Event>, from: nat, first: Bytes, ghost sent: seq<Bytes>)
    returns (used: nat, batch: Bytes, pending: Option<Packet>, outcome: Outcome)
    requires 0 < from <= |events| && GoodFrame(first) && events[from - 1].Arrived?
    requires Conserved(Arrivals(events[..from]), sent, first, None)
    requires Gathered(events, from - 1, from, first, None)
    ensures from <= used <= |events| && GoodFrame(batch)
    ensures Conserved(Arrivals(events[..used]), sent, batch, pending)
    ensures Gathered(events, from - 1, used, batch, pending)
    ensures outcome.Full? || outcome.TimedOut? ==> Complete(events, used, batch, pending)
    ensures pending.Some? ==> used > from && outcome == Full && events[used - 1] == Arrived(pending.value)
    ensures outcome == PortClosed <==> events[used - 1].Closed?
    ensures outcome == NoMoreEvents ==> used == |events|
    ensures outcome == TimedOut ==> events[used - 1].Elapsed?
  {
    hide *;
    used, batch, pending, outcome := from, first, None, Full;
    while |batch| < TUN_BATCH_MAX
      invariant from <= used <= |events| && GoodFrame(batch)
      invariant Conserved(Arrivals(events[..used]), sent, batch, None)
      invariant Gathered(events, from - 1, used, batch, None) && events[used - 1].Arrived?
      invariant pending == None && outcome == Full
      decreases TUN_BATCH_MAX - |batch|
    {
      if used == |events| {
        outcome := NoMoreEvents;
        return;
      }
      ArrivalsNext(events, used);
      GatherNext(events, from - 1, used, batch);
      used := used + 1;
      match events[used - 1] {
        case Closed => outcome := PortClosed; return;
        case Elapsed =>
          outcome := TimedOut;
          TimerRan(events, used, batch);
          return;
        case Arrived(packet) =>
          var added := AppendBatch(batch, packet);
          AbsorbKeeps(Arrivals(events[..used - 1]), sent, batch, packet);
          if added.None? {
            pending := Some(packet);
            Refused(events, used, batch);
            return;
          }
          GrowsGood(batch, packet);
          batch := added.value;
      }
    }
    BatchFull(events, used, batch);
  }

  lemma TimerRan(events: seq<Event>, to: nat, batch: Bytes)
    requires 0 < to <= |events| && events[to - 1].Elapsed?
    ensures Complete(events, to, batch, None)
  {
  }

  lemma BatchFull(events: seq<Event>, to: nat, batch: Bytes)
    requires 0 < to <= |events| && |batch| >= TUN_BATCH_MAX
    ensures Complete(events, to, batch, None)
  {
  }

  /** The writer stops at the first event that closes the port. */
  ghost predicate StopsAtClose(events: seq<Event>, from: nat, to: nat, stopped: bool) {
    && from <= to <= |events|
    && forall k :: from <= k < to && events[k].Closed? ==> k == to - 1 && stopped
  }

  lemma NoClose(events: seq<Event>, from: nat, to: nat, batch: Bytes, refused: Option<Packet>, stopped: bool)
    requires 0 < from <= to && Gathered(events, from - 1, to, batch, refused)
    requires events[to - 1].Closed? ==> stopped
    ensures StopsAtClose(events, from, to, stopped)
  {
    hide GoodFrame, Decode;
  }

  lemma OneEvent(events: seq<Event>, from: nat, to: nat, stopped: bool)
    requires from <= to <= |events| && to <= from + 1 && (to > from && events[from].Closed? ==> stopped)
    ensures StopsAtClose(events, from, to, stopped)
  {
  }

  lemma CloseJoined(events: seq<Event>, from: nat, middle: nat, to: nat, stopped: bool)
    requires StopsAtClose(events, from, middle, false) && StopsAtClose(events, middle, to, stopped)
    ensures StopsAtClose(events, from, to, stopped)
  {
  }

  /** How one round of the loop ended: it goes on, the writer stopped, or there are no more events. */
  datatype Round = GoesOn | Stopped | OutOfEvents

  /** A packet in hand is the one that arrived last. */
  ghost predicate Newest(events: seq<Event>, used: nat, packet: Option<Packet>) {
    packet.Some? ==> 0 < used <= |events| && events[used - 1] == Arrived(packet.value)
  }

  /** Takes the packet of the next batch: the carry-over, or what the queue yields. */
  method NextFirst(events: seq<Event>, from: nat, carried: Option<Packet>, ghost sent: seq<Bytes>)
    returns (used: nat, first: Option<Packet>, round: Round)
    requires from <= |events| && Conserved(Arrivals(events[..from]), sent, [], carried)
    requires Newest(events, from, carried)
    ensures from <= used <= |events| && Conserved(Arrivals(events[..used]), sent, [], first)
    ensures Newest(events, used, first)
    ensures round.Stopped? ==> used > 0 && events[used - 1].Closed?
    ensures StopsAtClose(events, from, used, round.Stopped?)
    ensures round.OutOfEvents? ==> used == |events|
    ensures round.GoesOn? && carried.None? ==> used > from
    ensures round.GoesOn? && carried.Some? ==> used == from && first == carried
  {
    hide *;
    used, first, round := from, carried, GoesOn;
    OneEvent(events, from, from, false);
    if carried.Some? {
      return;
    }
    NothingInHand(events, used);
    if used == |events| {
      round := OutOfEvents;
      return;
    }
    ArrivalsNext(events, used);
    NothingInHand(events, used + 1);
    OneEvent(events, from, from + 1, events[from].Closed?);
    used := used + 1;
    match events[used - 1] {
      case Closed => round := Stopped;
      case Elapsed =>  // the timer is not part of this select
      case Arrived(packet) =>
        TakeKeeps(Arrivals(events[..used - 1]), sent, packet);
        JustArrived(events, used);
        first := Some(packet);
    }
  }

  lemma NothingInHand(events: seq<Event>, used: nat)
    ensures Newest(events, used, None)
  {
  }

  lemma JustArrived(events: seq<Event>, used: nat)
    requires 0 < used <= |events| && events[used - 1].Arrived?
    ensures Newest(events, used, Some(events[used - 1].packet))
  {
  }

  /** The events a sent batch was made of, and the packet it refused. */
  datatype Span = Span(from: nat, to: nat, refused: Option<Packet>)

  /** A batch was sent when it was complete, and holds all that arrived since its first packet. */
  ghost predicate Sent(events: seq<Event>, frame: Bytes, span: Span) {
    && span.from < span.to <= |events| && events[span.from].Arrived?
    && Gathered(events, span.from, span.to, frame, span.refused)
    && Complete(events, span.to, frame, span.refused)
  }

  /** Every frame has its events, in order; two successive ones share at most the packet refused by the first. */
  ghost predicate AllSent(events: seq<Event>, used: nat, sent: seq<Bytes>, spans: seq<Span>) {
    && |spans| == |sent|
    && (forall k :: 0 <= k < |sent| ==> Sent(events, sent[k], spans[k]) && spans[k].to <= used)
    && (forall k, l :: 0 <= k < l < |sent| ==> spans[k].to <= spans[l].from + 1)
  }

  lemma NoneSent(events: seq<Event>)
    ensures AllSent(events, 0, [], [])
  {
  }

  lemma OneMoreSent(events: seq<Event>, used: nat, sent: seq<Bytes>, spans: seq<Span>, frame: Bytes, span: Span)
    requires AllSent(events, used, sent, spans) && Sent(events, frame, span) && used <= span.from + 1
    ensures AllSent(events, span.to, sent + [frame], spans + [span])
  {
    hide Sent;
    assert span.from < span.to by {
      Ordered(events, frame, span);
    }
  }

  lemma Ordered(events: seq<Event>, frame: Bytes, span: Span)
    requires Sent(events, frame, span)
    ensures span.from < span.to
  {
  }

  lemma SentLater(events: seq<Event>, used: nat, later: nat, sent: seq<Bytes>, spans: seq<Span>)
    requires AllSent(events, used, sent, spans) && used <= later
    ensures AllSent(events, later, sent, spans)
  {
    hide Sent;
  }

  /** Collects one batch from its first packet and sends it; a packet that no batch can carry is dropped. */
  method SendBatch(events: seq<Event>, from: nat, first: Packet, conn: RelayConn)
    returns (used: nat, unsent: Bytes, pending: Option<Packet>, round: Round)
    requires 0 < from <= |events| && events[from - 1] == Arrived(first)
    requires Conserved(Arrivals(events[..from]), conn.sent, [], Some(first))
    modifies conn
    ensures from <= used <= |events| && Conserved(Arrivals(events[..used]), conn.sent, unsent, pending)
    ensures Newest(events, used, pending)
    ensures round.GoesOn? && 1 <= |first| <= 65535 ==>
      && |conn.sent| > 0 && conn.sent == old(conn.sent) + [conn.sent[|conn.sent| - 1]]
      && Sent(events, conn.sent[|conn.sent| - 1], Span(from - 1, used, pending))
    ensures !(round.GoesOn? && 1 <= |first| <= 65535) ==> conn.sent == old(conn.sent)
    ensures StopsAtClose(events, from, used, round.Stopped?)
    ensures round.GoesOn? ==> unsent == [] && (pending.Some? ==> used > from)
    ensures round.Stopped? ==> (used > 0 && events[used - 1].Closed?) || conn.room == 0
    ensures round.OutOfEvents? ==> used == |events|
    ensures conn.room + |conn.sent| == old(conn.room + |conn.sent|)
  {
    hide *;
    used, unsent, pending, round := from, [], None, GoesOn;
    NothingInHand(events, used);
    OneEvent(events, from, from, false);
    ghost var sent := conn.sent;
    var started := AppendBatch([], first);
    StartKeeps(Arrivals(events[..from]), sent, first);
    if started.None? {
      return;
    }
    GatherFirst(events, from - 1);
    var batch, outcome;
    used, batch, pending, outcome := Collect(events, from, started.value, sent);
    InHand(events, used, pending);
    NoClose(events, from, used, batch, pending, outcome == PortClosed);
    if outcome == PortClosed || outcome == NoMoreEvents {
      unsent, round := batch, if outcome == PortClosed then Stopped else OutOfEvents;
      return;
    }
    WasSent(events, batch, Span(from - 1, used, pending));
    var ok := conn.Send(batch);
    if !ok {
      NoClose(events, from, used, batch, pending, true);
      unsent, round := batch, Stopped;
      return;
    }
    SendKeeps(Arrivals(events[..used]), sent, batch, pending);
  }

  lemma InHand(events: seq<Event>, used: nat, pending: Option<Packet>)
    requires pending.Some? ==> 0 < used <= |events| && events[used - 1] == Arrived(pending.value)
    ensures Newest(events, used, pending)
  {
  }

  lemma WasSent(events: seq<Event>, frame: Bytes, span: Span)
    requires Gathered(events, span.from, span.to, frame, span.refused)
    requires Complete(events, span.to, frame, span.refused)
    requires span.from < |events| && events[span.from].Arrived?
    ensures Sent(events, frame, span)
  {
  }

  lemma Latest(events: seq<Event>, used: nat, packet: Packet)
    requires Newest(events, used, Some(packet))
    ensures 0 < used <= |events| && events[used - 1] == Arrived(packet)
  {
  }

  /** One round of the loop. */
  method WriteRound(events: seq<Event>, from: nat, carried: Option<Packet>, conn: RelayConn, ghost before: seq<Span>)
    returns (used: nat, unsent: Bytes, pending: Option<Packet>, round: Round, ghost spans: seq<Span>)
    requires from <= |events| && Conserved(Arrivals(events[..from]), conn.sent, [], carried)
    requires Newest(events, from, carried) && AllSent(events, from, conn.sent, before)
    modifies conn
    ensures from <= used <= |events| && Conserved(Arrivals(events[..used]), conn.sent, unsent, pending)
    ensures Newest(events, used, pending) && AllSent(events, used, conn.sent, spans)
    ensures StopsAtClose(events, from, used, round.Stopped?)
    ensures round.GoesOn? ==> unsent == [] && (used > from || (carried.Some? && pending.None?))
    ensures round.Stopped? ==> (used > 0 && events[used - 1].Closed?) || conn.room == 0
    ensures round.OutOfEvents? ==> used == |events|
    ensures conn.room + |conn.sent| == old(conn.room + |conn.sent|)
  {
    hide *;
    unsent, spans := [], before;
    used, pending, round := NextFirst(events, from, carried, conn.sent);
    if round == GoesOn && pending.Some? {
      ghost var start := used;
      var first := pending.value;
      Latest(events, used, first);
      used, unsent, pending, round := SendBatch(events, used, first, conn);
      CloseJoined(events, from, start, used, round.Stopped?);
      if round == GoesOn && 1 <= |first| <= 65535 {
        ghost var span := Span(start - 1, used, pending);
        SentLater(events, from, start, old(conn.sent), before);
        OneMoreSent(events, start, old(conn.sent), before, conn.sent[|conn.sent| - 1], span);
        spans := before + [span];
        return;
      }
    }
    SentLater(events, from, used, conn.sent, spans);
  }

  /**
   * Runs until the events are used up, the port is closed or a send fails. Whatever
   * the outcome of each select, no carriable packet is lost, duplicated or reordered
   * between the queue and the frames, the unsent batch and the carry-over packet, and
   * every frame was sent only when it was complete.
   */
  method WriteRelayLoop(events: seq<Event>, conn: RelayConn)
    returns (used: nat, unsent: Bytes, pending: Option<Packet>, stopped: bool)
    requires conn.sent == []
    modifies conn
    ensures used <= |events| && (!stopped ==> used == |events|)
    ensures Conserved(Arrivals(events[..used]), conn.sent, unsent, pending)
    ensures exists spans :: AllSent(events, used, conn.sent, spans)
    ensures StopsAtClose(events, 0, used, stopped)
    ensures stopped ==> (used > 0 && events[used - 1].Closed?) || conn.room == 0
    ensures conn.room + |conn.sent| == old(conn.room)
  {
    hide *;
    NothingTaken(events);
    NothingInHand(events, 0);
    NoneSent(events);
    OneEvent(events, 0, 0, false);
    used, pending, unsent := 0, None, [];
    ghost var spans: seq<Span> := [];
    while true
      invariant used <= |events| && unsent == []
      invariant Conserved(Arrivals(events[..used]), conn.sent, [], pending)
      invariant Newest(events, used, pending) && AllSent(events, used, conn.sent, spans)
      invariant StopsAtClose(events, 0, used, false)
      invariant conn.room + |conn.sent| == old(conn.room)
      decreases |events| - used, pending.Some?
    {
      var round;
      ghost var start := used;
      used, unsent, pending, round, spans := WriteRound(events, used, pending, conn, spans);
      CloseJoined(events, 0, start, used, round.Stopped?);
      if round != GoesOn {
        stopped := round == Stopped;
        return;
      }
    }
  }

  lemma GrowsGood(batch: Bytes, packet: Packet)
    requires GoodFrame(batch) && AppendBatch(batch, packet).Some?
    ensures GoodFrame(AppendBatch(batch, packet).value) && |AppendBatch(batch, packet).value| > |batch|
  {
    AppendKeepsBatch(batch, packet, MAX_PACKET);
  }
}
