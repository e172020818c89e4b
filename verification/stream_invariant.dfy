/** The inductive invariant of the stream system, one predicate per concern. */
module StreamInvariant {
  import opened Common
  import opened StreamCodec
  import opened StreamLog
  import opened StreamSdk
  import opened StreamPath
  import opened StreamSystem
  import Rx = StreamReceiver

  // ------------------------------------------------------------- vocabulary

  /** The packets carried by the payloads of a log, in order. */
  function Packets(log: seq<Bytes>): seq<Packet> {
    if log == [] then [] else Packets(log[..|log| - 1]) + Unbatch(log[|log| - 1])
  }

  /** A finished batch: at most the frame limit, decodable, and not empty. */
  predicate BatchOk(payload: Bytes) {
    OpenBatch(payload) && ParseBody(payload[2..]).value != []
  }

  /** Some payload of the log sits exactly at this offset. */
  ghost predicate DataAt(log: seq<Bytes>, offset: nat, payload: Bytes) {
    exists n: nat :: n < |log| && Off(log, n) == offset && log[n] == payload
  }

  /** The offset is a frame boundary that the receiver has delivered up to. */
  ghost predicate Reached(accepted: seq<Bytes>, offset: nat) {
    exists n: nat :: n <= |accepted| && Off(accepted, n) == offset
  }

  ghost predicate AckedBy(receivers: seq<Rx.Receiver>, offset: nat) {
    exists i: nat :: i < |receivers| && Reached(receivers[i].accepted, offset)
  }

  /** Some receiver has moved to this epoch. */
  ghost predicate AtEpoch(receivers: seq<Rx.Receiver>, epoch: nat) {
    exists i: nat :: i < |receivers| && receivers[i].state.epoch >= epoch
  }

  ghost predicate ResumeSeen(net: set<Message>, epoch: nat) {
    exists m :: m in net && m.frame.Resume? && m.frame.epoch == epoch
  }

  predicate Opening(life: Life) {
    life.OpenIdle? || life.OpenSending? || life.OpenWaiting?
  }

  predicate BetweenBatches(pc: WriterPc) {
    pc.NotStarted? || pc.Top? || pc.IdleSampled? || pc.IdleFailing? || pc.SendingData? || pc.SendFailing?
  }

  /** From finding the window full to waking up again. */
  predicate AtFull(pc: WriterPc) {
    pc.Full? || pc.FullSampled? || pc.StallFailing? || pc.WaitWake?
  }

  predicate Resuming(life: Life) {
    life.ResumeBegun? || life.ResumeSending? || life.ResumeWaiting? || life.Replaying?
  }

  function PendingPackets(pending: Option<Bytes>, overflow: Option<Packet>): seq<Packet> {
    (if pending.Some? then Unbatch(pending.value) else []) + (if overflow.Some? then [overflow.value] else [])
  }

  // ------------------------------------------------------------- components

  /** The sender retains exactly the payloads from the acknowledged offset to the sent end. */
  ghost predicate LogOk(log: seq<Bytes>, sender: Sender) {
    && (forall i :: 0 <= i < |log| ==> BatchOk(log[i]))
    && |sender.retained| <= |log|
    && Retains(sender, log, |log| - |sender.retained|)
  }

  ghost predicate MessageOk(m: Message, window: nat, net: set<Message>, log: seq<Bytes>, epoch: nat,
                            receivers: seq<Rx.Receiver>) {
    match m.frame
    case Open(e, w) => e == 1 && w == window
    case OpenAck(e, w) => e == 1 && m.(frame := Open(1, w)) in net
    case Data(e, offset, payload) => e <= epoch && DataAt(log, offset, payload)
    case Ack(e, offset, _) =>
      1 <= e <= epoch && AckedBy(receivers, offset) && AtEpoch(receivers, e) && (e > 1 ==> ResumeSeen(net, e))
    case Resume(e, offset) => 2 <= e <= epoch && (offset == 0 || AckedBy(receivers, offset))
    case Close(_) => true
  }

  ghost predicate NetOk(window: nat, net: set<Message>, log: seq<Bytes>, epoch: nat, receivers: seq<Rx.Receiver>) {
    forall m :: m in net ==> MessageOk(m, window, net, log, epoch, receivers)
  }

  /** A receiver accepted a prefix of the log, and every ACK it ever queued was a boundary it had reached. */
  ghost predicate ReceiverOk(r: Rx.Receiver, window: nat, log: seq<Bytes>, epoch: nat, net: set<Message>) {
    && r.accepted <= log
    && r.state.next == Off(r.accepted, |r.accepted|)
    && r.window == window
    && 1 <= r.state.epoch <= epoch && (r.state.epoch > 1 ==> ResumeSeen(net, r.state.epoch))
    && (forall k :: 0 <= k < |r.queued| ==> MarkOk(r.queued[k], r.accepted, epoch, net))
    && Rx.AckOk(r)
  }

  ghost predicate MarkOk(mark: Rx.Mark, accepted: seq<Bytes>, epoch: nat, net: set<Message>) {
    1 <= mark.epoch <= epoch && Reached(accepted, mark.offset) && (mark.epoch > 1 ==> ResumeSeen(net, mark.epoch))
  }

  /** Exactly the live receiver is unstopped. */
  ghost predicate ReceiversOk(receivers: seq<Rx.Receiver>, live: Option<nat>, window: nat, log: seq<Bytes>, epoch: nat,
                              net: set<Message>) {
    && (live.Some? ==> live.value < |receivers|)
    && (forall i :: 0 <= i < |receivers| ==> ReceiverOk(receivers[i], window, log, epoch, net))
    && (forall i :: 0 <= i < |receivers| ==> (receivers[i].stopped <==> live != Some(i)))
  }

  ghost predicate ConfirmedOk(lastAck: nat, receivers: seq<Rx.Receiver>) {
    lastAck == 0 || AckedBy(receivers, lastAck)
  }

  ghost predicate QueueOk(queue: seq<Packet>, admitted: seq<Packet>, taken: seq<Packet>) {
    admitted == taken + queue && forall p :: p in queue ==> Admissible(p)
  }

  /** Every packet taken is in a sent payload, in the pending batch, or is the overflow packet. */
  ghost predicate ConservedOk(taken: seq<Packet>, log: seq<Bytes>, w: Writer) {
    && taken == Packets(log) + PendingPackets(w.pending, w.overflow)
    && (w.pending.Some? ==> BatchOk(w.pending.value))
    && (w.overflow.Some? ==> Admissible(w.overflow.value))
    && (BetweenBatches(w.pc) ==> w.pending.None?)
    && (w.pc.NotStarted? || w.pc.Draining? || w.pc.IdleSampled? || w.pc.IdleFailing? ==> w.overflow.None?)
    && (w.pc.NotStarted? ==> log == [])
  }

  /** A waiting writer watches the current gate or a closed one; a frame in hand is in the log. */
  ghost predicate WriterOk(pc: WriterPc, gate: nat, closed: set<nat>, epoch: nat, log: seq<Bytes>) {
    && (pc.WaitReady? ==> pc.gate == gate || pc.gate in closed)
    && (pc.SendingData? ==> pc.frame.Data? && pc.frame.epoch <= epoch && DataAt(log, pc.frame.offset, pc.frame.payload))
  }

  /** The payload in hand did not fit when it was offered, and credit gained since has left a wake token. */
  ghost predicate CreditOk(pc: WriterPc, pending: Option<Bytes>, ackSeen: nat, windowSeen: nat,
                           lastAck: nat, lastSent: nat, window: nat, wake: bool) {
    AtFull(pc) ==>
      && pending.Some? && lastSent - ackSeen + |pending.value| > windowSeen
      && ackSeen <= lastAck
      && (ackSeen < lastAck || windowSeen != window ==> wake)
  }

  ghost predicate EpochOk(life: Life, pc: WriterPc, epoch: nat, senderEpoch: nat, ready: bool) {
    && 1 <= senderEpoch <= epoch
    && (life.ResumeBegun? <==> senderEpoch < epoch)
    && (Opening(life) ==> pc.NotStarted? && epoch == 1)
    && (pc.NotStarted? ==> Opening(life) || life.Activating? || life.Ended?)
    && (pc.NotStarted? ==> epoch == 1)
    && (Resuming(life) ==> !ready && epoch > 1)
  }

  /** Data frames of the current epoch, on the wire or in the writer's hand, were issued, on the current route. */
  ghost predicate WireOk(net: set<Message>, pc: WriterPc, target: Session, epoch: nat, issued: seq<Frame>) {
    && (forall m :: m in net && m.frame.Data? && m.frame.epoch == epoch ==> m.session == target && m.frame in issued)
    && (pc.SendingData? && pc.frame.epoch == epoch ==> pc.session == target && pc.frame in issued)
  }

  /** What the wire was given under this epoch is contiguous, and complete while the path is ready. */
  ghost predicate ReplayOk(log: seq<Bytes>, issued: seq<Frame>, start: nat, epoch: nat, ready: bool) {
    && start <= |log|
    && Contiguous(issued, log, start, epoch)
    && (ready || epoch == 1 ==> start + |issued| == |log|)
    && (epoch == 1 ==> start == 0)
  }

  /** The frames being replayed are the whole log from the Resume frame's offset on. */
  ghost predicate FramesOk(frames: seq<Frame>, from: nat, log: seq<Bytes>, start: nat, epoch: nat) {
    start <= |log| && |frames| == |log| - start && Contiguous(frames, log, start, epoch) && from == Off(log, start)
  }

  ghost predicate LifeOk(life: Life, target: Session, epoch: nat, lastAck: nat, log: seq<Bytes>, retained: nat,
                         issued: seq<Frame>, start: nat, gate: nat, closed: set<nat>) {
    match life
    case OpenSending(session, tried, g) => session == target && session in tried && (g == gate || g in closed)
    case OpenWaiting(session, tried, g) => session == target && session in tried && (g == gate || g in closed)
    case ResumeBegun(session, tried, e, from) =>
      session == target && e == epoch && from == lastAck && issued == [] && start + retained == |log|
    case ResumeSending(session, tried, e, from, frames) =>
      session == target && e == epoch && issued == [] && FramesOk(frames, from, log, start, epoch)
    case ResumeWaiting(session, tried, e, from, frames) =>
      session == target && e == epoch && issued == [] && FramesOk(frames, from, log, start, epoch)
    case Replaying(session, tried, e, from, frames, sent) =>
      && session == target && e == epoch && sent <= |frames| && issued == frames[..sent]
      && FramesOk(frames, from, log, start, epoch)
    case _ => true
  }

  /** The Resume frame of the current epoch travels on the current route and names where its replay starts. */
  ghost predicate CurrentResumeOk(net: set<Message>, epoch: nat, target: Session, log: seq<Bytes>, start: nat) {
    start <= |log| &&
    forall m :: m in net && m.frame.Resume? && m.frame.epoch == epoch ==>
      m.session == target && m.frame.offset == Off(log, start)
  }

  /** A Resume frame asks for an offset that some receiver confirmed. */
  ghost predicate FromOk(life: Life, receivers: seq<Rx.Receiver>) {
    match life
    case ResumeBegun(_, _, _, from) => ConfirmedOk(from, receivers)
    case ResumeSending(_, _, _, from, _) => ConfirmedOk(from, receivers)
    case ResumeWaiting(_, _, _, from, _) => ConfirmedOk(from, receivers)
    case Replaying(_, _, _, from, _, _) => ConfirmedOk(from, receivers)
    case _ => true
  }

  /** The ACK that released the attempt matched its session and epoch, and really travelled. */
  ghost predicate AckReleased(acked: Option<Message>, target: Session, epoch: nat, net: set<Message>) {
    && acked.Some? && acked.value in net && acked.value.frame.Ack?
    && acked.value.session == target && acked.value.frame.epoch == epoch
  }

  ghost predicate AttemptOk(life: Life, attempt: Attempt, target: Session, epoch: nat, armed: bool, resumed: bool,
                            failure: Option<Failure>, net: set<Message>) {
    Resuming(life) ==>
      && (!armed ==> AckReleased(attempt.acked, target, epoch, net))
      && (resumed ==> !armed)
      && (life.Replaying? ==> !armed)
      && (attempt.failed ==> failure.Some?)
  }

  /** A lost path always leaves a token, a signaller on its way, or a closed port. */
  ghost predicate SignalOk(life: Life, ready: bool, closed: set<nat>, lost: bool, losing: nat, done: bool,
                           restart: bool, active: bool) {
    && ((life.Activating? || life.LifeParked? || (life.OpenWaiting? && life.gate in closed)) && !ready ==>
          lost || losing > 0)
    && (life.OpenSending? && life.gate in closed && !ready ==> lost || losing > 0)
    && (life.LifeParked? && !active ==> lost || losing > 0)
    && (life.Ended? ==> done)
  }

  /** The stream's own frames; the invariant leaves those of other streams free. */
  function OwnNet(s: State): set<Message> {
    Own(s.net, s.port.id)
  }

  ghost predicate Inv(c: Config, s: State) {
    && GateOk(s.port.ready, s.port.gate, s.port.nextGate, s.port.closed)
    && CountersOk(s.port.lastAck, s.port.lastSent, s.port.sender)
    && LogOk(s.log, s.port.sender)
    && NetOk(c.window, OwnNet(s), s.log, s.port.epoch, s.receivers)
    && ReceiversOk(s.receivers, s.live, c.window, s.log, s.port.epoch, OwnNet(s))
    && ConfirmedOk(s.port.lastAck, s.receivers)
    && QueueOk(s.queue, s.admitted, s.taken)
    && ConservedOk(s.taken, s.log, s.writer)
    && WriterOk(s.writer.pc, s.port.gate, s.port.closed, s.port.epoch, s.log)
    && CreditOk(s.writer.pc, s.writer.pending, s.writer.ackSeen, s.writer.windowSeen, s.port.lastAck, s.port.lastSent,
                s.port.sender.window, s.port.wake)
    && EpochOk(s.life, s.writer.pc, s.port.epoch, s.port.sender.epoch, s.port.ready)
    && WireOk(OwnNet(s), s.writer.pc, s.port.target, s.port.epoch, s.issued)
    && ReplayOk(s.log, s.issued, s.start, s.port.epoch, s.port.ready)
    && LifeOk(s.life, s.port.target, s.port.epoch, s.port.lastAck, s.log, |s.port.sender.retained|, s.issued, s.start,
              s.port.gate, s.port.closed)
    && CurrentResumeOk(OwnNet(s), s.port.epoch, s.port.target, s.log, s.start)
    && FromOk(s.life, s.receivers)
    && AttemptOk(s.life, s.attempt, s.port.target, s.port.epoch, s.port.armed, s.port.resumed, s.port.failure,
                 OwnNet(s))
    && SignalOk(s.life, s.port.ready, s.port.closed, s.port.lost, s.losing, s.port.done, s.port.restart, s.active)
  }

  lemma InitOk(c: Config)
    ensures Inv(c, Init(c))
  {
  }

  // ------------------------------------------------------------ monotonicity

  ghost predicate Grows(a: seq<Rx.Receiver>, b: seq<Rx.Receiver>) {
    |a| <= |b| && forall i :: 0 <= i < |a| ==> a[i].accepted <= b[i].accepted && a[i].state.epoch <= b[i].state.epoch
  }

  lemma AtEpochGrows(a: seq<Rx.Receiver>, b: seq<Rx.Receiver>, epoch: nat)
    requires Grows(a, b) && AtEpoch(a, epoch)
    ensures AtEpoch(b, epoch)
  {
    var i: nat :| i < |a| && a[i].state.epoch >= epoch;
    assert b[i].state.epoch >= epoch;
  }

  lemma ReachedGrows(accepted: seq<Bytes>, longer: seq<Bytes>, offset: nat)
    requires accepted <= longer && Reached(accepted, offset)
    ensures Reached(longer, offset)
  {
    var n: nat :| n <= |accepted| && Off(accepted, n) == offset;
    OffPrefix(accepted, longer, n);
  }

  lemma AckedByGrows(a: seq<Rx.Receiver>, b: seq<Rx.Receiver>, offset: nat)
    requires Grows(a, b) && AckedBy(a, offset)
    ensures AckedBy(b, offset)
  {
    var i: nat :| i < |a| && Reached(a[i].accepted, offset);
    ReachedGrows(a[i].accepted, b[i].accepted, offset);
  }

  lemma DataAtGrows(log: seq<Bytes>, longer: seq<Bytes>, offset: nat, payload: Bytes)
    requires log <= longer && DataAt(log, offset, payload)
    ensures DataAt(longer, offset, payload)
  {
    var n: nat :| n < |log| && Off(log, n) == offset && log[n] == payload;
    OffPrefix(log, longer, n);
    assert longer[n] == payload;
  }

  /** Old messages stay justified while the history they refer to grows. */
  lemma NetGrows(window: nat, net: set<Message>, log: seq<Bytes>, epoch: nat, receivers: seq<Rx.Receiver>,
                 net': set<Message>, log': seq<Bytes>, epoch': nat, receivers': seq<Rx.Receiver>)
    requires NetOk(window, net, log, epoch, receivers)
    requires net <= net' && log <= log' && epoch <= epoch' && Grows(receivers, receivers')
    requires forall m :: m in net' && m !in net ==> MessageOk(m, window, net', log', epoch', receivers')
    ensures NetOk(window, net', log', epoch', receivers')
  {
    forall m | m in net ensures MessageOk(m, window, net', log', epoch', receivers') {
      assert MessageOk(m, window, net, log, epoch, receivers);
      match m.frame
      case Data(_, offset, payload) => DataAtGrows(log, log', offset, payload);
      case Ack(e, offset, _) =>
        AckedByGrows(receivers, receivers', offset);
        AtEpochGrows(receivers, receivers', e);
      case Resume(_, offset) => if offset != 0 { AckedByGrows(receivers, receivers', offset); }
      case _ =>
    }
  }

  lemma ReceiverContext(r: Rx.Receiver, window: nat, log: seq<Bytes>, epoch: nat, net: set<Message>,
                        log': seq<Bytes>, epoch': nat, net': set<Message>)
    requires ReceiverOk(r, window, log, epoch, net) && log <= log' && epoch <= epoch' && net <= net'
    ensures ReceiverOk(r, window, log', epoch', net')
  {
    hide Rx.AckOk;
  }

  lemma ReceiversContext(receivers: seq<Rx.Receiver>, live: Option<nat>, window: nat, log: seq<Bytes>, epoch: nat,
                         net: set<Message>, log': seq<Bytes>, epoch': nat, net': set<Message>)
    requires ReceiversOk(receivers, live, window, log, epoch, net) && log <= log' && epoch <= epoch' && net <= net'
    ensures ReceiversOk(receivers, live, window, log', epoch', net')
  {
    hide ReceiverOk;
    forall i | 0 <= i < |receivers| ensures ReceiverOk(receivers[i], window, log', epoch', net') {
      ReceiverContext(receivers[i], window, log, epoch, net, log', epoch', net');
    }
  }
}
