/**
 * "The receiver's offset is never behind the acknowledged one" fails once a delayed copy of
 * the Open re-creates a removed receiver: two concrete runs. A third one shows a lost path
 * made ready again by a repeated OpenAck.
 */
module StreamRecreation {
  import opened Common
  import opened StreamCodec
  import opened StreamLog
  import opened StreamSdk
  import opened StreamPath
  import opened StreamSystem
  import Rx = StreamReceiver

  const ROUTE: Session := 7
  const PACKET: Packet := [0x45]
  const PAYLOAD: Bytes := [0x54, 0x50, 0, 1, 0x45]

  /** The state a run ends in. */
  function Last(h: History): State
    requires |h.states| > 0
  {
    h.states[|h.states| - 1]
  }

  lemma Do(c: Config, h: History, a: Action) returns (longer: History)
    requires IsRun(c, h)
    ensures IsRun(c, longer) && |longer.states| > 0 && Last(longer) == Step(c, Last(h), a)
  {
    longer := Then(c, h, a);
  }

  /** The Open was sent and answered; the answer has not arrived. */
  ghost predicate Answered(c: Config, s: State) {
    && s.life == OpenWaiting(ROUTE, {ROUTE}, s.port.gate)
    && s.port == BeginOpen(NewPort(c.id, c.window), ROUTE)
    && s.writer == Init(c).writer && s.queue == [] && s.losing == 0
    && s.receivers == [Rx.NewReceiver(ROUTE, 1, c.window)] && s.live == Some(0)
    && Message(ROUTE, c.id, Open(1, c.window)) in s.net && Message(ROUTE, c.id, OpenAck(1, c.window)) in s.net
  }

  lemma SentSteps(c: Config)
    ensures var s := Step(c, Step(c, Init(c), Lifecycle(TryOpen(ROUTE))), Lifecycle(OpenSent(false, true)));
            && s.life == OpenWaiting(ROUTE, {ROUTE}, s.port.gate)
            && s.port == BeginOpen(NewPort(c.id, c.window), ROUTE)
            && s.writer == Init(c).writer && s.queue == [] && s.losing == 0 && s.receivers == [] && s.live == None
            && Message(ROUTE, c.id, Open(1, c.window)) in s.net
  {
  }

  lemma AnsweredRun(c: Config) returns (h: History)
    ensures IsRun(c, h) && Answered(c, Last(h))
  {
    hide EnvStep, LifeStep, WriterStep;
    h := Start(c);
    assert Last(h) == Init(c);
    SentSteps(c);
    h := Do(c, h, Lifecycle(TryOpen(ROUTE)));
    h := Do(c, h, Lifecycle(OpenSent(false, true)));
    h := Do(c, h, Remote(OpenArrives(Message(ROUTE, c.id, Open(1, c.window)), true)));
  }

  /** The stream is open and idle, its receiver new. */
  ghost predicate Opened(c: Config, s: State) {
    && s.port.id == c.id && s.port.ready && s.port.target == ROUTE && s.port.epoch == 1 && s.port.gate in s.port.closed
    && s.port.sender == NewSender(1, c.window) && s.port.lastAck == 0
    && s.writer.pc == Top && s.writer.overflow.None? && s.queue == []
    && s.receivers == [Rx.NewReceiver(ROUTE, 1, c.window)] && s.live == Some(0)
    && Message(ROUTE, c.id, Open(1, c.window)) in s.net && Message(ROUTE, c.id, OpenAck(1, c.window)) in s.net
    && s.life == LifeParked && s.losing == 0
  }

  lemma OpeningSteps(c: Config, s: State)
    requires Answered(c, s)
    ensures var ready := Step(c, s, Env(OpenAckArrives(Message(ROUTE, c.id, OpenAck(1, c.window)))));
            Opened(c, Step(c, Step(c, ready, Lifecycle(OpenReady)), Lifecycle(Activate)))
  {
  }

  lemma OpenRun(c: Config) returns (h: History)
    ensures IsRun(c, h) && Opened(c, Last(h))
  {
    hide Step, Answered, Opened;
    h := AnsweredRun(c);
    OpeningSteps(c, Last(h));
    h := Do(c, h, Env(OpenAckArrives(Message(ROUTE, c.id, OpenAck(1, c.window)))));
    h := Do(c, h, Lifecycle(OpenReady));
    h := Do(c, h, Lifecycle(Activate));
  }

  lemma PacketFrames()
    ensures AppendPacket(STREAM_MAGIC, PACKET) == Some(PAYLOAD) && Admissible(PACKET) && |PAYLOAD| == 5
  {
    assert Record(PACKET) == [0, 1, 0x45];
    assert STREAM_MAGIC + [0, 1, 0x45] == PAYLOAD;
  }

  /** One packet is framed and about to be offered to the sender. */
  ghost predicate Framed(c: Config, s: State) {
    && s.port.id == c.id && s.port.ready && s.port.target == ROUTE && s.port.epoch == 1
    && s.port.sender == NewSender(1, c.window) && s.port.lastAck == 0
    && s.writer.pc == TryData && s.writer.pending == Some(PAYLOAD)
    && s.receivers == [Rx.NewReceiver(ROUTE, 1, c.window)] && s.live == Some(0)
    && Message(ROUTE, c.id, Open(1, c.window)) in s.net
  }

  lemma TakenSteps(c: Config, s: State)
    requires Opened(c, s) && c.capacity >= 1
    ensures var t := Step(c, Step(c, s, Env(Enqueue(PACKET))), Write(TakeFirst));
            && t.port == s.port && t.receivers == s.receivers && t.live == s.live && t.net == s.net && t.queue == []
            && t.writer.pc == Draining && t.writer.pending == Some(PAYLOAD)
  {
    PacketFrames();
    hide AppendPacket;
    assert Step(c, s, Env(Enqueue(PACKET))) ==
      s.(queue := [PACKET], admitted := s.admitted + [PACKET], steps := s.steps + 1);
  }

  lemma ReleasedSteps(c: Config, s: State)
    requires s.writer.pc == Draining && s.writer.pending.Some? && s.queue == [] && s.port.gate in s.port.closed
    ensures var t := Step(c, Step(c, Step(c, s, Write(DrainDone)), Write(ReadPath)), Write(Released));
            && t.port == s.port && t.receivers == s.receivers && t.live == s.live && t.net == s.net
            && t.writer.pc == TryData && t.writer.pending == s.writer.pending
  {
    hide IsStreamBatch;
  }

  lemma FrameRun(c: Config) returns (h: History)
    requires c.capacity >= 1
    ensures IsRun(c, h) && Framed(c, Last(h))
  {
    hide Step;
    h := OpenRun(c);
    TakenSteps(c, Last(h));
    h := Do(c, h, Env(Enqueue(PACKET)));
    h := Do(c, h, Write(TakeFirst));
    ReleasedSteps(c, Last(h));
    h := Do(c, h, Write(DrainDone));
    h := Do(c, h, Write(ReadPath));
    h := Do(c, h, Write(Released));
  }

  /** The frame was accepted by the sender and put on the wire. */
  ghost predicate DataSent(c: Config, s: State) {
    && s.port.id == c.id && s.port.target == ROUTE && s.port.epoch == 1 && s.port.lastAck == 0
    && s.port.sender.epoch == 1 && s.port.sender.end == 5
    && s.receivers == [Rx.NewReceiver(ROUTE, 1, c.window)] && s.live == Some(0)
    && Message(ROUTE, c.id, Open(1, c.window)) in s.net && Message(ROUTE, c.id, Data(1, 0, PAYLOAD)) in s.net
  }

  /** The first payload was accepted at offset 0 and is on its way to the wire. */
  ghost predicate Offered(c: Config, s: State) {
    && s.port.id == c.id && s.port.target == ROUTE && s.port.epoch == 1 && s.port.lastAck == 0
    && s.port.sender.epoch == 1 && s.port.sender.end == 5
    && s.writer.pc == SendingData(ROUTE, Data(1, 0, PAYLOAD))
    && s.receivers == [Rx.NewReceiver(ROUTE, 1, c.window)] && s.live == Some(0)
    && Message(ROUTE, c.id, Open(1, c.window)) in s.net
  }

  lemma OfferStep(c: Config, s: State)
    requires Framed(c, s) && c.window >= 5
    ensures Offered(c, Step(c, s, Write(OfferData)))
  {
    PacketFrames();
  }

  lemma WireStep(c: Config, s: State)
    requires Offered(c, s)
    ensures DataSent(c, Step(c, s, Write(SendFrame(false, true))))
  {
  }

  lemma SendRun(c: Config) returns (h: History)
    requires c.window >= 5 && c.capacity >= 1
    ensures IsRun(c, h) && DataSent(c, Last(h))
  {
    hide Step;
    h := FrameRun(c);
    OfferStep(c, Last(h));
    h := Do(c, h, Write(OfferData));
    WireStep(c, Last(h));
    h := Do(c, h, Write(SendFrame(false, true)));
  }

  /** The receiver acknowledged the frame, and the sender took the ACK. */
  ghost predicate Acknowledged(c: Config, s: State) {
    && s.port.id == c.id && s.port.lastAck == 5 && |s.receivers| == 1 && s.live == Some(0)
    && Message(ROUTE, c.id, Open(1, c.window)) in s.net
  }

  /** The receiver delivered the frame and its ACK is on the wire. */
  ghost predicate AckOnWire(c: Config, s: State) {
    && s.port.id == c.id && s.port.target == ROUTE && s.port.epoch == 1 && s.port.lastAck == 0
    && s.port.sender.epoch == 1 && s.port.sender.end == 5
    && |s.receivers| == 1 && s.live == Some(0)
    && Message(ROUTE, c.id, Open(1, c.window)) in s.net && Message(ROUTE, c.id, Ack(1, 5, c.window)) in s.net
  }

  /** The frame was sent, and its receiver is in the given state. */
  ghost predicate ReceiverIs(c: Config, s: State, r: Rx.Receiver) {
    && s.port.id == c.id && s.port.target == ROUTE && s.port.epoch == 1 && s.port.lastAck == 0
    && s.port.sender.epoch == 1 && s.port.sender.end == 5
    && s.receivers == [r] && s.live == Some(0)
    && Message(ROUTE, c.id, Open(1, c.window)) in s.net
  }

  function Delivered(c: Config): Rx.Receiver {
    Rx.OnData(Rx.NewReceiver(ROUTE, 1, c.window), 1, 0, PAYLOAD, Answers(false, true, c.window))
  }

  lemma DataRun(c: Config) returns (h: History)
    requires c.window >= 5 && c.capacity >= 1
    ensures IsRun(c, h) && ReceiverIs(c, Last(h), Delivered(c))
  {
    h := SendRun(c);
    hide Rx.OnData;
    h := Do(c, h, Remote(DataArrives(Message(ROUTE, c.id, Data(1, 0, PAYLOAD)), Answers(false, true, c.window))));
  }

  lemma LoopSteps(c: Config, s: State, r: Rx.Receiver)
    requires ReceiverIs(c, s, r)
    ensures ReceiverIs(c, Step(c, s, Remote(AckWake(0))), Rx.LoopWake(r))
    ensures ReceiverIs(c, Step(c, s, Remote(AckTake(0))), Rx.LoopTake(r))
    ensures r.session == ROUTE && r.loop == Rx.Sending(0) && r.queued == [Rx.Mark(1, 5, c.window)] ==>
      AckOnWire(c, Step(c, s, Remote(AckSend(0, true))))
  {
    hide Rx.LoopWake, Rx.LoopTake;
  }

  lemma DeliverRun(c: Config) returns (h: History)
    requires c.window >= 5 && c.capacity >= 1
    ensures IsRun(c, h) && AckOnWire(c, Last(h))
  {
    hide Step;
    h := DataRun(c);
    var woken := Rx.LoopWake(Delivered(c));
    var taken := Rx.LoopTake(woken);
    assert |PAYLOAD| == 5;
    LoopSteps(c, Last(h), Delivered(c));
    h := Do(c, h, Remote(AckWake(0)));
    LoopSteps(c, Last(h), woken);
    h := Do(c, h, Remote(AckTake(0)));
    LoopSteps(c, Last(h), taken);
    h := Do(c, h, Remote(AckSend(0, true)));
  }

  lemma AckStep(c: Config, s: State)
    requires AckOnWire(c, s)
    ensures var t := Step(c, s, Env(AckArrives(Message(ROUTE, c.id, Ack(1, 5, c.window)))));
            Acknowledged(c, t) && t.receivers == s.receivers
  {
    hide DropAcked;
  }

  lemma AckRun(c: Config) returns (h: History)
    requires c.window >= 5 && c.capacity >= 1
    ensures IsRun(c, h) && Acknowledged(c, Last(h))
  {
    hide Step;
    h := DeliverRun(c);
    AckStep(c, Last(h));
    h := Do(c, h, Env(AckArrives(Message(ROUTE, c.id, Ack(1, 5, c.window)))));
  }

  /** The peer's Open of another stream arrives, then a delayed copy of the first Open. */
  function RecreateActions(c: Config): seq<Action> {
    var other := Message(ROUTE, c.id + 1, Open(1, c.window));
    [Env(ForeignFrame(other)), Remote(OpenArrives(other, false)),
     Remote(OpenArrives(Message(ROUTE, c.id, Open(1, c.window)), false))]
  }

  lemma RemovedStep(c: Config, s: State)
    requires s.port.id == c.id && |s.receivers| == 1 && s.live == Some(0)
    ensures var t := Step(c, Step(c, s, RecreateActions(c)[0]), RecreateActions(c)[1]);
            t.port == s.port && |t.receivers| == 1 && t.live == None && s.net <= t.net
  {
  }

  lemma RecreatedStep(c: Config, s: State)
    requires s.port.id == c.id && |s.receivers| == 1 && s.live == None
    requires Message(ROUTE, c.id, Open(1, c.window)) in s.net
    ensures var t := Step(c, s, RecreateActions(c)[2]);
            && t.port == s.port && s.net <= t.net
            && t.live == Some(1) && |t.receivers| == 2 && t.receivers[1].state.next == 0
  {
  }

  lemma RecreateRun(c: Config, h: History) returns (longer: History)
    requires IsRun(c, h)
    requires var s := Last(h);
             && s.port.id == c.id && |s.receivers| == 1 && s.live == Some(0)
             && Message(ROUTE, c.id, Open(1, c.window)) in s.net
    ensures IsRun(c, longer)
    ensures var s, t := Last(h), Last(longer);
            && t.port == s.port && s.net <= t.net
            && t.live == Some(1) && |t.receivers| == 2 && t.receivers[1].state.next == 0
  {
    hide Step;
    var actions := RecreateActions(c);
    RemovedStep(c, Last(h));
    longer := Do(c, h, actions[0]);
    longer := Do(c, longer, actions[1]);
    RecreatedStep(c, Last(longer));
    longer := Do(c, longer, actions[2]);
  }

  /**
   * A run at whose end the live receiver expects offset 0 although 5 bytes are acknowledged: the peer's
   * Open of another stream removes the receiver, a delayed copy of the first Open creates it anew.
   */
  lemma ReceiverBehindAck(c: Config) returns (h: History)
    requires c.window >= 5 && c.capacity >= 1
    ensures IsRun(c, h)
    ensures var s := Last(h);
            s.live == Some(1) && |s.receivers| == 2 && s.receivers[1].state.next == 0 && s.port.lastAck == 5
  {
    hide Step;
    h := AckRun(c);
    h := RecreateRun(c, h);
  }

  /** The receiver was created anew before anything was acknowledged; the old one's ACK is still on the wire. */
  ghost predicate Renewed(c: Config, s: State) {
    && s.port.id == c.id && s.port.target == ROUTE && s.port.epoch == 1 && s.port.lastAck == 0
    && s.port.sender.epoch == 1 && s.port.sender.end == 5
    && |s.receivers| == 2 && s.live == Some(1) && s.receivers[1].state.next == 0
    && Message(ROUTE, c.id, Ack(1, 5, c.window)) in s.net
  }

  lemma RenewedRun(c: Config) returns (h: History)
    requires c.window >= 5 && c.capacity >= 1
    ensures IsRun(c, h) && Renewed(c, Last(h))
  {
    hide Step;
    h := DeliverRun(c);
    h := RecreateRun(c, h);
  }

  lemma OvertakenStep(c: Config, s: State)
    requires Renewed(c, s)
    ensures var t := Step(c, s, Env(AckArrives(Message(ROUTE, c.id, Ack(1, 5, c.window)))));
            t.live == Some(1) && t.receivers == s.receivers && t.port.lastAck == 5
  {
    hide DropAcked;
  }

  /** Nothing is acknowledged when the receiver is created anew, and yet it falls behind. */
  lemma BehindLater(c: Config) returns (h: History, n: nat)
    requires c.window >= 5 && c.capacity >= 1
    ensures IsRun(c, h) && n + 2 == |h.states|
    ensures var s, t := h.states[n], h.states[n + 1];
            && s.live == Some(1) && s.port.lastAck == 0
            && t.live == Some(1) && |t.receivers| == 2 && t.receivers[1].state.next == 0 && t.port.lastAck == 5
  {
    hide Step;
    h := RenewedRun(c);
    n := |h.states| - 1;
    OvertakenStep(c, Last(h));
    h := Then(c, h, Env(AckArrives(Message(ROUTE, c.id, Ack(1, 5, c.window)))));
  }

  /** A loss, a repeated OpenAck, the signal of the loss, and its token taken. */
  function LossActions(c: Config): seq<Action> {
    [Env(PathDown(Some(TransportLost))), Env(OpenAckArrives(Message(ROUTE, c.id, OpenAck(1, c.window)))),
     Env(SignalLost), Lifecycle(LossSeen)]
  }

  lemma ReopeningSteps(c: Config, s: State)
    requires Opened(c, s)
    ensures var a := LossActions(c);
            var lost := Step(c, s, a[0]);
            var reopened := Step(c, lost, a[1]);
            var recovering := Step(c, Step(c, reopened, a[2]), a[3]);
            && !lost.port.ready
            && reopened.port.ready && reopened.port.epoch == 1 && reopened.life == LifeParked
            && recovering.port.ready && recovering.port.epoch == 1 && recovering.life == RecoverIdle({})
  {
  }

  /**
   * A run in which the open path is lost and a repeated OpenAck makes it ready again, at epoch 1, before
   * the lifecycle has seen the loss; the signal on its way then starts a recovery of the ready path.
   */
  lemma ReopenedByOpenAck(c: Config) returns (h: History, n: nat)
    ensures IsRun(c, h) && |h.states| == n + 5
    ensures h.states[n].port.ready && !h.states[n + 1].port.ready
    ensures h.states[n + 2].port.ready && h.states[n + 2].port.epoch == 1 && h.states[n + 2].life == LifeParked
    ensures h.states[n + 4].port.ready && h.states[n + 4].port.epoch == 1 && h.states[n + 4].life == RecoverIdle({})
  {
    hide Step;
    h := OpenRun(c);
    n := |h.states| - 1;
    ReopeningSteps(c, Last(h));
    h := Then(c, h, LossActions(c)[0]);
    h := Then(c, h, LossActions(c)[1]);
    h := Then(c, h, LossActions(c)[2]);
    h := Then(c, h, LossActions(c)[3]);
  }
}
