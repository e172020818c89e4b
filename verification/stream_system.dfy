/**
 * One outbound stream end to end, as a step system: the TUN reader, the stream writer,
 * the lifecycle and recovery loop, the SDK reader with its senders' callbacks, and the
 * remote receivers with their ACK goroutines, over a network that may drop, delay,
 * duplicate and reorder frames, and that also carries the frames of other streams
 * between the same peers. Each step is one critical section or channel operation;
 * a step whose guard does not hold changes nothing.
 */
module StreamSystem {
  import opened Common
  import opened StreamCodec
  import opened StreamLog
  import opened StreamSdk
  import opened StreamPath
  import opened StallDetector
  import Rx = StreamReceiver

  datatype Config = Config(id: nat, window: nat, capacity: nat, timeout: nat)

  /** Program points of writeStreamLoop between its critical sections. */
  datatype WriterPc =
    | NotStarted
    | Top
    | IdleSampled(progress: Progress, outstanding: bool, at: nat)
    | IdleFailing(progress: Progress)
    | Draining
    | AtPath
    | WaitReady(gate: nat)
    | TryData
    | Full(session: Session)
    | FullSampled(progress: Progress, at: nat)
    | StallFailing(progress: Progress)
    | WaitWake
    | SendingData(session: Session, frame: Frame)
    | SendFailing(session: Session, epoch: nat)
    | Exited

  /**
   * The writer's locals. `stallAt` and `idleAt` are the steps at which the held progress
   * was first sampled; `ackSeen` and `windowSeen` are the acknowledged offset and the sender's
   * window when it was last found full.
   */
  datatype Writer = Writer(
    pc: WriterPc, pending: Option<Bytes>, overflow: Option<Packet>,
    stall: Option<Held>, stallAt: nat, idle: Option<Held>, idleAt: nat,
    ackSeen: nat, windowSeen: nat)

  /** Program points of runStream and recoverStream. `tried` are the candidates used so far. */
  datatype Life =
    | OpenIdle(tried: set<Session>)
    | OpenSending(session: Session, tried: set<Session>, gate: nat)
    | OpenWaiting(session: Session, tried: set<Session>, gate: nat)
    | Activating
    | LifeParked
    | RecoverIdle(tried: set<Session>)
    | ResumeBegun(session: Session, tried: set<Session>, epoch: nat, from: nat)
    | ResumeSending(session: Session, tried: set<Session>, epoch: nat, from: nat, frames: seq<Frame>)
    | ResumeWaiting(session: Session, tried: set<Session>, epoch: nat, from: nat, frames: seq<Frame>)
    | Replaying(session: Session, tried: set<Session>, epoch: nat, from: nat, frames: seq<Frame>, sent: nat)
    | Ended

  /** History of the current Open or Resume attempt: the ACK that released it, and failures reported. */
  datatype Attempt = Attempt(acked: Option<Message>, failed: bool)

  /**
   * `log` is every payload accepted by the sender, `issued` the Data frames handed to the
   * wire under the current epoch, starting at payload `start`. `losing` and `waking` count
   * goroutines that released the path mutex and have yet to signal. `admitted` and `taken`
   * are the packets that entered and left the queue.
   */
  datatype State = State(
    port: Port, life: Life, writer: Writer, attempt: Attempt,
    queue: seq<Packet>, admitted: seq<Packet>, taken: seq<Packet>,
    log: seq<Bytes>, issued: seq<Frame>, start: nat,
    losing: nat, waking: nat, active: bool,
    receivers: seq<Rx.Receiver>, live: Option<nat>,
    net: set<Message>, now: nat, steps: nat)

  function Init(c: Config): State {
    State(NewPort(c.id, c.window), OpenIdle({}), Writer(NotStarted, None, None, None, 0, None, 0, 0, 0),
          Attempt(None, false), [], [], [], [], [], 0, 0, 0, false, [], None, {}, 0, 0)
  }

  function Emit(net: set<Message>, m: Message, reached: bool): set<Message> {
    if reached then net + {m} else net
  }

  // ------------------------------------------------- environment of the port

  datatype EnvAction =
    | Enqueue(packet: Packet)
    | OpenAckArrives(m: Message)
    | AckArrives(m: Message)
    | SendResult(id: nat, session: Session, epoch: nat)
    | PathDown(err: Option<Failure>)
    | RestartAsked(session: Session)
    | ClosePort
    | SignalLost
    | SignalWake
    | Deactivate
    | ForeignFrame(m: Message)
    | ClockTick

  /** The effect of a failure report: a lost ready path owes a signal, a failed attempt is remembered. */
  function Fail(s: State, next: Port, matched: bool): State {
    s.(port := next,
       losing := if matched && s.port.ready then s.losing + 1 else s.losing,
       attempt := if matched && !s.port.ready then s.attempt.(failed := true) else s.attempt)
  }

  /** readTUNLoop: only a ready path takes the packet, and a full queue drops it. */
  function DoEnqueue(c: Config, s: State, packet: Packet): State {
    if Admissible(packet) && s.port.ready && |s.queue| < c.capacity then
      s.(queue := s.queue + [packet], admitted := s.admitted + [packet])
    else s
  }

  function DoOpenAck(s: State, m: Message): State {
    if m in s.net && m.id == s.port.id && m.frame.OpenAck?
    then s.(port := AcceptOpenAck(s.port, m.session, m.frame.epoch)) else s
  }

  function DoAck(s: State, m: Message): State {
    if m !in s.net || m.id != s.port.id || !m.frame.Ack? then s
    else
      var Ack(epoch, offset, window) := m.frame;
      s.(port := Acknowledge(s.port, m.session, epoch, offset, window),
         attempt := if AckTaken(s.port, m.session, epoch, offset, window) && s.port.armed
                    then s.attempt.(acked := Some(m)) else s.attempt)
  }

  function DoSendResult(s: State, session: Session, epoch: nat): State {
    Fail(s, FailPath(s.port, session, epoch, SendFailed), OnPath(s.port, session, epoch))
  }

  function DoPathDown(s: State, err: Option<Failure>): State {
    Fail(s, MarkPathLost(s.port, err), s.port.ready || err.Some?)
  }

  function EnvStep(c: Config, s: State, a: EnvAction): State {
    match a
    case Enqueue(packet) => DoEnqueue(c, s, packet)
    case OpenAckArrives(m) => DoOpenAck(s, m)
    case AckArrives(m) => DoAck(s, m)
    case SendResult(id, session, epoch) => if id == s.port.id then DoSendResult(s, session, epoch) else s
    case PathDown(err) => DoPathDown(s, err)
    case RestartAsked(session) => s.(port := RequestRestart(s.port, session))
    case ClosePort => s.(port := s.port.(done := true))
    case SignalLost =>
      if s.losing == 0 then s else s.(port := s.port.(lost := true), losing := s.losing - 1, waking := s.waking + 1)
    case SignalWake => if s.waking == 0 then s else s.(port := s.port.(wake := true), waking := s.waking - 1)
    case Deactivate => if s.port.ready then s else s.(active := false)
    case ForeignFrame(m) => if m.id != s.port.id || m.frame.Close? then s.(net := s.net + {m}) else s
    case ClockTick => s.(now := s.now + 1)
  }

  // ------------------------------------------------- lifecycle and recovery

  datatype LifeAction =
    | TryOpen(session: Session)
    | OpenSent(err: bool, reached: bool)
    | OpenReady
    | OpenRejected
    | OpenTimedOut
    | Activate
    | LossSeen
    | Finish
    | TryResume(session: Session)
    | ResumeSender
    | ResumeSent(err: bool, reached: bool)
    | ResumeAcked
    | ResumeRejected
    | ResumeTimedOut
    | ReplayNext(err: bool, reached: bool)
    | CompleteReplay

  function End(s: State): State {
    s.(life := Ended, port := s.port.(done := true))
  }

  /** A candidate is used at most once per round: the candidate list holds no duplicates. */
  function DoTryOpen(s: State, session: Session): State {
    if s.life.OpenIdle? && session != NO_SESSION && session !in s.life.tried then
      var port := BeginOpen(s.port, session);
      s.(port := port, life := OpenSending(session, s.life.tried + {session}, port.gate),
         attempt := Attempt(None, false))
    else s
  }

  function DoOpenSent(c: Config, s: State, err: bool, reached: bool): State {
    if !s.life.OpenSending? then s
    else
      s.(net := Emit(s.net, Message(s.life.session, s.port.id, Open(1, c.window)), reached),
         life := if err then OpenIdle(s.life.tried) else OpenWaiting(s.life.session, s.life.tried, s.life.gate))
  }

  function DoActivate(s: State): State {
    if !s.life.Activating? then s
    else
      s.(life := LifeParked, active := true,
         writer := if s.writer.pc == NotStarted then s.writer.(pc := Top) else s.writer)
  }

  function DoTryResume(s: State, session: Session): State {
    if s.life.RecoverIdle? && session != NO_SESSION && session !in s.life.tried
       && |s.port.sender.retained| <= |s.log| then
      var epoch := s.port.epoch + 1;
      s.(port := BeginResume(s.port, session, epoch),
         life := ResumeBegun(session, s.life.tried + {session}, epoch, s.port.lastAck),
         attempt := Attempt(None, false), issued := [], start := |s.log| - |s.port.sender.retained|)
    else s
  }

  function DoResumeSender(s: State): State {
    if !s.life.ResumeBegun? then s
    else
      match SenderResumed(s.port, s.life.epoch, s.life.from)
      case None => End(s)
      case Some((port, frames)) =>
        s.(port := port, life := ResumeSending(s.life.session, s.life.tried, s.life.epoch, s.life.from, frames))
  }

  function DoResumeSent(s: State, err: bool, reached: bool): State {
    if !s.life.ResumeSending? then s
    else
      var l := s.life;
      s.(net := Emit(s.net, Message(l.session, s.port.id, Resume(l.epoch, l.from)), reached),
         life := if err then RecoverIdle(l.tried) else ResumeWaiting(l.session, l.tried, l.epoch, l.from, l.frames))
  }

  function DoResumeAcked(s: State): State {
    if s.life.ResumeWaiting? && s.port.resumed then
      var l := s.life;
      s.(port := s.port.(resumed := false), life := Replaying(l.session, l.tried, l.epoch, l.from, l.frames, 0))
    else s
  }

  function DoReplayNext(s: State, err: bool, reached: bool): State {
    if s.life.Replaying? && s.life.sent < |s.life.frames| then
      var l := s.life;
      var frame := l.frames[l.sent];
      s.(net := Emit(s.net, Message(l.session, s.port.id, frame), reached), issued := s.issued + [frame],
         life := if err then RecoverIdle(l.tried) else l.(sent := l.sent + 1))
    else s
  }

  function DoCompleteReplay(s: State): State {
    if s.life.Replaying? && s.life.sent == |s.life.frames| then
      s.(port := CompleteResume(s.port, s.life.session, s.life.epoch),
         life := if ResumeCompletes(s.port, s.life.session, s.life.epoch) then Activating
                 else RecoverIdle(s.life.tried))
    else s
  }

  function LifeStep(c: Config, s: State, a: LifeAction): State {
    match a
    case TryOpen(session) => DoTryOpen(s, session)
    case OpenSent(err, reached) => DoOpenSent(c, s, err, reached)
    case OpenReady => if s.life.OpenWaiting? && s.life.gate in s.port.closed then s.(life := Activating) else s
    case OpenRejected =>
      if s.life.OpenWaiting? && s.port.failure.Some?
      then s.(port := s.port.(failure := None), life := OpenIdle(s.life.tried)) else s
    case OpenTimedOut => if s.life.OpenWaiting? then s.(life := OpenIdle(s.life.tried)) else s
    case Activate => DoActivate(s)
    case LossSeen =>
      if s.life.LifeParked? && s.port.lost
      then s.(port := s.port.(lost := false), life := RecoverIdle({}), active := false) else s
    case Finish =>
      if s.life.OpenIdle? || s.life.RecoverIdle? || s.life.ResumeWaiting? then End(s)
      else if (s.life.OpenWaiting? || s.life.LifeParked?) && (s.port.done || s.port.restart) then End(s)
      else s
    case TryResume(session) => DoTryResume(s, session)
    case ResumeSender => DoResumeSender(s)
    case ResumeSent(err, reached) => DoResumeSent(s, err, reached)
    case ResumeAcked => DoResumeAcked(s)
    case ResumeRejected =>
      if s.life.ResumeWaiting? && s.port.failure.Some?
      then s.(port := s.port.(failure := None), life := RecoverIdle(s.life.tried)) else s
    case ResumeTimedOut => if s.life.ResumeWaiting? then s.(life := RecoverIdle(s.life.tried)) else s
    case ReplayNext(err, reached) => DoReplayNext(s, err, reached)
    case CompleteReplay => DoCompleteReplay(s)
  }

  // ------------------------------------------------------------- the writer

  datatype WriterAction =
    | TakeOverflow
    | TakeFirst
    | SampleIdle
    | ObserveIdle
    | FailIdle
    | DrainOne
    | DrainDone
    | ReadPath
    | Released
    | OfferData
    | SampleFull
    | ObserveFull
    | FailStalled
    | WakeUp(timer: bool)
    | SendFrame(err: bool, reached: bool)
    | FailSend
    | Stop

  /** encodeStreamBatch up to its first non-blocking receive. */
  function StartBatch(w: Writer, first: Packet): Writer {
    match AppendPacket(STREAM_MAGIC, first)
    case None => w.(pc := AtPath, pending := Some(first))
    case Some(batch) => w.(pc := Draining, pending := Some(batch))
  }

  function DoTakeOverflow(s: State): State {
    if s.writer.pc == Top && s.writer.overflow.Some?
    then s.(writer := StartBatch(s.writer.(overflow := None), s.writer.overflow.value)) else s
  }

  function DoTakeFirst(s: State): State {
    if s.writer.pc == Top && s.writer.overflow.None? && s.queue != [] then
      s.(queue := s.queue[1..], taken := s.taken + [s.queue[0]], writer := StartBatch(s.writer, s.queue[0]))
    else s
  }

  /** One iteration of appendStreamBatch. */
  function DoDrainOne(s: State): State {
    if s.writer.pc == Draining && s.writer.pending.Some? && IsStreamBatch(s.writer.pending.value) && s.queue != [] then
      var packet := s.queue[0];
      var t := s.(queue := s.queue[1..], taken := s.taken + [packet]);
      match AppendPacket(s.writer.pending.value, packet)
      case None => t.(writer := s.writer.(pc := AtPath, overflow := Some(packet)))
      case Some(batch) => t.(writer := s.writer.(pending := Some(batch)))
    else s
  }

  function DoDrainDone(s: State): State {
    if s.writer.pc == Draining && s.writer.pending.Some? && (s.queue == [] || !IsStreamBatch(s.writer.pending.value))
    then s.(writer := s.writer.(pc := AtPath)) else s
  }

  function DoOfferData(s: State): State {
    if s.writer.pc != TryData || s.writer.pending.None? then s
    else
      var payload := s.writer.pending.value;
      var (port, result) := DataForReadyPath(s.port, payload);
      match result
      case NotReady => s.(writer := s.writer.(pc := AtPath))
      case WindowFull =>
        s.(writer := s.writer.(pc := Full(s.port.target),
                               ackSeen := s.port.lastAck, windowSeen := s.port.sender.window))
      case Sent(session, frame) =>
        s.(port := port, log := s.log + [payload], issued := s.issued + [frame],
           writer := s.writer.(pc := SendingData(session, frame), pending := None, stall := None))
  }

  function DoSampleFull(s: State): State {
    if !s.writer.pc.Full? then s
    else if !s.port.ready || s.port.target != s.writer.pc.session then
      s.(writer := s.writer.(pc := AtPath, stall := None))
    else
      var sample := Progress(s.port.target, s.port.epoch, s.port.lastAck, s.port.lastWindow);
      s.(writer := s.writer.(pc := FullSampled(sample, s.steps)))
  }

  function DoObserveFull(c: Config, s: State): State {
    if !s.writer.pc.FullSampled? then s
    else
      var FullSampled(p, at) := s.writer.pc;
      s.(writer := s.writer.(
           pc := if Fires(s.writer.stall, p, s.now, c.timeout) then StallFailing(p) else WaitWake,
           stall := Observe(s.writer.stall, p, s.now),
           stallAt := if Restarts(s.writer.stall, p) then at else s.writer.stallAt))
  }

  function FailUnchanged(s: State, p: Progress): State {
    Fail(s, FailPathIfAckUnchanged(s.port, p.session, p.epoch, p.ack, p.window, AckStalled),
         Unchanged(s.port, p.session, p.epoch, p.ack, p.window))
  }

  function DoFailStalled(s: State): State {
    if !s.writer.pc.StallFailing? then s
    else FailUnchanged(s, s.writer.pc.progress).(writer := s.writer.(pc := AtPath, stall := None))
  }

  /** waitWriterWake, then the check whether the backlog can still be absorbed. */
  function DoWakeUp(s: State, timer: bool): State {
    if s.writer.pc == WaitWake && (timer || s.port.wake) then
      s.(port := if timer then s.port else s.port.(wake := false),
         writer := s.writer.(pc := if s.writer.overflow.None? then Draining else AtPath))
    else s
  }

  function DoSendFrame(s: State, err: bool, reached: bool): State {
    if !s.writer.pc.SendingData? then s
    else
      var SendingData(session, frame) := s.writer.pc;
      s.(net := Emit(s.net, Message(session, s.port.id, frame), reached),
         writer := s.writer.(pc := if err then SendFailing(session, frame.epoch) else Top))
  }

  function DoFailSend(s: State): State {
    if !s.writer.pc.SendFailing? then s
    else
      var SendFailing(session, epoch) := s.writer.pc;
      DoSendResult(s, session, epoch).(writer := s.writer.(pc := Top))
  }

  function DoSampleIdle(s: State): State {
    if s.writer.pc == Top && s.writer.overflow.None? then
      s.(writer := s.writer.(pc := IdleSampled(Progress(s.port.target, s.port.epoch, s.port.lastAck, s.port.lastWindow),
                                               Outstanding(s.port), s.steps)))
    else s
  }

  function DoObserveIdle(c: Config, s: State): State {
    if !s.writer.pc.IdleSampled? then s
    else
      var IdleSampled(p, outstanding, at) := s.writer.pc;
      if !outstanding then s.(writer := s.writer.(pc := Top, idle := None))
      else
        s.(writer := s.writer.(
             pc := if Fires(s.writer.idle, p, s.now, c.timeout) then IdleFailing(p) else Top,
             idle := Observe(s.writer.idle, p, s.now),
             idleAt := if Restarts(s.writer.idle, p) then at else s.writer.idleAt))
  }

  function DoFailIdle(s: State): State {
    if !s.writer.pc.IdleFailing? then s
    else FailUnchanged(s, s.writer.pc.progress).(writer := s.writer.(pc := Top, idle := None))
  }

  function WriterStep(c: Config, s: State, a: WriterAction): State {
    match a
    case TakeOverflow => DoTakeOverflow(s)
    case TakeFirst => DoTakeFirst(s)
    case SampleIdle => DoSampleIdle(s)
    case ObserveIdle => DoObserveIdle(c, s)
    case FailIdle => DoFailIdle(s)
    case DrainOne => DoDrainOne(s)
    case DrainDone => DoDrainDone(s)
    case ReadPath => if s.writer.pc == AtPath then s.(writer := s.writer.(pc := WaitReady(s.port.gate))) else s
    case Released =>
      if s.writer.pc.WaitReady? && s.writer.pc.gate in s.port.closed then s.(writer := s.writer.(pc := TryData)) else s
    case OfferData => DoOfferData(s)
    case SampleFull => DoSampleFull(s)
    case ObserveFull => DoObserveFull(c, s)
    case FailStalled => DoFailStalled(s)
    case WakeUp(timer) => DoWakeUp(s, timer)
    case SendFrame(err, reached) => DoSendFrame(s, err, reached)
    case FailSend => DoFailSend(s)
    case Stop =>
      if s.port.done
         && ((s.writer.pc == Top && s.writer.overflow.None?) || s.writer.pc.WaitReady? || s.writer.pc == WaitWake)
      then s.(writer := s.writer.(pc := Exited)) else s
  }

  // ------------------------------------------------------- the remote process

  datatype RemoteAction =
    | OpenArrives(m: Message, reached: bool)
    | DataArrives(m: Message, sdk: Answers)
    | ResumeArrives(m: Message, sdk: Answers, reached: bool)
    | CloseArrives(m: Message)
    | AckWake(i: nat)
    | AckTake(i: nat)
    | AckSend(i: nat, reached: bool)
    | AckCancel(i: nat)

  /** A Close of the stream, or an Open of another stream by the same peer, retires the live receiver. */
  function RetireLive(s: State): State {
    if s.live.Some? && s.live.value < |s.receivers| then
      s.(receivers := s.receivers[s.live.value := Rx.StopAcks(s.receivers[s.live.value])], live := None)
    else s
  }

  /**
   * Open creates the stream's receiver, or re-targets the live one; an OpenAck answers it either way.
   * An Open of another stream leaves room for that stream's receiver only, which is not followed here.
   */
  function DoOpenArrives(s: State, m: Message, reached: bool): State {
    if m !in s.net || !m.frame.Open? then s
    else
      var t := s.(net := Emit(s.net, m.(frame := OpenAck(m.frame.epoch, m.frame.window)), reached));
      if m.id != s.port.id then RetireLive(t)
      else if s.live.Some? && s.live.value < |s.receivers| then
        t.(receivers := s.receivers[s.live.value := Rx.SetSession(s.receivers[s.live.value], m.session)])
      else
        t.(receivers := s.receivers + [Rx.NewReceiver(m.session, m.frame.epoch, m.frame.window)],
           live := Some(|s.receivers|))
  }

  function DoDataArrives(s: State, m: Message, sdk: Answers): State {
    if m in s.net && m.id == s.port.id && m.frame.Data? && s.live.Some? && s.live.value < |s.receivers| then
      var i := s.live.value;
      s.(receivers := s.receivers[i := Rx.OnData(s.receivers[i], m.frame.epoch, m.frame.offset, m.frame.payload, sdk)])
    else s
  }

  function DoResumeArrives(s: State, m: Message, sdk: Answers, reached: bool): State {
    if m in s.net && m.id == s.port.id && m.frame.Resume? && s.live.Some? && s.live.value < |s.receivers| then
      var i := s.live.value;
      var r := s.receivers[i];
      var next := Rx.OnResume(r, m.session, m.frame.epoch, sdk);
      s.(receivers := s.receivers[i := next],
         net := Emit(s.net, Message(next.session, s.port.id, Ack(m.frame.epoch, next.state.next, sdk.window)),
                     reached && Rx.ResumeTaken(r, m.frame.epoch, sdk)))
    else s
  }

  function DoAckSend(s: State, i: nat, reached: bool): State {
    if i < |s.receivers| && s.receivers[i].loop.Sending? && s.receivers[i].loop.index < |s.receivers[i].queued| then
      var r := s.receivers[i];
      var mark := r.queued[r.loop.index];
      s.(receivers := s.receivers[i := Rx.LoopSend(r)],
         net := Emit(s.net, Message(r.session, s.port.id, Rx.AckFrame(mark)), reached))
    else s
  }

  function RemoteStep(s: State, a: RemoteAction): State {
    match a
    case OpenArrives(m, reached) => DoOpenArrives(s, m, reached)
    case DataArrives(m, sdk) => DoDataArrives(s, m, sdk)
    case ResumeArrives(m, sdk, reached) => DoResumeArrives(s, m, sdk, reached)
    case CloseArrives(m) => if m in s.net && m.id == s.port.id && m.frame.Close? then RetireLive(s) else s
    case AckWake(i) => if i < |s.receivers| then s.(receivers := s.receivers[i := Rx.LoopWake(s.receivers[i])]) else s
    case AckTake(i) => if i < |s.receivers| then s.(receivers := s.receivers[i := Rx.LoopTake(s.receivers[i])]) else s
    case AckSend(i, reached) => DoAckSend(s, i, reached)
    case AckCancel(i) =>
      if i < |s.receivers| then s.(receivers := s.receivers[i := Rx.LoopCancel(s.receivers[i])]) else s
  }

  // ------------------------------------------------------------------- runs

  datatype Action =
    | Env(env: EnvAction)
    | Lifecycle(lifecycle: LifeAction)
    | Write(write: WriterAction)
    | Remote(remote: RemoteAction)

  function Apply(c: Config, s: State, a: Action): State {
    match a
    case Env(e) => EnvStep(c, s, e)
    case Lifecycle(l) => LifeStep(c, s, l)
    case Write(w) => WriterStep(c, s, w)
    case Remote(r) => RemoteStep(s, r)
  }

  function Step(c: Config, s: State, a: Action): State {
    Apply(c, s, a).(steps := s.steps + 1)
  }

  /** A run of the system: its steps, and the states before, between and after them. */
  datatype History = History(states: seq<State>, actions: seq<Action>)

  ghost predicate Linked(c: Config, h: History, n: nat)
    requires n < |h.actions| && n + 1 < |h.states|
  {
    h.states[n + 1] == Step(c, h.states[n], h.actions[n])
  }

  ghost predicate IsRun(c: Config, h: History) {
    && |h.states| == |h.actions| + 1
    && h.states[0] == Init(c)
    && forall n :: 0 <= n < |h.actions| ==> Linked(c, h, n)
  }

  function Start(c: Config): (h: History)
    ensures IsRun(c, h) && |h.actions| == 0
  {
    History([Init(c)], [])
  }

  /** Any step can follow any run. */
  function Then(c: Config, h: History, a: Action): (longer: History)
    requires IsRun(c, h)
    ensures IsRun(c, longer) && longer.actions == h.actions + [a]
    ensures longer.states[..|h.states|] == h.states
    ensures longer.states[|h.states|] == Step(c, h.states[|h.states| - 1], a)
  {
    var next := History(h.states + [Step(c, h.states[|h.states| - 1], a)], h.actions + [a]);
    assert forall n :: 0 <= n < |h.actions| ==> Linked(c, h, n) ==> Linked(c, next, n);
    next
  }

  /** Every sequence of steps has its run. */
  lemma {:induction false} RunExists(c: Config, actions: seq<Action>) returns (h: History)
    ensures IsRun(c, h) && h.actions == actions
  {
    hide Step;
    if actions == [] {
      h := Start(c);
    } else {
      var before := RunExists(c, actions[..|actions| - 1]);
      h := Then(c, before, actions[|actions| - 1]);
    }
  }

  lemma {:induction false} RunSteps(c: Config, h: History, n: nat)
    requires IsRun(c, h) && n < |h.states|
    ensures h.states[n].steps == n
  {
    hide Apply;
    if n > 0 {
      RunSteps(c, h, n - 1);
      assert Linked(c, h, n - 1);
    }
  }
}
