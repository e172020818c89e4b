/** What a single step may change: progress only goes forward, and few steps open the gate. */
module StreamEffects {
  import opened Common
  import opened StreamCodec
  import opened StreamLog
  import opened StreamSdk
  import opened StreamPath
  import opened StallDetector
  import opened StreamSystem

  /** Epochs, offsets, the log, the clock and the set of closed gates never go back. */
  ghost predicate Forward(s: State, t: State) {
    && s.port.epoch <= t.port.epoch && s.port.lastAck <= t.port.lastAck && s.port.lastSent <= t.port.lastSent
    && s.now <= t.now && s.log <= t.log && s.port.closed <= t.port.closed
  }

  /** A step that opens no gate, and creates a Data frame only on a ready path. */
  ghost predicate Quiet(s: State, t: State) {
    && Forward(s, t)
    && t.port.closed == s.port.closed
    && (t.port.ready ==> s.port.ready)
    && (t.log == s.log || s.port.ready)
  }

  /** A step that opens the current gate of a path that was not ready. */
  ghost predicate Opens(s: State, t: State) {
    && Forward(s, t) && t.log == s.log
    && !s.port.ready && t.port.ready && t.port.closed == s.port.closed + {s.port.gate}
  }

  predicate OpenAckOpens(s: State, a: Action) {
    && a.Env? && a.env.OpenAckArrives? && a.env.m in s.net && a.env.m.id == s.port.id && a.env.m.frame.OpenAck?
    && OpenAckMatches(s.port, a.env.m.session, a.env.m.frame.epoch)
  }

  predicate ReplayOpens(s: State, a: Action) {
    && a == Lifecycle(CompleteReplay) && s.life.Replaying? && s.life.sent == |s.life.frames|
    && ResumeCompletes(s.port, s.life.session, s.life.epoch)
  }

  lemma FailQuiet(s: State, err: Failure, matched: bool)
    ensures Quiet(s, Fail(s, if matched then Lose(s.port, err) else s.port, matched))
  {
  }

  lemma AckQuiet(s: State, m: Message)
    ensures Quiet(s, DoAck(s, m))
  {
    hide DropAcked;
  }

  lemma EnvQuiet(c: Config, s: State, a: EnvAction)
    ensures if OpenAckOpens(s, Env(a)) then Opens(s, EnvStep(c, s, a)) else Quiet(s, EnvStep(c, s, a))
  {
    hide Quiet, DoAck, Fail;
    match a
    case AckArrives(m) => AckQuiet(s, m);
    case SendResult(_, session, epoch) =>
      StillQuiet(s);
      FailQuiet(s, SendFailed, OnPath(s.port, session, epoch));
    case PathDown(err) =>
      var matched := s.port.ready || err.Some?;
      var cause := if err.Some? then err.value else TransportLost;
      FailQuiet(s, cause, matched);
      assert MarkPathLost(s.port, err) == if matched then Lose(s.port, cause) else s.port;
    case OpenAckArrives(m) => OpenAckEffect(s, m);
    case _ => SmallEnvQuiet(c, s, a);
  }

  lemma StillQuiet(s: State)
    ensures Quiet(s, s)
  {
  }

  lemma OpenAckEffect(s: State, m: Message)
    ensures if OpenAckOpens(s, Env(OpenAckArrives(m))) then Opens(s, DoOpenAck(s, m)) else Quiet(s, DoOpenAck(s, m))
  {
  }

  lemma SmallEnvQuiet(c: Config, s: State, a: EnvAction)
    requires !a.OpenAckArrives? && !a.AckArrives? && !a.SendResult? && !a.PathDown?
    ensures Quiet(s, EnvStep(c, s, a))
  {
  }

  lemma OpenQuiet(c: Config, s: State, session: Session, err: bool, reached: bool)
    ensures Quiet(s, DoTryOpen(s, session)) && Quiet(s, DoOpenSent(c, s, err, reached)) && Quiet(s, DoActivate(s))
  {
  }

  lemma ResumeQuiet(s: State, session: Session, err: bool, reached: bool)
    ensures Quiet(s, DoTryResume(s, session)) && Quiet(s, DoResumeSent(s, err, reached)) && Quiet(s, DoResumeAcked(s))
  {
  }

  lemma ReplayQuiet(s: State, err: bool, reached: bool)
    ensures Quiet(s, DoResumeSender(s)) && Quiet(s, DoReplayNext(s, err, reached))
  {
    hide DropAcked, Replay;
  }

  lemma CompleteEffect(s: State)
    ensures if ReplayOpens(s, Lifecycle(CompleteReplay)) then Opens(s, DoCompleteReplay(s))
            else Quiet(s, DoCompleteReplay(s))
  {
  }

  lemma WaitingQuiet(c: Config, s: State, a: LifeAction)
    requires a.OpenReady? || a.OpenRejected? || a.OpenTimedOut? || a.LossSeen? || a.Finish?
      || a.ResumeRejected? || a.ResumeTimedOut?
    ensures Quiet(s, LifeStep(c, s, a))
  {
  }

  lemma LifeQuiet(c: Config, s: State, a: LifeAction)
    ensures if ReplayOpens(s, Lifecycle(a)) then Opens(s, LifeStep(c, s, a)) else Quiet(s, LifeStep(c, s, a))
  {
    hide Quiet, Opens, DoTryOpen, DoOpenSent, DoActivate, DoTryResume, DoResumeSent, DoResumeAcked, DoResumeSender,
         DoReplayNext, DoCompleteReplay;
    match a
    case TryOpen(session) => OpenQuiet(c, s, session, false, false);
    case OpenSent(err, reached) => OpenQuiet(c, s, 0, err, reached);
    case Activate => OpenQuiet(c, s, 0, false, false);
    case TryResume(session) => ResumeQuiet(s, session, false, false);
    case ResumeSent(err, reached) => ResumeQuiet(s, 0, err, reached);
    case ResumeAcked => ResumeQuiet(s, 0, false, false);
    case ResumeSender => ReplayQuiet(s, false, false);
    case ReplayNext(err, reached) => ReplayQuiet(s, err, reached);
    case CompleteReplay => CompleteEffect(s);
    case _ => WaitingQuiet(c, s, a);
  }

  lemma TakeQuiet(s: State)
    ensures Quiet(s, DoTakeOverflow(s)) && Quiet(s, DoTakeFirst(s)) && Quiet(s, DoDrainOne(s))
    ensures Quiet(s, DoDrainDone(s))
  {
    hide AppendPacket, IsStreamBatch;
  }

  lemma DataAdvances(p: Port, payload: Bytes)
    requires p.lastSent == p.sender.end
    ensures var (q, result) := DataForReadyPath(p, payload);
            && q.epoch == p.epoch && q.lastAck == p.lastAck && q.lastSent >= p.lastSent
            && q.closed == p.closed && q.ready == p.ready
            && (!p.ready ==> result.NotReady?)
  {
  }

  lemma OfferQuiet(s: State)
    requires s.port.lastSent == s.port.sender.end
    ensures Quiet(s, DoOfferData(s))
  {
    hide DataForReadyPath;
    if s.writer.pending.Some? {
      DataAdvances(s.port, s.writer.pending.value);
    }
  }

  lemma SampleQuiet(s: State)
    ensures Quiet(s, DoSampleFull(s)) && Quiet(s, DoSampleIdle(s))
  {
  }

  lemma WakeSendQuiet(s: State, timer: bool, err: bool, reached: bool)
    ensures Quiet(s, DoWakeUp(s, timer)) && Quiet(s, DoSendFrame(s, err, reached))
  {
  }

  lemma ObserveQuiet(c: Config, s: State)
    ensures Quiet(s, DoObserveFull(c, s)) && Quiet(s, DoObserveIdle(c, s))
  {
    hide Fires, Observe, Restarts;
  }

  lemma ReportQuiet(s: State)
    ensures Quiet(s, DoFailStalled(s)) && Quiet(s, DoFailIdle(s)) && Quiet(s, DoFailSend(s))
  {
    hide Fail;
    if s.writer.pc.StallFailing? || s.writer.pc.IdleFailing? {
      var p := s.writer.pc.progress;
      FailQuiet(s, AckStalled, Unchanged(s.port, p.session, p.epoch, p.ack, p.window));
    } else if s.writer.pc.SendFailing? {
      FailQuiet(s, SendFailed, OnPath(s.port, s.writer.pc.session, s.writer.pc.epoch));
    }
  }

  lemma WriterQuiet(c: Config, s: State, a: WriterAction)
    requires s.port.lastSent == s.port.sender.end
    ensures Quiet(s, WriterStep(c, s, a))
  {
    hide DoTakeOverflow, DoTakeFirst, DoDrainOne, DoDrainDone, DoOfferData, DoSampleFull, DoObserveFull, DoSampleIdle,
         DoObserveIdle, DoWakeUp, DoSendFrame, DoFailStalled, DoFailIdle, DoFailSend;
    match a
    case OfferData => OfferQuiet(s);
    case SampleFull => SampleQuiet(s);
    case ObserveFull => ObserveQuiet(c, s);
    case SampleIdle => SampleQuiet(s);
    case ObserveIdle => ObserveQuiet(c, s);
    case WakeUp(timer) => WakeSendQuiet(s, timer, false, false);
    case SendFrame(err, reached) => WakeSendQuiet(s, false, err, reached);
    case FailStalled => ReportQuiet(s);
    case FailIdle => ReportQuiet(s);
    case FailSend => ReportQuiet(s);
    case ReadPath =>
    case Released =>
    case Stop =>
    case _ => TakeQuiet(s);
  }

  lemma RemoteKeepsPort(s: State, r: RemoteAction)
    ensures var t := RemoteStep(s, r);
            t.port == s.port && t.log == s.log && t.now == s.now && t.writer == s.writer && t.life == s.life
  {
  }

  /** Only a matching OpenAck or a completed replay opens the gate; every other step is quiet. */
  lemma StepOpens(c: Config, s: State, a: Action)
    requires s.port.lastSent == s.port.sender.end
    ensures if OpenAckOpens(s, a) || ReplayOpens(s, a) then Opens(s, Step(c, s, a)) else Quiet(s, Step(c, s, a))
  {
    hide EnvStep, LifeStep, WriterStep, RemoteStep;
    match a
    case Env(e) => EnvQuiet(c, s, e);
    case Lifecycle(l) => LifeQuiet(c, s, l);
    case Write(w) => WriterQuiet(c, s, w);
    case Remote(r) => RemoteKeepsPort(s, r);
  }

  /** Only the writer's offer of its pending batch extends the log. */
  lemma OnlyOffersExtend(c: Config, s: State, a: Action)
    requires a != Write(OfferData)
    ensures Step(c, s, a).log == s.log
  {
    hide EnvStep, LifeStep, WriterStep, RemoteStep;
    match a
    case Env(e) => EnvKeepsLog(c, s, e);
    case Lifecycle(l) => LifeKeepsLog(c, s, l);
    case Write(w) => WriterKeepsLog(c, s, w);
    case Remote(r) => RemoteKeepsPort(s, r);
  }

  lemma EnvKeepsLog(c: Config, s: State, a: EnvAction)
    ensures EnvStep(c, s, a).log == s.log
  {
    hide Acknowledge, FailPath, MarkPathLost, AcceptOpenAck;
  }

  lemma LifeKeepsLog(c: Config, s: State, a: LifeAction)
    ensures LifeStep(c, s, a).log == s.log
  {
    hide SenderResumed, BeginResume, BeginOpen, CompleteResume;
  }

  lemma WriterKeepsLog(c: Config, s: State, a: WriterAction)
    requires a != OfferData
    ensures WriterStep(c, s, a).log == s.log
  {
    hide StartBatch, AppendPacket, IsStreamBatch, Fires, Observe, Restarts, FailPath, FailPathIfAckUnchanged;
  }
}
