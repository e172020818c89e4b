/** What is on the wire: every send of a run puts its frame there, and a replay puts all of its frames there. */
module StreamWire {
  import opened Common
  import opened StreamCodec
  import opened StreamLog
  import opened StreamSdk
  import opened StreamPath
  import opened StallDetector
  import opened StreamSystem
  import opened StreamInvariant
  import opened StreamEffects
  import opened StreamTheorems
  import StreamLag
  import Rx = StreamReceiver

  /** The message went out; whether it got past the first hop is up to the network. */
  predicate Sends(s: State, t: State, m: Message, reached: bool) {
    t.net == if reached then s.net + {m} else s.net
  }

  // --------------------------------------------------------- single frames

  lemma OpeningFacts(c: Config, s: State)
    requires Inv(c, s)
    ensures s.life.OpenSending? || s.life.OpenWaiting? ==> s.life.session == s.port.target
    ensures s.life.OpenSending? || s.life.OpenWaiting? ==> s.life.gate == s.port.gate || s.life.gate in s.port.closed
  {
    hide GateOk, CountersOk, LogOk, NetOk, ReceiversOk, ConfirmedOk, QueueOk, ConservedOk, WriterOk, CreditOk,
         EpochOk, WireOk, ReplayOk, AttemptOk, SignalOk, FromOk, CurrentResumeOk;
  }

  lemma FramesAreLog(frames: seq<Frame>, from: nat, log: seq<Bytes>, start: nat, epoch: nat)
    requires FramesOk(frames, from, log, start, epoch)
    ensures start + |frames| == |log|
    ensures forall k :: 0 <= k < |frames| ==> frames[k] == LogFrame(log, start + k, epoch)
  {
    hide Off;
  }

  lemma LifeFacts(c: Config, s: State)
    requires Inv(c, s)
    ensures Resuming(s.life) ==> s.life.session == s.port.target && s.life.epoch == s.port.epoch
    ensures s.life.ResumeSending? || s.life.ResumeWaiting? || s.life.Replaying? ==>
      FramesOk(s.life.frames, s.life.from, s.log, s.start, s.port.epoch)
  {
    hide GateOk, CountersOk, LogOk, NetOk, ReceiversOk, ConfirmedOk, QueueOk, ConservedOk, WriterOk, CreditOk,
         EpochOk, WireOk, ReplayOk, AttemptOk, SignalOk, FromOk, CurrentResumeOk, FramesOk;
  }

  /** An attempt is for the current session and epoch, and its frames are the whole log from the Resume offset on. */
  lemma ResumingFacts(c: Config, s: State)
    requires Inv(c, s)
    ensures Resuming(s.life) ==>
      && s.life.session == s.port.target && s.life.epoch == s.port.epoch && !s.port.ready
      && s.start <= |s.log| && s.life.from == Off(s.log, s.start)
    ensures s.life.ResumeSending? || s.life.ResumeWaiting? || s.life.Replaying? ==>
      && s.start + |s.life.frames| == |s.log|
      && forall k :: 0 <= k < |s.life.frames| ==> s.life.frames[k] == LogFrame(s.log, s.start + k, s.port.epoch)
  {
    hide Inv, FramesOk, Off;
    ShutWhileResuming(c, s);
    ResumeFrom(c, s);
    LifeFacts(c, s);
    if s.life.ResumeSending? || s.life.ResumeWaiting? || s.life.Replaying? {
      FramesAreLog(s.life.frames, s.life.from, s.log, s.start, s.port.epoch);
    }
  }

  /** An Open goes out on the current session; its answer is awaited, or after an error the next candidate is due. */
  lemma OpenIsSent(c: Config, h: History, n: nat, err: bool, reached: bool)
    requires IsRun(c, h) && n < |h.actions| && h.actions[n] == Lifecycle(OpenSent(err, reached))
    ensures var s, t := h.states[n], h.states[n + 1];
            s.life.OpenSending? ==>
              && Sends(s, t, Message(s.port.target, s.port.id, Open(1, c.window)), reached)
              && t == s.(net := t.net, life := t.life, steps := s.steps + 1)
              && t.life == if err then OpenIdle(s.life.tried) else OpenWaiting(s.port.target, s.life.tried, s.life.gate)
  {
    hide Inv, EnvStep, WriterStep, RemoteStep;
    AlwaysInv(c, h, n);
    assert Linked(c, h, n);
    OpeningFacts(c, h.states[n]);
  }

  /** A Resume goes out on the current session, under the current epoch, from the offset its replay starts at. */
  lemma ResumeIsSent(c: Config, h: History, n: nat, err: bool, reached: bool)
    requires IsRun(c, h) && n < |h.actions| && h.actions[n] == Lifecycle(ResumeSent(err, reached))
    ensures var s, t := h.states[n], h.states[n + 1];
            s.life.ResumeSending? ==>
              && s.start <= |s.log|
              && Sends(s, t, Message(s.port.target, s.port.id, Resume(s.port.epoch, Off(s.log, s.start))), reached)
              && t == s.(net := t.net, life := t.life, steps := s.steps + 1)
              && t.life == if err then RecoverIdle(s.life.tried)
                           else ResumeWaiting(s.port.target, s.life.tried, s.port.epoch, Off(s.log, s.start),
                                              s.life.frames)
  {
    hide Inv, EnvStep, WriterStep, RemoteStep, Off, LogFrame;
    AlwaysInv(c, h, n);
    assert Linked(c, h, n);
    ResumingFacts(c, h.states[n]);
  }

  /** The frame that a replay sends as number `k`. */
  function Replayed(s: State, k: nat): Message
    requires s.start + k < |s.log|
  {
    Message(s.port.target, s.port.id, Data(s.port.epoch, Off(s.log, s.start + k), s.log[s.start + k]))
  }

  /** A replay at its frame number `k` sends exactly payload number `start + k` of the log, with its own boundaries. */
  lemma FrameIsReplayed(c: Config, h: History, n: nat, err: bool, reached: bool)
    requires IsRun(c, h) && n < |h.actions| && h.actions[n] == Lifecycle(ReplayNext(err, reached))
    ensures var s, t := h.states[n], h.states[n + 1];
            s.life.Replaying? && s.life.sent < |s.life.frames| ==>
              && s.start + |s.life.frames| == |s.log|
              && Sends(s, t, Replayed(s, s.life.sent), reached)
              && t.issued == s.issued + [Replayed(s, s.life.sent).frame]
              && t == s.(net := t.net, issued := t.issued, life := t.life, steps := s.steps + 1)
              && t.life == if err then RecoverIdle(s.life.tried) else s.life.(sent := s.life.sent + 1)
  {
    hide Inv, EnvStep, WriterStep, RemoteStep, Off;
    AlwaysInv(c, h, n);
    assert Linked(c, h, n);
    ResumingFacts(c, h.states[n]);
  }

  /** The frame of an accepted payload goes out on its session; an error is due to be reported for that path. */
  lemma DataIsSent(c: Config, h: History, n: nat, err: bool, reached: bool)
    requires IsRun(c, h) && n < |h.actions| && h.actions[n] == Write(SendFrame(err, reached))
    ensures var s, t := h.states[n], h.states[n + 1];
            s.writer.pc.SendingData? ==>
              var SendingData(session, frame) := s.writer.pc;
              && Sends(s, t, Message(session, s.port.id, frame), reached)
              && t == s.(net := t.net, writer := t.writer, steps := s.steps + 1)
              && frame.Data? && frame.epoch <= s.port.epoch
              && (frame.epoch == s.port.epoch ==> session == s.port.target)
              && t.writer == s.writer.(pc := if err then SendFailing(session, frame.epoch) else Top)
  {
    hide Inv, EnvStep, LifeStep, RemoteStep, Own, DataAt;
    AlwaysInv(c, h, n);
    assert Linked(c, h, n);
    InHandFacts(c, h.states[n]);
  }

  lemma InHandFacts(c: Config, s: State)
    requires Inv(c, s)
    ensures s.writer.pc.SendingData? ==>
      && s.writer.pc.frame.Data? && s.writer.pc.frame.epoch <= s.port.epoch
      && (s.writer.pc.frame.epoch == s.port.epoch ==> s.writer.pc.session == s.port.target)
  {
    hide GateOk, CountersOk, LogOk, NetOk, ReceiversOk, ConfirmedOk, QueueOk, ConservedOk, CreditOk,
         EpochOk, ReplayOk, LifeOk, AttemptOk, SignalOk, FromOk, CurrentResumeOk, DataAt, Own;
  }

  // -------------------------------------------------------- a whole replay

  /** Every replay step between two states got its frame onto the wire. */
  ghost predicate AllReached(h: History, from: nat, to: nat) {
    forall k :: from <= k < to && k < |h.actions| && h.actions[k].Lifecycle? && h.actions[k].lifecycle.ReplayNext? ==>
      h.actions[k].lifecycle.reached
  }

  /** The payload's frame under the current epoch is on the wire, on the current route. */
  predicate OnWire(s: State, i: nat)
    requires i < |s.log|
  {
    Message(s.port.target, s.port.id, Data(s.port.epoch, Off(s.log, i), s.log[i])) in s.net
  }

  predicate ResumeOnWire(s: State)
    requires s.start <= |s.log|
  {
    Message(s.port.target, s.port.id, Resume(s.port.epoch, Off(s.log, s.start))) in s.net
  }

  /** What was replayed so far is on the wire, and once the path is ready all of the first `upto` payloads are. */
  ghost predicate Covered(s: State, upto: nat) {
    && upto <= |s.log| && s.start <= |s.log|
    && (s.life.Replaying? ==> forall i :: s.start <= i < s.start + s.life.sent && i < |s.log| ==> OnWire(s, i))
    && (s.port.ready ==> ResumeOnWire(s) && forall i :: s.start <= i < upto ==> OnWire(s, i))
  }

  lemma StillOnWire(s: State, t: State, i: nat)
    requires i < |s.log| && s.log <= t.log && s.net <= t.net && OnWire(s, i)
    requires t.port.target == s.port.target && t.port.id == s.port.id && t.port.epoch == s.port.epoch
    ensures OnWire(t, i)
  {
    OffPrefix(s.log, t.log, i);
  }

  /** Same route, same epoch: the path stays where it is while the log and the wire grow. */
  predicate Steady(s: State, t: State) {
    && t.port.target == s.port.target && t.port.id == s.port.id && t.port.epoch == s.port.epoch
    && t.start == s.start && s.net <= t.net && s.log <= t.log
  }

  predicate SameRoute(p: Port, q: Port) {
    q.target == p.target && q.id == p.id && q.epoch == p.epoch
  }

  lemma FailuresKeepRoute(p: Port, session: Session, epoch: nat, ack: nat, window: nat, err: Failure)
    ensures SameRoute(p, FailPath(p, session, epoch, err)) && SameRoute(p, MarkPathLost(p, None))
    ensures SameRoute(p, FailPathIfAckUnchanged(p, session, epoch, ack, window, err))
    ensures SameRoute(p, MarkPathLost(p, Some(err)))
  {
    hide Shut;
    assert SameRoute(p, Shut(p)) by {
      ShutKeepsRoute(p);
    }
  }

  lemma ShutKeepsRoute(p: Port)
    ensures SameRoute(p, Shut(p))
  {
  }

  lemma AnswersKeepRoute(p: Port, session: Session, epoch: nat, offset: nat, window: nat)
    ensures SameRoute(p, AcceptOpenAck(p, session, epoch)) && SameRoute(p, RequestRestart(p, session))
    ensures SameRoute(p, Acknowledge(p, session, epoch, offset, window))
  {
    hide SenderAcknowledge;
  }

  lemma EnvSteady(c: Config, s: State, a: EnvAction)
    ensures Steady(s, EnvStep(c, s, a))
  {
    hide FailPath, MarkPathLost, AcceptOpenAck, RequestRestart, Acknowledge;
    match a
    case OpenAckArrives(m) =>
      if m.frame.OpenAck? {
        AnswersKeepRoute(s.port, m.session, m.frame.epoch, 0, 0);
      }
    case AckArrives(m) =>
      if m.frame.Ack? {
        AnswersKeepRoute(s.port, m.session, m.frame.epoch, m.frame.offset, m.frame.window);
      }
    case RestartAsked(session) => AnswersKeepRoute(s.port, session, 0, 0, 0);
    case SendResult(_, session, epoch) => FailuresKeepRoute(s.port, session, epoch, 0, 0, SendFailed);
    case PathDown(err) => FailuresKeepRoute(s.port, 0, 0, 0, 0, if err.Some? then err.value else TransportLost);
    case _ =>
  }

  lemma SendSteady(c: Config, s: State, err: bool, reached: bool)
    ensures Steady(s, DoOpenSent(c, s, err, reached)) && Steady(s, DoResumeSent(s, err, reached))
  {
  }

  lemma FrameSteady(s: State, err: bool, reached: bool)
    ensures Steady(s, DoReplayNext(s, err, reached)) && Steady(s, DoSendFrame(s, err, reached))
  {
  }

  lemma AttemptSteady(s: State)
    ensures Steady(s, DoCompleteReplay(s)) && Steady(s, DoResumeAcked(s)) && Steady(s, DoActivate(s))
  {
  }

  lemma SenderSteady(s: State)
    ensures Steady(s, DoResumeSender(s))
  {
    hide SenderResumed;
    if s.life.ResumeBegun? {
      StreamLag.PathKept(s.port, s.life.epoch, s.life.from);
    }
  }

  lemma LifeSteady(c: Config, s: State, a: LifeAction)
    requires !Opening(s.life) && LifeStep(c, s, a).port.epoch == s.port.epoch
    ensures Steady(s, LifeStep(c, s, a))
  {
    hide DoOpenSent, DoResumeSent, DoReplayNext, DoResumeSender, DoCompleteReplay, DoResumeAcked, DoActivate;
    match a
    case OpenSent(err, reached) => SendSteady(c, s, err, reached);
    case ResumeSent(err, reached) => SendSteady(c, s, err, reached);
    case ReplayNext(err, reached) => FrameSteady(s, err, reached);
    case ResumeSender => SenderSteady(s);
    case CompleteReplay => AttemptSteady(s);
    case ResumeAcked => AttemptSteady(s);
    case Activate => AttemptSteady(s);
    case TryResume(session) => BeginSteady(s, session);
    case TryOpen(session) =>
    case _ => WaitSteady(c, s, a);
  }

  lemma BeginSteady(s: State, session: Session)
    ensures DoTryResume(s, session).port.epoch == s.port.epoch ==> Steady(s, DoTryResume(s, session))
  {
    hide BeginResume;
    NextEpoch(s.port, session, s.port.epoch + 1);
  }

  lemma NextEpoch(p: Port, session: Session, epoch: nat)
    ensures BeginResume(p, session, epoch).epoch == epoch
  {
  }

  lemma WaitSteady(c: Config, s: State, a: LifeAction)
    requires a.OpenReady? || a.OpenRejected? || a.OpenTimedOut? || a.LossSeen? || a.Finish?
      || a.ResumeRejected? || a.ResumeTimedOut?
    ensures Steady(s, LifeStep(c, s, a))
  {
  }

  lemma OfferSteady(s: State)
    ensures Steady(s, DoOfferData(s))
  {
    hide SenderData;
  }

  lemma ReportSteady(s: State)
    ensures Steady(s, DoFailStalled(s)) && Steady(s, DoFailIdle(s)) && Steady(s, DoFailSend(s))
  {
    hide FailPath, FailPathIfAckUnchanged;
    if s.writer.pc.StallFailing? || s.writer.pc.IdleFailing? {
      var p := s.writer.pc.progress;
      FailuresKeepRoute(s.port, p.session, p.epoch, p.ack, p.window, AckStalled);
    } else if s.writer.pc.SendFailing? {
      FailuresKeepRoute(s.port, s.writer.pc.session, s.writer.pc.epoch, 0, 0, SendFailed);
    }
  }

  lemma WriterSteady(c: Config, s: State, a: WriterAction)
    ensures Steady(s, WriterStep(c, s, a))
  {
    hide DoSendFrame, DoOfferData, DoFailStalled, DoFailIdle, DoFailSend, Steady;
    match a
    case SendFrame(err, reached) => FrameSteady(s, err, reached);
    case OfferData => OfferSteady(s);
    case FailStalled => ReportSteady(s);
    case FailIdle => ReportSteady(s);
    case FailSend => ReportSteady(s);
    case _ => LocalSteady(c, s, a);
  }

  lemma LocalSteady(c: Config, s: State, a: WriterAction)
    requires !a.SendFrame? && !a.OfferData? && !a.FailStalled? && !a.FailIdle? && !a.FailSend?
    ensures Steady(s, WriterStep(c, s, a))
  {
    hide StartBatch, AppendPacket, IsStreamBatch, Fires, Observe, Restarts;
  }

  lemma RemoteSteady(s: State, a: RemoteAction)
    ensures Steady(s, RemoteStep(s, a))
  {
    hide Rx.OnData, Rx.OnResume;
  }

  lemma LaterEpoch(c: Config, s: State)
    requires Inv(c, s)
    ensures s.port.epoch > 1 ==> !Opening(s.life)
    ensures forall m :: m in OwnNet(s) && m.frame.OpenAck? ==> m.frame.epoch == 1
  {
    hide GateOk, CountersOk, LogOk, ReceiversOk, ConfirmedOk, QueueOk, ConservedOk, WriterOk, CreditOk,
         WireOk, ReplayOk, LifeOk, AttemptOk, SignalOk, FromOk, CurrentResumeOk;
    forall m | m in OwnNet(s) && m.frame.OpenAck? ensures m.frame.epoch == 1 {
      assert MessageOk(m, c.window, OwnNet(s), s.log, s.port.epoch, s.receivers);
    }
  }

  /** Whoever replays has seen the Resume on the wire: an ACK of its epoch came back. */
  lemma ResumeWasSent(c: Config, s: State)
    requires Inv(c, s)
    ensures s.life.Replaying? ==> s.start <= |s.log| && ResumeOnWire(s)
  {
    ResumingEpoch(c, s);
    hide GateOk, CountersOk, LogOk, ReceiversOk, ConfirmedOk, QueueOk, ConservedOk, WriterOk, CreditOk,
         EpochOk, WireOk, ReplayOk, LifeOk, SignalOk, FromOk, Off, AckedBy, AtEpoch;
    if s.life.Replaying? {
      assert MessageOk(s.attempt.acked.value, c.window, OwnNet(s), s.log, s.port.epoch, s.receivers);
      var m :| m in OwnNet(s) && m.frame.Resume? && m.frame.epoch == s.port.epoch;
    }
  }

  lemma ResumingEpoch(c: Config, s: State)
    requires Inv(c, s)
    ensures Resuming(s.life) ==> s.port.epoch > 1
  {
    hide GateOk, CountersOk, LogOk, NetOk, ReceiversOk, ConfirmedOk, QueueOk, ConservedOk, WriterOk, CreditOk,
         WireOk, ReplayOk, LifeOk, AttemptOk, SignalOk, FromOk, CurrentResumeOk;
  }

  lemma SteadyStep(c: Config, s: State, a: Action)
    requires Inv(c, s)
    ensures s.port.epoch > 1 && Step(c, s, a).port.epoch == s.port.epoch ==> Steady(s, Step(c, s, a))
  {
    hide Inv, EnvStep, LifeStep, WriterStep, RemoteStep;
    LaterEpoch(c, s);
    if s.port.epoch > 1 && Step(c, s, a).port.epoch == s.port.epoch {
      match a
      case Env(e) => EnvSteady(c, s, e);
      case Lifecycle(l) => LifeSteady(c, s, l);
      case Write(w) => WriterSteady(c, s, w);
      case Remote(r) => RemoteSteady(s, r);
    }
  }

  /** A step arrives at a replay by beginning it, by sending its next frame, or was there already. */
  lemma ReplayContinues(c: Config, s: State, a: Action)
    ensures var t := Step(c, s, a);
            t.life.Replaying? ==>
              || t.life == s.life
              || t.life.sent == 0
              || (s.life.Replaying? && a.Lifecycle? && a.lifecycle.ReplayNext?
                  && s.life.sent < |s.life.frames| && t.life.sent == s.life.sent + 1)
  {
    hide EnvStep, WriterStep, RemoteStep;
    match a
    case Env(e) => EnvKeepsLife(c, s, e);
    case Lifecycle(l) => LifeReplays(c, s, l);
    case Write(w) => WriterKeepsLife(c, s, w);
    case Remote(r) => RemoteKeepsPort(s, r);
  }

  lemma EnvKeepsLife(c: Config, s: State, a: EnvAction)
    ensures EnvStep(c, s, a).life == s.life
  {
    hide Acknowledge;
  }

  lemma WriterKeepsLife(c: Config, s: State, a: WriterAction)
    ensures WriterStep(c, s, a).life == s.life
  {
    hide StartBatch, AppendPacket, IsStreamBatch, DataForReadyPath, FailPath, FailPathIfAckUnchanged;
  }

  lemma LifeReplays(c: Config, s: State, a: LifeAction)
    ensures var t := LifeStep(c, s, a);
            t.life.Replaying? ==>
              || t.life == s.life
              || t.life.sent == 0
              || (s.life.Replaying? && a.ReplayNext? && s.life.sent < |s.life.frames| && t.life.sent == s.life.sent + 1)
  {
    hide SenderResumed, BeginOpen, BeginResume, CompleteResume;
  }

  lemma CoveredStep(c: Config, h: History, n: nat, upto: nat)
    requires IsRun(c, h) && n < |h.actions| && AllReached(h, n, n + 1)
    requires h.states[n].port.epoch > 1 && h.states[n + 1].port.epoch == h.states[n].port.epoch
    requires Covered(h.states[n], upto)
    ensures Covered(h.states[n + 1], upto)
  {
    hide Inv, Step, Off, Own;
    AlwaysInv(c, h, n);
    assert Linked(c, h, n);
    var s, a, t := h.states[n], h.actions[n], h.states[n + 1];
    SteadyStep(c, s, a);
    ReplayContinues(c, s, a);
    assert |s.log| <= |t.log|;
    if t.life.Replaying? {
      forall i | s.start <= i < s.start + t.life.sent && i < |t.log| ensures OnWire(t, i) {
        ReplayedOnWire(c, h, n, i);
      }
    }
    if t.port.ready {
      ReadyCovered(c, h, n, upto);
    }
  }

  lemma ReplayedOnWire(c: Config, h: History, n: nat, i: nat)
    requires IsRun(c, h) && n < |h.actions| && AllReached(h, n, n + 1)
    requires Steady(h.states[n], h.states[n + 1]) && Covered(h.states[n], 0)
    requires var s, t := h.states[n], h.states[n + 1];
             t.life.Replaying? && s.start <= i < s.start + t.life.sent && i < |t.log|
    ensures OnWire(h.states[n + 1], i)
  {
    hide Inv, Step, Off, Own;
    AlwaysInv(c, h, n);
    assert Linked(c, h, n);
    var s, a, t := h.states[n], h.actions[n], h.states[n + 1];
    ReplayContinues(c, s, a);
    ResumingFacts(c, s);
    if t.life != s.life {
      FrameIsReplayed(c, h, n, a.lifecycle.err, a.lifecycle.reached);
      SentWithin(c, s);
      if i == s.start + s.life.sent {
        assert Replayed(s, s.life.sent) in t.net;
      } else {
        StillOnWire(s, t, i);
      }
    } else {
      SentWithin(c, s);
      StillOnWire(s, t, i);
    }
  }

  lemma SentWithin(c: Config, s: State)
    requires Inv(c, s)
    ensures s.life.Replaying? ==> s.life.sent <= |s.life.frames|
  {
    hide GateOk, CountersOk, LogOk, NetOk, ReceiversOk, ConfirmedOk, QueueOk, ConservedOk, WriterOk, CreditOk,
         EpochOk, WireOk, ReplayOk, AttemptOk, SignalOk, FromOk, CurrentResumeOk, FramesOk;
  }

  lemma ReadyCovered(c: Config, h: History, n: nat, upto: nat)
    requires IsRun(c, h) && n < |h.actions| && h.states[n].port.epoch > 1
    requires Steady(h.states[n], h.states[n + 1]) && Covered(h.states[n], upto) && h.states[n + 1].port.ready
    ensures var t := h.states[n + 1];
            upto <= |t.log| && t.start <= |t.log| && ResumeOnWire(t) && forall i :: t.start <= i < upto ==> OnWire(t, i)
  {
    hide Inv, Step, Off, Own;
    AlwaysInv(c, h, n);
    assert Linked(c, h, n);
    var s, a, t := h.states[n], h.actions[n], h.states[n + 1];
    Counters(c, s);
    if !s.port.ready {
      StepOpens(c, s, a);
      OpenedAgain(c, s, a);
      ResumeWasSent(c, s);
      ResumingFacts(c, s);
    }
    OffPrefix(s.log, t.log, s.start);
    forall i | s.start <= i < upto ensures OnWire(t, i) {
      assert OnWire(s, i);
      StillOnWire(s, t, i);
    }
  }

  lemma OpenedAgain(c: Config, s: State, a: Action)
    requires Inv(c, s)
    ensures s.port.epoch > 1 ==> !OpenAckOpens(s, a)
  {
    hide Inv;
    LaterEpoch(c, s);
  }

  /**
   * A replay that reached the wire is there as a whole: from the beginning of a Resume attempt to any state
   * in which the path is ready under its epoch, when every frame replayed got out, the Resume frame and
   * the frames of all payloads from its offset to the end of the log at the beginning are on the wire,
   * on the route of the attempt, with their first boundaries.
   */
  lemma ReplayIsOnWire(c: Config, h: History, m: nat, n: nat, route: Session)
    requires IsRun(c, h) && m < n < |h.states| && h.actions[m] == Lifecycle(TryResume(route))
    requires h.states[m + 1].port.epoch > h.states[m].port.epoch
    requires h.states[n].port.epoch == h.states[m + 1].port.epoch && h.states[n].port.ready
    requires AllReached(h, m + 1, n)
    ensures var s := h.states[n];
            && s.port.target == route && s.start <= |s.log| && |h.states[m].log| <= |s.log|
            && s.start == h.states[m + 1].start
            && Message(route, s.port.id, Resume(s.port.epoch, Off(s.log, s.start))) in s.net
            && forall i :: s.start <= i < |h.states[m].log| ==>
                 Message(route, s.port.id, Data(s.port.epoch, Off(s.log, i), s.log[i])) in s.net
  {
    hide Inv, Step, Off;
    AttemptBegins(c, h, m, route);
    CoveredRun(c, h, m, n, route);
    RunMonotone(c, h, m, n);
    var s := h.states[n];
    forall i | s.start <= i < |h.states[m].log|
      ensures Message(route, s.port.id, Data(s.port.epoch, Off(s.log, i), s.log[i])) in s.net
    {
      assert OnWire(s, i);
    }
  }

  lemma AttemptBegins(c: Config, h: History, m: nat, route: Session)
    requires IsRun(c, h) && m < |h.actions| && h.actions[m] == Lifecycle(TryResume(route))
    requires h.states[m + 1].port.epoch > h.states[m].port.epoch
    ensures var t := h.states[m + 1];
            && t.port.target == route && t.port.epoch > 1 && t.life.ResumeBegun? && !t.port.ready
            && t.log == h.states[m].log && t.start <= |t.log|
  {
    hide Inv, EnvStep, WriterStep, RemoteStep;
    AlwaysInv(c, h, m + 1);
    assert Linked(c, h, m);
    ResumingEpoch(c, h.states[m + 1]);
    ResumingFacts(c, h.states[m + 1]);
  }

  lemma {:induction false} CoveredRun(c: Config, h: History, m: nat, n: nat, route: Session)
    requires IsRun(c, h) && m < n < |h.states| && h.actions[m] == Lifecycle(TryResume(route))
    requires h.states[m + 1].port.epoch > h.states[m].port.epoch
    requires h.states[n].port.epoch == h.states[m + 1].port.epoch
    requires AllReached(h, m + 1, n)
    ensures Covered(h.states[n], |h.states[m].log|)
    ensures h.states[n].port.target == route && h.states[n].start == h.states[m + 1].start
  {
    hide Inv, Step, Off;
    AttemptBegins(c, h, m, route);
    if n > m + 1 {
      RunMonotone(c, h, m + 1, n - 1);
      RunMonotone(c, h, n - 1, n);
      CoveredRun(c, h, m, n - 1, route);
      CoveredStep(c, h, n - 1, |h.states[m].log|);
      AlwaysInv(c, h, n - 1);
      assert Linked(c, h, n - 1);
      SteadyStep(c, h.states[n - 1], h.actions[n - 1]);
    }
  }
}
