/** Failures of a path: each report of the current path shuts it, and nothing but a report or a new attempt does. */
module StreamFailures {
  import opened Common
  import opened StreamLog
  import opened StreamSdk
  import opened StreamPath
  import opened StallDetector
  import opened StreamSystem
  import opened StreamInvariant
  import opened StreamEffects
  import opened StreamTheorems
  import StreamLag

  /** The progress sampled before a stall was reported is still the present one. */
  predicate StillSampled(p: Port, progress: Progress) {
    && p.target == progress.session && p.epoch == progress.epoch
    && p.lastAck == progress.ack && p.lastWindow == progress.window
  }

  /** The step reports a failure of the present path. */
  predicate Hits(s: State, a: Action) {
    match a
    case Env(SendResult(id, session, epoch)) => id == s.port.id && session == s.port.target && epoch == s.port.epoch
    case Env(PathDown(err)) => s.port.ready || err.Some?
    case Write(FailSend) =>
      s.writer.pc.SendFailing? && s.writer.pc.session == s.port.target && s.writer.pc.epoch == s.port.epoch
    case Write(FailStalled) => s.writer.pc.StallFailing? && StillSampled(s.port, s.writer.pc.progress)
    case Write(FailIdle) => s.writer.pc.IdleFailing? && StillSampled(s.port, s.writer.pc.progress)
    case _ => false
  }

  predicate IsReport(a: Action) {
    match a
    case Env(SendResult(_, _, _)) => true
    case Env(PathDown(_)) => true
    case Write(FailSend) => true
    case Write(FailStalled) => true
    case Write(FailIdle) => true
    case _ => false
  }

  lemma PortIsOk(c: Config, s: State)
    requires Inv(c, s)
    ensures PortOk(s.port)
  {
    hide LogOk, NetOk, ReceiversOk, ConfirmedOk, QueueOk, ConservedOk, WriterOk, CreditOk, EpochOk, WireOk, ReplayOk,
         LifeOk, AttemptOk, SignalOk, FromOk, CurrentResumeOk, GateOk, CountersOk;
  }

  /** What a report that hits leaves behind. */
  ghost predicate PathFailed(s: State, t: State) {
    && !t.port.ready && t.port.target == s.port.target && t.port.epoch == s.port.epoch && t.port.closed == s.port.closed
    && (s.port.ready ==> t.port.gate != s.port.gate && t.port.gate !in t.port.closed && t.losing == s.losing + 1)
    && (!s.port.ready ==>
          t.port.failure.Some? && t.port.gate == s.port.gate && t.attempt.failed && t.losing == s.losing)
  }

  /**
   * No failure of the present path is overlooked, whoever reports it: the callback of a tracked send, the writer
   * after a send error or a stall, or the transport. A ready path is shut and its loss owed a signal, with a new
   * channel that is not closed yet; a running attempt has failed. A report of another path changes no path.
   */
  lemma ReportedFailureFails(c: Config, h: History, n: nat)
    requires IsRun(c, h) && n < |h.actions| && IsReport(h.actions[n])
    ensures var s, t, a := h.states[n], h.states[n + 1], h.actions[n];
            && (Hits(s, a) ==> PathFailed(s, t))
            && (!Hits(s, a) ==> t.port == s.port && t.losing == s.losing && t.attempt == s.attempt)
            && t.net == s.net && t.log == s.log && t.queue == s.queue
  {
    hide Inv, Step, PortOk, Hits;
    AlwaysInv(c, h, n);
    assert Linked(c, h, n);
    PortIsOk(c, h.states[n]);
    ReportStep(c, h.states[n], h.actions[n]);
  }

  lemma ReportStep(c: Config, s: State, a: Action)
    requires PortOk(s.port) && IsReport(a)
    ensures var t := Step(c, s, a);
            && (Hits(s, a) ==> PathFailed(s, t))
            && (!Hits(s, a) ==> t.port == s.port && t.losing == s.losing && t.attempt == s.attempt)
            && t.net == s.net && t.log == s.log && t.queue == s.queue
  {
    hide LifeStep, RemoteStep, PortOk, Fail, FailUnchanged, DoSendResult, PathFailed, StillSampled;
    match a
    case Env(SendResult(id, session, epoch)) => SendReport(s, session, epoch);
    case Env(PathDown(err)) => DownReport(s, err);
    case Write(FailSend) =>
      if s.writer.pc.SendFailing? {
        SendReport(s, s.writer.pc.session, s.writer.pc.epoch);
        OtherWriter(s, DoSendResult(s, s.writer.pc.session, s.writer.pc.epoch));
      }
    case Write(FailStalled) =>
      if s.writer.pc.StallFailing? {
        StallReport(s, s.writer.pc.progress);
        OtherWriter(s, FailUnchanged(s, s.writer.pc.progress));
      }
    case Write(FailIdle) =>
      if s.writer.pc.IdleFailing? {
        StallReport(s, s.writer.pc.progress);
        OtherWriter(s, FailUnchanged(s, s.writer.pc.progress));
      }
  }

  /** What was reported does not depend on where the writer goes from there. */
  lemma OtherWriter(s: State, t: State)
    ensures PathFailed(s, t) ==> forall w, steps :: PathFailed(s, t.(writer := w, steps := steps))
  {
  }

  ghost predicate Reported(s: State, t: State, hit: bool) {
    && (hit ==> PathFailed(s, t) && PathFailed(s, t.(steps := s.steps + 1)))
    && (!hit ==> t.port == s.port && t.losing == s.losing && t.attempt == s.attempt)
    && t.net == s.net && t.log == s.log && t.queue == s.queue && t.steps == s.steps && t.writer == s.writer
  }

  lemma SendReport(s: State, session: Session, epoch: nat)
    requires PortOk(s.port)
    ensures Reported(s, DoSendResult(s, session, epoch), session == s.port.target && epoch == s.port.epoch)
  {
    hide PortOk, FailPath;
    FailureFails(s.port, session, epoch, SendFailed);
    PathKept(s.port, session, epoch, SendFailed);
  }

  lemma DownReport(s: State, err: Option<Failure>)
    requires PortOk(s.port)
    ensures Reported(s, DoPathDown(s, err), s.port.ready || err.Some?)
  {
    hide PortOk, MarkPathLost;
    DownFails(s.port, err);
    DownKept(s.port, err);
  }

  lemma StallReport(s: State, p: Progress)
    requires PortOk(s.port)
    ensures Reported(s, FailUnchanged(s, p), StillSampled(s.port, p))
  {
    hide PortOk, FailPathIfAckUnchanged;
    StallFails(s.port, p.session, p.epoch, p.ack, p.window, AckStalled);
    StallKept(s.port, p);
  }

  lemma PathKept(p: Port, session: Session, epoch: nat, err: Failure)
    ensures var q := FailPath(p, session, epoch, err); q.target == p.target && q.epoch == p.epoch
  {
  }

  lemma DownKept(p: Port, err: Option<Failure>)
    ensures var q := MarkPathLost(p, err); q.target == p.target && q.epoch == p.epoch
  {
  }

  lemma StallKept(p: Port, sampled: Progress)
    ensures var q := FailPathIfAckUnchanged(p, sampled.session, sampled.epoch, sampled.ack, sampled.window, AckStalled);
            q.target == p.target && q.epoch == p.epoch
  {
  }

  // ------------------------------------------------------ nothing else does

  lemma EnvLoses(c: Config, s: State, a: EnvAction)
    ensures s.port.ready && !EnvStep(c, s, a).port.ready ==> IsReport(Env(a)) && Hits(s, Env(a))
  {
    hide DoAck, DoOpenAck;
    match a
    case AckArrives(m) => ArrivalsKeepReady(s, m);
    case OpenAckArrives(m) => ArrivalsKeepReady(s, m);
    case _ =>
  }

  lemma ArrivalsKeepReady(s: State, m: Message)
    ensures DoAck(s, m).port.ready == s.port.ready && (s.port.ready ==> DoOpenAck(s, m).port.ready)
  {
    hide SenderAcknowledge;
  }

  lemma LifeLoses(c: Config, s: State, a: LifeAction)
    ensures s.port.ready && !LifeStep(c, s, a).port.ready ==> a.TryOpen? || a.TryResume?
  {
    hide DoOpenSent, DoResumeSent, DoReplayNext, DoActivate, DoResumeAcked, DoResumeSender, DoCompleteReplay,
         DoTryOpen, DoTryResume;
    match a
    case OpenSent(err, reached) => SendsKeepReady(c, s, err, reached);
    case ResumeSent(err, reached) => SendsKeepReady(c, s, err, reached);
    case ReplayNext(err, reached) => SendsKeepReady(c, s, err, reached);
    case ResumeSender => AttemptKeepsReady(s);
    case CompleteReplay => AttemptKeepsReady(s);
    case ResumeAcked => AttemptKeepsReady(s);
    case Activate => AttemptKeepsReady(s);
    case _ =>
  }

  lemma SendsKeepReady(c: Config, s: State, err: bool, reached: bool)
    ensures DoOpenSent(c, s, err, reached).port == s.port && DoResumeSent(s, err, reached).port == s.port
    ensures DoReplayNext(s, err, reached).port == s.port
  {
  }

  lemma AttemptKeepsReady(s: State)
    ensures DoResumeSender(s).port.ready == s.port.ready && DoResumeAcked(s).port.ready == s.port.ready
    ensures DoActivate(s).port == s.port && (s.port.ready ==> DoCompleteReplay(s).port.ready)
  {
    hide SenderResumed;
    if s.life.ResumeBegun? {
      StreamLag.PathKept(s.port, s.life.epoch, s.life.from);
    }
  }

  lemma WriterLoses(c: Config, s: State, a: WriterAction)
    ensures s.port.ready && !WriterStep(c, s, a).port.ready ==> IsReport(Write(a)) && Hits(s, Write(a))
  {
    hide StartBatch, DoTakeFirst, DoDrainOne, DoDrainDone, DoTakeOverflow, Fires, Observe, Restarts, SenderData;
    TakesKeepPort(s);
  }

  lemma TakesKeepPort(s: State)
    ensures DoTakeOverflow(s).port == s.port && DoTakeFirst(s).port == s.port
    ensures DoDrainOne(s).port == s.port && DoDrainDone(s).port == s.port
  {
  }

  /** In every run a ready path is lost only to a report of that very path, or to the next attempt of the lifecycle. */
  lemma LossHasCause(c: Config, h: History, n: nat)
    requires IsRun(c, h) && n < |h.actions|
    ensures var s, t, a := h.states[n], h.states[n + 1], h.actions[n];
            s.port.ready && !t.port.ready ==>
              || (IsReport(a) && Hits(s, a))
              || (a.Lifecycle? && (a.lifecycle.TryOpen? || a.lifecycle.TryResume?))
  {
    hide EnvStep, LifeStep, WriterStep, RemoteStep, Hits, IsReport;
    assert Linked(c, h, n);
    var s := h.states[n];
    match h.actions[n]
    case Env(e) => EnvLoses(c, s, e);
    case Lifecycle(l) => LifeLoses(c, s, l);
    case Write(w) => WriterLoses(c, s, w);
    case Remote(r) => RemoteKeepsPort(s, r);
  }
}
