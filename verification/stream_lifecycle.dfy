/** What the steps of opening, recovery and the SDK's callbacks achieve, in every run. */
module StreamLifecycle {
  import opened Common
  import opened StreamCodec
  import opened StreamLog
  import opened StreamSdk
  import opened StreamPath
  import opened StreamSystem
  import opened StreamInvariant
  import opened StreamEffects
  import opened StreamTheorems
  import StreamFailures
  import StreamWire
  import StreamLag

  /** Nothing happened. */
  predicate Idles(s: State, t: State) {
    t == s.(steps := s.steps + 1)
  }

  // ---------------------------------------------------------- the reader

  /** A packet read is queued exactly when its size is admissible, the path ready and the queue not full. */
  lemma PacketIsQueued(c: Config, h: History, n: nat, packet: Packet)
    requires IsRun(c, h) && n < |h.actions| && h.actions[n] == Env(Enqueue(packet))
    ensures var s, t := h.states[n], h.states[n + 1];
            if s.port.ready && 1 <= |packet| <= 65535 && |s.queue| < c.capacity
            then t == s.(queue := s.queue + [packet], admitted := s.admitted + [packet], steps := s.steps + 1)
            else Idles(s, t)
  {
    hide LifeStep, WriterStep, RemoteStep;
    assert Linked(c, h, n);
  }

  lemma OthersQueueNothing(c: Config, s: State, a: Action)
    requires !a.Env? || !a.env.Enqueue?
    ensures |Step(c, s, a).queue| <= |s.queue|
  {
    hide EnvStep, LifeStep, WriterStep, RemoteStep;
    match a
    case Env(e) => EnvQueues(c, s, e);
    case Lifecycle(l) => LifeQueues(c, s, l);
    case Write(w) => WriterQueues(c, s, w);
    case Remote(r) => RemoteQueues(s, r);
  }

  lemma EnvQueues(c: Config, s: State, a: EnvAction)
    requires !a.Enqueue?
    ensures EnvStep(c, s, a).queue == s.queue
  {
    hide Acknowledge, FailPath, MarkPathLost, AcceptOpenAck;
  }

  lemma LifeQueues(c: Config, s: State, a: LifeAction)
    ensures LifeStep(c, s, a).queue == s.queue
  {
    hide SenderResumed, BeginOpen, BeginResume, CompleteResume;
  }

  lemma WriterQueues(c: Config, s: State, a: WriterAction)
    ensures |WriterStep(c, s, a).queue| <= |s.queue|
  {
    hide StartBatch, AppendPacket, IsStreamBatch, DataForReadyPath, FailPath, FailPathIfAckUnchanged;
  }

  lemma RemoteQueues(s: State, a: RemoteAction)
    ensures RemoteStep(s, a).queue == s.queue
  {
  }

  /** The queue never holds more than its capacity. */
  lemma {:induction false} QueueIsBounded(c: Config, h: History, n: nat)
    requires IsRun(c, h) && n < |h.states|
    ensures |h.states[n].queue| <= c.capacity
  {
    hide Step;
    if n > 0 {
      QueueIsBounded(c, h, n - 1);
      assert Linked(c, h, n - 1);
      var s, a := h.states[n - 1], h.actions[n - 1];
      if a.Env? && a.env.Enqueue? {
        PacketIsQueued(c, h, n - 1, a.env.packet);
      } else {
        OthersQueueNothing(c, s, a);
      }
    }
  }

  // ------------------------------------------------------- the SDK's reader

  /** An OpenAck of the stream on the current session and epoch opens a path not ready; any other changes nothing. */
  lemma OpenAckActivates(c: Config, h: History, n: nat, m: Message)
    requires IsRun(c, h) && n < |h.actions| && h.actions[n] == Env(OpenAckArrives(m))
    ensures var s, t := h.states[n], h.states[n + 1];
            if m in s.net && m.id == s.port.id && m.frame.OpenAck?
               && m.session == s.port.target && m.frame.epoch == s.port.epoch && !s.port.ready
            then t == s.(port := s.port.(ready := true, closed := s.port.closed + {s.port.gate}), steps := s.steps + 1)
            else Idles(s, t)
  {
    hide Inv, LifeStep, WriterStep, RemoteStep, PortOk, AcceptOpenAck;
    AlwaysInv(c, h, n);
    StreamFailures.PortIsOk(c, h.states[n]);
    assert Linked(c, h, n);
    if m.frame.OpenAck? {
      OpenAckAccepted(h.states[n].port, m.session, m.frame.epoch);
    }
  }

  /**
   * Every ACK of the stream on the current session and epoch counts once the sender has moved to that epoch: it
   * moves the acknowledged offset and the window, leaves the writer a token, and releases a waiting attempt.
   */
  lemma AckCounts(c: Config, h: History, n: nat, m: Message)
    requires IsRun(c, h) && n < |h.actions| && h.actions[n] == Env(AckArrives(m))
    ensures var s, t := h.states[n], h.states[n + 1];
            if m in s.net && m.id == s.port.id && m.frame.Ack?
               && m.session == s.port.target && m.frame.epoch == s.port.epoch && !s.life.ResumeBegun?
            then
              && t.port.lastAck == (if m.frame.offset > s.port.lastAck then m.frame.offset else s.port.lastAck)
              && t.port.sender.window == (if m.frame.window > 0 then m.frame.window else s.port.sender.window)
              && t.port.lastWindow == (if m.frame.window > 0 then m.frame.window else s.port.lastWindow)
              && t.port.wake && !t.port.armed && (t.port.resumed <==> s.port.resumed || s.port.armed)
              && t.port == s.port.(sender := t.port.sender, lastAck := t.port.lastAck, lastWindow := t.port.lastWindow,
                                   wake := true, resumed := t.port.resumed, armed := false)
              && t == s.(port := t.port, attempt := t.attempt, steps := s.steps + 1)
              && t.attempt == if s.port.armed then s.attempt.(acked := Some(m)) else s.attempt
            else Idles(s, t)
  {
    hide Inv, LifeStep, WriterStep, RemoteStep, PortOk, Acknowledge, AckTaken, Own;
    AlwaysInv(c, h, n);
    var s := h.states[n];
    StreamFailures.PortIsOk(c, s);
    assert Linked(c, h, n);
    if m.frame.Ack? {
      AckCredits(s.port, m.session, m.frame.epoch, m.frame.offset, m.frame.window);
      SenderEpoch(c, s);
      if m in s.net && m.id == s.port.id {
        InOwnNet(s, m);
        StreamLag.AckedSent(c, s, m);
        Counters(c, s);
      }
      AckFits(s.port, m);
    }
  }

  lemma InOwnNet(s: State, m: Message)
    requires m in s.net && m.id == s.port.id
    ensures m in OwnNet(s)
  {
  }

  lemma AckFits(p: Port, m: Message)
    ensures m.frame.Ack? ==>
      (AckTaken(p, m.session, m.frame.epoch, m.frame.offset, m.frame.window) <==>
         p.target == m.session && p.epoch == m.frame.epoch == p.sender.epoch && m.frame.offset <= p.sender.end)
  {
    hide DropAcked;
  }

  /** The sender lags behind the port's epoch only between the two steps that begin an attempt. */
  lemma SenderEpoch(c: Config, s: State)
    requires Inv(c, s)
    ensures s.life.ResumeBegun? <==> s.port.sender.epoch != s.port.epoch
  {
    hide GateOk, CountersOk, LogOk, NetOk, ReceiversOk, ConfirmedOk, QueueOk, ConservedOk, WriterOk, CreditOk,
         WireOk, ReplayOk, LifeOk, AttemptOk, SignalOk, FromOk, CurrentResumeOk;
  }

  /** A peer's Open from another session asks for a restart, once; closing the port is for good. */
  lemma RestartIsAsked(c: Config, h: History, n: nat, session: Session)
    requires IsRun(c, h) && n < |h.actions|
    ensures var s, t := h.states[n], h.states[n + 1];
            && (h.actions[n] == Env(RestartAsked(session)) ==>
                  if session != s.port.target && !s.port.restart
                  then t == s.(port := s.port.(restart := true), steps := s.steps + 1) else Idles(s, t))
            && (h.actions[n] == Env(ClosePort) ==> t == s.(port := s.port.(done := true), steps := s.steps + 1))
  {
    hide LifeStep, WriterStep, RemoteStep;
    assert Linked(c, h, n);
  }

  /** Whoever shut a ready path leaves the token of its loss, then the writer's; a lost path is no longer active. */
  lemma LossIsSignalled(c: Config, h: History, n: nat)
    requires IsRun(c, h) && n < |h.actions|
    ensures var s, t := h.states[n], h.states[n + 1];
            && (h.actions[n] == Env(SignalLost) && s.losing > 0 ==>
                  t.port.lost && t.losing == s.losing - 1 && t.waking == s.waking + 1)
            && (h.actions[n] == Env(SignalWake) && s.waking > 0 ==> t.port.wake && t.waking == s.waking - 1)
            && (h.actions[n] == Env(Deactivate) && !s.port.ready ==> !t.active)
            && (h.actions[n] == Env(Deactivate) && s.port.ready ==> Idles(s, t))
  {
    hide LifeStep, WriterStep, RemoteStep;
    assert Linked(c, h, n);
  }

  /** The network may carry any frame of another stream, and any Close; time passes. */
  lemma OthersGoOn(c: Config, h: History, n: nat, m: Message)
    requires IsRun(c, h) && n < |h.actions|
    ensures var s, t := h.states[n], h.states[n + 1];
            && (h.actions[n] == Env(ForeignFrame(m)) ==>
                  if m.id != s.port.id || m.frame.Close?
                  then t == s.(net := s.net + {m}, steps := s.steps + 1) else Idles(s, t))
            && (h.actions[n] == Env(ClockTick) ==> t == s.(now := s.now + 1, steps := s.steps + 1))
  {
    hide LifeStep, WriterStep, RemoteStep;
    assert Linked(c, h, n);
  }

  // ------------------------------------------------------------- opening

  /** An Open attempt starts with a shut, open channel and no failure; no candidate is tried twice in a round. */
  lemma CandidateIsTried(c: Config, h: History, n: nat, session: Session)
    requires IsRun(c, h) && n < |h.actions| && h.actions[n] == Lifecycle(TryOpen(session))
    ensures var s, t := h.states[n], h.states[n + 1];
            if s.life.OpenIdle? && session != NO_SESSION && session !in s.life.tried then
              && t.life == OpenSending(session, s.life.tried + {session}, t.port.gate)
              && t.port.target == session && t.port.epoch == s.port.epoch && !t.port.ready
              && t.port.gate !in t.port.closed && t.port.failure.None? && t.net == s.net
            else Idles(s, t)
  {
    hide Inv, EnvStep, WriterStep, RemoteStep, PortOk, BeginOpen;
    AlwaysInv(c, h, n);
    StreamFailures.PortIsOk(c, h.states[n]);
    assert Linked(c, h, n);
    OpenBegins(h.states[n].port, session);
  }

  /** While an Open waits: its channel closed means it was answered, an error or the timer ends it. */
  lemma OpenIsDecided(c: Config, h: History, n: nat)
    requires IsRun(c, h) && n < |h.actions| && h.states[n].life.OpenWaiting?
    ensures var s, t := h.states[n], h.states[n + 1];
            && (h.actions[n] == Lifecycle(OpenReady) ==>
                  if s.life.gate in s.port.closed then t == s.(life := Activating, steps := s.steps + 1)
                  else Idles(s, t))
            && (h.actions[n] == Lifecycle(OpenRejected) ==>
                  if s.port.failure.Some?
                  then t == s.(port := s.port.(failure := None), life := OpenIdle(s.life.tried), steps := s.steps + 1)
                  else Idles(s, t))
            && (h.actions[n] == Lifecycle(OpenTimedOut) ==>
                  t == s.(life := OpenIdle(s.life.tried), steps := s.steps + 1))
  {
    hide EnvStep, WriterStep, RemoteStep;
    assert Linked(c, h, n);
  }

  /** The step gives up the present Open attempt. */
  predicate GivesUpOpen(s: State, a: Action) {
    || (s.life.OpenWaiting? && a == Lifecycle(OpenTimedOut))
    || (s.life.OpenWaiting? && a == Lifecycle(OpenRejected) && s.port.failure.Some?)
    || (s.life.OpenSending? && a.Lifecycle? && a.lifecycle.OpenSent? && a.lifecycle.err)
  }

  /** A failed, rejected or unanswered Open makes room for the next candidate. */
  lemma NextCandidateIsTried(c: Config, h: History, n: nat, next: Session)
    requires IsRun(c, h) && n + 1 < |h.actions| && GivesUpOpen(h.states[n], h.actions[n])
    requires h.actions[n + 1] == Lifecycle(TryOpen(next)) && next != NO_SESSION && next !in h.states[n].life.tried
    ensures var s, t := h.states[n], h.states[n + 2];
            && t.life == OpenSending(next, s.life.tried + {next}, t.port.gate)
            && t.port.target == next && !t.port.ready && t.port.failure.None?
  {
    hide Step;
    var a := h.actions[n];
    if a.lifecycle.OpenSent? {
      StreamWire.OpenIsSent(c, h, n, a.lifecycle.err, a.lifecycle.reached);
    } else {
      OpenIsDecided(c, h, n);
    }
    CandidateIsTried(c, h, n + 1, next);
  }

  /** An answered Open, or a recovered path, becomes active and its writer runs; a loss seen starts recovery afresh. */
  lemma PathIsActivated(c: Config, h: History, n: nat)
    requires IsRun(c, h) && n < |h.actions|
    ensures var s, t := h.states[n], h.states[n + 1];
            && (h.actions[n] == Lifecycle(Activate) && s.life.Activating? ==>
                  && t.life == LifeParked && t.active && t.port == s.port
                  && t.writer == if s.writer.pc.NotStarted? then s.writer.(pc := Top) else s.writer)
            && (h.actions[n] == Lifecycle(LossSeen) && s.life.LifeParked? && s.port.lost ==>
                  t.life == RecoverIdle({}) && !t.active && !t.port.lost)
            && (h.actions[n] == Lifecycle(LossSeen) && !(s.life.LifeParked? && s.port.lost) ==> Idles(s, t))
  {
    hide EnvStep, WriterStep, RemoteStep;
    assert Linked(c, h, n);
  }

  /** The lifecycle ends, and closes the port, between attempts or when the port was closed or a restart asked for. */
  lemma StreamEnds(c: Config, h: History, n: nat)
    requires IsRun(c, h) && n < |h.actions| && h.actions[n] == Lifecycle(Finish)
    ensures var s, t := h.states[n], h.states[n + 1];
            if s.life.OpenIdle? || s.life.RecoverIdle? || s.life.ResumeWaiting?
               || ((s.life.OpenWaiting? || s.life.LifeParked?) && (s.port.done || s.port.restart))
            then t == s.(life := Ended, port := s.port.(done := true), steps := s.steps + 1) else Idles(s, t)
  {
    hide EnvStep, WriterStep, RemoteStep;
    assert Linked(c, h, n);
  }

  // ------------------------------------------------------------ recovery

  /** A Resume attempt starts under the next epoch, on its session, with the path shut, from the acknowledged offset. */
  lemma ResumeIsTried(c: Config, h: History, n: nat, session: Session)
    requires IsRun(c, h) && n < |h.actions| && h.actions[n] == Lifecycle(TryResume(session))
    ensures var s, t := h.states[n], h.states[n + 1];
            if s.life.RecoverIdle? && session != NO_SESSION && session !in s.life.tried then
              && t.life == ResumeBegun(session, s.life.tried + {session}, s.port.epoch + 1, s.port.lastAck)
              && t.port.target == session && t.port.epoch == s.port.epoch + 1 && !t.port.ready
              && t.port.armed && !t.port.resumed && t.port.failure.None? && t.port.lastAck == s.port.lastAck
              && t.port.sender == s.port.sender && t.issued == [] && t.start == |s.log| - |s.port.sender.retained|
              && t.net == s.net && t.log == s.log && t.receivers == s.receivers && t.live == s.live
              && !t.attempt.failed && t.attempt.acked.None? && t.port.id == s.port.id && t.writer == s.writer
            else Idles(s, t)
  {
    hide Inv, EnvStep, WriterStep, RemoteStep, PortOk, BeginResume, Retains;
    AlwaysInv(c, h, n);
    Counters(c, h.states[n]);
    StreamFailures.PortIsOk(c, h.states[n]);
    assert Linked(c, h, n);
    ResumeBegins(h.states[n].port, session, h.states[n].port.epoch + 1);
    BeginKeeps(h.states[n].port, session, h.states[n].port.epoch + 1);
  }

  lemma BeginKeeps(p: Port, session: Session, epoch: nat)
    ensures var q := BeginResume(p, session, epoch); q.sender == p.sender && q.id == p.id && q.lastSent == p.lastSent
  {
  }

  /** The sender then moves to the epoch and hands back every payload from the acknowledged offset on. */
  lemma SenderResumes(c: Config, h: History, n: nat)
    requires IsRun(c, h) && n < |h.actions| && h.actions[n] == Lifecycle(ResumeSender) && h.states[n].life.ResumeBegun?
    ensures var s, t := h.states[n], h.states[n + 1];
            && t.port == s.port.(sender := s.port.sender.(epoch := s.port.epoch))
            && t == s.(port := t.port, life := t.life, steps := s.steps + 1)
            && t.life.ResumeSending? && t.life.session == s.life.session && t.life.tried == s.life.tried
            && t.life.epoch == s.port.epoch && t.life.from == s.port.lastAck
            && s.start + |t.life.frames| == |s.log|
            && forall k :: 0 <= k < |t.life.frames| ==> t.life.frames[k] == LogFrame(s.log, s.start + k, s.port.epoch)
  {
    hide Inv, EnvStep, WriterStep, RemoteStep, SenderResumed, LogFrame, Retains;
    AlwaysInv(c, h, n);
    AlwaysInv(c, h, n + 1);
    assert Linked(c, h, n);
    var s := h.states[n];
    SenderMoves(c, s);
    StreamWire.ResumingFacts(c, s);
    StreamWire.ResumingFacts(c, h.states[n + 1]);
    FromAcked(c, s);
  }

  lemma FromAcked(c: Config, s: State)
    requires Inv(c, s)
    ensures s.life.ResumeBegun? ==> s.life.from == s.port.lastAck
  {
    hide GateOk, CountersOk, LogOk, NetOk, ReceiversOk, ConfirmedOk, QueueOk, ConservedOk, WriterOk, CreditOk,
         EpochOk, WireOk, ReplayOk, AttemptOk, SignalOk, FromOk, CurrentResumeOk;
  }

  lemma SenderMoves(c: Config, s: State)
    requires Inv(c, s)
    ensures s.life.ResumeBegun? ==>
      && SenderResumed(s.port, s.life.epoch, s.life.from).Some?
      && SenderResumed(s.port, s.life.epoch, s.life.from).value.0 ==
           s.port.(sender := s.port.sender.(epoch := s.port.epoch))
  {
    hide GateOk, LogOk, NetOk, ReceiversOk, ConfirmedOk, QueueOk, ConservedOk, WriterOk, CreditOk,
         WireOk, ReplayOk, AttemptOk, SignalOk, FromOk, CurrentResumeOk, DropAcked;
  }

  /** While a Resume waits: an ACK that released it starts the replay, an error or the timer ends it. */
  lemma ResumeIsDecided(c: Config, h: History, n: nat)
    requires IsRun(c, h) && n < |h.actions| && h.states[n].life.ResumeWaiting?
    ensures var s, t := h.states[n], h.states[n + 1];
            && (h.actions[n] == Lifecycle(ResumeAcked) ==>
                  if s.port.resumed then
                    var l := s.life;
                    t == s.(port := s.port.(resumed := false), steps := s.steps + 1,
                            life := Replaying(l.session, l.tried, l.epoch, l.from, l.frames, 0))
                  else Idles(s, t))
            && (h.actions[n] == Lifecycle(ResumeRejected) ==>
                  if s.port.failure.Some?
                  then t == s.(port := s.port.(failure := None), life := RecoverIdle(s.life.tried),
                               steps := s.steps + 1)
                  else Idles(s, t))
            && (h.actions[n] == Lifecycle(ResumeTimedOut) ==>
                  t == s.(life := RecoverIdle(s.life.tried), steps := s.steps + 1))
  {
    hide EnvStep, WriterStep, RemoteStep;
    assert Linked(c, h, n);
  }

  /** A finished replay opens the path unless a failure was reported meanwhile, which ends the attempt instead. */
  lemma ReplayIsCompleted(c: Config, h: History, n: nat)
    requires IsRun(c, h) && n < |h.actions| && h.actions[n] == Lifecycle(CompleteReplay)
    ensures var s, t := h.states[n], h.states[n + 1];
            s.life.Replaying? && s.life.sent == |s.life.frames| ==>
              && t.port.failure.None? && t.port.target == s.port.target && t.port.epoch == s.port.epoch
              && (s.port.failure.None? ==>
                    t.port.ready && t.life == Activating && t.port.closed == s.port.closed + {s.port.gate})
              && (s.port.failure.Some? ==> !t.port.ready && t.life == RecoverIdle(s.life.tried))
              && t.port == s.port.(failure := None, ready := t.port.ready, closed := t.port.closed)
              && t == s.(port := t.port, life := t.life, steps := s.steps + 1)
  {
    hide Inv, EnvStep, WriterStep, RemoteStep, PortOk, CompleteResume;
    AlwaysInv(c, h, n);
    assert Linked(c, h, n);
    var s := h.states[n];
    StreamFailures.PortIsOk(c, s);
    StreamWire.ResumingFacts(c, s);
    Unarmed(c, s);
    if s.life.Replaying? {
      ResumeEnds(s.port, s.life.session, s.life.epoch);
      CompleteKeeps(s.port, s.life.session, s.life.epoch);
    }
  }

  lemma CompleteKeeps(p: Port, session: Session, epoch: nat)
    ensures var q := CompleteResume(p, session, epoch); q.target == p.target && q.epoch == p.epoch
  {
  }

  lemma Unarmed(c: Config, s: State)
    requires Inv(c, s)
    ensures s.life.Replaying? ==> !s.port.armed
  {
    hide GateOk, CountersOk, LogOk, NetOk, ReceiversOk, ConfirmedOk, QueueOk, ConservedOk, WriterOk, CreditOk,
         EpochOk, WireOk, ReplayOk, LifeOk, SignalOk, FromOk, CurrentResumeOk, AckReleased;
  }

  /** The step gives up the present Resume attempt. */
  predicate GivesUpResume(s: State, a: Action) {
    || (s.life.ResumeWaiting? && a == Lifecycle(ResumeTimedOut))
    || (s.life.ResumeWaiting? && a == Lifecycle(ResumeRejected) && s.port.failure.Some?)
    || (s.life.ResumeSending? && a.Lifecycle? && a.lifecycle.ResumeSent? && a.lifecycle.err)
    || (s.life.Replaying? && s.life.sent < |s.life.frames|
        && a.Lifecycle? && a.lifecycle.ReplayNext? && a.lifecycle.err)
    || (s.life.Replaying? && s.life.sent == |s.life.frames| && a == Lifecycle(CompleteReplay) && s.port.failure.Some?)
  }

  /** A Resume that failed at any stage makes room for the next candidate, under yet another epoch. */
  lemma NextRouteIsTried(c: Config, h: History, n: nat, next: Session)
    requires IsRun(c, h) && n + 1 < |h.actions| && GivesUpResume(h.states[n], h.actions[n])
    requires h.actions[n + 1] == Lifecycle(TryResume(next)) && next != NO_SESSION && next !in h.states[n].life.tried
    ensures var s, t := h.states[n], h.states[n + 2];
            && t.life == ResumeBegun(next, s.life.tried + {next}, s.port.epoch + 1, t.port.lastAck)
            && t.port.target == next && t.port.epoch == s.port.epoch + 1 && !t.port.ready && t.port.failure.None?
  {
    hide Step;
    var a := h.actions[n];
    match a.lifecycle {
      case ResumeSent(err, reached) => StreamWire.ResumeIsSent(c, h, n, err, reached);
      case ReplayNext(err, reached) => StreamWire.FrameIsReplayed(c, h, n, err, reached);
      case CompleteReplay => ReplayIsCompleted(c, h, n);
      case _ => ResumeIsDecided(c, h, n);
    }
    ResumeIsTried(c, h, n + 1, next);
  }
}
