/** The lifecycle and recovery loop keeps the invariant. */
module StreamLifeSteps {
  import opened Common
  import opened StreamLog
  import opened StreamSdk
  import opened StreamPath
  import opened StreamSystem
  import opened StreamInvariant
  import opened StreamEnvSteps
  import Rx = StreamReceiver

  /** No Resume frame has epoch 1 or an epoch not yet begun. */
  lemma NoResumeYet(window: nat, net: set<Message>, log: seq<Bytes>, epoch: nat, receivers: seq<Rx.Receiver>,
                    e: nat, target: Session, start: nat)
    requires NetOk(window, net, log, epoch, receivers) && (e == 1 || e > epoch) && start <= |log|
    ensures CurrentResumeOk(net, e, target, log, start)
  {
    forall m | m in net && m.frame.Resume? ensures m.frame.epoch != e {
      assert MessageOk(m, window, net, log, epoch, receivers);
    }
  }

  /** No Data frame is under way before the first payload, or under an epoch not yet begun. */
  lemma NoDataYet(window: nat, net: set<Message>, log: seq<Bytes>, epoch: nat, receivers: seq<Rx.Receiver>, e: nat)
    requires NetOk(window, net, log, epoch, receivers) && (log == [] || e > epoch)
    ensures forall m :: m in net && m.frame.Data? ==> m.frame.epoch != e
  {
    forall m | m in net && m.frame.Data? ensures m.frame.epoch != e {
      assert MessageOk(m, window, net, log, epoch, receivers);
    }
  }

  lemma TryOpenKeeps(c: Config, s: State, session: Session)
    requires Inv(c, s)
    ensures Inv(c, DoTryOpen(s, session))
  {
    hide CountersOk, LogOk, NetOk, ReceiversOk, ConfirmedOk, QueueOk, CreditOk, CurrentResumeOk, Packets,
         PendingPackets, BatchOk;
    if s.life.OpenIdle? {
      NoDataYet(c.window, OwnNet(s), s.log, s.port.epoch, s.receivers, 1);
      NoResumeYet(c.window, OwnNet(s), s.log, s.port.epoch, s.receivers, 1, session, s.start);
    }
  }

  /** Putting a justified message on the wire keeps everything that mentions the network. */
  lemma EmitKeeps(c: Config, s: State, m: Message, reached: bool)
    requires Inv(c, s)
    requires m.id != s.port.id || MessageOk(m, c.window, OwnNet(s) + {m}, s.log, s.port.epoch, s.receivers)
    requires m.id == s.port.id && m.frame.Resume? && m.frame.epoch == s.port.epoch ==>
      s.start <= |s.log| && m.session == s.port.target && m.frame.offset == Off(s.log, s.start)
    requires m.id == s.port.id && m.frame.Data? && m.frame.epoch == s.port.epoch ==>
      m.session == s.port.target && m.frame in s.issued
    ensures Inv(c, s.(net := Emit(s.net, m, reached)))
  {
    hide GateOk, CountersOk, LogOk, NetOk, ReceiversOk, MessageOk, ConfirmedOk, QueueOk, ConservedOk, WriterOk,
         CreditOk, EpochOk, ReplayOk, LifeOk, SignalOk, FromOk, Own;
    OwnAdded(s.net, s.port.id, m);
    if reached && m.id == s.port.id {
      var net := OwnNet(s) + {m};
      NetGrows(c.window, OwnNet(s), s.log, s.port.epoch, s.receivers, net, s.log, s.port.epoch, s.receivers);
      ReceiversContext(s.receivers, s.live, c.window, s.log, s.port.epoch, OwnNet(s), s.log, s.port.epoch, net);
    }
  }

  lemma OpenSentKeeps(c: Config, s: State, err: bool, reached: bool)
    requires Inv(c, s)
    ensures Inv(c, DoOpenSent(c, s, err, reached))
  {
    if s.life.OpenSending? {
      var m := Message(s.life.session, s.port.id, Open(1, c.window));
      EmitKeeps(c, s, m, reached);
      hide GateOk, CountersOk, LogOk, NetOk, ReceiversOk, ConfirmedOk, QueueOk, ConservedOk, WriterOk, CreditOk,
           ReplayOk;
    }
  }

  /** The lifecycle gives up an attempt, or goes on from an Open that was answered. */
  predicate Leaves(s: State, life: Life) {
    || (life.OpenIdle? && Opening(s.life))
    || (life.Activating? && s.life.OpenWaiting? && s.life.gate in s.port.closed)
    || (life.RecoverIdle? && Resuming(s.life) && !s.life.ResumeBegun?)
  }

  lemma LeftLife(s: State, life: Life)
    requires Leaves(s, life)
    ensures EpochOk(s.life, s.writer.pc, s.port.epoch, s.port.sender.epoch, s.port.ready) ==>
      EpochOk(life, s.writer.pc, s.port.epoch, s.port.sender.epoch, s.port.ready)
    ensures
      SignalOk(s.life, s.port.ready, s.port.closed, s.port.lost, s.losing, s.port.done, s.port.restart, s.active) ==>
      SignalOk(life, s.port.ready, s.port.closed, s.port.lost, s.losing, s.port.done, s.port.restart, s.active)
  {
  }

  lemma LeaveKeeps(c: Config, s: State, life: Life)
    requires Inv(c, s)
    ensures Leaves(s, life) ==> Inv(c, s.(life := life))
  {
    hide GateOk, CountersOk, LogOk, NetOk, ReceiversOk, ConfirmedOk, QueueOk, ConservedOk, WriterOk, CreditOk,
         EpochOk, WireOk, ReplayOk, SignalOk, CurrentResumeOk, FramesOk;
    if Leaves(s, life) {
      LeftLife(s, life);
    }
  }

  /** An attempt's failure is taken by who leaves the attempt. */
  lemma FailureTaken(c: Config, s: State)
    requires Inv(c, s)
    ensures !Resuming(s.life) ==> Inv(c, s.(port := s.port.(failure := None)))
  {
    hide GateOk, CountersOk, LogOk, NetOk, ReceiversOk, ConfirmedOk, QueueOk, ConservedOk, WriterOk, CreditOk,
         EpochOk, WireOk, ReplayOk, LifeOk, SignalOk, CurrentResumeOk, FromOk;
  }

  lemma OpenOutcomeKeeps(c: Config, s: State)
    requires Inv(c, s)
    ensures Inv(c, LifeStep(c, s, OpenReady)) && Inv(c, LifeStep(c, s, OpenRejected))
    ensures Inv(c, LifeStep(c, s, OpenTimedOut))
  {
    hide Inv;
    LeaveKeeps(c, s, Activating);
    if s.life.OpenWaiting? {
      var idle := OpenIdle(s.life.tried);
      LeaveKeeps(c, s, idle);
      FailureTaken(c, s.(life := idle));
    }
  }

  lemma ActivateKeeps(c: Config, s: State)
    requires Inv(c, s)
    ensures Inv(c, DoActivate(s))
  {
    hide GateOk, CountersOk, LogOk, NetOk, ReceiversOk, ConfirmedOk, QueueOk, ReplayOk;
  }

  lemma LossSeenKeeps(c: Config, s: State)
    requires Inv(c, s)
    ensures Inv(c, LifeStep(c, s, LossSeen))
  {
    hide GateOk, CountersOk, LogOk, NetOk, ReceiversOk, ConfirmedOk, QueueOk, ConservedOk, WriterOk, CreditOk,
         ReplayOk;
  }

  lemma EndKeeps(c: Config, s: State)
    requires Inv(c, s) && !s.life.ResumeBegun?
    ensures Inv(c, End(s))
  {
    hide GateOk, CountersOk, LogOk, NetOk, ReceiversOk, ConfirmedOk, QueueOk, ConservedOk, WriterOk, CreditOk,
         ReplayOk;
  }

  /** The port at the start of an attempt, and who watches its gate. */
  lemma BegunPort(p: Port, session: Session, pc: WriterPc, log: seq<Bytes>)
    requires GateOk(p.ready, p.gate, p.nextGate, p.closed) && WriterOk(pc, p.gate, p.closed, p.epoch, log)
    ensures var q := BeginResume(p, session, p.epoch + 1);
            && q == p.(target := session, epoch := p.epoch + 1, armed := true, resumed := false, failure := None,
                       ready := false, gate := q.gate, nextGate := q.nextGate)
            && GateOk(false, q.gate, q.nextGate, p.closed) && WriterOk(pc, q.gate, p.closed, q.epoch, log)
  {
    hide DataAt;
  }

  /** Nothing was issued under the new epoch yet. */
  lemma BegunWire(s: State, session: Session, begun: Life)
    requires EpochOk(s.life, s.writer.pc, s.port.epoch, s.port.sender.epoch, s.port.ready)
    requires s.life.RecoverIdle? && begun.ResumeBegun?
    requires WriterOk(s.writer.pc, s.port.gate, s.port.closed, s.port.epoch, s.log)
    requires forall m :: m in OwnNet(s) && m.frame.Data? ==> m.frame.epoch != s.port.epoch + 1
    ensures s.port.epoch >= 1 && EpochOk(begun, s.writer.pc, s.port.epoch + 1, s.port.sender.epoch, false)
    ensures WireOk(OwnNet(s), s.writer.pc, session, s.port.epoch + 1, [])
  {
    hide DataAt, Own;
  }

  /** A new attempt starts under a larger epoch, with the gate shut, at the acknowledged offset. */
  lemma TryResumeKeeps(c: Config, s: State, session: Session)
    requires Inv(c, s)
    ensures Inv(c, DoTryResume(s, session))
  {
    hide GateOk, CountersOk, NetOk, ReceiversOk, ConfirmedOk, QueueOk, ConservedOk, WriterOk, CreditOk, EpochOk,
         WireOk, CurrentResumeOk, BatchOk, DataAt, Retains, Own, BeginResume;
    if s.life.RecoverIdle? && session != NO_SESSION && session !in s.life.tried && |s.port.sender.retained| <= |s.log| {
      var epoch, start := s.port.epoch + 1, |s.log| - |s.port.sender.retained|;
      BegunPort(s.port, session, s.writer.pc, s.log);
      NoDataYet(c.window, OwnNet(s), s.log, s.port.epoch, s.receivers, epoch);
      BegunWire(s, session, DoTryResume(s, session).life);
      NoResumeYet(c.window, OwnNet(s), s.log, s.port.epoch, s.receivers, epoch, session, start);
      NetGrows(c.window, OwnNet(s), s.log, s.port.epoch, s.receivers, OwnNet(s), s.log, epoch, s.receivers);
      ReceiversContext(s.receivers, s.live, c.window, s.log, s.port.epoch, OwnNet(s), s.log, epoch, OwnNet(s));
    }
  }

  lemma ResumedLog(log: seq<Bytes>, sender: Sender, epoch: nat)
    requires LogOk(log, sender) && epoch >= sender.epoch
    ensures SenderResume(sender, epoch, sender.base).Some?
    ensures var (next, frames) := SenderResume(sender, epoch, sender.base).value;
            && LogOk(log, next) && next == sender.(epoch := epoch)
            && FramesOk(frames, sender.base, log, |log| - |sender.retained|, epoch)
  {
    hide BatchOk, DropAcked;
    BatchesNonEmptyLog(log, sender);
    ResumeReplays(sender, log, |log| - |sender.retained|, epoch);
  }

  lemma ResumeSenderKeeps(c: Config, s: State)
    requires Inv(c, s)
    ensures Inv(c, DoResumeSender(s))
    ensures s.life.ResumeBegun? ==> DoResumeSender(s).life.ResumeSending?
  {
    hide GateOk, NetOk, ReceiversOk, QueueOk, ConservedOk, CreditOk, LogOk, FramesOk, ConfirmedOk, ReplayOk, WriterOk,
         DropAcked;
    if s.life.ResumeBegun? {
      ResumedLog(s.log, s.port.sender, s.life.epoch);
    }
  }

  lemma ResumeMessage(c: Config, s: State)
    requires Inv(c, s) && s.life.ResumeSending?
    ensures var m := Message(s.life.session, s.port.id, Resume(s.life.epoch, s.life.from));
            && MessageOk(m, c.window, OwnNet(s) + {m}, s.log, s.port.epoch, s.receivers)
            && s.start <= |s.log| && m.session == s.port.target && m.frame.offset == Off(s.log, s.start)
  {
    hide GateOk, CountersOk, LogOk, NetOk, ReceiversOk, QueueOk, ConservedOk, WriterOk, CreditOk, ReplayOk, AttemptOk,
         SignalOk, AckedBy;
  }

  lemma ResumeSentKeeps(c: Config, s: State, err: bool, reached: bool)
    requires Inv(c, s)
    ensures Inv(c, DoResumeSent(s, err, reached))
  {
    hide GateOk, CountersOk, LogOk, NetOk, MessageOk, ReceiversOk, ConfirmedOk, QueueOk, ConservedOk, WriterOk,
         CreditOk, ReplayOk, FramesOk;
    if s.life.ResumeSending? {
      ResumeMessage(c, s);
      EmitKeeps(c, s, Message(s.life.session, s.port.id, Resume(s.life.epoch, s.life.from)), reached);
    }
  }

  lemma ResumeAckedKeeps(c: Config, s: State)
    requires Inv(c, s)
    ensures Inv(c, DoResumeAcked(s))
  {
    hide GateOk, CountersOk, LogOk, NetOk, ReceiversOk, ConfirmedOk, QueueOk, ConservedOk, WriterOk, CreditOk,
         ReplayOk, FramesOk;
    hide CurrentResumeOk, AckReleased;
  }

  lemma ResumeFailedKeeps(c: Config, s: State)
    requires Inv(c, s)
    ensures Inv(c, LifeStep(c, s, ResumeRejected)) && Inv(c, LifeStep(c, s, ResumeTimedOut))
  {
    hide Inv;
    if s.life.ResumeWaiting? {
      var idle := RecoverIdle(s.life.tried);
      LeaveKeeps(c, s, idle);
      FailureTaken(c, s.(life := idle));
    }
  }

  lemma ReplayMessage(c: Config, s: State)
    requires Inv(c, s) && s.life.Replaying? && s.life.sent < |s.life.frames|
    ensures var frame := s.life.frames[s.life.sent];
            && frame == LogFrame(s.log, s.start + s.life.sent, s.port.epoch) && s.life.session == s.port.target
            && var m := Message(s.life.session, s.port.id, frame);
               MessageOk(m, c.window, OwnNet(s) + {m}, s.log, s.port.epoch, s.receivers)
  {
    hide GateOk, CountersOk, LogOk, NetOk, ReceiversOk, ConfirmedOk, QueueOk, ConservedOk, WriterOk, CreditOk,
         EpochOk, ReplayOk, AttemptOk, SignalOk;
  }

  /** One more frame of the replay counts as issued. */
  lemma ReplayAdvances(c: Config, s: State)
    requires Inv(c, s)
    ensures s.life.Replaying? && s.life.sent < |s.life.frames| ==>
      Inv(c, s.(issued := s.issued + [s.life.frames[s.life.sent]], life := s.life.(sent := s.life.sent + 1)))
  {
    hide GateOk, CountersOk, LogOk, NetOk, ReceiversOk, ConfirmedOk, QueueOk, ConservedOk, WriterOk, CreditOk,
         FramesOk, CurrentResumeOk, AckReleased;
    if s.life.Replaying? && s.life.sent < |s.life.frames| {
      var l := s.life;
      var frame := l.frames[l.sent];
      ReplayMessage(c, s);
      assert l.frames[..l.sent + 1] == l.frames[..l.sent] + [frame];
      ReissueKeeps(s.log, s.issued, s.start, s.port.epoch, l.sent, frame, l.frames, l.from);
    }
  }

  lemma ReplayNextKeeps(c: Config, s: State, err: bool, reached: bool)
    requires Inv(c, s)
    ensures Inv(c, DoReplayNext(s, err, reached))
  {
    hide Inv, MessageOk, Off, Emit;
    if s.life.Replaying? && s.life.sent < |s.life.frames| {
      var l := s.life;
      var frame := l.frames[l.sent];
      var m := Message(l.session, s.port.id, frame);
      ReplayMessage(c, s);
      ReplayAdvances(c, s);
      var t := s.(issued := s.issued + [frame], life := l.(sent := l.sent + 1));
      EmitKeeps(c, t, m, reached);
      LeaveKeeps(c, t.(net := Emit(t.net, m, reached)), RecoverIdle(l.tried));
    }
  }

  lemma ReissueKeeps(log: seq<Bytes>, issued: seq<Frame>, start: nat, epoch: nat, sent: nat, frame: Frame,
                     frames: seq<Frame>, from: nat)
    requires ReplayOk(log, issued, start, epoch, false) && epoch > 1 && FramesOk(frames, from, log, start, epoch)
    requires sent < |frames| && issued == frames[..sent] && frame == LogFrame(log, start + sent, epoch)
    ensures ReplayOk(log, issued + [frame], start, epoch, false)
  {
  }

  lemma ReopenedSignal(s: State)
    requires EpochOk(s.life, s.writer.pc, s.port.epoch, s.port.sender.epoch, s.port.ready) && s.life.Replaying?
    requires SignalOk(s.life, s.port.ready, s.port.closed, s.port.lost, s.losing, s.port.done, s.port.restart, s.active)
    requires ReplayOk(s.log, s.issued, s.start, s.port.epoch, s.port.ready) && s.start + |s.issued| == |s.log|
    ensures EpochOk(Activating, s.writer.pc, s.port.epoch, s.port.sender.epoch, true)
    ensures SignalOk(Activating, true, s.port.closed + {s.port.gate}, s.port.lost, s.losing, s.port.done,
                     s.port.restart, s.active)
    ensures ReplayOk(s.log, s.issued, s.start, s.port.epoch, true)
  {
    hide Contiguous;
  }

  /** The gate opens only once the whole unacknowledged log was reissued under this epoch. */
  lemma ReopenKeeps(c: Config, s: State)
    requires Inv(c, s)
    ensures s.life.Replaying? && s.life.sent == |s.life.frames| ==>
      Inv(c, s.(port := OpenGate(s.port), life := Activating))
  {
    AllReissued(c, s);
    hide GateOk, CountersOk, LogOk, NetOk, ReceiversOk, ConfirmedOk, QueueOk, ConservedOk, WriterOk, CreditOk,
         EpochOk, WireOk, ReplayOk, SignalOk, CurrentResumeOk, FramesOk;
    if s.life.Replaying? && s.life.sent == |s.life.frames| {
      OpenedGate(s.port, s.writer.pc, s.life, s.port.epoch, s.port.lastAck, s.log, |s.port.sender.retained|, s.issued,
                 s.start);
      ReopenedSignal(s);
    }
  }

  lemma CompleteReplayKeeps(c: Config, s: State)
    requires Inv(c, s)
    ensures Inv(c, DoCompleteReplay(s))
  {
    hide Inv, OpenGate;
    if s.life.Replaying? && s.life.sent == |s.life.frames| {
      var idle := RecoverIdle(s.life.tried);
      ReopenKeeps(c, s);
      LeaveKeeps(c, s, idle);
      FailureTaken(c, s.(life := idle));
    }
  }

  lemma AllReissued(c: Config, s: State)
    requires Inv(c, s)
    ensures s.life.Replaying? && s.life.sent == |s.life.frames| ==> s.start + |s.issued| == |s.log|
  {
    hide GateOk, CountersOk, LogOk, NetOk, ReceiversOk, ConfirmedOk, QueueOk, ConservedOk, WriterOk, CreditOk,
         EpochOk, WireOk, ReplayOk, AttemptOk, SignalOk, FromOk, CurrentResumeOk, Contiguous;
    if s.life.Replaying? && s.life.sent == |s.life.frames| {
      assert s.issued == s.life.frames;
    }
  }

  lemma LifeKeeps(c: Config, s: State, a: LifeAction)
    requires Inv(c, s)
    ensures Inv(c, LifeStep(c, s, a))
  {
    hide Inv;
    match a
    case TryOpen(session) => TryOpenKeeps(c, s, session);
    case OpenSent(err, reached) => OpenSentKeeps(c, s, err, reached);
    case OpenReady => OpenOutcomeKeeps(c, s);
    case OpenRejected => OpenOutcomeKeeps(c, s);
    case OpenTimedOut => OpenOutcomeKeeps(c, s);
    case Activate => ActivateKeeps(c, s);
    case LossSeen => LossSeenKeeps(c, s);
    case Finish => if !s.life.ResumeBegun? { EndKeeps(c, s); }
    case TryResume(session) => TryResumeKeeps(c, s, session);
    case ResumeSender => ResumeSenderKeeps(c, s);
    case ResumeSent(err, reached) => ResumeSentKeeps(c, s, err, reached);
    case ResumeAcked => ResumeAckedKeeps(c, s);
    case ResumeRejected => ResumeFailedKeeps(c, s);
    case ResumeTimedOut => ResumeFailedKeeps(c, s);
    case ReplayNext(err, reached) => ReplayNextKeeps(c, s, err, reached);
    case CompleteReplay => CompleteReplayKeeps(c, s);
  }
}
