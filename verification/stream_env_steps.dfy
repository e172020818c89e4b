/** The port's environment keeps the invariant: TUN reader, SDK callbacks, signals and time. */
module StreamEnvSteps {
  import opened Common
  import opened StreamLog
  import opened StreamSdk
  import opened StreamPath
  import opened StreamSystem
  import opened StreamInvariant
  import Rx = StreamReceiver

  lemma EnqueueKeeps(c: Config, s: State, packet: Packet)
    requires Inv(c, s)
    ensures Inv(c, DoEnqueue(c, s, packet))
  {
    hide GateOk, CountersOk, LogOk, NetOk, ReceiversOk, ConfirmedOk, ConservedOk, WriterOk, CreditOk, EpochOk,
         ReplayOk, LifeOk, AttemptOk, SignalOk;
    assert s.taken + (s.queue + [packet]) == (s.taken + s.queue) + [packet];
  }

  /** Closing the current ready channel. */
  lemma OpenedGate(p: Port, pc: WriterPc, life: Life, epoch: nat, lastAck: nat, log: seq<Bytes>, retained: nat,
                   issued: seq<Frame>, start: nat)
    requires GateOk(p.ready, p.gate, p.nextGate, p.closed)
    ensures GateOk(true, p.gate, p.nextGate, p.closed + {p.gate})
    ensures WriterOk(pc, p.gate, p.closed, epoch, log) ==> WriterOk(pc, p.gate, p.closed + {p.gate}, epoch, log)
    ensures LifeOk(life, p.target, epoch, lastAck, log, retained, issued, start, p.gate, p.closed) ==>
      LifeOk(life, p.target, epoch, lastAck, log, retained, issued, start, p.gate, p.closed + {p.gate})
  {
    hide FramesOk, DataAt;
  }

  lemma OpenedSignal(s: State)
    requires SignalOk(s.life, s.port.ready, s.port.closed, s.port.lost, s.losing, s.port.done, s.port.restart, s.active)
    requires EpochOk(s.life, s.writer.pc, s.port.epoch, s.port.sender.epoch, s.port.ready) && s.port.epoch == 1
    requires ReplayOk(s.log, s.issued, s.start, s.port.epoch, s.port.ready)
    ensures SignalOk(s.life, true, s.port.closed + {s.port.gate}, s.port.lost, s.losing, s.port.done, s.port.restart,
                     s.active)
    ensures EpochOk(s.life, s.writer.pc, s.port.epoch, s.port.sender.epoch, true)
    ensures ReplayOk(s.log, s.issued, s.start, s.port.epoch, true)
  {
    hide Contiguous;
  }

  lemma OpenAckEpoch(c: Config, s: State, m: Message)
    requires Inv(c, s)
    ensures m in OwnNet(s) && m.frame.OpenAck? ==> m.frame.epoch == 1
  {
    hide GateOk, CountersOk, LogOk, ReceiversOk, ConfirmedOk, QueueOk, ConservedOk, WriterOk, CreditOk, EpochOk,
         WireOk, ReplayOk, LifeOk, AttemptOk, SignalOk, FromOk, CurrentResumeOk;
    if m in OwnNet(s) && m.frame.OpenAck? {
      assert MessageOk(m, c.window, OwnNet(s), s.log, s.port.epoch, s.receivers);
    }
  }

  /** An OpenAck can only open the gate at epoch 1, where everything sent so far is the whole log. */
  lemma OpenAckKeeps(c: Config, s: State, m: Message)
    requires Inv(c, s)
    ensures Inv(c, DoOpenAck(s, m))
  {
    OpenAckEpoch(c, s, m);
    hide GateOk, CountersOk, LogOk, NetOk, ReceiversOk, ConfirmedOk, QueueOk, ConservedOk, WriterOk, CreditOk,
         EpochOk, WireOk, ReplayOk, LifeOk, AttemptOk, SignalOk, FromOk, CurrentResumeOk;
    if m in OwnNet(s) && m.frame.OpenAck? && OpenAckMatches(s.port, m.session, m.frame.epoch) {
      OpenedGate(s.port, s.writer.pc, s.life, s.port.epoch, s.port.lastAck, s.log, |s.port.sender.retained|, s.issued,
                 s.start);
      OpenedSignal(s);
    }
  }

  /** A fresh ready channel: whoever watches the old one, which was closed, is not held up. */
  lemma ShutGate(p: Port, pc: WriterPc, life: Life, epoch: nat, lastAck: nat, log: seq<Bytes>, retained: nat,
                 issued: seq<Frame>, start: nat)
    requires p.ready && GateOk(p.ready, p.gate, p.nextGate, p.closed)
    ensures GateOk(false, p.nextGate, p.nextGate + 1, p.closed)
    ensures WriterOk(pc, p.gate, p.closed, epoch, log) ==> WriterOk(pc, p.nextGate, p.closed, epoch, log)
    ensures LifeOk(life, p.target, epoch, lastAck, log, retained, issued, start, p.gate, p.closed) ==>
      LifeOk(life, p.target, epoch, lastAck, log, retained, issued, start, p.nextGate, p.closed)
  {
    hide FramesOk, DataAt;
  }

  lemma ShutSignal(s: State)
    requires SignalOk(s.life, s.port.ready, s.port.closed, s.port.lost, s.losing, s.port.done, s.port.restart, s.active)
    requires EpochOk(s.life, s.writer.pc, s.port.epoch, s.port.sender.epoch, s.port.ready)
    requires ReplayOk(s.log, s.issued, s.start, s.port.epoch, s.port.ready)
    ensures SignalOk(s.life, false, s.port.closed, s.port.lost, s.losing + 1, s.port.done, s.port.restart, s.active)
    ensures EpochOk(s.life, s.writer.pc, s.port.epoch, s.port.sender.epoch, false)
    ensures ReplayOk(s.log, s.issued, s.start, s.port.epoch, false)
    ensures s.port.ready ==> !Resuming(s.life)
  {
    hide Contiguous;
  }

  lemma LossKeeps(c: Config, s: State)
    requires Inv(c, s)
    ensures s.port.ready ==> Inv(c, s.(port := Shut(s.port), losing := s.losing + 1))
  {
    hide GateOk, CountersOk, LogOk, NetOk, ReceiversOk, ConfirmedOk, QueueOk, ConservedOk, WriterOk, CreditOk,
         EpochOk, WireOk, ReplayOk, LifeOk, SignalOk, CurrentResumeOk, FromOk, AckReleased;
    if s.port.ready {
      ShutGate(s.port, s.writer.pc, s.life, s.port.epoch, s.port.lastAck, s.log, |s.port.sender.retained|, s.issued,
               s.start);
      ShutSignal(s);
    }
  }

  lemma ReportKeeps(c: Config, s: State, err: Failure)
    requires Inv(c, s)
    ensures Inv(c, s.(port := Report(s.port, err), attempt := s.attempt.(failed := true)))
  {
    hide GateOk, CountersOk, LogOk, NetOk, ReceiversOk, ConfirmedOk, QueueOk, ConservedOk, WriterOk, CreditOk,
         EpochOk, WireOk, ReplayOk, LifeOk, SignalOk, CurrentResumeOk, FromOk, AckReleased;
  }

  /** Losing a ready path or recording a failed attempt. */
  lemma FailKeeps(c: Config, s: State, err: Failure, matched: bool)
    requires Inv(c, s)
    ensures Inv(c, Fail(s, if matched then Lose(s.port, err) else s.port, matched))
  {
    hide Inv, Shut, Report;
    LossKeeps(c, s);
    ReportKeeps(c, s, err);
  }

  lemma PathDownKeeps(c: Config, s: State, err: Option<Failure>)
    requires Inv(c, s)
    ensures Inv(c, DoPathDown(s, err))
  {
    hide Inv;
    var matched := s.port.ready || err.Some?;
    var cause := if err.Some? then err.value else TransportLost;
    FailKeeps(c, s, cause, matched);
    assert MarkPathLost(s.port, err) == if matched then Lose(s.port, cause) else s.port;
  }

  lemma SendResultKeeps(c: Config, s: State, session: Session, epoch: nat)
    requires Inv(c, s)
    ensures Inv(c, DoSendResult(s, session, epoch))
  {
    hide Inv;
    FailKeeps(c, s, SendFailed, OnPath(s.port, session, epoch));
  }

  /** An acknowledged offset is a boundary of the log, so the sender keeps exactly the rest. */
  lemma AckBoundary(receivers: seq<Rx.Receiver>, log: seq<Bytes>, offset: nat) returns (n: nat)
    requires AckedBy(receivers, offset)
    requires forall i :: 0 <= i < |receivers| ==> receivers[i].accepted <= log
    ensures n <= |log| && Off(log, n) == offset
  {
    var i: nat :| i < |receivers| && Reached(receivers[i].accepted, offset);
    n :| n <= |receivers[i].accepted| && Off(receivers[i].accepted, n) == offset;
    OffPrefix(receivers[i].accepted, log, n);
  }

  lemma BatchesNonEmpty(log: seq<Bytes>)
    requires forall i :: 0 <= i < |log| ==> BatchOk(log[i])
    ensures NonEmpty(log)
  {
  }

  lemma AckedLog(log: seq<Bytes>, sender: Sender, receivers: seq<Rx.Receiver>, offset: nat, window: nat)
    requires LogOk(log, sender)
    requires AckedBy(receivers, offset) && (forall i :: 0 <= i < |receivers| ==> receivers[i].accepted <= log)
    ensures SenderAcknowledge(sender, sender.epoch, offset, window).Some?
    ensures LogOk(log, SenderAcknowledge(sender, sender.epoch, offset, window).value)
  {
    hide BatchOk, DropAcked;
    var n := AckBoundary(receivers, log, offset);
    BatchesNonEmptyLog(log, sender);
    AcknowledgeRetains(sender, log, |log| - |sender.retained|, n, window);
  }

  lemma BatchesNonEmptyLog(log: seq<Bytes>, sender: Sender)
    requires LogOk(log, sender)
    ensures NonEmpty(log)
  {
    BatchesNonEmpty(log);
  }

  /** The sender takes no ACK before it has moved to the epoch of a Resume attempt. */
  lemma TakenEpoch(p: Port, m: Message, life: Life, pc: WriterPc)
    requires EpochOk(life, pc, p.epoch, p.sender.epoch, p.ready) && m.frame.Ack?
    requires AckTaken(p, m.session, m.frame.epoch, m.frame.offset, m.frame.window)
    ensures !life.ResumeBegun? && m.session == p.target && m.frame.epoch == p.epoch == p.sender.epoch
  {
  }

  /** What an accepted ACK does to the fields that the invariant speaks of. */
  lemma AckedPort(p: Port, session: Session, epoch: nat, offset: nat, window: nat)
    requires CountersOk(p.lastAck, p.lastSent, p.sender) && AckTaken(p, session, epoch, offset, window)
    ensures var q := Acknowledge(p, session, epoch, offset, window);
            && q.sender == SenderAcknowledge(p.sender, epoch, offset, window).value
            && q.sender.epoch == p.sender.epoch
            && CountersOk(q.lastAck, q.lastSent, q.sender) && q.lastAck in {p.lastAck, offset} && p.lastAck <= q.lastAck
            && q == p.(sender := q.sender, lastAck := q.lastAck, lastWindow := q.lastWindow, wake := true,
                       resumed := p.resumed || p.armed, armed := false)
  {
    hide DropAcked;
  }

  lemma AckedLife(life: Life, target: Session, epoch: nat, lastAck: nat, log: seq<Bytes>, retained: nat,
                  issued: seq<Frame>, start: nat, gate: nat, closed: set<nat>, later: nat, fewer: nat)
    requires LifeOk(life, target, epoch, lastAck, log, retained, issued, start, gate, closed) && !life.ResumeBegun?
    ensures LifeOk(life, target, epoch, later, log, fewer, issued, start, gate, closed)
  {
    hide FramesOk;
  }

  lemma AckedAttempt(life: Life, attempt: Attempt, target: Session, epoch: nat, armed: bool, resumed: bool,
                     failure: Option<Failure>, net: set<Message>, m: Message)
    requires AttemptOk(life, attempt, target, epoch, armed, resumed, failure, net)
    requires m in net && m.frame.Ack? && m.session == target && m.frame.epoch == epoch
    ensures AttemptOk(life, if armed then attempt.(acked := Some(m)) else attempt, target, epoch, false,
                      resumed || armed, failure, net)
  {
  }

  lemma AckedCredit(pc: WriterPc, pending: Option<Bytes>, ackSeen: nat, windowSeen: nat,
                    lastAck: nat, lastSent: nat, window: nat, wake: bool, later: nat, offered: nat)
    requires CreditOk(pc, pending, ackSeen, windowSeen, lastAck, lastSent, window, wake) && lastAck <= later
    ensures CreditOk(pc, pending, ackSeen, windowSeen, later, lastSent, offered, true)
  {
  }

  lemma AckKeeps(c: Config, s: State, m: Message)
    requires Inv(c, s)
    ensures Inv(c, DoAck(s, m))
  {
    hide GateOk, CountersOk, LogOk, NetOk, MessageOk, ReceiversOk, ReceiverOk, QueueOk, ConservedOk, WriterOk,
         CreditOk, EpochOk, WireOk, ReplayOk, LifeOk, AttemptOk, SignalOk, FromOk, CurrentResumeOk, Acknowledge,
         AckTaken;
    if m in OwnNet(s) && m.frame.Ack? && AckTaken(s.port, m.session, m.frame.epoch, m.frame.offset, m.frame.window) {
      var Ack(epoch, offset, window) := m.frame;
      var q := Acknowledge(s.port, m.session, epoch, offset, window);
      TakenEpoch(s.port, m, s.life, s.writer.pc);
      AckedPort(s.port, m.session, epoch, offset, window);
      AckedOffset(c, s, m);
      AckedLog(s.log, s.port.sender, s.receivers, offset, window);
      AckedLife(s.life, s.port.target, s.port.epoch, s.port.lastAck, s.log, |s.port.sender.retained|, s.issued, s.start,
                s.port.gate, s.port.closed, q.lastAck, |q.sender.retained|);
      AckedAttempt(s.life, s.attempt, s.port.target, s.port.epoch, s.port.armed, s.port.resumed, s.port.failure,
                   OwnNet(s), m);
      AckedCredit(s.writer.pc, s.writer.pending, s.writer.ackSeen, s.writer.windowSeen, s.port.lastAck, s.port.lastSent,
                  s.port.sender.window, s.port.wake, q.lastAck, q.sender.window);
      hide SenderAcknowledge, AckedBy;
    } else {
      AckRefused(s.port, m);
    }
  }

  lemma AckRefused(p: Port, m: Message)
    ensures m.frame.Ack? && !AckTaken(p, m.session, m.frame.epoch, m.frame.offset, m.frame.window) ==>
      Acknowledge(p, m.session, m.frame.epoch, m.frame.offset, m.frame.window) == p
  {
    hide AckTaken;
  }

  lemma AckedOffset(c: Config, s: State, m: Message)
    requires Inv(c, s)
    ensures m in OwnNet(s) && m.frame.Ack? ==> AckedBy(s.receivers, m.frame.offset)
    ensures forall i :: 0 <= i < |s.receivers| ==> s.receivers[i].accepted <= s.log
  {
    hide GateOk, CountersOk, LogOk, ConfirmedOk, QueueOk, ConservedOk, WriterOk, CreditOk, EpochOk, WireOk, ReplayOk,
         LifeOk, AttemptOk, SignalOk, FromOk, CurrentResumeOk, Rx.AckOk, MarkOk, AckedBy;
    if m in OwnNet(s) && m.frame.Ack? {
      assert MessageOk(m, c.window, OwnNet(s), s.log, s.port.epoch, s.receivers);
    }
    forall i | 0 <= i < |s.receivers| ensures s.receivers[i].accepted <= s.log {
      assert ReceiverOk(s.receivers[i], c.window, s.log, s.port.epoch, OwnNet(s));
    }
  }

  lemma SignalKeeps(c: Config, s: State)
    requires Inv(c, s)
    ensures Inv(c, EnvStep(c, s, SignalLost)) && Inv(c, EnvStep(c, s, SignalWake))
  {
    hide GateOk, CountersOk, LogOk, NetOk, ReceiversOk, ConfirmedOk, QueueOk, ConservedOk, WriterOk, EpochOk, WireOk,
         ReplayOk, LifeOk, AttemptOk, FromOk, CurrentResumeOk;
  }

  lemma PassingKeeps(c: Config, s: State)
    requires Inv(c, s)
    ensures Inv(c, EnvStep(c, s, Deactivate)) && Inv(c, EnvStep(c, s, ClockTick)) && Inv(c, EnvStep(c, s, ClosePort))
  {
    hide GateOk, CountersOk, LogOk, NetOk, ReceiversOk, ConfirmedOk, QueueOk, ConservedOk, WriterOk, CreditOk,
         EpochOk, WireOk, ReplayOk, LifeOk, AttemptOk, FromOk, CurrentResumeOk;
  }

  lemma RestartKeeps(c: Config, s: State, session: Session)
    requires Inv(c, s)
    ensures Inv(c, EnvStep(c, s, RestartAsked(session)))
  {
    hide GateOk, CountersOk, LogOk, NetOk, ReceiversOk, ConfirmedOk, QueueOk, ConservedOk, WriterOk, CreditOk,
         EpochOk, ReplayOk, LifeOk, AttemptOk;
  }

  /** Frames of other streams, and Closes, leave everything the stream relies on alone. */
  lemma ForeignKeeps(c: Config, s: State, m: Message)
    requires Inv(c, s)
    ensures Inv(c, EnvStep(c, s, ForeignFrame(m)))
  {
    hide GateOk, CountersOk, LogOk, NetOk, ReceiversOk, ConfirmedOk, QueueOk, ConservedOk, WriterOk, CreditOk,
         EpochOk, ReplayOk, LifeOk, SignalOk, FromOk, Own;
    OwnAdded(s.net, s.port.id, m);
    if m.id == s.port.id && m.frame.Close? {
      var net := OwnNet(s) + {m};
      NetGrows(c.window, OwnNet(s), s.log, s.port.epoch, s.receivers, net, s.log, s.port.epoch, s.receivers);
      ReceiversContext(s.receivers, s.live, c.window, s.log, s.port.epoch, OwnNet(s), s.log, s.port.epoch, net);
    }
  }

  lemma EnvKeeps(c: Config, s: State, a: EnvAction)
    requires Inv(c, s)
    ensures Inv(c, EnvStep(c, s, a))
  {
    hide Inv;
    match a
    case Enqueue(packet) => EnqueueKeeps(c, s, packet);
    case OpenAckArrives(m) => OpenAckKeeps(c, s, m);
    case AckArrives(m) => AckKeeps(c, s, m);
    case SendResult(_, session, epoch) => SendResultKeeps(c, s, session, epoch);
    case PathDown(err) => PathDownKeeps(c, s, err);
    case RestartAsked(session) => RestartKeeps(c, s, session);
    case ForeignFrame(m) => ForeignKeeps(c, s, m);
    case SignalLost => SignalKeeps(c, s);
    case SignalWake => SignalKeeps(c, s);
    case _ => PassingKeeps(c, s);
  }
}
