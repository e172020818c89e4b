/** The remote receivers keep the invariant: what they accept is always a prefix of the log. */
module StreamRemoteSteps {
  import opened Common
  import opened StreamLog
  import opened StreamSdk
  import opened StreamPath
  import opened StreamSystem
  import opened StreamInvariant
  import opened StreamLifeSteps
  import StreamEnvSteps
  import Rx = StreamReceiver

  /** Replacing one receiver by a later version of itself keeps everything that mentions receivers. */
  lemma ReplaceKeeps(c: Config, s: State, i: nat, next: Rx.Receiver)
    requires Inv(c, s) && i < |s.receivers|
    requires ReceiverOk(next, c.window, s.log, s.port.epoch, OwnNet(s))
    requires s.receivers[i].accepted <= next.accepted && next.stopped == s.receivers[i].stopped
    requires s.receivers[i].state.epoch <= next.state.epoch
    ensures Inv(c, s.(receivers := s.receivers[i := next]))
  {
    hide GateOk, CountersOk, LogOk, NetOk, ReceiverOk, QueueOk, ConservedOk, WriterOk, CreditOk, EpochOk, ReplayOk,
         LifeOk, AttemptOk, SignalOk, ConfirmedOk, FromOk;
    var receivers := s.receivers[i := next];
    NetGrows(c.window, OwnNet(s), s.log, s.port.epoch, s.receivers, OwnNet(s), s.log, s.port.epoch, receivers);
    ConfirmedGrows(s.port.lastAck, s.receivers, receivers);
    FromGrows(s.life, s.receivers, receivers);
  }

  lemma ConfirmedGrows(offset: nat, a: seq<Rx.Receiver>, b: seq<Rx.Receiver>)
    requires ConfirmedOk(offset, a) && Grows(a, b)
    ensures ConfirmedOk(offset, b)
  {
    if offset != 0 {
      AckedByGrows(a, b, offset);
    }
  }

  lemma FromGrows(life: Life, a: seq<Rx.Receiver>, b: seq<Rx.Receiver>)
    requires FromOk(life, a) && Grows(a, b)
    ensures FromOk(life, b)
  {
    hide ConfirmedOk;
    if Resuming(life) {
      ConfirmedGrows(life.from, a, b);
    }
  }

  lemma ReachedEnd(accepted: seq<Bytes>)
    ensures Reached(accepted, Off(accepted, |accepted|))
  {
  }

  /** Data at the next offset can only be the next payload of the log. */
  lemma NextPayload(r: Rx.Receiver, log: seq<Bytes>, offset: nat, payload: Bytes)
    requires r.accepted <= log && r.state.next == Off(r.accepted, |r.accepted|)
    requires DataAt(log, offset, payload) && offset == r.state.next && NonEmpty(log)
    ensures |payload| > 0 && r.accepted + [payload] <= log
    ensures offset + |payload| == Off(r.accepted + [payload], |r.accepted| + 1)
  {
    var n: nat :| n < |log| && Off(log, n) == offset && log[n] == payload;
    OffPrefix(r.accepted, log, |r.accepted|);
    OffInjective(log, n, |r.accepted|);
    OffPrefix(r.accepted, r.accepted + [payload], |r.accepted|);
  }

  lemma QueueMarkOk(r: Rx.Receiver, accepted: seq<Bytes>, epoch: nat, net: set<Message>, mark: Rx.Mark)
    requires r.accepted <= accepted && MarkOk(mark, accepted, epoch, net)
    requires forall k :: 0 <= k < |r.queued| ==> MarkOk(r.queued[k], r.accepted, epoch, net)
    ensures forall k :: 0 <= k < |r.queued + [mark]| ==> MarkOk((r.queued + [mark])[k], accepted, epoch, net)
  {
    forall k | 0 <= k < |r.queued| ensures MarkOk(r.queued[k], accepted, epoch, net) {
      ReachedGrows(r.accepted, accepted, r.queued[k].offset);
    }
  }

  lemma DataReceiver(r: Rx.Receiver, window: nat, log: seq<Bytes>, epoch: nat, net: set<Message>,
                     e: nat, offset: nat, payload: Bytes, sdk: Answers)
    requires ReceiverOk(r, window, log, epoch, net) && DataAt(log, offset, payload) && NonEmpty(log)
    ensures var next := Rx.OnData(r, e, offset, payload, sdk);
            && ReceiverOk(next, window, log, epoch, net) && r.accepted <= next.accepted && next.stopped == r.stopped
            && r.state.epoch == next.state.epoch
            && (next.accepted == r.accepted || (next.accepted == r.accepted + [payload] && |payload| > 0))
  {
    hide Rx.AckOk, MarkOk;
    Rx.DataKeeps(r, e, offset, payload, sdk);
    if Delivers(r.state, e, offset) {
      NextPayload(r, log, offset, payload);
      var accepted := r.accepted + [payload];
      ReachedEnd(accepted);
      var mark := Rx.Mark(e, offset + |payload|, sdk.window);
      MarkNow(mark, accepted, epoch, net, r.state.epoch);
      QueueMarkOk(r, accepted, epoch, net, mark);
      if r.stopped {
        OldMarksOk(r, accepted, epoch, net);
      }
    } else if sdk.reack && e == r.state.epoch {
      ReachedEnd(r.accepted);
      var mark := Rx.Mark(e, r.state.next, sdk.window);
      MarkNow(mark, r.accepted, epoch, net, r.state.epoch);
      QueueMarkOk(r, r.accepted, epoch, net, mark);
    }
  }

  lemma MarkNow(mark: Rx.Mark, accepted: seq<Bytes>, epoch: nat, net: set<Message>, at: nat)
    requires mark.epoch == at && 1 <= at <= epoch && (at > 1 ==> ResumeSeen(net, at)) && Reached(accepted, mark.offset)
    ensures MarkOk(mark, accepted, epoch, net)
  {
  }

  lemma OldMarksOk(r: Rx.Receiver, accepted: seq<Bytes>, epoch: nat, net: set<Message>)
    requires r.accepted <= accepted
    requires forall k :: 0 <= k < |r.queued| ==> MarkOk(r.queued[k], r.accepted, epoch, net)
    ensures forall k :: 0 <= k < |r.queued| ==> MarkOk(r.queued[k], accepted, epoch, net)
  {
    forall k | 0 <= k < |r.queued| ensures MarkOk(r.queued[k], accepted, epoch, net) {
      ReachedGrows(r.accepted, accepted, r.queued[k].offset);
    }
  }

  lemma DataArrivesKeeps(c: Config, s: State, m: Message, sdk: Answers)
    requires Inv(c, s)
    ensures Inv(c, DoDataArrives(s, m, sdk))
  {
    hide GateOk, CountersOk, ReceiverOk, QueueOk, ConservedOk, WriterOk, CreditOk, EpochOk, ReplayOk, LifeOk,
         AttemptOk, SignalOk, ConfirmedOk, FromOk, Rx.OnData, DataAt, BatchOk;
    if m in OwnNet(s) && m.frame.Data? && s.live.Some? && s.live.value < |s.receivers| {
      var i := s.live.value;
      assert MessageOk(m, c.window, OwnNet(s), s.log, s.port.epoch, s.receivers);
      StreamEnvSteps.BatchesNonEmptyLog(s.log, s.port.sender);
      hide Inv, NetOk, ReceiversOk, LogOk;
      DataReceiver(s.receivers[i], c.window, s.log, s.port.epoch, OwnNet(s), m.frame.epoch, m.frame.offset,
                   m.frame.payload, sdk);
      ReplaceKeeps(c, s, i, Rx.OnData(s.receivers[i], m.frame.epoch, m.frame.offset, m.frame.payload, sdk));
    }
  }

  lemma ResumeReceiver(r: Rx.Receiver, window: nat, log: seq<Bytes>, epoch: nat, net: set<Message>,
                       session: Session, e: nat, sdk: Answers)
    requires ReceiverOk(r, window, log, epoch, net) && 1 <= e <= epoch && ResumeSeen(net, e)
    ensures var next := Rx.OnResume(r, session, e, sdk);
            && ReceiverOk(next, window, log, epoch, net) && next.accepted == r.accepted && next.stopped == r.stopped
            && next.state.next == r.state.next && r.state.epoch <= next.state.epoch
            && (Rx.ResumeTaken(r, e, sdk) ==> next.state.epoch == e)
  {
    hide Rx.AckOk, MarkOk;
    Rx.ResumeKeeps(r, session, e, sdk);
  }

  lemma ResumeArrivesKeeps(c: Config, s: State, m: Message, sdk: Answers, reached: bool)
    requires Inv(c, s)
    ensures Inv(c, DoResumeArrives(s, m, sdk, reached))
  {
    hide GateOk, CountersOk, LogOk, ReceiverOk, QueueOk, ConservedOk, WriterOk, CreditOk, EpochOk, ReplayOk, LifeOk,
         AttemptOk, SignalOk, ConfirmedOk, FromOk, Rx.OnResume;
    if m in OwnNet(s) && m.frame.Resume? && s.live.Some? && s.live.value < |s.receivers| {
      var i := s.live.value;
      var r := s.receivers[i];
      var e := m.frame.epoch;
      var next := Rx.OnResume(r, m.session, e, sdk);
      assert MessageOk(m, c.window, OwnNet(s), s.log, s.port.epoch, s.receivers);
      assert ResumeSeen(OwnNet(s), e);
      ResumeReceiver(r, c.window, s.log, s.port.epoch, OwnNet(s), m.session, e, sdk);
      hide Inv, NetOk, ReceiversOk;
      ReplaceKeeps(c, s, i, next);
      var t := s.(receivers := s.receivers[i := next]);
      ReceiverEnd(next, c.window, s.log, s.port.epoch, OwnNet(s));
      if Rx.ResumeTaken(r, e, sdk) {
        var reply := Message(next.session, s.port.id, Ack(e, next.state.next, sdk.window));
        AckMessage(reply, c.window, OwnNet(s), s.log, s.port.epoch, t.receivers, i);
        EmitKeeps(c, t, reply, reached);
      }
    }
  }

  lemma ReceiverEnd(r: Rx.Receiver, window: nat, log: seq<Bytes>, epoch: nat, net: set<Message>)
    requires ReceiverOk(r, window, log, epoch, net)
    ensures Reached(r.accepted, r.state.next)
  {
    ReachedEnd(r.accepted);
  }

  lemma AckMessage(m: Message, window: nat, net: set<Message>, log: seq<Bytes>, epoch: nat,
                   receivers: seq<Rx.Receiver>, i: nat)
    requires m.frame.Ack? && 1 <= m.frame.epoch <= epoch
    requires i < |receivers| && Reached(receivers[i].accepted, m.frame.offset)
    requires m.frame.epoch <= receivers[i].state.epoch
    requires m.frame.epoch > 1 ==> ResumeSeen(net, m.frame.epoch)
    ensures MessageOk(m, window, net + {m}, log, epoch, receivers)
  {
    hide Reached;
  }

  lemma OpenMessage(m: Message, window: nat, net: set<Message>, log: seq<Bytes>, epoch: nat,
                    receivers: seq<Rx.Receiver>)
    requires m in net && m.frame.Open? && MessageOk(m, window, net, log, epoch, receivers)
    ensures m.frame.epoch == 1 && m.frame.window == window
    ensures var reply := m.(frame := OpenAck(m.frame.epoch, m.frame.window));
            MessageOk(reply, window, net + {reply}, log, epoch, receivers)
  {
  }

  /** A receiver created by an Open starts from nothing, whatever was delivered before. */
  lemma NewReceiverKeeps(c: Config, s: State, session: Session)
    requires Inv(c, s) && (s.live.None? || s.live.value >= |s.receivers|)
    ensures Inv(c, s.(receivers := s.receivers + [Rx.NewReceiver(session, 1, c.window)], live := Some(|s.receivers|)))
  {
    hide GateOk, CountersOk, LogOk, NetOk, ReceiverOk, QueueOk, ConservedOk, WriterOk, CreditOk, ReplayOk, LifeOk,
         AttemptOk, SignalOk, ConfirmedOk, FromOk;
    var newest := Rx.NewReceiver(session, 1, c.window);
    var receivers := s.receivers + [newest];
    FreshReceiver(session, c.window, s.log, s.port.epoch, OwnNet(s));
    NetGrows(c.window, OwnNet(s), s.log, s.port.epoch, s.receivers, OwnNet(s), s.log, s.port.epoch, receivers);
    ConfirmedGrows(s.port.lastAck, s.receivers, receivers);
    FromGrows(s.life, s.receivers, receivers);
  }

  lemma FreshReceiver(session: Session, window: nat, log: seq<Bytes>, epoch: nat, net: set<Message>)
    requires epoch >= 1
    ensures ReceiverOk(Rx.NewReceiver(session, 1, window), window, log, epoch, net)
    ensures !Rx.NewReceiver(session, 1, window).stopped
  {
  }

  lemma SessionReceiver(r: Rx.Receiver, window: nat, log: seq<Bytes>, epoch: nat, net: set<Message>, session: Session)
    requires ReceiverOk(r, window, log, epoch, net)
    ensures ReceiverOk(Rx.SetSession(r, session), window, log, epoch, net)
  {
    hide Rx.AckOk;
    Rx.SessionKeeps(r, session);
  }

  lemma StoppedReceiver(r: Rx.Receiver, window: nat, log: seq<Bytes>, epoch: nat, net: set<Message>)
    requires ReceiverOk(r, window, log, epoch, net)
    ensures ReceiverOk(Rx.StopAcks(r), window, log, epoch, net)
  {
    hide Rx.AckOk;
    Rx.StopKeeps(r);
  }

  lemma RetireKeeps(c: Config, s: State)
    requires Inv(c, s)
    ensures Inv(c, RetireLive(s))
  {
    hide GateOk, CountersOk, LogOk, NetOk, ReceiverOk, QueueOk, ConservedOk, WriterOk, CreditOk, EpochOk, ReplayOk,
         LifeOk, AttemptOk, SignalOk, ConfirmedOk, FromOk;
    if s.live.Some? && s.live.value < |s.receivers| {
      var i := s.live.value;
      StoppedReceiver(s.receivers[i], c.window, s.log, s.port.epoch, OwnNet(s));
      var receivers := s.receivers[i := Rx.StopAcks(s.receivers[i])];
      NetGrows(c.window, OwnNet(s), s.log, s.port.epoch, s.receivers, OwnNet(s), s.log, s.port.epoch, receivers);
      ConfirmedGrows(s.port.lastAck, s.receivers, receivers);
      FromGrows(s.life, s.receivers, receivers);
    }
  }

  lemma OpenArrivesKeeps(c: Config, s: State, m: Message, reached: bool)
    requires Inv(c, s)
    ensures Inv(c, DoOpenArrives(s, m, reached))
  {
    hide GateOk, CountersOk, LogOk, ReceiverOk, QueueOk, ConservedOk, WriterOk, CreditOk, EpochOk, ReplayOk, LifeOk,
         AttemptOk, SignalOk, ConfirmedOk, FromOk;
    if m in s.net && m.id != s.port.id && m.frame.Open? {
      hide Inv;
      var reply := m.(frame := OpenAck(m.frame.epoch, m.frame.window));
      EmitKeeps(c, s, reply, reached);
      RetireKeeps(c, s.(net := Emit(s.net, reply, reached)));
    } else if m in OwnNet(s) && m.frame.Open? {
      OpenMessage(m, c.window, OwnNet(s), s.log, s.port.epoch, s.receivers);
      var reply := m.(frame := OpenAck(m.frame.epoch, m.frame.window));
      EmitKeeps(c, s, reply, reached);
      var t := s.(net := Emit(s.net, reply, reached));
      if s.live.Some? && s.live.value < |s.receivers| {
        var i := s.live.value;
        assert ReceiverOk(t.receivers[i], c.window, t.log, t.port.epoch, OwnNet(t));
        hide Inv, NetOk, ReceiversOk;
        SessionReceiver(s.receivers[i], c.window, t.log, t.port.epoch, OwnNet(t), m.session);
        ReplaceKeeps(c, t, i, Rx.SetSession(s.receivers[i], m.session));
      } else {
        hide Inv, NetOk, ReceiversOk;
        NewReceiverKeeps(c, t, m.session);
      }
    }
  }

  lemma LoopReceiver(r: Rx.Receiver, window: nat, log: seq<Bytes>, epoch: nat, net: set<Message>)
    requires ReceiverOk(r, window, log, epoch, net)
    ensures ReceiverOk(Rx.LoopWake(r), window, log, epoch, net) && ReceiverOk(Rx.LoopTake(r), window, log, epoch, net)
    ensures ReceiverOk(Rx.LoopSend(r), window, log, epoch, net) && ReceiverOk(Rx.LoopCancel(r), window, log, epoch, net)
  {
    hide Rx.AckOk;
    Rx.WakeKeeps(r);
    Rx.TakeKeeps(r);
    Rx.SendKeeps(r);
  }

  lemma LoopKeeps(c: Config, s: State, i: nat)
    requires Inv(c, s) && i < |s.receivers|
    ensures Inv(c, s.(receivers := s.receivers[i := Rx.LoopWake(s.receivers[i])]))
    ensures Inv(c, s.(receivers := s.receivers[i := Rx.LoopTake(s.receivers[i])]))
    ensures Inv(c, s.(receivers := s.receivers[i := Rx.LoopSend(s.receivers[i])]))
    ensures Inv(c, s.(receivers := s.receivers[i := Rx.LoopCancel(s.receivers[i])]))
  {
    hide GateOk, CountersOk, LogOk, NetOk, ReceiverOk, QueueOk, ConservedOk, WriterOk, CreditOk, EpochOk, ReplayOk,
         LifeOk, AttemptOk, SignalOk, ConfirmedOk, FromOk;
    var r := s.receivers[i];
    LoopReceiver(r, c.window, s.log, s.port.epoch, OwnNet(s));
    hide Inv, ReceiversOk;
    ReplaceKeeps(c, s, i, Rx.LoopWake(r));
    ReplaceKeeps(c, s, i, Rx.LoopTake(r));
    ReplaceKeeps(c, s, i, Rx.LoopSend(r));
    ReplaceKeeps(c, s, i, Rx.LoopCancel(r));
  }

  lemma QueuedMark(r: Rx.Receiver, window: nat, log: seq<Bytes>, epoch: nat, net: set<Message>, k: nat)
    requires ReceiverOk(r, window, log, epoch, net) && k < |r.queued|
    ensures MarkOk(r.queued[k], r.accepted, epoch, net) && r.queued[k].epoch <= r.state.epoch
  {
  }

  lemma AckSendKeeps(c: Config, s: State, i: nat, reached: bool)
    requires Inv(c, s)
    ensures Inv(c, DoAckSend(s, i, reached))
  {
    hide GateOk, CountersOk, LogOk, NetOk, ReceiverOk, QueueOk, ConservedOk, WriterOk, CreditOk, EpochOk, ReplayOk,
         LifeOk, AttemptOk, SignalOk, ConfirmedOk, FromOk, Reached;
    if i < |s.receivers| && s.receivers[i].loop.Sending? && s.receivers[i].loop.index < |s.receivers[i].queued| {
      var r := s.receivers[i];
      var mark := r.queued[r.loop.index];
      QueuedMark(r, c.window, s.log, s.port.epoch, OwnNet(s), r.loop.index);
      hide Inv, ReceiversOk;
      LoopKeeps(c, s, i);
      var t := s.(receivers := s.receivers[i := Rx.LoopSend(r)]);
      AckMessage(Message(r.session, s.port.id, Rx.AckFrame(mark)), c.window, OwnNet(s), s.log, s.port.epoch,
                 t.receivers, i);
      EmitKeeps(c, t, Message(r.session, s.port.id, Rx.AckFrame(mark)), reached);
    }
  }

  lemma RemoteKeeps(c: Config, s: State, a: RemoteAction)
    requires Inv(c, s)
    ensures Inv(c, RemoteStep(s, a))
  {
    hide Inv;
    match a
    case OpenArrives(m, reached) => OpenArrivesKeeps(c, s, m, reached);
    case DataArrives(m, sdk) => DataArrivesKeeps(c, s, m, sdk);
    case ResumeArrives(m, sdk, reached) => ResumeArrivesKeeps(c, s, m, sdk, reached);
    case CloseArrives(m) => RetireKeeps(c, s);
    case AckSend(i, reached) => AckSendKeeps(c, s, i, reached);
    case AckWake(i) => if i < |s.receivers| { LoopKeeps(c, s, i); }
    case AckTake(i) => if i < |s.receivers| { LoopKeeps(c, s, i); }
    case AckCancel(i) => if i < |s.receivers| { LoopKeeps(c, s, i); }
  }
}
