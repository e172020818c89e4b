/** Exactly when a receiver can fall behind the acknowledged offset while it lives. */
module StreamLag {
  import opened Common
  import opened StreamCodec
  import opened StreamLog
  import opened StreamSdk
  import opened StreamPath
  import opened StallDetector
  import opened StreamSystem
  import opened StreamInvariant
  import opened StreamTheorems
  import StreamLifeSteps
  import Rx = StreamReceiver

  // ------------------------------------------------------------ the statement

  /** A continuation: some states and the steps between them. */
  ghost predicate IsPath(c: Config, p: History) {
    |p.states| == |p.actions| + 1 && forall n :: 0 <= n < |p.actions| ==> Linked(c, p, n)
  }

  ghost predicate Lives(p: History, i: nat) {
    forall k :: 0 <= k < |p.states| ==> p.states[k].live == Some(i)
  }

  predicate CaughtUp(s: State, i: nat) {
    i < |s.receivers| && s.port.lastAck <= s.receivers[i].state.next
  }

  /** Whatever happens, the receiver is never behind the acknowledged offset for as long as it lives. */
  ghost predicate NeverLags(c: Config, s: State, i: nat) {
    forall p: History :: IsPath(c, p) && p.states[0] == s && Lives(p, i) ==> CaughtUp(p.states[|p.states| - 1], i)
  }

  /** The port would take this frame for an ACK of its current epoch and route. */
  predicate Counts(m: Message, target: Session, epoch: nat) {
    m.frame.Ack? && m.session == target && m.frame.epoch == epoch
  }

  predicate InHand(r: Rx.Receiver) {
    r.loop.Sending? && r.loop.index < |r.queued|
  }

  /** The ACK an ACK goroutine has taken and not yet written. */
  function HandAck(r: Rx.Receiver, id: nat): Message
    requires InHand(r)
  {
    var mark := r.queued[r.loop.index];
    Message(r.session, id, Rx.AckFrame(mark))
  }

  /**
   * Receiver `i` has reached the acknowledged offset, every ACK of the current epoch and route that is
   * on the wire, and every such ACK in the hand of another, removed receiver.
   */
  ghost predicate Ahead(lastAck: nat, target: Session, epoch: nat, id: nat, net: set<Message>,
                        receivers: seq<Rx.Receiver>, i: nat) {
    && i < |receivers|
    && var next := receivers[i].state.next;
       && lastAck <= next
       && (forall m :: m in net && Counts(m, target, epoch) ==> m.frame.offset <= next)
       && (forall j :: 0 <= j < |receivers| && j != i && InHand(receivers[j])
                       && Counts(HandAck(receivers[j], id), target, epoch) ==>
             HandAck(receivers[j], id).frame.offset <= next)
  }

  ghost predicate AheadNow(s: State, i: nat) {
    Ahead(s.port.lastAck, s.port.target, s.port.epoch, s.port.id, OwnNet(s), s.receivers, i)
  }

  // ---------------------------------------------------- every step keeps it

  /** A step that touches neither receivers nor the acknowledged offset, and sends no ACK. */
  ghost predicate Bystander(s: State, t: State) {
    && t.receivers == s.receivers
    && t.port.lastAck == s.port.lastAck && t.port.target == s.port.target && t.port.epoch == s.port.epoch
    && t.port.id == s.port.id
    && forall m :: m in OwnNet(t) && m !in OwnNet(s) ==> !m.frame.Ack?
  }

  lemma BystanderAhead(s: State, t: State, i: nat)
    requires AheadNow(s, i) && Bystander(s, t)
    ensures AheadNow(t, i)
  {
  }

  lemma EnvBystander(c: Config, s: State, a: EnvAction)
    requires !a.AckArrives?
    ensures Bystander(s, EnvStep(c, s, a))
  {
    hide Own, Bystander, Fail, Lose, DoEnqueue, DoOpenAck;
    match a
    case OpenAckArrives(m) => OpenAckBystander(s, m);
    case SendResult(id, session, epoch) =>
      Still(s);
      LossBystander(s, SendFailed);
    case PathDown(err) => PathDownBystander(s, err);
    case _ => PassingBystander(c, s, a);
  }

  lemma Still(s: State)
    ensures Bystander(s, s)
  {
  }

  lemma OpenAckBystander(s: State, m: Message)
    ensures Bystander(s, DoOpenAck(s, m))
  {
    hide Own;
  }

  lemma PathDownBystander(s: State, err: Option<Failure>)
    ensures Bystander(s, DoPathDown(s, err))
  {
    hide Own;
  }

  lemma PassingBystander(c: Config, s: State, a: EnvAction)
    requires !a.AckArrives? && !a.OpenAckArrives? && !a.SendResult? && !a.PathDown?
    ensures Bystander(s, EnvStep(c, s, a))
  {
    hide Own;
    if a.ForeignFrame? {
      OwnAdded(s.net, s.port.id, a.m);
    }
  }

  lemma LossBystander(s: State, err: Failure)
    ensures forall next, matched :: next in {s.port, Lose(s.port, err)} ==> Bystander(s, Fail(s, next, matched))
  {
    hide Own;
  }

  lemma LifeBystander(c: Config, s: State, a: LifeAction)
    requires Inv(c, s) && !a.TryOpen? && !a.TryResume?
    ensures Bystander(s, LifeStep(c, s, a))
  {
    hide Inv, DoResumeSender, DoCompleteReplay, DoReplayNext;
    match a
    case ReplayNext(err, reached) => ReplayBystander(c, s, err, reached);
    case ResumeSender => AttemptBystander(s);
    case CompleteReplay => AttemptBystander(s);
    case _ =>
  }

  lemma ReplayBystander(c: Config, s: State, err: bool, reached: bool)
    requires Inv(c, s)
    ensures Bystander(s, DoReplayNext(s, err, reached))
  {
    hide Inv, MessageOk, Own;
    if s.life.Replaying? && s.life.sent < |s.life.frames| {
      StreamLifeSteps.ReplayMessage(c, s);
      OwnAdded(s.net, s.port.id, Message(s.life.session, s.port.id, s.life.frames[s.life.sent]));
    }
  }

  lemma AttemptBystander(s: State)
    ensures Bystander(s, DoResumeSender(s)) && Bystander(s, DoCompleteReplay(s))
  {
    if s.life.ResumeBegun? {
      PathKept(s.port, s.life.epoch, s.life.from);
    }
    hide SenderResumed;
  }

  lemma WriterBystander(c: Config, s: State, a: WriterAction)
    requires Inv(c, s)
    ensures Bystander(s, WriterStep(c, s, a))
  {
    if s.writer.pc.SendingData? {
      HandIsData(c, s);
    }
    hide Inv, Bystander, DoSendFrame, DoFailStalled, DoFailIdle, DoFailSend, DoOfferData;
    match a
    case SendFrame(err, reached) => SendBystander(s, err, reached);
    case OfferData => OfferBystander(s);
    case FailStalled => FailBystander(s);
    case FailIdle => FailBystander(s);
    case FailSend => FailBystander(s);
    case _ => LocalBystander(c, s, a);
  }

  lemma HandIsData(c: Config, s: State)
    requires Inv(c, s)
    ensures s.writer.pc.SendingData? ==> s.writer.pc.frame.Data?
  {
    hide GateOk, CountersOk, LogOk, NetOk, ReceiversOk, ConfirmedOk, QueueOk, ConservedOk, CreditOk, EpochOk, WireOk,
         ReplayOk, LifeOk, AttemptOk, SignalOk, FromOk, CurrentResumeOk;
  }

  lemma SendBystander(s: State, err: bool, reached: bool)
    requires s.writer.pc.SendingData? ==> s.writer.pc.frame.Data?
    ensures Bystander(s, DoSendFrame(s, err, reached))
  {
  }

  /** Only the sender, the sent end and the writer's own history change. */
  lemma OfferBystander(s: State)
    ensures Bystander(s, DoOfferData(s))
  {
    hide Own, DataForReadyPath;
    if s.writer.pc == TryData && s.writer.pending.Some? {
      OfferedPort(s.port, s.writer.pending.value);
    }
  }

  lemma OfferedPort(p: Port, payload: Bytes)
    ensures var q := DataForReadyPath(p, payload).0;
            q.lastAck == p.lastAck && q.target == p.target && q.epoch == p.epoch && q.id == p.id
  {
    hide SenderData;
  }

  lemma FailBystander(s: State)
    ensures Bystander(s, DoFailStalled(s)) && Bystander(s, DoFailIdle(s)) && Bystander(s, DoFailSend(s))
  {
    LossBystander(s, AckStalled);
    LossBystander(s, SendFailed);
    hide Own, Fail, Lose;
  }

  lemma LocalBystander(c: Config, s: State, a: WriterAction)
    requires !a.SendFrame? && !a.OfferData? && !a.FailStalled? && !a.FailIdle? && !a.FailSend?
    ensures Bystander(s, WriterStep(c, s, a))
  {
    hide Own, StartBatch, AppendPacket, IsStreamBatch, Fires, Observe, Restarts;
  }

  lemma AckAhead(c: Config, s: State, m: Message, i: nat)
    requires AheadNow(s, i)
    ensures AheadNow(DoAck(s, m), i)
  {
    hide SenderAcknowledge;
  }

  /** While nothing was accepted, nothing was acknowledged: a change of the target can do no harm. */
  lemma AllZero(c: Config, s: State)
    requires Inv(c, s) && s.log == []
    ensures s.port.lastAck == 0
    ensures forall m :: m in OwnNet(s) && m.frame.Ack? ==> m.frame.offset == 0
    ensures forall j :: 0 <= j < |s.receivers| && InHand(s.receivers[j]) ==>
      HandAck(s.receivers[j], s.port.id).frame.offset == 0
  {
    hide GateOk, CountersOk, LogOk, QueueOk, ConservedOk, WriterOk, CreditOk, EpochOk, WireOk, ReplayOk, LifeOk,
         AttemptOk, SignalOk, FromOk, CurrentResumeOk, Rx.AckOk;
    forall j | 0 <= j < |s.receivers| ensures s.receivers[j].accepted == [] {
      assert ReceiverOk(s.receivers[j], c.window, s.log, s.port.epoch, OwnNet(s));
    }
    forall m | m in OwnNet(s) && m.frame.Ack? ensures m.frame.offset == 0 {
      assert MessageOk(m, c.window, OwnNet(s), s.log, s.port.epoch, s.receivers);
    }
    forall j | 0 <= j < |s.receivers| && InHand(s.receivers[j])
      ensures HandAck(s.receivers[j], s.port.id).frame.offset == 0
    {
      var r := s.receivers[j];
      assert MarkOk(r.queued[r.loop.index], r.accepted, s.port.epoch, OwnNet(s));
    }
  }

  /** No ACK on the wire or in a hand names an epoch that has not begun. */
  lemma NoneOfLater(c: Config, s: State, epoch: nat)
    requires Inv(c, s) && epoch > s.port.epoch
    ensures forall m :: m in OwnNet(s) && m.frame.Ack? ==> m.frame.epoch != epoch
    ensures forall j :: 0 <= j < |s.receivers| && InHand(s.receivers[j]) ==>
      HandAck(s.receivers[j], s.port.id).frame.epoch != epoch
  {
    hide GateOk, CountersOk, LogOk, QueueOk, ConservedOk, WriterOk, CreditOk, EpochOk, WireOk, ReplayOk, LifeOk,
         AttemptOk, SignalOk, FromOk, CurrentResumeOk, Rx.AckOk, Reached, AckedBy;
    forall m | m in OwnNet(s) && m.frame.Ack? ensures m.frame.epoch != epoch {
      assert MessageOk(m, c.window, OwnNet(s), s.log, s.port.epoch, s.receivers);
    }
    forall j | 0 <= j < |s.receivers| && InHand(s.receivers[j])
      ensures HandAck(s.receivers[j], s.port.id).frame.epoch != epoch
    {
      var r := s.receivers[j];
      assert ReceiverOk(r, c.window, s.log, s.port.epoch, OwnNet(s));
      assert MarkOk(r.queued[r.loop.index], r.accepted, s.port.epoch, OwnNet(s));
    }
  }

  lemma TryAhead(c: Config, s: State, session: Session, i: nat)
    requires Inv(c, s) && AheadNow(s, i)
    ensures AheadNow(DoTryOpen(s, session), i) && AheadNow(DoTryResume(s, session), i)
  {
    hide Inv, AheadNow, DoTryOpen, DoTryResume;
    NoneOfLater(c, s, s.port.epoch + 1);
    TryResumeAhead(s, session, i);
    if s.life.OpenIdle? {
      NothingSent(c, s);
      AllZero(c, s);
    }
    TryOpenAhead(s, session, i);
  }

  lemma TryResumeAhead(s: State, session: Session, i: nat)
    requires AheadNow(s, i)
    requires forall m :: m in OwnNet(s) && m.frame.Ack? ==> m.frame.epoch != s.port.epoch + 1
    requires forall j :: 0 <= j < |s.receivers| && InHand(s.receivers[j]) ==>
               HandAck(s.receivers[j], s.port.id).frame.epoch != s.port.epoch + 1
    ensures AheadNow(DoTryResume(s, session), i)
  {
    hide Own;
  }

  lemma TryOpenAhead(s: State, session: Session, i: nat)
    requires AheadNow(s, i)
    requires s.life.OpenIdle? ==> s.port.lastAck == 0
    requires s.life.OpenIdle? ==> forall m :: m in OwnNet(s) && m.frame.Ack? ==> m.frame.offset == 0
    requires s.life.OpenIdle? ==> forall j :: 0 <= j < |s.receivers| && InHand(s.receivers[j]) ==>
               HandAck(s.receivers[j], s.port.id).frame.offset == 0
    ensures AheadNow(DoTryOpen(s, session), i)
  {
    hide Own;
  }

  lemma NothingSent(c: Config, s: State)
    requires Inv(c, s)
    ensures s.life.OpenIdle? ==> s.log == []
  {
    hide GateOk, CountersOk, LogOk, NetOk, ReceiversOk, ConfirmedOk, QueueOk, WriterOk, CreditOk, WireOk, ReplayOk,
         LifeOk, AttemptOk, SignalOk, FromOk, CurrentResumeOk, Packets, PendingPackets, BatchOk;
  }

  // ------------------------------------------------------- the remote process

  /** What the live receiver holds is its own progress; every other receiver is stopped. */
  lemma OwnMarks(c: Config, s: State, i: nat)
    requires Inv(c, s) && s.live == Some(i)
    ensures i < |s.receivers|
    ensures InHand(s.receivers[i]) ==> HandAck(s.receivers[i], s.port.id).frame.offset <= s.receivers[i].state.next
    ensures forall j :: 0 <= j < |s.receivers| && j != i ==> s.receivers[j].stopped
  {
    hide GateOk, CountersOk, LogOk, NetOk, QueueOk, ConservedOk, WriterOk, CreditOk, EpochOk, WireOk, ReplayOk,
         LifeOk, AttemptOk, SignalOk, FromOk, CurrentResumeOk, ConfirmedOk, MarkOk, Rx.LoopOk, Rx.NewestAccounted;
    assert ReceiverOk(s.receivers[i], c.window, s.log, s.port.epoch, OwnNet(s));
  }

  /** The live receiver moves on, and what is added to the wire acknowledges no more than it has. */
  lemma LiveAhead(s: State, i: nat, next: Rx.Receiver, m: Message, reached: bool)
    requires AheadNow(s, i) && s.receivers[i].state.next <= next.state.next
    requires m.frame.Ack? ==> m.frame.offset <= next.state.next
    ensures AheadNow(s.(receivers := s.receivers[i := next], net := Emit(s.net, m, reached)), i)
  {
  }

  lemma OffsetsKept(r: Rx.Receiver, session: Session, epoch: nat, offset: nat, payload: Bytes, sdk: Answers)
    ensures r.state.next <= Rx.OnData(r, epoch, offset, payload, sdk).state.next
    ensures Rx.OnResume(r, session, epoch, sdk).state.next == r.state.next
    ensures Rx.OnData(r, epoch, offset, payload, sdk).loop.Sending? ==> r.loop.Sending?
  {
  }

  lemma ArrivalAhead(s: State, a: RemoteAction, i: nat)
    requires AheadNow(s, i) && s.live == Some(i)
    requires a.DataArrives? || a.ResumeArrives? || a.OpenArrives? || a.CloseArrives?
    requires RemoteStep(s, a).live == Some(i)
    ensures AheadNow(RemoteStep(s, a), i)
  {
    assert i < |s.receivers|;
    hide AheadNow, Rx.OnData, Rx.OnResume, Rx.StopAcks;
    var r := s.receivers[i];
    var none := Message(NO_SESSION, s.port.id, Close(0));
    match a
    case DataArrives(m, sdk) =>
      if m.frame.Data? {
        OffsetsKept(r, m.session, m.frame.epoch, m.frame.offset, m.frame.payload, sdk);
        LiveAhead(s, i, Rx.OnData(r, m.frame.epoch, m.frame.offset, m.frame.payload, sdk), none, false);
      }
    case ResumeArrives(m, sdk, reached) =>
      if m.frame.Resume? {
        var next := Rx.OnResume(r, m.session, m.frame.epoch, sdk);
        OffsetsKept(r, m.session, m.frame.epoch, 0, [], sdk);
        LiveAhead(s, i, next, Message(next.session, s.port.id, Ack(m.frame.epoch, next.state.next, sdk.window)),
                  reached && Rx.ResumeTaken(r, m.frame.epoch, sdk));
      }
    case OpenArrives(m, reached) =>
      if m.frame.Open? {
        LiveAhead(s, i, Rx.SetSession(r, m.session), m.(frame := OpenAck(m.frame.epoch, m.frame.window)), reached);
      }
    case CloseArrives(m) =>
  }

  /** A step of an ACK goroutine that leaves the offset alone and takes no ACK, unless for the live receiver. */
  lemma LoopStepAhead(s: State, j: nat, next: Rx.Receiver, i: nat)
    requires AheadNow(s, i) && j < |s.receivers| && next.state == s.receivers[j].state
    requires j == i || !InHand(next)
      || (InHand(s.receivers[j]) && HandAck(next, s.port.id) == HandAck(s.receivers[j], s.port.id))
    ensures AheadNow(s.(receivers := s.receivers[j := next]), i)
  {
    hide Own;
  }

  lemma LoopHands(r: Rx.Receiver, id: nat)
    ensures forall next :: next in [Rx.LoopWake(r), Rx.LoopCancel(r), Rx.LoopTake(r)] ==> next.state == r.state
    ensures InHand(Rx.LoopWake(r)) ==> InHand(r) && HandAck(Rx.LoopWake(r), id) == HandAck(r, id)
    ensures InHand(Rx.LoopCancel(r)) ==> InHand(r) && HandAck(Rx.LoopCancel(r), id) == HandAck(r, id)
    ensures r.stopped && InHand(Rx.LoopTake(r)) ==> InHand(r) && HandAck(Rx.LoopTake(r), id) == HandAck(r, id)
  {
  }

  /** A removed receiver takes no further ACK. */
  lemma LoopAhead(s: State, j: nat, i: nat)
    requires AheadNow(s, i) && j < |s.receivers| && (j == i || s.receivers[j].stopped)
    ensures AheadNow(s.(receivers := s.receivers[j := Rx.LoopWake(s.receivers[j])]), i)
    ensures AheadNow(s.(receivers := s.receivers[j := Rx.LoopTake(s.receivers[j])]), i)
    ensures AheadNow(s.(receivers := s.receivers[j := Rx.LoopCancel(s.receivers[j])]), i)
  {
    hide AheadNow;
    LoopHands(s.receivers[j], s.port.id);
    hide Rx.LoopWake, Rx.LoopTake, Rx.LoopCancel, InHand, HandAck;
    LoopStepAhead(s, j, Rx.LoopWake(s.receivers[j]), i);
    LoopStepAhead(s, j, Rx.LoopTake(s.receivers[j]), i);
    LoopStepAhead(s, j, Rx.LoopCancel(s.receivers[j]), i);
  }

  /** Writing an ACK already counted, or one the live receiver reached, adds nothing new. */
  lemma AckSendAhead(s: State, j: nat, reached: bool, i: nat)
    requires AheadNow(s, i)
    requires j == i && InHand(s.receivers[i]) ==>
      HandAck(s.receivers[i], s.port.id).frame.offset <= s.receivers[i].state.next
    ensures AheadNow(DoAckSend(s, j, reached), i)
  {
    hide Own;
    if j < |s.receivers| && InHand(s.receivers[j]) {
      OwnAdded(s.net, s.port.id, HandAck(s.receivers[j], s.port.id));
    }
  }

  lemma StepAhead(c: Config, s: State, a: Action, i: nat)
    requires Inv(c, s) && AheadNow(s, i) && s.live == Some(i) && Step(c, s, a).live == Some(i)
    ensures AheadNow(Step(c, s, a), i)
  {
    hide Inv, EnvStep, LifeStep, WriterStep, RemoteStep, Bystander, AheadNow;
    var t := Apply(c, s, a);
    match a {
      case Env(e) =>
        if e.AckArrives? {
          AckStep(c, s, e.m, i);
        } else {
          EnvBystander(c, s, e);
          BystanderAhead(s, t, i);
        }
      case Lifecycle(l) =>
        if l.TryOpen? || l.TryResume? {
          TryStep(c, s, l, i);
        } else {
          LifeBystander(c, s, l);
          BystanderAhead(s, t, i);
        }
      case Write(w) =>
        WriterBystander(c, s, w);
        BystanderAhead(s, t, i);
      case Remote(r) =>
        RemoteAhead(c, s, r, i);
    }
    CountingAhead(t, s.steps + 1, i);
  }

  lemma CountingAhead(s: State, steps: nat, i: nat)
    requires AheadNow(s, i)
    ensures AheadNow(s.(steps := steps), i)
  {
  }

  lemma AckStep(c: Config, s: State, m: Message, i: nat)
    requires AheadNow(s, i)
    ensures AheadNow(EnvStep(c, s, AckArrives(m)), i)
  {
    AckAhead(c, s, m, i);
  }

  lemma TryStep(c: Config, s: State, a: LifeAction, i: nat)
    requires Inv(c, s) && AheadNow(s, i) && (a.TryOpen? || a.TryResume?)
    ensures AheadNow(LifeStep(c, s, a), i)
  {
    hide Inv, AheadNow, DoTryOpen, DoTryResume;
    TryAhead(c, s, a.session, i);
  }

  lemma RemoteAhead(c: Config, s: State, a: RemoteAction, i: nat)
    requires Inv(c, s) && AheadNow(s, i) && s.live == Some(i) && RemoteStep(s, a).live == Some(i)
    ensures AheadNow(RemoteStep(s, a), i)
  {
    hide Inv, AheadNow, Rx.LoopWake, Rx.LoopTake, Rx.LoopCancel, DoAckSend;
    OwnMarks(c, s, i);
    match a
    case AckSend(j, reached) => AckSendAhead(s, j, reached, i);
    case AckWake(j) => if j < |s.receivers| { LoopAhead(s, j, i); }
    case AckTake(j) => if j < |s.receivers| { LoopAhead(s, j, i); }
    case AckCancel(j) => if j < |s.receivers| { LoopAhead(s, j, i); }
    case _ => ArrivalAhead(s, a, i);
  }

  lemma {:induction false} PathAhead(c: Config, p: History, i: nat, n: nat)
    requires IsPath(c, p) && Lives(p, i) && n < |p.states|
    requires Inv(c, p.states[0]) && AheadNow(p.states[0], i)
    ensures Inv(c, p.states[n]) && AheadNow(p.states[n], i)
  {
    hide Inv, AheadNow, Step;
    if n > 0 {
      PathAhead(c, p, i, n - 1);
      assert Linked(c, p, n - 1);
      StepKeeps(c, p.states[n - 1], p.actions[n - 1]);
      StepAhead(c, p.states[n - 1], p.actions[n - 1], i);
    }
  }

  // -------------------------------------------------- otherwise it can lag

  lemma BehindLags(c: Config, s: State, i: nat)
    requires s.live == Some(i) && !CaughtUp(s, i)
    ensures !NeverLags(c, s, i)
  {
    var p := History([s], []);
    assert IsPath(c, p) && Lives(p, i);
  }

  lemma LagsAfter(c: Config, s: State, a: Action, i: nat)
    requires s.live == Some(i) && !NeverLags(c, Step(c, s, a), i)
    ensures !NeverLags(c, s, i)
  {
    hide Step, CaughtUp;
    var p: History :|
      IsPath(c, p) && p.states[0] == Step(c, s, a) && Lives(p, i) && !CaughtUp(p.states[|p.states| - 1], i);
    var q := History([s] + p.states, [a] + p.actions);
    forall n | 0 <= n < |q.actions| ensures Linked(c, q, n) {
      if n > 0 {
        assert Linked(c, p, n - 1);
      }
    }
    assert IsPath(c, q) && Lives(q, i);
    assert q.states[|q.states| - 1] == p.states[|p.states| - 1];
  }

  /** A counting ACK past the receiver's offset arrives; during a Resume the sender first moves to the epoch. */
  lemma WireLags(c: Config, s: State, i: nat, m: Message)
    requires Inv(c, s) && s.live == Some(i) && i < |s.receivers|
    requires m in OwnNet(s) && Counts(m, s.port.target, s.port.epoch) && m.frame.offset > s.receivers[i].state.next
    ensures !NeverLags(c, s, i)
  {
    hide Inv, NeverLags, DoResumeSender;
    if s.life.ResumeBegun? {
      var a := Lifecycle(ResumeSender);
      StepKeeps(c, s, a);
      SenderMoves(c, s);
      var t := Step(c, s, a);
      assert t == DoResumeSender(s).(steps := s.steps + 1);
      hide Step;
      ArrivalLags(c, t, i, m);
      LagsAfter(c, s, a, i);
    } else {
      ArrivalLags(c, s, i, m);
    }
  }

  lemma SenderMoves(c: Config, s: State)
    requires Inv(c, s) && s.life.ResumeBegun?
    ensures var t := DoResumeSender(s);
            && !t.life.ResumeBegun? && t.live == s.live && t.receivers == s.receivers && t.net == s.net
            && t.port.target == s.port.target && t.port.epoch == s.port.epoch && t.port.id == s.port.id
  {
    hide Inv, DoResumeSender;
    StreamLifeSteps.ResumeSenderKeeps(c, s);
    SenderOnly(s);
  }

  lemma SenderOnly(s: State)
    ensures var t := DoResumeSender(s);
            && t.live == s.live && t.receivers == s.receivers && t.net == s.net
            && t.port.target == s.port.target && t.port.epoch == s.port.epoch && t.port.id == s.port.id
  {
    if s.life.ResumeBegun? {
      PathKept(s.port, s.life.epoch, s.life.from);
    }
    hide SenderResumed;
  }

  lemma PathKept(p: Port, epoch: nat, offset: nat)
    ensures match SenderResumed(p, epoch, offset)
            case None => true
            case Some((q, _)) => q == p.(sender := q.sender)
  {
    hide SenderResume;
  }

  lemma ArrivalLags(c: Config, s: State, i: nat, m: Message)
    requires Inv(c, s) && s.live == Some(i) && i < |s.receivers| && !s.life.ResumeBegun?
    requires m in OwnNet(s) && Counts(m, s.port.target, s.port.epoch) && m.frame.offset > s.receivers[i].state.next
    ensures !NeverLags(c, s, i)
  {
    hide Inv, NeverLags, Own, Step, AckTaken;
    AckFits(c, s, m);
    AckCounts(c, s, m);
    var a := Env(AckArrives(m));
    BehindLags(c, Step(c, s, a), i);
    LagsAfter(c, s, a, i);
  }

  lemma AckCounts(c: Config, s: State, m: Message)
    requires m in OwnNet(s) && m.frame.Ack?
    requires AckTaken(s.port, m.session, m.frame.epoch, m.frame.offset, m.frame.window)
    ensures var t := Step(c, s, Env(AckArrives(m)));
            t.live == s.live && t.receivers == s.receivers && t.port.lastAck >= m.frame.offset
  {
    hide SenderAcknowledge;
  }

  lemma AckFits(c: Config, s: State, m: Message)
    requires Inv(c, s)
    ensures m in OwnNet(s) && Counts(m, s.port.target, s.port.epoch) && !s.life.ResumeBegun? ==>
      AckTaken(s.port, m.session, m.frame.epoch, m.frame.offset, m.frame.window)
  {
    if m in OwnNet(s) && Counts(m, s.port.target, s.port.epoch) && !s.life.ResumeBegun? {
      EpochsAgree(c, s);
      AckedSent(c, s, m);
    }
    hide Inv, DropAcked;
  }

  lemma EpochsAgree(c: Config, s: State)
    requires Inv(c, s)
    ensures !s.life.ResumeBegun? ==> s.port.sender.epoch == s.port.epoch
  {
    hide GateOk, CountersOk, LogOk, NetOk, ReceiversOk, ConfirmedOk, QueueOk, ConservedOk, WriterOk, CreditOk, WireOk,
         ReplayOk, LifeOk, AttemptOk, SignalOk, FromOk, CurrentResumeOk;
  }

  lemma AckedSent(c: Config, s: State, m: Message)
    requires Inv(c, s) && m in OwnNet(s) && m.frame.Ack?
    ensures m.frame.offset <= s.port.sender.end
  {
    Counters(c, s);
    hide GateOk, CountersOk, LogOk, QueueOk, ConservedOk, WriterOk, CreditOk, EpochOk, WireOk, ReplayOk, LifeOk,
         AttemptOk, SignalOk, FromOk, CurrentResumeOk, Rx.AckOk, MarkOk;
    assert MessageOk(m, c.window, OwnNet(s), s.log, s.port.epoch, s.receivers);
    var i: nat :| i < |s.receivers| && Reached(s.receivers[i].accepted, m.frame.offset);
    AcceptedPrefix(c, s, i);
    var r := s.receivers[i];
    assert ReceiverOk(r, c.window, s.log, s.port.epoch, OwnNet(s));
    var n: nat :| n <= |r.accepted| && Off(r.accepted, n) == m.frame.offset;
    OffMonotone(r.accepted, n, |r.accepted|);
  }

  /** A removed receiver's goroutine writes the ACK in its hand, and it arrives. */
  lemma HandLags(c: Config, s: State, i: nat, j: nat)
    requires Inv(c, s) && s.live == Some(i) && i < |s.receivers| && j < |s.receivers| && j != i
    requires InHand(s.receivers[j])
    requires var m := HandAck(s.receivers[j], s.port.id);
             Counts(m, s.port.target, s.port.epoch) && m.frame.offset > s.receivers[i].state.next
    ensures !NeverLags(c, s, i)
  {
    hide Inv, NeverLags, Own, DoAckSend, HandAck;
    var a, m := Remote(AckSend(j, true)), HandAck(s.receivers[j], s.port.id);
    StepKeeps(c, s, a);
    HandWritten(s, j);
    var t := Step(c, s, a);
    assert t == DoAckSend(s, j, true).(steps := s.steps + 1);
    hide Step;
    WireLags(c, t, i, m);
    LagsAfter(c, s, a, i);
  }

  lemma HandWritten(s: State, j: nat)
    requires j < |s.receivers| && InHand(s.receivers[j])
    ensures var t := DoAckSend(s, j, true);
            && t.port == s.port && t.live == s.live && |t.receivers| == |s.receivers|
            && (forall i :: 0 <= i < |s.receivers| && i != j ==> t.receivers[i] == s.receivers[i])
            && HandAck(s.receivers[j], s.port.id) in Own(t.net, t.port.id)
  {
  }

  // ----------------------------------------------------------- main results

  /**
   * In every reachable state: the live receiver stays at or above the acknowledged offset in every
   * continuation while it lives, if and only if it has reached that offset, every ACK of the current
   * epoch and route on the wire, and every such ACK in the hand of a removed receiver.
   */
  lemma NeverLagsExactly(c: Config, h: History, n: nat, i: nat)
    requires IsRun(c, h) && n < |h.states| && h.states[n].live == Some(i)
    ensures NeverLags(c, h.states[n], i) <==> AheadNow(h.states[n], i)
  {
    hide IsRun;
    AlwaysInv(c, h, n);
    ExactNow(c, h.states[n], i);
  }

  lemma ExactNow(c: Config, s: State, i: nat)
    requires Inv(c, s) && s.live == Some(i)
    ensures NeverLags(c, s, i) <==> AheadNow(s, i)
  {
    hide Inv, Step;
    OwnMarks(c, s, i);
    if AheadNow(s, i) {
      hide AheadNow;
      forall p: History | IsPath(c, p) && p.states[0] == s && Lives(p, i)
        ensures CaughtUp(p.states[|p.states| - 1], i)
      {
        PathAhead(c, p, i, |p.states| - 1);
      }
    } else {
      hide NeverLags;
      var next := s.receivers[i].state.next;
      if s.port.lastAck > next {
        BehindLags(c, s, i);
      } else if m :| m in OwnNet(s) && Counts(m, s.port.target, s.port.epoch) && m.frame.offset > next {
        WireLags(c, s, i, m);
      } else {
        var j: nat :| j < |s.receivers| && j != i && InHand(s.receivers[j])
          && Counts(HandAck(s.receivers[j], s.port.id), s.port.target, s.port.epoch)
          && HandAck(s.receivers[j], s.port.id).frame.offset > next;
        HandLags(c, s, i, j);
      }
    }
  }

  /** Nothing was acknowledged, and no ACK that still counts acknowledges anything. */
  ghost predicate NothingAcked(s: State) {
    && s.port.lastAck == 0
    && (forall m :: m in OwnNet(s) && Counts(m, s.port.target, s.port.epoch) ==> m.frame.offset == 0)
    && (forall r :: r in s.receivers && InHand(r) && Counts(HandAck(r, s.port.id), s.port.target, s.port.epoch) ==>
          HandAck(r, s.port.id).frame.offset == 0)
  }

  /**
   * A receiver created anew by a late Open starts at offset 0 and never lags if and only if nothing was
   * acknowledged and nothing under way still acknowledges anything.
   */
  lemma RecreatedLags(c: Config, h: History, n: nat)
    requires IsRun(c, h) && n < |h.actions| && h.actions[n].Remote? && h.actions[n].remote.OpenArrives?
    ensures var s, t := h.states[n], h.states[n + 1];
            s.live.None? && t.live.Some? ==>
              && t.live == Some(|s.receivers|)
              && |t.receivers| == |s.receivers| + 1 && t.receivers[..|s.receivers|] == s.receivers
              && t.receivers[|s.receivers|].state.next == 0
              && (NeverLags(c, t, |s.receivers|) <==> NothingAcked(s))
  {
    var s, t := h.states[n], h.states[n + 1];
    assert Linked(c, h, n);
    if s.live.None? && t.live.Some? {
      var i := |s.receivers|;
      NeverLagsExactly(c, h, n + 1, i);
      hide NeverLags, IsRun;
      AheadOfNothing(s, t, h.actions[n].remote.m, h.actions[n].remote.reached);
    }
  }

  lemma AheadOfNothing(s: State, t: State, m: Message, reached: bool)
    requires s.live.None? && m in s.net && m.id == s.port.id && m.frame.Open?
    requires t == DoOpenArrives(s, m, reached).(steps := t.steps)
    ensures AheadNow(t, |s.receivers|) <==> NothingAcked(s)
  {
    var i := |s.receivers|;
    assert forall j :: 0 <= j < i ==> t.receivers[j] == s.receivers[j];
    if AheadNow(t, i) {
      forall r | r in s.receivers && InHand(r) && Counts(HandAck(r, s.port.id), s.port.target, s.port.epoch)
        ensures HandAck(r, s.port.id).frame.offset == 0
      {
        var j :| 0 <= j < i && s.receivers[j] == r;
        assert t.receivers[j] == r;
      }
    }
  }
}
