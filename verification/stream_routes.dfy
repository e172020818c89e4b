/** What the remote process does with each frame, and the route its answers take. */
module StreamRoutes {
  import opened Common
  import opened StreamLog
  import opened StreamSdk
  import opened StreamPath
  import opened StallDetector
  import opened StreamSystem
  import opened StreamInvariant
  import opened StreamTheorems
  import StreamCodec
  import StreamWire
  import Rx = StreamReceiver

  // ---------------------------------------------------- frames that arrive

  lemma LiveFacts(c: Config, s: State)
    requires Inv(c, s)
    ensures s.live.Some? ==> s.live.value < |s.receivers| && !s.receivers[s.live.value].stopped
  {
    hide GateOk, CountersOk, LogOk, NetOk, ConfirmedOk, QueueOk, ConservedOk, WriterOk, CreditOk, ReceiverOk,
         EpochOk, WireOk, ReplayOk, LifeOk, AttemptOk, SignalOk, FromOk, CurrentResumeOk;
  }

  /**
   * An Open is answered on the session it came on. One of this stream creates a receiver at offset 0 for that
   * session, or re-targets the live one and keeps what it delivered; one of another stream removes it.
   */
  lemma OpenIsAnswered(c: Config, h: History, n: nat, m: Message, reached: bool)
    requires IsRun(c, h) && n < |h.actions| && h.actions[n] == Remote(OpenArrives(m, reached))
    ensures var s, t := h.states[n], h.states[n + 1];
            m in s.net && m.frame.Open? ==>
              && StreamWire.Sends(s, t, Message(m.session, m.id, OpenAck(m.frame.epoch, m.frame.window)), reached)
              && (m.id != s.port.id ==> t.live.None?)
              && (m.id == s.port.id && s.live.Some? ==>
                    && t.live == s.live && s.live.value < |s.receivers| == |t.receivers|
                    && var i := s.live.value;
                       t.receivers[i] == s.receivers[i].(
                         session := if m.session != NO_SESSION then m.session else s.receivers[i].session))
              && (m.id == s.port.id && s.live.None? ==>
                    && t.live == Some(|s.receivers|) && |t.receivers| == |s.receivers| + 1
                    && t.receivers[..|s.receivers|] == s.receivers
                    && var r := t.receivers[|s.receivers|];
                       && r.session == m.session && r.state == ReceiverState(m.frame.epoch, 0)
                       && r.accepted == [] && !r.stopped)
  {
    hide Inv, EnvStep, LifeStep, WriterStep, Rx.StopAcks;
    AlwaysInv(c, h, n);
    assert Linked(c, h, n);
    LiveFacts(c, h.states[n]);
  }

  /** Data at the next offset of the receiver's epoch is delivered and acknowledged; other Data delivers nothing. */
  lemma DataIsDelivered(c: Config, h: History, n: nat, m: Message, sdk: Answers)
    requires IsRun(c, h) && n < |h.actions| && h.actions[n] == Remote(DataArrives(m, sdk))
    ensures var s, t := h.states[n], h.states[n + 1];
            m in s.net && m.id == s.port.id && m.frame.Data? && s.live.Some? ==>
              && t.live == s.live && s.live.value < |s.receivers| == |t.receivers| && t.net == s.net
              && var r, q := s.receivers[s.live.value], t.receivers[s.live.value];
                 && q.session == r.session && q.state.epoch == r.state.epoch && !q.stopped
                 && (m.frame.epoch == r.state.epoch && m.frame.offset == r.state.next && |m.frame.payload| > 0 ==>
                       && q.accepted == r.accepted + [m.frame.payload]
                       && q.state.next == r.state.next + |m.frame.payload|)
                 && (m.frame.epoch != r.state.epoch || m.frame.offset != r.state.next ==>
                       q.accepted == r.accepted && q.state == r.state)
                 && (m.frame.epoch == r.state.epoch && (m.frame.offset == r.state.next || sdk.reack) ==>
                       && q.pending == Some(Rx.Mark(q.state.epoch, q.state.next, sdk.window)) && q.wake
                       && q.queued == r.queued + [q.pending.value]
                       && q.loop == if r.loop == Rx.NotStarted then Rx.Parked else r.loop)
  {
    hide Inv, EnvStep, LifeStep, WriterStep;
    AlwaysInv(c, h, n);
    assert Linked(c, h, n);
    LiveFacts(c, h.states[n]);
  }

  /** An accepted Resume moves epoch and route, keeps the offset, and is answered with it on the Resume's own route. */
  lemma ResumeIsAnswered(c: Config, h: History, n: nat, m: Message, sdk: Answers, reached: bool)
    requires IsRun(c, h) && n < |h.actions| && h.actions[n] == Remote(ResumeArrives(m, sdk, reached))
    ensures var s, t := h.states[n], h.states[n + 1];
            m in s.net && m.id == s.port.id && m.frame.Resume? && s.live.Some? ==>
              && t.live == s.live && s.live.value < |s.receivers| == |t.receivers|
              && var r, q := s.receivers[s.live.value], t.receivers[s.live.value];
                 if sdk.accepts && m.frame.epoch >= r.state.epoch then
                   var route := if m.session != NO_SESSION then m.session else r.session;
                   && q.state == ReceiverState(m.frame.epoch, r.state.next) && q.accepted == r.accepted
                   && q.session == route && q.pending.None?
                   && var ack := Ack(m.frame.epoch, r.state.next, sdk.window);
                      StreamWire.Sends(s, t, Message(route, s.port.id, ack), reached)
                 else q == r && t.net == s.net
  {
    hide Inv, EnvStep, LifeStep, WriterStep;
    AlwaysInv(c, h, n);
    assert Linked(c, h, n);
    LiveFacts(c, h.states[n]);
  }

  /** A Close of the stream removes its receiver and stops its ACKs. */
  lemma CloseIsObeyed(c: Config, h: History, n: nat, m: Message)
    requires IsRun(c, h) && n < |h.actions| && h.actions[n] == Remote(CloseArrives(m))
    ensures var s, t := h.states[n], h.states[n + 1];
            if m in s.net && m.id == s.port.id && m.frame.Close? && s.live.Some? then
              && t.live.None? && s.live.value < |s.receivers| == |t.receivers| && t.net == s.net
              && var q := t.receivers[s.live.value]; q.stopped && q.pending.None?
            else t == s.(steps := s.steps + 1)
  {
    hide Inv, EnvStep, LifeStep, WriterStep;
    AlwaysInv(c, h, n);
    assert Linked(c, h, n);
    LiveFacts(c, h.states[n]);
  }

  // --------------------------------------------------------- ACKs that leave

  /** The ACK a goroutine holds goes out on the receiver's present route. */
  lemma AckIsSent(c: Config, h: History, n: nat, i: nat, reached: bool)
    requires IsRun(c, h) && n < |h.actions| && h.actions[n] == Remote(AckSend(i, reached))
    ensures var s, t := h.states[n], h.states[n + 1];
            i < |s.receivers| && s.receivers[i].loop.Sending? ==>
              && |t.receivers| == |s.receivers| && s.receivers[i].loop.index < |s.receivers[i].queued|
              && var r := s.receivers[i];
                 var mark := r.queued[r.loop.index];
                 var ack := Ack(mark.epoch, mark.offset, mark.window);
                 && StreamWire.Sends(s, t, Message(r.session, s.port.id, ack), reached)
                 && t.receivers[i] == r.(loop := Rx.Looping, emitted := r.emitted + [r.loop.index])
  {
    hide Inv, EnvStep, LifeStep, WriterStep;
    AlwaysInv(c, h, n);
    assert Linked(c, h, n);
    SendingFacts(c, h.states[n], i);
  }

  lemma SendingFacts(c: Config, s: State, i: nat)
    requires Inv(c, s)
    ensures i < |s.receivers| && s.receivers[i].loop.Sending? ==> s.receivers[i].loop.index < |s.receivers[i].queued|
    ensures i < |s.receivers| && s.receivers[i].pending.Some? ==>
      s.receivers[i].queued != [] && s.receivers[i].pending.value == s.receivers[i].queued[|s.receivers[i].queued| - 1]
  {
    hide GateOk, CountersOk, LogOk, NetOk, ConfirmedOk, QueueOk, ConservedOk, WriterOk, CreditOk,
         EpochOk, WireOk, ReplayOk, LifeOk, AttemptOk, SignalOk, FromOk, CurrentResumeOk, MarkOk, Rx.HistoryOk,
         Rx.NewestAccounted;
    if i < |s.receivers| {
      assert ReceiverOk(s.receivers[i], c.window, s.log, s.port.epoch, OwnNet(s));
    }
  }

  /**
   * The ACK goroutine: a token wakes it, woken it takes the newest unsent ACK, parks when there is none,
   * and exits once stopped, or cancelled while it is parked.
   */
  lemma AckIsTaken(c: Config, h: History, n: nat, i: nat)
    requires IsRun(c, h) && n < |h.actions| && i < |h.states[n].receivers|
    ensures var r, t := h.states[n].receivers[i], h.states[n + 1];
            && (h.actions[n] == Remote(AckWake(i)) && r.loop == Rx.Parked && r.wake ==>
                  i < |t.receivers| && t.receivers[i] == r.(loop := Rx.Looping, wake := false))
            && (h.actions[n] == Remote(AckTake(i)) && r.loop == Rx.Looping ==>
                  && i < |t.receivers|
                  && (r.stopped ==> t.receivers[i] == r.(loop := Rx.Exited))
                  && (!r.stopped && r.pending.None? ==> t.receivers[i] == r.(loop := Rx.Parked))
                  && (!r.stopped && r.pending.Some? ==>
                        && r.queued != [] && r.pending.value == r.queued[|r.queued| - 1]
                        && t.receivers[i] == r.(loop := Rx.Sending(|r.queued| - 1), pending := None)))
            && (h.actions[n] == Remote(AckCancel(i)) && r.loop == Rx.Parked ==>
                  i < |t.receivers| && t.receivers[i] == r.(loop := Rx.Exited))
  {
    hide Inv, EnvStep, LifeStep, WriterStep;
    AlwaysInv(c, h, n);
    assert Linked(c, h, n);
    SendingFacts(c, h.states[n], i);
  }

  // ----------------------------------------------------- the route in force

  /** The arrival gives the stream's receiver its route: an Open, or a Resume that is accepted. */
  ghost predicate Names(s: State, a: Action) {
    && a.Remote?
    && match a.remote
       case OpenArrives(m, _) =>
         m in s.net && m.id == s.port.id && m.frame.Open? && (s.live.None? || m.session != NO_SESSION)
       case ResumeArrives(m, sdk, _) =>
         && m in s.net && m.id == s.port.id && m.frame.Resume? && m.session != NO_SESSION && sdk.accepts
         && s.live.Some? && s.live.value < |s.receivers| && m.frame.epoch >= s.receivers[s.live.value].state.epoch
       case _ => false
  }

  lemma EnvKeepsReceivers(c: Config, s: State, a: EnvAction)
    ensures EnvStep(c, s, a).receivers == s.receivers && EnvStep(c, s, a).live == s.live
  {
    hide Acknowledge;
  }

  lemma LifeKeepsReceivers(c: Config, s: State, a: LifeAction)
    ensures LifeStep(c, s, a).receivers == s.receivers && LifeStep(c, s, a).live == s.live
  {
    hide SenderResumed, BeginOpen, BeginResume, CompleteResume;
  }

  lemma WriterKeepsReceivers(c: Config, s: State, a: WriterAction)
    ensures WriterStep(c, s, a).receivers == s.receivers && WriterStep(c, s, a).live == s.live
  {
    hide StartBatch, StreamCodec.AppendPacket, StreamCodec.IsStreamBatch, DataForReadyPath, FailPath,
         FailPathIfAckUnchanged;
  }

  lemma LoopKeepsRoute(s: State, a: RemoteAction)
    requires a.AckWake? || a.AckTake? || a.AckSend? || a.AckCancel?
    ensures var t := RemoteStep(s, a);
            && t.live == s.live && |t.receivers| == |s.receivers|
            && forall i :: 0 <= i < |s.receivers| ==> t.receivers[i].session == s.receivers[i].session
  {
  }

  /** A step that names no route leaves the live receiver its own. */
  lemma RouteStep(c: Config, h: History, n: nat)
    requires IsRun(c, h) && n < |h.actions| && h.states[n + 1].live.Some?
    ensures var s, t, a := h.states[n], h.states[n + 1], h.actions[n];
            && t.live.value < |t.receivers|
            && (Names(s, a) ==> t.receivers[t.live.value].session == a.remote.m.session)
            && (!Names(s, a) ==>
                  && s.live == t.live && t.live.value < |s.receivers|
                  && t.receivers[t.live.value].session == s.receivers[t.live.value].session)
  {
    hide Inv, EnvStep, LifeStep, WriterStep, RemoteStep;
    AlwaysInv(c, h, n);
    AlwaysInv(c, h, n + 1);
    LiveFacts(c, h.states[n]);
    LiveFacts(c, h.states[n + 1]);
    assert Linked(c, h, n);
    var s := h.states[n];
    match h.actions[n]
    case Env(e) => EnvKeepsReceivers(c, s, e);
    case Lifecycle(l) => LifeKeepsReceivers(c, s, l);
    case Write(w) => WriterKeepsReceivers(c, s, w);
    case Remote(OpenArrives(m, reached)) =>
      OpenIsAnswered(c, h, n, m, reached);
      RefusedArrival(s, OpenArrives(m, reached));
    case Remote(ResumeArrives(m, sdk, reached)) =>
      ResumeIsAnswered(c, h, n, m, sdk, reached);
      RefusedArrival(s, ResumeArrives(m, sdk, reached));
    case Remote(DataArrives(m, sdk)) =>
      DataIsDelivered(c, h, n, m, sdk);
      RefusedArrival(s, DataArrives(m, sdk));
    case Remote(CloseArrives(m)) => CloseIsObeyed(c, h, n, m);
    case Remote(r) => LoopKeepsRoute(s, r);
  }

  lemma RefusedArrival(s: State, a: RemoteAction)
    ensures a.OpenArrives? && !(a.m in s.net && a.m.frame.Open?) ==> RemoteStep(s, a) == s
    ensures a.ResumeArrives? && !(a.m in s.net && a.m.id == s.port.id && a.m.frame.Resume? && s.live.Some?) ==>
      RemoteStep(s, a) == s
    ensures a.DataArrives? && !(a.m in s.net && a.m.id == s.port.id && a.m.frame.Data? && s.live.Some?) ==>
      RemoteStep(s, a) == s
  {
    hide Rx.OnData, Rx.OnResume;
  }

  /**
   * In every run, the live receiver answers on the route of the last Open or accepted Resume that arrived
   * for it: `k` is that arrival, and none came after it.
   */
  lemma {:induction false} AnswersOnLastRoute(c: Config, h: History, n: nat) returns (k: nat)
    requires IsRun(c, h) && n < |h.states| && h.states[n].live.Some?
    ensures k < n && Names(h.states[k], h.actions[k])
    ensures forall j :: k < j < n ==> !Names(h.states[j], h.actions[j])
    ensures var s := h.states[n];
            s.live.value < |s.receivers| && s.receivers[s.live.value].session == h.actions[k].remote.m.session
  {
    hide Step, Names;
    assert n > 0;
    RouteStep(c, h, n - 1);
    if Names(h.states[n - 1], h.actions[n - 1]) {
      k := n - 1;
    } else {
      k := AnswersOnLastRoute(c, h, n - 1);
    }
  }
}
