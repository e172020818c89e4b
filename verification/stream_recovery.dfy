/**
 * Progress is always possible: from every reachable state, an undisturbed Open, recovery or delivery, over
 * a network that passes each frame on once, reaches its end. Each lemma extends the given run.
 */
module StreamRecovery {
  import opened Common
  import opened StreamCodec
  import opened StreamLog
  import opened StreamSdk
  import opened StreamPath
  import opened StreamSystem
  import opened StreamInvariant
  import opened StreamEffects
  import opened StreamTheorems
  import opened StreamWire
  import opened StreamRoutes
  import opened StreamLifecycle
  import opened StreamTransfer
  import Rx = StreamReceiver

  function Last(h: History): State
    requires |h.states| > 0
  {
    h.states[|h.states| - 1]
  }

  /** The run goes on from where another one ended. */
  ghost predicate Extends(h: History, longer: History) {
    && |h.states| <= |longer.states| && longer.states[..|h.states|] == h.states
    && |h.actions| <= |longer.actions| && longer.actions[..|h.actions|] == h.actions
  }

  /** One more step; the new state is the one after action number |h.actions|. */
  lemma Do(c: Config, base: History, h: History, a: Action) returns (longer: History)
    requires IsRun(c, h) && Extends(base, h)
    ensures IsRun(c, longer) && Extends(base, longer)
    ensures |h.states| == |h.actions| + 1 && |longer.actions| == |h.actions| + 1 && |longer.states| == |h.states| + 1
    ensures longer.actions[|h.actions|] == a && longer.states[|h.actions|] == Last(h)
    ensures longer.states[|h.actions| + 1] == Last(longer) == Step(c, Last(h), a)
  {
    hide Step;
    longer := Then(c, h, a);
  }

  lemma Joined(a: History, b: History, c: History)
    requires Extends(a, b) && Extends(b, c)
    ensures Extends(a, c)
  {
    assert c.states[..|a.states|] == b.states[..|a.states|];
    assert c.actions[..|a.actions|] == b.actions[..|a.actions|];
  }

  lemma Runs(c: Config, h: History)
    requires IsRun(c, h)
    ensures |h.states| > 0 && Inv(c, Last(h)) && Extends(h, h)
  {
    hide Inv;
    AlwaysInv(c, h, |h.states| - 1);
  }

  // ------------------------------------------------------------- recovery

  /** A Resume was sent on the route under a new epoch, from the acknowledged offset, and waits for its ACK. */
  ghost predicate Waiting(s: State, t: State, route: Session) {
    && t.life.ResumeWaiting? && t.port.target == route && t.port.epoch == s.port.epoch + 1
    && t.port.armed && t.port.failure.None? && !t.port.ready && t.port.id == s.port.id
    && t.port.lastAck == s.port.lastAck
    && t.log == s.log && t.receivers == s.receivers && t.live == s.live && t.writer == s.writer
    && t.start <= |t.log| && Off(t.log, t.start) == t.port.lastAck
    && Message(route, t.port.id, Resume(t.port.epoch, t.port.lastAck)) in t.net
  }

  lemma ResumeGoesOut(c: Config, h: History, route: Session) returns (longer: History)
    requires IsRun(c, h) && Last(h).life.RecoverIdle? && route != NO_SESSION && route !in Last(h).life.tried
    ensures IsRun(c, longer) && Extends(h, longer) && |longer.states| > 0 && Waiting(Last(h), Last(longer), route)
  {
    hide Inv, Step, Off, LogFrame, Extends;
    var n := |h.actions|;
    Runs(c, h);
    longer := Do(c, h, h, Lifecycle(TryResume(route)));
    ResumeIsTried(c, longer, n, route);
    longer := Do(c, h, longer, Lifecycle(ResumeSender));
    SenderResumes(c, longer, n + 1);
    Runs(c, longer);
    ResumingFacts(c, Last(longer));
    longer := Do(c, h, longer, Lifecycle(ResumeSent(false, true)));
    ResumeIsSent(c, longer, n + 2, false, true);
  }

  /** The receiver took the Resume and its ACK, on the route of the attempt, released it. */
  ghost predicate Freed(s: State, t: State, route: Session, i: nat) {
    && t.life.Replaying? && t.life.sent == 0 && t.port.target == route && t.port.epoch == s.port.epoch + 1
    && t.port.failure.None? && !t.port.ready && !t.port.armed && t.port.id == s.port.id
    && t.log == s.log && t.writer == s.writer && t.start <= |t.log|
    && t.live == s.live == Some(i) && i < |s.receivers| == |t.receivers|
    && t.receivers[i].accepted == s.receivers[i].accepted && t.receivers[i].session == route
    && t.receivers[i].state == ReceiverState(t.port.epoch, s.receivers[i].state.next)
    && t.port.lastAck == s.receivers[i].state.next
    && Off(t.log, t.start) == s.port.lastAck
  }

  lemma ResumeIsReleased(c: Config, h: History, s: State, route: Session, i: nat) returns (longer: History)
    requires IsRun(c, h) && Waiting(s, Last(h), route) && route != NO_SESSION
    requires s.live == Some(i) && i < |s.receivers| && s.port.lastAck <= s.receivers[i].state.next
    ensures IsRun(c, longer) && Extends(h, longer) && |longer.states| > 0 && Freed(s, Last(longer), route, i)
  {
    hide Inv, Step, Off, LogFrame, Extends;
    var n, w := |h.actions|, Last(h);
    var m := Message(route, w.port.id, Resume(w.port.epoch, w.port.lastAck));
    Runs(c, h);
    NotAhead(c, w, i);
    longer := Do(c, h, h, Remote(ResumeArrives(m, Answers(false, true, 0), true)));
    ResumeIsAnswered(c, longer, n, m, Answers(false, true, 0), true);
    RemoteStays(c, longer, n);
    var ack := Message(route, w.port.id, Ack(w.port.epoch, s.receivers[i].state.next, 0));
    longer := Do(c, h, longer, Env(AckArrives(ack)));
    AckCounts(c, longer, n + 1, ack);
    longer := Do(c, h, longer, Lifecycle(ResumeAcked));
    ResumeIsDecided(c, longer, n + 2);
  }

  /** No receiver has an epoch the stream has not begun. */
  lemma NotAhead(c: Config, s: State, i: nat)
    requires Inv(c, s)
    ensures i < |s.receivers| ==> s.receivers[i].state.epoch <= s.port.epoch
  {
    hide GateOk, CountersOk, LogOk, NetOk, ConfirmedOk, QueueOk, ConservedOk, WriterOk, CreditOk,
         EpochOk, WireOk, ReplayOk, LifeOk, AttemptOk, SignalOk, FromOk, CurrentResumeOk, MarkOk, Rx.AckOk;
    if i < |s.receivers| {
      assert ReceiverOk(s.receivers[i], c.window, s.log, s.port.epoch, OwnNet(s));
    }
  }

  lemma RemoteStays(c: Config, h: History, n: nat)
    requires IsRun(c, h) && n < |h.actions| && h.actions[n].Remote?
    ensures var s, t := h.states[n], h.states[n + 1];
            t.port == s.port && t.log == s.log && t.writer == s.writer && t.life == s.life && t.start == s.start
            && t.queue == s.queue && t.active == s.active && s.net <= t.net && t.issued == s.issued
  {
    hide EnvStep, LifeStep, WriterStep, RemoteStep;
    assert Linked(c, h, n);
    RemoteKeepsPort(h.states[n], h.actions[n].remote);
    RemoteKeepsRest(h.states[n], h.actions[n].remote);
  }

  lemma RemoteKeepsRest(s: State, a: RemoteAction)
    ensures var t := RemoteStep(s, a);
            t.start == s.start && t.queue == s.queue && t.active == s.active && s.net <= t.net && t.issued == s.issued
  {
  }

  /** The first `k` frames of the replay are on the wire. */
  ghost predicate SentAgain(s: State, t: State, k: nat) {
    && s.life.Replaying? && s.life.sent == 0 && t.life == s.life.(sent := k)
    && t.port == s.port && t.log == s.log && t.start == s.start <= |s.log|
    && t.receivers == s.receivers && t.live == s.live && t.writer == s.writer
    && s.start + k <= |s.log|
    && forall j :: s.start <= j < s.start + k ==> OnWire(t, j)
  }

  lemma {:induction false} ReplayGoesOut(c: Config, h: History, k: nat) returns (longer: History)
    requires IsRun(c, h) && Last(h).life.Replaying? && Last(h).life.sent == 0 && Last(h).start + k <= |Last(h).log|
    ensures IsRun(c, longer) && Extends(h, longer) && |longer.states| > 0 && SentAgain(Last(h), Last(longer), k)
  {
    hide Inv, Step, Off, LogFrame, Extends;
    if k == 0 {
      longer := h;
      Runs(c, h);
    } else {
      longer := ReplayGoesOut(c, h, k - 1);
      Runs(c, longer);
      var n, t := |longer.actions|, Last(longer);
      ResumingFacts(c, t);
      longer := Do(c, h, longer, Lifecycle(ReplayNext(false, true)));
      FrameIsReplayed(c, longer, n, false, true);
      var u := Last(longer);
      forall j | t.start <= j < t.start + k ensures OnWire(u, j) {
        if j < t.start + k - 1 {
          StillOnWire(t, u, j);
        } else {
          assert Replayed(t, k - 1) in u.net;
        }
      }
    }
  }

  /** The receiver has delivered the first `k` payloads. */
  ghost predicate Delivering(s: State, t: State, i: nat, k: nat) {
    && t.port == s.port && t.log == s.log && t.start == s.start && t.life == s.life && t.writer == s.writer
    && t.live == Some(i) && i < |t.receivers| == |s.receivers| && s.net <= t.net
    && t.queue == s.queue && t.active == s.active
    && t.receivers[i].session == s.receivers[i].session
    && k <= |t.log| && t.receivers[i].accepted == t.log[..k]
    && t.receivers[i].state == ReceiverState(t.port.epoch, Off(t.log, k))
  }

  /** Frames on the wire bring a receiver of the epoch forward, one by one. */
  lemma {:induction false} FramesArrive(c: Config, h: History, i: nat, from: nat, k: nat) returns (longer: History)
    requires IsRun(c, h) && from <= k && Delivering(Last(h), Last(h), i, from) && k <= |Last(h).log|
    requires forall j :: from <= j < k ==> OnWire(Last(h), j)
    ensures IsRun(c, longer) && Extends(h, longer) && |longer.states| > 0 && Delivering(Last(h), Last(longer), i, k)
  {
    hide Inv, Step, Off, LogFrame, Extends;
    if k == from {
      longer := h;
      Runs(c, h);
    } else {
      longer := FramesArrive(c, h, i, from, k - 1);
      Runs(c, longer);
      var n, t := |longer.actions|, Last(longer);
      assert OnWire(Last(h), k - 1);
      StillOnWire(Last(h), t, k - 1);
      var m := Message(t.port.target, t.port.id, Data(t.port.epoch, Off(t.log, k - 1), t.log[k - 1]));
      PayloadFacts(c, t, k - 1);
      longer := Do(c, h, longer, Remote(DataArrives(m, Answers(false, true, 0))));
      DataIsDelivered(c, longer, n, m, Answers(false, true, 0));
      RemoteStays(c, longer, n);
      OffStep(t.log, k - 1);
      assert t.log[..k - 1] + [t.log[k - 1]] == t.log[..k];
    }
  }

  lemma PayloadFacts(c: Config, s: State, k: nat)
    requires Inv(c, s)
    ensures k < |s.log| ==> |s.log[k]| > 0
  {
    hide GateOk, CountersOk, NetOk, ReceiversOk, ConfirmedOk, QueueOk, ConservedOk, WriterOk, CreditOk,
         EpochOk, WireOk, ReplayOk, LifeOk, AttemptOk, SignalOk, FromOk, CurrentResumeOk, Retains, ParseBody;
  }

  /** What a live receiver has is a prefix of the log, and so is what was acknowledged. */
  lemma ReceiverPrefix(c: Config, s: State, i: nat)
    requires Inv(c, s) && i < |s.receivers|
    ensures |s.receivers[i].accepted| <= |s.log| && s.receivers[i].accepted == s.log[..|s.receivers[i].accepted|]
    ensures s.receivers[i].state.next == Off(s.log, |s.receivers[i].accepted|)
    ensures forall k :: 0 <= k <= |s.log| && Off(s.log, k) <= s.receivers[i].state.next ==>
      k <= |s.receivers[i].accepted|
  {
    AcceptedPrefix(c, s, i);
    Prepared(c, s);
    hide Inv, Off;
    var m := |s.receivers[i].accepted|;
    forall k | 0 <= k <= |s.log| && Off(s.log, k) <= s.receivers[i].state.next ensures k <= m {
      if m < k {
        OffStrict(s.log, m, k);
      }
    }
  }

  lemma Prepared(c: Config, s: State)
    requires Inv(c, s)
    ensures NonEmpty(s.log)
  {
    hide GateOk, CountersOk, NetOk, ReceiversOk, ConfirmedOk, QueueOk, ConservedOk, WriterOk, CreditOk,
         EpochOk, WireOk, ReplayOk, LifeOk, AttemptOk, SignalOk, FromOk, CurrentResumeOk, Retains, ParseBody;
  }

  /** Recovered: ready on the route under the next epoch, and the receiver has the whole log. */
  ghost predicate Recovered(s: State, t: State, route: Session, i: nat) {
    && t.port.ready && t.port.target == route && t.port.epoch == s.port.epoch + 1 && t.life == LifeParked && t.active
    && t.log == s.log && t.live == Some(i) && i < |t.receivers|
    && t.receivers[i].accepted == t.log && t.receivers[i].session == route && t.receivers[i].state.epoch == t.port.epoch
    && Written(t.receivers[i]) == Packets(s.log)
  }

  /**
   * From every reachable state in which recovery is due, any untried session recovers the stream when it is not
   * disturbed: the Resume goes out on it, the receiver's ACK releases the replay, every unacknowledged payload is
   * sent again under the new epoch, the path opens, and the receiver, if it was not behind what was acknowledged,
   * has written every packet the sender accepted.
   */
  lemma RecoveryCompletes(c: Config, h: History, route: Session, i: nat) returns (longer: History)
    requires IsRun(c, h) && Last(h).life.RecoverIdle? && route != NO_SESSION && route !in Last(h).life.tried
    requires var s := Last(h); s.live == Some(i) && i < |s.receivers| && s.port.lastAck <= s.receivers[i].state.next
    ensures IsRun(c, longer) && Extends(h, longer) && |longer.states| > 0 && Recovered(Last(h), Last(longer), route, i)
  {
    hide Inv, Step, Off, LogFrame, Extends, Packets, Waiting;
    var s := Last(h);
    var waiting := ResumeGoesOut(c, h, route);
    var freed := ResumeIsReleased(c, waiting, s, route, i);
    Joined(h, waiting, freed);
    var r := Last(freed);
    Runs(c, freed);
    ReceiverPrefix(c, r, i);
    var m := |r.receivers[i].accepted|;
    assert r.start <= m;
    var replayed := ReplayGoesOut(c, freed, |r.log| - r.start);
    Joined(h, freed, replayed);
    var reopened := PathReopens(c, replayed);
    Joined(h, replayed, reopened);
    var p := Last(reopened);
    forall j | m <= j < |p.log| ensures OnWire(p, j) {
      StillOnWire(Last(replayed), p, j);
    }
    longer := FramesArrive(c, reopened, i, m, |p.log|);
    Joined(h, reopened, longer);
    assert p.log[..|p.log|] == p.log;
  }

  /** The replay is complete: the path opens and becomes active. */
  lemma PathReopens(c: Config, h: History) returns (longer: History)
    requires IsRun(c, h)
    requires var s := Last(h); s.life.Replaying? && s.start + s.life.sent == |s.log| && s.port.failure.None?
    ensures IsRun(c, longer) && Extends(h, longer) && |longer.states| > 0
    ensures var s, t := Last(h), Last(longer);
            && t.port.ready && t.life == LifeParked && t.active
            && t.port.target == s.port.target && t.port.epoch == s.port.epoch && t.port.id == s.port.id
            && t.port.lastAck == s.port.lastAck
            && t.log == s.log && t.start == s.start && t.receivers == s.receivers && t.live == s.live && t.net == s.net
  {
    hide Inv, Step, Off, LogFrame, Extends;
    Runs(c, h);
    var n, s := |h.actions|, Last(h);
    ResumingFacts(c, s);
    longer := Do(c, h, h, Lifecycle(CompleteReplay));
    ReplayIsCompleted(c, longer, n);
    longer := Do(c, h, longer, Lifecycle(Activate));
    PathIsActivated(c, longer, n + 1);
    ActivateKeeps(c, longer, n + 1);
  }

  lemma ActivateKeeps(c: Config, h: History, n: nat)
    requires IsRun(c, h) && n < |h.actions| && h.actions[n] == Lifecycle(Activate)
    ensures var s, t := h.states[n], h.states[n + 1];
            t == s.(life := t.life, active := t.active, writer := t.writer, steps := s.steps + 1)
  {
    hide EnvStep, WriterStep, RemoteStep;
    assert Linked(c, h, n);
  }

  // -------------------------------------------------------------- opening

  /** Open and in use: ready on the route, with a receiver that answers there and a writer at work. */
  ghost predicate InUse(s: State, t: State, route: Session) {
    && t.port.ready && t.port.target == route && t.port.epoch == s.port.epoch && t.life == LifeParked && t.active
    && t.writer.pc == Top && t.log == s.log && t.queue == s.queue
    && t.live.Some? && t.live.value < |t.receivers| && t.receivers[t.live.value].session == route
  }

  /**
   * From every reachable state in which the stream is still to be opened, any untried session opens it when it is
   * not disturbed.
   */
  lemma OpenCompletes(c: Config, h: History, route: Session) returns (longer: History)
    requires IsRun(c, h) && Last(h).life.OpenIdle? && route != NO_SESSION && route !in Last(h).life.tried
    ensures IsRun(c, longer) && Extends(h, longer) && |longer.states| > 0 && InUse(Last(h), Last(longer), route)
  {
    hide Inv, Step, Extends;
    var n, s := |h.actions|, Last(h);
    Runs(c, h);
    OpeningWriter(c, s);
    longer := Do(c, h, h, Lifecycle(TryOpen(route)));
    CandidateIsTried(c, longer, n, route);
    OnlyPort(c, longer, n);
    longer := Do(c, h, longer, Lifecycle(OpenSent(false, true)));
    OpenIsSent(c, longer, n + 1, false, true);
    var open := Message(route, s.port.id, Open(1, c.window));
    longer := Do(c, h, longer, Remote(OpenArrives(open, true)));
    OpenIsAnswered(c, longer, n + 2, open, true);
    RemoteStays(c, longer, n + 2);
    var answer := Message(route, s.port.id, OpenAck(1, c.window));
    longer := Do(c, h, longer, Env(OpenAckArrives(answer)));
    OpenAckActivates(c, longer, n + 3, answer);
    longer := Do(c, h, longer, Lifecycle(OpenReady));
    OpenIsDecided(c, longer, n + 4);
    longer := Do(c, h, longer, Lifecycle(Activate));
    PathIsActivated(c, longer, n + 5);
    ActivateKeeps(c, longer, n + 5);
    Runs(c, longer);
    StreamRoutes.LiveFacts(c, Last(longer));
  }

  lemma OpeningWriter(c: Config, s: State)
    requires Inv(c, s)
    ensures s.life.OpenIdle? ==> s.writer.pc.NotStarted? && s.port.epoch == 1
  {
    hide GateOk, CountersOk, LogOk, NetOk, ReceiversOk, ConfirmedOk, QueueOk, ConservedOk, WriterOk, CreditOk,
         WireOk, ReplayOk, LifeOk, AttemptOk, SignalOk, FromOk, CurrentResumeOk;
  }

  lemma OnlyPort(c: Config, h: History, n: nat)
    requires IsRun(c, h) && n < |h.actions| && h.actions[n].Lifecycle? && h.actions[n].lifecycle.TryOpen?
    ensures var s, t := h.states[n], h.states[n + 1];
            && t == s.(port := t.port, life := t.life, attempt := t.attempt, steps := s.steps + 1)
            && t.port.id == s.port.id
  {
    hide EnvStep, WriterStep, RemoteStep;
    assert Linked(c, h, n);
  }

  // ------------------------------------------------------------- delivery

  /** The receiver's unsent ACK names all it has, under the current epoch, and its goroutine is alive. */
  ghost predicate AckDue(s: State, i: nat) {
    && s.live == Some(i) && i < |s.receivers|
    && var r := s.receivers[i];
       && r.pending.Some? && r.pending.value.epoch == s.port.epoch && r.pending.value.offset == r.state.next
       && r.session == s.port.target && (r.loop == Rx.Parked || r.loop == Rx.Looping || r.loop.Sending?)
       && (r.loop == Rx.Parked ==> r.wake)
  }

  /** What stays while an ACK is on its way. */
  ghost predicate AckUnderWay(s: State, t: State, i: nat) {
    && t.port == s.port && t.log == s.log && t.writer == s.writer && t.life == s.life && t.queue == s.queue
    && t.live == Some(i) && i < |t.receivers| && i < |s.receivers|
    && t.receivers[i].state == s.receivers[i].state && t.receivers[i].accepted == s.receivers[i].accepted
    && t.receivers[i].session == s.receivers[i].session && !t.receivers[i].stopped
  }

  lemma AckComesUp(c: Config, h: History, i: nat) returns (longer: History)
    requires IsRun(c, h) && AckDue(Last(h), i)
    ensures IsRun(c, longer) && Extends(h, longer) && |longer.states| > 0
    ensures AckUnderWay(Last(h), Last(longer), i) && AckDue(Last(longer), i)
    ensures Last(longer).receivers[i].loop == Rx.Looping
  {
    hide Inv, Step, Extends;
    var n, s := |h.actions|, Last(h);
    Runs(c, h);
    StreamRoutes.LiveFacts(c, s);
    if s.receivers[i].loop == Rx.Looping {
      longer := h;
    } else if s.receivers[i].loop == Rx.Parked {
      longer := Do(c, h, h, Remote(AckWake(i)));
      AckIsTaken(c, longer, n, i);
      RemoteStays(c, longer, n);
      LoopKeepsLive(c, longer, n);
    } else {
      longer := Do(c, h, h, Remote(AckSend(i, true)));
      AckIsSent(c, longer, n, i, true);
      RemoteStays(c, longer, n);
      LoopKeepsLive(c, longer, n);
    }
  }

  lemma LoopKeepsLive(c: Config, h: History, n: nat)
    requires IsRun(c, h) && n < |h.actions| && h.actions[n].Remote?
    requires h.actions[n].remote.AckWake? || h.actions[n].remote.AckTake? || h.actions[n].remote.AckSend?
    ensures h.states[n + 1].live == h.states[n].live
  {
    hide EnvStep, LifeStep, WriterStep;
    assert Linked(c, h, n);
  }

  /** An ACK that is due gets through: the sender learns all that the receiver has. */
  lemma AckCompletes(c: Config, h: History, i: nat) returns (longer: History)
    requires IsRun(c, h) && AckDue(Last(h), i) && !Last(h).life.ResumeBegun?
    ensures IsRun(c, longer) && Extends(h, longer) && |longer.states| > 0
    ensures var s, t := Last(h), Last(longer);
            && t.port.lastAck >= s.receivers[i].state.next && t.port.wake
            && t.port.ready == s.port.ready && t.port.target == s.port.target && t.port.epoch == s.port.epoch
            && t.log == s.log && t.life == s.life && t.writer == s.writer && t.queue == s.queue
            && t.port.lastSent == s.port.lastSent
            && t.live == Some(i) && i < |t.receivers| && t.receivers[i].accepted == s.receivers[i].accepted
            && t.receivers[i].state == s.receivers[i].state && t.receivers[i].session == s.receivers[i].session
            && t.receivers[i].loop == Rx.Looping
  {
    hide Inv, Step, Extends;
    longer := AckComesUp(c, h, i);
    var n, s := |longer.actions|, Last(longer);
    Runs(c, longer);
    StreamRoutes.LiveFacts(c, s);
    longer := Do(c, h, longer, Remote(AckTake(i)));
    AckIsTaken(c, longer, n, i);
    RemoteStays(c, longer, n);
    LoopKeepsLive(c, longer, n);
    longer := Do(c, h, longer, Remote(AckSend(i, true)));
    AckIsSent(c, longer, n + 1, i, true);
    RemoteStays(c, longer, n + 1);
    LoopKeepsLive(c, longer, n + 1);
    var mark := s.receivers[i].pending.value;
    var ack := Message(s.port.target, s.port.id, Ack(mark.epoch, mark.offset, mark.window));
    longer := Do(c, h, longer, Env(AckArrives(ack)));
    AckCounts(c, longer, n + 2, ack);
  }

  /** The stream is open and quiet: nothing is pending, and the receiver has all that was accepted. */
  ghost predicate Quiescent(s: State, i: nat) {
    && s.port.ready && s.life == LifeParked && s.writer.pc == Top && s.writer.overflow.None? && s.queue == []
    && s.live == Some(i) && i < |s.receivers|
    && var r := s.receivers[i];
       r.accepted == s.log && r.state.epoch == s.port.epoch && r.session == s.port.target && r.loop != Rx.Exited
  }

  lemma PacketIsBatched(c: Config, h: History, packet: Packet) returns (longer: History)
    requires IsRun(c, h) && Last(h).port.ready && Last(h).writer.pc == Top && Last(h).writer.overflow.None?
    requires Last(h).queue == [] && 1 <= |packet| <= 65535 && c.capacity >= 1
    ensures IsRun(c, longer) && Extends(h, longer) && |longer.states| > 0
    ensures var s, t := Last(h), Last(longer);
            && t == s.(writer := t.writer, admitted := t.admitted, taken := t.taken, steps := t.steps)
            && t.writer.pc == AtPath && t.writer.overflow.None?
            && t.writer.pending == Some([0x54, 0x50] + Flat([packet]))
  {
    hide Inv, Step, Extends, Flat;
    var n, s := |h.actions|, Last(h);
    Runs(c, h);
    longer := Do(c, h, h, Env(Enqueue(packet)));
    PacketIsQueued(c, longer, n, packet);
    longer := Do(c, h, longer, Write(TakeFirst));
    FirstIsTaken(c, longer, n + 1);
    longer := Do(c, h, longer, Write(DrainDone));
    BatchIsFilled(c, longer, n + 2);
  }

  lemma BatchIsSent(c: Config, h: History) returns (longer: History)
    requires IsRun(c, h) && Last(h).port.ready && Last(h).writer.pc == AtPath && Last(h).writer.pending.Some?
    requires Last(h).port.lastSent + |Last(h).writer.pending.value| <= Last(h).port.lastAck + Last(h).port.sender.window
    ensures IsRun(c, longer) && Extends(h, longer) && |longer.states| > 0
    ensures var s, t := Last(h), Last(longer);
            var payload := s.writer.pending.value;
            && t.log == s.log + [payload] && t.port.lastSent == s.port.lastSent + |payload|
            && t.port == s.port.(sender := t.port.sender, lastSent := t.port.lastSent)
            && t.life == s.life && t.receivers == s.receivers && t.live == s.live && t.queue == s.queue
            && t.writer.pc == Top && t.writer.overflow == s.writer.overflow
            && Message(s.port.target, s.port.id, Data(s.port.epoch, s.port.lastSent, payload)) in t.net
  {
    hide Inv, Step, Extends;
    longer := PathIsReached(c, h);
    var n, s := |longer.actions|, Last(longer);
    longer := Do(c, h, longer, Write(OfferData));
    PayloadIsOffered(c, longer, n);
    var t := Last(longer);
    assert t.writer.pc == SendingData(s.port.target, Data(s.port.epoch, s.port.lastSent, s.writer.pending.value));
    longer := Do(c, h, longer, Write(SendFrame(false, true)));
    DataIsSent(c, longer, n + 1, false, true);
  }

  lemma PathIsReached(c: Config, h: History) returns (longer: History)
    requires IsRun(c, h) && Last(h).port.ready && Last(h).writer.pc == AtPath
    ensures IsRun(c, longer) && Extends(h, longer) && |longer.states| > 0
    ensures var s, t := Last(h), Last(longer);
            t == s.(writer := s.writer.(pc := TryData), steps := t.steps)
  {
    hide Inv, Step, Extends;
    var n := |h.actions|;
    Runs(c, h);
    Gate(c, Last(h));
    longer := Do(c, h, h, Write(ReadPath));
    PathIsAwaited(c, longer, n);
    longer := Do(c, h, longer, Write(WriterAction.Released));
    PathIsAwaited(c, longer, n + 1);
  }

  lemma PacketIsOffered(c: Config, h: History, packet: Packet) returns (longer: History)
    requires IsRun(c, h) && Last(h).port.ready && Last(h).writer.pc == Top && Last(h).writer.overflow.None?
    requires Last(h).queue == [] && 1 <= |packet| <= 65535 && c.capacity >= 1
    requires Last(h).port.lastSent + |packet| + 4 <= Last(h).port.lastAck + Last(h).port.sender.window
    ensures IsRun(c, longer) && Extends(h, longer) && |longer.states| > 0
    ensures var s, t := Last(h), Last(longer);
            var payload := [0x54, 0x50] + Flat([packet]);
            && t.log == s.log + [payload] && t.port.lastSent == s.port.lastSent + |payload|
            && t.port == s.port.(sender := t.port.sender, lastSent := t.port.lastSent)
            && t.life == s.life && t.receivers == s.receivers && t.live == s.live && t.queue == []
            && t.writer.pc == Top && t.writer.overflow.None?
            && Message(s.port.target, s.port.id, Data(s.port.epoch, s.port.lastSent, payload)) in t.net
  {
    hide IsRun, Extends, Flat;
    FlatSize(packet);
    var batched := PacketIsBatched(c, h, packet);
    longer := BatchIsSent(c, batched);
    Joined(h, batched, longer);
  }

  lemma FlatSize(packet: Packet)
    requires 1 <= |packet| <= 65535
    ensures |[0x54, 0x50] + Flat([packet])| == |packet| + 4
    ensures Unbatch([0x54, 0x50] + Flat([packet])) == [packet]
  {
    assert ([packet])[1..] == [] && Flat([]) == [];
    DecodesExactly([0x54, 0x50] + Flat([packet]), [packet]);
  }

  lemma PacketsGrow(log: seq<Bytes>, packet: Packet)
    requires 1 <= |packet| <= 65535
    ensures Packets(log + [[0x54, 0x50] + Flat([packet])]) == Packets(log) + [packet]
  {
    FlatSize(packet);
    hide Flat, Unbatch;
    assert (log + [[0x54, 0x50] + Flat([packet])])[..|log|] == log;
  }

  lemma SentEnd(c: Config, s: State)
    requires Inv(c, s)
    ensures s.port.lastSent == Off(s.log, |s.log|)
  {
    Counters(c, s);
    hide Inv;
  }

  /**
   * From every reachable state in which the stream is open and quiet, a packet read from the TUN device is written by
   * the receiver to its own, and acknowledged, when it fits the window and nothing disturbs it.
   */
  lemma PacketIsDelivered(c: Config, h: History, i: nat, packet: Packet) returns (longer: History)
    requires IsRun(c, h) && Quiescent(Last(h), i) && 1 <= |packet| <= 65535 && c.capacity >= 1
    requires Last(h).port.lastSent + |packet| + 4 <= Last(h).port.lastAck + Last(h).port.sender.window
    ensures IsRun(c, longer) && Extends(h, longer) && |longer.states| > 0 && Quiescent(Last(longer), i)
    ensures Written(Last(longer).receivers[i]) == Written(Last(h).receivers[i]) + [packet]
    ensures Last(longer).port.lastAck == Last(longer).port.lastSent
  {
    hide Inv, Step, Extends, Flat, Packets, Off, Retains;
    var s := Last(h);
    var payload := [0x54, 0x50] + Flat([packet]);
    FlatSize(packet);
    PacketsGrow(s.log, packet);
    var offered := PacketIsOffered(c, h, packet);
    var n, o := |offered.actions|, Last(offered);
    Runs(c, h);
    Runs(c, offered);
    ReceiverPrefix(c, s, i);
    SentEnd(c, s);
    StreamRoutes.LiveFacts(c, o);
    var m := Message(s.port.target, s.port.id, Data(s.port.epoch, s.port.lastSent, payload));
    var arrived := Do(c, h, offered, Remote(DataArrives(m, Answers(false, true, 0))));
    DataIsDelivered(c, arrived, n, m, Answers(false, true, 0));
    RemoteStays(c, arrived, n);
    Runs(c, arrived);
    longer := AckCompletes(c, arrived, i);
    Joined(h, arrived, longer);
    Runs(c, longer);
    Counters(c, Last(longer));
    SentEnd(c, Last(arrived));
  }
}
