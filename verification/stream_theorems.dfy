/** What holds in every run of the stream system. */
module StreamTheorems {
  import opened Common
  import opened StreamCodec
  import opened StreamLog
  import opened StreamSdk
  import opened StreamPath
  import opened StreamSystem
  import opened StreamInvariant
  import opened StreamEffects
  import StreamEnvSteps
  import StreamLifeSteps
  import StreamWriterSteps
  import StreamRemoteSteps
  import Rx = StreamReceiver

  lemma StepKeeps(c: Config, s: State, a: Action)
    requires Inv(c, s)
    ensures Inv(c, Step(c, s, a))
  {
    hide Inv, EnvStep, LifeStep, WriterStep, RemoteStep;
    match a {
      case Env(e) => StreamEnvSteps.EnvKeeps(c, s, e);
      case Lifecycle(l) => StreamLifeSteps.LifeKeeps(c, s, l);
      case Write(w) => StreamWriterSteps.WriterKeeps(c, s, w);
      case Remote(r) => StreamRemoteSteps.RemoteKeeps(c, s, r);
    }
    CountingKeeps(c, Apply(c, s, a), s.steps + 1);
  }

  lemma CountingKeeps(c: Config, s: State, steps: nat)
    requires Inv(c, s)
    ensures Inv(c, s.(steps := steps))
  {
    hide GateOk, CountersOk, LogOk, NetOk, ReceiversOk, ConfirmedOk, QueueOk, ConservedOk, WriterOk, CreditOk,
         EpochOk, ReplayOk, LifeOk, AttemptOk, SignalOk, FromOk, CurrentResumeOk;
  }

  /** The invariant holds in every state of every run. */
  lemma {:induction false} AlwaysInv(c: Config, h: History, n: nat)
    requires IsRun(c, h) && n < |h.states|
    ensures Inv(c, h.states[n])
  {
    hide Inv, Step;
    if n == 0 {
      InitOk(c);
    } else {
      AlwaysInv(c, h, n - 1);
      assert Linked(c, h, n - 1);
      StepKeeps(c, h.states[n - 1], h.actions[n - 1]);
    }
  }

  // ------------------------------------------------- delivery, end to end

  /** What one receiver instance has written to its TUN device. */
  function Written(r: Rx.Receiver): seq<Packet> {
    Packets(r.accepted)
  }

  lemma {:induction false} PacketsPrefix(a: seq<Bytes>, b: seq<Bytes>)
    requires a <= b
    ensures Packets(a) <= Packets(b)
    decreases |b|
  {
    hide Unbatch;
    if |a| < |b| {
      PacketsPrefix(a, b[..|b| - 1]);
    } else {
      assert a == b;
    }
  }

  /**
   * End to end: whatever is lost, duplicated, delayed or reordered, and however often the
   * path is lost and resumed, each receiver instance has written a prefix, in order and
   * without duplicates, of the packets the writer took, which are a prefix of those admitted.
   */
  lemma EndToEnd(c: Config, h: History, n: nat)
    requires IsRun(c, h) && n < |h.states|
    ensures var s := h.states[n];
            && s.taken + s.queue == s.admitted
            && forall i :: 0 <= i < |s.receivers| ==> Written(s.receivers[i]) <= s.taken <= s.admitted
  {
    hide Inv, Packets;
    AlwaysInv(c, h, n);
    var s := h.states[n];
    TakenSplits(c, s);
    forall i | 0 <= i < |s.receivers| ensures Written(s.receivers[i]) <= s.taken {
      AcceptedPrefix(c, s, i);
      PacketsPrefix(s.receivers[i].accepted, s.log);
    }
  }

  lemma TakenSplits(c: Config, s: State)
    requires Inv(c, s)
    ensures s.taken + s.queue == s.admitted && Packets(s.log) <= s.taken
  {
    hide GateOk, CountersOk, LogOk, NetOk, ReceiversOk, ConfirmedOk, WriterOk, CreditOk, EpochOk, ReplayOk, LifeOk,
         AttemptOk, SignalOk, FromOk, CurrentResumeOk, Packets, BatchOk, Unbatch;
  }

  lemma AcceptedPrefix(c: Config, s: State, i: nat)
    requires Inv(c, s) && i < |s.receivers|
    ensures s.receivers[i].accepted <= s.log
    ensures s.receivers[i].state.next == Off(s.log, |s.receivers[i].accepted|) <= s.port.lastSent
  {
    hide GateOk, NetOk, ConfirmedOk, QueueOk, ConservedOk, WriterOk, CreditOk, EpochOk, ReplayOk, LifeOk, AttemptOk,
         SignalOk, FromOk, CurrentResumeOk, BatchOk, Rx.AckOk, MarkOk, AckedBy, NonEmpty;
    var r := s.receivers[i];
    assert ReceiverOk(r, c.window, s.log, s.port.epoch, OwnNet(s));
    OffPrefix(r.accepted, s.log, |r.accepted|);
    OffMonotone(s.log, |r.accepted|, |s.log|);
  }

  lemma BatchesDecode(c: Config, s: State)
    requires Inv(c, s)
    ensures s.taken == Packets(s.log) + PendingPackets(s.writer.pending, s.writer.overflow)
    ensures forall i :: 0 <= i < |s.log| ==>
      |s.log[i]| <= STREAM_BATCH_MAX && Decode(s.log[i]) == Some(Unbatch(s.log[i]))
    ensures s.writer.pending.Some? ==> |s.writer.pending.value| <= STREAM_BATCH_MAX
  {
    hide GateOk, CountersOk, NetOk, ReceiversOk, ConfirmedOk, QueueOk, WriterOk, CreditOk, EpochOk, WireOk, ReplayOk,
         LifeOk, AttemptOk, SignalOk, FromOk, CurrentResumeOk, Packets, PendingPackets, Retains, ParseBody;
  }

  /**
   * Writer conservation: at every program point, the packets taken from the queue are those
   * of the accepted payloads, then those of the pending batch, then the overflow packet;
   * every payload is a batch of at most the frame limit that decodes to packets.
   */
  lemma WriterConserves(c: Config, h: History, n: nat)
    requires IsRun(c, h) && n < |h.states|
    ensures var s := h.states[n];
            && s.taken == Packets(s.log) + PendingPackets(s.writer.pending, s.writer.overflow)
            && (forall i :: 0 <= i < |s.log| ==>
                  |s.log[i]| <= STREAM_BATCH_MAX && Decode(s.log[i]) == Some(Unbatch(s.log[i])))
            && (s.writer.pending.Some? ==> |s.writer.pending.value| <= STREAM_BATCH_MAX)
  {
    hide Inv, Packets, PendingPackets, Decode, Unbatch;
    AlwaysInv(c, h, n);
    BatchesDecode(c, h.states[n]);
  }

  // ---------------------------------------------- acknowledgement conservation

  /**
   * The acknowledged offset is a frame boundary some receiver reached, receivers never get
   * past what was sent, and the retained bytes are exactly [lastAck, lastSent).
   */
  lemma AckConservation(c: Config, h: History, n: nat)
    requires IsRun(c, h) && n < |h.states|
    ensures var s := h.states[n];
            && s.port.lastAck <= s.port.lastSent
            && (s.port.lastAck == 0 ||
                exists i: nat :: i < |s.receivers| && Reached(s.receivers[i].accepted, s.port.lastAck)
                                 && s.port.lastAck <= s.receivers[i].state.next)
            && (forall i :: 0 <= i < |s.receivers| ==> s.receivers[i].state.next <= s.port.lastSent)
            && |s.port.sender.retained| <= |s.log|
            && Retains(s.port.sender, s.log, |s.log| - |s.port.sender.retained|)
            && s.port.sender.base == s.port.lastAck && s.port.sender.end == s.port.lastSent
  {
    hide Inv, Retains, Reached;
    AlwaysInv(c, h, n);
    var s := h.states[n];
    forall i | 0 <= i < |s.receivers| ensures s.receivers[i].state.next <= s.port.lastSent {
      AcceptedPrefix(c, s, i);
    }
    Counters(c, s);
    if s.port.lastAck != 0 {
      var i := Confirmer(c, s);
    }
  }

  lemma Counters(c: Config, s: State)
    requires Inv(c, s)
    ensures s.port.lastAck <= s.port.lastSent && |s.port.sender.retained| <= |s.log|
    ensures Retains(s.port.sender, s.log, |s.log| - |s.port.sender.retained|)
    ensures s.port.sender.base == s.port.lastAck && s.port.sender.end == s.port.lastSent
  {
    hide GateOk, NetOk, ReceiversOk, ConfirmedOk, QueueOk, ConservedOk, WriterOk, CreditOk, EpochOk, ReplayOk, LifeOk,
         AttemptOk, SignalOk, FromOk, CurrentResumeOk, BatchOk, Retains;
  }

  lemma Confirmer(c: Config, s: State) returns (i: nat)
    requires Inv(c, s) && s.port.lastAck != 0
    ensures i < |s.receivers| && Reached(s.receivers[i].accepted, s.port.lastAck)
    ensures s.port.lastAck <= s.receivers[i].state.next
  {
    hide GateOk, CountersOk, LogOk, NetOk, QueueOk, ConservedOk, WriterOk, CreditOk, EpochOk, ReplayOk, LifeOk,
         AttemptOk, SignalOk, FromOk, CurrentResumeOk, Rx.AckOk, MarkOk;
    i :| i < |s.receivers| && Reached(s.receivers[i].accepted, s.port.lastAck);
    var r := s.receivers[i];
    assert ReceiverOk(r, c.window, s.log, s.port.epoch, OwnNet(s));
    var n: nat :| n <= |r.accepted| && Off(r.accepted, n) == s.port.lastAck;
    OffMonotone(r.accepted, n, |r.accepted|);
  }

  /** While the stream's receiver was never re-created: lastAck <= receiver's next offset <= lastSent. */
  lemma AckBetween(c: Config, h: History, n: nat)
    requires IsRun(c, h) && n < |h.states|
    ensures var s := h.states[n];
            |s.receivers| == 1 ==> s.port.lastAck <= s.receivers[0].state.next <= s.port.lastSent
  {
    hide Inv, Reached, Off;
    AlwaysInv(c, h, n);
    OnlyReceiver(c, h.states[n]);
  }

  lemma OnlyReceiver(c: Config, s: State)
    requires Inv(c, s)
    ensures |s.receivers| == 1 ==> s.port.lastAck <= s.receivers[0].state.next <= s.port.lastSent
  {
    hide Inv, Reached, Off;
    if |s.receivers| == 1 {
      AcceptedPrefix(c, s, 0);
      if s.port.lastAck != 0 {
        var i := Confirmer(c, s);
      }
    }
  }

  // -------------------------------------------------------- monotone progress

  lemma StepMonotone(c: Config, s: State, a: Action)
    requires Inv(c, s)
    ensures Forward(s, Step(c, s, a))
  {
    hide Inv, Retains, Step;
    Counters(c, s);
    StepOpens(c, s, a);
  }

  /** Epochs, acknowledged and sent offsets, the log and the clock never go back along a run. */
  lemma {:induction false} RunMonotone(c: Config, h: History, from: nat, n: nat)
    requires IsRun(c, h) && from <= n < |h.states|
    ensures Forward(h.states[from], h.states[n])
    decreases n
  {
    hide Inv, Step;
    if from < n {
      RunMonotone(c, h, from, n - 1);
      AlwaysInv(c, h, n - 1);
      assert Linked(c, h, n - 1);
      StepMonotone(c, h.states[n - 1], h.actions[n - 1]);
    }
  }

  lemma StaleAck(c: Config, s: State, m: Message)
    ensures m.frame.Ack? && (m.frame.epoch < s.port.epoch || m.session != s.port.target || m.id != s.port.id) ==>
      Step(c, s, Env(AckArrives(m))) == s.(steps := s.steps + 1)
  {
    hide SenderAcknowledge, Credited;
  }

  /**
   * A late ACK, such as one written by an ACK goroutine after a Resume, changes nothing: once its epoch
   * is over, at whatever later step it arrives, and until then unless it names the current route.
   */
  lemma LateAckIgnored(c: Config, h: History, from: nat, n: nat, m: Message)
    requires IsRun(c, h) && from <= n < |h.actions| && h.actions[n] == Env(AckArrives(m)) && m.frame.Ack?
    ensures var s := h.states[n];
            m.frame.epoch < h.states[from].port.epoch || m.session != s.port.target || m.id != s.port.id ==>
              h.states[n + 1] == s.(steps := s.steps + 1)
  {
    hide Step;
    RunMonotone(c, h, from, n);
    assert Linked(c, h, n);
    StaleAck(c, h.states[n], m);
  }

  // ------------------------------------------------------------- replay order

  /** No step whatever creates a Data frame between the start of a Resume attempt and its completion. */
  lemma NoDataWhileResuming(c: Config, h: History, n: nat)
    requires IsRun(c, h) && n < |h.actions| && Resuming(h.states[n].life)
    ensures h.states[n + 1].log == h.states[n].log
  {
    hide Inv, Retains, Step;
    AlwaysInv(c, h, n);
    var s := h.states[n];
    ShutWhileResuming(c, s);
    Counters(c, s);
    assert Linked(c, h, n);
    StepOpens(c, s, h.actions[n]);
  }

  lemma ShutWhileResuming(c: Config, s: State)
    requires Inv(c, s)
    ensures Resuming(s.life) ==> !s.port.ready
  {
    hide GateOk, CountersOk, LogOk, NetOk, ReceiversOk, ConfirmedOk, QueueOk, ConservedOk, WriterOk, CreditOk,
         ReplayOk, LifeOk, AttemptOk, SignalOk, FromOk, CurrentResumeOk;
  }

  /**
   * The Data frames of the current epoch on the wire travel on its route and are among those issued
   * under it, which are consecutive log payloads that start at the offset of that epoch's Resume frame;
   * while the path is ready they reach the end of the log, so the next new frame starts where they end.
   */
  lemma ReplayOrder(c: Config, h: History, n: nat)
    requires IsRun(c, h) && n < |h.states|
    ensures var s := h.states[n];
            && Contiguous(s.issued, s.log, s.start, s.port.epoch)
            && (s.port.epoch == 1 ==> s.start == 0)
            && (forall m :: m in OwnNet(s) && m.frame.Resume? && m.frame.epoch == s.port.epoch ==>
                  m.session == s.port.target && m.frame.offset == Off(s.log, s.start))
            && (forall m :: m in OwnNet(s) && m.frame.Data? && m.frame.epoch == s.port.epoch ==>
                  m.session == s.port.target && m.frame in s.issued)
            && (s.port.ready ==> s.start + |s.issued| == |s.log|)
            && (Resuming(s.life) ==> Off(s.log, s.start) == s.life.from && |s.issued| <= |s.log| - s.start)
  {
    hide Inv, Contiguous, Off, Own;
    AlwaysInv(c, h, n);
    var s := h.states[n];
    IssuedInOrder(c, s);
    ResumeFrom(c, s);
    OnRoute(c, s);
  }

  lemma IssuedInOrder(c: Config, s: State)
    requires Inv(c, s)
    ensures Contiguous(s.issued, s.log, s.start, s.port.epoch)
    ensures s.port.epoch == 1 ==> s.start == 0
    ensures s.port.ready ==> s.start + |s.issued| == |s.log|
    ensures CurrentResumeOk(OwnNet(s), s.port.epoch, s.port.target, s.log, s.start)
  {
    hide GateOk, CountersOk, LogOk, NetOk, ReceiversOk, ConfirmedOk, QueueOk, ConservedOk, WriterOk, CreditOk,
         EpochOk, LifeOk, AttemptOk, SignalOk, FromOk, CurrentResumeOk, Contiguous;
  }

  lemma OnRoute(c: Config, s: State)
    requires Inv(c, s)
    ensures forall m :: m in OwnNet(s) && m.frame.Data? && m.frame.epoch == s.port.epoch ==>
      m.session == s.port.target && m.frame in s.issued
  {
    hide GateOk, CountersOk, LogOk, NetOk, ReceiversOk, ConfirmedOk, QueueOk, ConservedOk, WriterOk, CreditOk,
         EpochOk, ReplayOk, LifeOk, AttemptOk, SignalOk, FromOk, CurrentResumeOk;
  }

  lemma ResumeFrom(c: Config, s: State)
    requires Inv(c, s)
    ensures Resuming(s.life) ==>
      s.start <= |s.log| && Off(s.log, s.start) == s.life.from && |s.issued| <= |s.log| - s.start
  {
    hide GateOk, NetOk, ReceiversOk, ConfirmedOk, QueueOk, ConservedOk, WriterOk, CreditOk, EpochOk, AttemptOk,
         SignalOk, FromOk, BatchOk, CurrentResumeOk, Contiguous;
  }

  /**
   * A payload is accepted only by the writer's offer on a ready path, and its frame continues at
   * lastSent, under the current epoch, on the current route.
   */
  lemma NewDataFollows(c: Config, h: History, n: nat)
    requires IsRun(c, h) && n < |h.actions|
    ensures var s, t := h.states[n], h.states[n + 1];
            t.log != s.log ==>
              && h.actions[n] == Write(OfferData)
              && s.port.ready && s.writer.pending.Some? && t.log == s.log + [s.writer.pending.value]
              && t.writer.pc == SendingData(s.port.target, Data(s.port.epoch, s.port.lastSent, s.writer.pending.value))
              && t.issued == s.issued + [t.writer.pc.frame]
  {
    hide Inv, EnvStep, LifeStep, WriterStep, RemoteStep, DoOfferData;
    AlwaysInv(c, h, n);
    assert Linked(c, h, n);
    var s, a := h.states[n], h.actions[n];
    if a == Write(OfferData) {
      OfferContinues(c, s);
      OfferStepped(c, s);
    } else {
      OnlyOffersExtend(c, s, a);
    }
  }

  lemma OfferStepped(c: Config, s: State)
    ensures Step(c, s, Write(OfferData)) == DoOfferData(s).(steps := s.steps + 1)
  {
    hide DoOfferData;
    assert WriterStep(c, s, OfferData) == DoOfferData(s);
    assert DoOfferData(s).steps == s.steps by {
      OfferCounts(s);
    }
  }

  lemma OfferCounts(s: State)
    ensures DoOfferData(s).steps == s.steps
  {
    hide DataForReadyPath;
  }

  lemma OfferContinues(c: Config, s: State)
    requires Inv(c, s)
    ensures var t := DoOfferData(s);
            t.log != s.log ==>
              && s.port.ready && s.writer.pending.Some? && t.log == s.log + [s.writer.pending.value]
              && t.writer.pc == SendingData(s.port.target, Data(s.port.epoch, s.port.lastSent, s.writer.pending.value))
              && t.issued == s.issued + [t.writer.pc.frame]
  {
    hide GateOk, LogOk, NetOk, ReceiversOk, ConfirmedOk, QueueOk, ConservedOk, WriterOk, CreditOk, ReplayOk, LifeOk,
         AttemptOk, SignalOk, FromOk, CurrentResumeOk;
  }

  // ------------------------------------------------------ justified activation

  /** An OpenAck with this stream's ID for an Open it sent, on the session that is the target, at epoch 1. */
  ghost predicate OpenedBy(s: State, a: Action) {
    && a.Env? && a.env.OpenAckArrives?
    && var m := a.env.m;
       && m in s.net && m.frame.OpenAck? && m.id == s.port.id && m.session == s.port.target
       && m.frame.epoch == 1 == s.port.epoch
       && m.(frame := Open(1, m.frame.window)) in s.net
  }

  /**
   * The end of a replay: an ACK matching session and epoch arrived after the attempt began,
   * some receiver has moved to that epoch, no failure was reported since, and every
   * unacknowledged payload was given to the wire again without a send error.
   */
  ghost predicate ResumedBy(s: State, a: Action) {
    && a == Lifecycle(CompleteReplay) && s.life.Replaying?
    && s.port.epoch > 1 && s.life.epoch == s.port.epoch && s.life.session == s.port.target
    && AckReleased(s.attempt.acked, s.port.target, s.port.epoch, OwnNet(s))
    && AtEpoch(s.receivers, s.port.epoch)
    && !s.attempt.failed
    && s.issued == s.life.frames && s.start + |s.issued| == |s.log|
  }

  /** Every activation of a path, in every run, is one of these two. */
  lemma JustifiedActivation(c: Config, h: History, n: nat)
    requires IsRun(c, h) && n < |h.actions|
    ensures !h.states[n].port.ready && h.states[n + 1].port.ready ==>
      OpenedBy(h.states[n], h.actions[n]) || ResumedBy(h.states[n], h.actions[n])
  {
    hide Inv, Retains, Step;
    AlwaysInv(c, h, n);
    assert Linked(c, h, n);
    var s, a := h.states[n], h.actions[n];
    if !s.port.ready && Step(c, s, a).port.ready {
      Counters(c, s);
        StepOpens(c, s, a);
      if a.Env? {
        OpenAckJustified(c, s, a.env.m);
      } else {
        ReplayJustified(c, s);
      }
    }
  }

  lemma OpenAckJustified(c: Config, s: State, m: Message)
    requires Inv(c, s) && m in OwnNet(s) && m.frame.OpenAck? && OpenAckMatches(s.port, m.session, m.frame.epoch)
    ensures OpenedBy(s, Env(OpenAckArrives(m)))
  {
    hide GateOk, CountersOk, LogOk, ReceiversOk, ConfirmedOk, QueueOk, ConservedOk, WriterOk, CreditOk, EpochOk,
         ReplayOk, LifeOk, AttemptOk, SignalOk, FromOk, CurrentResumeOk;
    assert MessageOk(m, c.window, OwnNet(s), s.log, s.port.epoch, s.receivers);
  }

  lemma ReplayJustified(c: Config, s: State)
    requires Inv(c, s)
    ensures ReplayOpens(s, Lifecycle(CompleteReplay)) ==>
      ResumedBy(s, Lifecycle(CompleteReplay))
  {
    hide GateOk, CountersOk, LogOk, ReceiversOk, ConfirmedOk, QueueOk, ConservedOk, WriterOk, CreditOk, SignalOk,
         FromOk, CurrentResumeOk, AtEpoch, AckedBy;
    if s.life.Replaying? && ResumeCompletes(s.port, s.life.session, s.life.epoch) {
      assert MessageOk(s.attempt.acked.value, c.window, OwnNet(s), s.log, s.port.epoch, s.receivers);
    }
  }

  lemma Abandoned(c: Config, s: State, m: Message)
    requires Inv(c, s)
    ensures m.id != s.port.id ||
            ((s.life.OpenSending? || s.life.OpenWaiting?) && m.session in s.life.tried - {s.life.session}) ==>
              Step(c, s, Env(OpenAckArrives(m))) == s.(steps := s.steps + 1)
  {
    hide GateOk, CountersOk, LogOk, NetOk, ReceiversOk, ConfirmedOk, QueueOk, ConservedOk, WriterOk, CreditOk,
         EpochOk, WireOk, ReplayOk, AttemptOk, SignalOk, FromOk, CurrentResumeOk;
  }

  /**
   * Responses on the sessions of abandoned Open candidates are rejected, while the next Open is being
   * sent and while its answer is awaited: the current candidate differs from every earlier one, and
   * only its own session's OpenAck matches. An OpenAck of another stream never matches.
   */
  lemma AbandonedOpenIgnored(c: Config, h: History, n: nat, m: Message)
    requires IsRun(c, h) && n < |h.actions| && h.actions[n] == Env(OpenAckArrives(m))
    ensures var s := h.states[n];
            m.id != s.port.id ||
            ((s.life.OpenSending? || s.life.OpenWaiting?) && m.session in s.life.tried - {s.life.session}) ==>
              h.states[n + 1] == s.(steps := s.steps + 1)
  {
    hide Inv, Step;
    AlwaysInv(c, h, n);
    assert Linked(c, h, n);
    Abandoned(c, h.states[n], m);
  }

  // ------------------------------------------------------------ signals, gates

  lemma LossSignalled(c: Config, s: State)
    requires Inv(c, s)
    ensures s.life.LifeParked? && (!s.port.ready || !s.active) ==> s.port.lost || s.losing > 0
  {
    hide GateOk, CountersOk, LogOk, NetOk, ReceiversOk, ConfirmedOk, QueueOk, ConservedOk, WriterOk, CreditOk,
         EpochOk, WireOk, ReplayOk, LifeOk, AttemptOk, FromOk, CurrentResumeOk;
  }

  lemma LossTaken(c: Config, s: State)
    ensures s.life.LifeParked? && s.port.lost ==> Step(c, s, Lifecycle(LossSeen)).life == RecoverIdle({})
  {
  }

  lemma SignalDelivered(c: Config, s: State)
    ensures s.losing > 0 ==> Step(c, s, Env(SignalLost)).port.lost
  {
  }

  /**
   * No lost path loss: a parked lifecycle whose path is not ready has a token to take or a
   * signaller about to leave one, and taking the token starts recovery.
   */
  lemma NoLostPathLoss(c: Config, h: History, n: nat)
    requires IsRun(c, h) && n < |h.states|
    ensures var s := h.states[n];
            s.life.LifeParked? && (!s.port.ready || !s.active) ==> s.port.lost || s.losing > 0
    ensures n < |h.actions| && h.actions[n] == Lifecycle(LossSeen) ==>
      (h.states[n].life.LifeParked? && h.states[n].port.lost ==> h.states[n + 1].life == RecoverIdle({}))
    ensures n < |h.actions| && h.states[n].losing > 0 && h.actions[n] == Env(SignalLost) ==> h.states[n + 1].port.lost
  {
    hide Inv, Step;
    AlwaysInv(c, h, n);
    LossSignalled(c, h.states[n]);
    if n < |h.actions| {
      assert Linked(c, h, n);
      SignalDelivered(c, h.states[n]);
      LossTaken(c, h.states[n]);
    }
  }

  /** The path is ready exactly while the current ready channel is closed, and no channel is closed twice. */
  lemma ReadinessGate(c: Config, h: History, n: nat)
    requires IsRun(c, h) && n < |h.states|
    ensures var p := h.states[n].port; p.ready <==> p.gate in p.closed
    ensures n < |h.actions| ==>
      var p, q := h.states[n].port, h.states[n + 1].port;
      q.closed != p.closed ==> q.closed == p.closed + {p.gate} && p.gate !in p.closed
  {
    hide Inv, Retains, Step;
    AlwaysInv(c, h, n);
    var s := h.states[n];
    Counters(c, s);
    Gate(c, s);
    if n < |h.actions| {
      assert Linked(c, h, n);
      StepOpens(c, s, h.actions[n]);
    }
  }

  lemma Gate(c: Config, s: State)
    requires Inv(c, s)
    ensures s.port.ready <==> s.port.gate in s.port.closed
  {
    hide CountersOk, LogOk, NetOk, ReceiversOk, ConfirmedOk, QueueOk, ConservedOk, WriterOk, CreditOk, ReplayOk,
         AttemptOk, FromOk, CurrentResumeOk, EpochOk, LifeOk, SignalOk;
  }

  lemma Watched(c: Config, s: State)
    requires Inv(c, s)
    ensures s.writer.pc.WaitReady? ==> s.writer.pc.gate == s.port.gate || s.writer.pc.gate in s.port.closed
  {
    hide GateOk, CountersOk, LogOk, NetOk, ReceiversOk, ConfirmedOk, QueueOk, ConservedOk, CreditOk, EpochOk, WireOk,
         ReplayOk, LifeOk, AttemptOk, SignalOk, FromOk, CurrentResumeOk;
  }

  /** A writer waiting on a ready channel watches the current one, or one already closed: it is never stranded. */
  lemma WriterNeverStranded(c: Config, h: History, n: nat)
    requires IsRun(c, h) && n < |h.states|
    ensures var s := h.states[n];
            s.writer.pc.WaitReady? ==>
              && (s.writer.pc.gate == s.port.gate || s.writer.pc.gate in s.port.closed)
              && (s.port.ready ==> s.writer.pc.gate in s.port.closed)
  {
    hide Inv;
    AlwaysInv(c, h, n);
    Watched(c, h.states[n]);
    Gate(c, h.states[n]);
  }

  /**
   * No lost credit: as soon as an ACK that arrived since the window was found full makes room for the
   * waiting writer's payload, by its offset, its window or both, a wake token is there; so it is
   * whenever an ACK moved the acknowledged offset or changed the window at all.
   */
  lemma NoLostCredit(c: Config, h: History, n: nat)
    requires IsRun(c, h) && n < |h.states|
    ensures var s := h.states[n];
            s.writer.pc.WaitWake? ==>
              && s.writer.pending.Some?
              && (DataForReadyPath(s.port, s.writer.pending.value).1.Sent? ==> s.port.wake)
              && (s.port.lastAck != s.writer.ackSeen || s.port.sender.window != s.writer.windowSeen ==> s.port.wake)
  {
    hide Inv, Retains;
    AlwaysInv(c, h, n);
    var s := h.states[n];
    Counters(c, s);
    Credit(c, s);
  }

  lemma Credit(c: Config, s: State)
    requires Inv(c, s)
    ensures AtFull(s.writer.pc) ==>
      && s.writer.pending.Some? && s.port.lastSent - s.writer.ackSeen + |s.writer.pending.value| > s.writer.windowSeen
      && s.writer.ackSeen <= s.port.lastAck
      && (s.writer.ackSeen < s.port.lastAck || s.writer.windowSeen != s.port.sender.window ==> s.port.wake)
  {
    hide GateOk, CountersOk, LogOk, NetOk, ReceiversOk, ConfirmedOk, QueueOk, ConservedOk, WriterOk, ReplayOk,
         AttemptOk, FromOk, CurrentResumeOk, EpochOk, LifeOk, SignalOk;
  }

  /** While the sender's window is at least one frame, a full window means unacknowledged data is outstanding. */
  lemma FullWindowIsOutstanding(c: Config, h: History, n: nat)
    requires IsRun(c, h) && n < |h.states|
    requires h.states[n].port.sender.window >= STREAM_BATCH_MAX
    ensures var s := h.states[n];
            s.writer.pending.Some? && DataForReadyPath(s.port, s.writer.pending.value).1 == WindowFull ==>
              Outstanding(s.port)
  {
    hide Inv, Retains, Unbatch, Decode;
    AlwaysInv(c, h, n);
    WriterConserves(c, h, n);
    Counters(c, h.states[n]);
  }
}
