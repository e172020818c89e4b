/** The stream writer keeps the invariant; packets are conserved at every one of its steps. */
module StreamWriterSteps {
  import opened Common
  import opened StreamCodec
  import opened StreamLog
  import opened StreamSdk
  import opened StreamPath
  import opened StallDetector
  import opened StreamSystem
  import opened StreamInvariant
  import opened StreamEnvSteps
  import opened StreamLifeSteps

  lemma PacketsSnoc(log: seq<Bytes>, payload: Bytes)
    ensures Packets(log + [payload]) == Packets(log) + Unbatch(payload)
  {
    assert (log + [payload])[..|log|] == log;
  }

  lemma FirstBatch(first: Packet)
    requires Admissible(first)
    ensures AppendPacket(STREAM_MAGIC, first).Some?
    ensures BatchOk(AppendPacket(STREAM_MAGIC, first).value)
    ensures Unbatch(AppendPacket(STREAM_MAGIC, first).value) == [first]
  {
    UnbatchFirst(first);
  }

  lemma NextBatch(batch: Bytes, packet: Packet)
    requires BatchOk(batch) && Admissible(packet) && AppendPacket(batch, packet).Some?
    ensures BatchOk(AppendPacket(batch, packet).value)
    ensures Unbatch(AppendPacket(batch, packet).value) == Unbatch(batch) + [packet]
  {
    AppendKeepsBatch(batch, packet);
    UnbatchAppend(batch, packet);
  }

  lemma TakeFirstConserves(taken: seq<Packet>, log: seq<Bytes>, w: Writer, first: Packet)
    requires ConservedOk(taken, log, w) && w.pc == Top && Admissible(first)
    ensures w.overflow.None? ==> ConservedOk(taken + [first], log, StartBatch(w, first))
    ensures w.overflow == Some(first) ==> ConservedOk(taken, log, StartBatch(w.(overflow := None), first))
  {
    hide BatchOk, AppendPacket, Unbatch, Packets;
    FirstBatch(first);
  }

  lemma DrainConserves(taken: seq<Packet>, log: seq<Bytes>, w: Writer, packet: Packet)
    requires ConservedOk(taken, log, w) && w.pc == Draining && w.pending.Some? && Admissible(packet)
    ensures match AppendPacket(w.pending.value, packet)
            case None => ConservedOk(taken + [packet], log, w.(pc := AtPath, overflow := Some(packet)))
            case Some(batch) => ConservedOk(taken + [packet], log, w.(pending := Some(batch)))
  {
    hide BatchOk, AppendPacket, Unbatch, Packets;
    var sent, batched := Packets(log), Unbatch(w.pending.value);
    assert sent + (batched + [packet]) == (sent + batched) + [packet];
    if AppendPacket(w.pending.value, packet).Some? {
      NextBatch(w.pending.value, packet);
    }
  }

  lemma OfferConserves(taken: seq<Packet>, log: seq<Bytes>, w: Writer, pc: WriterPc)
    requires ConservedOk(taken, log, w) && w.pending.Some? && pc.SendingData?
    ensures ConservedOk(taken, log + [w.pending.value], w.(pc := pc, pending := None, stall := None))
  {
    hide BatchOk, Unbatch;
    PacketsSnoc(log, w.pending.value);
    var more := if w.overflow.Some? then [w.overflow.value] else [];
    assert Packets(log) + (Unbatch(w.pending.value) + more) == (Packets(log) + Unbatch(w.pending.value)) + more;
  }

  lemma TakeKeeps(c: Config, s: State)
    requires Inv(c, s)
    ensures Inv(c, DoTakeOverflow(s)) && Inv(c, DoTakeFirst(s))
  {
    hide GateOk, CountersOk, LogOk, NetOk, ReceiversOk, ConfirmedOk, ConservedOk, ReplayOk, LifeOk, AttemptOk,
         SignalOk, FromOk, AppendPacket;
    if s.writer.pc == Top {
      if s.writer.overflow.Some? {
        OverflowAdmissible(s.taken, s.log, s.writer);
        TakeFirstConserves(s.taken, s.log, s.writer, s.writer.overflow.value);
      } else if s.queue != [] {
        TakeFirstConserves(s.taken, s.log, s.writer, s.queue[0]);
        assert s.taken + s.queue == (s.taken + [s.queue[0]]) + s.queue[1..];
      }
    }
  }

  lemma OverflowAdmissible(taken: seq<Packet>, log: seq<Bytes>, w: Writer)
    requires ConservedOk(taken, log, w) && w.overflow.Some?
    ensures Admissible(w.overflow.value)
  {
  }

  lemma DrainKeeps(c: Config, s: State)
    requires Inv(c, s)
    ensures Inv(c, DoDrainOne(s))
  {
    hide GateOk, CountersOk, LogOk, NetOk, ReceiversOk, ConfirmedOk, ConservedOk, ReplayOk, LifeOk, AttemptOk,
         SignalOk, FromOk, AppendPacket;
    if s.writer.pc == Draining && s.writer.pending.Some? && s.queue != [] {
      DrainConserves(s.taken, s.log, s.writer, s.queue[0]);
      assert s.taken + s.queue == (s.taken + [s.queue[0]]) + s.queue[1..];
    }
  }

  /** Program points that are reached without an overflow packet only. */
  predicate Empty(pc: WriterPc) {
    pc.Draining? || pc.IdleSampled? || pc.IdleFailing?
  }

  /** A move between two program points that leaves packets, frames and credit as they are. */
  predicate Moves(w: Writer, v: Writer, gate: nat) {
    && v.pending == w.pending && v.overflow == w.overflow
    && !w.pc.NotStarted? && !v.pc.NotStarted? && !v.pc.SendingData?
    && (v.pc.WaitReady? ==> v.pc.gate == gate)
    && (BetweenBatches(v.pc) ==> BetweenBatches(w.pc))
    && (Empty(v.pc) ==> Empty(w.pc) || w.overflow.None?)
    && (AtFull(v.pc) ==> AtFull(w.pc) && v.ackSeen == w.ackSeen && v.windowSeen == w.windowSeen)
  }

  lemma MovedWriter(s: State, v: Writer, net: set<Message>)
    requires Moves(s.writer, v, s.port.gate)
    ensures ConservedOk(s.taken, s.log, s.writer) ==> ConservedOk(s.taken, s.log, v)
    ensures WriterOk(v.pc, s.port.gate, s.port.closed, s.port.epoch, s.log)
    ensures CreditOk(s.writer.pc, s.writer.pending, s.writer.ackSeen, s.writer.windowSeen,
                     s.port.lastAck, s.port.lastSent, s.port.sender.window, s.port.wake) ==>
      CreditOk(v.pc, v.pending, v.ackSeen, v.windowSeen,
               s.port.lastAck, s.port.lastSent, s.port.sender.window, s.port.wake)
    ensures EpochOk(s.life, s.writer.pc, s.port.epoch, s.port.sender.epoch, s.port.ready) ==>
      EpochOk(s.life, v.pc, s.port.epoch, s.port.sender.epoch, s.port.ready)
    ensures WireOk(net, s.writer.pc, s.port.target, s.port.epoch, s.issued) ==>
      WireOk(net, v.pc, s.port.target, s.port.epoch, s.issued)
  {
    hide BatchOk, Packets, PendingPackets, DataAt;
  }

  lemma MoveKeeps(c: Config, s: State, v: Writer)
    requires Inv(c, s)
    ensures v == s.writer || Moves(s.writer, v, s.port.gate) ==> Inv(c, s.(writer := v))
  {
    hide GateOk, CountersOk, LogOk, NetOk, ReceiversOk, ConfirmedOk, QueueOk, ConservedOk, WriterOk, CreditOk,
         EpochOk, WireOk, ReplayOk, LifeOk, AttemptOk, SignalOk, FromOk, CurrentResumeOk, Moves;
    if Moves(s.writer, v, s.port.gate) {
      MovedWriter(s, v, OwnNet(s));
    }
  }

  lemma PathReadKeeps(c: Config, s: State)
    requires Inv(c, s)
    ensures Inv(c, WriterStep(c, s, ReadPath)) && Inv(c, WriterStep(c, s, Released))
  {
    hide Inv;
    MoveKeeps(c, s, WriterStep(c, s, ReadPath).writer);
    MoveKeeps(c, s, WriterStep(c, s, Released).writer);
  }

  lemma LocalKeeps(c: Config, s: State)
    requires Inv(c, s)
    ensures Inv(c, DoDrainDone(s)) && Inv(c, WriterStep(c, s, Stop))
  {
    hide Inv, IsStreamBatch;
    MoveKeeps(c, s, DoDrainDone(s).writer);
    MoveKeeps(c, s, WriterStep(c, s, Stop).writer);
  }

  lemma SampleKeeps(c: Config, s: State)
    requires Inv(c, s)
    ensures Inv(c, DoSampleFull(s)) && Inv(c, DoSampleIdle(s))
  {
    hide Inv;
    MoveKeeps(c, s, DoSampleFull(s).writer);
    MoveKeeps(c, s, DoSampleIdle(s).writer);
  }

  lemma ObserveKeeps(c: Config, s: State)
    requires Inv(c, s)
    ensures Inv(c, DoObserveFull(c, s)) && Inv(c, DoObserveIdle(c, s))
  {
    hide Inv, Fires, Observe, Restarts;
    MoveKeeps(c, s, DoObserveFull(c, s).writer);
    MoveKeeps(c, s, DoObserveIdle(c, s).writer);
  }

  lemma WakeUpKeeps(c: Config, s: State, timer: bool)
    requires Inv(c, s)
    ensures Inv(c, DoWakeUp(s, timer))
  {
    hide Inv;
    var t := s.(writer := DoWakeUp(s, timer).writer);
    MoveKeeps(c, s, t.writer);
    TokenTaken(c, t);
  }

  /** Only a writer at a full window relies on the wake token. */
  lemma TokenTaken(c: Config, s: State)
    requires Inv(c, s)
    ensures !AtFull(s.writer.pc) ==> Inv(c, s.(port := s.port.(wake := false)))
  {
    hide GateOk, CountersOk, LogOk, NetOk, ReceiversOk, ConfirmedOk, QueueOk, ConservedOk, WriterOk, EpochOk, WireOk,
         ReplayOk, LifeOk, AttemptOk, SignalOk, FromOk, CurrentResumeOk;
  }

  /** Only the writer's program point and detectors change after its failure report. */
  lemma BackFromFailure(c: Config, s: State)
    requires Inv(c, s)
    ensures s.writer.pc.StallFailing? ==> Inv(c, s.(writer := s.writer.(pc := AtPath, stall := None)))
    ensures s.writer.pc.IdleFailing? ==> Inv(c, s.(writer := s.writer.(pc := Top, idle := None)))
    ensures s.writer.pc.SendFailing? ==> Inv(c, s.(writer := s.writer.(pc := Top)))
  {
    hide Inv;
    MoveKeeps(c, s, s.writer.(pc := AtPath, stall := None));
    MoveKeeps(c, s, s.writer.(pc := Top, idle := None));
    MoveKeeps(c, s, s.writer.(pc := Top));
  }

  lemma FailedPathKeeps(c: Config, s: State)
    requires Inv(c, s)
    ensures Inv(c, DoFailStalled(s)) && Inv(c, DoFailIdle(s)) && Inv(c, DoFailSend(s))
  {
    hide Inv;
    if s.writer.pc.StallFailing? || s.writer.pc.IdleFailing? {
      var p := s.writer.pc.progress;
      FailKeeps(c, s, AckStalled, Unchanged(s.port, p.session, p.epoch, p.ack, p.window));
      BackFromFailure(c, FailUnchanged(s, p));
    } else if s.writer.pc.SendFailing? {
      SendResultKeeps(c, s, s.writer.pc.session, s.writer.pc.epoch);
      BackFromFailure(c, DoSendResult(s, s.writer.pc.session, s.writer.pc.epoch));
    }
  }

  lemma OfferedLog(log: seq<Bytes>, sender: Sender, payload: Bytes)
    requires LogOk(log, sender) && BatchOk(payload) && SenderData(sender, payload).Some?
    ensures var (next, frame) := SenderData(sender, payload).value;
            && LogOk(log + [payload], next) && |next.retained| == |sender.retained| + 1
            && frame == LogFrame(log + [payload], |log|, sender.epoch)
  {
    hide BatchOk;
    DataRetains(sender, log, |log| - |sender.retained|, payload);
  }

  lemma OfferedReplay(log: seq<Bytes>, issued: seq<Frame>, start: nat, epoch: nat, payload: Bytes)
    requires ReplayOk(log, issued, start, epoch, true)
    ensures ReplayOk(log + [payload], issued + [LogFrame(log + [payload], |log|, epoch)], start, epoch, true)
  {
    ContiguousPrefix(issued, log, log + [payload], start, epoch);
  }

  lemma OfferedFrames(life: Life, target: Session, epoch: nat, lastAck: nat, log: seq<Bytes>, retained: nat,
                      issued: seq<Frame>, start: nat, gate: nat, closed: set<nat>, payload: Bytes, frame: Frame)
    requires LifeOk(life, target, epoch, lastAck, log, retained, issued, start, gate, closed) && !Resuming(life)
    ensures LifeOk(life, target, epoch, lastAck, log + [payload], retained + 1, issued + [frame], start, gate, closed)
  {
  }

  predicate Accepting(s: State, payload: Bytes) {
    && s.writer.pc == TryData && s.writer.pending == Some(payload) && s.port.ready
    && SenderData(s.port.sender, payload).Some?
  }

  /** The sender accepts the payload: the new state. */
  function Accepted(s: State, payload: Bytes): State
    requires SenderData(s.port.sender, payload).Some?
  {
    var (sender, frame) := SenderData(s.port.sender, payload).value;
    s.(port := s.port.(sender := sender, lastSent := s.port.lastSent + |payload|),
       log := s.log + [payload], issued := s.issued + [frame],
       writer := s.writer.(pc := SendingData(s.port.target, frame), pending := None, stall := None))
  }

  /** The outcomes of an offer. */
  lemma OfferCases(c: Config, s: State)
    requires Inv(c, s)
    ensures var t := DoOfferData(s);
            if s.writer.pc != TryData || s.writer.pending.None? then t == s
            else if !s.port.ready then t == s.(writer := s.writer.(pc := AtPath))
            else if SenderData(s.port.sender, s.writer.pending.value).None? then
              t == s.(writer := s.writer.(pc := Full(s.port.target), ackSeen := s.port.lastAck,
                                          windowSeen := s.port.sender.window))
            else t == Accepted(s, s.writer.pending.value)
  {
    hide GateOk, LogOk, NetOk, ReceiversOk, ConfirmedOk, QueueOk, ConservedOk, WriterOk, CreditOk, EpochOk, WireOk,
         ReplayOk, LifeOk, AttemptOk, SignalOk, FromOk, CurrentResumeOk;
  }

  /** Accepting a payload extends the log, the retained bytes and the epoch's frames together. */
  lemma AcceptKeeps(c: Config, s: State, payload: Bytes)
    requires Inv(c, s)
    ensures Accepting(s, payload) ==> Inv(c, Accepted(s, payload))
  {
    hide GateOk, CountersOk, LogOk, NetOk, ReceiversOk, ConfirmedOk, QueueOk, ConservedOk, WriterOk, CreditOk,
         EpochOk, WireOk, ReplayOk, LifeOk, AttemptOk, SignalOk, FromOk, CurrentResumeOk, SenderData, DataAt, BatchOk;
    if Accepting(s, payload) {
      var t := Accepted(s, payload);
      var frame := t.writer.pc.frame;
      PendingIsBatch(s.taken, s.log, s.writer);
      NotResuming(s.life, s.writer.pc, s.port.epoch, s.port.sender.epoch, s.port.ready);
      OfferedSender(s.port, payload);
      OfferedLog(s.log, s.port.sender, payload);
      OfferConserves(s.taken, s.log, s.writer, t.writer.pc);
      OfferedReplay(s.log, s.issued, s.start, s.port.epoch, payload);
      OfferedFrames(s.life, s.port.target, s.port.epoch, s.port.lastAck, s.log, |s.port.sender.retained|, s.issued,
                    s.start, s.port.gate, s.port.closed, payload, frame);
      NetGrows(c.window, OwnNet(s), s.log, s.port.epoch, s.receivers, OwnNet(s), t.log, s.port.epoch, s.receivers);
      ReceiversContext(s.receivers, s.live, c.window, s.log, s.port.epoch, OwnNet(s), t.log, s.port.epoch, OwnNet(s));
      OfferedWriter(s, payload, OwnNet(s));
      OfferedResume(OwnNet(s), s.port.epoch, s.port.target, s.log, s.start, payload);
    }
  }

  lemma NotResuming(life: Life, pc: WriterPc, epoch: nat, senderEpoch: nat, ready: bool)
    requires EpochOk(life, pc, epoch, senderEpoch, ready) && ready
    ensures !Resuming(life) && senderEpoch == epoch
  {
  }

  lemma OfferedSender(p: Port, payload: Bytes)
    requires CountersOk(p.lastAck, p.lastSent, p.sender) && SenderData(p.sender, payload).Some?
    ensures var next := SenderData(p.sender, payload).value.0;
            && CountersOk(p.lastAck, p.lastSent + |payload|, next)
            && next.epoch == p.sender.epoch
  {
  }

  /** The frame in hand is the newest of the log and was issued on the current route. */
  lemma OfferedWriter(s: State, payload: Bytes, net: set<Message>)
    requires SenderData(s.port.sender, payload).Some? && s.port.sender.epoch == s.port.epoch
    requires SenderData(s.port.sender, payload).value.1 == LogFrame(s.log + [payload], |s.log|, s.port.epoch)
    requires s.writer.pc == TryData && EpochOk(s.life, s.writer.pc, s.port.epoch, s.port.sender.epoch, s.port.ready)
    requires WireOk(net, s.writer.pc, s.port.target, s.port.epoch, s.issued)
    ensures var t := Accepted(s, payload);
            && WriterOk(t.writer.pc, s.port.gate, s.port.closed, s.port.epoch, t.log)
            && CreditOk(t.writer.pc, None, t.writer.ackSeen, t.writer.windowSeen, s.port.lastAck, t.port.lastSent,
                        t.port.sender.window, s.port.wake)
            && EpochOk(s.life, t.writer.pc, s.port.epoch, s.port.epoch, s.port.ready)
            && WireOk(net, t.writer.pc, s.port.target, s.port.epoch, t.issued)
  {
    hide SenderData;
    FrameInLog(s.log + [payload], |s.log|, s.port.epoch);
    hide DataAt, Off;
  }

  /** A full window: what did not fit, and since when credit counts. */
  lemma FullKeeps(c: Config, s: State)
    requires Inv(c, s)
    ensures
      s.writer.pc == TryData && s.writer.pending.Some? && SenderData(s.port.sender, s.writer.pending.value).None? ==>
      Inv(c, s.(writer := s.writer.(pc := Full(s.port.target),
                                    ackSeen := s.port.lastAck, windowSeen := s.port.sender.window)))
  {
    hide GateOk, LogOk, NetOk, ReceiversOk, ConfirmedOk, QueueOk, ConservedOk, ReplayOk, LifeOk, AttemptOk, SignalOk,
         FromOk, CurrentResumeOk;
    UnsentConserves(s.taken, s.log, s.writer);
  }

  lemma OfferKeeps(c: Config, s: State)
    requires Inv(c, s)
    ensures Inv(c, DoOfferData(s))
  {
    hide Inv, DoOfferData, SenderData;
    OfferCases(c, s);
    if s.writer.pending.Some? {
      AcceptKeeps(c, s, s.writer.pending.value);
    }
    FullKeeps(c, s);
    MoveKeeps(c, s, s.writer.(pc := AtPath));
  }

  lemma OfferedResume(net: set<Message>, epoch: nat, target: Session, log: seq<Bytes>, start: nat, payload: Bytes)
    requires CurrentResumeOk(net, epoch, target, log, start)
    ensures CurrentResumeOk(net, epoch, target, log + [payload], start)
  {
    OffPrefix(log, log + [payload], start);
  }

  lemma PendingIsBatch(taken: seq<Packet>, log: seq<Bytes>, w: Writer)
    requires ConservedOk(taken, log, w) && w.pending.Some?
    ensures BatchOk(w.pending.value)
  {
  }

  lemma FrameInLog(log: seq<Bytes>, n: nat, epoch: nat)
    requires n < |log|
    ensures DataAt(log, LogFrame(log, n, epoch).offset, LogFrame(log, n, epoch).payload)
  {
  }

  lemma UnsentConserves(taken: seq<Packet>, log: seq<Bytes>, w: Writer)
    requires ConservedOk(taken, log, w)
    ensures w.pc == TryData ==>
      forall session, seen, window ::
        ConservedOk(taken, log, w.(pc := Full(session), ackSeen := seen, windowSeen := window))
  {
  }

  lemma SendFrameKeeps(c: Config, s: State, err: bool, reached: bool)
    requires Inv(c, s)
    ensures Inv(c, DoSendFrame(s, err, reached))
  {
    hide Inv, MessageOk, Own;
    if s.writer.pc.SendingData? {
      var m := Message(s.writer.pc.session, s.port.id, s.writer.pc.frame);
      FrameMessage(c, s);
      EmitKeeps(c, s, m, reached);
      MoveKeeps(c, s.(net := Emit(s.net, m, reached)), DoSendFrame(s, err, reached).writer);
    }
  }

  /** The frame in the writer's hand may go on the wire. */
  lemma FrameMessage(c: Config, s: State)
    requires Inv(c, s)
    ensures s.writer.pc.SendingData? ==>
      var m := Message(s.writer.pc.session, s.port.id, s.writer.pc.frame);
      && MessageOk(m, c.window, OwnNet(s) + {m}, s.log, s.port.epoch, s.receivers)
      && m.frame.Data? && (m.frame.epoch == s.port.epoch ==> m.session == s.port.target && m.frame in s.issued)
  {
    hide GateOk, CountersOk, LogOk, NetOk, ReceiversOk, ConfirmedOk, QueueOk, ConservedOk, CreditOk, EpochOk,
         ReplayOk, LifeOk, AttemptOk, SignalOk, FromOk, CurrentResumeOk, DataAt;
  }

  lemma WriterKeeps(c: Config, s: State, a: WriterAction)
    requires Inv(c, s)
    ensures Inv(c, WriterStep(c, s, a))
  {
    hide Inv;
    match a
    case TakeOverflow => TakeKeeps(c, s);
    case TakeFirst => TakeKeeps(c, s);
    case SampleIdle => SampleKeeps(c, s);
    case ObserveIdle => ObserveKeeps(c, s);
    case FailIdle => FailedPathKeeps(c, s);
    case DrainOne => DrainKeeps(c, s);
    case DrainDone => LocalKeeps(c, s);
    case ReadPath => PathReadKeeps(c, s);
    case Released => PathReadKeeps(c, s);
    case OfferData => OfferKeeps(c, s);
    case SampleFull => SampleKeeps(c, s);
    case ObserveFull => ObserveKeeps(c, s);
    case FailStalled => FailedPathKeeps(c, s);
    case WakeUp(timer) => WakeUpKeeps(c, s, timer);
    case SendFrame(err, reached) => SendFrameKeeps(c, s, err, reached);
    case FailSend => FailedPathKeeps(c, s);
    case Stop => LocalKeeps(c, s);
  }
}
