/** What the steps of the stream writer achieve, in every run. */
module StreamTransfer {
  import opened Common
  import opened StreamCodec
  import opened StreamLog
  import opened StreamSdk
  import opened StreamPath
  import opened StallDetector
  import opened StreamSystem
  import opened StreamInvariant
  import opened StreamTheorems
  import StreamFailures
  import StreamLifecycle

  // ------------------------------------------------------------ batching

  lemma WriterFacts(c: Config, s: State)
    requires Inv(c, s)
    ensures forall p :: p in s.queue ==> 1 <= |p| <= 65535
    ensures s.writer.overflow.Some? ==> 1 <= |s.writer.overflow.value| <= 65535
    ensures s.writer.pending.Some? ==> IsStreamBatch(s.writer.pending.value) && |s.writer.pending.value| <= 128 * 1024
    ensures BetweenBatches(s.writer.pc) ==> s.writer.pending.None?
    ensures s.writer.pc.Draining? ==> s.writer.overflow.None?
  {
    hide GateOk, CountersOk, LogOk, NetOk, ReceiversOk, ConfirmedOk, WriterOk, CreditOk, EpochOk, WireOk, ReplayOk,
         LifeOk, AttemptOk, SignalOk, FromOk, CurrentResumeOk, Packets, PendingPackets, ParseBody;
  }

  /** A batch of one packet, in the wire format. */
  predicate Begun(w: Writer, packet: Packet) {
    w.pc == Draining && w.pending == Some([0x54, 0x50] + Flat([packet]))
  }

  lemma RecordIsFlat(packet: Packet)
    requires |packet| <= 65535
    ensures Record(packet) == Flat([packet])
  {
    var rest := ([packet])[1..];
    assert rest == [] && Flat(rest) == [];
  }

  lemma BatchBegins(w: Writer, packet: Packet)
    requires 1 <= |packet| <= 65535
    ensures StartBatch(w, packet) == w.(pc := Draining, pending := Some([0x54, 0x50] + Flat([packet])))
  {
    hide Record, Flat;
    RecordIsFlat(packet);
  }

  /** A batch starts from the overflow packet when there is one, and else from the packet queued longest. */
  lemma FirstIsTaken(c: Config, h: History, n: nat)
    requires IsRun(c, h) && n < |h.actions| && h.states[n].writer.pc == Top
    ensures var s, t := h.states[n], h.states[n + 1];
            && (h.actions[n] == Write(TakeOverflow) && s.writer.overflow.Some? ==>
                  && Begun(t.writer, s.writer.overflow.value) && t.writer.overflow.None?
                  && t == s.(writer := t.writer, steps := s.steps + 1))
            && (h.actions[n] == Write(TakeFirst) && s.writer.overflow.None? && s.queue != [] ==>
                  && Begun(t.writer, s.queue[0]) && t.writer.overflow.None?
                  && t == s.(writer := t.writer, queue := s.queue[1..], taken := s.taken + [s.queue[0]],
                             steps := s.steps + 1))
  {
    hide Inv, EnvStep, LifeStep, RemoteStep, StartBatch, Flat;
    AlwaysInv(c, h, n);
    assert Linked(c, h, n);
    var s := h.states[n];
    WriterFacts(c, s);
    if s.writer.overflow.Some? {
      BatchBegins(s.writer.(overflow := None), s.writer.overflow.value);
    } else if s.queue != [] {
      assert s.queue[0] in s.queue;
      BatchBegins(s.writer, s.queue[0]);
    }
  }

  lemma BatchGrows(batch: Bytes, packet: Packet)
    requires 1 <= |packet| <= 65535
    ensures AppendPacket(batch, packet) ==
      if |batch| + 2 + |packet| > 128 * 1024 then None else Some(batch + Flat([packet]))
  {
    hide Record, Flat;
    RecordIsFlat(packet);
  }

  /**
   * While anything is queued, a batch takes the next packet when that fits into 128 KiB, and ends with it as overflow
   * when it does not; a batch ends without overflow only when nothing is queued.
   */
  lemma BatchIsFilled(c: Config, h: History, n: nat)
    requires IsRun(c, h) && n < |h.actions| && h.states[n].writer.pc == Draining && h.states[n].writer.pending.Some?
    ensures var s, t := h.states[n], h.states[n + 1];
            && (h.actions[n] == Write(DrainOne) && s.queue != [] ==>
                  var batch, packet := s.writer.pending.value, s.queue[0];
                  && t == s.(writer := t.writer, queue := s.queue[1..], taken := s.taken + [packet],
                             steps := s.steps + 1)
                  && t.writer ==
                       if |batch| + 2 + |packet| <= 128 * 1024
                       then s.writer.(pending := Some(batch + Flat([packet])))
                       else s.writer.(pc := AtPath, overflow := Some(packet)))
            && (h.actions[n] == Write(DrainDone) ==>
                  if s.queue == [] then t == s.(writer := s.writer.(pc := AtPath), steps := s.steps + 1)
                  else StreamLifecycle.Idles(s, t))
  {
    hide Inv, EnvStep, LifeStep, RemoteStep, AppendPacket, Flat;
    AlwaysInv(c, h, n);
    assert Linked(c, h, n);
    var s := h.states[n];
    WriterFacts(c, s);
    if s.queue != [] {
      assert s.queue[0] in s.queue;
      BatchGrows(s.writer.pending.value, s.queue[0]);
    }
  }

  // -------------------------------------------------------------- sending

  /** The writer notes the current ready channel, and goes on once that channel is closed. */
  lemma PathIsAwaited(c: Config, h: History, n: nat)
    requires IsRun(c, h) && n < |h.actions|
    ensures var s, t := h.states[n], h.states[n + 1];
            && (h.actions[n] == Write(ReadPath) && s.writer.pc == AtPath ==>
                  t == s.(writer := s.writer.(pc := WaitReady(s.port.gate)), steps := s.steps + 1))
            && (h.actions[n] == Write(Released) && s.writer.pc.WaitReady? ==>
                  if s.writer.pc.gate in s.port.closed
                  then t == s.(writer := s.writer.(pc := TryData), steps := s.steps + 1)
                  else StreamLifecycle.Idles(s, t))
  {
    hide EnvStep, LifeStep, RemoteStep;
    assert Linked(c, h, n);
  }

  /**
   * The offer of a payload: on a path that is not ready the writer waits for it again; a payload that does not fit the
   * window stays pending; any other is accepted at lastSent under the current epoch, for the current session.
   */
  lemma PayloadIsOffered(c: Config, h: History, n: nat)
    requires IsRun(c, h) && n < |h.actions| && h.actions[n] == Write(OfferData)
    requires h.states[n].writer.pc == TryData && h.states[n].writer.pending.Some?
    ensures var s, t := h.states[n], h.states[n + 1];
            var payload := s.writer.pending.value;
            if !s.port.ready then t == s.(writer := s.writer.(pc := AtPath), steps := s.steps + 1)
            else if s.port.lastSent + |payload| > s.port.lastAck + s.port.sender.window then
              && t.writer.pc == Full(s.port.target) && t.writer.pending == s.writer.pending
              && t.writer.overflow == s.writer.overflow && t.writer.stall == s.writer.stall
              && t.writer.ackSeen == s.port.lastAck && t.writer.windowSeen == s.port.sender.window
              && t == s.(writer := t.writer, steps := s.steps + 1)
            else
              var frame := Data(s.port.epoch, s.port.lastSent, payload);
              && t.log == s.log + [payload] && t.issued == s.issued + [frame]
              && t.port == s.port.(sender := t.port.sender, lastSent := s.port.lastSent + |payload|)
              && t.port.sender.window == s.port.sender.window && t.port.sender.epoch == s.port.sender.epoch
              && t.writer == s.writer.(pc := SendingData(s.port.target, frame), pending := None, stall := None)
              && t.net == s.net && t.receivers == s.receivers && t.live == s.live && t.life == s.life
              && t.queue == s.queue && t.start == s.start
  {
    hide Inv, EnvStep, LifeStep, RemoteStep, PortOk, DataForReadyPath;
    AlwaysInv(c, h, n);
    assert Linked(c, h, n);
    var s := h.states[n];
    StreamFailures.PortIsOk(c, s);
    DataGoes(s.port, s.writer.pending.value);
    SenderKept(s.port, s.writer.pending.value);
    ReadyEpoch(c, s);
  }

  lemma SenderKept(p: Port, payload: Bytes)
    ensures var q := DataForReadyPath(p, payload).0;
            q.sender.window == p.sender.window && q.sender.epoch == p.sender.epoch
  {
  }

  lemma ReadyEpoch(c: Config, s: State)
    requires Inv(c, s)
    ensures s.port.ready ==> s.port.sender.epoch == s.port.epoch
  {
    hide GateOk, CountersOk, LogOk, NetOk, ReceiversOk, ConfirmedOk, QueueOk, ConservedOk, WriterOk, CreditOk,
         WireOk, ReplayOk, LifeOk, AttemptOk, SignalOk, FromOk, CurrentResumeOk;
  }

  /** What was accepted and is not acknowledged never exceeds the window in force when it was accepted. */
  lemma WindowIsKept(c: Config, h: History, n: nat)
    requires IsRun(c, h) && n < |h.actions|
    ensures var s, t := h.states[n], h.states[n + 1];
            t.log != s.log ==> t.port.lastSent - t.port.lastAck <= t.port.sender.window
  {
    hide Inv, Step;
    NewDataFollows(c, h, n);
    if h.states[n + 1].log != h.states[n].log {
      Offering(c, h, n);
      PayloadIsOffered(c, h, n);
    }
  }

  lemma Offering(c: Config, h: History, n: nat)
    requires IsRun(c, h) && n < |h.actions| && h.actions[n] == Write(OfferData)
    ensures h.states[n + 1].log != h.states[n].log ==> h.states[n].writer.pc == TryData
  {
    hide EnvStep, LifeStep, RemoteStep, DataForReadyPath;
    assert Linked(c, h, n);
  }

  /** A writer waiting for credit goes on at a token, which it takes, or at its timer, and fills its batch if it can. */
  lemma WaitIsOver(c: Config, h: History, n: nat, timer: bool)
    requires IsRun(c, h) && n < |h.actions| && h.actions[n] == Write(WakeUp(timer)) && h.states[n].writer.pc == WaitWake
    ensures var s, t := h.states[n], h.states[n + 1];
            if timer || s.port.wake
            then t == s.(port := if timer then s.port else s.port.(wake := false),
                         writer := s.writer.(pc := if s.writer.overflow.None? then Draining else AtPath),
                         steps := s.steps + 1)
            else StreamLifecycle.Idles(s, t)
  {
    hide EnvStep, LifeStep, RemoteStep;
    assert Linked(c, h, n);
  }

  /** After its report the writer goes on, the detector that reported reset; a closed port stops it where it waits. */
  lemma WriterGoesOn(c: Config, h: History, n: nat)
    requires IsRun(c, h) && n < |h.actions|
    ensures var s, t := h.states[n], h.states[n + 1];
            && (h.actions[n] == Write(FailSend) && s.writer.pc.SendFailing? ==> t.writer == s.writer.(pc := Top))
            && (h.actions[n] == Write(FailStalled) && s.writer.pc.StallFailing? ==>
                  t.writer == s.writer.(pc := AtPath, stall := None))
            && (h.actions[n] == Write(FailIdle) && s.writer.pc.IdleFailing? ==>
                  t.writer == s.writer.(pc := Top, idle := None))
            && (h.actions[n] == Write(Stop) ==>
                  if s.port.done && ((s.writer.pc == Top && s.writer.overflow.None?) || s.writer.pc.WaitReady?
                                     || s.writer.pc == WaitWake)
                  then t == s.(writer := s.writer.(pc := Exited), steps := s.steps + 1)
                  else StreamLifecycle.Idles(s, t))
  {
    hide EnvStep, LifeStep, RemoteStep, FailPath, FailPathIfAckUnchanged;
    assert Linked(c, h, n);
  }
}
