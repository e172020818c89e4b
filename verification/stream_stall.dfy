/** Stall detection is sound in every run: a path failed for a stall really made no progress. */
module StreamStall {
  import opened Common
  import opened StreamCodec
  import opened StreamLog
  import opened StreamPath
  import opened StallDetector
  import opened StreamSystem
  import opened StreamInvariant
  import opened StreamEffects
  import opened StreamTheorems

  /** The run had this progress in state `at`, no later than `since`, and `n` is not before it. */
  ghost predicate Evidence(h: History, n: nat, p: Progress, at: nat, since: nat) {
    && at <= n < |h.states|
    && h.states[at].port.epoch == p.epoch && h.states[at].port.lastAck == p.ack && h.states[at].now <= since
  }

  /** In addition, data was outstanding then. */
  ghost predicate IdleEvidence(h: History, n: nat, p: Progress, at: nat, since: nat) {
    Evidence(h, n, p, at, since) && h.states[at].port.lastSent > p.ack
  }

  /** Everything the writer remembers about progress was true when it was sampled. */
  ghost predicate MemoryOk(c: Config, h: History, n: nat, w: Writer, now: nat) {
    && (w.stall.Some? ==>
          Evidence(h, n, w.stall.value.progress, w.stallAt, w.stall.value.since) && w.stall.value.since <= now)
    && (w.idle.Some? ==>
          IdleEvidence(h, n, w.idle.value.progress, w.idleAt, w.idle.value.since) && w.idle.value.since <= now)
    && (w.pc.FullSampled? ==> Evidence(h, n, w.pc.progress, w.pc.at, now))
    && (w.pc.IdleSampled? && w.pc.outstanding ==> IdleEvidence(h, n, w.pc.progress, w.pc.at, now))
    && (w.pc.StallFailing? ==>
          w.stall.Some? && w.stall.value.progress == w.pc.progress && now - w.stall.value.since >= c.timeout)
    && (w.pc.IdleFailing? ==>
          w.idle.Some? && w.idle.value.progress == w.pc.progress && now - w.idle.value.since >= c.timeout)
  }

  /** What was true of a run so far stays true later. */
  lemma MemoryLater(c: Config, h: History, n: nat, m: nat, w: Writer, now: nat, later: nat)
    requires MemoryOk(c, h, n, w, now) && now <= later && n <= m < |h.states|
    ensures MemoryOk(c, h, m, w, later)
  {
  }

  /** The writer steps that read or judge progress. */
  predicate Judges(a: WriterAction) {
    a.SampleFull? || a.SampleIdle? || a.ObserveFull? || a.ObserveIdle?
  }

  lemma SampleRemembers(c: Config, h: History, n: nat)
    requires n < |h.states| && h.states[n].steps == n && MemoryOk(c, h, n, h.states[n].writer, h.states[n].now)
    ensures MemoryOk(c, h, n, DoSampleFull(h.states[n]).writer, h.states[n].now)
    ensures MemoryOk(c, h, n, DoSampleIdle(h.states[n]).writer, h.states[n].now)
  {
  }

  lemma ObserveRemembers(c: Config, h: History, n: nat, s: State)
    requires MemoryOk(c, h, n, s.writer, s.now)
    ensures MemoryOk(c, h, n, DoObserveFull(c, s).writer, s.now)
    ensures MemoryOk(c, h, n, DoObserveIdle(c, s).writer, s.now)
  {
  }

  /** Every other writer step only forgets. */
  predicate Forgets(w: Writer, v: Writer) {
    && ((v.stall == w.stall && v.stallAt == w.stallAt) || v.stall.None?)
    && ((v.idle == w.idle && v.idleAt == w.idleAt) || v.idle.None?)
    && !v.pc.FullSampled? && !v.pc.IdleSampled? && !v.pc.StallFailing? && !v.pc.IdleFailing?
  }

  lemma ForgettingKeeps(c: Config, h: History, n: nat, w: Writer, v: Writer, now: nat)
    requires MemoryOk(c, h, n, w, now) && (v == w || Forgets(w, v))
    ensures MemoryOk(c, h, n, v, now)
  {
    hide Evidence, IdleEvidence;
  }

  lemma TakesForget(s: State, timer: bool, err: bool, reached: bool)
    ensures var v := DoTakeOverflow(s).writer; v == s.writer || Forgets(s.writer, v)
    ensures var v := DoTakeFirst(s).writer; v == s.writer || Forgets(s.writer, v)
    ensures var v := DoDrainOne(s).writer; v == s.writer || Forgets(s.writer, v)
    ensures var v := DoDrainDone(s).writer; v == s.writer || Forgets(s.writer, v)
  {
    hide AppendPacket, IsStreamBatch;
  }

  lemma SendsForget(s: State, timer: bool, err: bool, reached: bool)
    ensures var v := DoOfferData(s).writer; v == s.writer || Forgets(s.writer, v)
    ensures var v := DoWakeUp(s, timer).writer; v == s.writer || Forgets(s.writer, v)
    ensures var v := DoSendFrame(s, err, reached).writer; v == s.writer || Forgets(s.writer, v)
  {
    hide DataForReadyPath;
  }

  lemma FailuresForget(s: State)
    ensures var v := DoFailSend(s).writer; v == s.writer || Forgets(s.writer, v)
    ensures var v := DoFailStalled(s).writer; v == s.writer || Forgets(s.writer, v)
    ensures var v := DoFailIdle(s).writer; v == s.writer || Forgets(s.writer, v)
  {
  }

  lemma OthersForget(c: Config, s: State, a: WriterAction)
    requires !Judges(a)
    ensures var v := WriterStep(c, s, a).writer; v == s.writer || Forgets(s.writer, v)
  {
    hide DoTakeOverflow, DoTakeFirst, DoDrainOne, DoDrainDone, DoOfferData, DoWakeUp, DoSendFrame, DoFailStalled,
         DoFailIdle, DoFailSend;
    match a
    case WakeUp(timer) => SendsForget(s, timer, false, false);
    case SendFrame(err, reached) => SendsForget(s, false, err, reached);
    case OfferData => SendsForget(s, false, false, false);
    case FailStalled => FailuresForget(s);
    case FailIdle => FailuresForget(s);
    case FailSend => FailuresForget(s);
    case ReadPath =>
    case Released =>
    case Stop =>
    case _ => TakesForget(s, false, false, false);
  }

  lemma EnvLeavesWriter(c: Config, s: State, a: EnvAction)
    ensures EnvStep(c, s, a).writer == s.writer
  {
    hide Acknowledge;
  }

  lemma LifeStartsWriter(c: Config, s: State, a: LifeAction)
    ensures var v := LifeStep(c, s, a).writer; v == s.writer || Forgets(s.writer, v)
  {
    hide SenderResumed, BeginResume, BeginOpen, CompleteResume;
  }

  lemma StepRemembers(c: Config, h: History, n: nat, a: Action)
    requires n < |h.states| && h.states[n].steps == n && MemoryOk(c, h, n, h.states[n].writer, h.states[n].now)
    ensures MemoryOk(c, h, n, Step(c, h.states[n], a).writer, h.states[n].now)
  {
    var s := h.states[n];
    hide MemoryOk, EnvStep, LifeStep, RemoteStep, DoSampleFull, DoSampleIdle, DoObserveFull, DoObserveIdle;
    match a
    case Env(e) => EnvLeavesWriter(c, s, e);
    case Lifecycle(l) =>
      LifeStartsWriter(c, s, l);
      ForgettingKeeps(c, h, n, s.writer, LifeStep(c, s, l).writer, s.now);
    case Remote(r) => RemoteKeepsPort(s, r);
    case Write(w) =>
      SampleRemembers(c, h, n);
      ObserveRemembers(c, h, n, s);
      if !Judges(w) {
        OthersForget(c, s, w);
        ForgettingKeeps(c, h, n, s.writer, WriterStep(c, s, w).writer, s.now);
      } else {
        hide Judges;
        JudgeCases(c, s, w);
      }
  }

  lemma JudgeCases(c: Config, s: State, a: WriterAction)
    requires Judges(a)
    ensures WriterStep(c, s, a) in {DoSampleFull(s), DoSampleIdle(s), DoObserveFull(c, s), DoObserveIdle(c, s)}
  {
  }

  lemma {:induction false} AlwaysRemembers(c: Config, h: History, n: nat)
    requires IsRun(c, h) && n < |h.states|
    ensures MemoryOk(c, h, n, h.states[n].writer, h.states[n].now)
  {
    hide Step;
    if n > 0 {
      var m := n - 1;
      AlwaysRemembers(c, h, m);
      RunSteps(c, h, m);
      RunMonotone(c, h, m, n);
      assert Linked(c, h, m);
      hide MemoryOk;
      StepRemembers(c, h, m, h.actions[m]);
      MemoryLater(c, h, m, n, h.states[n].writer, h.states[m].now, h.states[n].now);
    }
  }

  /** From state `from` to state `n`, epoch and acknowledged offset never changed, for at least the timeout. */
  ghost predicate NoProgressSince(c: Config, h: History, n: nat, from: nat) {
    && from <= n < |h.states|
    && h.states[n].now - h.states[from].now >= c.timeout
    && forall k :: from <= k <= n ==>
         h.states[k].port.epoch == h.states[n].port.epoch && h.states[k].port.lastAck == h.states[n].port.lastAck
  }

  lemma ConstantBetween(c: Config, h: History, n: nat, from: nat, k: nat)
    requires IsRun(c, h) && from <= k <= n < |h.states|
    requires h.states[from].port.epoch == h.states[n].port.epoch
    requires h.states[from].port.lastAck == h.states[n].port.lastAck
    ensures h.states[k].port.epoch == h.states[n].port.epoch && h.states[k].port.lastAck == h.states[n].port.lastAck
    ensures h.states[from].port.lastSent <= h.states[k].port.lastSent
  {
    RunMonotone(c, h, k, n);
    RunMonotone(c, h, from, k);
  }

  lemma Unmoved(c: Config, h: History, n: nat, p: Progress, at: nat, since: nat)
    requires IsRun(c, h) && Evidence(h, n, p, at, since) && h.states[n].now - since >= c.timeout
    requires Unchanged(h.states[n].port, p.session, p.epoch, p.ack, p.window)
    ensures NoProgressSince(c, h, n, at)
  {
    forall k | at <= k <= n
      ensures h.states[k].port.epoch == h.states[n].port.epoch && h.states[k].port.lastAck == h.states[n].port.lastAck
    {
      ConstantBetween(c, h, n, at, k);
    }
  }

  // ------------------------------------------- what the window-full detector remembers

  /** Nothing was accepted since the held progress was sampled, and the window was found full no earlier. */
  ghost predicate FullMemory(h: History, w: Writer, log: seq<Bytes>) {
    && (w.stall.Some? ==> w.stallAt < |h.states| && h.states[w.stallAt].log == log)
    && (w.pc.FullSampled? ==> w.pc.at < |h.states| && h.states[w.pc.at].log == log)
    && (w.stall.Some? && (w.pc.Full? || w.pc.FullSampled? || w.pc.StallFailing?) ==>
          w.stall.value.progress.ack <= w.ackSeen)
  }

  /** A writer step that neither finds the window full nor judges it only forgets. */
  lemma ForgettingFull(h: History, w: Writer, v: Writer, log: seq<Bytes>)
    requires FullMemory(h, w, log)
    ensures v == w || (Forgets(w, v) && !v.pc.Full?) ==> FullMemory(h, v, log)
  {
  }

  lemma SampleFullMemory(c: Config, h: History, n: nat)
    requires n < |h.states| && h.states[n].steps == n && FullMemory(h, h.states[n].writer, h.states[n].log)
    ensures FullMemory(h, DoSampleFull(h.states[n]).writer, h.states[n].log)
    ensures FullMemory(h, DoObserveFull(c, h.states[n]).writer, h.states[n].log)
    ensures FullMemory(h, DoSampleIdle(h.states[n]).writer, h.states[n].log)
    ensures FullMemory(h, DoObserveIdle(c, h.states[n]).writer, h.states[n].log)
  {
  }

  /** An accepted payload makes the writer forget; a full window is newer than what it holds. */
  lemma OfferFullMemory(h: History, s: State)
    requires FullMemory(h, s.writer, s.log)
    requires s.writer.stall.Some? ==> s.writer.stall.value.progress.ack <= s.port.lastAck
    ensures FullMemory(h, DoOfferData(s).writer, DoOfferData(s).log)
  {
    hide DataForReadyPath;
  }

  /** Steps of the writer other than these four and the offer leave no full window behind. */
  lemma OthersNotFull(c: Config, s: State, a: WriterAction)
    requires !Judges(a) && !a.OfferData?
    ensures var v := WriterStep(c, s, a).writer; v == s.writer || (Forgets(s.writer, v) && !v.pc.Full?)
  {
    OthersForget(c, s, a);
    hide Forgets, StartBatch, AppendPacket, IsStreamBatch;
    assert WriterStep(c, s, a).writer == s.writer || !WriterStep(c, s, a).writer.pc.Full?;
  }

  lemma StepFullMemory(c: Config, h: History, n: nat, a: Action)
    requires n < |h.states| && h.states[n].steps == n && FullMemory(h, h.states[n].writer, h.states[n].log)
    requires h.states[n].writer.stall.Some? ==> h.states[n].writer.stall.value.progress.ack <= h.states[n].port.lastAck
    ensures FullMemory(h, Step(c, h.states[n], a).writer, Step(c, h.states[n], a).log)
  {
    var s := h.states[n];
    hide FullMemory, Forgets, EnvStep, LifeStep, WriterStep, RemoteStep;
    match a
    case Env(e) =>
      EnvLeavesWriter(c, s, e);
      EnvKeepsLog(c, s, e);
    case Lifecycle(l) =>
      LifeStartsWriter(c, s, l);
      LifeKeepsLog(c, s, l);
      LifeNotFull(c, s, l);
      ForgettingFull(h, s.writer, LifeStep(c, s, l).writer, s.log);
    case Remote(r) => RemoteKeepsPort(s, r);
    case Write(w) => WriterFullMemory(c, h, n, w);
  }

  lemma LifeNotFull(c: Config, s: State, a: LifeAction)
    ensures var v := LifeStep(c, s, a).writer; v == s.writer || !v.pc.Full?
  {
    hide SenderResumed, BeginResume, BeginOpen, CompleteResume;
  }

  lemma WriterFullMemory(c: Config, h: History, n: nat, a: WriterAction)
    requires n < |h.states| && h.states[n].steps == n && FullMemory(h, h.states[n].writer, h.states[n].log)
    requires h.states[n].writer.stall.Some? ==> h.states[n].writer.stall.value.progress.ack <= h.states[n].port.lastAck
    ensures FullMemory(h, WriterStep(c, h.states[n], a).writer, WriterStep(c, h.states[n], a).log)
  {
    var s := h.states[n];
    hide FullMemory, DoSampleFull, DoSampleIdle, DoObserveFull, DoObserveIdle, DoOfferData;
    if a.OfferData? {
      OfferFullMemory(h, s);
    } else {
      WriterKeepsLog(c, s, a);
      if Judges(a) {
        SampleFullMemory(c, h, n);
        JudgeCases(c, s, a);
      } else {
        OthersNotFull(c, s, a);
        hide WriterStep;
        ForgettingFull(h, s.writer, WriterStep(c, s, a).writer, s.log);
      }
    }
  }

  /** The held progress was acknowledged by then, so it is not past what is acknowledged now. */
  lemma HeldIsPast(c: Config, h: History, n: nat)
    requires IsRun(c, h) && n < |h.states|
    ensures var s := h.states[n]; s.writer.stall.Some? ==> s.writer.stall.value.progress.ack <= s.port.lastAck
  {
    AlwaysRemembers(c, h, n);
    if h.states[n].writer.stall.Some? {
      RunMonotone(c, h, h.states[n].writer.stallAt, n);
    }
  }

  lemma {:induction false} AlwaysFullMemory(c: Config, h: History, n: nat)
    requires IsRun(c, h) && n < |h.states|
    ensures FullMemory(h, h.states[n].writer, h.states[n].log)
  {
    hide Step, FullMemory;
    if n == 0 {
      NothingRemembered(c, h);
    } else {
      AlwaysFullMemory(c, h, n - 1);
      RunSteps(c, h, n - 1);
      HeldIsPast(c, h, n - 1);
      assert Linked(c, h, n - 1);
      StepFullMemory(c, h, n - 1, h.actions[n - 1]);
    }
  }

  lemma NothingRemembered(c: Config, h: History)
    ensures FullMemory(h, Init(c).writer, Init(c).log)
  {
  }

  /** Data was outstanding all the time when none was accepted meanwhile and some is outstanding now. */
  lemma StillOutstanding(c: Config, h: History, n: nat, from: nat)
    requires IsRun(c, h) && NoProgressSince(c, h, n, from) && h.states[from].log == h.states[n].log
    requires h.states[n].port.lastSent > h.states[n].port.lastAck
    ensures forall k :: from <= k <= n ==> h.states[k].port.lastSent > h.states[k].port.lastAck
  {
    hide IsRun, Off;
    SentIsLog(c, h, n);
    forall k | from <= k <= n ensures h.states[k].port.lastSent > h.states[k].port.lastAck {
      SentIsLog(c, h, k);
      ConstantBetween(c, h, n, from, k);
      SameLog(c, h, n, from, k);
    }
  }

  lemma SameLog(c: Config, h: History, n: nat, from: nat, k: nat)
    requires IsRun(c, h) && from <= k <= n < |h.states| && h.states[from].log == h.states[n].log
    ensures h.states[k].log == h.states[n].log
  {
    RunMonotone(c, h, from, k);
    RunMonotone(c, h, k, n);
  }

  lemma SentIsLog(c: Config, h: History, n: nat)
    requires IsRun(c, h) && n < |h.states|
    ensures h.states[n].port.lastSent == Off(h.states[n].log, |h.states[n].log|)
  {
    hide Inv;
    AlwaysInv(c, h, n);
    Counters(c, h.states[n]);
  }

  /** When the held progress is still current, the window was found full at the present acknowledged offset. */
  lemma FullNow(c: Config, h: History, n: nat)
    requires IsRun(c, h) && n < |h.states|
    ensures var s := h.states[n];
            s.writer.pc.StallFailing? && s.writer.stall.Some? && s.writer.stall.value.progress.ack == s.port.lastAck
              && s.writer.windowSeen >= STREAM_BATCH_MAX ==>
              s.port.lastSent > s.port.lastAck
  {
    hide Inv;
    AlwaysFullMemory(c, h, n);
    AlwaysInv(c, h, n);
    Credit(c, h.states[n]);
    WriterConserves(c, h, n);
  }

  /**
   * The window-full detector fails a path only after a whole timeout without a new acknowledgement; if
   * the window it found full was at least one frame, data was outstanding during that whole time.
   */
  lemma StallIsReal(c: Config, h: History, n: nat)
    requires IsRun(c, h) && n < |h.actions| && h.actions[n] == Write(FailStalled)
    ensures var s, t := h.states[n], h.states[n + 1];
            t.port != s.port || t.attempt != s.attempt ==>
              exists from: nat :: NoProgressSince(c, h, n, from) &&
                (s.writer.windowSeen >= STREAM_BATCH_MAX ==>
                   forall k :: from <= k <= n ==> h.states[k].port.lastSent > h.states[k].port.lastAck)
  {
    AlwaysRemembers(c, h, n);
    AlwaysFullMemory(c, h, n);
    assert Linked(c, h, n);
    var s := h.states[n];
    if s.writer.pc.StallFailing? {
      var p := s.writer.pc.progress;
      if Unchanged(s.port, p.session, p.epoch, p.ack, p.window) {
        Unmoved(c, h, n, p, s.writer.stallAt, s.writer.stall.value.since);
        FullNow(c, h, n);
        if s.writer.windowSeen >= STREAM_BATCH_MAX {
          StillOutstanding(c, h, n, s.writer.stallAt);
        }
      }
    }
  }

  /** The idle detector in addition fails a path only if data was outstanding during that whole time. */
  lemma IdleStallIsReal(c: Config, h: History, n: nat)
    requires IsRun(c, h) && n < |h.actions| && h.actions[n] == Write(FailIdle)
    ensures var s, t := h.states[n], h.states[n + 1];
            t.port != s.port || t.attempt != s.attempt ==>
              exists from: nat :: NoProgressSince(c, h, n, from) &&
                forall k :: from <= k <= n ==> h.states[k].port.lastSent > h.states[k].port.lastAck
  {
    AlwaysRemembers(c, h, n);
    assert Linked(c, h, n);
    var s := h.states[n];
    if s.writer.pc.IdleFailing? {
      var p := s.writer.pc.progress;
      if Unchanged(s.port, p.session, p.epoch, p.ack, p.window) {
        var from := s.writer.idleAt;
        Unmoved(c, h, n, p, from, s.writer.idle.value.since);
        forall k | from <= k <= n ensures h.states[k].port.lastSent > h.states[k].port.lastAck {
          ConstantBetween(c, h, n, from, k);
        }
      }
    }
  }
}
