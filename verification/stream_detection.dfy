/** Stalls are detected exactly: both detectors of the writer, over every run, against the samples they were shown. */
module StreamDetection {
  import opened Common
  import opened StreamCodec
  import opened StreamLog
  import opened StreamPath
  import opened StallDetector
  import opened StreamSystem
  import opened StreamEffects
  import opened StreamTheorems
  import StreamStall

  // ------------------------------------------------------------ the samples

  /** The path as a detector samples it. */
  predicate Samples(p: Port, progress: Progress) {
    progress == Progress(p.target, p.epoch, p.lastAck, p.lastWindow)
  }

  /** A full window is sampled on the path whose offer failed; if the path has moved on, the detector starts afresh. */
  lemma FullIsSampled(c: Config, h: History, n: nat)
    requires IsRun(c, h) && n < |h.actions| && h.actions[n] == Write(SampleFull) && h.states[n].writer.pc.Full?
    ensures var s, t := h.states[n], h.states[n + 1];
            && t == s.(writer := t.writer, steps := s.steps + 1)
            && if s.port.ready && s.port.target == s.writer.pc.session
               then t.writer.pc.FullSampled? && Samples(s.port, t.writer.pc.progress)
                 && t.writer.stall == s.writer.stall
               else t.writer == s.writer.(pc := AtPath, stall := None)
  {
    hide EnvStep, LifeStep, RemoteStep;
    assert Linked(c, h, n);
  }

  /** Between batches the path is sampled with whether data is outstanding on it. */
  lemma IdleIsSampled(c: Config, h: History, n: nat)
    requires IsRun(c, h) && n < |h.actions| && h.actions[n] == Write(SampleIdle)
    requires h.states[n].writer.pc == Top && h.states[n].writer.overflow.None?
    ensures var s, t := h.states[n], h.states[n + 1];
            && t == s.(writer := t.writer, steps := s.steps + 1)
            && t.writer.pc.IdleSampled? && Samples(s.port, t.writer.pc.progress)
            && (t.writer.pc.outstanding <==> s.port.ready && s.port.lastSent > s.port.lastAck)
            && t.writer.idle == s.writer.idle
  {
    hide EnvStep, LifeStep, RemoteStep;
    assert Linked(c, h, n);
  }

  /** The window-full detector starts afresh: a payload was accepted, the path moved on, or it had fired. */
  predicate FullResets(s: State, a: Action, t: State) {
    || t.log != s.log
    || (a == Write(SampleFull) && s.writer.pc.Full? && (!s.port.ready || s.port.target != s.writer.pc.session))
    || (a == Write(FailStalled) && s.writer.pc.StallFailing?)
  }

  /** What the window-full detector was shown since it last started afresh, told from the run. */
  function FullSamples(h: History, n: nat): seq<Sample>
    requires n < |h.states| && |h.states| == |h.actions| + 1
  {
    if n == 0 then []
    else
      var s, a := h.states[n - 1], h.actions[n - 1];
      if FullResets(s, a, h.states[n]) then []
      else if a == Write(ObserveFull) && s.writer.pc.FullSampled?
      then FullSamples(h, n - 1) + [Sample(s.writer.pc.progress, s.now)]
      else FullSamples(h, n - 1)
  }

  /** The step makes the idle detector start afresh: nothing was outstanding, or it had fired. */
  predicate IdleResets(s: State, a: Action) {
    || (a == Write(ObserveIdle) && s.writer.pc.IdleSampled? && !s.writer.pc.outstanding)
    || (a == Write(FailIdle) && s.writer.pc.IdleFailing?)
  }

  function IdleSamples(h: History, n: nat): seq<Sample>
    requires n < |h.states| && |h.states| == |h.actions| + 1
  {
    if n == 0 then []
    else
      var s, a := h.states[n - 1], h.actions[n - 1];
      if IdleResets(s, a) then []
      else if a == Write(ObserveIdle) && s.writer.pc.IdleSampled?
      then IdleSamples(h, n - 1) + [Sample(s.writer.pc.progress, s.now)]
      else IdleSamples(h, n - 1)
  }

  lemma AfterSnoc(samples: seq<Sample>, next: Sample)
    ensures After(samples + [next]) == Observe(After(samples), next.progress, next.at)
  {
    assert (samples + [next])[..|samples|] == samples;
  }

  // ------------------------------------------- the writer holds just those

  /** How a step changes what the detectors hold. */
  ghost predicate HoldsOn(c: Config, s: State, a: Action, t: State) {
    && t.writer.stall ==
         (if FullResets(s, a, t) then None
          else if a == Write(ObserveFull) && s.writer.pc.FullSampled?
          then Observe(s.writer.stall, s.writer.pc.progress, s.now) else s.writer.stall)
    && t.writer.idle ==
         (if IdleResets(s, a) then None
          else if a == Write(ObserveIdle) && s.writer.pc.IdleSampled?
          then Observe(s.writer.idle, s.writer.pc.progress, s.now) else s.writer.idle)
  }

  lemma LifeHolds(c: Config, s: State, a: LifeAction)
    ensures LifeStep(c, s, a).writer.stall == s.writer.stall && LifeStep(c, s, a).writer.idle == s.writer.idle
  {
    hide SenderResumed, BeginOpen, BeginResume, CompleteResume;
  }

  lemma TakesHold(s: State)
    ensures var v := DoTakeOverflow(s).writer; v.stall == s.writer.stall && v.idle == s.writer.idle
    ensures var v := DoTakeFirst(s).writer; v.stall == s.writer.stall && v.idle == s.writer.idle
    ensures var v := DoDrainOne(s).writer; v.stall == s.writer.stall && v.idle == s.writer.idle
    ensures var v := DoDrainDone(s).writer; v.stall == s.writer.stall && v.idle == s.writer.idle
  {
    hide AppendPacket, IsStreamBatch;
  }

  lemma OfferHolds(s: State)
    ensures var t := DoOfferData(s);
            t.writer.idle == s.writer.idle && t.writer.stall == if t.log != s.log then None else s.writer.stall
  {
    hide DataForReadyPath;
  }

  lemma WriterHolds(c: Config, s: State, a: WriterAction)
    ensures HoldsOn(c, s, Write(a), WriterStep(c, s, a))
  {
    hide DoTakeOverflow, DoTakeFirst, DoDrainOne, DoDrainDone, DoOfferData, Fires, Observe, Restarts, FailPath,
         FailPathIfAckUnchanged;
    TakesHold(s);
    OfferHolds(s);
    if a != OfferData {
      WriterKeepsLog(c, s, a);
    }
  }

  lemma HeldStep(c: Config, h: History, n: nat)
    requires IsRun(c, h) && n < |h.actions|
    ensures HoldsOn(c, h.states[n], h.actions[n], h.states[n + 1])
  {
    hide EnvStep, LifeStep, WriterStep, RemoteStep, Observe;
    assert Linked(c, h, n);
    var s := h.states[n];
    match h.actions[n]
    case Env(e) =>
      StreamStall.EnvLeavesWriter(c, s, e);
      EnvKeepsLog(c, s, e);
    case Lifecycle(l) =>
      LifeHolds(c, s, l);
      LifeKeepsLog(c, s, l);
    case Write(w) => WriterHolds(c, s, w);
    case Remote(r) => RemoteKeepsPort(s, r);
  }

  lemma {:induction false} DetectorsHold(c: Config, h: History, n: nat)
    requires IsRun(c, h) && n < |h.states|
    ensures h.states[n].writer.stall == After(FullSamples(h, n))
    ensures h.states[n].writer.idle == After(IdleSamples(h, n))
  {
    hide Step, FullResets, IdleResets, Observe;
    if n > 0 {
      DetectorsHold(c, h, n - 1);
      HeldStep(c, h, n - 1);
      var s := h.states[n - 1];
      if s.writer.pc.FullSampled? {
        AfterSnoc(FullSamples(h, n - 1), Sample(s.writer.pc.progress, s.now));
      }
      if s.writer.pc.IdleSampled? {
        AfterSnoc(IdleSamples(h, n - 1), Sample(s.writer.pc.progress, s.now));
      }
    }
  }

  /** One more sample ends a run of identical ones that spans the timeout. */
  ghost predicate Spans(samples: seq<Sample>, next: Sample, timeout: nat) {
    exists start: nat ::
      start < |samples| && TrailingRun(samples + [next], start) && next.at - samples[start].at >= timeout
  }

  // ----------------------------------------------------------- main results

  /**
   * The window-full detector fires exactly when the samples since a payload was last accepted, or the path moved, end
   * in a run of identical ones that spans the timeout; otherwise the writer waits for credit.
   */
  lemma StallIsDetected(c: Config, h: History, n: nat)
    requires IsRun(c, h) && n < |h.actions| && h.actions[n] == Write(ObserveFull) && h.states[n].writer.pc.FullSampled?
    ensures var s, t := h.states[n], h.states[n + 1];
            var next := Sample(s.writer.pc.progress, s.now);
            && t.port == s.port
            && t.writer.pc ==
                 if Spans(FullSamples(h, n), next, c.timeout) then StallFailing(next.progress) else WaitWake
  {
    hide EnvStep, LifeStep, RemoteStep, Observe, Fires, Restarts, After, TrailingRun, FullSamples;
    assert Linked(c, h, n);
    DetectorsHold(c, h, n);
    var s := h.states[n];
    FiresExactly(FullSamples(h, n), Sample(s.writer.pc.progress, s.now), c.timeout);
  }

  /** And so does the idle detector for the samples with data outstanding. */
  lemma IdleStallIsDetected(c: Config, h: History, n: nat)
    requires IsRun(c, h) && n < |h.actions| && h.actions[n] == Write(ObserveIdle) && h.states[n].writer.pc.IdleSampled?
    ensures var s, t := h.states[n], h.states[n + 1];
            var next := Sample(s.writer.pc.progress, s.now);
            && t.port == s.port
            && t.writer.pc ==
                 if s.writer.pc.outstanding && Spans(IdleSamples(h, n), next, c.timeout)
                 then IdleFailing(next.progress) else Top
  {
    hide EnvStep, LifeStep, RemoteStep, Observe, Fires, Restarts, After, TrailingRun, IdleSamples;
    assert Linked(c, h, n);
    DetectorsHold(c, h, n);
    var s := h.states[n];
    FiresExactly(IdleSamples(h, n), Sample(s.writer.pc.progress, s.now), c.timeout);
  }
}
