/**
 * The path state of one outbound stream (streamPort in internal/tun/stream.go). Every
 * function below is one section under the port's path mutex.
 */
module StreamPath {
  import opened Common
  import opened StreamLog
  import opened StreamSdk

  datatype Failure = SendFailed | AckStalled | TransportLost

  /**
   * `id` is the stream's ID. `gate` names the current ready channel and `closed` the ready channels closed so far.
   * `lost` and `wake` are one-slot token channels. `armed` is a non-nil resumeReady and
   * `resumed` the token in the channel the recovery loop holds for its attempt.
   */
  datatype Port = Port(
    id: nat, target: Session, gate: nat, nextGate: nat, closed: set<nat>, ready: bool,
    lost: bool, wake: bool, armed: bool, resumed: bool, failure: Option<Failure>,
    epoch: nat, lastAck: nat, lastWindow: nat, lastSent: nat,
    done: bool, restart: bool, sender: Sender)

  function NewPort(id: nat, window: nat): Port {
    Port(id, NO_SESSION, 0, 1, {}, false, false, false, false, false, None, 1, 0, 0, 0, false, false,
         NewSender(1, window))
  }

  /** A fresh, open ready channel becomes the current one. */
  function Shut(p: Port): Port {
    p.(ready := false, gate := p.nextGate, nextGate := p.nextGate + 1)
  }

  /** Closing the current ready channel opens the gate. */
  function OpenGate(p: Port): Port {
    p.(ready := true, closed := p.closed + {p.gate})
  }

  /** The attempt error channel holds one error; a second report is discarded. */
  function Report(p: Port, err: Failure): Port {
    if p.failure.None? then p.(failure := Some(err)) else p
  }

  function BeginOpen(p: Port, session: Session): Port {
    Shut(p).(target := session, armed := false, failure := None)
  }

  predicate OpenAckMatches(p: Port, session: Session, epoch: nat) {
    p.target == session && p.epoch == epoch && !p.ready
  }

  function AcceptOpenAck(p: Port, session: Session, epoch: nat): Port {
    if OpenAckMatches(p, session, epoch) then OpenGate(p) else p
  }

  /** A ready path is lost and must be signalled; otherwise the attempt's error is recorded. */
  function Lose(p: Port, err: Failure): Port {
    if p.ready then Shut(p) else Report(p, err)
  }

  predicate OnPath(p: Port, session: Session, epoch: nat) {
    p.target == session && p.epoch == epoch
  }

  function FailPath(p: Port, session: Session, epoch: nat, err: Failure): Port {
    if OnPath(p, session, epoch) then Lose(p, err) else p
  }

  predicate Unchanged(p: Port, session: Session, epoch: nat, ack: nat, window: nat) {
    OnPath(p, session, epoch) && p.lastAck == ack && p.lastWindow == window
  }

  function FailPathIfAckUnchanged(p: Port, session: Session, epoch: nat, ack: nat, window: nat, err: Failure): Port {
    if Unchanged(p, session, epoch, ack, window) then Lose(p, err) else p
  }

  function MarkPathLost(p: Port, err: Option<Failure>): Port {
    if p.ready then Shut(p) else if err.Some? then Report(p, err.value) else p
  }

  function Aimed(p: Port, session: Session, epoch: nat): Port {
    p.(target := session, epoch := epoch)
  }

  /** Fresh channels for the attempt's release and its failure. */
  function Armed(p: Port): Port {
    p.(armed := true, resumed := false, failure := None)
  }

  function BeginResume(p: Port, session: Session, epoch: nat): Port {
    var q := Aimed(p, session, epoch);
    Armed(if p.ready then Shut(q) else q)
  }

  /** The sender takes a matching acknowledgement; the first one of an attempt releases the replay. */
  predicate AckTaken(p: Port, session: Session, epoch: nat, offset: nat, window: nat) {
    OnPath(p, session, epoch) && SenderAcknowledge(p.sender, epoch, offset, window).Some?
  }

  function Counted(p: Port, offset: nat, window: nat): Port {
    p.(lastAck := Max(p.lastAck, offset), lastWindow := if window > 0 then window else p.lastWindow)
  }

  /** The writer is woken, and the first ACK of an attempt releases it. */
  function Released(p: Port): Port {
    p.(wake := true, resumed := p.resumed || p.armed, armed := false)
  }

  function Credited(p: Port, offset: nat, window: nat): Port {
    Released(Counted(p, offset, window))
  }

  function Acknowledge(p: Port, session: Session, epoch: nat, offset: nat, window: nat): Port {
    if !AckTaken(p, session, epoch, offset, window) then p
    else Credited(p.(sender := SenderAcknowledge(p.sender, epoch, offset, window).value), offset, window)
  }

  predicate ResumeCompletes(p: Port, session: Session, epoch: nat) {
    OnPath(p, session, epoch) && !p.ready && !p.armed && p.failure.None?
  }

  /** Opens the gate, unless the attempt recorded a failure, which is consumed. */
  function CompleteResume(p: Port, session: Session, epoch: nat): Port {
    if ResumeCompletes(p, session, epoch) then OpenGate(p)
    else if OnPath(p, session, epoch) && !p.ready && !p.armed then p.(failure := None)
    else p
  }

  predicate RestartTaken(p: Port, session: Session) {
    p.target != session && !p.restart
  }

  function RequestRestart(p: Port, session: Session): Port {
    if RestartTaken(p, session) then p.(restart := true) else p
  }

  datatype DataResult = NotReady | WindowFull | Sent(session: Session, frame: Frame)

  function DataForReadyPath(p: Port, payload: Bytes): (Port, DataResult) {
    if !p.ready then (p, NotReady)
    else
      match SenderData(p.sender, payload)
      case None => (p, WindowFull)
      case Some((sender, frame)) =>
        (p.(sender := sender, lastSent := frame.offset + |frame.payload|), DataResult.Sent(p.target, frame))
  }

  function SenderResumed(p: Port, epoch: nat, offset: nat): Option<(Port, seq<Frame>)> {
    match SenderResume(p.sender, epoch, offset)
    case None => None
    case Some((sender, frames)) => Some((p.(sender := sender), frames))
  }

  /** What outstandingAckProgress reports besides the sampled progress. */
  predicate Outstanding(p: Port) {
    p.ready && p.lastSent > p.lastAck
  }

  // ---------------------------------------------------------------- invariant

  /** The gate is open exactly while the path is ready, and fresh channels are never closed yet. */
  ghost predicate GateOk(ready: bool, gate: nat, nextGate: nat, closed: set<nat>) {
    && (ready <==> gate in closed)
    && gate < nextGate
    && (forall c :: c in closed ==> c < nextGate)
  }

  /** The port's own counters agree with the sender's. */
  ghost predicate CountersOk(lastAck: nat, lastSent: nat, sender: Sender) {
    lastAck == sender.base && lastSent == sender.end && lastAck <= lastSent
  }

  ghost predicate PortOk(p: Port) {
    GateOk(p.ready, p.gate, p.nextGate, p.closed) && CountersOk(p.lastAck, p.lastSent, p.sender)
  }

  lemma ShutKeeps(p: Port)
    requires PortOk(p)
    ensures PortOk(Shut(p))
  {
  }

  lemma OpenKeeps(p: Port)
    requires PortOk(p)
    ensures PortOk(OpenGate(p))
  {
  }

  lemma AttemptsKeep(p: Port, session: Session, epoch: nat)
    requires PortOk(p)
    ensures PortOk(BeginOpen(p, session)) && PortOk(AcceptOpenAck(p, session, epoch))
    ensures PortOk(BeginResume(p, session, epoch)) && PortOk(CompleteResume(p, session, epoch))
  {
    hide GateOk;
    hide CountersOk;
    ShutKeeps(p);
    OpenKeeps(p);
  }

  lemma LoseKeeps(p: Port, err: Failure)
    requires PortOk(p)
    ensures PortOk(Lose(p, err))
  {
    hide GateOk, CountersOk;
    ShutKeeps(p);
  }

  lemma LossesKeep(p: Port, session: Session, epoch: nat, ack: nat, window: nat, err: Failure)
    requires PortOk(p)
    ensures PortOk(FailPath(p, session, epoch, err)) && PortOk(MarkPathLost(p, None))
    ensures PortOk(MarkPathLost(p, Some(err)))
    ensures PortOk(FailPathIfAckUnchanged(p, session, epoch, ack, window, err))
  {
    hide PortOk, Lose;
    LoseKeeps(p, err);
    DownIsLoss(p, None);
    DownIsLoss(p, Some(err));
    LoseKeeps(p, TransportLost);
  }

  lemma AcknowledgeKeeps(p: Port, session: Session, epoch: nat, offset: nat, window: nat)
    requires PortOk(p)
    ensures PortOk(Acknowledge(p, session, epoch, offset, window))
  {
    hide GateOk;
    hide DropAcked;
  }

  lemma DataKeepsPort(p: Port, payload: Bytes)
    requires PortOk(p)
    ensures PortOk(DataForReadyPath(p, payload).0)
  {
    hide GateOk;
  }

  lemma ResumedKeepsPort(p: Port, epoch: nat, offset: nat)
    requires PortOk(p)
    ensures SenderResumed(p, epoch, offset).Some? ==> PortOk(SenderResumed(p, epoch, offset).value.0)
  {
    hide GateOk;
    hide DropAcked;
  }

  /** Closing the gate happens only on an open channel, so no ready channel is closed twice. */
  lemma GateClosedOnce(p: Port, session: Session, epoch: nat)
    requires PortOk(p)
    ensures OpenAckMatches(p, session, epoch) ==> p.gate !in p.closed
    ensures ResumeCompletes(p, session, epoch) ==> p.gate !in p.closed
  {
  }

  // ------------------------------------------------- what a section achieves

  /** A ready path was lost: nobody gets through until the new, open channel is closed. */
  ghost predicate Lost(p: Port, q: Port) {
    !q.ready && q.gate != p.gate && q.gate !in q.closed && q.closed == p.closed
  }

  /** A running attempt has its error: this one, unless there was one before. */
  ghost predicate Noted(p: Port, q: Port, err: Failure) {
    && q.failure.Some? && (p.failure.None? ==> q.failure == Some(err))
    && q.ready == p.ready && q.gate == p.gate && q.closed == p.closed
  }

  lemma OpenBegins(p: Port, session: Session)
    requires PortOk(p)
    ensures var q := BeginOpen(p, session);
            && q.target == session && q.epoch == p.epoch && !q.armed && q.failure.None?
            && Lost(p, q)
  {
  }

  lemma OpenAckAccepted(p: Port, session: Session, epoch: nat)
    requires PortOk(p)
    ensures var q := AcceptOpenAck(p, session, epoch);
            if p.target == session && p.epoch == epoch && !p.ready
            then q == p.(ready := true, closed := p.closed + {p.gate})
            else q == p
  {
  }

  lemma LossLoses(p: Port, err: Failure)
    requires PortOk(p)
    ensures (p.ready ==> Lost(p, Lose(p, err))) && (!p.ready ==> Noted(p, Lose(p, err), err))
  {
    hide CountersOk;
  }

  /** A failure reported on the current session and epoch is never without effect; any other is. */
  lemma FailureFails(p: Port, session: Session, epoch: nat, err: Failure)
    requires PortOk(p)
    ensures var q := FailPath(p, session, epoch, err);
            if p.target == session && p.epoch == epoch
            then (p.ready ==> Lost(p, q)) && (!p.ready ==> Noted(p, q, err))
            else q == p
  {
    hide Lost, Noted, Lose, PortOk;
    LossLoses(p, err);
  }

  lemma StallFails(p: Port, session: Session, epoch: nat, ack: nat, window: nat, err: Failure)
    requires PortOk(p)
    ensures var q := FailPathIfAckUnchanged(p, session, epoch, ack, window, err);
            if p.target == session && p.epoch == epoch && p.lastAck == ack && p.lastWindow == window
            then (p.ready ==> Lost(p, q)) && (!p.ready ==> Noted(p, q, err))
            else q == p
  {
    hide Lost, Noted, Lose, PortOk;
    LossLoses(p, err);
  }

  lemma DownIsLoss(p: Port, err: Option<Failure>)
    ensures MarkPathLost(p, err) ==
      if p.ready || err.Some? then Lose(p, if err.Some? then err.value else TransportLost) else p
  {
  }

  lemma DownFails(p: Port, err: Option<Failure>)
    requires PortOk(p)
    ensures var q := MarkPathLost(p, err);
            && (p.ready ==> Lost(p, q))
            && (!p.ready && err.Some? ==> Noted(p, q, err.value))
            && (!p.ready && err.None? ==> q == p)
  {
    hide Lost, Noted, Shut, Report, PortOk;
    LossLoses(p, if err.Some? then err.value else TransportLost);
  }

  lemma ResumeBegins(p: Port, session: Session, epoch: nat)
    requires PortOk(p)
    ensures var q := BeginResume(p, session, epoch);
            && q.target == session && q.epoch == epoch && q.armed && !q.resumed && q.failure.None?
            && q.lastAck == p.lastAck && !q.ready && q.gate !in q.closed && q.closed == p.closed
  {
  }

  /** A matching ACK for what was sent is credited, wakes the writer and releases the attempt once. */
  lemma AckCredits(p: Port, session: Session, epoch: nat, offset: nat, window: nat)
    requires PortOk(p)
    ensures var q := Acknowledge(p, session, epoch, offset, window);
            if p.target == session && p.epoch == epoch == p.sender.epoch && offset <= p.lastSent then
              && q.lastAck == (if offset > p.lastAck then offset else p.lastAck) && q.lastSent == p.lastSent
              && q.lastWindow == (if window > 0 then window else p.lastWindow)
              && q.sender.window == (if window > 0 then window else p.sender.window)
              && q.wake && !q.armed && (q.resumed <==> p.resumed || p.armed)
              && q == p.(sender := q.sender, lastAck := q.lastAck, lastWindow := q.lastWindow, wake := true,
                         resumed := q.resumed, armed := false)
            else q == p
  {
    hide DropAcked, GateOk;
  }

  /** The attempt succeeds when it is current, released and unfailed; a failure is consumed instead. */
  lemma ResumeEnds(p: Port, session: Session, epoch: nat)
    requires PortOk(p)
    ensures var q := CompleteResume(p, session, epoch);
            if p.target == session && p.epoch == epoch && !p.ready && !p.armed then
              && q.failure.None? && q.gate == p.gate
              && (p.failure.None? ==> q.ready && q.closed == p.closed + {p.gate})
              && (p.failure.Some? ==> !q.ready && q.closed == p.closed)
              && q == p.(failure := None, ready := q.ready, closed := q.closed)
            else q == p
  {
  }

  lemma RestartAsks(p: Port, session: Session)
    ensures var q := RequestRestart(p, session);
            if p.target != session && !p.restart then q == p.(restart := true) else q == p
  {
  }

  /** Only a ready path takes a payload, and only one that fits; its frame starts where the last one ended. */
  lemma DataGoes(p: Port, payload: Bytes)
    requires PortOk(p)
    ensures var (q, result) := DataForReadyPath(p, payload);
            if !p.ready then result == NotReady && q == p
            else if p.lastSent + |payload| > p.lastAck + p.sender.window then result == WindowFull && q == p
            else
              && result == DataResult.Sent(p.target, Data(p.sender.epoch, p.lastSent, payload))
              && q == p.(sender := q.sender, lastSent := p.lastSent + |payload|)
  {
    hide GateOk;
  }

  // ------------------------------------------------------------- the object

  class StreamPort {
    var targetSession: Session
    var ready: nat
    var nextGate: nat
    var closedGates: set<nat>
    var readyState: bool
    var lost: bool
    var wake: bool
    var resumeReady: bool
    var resumeToken: bool
    var attemptErr: Option<Failure>
    var epoch: nat
    var lastAck: nat
    var lastWindow: nat
    var lastSent: nat
    var done: bool
    var restart: bool
    const id: nat
    const sender: StreamSenderState

    function Abs(): Port
      reads this, sender
    {
      Port(id, targetSession, ready, nextGate, closedGates, readyState, lost, wake, resumeReady, resumeToken,
           attemptErr, epoch, lastAck, lastWindow, lastSent, done, restart, sender.Abs())
    }

    /** The gate is closed exactly while the path is not ready, and the counters are the sender's. */
    ghost predicate Valid()
      reads this, sender
    {
      PortOk(Abs())
    }

    constructor (id: nat, window: nat)
      ensures Valid()
      ensures Abs() == NewPort(id, window) && fresh(sender)
    {
      this.id := id;
      targetSession, ready, nextGate, closedGates, readyState := NO_SESSION, 0, 1, {}, false;
      lost, wake, resumeReady, resumeToken, attemptErr := false, false, false, false, None;
      epoch, lastAck, lastWindow, lastSent, done, restart := 1, 0, 0, 0, false, false;
      sender := new StreamSenderState(1, window);
    }

    /** The next ready channel is open, and the current one is open exactly while the path is not ready. */
    lemma FreshGate()
      requires Valid()
      ensures nextGate !in closedGates && nextGate != ready && (readyState <==> ready in closedGates)
    {
    }

    /** make(chan struct{}) for the ready channel. */
    method NewGate()
      modifies this`readyState, this`ready, this`nextGate
      ensures Abs() == Shut(old(Abs()))
      ensures !readyState && ready == old(nextGate)
    {
      readyState := false;
      ready := nextGate;
      nextGate := nextGate + 1;
    }

    /** close(p.ready); closing a closed channel would panic. */
    method CloseGate()
      requires ready !in closedGates
      modifies this`readyState, this`closedGates
      ensures Abs() == OpenGate(old(Abs()))
      ensures readyState && closedGates == old(closedGates) + {ready}
    {
      readyState := true;
      closedGates := closedGates + {ready};
    }

    method ReportError(err: Failure)
      modifies this`attemptErr
      ensures Abs() == Report(old(Abs()), err)
      ensures attemptErr.Some? && (old(attemptErr).None? ==> attemptErr == Some(err))
    {
      if attemptErr.None? {
        attemptErr := Some(err);
      }
    }

    method SignalPathLost()
      modifies this`lost, this`wake
      ensures Abs() == old(Abs()).(lost := true, wake := true)
      ensures lost && wake
    {
      lost := true;
      wake := true;
    }

    method DoBeginOpen(session: Session) returns (gate: nat)
      requires Valid()
      modifies this
      ensures Valid()
      ensures Abs() == BeginOpen(old(Abs()), session) && gate == ready
      ensures targetSession == session && !readyState && ready !in closedGates
      ensures !resumeReady && attemptErr.None? && epoch == old(epoch)
    {
      hide PortOk, BeginResume, AcceptOpenAck, CompleteResume;
      AttemptsKeep(Abs(), session, epoch);
      FreshGate();
      targetSession := session;
      NewGate();
      resumeReady, attemptErr := false, None;
      gate := ready;
    }

    method DoAcceptOpenAck(session: Session, ackEpoch: nat) returns (ok: bool)
      requires Valid()
      modifies this
      ensures Valid()
      ensures Abs() == AcceptOpenAck(old(Abs()), session, ackEpoch)
      ensures ok <==> old(targetSession) == session && old(epoch) == ackEpoch && !old(readyState)
      ensures ok ==> readyState && closedGates == old(closedGates) + {ready} && ready == old(ready)
      ensures !ok ==> readyState == old(readyState) && closedGates == old(closedGates) && ready == old(ready)
    {
      GateClosedOnce(Abs(), session, ackEpoch);
      hide GateOk, CountersOk, BeginOpen, BeginResume, CompleteResume;
      AttemptsKeep(Abs(), session, ackEpoch);
      if targetSession != session || epoch != ackEpoch || readyState {
        return false;
      }
      CloseGate();
      return true;
    }

    /** The path is lost and signalled when it was ready; otherwise the running attempt gets the error. */
    method LosePath(err: Failure)
      requires Valid()
      modifies this
      ensures Valid()
      ensures var next := Lose(old(Abs()), err);
              Abs() == if old(readyState) then next.(lost := true, wake := true) else next
      ensures old(readyState) ==> !readyState && ready != old(ready) && ready !in closedGates && lost && wake
      ensures !old(readyState) ==>
        && attemptErr.Some? && (old(attemptErr).None? ==> attemptErr == Some(err))
        && !readyState && ready == old(ready) && lost == old(lost) && wake == old(wake)
    {
      hide GateOk, CountersOk;
      FreshGate();
      LoseKeeps(Abs(), err);
      if readyState {
        NewGate();
        SignalPathLost();
      } else {
        ReportError(err);
      }
    }

    /** The signal follows only a loss of a ready path. */
    method DoFailPath(session: Session, failedEpoch: nat, err: Failure) returns (matched: bool)
      requires Valid()
      modifies this
      ensures Valid()
      ensures matched <==> old(targetSession) == session && old(epoch) == failedEpoch
      ensures var next := FailPath(old(Abs()), session, failedEpoch, err);
              Abs() == if old(readyState) && matched then next.(lost := true, wake := true) else next
      ensures matched && old(readyState) ==> !readyState && ready != old(ready) && ready !in closedGates && lost && wake
      ensures matched && !old(readyState) ==>
        && attemptErr.Some? && (old(attemptErr).None? ==> attemptErr == Some(err))
        && !readyState && ready == old(ready) && lost == old(lost) && wake == old(wake)
      ensures !matched ==> Abs() == old(Abs())
    {
      hide PortOk, Lose;
      if targetSession != session || epoch != failedEpoch {
        return false;
      }
      LosePath(err);
      return true;
    }

    method DoFailPathIfAckUnchanged(session: Session, failedEpoch: nat, ack: nat, window: nat, err: Failure)
      returns (matched: bool)
      requires Valid()
      modifies this
      ensures Valid()
      ensures matched <==>
        old(targetSession) == session && old(epoch) == failedEpoch && old(lastAck) == ack && old(lastWindow) == window
      ensures var next := FailPathIfAckUnchanged(old(Abs()), session, failedEpoch, ack, window, err);
              Abs() == if old(readyState) && matched then next.(lost := true, wake := true) else next
      ensures matched && old(readyState) ==> !readyState && ready != old(ready) && ready !in closedGates && lost && wake
      ensures matched && !old(readyState) ==>
        && attemptErr.Some? && (old(attemptErr).None? ==> attemptErr == Some(err))
        && !readyState && ready == old(ready) && lost == old(lost) && wake == old(wake)
      ensures !matched ==> Abs() == old(Abs())
    {
      hide PortOk, Lose;
      if targetSession != session || epoch != failedEpoch || lastAck != ack || lastWindow != window {
        return false;
      }
      LosePath(err);
      return true;
    }

    method DoMarkPathLost(err: Option<Failure>)
      requires Valid()
      modifies this
      ensures Valid()
      ensures var next := MarkPathLost(old(Abs()), err);
              Abs() == if old(readyState) then next.(lost := true, wake := true) else next
      ensures old(readyState) ==> !readyState && ready != old(ready) && ready !in closedGates && lost && wake
      ensures !old(readyState) && err.Some? ==>
        && attemptErr.Some? && (old(attemptErr).None? ==> attemptErr == err)
        && !readyState && ready == old(ready) && lost == old(lost) && wake == old(wake)
      ensures !old(readyState) && err.None? ==> Abs() == old(Abs())
    {
      var cause := if err.Some? then err.value else TransportLost;
      DownIsLoss(Abs(), err);
      hide PortOk, Lose, MarkPathLost;
      if !readyState && err.None? {
        return;
      }
      LosePath(cause);
    }

    method DoBeginResume(session: Session, newEpoch: nat) returns (from: nat)
      requires Valid()
      modifies this
      ensures Valid()
      ensures Abs() == BeginResume(old(Abs()), session, newEpoch)
      ensures from == old(lastAck)
      ensures targetSession == session && epoch == newEpoch && !readyState && ready !in closedGates
      ensures resumeReady && !resumeToken && attemptErr.None? && lastAck == old(lastAck)
    {
      hide PortOk, BeginOpen, AcceptOpenAck, CompleteResume, Aimed, Armed, Shut;
      AttemptsKeep(Abs(), session, newEpoch);
      FreshGate();
      from := lastAck;
      var shut := readyState;
      Aim(session, newEpoch);
      if shut {
        NewGate();
      }
      ArmAttempt();
    }

    method Aim(session: Session, newEpoch: nat)
      modifies this`targetSession, this`epoch
      ensures Abs() == Aimed(old(Abs()), session, newEpoch)
      ensures targetSession == session && epoch == newEpoch
    {
      targetSession, epoch := session, newEpoch;
    }

    method ArmAttempt()
      modifies this`resumeReady, this`resumeToken, this`attemptErr
      ensures Abs() == Armed(old(Abs()))
      ensures resumeReady && !resumeToken && attemptErr.None?
    {
      resumeReady, resumeToken, attemptErr := true, false, None;
    }

    method Count(offset: nat, window: nat)
      modifies this`lastAck, this`lastWindow
      ensures Abs() == Counted(old(Abs()), offset, window)
    {
      lastAck := Max(lastAck, offset);
      if window > 0 {
        lastWindow := window;
      }
    }

    method Release()
      modifies this`wake, this`resumeToken, this`resumeReady
      ensures Abs() == Released(old(Abs()))
    {
      wake, resumeToken, resumeReady := true, resumeToken || resumeReady, false;
    }

    method TakeAck(ackEpoch: nat, offset: nat, window: nat) returns (ok: bool)
      modifies sender
      ensures match SenderAcknowledge(old(Abs()).sender, ackEpoch, offset, window)
              case None => !ok && Abs() == old(Abs())
              case Some(next) => ok && Abs() == old(Abs()).(sender := next)
    {
      hide SenderAcknowledge;
      ok := sender.Acknowledge(ackEpoch, offset, window);
    }

    method DoAcknowledge(session: Session, ackEpoch: nat, offset: nat, window: nat)
      requires Valid()
      modifies this, sender
      ensures Valid()
      ensures Abs() == Acknowledge(old(Abs()), session, ackEpoch, offset, window)
      ensures var taken := old(targetSession) == session && old(epoch) == ackEpoch == old(sender.epoch)
                && offset <= old(lastSent);
              && lastAck == (if taken && offset > old(lastAck) then offset else old(lastAck))
              && lastWindow == (if taken && window > 0 then window else old(lastWindow))
              && (wake <==> old(wake) || taken)
              && (resumeReady <==> old(resumeReady) && !taken)
              && (resumeToken <==> old(resumeToken) || (taken && old(resumeReady)))
    {
      hide PortOk, SenderAcknowledge, Counted, Released;
      AcknowledgeKeeps(Abs(), session, ackEpoch, offset, window);
      AckCredits(Abs(), session, ackEpoch, offset, window);
      if session != targetSession || ackEpoch != epoch {
        return;
      }
      var ok := TakeAck(ackEpoch, offset, window);
      if !ok {
        return;
      }
      Count(offset, window);
      Release();
    }

    method DoCompleteResume(session: Session, resumeEpoch: nat) returns (ok: bool)
      requires Valid()
      modifies this
      ensures Valid()
      ensures Abs() == CompleteResume(old(Abs()), session, resumeEpoch)
      ensures var mine := old(targetSession) == session && old(epoch) == resumeEpoch
                && !old(readyState) && !old(resumeReady);
              && (ok <==> mine && old(attemptErr).None?)
              && (ok ==> readyState && closedGates == old(closedGates) + {ready})
              && (!ok ==> readyState == old(readyState) && closedGates == old(closedGates))
              && attemptErr == if mine then None else old(attemptErr)
    {
      GateClosedOnce(Abs(), session, resumeEpoch);
      hide GateOk, CountersOk, BeginOpen, BeginResume, AcceptOpenAck;
      AttemptsKeep(Abs(), session, resumeEpoch);
      if targetSession != session || epoch != resumeEpoch || readyState || resumeReady {
        return false;
      }
      if attemptErr.Some? {
        attemptErr := None;
        return false;
      }
      CloseGate();
      return true;
    }

    /** A restart also closes the port. */
    method DoRequestRestart(session: Session) returns (requested: bool)
      requires Valid()
      modifies this
      ensures Valid()
      ensures requested <==> old(targetSession) != session && !old(restart)
      ensures requested ==> restart && done
      ensures var next := RequestRestart(old(Abs()), session);
              Abs() == if requested then next.(done := true) else next
    {
      hide GateOk, CountersOk;
      if targetSession == session || restart {
        return false;
      }
      restart := true;
      done := true;
      return true;
    }

    method TakeData(payload: Bytes) returns (frame: Option<Frame>)
      modifies sender
      ensures match SenderData(old(Abs()).sender, payload)
              case None => frame == None && Abs() == old(Abs())
              case Some(out) => frame == Some(out.1) && out.1.Data? && Abs() == old(Abs()).(sender := out.0)
    {
      frame := sender.Data(payload);
    }

    method DoDataForReadyPath(payload: Bytes) returns (result: DataResult)
      requires Valid()
      modifies this, sender
      ensures Valid()
      ensures (Abs(), result) == DataForReadyPath(old(Abs()), payload)
      ensures result.NotReady? <==> !old(readyState)
      ensures result.WindowFull? <==>
        old(readyState) && old(lastSent) + |payload| > old(lastAck) + old(sender.window)
      ensures result.Sent? ==>
        && result == DataResult.Sent(targetSession, Data(old(sender.epoch), old(lastSent), payload))
        && lastSent == old(lastSent) + |payload|
      ensures !result.Sent? ==> lastSent == old(lastSent)
      ensures targetSession == old(targetSession) && readyState == old(readyState) && lastAck == old(lastAck)
    {
      hide PortOk, SenderData;
      DataKeepsPort(Abs(), payload);
      DataGoes(Abs(), payload);
      if !readyState {
        return NotReady;
      }
      var frame := TakeData(payload);
      if frame.None? {
        return WindowFull;
      }
      lastSent := frame.value.offset + |frame.value.payload|;
      return DataResult.Sent(targetSession, frame.value);
    }

    /** The sender moves to the new epoch and hands back what it retains from the offset on. */
    method DoResumeSender(newEpoch: nat, from: nat) returns (frames: Option<seq<Frame>>)
      requires Valid()
      modifies sender
      ensures Valid()
      ensures match SenderResumed(old(Abs()), newEpoch, from)
              case None => frames == None && Abs() == old(Abs())
              case Some(out) => frames == Some(out.1) && Abs() == out.0
    {
      hide GateOk, CountersOk, DropAcked;
      ResumedKeepsPort(Abs(), newEpoch, from);
      frames := sender.Resume(newEpoch, from);
    }
  }
}
