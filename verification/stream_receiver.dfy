/**
 * One stream receiver with its coalescing ACK writer (streamReceiver in
 * internal/tun/stream.go). The shared SDK reader and the ACK goroutine interleave;
 * each function below is one critical section or one channel operation.
 */
module StreamReceiver {
  import opened Common
  import opened StreamLog
  import opened StreamSdk

  /** A cumulative acknowledgement: the epoch it was made under, the offset reached and the window offered. */
  datatype Mark = Mark(epoch: nat, offset: nat, window: nat)

  function AckFrame(mark: Mark): Frame {
    Ack(mark.epoch, mark.offset, mark.window)
  }

  /** Where the ACK goroutine is; Sending holds the index, in queueing order, of the ACK it took. */
  datatype LoopPc = NotStarted | Parked | Looping | Sending(index: nat) | Exited

  /**
   * `queued`, `emitted`, `resumeAcks` and `dropped` are the history: every ACK queued,
   * the indices written to the wire by the loop, the ACKs sent synchronously by Resume,
   * and for each discarded ACK the Resume ACK that followed it.
   */
  datatype Receiver = Receiver(
    session: Session, window: nat, state: ReceiverState, accepted: seq<Bytes>,
    pending: Option<Mark>, wake: bool, stopped: bool, loop: LoopPc,
    queued: seq<Mark>, emitted: seq<nat>, resumeAcks: seq<Mark>, dropped: map<nat, nat>)

  function NewReceiver(session: Session, epoch: nat, window: nat): Receiver {
    Receiver(session, window, ReceiverState(epoch, 0), [], None, false, false, NotStarted, [], [], [], map[])
  }

  function SetSession(r: Receiver, session: Session): Receiver {
    if session == NO_SESSION then r else r.(session := session)
  }

  function QueueAck(r: Receiver, mark: Mark): Receiver {
    if r.stopped then r
    else r.(pending := Some(mark), wake := true, queued := r.queued + [mark],
            loop := if r.loop == NotStarted then Parked else r.loop)
  }

  function StopAcks(r: Receiver): Receiver {
    r.(stopped := true, pending := None, wake := r.wake || r.loop != NotStarted)
  }

  /** Discards the unsent ACK in favour of the Resume ACK sent right after. */
  function DropForResume(r: Receiver, window: nat): Receiver {
    var mark := Mark(r.state.epoch, r.state.next, window);
    r.(pending := None, resumeAcks := r.resumeAcks + [mark],
       dropped := if r.pending.Some? && r.queued != [] then r.dropped[|r.queued| - 1 := |r.resumeAcks|] else r.dropped)
  }

  /**
   * The Data handler. A frame that is not delivered may still be answered with the
   * current offset, depending on the SDK; an old epoch is always ignored.
   */
  function OnData(r: Receiver, epoch: nat, offset: nat, payload: Bytes, sdk: Answers): Receiver {
    if Delivers(r.state, epoch, offset) then
      var next := r.(state := r.state.(next := offset + |payload|),
                     accepted := if |payload| > 0 then r.accepted + [payload] else r.accepted);
      QueueAck(next, Mark(epoch, next.state.next, sdk.window))
    else if sdk.reack && epoch == r.state.epoch then QueueAck(r, Mark(epoch, r.state.next, sdk.window))
    else r
  }

  predicate ResumeTaken(r: Receiver, epoch: nat, sdk: Answers) {
    sdk.accepts && ResumeAllowed(r.state, epoch)
  }

  function OnResume(r: Receiver, session: Session, epoch: nat, sdk: Answers): Receiver {
    if ResumeTaken(r, epoch, sdk)
    then DropForResume(SetSession(r.(state := r.state.(epoch := epoch)), session), sdk.window)
    else r
  }

  function LoopWake(r: Receiver): Receiver {
    if r.loop == Parked && r.wake then r.(loop := Looping, wake := false) else r
  }

  function LoopTake(r: Receiver): Receiver {
    if r.loop != Looping then r
    else if r.stopped then r.(loop := Exited)
    else if r.pending.None? || r.queued == [] then r.(loop := Parked)
    else r.(loop := Sending(|r.queued| - 1), pending := None)
  }

  function LoopSend(r: Receiver): Receiver {
    if r.loop.Sending? then r.(loop := Looping, emitted := r.emitted + [r.loop.index]) else r
  }

  /** The goroutine's context was cancelled while it was parked. */
  function LoopCancel(r: Receiver): Receiver {
    if r.loop == Parked then r.(loop := Exited) else r
  }

  datatype Event =
    | DataArrives(epoch: nat, offset: nat, payload: Bytes, sdk: Answers)
    | ResumeArrives(session: Session, epoch: nat, sdk: Answers)
    | OpenAgain(session: Session)
    | Stop
    | Wake
    | Take
    | Send
    | Cancel

  function Apply(r: Receiver, e: Event): Receiver {
    match e
    case DataArrives(epoch, offset, payload, sdk) => OnData(r, epoch, offset, payload, sdk)
    case ResumeArrives(session, epoch, sdk) => OnResume(r, session, epoch, sdk)
    case OpenAgain(session) => SetSession(r, session)
    case Stop => StopAcks(r)
    case Wake => LoopWake(r)
    case Take => LoopTake(r)
    case Send => LoopSend(r)
    case Cancel => LoopCancel(r)
  }

  function RunFrom(r: Receiver, events: seq<Event>): Receiver {
    if events == [] then r else Apply(RunFrom(r, events[..|events| - 1]), events[|events| - 1])
  }

  // -------------------------------------------------------------- invariant

  predicate Covers(newer: Mark, older: Mark) {
    older.epoch <= newer.epoch && older.offset <= newer.offset
  }

  predicate Within(mark: Mark, now: ReceiverState) {
    mark.epoch <= now.epoch && mark.offset <= now.next
  }

  /** Queued ACKs are cumulative, and the history refers to them in order. */
  ghost predicate HistoryOk(now: ReceiverState, queued: seq<Mark>, emitted: seq<nat>, resumeAcks: seq<Mark>,
                            dropped: map<nat, nat>) {
    && (forall i :: 0 <= i < |queued| ==> Within(queued[i], now))
    && (forall i, j :: 0 <= i <= j < |queued| ==> Covers(queued[j], queued[i]))
    && (forall i, j :: 0 <= i < j < |emitted| ==> emitted[i] < emitted[j])
    && (forall i :: 0 <= i < |emitted| ==> emitted[i] < |queued|)
    && (forall i :: i in dropped ==>
          i < |queued| && dropped[i] < |resumeAcks| && Covers(resumeAcks[dropped[i]], queued[i]))
  }

  /** The newest queued ACK is pending, in the goroutine's hand, written, or replaced by a Resume ACK. */
  ghost predicate NewestAccounted(r: Receiver) {
    r.queued != [] && !r.stopped ==>
      || r.pending == Some(r.queued[|r.queued| - 1])
      || r.loop == Sending(|r.queued| - 1)
      || |r.queued| - 1 in r.emitted
      || |r.queued| - 1 in r.dropped
  }

  ghost predicate LoopOk(r: Receiver) {
    && (r.pending.Some? ==>
          !r.stopped && r.queued != [] && r.pending == Some(r.queued[|r.queued| - 1]) && r.loop != NotStarted)
    && (r.pending.Some? ==> forall i :: 0 <= i < |r.emitted| ==> r.emitted[i] < |r.queued| - 1)
    && (r.loop.Sending? ==> r.loop.index < |r.queued|)
    && (r.loop.Sending? ==> forall i :: 0 <= i < |r.emitted| ==> r.emitted[i] < r.loop.index)
    && (r.loop.Sending? && r.pending.Some? ==> r.loop.index < |r.queued| - 1)
    && (r.loop == NotStarted ==> r.queued == [])
    && (r.loop == Parked && (r.pending.Some? || r.stopped) ==> r.wake)
  }

  ghost predicate AckOk(r: Receiver) {
    && HistoryOk(r.state, r.queued, r.emitted, r.resumeAcks, r.dropped)
    && LoopOk(r)
    && NewestAccounted(r)
  }

  lemma PendingIsNewest(r: Receiver)
    requires AckOk(r) && r.pending.Some?
    ensures !r.stopped && r.queued != [] && r.pending == Some(r.queued[|r.queued| - 1])
  {
  }

  lemma QueueKeeps(r: Receiver, mark: Mark)
    requires AckOk(r) && mark.epoch == r.state.epoch && mark.offset == r.state.next
    ensures AckOk(QueueAck(r, mark))
  {
  }

  lemma AdvanceKeeps(r: Receiver, state: ReceiverState, accepted: seq<Bytes>, session: Session)
    requires AckOk(r) && state.epoch >= r.state.epoch && state.next >= r.state.next
    ensures AckOk(r.(state := state, accepted := accepted, session := session))
  {
    var n := r.(state := state, accepted := accepted, session := session);
    assert LoopOk(n) && NewestAccounted(n);
  }

  lemma DropKeeps(r: Receiver, window: nat)
    requires AckOk(r)
    ensures AckOk(DropForResume(r, window))
  {
    var n := DropForResume(r, window);
    assert LoopOk(n) && NewestAccounted(n);
  }

  lemma DataKeeps(r: Receiver, epoch: nat, offset: nat, payload: Bytes, sdk: Answers)
    requires AckOk(r)
    ensures AckOk(OnData(r, epoch, offset, payload, sdk))
  {
    hide AckOk;
    if Delivers(r.state, epoch, offset) {
      var accepted := if |payload| > 0 then r.accepted + [payload] else r.accepted;
      AdvanceKeeps(r, r.state.(next := offset + |payload|), accepted, r.session);
      QueueKeeps(r.(state := r.state.(next := offset + |payload|), accepted := accepted),
                 Mark(epoch, offset + |payload|, sdk.window));
    } else if sdk.reack && epoch == r.state.epoch {
      QueueKeeps(r, Mark(epoch, r.state.next, sdk.window));
    }
  }

  lemma ResumeKeeps(r: Receiver, session: Session, epoch: nat, sdk: Answers)
    requires AckOk(r)
    ensures AckOk(OnResume(r, session, epoch, sdk))
  {
    hide AckOk;
    if ResumeTaken(r, epoch, sdk) {
      var next := SetSession(r.(state := r.state.(epoch := epoch)), session);
      AdvanceKeeps(r, next.state, r.accepted, next.session);
      DropKeeps(next, sdk.window);
    }
  }

  lemma SessionKeeps(r: Receiver, session: Session)
    requires AckOk(r)
    ensures AckOk(SetSession(r, session))
  {
    AdvanceKeeps(r, r.state, r.accepted, SetSession(r, session).session);
  }

  lemma StopKeeps(r: Receiver)
    requires AckOk(r)
    ensures AckOk(StopAcks(r))
  {
  }

  lemma TakeKeeps(r: Receiver)
    requires AckOk(r)
    ensures AckOk(LoopTake(r))
  {
    hide HistoryOk;
  }

  lemma WakeKeeps(r: Receiver)
    requires AckOk(r)
    ensures AckOk(LoopWake(r)) && AckOk(LoopCancel(r))
  {
    hide HistoryOk;
  }

  lemma SendKeeps(r: Receiver)
    requires AckOk(r)
    ensures AckOk(LoopSend(r))
  {
    var n := LoopSend(r);
    assert LoopOk(n) && NewestAccounted(n);
  }

  lemma ApplyKeeps(r: Receiver, e: Event)
    requires AckOk(r)
    ensures AckOk(Apply(r, e))
  {
    hide AckOk;
    match e
    case DataArrives(epoch, offset, payload, sdk) => DataKeeps(r, epoch, offset, payload, sdk);
    case ResumeArrives(session, epoch, sdk) => ResumeKeeps(r, session, epoch, sdk);
    case OpenAgain(session) => SessionKeeps(r, session);
    case Stop => StopKeeps(r);
    case Send => SendKeeps(r);
    case Take => TakeKeeps(r);
    case _ => WakeKeeps(r);
  }

  lemma {:induction false} AlwaysOk(r: Receiver, events: seq<Event>)
    requires AckOk(r)
    ensures AckOk(RunFrom(r, events))
  {
    if events != [] {
      AlwaysOk(r, events[..|events| - 1]);
      ApplyKeeps(RunFrom(r, events[..|events| - 1]), events[|events| - 1]);
    }
  }

  // ------------------------------------------------- acknowledging progress

  /** Whatever an unstopped receiver delivered, its newest ACK says so. */
  ghost predicate NewestCurrent(r: Receiver) {
    !r.stopped && r.state.next > 0 ==> r.queued != [] && r.queued[|r.queued| - 1].offset == r.state.next
  }

  lemma CurrentStep(r: Receiver, e: Event)
    requires NewestCurrent(r)
    ensures NewestCurrent(Apply(r, e))
  {
  }

  lemma {:induction false} AlwaysCurrent(r: Receiver, events: seq<Event>)
    requires NewestCurrent(r)
    ensures NewestCurrent(RunFrom(r, events))
  {
    hide NewestCurrent, Apply;
    if events != [] {
      AlwaysCurrent(r, events[..|events| - 1]);
      CurrentStep(RunFrom(r, events[..|events| - 1]), events[|events| - 1]);
    }
  }

  // ------------------------------------------------------------ main results

  /** No lost wake-up: a parked ACK goroutine with work or a stop to see has a token waiting. */
  lemma NoLostWake(session: Session, epoch: nat, window: nat, events: seq<Event>)
    ensures var r := RunFrom(NewReceiver(session, epoch, window), events);
            r.loop == Parked && (r.pending.Some? || r.stopped) ==> r.wake
  {
    AlwaysOk(NewReceiver(session, epoch, window), events);
  }

  /**
   * The ACKs the goroutine writes are a subsequence of the queued ones, in order,
   * so epochs and, within an epoch, offsets never go back.
   */
  lemma EmittedInOrder(session: Session, epoch: nat, window: nat, events: seq<Event>)
    ensures var r := RunFrom(NewReceiver(session, epoch, window), events);
            && (forall i, j :: 0 <= i < j < |r.emitted| ==>
                  && r.emitted[i] < r.emitted[j] < |r.queued|
                  && Covers(r.queued[r.emitted[j]], r.queued[r.emitted[i]]))
            && (forall i :: 0 <= i < |r.emitted| ==> r.emitted[i] < |r.queued|)
            && (forall i :: 0 <= i < |r.emitted| ==>
                  Within(r.queued[r.emitted[i]], r.state))
  {
    AlwaysOk(NewReceiver(session, epoch, window), events);
  }

  /**
   * At quiescence everything delivered has been acknowledged: the newest queued ACK names the offset
   * reached, and it has been written, unless a Resume dropped it, in which case the Resume ACK sent
   * instead covers it.
   */
  lemma QuiescentMeansAcknowledged(session: Session, epoch: nat, window: nat, events: seq<Event>)
    ensures var r := RunFrom(NewReceiver(session, epoch, window), events);
            r.loop == Parked && !r.wake && (r.queued != [] || r.state.next > 0) ==>
              var newest := |r.queued| - 1;
              && r.queued != [] && (r.state.next > 0 ==> r.queued[newest].offset == r.state.next)
              && (|| newest in r.emitted
                  || (newest in r.dropped && r.dropped[newest] < |r.resumeAcks| &&
                      Covers(r.resumeAcks[r.dropped[newest]], r.queued[newest])))
  {
    hide RunFrom;
    var start := NewReceiver(session, epoch, window);
    AlwaysOk(start, events);
    AlwaysCurrent(start, events);
  }

  /** After one more event, a stopped receiver has at most written the ACK in hand. */
  lemma StoppedStep(r: Receiver, e: Event)
    requires AckOk(r) && r.stopped
    ensures var n := Apply(r, e);
            && n.stopped && n.pending.None? && n.queued == r.queued
            && (|| n.emitted == r.emitted
                || (r.loop.Sending? && n.emitted == r.emitted + [r.loop.index] && !n.loop.Sending?))
            && (n.loop.Sending? ==> n.loop == r.loop && n.emitted == r.emitted)
  {
    hide HistoryOk, NewestAccounted, Covers;
  }

  /** Stopping is final: nothing is queued or taken any more, at most the ACK in hand is written. */
  lemma {:induction false} StoppedForGood(r: Receiver, events: seq<Event>)
    requires AckOk(r) && r.stopped
    ensures var n := RunFrom(r, events);
            && n.stopped && n.pending.None? && n.queued == r.queued
            && (n.emitted == r.emitted || (r.loop.Sending? && n.emitted == r.emitted + [r.loop.index]))
            && (n.loop.Sending? ==> n.loop == r.loop && n.emitted == r.emitted)
  {
    if events == [] {
      NothingPending(r);
    } else {
      hide AckOk, Apply;
      var before := events[..|events| - 1];
      StoppedForGood(r, before);
      AlwaysOk(r, before);
      StoppedStep(RunFrom(r, before), events[|events| - 1]);
    }
  }

  lemma NothingPending(r: Receiver)
    requires AckOk(r) && r.stopped
    ensures r.pending.None?
  {
    hide HistoryOk, NewestAccounted;
  }

  /** What a Data frame does to the progress of a receiver. */
  lemma DataEffect(r: Receiver, epoch: nat, offset: nat, payload: Bytes, sdk: Answers)
    ensures var t := OnData(r, epoch, offset, payload, sdk);
            if Delivers(r.state, epoch, offset) then
              && t.state == r.state.(next := offset + |payload|)
              && t.accepted == if |payload| > 0 then r.accepted + [payload] else r.accepted
            else t.state == r.state && t.accepted == r.accepted
  {
  }

  lemma ProgressStep(r: Receiver, e: Event)
    ensures var n := Apply(r, e);
            r.state.next <= n.state.next && r.state.epoch <= n.state.epoch && r.accepted <= n.accepted
  {
    hide OnData;
    if e.DataArrives? {
      DataEffect(r, e.epoch, e.offset, e.payload, e.sdk);
    }
  }

  /** The delivered offset never goes back, whatever arrives, so ACKs are cumulative. */
  lemma {:induction false} OffsetNeverRewinds(r: Receiver, events: seq<Event>)
    ensures r.state.next <= RunFrom(r, events).state.next && r.state.epoch <= RunFrom(r, events).state.epoch
    ensures r.accepted <= RunFrom(r, events).accepted
  {
    hide Apply;
    if events != [] {
      var before := events[..|events| - 1];
      OffsetNeverRewinds(r, before);
      ProgressStep(RunFrom(r, before), events[|events| - 1]);
    }
  }

  // ------------------------------------------------------- the object itself

  /** The frames handed to the SDK, with the session each is sent through and its stream ID. */
  class FrameLog {
    var sent: seq<Message>

    constructor ()
      ensures sent == []
    {
      sent := [];
    }

    method Send(session: Session, id: nat, frame: Frame)
      modifies this
      ensures sent == old(sent) + [Message(session, id, frame)]
    {
      sent := sent + [Message(session, id, frame)];
    }
  }

  /** The receiver as it is updated in place; the history fields are ghost. */
  class ReceiverObject {
    const peer: nat
    const id: nat
    var targetSession: Session
    const window: nat
    var epoch: nat
    var next: nat
    var ackPending: Option<Mark>
    var ackStarted: bool
    var ackWake: bool
    var ackStopped: bool
    ghost var loop: LoopPc
    ghost var accepted: seq<Bytes>
    ghost var queued: seq<Mark>
    ghost var emitted: seq<nat>
    ghost var resumeAcks: seq<Mark>
    ghost var dropped: map<nat, nat>

    ghost function Abs(): Receiver
      reads this
    {
      Receiver(targetSession, window, ReceiverState(epoch, next), accepted, ackPending, ackWake, ackStopped, loop,
               queued, emitted, resumeAcks, dropped)
    }

    /** `ackStarted` stands for a non-nil wake channel, made together with the goroutine. */
    ghost predicate Valid()
      reads this
    {
      ackStarted == (loop != NotStarted)
    }

    constructor (peer: nat, id: nat, session: Session, epoch: nat, window: nat)
      ensures Valid() && Abs() == NewReceiver(session, epoch, window) && this.peer == peer && this.id == id
      ensures targetSession == session && this.epoch == epoch && next == 0
      ensures !ackStopped
    {
      this.peer, this.id, this.window := peer, id, window;
      targetSession, this.epoch, next := session, epoch, 0;
      ackPending, ackStarted, ackWake, ackStopped, loop := None, false, false, false, NotStarted;
      accepted, queued, emitted, resumeAcks, dropped := [], [], [], [], map[];
    }

    method SetTargetSession(session: Session)
      requires Valid()
      modifies this`targetSession
      ensures Valid() && Abs() == SetSession(old(Abs()), session)
      ensures targetSession == if session == NO_SESSION then old(targetSession) else session
    {
      if session == NO_SESSION {
        return;
      }
      targetSession := session;
    }

    method Queue(mark: Mark)
      requires Valid()
      modifies this
      ensures Valid() && Abs() == QueueAck(old(Abs()), mark)
      ensures !old(ackStopped) ==> ackPending == Some(mark) && ackStarted && ackWake
      ensures old(ackStopped) ==>
        ackPending == old(ackPending) && ackStarted == old(ackStarted) && ackWake == old(ackWake)
      ensures ackStopped == old(ackStopped) && epoch == old(epoch) && next == old(next)
      ensures targetSession == old(targetSession)
    {
      if ackStopped {
        return;
      }
      ackPending := Some(mark);
      queued := queued + [mark];
      if !ackStarted {
        ackStarted, loop := true, Parked;
      }
      ackWake := true;
    }

    method Stop()
      requires Valid()
      modifies this
      ensures Valid() && Abs() == StopAcks(old(Abs()))
      ensures ackStopped && ackPending.None? && ackStarted == old(ackStarted) && (ackStarted ==> ackWake)
    {
      ackStopped, ackPending := true, None;
      if ackStarted {
        ackWake := true;
      }
    }

    /** Delivers a Data frame to `payload` when it is the next one, and queues its ACK. */
    method HandleData(dataEpoch: nat, offset: nat, payload: Bytes, sdk: Answers) returns (delivered: bool)
      requires Valid()
      modifies this
      ensures Valid() && Abs() == OnData(old(Abs()), dataEpoch, offset, payload, sdk)
      ensures ackStopped == old(ackStopped)
      ensures delivered <==> dataEpoch == old(epoch) && offset == old(next) && |payload| > 0
      ensures next == (if delivered then old(next) + |payload| else old(next)) && epoch == old(epoch)
      ensures targetSession == old(targetSession)
      ensures !ackStopped && dataEpoch == old(epoch) && (offset == old(next) || sdk.reack) ==>
        ackPending == Some(Mark(epoch, next, sdk.window)) && ackStarted && ackWake
      ensures dataEpoch != old(epoch) ==> ackPending == old(ackPending)
    {
      delivered := false;
      if dataEpoch == epoch && offset == next {
        next := next + |payload|;
        if |payload| > 0 {
          delivered := true;
          accepted := accepted + [payload];
        }
        Queue(Mark(epoch, next, sdk.window));
      } else if sdk.reack && dataEpoch == epoch {
        Queue(Mark(epoch, next, sdk.window));
      }
    }

    /** Discards the unsent ACK that the Resume ACK about to be sent supersedes. */
    method DropPendingAck(ghost offered: nat)
      requires Valid()
      modifies this
      ensures Valid() && Abs() == DropForResume(old(Abs()), offered)
      ensures ackPending.None? && targetSession == old(targetSession) && epoch == old(epoch) && next == old(next)
      ensures ackStopped == old(ackStopped)
    {
      dropped := if ackPending.Some? && queued != [] then dropped[|queued| - 1 := |resumeAcks|] else dropped;
      resumeAcks := resumeAcks + [Mark(epoch, next, offered)];
      ackPending := None;
    }

    /** Answers an accepted Resume synchronously, on the new session, dropping the unsent ACK. */
    method HandleResume(session: Session, resumeEpoch: nat, sdk: Answers, wire: FrameLog)
      requires Valid()
      modifies this, wire
      ensures Valid() && Abs() == OnResume(old(Abs()), session, resumeEpoch, sdk)
      ensures ackStopped == old(ackStopped)
      ensures next == old(next)
      ensures var taken := sdk.accepts && resumeEpoch >= old(epoch);
              && epoch == (if taken then resumeEpoch else old(epoch))
              && targetSession == (if taken && session != NO_SESSION then session else old(targetSession))
              && ackPending == (if taken then None else old(ackPending))
              && wire.sent == old(wire.sent) +
                   (if taken then [Message(targetSession, id, Ack(resumeEpoch, old(next), sdk.window))] else [])
    {
      if !sdk.accepts || resumeEpoch < epoch {
        return;
      }
      epoch := resumeEpoch;
      SetTargetSession(session);
      DropPendingAck(sdk.window);
      wire.Send(targetSession, id, Ack(epoch, next, sdk.window));
    }

    method TakeAck() returns (ack: Option<Mark>, stopped: bool)
      requires AckOk(Abs()) && loop == Looping
      requires Valid()
      modifies this
      ensures Valid() && Abs() == LoopTake(old(Abs())) && stopped == old(ackStopped)
      ensures ack == if stopped then None else old(ackPending)
    {
      if ackStopped {
        loop := Exited;
        return None, true;
      }
      if ackPending.None? {
        loop := Parked;
        return None, false;
      }
      ack, stopped := ackPending, false;
      ackPending := None;
      loop := Sending(|queued| - 1);
    }

    /**
     * One wake-up of the ACK goroutine run without interference: it writes the pending
     * ACK, if any, on the current session and parks, or exits when stopped.
     */
    method AckRound(wire: FrameLog)
      requires Valid() && AckOk(Abs()) && loop == Parked && ackWake
      modifies this, wire
      ensures Valid() && AckOk(Abs()) && !ackWake && ackPending.None?
      ensures loop == if old(ackStopped) then Exited else Parked
      ensures wire.sent == old(wire.sent) +
        (if old(ackStopped) || old(ackPending).None? then []
         else [Message(targetSession, id, AckFrame(old(ackPending).value))])
      ensures targetSession == old(targetSession) && epoch == old(epoch) && next == old(next)
    {
      hide AckOk;
      WakeKeeps(Abs());
      loop, ackWake := Looping, false;
      ghost var start := wire.sent;
      while true
        invariant Valid() && AckOk(Abs()) && loop == Looping && !ackWake && ackStopped == old(ackStopped)
        invariant targetSession == old(targetSession) && epoch == old(epoch) && next == old(next)
        invariant ackPending.Some? ==> ackPending == old(ackPending) && wire.sent == start
        invariant ackPending.None? ==>
          wire.sent == start +
            (if old(ackStopped) || old(ackPending).None? then []
             else [Message(targetSession, id, AckFrame(old(ackPending).value))])
        decreases ackPending.Some?
      {
        TakeKeeps(Abs());
        if ackPending.Some? {
          PendingIsNewest(Abs());
        }
        var ack, stopped := TakeAck();
        if stopped || ack.None? {
          return;
        }
        wire.Send(targetSession, id, AckFrame(ack.value));
        SendKeeps(Abs());
        emitted := emitted + [loop.index];
        loop := Looping;
      }
    }
  }
}
