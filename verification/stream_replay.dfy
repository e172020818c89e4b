/** What a replay achieves at the far end: exactly when it brings a receiver up to date. */
module StreamReplay {
  import opened Common
  import opened StreamCodec
  import opened StreamLog
  import opened StreamSdk
  import opened StreamPath
  import opened StreamSystem
  import opened StreamInvariant
  import opened StreamTheorems
  import Rx = StreamReceiver

  /** Hands Data frames to a receiver, in order; `sdk` is what its SDK does with each. */
  function Feed(r: Rx.Receiver, frames: seq<Frame>, sdk: nat -> Answers): Rx.Receiver
    requires forall i :: 0 <= i < |frames| ==> frames[i].Data?
  {
    if frames == [] then r
    else
      var f := frames[|frames| - 1];
      Rx.OnData(Feed(r, frames[..|frames| - 1], sdk), f.epoch, f.offset, f.payload, sdk(|frames| - 1))
  }

  /** A receiver of the epoch that delivered a prefix of the log. */
  ghost predicate Follows(r: Rx.Receiver, log: seq<Bytes>, epoch: nat) {
    r.accepted <= log && r.state == ReceiverState(epoch, Off(log, |r.accepted|))
  }

  /** One frame advances the receiver exactly when it is the next one. */
  lemma FeedOne(r: Rx.Receiver, log: seq<Bytes>, n: nat, epoch: nat, sdk: Answers)
    requires NonEmpty(log) && Follows(r, log, epoch) && n < |log|
    ensures var t := Rx.OnData(r, epoch, Off(log, n), log[n], sdk);
            Follows(t, log, epoch) && |t.accepted| == if n == |r.accepted| then n + 1 else |r.accepted|
  {
    hide Off, Rx.OnData;
    var m := |r.accepted|;
    Rx.DataEffect(r, epoch, Off(log, n), log[n], sdk);
    OffStep(log, n);
    if n < m {
      OffStrict(log, n, m);
    } else if m < n {
      OffStrict(log, m, n);
    } else {
      assert r.accepted + [log[n]] == log[..n + 1];
    }
  }

  /**
   * Frames that are already delivered are skipped, the rest are delivered in order; a receiver
   * that is behind the first frame delivers none.
   */
  lemma {:induction false} FeedReaches(r: Rx.Receiver, frames: seq<Frame>, log: seq<Bytes>, start: nat, epoch: nat,
                                       sdk: nat -> Answers)
    requires NonEmpty(log) && Follows(r, log, epoch) && start <= |log| && Contiguous(frames, log, start, epoch)
    ensures forall i :: 0 <= i < |frames| ==> frames[i].Data?
    ensures var t := Feed(r, frames, sdk);
            && Follows(t, log, epoch)
            && |t.accepted| == if start <= |r.accepted| <= start + |frames| then start + |frames| else |r.accepted|
  {
    if frames != [] {
      var n := |frames| - 1;
      FeedReaches(r, frames[..n], log, start, epoch, sdk);
      FeedOne(Feed(r, frames[..n], sdk), log, start + n, epoch, sdk(n));
    }
  }

  /**
   * While the path is ready, or a replay has been handed over whole, the Data frames of the current
   * epoch arriving in order bring a receiver that took the epoch's Resume up to date exactly when it
   * had delivered everything before the Resume frame's offset.
   */
  lemma ReplayRestoresExactly(c: Config, h: History, n: nat, i: nat, sdk: nat -> Answers)
    requires IsRun(c, h) && n < |h.states|
    requires var s := h.states[n];
             && i < |s.receivers| && s.receivers[i].state.epoch == s.port.epoch
             && (s.port.ready || (s.life.Replaying? && s.life.sent == |s.life.frames|))
    ensures var s := h.states[n];
            && (forall k :: 0 <= k < |s.issued| ==> s.issued[k].Data?)
            && var t := Feed(s.receivers[i], s.issued, sdk);
               && (t.accepted == s.log <==> s.start <= |s.receivers[i].accepted|)
               && s.start <= |s.log|
               && (s.start <= |s.receivers[i].accepted| <==> Off(s.log, s.start) <= s.receivers[i].state.next)
  {
    hide Inv, Feed;
    AlwaysInv(c, h, n);
    var s := h.states[n];
    Prepared(c, s);
    AcceptedPrefix(c, s, i);
    var r := s.receivers[i];
    FeedReaches(r, s.issued, s.log, s.start, s.port.epoch, sdk);
    var t := Feed(r, s.issued, sdk);
    if s.start <= |r.accepted| {
      OffMonotone(s.log, s.start, |r.accepted|);
    } else {
      OffStrict(s.log, |r.accepted|, s.start);
    }
  }

  lemma Prepared(c: Config, s: State)
    requires Inv(c, s)
    ensures NonEmpty(s.log) && Contiguous(s.issued, s.log, s.start, s.port.epoch)
    ensures s.port.ready || (s.life.Replaying? && s.life.sent == |s.life.frames|) ==> s.start + |s.issued| == |s.log|
  {
    hide GateOk, CountersOk, NetOk, ReceiversOk, ConfirmedOk, QueueOk, ConservedOk, WriterOk, CreditOk, EpochOk,
         AttemptOk, SignalOk, FromOk, CurrentResumeOk, Retains, ParseBody;
    if s.life.Replaying? && s.life.sent == |s.life.frames| {
      assert s.issued == s.life.frames;
    }
  }

  /** The receiver of a stream that was never re-created is always brought up to date. */
  lemma ReplayRestores(c: Config, h: History, n: nat, sdk: nat -> Answers)
    requires IsRun(c, h) && n < |h.states|
    requires var s := h.states[n];
             && |s.receivers| == 1 && s.receivers[0].state.epoch == s.port.epoch
             && s.life.Replaying? && s.life.sent == |s.life.frames|
    ensures var s := h.states[n];
            && (forall k :: 0 <= k < |s.issued| ==> s.issued[k].Data?)
            && Written(Feed(s.receivers[0], s.issued, sdk)) == Packets(s.log)
  {
    ReplayRestoresExactly(c, h, n, 0, sdk);
    AlwaysInv(c, h, n);
    var s := h.states[n];
    FromReached(c, s);
  }

  lemma FromReached(c: Config, s: State)
    requires Inv(c, s)
    ensures |s.receivers| == 1 && s.life.Replaying? ==>
      s.start <= |s.log| && Off(s.log, s.start) <= s.receivers[0].state.next
  {
    hide GateOk, CountersOk, LogOk, NetOk, QueueOk, ConservedOk, WriterOk, CreditOk, EpochOk, ReplayOk, AttemptOk,
         SignalOk, CurrentResumeOk, Rx.AckOk, MarkOk, Contiguous;
    if |s.receivers| == 1 && s.life.Replaying? && s.life.from != 0 {
      var r := s.receivers[0];
      assert ReceiverOk(r, c.window, s.log, s.port.epoch, OwnNet(s));
      assert Reached(r.accepted, s.life.from);
      var k: nat :| k <= |r.accepted| && Off(r.accepted, k) == s.life.from;
      OffMonotone(r.accepted, k, |r.accepted|);
    }
  }
}
