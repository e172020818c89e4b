/**
 * The two state objects the SDK keeps for a stream. The SDK is not part of this
 * repository: these are the contracts its callers and tests rely on.
 */
module StreamSdk {
  import opened Common
  import opened StreamLog

  /** A retained payload, kept with the boundaries it was first sent with. */
  datatype Chunk = Chunk(offset: nat, payload: Bytes)

  /** Bytes [base, end) are retained; base is the largest acknowledged offset. */
  datatype Sender = Sender(epoch: nat, window: nat, base: nat, end: nat, retained: seq<Chunk>)

  function NewSender(epoch: nat, window: nat): Sender {
    Sender(epoch, window, 0, 0, [])
  }

  /** The next contiguous frame, or None when the window is full. */
  function SenderData(s: Sender, payload: Bytes): Option<(Sender, Frame)> {
    if s.end - s.base + |payload| > s.window then None
    else Some((s.(end := s.end + |payload|, retained := s.retained + [Chunk(s.end, payload)]),
               Data(s.epoch, s.end, payload)))
  }

  function DropAcked(retained: seq<Chunk>, offset: nat): seq<Chunk> {
    if retained != [] && retained[0].offset + |retained[0].payload| <= offset then DropAcked(retained[1..], offset)
    else retained
  }

  /** Rejects (None) a wrong epoch or an offset past the sent end. */
  function SenderAcknowledge(s: Sender, epoch: nat, offset: nat, window: nat): Option<Sender> {
    if epoch != s.epoch || offset > s.end then None
    else
      var base := Max(s.base, offset);
      Some(s.(base := base, retained := DropAcked(s.retained, base), window := if window > 0 then window else s.window))
  }

  function Replay(chunks: seq<Chunk>, epoch: nat): (frames: seq<Frame>)
    ensures |frames| == |chunks|
    ensures forall i :: 0 <= i < |chunks| ==> frames[i] == Data(epoch, chunks[i].offset, chunks[i].payload)
  {
    if chunks == [] then []
    else [Data(epoch, chunks[0].offset, chunks[0].payload)] + Replay(chunks[1..], epoch)
  }

  /** The retained suffix from `offset`, in order, under the new epoch. */
  function SenderResume(s: Sender, epoch: nat, offset: nat): Option<(Sender, seq<Frame>)> {
    if epoch < s.epoch || offset < s.base || offset > s.end then None
    else Some((s.(epoch := epoch), Replay(DropAcked(s.retained, offset), epoch)))
  }

  /** The sender retains exactly the log payloads from number `k` on, and nothing was lost before. */
  ghost predicate Retains(s: Sender, log: seq<Bytes>, k: nat) {
    && k <= |log| && |s.retained| == |log| - k
    && s.base == Off(log, k) && s.end == Off(log, |log|)
    && (forall i :: 0 <= i < |s.retained| ==> s.retained[i] == Chunk(Off(log, k + i), log[k + i]))
  }

  lemma {:induction false} DropAckedSuffix(chunks: seq<Chunk>, log: seq<Bytes>, k: nat, j: nat)
    requires NonEmpty(log) && k <= j <= |log| && |chunks| == |log| - k
    requires forall i :: 0 <= i < |chunks| ==> chunks[i] == Chunk(Off(log, k + i), log[k + i])
    ensures DropAcked(chunks, Off(log, j)) == chunks[j - k..]
    decreases j - k
  {
    if k == j {
      if chunks != [] {
        OffStrict(log, j, |log|);
      }
    } else {
      OffMonotone(log, k + 1, j);
      DropAckedSuffix(chunks[1..], log, k + 1, j);
      assert chunks[1..][j - k - 1..] == chunks[j - k..];
    }
  }

  lemma DataRetains(s: Sender, log: seq<Bytes>, k: nat, payload: Bytes)
    requires Retains(s, log, k) && SenderData(s, payload).Some?
    ensures var (next, frame) := SenderData(s, payload).value;
            Retains(next, log + [payload], k) && frame == LogFrame(log + [payload], |log|, s.epoch)
  {
    var longer := log + [payload];
    forall i | 0 <= i <= |log| ensures Off(longer, i) == Off(log, i) {
      OffPrefix(log, longer, i);
    }
  }

  /** Acknowledging a boundary keeps exactly the later payloads. */
  lemma AcknowledgeRetains(s: Sender, log: seq<Bytes>, k: nat, j: nat, window: nat)
    requires NonEmpty(log) && Retains(s, log, k) && j <= |log|
    ensures Off(log, j) <= s.end
    ensures SenderAcknowledge(s, s.epoch, Off(log, j), window).Some?
    ensures Retains(SenderAcknowledge(s, s.epoch, Off(log, j), window).value, log, Max(k, j))
  {
    hide DropAcked;
    hide Off;
    var m := Max(k, j);
    OffMonotone(log, j, |log|);
    OffMonotone(log, j, m);
    OffMonotone(log, k, m);
    assert Max(s.base, Off(log, j)) == Off(log, m);
    DropAckedSuffix(s.retained, log, k, m);
    var next := SenderAcknowledge(s, s.epoch, Off(log, j), window).value;
    assert next.retained == s.retained[m - k..];
    forall i | 0 <= i < |next.retained| ensures next.retained[i] == Chunk(Off(log, m + i), log[m + i]) {
      assert next.retained[i] == s.retained[m - k + i];
    }
  }

  /** Resuming from the acknowledged offset replays everything unacknowledged, contiguously. */
  lemma ResumeReplays(s: Sender, log: seq<Bytes>, k: nat, epoch: nat)
    requires NonEmpty(log) && Retains(s, log, k) && epoch >= s.epoch
    ensures SenderResume(s, epoch, s.base).Some?
    ensures var (next, frames) := SenderResume(s, epoch, s.base).value;
            && Retains(next, log, k) && next.epoch == epoch
            && |frames| == |log| - k && Contiguous(frames, log, k, epoch)
  {
    OffMonotone(log, k, |log|);
    DropAckedSuffix(s.retained, log, k, k);
  }

  class StreamSenderState {
    var epoch: nat
    var window: nat
    var base: nat
    var end: nat
    var retained: seq<Chunk>

    function Abs(): Sender
      reads this
    {
      Sender(epoch, window, base, end, retained)
    }

    constructor (initialEpoch: nat, initialWindow: nat)
      ensures Abs() == NewSender(initialEpoch, initialWindow)
    {
      epoch, window, base, end, retained := initialEpoch, initialWindow, 0, 0, [];
    }

    method Data(payload: Bytes) returns (frame: Option<Frame>)
      modifies this
      ensures match SenderData(old(Abs()), payload)
              case None => frame == None && Abs() == old(Abs())
              case Some(out) => frame == Some(out.1) && Abs() == out.0
      ensures frame.None? <==> old(end) + |payload| > old(base) + old(window)
      ensures frame.Some? ==> frame.value == Frame.Data(epoch, old(end), payload) && end == old(end) + |payload|
      ensures epoch == old(epoch) && base == old(base) && window == old(window)
    {
      if end - base + |payload| > window {
        return None;
      }
      frame := Some(Frame.Data(epoch, end, payload));
      retained := retained + [Chunk(end, payload)];
      end := end + |payload|;
    }

    method Acknowledge(ackEpoch: nat, offset: nat, newWindow: nat) returns (ok: bool)
      modifies this
      ensures match SenderAcknowledge(old(Abs()), ackEpoch, offset, newWindow)
              case None => !ok && Abs() == old(Abs())
              case Some(next) => ok && Abs() == next
      ensures ok <==> ackEpoch == old(epoch) && offset <= old(end)
      ensures base == (if ok && offset > old(base) then offset else old(base)) && end == old(end) && epoch == old(epoch)
      ensures window == if ok && newWindow > 0 then newWindow else old(window)
    {
      if ackEpoch != epoch || offset > end {
        return false;
      }
      base := Max(base, offset);
      while retained != [] && retained[0].offset + |retained[0].payload| <= base
        invariant base == Max(old(base), offset) && end == old(end) && epoch == old(epoch) && window == old(window)
        invariant DropAcked(retained, base) == DropAcked(old(retained), base)
        decreases |retained|
      {
        retained := retained[1..];
      }
      if newWindow > 0 {
        window := newWindow;
      }
      return true;
    }

    method Resume(newEpoch: nat, offset: nat) returns (frames: Option<seq<Frame>>)
      modifies this
      ensures match SenderResume(old(Abs()), newEpoch, offset)
              case None => frames == None && Abs() == old(Abs())
              case Some(out) => frames == Some(out.1) && Abs() == out.0
      ensures frames.None? <==> newEpoch < old(epoch) || offset < old(base) || offset > old(end)
      ensures epoch == (if frames.Some? then newEpoch else old(epoch)) && base == old(base) && end == old(end)
      ensures window == old(window)
    {
      if newEpoch < epoch || offset < base || offset > end {
        return None;
      }
      epoch := newEpoch;
      frames := Some(Replay(DropAcked(retained, offset), newEpoch));
    }
  }

  /**
   * What is left open of the receiving end: whether it answers a Data frame that it does not deliver,
   * whether it accepts a Resume, and the window its ACK offers.
   */
  datatype Answers = Answers(reack: bool, accepts: bool, window: nat)

  /** The receiving end of a stream: the current epoch and the next offset to deliver. */
  datatype ReceiverState = ReceiverState(epoch: nat, next: nat)

  /** Data is delivered only at the next offset of the current epoch. */
  predicate Delivers(s: ReceiverState, epoch: nat, offset: nat) {
    epoch == s.epoch && offset == s.next
  }

  /** A Resume below the current epoch is stale; an accepted one never moves the offset. */
  predicate ResumeAllowed(s: ReceiverState, epoch: nat) {
    epoch >= s.epoch
  }
}
