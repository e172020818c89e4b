/** Stream frames, and the byte offsets of a log of accepted Data payloads. */
module StreamLog {
  import opened Common

  /** A peer session, that is, one route to the remote process; 0 is the zero SessionRef. */
  type Session = nat

  const NO_SESSION: Session := 0

  datatype Frame =
    | Open(epoch: nat, window: nat)
    | OpenAck(epoch: nat, window: nat)
    | Data(epoch: nat, offset: nat, payload: Bytes)
    | Ack(epoch: nat, offset: nat, window: nat)
    | Resume(epoch: nat, offset: nat)
    | Close(epoch: nat)

  /** A frame on the wire: the session it travels through and the ID of the stream it belongs to. */
  datatype Message = Message(session: Session, id: nat, frame: Frame)

  /** The frames of one stream among all that the two peers exchange. */
  function Own(net: set<Message>, id: nat): set<Message> {
    set m | m in net && m.id == id
  }

  lemma OwnAdded(net: set<Message>, id: nat, m: Message)
    ensures Own(net + {m}, id) == if m.id == id then Own(net, id) + {m} else Own(net, id)
  {
  }

  ghost predicate NonEmpty(log: seq<Bytes>) {
    forall i :: 0 <= i < |log| ==> |log[i]| > 0
  }

  /** The byte offset at which payload number `n` of the log starts. */
  function Off(log: seq<Bytes>, n: nat): nat
    requires n <= |log|
  {
    if n == 0 then 0 else Off(log, n - 1) + |log[n - 1]|
  }

  lemma {:induction false} OffPrefix(log: seq<Bytes>, longer: seq<Bytes>, n: nat)
    requires n <= |log| && log <= longer
    ensures Off(longer, n) == Off(log, n)
  {
    if n > 0 {
      OffPrefix(log, longer, n - 1);
    }
  }

  lemma {:induction false} OffMonotone(log: seq<Bytes>, a: nat, b: nat)
    requires a <= b <= |log|
    ensures Off(log, a) <= Off(log, b)
  {
    if a < b {
      OffMonotone(log, a, b - 1);
    }
  }

  lemma OffStrict(log: seq<Bytes>, a: nat, b: nat)
    requires NonEmpty(log) && a < b <= |log|
    ensures Off(log, a) < Off(log, a + 1) <= Off(log, b)
  {
    OffMonotone(log, a + 1, b);
  }

  lemma OffStep(log: seq<Bytes>, n: nat)
    requires n < |log|
    ensures Off(log, n + 1) == Off(log, n) + |log[n]|
  {
  }

  lemma OffInjective(log: seq<Bytes>, a: nat, b: nat)
    requires NonEmpty(log) && a <= |log| && b <= |log| && Off(log, a) == Off(log, b)
    ensures a == b
  {
    if a < b {
      OffStrict(log, a, b);
    } else if b < a {
      OffStrict(log, b, a);
    }
  }

  /** The frame that carries payload number `n` of the log under an epoch. */
  function LogFrame(log: seq<Bytes>, n: nat, epoch: nat): Frame
    requires n < |log|
  {
    Data(epoch, Off(log, n), log[n])
  }

  /** `frames` are consecutive log payloads from number `start`, all under one epoch. */
  ghost predicate Contiguous(frames: seq<Frame>, log: seq<Bytes>, start: nat, epoch: nat) {
    start + |frames| <= |log| &&
    forall i :: 0 <= i < |frames| ==> frames[i] == LogFrame(log, start + i, epoch)
  }

  lemma ContiguousPrefix(frames: seq<Frame>, log: seq<Bytes>, longer: seq<Bytes>, start: nat, epoch: nat)
    requires Contiguous(frames, log, start, epoch) && log <= longer
    ensures Contiguous(frames, longer, start, epoch)
  {
    forall i | 0 <= i < |frames| ensures frames[i] == LogFrame(longer, start + i, epoch) {
      OffPrefix(log, longer, start + i);
    }
  }
}
