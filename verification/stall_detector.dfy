/** The writer's ACK stall detector (streamWindowStall in internal/tun/stream.go). */
module StallDetector {
  import opened Common

  /** Everything the detector compares between two samples. */
  datatype Progress = Progress(session: nat, epoch: nat, ack: nat, window: nat)

  /** The progress last seen to change and when; None is the zero value left by a reset. */
  datatype Held = Held(progress: Progress, since: nat)

  datatype Sample = Sample(progress: Progress, at: nat)

  predicate Restarts(held: Option<Held>, progress: Progress) {
    held.None? || held.value.progress != progress
  }

  function Observe(held: Option<Held>, progress: Progress, now: nat): Option<Held> {
    if Restarts(held, progress) then Some(Held(progress, now)) else held
  }

  predicate Fires(held: Option<Held>, progress: Progress, now: nat, timeout: nat) {
    !Restarts(held, progress) && now - held.value.since >= timeout
  }

  class StreamWindowStall {
    var held: Option<Held>

    constructor ()
      ensures held == None
    {
      held := None;
    }

    method ObserveSample(progress: Progress, now: nat, timeout: nat) returns (fired: bool)
      modifies this
      ensures fired == Fires(old(held), progress, now, timeout)
      ensures held == Observe(old(held), progress, now)
    {
      if held.None? || held.value.progress != progress {
        held := Some(Held(progress, now));
        return false;
      }
      fired := now - held.value.since >= timeout;
    }

    method Reset()
      modifies this
      ensures held == None
    {
      held := None;
    }
  }

  // ------------------------------------------------- exactness over histories

  /** The detector after a whole history of samples since a reset. */
  function After(history: seq<Sample>): Option<Held> {
    if history == [] then None
    else
      var last := history[|history| - 1];
      Observe(After(history[..|history| - 1]), last.progress, last.at)
  }

  /** Samples from index `start` on are identical to the newest, and the one before is not. */
  ghost predicate TrailingRun(history: seq<Sample>, start: nat) {
    && start < |history|
    && (forall i :: start <= i < |history| ==> history[i].progress == history[|history| - 1].progress)
    && (start > 0 ==> history[start - 1].progress != history[|history| - 1].progress)
  }

  lemma {:induction false} HeldIsRunStart(history: seq<Sample>) returns (start: nat)
    requires history != []
    ensures TrailingRun(history, start)
    ensures After(history) == Some(Held(history[|history| - 1].progress, history[start].at))
    decreases |history|
  {
    var n := |history| - 1;
    var before := history[..n];
    if n == 0 {
      start := 0;
    } else {
      var earlier := HeldIsRunStart(before);
      start := if history[n].progress == history[n - 1].progress then earlier else n;
    }
  }

  lemma RunStartUnique(history: seq<Sample>, a: nat, b: nat)
    requires TrailingRun(history, a) && TrailingRun(history, b)
    ensures a == b
  {
  }

  /**
   * Exactness: one more sample fires exactly when it extends a trailing run of
   * identical samples whose first and last are at least the timeout apart.
   */
  lemma FiresExactly(history: seq<Sample>, next: Sample, timeout: nat)
    ensures Fires(After(history), next.progress, next.at, timeout) <==>
            exists start: nat ::
              start < |history| && TrailingRun(history + [next], start) && next.at - history[start].at >= timeout
  {
    var longer := history + [next];
    assert longer[..|history|] == history;
    var start := HeldIsRunStart(longer);
    if Fires(After(history), next.progress, next.at, timeout) {
      var s := HeldIsRunStart(history);
      assert TrailingRun(longer, s);
    }
    forall other: nat | other < |history| && TrailingRun(longer, other)
      ensures After(history) == Some(Held(next.progress, history[other].at))
    {
      RunStartUnique(longer, start, other);
      assert longer[other] == history[other];
      assert longer[|history| - 1].progress == next.progress;
      var s := HeldIsRunStart(history);
      assert TrailingRun(longer, s);
      RunStartUnique(longer, s, other);
    }
  }
}
