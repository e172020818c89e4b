# turntf-tun: a verified model of the overlay's data and control paths

turntf-tun carries IP packets between TUN devices over the turntf network. This
project models the parts of it whose correctness depends on ordering, retries and
concurrency, and proves what they promise:

- **Streams.** One outbound stream is a one-way, resumable, windowed, cumulatively
  acknowledged byte stream with epochs and several candidate sessions.
  `StreamSystem` is a step system: each step is one critical section or channel
  operation of the TUN reader, the stream writer, the lifecycle and recovery loop,
  the SDK reader, or the remote process's ACK writers. Steps of all of them
  interleave freely, and the network may drop, delay, duplicate and reorder every
  frame. Every frame carries a stream ID, and frames of other streams between the
  same peers, such as a predecessor with the same sessions and epochs, are on the
  same network at any time. A `History` is a run: its steps and the states around
  them. A lemma that requires `IsRun(c, h)` and speaks of `h.states[n]` is about
  every reachable state, and one that speaks of `h.states[n + 1]` as well is about
  every step ever taken; `RunExists` says that every sequence of steps has such a run.
- **Stream objects.** `StreamPort`, `ReceiverObject`, `StreamSenderState` and
  `StreamWindowStall` are classes updated in place whose methods are tied to the
  functions the step system uses for the same sections. `ReceiverTable`, the table of
  all receivers of a process, is tied to `StreamRegistry.OnFrame` by its abstraction
  `Abs()`, and `StreamPeer.ArrivalMatches` ties that function to the steps of the
  system, which follows the receivers of one stream.
- **Codecs and the Relay path.** Both batch formats with their imperative encoders
  and decoders, the Relay writer loop over every sequence of `select` outcomes, and
  the registry of live Relay connections.
- **Routing.** The configured route table, its stable sort and first-match scan,
  and the admission of packets read from the TUN device.
- **Address leases.** The sequential scan of the address pool, and the protocol
  that several processes run against the shared store, whose transactions may be
  executed late, after their sender gave up, or never.

How the stream proof is built: `StreamInvariant.Inv` is the inductive invariant,
one predicate per concern over exactly the fields it needs. `StreamEnvSteps`,
`StreamLifeSteps`, `StreamWriterSteps` and `StreamRemoteSteps` show that each step
keeps it, `StreamEffects` says what a single step may change, and `StreamTheorems`,
`StreamStall`, `StreamReplay`, `StreamLag` and `StreamRecreation` draw the conclusions
about safety. What the steps achieve, over every run, is said by `StreamWire` (what is on
the wire), `StreamRoutes` (the remote process), `StreamFailures`, `StreamLifecycle`,
`StreamTransfer` (the writer) and `StreamDetection`; `StreamRecovery` puts them together:
from every reachable state an undisturbed Open, recovery or delivery reaches its end.
`LeaseProtocol` and `LeaseExclusivity` do the same for leases, `LeaseProgress` says what
scans, renewals and releases achieve.

`dafny verify dfyconfig.toml` checks everything.

## Results that are not what one might expect

- *"The receiver's offset is never behind the acknowledged one"* is false: the peer's
  Open of another stream removes the receiver, and a delayed copy of the first Open
  then creates a new one at offset 0 (`StreamRecreation.ReceiverBehindAck`). It does not
  help that nothing had been acknowledged at that moment
  (`StreamRecreation.BehindLater`). `StreamLag.NeverLagsExactly` says exactly when the
  live receiver of any reachable state can never fall behind while it lives: it has
  reached the acknowledged offset, every ACK of the current epoch and route on the
  wire, and every such ACK in the hand of a removed receiver's ACK goroutine.
  `StreamReplay.ReplayRestoresExactly` says what this means for recovery: a replay brings
  a receiver up to date exactly when the receiver is not behind the Resume frame's offset.
- *Lease exclusivity* holds when no renewal or release takes another process's unexpired
  lease (`LeaseProtocol.Exclusive`). Neither `renew` nor `releaseLease` compares the owner
  or the expiry of the record they read, so a late renewal can:
  `LeaseProtocol.LateRenewalShares` ends with two unexpired users of one address.
  `LeaseProtocol.BackedExactly` says over every run that the store backs every entitled
  process if and only if no committing renewal or release had read a record of another
  owner that was still unexpired, and `LeaseExclusivity.NeverSharedExactly` says of every
  reachable state that this backing is exactly what keeps each address with one process in
  all continuations without such a take-over. `LeaseProtocol.TimelyExclusive` is the case in
  which each renewal and release commits before its holder's recorded expiry.
- *Longest prefix match* counts an IPv4-mapped prefix such as `::ffff:0:0/96` as 96 bits
  long although it matches like an IPv4 `/0`: `RouteTable.MappedRouteShadows`.
  `RouteTable.LongestMatchExactly` says for which configurations and addresses this matters:
  a mapped route contains the address, and a plain one that contains it denotes a longer
  network than every mapped one that does.
- A repeated OpenAck of epoch 1 can make a lost path ready again before recovery has
  begun its first Resume, because `acceptOpenAck` checks session, epoch and
  not-ready only: `StreamRecreation.ReopenedByOpenAck` is such a run, at whose end the
  lifecycle recovers a path that is ready. `StreamTheorems.JustifiedActivation` includes it.

## Assumptions

- The SDK's `StreamSenderState` and `StreamReceiverState` are not part of this model's
  source. Their contracts are taken from the callers and their tests: `Data` assigns the
  next contiguous offset or returns window-full and changes nothing, and fails in no other
  way; `Acknowledge` rejects a wrong epoch or an offset past the sent end and otherwise
  drops the acknowledged prefix; `Resume` returns the retained suffix with its original
  frame boundaries under the new epoch; the receiver accepts only its next offset at its
  current epoch, and its `Resume` never moves that offset. Whether the SDK answers a frame it
  does not deliver, whether it accepts a Resume, and the window each of its ACKs offers are
  left open (`StreamSdk.Answers`); an ACK without a window leaves the sender's as it is.
- All sessions of a peer are routes to one remote process, whose SDK reader handles
  inbound frames one at a time.
- Stream IDs are unique: no other stream uses this stream's ID. Nothing in the repository
  sends a Close; the model lets one arrive for any stream at any time.
- Offsets, epochs and revisions are natural numbers; 64-bit wrap-around is out of reach in
  practice and not modelled. Time is a natural-number clock; timeouts may fire at any step.
- Packets are at most 65535 bytes, as the configuration enforces; lengths on the wire are
  explicit 16-bit and 32-bit fields. `FullWindowIsOutstanding` and the outstanding data of
  `StallIsReal` need a window of at least one frame of 128 KiB, which the configured minimum
  of 256 KiB covers unless the peer's ACKs offer less.
- Lease processes agree on the clock, and the store executes each transaction atomically
  and at most once.

## Model

| member | source | states |
|---|---|---|
| `StreamTheorems.EndToEnd` | internal/tun/stream.go:1045-1068 | In every run, each receiver instance has written to its TUN device a prefix, in order and without duplicates, of the packets the writer dequeued, which are a prefix of those admitted, whatever the network lost, repeated or reordered and however often the path was resumed. |
| `StreamTheorems.WriterConserves` | internal/tun/stream.go:717-806 | At every program point of the writer the packets taken from the queue are those of the accepted payloads, then the pending batch, then the overflow packet; every payload is at most 128 KiB and decodes. |
| `StreamTheorems.AckConservation` | internal/tun/stream.go:331-354 | In every reachable state the acknowledged offset is a frame boundary some receiver reached, no receiver is past what was sent, and the sender retains exactly the frames of [lastAck, lastSent). |
| `StreamTheorems.AckBetween` | internal/tun/stream.go:1045-1068 | While the receiver was never re-created: lastAck <= receiver's next offset <= lastSent. |
| `StreamLag.NeverLagsExactly` | internal/tun/stream.go:331-354 | In every reachable state: the live receiver stays at or above lastAck in every continuation while it lives, if and only if it has reached lastAck, every ACK of the current epoch and route on the wire, and every such ACK in the hand of a removed receiver's goroutine. |
| `StreamLag.RecreatedLags` | internal/tun/stream.go:1013-1019 | A receiver created anew by a late Open starts at offset 0, and never falls behind if and only if nothing was acknowledged and no ACK under way still acknowledges anything. |
| `StreamLag.StepAhead` | internal/tun/stream.go:847-1116 | Every step of every goroutine keeps a receiver ahead of everything that can still be acknowledged. |
| `StreamRecreation.ReceiverBehindAck` | internal/tun/stream.go:1004-1019 | A run in which an Open of another stream and a delayed copy of the first Open leave the live receiver at offset 0 although 5 bytes are acknowledged. |
| `StreamRecreation.BehindLater` | internal/tun/stream.go:1004-1019 | A run in which nothing is acknowledged when the receiver is created anew, and one ACK of its predecessor then puts it behind. |
| `StreamRecreation.ReopenedByOpenAck` | internal/tun/stream.go:199-208 | A run in which an open path is lost, a repeated OpenAck makes it ready again at epoch 1, and the signal of the loss then starts recovery of the ready path. |
| `StreamRecovery.RecoveryCompletes` | internal/tun/stream.go:667-715 | From every reachable state in which recovery is due, every untried session recovers the stream when undisturbed: the run goes on to a state that is ready on that session under the next epoch and active, in which a receiver that was not behind lastAck has written every packet the sender ever accepted, and answers on that session. |
| `StreamRecovery.OpenCompletes` | internal/tun/stream.go:556-606 | From every reachable state in which the stream is still to be opened, every untried session opens it when undisturbed: ready, active, the writer at work, the receiver on that session. |
| `StreamRecovery.PacketIsDelivered` | internal/tun/stream.go:717-806 | From every reachable state in which the stream is open and quiet, a packet read from the TUN device that fits the window is written by the receiver and acknowledged, when undisturbed. |
| `StreamRecovery.AckCompletes` | internal/tun/stream.go:899-917 | An ACK that is due gets through whatever its goroutine was doing: lastAck reaches the receiver's offset. |
| `StreamWire.ReplayIsOnWire` | internal/tun/stream.go:697-704 | In every run, from the beginning of a Resume attempt to any state that is ready under its epoch, if every replayed frame got out: the Resume frame and the frames of all payloads from its offset to the end of the log at the beginning are on the wire, on the attempt's session, with their first boundaries. |
| `StreamWire.FrameIsReplayed` | internal/tun/stream.go:697-701 | Replay step k sends payload start + k of the log under the current epoch on the current session; an error ends the attempt. |
| `StreamWire.ResumeIsSent` | internal/tun/stream.go:689-692 | The Resume goes out on the current session, under the current epoch, from the offset its replay starts at. |
| `StreamWire.OpenIsSent` | internal/tun/stream.go:559-563 | The Open goes out on the current session; an error makes the next candidate due. |
| `StreamWire.DataIsSent` | internal/tun/stream.go:800-802 | The frame of an accepted payload goes out on the session it was accepted for; an error is due to be reported for that session and epoch. |
| `StreamFailures.ReportedFailureFails` | internal/tun/stream.go:209-271 | In every run a report that names the current session and epoch, by the send callback, the writer after a send error or a stall, or the transport, leaves the path not ready: a ready one on a new, open channel with a signal owed, a running attempt with a failure recorded. A report of another path changes no path. |
| `StreamFailures.LossHasCause` | internal/tun/stream.go:209-315 | A ready path is lost only to such a report, or to the lifecycle's next attempt. |
| `StreamRoutes.AnswersOnLastRoute` | internal/tun/stream.go:925-932 | In every run the live receiver's session is that of the last Open or accepted Resume that arrived for it. |
| `StreamRoutes.OpenIsAnswered` | internal/tun/stream.go:1004-1036 | An Open is answered on its own session; it creates a receiver at offset 0 or re-targets the live one, which keeps what it delivered; one of another stream removes it. |
| `StreamRoutes.ResumeIsAnswered` | internal/tun/stream.go:1076-1105 | An accepted Resume moves epoch and session, keeps the offset, drops the unsent ACK and is answered with that offset on the Resume's session. |
| `StreamRoutes.DataIsDelivered` | internal/tun/stream.go:1045-1068 | Data at the next offset of the receiver's epoch is delivered and queues an ACK of the new offset; other Data delivers nothing. |
| `StreamRoutes.CloseIsObeyed` | internal/tun/stream.go:1107-1115 | A Close removes the receiver and stops its ACKs. |
| `StreamRoutes.AckIsSent` | internal/tun/stream.go:914 | The ACK in a goroutine's hand goes out on the receiver's present session. |
| `StreamRoutes.AckIsTaken` | internal/tun/stream.go:885-917 | A woken goroutine takes the newest unsent ACK, parks when there is none, exits once stopped. |
| `StreamLifecycle.PacketIsQueued` | internal/tun/stream.go:139-160 | A packet read is queued exactly when its size is admissible, the path is ready and the queue has room. |
| `StreamLifecycle.QueueIsBounded` | internal/tun/stream.go:139-151 | In every run the queue holds at most its capacity. |
| `StreamLifecycle.OpenAckActivates` | internal/tun/stream.go:1037-1044 | An OpenAck of the stream on the current session and epoch opens a path that is not ready; every other one changes nothing. |
| `StreamLifecycle.AckCounts` | internal/tun/stream.go:331-354 | Every ACK of the stream on the current session and epoch counts once the sender has moved to the epoch: lastAck, window, wake token and the release of the attempt; every other one changes nothing. |
| `StreamLifecycle.RestartIsAsked` | internal/tun/stream.go:371-387 | A restart is asked for once, and for another session only. |
| `StreamLifecycle.LossIsSignalled` | internal/tun/stream.go:272-287 | The signals owed arrive: the loss token, then the writer's; a lost path is deactivated, a ready one never. |
| `StreamLifecycle.CandidateIsTried` | internal/tun/stream.go:558-559 | An Open attempt starts with the path shut, a new open channel and no failure; no candidate is tried twice in a round. |
| `StreamLifecycle.OpenIsDecided` | internal/tun/stream.go:565-575 | While an Open waits, its closed channel means it was answered; an error or the timer ends it. |
| `StreamLifecycle.NextCandidateIsTried` | internal/tun/stream.go:558-572 | After an Open that failed, was rejected or timed out, the next candidate is tried. |
| `StreamLifecycle.PathIsActivated` | internal/tun/stream.go:603-633 | An answered Open or a recovered path becomes active, the writer is started once, and a loss seen starts recovery with every candidate untried. |
| `StreamLifecycle.StreamEnds` | internal/tun/stream.go:607-617 | The lifecycle ends only between attempts or when the port was closed or a restart asked for, and closes the port. |
| `StreamLifecycle.ResumeIsTried` | internal/tun/stream.go:303-315 | An attempt starts under the next epoch, on its session, with the path shut, released by nothing yet, from lastAck. |
| `StreamLifecycle.SenderResumes` | internal/tun/stream.go:685 | The sender moves to the epoch and hands back every payload of the log from lastAck on. |
| `StreamLifecycle.ResumeIsDecided` | internal/tun/stream.go:694-709 | While a Resume waits, the ACK that released it starts the replay; an error or the timer ends it. |
| `StreamLifecycle.ReplayIsCompleted` | internal/tun/stream.go:702-704 | A whole replay opens the path, unless a failure was reported meanwhile, which ends the attempt. |
| `StreamLifecycle.NextRouteIsTried` | internal/tun/stream.go:679-711 | After a Resume attempt that failed at any stage the next candidate is tried, under yet another epoch. |
| `StreamTransfer.FirstIsTaken` | internal/tun/stream.go:733-758 | A batch starts from the overflow packet if there is one, else from the packet queued longest, in the wire format. |
| `StreamTransfer.BatchIsFilled` | internal/tun/stream.go:43-58 | While anything is queued the batch takes the next packet if it fits into 128 KiB and ends with it as overflow if not; it ends without overflow only when nothing is queued. |
| `StreamTransfer.PathIsAwaited` | internal/tun/stream.go:760-765 | The writer notes the current ready channel and goes on once that channel is closed. |
| `StreamTransfer.PayloadIsOffered` | internal/tun/stream.go:766-799 | A payload is accepted exactly on a ready path whose window has room for it, at lastSent, for the current session and epoch; otherwise it stays pending. |
| `StreamTransfer.WindowIsKept` | internal/tun/stream.go:161-172 | No payload is accepted beyond the window: lastSent - lastAck is at most the window whenever one was. |
| `StreamTransfer.WaitIsOver` | internal/tun/stream.go:784-791 | A writer waiting for credit goes on at a token, which it takes, or its timer, and fills its batch unless it holds an overflow packet. |
| `StreamTransfer.WriterGoesOn` | internal/tun/stream.go:745-797 | After a report the writer goes on with that detector reset; a closed port stops it wherever it waits. |
| `StreamDetection.StallIsDetected` | internal/tun/stream.go:771-783 | In every run the window-full detector fires exactly when the samples since a payload was accepted, or the path moved, end in identical ones that span the timeout. |
| `StreamDetection.IdleStallIsDetected` | internal/tun/stream.go:741-754 | And the idle detector for the samples that had data outstanding. |
| `StreamDetection.DetectorsHold` | internal/tun/stream.go:808-830 | In every state each detector holds what the samples since it last started afresh make it hold. |
| `StreamDetection.FullIsSampled` | internal/tun/stream.go:180-187 | A full window is sampled on the path whose offer failed; if the path moved on the detector starts afresh. |
| `StreamDetection.IdleIsSampled` | internal/tun/stream.go:174-178 | Between batches the path is sampled with whether data is outstanding on it. |
| `StreamTheorems.RunMonotone` | internal/tun/stream.go:303-354 | Epoch, lastAck, lastSent, the accepted payloads, the clock and the closed ready channels never go back along a run, across any number of Resume attempts. |
| `StreamTheorems.LateAckIgnored` | internal/tun/stream.go:331-336 | Once its epoch is over, an ACK changes nothing at whatever later step it arrives; nor does one of another route or stream. |
| `StreamTheorems.NoDataWhileResuming` | internal/tun/stream.go:303-370 | No step whatever creates a Data frame between beginResume and completeResume. |
| `StreamTheorems.ReplayOrder` | internal/tun/stream.go:683-704 | Every Data frame of the current epoch on the wire travels on the current route and is among those issued under the epoch, which are consecutive payloads from exactly the Resume frame's offset and reach lastSent whenever the path is ready. |
| `StreamTheorems.NewDataFollows` | internal/tun/stream.go:161-172 | A payload is accepted by no step but the writer's offer on a ready path; its frame continues at lastSent under the current epoch and route, and extends what the epoch has sent. |
| `StreamReplay.ReplayRestoresExactly` | internal/tun/stream.go:697-704 | The frames of the current epoch, arriving in order, bring a receiver that took the epoch's Resume up to date if and only if the Resume offset is not past what it had delivered. |
| `StreamReplay.ReplayRestores` | internal/tun/stream.go:667-715 | After a whole replay the receiver of a stream that was never re-created has written every packet the sender accepted. |
| `StreamReplay.FeedReaches` | internal/tun/stream.go:1052-1068 | Replayed frames already delivered are skipped, the rest delivered in order, and a receiver behind the first one delivers none. |
| `StreamTheorems.JustifiedActivation` | internal/tun/stream.go:1037-1044 | Every activation of a path is either an OpenAck matching the stream's ID, the target session and epoch 1, of an Open this stream sent, or the end of a whole replay whose attempt got an ACK of this stream matching session and epoch, with the receiver at that epoch, no send error and no failure recorded; whatever other streams send. |
| `StreamTheorems.AbandonedOpenIgnored` | internal/tun/stream.go:558-592 | While an Open is being sent and while its answer is awaited, an OpenAck on the session of an abandoned candidate changes nothing, and one of another stream never does. |
| `StreamCandidates.TransientStreamSessions` | internal/tun/stream.go:455-469 | The candidates are exactly the usable sessions, each once, in the order of first report. |
| `StreamCandidates.NoneTwice` | internal/tun/stream.go:457-467 | First reports name pairwise different sessions. |
| `StreamTheorems.NoLostPathLoss` | internal/tun/stream.go:603-635 | Whenever the lifecycle is parked and the path is not ready, a loss token is buffered or a signaller is about to leave one; the signaller's step leaves it, and taking it starts recovery. |
| `StreamTheorems.ReadinessGate` | internal/tun/stream.go:189-271 | The path is ready exactly while the current ready channel is closed, and a step closes no channel but the current, open one. |
| `StreamTheorems.WriterNeverStranded` | internal/tun/stream.go:760-769 | The channel a waiting writer holds is the current one or already closed, and is closed whenever the path is ready. |
| `StreamTheorems.NoLostCredit` | internal/tun/stream.go:331-354 | A writer waiting for credit has a wake token as soon as its payload fits, whether an ACK's offset, its window or both made the room, and whenever an ACK since it found the window full moved lastAck or changed the window at all. |
| `StreamTheorems.FullWindowIsOutstanding` | internal/tun/stream.go:771-782 | While the sender's window is at least one frame, window-full implies unacknowledged data. |
| `StreamTheorems.AlwaysInv` | internal/tun/stream.go:511-806 | The invariant holds in every state of every run. |
| `StreamEnvSteps.EnvKeeps` | internal/tun/stream.go:954-1116 | Every callback of the SDK reader, failure report and signal keeps the invariant. |
| `StreamLifeSteps.LifeKeeps` | internal/tun/stream.go:511-715 | Every step of opening, recovery and replay keeps the invariant. |
| `StreamWriterSteps.WriterKeeps` | internal/tun/stream.go:717-806 | Every step of the writer keeps the invariant. |
| `StreamRemoteSteps.RemoteKeeps` | internal/tun/stream.go:844-932 | Every step of the remote process and its ACK writers keeps the invariant. |
| `StreamEffects.StepOpens` | internal/tun/stream.go:189-370 | No step but a matching OpenAck and a completed replay opens the path; those two close exactly the current channel, and a payload is accepted only on a ready path. |
| `StreamStall.StallIsReal` | internal/tun/stream.go:771-782 | A path failed by the window-full detector had constant epoch and lastAck over a whole interval of at least the timeout, and data outstanding throughout if the window it last found full was at least one frame. |
| `StreamStall.IdleStallIsReal` | internal/tun/stream.go:741-753 | A path failed by the idle detector had constant epoch and lastAck, and data outstanding, throughout an interval of at least the timeout. |
| `StallDetector.FiresExactly` | internal/tun/stream.go:816-830 | A sample fires if and only if it extends a trailing run of identical samples, since the last reset, that spans at least the timeout. |
| `StallDetector.StreamWindowStall.ObserveSample` | internal/tun/stream.go:816-826 | The detector object computes exactly the specified firing and memory. |
| `StallDetector.StreamWindowStall.Reset` | internal/tun/stream.go:828-830 | Reset forgets the run of samples. |
| `StreamPath.AttemptsKeep` | internal/tun/stream.go:189-208 | Beginning and completing attempts keep the gate and the counters consistent. |
| `StreamPath.LossesKeep` | internal/tun/stream.go:209-271 | Every way to lose a path keeps the gate and the counters consistent. |
| `StreamPath.AcknowledgeKeeps` | internal/tun/stream.go:331-354 | An acknowledgement keeps lastAck and lastSent equal to the sender's own bounds. |
| `StreamPath.GateClosedOnce` | internal/tun/stream.go:199-208 | Both places that close a ready channel close an open one. |
| `StreamPath.OpenBegins` | internal/tun/stream.go:189-198 | Beginning an Open shuts the path on a new, open channel, for the session, without a failure. |
| `StreamPath.OpenAckAccepted` | internal/tun/stream.go:199-208 | A matching OpenAck closes exactly the current channel and makes the path ready; another changes nothing. |
| `StreamPath.FailureFails` | internal/tun/stream.go:209-228 | A failure of the current session and epoch shuts a ready path on a new, open channel, or is noted for the attempt; another changes nothing. |
| `StreamPath.StallFails` | internal/tun/stream.go:230-249 | So does a stall whose sampled ack and window are still current. |
| `StreamPath.DownFails` | internal/tun/stream.go:255-271 | So does a loss of the transport, where only an error is noted for an attempt. |
| `StreamPath.ResumeBegins` | internal/tun/stream.go:303-315 | Beginning a Resume moves session and epoch, shuts the path and arms the attempt without token or failure. |
| `StreamPath.AckCredits` | internal/tun/stream.go:331-354 | An ACK of the current session and epoch for what was sent moves lastAck and window, wakes the writer and releases the attempt; another changes nothing. |
| `StreamPath.ResumeEnds` | internal/tun/stream.go:356-370 | A current, released attempt opens the path, or consumes its failure; another changes nothing. |
| `StreamPath.RestartAsks` | internal/tun/stream.go:371-387 | A restart is taken once, for another session only. |
| `StreamPath.DataGoes` | internal/tun/stream.go:161-172 | Only a ready path takes a payload, only one that fits the window, and its frame starts at lastSent. |
| `StreamPath.StreamPort.LosePath` | internal/tun/stream.go:215-227 | The shared end of every failure report: a ready path is shut and signalled, an attempt gets its error. |
| `StreamPath.StreamPort.DoBeginOpen` | internal/tun/stream.go:189-198 | Re-targets the port, with a fresh open channel and no recorded failure. |
| `StreamPath.StreamPort.DoAcceptOpenAck` | internal/tun/stream.go:199-208 | Opens the gate if and only if session and epoch match and the path is not ready. |
| `StreamPath.StreamPort.DoFailPath` | internal/tun/stream.go:209-228 | A matching failure shuts and signals a ready path, or is recorded for the attempt; others change nothing. |
| `StreamPath.StreamPort.DoFailPathIfAckUnchanged` | internal/tun/stream.go:230-249 | The same, only while ack and window are as sampled. |
| `StreamPath.StreamPort.DoMarkPathLost` | internal/tun/stream.go:255-271 | Shuts and signals a ready path; an error is recorded for a running attempt. |
| `StreamPath.StreamPort.DoBeginResume` | internal/tun/stream.go:303-315 | Starts an attempt under the new epoch with the gate shut and returns the acknowledged offset. |
| `StreamPath.StreamPort.DoAcknowledge` | internal/tun/stream.go:331-354 | A matching, accepted ACK advances the sender and the counters, wakes the writer and releases the attempt once; others change nothing. |
| `StreamPath.StreamPort.DoCompleteResume` | internal/tun/stream.go:356-370 | Opens the gate if and only if the attempt is current, released and unfailed; a recorded failure is consumed. |
| `StreamPath.StreamPort.DoRequestRestart` | internal/tun/stream.go:371-387 | Restart is granted once, for another session only, and closes the port. |
| `StreamPath.StreamPort.DoResumeSender` | internal/tun/stream.go:685 | The sender moves to the new epoch and returns what it retains, or refuses and changes nothing. |
| `StreamPath.StreamPort.DoDataForReadyPath` | internal/tun/stream.go:161-172 | Session, frame and lastSent belong to one section; a not-ready path or a full window changes nothing. |
| `StreamSdk.DataRetains` | internal/tun/stream_test.go:1413-1422 | Data appends exactly its payload to what is retained, at the sent end. |
| `StreamSdk.AcknowledgeRetains` | internal/tun/stream_test.go:436-462 | Acknowledging a boundary retains exactly the later payloads. |
| `StreamSdk.ResumeReplays` | internal/tun/stream_test.go:388-408 | Resuming at the acknowledged offset replays every unacknowledged payload, contiguously, under the new epoch. |
| `StreamSdk.StreamSenderState.Data` | internal/tun/stream_test.go:1413-1422 | The sender object meets the Data contract, window-full included. |
| `StreamSdk.StreamSenderState.Acknowledge` | internal/tun/stream_test.go:436-462 | The sender object meets the Acknowledge contract, rejections included. |
| `StreamSdk.StreamSenderState.Resume` | internal/tun/stream_test.go:388-408 | The sender object meets the Resume contract. |
| `StreamReceiver.NoLostWake` | internal/tun/stream.go:847-917 | A parked ACK goroutine with an ACK to write or a stop to see has a wake token. |
| `StreamReceiver.EmittedInOrder` | internal/tun/stream.go:885-917 | The ACKs it writes are a subsequence of the queued ones; epochs and offsets never go back. |
| `StreamReceiver.QuiescentMeansAcknowledged` | internal/tun/stream.go:847-917 | At quiescence everything delivered is acknowledged: the newest queued ACK names the offset reached, and was written, or the Resume ACK that replaced it covers it. |
| `StreamReceiver.StoppedForGood` | internal/tun/stream.go:872-898 | After a stop nothing is queued or taken; at most the ACK already in hand is written. |
| `StreamReceiver.OffsetNeverRewinds` | internal/tun/stream.go:1045-1106 | Whatever arrives, the delivered offset, the epoch and the accepted payloads only grow. |
| `StreamReceiver.AlwaysOk` | internal/tun/stream.go:844-932 | The receiver's invariant holds after every sequence of events. |
| `StreamReceiver.ReceiverObject.Queue` | internal/tun/stream.go:847-862 | Queues the newest ACK, starts the goroutine once and leaves a token, unless stopped. |
| `StreamReceiver.ReceiverObject.Stop` | internal/tun/stream.go:872-883 | Stops for good, drops the pending ACK and wakes a running goroutine. |
| `StreamReceiver.ReceiverObject.DropPendingAck` | internal/tun/stream.go:866-870 | Drops the unsent ACK in favour of a Resume ACK that covers it. |
| `StreamReceiver.ReceiverObject.TakeAck` | internal/tun/stream.go:885-897 | Takes the pending ACK, or reports none, or reports the stop. |
| `StreamReceiver.ReceiverObject.AckRound` | internal/tun/stream.go:899-917 | One undisturbed wake-up writes exactly the pending ACK on the current session and parks, or exits when stopped. |
| `StreamReceiver.ReceiverObject.HandleData` | internal/tun/stream.go:1052-1068 | Delivers a frame exactly at the next offset of the current epoch and queues the cumulative ACK. |
| `StreamReceiver.ReceiverObject.HandleResume` | internal/tun/stream.go:1080-1105 | An accepted Resume moves epoch and session, never the offset, drops the unsent ACK and answers at once, on the Resume's session. |
| `StreamReceiver.ReceiverObject.SetTargetSession` | internal/tun/stream.go:925-932 | The session is the new target; a zero session is ignored. |
| `StreamRegistry.RegistryAlwaysOk` | internal/tun/stream.go:1003-1115 | Over any sequence of Open, Data, Resume and Close frames there is one live receiver per peer, and every removed one is stopped with nothing pending. |
| `StreamRegistry.LiveNeverRewinds` | internal/tun/stream.go:1013-1019 | While an ID stays registered, nothing, and no repeated Open, rewinds what it delivered. |
| `StreamRegistry.ReceiverTable.Retire` | internal/tun/stream.go:1007-1012 | Removes one receiver and stops it. |
| `StreamRegistry.ReceiverTable.RetireOthers` | internal/tun/stream.go:1007-1012 | In any map order, exactly the sender's other receivers are removed and stopped, the rest untouched. |
| `StreamRegistry.ReceiverTable.Register` | internal/tun/stream.go:1013-1019 | Creates the receiver at offset 0 or re-targets the live one. |
| `StreamRegistry.ReceiverTable.HandleOpen` | internal/tun/stream.go:1004-1036 | The whole effect of an Open on the table, and its OpenAck. |
| `StreamRegistry.ReceiverTable.WritePayload` | internal/tun/stream.go:1059-1065 | Writes the packets of a batch in order, or the payload itself. |
| `StreamRegistry.ReceiverTable.HandleData` | internal/tun/stream.go:1045-1068 | Exactly the packets of a delivered payload reach the TUN device; an unknown ID does nothing. |
| `StreamRegistry.ReceiverTable.HandleResume` | internal/tun/stream.go:1076-1106 | Answers only known IDs, with the receiver's own offset on its new session. |
| `StreamRegistry.ReceiverTable.HandleClose` | internal/tun/stream.go:1107-1115 | Removes and stops exactly the receiver named. |
| `StreamPeer.ArrivalMatches` | internal/tun/stream.go:998-1116 | Any frame of the sender, of this stream or another, takes the receiver table and the step system to matching states; a receiver it removes is stopped and kept among the removed ones alike in both. |
| `StreamCodec.RoundTrip` | internal/tun/stream.go:26-109 | Decoding the fold of appends returns the packets. |
| `StreamCodec.DecodeInjective` | internal/tun/stream.go:91-109 | An in-bound frame that decodes re-encodes to the identical bytes. |
| `StreamCodec.DecodesExactly` | internal/tun/stream.go:26-109 | A payload decodes to these packets if and only if it is "TP" followed by them, one or more of 1 to 65535 bytes, each behind its length in two bytes, high byte first. |
| `StreamCodec.AppendKeepsBatch` | internal/tun/stream.go:26-35 | A successful append keeps the bound and adds exactly its packet. |
| `StreamCodec.AppendStreamBatch` | internal/tun/stream.go:43-58 | Absorbs a queue prefix in order until nothing is queued or a packet does not fit into 128 KiB; a raw payload is left alone. |
| `StreamCodec.EncodeStreamBatch` | internal/tun/stream.go:60-89 | The batch, then the overflow packet, then the queue are what was queued, in order. |
| `StreamCodec.DecodeStreamBatch` | internal/tun/stream.go:91-109 | The loop accepts exactly the well-formed non-empty batches and returns their packets. |
| `RelayCodec.RoundTrip` | internal/tun/batch.go:16-62 | A receiver whose limit covers the packets decodes exactly those appended. |
| `RelayCodec.DecodeInjective` | internal/tun/batch.go:34-62 | A framed, in-bound batch that decodes cleanly re-encodes to the identical bytes. |
| `RelayCodec.DecodesExactly` | internal/tun/batch.go:16-62 | A frame decodes cleanly to these packets if and only if it is the magic followed by them, one or more within the limit, each behind its length in four bytes, high byte first; or, unframed, it is the one packet itself. |
| `RelayCodec.AppendKeepsBatch` | internal/tun/batch.go:16-32 | A successful append keeps the bound and adds exactly its packet. |
| `RelayCodec.DecodeTunBatch` | internal/tun/batch.go:34-62 | Every packet before the first malformed record or failed write reaches the sink, no other does, and the error is reported exactly then. |
| `RelayCodec.ReadRecord` | internal/tun/batch.go:44-51 | A malformed record ends the packets of the frame there, uncleanly; a good one is the next packet of the frame. |
| `RelayCodec.DecodeRecords` | internal/tun/batch.go:41-61 | The loop over the records of a framed batch does so. |
| `RelayWriter.WriteRelayLoop` | internal/tun/runtime.go:352-400 | For every sequence of select outcomes, the packets of sent batches, the unsent batch and the carry-over packet are the dequeued packets minus only those the format cannot carry; every sent batch decodes and is at most 128 KiB, was sent only when full, refusing a packet or timed out, and holds every packet that arrived since its first; nothing is taken after the port closed. |
| `RelayWriter.WriteRound` | internal/tun/runtime.go:354-399 | One round conserves packets and either uses an event or drops a carry-over that no batch can carry. |
| `RelayWriter.NextFirst` | internal/tun/runtime.go:355-361 | The first packet of a batch is the carry-over, else what the queue yields, unless the port is closed. |
| `RelayWriter.SendBatch` | internal/tun/runtime.go:362-397 | A batch is sent exactly when it is complete, with every packet that arrived since its first; it is kept unsent when the port closes or the send fails. |
| `RelayWriter.Collect` | internal/tun/runtime.go:370-386 | Collecting conserves packets, takes every packet that arrives, and stops only at a full batch, a packet that does not fit, the timer, the closed port or the last event. |
| `RelayWriter.AbsorbKeeps` | internal/tun/runtime.go:376-382 | A refused packet becomes the carry-over, an accepted one the last of the batch. |
| `RelayWriter.StartKeeps` | internal/tun/runtime.go:362-368 | A packet is dropped at the start of a batch exactly when the format cannot carry it. |
| `RelayRegistry.LessByPosition` | internal/tun/runtime.go:316-319 | The order of relay IDs: a proper prefix is less, else the first difference decides. |
| `RelayRegistry.Play` | internal/tun/runtime.go:298-351 | A table that goes through any history of registrations, closes and stale closes has, for every user, the live connection with the least relay ID as outbound port, and none exactly when none is live. |
| `RelayRegistry.OutboundIsLeastLive` | internal/tun/runtime.go:316-319 | An index that is least over the nested connection maps is least over what is live by the history. |
| `RelayRegistry.StaleCloseKeeps` | internal/tun/runtime.go:331-336 | Closing a connection that is not live removes nothing. |
| `RelayRegistry.IndexUnique` | internal/tun/runtime.go:340-348 | The index is determined by the live connections, so no map iteration order can show. |
| `RelayRegistry.HistoryAgrees` | internal/tun/runtime.go:298-351 | The nested connection maps hold exactly the connections that are live by the history. |
| `RelayRegistry.PortTable.RegisterPort` | internal/tun/runtime.go:298-326 | Keeps the index least; a relay ID in use closes the newcomer and changes nothing else. |
| `RelayRegistry.PortTable.SelectLeast` | internal/tun/runtime.go:342-347 | The scan finds the least connection in any order, and none only when there is none. |
| `RelayRegistry.PortTable.UnregisterPort` | internal/tun/runtime.go:331-351 | Removes exactly the connection that closed and keeps the index least. |
| `RouteTable.RoutedByLongestPrefix` | internal/tun/route.go:15-45 | A packet goes to the peer of the longest configured route containing its destination, earliest configured on ties, and to nobody exactly when there is no such route; unless IPv4-mapped routes shadow the address this is the longest match of RFC 4632, section 5.1. |
| `RouteTable.RoutedToItsPeer` | internal/tun/route.go:15-45 | From the configured peers to the answer: a packet goes to the peer that configured the longest route containing its destination, the first one on ties, and to nobody exactly when no peer configured one. |
| `RouteTable.ConfiguredAt` | internal/tun/route.go:17-26 | Route j of peer i stands, with that peer, behind the routes of all earlier peers and its own earlier ones. |
| `RouteTable.ConfiguredFrom` | internal/tun/route.go:17-26 | The table has no other routes. |
| `RouteTable.LongestMatchExactly` | internal/tun/route.go:27-43 | For any configuration and address, the scan finds the longest match if and only if not both: an IPv4-mapped route contains the address, and a plain route that contains it denotes a better network than every mapped one that does. |
| `RouteTable.MappedRouteShadows` | internal/tun/route.go:27-31 | ::ffff:0:0/96 takes 10.0.0.1 away from 10.0.0.0/8. |
| `RouteTable.FirstMatchIsBest` | internal/tun/route.go:27-45 | First match on the sorted table equals the best configured route, found without sorting. |
| `RouteTable.SortIsStable` | internal/tun/route.go:27-31 | The sort is longest first and keeps the routes of each length in configured order. |
| `RouteTable.ContainsIsPrefixMatch` | internal/tun/route.go:40 | Comparing under the mask is agreement of the first bits. |
| `RouteTable.ContainsInOneNotation` | internal/tun/route.go:40 | A route contains an address if and only if both are IPv4 or both IPv6 and the first bits agree in the 128-bit notation, whichever way either was written. |
| `RouteTable.BitsMakeByte` | internal/tun/route.go:40 | The eight bits compared make up the byte. |
| `RouteTable.LongestMatchUnique` | internal/tun/route.go:34-45 | The longest match is one route. |
| `RouteTable.NewRouteTable` | internal/tun/route.go:15-33 | The first unparsable route is reported; otherwise the table is all routes in configured order, stably sorted. |
| `RouteTable.Table.Lookup` | internal/tun/route.go:34-45 | The scan returns the first route that contains the destination. |
| `RouteTable.PacketDestination` | internal/tun/route.go:46-63 | Exactly the packets of version 4 with 20 bytes and of version 6 with 40 have a destination, the header's destination field. |
| `TunReader.ArrivesAsItself` | internal/tun/stream.go:1059-1065 | From TUN read to TUN write an admitted packet arrives as itself, raw or in a batch, over either path. |
| `TunReader.RoutableIsUnframed` | internal/tun/route.go:46-63 | A routable packet is a batch to neither decoder. |
| `TunReader.BatchIsUnroutable` | internal/tun/batch.go:35-40 | A batch has no destination. |
| `TunReader.QueueExactly` | internal/tun/runtime.go:232-249 | What is queued for a packet, and where, and exactly when nothing is. |
| `TunReader.QueueOne` | internal/tun/runtime.go:232-249 | A packet of allowed size whose destination has a peer goes to that peer's stream whenever that takes it, to its Relay only when the stream does not and the Relay does; any other is skipped. |
| `TunReader.ReadTunLoop` | internal/tun/runtime.go:223-251 | Every admitted packet is queued at most once, on the stream first, in reading order; others are skipped. |
| `LeaseProtocol.Exclusive` | internal/tun/kvclient.go:143-178 | Over every interleaving of scans, lost answers, late transactions, renewals and releases that take no other process's unexpired lease, no address is granted to two processes while the first grant is unexpired. |
| `LeaseExclusivity.NeverSharedExactly` | internal/tun/kvclient.go:125-178 | In every reachable state: no continuation in which nobody's unexpired lease is taken by a renewal or release ever has two processes entitled to one address, if and only if every entitled process finds its own record in the store. |
| `LeaseProgress.ScanFindsLowest` | internal/tun/kvclient.go:157-176 | From every reachable state an undisturbed scan is granted the lowest free address of its pool, past every address that is taken, and nobody else loses a record. |
| `LeaseProgress.ScanFindsNothing` | internal/tun/kvclient.go:157-177 | In a pool without a free address it fails and writes nothing. |
| `LeaseProgress.ReleaseFrees` | internal/tun/dynamic.go:28-45 | An undisturbed release removes the record, whether or not a renewal was under way. |
| `LeaseProgress.StoreChangesByCommits` | internal/tun/kvclient.go:125-178 | In every run the store changes only when it executes a request whose record is still there, by exactly the lease or the removal asked for, and each request is told whether it was. |
| `LeaseProgress.ClaimDecides` | internal/tun/kvclient.go:173-176 | A granted claim is used; a refused or unanswered one sends the scan to the next address, or ends it at the last. |
| `LeaseProtocol.BackedExactly` | internal/tun/kvclient.go:125-142 | In every run, every entitled process finds its own record up to a state if and only if no renewal or release that committed before it had read a record of another owner that was still unexpired. |
| `LeaseProtocol.TimelyExclusive` | internal/tun/kvclient.go:143-178 | Exclusivity in every run whose renewals and releases commit before their holder's recorded expiry. |
| `LeaseProtocol.TimelyStealsNothing` | internal/tun/dynamic.go:28-45 | Such a run takes no other process's unexpired lease. |
| `LeaseProtocol.ClaimsOnlyFree` | internal/tun/kvclient.go:157-176 | In any run whatever, a claim that commits replaces no unexpired record. |
| `LeaseProtocol.CommitKeepsBackedExactly` | internal/tun/kvclient.go:125-142 | A committing renewal or release keeps every entitled process's record in the store if and only if the record it read is its own, unreadable or expired. |
| `LeaseProtocol.StolenFrom` | internal/tun/kvclient.go:125-142 | The record read belongs to another, unexpired owner exactly when another process is entitled to the address. |
| `LeaseProtocol.LateRenewalShares` | internal/tun/kvclient.go:125-142 | A run with a late renewal ends with two unexpired users of one address. |
| `LeaseProtocol.RenewalTakesOver` | internal/tun/kvclient.go:125-142 | A renewal takes the record over, whoever it belongs to by then. |
| `LeaseProtocol.FreeAddressGranted` | internal/tun/kvclient.go:157-176 | An undisturbed scan of a free address is granted it, and nobody else loses a record. |
| `LeaseProtocol.AlwaysBacked` | internal/tun/dynamic.go:28-45 | In every timely run an entitled process finds exactly its own record in the store. |
| `LeaseProtocol.AlwaysSound` | internal/tun/kvclient.go:125-178 | In every run, what a claim compares with was free when it was read, a revision names one record, and a process uses only what it recorded. |
| `LeaseStore.Acquire` | internal/tun/kvclient.go:143-178 | The scan takes the lowest free, writable address of the pool, changes nothing else, fails as the source does, and terminates although its counter wraps at 32 bits. |
| `LeaseStore.ScanPool` | internal/tun/kvclient.go:157-177 | The loop over plain addresses does so without its counter ever wrapping, given an end below the largest 32-bit number. |
| `LeaseStore.TryAddress` | internal/tun/kvclient.go:158-175 | One address is skipped when occupied or unwritable, written when free, and ends the scan when it cannot be read. |
| `LeaseStore.ParsedKey` | internal/tun/kvclient.go:179-185 | A parsed address keeps the end of a pool below the largest 32-bit number, and its key is the text it was written as. |
| `LeaseStore.KeyInjective` | internal/tun/kvclient.go:158 | Different addresses have different keys. |

## Left out

- The turntf SDK itself, WebSocket transport, delivery modes and authentication; only the two state contracts above and an adversarial network are modelled.
- `runStream`, `recoverStream`, `writeStreamLoop` and `ackLoop` as single methods: they run concurrently, so each is a machine of atomic steps (`StreamSystem`); the sequential loops inside them (batching, ACK round, scans) are methods.
- `streamLoop`, `runPeer`, the Relay dial and accept loops, and the choice of transport mode: a stream is modelled from its first Open attempt to its end, and a rebuilt stream is a new run.
- `preferredStreams`: which candidates a round tries is left to the environment, so every preference is covered.
- Effects of the reverse direction (a peer's Open or Resume marking our own path lost or asking for a restart) are environment steps that may happen at any time.
- Real time, tickers, contexts and timers: a clock and steps that may fire at any moment. Liveness that depends on the peer or the network is not claimed; wake-ups are stated as safety invariants.
- The branch of `encodeStreamBatch` for a positive batch wait: the constant is 0.
- Failing TUN writes on the stream path: the source ignores their errors; packets count as written when handed to the device.
- `closePorts`, `markAllStreamPathsLost` over several ports, and the activation map: one port is modelled; each effect on it is an environment step.
- Log-once guards, `relayKindName`, `shouldDial`, configuration defaults and validation, devices, netlink, HTTP, JSON, YAML and deployment files.
- Text parsing: CIDR texts and scanned address numbers enter as parsed values or as failures; keys are the four numbers in their text.
- Static overlay addresses, which take no lease, and `discoverOverlayPeers`.
- StreamTheorems.AckBetween: is the case of a receiver created once; `StreamLag.NeverLagsExactly` covers every reachable state.
- LeaseProtocol.Exclusive: needs that no renewal or release takes another's unexpired lease, because it fails otherwise; `LeaseProtocol.LateRenewalShares` is the run that shows it, `LeaseExclusivity.NeverSharedExactly` the exact statement about states.
- Receivers of other streams: an Open of another stream removes this stream's receiver and creates its own, which is not followed further.
- TunReader.ReadTunLoop: takes the answers of the two queues as inputs; readiness and capacity of the stream queue are part of `StreamSystem`.
