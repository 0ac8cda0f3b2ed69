# Verified models of aliran's protocols and stores

This project models the parts of aliran whose correctness is hard to see by reading one function: loops raced by
events, a two-party handover on a public topic, crash-safe file replacement, reclaim and its disk budget, counters
shared by many requests, and a few codecs. Each module states what its source promises and proves it for every
input, every run or every reachable state.

`dafny verify dfyconfig.toml` checks all of it (Dafny 4.11).

## How the models are built

Code that runs between two awaits is one atomic step. Where the source is a closure or a class whose variables
change, the module has

- a `State` and a `Step` function: what each continuation, listener, timer or message does, and `Enabled`: when it
  can happen;
- lemmas about every step and every run of enabled steps, which are the results;
- a class with the source's own variables, whose methods perform the steps as the source writes them, branch by
  branch, and are proved to take the state exactly where `Step` takes it. So the results about runs are results
  about the methods.

Loops stay loops, with their invariants (`SettleLoop`, `ScanWindow`, `Walk`, `SliceDigest`, `BigToBytes`, and so on), and
are proved equal to a recursive function about which the properties are proved.

| module | models | main results |
|---|---|---|
| `BeeWatch` | core/bee-watch.js | no lost change, a broken watch is retried, progress after fork and close, exactly what is reported |
| `SigninWire`, `SigninReceiver`, `SigninSender`, `SigninHandover` | sdk/signin-pair.js over core/remote.js | order and uniqueness in both roles, only a yes goes on, what ends either role, settling in time, equal digits mean one connection, an honest exchange completes among strangers |
| `HolePunchProbe` | sdk/serve.js, the capability probe | soundness over every storage, completeness on an honest one, exactly when there is a verdict |
| `ReclaimPass` | sdk/serve.js, one reclaim pass | what a playlist lists, wanted blocks stay, exactly the rest goes |
| `ReclaimBudget` | sdk/serve.js, class Reclaim | healthy replicas are left alone, every pass is judged as it should be, spacing, bounded probes, late verdicts |
| `InFlightReads`, `PumpStream` | sdk/serve.js, requests and piping | exactly when the count is the promised one, slots return once, capped prefix, how a piping ends |
| `AtomicReplace` | core/atomic-write.js | nothing torn over any runs of writes and crashes |
| `CatalogFanout` | sdk/login.js | the fan-out ends and is the serial loop |
| `TemplateRedaction` | core/config-snapshot.js | exactly what survives, idempotence |
| `EgressRollup` | broadcaster/src/analytics.js | conservation up to failed writes, in memory, on disk and over restarts, never more than sent |
| `RemoteStatus` | sdk/remote-control.js | convergence under throttling, whose playhead is sent, shared topics |
| `PairingCode`, `ObliviousPrf` | core/pairing.js, core/oprf.js | the codec is a bijection, blinded evaluation is direct evaluation (section 3.3.1 of RFC 9497) |
| `Arithmetic`, `BigEndian`, `JsText`, `MapSums`, `Wrappers` | shared helpers | |

## Where the code and its documentation part

- `SigninReceiver.PayloadAcceptedIff`: the receiving role accepts and reports a second payload until the deferred
  finish runs; the first one is what the handover resolves with (sdk/signin-pair.js:784-794).
- `ReclaimBudget.LateVerdictIff`: the comment at sdk/serve.js:527-531 says that once the store is proved able to punch
  nothing is measured and the host is never called. A check that passed the gate before still measures and can
  still report; the lemma gives the exact condition, and `LateCheckHappens` a run from the start that meets it.
- `AtomicReplace.ResultingMode`: step 3 of the recipe (core/atomic-write.js:30-32) says a stale temp file cannot carry a
  looser mode into the live path. The chmod's own failure is swallowed (line 129), and then it can; the lemma gives
  the exact condition. `AtomicReplace.UnsyncedReplaceTears` makes the header's warning about `fsync: false` precise.
- `EgressRollup.ConservedIff`: when writing the day's file throws, the hour is already merged in memory while the
  bucket stays full, so the next roll counts it again (broadcaster/src/analytics.js:152-169). `RollupConserves` is over
  runs with such failures; a channel's record is conserved exactly when each of them found none of its bytes in
  the bucket, and `RetriedReduceDoubles` is a run where one did.
- `InFlightReads.CountIsUnfinishedIff`: sdk/serve.js:1610-1640 promises that the count is of every unfinished request
  bound to the drive. A client that hangs up while its request waits for an entry is no longer counted, but the
  request goes on and may be piped (`HungUpReaderIsNotCounted`); the promise holds exactly when no such request is left.
- `ReclaimPass.ListedSegmentsStayIff`: a listed segment whose entry has not reached the replica does not hold the floor
  down, and its blocks are cleared if they lie below it (`MissingSegmentIsLost`); the lemma gives the exact condition.
- `TemplateRedaction`: deleting an array's item leaves a hole that the next JSON copy turns into null; the second pass
  deletes (and counts) it again, `HolesAreHitAgain`, and ends with the same tree, `TemplateTwiceIsOnce`.
- core/pairing.js:92 says the accumulator never holds more than 20 bits. It is never masked and overflows its 32-bit
  word; `PairingCode.OverflowIsAbove` is why that does no harm.

## What is assumed

- MACs and hashes are ideal: equal outputs come from equal inputs. Four digits are stood in for by the derivation
  they are drawn from, so a chance collision of digits is not modelled.
- Callbacks handed in by a host neither throw nor re-enter (except those of `BeeWatch`, which may throw or hang), and
  the injected sleep returns a promise.
- Timers fire when due and, except in `ReclaimBudget` and `EgressRollup` where any reading is allowed, the clock does
  not run backwards.
- Extending a file by truncation allocates nothing, as on a sparse file; a stat that answers reads the allocation
  exactly; and blocks charged above the 4 GiB line are released by a punch or a truncate only, never by themselves.
- The bee that `BeeWatch` watches has a core that emits events, so the truncate listener is registered at the start.
- Closes that `BeeWatch`'s loop awaits settle, and a closed watcher ends its iteration.
- A write of a day's file that throws leaves the old file, as an atomic replacement does; files can be pruned.
- A stranger on the sign-in topic does not hold the code. (What one that does can do is `HandoverInOrder`,
  `AccountLeavesInOrder` and `EqualDigitsMeanOneConnection`, which are about any peer.)

## Model

| member | source | states |
|---|---|---|
| `BeeWatch.NoLostChange` | core/bee-watch.js:158-219 | over every run: when the loop waits on a live watcher with nothing to yield, a callback that was not abandoned began after the latest change (from the first arm, or from the start with catchUp), and the watcher is not deaf |
| `BeeWatch.ForkAndCloseProgress` | core/bee-watch.js:158-234 | after a truncate or a close, six of the loop's own steps bring an attempt to arm (one whose bee.watch throws counts) or the exit, and a new watcher or the exit if no such attempt threw, whatever callbacks and sleeps do |
| `BeeWatch.NeverBlocked` | core/bee-watch.js:158-234 | after a truncate or a close a watcher still waited on has been closed, and one of the loop's own steps is enabled until it has exited |
| `BeeWatch.BrokenWatchIsRetried` | core/bee-watch.js:168-219 | with no fork and no close: once a watcher has thrown or ended or could not be had, four turns of the loop, ends of its sleep among them, bring a further attempt to arm or the exit; a turn can always be taken; and the end of the sleep takes the loop to its top |
| `BeeWatch.RearmCatchesUp` | core/bee-watch.js:180-203 | an arm that succeeds watches from the version there is and, unless it is the very first without catchUp, begins a callback later than every change so far |
| `BeeWatch.LeavesOnlyWhenAsked` | core/bee-watch.js:122-124 | the loop leaves only after a close or a stop |
| `BeeWatch.ChangesAreOwed` | core/bee-watch.js:47-72 | an append or a truncate is owed a callback from the first arm on, or always with catchUp, and nothing else is |
| `BeeWatch.AppendIsCalledBack` | core/bee-watch.js:204-211 | over any run an append noticed by a live watcher is yielded and begins a callback later than every change so far |
| `BeeWatch.CallbackComesBack` | core/bee-watch.js:149-156 | the loop goes back to its watcher when its callback settles, either way, or is given up, which it is exactly for a fork or a close |
| `BeeWatch.ReportsExactly` | core/bee-watch.js:134-156 | what is reported, exactly: outside a fork and before a close, a callback that throws without having been given up, a watcher that could not be had, and one that threw, once closed and if the loop goes on |
| `BeeWatch.TruncateInterrupts` | core/bee-watch.js:158-165 | a truncate that is heard marks the fork and the resync, closes the watcher, gives the callback up and wakes the sleep; one that is not changes only the bee |
| `BeeWatch.CloseInterrupts` | core/bee-watch.js:222-234 | a close does the same, takes the listener off and cannot be undone; a second one changes nothing |
| `BeeWatch.ExitLeavesNothing` | core/bee-watch.js:215-220 | over any run a loop that is leaving or has left holds no listener and no watcher |
| `BeeWatch.HostStopIsHeard` | core/bee-watch.js:122-124 | the host's stop is heard |
| `BeeWatch.CatchUpIsOwed` | core/bee-watch.js:90-121 | over any run with catchUp the watch never waits without having begun a callback |
| `BeeWatch.NoDelayNoSleep` | core/bee-watch.js:170-171 | without a retry delay the loop never sleeps |
| `BeeWatch.IterationEndsAs` | core/bee-watch.js:204-214 | a throw of the watcher is a failure of its iteration, and its end is not |
| `BeeWatch.ArmsArePaced` | core/bee-watch.js:168-178 | with a retry delay there are no more attempts to arm than one and the sleeps ended, truncates and closes |
| `BeeWatch.SilentAfterCloseAndFork` | core/bee-watch.js:134-136 | after close no callback begins and nothing is reported; between a truncate and the next arm nothing is reported |
| `BeeWatch.AbandonedNeverReported` | core/bee-watch.js:150-156 | a callback abandoned to a fork is never reported, before or after |
| `BeeWatch.StepInv` | core/bee-watch.js:109-234 | every step keeps: the closure variables hang together, no owed change is lost while the loop waits, reports name settled callbacks |
| `BeeWatch.StepNothingLost` | core/bee-watch.js:196-219 | one step cannot turn a covered or still-due change into a lost one |
| `BeeWatch.StepReportsHonest` | core/bee-watch.js:150-156 | a step reports only a callback that settled and was not abandoned |
| `BeeWatch.RunRank` | core/bee-watch.js:180-221 | along any run after a fork or close the number of own steps still needed only falls |
| `BeeWatch.RangeWatch.Append` | core/bee-watch.js:180-221 | an append moves the bee's version and owes a callback once armed or with catchUp |
| `BeeWatch.RangeWatch.Truncate` | core/bee-watch.js:158-166 | a truncate deafens the watcher and, while the listener is on, does what onTruncate does |
| `BeeWatch.RangeWatch.TruncateListener` | core/bee-watch.js:158-165 | forked and resync set, the fork signal fired, the watcher taken out and closed, the backoff woken |
| `BeeWatch.RangeWatch.Close` | core/bee-watch.js:223-234 | idempotent close: listener off, backoff woken, fork signal fired, watcher closed |
| `BeeWatch.RangeWatch.HostStop` | core/bee-watch.js:122-124 | the two stop conditions the handle does not own: the bee closing and shouldStop |
| `BeeWatch.RangeWatch.ReportError` | core/bee-watch.js:134-135 | a watch error is reported unless the watch is closed or forked |
| `BeeWatch.RangeWatch.SettleCall` | core/bee-watch.js:150-156 | a callback settles: its error is reported unless abandoned or quiet, and the loop goes on if it was waiting |
| `BeeWatch.RangeWatch.Abandon` | core/bee-watch.js:155 | the fork signal wins the race and the loop stops waiting for the callback |
| `BeeWatch.RangeWatch.Arm` | core/bee-watch.js:180-203 | one turn of the loop: stop, or clear the fork flag, re-arm the signal, watch, and resync after arming |
| `BeeWatch.RangeWatch.StartListening` | core/bee-watch.js:196-203 | the new watcher's baseline is the bee as it is, and the catch-up runs after the arm |
| `BeeWatch.RangeWatch.StartBackoff` | core/bee-watch.js:170-178 | no sleep when the delay is not positive, forked or stopped; otherwise a sleep that can be woken |
| `BeeWatch.RangeWatch.Yield` | core/bee-watch.js:205-206 | the watcher yields up to the current version |
| `BeeWatch.RangeWatch.ResumeTick` | core/bee-watch.js:205-211 | a tick leaves the iteration when stopped or replaced, and otherwise calls onChange |
| `BeeWatch.RangeWatch.FinishIteration` | core/bee-watch.js:212-214 | the iteration is over and its watcher is closed |
| `BeeWatch.RangeWatch.CloseSettled` | core/bee-watch.js:215-219 | a failure is reported, every re-arm resyncs, and the backoff follows |
| `BeeWatch.RangeWatch.LeaveLoop` | core/bee-watch.js:220-225 | the final block: listener off, a watcher still held is closed |
| `BeeWatch.RangeWatch.SleepEnds` | core/bee-watch.js:170-178 | a sleep that ends resumes the loop only if it was not woken before |
| `SigninWire.RemoteProofBinds` | core/remote.js:617-625 | mutual proofs are equal exactly when secret, transcript and role are: the transcript splits one way |
| `SigninWire.NonceCommitBinds` | core/remote.js:747-758 | nonce commitments are equal exactly when secret, transcript and nonce are |
| `SigninWire.PinProofBinds` | core/remote.js:931-933 | PIN proofs are equal exactly when secret, transcript, role and digits are |
| `SigninWire.SasBinds` | core/remote.js:800-817 | the compared digits' derivation is equal exactly when the transcript and both nonces are (same secret) |
| `SigninWire.KindsAreDisjoint` | core/remote.js:275-278 | no MAC of one kind is a MAC of another: the labels part before their ends |
| `SigninWire.ScreensAgree` | sdk/signin-pair.js:443-451 | two ends with opposite roles show the same digits exactly when they share one transcript and hold each other's nonces, whichever is the initiator |
| `SigninWire.NormalizedPayloadIsStable` | sdk/signin-pair.js:496-507 | a payload normalized by the phone is accepted unchanged by the television |
| `SigninWire.PayloadAcceptedIff` | sdk/signin-pair.js:496-507 | a payload is accepted exactly when its name is up to 64 word characters, dots, dashes and underscores, a word character first, and its keys are 32, 64 and 32 bytes of hex |
| `SigninWire.KeyCaseDoesNotMatter` | sdk/signin-pair.js:496-507 | payloads whose keys differ only in case come to the same one |
| `SigninReceiver.HandoverInOrder` | sdk/signin-pair.js:567-795 | over any sockets, messages, timers and hangups: the record is spent once and never unspent, at most one socket is claimed, and on it one commitment, one reveal, one PIN proof and then payloads come in that order; nothing is added once settled; a resolved handover carries the first payload received |
| `SigninReceiver.OneOfEach` | sdk/signin-pair.js:675-774 | at most one commitment, one reveal and one PIN proof are ever made, all on one socket |
| `SigninReceiver.PayloadAcceptedIff` | sdk/signin-pair.js:779-795 | a payload is accepted exactly when the handover is open, on the claimed socket, after the PIN proof, and well formed; a second one is accepted too until the deferred finish runs |
| `SigninReceiver.HelloClaimsIff` | sdk/signin-pair.js:654-693 | over any run a hello claims the code exactly when the handover is open, the hello readable and proven on a finished handshake, nobody claimed and the code neither used nor expired; what is then stored and replied; and otherwise which refusal, in the order of the tests |
| `SigninReceiver.NonceRevealedIff` | sdk/signin-pair.js:728-738 | the nonce is revealed exactly once, to the claimed peer, for a readable nonce; otherwise which refusal |
| `SigninReceiver.PinAskedIff` | sdk/signin-pair.js:758-774 | the request for the digits is taken exactly once, from the claimed peer, after the reveal; answered if digits wait, else held; otherwise which refusal |
| `SigninReceiver.HeldRequestIsAnswered` | sdk/signin-pair.js:766-774 | a held request is answered with the digits when they come and refused when the handover is over first |
| `SigninReceiver.DigitsWereTyped` | sdk/signin-pair.js:846-853 | over any run every digits held, answered with or proved were typed by the viewer |
| `SigninReceiver.SubmitIsTaken` | sdk/signin-pair.js:846-853 | digits are taken exactly when they are four, somebody is linked, no proof was sent and the handover is open |
| `SigninReceiver.EndsExactlyBy` | sdk/signin-pair.js:567-604 | an open handover ends exactly by a cancel, the deadline, the claimed socket closing, the ninth channel, or a finish or failure put off, and as what; then its record is spent, its channels closed and a held request let go |
| `SigninReceiver.NinthOpenBurns` | sdk/signin-pair.js:646-649 | over any run nine channels opened mean the handover is over |
| `SigninReceiver.ChannelsAreAsTold` | sdk/signin-pair.js:622-686 | a connection has a channel until it closes, fails the proof or the handover ends |
| `SigninReceiver.AbortIsHeard` | sdk/signin-pair.js:800-811 | the claimed phone's goodbye is put off as the failure it names, and anyone else's changes nothing |
| `SigninReceiver.PutOffIsDone` | sdk/signin-pair.js:787-810 | when the timers have run what was put off an open handover has ended as the first end put off |
| `SigninReceiver.SettlesInTime` | sdk/signin-pair.js:600-604 | a receiver still open is before its deadline, and past the code's expiry plus the PIN and payload windows it has settled |
| `SigninReceiver.DeadlineAlwaysComes` | sdk/signin-pair.js:820 | until it settles a deadline is armed, time can reach it, and it settles the handover |
| `SigninReceiver.CodeExpiresOnItsOwn` | sdk/signin-pair.js:815-820 | over any run, until a phone has claimed the code the deadline is the code's own expiry, or a millisecond on |
| `SigninReceiver.StepFollows` | sdk/signin-pair.js:567-620 | no step undoes a spent record, a claimed peer, an outcome or a milestone |
| `SigninReceiver.StepTrailOk` | sdk/signin-pair.js:654-795 | every step keeps the handover in order, with each milestone's evidence |
| `SigninReceiver.StepDeadlineOk` | sdk/signin-pair.js:600-604 | every step keeps a deadline armed and bounded by how far the handover has come |
| `SigninReceiver.StepOutcomeOk` | sdk/signin-pair.js:567-593 | every step keeps: the payload that will resolve the handover is the first one received |
| `SigninReceiver.StepOneChore` | sdk/signin-pair.js:787-810 | a step puts off at most one piece of work, a finish exactly when it receives a payload |
| `SigninReceiver.Receiver.Finish` | sdk/signin-pair.js:568-593 | the single exit: first outcome wins, the record is spent, a held PIN request is let go, channels are closed |
| `SigninReceiver.Receiver.TakeCode` | sdk/signin-pair.js:613-620 | the exclusion: busy if a peer is claimed, otherwise the code record is tested and spent in one step |
| `SigninReceiver.Receiver.Connection` | sdk/signin-pair.js:622-637 | a connection gets a channel unless the handover has settled |
| `SigninReceiver.Receiver.ChannelOpens` | sdk/signin-pair.js:646-649 | the ninth opened channel burns the code |
| `SigninReceiver.Receiver.SocketCloses` | sdk/signin-pair.js:637-686 | a closing socket drops its channel, and the claimed one ends the handover |
| `SigninReceiver.Receiver.SigninHello` | sdk/signin-pair.js:654-693 | settled, unreadable, unproven or without a handshake hash (channel dropped), refused, or claimed and committed, in that order of tests |
| `SigninReceiver.Receiver.CommitTo` | sdk/signin-pair.js:684-692 | the claimed peer is stored with a fresh nonce committed to it, and the deadline re-armed |
| `SigninReceiver.Receiver.SigninNonce` | sdk/signin-pair.js:728-738 | only the claimed peer, once, with a well-formed nonce: the digits are shown and the committed nonce revealed |
| `SigninReceiver.Receiver.SigninPin` | sdk/signin-pair.js:758-774 | only the claimed peer after the reveal, once; answered from parked digits or held open |
| `SigninReceiver.Receiver.SendPinProof` | sdk/signin-pair.js:769-773 | without digits or once settled it refuses; otherwise the one PIN proof is sent and the payload window armed |
| `SigninReceiver.Receiver.ResumePin` | sdk/signin-pair.js:766-773 | the held request is answered when the digits come or the handover ends |
| `SigninReceiver.Receiver.SigninPayload` | sdk/signin-pair.js:779-795 | settled, not the claimed peer, before the PIN proof, malformed, or received and finished on the next tick |
| `SigninReceiver.Receiver.SigninAbort` | sdk/signin-pair.js:800-811 | an abort of the claimed peer fails the handover on the next tick, with the reason it named or cancelled |
| `SigninReceiver.Receiver.EnterPin` | sdk/signin-pair.js:846-853 | digits are taken when four, when a peer is linked, before the proof is sent and before settling; unasked ones are parked, later ones replace them |
| `SigninReceiver.Receiver.GiveUp` | sdk/signin-pair.js:856 | cancelling rejects with cancelled |
| `SigninReceiver.Receiver.DeadlineExpires` | sdk/signin-pair.js:600-604 | the deadline rejects with expired before a peer linked and timeout after |
| `SigninReceiver.Receiver.RunNextChore` | sdk/signin-pair.js:670 | work put off to the next tick runs in order |
| `SigninSender.AccountLeavesInOrder` | sdk/signin-pair.js:975-1121 | over any number of concurrent attempts at most one passes the latch, the account leaves only as its fourth milestone with the evidence of the three before it, and nothing is undone or added once settled |
| `SigninSender.PaidOnce` | sdk/signin-pair.js:1104-1120 | the payload is sent at most once, on the latched socket, after a reveal that opens its commitment, an explicit yes, and a PIN proof for the digits drawn |
| `SigninSender.OnlyAYesGoesOn` | sdk/signin-pair.js:1062-1085 | over any run the digits are drawn, and so the account leaves, only if an event of the run is the viewer's yes, given while the comparison shown was pending |
| `SigninSender.ANoIsFinal` | sdk/signin-pair.js:1072-1081 | after a no to a pending comparison nothing more is shown, drawn or sent, whatever anyone does, and the handover can only fail, as a mismatch unless it is cancelled or the socket closes first |
| `SigninSender.EndsExactlyBy` | sdk/signin-pair.js:929-967 | an open handover ends exactly by a cancel, the link timer, the chosen socket closing, the ninth channel of the search, the answer to the payload or the end of a goodbye, and as what |
| `SigninSender.GoesOnOrParts` | sdk/signin-pair.js:1037-1110 | each reply of the exchange goes on with it exactly when it is what it should be, and else parts with its own reason |
| `SigninSender.LatchesIff` | sdk/signin-pair.js:993-1037 | an answer to the hello is latched onto exactly when nobody is chosen, nothing settled, and it proves the code on its own connection and commits to a nonce |
| `SigninSender.AnswerCounts` | sdk/signin-pair.js:1062-1072 | a pending comparison is answered by the viewer's own word, or by the timer as neither |
| `SigninSender.UnaskedAnswerIsIgnored` | sdk/signin-pair.js:1154-1160 | an answer to nothing asked changes nothing |
| `SigninSender.SocketIsTried` | sdk/signin-pair.js:975-993 | a socket that connects while nobody is chosen shakes hands and is then asked |
| `SigninSender.LateSocketIsNotTried` | sdk/signin-pair.js:1123-1131 | nobody is tried once somebody is chosen or it is over |
| `SigninSender.RefusalIsTold` | sdk/signin-pair.js:993-1006 | over any run the refusal worth reporting is the last that named the code's state, or else another version |
| `SigninSender.NinthOpenBurns` | sdk/signin-pair.js:987-990 | over any run nine channels opened mean the search is over |
| `SigninSender.SettlesInTime` | sdk/signin-pair.js:956-1072 | past start + timeoutMs + RPC_MS + matchMs + pinMs + the longer of payloadMs and ABORT_MS the sender has settled |
| `SigninSender.NeverStuck` | sdk/signin-pair.js:956-1120 | until it settles it can wait to its current limit and then take the step that is due |
| `SigninSender.StepInv` | sdk/signin-pair.js:975-1121 | every step keeps one attempt past the latch, the order and evidence of milestones, and the time bound |
| `SigninSender.AppendsKeepsTrailOk` | sdk/signin-pair.js:1017-1116 | adding one milestone with its evidence keeps the trail in order |
| `SigninSender.Sender.Finish` | sdk/signin-pair.js:929-949 | the single exit: first result wins and a pending comparison is let go |
| `SigninSender.Sender.Connection` | sdk/signin-pair.js:1123-1131 | a connection starts an attempt unless a peer is chosen or the handover settled |
| `SigninSender.Sender.Handshake` | sdk/signin-pair.js:975-978 | after the handshake an attempt goes on only if nobody is chosen and nothing settled |
| `SigninSender.Sender.ChannelOpens` | sdk/signin-pair.js:987-990 | the ninth channel opened before a peer is chosen burns the code |
| `SigninSender.Sender.AfterHello` | sdk/signin-pair.js:993-1015 | silence, another version, a named refusal, a bad or missing proof or commitment end the attempt; the refusal worth reporting is kept |
| `SigninSender.Sender.LatchOnto` | sdk/signin-pair.js:1017-1037 | the latch is tested and set in one step, and the own nonce goes out |
| `SigninSender.Sender.AfterNonce` | sdk/signin-pair.js:1037-1072 | silence, a refusal, a nonce that does not open the commitment end it; otherwise the digits are shown |
| `SigninSender.Sender.AnswerComparison` | sdk/signin-pair.js:1156-1161 | an answer counts once, while a comparison is pending and the handover open |
| `SigninSender.Sender.AfterComparison` | sdk/signin-pair.js:1072-1091 | only an explicit yes goes on to the digits; a no and a silence are told apart |
| `SigninSender.Sender.AfterPin` | sdk/signin-pair.js:1091-1116 | only a valid proof of the drawn digits lets the account go, and there is no second try |
| `SigninSender.Sender.AfterPayload` | sdk/signin-pair.js:1116-1120 | silence, a refusal or an acknowledgement settles the handover |
| `SigninSender.Sender.SayGoodbye` | sdk/signin-pair.js:1200-1202 | the reason is sent, bounded by ABORT_MS, before failing |
| `SigninSender.Sender.AfterGoodbye` | sdk/signin-pair.js:1048-1049 | after saying why, the handover fails with that reason |
| `SigninSender.Sender.LinkTimerFires` | sdk/signin-pair.js:956-967 | the search ends with the refusal worth reporting, or timeout |
| `SigninSender.Sender.SocketCloses` | sdk/signin-pair.js:1022-1024 | the chosen socket closing is a timeout |
| `SigninSender.Sender.GiveUp` | sdk/signin-pair.js:1164 | cancelling fails with cancelled |
| `SigninHandover.EqualDigitsMeanOneConnection` | sdk/signin-pair.js:675-1072 | over any runs of both roles on one code: once both screens show digits they agree exactly when the two hold the two ends of one connection and each other's nonces |
| `SigninHandover.HonestHandoverCompletes` | sdk/signin-pair.js:654-1120 | over every joint run in which the phone is answered with the television's own replies and the television hears what the phone holds, with any waits within the deadlines and any strangers' connections, hellos, messages and hangups in between: neither fails, both screens show the same digits, and both end with the account the phone sent |
| `SigninHandover.AnswersAreReplies` | sdk/signin-pair.js:692-794 | in every such run each reply the phone is given is the television's acceptance, with the proof, commitment or nonce it should carry |
| `SigninHandover.CanAlwaysComplete` | sdk/signin-pair.js:654-1120 | from every state such a run can reach, the devices having met and the code not expired unheard, both devices can still be brought to success |
| `SigninHandover.HandoverHappens` | sdk/signin-pair.js:654-1120 | a run of the whole handover exists for every code not expired, every role, nonce and digits |
| `SigninHandover.StepInv` | sdk/signin-pair.js:567-1072 | every step of the joint run keeps both roles where the exchange has brought them |
| `SigninHandover.TvAloneKeeps` | sdk/signin-pair.js:622-811 | nothing a stranger does to the television moves it off the exchange |
| `SigninHandover.PhoneAloneKeeps` | sdk/signin-pair.js:956-1000 | nothing a stranger does to the phone moves it off the exchange |
| `SigninHandover.NextAdvances` | sdk/signin-pair.js:654-1120 | the next step of the exchange is always enabled and brings its end nearer |
| `HolePunchProbe.CertifiedFreesAboveTheLine` | sdk/serve.js:1101-1117 | whatever calls fail, whatever a punch frees and however late blocks are charged, canPunch: true means the wide punch freed bytes above 2^32 |
| `HolePunchProbe.BrokenPunchNeverCertified` | sdk/serve.js:1151-1157 | a storage that truncates lengths modulo 2^32, frees nothing or rejects is never certified |
| `HolePunchProbe.VerdictsComeFromPunches` | sdk/serve.js:1008-1032 | a verdict is given exactly when a punch rejected or two stats around it were read; no other failure gives one, and canPunch exactly when neither punch fell short |
| `HolePunchProbe.VerdictIff` | sdk/serve.js:1008-1117 | on what happened alone, naming no part of the probe: "can punch" exactly when nothing threw or closed, the allocation settled, and both punches were measured and worked; "cannot" exactly when the first to go ahead and not work was rejected or measured |
| `HolePunchProbe.ReasonsAreTrue` | sdk/serve.js:1033-1263 | whatever reason the probe gives is what happened |
| `HolePunchProbe.HonestStoreCertified` | sdk/serve.js:1053-1117 | an honest storage whose allocation settles and that fails no call is certified |
| `HolePunchProbe.SettleLoop` | sdk/serve.js:1053-1070 | the polling loop computes its recursive meaning: a failure, a settled allocation, or the deadline |
| `HolePunchProbe.RunProbe` | sdk/serve.js:1033-1117 | the small stage step by step, and the wide one behind it |
| `HolePunchProbe.RunWideProbe` | sdk/serve.js:1177-1263 | the wide stage step by step: only the punch's own rejection or a measurement is a verdict |
| `HolePunchProbe.WideReadyIsLow` | sdk/serve.js:1197-1210 | before the wide punch less than half a hole is allocated below the line |
| `HolePunchProbe.WideReadyHonest` | sdk/serve.js:1197-1245 | on an honest storage the wide punch meets the whole block above the line |
| `AtomicReplace.NothingTornEver` | core/atomic-write.js:22-71 | over any number of synced writes, deaths of the process at any call and power losses losing any subset of unsynced state, from any stale temp file: the live path is what it was or a version whose rename was reached, whole and with its mode |
| `AtomicReplace.SyncedWriteSurvives` | core/atomic-write.js:66-69 | after a write that returned with its directory synced, that version or one renamed later is what is found, over any failures, deaths and crashes; exactly that one until another rename |
| `AtomicReplace.FailedReplaceLeavesTheOld` | core/atomic-write.js:125-138 | a call that fails leaves the live path as it was, at every step and after any crash |
| `AtomicReplace.ReturnedReplaceIsSafe` | core/atomic-write.js:22-37 | with fsync every disk the call passed through is crash safe, and the new version is in place |
| `AtomicReplace.ReturnsIffNothingFails` | core/atomic-write.js:118-142 | a call returns exactly when nothing up to the rename failed |
| `AtomicReplace.OffersItsData` | core/atomic-write.js:126-133 | what a call puts in place is the data it was given, and an opened temp file is empty whatever it held |
| `AtomicReplace.OffersAreAsked` | core/atomic-write.js:118-142 | every version a run may leave is the data of one of its calls |
| `AtomicReplace.LeavesNoTemp` | core/atomic-write.js:134-138 | no temp file is left by a return, nor by a failure whose clean-up works; a failed mkdir touches nothing |
| `AtomicReplace.DirectorySyncedIff` | core/atomic-write.js:98-142 | the directory is made durable exactly at the end of a return with fsync whose directory sync works |
| `AtomicReplace.CrashIsSafe` | core/atomic-write.js:44-53 | after a crash keeping any subset of the directory changes the live path is one of the versions, whole |
| `AtomicReplace.ReaderSeesOldOrNew` | core/atomic-write.js:33-35 | with or without fsync, a running reader sees the whole old file until the rename and the whole new one from it |
| `AtomicReplace.UnsyncedReplaceTears` | core/atomic-write.js:46-53 | without fsync power loss can leave any contents at all in the live file |
| `AtomicReplace.ResultingMode` | core/atomic-write.js:30-32 | the version gets the requested mode exactly when the chmod took, a stale temp file already had it, or it was created under a umask that takes none of it |
| `AtomicReplace.RenameIsSafe` | core/atomic-write.js:132-133 | the rename adds exactly one version, and only a synced one |
| `AtomicReplace.SyncDirIsSafe` | core/atomic-write.js:98-108 | after the directory sync only what is seen can be found |
| `AtomicReplace.TouchKeepsSafe` | core/atomic-write.js:126-131 | whatever is done to the open temp file the live path is as safe as before |
| `AtomicReplace.RunIsSafe` | core/atomic-write.js:118-142 | safety over runs, with the set of versions that can be found |
| `AtomicReplace.DirectoryOnlyTightens` | core/atomic-write.js:82-96 | a directory is never loosened, and ends within the requested mode unless it was looser and its own chmod failed |
| `AtomicReplace.FileSystem.WriteFileAtomic` | core/atomic-write.js:118-142 | the call as written passes through exactly the disks of its specification, result and directory mode included |
| `AtomicReplace.FileSystem.TryReplace` | core/atomic-write.js:125-138 | the try block up to the rename, and whether it was reached |
| `AtomicReplace.FileSystem.FillTmp` | core/atomic-write.js:126-130 | open, mode and write of the temp file |
| `AtomicReplace.FileSystem.FlushTmp` | core/atomic-write.js:131 | the temp file is synced when asked |
| `AtomicReplace.FileSystem.PrepareDir` | core/atomic-write.js:120-121 | mkdir applies its mode only to a directory it makes, then ensureDirMode |
| `AtomicReplace.FileSystem.Tighten` | core/atomic-write.js:90-96 | bits are only removed from a directory's mode |
| `ReclaimPass.WantedBlocksStay` | sdk/serve.js:1418-1441 | no block of a listed segment that resolved, nor of the thumbnail, is ever in what is cleared |
| `ReclaimPass.ListedSegmentsStayIff` | sdk/serve.js:1402-1441 | listed segments all keep their blocks, those whose entry read as missing included, exactly when none of the latter lies below the floor the others set, outside the thumbnail |
| `ReclaimPass.MissingSegmentIsLost` | sdk/serve.js:1402-1441 | and a missing entry below the floor does lose its block |
| `ReclaimPass.FreesExactlyTheRest` | sdk/serve.js:1436-1480 | blocks are cleared exactly when every read landed and the floor is positive, and then exactly those below every listed segment and outside the thumbnail |
| `ReclaimPass.PassKeepsWhatIsWanted` | sdk/serve.js:1477-1482 | however the clears end no wanted block is lost, and when none throws exactly the planned blocks are gone |
| `ReclaimPass.PassAnswers` | sdk/serve.js:1404-1480 | a pass that clears nothing answers well exactly when nothing lies below the window, and badly exactly when an entry, the blobs or the thumbnail did not come |
| `ReclaimPass.SinkIsTold` | sdk/serve.js:1425-1450 | the sink is told the bytes and number of the segments that resolved and the length of the listing, unless a read did not land or there are none |
| `ReclaimPass.ClearsInOrder` | sdk/serve.js:1474-1490 | a block goes exactly when a clear that ran freed it; a clear that throws stops the ones after it |
| `ReclaimPass.ContainsIff` | sdk/serve.js:1531 | a playlist is finished exactly when the end tag stands somewhere in it |
| `ReclaimPass.ScanIsTheMinimum` | sdk/serve.js:1421-1442 | the floor is the lowest offset found, none if nothing resolved, and a read that did not land abandons the pass |
| `ReclaimPass.ScanMeasuresTheWindow` | sdk/serve.js:1439-1451 | the byte sum and count told to the sink are those of the segments that resolved |
| `ReclaimPass.ThumbBlockRange` | sdk/serve.js:1552-1562 | unknown exactly when the read did not land; otherwise exactly the thumbnail's blocks below the floor |
| `ReclaimPass.JoinedPlaylists` | sdk/serve.js:275 | listing two playlists joined by a newline lists both |
| `ReclaimPass.ListingIsStable` | sdk/serve.js:275-281 | listing a listing changes nothing: every entry is a trimmed root-relative path |
| `ReclaimPass.EveryUriIsListed` | sdk/serve.js:276-279 | everything listed is one trimmed line starting with a slash |
| `ReclaimPass.ListUris` | sdk/serve.js:273-282 | the loop over the lines computes the listing |
| `ReclaimPass.ListedIff` | sdk/serve.js:273-283 | a path is listed exactly when some line names it |
| `ReclaimPass.ListsExactlyTheNames` | sdk/serve.js:273-283 | what a playlist lists: one path for each line that trims to a name, neither empty nor a comment nor an absolute URL, with a leading slash, in the order of the lines, and nothing else |
| `ReclaimPass.RelativeNameIsListed` | sdk/serve.js:273-283 | a bare relative name is listed with a leading slash |
| `ReclaimPass.TrimIs` | sdk/serve.js:276 | trimming takes nothing but white space off the two ends |
| `ReclaimPass.TrimmedIsBare` | sdk/serve.js:276 | and leaves none at either |
| `ReclaimPass.LinesAreTheText` | sdk/serve.js:275 | the lines joined by newlines are the text |
| `ReclaimPass.AbsoluteUrlIff` | sdk/serve.js:278 | an absolute URL is one that starts with a scheme, a letter first, and "://" |
| `ReclaimPass.Replica.ReclaimBelowWindow` | sdk/serve.js:1416-1483 | the pass as written: what it reports, returns and frees, for every read and clear outcome |
| `ReclaimPass.Replica.ScanWindow` | sdk/serve.js:1425-1442 | the entry loop computes floor, bytes and counts, or abandons |
| `ReclaimPass.Replica.ClearAround` | sdk/serve.js:1477-1480 | clears in order around the thumbnail, stopping at the first that throws |
| `ReclaimPass.Replica.ReclaimIdleFeed` | sdk/serve.js:1514-1530 | a missing or finished playlist leaves the replica untouched |
| `ReclaimBudget.HealthyReplicaIsLeftAlone` | sdk/serve.js:598-623 | over every interleaving of drives and any clock: a replica within the budget or three times a window seen on its drive is never handed a blob verdict |
| `ReclaimBudget.RotationsAreApart` | sdk/serve.js:711-713 | two calls to the host are at least five minutes apart, whichever drives they concern |
| `ReclaimBudget.ProbesAreBounded` | sdk/serve.js:774-788 | a handler starts at most three probes |
| `ReclaimBudget.ProbeStartsAlone` | sdk/serve.js:775-777 | a probe starts only when none runs and none has measured |
| `ReclaimBudget.MeasuredVerdictStands` | sdk/serve.js:789-801 | what the probe measured is never replaced |
| `ReclaimBudget.LateVerdictIff` | sdk/serve.js:650-742 | after any run that proved the store able to punch, a blob verdict can still follow exactly when some check passed the gate before and has not measured yet |
| `ReclaimBudget.LateCheckHappens` | sdk/serve.js:650-800 | a run from the start reaches such a state, and a verdict does follow it |
| `ReclaimBudget.EveryPassIsJudged` | sdk/serve.js:650-742 | from any reachable state the check behind a pass can be taken to its end, and has then called the host exactly when and as it should: blobs over the ceiling while that half is on, else metadata over its own budget, with a callback, a measurable store and the rotation floor past; and started a probe exactly when one was wanted and none ran |
| `ReclaimBudget.ServeStartsIff` | sdk/serve.js:608-625 | a served playlist starts a pass exactly when reclaim is on and the drive's last pass is an interval ago |
| `ReclaimBudget.WindowIsTheLargestSeen` | sdk/serve.js:577-605 | after any run the drive's window is the largest told, told at most once a pass |
| `ReclaimBudget.CompleteListingIsTaken` | sdk/serve.js:598-605 | a complete listing, or one of which nothing resolved, is taken as measured |
| `ReclaimBudget.UnmeasurableIsFinal` | sdk/serve.js:520-526 | once a store could not be measured every later check ends at once |
| `ReclaimBudget.OnlyUnmeasurableLatches` | sdk/serve.js:650-742 | only a store that cannot be measured is given up on, and only one that can punch has its blob half switched off |
| `ReclaimBudget.MeasuresOnlyWhenUseful` | sdk/serve.js:650-742 | bytes are read only with a host to tell and some half of the check on |
| `ReclaimBudget.UnarmedStaysQuiet` | sdk/serve.js:790 | with no such check under way no blob verdict follows, on any run |
| `ReclaimBudget.ArmedMayReport` | sdk/serve.js:657-742 | such a check does report when its measurement is large enough |
| `ReclaimBudget.EstimateIsTheWindow` | sdk/serve.js:603 | a short listing is scaled to the whole, rounding half up, and never below what was measured |
| `ReclaimBudget.WindowNeverFalls` | sdk/serve.js:604 | no step lowers a drive's window estimate |
| `ReclaimBudget.StepLogOk` | sdk/serve.js:644-742 | every step keeps: estimates cover observations, verdicts are earned and coherent with the numbers reported, calls are apart |
| `ReclaimBudget.StepProbesOk` | sdk/serve.js:774-792 | every step keeps: probes counted and bounded, none running once one measured, the latch only on a good verdict |
| `ReclaimBudget.Reclaim.Update` | sdk/serve.js:549-573 | enabled and throttled per drive, a pass starts |
| `ReclaimBudget.Reclaim.ObserveWindow` | sdk/serve.js:577-605 | the pass's window is told once, extrapolated, and may only raise the estimate |
| `ReclaimBudget.Reclaim.CheckBudget` | sdk/serve.js:644-657 | the check up to its first await: callback, measurability, gate, or metadata alone |
| `ReclaimBudget.Reclaim.StartPunching` | sdk/serve.js:776-787 | the check joins the probe under way or starts one |
| `ReclaimBudget.Reclaim.Applies` | sdk/serve.js:789-791 | a good verdict latches the blob budget off |
| `ReclaimBudget.Reclaim.PunchAnswers` | sdk/serve.js:782-785 | the probe's answer is stored and the memo cleared |
| `ReclaimBudget.Reclaim.PunchAwaited` | sdk/serve.js:787-791 | a check resumes when its probe is over |
| `ReclaimBudget.Reclaim.Gate` | sdk/serve.js:655-687 | a failed pass withholds the blob verdict unless the store was proved unable to punch |
| `ReclaimBudget.Reclaim.Measure` | sdk/serve.js:689-693 | transient failures end the check, unmeasurable ones latch |
| `ReclaimBudget.Reclaim.Report` | sdk/serve.js:702-741 | blob before metadata, then the rotation floor, then the callback with its numbers |
| `InFlightReads.CountIsUnfinishedIff` | sdk/serve.js:1610-1640 | after any run a drive's count is the number of unfinished GET media requests bound to it less those whose client hung up, and so equals that number exactly when no such client has |
| `InFlightReads.CountIsActiveRequests` | sdk/serve.js:1610-1640 | the count is the number of its GET media requests neither finished nor hung up on |
| `InFlightReads.EndedRequestsHoldNothing` | sdk/serve.js:1968-1980 | however a request ends its slot is given back for good |
| `InFlightReads.SlotsReleaseOnce` | sdk/serve.js:1648-1652 | giving a slot back again changes nothing |
| `InFlightReads.DrainedMeansIdle` | sdk/serve.js:1670-1687 | a waiter settles as drained exactly when its drive is idle, and otherwise only by its own timer |
| `InFlightReads.WaitersSettleOnce` | sdk/serve.js:1674-1683 | a settled waiter stays as it settled, and its timer always settles it |
| `InFlightReads.WaiterKeepsItsOutcome` | sdk/serve.js:1670-1695 | over any run a waiter settles at most once, as drained exactly when its drive is idle at that moment and otherwise by its timer, and keeps its outcome to the end; one still pending waits on a busy drive |
| `InFlightReads.RequestsAreAsTold` | sdk/serve.js:1979-2084 | over any run a request is closed, piping or over exactly as its own events left it |
| `InFlightReads.KeptAsAsked` | sdk/serve.js:1644-1687 | each request and each wait is kept with the drive, target and time it was asked for; a timeout that is finite and not negative is waited in full |
| `InFlightReads.NoOthers` | sdk/serve.js:1644-1687 | there are as many requests as were bound and as many waiters as were asked for |
| `InFlightReads.IdleDriveServesOnlyTheHungUp` | sdk/serve.js:1979-1994 | after any run a drive counts as idle exactly when every unfinished media request on it has been hung up on |
| `InFlightReads.HungUpReaderIsNotCounted` | sdk/serve.js:1980-2084 | and there is such a reader: one that hung up while waiting for its entry is piped later |
| `InFlightReads.StepInv` | sdk/serve.js:1902-2106 | every step keeps slots, counts and waiters in step |
| `InFlightReads.InFlight.Enter` | sdk/serve.js:1644-1647 | one more on the drive, and a release that works once; without a drive neither |
| `InFlightReads.InFlight.Release` | sdk/serve.js:1648-1658 | one less, never below zero, and at zero every waiter of the drive is settled |
| `InFlightReads.InFlight.Resolve` | sdk/serve.js:1657 | the loop settles each waiter taken off the drive |
| `InFlightReads.InFlight.WhenDrained` | sdk/serve.js:1670-1695 | settled at once without a drive or on an idle one; a timeout that is not finite and non-negative is zero |
| `InFlightReads.InFlight.TimerFires` | sdk/serve.js:1676-1687 | a waiter's timer settles it and takes it off its drive |
| `InFlightReads.DriveHandler.BindTarget` | sdk/serve.js:1979-2106 | only a media request with a body takes a slot, the moment it is bound |
| `InFlightReads.DriveHandler.AnswerEarly` | sdk/serve.js:1985-2027 | 304, 404 and 416 give the slot back |
| `InFlightReads.DriveHandler.AnswerHead` | sdk/serve.js:2030 | a HEAD ends without having held a slot |
| `InFlightReads.DriveHandler.Catch` | sdk/serve.js:2086-2092 | a throw gives the slot back |
| `InFlightReads.DriveHandler.Pipe` | sdk/serve.js:2066-2084 | the slot is handed to the pump |
| `InFlightReads.DriveHandler.Done` | sdk/serve.js:1725-1737 | the pump's end gives the slot back |
| `InFlightReads.DriveHandler.Close` | sdk/serve.js:1980 | a closed response gives the slot back, and ends a piping request |
| `PumpStream.WritesACappedPrefix` | sdk/serve.js:1698-1717 | what is written is a prefix of the stream and at most wanted; an ended response carries all of it; onDone is called exactly once, when the piping is over |
| `PumpStream.ChunkingDoesNotMatter` | sdk/serve.js:1741-1754 | chunking and backpressure make no difference to what is written |
| `PumpStream.DoneIsFinal` | sdk/serve.js:1731-1740 | after the end nothing more is written, ended or settled |
| `PumpStream.NeverHangs` | sdk/serve.js:1704-1708 | with an idle bound a piping read always has its alarm set, and a paused one a drain to come |
| `PumpStream.FirstStopDecides` | sdk/serve.js:1719-1757 | over any run the first event to stop the piping decides it: the end and the chunk that reaches what is wanted end the response in order, with all of it written; an error, a write that throws and the idle clock destroy it; a close leaves it alone; until then it goes on, paused exactly while a full write awaits its drain |
| `PumpStream.AlarmIsSinceTheLastChunk` | sdk/serve.js:1723-1757 | the idle clock runs from the last chunk, so a read that has moved within it is never cut off |
| `PumpStream.StepInv` | sdk/serve.js:1719-1757 | every event keeps the pump's counters, clock and output in step |
| `PumpStream.Pump.Forward` | sdk/serve.js:1741-1753 | a chunk: progress re-arms the clock, the cap cuts it, and it ends, aborts or pauses |
| `PumpStream.Pump.OnChunk` | sdk/serve.js:1741-1753 | the same with the pump's invariant |
| `PumpStream.Pump.Push` | sdk/serve.js:1746-1752 | a write that throws aborts, the cap ends, backpressure pauses |
| `PumpStream.Pump.Finish` | sdk/serve.js:1731-1738 | ends or destroys the response once, and settles |
| `PumpStream.Pump.Settle` | sdk/serve.js:1725-1730 | onDone is cleared before it is called |
| `PumpStream.Pump.OnEnd` | sdk/serve.js:1754-1755 | the stream's end ends the response; errors and the idle clock destroy it |
| `PumpStream.Pump.OnClose` | sdk/serve.js:1740 | a close settles without ending or destroying |
| `PumpStream.Pump.OnDrain` | sdk/serve.js:1751 | a drain resumes the stream unless it is over |
| `CatalogFanout.FanoutIsSerial` | sdk/login.js:177-182 | for any schedule of the workers, with no timeout and no rejection the streams are those of the serial loop, in order |
| `CatalogFanout.PartialCatalogIsInOrder` | sdk/login.js:184-197 | whatever timed out or was rejected, the streams are a subsequence of the serial ones |
| `CatalogFanout.PunctualFanoutIsSerial` | sdk/login.js:177-224 | with time left whenever a worker looked and no read late or refused the streams are the serial loop's; there are eight workers, or as many as ids; asked for is exactly what is under way or has landed; and nothing more is asked for once no time is left |
| `CatalogFanout.EveryTurnClaims` | sdk/login.js:203-224 | each turn of a worker lands what it read, by index, and claims the next index, to read it or to stop for want of ids or time |
| `CatalogFanout.FanoutEnds` | sdk/login.js:203-224 | the fan-out ends: no schedule takes more turns than there are ids and workers |
| `CatalogFanout.EachIndexAskedOnce` | sdk/login.js:205-206 | no index is read twice, and indexes are asked for in order |
| `CatalogFanout.EveryIndexLandsUnlessCutOff` | sdk/login.js:203-224 | never more than eight reads at once, and when all workers are gone with no timeout every index has landed |
| `CatalogFanout.SomeWorkerCanMove` | sdk/login.js:204-224 | until all workers are gone one of them can move |
| `CatalogFanout.StepInv` | sdk/login.js:203-224 | every step keeps: an index has one owner, a landed node is its record or nothing, and a hole below the cursor is held or cut off |
| `CatalogFanout.CatalogReader.ClaimNext` | sdk/login.js:205-212 | claim the next index, stop at the end or the deadline, or start its read |
| `CatalogFanout.CatalogReader.BeginWorker` | sdk/login.js:224 | a worker starts |
| `CatalogFanout.CatalogReader.ResumeWorker` | sdk/login.js:214-221 | the read lands by index, as its record, nothing, or timed out, and the worker goes on |
| `CatalogFanout.CatalogReader.Project` | sdk/login.js:228-262 | the projection loop computes the streams of the landed nodes |
| `TemplateRedaction.NothingNamedSurvives` | core/config-snapshot.js:139-149 | over all trees and specs: no dropped section is left, no place a removing path names is left, and what a URL path names is cleaned text |
| `TemplateRedaction.EverythingElseSurvives` | core/config-snapshot.js:146-149 | every value outside the dropped sections with no redacted place at or above it is unchanged |
| `TemplateRedaction.SurvivesIff` | core/config-snapshot.js:146-184 | a value, leaf or container, full or empty, is in the template just as it was exactly when its section is not dropped and no rule acts on anything at, above or below it |
| `TemplateRedaction.RedactMisses` | core/config-snapshot.js:125-137 | what a path does not act on at, above or below stays as it was, containers included |
| `TemplateRedaction.TemplateKeepsCleanedUrls` | core/config-snapshot.js:150-184 | a leaf named only as a URL is in the template as its cleaned text, or gone when nothing is left of it |
| `TemplateRedaction.OmissionsAreTheActs` | core/config-snapshot.js:150-184 | what is reported of the rules: one omission for each rule that found something to act on when its turn came, in the order of the rules, with its path, reason and kind and the number of places |
| `TemplateRedaction.SectionsFoundAreReported` | core/config-snapshot.js:150-165 | what is reported of the drops: each section that was there, once, in order, with its reason |
| `TemplateRedaction.RedactNamed` | core/config-snapshot.js:125-137 | what acting on a path makes of each place it names |
| `TemplateRedaction.TemplateTwiceIsOnce` | core/config-snapshot.js:150-184 | templating a template changes nothing, array holes included, given an idempotent URL cleaner |
| `TemplateRedaction.HolesAreHitAgain` | core/config-snapshot.js:125-137 | acting on a copy a second time hits exactly the array holes the first time left on the path |
| `TemplateRedaction.HitsAreTheMatches` | core/config-snapshot.js:125-137 | the places a path acts on are exactly the present ones that match it and are not already clean |
| `TemplateRedaction.RedactCleans` | core/config-snapshot.js:163-179 | after acting on a path nothing it names is left to act on |
| `TemplateRedaction.RedactKeepsClean` | core/config-snapshot.js:160-181 | a later path cannot undo an earlier one |
| `TemplateRedaction.RedactSpares` | core/config-snapshot.js:125-137 | a leaf the path does not name or pass above is untouched |
| `TemplateRedaction.RedactOnlyRemoves` | core/config-snapshot.js:163-179 | acting on a path never makes a place |
| `TemplateRedaction.RedactRefills` | core/config-snapshot.js:150-181 | a clean tree whose holes a JSON copy turned into null gets exactly its holes back |
| `TemplateRedaction.Walk` | core/config-snapshot.js:125-137 | the walk over the keys yields the redacted tree and counts every hit once |
| `TemplateRedaction.VisitKey` | core/config-snapshot.js:163-179 | one key: acted on, walked into, or left |
| `TemplateRedaction.DropSections` | core/config-snapshot.js:154-158 | present sections are dropped and reported |
| `TemplateRedaction.ApplyTemplateSpec` | core/config-snapshot.js:150-184 | the loops over the spec yield the template and, per rule, the number of places it acted on |
| `EgressRollup.RollupConserves` | broadcaster/src/analytics.js:134-219 | over any ticks and reads, hour and day rollovers, hours met twice, any clock, and day-file writes and reads that fail: the days served and the live bucket, with what was pruned or unreadable, are the start, the sum of deltas, and the bytes each failed write found in the bucket |
| `EgressRollup.ConservedIff` | broadcaster/src/analytics.js:134-219 | a channel's record is conserved exactly when no day-file write failed with bytes of it in the bucket |
| `EgressRollup.DiskConserves` | broadcaster/src/analytics.js:118-181 | over every run, failed writes and reads included: the files and the live bucket, with what was pruned or unreadable and what memory is ahead of today's file, account for every delta and every doubled bucket |
| `EgressRollup.RunAhead` | broadcaster/src/analytics.js:134-169 | along any run memory is ahead of today's file by exactly the buckets whose write failed since the last written roll, less a file that roll could not read |
| `EgressRollup.RunMirrors` | broadcaster/src/analytics.js:134-181 | while every write and read succeeds the day in memory is what its file holds |
| `EgressRollup.FilesHoldTheRecord` | broadcaster/src/analytics.js:134-219 | and then the files and the live bucket conserve the deltas by themselves |
| `EgressRollup.RestartLosesExactly` | broadcaster/src/analytics.js:174-181 | a restart loses exactly the live bucket and what memory was ahead of today's file, besides what the new process prunes or cannot read |
| `EgressRollup.RestartsConserve` | broadcaster/src/analytics.js:174-219 | over any number of processes, each run and restarted in any way, the record is the start and the sum of what each added and each restart took away |
| `EgressRollup.RecordIsTrue` | broadcaster/src/analytics.js:204-219 | a process's whole record of a channel is its last bytes sampled of each run, less invisible restarts, more what failed writes doubled; without those it never exceeds what was sent, with the exact condition for equality |
| `EgressRollup.DeltasMissOnlyTheHidden` | broadcaster/src/analytics.js:210-213 | recorded deltas fall short of what was sampled by exactly the runs whose restart showed neither gap nor drop |
| `EgressRollup.NeverMoreThanSent` | broadcaster/src/analytics.js:210-219 | deltas never exceed the bytes sent, with the exact condition for equality |
| `EgressRollup.DeltasAreTheSightings` | broadcaster/src/analytics.js:212-219 | from a fresh process the collector's deltas are those of the channel's sightings: a gap forgets the last counter |
| `EgressRollup.ReducedKeepsTotal` | broadcaster/src/analytics.js:134-154 | a reduce that is written leaves everything on record in the files, losing and doubling nothing |
| `EgressRollup.RollConserves` | broadcaster/src/analytics.js:156-172 | a roll changes the record only by what it prunes or cannot read and what a failed write leaves twice, and one that succeeds leaves memory the mirror of the file |
| `EgressRollup.FailedRollDoubles` | broadcaster/src/analytics.js:134-169 | a write that throws leaves the bucket both in the day as served and in the bucket |
| `EgressRollup.OpenedServes` | broadcaster/src/analytics.js:156-181 | opening a day serves what the files hold, less what is pruned and what cannot be read |
| `EgressRollup.OpenedKeepsExactly` | broadcaster/src/analytics.js:123-131 | opening a day keeps exactly the files within the retention, unchanged |
| `EgressRollup.RetainedDayStays` | broadcaster/src/analytics.js:123-172 | over any run a day on file stays on file while the clock is within the retention of it, unchanged unless it is today |
| `EgressRollup.OlderDayGoes` | broadcaster/src/analytics.js:123-181 | an older day is gone once another day is opened or the process restarts |
| `EgressRollup.RestartRetains` | broadcaster/src/analytics.js:174-181 | a restart keeps what is within the retention, unchanged |
| `EgressRollup.ReducedUnderItsHour` | broadcaster/src/analytics.js:134-154 | over any run from a fresh process a reduce adds the bucket to its own hour of today and leaves every other hour alone |
| `EgressRollup.TickCountsInItsHour` | broadcaster/src/analytics.js:156-172 | what a tick counts it counts in the hour and day its clock reads |
| `EgressRollup.AskedIsWithin` | broadcaster/src/analytics.js:234 | at least one day is served and no more than are kept |
| `EgressRollup.MeterIsExact` | broadcaster/src/analytics.js:57-71 | whatever connections come and go the meter's total is the bytes sent and only open connections are kept |
| `EgressRollup.RetriedReduceDoubles` | broadcaster/src/analytics.js:152-169 | a run from an empty store: an hour of n bytes whose write throws once is 2n bytes on record |
| `EgressRollup.TotalNeverFalls` | broadcaster/src/analytics.js:52-69 | the meter's total falls at a close exactly when the closed socket reads fewer bytes than it had |
| `EgressRollup.Analytics.ReduceBucket` | broadcaster/src/analytics.js:134-154 | the bucket is merged into its hour, and the file written or not |
| `EgressRollup.Analytics.RollOver` | broadcaster/src/analytics.js:156-172 | day change, hour change, or nothing, and where a write that throws leaves it |
| `EgressRollup.Analytics.Count` | broadcaster/src/analytics.js:206-219 | each sample adds its delta, and channels not sampled are forgotten |
| `EgressRollup.Analytics.Tick` | broadcaster/src/analytics.js:204-219 | roll, then count unless the roll threw |
| `EgressRollup.Analytics.Api` | broadcaster/src/analytics.js:232-243 | roll, then the days asked for |
| `EgressRollup.Analytics.ListDays` | broadcaster/src/analytics.js:183-188 | the loop serves the last n days, today's from memory |
| `EgressRollup.EgressMeter.OnConnection` | broadcaster/src/analytics.js:56-57 | a connection is counted live |
| `EgressRollup.EgressMeter.OnClose` | broadcaster/src/analytics.js:58-61 | its bytes move to the closed total |
| `EgressRollup.EgressMeter.ReadTotal` | broadcaster/src/analytics.js:63-67 | the loop adds the live sockets to the closed total |
| `RemoteStatus.EveryoneConverges` | sdk/remote-control.js:581-639 | whenever no trailing or arrival send is due, every verified peer's last message carries the current channel and state |
| `RemoteStatus.BroadcastsAreApart` | sdk/remote-control.js:608-637 | broadcasts are at least STATUS_MIN_MS apart, and a deferred one is due that long after the last |
| `RemoteStatus.OnlyVerifiedPeersHear` | sdk/remote-control.js:581-582 | a peer that has not proved and named itself is never sent the status |
| `RemoteStatus.ChangesAreSent` | sdk/remote-control.js:613-637 | a change of channel or state goes out at once or has a send due, unless the session is destroyed |
| `RemoteStatus.PublishSends` | sdk/remote-control.js:613-637 | a change goes to every verified peer at once when the last broadcast is a second old and is due a second after it otherwise; anything else sends nothing |
| `RemoteStatus.TimerSends` | sdk/remote-control.js:593-637 | the trailing send carries the status as it then is, to everyone verified |
| `RemoteStatus.ArrivalHears` | sdk/remote-control.js:749-865 | a new arrival hears the status once: a tick after its whoami, or at once from our own greeting |
| `RemoteStatus.PeersAreAsTold` | sdk/remote-control.js:643-872 | over any run who is listed, who is verified and whether the session is over is read off the events |
| `RemoteStatus.StatusIsTheLastGiven` | sdk/remote-control.js:613-632 | over any run the state and the channel are the ones last given |
| `RemoteStatus.GivenPositionIsTaken` | sdk/remote-control.js:626-628 | a usable position is taken, to the nearest whole one, and an unusable one clears it |
| `RemoteStatus.PositionStays` | sdk/remote-control.js:626-628 | a position stays while its channel does and none is given |
| `RemoteStatus.PositionIsOfThisChannel` | sdk/remote-control.js:623-632 | at every moment of a run a position in the status was supplied at or after the last change of channel |
| `RemoteStatus.PositionSentIsOfThisChannel` | sdk/remote-control.js:581-632 | over every run, a position in the last status a peer was sent was supplied by a call since which, until that status, the channel did not change |
| `RemoteStatus.SentWasTheStatus` | sdk/remote-control.js:581-597 | what a peer was last sent was the status at some moment of the run |
| `RemoteStatus.DestroyedIsSilent` | sdk/remote-control.js:1051-1060 | after destroy nothing more is sent and nobody is listed |
| `RemoteStatus.TopicsMeet` | sdk/remote-control.js:544-552 | two devices share a topic exactly when their clocks are in the same or neighbouring periods |
| `RemoteStatus.SkewIsTolerated` | sdk/remote-control.js:549-552 | clocks one full period apart still share a topic |
| `RemoteStatus.EpochIsThePeriod` | sdk/remote-control.js:544-548 | a clock's epoch is the period it reads |
| `RemoteStatus.OldTopicsAreLeft` | sdk/remote-control.js:558-573 | clocks two periods apart share no topic |
| `RemoteStatus.StepInv` | sdk/remote-control.js:581-872 | every step keeps convergence, spacing and the timer's due time |
| `RemoteStatus.RemoteControl.SendStatusTo` | sdk/remote-control.js:581-591 | only a verified peer is sent the status |
| `RemoteStatus.RemoteControl.FlushStatus` | sdk/remote-control.js:593-597 | the loop sends the status to every verified peer and clears the timer |
| `RemoteStatus.RemoteControl.Adopt` | sdk/remote-control.js:615-632 | what is given replaces what is stored, a new channel drops the old position, and a change is a change of channel or state |
| `RemoteStatus.RemoteControl.PublishStatus` | sdk/remote-control.js:613-639 | ignored once destroyed, sent now, deferred, or left to the deferred send |
| `RemoteStatus.RemoteControl.OnTimer` | sdk/remote-control.js:637 | the trailing send |
| `RemoteStatus.RemoteControl.OnWhoami` | sdk/remote-control.js:749-758 | the first whoami lists the peer and puts off its first status |
| `RemoteStatus.RemoteControl.OnGreeted` | sdk/remote-control.js:859-865 | an answered hello lists the peer and sends its first status |
| `RemoteStatus.RemoteControl.OnArrival` | sdk/remote-control.js:757 | the put-off status is sent if the peer is still there |
| `RemoteStatus.RemoteControl.Attach` | sdk/remote-control.js:658-660 | a channel's entry starts unverified |
| `RemoteStatus.RemoteControl.DropPeer` | sdk/remote-control.js:643-654 | a dropped peer is no longer listed |
| `RemoteStatus.RemoteControl.Rotate` | sdk/remote-control.js:558-573 | exactly the live epochs are joined, less those whose join throws, and nothing once destroyed |
| `RemoteStatus.RemoteControl.Shutdown` | sdk/remote-control.js:1051-1066 | the timer cleared, every peer dropped and every topic left, once |
| `PairingCode.SliceDigest` | core/pairing.js:93-103 | the overflowing accumulator loop yields the twelve base-32 digits of the digest's top 60 bits and reads no byte past the eighth |
| `PairingCode.TakeDigits` | core/pairing.js:99-102 | the inner loop takes every whole digit the accumulator holds |
| `PairingCode.PairingCode` | core/pairing.js:88-105 | the code shown is that of the digest's top 60 bits, and reads back as it |
| `PairingCode.OverflowIsAbove` | core/pairing.js:97-101 | the bits that overflow the 32-bit word are never read |
| `PairingCode.CodesAreNumbers` | core/pairing.js:38-43 | codes and the numbers below 2^60 correspond one to one |
| `PairingCode.FormatRoundTrips` | core/pairing.js:114-127 | a code's display form normalizes back to it |
| `PairingCode.FormatIsThreeGroups` | core/pairing.js:125-127 | the display form is three groups of four |
| `PairingCode.ConfusionsReadTheSame` | core/pairing.js:114-122 | typing a confusable character or the other case for one gives the same code or the same refusal |
| `PairingCode.AlikeTypingsReadTheSame` | core/pairing.js:114-122 | two typings of equal length that agree place by place up to case and to what looks like a zero or a one give the same code or the same refusal |
| `PairingCode.SeparatorsAreIgnored` | core/pairing.js:118 | a separator anywhere makes no difference |
| `PairingCode.NormalizeIsStable` | core/pairing.js:114-122 | what is accepted is canonical and normalizes to itself |
| `PairingCode.ReadsCharByChar` | core/pairing.js:116-120 | the four replacement passes read one character at a time |
| `PairingCode.NextDigit` | core/remote.js:421-433 | each digit taken is the next one of the number, also where sign-in codes slice random bytes |
| `ObliviousPrf.BlindedIsDirect` | core/oprf.js:51-76 | for every password, key bytes and blind: finalizing the blinded evaluation is the direct evaluation, in any group of prime order |
| `ObliviousPrf.Unblinds` | core/oprf.js:72-75 | taking the blind off a blinded product leaves the product |
| `ObliviousPrf.BlindedPointFitsEveryPassword` | core/oprf.js:65-69 | a blinded multiple of a generator could have come from any other nonzero multiple, under some nonzero blind |
| `ObliviousPrf.BlindedHidesThePassword` | core/oprf.js:65-69 | whatever blinded point one password sent, any other could have sent, from another draw of the blind, when neither hashes to the unit |
| `ObliviousPrf.KeysAreToldApart` | core/oprf.js:52-55 | two keys evaluate a blinded point to the same exactly when they load as one scalar |
| `ObliviousPrf.ModuloThreeIsASuite` | core/oprf.js:12-16 | the laws asked of the group are met by an instance |
| `ObliviousPrf.TimesMultiplies` | core/oprf.js:54 | scalar multiplication composes |
| `ObliviousPrf.TimesReduces` | core/oprf.js:36 | scalars only count modulo the order |
| `ObliviousPrf.InvInverts` | core/oprf.js:74 | the extended Euclidean inverse is one modulo the prime order |
| `ObliviousPrf.ScalarRoundTrips` | core/oprf.js:26-36 | a nonzero scalar written as 32 bytes loads as itself |
| `ObliviousPrf.BytesToBig` | core/oprf.js:25 | the loop reads the bytes as one number |
| `ObliviousPrf.BigToBytes` | core/oprf.js:26-30 | the loop writes the number's last bytes from the end |
| `BigEndian.ValueOfBytes` | core/oprf.js:25-30 | a number that fits reads back from its bytes |
| `BigEndian.BytesOfValue` | core/oprf.js:25-30 | bytes read back from their number |

## Left out

- Hyperswarm, Protomux, Hyperbee, Hyperdrive, HTTP sockets, sodium and the group library: they appear as events, outcomes or parameters.
- SigninWire.SasBinds: does not model the drawing of four digits from the MAC's bytes, nor its rejection sampling; the digits are taken to differ when their derivations do.
- SigninWire.ScreensAgree: the same; two derivations that differ can draw the same four digits by chance.
- SigninHandover.EqualDigitsMeanOneConnection: the same; equal digits stand for equal derivations.
- SigninHandover.HonestHandoverCompletes: runs in which a deadline fires, a request is lost, the viewer says no or types other digits, or a device is cancelled are not honest ones; their outcomes are in `SettlesInTime` of either role.
- HolePunchProbe.CertifiedFreesAboveTheLine: a storage that releases blocks above the line by itself, or whose stats lie, is not among the storages.
- HolePunchProbe.RunProbe: does not include the wrapper's missing or closing storage factory, its overall timeout and its cleanup, all of which are inconclusive or have no effect on the answer.
- AtomicReplace.FileSystem.WriteFileAtomic: the directory's own creation is not journalled, and only the target and its temp file are in the directory.
- AtomicReplace.NothingTornEver: is about synced writes, because unsynced ones tear; `ReaderSeesOldOrNew` covers those without power loss.
- ReclaimPass.WantedBlocksStay: a listed segment whose entry read as missing is not among the wanted ones; `ListedSegmentsStayIff` is about those.
- ReclaimBudget.EstimateIsTheWindow: rounds the exact quotient; the floating point quotient the code rounds is not modelled.
- ReclaimBudget.Reclaim.ObserveWindow: the same; and the counts are natural numbers.
- ReclaimBudget.Reclaim.Update: the host's enable function is its value at the call.
- InFlightReads.DriveHandler.BindTarget: preflight, other methods and unknown targets are answered before anything is bound; read-ahead, Range parsing and headers are not modelled.
- CatalogFanout.FanoutIsSerial: each record is the same whichever moment it is read; opening a sealed key is a given result.
- TemplateRedaction.Walk: works on values, because the code works on its own copy; key order, the `length` of an array and inherited property names are not modelled.
- TemplateRedaction.TemplateTwiceIsOnce: what the URL cleaner does is a parameter that is assumed idempotent.
- EgressRollup.Analytics.Count: respawns and incidents follow the same records and are left out, as is the peers gauge, which the code does not merge on an hour met twice.
- EgressRollup.Analytics.RollOver: a day's file is read or not as a whole; fields missing inside one are not modelled, and pruning always deletes.
- EgressRollup.RestartLosesExactly: a process ends between two of its events, not inside a roll.
- EgressRollup.Analytics.ReduceBucket: egress only, as `Analytics.Count`.
- EgressRollup.Analytics.Api: serves what `Analytics.ListDays` lists.
- EgressRollup.Analytics.ListDays: files of other days are always readable, and the list is a map by date.
- RemoteStatus.RemoteControl.PublishStatus: the television's role only; channel names are cut by a parameter.
- RemoteStatus.EveryoneConverges: about channel and state; a new position alone is not sent, by design.
- PairingCode.Normalize: upper case is that of ASCII letters; other scripts' letters that JavaScript maps to ASCII capitals are not modelled.
- PairingCode.ReadsCharByChar: the same.
- PairingCode.PairingCode: starts from the digest; the key derivation is not modelled.
- ObliviousPrf.BlindedPointFitsEveryPassword: about multiples of a generator; `BlindedHidesThePassword` is about hashed passwords.
- ObliviousPrf.BlindedIsDirect: the map into the group, the encoding and the final hash are parameters.
- The snapshot store's naming and pruning, the read-ahead's range ownership, token, session and password helpers, proof of work, the dashboard, command-line tools and client shells: simple, or not decided by the code modelled here.
