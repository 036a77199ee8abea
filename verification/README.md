# A verified model of the AMCA run kernel

AMCA records an agent's run as an append-only log of typed events and releases a final answer only when a
deterministic proof engine finds admitted evidence for every claim in it. This project models the run kernel, the
proof engine and release gate, replay and projection, the effect broker and local harness, the three ledgers, the
canonical hash and the splitting of event streams, and proves what they promise over every run.

## How the model is laid out

- `Protocol`, `Contracts`, `EventLog`: the values, the schemas as predicates, and the log. A log has one meaning, the
  fold of its well-formed events (`EventLog.Fold`); a thrown error is an `Err` of a `Result`.
- `EvidenceResolver`, `ProofEngine`, `ReleaseGate`: the engine and the gate as functions, the resolver's nested loops
  as a method. `ClaimTerms` says what evidence has to show without the engine's matchers, `ProofProperties` what
  support means without its control flow, and both are proved to agree with the engine.
- `KernelSpec`: each kernel call as a transition on the log alone. `RunKernel` holds the ledger and the kernel as
  classes whose methods update private fields; each method is proved to be its transition, and the class invariant
  says that the fields are always the fold of the log.
- `KernelInvariants`, `RunGrowth`, `LogHistory`, `ReleaseSafety`, `GovernanceHistory`, `EvidenceStability`: what is
  true of every log that any sequence of calls can produce, whichever calls threw and at whatever point.
- `EventOrder`, `SemanticLedger`, `KernelStream`: the validators of event streams and the in-memory semantic ledger,
  against one declarative notion of a run's stream.
- `GuardMeaning`, `Complaints`, `SubmissionEvents`, `Identifiers`: what the kernel's guards admit, what its errors
  mean, what its events say and which ids it makes up, field by field and without its own searches.
- `RecordingOutcome`, `SubmissionOutcome`: exactly when a call returns, and when it leaves events behind instead.
  `SampleRun` is one run that releases and replays, `SkewedRun` one that does not replay.
- `Resubmission`, `Replay`, `ReplayProperties`, `Projection`, `ProjectionProperties`: rebuilding a run from its log.
- `LedgerBacked`, `LedgerLag`, `LedgerBackedKernel`, `PostgresLedger`: the durable append protocols as interleaved
  steps; the ledger-backed kernel is also a class whose awaited calls are shown to be such interleavings.
- `EffectSdk`, `EffectBroker`, `BrokerProperties`, `BrokerMeaning`, `RawContent`, `Harness`, `RecordedEffects`,
  `HarnessProperties`, `UnfitReceipts`: the broker, whose dispatch is two steps around the await of the adapter, its
  whole life as a sequence of actions, and the harness that drives it. `SampleDispatch` has a harness dispatch one
  command with fit and with unfit evidence.
- `JsonText`, `CanonicalJson`, `Utf8`, `Sha256`, `Sha256Constants`, `CanonicalHash`: what stands behind the hash.
  `EventStream`: splitting server-sent events.

Inputs the code takes from outside are parameters: the clock (one argument for each reading), the canonical hash (a
function of the hashed value; that the values compared through it do not collide is a hypothesis where a theorem needs
it, and `CanonicalHash.HashTellsMeaning` reduces it to the absence of a SHA-256 collision), `localeCompare`, the text of
numbers, what an adapter does, how each append to a sink goes and what becomes of each database query.

## Where the code and its descriptions differ

The model follows the code.

- An event is parsed after the ledger has stored it, so invalid event options leave the log ahead of the kernel's
  fields. The fold skips such events, and the class invariant holds in every state all the same.
- A final submission is not atomic: a duplicate id or too few mismatch ids stop it midway and its first events stay.
  `SubmissionOutcome.SubmissionCompletes` says exactly when it completes, and `SubmissionOutcome.SubmissionIsNotAtomic`
  turns any submission that would into one that does not.
- Freshness looks at `observedAt` only; `expiresAt` is never consulted.
- At most one execution for each write key needs dispatches with one key not to overlap.
  `BrokerProperties.AtMostOnceNeedsAlone` is a run in which they do, `BrokerProperties.WritesAtMostOnce` says
  exactly when the promise holds, and `BrokerProperties.AloneWritesOnce` what a caller can see to.
- The broker does not look at the kind or hash of receipt evidence; the kernel does, and refuses such receipts
  (`HarnessProperties.UnfitEvidenceIsNotRecorded`). The broker has cached them by then
  (`UnfitReceipts.UnfitReceiptIsCached`), so however often the command is dispatched again, it never succeeds
  (`UnfitReceipts.PoisonedForGood`; `SampleDispatch.UnfitDispatchNeverSucceeds` is such a command).
- Replay takes the first proposal that carries a commit's mutation id, whatever its command id, and repeats the commit at
  its event's time; `ReplayProperties.ReplayIsFaithful` says exactly when that gives the run back.
  `SkewedRun.SkewedRunIsNotReplayed` is an ordinary run that it does not give back, because the clock moved on within a
  commit, and `ReplayProperties.ShadowedCommitIsNotRepeatable` has two proposals under one mutation id.
- Replay skips earlier final candidates, so no stream with two of them ever passes (`ReplayProperties.TwoCandidatesFail`).
- A kernel call that throws after it recorded something leaves the durable log behind for good: nothing that happens
  later brings the missing event to it (`LedgerLag.StuckForGood`). `LedgerLag.KeepsUpExactly` says which calls do so, in
  terms of their arguments, and `LedgerLag.EmptyProfileLeavesLedgerBehind` is one of them.

## Model

| member | source | states |
|---|---|---|
| ReleaseSafety.ReleaseSafety | packages/kernel/src/run-kernel.ts:413-589 | in every run, each `FinalReleased` closes a passing proof and a released decision on its own candidate, which approves every claim and has a line for each, and every claim it releases is proved by an event recorded before the candidate: same event id, kind and hash, matching predicate, succeeded receipt of a still earlier request, or an observation fresh at the proof's instant |
| ReleaseSafety.ReleasedStateWasObserved | packages/proof/src/proof-engine.ts:540-584 | in every run, a released claim that a state equals, differs from or contains a value has an observation before its candidate that shows just that |
| ReleaseSafety.ReleasedActionWasRecorded | packages/proof/src/proof-engine.ts:415-496 | and a released claim about an action or a test has a succeeded receipt before its candidate that says so |
| ReleaseSafety.ReleaseIsSafe | packages/kernel/src/release-gate.ts:21-38 | the same for any log whose events are each justified by the log before them |
| ReleaseSafety.ReceiptAdmitted | packages/kernel/src/run-kernel.ts:413-446 | a receipt the kernel holds comes from an event at which its request, hash and evidence checks passed |
| ReleaseSafety.ObservationAdmitted | packages/kernel/src/run-kernel.ts:448-480 | an observation the kernel holds comes from an event at which its hash and evidence checks passed |
| ReleaseSafety.EffectWasRequested | packages/kernel/src/run-kernel.ts:1034-1052 | behind every admitted receipt is an earlier request of the same effect and capability |
| KernelInvariants.RunJustified | packages/kernel/src/run-kernel.ts:132-589 | every event of every reachable log is justified by the log before it: recorded by an admitted call, or a candidate, or the engine's proof over everything recorded so far, its mismatches in order, the gate's decision on it, or the release of that decision |
| KernelInvariants.ProofIdIsStable | packages/proof/src/proof-engine.ts:40-67 | a proof that made up its id is the same proof when that id is asked for |
| ClaimTerms.ValueMeaning | packages/proof/src/proof-engine.ts:540-584 | the comparison of values: `equals` holds for equal scalars, `not_equals` for different ones, `contains` for a part of a text or a scalar among the items of an array, and nothing else does |
| ClaimTerms.ReceiptMeaning | packages/proof/src/proof-engine.ts:415-496 | a receipt matches exactly when it succeeded and says each thing the predicate asks for, field by field |
| ClaimTerms.ObservationMeaning | packages/proof/src/proof-engine.ts:498-540 | an observation is taken exactly when it is about this subject, was made in time and shows the value |
| ClaimTerms.EvidenceMeaning | packages/proof/src/proof-engine.ts:438-467 | the re-check and the matching of references, field by field |
| ProofProperties.ClaimMeaning | packages/proof/src/proof-engine.ts:69-297 | a claim is supported exactly when admitted evidence shows it, in terms of `ClaimTerms` alone, and otherwise has one blocking mismatch |
| ProofProperties.SupportNamesEvidence | packages/proof/src/proof-engine.ts:299-312 | the proof of a supported claim names one reference of the claim, of evidence that shows it |
| ProofProperties.RejectionMeaning | packages/proof/src/proof-engine.ts:69-297 | which type of mismatch a rejected claim gets, from its evidence: missing, unverified, stale or not supporting |
| ProofProperties.VerdictMeaning | packages/proof/src/proof-engine.ts:40-67 | the verdict is pass exactly when every claim is supported, and the claim proofs say which are |
| ProofProperties.IdsMeaning | packages/proof/src/proof-engine.ts:40-67 | approved are the ids of the supported claims, rejected those of the others |
| ProofProperties.GateReleasesSupported | packages/kernel/src/release-gate.ts:21-54 | the gate releases exactly the candidates whose every claim is supported |
| ProofProperties.ReleaseIsWhole | packages/kernel/src/release-gate.ts:40-54 | a release approves every claim of its candidate, in order, and its message has one line for each |
| ProofProperties.OneMismatchEach | packages/proof/src/proof-engine.ts:40-67 | there are as many blocking mismatches as unsupported claims |
| ProofProperties.NarrativeIsInert | packages/kernel/src/release-gate.ts:40-54 | candidates that differ only in statement, narrative and criticality get the same decision and final message, and the same proof but for its copy of the claims |
| ReleaseGate.DecisionIsValid | packages/kernel/src/release-gate.ts:134-177 | every decision on a valid proof fits its schema: released without blockers or held with at least one |
| ReleaseGate.DecisionMeaning | packages/kernel/src/release-gate.ts:21-54 | which of the four decisions is made, with which ids and reason, from the verdict and the blocking mismatches |
| ReleaseGate.HintMeaning | packages/kernel/src/release-gate.ts:116-131 | one hint for each blocking mismatch, or one for the verdict |
| ReleaseGate.LineMeaning | packages/kernel/src/release-gate.ts:177-240 | the line of a claim says what its predicate says, field by field |
| EvidenceResolver.ResolveEvidence | packages/proof/src/evidence-resolver.ts:27-75 | the nested loops compute the resolution, in order |
| EvidenceResolver.ResolveMembers | packages/proof/src/evidence-resolver.ts:27-87 | a resolution holds the sources that carry one of the references, and all of them |
| EvidenceStability.AdmissionDropsNothing | packages/proof/src/proof-engine.ts:438-467 | in every run the engine re-admits all that the kernel admitted |
| EvidenceStability.ReferenceResolvesOnce | packages/kernel/src/run-kernel.ts:1069-1108 | in every run a reference resolves to at most one receipt or observation |
| EvidenceStability.EvaluationIsStable | packages/proof/src/evidence-resolver.ts:27-87 | once a claim's references name events of the log, nothing recorded later changes its evaluation at the same instant |
| GovernanceHistory.CriticalWriteIsApproved | packages/kernel/src/run-kernel.ts:887-943 | an allowed critical write was asked for, and an approval of its scope was requested, granted, still open and never denied or expired |
| GovernanceHistory.CriticalScopeIsExact | packages/kernel/src/run-kernel.ts:1228-1247 | unless its scope's hash collides with that of a grant of the run, the grant is for exactly this decision |
| GovernanceHistory.GrantWasRequested | packages/kernel/src/run-kernel.ts:945-985 | every grant follows a request of the same id and scope, before the request's deadline |
| GovernanceHistory.WithdrawalWasRequested | packages/kernel/src/run-kernel.ts:321-355 | every denial and expiry follows a request of the same id, run and scope |
| GovernanceHistory.QuarantineWasDecided | packages/kernel/src/run-kernel.ts:831-885 | a recorded quarantine follows the quarantined decision that carries it and the preflight request behind that |
| GovernanceHistory.QuarantineIsDecided | packages/kernel/src/run-kernel.ts:876-879 | unless its hash collides with that of a quarantine of the run, it is the very quarantine that was decided |
| GovernanceHistory.MutationHistory | packages/kernel/src/run-kernel.ts:357-411 | the commits of each state reference carry revisions 0, 1, 2, ... without gaps, and its revision counts them |
| GovernanceHistory.CommitWasProposed | packages/kernel/src/run-kernel.ts:987-1011 | every commit is preceded by the proposal of its command |
| GovernanceHistory.CommitsOnce | packages/kernel/src/run-kernel.ts:387-402 | no mutation command commits twice in a run |
| GovernanceHistory.CommitWasRequested | packages/kernel/src/run-kernel.ts:357-411 | every commit of a run is the commit of a command that some call of the run was given |
| GovernanceHistory.CommitIsAsProposed | packages/kernel/src/run-kernel.ts:1002-1005 | unless hashes collide, that command is the very one proposed before |
| GovernanceHistory.CommitIdsDiffer | packages/kernel/src/run-kernel.ts:387-402 | unless hashes collide, no two commits of a run carry the same command and mutation ids |
| EventLog.AppendAgain | packages/kernel/src/run-kernel.ts:669-696 | a stored event is reproduced by appending its payload with its own envelope as options |
| GuardMeaning.AdmissionMeaning | packages/kernel/src/run-kernel.ts:158-480 | exactly which calls the guards admit, in terms of what was recorded first under each id, field by field |
| GuardMeaning.RecordedEvent | packages/kernel/src/run-kernel.ts:669-696 | the event of a call that returns: payload, id, place, cause, correlation, hash and times |
| Complaints.CallComplaints | packages/kernel/src/run-kernel.ts:719-736 | what the errors in front of all guards mean |
| Complaints.DecisionComplaints | packages/kernel/src/run-kernel.ts:788-943 | whichever error a decision raises, the thing it names is wrong |
| Complaints.QuarantineComplaints | packages/kernel/src/run-kernel.ts:831-885 | the same for a quarantine |
| Complaints.ApprovalComplaints | packages/kernel/src/run-kernel.ts:945-985 | the same for a grant, a denial and an expiry |
| Complaints.CommitComplaints | packages/kernel/src/run-kernel.ts:357-411 | the same for a commit |
| Complaints.ReceiptComplaints | packages/kernel/src/run-kernel.ts:1034-1108 | the same for a receipt |
| Complaints.KernelAppendComplaints | packages/kernel/src/in-memory-ledger.ts:47-72 | the same for an append to the kernel's ledger |
| Identifiers.EventIdMeaning | packages/kernel/src/run-kernel.ts:710-717 | an id that is made up names the run, the event's number and its type |
| Identifiers.EventIdsDiffer | packages/kernel/src/run-kernel.ts:710-717 | ids made up for different places of a log differ |
| Identifiers.MismatchIdsDiffer | packages/proof/src/mismatch-builder.ts:26-36 | mismatches of different claims of a candidate have different ids |
| RunKernel.InMemoryLedger.Append | packages/kernel/src/in-memory-ledger.ts:47-72 | appends the prepared event or refuses it for a duplicate id, an unknown cause, a blank id or a wrong hash |
| RunKernel.InMemoryRunKernel.constructor | packages/kernel/src/run-kernel.ts:152-156 | a new kernel has an empty log and empty fields |
| RunKernel.InMemoryRunKernel.AppendEvent | packages/kernel/src/run-kernel.ts:669-696 | stores the event and parses it only then |
| RunKernel.InMemoryRunKernel.StartRun | packages/kernel/src/run-kernel.ts:158-178 | the start is recorded once, and the fields stay the fold of the log |
| RunKernel.InMemoryRunKernel.SubmitToolCommand | packages/kernel/src/run-kernel.ts:180-195 | records the proposal of a started run, or refuses it unchanged |
| RunKernel.InMemoryRunKernel.SubmitMutationCommand | packages/kernel/src/run-kernel.ts:197-213 | records the proposal when its hash is that of its body |
| RunKernel.InMemoryRunKernel.RecordEffectRequest | packages/kernel/src/run-kernel.ts:215-230 | records the request, or refuses it unchanged |
| RunKernel.InMemoryRunKernel.RecordWritePreflightRequested | packages/kernel/src/run-kernel.ts:232-247 | records the preflight candidate, or refuses it unchanged |
| RunKernel.InMemoryRunKernel.RecordWritePreflightDecided | packages/kernel/src/run-kernel.ts:249-266 | records a decision that fits its request and, for a critical write, a live approval |
| RunKernel.InMemoryRunKernel.RecordWriteQuarantined | packages/kernel/src/run-kernel.ts:268-284 | records a quarantine that a quarantined decision carries |
| RunKernel.InMemoryRunKernel.RecordApprovalRequested | packages/kernel/src/run-kernel.ts:286-301 | records the approval request, or refuses it unchanged |
| RunKernel.InMemoryRunKernel.RecordApprovalGranted | packages/kernel/src/run-kernel.ts:303-319 | records a grant that matches its request and is in time |
| RunKernel.InMemoryRunKernel.RecordApprovalDenied | packages/kernel/src/run-kernel.ts:321-337 | records a denial that matches its request |
| RunKernel.InMemoryRunKernel.RecordApprovalExpired | packages/kernel/src/run-kernel.ts:339-355 | records an expiry that matches its request |
| RunKernel.InMemoryRunKernel.CommitMutation | packages/kernel/src/run-kernel.ts:357-411 | commits a proposed command at the expected revision and moves the revision on |
| RunKernel.InMemoryRunKernel.RecordEffectReceipt | packages/kernel/src/run-kernel.ts:413-446 | records a receipt of a requested effect whose evidence names the receipt's own event |
| RunKernel.InMemoryRunKernel.RecordExternalStateObservation | packages/kernel/src/run-kernel.ts:448-480 | records an observation whose evidence names its own event |
| RunKernel.InMemoryRunKernel.AppendMismatches | packages/kernel/src/run-kernel.ts:519-537 | one event for each blocking mismatch, in order, until the given ids run out |
| RunKernel.InMemoryRunKernel.SubmitFinalCandidate | packages/kernel/src/run-kernel.ts:482-589 | candidate, proof, mismatches, decision and release, leaving what was recorded when it throws midway |
| SubmissionEvents.SubmissionMeaning | packages/kernel/src/run-kernel.ts:482-589 | a completed submission event by event: what each says, which one causes it, when, and under which given id |
| EventOrder.OrderRecoversChain | packages/kernel/src/events.ts:117-167 | ordering returns a stream exactly when the input is a rearrangement of it and it is a run's chain |
| EventOrder.OrderAndValidateRunEvents | packages/kernel/src/events.ts:117-167 | the sort and the loop with its growing set of seen ids compute that result and the first complaint |
| EventOrder.FaultlessIsChain | packages/kernel/src/events.ts:135-164 | checking event by event accepts exactly the chains |
| Complaints.OrderComplaints | packages/kernel/src/events.ts:135-164 | whichever complaint is raised, the thing it names is wrong |
| KernelStream.KernelReplaysItself | packages/kernel/src/in-memory-ledger.ts:78-80 | every kernel log is a chain and the ledger's `replay` gives it back |
| KernelStream.LedgerTakesRun | packages/ledger/src/semantic-ledger.ts:124-174 | a semantic ledger takes every kernel log of well-formed events, one by one |
| SemanticLedger.ValidatorsAgree | packages/ledger/src/semantic-ledger.ts:124-245 | successive appends accept a single-run list exactly when the whole-stream validator does, and both exactly when it is the run's stream |
| Complaints.AppendComplaints | packages/ledger/src/semantic-ledger.ts:124-174 | whichever error an append raises, the thing it names is wrong |
| Complaints.ValidatorComplaints | packages/ledger/src/semantic-ledger.ts:177-245 | the same for the validator of whole streams |
| SemanticLedger.ValidateOrderedRunEvents | packages/ledger/src/semantic-ledger.ts:177-245 | the loop reports the first complaint, or returns the events |
| SemanticLedger.InMemorySemanticLedger.AppendAcceptedEvent | packages/ledger/src/semantic-ledger.ts:124-174 | adds an acceptable event to its run and keeps every run a stream |
| SemanticLedger.InMemorySemanticLedger.AppendAcceptedEventToRun | packages/ledger/src/semantic-ledger.ts:45-60 | the same, for a named run |
| SemanticLedger.InMemorySemanticLedger.VerifyRunIntegrity | packages/ledger/src/semantic-ledger.ts:109-122 | a run the ledger holds always passes its integrity check |
| RecordingOutcome.RecordingReturns | packages/kernel/src/run-kernel.ts:669-696 | exactly when a recording call returns, and exactly when it leaves the log as it was, from its arguments and the log |
| RecordingOutcome.AdmittedPayloadIsValid | packages/kernel/src/run-kernel.ts:158-178 | of all admitted calls only a start with an empty profile records a payload that does not parse |
| SubmissionOutcome.SubmissionCompletes | packages/kernel/src/run-kernel.ts:482-589 | exactly when a final submission completes: a started run, a valid candidate of this run, usable times, references, hash and proof id, enough mismatch ids for what the engine finds, and fresh ids for all events to come |
| SubmissionOutcome.SubmissionStores | packages/kernel/src/run-kernel.ts:482-500 | a submission leaves the log as it was exactly when its candidate cannot be recorded |
| SubmissionOutcome.SubmissionIsNotAtomic | packages/kernel/src/run-kernel.ts:500-517 | a submission that would complete, given an empty proof id, throws and leaves its candidate behind |
| SubmissionOutcome.ReleasesTheSupported | packages/kernel/src/run-kernel.ts:541-569 | a completed submission releases its candidate exactly when what was recorded before it supports every claim |
| SubmissionOutcome.ProofIsValid | packages/proof/src/proof-engine.ts:40-67 | on a valid candidate the engine's proof fits its schema exactly when its time and its given id do |
| SubmissionOutcome.MismatchesComplete | packages/kernel/src/run-kernel.ts:519-537 | the mismatch events are all recorded exactly when there are enough ids and all of them are fresh |
| SampleRun.SampleIsReleased | packages/kernel/src/run-kernel.ts:413-589 | for every run id and hash there is a run that records a receipt and releases a claim on it |
| SampleRun.SampleReplays | packages/replay/src/replay-runner.ts:71-197 | and that run replays to itself |
| SkewedRun.SkewedRunIsNotReplayed | packages/kernel/src/run-kernel.ts:357-411 | for every run id and hash there is a run of calls that all return, with one released submission, that replay does not give back |
| Resubmission.SubmitAgain | packages/replay/src/replay-runner.ts:138-148 | a completed submission, submitted again with the ids and times it recorded, gives the same events and result at any time |
| Resubmission.SubmissionReports | packages/kernel/src/run-kernel.ts:571-588 | a completed submission reports, in order, exactly the events it added |
| Replay.LastFinalCandidateEvent | packages/replay/src/replay-runner.ts:453-467 | the loop finds the last final candidate |
| Replay.ReplayAcceptedInputsBeforeFinalCandidate | packages/replay/src/replay-runner.ts:199-379 | drives a kernel through the stored inputs, or stops |
| Replay.ReplayRunEvents | packages/replay/src/replay-runner.ts:71-197 | the replay of a stream, driving a kernel, is the replay function of the stream |
| ReplayProperties.ReplayIsFaithful | packages/replay/src/replay-runner.ts:71-197 | the log of any run with one completed submission replays, with the stored decision and the log up to that submission event for event, exactly when every stored event fits its schema and every commit before the candidate says, at its event's time, what the first proposal with its mutation id asked for |
| ReplayProperties.DistinctCommandsAreRepeatable | packages/replay/src/replay-runner.ts:480-504 | distinct mutation ids, a steady clock and no collision between the run's commands are enough for that condition |
| ReplayProperties.SkewedCommitIsNotRepeatable | packages/kernel/src/run-kernel.ts:357-411 | a commit whose clock moved on within the call does not meet it |
| ReplayProperties.ShadowedCommitIsNotRepeatable | packages/replay/src/replay-runner.ts:480-504 | nor does one behind another command's proposal under its mutation id |
| ReplayProperties.StepAgain | packages/replay/src/replay-runner.ts:199-379 | replaying a recorded input into the log before it gives the log after it, exactly when the event is repeatable |
| ReplayProperties.RepeatableCommitRepeats | packages/replay/src/replay-runner.ts:326-344 | the proposal found for a repeatable commit passes every guard that the committed command passed |
| ReplayProperties.KernelFindsFirst | packages/kernel/src/run-kernel.ts:987-1011 | the kernel and replay find the same proposal, the first one |
| ReplayProperties.ConclusionBeforeCandidateFails | packages/replay/src/replay-runner.ts:365-376 | no stream with a generated event before its last candidate passes |
| ReplayProperties.TwoCandidatesFail | packages/replay/src/replay-runner.ts:365-376 | no stream with two final candidates passes, whatever became of the submissions |
| ReplayProperties.SecondSubmissionFails | packages/replay/src/replay-runner.ts:365-376 | a run with another submission after a completed one never replays |
| ReplayProperties.ReplayPassesExactly | packages/replay/src/replay-runner.ts:150-197 | once the replayed submission completes, replay passes exactly when event types, outcome, mismatch types and approved ids all agree with the stored ones |
| ReplayProperties.NotesMeaning | packages/replay/src/replay-runner.ts:381-451 | each note of a divergence is made exactly when the thing it names differs |
| ReplayProperties.PassedReplayAttests | packages/replay/src/replay-runner.ts:381-451 | a passed replay is a kernel run of the same event types, whose approved claim ids, mismatch types and outcome are those stored, and whose release, if any, is safe |
| Projection.ValidateAcceptedEventSequence | packages/projections/src/run-projection.ts:109-171 | accepts exactly the linked sequences of well-formed events |
| Projection.MutableRunProjection.Apply | packages/projections/src/run-projection.ts:208-271 | notes the event and adds its payload to the list it belongs to |
| Projection.RebuildRunProjection | packages/projections/src/run-projection.ts:76-107 | succeeds exactly on accepted sequences that begin with a start, and is the fold of the events |
| ProjectionProperties.ProjectionAgreesWithKernel | packages/projections/src/run-projection.ts:76-107 | every kernel log of well-formed events rebuilds, with exactly the kernel's proposals, requests, receipts and observations |
| ProjectionProperties.ProjectionTellsRelease | packages/projections/src/run-projection.ts:273-330 | the projection says released exactly when the log does, with the candidate of the last release, and concluded exactly when the log holds a decision |
| ProjectionProperties.StatusMeaning | packages/projections/src/run-projection.ts:304-330 | the status is that of the last decision, or how far the run has come |
| ProjectionProperties.ProjectedReleaseIsSafe | packages/projections/src/run-projection.ts:262-270 | a projection that says released rests on a safe release |
| LedgerBacked.DurablePrefix | packages/kernel/src/ledger-backed-run-kernel.ts:301-323 | under overlapping calls and arbitrary append failures, before or after they took effect or while still on their way, the durable log is always a prefix of the kernel's |
| LedgerBacked.AwaitedKeepsUp | packages/kernel/src/ledger-backed-run-kernel.ts:216-224 | an awaited call with working appends leaves the ledger equal to the log exactly when the call returned everything it recorded |
| LedgerBacked.AwaitedIsDurable | packages/kernel/src/ledger-backed-run-kernel.ts:301-317 | awaited calls without I/O failures keep the ledger equal to the kernel's log after every call |
| LedgerLag.StuckForGood | packages/kernel/src/ledger-backed-run-kernel.ts:301-323 | a ledger whose next event nobody is going to append stays where it is, whatever is called and however appends go |
| LedgerLag.KeepsUpExactly | packages/kernel/src/run-kernel.ts:669-696 | which calls leave an event behind that they do not return, in terms of their arguments |
| LedgerLag.KeepsUpOrNever | packages/kernel/src/ledger-backed-run-kernel.ts:216-224 | with working appends an awaited call that is none of them leaves the ledger with the whole log, and one of them leaves it behind for good |
| LedgerLag.AwaitedCallsKeepUp | packages/kernel/src/ledger-backed-run-kernel.ts:301-317 | so awaited calls end with the whole log in the ledger exactly when none of them is such a call |
| LedgerLag.EmptyProfileLeavesLedgerBehind | packages/kernel/src/run-kernel.ts:158-178 | a start with an empty profile is one |
| LedgerBacked.FailureIsLatched | packages/kernel/src/ledger-backed-run-kernel.ts:319-323 | after a reported failure no call reaches the kernel again |
| LedgerBackedKernel.LedgerBackedRunKernel.PersistAcceptedEvents | packages/kernel/src/ledger-backed-run-kernel.ts:301-317 | hands the events to the sink in turn and latches the first failure |
| LedgerBackedKernel.LedgerBackedRunKernel.Record | packages/kernel/src/ledger-backed-run-kernel.ts:71-214 | an awaited recording call is one of the protocol's interleavings |
| LedgerBackedKernel.LedgerBackedRunKernel.SubmitFinalCandidate | packages/kernel/src/ledger-backed-run-kernel.ts:216-224 | an awaited submission is one of the protocol's interleavings |
| PostgresLedger.AppendsAreSafe | packages/ledger-postgres/src/index.ts:132-186 | under every interleaving and failure of the clients' queries each run's committed rows stay a stream |
| PostgresLedger.OnlyCommitsAddRows | packages/ledger-postgres/src/index.ts:168-185 | a transaction that does not commit leaves no row, and a commit adds the row of its own append |
| PostgresLedger.RowsAreAcknowledged | packages/ledger-postgres/src/index.ts:179-185 | the committed rows are the acknowledged appends in order, unless the answer to a commit was lost |
| PostgresLedger.VerdictsAreExact | packages/ledger-postgres/src/index.ts:156-166 | a committed run always reads back, and an append in flight is validated exactly when the in-memory ledger would take it now |
| EffectBroker.InMemoryEffectBroker.RegisterAdapter | packages/effect-broker/src/in-memory-effect-broker.ts:214-220 | registers an adapter whose certification is valid |
| EffectBroker.InMemoryEffectBroker.PreflightWrite | packages/effect-broker/src/in-memory-effect-broker.ts:222-289 | decides and persists, or throws and persists nothing |
| EffectBroker.InMemoryEffectBroker.BeginDispatch | packages/effect-broker/src/in-memory-effect-broker.ts:309-324 | a direct dispatch up to the await |
| EffectBroker.InMemoryEffectBroker.BeginDispatchWithPreflight | packages/effect-broker/src/in-memory-effect-broker.ts:291-307 | a governed dispatch up to the await |
| EffectBroker.InMemoryEffectBroker.BeginGovernedDispatch | packages/effect-broker/src/in-memory-effect-broker.ts:326-391 | certification, matching, the cache and the request, in this order |
| EffectBroker.InMemoryEffectBroker.FinishDispatch | packages/effect-broker/src/in-memory-effect-broker.ts:392-483 | validates the outcome, then caches the result, quarantines the write or rethrows |
| BrokerMeaning.ToolMeaning | packages/effect-broker/src/in-memory-effect-broker.ts:1101-1118 | a tool is found exactly when capability, adapter and certification are registered, valid and of one mind about the command |
| BrokerMeaning.PreflightMeaning | packages/effect-broker/src/in-memory-effect-broker.ts:222-289 | which status a preflight decides, for which reason and about what |
| BrokerMeaning.DirectRefusals | packages/effect-broker/src/in-memory-effect-broker.ts:309-324 | a direct dispatch of a write is refused for its missing key or preflight, and one of a read for nothing but the cache or its options |
| BrokerMeaning.DecisionRefusals | packages/effect-broker/src/in-memory-effect-broker.ts:682-742 | what a presented decision is refused for |
| RawContent.RawContentMeaning | packages/effect-broker/src/in-memory-effect-broker.ts:1632-1672 | content is found exactly when an object with a reserved field stands somewhere inside, at any depth |
| BrokerMeaning.FinishMeaning | packages/effect-broker/src/in-memory-effect-broker.ts:392-483 | what the end of an execution answers and caches: the adapter's own fitting receipt and observation, or a quarantine of this very write |
| BrokerMeaning.LifeIsProper | packages/effect-broker/src/in-memory-effect-broker.ts:374-391 | over a broker's life every execution is for its command and of a fitting tool, and every cache entry comes from a finished one |
| BrokerProperties.WritesAtMostOnce | packages/effect-broker/src/in-memory-effect-broker.ts:326-483 | over a broker's whole life a write runs twice under one key if and only if it was started while another one with that key was open |
| BrokerProperties.AloneWritesOnce | packages/effect-broker/src/in-memory-effect-broker.ts:326-483 | while dispatches with one key do not overlap, no write runs twice under a key |
| BrokerProperties.AtMostOnceNeedsAlone | packages/effect-broker/src/in-memory-effect-broker.ts:343-391 | for every hash, a new broker, two registrations, one allowed preflight and two overlapping dispatches that both run |
| BrokerProperties.EntriesNeverChange | packages/effect-broker/src/in-memory-effect-broker.ts:449-480 | without overlap a cache entry, once set, never changes |
| BrokerProperties.SettledKeysStaySettled | packages/effect-broker/src/in-memory-effect-broker.ts:340-372 | every later call with a cached key is given that result, raises that quarantine, raises a conflict, its fingerprint over arguments, capability, run, class, tool and key being another, or is refused before the cache, and never runs |
| BrokerProperties.CachedKeysAnswer | packages/effect-broker/src/in-memory-effect-broker.ts:340-372 | the same for any state in which the key is cached |
| BrokerMeaning.AnsweredForThisEffect | packages/effect-broker/src/in-memory-effect-broker.ts:1700-1711 | a call answered from the cache asks, unless hashes collide, for what the finished execution behind the entry was given, arguments included |
| BrokerMeaning.OtherEffectsConflict | packages/effect-broker/src/in-memory-effect-broker.ts:340-372 | a call that reaches the cache with a key cached for another effect raises a conflict, unless hashes collide; for the same effect it gets the result or the quarantine |
| BrokerProperties.FailuresAreContained | packages/effect-broker/src/in-memory-effect-broker.ts:436-467 | a failed write caches a quarantine of its own decision, a failed read changes nothing |
| BrokerProperties.WritesAreGoverned | packages/effect-broker/src/in-memory-effect-broker.ts:682-742 | every write that runs was allowed by a decision this broker issued before, matches it, and is never critical |
| BrokerProperties.AllowedForThisEffect | packages/effect-broker/src/in-memory-effect-broker.ts:713-741 | unless the compared hashes collide, that decision is the presented one, made for this very effect |
| BrokerProperties.AllowedReachesAdapter | packages/effect-broker/src/in-memory-effect-broker.ts:222-324 | an allowed decision presented unchanged, without registration or newer preflight in between, always reaches the adapter |
| Harness.LocalRunHarness.DispatchToolCommand | packages/harness/src/local-run-harness.ts:79-129 | proposal, broker and recording, in this order, on the objects themselves |
| Harness.LocalRunHarness.RecordEffectLifecycle | packages/harness/src/local-run-harness.ts:183-253 | request, admitted receipt and observation, each caused by the one before |
| RecordedEffects.AdmittedReceiptIsGiven | packages/harness/src/local-run-harness.ts:293-304 | the recorded receipt is the adapter's, field by field, with evidence that names the receipt's event |
| RecordedEffects.AdmittedObservationIsGiven | packages/harness/src/local-run-harness.ts:306-333 | the same for the observation |
| HarnessProperties.LifecycleAdds | packages/harness/src/local-run-harness.ts:183-253 | request, receipt and observation as they were given, each event caused by the one before unless the caller says otherwise |
| HarnessProperties.DispatchIsIdempotent | packages/harness/src/local-run-harness.ts:79-129 | after a first success any number of further dispatches, whether or not the kernel takes their proposals, give one execution, one request, one receipt and a proposal for each success, all with the same recorded effect: the adapter's own receipt and observation, for a request of the command |
| SampleDispatch.FitDispatchSucceeds | packages/harness/src/local-run-harness.ts:79-129 | for every run id and hash a command of a certified read tool whose first dispatch succeeds |
| HarnessProperties.LaterDispatch | packages/harness/src/local-run-harness.ts:183-195 | a dispatch of a remembered effect records its proposal and nothing else |
| HarnessProperties.UnfitEvidenceIsNotRecorded | packages/harness/src/local-run-harness.ts:293-304 | a receipt whose evidence has another kind or hash is never recorded, and the log stays as it was |
| UnfitReceipts.UnfitReceiptIsCached | packages/effect-broker/src/in-memory-effect-broker.ts:449-480 | wherever the broker accepts a receipt it accepts and caches one whose evidence has other kinds and hashes |
| UnfitReceipts.UnfitReceiptPoisons | packages/harness/src/local-run-harness.ts:183-253 | a first dispatch answered with such a receipt is executed, cached and refused by the kernel |
| UnfitReceipts.PoisonedForGood | packages/harness/src/local-run-harness.ts:79-129 | after that every dispatch of the command fails, executes nothing and records no receipt |
| SampleDispatch.UnfitDispatchNeverSucceeds | packages/harness/src/local-run-harness.ts:79-129 | for every run id and hash a command of a certified tool to which this happens |
| CanonicalJson.CanonicalIsExact | packages/contracts/src/hash.ts:113-147 | two values have the same canonical text exactly when they are equal up to the order of members at every depth |
| CanonicalJson.CanonicalReadsBack | packages/kernel/src/events.ts:222-227 | parsing a canonical text gives the value back with its members in order |
| CanonicalJson.CanonicalIsCompact | packages/contracts/src/hash.ts:113-147 | a canonical text is no longer than its value needs: brackets, commas, colons, names and values, and no blanks |
| CanonicalJson.SortKeeps | packages/contracts/src/hash.ts:138-140 | sorting an object's entries keeps what the object means |
| JsonText.StringReadsBack | packages/contracts/src/hash.ts:186-188 | every string, lone surrogates included, is read back from its JSON text |
| JsonText.EscapeIsShortest | packages/contracts/src/hash.ts:186-188 | a character is written as the shortest text that stands for it, with lower-case digits, and a surrogate on its own as its escape |
| Utf8.Utf8Bytes | packages/contracts/src/hash.ts:190-208 | the loop encodes the code points of a string in order |
| Utf8.OctetsAreRfc3629 | packages/contracts/src/hash.ts:210-236 | the octets pushed for a scalar value are those of the table of RFC 3629 section 3, and no others are |
| Utf8.EncodeIsInjective | packages/contracts/src/hash.ts:190-236 | different UTF-16 strings have different octets |
| Utf8.CodePointsArePaired | packages/contracts/src/hash.ts:190-208 | no two code points of a string are left that form a surrogate pair |
| Sha256.Sha256Words | packages/contracts/src/hash.ts:34-106 | the loops over bytes, schedule and rounds compute the digest of FIPS 180-4 section 6.2.2 |
| Sha256Constants.WordsAreCubeRoots | packages/contracts/src/hash.ts:8-20 | the 64 words are the first 32 bits of the fractional parts of the cube roots of the first 64 primes (FIPS 180-4 section 4.2.2) |
| Sha256Constants.InitialHashIsSquareRoots | packages/contracts/src/hash.ts:3-6 | the initial hash value is that of the square roots of the first eight (section 5.3.3) |
| Sha256Constants.FirstPrimes | packages/contracts/src/hash.ts:8-20 | those are the first 64 primes: ascending, prime, and none left out |
| Sha256.XorBitwise | packages/contracts/src/hash.ts:78-96 | exclusive or, bit by bit |
| Sha256.LeftShift | packages/contracts/src/hash.ts:47-54 | bits move to the left and zeros come in |
| Sha256.RightShift | packages/contracts/src/hash.ts:174-176 | bits move to the right and zeros come in |
| Sha256.PaddedLengthIsLeast | packages/contracts/src/hash.ts:149-154 | the padded length is the least multiple of 64 at or above n + 9 |
| Sha256.PaddingBits | packages/contracts/src/hash.ts:149-154 | the zero bits are the least number that FIPS 180-4 section 5.1.1 asks for |
| Sha256.LengthReadsBack | packages/contracts/src/hash.ts:156-172 | the length field reads back as the length |
| Sha256.WriteUint64BigEndian | packages/contracts/src/hash.ts:156-172 | writes the eight octets of the length from its two halves and nothing else |
| Sha256.LoadWords | packages/contracts/src/hash.ts:47-54 | the signed shifts and ors give the big-endian words of the block |
| Sha256.ExpandWords | packages/contracts/src/hash.ts:56-67 | the signed intermediates give the message schedule |
| Sha256.CompressBlock | packages/contracts/src/hash.ts:69-105 | sixty-four rounds and the addition to the state |
| Sha256.RoundAgrees | packages/contracts/src/hash.ts:78-96 | one pass of the loop body is one round of the standard |
| Sha256.RotateRightIsRotr | packages/contracts/src/hash.ts:174-176 | the JavaScript rotation is ROTR |
| Sha256.TextsTellApart | packages/contracts/src/hash.ts:108-110 | different digests have different hexadecimal texts |
| Sha256.TextReadsBack | packages/contracts/src/hash.ts:108-110 | the text of a digest reads back, word by word, as lower-case hexadecimal digits |
| CanonicalHash.ComputeHash | packages/contracts/src/hash.ts:26-32 | canonical JSON through UTF-8 and SHA-256 as text |
| CanonicalHash.HashTellsMeaning | packages/contracts/src/hash.ts:22-32 | but for a SHA-256 collision of the two inputs, equal hashes mean equal values up to the order of members |
| EventStream.SplitFrames | packages/provider-harness/src/openai-compatible-provider.ts:362-390 | however the text is cut into chunks, the frames are those of the whole text split at its leftmost separators |
| EventStream.LeftmostStays | packages/provider-harness/src/openai-compatible-provider.ts:373-382 | a separator found in a prefix is still the leftmost one in every extension |
| EventStream.MatchesSeparators | packages/provider-harness/src/openai-compatible-provider.ts:373-382 | the pattern matches exactly where one of the four blank lines of CRLF and LF stands |
| EventStream.FramesHoldNone | packages/provider-harness/src/openai-compatible-provider.ts:373-382 | no frame holds any of them |
| EventStream.FramesAreTheText | packages/provider-harness/src/openai-compatible-provider.ts:373-382 | frames and separators make up the text again, and no frame holds a separator |

## Left out

- ReplayProperties.ReplayIsFaithful: for runs whose one final candidate was submitted to completion; no stream with more of them passes (`TwoCandidatesFail`), and a single submission that was cut short is not covered.
- ReplayProperties.PassedReplayAttests: the stored and replayed commits may differ in their payloads, because the comparison looks at event types only.
- EventStream.SplitFrames: a decoder that flushes a line feed is covered by the second clause only; parsing the frames, and the decoder itself, are not modelled.
- Sha256.Sha256Words: for inputs below 2^50 bytes, beyond which a JavaScript number no longer holds the length in bits.
- CanonicalJson.CanonicalIsExact: `localeCompare` is assumed to order all keys without ties; numbers are named by integers, so negative zero, which is written like zero, is not among them.
- PostgresLedger.AppendsAreSafe: one append in flight on each connection, and nobody else writes the table; the constraints of the table, whose migrations are not part of this model, are not relied on; rows read back as the events that were inserted.
- PostgresLedger.OnlyCommitsAddRows: a failed query ends its transaction; that the code ignores a failing `ROLLBACK`, after which the next append on that connection may go on in the old transaction and commit its row, is not modelled.
- LedgerBacked.DurablePrefix: the sink is used by this kernel alone.
- BrokerProperties.EntriesNeverChange: for brokers whose dispatches with one key do not overlap; reads of one key that overlap may overwrite each other's entry.
- LedgerBackedKernel.LedgerBackedRunKernel.Record: one method stands for the thirteen recording methods, which differ only in the kernel method they call.
- Messages and reasons: the wording of errors, mismatches, repair hints and final messages; final messages are lists of the predicate fields they are rendered from.
- Schemas: the contract parsers are predicates on values that already have the right shape; fields that no modelled branch reads are gathered in a `details` object, and sequences are natural numbers.
- Appends through the kernel's public `ledger` field, and ledgers that start from initial events.
- Texts outside `JsonText` and `Utf8` are sequences of Unicode scalar values, so lone surrogates in identifiers are not modelled.
- Malformed certifications and adapter results count as one case each; which of their fields is malformed is not told apart.
- The harness's awaits are taken one after another; interleaved harness calls are not modelled.
- HTTP, file system, shell and compute adapters, the command line, artifacts, demos and telemetry: input and output around libraries.
- Redaction, secret patterns and certification manifests: regular expressions and independent checks of single fields.
- The reconciliation engine, the LangGraph and Temporal adapters, the conformance report and the security policy: advisory or thin translations.
