# Verified model of the operations agent's core

A Dafny 4.11 model of the parts of `valops` that carry its guarantees, and proofs of those guarantees. It is
checked with `dafny verify dfyconfig.toml`.

## What is modelled

**Episodes.** An episode is an append-only log of entries and a record that is the fold of that log
(`EpisodeRecord`). `StoreSpec` says what the store decides about each call on one episode: endpoint, capability
gate, idempotency key, contract, compare-and-swap. `EpisodeStore` is the store as an object, with its table of rows,
its dictionary of live records updated in place, its lookups and loops; each method is proved to do exactly what
`StoreSpec` and `StoreRuns` say. `StoreAnswers` proves call by call what that is: the checks in the order in which
they refuse, and otherwise the record afterwards, field by field. `LogFacts` proves what every legal log guarantees,
and `StoreRuns` what every run over all episodes does, restarts included.

**The controller.** `RunnerSpec` is `advance` as a step system: each store call is one atomic step, and between any
two of them workers (arbitrary agent operations under a minted capability), the sentinel and the recovery verifier
may write. A store call the runner gives up on, or dies waiting for, is not undone: it stays with the store and may
take effect at any later moment, in any order. `Runner` is the controller's code as an object over an
`EpisodeStore`; it is proved to follow the step system, whatever the others do in between, whichever call or read
fails, and with what `tick` does about each error. `RunnerSafety` proves that every transition the controller makes
passed its gate at the revision it was taken from, `RunnerBound` that the retry budgets bound the steps, and
`RunnerFaults` that what the bound counts as failures really are failures. `RunnerCauses` proves the other
direction: every hand-off has a cause in the very record it was decided on, a failed step within its budget is
retried, and what each pass starts, records and moves. `StepChecks` says what a step must have left in the record to
count as completed.
The parameter `strict` says that nothing outlives its step: a capability is unusable once its step has ended, and
no store call takes effect after the runner has stopped waiting for it. With it, the verdict behind a transition
to `reporting` is that of the judging visit's own session and its target that of the planner session before it.
Without it (the controller only logs a revocation that fails, and a store thread outlives its caller) the verdict
is still of that visit and still about the artefact under judgement, but it need not be by the judge that
completed: `RunnerWitness` constructs the run, and `RunnerReach` reaches it from every episode just opened.

**Recovery.** `Rules` is the predicate language, `RecoveryVerifier` the streak map against the history it
summarises, and `RecoverySafety` the verifier beside the store, with `append_verification` in its two separate
locked regions and with the calls that outlive the verifier's wait or a restart. `RecoveryOutcomes` proves what
every run of it guarantees: resolutions, observations, and verifications after the end. `RecoveryAnswers` proves that
it acts when it should: which samples lead to an observation or a resolution, and what that leaves in the record.

**Audit.** `HashChain` has the link structure, `AuditChain` the sequencer, its reload and `verify_chain`,
`DaemonChain` the validator host's chain and the two-party checkpoint protocol, and `ReportRaces` what that protocol
still guarantees when reports overlap. A hash is any function on links,
injective where a theorem needs it; a signature is a predicate ("signed", "trusted").

**Limits.** `ModelBroker` has admission and metering with requests in flight, and `ObserverDaemon` the
sliding-window rate limiter and the circuit breaker.

Time is a parameter of each write and does not run backwards. Prices and money are exact. P-08, P-09, windows and
limits are parameters. The uuid of a new session or episode is a parameter that has not been used before.

## Where the code does not do what its documentation says

- An agent's repeated call is answered from the log only while the tool is still legal in the episode's state; once
  the state has moved on the repetition is refused (`LogFacts.AgentReplayAfterTransition` says exactly when).
- A verification can land after an episode has ended, because the terminal check and the write are two locked
  regions (`RecoveryOutcomes.VerificationCanLandLate`). No more can land than requests were past their check when
  the episode ended (`RecoveryOutcomes.LateVerificationsBounded`, `RecoveryOutcomes.WritingWasChecked`). That is at
  most one unless the verifier gives up on such a request or restarts during it
  (`RecoveryOutcomes.AtMostOneLateVerification`); then two can (`RecoveryOutcomes.AbandonedWriteLandsToo`).
- A verdict by a judge whose step was abandoned can decide the episode in place of the judge step that completed,
  as long as its capability still works (`RunnerWitness.AbandonedJudgeDecides`).
- `submit` takes any known event name, `observe_checkpoint` included (`AuditChain.ForgedReportSurvivesRestart`), and
  `record_daemon_checkpoint` holds no lock between its decision and its append. `AuditChain.StepReloads` says exactly
  which steps make a reload inexact, and `AuditChain.ReachableReloads` in exactly which states it is when accepted
  checkpoints are written in the order of their acceptance. Overlapping reports can break that order
  (`AuditChain.OverlappedReportsRewind`) and take the position held back to a shorter chain
  (`ReportRaces.OverlappedReportsRegress`). Whatever the daemon shows, no decision does so if and only if every report
  decides against a position that is still held (`ReportRaces.AdvancesIff`).
- The meter that `close_session` returns can still change: it is final as to requests being forwarded if and only if
  there are none, and every further request on a connection accepted before changes it
  (`ModelBroker.SnapshotFinalIff`).
- With a free output price the dollar limit is not consulted: it holds if and only if the whole input allowance is
  affordable (`ModelBroker.BudgetKeptIff`). A negative requested cap becomes a negative clamp
  (`ModelBroker.ClampOutput`, `ModelBroker.NegativeCapRaisesAllowance`); the output-token limit holds of what the
  provider produces if and only if callers ask for no negative caps (`ModelBroker.TokensKeptIff`).
- The dedupe key joins class, check and validator with bars. A subject that `open_episode` accepts has a key of its
  own if and only if no other bar splits check and validator into two non-blank parts (`StoreRuns.UnambiguousIff`);
  otherwise another accepted subject is answered with its episode (`StoreRuns.SplitSubjectShares`).
- Missing data can satisfy a predicate (`ne`, but also `eq`) on a field that is itself an object, or a list in which an
  object occurs, as in the tower files of `consensus_state_files` (`Rules.ListedLossConfirms`); a field is safe if
  and only if it has nothing to lose (`Rules.SafeFieldsAreSolid`). An empty `all_of` holds of anything, and only bundle validation keeps it out
  (`Rules.EmptyConjunctionHolds`).

## Model

| member | source | states |
|---|---|---|
| `RunnerSafety.ReportingNeedsPass` | valops/controller/runner.py:284-334 | in every run, for any workers, sentinel and verifier, an episode leaves `judging` for `reporting` only when the last verdict was written in that visit, says PASS and targets the artefact under judgement at that revision; with exact revocation verdict and artefact are by the sessions of the completed judge and planner steps |
| `RunnerSafety.ReachableSafe` | valops/controller/runner.py:284-334 | the inductive invariant of all runs, abandoned calls included: legal log, every controller transition gated at its own revision, every session in the record minted, the step under way owns what its visit wrote unless an abandoned transition has overtaken it |
| `RunnerSafety.TopHypothesisThroughout` | valops/store/fold.py:82-92 | in every state of every run after a completed diagnosis, the top hypothesis exists and is the only rank-1 hypothesis of the last diagnosis that completed; it stays the same hypothesis until another completes, whatever is rated or refuted |
| `RunnerWitness.AbandonedJudgeDecides` | valops/controller/runner.py:310-325 | from every state with a judge at work that has not written, if the process dies there: a run in which a second judge completes with FAIL, the first writes PASS, and the episode is reported on a verdict that is not of the completed step |
| `RunnerWitness.LateVerdictDecides` | valops/controller/runner.py:322-325 | whenever a judge step is recorded as completed and an earlier judge session can still write, its PASS, the re-read and the compare-and-swap end in `reporting` |
| `RunnerReach.JudgeAtWorkReached` | valops/controller/runner.py:284-320 | from every episode just opened there is a run, with a diagnosis and a no-action recommendation, to a judge at work that has not written |
| `RunnerReach.AbandonedJudgeReached` | valops/controller/runner.py:310-325 | and on to `reporting` on the verdict of an abandoned judge, while the completed judge step is another |
| `RunnerSafety.AtMostP09Returns` | valops/controller/runner.py:322-332 | in every run the Judge sends the episode back to the planner at most P-09 times |
| `RunnerSafety.RefutationIsNotVacuous` | valops/controller/runner.py:311-318 | leaving `diagnosing` for `reporting` without an observed recovery means a top hypothesis exists and is itself refuted |
| `RunnerSafety.CasEntry` | valops/controller/runner.py:92-102 | an accepted transition of the controller happens at the very revision its decision was read from, and is in the controller's table |
| `RunnerBound.StepsBounded` | valops/controller/runner.py:252-264 | in every run the role steps started are at most (P-08 + 1) * (2 * P-09 + 4), plus one for each lost compare-and-swap and each failure |
| `RunnerBound.NextWithin` | valops/controller/runner.py:284-334 | every step of the runner and of everybody else keeps the started steps within the allowance of the current state, returns and failures in the visit |
| `RunnerFaults.FaultsAreFailures` | valops/controller/runner.py:92-102 | a lost race means somebody wrote since the decision; any other failure is an error or crash, an unanswered audit call, a move of an episode that has ended, a revision too long for a key, or (when calls may outlive the runner's wait) the conclusion of a step that an abandoned transition overtook |
| `RunnerFaults.CasAccepted` | valops/store/service.py:357-377 | a compare-and-swap computed from the current record, to a state its table allows, is accepted unless the episode has ended: its key is fresh |
| `RunnerFaults.ReachableKeyed` | valops/controller/runner.py:92-102 | in every run, keys under `state:` and `step:` name the revision moved and a minted session, no step record is ever written twice, and when nothing outlives its step every move about to be made is in the table |
| `RunnerFaults.StepAccepted` | valops/controller/runner.py:229-232 | the step record of a step under way is never refused as a repetition |
| `RunnerCauses.HandOffHasCause` | valops/controller/runner.py:252-334 | in every run, every hand-off in the log was decided in the very record it was written to, because of a condemned bundle, a failed isolation check, an error, a limit, more than P-08 failed steps of the role since the last transition, or more than P-09 FAIL verdicts after one that did not pass |
| `RunnerCauses.RereadAnswered` | valops/controller/runner.py:257-334 | in every run, where the re-read after a step leads: to nothing after a failure without a limit and at most P-08 of them in this state, and otherwise to which state, counted over the indices of steps and verdicts and the hypotheses of the last completed diagnosis |
| `RunnerCauses.FailedStepIsRetried` | valops/controller/runner.py:257-264 | in every run, such a failed step writes nothing more, and the next pass starts the same role again |
| `RunnerCauses.BeginAnswered` | valops/controller/runner.py:284-347 | exactly when a pass starts a worker, for which role, and when it decides to move the episode instead: pre-flight, bundle, state, and for a closure report that it is missing and has failed at most P-08 times |
| `RunnerCauses.CasAnswered` | valops/controller/runner.py:92-102 | in every run, a compare-and-swap at the revision it was decided on moves the episode unless that has ended, and at any other writes nothing |
| `RunnerCauses.RecordAnswered` | valops/controller/runner.py:229-232 | in every run, the finding about a step is recorded under its role, session and state |
| `RunnerCauses.ValidationAnswered` | valops/controller/runner.py:225-250 | a step counts as completed exactly if the worker ended and its artefact is valid for its role and report kind; a limit counts only if it did not |
| `RunnerCauses.CostRecorded` | valops/controller/runner.py:205-223 | the cost of a step is added to its role and kept under its session, and to no other |
| `RunnerCauses.TroubleAnswered` | valops/controller/runner.py:304-309 | an error, and a Judge shown what it must not see, lead to a hand-off decided on a fresh read |
| `RunnerCauses.AbandonedCallLands` | valops/controller/runner.py:360-375 | a store call given up on has, when the store gets on with it, the effect it would have had |
| `StepChecks.DiagnosisOk` | valops/controller/artefacts.py:25-35 | a diagnosis is valid if and only if the session has n > 0 hypotheses without blank fields whose ranks are different and within 1..n, and structured output, if any, names exactly those |
| `StepChecks.PlanOk` | valops/controller/artefacts.py:38-46 | a plan if and only if the session has exactly one artefact, it cites evidence, and structured output, if any, names it |
| `StepChecks.VerdictOk` | valops/controller/artefacts.py:49-56 | a verdict if and only if the session has exactly one, it has checks, and structured output, if any, says the same result on the same target |
| `StepChecks.ReportOk` | valops/controller/artefacts.py:59-66 | a report if and only if the session has one of the kind, the sink acknowledged an alert of it, and structured output, if any, names the last |
| `Runner.Runner.Advance` | valops/controller/runner.py:284-375 | one pass of `advance` as `tick` calls it, as code over the store object: whichever read or call fails or gets no reply, it is one run of the step system to rest, so the Judge's returns and the started steps are within the budgets; what a pass starts and decides is stated by `RunnerCauses` |
| `Runner.Runner.Handle` | valops/controller/runner.py:360-375 | an error raised by `advance` is left to the next tick when the store or sequencer was unavailable, and handed off from a fresh read otherwise |
| `Runner.Runner.GiveUp` | valops/controller/runner.py:362-365 | a pass that ends without a reply leaves its call with the store |
| `Runner.Runner.Choose` | valops/controller/runner.py:284-303 | the head of `advance`: which episodes rest, are handed off, opened up, or get a step, a capability being minted first |
| `Runner.Runner.RunStep` | valops/controller/runner.py:151-233 | the worker's step, revocation, cost, validation and step record, in the source's order and with the errors that can cut each short, are steps of the system and end where it says; an error inside the step still revokes and accounts |
| `Runner.Runner.Settle` | valops/controller/runner.py:257-334 | after the step: what the step system does then; `RunnerCauses.RereadAnswered` says when that is a hand-off, a retry, or which move |
| `Runner.Runner.Transition` | valops/controller/runner.py:92-102 | the compare-and-swap of the controller, with its counters; it is raised as an error exactly when refused for another reason than a conflict or an unanswered audit call |
| `Runner.Runner.RecordStep` | valops/controller/runner.py:229-232 | the step record is written exactly if the audit sequencer answers |
| `Visits.ReturnsBounded` | valops/controller/runner.py:322-332 | a log whose transitions passed their gates holds no more returns than FAIL verdicts at the visit's entry, and never more than P-09 |
| `Visits.VerdictTargetsUnderJudgement` | valops/store/service.py:265-288 | within a judging visit the artefact under judgement stays the one the last verdict names |
| `Visits.VisitVerdictIsLast` | valops/store/service.py:265-288 | verdicts are written only while judging, and the visit's last is the record's last |
| `Artefacts.TopHypothesisDefined` | valops/store/fold.py:82-92 | after a completed diagnosis step the top hypothesis exists, is of that step, and is its only one of rank 1 |
| `Artefacts.DiagnosisHasRankOne` | valops/controller/artefacts.py:25-35 | a diagnosis whose ranks are 1..n has a hypothesis of rank 1 |
| `Artefacts.JudgeValidIffWritten` | valops/controller/artefacts.py:49-56 | on records the store produces, a judge step validates if and only if it wrote a verdict |
| `Artefacts.PlannerValidIffWritten` | valops/controller/artefacts.py:38-46 | likewise a planner step and its artefact |
| `StoreSpec.PerformIsLegal` | valops/store/service.py:119-138 | every call, accepted or refused, extends a legal log to a legal log |
| `StoreSpec.DecideIsLegal` | valops/store/service.py:156-306 | whatever is written was admissible for the record before it and under a key of its own |
| `StoreSpec.GatePassed` | valops/store/service.py:156-170 | a call past the gate is served on its endpoint; an agent's has the tool's role and legal state, and the bundle the episode is bound to |
| `StoreSpec.LegalRevisions` | valops/store/service.py:119-138 | revisions are exactly 1..n |
| `StoreSpec.DecideWrites` | valops/store/service.py:467-496 | who an entry is by, and of which kind it can be, follows from the endpoint and operation |
| `StoreAnswers.HypothesisAnswered` | valops/store/service.py:173-192 | under a new key: the first refusal among endpoint, episode, bundle, role, state, key, blank fields and rank, and otherwise exactly the claimed hypothesis, unrated, under the rank and session of the call |
| `StoreAnswers.RatingAnswered` | valops/store/service.py:194-208 | likewise: the named hypothesis has the status and evidence of the call, and every other is what it was |
| `StoreAnswers.RecommendationAnswered` | valops/store/service.py:210-248 | likewise: the recommendation as proposed, if the session has no artefact yet and the skill is for planners in this consensus mode |
| `StoreAnswers.NoActionAnswered` | valops/store/service.py:250-263 | likewise: the conclusion that nothing is to be done, with its reason and evidence |
| `StoreAnswers.VerdictAnswered` | valops/store/service.py:265-288 | likewise: the verdict with the result and checks given, only on the artefact under judgement and once per session |
| `StoreAnswers.ReportAnswered` | valops/store/service.py:290-306 | likewise: the report under its kind, an incident report while reporting and a closure report when resolved |
| `StoreAnswers.TokenNeeded` | valops/store/service.py:156-170 | without a capability no agent and no observer gets further than its endpoint |
| `StoreAnswers.TransitionAnswered` | valops/store/service.py:357-377 | the refusals of the compare-and-swap in their order, and otherwise the new state and one more line of history |
| `StoreAnswers.TableIff` | valops/store/transitions.py:10-25 | the fourteen transitions there are |
| `StoreAnswers.SignalAnswered` | valops/store/service.py:379-396 | the numbered signal as collected, or the first refusal |
| `StoreAnswers.ObservationAnswered` | valops/store/service.py:458-464 | likewise, stamped with the role and session of the capability |
| `StoreAnswers.CostAnswered` | valops/store/service.py:408-411 | cost and turns are added to the role, and to no other, and kept under the session |
| `StoreAnswers.StepAnswered` | valops/store/service.py:413-416 | the step record says role, session, outcome, reason and state as given |
| `StoreAnswers.AnnotationAnswered` | valops/store/service.py:418-421 | an annotation with a note is recorded |
| `StoreAnswers.VerificationAnswered` | valops/store/service.py:444-450 | a verification is recorded with its rule, result and samples |
| `StoreAnswers.VerifiableIff` | valops/store/service.py:444-449 | its first region lets it through exactly if the rule is named and the episode exists and has not ended |
| `StoreAnswers.RecoveryAnswered` | valops/store/service.py:452-456 | a recovery observation is recorded with its rule and note |
| `LogFacts.ReferencesHold` | valops/store/service.py:141-154 | in every record: ids are prefix + 1..n, evidence and hypothesis references resolve, rated hypotheses and artefacts cite evidence, verdicts target recorded artefacts, and no session owns two artefacts, two verdicts or a rank twice |
| `LogFacts.CitationsAreEarlier` | valops/store/service.py:173-288 | when it was written, every citation named signals already collected, every recommendation a recorded hypothesis, every verdict the artefact written last |
| `LogFacts.IdsDistinct` | valops/store/service.py:141-143 | counted ids are unique, among signals, hypotheses, recommendations and no-actions, and across the last two |
| `LogFacts.TerminalFreeze` | valops/store/service.py:357-377 | once terminal, the state never changes and only bookkeeping, observations, verifications and (when resolved) closure reports follow |
| `LogFacts.AwaitingIsContiguous` | valops/store/transitions.py:10-25 | `awaiting_operator` is left only for a terminal state |
| `LogFacts.OneTransitionPerRevision` | valops/store/service.py:357-377 | at most one transition is ever accepted from a given revision |
| `LogFacts.RepeatedKeyChangesNothing` | valops/store/service.py:113-117 | a call under a key already in the log never changes the log |
| `LogFacts.ReplayIffGateOpen` | valops/store/service.py:113-117 | repeating an accepted call returns the original reply if and only if the gate still admits the caller |
| `LogFacts.TransitionReplays` | valops/store/service.py:357-396 | for `set_state` and `append_signal` it always does, even after the episode has ended |
| `LogFacts.AgentReplayAfterTransition` | valops/store/service.py:156-178 | for an agent it does exactly while the tool is legal in the episode's state |
| `LogFacts.InsertsAreUnique` | valops/store/service.py:132-138 | the table's unique constraints on revision and key never fire |
| `EpisodeRecord.FoldEntries` | valops/store/fold.py:73-79 | the loop computes the fold |
| `EpisodeRecord.UnderJudgementIsLatest` | valops/store/fold.py:95-98 | the maximum by revision over two lists is whichever artefact entry was written last |
| `JudgeView.NonInterference` | valops/store/fold.py:101-122 | logs that agree on signals, artefacts, transitions, verifications and recoveries look the same to the Judge |
| `JudgeView.DeletionIsInvisible` | valops/store/fold.py:101-122 | deleting any hypotheses, ratings, verdicts, reports, costs, steps and annotations leaves the Judge's view unchanged |
| `JudgeView.ViewShows` | valops/store/fold.py:101-122 | the view has all signals, verifications and recoveries, the artefact written last less its session and revision, and for a recommendation the modes and preconditions of its skill if that is known |
| `EpisodeStore.EpisodeStore.constructor` | valops/store/service.py:81-100 | `_rebuild` over the table read by episode and revision makes the live record of each episode the fold of its log |
| `EpisodeStore.Reopen` | valops/store/service.py:94-100 | a new object over the old one's table has the same records and differs at most in the dictionary's order |
| `EpisodeStore.SortedUnique` | valops/store/service.py:94-100 | two orderings of the same entries by strictly increasing revision are equal |
| `EpisodeStore.ScanKeepsLogs` | valops/store/service.py:94-100 | reading the table by episode and revision gives back each episode's log |
| `EpisodeStore.EpisodeStore.Append` | valops/store/service.py:119-138 | the row and the live record together, or neither when the audit sequencer does not acknowledge |
| `EpisodeStore.EpisodeStore.Idem` | valops/store/service.py:113-117 | the search over the rows finds the reply stored under the key |
| `EpisodeStore.EpisodeStore.PassAgentGate` | valops/store/service.py:156-170 | the gate's checks, in order, on the live record |
| `EpisodeStore.EpisodeStore.AppendHypothesis` | valops/store/service.py:173-192 | on the live record, decides and writes what `StoreAnswers.HypothesisAnswered` says |
| `EpisodeStore.EpisodeStore.AppendHypothesisStatus` | valops/store/service.py:194-208 | on the live record, decides and writes what `StoreAnswers.RatingAnswered` says |
| `EpisodeStore.EpisodeStore.AppendRecommendation` | valops/store/service.py:215-248 | likewise, with the skill and consensus-mode checks |
| `EpisodeStore.EpisodeStore.AppendNoAction` | valops/store/service.py:250-263 | likewise |
| `EpisodeStore.EpisodeStore.AppendVerdict` | valops/store/service.py:265-288 | likewise, with the artefact under judgement as the only target |
| `EpisodeStore.EpisodeStore.AppendReport` | valops/store/service.py:290-306 | likewise, incident reports while reporting and closure reports when resolved |
| `EpisodeStore.EpisodeStore.SetState` | valops/store/service.py:357-377 | the compare-and-swap, its refusals in order, and its default key |
| `EpisodeStore.EpisodeStore.AppendSignal` | valops/store/service.py:379-396 | likewise for the sentinel's signals |
| `EpisodeStore.EpisodeStore.AppendObservation` | valops/store/service.py:458-464 | likewise for a worker's, stamped with its role and session |
| `EpisodeStore.EpisodeStore.CheckVerification` | valops/store/service.py:444-449 | the first region of `append_verification` |
| `EpisodeStore.EpisodeStore.WriteVerification` | valops/store/service.py:450-450 | the second region, whatever has happened since the first |
| `EpisodeStore.EpisodeStore.FindLive` | valops/store/service.py:335-340 | the loop over the live records finds the first episode on the subject that has not ended |
| `EpisodeStore.EpisodeStore.OpenEpisode` | valops/store/service.py:315-355 | repetition, refusals, deduplication, creation, and taking the new record back when the write is refused |
| `EpisodeStore.EpisodeStore.Dispatch` | valops/store/service.py:467-501 | each endpoint serves its own operations and no others |
| `StoreRuns.OneOpenEpisode` | valops/store/service.py:315-340 | in every reachable store at most one episode of a class, check and validator has not ended |
| `StoreRuns.ReachableOk` | valops/store/service.py:315-355 | every run of openings, calls and restarts keeps all logs legal and every dedupe key live at most once |
| `StoreRuns.LogsGrow` | valops/store/service.py:119-138 | no operation on any episode, and no restart, ever changes or removes an entry |
| `StoreRuns.EndedForGood` | valops/store/service.py:357-377 | an episode that has ended keeps its state for the rest of every run |
| `StoreRuns.RestartIsInvisible` | valops/store/service.py:94-100 | stores that differ only in dictionary order answer every operation alike and stay so |
| `StoreRuns.RestartsErased` | valops/store/service.py:94-100 | erasing every restart from a run leaves the same logs and openings |
| `StoreRuns.OpenReplays` | valops/store/service.py:315-323 | a repeated opening key answers as the first time, whatever has happened since |
| `StoreRuns.UnambiguousIff` | valops/store/service.py:324-334 | an accepted subject has a dedupe key of its own if and only if no bar but its own splits its check and validator into two non-blank parts |
| `StoreRuns.LiveKeyAnswers` | valops/store/service.py:335-340 | in every reachable store an acceptable opening is answered with an existing episode exactly if that one has its dedupe key and has not ended, and then nothing is written |
| `StoreRuns.OpenRefused` | valops/store/service.py:315-333 | an opening under a new key is refused by the first of its checks that fails, the bundle last |
| `StoreRuns.OpenedNew` | valops/store/service.py:341-355 | in every reachable store, an acceptable opening whose key no unfinished episode has makes one new episode on exactly its subject, bundle and mode |
| `StoreRuns.SplitSubjectShares` | valops/store/service.py:334-340 | whenever such a bar exists, the subject it gives is answered with the first subject's episode, in every run, until that episode has ended |
| `StoreRuns.DedupeKeysCollide` | valops/store/service.py:334-340 | a concrete pair of accepted subjects with one key: once the first is opened, the second is answered with its episode |
| `RecoveryVerifier.RunMeansLastHeld` | valops/verifier/verifier.py:81-83 | a streak of n says that the rule's last n evaluations were of fresh samples that satisfied it, restarts or not |
| `RecoveryVerifier.RunIsLongest` | valops/verifier/verifier.py:81-83 | and it is exact: the last w evaluations since the last start all held if and only if the streak is at least w |
| `RecoveryVerifier.RecoveryVerifier.Evaluate` | valops/verifier/verifier.py:80-94 | the streak map stays the summary of the history; the action is an observation exactly if the sample is fresh, satisfies the rule, begins a streak and the episode does not wait for the operator, and a resolution exactly if it does wait and the streak has reached the window |
| `RecoveryVerifier.RecoveryVerifier.CheckEpisode` | valops/verifier/verifier.py:73-96 | the loop over the rules: each action is an observation or a resolution exactly when its own sample and the run before it call for that; it stops at the first rule that resolves, and other episodes' streaks are untouched |
| `RecoveryVerifier.RecoveryVerifier.Observed` | valops/verifier/verifier.py:95-96 | an observed hand-off is skipped from then on, and nothing else is |
| `RecoverySafety.ReachableInv` | valops/verifier/verifier.py:73-113 | the inductive invariant of all runs: legal log, the verifier's keys used only by its pass verifications, streaks true to the history, and what each pending or abandoned call was sent on |
| `RecoveryAnswers.SampleAnswered` | valops/verifier/verifier.py:77-95 | in every run, a sample leads to the observation of its rule if and only if it is fresh, satisfies the rule, begins a streak, and the episode does not wait for the operator; to a resolution if and only if it does wait and the streak fills the window; otherwise to the next rule |
| `RecoveryAnswers.BeginAnswered` | valops/verifier/verifier.py:131-140 | which episodes a pass looks at |
| `RecoveryAnswers.RecoveryIsNoticed` | valops/verifier/verifier.py:89-94 | in every run, the first held sample of a streak adds one recovery observation of its rule to the record, unless something comes in between |
| `RecoveryAnswers.RecoveryIsConfirmed` | valops/verifier/verifier.py:85-113 | in every run, the held sample that fills the window of a waiting episode ends in `resolved` with the pass verification recorded, unless something comes in between |
| `RecoveryAnswers.NoteAnswered` | valops/verifier/verifier.py:89-95 | an accepted observation is recorded and the pass goes on; of an episode that was handed off it is remembered |
| `RecoveryAnswers.AbandonedCallLands` | valops/verifier/verifier.py:131-140 | a call given up on has, when the store gets on with it, the effect it would have had |
| `RecoveryAnswers.RestartLooksAgain` | valops/verifier/verifier.py:30-39 | after a restart every streak begins anew, and a handed-off episode is looked at again |
| `RecoveryOutcomes.ResolvedWasEarned` | valops/verifier/verifier.py:98-113 | in every run, a resolved episode was moved by a compare-and-swap of the verifier from `awaiting_operator`, with a pass verification written while it waited; when it was sent, the rule's last window of evaluations were all fresh and satisfied, and nothing was written until it landed |
| `RecoveryOutcomes.ResolutionIsVerified` | valops/verifier/verifier.py:98-113 | no other step of anybody, and no other abandoned call, resolves an episode |
| `RecoveryOutcomes.OnlyVerifierResolves` | valops/store/transitions.py:18-25 | no call from another endpoint, and no other call of the verifier, makes an episode resolved |
| `RecoveryOutcomes.OneObservationPerStreak` | valops/verifier/verifier.py:89-94 | over any stretch of any run no more recovery observations of a rule are asked for than streaks of it begin: within a streak, none but the one its start may bring |
| `RecoveryOutcomes.StreakAddsAtMostOne` | valops/verifier/verifier.py:89-94 | from just before a streak's start to its end at most one more observation reaches the record than had been asked for before |
| `RecoverySafety.VerifKeyUsedIff` | valops/verifier/verifier.py:103-105 | the key of a verification is in use exactly when a request for the same rule from the same revision has already written |
| `RecoveryOutcomes.LateVerificationsBounded` | valops/store/service.py:444-450 | after an episode has ended no more verifications land than requests were past their first region and unwritten when it ended |
| `RecoveryOutcomes.AtMostOneLateVerification` | valops/store/service.py:444-450 | at most one, if no request is ever abandoned |
| `RecoveryOutcomes.AbandonedWriteLandsToo` | valops/store/service.py:444-450 | otherwise two can: whenever a lone verification is being written, giving up on it leads to a run with two late ones |
| `RecoveryOutcomes.WritingWasChecked` | valops/store/service.py:447-450 | the first region of the very request that may now write found the episode not ended, and the request has been pending ever since |
| `RecoveryOutcomes.VerificationCanLandLate` | valops/store/service.py:447-450 | from any waiting episode, a hand-off between the two regions leads to such a verification |
| `Rules.LosingDataNeverConfirms` | valops/verifier/rules.py:76-90 | removing fields anywhere in a sample, inside lists too, and if they can be lost elements of lists, never turns a predicate over solid fields from False to True, through any nesting and every operator |
| `Rules.NumberLeaf` | valops/verifier/rules.py:11-15 | what each operator answers for two numbers |
| `Rules.StringLeaf` | valops/verifier/rules.py:11-15 | for two strings: order by the first difference or a proper prefix, and occurrence |
| `Rules.ListLeaf` | valops/verifier/rules.py:11-15 | the orderings for two lists: by the first difference, if that has an order, or a proper prefix |
| `Rules.MembershipLeaf` | valops/verifier/rules.py:11-15 | `in` a list is membership, in an object it is one of the names of its fields |
| `Rules.EqualityLeaf` | valops/verifier/rules.py:11-15 | `eq` and `ne` are equality and its opposite, of any two values |
| `Rules.LeafWithoutAnswer` | valops/verifier/rules.py:83-90 | a leaf is False where its field is missing or Python would raise TypeError |
| `Rules.ReferenceStandsFor` | valops/verifier/rules.py:61-64 | a reference into the register stands for its value there |
| `Rules.GroupsHold` | valops/verifier/rules.py:79-82 | a conjunction holds exactly if all its members do, a disjunction exactly if one does |
| `Rules.PathIff` | valops/verifier/rules.py:67-73 | a value is found along a path exactly if each part is a field of the object before it |
| `Rules.PartsOfPath` | valops/verifier/rules.py:67-73 | the parts are what the dots of the path separate |
| `Rules.ValidIff` | valops/verifier/rules.py:23-38 | a predicate is valid exactly if no group is empty and every field has a command and a path |
| `Rules.SafeFieldsAreSolid` | valops/verifier/rules.py:76-90 | for one field, under all operators and expressible values, that holds if and only if no non-empty object occurs in it at any depth (nor, if elements can be lost, is it a non-empty list) |
| `Rules.SolidIff` | valops/verifier/rules.py:67-73 | such values are exactly those from which nothing can be removed |
| `Rules.NotEqualFlipsIff` | valops/verifier/rules.py:87-90 | a `ne` leaf that is False becomes True for some loss of data if and only if its field has something to lose |
| `Rules.ListedLossConfirms` | valops/observer/builtins.py:109-118 | a listed file that loses any field makes a `ne` leaf on the list True |
| `Rules.NoDataNeverHolds` | valops/verifier/rules.py:23-38 | a validated predicate does not hold of a sample without data |
| `Rules.EmptyConjunctionHolds` | valops/verifier/rules.py:81-82 | an unvalidated one can |
| `Rules.DependsOnlyOnFields` | valops/verifier/rules.py:55-58 | the fields collected for validation are all that a verdict depends on |
| `Rules.Get` | valops/verifier/rules.py:67-73 | the walk along a dotted path finds the nested value or fails |
| `AuditChain.VerifyChain` | valops/audit/sequencer.py:196-232 | the loops say ok exactly if every line parses, numbers and links are right, and every anchor is trusted and matches; every fault listed says something that is so |
| `AuditChain.WalkLinks` | valops/audit/sequencer.py:204-217 | the walk reports no error exactly on well-linked lines and remembers the head after each |
| `AuditChain.VerifiedFileKeepsAnchored` | valops/audit/sequencer.py:196-232 | if the check passes and an anchor was taken from an honest chain, the file starts with all that the chain then held |
| `AuditChain.TamperingIsCaught` | valops/audit/sequencer.py:196-232 | a file that lost or changed any entry older than an anchor fails the check |
| `AuditChain.ProducedChainsVerify` | valops/audit/sequencer.py:84-173 | any interleaving of submissions, anchorings, overlapping reports and restarts produces a chain and anchors that pass |
| `AuditChain.StepReloads` | valops/audit/sequencer.py:65-173 | a reload stays exact over a step if and only if the step does not submit a foreign accepted checkpoint, decide on a new position, or write a position decided before the one held |
| `AuditChain.ReachableReloads` | valops/audit/sequencer.py:65-173 | with checkpoint entries only from `record_daemon_checkpoint`, written in the order of acceptance, a reload restores number, head and daemon position exactly when no accepted position waits to be written, or it is the file's last already |
| `AuditChain.OverlappedReportsRewind` | valops/audit/sequencer.py:159-173 | two overlapping reports can leave a file from which a restart goes back to the earlier position |
| `ReportRaces.DecisionForwardIff` | valops/audit/sequencer.py:159-172 | no checkpoint a daemon can show takes the position held back if and only if the report decides against a position that is still held, or extends it |
| `ReportRaces.OlderIsStillHeldIff` | valops/audit/sequencer.py:160-165 | an earlier state of the recorded chain is still held only if it is the same, and no position at all only if the recorded chain is empty |
| `ReportRaces.AdvancesIff` | valops/audit/sequencer.py:149-173 | for every schedule of submissions, anchorings, reports and restarts: in all its runs no decision takes the position back if and only if in all its runs every report decides against a position still held |
| `ReportRaces.StaleDecisionRegresses` | valops/audit/sequencer.py:160-172 | wherever a report is about to decide against a position no longer held, another run of the same schedule takes the position back there |
| `ReportRaces.PositionOnlyExtends` | valops/audit/sequencer.py:149-173 | in such runs, with restarts that find the position in the file, the position at the end of any stretch is of a chain extending the one at its start |
| `ReportRaces.SerialDecidesOnHeld` | valops/audit/sequencer.py:159-172 | reports that do not overlap decide against the position held |
| `ReportRaces.OverlappedReportsRegress` | valops/audit/sequencer.py:159-173 | two reports of a daemon that only appends, read against the same chain and decided out of order, are both accepted and take the position back to a strictly shorter chain |
| `AuditChain.ReportedInSteps` | valops/audit/sequencer.py:149-173 | a report nothing comes between is its read, its decision and its appends in a row |
| `AuditChain.ForgedReportSurvivesRestart` | valops/audit/sequencer.py:108-120 | in every state one submitted event makes a restart believe any position |
| `AuditChain.AuditSequencer.constructor` | valops/audit/sequencer.py:65-81 | loading finds an integrity error exactly on broken files, and the last accepted checkpoint |
| `AuditChain.AuditSequencer.Append` | valops/audit/sequencer.py:84-95 | one more link, under the lock |
| `AuditChain.AuditSequencer.BeginAnchor` | valops/audit/sequencer.py:123-125 | the position is read in the first locked region |
| `AuditChain.AuditSequencer.PutAnchor` | valops/audit/sequencer.py:126-129 | the anchor is put, or nothing happens when the store is unreachable |
| `AuditChain.AuditSequencer.NoteAnchor` | valops/audit/sequencer.py:130-131 | the anchor is noted in the second region, whatever came in between |
| `AuditChain.AuditSequencer.RecordDaemonCheckpoint` | valops/audit/sequencer.py:149-173 | undisturbed: a checkpoint is accepted exactly if it is signed and continues the recorded position, and which entries are written and which position is kept in each case |
| `AuditChain.AuditSequencer.DecideReport` | valops/audit/sequencer.py:159-172 | the decision, against the position read before it, which no lock protects: accepted exactly if the checkpoint continues that position |
| `AuditChain.AuditSequencer.WriteReport` | valops/audit/sequencer.py:169-173 | each append of a report, under the lock, whatever came in between |
| `HashChain.SameHeadSamePrefix` | valops/audit/sequencer.py:205-217 | equal heads at a position mean equal chains up to it |
| `DaemonChain.AcceptedIffExtends` | valops/audit/sequencer.py:149-173 | a checkpoint is accepted exactly when its chain extends the recorded one and the daemon was asked about that position |
| `DaemonChain.AcceptedChainsExtend` | valops/audit/sequencer.py:149-173 | across any restarts on well-linked files, accepted checkpoints come from chains that extend all accepted before |
| `DaemonChain.HonestDaemonAccepted` | valops/observer/chain.py:50-56 | a daemon that only appends is never refused, not even from an empty chain |
| `DaemonChain.LocalChain.Reopen` | valops/observer/chain.py:22-38 | the daemon starts exactly on well-linked files |
| `DaemonChain.LocalChain.Append` | valops/observer/chain.py:40-48 | a link to the current head, and the hash table kept |
| `DaemonChain.LocalChain.TakeCheckpoint` | valops/observer/chain.py:50-56 | number and head of the chain, and its own hash at the position asked about if it has one |
| `ModelBroker.RequestsBounded` | valops/brokers/model_broker.py:237-250 | under any interleaving no more requests than allowed are admitted |
| `ModelBroker.OutputBounded` | valops/brokers/model_broker.py:243-263 | with at most k requests in flight, tokens metered plus clamps outstanding never exceed k times the limit |
| `ModelBroker.UsdBoundedSerial` | valops/brokers/model_broker.py:240-261 | serial spending exceeds the limit by at most the input excess of the request metered last |
| `ModelBroker.UsdBounded` | valops/brokers/model_broker.py:240-261 | with k requests in flight, spending and what is set aside stay within k budgets |
| `ModelBroker.BudgetKeptIff` | valops/brokers/model_broker.py:244-248 | serial requests within their estimates respect the dollar limit in every run if and only if the output price is positive or the whole input allowance is affordable |
| `ModelBroker.UnmeteredIsCovered` | valops/brokers/model_broker.py:256-257 | the conservative charge for an unmetered response never overshoots |
| `ModelBroker.FreeOutputIgnoresBudget` | valops/brokers/model_broker.py:244-246 | with a free output price one request can exceed the dollar limit |
| `ModelBroker.NegativeCapRaisesAllowance` | valops/brokers/providers.py:46-62 | at any prices, with a budget that covers the output limit, a negative requested cap lets the next request have more than the session's whole limit |
| `ModelBroker.TokensKeptIff` | valops/brokers/model_broker.py:243-263 | in all serial runs with an obedient provider the output it reports stays within the limit if and only if callers ask for no caps below zero |
| `ModelBroker.SnapshotFinalIff` | valops/brokers/model_broker.py:73-79 | after any run, the meter returned on close (counters, refusals and upstream errors) is changed by no request still forwarded if and only if there is none; every further request on an open connection changes it, and its counters are final if and only if, besides, not even the smallest request is admitted |
| `ModelBroker.ClampOutput` | valops/brokers/providers.py:46-62 | the clamp never exceeds what remains, and is positive exactly for absent and non-negative caps |
| `ModelBroker.AdmissionIff` | valops/brokers/model_broker.py:237-250 | a request is refused by the first limit reached, and otherwise gets the requested cap, or, if none or an unaffordable one is asked for, the greatest number of output tokens that both limits afford |
| `ModelBroker.Session.AdmitRequest` | valops/brokers/model_broker.py:237-250 | the locked admission, its refusals in order, and that only the count of requests changes |
| `ModelBroker.Session.MeterResponse` | valops/brokers/model_broker.py:254-263 | the locked metering: reported usage is charged as it is; without it the ticket's estimate and clamp after a 2xx status, and nothing after any other; each token at its price |
| `ObserverDaemon.RateLimiter.RateOk` | valops/observer/daemon.py:81-89 | although the deque forgets, each call is decided as by the limiter that remembers every admission |
| `ObserverDaemon.AdmissionsSpaced` | valops/observer/daemon.py:81-89 | over the whole history an admitted call and the rate-th after it are more than 60 s apart |
| `ObserverDaemon.NoWindowOverfull` | valops/observer/daemon.py:81-89 | no closed 60 s window, wherever it starts, holds more than `rate` admissions |
| `ObserverDaemon.AdmittedIff` | valops/observer/daemon.py:81-89 | counted over the history: a call is admitted exactly if fewer than `rate` were in the 60 s before, and no 60 s hold more |
| `ObserverDaemon.Breaker.Take` | valops/observer/daemon.py:53-63 | the breaker's state is a function of its whole history: open after a bad sample until enough good ones followed, each bad sample that found it closed counted as a trip |
| `ObserverDaemon.OpenIff` | valops/observer/daemon.py:53-63 | open exactly if the last sample that was unhealthy or too slow has been followed by none or by fewer than the required good ones |
| `ObserverDaemon.TripsCounted` | valops/observer/daemon.py:53-58 | the trips are the bad samples that found it closed |
| `ObserverDaemon.ClosesOnlyAfterRecovery` | valops/observer/daemon.py:53-63 | a breaker closed after a trip has just seen the required run of good samples |

## Left out

- Sockets, peer credentials, JSON framing, HTTP relay, TLS and provider clients: the principal of a call is a parameter.
- SQLite, fsync and torn writes: the table is a sequence, and a write happens wholly or not at all; the table's ordered scan is any permutation ordered by revision within each episode.
- Types of JSON arguments, and schema validation of recommendations, checks and structured output: an argument has its type, and the outcome of a schema check is a parameter.
- Token signatures and expiry: a call carries the capability its token proves, or none; `strict` stands for revocation taking effect.
- Restarts of the store process beside a running controller or verifier: `StoreRuns` has them for the store alone; a call lost in one is an abandoned call that never takes effect.
- Bundle registry, activation and drain: a bundle is sound, unusable or condemned (revoked or past its drain deadline) at each pass, skills are an argument of the call.
- Reading of views by workers and the controller's audit notes, alerts and prompts: they change no protocol state.
- `Runner.tick` over many episodes, `preflight` and `verify_chain_now`: the outcome of pre-flight is a parameter of each pass, and episodes do not share runner state.
- `_maybe_escalate` and the sampling of commands in the verifier: what sampling returns, and whether it is fresh, is a parameter.
- Rendered times, per-field rounding of money and the contents of snapshots, triggers and samples beyond what is checked.
- Aliasing inside a record: `apply` changes lists in place, here the live record is a value that is replaced under its key.
- `DaemonChain` judges one report at a time, as the protocol intends; overlapping reports are in `AuditChain` and `ReportRaces`.
- `usage_from_json` and `usage_from_stream`: the usage parsed from a response, or its absence, is a parameter.
- `ModelBroker.Session.AdmitRequest`: returns the clamp; writing it into the request body is not modelled.
- White space in `strip()` is the ASCII kind only.
