# Verified models of the IELTS preparation backend

This project models the parts of the backend whose correctness depends on the interplay of many steps, and proves what
each promises over every run, with Dafny 4.11. `dafny verify dfyconfig.toml` checks all of it.

Every SQL statement or transaction is one atomic step over maps or sequences of rows. Callers (workers, browser tabs,
payment webhooks, concurrent requests) form an arbitrary schedule: a run is any sequence of events, and the main
results are statements about all runs. Code that updates something in place is a class or a method with loops whose
postcondition equates the new state with a function of the old one; the theorems are about that function.

| subject | modules |
|---|---|
| durable assessment of writing and speaking: attempts, jobs, leases, retries, full mocks | `AssessmentRows`, `AssessmentInvariants`, `AssessmentRepository`, `FullMockRows`, `FullMockRepository`, `AssessmentProtocol`, `AssessmentTheorems`, `AssessmentResults`, `FullMockLiveness` |
| transcriptions and their revision fence; the pausable section clock | `Transcription`, `SectionClock` |
| what an evaluation was made from, both protocols side by side | `EvaluationSources`, `EvaluationTheorems`, `StaleEvaluation` |
| generating, restarting and retaking mocks | `MockGenerator` |
| the assistant's stream: gate, tool rounds, failover | `StreamGate`, `AssistantStream` |
| failover over AI providers, its time budget and rotation | `ProviderRotation`, `Failover`, `FailoverTheorems` |
| listening tests: storing and reading back; importing text | `ListeningRows`, `ListeningRowsTheorems`, `ListeningImport`, `ListeningImportTheorems`, `ListeningAnswers`, `ListeningSave`, `ListeningImportSound`, `ListeningReader`, `ListeningRoundTrip`, `ListeningWritten`, `ListeningTexts` |
| orders, entitlements, free quota, and both ledgers together | `Billing`, `BillingTheorems`, `Quota`, `QuotaTheorems`, `AccessTheorems` |
| refresh tokens | `RefreshSessions`, `RefreshSessionTheorems` |
| grading materials through two caches; what a guest sees of a review | `GradingCache`, `GradingMaterials`, `GuestPreview` |
| shared vocabulary and stable sorting | `Common`, `Sorting` |

## What the proofs found

Five expectations turned out to be false of the code; the model keeps the code as it is.

- A mock can be blocked for ever. `Finish` waits for every section whose job is not ready, also when the section is
  already submitted. If a slow worker submits and dies before completing the job, and the third claimant's submission is
  then refused, the job becomes a terminal failure of a closed attempt, which nothing can retry.
  `FullMockLiveness.BlockedMockIsReachable` gives a run; `FullMockLiveness.FinishableIffNoneStuck` says that such
  sections are the only obstacle.
- An evaluation need not be of what the student queued last. A slow worker may read the first text, others may fail the
  job for good, the student may change the text and queue again, and then the slow worker's submission is accepted and
  replaces the new text (`StaleEvaluation.OldTextIsEvaluated`). While the attempt is being processed the submission is of
  what was queued last exactly when the texts the worker read are still the stored ones
  (`EvaluationTheorems.BelongsIfStillThere`), and always when nothing was queued since (`BelongsIfNotRequeued`). What is
  stored is what was evaluated all the same (`EvaluatedIsStored`).
- The time allotted to the providers of one operation can exceed the chain's 180 s, because the time of a provider that
  fails early is allotted again (`FailoverTheorems.FourSlowProviders`). `FailoverTheorems.AllotmentsFit` gives the exact
  condition on the timeouts. Deadlines are kept all the same (`FailoverTheorems.AttemptsFollow`).
- The import never reports a duplicate placeholder: the repeated number has been entered among the references by then
  and is reported as a duplicate question (`ListeningImportTheorems.BuildReportsRepeats`; `RepeatedPlaceholder` has the
  inputs).
- An answer line of separators only counts as an answer, and the question is saved without a value
  (`ListeningRoundTrip.ImportSilent` imports such a text). Every question has a value exactly when every answer line has
  one (`ListeningImportSound.AnswersHaveValues`). Validation's "every question has an answer" means that none is missing.

## Model

| member | source | states |
|---|---|---|
| AssessmentTheorems.ProcessingMeansLiveJob | internal/attempts/writing_pipeline_repository.go:13-129 | in every reachable state an attempt is being processed if and only if its job is queued or running and it is not submitted |
| AssessmentTheorems.CounterBounds | internal/attempts/speaking_pipeline_repository.go:220-265 | in every reachable state a queued job has at most 2 claims, a running one 1 to 3, a failed one exactly 3 |
| AssessmentTheorems.QueuedJobIsClaimable | internal/attempts/writing_pipeline_repository.go:80-86 | no queued job ever becomes unclaimable: a claim succeeds once its back-off is over |
| AssessmentTheorems.BackOff | internal/attempts/writing_pipeline_repository.go:100-121 | a failed run can be claimed again exactly from 10 s (first claim) or 60 s (second claim) later, and never after the third |
| AssessmentTheorems.QueuedAtOnce | internal/attempts/writing_pipeline_repository.go:13-86 | an attempt can be queued exactly when it is open, and what is queued or retried can be claimed from that instant on |
| AssessmentTheorems.RetryExactlyWhenFailed | internal/attempts/assessment_retry.go:28-69 | in every reachable state a retry succeeds if and only if the attempt is open and its job has failed for good |
| AssessmentTheorems.DeferredBriefly | internal/attempts/speaking_pipeline_repository.go:220-265 | a deferred job can be claimed again exactly from 3 s later |
| AssessmentTheorems.LeaseOfTwoMinutes | internal/attempts/writing_pipeline_repository.go:80-129 | after a claim nobody else can claim; recovery frees the job exactly when two minutes have passed since the claim or its renewal |
| AssessmentTheorems.ClaimsAccounted | internal/attempts/speaking_pipeline_repository.go:220-265 | over any run, the claims since the last queue or retry equal the counter plus the refunds of deferrals and lapsed leases, so a refund never clips at zero |
| AssessmentTheorems.ThreeClaims | internal/attempts/speaking_pipeline_repository.go:220-226 | over any run a job is claimed at most three times plus once per refund before somebody queues it again |
| AssessmentTheorems.ClosedIsFinal | internal/attempts/repository.go:262-375 | status, grade, evaluation and answers of a submitted or abandoned attempt are the same after every later run |
| AssessmentTheorems.OneSubmission | internal/attempts/repository.go:262-375 | over any run exactly as many submissions succeed as the attempt has grades, one at most, and an evaluation exists exactly for a submitted assessed attempt |
| AssessmentResults.ResultsAreAsSubmitted | internal/attempts/repository.go:262-375 | after any run the grade and the evaluation of every attempt are exactly those of the one submission that was accepted, read off the events, and none when there was none |
| AssessmentResults.CommittedStays | internal/attempts/repository.go:262-375 | the accepted submission is the same over every later run |
| AssessmentResults.AnswersAreLastGiven | internal/attempts/repository.go:138-183 | after any run the stored answer of every question is the one that was last accepted from saving, grading, queueing or submitting |
| AssessmentTheorems.CompletedTasksConserved | internal/attempts/repository.go:315-322 | after any run, per skill, the completed tasks of all users add up to the number of submitted attempts |
| AssessmentResults.EveryoneIsCredited | internal/attempts/repository.go:315-322 | after any run, per user and skill, the completed tasks are the number of that user's own submitted attempts |
| AssessmentTheorems.ReopenedSectionFailed | internal/fullmock/repository.go:373-389 | in a mock in progress, a section behind the current one is open again only if its job failed, although the check and the update of an advance are separate |
| AssessmentTheorems.CheckedOutMovesOn | internal/fullmock/service.go:180-232 | from any reachable state, a mock whose current section is checked out moves to the next one when a tab looks, checks and commits, and nothing else changes |
| AssessmentTheorems.OneSectionAtATime | internal/fullmock/repository.go:373-389 | in any reachable state, no event moves a mock in progress by more than one section, or on from a section that has not been passed |
| AssessmentTheorems.SessionRun | internal/fullmock/repository.go:373-483 | over any run a session keeps its sections and never changes once it is over |
| AssessmentTheorems.FinishedMockIsFinal | internal/fullmock/repository.go:391-458 | all sections of a finished mock are closed, wait for nothing, and stay exactly as they are on every later run |
| AssessmentTheorems.AbandonedMockIsOver | internal/fullmock/repository.go:460-483 | a mock that is given up stays so over every later run, and each of its sections in progress is closed |
| AssessmentTheorems.StartKeeps | internal/attempts/repository.go:262-375 | the invariant and the books hold after every run from the empty tables |
| AssessmentInvariants.SaveAnswersKeeps | internal/attempts/repository.go:138-183 | saving answers keeps the coupling of attempts and jobs |
| AssessmentInvariants.QueueKeeps | internal/attempts/writing_pipeline_repository.go:13-44 | queueing an assessment keeps the invariant, resetting the counter |
| AssessmentInvariants.ClaimKeeps | internal/attempts/writing_pipeline_repository.go:80-86 | a claim keeps the invariant, whoever makes it |
| AssessmentInvariants.RenewKeeps | internal/attempts/writing_pipeline_repository.go:88-92 | a renewed lease changes nothing the invariant speaks about |
| AssessmentInvariants.CompleteKeeps | internal/attempts/writing_pipeline_repository.go:94-98 | completing keeps the invariant once the attempt is closed |
| AssessmentInvariants.FailKeeps | internal/attempts/writing_pipeline_repository.go:100-121 | a failure report keeps the invariant, also from a stale worker; a terminal one reopens the attempt |
| AssessmentInvariants.DeferKeeps | internal/attempts/speaking_pipeline_repository.go:260-265 | deferring keeps the invariant and gives the claim back |
| AssessmentInvariants.RecoverKeeps | internal/attempts/writing_pipeline_repository.go:123-129 | recovering lapsed leases keeps the invariant for every row |
| AssessmentInvariants.RetryKeeps | internal/attempts/assessment_retry.go:28-69 | a manual retry keeps the invariant |
| AssessmentInvariants.SubmitKeeps | internal/attempts/repository.go:262-375 | a submission keeps the invariant from every worker |
| AssessmentInvariants.AbandonKeeps | internal/fullmock/repository.go:460-483 | closing what is still open keeps the invariant |
| AssessmentInvariants.SubmitBalances | internal/attempts/repository.go:315-322 | a submission keeps, per skill, the equality of completed tasks and submitted attempts |
| AssessmentProtocol.StepKeeps | internal/writingpipeline/worker.go:99-191 | every step of workers, tabs, clocks and callers keeps the invariant and the books, and lets rows only evolve, also a submission whose success the worker never learns of and a heartbeat that comes late |
| AssessmentProtocol.RunKeeps | internal/speakingpipeline/worker.go:178-278 | so does every run, stale workers included |
| AssessmentProtocol.FinishKeeps | internal/fullmock/repository.go:391-458 | finishing keeps the invariant of sessions and attempts together |
| AssessmentProtocol.TabStepKeeps | internal/fullmock/service.go:180-232 | looking, checking and committing an advance from any number of tabs keeps the invariant |
| AssessmentRepository.Deduplicate | internal/attempts/repository.go:148-155 | one entry per question, and storing it gives for every table what storing the original list in order gives |
| AssessmentRepository.Repository.SaveAnswers | internal/attempts/repository.go:138-183 | new tables and outcome are those of the transaction: refused unless the attempt is open |
| AssessmentRepository.Repository.QueueAssessment | internal/attempts/speaking_pipeline_repository.go:154-185 | answers stored, attempt processing and a fresh job, or nothing |
| AssessmentRepository.Repository.ClaimAssessment | internal/attempts/speaking_pipeline_repository.go:220-226 | the claim and its result are those of the guarded update |
| AssessmentRepository.Repository.RenewAssessment | internal/attempts/speaking_pipeline_repository.go:43-47 | only a running row is renewed |
| AssessmentRepository.Repository.CompleteAssessment | internal/attempts/speaking_pipeline_repository.go:228-232 | the job becomes ready whatever it was |
| AssessmentRepository.Repository.FailAssessment | internal/attempts/speaking_pipeline_repository.go:234-258 | back-off or terminal failure, and only a terminal one reopens a processing attempt |
| AssessmentRepository.Repository.DeferAssessment | internal/attempts/speaking_pipeline_repository.go:260-265 | a running job goes back three seconds later with its claim refunded |
| AssessmentRepository.Repository.RecoverJobs | internal/attempts/speaking_pipeline_repository.go:20-35 | exactly the running rows with a lapsed lease are requeued and refunded |
| AssessmentRepository.Repository.RetryAssessment | internal/attempts/assessment_retry.go:28-69 | only an open attempt with a failed job is queued again |
| AssessmentRepository.Repository.Submit | internal/attempts/repository.go:262-375 | answers, grade, progress and evaluation together, or nothing; what is stored over runs is in `AssessmentResults` |
| AssessmentRepository.Repository.AbandonAttempts | internal/fullmock/repository.go:368-371 | exactly the listed attempts that are in progress are closed |
| FullMockRepository.SessionRepository.Advance | internal/fullmock/repository.go:373-389 | the guarded update, or the finish of the last section |
| FullMockRepository.SessionRepository.HasPending | internal/fullmock/repository.go:424-440 | some section is processing or has a job that is not ready |
| FullMockRepository.SessionRepository.Finish | internal/fullmock/repository.go:391-458 | nothing while something is pending; otherwise open sections are closed and the session submitted, in one step |
| FullMockRepository.SessionRepository.Abandon | internal/fullmock/repository.go:460-483 | open sections are closed and the session abandoned |
| FullMockLiveness.FinishableIffNoneStuck | internal/fullmock/repository.go:391-458 | a mock in progress in any reachable state can still be finished by some later run if and only if none of its sections is stuck (job failed, attempt closed, no worker about to complete it) |
| FullMockLiveness.BlockedMockIsReachable | internal/fullmock/repository.go:424-440 | a concrete run leaves a mock in progress that no later run can finish |
| FullMockLiveness.StuckNeverFinishes | internal/fullmock/repository.go:424-440 | a stuck section stays stuck and its mock stays unfinished over every run |
| FullMockLiveness.NobodyStranded | internal/attempts/writing_pipeline_repository.go:13-129 | from every reachable state a processing attempt can still be closed by some later run |
| FullMockLiveness.Settle | internal/attempts/writing_pipeline_repository.go:80-129 | every attempt that is not stuck can be brought to rest without disturbing any other attempt |
| Transcription.ReadyMatchesAudio | internal/attempts/speaking_pipeline_repository.go:99-143 | after any run a ready transcription is the transcript of the audio whose key is now in the recording row, at its revision |
| Transcription.StaleWorkerChangesNothing | internal/attempts/speaking_pipeline_repository.go:126-152 | what a worker of another revision reports leaves every row as it is |
| Transcription.CompletionTakesEffect | internal/attempts/speaking_pipeline_repository.go:126-143 | a completion takes effect exactly when its revision is current and the row is running, and then the row has the worker's text, made from the current audio |
| Transcription.QueuedIsClaimable | internal/attempts/speaking_pipeline_repository.go:99-124 | no queued transcription becomes unclaimable |
| Transcription.WaitingIsClaimable | internal/attempts/repository.go:555-608 | what has just been uploaded, or is retried after its third failure, can be claimed from that instant on |
| Transcription.BackOff | internal/attempts/speaking_pipeline_repository.go:145-152 | a failed transcription can be claimed again exactly from 10 s (first claim) or 60 s (second claim) later, and never after the third |
| Transcription.LeaseOfTwoMinutes | internal/attempts/speaking_pipeline_repository.go:20-41 | recovery frees a claimed transcription exactly when two minutes have passed since the claim or its renewal |
| Transcription.Repository.UpsertRecording | internal/attempts/repository.go:555-608 | a re-upload replaces the key, moves to the next revision and queues it anew, returning the old key |
| Transcription.Repository.MarkRunning | internal/attempts/speaking_pipeline_repository.go:99-107 | the first statement of a claim |
| Transcription.LoadedPairIsCurrent | internal/attempts/speaking_pipeline_repository.go:108-124 | over any run of uploads and split claims, the key and revision a worker has loaded belong together: they are the current pair if and only if the revision is current, and the revision is never ahead |
| Transcription.Repository.CompleteTranscription | internal/attempts/speaking_pipeline_repository.go:126-143 | fenced by revision and status |
| Transcription.Repository.FailTranscription | internal/attempts/speaking_pipeline_repository.go:145-152 | fenced back-off or terminal failure |
| Transcription.Repository.RenewTranscription | internal/attempts/speaking_pipeline_repository.go:37-41 | fenced renewal |
| Transcription.Repository.RecoverTranscriptions | internal/attempts/speaking_pipeline_repository.go:20-35 | exactly the lapsed rows are requeued with their claim refunded |
| EvaluationTheorems.EvaluatedIsStored | internal/attempts/repository.go:262-375 | however stale the worker, the stored answer of every evaluated task or part is the text that was evaluated, after every later run |
| EvaluationTheorems.EvaluationsAreMade | internal/attempts/repository.go:320-362 | after any run exactly the attempts with an evaluation have a record of what it was made from |
| EvaluationTheorems.ProcessingHolds | internal/attempts/writing_pipeline_repository.go:13-44 | after any run an attempt being processed holds exactly the answers it held when it was queued last |
| EvaluationTheorems.BelongsIfStillThere | internal/writingpipeline/worker.go:113-190 | a submission for an attempt being processed is made from what was queued last if and only if the texts the worker read agree with the stored answers |
| EvaluationTheorems.BelongsIfNotRequeued | internal/writingpipeline/worker.go:113-190 | it is made from what was queued last when the worker read the attempt while it was processed and it has not been queued since, reopened or not |
| EvaluationTheorems.SpokenIsOfAudio | internal/speakingpipeline/worker.go:213-248 | an evaluated transcript is of the audio of the recording the worker read, and that recording is still the current one if and only if its revision is |
| EvaluationTheorems.RunKeeps | internal/speakingpipeline/worker.go:178-278 | every run of both protocols side by side keeps the invariants of both and of what workers have read |
| StaleEvaluation.OldTextIsEvaluated | internal/writingpipeline/worker.go:99-191 | a concrete run in which the text queued last is replaced by an older one that a slow worker evaluated |
| SectionClock.TimeIsConserved | internal/fullmock/repository.go:304-366 | over any run of opens, pauses, closings and reopenings at increasing times, running time used plus time remaining differs from the duration by less than 1 ms per stop |
| SectionClock.UsedIsBounded | internal/fullmock/repository.go:304-366 | over any such run a student within the deadline has used at most the duration and less than 1 ms per stop |
| SectionClock.ReopeningKeepsDeadline | internal/fullmock/repository.go:304-334 | opening a running section again never moves its deadline |
| SectionClock.ExpiredStaysExpired | internal/fullmock/repository.go:304-366 | once the deadline has passed no open, pause, closing or reopening moves it |
| SectionClock.PauseTwice | internal/fullmock/repository.go:338-366 | a second pause keeps what the first one saved |
| SectionClock.RunValid | internal/fullmock/repository.go:304-366 | the constraints of the clock columns hold after every run |
| SectionClock.Sections.StartSection | internal/fullmock/repository.go:304-334 | guarded open: the new clock is the first deadline, the resumed one, or unchanged |
| SectionClock.Sections.PauseSection | internal/fullmock/repository.go:338-366 | guarded pause: remaining milliseconds are floored, at least one |
| StreamGate.ReplayIsVisible | internal/assistant/stream_gate.go:27-87 | after any order of emissions, failures and closings, what the client replays is the active candidate's buffer, or nothing |
| StreamGate.FirstTextIsShown | internal/assistant/stream_gate.go:63-73 | while nobody is visible the first candidate with text becomes so: the client receives a reset and all it has said so far |
| StreamGate.OthersAreKept | internal/assistant/stream_gate.go:63-77 | the text of any other candidate is only kept |
| StreamGate.ActiveStays | internal/assistant/stream_gate.go:38-104 | the visible candidate stays visible over any run of operations in which it does not fail |
| StreamGate.FailedIsWithdrawn | internal/assistant/stream_gate.go:80-87 | a visible candidate that fails disappears from the screen; another one's failure changes nothing |
| StreamGate.CommitShowsWinner | internal/assistant/stream_gate.go:88-104 | a successful commit leaves exactly the winner's buffer on the screen |
| StreamGate.WinnerStays | internal/assistant/stream_gate.go:27-104 | it stays there whatever the losers still try |
| StreamGate.FrozenIsSilent | internal/assistant/stream_gate.go:38-79 | a frozen gate never changes again |
| StreamGate.StreamGate.SendEvent | internal/assistant/stream_gate.go:27-37 | an event reaches the client unless an earlier one did not |
| StreamGate.StreamGate.Emit | internal/assistant/stream_gate.go:38-79 | buffers, activation and what is sent, for every event and state |
| StreamGate.StreamGate.Fail | internal/assistant/stream_gate.go:80-87 | only the active candidate is withdrawn, with a reset |
| StreamGate.StreamGate.Commit | internal/assistant/stream_gate.go:88-104 | freezes, and replaces a different candidate by the winner |
| StreamGate.StreamGate.Shut | internal/assistant/stream_gate.go:105-105 | freezes and changes nothing else |
| AssistantStream.StreamCompletion | internal/assistant/stream.go:110-251 | a stream of chunks completes with the text and the calls before the end mark; it does so whenever the chunks are usable, keep within the limits, say why they end, and the client takes the text through an open gate; only a refusal breaks the gate |
| AssistantStream.Answer | internal/assistant/stream.go:69-108 | the answer is the trimmed text of the first of three rounds without calls, with the calls of the rounds before it; it is given whenever the rounds have one and the client takes what comes through an open gate |
| AssistantStream.Stream | internal/assistant/stream.go:50-76 | the first candidate whose rounds lead to an answer in time wins, and what the client has received replays to its text; there is no answer only if the client refused something, the caller had left when nobody before had delivered, or every candidate was skipped, late or delivered nothing |
| AssistantStream.Consume | internal/assistant/stream.go:173-213 | one chunk: limits, forwarding, fragments and reasons to finish |
| AssistantStream.MergeCalls | internal/assistant/stream.go:189-206 | call fragments are joined per index; the result is refused if and only if an index or a length is outside its limit |
| AssistantStream.CallsAreJoined | internal/assistant/stream.go:189-206 | a call exists exactly when it has a fragment, has the fragments' names and arguments in order of arrival, and the id named last |
| AssistantStream.InOrderLists | internal/assistant/stream.go:242-249 | the calls are listed by index, each once |
| Failover.Providers | internal/aiproviders/environment.go:44-68 | the stored rows without the environment's settings row, plus the environment's provider under those settings, in the total order |
| FailoverTheorems.SettingsAreObeyed | internal/aiproviders/environment.go:28-57 | with a settings row, the candidates are exactly the stored providers as they are and the process's own one with the stored priority, scopes, state and timeout but its own identity and credential |
| FailoverTheorems.OwnWithoutSettings | internal/aiproviders/environment.go:28-57 | without a settings row the candidates are exactly the stored providers and the process's own one as configured |
| FailoverTheorems.SettingsDecide | internal/aiproviders/execution.go:76-90 | the process's own provider is in the chain if and only if its settings enable it for the purpose |
| FailoverTheorems.WithinALevel | internal/aiproviders/environment.go:58-66 | within a level the stored providers come by identity and the process's own one last |
| Failover.Grouped | internal/aiproviders/execution.go:72-90 | enabled providers in scope, at most eight stored ones, cut into groups of equal priority |
| Failover.ContactGroup | internal/aiproviders/execution.go:105-181 | trying one group is a stretch of the simple walk over the rotated list |
| Failover.Contact | internal/aiproviders/execution.go:98-181 | walking the groups is the simple walk over the rotated groups one after the other; only the levels reached are rotated |
| Failover.Execute | internal/aiproviders/execution.go:57-182 | the whole operation equals the simple walk over the rotated chain, or is cancelled or unavailable |
| FailoverTheorems.ContactsArePrefix | internal/aiproviders/execution.go:72-181 | providers contacted are a prefix of the rotated chain: no one twice, priorities in order, at most nine, all enabled and in scope |
| FailoverTheorems.PlanIsRotatedChain | internal/aiproviders/execution.go:98-106 | rotation permutes the chain and never moves a provider out of its level |
| FailoverTheorems.ChainFacts | internal/aiproviders/execution.go:72-90 | a chain has distinct providers by priority, at most eight stored and the process's own |
| FailoverTheorems.StoredTakesPart | internal/aiproviders/execution.go:76-85 | a stored provider takes part if and only if it is enabled for the purpose and fewer than eight such come before it |
| FailoverTheorems.AttemptsFollow | internal/aiproviders/execution.go:98-112 | attempts follow the list; none starts or is allotted past the deadline |
| FailoverTheorems.WalkIsExact | internal/aiproviders/execution.go:98-181 | every attempt starts when the one before has ended, with its own timeout or an equal share of what is left; the walk stops exactly because somebody answered in time, the caller has gone, the list is at its end, or the time is up |
| FailoverTheorems.FirstSuccessWins | internal/aiproviders/execution.go:130-181 | only the last attempt can have succeeded in its time, and its provider wins |
| FailoverTheorems.ShareNeverShrinks | internal/aiproviders/execution.go:107-109 | an equal share never shrinks after somebody took no more than theirs |
| FailoverTheorems.EveryoneGetsTwentySeconds | internal/aiproviders/execution.go:107-109 | with a chain of at most nine and no overhead, each provider contacted is allotted its own timeout or 20 s, and failing means everyone was contacted |
| FailoverTheorems.AllotmentsFit | internal/aiproviders/execution.go:107-109 | the allotments of every possible run fit the 180 s if and only if the timeouts fit them under equal shares of the whole budget |
| FailoverTheorems.FourSlowProviders | internal/aiproviders/execution.go:107-109 | they need not: any four stored, enabled providers in scope with 60 s, loaded into a chain and rotated in any way, are allotted 225 s when all fail at once |
| FailoverTheorems.GrantedIsPromised | internal/aiproviders/execution.go:107-109 | no run allots more than the one in which everybody fails at once |
| ProviderRotation.RoundRobin | internal/aiproviders/rotation.go:14-46 | over any run, two providers of a level start equally often up to one while the shared store answers, up to two more when it refuses, and one more per answer that is lost |
| ProviderRotation.StartsComeFromCursors | internal/aiproviders/rotation.go:14-46 | starts are the visits of the shared and the local cursor, minus at most the lost ones |
| ProviderRotation.Rotation.NextRotation | internal/aiproviders/rotation.go:14-18 | the cursor starts at 0 and advances by one |
| ProviderRotation.Rotation.RotationOffset | internal/aiproviders/rotation.go:20-46 | shared cursor, or the process-local one when the store does not answer; no cursor for a single provider |
| ListeningRows.Repository.InsertVersion | internal/listening/repository.go:235-274 | parts, groups and questions are stored as given, numbered from one, with fresh identities that differ across the whole version |
| ListeningRows.PartsByVersion | internal/listening/repository.go:300-363 | the fold of the rows, with both index maps |
| ListeningRowsTheorems.RoundTrip | internal/listening/repository.go:276-363 | the left-join rows of any sound tests, in any arrangement, once ordered and folded give exactly the nested parts of every version, parts without groups and groups without questions included |
| ListeningRowsTheorems.SaveThenLoad | internal/listening/repository.go:235-363 | each version read among others is exactly as it was stored |
| ListeningRowsTheorems.StoredIsSound | internal/listening/repository.go:235-274 | what storing produces meets the conditions of the round trip |
| ListeningRowsTheorems.OrderByFindsTheTests | internal/listening/repository.go:276-282 | however the join delivers its rows, ORDER BY gives the tests one after the other |
| ListeningImport.BuildGroups | internal/listening/import_parser.go:285-355 | parts, references and issues, issue by issue, are those of the specification |
| ListeningImport.PlaceQuestions | internal/listening/import_parser.go:318-346 | placing a group's questions, sorted by number, with every check |
| ListeningImport.GatherQuestions | internal/listening/import_parser.go:295-302 | the questions of the lines and one per placeholder of the context, in stable order by number |
| ListeningImportTheorems.CleanBuild | internal/listening/import_parser.go:285-355 | building raises no issue if and only if every group is proper by itself and no two ranges overlap; then the references are exactly the numbers of the ranges |
| ListeningImportTheorems.CleanGroup | internal/listening/import_parser.go:285-355 | one group raises no issue exactly when its numbers are its range, one each, none used before, its placeholders exact and its header complete |
| ListeningImportTheorems.BuildExact | internal/listening/import_parser.go:318-346 | whatever the issues, every reference finds the question of its number and every question is found, at position i+1 |
| ListeningImportTheorems.NeverADuplicatePlaceholder | internal/listening/import_parser.go:320-327 | no group's questions are reported as a duplicate placeholder: a number that has been placed has a reference by then, so that check is never reached |
| ListeningImportTheorems.RepeatedNumberIsReported | internal/listening/import_parser.go:319-327 | whenever two of a group's questions, own or from placeholders, have one number, that number is reported as a duplicate question |
| ListeningImportTheorems.RepeatedPlaceholder | internal/listening/import_parser.go:295-327 | a context that repeats a placeholder is reported as a duplicate question and not as a duplicate placeholder, in any state of the import |
| ListeningImportTheorems.BuildReportsRepeats | internal/listening/import_parser.go:285-355 | of a whole test: every number a group repeats is among the issues, and no issue is a duplicate placeholder |
| ListeningAnswers.ApplyAnswers | internal/listening/import_parser.go:357-397 | answers and explanations go to the questions of their numbers and change nothing else, in whatever order the maps are visited; an issue is raised if and only if something does not fit |
| ListeningAnswers.ReadAnswer | internal/listening/import_parser.go:364-381 | one option, several options or accepted values, and whether the options allow them |
| ListeningSave.Normalize | internal/listening/service.go:125-163 | positions are renumbered from one at every level and nothing else changes |
| ListeningSave.Validate | internal/listening/service.go:165-214 | a flaw in a type, number, prompt or answer is reported if and only if one of them is not fine; the flaws of size are exactly the parts without groups and the groups without questions or with more than fifty |
| ListeningImportSound.ImportedTestIsSound | internal/listening/import_parser.go:285-397 | a test imported without issues passes validation after normalizing, and question i of each group has number start+i and position i+1 |
| ListeningImportSound.AnswersHaveValues | internal/listening/import_parser.go:357-397 | after an import without issues every saved question has an answer with a value if and only if no answer line is without values |
| ListeningImportSound.ImportedAnswer | internal/listening/import_parser.go:364-382 | question by question: a saved answer is without values if and only if its line is |
| ListeningImportSound.UniquePartsAreFine | internal/listening/service.go:165-214 | sane questions whose numbers are found in one place only are what validation accepts |
| ListeningRoundTrip.ParseImport | internal/listening/import_parser.go:40-283 | the whole import: groups are those read from the text, parts are what they build with the answers and explanations of the text in place, repeated numbers are reported; it raises no issue if and only if the text is acceptable, and then its test saves soundly |
| ListeningTexts.ImportWritten | internal/listening/import_parser.go:40-397 | of any text written out and imported, whatever the issues: every question of the test is one the group asks, with the options written under it or else the group's, its prompt as written with its own only placeholder replaced in a completion, its answer line's values (options in capitals) and its explanation; no issue is raised if and only if the text is in order, and then every number of every group is there |
| ListeningTexts.AcceptedAsWritten | internal/listening/import_parser.go:285-397 | a text is accepted if and only if every group asks for each number of its range once and ranges are disjoint, every answer is for a question and names its options, every question has an answer, and every explanation has a question |
| ListeningWritten.ProperIsComplete | internal/listening/import_parser.go:285-355 | a group raises no issue by itself if and only if it has a type, a range and a known limit, and the lines and placeholders of its text ask for each number of the range once, in a completion each with its only placeholder |
| ListeningWritten.BuildKeepsPlaces | internal/listening/import_parser.go:285-355 | whatever the issues, the k-th group of the text becomes the group after those of its part before it, with its type, its options and questions that it asks |
| ListeningRoundTrip.ImportSilent | internal/listening/import_parser.go:358-382 | a concrete text with an answer line of separators only is imported without an issue, passes validation's checks of questions, and its question is saved without a value |
| ListeningRoundTrip.WrittenIsReadBack | internal/listening/import_parser.go:40-283 | a test written out part by part, group by group, with its answers and explanations is read back as exactly those parts, groups, answers and trimmed explanations, without an issue; context lines may match any pattern that does not count inside a group |
| ListeningRoundTrip.ReadGroup | internal/listening/import_parser.go:99-255 | a written group is read back as it was, wherever it stands and whatever else its context lines look like |
| ListeningReader.ReadKeeps | internal/listening/import_parser.go:75-278 | each line keeps groups in parts and, without an issue, types usable and prompts present |
| ListeningReader.ContextTakesExactly | internal/listening/import_parser.go:169-255 | while a group's context is read, a line becomes part of it if and only if it is none of the marks, fields, headings and questions that count inside a group |
| BillingTheorems.LedgerHolds | internal/billing/repository.go:227-325 | after any run: a user's windows that count are pairwise disjoint, every order owns exactly one entitlement when paid or refunded and none otherwise, a refunded one revoked, references unique per provider |
| BillingTheorems.OrdersFollowTheirPath | internal/billing/repository.go:173-306 | over the rest of any run status moves only pending to paid, failed or cancelled and paid to refunded; a reference once set, amounts and owners never change; revoked stays revoked |
| BillingTheorems.RepeatedNotification | internal/billing/repository.go:274-278 | a notification that was accepted once changes nothing whenever it arrives again in the rest of any run, a payment announced after its refund included; it is acknowledged if status and reference are still its own and refused otherwise |
| BillingTheorems.PaymentIsEntered | internal/billing/repository.go:260-306 | after any run, with forward days, a matching payment of a pending order is entered exactly when its reference is not taken by another order |
| BillingTheorems.OrdersAreAsCreated | internal/billing/repository.go:163-172 | an order keeps its user, amount, provider, days and meetings over the rest of any run |
| BillingTheorems.PaidAsOrdered | internal/billing/repository.go:260-306 | after any run an entitlement of an order ends where the calendar puts the order's days after its start, and brings the order's meetings |
| BillingTheorems.PaymentBuys | internal/billing/repository.go:260-306 | entering a payment appends one window for the order's user and moves the end of their queue by the order's days from the later of now and its end before; nobody else's changes |
| BillingTheorems.GrantBuys | internal/billing/repository.go:237-259 | so does a grant, with the given days or else the plan's and the plan's meetings |
| BillingTheorems.RefundTakesItsOwn | internal/billing/repository.go:260-306 | every accepted notification that is no new payment changes status and reference of its order only, and a refund also revokes exactly the order's own entitlement |
| BillingTheorems.GrantExtendsQueue | internal/billing/repository.go:227-236 | a new window begins now or at the end of the queue, moves the end of the queue there, and leaves earlier windows alone |
| BillingTheorems.SnapshotIsUnambiguous | internal/billing/repository.go:126-138 | at any instant, after any run, at most one window is live |
| BillingTheorems.AccessIsSumOfLengths | internal/billing/repository.go:227-236 | the instants with access are as many as the lengths of the windows that count add up to |
| BillingTheorems.NotifyKeeps | internal/billing/repository.go:260-306 | a notification of any kind keeps ledger and queue |
| Billing.Repository.CreateOrder | internal/billing/repository.go:163-172 | a pending order without reference |
| Billing.Repository.SetProviderOrder | internal/billing/repository.go:173-182 | sets a reference once; the same again is accepted |
| Billing.Repository.Insert | internal/billing/repository.go:227-236 | the window of the queue, refused when empty or the order has one |
| Billing.Repository.Grant | internal/billing/repository.go:237-259 | an entitlement of the plan, for its days or the given ones |
| Billing.Repository.Notify | internal/billing/repository.go:260-306 | every check in order, then status, entitlement and revocation together |
| Billing.Repository.Revoke | internal/billing/repository.go:307-325 | revokes once and for all |
| Billing.Repository.Meetings | internal/billing/repository.go:326-342 | only a number of meetings within the total |
| Billing.Repository.Snapshot | internal/billing/repository.go:126-138 | the earliest live window, or none exactly when none is live |
| QuotaTheorems.UsageBound | internal/billing/service.go:94-156 | over any run, usage per user and skill never exceeds the limit plus the number of different guest mocks recorded for the user; repeated claims, staff and disabled quotas add nothing |
| QuotaTheorems.ReplayIsFree | internal/billing/service.go:111-129 | a source that was paid for succeeds and charges nobody, however late and whatever happened in between |
| QuotaTheorems.ConsumedIsCharged | internal/billing/service.go:94-137 | whoever is not exempt and succeeds has paid for every skill of the source that nobody had paid for, for the rest of any run |
| QuotaTheorems.ClaimedIsPaid | internal/billing/service.go:141-156 | a claimed mock is paid for in all four skills for the rest of any run |
| QuotaTheorems.RefusedWhenExhausted | internal/billing/service.go:75-129 | an account without privilege is refused if and only if a skill not charged yet has nothing left, and then nothing changes |
| QuotaTheorems.AtMostOneOpenPractice | internal/attempts/repository.go:698-726 | over any run a user has at most one open practice attempt per material |
| QuotaTheorems.PracticeIsCreated | internal/attempts/repository.go:698-726 | a practice attempt is created if and only if the account exists, none is open for the material, and it is exempt, has paid for it or has something left |
| QuotaTheorems.CreatedIsCharged | internal/attempts/repository.go:698-726 | a created attempt is open, and unless the user is exempt exactly one unit of its skill is charged to them and stays charged over any later run |
| QuotaTheorems.UsageGrows | internal/billing/service.go:130-137 | usage rows stay, with their owner |
| AccessTheorems.Projections | internal/billing/service.go:94-129 | in any run of both ledgers each ledger sees one of its own runs, so its theorems carry over |
| AccessTheorems.PaidTimeIsFree | internal/billing/service.go:98-107 | once an entitlement has been entered, every request in its window succeeds and charges nothing over any later run, unless it has been revoked |
| AccessTheorems.RefusedOnlyOutsideAccess | internal/billing/service.go:98-129 | an account that is neither staff nor guest is refused if and only if no window is live at that instant and a skill not charged yet is used up |
| AccessTheorems.EveryUnitWasCharged | internal/billing/service.go:94-156 | after any run of both ledgers every unit of usage was charged to its owner by a claimed mock or by a request at an instant without a live window |
| Quota.Service.QuotaError | internal/billing/service.go:75-89 | the first skill with nothing left |
| Quota.Service.Consume | internal/billing/service.go:94-129 | privileges, replay, quota and record, all or nothing |
| Quota.Service.Claim | internal/billing/service.go:141-156 | a claimed mock is charged once for every skill, whatever is left |
| Quota.Service.RecordUsage | internal/billing/service.go:130-137 | inserts what is not there yet |
| Quota.Service.CreatePractice | internal/attempts/repository.go:698-726 | the open attempt if there is one, else a charge and a new attempt together |
| RefreshSessionTheorems.LoginsArePaths | internal/auth/repository.go:461-554 | after any run with the two later statements of a failed rotation scheduled at will, the sessions of a login form one path within one user, and only its end may be active |
| RefreshSessionTheorems.RotatesOnce | internal/auth/repository.go:479-516 | over any run each token rotates successfully at most once and is revoked from then on |
| RefreshSessionTheorems.LiveTokenRotates | internal/auth/repository.go:479-516 | after any run a token rotates if and only if it is neither revoked nor expired; its session is then revoked and linked to a new one of the same user, and no other changes |
| RefreshSessionTheorems.ExpiredTokenEnds | internal/auth/repository.go:521-554 | a token that has only expired costs its own session and nobody else's |
| RefreshSessionTheorems.LogoutEnds | internal/auth/repository.go:556-569 | after a logout the token does not rotate in the rest of any run |
| RefreshSessionTheorems.ReuseIsNoticed | internal/auth/repository.go:479-554 | a revoked token never rotates, and looking at it, however late, decides to revoke its user |
| RefreshSessionTheorems.ReuseRevokesAll | internal/auth/repository.go:535-545 | the response to reuse leaves the user without an active session until they log in again |
| RefreshSessionTheorems.LoginIsPath | internal/auth/repository.go:485-508 | of two sessions of one login the earlier leads to the later by replacement links |
| RefreshSessions.Repository.CreateSession | internal/auth/repository.go:461-471 | a session of its own, unless the token is known |
| RefreshSessions.Repository.RotateSession | internal/auth/repository.go:479-516 | replacement and revocation in one step, or the failure response |
| RefreshSessions.Repository.RotateSessionFailure | internal/auth/repository.go:521-554 | reuse revokes the whole user, expiry the session, anything else nothing |
| RefreshSessions.Repository.RevokeSession | internal/auth/repository.go:556-569 | revokes the token's session, if known |
| GradingMaterials.GradingMaterials | internal/attempts/mistakes.go:148-203 | every listening and reading attempt gets exactly what loading its version directly gives, other attempts nothing; it fails only when a provider is missing, a bulk query fails, or a version cannot be loaded directly; both caches stay truthful |
| GradingMaterials.GradingMaterialsOfType | internal/attempts/mistakes.go:207-254 | everything asked for, each as it is, through local cache, shared cache and loader |
| GradingMaterials.LoadGradingMaterials | internal/attempts/mistakes.go:262-296 | bulk answers completed by single loads, or one load each |
| GradingMaterials.FromShared | internal/attempts/mistakes.go:226-237 | unreadable or untyped shared entries are not used |
| GradingCache.LocalCache.Get | internal/attempts/grading_cache.go:43-59 | an entry counts up to its last instant; an expired one is dropped |
| GradingCache.LocalCache.Put | internal/attempts/grading_cache.go:61-72 | the entry is there, at most 256 entries, nothing lost while there is room |
| GradingCache.LocalCache.Evict | internal/attempts/grading_cache.go:76-90 | drops everything expired if anything is, otherwise at most one entry |
| GradingCache.SharedKeysDiffer | internal/attempts/mistakes.go:256-258 | two versions never share a key |
| GradingCache.SharedCache.GetMany | internal/attempts/mistakes.go:226-227 | the entries that are there, or none while unreachable |
| GradingCache.SharedCache.PutMany | internal/attempts/mistakes.go:243-252 | only the given entries change |
| GuestPreview.ExactlyThirtyPercent | internal/attempts/guest_preview.go:23-92 | the unlocked mistakes plus the unlocked improvements are exactly floor(3*total/10) |
| GuestPreview.OrderDoesNotMatter | internal/attempts/guest_preview.go:23-40 | the projection is identical for every permutation of a review with distinct questions |
| GuestPreview.LockedFeedbackDoesNotLeak | internal/attempts/guest_preview.go:23-99 | grades, saved answers, feedback of correct answers and of locked mistakes, and locked texts have no influence on what a guest receives |
| GuestPreview.GuestsSeeFirstMistakes | internal/attempts/guest_preview.go:23-99 | column by column: a guest gets all answers by number; the first mistakes, as many as 30% of mistakes and improvements allow, in full; every later one locked; no feedback of what is correct or locked; all other columns as they are |
| GuestPreview.TaskIsOffered | internal/attempts/guest_preview.go:73-92 | an improvement of a writing task comes at its place, labelled with its number, with its text while something is left after the mistakes and locked and empty from there on |
| GuestPreview.PartIsOffered | internal/attempts/guest_preview.go:73-92 | so does an improvement of a speaking part, after all those of writing |
| GuestPreview.OtherViews | internal/attempts/guest_preview.go:12-31 | of a locked review nothing is shown, students see everything, and guests get no grades and no evaluations, and no saved answers once the attempt is submitted |
| GuestPreview.DetailForViewer | internal/attempts/guest_preview.go:23-92 | the projection for guests and others, for every status |
| GuestPreview.Unlock | internal/attempts/guest_preview.go:64-76 | mistakes are shown while any are available, in order |
| GuestPreview.Offer | internal/attempts/guest_preview.go:77-84 | improvements are numbered, and locked and emptied past what is left |
| MockGenerator.NoNeedlessRepeat | internal/fullmock/generator.go:128-149 | a completed material is drawn only when all of the skill are completed, the previous one only when there is no other, and there is a pool exactly when the bank has something |
| MockGenerator.AtMostOneRunning | internal/fullmock/generator.go:176-313 | over any run of the generator a user has at most one running session |
| MockGenerator.CreatedIsDrawn | internal/fullmock/generator.go:257-313 | a created mock runs for its user with four open sections in the fixed order of skills, each drawn from the bank and repeated only where nothing else is left; without a restart no other mock changes |
| MockGenerator.StudentsAreServed | internal/fullmock/generator.go:229-292 | a student gets a new mock if and only if none is running or it is given up, and exam type, bank and quota allow it; otherwise the running one, or nothing changes |
| MockGenerator.GuestsHaveOne | internal/fullmock/generator.go:200-228 | a guest who has had a mock always gets their latest one |
| MockGenerator.RetakesAreOfTheLatest | internal/fullmock/generator.go:200-292 | a retake is created if and only if it is of the guest's own latest mock, finished, and admission, bank and quota allow it |
| MockGenerator.RestartStopsTheOld | internal/fullmock/generator.go:278-308 | a restart creates a running session with four open attempts and leaves none of the old one in progress |
| MockGenerator.RetakenOnce | internal/fullmock/generator.go:200-228 | once a retake of a finished mock exists, every later retake of it resumes the latest session and creates nothing |
| MockGenerator.SelectionPool | internal/fullmock/generator.go:128-149 | unseen ones, else others than the previous, else all of the skill |
| MockGenerator.Repository.Generate | internal/fullmock/generator.go:176-313 | trial, source, resume, readiness, admission, quota, restart and creation, in that order and all or nothing |
| MockGenerator.Repository.AbandonRunning | internal/fullmock/generator.go:278-288 | the running session is given up with what it has in progress; what is being assessed goes on |
| Sorting.SortForgetsOrder | internal/attempts/guest_preview.go:32-38 | a sort by a decisive order gives one result for all arrangements |
| Sorting.SortIsOrdered | internal/aiproviders/environment.go:58-66 | the stable sort orders |

## Left out

- HTTP, routing, cookies, middleware, configuration, command entry points and Python scripts.
- SQL text, isolation anomalies and lock waiting: a transaction, or a statement outside one, is one step. Separate statements (claiming a transcription, the check and the update of an advance, the failure path of a rotation) are separate steps.
- Redis queues, object storage and the speech and language models: their results are arbitrary.
- The two job tables have the same columns and statements and an attempt has a row in at most one; one map stands for both.
- A recording is identified by its attempt and part, its unique key; what a transcript was made from is told by the storage key, since stored audio is not rewritten.
- The exam guard before an attempt is touched, and the early status checks of the speaking assessment, only remove behaviours.
- Section expiry in the mock's service (`expireSection`, `GetSection`, `Pause`): abandoning a section and advancing are events that may come at any time, which covers its loop; the clock it consults is `SectionClock`.
- Range checks on grades and bands, and the computation of bands.
- A guest's claim that moves finished attempts to another account, account deletion and administrative edits: they would only weaken the conservation statements.
- AssistantStream.StreamCompletion: starts from decoded chunks; event framing, JSON and the size of the whole body are not modelled.
- AssistantStream.Consume: the chunk is decoded already; texts are byte sequences, so limits are in bytes.
- AssistantStream.Answer: trims ASCII white space only, and carries the messages that are sent to the model nowhere.
- AssistantStream.Stream: whether a candidate is skipped, late or abandoned is given with it, as are the decoded chunks and what the client accepts; the chain's own deadline is in `Failover`.
- Failover.Execute: the clock is read once per attempt; telemetry and the choice of the speaking model are left out.
- Failover.Providers: identities are compared as numbers, which is the order of their texts.
- ProviderRotation.Rotation.RotationOffset: cursors are unbounded naturals, without wrap-around.
- EvaluationSources: the two protocols keep separate clocks, which only adds runs; that a recording is not transcribed yet is found when the worker reads the attempt; the older path without a speech service is left out.
- ListeningRows.Repository.InsertVersion: the columns other than identity and position are one text, and JSON columns are taken to survive storage unchanged.
- ListeningRoundTrip.ParseImport: starts from lines with what every pattern makes of them; numbers are unbounded; titles, media identifiers, instructions, durations and warnings are read past without being kept.
- ListeningRoundTrip.WrittenIsReadBack: titles, media, instructions and reused options are not written; every line other than those of a context matches its own pattern only.
- ListeningTexts.ImportWritten: texts are those `WrittenIsReadBack` speaks about; that a question line has something to ask is what its pattern demands.
- ListeningRoundTrip.ReadGroup: instruction, image and the mark for reused options are not part of a group here.
- ListeningSave.Normalize: only positions are renumbered; trimming texts and filling in defaults are left out.
- ListeningSave.Validate: slug, title, duration, exam type and revision are not modelled.
- Billing.Repository.Grant: prices, notes and meeting kinds are left out; plans are given by their days and meetings.
- Quota.Service.Consume: whether an account is staff, a guest or has a live entitlement is given with each call (`AccessTheorems` looks the entitlement up in the ledger); skills are an enumeration, so the error for an unknown one is absent.
- AssessmentRepository.Repository.RetryAssessment: this class has no transcription tables; the failed transcriptions that the same transaction queues again are part of the joint step `EvaluationSources.AssessStep`.
- MockGenerator.Repository.Generate: the bank query, the random draw, the guest's trial and the admission of a retake are given; sessions are ordered by their insertion.
- RefreshSessions.Repository.RotateSession: user agent, address and the instant of revocation are left out; hashes of different tokens differ.
- GradingMaterials.GradingMaterials: identifiers are only assumed to be written differently and without a colon; the loads of different skills run one after the other, and a bulk query returns versions as they are.
- GuestPreview.DetailForViewer: what only a review shows of an answer is one text; assessment jobs shown beside it are left out.
- Administration of tests, blog, analytics, dashboard, daily limiters and health checks: they would only add easy members.
