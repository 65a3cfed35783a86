# A verified model of the newsroom's durable workflow

This project models, in Dafny 4.11, the parts of the newsroom workflow that must survive crashes,
takeovers and stale workers, and proves what they guarantee.

* **Sheets authority** (`HandoffModel`, `HandoffInvariant`, `HandoffTheorems`, `HandoffRecovery`, `HandoffEvidence`,
  `HandoffGrants`, `HandoffService`).
  Operations, leases, fences, probes, settlements and subjects of `src/newsbot/handoffs.py`. Handoffs and bootstraps are one
  kind of subject. A run is any sequence of service calls, with any lease object presented to any call: that covers every
  interleaving of workers, every crash between transactions, and the two Sheets drivers in `src/newsbot/cli.py`.
* **Stream leases and outbox** (`OutboxModel`, `OutboxTick`, `OutboxInvariant`, `OutboxTheorems`, `OutboxDelivery`,
  `OutboxJournal`, `OutboxAudit`, `OutboxOutcomes`, `OutboxProgress`, `OutboxNotes`,
  `OutboxService`). The chunked sender of `src/newsbot/automation.py`, driven by the dispatch
  half of `telegram_tick` as a state machine; any number of ticks overlap, and each may stop for ever between two
  transactions. `OutboxJournal` adds what the same transactions write about them: events, resolutions, callback tokens.
* **Lineage, generation jobs, provider control** (`PipelineModel`, `PipelineInvariant`, `PipelineSteps`,
  `PipelineTheorems`, `PipelineControl`, `PipelineProgress`, `PipelineDecisions`, `PipelineGrants`, `PipelineJourney`,
  `PipelineService`). Digests, callback tokens, selections, jobs, provider attempts,
  generations, approvals, retry states and the provider pause, of `src/newsbot/candidates.py`,
  `src/newsbot/pipeline.py` and the operator commands.
* **Durable collection** (`CollectionModel`, `Collection`). A class whose methods run page by page, with a stop possible
  between any two transactions, against a channel that changes between any two requests.
* **HTTP body** (`BodyModel`, `BodyReader`, `BodyRoundTrip`, `BodyGrammar`) and **query key** (`QueryModel`, `Query`,
  `QueryMeaning`) of
  `src/newsbot/v2_article.py`.
* **Containment latch** (`ContainmentModel`, `Containment`), **portable exports** (`ExportModel`, `Exports`, `ExportOrder`,
  `ExportTies`, `ExportMeaning`) and **noon window** (`NoonModel`, `NoonWindow`).
* **End to end** (`Newsroom`). The pipeline and the Sheets authority as one system: the transaction that approves a
  candidate also enqueues its handoff.

Each storage transaction is one transition of a database value, with the branches and constants of the source. The
`*Service` modules and the classes in the other modules hold the same transactions as imperative methods over mutable
rows, each proved to leave exactly the database of its transition, so the theorems about runs are about those methods.
What a transition must not do is said by invariants and by theorems about runs; what it must do, and exactly when, is said
row by row and without the transition's own predicates, in the theorems whose names end in `Exactly`, `Leads` or `Means`
and in those about undisturbed runs.
Row ids are positions in append-only tables, times are integer microseconds, and hashes, tokens and texts are numbers
or values that only equality looks at. `Common` and `Permutations` hold what several modules share.
`dafny verify dfyconfig.toml` checks everything.

## Where the obvious statement is false

* `release_possibly_sent` does not look at the operation's status. `HandoffRecovery.GuardLostOnlyByEarlyRelease` says that
  acquired operations stay guarded by their lease if and only if that call is not made on an unmarked operation,
  `HandoffRecovery.GuardedIffNoEarlyRelease` says the same of whole runs, and `HandoffRecovery.EarlyReleaseRunExists` is a
  run that makes such a call, after which nothing frees the target (`HandoffRecovery.OrphanHoldsItsTarget`). Both
  Sheets drivers release only after the mark (the bootstrap at `src/newsbot/cli.py:1493-1528`, the delivery at
  `src/newsbot/cli.py:1703-1735`); `HandoffRecovery.DriversKeepGuard` is the guarantee for runs that do so.
* "A failed job always has a due time, a hold or a block" fails for one call, the release of a held, unblocked job during
  a provider pause. `PipelineControl.StrandedOnlyByReleaseDuringPause` is the exact condition and
  `PipelineControl.StrandingRunExists` a run that meets it.
* "No job passes nine failures without a hold or block" fails after nine busy failures, a tenth failure that pauses the
  provider, and a resume. `PipelineControl.OverdrawnOnlyByResume` is the exact condition,
  `PipelineControl.OverdrawingRunExists` that run, and `PipelineControl.NeverOverdrawn` the guarantee for runs without such
  a resume. The delays that a settlement schedules stay within 30 and 930 seconds in any case
  (`PipelineControl.SettlementSchedules`).
* `create_notification_chunks` takes no lease. It is modelled without one, and the outbox theorems hold all the same.
* "No item joins a noon window that has left `collecting`" fails when the clock steps back over a noon that a seal had
  reached. `NoonWindow.JoinsSealedExactly` is the exact condition, `NoonWindow.JoinsSealedInThePast` shows the step back,
  and `NoonWindow.BackwardClockBreaksSeal` is a run. All else about the windows holds with any clock, and no claim needs a
  single configuration binding.
* "Export bytes do not depend on the order of rows" holds if and only if version identities tell provenances apart and
  claim ids tell claims apart (`ExportTies.OrderShowsExactly`). `ExportTies.OrderShowsExists` is an accepted export that
  breaks it: `approval_outbox_intent` checks source and material identities, and never the claim id. What the program itself
  writes is on the good side (`ExportTies.IssuedExportIgnoresRowOrder`): its manifests take claim ids from
  `source_claim_identity` (`src/newsbot/pipeline.py:1179`), which covers the material, and its tables keep channel, post and
  version key unique (`src/newsbot/migrations/001_initial.sql:24-41`), so without hash collisions no two entries tie.

## Model

| member | source | states |
|---|---|---|
| HandoffTheorems.FencedOverRuns | src/newsbot/handoffs.py:246-327 | after every run a target has at most one unfinished operation, and an operation at most one active lease, on an unfinished operation, with the newest fence |
| HandoffTheorems.OwnedLeaseIsTheFence | src/newsbot/handoffs.py:1117-1130 | whoever passes `_owns` holds the newest fence of an unfinished operation, and nobody else does |
| HandoffTheorems.StaleLeaseIsPowerless | src/newsbot/handoffs.py:1117-1142 | a lease that was superseded or closed changes no row through any of the seven methods that take one, after any further calls |
| HandoffTheorems.TakeoverStripsOlderLeases | src/newsbot/handoffs.py:504-561 | a granted probe lease takes away whatever lease was held on the operation |
| HandoffTheorems.RunEvolves | src/newsbot/handoffs.py:1072-1142 | fences only grow, and finished operations, closed leases, dispatch marks, settlements and final subjects never change |
| HandoffTheorems.SubjectAgreesWithOperations | src/newsbot/handoffs.py:909-987 | a subject is delivering, or ambiguous, exactly when it has an unfinished operation that is acquired, or possibly sent |
| HandoffTheorems.FinalSubjectsAbsorb | src/newsbot/handoffs.py:909-987 | delivered, corrupt, manual and ready subjects are never moved again |
| HandoffTheorems.OneSettlementPerFinishedOperation | src/newsbot/handoffs.py:878-907 | an operation is finished if and only if it has a settlement row; it has one, which matches operation, subject and lease |
| HandoffTheorems.RefusalWritesOnlyRecovery | src/newsbot/handoffs.py:196-875 | whatever call is refused or raises, it writes nothing but the recovery of an expired lease; a granted call writes a row that no recovery writes |
| HandoffTheorems.OnlyMarkDispatches | src/newsbot/handoffs.py:371-488 | only a successful mark_possibly_sent gives an operation its dispatch time, and only the operation of its lease |
| HandoffTheorems.DispatchOnlyAfterNotApplied | src/newsbot/handoffs.py:371-488 | when an operation is dispatched, every operation of its subject dispatched earlier is settled as not applied |
| HandoffTheorems.NoResend | src/newsbot/handoffs.py:196-488 | over every run, retry_blocked with any operation id included: one dispatch mark an operation, and of two dispatched operations of a subject one is settled as not applied |
| HandoffTheorems.AtMostOneCopy | src/newsbot/handoffs.py:616-875 | if "settled as not applied" is always the truth, the sheet never holds two copies of one handoff |
| HandoffEvidence.NothingWithoutEvidence | src/newsbot/handoffs.py:732-875 | after every run, whatever was settled has the row of its own finding under the fence it ended with: an exact probe if applied, an exact preflight if reused, the matching probe or preflight of a conflict; and every dispatch has an absent preflight within its mutation lease's term |
| HandoffEvidence.FinishGrantedExactly | src/newsbot/handoffs.py:732-875 | `finish` is granted if and only if the holder of the newest fence of an unfinished operation has that row, said over probes, events, leases and operations |
| HandoffEvidence.FinishSettles | src/newsbot/handoffs.py:878-987 | a granted settlement ends operation, lease, settlement and subject as its outcome says |
| HandoffEvidence.FoundExactlyIsDelivered | src/newsbot/handoffs.py:771-875 | the holder of a dispatched operation who probed exactly its row is granted `applied`, and the subject is delivered |
| HandoffEvidence.RejectionGrantedExactly | src/newsbot/handoffs.py:616-730 | a trusted rejection is granted if and only if the mutation lease of a dispatched operation brings a code of its kind and a due time ahead where one is needed; the subject is then retryable at that time, or blocked |
| HandoffEvidence.MarkGrantedExactly | src/newsbot/handoffs.py:405-488 | a dispatch is granted if and only if the mutation lease runs, its newest absent preflight lies within its term, oracle, controls and bootstrap agree, and the credential outlives the request by its margin; a lapsed lease is recovered instead |
| HandoffEvidence.MarkRecords | src/newsbot/handoffs.py:450-488 | a granted dispatch is on record: the operation has its time, its subject is ambiguous |
| HandoffGrants.AcquisitionGrantedExactly | src/newsbot/handoffs.py:246-327 | an acquisition is granted if and only if the subject is bound to the asked target, may start, and nothing but a lapsed, undispatched operation is under way on the target |
| HandoffGrants.AcquisitionOpens | src/newsbot/handoffs.py:285-327 | what is granted: a new operation under its first fence, with a mutation lease of the asked term |
| HandoffGrants.OrdinalsGrow | src/newsbot/handoffs.py:285-300 | ordinals count up on a target |
| HandoffGrants.SightingGrantedExactly | src/newsbot/handoffs.py:329-369 | a preflight is recorded if and only if the running mutation lease of an undispatched operation brings the first deciding one |
| HandoffGrants.ProbeGrantedExactly | src/newsbot/handoffs.py:504-561 | a probe lease is granted if and only if the operation is dispatched and unsettled under the expected fence and no lease of it still runs; the fence grows by one |
| HandoffGrants.ReopenedExactly | src/newsbot/handoffs.py:196-244 | `retry_blocked` reopens exactly what was rejected for good or met another schema, with a correctable fault, on a free target |
| HandoffGrants.ReopenedCanBeAcquired | src/newsbot/handoffs.py:196-327 | what was reopened can be acquired again from that moment on |
| HandoffGrants.EnqueuedCanStart | src/newsbot/handoffs.py:65-128 | an enqueued handoff is fresh and bound to its target; a handoff is enqueued once |
| HandoffGrants.ReleasedCanBeProbed | src/newsbot/handoffs.py:490-614 | a dispatched operation whose lease was given up can be probed at once |
| HandoffGrants.UndisturbedDeliveryDelivers | src/newsbot/cli.py:1648-1716 | after every run, a handoff that may start on a free target is delivered by the driver's five calls if they come within the lease |
| HandoffGrants.RunningLeaseStays | src/newsbot/handoffs.py:504-561 | through any calls of others, a lease that runs stays its holder's |
| HandoffRecovery.GuardLostOnlyByEarlyRelease | src/newsbot/handoffs.py:490-502 | a call leaves every acquired operation with its active mutation lease if and only if it is no release of an unmarked operation |
| HandoffRecovery.GuardedIffNoEarlyRelease | src/newsbot/handoffs.py:490-502 | after a run every acquired operation has its lease if and only if no call of the run was such a release |
| HandoffRecovery.EarlyReleaseRunExists | src/newsbot/handoffs.py:490-502 | such a release is reachable: enqueue, acquire, release |
| HandoffRecovery.OrphanHoldsItsTarget | src/newsbot/handoffs.py:998-1070 | an acquired operation without a lease keeps its target busy for good: no later call is granted an acquisition there |
| HandoffRecovery.DriversKeepGuard | src/newsbot/cli.py:1493-1735 | over runs that release only after a successful mark, every acquired operation keeps its lease |
| HandoffRecovery.ExpiredAcquiredIsRecovered | src/newsbot/handoffs.py:998-1070 | recovery frees the target of a guarded acquired operation whose lease ran out, and its subject becomes retryable |
| HandoffInvariant.StepKeepsInv | src/newsbot/handoffs.py:65-1142 | every service call keeps all tables in agreement, whatever lease object it is given |
| HandoffInvariant.RunKeepsInv | src/newsbot/handoffs.py:65-1142 | so does every sequence of calls, from the empty database on |
| HandoffService.SheetHandoffService.AcquireInitialLease | src/newsbot/handoffs.py:246-327 | the transaction, row by row, leaves the database of the transition AcquireInitial |
| HandoffService.SheetHandoffService.MarkDispatch | src/newsbot/handoffs.py:371-488 | the transaction leaves the database of MarkPossiblySent, recovery of an expired lease included |
| HandoffService.SheetHandoffService.RetryBlockedOperation | src/newsbot/handoffs.py:196-244 | the transaction leaves the database of RetryBlocked |
| HandoffService.SheetHandoffService.AcquireProbeLease | src/newsbot/handoffs.py:504-561 | the transaction leaves the database of AcquireProbe, with the old lease retired first |
| HandoffService.SheetHandoffService.SettleTrustedRejection | src/newsbot/handoffs.py:616-730 | the transaction leaves the database of SettleRejection; its late refusals are never reached |
| HandoffService.SheetHandoffService.FinishLease | src/newsbot/handoffs.py:732-875 | the transaction leaves the database of Finish; its late refusals are never reached |
| HandoffService.SheetHandoffService.RecoverExpiredPreMarker | src/newsbot/handoffs.py:998-1070 | the transaction leaves the database of Recover |
| OutboxTheorems.ResendOnlyAfterRejection | src/newsbot/automation.py:930-1094 | over every run of overlapping ticks each attempt is sent at most once, and a chunk is sent again only after a trusted rejection of its earlier attempt |
| OutboxTheorems.AcceptedChunksAreAPrefix | src/newsbot/automation.py:1212-1227 | accepted chunks form a prefix by index, and none is accepted twice |
| OutboxTheorems.SentMeansEveryChunkAccepted | src/newsbot/automation.py:970-1094 | a notification is "sent" exactly when it was chunked and every chunk has an accepted attempt |
| OutboxTheorems.OneOpenRunPerStream | src/newsbot/automation.py:367-427 | fences of a stream strictly increase, and its only open run is that of the lease row in place |
| OutboxTheorems.PreparedIsAlwaysRecovered | src/newsbot/automation.py:534-596 | every prepared attempt belongs to the lease row in place, and a takeover or a failed release leaves none prepared |
| OutboxTheorems.AdvanceIsFenced | src/newsbot/cli.py:2436-2569 | a tick that lost the dispatch row changes nothing but chunk rows |
| OutboxOutcomes.VerdictLeads | src/newsbot/automation.py:970-1094 | a verdict is taken exactly from the current holder on an open attempt of its own; the attempt and the notification end as the verdict says, by what was accepted before and whether it is a noon digest |
| OutboxOutcomes.RefusedForGood | src/newsbot/cli.py:2541-2566 | over every run, after a rejection without retry, or an unknown outcome, the log never again gains an attempt of that notification |
| OutboxOutcomes.RefusedForNow | src/newsbot/cli.py:2553-2560 | over every run, after a retryable rejection the notification is pending, where the next claim finds it, unless a part of it arrived and it is no noon digest: then nothing of it is sent again |
| OutboxOutcomes.SentForGood | src/newsbot/automation.py:1073-1094 | over every run, the last acceptance ends the notification as sent, and nothing of it is sent again |
| OutboxOutcomes.RecoveryLeads | src/newsbot/automation.py:534-596 | a takeover abandons exactly the unmarked attempts of the lease and sends exactly their notifications back, to pending or, with a part accepted, to the operator |
| OutboxOutcomes.PossiblySentIsAmbiguous | src/newsbot/automation.py:496-531 | an attempt that may have been sent, and its notification, become ambiguous |
| OutboxOutcomes.OperatorDecides | src/newsbot/automation.py:1096-1128 | an operator ends exactly an ambiguous or partly delivered notification in the state that was expected |
| OutboxOutcomes.LeaseGrantedExactly | src/newsbot/automation.py:367-408 | a stream is leased if and only if nobody's lease of it runs, for the asked term, with a new fence and a run of its own |
| OutboxOutcomes.ReleasedExactly | src/newsbot/automation.py:410-427 | a lease row is given back exactly by its holder while it runs; a failed release recovers first |
| OutboxOutcomes.RunningRowStays | src/newsbot/automation.py:380-381 | over runs whose calls come before its end, the dispatch lease stays its holder's |
| OutboxProgress.ClaimTakesTheFirst | src/newsbot/automation.py:472-494 | a claim takes the first notification in line |
| OutboxProgress.ChunksAreLaidDown | src/newsbot/automation.py:1256-1293 | chunks are laid down once, as computed, if and only if they are well formed and the notification is in line |
| OutboxProgress.PreparationLeads | src/newsbot/automation.py:930-958 | an attempt is prepared under the lease with the next ordinal of its chunk |
| OutboxProgress.TickFindsTheChunk | src/newsbot/cli.py:2436-2492 | from its lease an undisturbed tick comes, step by step, to the first unaccepted chunk of the first notification in line |
| OutboxProgress.TickSettles | src/newsbot/cli.py:2541-2566 | and takes the remote service's verdict on what it sent |
| OutboxProgress.TickAbandons | src/newsbot/cli.py:2507-2541 | a callback of a chunk with buttons that cannot be linked, or a deadline that passed, abandons the attempt before anything is sent |
| OutboxDelivery.AtMostOneArrival | src/newsbot/cli.py:2541-2566 | if acceptances and trusted rejections are true, no chunk arrives twice, whatever attempts, stops and takeovers there were |
| OutboxDelivery.SentArrivedOnce | src/newsbot/automation.py:1073-1094 | then every chunk of a "sent" notification has arrived, exactly once |
| OutboxAudit.ButtonsFollowMessages | src/newsbot/automation.py:1008-1070 | a button takes effect only through an attempt that was accepted or is unknown, and every token of a rejected or abandoned attempt is revoked |
| OutboxAudit.JournalTellsAttempts | src/newsbot/automation.py:496-1094 | after every run the event rows say of each attempt that it was accepted, rejected, unknown or abandoned exactly when it was |
| OutboxNotes.VerdictIsNoted | src/newsbot/automation.py:1008-1094 | a verdict that is taken is noted with the state it leaves, and strips the buttons of exactly that attempt if its message is certainly not in the chat |
| OutboxNotes.ClaimsAndAttemptsAreNoted | src/newsbot/automation.py:472-958 | a claim of a pending notification, a preparation and an ambiguity found after a stop are noted, each once |
| OutboxNotes.ResolutionIsNoted | src/newsbot/automation.py:1096-1128 | an operator's decision is noted with the state it ended; an abandoned notification loses its buttons |
| OutboxNotes.TakeoverIsNoted | src/newsbot/automation.py:534-596 | a takeover notes once each attempt that it abandons and each notification that goes to the operator in part, and strips exactly the buttons of those attempts |
| OutboxNotes.PressActsExactly | src/newsbot/candidates.py:271-282 | a press takes effect, once, if and only if the button is live and its message was sent, may have been, or was confirmed |
| OutboxNotes.LinkedExactly | src/newsbot/automation.py:1229-1244 | a free token is linked, with a note, if and only if the tick's lease runs and its chunk has buttons |
| OutboxAudit.OneResolution | src/newsbot/automation.py:1096-1128 | a notification is resolved at most once, and its state is that of its resolution row |
| OutboxAudit.LiveButtonsStay | src/newsbot/automation.py:1008-1070 | a live button is taken away only when revoked elsewhere, pressed, or when its message is certainly not in the chat |
| OutboxAudit.DaysAreRuns | src/newsbot/cli.py:2507-2535 | linking callbacks moves the outbox only as ticks do, so the theorems about ticks hold there |
| OutboxTheorems.ActKeepsInv | src/newsbot/cli.py:2370-2569 | every step of every tick, intent, operator and other lease holder keeps the outbox invariant |
| OutboxTheorems.RunKeepsInv | src/newsbot/cli.py:2370-2569 | so does every run of such steps from the empty database |
| OutboxTheorems.SettleKeepsInv | src/newsbot/automation.py:970-1094 | every verdict keeps the invariant; an acceptance completes the notification exactly with its last chunk |
| OutboxService.AutomationAuthority.RecoverExpiredPreparedAttempts | src/newsbot/automation.py:534-596 | the loops leave the attempts and notifications of RecoverPrepared, with the events and revoked tokens of RecoverJournal |
| OutboxService.AutomationAuthority.Acquire | src/newsbot/automation.py:367-408 | the transaction leaves the lease, runs and attempts of AcquireLease |
| OutboxService.AutomationAuthority.Release | src/newsbot/automation.py:410-427 | the transaction leaves the lease, runs and attempts of ReleaseLease |
| OutboxService.AutomationAuthority.RecoverAfterMarker | src/newsbot/automation.py:496-531 | the transaction leaves the database of RecoverPossiblySent and the events of RecoverSentJournal |
| OutboxService.AutomationAuthority.Settle | src/newsbot/automation.py:970-1094 | the transaction leaves the database of SettleAttempt for all four verdicts, with the events and revoked tokens of SettleJournal |
| OutboxService.AutomationAuthority.LinkCallback | src/newsbot/automation.py:1229-1244 | under the current lease a token is linked if it was not linked before, with an event; otherwise nothing changes |
| OutboxService.AutomationAuthority.ResolveNotification | src/newsbot/automation.py:1096-1128 | the transaction leaves the database of Resolve, with the resolution, event and revoked tokens of ResolveJournal |
| PipelineTheorems.OneLineage | src/newsbot/candidates.py:427-514 | after every run a candidate has at most one selection, a digest selects at most one candidate, live jobs plus current generations of a selection never exceed one, and no job has two generations |
| PipelineTheorems.TokenActsOnce | src/newsbot/candidates.py:262-375 | a callback token that took effect never changes anything again, whatever calls come between |
| PipelineTheorems.DecisionRevokesSiblings | src/newsbot/candidates.py:399-401 | every decision but a refresh leaves each other token of the candidate revoked or spent |
| PipelineTheorems.ApprovedForGood | src/newsbot/candidates.py:515-550 | an approved candidate stays as it is and has exactly one handoff, approved by a spent token whose content is that of the generation handed off |
| PipelineTheorems.LostLeaseIsPowerless | src/newsbot/pipeline.py:646-711 | a worker whose lease was taken over, or whose job was superseded, inserts no generation and settles nothing, ever after, on either generation path |
| PipelineTheorems.GenuineLosesToTakeover | src/newsbot/pipeline.py:561-590 | every ticket that a start handed out is in that position once its job runs under another token or no longer runs |
| PipelineTheorems.OneOpenAttempt | src/newsbot/pipeline.py:852-885 | after every run a job has at most one open provider attempt |
| PipelineSteps.StepKeeps | src/newsbot/pipeline.py:496-1137 | every call of desk, workers and operators keeps selections, jobs, generations, handoffs, leases, control chain and blocks in agreement |
| PipelineSteps.RunKeeps | src/newsbot/pipeline.py:496-1137 | every interleaving of calls, with a stop after any of them, keeps it, and rows only evolve as their tables allow |
| PipelineSteps.MakeIsFresh | src/newsbot/candidates.py:427-470 | a fitting selection token meets an unchosen digest, so the reuse branches for selection and job never run |
| PipelineSteps.LeasedAttemptIsOpen | src/newsbot/pipeline.py:992-1006 | the attempt of a leased ticket is open and the only open one of its job, so the first update of a settlement finds it |
| PipelineSteps.LeasedHasNoGeneration | src/newsbot/pipeline.py:646-690 | a leased job has no generation, so the commit never reuses one |
| PipelineSteps.InvalidateKeeps | src/newsbot/pipeline.py:146-197 | invalidation of revised candidates, with their digests, jobs and generations, keeps the invariant |
| PipelineProgress.EveryWaiterHasWork | src/newsbot/pipeline.py:496-969 | over every run, a candidate that waits for a generation has a live job on its selection |
| PipelineProgress.CommitBringsReview | src/newsbot/pipeline.py:646-711 | exactly the lease holder's commit adds one current generation with the content it was given, succeeds the job, completes the attempt, and brings the candidate to pending review |
| PipelineProgress.CodexCommitBringsReview | src/newsbot/pipeline.py:925-969 | so does the Codex commit, which also forgets failures and hold |
| PipelineDecisions.ButtonActsExactly | src/newsbot/candidates.py:262-375 | a press changes the database if and only if everything the open button shows is still so and the world agrees; it spends the button and strips the others |
| PipelineDecisions.ButtonDoes | src/newsbot/candidates.py:400-551 | from any reachable database, each action's rows: one selection and one queued job, one handoff of the shown generation, the selection started over, a deferral to its hour, a rejection, or nothing |
| PipelineDecisions.ResumeReturnsExactly | src/newsbot/candidates.py:638-681 | exactly the deferrals that came due return to their stage, or go with a new revision if their sources moved on; after the cutover only the recorded ones do |
| PipelineDecisions.DeferralComesBack | src/newsbot/candidates.py:405-430 | a deferral ends, not before its hours are over, with the candidate's status and revision as they were and its old buttons dead |
| PipelineDecisions.InvalidateTakesExactly | src/newsbot/pipeline.py:146-197 | exactly the outdated candidates that were not approved go, with what was live or current below them and the open digests of their runs |
| PipelineDecisions.ArrivesAndIsShown | src/newsbot/pipeline.py:380-396 | a candidate arrives waiting to be chosen, unless policy rejects it; a button is issued open |
| PipelineDecisions.DigestOpens | src/newsbot/candidates.py:83-135 | a digest opens active with its first revision; exactly the stale, unchosen candidates of its run go |
| PipelineGrants.StartGrantedExactly | src/newsbot/pipeline.py:496-600 | a start by hand is granted if and only if the candidate has an unfinished job that Codex does not own and whose lease, if any, ran out; it runs that job for five minutes |
| PipelineGrants.CodexStartGrantedExactly | src/newsbot/pipeline.py:777-905 | a Codex start is granted if and only if the provider is not paused and the job comes first: broken leases, due retries, new jobs, then by time, attempts and id |
| PipelineGrants.CodexIsGivenExactly | src/newsbot/pipeline.py:714-748 | Codex is given the first ready job, or else the first free one, which it then owns, or nothing if there is neither |
| PipelineGrants.FailureIsRetriedExactly | src/newsbot/pipeline.py:619-645 | a failure on the first path is due again at once, if and only if the lease was still held |
| PipelineGrants.CodexFailureExactly | src/newsbot/pipeline.py:971-1137 | a Codex failure is settled if and only if the lease was held and no pause was in its way; it blocks with the pause it takes, holds after 10, 5 or 2 failures, or retries after 300 seconds or a doubled delay and the jitter |
| PipelineGrants.PauseExactly | src/newsbot/cli.py:891-957 | an operator's pause is in force if and only if none was and the version was the expected one |
| PipelineGrants.ResumeGrantedExactly | src/newsbot/cli.py:958-1041 | a resume is granted if and only if it names the remedy of the pause in force, and its version |
| PipelineGrants.HoldsAndReleasesExactly | src/newsbot/cli.py:1052-1140 | a hold takes exactly what is live, bound, counted and not held; a release starts the count anew and has a failed job due, if no pause is in force |
| PipelineJourney.RunningJobStays | src/newsbot/pipeline.py:496-560 | through any calls of desk, operators and other workers, a running job stays as it is until its time is over, its holder settles or its candidate goes |
| PipelineJourney.LeaseholderCommits | src/newsbot/pipeline.py:646-711 | so whoever leased a job by hand brings its candidate to review, whatever undisturbing calls came between |
| PipelineJourney.CodexLeaseholderCommits | src/newsbot/pipeline.py:925-969 | and so does whoever leased it for Codex |
| PipelineJourney.OfferedIsHandedOff | src/newsbot/candidates.py:262-551 | from any reachable database, a candidate that its digest offers is chosen, leased, generated, approved and handed off with what was generated |
| PipelineControl.ControlChain | src/newsbot/cli.py:891-1041 | control versions count up without a gap, pauses and resumes alternate, and every blocked live job carries the version and reason of the pause in force |
| PipelineControl.ResumeFreesExactlyTheBlocked | src/newsbot/cli.py:985-1008 | a resume makes due exactly the live jobs that its pause blocked, changes no other job, and leaves none blocked |
| PipelineControl.SettlementSchedules | src/newsbot/pipeline.py:1027-1131 | a settled failure is blocked, held, or due 30 to 930 seconds ahead with at most nine failures, and which of them the code and count decide |
| PipelineControl.RetryDelayBounds | src/newsbot/pipeline.py:1086-1118 | without a hold the 1800 second delay and the 3600 second cap never apply |
| PipelineControl.StrandedOnlyByReleaseDuringPause | src/newsbot/cli.py:1091-1114 | a call leaves a failed job without due time, hold or block if and only if it releases a held, unblocked one without due time during a pause |
| PipelineControl.NeverStranded | src/newsbot/pipeline.py:1042-1137 | a run without such a release strands no job |
| PipelineControl.StrandingRunExists | src/newsbot/cli.py:1107-1114 | such a release is reachable |
| PipelineControl.OverdrawnOnlyByResume | src/newsbot/cli.py:985-1008 | a call takes a job past nine failures without hold or block if and only if it is a resume that frees an unheld job with more than nine |
| PipelineControl.NeverOverdrawn | src/newsbot/pipeline.py:1042-1137 | a run without such a resume takes no job past nine failures without hold or block |
| PipelineControl.OverdrawingRunExists | src/newsbot/pipeline.py:1042-1092 | such a resume is reachable |
| PipelineModel.MostUrgent | src/newsbot/pipeline.py:750-775 | the selected job is eligible and comes before every other eligible one; none is selected only if none is eligible |
| PipelineModel.OldestUnbound | src/newsbot/pipeline.py:726-748 | the job bound next is bindable and first by request time, then by id, among the bindable ones |
| PipelineService.NewsDesk.ApplyCallback | src/newsbot/candidates.py:235-551 | the transaction, with the checks in order, leaves the database of Apply |
| PipelineService.NewsDesk.ResumeDeferred | src/newsbot/candidates.py:638-681 | the loop over due candidates leaves the database of Resume |
| PipelineService.NewsDesk.CreateCandidateDigest | src/newsbot/candidates.py:83-135 | the loop over stale candidates and the digest insert leave the database of CreateDigest |
| PipelineService.NewsDesk.InvalidateRevised | src/newsbot/pipeline.py:146-197 | the four updates in order leave the database of Invalidate |
| PipelineService.NewsDesk.LeaseSelected | src/newsbot/pipeline.py:496-600 | the first transaction of generate_selected leaves the database and ticket of StartSelected |
| PipelineService.NewsDesk.LeaseCodex | src/newsbot/pipeline.py:777-905 | the first transaction of generate_codex_job_exact leaves the database and ticket of StartCodex |
| PipelineService.NewsDesk.CommitCodexDraft | src/newsbot/pipeline.py:925-969 | the commit transaction leaves the database of CommitCodex |
| PipelineService.NewsDesk.SettleCodexFailure | src/newsbot/pipeline.py:971-1137 | the settlement transaction leaves the database of FailCodex |
| PipelineService.NewsDesk.ResumeCodex | src/newsbot/cli.py:950-1008 | the control update, then the loop over freed jobs, leave the database of ResumeProvider |
| PipelineService.NewsDesk.ReleaseCodexJob | src/newsbot/cli.py:1052-1140 | the transaction leaves the database of ReleaseJob |
| Collection.DurableCollection.CollectChannel | src/newsbot/storage.py:1350-1469 | wherever it stops, nothing is lost; the cursor moves only forward, and every promotion closes an interval of which every post still on the channel is stored, with the overlap below it read again since the interval was fixed; it stops only at a death point, fails only if the newest id lies before the cursor, and an unfinished call leaves less work; requests stay within max_remote_pages |
| Collection.DurableCollection.FixInterval | src/newsbot/storage.py:1383-1400 | a new interval reaches from the cursor to the newest id reported at that moment, with the cursor's time or the lookback as its floor; it is refused only if that id lies before the cursor |
| Collection.DurableCollection.CollectUntilComplete | src/newsbot/cli.py:200-202 | repeating the call, each with its own clock reading, ends; with no interval in force and unless a call stops or fails, the cursor ends at the newest id of some moment since the start, and every post the channel still holds from the old cursor, or the lookback, up to it is stored |
| Collection.DurableCollection.Reconcile | src/newsbot/storage.py:1506-1546 | what the channel holds up to the position reached was read again; short of the end every page was full and there were max_pages requests; recorded positions advance strictly, and a recorded pass that ends has read the whole overlap, across earlier stops |
| Collection.DurableCollection.Promote | src/newsbot/storage.py:1458-1468 | the new cursor is the interval's upper end, and the interval started at the old cursor, so intervals tile |
| Collection.DurableCollection.ReconcileChannel | src/newsbot/storage.py:1471-1504 | with at most max_pages requests the posts of the time span are read again, up to the newest id unless the pages ran out; neither cursor nor interval moves |
| CollectionModel.PageCovers | src/newsbot/storage.py:1548-1586 | one stored page covers the channel up to its last post when more remain, and the whole request otherwise |
| CollectionModel.PageRereads | src/newsbot/storage.py:1548-1586 | up to its last post, or to the end, a page leaves every post stored with the content it had at the request |
| CollectionModel.RereadsLater | src/newsbot/storage.py:1506-1546 | what was read again stays so while posts are edited, deleted and added |
| CollectionModel.CoversLater | src/newsbot/storage.py:1390-1419 | coverage survives deletions, edits and new posts, whose ids are higher |
| CollectionModel.OrderedSorts | src/newsbot/storage.py:1567-1579 | the filtered rows are the matching ones in strictly ascending id order |
| CollectionModel.PersistTwice | src/newsbot/storage.py:1588-1667 | storing a page again after a crash changes nothing |
| CollectionModel.PersistAllAdds | src/newsbot/storage.py:1588-1667 | storing a page adds exactly its posts, versions and observations, and overwrites none |
| CollectionModel.PersistAllAddsOnly | src/newsbot/storage.py:1588-1667 | and nothing else: new rows are of posts on the page, with their time, content and snapshot |
| BodyGrammar.AcceptedExactly | src/newsbot/v2_article.py:1140-1285 | a chunked body is accepted, with this data and this rest, if and only if the bytes are a message: whole lines, true sizes, a line end behind each chunk, trailers within their limits |
| BodyGrammar.TruncatedIsRefused | src/newsbot/v2_article.py:1140-1285 | a message cut short anywhere is refused |
| BodyGrammar.LengthReadsExactly | src/newsbot/v2_article.py:1226-1244 | a declared length within the limit reads exactly that many bytes, and fails if fewer come |
| BodyGrammar.UntilCloseReadsAll | src/newsbot/v2_article.py:1206-1222 | without a length the body is all there is, if it fits |
| BodyGrammar.SizeMeans | src/newsbot/v2_article.py:1158-1167 | a line says a size if and only if it is white space, sign, prefix, grouped hexadecimal digits, white space and what follows a semicolon; the size is the number those digits spell |
| BodyReader.ReadResponseBody | src/newsbot/v2_article.py:1140-1223 | the reader is interrupted if and only if one of its looks at clock and socket came too late; otherwise the answer is that of the framing over all bytes the peer sends, for every fragmentation, and reading stops right behind the body |
| BodyReader.DeadlineReader.ReadLine | src/newsbot/v2_article.py:102-120 | the line returned is the next line of everything still to come, however it arrives |
| BodyReader.ReadTrailers | src/newsbot/v2_article.py:1263-1285 | the loop accepts and consumes exactly the trailer section |
| BodyReader.ReadExactInto | src/newsbot/v2_article.py:1226-1244 | the decoder gains exactly the next bytes, or the error that the total decides, whatever the pieces |
| BodyReader.StreamingDecoder.Feed | src/newsbot/v2_article.py:1052-1083 | without compression only the wire limit can break, and the joined parts are the bytes fed |
| BodyRoundTrip.ChunkedRoundTrip | src/newsbot/v2_article.py:1140-1182 | any well-formed chunked message within the limits, with any spelling of sizes, extensions and trailers, reads as its data, and reading stops after the trailers |
| BodyRoundTrip.AnySplitReads | src/newsbot/v2_article.py:1140-1182 | any body cut into any non-empty pieces and sent plainly is read back whole |
| BodyRoundTrip.AcceptedWithinLimits | src/newsbot/v2_article.py:1140-1182 | whatever the peer sends, an accepted body fits the wire limit and what is left is a suffix of what was sent |
| BodyRoundTrip.SizeReads | src/newsbot/v2_article.py:1158-1167 | a size line reads as the length of its chunk |
| QueryMeaning.OctetsExactly | src/newsbot/v2_article.py:461-485 | a string is accepted if and only if every percent sign begins a triplet; its normal form is the one normal string that says the same data and delimiters |
| QueryMeaning.TrackingExactly | src/newsbot/v2_article.py:512-513 | the tracking keys are those that begin with utm_, and fbclid, gclid, mc_cid and mc_eid, in either case |
| QueryMeaning.ComponentMeans | src/newsbot/v2_article.py:451-458 | a component is dropped if and only if its key tells the origin, whatever its value, and refused if and only if what counts of it is ill escaped |
| QueryMeaning.KeptMeans | src/newsbot/v2_article.py:451-458 | what is kept is the normal forms of key and value, with the equals sign if there was one |
| QueryMeaning.CanonicalExactly | src/newsbot/v2_article.py:436-445 | a query is refused if and only if a component is; its key joins, in code point order, each kept text as often as the query has it |
| Query.NormalizeQueryOctets | src/newsbot/v2_article.py:461-485 | the index loop computes Octets |
| Query.OctetsKeepBytes | src/newsbot/v2_article.py:461-485 | an accepted string and its normal form stand for the same bytes |
| Query.OctetsIdempotent | src/newsbot/v2_article.py:461-485 | the normal form is left alone |
| Query.KeptIsFixed | src/newsbot/v2_article.py:451-458 | a kept component is kept as it is, and brings in no separator |
| Query.QueryIdempotent | src/newsbot/v2_article.py:436-445 | the whole query form is idempotent |
| Query.QueryIgnoresOrder | src/newsbot/v2_article.py:436-445 | reordered components give the same query, and are refused alike |
| Query.QueryIgnoresTracking | src/newsbot/v2_article.py:512-513 | a tracking component, wherever it stands and whatever its value, changes nothing |
| Query.SortedIsUnique | src/newsbot/v2_article.py:437-441 | code point order leaves one sorted arrangement of a bag of components |
| Containment.StartWritesExactly | deploy/newsbot_codex_containment.py:559-583 | an activation writes if and only if its unit is one of the two, all is quiet and the clean state is attested by its receipt; what it writes, field by field |
| Containment.StopEndsExactly | deploy/newsbot_codex_containment.py:586-657 | a stop ends clean if and only if the dirty state is its unit's and release's own, all is quiet and the credential is the state's; receipt and clean state, field by field |
| Containment.ResetEndsExactly | deploy/newsbot_codex_containment.py:615-657 | a reset ends clean, from any state file, unless a credential resists |
| Containment.ExecutionKeepsInv | deploy/newsbot_codex_containment.py:559-657 | at every crash point of every execution, reboots included, a credential exists only beside a dirty state, and a clean state validates |
| Containment.CredentialOnlyWhileNotClean | deploy/newsbot_codex_containment.py:272-378 | from an installation without state or credential, no credential ever exists beside a clean state |
| Containment.StartsOnlyFromValidClean | deploy/newsbot_codex_containment.py:559-583 | activation changes the disk only from a clean state that validates, with all units quiet |
| Containment.StartSucceeds | deploy/newsbot_codex_containment.py:272-330 | such an activation ends with its own credential; no older one can be in its way |
| Containment.CleanOnlyAtTheEnd | deploy/newsbot_codex_containment.py:586-657 | a disk turns clean only in the last step of a stop or reset, without credential, with a receipt of the dirty state it ends |
| Containment.DirtyStaysDirty | deploy/newsbot_codex_containment.py:586-657 | a dirty disk never becomes clean without a stop or reset that completes |
| Containment.LostCredentialNeedsReset | deploy/newsbot_codex_containment.py:333-378 | a dirty state whose credential is gone, as after a reboot, stays until a reset: no stop ends it |
| Containment.ResetRecovers | deploy/newsbot_codex_containment.py:615-657 | a reset reaches a valid clean state from any state file |
| Containment.StopLinksBack | deploy/newsbot_codex_containment.py:532-657 | the clean state after start and stop links, by digest, through the dirty state to the clean one before |
| Containment.Latch.Clean | deploy/newsbot_codex_containment.py:586-657 | dead after any number of durable steps, the command leaves exactly the disk of that step of its trace, and it finishes if and only if it gets to the last one |
| Containment.Latch.StartUnit | deploy/newsbot_codex_containment.py:559-583 | dead after any number of durable steps, the command leaves exactly the disk of that step of its trace, and it finishes if and only if it gets to the last one |
| ExportMeaning.PayloadMeans | src/newsbot/exports.py:231-369 | an approval has a payload if and only if every manifest entry stands, entries, rows and ids are the same versions and every reference is known; the payload says of sources, claims, pages, caption, warnings and identities exactly what the rows say, field by field |
| ExportMeaning.IntentMeans | src/newsbot/exports.py:24-369 | it is exported if and only if it can be shown; id and Markdown are those of the payload, line by line |
| Exports.ExportIgnoresRowIds | src/newsbot/exports.py:231-369 | for either form of content, renaming source version ids injectively, and changing candidate, generation and event ids, gives the same export id, payload and Markdown |
| ExportTies.IssuedExportIgnoresRowOrder | src/newsbot/exports.py:117-369 | with claim ids that the program issued, unique rows and no hash collisions, source rows, manifest entries and warnings in any other order give the same export id, payload and Markdown |
| ExportOrder.ExportIgnoresRowOrder | src/newsbot/exports.py:286-297 | so do any rows and manifest whose sort keys tell provenances and claims apart |
| ExportTies.OrderShowsExactly | src/newsbot/exports.py:286-297 | for accepted exports the order of rows and manifest never shows if and only if the sort keys tell provenances and claims apart |
| ExportTies.DistinctKeysHideOrder | src/newsbot/exports.py:286-297 | pairwise distinct version identities and claim ids are enough for that |
| ExportTies.OrderShowsExists | src/newsbot/exports.py:265-297 | an accepted export whose order shows: two manifest entries with one claim id and different evidence |
| Exports.CanonicalMarkdown | src/newsbot/exports.py:24-38 | the loop that extends the list, then joins it, gives the text of MarkdownLines, or fails where a key is missing |
| Exports.BindClaims | src/newsbot/exports.py:265-280 | the loop accepts the manifest entries that Bind accepts, in order |
| ExportOrder.BindIsWhole | src/newsbot/exports.py:265-281 | a manifest is accepted exactly when its source versions are distinct and every entry states its source's identities |
| Exports.ResolveRenamed | src/newsbot/exports.py:372-385 | a factual reference resolves to the same portable reference under renamed ids |
| ExportOrder.SortPermuted | src/newsbot/exports.py:286-297 | the sorts forget the order of arrival when keys tell elements apart |
| Newsroom.RowsComeFromApprovals | src/newsbot/candidates.py:515-550 | with truthful settlements, every row that a handoff put on the sheet belongs to an approved candidate and carries the generation whose content its spent approval token named |
| Newsroom.ApprovalEnqueues | src/newsbot/candidates.py:515-550 | an approval puts its new handoff in line at the sheet, fresh and bound to the target that the desk is set up for |
| Newsroom.OneRowPerCandidate | src/newsbot/candidates.py:515-550 | and no candidate ever has two rows on the sheet, over all interleavings of desk, workers and sheet drivers |
| Newsroom.ApprovalsReachTheSheet | src/newsbot/handoffs.py:65-128 | every approved candidate has a handoff at the sheet's authority, bound to a target |
| NoonWindow.QueuedInItsHour | src/newsbot/automation.py:232-294 | with any clock, a queued window has an item and exactly one notification, created in its hour, and no other window has one |
| NoonWindow.FirstSealDecides | src/newsbot/automation.py:232-294 | with any clock: the first call that seals a date leaves its window, for good, queued with one notification of that call's clock if and only if the call is inside the noon hour and the window held an item, empty if and only if it is inside without items, and skipped otherwise |
| NoonWindow.SealOutcome | src/newsbot/automation.py:232-294 | a seal's effect on one window, by the clock, the binding and the items |
| NoonWindow.ItemsAreAssigned | src/newsbot/pipeline.py:412-452 | the items of a window are those that calls of the run assigned to it |
| NoonWindow.SealedForGood | src/newsbot/automation.py:232-294 | with any clock, the row of a window that left collecting never changes again, and no notification joins it |
| NoonWindow.LeftIffSealed | src/newsbot/automation.py:232-294 | a window has left collecting if and only if a seal at or after its noon, with its window to close and no binding drift, went before |
| NoonWindow.JoinsSealedExactly | src/newsbot/pipeline.py:412-452 | after any run, a call adds an item to a sealed window if and only if it assigns a new evaluation to a date that an earlier call has sealed |
| NoonWindow.JoinsSealedInThePast | src/newsbot/pipeline.py:412-452 | such a call reads a clock behind the noon that the seal had reached |
| NoonWindow.NoItemJoinsSealed | src/newsbot/pipeline.py:412-452 | with a clock that never goes back no item joins a window that left collecting |
| NoonWindow.AssignedAhead | src/newsbot/pipeline.py:412-452 | an item goes to the window of the next noon, still ahead and less than a day away |
| NoonWindow.BackwardClockBreaksSeal | src/newsbot/pipeline.py:412-430 | with a clock that steps back across noon an item joins a sealed window |
| NoonWindow.NoonAuthority.SealNoonWindow | src/newsbot/automation.py:232-294 | the transaction leaves the database of Seal, a drift error included |
| NoonWindow.NoonAuthority.AssignItem | src/newsbot/pipeline.py:412-452 | the two inserts leave the database of Assign |

## Left out

- SQL migrations and their triggers: only what the Python enforces is proved. One trigger can make a provider resume fail
  as a whole when a blocked job is also held; here that resume succeeds.
- Schema attestation, pragmas and phase guards of the storage layer: a transaction is one atomic step.
- Status views, argument checks and command replays of the operator commands: a replay changes no row.
- Telegram, Sheets, Telethon and Codex adapters: their answers are free choices, restricted only where a theorem says so
  (truthful settlements, and a collector that returns the smallest matching ids up to its limit).
- Hashing, JSON encoding and random tokens: identities are arbitrary functions or injective values, and fresh tokens are
  numbers never issued before.
- HandoffTheorems.AtMostOneCopy: a remote write is a single landing; partial remote effects are not modelled.
- OutboxTheorems.ResendOnlyAfterRejection: ticks of the dispatch stream only; the admission half of the tick appears as a
  choice to end early.
- OutboxAudit.ButtonsFollowMessages: tokens are issued, revoked and pressed by free actions, and a press asks for the
  notification states that the tick admits; a tick may mark a chunk with only some of its tokens linked.
- PipelineService.NewsDesk.ApplyCallback: freshness of sources, warnings, page counts, copy validation and admission are
  circumstances that a call is given, in every combination.
- PipelineService.NewsDesk.CreateCandidateDigest: which candidates are stale, and whether the digest key exists, is given.
- PipelineTheorems.ApprovedForGood: a handoff row here holds generation and approval; Newsroom joins it to its delivery.
- Newsroom.OneRowPerCandidate: an approval that the enqueue refuses, for a missing target or a conflicting export, is a call
  that did not happen.
- Collection.DurableCollection.CollectChannel: one invocation at a time a channel, as its lock provides; the overlap
  arguments, which every driver leaves at their defaults, are fixed for the object.
- BodyReader.ReadResponseBody: identity content encoding only; the parsed content length is an argument, and response
  headers are read elsewhere with the same line reader.
- URL scheme, host and path of the canonical URL: the path keeps malformed escapes and is not idempotent, so nothing is
  claimed for whole URLs. Lone surrogates in a query are not modelled.
- Containment.Latch.StartUnit: file ownership, modes, cgroups and unit states appear as refusals; temporary files are not
  part of the disk.
- Exports.CanonicalMarkdown: text before its encoding to UTF-8; a warning is one text for its kind and detail.
- Ranking, news policy, deduplication, copywriting, configuration, the manual workflow and the V2 commands.
