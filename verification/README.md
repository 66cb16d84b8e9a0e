# arcmux handoff, mesh paging and hook registration: a Dafny model

This project models the parts of arcmux in which correctness is hard to see from one function,
and proves what they promise over every run and every input.

- **Handoff protocol.** `Records`, `RecordStore` and `StoreHistory` are the durable records, the
  store with its revision-checked writes, and what any sequence of writes keeps. `Outbox` is the
  source side, `Sessions` and `Application` the target side; their classes perform the operations
  and are proved to leave exactly the record that a plan and a verdict describe. `StoreLaws`,
  `SourceOutcomes` and `TargetOutcomes` say what that is in terms of the inputs alone: for every
  outcome of an operation, the exact condition under which it comes about.
  `HandoffWorld` puts two devices together as a state machine: any number of handoffs, calls that
  are delivered late, twice or never, answers that are lost, crashes between any two steps,
  recovery passes that work from stale scans, and one session table that every handoff shares.
  `WorldInvariant`, `TargetInvariant`, `SessionInvariant` and `StepFacts` carry the invariant and
  the causes through every step; `WorldTheorems` and `HandoffTheorems` state the results over
  runs, `OutcomeRuns` how single operations end in them, `RecoveryRuns` that a crash at any step is
  resumed, and `Parting` how a source fails and when the two devices part. `MachineMatchesCode` shows
  that the machine's steps are the code's operations cut at their remote calls, `NoRefusal` that no
  write they ask for is refused, `WitnessRuns` and `WitnessRetirement` that the runs exist, from the
  queued handoff to the retired source, `DeferredRetirement` and `RetirementRuns` when a pending
  retirement closes a source, `LockTables` that the per-id locks under all of it work, and `Evidence`
  that a recorded prompt preview identifies its handoff unless the hash has a collision.
- **Mesh.** `MeshCursor` and `MeshPages` page an inventory and put it together again; `MeshSync`
  is the per-peer worker that coalesces events.
- **Hook registration.** `Json` is the JSON grammar as a tree with its text; `JsonScan` the span
  parser; `JsonExtents` and `JsonUnique` show that its extents are exact and the grammar
  unambiguous; `JsonEdit` and `HookConfig` splice an entry in; `HookMeaning` and
  `HookRegistration` say what the edited document means and when a second run finds nothing to do,
  `FreshHookConfig` what is written where there was no file, `HookPathNames` which script paths a
  command names.
- **Environment file.** `EnvFile` is the rendezvous file's name, writer, reader and quoting;
  `EnvFileLaws` says which names, keys and lines are taken, and that whatever a file contains only
  literal assignments come out.

## What is assumed

- In the machine a digest is the term `Digest(m)`, a launch marker the term `LaunchMarker(id, digest)`
  and a continuation's session name the term `HandoffName(id, digest)`: hashes do not collide.
  `Evidence` asks only the form of SHA-256 and shows what is left of this for the marker: two
  handoffs share their evidence exactly when they are the same or their two hashed texts are a
  collision.
- Time is a natural number, 0 the zero time; clocks may run backwards unless a lemma says otherwise.
- Every store call is one atomic durable step. This includes the `acknowledge` command, which runs
  in another process without the daemon's mutex. In the machine an acknowledgement names the record
  it found; that the marker finds that record is proved of the store's own scan.
- Peers are honest: answers come from the modelled target, and reach the call they belong to.
  A call may fail at any time with any error, whether or not it was served.
- Only the launch prompt carries a launch marker, and only the handoff launcher creates private
  sessions. New session ids are unique; a target restart finds any part of its durable inventory,
  with identity and last command unchanged.
- Git, history and profile checks are inputs with the outcomes the code tells apart. Failure
  texts are named, not spelled. Deadlines do not restrict the machine, and its source takes recovery
  steps from any earlier scan, so it has more runs than the code.
- `encoding/json` returns the tree of every JSON text and nothing for other texts (`DecoderExists`),
  and keeps the last of several equal keys. Text is a sequence of characters rather than bytes.
- Mesh boot ids are never reused, and the revision counter does not pass 2^64 within one boot.

## Where the code does not do what one might expect

- The source may give up a handoff that the target has accepted or accepts later: exactly when its
  launch call ends in one of four fatal call errors (`PartedExactlyWhen`). Both orders have runs
  for every valid handoff without artifacts (`CanPart`, `CanPartEarly`), and there are such handoffs
  (`SomethingIsDeliverable`).
- When the target cannot store the continuation's locator, its record stays in `launching` with no
  failure, because the helper returns an empty record; with a working disk this happens exactly for
  session ids that the session view admits and the store does not (`BindAccepted`).
- A deferred retirement stores the baseline's last turn end and never reads it: a turn end stamped
  after the request but shown before it closes the source at once (`ReadyAtOnce`, `StaleEndCloses`).
- An acknowledgement is refused when its clock reads before the record's last write, unlike the
  daemons' own writes (`AckAccepted`).
- A hook registration never settles when `hooks` or an event key is duplicated, or when the path
  has shell-escaped characters (`IdempotentExactlyWhen`, `DuplicateHooksNeverSettle`,
  `PathSettlesExactlyWhen`, `SomePathsAreMissed`), unless it spells the command's own middle
  (`SpelledPathIsNamed`).
- A mesh worker that found no topics gives up its slot in a later step and takes an event accepted
  in between with it (`LateTopicsLoseAWakeup`); this and a stopped runtime are the only ways to lose
  one (`LostExactlyWhen`).
- A value that ends in a carriage return loses it on the way through the environment file
  (`EnvironmentRoundTrip`).

## Model

| member | source | states |
|---|---|---|
| RecordStore.Store.QueueSource | internal/handoff/store.go:62-99 | a valid manifest is stored once as a fresh queued record; the same digest again is a replay that changes nothing, another digest a conflict |
| RecordStore.Store.ReceiveTarget | internal/handoff/store.go:101-136 | the same for the target's received record |
| RecordStore.Store.GetSource | internal/handoff/store.go:138-145 | the stored record, or which of invalid id and not found |
| RecordStore.Store.TransitionSource | internal/handoff/store.go:288-330 | a transition takes effect exactly with the expected revision, a legal edge, a time that does not run back and a valid result, on exactly one record; otherwise nothing changes |
| RecordStore.Store.TransitionTarget | internal/handoff/store.go:332-374 | the same for target records |
| RecordStore.Store.RecordTargetLaunchLocator | internal/handoff/store.go:380-422 | binds a launching record to one locator; the same locator again changes nothing, another is a conflict |
| RecordStore.Store.AcknowledgeTarget | internal/handoff/store.go:428-474 | the scan finds exactly the record of the marker's id and digest; the bound session's first acknowledgement is stored, a repeated one is a replay |
| RecordStore.Store.RecordSourceContextLoaded | internal/handoff/store.go:480-515 | an accepted source stores a proof for its own digest and locator once; a different proof is a conflict |
| RecordStore.Store.RequestSourceRetirement | internal/handoff/store.go:521-565 | a retirement request is stored once, only after the proof, and only with valid options |
| RecordStore.Store.CompleteSourceRetirement | internal/handoff/store.go:571-606 | completing a pending retirement never precedes its request and happens once |
| RecordStore.Store.RunnableSource | internal/handoff/store.go:234-264 | the recovery scan returns, once, exactly the records that have not failed, do not wait for the operator's launch, are not accepted with nothing left to retire, and have no due time after the scan; only a scan without a time is an error |
| RecordStore.Store.RecoverableTarget | internal/handoff/store.go:266-286 | the same for the target: exactly the records that are neither prepared nor settled and have no due time after the scan |
| StoreLaws.SourceEntries | internal/handoff/record.go:356-373 | from exactly which states each source state may be entered |
| StoreLaws.TargetEntries | internal/handoff/record.go:375-392 | the same for target states |
| StoreLaws.IdsAreFileNames | internal/handoff/manifest.go:31 | which texts are ids: at most 128 plain characters without a separator and without a leading dot or dash, so each is a file name that stays in its directory |
| StoreLaws.ScopesAre | internal/handoff/manifest.go:32 | a scope is the root or a profile of at most 63 lower-case characters between two letters or digits |
| StoreLaws.DetailsAreShortLines | internal/handoff/record.go:313-326 | a failure's detail is one line of at most 256 characters |
| StoreLaws.ManifestsJoinTwoDevices | internal/handoff/manifest.go:168-260 | a manifest is valid exactly when its ids and scope are, its two devices differ and its content is |
| StoreLaws.SourceShape | internal/handoff/record.go:151-183 | in which states exactly a stored source record has a due time, a failure, a locator, a proof and a retirement, and of what kind |
| StoreLaws.TargetShape | internal/handoff/record.go:185-209 | the same for target records |
| StoreLaws.RetirementShape | internal/handoff/record.go:224-252 | a stored retirement has known options, and an end not before its request exactly when it is over |
| StoreLaws.SourceMoves | internal/handoff/store.go:288-330 | a source transition is accepted exactly at the expected, not last, revision, along a legal edge, at a time that does not run back, with the due time, failure and locator the next state needs; the record it leaves is given field by field, and each refusal has its one cause |
| StoreLaws.TargetMoves | internal/handoff/store.go:332-374 | the same for target transitions, whose launch states keep a bound locator |
| StoreLaws.Binds | internal/handoff/store.go:380-422 | a binding is accepted exactly for a launching record without another locator, at the expected revision, to an admissible locator on its device; only the first writes |
| StoreLaws.Acknowledges | internal/handoff/store.go:449-473 | an acknowledgement is accepted exactly from the bound session of an accepted record, and only the first is written |
| StoreLaws.AcknowledgementReaches | internal/handoff/store.go:428-448 | it reaches exactly the stored record whose id and digest its marker hashes |
| StoreLaws.Proves | internal/handoff/store.go:480-515 | a proof is accepted exactly for the record's own digest and locator, is written once, and another one is refused |
| StoreLaws.Requests | internal/handoff/store.go:521-565 | a retirement request is accepted exactly on a proved record with admissible options, the same ones if it was asked before |
| StoreLaws.Completes | internal/handoff/store.go:571-606 | a retirement is completed once, neither before its request nor before the last write |
| StoreLaws.Stores | internal/handoff/store.go:62-136 | a manifest is stored once, fresh; again it is answered with its record as it is now, and another one under its id is a conflict |
| StoreLaws.CallsReachTheirRecord | internal/handoff/store.go:288-606 | no call touches another record or the other device's records, and one for an unknown or invalid id changes nothing |
| StoreLaws.CallsWriteTheirRecord | internal/handoff/store.go:288-606 | and a call for a stored record is that record's own write |
| StoreHistory.SourceStep | internal/handoff/store.go:288-606 | one store call leaves a source record alone, makes one legal write or creates a fresh one |
| StoreHistory.TargetStep | internal/handoff/store.go:332-474 | the same for target records |
| StoreHistory.SourceHistoryIsWalk | internal/handoff/record.go:356-373 | after any calls a source record's versions are a walk of the legal graph from queued to the stored version |
| StoreHistory.TargetHistoryIsWalk | internal/handoff/record.go:375-392 | after any calls a target record's versions are a walk of the legal graph from received |
| StoreHistory.SourceWalkMonotone | internal/handoff/store.go:288-330 | along a history manifest and digest never change, time never runs back, and accepted and failed are final |
| StoreHistory.TargetWalkMonotone | internal/handoff/store.go:332-374 | the same for the target, with locator and acknowledgement fixed once accepted |
| StoreHistory.SourceRecordCounts | internal/handoff/store.go:288-330 | the stored revision is the number of versions and attempts the number of entries into preparing_remote modulo 2^32 |
| StoreHistory.TargetRecordCounts | internal/handoff/store.go:332-374 | the same with entries into validating |
| StoreHistory.StepValid | internal/handoff/record.go:151-209 | every store call keeps every stored record valid |
| Outbox.Outbox.Attempt | internal/daemon/handoff_outbox.go:668-748 | a preparation attempt leaves the record and the answer of AfterPrepare, whose outcomes `SourceOutcomes.PreparationLeaves` gives on the inputs, and touches no other record |
| Outbox.Outbox.AttemptLaunch | internal/daemon/handoff_outbox.go:750-844 | the same for a launch attempt and `SourceOutcomes.LaunchLeaves` |
| Outbox.Outbox.Verify | internal/daemon/handoff_outbox.go:368-427 | a verification stores the proof only for a matching identity, digest and locator; otherwise it reports why and writes nothing |
| Outbox.Outbox.RetirePending | internal/daemon/handoff_outbox.go:501-537 | the close call is made exactly when the pending retirement may close, on the manifest's own source session, and the retirement completes only on a seen exit |
| Outbox.Outbox.Retire | internal/daemon/handoff_outbox.go:429-465 | a retirement leaves its durable request before anything is closed, and closes at once only in immediate mode |
| Outbox.Outbox.Reconcile | internal/daemon/handoff_outbox.go:551-615 | one recovery pass changes every record the scan returns as its own operation would and no other record; `SourceOutcomes.PassLeaves` gives what that is |
| Outbox.Outbox.TransitionRetry | internal/daemon/handoff_outbox.go:846-871 | a retry is stored with its failure and a due time 15 seconds on |
| Outbox.Outbox.TransitionFailed | internal/daemon/handoff_outbox.go:873-884 | a failure is stored as final |
| SourceOutcomes.PrepareCalls | internal/daemon/handoff_outbox.go:668-701 | when a preparation attempt calls the target, with exactly which record, and what it answers at once otherwise |
| SourceOutcomes.PreparingCallEnds | internal/daemon/handoff_outbox.go:702-748 | for every reply: the record is prepared exactly on the own answer `prepared`, failed exactly on five named call errors, a foreign answer, one from the launch phase or the target's rejection, and otherwise waits 15 seconds after the write with a retryable failure; each with its code and detail |
| SourceOutcomes.PreparationLeaves | internal/daemon/handoff_outbox.go:668-748 | the same from any stored record: a record that is not due stays as it is, and only the end of the revision counter cuts an attempt short |
| SourceOutcomes.LaunchCalls | internal/daemon/handoff_outbox.go:750-785 | when a launch attempt calls the target, with exactly which record, and what it answers at once otherwise |
| SourceOutcomes.LaunchingCallEnds | internal/daemon/handoff_outbox.go:786-844 | for every reply: accepted exactly on the own acceptance with a storable continuation on the target's device and root scope, failed exactly on four named call errors, a foreign answer, one from the preparation, an acceptance without a continuation or the target's rejection, and otherwise waiting for 15 seconds; a missing grant is waited for |
| SourceOutcomes.LaunchLeaves | internal/daemon/handoff_outbox.go:750-844 | the same from any stored record |
| SourceOutcomes.OperatorSees | internal/daemon/handoff_outbox.go:946-973 | the operator is shown every field of a record but its times; a locator exactly when accepted, a failure exactly when waiting or failed, loaded exactly when proved |
| SourceOutcomes.VerificationLeaves | internal/daemon/handoff_outbox.go:368-427 | a proof is stored exactly when the answer carries one for this very continuation and none is stored; the operator is told loaded, pending, mismatch or unavailable for exactly these reasons |
| SourceOutcomes.AskedExactlyWhen | internal/daemon/handoff_outbox.go:429-465 | a retirement request is left exactly on a proved record, on its own device, while the catalog shows the session, with admissible options and the shown turn; a repeated one must ask for the same |
| SourceOutcomes.MayCloseExactlyWhen | internal/daemon/handoff_outbox.go:467-499 | a pending retirement may close exactly the handed-off session shown running, at once in immediate mode and on the awaited turn's end in deferred mode |
| SourceOutcomes.RetirementLeaves | internal/daemon/handoff_outbox.go:501-537 | a retirement is over exactly when the session is shown exited, at once or after a permitted and successful close |
| SourceOutcomes.PassLeaves | internal/daemon/handoff_outbox.go:551-615 | a recovery pass leaves a record that is not due as it is and settles or reschedules every other one, so the same scan finds nothing again but a retirement still to be seen and a continuation the store does not admit |
| Application.HandoffApplication.Prepare | internal/daemon/handoff_application.go:315-348 | a prepare request is refused before any record is touched, or received and carried on exactly as its checks say |
| Application.HandoffApplication.ResumeTarget | internal/daemon/handoff_application.go:350-430 | resumption leaves the record and the answer of AfterResumeTarget, whose outcomes `TargetOutcomes.ResumptionLeaves` gives on the inputs |
| Application.HandoffApplication.Launch | internal/daemon/handoff_application.go:432-477 | a changed record, a changed session table, a prompt or a status in return means that the request came from the manifest's source device, to its target device, for the stored digest; a request from any other device is denied and nothing else is |
| Application.HandoffApplication.LaunchWork | internal/daemon/handoff_application.go:479-589 | the whole attempt: the record, the answer and the one session prompted follow from the checks, the chosen session and its snapshots |
| Application.HandoffApplication.TargetLaunchSession | internal/daemon/handoff_application.go:591-635 | a bound launch goes on only with its session; an unbound one durably binds the created session before it is used |
| Application.HandoffApplication.PollSession | internal/daemon/handoff_application.go:637-667 | the first decisive snapshot decides, and identity, locator and last command are checked in each |
| Application.HandoffApplication.Deliver | internal/daemon/handoff_application.go:560-587 | only the bound session is prompted, and acceptance needs its recorded evidence and a persisted inventory |
| Application.HandoffApplication.Verify | internal/daemon/handoff_application.go:888-916 | the proof is given exactly to the source's device for the exact accepted identity, and is what the record holds |
| TargetOutcomes.PrepareGuards | internal/daemon/handoff_application.go:315-338 | a prepare request is taken up exactly from the manifest's source device, on its target device, without artifacts and in a live context; one from another device is denied |
| TargetOutcomes.ChecksEnd | internal/daemon/handoff_application.go:375-430 | the checks end prepared exactly when every one was made and passed, waiting exactly for history or repository that may still arrive, rejected exactly for what will not change, and otherwise, in a dead context, leave the record as it is; each with its code, detail and due time |
| TargetOutcomes.ResumptionLeaves | internal/daemon/handoff_application.go:350-430 | the same from any stored record: only records of the preparation are worked on, those with artifacts are rejected, and only the end of the revision counter cuts it short |
| TargetOutcomes.StatusTells | internal/daemon/handoff_application.go:948-963 | a status shows the continuation exactly once it is accepted and a failure exactly when waiting or rejected |
| TargetOutcomes.LaunchRequests | internal/daemon/handoff_application.go:448-476 | a launch is worked on exactly for a request from home on a prepared or already authorized record; from any other device it is denied, whatever the record, and a settled record is only shown |
| TargetOutcomes.LaunchResumes | internal/daemon/handoff_application.go:483-496 | recovery goes on only with a launch that was authorized before |
| TargetOutcomes.LaunchIsChecked | internal/daemon/handoff_application.go:494-551 | the revalidation lets the launch go on exactly when every check passed, and waits, rejects or stops for exactly the named causes otherwise |
| TargetOutcomes.ContinuationIs | internal/daemon/handoff_application.go:669-673 | which session is the handoff's continuation, and which live session creation returns instead of a second one |
| TargetOutcomes.DurableIs | internal/daemon/daemon.go:906-925 | the saved inventory holds exactly the sessions that have not ended |
| TargetOutcomes.BoundGoesOn | internal/daemon/handoff_application.go:594-606 | a bound launch goes on exactly with its own live session |
| TargetOutcomes.CreatedGoesOn | internal/daemon/handoff_application.go:607-635 | a created session is used exactly when it is the handoff's own, saved and bound; another caller's is a conflict |
| TargetOutcomes.SnapshotSays | internal/daemon/handoff_application.go:637-667 | one snapshot of the session is delivered, ready, undecided or a conflict exactly by identity, id, last command and phase |
| TargetOutcomes.FirstDecides | internal/daemon/handoff_application.go:637-667 | the first decisive snapshot decides the attempt, and without one it runs out of time |
| TargetOutcomes.DeliveryEnds | internal/daemon/handoff_application.go:556-589 | an attempt is accepted exactly when the prompt was sent or on record already, its evidence is the last command and the inventory is saved, and rejected exactly on a conflict or missing evidence |
| TargetOutcomes.PromptGoesTo | internal/daemon/handoff_application.go:560-567 | the prompt goes exactly to the bound session whose first decisive snapshot is idle without any command |
| TargetOutcomes.LaunchWorkEnds | internal/daemon/handoff_application.go:479-589 | the whole attempt ends by its first failing stage, prompts nobody before the delivery, and answers with the record it leaves |
| TargetOutcomes.ProofReaches | internal/daemon/handoff_application.go:888-916 | between devices that agree the target's answer carries the proof to the source exactly once its session acknowledged |
| Sessions.SessionTable.FindNonTerminal | internal/daemon/daemon.go:906-925 | finds a live session of the same name, owner and privacy if there is one, and none only if there is none |
| Sessions.SessionTable.Create | internal/daemon/daemon.go:703-725 | creation is idempotent: a live session of the same caller is returned unchanged, otherwise a fresh one is added |
| WorldInvariant.SourceKeeps | internal/daemon/handoff_outbox.go:349-844 | every source step, with any answer or error, keeps the two-device invariant |
| TargetInvariant.TargetKeeps | internal/daemon/handoff_application.go:226-667 | every target step keeps it |
| SessionInvariant.TargetSessions | internal/daemon/handoff_application.go:591-695 | every target step keeps what the session table knows: bound sessions are this handoff's own, and accepted ones were delivered to |
| WorldTheorems.StepKeeps | internal/daemon/handoff_application.go:226-305 | every step of the world keeps it for every handoff at once, restarts and other callers included |
| StepFacts.SourceStepFacts | internal/daemon/handoff_outbox.go:349-844 | no source step undoes a settled outcome, and launches, closes and retirements each have one kind of cause |
| StepFacts.TargetStepFacts | internal/daemon/handoff_application.go:226-667 | no target step undoes a settled outcome, and launching, binding, prompting, accepting and acknowledging each have one kind of cause |
| HandoffTheorems.Agreement | internal/daemon/handoff_outbox.go:750-844 | in every run an accepted source has an accepted target with the same digest and exactly its locator |
| HandoffTheorems.AgreementStays | internal/handoff/store.go:332-422 | once reached, that agreement holds at every later moment |
| HandoffTheorems.AcknowledgeBeforeRetire | internal/daemon/handoff_outbox.go:501-537 | every call that closes a source, each repetition included, is for the manifest's own session, both devices hold equal valid proofs at that moment, and the bound session gave it earlier |
| HandoffTheorems.ClosesHappened | internal/daemon/handoff_outbox.go:501-537 | and every close in the log is one earlier such call |
| HandoffTheorems.ProofOnBoth | internal/handoff/store.go:428-515 | a proof at the source is a proof on both devices, acknowledged by the bound session |
| HandoffTheorems.RetiredAfterExit | internal/daemon/handoff_outbox.go:501-537 | a source becomes retired only in a step that saw the exact catalog entry exited |
| HandoffTheorems.OneContinuation | internal/daemon/handoff_application.go:591-667 | over a whole run at most one locator is bound, and every prompt and acknowledgement is its session's |
| HandoffTheorems.NeverRebound | internal/handoff/store.go:380-422 | a bound locator is never replaced; only a terminal rejection takes it off |
| HandoffTheorems.PromptsOnlyTheBound | internal/daemon/handoff_application.go:556-567 | every launch prompt, each repetition included, goes only to a live session that the stored launching record already names, and a confirmed one leaves the evidence there |
| HandoffTheorems.PromptsHappened | internal/daemon/handoff_application.go:560-567 | and every session in the log was prompted so in one earlier step |
| HandoffTheorems.BindingsHappened | internal/daemon/handoff_application.go:613-635 | every locator in the log was bound in one earlier step, to an unbound launching record |
| HandoffTheorems.DeliveriesHappened | internal/daemon/handoff_application.go:560-587 | every delivery on record was confirmed in one earlier step, for the handoff whose marker it is, when its stored record named the session |
| HandoffTheorems.AcceptedOnEvidence | internal/daemon/handoff_application.go:569-587 | accepted is entered only with the bound session's recorded evidence, put there by an earlier confirmed delivery of this handoff to exactly that session, and kept by the inventory |
| HandoffTheorems.ContinuationsAreDistinct | internal/daemon/handoff_application.go:669-673 | two handoffs never share a continuation |
| HandoffTheorems.NoInferredLaunch | internal/daemon/handoff_outbox.go:349-366 | a target is in a launch only if an earlier launch request of the operator itself took that handoff's source from prepared into the launch |
| HandoffTheorems.CallsAreOperators | internal/daemon/handoff_outbox.go:750-779 | and so is any launch call on the way |
| HandoffTheorems.OnlyTheOperatorLaunches | internal/daemon/handoff_application.go:226-305 | recovery and restarts, from however stale a scan, never take a prepared record into a launch on either side |
| HandoffTheorems.LogHistory | internal/daemon/handoff_outbox.go:349-366 | the machine's log of launch requests and acknowledgements is true to the events |
| HandoffTheorems.PhasesCohere | internal/daemon/handoff_outbox.go:715-747 | a source past preparation has a target that reached prepared, and a launched target a source past preparation |
| HandoffTheorems.NoWayBack | internal/daemon/handoff_application.go:432-477 | once the target is in a launch the source never returns to preparing |
| HandoffTheorems.NoForeignAnswer | internal/daemon/handoff_outbox.go:796-843 | between honest peers the branches for a foreign phase, identity or locator are never taken |
| HandoffTheorems.LaunchFindsPrepared | internal/daemon/handoff_application.go:458-471 | a launch call, however late, finds a record of its digest that has been prepared |
| Parting.LaunchGivesUpExactlyWhen | internal/daemon/handoff_outbox.go:796-843 | a launch call in any state of the handoff ends it for good exactly on one of the four fatal errors or on the target's own rejection |
| Parting.PartedExactlyWhen | internal/daemon/handoff_outbox.go:915-934 | in every run a source whose target has accepted is failed exactly when its launch call ended in a fatal error at some earlier step, before or after the acceptance |
| Parting.PrepareGivesUpExactlyWhen | internal/daemon/handoff_outbox.go:702-748 | a preparing call in any state of the handoff ends it for good exactly on one of the five fatal errors or on the target's own rejection |
| Parting.FailedBecause | internal/daemon/handoff_outbox.go:668-844 | in every run a source is failed exactly when, in one earlier step, its preparing or launching call ended in a fatal error of its kind or in the target's own rejection; after it no launch call is sent, and before any launch call none ever was |
| OutcomeRuns.PreparingEndsInRun | internal/daemon/handoff_outbox.go:702-748 | in every run a preparing call goes on exactly on `prepared`, ends for good exactly on a fatal error or the target's rejection, and otherwise waits 15 seconds |
| OutcomeRuns.LaunchingEndsInRun | internal/daemon/handoff_outbox.go:786-844 | in every run a launching call is accepted exactly when the target says so, with its locator, and ends or waits likewise |
| OutcomeRuns.ForeignLaunchChangesNothing | internal/daemon/handoff_application.go:448-457 | in any state a launch request from another device, for another record or on another device changes no record, session, operation or answer |
| OutcomeRuns.RequestLaunches | internal/daemon/handoff_application.go:448-470 | a request takes a record into launching exactly from home and on a prepared or authorized record |
| OutcomeRuns.LaunchedFromHome | internal/daemon/handoff_application.go:432-477 | in every run a target enters a launch only by a request from the manifest's source device for exactly the prepared record, after the operator asked for it there |
| OutcomeRuns.PreparedOnChecks | internal/daemon/handoff_application.go:350-430 | in every run a target becomes prepared only in the step that ends its checks, all of which passed |
| OutcomeRuns.ChecksEndInRun | internal/daemon/handoff_application.go:350-430 | and every end of the checks leaves the record by exactly what they found |
| RecoveryRuns.EveryScanFinds | internal/handoff/store.go:234-264 | in every reachable world a source record that neither rests nor waits is in every scan, and a waiting one from 15 seconds after its last write on |
| RecoveryRuns.CrashIsResumed | internal/daemon/handoff_outbox.go:551-615 | in every reachable world a crash of the source at any step is resumed: from its due time on the pass takes the record up again in its own phase |
| RecoveryRuns.TargetRestartIsResumed | internal/daemon/handoff_application.go:226-305 | the same for the target, for exactly the records that are neither settled nor waiting for a launch request |
| WitnessRuns.CanAgree | internal/daemon/handoff_application.go:479-589 | every valid handoff without artifacts has a run to agreement on any fresh session |
| WitnessRuns.CanPart | internal/daemon/handoff_outbox.go:796-843 | and a run in which the source gives up after the target has accepted |
| WitnessRuns.CanPartEarly | internal/daemon/handoff_application.go:560-587 | and one in which the target accepts after the source has given up |
| WitnessRetirement.CanRetire | internal/daemon/handoff_outbox.go:368-537 | and one through proof, deferred request and close call to the retired source, beside an honest catalog |
| WitnessRetirement.CanCloseAgain | internal/daemon/handoff_outbox.go:501-537 | and one in which a failed close call is made again by a later pass |
| NoRefusal.SourceNeverRefused | internal/daemon/handoff_outbox.go:429-892 | in every run, at any clock reading, no write the source asks for, retirement requests with valid options included, is refused before the revision counter ends |
| NoRefusal.TargetNeverRefused | internal/daemon/handoff_application.go:818-939 | in every run no entry, verdict or binding of a valid session id the target asks for is refused either |
| NoRefusal.SettleAccepted | internal/daemon/handoff_outbox.go:846-892 | a source verdict is refused exactly at the last revision, or for a session id the store does not admit |
| NoRefusal.TargetSettleAccepted | internal/daemon/handoff_application.go:918-976 | a target verdict is refused exactly at the last revision |
| NoRefusal.BindAccepted | internal/daemon/handoff_application.go:624-634 | binding is refused exactly at the last revision or for a session id the store does not admit |
| NoRefusal.RequestAccepted | internal/handoff/store.go:521-565 | a first retirement request is refused exactly at the last revision, or for options or a turn observation the store does not admit |
| NoRefusal.CompletionAccepted | internal/handoff/store.go:571-606 | completing a retirement is refused exactly at the last revision |
| NoRefusal.AckAccepted | internal/handoff/store.go:428-474 | a first acknowledgement is refused exactly at the last revision or by a clock behind the record |
| NoRefusal.PlansAccepted | internal/daemon/handoff_outbox.go:668-779 | an attempt stops with a conflict exactly when it is for the other phase |
| NoRefusal.TargetVerdictsAreKnown | internal/daemon/handoff_application.go:479-589 | every verdict the target reaches fits its phase and carries a known failure |
| MachineMatchesCode.AttemptIsTwoSteps | internal/daemon/handoff_outbox.go:668-748 | the machine's two preparation steps leave what an uninterrupted attempt leaves |
| MachineMatchesCode.LaunchIsTwoSteps | internal/daemon/handoff_outbox.go:750-844 | likewise for the launch |
| MachineMatchesCode.VerifyIsTwoSteps | internal/daemon/handoff_outbox.go:368-427 | likewise for the verification |
| MachineMatchesCode.RetireIsTwoLooks | internal/daemon/handoff_outbox.go:501-537 | likewise for a pending retirement |
| MachineMatchesCode.ResumeIsTwoSteps | internal/daemon/handoff_application.go:350-430 | likewise for the target's preparation |
| MachineMatchesCode.ChoiceIsSteps | internal/daemon/handoff_application.go:479-612 | likewise for the launch checks and the choice of a session |
| MachineMatchesCode.BindIsStep | internal/daemon/handoff_application.go:613-635 | likewise for binding it |
| MachineMatchesCode.PollIsStep | internal/daemon/handoff_application.go:637-667 | likewise for one poll |
| MachineMatchesCode.DeliveryIsSteps | internal/daemon/handoff_application.go:560-587 | likewise for the end of a delivery |
| MachineMatchesCode.QueueIsStoreCall | internal/handoff/store.go:62-99 | queueing in the machine is the store's call for a new id |
| MachineMatchesCode.PrepareIsStoreCall | internal/daemon/handoff_application.go:315-348 | a prepare call is served exactly when the request passes its guard and the store receives the manifest, and goes on with the record the store answers |
| MachineMatchesCode.AcknowledgeIsStoreCall | internal/handoff/store.go:428-474 | an acknowledgement in the machine is the store's call with the handoff's own marker |
| MachineMatchesCode.VerifyIsServed | internal/daemon/handoff_application.go:888-916 | a verification is answered exactly to the source's device for the exact accepted identity, with what the record holds |
| DeferredRetirement.CountIsPrompts | internal/hooks/sessionstate.go:318-335 | the turn counter is the number of prompts submitted |
| DeferredRetirement.RequestTakesBaseline | internal/daemon/handoff_outbox.go:429-486 | a deferred request stores the turn it was made in |
| DeferredRetirement.ClosesExactlyWhen | internal/daemon/handoff_outbox.go:488-499 | a deferred request may close exactly when no prompt followed the request and the last turn end lies after it |
| DeferredRetirement.NeverAfterANewTurn | internal/daemon/handoff_outbox.go:488-499 | once a later turn has begun it never closes again |
| DeferredRetirement.ClosesOnTheTurnsOwnEnd | internal/daemon/handoff_outbox.go:488-499 | without backward stamps only the baseline turn's own later end closes the source |
| DeferredRetirement.ReadyAtOnce | internal/handoff/store.go:521-565 | before any further event it may close exactly when the shown baseline end is stamped after the request |
| RetirementRuns.RequestStays | internal/handoff/store.go:521-606 | in every run a stored retirement request keeps its mode, time, timeout and baseline, and once retired it stays so |
| RetirementRuns.RequestWasAsked | internal/daemon/handoff_outbox.go:429-486 | a retirement on record was asked for by exactly one kind of step, the operator's `retire`, earlier in the run |
| RetirementRuns.ClosesOnlyOnItsOwnTurnsEnd | internal/daemon/handoff_outbox.go:488-537 | in every run, beside any hook history, a deferred request closes the source only while the turn it was asked in is still the last one and after that turn's end was stamped later than the request |
| WitnessRetirement.StaleEndCloses | internal/daemon/handoff_outbox.go:488-499 | every valid handoff without artifacts has a run, beside an honest catalog, in which a turn end shown before the request closes the source though the session has done nothing since |
| LockTables.MutualExclusion | internal/daemon/handoff_application.go:836-866 | under every interleaving at most one goroutine holds an id |
| LockTables.RefsCount | internal/daemon/handoff_application.go:836-866 | an entry's references are exactly the goroutines waiting for, holding or leaving its id, and an id nobody refers to has no entry |
| LockTables.ReleaseNeverBlocks | internal/daemon/handoff_application.go:847-853 | the send on release never finds the channel full and the count never passes zero |
| LockTables.NoLostToken | internal/daemon/handoff_outbox.go:647-666 | a waiter can enter unless somebody holds its id |
| LockTables.RemovedByTheLast | internal/daemon/handoff_application.go:859-866 | an entry is removed only by its last user |
| LockTables.PrepareLocks.Arrive | internal/daemon/handoff_application.go:836-845 | the first critical section takes exactly the machine's step |
| LockTables.PrepareLocks.Wait | internal/daemon/handoff_application.go:847-857 | the select takes the token or the cancellation |
| LockTables.PrepareLocks.Release | internal/daemon/handoff_application.go:859-866 | the last critical section drops the reference and perhaps the entry |
| MeshCursor.CursorRoundTrip | internal/daemon/mesh_application.go:601-621 | parsing inverts printing exactly for revisions 1 to 2^64-1 and offsets 1 to 2^31-1 and refuses all others |
| MeshCursor.CursorKindsDiffer | internal/daemon/mesh_application.go:605-609 | a session cursor is never an artifact cursor |
| MeshCursor.PageKeyInjective | internal/daemon/mesh_application.go:623-625 | cache keys are injective in peer and revision |
| MeshPages.BuildPage | internal/daemon/mesh_application.go:699-727 | a page is the longest fitting run within the limit from its offset, with a cursor exactly when more follows |
| MeshPages.LimitIs | internal/daemon/mesh_application.go:591-599 | a request may ask for any number of items up to the most, and none at all asks for the most |
| MeshPages.PageServer.Prune | internal/daemon/mesh_application.go:627-636 | exactly the entries past 30 seconds are dropped |
| MeshPages.PageServer.Bound | internal/daemon/mesh_application.go:638-649 | oldest entries are evicted until there is room, and only then |
| MeshPages.PageServer.FirstPage | internal/daemon/mesh_application.go:664-677 | the first page is the longest fitting run, and the whole snapshot is kept under peer and revision exactly when the page has a cursor, evicting only the oldest entries for room |
| MeshPages.PageServer.NextPage | internal/daemon/mesh_application.go:679-697 | a further page is served exactly when this peer's snapshot of the revision is kept, at most 30 seconds old, goes on at the offset and its next item fits; the entry is dropped exactly when its end was served |
| MeshPages.PageServer.List | internal/daemon/mesh_application.go:529-549 | a whole request: an invalid limit or cursor changes nothing, and any other one takes exactly that step of the server |
| MeshPages.FetchAll | internal/daemon/mesh_application.go:1701-1740 | the client's loop with its checks and its 4096 pages of at most 256 items |
| MeshPages.CompletedIsExact | internal/daemon/mesh_application.go:1701-1740 | a listing that completes is exactly the snapshot of its first page, made for this peer |
| MeshPages.AnswersOfARun | internal/daemon/mesh_application.go:664-697 | every answer of any run of the server, with other peers, expiry, evictions and restarts, is honest |
| MeshPages.CompletedClientHasItsSnapshot | internal/daemon/mesh_application.go:1701-1740 | so a client that completes holds exactly the snapshot its first request was answered from, under any interleaving with the server's other steps |
| MeshPages.ServerStepKeeps | internal/daemon/mesh_application.go:664-697 | a kept snapshot is always the one made for its key's peer and revision in this boot |
| MeshPages.UndisturbedClientGetsItsSnapshot | internal/daemon/mesh_application.go:664-726 | a client whose calls are served within 30 seconds of the first, and whose snapshot the server neither evicts nor loses in a restart meanwhile, gets exactly that snapshot when every item fits a page; only more than 4096 pages are given up |
| MeshSync.OneWorkerPerPeer | internal/daemon/mesh_application.go:1529-1557 | two workers never serve the same peer |
| MeshSync.NoLostWakeup | internal/daemon/mesh_application.go:1529-1613 | from any state in which no worker of the peer is giving up, as long as the runtime runs and the peer has topics, an accepted event without a later pass always has a worker bound for one |
| MeshSync.ServedWithinSixSteps | internal/daemon/mesh_application.go:1558-1613 | and under every interleaving a full pass that begins after the event has started by the sixth step of that worker |
| MeshSync.WakeupApproaches | internal/daemon/mesh_application.go:1558-1613 | each step of that worker starts the pass or comes nearer to it, whatever the calls return |
| MeshSync.OthersDoNotDelay | internal/daemon/mesh_application.go:1529-1557 | and no step of anybody else sends it back |
| MeshSync.LeavesWithinTwelveSteps | internal/daemon/mesh_application.go:1558-1640 | without a further event a worker frees its slot within twelve of its own steps, whatever the remote calls return: each turn consumes the dirty edge it answers |
| MeshSync.EventIsCoalesced | internal/daemon/mesh_application.go:1529-1557 | an event makes a running worker come back once or starts a clean one, and leaves the restore intent exactly if it was there or the event brought it |
| MeshSync.TurnConsumes | internal/daemon/mesh_application.go:1558-1640 | a turn consumes the dirty edge exactly when it comes back for it, and a restore intent stays exactly until it is taken or its restoring fails |
| MeshSync.SuccessfulExitLeavesNothing | internal/daemon/mesh_application.go:1581-1612 | a successful exit discards neither a dirty edge nor a restore intent |
| MeshSync.LostExactlyWhen | internal/daemon/mesh_application.go:1561-1574 | an accepted event loses its pass exactly when a worker that gave up leaves with it, and giving up means it saw the runtime stopped or no topics |
| MeshSync.LateTopicsLoseAWakeup | internal/daemon/mesh_application.go:1569-1574 | without topics at the worker's look an event accepted later can be lost |
| MeshSync.MeshWorkers.ScheduleSync | internal/daemon/mesh_application.go:1529-1557 | scheduling coalesces into the running worker or starts one |
| MeshSync.MeshWorkers.RetryDirty | internal/daemon/mesh_application.go:1626-1640 | a failed turn consumes one dirty edge or releases the slot |
| MeshSync.MeshWorkers.FinishTurn | internal/daemon/mesh_application.go:1603-1612 | a successful turn consumes one dirty edge or releases the slot |
| MeshSync.MeshWorkers.TakeResubscribe | internal/daemon/mesh_application.go:1584-1590 | the restore intent is taken exactly once |
| JsonScan.SkipJsonSpace | internal/hooks/register.go:489-499 | stops at the first character that is no blank |
| JsonScan.ScanJsonString | internal/hooks/register.go:474-487 | the end of a string, past its escapes, on every text |
| JsonScan.SkipJsonValue | internal/hooks/register.go:415-443 | terminates on every text and computes the value's end |
| JsonScan.SkipJsonArray | internal/hooks/register.go:445-472 | likewise for an array |
| JsonScan.ParseObjectMembers | internal/hooks/register.go:326-369 | likewise for an object with its members' keys and extents |
| JsonScan.ParseJsonObject | internal/hooks/register.go:308-324 | likewise for a whole document |
| JsonScan.PreviousNonSpace | internal/hooks/register.go:403-413 | the last character before an offset that is no blank |
| JsonExtents.ValueSpan | internal/hooks/register.go:415-443 | on JSON text the scanner returns exactly the value's extent |
| JsonExtents.TopSpan | internal/hooks/register.go:308-369 | on a JSON object the parser returns exactly its members' decoded keys and value extents |
| JsonUnique.Unambiguous | internal/hooks/register.go:308-324 | a text is the text of at most one tree |
| JsonEdit.FindMember | internal/hooks/register.go:299-306 | finds the first member with the key |
| JsonEdit.WithElemText | internal/hooks/register.go:386-393 | appending an element to the tree is inserting one substring before the closing blank |
| JsonEdit.WithMemberText | internal/hooks/register.go:371-384 | likewise for a member |
| HookConfig.EncodedDecodes | internal/hooks/register.go:187-190 | decoding undoes the string encoder for every text |
| HookConfig.EscapesExactly | internal/hooks/register.go:187-190 | exactly quotes, backslashes, control characters and what HTML would read are escaped |
| HookConfig.InsertObjectMember | internal/hooks/register.go:371-384 | inserts one member where the tree has it |
| HookConfig.InsertArrayValue | internal/hooks/register.go:386-393 | inserts one element where the tree has it |
| HookConfig.AddHookEntry | internal/hooks/register.go:258-285 | the output is the input with one substring inserted and the text of exactly the tree with the entry added, or the right error |
| HookMeaning.AddedMeaning | internal/hooks/register.go:258-285 | the edited document means the same document with one element appended to hooks[event] |
| HookRegistration.AddedShows | internal/hooks/register.go:192-219 | after an edit the decoder finds the new entry exactly when the keys are unique, and other events as before |
| HookRegistration.RegisterJsonHooks | internal/hooks/register.go:54-96 | every missing event gets its entry in one text, or an error leaves nothing written |
| HookRegistration.RegisteredAfter | internal/hooks/register.go:69-83 | after a run an event is registered exactly when it was before, or its place is unique and its entry names the script |
| HookRegistration.IdempotentExactlyWhen | internal/hooks/register.go:54-96 | a second run changes nothing exactly when that holds for every event |
| HookRegistration.PlainPathsSettle | internal/hooks/register.go:126-185 | with a path free of escaped characters and no duplicate keys it does, for both entry templates |
| FreshHookConfig.BuildFreshHookConfig | internal/hooks/register.go:98-109 | the fresh file is the text of exactly one document, with every event's entry |
| FreshHookConfig.FreshSettles | internal/hooks/register.go:54-59 | in it an event is registered exactly when its entry names the script, and the next run finds nothing to do exactly when all are |
| FreshHookConfig.FreshPlainPathsSettle | internal/hooks/register.go:54-59 | with a path free of escaped characters they all are |
| FreshHookConfig.RegisterHookFile | internal/hooks/register.go:54-96 | a missing file is written afresh, an existing one gets every missing event's entry or is kept |
| HookRegistration.EscapedPathIsMissed | internal/hooks/register.go:126-159 | a command names no alias of its path when each alias has inside a backquote, an escaped dollar sign, or a backslash or double quote that the command spells differently |
| HookRegistration.EscapedPathNeverSettles | internal/hooks/register.go:54-96 | an event that was not registered is then added again by every run |
| HookPathNames.InsideEscaped | internal/hooks/register.go:146-152 | no text with an escaped character stands in its own escaped form, and none with as many blocks of them does |
| HookPathNames.CommandNamesItsPath | internal/hooks/register.go:126-159 | the command for a script path, under the home directory or elsewhere, names one of its aliases exactly when the path has no escaped character |
| HookPathNames.PathSettlesExactlyWhen | internal/hooks/register.go:54-96 | and exactly then a second run of either registration finds nothing to do, whatever else the file holds |
| HookPathNames.SpelledPathIsNamed | internal/hooks/register.go:126-152 | a path that spells the text between the command's two mentions is named although it has escaped characters |
| HookRegistration.DuplicateHooksNeverSettle | internal/hooks/register.go:192-219 | with two hooks keys a second run adds again |
| HookRegistration.EntryHits | internal/hooks/register.go:162-185 | an entry names the script exactly when its command does |
| HookRegistration.EntriesExactly | internal/hooks/register.go:192-224 | whose entries count: those of the last `hooks` and the event's last list; null or absent is empty, any other shape an error |
| EnvFile.FileNameInjective | internal/hooks/envfile.go:32-45 | file names are injective over valid scopes and session ids |
| EnvFile.NoDashes | internal/hooks/envfile.go:43-44 | the base64url text of a valid scope has no dash |
| EnvFile.Base64Injective | internal/hooks/envfile.go:43 | base64url is injective |
| EnvFile.WriteEnv | internal/hooks/envfile.go:63-83 | writes exactly the allowed maps, and names the first fault in key order otherwise |
| EnvFile.LoadExports | internal/hooks/envfile.go:138-158 | loads line by line and stops at the first fault |
| EnvFile.QuotingRoundTrip | internal/hooks/envfile.go:175-177 | every text survives the shell quoting |
| EnvFile.EnvironmentRoundTrip | internal/hooks/envfile.go:63-158 | what was written loads as one export per key in order, with exactly its value if and only if that does not end in a carriage return |
| EnvFileLaws.NamedExactlyWhen | internal/hooks/envfile.go:32-45 | a file has a name exactly for the root or a profile of at most 64 characters and a plain session id, and the name stays in its directory |
| EnvFileLaws.GroupsKeepTheirValue | internal/hooks/envfile.go:43 | each base64url group stands for the same number as its bytes |
| EnvFileLaws.KeysAreOurs | internal/hooks/envfile.go:23-29 | exactly the keys with arcmux's prefix and of capitals, digits and underscores are allowed, and none of their characters means anything to a shell |
| EnvFileLaws.BeforeExactlyWhen | internal/hooks/envfile.go:71-75 | the keys' order is that of the first difference, shorter beginnings first |
| EnvFileLaws.LoadsExactly | internal/hooks/envfile.go:139-148 | exactly empty lines and comments are skipped, and exactly lines without a key are malformed |
| EnvFileLaws.LoadsItsKey | internal/hooks/envfile.go:149-157 | a line with a key becomes its literal assignment exactly when the key is allowed and the value has no NUL |
| EnvFileLaws.FirstFaultDecides | internal/hooks/envfile.go:138-158 | a file loads exactly when each line does, and otherwise its first fault is the error |
| EnvFileLaws.LoadedIsLiteral | internal/hooks/envfile.go:105-158 | of any file at all, each line that comes out is read back by a shell as exactly an allowed key and the literal text after it in the file |
| Evidence.TruncatePreview | internal/daemon/daemon.go:1846-1868 | the loop computes the collapsed and truncated preview |
| Evidence.FlatIsOneLine | internal/daemon/daemon.go:1846-1868 | a preview is one line without doubled spaces and keeps the other characters in order |
| Evidence.MarkersAreValid | internal/handoff/instructions.go:35-38 | every marker passes the receiving command's check, for any hash of SHA-256's form |
| Evidence.MarkersExactly | internal/handoff/instructions.go:161-168 | a marker passes the check exactly as the prefix and 64 lower-case hexadecimal digits |
| Evidence.MarkersAreDistinct | internal/handoff/instructions.go:35-38 | two handoffs have the same marker exactly when they are the same or their hashed texts are a collision of the hash |
| Evidence.PreviewIsEvidence | internal/daemon/handoff_application.go:675-695 | the preview of every launch prompt is exactly the expected command |
| Evidence.EvidenceTellsMarkers | internal/daemon/handoff_application.go:679-686 | distinct markers yield distinct evidence |
| Evidence.EvidenceIdentifiesHandoff | internal/daemon/handoff_application.go:684-686 | two handoffs share a recorded command exactly when they are the same or their hashed texts are a collision of the hash |
| Evidence.RecordedExactlyWhen | internal/daemon/handoff_application.go:684-686 | a prompt is recorded as a marker's evidence exactly when, made one line, it goes on after the padded marker |
| Evidence.EvidenceOfMany | internal/daemon/handoff_application.go:675-686 | any handoffs among whose hashed texts the hash has no collision have evidence of their own |
| Evidence.CollisionFreeHashExists | internal/handoff/instructions.go:35-38 | there is such a hash for any list of texts that 64 digits can tell apart |

## Left out

- Temporary files, fsync, rename, permissions and symlink checks of the store, the hook config and the environment file: each write is one step.
- The order in which scans list records, and times of day in UTC.
- The manifest's body: its checks are one flag; canonical encoding and credential scanning are not modelled.
- Git, tmux, gRPC, HTTP handlers and command lines: the operator's prepare request begins here with a built manifest.
- The scan loop of the target's recovery pass: the machine takes its passes one record at a time.
- The status request, which only reads.
- TransitionTarget: the store alone would let a transition replace a locator; that it never happens is a property of the application and stated there.
- ScheduleSync: the worker's loop is a state machine over its steps, not one method; what a pass does with an inventory is not modelled.
- FirstPage: the artifact kind of a cached page is not modelled; the client always lists without one.
- The size of a page: an arbitrary predicate.
- Closing a session by name over HTTP, which takes it out of the session table while a launch may still hold it.
- RegisterHookFile: the file mode and the home directory's display path, which is an argument; the entry templates are given as trees.
- SkipJsonValue: characters stand for bytes; nesting is not limited.
- DeferredRetirement.ClosesExactlyWhen: a corrupt hook state file, which restarts the turn counter.
- CommandNamesItsPath: paths that spell the text between the command's two mentions of its path; some of them are named (`SpelledPathIsNamed`).
- EscapedPathIsMissed: one way, for any list of aliases; the exact condition for the aliases of a script path is CommandNamesItsPath.
- Delivery judges, health monitor, goal summaries, recorder, pulse supervisor, gap retries and inbox draining.
