/**
 What each target operation of internal/daemon/handoff_application.go leaves and answers, stated
 on its inputs: the stored record, the request, the checks against the device and the sessions.
 */
module TargetOutcomes {
  import opened Wrappers
  import opened Records
  import opened RecordStore
  import opened StoreLaws
  import opened Sessions
  import opened Outbox
  import opened SourceOutcomes
  import opened Application

  // ---- the three ways a check ends -----------------------------------------------------------------------

  /** The record waits, with this retryable failure, for 15 seconds after the write. */
  predicate TargetWaits(r: TargetRecord, r': TargetRecord, state: TargetState, code: FailureCode, message: Message,
      now: Time) {
    var at := LaterOf(now, r.updated);
    r' == r.(state := state, revision := r.revision + 1, updated := at, nextRetry := Some(at + FifteenSeconds),
             failure := Some(Failure(code, message, true, at)))
  }

  /** The record is rejected for good, with this failure, and names no continuation any more. */
  predicate Refuses(r: TargetRecord, r': TargetRecord, code: FailureCode, message: Message, now: Time) {
    var at := LaterOf(now, r.updated);
    r' == r.(state := Rejected, revision := r.revision + 1, updated := at, nextRetry := None, locator := None,
             failure := Some(Failure(code, message, false, at)))
  }

  /** The record has gone on and keeps its locator. */
  predicate GoesOn(r: TargetRecord, r': TargetRecord, state: TargetState, now: Time) {
    r' == r.(state := state, revision := r.revision + 1, updated := LaterOf(now, r.updated))
  }

  predicate Preparing(s: TargetState) { s.Received? || s.Validating? || s.WaitingAssets? }

  /** What settling one verdict writes and answers. */
  lemma TargetSettles(r: TargetRecord, v: TargetVerdict, now: Time)
    requires ValidTarget(r) && r.revision < LastRevision && (v.Forward? || v.Wait? || v.Reject?)
    requires LegalTarget(r.state, TargetVerdictState(v)) && (v.Reject? || r.state.Validating? || r.state.Launching?)
    requires v.Forward? ==> v.next.Prepared? || v.next.TargetAccepted?
    requires v.Forward? ==> v.locator == r.locator && (v.next.TargetAccepted? <==> v.locator.Some?)
    requires v.Wait? ==> v.next.WaitingAssets? || v.next.LaunchWaitingAssets?
    requires !v.Forward? ==> !v.code.UnknownCode? && !v.message.OtherText?
    ensures var (r', answer) := Conclude(r, v, now);
            && ValidTarget(r') && r'.state == TargetVerdictState(v) && answer == Reply(StatusOf(r'))
            && (v.Wait? ==> TargetWaits(r, r', v.next, v.code, v.message, now))
            && (v.Reject? ==> Refuses(r, r', v.code, v.message, now))
            && (v.Forward? ==> GoesOn(r, r', v.next, now))
  {
    TargetMoves(r, r.revision, TargetVerdictState(v), TargetTransitionFor(r, v, now), now);
    TargetEntries(r.state);
    TargetShape(r);
    MoveIsValid(r, r.revision, TargetVerdictState(v), TargetTransitionFor(r, v, now), now);
    hide TargetTransition, ValidTarget, StatusOf, LegalTarget, ValidManifest, ValidLocator;
  }

  lemma MoveIsValid(r: TargetRecord, expected: nat, next: TargetState, t: Transition, clock: Time)
    ensures var res := TargetTransition(r, expected, next, t, clock); res.Ok? ==> ValidTarget(res.value)
  {
    hide ValidTarget;
  }

  /** At the last revision no verdict can be stored. */
  lemma NoMoreVerdicts(r: TargetRecord, v: TargetVerdict, now: Time)
    requires ValidTarget(r) && r.revision == LastRevision && (v.Forward? || v.Wait? || v.Reject?)
    ensures Conclude(r, v, now) == (r, Error(InternalError))
  {
    TargetMoves(r, r.revision, TargetVerdictState(v), TargetTransitionFor(r, v, now), now);
    hide TargetTransition, ValidTarget, LegalTarget, StatusOf;
  }

  /** Everything a status reveals: the continuation only once it is accepted, the failure without its time. */
  lemma StatusTells(r: TargetRecord)
    requires ValidTarget(r)
    ensures var st := StatusOf(r);
            && st.id == r.manifest.id && st.digest == r.digest && st.state == r.state && st.attempts == r.attempts
            && (st.locator.Some? <==> st.state.TargetAccepted?) && (st.locator.Some? ==> st.locator == r.locator)
            && (st.failure.Some? <==> st.state.WaitingAssets? || st.state.LaunchWaitingAssets? || st.state.Rejected?)
            && (st.failure.Some? ==>
                  r.failure == Some(Failure(st.failure.value.code, st.failure.value.message, st.failure.value.retryable,
                    r.failure.value.at)))
  {
    TargetShape(r);
    hide ValidTarget, ValidManifest;
  }

  // ---- preparation ---------------------------------------------------------------------------------------

  /** A prepare request is taken up exactly from the manifest's source device, on its target device, without artifacts
      and in a live context; a request from any other device is denied. */
  lemma PrepareGuards(m: Manifest, peer: string, w: PrepareInputs)
    ensures PrepareGuard(m, peer, w).None? <==>
              ValidManifest(m) && peer == m.source.device && w.device == m.target.device && m.artifacts == 0
                && w.deadFrom > 0
    ensures PrepareGuard(m, peer, w) == Some(Denied) <==> ValidManifest(m) && peer != m.source.device
    ensures PrepareGuard(m, peer, w) == Some(BadRequest) <==>
              !ValidManifest(m) || (peer == m.source.device && (w.device != m.target.device || m.artifacts != 0))
    ensures PrepareGuard(m, peer, w) != Some(InternalError)
  {
    assert ValidManifest(m) ==> m.source.device != "" && m.target.device != "";
    hide ValidManifest;
  }

  predicate AtHome(r: TargetRecord, device: string) { device == r.manifest.target.device }

  /** The checks in their order: a check is made when all before it passed and the context is still alive. */
  predicate ReachesRegistry(r: TargetRecord, w: PrepareInputs) { AtHome(r, w.device) && w.profileOk && w.deadFrom > 2 }

  predicate ReachesHistory(r: TargetRecord, w: PrepareInputs) {
    ReachesRegistry(r, w) && w.registryOk && w.projectOk && w.deadFrom > 3
  }

  predicate ReachesRepository(r: TargetRecord, w: PrepareInputs) {
    ReachesHistory(r, w) && w.history.Passed? && w.deadFrom > 4
  }

  predicate EveryCheckPassed(r: TargetRecord, w: PrepareInputs) { ReachesRepository(r, w) && w.repository.Passed? }

  predicate AwaitsAssets(r: TargetRecord, w: PrepareInputs) {
    (ReachesHistory(r, w) && w.history.Retryable?) || (ReachesRepository(r, w) && w.repository.Retryable?)
  }

  predicate CannotBePrepared(r: TargetRecord, w: PrepareInputs) {
    || !AtHome(r, w.device) || !w.profileOk || (ReachesRegistry(r, w) && (!w.registryOk || !w.projectOk))
    || (ReachesHistory(r, w) && w.history.Deterministic?) || (ReachesRepository(r, w) && w.repository.Deterministic?)
  }

  lemma DevicesAreNamed(r: TargetRecord)
    requires ValidTarget(r)
    ensures r.manifest.source.device != "" && r.manifest.target.device != ""
  {
    hide ValidFields, ValidAck;
  }

  /** The checks on a validating record: prepared exactly when every check passed, waiting exactly for what may still
      arrive, rejected exactly for what will not change, and left as it is exactly when the context died before. */
  lemma ChecksEnd(r: TargetRecord, w: PrepareInputs, now: Time)
    requires ValidTarget(r) && r.state.Validating? && r.revision < LastRevision
    ensures var (r', answer) := Conclude(r, PrepareVerdictFor(r, w), now);
            && ValidTarget(r')
            && (r'.state.Prepared? <==> EveryCheckPassed(r, w))
            && (r'.state.WaitingAssets? <==> AwaitsAssets(r, w))
            && (r'.state.Rejected? <==> CannotBePrepared(r, w))
            && (r'.state.Prepared? || r'.state.WaitingAssets? || r'.state.Rejected? || r' == r)
            && answer == (if r'.state.Validating? then Error(Cancelled) else Reply(StatusOf(r')))
            && (r'.state.Prepared? ==> GoesOn(r, r', Prepared, now))
            && (r'.state.WaitingAssets? ==>
                  TargetWaits(r, r', WaitingAssets, MissingAsset,
                    if w.history.Passed? then RepositoryMissing else HistoryMissing, now))
            && (r'.state.Rejected? ==>
                  if !AtHome(r, w.device) then Refuses(r, r', VerificationFailed, DeviceMismatch, now)
                  else if !w.profileOk then Refuses(r, r', VerificationFailed, ProfileUnavailable, now)
                  else if !w.registryOk then Refuses(r, r', VerificationFailed, RegistryInvalid, now)
                  else if !w.projectOk then Refuses(r, r', VerificationFailed, ProjectUnregistered, now)
                  else if w.history.Deterministic? then Refuses(r, r', InvalidManifest, HistoryInvalid, now)
                  else Refuses(r, r', VerificationFailed, RepositoryMismatch, now))
  {
    hide Conclude, ValidTarget, ValidManifest, StatusOf, TargetWaits, Refuses, GoesOn;
    DevicesAreNamed(r);
    TargetEntries(r.state);
    Unnamed(r);
    var v := PrepareVerdictFor(r, w);
    if v.Interrupted? { Interrupts(r, now); } else { TargetSettles(r, v, now); }
    hide LegalTarget;
  }

  lemma Interrupts(r: TargetRecord, now: Time)
    ensures Conclude(r, Interrupted, now) == (r, Error(Cancelled))
        && Conclude(r, LostRecord, now) == (r, Error(InternalError))
  {
  }

  lemma Unnamed(r: TargetRecord)
    requires ValidTarget(r)
    ensures !TargetLocatorState(r.state) ==> r.locator.None?
    ensures r.revision <= LastRevision
    ensures r.nextRetry.Some? <==> r.state.WaitingAssets? || r.state.LaunchWaitingAssets?
  {
    hide ValidManifest, ValidAck, ValidLocator, ValidFailure;
  }

  /** The record while it is checked or launched: entered by one write, or found so after an interruption. */
  function InWork(r: TargetRecord, working: TargetState, now: Time): TargetRecord {
    if r.state == working then r
    else r.(state := working, revision := r.revision + 1, updated := LaterOf(now, r.updated), nextRetry := None,
            failure := None,
            attempts := if working.Launching? then r.attempts
              else if r.attempts % 0x1_0000_0000 == 0xFFFF_FFFF then 0 else r.attempts % 0x1_0000_0000 + 1)
  }

  lemma EntersWork(r: TargetRecord, working: TargetState, now: Time)
    requires ValidTarget(r) && (working.Validating? || working.Launching?)
    ensures EnterTarget(r, working, now) ==
              if LegalTarget(r.state, working) && r.revision < LastRevision && r.state != working
              then Work(InWork(r, working, now)) else Done(Error(InternalError))
    ensures EnterTarget(r, working, now).Work? ==> ValidTarget(InWork(r, working, now))
  {
    var t := Transition(TransitionTime(now, r.updated), None, None, None);
    TargetShape(r);
    TargetEntries(r.state);
    TargetMoves(r, r.revision, working, t, now);
    MoveIsValid(r, r.revision, working, t, now);
    hide TargetTransition, ValidTarget, ValidManifest, LegalTarget;
  }

  /** What is done with a record before any check: nothing in a dead context or out of the preparation, a rejection with
      artifacts, and otherwise the checks. */
  lemma ResumePlans(r: TargetRecord, deadFrom: nat, now: Time)
    requires ValidTarget(r)
    ensures ResumeTargetPlan(r, deadFrom, now) ==
              if deadFrom <= 1 then Done(Error(Cancelled))
              else if !Preparing(r.state) then Done(Reply(StatusOf(r)))
              else if r.manifest.artifacts > 0 then RejectFirst(r)
              else if !r.state.Validating? && r.revision >= LastRevision then Done(Error(InternalError))
              else Work(InWork(r, Validating, now))
    ensures ResumeTargetPlan(r, deadFrom, now).Work? ==> ValidTarget(InWork(r, Validating, now))
  {
    TargetEntries(r.state);
    EntersWork(r, Validating, now);
    hide ValidTarget, ValidManifest, EnterTarget, LegalTarget, StatusOf;
  }

  /** Checks and their verdict need one write, or two when the record is not yet being checked; a rejection for
      artifacts needs one. */
  predicate CheckRoom(r: TargetRecord) {
    r.revision + (if r.state.Validating? || r.manifest.artifacts > 0 then 0 else 1) < LastRevision
  }

  /** The whole resumption, from the stored record: a record of the preparation is left prepared, waiting, rejected or
      validating by exactly the checks above, and any other record as it is. */
  lemma ResumptionLeaves(r: TargetRecord, w: PrepareInputs, begin: Time, end: Time)
    requires ValidTarget(r)
    ensures var (r', answer) := AfterResumeTarget(r, w, begin, end); var checked := InWork(r, Validating, begin);
            var worked := Preparing(r.state) && w.deadFrom > 1;
            && ValidTarget(r')
            && (!worked ==> r' == r && answer == if w.deadFrom <= 1 then Error(Cancelled) else Reply(StatusOf(r)))
            && (answer.Reply? ==> answer == Reply(StatusOf(r')))
            && (worked && !CheckRoom(r) ==>
                  && r' == (if r.revision == LastRevision then r else checked)
                  && (answer.Error? && (answer == Error(InternalError)
                    || (r.manifest.artifacts == 0 && r'.state.Validating?))))
            && (worked && CheckRoom(r) && r.manifest.artifacts > 0 ==>
                  Refuses(r, r', InvalidManifest, ArtifactsUnsupported, end) && answer.Reply?)
            && (worked && CheckRoom(r) && r.manifest.artifacts == 0 ==>
                  && (r'.state.Prepared? <==> EveryCheckPassed(r, w))
                  && (r'.state.WaitingAssets? <==> AwaitsAssets(r, w))
                  && (r'.state.Rejected? <==> CannotBePrepared(r, w))
                  && (r'.state.Prepared? ==> GoesOn(checked, r', Prepared, end))
                  && (r'.state.WaitingAssets? ==>
                        TargetWaits(checked, r', WaitingAssets, MissingAsset,
                          if w.history.Passed? then RepositoryMissing else HistoryMissing, end))
                  && (!r'.state.Prepared? && !r'.state.WaitingAssets? && !r'.state.Rejected? ==>
                        r' == checked && answer == Error(Cancelled)))
  {
    hide ResumeTargetPlan, Conclude, ValidTarget, ValidManifest, StatusOf, PrepareVerdictFor, TargetWaits, Refuses,
      GoesOn;
    ResumePlans(r, w.deadFrom, begin);
    TargetEntries(r.state);
    Unnamed(r);
    var checked := InWork(r, Validating, begin);
    var plan := ResumeTargetPlan(r, w.deadFrom, begin);
    if plan == RejectFirst(r) {
      if r.revision < LastRevision {
        TargetSettles(r, ArtifactsVerdict, end);
      } else {
        NoMoreVerdicts(r, ArtifactsVerdict, end);
      }
    } else if plan == Work(checked) {
      if checked.revision < LastRevision {
        ChecksEnd(checked, w, end);
      } else {
        var v := PrepareVerdictFor(checked, w);
        Interrupts(checked, end);
        KindsOfVerdict(checked, w);
        if !v.Interrupted? { NoMoreVerdicts(checked, v, end); }
      }
    }
    hide LegalTarget;
  }

  lemma KindsOfVerdict(r: TargetRecord, w: PrepareInputs)
    ensures var v := PrepareVerdictFor(r, w); v.Forward? || v.Wait? || v.Reject? || v.Interrupted?
  {
  }

  // ---- launch --------------------------------------------------------------------------------------------

  /** The request comes from the manifest's source device, for this very record, to its target device. */
  predicate FromHome(r: TargetRecord, digest: Digest, peer: string, device: string) {
    peer == r.manifest.source.device && device == r.manifest.target.device && digest == r.digest
  }

  /** A launch is worked on exactly for a request from home on a prepared or already authorized record. A request from
      any other device is denied, whatever the record; a wrong device or digest and a record still in preparation are
      bad requests; a settled record is only shown. */
  lemma LaunchRequests(r: TargetRecord, digest: Digest, peer: string, device: string, now: Time)
    requires ValidTarget(r)
    ensures r.manifest.source.device != "" && r.manifest.target.device != ""
    ensures LaunchRequestPlan(r, digest, peer, device, now) ==
              if peer != r.manifest.source.device then Done(Error(Denied))
              else if !FromHome(r, digest, peer, device) || Preparing(r.state) then Done(Error(BadRequest))
              else if r.state.TargetAccepted? || r.state.Rejected? then Done(Reply(StatusOf(r)))
              else if !r.state.Launching? && r.revision >= LastRevision then Done(Error(InternalError))
              else Work(InWork(r, Launching, now))
    ensures LaunchRequestPlan(r, digest, peer, device, now).Work? ==> ValidTarget(InWork(r, Launching, now))
  {
    DevicesAreNamed(r);
    TargetEntries(r.state);
    EntersWork(r, Launching, now);
    hide ValidTarget, ValidManifest, EnterTarget, LegalTarget, StatusOf;
  }

  /** Recovery goes on only with a launch that a request authorized before; it never starts one. */
  lemma LaunchResumes(r: TargetRecord, now: Time)
    requires ValidTarget(r)
    ensures ResumeLaunchPlan(r, now) ==
              if !r.state.Launching? && !r.state.LaunchWaitingAssets? then Done(Reply(StatusOf(r)))
              else if r.state.LaunchWaitingAssets? && r.revision >= LastRevision then Done(Error(InternalError))
              else Work(InWork(r, Launching, now))
  {
    TargetEntries(r.state);
    EntersWork(r, Launching, now);
    hide ValidTarget, ValidManifest, EnterTarget, LegalTarget, StatusOf;
  }

  predicate LaunchReachesHistory(r: TargetRecord, w: LaunchInputs) {
    && AtHome(r, w.device) && r.manifest.artifacts == 0 && w.profileOk && w.runtimeOk && w.registryOk && w.projectOk
    && w.deadFrom > 2
  }

  predicate LaunchReachesRepository(r: TargetRecord, w: LaunchInputs) {
    LaunchReachesHistory(r, w) && w.history.Passed? && w.deadFrom > 3
  }

  predicate LaunchReachesInstructions(r: TargetRecord, w: LaunchInputs) {
    LaunchReachesRepository(r, w) && w.repository.Passed?
  }

  /** Everything the target prepared is still as it was, and the private instructions are in place. */
  predicate LaunchMayGoOn(r: TargetRecord, w: LaunchInputs) {
    LaunchReachesInstructions(r, w) && w.instructions.Some? && w.rendezvousOk
  }

  /** The revalidation before any session is touched: it lets the launch go on exactly when every check passed, and
      otherwise waits for what may still arrive, rejects what will not change and stops in a dead context. */
  lemma LaunchIsChecked(r: TargetRecord, w: LaunchInputs)
    requires ValidTarget(r)
    ensures var v := LaunchCheck(r, w);
            && (v.None? <==> LaunchMayGoOn(r, w))
            && (v.Some? && v.value.Wait? <==>
                  || (LaunchReachesHistory(r, w) && w.history.Retryable?)
                  || (LaunchReachesRepository(r, w) && w.repository.Retryable?)
                  || (LaunchReachesInstructions(r, w) && (w.instructions.None? || !w.rendezvousOk)))
            && (v.Some? && v.value.Reject? <==>
                  && w.deadFrom > 1
                  && (|| !AtHome(r, w.device) || r.manifest.artifacts > 0 || !w.profileOk || !w.runtimeOk
                    || !w.registryOk
                      || !w.projectOk || (LaunchReachesHistory(r, w) && w.history.Deterministic?)
                      || (LaunchReachesRepository(r, w) && w.repository.Deterministic?)))
            && (v.Some? ==> v.value.Wait? || v.value.Reject? || v.value.Interrupted?)
            && (v.Some? && v.value.Wait? ==>
                  v.value.next.LaunchWaitingAssets?
                  && if w.history.Retryable? then v.value.code == MissingAsset && v.value.message == LaunchAwaitsHistory
                     else if w.repository.Retryable? then
                       v.value.code == MissingAsset && v.value.message == LaunchAwaitsRepository
                     else v.value.code == Internal && v.value.message == InstructionsNotReady)
            && (v.Some? && v.value.Reject? ==>
                  if !AtHome(r, w.device) then v.value == Reject(VerificationFailed, DeviceMismatch)
                  else if r.manifest.artifacts > 0 then v.value == Reject(InvalidManifest, ArtifactsUnsupported)
                  else if !w.profileOk then v.value == Reject(VerificationFailed, ProfileUnavailable)
                  else if !w.runtimeOk then v.value == Reject(Internal, RuntimeUnavailable)
                  else if !w.registryOk then v.value == Reject(VerificationFailed, RegistryInvalid)
                  else if !w.projectOk then v.value == Reject(VerificationFailed, ProjectUnregistered)
                  else if w.history.Deterministic? then v.value == Reject(VerificationFailed, LaunchHistoryMismatch)
                  else v.value == Reject(VerificationFailed, LaunchRepositoryMismatch))
  {
    DevicesAreNamed(r);
    hide ValidTarget, ValidManifest;
  }

  // ---- the continuation ------------------------------------------------------------------------------------

  /** The one continuation a handoff may have: named and owned by it alone, private, with the profile the manifest asks
      for, in the prepared worktree. Creation returns a live session of that name and owner instead of a second one. */
  lemma ContinuationIs(r: TargetRecord, worktree: string, instructions: string, s: Session)
    ensures var identity := ContinuationIdentity(r, worktree, instructions);
            && (s.identity == identity <==>
                  && s.identity.name == HandoffName(r.manifest.id, r.digest)
                  && s.identity.owner == "arcmux-handoff:" + r.manifest.id && s.identity.private
                  && s.identity.agent == r.manifest.target.profile && s.identity.cwd == worktree
                  && s.identity.instructions == instructions)
            && (Reusable(s, identity) <==>
                  && s.identity.name == HandoffName(r.manifest.id, r.digest)
                  && s.identity.owner == "arcmux-handoff:" + r.manifest.id && s.identity.private
                  && s.phase != Exited && s.phase != Crashed)
  {
  }

  /** What is saved of the session table: every session that has not ended, unchanged. */
  lemma DurableIs(live: map<string, Session>, id: string)
    ensures id in Durable(live) <==> id in live && live[id].phase != Exited && live[id].phase != Crashed
    ensures id in Durable(live) ==> Durable(live)[id] == live[id]
  {
  }

  /** A bound launch goes on only with its own session while that is alive. */
  lemma BoundGoesOn(r: TargetRecord, live: map<string, Session>)
    requires ValidTarget(r) && r.locator.Some?
    ensures ChooseBound(r, live) ==
              if r.locator.value.scope == "root" && r.locator.value.session in live then Chosen(r)
              else NoSession(Reject(LaunchFailed, ContinuationConflict))
  {
    TargetShape(r);
    hide ValidTarget, ValidManifest;
  }

  /** A created session is bound before it is used, exactly when it is the handoff's own, is saved, and the store can
      bind it. Another caller's session of the name is a conflict; anything else is tried again, except that a failed
      binding loses the record in hand. */
  lemma CreatedGoesOn(r: TargetRecord, identity: Identity, created: Option<Session>, s: SessionInputs, now: Time)
    requires ValidTarget(r) && r.state.Launching? && r.locator.None?
    ensures var choice := ChooseCreated(r, identity, created, s, now);
            var own := created.Some? && created.value.identity == identity;
            var bindable := own && s.persistOk && s.locatorWriteOk && ValidID(created.value.id)
              && r.revision < LastRevision;
            && (choice.Chosen? <==> bindable)
            && (choice.Chosen? ==>
                  && choice.record == r.(locator := Some(Locator(r.manifest.target.device, "root", created.value.id)),
                                         revision := r.revision + 1, updated := LaterOf(now, r.updated))
                  && ValidTarget(choice.record))
            && (choice == NoSession(Reject(LaunchFailed, ContinuationConflict)) <==> created.Some? && !own)
            && (choice == NoSession(Interrupted) <==> s.cancelled && !bindable && (created.None? || own))
            && (choice == NoSession(LostRecord) <==> !s.cancelled && own && s.persistOk && !bindable)
            && (choice == NoSession(Wait(LaunchWaitingAssets, LaunchFailed, ContinuationNotReady)) <==>
                  !s.cancelled && (created.None? || (own && !s.persistOk)))
  {
    hide ValidTarget, ValidManifest, ValidID, BindLocator;
    if created.Some? {
      Binds(r, r.revision, LocatorFor(r, created.value.id), TransitionTime(now, r.updated), now);
      BindIsValid(r, r.revision, LocatorFor(r, created.value.id), TransitionTime(now, r.updated), now);
      StorableHere(r, created.value.id);
    }
    Unnamed(r);
  }

  lemma BindIsValid(r: TargetRecord, expected: nat, locator: Locator, at: Time, clock: Time)
    requires ValidTarget(r)
    ensures var res := BindLocator(r, expected, locator, at, clock); res.Ok? ==> ValidTarget(res.value)
  {
    hide ValidTarget, ValidLocator;
  }

  lemma StorableHere(r: TargetRecord, session: string)
    requires ValidTarget(r)
    ensures LocatorFor(r, session) == Locator(r.manifest.target.device, "root", session)
    ensures ValidLocator(LocatorFor(r, session)) <==> ValidID(session)
    ensures r.state.Launching? ==> r.nextRetry.None? && r.failure.None? && r.contextLoaded.None?
    ensures r.updated > 0
  {
    assert ValidManifest(r.manifest) ==> ValidID(r.manifest.target.device);
    hide ValidManifest, ValidID, ValidAck;
  }

  /** The snapshot is of the bound session, as it was created. */
  predicate OwnSnapshot(r: TargetRecord, identity: Identity, snap: Session) {
    snap.identity == identity && r.locator.Some? && r.locator.value.session == snap.id
  }

  /** One snapshot: delivered exactly when the launch prompt of this very handoff is on record; ready for it exactly
      when the session has had no command and is idle; undecided exactly while it starts or waits; and a conflict
      otherwise. */
  lemma SnapshotSays(r: TargetRecord, identity: Identity, snap: Session)
    ensures var own := OwnSnapshot(r, identity, snap); var said := Poll(r, identity, snap);
            && (said.Delivered? <==> own && snap.command == LaunchEvidence(LaunchMarker(r.manifest.id, r.digest)))
            && (said.ReadyForPrompt? <==> own && snap.command.NoCommand? && snap.phase.Idle?)
            && (said.KeepPolling? <==>
                  own && snap.command.NoCommand?
                  && (snap.phase.Starting? || snap.phase.Handshaking? || snap.phase.Stuck? || snap.phase.Escalated?))
  {
  }

  /** The first snapshot that decides anything decides the attempt; without one it runs out of time. */
  lemma {:induction false} FirstDecides(r: TargetRecord, identity: Identity, snaps: seq<Session>, k: nat)
    ensures PollAll(r, identity, snaps).KeepPolling? <==> forall i :: 0 <= i < |snaps| ==>
        Poll(r, identity, snaps[i]).KeepPolling?
    ensures k < |snaps| && !Poll(r, identity, snaps[k]).KeepPolling?
            && (forall i :: 0 <= i < k ==> Poll(r, identity, snaps[i]).KeepPolling?) ==>
              PollAll(r, identity, snaps) == Poll(r, identity, snaps[k])
  {
    hide Poll;
    if snaps == [] {
    } else if k == 0 {
      FirstDecides(r, identity, snaps[1..], 0);
      assert forall i :: 1 <= i < |snaps| ==> snaps[i] == snaps[1..][i - 1];
    } else {
      FirstDecides(r, identity, snaps[1..], k - 1);
      assert forall i :: 1 <= i < |snaps| ==> snaps[i] == snaps[1..][i - 1];
    }
  }

  /** How an attempt ends once its session is chosen and bound: accepted exactly when the prompt is delivered or on
      record already, its evidence is the session's last command, and the inventory is saved. */
  lemma DeliveryEnds(r: TargetRecord, identity: Identity, s: SessionInputs, now: Time)
    requires ValidTarget(r) && r.state.Launching? && r.locator.Some? && r.revision < LastRevision
    ensures var (r', answer) := Conclude(r, DeliveryVerdict(r, identity, s), now);
            var polled := PollAll(r, identity, s.snaps);
            var sent := polled.Delivered? || (polled.ReadyForPrompt? && s.sendOk);
            var evident := s.final.command == LaunchEvidence(LaunchMarker(r.manifest.id, r.digest));
            && ValidTarget(r')
            && (r'.state.TargetAccepted? <==> sent && evident && s.finalPersistOk)
            && (r'.state.Rejected? <==> polled.PollConflict? || (sent && !evident))
            && (r'.state.Launching? <==> polled.KeepPolling? || (polled.ReadyForPrompt? && !s.sendOk && s.cancelled))
            && (r'.state.TargetAccepted? || r'.state.Rejected? || r'.state.Launching? || r'.state.LaunchWaitingAssets?)
            && answer == (if r'.state.Launching? then Error(Cancelled) else Reply(StatusOf(r')))
            && (r'.state.TargetAccepted? ==> GoesOn(r, r', TargetAccepted, now))
            && (r'.state.Launching? ==> r' == r)
            && (r'.state.LaunchWaitingAssets? ==>
                  if sent then TargetWaits(r, r', LaunchWaitingAssets, Internal, PersistenceNotReady, now)
                  else TargetWaits(r, r', LaunchWaitingAssets, LaunchFailed, DeliveryNotReady, now))
            && (r'.state.Rejected? ==>
                  Refuses(r, r', LaunchFailed, if sent then EvidenceMissing else ContinuationConflict, now))
  {
    hide Conclude, ValidTarget, ValidManifest, StatusOf, TargetWaits, Refuses, GoesOn, PollAll;
    TargetEntries(r.state);
    var v := DeliveryVerdict(r, identity, s);
    if v.Interrupted? { Interrupts(r, now); } else { TargetSettles(r, v, now); }
    hide LegalTarget;
  }

  /** The launch prompt is sent exactly when the first decisive snapshot of the bound session is ready for it, and to
      no session but the one the record names. */
  lemma PromptGoesTo(choice: Choice, identity: Identity, s: SessionInputs, k: nat, session: string)
    requires k < |s.snaps| && choice.Chosen?
        && (forall i :: 0 <= i < k ==> Poll(choice.record, identity, s.snaps[i]).KeepPolling?)
        && !Poll(choice.record, identity, s.snaps[k]).KeepPolling?
    ensures PromptedSession(choice, identity, s) == Some(session) <==>
              && OwnSnapshot(choice.record, identity, s.snaps[k]) && s.snaps[k].id == session
              && s.snaps[k].command.NoCommand? && s.snaps[k].phase.Idle?
  {
    FirstDecides(choice.record, identity, s.snaps, k);
    SnapshotSays(choice.record, identity, s.snaps[k]);
    hide PollAll, Poll;
  }

  // ---- the whole attempt -------------------------------------------------------------------------------------

  /** An authorized launch ends accepted exactly when the revalidation passed, a session was chosen, and the delivery to
      it ended as above; nothing is prompted before, and a rejection names its cause. */
  lemma LaunchWorkEnds(r: TargetRecord, w: LaunchInputs, s: SessionInputs, live: map<string, Session>,
      created: Option<Session>, bind: Time, end: Time)
    requires ValidTarget(r) && r.state.Launching? && r.revision + 1 < LastRevision
    ensures var (r', answer, sent) := AfterLaunchWork(r, w, s, live, created, bind, end);
            && (!LaunchMayGoOn(r, w) ==>
                  && sent.None? && !r'.state.TargetAccepted?
                  && LaunchCheck(r, w).Some? && (r', answer) == Conclude(r, LaunchCheck(r, w).value, end))
            && (LaunchMayGoOn(r, w) ==>
                  var identity := ContinuationIdentity(r, w.worktree, w.instructions.value);
                  var choice := if r.locator.Some? then ChooseBound(r, live)
                    else ChooseCreated(r, identity, created, s, bind);
                  && (choice.NoSession? ==>
                        sent.None? && !r'.state.TargetAccepted? && (r', answer) == Conclude(r, choice.verdict, end))
                  && (choice.Chosen? ==>
                        && choice.record.locator.Some?
                        && sent == PromptedSession(choice, identity, s)
                        && (r', answer) == Conclude(choice.record, DeliveryVerdict(choice.record, identity, s), end)))
            && (answer.Reply? ==> answer == Reply(StatusOf(r')))
            && (answer.Error? ==> r'.state.Launching?)
            && (r'.state.TargetAccepted? ==> r'.locator.Some? && answer.Reply?)
  {
    hide ValidTarget, ValidManifest, StatusOf, PollAll, LaunchMayGoOn, ChooseBound, ChooseCreated, DeliveryVerdict,
      ContinuationIdentity, TargetWaits, Refuses, GoesOn, ValidID, Conclude;
    LaunchIsChecked(r, w);
    TargetEntries(r.state);
    var check := LaunchCheck(r, w);
    Interrupts(r, end);
    if check.Some? {
      if !check.value.Interrupted? { CheckSettles(r, w); TargetSettles(r, check.value, end); }
    } else {
      var identity := ContinuationIdentity(r, w.worktree, w.instructions.value);
      if r.locator.Some? {
        BoundGoesOn(r, live);
        DeliveryEnds(r, identity, s, end);
        TargetSettles(r, ConflictVerdict, end);
      } else {
        CreatedGoesOn(r, identity, created, s, bind);
        CreatedVerdicts(r, identity, created, s, bind);
        var choice := ChooseCreated(r, identity, created, s, bind);
        if choice.Chosen? {
          DeliveryEnds(choice.record, identity, s, end);
        } else if choice.verdict.Reject? || choice.verdict.Wait? {
          TargetSettles(r, choice.verdict, end);
        }
      }
    }
    hide LegalTarget, LaunchCheck;
    TargetShape(AfterLaunchWork(r, w, s, live, created, bind, end).0);
  }

  lemma CheckSettles(r: TargetRecord, w: LaunchInputs)
    ensures var v := LaunchCheck(r, w);
        v.Some? && !v.value.Interrupted? ==>
          && (v.value.Wait? || v.value.Reject?) && !v.value.code.UnknownCode? && !v.value.message.OtherText?
          && (v.value.Wait? ==> v.value.next.LaunchWaitingAssets?)
  {
  }

  lemma CreatedVerdicts(r: TargetRecord, identity: Identity, created: Option<Session>, s: SessionInputs, now: Time)
    ensures var choice := ChooseCreated(r, identity, created, s, now);
        choice.NoSession? ==>
          || choice.verdict.Interrupted? || choice.verdict.LostRecord?
          || choice.verdict == Reject(LaunchFailed, ContinuationConflict)
          || choice.verdict == Wait(LaunchWaitingAssets, LaunchFailed, ContinuationNotReady)
  {
    hide BindLocator;
  }

  // ---- the proof ---------------------------------------------------------------------------------------------

  /** Between devices that agree on an accepted continuation, the target's answer carries the proof to the source
      exactly once its session acknowledged the context, and before that it tells the source to wait. */
  lemma ProofReaches(source: SourceRecord, r: TargetRecord)
    requires ValidSource(source) && ValidTarget(r) && source.state.SourceAccepted? && r.state.TargetAccepted?
    requires source.manifest == r.manifest && source.locator == r.locator && source.contextLoaded.None?
    requires source.revision < LastRevision
    ensures r.locator.Some?
    ensures var answer := Answer(VerificationOf(r));
            && AboutTheContinuation(source, answer)
            && (CarriesProof(source, answer) <==> r.contextLoaded.Some?)
            && (CarriesProof(source, answer) ==> answer.value.ack == r.contextLoaded)
            && (r.contextLoaded.None? ==> !answer.value.contextLoaded && answer.value.state.ProofPending?)
  {
    SourceShape(source);
    TargetShape(r);
    hide ValidSource, ValidTarget, ValidManifest;
  }
}
