/**
 What each source operation of internal/daemon/handoff_outbox.go leaves and answers, stated on
 its inputs: the stored record, the target's answer, the catalog's entry and the clock.
 */
module SourceOutcomes {
  import opened Wrappers
  import opened Records
  import opened RecordStore
  import opened StoreLaws
  import opened Outbox

  const LastRevision: nat := 0xFFFF_FFFF_FFFF_FFFF
  const FifteenSeconds: nat := 15_000_000_000

  /** The call errors that end a preparation for good. */
  predicate FatalPrepareError(e: CallError) {
    e.PermissionDenied? || e.InvalidRequestCode? || e.PayloadTooLarge? || e.UnsupportedMethod? || e.MethodNotRegistered?
  }

  /** The call errors that end a launch for good; here a missing grant is worth waiting for. */
  predicate FatalLaunchError(e: CallError) {
    e.InvalidRequestCode? || e.PayloadTooLarge? || e.UnsupportedMethod? || e.MethodNotRegistered?
  }

  /** The target answers for this very handoff. */
  predicate OwnAnswer(r: SourceRecord, reply: Reply<Status>) {
    reply.Answer? && reply.value.id == r.manifest.id && reply.value.digest == r.digest
  }

  /** The target is past the preparation. */
  predicate PastPreparation(s: TargetState) { s.Launching? || s.LaunchWaitingAssets? || s.TargetAccepted? }

  predicate PastPreparing(s: SourceState) { s.LaunchingRemote? || s.LaunchRetryWait? || s.SourceAccepted? }

  /** The named code of the target's own failure, if it gave one. */
  predicate Named(remote: Status) { remote.failure.Some? && !remote.failure.value.code.UnknownCode? }

  function LaterOf(a: Time, b: Time): Time { if a <= b then b else a }

  // ---- the three ways a call ends ------------------------------------------------------------------------

  /** The record waits, with this retryable failure, for 15 seconds after the write. */
  predicate Waits(r: SourceRecord, r': SourceRecord, state: SourceState, code: FailureCode, message: Message,
      now: Time) {
    var at := LaterOf(now, r.updated);
    r' == r.(state := state, revision := r.revision + 1, updated := at, nextRetry := Some(at + FifteenSeconds),
             failure := Some(Failure(code, message, true, at)))
  }

  /** The record has failed for good, with this failure. */
  predicate EndsFailed(r: SourceRecord, r': SourceRecord, code: FailureCode, message: Message, now: Time) {
    var at := LaterOf(now, r.updated);
    r' == r.(state := SourceFailed, revision := r.revision + 1, updated := at,
             failure := Some(Failure(code, message, false, at)))
  }

  /** The record has gone on, with this locator. */
  predicate Advances(r: SourceRecord, r': SourceRecord, state: SourceState, locator: Option<Locator>, now: Time) {
    r' == r.(state := state, revision := r.revision + 1, updated := LaterOf(now, r.updated), locator := locator)
  }

  /** What settling one verdict writes, for a record in a call. */
  lemma Settles(r: SourceRecord, v: Verdict, now: Time)
    requires ValidSource(r) && (r.state.PreparingRemote? || r.state.LaunchingRemote?) && r.revision < LastRevision
    requires LegalSource(r.state, VerdictState(v))
    requires v.Advance? ==> v.next.RemotePrepared? || v.next.SourceAccepted?
    requires v.Retry? ==> v.next.RetryWait? || v.next.LaunchRetryWait?
    requires !v.Advance? ==> !v.code.UnknownCode? && !v.message.OtherText?
    ensures var (r', answer) := Finish(r, v, now);
            var stored := v.Advance? ==>
              (v.next.SourceAccepted? <==> v.locator.Some?) && OnTarget(v.locator, r.manifest);
            && (stored ==> ValidSource(r') && r'.state == VerdictState(v) && answer == Ok(ViewOf(r')))
            && (!stored ==> r' == r && answer == Err(OutboxConflict))
            && (v.Retry? ==> Waits(r, r', v.next, v.code, v.message, now))
            && (v.Fail? ==> EndsFailed(r, r', v.code, v.message, now))
            && (v.Advance? && stored ==> Advances(r, r', v.next, v.locator, now))
  {
    SourceMoves(r, r.revision, VerdictState(v), Settled(r, v, now), now);
    SourceShape(r);
    hide SourceTransition, ValidSource, ViewOf, LegalSource, ValidManifest, OnTarget;
    assert Finish(r, v, now).0 != r ==> Settle(r, v, now).Ok?;
    assert Settle(r, v, now).Ok? ==> ValidSource(Settle(r, v, now).value) by {
      TransitionIsValid(r, r.revision, VerdictState(v), Settled(r, v, now), now);
    }
  }

  lemma TransitionIsValid(r: SourceRecord, expected: nat, next: SourceState, t: Transition, clock: Time)
    ensures var res := SourceTransition(r, expected, next, t, clock); res.Ok? ==> ValidSource(res.value)
  {
    hide ValidSource;
  }

  // ---- preparation ---------------------------------------------------------------------------------------

  /** An attempt may call the target for this record. */
  predicate PrepareDue(r: SourceRecord, force: bool, due: Time) {
    || r.state.Queued? || r.state.PreparingRemote?
    || (r.state.RetryWait? && (force || (r.nextRetry.Some? && r.nextRetry.value <= due)))
  }

  predicate LaunchDue(r: SourceRecord, force: bool, due: Time) {
    || r.state.RemotePrepared? || r.state.LaunchingRemote?
    || (r.state.LaunchRetryWait? && (force || (r.nextRetry.Some? && r.nextRetry.value <= due)))
  }

  /** The record while the target is called: entered by one write, or found so after an interrupted call. */
  function InCall(r: SourceRecord, calling: SourceState, now: Time): SourceRecord {
    if r.state == calling then r
    else r.(state := calling, revision := r.revision + 1, updated := LaterOf(now, r.updated), nextRetry := None,
            failure := None,
            attempts := if calling.LaunchingRemote? then r.attempts
              else if r.attempts % 0x1_0000_0000 == 0xFFFF_FFFF then 0 else r.attempts % 0x1_0000_0000 + 1)
  }

  lemma Enters(r: SourceRecord, calling: SourceState, now: Time)
    requires ValidSource(r) && (calling.PreparingRemote? || calling.LaunchingRemote?)
    ensures Enter(r, calling, now) ==
              if LegalSource(r.state, calling) && r.revision < LastRevision && r.state != calling
              then Call(InCall(r, calling, now)) else Stop(Err(OutboxConflict))
    ensures Enter(r, calling, now).Call? ==> ValidSource(InCall(r, calling, now))
  {
    var t := Transition(TransitionTime(now, r.updated), None, None, None);
    SourceShape(r);
    SourceEntries(r.state);
    SourceMoves(r, r.revision, calling, t, now);
    TransitionIsValid(r, r.revision, calling, t, now);
    hide SourceTransition, ValidSource, ValidManifest, LegalSource;
  }

  /** When an attempt calls the target, and what it answers at once otherwise. */
  lemma PrepareCalls(r: SourceRecord, force: bool, due: Time, now: Time)
    requires ValidSource(r)
    ensures PreparePlan(r, force, due, now) ==
              if PastPreparing(r.state) then Stop(Err(OutboxConflict))
              else if !PrepareDue(r, force, due) then Stop(Ok(ViewOf(r)))
              else if r.state != PreparingRemote && r.revision >= LastRevision then Stop(Err(OutboxConflict))
              else Call(InCall(r, PreparingRemote, now))
    ensures PreparePlan(r, force, due, now).Call? ==> ValidSource(PreparePlan(r, force, due, now).record)
  {
    SourceShape(r);
    SourceEntries(r.state);
    Enters(r, PreparingRemote, now);
    hide ValidSource, ValidManifest, Enter, LegalSource, ViewOf;
  }

  lemma LaunchCalls(r: SourceRecord, force: bool, due: Time, now: Time)
    requires ValidSource(r)
    ensures LaunchPlan(r, force, due, now) ==
              if (r.state.Queued? || r.state.PreparingRemote? || r.state.RetryWait?) then Stop(Err(OutboxConflict))
              else if !LaunchDue(r, force, due) then Stop(Ok(ViewOf(r)))
              else if r.state != LaunchingRemote && r.revision >= LastRevision then Stop(Err(OutboxConflict))
              else Call(InCall(r, LaunchingRemote, now))
    ensures LaunchPlan(r, force, due, now).Call? ==> ValidSource(LaunchPlan(r, force, due, now).record)
  {
    SourceShape(r);
    SourceEntries(r.state);
    Enters(r, LaunchingRemote, now);
    hide ValidSource, ValidManifest, Enter, LegalSource, ViewOf;
  }

  /** A preparing call goes on exactly when the target answers `prepared` for this very handoff. It ends the handoff
      for good exactly on the named call errors, on an answer for another handoff or from another phase, or when the
      target itself rejected. After everything else the record waits 15 seconds with a retryable failure. */
  lemma PreparingCallEnds(r: SourceRecord, reply: Reply<Status>, now: Time)
    requires ValidSource(r) && r.state.PreparingRemote? && r.revision < LastRevision
    ensures var (r', answer) := Finish(r, PrepareVerdict(r, reply), now);
            && ValidSource(r') && answer == Ok(ViewOf(r'))
            && (r'.state.RemotePrepared? <==> OwnAnswer(r, reply) && reply.value.state.Prepared?)
            && (r'.state.SourceFailed? <==>
                  if reply.Failed? then FatalPrepareError(reply.error)
                  else !OwnAnswer(r, reply) || reply.value.state.Rejected? || PastPreparation(reply.value.state))
            && (r'.state.RemotePrepared? || r'.state.SourceFailed? || r'.state.RetryWait?)
            && (r'.state.RemotePrepared? ==> Advances(r, r', RemotePrepared, None, now))
            && (r'.state.RetryWait? ==>
                  if reply.Failed? then Waits(r, r', RetryWait, Unavailable, PeerUnavailable, now)
                  else if reply.value.state.WaitingAssets? then
                    Waits(r, r', RetryWait, MissingAsset, TargetAwaitsAssets, now)
                  else Waits(r, r', RetryWait, Unavailable, PreparationInProgress, now))
            && (r'.state.SourceFailed? ==>
                  if reply == Failed(PermissionDenied) then EndsFailed(r, r', Unauthorized, PreparationDenied, now)
                  else if reply == Failed(MethodNotRegistered) then
                    EndsFailed(r, r', Internal, PrepareProtocolMissing, now)
                  else if reply.Failed? then EndsFailed(r, r', InvalidManifest, HandoffRequestRefused, now)
                  else if !OwnAnswer(r, reply) then EndsFailed(r, r', Conflict, ConflictingIdentity, now)
                  else if !reply.value.state.Rejected? then EndsFailed(r, r', Conflict, OutsidePreparation, now)
                  else EndsFailed(r, r', if Named(reply.value) then reply.value.failure.value.code
                    else VerificationFailed,
                    PreparationRejected, now))
  {
    hide Finish, ValidSource, ValidManifest, ViewOf, Waits, EndsFailed, Advances;
    SourceEntries(r.state);
    Settles(r, PrepareVerdict(r, reply), now);
    hide LegalSource;
  }

  /** At the last revision no verdict can be stored. */
  lemma NothingMoreIsStored(r: SourceRecord, v: Verdict, now: Time)
    requires ValidSource(r) && r.revision == LastRevision
    ensures Finish(r, v, now) == (r, Err(OutboxConflict))
  {
    SourceMoves(r, r.revision, VerdictState(v), Settled(r, v, now), now);
    hide SourceTransition, ValidSource, LegalSource;
  }

  /** A call and its verdict need one write, or two when the record is not yet in the call. */
  predicate Room(r: SourceRecord, calling: SourceState) {
    r.revision + (if r.state == calling then 0 else 1) < LastRevision
  }

  /** The whole attempt, from the stored record: a due record is left prepared, failed or waiting by exactly the answers
      above, and any other record is left as it is. Only at the end of the revision counter an attempt is cut short. */
  lemma PreparationLeaves(r: SourceRecord, force: bool, reply: Reply<Status>, due: Time, begin: Time, end: Time)
    requires ValidSource(r)
    ensures var (r', answer) := AfterPrepare(r, force, reply, due, begin, end);
        var called := InCall(r, PreparingRemote, begin);
            && ValidSource(r')
            && (answer.Ok? ==> answer == Ok(ViewOf(r')))
            && (answer.Err? ==> answer == Err(OutboxConflict))
            && (answer.Err? <==> PastPreparing(r.state)
                                 || (PrepareDue(r, force, due) && !Room(r, PreparingRemote)))
            && (!PrepareDue(r, force, due) ==> r' == r)
            && (PrepareDue(r, force, due) && !Room(r, PreparingRemote) ==>
                  r' == if r.revision == LastRevision then r else called)
            && (PrepareDue(r, force, due) && Room(r, PreparingRemote) ==>
                  && (r'.state.RemotePrepared? <==> OwnAnswer(r, reply) && reply.value.state.Prepared?)
                  && (r'.state.SourceFailed? <==>
                        if reply.Failed? then FatalPrepareError(reply.error)
                        else !OwnAnswer(r, reply) || reply.value.state.Rejected? || PastPreparation(reply.value.state))
                  && (!r'.state.RemotePrepared? && !r'.state.SourceFailed? ==>
                        Waits(called, r', RetryWait, r'.failure.value.code, r'.failure.value.message, end)))
  {
    hide PreparePlan, Finish, PrepareVerdict, ValidSource, ValidManifest, ViewOf, FatalPrepareError, EndsFailed,
      Advances;
    PrepareCalls(r, force, due, begin);
    DueStates(r);
    var called := InCall(r, PreparingRemote, begin);
    if PreparePlan(r, force, due, begin) == Call(called) && called.revision < LastRevision {
      PreparingCallEnds(called, reply, end);
    } else if PreparePlan(r, force, due, begin) == Call(called) && called.revision == LastRevision {
      NothingMoreIsStored(called, PrepareVerdict(called, reply), end);
    }
  }

  lemma DueStates(r: SourceRecord)
    requires ValidSource(r)
    ensures r.nextRetry.Some? <==> r.state.RetryWait? || r.state.LaunchRetryWait?
    ensures r.revision <= LastRevision
  {
    hide ValidManifest, ValidAck, ValidRetirement, ValidLocator, ValidFailure;
  }

  // ---- launch --------------------------------------------------------------------------------------------

  /** A session id as the session view admits it: longer than stored ids may be, and with colons. */
  predicate ShownID(s: string) {
    1 <= |s| <= 256 && IsAlnum(s[0]) && forall i :: 0 <= i < |s| ==> IsAlnum(s[i]) || s[i] in "._-:"
  }

  /** The target names a continuation of its own, in its root scope. */
  predicate NamesContinuation(r: SourceRecord, remote: Status) {
    && remote.locator.Some? && remote.locator.value.device == r.manifest.target.device
    && remote.locator.value.scope == "root" && ShownID(remote.locator.value.session)
  }

  lemma AcceptableExactly(r: SourceRecord, remote: Status)
    requires ValidSource(r)
    ensures AcceptableLocator(r, remote.locator) <==> NamesContinuation(r, remote)
    ensures NamesContinuation(r, remote) ==>
        (OnTarget(remote.locator, r.manifest) <==> ValidID(remote.locator.value.session))
    ensures remote.locator.Some? && ValidID(remote.locator.value.session) ==> ShownID(remote.locator.value.session)
  {
    hide ValidSource;
    DeviceIsID(r);
  }

  lemma DeviceIsID(r: SourceRecord)
    requires ValidSource(r)
    ensures ValidID(r.manifest.target.device)
  {
    hide ValidID, ValidFields, ValidAck, ValidRetirement;
  }

  /** A launching call is accepted exactly when the target accepted this very handoff with a continuation of its own
      that the store admits. It ends the handoff for good exactly on the named call errors, on an answer for another
      handoff or from the preparation phase, on an acceptance without a continuation, or when the target itself
      rejected. A continuation with an id that only the session view admits leaves the record in the call. After
      everything else the record waits 15 seconds with a retryable failure. */
  lemma LaunchingCallEnds(r: SourceRecord, reply: Reply<Status>, now: Time)
    requires ValidSource(r) && r.state.LaunchingRemote? && r.revision < LastRevision
    ensures var (r', answer) := Finish(r, LaunchVerdict(r, reply), now);
            var accepted := OwnAnswer(r, reply) && reply.value.state.TargetAccepted?;
            && (r'.state.SourceAccepted? <==>
                  accepted && NamesContinuation(r, reply.value) && ValidID(reply.value.locator.value.session))
            && (r'.state.SourceFailed? <==>
                  if reply.Failed? then FatalLaunchError(reply.error)
                  else || !OwnAnswer(r, reply) || reply.value.state.Rejected?
                       || (accepted && !NamesContinuation(r, reply.value))
                       || (!reply.value.state.Rejected? && !PastPreparation(reply.value.state)))
            && (r'.state.LaunchingRemote? <==>
                  accepted && NamesContinuation(r, reply.value) && !ValidID(reply.value.locator.value.session))
            && (r'.state.SourceAccepted? || r'.state.SourceFailed? || r'.state.LaunchingRemote?
                || r'.state.LaunchRetryWait?)
            && (r'.state.LaunchingRemote? ==> r' == r && answer == Err(OutboxConflict))
            && (!r'.state.LaunchingRemote? ==> ValidSource(r') && answer == Ok(ViewOf(r')))
            && (r'.state.SourceAccepted? ==> Advances(r, r', SourceAccepted, reply.value.locator, now))
            && (r'.state.LaunchRetryWait? ==>
                  if reply == Failed(PermissionDenied) then
                    Waits(r, r', LaunchRetryWait, Unauthorized, LaunchNotGranted, now)
                  else if reply.Failed? then Waits(r, r', LaunchRetryWait, Unavailable, PeerUnavailable, now)
                  else if reply.value.state.Launching? then
                    Waits(r, r', LaunchRetryWait, Unavailable, LaunchInProgress, now)
                  else Waits(r, r', LaunchRetryWait,
                    if Named(reply.value) then reply.value.failure.value.code
                      else LaunchFailed, LaunchAwaitsReadiness, now))
            && (r'.state.SourceFailed? ==>
                  if reply == Failed(MethodNotRegistered) then EndsFailed(r, r', Internal, LaunchProtocolMissing, now)
                  else if reply.Failed? then EndsFailed(r, r', InvalidManifest, LaunchRequestRefused, now)
                  else if !OwnAnswer(r, reply) then EndsFailed(r, r', Conflict, ConflictingIdentity, now)
                  else if accepted then EndsFailed(r, r', Conflict, AcceptedWithoutLocator, now)
                  else if !reply.value.state.Rejected? then EndsFailed(r, r', Conflict, OutsideLaunch, now)
                  else EndsFailed(r, r', if Named(reply.value) then reply.value.failure.value.code else LaunchFailed,
                    LaunchRejected, now))
  {
    hide Finish, ValidSource, ValidManifest, ViewOf, Waits, EndsFailed, Advances, OnTarget, AcceptableLocator,
      NamesContinuation, ValidID;
    SourceEntries(r.state);
    if reply.Answer? { AcceptableExactly(r, reply.value); }
    LaunchVerdictFits(r, reply);
    Settles(r, LaunchVerdict(r, reply), now);
    hide LegalSource;
  }

  lemma LaunchVerdictFits(r: SourceRecord, reply: Reply<Status>)
    requires r.state.LaunchingRemote?
    ensures var v := LaunchVerdict(r, reply);
            && LegalSource(r.state, VerdictState(v))
            && (v.Advance? ==> v.next.SourceAccepted? && v.locator.Some?) && (v.Retry? ==> v.next.LaunchRetryWait?)
            && (!v.Advance? ==> !v.code.UnknownCode? && !v.message.OtherText?)
  {
    hide ValidSessionViewID;
  }

  /** The whole launch attempt, from the stored record. */
  lemma LaunchLeaves(r: SourceRecord, force: bool, reply: Reply<Status>, due: Time, begin: Time, end: Time)
    requires ValidSource(r)
    ensures var (r', answer) := AfterLaunch(r, force, reply, due, begin, end);
        var called := InCall(r, LaunchingRemote, begin);
            var accepted := OwnAnswer(r, reply) && reply.value.state.TargetAccepted?;
            var unstorable := accepted && NamesContinuation(r, reply.value)
              && !ValidID(reply.value.locator.value.session);
            && ValidSource(r')
            && (answer.Ok? ==> answer == Ok(ViewOf(r')))
            && (answer.Err? ==> answer == Err(OutboxConflict))
            && (answer.Err? <==>
                  || r.state.Queued? || r.state.PreparingRemote? || r.state.RetryWait?
                  || (LaunchDue(r, force, due) && (!Room(r, LaunchingRemote) || unstorable)))
            && (!LaunchDue(r, force, due) ==> r' == r)
            && (LaunchDue(r, force, due) && (!Room(r, LaunchingRemote) || unstorable) ==>
                  r' == if r.revision == LastRevision then r else called)
            && (LaunchDue(r, force, due) && Room(r, LaunchingRemote) && !unstorable ==>
                  && (r'.state.SourceAccepted? <==> accepted && NamesContinuation(r, reply.value))
                  && (r'.state.SourceAccepted? ==> Advances(called, r', SourceAccepted, reply.value.locator, end))
                  && (r'.state.SourceFailed? <==>
                        if reply.Failed? then FatalLaunchError(reply.error)
                        else || !OwnAnswer(r, reply) || reply.value.state.Rejected?
                             || (accepted && !NamesContinuation(r, reply.value))
                             || (!reply.value.state.Rejected? && !PastPreparation(reply.value.state)))
                  && (!r'.state.SourceAccepted? && !r'.state.SourceFailed? ==>
                        Waits(called, r', LaunchRetryWait, r'.failure.value.code, r'.failure.value.message, end)))
  {
    hide LaunchPlan, Finish, LaunchVerdict, ValidSource, ValidManifest, ViewOf, FatalLaunchError, EndsFailed, ShownID,
      ValidID;
    LaunchCalls(r, force, due, begin);
    DueStates(r);
    var called := InCall(r, LaunchingRemote, begin);
    if LaunchPlan(r, force, due, begin) == Call(called) && called.revision < LastRevision {
      LaunchingCallEnds(called, reply, end);
    } else if LaunchPlan(r, force, due, begin) == Call(called) && called.revision == LastRevision {
      NothingMoreIsStored(called, LaunchVerdict(called, reply), end);
    }
  }

  // ---- verification ------------------------------------------------------------------------------------------

  /** What the operator is shown of a stored record: every field of it but the times and the manifest's content. */
  lemma OperatorSees(r: SourceRecord)
    requires ValidSource(r)
    ensures var v := ViewOf(r);
            && v.id == r.manifest.id && v.digest == r.digest && v.state == r.state && v.attempts == r.attempts
            && v.sourceSession == r.manifest.source && v.locator == r.locator
            && (v.locator.Some? <==> v.state.SourceAccepted?)
            && (v.failure.Some? <==> v.state.RetryWait? || v.state.LaunchRetryWait? || v.state.SourceFailed?)
            && (v.failure.Some? ==>
                  r.failure == Some(Failure(v.failure.value.code, v.failure.value.message, v.failure.value.retryable,
                    r.failure.value.at)))
            && (v.verification.NotReady? <==> v.locator.None?)
            && (v.verification.ProofLoaded? <==> r.contextLoaded.Some?)
            && (v.verification.ProofPending? <==> v.locator.Some? && r.contextLoaded.None?)
            && (v.contextLoaded <==> v.verification.ProofLoaded?)
            && (v.retirement.NotRequested? <==> r.retirement.None?)
            && (v.retirement.RetirementDone? <==> r.retirement.Some? && r.retirement.value.retiredAt.Some?)
            && (!v.retirement.NotRequested? ==> v.contextLoaded)
  {
    SourceShape(r);
    if r.retirement.Some? { RetirementShape(r.retirement.value); }
    hide ValidSource, ValidManifest, ValidRetirement;
  }

  /** The target's answer is about the very continuation that the source accepted. */
  predicate AboutTheContinuation(r: SourceRecord, reply: Reply<Verification>) {
    && reply.Answer? && reply.value.id == r.manifest.id && reply.value.digest == r.digest
    && Some(reply.value.locator) == r.locator
  }

  /** The answer carries the context's proof for it, and the record can take it. */
  predicate CarriesProof(r: SourceRecord, reply: Reply<Verification>) {
    && AboutTheContinuation(r, reply) && reply.value.contextLoaded && reply.value.state.ProofLoaded?
    && reply.value.ack.Some? && reply.value.ack.value.at > 0 && r.locator.Some?
    && reply.value.ack.value == Ack(ContextLoaded, r.digest, r.locator.value, reply.value.ack.value.at)
    && (r.contextLoaded == reply.value.ack || (r.contextLoaded.None? && r.revision < LastRevision))
  }

  /** A verification stores a proof exactly when the answer carries one for this continuation and none is stored, and
      it tells the operator why there is none otherwise. */
  lemma VerificationLeaves(r: SourceRecord, reply: Reply<Verification>, now: Time)
    requires ValidSource(r) && r.state.SourceAccepted?
    ensures r.locator.Some?
    ensures var (r', view) := AfterVerify(r, reply, now);
            && ValidSource(r')
            && r' == (if CarriesProof(r, reply) && r.contextLoaded.None?
                      then r.(contextLoaded := reply.value.ack, revision := r.revision + 1, updated :=
                        LaterOf(now, r.updated))
                      else r)
            && view == ViewOf(r').(contextLoaded := CarriesProof(r, reply), verification := view.verification)
            && (view.verification.ProofLoaded? <==> CarriesProof(r, reply))
            && (view.verification.ProofUnavailable? <==>
                  reply.Failed? && !reply.error.InvalidRequestCode? && !reply.error.PermissionDenied?)
            && (view.verification.ProofPending? <==>
                  AboutTheContinuation(r, reply) && !(reply.value.contextLoaded && reply.value.state.ProofLoaded?))
            && !view.verification.NotReady?
  {
    SourceShape(r);
    if reply.Answer? && reply.value.ack.Some? {
      Proves(r, r.revision, reply.value.ack.value, TransitionTime(now, r.updated), now);
      ProofIsValid(r, r.revision, reply.value.ack.value, TransitionTime(now, r.updated), now);
    }
    hide RecordContext, ValidSource, ValidManifest, OnTarget;
  }

  lemma ProofIsValid(r: SourceRecord, expected: nat, ack: Ack, at: Time, clock: Time)
    requires ValidSource(r)
    ensures var res := RecordContext(r, expected, ack, at, clock); res.Ok? ==> ValidSource(res.value)
  {
    hide ValidSource, ValidAck;
  }

  // ---- retirement --------------------------------------------------------------------------------------------

  /** The catalog shows the very session that was handed off. */
  predicate ShowsSource(r: SourceRecord, seen: Option<Detail>) {
    seen.Some? && seen.value.scope == r.manifest.source.scope && seen.value.session == r.manifest.source.session
  }

  predicate RetirementPendingIn(r: SourceRecord) { r.retirement.Some? && r.retirement.value.retiredAt.None? }

  /** The operator's request is left on a proved record, on its own device, while the catalog shows the session; a
      repeated request must ask for the same, and everything else is a conflict. */
  lemma AskedExactlyWhen(r: SourceRecord, device: string, mode: RetirementMode, timeout: int, seen: Option<Detail>,
      now: Time)
    requires ValidSource(r)
    ensures var plan := RequestPlan(r, device, mode, timeout, seen, now); var at := LaterOf(now, r.updated);
            var turn := if seen.Some? then seen.value.turn else None;
            && (plan.Call? <==>
                  && r.contextLoaded.Some? && r.manifest.source.device == device
                  && if r.retirement.Some?
                     then r.retirement.value.mode == mode
                       && r.retirement.value.timeoutSeconds == timeout / 1_000_000_000
                     else && ShowsSource(r, seen) && r.revision < LastRevision
                          && (mode.Immediate? || mode.AfterTurnEnd?)
                          && timeout % 1_000_000_000 == 0 && 1 <= timeout / 1_000_000_000 <= 300
                          && (turn.Some? ==> turn.value.count >= 0 && turn.value.lastEnd != Some(0)))
            && (plan.Stop? ==> plan == Stop(Err(OutboxConflict)))
            && (plan.Call? && r.retirement.Some? ==> plan.record == r)
            && (plan.Call? && r.retirement.None? ==>
                  plan.record == r.(revision := r.revision + 1, updated := at,
                    retirement := Some(Retirement(mode, Pending, at, timeout / 1_000_000_000,
                      if turn.Some? then TurnObservation(turn.value.count, turn.value.lastEnd)
                        else TurnObservation(0, None),
                      None))))
  {
    SourceShape(r);
    if seen.Some? {
      Requests(r, r.revision, mode, timeout, Observation(seen.value), TransitionTime(now, r.updated), now);
    }
    hide RequestRetirement, ValidSource, ValidManifest, ValidRetirement;
  }

  /** A pending retirement may close exactly the session of the handoff, while it is shown running, and in deferred
      mode only on an end of the turn counted at the request, dated after the request. */
  lemma MayCloseExactlyWhen(r: SourceRecord, seen: Option<Detail>)
    requires ValidSource(r)
    ensures MayClose(r, seen) <==>
              && RetirementPendingIn(r) && ShowsSource(r, seen) && !seen.value.exited
              && (r.retirement.value.mode.Immediate?
                  || (&& seen.value.turn.Some? && seen.value.turn.value.lastEnd.Some?
                      && seen.value.turn.value.count == r.retirement.value.baseline.turnCount
                      && seen.value.turn.value.lastEnd.value > r.retirement.value.requestedAt))
  {
    SourceShape(r);
    if r.retirement.Some? { RetirementShape(r.retirement.value); }
    hide ValidSource, ValidManifest, ValidRetirement;
  }

  /** A pending retirement is over exactly when the catalog shows the session exited, at once or after a close that it
      permitted; a close request alone proves nothing. */
  lemma RetirementLeaves(r: SourceRecord, seen: Option<Detail>, closed: bool, after: Option<Detail>, now: Time)
    requires ValidSource(r) && (r.retirement.Some? ==> r.retirement.value.requestedAt <= r.updated)
    ensures var r' := AfterRetirePending(r, seen, closed, after, now); var at := LaterOf(now, r.updated);
            var over := RetirementPendingIn(r) && r.revision < LastRevision && ShowsSource(r, seen)
              && (seen.value.exited || (MayClose(r, seen) && closed && ShowsSource(r, after) && after.value.exited));
            && (over ==> r' == r.(revision := r.revision + 1, updated := at,
                  retirement := Some(r.retirement.value.(state := Retired, retiredAt := Some(at)))))
            && (!over ==> r' == r)
  {
    SourceShape(r);
    Completes(r, r.revision, TransitionTime(now, r.updated), now);
    if r.retirement.Some? { RetirementShape(r.retirement.value); }
    hide CompleteRetirement, ValidSource, ValidManifest, MayClose, ValidRetirement;
  }

  // ---- recovery ----------------------------------------------------------------------------------------------

  /** What the pass calls for a record that it takes up. */
  lemma PassIs(r: SourceRecord, at: Time, world: PassInput)
    requires ValidSource(r)
    ensures Reconciled(r, at, world) ==
              if at == 0 || !SourceUnfinished(r, at) then r
              else match r.state
                case SourceAccepted => AfterRetirePending(r, world.seen, world.closed, world.after, at)
                case LaunchingRemote => AfterLaunch(r, false, world.launch, at, at, at).0
                case LaunchRetryWait => AfterLaunch(r, false, world.launch, at, at, at).0
                case _ => AfterPrepare(r, false, world.prepare, at, at, at).0
  {
    RunnableExactly(r, at);
    hide ValidSource, AfterPrepare, AfterLaunch, AfterRetirePending, Runnable, SourceUnfinished;
  }

  /** One recovery pass leaves a record that is not due as it is, and resumes every other one in the phase it is in: the
      same scan would return it again only for a retirement still to be seen, for a continuation the store does not
      admit, or at the end of the revision counter. */
  lemma PassLeaves(r: SourceRecord, at: Time, world: PassInput)
    requires ValidSource(r) && (r.retirement.Some? ==> r.retirement.value.requestedAt <= r.updated)
    ensures at == 0 ==> Reconciled(r, at, world) == r
    ensures var r' := Reconciled(r, at, world);
            at > 0 ==>
            && (!SourceUnfinished(r, at) ==> r' == r)
            && (SourceUnfinished(r, at) && (r.state.Queued? || r.state.PreparingRemote? || r.state.RetryWait?)
                && Room(r, PreparingRemote) ==>
                  && !SourceUnfinished(r', at)
                  && (r'.state.RemotePrepared? <==> OwnAnswer(r, world.prepare) && world.prepare.value.state.Prepared?)
                  && (r'.state.SourceFailed? <==>
                        if world.prepare.Failed? then FatalPrepareError(world.prepare.error)
                        else || !OwnAnswer(r, world.prepare) || world.prepare.value.state.Rejected?
                             || PastPreparation(world.prepare.value.state)))
            && (SourceUnfinished(r, at) && (r.state.LaunchingRemote? || r.state.LaunchRetryWait?)
                && Room(r, LaunchingRemote) ==>
                  && (SourceUnfinished(r', at) <==>
                        && OwnAnswer(r, world.launch) && world.launch.value.state.TargetAccepted?
                        && NamesContinuation(r, world.launch.value)
                          && !ValidID(world.launch.value.locator.value.session))
                  && (r'.state.SourceAccepted? <==>
                        && OwnAnswer(r, world.launch) && world.launch.value.state.TargetAccepted?
                        && NamesContinuation(r, world.launch.value)
                          && ValidID(world.launch.value.locator.value.session)))
            && (SourceUnfinished(r, at) && r.state.SourceAccepted? && r.revision < LastRevision ==>
                  (!SourceUnfinished(r', at) <==>
                     && ShowsSource(r, world.seen)
                     && (world.seen.value.exited
                         || (MayClose(r, world.seen) && world.closed && ShowsSource(r, world.after)
                             && world.after.value.exited))))
  {
    hide ValidSource, ValidManifest, AfterPrepare, AfterLaunch, AfterRetirePending, FatalPrepareError, MayClose,
      ShownID,
      ValidID, Reconciled, ValidRetirement;
    PassIs(r, at, world);
    SourceShape(r);
    match r.state
    case SourceAccepted => RetirementLeaves(r, world.seen, world.closed, world.after, at);
    case LaunchingRemote => LaunchLeaves(r, false, world.launch, at, at, at);
    case LaunchRetryWait => LaunchLeaves(r, false, world.launch, at, at, at);
    case _ => PreparationLeaves(r, false, world.prepare, at, at, at);
  }
}
