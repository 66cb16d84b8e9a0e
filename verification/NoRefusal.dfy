/**
 No transition the two applications ask for is refused by the store: with the record in hand
 the stored one, for every clock reading (also one that runs backwards), the only way a
 write can fail is the end of the revision counter.
 */
module NoRefusal {
  import opened Wrappers
  import opened Records
  import opened RecordStore
  import opened Sessions
  import opened Outbox
  import opened Application
  import opened HandoffWorld
  import opened WorldInvariant
  import opened TargetInvariant
  import opened WorldTheorems
  import opened HandoffTheorems

  // ---- the source's writes ------------------------------------------------------------------------

  lemma EnterAccepted(r: SourceRecord, next: SourceState, now: Time)
    requires ValidSource(r) && LegalSource(r.state, next) && (next.PreparingRemote? || next.LaunchingRemote?)
    ensures Enter(r, next, now).Call? <==> r.revision < MaxUint64
  {
    hide ValidManifest, ValidRetirement, ValidAck, ViewOf;
  }

  /** A plan only stops with an error when the operation is for another phase. */
  lemma PlansAccepted(r: SourceRecord, force: bool, due: Time, now: Time)
    requires ValidSource(r) && r.revision < MaxUint64
    ensures PreparePlan(r, force, due, now) == Stop(Err(OutboxConflict)) <==> SourceInLaunch(r.state)
    ensures LaunchPlan(r, force, due, now) == Stop(Err(OutboxConflict)) <==>
        r.state.Queued? || r.state.PreparingRemote? || r.state.RetryWait?
  {
    hide ValidSource, Enter, ViewOf;
    if LegalSource(r.state, PreparingRemote) { EnterAccepted(r, PreparingRemote, now); }
    if LegalSource(r.state, LaunchingRemote) { EnterAccepted(r, LaunchingRemote, now); }
    EnterStops(r, PreparingRemote, now);
    EnterStops(r, LaunchingRemote, now);
  }

  lemma EnterStops(r: SourceRecord, next: SourceState, now: Time)
    ensures Enter(r, next, now).Stop? ==> Enter(r, next, now) == Stop(Err(OutboxConflict))
  {
    hide SourceTransition;
  }

  /** What any verdict must look like for its write to pass: a known code, a named message. */
  predicate KnownFailure(code: FailureCode, message: Message) { !code.UnknownCode? && !message.OtherText? }

  predicate KnownVerdict(v: Verdict) {
    match v
    case Advance(_, _) => true
    case Retry(_, code, message) => KnownFailure(code, message)
    case Fail(code, message) => KnownFailure(code, message)
  }

  lemma VerdictsAreKnown(r: SourceRecord, reply: Reply<Status>)
    ensures KnownVerdict(PrepareVerdict(r, reply)) && KnownVerdict(LaunchVerdict(r, reply))
  {
    hide AcceptableLocator;
  }

  /** The states a verdict may lead to from the state its call was made in. */
  predicate FitsPhase(r: SourceRecord, v: Verdict) {
    if r.state.PreparingRemote? then v == Advance(RemotePrepared, None) || (v.Retry? && v.next.RetryWait?) || v.Fail?
    else r.state.LaunchingRemote?
         && ((v.Advance? && v.next.SourceAccepted? && AcceptableLocator(r, v.locator))
           || (v.Retry? && v.next.LaunchRetryWait?) || v.Fail?)
  }

  lemma VerdictsFit(r: SourceRecord, reply: Reply<Status>)
    ensures r.state.PreparingRemote? ==> FitsPhase(r, PrepareVerdict(r, reply))
    ensures r.state.LaunchingRemote? ==> FitsPhase(r, LaunchVerdict(r, reply))
  {
    hide AcceptableLocator, RemoteCode;
  }

  /** A verdict's write is refused only at the last revision, or for a session id that the session view admits and
      the store does not. */
  lemma SettleAccepted(r: SourceRecord, v: Verdict, now: Time)
    requires ValidSource(r) && KnownVerdict(v) && FitsPhase(r, v)
    ensures Settle(r, v, now).Ok? <==>
              r.revision < MaxUint64 && (v.Advance? && v.next.SourceAccepted? ==> ValidID(v.locator.value.session))
  {
    assert ValidManifest(r.manifest) ==> ValidID(r.manifest.target.device);
    hide ValidManifest, ValidRetirement, ValidAck, ValidSessionViewID, ValidID, ValidMessageText;
  }

  lemma ProofAccepted(r: SourceRecord, ack: Ack, now: Time)
    requires ValidSource(r) && r.state.SourceAccepted? && r.locator.Some? && r.contextLoaded.None?
        && ValidAck(ack, r.digest, r.locator.value)
    ensures RecordContext(r, r.revision, ack, TransitionTime(now, r.updated), now).Ok? <==> r.revision < MaxUint64
  {
    hide ValidManifest, ValidRetirement, ValidLocator;
  }

  /** A first retirement request is refused exactly at the last revision, or for options or a turn observation the
      store does not admit. */
  lemma RequestAccepted(r: SourceRecord, mode: RetirementMode, timeout: int, baseline: TurnObservation, now: Time)
    requires ValidSource(r) && r.state.SourceAccepted? && r.contextLoaded.Some? && r.retirement.None?
    ensures RequestRetirement(r, r.revision, mode, timeout, baseline, TransitionTime(now, r.updated), now).Ok? <==>
              r.revision < MaxUint64 && ValidRetirementRequest(mode, timeout, baseline)
  {
    hide ValidManifest, ValidAck, ValidLocator;
  }

  lemma CompletionAccepted(r: SourceRecord, now: Time)
    requires ValidSource(r) && RetirementInOrder(r) && r.retirement.Some? && r.retirement.value.state.Pending?
    ensures CompleteRetirement(r, r.revision, TransitionTime(now, r.updated), now).Ok? <==> r.revision < MaxUint64
  {
    hide ValidManifest, ValidAck, ValidLocator;
  }

  // ---- the target's writes ------------------------------------------------------------------------------

  lemma EnterTargetAccepted(r: TargetRecord, next: TargetState, now: Time)
    requires ValidTarget(r) && LegalTarget(r.state, next) && (next.Validating? || next.Launching?)
    ensures EnterTarget(r, next, now).Work? <==> r.revision < MaxUint64
  {
    hide ValidManifest, ValidAck, ValidLocator;
  }

  predicate KnownTargetVerdict(v: TargetVerdict) {
    (v.Wait? || v.Reject? ==> KnownFailure(v.code, v.message))
  }

  /** Every verdict the target reaches is one its phase allows, with a known failure. */
  lemma TargetVerdictsAreKnown(r: TargetRecord, p: PrepareInputs, l: LaunchInputs, identity: Identity, s: SessionInputs)
    ensures KnownTargetVerdict(PrepareVerdictFor(r, p))
        && (r.state.Validating? ==> Allowed(r, false, PrepareVerdictFor(r, p)))
    ensures LaunchCheck(r, l).Some? ==>
        KnownTargetVerdict(LaunchCheck(r, l).value)
        && (r.state.Launching? ==> Allowed(r, true, LaunchCheck(r, l).value))
    ensures KnownTargetVerdict(DeliveryVerdict(r, identity, s))
        && (r.state.Launching? ==> Allowed(r, true, DeliveryVerdict(r, identity, s)))
  {
    hide PollAll;
  }

  lemma TargetSettleAccepted(r: TargetRecord, launch: bool, v: TargetVerdict, now: Time)
    requires ValidTarget(r) && Allowed(r, launch, v) && KnownTargetVerdict(v) && !v.Interrupted? && !v.LostRecord?
    ensures TargetSettle(r, v, now).Ok? <==> r.revision < MaxUint64
  {
    hide ValidManifest, ValidAck, ValidLocator, ValidMessageText;
  }

  /** Binding a session is refused exactly for an id the store does not admit; the code then leaves the record
      launching, with no failure and no retry time. */
  lemma BindAccepted(r: TargetRecord, session: string, now: Time)
    requires ValidTarget(r) && r.state.Launching? && r.locator.None?
    ensures BindLocator(r, r.revision, LocatorFor(r, session), TransitionTime(now, r.updated), now).Ok? <==>
              r.revision < MaxUint64 && ValidID(session)
  {
    assert ValidManifest(r.manifest) ==> ValidID(r.manifest.target.device);
    hide ValidManifest, ValidAck, ValidID;
  }

  /** An acknowledgement, unlike the daemons' writes, is refused when its clock reads before the record's last write. */
  lemma AckAccepted(r: TargetRecord, at: Time, clock: Time)
    requires ValidTarget(r) && r.state.TargetAccepted? && r.locator.Some? && r.contextLoaded.None?
    ensures Acknowledge(r, ContextLoaded, r.locator.value.scope, r.locator.value.session, at, clock).Ok? <==>
              r.revision < MaxUint64 && Moment(at, clock) >= r.updated
  {
    hide ValidManifest, ValidID, ValidScope;
  }

  // ---- over every run ---------------------------------------------------------------------------------------

  /** The source's step asks for a write that the store refuses. */
  predicate SourceRefused(h: Handoff, e: SourceEvent)
    requires h.source.Some?
  {
    var stored, work := h.source.value, h.sourceWork;
    match e
    case StartPrepare(force, due, now) => BeforeLaunch(stored.state)
      && PreparePlan(stored, force, due, now) == Stop(Err(OutboxConflict))
    case OperatorLaunch(due, now) => SourceInLaunch(stored.state)
      && LaunchPlan(stored, true, due, now) == Stop(Err(OutboxConflict))
    case ResumeLaunch(force, due, now) => SourceInLaunch(stored.state)
      && LaunchPlan(stored, force, due, now) == Stop(Err(OutboxConflict))
    case EndPrepare(reply, now) => work.PreparingCall?
      && StoredVerdict(stored, work.record, PrepareVerdict(work.record, reply), now).Err?
    case EndLaunch(reply, now) => work.LaunchingCall?
      && StoredVerdict(stored, work.record, LaunchVerdict(work.record, reply), now).Err?
    case EndVerify(reply, now) => work.VerifyingCall? && work.record.locator.Some?
      && VerifiedRecord(stored, work.record, reply, now).Err?
    case AskRetire(device, mode, timeout, seen, now) =>
      && stored.state.SourceAccepted? && stored.contextLoaded.Some? && stored.manifest.source.device == device
      && stored.retirement.None? && ExactSource(stored, seen).Some?
        && ValidRetirementRequest(mode, timeout, Observation(seen.value))
      && RequestPlan(stored, device, mode, timeout, seen, now).Stop?
    case LookAtSource(seen, now) =>
      work.RetiringSource? && work.record.retirement.Some?
        && CompleteRetirement(stored, work.record.revision, TransitionTime(now, work.record.updated), now).Err?
    case SourceClosed(_, _, now) =>
      work.ClosingSource? && work.record.retirement.Some?
        && CompleteRetirement(stored, work.record.revision, TransitionTime(now, work.record.updated), now).Err?
    case _ => false
  }

  /** An answer is one the target gave to this call; a failed call needs no witness. */
  predicate HonestAnswer(h: Handoff, e: SourceEvent) {
    match e
    case EndPrepare(reply, _) => h.sourceWork.PreparingCall? && reply.Answer? ==>
      (h.sourceWork.call, reply.value) in h.net.prepareReplies
    case EndLaunch(reply, _) => h.sourceWork.LaunchingCall? && reply.Answer? ==>
      (h.sourceWork.call, reply.value) in h.net.launchReplies
    case EndVerify(reply, _) => h.sourceWork.VerifyingCall? && reply.Answer? ==>
      (h.sourceWork.call, reply.value) in h.net.verifyReplies
    case _ => true
  }

  lemma VerifyAccepted(id: string, h: Handoff, reply: Reply<Verification>, now: Time)
    requires Inv(id, h) && h.sourceWork.VerifyingCall? && h.sourceWork.record.locator.Some?
        && h.sourceWork.record.revision < MaxUint64
    requires reply.Answer? ==> (h.sourceWork.call, reply.value) in h.net.verifyReplies
    ensures h.source == Some(h.sourceWork.record) && VerifiedRecord(h.source.value, h.sourceWork.record, reply, now).Ok?
  {
    var r := h.sourceWork.record;
    assert h.source == Some(r) && ValidSource(r) && r.state.SourceAccepted?;
    if reply.Answer? && reply.value.ack.Some? {
      AckIsTargets(id, h, h.sourceWork.call, reply.value);
      hide Inv, ValidSource, ValidAck;
      if r.contextLoaded.None? { ProofAccepted(r, reply.value.ack.value, now); }
    }
  }

  lemma AckIsTargets(id: string, h: Handoff, call: nat, v: Verification)
    requires Inv(id, h) && (call, v) in h.net.verifyReplies && v.ack.Some? && h.source.Some?
        && h.source.value.state.SourceAccepted? && h.source.value.locator.Some?
    ensures ValidAck(v.ack.value, h.source.value.digest, h.source.value.locator.value)
    ensures h.source.value.contextLoaded.Some? ==> h.source.value.contextLoaded == v.ack
  {
    assert v.ack == h.target.value.contextLoaded && h.source.value.locator == h.target.value.locator;
    assert h.source.value.digest == h.target.value.digest;
    hide HandsInv, CallsInv, RepliesInv, PhaseInv, HistoryInv, ValidFields, ValidRetirement, ValidManifest;
  }

  lemma SourceNotRefused(id: string, h: Handoff, e: SourceEvent)
    requires Inv(id, h) && h.source.Some? && h.source.value.revision < MaxUint64 && HonestAnswer(h, e)
    ensures !SourceRefused(h, e)
  {
    var r := h.source.value;
    assert ValidSource(r) && RetirementInOrder(r);
    assert !h.sourceWork.SourceIdle? ==> h.sourceWork.record == r;
    assert h.sourceWork.PreparingCall? ==> r.state.PreparingRemote?;
    assert h.sourceWork.LaunchingCall? ==> r.state.LaunchingRemote?;
    hide ValidSource;
    match e
    case StartPrepare(force, due, now) => PlansAccepted(r, force, due, now);
    case OperatorLaunch(due, now) => PlansAccepted(r, true, due, now);
    case ResumeLaunch(force, due, now) => PlansAccepted(r, force, due, now);
    case EndPrepare(reply, now) =>
      hide Inv;
      if h.sourceWork.PreparingCall? {
        VerdictsAreKnown(r, reply);
        VerdictsFit(r, reply);
        hide SourceTransition, PrepareVerdict;
        SettleAccepted(r, PrepareVerdict(r, reply), now);
      }
    case EndLaunch(reply, now) =>
      if h.sourceWork.LaunchingCall? {
        VerdictsAreKnown(r, reply);
        VerdictsFit(r, reply);
        LaunchAnswerIsFit(id, h, reply);
        hide Inv, SourceTransition, LaunchVerdict;
        SettleAccepted(r, LaunchVerdict(r, reply), now);
      }
    case EndVerify(reply, now) =>
      hide Inv, VerifiedRecord;
      if h.sourceWork.VerifyingCall? && h.sourceWork.record.locator.Some? {
        VerifyAccepted(id, h, reply, now);
      }
    case AskRetire(device, mode, timeout, seen, now) =>
      hide Inv;
      if r.state.SourceAccepted? && r.contextLoaded.Some? && r.retirement.None? && ExactSource(r, seen).Some? {
        RequestAccepted(r, mode, timeout, Observation(seen.value), now);
        hide RequestRetirement, ValidRetirementRequest;
      }
    case LookAtSource(seen, now) =>
      hide Inv;
      if r.retirement.Some? && r.retirement.value.state.Pending? { CompletionAccepted(r, now); }
    case SourceClosed(_, _, now) =>
      hide Inv;
      if r.retirement.Some? && r.retirement.value.state.Pending? { CompletionAccepted(r, now); }
    case _ =>
  }

  lemma LaunchAnswerIsFit(id: string, h: Handoff, reply: Reply<Status>)
    requires Inv(id, h) && h.sourceWork.LaunchingCall?
        && (reply.Answer? ==> (h.sourceWork.call, reply.value) in h.net.launchReplies)
    ensures var v := LaunchVerdict(h.sourceWork.record, reply);
            v.Advance? ==> v.next.SourceAccepted? && v.locator.Some? && ValidID(v.locator.value.session)
  {
    if reply.Answer? {
      hide ValidID;
      LaunchAnswerIsAtHome(id, h, h.sourceWork.call, reply.value);
      hide Inv;
    }
  }

  /** In every run, no write the source asks for is refused before the revision counter ends. */
  lemma SourceNeverRefused(run: Run, i: nat, id: string, e: SourceEvent)
    requires IsRun(run) && i <= |run.events| && HonestAnswer(Get(run.worlds[i], id), e)
    requires Get(run.worlds[i], id).source.Some? && Get(run.worlds[i], id).source.value.revision < MaxUint64
    ensures !SourceRefused(Get(run.worlds[i], id), e)
  {
    HandoffInv(run, i, id);
    hide Inv, HonestAnswer, SourceRefused, Get;
    SourceNotRefused(id, Get(run.worlds[i], id), e);
  }

  /** In every run, the target's operation in progress can store any verdict of its phase, and entering an operation
      is never refused. */
  lemma TargetNeverRefused(run: Run, i: nat, id: string, v: TargetVerdict, now: Time)
    requires IsRun(run) && i <= |run.events|
    requires var h := Get(run.worlds[i], id); h.target.Some? && h.target.value.revision < MaxUint64
    ensures var h := Get(run.worlds[i], id);
            !h.targetWork.TargetIdle? && KnownTargetVerdict(v) && !v.Interrupted? && !v.LostRecord?
            && Allowed(h.targetWork.record, !h.targetWork.CheckingPreparation?, v) ==>
              TargetTransition(h.target.value, h.targetWork.record.revision, TargetVerdictState(v),
                TargetTransitionFor(h.targetWork.record, v, now), now).Ok?
    ensures var r := Get(run.worlds[i], id).target.value;
            && (LegalTarget(r.state, Validating) ==> EnterTarget(r, Validating, now).Work?)
            && (LegalTarget(r.state, Launching) ==> EnterTarget(r, Launching, now).Work?)
    ensures var h := Get(run.worlds[i], id);
            h.targetWork.Created? && ValidID(h.targetWork.session.id) ==>
              BindLocator(h.target.value, h.targetWork.record.revision,
                LocatorFor(h.targetWork.record, h.targetWork.session.id),
                          TransitionTime(now, h.targetWork.record.updated), now).Ok?
  {
    HandoffInv(run, i, id);
    var h := Get(run.worlds[i], id);
    var r := h.target.value;
    assert ValidTarget(r) && (!h.targetWork.TargetIdle? ==> h.targetWork.record == r)
      && (h.targetWork.Created? ==> r.state.Launching? && r.locator.None?);
    hide Inv, ValidTarget, TargetTransition, EnterTarget, BindLocator, Allowed, KnownTargetVerdict, Get, LocatorFor,
      ValidID;
    if !h.targetWork.TargetIdle? && KnownTargetVerdict(v) && !v.Interrupted? && !v.LostRecord?
       && Allowed(r, !h.targetWork.CheckingPreparation?, v) {
      TargetSettleAccepted(r, !h.targetWork.CheckingPreparation?, v, now);
    }
    if LegalTarget(r.state, Validating) { EnterTargetAccepted(r, Validating, now); }
    if LegalTarget(r.state, Launching) { EnterTargetAccepted(r, Launching, now); }
    if h.targetWork.Created? { BindAccepted(r, h.targetWork.session.id, now); }
  }
}
