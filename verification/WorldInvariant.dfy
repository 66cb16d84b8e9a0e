/**
 The invariant of the two-device machine and the proof that every step keeps it.

 The invariant of one handoff is local to it; the sessions add only what the shared table
 knows about the session a handoff names.
 */
module WorldInvariant {
  import opened Wrappers
  import opened Records
  import opened RecordStore
  import opened Sessions
  import opened Outbox
  import opened Application
  import opened HandoffWorld

  // ---- phases ---------------------------------------------------------------------------------------

  predicate BeforeLaunch(s: SourceState) { s.Queued? || s.PreparingRemote? || s.RemotePrepared? || s.RetryWait? }

  predicate SourceInLaunch(s: SourceState) { s.LaunchingRemote? || s.LaunchRetryWait? || s.SourceAccepted? }

  predicate TargetInLaunch(s: TargetState) { s.Launching? || s.LaunchWaitingAssets? || s.TargetAccepted? }

  /** The target reached `prepared` at some time, or gave the handoff up. */
  predicate ReachedPrepared(s: TargetState) { s.Prepared? || TargetInLaunch(s) || s.Rejected? }

  // ---- the invariant of one handoff --------------------------------------------------------------------

  /** A retirement was requested no later than the record's last write, whatever the clock did since. */
  predicate RetirementInOrder(r: SourceRecord) { r.retirement.Some? ==> r.retirement.value.requestedAt <= r.updated }

  ghost predicate RecordsInv(id: string, h: Handoff) {
    && (h.source.Some? ==>
      ValidSource(h.source.value) && h.source.value.manifest.id == id
      && RetirementInOrder(h.source.value))
    && (h.target.Some? ==>
      ValidTarget(h.target.value) && h.source.Some?
      && h.target.value.manifest == h.source.value.manifest)
  }

  /** An operation's record in hand is the stored one: nobody else wrote it under the lock. */
  ghost predicate HandsInv(h: Handoff) {
    && (!h.sourceWork.SourceIdle? ==> h.source == Some(h.sourceWork.record))
    && (h.sourceWork.PreparingCall? ==> h.sourceWork.record.state.PreparingRemote?)
    && (h.sourceWork.LaunchingCall? ==> h.sourceWork.record.state.LaunchingRemote?)
    && (h.sourceWork.VerifyingCall? || h.sourceWork.RetiringSource? || h.sourceWork.ClosingSource? ==>
      h.sourceWork.record.state.SourceAccepted?)
    && (!h.targetWork.TargetIdle? ==> h.target == Some(h.targetWork.record))
    && (h.targetWork.CheckingPreparation? ==> h.targetWork.record.state.Validating?)
    && (!h.targetWork.TargetIdle? && !h.targetWork.CheckingPreparation? ==> h.targetWork.record.state.Launching?)
    && (h.targetWork.Created? ==> h.targetWork.record.locator.None?)
    && (h.targetWork.Watching? || h.targetWork.Prompting? || h.targetWork.Confirmed? ==>
      h.targetWork.record.locator.Some?)
  }

  ghost predicate CallsInv(h: Handoff) {
    && (forall c <- h.net.prepareCalls :: h.source.Some? && c.1 == h.source.value.manifest)
    && (forall c <- h.net.launchCalls :: h.source.Some? && c.1 == h.source.value.digest)
    && (forall c <- h.net.verifyCalls :: h.source.Some? && h.source.value.state.SourceAccepted?)
  }

  ghost predicate StatusInv(id: string, h: Handoff, st: Status) {
    && h.target.Some? && st.id == id && st.digest == h.target.value.digest
    && (st.state.Prepared? ==> ReachedPrepared(h.target.value.state))
    && (TargetInLaunch(st.state) ==> h.net.launchCalls != {})
    && (st.state.TargetAccepted? ==> h.target.value.state.TargetAccepted? && h.target.value.locator == st.locator)
    && (st.state.Rejected? ==> h.target.value.state.Rejected?)
  }

  ghost predicate RepliesInv(id: string, h: Handoff) {
    && (forall r <- h.net.prepareReplies :: StatusInv(id, h, r.1))
    && (forall r <- h.net.launchReplies :: StatusInv(id, h, r.1) && (TargetInLaunch(r.1.state) || r.1.state.Rejected?))
    && (forall r <- h.net.verifyReplies ::
          h.target.Some? && h.target.value.state.TargetAccepted?
            && (r.1.ack.Some? ==> r.1.ack == h.target.value.contextLoaded))
  }

  ghost predicate PhaseInv(h: Handoff) {
    && (h.source.None? ==> h.log.past == {})
    && (h.source.Some? && BeforeLaunch(h.source.value.state) ==> h.net.launchCalls == {})
    && (h.source.Some? && SourceInLaunch(h.source.value.state) ==> h.net.launchCalls != {})
    && (h.source.Some? && h.source.value.state.RemotePrepared? ==>
      h.target.Some? && ReachedPrepared(h.target.value.state))
    && (h.net.launchCalls != {} ==> h.log.operatorLaunched && h.target.Some? && ReachedPrepared(h.target.value.state))
    && (h.target.Some? && TargetInLaunch(h.target.value.state) ==> h.net.launchCalls != {})
    && (LaunchingRemote in h.log.past || LaunchRetryWait in h.log.past ==> h.net.launchCalls != {})
    && (SourceAccepted in h.log.past ==> h.source.Some? && h.source.value.state.SourceAccepted?)
  }

  /** The source accepts only what the target accepted, and proves only what the target proved. */
  ghost predicate AgreementInv(h: Handoff) {
    h.source.Some? && h.source.value.state.SourceAccepted? ==>
      && h.target.Some? && h.target.value.state.TargetAccepted?
      && h.source.value.locator == h.target.value.locator
      && (h.source.value.contextLoaded.Some? ==> h.source.value.contextLoaded == h.target.value.contextLoaded)
  }

  /** One locator at most was ever bound, and prompts, acknowledgements and closes all hang on it. */
  ghost predicate HistoryInv(h: Handoff) {
    && (forall a <- h.log.bound, b <- h.log.bound :: a == b)
    && (forall l <- h.log.bound :: l.scope == RootScope)
    && (h.log.bound != {} ==>
      h.target.Some? && (TargetInLaunch(h.target.value.state) || h.target.value.state.Rejected?))
    && (h.target.Some? && !h.target.value.state.Rejected? ==>
      h.log.bound == if h.target.value.locator.Some? then {h.target.value.locator.value} else {})
    && (forall s <- h.log.prompted :: exists l <- h.log.bound :: l.session == s)
    && (h.log.ackedBy != {} ==> h.target.Some? && h.target.value.state.TargetAccepted?)
    && (forall s <- h.log.ackedBy ::
      h.target.Some? && h.target.value.locator.Some?
      && h.target.value.locator.value.session == s)
    && (h.target.Some? && h.target.value.contextLoaded.Some? ==> h.log.ackedBy != {})
    && (forall c <- h.log.closes ::
          && h.source.Some? && h.source.value.state.SourceAccepted? && c.session == h.source.value.manifest.source
          && c.proof.Some? && c.proof == h.source.value.contextLoaded)
  }

  ghost predicate Inv(id: string, h: Handoff) {
    RecordsInv(id, h) && HandsInv(h) && CallsInv(h) && RepliesInv(id, h) && PhaseInv(h) && AgreementInv(h)
      && HistoryInv(h)
  }

  // ---- what the writes do, record by record ----------------------------------------------------------------

  lemma SourceEffect(r: SourceRecord, expected: nat, next: SourceState, t: Transition, clock: Time)
    ensures var res := SourceTransition(r, expected, next, t, clock);
            res.Ok? ==>
              && ValidSource(res.value) && res.value.state == next && LegalSource(r.state, next)
              && res.value.manifest == r.manifest && res.value.digest == r.digest
              && res.value.locator == KeptLocator(r.locator, t, next.SourceAccepted?)
              && res.value.contextLoaded == r.contextLoaded && res.value.retirement == r.retirement
              && (RetirementInOrder(r) ==> RetirementInOrder(res.value))
  {
  }

  lemma TargetEffect(r: TargetRecord, expected: nat, next: TargetState, t: Transition, clock: Time)
    ensures var res := TargetTransition(r, expected, next, t, clock);
            res.Ok? ==>
              && ValidTarget(res.value) && res.value.state == next && LegalTarget(r.state, next)
              && res.value.manifest == r.manifest && res.value.digest == r.digest
              && res.value.locator == KeptLocator(r.locator, t, TargetLocatorState(next))
              && res.value.contextLoaded == r.contextLoaded
  {
  }

  /** What one source write may change while the handoff is accepted: only its proof and retirement. */
  ghost predicate OnlyProof(r: SourceRecord, r': SourceRecord) {
    && ValidSource(r') && r'.manifest == r.manifest && r'.digest == r.digest && r'.state == r.state
      && r'.locator == r.locator
    && (RetirementInOrder(r) ==> RetirementInOrder(r'))
  }

  lemma ProofEffects(r: SourceRecord, expected: nat, ack: Ack, at: Time, clock: Time)
    requires ValidSource(r)
    ensures var res := RecordContext(r, expected, ack, at, clock);
            res.Ok? ==> OnlyProof(r, res.value) && r.state.SourceAccepted? && res.value.contextLoaded == Some(ack)
    ensures var res := CompleteRetirement(r, expected, at, clock);
            res.Ok? ==> OnlyProof(r, res.value) && r.state.SourceAccepted? && res.value.contextLoaded == r.contextLoaded
  {
  }

  lemma RequestEffect(r: SourceRecord, device: string, mode: RetirementMode, timeout: int, seen: Option<Detail>,
      now: Time)
    requires ValidSource(r)
    ensures var plan := RequestPlan(r, device, mode, timeout, seen, now);
            plan.Call? ==>
              OnlyProof(r, plan.record) && r.state.SourceAccepted?
              && plan.record.contextLoaded == r.contextLoaded
  {
  }

  lemma PreparePlanEffect(r: SourceRecord, force: bool, due: Time, now: Time)
    requires ValidSource(r)
    ensures var plan := PreparePlan(r, force, due, now);
            plan.Call? ==>
              && ValidSource(plan.record) && plan.record.state.PreparingRemote? && plan.record.manifest == r.manifest
                && plan.record.digest == r.digest
              && (r.state.Queued? || r.state.RetryWait? || r.state.PreparingRemote?)
                && (RetirementInOrder(r) ==> RetirementInOrder(plan.record))
  {
  }

  lemma LaunchPlanEffect(r: SourceRecord, force: bool, due: Time, now: Time)
    requires ValidSource(r)
    ensures var plan := LaunchPlan(r, force, due, now);
            plan.Call? ==>
              && ValidSource(plan.record) && plan.record.state.LaunchingRemote? && plan.record.manifest == r.manifest
                && plan.record.digest == r.digest
              && (r.state.RemotePrepared? || LaunchState(r.state))
                && (RetirementInOrder(r) ==> RetirementInOrder(plan.record))
  {
  }

  lemma BindEffect(r: TargetRecord, expected: nat, locator: Locator, at: Time, clock: Time)
    requires ValidTarget(r)
    ensures var res := BindLocator(r, expected, locator, at, clock);
            res.Ok? ==>
              && ValidTarget(res.value) && r.state.Launching? && res.value.state == r.state
                && res.value.locator == Some(locator)
              && res.value.manifest == r.manifest && res.value.digest == r.digest
                && res.value.contextLoaded == r.contextLoaded
  {
  }

  lemma AckEffect(r: TargetRecord, phase: AckPhase, scope: string, session: string, at: Time, clock: Time)
    requires ValidTarget(r)
    ensures var res := Acknowledge(r, phase, scope, session, at, clock);
            res.Ok? ==>
              && ValidTarget(res.value) && r.state.TargetAccepted? && res.value.state == r.state
                && res.value.locator == r.locator
              && res.value.manifest == r.manifest && res.value.digest == r.digest
              && r.locator.Some? && r.locator.value.session == session && r.locator.value.scope == scope
              && res.value.contextLoaded.Some? && (r.contextLoaded.Some? ==> res.value.contextLoaded == r.contextLoaded)
  {
  }

  // ---- source steps keep the invariant -----------------------------------------------------------------------

  lemma QueueKeeps(id: string, h: Handoff, m: Manifest, clock: Time)
    requires Inv(id, h) && m.id == id
    ensures QueueStep(h, m, clock).Some? ==> Inv(id, QueueStep(h, m, clock).value)
  {
  }

  /** What a source write must respect, whatever the verdict behind it. */
  ghost predicate SafeWrite(h: Handoff, r': SourceRecord)
    requires h.source.Some?
  {
    var r := h.source.value;
    && ValidSource(r') && RetirementInOrder(r') && r'.manifest == r.manifest && r'.digest == r.digest
    && (BeforeLaunch(r'.state) ==> BeforeLaunch(r.state))
    && (SourceInLaunch(r'.state) ==> SourceInLaunch(r.state))
    && (r'.state.RemotePrepared? ==> h.target.Some? && ReachedPrepared(h.target.value.state))
    && (r.state.SourceAccepted? ==>
      r'.state.SourceAccepted? && (r.contextLoaded.Some? ==> r'.contextLoaded == r.contextLoaded))
    && (r'.state.SourceAccepted? ==>
          && h.target.Some? && h.target.value.state.TargetAccepted? && r'.locator == h.target.value.locator
          && (r'.contextLoaded.Some? ==> r'.contextLoaded == h.target.value.contextLoaded))
  }

  lemma SafeWriteKeeps(id: string, h: Handoff, r': SourceRecord)
    requires Inv(id, h) && h.source.Some? && SafeWrite(h, r')
    ensures Inv(id, WithSource(h, r').(sourceWork := SourceIdle))
  {
    hide ValidSource, ValidTarget;
  }

  lemma IdleKeeps(id: string, h: Handoff)
    requires Inv(id, h)
    ensures Inv(id, h.(sourceWork := SourceIdle)) && Inv(id, h.(targetWork := TargetIdle))
  {
    hide ValidSource, ValidTarget;
  }

  lemma EndSourceKeeps(id: string, h: Handoff, res: Result<SourceRecord, StoreError>)
    requires Inv(id, h) && h.source.Some? && (res.Ok? ==> SafeWrite(h, res.value))
    ensures Inv(id, EndSource(h, res))
  {
    hide Inv, SafeWrite;
    IdleKeeps(id, h);
    if res.Ok? { SafeWriteKeeps(id, h, res.value); }
  }

  lemma StartPrepareKeeps(id: string, h: Handoff, force: bool, due: Time, now: Time)
    requires Inv(id, h) && h.source.Some?
    ensures StartPrepareStep(h, force, due, now).Some? ==> Inv(id, StartPrepareStep(h, force, due, now).value)
  {
    PreparePlanEffect(h.source.value, force, due, now);
    hide PreparePlan, ValidSource, ValidTarget;
  }

  lemma StartLaunchKeeps(id: string, h: Handoff, force: bool, due: Time, now: Time)
    requires Inv(id, h) && h.source.Some? && h.sourceWork.SourceIdle?
    requires h.source.value.state.RemotePrepared? ==> h.log.operatorLaunched
    ensures Inv(id, StartLaunch(h, force, due, now))
  {
    LaunchPlanEffect(h.source.value, force, due, now);
    hide LaunchPlan, ValidSource, ValidTarget;
  }

  lemma EndPrepareKeeps(id: string, h: Handoff, reply: Reply<Status>, now: Time)
    requires Inv(id, h) && h.source.Some?
    ensures EndPrepareStep(h, reply, now).Some? ==> Inv(id, EndPrepareStep(h, reply, now).value)
  {
    if EndPrepareStep(h, reply, now).Some? {
      var r := h.sourceWork.record;
      var v := PrepareVerdict(r, reply);
      var res := StoredVerdict(h.source.value, r, v, now);
      assert res.Ok? ==> SafeWrite(h, res.value) by {
        SourceEffect(h.source.value, r.revision, VerdictState(v), Settled(r, v, now), now);
        hide SourceTransition, ValidSource, ValidTarget, HistoryInv, CallsInv;
      }
      hide Inv, SafeWrite, StoredVerdict;
      EndSourceKeeps(id, h, res);
    }
  }

  lemma EndLaunchKeeps(id: string, h: Handoff, reply: Reply<Status>, now: Time)
    requires Inv(id, h) && h.source.Some?
    ensures EndLaunchStep(h, reply, now).Some? ==> Inv(id, EndLaunchStep(h, reply, now).value)
  {
    if EndLaunchStep(h, reply, now).Some? {
      var r := h.sourceWork.record;
      var v := LaunchVerdict(r, reply);
      var res := StoredVerdict(h.source.value, r, v, now);
      assert res.Ok? ==> SafeWrite(h, res.value) by {
        SourceEffect(h.source.value, r.revision, VerdictState(v), Settled(r, v, now), now);
        hide SourceTransition, ValidTarget, HistoryInv, CallsInv;
      }
      hide Inv, SafeWrite, StoredVerdict;
      EndSourceKeeps(id, h, res);
    }
  }

  lemma StartVerifyKeeps(id: string, h: Handoff)
    requires Inv(id, h) && h.source.Some?
    ensures StartVerifyStep(h).Some? ==> Inv(id, StartVerifyStep(h).value)
  {
    hide ValidSource, ValidTarget;
  }

  lemma EndVerifyKeeps(id: string, h: Handoff, reply: Reply<Verification>, now: Time)
    requires Inv(id, h) && h.source.Some?
    ensures EndVerifyStep(h, reply, now).Some? ==> Inv(id, EndVerifyStep(h, reply, now).value)
  {
    if EndVerifyStep(h, reply, now).Some? {
      var r := h.sourceWork.record;
      var res := VerifiedRecord(h.source.value, r, reply, now);
      assert res.Ok? ==> SafeWrite(h, res.value) by {
        if reply.Answer? && reply.value.ack.Some? {
          ProofEffects(h.source.value, r.revision, reply.value.ack.value, TransitionTime(now, r.updated), now);
        }
        hide RecordContext, ValidSource, ValidTarget, HistoryInv, PhaseInv;
      }
      hide Inv, SafeWrite, VerifiedRecord;
      EndSourceKeeps(id, h, res);
    }
  }

  /** Completing a retirement is a safe write. */
  lemma CompleteKeeps(id: string, h: Handoff, r: SourceRecord, now: Time)
    requires Inv(id, h) && h.source == Some(r)
    ensures Inv(id, EndSource(h, CompleteRetirement(r, r.revision, TransitionTime(now, r.updated), now)))
  {
    var res := CompleteRetirement(r, r.revision, TransitionTime(now, r.updated), now);
    assert res.Ok? ==> SafeWrite(h, res.value) by {
      ProofEffects(r, r.revision, Ack(ContextLoaded, r.digest, Locator("", "", ""), 0), TransitionTime(now, r.updated),
        now);
      hide CompleteRetirement, ValidSource, ValidTarget, HistoryInv, PhaseInv;
    }
    hide Inv, SafeWrite, CompleteRetirement;
    EndSourceKeeps(id, h, res);
  }

  lemma LookKeeps(id: string, h: Handoff, seen: Option<Detail>, now: Time)
    requires Inv(id, h) && h.source.Some?
    ensures LookStep(h, seen, now).Some? ==> Inv(id, LookStep(h, seen, now).value)
  {
    if h.sourceWork.RetiringSource? {
      var r := h.sourceWork.record;
      IdleKeeps(id, h);
      CompleteKeeps(id, h, r, now);
      if MayClose(r, seen) { CloseKeeps(id, h, r); }
      hide Inv, CompleteRetirement, MayClose, SeenExited, EndSource;
    }
  }

  lemma ClosedKeeps(id: string, h: Handoff, closed: bool, after: Option<Detail>, now: Time)
    requires Inv(id, h) && h.source.Some?
    ensures ClosedStep(h, closed, after, now).Some? ==> Inv(id, ClosedStep(h, closed, after, now).value)
  {
    if h.sourceWork.ClosingSource? {
      IdleKeeps(id, h);
      CompleteKeeps(id, h, h.sourceWork.record, now);
      hide Inv, CompleteRetirement, EndSource;
    }
  }

  /** A close is only made while the source holds the proof. */
  lemma CloseKeeps(id: string, h: Handoff, r: SourceRecord)
    requires Inv(id, h) && h.sourceWork == RetiringSource(r) && r.retirement.Some?
    ensures Inv(id, h.(sourceWork := ClosingSource(r), log :=
        h.log.(closes := h.log.closes + {Close(r.manifest.source, r.contextLoaded)})))
  {
    assert r.contextLoaded.Some?;
    hide ValidSource, ValidTarget;
  }

  lemma AskRetireKeeps(id: string, h: Handoff, device: string, mode: RetirementMode, timeout: int, seen: Option<Detail>,
      now: Time)
    requires Inv(id, h) && h.source.Some?
    ensures AskRetireStep(h, device, mode, timeout, seen, now).Some? ==>
              Inv(id, AskRetireStep(h, device, mode, timeout, seen, now).value)
  {
    RequestEffect(h.source.value, device, mode, timeout, seen, now);
    var plan := RequestPlan(h.source.value, device, mode, timeout, seen, now);
    hide RequestPlan, ValidSource, ValidTarget;
    if plan.Call? { SafeWriteKeeps(id, h, plan.record); }
  }

  lemma OperatorLaunchKeeps(id: string, h: Handoff, due: Time, now: Time)
    requires Inv(id, h) && h.source.Some?
    ensures OperatorLaunchStep(h, due, now).Some? ==> Inv(id, OperatorLaunchStep(h, due, now).value)
  {
    if h.sourceWork.SourceIdle? {
      OperatorKeeps(id, h);
      hide Inv, StartLaunch;
      StartLaunchKeeps(id, Authorized(h), true, due, now);
    }
  }

  /** A stale scan or retry cannot launch a merely prepared record: having seen a launch state, the source has left
      preparation. */
  lemma ResumeLaunchKeeps(id: string, h: Handoff, force: bool, due: Time, now: Time)
    requires Inv(id, h) && h.source.Some?
    ensures ResumeLaunchStep(h, force, due, now).Some? ==> Inv(id, ResumeLaunchStep(h, force, due, now).value)
  {
    if h.sourceWork.SourceIdle? && (LaunchingRemote in h.log.past || LaunchRetryWait in h.log.past) {
      assert !h.source.value.state.RemotePrepared?;
      hide Inv, StartLaunch;
      StartLaunchKeeps(id, h, force, due, now);
    }
  }

  lemma ResumeRetireKeeps(id: string, h: Handoff)
    requires Inv(id, h) && h.source.Some?
    ensures ResumeRetireStep(h).Some? ==> Inv(id, ResumeRetireStep(h).value)
  {
    hide ValidSource, ValidTarget;
  }

  lemma SourceKeeps(id: string, h: Handoff, e: SourceEvent)
    requires Inv(id, h) && (e.Queue? ==> e.m.id == id)
    ensures SourceNext(h, e).Some? ==> Inv(id, SourceNext(h, e).value)
  {
    hide Inv, QueueStep, StartPrepareStep, EndPrepareStep, OperatorLaunchStep, ResumeLaunchStep, EndLaunchStep,
      StartVerifyStep, EndVerifyStep,
      AskRetireStep, ResumeRetireStep, LookStep, ClosedStep;
    if e.Queue? {
      QueueKeeps(id, h, e.m, e.clock);
    } else if e.SourceAborts? {
      IdleKeeps(id, h);
    } else if h.source.Some? {
      match e
      case StartPrepare(force, due, now) => StartPrepareKeeps(id, h, force, due, now);
      case EndPrepare(reply, now) => EndPrepareKeeps(id, h, reply, now);
      case OperatorLaunch(due, now) => OperatorLaunchKeeps(id, h, due, now);
      case ResumeLaunch(force, due, now) => ResumeLaunchKeeps(id, h, force, due, now);
      case EndLaunch(reply, now) => EndLaunchKeeps(id, h, reply, now);
      case StartVerify => StartVerifyKeeps(id, h);
      case EndVerify(reply, now) => EndVerifyKeeps(id, h, reply, now);
      case AskRetire(device, mode, timeout, seen, now) => AskRetireKeeps(id, h, device, mode, timeout, seen, now);
      case ResumeRetire => ResumeRetireKeeps(id, h);
      case LookAtSource(seen, now) => LookKeeps(id, h, seen, now);
      case SourceClosed(closed, after, now) => ClosedKeeps(id, h, closed, after, now);
    }
  }

  lemma OperatorKeeps(id: string, h: Handoff)
    requires Inv(id, h)
    ensures Inv(id, Authorized(h))
  {
    hide ValidSource, ValidTarget;
  }
}
