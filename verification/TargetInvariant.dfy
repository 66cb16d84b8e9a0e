/** The target's steps keep the invariant of their handoff. */
module TargetInvariant {
  import opened Wrappers
  import opened Records
  import opened RecordStore
  import opened Sessions
  import opened Outbox
  import opened Application
  import opened HandoffWorld
  import opened WorldInvariant

  /** What a target write must respect, whatever the verdict behind it. */
  ghost predicate SafeTargetWrite(h: Handoff, r': TargetRecord)
    requires h.target.Some?
  {
    var r := h.target.value;
    && ValidTarget(r') && r'.manifest == r.manifest && r'.digest == r.digest
    && (ReachedPrepared(r.state) ==> ReachedPrepared(r'.state))
    && (TargetInLaunch(r'.state) ==> h.net.launchCalls != {})
    && (r.state.TargetAccepted? ==> r'.state.TargetAccepted? && r'.locator == r.locator)
    && r'.contextLoaded == r.contextLoaded
    && (!r'.state.Rejected? ==> h.log.bound == if r'.locator.Some? then {r'.locator.value} else {})
    && (r'.state.Rejected? || !r.state.Rejected?)
    && (h.log.bound != {} ==> TargetInLaunch(r'.state) || r'.state.Rejected?)
  }

  lemma TargetWriteKeeps(id: string, h: Handoff, r': TargetRecord)
    requires Inv(id, h) && h.target.Some? && SafeTargetWrite(h, r')
    ensures Inv(id, h.(target := Some(r'), targetWork := TargetIdle))
  {
    hide ValidSource, ValidTarget;
  }

  /** A write that begins work on the record it stored. */
  lemma BeginWorkKeeps(id: string, h: Handoff, r': TargetRecord, launch: bool, call: Option<nat>)
    requires Inv(id, h) && h.target.Some? && SafeTargetWrite(h, r')
    requires if launch then r'.state.Launching? else r'.state.Validating?
    ensures Inv(id, h.(target := Some(r'), targetWork := if launch then CheckingLaunch(r', call)
        else CheckingPreparation(r', call)))
  {
    TargetWriteKeeps(id, h, r');
    hide ValidSource, ValidTarget;
  }

  /** An honest answer: the status of the stored record. */
  lemma AnswerKeeps(id: string, h: Handoff, call: Option<nat>, launch: bool)
    requires Inv(id, h) && h.target.Some?
    requires launch ==> TargetInLaunch(h.target.value.state) || h.target.value.state.Rejected?
    ensures Inv(id, Answered(h, call, launch, StatusOf(h.target.value)))
  {
    assert h.target.value.state.TargetAccepted? ==> h.target.value.locator.Some?;
    hide ValidSource, ValidTarget;
  }

  /** The verdicts an operation may reach on the record in hand. */
  ghost predicate Allowed(r: TargetRecord, launch: bool, v: TargetVerdict) {
    || v.Interrupted? || v.LostRecord?
    || (launch && r.state.Launching?
      && (v.Reject? || (v.Wait? && v.next.LaunchWaitingAssets?)
      || (v == Forward(TargetAccepted, r.locator) && r.locator.Some?)))
    || (!launch && r.state.Validating?
      && (v.Reject? || (v.Wait? && v.next.WaitingAssets?) || v == Forward(Prepared, None)))
    || (!launch && v.Reject? && (r.state.Received? || r.state.WaitingAssets?))
  }

  lemma VerdictIsSafe(id: string, h: Handoff, r: TargetRecord, launch: bool, v: TargetVerdict, now: Time)
    requires Inv(id, h) && h.target == Some(r) && Allowed(r, launch, v) && !v.Interrupted? && !v.LostRecord?
    ensures var settled := TargetTransition(r, r.revision, TargetVerdictState(v), TargetTransitionFor(r, v, now), now);
            settled.Ok? ==>
              SafeTargetWrite(h, settled.value)
              && (launch ==> TargetInLaunch(settled.value.state) || settled.value.state.Rejected?)
  {
    TargetEffect(r, r.revision, TargetVerdictState(v), TargetTransitionFor(r, v, now), now);
    hide TargetTransition, ValidSource, ValidTarget, RepliesInv, CallsInv, AgreementInv;
  }

  lemma EndTargetKeeps(id: string, h: Handoff, r: TargetRecord, call: Option<nat>, launch: bool, v: TargetVerdict,
      now: Time)
    requires Inv(id, h) && h.target == Some(r) && Allowed(r, launch, v)
    ensures Inv(id, EndTarget(h, r, call, launch, v, now))
  {
    IdleKeeps(id, h);
    if !v.Interrupted? && !v.LostRecord? {
      var settled := TargetTransition(r, r.revision, TargetVerdictState(v), TargetTransitionFor(r, v, now), now);
      VerdictIsSafe(id, h, r, launch, v, now);
      hide Inv, SafeTargetWrite, TargetTransition, Allowed, TargetTransitionFor, StatusOf;
      if settled.Ok? {
        TargetWriteKeeps(id, h, settled.value);
        AnswerKeeps(id, h.(target := Some(settled.value), targetWork := TargetIdle), call, launch);
      }
    }
  }

  // ---- plans -------------------------------------------------------------------------------------------

  lemma EnterTargetEffect(r: TargetRecord, next: TargetState, now: Time)
    ensures var plan := EnterTarget(r, next, now);
            if plan.Work? then
              && ValidTarget(plan.record) && plan.record.state == next && LegalTarget(r.state, next)
              && plan.record.manifest == r.manifest && plan.record.digest == r.digest
              && plan.record.locator == (if TargetLocatorState(next) then r.locator else None)
                && plan.record.contextLoaded == r.contextLoaded
            else plan == Done(Error(InternalError))
  {
    TargetEffect(r, r.revision, next, Transition(TransitionTime(now, r.updated), None, None, None), now);
    hide ValidTarget;
  }

  lemma ResumeTargetPlanKeeps(id: string, h: Handoff, call: Option<nat>, deadFrom: nat, now: Time)
    requires Inv(id, h) && h.target.Some? && h.targetWork.TargetIdle?
    ensures Inv(id, Planned(h, ResumeTargetPlan(h.target.value, deadFrom, now), call, false, now))
  {
    var r := h.target.value;
    var plan := ResumeTargetPlan(r, deadFrom, now);
    EnterTargetEffect(r, Validating, now);
    match plan
    case Work(r') =>
      assert SafeTargetWrite(h, r') by { hide EnterTarget, ValidSource; }
      hide Inv, ResumeTargetPlan, SafeTargetWrite, ValidTarget;
      BeginWorkKeeps(id, h, r', false, call);
    case RejectFirst(_) =>
      hide Inv, EnterTarget, EndTarget;
      EndTargetKeeps(id, h, r, call, false, ArtifactsVerdict, now);
    case Done(_) =>
      hide Inv, EnterTarget, StatusOf;
      AnswerKeeps(id, h, call, false);
  }

  lemma LaunchPlanKeeps(id: string, h: Handoff, call: Option<nat>, plan: TargetPlan, now: Time)
    requires Inv(id, h) && h.target.Some? && h.targetWork.TargetIdle? && h.net.launchCalls != {}
    requires
      || plan == EnterTarget(h.target.value, Launching, now)
      || (plan == Work(h.target.value) && h.target.value.state.Launching?)
      || (plan == Done(Reply(StatusOf(h.target.value)))
        && (h.target.value.state.TargetAccepted? || h.target.value.state.Rejected?))
      || (plan.Done? && plan.result.Error?)
    ensures Inv(id, Planned(h, plan, call, true, now))
  {
    var r := h.target.value;
    EnterTargetEffect(r, Launching, now);
    if plan.Work? {
      assert SafeTargetWrite(h, plan.record) by { hide EnterTarget, ValidSource; }
      hide Inv, EnterTarget, SafeTargetWrite, ValidTarget;
      BeginWorkKeeps(id, h, plan.record, true, call);
    } else if plan.result.Reply? {
      hide Inv, EnterTarget, StatusOf;
      AnswerKeeps(id, h, call, true);
    }
  }

  /** A first delivery stores the fresh record of the source's own manifest. */
  lemma ReceiveKeeps(id: string, h: Handoff, m: Manifest, clock: Time)
    requires Inv(id, h) && h.target.None? && h.targetWork.TargetIdle? && ValidTarget(NewTarget(m, clock))
    requires h.source.Some? && m == h.source.value.manifest
    ensures Inv(id, h.(target := Some(NewTarget(m, clock))))
  {
    hide ValidSource, ValidTarget;
  }

  // ---- preparation and launch requests ----------------------------------------------------------------------

  lemma DeliverPrepareKeeps(id: string, h: Handoff, call: nat, m: Manifest, peer: string, w: PrepareInputs, clock: Time,
      now: Time)
    requires Inv(id, h)
    ensures var next := DeliverPrepareStep(h, call, m, peer, w, clock, now); next.Some? ==> Inv(id, next.value)
  {
    if DeliverPrepareStep(h, call, m, peer, w, clock, now).Some? {
      assert (call, m) in h.net.prepareCalls;
      var h1 := if h.target.None? then h.(target := Some(NewTarget(m, clock))) else h;
      if h.target.None? { ReceiveKeeps(id, h, m, clock); }
      hide Inv, ValidTarget, Planned, ResumeTargetPlan;
      ResumeTargetPlanKeeps(id, h1, Some(call), w.deadFrom, now);
    }
  }

  lemma EndPreparationKeeps(id: string, h: Handoff, w: PrepareInputs, now: Time)
    requires Inv(id, h) && h.target.Some?
    ensures EndPreparationStep(h, w, now).Some? ==> Inv(id, EndPreparationStep(h, w, now).value)
  {
    if h.targetWork.CheckingPreparation? {
      var r := h.targetWork.record;
      assert h.target == Some(r) && r.state.Validating?;
      hide Inv, EndTarget;
      EndTargetKeeps(id, h, r, h.targetWork.call, false, PrepareVerdictFor(r, w), now);
    }
  }

  lemma DeliverLaunchKeeps(id: string, h: Handoff, call: nat, digest: Digest, peer: string, device: string, now: Time)
    requires Inv(id, h) && h.target.Some?
    ensures var next := DeliverLaunchStep(h, call, digest, peer, device, now); next.Some? ==> Inv(id, next.value)
  {
    if DeliverLaunchStep(h, call, digest, peer, device, now).Some? {
      assert (call, digest) in h.net.launchCalls;
      hide Inv, Planned, EnterTarget, StatusOf;
      LaunchPlanKeeps(id, h, Some(call), LaunchRequestPlan(h.target.value, digest, peer, device, now), now);
    }
  }

  lemma RecoverKeeps(id: string, h: Handoff, deadFrom: nat, scan: Time, now: Time)
    requires Inv(id, h) && h.target.Some?
    ensures RecoverStep(h, deadFrom, scan, now).Some? ==> Inv(id, RecoverStep(h, deadFrom, scan, now).value)
  {
    var r := h.target.value;
    if h.targetWork.TargetIdle? {
      if r.state.Launching? || r.state.LaunchWaitingAssets? {
        assert h.net.launchCalls != {};
        hide Inv, Planned, EnterTarget, StatusOf;
        LaunchPlanKeeps(id, h, None, ResumeLaunchPlan(r, now), now);
      } else {
        hide Inv, Planned, ResumeTargetPlan;
        ResumeTargetPlanKeeps(id, h, None, deadFrom, now);
      }
    }
  }

  /** What a launch operation may rely on: its record is the stored one, launching, and named once it has a session. */
  lemma LaunchInHand(id: string, h: Handoff)
    requires Inv(id, h) && !h.targetWork.TargetIdle? && !h.targetWork.CheckingPreparation?
    ensures h.target == Some(h.targetWork.record) && h.targetWork.record.state.Launching?
        && ValidTarget(h.targetWork.record)
    ensures h.targetWork.Watching? || h.targetWork.Prompting? || h.targetWork.Confirmed? ==>
        h.targetWork.record.locator.Some?
  {
    hide ValidSource, ValidTarget, CallsInv, RepliesInv, PhaseInv, AgreementInv, HistoryInv;
  }

  /** Going on to another step with the same record in hand. */
  lemma WorkKeeps(id: string, h: Handoff, work: TargetWork)
    requires Inv(id, h) && !h.targetWork.TargetIdle? && !h.targetWork.CheckingPreparation?
    requires !work.TargetIdle? && !work.CheckingPreparation? && work.record == h.targetWork.record
    requires work.Created? ==> work.record.locator.None?
    requires work.Watching? || work.Prompting? || work.Confirmed? ==> work.record.locator.Some?
    ensures Inv(id, h.(targetWork := work))
  {
    hide ValidSource, ValidTarget;
  }

  lemma CheckLaunchKeeps(id: string, h: Handoff, w: LaunchInputs, now: Time)
    requires Inv(id, h) && h.target.Some?
    ensures CheckLaunchStep(h, w, now).Some? ==> Inv(id, CheckLaunchStep(h, w, now).value)
  {
    if h.targetWork.CheckingLaunch? {
      var r := h.targetWork.record;
      var check := LaunchCheck(r, w);
      if check.Some? {
        hide Inv, EndTarget, ValidTarget;
        LaunchInHand(id, h);
        EndTargetKeeps(id, h, r, h.targetWork.call, true, check.value, now);
      } else {
        var identity := ContinuationIdentity(r, w.worktree, w.instructions.value);
        hide Inv, ContinuationIdentity;
        WorkKeeps(id, h, Choosing(r, h.targetWork.call, identity));
      }
    }
  }

  lemma ServeVerifyKeeps(id: string, h: Handoff, call: nat, digest: Digest, locator: Locator, peer: string,
      device: string)
    requires Inv(id, h) && h.target.Some?
    ensures var next := ServeVerifyStep(h, call, digest, locator, peer, device); next.Some? ==> Inv(id, next.value)
  {
    hide ValidSource, ValidTarget;
  }

  lemma AckKeeps(id: string, h: Handoff, phase: AckPhase, scope: string, session: string, at: Time, clock: Time)
    requires Inv(id, h) && h.target.Some?
    ensures var next := AcknowledgeStep(h, phase, scope, session, at, clock); next.Some? ==> Inv(id, next.value)
  {
    AckEffect(h.target.value, phase, scope, session, at, clock);
    hide Acknowledge, ValidSource, ValidTarget;
  }

  // ---- session steps ------------------------------------------------------------------------------------------

  lemma BoundSessionGone(r: TargetRecord, live: map<string, Session>)
    requires r.locator.Some? && ChooseBound(r, live).NoSession?
    ensures ChooseBound(r, live).verdict == ConflictVerdict
  {
  }

  lemma ChooseKeeps(id: string, h: Handoff, t: Table, found: Option<Session>, cancelled: bool, now: Time)
    requires Inv(id, h) && h.target.Some?
    ensures ChooseStep(h, t, found, cancelled, now).Some? ==> Inv(id, ChooseStep(h, t, found, cancelled, now).value.0)
  {
    hide Inv, EndTarget, MayCreate, AfterCreate, ValidTarget, ChooseBound;
    if h.targetWork.Choosing? {
      var r, call := h.targetWork.record, h.targetWork.call;
      LaunchInHand(id, h);
      if r.locator.Some? {
        WorkKeeps(id, h, Watching(r, call, h.targetWork.identity));
        if ChooseBound(r, t.live).NoSession? {
          BoundSessionGone(r, t.live);
          EndTargetKeeps(id, h, r, call, true, ConflictVerdict, now);
        }
      } else if found.Some? {
        WorkKeeps(id, h, Created(r, call, h.targetWork.identity, found.value));
      } else {
        EndTargetKeeps(id, h, r, call, true, if cancelled then Interrupted else NotReadyVerdict, now);
      }
    }
  }

  lemma BindKeeps(id: string, h: Handoff, t: Table, persistOk: bool, writeOk: bool, cancelled: bool, now: Time)
    requires Inv(id, h) && h.target.Some?
    ensures var next := BindStep(h, t, persistOk, writeOk, cancelled, now); next.Some? ==> Inv(id, next.value.0)
  {
    hide Inv, EndTarget, BindLocator, ValidTarget;
    if h.targetWork.Created? {
      var r, call := h.targetWork.record, h.targetWork.call;
      LaunchInHand(id, h);
      if h.targetWork.session.identity != h.targetWork.identity {
        EndTargetKeeps(id, h, r, call, true, ConflictVerdict, now);
      } else if !persistOk {
        EndTargetKeeps(id, h, r, call, true, if cancelled then Interrupted else NotReadyVerdict, now);
      } else {
        IdleKeeps(id, h);
        var locator := LocatorFor(r, h.targetWork.session.id);
        var bound := BindLocator(r, r.revision, locator, TransitionTime(now, r.updated), now);
        BindEffect(r, r.revision, locator, TransitionTime(now, r.updated), now);
        if bound.Ok? { BoundKeeps(id, h, r, bound.value, locator); }
      }
    }
  }

  lemma BoundKeeps(id: string, h: Handoff, r: TargetRecord, r': TargetRecord, locator: Locator)
    requires Inv(id, h) && h.targetWork.Created? && h.targetWork.record == r
    requires ValidTarget(r') && r'.state == r.state && r'.locator == Some(locator) && r'.manifest == r.manifest
        && r'.digest == r.digest
    requires r'.contextLoaded == r.contextLoaded && locator.scope == RootScope
    ensures h.target == Some(r)
    ensures Inv(id, Bound(h, r', locator).(targetWork := Watching(r', h.targetWork.call, h.targetWork.identity)))
  {
    hide ValidSource, ValidTarget;
  }

  lemma PollKeeps(id: string, h: Handoff, t: Table, now: Time)
    requires Inv(id, h) && h.target.Some?
    ensures PollStep(h, t, now).Some? ==> Inv(id, PollStep(h, t, now).value)
  {
    if h.targetWork.Watching? {
      var r, call, identity := h.targetWork.record, h.targetWork.call, h.targetWork.identity;
      hide Inv, EndTarget, Poll, ValidTarget;
      LaunchInHand(id, h);
      if AtSession(h, t) {
        match Poll(r, identity, t.live[r.locator.value.session])
        case Delivered => WorkKeeps(id, h, Confirmed(r, call, identity));
        case ReadyForPrompt => WorkKeeps(id, h, Prompting(r, call, identity));
        case PollConflict => EndTargetKeeps(id, h, r, call, true, ConflictVerdict, now);
        case KeepPolling =>
      }
    }
  }

  lemma PromptedKeeps(id: string, h: Handoff, session: string)
    requires Inv(id, h) && h.targetWork.Prompting? && h.targetWork.record.locator.Some?
        && h.targetWork.record.locator.value.session == session
    ensures Inv(id, Prompted(h, session))
  {
    assert h.targetWork.record.locator.value in h.log.bound;
    hide ValidSource, ValidTarget;
  }

  lemma SendKeeps(id: string, h: Handoff, t: Table, ok: bool, cancelled: bool, now: Time)
    requires Inv(id, h) && h.target.Some?
    ensures SendStep(h, t, ok, cancelled, now).Some? ==> Inv(id, SendStep(h, t, ok, cancelled, now).value.0)
  {
    if AtSession(h, t) && h.targetWork.Prompting? {
      var r, call := h.targetWork.record, h.targetWork.call;
      var h' := Prompted(h, r.locator.value.session);
      hide Inv, EndTarget, ValidTarget;
      LaunchInHand(id, h);
      PromptedKeeps(id, h, r.locator.value.session);
      EndTargetKeeps(id, h', r, call, true,
                     if cancelled then Interrupted else UnconfirmedVerdict, now);
      WorkKeeps(id, h', Confirmed(r, call, h.targetWork.identity));
    }
  }

  lemma AcceptKeeps(id: string, h: Handoff, t: Table, persistOk: bool, now: Time)
    requires Inv(id, h) && h.target.Some?
    ensures AcceptStep(h, t, persistOk, now).Some? ==> Inv(id, AcceptStep(h, t, persistOk, now).value.0)
  {
    if h.targetWork.Confirmed? {
      var r, call := h.targetWork.record, h.targetWork.call;
      hide Inv, EndTarget, ValidTarget;
      LaunchInHand(id, h);
      var v := if AtSession(h, t) && t.live[r.locator.value.session].command != EvidenceOf(r) then NoEvidenceVerdict
               else if !persistOk then NotPersistedVerdict else Forward(TargetAccepted, r.locator);
      EndTargetKeeps(id, h, r, call, true, v, now);
    }
  }

  lemma TargetKeeps(id: string, h: Handoff, t: Table, e: TargetEvent)
    requires Inv(id, h)
    ensures TargetNext(h, t, e).Some? ==> Inv(id, TargetNext(h, t, e).value.0)
  {
    hide Inv, DeliverPrepareStep, EndPreparationStep, DeliverLaunchStep, RecoverStep, CheckLaunchStep, ServeVerifyStep,
      AcknowledgeStep,
      ChooseStep, BindStep, PollStep, SendStep, AcceptStep;
    if e.DeliverPrepare? {
      DeliverPrepareKeeps(id, h, e.call, e.m, e.peer, e.w, e.clock, e.now);
    } else if e.TargetAborts? {
      IdleKeeps(id, h);
    } else if h.target.Some? {
      match e
      case EndPreparation(w, now) => EndPreparationKeeps(id, h, w, now);
      case DeliverLaunch(call, digest, peer, device, now) => DeliverLaunchKeeps(id, h, call, digest, peer, device, now);
      case Recover(deadFrom, scan, now) => RecoverKeeps(id, h, deadFrom, scan, now);
      case CheckLaunch(w, now) => CheckLaunchKeeps(id, h, w, now);
      case ServeVerify(call, digest, locator, peer, device) =>
        ServeVerifyKeeps(id, h, call, digest, locator, peer, device);
      case AcknowledgeContext(phase, scope, session, at, clock) => AckKeeps(id, h, phase, scope, session, at, clock);
      case ChooseSession(found, cancelled, now) => ChooseKeeps(id, h, t, found, cancelled, now);
      case BindSession(persistOk, writeOk, cancelled, now) => BindKeeps(id, h, t, persistOk, writeOk, cancelled, now);
      case PollSession(now) => PollKeeps(id, h, t, now);
      case SendPrompt(ok, cancelled, now) => SendKeeps(id, h, t, ok, cancelled, now);
      case AcceptLaunch(persistOk, now) => AcceptKeeps(id, h, t, persistOk, now);
    }
  }
}
