/**
 What one step can change and which event alone can change it: nothing settled is undone,
 and each outcome that matters has exactly one kind of cause.
 */
module StepFacts {
  import opened Wrappers
  import opened Records
  import opened RecordStore
  import opened Sessions
  import opened Outbox
  import opened Application
  import opened HandoffWorld
  import opened WorldInvariant
  import opened TargetInvariant

  // ---- what is never undone --------------------------------------------------------------------------

  ghost predicate SourceLater(r: SourceRecord, r': SourceRecord) {
    && r'.manifest == r.manifest && r'.digest == r.digest
    && (r.state.SourceAccepted? ==> r'.state.SourceAccepted? && r'.locator == r.locator)
    && (r.contextLoaded.Some? ==> r'.contextLoaded == r.contextLoaded)
    && (r.state.SourceFailed? ==> r'.state.SourceFailed?)
  }

  ghost predicate TargetLater(r: TargetRecord, r': TargetRecord) {
    && r'.manifest == r.manifest && r'.digest == r.digest
    && (r.state.TargetAccepted? ==> r'.state.TargetAccepted?)
    && (r.state.Rejected? ==> r'.state.Rejected?)
    && (r.locator.Some? ==> r'.locator == r.locator || r'.state.Rejected?)
    && (r.contextLoaded.Some? ==> r'.contextLoaded == r.contextLoaded)
  }

  ghost predicate LogLater(g: Log, g': Log) {
    && g.past <= g'.past && (g.operatorLaunched ==> g'.operatorLaunched)
    && g.bound <= g'.bound && g.prompted <= g'.prompted && g.ackedBy <= g'.ackedBy && g.closes <= g'.closes
  }

  ghost predicate Later(h: Handoff, h': Handoff) {
    && (h.source.Some? ==> h'.source.Some? && SourceLater(h.source.value, h'.source.value))
    && (h.target.Some? ==> h'.target.Some? && TargetLater(h.target.value, h'.target.value))
    && LogLater(h.log, h'.log)
    && h.net.launchCalls <= h'.net.launchCalls
  }

  lemma LaterTransitive(a: Handoff, b: Handoff, c: Handoff)
    requires Later(a, b) && Later(b, c)
    ensures Later(a, c)
  {
  }

  // ---- the source's steps --------------------------------------------------------------------------------

  /** A source step leaves everything of the target alone. */
  ghost predicate SourceFrame(h: Handoff, h': Handoff) {
    && h'.target == h.target && h'.targetWork == h.targetWork
    && h'.log.bound == h.log.bound && h'.log.prompted == h.log.prompted && h'.log.ackedBy == h.log.ackedBy
  }

  predicate IsRetired(s: Option<SourceRecord>) {
    s.Some? && s.value.retirement.Some? && s.value.retirement.value.state.Retired?
  }

  predicate InState(s: Option<SourceRecord>, state: SourceState) { s.Some? && s.value.state == state }

  /** The exact source session, as the catalog showed it, was over. */
  predicate SawExit(r: SourceRecord, d: Option<Detail>) { ExactSource(r, d).Some? && d.value.exited }

  ghost predicate SourceCauses(h: Handoff, e: SourceEvent, h': Handoff) {
    && (h'.log.operatorLaunched && !h.log.operatorLaunched ==> e.OperatorLaunch?)
    && (InState(h.source, RemotePrepared) && InState(h'.source, LaunchingRemote) ==> e.OperatorLaunch?)
    && (h'.log.closes != h.log.closes ==>
          && e.LookAtSource? && h.source.Some? && MayClose(h.source.value, e.seen) && h'.source == h.source
          && h'.log.closes == h.log.closes + {Close(h.source.value.manifest.source, h.source.value.contextLoaded)})
    && (IsRetired(h'.source) && !IsRetired(h.source) ==>
          && h.source.Some?
          && ((e.LookAtSource? && SawExit(h.source.value, e.seen))
            || (e.SourceClosed? && e.closed && SawExit(h.source.value, e.after))))
  }

  ghost predicate SourceFacts(h: Handoff, e: SourceEvent, h': Handoff) {
    SourceFrame(h, h') && Later(h, h') && SourceCauses(h, e, h')
  }

  /** A verdict's write moves no settled record and retires nothing. */
  lemma VerdictFacts(h: Handoff, e: SourceEvent, r: SourceRecord, v: Verdict, now: Time)
    requires h.source == Some(r) && (e.EndPrepare? || e.EndLaunch?) && !r.state.RemotePrepared?
    ensures SourceFacts(h, e, EndSource(h, StoredVerdict(r, r, v, now)))
  {
    SourceEffect(r, r.revision, VerdictState(v), Settled(r, v, now), now);
    hide SourceTransition, ValidSource, MayClose, ExactSource;
  }

  lemma QueueFacts(h: Handoff, e: SourceEvent)
    requires e.Queue?
    ensures var next := QueueStep(h, e.m, e.clock); next.Some? ==> SourceFacts(h, e, next.value)
  {
    hide ValidSource, MayClose;
  }

  lemma StartPrepareFacts(h: Handoff, e: SourceEvent)
    requires e.StartPrepare? && h.source.Some? && ValidSource(h.source.value)
    ensures var next := StartPrepareStep(h, e.force, e.due, e.now); next.Some? ==> SourceFacts(h, e, next.value)
  {
    PreparePlanEffect(h.source.value, e.force, e.due, e.now);
    PlanKeepsProof(h.source.value, e.force, e.due, e.now);
    hide PreparePlan, ValidSource, MayClose, ExactSource;
  }

  lemma PlanKeepsProof(r: SourceRecord, force: bool, due: Time, now: Time)
    ensures var plan := PreparePlan(r, force, due, now);
            plan.Call? ==> plan.record.contextLoaded == r.contextLoaded && plan.record.retirement == r.retirement
    ensures var plan := LaunchPlan(r, force, due, now);
            plan.Call? ==> plan.record.contextLoaded == r.contextLoaded && plan.record.retirement == r.retirement
  {
    hide ValidSource;
  }

  lemma StartLaunchFacts(h: Handoff, force: bool, due: Time, now: Time)
    requires h.source.Some? && ValidSource(h.source.value)
    ensures var h' := StartLaunch(h, force, due, now);
            SourceFrame(h, h') && Later(h, h') && h'.log.closes == h.log.closes
              && h'.log.operatorLaunched == h.log.operatorLaunched
            && (IsRetired(h'.source) ==> IsRetired(h.source))
  {
    LaunchPlanEffect(h.source.value, force, due, now);
    PlanKeepsProof(h.source.value, force, due, now);
    hide LaunchPlan, ValidSource, MayClose;
  }

  /** `retire` writes nothing but its request. */
  lemma AskRetireFacts(h: Handoff, e: SourceEvent)
    requires e.AskRetire? && h.source.Some? && ValidSource(h.source.value)
    ensures var next := AskRetireStep(h, e.device, e.mode, e.timeout, e.seen, e.now);
        next.Some? ==> SourceFacts(h, e, next.value)
  {
    RequestEffect(h.source.value, e.device, e.mode, e.timeout, e.seen, e.now);
    RequestRetiresNothing(h.source.value, e.device, e.mode, e.timeout, e.seen, e.now);
    hide RequestPlan, ValidSource, MayClose, ExactSource;
  }

  lemma RequestRetiresNothing(r: SourceRecord, device: string, mode: RetirementMode, timeout: int, seen: Option<Detail>,
      now: Time)
    ensures var plan := RequestPlan(r, device, mode, timeout, seen, now);
            plan.Call? ==> (plan.record.retirement == r.retirement
                            || (r.retirement.None? && plan.record.retirement.Some?
                              && plan.record.retirement.value.state.Pending?))
  {
    hide ValidSource;
  }

  lemma CompleteFacts(h: Handoff, e: SourceEvent, now: Time)
    requires h.source.Some? && ValidSource(h.source.value)
    requires (e.LookAtSource? && SawExit(h.source.value, e.seen))
        || (e.SourceClosed? && e.closed && SawExit(h.source.value, e.after))
    ensures SourceFacts(h, e, CompleteStored(h, h.source.value, now))
  {
    var r := h.source.value;
    ProofEffects(r, r.revision, Ack(ContextLoaded, r.digest, Locator("", "", ""), 0), TransitionTime(now, r.updated),
      now);
    hide CompleteRetirement, RecordContext, ValidSource, MayClose;
  }

  lemma LookFacts(id: string, h: Handoff, e: SourceEvent)
    requires e.LookAtSource? && h.source.Some? && Inv(id, h)
    ensures LookStep(h, e.seen, e.now).Some? ==> SourceFacts(h, e, LookStep(h, e.seen, e.now).value)
  {
    if h.sourceWork.RetiringSource? {
      var r := h.sourceWork.record;
      assert h.source == Some(r) && ValidSource(r);
      hide Inv, ValidSource, CompleteRetirement, AfterTurnReady;
      if !MayClose(r, e.seen) && SawExit(r, e.seen) { CompleteFacts(h, e, e.now); }
    }
  }

  lemma ClosedFacts(id: string, h: Handoff, e: SourceEvent)
    requires e.SourceClosed? && h.source.Some? && Inv(id, h)
    ensures ClosedStep(h, e.closed, e.after, e.now).Some? ==>
        SourceFacts(h, e, ClosedStep(h, e.closed, e.after, e.now).value)
  {
    if h.sourceWork.ClosingSource? {
      var r := h.sourceWork.record;
      assert h.source == Some(r) && ValidSource(r);
      hide Inv, ValidSource, CompleteRetirement, MayClose;
      if e.closed && SawExit(r, e.after) { CompleteFacts(h, e, e.now); }
    }
  }

  lemma EndVerifyFacts(id: string, h: Handoff, e: SourceEvent)
    requires e.EndVerify? && h.source.Some? && Inv(id, h)
    ensures EndVerifyStep(h, e.verification, e.now).Some? ==>
        SourceFacts(h, e, EndVerifyStep(h, e.verification, e.now).value)
  {
    if h.sourceWork.VerifyingCall? {
      var r := h.sourceWork.record;
      assert h.source == Some(r) && ValidSource(r);
      hide Inv, MayClose, ValidSource;
      if e.verification.Answer? && e.verification.value.ack.Some? {
        RecordContextEffect(r, r.revision, e.verification.value.ack.value, TransitionTime(e.now, r.updated), e.now);
      }
      hide RecordContext;
    }
  }

  lemma RecordContextEffect(r: SourceRecord, expected: nat, ack: Ack, at: Time, clock: Time)
    ensures var res := RecordContext(r, expected, ack, at, clock);
            res.Ok? ==>
              && SourceLater(r, res.value) && res.value.state == r.state && res.value.retirement == r.retirement
              && (r.contextLoaded.Some? ==> res.value == r)
  {
    hide ValidSource, ValidAck;
  }

  lemma EndCallFacts(id: string, h: Handoff, e: SourceEvent)
    requires h.source.Some? && Inv(id, h)
    ensures e.EndPrepare? ==> var next := EndPrepareStep(h, e.reply, e.now);
        next.Some? ==> SourceFacts(h, e, next.value)
    ensures e.EndLaunch? ==> var next := EndLaunchStep(h, e.reply, e.now); next.Some? ==> SourceFacts(h, e, next.value)
  {
    var r := h.source.value;
    if e.EndPrepare? && h.sourceWork.PreparingCall? {
      assert h.sourceWork.record == r && !r.state.RemotePrepared?;
      hide Inv, SourceFacts, StoredVerdict, PrepareVerdict;
      VerdictFacts(h, e, r, PrepareVerdict(r, e.reply), e.now);
    } else if e.EndLaunch? && h.sourceWork.LaunchingCall? {
      assert h.sourceWork.record == r && !r.state.RemotePrepared?;
      hide Inv, SourceFacts, StoredVerdict, LaunchVerdict;
      VerdictFacts(h, e, r, LaunchVerdict(r, e.reply), e.now);
    }
  }

  lemma LaunchFacts(id: string, h: Handoff, e: SourceEvent)
    requires h.source.Some? && Inv(id, h)
    ensures e.OperatorLaunch? ==> var next := OperatorLaunchStep(h, e.due, e.now);
        next.Some? ==> SourceFacts(h, e, next.value)
    ensures e.ResumeLaunch? ==> var next := ResumeLaunchStep(h, e.force, e.due, e.now);
        next.Some? ==> SourceFacts(h, e, next.value)
  {
    assert ValidSource(h.source.value);
    if e.OperatorLaunch? {
      StartLaunchFacts(Authorized(h), true, e.due, e.now);
    } else if e.ResumeLaunch? && ResumeLaunchStep(h, e.force, e.due, e.now).Some? {
      StartLaunchFacts(h, e.force, e.due, e.now);
      ResumeNeedsLaunch(id, h);
    }
    hide Inv, ValidSource, StartLaunch;
  }

  lemma SourceStepFacts(id: string, h: Handoff, e: SourceEvent)
    requires Inv(id, h)
    ensures SourceNext(h, e).Some? ==> SourceFacts(h, e, SourceNext(h, e).value)
  {
    if e.SourceAborts? || e.StartVerify? || e.ResumeRetire? {
      hide Inv, ValidSource, MayClose, ExactSource;
    } else {
      hide SourceFacts, QueueStep, StartPrepareStep, EndPrepareStep, OperatorLaunchStep, ResumeLaunchStep,
        EndLaunchStep, EndVerifyStep, AskRetireStep,
        LookStep, ClosedStep;
      if e.Queue? {
        QueueFacts(h, e);
      } else if h.source.Some? {
        assert ValidSource(h.source.value);
        hide Inv, ValidSource;
        match e
        case StartPrepare(_, _, _) => StartPrepareFacts(h, e);
        case EndPrepare(_, _) => EndCallFacts(id, h, e);
        case OperatorLaunch(_, _) => LaunchFacts(id, h, e);
        case ResumeLaunch(_, _, _) => LaunchFacts(id, h, e);
        case EndLaunch(_, _) => EndCallFacts(id, h, e);
        case EndVerify(_, _) => EndVerifyFacts(id, h, e);
        case AskRetire(_, _, _, _, _) => AskRetireFacts(h, e);
        case LookAtSource(_, _) => LookFacts(id, h, e);
        case SourceClosed(_, _, _) => ClosedFacts(id, h, e);
        case _ =>
      }
    }
  }

  lemma ResumeNeedsLaunch(id: string, h: Handoff)
    requires Inv(id, h) && (LaunchingRemote in h.log.past || LaunchRetryWait in h.log.past) && h.source.Some?
    ensures !BeforeLaunch(h.source.value.state)
  {
    hide ValidSource, ValidTarget;
  }

  // ---- the target's steps ----------------------------------------------------------------------------------

  /** A target step leaves everything of the source alone. */
  ghost predicate TargetFrame(h: Handoff, h': Handoff) {
    && h'.source == h.source && h'.sourceWork == h.sourceWork && h'.net.launchCalls == h.net.launchCalls
    && h'.log.past == h.log.past && h'.log.operatorLaunched == h.log.operatorLaunched && h'.log.closes == h.log.closes
  }

  predicate Launched(h: Handoff) { h.target.Some? && TargetInLaunch(h.target.value.state) }

  predicate Accepted(h: Handoff) { h.target.Some? && h.target.value.state.TargetAccepted? }

  /** The stored record is launching and names the session. */
  predicate NamesSession(h: Handoff, sid: string) {
    h.target.Some? && h.target.value.state.Launching? && h.target.value.locator.Some?
      && h.target.value.locator.value.session == sid
  }

  ghost predicate LaunchCause(h: Handoff, e: TargetEvent, h': Handoff) {
    Launched(h') && !Launched(h) ==> e.DeliverLaunch? && h.target.Some? && h.target.value.state.Prepared?
  }

  ghost predicate AcceptCause(h: Handoff, t: Table, e: TargetEvent, h': Handoff, t': Table) {
    Accepted(h') && !Accepted(h) ==>
      && e.AcceptLaunch? && e.persistOk && h.target.Some? && h.target.value.locator.Some?
      && h.target.value.locator.value.session in t.live
      && t.live[h.target.value.locator.value.session].command == EvidenceOf(h.target.value)
      && t'.disk == Durable(t.live)
  }

  ghost predicate BindCause(h: Handoff, e: TargetEvent, h': Handoff) {
    h'.log.bound != h.log.bound ==>
      && e.BindSession? && h.target.Some? && h.target.value.state.Launching? && h.target.value.locator.None?
      && h'.target.Some? && h'.target.value.locator.Some?
        && h'.log.bound == h.log.bound + {h'.target.value.locator.value}
  }

  ghost predicate PromptCause(h: Handoff, t: Table, e: TargetEvent, h': Handoff, t': Table) {
    && (h'.log.prompted != h.log.prompted ==>
          e.SendPrompt? && exists sid <- t.live :: NamesSession(h, sid) && h'.log.prompted == h.log.prompted + {sid})
    && (t'.delivered != t.delivered ==>
          e.SendPrompt? && e.ok && exists sid <- t.live ::
            NamesSession(h, sid)
            && t'.delivered == t.delivered + {(sid, MarkerOf(h.target.value))})
  }

  ghost predicate AckCause(h: Handoff, e: TargetEvent, h': Handoff) {
    h'.log.ackedBy != h.log.ackedBy ==>
      && e.AcknowledgeContext? && e.phase.ContextLoaded? && h'.log.ackedBy == h.log.ackedBy + {e.session}
      && Accepted(h) && h.target.value.locator.Some? && h.target.value.locator.value.session == e.session
  }

  ghost predicate TargetCauses(h: Handoff, t: Table, e: TargetEvent, h': Handoff, t': Table) {
    LaunchCause(h, e, h') && AcceptCause(h, t, e, h', t') && BindCause(h, e, h') && PromptCause(h, t, e, h', t')
      && AckCause(h, e, h')
  }

  ghost predicate TargetFacts(h: Handoff, t: Table, e: TargetEvent, h': Handoff, t': Table) {
    TargetFrame(h, h') && Later(h, h') && TargetCauses(h, t, e, h', t')
  }

  /** Ending an operation only moves the record, and never into a launch it was not in. */
  ghost predicate Ended(h: Handoff, h': Handoff) {
    && TargetFrame(h, h') && Later(h, h') && h'.log == h.log && (Launched(h') ==> Launched(h))
  }

  /** Outside the launch states a record names no session. */
  lemma Unbound(r: TargetRecord)
    requires ValidTarget(r)
    ensures r.locator.Some? ==> TargetLocatorState(r.state)
  {
  }

  lemma EndTargetFacts(h: Handoff, r: TargetRecord, call: Option<nat>, launch: bool, v: TargetVerdict, now: Time)
    requires h.target == Some(r) && ValidTarget(r) && Allowed(r, launch, v)
    ensures Ended(h, EndTarget(h, r, call, launch, v, now))
    ensures Accepted(EndTarget(h, r, call, launch, v, now)) ==>
        Accepted(h) || (launch && v == Forward(TargetAccepted, r.locator))
  {
    if !v.Interrupted? && !v.LostRecord? {
      VerdictLater(r, launch, v, now);
      hide TargetTransition, TargetTransitionFor, TargetLater, ValidTarget, StatusOf, Allowed;
    }
  }

  lemma VerdictLater(r: TargetRecord, launch: bool, v: TargetVerdict, now: Time)
    requires ValidTarget(r) && Allowed(r, launch, v) && !v.Interrupted? && !v.LostRecord?
    ensures var settled := TargetTransition(r, r.revision, TargetVerdictState(v), TargetTransitionFor(r, v, now), now);
            settled.Ok? ==>
              && TargetLater(r, settled.value) && (TargetInLaunch(settled.value.state) ==> TargetInLaunch(r.state))
              && (settled.value.state.TargetAccepted? ==> launch && v == Forward(TargetAccepted, r.locator))
  {
    Unbound(r);
    TargetEffect(r, r.revision, TargetVerdictState(v), TargetTransitionFor(r, v, now), now);
    hide TargetTransition, ValidTarget;
  }

  /** A write of the record alone. */
  lemma MoveFacts(h: Handoff, t: Table, e: TargetEvent, r': TargetRecord, work: TargetWork)
    requires h.target.Some? && TargetLater(h.target.value, r')
    requires r'.state.TargetAccepted? ==> h.target.value.state.TargetAccepted?
    requires TargetInLaunch(r'.state) && !TargetInLaunch(h.target.value.state) ==>
        e.DeliverLaunch? && h.target.value.state.Prepared?
    ensures TargetFacts(h, t, e, h.(target := Some(r'), targetWork := work), t)
  {
    hide TargetLater;
  }

  lemma EnterLater(r: TargetRecord, next: TargetState, now: Time)
    requires ValidTarget(r) && (next.Validating? || next.Launching?)
    ensures var plan := EnterTarget(r, next, now);
        plan.Work? ==> TargetLater(r, plan.record) && plan.record.state == next && LegalTarget(r.state, next)
  {
    Unbound(r);
    EnterTargetEffect(r, next, now);
    hide EnterTarget, ValidTarget;
  }

  /** A step that ends an operation without accepting. */
  lemma EndedFacts(h: Handoff, t: Table, e: TargetEvent, h': Handoff, t': Table)
    requires Ended(h, h') && (Accepted(h') ==> Accepted(h)) && t'.delivered == t.delivered
    ensures TargetFacts(h, t, e, h', t')
  {
    hide Later, TargetFrame;
  }

  lemma PlannedFacts(h: Handoff, t: Table, e: TargetEvent, plan: TargetPlan, call: Option<nat>, launch: bool, now: Time)
    requires h.target.Some? && ValidTarget(h.target.value)
    requires (plan.RejectFirst? ==> plan.record == h.target.value && Allowed(plan.record, launch, ArtifactsVerdict))
    requires plan.Work? ==>
               plan.record == h.target.value
               || (plan == EnterTarget(h.target.value, if launch then Launching else Validating, now)
                   && (h.target.value.state.Prepared? ==> e.DeliverLaunch?))
    ensures TargetFacts(h, t, e, Planned(h, plan, call, launch, now), t)
  {
    match plan
    case Work(r) =>
      EnterLater(h.target.value, if launch then Launching else Validating, now);
      hide EnterTarget, ValidTarget, TargetFacts, Allowed;
      MoveFacts(h, t, e, r, if launch then CheckingLaunch(r, call) else CheckingPreparation(r, call));
    case RejectFirst(r) =>
      hide EndTarget, Allowed, EnterTarget, ValidTarget, TargetFacts, Ended;
      EndTargetFacts(h, r, call, launch, ArtifactsVerdict, now);
      EndedFacts(h, t, e, EndTarget(h, r, call, launch, ArtifactsVerdict, now), t);
    case Done(_) =>
      hide EnterTarget, ValidTarget, Allowed;
  }

  lemma DeliverFacts(id: string, h: Handoff, t: Table, e: TargetEvent)
    requires Inv(id, h)
    ensures e.DeliverPrepare? ==>
              var next := DeliverPrepareStep(h, e.call, e.m, e.peer, e.w, e.clock, e.now);
                next.Some? ==> TargetFacts(h, t, e, next.value, t)
    ensures e.DeliverLaunch? && h.target.Some? ==>
              var next := DeliverLaunchStep(h, e.call, e.digest, e.peer, e.device, e.now);
                next.Some? ==> TargetFacts(h, t, e, next.value, t)
    ensures e.Recover? && h.target.Some? ==>
              var next := RecoverStep(h, e.deadFrom, e.scan, e.now); next.Some? ==> TargetFacts(h, t, e, next.value, t)
  {
    assert h.target.Some? ==> ValidTarget(h.target.value);
    hide Inv, ValidTarget, Planned, EnterTarget, TargetCauses, StatusOf;
    if e.DeliverPrepare? {
      var h1 := if h.target.None? then h.(target := Some(NewTarget(e.m, e.clock))) else h;
      EnterTargetEffect(h1.target.value, Validating, e.now);
      if ValidTarget(h1.target.value) {
        PlannedFacts(h1, t, e, ResumeTargetPlan(h1.target.value, e.w.deadFrom, e.now), Some(e.call), false, e.now);
      }
      if h.target.None? && ValidTarget(h1.target.value) {
        FirstDeliveryFacts(h, t, e, h1,
          Planned(h1, ResumeTargetPlan(h1.target.value, e.w.deadFrom, e.now), Some(e.call), false, e.now), id);
      }
    } else if e.DeliverLaunch? && h.target.Some? {
      EnterTargetEffect(h.target.value, Launching, e.now);
      PlannedFacts(h, t, e, LaunchRequestPlan(h.target.value, e.digest, e.peer, e.device, e.now), Some(e.call), true,
        e.now);
    } else if e.Recover? && h.target.Some? {
      var r := h.target.value;
      if r.state.Launching? || r.state.LaunchWaitingAssets? {
        EnterTargetEffect(r, Launching, e.now);
        PlannedFacts(h, t, e, ResumeLaunchPlan(r, e.now), None, true, e.now);
      } else {
        EnterTargetEffect(r, Validating, e.now);
        PlannedFacts(h, t, e, ResumeTargetPlan(r, e.deadFrom, e.now), None, false, e.now);
      }
    }
  }

  /** The fresh record of a first delivery is in no launch, so what follows is judged as if it had been there. */
  lemma FirstDeliveryFacts(h: Handoff, t: Table, e: TargetEvent, h1: Handoff, h': Handoff, id: string)
    requires Inv(id, h) && h.target.None? && e.DeliverPrepare? && h1 == h.(target := Some(NewTarget(e.m, e.clock)))
        && TargetFacts(h1, t, e, h', t)
    ensures TargetFacts(h, t, e, h', t)
  {
    hide Inv, ValidTarget;
  }

  lemma CheckFacts(id: string, h: Handoff, t: Table, e: TargetEvent)
    requires Inv(id, h) && h.target.Some?
    ensures e.CheckLaunch? ==> var next := CheckLaunchStep(h, e.launch, e.now);
        next.Some? ==> TargetFacts(h, t, e, next.value, t)
    ensures e.EndPreparation? ==> var next := EndPreparationStep(h, e.w, e.now);
        next.Some? ==> TargetFacts(h, t, e, next.value, t)
  {
    if e.CheckLaunch? && h.targetWork.CheckingLaunch? {
      LaunchInHand(id, h);
      var r := h.targetWork.record;
      hide Inv, EndTarget, ValidTarget;
      var check := LaunchCheck(r, e.launch);
      if check.Some? {
        hide TargetFacts, Ended;
        EndTargetFacts(h, r, h.targetWork.call, true, check.value, e.now);
        EndedFacts(h, t, e, EndTarget(h, r, h.targetWork.call, true, check.value, e.now), t);
      }
    } else if e.EndPreparation? && h.targetWork.CheckingPreparation? {
      var r := h.targetWork.record;
      assert h.target == Some(r) && r.state.Validating? && ValidTarget(r);
      hide Inv, EndTarget, ValidTarget, TargetFacts, Ended;
      EndTargetFacts(h, r, h.targetWork.call, false, PrepareVerdictFor(r, e.w), e.now);
      EndedFacts(h, t, e, EndTarget(h, r, h.targetWork.call, false, PrepareVerdictFor(r, e.w), e.now), t);
    }
  }

  lemma AckFacts(h: Handoff, t: Table, e: TargetEvent)
    requires h.target.Some? && ValidTarget(h.target.value) && e.AcknowledgeContext?
    ensures var next := AcknowledgeStep(h, e.phase, e.scope, e.session, e.at, e.clock);
        next.Some? ==> TargetFacts(h, t, e, next.value, t)
  {
    AckEffect(h.target.value, e.phase, e.scope, e.session, e.at, e.clock);
    hide Acknowledge, ValidTarget;
  }

  /** An operation that ends in a wait or a rejection. */
  lemma StopFacts(h: Handoff, t: Table, e: TargetEvent, v: TargetVerdict, now: Time, t': Table)
    requires !h.targetWork.TargetIdle? && h.target == Some(h.targetWork.record) && h.targetWork.record.state.Launching?
        && ValidTarget(h.targetWork.record)
    requires v.Reject? || v.Interrupted? || (v.Wait? && v.next.LaunchWaitingAssets?)
    requires t'.delivered == t.delivered
    ensures TargetFacts(h, t, e, EndTarget(h, h.targetWork.record, h.targetWork.call, true, v, now), t')
  {
    hide EndTarget, TargetFacts, Ended;
    EndTargetFacts(h, h.targetWork.record, h.targetWork.call, true, v, now);
    EndedFacts(h, t, e, EndTarget(h, h.targetWork.record, h.targetWork.call, true, v, now), t');
  }

  lemma ChooseFacts(id: string, h: Handoff, t: Table, e: TargetEvent)
    requires Inv(id, h) && h.target.Some? && e.ChooseSession?
    ensures var next := ChooseStep(h, t, e.found, e.cancelled, e.now);
        next.Some? ==> TargetFacts(h, t, e, next.value.0, next.value.1)
  {
    if h.targetWork.Choosing? {
      LaunchInHand(id, h);
      hide Inv, EndTarget, MayCreate, ValidTarget;
      var r := h.targetWork.record;
      if r.locator.Some? {
        if ChooseBound(r, t.live).NoSession? { StopFacts(h, t, e, ConflictVerdict, e.now, t); }
      } else if e.found.None? {
        StopFacts(h, t, e, if e.cancelled then Interrupted else NotReadyVerdict, e.now, t);
      }
    }
  }

  lemma BindFacts(id: string, h: Handoff, t: Table, e: TargetEvent)
    requires Inv(id, h) && h.target.Some? && e.BindSession?
    ensures var next := BindStep(h, t, e.persistOk, e.writeOk, e.cancelled, e.now);
        next.Some? ==> TargetFacts(h, t, e, next.value.0, next.value.1)
  {
    if h.targetWork.Created? {
      LaunchInHand(id, h);
      CreatedUnbound(id, h);
      hide Inv, EndTarget, BindLocator, ValidTarget, Durable;
      var r := h.targetWork.record;
      if h.targetWork.session.identity != h.targetWork.identity {
        StopFacts(h, t, e, ConflictVerdict, e.now, t);
      } else if !e.persistOk {
        StopFacts(h, t, e, if e.cancelled then Interrupted else NotReadyVerdict, e.now, t);
      } else {
        BindEffect(r, r.revision, LocatorFor(r, h.targetWork.session.id), TransitionTime(e.now, r.updated), e.now);
      }
    }
  }

  lemma CreatedUnbound(id: string, h: Handoff)
    requires Inv(id, h) && h.targetWork.Created?
    ensures h.targetWork.record.locator.None?
  {
    hide ValidSource, ValidTarget;
  }

  lemma PollFacts(id: string, h: Handoff, t: Table, e: TargetEvent)
    requires Inv(id, h) && h.target.Some? && e.PollSession?
    ensures var next := PollStep(h, t, e.now); next.Some? ==> TargetFacts(h, t, e, next.value, t)
  {
    if h.targetWork.Watching? {
      LaunchInHand(id, h);
      hide Inv, EndTarget, ValidTarget, Poll;
      if AtSession(h, t) && Poll(h.targetWork.record, h.targetWork.identity,
        t.live[h.targetWork.record.locator.value.session]).PollConflict? {
        StopFacts(h, t, e, ConflictVerdict, e.now, t);
      }
    }
  }

  lemma SendFacts(id: string, h: Handoff, t: Table, e: TargetEvent)
    requires Inv(id, h) && h.target.Some? && e.SendPrompt?
    ensures var next := SendStep(h, t, e.ok, e.cancelled, e.now);
        next.Some? ==> TargetFacts(h, t, e, next.value.0, next.value.1)
  {
    if AtSession(h, t) && h.targetWork.Prompting? {
      LaunchInHand(id, h);
      hide Inv, EndTarget, ValidTarget;
      var sid := h.targetWork.record.locator.value.session;
      assert NamesSession(h, sid);
      if !e.ok {
        var t1 := t.(live := t.live[sid := t.live[sid].(phase := Stuck)]);
        StopFacts(Prompted(h, sid), t, e, if e.cancelled then Interrupted else UnconfirmedVerdict, e.now, t1);
      }
    }
  }

  lemma AcceptFacts(id: string, h: Handoff, t: Table, e: TargetEvent)
    requires Inv(id, h) && h.target.Some? && e.AcceptLaunch?
    ensures var next := AcceptStep(h, t, e.persistOk, e.now);
        next.Some? ==> TargetFacts(h, t, e, next.value.0, next.value.1)
  {
    if AtSession(h, t) && h.targetWork.Confirmed? {
      LaunchInHand(id, h);
      hide Inv, EndTarget, ValidTarget, Durable;
      var r := h.targetWork.record;
      if t.live[r.locator.value.session].command != EvidenceOf(r) {
        StopFacts(h, t, e, NoEvidenceVerdict, e.now, t);
      } else if !e.persistOk {
        StopFacts(h, t, e, NotPersistedVerdict, e.now, t);
      } else {
        EndTargetFacts(h, r, h.targetWork.call, true, Forward(TargetAccepted, r.locator), e.now);
      }
    }
  }

  /** The session events are taken apart from the others only to keep each proof small. */
  lemma SessionEventFacts(id: string, h: Handoff, t: Table, e: TargetEvent)
    requires Inv(id, h) && h.target.Some?
    requires e.ChooseSession? || e.BindSession? || e.PollSession? || e.SendPrompt? || e.AcceptLaunch?
    ensures TargetNext(h, t, e).Some? ==> TargetFacts(h, t, e, TargetNext(h, t, e).value.0, TargetNext(h, t, e).value.1)
  {
    hide Inv, TargetFacts, ChooseStep, BindStep, PollStep, SendStep, AcceptStep;
    if e.ChooseSession? { ChooseFacts(id, h, t, e); }
    else if e.BindSession? { BindFacts(id, h, t, e); }
    else if e.PollSession? { PollFacts(id, h, t, e); }
    else if e.SendPrompt? { SendFacts(id, h, t, e); }
    else { AcceptFacts(id, h, t, e); }
  }

  lemma RequestEventFacts(id: string, h: Handoff, t: Table, e: TargetEvent)
    requires Inv(id, h)
    requires e.DeliverPrepare?
        || (h.target.Some? && (e.EndPreparation? || e.DeliverLaunch? || e.Recover? || e.CheckLaunch?
        || e.AcknowledgeContext?))
    ensures TargetNext(h, t, e).Some? ==> TargetFacts(h, t, e, TargetNext(h, t, e).value.0, TargetNext(h, t, e).value.1)
  {
    hide TargetFacts, DeliverPrepareStep, EndPreparationStep, DeliverLaunchStep, RecoverStep, CheckLaunchStep,
      AcknowledgeStep;
    if e.AcknowledgeContext? {
      assert ValidTarget(h.target.value);
      hide Inv, ValidTarget;
      AckFacts(h, t, e);
    } else {
      hide Inv;
      if e.EndPreparation? || e.CheckLaunch? { CheckFacts(id, h, t, e); } else { DeliverFacts(id, h, t, e); }
    }
  }

  lemma TargetStepFacts(id: string, h: Handoff, t: Table, e: TargetEvent)
    requires Inv(id, h)
    ensures TargetNext(h, t, e).Some? ==> TargetFacts(h, t, e, TargetNext(h, t, e).value.0, TargetNext(h, t, e).value.1)
  {
    if e.TargetAborts? || e.ServeVerify? {
      hide Inv, ValidTarget;
    } else {
      hide Inv, TargetFacts;
      if e.ChooseSession? || e.BindSession? || e.PollSession? || e.SendPrompt? || e.AcceptLaunch? {
        if h.target.Some? { SessionEventFacts(id, h, t, e); }
      } else if e.DeliverPrepare? || h.target.Some? {
        RequestEventFacts(id, h, t, e);
      }
    }
  }
}
