/**
 The outcomes of single operations, lifted to every run of the two devices: how each call of
 the source ends, from where a target enters a launch, and on what it becomes prepared.
 */
module OutcomeRuns {
  import opened Wrappers
  import opened Records
  import opened RecordStore
  import opened StoreLaws
  import opened Sessions
  import opened Outbox
  import opened SourceOutcomes
  import opened Application
  import opened TargetOutcomes
  import opened HandoffWorld
  import opened WorldInvariant
  import opened TargetInvariant
  import opened StepFacts
  import opened WorldTheorems
  import opened HandoffTheorems
  import opened Parting
  import opened MachineMatchesCode

  // ---- how the source's calls end --------------------------------------------------------------------------

  lemma EndsPreparing(id: string, h: Handoff, reply: Reply<Status>, now: Time)
    requires Inv(id, h) && SourceNext(h, EndPrepare(reply, now)).Some?
    ensures h.source.Some? && h.source == Some(h.sourceWork.record) && h.source.value.state.PreparingRemote?
    ensures var r := h.source.value; var r' := SourceNext(h, EndPrepare(reply, now)).value.source.value;
            r.revision < LastRevision ==>
              && SourceNext(h, EndPrepare(reply, now)).value.source.Some?
              && (r'.state.RemotePrepared? <==> reply.Answer? && reply.value.state.Prepared?)
              && (r'.state.SourceFailed? <==>
                    if reply.Failed? then FatalPrepareError(reply.error) else reply.value.state.Rejected?)
              && (!r'.state.RemotePrepared? && !r'.state.SourceFailed? ==>
                    r'.failure.Some? && Waits(r, r', RetryWait, r'.failure.value.code, r'.failure.value.message, now))
  {
    assert h.sourceWork.PreparingCall? && h.source == Some(h.sourceWork.record);
    var r := h.sourceWork.record;
    assert ValidSource(r) && r.state.PreparingRemote?;
    PrepareGivesUpExactlyWhen(id, h, reply);
    hide Inv, ValidSource, PrepareVerdict, FatalPrepareError, RejectedTarget, SourceTransition;
    if r.revision < LastRevision { PreparingCallEnds(r, reply, now); }
  }

  /** In every run, a preparing call goes on exactly when the target answers `prepared`, ends the handoff for good
      exactly on a fatal call error or the target's own rejection, and otherwise leaves the record waiting for 15
      seconds with a retryable failure. */
  lemma PreparingEndsInRun(run: Run, i: nat, id: string)
    requires IsRun(run) && i < |run.events|
    requires run.events[i].AtSource? && run.events[i].id == id && run.events[i].se.EndPrepare?
    ensures var h, e, h' := Get(run.worlds[i], id), run.events[i].se, Get(run.worlds[i + 1], id);
            && h.source.Some? && h'.source.Some? && h.source.value.state.PreparingRemote?
            && (h.source.value.revision < LastRevision ==>
                  var r, r' := h.source.value, h'.source.value;
                  && (r'.state.RemotePrepared? <==> e.reply.Answer? && e.reply.value.state.Prepared?)
                  && (r'.state.SourceFailed? <==>
                        if e.reply.Failed? then FatalPrepareError(e.reply.error) else e.reply.value.state.Rejected?)
                  && (!r'.state.RemotePrepared? && !r'.state.SourceFailed? ==>
                        r'.failure.Some? && Waits(r, r', RetryWait, r'.failure.value.code, r'.failure.value.message,
                          e.now)))
  {
    hide Inv, WorldInv, FatalPrepareError, Waits, SourceNext, TargetNext;
    HandoffInv(run, i, id);
    assert StepOf(run, i);
    var h, e := Get(run.worlds[i], id), run.events[i].se;
    assert SourceNext(h, e) == Some(Get(run.worlds[i + 1], id));
    EndsPreparing(id, h, e.reply, e.now);
    SourceStays(h, e);
  }

  lemma SourceStays(h: Handoff, e: SourceEvent)
    requires SourceNext(h, e).Some? && h.source.Some?
    ensures SourceNext(h, e).value.source.Some?
  {
    hide StoredVerdict, VerifiedRecord, PreparePlan, LaunchPlan, RequestPlan, MayClose, CompleteRetirement, ExactSource,
      ValidSource;
  }

  lemma EndsLaunching(id: string, h: Handoff, reply: Reply<Status>, now: Time)
    requires Inv(id, h) && SourceNext(h, EndLaunch(reply, now)).Some?
    ensures h.source.Some? && h.source == Some(h.sourceWork.record) && h.source.value.state.LaunchingRemote?
    ensures var r := h.source.value; var r' := SourceNext(h, EndLaunch(reply, now)).value.source.value;
            r.revision < LastRevision ==>
              && SourceNext(h, EndLaunch(reply, now)).value.source.Some?
              && (r'.state.SourceAccepted? <==> reply.Answer? && reply.value.state.TargetAccepted?)
              && (r'.state.SourceAccepted? ==> r'.locator == reply.value.locator)
              && (r'.state.SourceFailed? <==>
                    if reply.Failed? then FatalLaunchError(reply.error) else reply.value.state.Rejected?)
              && (!r'.state.SourceAccepted? && !r'.state.SourceFailed? ==>
                    r'.failure.Some? && Waits(r, r', LaunchRetryWait, r'.failure.value.code, r'.failure.value.message,
                      now))
  {
    assert h.sourceWork.LaunchingCall? && h.source == Some(h.sourceWork.record);
    var r := h.sourceWork.record;
    assert ValidSource(r) && r.state.LaunchingRemote?;
    if reply.Answer? {
      LaunchAnswerIsAtHome(id, h, h.sourceWork.call, reply.value);
      AcceptableExactly(r, reply.value);
    }
    hide Inv, ValidSource, LaunchVerdict, FatalLaunchError, SourceTransition, AcceptableLocator, ShownID, ValidID;
    if r.revision < LastRevision { LaunchingCallEnds(r, reply, now); }
  }

  /** In every run, a launching call is accepted exactly when the target answers that it accepted, with the target's
      locator, ends the handoff for good exactly on a fatal call error or the target's own rejection, and otherwise
      leaves the record waiting. */
  lemma LaunchingEndsInRun(run: Run, i: nat, id: string)
    requires IsRun(run) && i < |run.events|
    requires run.events[i].AtSource? && run.events[i].id == id && run.events[i].se.EndLaunch?
    ensures var h, e, h' := Get(run.worlds[i], id), run.events[i].se, Get(run.worlds[i + 1], id);
            && h.source.Some? && h'.source.Some? && h.source.value.state.LaunchingRemote?
            && (h.source.value.revision < LastRevision ==>
                  var r, r' := h.source.value, h'.source.value;
                  && (r'.state.SourceAccepted? <==> e.reply.Answer? && e.reply.value.state.TargetAccepted?)
                  && (r'.state.SourceAccepted? ==> r'.locator == e.reply.value.locator)
                  && (r'.state.SourceFailed? <==>
                        if e.reply.Failed? then FatalLaunchError(e.reply.error) else e.reply.value.state.Rejected?)
                  && (!r'.state.SourceAccepted? && !r'.state.SourceFailed? ==>
                        r'.failure.Some?
                        && Waits(r, r', LaunchRetryWait, r'.failure.value.code, r'.failure.value.message, e.now)))
  {
    hide Inv, WorldInv, FatalLaunchError, Waits, SourceNext, TargetNext;
    HandoffInv(run, i, id);
    assert StepOf(run, i);
    var h, e := Get(run.worlds[i], id), run.events[i].se;
    assert SourceNext(h, e) == Some(Get(run.worlds[i + 1], id));
    EndsLaunching(id, h, e.reply, e.now);
    SourceStays(h, e);
  }

  // ---- from where a launch comes ---------------------------------------------------------------------------

  predicate InLaunching(h: Handoff) { h.target.Some? && h.target.value.state.Launching? }

  /** A launch request from any other device, for another record or on another device changes nothing at all: no record,
      no session, no operation in progress and no answer. */
  lemma ForeignLaunchChangesNothing(id: string, h: Handoff, t: Table, call: nat, digest: Digest, peer: string,
      device: string, now: Time)
    requires Inv(id, h) && h.target.Some? && !FromHome(h.target.value, digest, peer, device)
    ensures var next := TargetNext(h, t, DeliverLaunch(call, digest, peer, device, now));
        next.Some? ==> next.value == (h, t)
  {
    assert ValidTarget(h.target.value);
    hide Inv, ValidTarget, EnterTarget, LaunchRequestPlan;
    LaunchRequests(h.target.value, digest, peer, device, now);
  }

  /** A request takes a record into `launching` exactly when it comes from the manifest's source device, for this very
      record, to its target device, and the record is prepared or its launch was authorized before. */
  lemma RequestLaunches(id: string, h: Handoff, t: Table, e: TargetEvent)
    requires Inv(id, h) && e.DeliverLaunch? && TargetNext(h, t, e).Some? && h.target.Some?
    requires h.target.value.revision < LastRevision && !InLaunching(h)
    ensures InLaunching(TargetNext(h, t, e).value.0) <==>
              && FromHome(h.target.value, e.digest, e.peer, e.device)
              && (h.target.value.state.Prepared? || h.target.value.state.LaunchWaitingAssets?)
  {
    assert ValidTarget(h.target.value);
    hide Inv, ValidTarget, EnterTarget, LaunchRequestPlan;
    LaunchRequests(h.target.value, e.digest, e.peer, e.device, e.now);
    StatusAnswersKeep(h, Some(e.call));
  }

  lemma StatusAnswersKeep(h: Handoff, call: Option<nat>)
    requires h.target.Some?
    ensures Answered(h, call, true, StatusOf(h.target.value)).target == h.target
  {
  }

  /** In every run, a target enters a launch only in a step that delivers a request from the manifest's source device,
      for exactly the prepared record on its target device, after the operator asked for the launch there. */
  lemma LaunchedFromHome(run: Run, i: nat, id: string)
    requires IsRun(run) && i < |run.events|
    requires !Launched(Get(run.worlds[i], id)) && Launched(Get(run.worlds[i + 1], id))
    ensures var h, e := Get(run.worlds[i], id), run.events[i];
            && e.AtTarget? && e.id == id && e.te.DeliverLaunch? && h.target.Some? && h.target.value.state.Prepared?
            && e.te.peer == h.target.value.manifest.source.device && e.te.peer != ""
            && e.te.device == h.target.value.manifest.target.device && e.te.device != ""
            && e.te.digest == h.target.value.digest
    ensures exists k :: 0 <= k <= i && IsLaunchRequest(run.events[k], id)
  {
    hide WorldInv, Inv, TargetNext, SourceNext, Stepped, IsLaunchRequest;
    HandoffInv(run, i, id);
    OnlyTheOperatorLaunches(run, i, id);
    var h, e := Get(run.worlds[i], id), run.events[i];
    assert StepOf(run, i);
    EventIsOurs(run, i, id);
    assert ValidTarget(h.target.value) by { TargetIsValid(id, h); }
    if !FromHome(h.target.value, e.te.digest, e.te.peer, e.te.device) {
      ForeignLaunchChangesNothing(id, h, run.worlds[i].table, e.te.call, e.te.digest, e.te.peer, e.te.device, e.te.now);
    }
    DevicesAreNamed(h.target.value);
    NoInferredLaunch(run, i + 1, id);
  }

  lemma TargetIsValid(id: string, h: Handoff)
    requires Inv(id, h) && h.target.Some?
    ensures ValidTarget(h.target.value)
  {
  }

  lemma EventIsOurs(run: Run, i: nat, id: string)
    requires IsRun(run) && i < |run.events| && run.events[i].AtTarget?
    requires !Launched(Get(run.worlds[i], id)) && Launched(Get(run.worlds[i + 1], id))
    ensures run.events[i].id == id
  {
    hide TargetNext, WorldInv;
    assert StepOf(run, i);
  }

  // ---- on what a target becomes prepared ---------------------------------------------------------------------

  predicate IsPrepared(h: Handoff) { h.target.Some? && h.target.value.state.Prepared? }

  /** The end of the checks in progress, for the record in hand. */
  lemma EndsChecks(id: string, h: Handoff, w: PrepareInputs, now: Time)
    requires Inv(id, h) && h.target.Some? && EndPreparationStep(h, w, now).Some?
    ensures h.target.value.state.Validating? && EndPreparationStep(h, w, now).value.target.Some?
    ensures var r := h.target.value; var r' := EndPreparationStep(h, w, now).value.target.value;
            && (r'.state.Prepared? ==> EveryCheckPassed(r, w))
            && (r.revision < LastRevision ==>
                  && (r'.state.Prepared? <==> EveryCheckPassed(r, w))
                  && (r'.state.WaitingAssets? <==> AwaitsAssets(r, w))
                  && (r'.state.Rejected? <==> CannotBePrepared(r, w))
                  && (!r'.state.Prepared? && !r'.state.WaitingAssets? && !r'.state.Rejected? ==> r' == r))
  {
    var r := h.targetWork.record;
    assert h.target == Some(r) && r.state.Validating? && ValidTarget(r);
    hide Inv, ValidTarget, PrepareVerdictFor, Conclude, EndTarget, EveryCheckPassed, AwaitsAssets, CannotBePrepared,
      TargetWaits, Refuses, GoesOn, StatusOf;
    EndTargetConcludes(h, r, h.targetWork.call, false, PrepareVerdictFor(r, w), now);
    if r.revision < LastRevision {
      ChecksEnd(r, w, now);
    } else {
      Unnamed(r);
      KindsOfVerdict(r, w);
      Interrupts(r, now);
      if !PrepareVerdictFor(r, w).Interrupted? { NoMoreVerdicts(r, PrepareVerdictFor(r, w), now); }
    }
  }

  lemma EndIsNotPrepared(h: Handoff, r: TargetRecord, call: Option<nat>, launch: bool, v: TargetVerdict, now: Time)
    requires h.target.Some? && !(v.Forward? && v.next.Prepared?) && !(v.Wait? && v.next.Prepared?)
    ensures IsPrepared(EndTarget(h, r, call, launch, v, now)) ==> IsPrepared(h)
  {
    if !v.Interrupted? && !v.LostRecord? {
      TargetEffect(h.target.value, r.revision, TargetVerdictState(v), TargetTransitionFor(r, v, now), now);
    }
    hide TargetTransition, ValidTarget, StatusOf;
  }

  lemma PlanIsNotPrepared(h: Handoff, plan: TargetPlan, call: Option<nat>, launch: bool, now: Time)
    requires h.target.Some? && (plan.Work? ==> !plan.record.state.Prepared?)
    ensures IsPrepared(Planned(h, plan, call, launch, now)) ==> IsPrepared(h)
  {
    match plan
    case RejectFirst(r) => EndIsNotPrepared(h, r, call, launch, ArtifactsVerdict, now); hide EndTarget;
    case _ => hide EndTarget;
  }

  lemma RequestsDoNotPrepare(h: Handoff, t: Table, e: TargetEvent)
    requires (e.DeliverPrepare? || ((e.DeliverLaunch? || e.Recover?) && h.target.Some?)) && TargetNext(h, t, e).Some?
    ensures IsPrepared(TargetNext(h, t, e).value.0) ==> IsPrepared(h)
  {
    hide ValidTarget, EnterTarget, Planned, Recoverable, StatusOf, PrepareGuard;
    if e.DeliverPrepare? {
      var h1 := if h.target.None? then h.(target := Some(NewTarget(e.m, e.clock))) else h;
      EnterTargetEffect(h1.target.value, Validating, e.now);
      PlanIsNotPrepared(h1, ResumeTargetPlan(h1.target.value, e.w.deadFrom, e.now), Some(e.call), false, e.now);
    } else if e.DeliverLaunch? {
      EnterTargetEffect(h.target.value, Launching, e.now);
      PlanIsNotPrepared(h, LaunchRequestPlan(h.target.value, e.digest, e.peer, e.device, e.now), Some(e.call), true,
        e.now);
    } else {
      EnterTargetEffect(h.target.value, Launching, e.now);
      EnterTargetEffect(h.target.value, Validating, e.now);
      PlanIsNotPrepared(h, ResumeLaunchPlan(h.target.value, e.now), None, true, e.now);
      if !(h.target.value.state.Launching? || h.target.value.state.LaunchWaitingAssets?) {
        PlanIsNotPrepared(h, ResumeTargetPlan(h.target.value, e.deadFrom, e.now), None, false, e.now);
      }
    }
  }

  /** No step of a launch makes a record prepared, and neither do an acknowledgement and a proof. */
  lemma LaunchDoesNotPrepare(id: string, h: Handoff, t: Table, e: TargetEvent)
    requires Inv(id, h) && h.target.Some? && TargetNext(h, t, e).Some?
    requires e.CheckLaunch? || e.ServeVerify? || e.AcknowledgeContext? || e.BindSession? || e.TargetAborts?
    ensures IsPrepared(TargetNext(h, t, e).value.0) ==> IsPrepared(h)
  {
    var r, call := h.target.value, if h.targetWork.TargetIdle? then None else h.targetWork.call;
    assert !h.targetWork.TargetIdle? ==> h.targetWork.record == r;
    hide Inv, EndTarget, ValidTarget, BindLocator, Acknowledge, VerificationOf;
    if e.CheckLaunch? {
      CheckSettles(r, e.launch);
      if LaunchCheck(r, e.launch).Some? { EndIsNotPrepared(h, r, call, true, LaunchCheck(r, e.launch).value, e.now); }
      hide LaunchCheck;
    } else if e.AcknowledgeContext? {
      AckKeepsState(r, e.phase, e.scope, e.session, e.at, e.clock);
    } else if e.BindSession? {
      if h.targetWork.Created? {
        BindKeepsState(r, r.revision, LocatorFor(r, h.targetWork.session.id), TransitionTime(e.now, r.updated), e.now);
      }
      EndIsNotPrepared(h, r, call, true, ConflictVerdict, e.now);
      EndIsNotPrepared(h, r, call, true, NotReadyVerdict, e.now);
      EndIsNotPrepared(h, r, call, true, Interrupted, e.now);
    }
  }

  lemma DeliveryDoesNotPrepare(id: string, h: Handoff, t: Table, e: TargetEvent)
    requires Inv(id, h) && h.target.Some? && TargetNext(h, t, e).Some?
    requires e.ChooseSession? || e.PollSession? || e.SendPrompt? || e.AcceptLaunch?
    ensures IsPrepared(TargetNext(h, t, e).value.0) ==> IsPrepared(h)
  {
    var r, call := h.target.value, if h.targetWork.TargetIdle? then None else h.targetWork.call;
    assert !h.targetWork.TargetIdle? ==> h.targetWork.record == r;
    hide Inv, EndTarget, ValidTarget, Poll, MayCreate;
    if e.ChooseSession? || e.PollSession? {
      EndIsNotPrepared(h, r, call, true, ConflictVerdict, e.now);
      EndIsNotPrepared(h, r, call, true, NotReadyVerdict, e.now);
      EndIsNotPrepared(h, r, call, true, Interrupted, e.now);
    } else if e.SendPrompt? {
      if AtSession(h, t) {
        var h1 := Prompted(h, r.locator.value.session);
        EndIsNotPrepared(h1, r, call, true, UnconfirmedVerdict, e.now);
        EndIsNotPrepared(h1, r, call, true, Interrupted, e.now);
      }
    } else {
      EndIsNotPrepared(h, r, call, true, NoEvidenceVerdict, e.now);
      EndIsNotPrepared(h, r, call, true, NotPersistedVerdict, e.now);
      EndIsNotPrepared(h, r, call, true, Forward(TargetAccepted, r.locator), e.now);
    }
  }

  lemma AckKeepsState(r: TargetRecord, phase: AckPhase, scope: string, session: string, at: Time, clock: Time)
    ensures var res := Acknowledge(r, phase, scope, session, at, clock); res.Ok? ==> res.value.state == r.state
  {
    hide ValidTarget;
  }

  lemma BindKeepsState(r: TargetRecord, expected: nat, locator: Locator, at: Time, clock: Time)
    ensures var res := BindLocator(r, expected, locator, at, clock); res.Ok? ==> res.value.state == r.state
  {
    hide ValidTarget, ValidLocator;
  }

  lemma PreparedCause(id: string, h: Handoff, t: Table, e: TargetEvent)
    requires Inv(id, h) && TargetNext(h, t, e).Some? && !IsPrepared(h) && IsPrepared(TargetNext(h, t, e).value.0)
    ensures e.EndPreparation? && h.target.Some? && EveryCheckPassed(h.target.value, e.w)
  {
    hide Inv, EveryCheckPassed;
    if e.EndPreparation? && h.target.Some? {
      EndsChecks(id, h, e.w, e.now);
    } else if e.DeliverPrepare? || ((e.DeliverLaunch? || e.Recover?) && h.target.Some?) {
      RequestsDoNotPrepare(h, t, e);
    } else if h.target.Some? && (e.ChooseSession? || e.PollSession? || e.SendPrompt? || e.AcceptLaunch?) {
      DeliveryDoesNotPrepare(id, h, t, e);
    } else if h.target.Some? {
      LaunchDoesNotPrepare(id, h, t, e);
    }
    hide DeliverPrepareStep, DeliverLaunchStep, RecoverStep, CheckLaunchStep, ServeVerifyStep, AcknowledgeStep,
      ChooseStep,
      BindStep, PollStep, SendStep, AcceptStep, EndPreparationStep;
  }

  /** In every run, a target becomes prepared only in the step that ends its checks, all of which passed: the request is
      for this device, profile and project are known, and history and repository are as the manifest says. */
  lemma PreparedOnChecks(run: Run, i: nat, id: string)
    requires IsRun(run) && i < |run.events|
    requires !IsPrepared(Get(run.worlds[i], id)) && IsPrepared(Get(run.worlds[i + 1], id))
    ensures var h, e := Get(run.worlds[i], id), run.events[i];
            && e.AtTarget? && e.id == id && e.te.EndPreparation? && h.target.Some?
            && e.te.w.device == h.target.value.manifest.target.device && e.te.w.profileOk && e.te.w.registryOk
            && e.te.w.projectOk && e.te.w.history.Passed? && e.te.w.repository.Passed? && e.te.w.deadFrom > 4
  {
    hide Inv, WorldInv, TargetNext, SourceNext, Stepped;
    HandoffInv(run, i, id);
    assert StepOf(run, i);
    StepOfRun(run, i, id);
    var h, e := Get(run.worlds[i], id), run.events[i];
    if e.AtTarget? && e.id == id {
      PreparedCause(id, h, run.worlds[i].table, e.te);
    } else {
      OthersLeaveTheTarget(id, run.worlds[i], e, run.worlds[i + 1]);
    }
  }

  lemma OthersLeaveTheTarget(id: string, w: World, e: Event, w': World)
    requires Stepped(id, w, e, w') && !(e.AtTarget? && e.id == id)
    ensures Get(w', id).target == Get(w, id).target
  {
    hide StepFacts.Later, SourceCauses, Get;
  }

  /** In every run, the end of the checks leaves the record prepared, waiting, rejected or as it was by exactly what the
      checks found. */
  lemma ChecksEndInRun(run: Run, i: nat, id: string)
    requires IsRun(run) && i < |run.events|
    requires run.events[i].AtTarget? && run.events[i].id == id && run.events[i].te.EndPreparation?
    ensures var h, w, h' := Get(run.worlds[i], id), run.events[i].te.w, Get(run.worlds[i + 1], id);
            && h.target.Some? && h'.target.Some? && h.target.value.state.Validating?
            && (h.target.value.revision < LastRevision ==>
                  && (h'.target.value.state.Prepared? <==> EveryCheckPassed(h.target.value, w))
                  && (h'.target.value.state.WaitingAssets? <==> AwaitsAssets(h.target.value, w))
                  && (h'.target.value.state.Rejected? <==> CannotBePrepared(h.target.value, w)))
  {
    hide Inv, WorldInv, SourceNext, EndPreparationStep, EveryCheckPassed, AwaitsAssets, CannotBePrepared;
    HandoffInv(run, i, id);
    assert StepOf(run, i);
    EndsChecks(id, Get(run.worlds[i], id), run.events[i].te.w, run.events[i].te.now);
  }
}
