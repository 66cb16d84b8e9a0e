/**
 Recovery over every run: which records a scan finds in a reachable world and from when on, and
 that after a crash at any step the pass takes them up again where they were.
 */
module RecoveryRuns {
  import opened Wrappers
  import opened Records
  import opened RecordStore
  import opened StoreLaws
  import opened Sessions
  import opened Outbox
  import opened SourceOutcomes
  import opened Application
  import opened TargetOutcomes
  import opened HandoffWorld
  import opened WorldInvariant
  import opened TargetInvariant
  import opened StepFacts
  import opened WorldTheorems
  import opened HandoffTheorems
  import opened Parting
  import opened OutcomeRuns

  // ---- what the log and the due time say ---------------------------------------------------------------

  /** The stored state is on record, and a record waits 15 seconds from its last write. */
  ghost predicate Scheduled(h: Handoff) {
    h.source.Some? ==>
      && h.source.value.state in h.log.past
      && (h.source.value.nextRetry.Some? ==>
            h.source.value.nextRetry.value == h.source.value.updated + FifteenSeconds)
  }

  lemma WritesAreLogged(h: Handoff, e: SourceEvent)
    requires SourceNext(h, e).Some? && (h.source.Some? ==> h.source.value.state in h.log.past)
    ensures var h' := SourceNext(h, e).value; h'.source.Some? ==> h'.source.value.state in h'.log.past
  {
    hide StoredVerdict, VerifiedRecord, PreparePlan, LaunchPlan, RequestPlan, MayClose, CompleteRetirement, ExactSource,
      ValidSource;
  }

  lemma EndsOnTime(id: string, h: Handoff, e: SourceEvent)
    requires Inv(id, h) && SourceNext(h, e).Some? && (e.EndPrepare? || e.EndLaunch?)
    ensures var s, s' := h.source, SourceNext(h, e).value.source;
            s' == s || (s'.Some? && (SourceRetryState(s'.value.state) ==>
              s'.value.nextRetry == Some(s'.value.updated + FifteenSeconds)))
  {
    var r := h.sourceWork.record;
    assert h.source == Some(r) && ValidSource(r) && (r.state.PreparingRemote? || r.state.LaunchingRemote?);
    SourceStays(h, e);
    var v := if e.EndPrepare? then PrepareVerdict(r, e.reply) else LaunchVerdict(r, e.reply);
    if r.revision < LastRevision {
      if e.EndPrepare? { EndsPreparing(id, h, e.reply, e.now); } else { EndsLaunching(id, h, e.reply, e.now); }
    } else {
      DueStates(r);
      NothingMoreIsStored(r, v, e.now);
    }
    hide Inv, ValidSource, PrepareVerdict, LaunchVerdict, SourceTransition, FatalPrepareError, FatalLaunchError;
  }

  lemma OthersSetNoDueTime(id: string, h: Handoff, e: SourceEvent)
    requires Inv(id, h) && SourceNext(h, e).Some? && !e.EndPrepare? && !e.EndLaunch?
    ensures var s, s' := h.source, SourceNext(h, e).value.source;
            s' == s || (s'.Some? && !SourceRetryState(s'.value.state))
  {
    if h.source.Some? && (e.StartPrepare? || e.OperatorLaunch? || e.ResumeLaunch?) {
      var r := h.source.value;
      assert ValidSource(r);
      hide Inv, ValidSource, PreparePlan, LaunchPlan, ViewOf;
      PrepareCalls(r, if e.StartPrepare? then e.force else true, e.due, e.now);
      LaunchCalls(r, if e.ResumeLaunch? then e.force else true, e.due, e.now);
    } else {
      RetirementSetsNoDueTime(id, h, e);
    }
  }

  lemma RetirementSetsNoDueTime(id: string, h: Handoff, e: SourceEvent)
    requires Inv(id, h) && SourceNext(h, e).Some?
    requires h.source.Some? ==>
        !(e.StartPrepare? || e.OperatorLaunch? || e.ResumeLaunch? || e.EndPrepare? || e.EndLaunch?)
    ensures var s, s' := h.source, SourceNext(h, e).value.source;
            s' == s || (s'.Some? && !SourceRetryState(s'.value.state))
  {
    if h.source.Some? {
      var r := h.source.value;
      assert !h.sourceWork.SourceIdle? ==> h.sourceWork.record == r;
      assert h.sourceWork.VerifyingCall? || h.sourceWork.RetiringSource? || h.sourceWork.ClosingSource? ==>
          r.state.SourceAccepted?;
      if e.AskRetire? { AskKeepsState(r, e.device, e.mode, e.timeout, e.seen, e.now); }
      if e.EndVerify? && h.sourceWork.VerifyingCall? && r.locator.Some? {
        VerifiedKeepsState(r, e.verification, e.now);
      }
      if e.LookAtSource? || e.SourceClosed? { CompletingKeepsState(r, e.now); }
    }
    hide Inv, VerifiedRecord, PreparePlan, LaunchPlan, RequestPlan, MayClose, CompleteRetirement, ExactSource,
      ValidSource;
  }

  lemma AskKeepsState(r: SourceRecord, device: string, mode: RetirementMode, timeout: int, seen: Option<Detail>,
      now: Time)
    ensures var plan := RequestPlan(r, device, mode, timeout, seen, now);
        plan.Call? ==> plan.record.state.SourceAccepted?
  {
    hide ValidSource, ValidRetirementRequest;
  }

  lemma VerifiedKeepsState(r: SourceRecord, reply: Reply<Verification>, now: Time)
    requires r.locator.Some?
    ensures var res := VerifiedRecord(r, r, reply, now); res.Ok? ==> res.value.state == r.state
  {
    hide ValidSource, ValidAck;
  }

  lemma StepSchedules(id: string, h: Handoff, e: SourceEvent)
    requires Inv(id, h) && SourceNext(h, e).Some? && Scheduled(h) && Inv(id, SourceNext(h, e).value)
    ensures Scheduled(SourceNext(h, e).value)
  {
    var h' := SourceNext(h, e).value;
    if h'.source.Some? { assert ValidSource(h'.source.value); DueStates(h'.source.value); }
    hide Inv, SourceNext, ValidSource;
    WritesAreLogged(h, e);
    if e.EndPrepare? || e.EndLaunch? { EndsOnTime(id, h, e); } else { OthersSetNoDueTime(id, h, e); }
  }

  lemma {:induction false} RunSchedules(run: Run, i: nat, id: string)
    requires IsRun(run) && i <= |run.events|
    ensures Scheduled(Get(run.worlds[i], id))
  {
    hide WorldInv, Inv, TargetNext, SourceNext, Stepped, Scheduled;
    if i == 0 {
      BlankIsScheduled();
      assert Get(run.worlds[0], id) == Blank;
    } else {
      RunSchedules(run, i - 1, id);
      var h, e, h' := Get(run.worlds[i - 1], id), run.events[i - 1], Get(run.worlds[i], id);
      assert StepOf(run, i - 1);
      HandoffInv(run, i - 1, id);
      HandoffInv(run, i, id);
      if e.AtSource? && e.id == id {
        StepSchedules(id, h, e.se);
      } else {
        StepOfRun(run, i - 1, id);
        OthersKeepSchedule(id, run.worlds[i - 1], e, run.worlds[i]);
      }
    }
  }

  lemma BlankIsScheduled()
    ensures Scheduled(Blank)
  {
  }

  lemma OthersKeepSchedule(id: string, w: World, e: Event, w': World)
    requires Stepped(id, w, e, w') && !(e.AtSource? && e.id == id) && Scheduled(Get(w, id))
    ensures Scheduled(Get(w', id))
  {
    hide StepFacts.Later, TargetCauses, Get;
  }

  // ---- what every scan finds -------------------------------------------------------------------------------

  /** Settled, or waiting for the operator's launch. */
  predicate SourceRests(r: SourceRecord) {
    || r.state.SourceFailed? || r.state.RemotePrepared?
    || (r.state.SourceAccepted? && !(r.retirement.Some? && r.retirement.value.state.Pending?))
  }

  /** In every reachable world, a source record that neither rests nor waits is in every scan, and one that waits is in
      every scan from 15 seconds after its last write on; a record that rests is in none. */
  lemma EveryScanFinds(run: Run, i: nat, id: string, at: Time)
    requires IsRun(run) && i <= |run.events| && Get(run.worlds[i], id).source.Some?
    ensures var r := Get(run.worlds[i], id).source.value;
            && (Runnable(r, at) <==> SourceUnfinished(r, at))
            && (SourceRests(r) ==> !SourceUnfinished(r, at))
            && (!SourceRests(r) && (r.state.RetryWait? || r.state.LaunchRetryWait?) ==>
                  (SourceUnfinished(r, at) <==> at >= r.updated + FifteenSeconds))
            && (!SourceRests(r) && !(r.state.RetryWait? || r.state.LaunchRetryWait?) ==> SourceUnfinished(r, at))
  {
    HandoffInv(run, i, id);
    RunSchedules(run, i, id);
    var r := Get(run.worlds[i], id).source.value;
    assert ValidSource(r);
    hide Inv, Get, IsRun;
    FoundExactly(r, at);
  }

  lemma FoundExactly(r: SourceRecord, at: Time)
    requires ValidSource(r)
    ensures Runnable(r, at) <==> SourceUnfinished(r, at)
    ensures SourceRests(r) ==> !SourceUnfinished(r, at)
    ensures !SourceRests(r) ==> (SourceUnfinished(r, at) <==> !(r.nextRetry.Some? && r.nextRetry.value > at))
    ensures r.nextRetry.Some? <==> r.state.RetryWait? || r.state.LaunchRetryWait?
  {
    RunnableExactly(r, at);
    DueStates(r);
    if r.retirement.Some? {
      assert ValidRetirement(r.retirement.value);
      RetirementShape(r.retirement.value);
    }
    hide ValidSource, Runnable, ValidRetirement;
  }

  // ---- what the pass does with it ----------------------------------------------------------------------------

  /** The first step of a pass with scan time `at` on a record. */
  function ResumingEvent(r: SourceRecord, at: Time): SourceEvent {
    if r.state.SourceAccepted? then ResumeRetire
    else if r.state.LaunchingRemote? || r.state.LaunchRetryWait? then ResumeLaunch(false, at, at)
    else StartPrepare(false, at, at)
  }

  /** The pass is at work on the record again: it looks at the session to retire, or a new call to the target is out. */
  predicate TakenUp(h: Handoff, r: SourceRecord, h': Handoff, at: Time) {
    if r.state.SourceAccepted? then h'.source == Some(r) && h'.sourceWork == RetiringSource(r)
    else if r.state.LaunchingRemote? || r.state.LaunchRetryWait? then
      && h'.source == Some(InCall(r, LaunchingRemote, at))
      && h'.sourceWork == LaunchingCall(h.net.nextCall, InCall(r, LaunchingRemote, at))
      && (h.net.nextCall, r.digest) in h'.net.launchCalls
    else
      && h'.source == Some(InCall(r, PreparingRemote, at))
      && h'.sourceWork == PreparingCall(h.net.nextCall, InCall(r, PreparingRemote, at))
      && (h.net.nextCall, r.manifest) in h'.net.prepareCalls
  }

  lemma Resumes(id: string, h: Handoff, at: Time)
    requires Inv(id, h) && Scheduled(h) && h.source.Some? && SourceUnfinished(h.source.value, at)
    requires h.source.value.revision < LastRevision && h.sourceWork.SourceIdle?
    ensures SourceNext(h, ResumingEvent(h.source.value, at)).Some?
    ensures TakenUp(h, h.source.value, SourceNext(h, ResumingEvent(h.source.value, at)).value, at)
  {
    var r := h.source.value;
    assert ValidSource(r);
    hide Inv, ValidSource, PreparePlan, LaunchPlan, ViewOf;
    DueStates(r);
    PrepareCalls(r, false, at, at);
    LaunchCalls(r, false, at, at);
  }

  /** A crash of the source daemon forgets the operation in progress and nothing durable. */
  lemma CrashForgets(id: string, h: Handoff)
    requires Inv(id, h) && Scheduled(h)
    ensures SourceNext(h, SourceAborts) == Some(h.(sourceWork := SourceIdle))
    ensures Inv(id, h.(sourceWork := SourceIdle)) && Scheduled(h.(sourceWork := SourceIdle))
  {
    SourceKeeps(id, h, SourceAborts);
    hide Inv;
  }

  /** In every reachable world, a crash of the source at any step is resumed: from its due time on, the record is in
      every scan, and the pass takes it up again in its own phase. Only at the end of the revision counter it cannot. */
  lemma CrashIsResumed(run: Run, i: nat, id: string, at: Time)
    requires IsRun(run) && i <= |run.events| && Get(run.worlds[i], id).source.Some?
    requires Get(run.worlds[i], id).source.value.revision < LastRevision
    ensures var h := Get(run.worlds[i], id); var r := h.source.value;
            Runnable(r, at) <==> SourceUnfinished(r, at)
    ensures var h := Get(run.worlds[i], id); var r := h.source.value;
            SourceUnfinished(r, at) ==>
              && var crashed := Next(run.worlds[i], AtSource(id, SourceAborts));
              && crashed.Some? && Get(crashed.value, id) == h.(sourceWork := SourceIdle)
              && var resumed := Next(crashed.value, AtSource(id, ResumingEvent(r, at)));
              && resumed.Some? && TakenUp(h, r, Get(resumed.value, id), at)
  {
    HandoffInv(run, i, id);
    RunSchedules(run, i, id);
    EveryScanFinds(run, i, id, at);
    var h := Get(run.worlds[i], id);
    CrashForgets(id, h);
    hide Inv, Scheduled, SourceNext, TargetNext, SourceUnfinished, Runnable, TakenUp, IsRun, SourceRests;
    if SourceUnfinished(h.source.value, at) {
      Resumes(id, h.(sourceWork := SourceIdle), at); TakenUpAlike(h, h.source.value, at);
    }
  }

  lemma TakenUpAlike(h: Handoff, r: SourceRecord, at: Time)
    ensures forall h' :: TakenUp(h.(sourceWork := SourceIdle), r, h', at) <==> TakenUp(h, r, h', at)
  {
  }

  // ---- the target ----------------------------------------------------------------------------------------------

  /** The pass is at work on the target record again, or has rejected it for its artifacts. */
  predicate TargetTakenUp(r: TargetRecord, h': Handoff, now: Time) {
    if Preparing(r.state) && r.manifest.artifacts > 0 then h'.target.Some? && h'.target.value.state.Rejected?
    else if Preparing(r.state) then
      && h'.target == Some(InWork(r, Validating, now))
      && h'.targetWork == CheckingPreparation(InWork(r, Validating, now), None)
    else
      && h'.target == Some(InWork(r, Launching, now))
      && h'.targetWork == CheckingLaunch(InWork(r, Launching, now), None)
  }

  lemma PreparingResumes(h: Handoff, scan: Time, deadFrom: nat, now: Time)
    requires h.target.Some? && ValidTarget(h.target.value) && h.targetWork.TargetIdle?
    requires h.target.value.revision < LastRevision && Preparing(h.target.value.state)
    ensures RecoverStep(h, deadFrom, scan, now).Some? <==> Recoverable(h.target.value, scan)
    ensures RecoverStep(h, deadFrom, scan, now).Some? && deadFrom > 1 ==>
        TargetTakenUp(h.target.value, RecoverStep(h, deadFrom, scan, now).value, now)
  {
    hide ValidTarget, ResumeTargetPlan, StatusOf, TargetTransition, Recoverable;
    ResumePlans(h.target.value, deadFrom, now);
    ArtifactsAreSettled(h.target.value, now);
  }

  lemma LaunchingResumes(h: Handoff, scan: Time, deadFrom: nat, now: Time)
    requires h.target.Some? && ValidTarget(h.target.value) && h.targetWork.TargetIdle?
    requires h.target.value.revision < LastRevision && !Preparing(h.target.value.state)
    ensures RecoverStep(h, deadFrom, scan, now).Some? <==> Recoverable(h.target.value, scan)
    ensures RecoverStep(h, deadFrom, scan, now).Some? ==>
        TargetTakenUp(h.target.value, RecoverStep(h, deadFrom, scan, now).value, now)
  {
    hide ValidTarget, ResumeLaunchPlan, StatusOf;
    LaunchResumes(h.target.value, now);
  }

  lemma TargetResumes(id: string, h: Handoff, t: Table, scan: Time, deadFrom: nat, now: Time)
    requires Inv(id, h) && h.target.Some? && h.targetWork.TargetIdle? && h.target.value.revision < LastRevision
    ensures TargetNext(h, t, Recover(deadFrom, scan, now)).Some? <==> TargetUnfinished(h.target.value, scan)
    ensures TargetUnfinished(h.target.value, scan) && deadFrom > 1 ==>
        TargetTakenUp(h.target.value, TargetNext(h, t, Recover(deadFrom, scan, now)).value.0, now)
  {
    var r := h.target.value;
    assert ValidTarget(r);
    hide Inv, ValidTarget, RecoverStep, TargetTakenUp, Recoverable, TargetUnfinished;
    RecoverableExactly(r, scan);
    if Preparing(r.state) {
      PreparingResumes(h, scan, deadFrom, now);
    } else {
      LaunchingResumes(h, scan, deadFrom, now);
    }
  }

  lemma ArtifactsAreSettled(r: TargetRecord, now: Time)
    requires ValidTarget(r) && Preparing(r.state) && r.revision < LastRevision
    ensures var settled := TargetTransition(r, r.revision, Rejected, TargetTransitionFor(r, ArtifactsVerdict, now),
        now);
        settled.Ok? && settled.value.state.Rejected?
  {
    TargetEntries(r.state);
    TargetMoves(r, r.revision, Rejected, TargetTransitionFor(r, ArtifactsVerdict, now), now);
    hide ValidTarget, TargetTransition, LegalTarget;
  }

  /** In every reachable world, a restart of the target at any step is resumed: the pass takes up exactly the records
      that are neither settled nor waiting for a launch request, from their due time on, each in its own phase. A
      prepared record is never launched by it. */
  lemma TargetRestartIsResumed(run: Run, i: nat, id: string, scan: Time, deadFrom: nat, now: Time)
    requires IsRun(run) && i <= |run.events| && Get(run.worlds[i], id).target.Some?
    requires Get(run.worlds[i], id).target.value.revision < LastRevision
    ensures var h := Get(run.worlds[i], id); var r := h.target.value;
            && (Recoverable(r, scan) <==> TargetUnfinished(r, scan))
            && var crashed := Next(run.worlds[i], AtTarget(id, TargetAborts));
            && crashed.Some? && Get(crashed.value, id) == h.(targetWork := TargetIdle)
            && var resumed := Next(crashed.value, AtTarget(id, Recover(deadFrom, scan, now)));
            && (resumed.Some? <==> TargetUnfinished(r, scan))
            && (resumed.Some? && deadFrom > 1 ==> TargetTakenUp(r, Get(resumed.value, id), now))
  {
    HandoffInv(run, i, id);
    var h := Get(run.worlds[i], id);
    assert ValidTarget(h.target.value) by { TargetIsValid(id, h); }
    IdleKeeps(id, h);
    hide Inv, TargetUnfinished, Recoverable, TargetTakenUp, IsRun, RecoverStep, ValidTarget;
    RecoverableExactly(h.target.value, scan);
    var crashed := Next(run.worlds[i], AtTarget(id, TargetAborts));
    TargetResumes(id, h.(targetWork := TargetIdle), crashed.value.table, scan, deadFrom, now);
  }
}
