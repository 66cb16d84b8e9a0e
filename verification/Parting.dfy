/**
 How a source fails, and when the two devices part: the target has accepted a handoff that its
 source gave up. Over every run a source fails in one step, the end of a call in a fatal call
 error or in the target's own rejection; the devices part when it is a fatal launch error.
 */
module Parting {
  import opened Wrappers
  import opened Records
  import opened RecordStore
  import opened Outbox
  import opened SourceOutcomes
  import opened HandoffWorld
  import opened WorldInvariant
  import opened SessionInvariant
  import opened StepFacts
  import opened WorldTheorems
  import opened HandoffTheorems

  predicate RejectedTarget(h: Handoff) { h.target.Some? && h.target.value.state.Rejected? }

  /** The launch call in progress ends in a fatal error. */
  predicate FatalEnd(h: Handoff, e: SourceEvent) {
    e.EndLaunch? && h.sourceWork.LaunchingCall? && e.reply.Failed? && FatalLaunchError(e.reply.error)
  }

  /** The preparing call in progress ends in a fatal error. */
  predicate FatalPrepareEnd(h: Handoff, e: SourceEvent) {
    e.EndPrepare? && h.sourceWork.PreparingCall? && e.reply.Failed? && FatalPrepareError(e.reply.error)
  }

  /** The call in progress is answered with the target's own rejection. */
  predicate ToldRejected(h: Handoff, e: SourceEvent) {
    && ((e.EndPrepare? && h.sourceWork.PreparingCall?) || (e.EndLaunch? && h.sourceWork.LaunchingCall?))
    && e.reply.Answer? && e.reply.value.state.Rejected? && RejectedTarget(h)
  }

  // ---- one step ----------------------------------------------------------------------------------------

  /** A preparing call ends the handoff for good exactly when it fails fatally or the target itself has rejected. */
  lemma PrepareGivesUpExactlyWhen(id: string, h: Handoff, reply: Reply<Status>)
    requires Inv(id, h) && h.sourceWork.PreparingCall?
    requires reply.Answer? ==> (h.sourceWork.call, reply.value) in h.net.prepareReplies
    ensures PrepareVerdict(h.sourceWork.record, reply).Fail? <==>
              if reply.Failed? then FatalPrepareError(reply.error) else reply.value.state.Rejected?
    ensures reply.Answer? && reply.value.state.Rejected? ==> RejectedTarget(h)
    ensures reply.Answer? ==> OwnAnswer(h.sourceWork.record, reply) && !PastPreparation(reply.value.state)
  {
    if reply.Answer? {
      PrepareAnswerIsAtHome(id, h, h.sourceWork.call, reply.value);
      assert reply.value.state.Rejected? ==> RejectedTarget(h) by {
        hide RecordsInv, HandsInv, CallsInv, PhaseInv, AgreementInv, HistoryInv;
      }
    }
    hide Inv, RemoteCode;
  }

  /** A launch call ends the handoff for good exactly when it fails fatally or the target itself has rejected. */
  lemma LaunchGivesUpExactlyWhen(id: string, h: Handoff, reply: Reply<Status>)
    requires Inv(id, h) && h.sourceWork.LaunchingCall?
    requires reply.Answer? ==> (h.sourceWork.call, reply.value) in h.net.launchReplies
    ensures LaunchVerdict(h.sourceWork.record, reply).Fail? <==>
              if reply.Failed? then FatalLaunchError(reply.error) else reply.value.state.Rejected?
    ensures reply.Answer? && reply.value.state.Rejected? ==> RejectedTarget(h)
  {
    hide AcceptableLocator;
    if reply.Answer? {
      LaunchAnswerIsAtHome(id, h, h.sourceWork.call, reply.value);
      assert reply.value.state.Rejected? ==> RejectedTarget(h) by {
        hide RecordsInv, HandsInv, CallsInv, PhaseInv, AgreementInv, HistoryInv;
      }
    }
    hide Inv, RemoteCode;
  }

  lemma EndPrepareGivesUp(id: string, h: Handoff, e: SourceEvent)
    requires Inv(id, h) && e.EndPrepare? && SourceNext(h, e).Some? && !InState(h.source, SourceFailed)
    ensures SourceNext(h, e).value.net == h.net && h.net.launchCalls == {}
    ensures InState(SourceNext(h, e).value.source, SourceFailed) ==> FatalPrepareEnd(h, e) || ToldRejected(h, e)
  {
    var r := h.sourceWork.record;
    assert h.source == Some(r) && h.sourceWork.PreparingCall? && BeforeLaunch(r.state);
    assert h.net.launchCalls == {} by { hide RecordsInv, HandsInv, CallsInv, RepliesInv, AgreementInv, HistoryInv; }
    PrepareGivesUpExactlyWhen(id, h, e.reply);
    var v := PrepareVerdict(r, e.reply);
    SourceEffect(r, r.revision, VerdictState(v), Settled(r, v, e.now), e.now);
    VerdictStates(r, e.reply);
    hide Inv, SourceTransition, PrepareVerdict, ValidSource, FatalPrepareError, Settled, RejectedTarget;
  }

  lemma EndLaunchGivesUp(id: string, h: Handoff, e: SourceEvent)
    requires Inv(id, h) && e.EndLaunch? && SourceNext(h, e).Some? && !InState(h.source, SourceFailed)
    ensures InState(SourceNext(h, e).value.source, SourceFailed) ==> FatalEnd(h, e) || ToldRejected(h, e)
  {
    var r := h.sourceWork.record;
    assert h.sourceWork.LaunchingCall? && h.source == Some(r);
    LaunchGivesUpExactlyWhen(id, h, e.reply);
    var v := LaunchVerdict(r, e.reply);
    SourceEffect(r, r.revision, VerdictState(v), Settled(r, v, e.now), e.now);
    VerdictStates(r, e.reply);
    hide Inv, SourceTransition, LaunchVerdict, ValidSource, FatalLaunchError, Settled, RejectedTarget;
  }

  lemma VerdictStates(r: SourceRecord, reply: Reply<Status>)
    ensures VerdictState(LaunchVerdict(r, reply)).SourceFailed? <==> LaunchVerdict(r, reply).Fail?
    ensures VerdictState(PrepareVerdict(r, reply)).SourceFailed? <==> PrepareVerdict(r, reply).Fail?
  {
    hide AcceptableLocator, RemoteCode;
  }

  /** The step in which a source gives up: a call in progress ends in a fatal error or in the target's rejection, and
      before any launch call nothing was ever launched. */
  lemma GivesUp(id: string, h: Handoff, e: SourceEvent)
    requires Inv(id, h) && SourceNext(h, e).Some? && !InState(h.source, SourceFailed)
        && InState(SourceNext(h, e).value.source, SourceFailed)
    ensures FatalEnd(h, e) || FatalPrepareEnd(h, e) || ToldRejected(h, e)
    ensures SourceNext(h, e).value.target == h.target
    ensures FatalPrepareEnd(h, e) ==> SourceNext(h, e).value.net.launchCalls == {}
  {
    if e.EndPrepare? {
      EndPrepareGivesUp(id, h, e);
    } else if e.EndLaunch? {
      EndLaunchGivesUp(id, h, e);
    } else {
      OthersGiveNothingUp(id, h, e);
    }
    hide Inv, FatalEnd, FatalPrepareEnd, ToldRejected, StoredVerdict, PreparePlan, LaunchPlan, RequestPlan, MayClose,
      CompleteRetirement, VerifiedRecord, ExactSource;
  }

  lemma StartsGiveNothingUp(id: string, h: Handoff, e: SourceEvent)
    requires Inv(id, h) && SourceNext(h, e).Some? && (e.StartPrepare? || e.OperatorLaunch? || e.ResumeLaunch?)
    requires !InState(h.source, SourceFailed)
    ensures !InState(SourceNext(h, e).value.source, SourceFailed)
  {
    var r := h.source.value;
    assert ValidSource(r);
    hide Inv, ValidSource, PreparePlan, LaunchPlan;
    if e.StartPrepare? {
      PreparePlanEffect(r, e.force, e.due, e.now);
    } else {
      LaunchPlanEffect(r, if e.OperatorLaunch? then true else e.force, e.due, e.now);
    }
  }

  lemma RetirementGivesNothingUp(id: string, h: Handoff, e: SourceEvent)
    requires Inv(id, h) && SourceNext(h, e).Some? && (e.AskRetire? || e.LookAtSource? || e.SourceClosed?)
    requires !InState(h.source, SourceFailed)
    ensures !InState(SourceNext(h, e).value.source, SourceFailed)
  {
    var r := h.source.value;
    assert ValidSource(r);
    assert !h.sourceWork.SourceIdle? ==> h.source == Some(h.sourceWork.record);
    hide Inv, ValidSource, RequestPlan, CompleteRetirement, MayClose, ExactSource;
    if e.AskRetire? {
      RequestEffect(r, e.device, e.mode, e.timeout, e.seen, e.now);
    } else {
      CompletingKeepsState(r, e.now);
    }
  }

  lemma OthersGiveNothingUp(id: string, h: Handoff, e: SourceEvent)
    requires Inv(id, h) && SourceNext(h, e).Some? && !InState(h.source, SourceFailed) && !e.EndPrepare? && !e.EndLaunch?
    ensures !InState(SourceNext(h, e).value.source, SourceFailed)
  {
    if h.source.Some? && (e.StartPrepare? || e.OperatorLaunch? || e.ResumeLaunch?) {
      hide Inv, SourceNext;
      StartsGiveNothingUp(id, h, e);
    } else if h.source.Some? && (e.AskRetire? || e.LookAtSource? || e.SourceClosed?) {
      hide Inv, SourceNext;
      RetirementGivesNothingUp(id, h, e);
    } else {
      hide Inv, ValidSource, RecordContext, SourceLater;
      if h.source.Some? && e.EndVerify? && e.verification.Answer? && e.verification.value.ack.Some? {
        var r, held := h.source.value, h.sourceWork.record;
        RecordContextEffect(r, held.revision, e.verification.value.ack.value, TransitionTime(e.now, held.updated),
          e.now);
      }
    }
  }

  lemma CompletingKeepsState(r: SourceRecord, now: Time)
    ensures var res := CompleteRetirement(r, r.revision, TransitionTime(now, r.updated), now);
        res.Ok? ==> res.value.state == r.state
  {
    hide ValidSource;
  }

  /** A source that gave up sends nothing more. */
  lemma GivenUpSendsNothing(h: Handoff, e: SourceEvent)
    requires InState(h.source, SourceFailed) && SourceNext(h, e).Some?
    ensures SourceNext(h, e).value.net.launchCalls == h.net.launchCalls
  {
    hide ValidSource, SourceTransition, CompleteRetirement, MayClose, ExactSource, RequestPlan, VerifiedRecord;
  }

  // ---- over every run --------------------------------------------------------------------------------------

  /** In step k the source gave up: its launch call ended in a fatal error. */
  ghost predicate GaveUp(run: Run, k: nat, id: string)
    requires IsRun(run) && k < |run.events|
  {
    var h, e := Get(run.worlds[k], id), run.events[k];
    && e.AtSource? && e.id == id && FatalEnd(h, e.se)
    && !InState(h.source, SourceFailed) && InState(Get(run.worlds[k + 1], id).source, SourceFailed)
  }

  /** In step k the source failed: the call in progress ended in a fatal error of its kind, or was answered with the
      target's own rejection. */
  ghost predicate FailedIn(run: Run, k: nat, id: string)
    requires IsRun(run) && k < |run.events|
  {
    var h, e := Get(run.worlds[k], id), run.events[k];
    && e.AtSource? && e.id == id
    && (FatalEnd(h, e.se) || ToldRejected(h, e.se)
        || (FatalPrepareEnd(h, e.se) && Get(run.worlds[k + 1], id).net.launchCalls == {}))
    && !InState(h.source, SourceFailed) && InState(Get(run.worlds[k + 1], id).source, SourceFailed)
  }

  lemma StillRejected(h: Handoff, h': Handoff)
    requires Later(h, h')
    ensures RejectedTarget(h) ==> RejectedTarget(h')
    ensures InState(h.source, SourceFailed) ==> InState(h'.source, SourceFailed)
  {
  }

  lemma FailedStep(run: Run, i: nat, id: string)
    requires IsRun(run) && i < |run.events| && InState(Get(run.worlds[i + 1], id).source, SourceFailed)
    ensures !InState(Get(run.worlds[i], id).source, SourceFailed) ==> FailedIn(run, i, id)
    ensures InState(Get(run.worlds[i], id).source, SourceFailed) ==>
        Get(run.worlds[i + 1], id).net.launchCalls == Get(run.worlds[i], id).net.launchCalls
  {
    hide WorldInv, Inv, SessionsInv, TableInv, SourceNext, TargetNext, Stepped, Later, FatalEnd, FatalPrepareEnd,
      ToldRejected;
    var h, e := Get(run.worlds[i], id), run.events[i];
    assert StepOf(run, i);
    if e.AtSource? && e.id == id {
      HandoffInv(run, i, id);
      if InState(h.source, SourceFailed) { GivenUpSendsNothing(h, e.se); } else { GivesUp(id, h, e.se); }
    } else {
      StepOfRun(run, i, id);
      OthersLeaveTheSource(id, run.worlds[i], e, run.worlds[i + 1]);
      hide Get;
    }
  }

  /** A source is failed exactly when, in one earlier step, a call of its own ended in a fatal error or in the target's
      rejection; after it no launch call is ever sent. */
  lemma {:induction false} FailedBecause(run: Run, i: nat, id: string)
    requires IsRun(run) && i <= |run.events|
    ensures InState(Get(run.worlds[i], id).source, SourceFailed) <==> exists k :: 0 <= k < i && FailedIn(run, k, id)
    ensures InState(Get(run.worlds[i], id).source, SourceFailed) ==>
        exists k :: 0 <= k < i && FailedIn(run, k, id)
          && Get(run.worlds[i], id).net.launchCalls == Get(run.worlds[k + 1], id).net.launchCalls
  {
    hide StepOf, FailedIn, Get, Later;
    if k :| 0 <= k < i && FailedIn(run, k, id) {
      FailedInFails(run, k, id);
      RunLater(run, k + 1, i, id);
      StillRejected(Get(run.worlds[k + 1], id), Get(run.worlds[i], id));
    }
    if InState(Get(run.worlds[i], id).source, SourceFailed) {
      assert i > 0 by { NothingYet(run, id); }
      FailedStep(run, i - 1, id);
      if InState(Get(run.worlds[i - 1], id).source, SourceFailed) {
        FailedBecause(run, i - 1, id);
        var k :| 0 <= k < i - 1 && FailedIn(run, k, id)
          && Get(run.worlds[i - 1], id).net.launchCalls == Get(run.worlds[k + 1], id).net.launchCalls;
        assert FailedIn(run, k, id) && k < i;
      } else {
        assert FailedIn(run, i - 1, id);
      }
    }
  }

  lemma FailedInFails(run: Run, k: nat, id: string)
    requires IsRun(run) && k < |run.events| && FailedIn(run, k, id)
    ensures InState(Get(run.worlds[k + 1], id).source, SourceFailed)
  {
  }

  lemma NothingYet(run: Run, id: string)
    requires IsRun(run)
    ensures !InState(Get(run.worlds[0], id).source, SourceFailed)
  {
    hide StepOf;
  }

  lemma AcceptedWasAsked(id: string, h: Handoff)
    requires Inv(id, h) && Accepted(h)
    ensures !RejectedTarget(h) && h.net.launchCalls != {}
  {
    hide RecordsInv, HandsInv, CallsInv, RepliesInv, AgreementInv, HistoryInv;
  }

  /** The devices part exactly when, at some step so far, the source's launch call ended in one of the fatal errors,
      whether the target had accepted by then or accepted later. A source that failed in preparation, on a rejection
      or on any answer never has an accepted target. */
  lemma PartedExactlyWhen(run: Run, i: nat, id: string)
    requires IsRun(run) && i <= |run.events| && Accepted(Get(run.worlds[i], id))
    ensures InState(Get(run.worlds[i], id).source, SourceFailed) <==> exists k :: 0 <= k < i && GaveUp(run, k, id)
  {
    hide StepOf, Inv, SessionsInv, TableInv, Later, Get, Accepted, FatalEnd, FatalPrepareEnd, RejectedTarget;
    HandoffInv(run, i, id);
    AcceptedWasAsked(id, Get(run.worlds[i], id));
    FailedBecause(run, i, id);
    if InState(Get(run.worlds[i], id).source, SourceFailed) {
      var k :| 0 <= k < i && FailedIn(run, k, id)
        && Get(run.worlds[i], id).net.launchCalls == Get(run.worlds[k + 1], id).net.launchCalls;
      RunLater(run, k, i, id);
      StillRejected(Get(run.worlds[k], id), Get(run.worlds[i], id));
      assert GaveUp(run, k, id);
    }
    if k :| 0 <= k < i && GaveUp(run, k, id) {
      RunLater(run, k + 1, i, id);
      StillRejected(Get(run.worlds[k + 1], id), Get(run.worlds[i], id));
    }
  }
}
