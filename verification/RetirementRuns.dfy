/**
 A deferred retirement over whole runs: the request that was once stored is the one that
 later closes the source, and it does so only on the end of the turn it was made in.
 */
module RetirementRuns {
  import opened Wrappers
  import opened Records
  import opened RecordStore
  import opened Outbox
  import opened HandoffWorld
  import opened WorldInvariant
  import opened SessionInvariant
  import opened StepFacts
  import opened WorldTheorems
  import opened HandoffTheorems
  import opened DeferredRetirement

  // ---- a stored request never changes ----------------------------------------------------------------

  /** The later retirement comes from the same request. */
  predicate SameRequest(q: Retirement, q': Retirement) {
    && q'.mode == q.mode && q'.requestedAt == q.requestedAt && q'.timeoutSeconds == q.timeoutSeconds
      && q'.baseline == q.baseline
    && (q.state.Retired? ==> q' == q)
  }

  predicate RequestOf(s: Option<SourceRecord>, q: Retirement) {
    s.Some? && s.value.retirement.Some? && SameRequest(q, s.value.retirement.value)
  }

  predicate NoRequest(s: Option<SourceRecord>) { s.None? || s.value.retirement.None? }

  /** One source step keeps a stored request, and only `retire` stores one. */
  ghost predicate RequestFacts(h: Handoff, e: SourceEvent, h': Handoff) {
    && (!NoRequest(h.source) ==> RequestOf(h'.source, h.source.value.retirement.value))
    && (NoRequest(h.source) && !NoRequest(h'.source) ==>
          && h.source.Some? && e.AskRetire?
          && RequestPlan(h.source.value, e.device, e.mode, e.timeout, e.seen, e.now) == Call(h'.source.value))
  }

  lemma CompletingKeepsRequest(r: SourceRecord, expected: nat, at: Time, clock: Time)
    ensures var res := CompleteRetirement(r, expected, at, clock);
            res.Ok? ==>
              r.retirement.Some? && res.value.retirement.Some?
              && SameRequest(r.retirement.value, res.value.retirement.value)
  {
    hide ValidSource;
  }

  lemma PlanKeepsRequest(r: SourceRecord, device: string, mode: RetirementMode, timeout: int, seen: Option<Detail>,
      now: Time)
    requires r.retirement.Some?
    ensures var plan := RequestPlan(r, device, mode, timeout, seen, now); plan.Call? ==> plan.record == r
  {
  }

  lemma AttemptRequests(id: string, h: Handoff, e: SourceEvent)
    requires Inv(id, h) && h.source.Some? && (e.StartPrepare? || e.OperatorLaunch? || e.ResumeLaunch?)
        && SourceNext(h, e).Some?
    ensures SourceNext(h, e).value.source.Some?
        && SourceNext(h, e).value.source.value.retirement == h.source.value.retirement
  {
    var force := if e.OperatorLaunch? then true else e.force;
    PlanKeepsProof(h.source.value, force, e.due, e.now);
    hide Inv, PreparePlan, LaunchPlan, RequestPlan;
  }

  lemma EndRequests(id: string, h: Handoff, e: SourceEvent)
    requires Inv(id, h) && h.source.Some? && (e.EndPrepare? || e.EndLaunch? || e.EndVerify?) && SourceNext(h, e).Some?
    ensures SourceNext(h, e).value.source.Some?
        && SourceNext(h, e).value.source.value.retirement == h.source.value.retirement
  {
    var r := h.source.value;
    hide Inv, SourceTransition, RecordContext, PrepareVerdict, LaunchVerdict, Settled, ValidSource, SourceLater;
    if e.EndVerify? {
      if e.verification.Answer? && e.verification.value.ack.Some? {
        RecordContextEffect(r, h.sourceWork.record.revision, e.verification.value.ack.value,
          TransitionTime(e.now, h.sourceWork.record.updated), e.now);
      }
    } else if h.sourceWork.PreparingCall? || h.sourceWork.LaunchingCall? {
      var held := h.sourceWork.record;
      var v := if e.EndPrepare? then PrepareVerdict(held, e.reply) else LaunchVerdict(held, e.reply);
      SourceEffect(r, held.revision, VerdictState(v), Settled(held, v, e.now), e.now);
    }
  }

  lemma CompleteRequests(h: Handoff, r: SourceRecord, now: Time)
    requires h.source == Some(r)
    ensures CompleteStored(h, r, now).source.Some?
    ensures r.retirement.Some? ==> RequestOf(CompleteStored(h, r, now).source, r.retirement.value)
    ensures r.retirement.None? ==> CompleteStored(h, r, now).source.value.retirement.None?
  {
    hide CompleteRetirement;
    CompletingKeepsRequest(r, r.revision, TransitionTime(now, r.updated), now);
  }

  lemma RetireRequests(id: string, h: Handoff, e: SourceEvent)
    requires Inv(id, h) && h.source.Some? && (e.LookAtSource? || e.SourceClosed?) && SourceNext(h, e).Some?
    ensures RequestFacts(h, e, SourceNext(h, e).value)
  {
    assert !h.sourceWork.SourceIdle? ==> h.source == Some(h.sourceWork.record);
    hide Inv, CompleteStored, MayClose, RequestPlan, ExactSource;
    if !h.sourceWork.SourceIdle? { CompleteRequests(h, h.sourceWork.record, e.now); }
  }

  lemma SourceRequests(id: string, h: Handoff, e: SourceEvent)
    requires Inv(id, h) && SourceNext(h, e).Some?
    ensures RequestFacts(h, e, SourceNext(h, e).value)
  {
    if h.source.None? || e.Queue? || e.SourceAborts? || e.StartVerify? || e.ResumeRetire? {
      hide Inv, ValidSource;
    } else if e.AskRetire? {
      hide Inv, RequestPlan;
      if h.source.value.retirement.Some? {
        PlanKeepsRequest(h.source.value, e.device, e.mode, e.timeout, e.seen, e.now);
      }
    } else {
      hide SourceNext, Inv, RequestPlan;
      if e.LookAtSource? || e.SourceClosed? {
        RetireRequests(id, h, e);
      } else if e.StartPrepare? || e.OperatorLaunch? || e.ResumeLaunch? {
        AttemptRequests(id, h, e);
      } else {
        EndRequests(id, h, e);
      }
    }
  }

  // ---- along a run -----------------------------------------------------------------------------------------

  function SourceAt(run: Run, i: nat, id: string): Option<SourceRecord>
    requires i < |run.worlds|
  {
    Get(run.worlds[i], id).source
  }

  /** Step i stored this request, where there was none. */
  ghost predicate Asked(run: Run, i: nat, id: string, q: Retirement)
    requires IsRun(run) && i < |run.events|
  {
    var e := run.events[i];
    && e.AtSource? && e.id == id && e.se.AskRetire?
    && SourceAt(run, i, id).Some? && SourceAt(run, i, id).value.retirement.None?
    && SourceAt(run, i + 1, id).Some? && SourceAt(run, i + 1, id).value.retirement == Some(q)
    && RequestPlan(SourceAt(run, i, id).value, e.se.device, e.se.mode, e.se.timeout, e.se.seen, e.se.now) ==
      Call(SourceAt(run, i + 1, id).value)
  }

  lemma RequestStep(run: Run, i: nat, id: string)
    requires IsRun(run) && i < |run.events|
    ensures !NoRequest(SourceAt(run, i, id)) ==>
        RequestOf(SourceAt(run, i + 1, id), SourceAt(run, i, id).value.retirement.value)
    ensures NoRequest(SourceAt(run, i, id)) && !NoRequest(SourceAt(run, i + 1, id)) ==>
              Asked(run, i, id, SourceAt(run, i + 1, id).value.retirement.value)
  {
    hide WorldInv, Inv, SessionsInv, TableInv, SourceNext, TargetNext, Stepped, RequestPlan;
    var e := run.events[i];
    if e.AtSource? && e.id == id {
      HandoffInv(run, i, id);
      assert StepOf(run, i);
      SourceRequests(id, Get(run.worlds[i], id), e.se);
    } else {
      StepOfRun(run, i, id);
      assert StepOf(run, i);
      OthersLeaveTheSource(id, run.worlds[i], e, run.worlds[i + 1]);
      hide Get;
    }
  }

  /** Once stored, the request stays the one on record. */
  lemma {:induction false} RequestStays(run: Run, i: nat, j: nat, id: string, q: Retirement)
    requires IsRun(run) && i <= j <= |run.events| && RequestOf(SourceAt(run, i, id), q)
    ensures RequestOf(SourceAt(run, j, id), q)
    decreases j - i
  {
    hide StepOf;
    if i < j {
      RequestStep(run, i, id);
      RequestStays(run, i + 1, j, id, q);
    }
  }

  /** A request on record was asked for at one earlier step. */
  lemma {:induction false} RequestWasAsked(run: Run, j: nat, id: string) returns (i: nat, q: Retirement)
    requires IsRun(run) && j <= |run.events| && !NoRequest(SourceAt(run, j, id))
    ensures i < j && Asked(run, i, id, q) && RequestOf(SourceAt(run, j, id), q)
  {
    hide StepOf, Asked;
    assert j > 0 by { assert run.worlds[0] == Initial; }
    if NoRequest(SourceAt(run, j - 1, id)) {
      RequestStep(run, j - 1, id);
      i, q := j - 1, SourceAt(run, j, id).value.retirement.value;
    } else {
      i, q := RequestWasAsked(run, j - 1, id);
      RequestStep(run, j - 1, id);
    }
  }

  // ---- the hook events beside it ------------------------------------------------------------------------------

  /** What a source operation sees of the session `who`, if it sees it, is the honest view after k hook events. */
  predicate HonestLook(e: Event, id: string, who: SourceSession, history: seq<HookEvent>, k: nat) {
    e.AtSource? && e.id == id && (e.se.AskRetire? || e.se.LookAtSource?) && e.se.seen.Some?
    && e.se.seen.value.scope == who.scope && e.se.seen.value.session == who.session ==>
      k <= |history| && e.se.seen.value.turn == Shown(history[..k])
  }

  /** The source session's hook events happen beside the run: shown[i] of them before step i. */
  ghost predicate HonestCatalog(run: Run, id: string, who: SourceSession, history: seq<HookEvent>, shown: seq<nat>) {
    && |shown| == |run.events|
    && (forall i, j :: 0 <= i <= j < |shown| ==> shown[i] <= shown[j])
    && (forall i :: 0 <= i < |shown| ==> shown[i] <= |history| && HonestLook(run.events[i], id, who, history, shown[i]))
  }

  /** A deferred request closes the source only while the turn it was asked in is still the last one, and only after
      that turn's end was stamped later than the request; and that end came after the request was made, unless a turn
      end was already shown with a later stamp. */
  lemma ClosesOnlyOnItsOwnTurnsEnd(run: Run, j: nat, id: string, history: seq<HookEvent>, shown: seq<nat>)
    requires IsRun(run) && j < |run.events| && Closes(run, j, id)
    requires SourceAt(run, j, id).Some?
        && HonestCatalog(run, id, SourceAt(run, j, id).value.manifest.source, history, shown)
    requires SourceAt(run, j, id).value.retirement.Some?
        && SourceAt(run, j, id).value.retirement.value.mode.AfterTurnEnd?
    ensures exists i, q, t ::
              && 0 <= i < j && Asked(run, i, id, q) && SameRequest(q, SourceAt(run, j, id).value.retirement.value)
              && !PromptIn(history, shown[i], shown[j])
              && LastEnd(history, t, shown[j]) && history[t].at > q.requestedAt
              && (shown[i] <= t || exists early ::
                0 <= early < shown[i] && history[early].TurnEnd?
                && history[early].at > q.requestedAt)
  {
    var i, q := RequestWasAsked(run, j, id);
    CloseCause(run, j, id);
    BaselineAt(run, i, j, id, q, history, shown);
    var r := SourceAt(run, j, id).value;
    hide IsRun, SourceAt, Asked, Closes, MayClose, HonestLook, Shown;
    ClosesExactlyWhen(r, run.events[j].se.seen.value, history, shown[i], shown[j]);
    var t :| LastEnd(history, t, shown[j]) && history[t].at > q.requestedAt;
  }

  lemma BaselineAt(run: Run, i: nat, j: nat, id: string, q: Retirement, history: seq<HookEvent>, shown: seq<nat>)
    requires IsRun(run) && i < j < |run.events| && Asked(run, i, id, q) && RequestOf(SourceAt(run, j, id), q)
    requires HonestCatalog(run, id, SourceAt(run, j, id).value.manifest.source, history, shown)
    requires SourceAt(run, j, id).value.retirement.value.mode.AfterTurnEnd?
        && SourceAt(run, j, id).value.retirement.value.state.Pending?
    ensures shown[i] <= shown[j] <= |history| && Requested(SourceAt(run, j, id).value, history, shown[i])
  {
    var e, r := run.events[i].se, SourceAt(run, i, id).value;
    RunLater(run, i, j, id);
    assert SourceAt(run, j, id).value.manifest == r.manifest;
    assert HonestLook(run.events[i], id, r.manifest.source, history, shown[i]);
    assert ExactSource(r, e.seen).Some?;
    assert e.mode.AfterTurnEnd?;
    RequestTakesBaseline(r, e.device, e.timeout, e.seen.value, history, shown[i], e.now);
  }
}
