/** What the shared session table knows about each handoff's continuation, kept by every step. */
module SessionInvariant {
  import opened Wrappers
  import opened Records
  import opened RecordStore
  import opened Sessions
  import opened Outbox
  import opened Application
  import opened HandoffWorld
  import opened WorldInvariant
  import opened TargetInvariant

  ghost predicate EntriesInv(entries: map<string, Session>, t: Table) {
    forall sid <- entries ::
      && entries[sid].id == sid && sid in t.minted && entries[sid].identity == t.minted[sid]
      && (entries[sid].command.LaunchEvidence? ==> (sid, entries[sid].command.marker) in t.delivered)
  }

  /** Private sessions are continuations, each owned by the handoff its name is the hash of. */
  ghost predicate TableInv(t: Table) {
    && EntriesInv(t.live, t) && EntriesInv(t.disk, t)
    && (forall sid <- t.minted :: t.minted[sid].private ==>
          t.minted[sid].name.HandoffName? && t.minted[sid].owner == LaunchOwner(t.minted[sid].name.id))
  }

  /** The session was created as the continuation of exactly this handoff. */
  ghost predicate Continues(t: Table, sid: string, id: string, digest: Digest) {
    sid in t.minted && t.minted[sid].private && t.minted[sid].name == HandoffName(id, digest)
  }

  ghost predicate WorkInv(id: string, work: TargetWork, t: Table) {
    && (work.Choosing? || work.Created? || work.Watching? || work.Prompting? || work.Confirmed? ==>
          work.identity == ContinuationIdentity(work.record, work.identity.cwd, work.identity.instructions)
          && work.record.manifest.id == id)
    && (work.Created? ==>
      work.session.id in t.live && work.session.id in t.minted
      && work.session.identity == t.minted[work.session.id])
    && ((work.Watching? || work.Prompting? || work.Confirmed?) && work.record.locator.Some? ==>
      work.record.locator.value.session in t.live)
    && (work.Confirmed? && work.record.locator.Some? ==>
      (work.record.locator.value.session, MarkerOf(work.record)) in t.delivered)
  }

  ghost predicate BoundInv(id: string, h: Handoff, t: Table) {
    && (forall l <- h.log.bound :: h.target.Some? && Continues(t, l.session, id, h.target.value.digest))
    && (h.target.Some? && h.target.value.state.TargetAccepted? && h.target.value.locator.Some? ==>
          (h.target.value.locator.value.session, MarkerOf(h.target.value)) in t.delivered)
  }

  ghost predicate SessionsInv(id: string, h: Handoff, t: Table) {
    WorkInv(id, h.targetWork, t) && BoundInv(id, h, t)
  }

  /** A later table that lost no live session, forgot no creation and no delivery. */
  ghost predicate Grows(t: Table, t': Table) {
    && t.live.Keys <= t'.live.Keys && t.delivered <= t'.delivered
    && (forall sid <- t.minted :: sid in t'.minted && t'.minted[sid] == t.minted[sid])
  }

  lemma GrowthKeeps(id: string, h: Handoff, t: Table, t': Table)
    requires SessionsInv(id, h, t) && Grows(t, t')
    ensures SessionsInv(id, h, t')
  {
    hide ContinuationIdentity;
  }

  // ---- the table's own steps ----------------------------------------------------------------------------

  lemma LiveUpdateKeeps(t: Table, sid: string, s: Session)
    requires TableInv(t) && sid in t.live
    requires s.id == sid && s.identity == t.live[sid].identity
    requires s.command.LaunchEvidence? ==> (sid, s.command.marker) in t.delivered
    ensures TableInv(t.(live := t.live[sid := s])) && Grows(t, t.(live := t.live[sid := s]))
  {
  }

  lemma PersistKeeps(t: Table)
    requires TableInv(t)
    ensures TableInv(t.(disk := Durable(t.live))) && Grows(t, t.(disk := Durable(t.live)))
  {
  }

  lemma CreateKeeps(t: Table, s: Session, identity: Identity)
    requires TableInv(t) && MayCreate(t, s, identity)
    requires identity.private ==> identity.name.HandoffName? && identity.owner == LaunchOwner(identity.name.id)
    ensures TableInv(AfterCreate(t, s)) && Grows(t, AfterCreate(t, s))
    ensures s.id in AfterCreate(t, s).live && s.id in AfterCreate(t, s).minted
        && AfterCreate(t, s).minted[s.id] == s.identity
  {
    hide LaunchOwner;
    if s.id !in t.live {
      assert s.id !in t.minted;
    }
  }

  // ---- target steps keep what the table knows ---------------------------------------------------------------

  /** A write that binds nothing new, enters `accepted` only on delivered evidence and leaves the operation idle. */
  lemma EndTargetSessions(id: string, h: Handoff, t: Table, r: TargetRecord, call: Option<nat>, launch: bool,
      v: TargetVerdict, now: Time)
    requires Inv(id, h) && SessionsInv(id, h, t) && h.target == Some(r) && Allowed(r, launch, v)
    requires v.Forward? && v.next.TargetAccepted? ==>
        r.locator.Some? && (r.locator.value.session, MarkerOf(r)) in t.delivered
    ensures SessionsInv(id, EndTarget(h, r, call, launch, v, now), t)
  {
    hide Inv, StatusOf, ContinuationIdentity;
    if !v.Interrupted? && !v.LostRecord? {
      var settled := TargetTransition(r, r.revision, TargetVerdictState(v), TargetTransitionFor(r, v, now), now);
      TargetEffect(r, r.revision, TargetVerdictState(v), TargetTransitionFor(r, v, now), now);
      hide TargetTransition, ValidTarget;
    }
  }

  lemma PlannedSessions(id: string, h: Handoff, t: Table, plan: TargetPlan, call: Option<nat>, launch: bool, now: Time)
    requires Inv(id, h) && SessionsInv(id, h, t) && h.target.Some?
    requires plan.Work? ==> plan.record.digest == h.target.value.digest && !plan.record.state.TargetAccepted?
    requires plan.RejectFirst? ==> plan.record == h.target.value && Allowed(plan.record, launch, ArtifactsVerdict)
    ensures SessionsInv(id, Planned(h, plan, call, launch, now), t)
  {
    hide Inv, EndTarget, ContinuationIdentity, Allowed;
    if plan.RejectFirst? {
      EndTargetSessions(id, h, t, plan.record, call, launch, ArtifactsVerdict, now);
    }
  }

  lemma DeliverPrepareSessions(id: string, h: Handoff, t: Table, call: nat, m: Manifest, peer: string, w: PrepareInputs,
      clock: Time, now: Time)
    requires Inv(id, h) && SessionsInv(id, h, t)
    ensures var next := DeliverPrepareStep(h, call, m, peer, w, clock, now);
        next.Some? ==> SessionsInv(id, next.value, t)
  {
    if DeliverPrepareStep(h, call, m, peer, w, clock, now).Some? {
      assert (call, m) in h.net.prepareCalls;
      var h1 := if h.target.None? then h.(target := Some(NewTarget(m, clock))) else h;
      if h.target.None? { ReceiveKeeps(id, h, m, clock); }
      var r := h1.target.value;
      EnterTargetEffect(r, Validating, now);
      hide Inv, ValidTarget, Planned, EnterTarget, StatusOf;
      PlannedSessions(id, h1, t, ResumeTargetPlan(r, w.deadFrom, now), Some(call), false, now);
    }
  }

  lemma DeliverLaunchSessions(id: string, h: Handoff, t: Table, call: nat, digest: Digest, peer: string, device: string,
      now: Time)
    requires Inv(id, h) && SessionsInv(id, h, t) && h.target.Some?
    ensures var next := DeliverLaunchStep(h, call, digest, peer, device, now);
        next.Some? ==> SessionsInv(id, next.value, t)
  {
    hide Inv, SessionsInv, Planned, EnterTarget, StatusOf, ValidTarget;
    EnterTargetEffect(h.target.value, Launching, now);
    PlannedSessions(id, h, t, LaunchRequestPlan(h.target.value, digest, peer, device, now), Some(call), true, now);
  }

  lemma RecoverSessions(id: string, h: Handoff, t: Table, deadFrom: nat, scan: Time, now: Time)
    requires Inv(id, h) && SessionsInv(id, h, t) && h.target.Some?
    ensures RecoverStep(h, deadFrom, scan, now).Some? ==> SessionsInv(id, RecoverStep(h, deadFrom, scan, now).value, t)
  {
    hide Inv, SessionsInv, Planned, EnterTarget, StatusOf, ValidTarget;
    var r := h.target.value;
    if r.state.Launching? || r.state.LaunchWaitingAssets? {
      EnterTargetEffect(r, Launching, now);
      PlannedSessions(id, h, t, ResumeLaunchPlan(r, now), None, true, now);
    } else {
      EnterTargetEffect(r, Validating, now);
      PlannedSessions(id, h, t, ResumeTargetPlan(r, deadFrom, now), None, false, now);
    }
  }

  lemma CheckSessions(id: string, h: Handoff, t: Table, w: LaunchInputs, p: PrepareInputs, now: Time)
    requires Inv(id, h) && SessionsInv(id, h, t) && h.target.Some?
    ensures CheckLaunchStep(h, w, now).Some? ==> SessionsInv(id, CheckLaunchStep(h, w, now).value, t)
    ensures EndPreparationStep(h, p, now).Some? ==> SessionsInv(id, EndPreparationStep(h, p, now).value, t)
  {
    if h.targetWork.CheckingLaunch? {
      RecordsId(id, h);
      LaunchInHand(id, h);
      var r := h.targetWork.record;
      hide Inv, EndTarget, ValidTarget, MarkerOf;
      var check := LaunchCheck(r, w);
      if check.Some? { EndTargetSessions(id, h, t, r, h.targetWork.call, true, check.value, now); }
    } else if h.targetWork.CheckingPreparation? {
      var r := h.targetWork.record;
      assert h.target == Some(r) && r.state.Validating?;
      hide Inv, EndTarget, MarkerOf;
      EndTargetSessions(id, h, t, r, h.targetWork.call, false, PrepareVerdictFor(r, p), now);
    }
  }

  lemma RecordsId(id: string, h: Handoff)
    requires Inv(id, h) && h.target.Some?
    ensures h.target.value.manifest.id == id && h.target.value.digest == Digest(h.target.value.manifest)
  {
    hide HandsInv, CallsInv, RepliesInv, PhaseInv, AgreementInv, HistoryInv, ValidFields;
  }

  lemma AckSessions(id: string, h: Handoff, t: Table, phase: AckPhase, scope: string, session: string, at: Time,
      clock: Time)
    requires Inv(id, h) && SessionsInv(id, h, t) && h.target.Some?
    ensures var next := AcknowledgeStep(h, phase, scope, session, at, clock);
        next.Some? ==> SessionsInv(id, next.value, t)
  {
    assert ValidTarget(h.target.value);
    AckEffect(h.target.value, phase, scope, session, at, clock);
    hide Inv, Acknowledge, ValidTarget, ContinuationIdentity;
  }

  lemma ChooseSessions(id: string, h: Handoff, t: Table, found: Option<Session>, cancelled: bool, now: Time)
    requires Inv(id, h) && SessionsInv(id, h, t) && TableInv(t) && h.target.Some?
    ensures var next := ChooseStep(h, t, found, cancelled, now);
            next.Some? ==>
              SessionsInv(id, next.value.0, next.value.1) && TableInv(next.value.1)
              && Grows(t, next.value.1)
  {
    hide Inv, EndTarget, MayCreate, AfterCreate, ValidTarget, MarkerOf;
    if h.targetWork.Choosing? {
      var r, call, identity := h.targetWork.record, h.targetWork.call, h.targetWork.identity;
      LaunchInHand(id, h);
      if r.locator.Some? {
        if ChooseBound(r, t.live).NoSession? { EndTargetSessions(id, h, t, r, call, true, ConflictVerdict, now); }
      } else if found.None? {
        EndTargetSessions(id, h, t, r, call, true, if cancelled then Interrupted else NotReadyVerdict, now);
      } else if MayCreate(t, found.value, identity) {
        RecordsId(id, h);
        CreateKeeps(t, found.value, identity);
        GrowthKeeps(id, h, t, AfterCreate(t, found.value));
      }
    }
  }

  lemma BindSessions(id: string, h: Handoff, t: Table, persistOk: bool, writeOk: bool, cancelled: bool, now: Time)
    requires Inv(id, h) && SessionsInv(id, h, t) && TableInv(t) && h.target.Some?
    ensures var next := BindStep(h, t, persistOk, writeOk, cancelled, now);
            next.Some? ==>
              SessionsInv(id, next.value.0, next.value.1) && TableInv(next.value.1)
              && Grows(t, next.value.1)
  {
    hide Inv, EndTarget, BindLocator, ValidTarget, Durable, MarkerOf;
    if h.targetWork.Created? {
      var r, call, s := h.targetWork.record, h.targetWork.call, h.targetWork.session;
      LaunchInHand(id, h);
      if s.identity != h.targetWork.identity {
        EndTargetSessions(id, h, t, r, call, true, ConflictVerdict, now);
      } else if !persistOk {
        EndTargetSessions(id, h, t, r, call, true, if cancelled then Interrupted else NotReadyVerdict, now);
      } else {
        RecordsId(id, h);
        var locator := LocatorFor(r, s.id);
        BindEffect(r, r.revision, locator, TransitionTime(now, r.updated), now);
        PersistKeeps(t);
        GrowthKeeps(id, h, t, t.(disk := Durable(t.live)));
      }
    }
  }

  lemma PollSessions(id: string, h: Handoff, t: Table, now: Time)
    requires Inv(id, h) && SessionsInv(id, h, t) && TableInv(t) && h.target.Some?
    ensures PollStep(h, t, now).Some? ==> SessionsInv(id, PollStep(h, t, now).value, t)
  {
    hide Inv, EndTarget, ValidTarget;
    if AtSession(h, t) && h.targetWork.Watching? {
      LaunchInHand(id, h);
      EndTargetSessions(id, h, t, h.targetWork.record, h.targetWork.call, true, ConflictVerdict, now);
    }
  }

  lemma SendSessions(id: string, h: Handoff, t: Table, ok: bool, cancelled: bool, now: Time)
    requires Inv(id, h) && SessionsInv(id, h, t) && TableInv(t) && h.target.Some?
    ensures var next := SendStep(h, t, ok, cancelled, now);
            next.Some? ==>
              SessionsInv(id, next.value.0, next.value.1) && TableInv(next.value.1)
              && Grows(t, next.value.1)
  {
    hide Inv, EndTarget, ValidTarget;
    if AtSession(h, t) && h.targetWork.Prompting? {
      var r, call := h.targetWork.record, h.targetWork.call;
      LaunchInHand(id, h);
      var sid := r.locator.value.session;
      if ok {
        var t1 := t.(delivered := t.delivered + {(sid, MarkerOf(r))});
        assert TableInv(t1) && Grows(t, t1);
        LiveUpdateKeeps(t1, sid, t.live[sid].(command := EvidenceOf(r), phase := Working));
        GrowthKeeps(id, h, t, t1.(live := t1.live[sid := t.live[sid].(command := EvidenceOf(r), phase := Working)]));
      } else {
        var t1 := t.(live := t.live[sid := t.live[sid].(phase := Stuck)]);
        LiveUpdateKeeps(t, sid, t.live[sid].(phase := Stuck));
        GrowthKeeps(id, h, t, t1);
        PromptedKeeps(id, h, sid);
        EndTargetSessions(id, Prompted(h, sid), t1, r, call, true, if cancelled then Interrupted
          else UnconfirmedVerdict, now);
      }
    }
  }

  lemma AcceptSessions(id: string, h: Handoff, t: Table, persistOk: bool, now: Time)
    requires Inv(id, h) && SessionsInv(id, h, t) && TableInv(t) && h.target.Some?
    ensures var next := AcceptStep(h, t, persistOk, now);
            next.Some? ==>
              SessionsInv(id, next.value.0, next.value.1) && TableInv(next.value.1)
              && Grows(t, next.value.1)
  {
    hide Inv, EndTarget, ValidTarget, Durable;
    if AtSession(h, t) && h.targetWork.Confirmed? {
      var r, call := h.targetWork.record, h.targetWork.call;
      LaunchInHand(id, h);
      if t.live[r.locator.value.session].command != EvidenceOf(r) {
        EndTargetSessions(id, h, t, r, call, true, NoEvidenceVerdict, now);
      } else if !persistOk {
        EndTargetSessions(id, h, t, r, call, true, NotPersistedVerdict, now);
      } else {
        PersistKeeps(t);
        GrowthKeeps(id, h, t, t.(disk := Durable(t.live)));
        EndTargetSessions(id, h, t.(disk := Durable(t.live)), r, call, true, Forward(TargetAccepted, r.locator), now);
      }
    }
  }

  lemma TargetSessions(id: string, h: Handoff, t: Table, e: TargetEvent)
    requires Inv(id, h) && SessionsInv(id, h, t) && TableInv(t)
    ensures var next := TargetNext(h, t, e);
            next.Some? ==>
              SessionsInv(id, next.value.0, next.value.1) && TableInv(next.value.1)
              && Grows(t, next.value.1)
  {
    hide Inv, TableInv, DeliverPrepareStep, EndPreparationStep, DeliverLaunchStep, RecoverStep, CheckLaunchStep,
      AcknowledgeStep,
      ChooseStep, BindStep, PollStep, SendStep, AcceptStep, VerificationOf;
    if e.DeliverPrepare? {
      DeliverPrepareSessions(id, h, t, e.call, e.m, e.peer, e.w, e.clock, e.now);
    } else if h.target.Some? && !e.TargetAborts? {
      match e
      case EndPreparation(w, now) =>
        CheckSessions(id, h, t, LaunchInputs("", false, false, false, false, Passed, Passed, "", None, false, 0), w,
        now);
      case DeliverLaunch(call, digest, peer, device, now) =>
        DeliverLaunchSessions(id, h, t, call, digest, peer, device, now);
      case Recover(deadFrom, scan, now) => RecoverSessions(id, h, t, deadFrom, scan, now);
      case CheckLaunch(w, now) =>
        CheckSessions(id, h, t, w, PrepareInputs("", false, false, false, Passed, Passed, 0), now);
      case ServeVerify(_, _, _, _, _) =>
      case AcknowledgeContext(phase, scope, session, at, clock) =>
        AckSessions(id, h, t, phase, scope, session, at, clock);
      case ChooseSession(found, cancelled, now) => ChooseSessions(id, h, t, found, cancelled, now);
      case BindSession(persistOk, writeOk, cancelled, now) =>
        BindSessions(id, h, t, persistOk, writeOk, cancelled, now);
      case PollSession(now) => PollSessions(id, h, t, now);
      case SendPrompt(ok, cancelled, now) => SendSessions(id, h, t, ok, cancelled, now);
      case AcceptLaunch(persistOk, now) => AcceptSessions(id, h, t, persistOk, now);
    }
  }
}
