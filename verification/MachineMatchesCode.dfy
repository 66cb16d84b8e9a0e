/**
 The machine's steps are the code's operations cut at their remote calls: run without
 interruption, they leave exactly the record that the methods of Outbox and
 HandoffApplication are proved to leave.
 */
module MachineMatchesCode {
  import opened Wrappers
  import opened Records
  import opened RecordStore
  import opened Sessions
  import opened Outbox
  import opened Application
  import opened TargetOutcomes
  import opened HandoffWorld

  // ---- the source -----------------------------------------------------------------------------------

  /** Between the two steps only the target and the network may have moved. */
  predicate SameSource(a: Handoff, b: Handoff) { b.source == a.source && b.sourceWork == a.sourceWork }

  lemma AttemptIsTwoSteps(h: Handoff, h1: Handoff, force: bool, reply: Reply<Status>, due: Time, begin: Time, end: Time)
    requires h.source.Some? && h.sourceWork.SourceIdle?
    ensures var expected := AfterPrepare(h.source.value, force, reply, due, begin, end).0;
            match StartPrepareStep(h, force, due, begin)
            case None => expected == h.source.value
            case Some(called) =>
              SameSource(called, h1) && EndPrepareStep(h1, reply, end).Some? ==>
                EndPrepareStep(h1, reply, end).value.source == Some(expected)
                  && EndPrepareStep(h1, reply, end).value.sourceWork.SourceIdle?
  {
    hide SourceTransition, PrepareVerdict, ViewOf, Settled;
  }

  lemma LaunchIsTwoSteps(h: Handoff, h1: Handoff, reply: Reply<Status>, due: Time, begin: Time, end: Time)
    requires h.source.Some? && h.sourceWork.SourceIdle?
    ensures var expected := AfterLaunch(h.source.value, true, reply, due, begin, end).0;
            var called := OperatorLaunchStep(h, due, begin).value;
            if called.sourceWork.SourceIdle? then called.source == Some(expected)
            else
              SameSource(called, h1) && EndLaunchStep(h1, reply, end).Some? ==>
                EndLaunchStep(h1, reply, end).value.source == Some(expected)
                  && EndLaunchStep(h1, reply, end).value.sourceWork.SourceIdle?
  {
    hide SourceTransition, LaunchVerdict, ViewOf, Settled;
  }

  lemma VerifyIsTwoSteps(h: Handoff, h1: Handoff, reply: Reply<Verification>, now: Time)
    requires h.source.Some? && h.sourceWork.SourceIdle? && h.source.value.state.SourceAccepted?
        && h.source.value.locator.Some?
    ensures StartVerifyStep(h).Some?
    ensures SameSource(StartVerifyStep(h).value, h1) && EndVerifyStep(h1, reply, now).Some? ==>
              EndVerifyStep(h1, reply, now).value.source == Some(AfterVerify(h.source.value, reply, now).0)
  {
    hide RecordContext, ViewOf;
  }

  /** Retirement: one look, and a second one after the close if the first allowed it. */
  lemma RetireIsTwoLooks(h: Handoff, h1: Handoff, seen: Option<Detail>, closed: bool, after: Option<Detail>, now: Time)
    requires h.source.Some? && h.sourceWork == RetiringSource(h.source.value)
    requires h.source.value.retirement.Some? && h.source.value.retirement.value.state.Pending?
    ensures LookStep(h, seen, now).Some?
    ensures var expected, looked :=
        AfterRetirePending(h.source.value, seen, closed, after, now), LookStep(h, seen, now).value;
            if MayClose(h.source.value, seen) then
              && looked.sourceWork == ClosingSource(h.source.value)
              && (SameSource(looked, h1) ==>
                    ClosedStep(h1, closed, after, now).Some?
                      && ClosedStep(h1, closed, after, now).value.source == Some(expected))
            else looked.source == Some(expected)
  {
    hide CompleteRetirement, AfterTurnReady;
  }

  // ---- the target ------------------------------------------------------------------------------------------

  lemma EndTargetConcludes(h: Handoff, r: TargetRecord, call: Option<nat>, launch: bool, v: TargetVerdict, now: Time)
    requires h.target == Some(r)
    ensures var h' := EndTarget(h, r, call, launch, v, now);
            && h'.target == Some(Conclude(r, v, now).0) && h'.targetWork.TargetIdle?
            && (Conclude(r, v, now).1.Error? ==> h'.net == h.net)
            && (Conclude(r, v, now).1.Reply? && call.Some? ==>
                  (call.value, Conclude(r, v, now).1.value) in if launch then h'.net.launchReplies
                    else h'.net.prepareReplies)
  {
    hide TargetTransition, StatusOf;
  }

  lemma ResumeIsTwoSteps(h: Handoff, call: Option<nat>, w: PrepareInputs, begin: Time, end: Time)
    requires h.target.Some? && h.targetWork.TargetIdle?
    ensures var expected := AfterResumeTarget(h.target.value, w, begin, end).0;
            var begun := Planned(h, ResumeTargetPlan(h.target.value, w.deadFrom, begin), call, false,
              if ResumeTargetPlan(h.target.value, w.deadFrom, begin).RejectFirst? then end else begin);
            if begun.targetWork.TargetIdle? then begun.target == Some(expected)
            else
              EndPreparationStep(begun, w, end).Some?
              && EndPreparationStep(begun, w, end).value.target == Some(expected)
  {
    hide EndTarget, Conclude, StatusOf, PrepareVerdictFor;
    match ResumeTargetPlan(h.target.value, w.deadFrom, begin)
    case Work(r) =>
      var begun := h.(target := Some(r), targetWork := CheckingPreparation(r, call));
      EndTargetConcludes(begun, r, call, false, PrepareVerdictFor(r, w), end);
    case RejectFirst(r) => EndTargetConcludes(h, r, call, false, ArtifactsVerdict, end);
    case Done(_) =>
  }

  /** The launch work up to its session: the check, then the bound or the created session. */
  lemma ChoiceIsSteps(h: Handoff, t: Table, w: LaunchInputs, s: SessionInputs, created: Option<Session>, bind: Time,
      end: Time)
    requires h.target.Some? && h.targetWork.CheckingLaunch? && h.target == Some(h.targetWork.record) && s.locatorWriteOk
    requires created.Some? && h.targetWork.record.locator.None? && w.instructions.Some? ==>
               MayCreate(t, created.value, ContinuationIdentity(h.targetWork.record, w.worktree, w.instructions.value))
    ensures var r := h.targetWork.record;
            match LaunchCheck(r, w)
            case Some(v) => CheckLaunchStep(h, w, end).value.target == Some(Conclude(r, v, end).0)
            case None =>
              var identity := ContinuationIdentity(r, w.worktree, w.instructions.value);
              var h1 := CheckLaunchStep(h, w, end).value;
              var next := ChooseStep(h1, t, created, s.cancelled, end);
              next.Some?
              && if r.locator.Some? then
                   match ChooseBound(r, t.live)
                   case NoSession(v) => next.value.0.target == Some(Conclude(r, v, end).0)
                   case Chosen(r') => next.value.0.targetWork == Watching(r', h.targetWork.call, identity)
                 else if created.None? then
                   next.value.0.target == Some(Conclude(r, ChooseCreated(r, identity, created, s, bind).verdict, end).0)
                 else
                   next.value.0.targetWork == Created(r, h.targetWork.call, identity, created.value)
  {
    var r := h.targetWork.record;
    hide EndTarget, Conclude, StatusOf, AfterCreate, MayCreate;
    match LaunchCheck(r, w) {
      case Some(v) => EndTargetConcludes(h, r, h.targetWork.call, true, v, end);
      case None =>
        var identity := ContinuationIdentity(r, w.worktree, w.instructions.value);
        var h1 := h.(targetWork := Choosing(r, h.targetWork.call, identity));
        if r.locator.Some? {
          if ChooseBound(r, t.live).NoSession? {
            EndTargetConcludes(h1, r, h.targetWork.call, true, ChooseBound(r, t.live).verdict, end);
          }
        } else if created.None? {
          EndTargetConcludes(h1, r, h.targetWork.call, true, if s.cancelled then Interrupted else NotReadyVerdict, end);
        }
    }
  }

  /** A created session is bound, or the attempt ends as the code ends it. */
  lemma BindIsStep(h: Handoff, t: Table, s: SessionInputs, bind: Time, end: Time)
    requires h.target.Some? && h.targetWork.Created? && h.target == Some(h.targetWork.record)
    ensures var r, identity, session := h.targetWork.record, h.targetWork.identity, h.targetWork.session;
            match ChooseCreated(r, identity, Some(session), s, bind)
            case Chosen(r') =>
              var next := BindStep(h, t, s.persistOk, s.locatorWriteOk, s.cancelled, bind);
              next.Some? && next.value.0.target == Some(r')
                && next.value.0.targetWork == Watching(r', h.targetWork.call, identity)
            case NoSession(v) =>
              var now := if v.LostRecord? || v.Interrupted? then bind else end;
              var next := BindStep(h, t, s.persistOk, s.locatorWriteOk, s.cancelled, now);
              next.Some? && next.value.0.targetWork.TargetIdle? && next.value.0.target == Some(Conclude(r, v, end).0)
  {
    var r := h.targetWork.record;
    hide EndTarget, Conclude, StatusOf, BindLocator, Durable;
    match ChooseCreated(r, h.targetWork.identity, Some(h.targetWork.session), s, bind) {
      case Chosen(_) =>
      case NoSession(v) =>
        ConcludeKeeps(r, v, end);
        EndTargetConcludes(h, r, h.targetWork.call, true, v, if v.LostRecord? || v.Interrupted? then bind else end);
        if v.LostRecord? || v.Interrupted? { ConcludeKeeps(r, v, bind); }
    }
  }

  lemma ConcludeKeeps(r: TargetRecord, v: TargetVerdict, now: Time)
    ensures v.LostRecord? || v.Interrupted? ==> Conclude(r, v, now).0 == r
  {
  }

  /** One snapshot, one poll step: a decisive snapshot ends the polling as PollAll does. */
  lemma PollIsStep(h: Handoff, t: Table, rest: seq<Session>, now: Time)
    requires h.target.Some? && h.targetWork.Watching? && h.target == Some(h.targetWork.record) && AtSession(h, t)
    ensures var r, identity := h.targetWork.record, h.targetWork.identity;
            var snap := t.live[r.locator.value.session];
            var h' := PollStep(h, t, now).value;
            match PollAll(r, identity, [snap] + rest)
            case Delivered => h'.targetWork == Confirmed(r, h.targetWork.call, identity)
              || (h' == h && PollAll(r, identity, rest).Delivered?)
            case ReadyForPrompt => h'.targetWork == Prompting(r, h.targetWork.call, identity)
              || (h' == h && PollAll(r, identity, rest).ReadyForPrompt?)
            case PollConflict => h'.target == Some(Conclude(r, ConflictVerdict, now).0)
              || (h' == h && PollAll(r, identity, rest).PollConflict?)
            case KeepPolling => h' == h && PollAll(r, identity, rest).KeepPolling?
  {
    var r := h.targetWork.record;
    var snap := t.live[r.locator.value.session];
    assert ([snap] + rest)[1..] == rest && ([snap] + rest)[0] == snap;
    hide EndTarget, Conclude, Poll;
    EndTargetConcludes(h, r, h.targetWork.call, true, ConflictVerdict, now);
  }

  /** The end of a delivery: an unconfirmed prompt, missing evidence, a lost inventory write or acceptance. */
  lemma DeliveryIsSteps(h: Handoff, t: Table, s: SessionInputs, now: Time)
    requires h.target.Some? && AtSession(h, t) && h.target == Some(h.targetWork.record) && !h.targetWork.Watching?
    requires var polled := PollAll(h.targetWork.record, h.targetWork.identity, s.snaps);
             if h.targetWork.Prompting? then polled.ReadyForPrompt? && !s.sendOk
             else
               (polled.Delivered? || (polled.ReadyForPrompt? && s.sendOk))
               && t.live[h.targetWork.record.locator.value.session] == s.final
    ensures var r := h.targetWork.record;
            var next := if h.targetWork.Prompting? then SendStep(h, t, s.sendOk, s.cancelled, now)
              else AcceptStep(h, t, s.finalPersistOk, now);
            next.Some? && next.value.0.target == Some(Conclude(r, DeliveryVerdict(r, h.targetWork.identity, s), now).0)
  {
    var r := h.targetWork.record;
    var v := DeliveryVerdict(r, h.targetWork.identity, s);
    hide EndTarget, Conclude, PollAll, Durable;
    if h.targetWork.Prompting? {
      EndTargetConcludes(Prompted(h, r.locator.value.session), r, h.targetWork.call, true, v, now);
    } else {
      EndTargetConcludes(h, r, h.targetWork.call, true, v, now);
    }
  }

  // ---- requests that take one step --------------------------------------------------------------------------

  /** The store holds this handoff's records, and none where the machine has none. */
  predicate StoredAs(s: StoreState, id: string, h: Handoff) {
    && (if h.source.Some? then id in s.source && s.source[id] == h.source.value else id !in s.source)
    && (if h.target.Some? then id in s.target && s.target[id] == h.target.value else id !in s.target)
  }

  /** Queueing a new handoff is the store's call for an id that it does not have. */
  lemma QueueIsStoreCall(s: StoreState, h: Handoff, m: Manifest, clock: Time)
    requires StoredAs(s, m.id, h)
    ensures QueueStep(h, m, clock).Some? <==> QueueResult(s, m, clock).Ok? && h.source.None?
    ensures QueueStep(h, m, clock).Some? ==> QueueStep(h, m, clock).value.source == Some(QueueResult(s, m, clock).value)
  {
    hide ValidManifest, ValidFields;
  }

  /** A prepare call is served exactly when the request passes its guard and the store receives the manifest; it goes on
      with the record that the store answers. */
  lemma PrepareIsStoreCall(s: StoreState, h: Handoff, call: nat, m: Manifest, peer: string, w: PrepareInputs,
      clock: Time, now: Time)
    requires StoredAs(s, m.id, h) && ValidState(s)
    ensures DeliverPrepareStep(h, call, m, peer, w, clock, now).Some? <==>
              && h.targetWork.TargetIdle? && (call, m) in h.net.prepareCalls && PrepareGuard(m, peer, w).None?
              && ReceiveResult(s, m, clock).Ok?
    ensures DeliverPrepareStep(h, call, m, peer, w, clock, now).Some? ==>
              var r := ReceiveResult(s, m, clock).value;
              DeliverPrepareStep(h, call, m, peer, w, clock, now)
                == Some(Planned(h.(target := Some(r)), ResumeTargetPlan(r, w.deadFrom, now), Some(call), false, now))
  {
    assert h.target.Some? ==> h.(target := Some(h.target.value)) == h;
    assert ValidTarget(NewTarget(m, clock)) ==> ValidManifest(m);
    assert PrepareGuard(m, peer, w).None? ==> ValidManifest(m);
    hide ValidState, ValidTarget, ValidManifest, ResumeTargetPlan, Planned, PrepareGuard;
  }

  /** An acknowledgement is the store's call with the handoff's own marker. */
  lemma AcknowledgeIsStoreCall(s: StoreState, id: string, h: Handoff, phase: AckPhase, scope: string, session: string,
      at: Time, clock: Time)
    requires StoredAs(s, id, h) && h.target.Some?
    ensures var res := TargetResult(s,
        AckTarget(LaunchMarker(id, h.target.value.digest), phase, scope, session, at, clock));
            var next := AcknowledgeStep(h, phase, scope, session, at, clock);
            && (next.Some? <==> res.Ok?)
            && (next.Some? ==> next.value.target == Some(res.value) && next.value.net == h.net)
  {
    hide Acknowledge;
  }

  /** A verification is answered exactly to the source's device, for the exact accepted identity, with what the record
      holds, and nothing else changes. */
  lemma VerifyIsServed(h: Handoff, call: nat, digest: Digest, locator: Locator, peer: string, device: string)
    requires h.target.Some? && ValidTarget(h.target.value)
    ensures var r, next := h.target.value, ServeVerifyStep(h, call, digest, locator, peer, device);
            && (next.Some? <==>
                  && (call, digest, locator) in h.net.verifyCalls && r.state.TargetAccepted?
                  && peer == r.manifest.source.device && device == r.manifest.target.device
                  && digest == r.digest && r.locator == Some(locator))
            && (next.Some? ==>
                  next.value == h.(net := h.net.(verifyReplies := h.net.verifyReplies + {(call, VerificationOf(r))})))
  {
    DevicesAreNamed(h.target.value);
    hide ValidTarget, VerificationOf;
  }
}
