/** The protocol's promises, over every run. */
module HandoffTheorems {
  import opened Wrappers
  import opened Records
  import opened RecordStore
  import opened Sessions
  import opened Outbox
  import opened Application
  import opened HandoffWorld
  import opened WorldInvariant
  import opened SessionInvariant
  import opened StepFacts
  import opened WorldTheorems

  lemma HandoffInv(run: Run, i: nat, id: string)
    requires IsRun(run) && i <= |run.events|
    ensures var w := run.worlds[i]; Inv(id, Get(w, id)) && SessionsInv(id, Get(w, id), w.table) && TableInv(w.table)
  {
    RunInv(run, i);
    hide Inv, SessionsInv, TableInv;
  }

  // ---- agreement --------------------------------------------------------------------------------------

  /** Both devices hold the handoff as accepted, for the same digest and exactly this locator. */
  ghost predicate BothAccepted(h: Handoff, locator: Locator) {
    && h.source.Some? && h.source.value.state.SourceAccepted? && h.source.value.locator == Some(locator)
    && h.target.Some? && h.target.value.state.TargetAccepted? && h.target.value.locator == Some(locator)
    && h.source.value.digest == h.target.value.digest == Digest(h.source.value.manifest)
  }

  /** The source accepts only what the target has accepted. */
  lemma Agreement(run: Run, i: nat, id: string)
    requires IsRun(run) && i <= |run.events|
    ensures var h := Get(run.worlds[i], id);
            InState(h.source, SourceAccepted) ==>
              h.source.value.locator.Some? && BothAccepted(h, h.source.value.locator.value)
  {
    HandoffInv(run, i, id);
    hide ValidFields, ValidRetirement, ValidAck;
    var h := Get(run.worlds[i], id);
    if InState(h.source, SourceAccepted) { AcceptedLocator(h.source.value); }
    hide SessionsInv, TableInv, HistoryInv, PhaseInv, RepliesInv, CallsInv, HandsInv;
  }

  lemma AcceptedLocator(r: SourceRecord)
    requires ValidSource(r) && r.state.SourceAccepted?
    ensures r.locator.Some?
  {
  }

  /** Once reached, the agreement is never left. */
  lemma AgreementStays(run: Run, i: nat, j: nat, id: string)
    requires IsRun(run) && i <= j <= |run.events| && InState(Get(run.worlds[i], id).source, SourceAccepted)
    ensures Get(run.worlds[i], id).source.value.locator.Some?
    ensures BothAccepted(Get(run.worlds[j], id), Get(run.worlds[i], id).source.value.locator.value)
  {
    Agreement(run, i, id);
    Agreement(run, j, id);
    RunLater(run, i, j, id);
  }

  // ---- causes ----------------------------------------------------------------------------------------------

  predicate IsLaunchRequest(e: Event, id: string) { e.AtSource? && e.id == id && e.se.OperatorLaunch? }

  predicate IsAck(e: Event, id: string, session: string) {
    e.AtTarget? && e.id == id && e.te.AcknowledgeContext? && e.te.phase.ContextLoaded? && e.te.session == session
  }

  lemma LogStepCause(id: string, w: World, e: Event, w': World)
    requires Stepped(id, w, e, w')
    ensures var g, g' := Get(w, id).log, Get(w', id).log;
            && (g'.operatorLaunched && !g.operatorLaunched ==> IsLaunchRequest(e, id))
            && (forall session <- g'.ackedBy :: session in g.ackedBy || IsAck(e, id, session))
  {
    hide Get, LaunchCause, AcceptCause, BindCause, PromptCause, MayClose, SawExit, SourceLater, TargetLater;
  }

  /** The log tells the truth about the operator and about every acknowledgement. */
  lemma {:induction false} LogHistory(run: Run, i: nat, id: string, session: string)
    requires IsRun(run) && i <= |run.events|
    ensures var g := Get(run.worlds[i], id).log;
            && (g.operatorLaunched ==> exists k :: 0 <= k < i && IsLaunchRequest(run.events[k], id))
            && (session in g.ackedBy ==> exists k :: 0 <= k < i && IsAck(run.events[k], id, session))
  {
    if i > 0 {
      LogHistory(run, i - 1, id, session);
      StepOfRun(run, i - 1, id);
      LogStepCause(id, run.worlds[i - 1], run.events[i - 1], run.worlds[i]);
      hide WorldInv, Stepped, IsAck, IsLaunchRequest, Get;
    }
  }

  /** Step k is the operator's launch request that takes the prepared source into the launch. */
  ghost predicate OperatorLaunches(run: Run, k: nat, id: string)
    requires IsRun(run) && k < |run.events|
  {
    && IsLaunchRequest(run.events[k], id)
    && InState(Get(run.worlds[k], id).source, RemotePrepared)
    && InState(Get(run.worlds[k + 1], id).source, LaunchingRemote)
  }

  lemma FirstLaunchCall(id: string, h: Handoff, e: SourceEvent)
    requires Inv(id, h) && SourceNext(h, e).Some? && h.net.launchCalls == {}
        && SourceNext(h, e).value.net.launchCalls != {}
    ensures e.OperatorLaunch? && InState(h.source, RemotePrepared)
    ensures InState(SourceNext(h, e).value.source, LaunchingRemote)
  {
    assert h.source.Some? ==> ValidSource(h.source.value) && !SourceInLaunch(h.source.value.state);
    assert LaunchingRemote !in h.log.past && LaunchRetryWait !in h.log.past;
    hide Inv, ValidSource, SourceTransition, CompleteRetirement, MayClose, ExactSource, RequestPlan, VerifiedRecord,
      PreparePlan, Enter, StoredVerdict, PrepareVerdict, LaunchVerdict;
    if e.OperatorLaunch? { LaunchPlanEffect(h.source.value, true, e.due, e.now); }
  }

  /** The first launch call of a handoff goes out in a step in which the operator launches it. */
  lemma {:induction false} CallsAreOperators(run: Run, i: nat, id: string)
    requires IsRun(run) && i <= |run.events| && Get(run.worlds[i], id).net.launchCalls != {}
    ensures exists k :: 0 <= k < i && OperatorLaunches(run, k, id)
  {
    hide WorldInv, Inv, SessionsInv, TableInv, SourceNext, TargetNext, Stepped, InState;
    assert i > 0 by { assert run.worlds[0] == Initial; }
    var e := run.events[i - 1];
    if Get(run.worlds[i - 1], id).net.launchCalls != {} {
      CallsAreOperators(run, i - 1, id);
    } else {
      assert StepOf(run, i - 1);
      HandoffInv(run, i - 1, id);
      if e.AtSource? && e.id == id {
        FirstLaunchCall(id, Get(run.worlds[i - 1], id), e.se);
        assert OperatorLaunches(run, i - 1, id);
      } else {
        StepOfRun(run, i - 1, id);
        OthersLeaveTheSource(id, run.worlds[i - 1], e, run.worlds[i]);
      }
    }
  }

  /** A target enters a launch only if the operator launched that handoff before: some earlier request of the operator
      itself took the source from prepared into the launch. */
  lemma NoInferredLaunch(run: Run, i: nat, id: string)
    requires IsRun(run) && i <= |run.events| && Launched(Get(run.worlds[i], id))
    ensures exists k :: 0 <= k < i && OperatorLaunches(run, k, id)
  {
    HandoffInv(run, i, id);
    assert Get(run.worlds[i], id).net.launchCalls != {} by {
      hide RecordsInv, HandsInv, CallsInv, RepliesInv, AgreementInv, HistoryInv;
    }
    hide Inv, SessionsInv, TableInv, StepOf, OperatorLaunches, Get;
    CallsAreOperators(run, i, id);
  }

  lemma LaunchStepCause(id: string, w: World, e: Event, w': World)
    requires Stepped(id, w, e, w')
    ensures var h, h' := Get(w, id), Get(w', id);
            && (!Launched(h) && Launched(h') ==>
              e.AtTarget? && e.te.DeliverLaunch? && h.target.Some? && h.target.value.state.Prepared?)
            && (InState(h.source, RemotePrepared) && InState(h'.source, LaunchingRemote) ==> IsLaunchRequest(e, id))
  {
    hide Get, Later, AcceptCause, BindCause, PromptCause, AckCause, SawExit, MayClose;
  }

  /** Only a launch request takes a prepared target record into a launch, and only the operator's own call takes a
      prepared source there: no restart, reconnect or recovery pass does, however stale its scan. */
  lemma OnlyTheOperatorLaunches(run: Run, i: nat, id: string)
    requires IsRun(run) && i < |run.events|
    ensures var h, h' := Get(run.worlds[i], id), Get(run.worlds[i + 1], id);
            && (!Launched(h) && Launched(h') ==>
              run.events[i].AtTarget? && run.events[i].te.DeliverLaunch? && h.target.Some?
              && h.target.value.state.Prepared?)
            && (InState(h.source, RemotePrepared) && InState(h'.source, LaunchingRemote) ==>
              IsLaunchRequest(run.events[i], id))
  {
    StepOfRun(run, i, id);
    LaunchStepCause(id, run.worlds[i], run.events[i], run.worlds[i + 1]);
    hide WorldInv, Stepped, IsLaunchRequest, Launched, InState;
  }

  // ---- retirement ----------------------------------------------------------------------------------------------

  /** Equal proofs on both devices that the continuation loaded this very context. */
  ghost predicate Proved(h: Handoff) {
    && h.source.Some? && h.target.Some? && h.source.value.locator.Some? && BothAccepted(h, h.source.value.locator.value)
    && h.source.value.contextLoaded.Some? && h.target.value.contextLoaded == h.source.value.contextLoaded
    && ValidAck(h.source.value.contextLoaded.value, h.source.value.digest, h.source.value.locator.value)
    && h.source.value.locator.value.session in h.log.ackedBy
  }

  lemma ProofOnBoth(run: Run, i: nat, id: string)
    requires IsRun(run) && i <= |run.events|
    ensures var h := Get(run.worlds[i], id); h.source.Some? && h.source.value.contextLoaded.Some? ==> Proved(h)
  {
    HandoffInv(run, i, id);
    Agreement(run, i, id);
    var h := Get(run.worlds[i], id);
    if h.source.Some? && h.source.value.contextLoaded.Some? {
      assert ValidSource(h.source.value);
      hide ValidFields, ValidRetirement, ValidTarget, ValidManifest;
      assert h.source.value.state.SourceAccepted?;
      AckedByBound(id, h);
    }
    hide SessionsInv, TableInv, PhaseInv, RepliesInv, CallsInv, HandsInv, HistoryInv, ValidSource;
  }

  lemma AckedByBound(id: string, h: Handoff)
    requires Inv(id, h) && h.target.Some? && h.target.value.contextLoaded.Some? && h.target.value.locator.Some?
    ensures h.target.value.locator.value.session in h.log.ackedBy
  {
    hide RecordsInv, HandsInv, CallsInv, RepliesInv, PhaseInv, AgreementInv;
    var s :| s in h.log.ackedBy;
  }

  lemma RetiringHasProof(id: string, h: Handoff)
    requires Inv(id, h)
    ensures h.source.Some? && h.source.value.retirement.Some? ==> h.source.value.contextLoaded.Some?
  {
    hide HandsInv, CallsInv, RepliesInv, PhaseInv, AgreementInv, HistoryInv, ValidFields, ValidTarget;
  }

  /** At every moment of a run: a proof at the source is a proof on both devices, and a retirement rests on one. */
  lemma ProofAt(run: Run, i: nat, id: string)
    requires IsRun(run) && i <= |run.events|
    ensures var h := Get(run.worlds[i], id);
            h.source.Some? ==>
              (h.source.value.contextLoaded.Some? ==> Proved(h))
              && (h.source.value.retirement.Some? ==> h.source.value.contextLoaded.Some?)
  {
    HandoffInv(run, i, id);
    RetiringHasProof(id, Get(run.worlds[i], id));
    ProofOnBoth(run, i, id);
    hide Inv, SessionsInv, TableInv, Proved, Get;
  }

  /** Step i calls closeSource. */
  ghost predicate Closes(run: Run, i: nat, id: string)
    requires IsRun(run) && i < |run.events|
  {
    var e := run.events[i];
    e.AtSource? && e.id == id && e.se.LookAtSource? && Get(run.worlds[i + 1], id).sourceWork.ClosingSource?
  }

  function CloseOf(r: SourceRecord): Close { Close(r.manifest.source, r.contextLoaded) }

  /** A look that closes the source: the pending retirement of the stored record may close, and the call is for it. */
  lemma LookCloses(id: string, h: Handoff, e: SourceEvent)
    requires Inv(id, h) && e.LookAtSource? && SourceNext(h, e).Some?
    ensures var h' := SourceNext(h, e).value;
            if h'.sourceWork.ClosingSource? then
              && h.source.Some? && h.source.value.retirement.Some? && MayClose(h.source.value, e.seen)
              && h'.source == h.source
              && h'.sourceWork == ClosingSource(h.source.value)
              && h'.log.closes == h.log.closes + {CloseOf(h.source.value)}
            else h'.log.closes == h.log.closes
  {
    assert !h.sourceWork.SourceIdle? ==> h.source == Some(h.sourceWork.record);
    hide Inv, MayClose, CompleteRetirement, ExactSource;
  }

  lemma CloseCause(run: Run, i: nat, id: string)
    requires IsRun(run) && i < |run.events| && Closes(run, i, id)
    ensures var h, h' := Get(run.worlds[i], id), Get(run.worlds[i + 1], id);
            && h.source.Some? && h.source.value.retirement.Some? && MayClose(h.source.value, run.events[i].se.seen)
            && h'.source == h.source
            && h'.sourceWork == ClosingSource(h.source.value)
            && h'.log.closes == h.log.closes + {CloseOf(h.source.value)}
  {
    hide Inv, SessionsInv, TableInv, SourceNext, MayClose;
    HandoffInv(run, i, id);
    assert StepOf(run, i);
    LookCloses(id, Get(run.worlds[i], id), run.events[i].se);
  }

  /** Every call that closes a source, the first one and each repetition, is for the manifest's own source session, and
      at that very moment both devices hold the same proof, which the bound session itself gave earlier in the run. */
  lemma AcknowledgeBeforeRetire(run: Run, i: nat, id: string)
    requires IsRun(run) && i < |run.events| && Closes(run, i, id)
    ensures var h, h' := Get(run.worlds[i], id), Get(run.worlds[i + 1], id);
            && Proved(h) && h'.sourceWork == ClosingSource(h.source.value)
            && CloseOf(h.source.value) in h'.log.closes
            && exists k :: 0 <= k < i && IsAck(run.events[k], id, h.source.value.locator.value.session)
  {
    hide StepOf, Get, Inv, SessionsInv, TableInv, BothAccepted, ValidAck, IsAck, Closes, MayClose;
    CloseCause(run, i, id);
    var r := Get(run.worlds[i], id).source.value;
    ProofAt(run, i, id);
    LogHistory(run, i, id, r.locator.value.session);
  }

  lemma CloseStepCause(id: string, w: World, e: Event, w': World)
    requires Stepped(id, w, e, w') && Get(w', id).log.closes != Get(w, id).log.closes
    ensures e.AtSource? && e.id == id && e.se.LookAtSource?
  {
    hide Get, Later, TargetCauses, MayClose, SourceFrame;
  }

  /** Every close in the log is one earlier call, for the record as it was then. */
  lemma {:induction false} ClosesHappened(run: Run, i: nat, id: string, c: Close)
    requires IsRun(run) && i <= |run.events| && c in Get(run.worlds[i], id).log.closes
    ensures exists k :: 0 <= k < i && Closes(run, k, id) && Get(run.worlds[k], id).source.Some?
                        && c == CloseOf(Get(run.worlds[k], id).source.value)
  {
    hide WorldInv, Inv, SessionsInv, TableInv, SourceNext, Stepped, MayClose;
    assert i > 0 by { assert run.worlds[0] == Initial; }
    if c in Get(run.worlds[i - 1], id).log.closes {
      ClosesHappened(run, i - 1, id, c);
    } else {
      StepOfRun(run, i - 1, id);
      CloseStepCause(id, run.worlds[i - 1], run.events[i - 1], run.worlds[i]);
      HandoffInv(run, i - 1, id);
      assert StepOf(run, i - 1);
      LookCloses(id, Get(run.worlds[i - 1], id), run.events[i - 1].se);
      assert Closes(run, i - 1, id);
    }
  }

  lemma RetireCause(run: Run, i: nat, id: string)
    requires IsRun(run) && i < |run.events|
    requires IsRetired(Get(run.worlds[i + 1], id).source) && !IsRetired(Get(run.worlds[i], id).source)
    ensures var h := Get(run.worlds[i], id);
            && run.events[i].AtSource? && run.events[i].id == id && h.source.Some?
            && ((run.events[i].se.LookAtSource? && SawExit(h.source.value, run.events[i].se.seen))
                || (run.events[i].se.SourceClosed? && run.events[i].se.closed
                  && SawExit(h.source.value, run.events[i].se.after)))
  {
    StepOfRun(run, i, id);
    RetireStepCause(id, run.worlds[i], run.events[i], run.worlds[i + 1]);
    hide Stepped, WorldInv, SawExit, IsRetired;
  }

  lemma RetiredHasRecord(s: Option<SourceRecord>)
    ensures IsRetired(s) ==> s.Some? && s.value.retirement.Some?
  {
  }

  lemma RetireStepCause(id: string, w: World, e: Event, w': World)
    requires Stepped(id, w, e, w') && IsRetired(Get(w', id).source) && !IsRetired(Get(w, id).source)
    ensures var h := Get(w, id);
            && e.AtSource? && e.id == id && h.source.Some?
            && ((e.se.LookAtSource? && SawExit(h.source.value, e.se.seen))
              || (e.se.SourceClosed? && e.se.closed && SawExit(h.source.value, e.se.after)))
  {
    hide Get, Later, TargetCauses, SawExit, SourceFrame;
  }

  /** A source becomes retired only in a step that saw the exact catalog entry exited. */
  lemma RetiredAfterExit(run: Run, i: nat, id: string)
    requires IsRun(run) && i < |run.events|
    requires IsRetired(Get(run.worlds[i + 1], id).source) && !IsRetired(Get(run.worlds[i], id).source)
    ensures var h := Get(run.worlds[i], id);
            && run.events[i].AtSource? && run.events[i].id == id && h.source.Some? && Proved(Get(run.worlds[i + 1], id))
            && ((run.events[i].se.LookAtSource? && SawExit(h.source.value, run.events[i].se.seen))
                || (run.events[i].se.SourceClosed? && run.events[i].se.closed
                  && SawExit(h.source.value, run.events[i].se.after)))
  {
    hide Get, Proved, SawExit, IsRetired;
    RetireCause(run, i, id);
    ProofAt(run, i + 1, id);
    RetiredHasRecord(Get(run.worlds[i + 1], id).source);
  }

  // ---- one continuation per handoff ------------------------------------------------------------------------------

  /** At most one locator is ever bound, in the whole run, and everything a launch did hangs on it. */
  lemma OneContinuation(run: Run, i: nat, id: string)
    requires IsRun(run) && i <= |run.events|
    ensures var h := Get(run.worlds[i], id);
            && (forall a <- h.log.bound, b <- h.log.bound :: a == b)
            && (forall sid <- h.log.prompted :: exists l <- h.log.bound :: l.session == sid)
            && (forall sid <- h.log.ackedBy :: exists l <- h.log.bound :: l.session == sid)
            && (h.target.Some? && h.target.value.locator.Some? ==> h.target.value.locator.value in h.log.bound)
  {
    HandoffInv(run, i, id);
    var h := Get(run.worlds[i], id);
    if h.target.Some? && h.target.value.locator.Some? { RejectedUnbound(id, h); }
    hide RecordsInv, HandsInv, CallsInv, RepliesInv, PhaseInv, AgreementInv, SessionsInv, TableInv, Get;
    forall sid <- h.log.ackedBy
      ensures exists l <- h.log.bound :: l.session == sid
    {
      assert h.target.value.locator.value in h.log.bound && h.target.value.locator.value.session == sid;
    }
  }

  lemma RejectedUnbound(id: string, h: Handoff)
    requires Inv(id, h) && h.target.Some? && h.target.value.locator.Some?
    ensures !h.target.value.state.Rejected?
  {
    hide HandsInv, CallsInv, RepliesInv, PhaseInv, AgreementInv, HistoryInv, ValidSource;
  }

  /** A bound locator is never replaced; only a terminal rejection takes it off the record. */
  lemma NeverRebound(run: Run, i: nat, j: nat, id: string)
    requires IsRun(run) && i <= j <= |run.events|
    requires Get(run.worlds[i], id).target.Some? && Get(run.worlds[i], id).target.value.locator.Some?
    ensures var h, h' := Get(run.worlds[i], id), Get(run.worlds[j], id);
            h'.target.Some? && (h'.target.value.locator == h.target.value.locator || h'.target.value.state.Rejected?)
  {
    RunLater(run, i, j, id);
  }

  /** Step k sends the launch prompt to this live session, which the stored launching record names. */
  ghost predicate IsPrompt(run: Run, k: nat, id: string, sid: string)
    requires IsRun(run) && k < |run.events|
  {
    var e := run.events[k];
    && e.AtTarget? && e.id == id && e.te.SendPrompt?
    && NamesSession(Get(run.worlds[k], id), sid) && sid in run.worlds[k].table.live
  }

  /** And its delivery is confirmed, for this marker. */
  ghost predicate IsDelivery(run: Run, k: nat, id: string, sid: string, marker: LaunchMarker)
    requires IsRun(run) && k < |run.events|
  {
    IsPrompt(run, k, id, sid) && run.events[k].te.ok && MarkerOf(Get(run.worlds[k], id).target.value) == marker
  }

  lemma EndTargetLog(h: Handoff, r: TargetRecord, call: Option<nat>, launch: bool, v: TargetVerdict, now: Time)
    requires h.target.Some?
    ensures EndTarget(h, r, call, launch, v, now).log == h.log
  {
    hide TargetTransition, TargetTransitionFor, StatusOf;
  }

  /** What sending a prompt does: the one session prompted is the live one that the stored record names, and a confirmed
      delivery leaves the evidence there. */
  lemma SendIs(id: string, h: Handoff, t: Table, e: TargetEvent)
    requires Inv(id, h) && e.SendPrompt? && TargetNext(h, t, e).Some?
    ensures var (h', t') := TargetNext(h, t, e).value;
            exists sid <- t.live ::
              && NamesSession(h, sid) && h'.log.prompted == h.log.prompted + {sid} && sid in t'.live
              && (e.ok ==>
                    && t'.live[sid].command == EvidenceOf(h.target.value)
                    && t'.delivered == t.delivered + {(sid, MarkerOf(h.target.value))})
              && (!e.ok ==> t'.delivered == t.delivered)
  {
    assert h.targetWork.Prompting? ==>
        h.target == Some(h.targetWork.record) && h.targetWork.record.state.Launching?;
    hide Inv, EndTarget;
    var r, sid := h.targetWork.record, h.targetWork.record.locator.value.session;
    assert NamesSession(h, sid);
    EndTargetLog(Prompted(h, sid), r, h.targetWork.call, true, if e.cancelled then Interrupted else UnconfirmedVerdict,
      e.now);
  }

  /** Every launch prompt, the first one and each repetition, goes only to a live session that the stored record already
      names. */
  lemma PromptsOnlyTheBound(run: Run, i: nat, id: string)
    requires IsRun(run) && i < |run.events|
    requires run.events[i].AtTarget? && run.events[i].id == id && run.events[i].te.SendPrompt?
    ensures var h, h', t, t' := Get(run.worlds[i], id), Get(run.worlds[i + 1], id), run.worlds[i].table,
                run.worlds[i + 1].table;
            exists sid <- t.live ::
              && IsPrompt(run, i, id, sid) && h'.log.prompted == h.log.prompted + {sid} && sid in t'.live
              && (run.events[i].te.ok ==>
                    && t'.live[sid].command == EvidenceOf(h.target.value)
                    && t'.delivered == t.delivered + {(sid, MarkerOf(h.target.value))})
              && (!run.events[i].te.ok ==> t'.delivered == t.delivered)
  {
    hide Inv, SessionsInv, TableInv, TargetNext, NamesSession, EvidenceOf;
    HandoffInv(run, i, id);
    assert StepOf(run, i);
    SendIs(id, Get(run.worlds[i], id), run.worlds[i].table, run.events[i].te);
  }

  /** The bound session carries this very handoff's launch evidence, and the inventory on disk does too. */
  ghost predicate Evidenced(h: Handoff, t: Table) {
    && h.target.Some? && h.target.value.locator.Some? && h.target.value.locator.value.session in t.live
    && t.live[h.target.value.locator.value.session].command == EvidenceOf(h.target.value)
  }

  lemma PromptStepCause(id: string, w: World, e: Event, w': World, sid: string)
    requires Stepped(id, w, e, w') && sid in Get(w', id).log.prompted && sid !in Get(w, id).log.prompted
    ensures e.AtTarget? && e.id == id && e.te.SendPrompt? && NamesSession(Get(w, id), sid) && sid in w.table.live
  {
    hide Get, Later, LaunchCause, AcceptCause, BindCause, AckCause, SourceCauses, NamesSession;
  }

  /** Every session in the log was prompted in one earlier step. */
  lemma {:induction false} PromptsHappened(run: Run, i: nat, id: string, sid: string)
    requires IsRun(run) && i <= |run.events| && sid in Get(run.worlds[i], id).log.prompted
    ensures exists k :: 0 <= k < i && IsPrompt(run, k, id, sid)
  {
    hide WorldInv, StepOf, Stepped, NamesSession;
    assert i > 0 by { assert run.worlds[0] == Initial; }
    if sid in Get(run.worlds[i - 1], id).log.prompted {
      PromptsHappened(run, i - 1, id, sid);
    } else {
      StepOfRun(run, i - 1, id);
      PromptStepCause(id, run.worlds[i - 1], run.events[i - 1], run.worlds[i], sid);
      assert IsPrompt(run, i - 1, id, sid);
    }
  }

  /** Step k binds the unbound launching record to this locator. */
  ghost predicate IsBinding(run: Run, k: nat, id: string, l: Locator)
    requires IsRun(run) && k < |run.events|
  {
    var h, h', e := Get(run.worlds[k], id), Get(run.worlds[k + 1], id), run.events[k];
    && e.AtTarget? && e.id == id && e.te.BindSession?
    && h.target.Some? && h.target.value.state.Launching? && h.target.value.locator.None?
    && h'.target.Some? && h'.target.value.locator == Some(l)
  }

  lemma BindStepCause(id: string, w: World, e: Event, w': World, l: Locator)
    requires Stepped(id, w, e, w') && l in Get(w', id).log.bound && l !in Get(w, id).log.bound
    ensures var h, h' := Get(w, id), Get(w', id);
            && e.AtTarget? && e.id == id && e.te.BindSession?
            && h.target.Some? && h.target.value.state.Launching? && h.target.value.locator.None?
            && h'.target.Some? && h'.target.value.locator == Some(l)
  {
    hide Get, Later, LaunchCause, AcceptCause, PromptCause, AckCause, SourceCauses;
  }

  /** Every locator in the log was bound in one earlier step. */
  lemma {:induction false} BindingsHappened(run: Run, i: nat, id: string, l: Locator)
    requires IsRun(run) && i <= |run.events| && l in Get(run.worlds[i], id).log.bound
    ensures exists k :: 0 <= k < i && IsBinding(run, k, id, l)
  {
    hide WorldInv, StepOf, Stepped;
    assert i > 0 by { assert run.worlds[0] == Initial; }
    if l in Get(run.worlds[i - 1], id).log.bound {
      BindingsHappened(run, i - 1, id, l);
    } else {
      StepOfRun(run, i - 1, id);
      BindStepCause(id, run.worlds[i - 1], run.events[i - 1], run.worlds[i], l);
      assert IsBinding(run, i - 1, id, l);
    }
  }

  lemma DeliverStepCause(w: World, e: Event, w': World, sid: string, marker: LaunchMarker)
    requires Next(w, e) == Some(w') && (sid, marker) in w'.table.delivered && (sid, marker) !in w.table.delivered
    requires e.AtTarget? ==> Stepped(e.id, w, e, w')
    ensures e.AtTarget? && e.te.SendPrompt? && e.te.ok && NamesSession(Get(w, e.id), sid) && sid in w.table.live
    ensures MarkerOf(Get(w, e.id).target.value) == marker
  {
    if e.AtTarget? {
      hide Next, Get, Later, LaunchCause, AcceptCause, BindCause, AckCause, MarkerOf;
    } else {
      hide Get, SourceNext, TargetNext, Stepped, Durable;
    }
  }

  /** Every delivery on record was confirmed in one earlier step, for the handoff whose marker it is. */
  lemma {:induction false} DeliveriesHappened(run: Run, i: nat, sid: string, marker: LaunchMarker)
    requires IsRun(run) && i <= |run.events| && (sid, marker) in run.worlds[i].table.delivered
    ensures exists k, id :: 0 <= k < i && IsDelivery(run, k, id, sid, marker) && marker.LaunchMarker? && marker.id == id
  {
    hide WorldInv, Inv, SessionsInv, TableInv, Stepped, Next, MarkerOf;
    assert i > 0 by { assert run.worlds[0] == Initial; }
    if (sid, marker) in run.worlds[i - 1].table.delivered {
      DeliveriesHappened(run, i - 1, sid, marker);
    } else {
      var e := run.events[i - 1];
      assert StepOf(run, i - 1);
      if e.AtTarget? { StepOfRun(run, i - 1, e.id); }
      DeliverStepCause(run.worlds[i - 1], e, run.worlds[i], sid, marker);
      HandoffInv(run, i - 1, e.id);
      MarkerIsOwn(e.id, Get(run.worlds[i - 1], e.id));
      assert IsDelivery(run, i - 1, e.id, sid, marker);
    }
  }

  lemma AcceptStepCause(id: string, w: World, e: Event, w': World)
    requires Stepped(id, w, e, w') && Accepted(Get(w', id)) && !Accepted(Get(w, id))
    ensures e.AtTarget? && e.id == id && e.te.AcceptLaunch? && Evidenced(Get(w, id), w.table)
        && w'.table.disk == Durable(w.table.live)
  {
    hide Get, Later, LaunchCause, PromptCause, BindCause, AckCause, SourceCauses, EvidenceOf, Durable;
  }

  lemma EvidenceWasDelivered(run: Run, i: nat, id: string)
    requires IsRun(run) && i < |run.events| && Accepted(Get(run.worlds[i + 1], id)) && !Accepted(Get(run.worlds[i], id))
    ensures var h, t := Get(run.worlds[i], id), run.worlds[i].table;
            && run.events[i].AtTarget? && run.events[i].id == id && run.events[i].te.AcceptLaunch?
            && Evidenced(h, t) && run.worlds[i + 1].table.disk == Durable(t.live)
            && (h.target.value.locator.value.session, MarkerOf(h.target.value)) in t.delivered
            && MarkerOf(h.target.value).LaunchMarker? && MarkerOf(h.target.value).id == id
  {
    StepOfRun(run, i, id);
    AcceptStepCause(id, run.worlds[i], run.events[i], run.worlds[i + 1]);
    HandoffInv(run, i, id);
    MarkerIsOwn(id, Get(run.worlds[i], id));
    hide Stepped, WorldInv, Inv, SessionsInv, Durable;
  }

  lemma MarkerIsOwn(id: string, h: Handoff)
    requires Inv(id, h) && h.target.Some?
    ensures MarkerOf(h.target.value).LaunchMarker? && MarkerOf(h.target.value).id == id
  {
    hide HandsInv, CallsInv, RepliesInv, PhaseInv, AgreementInv, HistoryInv, ValidFields;
  }

  /** `accepted` is entered only on the bound session's recorded evidence, which the inventory keeps; and that evidence
      was put there by a confirmed delivery of this handoff to exactly that session earlier in the run, when the stored
      record named it already. */
  lemma AcceptedOnEvidence(run: Run, i: nat, id: string)
    requires IsRun(run) && i < |run.events| && Accepted(Get(run.worlds[i + 1], id)) && !Accepted(Get(run.worlds[i], id))
    ensures var h, t := Get(run.worlds[i], id), run.worlds[i].table;
            && run.events[i].AtTarget? && run.events[i].id == id && run.events[i].te.AcceptLaunch?
            && Evidenced(h, t) && run.worlds[i + 1].table.disk == Durable(t.live)
            && exists k :: 0 <= k < i
                 && IsDelivery(run, k, id, h.target.value.locator.value.session, MarkerOf(h.target.value))
  {
    hide StepOf, Get, Accepted, MarkerOf, IsDelivery, Durable, EvidenceOf;
    EvidenceWasDelivered(run, i, id);
    var r := Get(run.worlds[i], id).target.value;
    DeliveriesHappened(run, i, r.locator.value.session, MarkerOf(r));
  }

  /** Two handoffs never share a continuation. */
  lemma ContinuationsAreDistinct(run: Run, i: nat, one: string, two: string, a: Locator, b: Locator)
    requires IsRun(run) && i <= |run.events| && a in Get(run.worlds[i], one).log.bound
        && b in Get(run.worlds[i], two).log.bound
    ensures a.session == b.session ==> one == two && a == b
  {
    HandoffInv(run, i, one);
    HandoffInv(run, i, two);
    if one == two { OneContinuation(run, i, one); }
    hide Inv, TableInv, WorkInv, Get;
  }

  // ---- phases ------------------------------------------------------------------------------------------------------

  /** How far the two records may be apart. */
  lemma PhasesCohere(run: Run, i: nat, id: string)
    requires IsRun(run) && i <= |run.events|
    ensures var h := Get(run.worlds[i], id);
            && (h.target.Some? ==> h.source.Some?)
            && (h.source.Some? && (h.source.value.state.RemotePrepared? || SourceInLaunch(h.source.value.state)) ==>
                  h.target.Some? && ReachedPrepared(h.target.value.state))
            && (Launched(h) ==> !BeforeLaunch(h.source.value.state))
  {
    HandoffInv(run, i, id);
    hide HandsInv, CallsInv, RepliesInv, AgreementInv, HistoryInv, SessionsInv, TableInv, ValidSource, ValidTarget;
  }

  /** Once the target is in a launch, the source never goes back to preparing. */
  lemma NoWayBack(run: Run, i: nat, j: nat, id: string)
    requires IsRun(run) && i <= j <= |run.events| && Launched(Get(run.worlds[i], id))
    ensures var h := Get(run.worlds[j], id); h.source.Some? && !BeforeLaunch(h.source.value.state)
  {
    HandoffInv(run, i, id);
    HandoffInv(run, j, id);
    RunLater(run, i, j, id);
    hide SessionsInv, TableInv, HandsInv, CallsInv, RepliesInv, AgreementInv, HistoryInv, ValidSource, ValidTarget;
  }

  /** An answer to the prepare call in progress is about preparation. */
  lemma PrepareAnswerIsAtHome(id: string, h: Handoff, call: nat, st: Status)
    requires Inv(id, h) && h.sourceWork.PreparingCall? && (call, st) in h.net.prepareReplies
    ensures st.id == h.sourceWork.record.manifest.id && st.digest == h.sourceWork.record.digest
        && !TargetInLaunch(st.state)
  {
    hide CallsInv, AgreementInv, HistoryInv, ValidFields;
  }

  /** An answer to the launch call in progress is about the launch, and an acceptance names an acceptable session. */
  lemma LaunchAnswerIsAtHome(id: string, h: Handoff, call: nat, st: Status)
    requires Inv(id, h) && h.sourceWork.LaunchingCall? && (call, st) in h.net.launchReplies
    ensures st.id == h.sourceWork.record.manifest.id && st.digest == h.sourceWork.record.digest
    ensures TargetInLaunch(st.state) || st.state.Rejected?
    ensures st.state.TargetAccepted? ==>
        AcceptableLocator(h.sourceWork.record, st.locator) && ValidLocator(st.locator.value)
  {
    assert h.target.Some? && ValidTarget(h.target.value) && h.target.value.manifest == h.sourceWork.record.manifest by {
      hide CallsInv, AgreementInv, HistoryInv, ValidFields;
    }
    if st.state.TargetAccepted? {
      assert h.target.value.state.TargetAccepted? && h.target.value.locator == st.locator;
      assert st.locator.Some? && st.locator.value.scope ==
        RootScope by { hide ValidAck, ValidRetirement, ValidManifest; }
      assert ValidLocator(st.locator.value) && st.locator.value.device == h.target.value.manifest.target.device;
      hide Inv;
    }
    hide CallsInv, AgreementInv, HistoryInv, ValidFields;
  }

  /** Between honest peers the branches for a foreign phase, identity or locator are dead code. */
  lemma NoForeignAnswer(run: Run, i: nat, id: string, call: nat, st: Status)
    requires IsRun(run) && i <= |run.events|
    ensures var h := Get(run.worlds[i], id);
            && (h.sourceWork.PreparingCall? && (call, st) in h.net.prepareReplies ==>
                  PrepareVerdict(h.sourceWork.record, Answer(st)) !in {Fail(Conflict, ConflictingIdentity),
                    Fail(Conflict, OutsidePreparation)})
            && (h.sourceWork.LaunchingCall? && (call, st) in h.net.launchReplies ==>
                  LaunchVerdict(h.sourceWork.record, Answer(st)) !in
                    {Fail(Conflict, ConflictingIdentity), Fail(Conflict, OutsideLaunch),
                      Fail(Conflict, AcceptedWithoutLocator)})
  {
    HandoffInv(run, i, id);
    var h := Get(run.worlds[i], id);
    hide SessionsInv, TableInv, Inv, Get, AcceptableLocator;
    if h.sourceWork.PreparingCall? && (call, st) in h.net.prepareReplies { PrepareAnswerIsAtHome(id, h, call, st); }
    if h.sourceWork.LaunchingCall? && (call, st) in h.net.launchReplies { LaunchAnswerIsAtHome(id, h, call, st); }
    hide RemoteCode;
  }

  /** A launch call, however late it arrives, finds a record of its own digest that has been prepared: the "not
      prepared for launch" answer is dead code too. */
  lemma LaunchFindsPrepared(run: Run, i: nat, id: string, call: nat, digest: Digest, now: Time)
    requires IsRun(run) && i <= |run.events| && (call, digest) in Get(run.worlds[i], id).net.launchCalls
    ensures var h := Get(run.worlds[i], id);
            && h.target.Some? && h.target.value.digest == digest && ReachedPrepared(h.target.value.state)
            && LaunchRequestPlan(h.target.value, digest, h.target.value.manifest.source.device,
              h.target.value.manifest.target.device, now)
               !in {Done(Error(BadRequest)), Done(Error(Denied))}
  {
    HandoffInv(run, i, id);
    var h := Get(run.worlds[i], id);
    assert h.target.Some? && ReachedPrepared(h.target.value.state) && h.target.value.digest == digest
      && ValidManifest(h.target.value.manifest) by {
      hide HandsInv, RepliesInv, AgreementInv, HistoryInv, SessionsInv, TableInv, ValidFields, ValidID, Get;
    }
    hide Inv, SessionsInv, TableInv, Get, StatusOf;
    hide ValidSource, TargetTransition;
  }
}
