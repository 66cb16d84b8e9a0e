/**
 Runs that exist. Every valid handoff without artifacts can be carried through to agreement;
 with one fatal call error instead of the last answer its source gives up, before or after the
 target accepts.
 */
module WitnessRuns {
  import opened Wrappers
  import opened Records
  import opened RecordStore
  import opened Sessions
  import opened Outbox
  import opened Application
  import opened HandoffWorld
  import opened WorldInvariant
  import opened StepFacts
  import opened WorldTheorems
  import opened HandoffTheorems

  // ---- reachable worlds ----------------------------------------------------------------------------------

  /** A look of the retirement code at the source session. */
  predicate Looks(e: Event) { e.AtSource? && (e.se.AskRetire? || e.se.LookAtSource?) }

  /** Some run ends here, in which nobody has looked yet. */
  ghost predicate Reachable(w: World) { exists run :: EndsIn(run, w) }

  ghost predicate EndsIn(run: Run, w: World) {
    IsRun(run) && run.worlds[|run.events|] == w && forall i :: 0 <= i < |run.events| ==> !Looks(run.events[i])
  }

  /** The run with one more event. */
  function Longer(run: Run, e: Event): Run
    requires IsRun(run) && Next(run.worlds[|run.events|], e).Some?
  {
    Run(run.events + [e], run.worlds + [Next(run.worlds[|run.events|], e).value])
  }

  lemma LongerIsRun(run: Run, e: Event)
    requires IsRun(run) && Next(run.worlds[|run.events|], e).Some?
    ensures IsRun(Longer(run, e))
  {
    hide Next;
    var longer := Longer(run, e);
    forall i | 0 <= i < |longer.events|
      ensures StepOf(longer, i)
    {
      if i < |run.events| { assert StepOf(run, i); }
    }
  }

  lemma ReachNext(w: World, e: Event)
    requires Reachable(w) && Next(w, e).Some? && !Looks(e)
    ensures Reachable(Next(w, e).value)
  {
    hide Next, StepOf, Looks;
    var run :| EndsIn(run, w);
    LongerIsRun(run, e);
    assert EndsIn(Longer(run, e), Next(w, e).value);
  }

  lemma ReachInitial()
    ensures Reachable(Initial)
  {
    assert EndsIn(Run([], [Initial]), Initial);
  }

  /** A step of the source alone. */
  lemma SourceMoves(w: World, id: string, e: SourceEvent) returns (w': World)
    requires Reachable(w) && SourceNext(Get(w, id), e).Some? && (e.Queue? ==> e.m.id == id) && !e.AskRetire?
        && !e.LookAtSource?
    ensures Reachable(w') && Get(w', id) == SourceNext(Get(w, id), e).value && w'.table == w.table
  {
    hide SourceNext, Reachable;
    ReachNext(w, AtSource(id, e));
    w' := Next(w, AtSource(id, e)).value;
  }

  lemma TargetMoves(w: World, id: string, e: TargetEvent) returns (w': World)
    requires Reachable(w) && TargetNext(Get(w, id), w.table, e).Some?
    ensures Reachable(w') && (Get(w', id), w'.table) == TargetNext(Get(w, id), w.table, e).value
  {
    hide TargetNext, Reachable;
    ReachNext(w, AtTarget(id, e));
    w' := Next(w, AtTarget(id, e)).value;
  }

  // ---- the records on the way ---------------------------------------------------------------------------------

  function S(m: Manifest, state: SourceState, attempts: nat, revision: nat, locator: Option<Locator>): SourceRecord {
    SourceRecord(m, Digest(m), state, attempts, None, None, locator, None, None, revision, 1)
  }

  function T(m: Manifest, state: TargetState, attempts: nat, revision: nat, locator: Option<Locator>): TargetRecord {
    TargetRecord(m, Digest(m), state, attempts, None, None, locator, None, revision, 1)
  }

  function L(m: Manifest, session: string): Locator { Locator(m.target.device, RootScope, session) }

  predicate Deliverable(m: Manifest, session: string) { ValidManifest(m) && m.artifacts == 0 && ValidID(session) }

  lemma OnTheWay(m: Manifest, session: string)
    requires Deliverable(m, session)
    ensures ValidID(m.target.device) && m.target.device != "" && m.source.device != ""
    ensures forall st: SourceState, a, rev ::
              0 < rev <= 9 && !SourceRetryState(st) && !st.SourceFailed? && !st.SourceAccepted? ==>
                ValidSource(S(m, st, a, rev, None))
    ensures forall a, rev :: 0 < rev <= 9 ==> ValidSource(S(m, SourceAccepted, a, rev, Some(L(m, session))))
    ensures forall st: TargetState, a, rev ::
              0 < rev <= 9 && !TargetRetryState(st) && !st.Rejected? && !st.TargetAccepted? ==>
                ValidTarget(T(m, st, a, rev, None))
    ensures forall st: TargetState, a, rev :: 0 < rev <= 9 && (st.Launching? || st.TargetAccepted?) ==>
        ValidTarget(T(m, st, a, rev, Some(L(m, session))))
  {
    hide ValidRetirement, ValidAck;
  }

  function Checks(m: Manifest): PrepareInputs { PrepareInputs(m.target.device, true, true, true, Passed, Passed, 9) }

  function LaunchChecks(m: Manifest): LaunchInputs {
    LaunchInputs(m.target.device, true, true, true, true, Passed, Passed, "", Some(""), true, 9)
  }

  function Who(m: Manifest): Identity {
    Identity(HandoffName(m.id, Digest(m)), LaunchOwner(m.id), true, m.target.profile, "", "")
  }

  // ---- preparation ----------------------------------------------------------------------------------------------

  ghost predicate QueuedAt(h: Handoff, m: Manifest) {
    h.source == Some(S(m, Queued, 0, 1, None)) && h.target.None? && h.sourceWork.SourceIdle? && h.targetWork.TargetIdle?
      && h.net.nextCall == 0
  }

  ghost predicate PreparingAt(h: Handoff, m: Manifest) {
    && h.source == Some(S(m, PreparingRemote, 1, 2, None)) && h.sourceWork == PreparingCall(0, h.source.value)
    && h.target.None? && h.targetWork.TargetIdle? && (0, m) in h.net.prepareCalls && h.net.nextCall == 1
  }

  ghost predicate CheckingAt(h: Handoff, m: Manifest) {
    && h.source == Some(S(m, PreparingRemote, 1, 2, None)) && h.sourceWork == PreparingCall(0, h.source.value)
      && h.net.nextCall == 1
    && h.target == Some(T(m, Validating, 1, 2, None)) && h.targetWork == CheckingPreparation(h.target.value, Some(0))
  }

  ghost predicate AnsweredAt(h: Handoff, m: Manifest) {
    && h.source == Some(S(m, PreparingRemote, 1, 2, None)) && h.sourceWork == PreparingCall(0, h.source.value)
      && h.net.nextCall == 1
    && h.target == Some(T(m, Prepared, 1, 3, None)) && h.targetWork.TargetIdle?
    && (0, StatusOf(T(m, Prepared, 1, 3, None))) in h.net.prepareReplies
  }

  ghost predicate PreparedAt(h: Handoff, m: Manifest) {
    && h.source == Some(S(m, RemotePrepared, 1, 3, None)) && h.sourceWork.SourceIdle? && h.net.nextCall == 1
    && h.target == Some(T(m, Prepared, 1, 3, None)) && h.targetWork.TargetIdle?
  }

  lemma QueueRuns(h: Handoff, m: Manifest, session: string)
    requires Deliverable(m, session) && h == Blank
    ensures SourceNext(h, Queue(m, 1)).Some? && QueuedAt(SourceNext(h, Queue(m, 1)).value, m)
  {
    OnTheWay(m, session);
    hide ValidManifest, ValidID, ValidFields;
  }

  lemma PrepareRuns(h: Handoff, m: Manifest, session: string)
    requires Deliverable(m, session) && QueuedAt(h, m)
    ensures SourceNext(h, StartPrepare(true, 1, 1)).Some?
        && PreparingAt(SourceNext(h, StartPrepare(true, 1, 1)).value, m)
  {
    OnTheWay(m, session);
    assert SourceTransition(h.source.value, 1, PreparingRemote, Transition(1, None, None, None), 1) ==
      Ok(S(m, PreparingRemote, 1, 2, None)) by {
      hide ValidSource;
      assert ValidSource(S(m, PreparingRemote, 1, 2, None));
    }
    hide ValidSource, SourceTransition;
  }

  lemma CheckRuns(h: Handoff, t: Table, m: Manifest, session: string)
    requires Deliverable(m, session) && PreparingAt(h, m)
    ensures var next := TargetNext(h, t, DeliverPrepare(0, m, m.source.device, Checks(m), 1, 1));
            next.Some? && CheckingAt(next.value.0, m) && next.value.1 == t
  {
    OnTheWay(m, session);
    assert ValidTarget(T(m, Received, 0, 1, None)) && ValidTarget(T(m, Validating, 1, 2, None));
    assert TargetTransition(T(m, Received, 0, 1, None), 1, Validating, Transition(1, None, None, None), 1) ==
      Ok(T(m, Validating, 1, 2, None)) by {
      hide ValidTarget;
    }
    hide ValidTarget, TargetTransition, ValidManifest, ValidID;
  }

  lemma AnswerRuns(h: Handoff, t: Table, m: Manifest, session: string)
    requires Deliverable(m, session) && CheckingAt(h, m)
    ensures var next := TargetNext(h, t, EndPreparation(Checks(m), 1));
        next.Some? && AnsweredAt(next.value.0, m) && next.value.1 == t
  {
    OnTheWay(m, session);
    assert ValidTarget(T(m, Prepared, 1, 3, None));
    assert TargetTransition(T(m, Validating, 1, 2, None), 2, Prepared, Transition(1, None, None, None), 1) ==
      Ok(T(m, Prepared, 1, 3, None)) by {
      hide ValidTarget;
    }
    hide ValidTarget, TargetTransition, ValidManifest, ValidID;
  }

  lemma PreparedRuns(h: Handoff, m: Manifest, session: string)
    requires Deliverable(m, session) && AnsweredAt(h, m)
    ensures var next := SourceNext(h, EndPrepare(Answer(StatusOf(T(m, Prepared, 1, 3, None))), 1));
        next.Some? && PreparedAt(next.value, m)
  {
    OnTheWay(m, session);
    assert ValidSource(S(m, RemotePrepared, 1, 3, None));
    assert SourceTransition(h.source.value, 2, RemotePrepared, Transition(1, None, None, None), 1) ==
      Ok(S(m, RemotePrepared, 1, 3, None)) by {
      hide ValidSource;
    }
    hide ValidSource, SourceTransition;
  }

  // ---- launch ---------------------------------------------------------------------------------------------------

  ghost predicate SourceWaits(h: Handoff, m: Manifest) {
    h.source == Some(S(m, LaunchingRemote, 1, 4, None)) && h.sourceWork == LaunchingCall(1, h.source.value)
  }

  ghost predicate LaunchingAt(h: Handoff, m: Manifest) {
    SourceWaits(h, m) && h.target == Some(T(m, Prepared, 1, 3, None)) && h.targetWork.TargetIdle?
      && (1, Digest(m)) in h.net.launchCalls
  }

  ghost predicate LaunchCheckAt(h: Handoff, m: Manifest) {
    SourceWaits(h, m) && h.target == Some(T(m, Launching, 1, 4, None))
      && h.targetWork == CheckingLaunch(h.target.value, Some(1))
  }

  ghost predicate ChoosingAt(h: Handoff, m: Manifest) {
    SourceWaits(h, m) && h.target == Some(T(m, Launching, 1, 4, None))
      && h.targetWork == Choosing(h.target.value, Some(1), Who(m))
  }

  ghost predicate CreatedAt(h: Handoff, t: Table, m: Manifest, session: string) {
    && SourceWaits(h, m) && h.target == Some(T(m, Launching, 1, 4, None))
    && h.targetWork == Created(h.target.value, Some(1), Who(m), Session(session, Who(m), Starting, NoCommand))
    && session in t.live && t.live[session] == h.targetWork.session
  }

  ghost predicate BoundAt(h: Handoff, m: Manifest, session: string) {
    SourceWaits(h, m) && h.target == Some(T(m, Launching, 1, 5, Some(L(m, session))))
  }

  ghost predicate WatchingAt(h: Handoff, t: Table, m: Manifest, session: string, phase: Phase) {
    && BoundAt(h, m, session) && h.targetWork == Watching(h.target.value, Some(1), Who(m))
    && session in t.live && t.live[session] == Session(session, Who(m), phase, NoCommand)
  }

  ghost predicate PromptingAt(h: Handoff, t: Table, m: Manifest, session: string) {
    BoundAt(h, m, session) && h.targetWork == Prompting(h.target.value, Some(1), Who(m)) && session in t.live
  }

  /** The target may accept now, whatever its source does. */
  ghost predicate ConfirmedAt(h: Handoff, t: Table, m: Manifest, session: string) {
    && h.target == Some(T(m, Launching, 1, 5, Some(L(m, session))))
      && h.targetWork == Confirmed(h.target.value, Some(1), Who(m))
    && session in t.live && t.live[session].command == EvidenceOf(h.target.value)
  }

  ghost predicate AcceptedAt(h: Handoff, m: Manifest, session: string) {
    && h.target == Some(T(m, TargetAccepted, 1, 6, Some(L(m, session)))) && h.targetWork.TargetIdle?
    && (1, StatusOf(h.target.value)) in h.net.launchReplies
  }

  lemma LaunchRuns(h: Handoff, m: Manifest, session: string)
    requires Deliverable(m, session) && PreparedAt(h, m)
    ensures SourceNext(h, OperatorLaunch(1, 1)).Some? && LaunchingAt(SourceNext(h, OperatorLaunch(1, 1)).value, m)
  {
    OnTheWay(m, session);
    assert ValidSource(S(m, LaunchingRemote, 1, 4, None));
    assert SourceTransition(h.source.value, 3, LaunchingRemote, Transition(1, None, None, None), 1) ==
      Ok(S(m, LaunchingRemote, 1, 4, None)) by {
      hide ValidSource;
    }
    hide ValidSource, SourceTransition;
  }

  lemma LaunchCheckRuns(h: Handoff, t: Table, m: Manifest, session: string)
    requires Deliverable(m, session) && LaunchingAt(h, m)
    ensures var next := TargetNext(h, t, DeliverLaunch(1, Digest(m), m.source.device, m.target.device, 1));
            next.Some? && LaunchCheckAt(next.value.0, m) && next.value.1 == t
  {
    OnTheWay(m, session);
    assert ValidTarget(T(m, Launching, 1, 4, None));
    assert TargetTransition(T(m, Prepared, 1, 3, None), 3, Launching, Transition(1, None, None, None), 1) ==
      Ok(T(m, Launching, 1, 4, None)) by {
      hide ValidTarget;
    }
    hide ValidTarget, TargetTransition, ValidManifest, ValidID;
  }

  lemma ChooseRuns(h: Handoff, t: Table, m: Manifest, session: string)
    requires Deliverable(m, session) && LaunchCheckAt(h, m)
    ensures var next := TargetNext(h, t, CheckLaunch(LaunchChecks(m), 1));
        next.Some? && ChoosingAt(next.value.0, m) && next.value.1 == t
  {
    OnTheWay(m, session);
    hide ValidManifest, ValidID, ValidTarget, ValidSource;
  }

  lemma CreateRuns(h: Handoff, t: Table, m: Manifest, session: string)
    requires Deliverable(m, session) && ChoosingAt(h, m) && t == Initial.table
    ensures var next := TargetNext(h, t, ChooseSession(Some(Session(session, Who(m), Starting, NoCommand)), false, 1));
            next.Some? && CreatedAt(next.value.0, next.value.1, m, session)
  {
    hide ValidManifest, ValidID, ValidTarget, ValidSource;
  }

  lemma BindRuns(h: Handoff, t: Table, m: Manifest, session: string)
    requires Deliverable(m, session) && CreatedAt(h, t, m, session)
    ensures var next := TargetNext(h, t, BindSession(true, true, false, 1));
            next.Some? && WatchingAt(next.value.0, next.value.1, m, session, Starting)
  {
    OnTheWay(m, session);
    var r := T(m, Launching, 1, 4, None);
    assert ValidTarget(T(m, Launching, 1, 5, Some(L(m, session))));
    assert ValidLocator(L(m, session));
    assert BindLocator(r, 4, L(m, session), 1, 1) ==
      Ok(T(m, Launching, 1, 5, Some(L(m, session)))) by { hide ValidTarget, ValidLocator; }
    hide ValidTarget, BindLocator, ValidManifest, ValidID, ValidLocator, Durable;
  }

  lemma PollRuns(h: Handoff, t: Table, m: Manifest, session: string)
    requires WatchingAt(h, t, m, session, Idle)
    ensures var next := TargetNext(h, t, PollSession(1));
        next.Some? && PromptingAt(next.value.0, next.value.1, m, session)
  {
    hide ValidTarget, ValidSource;
  }

  lemma SendRuns(h: Handoff, t: Table, m: Manifest, session: string)
    requires PromptingAt(h, t, m, session)
    ensures var next := TargetNext(h, t, SendPrompt(true, false, 1));
        next.Some? && ConfirmedAt(next.value.0, next.value.1, m, session) && SourceWaits(next.value.0, m)
  {
    hide ValidTarget, ValidSource, EndTarget;
  }

  lemma AcceptRuns(h: Handoff, t: Table, m: Manifest, session: string)
    requires Deliverable(m, session) && ConfirmedAt(h, t, m, session)
    ensures var next := TargetNext(h, t, AcceptLaunch(true, 1));
            next.Some? && AcceptedAt(next.value.0, m, session) && next.value.0.source == h.source
              && next.value.0.sourceWork == h.sourceWork
  {
    OnTheWay(m, session);
    var r := T(m, Launching, 1, 5, Some(L(m, session)));
    var r' := T(m, TargetAccepted, 1, 6, Some(L(m, session)));
    assert ValidTarget(r');
    assert TargetTransition(r, 5, TargetAccepted, Transition(1, None, None, Some(L(m, session))), 1) ==
      Ok(r') by { hide ValidTarget; }
    hide ValidTarget, TargetTransition, ValidManifest, ValidID, Durable, StatusOf;
  }

  /** The answer arrives: agreement. */
  lemma AgreeRuns(h: Handoff, m: Manifest, session: string)
    requires Deliverable(m, session) && AcceptedAt(h, m, session) && SourceWaits(h, m)
    ensures var next := SourceNext(h, EndLaunch(Answer(StatusOf(h.target.value)), 1));
        next.Some? && AgreedAt(next.value, m, session)
  {
    OnTheWay(m, session);
    var r' := S(m, SourceAccepted, 1, 5, Some(L(m, session)));
    assert ValidSource(r') && AcceptableLocator(h.source.value, Some(L(m, session)));
    assert SourceTransition(h.source.value, 4, SourceAccepted, Transition(1, None, None, Some(L(m, session))), 1) ==
      Ok(r') by { hide ValidSource; }
    hide ValidSource, SourceTransition, ValidManifest, ValidID, AcceptableLocator;
  }

  /** The call ends with a fatal error instead. */
  lemma GiveUpRuns(h: Handoff, m: Manifest, session: string)
    requires Deliverable(m, session) && SourceWaits(h, m)
    ensures var next := SourceNext(h, EndLaunch(Failed(InvalidRequestCode), 1));
            && next.Some? && InState(next.value.source, SourceFailed)
            && next.value.target == h.target && next.value.targetWork == h.targetWork
  {
    var r' := S(m, SourceFailed, 1, 5, None).(failure :=
      Some(Failure(InvalidManifest, LaunchRequestRefused, false, 1)));
    assert ValidSource(r') by { hide ValidID; }
    assert SourceTransition(h.source.value, 4, SourceFailed, Transition(1, None, r'.failure, None), 1) ==
      Ok(r') by { hide ValidSource; }
    hide ValidSource, SourceTransition, ValidManifest, ValidID;
  }

  // ---- the runs ----------------------------------------------------------------------------------------------------

  lemma PreparedRun(m: Manifest, session: string) returns (w: World)
    requires Deliverable(m, session)
    ensures Reachable(w) && PreparedAt(Get(w, m.id), m) && w.table == Initial.table
  {
    hide Reachable, Next, Deliverable, SourceNext, TargetNext, QueuedAt, PreparingAt, CheckingAt, AnsweredAt,
      PreparedAt, StatusOf, Checks;
    var id := m.id;
    ReachInitial();
    QueueRuns(Get(Initial, id), m, session);
    w := SourceMoves(Initial, id, Queue(m, 1));
    PrepareRuns(Get(w, id), m, session);
    w := SourceMoves(w, id, StartPrepare(true, 1, 1));
    CheckRuns(Get(w, id), w.table, m, session);
    w := TargetMoves(w, id, DeliverPrepare(0, m, m.source.device, Checks(m), 1, 1));
    AnswerRuns(Get(w, id), w.table, m, session);
    w := TargetMoves(w, id, EndPreparation(Checks(m), 1));
    PreparedRuns(Get(w, id), m, session);
    w := SourceMoves(w, id, EndPrepare(Answer(StatusOf(T(m, Prepared, 1, 3, None))), 1));
  }

  lemma BoundRun(m: Manifest, session: string) returns (w: World)
    requires Deliverable(m, session)
    ensures Reachable(w) && WatchingAt(Get(w, m.id), w.table, m, session, Starting)
  {
    hide Reachable, Next, Deliverable, SourceNext, TargetNext, PreparedAt, LaunchingAt, LaunchCheckAt, ChoosingAt,
      CreatedAt, WatchingAt, LaunchChecks, Who;
    var id := m.id;
    w := PreparedRun(m, session);
    LaunchRuns(Get(w, id), m, session);
    w := SourceMoves(w, id, OperatorLaunch(1, 1));
    LaunchCheckRuns(Get(w, id), w.table, m, session);
    w := TargetMoves(w, id, DeliverLaunch(1, Digest(m), m.source.device, m.target.device, 1));
    ChooseRuns(Get(w, id), w.table, m, session);
    w := TargetMoves(w, id, CheckLaunch(LaunchChecks(m), 1));
    CreateRuns(Get(w, id), w.table, m, session);
    w := TargetMoves(w, id, ChooseSession(Some(Session(session, Who(m), Starting, NoCommand)), false, 1));
    BindRuns(Get(w, id), w.table, m, session);
    w := TargetMoves(w, id, BindSession(true, true, false, 1));
  }

  lemma SessionReady(w: World, m: Manifest, session: string) returns (w': World)
    requires Reachable(w) && WatchingAt(Get(w, m.id), w.table, m, session, Starting)
    ensures Reachable(w') && WatchingAt(Get(w', m.id), w'.table, m, session, Idle)
  {
    hide Reachable;
    ReachNext(w, SessionMoves(session, Idle));
    w' := Next(w, SessionMoves(session, Idle)).value;
  }

  lemma ConfirmedRun(m: Manifest, session: string) returns (w: World)
    requires Deliverable(m, session)
    ensures Reachable(w) && ConfirmedAt(Get(w, m.id), w.table, m, session) && SourceWaits(Get(w, m.id), m)
  {
    hide Reachable, Next, Deliverable, SourceNext, TargetNext, WatchingAt, PromptingAt, ConfirmedAt, SourceWaits;
    var id := m.id;
    w := BoundRun(m, session);
    w := SessionReady(w, m, session);
    PollRuns(Get(w, id), w.table, m, session);
    w := TargetMoves(w, id, PollSession(1));
    SendRuns(Get(w, id), w.table, m, session);
    w := TargetMoves(w, id, SendPrompt(true, false, 1));
  }

  lemma AcceptedRun(m: Manifest, session: string) returns (w: World)
    requires Deliverable(m, session)
    ensures Reachable(w) && AcceptedAt(Get(w, m.id), m, session) && SourceWaits(Get(w, m.id), m)
  {
    hide Reachable, Next, Deliverable, SourceNext, TargetNext, ConfirmedAt, AcceptedAt;
    w := ConfirmedRun(m, session);
    AcceptRuns(Get(w, m.id), w.table, m, session);
    w := TargetMoves(w, m.id, AcceptLaunch(true, 1));
  }

  ghost predicate AgreedAt(h: Handoff, m: Manifest, session: string) {
    && h.source == Some(S(m, SourceAccepted, 1, 5, Some(L(m, session)))) && h.sourceWork.SourceIdle?
    && h.target == Some(T(m, TargetAccepted, 1, 6, Some(L(m, session))))
  }

  lemma AgreedRun(m: Manifest, session: string) returns (w: World)
    requires Deliverable(m, session)
    ensures Reachable(w) && AgreedAt(Get(w, m.id), m, session)
  {
    hide Reachable, SourceNext, Next, Deliverable, AgreedAt, StatusOf;
    w := AcceptedRun(m, session);
    AgreeRuns(Get(w, m.id), m, session);
    w := SourceMoves(w, m.id, EndLaunch(Answer(StatusOf(Get(w, m.id).target.value)), 1));
  }

  lemma RunTo(w: World) returns (run: Run)
    requires Reachable(w)
    ensures EndsIn(run, w)
  {
    run :| EndsIn(run, w);
  }

  /** Every valid handoff without artifacts has a run to agreement on any fresh session. */
  lemma CanAgree(m: Manifest, session: string)
    requires Deliverable(m, session)
    ensures exists run :: IsRun(run) && BothAccepted(Get(run.worlds[|run.events|], m.id), L(m, session))
  {
    var w := AgreedRun(m, session);
    hide Deliverable, Reachable, StepOf;
    var run := RunTo(w);
  }

  /** Agreement does not hold the other way: the source may give up a handoff that the target has accepted. */
  lemma CanPart(m: Manifest, session: string)
    requires Deliverable(m, session)
    ensures exists run ::
        IsRun(run) && Accepted(Get(run.worlds[|run.events|], m.id))
        && InState(Get(run.worlds[|run.events|], m.id).source, SourceFailed)
  {
    var w := AcceptedRun(m, session);
    GiveUpRuns(Get(w, m.id), m, session);
    hide SourceNext, Next, Deliverable, Reachable, StepOf, SourceWaits;
    w := SourceMoves(w, m.id, EndLaunch(Failed(InvalidRequestCode), 1));
    var run := RunTo(w);
  }

  /** Step k is the target's acceptance of a handoff that its source had given up before. */
  ghost predicate AcceptsAfterGivingUp(run: Run, k: nat, id: string) {
    && IsRun(run) && k < |run.events| && InState(Get(run.worlds[k], id).source, SourceFailed)
    && !Accepted(Get(run.worlds[k], id)) && Accepted(Get(run.worlds[k + 1], id))
  }

  /** And in the other order: the target may accept a handoff that the source has given up. */
  lemma CanPartEarly(m: Manifest, session: string)
    requires Deliverable(m, session)
    ensures exists run, k :: AcceptsAfterGivingUp(run, k, m.id)
  {
    hide SourceNext, TargetNext, Next, Deliverable, Reachable, StepOf, SourceWaits;
    var id := m.id;
    var w := ConfirmedRun(m, session);
    GiveUpRuns(Get(w, id), m, session);
    w := SourceMoves(w, id, EndLaunch(Failed(InvalidRequestCode), 1));
    var run := RunTo(w);
    AcceptsNext(run, m, session);
  }

  lemma AcceptsNext(run: Run, m: Manifest, session: string)
    requires IsRun(run)
    requires var w := run.worlds[|run.events|];
             && ConfirmedAt(Get(w, m.id), w.table, m, session) && InState(Get(w, m.id).source, SourceFailed)
               && Deliverable(m, session)
    ensures exists run, k :: AcceptsAfterGivingUp(run, k, m.id)
  {
    var e := AtTarget(m.id, AcceptLaunch(true, 1));
    var w := run.worlds[|run.events|];
    AcceptRuns(Get(w, m.id), w.table, m, session);
    hide SourceNext, TargetNext, Deliverable;
    LongerIsRun(run, e);
    hide IsRun;
    assert AcceptsAfterGivingUp(Longer(run, e), |run.events|, m.id);
  }

  /** Such a handoff exists. */
  lemma SomethingIsDeliverable() returns (m: Manifest, session: string)
    ensures Deliverable(m, session)
  {
    m, session := Manifest("h", SourceSession("s", RootScope, "a"), TargetAgent("t", "p"), 0, "", true), "b";
  }
}
