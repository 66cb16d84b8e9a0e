/**
 The target side of the protocol: internal/daemon/handoff_application.go.

 Git, histories, profiles and the session backend are inputs: every check that the code
 makes against them is one input with the outcomes the code tells apart. The context's
 cancellation is the number of the first checkpoint that finds it dead.
 */
module Application {
  import opened Wrappers
  import opened Records
  import opened RecordStore
  import opened Sessions
  import opened Outbox

  const AssetRetryDelay: nat := 15 * 1_000_000_000

  datatype CheckResult = Passed | Retryable | Deterministic

  // ---- answers --------------------------------------------------------------------------------------

  datatype RpcError = BadRequest | Denied | InternalError | Cancelled

  datatype RpcResult<T> = Reply(value: T) | Error(error: RpcError)

  /** Everything the target reveals: the locator only once the launch is accepted. */
  function StatusOf(r: TargetRecord): Status {
    Status(r.manifest.id, r.digest, r.state, r.attempts,
           if r.failure.Some? then Some(FailureView(r.failure.value.code, r.failure.value.message,
             r.failure.value.retryable)) else None,
           if r.state.TargetAccepted? then r.locator else None)
  }

  // ---- verdicts ---------------------------------------------------------------------------------------

  datatype TargetVerdict =
    | Forward(next: TargetState, locator: Option<Locator>)
    | Wait(next: TargetState, code: FailureCode, message: Message)
    | Reject(code: FailureCode, message: Message)
    | Interrupted
    | LostRecord   // the record in hand was overwritten by a failed locator write

  function TargetTransitionFor(r: TargetRecord, v: TargetVerdict, now: Time): Transition
    requires v.Forward? || v.Wait? || v.Reject?
  {
    var at := TransitionTime(now, r.updated);
    match v
    case Forward(_, locator) => Transition(at, None, None, locator)
    case Wait(_, code, message) =>
      Transition(at, Some(at + AssetRetryDelay), Some(Failure(code, message, true, at)), None)
    case Reject(code, message) => Transition(at, None, Some(Failure(code, message, false, at)), None)
  }

  function TargetVerdictState(v: TargetVerdict): TargetState
    requires v.Forward? || v.Wait? || v.Reject?
  {
    if v.Reject? then Rejected else v.next
  }

  function TargetSettle(r: TargetRecord, v: TargetVerdict, now: Time): Result<TargetRecord, StoreError>
    requires v.Forward? || v.Wait? || v.Reject?
  {
    TargetTransition(r, r.revision, TargetVerdictState(v), TargetTransitionFor(r, v, now), now)
  }

  /** The stored record and the answer after a verdict. */
  function Conclude(r: TargetRecord, v: TargetVerdict, now: Time): (TargetRecord, RpcResult<Status>) {
    match v
    case Interrupted => (r, Error(Cancelled))
    case LostRecord => (r, Error(InternalError))
    case _ =>
      var settled := TargetSettle(r, v, now);
      if settled.Ok? then (settled.value, Reply(StatusOf(settled.value))) else (r, Error(InternalError))
  }

  // ---- preparation --------------------------------------------------------------------------------------

  datatype PrepareInputs = PrepareInputs(device: string, profileOk: bool, registryOk: bool, projectOk: bool,
                                         history: CheckResult, repository: CheckResult, deadFrom: nat)

  function PrepareVerdictFor(r: TargetRecord, w: PrepareInputs): TargetVerdict {
    if w.device == "" || r.manifest.target.device != w.device then Reject(VerificationFailed, DeviceMismatch)
    else if !w.profileOk then Reject(VerificationFailed, ProfileUnavailable)
    else if w.deadFrom <= 2 then Interrupted
    else if !w.registryOk then Reject(VerificationFailed, RegistryInvalid)
    else if !w.projectOk then Reject(VerificationFailed, ProjectUnregistered)
    else if w.deadFrom <= 3 then Interrupted
    else match w.history
      case Retryable => Wait(WaitingAssets, MissingAsset, HistoryMissing)
      case Deterministic => Reject(InvalidManifest, HistoryInvalid)
      case Passed =>
        if w.deadFrom <= 4 then Interrupted
        else match w.repository
          case Retryable => Wait(WaitingAssets, MissingAsset, RepositoryMissing)
          case Deterministic => Reject(VerificationFailed, RepositoryMismatch)
          case Passed => Forward(Prepared, None)
  }

  /** Before the checks: answer at once, or work on this stored record. */
  datatype TargetPlan = Done(result: RpcResult<Status>) | RejectFirst(record: TargetRecord) | Work(record: TargetRecord)

  function EnterTarget(r: TargetRecord, next: TargetState, now: Time): TargetPlan {
    var moved := TargetTransition(r, r.revision, next, Transition(TransitionTime(now, r.updated), None, None, None),
      now);
    if moved.Ok? then Work(moved.value) else Done(Error(InternalError))
  }

  function ResumeTargetPlan(r: TargetRecord, deadFrom: nat, now: Time): TargetPlan {
    if deadFrom <= 1 then Done(Error(Cancelled))
    else if (r.state.Received? || r.state.Validating? || r.state.WaitingAssets?) && r.manifest.artifacts != 0 then
      RejectFirst(r)
    else if r.state.Received? || r.state.WaitingAssets? then EnterTarget(r, Validating, now)
    else if r.state.Validating? then Work(r)
    else Done(Reply(StatusOf(r)))
  }

  const ArtifactsVerdict: TargetVerdict := Reject(InvalidManifest, ArtifactsUnsupported)

  function AfterResumeTarget(r: TargetRecord, w: PrepareInputs, begin: Time, end: Time): (TargetRecord,
      RpcResult<Status>) {
    match ResumeTargetPlan(r, w.deadFrom, begin)
    case Done(result) => (r, result)
    case RejectFirst(r') => Conclude(r', ArtifactsVerdict, end)
    case Work(r') => Conclude(r', PrepareVerdictFor(r', w), end)
  }

  /** The checks of the prepare request itself, before any record is touched. */
  function PrepareGuard(m: Manifest, peer: string, w: PrepareInputs): Option<RpcError> {
    if !ValidManifest(m) then Some(BadRequest)
    else if peer == "" || peer != m.source.device then Some(Denied)
    else if w.device == "" || m.target.device != w.device then Some(BadRequest)
    else if m.artifacts != 0 then Some(BadRequest)
    else if w.deadFrom <= 0 then Some(Cancelled)
    else None
  }

  // ---- launch -----------------------------------------------------------------------------------------------

  datatype LaunchInputs = LaunchInputs(device: string, profileOk: bool, runtimeOk: bool, registryOk: bool,
      projectOk: bool,
                                       history: CheckResult, repository: CheckResult, worktree: string,
                                       instructions: Option<string>, rendezvousOk: bool, deadFrom: nat)

  /** The launch request's own checks and the step into `launching`. */
  function LaunchRequestPlan(r: TargetRecord, digest: Digest, peer: string, device: string, now: Time): TargetPlan {
    if peer == "" || r.manifest.source.device != peer then Done(Error(Denied))
    else if device == "" || r.manifest.target.device != device then Done(Error(BadRequest))
    else if digest != r.digest then Done(Error(BadRequest))
    else match r.state
      case Prepared => EnterTarget(r, Launching, now)
      case LaunchWaitingAssets => EnterTarget(r, Launching, now)
      case Launching => Work(r)
      case TargetAccepted => Done(Reply(StatusOf(r)))
      case Rejected => Done(Reply(StatusOf(r)))
      case _ => Done(Error(BadRequest))
  }

  /** What recovery makes of a record: only an already authorized launch goes on. */
  function ResumeLaunchPlan(r: TargetRecord, now: Time): TargetPlan {
    if r.state.LaunchWaitingAssets? then EnterTarget(r, Launching, now)
    else if r.state.Launching? then Work(r)
    else Done(Reply(StatusOf(r)))
  }

  /** The revalidation before any session is touched; None means go on. */
  function LaunchCheck(r: TargetRecord, w: LaunchInputs): Option<TargetVerdict> {
    if w.deadFrom <= 1 then Some(Interrupted)
    else if w.device == "" || r.manifest.target.device != w.device then Some(Reject(VerificationFailed, DeviceMismatch))
    else if r.manifest.artifacts != 0 then Some(ArtifactsVerdict)
    else if !w.profileOk then Some(Reject(VerificationFailed, ProfileUnavailable))
    else if !w.runtimeOk then Some(Reject(Internal, RuntimeUnavailable))
    else if !w.registryOk then Some(Reject(VerificationFailed, RegistryInvalid))
    else if !w.projectOk then Some(Reject(VerificationFailed, ProjectUnregistered))
    else if w.deadFrom <= 2 then Some(Interrupted)
    else match w.history
      case Retryable => Some(Wait(LaunchWaitingAssets, MissingAsset, LaunchAwaitsHistory))
      case Deterministic => Some(Reject(VerificationFailed, LaunchHistoryMismatch))
      case Passed =>
        if w.deadFrom <= 3 then Some(Interrupted)
        else match w.repository
          case Retryable => Some(Wait(LaunchWaitingAssets, MissingAsset, LaunchAwaitsRepository))
          case Deterministic => Some(Reject(VerificationFailed, LaunchRepositoryMismatch))
          case Passed =>
            if w.instructions.None? || !w.rendezvousOk then
              Some(Wait(LaunchWaitingAssets, Internal, InstructionsNotReady))
            else None
  }

  const OwnerPrefix: string := "arcmux-handoff:"

  function LaunchOwner(id: string): string { OwnerPrefix + id }

  /** The one identity a handoff's continuation may have. */
  function ContinuationIdentity(r: TargetRecord, worktree: string, instructions: string): Identity {
    Identity(HandoffName(r.manifest.id, r.digest), LaunchOwner(r.manifest.id), true, r.manifest.target.profile,
      worktree, instructions)
  }

  function MarkerOf(r: TargetRecord): LaunchMarker { LaunchMarker(r.manifest.id, r.digest) }

  function EvidenceOf(r: TargetRecord): Command { LaunchEvidence(MarkerOf(r)) }

  function LocatorFor(r: TargetRecord, session: string): Locator {
    Locator(r.manifest.target.device, RootScope, session)
  }

  const ConflictVerdict: TargetVerdict := Reject(LaunchFailed, ContinuationConflict)
  const NotReadyVerdict: TargetVerdict := Wait(LaunchWaitingAssets, LaunchFailed, ContinuationNotReady)

  datatype PollResult = Delivered | ReadyForPrompt | PollConflict | KeepPolling

  /** What one snapshot of the chosen session says. */
  function Poll(r: TargetRecord, identity: Identity, snap: Session): PollResult {
    if snap.identity != identity || r.locator.None? || snap.id != r.locator.value.session then PollConflict
    else if snap.command == EvidenceOf(r) then Delivered
    else if snap.command != NoCommand then PollConflict
    else match snap.phase
      case Idle => ReadyForPrompt
      case Exited => PollConflict
      case Crashed => PollConflict
      case Working => PollConflict
      case _ => KeepPolling
  }

  /** The first decisive snapshot decides; if none is, the context ran out. */
  function PollAll(r: TargetRecord, identity: Identity, snaps: seq<Session>): PollResult {
    if snaps == [] then KeepPolling
    else
      var first := Poll(r, identity, snaps[0]);
      if first.KeepPolling? then PollAll(r, identity, snaps[1..]) else first
  }

  // ---- the application ------------------------------------------------------------------------------------------

  /** What happens around the session of one launch attempt. */
  datatype SessionInputs = SessionInputs(freshId: string, setupOk: bool, persistOk: bool, locatorWriteOk: bool,
                                         snaps: seq<Session>, sendOk: bool, cancelled: bool, final: Session,
                                           finalPersistOk: bool)

  /** From a chosen session to the end of the attempt. */
  function DeliveryVerdict(r: TargetRecord, identity: Identity, s: SessionInputs): TargetVerdict {
    var polled := PollAll(r, identity, s.snaps);
    if polled.PollConflict? then ConflictVerdict
    else if polled.KeepPolling? then Interrupted
    else if polled.ReadyForPrompt? && !s.sendOk then
      if s.cancelled then Interrupted else Wait(LaunchWaitingAssets, LaunchFailed, DeliveryNotReady)
    else if s.final.command != EvidenceOf(r) then Reject(LaunchFailed, EvidenceMissing)
    else if !s.finalPersistOk then Wait(LaunchWaitingAssets, Internal, PersistenceNotReady)
    else if r.locator.None? then Reject(Internal, LocatorMissing)
    else Forward(TargetAccepted, r.locator)
  }

  /** The bounded proof an accepted record gives. */
  function VerificationOf(r: TargetRecord): Verification
    requires r.locator.Some?
  {
    Verification(r.manifest.id, r.digest, r.locator.value, r.contextLoaded.Some?,
                 if r.contextLoaded.Some? then ProofLoaded else ProofPending, r.contextLoaded)
  }

  /** A session is at hand and the record names it; or the attempt ended with this verdict on this record. */
  datatype Choice = Chosen(record: TargetRecord) | NoSession(verdict: TargetVerdict)

  /** An already bound launch may only go on with exactly its session. */
  function ChooseBound(r: TargetRecord, live: map<string, Session>): Choice
    requires r.locator.Some?
  {
    var l := r.locator.value;
    if l.device != r.manifest.target.device || l.scope != RootScope || l.session !in live then
      NoSession(ConflictVerdict)
    else Chosen(r)
  }

  /** An unbound launch binds the created session durably before anything is sent to it. */
  function ChooseCreated(r: TargetRecord, identity: Identity, created: Option<Session>, s: SessionInputs,
      now: Time): Choice {
    if created.None? || (created.value.identity == identity && !s.persistOk) then
      NoSession(if s.cancelled then Interrupted else NotReadyVerdict)
    else if created.value.identity != identity then NoSession(ConflictVerdict)
    else
      var bound := BindLocator(r, r.revision, LocatorFor(r, created.value.id), TransitionTime(now, r.updated), now);
      if !s.locatorWriteOk || bound.Err? then NoSession(if s.cancelled then Interrupted else LostRecord)
        else Chosen(bound.value)
  }

  function AfterChoice(r: TargetRecord, choice: Choice, identity: Identity, s: SessionInputs, now: Time): (TargetRecord,
      RpcResult<Status>) {
    match choice
    case NoSession(v) => Conclude(r, v, now)
    case Chosen(r') => Conclude(r', DeliveryVerdict(r', identity, s), now)
  }

  /** The session the launch prompt goes to, if it is sent at all. */
  function PromptedSession(choice: Choice, identity: Identity, s: SessionInputs): Option<string> {
    if choice.Chosen? && choice.record.locator.Some? && PollAll(choice.record, identity, s.snaps).ReadyForPrompt?
    then Some(choice.record.locator.value.session) else None
  }

  /** The whole attempt: the record, the answer and the session prompted, given what creation returned. */
  function AfterLaunchWork(r: TargetRecord, w: LaunchInputs, s: SessionInputs, live: map<string, Session>,
      created: Option<Session>,
                           bind: Time, end: Time): (TargetRecord, RpcResult<Status>, Option<string>)
  {
    match LaunchCheck(r, w)
    case Some(v) => (Conclude(r, v, end).0, Conclude(r, v, end).1, None)
    case None =>
      var identity := ContinuationIdentity(r, w.worktree, w.instructions.value);
      var choice := if r.locator.Some? then ChooseBound(r, live) else ChooseCreated(r, identity, created, s, bind);
      var (r', answer) := AfterChoice(r, choice, identity, s, end);
      (r', answer, PromptedSession(choice, identity, s))
  }

  class HandoffApplication {
    const store: Store
    const sessions: SessionTable

    constructor (store: Store, sessions: SessionTable)
      ensures this.store == store && this.sessions == sessions
    {
      this.store, this.sessions := store, sessions;
    }

    ghost predicate Replaced(before: StoreState, id: string, now: TargetRecord)
      reads store
    {
      store.source == before.source && store.target == before.target[id := now]
    }

    ghost predicate Holds(record: TargetRecord)
      reads store
    {
      store.Valid() && ValidID(record.manifest.id) && record.manifest.id in store.target
        && store.target[record.manifest.id] == record
    }

    /** Writes a verdict and answers with the new status. */
    method Settle(record: TargetRecord, v: TargetVerdict, now: Time) returns (result: RpcResult<Status>)
      requires Holds(record) && (v.Forward? || v.Wait? || v.Reject?)
      modifies store
      ensures store.Valid()
      ensures result == Conclude(record, v, now).1
          && Replaced(old(store.State()), record.manifest.id, Conclude(record, v, now).0)
    {
      hide Apply, TargetResult, ValidID, ValidState, TargetTransition, StatusOf;
      var at := TransitionTime(now, record.updated);
      var t;
      match v {
        case Forward(_, locator) => t := Transition(at, None, None, locator);
        case Wait(_, code, message) => t :=
          Transition(at, Some(at + AssetRetryDelay), Some(Failure(code, message, true, at)), None);
        case Reject(code, message) => t := Transition(at, None, Some(Failure(code, message, false, at)), None);
      }
      var moved := store.TransitionTarget(record.manifest.id, record.revision, if v.Reject? then Rejected
        else v.next, t, now);
      assert store.target[record.manifest.id := store.target[record.manifest.id]] == store.target;
      if moved.Err? { return Error(InternalError); }
      return Reply(StatusOf(moved.value));
    }

    method ResumeTarget(record: TargetRecord, w: PrepareInputs, begin: Time, end: Time)
        returns (result: RpcResult<Status>)
      requires Holds(record)
      modifies store
      ensures store.Valid()
      ensures var (r, answer) := AfterResumeTarget(record, w, begin, end);
              result == answer && Replaced(old(store.State()), record.manifest.id, r)
    {
      hide Apply, TargetResult, TargetTransition, ValidID, ValidState, Conclude, PrepareVerdictFor, StatusOf;
      var id := record.manifest.id;
      assert store.target[id := record] == store.target;
      if w.deadFrom <= 1 { return Error(Cancelled); }
      if (record.state == Received || record.state == Validating || record.state == WaitingAssets)
        && record.manifest.artifacts != 0 {
        result := Settle(record, ArtifactsVerdict, end);
        return;
      }
      var current := record;
      match record.state {
        case Received =>
        case WaitingAssets =>
        case Validating =>
        case _ => return Reply(StatusOf(record));
      }
      if record.state != Validating {
        var moved := store.TransitionTarget(id, record.revision, Validating,
                                            Transition(TransitionTime(begin, record.updated), None, None, None), begin);
        if moved.Err? { return Error(InternalError); }
        current := moved.value;
      }
      assert store.target[id] == current && current.manifest.id == id;
      assert ResumeTargetPlan(record, w.deadFrom, begin) == Work(current);
      assert store.target[id := current] == store.target;
      result := CheckPreparation(current, w, end);
    }

    method CheckPreparation(record: TargetRecord, w: PrepareInputs, now: Time) returns (result: RpcResult<Status>)
      requires Holds(record)
      modifies store
      ensures store.Valid()
      ensures var (r, answer) := Conclude(record, PrepareVerdictFor(record, w), now);
              result == answer && Replaced(old(store.State()), record.manifest.id, r)
    {
      hide Apply, TargetResult, TargetSettle, ValidID, ValidState;
      assert store.target[record.manifest.id := record] == store.target;
      if w.device == "" || record.manifest.target.device != w.device {
        result := Settle(record, Reject(VerificationFailed, DeviceMismatch), now);
      } else if !w.profileOk {
        result := Settle(record, Reject(VerificationFailed, ProfileUnavailable), now);
      } else if w.deadFrom <= 2 {
        return Error(Cancelled);
      } else if !w.registryOk {
        result := Settle(record, Reject(VerificationFailed, RegistryInvalid), now);
      } else if !w.projectOk {
        result := Settle(record, Reject(VerificationFailed, ProjectUnregistered), now);
      } else if w.deadFrom <= 3 {
        return Error(Cancelled);
      } else if w.history.Retryable? {
        result := Settle(record, Wait(WaitingAssets, MissingAsset, HistoryMissing), now);
      } else if w.history.Deterministic? {
        result := Settle(record, Reject(InvalidManifest, HistoryInvalid), now);
      } else if w.deadFrom <= 4 {
        return Error(Cancelled);
      } else if w.repository.Retryable? {
        result := Settle(record, Wait(WaitingAssets, MissingAsset, RepositoryMissing), now);
      } else if w.repository.Deterministic? {
        result := Settle(record, Reject(VerificationFailed, RepositoryMismatch), now);
      } else {
        result := Settle(record, Forward(Prepared, None), now);
      }
    }

    method Prepare(m: Manifest, peer: string, w: PrepareInputs, clock: Time, begin: Time, end: Time)
        returns (result: RpcResult<Status>)
      requires store.Valid()
      modifies store
      ensures store.Valid()
      ensures PrepareGuard(m, peer, w).Some? ==>
          result == Error(PrepareGuard(m, peer, w).value) && store.State() == old(store.State())
      ensures PrepareGuard(m, peer, w).None? ==>
                match ReceiveResult(old(store.State()), m, clock)
                case Err(e) => result == Error(if e.ManifestConflict? then BadRequest else InternalError)
                  && store.State() == old(store.State())
                case Ok(received) =>
                  var (r, answer) := AfterResumeTarget(received, w, begin, end);
                  result == answer && Replaced(old(store.State()), m.id, r)
    {
      hide Apply, AfterResumeTarget, ValidID, ValidState;
      if !ValidManifest(m) { return Error(BadRequest); }
      if peer == "" || peer != m.source.device { return Error(Denied); }
      if w.device == "" || m.target.device != w.device { return Error(BadRequest); }
      if m.artifacts != 0 { return Error(BadRequest); }
      if w.deadFrom <= 0 { return Error(Cancelled); }
      var received, _ := store.ReceiveTarget(m, clock);
      if received.Err? { return Error(if received.error.ManifestConflict? then BadRequest else InternalError); }
      assert store.target[m.id] == received.value && received.value.manifest.id == m.id;
      result := ResumeTarget(received.value, w, begin, end);
    }

    /** Chooses the continuation: the bound session, or a created one that is bound before it is used. */
    method TargetLaunchSession(record: TargetRecord, identity: Identity, s: SessionInputs, now: Time)
      returns (choice: Choice, ghost created: Option<Session>)
      requires Holds(record) && record.state.Launching? && sessions.Valid() && s.freshId !in sessions.live
      modifies store, sessions
      ensures store.Valid() && sessions.Valid()
      ensures choice == if record.locator.Some? then ChooseBound(record, old(sessions.live))
          else ChooseCreated(record, identity, created, s, now)
      ensures Replaced(old(store.State()), record.manifest.id, if choice.Chosen? then choice.record else record)
      ensures record.locator.None? && created.Some? ==>
                created.value.id in sessions.live && sessions.live[created.value.id] == created.value
                && (created.value.id in old(sessions.live)
                  || created.value == Session(s.freshId, identity, Starting, NoCommand))
      ensures forall id <- old(sessions.live) :: id in sessions.live && sessions.live[id] == old(sessions.live)[id]
      ensures choice.Chosen? ==>
          choice.record.state.Launching? && choice.record.locator.Some?
          && choice.record.locator.value.session in sessions.live
      ensures choice.Chosen? ==> choice.record.manifest == record.manifest
    {
      hide Apply, TargetResult, ValidID, ValidState;
      assert store.target[record.manifest.id := record] == store.target;
      created := None;
      if record.locator.Some? {
        var locator := record.locator.value;
        if locator.device != record.manifest.target.device || locator.scope != RootScope {
          return NoSession(ConflictVerdict), None;
        }
        if locator.session !in sessions.live { return NoSession(ConflictVerdict), None; }
        return Chosen(record), None;
      }
      var started := sessions.Create(identity, s.freshId, s.setupOk);
      created := started;
      if started.None? { return NoSession(if s.cancelled then Interrupted else NotReadyVerdict), created; }
      var snap := started.value;
      if snap.identity != identity { return NoSession(ConflictVerdict), created; }
      var persisted := sessions.Persist(s.persistOk);
      if !persisted { return NoSession(if s.cancelled then Interrupted else NotReadyVerdict), created; }
      if !s.locatorWriteOk { return NoSession(if s.cancelled then Interrupted else LostRecord), created; }
      var bound := store.RecordTargetLaunchLocator(record.manifest.id, record.revision, LocatorFor(record, snap.id),
                                                   TransitionTime(now, record.updated), now);
      if bound.Err? { return NoSession(if s.cancelled then Interrupted else LostRecord), created; }
      return Chosen(bound.value), created;
    }

    /** The polling loop over the chosen session's successive snapshots. */
    method PollSession(record: TargetRecord, identity: Identity, snaps: seq<Session>) returns (result: PollResult)
      ensures result == PollAll(record, identity, snaps)
    {
      var i := 0;
      while i < |snaps|
        invariant 0 <= i <= |snaps|
        invariant PollAll(record, identity, snaps) == PollAll(record, identity, snaps[i..])
      {
        var snap := snaps[i];
        if snap.identity != identity || record.locator.None? || snap.id != record.locator.value.session {
          return PollConflict;
        }
        if snap.command == EvidenceOf(record) { return Delivered; }
        if snap.command != NoCommand { return PollConflict; }
        match snap.phase {
          case Idle => return ReadyForPrompt;
          case Exited => return PollConflict;
          case Crashed => return PollConflict;
          case Working => return PollConflict;
          case _ =>
        }
        i := i + 1;
      }
      return KeepPolling;
    }

    /** Delivers the prompt to the bound session if needed and accepts only on its recorded evidence. */
    method Deliver(record: TargetRecord, identity: Identity, s: SessionInputs, now: Time)
      returns (result: RpcResult<Status>, prompted: Option<string>)
      requires Holds(record) && sessions.Valid()
      requires record.locator.Some? && record.locator.value.session in sessions.live
      modifies store, sessions
      ensures store.Valid() && sessions.Valid()
      ensures var (r, answer) := Conclude(record, DeliveryVerdict(record, identity, s), now);
              result == answer && Replaced(old(store.State()), record.manifest.id, r)
      ensures prompted == PromptedSession(Chosen(record), identity, s)
      ensures sessions.live.Keys == old(sessions.live.Keys)
      ensures forall id <- sessions.live :: sessions.live[id] == old(sessions.live)[id] || Some(id) == prompted
    {
      hide Apply, TargetResult, ValidID, ValidState, TargetSettle, PollAll;
      assert store.target[record.manifest.id := record] == store.target;
      prompted := None;
      var polled := PollSession(record, identity, s.snaps);
      if polled.PollConflict? {
        result := Settle(record, ConflictVerdict, now);
        return;
      }
      if polled.KeepPolling? { return Error(Cancelled), None; }
      if polled.ReadyForPrompt? {
        var id := record.locator.value.session;
        prompted := Some(id);
        if !s.sendOk {
          sessions.live := sessions.live[id := sessions.live[id].(phase := Stuck)];
          if s.cancelled { return Error(Cancelled), prompted; }
          result := Settle(record, Wait(LaunchWaitingAssets, LaunchFailed, DeliveryNotReady), now);
          return;
        }
        sessions.live := sessions.live[id := sessions.live[id].(command := EvidenceOf(record), phase := Working)];
      }
      if s.final.command != EvidenceOf(record) {
        result := Settle(record, Reject(LaunchFailed, EvidenceMissing), now);
        return;
      }
      var persisted := sessions.Persist(s.finalPersistOk);
      if !persisted {
        result := Settle(record, Wait(LaunchWaitingAssets, Internal, PersistenceNotReady), now);
        return;
      }
      result := Settle(record, Forward(TargetAccepted, record.locator), now);
    }

    /** The work of an authorized launch, from revalidation to acceptance. */
    method LaunchWork(record: TargetRecord, w: LaunchInputs, s: SessionInputs, bind: Time, end: Time)
      returns (result: RpcResult<Status>, prompted: Option<string>, ghost created: Option<Session>)
      requires Holds(record) && record.state.Launching? && sessions.Valid() && s.freshId !in sessions.live
      modifies store, sessions
      ensures store.Valid() && sessions.Valid()
      ensures var (r, answer, sent) := AfterLaunchWork(record, w, s, old(sessions.live), created, bind, end);
              result == answer && prompted == sent && Replaced(old(store.State()), record.manifest.id, r)
      ensures forall id <- old(sessions.live) ::
          id in sessions.live
          && (sessions.live[id] == old(sessions.live)[id] || Some(id) == prompted)
    {
      hide Apply, TargetResult, ValidID, ValidState, TargetSettle, DeliveryVerdict, PollAll, ChooseBound, ChooseCreated,
        StatusOf;
      created := None;
      prompted := None;
      assert store.target[record.manifest.id := record] == store.target;
      var check := LaunchCheck(record, w);
      if check.Some? {
        if check.value.Interrupted? { return Error(Cancelled), None, None; }
        result := Settle(record, check.value, end);
        return;
      }
      var identity := ContinuationIdentity(record, w.worktree, w.instructions.value);
      var choice;
      choice, created := TargetLaunchSession(record, identity, s, bind);
      if choice.NoSession? {
        if choice.verdict.Interrupted? { return Error(Cancelled), None, created; }
        if choice.verdict.LostRecord? { return Error(InternalError), None, created; }
        result := Settle(record, choice.verdict, end);
        return;
      }
      result, prompted := Deliver(choice.record, identity, s, end);
    }

    /** The launch request: the only way a prepared record enters `launching`. */
    method Launch(id: string, digest: Digest, peer: string, w: LaunchInputs, s: SessionInputs, begin: Time, bind: Time,
        end: Time)
      returns (result: RpcResult<Status>, prompted: Option<string>, ghost created: Option<Session>)
      requires store.Valid() && sessions.Valid() && s.freshId !in sessions.live
      modifies store, sessions
      ensures store.Valid() && sessions.Valid()
      ensures w.deadFrom <= 0 ==> result == Error(Cancelled) && store.State() == old(store.State())
      ensures w.deadFrom > 0 && (!ValidID(id) || id !in old(store.target)) ==>
          result == Error(BadRequest) && store.State() == old(store.State())
      ensures w.deadFrom > 0 && ValidID(id) && id in old(store.target) ==>
                match LaunchRequestPlan(old(store.target)[id], digest, peer, w.device, begin)
                case Work(r) =>
                  var (r', answer, sent) := AfterLaunchWork(r, w, s, old(sessions.live), created, bind, end);
                  result == answer && prompted == sent && Replaced(old(store.State()), id, r')
                case Done(answer) => result == answer && prompted.None? && store.State() == old(store.State())
                case RejectFirst(_) => false
      // only the source's device, asking on the target's device for this very record, changes or learns anything
      ensures (|| result.Reply? || prompted.Some? || created.Some? || store.State() != old(store.State())
               || sessions.live != old(sessions.live) || sessions.disk != old(sessions.disk)) ==>
                && w.deadFrom > 0 && ValidID(id) && id in old(store.target) && peer != "" && w.device != ""
                && peer == old(store.target)[id].manifest.source.device
                && w.device == old(store.target)[id].manifest.target.device && digest == old(store.target)[id].digest
      ensures w.deadFrom > 0 && ValidID(id) && id in old(store.target) ==>
                (result == Error(Denied) <==> peer == "" || peer != old(store.target)[id].manifest.source.device)
    {
      hide Apply, TargetResult, TargetTransition, ValidID, ValidState, AfterLaunchWork, StatusOf;
      prompted, created := None, None;
      if w.deadFrom <= 0 { return Error(Cancelled), None, None; }
      var found := store.GetTarget(id);
      if found.Err? { return Error(BadRequest), None, None; }
      var record := found.value;
      if peer == "" || record.manifest.source.device != peer { return Error(Denied), None, None; }
      if w.device == "" || record.manifest.target.device != w.device { return Error(BadRequest), None, None; }
      if digest != record.digest { return Error(BadRequest), None, None; }
      match record.state {
        case Prepared =>
        case LaunchWaitingAssets =>
        case Launching =>
        case TargetAccepted => return Reply(StatusOf(record)), None, None;
        case Rejected => return Reply(StatusOf(record)), None, None;
        case _ => return Error(BadRequest), None, None;
      }
      if record.state != Launching {
        var moved := store.TransitionTarget(id, record.revision, Launching,
                                            Transition(TransitionTime(begin, record.updated), None, None, None), begin);
        if moved.Err? { return Error(InternalError), None, None; }
        record := moved.value;
      }
      assert record.state.Launching? by { EnterTargetState(old(store.target)[id], Launching, begin); }
      result, prompted, created := LaunchWork(record, w, s, bind, end);
      AttemptNeverDenies(record, w, s, old(sessions.live), created, bind, end);
    }

    /** What the target tells the source about the context: only to the source's device, only for the exact accepted
        identity. */
    method Verify(id: string, digest: Digest, locator: Locator, peer: string, device: string)
        returns (result: RpcResult<Verification>)
      requires store.Valid()
      ensures result.Reply? <==>
                && ValidID(id) && id in store.target && peer != "" && device != ""
                && store.target[id].manifest.source.device == peer && store.target[id].manifest.target.device == device
                && store.target[id].state.TargetAccepted? && store.target[id].digest == digest
                  && store.target[id].locator == Some(locator)
      ensures result.Reply? ==> result.value == VerificationOf(store.target[id])
    {
      hide ValidSource, ValidTarget;
      var found := store.GetTarget(id);
      if found.Err? { return Error(BadRequest); }
      var record := found.value;
      if peer == "" || record.manifest.source.device != peer { return Error(Denied); }
      if device == "" || record.manifest.target.device != device { return Error(BadRequest); }
      if record.state != TargetAccepted || record.locator.None? || digest != record.digest
        || locator != record.locator.value {
        return Error(BadRequest);
      }
      if record.contextLoaded.Some? {
        return Reply(Verification(id, record.digest, record.locator.value, true, ProofLoaded, record.contextLoaded));
      }
      return Reply(Verification(id, record.digest, record.locator.value, false, ProofPending, None));
    }
  }

  lemma AttemptNeverDenies(r: TargetRecord, w: LaunchInputs, s: SessionInputs, live: map<string, Session>,
      created: Option<Session>, bind: Time, end: Time)
    ensures AfterLaunchWork(r, w, s, live, created, bind, end).1 != Error(Denied)
  {
    hide LaunchCheck, DeliveryVerdict, ChooseBound, ChooseCreated, TargetSettle, StatusOf;
  }

  lemma EnterTargetState(r: TargetRecord, next: TargetState, now: Time)
    ensures EnterTarget(r, next, now).Work? ==>
              EnterTarget(r, next, now).record.state == next && EnterTarget(r, next, now).record.manifest == r.manifest
  {
  }
}
