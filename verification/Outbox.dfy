/**
 The source side of the protocol: internal/daemon/handoff_outbox.go.

 Each operation is a plan (what the record says to do before the call to the target) and
 a verdict (what the answer makes of the record). The class Outbox runs them against the
 store; the joint machine of HandoffWorld takes them as separate steps.
 */
module Outbox {
  import opened Wrappers
  import opened Records
  import opened RecordStore

  const RetryDelay: nat := 15 * 1_000_000_000

  // ---- what the target answers --------------------------------------------------------------------

  datatype FailureView = FailureView(code: FailureCode, message: Message, retryable: bool)

  datatype Status = Status(id: string, digest: Digest, state: TargetState, attempts: nat,
                           failure: Option<FailureView>, locator: Option<Locator>)

  datatype VerificationState = NotReady | ProofPending | ProofLoaded | Mismatch | ProofUnavailable

  datatype RetirementView = NotRequested | RetirementPending | RetirementDone

  datatype Verification = Verification(id: string, digest: Digest, locator: Locator,
                                       contextLoaded: bool, state: VerificationState, ack: Option<Ack>)

  datatype CallError =
    | PermissionDenied | InvalidRequestCode | PayloadTooLarge | UnsupportedMethod
    | CapabilityRequired | Backpressure | InternalCode | OtherCode
    | MethodNotRegistered | Transport

  datatype Reply<T> = Answer(value: T) | Failed(error: CallError)

  // ---- what the operator sees -----------------------------------------------------------------------

  datatype OutboxError = OutboxInvalid | OutboxNotFound | OutboxConflict

  datatype SourceView = SourceView(id: string, digest: Digest, state: SourceState, attempts: nat,
                                   sourceSession: SourceSession, failure: Option<FailureView>, locator: Option<Locator>,
                                   verification: VerificationState, contextLoaded: bool, retirement: RetirementView)

  function ViewOf(r: SourceRecord): SourceView {
    SourceView(r.manifest.id, r.digest, r.state, r.attempts, r.manifest.source,
               if r.failure.Some? then Some(FailureView(r.failure.value.code, r.failure.value.message,
                 r.failure.value.retryable)) else None,
               r.locator,
               if r.contextLoaded.Some? then ProofLoaded else if r.state.SourceAccepted? then ProofPending
                 else NotReady,
               r.contextLoaded.Some?,
               if r.retirement.None? then NotRequested else if r.retirement.value.state.Pending? then RetirementPending
                 else RetirementDone)
  }

  // ---- verdicts ---------------------------------------------------------------------------------------

  /** The next state an answer calls for, before times are filled in. */
  datatype Verdict =
    | Advance(next: SourceState, locator: Option<Locator>)
    | Retry(next: SourceState, code: FailureCode, message: Message)
    | Fail(code: FailureCode, message: Message)

  function TransitionTime(now: Time, notBefore: Time): Time { if now < notBefore then notBefore else now }

  /** The transition a verdict asks the store for. */
  function Settled(r: SourceRecord, v: Verdict, now: Time): Transition {
    var at := TransitionTime(now, r.updated);
    match v
    case Advance(_, locator) => Transition(at, None, None, locator)
    case Retry(_, code, message) => Transition(at, Some(at + RetryDelay), Some(Failure(code, message, true, at)), None)
    case Fail(code, message) => Transition(at, None, Some(Failure(code, message, false, at)), None)
  }

  function VerdictState(v: Verdict): SourceState { if v.Fail? then SourceFailed else v.next }

  function Settle(r: SourceRecord, v: Verdict, now: Time): Result<SourceRecord, StoreError> {
    SourceTransition(r, r.revision, VerdictState(v), Settled(r, v, now), now)
  }

  function PrepareErrorVerdict(e: CallError): Verdict {
    match e
    case PermissionDenied => Fail(Unauthorized, PreparationDenied)
    case InvalidRequestCode => Fail(InvalidManifest, HandoffRequestRefused)
    case PayloadTooLarge => Fail(InvalidManifest, HandoffRequestRefused)
    case UnsupportedMethod => Fail(InvalidManifest, HandoffRequestRefused)
    case MethodNotRegistered => Fail(Internal, PrepareProtocolMissing)
    case _ => Retry(RetryWait, Unavailable, PeerUnavailable)
  }

  function LaunchErrorVerdict(e: CallError): Verdict {
    match e
    case PermissionDenied => Retry(LaunchRetryWait, Unauthorized, LaunchNotGranted)
    case InvalidRequestCode => Fail(InvalidManifest, LaunchRequestRefused)
    case PayloadTooLarge => Fail(InvalidManifest, LaunchRequestRefused)
    case UnsupportedMethod => Fail(InvalidManifest, LaunchRequestRefused)
    case MethodNotRegistered => Fail(Internal, LaunchProtocolMissing)
    case _ => Retry(LaunchRetryWait, Unavailable, PeerUnavailable)
  }

  function RemoteCode(remote: Status, fallback: FailureCode): FailureCode {
    if remote.failure.Some? && !remote.failure.value.code.UnknownCode? then remote.failure.value.code else fallback
  }

  function PrepareVerdict(r: SourceRecord, reply: Reply<Status>): Verdict {
    match reply
    case Failed(e) => PrepareErrorVerdict(e)
    case Answer(remote) =>
      if remote.id != r.manifest.id || remote.digest != r.digest then Fail(Conflict, ConflictingIdentity)
      else match remote.state
        case Prepared => Advance(RemotePrepared, None)
        case Received => Retry(RetryWait, Unavailable, PreparationInProgress)
        case Validating => Retry(RetryWait, Unavailable, PreparationInProgress)
        case WaitingAssets => Retry(RetryWait, MissingAsset, TargetAwaitsAssets)
        case Rejected => Fail(RemoteCode(remote, VerificationFailed), PreparationRejected)
        case _ => Fail(Conflict, OutsidePreparation)
  }

  /** The session-view rule for session ids: longer ids and colons are allowed, unlike in stored locators. */
  predicate ValidSessionViewID(s: string) {
    && 1 <= |s| <= 256
    && IsAlnum(s[0])
    && (forall i :: 0 <= i < |s| ==> IsSafeChar(s[i]) || s[i] == ':')
  }

  predicate AcceptableLocator(r: SourceRecord, locator: Option<Locator>) {
    && locator.Some?
    && locator.value.device == r.manifest.target.device
    && locator.value.scope == RootScope
    && ValidSessionViewID(locator.value.session)
  }

  function LaunchVerdict(r: SourceRecord, reply: Reply<Status>): Verdict {
    match reply
    case Failed(e) => LaunchErrorVerdict(e)
    case Answer(remote) =>
      if remote.id != r.manifest.id || remote.digest != r.digest then Fail(Conflict, ConflictingIdentity)
      else match remote.state
        case TargetAccepted =>
          if AcceptableLocator(r, remote.locator) then Advance(SourceAccepted, remote.locator)
          else Fail(Conflict, AcceptedWithoutLocator)
        case Launching => Retry(LaunchRetryWait, Unavailable, LaunchInProgress)
        case LaunchWaitingAssets => Retry(LaunchRetryWait, RemoteCode(remote, LaunchFailed), LaunchAwaitsReadiness)
        case Rejected => Fail(RemoteCode(remote, LaunchFailed), LaunchRejected)
        case _ => Fail(Conflict, OutsideLaunch)
  }

  // ---- plans --------------------------------------------------------------------------------------------

  /** Before the call: answer the operator at once, or call the target with this stored record. */
  datatype Plan = Stop(result: Result<SourceView, OutboxError>) | Call(record: SourceRecord)

  predicate NotDue(r: SourceRecord, force: bool, now: Time) { !force && r.nextRetry.Some? && r.nextRetry.value > now }

  function Enter(r: SourceRecord, next: SourceState, now: Time): Plan {
    var moved := SourceTransition(r, r.revision, next, Transition(TransitionTime(now, r.updated), None, None, None),
      now);
    if moved.Ok? then Call(moved.value) else Stop(Err(OutboxConflict))
  }

  function PreparePlan(r: SourceRecord, force: bool, due: Time, now: Time): Plan {
    match r.state
    case Queued => Enter(r, PreparingRemote, now)
    case RetryWait => if NotDue(r, force, due) then Stop(Ok(ViewOf(r))) else Enter(r, PreparingRemote, now)
    case PreparingRemote => Call(r)
    case RemotePrepared => Stop(Ok(ViewOf(r)))
    case SourceFailed => Stop(Ok(ViewOf(r)))
    case _ => Stop(Err(OutboxConflict))
  }

  function LaunchPlan(r: SourceRecord, force: bool, due: Time, now: Time): Plan {
    match r.state
    case RemotePrepared => Enter(r, LaunchingRemote, now)
    case LaunchRetryWait => if NotDue(r, force, due) then Stop(Ok(ViewOf(r))) else Enter(r, LaunchingRemote, now)
    case LaunchingRemote => Call(r)
    case SourceAccepted => Stop(Ok(ViewOf(r)))
    case SourceFailed => Stop(Ok(ViewOf(r)))
    case _ => Stop(Err(OutboxConflict))
  }

  /** The stored record and the answer after a verdict. */
  function Finish(r: SourceRecord, v: Verdict, now: Time): (SourceRecord, Result<SourceView, OutboxError>) {
    var settled := Settle(r, v, now);
    if settled.Ok? then (settled.value, Ok(ViewOf(settled.value))) else (r, Err(OutboxConflict))
  }

  function AfterPrepare(r: SourceRecord, force: bool, reply: Reply<Status>, due: Time, begin: Time, end: Time)
    : (SourceRecord, Result<SourceView, OutboxError>)
  {
    match PreparePlan(r, force, due, begin)
    case Stop(result) => (r, result)
    case Call(called) => Finish(called, PrepareVerdict(called, reply), end)
  }

  function AfterLaunch(r: SourceRecord, force: bool, reply: Reply<Status>, due: Time, begin: Time, end: Time)
    : (SourceRecord, Result<SourceView, OutboxError>)
  {
    match LaunchPlan(r, force, due, begin)
    case Stop(result) => (r, result)
    case Call(called) => Finish(called, LaunchVerdict(called, reply), end)
  }

  /** What an answer to `verify` does: the record after recording the proof, or the same record and a reason. */
  function AfterVerify(r: SourceRecord, reply: Reply<Verification>, now: Time): (SourceRecord, SourceView)
    requires r.state.SourceAccepted? && r.locator.Some?
  {
    var unproved := ViewOf(r).(contextLoaded := false);
    match reply
    case Failed(e) =>
      (r, unproved.(verification := if e.InvalidRequestCode? || e.PermissionDenied? then Mismatch
        else ProofUnavailable))
    case Answer(remote) =>
      if remote.id != r.manifest.id || remote.digest != r.digest || remote.locator != r.locator.value then
        (r, unproved.(verification := Mismatch))
      else if !remote.contextLoaded || remote.state != ProofLoaded then (r, unproved.(verification := ProofPending))
      else if remote.ack.None? then (r, unproved.(verification := Mismatch))
      else
        var proved := RecordContext(r, r.revision, remote.ack.value, TransitionTime(now, r.updated), now);
        if proved.Ok? then (proved.value, ViewOf(proved.value)) else (r, unproved.(verification := Mismatch))
  }

  // ---- retirement -------------------------------------------------------------------------------------------

  /** The catalog's view of the exact source session; `turn` is absent before any hook event. */
  datatype TurnActivity = TurnActivity(count: int, lastEnd: Option<Time>)
  datatype Detail = Detail(scope: string, session: string, exited: bool, turn: Option<TurnActivity>)

  function ExactSource(r: SourceRecord, found: Option<Detail>): Option<Detail> {
    if found.Some? && found.value.scope == r.manifest.source.scope
      && found.value.session == r.manifest.source.session then found else None
  }

  function Observation(d: Detail): TurnObservation {
    if d.turn.Some? then TurnObservation(d.turn.value.count, d.turn.value.lastEnd) else TurnObservation(0, None)
  }

  predicate AfterTurnReady(r: Retirement, d: Detail) {
    && r.mode.AfterTurnEnd? && d.turn.Some? && d.turn.value.lastEnd.Some?
    && d.turn.value.count == r.baseline.turnCount
    && d.turn.value.lastEnd.value > r.requestedAt
  }

  /** May a pending retirement close the source now? */
  predicate MayClose(r: SourceRecord, seen: Option<Detail>) {
    && r.retirement.Some? && r.retirement.value.state.Pending?
    && ExactSource(r, seen).Some?
    && !seen.value.exited
    && (r.retirement.value.mode.AfterTurnEnd? ==> AfterTurnReady(r.retirement.value, seen.value))
  }

  /** May a pending retirement be completed: the exact catalog entry was seen exited, either at once or after a
      close. */
  predicate SeenExited(r: SourceRecord, seen: Option<Detail>, closed: bool, after: Option<Detail>) {
    && ExactSource(r, seen).Some?
    && (seen.value.exited || (MayClose(r, seen) && closed && ExactSource(r, after).Some? && after.value.exited))
  }

  function Complete(r: SourceRecord, now: Time): SourceRecord {
    var done := CompleteRetirement(r, r.revision, TransitionTime(now, r.updated), now);
    if done.Ok? then done.value else r
  }

  function AfterRetirePending(r: SourceRecord, seen: Option<Detail>, closed: bool, after: Option<Detail>,
      now: Time): SourceRecord {
    if r.retirement.Some? && r.retirement.value.state.Pending? && SeenExited(r, seen, closed, after) then
      Complete(r, now)
    else r
  }

  /** The durable request `retire` leaves before anything is closed. */
  function RequestPlan(r: SourceRecord, device: string, mode: RetirementMode, timeout: int, seen: Option<Detail>,
      now: Time): Plan {
    if !r.state.SourceAccepted? || r.contextLoaded.None? || r.manifest.source.device != device then
      Stop(Err(OutboxConflict))
    else if r.retirement.None? then
      var exact := ExactSource(r, seen);
      if exact.None? then Stop(Err(OutboxConflict))
      else
        var asked := RequestRetirement(r, r.revision, mode, timeout, Observation(exact.value),
          TransitionTime(now, r.updated), now);
        if asked.Ok? then Call(asked.value) else Stop(Err(OutboxConflict))
    else if r.retirement.value.mode != mode || r.retirement.value.timeoutSeconds != timeout / NanosPerSecond then
      Stop(Err(OutboxConflict))
    else Call(r)
  }

  // ---- recovery -------------------------------------------------------------------------------------------------

  /** What the outside world answers while one record is resumed. */
  datatype PassInput = PassInput(prepare: Reply<Status>, launch: Reply<Status>,
                                 seen: Option<Detail>, closed: bool, after: Option<Detail>)

  /** A record after one recovery pass with scan time `at`. */
  function Reconciled(r: SourceRecord, at: Time, world: PassInput): SourceRecord {
    if at == 0 || !Runnable(r, at) then r
    else if r.state.SourceAccepted? then AfterRetirePending(r, world.seen, world.closed, world.after, at)
    else if r.state.LaunchingRemote? || r.state.LaunchRetryWait? then AfterLaunch(r, false, world.launch, at, at, at).0
    else AfterPrepare(r, false, world.prepare, at, at, at).0
  }

  // ---- the outbox ---------------------------------------------------------------------------------------------

  /** One outbox over one store. An operation takes the target's answer and the clock readings as inputs;
      the per-id lock of LockTables keeps every other source operation on the id out until it returns. */
  class Outbox {
    const store: Store
    const device: string

    constructor (store: Store, device: string)
      ensures this.store == store && this.device == device
    {
      this.store, this.device := store, device;
    }

    /** Only this source record changed, to `now`. */
    ghost predicate Left(before: StoreState, id: string, now: SourceRecord)
      reads store
    {
      store.target == before.target && store.source == before.source[id := now]
    }

    /** The record in hand is the stored one. */
    ghost predicate Holds(record: SourceRecord)
      reads store
    {
      store.Valid() && ValidID(record.manifest.id) && record.manifest.id in store.source
        && store.source[record.manifest.id] == record
    }

    method Attempt(id: string, force: bool, reply: Reply<Status>, due: Time, begin: Time, end: Time)
      returns (result: Result<SourceView, OutboxError>)
      requires store.Valid()
      modifies store
      ensures store.Valid()
      ensures !ValidID(id) || id !in old(store.source) ==>
          result == Err(OutboxNotFound) && store.State() == old(store.State())
      ensures ValidID(id) && id in old(store.source) ==>
                var expected := AfterPrepare(old(store.source)[id], force, reply, due, begin, end);
                result == expected.1 && Left(old(store.State()), id, expected.0)
    {
      hide Apply, SourceResult, SourceTransition, ValidID, ValidState, Finish, ViewOf;
      var found := store.GetSource(id);
      if found.Err? { return Err(OutboxNotFound); }
      var record := found.value;
      ghost var first := record;
      assert store.source[id := record] == store.source;
      match record.state {
        case Queued =>
        case RetryWait =>
          if !force && record.nextRetry.Some? && record.nextRetry.value > due { return Ok(ViewOf(record)); }
        case PreparingRemote =>
        case RemotePrepared => return Ok(ViewOf(record));
        case SourceFailed => return Ok(ViewOf(record));
        case _ => return Err(OutboxConflict);
      }
      if record.state != PreparingRemote {
        var moved := store.TransitionSource(id, record.revision, PreparingRemote,
                                            Transition(TransitionTime(begin, record.updated), None, None, None), begin);
        if moved.Err? { return Err(OutboxConflict); }
        record := moved.value;
      }
      assert store.source[id] == record && record.manifest.id == id;
      result := ConcludePrepare(record, reply, end);
    }

    method ConcludePrepare(record: SourceRecord, reply: Reply<Status>, now: Time)
        returns (result: Result<SourceView, OutboxError>)
      requires Holds(record)
      modifies store
      ensures store.Valid()
      ensures var (settled, answer) := Finish(record, PrepareVerdict(record, reply), now);
              result == answer && Left(old(store.State()), record.manifest.id, settled)
    {
      hide Apply, SourceResult, ValidID, ValidState, Finish;
      if reply.Failed? {
        var verdict := PrepareErrorVerdict(reply.error);
        if verdict.Retry? {
          result := TransitionRetry(record, RetryWait, verdict.code, verdict.message, now);
        } else {
          result := TransitionFailed(record, verdict.code, verdict.message, now);
        }
        return;
      }
      var remote := reply.value;
      if remote.id != record.manifest.id || remote.digest != record.digest {
        result := TransitionFailed(record, Conflict, ConflictingIdentity, now);
        return;
      }
      match remote.state {
        case Prepared =>
          result := TransitionForward(record, RemotePrepared, None, now);
        case Received =>
          result := TransitionRetry(record, RetryWait, Unavailable, PreparationInProgress, now);
        case Validating =>
          result := TransitionRetry(record, RetryWait, Unavailable, PreparationInProgress, now);
        case WaitingAssets =>
          result := TransitionRetry(record, RetryWait, MissingAsset, TargetAwaitsAssets, now);
        case Rejected =>
          var code := VerificationFailed;
          if remote.failure.Some? && !remote.failure.value.code.UnknownCode? { code := remote.failure.value.code; }
          result := TransitionFailed(record, code, PreparationRejected, now);
        case _ =>
          result := TransitionFailed(record, Conflict, OutsidePreparation, now);
      }
    }

    method AttemptLaunch(id: string, force: bool, reply: Reply<Status>, due: Time, begin: Time, end: Time)
      returns (result: Result<SourceView, OutboxError>)
      requires store.Valid()
      modifies store
      ensures store.Valid()
      ensures !ValidID(id) || id !in old(store.source) ==>
          result == Err(OutboxNotFound) && store.State() == old(store.State())
      ensures ValidID(id) && id in old(store.source) ==>
                var expected := AfterLaunch(old(store.source)[id], force, reply, due, begin, end);
                result == expected.1 && Left(old(store.State()), id, expected.0)
    {
      hide Apply, SourceResult, SourceTransition, ValidID, ValidState, Finish, ViewOf;
      var found := store.GetSource(id);
      if found.Err? { return Err(OutboxNotFound); }
      var record := found.value;
      ghost var first := record;
      assert store.source[id := record] == store.source;
      match record.state {
        case RemotePrepared => // the operator's explicit authorization
        case LaunchRetryWait =>
          if !force && record.nextRetry.Some? && record.nextRetry.value > due { return Ok(ViewOf(record)); }
        case LaunchingRemote =>
        case SourceAccepted => return Ok(ViewOf(record));
        case SourceFailed => return Ok(ViewOf(record));
        case _ => return Err(OutboxConflict);
      }
      if record.state != LaunchingRemote {
        var moved := store.TransitionSource(id, record.revision, LaunchingRemote,
                                            Transition(TransitionTime(begin, record.updated), None, None, None), begin);
        if moved.Err? { return Err(OutboxConflict); }
        record := moved.value;
      }
      assert store.source[id] == record && record.manifest.id == id;
      result := ConcludeLaunch(record, reply, end);
    }

    method ConcludeLaunch(record: SourceRecord, reply: Reply<Status>, now: Time)
        returns (result: Result<SourceView, OutboxError>)
      requires Holds(record)
      modifies store
      ensures store.Valid()
      ensures var (settled, answer) := Finish(record, LaunchVerdict(record, reply), now);
              result == answer && Left(old(store.State()), record.manifest.id, settled)
    {
      hide Apply, SourceResult, ValidID, ValidState, Finish;
      if reply.Failed? {
        var verdict := LaunchErrorVerdict(reply.error);
        if verdict.Retry? {
          result := TransitionRetry(record, LaunchRetryWait, verdict.code, verdict.message, now);
        } else {
          result := TransitionFailed(record, verdict.code, verdict.message, now);
        }
        return;
      }
      var remote := reply.value;
      if remote.id != record.manifest.id || remote.digest != record.digest {
        result := TransitionFailed(record, Conflict, ConflictingIdentity, now);
        return;
      }
      match remote.state {
        case TargetAccepted =>
          if !AcceptableLocator(record, remote.locator) {
            result := TransitionFailed(record, Conflict, AcceptedWithoutLocator, now);
            return;
          }
          result := TransitionForward(record, SourceAccepted, remote.locator, now);
        case Launching =>
          result := TransitionRetry(record, LaunchRetryWait, Unavailable, LaunchInProgress, now);
        case LaunchWaitingAssets =>
          var code := LaunchFailed;
          if remote.failure.Some? && !remote.failure.value.code.UnknownCode? { code := remote.failure.value.code; }
          result := TransitionRetry(record, LaunchRetryWait, code, LaunchAwaitsReadiness, now);
        case Rejected =>
          var code := LaunchFailed;
          if remote.failure.Some? && !remote.failure.value.code.UnknownCode? { code := remote.failure.value.code; }
          result := TransitionFailed(record, code, LaunchRejected, now);
        case _ =>
          result := TransitionFailed(record, Conflict, OutsideLaunch, now);
      }
    }

    method TransitionForward(record: SourceRecord, next: SourceState, locator: Option<Locator>, now: Time)
      returns (result: Result<SourceView, OutboxError>)
      requires Holds(record)
      modifies store
      ensures store.Valid()
      ensures var (settled, answer) := Finish(record, Advance(next, locator), now);
              result == answer && Left(old(store.State()), record.manifest.id, settled)
    {
      hide Apply, SourceResult, SourceTransition, ValidID, ValidState, ViewOf;
      var updated := store.TransitionSource(record.manifest.id, record.revision, next,
                                            Transition(TransitionTime(now, record.updated), None, None, locator), now);
      assert store.source[record.manifest.id := store.source[record.manifest.id]] == store.source;
      if updated.Err? { return Err(OutboxConflict); }
      return Ok(ViewOf(updated.value));
    }

    method TransitionRetry(record: SourceRecord, next: SourceState, code: FailureCode, message: Message, now: Time)
      returns (result: Result<SourceView, OutboxError>)
      requires Holds(record)
      modifies store
      ensures store.Valid()
      ensures var (settled, answer) := Finish(record, Retry(next, code, message), now);
              result == answer && Left(old(store.State()), record.manifest.id, settled)
    {
      hide Apply, SourceResult, SourceTransition, ValidID, ValidState, ViewOf;
      var at := TransitionTime(now, record.updated);
      var updated := store.TransitionSource(record.manifest.id, record.revision, next,
                                            Transition(at, Some(at + RetryDelay),
                                              Some(Failure(code, message, true, at)), None), now);
      assert store.source[record.manifest.id := store.source[record.manifest.id]] == store.source;
      if updated.Err? { return Err(OutboxConflict); }
      return Ok(ViewOf(updated.value));
    }

    method TransitionFailed(record: SourceRecord, code: FailureCode, message: Message, now: Time)
      returns (result: Result<SourceView, OutboxError>)
      requires Holds(record)
      modifies store
      ensures store.Valid()
      ensures var (settled, answer) := Finish(record, Fail(code, message), now);
              result == answer && Left(old(store.State()), record.manifest.id, settled)
    {
      hide Apply, SourceResult, SourceTransition, ValidID, ValidState, ViewOf;
      var at := TransitionTime(now, record.updated);
      var updated := store.TransitionSource(record.manifest.id, record.revision, SourceFailed,
                                            Transition(at, None, Some(Failure(code, message, false, at)), None), now);
      assert store.source[record.manifest.id := store.source[record.manifest.id]] == store.source;
      if updated.Err? { return Err(OutboxConflict); }
      return Ok(ViewOf(updated.value));
    }

    method Verify(id: string, reply: Reply<Verification>, now: Time) returns (result: Result<SourceView, OutboxError>)
      requires store.Valid()
      modifies store
      ensures store.Valid()
      ensures !ValidID(id) || id !in old(store.source) ==> result.Err? && store.State() == old(store.State())
      ensures ValidID(id) && id in old(store.source) ==>
                var r := old(store.source)[id];
                if !r.state.SourceAccepted? then result == Err(OutboxConflict) && store.State() == old(store.State())
                else
                  result == Ok(AfterVerify(r, reply, now).1)
                  && Left(old(store.State()), id, AfterVerify(r, reply, now).0)
    {
      var found := store.GetSource(id);
      if found.Err? { return Err(if found.error.NotFound? then OutboxNotFound else OutboxInvalid); }
      var record := found.value;
      assert store.source[id := record] == store.source;
      assert record.state == SourceAccepted ==> record.locator.Some?;
      hide Apply, SourceResult, ValidID, ValidState;
      if record.state != SourceAccepted || record.locator.None? { return Err(OutboxConflict); }
      var view := ViewOf(record).(contextLoaded := false);
      if reply.Failed? {
        if reply.error.InvalidRequestCode? || reply.error.PermissionDenied? {
          return Ok(view.(verification := Mismatch));
        }
        return Ok(view.(verification := ProofUnavailable));
      }
      var remote := reply.value;
      if remote.id != record.manifest.id || remote.digest != record.digest || remote.locator != record.locator.value {
        return Ok(view.(verification := Mismatch));
      }
      if !remote.contextLoaded || remote.state != ProofLoaded { return Ok(view.(verification := ProofPending)); }
      if remote.ack.None? { return Ok(view.(verification := Mismatch)); }
      var verified, _ := store.RecordSourceContextLoaded(id, record.revision, remote.ack.value,
        TransitionTime(now, record.updated), now);
      if verified.Err? { return Ok(view.(verification := Mismatch)); }
      return Ok(ViewOf(verified.value));
    }

    /** `closed` is the close call's success; `closing` reports that the call was made at all, and on which session. */
    method RetirePending(record: SourceRecord, seen: Option<Detail>, closed: bool, after: Option<Detail>, now: Time)
      returns (result: SourceView, closing: Option<SourceSession>)
      requires Holds(record)
      modifies store
      ensures store.Valid()
      ensures closing == if MayClose(record, seen) then Some(record.manifest.source) else None
      ensures Left(old(store.State()), record.manifest.id, AfterRetirePending(record, seen, closed, after, now))
      ensures result == ViewOf(AfterRetirePending(record, seen, closed, after, now))
    {
      hide Apply, SourceResult, ValidID, ValidState, AfterTurnReady, ViewOf;
      var id := record.manifest.id;
      assert store.source[id := record] == store.source;
      if record.retirement.None? || record.retirement.value.state != Pending { return ViewOf(record), None; }
      var exact := ExactSource(record, seen);
      if exact.None? { return ViewOf(record), None; }
      if exact.value.exited {
        var completed, _ := store.CompleteSourceRetirement(id, record.revision, TransitionTime(now, record.updated),
          now);
        if completed.Err? { return ViewOf(record), None; }
        return ViewOf(completed.value), None;
      }
      if record.retirement.value.mode == AfterTurnEnd && !AfterTurnReady(record.retirement.value, exact.value) {
        return ViewOf(record), None;
      }
      closing := Some(record.manifest.source);
      if !closed { return ViewOf(record), closing; }
      var closedDetail := ExactSource(record, after);
      if closedDetail.None? || !closedDetail.value.exited { return ViewOf(record), closing; }
      var completed, _ := store.CompleteSourceRetirement(id, record.revision, TransitionTime(now, record.updated), now);
      if completed.Err? { return ViewOf(record), closing; }
      return ViewOf(completed.value), closing;
    }

    method Retire(id: string, mode: RetirementMode, timeout: int, asked: Option<Detail>, seen: Option<Detail>,
                  closed: bool, after: Option<Detail>, begin: Time, end: Time)
      returns (result: Result<SourceView, OutboxError>, closing: Option<SourceSession>)
      requires store.Valid()
      modifies store
      ensures store.Valid()
      ensures !ValidID(id) || id !in old(store.source) ==>
          result.Err? && closing.None? && store.State() == old(store.State())
      ensures ValidID(id) && id in old(store.source) ==>
                match RequestPlan(old(store.source)[id], device, mode, timeout, asked, begin)
                case Stop(answer) => result == answer && closing.None? && store.State() == old(store.State())
                case Call(r) =>
                  var r' := if mode.AfterTurnEnd? then r else AfterRetirePending(r, seen, closed, after, end);
                  && result == Ok(ViewOf(r')) && Left(old(store.State()), id, r')
                  && closing == if !mode.AfterTurnEnd? && MayClose(r, seen) then Some(r.manifest.source) else None
    {
      hide Apply, SourceResult, ValidID, ValidState, Complete, ViewOf, AfterTurnReady;
      closing := None;
      var found := store.GetSource(id);
      if found.Err? { return Err(if found.error.NotFound? then OutboxNotFound else OutboxInvalid), None; }
      var record := found.value;
      assert store.source[id := record] == store.source;
      if record.state != SourceAccepted || record.contextLoaded.None? { return Err(OutboxConflict), None; }
      if record.manifest.source.device != device { return Err(OutboxConflict), None; }
      if record.retirement.None? {
        var exact := ExactSource(record, asked);
        if exact.None? { return Err(OutboxConflict), None; }
        var requested, _ := store.RequestSourceRetirement(id, record.revision, mode, timeout, Observation(exact.value),
                                                          TransitionTime(begin, record.updated), begin);
        if requested.Err? { return Err(OutboxConflict), None; }
        record := requested.value;
      } else if record.retirement.value.mode != mode
        || record.retirement.value.timeoutSeconds != timeout / NanosPerSecond {
        return Err(OutboxConflict), None;
      }
      assert store.source[id] == record;
      if record.retirement.value.state == Retired || mode == AfterTurnEnd { return Ok(ViewOf(record)), None; }
      var view;
      view, closing := RetirePending(record, seen, closed, after, end);
      return Ok(view), closing;
    }

    /** One recovery pass. Every clock reading in it is the scan time. */
    method Reconcile(at: Time, world: string -> PassInput)
      requires store.Valid()
      modifies store
      ensures store.Valid()
      ensures store.target == old(store.target) && store.source.Keys == old(store.source.Keys)
      ensures forall id <- store.source :: store.source[id] == Reconciled(old(store.source)[id], at, world(id))
    {
      hide Apply, Reconciled, Runnable, SourceUnfinished, TargetUnfinished, ValidID, ValidState, ValidSource,
        ValidTarget;
      ScansExactly(store.State(), at);
      var scan := store.RunnableSource(at);
      if scan.Err? {
        forall id <- store.source { NotRunnableStays(store.source[id], at, world(id)); }
        return;
      }
      var candidates := scan.value;
      ghost var before := store.source;
      var i := 0;
      while i < |candidates|
        invariant 0 <= i <= |candidates| && store.Valid()
        invariant store.target == old(store.target) && store.source.Keys == before.Keys
        invariant forall k :: 0 <= k < i ==>
            store.source[candidates[k].manifest.id] == Reconciled(candidates[k], at, world(candidates[k].manifest.id))
        invariant forall id <- store.source :: store.source[id] == before[id] || exists k ::
            0 <= k < i
            && candidates[k].manifest.id == id
      {
        var candidate := candidates[i];
        assert candidate in candidates;
        Resume(candidate, at, world(candidate.manifest.id));
        i := i + 1;
      }
      forall id <- store.source
        ensures store.source[id] == Reconciled(before[id], at, world(id))
      {
        if Runnable(before[id], at) {
          assert before[id] in candidates;
        } else {
          assert Reconciled(before[id], at, world(id)) == before[id] by { NotRunnableStays(before[id], at, world(id)); }
        }
      }
    }

    method Resume(candidate: SourceRecord, at: Time, world: PassInput)
      requires Holds(candidate)
      requires Runnable(candidate, at) && at != 0
      modifies store
      ensures store.Valid()
      ensures Left(old(store.State()), candidate.manifest.id, Reconciled(candidate, at, world))
    {
      hide ValidState, ValidID, AfterPrepare, AfterLaunch, AfterRetirePending, MayClose;
      var id := candidate.manifest.id;
      if candidate.state == SourceAccepted {
        var current := store.GetSource(id);
        var _, _ := RetirePending(current.value, world.seen, world.closed, world.after, at);
      } else if candidate.state == LaunchingRemote || candidate.state == LaunchRetryWait {
        var _ := AttemptLaunch(id, false, world.launch, at, at, at);
      } else {
        var _ := Attempt(id, false, world.prepare, at, at, at);
      }
    }
  }

  lemma NotRunnableStays(r: SourceRecord, at: Time, world: PassInput)
    requires at == 0 || !Runnable(r, at)
    ensures Reconciled(r, at, world) == r
  {
  }
}
