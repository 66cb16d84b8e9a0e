/**
 The handoff store of internal/handoff/store.go.

 Every write is specified twice: as a function on one record and, through Apply,
 as a step of the whole store. The class Store performs the writes and is proved
 to take exactly those steps; StoreHistory proves what any sequence of them keeps.
 */
module RecordStore {
  import opened Wrappers
  import opened Records

  datatype StoreError =
    | NotFound | ManifestConflict | CasConflict | IllegalTransition | InvalidRequest
    | TargetNotAccepted | ContextNotLoaded | AckUnavailable

  /** What one state-machine step wants stored besides the next state; `at == 0` asks for the store's clock. */
  datatype Transition = Transition(at: Time, nextRetry: Option<Time>, failure: Option<Failure>,
      locator: Option<Locator>)

  /** The token a launched agent holds: the hash of the handoff's id and digest, or some other text. */
  datatype LaunchMarker = LaunchMarker(id: string, digest: Digest) | Malformed(text: string)

  const NanosPerSecond: int := 1_000_000_000

  function NextRevision(revision: nat): nat { (revision + 1) % (MaxUint64 + 1) }

  function NextAttempts(attempts: nat): nat { (attempts + 1) % (MaxUint32 + 1) }

  function Moment(at: Time, clock: Time): Time { if at == 0 then clock else at }

  // ---- writes on one record -------------------------------------------------------------------

  function NewSource(m: Manifest, clock: Time): SourceRecord {
    SourceRecord(m, Digest(m), Queued, 0, None, None, None, None, None, 1, clock)
  }

  function NewTarget(m: Manifest, clock: Time): TargetRecord {
    TargetRecord(m, Digest(m), Received, 0, None, None, None, None, 1, clock)
  }

  function KeptFailure(t: Transition, retry: bool, terminalFailure: bool): Option<Failure> {
    if retry || terminalFailure then t.failure else None
  }

  function KeptLocator(current: Option<Locator>, t: Transition, allowed: bool): Option<Locator> {
    if !allowed then None else if t.locator.Some? then t.locator else current
  }

  function SourceTransition(r: SourceRecord, expected: nat, next: SourceState, t: Transition, clock: Time)
    : Result<SourceRecord, StoreError>
  {
    var at := Moment(t.at, clock);
    var retry := SourceRetryState(next);
    var allowed := next.SourceAccepted?;
    var r' := r.(state := next, revision := NextRevision(r.revision), updated := at,
                 nextRetry := if retry then t.nextRetry else None,
                 failure := KeptFailure(t, retry, next.SourceFailed?),
                 locator := KeptLocator(r.locator, t, allowed),
                 attempts := if next.PreparingRemote? then NextAttempts(r.attempts) else r.attempts);
    if r.revision != expected then Err(CasConflict)
    else if !LegalSource(r.state, next) then Err(IllegalTransition)
    else if at < r.updated then Err(InvalidRequest)
    else if t.locator.Some? && !allowed then Err(InvalidRequest)
    else if !ValidSource(r') then Err(InvalidRequest)
    else Ok(r')
  }

  function TargetTransition(r: TargetRecord, expected: nat, next: TargetState, t: Transition, clock: Time)
    : Result<TargetRecord, StoreError>
  {
    var at := Moment(t.at, clock);
    var retry := TargetRetryState(next);
    var allowed := TargetLocatorState(next);
    var r' := r.(state := next, revision := NextRevision(r.revision), updated := at,
                 nextRetry := if retry then t.nextRetry else None,
                 failure := KeptFailure(t, retry, next.Rejected?),
                 locator := KeptLocator(r.locator, t, allowed),
                 attempts := if next.Validating? then NextAttempts(r.attempts) else r.attempts);
    if r.revision != expected then Err(CasConflict)
    else if !LegalTarget(r.state, next) then Err(IllegalTransition)
    else if at < r.updated then Err(InvalidRequest)
    else if t.locator.Some? && !allowed then Err(InvalidRequest)
    else if !ValidTarget(r') then Err(InvalidRequest)
    else Ok(r')
  }

  /** Binds a launch to one session; the same locator again changes nothing, another one is a conflict. */
  function BindLocator(r: TargetRecord, expected: nat, locator: Locator, at: Time, clock: Time): Result<TargetRecord,
      StoreError> {
    var when := Moment(at, clock);
    var r' := r.(locator := Some(locator), revision := NextRevision(r.revision), updated := when);
    if !ValidLocator(locator) then Err(InvalidRequest)
    else if r.revision != expected then Err(CasConflict)
    else if !r.state.Launching? then Err(IllegalTransition)
    else if locator.device != r.manifest.target.device then Err(InvalidRequest)
    else if r.locator.Some? then (if r.locator.value != locator then Err(ManifestConflict) else Ok(r))
    else if when < r.updated then Err(InvalidRequest)
    else if !ValidTarget(r') then Err(InvalidRequest)
    else Ok(r')
  }

  /** The bound session's own acknowledgement that it loaded the context. */
  function Acknowledge(r: TargetRecord, phase: AckPhase, scope: string, session: string, at: Time, clock: Time)
    : Result<TargetRecord, StoreError>
  {
    if !r.state.TargetAccepted? || r.locator.None? then Err(TargetNotAccepted)
    else if r.locator.value.scope != scope || r.locator.value.session != session then Err(AckUnavailable)
    else if r.contextLoaded.Some? then Ok(r)
    else
      var when := Moment(at, clock);
      var r' := r.(contextLoaded := Some(Ack(phase, r.digest, r.locator.value, when)),
                   revision := NextRevision(r.revision), updated := when);
      if when < r.updated || !ValidTarget(r') then Err(InvalidRequest) else Ok(r')
  }

  function RecordContext(r: SourceRecord, expected: nat, ack: Ack, at: Time, clock: Time): Result<SourceRecord,
      StoreError> {
    if !r.state.SourceAccepted? || r.locator.None? then Err(TargetNotAccepted)
    else if !ValidAck(ack, r.digest, r.locator.value) then Err(ManifestConflict)
    else if r.contextLoaded.Some? then (if r.contextLoaded.value != ack then Err(ManifestConflict) else Ok(r))
    else if r.revision != expected then Err(CasConflict)
    else
      var when := Moment(at, clock);
      var r' := r.(contextLoaded := Some(ack), revision := NextRevision(r.revision), updated := when);
      if when < r.updated || !ValidSource(r') then Err(InvalidRequest) else Ok(r')
  }

  predicate ValidRetirementRequest(mode: RetirementMode, timeout: int, baseline: TurnObservation) {
    && !mode.OtherMode?
    && NanosPerSecond <= timeout <= 300 * NanosPerSecond && timeout % NanosPerSecond == 0
    && baseline.turnCount >= 0 && baseline.lastTurnEnd != Some(0)
  }

  function RequestRetirement(r: SourceRecord, expected: nat, mode: RetirementMode, timeout: int,
      baseline: TurnObservation,
                             at: Time, clock: Time): Result<SourceRecord, StoreError>
  {
    if !ValidRetirementRequest(mode, timeout, baseline) then Err(InvalidRequest)
    else if !r.state.SourceAccepted? || r.contextLoaded.None? then Err(ContextNotLoaded)
    else if r.retirement.Some? then
      if r.retirement.value.mode != mode || r.retirement.value.timeoutSeconds != timeout / NanosPerSecond
      then Err(ManifestConflict) else Ok(r)
    else if r.revision != expected then Err(CasConflict)
    else
      var when := Moment(at, clock);
      var r' := r.(retirement := Some(Retirement(mode, Pending, when, timeout / NanosPerSecond, baseline, None)),
                   revision := NextRevision(r.revision), updated := when);
      if when < r.updated || !ValidSource(r') then Err(InvalidRequest) else Ok(r')
  }

  function CompleteRetirement(r: SourceRecord, expected: nat, at: Time, clock: Time): Result<SourceRecord, StoreError> {
    if r.retirement.None? then Err(ContextNotLoaded)
    else if r.retirement.value.state.Retired? then Ok(r)
    else if r.revision != expected then Err(CasConflict)
    else
      var when := Moment(at, clock);
      var r' := r.(retirement := Some(r.retirement.value.(state := Retired, retiredAt := Some(when))),
                   revision := NextRevision(r.revision), updated := when);
      if when < r.updated || when < r.retirement.value.requestedAt || !ValidSource(r') then Err(InvalidRequest)
      else Ok(r')
  }

  // ---- writes on the store ----------------------------------------------------------------------

  datatype StoreState = StoreState(source: map<string, SourceRecord>, target: map<string, TargetRecord>)

  datatype Op =
    | QueueSource(m: Manifest, clock: Time)
    | ReceiveTarget(m: Manifest, clock: Time)
    | MoveSource(id: string, expected: nat, sourceNext: SourceState, t: Transition, clock: Time)
    | MoveTarget(id: string, expected: nat, targetNext: TargetState, t: Transition, clock: Time)
    | BindTarget(id: string, expected: nat, locator: Locator, at: Time, clock: Time)
    | AckTarget(marker: LaunchMarker, phase: AckPhase, scope: string, session: string, at: Time, clock: Time)
    | RecordSourceContext(id: string, expected: nat, ack: Ack, at: Time, clock: Time)
    | RequestSourceRetirement(id: string, expected: nat, mode: RetirementMode, timeout: int, baseline: TurnObservation,
      at: Time, clock: Time)
    | CompleteSourceRetirement(id: string, expected: nat, at: Time, clock: Time)

  ghost predicate ValidState(s: StoreState) {
    && (forall id <- s.source :: ValidID(id) && ValidSource(s.source[id]) && s.source[id].manifest.id == id)
    && (forall id <- s.target :: ValidID(id) && ValidTarget(s.target[id]) && s.target[id].manifest.id == id)
  }

  function QueueResult(s: StoreState, m: Manifest, clock: Time): Result<SourceRecord, StoreError> {
    if !ValidManifest(m) then Err(InvalidRequest)
    else if m.id in s.source then
      if s.source[m.id].digest != Digest(m) then Err(ManifestConflict) else Ok(s.source[m.id])
    else if !ValidSource(NewSource(m, clock)) then Err(InvalidRequest)
    else Ok(NewSource(m, clock))
  }

  function ReceiveResult(s: StoreState, m: Manifest, clock: Time): Result<TargetRecord, StoreError> {
    if !ValidManifest(m) then Err(InvalidRequest)
    else if m.id in s.target then
      if s.target[m.id].digest != Digest(m) then Err(ManifestConflict) else Ok(s.target[m.id])
    else if !ValidTarget(NewTarget(m, clock)) then Err(InvalidRequest)
    else Ok(NewTarget(m, clock))
  }

  /** The record a source operation leaves, or why it was refused. */
  function SourceResult(s: StoreState, op: Op): Result<SourceRecord, StoreError>
    requires op.MoveSource? || op.RecordSourceContext? || op.RequestSourceRetirement? || op.CompleteSourceRetirement?
  {
    if op.RequestSourceRetirement? && !ValidRetirementRequest(op.mode, op.timeout, op.baseline) then Err(InvalidRequest)
    else if !ValidID(op.id) then Err(InvalidRequest)
    else if op.id !in s.source then Err(NotFound)
    else
      var r := s.source[op.id];
      match op
      case MoveSource(_, expected, next, t, clock) => SourceTransition(r, expected, next, t, clock)
      case RecordSourceContext(_, expected, ack, at, clock) => RecordContext(r, expected, ack, at, clock)
      case RequestSourceRetirement(_, expected, mode, timeout, baseline, at, clock) =>
        RequestRetirement(r, expected, mode, timeout, baseline, at, clock)
      case CompleteSourceRetirement(_, expected, at, clock) => CompleteRetirement(r, expected, at, clock)
  }

  /** The record a target operation leaves, or why it was refused. */
  function TargetResult(s: StoreState, op: Op): Result<TargetRecord, StoreError>
    requires op.MoveTarget? || op.BindTarget? || op.AckTarget?
  {
    match op
    case MoveTarget(id, expected, next, t, clock) =>
      if !ValidID(id) then Err(InvalidRequest)
      else if id !in s.target then Err(NotFound)
      else TargetTransition(s.target[id], expected, next, t, clock)
    case BindTarget(id, expected, locator, at, clock) =>
      if !ValidLocator(locator) || !ValidID(id) then Err(InvalidRequest)
      else if id !in s.target then Err(NotFound)
      else BindLocator(s.target[id], expected, locator, at, clock)
    case AckTarget(marker, phase, scope, session, at, clock) =>
      if !marker.LaunchMarker? || !phase.ContextLoaded? || scope == "" || session == "" then Err(AckUnavailable)
      else if marker.id in s.target && s.target[marker.id].digest == marker.digest
      then Acknowledge(s.target[marker.id], phase, scope, session, at, clock)
      else Err(AckUnavailable)
  }

  function OpId(op: Op): string {
    match op
    case QueueSource(m, _) => m.id
    case ReceiveTarget(m, _) => m.id
    case AckTarget(marker, _, _, _, _, _) => if marker.LaunchMarker? then marker.id else ""
    case _ => op.id
  }

  /** One store call: a refused call changes nothing, an accepted one replaces exactly one record. */
  function Apply(s: StoreState, op: Op): StoreState {
    if op.QueueSource? then
      var res := QueueResult(s, op.m, op.clock);
      if res.Ok? then s.(source := s.source[op.m.id := res.value]) else s
    else if op.ReceiveTarget? then
      var res := ReceiveResult(s, op.m, op.clock);
      if res.Ok? then s.(target := s.target[op.m.id := res.value]) else s
    else if op.MoveTarget? || op.BindTarget? || op.AckTarget? then
      var res := TargetResult(s, op);
      if res.Ok? then s.(target := s.target[OpId(op) := res.value]) else s
    else
      var res := SourceResult(s, op);
      if res.Ok? then s.(source := s.source[op.id := res.value]) else s
  }

  // ---- the recovery scans -------------------------------------------------------------------------

  predicate DueAt(nextRetry: Option<Time>, at: Time) { nextRetry.Some? && nextRetry.value <= at }

  /** Source work a restart may resume. RemotePrepared is absent: launching needs the operator. */
  predicate Runnable(r: SourceRecord, at: Time) {
    match r.state
    case Queued => true
    case PreparingRemote => true
    case LaunchingRemote => true
    case RetryWait => DueAt(r.nextRetry, at)
    case LaunchRetryWait => DueAt(r.nextRetry, at)
    case SourceAccepted => r.retirement.Some? && r.retirement.value.state.Pending?
    case RemotePrepared => false
    case SourceFailed => false
  }

  /** Target work a restart may resume. Prepared is absent until an explicit launch. */
  predicate Recoverable(r: TargetRecord, at: Time) {
    match r.state
    case Received => true
    case Validating => true
    case Launching => true
    case WaitingAssets => DueAt(r.nextRetry, at)
    case LaunchWaitingAssets => DueAt(r.nextRetry, at)
    case Prepared => false
    case TargetAccepted => false
    case Rejected => false
  }

  /** Under way and not waiting for a later time: not failed, not waiting for the operator's launch, not accepted with
      nothing left to retire, and no due time after `at`. */
  predicate SourceUnfinished(r: SourceRecord, at: Time) {
    && !(r.state.SourceFailed? || r.state.RemotePrepared?)
    && (r.state.SourceAccepted? ==> r.retirement.Some? && r.retirement.value.retiredAt.None?)
    && !(r.nextRetry.Some? && r.nextRetry.value > at)
  }

  /** Neither settled nor waiting for a launch request, and no due time after `at`. */
  predicate TargetUnfinished(r: TargetRecord, at: Time) {
    && !(r.state.Prepared? || r.state.TargetAccepted? || r.state.Rejected?)
    && !(r.nextRetry.Some? && r.nextRetry.value > at)
  }

  lemma RunnableExactly(r: SourceRecord, at: Time)
    requires ValidSource(r)
    ensures Runnable(r, at) <==> SourceUnfinished(r, at)
  {
    hide ValidManifest, ValidFailure, ValidAck, ValidLocator;
  }

  lemma RecoverableExactly(r: TargetRecord, at: Time)
    requires ValidTarget(r)
    ensures Recoverable(r, at) <==> TargetUnfinished(r, at)
  {
    hide ValidManifest, ValidFailure, ValidAck, ValidLocator;
  }

  /** In a valid store, what the two scans ask of each record is that it is unfinished and due. */
  lemma ScansExactly(s: StoreState, at: Time)
    requires ValidState(s)
    ensures forall id <- s.source ::
        ValidID(id) && ValidSource(s.source[id]) && s.source[id].manifest.id == id
        && (Runnable(s.source[id], at) <==> SourceUnfinished(s.source[id], at))
    ensures forall id <- s.target ::
        ValidID(id) && ValidTarget(s.target[id]) && s.target[id].manifest.id == id
        && (Recoverable(s.target[id], at) <==> TargetUnfinished(s.target[id], at))
  {
    hide ValidID, ValidSource, ValidTarget, Runnable, Recoverable, SourceUnfinished, TargetUnfinished;
    forall id <- s.source { RunnableExactly(s.source[id], at); }
    forall id <- s.target { RecoverableExactly(s.target[id], at); }
  }

  // ---- the store itself -----------------------------------------------------------------------------

  /** Each method is one atomic durable call; `clock` is the reading of the store's own clock. */
  class Store {
    var source: map<string, SourceRecord>
    var target: map<string, TargetRecord>

    ghost function State(): StoreState reads this { StoreState(source, target) }

    ghost predicate Valid() reads this { ValidState(State()) }

    constructor ()
      ensures Valid() && State() == StoreState(map[], map[])
    {
      source, target := map[], map[];
    }

    method PutSource(record: SourceRecord)
      requires Valid() && ValidSource(record)
      modifies this
      ensures Valid() && source == old(source)[record.manifest.id := record] && target == old(target)
    {
      source := source[record.manifest.id := record];
    }

    method PutTarget(record: TargetRecord)
      requires Valid() && ValidTarget(record)
      modifies this
      ensures Valid() && target == old(target)[record.manifest.id := record] && source == old(source)
    {
      target := target[record.manifest.id := record];
    }

    method QueueSource(m: Manifest, clock: Time) returns (res: Result<SourceRecord, StoreError>, replay: bool)
      requires Valid()
      modifies this
      ensures Valid()
      ensures res == QueueResult(old(State()), m, clock) && State() == Apply(old(State()), Op.QueueSource(m, clock))
      ensures replay == (res.Ok? && m.id in old(source))
      ensures source == (if res.Ok? then old(source)[m.id := res.value] else old(source)) && target == old(target)
    {
      hide ValidID, ValidSource, ValidTarget;
      if !ValidManifest(m) { return Err(InvalidRequest), false; }
      if m.id in source {
        var existing := source[m.id];
        if existing.digest != Digest(m) { return Err(ManifestConflict), false; }
        assert source[m.id := existing] == source;
        return Ok(existing), true;
      }
      var record := NewSource(m, clock);
      if !ValidSource(record) { return Err(InvalidRequest), false; }
      PutSource(record);
      return Ok(record), false;
    }

    method ReceiveTarget(m: Manifest, clock: Time) returns (res: Result<TargetRecord, StoreError>, replay: bool)
      requires Valid()
      modifies this
      ensures Valid()
      ensures res == ReceiveResult(old(State()), m, clock) && State() == Apply(old(State()), Op.ReceiveTarget(m, clock))
      ensures replay == (res.Ok? && m.id in old(target))
      ensures target == (if res.Ok? then old(target)[m.id := res.value] else old(target)) && source == old(source)
      ensures res.Ok? ==> res.value.manifest.id == m.id && ValidID(m.id)
    {
      hide ValidID, ValidSource, ValidTarget;
      if !ValidManifest(m) { return Err(InvalidRequest), false; }
      if m.id in target {
        var existing := target[m.id];
        if existing.digest != Digest(m) { return Err(ManifestConflict), false; }
        assert target[m.id := existing] == target;
        return Ok(existing), true;
      }
      var record := NewTarget(m, clock);
      if !ValidTarget(record) { return Err(InvalidRequest), false; }
      PutTarget(record);
      return Ok(record), false;
    }

    method GetSource(id: string) returns (res: Result<SourceRecord, StoreError>)
      requires Valid()
      ensures res == if !ValidID(id) then Err(InvalidRequest) else if id in source then Ok(source[id])
          else Err(NotFound)
      ensures res.Ok? ==> res.value.manifest.id == id
    {
      if !ValidID(id) { return Err(InvalidRequest); }
      if id !in source { return Err(NotFound); }
      return Ok(source[id]);
    }

    method GetTarget(id: string) returns (res: Result<TargetRecord, StoreError>)
      requires Valid()
      ensures res == if !ValidID(id) then Err(InvalidRequest) else if id in target then Ok(target[id])
          else Err(NotFound)
      ensures res.Ok? ==> res.value.manifest.id == id
    {
      if !ValidID(id) { return Err(InvalidRequest); }
      if id !in target { return Err(NotFound); }
      return Ok(target[id]);
    }

    method TransitionSource(id: string, expected: nat, next: SourceState, t: Transition, clock: Time)
      returns (res: Result<SourceRecord, StoreError>)
      requires Valid()
      modifies this
      ensures Valid()
      ensures ValidID(id) && id in old(source) ==> res == SourceTransition(old(source)[id], expected, next, t, clock)
      ensures !ValidID(id) || id !in old(source) ==> res.Err?
      ensures res.Ok? ==> res.value.manifest.id == id
      ensures source == (if res.Ok? then old(source)[id := res.value] else old(source)) && target == old(target)
      ensures var op := MoveSource(id, expected, next, t, clock);
              res == SourceResult(old(State()), op) && State() == Apply(old(State()), op)
    {
      hide ValidID, ValidSource, ValidTarget, ValidState;
      var found := GetSource(id);
      if found.Err? { return found; }
      var record := found.value;
      if record.revision != expected { return Err(CasConflict); }
      if !LegalSource(record.state, next) { return Err(IllegalTransition); }
      var at := t.at;
      if at == 0 { at := clock; }
      if at < record.updated { return Err(InvalidRequest); }
      var retry, allowed := next.RetryWait? || next.LaunchRetryWait?, next.SourceAccepted?;
      record := record.(state := next, revision := NextRevision(record.revision), updated := at);
      record := record.(nextRetry := None, failure := None);
      if retry {
        record := record.(nextRetry := t.nextRetry, failure := t.failure);
      } else if next.SourceFailed? {
        record := record.(failure := t.failure);
      }
      if t.locator.Some? && !allowed { return Err(InvalidRequest); }
      if !allowed {
        record := record.(locator := None);
      } else if t.locator.Some? {
        record := record.(locator := t.locator);
      }
      if next.PreparingRemote? {
        record := record.(attempts := NextAttempts(record.attempts));
      }
      if !ValidSource(record) { return Err(InvalidRequest); }
      PutSource(record);
      return Ok(record);
    }

    method TransitionTarget(id: string, expected: nat, next: TargetState, t: Transition, clock: Time)
      returns (res: Result<TargetRecord, StoreError>)
      requires Valid()
      modifies this
      ensures Valid()
      ensures ValidID(id) && id in old(target) ==> res == TargetTransition(old(target)[id], expected, next, t, clock)
      ensures !ValidID(id) || id !in old(target) ==> res.Err?
      ensures res.Ok? ==> res.value.manifest.id == id
      ensures target == (if res.Ok? then old(target)[id := res.value] else old(target)) && source == old(source)
      ensures var op := MoveTarget(id, expected, next, t, clock);
              res == TargetResult(old(State()), op) && State() == Apply(old(State()), op)
    {
      hide ValidID, ValidSource, ValidTarget, ValidState;
      var found := GetTarget(id);
      if found.Err? { return found; }
      var record := found.value;
      if record.revision != expected { return Err(CasConflict); }
      if !LegalTarget(record.state, next) { return Err(IllegalTransition); }
      var at := t.at;
      if at == 0 { at := clock; }
      if at < record.updated { return Err(InvalidRequest); }
      var retry := next.WaitingAssets? || next.LaunchWaitingAssets?;
      var allowed := next.Launching? || next.LaunchWaitingAssets? || next.TargetAccepted?;
      record := record.(state := next, revision := NextRevision(record.revision), updated := at);
      record := record.(nextRetry := None, failure := None);
      if retry {
        record := record.(nextRetry := t.nextRetry, failure := t.failure);
      } else if next.Rejected? {
        record := record.(failure := t.failure);
      }
      if t.locator.Some? && !allowed { return Err(InvalidRequest); }
      if !allowed {
        record := record.(locator := None);
      } else if t.locator.Some? {
        record := record.(locator := t.locator);
      }
      if next.Validating? {
        record := record.(attempts := NextAttempts(record.attempts));
      }
      if !ValidTarget(record) { return Err(InvalidRequest); }
      PutTarget(record);
      return Ok(record);
    }

    method RecordTargetLaunchLocator(id: string, expected: nat, locator: Locator, at: Time, clock: Time)
      returns (res: Result<TargetRecord, StoreError>)
      requires Valid()
      modifies this
      ensures Valid()
      ensures ValidID(id) && id in old(target) ==> res == BindLocator(old(target)[id], expected, locator, at, clock)
      ensures !ValidID(id) || id !in old(target) ==> res.Err?
      ensures res.Ok? ==> res.value.manifest.id == id
      ensures target == (if res.Ok? then old(target)[id := res.value] else old(target)) && source == old(source)
      ensures var op := BindTarget(id, expected, locator, at, clock);
              res == TargetResult(old(State()), op) && State() == Apply(old(State()), op)
    {
      hide ValidID, ValidSource, ValidTarget, ValidState;
      if !ValidLocator(locator) { return Err(InvalidRequest); }
      var found := GetTarget(id);
      if found.Err? { return found; }
      var record := found.value;
      if record.revision != expected { return Err(CasConflict); }
      if record.state != Launching { return Err(IllegalTransition); }
      if locator.device != record.manifest.target.device { return Err(InvalidRequest); }
      if record.locator.Some? {
        if record.locator.value != locator { return Err(ManifestConflict); }
        assert target[id := record] == target;
        return Ok(record);
      }
      var when := at;
      if when == 0 { when := clock; }
      if when < record.updated { return Err(InvalidRequest); }
      record := record.(locator := Some(locator), revision := NextRevision(record.revision), updated := when);
      if !ValidTarget(record) { return Err(InvalidRequest); }
      PutTarget(record);
      return Ok(record);
    }

    /** The scan compares hashes, so it must visit records until one matches. */
    method AcknowledgeTarget(marker: LaunchMarker, phase: AckPhase, scope: string, session: string, at: Time,
        clock: Time)
      returns (res: Result<TargetRecord, StoreError>, replay: bool)
      requires Valid()
      modifies this
      ensures Valid()
      ensures var op := AckTarget(marker, phase, scope, session, at, clock);
              res == TargetResult(old(State()), op) && State() == Apply(old(State()), op)
      ensures replay ==> State() == old(State())
    {
      hide ValidID, ValidSource, ValidTarget;
      if marker.Malformed? || phase != ContextLoaded || scope == "" || session == "" {
        return Err(AckUnavailable), false;
      }
      var ids := target.Keys;
      while ids != {}
        invariant ids <= target.Keys && State() == old(State()) && Valid()
        invariant forall id <- target.Keys - ids :: LaunchMarker(id, target[id].digest) != marker
        decreases ids
      {
        var id :| id in ids;
        ids := ids - {id};
        var record := target[id];
        if LaunchMarker(record.manifest.id, record.digest) != marker { continue; }
        if record.state != TargetAccepted || record.locator.None? { return Err(TargetNotAccepted), false; }
        if record.locator.value.scope != scope || record.locator.value.session != session {
          return Err(AckUnavailable), false;
        }
        if record.contextLoaded.Some? {
          assert target[id := record] == target;
          return Ok(record), true;
        }
        var when := at;
        if when == 0 { when := clock; }
        if when < record.updated { return Err(InvalidRequest), false; }
        record := record.(contextLoaded := Some(Ack(phase, record.digest, record.locator.value, when)),
                          revision := NextRevision(record.revision), updated := when);
        if !ValidTarget(record) { return Err(InvalidRequest), false; }
        PutTarget(record);
        return Ok(record), false;
      }
      return Err(AckUnavailable), false;
    }

    method RecordSourceContextLoaded(id: string, expected: nat, ack: Ack, at: Time, clock: Time)
      returns (res: Result<SourceRecord, StoreError>, replay: bool)
      requires Valid()
      modifies this
      ensures Valid()
      ensures ValidID(id) && id in old(source) ==> res == RecordContext(old(source)[id], expected, ack, at, clock)
      ensures !ValidID(id) || id !in old(source) ==> res.Err?
      ensures res.Ok? ==> res.value.manifest.id == id
      ensures source == (if res.Ok? then old(source)[id := res.value] else old(source)) && target == old(target)
      ensures var op := RecordSourceContext(id, expected, ack, at, clock);
              res == SourceResult(old(State()), op) && State() == Apply(old(State()), op)
      ensures replay ==> State() == old(State())
    {
      hide ValidID, ValidSource, ValidTarget, ValidState;
      var found := GetSource(id);
      if found.Err? { return found, false; }
      var record := found.value;
      if record.state != SourceAccepted || record.locator.None? { return Err(TargetNotAccepted), false; }
      if !ValidAck(ack, record.digest, record.locator.value) { return Err(ManifestConflict), false; }
      if record.contextLoaded.Some? {
        if record.contextLoaded.value != ack { return Err(ManifestConflict), false; }
        assert source[id := record] == source;
        return Ok(record), true;
      }
      if record.revision != expected { return Err(CasConflict), false; }
      var when := at;
      if when == 0 { when := clock; }
      if when < record.updated { return Err(InvalidRequest), false; }
      record := record.(contextLoaded := Some(ack), revision := NextRevision(record.revision), updated := when);
      if !ValidSource(record) { return Err(InvalidRequest), false; }
      PutSource(record);
      return Ok(record), false;
    }

    method RequestSourceRetirement(id: string, expected: nat, mode: RetirementMode, timeout: int,
        baseline: TurnObservation,
                                   at: Time, clock: Time)
      returns (res: Result<SourceRecord, StoreError>, replay: bool)
      requires Valid()
      modifies this
      ensures Valid()
      ensures ValidID(id) && id in old(source) ==>
          res == RequestRetirement(old(source)[id], expected, mode, timeout, baseline, at, clock)
      ensures !ValidID(id) || id !in old(source) ==> res.Err?
      ensures res.Ok? ==> res.value.manifest.id == id
      ensures source == (if res.Ok? then old(source)[id := res.value] else old(source)) && target == old(target)
      ensures var op := Op.RequestSourceRetirement(id, expected, mode, timeout, baseline, at, clock);
              res == SourceResult(old(State()), op) && State() == Apply(old(State()), op)
      ensures replay ==> State() == old(State())
    {
      hide ValidID, ValidSource, ValidTarget, ValidState;
      if !ValidRetirementRequest(mode, timeout, baseline) { return Err(InvalidRequest), false; }
      var found := GetSource(id);
      if found.Err? { return found, false; }
      var record := found.value;
      if record.state != SourceAccepted || record.contextLoaded.None? { return Err(ContextNotLoaded), false; }
      if record.retirement.Some? {
        if record.retirement.value.mode != mode || record.retirement.value.timeoutSeconds != timeout / NanosPerSecond {
          return Err(ManifestConflict), false;
        }
        assert source[id := record] == source;
        return Ok(record), true;
      }
      if record.revision != expected { return Err(CasConflict), false; }
      var when := at;
      if when == 0 { when := clock; }
      if when < record.updated { return Err(InvalidRequest), false; }
      record := record.(retirement := Some(Retirement(mode, Pending, when, timeout / NanosPerSecond, baseline, None)),
                        revision := NextRevision(record.revision), updated := when);
      if !ValidSource(record) { return Err(InvalidRequest), false; }
      PutSource(record);
      return Ok(record), false;
    }

    method CompleteSourceRetirement(id: string, expected: nat, at: Time, clock: Time)
      returns (res: Result<SourceRecord, StoreError>, replay: bool)
      requires Valid()
      modifies this
      ensures Valid()
      ensures ValidID(id) && id in old(source) ==> res == CompleteRetirement(old(source)[id], expected, at, clock)
      ensures !ValidID(id) || id !in old(source) ==> res.Err?
      ensures res.Ok? ==> res.value.manifest.id == id
      ensures source == (if res.Ok? then old(source)[id := res.value] else old(source)) && target == old(target)
      ensures var op := Op.CompleteSourceRetirement(id, expected, at, clock);
              res == SourceResult(old(State()), op) && State() == Apply(old(State()), op)
      ensures replay ==> State() == old(State())
    {
      hide ValidID, ValidSource, ValidTarget, ValidState;
      var found := GetSource(id);
      if found.Err? { return found, false; }
      var record := found.value;
      if record.retirement.None? { return Err(ContextNotLoaded), false; }
      var retirement := record.retirement.value;
      if retirement.state == Retired {
        assert source[id := record] == source;
        return Ok(record), true;
      }
      if record.revision != expected { return Err(CasConflict), false; }
      var when := at;
      if when == 0 { when := clock; }
      if when < record.updated || when < retirement.requestedAt { return Err(InvalidRequest), false; }
      record := record.(retirement := Some(retirement.(state := Retired, retiredAt := Some(when))),
                        revision := NextRevision(record.revision), updated := when);
      if !ValidSource(record) { return Err(InvalidRequest), false; }
      PutSource(record);
      return Ok(record), false;
    }

    /** The scan of a source restart: each record still under way and not waiting for a later time, once, and no other.
        Under way is every record that has not failed, does not wait for the operator's launch and is not accepted
        with nothing left to retire. */
    method RunnableSource(at: Time) returns (res: Result<seq<SourceRecord>, StoreError>)
      requires Valid()
      ensures res == Err(InvalidRequest) <==> at == 0
      ensures at != 0 ==> res.Ok?
      ensures res.Ok? ==> forall r <- res.value :: r.manifest.id in source && source[r.manifest.id] == r
      ensures res.Ok? ==> forall id <- source :: source[id] in res.value <==> SourceUnfinished(source[id], at)
      ensures res.Ok? ==> forall i, j :: 0 <= i < j < |res.value| ==>
          res.value[i].manifest.id != res.value[j].manifest.id
      ensures forall id <- source :: ValidID(id) && source[id].manifest.id == id && ValidSource(source[id])
    {
      hide ValidState, ValidID, ValidSource, ValidTarget, Runnable, SourceUnfinished;
      ScansExactly(State(), at);
      if at == 0 { return Err(InvalidRequest); }
      var out: seq<SourceRecord> := [];
      var ids := source.Keys;
      while ids != {}
        invariant ids <= source.Keys
        invariant forall r <- out :: r.manifest.id in source.Keys - ids && source[r.manifest.id] == r && Runnable(r, at)
        invariant forall id <- source.Keys - ids :: Runnable(source[id], at) ==> source[id] in out
        invariant forall i, j :: 0 <= i < j < |out| ==> out[i].manifest.id != out[j].manifest.id
        decreases ids
      {
        var id :| id in ids;
        ids := ids - {id};
        if Runnable(source[id], at) {
          assert forall i :: 0 <= i < |out| ==> out[i] in out;
          out := out + [source[id]];
        }
      }
      return Ok(out);
    }

    /** The same on the target: every record but a prepared, accepted or rejected one, from its due time on. */
    method RecoverableTarget(at: Time) returns (res: Result<seq<TargetRecord>, StoreError>)
      requires Valid()
      ensures res == Err(InvalidRequest) <==> at == 0
      ensures at != 0 ==> res.Ok?
      ensures res.Ok? ==> forall r <- res.value :: r.manifest.id in target && target[r.manifest.id] == r
      ensures res.Ok? ==> forall id <- target :: target[id] in res.value <==> TargetUnfinished(target[id], at)
      ensures res.Ok? ==> forall i, j :: 0 <= i < j < |res.value| ==>
          res.value[i].manifest.id != res.value[j].manifest.id
      ensures forall id <- target :: ValidID(id) && target[id].manifest.id == id && ValidTarget(target[id])
    {
      hide ValidState, ValidID, ValidSource, ValidTarget, Recoverable, TargetUnfinished;
      ScansExactly(State(), at);
      if at == 0 { return Err(InvalidRequest); }
      var out: seq<TargetRecord> := [];
      var ids := target.Keys;
      while ids != {}
        invariant ids <= target.Keys
        invariant forall r <- out ::
            r.manifest.id in target.Keys - ids && target[r.manifest.id] == r && Recoverable(r, at)
        invariant forall id <- target.Keys - ids :: Recoverable(target[id], at) ==> target[id] in out
        invariant forall i, j :: 0 <= i < j < |out| ==> out[i].manifest.id != out[j].manifest.id
        decreases ids
      {
        var id :| id in ids;
        ids := ids - {id};
        if Recoverable(target[id], at) {
          assert forall i :: 0 <= i < |out| ==> out[i] in out;
          out := out + [target[id]];
        }
      }
      return Ok(out);
    }
  }
}
