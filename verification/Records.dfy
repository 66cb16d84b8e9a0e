/**
 The durable handoff records of internal/handoff/record.go: their states, the
 legal transition tables and the validation every stored record passes.

 Instants are natural numbers with 0 as Go's zero time. A digest is the term
 Digest(m), so equal digests mean equal manifests, as for a collision-free hash.
 */
module Records {
  import opened Wrappers

  type Time = nat

  const MaxUint64: nat := 0xFFFF_FFFF_FFFF_FFFF
  const MaxUint32: nat := 0xFFFF_FFFF

  // ---- identities -------------------------------------------------------------------------

  predicate IsAlnum(c: char) {
    '0' <= c <= '9' || 'A' <= c <= 'Z' || 'a' <= c <= 'z'
  }

  predicate IsSafeChar(c: char) {
    IsAlnum(c) || c == '.' || c == '_' || c == '-'
  }

  /** A safe identifier: a letter or digit, then at most 127 more safe characters. */
  predicate ValidID(s: string) {
    && 1 <= |s| <= 128
    && IsAlnum(s[0])
    && (forall i :: 0 <= i < |s| ==> IsSafeChar(s[i]))
  }

  predicate IsScopeEdge(c: char) {
    '0' <= c <= '9' || 'a' <= c <= 'z'
  }

  predicate IsScopeChar(c: char) {
    IsScopeEdge(c) || c == '_' || c == '-'
  }

  /** A profile name: 1 to 63 characters that starts and ends with a letter or digit. */
  predicate ValidProfileName(s: string, maxLength: nat) {
    && 1 <= |s| <= maxLength
    && IsScopeEdge(s[0]) && IsScopeEdge(s[|s| - 1])
    && (forall i :: 0 <= i < |s| ==> IsScopeChar(s[i]))
  }

  const RootScope: string := "root"
  const ScopePrefix: string := "profile:"

  predicate ValidScope(s: string) {
    || s == RootScope
    || (ScopePrefix <= s && ValidProfileName(s[|ScopePrefix|..], 63))
  }

  datatype SourceSession = SourceSession(device: string, scope: string, session: string)

  datatype TargetAgent = TargetAgent(device: string, profile: string)

  /** The immutable manifest. `body` stands for the goal, history, repository and
      evidence fields, `bodyValid` for the checks on them. */
  datatype Manifest = Manifest(id: string, source: SourceSession, target: TargetAgent,
                               artifacts: nat, body: string, bodyValid: bool)

  predicate ValidManifest(m: Manifest) {
    && ValidID(m.id)
    && ValidID(m.source.device) && ValidScope(m.source.scope) && ValidID(m.source.session)
    && ValidID(m.target.device) && ValidID(m.target.profile)
    && m.source.device != m.target.device
    && m.bodyValid
  }

  datatype Digest = Digest(of: Manifest)

  datatype Locator = Locator(device: string, scope: string, session: string)

  predicate ValidLocator(l: Locator) {
    ValidID(l.device) && ValidScope(l.scope) && ValidID(l.session)
  }

  // ---- failures, acknowledgements and retirement --------------------------------------------

  datatype FailureCode =
    | Unavailable | Unauthorized | InvalidManifest | Conflict
    | MissingAsset | VerificationFailed | LaunchFailed | Internal
    | UnknownCode(text: string)

  /** The failure details the two applications write, named instead of spelled (each is one short line), and any
      other text. */
  datatype Message =
    | DeliveryNotReady
    | ArtifactsUnsupported
    | LaunchHistoryMismatch
    | LaunchAwaitsHistory
    | LaunchAwaitsRepository
    | LaunchRepositoryMismatch
    | LaunchProtocolMissing
    | PrepareProtocolMissing
    | InstructionsNotReady
    | RepositoryMismatch
    | RepositoryMissing
    | HistoryInvalid
    | HistoryMissing
    | AcceptedWithoutLocator
    | ProfileUnavailable
    | ContinuationConflict
    | EvidenceMissing
    | ContinuationNotReady
    | LocatorMissing
    | PreparationDenied
    | DeviceMismatch
    | PreparationInProgress
    | TargetAwaitsAssets
    | LaunchInProgress
    | LaunchAwaitsReadiness
    | LaunchNotGranted
    | RuntimeUnavailable
    | PeerUnavailable
    | ProjectUnregistered
    | RegistryInvalid
    | LaunchRejected
    | PreparationRejected
    | HandoffRequestRefused
    | LaunchRequestRefused
    | OutsideLaunch
    | OutsidePreparation
    | ConflictingIdentity
    | PersistenceNotReady
    | OtherText(text: string)

  /** At most 256 characters on one line. */
  predicate ValidMessageText(s: string) {
    && |s| <= 256
    && (forall i :: 0 <= i < |s| ==> s[i] != '\r' && s[i] != '\n' && s[i] != '\0')
  }

  datatype Failure = Failure(code: FailureCode, message: Message, retryable: bool, at: Time)

  predicate ValidFailure(f: Failure) {
    && !f.code.UnknownCode?
    && (f.message.OtherText? ==> ValidMessageText(f.message.text))
    && f.at != 0
  }

  datatype AckPhase = ContextLoaded | OtherPhase(text: string)

  datatype Ack = Ack(phase: AckPhase, digest: Digest, locator: Locator, at: Time)

  predicate ValidAck(a: Ack, digest: Digest, locator: Locator) {
    a.phase == ContextLoaded && a.digest == digest && a.locator == locator && a.at != 0 && ValidLocator(a.locator)
  }

  datatype RetirementMode = Immediate | AfterTurnEnd | OtherMode(text: string)

  datatype RetirementState = Pending | Retired

  datatype TurnObservation = TurnObservation(turnCount: int, lastTurnEnd: Option<Time>)

  datatype Retirement = Retirement(mode: RetirementMode, state: RetirementState, requestedAt: Time,
                                   timeoutSeconds: int, baseline: TurnObservation, retiredAt: Option<Time>)

  predicate ValidRetirement(r: Retirement) {
    && !r.mode.OtherMode?
    && r.requestedAt != 0
    && 1 <= r.timeoutSeconds <= 300
    && r.baseline.turnCount >= 0
    && r.baseline.lastTurnEnd != Some(0)
    && (r.state.Pending? ==> r.retiredAt.None?)
    && (r.state.Retired? ==> r.retiredAt.Some? && r.retiredAt.value != 0 && r.retiredAt.value >= r.requestedAt)
  }

  // ---- records ------------------------------------------------------------------------------

  datatype SourceState =
    | Queued | PreparingRemote | RemotePrepared | LaunchingRemote
    | SourceAccepted | RetryWait | LaunchRetryWait | SourceFailed

  datatype TargetState =
    | Received | Validating | Prepared | WaitingAssets
    | Launching | LaunchWaitingAssets | TargetAccepted | Rejected

  datatype SourceRecord = SourceRecord(manifest: Manifest, digest: Digest, state: SourceState, attempts: nat,
                                       nextRetry: Option<Time>, failure: Option<Failure>, locator: Option<Locator>,
                                       contextLoaded: Option<Ack>, retirement: Option<Retirement>,
                                       revision: nat, updated: Time)

  datatype TargetRecord = TargetRecord(manifest: Manifest, digest: Digest, state: TargetState, attempts: nat,
                                       nextRetry: Option<Time>, failure: Option<Failure>, locator: Option<Locator>,
                                       contextLoaded: Option<Ack>, revision: nat, updated: Time)

  predicate SourceRetryState(s: SourceState) { s.RetryWait? || s.LaunchRetryWait? }

  predicate TargetRetryState(s: TargetState) { s.WaitingAssets? || s.LaunchWaitingAssets? }

  /** The states in which a target record may carry the continuation's locator. */
  predicate TargetLocatorState(s: TargetState) { s.Launching? || s.LaunchWaitingAssets? || s.TargetAccepted? }

  predicate ValidFields(target: TargetAgent, nextRetry: Option<Time>, failure: Option<Failure>,
      locator: Option<Locator>,
                        revision: nat, updated: Time,
                        retry: bool, terminalFailure: bool, locatorAllowed: bool, locatorRequired: bool)
  {
    && 0 < revision <= MaxUint64
    && updated != 0
    && (if retry then nextRetry.Some? && nextRetry.value > updated && failure.Some? && failure.value.retryable
        else nextRetry.None?)
    && (terminalFailure ==> failure.Some?)
    && (!retry && !terminalFailure ==> failure.None?)
    && (failure.Some? ==> ValidFailure(failure.value) && failure.value.at <= updated)
    && (locatorRequired ==> locator.Some?)
    && (locator.Some? ==> locatorAllowed && ValidLocator(locator.value) && locator.value.device == target.device)
  }

  predicate ValidSource(r: SourceRecord) {
    && ValidManifest(r.manifest) && r.digest == Digest(r.manifest)
    && ValidFields(r.manifest.target, r.nextRetry, r.failure, r.locator, r.revision, r.updated,
                   SourceRetryState(r.state), r.state.SourceFailed?, r.state.SourceAccepted?, r.state.SourceAccepted?)
    && (r.contextLoaded.Some? ==>
          r.state.SourceAccepted? && r.locator.Some? && ValidAck(r.contextLoaded.value, r.digest, r.locator.value))
    && (r.retirement.Some? ==>
          r.state.SourceAccepted? && r.contextLoaded.Some? && ValidRetirement(r.retirement.value))
  }

  predicate ValidTarget(r: TargetRecord) {
    && ValidManifest(r.manifest) && r.digest == Digest(r.manifest)
    && ValidFields(r.manifest.target, r.nextRetry, r.failure, r.locator, r.revision, r.updated,
                   TargetRetryState(r.state), r.state.Rejected?, TargetLocatorState(r.state), r.state.TargetAccepted?)
    && (r.contextLoaded.Some? ==>
          r.state.TargetAccepted? && r.locator.Some? && ValidAck(r.contextLoaded.value, r.digest, r.locator.value))
  }

  // ---- legal transitions ----------------------------------------------------------------------

  predicate LegalSource(from: SourceState, to: SourceState) {
    match from
    case Queued => to.PreparingRemote? || to.SourceFailed?
    case PreparingRemote => to.RemotePrepared? || to.RetryWait? || to.SourceFailed?
    case RemotePrepared => to.LaunchingRemote? || to.RetryWait? || to.SourceFailed?
    case LaunchingRemote => to.SourceAccepted? || to.LaunchRetryWait? || to.SourceFailed?
    case RetryWait => to.PreparingRemote? || to.SourceFailed?
    case LaunchRetryWait => to.LaunchingRemote? || to.SourceFailed?
    case SourceAccepted => false
    case SourceFailed => false
  }

  predicate LegalTarget(from: TargetState, to: TargetState) {
    match from
    case Received => to.Validating? || to.Rejected?
    case Validating => to.Prepared? || to.WaitingAssets? || to.Rejected?
    case WaitingAssets => to.Validating? || to.Rejected?
    case Prepared => to.Launching? || to.Rejected?
    case Launching => to.TargetAccepted? || to.LaunchWaitingAssets? || to.Rejected?
    case LaunchWaitingAssets => to.Launching? || to.Rejected?
    case TargetAccepted => false
    case Rejected => false
  }
}
