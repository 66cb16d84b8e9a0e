/**
 What each store write does, stated on its inputs: exactly when it is accepted, why it is
 refused otherwise, and the whole record it leaves.
 */
module StoreLaws {
  import opened Wrappers
  import opened Records
  import opened RecordStore

  // ---- which state may follow which ---------------------------------------------------------------

  /** From where each source state may be entered. Nothing enters `queued`, and nothing leaves a settled state. */
  lemma SourceEntries(from: SourceState)
    ensures !LegalSource(from, Queued)
    ensures LegalSource(from, PreparingRemote) <==> from.Queued? || from.RetryWait?
    ensures LegalSource(from, RemotePrepared) <==> from.PreparingRemote?
    ensures LegalSource(from, RetryWait) <==> from.PreparingRemote? || from.RemotePrepared?
    ensures LegalSource(from, LaunchingRemote) <==> from.RemotePrepared? || from.LaunchRetryWait?
    ensures LegalSource(from, LaunchRetryWait) <==> from.LaunchingRemote?
    ensures LegalSource(from, SourceAccepted) <==> from.LaunchingRemote?
    ensures LegalSource(from, SourceFailed) <==> !from.SourceAccepted? && !from.SourceFailed?
  {
  }

  lemma TargetEntries(from: TargetState)
    ensures !LegalTarget(from, Received)
    ensures LegalTarget(from, Validating) <==> from.Received? || from.WaitingAssets?
    ensures LegalTarget(from, Prepared) <==> from.Validating?
    ensures LegalTarget(from, WaitingAssets) <==> from.Validating?
    ensures LegalTarget(from, Launching) <==> from.Prepared? || from.LaunchWaitingAssets?
    ensures LegalTarget(from, LaunchWaitingAssets) <==> from.Launching?
    ensures LegalTarget(from, TargetAccepted) <==> from.Launching?
    ensures LegalTarget(from, Rejected) <==> !from.TargetAccepted? && !from.Rejected?
  {
  }

  // ---- what a stored record may be ------------------------------------------------------------------

  predicate Letter(c: char) { 'a' <= c <= 'z' || 'A' <= c <= 'Z' }

  predicate Numeral(c: char) { '0' <= c <= '9' }

  /** An id is a file name that stays in its directory: at most 128 plain characters, none of them a separator, and no
      leading dot or dash. */
  lemma IdsAreFileNames(s: string)
    ensures ValidID(s) <==>
              && 0 < |s| < 129 && s[0] !in "._-"
              && forall i :: 0 <= i < |s| ==> Letter(s[i]) || Numeral(s[i]) || s[i] in "._-"
    ensures ValidID(s) ==> s != "" && s != "." && s != ".." && '/' !in s && '\\' !in s && '\0' !in s
  {
  }

  /** A scope is the root or a profile of at most 63 lower-case characters between two letters or digits. */
  lemma ScopesAre(s: string)
    ensures ValidScope(s) <==>
              || s == "root"
              || (&& |s| > 8 && s[..8] == "profile:" && |s| < 8 + 64
                  && s[8] !in "_-" && s[|s| - 1] !in "_-"
                  && forall i :: 8 <= i < |s| ==> 'a' <= s[i] <= 'z' || Numeral(s[i]) || s[i] in "_-")
  {
    if ScopePrefix <= s {
      var name := s[8..];
      assert |ScopePrefix| == 8 && name == s[|ScopePrefix|..];
      assert forall i :: 0 <= i < |name| ==> name[i] == s[i + 8];
      assert forall i :: 8 <= i < |s| ==> s[i] == name[i - 8];
      assert |name| > 0 ==> name[0] == s[8] && name[|name| - 1] == s[|s| - 1];
    }
  }

  /** A failure's detail is one line of at most 256 characters. */
  lemma DetailsAreShortLines(s: string)
    ensures ValidMessageText(s) <==> |s| < 257 && '\r' !in s && '\n' !in s && '\0' !in s
  {
  }

  /** A manifest joins two different devices, each named by an id, and a locator names an id in a scope. */
  lemma ManifestsJoinTwoDevices(m: Manifest, l: Locator)
    ensures ValidManifest(m) <==>
              && m.bodyValid && m.source.device != m.target.device && ValidScope(m.source.scope)
              && forall s <- {m.id, m.source.device, m.source.session, m.target.device, m.target.profile} :: ValidID(s)
    ensures ValidLocator(l) <==> ValidScope(l.scope) && ValidID(l.device) && ValidID(l.session)
  {
    hide ValidID, ValidScope;
  }

  /** A failure that may be stored at a time: of a known code, on one short line, dated no later. */
  predicate Storable(failure: Option<Failure>, at: Time) {
    && failure.Some? && !failure.value.code.UnknownCode? && 0 < failure.value.at <= at
    && (failure.value.message.OtherText? ==> ValidMessageText(failure.value.message.text))
  }

  /** A retry that may be stored at a time: a retryable failure and a later due time. */
  predicate StorableRetry(nextRetry: Option<Time>, failure: Option<Failure>, at: Time) {
    Storable(failure, at) && failure.value.retryable && nextRetry.Some? && nextRetry.value > at
  }

  predicate OnTarget(locator: Option<Locator>, m: Manifest) {
    locator.Some? ==> ValidLocator(locator.value) && locator.value.device == m.target.device
  }

  /** What a valid source record looks like in each state: the due time, the failure, the locator, the proof and the
      retirement are there exactly where they mean something. */
  lemma SourceShape(r: SourceRecord)
    ensures ValidSource(r) <==>
              && ValidManifest(r.manifest) && r.digest == Digest(r.manifest)
              && 1 <= r.revision <= 0xFFFF_FFFF_FFFF_FFFF && r.updated > 0
              && (if r.state.RetryWait? || r.state.LaunchRetryWait? then
                StorableRetry(r.nextRetry, r.failure, r.updated)
                  else r.nextRetry.None?
                       && (if r.state.SourceFailed? then Storable(r.failure, r.updated) else r.failure.None?))
              && (r.locator.Some? <==> r.state.SourceAccepted?) && OnTarget(r.locator, r.manifest)
              && (r.contextLoaded.Some? ==>
                    && r.locator.Some? && r.contextLoaded.value.phase.ContextLoaded?
                    && r.contextLoaded.value.digest == r.digest && Some(r.contextLoaded.value.locator) == r.locator
                    && r.contextLoaded.value.at > 0)
              && (r.retirement.Some? ==> r.contextLoaded.Some? && ValidRetirement(r.retirement.value))
  {
    hide ValidManifest, ValidLocator, ValidRetirement;
  }

  lemma TargetShape(r: TargetRecord)
    ensures ValidTarget(r) <==>
              && ValidManifest(r.manifest) && r.digest == Digest(r.manifest)
              && 1 <= r.revision <= 0xFFFF_FFFF_FFFF_FFFF && r.updated > 0
              && (if r.state.WaitingAssets? || r.state.LaunchWaitingAssets?
                  then StorableRetry(r.nextRetry, r.failure, r.updated)
                  else r.nextRetry.None?
                       && (if r.state.Rejected? then Storable(r.failure, r.updated) else r.failure.None?))
              && (r.locator.Some? ==> r.state.Launching? || r.state.LaunchWaitingAssets? || r.state.TargetAccepted?)
              && (r.state.TargetAccepted? ==> r.locator.Some?) && OnTarget(r.locator, r.manifest)
              && (r.contextLoaded.Some? ==>
                    && r.state.TargetAccepted? && r.contextLoaded.value.phase.ContextLoaded?
                    && r.contextLoaded.value.digest == r.digest && Some(r.contextLoaded.value.locator) == r.locator
                    && r.contextLoaded.value.at > 0)
  {
    hide ValidManifest, ValidLocator;
  }

  /** A retirement is stored with known options, and with an end exactly when it is over. */
  lemma RetirementShape(r: Retirement)
    ensures ValidRetirement(r) <==>
              && (r.mode.Immediate? || r.mode.AfterTurnEnd?) && r.requestedAt > 0 && 1 <= r.timeoutSeconds <= 300
              && r.baseline.turnCount >= 0 && (r.baseline.lastTurnEnd.Some? ==> r.baseline.lastTurnEnd.value > 0)
              && (match r.state
                  case Pending => r.retiredAt.None?
                  case Retired => r.retiredAt.Some? && r.retiredAt.value >= r.requestedAt)
  {
  }

  // ---- transitions ----------------------------------------------------------------------------------

  /** The write time: the caller's, or the store's clock when it gives none. */
  function Written(at: Time, clock: Time): Time { if at > 0 then at else clock }

  /** A source transition is accepted exactly for the caller that knows the last revision, along a legal edge, not
      before the last write, with what the next state needs; it leaves exactly this record. */
  lemma SourceMoves(r: SourceRecord, expected: nat, next: SourceState, t: Transition, clock: Time)
    requires ValidSource(r)
    ensures var res := SourceTransition(r, expected, next, t, clock); var at := Written(t.at, clock);
            var retry := next.RetryWait? || next.LaunchRetryWait?;
            && (res.Ok? <==>
                  && r.revision == expected < 0xFFFF_FFFF_FFFF_FFFF && LegalSource(r.state, next) && r.updated <= at
                  && (retry ==> StorableRetry(t.nextRetry, t.failure, at))
                  && (next.SourceFailed? ==> Storable(t.failure, at))
                  && (next.SourceAccepted? <==> t.locator.Some?) && OnTarget(t.locator, r.manifest))
            && (res == Err(CasConflict) <==> r.revision != expected)
            && (res == Err(IllegalTransition) <==> r.revision == expected && !LegalSource(r.state, next))
            && (res.Err? ==> res.error in {CasConflict, IllegalTransition, InvalidRequest})
            && (res.Ok? ==>
                  res.value == SourceRecord(r.manifest, r.digest, next,
                    if next.PreparingRemote? then (if r.attempts % 0x1_0000_0000 == 0xFFFF_FFFF then 0
                      else r.attempts % 0x1_0000_0000 + 1) else r.attempts,
                    if retry then t.nextRetry else None, if retry || next.SourceFailed? then t.failure else None,
                    t.locator, None, None, r.revision + 1, at))
  {
    SourceShape(r);
    SourceEntries(r.state);
    var at := Written(t.at, clock);
    var r' := r.(state := next, revision := NextRevision(r.revision), updated := at,
                 nextRetry := if SourceRetryState(next) then t.nextRetry else None,
                 failure := KeptFailure(t, SourceRetryState(next), next.SourceFailed?),
                 locator := KeptLocator(r.locator, t, next.SourceAccepted?),
                 attempts := if next.PreparingRemote? then NextAttempts(r.attempts) else r.attempts);
    SourceShape(r');
    hide ValidSource, ValidManifest, ValidLocator, ValidRetirement, LegalSource, Storable;
  }

  lemma TargetMoves(r: TargetRecord, expected: nat, next: TargetState, t: Transition, clock: Time)
    requires ValidTarget(r)
    ensures var res := TargetTransition(r, expected, next, t, clock); var at := Written(t.at, clock);
            var retry := next.WaitingAssets? || next.LaunchWaitingAssets?;
            var named := next.Launching? || next.LaunchWaitingAssets? || next.TargetAccepted?;
            var locator := if t.locator.Some? then t.locator else if named then r.locator else None;
            && (res.Ok? <==>
                  && r.revision == expected < 0xFFFF_FFFF_FFFF_FFFF && LegalTarget(r.state, next) && r.updated <= at
                  && (retry ==> StorableRetry(t.nextRetry, t.failure, at))
                  && (next.Rejected? ==> Storable(t.failure, at))
                  && (t.locator.Some? ==> named) && OnTarget(t.locator, r.manifest)
                  && (next.TargetAccepted? ==> locator.Some?))
            && (res == Err(CasConflict) <==> r.revision != expected)
            && (res == Err(IllegalTransition) <==> r.revision == expected && !LegalTarget(r.state, next))
            && (res.Err? ==> res.error in {CasConflict, IllegalTransition, InvalidRequest})
            && (res.Ok? ==>
                  res.value == TargetRecord(r.manifest, r.digest, next,
                    if next.Validating? then (if r.attempts % 0x1_0000_0000 == 0xFFFF_FFFF then 0
                      else r.attempts % 0x1_0000_0000 + 1) else r.attempts,
                    if retry then t.nextRetry else None, if retry || next.Rejected? then t.failure else None,
                    locator, None, r.revision + 1, at))
  {
    TargetShape(r);
    TargetEntries(r.state);
    var at := Written(t.at, clock);
    var r' := r.(state := next, revision := NextRevision(r.revision), updated := at,
                 nextRetry := if TargetRetryState(next) then t.nextRetry else None,
                 failure := KeptFailure(t, TargetRetryState(next), next.Rejected?),
                 locator := KeptLocator(r.locator, t, TargetLocatorState(next)),
                 attempts := if next.Validating? then NextAttempts(r.attempts) else r.attempts);
    TargetShape(r');
    hide ValidTarget, ValidManifest, ValidLocator, LegalTarget, Storable;
  }

  // ---- the target's other writes ---------------------------------------------------------------------

  /** A launching record is bound exactly once: to the first admissible locator on its device, and the same locator
      again changes nothing. */
  lemma Binds(r: TargetRecord, expected: nat, locator: Locator, at: Time, clock: Time)
    requires ValidTarget(r)
    ensures var res := BindLocator(r, expected, locator, at, clock); var when := Written(at, clock);
            && (res.Ok? <==>
                  && r.revision == expected && r.state.Launching?
                  && ValidLocator(locator) && locator.device == r.manifest.target.device
                  && (r.locator == Some(locator)
                      || (r.locator.None? && r.revision < 0xFFFF_FFFF_FFFF_FFFF && r.updated <= when)))
            && (res == Err(CasConflict) <==> ValidLocator(locator) && r.revision != expected)
            && (res == Err(IllegalTransition) <==>
                  ValidLocator(locator) && r.revision == expected && !r.state.Launching?)
            && (res == Err(ManifestConflict) <==>
                  && ValidLocator(locator) && r.revision == expected && r.state.Launching?
                  && locator.device == r.manifest.target.device && r.locator.Some? && r.locator != Some(locator))
            && (res.Err? ==> res.error in {CasConflict, IllegalTransition, ManifestConflict, InvalidRequest})
            && (res.Ok? && r.locator.Some? ==> res.value == r)
            && (res.Ok? && r.locator.None? ==>
                  res.value == TargetRecord(r.manifest, r.digest, Launching, r.attempts, None, None, Some(locator),
                    None,
                    r.revision + 1, when))
  {
    TargetShape(r);
    var when := Written(at, clock);
    TargetShape(r.(locator := Some(locator), revision := NextRevision(r.revision), updated := when));
    hide ValidTarget, ValidManifest, ValidLocator, Storable;
  }

  /** An accepted record takes its bound session's acknowledgement once; a later one is a replay of the first. */
  lemma Acknowledges(r: TargetRecord, scope: string, session: string, at: Time, clock: Time)
    requires ValidTarget(r)
    ensures var res := Acknowledge(r, ContextLoaded, scope, session, at, clock); var when := Written(at, clock);
            && (res == Err(TargetNotAccepted) <==> !r.state.TargetAccepted?)
            && (res == Err(AckUnavailable) <==>
                  r.state.TargetAccepted? && (r.locator.value.scope != scope || r.locator.value.session != session))
            && (res.Ok? <==>
                  && r.state.TargetAccepted? && r.locator.value.scope == scope && r.locator.value.session == session
                  && (r.contextLoaded.Some? || (r.revision < 0xFFFF_FFFF_FFFF_FFFF && r.updated <= when)))
            && (res.Err? ==> res.error in {TargetNotAccepted, AckUnavailable, InvalidRequest})
            && (res.Ok? && r.contextLoaded.Some? ==> res.value == r)
            && (res.Ok? && r.contextLoaded.None? ==>
                  res.value == TargetRecord(r.manifest, r.digest, TargetAccepted, r.attempts, None, None, r.locator,
                    Some(Ack(ContextLoaded, r.digest, r.locator.value, when)), r.revision + 1, when))
  {
    TargetShape(r);
    if r.state.TargetAccepted? {
      var when := Written(at, clock);
      TargetShape(r.(contextLoaded := Some(Ack(ContextLoaded, r.digest, r.locator.value, when)),
                     revision := NextRevision(r.revision), updated := when));
    }
    hide ValidTarget, ValidManifest, ValidLocator, Storable;
  }

  /** The acknowledging agent names no handoff: its marker does. Only the marker of a stored record's own id and
      digest reaches that record, with the one phase there is and a named session. */
  lemma AcknowledgementReaches(s: StoreState, marker: LaunchMarker, phase: AckPhase, scope: string, session: string,
      at: Time, clock: Time)
    requires ValidState(s)
    ensures var op := AckTarget(marker, phase, scope, session, at, clock);
            && (TargetResult(s, op).Ok? ==>
                  exists id <- s.target :: marker == LaunchMarker(id, s.target[id].digest) && phase.ContextLoaded?)
            && (forall id <- s.target ::
                  marker == LaunchMarker(id, s.target[id].digest) && phase.ContextLoaded? && scope != ""
                    && session != "" ==>
                    TargetResult(s, op) == Acknowledge(s.target[id], ContextLoaded, scope, session, at, clock))
            && ((!phase.ContextLoaded? || scope == "" || session == ""
                 || forall id <- s.target :: marker != LaunchMarker(id, s.target[id].digest)) ==>
                  TargetResult(s, op) == Err(AckUnavailable))
            && (TargetResult(s, op).Ok? ==>
                  Apply(s, op) == StoreState(s.source, s.target[marker.id := TargetResult(s, op).value]))
            && (TargetResult(s, op).Err? ==> Apply(s, op) == s)
  {
    hide ValidTarget, ValidSource, ValidID, Acknowledge;
  }

  // ---- the source's other writes ---------------------------------------------------------------------

  /** An accepted record takes the proof of its own digest and locator once; another proof is a conflict. */
  lemma Proves(r: SourceRecord, expected: nat, ack: Ack, at: Time, clock: Time)
    requires ValidSource(r)
    ensures var res := RecordContext(r, expected, ack, at, clock); var when := Written(at, clock);
            && (res == Err(TargetNotAccepted) <==> !r.state.SourceAccepted?)
            && (res.Ok? <==>
                  && r.state.SourceAccepted?
                  && ack == Ack(ContextLoaded, r.digest, r.locator.value, ack.at) && ack.at > 0
                  && (r.contextLoaded == Some(ack)
                      || (r.contextLoaded.None? && r.revision == expected < 0xFFFF_FFFF_FFFF_FFFF
                        && r.updated <= when)))
            && (res == Err(ManifestConflict) <==>
                  && r.state.SourceAccepted?
                  && (ack != Ack(ContextLoaded, r.digest, r.locator.value, ack.at) || ack.at == 0
                      || (r.contextLoaded.Some? && r.contextLoaded != Some(ack))))
            && (res == Err(CasConflict) <==>
                  && r.state.SourceAccepted? && r.contextLoaded.None? && r.revision != expected
                  && ack == Ack(ContextLoaded, r.digest, r.locator.value, ack.at) && ack.at > 0)
            && (res.Err? ==> res.error in {TargetNotAccepted, ManifestConflict, CasConflict, InvalidRequest})
            && (res.Ok? && r.contextLoaded.Some? ==> res.value == r)
            && (res.Ok? && r.contextLoaded.None? ==>
                  res.value == SourceRecord(r.manifest, r.digest, SourceAccepted, r.attempts, None, None, r.locator,
                    Some(ack), None, r.revision + 1, when))
  {
    SourceShape(r);
    var when := Written(at, clock);
    SourceShape(r.(contextLoaded := Some(ack), revision := NextRevision(r.revision), updated := when));
    hide ValidSource, ValidManifest, ValidLocator, ValidRetirement, Storable;
  }

  /** A proved record takes one retirement request with admissible options; only the same options may be asked again. */
  lemma Requests(r: SourceRecord, expected: nat, mode: RetirementMode, timeout: int, baseline: TurnObservation,
      at: Time, clock: Time)
    requires ValidSource(r)
    ensures var res := RequestRetirement(r, expected, mode, timeout, baseline, at, clock);
        var when := Written(at, clock);
            var admissible := (mode.Immediate? || mode.AfterTurnEnd?) && timeout % 1_000_000_000 == 0
              && 1 <= timeout / 1_000_000_000 <= 300 && baseline.turnCount >= 0
              && (baseline.lastTurnEnd.Some? ==> baseline.lastTurnEnd.value > 0);
            && (res.Ok? <==>
                  && admissible && r.contextLoaded.Some?
                  && (if r.retirement.Some?
                      then r.retirement.value.mode == mode
                        && r.retirement.value.timeoutSeconds == timeout / 1_000_000_000
                      else r.revision == expected < 0xFFFF_FFFF_FFFF_FFFF && r.updated <= when))
            && (res == Err(ContextNotLoaded) <==> admissible && r.contextLoaded.None?)
            && (res == Err(ManifestConflict) <==>
                  && admissible && r.retirement.Some?
                  && (r.retirement.value.mode != mode || r.retirement.value.timeoutSeconds != timeout / 1_000_000_000))
            && (res == Err(CasConflict) <==>
                  admissible && r.contextLoaded.Some? && r.retirement.None? && r.revision != expected)
            && (res.Err? ==> res.error in {InvalidRequest, ContextNotLoaded, ManifestConflict, CasConflict})
            && (res.Ok? && r.retirement.Some? ==> res.value == r)
            && (res.Ok? && r.retirement.None? ==>
                  res.value == SourceRecord(r.manifest, r.digest, SourceAccepted, r.attempts, None, None, r.locator,
                    r.contextLoaded, Some(Retirement(mode, Pending, when, timeout / 1_000_000_000, baseline, None)),
                    r.revision + 1, when))
  {
    SourceShape(r);
    var when := Written(at, clock);
    var asked := Retirement(mode, Pending, when, timeout / NanosPerSecond, baseline, None);
    RetirementShape(asked);
    SourceShape(r.(retirement := Some(asked), revision := NextRevision(r.revision), updated := when));
    hide ValidSource, ValidManifest, ValidLocator, ValidRetirement, Storable;
  }

  /** A pending retirement ends once, no earlier than it was asked for. */
  lemma Completes(r: SourceRecord, expected: nat, at: Time, clock: Time)
    requires ValidSource(r)
    ensures var res := CompleteRetirement(r, expected, at, clock); var when := Written(at, clock);
            && (res == Err(ContextNotLoaded) <==> r.retirement.None?)
            && (res.Ok? <==>
                  && r.retirement.Some?
                  && (r.retirement.value.retiredAt.Some?
                      || (r.revision == expected < 0xFFFF_FFFF_FFFF_FFFF && r.updated <= when
                          && r.retirement.value.requestedAt <= when)))
            && (res == Err(CasConflict) <==>
                  r.retirement.Some? && r.retirement.value.retiredAt.None? && r.revision != expected)
            && (res.Err? ==> res.error in {ContextNotLoaded, CasConflict, InvalidRequest})
            && (res.Ok? && r.retirement.value.retiredAt.Some? ==> res.value == r)
            && (res.Ok? && r.retirement.value.retiredAt.None? ==>
                  res.value == SourceRecord(r.manifest, r.digest, SourceAccepted, r.attempts, None, None, r.locator,
                    r.contextLoaded, Some(Retirement(r.retirement.value.mode, Retired, r.retirement.value.requestedAt,
                      r.retirement.value.timeoutSeconds, r.retirement.value.baseline, Some(when))),
                    r.revision + 1, when))
  {
    SourceShape(r);
    if r.retirement.Some? {
      var when := Written(at, clock);
      var done := r.retirement.value.(state := Retired, retiredAt := Some(when));
      RetirementShape(r.retirement.value);
      RetirementShape(done);
      SourceShape(r.(retirement := Some(done), revision := NextRevision(r.revision), updated := when));
    }
    hide ValidSource, ValidManifest, ValidLocator, ValidRetirement, Storable;
  }

  // ---- whole calls ---------------------------------------------------------------------------------------

  /** A manifest is stored once: the same one again is answered with its record as it is now, another one under the
      same id is a conflict. */
  lemma Stores(s: StoreState, m: Manifest, clock: Time)
    requires ValidState(s)
    ensures var res := QueueResult(s, m, clock);
            && (res.Ok? <==> ValidManifest(m) && (if m.id in s.source then s.source[m.id].manifest == m else clock > 0))
            && (res == Err(ManifestConflict) <==> ValidManifest(m) && m.id in s.source && s.source[m.id].manifest != m)
            && (res.Err? ==> res.error in {InvalidRequest, ManifestConflict} && Apply(s, QueueSource(m, clock)) == s)
            && (res.Ok? ==> Apply(s, QueueSource(m, clock)) == StoreState(s.source[m.id := res.value], s.target))
            && (res.Ok? && m.id in s.source ==> res.value == s.source[m.id] && Apply(s, QueueSource(m, clock)) == s)
            && (res.Ok? && m.id !in s.source ==>
                  res.value == SourceRecord(m, Digest(m), Queued, 0, None, None, None, None, None, 1, clock))
    ensures var res := ReceiveResult(s, m, clock);
            && (res.Ok? <==> ValidManifest(m) && (if m.id in s.target then s.target[m.id].manifest == m else clock > 0))
            && (res == Err(ManifestConflict) <==> ValidManifest(m) && m.id in s.target && s.target[m.id].manifest != m)
            && (res.Err? ==> res.error in {InvalidRequest, ManifestConflict} && Apply(s, ReceiveTarget(m, clock)) == s)
            && (res.Ok? ==> Apply(s, ReceiveTarget(m, clock)) == StoreState(s.source, s.target[m.id := res.value]))
            && (res.Ok? && m.id in s.target ==> res.value == s.target[m.id] && Apply(s, ReceiveTarget(m, clock)) == s)
            && (res.Ok? && m.id !in s.target ==>
                  res.value == TargetRecord(m, Digest(m), Received, 0, None, None, None, None, 1, clock))
  {
    SourceShape(NewSource(m, clock));
    TargetShape(NewTarget(m, clock));
    assert m.id in s.source ==> s.source[m.id].digest == Digest(s.source[m.id].manifest);
    assert m.id in s.target ==> s.target[m.id].digest == Digest(s.target[m.id].manifest);
    hide ValidState, ValidSource, ValidTarget, ValidManifest;
    assert m.id in s.source ==> s.source[m.id := s.source[m.id]] == s.source;
    assert m.id in s.target ==> s.target[m.id := s.target[m.id]] == s.target;
  }

  /** The call's own id and record decide, what it accepts is stored, and nobody else's record is touched. */
  lemma CallsReachTheirRecord(s: StoreState, op: Op)
    requires op.MoveSource? || op.MoveTarget? || op.BindTarget? || op.RecordSourceContext?
        || op.RequestSourceRetirement? || op.CompleteSourceRetirement?
    ensures op.MoveTarget? || op.BindTarget? ==>
              var res := TargetResult(s, op);
              && Apply(s, op) == (if res.Ok? then StoreState(s.source, s.target[op.id := res.value]) else s)
              && (res.Ok? ==> ValidID(op.id) && op.id in s.target)
              && ((op.BindTarget? ==> ValidLocator(op.locator)) && op.id !in s.target ==>
                    res == Err(if ValidID(op.id) then NotFound else InvalidRequest))
              && (op.BindTarget? && !ValidLocator(op.locator) ==> res == Err(InvalidRequest))
    ensures !op.MoveTarget? && !op.BindTarget? ==>
              var res := SourceResult(s, op);
              && Apply(s, op) == (if res.Ok? then StoreState(s.source[op.id := res.value], s.target) else s)
              && (res.Ok? ==> ValidID(op.id) && op.id in s.source)
              && var admissible := op.RequestSourceRetirement? ==>
                ValidRetirementRequest(op.mode, op.timeout, op.baseline);
              && (!admissible ==> res == Err(InvalidRequest))
              && (admissible && op.id !in s.source ==> res == Err(if ValidID(op.id) then NotFound else InvalidRequest))
  {
    hide ValidID, SourceTransition, TargetTransition, BindLocator, RecordContext, RequestRetirement, CompleteRetirement,
      ValidLocator, ValidRetirementRequest;
  }

  /** And on a stored record it is that record's own write. */
  lemma CallsWriteTheirRecord(s: StoreState, id: string, expected: nat, next: SourceState, next': TargetState,
      t: Transition, locator: Locator, ack: Ack, mode: RetirementMode, timeout: int, baseline: TurnObservation,
      at: Time, clock: Time)
    requires ValidID(id)
    ensures id in s.source ==>
              var r := s.source[id];
              && SourceResult(s, MoveSource(id, expected, next, t, clock)) ==
                SourceTransition(r, expected, next, t, clock)
              && SourceResult(s, RecordSourceContext(id, expected, ack, at, clock)) ==
                RecordContext(r, expected, ack, at, clock)
              && SourceResult(s, RequestSourceRetirement(id, expected, mode, timeout, baseline, at, clock))
                 == RequestRetirement(r, expected, mode, timeout, baseline, at, clock)
              && SourceResult(s, CompleteSourceRetirement(id, expected, at, clock)) ==
                CompleteRetirement(r, expected, at, clock)
    ensures id in s.target ==>
              var r := s.target[id];
              && TargetResult(s, MoveTarget(id, expected, next', t, clock)) ==
                TargetTransition(r, expected, next', t, clock)
              && TargetResult(s, BindTarget(id, expected, locator, at, clock)) ==
                BindLocator(r, expected, locator, at, clock)
  {
    hide ValidID, ValidLocator, SourceTransition, TargetTransition, RecordContext, CompleteRetirement;
  }
}
