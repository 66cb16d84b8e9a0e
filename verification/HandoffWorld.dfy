/**
 The two devices together, as a state machine over their atomic steps.

 Each handoff has its durable record on either side, the operation that holds its lock on
 either side (idle after a crash), and the calls and answers in flight. A call may be
 delivered late, again, or never; an answer only reaches the call it belongs to. The
 target's session table is shared by all handoffs and restarts from its durable inventory.
 Log and Table.delivered only record what happened.
 */
module HandoffWorld {
  import opened Wrappers
  import opened Records
  import opened RecordStore
  import opened Sessions
  import opened Outbox
  import opened Application

  // ---- the state ----------------------------------------------------------------------------------

  /** The source operation in progress, with the record it holds in hand. */
  datatype SourceWork =
    | SourceIdle
    | PreparingCall(call: nat, record: SourceRecord)
    | LaunchingCall(call: nat, record: SourceRecord)
    | VerifyingCall(call: nat, record: SourceRecord)
    | RetiringSource(record: SourceRecord)
    | ClosingSource(record: SourceRecord)

  /** The target operation in progress; `call` is the request to answer, absent in recovery. */
  datatype TargetWork =
    | TargetIdle
    | CheckingPreparation(record: TargetRecord, call: Option<nat>)
    | CheckingLaunch(record: TargetRecord, call: Option<nat>)
    | Choosing(record: TargetRecord, call: Option<nat>, identity: Identity)
    | Created(record: TargetRecord, call: Option<nat>, identity: Identity, session: Session)
    | Watching(record: TargetRecord, call: Option<nat>, identity: Identity)
    | Prompting(record: TargetRecord, call: Option<nat>, identity: Identity)
    | Confirmed(record: TargetRecord, call: Option<nat>, identity: Identity)

  /** One close call of the retirement code: the session closed and the proof held at that moment. */
  datatype Close = Close(session: SourceSession, proof: Option<Ack>)

  /** Every call ever sent and every answer ever given, by call number. */
  datatype Network = Network(
    nextCall: nat,
    prepareCalls: set<(nat, Manifest)>, launchCalls: set<(nat, Digest)>, verifyCalls: set<(nat, Digest, Locator)>,
    prepareReplies: set<(nat, Status)>, launchReplies: set<(nat, Status)>, verifyReplies: set<(nat, Verification)>)

  /** What happened so far: the source states that were ever stored, whether the operator asked for the launch, the
      locators ever bound, the sessions prompted, the sessions that acknowledged and the close calls made. */
  datatype Log = Log(past: set<SourceState>, operatorLaunched: bool,
                     bound: set<Locator>, prompted: set<string>, ackedBy: set<string>, closes: set<Close>)

  datatype Handoff = Handoff(source: Option<SourceRecord>, target: Option<TargetRecord>,
                             sourceWork: SourceWork, targetWork: TargetWork, net: Network, log: Log)

  const Blank: Handoff :=
    Handoff(None, None, SourceIdle, TargetIdle, Network(0, {}, {}, {}, {}, {}, {}), Log({}, false, {}, {}, {}, {}))

  datatype Table = Table(live: map<string, Session>, disk: map<string, Session>,
                         minted: map<string, Identity>, delivered: set<(string, LaunchMarker)>)

  datatype World = World(handoffs: map<string, Handoff>, table: Table)

  const Initial: World := World(map[], Table(map[], map[], map[], {}))

  function Get(w: World, id: string): Handoff { if id in w.handoffs then w.handoffs[id] else Blank }

  // ---- events -----------------------------------------------------------------------------------------

  datatype SourceEvent =
    | Queue(m: Manifest, clock: Time)
    | StartPrepare(force: bool, due: Time, now: Time)
    | EndPrepare(reply: Reply<Status>, now: Time)
    | OperatorLaunch(due: Time, now: Time)
    | ResumeLaunch(force: bool, due: Time, now: Time)
    | EndLaunch(reply: Reply<Status>, now: Time)
    | StartVerify
    | EndVerify(verification: Reply<Verification>, now: Time)
    | AskRetire(device: string, mode: RetirementMode, timeout: int, seen: Option<Detail>, now: Time)
    | ResumeRetire
    | LookAtSource(seen: Option<Detail>, now: Time)
    | SourceClosed(closed: bool, after: Option<Detail>, now: Time)
    | SourceAborts

  datatype TargetEvent =
    | DeliverPrepare(call: nat, m: Manifest, peer: string, w: PrepareInputs, clock: Time, now: Time)
    | EndPreparation(w: PrepareInputs, now: Time)
    | DeliverLaunch(call: nat, digest: Digest, peer: string, device: string, now: Time)
    | CheckLaunch(launch: LaunchInputs, now: Time)
    | ChooseSession(found: Option<Session>, cancelled: bool, now: Time)
    | BindSession(persistOk: bool, writeOk: bool, cancelled: bool, now: Time)
    | PollSession(now: Time)
    | SendPrompt(ok: bool, cancelled: bool, now: Time)
    | AcceptLaunch(persistOk: bool, now: Time)
    | Recover(deadFrom: nat, scan: Time, now: Time)
    | AcknowledgeContext(phase: AckPhase, scope: string, session: string, at: Time, clock: Time)
    | ServeVerify(call: nat, digest: Digest, locator: Locator, peer: string, device: string)
    | TargetAborts

  datatype Event =
    | AtSource(id: string, se: SourceEvent)
    | AtTarget(id: string, te: TargetEvent)
    | SessionMoves(session: string, phase: Phase)
    | OtherPrompt(session: string, command: Command)
    | OtherSession(session: string, identity: Identity)
    | InventoryPersists
    | TargetRestarts(restored: map<string, Session>)

  // ---- source steps ---------------------------------------------------------------------------------------

  function WithSource(h: Handoff, r: SourceRecord): Handoff {
    h.(source := Some(r), log := h.log.(past := h.log.past + {r.state}))
  }

  /** The store applies a verdict to the record it holds, guarded by the revision of the record in hand. */
  function StoredVerdict(stored: SourceRecord, r: SourceRecord, v: Verdict, now: Time): Result<SourceRecord,
      StoreError> {
    SourceTransition(stored, r.revision, VerdictState(v), Settled(r, v, now), now)
  }

  function EndSource(h: Handoff, res: Result<SourceRecord, StoreError>): Handoff {
    (if res.Ok? then WithSource(h, res.value) else h).(sourceWork := SourceIdle)
  }

  /** The operator asked for the launch. */
  function Authorized(h: Handoff): Handoff { h.(log := h.log.(operatorLaunched := true)) }

  function StartLaunch(h: Handoff, force: bool, due: Time, now: Time): Handoff
    requires h.source.Some?
  {
    match LaunchPlan(h.source.value, force, due, now)
    case Stop(_) => h
    case Call(r) =>
      WithSource(h, r).(sourceWork := LaunchingCall(h.net.nextCall, r),
                        net := h.net.(nextCall := h.net.nextCall + 1, launchCalls :=
                          h.net.launchCalls + {(h.net.nextCall, r.digest)}))
  }

  /** Launch-phase states: seeing one of them in a scan is what resumes a launch. */
  predicate LaunchState(s: SourceState) { s.LaunchingRemote? || s.LaunchRetryWait? }

  function StartPrepareStep(h: Handoff, force: bool, due: Time, now: Time): Option<Handoff>
    requires h.source.Some?
  {
    var plan := PreparePlan(h.source.value, force, due, now);
    if !h.sourceWork.SourceIdle? || plan.Stop? then None
    else Some(WithSource(h, plan.record).(
                sourceWork := PreparingCall(h.net.nextCall, plan.record),
                net := h.net.(nextCall := h.net.nextCall + 1, prepareCalls :=
                  h.net.prepareCalls + {(h.net.nextCall, plan.record.manifest)})))
  }

  function EndPrepareStep(h: Handoff, reply: Reply<Status>, now: Time): Option<Handoff>
    requires h.source.Some?
  {
    if !h.sourceWork.PreparingCall? || (reply.Answer? && (h.sourceWork.call, reply.value) !in h.net.prepareReplies) then
      None
    else Some(EndSource(h, StoredVerdict(h.source.value, h.sourceWork.record,
      PrepareVerdict(h.sourceWork.record, reply), now)))
  }

  function OperatorLaunchStep(h: Handoff, due: Time, now: Time): Option<Handoff>
    requires h.source.Some?
  {
    if !h.sourceWork.SourceIdle? then None else Some(StartLaunch(Authorized(h), true, due, now))
  }

  /** A retry or a recovery pass that saw a launch state at some earlier time; the record is reloaded only here. */
  function ResumeLaunchStep(h: Handoff, force: bool, due: Time, now: Time): Option<Handoff>
    requires h.source.Some?
  {
    if !h.sourceWork.SourceIdle? || (LaunchingRemote !in h.log.past && LaunchRetryWait !in h.log.past) then None
    else Some(StartLaunch(h, force, due, now))
  }

  function EndLaunchStep(h: Handoff, reply: Reply<Status>, now: Time): Option<Handoff>
    requires h.source.Some?
  {
    if !h.sourceWork.LaunchingCall? || (reply.Answer? && (h.sourceWork.call, reply.value) !in h.net.launchReplies) then
      None
    else Some(EndSource(h, StoredVerdict(h.source.value, h.sourceWork.record, LaunchVerdict(h.sourceWork.record, reply),
      now)))
  }

  function StartVerifyStep(h: Handoff): Option<Handoff>
    requires h.source.Some?
  {
    var stored := h.source.value;
    if !h.sourceWork.SourceIdle? || !stored.state.SourceAccepted? || stored.locator.None? then None
    else Some(h.(sourceWork := VerifyingCall(h.net.nextCall, stored),
                 net := h.net.(nextCall := h.net.nextCall + 1,
                               verifyCalls := h.net.verifyCalls
                                 + {(h.net.nextCall, stored.digest, stored.locator.value)})))
  }

  function EndVerifyStep(h: Handoff, reply: Reply<Verification>, now: Time): Option<Handoff>
    requires h.source.Some?
  {
    if !h.sourceWork.VerifyingCall? || (reply.Answer? && (h.sourceWork.call, reply.value) !in h.net.verifyReplies)
       || h.sourceWork.record.locator.None? then None
    else Some(EndSource(h, VerifiedRecord(h.source.value, h.sourceWork.record, reply, now)))
  }

  function AskRetireStep(h: Handoff, device: string, mode: RetirementMode, timeout: int, seen: Option<Detail>,
      now: Time): Option<Handoff>
    requires h.source.Some?
  {
    var plan := RequestPlan(h.source.value, device, mode, timeout, seen, now);
    if !h.sourceWork.SourceIdle? || plan.Stop? then None
    else Some(WithSource(h, plan.record).(sourceWork := if mode.AfterTurnEnd? then SourceIdle
      else RetiringSource(plan.record)))
  }

  /** A recovery pass that saw the accepted state at some earlier time. */
  function ResumeRetireStep(h: Handoff): Option<Handoff>
    requires h.source.Some?
  {
    if !h.sourceWork.SourceIdle? || SourceAccepted !in h.log.past then None
      else Some(h.(sourceWork := RetiringSource(h.source.value)))
  }

  function CompleteStored(h: Handoff, r: SourceRecord, now: Time): Handoff
    requires h.source.Some?
  {
    EndSource(h, CompleteRetirement(h.source.value, r.revision, TransitionTime(now, r.updated), now))
  }

  function LookStep(h: Handoff, seen: Option<Detail>, now: Time): Option<Handoff>
    requires h.source.Some?
  {
    if !h.sourceWork.RetiringSource? then None
    else
      var r := h.sourceWork.record;
      if MayClose(r, seen) then
        Some(h.(sourceWork := ClosingSource(r), log :=
          h.log.(closes := h.log.closes + {Close(r.manifest.source, r.contextLoaded)})))
      else if r.retirement.Some? && r.retirement.value.state.Pending? && SeenExited(r, seen, false, None) then
        Some(CompleteStored(h, r, now))
      else Some(h.(sourceWork := SourceIdle))
  }

  function ClosedStep(h: Handoff, closed: bool, after: Option<Detail>, now: Time): Option<Handoff>
    requires h.source.Some?
  {
    if !h.sourceWork.ClosingSource? then None
    else
      var r := h.sourceWork.record;
      if closed && ExactSource(r, after).Some? && after.value.exited then Some(CompleteStored(h, r, now))
      else Some(h.(sourceWork := SourceIdle))
  }

  function QueueStep(h: Handoff, m: Manifest, clock: Time): Option<Handoff> {
    if h.source.None? && ValidSource(NewSource(m, clock)) then Some(WithSource(h, NewSource(m, clock))) else None
  }

  function SourceNext(h: Handoff, e: SourceEvent): Option<Handoff> {
    if e.Queue? then QueueStep(h, e.m, e.clock)
    else if e.SourceAborts? then Some(h.(sourceWork := SourceIdle))
    else if h.source.None? then None
    else match e
      case StartPrepare(force, due, now) => StartPrepareStep(h, force, due, now)
      case EndPrepare(reply, now) => EndPrepareStep(h, reply, now)
      case OperatorLaunch(due, now) => OperatorLaunchStep(h, due, now)
      case ResumeLaunch(force, due, now) => ResumeLaunchStep(h, force, due, now)
      case EndLaunch(reply, now) => EndLaunchStep(h, reply, now)
      case StartVerify => StartVerifyStep(h)
      case EndVerify(reply, now) => EndVerifyStep(h, reply, now)
      case AskRetire(device, mode, timeout, seen, now) => AskRetireStep(h, device, mode, timeout, seen, now)
      case ResumeRetire => ResumeRetireStep(h)
      case LookAtSource(seen, now) => LookStep(h, seen, now)
      case SourceClosed(closed, after, now) => ClosedStep(h, closed, after, now)
  }

  /** What `verify` writes: the proof of a matching answer, or nothing. */
  function VerifiedRecord(stored: SourceRecord, r: SourceRecord, reply: Reply<Verification>,
      now: Time): Result<SourceRecord, StoreError>
    requires r.locator.Some?
  {
    if reply.Answer? && reply.value.id == r.manifest.id && reply.value.digest == r.digest
      && reply.value.locator == r.locator.value
       && reply.value.contextLoaded && reply.value.state == ProofLoaded && reply.value.ack.Some?
    then RecordContext(stored, r.revision, reply.value.ack.value, TransitionTime(now, r.updated), now)
    else Ok(stored)
  }

  // ---- target steps -------------------------------------------------------------------------------------------

  /** Answers the call, if there is one to answer. */
  function Answered(h: Handoff, call: Option<nat>, launch: bool, st: Status): Handoff {
    if call.None? then h
    else if launch then h.(net := h.net.(launchReplies := h.net.launchReplies + {(call.value, st)}))
    else h.(net := h.net.(prepareReplies := h.net.prepareReplies + {(call.value, st)}))
  }

  /** Ends a target operation with a verdict on the record in hand. */
  function EndTarget(h: Handoff, r: TargetRecord, call: Option<nat>, launch: bool, v: TargetVerdict, now: Time): Handoff
    requires h.target.Some?
  {
    var idle := h.(targetWork := TargetIdle);
    if v.Interrupted? || v.LostRecord? then idle
    else
      var settled := TargetTransition(h.target.value, r.revision, TargetVerdictState(v), TargetTransitionFor(r, v, now),
        now);
      if settled.Ok? then Answered(idle, call, launch, StatusOf(settled.value)).(target := Some(settled.value))
        else idle
  }

  /** Goes on with a record after a plan made on the stored one. */
  function Planned(h: Handoff, plan: TargetPlan, call: Option<nat>, launch: bool, now: Time): Handoff
    requires h.target.Some?
  {
    match plan
    case Work(r) => h.(target := Some(r), targetWork := if launch then CheckingLaunch(r, call)
      else CheckingPreparation(r, call))
    case RejectFirst(r) => EndTarget(h, r, call, launch, ArtifactsVerdict, now)
    case Done(Reply(st)) => Answered(h, call, launch, st)
    case Done(Error(_)) => h
  }

  /** Delivers a prepare call that is in flight, however late: the record is received, then resumed. */
  function DeliverPrepareStep(h: Handoff, call: nat, m: Manifest, peer: string, w: PrepareInputs, clock: Time,
      now: Time): Option<Handoff> {
    if !h.targetWork.TargetIdle? || (call, m) !in h.net.prepareCalls || PrepareGuard(m, peer, w).Some? then None
    else if h.target.None? then
      if !ValidTarget(NewTarget(m, clock)) then None
      else
        var received := h.(target := Some(NewTarget(m, clock)));
        Some(Planned(received, ResumeTargetPlan(received.target.value, w.deadFrom, now), Some(call), false, now))
    else if h.target.value.digest != Digest(m) then None
    else Some(Planned(h, ResumeTargetPlan(h.target.value, w.deadFrom, now), Some(call), false, now))
  }

  function EndPreparationStep(h: Handoff, w: PrepareInputs, now: Time): Option<Handoff>
    requires h.target.Some?
  {
    if !h.targetWork.CheckingPreparation? then None
    else Some(EndTarget(h, h.targetWork.record, h.targetWork.call, false, PrepareVerdictFor(h.targetWork.record, w),
      now))
  }

  function DeliverLaunchStep(h: Handoff, call: nat, digest: Digest, peer: string, device: string,
      now: Time): Option<Handoff>
    requires h.target.Some?
  {
    if !h.targetWork.TargetIdle? || (call, digest) !in h.net.launchCalls then None
    else Some(Planned(h, LaunchRequestPlan(h.target.value, digest, peer, device, now), Some(call), true, now))
  }

  /** A recovery pass reloads the record under the lock, so only the current record and the scan time decide. */
  function RecoverStep(h: Handoff, deadFrom: nat, scan: Time, now: Time): Option<Handoff>
    requires h.target.Some?
  {
    var stored := h.target.value;
    if !h.targetWork.TargetIdle? || !Recoverable(stored, scan) then None
    else if stored.state.Launching? || stored.state.LaunchWaitingAssets? then
      Some(Planned(h, ResumeLaunchPlan(stored, now), None, true, now))
    else Some(Planned(h, ResumeTargetPlan(stored, deadFrom, now), None, false, now))
  }

  function CheckLaunchStep(h: Handoff, w: LaunchInputs, now: Time): Option<Handoff>
    requires h.target.Some?
  {
    if !h.targetWork.CheckingLaunch? then None
    else
      var r, call := h.targetWork.record, h.targetWork.call;
      match LaunchCheck(r, w)
      case Some(v) => Some(EndTarget(h, r, call, true, v, now))
      case None => Some(h.(targetWork := Choosing(r, call, ContinuationIdentity(r, w.worktree, w.instructions.value))))
  }

  function ServeVerifyStep(h: Handoff, call: nat, digest: Digest, locator: Locator, peer: string,
      device: string): Option<Handoff>
    requires h.target.Some?
  {
    var stored := h.target.value;
    if (call, digest, locator) !in h.net.verifyCalls || peer == "" || stored.manifest.source.device != peer
       || device == "" || stored.manifest.target.device != device
       || !stored.state.TargetAccepted? || stored.digest != digest || stored.locator != Some(locator) then None
    else Some(h.(net := h.net.(verifyReplies := h.net.verifyReplies + {(call, VerificationOf(stored))})))
  }

  function AcknowledgeStep(h: Handoff, phase: AckPhase, scope: string, session: string, at: Time,
      clock: Time): Option<Handoff>
    requires h.target.Some?
  {
    var acked := Acknowledge(h.target.value, phase, scope, session, at, clock);
    if !phase.ContextLoaded? || scope == "" || session == "" || acked.Err? then None
    else Some(h.(target := Some(acked.value), log := h.log.(ackedBy := h.log.ackedBy + {session})))
  }

  // ---- target steps on a session --------------------------------------------------------------------------------

  /** What creation may return: a reusable live session, or a fresh one when there is none. */
  predicate MayCreate(t: Table, s: Session, identity: Identity) {
    || (s.id in t.live && t.live[s.id] == s && Reusable(s, identity))
    || (s == Session(s.id, identity, Starting, NoCommand) && s.id !in t.minted && ValidID(s.id)
        && (forall id <- t.live :: !Reusable(t.live[id], identity)))
  }

  function AfterCreate(t: Table, s: Session): Table {
    if s.id in t.live then t else t.(live := t.live[s.id := s], minted := t.minted[s.id := s.identity])
  }

  function ChooseStep(h: Handoff, t: Table, found: Option<Session>, cancelled: bool, now: Time): Option<(Handoff,
      Table)>
    requires h.target.Some?
  {
    if !h.targetWork.Choosing? then None
    else
      var r, call, identity := h.targetWork.record, h.targetWork.call, h.targetWork.identity;
      if r.locator.Some? then
        var choice := ChooseBound(r, t.live);
        if choice.NoSession? then Some((EndTarget(h, r, call, true, choice.verdict, now), t))
        else Some((h.(targetWork := Watching(r, call, identity)), t))
      else if found.None? then Some((EndTarget(h, r, call, true, if cancelled then Interrupted
        else NotReadyVerdict, now), t))
      else if MayCreate(t, found.value, identity) then
        Some((h.(targetWork := Created(r, call, identity, found.value)), AfterCreate(t, found.value)))
      else None
  }

  function Bound(h: Handoff, r: TargetRecord, locator: Locator): Handoff {
    h.(target := Some(r), log := h.log.(bound := h.log.bound + {locator}))
  }

  function Prompted(h: Handoff, session: string): Handoff { h.(log := h.log.(prompted := h.log.prompted + {session})) }

  function BindStep(h: Handoff, t: Table, persistOk: bool, writeOk: bool, cancelled: bool, now: Time): Option<(Handoff,
      Table)>
    requires h.target.Some?
  {
    if !h.targetWork.Created? then None
    else
      var r, call, identity, s := h.targetWork.record, h.targetWork.call, h.targetWork.identity, h.targetWork.session;
      if s.identity != identity then Some((EndTarget(h, r, call, true, ConflictVerdict, now), t))
      else if !persistOk then Some((EndTarget(h, r, call, true, if cancelled then Interrupted
        else NotReadyVerdict, now), t))
      else
        var t' := t.(disk := Durable(t.live));
        var locator := LocatorFor(r, s.id);
        var bound := BindLocator(h.target.value, r.revision, locator, TransitionTime(now, r.updated), now);
        if !writeOk || bound.Err? then Some((h.(targetWork := TargetIdle), t'))
        else Some((Bound(h, bound.value, locator).(targetWork := Watching(bound.value, call, identity)), t'))
  }

  /** The bound session of the launch in progress, while it is in the live table. */
  predicate AtSession(h: Handoff, t: Table) {
    && (h.targetWork.Watching? || h.targetWork.Prompting? || h.targetWork.Confirmed?)
    && h.targetWork.record.locator.Some? && h.targetWork.record.locator.value.session in t.live
  }

  function PollStep(h: Handoff, t: Table, now: Time): Option<Handoff>
    requires h.target.Some?
  {
    if !AtSession(h, t) || !h.targetWork.Watching? then None
    else
      var r, call, identity := h.targetWork.record, h.targetWork.call, h.targetWork.identity;
      match Poll(r, identity, t.live[r.locator.value.session])
      case Delivered => Some(h.(targetWork := Confirmed(r, call, identity)))
      case ReadyForPrompt => Some(h.(targetWork := Prompting(r, call, identity)))
      case PollConflict => Some(EndTarget(h, r, call, true, ConflictVerdict, now))
      case KeepPolling => Some(h)
  }

  const UnconfirmedVerdict: TargetVerdict := Wait(LaunchWaitingAssets, LaunchFailed, DeliveryNotReady)
  const NoEvidenceVerdict: TargetVerdict := Reject(LaunchFailed, EvidenceMissing)
  const NotPersistedVerdict: TargetVerdict := Wait(LaunchWaitingAssets, Internal, PersistenceNotReady)

  function SendStep(h: Handoff, t: Table, ok: bool, cancelled: bool, now: Time): Option<(Handoff, Table)>
    requires h.target.Some?
  {
    if !AtSession(h, t) || !h.targetWork.Prompting? then None
    else
      var r, call, identity := h.targetWork.record, h.targetWork.call, h.targetWork.identity;
      var sid := r.locator.value.session;
      var h' := Prompted(h, sid);
      if ok then
        Some((h'.(targetWork := Confirmed(r, call, identity)),
              t.(live := t.live[sid := t.live[sid].(command := EvidenceOf(r), phase := Working)],
                 delivered := t.delivered + {(sid, MarkerOf(r))})))
      else
        Some((EndTarget(h', r, call, true, if cancelled then Interrupted else UnconfirmedVerdict, now),
              t.(live := t.live[sid := t.live[sid].(phase := Stuck)])))
  }

  function AcceptStep(h: Handoff, t: Table, persistOk: bool, now: Time): Option<(Handoff, Table)>
    requires h.target.Some?
  {
    if !AtSession(h, t) || !h.targetWork.Confirmed? then None
    else
      var r, call := h.targetWork.record, h.targetWork.call;
      if t.live[r.locator.value.session].command != EvidenceOf(r) then
        Some((EndTarget(h, r, call, true, NoEvidenceVerdict, now), t))
      else if !persistOk then Some((EndTarget(h, r, call, true, NotPersistedVerdict, now), t))
      else Some((EndTarget(h, r, call, true, Forward(TargetAccepted, r.locator), now), t.(disk := Durable(t.live))))
  }

  function Beside(h: Option<Handoff>, t: Table): Option<(Handoff, Table)> {
    if h.Some? then Some((h.value, t)) else None
  }

  function TargetNext(h: Handoff, t: Table, e: TargetEvent): Option<(Handoff, Table)> {
    if e.DeliverPrepare? then Beside(DeliverPrepareStep(h, e.call, e.m, e.peer, e.w, e.clock, e.now), t)
    else if e.TargetAborts? then Some((h.(targetWork := TargetIdle), t))
    else if h.target.None? then None
    else match e
      case EndPreparation(w, now) => Beside(EndPreparationStep(h, w, now), t)
      case DeliverLaunch(call, digest, peer, device, now) =>
        Beside(DeliverLaunchStep(h, call, digest, peer, device, now), t)
      case Recover(deadFrom, scan, now) => Beside(RecoverStep(h, deadFrom, scan, now), t)
      case CheckLaunch(w, now) => Beside(CheckLaunchStep(h, w, now), t)
      case ServeVerify(call, digest, locator, peer, device) =>
        Beside(ServeVerifyStep(h, call, digest, locator, peer, device), t)
      case AcknowledgeContext(phase, scope, session, at, clock) =>
        Beside(AcknowledgeStep(h, phase, scope, session, at, clock), t)
      case ChooseSession(found, cancelled, now) => ChooseStep(h, t, found, cancelled, now)
      case BindSession(persistOk, writeOk, cancelled, now) => BindStep(h, t, persistOk, writeOk, cancelled, now)
      case PollSession(now) => Beside(PollStep(h, t, now), t)
      case SendPrompt(ok, cancelled, now) => SendStep(h, t, ok, cancelled, now)
      case AcceptLaunch(persistOk, now) => AcceptStep(h, t, persistOk, now)
  }

  // ---- world steps ------------------------------------------------------------------------------------------------

  /** What a restarted target may find: inventory entries, with their identity and last command. */
  predicate RestoredFrom(restored: map<string, Session>, disk: map<string, Session>) {
    forall id <- restored ::
      id in disk && restored[id].id == id && restored[id].identity == disk[id].identity
        && restored[id].command == disk[id].command
  }

  function Next(w: World, e: Event): Option<World> {
    match e
    case AtSource(id, se) =>
      if se.Queue? && se.m.id != id then None
      else (match SourceNext(Get(w, id), se)
        case None => None
        case Some(h) => Some(w.(handoffs := w.handoffs[id := h])))
    case AtTarget(id, te) =>
      (match TargetNext(Get(w, id), w.table, te)
       case None => None
       case Some((h, t)) => Some(World(w.handoffs[id := h], t)))
    case SessionMoves(sid, phase) =>
      if sid !in w.table.live then None
      else Some(w.(table := w.table.(live := w.table.live[sid := w.table.live[sid].(phase := phase)])))
    case OtherPrompt(sid, command) =>
      // anyone else's prompt; only the launch prompt carries the secret marker
      if sid !in w.table.live || command.LaunchEvidence? then None
      else Some(w.(table := w.table.(live := w.table.live[sid := w.table.live[sid].(command := command)])))
    case OtherSession(sid, identity) =>
      // no network caller can create a private session
      if sid in w.table.minted || identity.private then None
      else Some(w.(table := w.table.(live := w.table.live[sid := Session(sid, identity, Starting, NoCommand)],
                                     minted := w.table.minted[sid := identity])))
    case InventoryPersists =>
      // the background save: on a timer, and after anybody's change of a session
      Some(w.(table := w.table.(disk := Durable(w.table.live))))
    case TargetRestarts(restored) =>
      if !RestoredFrom(restored, w.table.disk) then None
      else Some(World(map id <- w.handoffs :: w.handoffs[id].(targetWork := TargetIdle), w.table.(live := restored)))
  }
}
