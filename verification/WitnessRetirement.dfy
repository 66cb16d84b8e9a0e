/**
 Runs to the end: the continuation proves that it loaded the context, the operator asks for a
 deferred retirement, and the source is closed, beside a hook history of the source session
 that the catalog shows honestly. In one of them the turn had ended before the request.
 */
module WitnessRetirement {
  import opened Wrappers
  import opened Records
  import opened RecordStore
  import opened Outbox
  import opened Application
  import opened HandoffWorld
  import opened WorldInvariant
  import opened StepFacts
  import opened WorldTheorems
  import opened HandoffTheorems
  import opened DeferredRetirement
  import opened RetirementRuns
  import opened WitnessRuns

  // ---- to the proof ------------------------------------------------------------------------------------

  function A(m: Manifest, session: string): SourceRecord { S(m, SourceAccepted, 1, 5, Some(L(m, session))) }

  function Proof(m: Manifest, session: string): Ack { Ack(ContextLoaded, Digest(m), L(m, session), 1) }

  function Loaded(m: Manifest, session: string): TargetRecord {
    T(m, TargetAccepted, 1, 7, Some(L(m, session))).(contextLoaded := Some(Proof(m, session)))
  }

  function Verified(m: Manifest, session: string): SourceRecord {
    A(m, session).(contextLoaded := Some(Proof(m, session)), revision := 6)
  }

  ghost predicate LoadedAt(h: Handoff, m: Manifest, session: string) {
    h.source == Some(A(m, session)) && h.sourceWork.SourceIdle? && h.target == Some(Loaded(m, session))
  }

  ghost predicate VerifyingAt(h: Handoff, m: Manifest, session: string) {
    && h.source == Some(A(m, session)) && h.sourceWork.VerifyingCall? && h.sourceWork.record == A(m, session)
      && h.target == Some(Loaded(m, session))
    && (h.sourceWork.call, Digest(m), L(m, session)) in h.net.verifyCalls
  }

  ghost predicate ServedAt(h: Handoff, m: Manifest, session: string) {
    VerifyingAt(h, m, session) && (h.sourceWork.call, VerificationOf(Loaded(m, session))) in h.net.verifyReplies
  }

  ghost predicate VerifiedAt(h: Handoff, m: Manifest, session: string) {
    h.source == Some(Verified(m, session)) && h.sourceWork.SourceIdle?
  }

  lemma LoadRuns(h: Handoff, t: Table, m: Manifest, session: string)
    requires Deliverable(m, session) && AgreedAt(h, m, session)
    ensures var next := TargetNext(h, t, AcknowledgeContext(ContextLoaded, RootScope, session, 1, 1));
            next.Some? && LoadedAt(next.value.0, m, session)
  {
    OnTheWay(m, session);
    assert ValidTarget(Loaded(m, session));
    hide ValidTarget, ValidSource, ValidManifest, ValidID;
  }

  lemma VerifyRuns(h: Handoff, m: Manifest, session: string)
    requires LoadedAt(h, m, session)
    ensures SourceNext(h, StartVerify).Some? && VerifyingAt(SourceNext(h, StartVerify).value, m, session)
  {
  }

  lemma ServeRuns(h: Handoff, t: Table, m: Manifest, session: string)
    requires Deliverable(m, session) && VerifyingAt(h, m, session)
    ensures var next := TargetNext(h, t,
        ServeVerify(h.sourceWork.call, Digest(m), L(m, session), m.source.device, m.target.device));
            next.Some? && ServedAt(next.value.0, m, session)
  {
    OnTheWay(m, session);
    hide ValidManifest, ValidID;
  }

  lemma VerifiedRuns(h: Handoff, m: Manifest, session: string)
    requires Deliverable(m, session) && ServedAt(h, m, session)
    ensures var next := SourceNext(h, EndVerify(Answer(VerificationOf(Loaded(m, session))), 1));
        next.Some? && VerifiedAt(next.value, m, session)
  {
    OnTheWay(m, session);
    assert ValidSource(Verified(m, session));
    hide ValidManifest, ValidID, ValidSource;
  }

  lemma VerifiedRun(m: Manifest, session: string) returns (w: World)
    requires Deliverable(m, session)
    ensures Reachable(w) && VerifiedAt(Get(w, m.id), m, session)
  {
    hide Reachable, SourceNext, TargetNext, Next, Deliverable, AgreedAt, LoadedAt, VerifyingAt, ServedAt, VerifiedAt,
      VerificationOf;
    var id := m.id;
    w := AgreedRun(m, session);
    LoadRuns(Get(w, id), w.table, m, session);
    w := TargetMoves(w, id, AcknowledgeContext(ContextLoaded, RootScope, session, 1, 1));
    VerifyRuns(Get(w, id), m, session);
    w := SourceMoves(w, id, StartVerify);
    ServeRuns(Get(w, id), w.table, m, session);
    w := TargetMoves(w, id, ServeVerify(Get(w, id).sourceWork.call, Digest(m), L(m, session), m.source.device,
      m.target.device));
    VerifiedRuns(Get(w, id), m, session);
    w := SourceMoves(w, id, EndVerify(Answer(VerificationOf(Loaded(m, session))), 1));
  }

  // ---- to the close ------------------------------------------------------------------------------------

  /** Half a minute to close. */
  const HalfMinute: int := 30 * NanosPerSecond

  /** The request made at time `at`, in the first turn. */
  function Request(at: Time, end: Option<Time>): Retirement {
    Retirement(AfterTurnEnd, Pending, at, 30, TurnObservation(1, end), None)
  }

  function Asking(m: Manifest, session: string, q: Retirement): SourceRecord {
    Verified(m, session).(retirement := Some(q), revision := 7, updated := q.requestedAt)
  }

  function Seen(m: Manifest, exited: bool, end: Option<Time>): Option<Detail> {
    Some(Detail(m.source.scope, m.source.session, exited, Some(TurnActivity(1, end))))
  }

  ghost predicate AskingAt(h: Handoff, m: Manifest, session: string, q: Retirement) {
    h.source == Some(Asking(m, session, q)) && h.sourceWork.SourceIdle? && SourceAccepted in h.log.past
  }

  ghost predicate RetiringAt(h: Handoff, m: Manifest, session: string, q: Retirement) {
    && h.source == Some(Asking(m, session, q)) && h.sourceWork == RetiringSource(Asking(m, session, q))
    && SourceAccepted in h.log.past
  }

  ghost predicate ClosingAt(h: Handoff, m: Manifest, session: string, q: Retirement) {
    && h.source == Some(Asking(m, session, q)) && h.sourceWork == ClosingSource(Asking(m, session, q))
    && SourceAccepted in h.log.past && h.log.closes != {}
  }

  lemma AskRuns(h: Handoff, m: Manifest, session: string, at: Time, end: Option<Time>)
    requires Deliverable(m, session) && VerifiedAt(h, m, session) && at > 0 && end != Some(0)
    ensures var next := SourceNext(h, AskRetire(m.source.device, AfterTurnEnd, HalfMinute, Seen(m, false, end), at));
            next.Some? && AskingAt(next.value, m, session, Request(at, end))
    ensures RequestPlan(Verified(m, session), m.source.device, AfterTurnEnd, HalfMinute, Seen(m, false, end), at) ==
              Call(Asking(m, session, Request(at, end)))
  {
    OnTheWay(m, session);
    assert ValidSource(Asking(m, session, Request(at, end)));
    hide ValidManifest, ValidID, ValidSource;
  }

  lemma ResumeRuns(h: Handoff, m: Manifest, session: string, q: Retirement)
    requires AskingAt(h, m, session, q)
    ensures SourceNext(h, ResumeRetire).Some? && RetiringAt(SourceNext(h, ResumeRetire).value, m, session, q)
  {
  }

  /** A turn end stamped after the request is shown: the pending request closes the source. */
  lemma CloseRuns(h: Handoff, m: Manifest, session: string, at: Time, end: Option<Time>, shown: Time)
    requires RetiringAt(h, m, session, Request(at, end)) && shown > at
    ensures var next := SourceNext(h, LookAtSource(Seen(m, false, Some(shown)), shown));
            next.Some? && ClosingAt(next.value, m, session, Request(at, end))
  {
    hide ValidSource;
  }

  /** The close call fails: the request stays pending for the next pass. */
  lemma FailRuns(h: Handoff, m: Manifest, session: string, q: Retirement)
    requires ClosingAt(h, m, session, q)
    ensures var next := SourceNext(h, SourceClosed(false, None, 1)); next.Some? && AskingAt(next.value, m, session, q)
  {
    hide ValidSource, CompleteRetirement;
  }

  lemma RetireRuns(h: Handoff, m: Manifest, session: string, at: Time, end: Option<Time>, shown: Time)
    requires Deliverable(m, session) && ClosingAt(h, m, session, Request(at, end)) && shown > at > 0 && end != Some(0)
    ensures var next := SourceNext(h, SourceClosed(true, Seen(m, true, Some(shown)), shown));
            next.Some? && IsRetired(next.value.source) && next.value.log.closes != {}
  {
    OnTheWay(m, session);
    assert ValidSource(Asking(m, session, Request(at, end)));
    hide ValidManifest, ValidID, ValidAck, ValidLocator;
  }

  // ---- the runs ------------------------------------------------------------------------------------------

  /** A step of the source at the end of a run. */
  lemma Onward(run: Run, id: string, e: SourceEvent) returns (longer: Run)
    requires IsRun(run) && SourceNext(Get(run.worlds[|run.events|], id), e).Some? && !e.Queue?
    ensures IsRun(longer) && longer.events == run.events + [AtSource(id, e)]
        && longer.worlds[..|run.events| + 1] == run.worlds
    ensures Get(longer.worlds[|run.events| + 1], id) == SourceNext(Get(run.worlds[|run.events|], id), e).value
  {
    hide SourceNext;
    LongerIsRun(run, AtSource(id, e));
    longer := Longer(run, AtSource(id, e));
  }

  /** The turn shown after a hook events, and its last end. */
  predicate FirstTurn(history: seq<HookEvent>, a: nat, end: Option<Time>) {
    0 < a <= |history| && Activity(history[..a]) == TurnActivity(1, end) && end != Some(0)
  }

  ghost predicate ClosingRun(run: Run, m: Manifest, session: string, at: Time, end: Option<Time>) {
    && IsRun(run) && |run.events| >= 3
    && Asked(run, |run.events| - 3, m.id, Request(at, end)) && Closes(run, |run.events| - 1, m.id)
    && ClosingAt(Get(run.worlds[|run.events|], m.id), m, session, Request(at, end))
  }

  /** Any first turn with an end shown after the request's time, at the request or later, has a run that closes the
      source. */
  lemma RunToClose(m: Manifest, session: string, at: Time, history: seq<HookEvent>, a: nat, end: Option<Time>, b: nat,
      shownEnd: Time)
    returns (run: Run, shown: seq<nat>)
    requires Deliverable(m, session) && at > 0 && FirstTurn(history, a, end) && a <= b
        && FirstTurn(history, b, Some(shownEnd)) && shownEnd > at
    ensures ClosingRun(run, m, session, at, end) && HonestCatalog(run, m.id, m.source, history, shown)
    ensures shown[|run.events| - 3] == a && shown[|run.events| - 1] == b
  {
    hide Reachable, SourceNext, StepOf, Deliverable, VerifiedAt, AskingAt, RetiringAt, ClosingAt, Request, Seen,
      HonestLook, Looks, RequestPlan;
    var id := m.id;
    var w := VerifiedRun(m, session);
    var before := RunTo(w);
    var n := |before.events|;
    AskRuns(Get(w, id), m, session, at, end);
    var asked := Onward(before, id, AskRetire(m.source.device, AfterTurnEnd, HalfMinute, Seen(m, false, end), at));
    ResumeRuns(Get(asked.worlds[n + 1], id), m, session, Request(at, end));
    var resumed := Onward(asked, id, ResumeRetire);
    CloseRuns(Get(resumed.worlds[n + 2], id), m, session, at, end, shownEnd);
    run := Onward(resumed, id, LookAtSource(Seen(m, false, Some(shownEnd)), shownEnd));
    shown := seq(n + 3, i => if i < n + 2 then a else b);
    AskedThere(before, asked, run, m, session, at, end);
    ClosesThere(run, m, session, Request(at, end));
    forall i | 0 <= i < n + 3
      ensures HonestLook(run.events[i], id, m.source, history, shown[i])
    {
      if i < n {
        assert run.events[i] == before.events[i] && !Looks(before.events[i]);
        NoLookIsHonest(run.events[i], id, m.source, history, shown[i]);
      } else {
        TheirLooksAreHonest(m, at, history, a, end);
        TheirLooksAreHonest(m, at, history, b, Some(shownEnd));
      }
    }
  }

  lemma NoLookIsHonest(e: Event, id: string, who: SourceSession, history: seq<HookEvent>, k: nat)
    requires !Looks(e)
    ensures HonestLook(e, id, who, history, k)
  {
  }

  lemma TheirLooksAreHonest(m: Manifest, at: Time, history: seq<HookEvent>, k: nat, end: Option<Time>)
    requires FirstTurn(history, k, end)
    ensures HonestLook(AtSource(m.id, AskRetire(m.source.device, AfterTurnEnd, HalfMinute, Seen(m, false, end), at)),
        m.id, m.source, history, k)
    ensures HonestLook(AtSource(m.id, ResumeRetire), m.id, m.source, history, k)
    ensures forall now :: HonestLook(AtSource(m.id, LookAtSource(Seen(m, false, end), now)), m.id, m.source, history, k)
  {
  }

  lemma AskedThere(before: Run, asked: Run, run: Run, m: Manifest, session: string, at: Time, end: Option<Time>)
    requires Deliverable(m, session) && at > 0 && end != Some(0)
    requires IsRun(before) && IsRun(asked) && IsRun(run) && |asked.events| == |before.events| + 1
        && |run.events| == |before.events| + 3
    requires run.worlds[..|asked.worlds|] == asked.worlds && run.events[..|asked.events|] == asked.events
    requires asked.worlds[..|before.worlds|] == before.worlds
    requires asked.events[|before.events|] ==
               AtSource(m.id, AskRetire(m.source.device, AfterTurnEnd, HalfMinute, Seen(m, false, end), at))
    requires VerifiedAt(Get(before.worlds[|before.events|], m.id), m, session)
    requires AskingAt(Get(asked.worlds[|before.events| + 1], m.id), m, session, Request(at, end))
    ensures Asked(run, |before.events|, m.id, Request(at, end))
  {
    var n := |before.events|;
    hide StepOf, RequestPlan, SourceNext, Get, Deliverable;
    AskRuns(Get(before.worlds[n], m.id), m, session, at, end);
    assert run.events[n] == asked.events[n] && run.worlds[n] == before.worlds[n]
      && run.worlds[n + 1] == asked.worlds[n + 1];
  }

  lemma ClosesThere(run: Run, m: Manifest, session: string, q: Retirement)
    requires IsRun(run) && |run.events| > 0 && run.events[|run.events| - 1].AtSource?
        && run.events[|run.events| - 1].id == m.id
    requires run.events[|run.events| - 1].se.LookAtSource?
        && ClosingAt(Get(run.worlds[|run.events|], m.id), m, session, q)
    ensures Closes(run, |run.events| - 1, m.id)
  {
    hide IsRun, Get;
  }

  ghost predicate RetiresIn(run: Run, m: Manifest, history: seq<HookEvent>, shown: seq<nat>) {
    && IsRun(run) && HonestCatalog(run, m.id, m.source, history, shown)
    && IsRetired(Get(run.worlds[|run.events|], m.id).source) && Get(run.worlds[|run.events|], m.id).log.closes != {}
  }

  /** Every valid handoff without artifacts has a run in which its turn ends after a deferred request, and the source
      is closed and retired. */
  lemma CanRetire(m: Manifest, session: string)
    requires Deliverable(m, session)
    ensures exists run, history, shown :: RetiresIn(run, m, history, shown)
  {
    hide SourceNext, StepOf, Deliverable, ClosingAt, Request, HonestLook, IsRetired, Asked, Closes;
    var history := [PromptSubmit(1), TurnEnd(2)];
    TwoEvents(1, 2);
    var run, shown := RunToClose(m, session, 1, history, 1, None, 2, 2);
    var h := Get(run.worlds[|run.events|], m.id);
    RetireRuns(h, m, session, 1, None, 2);
    var longer := Onward(run, m.id, SourceClosed(true, Seen(m, true, Some(2)), 2));
    var more := shown + [2];
    forall i | 0 <= i < |longer.events|
      ensures more[i] <= |history| && HonestLook(longer.events[i], m.id, m.source, history, more[i])
    {
      if i < |run.events| {
        assert longer.events[i] == run.events[i] && more[i] == shown[i];
      } else {
        NoLookIsHonest(longer.events[i], m.id, m.source, history, more[i]);
      }
    }
    assert RetiresIn(longer, m, history, more);
  }

  lemma TwoEvents(start: Time, end: Time)
    requires end > 0
    ensures FirstTurn([PromptSubmit(start), TurnEnd(end)], 1, None)
        && FirstTurn([PromptSubmit(start), TurnEnd(end)], 2, Some(end))
  {
    var history := [PromptSubmit(start), TurnEnd(end)];
    assert history[..1] == [PromptSubmit(start)] && history[..2] == history && history[..1][..0] == [];
    assert Activity([]) == TurnActivity(0, None);
    assert Activity(history[..1]) == TurnActivity(1, None);
  }

  /** Step j closes the source on the request of step i, though the session has done nothing in between. */
  ghost predicate ClosesWithoutATurn(run: Run, i: nat, j: nat, id: string, who: SourceSession, history: seq<HookEvent>,
      shown: seq<nat>) {
    && IsRun(run) && i < j < |run.events| && HonestCatalog(run, id, who, history, shown)
    && Closes(run, j, id) && shown[i] == shown[j]
    && SourceAt(run, i + 1, id).Some? && SourceAt(run, i + 1, id).value.retirement.Some?
    && Asked(run, i, id, SourceAt(run, i + 1, id).value.retirement.value)
      && SourceAt(run, i + 1, id).value.retirement.value.mode.AfterTurnEnd?
  }

  /** A stale end can do it: the turn had ended before the request, stamped by a clock ahead of the daemon's. */
  lemma StaleEndCloses(m: Manifest, session: string)
    requires Deliverable(m, session)
    ensures exists run, i, j, shown ::
        ClosesWithoutATurn(run, i, j, m.id, m.source, [PromptSubmit(1), TurnEnd(9)], shown)
  {
    hide StepOf, Deliverable, ClosingAt, HonestLook, Closes;
    TwoEvents(1, 9);
    var run, shown := RunToClose(m, session, 5, [PromptSubmit(1), TurnEnd(9)], 2, Some(9), 2, 9);
    assert ClosesWithoutATurn(run, |run.events| - 3, |run.events| - 1, m.id, m.source, [PromptSubmit(1), TurnEnd(9)],
      shown);
  }

  ghost predicate ClosesTwice(run: Run, i: nat, j: nat, id: string) {
    IsRun(run) && i < j < |run.events| && Closes(run, i, id) && Closes(run, j, id)
  }

  /** A close call that fails is made again by a later pass. */
  lemma CanCloseAgain(m: Manifest, session: string)
    requires Deliverable(m, session)
    ensures exists run, i, j :: ClosesTwice(run, i, j, m.id)
  {
    hide SourceNext, StepOf, Deliverable, AskingAt, RetiringAt, ClosingAt, Request, Seen, HonestLook, Asked;
    TwoEvents(1, 2);
    var id, q := m.id, Request(1, None);
    var first, shown := RunToClose(m, session, 1, [PromptSubmit(1), TurnEnd(2)], 1, None, 2, 2);
    var n := |first.events|;
    FailRuns(Get(first.worlds[n], id), m, session, q);
    var failed := Onward(first, id, SourceClosed(false, None, 1));
    ResumeRuns(Get(failed.worlds[n + 1], id), m, session, q);
    var resumed := Onward(failed, id, ResumeRetire);
    CloseRuns(Get(resumed.worlds[n + 2], id), m, session, 1, None, 2);
    var run := Onward(resumed, id, LookAtSource(Seen(m, false, Some(2)), 2));
    ClosesThere(run, m, session, q);
    assert Closes(run, n - 1, id) by {
      assert run.events[n - 1] == first.events[n - 1] && run.worlds[n] == first.worlds[n];
    }
    assert ClosesTwice(run, n - 1, n + 2, id);
  }
}
