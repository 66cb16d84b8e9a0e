/**
 What any sequence of store calls keeps, record by record.

 A history is the list of distinct versions one record went through. It is shown to
 be a walk of the legal transition graph whose length is the record's revision.
 */
module StoreHistory {
  import opened Wrappers
  import opened Records
  import opened RecordStore

  // ---- one effective write ----------------------------------------------------------------------

  predicate SameSourceExceptProof(r: SourceRecord, r': SourceRecord) {
    && r.state.SourceAccepted? && r'.state.SourceAccepted?
    && r'.locator == r.locator && r'.attempts == r.attempts && r'.nextRetry == r.nextRetry && r'.failure == r.failure
  }

  predicate ContextWrite(r: SourceRecord, r': SourceRecord) {
    r.contextLoaded.None? && r'.contextLoaded.Some? && r.retirement.None? && r'.retirement.None?
  }

  predicate RequestWrite(r: SourceRecord, r': SourceRecord) {
    && r.contextLoaded.Some? && r'.contextLoaded == r.contextLoaded
    && r.retirement.None? && r'.retirement.Some? && r'.retirement.value.state.Pending?
  }

  predicate CompleteWrite(r: SourceRecord, r': SourceRecord) {
    && r.contextLoaded.Some? && r'.contextLoaded == r.contextLoaded
    && r.retirement.Some? && r.retirement.value.state.Pending?
    && r'.retirement.Some? && r'.retirement.value.state.Retired?
    && r'.retirement.value == r.retirement.value.(state := Retired, retiredAt := r'.retirement.value.retiredAt)
  }

  /** The only three writes an accepted source record can still receive. */
  predicate ProofWrite(r: SourceRecord, r': SourceRecord) {
    SameSourceExceptProof(r, r') && (ContextWrite(r, r') || RequestWrite(r, r') || CompleteWrite(r, r'))
  }

  /** r' is r after exactly one effective write. */
  predicate SourceWrite(r: SourceRecord, r': SourceRecord) {
    && r'.manifest == r.manifest && r'.digest == r.digest
    && r'.revision == r.revision + 1
    && r.updated <= r'.updated
    && (|| (LegalSource(r.state, r'.state)
            && r'.attempts == (if r'.state.PreparingRemote? then NextAttempts(r.attempts) else r.attempts))
        || ProofWrite(r, r'))
  }

  predicate TargetWrite(r: TargetRecord, r': TargetRecord) {
    && r'.manifest == r.manifest && r'.digest == r.digest
    && r'.revision == r.revision + 1
    && r.updated <= r'.updated
    && (|| (LegalTarget(r.state, r'.state)
            && r'.attempts == (if r'.state.Validating? then NextAttempts(r.attempts) else r.attempts))
        || (r'.state == r.state == Launching && r'.attempts == r.attempts && r.locator.None? && r'.locator.Some?)
        || (r'.state == r.state == TargetAccepted && r'.attempts == r.attempts && r'.locator == r.locator
            && r.contextLoaded.None? && r'.contextLoaded.Some?))
  }

  predicate FreshSource(r: SourceRecord) {
    r.state.Queued? && r.revision == 1 && r.attempts == 0 && r.locator.None? && r.contextLoaded.None?
      && r.retirement.None?
  }

  predicate FreshTarget(r: TargetRecord) {
    r.state.Received? && r.revision == 1 && r.attempts == 0 && r.locator.None? && r.contextLoaded.None?
  }

  /** What an accepted source call returns: the same record, or the record after one valid write. */
  ghost predicate Written(r: SourceRecord, res: Result<SourceRecord, StoreError>) {
    res.Ok? ==>
      ValidSource(res.value) && (res.value == r || SourceWrite(r, res.value))
      && res.value.manifest == r.manifest
  }

  lemma TransitionWrites(r: SourceRecord, expected: nat, next: SourceState, t: Transition, clock: Time)
    requires ValidSource(r)
    ensures Written(r, SourceTransition(r, expected, next, t, clock))
  {
  }

  lemma ContextWrites(r: SourceRecord, expected: nat, ack: Ack, at: Time, clock: Time)
    requires ValidSource(r)
    ensures Written(r, RecordContext(r, expected, ack, at, clock))
  {
  }

  lemma RequestWrites(r: SourceRecord, expected: nat, mode: RetirementMode, timeout: int, baseline: TurnObservation,
      at: Time, clock: Time)
    requires ValidSource(r)
    ensures Written(r, RequestRetirement(r, expected, mode, timeout, baseline, at, clock))
  {
  }

  lemma CompleteWrites(r: SourceRecord, expected: nat, at: Time, clock: Time)
    requires ValidSource(r)
    ensures Written(r, CompleteRetirement(r, expected, at, clock))
  {
  }

  lemma SourceResultWrites(s: StoreState, op: Op)
    requires ValidState(s)
    requires op.MoveSource? || op.RecordSourceContext? || op.RequestSourceRetirement? || op.CompleteSourceRetirement?
    ensures SourceResult(s, op).Ok? ==> op.id in s.source && Written(s.source[op.id], SourceResult(s, op))
  {
    hide ValidID, ValidSource, ValidTarget, SourceWrite, SourceTransition, RecordContext, RequestRetirement,
      CompleteRetirement;
    if op.id in s.source {
      var r := s.source[op.id];
      match op
      case MoveSource(_, expected, next, t, clock) => TransitionWrites(r, expected, next, t, clock);
      case RecordSourceContext(_, expected, ack, at, clock) => ContextWrites(r, expected, ack, at, clock);
      case RequestSourceRetirement(_, expected, mode, timeout, baseline, at, clock) =>
        RequestWrites(r, expected, mode, timeout, baseline, at, clock);
      case CompleteSourceRetirement(_, expected, at, clock) => CompleteWrites(r, expected, at, clock);
    }
  }

  /** What an accepted target call returns. */
  ghost predicate TargetWritten(r: TargetRecord, res: Result<TargetRecord, StoreError>) {
    res.Ok? ==>
      ValidTarget(res.value) && (res.value == r || TargetWrite(r, res.value))
      && res.value.manifest == r.manifest
  }

  lemma TargetTransitionWrites(r: TargetRecord, expected: nat, next: TargetState, t: Transition, clock: Time)
    requires ValidTarget(r)
    ensures TargetWritten(r, TargetTransition(r, expected, next, t, clock))
  {
  }

  lemma BindWrites(r: TargetRecord, expected: nat, locator: Locator, at: Time, clock: Time)
    requires ValidTarget(r)
    ensures TargetWritten(r, BindLocator(r, expected, locator, at, clock))
  {
  }

  lemma AckWrites(r: TargetRecord, phase: AckPhase, scope: string, session: string, at: Time, clock: Time)
    requires ValidTarget(r)
    ensures TargetWritten(r, Acknowledge(r, phase, scope, session, at, clock))
  {
  }

  lemma TargetResultWrites(s: StoreState, op: Op)
    requires ValidState(s)
    requires op.MoveTarget? || op.BindTarget? || op.AckTarget?
    ensures TargetResult(s, op).Ok? ==> OpId(op) in s.target && TargetWritten(s.target[OpId(op)], TargetResult(s, op))
  {
    hide ValidID, ValidSource, ValidTarget, TargetWrite, TargetTransition, BindLocator, Acknowledge;
    if OpId(op) in s.target {
      var r := s.target[OpId(op)];
      match op
      case MoveTarget(_, expected, next, t, clock) => TargetTransitionWrites(r, expected, next, t, clock);
      case BindTarget(_, expected, locator, at, clock) => BindWrites(r, expected, locator, at, clock);
      case AckTarget(_, phase, scope, session, at, clock) => AckWrites(r, phase, scope, session, at, clock);
    }
  }

  /** One call leaves a source record alone, replaces it by one write, or creates it fresh. */
  lemma SourceStep(s: StoreState, op: Op, id: string)
    requires ValidState(s)
    ensures id in s.source ==> id in Apply(s, op).source
    ensures id in s.source ==>
              Apply(s, op).source[id] == s.source[id] || SourceWrite(s.source[id], Apply(s, op).source[id])
    ensures id !in s.source && id in Apply(s, op).source ==> FreshSource(Apply(s, op).source[id])
  {
    hide SourceResult, TargetResult, ValidSource, ValidTarget, ValidID, SourceWrite;
    if op.MoveSource? || op.RecordSourceContext? || op.RequestSourceRetirement? || op.CompleteSourceRetirement? {
      SourceResultWrites(s, op);
    }
  }

  lemma TargetStep(s: StoreState, op: Op, id: string)
    requires ValidState(s)
    ensures id in s.target ==> id in Apply(s, op).target
    ensures id in s.target ==>
              Apply(s, op).target[id] == s.target[id] || TargetWrite(s.target[id], Apply(s, op).target[id])
    ensures id !in s.target && id in Apply(s, op).target ==> FreshTarget(Apply(s, op).target[id])
  {
    hide SourceResult, TargetResult, ValidSource, ValidTarget, ValidID, TargetWrite;
    if op.MoveTarget? || op.BindTarget? || op.AckTarget? {
      TargetResultWrites(s, op);
    }
  }

  lemma StepValid(s: StoreState, op: Op)
    requires ValidState(s)
    ensures ValidState(Apply(s, op))
  {
    hide ValidSource, ValidTarget, SourceResult, TargetResult, SourceWrite, TargetWrite;
    if op.MoveTarget? || op.BindTarget? || op.AckTarget? {
      TargetResultWrites(s, op);
    } else if !op.QueueSource? && !op.ReceiveTarget? {
      SourceResultWrites(s, op);
    }
  }

  // ---- whole runs -----------------------------------------------------------------------------------

  function Run(s: StoreState, ops: seq<Op>): StoreState
    decreases |ops|
  {
    if ops == [] then s else Apply(Run(s, ops[..|ops| - 1]), ops[|ops| - 1])
  }

  function Extend<T(==)>(history: seq<T>, present: bool, r: T): seq<T> {
    if !present || (history != [] && history[|history| - 1] == r) then history else history + [r]
  }

  const Empty: StoreState := StoreState(map[], map[])

  /** The distinct versions of one source record after each call from the empty store. */
  function SourceHistory(ops: seq<Op>, id: string): seq<SourceRecord>
    decreases |ops|
  {
    if ops == [] then []
    else
      var s := Run(Empty, ops);
      var earlier := SourceHistory(ops[..|ops| - 1], id);
      if id in s.source then Extend(earlier, true, s.source[id]) else earlier
  }

  function TargetHistory(ops: seq<Op>, id: string): seq<TargetRecord>
    decreases |ops|
  {
    if ops == [] then []
    else
      var s := Run(Empty, ops);
      var earlier := TargetHistory(ops[..|ops| - 1], id);
      if id in s.target then Extend(earlier, true, s.target[id]) else earlier
  }

  ghost predicate SourceWalk(h: seq<SourceRecord>) {
    && (h != [] ==> FreshSource(h[0]))
    && (forall i :: 0 <= i < |h| - 1 ==> SourceWrite(h[i], h[i + 1]))
  }

  ghost predicate TargetWalk(h: seq<TargetRecord>) {
    && (h != [] ==> FreshTarget(h[0]))
    && (forall i :: 0 <= i < |h| - 1 ==> TargetWrite(h[i], h[i + 1]))
  }

  /** How often a history entered `preparing_remote`. */
  function SourceAttemptsIn(h: seq<SourceRecord>): nat {
    if h == [] then 0
    else SourceAttemptsIn(h[..|h| - 1]) +
         if |h| >= 2 && h[|h| - 1].state.PreparingRemote? && h[|h| - 2].state != PreparingRemote then 1 else 0
  }

  /** How often a history entered `validating`. */
  function TargetAttemptsIn(h: seq<TargetRecord>): nat {
    if h == [] then 0
    else TargetAttemptsIn(h[..|h| - 1]) +
         if |h| >= 2 && h[|h| - 1].state.Validating? && h[|h| - 2].state != Validating then 1 else 0
  }

  lemma {:induction false} RunValid(ops: seq<Op>)
    ensures ValidState(Run(Empty, ops))
    decreases |ops|
  {
    if ops != [] {
      RunValid(ops[..|ops| - 1]);
      StepValid(Run(Empty, ops[..|ops| - 1]), ops[|ops| - 1]);
    }
  }

  /** Every source record's history is a walk of the legal graph that ends in the stored version. */
  lemma {:induction false} SourceHistoryIsWalk(ops: seq<Op>, id: string)
    ensures var s, h := Run(Empty, ops), SourceHistory(ops, id);
            SourceWalk(h) && (id in s.source <==> h != []) && (h != [] ==> h[|h| - 1] == s.source[id])
    decreases |ops|
  {
    if ops != [] {
      var before := ops[..|ops| - 1];
      SourceHistoryIsWalk(before, id);
      RunValid(before);
      SourceStep(Run(Empty, before), ops[|ops| - 1], id);
    }
  }

  lemma {:induction false} TargetHistoryIsWalk(ops: seq<Op>, id: string)
    ensures var s, h := Run(Empty, ops), TargetHistory(ops, id);
            TargetWalk(h) && (id in s.target <==> h != []) && (h != [] ==> h[|h| - 1] == s.target[id])
    decreases |ops|
  {
    if ops != [] {
      var before := ops[..|ops| - 1];
      TargetHistoryIsWalk(before, id);
      RunValid(before);
      TargetStep(Run(Empty, before), ops[|ops| - 1], id);
    }
  }

  lemma SourceWriteCounts(r: SourceRecord, r': SourceRecord)
    requires SourceWrite(r, r')
    ensures r'.revision == r.revision + 1
    ensures r'.attempts == if r'.state.PreparingRemote? && r.state != PreparingRemote then NextAttempts(r.attempts)
        else r.attempts
  {
  }

  lemma {:induction false} SourceWalkCounts(h: seq<SourceRecord>)
    requires SourceWalk(h) && h != []
    ensures h[|h| - 1].revision == |h|
    ensures h[|h| - 1].attempts == SourceAttemptsIn(h) % (MaxUint32 + 1)
    decreases |h|
  {
    if |h| > 1 {
      var before := h[..|h| - 1];
      SourceWalkCounts(before);
      SourceWriteCounts(h[|h| - 2], h[|h| - 2 + 1]);
      hide SourceWrite;
    } else {
      assert SourceAttemptsIn(h[..0]) == 0;
    }
  }

  lemma TargetWriteCounts(r: TargetRecord, r': TargetRecord)
    requires TargetWrite(r, r')
    ensures r'.revision == r.revision + 1
    ensures r'.attempts == if r'.state.Validating? && r.state != Validating then NextAttempts(r.attempts)
        else r.attempts
  {
  }

  lemma {:induction false} TargetWalkCounts(h: seq<TargetRecord>)
    requires TargetWalk(h) && h != []
    ensures h[|h| - 1].revision == |h|
    ensures h[|h| - 1].attempts == TargetAttemptsIn(h) % (MaxUint32 + 1)
    decreases |h|
  {
    if |h| > 1 {
      var before := h[..|h| - 1];
      TargetWalkCounts(before);
      TargetWriteCounts(h[|h| - 2], h[|h| - 2 + 1]);
      hide TargetWrite;
    } else {
      assert TargetAttemptsIn(h[..0]) == 0;
    }
  }

  /** Between any two versions the manifest is the same, time never ran back, and a settled outcome stayed. */
  lemma {:induction false} SourceWalkMonotone(h: seq<SourceRecord>, i: nat, j: nat)
    requires SourceWalk(h) && i <= j < |h|
    ensures h[j].manifest == h[i].manifest && h[j].digest == h[i].digest && h[i].updated <= h[j].updated
    ensures h[i].state.SourceFailed? ==> i == j
    ensures h[i].state.SourceAccepted? ==> h[j].state.SourceAccepted? && h[j].locator == h[i].locator
    ensures h[i].contextLoaded.Some? && h[i].state.SourceAccepted? ==> h[j].contextLoaded == h[i].contextLoaded
    decreases j - i
  {
    if i < j {
      SourceWalkMonotone(h, i, j - 1);
      assert SourceWrite(h[j - 1], h[j - 1 + 1]);
    }
  }

  lemma {:induction false} TargetWalkMonotone(h: seq<TargetRecord>, i: nat, j: nat)
    requires TargetWalk(h) && i <= j < |h|
    ensures h[j].manifest == h[i].manifest && h[j].digest == h[i].digest && h[i].updated <= h[j].updated
    ensures h[i].state.Rejected? ==> i == j
    ensures h[i].state.TargetAccepted? ==> h[j].state.TargetAccepted? && h[j].locator == h[i].locator
    ensures h[i].contextLoaded.Some? && h[i].state.TargetAccepted? ==> h[j].contextLoaded == h[i].contextLoaded
    decreases j - i
  {
    if i < j {
      TargetWalkMonotone(h, i, j - 1);
      assert TargetWrite(h[j - 1], h[j - 1 + 1]);
    }
  }

  /** The stored source record after any calls: revision counts its writes, attempts its entries into preparation. */
  lemma SourceRecordCounts(ops: seq<Op>, id: string)
    requires id in Run(Empty, ops).source
    ensures var r, h := Run(Empty, ops).source[id], SourceHistory(ops, id);
            r.revision == |h| && r.attempts == SourceAttemptsIn(h) % (MaxUint32 + 1)
  {
    SourceHistoryIsWalk(ops, id);
    SourceWalkCounts(SourceHistory(ops, id));
  }

  lemma TargetRecordCounts(ops: seq<Op>, id: string)
    requires id in Run(Empty, ops).target
    ensures var r, h := Run(Empty, ops).target[id], TargetHistory(ops, id);
            r.revision == |h| && r.attempts == TargetAttemptsIn(h) % (MaxUint32 + 1)
  {
    TargetHistoryIsWalk(ops, id);
    TargetWalkCounts(TargetHistory(ops, id));
  }
}
