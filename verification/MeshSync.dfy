/**
 The per-peer worker that coalesces mesh events into inventory passes: scheduleMeshSync,
 retryDirtyMeshSync and finishMeshSync of internal/daemon/mesh_application.go.

 Each step is one critical section, one look at the runtime or the topics, or the end of one
 remote call, so a run is any interleaving of any number of peers, events and workers.
 */
module MeshSync {
  import opened Wrappers

  /** Where a worker is in its loop. */
  datatype Phase =
    | LookingAtRuntime
    | LookingAtTopics
    | Passing               // the inventory pass is running
    | PassFailed            // about to call retryDirtyMeshSync
    | TakingResubscribe
    | Subscribing
    | SubscribeFailed       // about to call retryDirtyMeshSync, keeping the restore intent
    | Finishing             // about to look for a dirty edge and release the slot
    | GivingUp              // about to call finishMeshSync

  /** The coalescing flags of a running worker; `owner` is that worker. */
  datatype Slot = Slot(dirty: bool, resubscribe: bool, owner: nat)

  datatype Worker = Worker(peer: string, phase: Phase)

  /** `owed` has the peers with an accepted event that no pass has started after yet, `forsaken` those whose worker
      gave up since. */
  datatype SyncState = SyncState(
    alive: bool, topics: set<string>, syncing: map<string, Slot>, workers: map<nat, Worker>,
    owed: set<string>, forsaken: set<string>)

  datatype SyncEvent =
    | Schedule(peer: string, resubscribe: bool, spawned: nat)
    | Works(worker: nat, ok: bool)
    | RuntimeStarts
    | RuntimeStops
    | TopicsSet(peer: string)
    | TopicsCleared(peer: string)

  const Start: SyncState := SyncState(false, {}, map[], map[], {}, {})

  function Scheduled(s: SyncState, peer: string, resubscribe: bool, spawned: nat): Option<SyncState> {
    if !s.alive then Some(s)
    else if peer in s.syncing then
      var slot := s.syncing[peer];
      Some(s.(syncing := s.syncing[peer := slot.(dirty := true, resubscribe := slot.resubscribe || resubscribe)],
        owed := s.owed + {peer}))
    else if spawned in s.workers then None
    else Some(s.(syncing := s.syncing[peer := Slot(false, resubscribe, spawned)],
                 workers := s.workers[spawned := Worker(peer, LookingAtRuntime)],
                 owed := s.owed + {peer}, forsaken := s.forsaken - {peer}))
  }

  /** retryDirtyMeshSync: consume one dirty edge and go on, or release the slot. */
  function Retried(slot: Slot, preserve: bool): Option<(Phase, Slot)> {
    if slot.dirty then Some((LookingAtRuntime, slot.(dirty := false, resubscribe := slot.resubscribe || preserve)))
      else None
  }

  /** Where a worker goes next and what becomes of its slot; None ends the worker and frees the slot. */
  function Turn(phase: Phase, slot: Slot, alive: bool, wanted: bool, ok: bool): Option<(Phase, Slot)> {
    match phase
    case LookingAtRuntime => Some((if alive then LookingAtTopics else GivingUp, slot))
    case LookingAtTopics => Some((if wanted then Passing else GivingUp, slot))
    case Passing => Some((if ok then TakingResubscribe else PassFailed, slot))
    case PassFailed => Retried(slot, false)
    case TakingResubscribe => Some((if slot.resubscribe then Subscribing else Finishing, slot.(resubscribe := false)))
    case Subscribing => Some((if ok then Finishing else SubscribeFailed, slot))
    case SubscribeFailed => Retried(slot, true)
    case Finishing => if slot.dirty then Some((LookingAtRuntime, slot.(dirty := false))) else None
    case GivingUp => None
  }

  /** The worker and its slot after a turn, everything else as it was. */
  function Turned(s: SyncState, w: nat, turn: Option<(Phase, Slot)>): SyncState
    requires w in s.workers
  {
    var peer := s.workers[w].peer;
    if turn.None? then s.(workers := s.workers - {w}, syncing := s.syncing - {peer})
    else s.(workers := s.workers[w := Worker(peer, turn.value.0)], syncing := s.syncing[peer := turn.value.1])
  }

  /** One step of a worker; `ok` is the outcome of a remote call that ends in this step. */
  function Worked(s: SyncState, w: nat, ok: bool): Option<SyncState> {
    if w !in s.workers || s.workers[w].peer !in s.syncing then None
    else
      var peer, phase := s.workers[w].peer, s.workers[w].phase;
      var begins := phase.LookingAtTopics? && peer in s.topics;
      Some(Turned(s, w, Turn(phase, s.syncing[peer], s.alive, peer in s.topics, ok)).(
             owed := if begins then s.owed - {peer} else s.owed,
             forsaken := if begins then s.forsaken - {peer} else if phase.GivingUp? && peer in s.owed then
               s.forsaken + {peer} else s.forsaken))
  }

  function Step(s: SyncState, e: SyncEvent): Option<SyncState> {
    match e
    case Schedule(peer, resubscribe, spawned) => Scheduled(s, peer, resubscribe, spawned)
    case Works(w, ok) => Worked(s, w, ok)
    case RuntimeStarts => Some(s.(alive := true))
    case RuntimeStops => Some(s.(alive := false))
    case TopicsSet(peer) => Some(s.(topics := s.topics + {peer}))
    case TopicsCleared(peer) => Some(s.(topics := s.topics - {peer}))
  }

  // ---- the invariant ------------------------------------------------------------------------------------

  /** Every worker owns its peer's slot and every slot has its worker, so there is one worker per peer at most and no
      dead slot. */
  ghost predicate Owned(s: SyncState) {
    && (forall w <- s.workers :: s.workers[w].peer in s.syncing && s.syncing[s.workers[w].peer].owner == w)
    && (forall p <- s.syncing :: s.syncing[p].owner in s.workers && s.workers[s.syncing[p].owner].peer == p)
  }

  predicate BeforePass(phase: Phase) { phase.LookingAtRuntime? || phase.LookingAtTopics? }

  predicate AfterTake(phase: Phase) { phase.Subscribing? || phase.SubscribeFailed? || phase.Finishing? }

  ghost predicate Pending(s: SyncState, p: string) {
    p in s.syncing && s.syncing[p].owner in s.workers
    && (s.syncing[p].dirty || BeforePass(s.workers[s.syncing[p].owner].phase)
      || s.workers[s.syncing[p].owner].phase.GivingUp?)
  }

  ghost predicate OwedInv(s: SyncState) { forall p <- s.owed :: p in s.forsaken || Pending(s, p) }

  /** Once a worker took the restore intent, a new one comes with a dirty edge. */
  ghost predicate TakenInv(s: SyncState) {
    forall w <- s.workers ::
      AfterTake(s.workers[w].phase) && s.workers[w].peer in s.syncing && s.syncing[s.workers[w].peer].resubscribe ==>
        s.syncing[s.workers[w].peer].dirty
  }

  /** A peer whose worker gave up has no worker. */
  ghost predicate ForsakenInv(s: SyncState) { forall p <- s.forsaken :: p !in s.syncing }

  ghost predicate SyncInv(s: SyncState) { Owned(s) && OwedInv(s) && TakenInv(s) && ForsakenInv(s) }

  lemma ScheduleKeeps(s: SyncState, peer: string, resubscribe: bool, spawned: nat)
    requires SyncInv(s) && Scheduled(s, peer, resubscribe, spawned).Some?
    ensures SyncInv(Scheduled(s, peer, resubscribe, spawned).value)
  {
    var s' := Scheduled(s, peer, resubscribe, spawned).value;
    if s.alive {
      forall p <- s'.owed
        ensures p in s'.forsaken || Pending(s', p)
      {
        if p != peer { assert p in s.owed; assert p in s.forsaken || Pending(s, p); }
      }
    }
  }

  lemma TurnKeepsOwner(phase: Phase, slot: Slot, alive: bool, wanted: bool, ok: bool)
    ensures Turn(phase, slot, alive, wanted, ok).Some? ==>
        Turn(phase, slot, alive, wanted, ok).value.1.owner == slot.owner
  {
  }

  lemma TurnedOwned(s: SyncState, w: nat, turn: Option<(Phase, Slot)>)
    requires Owned(s) && w in s.workers && (turn.Some? ==> turn.value.1.owner == w)
    ensures Owned(Turned(s, w, turn))
    ensures forall p <- s.syncing :: p != s.workers[w].peer ==>
              p in Turned(s, w, turn).syncing && Turned(s, w, turn).syncing[p] == s.syncing[p]
                && s.syncing[p].owner != w
              && s.syncing[p].owner in Turned(s, w, turn).workers
                && Turned(s, w, turn).workers[s.syncing[p].owner] == s.workers[s.syncing[p].owner]
    ensures forall v <- s.workers :: v != w ==> s.workers[v].peer != s.workers[w].peer
  {
  }

  lemma WorkKeepsOwed(s: SyncState, w: nat, ok: bool)
    requires Owned(s) && OwedInv(s) && Worked(s, w, ok).Some?
    ensures Owned(Worked(s, w, ok).value) && OwedInv(Worked(s, w, ok).value)
  {
    var peer := s.workers[w].peer;
    var turn := Turn(s.workers[w].phase, s.syncing[peer], s.alive, peer in s.topics, ok);
    TurnKeepsOwner(s.workers[w].phase, s.syncing[peer], s.alive, peer in s.topics, ok);
    TurnedOwned(s, w, turn);
    OwnPending(s, w, ok);
    hide Turn, Turned, BeforePass;
    var s' := Worked(s, w, ok).value;
    assert Turned(s, w, turn).workers == s'.workers && Turned(s, w, turn).syncing == s'.syncing;
    forall p <- s'.owed
      ensures p in s'.forsaken || Pending(s', p)
    {
      assert p in s.forsaken || Pending(s, p);
    }
  }

  lemma OwnPending(s: SyncState, w: nat, ok: bool)
    requires Owned(s) && OwedInv(s) && Worked(s, w, ok).Some?
    ensures var s' := Worked(s, w, ok).value; var peer := s.workers[w].peer;
            peer in s'.owed ==> peer in s'.forsaken || Pending(s', peer)
  {
    var peer := s.workers[w].peer;
    assert peer in s.owed ==> peer in s.forsaken || Pending(s, peer);
  }

  lemma WorkKeepsTaken(s: SyncState, w: nat, ok: bool)
    requires Owned(s) && TakenInv(s) && Worked(s, w, ok).Some?
    ensures TakenInv(Worked(s, w, ok).value)
  {
    var peer := s.workers[w].peer;
    var turn := Turn(s.workers[w].phase, s.syncing[peer], s.alive, peer in s.topics, ok);
    assert turn.Some? && AfterTake(turn.value.0) && turn.value.1.resubscribe ==> turn.value.1.dirty;
    hide Turn, AfterTake;
    assert forall v <- s.workers :: v != w ==> s.workers[v].peer != peer;
  }

  lemma WorkKeepsForsaken(s: SyncState, w: nat, ok: bool)
    requires ForsakenInv(s) && Worked(s, w, ok).Some?
    ensures ForsakenInv(Worked(s, w, ok).value)
  {
  }

  lemma WorkKeeps(s: SyncState, w: nat, ok: bool)
    requires SyncInv(s) && Worked(s, w, ok).Some?
    ensures SyncInv(Worked(s, w, ok).value)
  {
    hide Owned, OwedInv, TakenInv, ForsakenInv, Worked;
    WorkKeepsOwed(s, w, ok);
    WorkKeepsTaken(s, w, ok);
    WorkKeepsForsaken(s, w, ok);
  }

  lemma StepKeeps(s: SyncState, e: SyncEvent)
    requires SyncInv(s) && Step(s, e).Some?
    ensures SyncInv(Step(s, e).value)
  {
    match e
    case Schedule(peer, resubscribe, spawned) => ScheduleKeeps(s, peer, resubscribe, spawned);
    case Works(w, ok) => WorkKeeps(s, w, ok);
    case _ =>
      var s' := Step(s, e).value;
      forall p <- s'.owed
        ensures p in s'.forsaken || Pending(s', p)
      {
        assert p in s.forsaken || Pending(s, p);
      }
  }

  // ---- over every interleaving -----------------------------------------------------------------------------

  /** Events that were possible one after the other, and the states before, between and after them. */
  datatype Run = Run(events: seq<SyncEvent>, states: seq<SyncState>)

  predicate StepOf(run: Run, i: nat)
    requires |run.states| == |run.events| + 1 && i < |run.events|
  {
    Step(run.states[i], run.events[i]) == Some(run.states[i + 1])
  }

  predicate IsRun(run: Run) {
    |run.states| == |run.events| + 1 && run.states[0] == Start && forall i :: 0 <= i < |run.events| ==> StepOf(run, i)
  }

  lemma {:induction false} RunKeeps(run: Run, i: nat)
    requires IsRun(run) && i <= |run.events|
    ensures SyncInv(run.states[i])
  {
    if i == 0 {
      StartInv();
    } else {
      hide SyncInv, Step;
      RunKeeps(run, i - 1);
      assert StepOf(run, i - 1);
      StepKeeps(run.states[i - 1], run.events[i - 1]);
    }
  }

  lemma StartInv()
    ensures SyncInv(Start)
  {
  }

  /** Two workers never serve the same peer. */
  lemma OneWorkerPerPeer(run: Run, i: nat, v: nat, w: nat)
    requires IsRun(run) && i <= |run.events|
    ensures var s := run.states[i];
            v in s.workers && w in s.workers && s.workers[v].peer == s.workers[w].peer ==> v == w
  {
    RunKeeps(run, i);
  }

  /** A peer's worker that ends after a successful pass leaves no dirty edge and no restore intent behind, and owes
      no pass. */
  lemma SuccessfulExitLeavesNothing(run: Run, i: nat, w: nat, ok: bool)
    requires IsRun(run) && i <= |run.events| && w in run.states[i].workers && run.states[i].workers[w].phase.Finishing?
    ensures var s := run.states[i]; var peer := s.workers[w].peer;
            && Worked(s, w, ok).Some? && peer in s.syncing
            && (w !in Worked(s, w, ok).value.workers ==>
                  !s.syncing[peer].dirty && !s.syncing[peer].resubscribe && (peer in s.owed ==> peer in s.forsaken))
  {
    RunKeeps(run, i);
    var s := run.states[i];
    if s.workers[w].peer in s.owed { assert s.workers[w].peer in s.forsaken || Pending(s, s.workers[w].peer); }
  }

  /** No worker of the peer is about to leave without a pass. */
  ghost predicate NobodyGivesUp(s: SyncState, peer: string) {
    forall w <- s.workers :: s.workers[w].peer == peer ==> !s.workers[w].phase.GivingUp?
  }

  /** From state i to state j the runtime runs and the peer has topics; at its beginning no worker is giving up. */
  ghost predicate On(run: Run, i: nat, j: nat, peer: string) {
    && IsRun(run) && i <= j <= |run.events|
    && NobodyGivesUp(run.states[i], peer)
    && forall k :: i <= k <= j ==> run.states[k].alive && peer in run.states[k].topics
  }

  lemma NoGivingUp(s: SyncState, e: SyncEvent, peer: string)
    requires SyncInv(s) && s.alive && peer in s.topics && NobodyGivesUp(s, peer) && Step(s, e).Some?
    ensures var s' := Step(s, e).value;
            && NobodyGivesUp(s', peer) && (peer in s'.forsaken ==> peer in s.forsaken)
            && (e.Schedule? && e.peer == peer ==> peer in s'.owed && peer !in s'.forsaken)
  {
  }

  predicate IsSchedule(e: SyncEvent, peer: string) { e.Schedule? && e.peer == peer }

  /** While it is on, no worker gives up, and an event accepted in that time takes the peer off the forsaken ones for
      good. */
  lemma {:induction false} OnMeansOn(run: Run, i: nat, j: nat, peer: string)
    requires On(run, i, j, peer)
    ensures NobodyGivesUp(run.states[j], peer)
    ensures (exists k :: i <= k < j && IsSchedule(run.events[k], peer)) ==> peer !in run.states[j].forsaken
    decreases j
  {
    hide SyncInv, Step, NobodyGivesUp;
    if i < j {
      OnMeansOn(run, i, j - 1, peer);
      RunKeeps(run, j - 1);
      assert StepOf(run, j - 1);
      NoGivingUp(run.states[j - 1], run.events[j - 1], peer);
    }
  }

  /** The peer's worker is before its next pass, or bound to come back to one by a dirty flag. */
  ghost predicate BoundForAPass(s: SyncState, peer: string) {
    && peer in s.syncing && s.syncing[peer].owner in s.workers && s.workers[s.syncing[peer].owner].peer == peer
    && (s.syncing[peer].dirty || BeforePass(s.workers[s.syncing[peer].owner].phase))
  }

  /** No lost wakeup: as long as the runtime runs and the peer has topics, from whatever state on in which no worker
      of the peer is giving up, an event accepted in that time that no pass has started after yet has a worker bound
      for a pass. */
  lemma NoLostWakeup(run: Run, i: nat, k: nat, j: nat, peer: string)
    requires On(run, i, j, peer) && i <= k < j && IsSchedule(run.events[k], peer) && peer in run.states[j].owed
    ensures BoundForAPass(run.states[j], peer)
  {
    RunKeeps(run, j);
    OnMeansOn(run, i, j, peer);
    hide IsRun, Step;
    var s := run.states[j];
    assert peer in s.forsaken || Pending(s, peer);
  }

  /** How many of its own steps a worker is away from the start of its next pass. */
  function Distance(phase: Phase): nat {
    match phase
    case LookingAtTopics => 0
    case LookingAtRuntime => 1
    case PassFailed => 2
    case SubscribeFailed => 2
    case Finishing => 2
    case Subscribing => 3
    case TakingResubscribe => 4
    case Passing => 5
    case GivingUp => 6
  }

  /** And it gets there: each step of that worker starts a pass or comes closer to one, whatever the remote calls
      return. */
  lemma WakeupApproaches(s: SyncState, peer: string, ok: bool)
    requires SyncInv(s) && s.alive && peer in s.topics && BoundForAPass(s, peer) && NobodyGivesUp(s, peer)
        && peer in s.owed
    ensures var w := s.syncing[peer].owner;
            && Worked(s, w, ok).Some?
            && var s' := Worked(s, w, ok).value;
               && w in s'.workers && (if s.workers[w].phase.LookingAtTopics? then s'.workers[w].phase.Passing?
                 && peer !in s'.owed
                   else
                     Distance(s'.workers[w].phase) < Distance(s.workers[w].phase) && peer in s'.owed
                     && BoundForAPass(s', peer))
  {
  }

  /** Nobody else's step sends the worker back or takes its pass away. */
  lemma OthersDoNotDelay(s: SyncState, e: SyncEvent, peer: string)
    requires SyncInv(s) && Step(s, e).Some? && peer in s.owed && peer in s.syncing
        && (e.Works? ==> e.worker != s.syncing[peer].owner)
    ensures var s' := Step(s, e).value; var w := s.syncing[peer].owner;
            && peer in s'.owed && peer in s'.syncing && s'.syncing[peer].owner == w && w in s.workers && w in s'.workers
            && s'.workers[w] == s.workers[w] && (BoundForAPass(s, peer) ==> BoundForAPass(s', peer))
  {
    if e.Works? && Worked(s, e.worker, e.ok).Some? {
      assert s.workers[e.worker].peer != peer;
      hide Turn;
    }
  }

  /** Event n is a step of the peer's worker. */
  predicate OwnStep(run: Run, n: nat, peer: string)
    requires n < |run.events| && |run.states| == |run.events| + 1
  {
    var s, e := run.states[n], run.events[n];
    e.Works? && e.worker in s.workers && s.workers[e.worker].peer == peer
  }

  function OwnSteps(run: Run, from: nat, to: nat, peer: string): nat
    requires from <= to <= |run.events| && |run.states| == |run.events| + 1
  {
    if from == to then 0 else OwnSteps(run, from, to - 1, peer) + if OwnStep(run, to - 1, peer) then 1 else 0
  }

  lemma AfterSchedule(s: SyncState, e: SyncEvent, peer: string)
    requires SyncInv(s) && Step(s, e).Some? && IsSchedule(e, peer) && s.alive && peer in s.topics
        && NobodyGivesUp(s, peer)
    ensures var s' := Step(s, e).value;
        BoundForAPass(s', peer) && Distance(s'.workers[s'.syncing[peer].owner].phase) <= 5
  {
  }

  lemma {:induction false} DistanceShrinks(run: Run, i: nat, k: nat, j: nat, peer: string)
    requires On(run, i, j, peer) && i <= k < j && IsSchedule(run.events[k], peer)
    requires forall n :: k < n <= j ==> peer in run.states[n].owed
    ensures BoundForAPass(run.states[j], peer)
    ensures OwnSteps(run, k + 1, j, peer)
        + Distance(run.states[j].workers[run.states[j].syncing[peer].owner].phase) <= 5
    decreases j
  {
    hide Step, SyncInv, BoundForAPass, NobodyGivesUp, Distance;
    var s, e := run.states[j - 1], run.events[j - 1];
    assert StepOf(run, j - 1);
    RunKeeps(run, j - 1);
    OnMeansOn(run, i, j - 1, peer);
    if k == j - 1 {
      AfterSchedule(s, e, peer);
    } else {
      DistanceShrinks(run, i, k, j - 1, peer);
      if OwnStep(run, j - 1, peer) {
        OwnerWorks(run, j - 1, peer);
      } else {
        OtherWorks(run, j - 1, peer);
      }
    }
  }

  lemma OwnerWorks(run: Run, n: nat, peer: string)
    requires IsRun(run) && n < |run.events| && SyncInv(run.states[n]) && OwnStep(run, n, peer)
    requires var s := run.states[n];
             s.alive && peer in s.topics && BoundForAPass(s, peer) && NobodyGivesUp(s, peer) && peer in s.owed
    requires peer in run.states[n + 1].owed
    ensures var s, s' := run.states[n], run.states[n + 1];
            && BoundForAPass(s', peer)
            && Distance(s'.workers[s'.syncing[peer].owner].phase) < Distance(s.workers[s.syncing[peer].owner].phase)
  {
    var e := run.events[n];
    assert StepOf(run, n);
    assert e.worker == run.states[n].syncing[peer].owner;
    WakeupApproaches(run.states[n], peer, e.ok);
  }

  lemma OtherWorks(run: Run, n: nat, peer: string)
    requires IsRun(run) && n < |run.events| && SyncInv(run.states[n]) && !OwnStep(run, n, peer)
    requires BoundForAPass(run.states[n], peer) && peer in run.states[n].owed
    ensures var s, s' := run.states[n], run.states[n + 1];
            && BoundForAPass(s', peer)
            && Distance(s'.workers[s'.syncing[peer].owner].phase) == Distance(s.workers[s.syncing[peer].owner].phase)
  {
    assert StepOf(run, n);
    OthersDoNotDelay(run.states[n], run.events[n], peer);
  }

  // ---- what an event and a turn ask for -------------------------------------------------------------------

  /** An event finds the runtime stopped, or a worker that it makes come back once, or none, in which case a new one
      starts; the restore intent is there afterwards exactly if it was or the event brought it. */
  lemma EventIsCoalesced(s: SyncState, peer: string, resubscribe: bool, spawned: nat)
    requires Scheduled(s, peer, resubscribe, spawned).Some?
    ensures var s' := Scheduled(s, peer, resubscribe, spawned).value;
            if !s.alive then s' == s
            else
              && peer in s'.syncing && peer in s'.owed
              && s'.syncing[peer].dirty == (peer in s.syncing)
              && (s'.syncing[peer].resubscribe <==> resubscribe || (peer in s.syncing && s.syncing[peer].resubscribe))
              && s'.workers.Keys - s.workers.Keys == (if peer in s.syncing then {} else {spawned})
              && (peer !in s.syncing ==>
                    s'.syncing[peer].owner == spawned && s'.workers[spawned] == Worker(peer, LookingAtRuntime))
              && (forall w <- s.workers :: w in s'.workers && s'.workers[w] == s.workers[w])
              && (forall p <- s.syncing :: p != peer ==> p in s'.syncing && s'.syncing[p] == s.syncing[p])
  {
  }

  /** A turn that goes on keeps its slot's owner, consumes the dirty edge exactly when it comes back for it, and
      leaves a restore intent exactly if there was one that it did not take, or its own restoring failed. */
  lemma TurnConsumes(phase: Phase, slot: Slot, alive: bool, wanted: bool, ok: bool)
    ensures var turn := Turn(phase, slot, alive, wanted, ok);
            var ends := phase.PassFailed? || phase.SubscribeFailed? || phase.Finishing?;
            && (turn.None? <==> phase.GivingUp? || (ends && !slot.dirty))
            && (turn.Some? ==>
                  && turn.value.1.owner == slot.owner
                  && (turn.value.1.dirty <==> slot.dirty && !ends)
                  && (turn.value.1.resubscribe <==>
                        (slot.resubscribe && !phase.TakingResubscribe?) || phase.SubscribeFailed?)
                  && (ends ==> turn.value.0.LookingAtRuntime?)
                  && (turn.value.0.Subscribing? <==> phase.TakingResubscribe? && slot.resubscribe))
  {
  }

  // ---- how long a worker stays -------------------------------------------------------------------------

  /** How many of its own steps a worker has left at most when no further event comes; a dirty edge is worth one more
      turn. */
  function StepsLeft(s: SyncState, peer: string): nat {
    if peer !in s.syncing || s.syncing[peer].owner !in s.workers then 0
    else (if s.syncing[peer].dirty then 7 else 1) + match s.workers[s.syncing[peer].owner].phase
      case LookingAtRuntime => 5
      case LookingAtTopics => 4
      case Passing => 3
      case TakingResubscribe => 2
      case Subscribing => 1
      case _ => 0
  }

  lemma OwnStepIsOneLess(s: SyncState, e: SyncEvent, peer: string)
    requires SyncInv(s) && e.Works? && e.worker in s.workers && s.workers[e.worker].peer == peer && Step(s, e).Some?
    ensures StepsLeft(Step(s, e).value, peer) < StepsLeft(s, peer)
  {
  }

  lemma OthersKeepStepsLeft(s: SyncState, e: SyncEvent, peer: string)
    requires SyncInv(s) && Step(s, e).Some? && !IsSchedule(e, peer)
        && !(e.Works? && e.worker in s.workers && s.workers[e.worker].peer == peer)
    ensures StepsLeft(Step(s, e).value, peer) == StepsLeft(s, peer)
  {
    if e.Works? { hide Turn; }
  }

  /** A worker does not stay longer than its events ask for: without a further one it frees its slot within twelve of
      its own steps, whatever the remote calls return, because a turn consumes the dirty edge it answers. */
  lemma {:induction false} LeavesWithinTwelveSteps(run: Run, k: nat, j: nat, peer: string)
    requires IsRun(run) && k <= j <= |run.events| && forall n :: k <= n < j ==> !IsSchedule(run.events[n], peer)
    ensures OwnSteps(run, k, j, peer) + StepsLeft(run.states[j], peer) <= StepsLeft(run.states[k], peer) <= 12
    ensures OwnSteps(run, k, j, peer) >= 12 ==> peer !in run.states[j].syncing
    decreases j
  {
    hide Step, SyncInv, StepsLeft;
    RunKeeps(run, j);
    HeldHasStepsLeft(run.states[j], peer);
    HeldHasStepsLeft(run.states[k], peer);
    if k < j {
      LeavesWithinTwelveSteps(run, k, j - 1, peer);
      RunKeeps(run, j - 1);
      assert StepOf(run, j - 1);
      if OwnStep(run, j - 1, peer) {
        OwnStepIsOneLess(run.states[j - 1], run.events[j - 1], peer);
      } else {
        OthersKeepStepsLeft(run.states[j - 1], run.events[j - 1], peer);
      }
    }
  }

  lemma HeldHasStepsLeft(s: SyncState, peer: string)
    ensures StepsLeft(s, peer) <= 12
    ensures SyncInv(s) && peer in s.syncing ==> StepsLeft(s, peer) > 0
  {
  }

  /** Step n begins a full pass for the peer. */
  predicate PassStarts(run: Run, n: nat, peer: string)
    requires n < |run.events| && |run.states| == |run.events| + 1
  {
    && OwnStep(run, n, peer) && run.states[n].workers[run.events[n].worker].phase.LookingAtTopics?
    && run.events[n].worker in run.states[n + 1].workers
      && run.states[n + 1].workers[run.events[n].worker].phase.Passing?
  }

  lemma OnlyAPassPays(run: Run, n: nat, peer: string)
    requires IsRun(run) && n < |run.events| && peer in run.states[n].owed && peer !in run.states[n + 1].owed
    ensures PassStarts(run, n, peer)
  {
    assert StepOf(run, n);
  }

  lemma {:induction false} PaidByAPass(run: Run, k: nat, j: nat, peer: string)
    requires IsRun(run) && k < j <= |run.events| && peer in run.states[k].owed && peer !in run.states[j].owed
    ensures exists n :: k <= n < j && PassStarts(run, n, peer)
    decreases j
  {
    hide StepOf, PassStarts;
    if peer in run.states[j - 1].owed { OnlyAPassPays(run, j - 1, peer); } else { PaidByAPass(run, k, j - 1, peer); }
  }

  /** Under every interleaving, as long as it is on, the sixth step of the peer's worker after an accepted event
      comes after the start of a full pass that began after the event. */
  lemma ServedWithinSixSteps(run: Run, i: nat, k: nat, j: nat, peer: string)
    requires On(run, i, j, peer) && i <= k < j && IsSchedule(run.events[k], peer) && OwnSteps(run, k + 1, j, peer) > 5
    ensures exists n :: k < n < j && PassStarts(run, n, peer)
  {
    hide StepOf, OwnSteps, PassStarts, SyncInv;
    if forall n :: k < n <= j ==> peer in run.states[n].owed {
      DistanceShrinks(run, i, k, j, peer);
    } else {
      var n :| k < n <= j && peer !in run.states[n].owed;
      RunKeeps(run, k);
      OnMeansOn(run, i, k, peer);
      NowOwed(run, k, peer);
      PaidByAPass(run, k + 1, n, peer);
    }
  }

  lemma NowOwed(run: Run, k: nat, peer: string)
    requires IsRun(run) && k < |run.events| && IsSchedule(run.events[k], peer) && run.states[k].alive
    ensures peer in run.states[k + 1].owed
  {
    assert StepOf(run, k);
  }

  /** An accepted event that no pass has started after, with no worker left for its peer. */
  predicate Lost(s: SyncState, peer: string) { peer in s.owed && peer !in s.syncing }

  /** A wakeup is lost exactly in a step in which a worker that gave up leaves, with an event accepted since its last
      pass; and a worker gives up exactly when it looks and finds the runtime stopped or the peer without topics. */
  lemma LostExactlyWhen(run: Run, i: nat, peer: string)
    requires IsRun(run) && i < |run.events|
    ensures var s, s', e := run.states[i], run.states[i + 1], run.events[i];
            && (!Lost(s, peer) && Lost(s', peer) <==>
                  peer in s.owed && e.Works? && e.worker in s.workers && s.workers[e.worker] == Worker(peer, GivingUp))
            && (e.Works? && e.worker in s.workers && s.workers[e.worker].peer == peer ==>
                  (e.worker in s'.workers && s'.workers[e.worker].phase.GivingUp? <==>
                   (s.workers[e.worker].phase.LookingAtRuntime? && !s.alive)
                   || (s.workers[e.worker].phase.LookingAtTopics? && peer !in s.topics)))
  {
    RunKeeps(run, i);
    assert StepOf(run, i);
    var s, e := run.states[i], run.events[i];
    if e.Works? { LostOrNot(s, e.worker, e.ok, peer); }
  }

  lemma LostOrNot(s: SyncState, w: nat, ok: bool, peer: string)
    requires SyncInv(s) && Worked(s, w, ok).Some?
    ensures !Lost(s, peer) && Lost(Worked(s, w, ok).value, peer) <==>
        peer in s.owed && s.workers[w] == Worker(peer, GivingUp)
  {
    if peer in s.owed { assert peer in s.forsaken || Pending(s, peer); }
  }

  /** Without that the wakeup can be lost: a worker that found no topics gives up its slot later, and with it an
      event that was accepted in between, when the peer had topics again. */
  lemma LateTopicsLoseAWakeup(peer: string)
    ensures exists run: Run, j: nat :: IsRun(run) && j <= |run.events| && var s := run.states[j];
              s.alive && peer in s.topics && Lost(s, peer) && s.workers == map[]
  {
    var run := FoundNoTopics(peer);
    run := Onward(run, TopicsSet(peer));
    run := Onward(run, Schedule(peer, false, 1));
    run := Onward(run, Works(0, true));
    var last := run.states[|run.events|];
    assert last.workers.Keys == {};
    assert last.workers == map[];
  }

  /** A worker that has looked at the topics of a peer without any. */
  lemma FoundNoTopics(peer: string) returns (run: Run)
    ensures IsRun(run)
    ensures var s := run.states[|run.events|];
            && s.alive && s.topics == {} && peer in s.syncing && s.workers.Keys == {0}
              && s.workers[0] == Worker(peer, GivingUp)
  {
    run := Run([], [Start]);
    run := Onward(run, RuntimeStarts);
    run := Onward(run, Schedule(peer, false, 0));
    run := Onward(run, Works(0, true));
    run := Onward(run, Works(0, true));
  }

  lemma Onward(run: Run, e: SyncEvent) returns (longer: Run)
    requires IsRun(run) && Step(run.states[|run.events|], e).Some?
    ensures IsRun(longer) && |longer.events| == |run.events| + 1
    ensures longer.states[|longer.events|] == Step(run.states[|run.events|], e).value
  {
    hide Step;
    longer := Run(run.events + [e], run.states + [Step(run.states[|run.events|], e).value]);
    forall i | 0 <= i < |longer.events|
      ensures StepOf(longer, i)
    {
      if i < |run.events| { assert StepOf(run, i); }
    }
  }

  // ---- the code -----------------------------------------------------------------------------------------------

  class MeshWorkers {
    var alive: bool
    var topics: set<string>
    var syncing: map<string, Slot>
    var workers: map<nat, Worker>
    ghost var owed: set<string>
    ghost var forsaken: set<string>

    ghost function State(): SyncState reads this { SyncState(alive, topics, syncing, workers, owed, forsaken) }

    constructor ()
      ensures State() == Start
    {
      alive, topics, syncing, workers := false, {}, map[], map[];
      owed, forsaken := {}, {};
    }

    /** Coalesces into a running worker, or starts one, under the runtime's lock. */
    method ScheduleSync(peer: string, resubscribe: bool, spawned: nat)
      requires SyncInv(State()) && spawned !in workers
      modifies this
      ensures Step(old(State()), Schedule(peer, resubscribe, spawned)) == Some(State()) && SyncInv(State())
    {
      ScheduleKeeps(State(), peer, resubscribe, spawned);
      hide SyncInv;
      if !alive { return; }
      owed := owed + {peer};
      if peer in syncing {
        var state := syncing[peer];
        syncing := syncing[peer := state.(dirty := true, resubscribe := state.resubscribe || resubscribe)];
        return;
      }
      syncing := syncing[peer := Slot(false, resubscribe, spawned)];
      workers := workers[spawned := Worker(peer, LookingAtRuntime)];
      forsaken := forsaken - {peer};
    }

    /** The worker's turn after a failed call: another pass for a dirty edge, or the slot is released. */
    method RetryDirty(w: nat, preserveResubscribe: bool) returns (again: bool)
      requires SyncInv(State()) && w in workers
      requires workers[w].phase == if preserveResubscribe then SubscribeFailed else PassFailed
      modifies this
      ensures Worked(old(State()), w, false) == Some(State()) && SyncInv(State()) && again == (w in workers)
    {
      var peer := workers[w].peer;
      assert peer in syncing;
      WorkKeeps(State(), w, false);
      hide SyncInv;
      var state := syncing[peer].(resubscribe := syncing[peer].resubscribe || preserveResubscribe);
      if state.dirty {
        syncing := syncing[peer := state.(dirty := false)];
        workers := workers[w := Worker(peer, LookingAtRuntime)];
        return true;
      }
      syncing := syncing - {peer};
      workers := workers - {w};
      return false;
    }

    /** The end of a successful turn. */
    method FinishTurn(w: nat) returns (again: bool)
      requires SyncInv(State()) && w in workers && workers[w].phase == Finishing
      modifies this
      ensures Worked(old(State()), w, true) == Some(State()) && SyncInv(State()) && again == (w in workers)
    {
      var peer := workers[w].peer;
      assert peer in syncing;
      WorkKeeps(State(), w, true);
      hide SyncInv;
      if syncing[peer].dirty {
        syncing := syncing[peer := syncing[peer].(dirty := false)];
        workers := workers[w := Worker(peer, LookingAtRuntime)];
        return true;
      }
      syncing := syncing - {peer};
      workers := workers - {w};
      return false;
    }

    method TakeResubscribe(w: nat) returns (now: bool)
      requires SyncInv(State()) && w in workers && workers[w].phase == TakingResubscribe
      modifies this
      ensures Worked(old(State()), w, true) == Some(State()) && SyncInv(State())
      ensures now == old(syncing)[workers[w].peer].resubscribe
    {
      var peer := workers[w].peer;
      assert peer in syncing;
      WorkKeeps(State(), w, true);
      hide SyncInv;
      now := syncing[peer].resubscribe;
      syncing := syncing[peer := syncing[peer].(resubscribe := false)];
      workers := workers[w := Worker(peer, if now then Subscribing else Finishing)];
    }
  }
}
