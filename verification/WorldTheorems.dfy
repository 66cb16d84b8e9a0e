/**
 What holds in every run of the two devices: any order of operator calls, lost, late and
 repeated messages, crashes, restarts and recovery passes, over any number of handoffs.
 */
module WorldTheorems {
  import opened Wrappers
  import opened Records
  import opened RecordStore
  import opened Sessions
  import opened Outbox
  import opened Application
  import opened HandoffWorld
  import opened WorldInvariant
  import opened TargetInvariant
  import opened SessionInvariant
  import opened StepFacts

  // ---- one step of the whole world ---------------------------------------------------------------------

  ghost predicate WorldInv(w: World) {
    TableInv(w.table) && forall id :: Inv(id, Get(w, id)) && SessionsInv(id, Get(w, id), w.table)
  }

  lemma InitialInv()
    ensures WorldInv(Initial)
  {
  }

  lemma SourceFrameSessions(id: string, h: Handoff, h': Handoff, t: Table)
    requires SessionsInv(id, h, t) && SourceFrame(h, h')
    ensures SessionsInv(id, h', t)
  {
  }

  lemma AtSourceKeeps(w: World, id: string, se: SourceEvent)
    requires WorldInv(w) && Next(w, AtSource(id, se)).Some?
    ensures WorldInv(Next(w, AtSource(id, se)).value)
  {
    hide Inv, SessionsInv, TableInv, SourceNext, SourceFrame, Later, SourceCauses;
    var w' := Next(w, AtSource(id, se)).value;
    SourceKeeps(id, Get(w, id), se);
    SourceStepFacts(id, Get(w, id), se);
    SourceFrameSessions(id, Get(w, id), Get(w', id), w.table);
    assert forall other :: other != id ==> Get(w', other) == Get(w, other);
  }

  lemma AtTargetKeeps(w: World, id: string, te: TargetEvent)
    requires WorldInv(w) && Next(w, AtTarget(id, te)).Some?
    ensures WorldInv(Next(w, AtTarget(id, te)).value)
  {
    hide Inv, SessionsInv, TableInv, TargetNext, Grows;
    var w' := Next(w, AtTarget(id, te)).value;
    TargetKeeps(id, Get(w, id), w.table, te);
    TargetSessions(id, Get(w, id), w.table, te);
    forall other
      ensures Inv(other, Get(w', other)) && SessionsInv(other, Get(w', other), w'.table)
    {
      if other != id {
        assert Get(w', other) == Get(w, other);
        GrowthKeeps(other, Get(w, other), w.table, w'.table);
      }
    }
  }

  /** Everybody else's changes to the session table. */
  lemma TableStepKeeps(w: World, e: Event)
    requires TableInv(w.table) && (e.SessionMoves? || e.OtherPrompt? || e.OtherSession? || e.InventoryPersists?)
        && Next(w, e).Some?
    ensures TableInv(Next(w, e).value.table) && Grows(w.table, Next(w, e).value.table)
    ensures Next(w, e).value.handoffs == w.handoffs
  {
    if e.SessionMoves? {
      LiveUpdateKeeps(w.table, e.session, w.table.live[e.session].(phase := e.phase));
    } else if e.OtherPrompt? {
      LiveUpdateKeeps(w.table, e.session, w.table.live[e.session].(command := e.command));
    } else if e.InventoryPersists? {
      PersistKeeps(w.table);
    }
  }

  lemma RestartTable(t: Table, restored: map<string, Session>)
    requires TableInv(t) && RestoredFrom(restored, t.disk)
    ensures TableInv(t.(live := restored))
  {
  }

  /** A restart forgets the operations in progress and no durable fact. */
  lemma RestartSessions(id: string, h: Handoff, t: Table, restored: map<string, Session>)
    requires SessionsInv(id, h, t)
    ensures SessionsInv(id, h.(targetWork := TargetIdle), t.(live := restored))
  {
  }

  lemma RestartKeeps(w: World, restored: map<string, Session>)
    requires WorldInv(w) && Next(w, TargetRestarts(restored)).Some?
    ensures WorldInv(Next(w, TargetRestarts(restored)).value)
  {
    var w' := Next(w, TargetRestarts(restored)).value;
    hide Inv, SessionsInv, TableInv, RestoredFrom;
    RestartTable(w.table, restored);
    forall id
      ensures Inv(id, Get(w', id)) && SessionsInv(id, Get(w', id), w'.table)
    {
      RestartSessions(id, Get(w, id), w.table, restored);
      IdleKeeps(id, Get(w, id));
      assert Get(w', id) == Get(w, id).(targetWork := TargetIdle);
    }
  }

  lemma StepKeeps(w: World, e: Event)
    requires WorldInv(w) && Next(w, e).Some?
    ensures WorldInv(Next(w, e).value)
  {
    match e
    case AtSource(id, se) => AtSourceKeeps(w, id, se);
    case AtTarget(id, te) => AtTargetKeeps(w, id, te);
    case TargetRestarts(restored) => RestartKeeps(w, restored);
    case _ =>
      TableStepKeeps(w, e);
      hide Inv, SessionsInv, TableInv, Grows;
      var w' := Next(w, e).value;
      forall id
        ensures Inv(id, Get(w', id)) && SessionsInv(id, Get(w', id), w'.table)
      {
        assert Get(w', id) == Get(w, id);
        GrowthKeeps(id, Get(w, id), w.table, w'.table);
      }
  }

  /** What one step does to one handoff: nothing, or facts with a cause. */
  ghost predicate Stepped(id: string, w: World, e: Event, w': World) {
    var h, h' := Get(w, id), Get(w', id);
    && Later(h, h')
    && (if e.AtSource? && e.id == id then SourceFacts(h, e.se, h')
        else if e.AtTarget? && e.id == id then TargetFacts(h, w.table, e.te, h', w'.table)
        else h'.log == h.log && h'.source == h.source && h'.target == h.target)
  }

  lemma StepIs(id: string, w: World, e: Event)
    requires WorldInv(w) && Next(w, e).Some?
    ensures Stepped(id, w, e, Next(w, e).value)
  {
    hide Inv, SessionsInv, TableInv, SourceNext, TargetNext, SourceCauses, TargetCauses;
    var w' := Next(w, e).value;
    if e.AtSource? && e.id == id {
      SourceStepFacts(id, Get(w, id), e.se);
    } else if e.AtTarget? && e.id == id {
      TargetStepFacts(id, Get(w, id), w.table, e.te);
    } else if e.TargetRestarts? {
      assert Get(w', id) == Get(w, id).(targetWork := TargetIdle);
    } else {
      assert Get(w', id) == Get(w, id);
    }
  }

  /** Everybody else's steps leave the source and its launch calls alone. */
  lemma OthersLeaveTheSource(id: string, w: World, e: Event, w': World)
    requires Stepped(id, w, e, w') && !(e.AtSource? && e.id == id) && Next(w, e) == Some(w')
    ensures Get(w', id).source == Get(w, id).source && Get(w', id).net.launchCalls == Get(w, id).net.launchCalls
  {
    hide Later, TargetCauses, TargetNext, SourceNext;
  }

  // ---- runs -------------------------------------------------------------------------------------------------

  /** Events that were possible one after the other, and the worlds before, between and after them. */
  datatype Run = Run(events: seq<Event>, worlds: seq<World>)

  predicate StepOf(run: Run, i: nat)
    requires |run.worlds| == |run.events| + 1 && i < |run.events|
  {
    Next(run.worlds[i], run.events[i]) == Some(run.worlds[i + 1])
  }

  predicate IsRun(run: Run) {
    |run.worlds| == |run.events| + 1 && run.worlds[0] == Initial && forall i :: 0 <= i < |run.events| ==> StepOf(run, i)
  }

  lemma {:induction false} RunInv(run: Run, i: nat)
    requires IsRun(run) && i <= |run.events|
    ensures WorldInv(run.worlds[i])
  {
    hide WorldInv, Next;
    if i == 0 {
      InitialInv();
    } else {
      RunInv(run, i - 1);
      assert StepOf(run, i - 1);
      StepKeeps(run.worlds[i - 1], run.events[i - 1]);
    }
  }

  lemma StepOfRun(run: Run, i: nat, id: string)
    requires IsRun(run) && i < |run.events|
    ensures WorldInv(run.worlds[i]) && Stepped(id, run.worlds[i], run.events[i], run.worlds[i + 1])
  {
    hide WorldInv, Next, Stepped;
    RunInv(run, i);
    assert StepOf(run, i);
    StepIs(id, run.worlds[i], run.events[i]);
  }

  lemma LaterReflexive(h: Handoff)
    ensures Later(h, h)
  {
  }

  lemma {:induction false} RunLater(run: Run, i: nat, j: nat, id: string)
    requires IsRun(run) && i <= j <= |run.events|
    ensures Later(Get(run.worlds[i], id), Get(run.worlds[j], id))
    decreases j - i
  {
    hide Later, StepOf, WorldInv, SourceFacts, TargetFacts;
    if i == j {
      LaterReflexive(Get(run.worlds[i], id));
    } else {
      RunLater(run, i, j - 1, id);
      StepOfRun(run, j - 1, id);
      LaterTransitive(Get(run.worlds[i], id), Get(run.worlds[j - 1], id), Get(run.worlds[j], id));
    }
  }
}
