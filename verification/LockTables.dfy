/**
 The reference-counted per-id locks: lockPrepareContext and releasePrepareLock of
 internal/daemon/handoff_application.go (a one-slot channel as the lock, a wait that the
 context may cancel) and sourceHandoffLocks of internal/daemon/handoff_outbox.go (a mutex,
 no cancellation). Both are this machine; the outbox never takes the Cancel step.

 Each step is one critical section of the code, or one channel operation outside of it, so a
 run is any interleaving of any number of goroutines over any ids.
 */
module LockTables {
  import opened Wrappers

  /** A lock entry: who took its token (nobody: the token is in the channel, the mutex is free), and how many
      goroutines refer to it. */
  datatype Entry = Entry(holder: Option<nat>, refs: int)

  /** Where one goroutine is in lockPrepareContext, in the critical work it guards, or in its release. */
  datatype Goroutine =
    | Waiting(key: string, entry: nat)
    | Holding(key: string, entry: nat)
    | Leaving(key: string, entry: nat)   // the token is back, or the wait was cancelled; the reference is still counted

  /** The table of entries by id, the entries ever made by address, and the goroutines that are inside. */
  datatype LockState = LockState(table: map<string, nat>, entries: seq<Entry>, inside: map<nat, Goroutine>)

  const Start: LockState := LockState(map[], [], map[])

  datatype LockEvent =
    | Arrive(who: nat, key: string)
    | TakeToken(who: nat)
    | Cancel(who: nat)
    | ReturnToken(who: nat)
    | Release(who: nat)

  /** The entry under the table's mutex: the one there, or a new one with its token in the channel. */
  function Looked(s: LockState, key: string): LockState {
    if key in s.table then s else s.(table := s.table[key := |s.entries|], entries := s.entries + [Entry(None, 0)])
  }

  predicate At(s: LockState, who: nat) { who in s.inside && s.inside[who].entry < |s.entries| }

  function Counting(s: LockState, a: nat, change: int): LockState
    requires a < |s.entries|
  {
    s.(entries := s.entries[a := s.entries[a].(refs := s.entries[a].refs + change)])
  }

  function Handing(s: LockState, a: nat, holder: Option<nat>): LockState
    requires a < |s.entries|
  {
    s.(entries := s.entries[a := s.entries[a].(holder := holder)])
  }

  function Arrived(s: LockState, who: nat, key: string): Option<LockState> {
    var s1 := Looked(s, key);
    var a := s1.table[key];
    if who in s.inside || a >= |s1.entries| then None
    else Some(Counting(s1, a, 1).(inside := s.inside[who := Waiting(key, a)]))
  }

  /** One step, or None when it is not possible; a send into a full channel is not possible. */
  function Step(s: LockState, e: LockEvent): Option<LockState> {
    if e.Arrive? then Arrived(s, e.who, e.key)
    else if !At(s, e.who) then None
    else
      var key, a := s.inside[e.who].key, s.inside[e.who].entry;
      match e
      case TakeToken(who) =>
        if !s.inside[who].Waiting? || s.entries[a].holder.Some? then None
        else Some(Handing(s, a, Some(who)).(inside := s.inside[who := Holding(key, a)]))
      case Cancel(who) =>
        if !s.inside[who].Waiting? then None else Some(s.(inside := s.inside[who := Leaving(key, a)]))
      case ReturnToken(who) =>
        if !s.inside[who].Holding? || s.entries[a].holder.None? then None
        else Some(Handing(s, a, None).(inside := s.inside[who := Leaving(key, a)]))
      case Release(who) =>
        if !s.inside[who].Leaving? then None
        else
          var s1 := Counting(s, a, -1);
          Some(s1.(table := if s1.entries[a].refs == 0 then s.table - {key} else s.table, inside := s.inside - {who}))
  }

  // ---- the invariant ----------------------------------------------------------------------------------

  ghost function Users(inside: map<nat, Goroutine>, a: nat): set<nat> { set w <- inside | inside[w].entry == a }

  lemma MovedUsers(inside: map<nat, Goroutine>, who: nat, g: Goroutine, a: nat)
    requires who in inside && g.entry == inside[who].entry
    ensures Users(inside[who := g], a) == Users(inside, a)
  {
  }

  lemma AddedUsers(inside: map<nat, Goroutine>, who: nat, g: Goroutine, a: nat)
    requires who !in inside
    ensures |Users(inside[who := g], a)| == |Users(inside, a)| + if g.entry == a then 1 else 0
  {
    assert Users(inside[who := g], a) == if g.entry == a then Users(inside, a) + {who} else Users(inside, a);
  }

  lemma RemovedUsers(inside: map<nat, Goroutine>, who: nat, a: nat)
    requires who in inside
    ensures |Users(inside - {who}, a)| == |Users(inside, a)| - if inside[who].entry == a then 1 else 0
  {
    assert Users(inside - {who}, a) == Users(inside, a) - {who};
    if inside[who].entry == a { assert who in Users(inside, a); }
  }

  /** A goroutine refers to the entry that the table has for its id, and no two ids share one. */
  ghost predicate TableInv(s: LockState) {
    && (forall w <- s.inside :: s.inside[w].key in s.table && s.table[s.inside[w].key] == s.inside[w].entry)
    && (forall key <- s.table :: s.table[key] < |s.entries|)
    && (forall k1 <- s.table, k2 <- s.table :: s.table[k1] == s.table[k2] ==> k1 == k2)
  }

  ghost predicate CountInv(s: LockState) {
    && (forall a :: 0 <= a < |s.entries| ==> s.entries[a].refs == |Users(s.inside, a)|)
    && (forall key <- s.table :: s.table[key] < |s.entries| ==> s.entries[s.table[key]].refs > 0)
  }

  /** The token is with exactly the goroutine that holds the entry. */
  ghost predicate TokenInv(s: LockState) {
    && (forall w <- s.inside :: s.inside[w].Holding? && s.inside[w].entry < |s.entries| ==>
      s.entries[s.inside[w].entry].holder == Some(w))
    && (forall a :: 0 <= a < |s.entries| && s.entries[a].holder.Some? ==>
          s.entries[a].holder.value in s.inside && s.inside[s.entries[a].holder.value].Holding?
            && s.inside[s.entries[a].holder.value].entry == a)
  }

  ghost predicate LockInv(s: LockState) { TableInv(s) && CountInv(s) && TokenInv(s) }

  lemma ArriveKeepsTable(s: LockState, who: nat, key: string)
    requires TableInv(s) && who !in s.inside
    ensures Arrived(s, who, key).Some? && TableInv(Arrived(s, who, key).value)
  {
  }

  /** The state after an arrival, written out. */
  lemma ArrivedState(s: LockState, who: nat, key: string)
    requires LockInv(s) && who !in s.inside
    ensures key in s.table ==>
              var a := s.table[key];
              a < |s.entries|
              && Arrived(s, who, key) ==
                Some(LockState(s.table, s.entries[a := s.entries[a].(refs := s.entries[a].refs + 1)],
                s.inside[who := Waiting(key, a)]))
    ensures key !in s.table ==>
              var a := |s.entries|; var made := s.entries + [Entry(None, 0)];
              Arrived(s, who, key) == Some(LockState(s.table[key := a], made[a := made[a].(refs := made[a].refs + 1)],
                s.inside[who := Waiting(key, a)]))
  {
    hide CountInv, TokenInv;
  }

  lemma ArriveKeepsToken(s: LockState, who: nat, key: string)
    requires TokenInv(s) && who !in s.inside && Arrived(s, who, key).Some?
    requires TableInv(s)
    ensures TokenInv(Arrived(s, who, key).value)
  {
  }

  lemma ArriveKeepsCount(s: LockState, who: nat, key: string)
    requires TableInv(s) && CountInv(s) && who !in s.inside && Arrived(s, who, key).Some?
    ensures CountInv(Arrived(s, who, key).value)
  {
    var s' := Arrived(s, who, key).value;
    assert Users(s.inside, |s.entries|) == {};
    hide Users;
    forall b | 0 <= b < |s'.entries|
      ensures s'.entries[b].refs == |Users(s'.inside, b)|
    {
      AddedUsers(s.inside, who, s'.inside[who], b);
    }
  }

  /** A step that only moves one goroutine, and perhaps the token of its entry. */
  lemma MoveFrame(s: LockState, e: LockEvent)
    requires (e.TakeToken? || e.Cancel? || e.ReturnToken?) && Step(s, e).Some?
    ensures var s' := Step(s, e).value;
            && e.who in s.inside && e.who in s'.inside && s'.inside == s.inside[e.who := s'.inside[e.who]]
            && s'.inside[e.who].entry == s.inside[e.who].entry && s'.inside[e.who].key == s.inside[e.who].key
            && s'.table == s.table && |s'.entries| == |s.entries|
            && forall a :: 0 <= a < |s.entries| ==> s'.entries[a].refs == s.entries[a].refs
  {
  }

  lemma MoveKeepsTable(s: LockState, e: LockEvent)
    requires TableInv(s) && (e.TakeToken? || e.Cancel? || e.ReturnToken?) && Step(s, e).Some?
    ensures TableInv(Step(s, e).value)
  {
    MoveFrame(s, e);
    hide Step;
  }

  lemma MoveKeepsCount(s: LockState, e: LockEvent)
    requires CountInv(s) && (e.TakeToken? || e.Cancel? || e.ReturnToken?) && Step(s, e).Some?
    ensures CountInv(Step(s, e).value)
  {
    MoveFrame(s, e);
    hide Step, Users;
    var s' := Step(s, e).value;
    forall b | 0 <= b < |s'.entries|
      ensures s'.entries[b].refs == |Users(s'.inside, b)|
    {
      MovedUsers(s.inside, e.who, s'.inside[e.who], b);
    }
  }

  lemma MoveKeepsToken(s: LockState, e: LockEvent)
    requires TokenInv(s) && (e.TakeToken? || e.Cancel? || e.ReturnToken?) && Step(s, e).Some?
    ensures TokenInv(Step(s, e).value)
  {
  }

  lemma ReleaseKeepsCount(s: LockState, who: nat)
    requires TableInv(s) && CountInv(s) && Step(s, Release(who)).Some?
    ensures CountInv(Step(s, Release(who)).value)
  {
    hide Users;
    var s' := Step(s, Release(who)).value;
    forall b | 0 <= b < |s'.entries|
      ensures s'.entries[b].refs == |Users(s'.inside, b)|
    {
      RemovedUsers(s.inside, who, b);
    }
  }

  /** The last reference deletes the id's entry: that entry is still this one, and nobody else refers to it. */
  lemma ReleaseKeepsTable(s: LockState, who: nat)
    requires TableInv(s) && CountInv(s) && Step(s, Release(who)).Some?
    ensures TableInv(Step(s, Release(who)).value)
  {
    ReleaseKeepsCount(s, who);
    var s' := Step(s, Release(who)).value;
    var key, a := s.inside[who].key, s.inside[who].entry;
    forall w <- s'.inside
      ensures s'.inside[w].key in s'.table && s'.table[s'.inside[w].key] == s'.inside[w].entry
    {
      if s'.inside[w].key == key { assert w in Users(s'.inside, a); }
    }
  }

  lemma ReleaseKeepsToken(s: LockState, who: nat)
    requires TokenInv(s) && Step(s, Release(who)).Some?
    ensures TokenInv(Step(s, Release(who)).value)
  {
  }

  lemma StepKeeps(s: LockState, e: LockEvent)
    requires LockInv(s) && Step(s, e).Some?
    ensures LockInv(Step(s, e).value)
  {
    hide TableInv, CountInv, TokenInv;
    if e.Arrive? {
      ArriveKeepsTable(s, e.who, e.key);
      ArriveKeepsToken(s, e.who, e.key);
      ArriveKeepsCount(s, e.who, e.key);
    } else if e.Release? {
      ReleaseKeepsTable(s, e.who);
      ReleaseKeepsCount(s, e.who);
      ReleaseKeepsToken(s, e.who);
    } else {
      MoveKeepsTable(s, e);
      MoveKeepsCount(s, e);
      MoveKeepsToken(s, e);
    }
  }

  // ---- over every interleaving ---------------------------------------------------------------------------

  /** Events that were possible one after the other, and the states before, between and after them. */
  datatype Run = Run(events: seq<LockEvent>, states: seq<LockState>)

  predicate StepOf(run: Run, i: nat)
    requires |run.states| == |run.events| + 1 && i < |run.events|
  {
    Step(run.states[i], run.events[i]) == Some(run.states[i + 1])
  }

  predicate IsRun(run: Run) {
    |run.states| == |run.events| + 1 && run.states[0] == Start && forall i :: 0 <= i < |run.events| ==> StepOf(run, i)
  }

  lemma {:induction false} RunKeeps(run: Run, i: nat)
    requires IsRun(run) && i <= |run.events|
    ensures LockInv(run.states[i])
  {
    if i > 0 {
      hide LockInv, Step;
      RunKeeps(run, i - 1);
      assert StepOf(run, i - 1);
      StepKeeps(run.states[i - 1], run.events[i - 1]);
    }
  }

  /** Two goroutines never hold the same id. */
  lemma MutualExclusion(run: Run, i: nat, v: nat, w: nat)
    requires IsRun(run) && i <= |run.events|
    ensures var s := run.states[i];
            v in s.inside && w in s.inside && s.inside[v].Holding? && s.inside[w].Holding?
            && s.inside[v].key == s.inside[w].key ==>
              v == w
  {
    RunKeeps(run, i);
  }

  /** An entry in the table counts exactly the goroutines waiting for, holding or leaving its id, and there is one;
      an id nobody refers to has no entry. */
  lemma RefsCount(run: Run, i: nat, key: string)
    requires IsRun(run) && i <= |run.events|
    ensures var s := run.states[i];
            var users := set w <- s.inside | s.inside[w].key == key;
            if key in s.table then s.table[key] < |s.entries| && s.entries[s.table[key]].refs == |users| > 0
              else users == {}
  {
    RunKeeps(run, i);
    var s := run.states[i];
    if key in s.table {
      assert Users(s.inside, s.table[key]) == set w <- s.inside | s.inside[w].key == key;
    }
  }

  /** The release's send never finds the channel full, and counting down never passes zero. */
  lemma ReleaseNeverBlocks(run: Run, i: nat, who: nat)
    requires IsRun(run) && i <= |run.events| && who in run.states[i].inside
    ensures var s := run.states[i];
            && (s.inside[who].Holding? ==> Step(s, ReturnToken(who)).Some?)
            && (s.inside[who].Leaving? ==> Step(s, Release(who)).Some? && s.entries[s.inside[who].entry].refs >= 1)
            && (s.inside[who].Waiting? ==> Step(s, Cancel(who)).Some?)
  {
    RunKeeps(run, i);
    var s := run.states[i];
    assert who in Users(s.inside, s.inside[who].entry);
  }

  /** No token is lost: a waiter can enter unless someone holds its id right now. */
  lemma NoLostToken(run: Run, i: nat, who: nat)
    requires IsRun(run) && i <= |run.events| && who in run.states[i].inside && run.states[i].inside[who].Waiting?
    ensures var s := run.states[i];
            Step(s, TakeToken(who)).Some? <==>
              !exists w <- s.inside :: s.inside[w] == Holding(s.inside[who].key, s.inside[w].entry)
  {
    RunKeeps(run, i);
    var s := run.states[i];
    var a := s.inside[who].entry;
    if s.entries[a].holder.Some? {
      assert s.inside[s.entries[a].holder.value].key == s.inside[who].key;
    }
  }

  /** An id's entry is only ever removed by its last user, and its address is never another id's. */
  lemma RemovedByTheLast(run: Run, i: nat, e: LockEvent, key: string)
    requires IsRun(run) && i <= |run.events| && Step(run.states[i], e).Some?
    requires key in run.states[i].table && key !in Step(run.states[i], e).value.table
    ensures var s := run.states[i];
            e.Release? && At(s, e.who) && s.inside[e.who].key == key
              && forall w <- s.inside :: s.inside[w].key == key ==> w == e.who
  {
    RunKeeps(run, i);
    var s := run.states[i];
    var a := s.inside[e.who].entry;
    assert e.who in Users(s.inside, a) && |Users(s.inside, a)| == 1;
    forall w <- s.inside | s.inside[w].key == key
      ensures w == e.who
    {
      assert w in Users(s.inside, a);
      assert Users(s.inside, a) == {e.who} + (Users(s.inside, a) - {e.who});
    }
  }

  // ---- the code ------------------------------------------------------------------------------------------

  /** The table of lock entries; each method is one critical section or channel operation. */
  class PrepareLocks {
    var table: map<string, nat>
    var entries: seq<Entry>
    var inside: map<nat, Goroutine>

    ghost function State(): LockState reads this { LockState(table, entries, inside) }

    constructor ()
      ensures State() == Start
    {
      table, entries, inside := map[], [], map[];
    }

    /** Finds or makes the entry and counts the caller, all under the table's mutex. */
    method Arrive(who: nat, key: string)
      requires LockInv(State()) && who !in inside
      modifies this
      ensures Step(old(State()), LockEvent.Arrive(who, key)) == Some(State()) && LockInv(State())
    {
      ArrivedState(State(), who, key);
      StepKeeps(State(), LockEvent.Arrive(who, key));
      hide LockInv, Arrived;
      var found, made := table, entries;
      if key !in table {
        found := table[key := |entries|];
        made := entries + [Entry(None, 0)];
      }
      var a := found[key];
      made := made[a := made[a].(refs := made[a].refs + 1)];
      table, entries, inside := found, made, inside[who := Waiting(key, a)];
    }

    /** The select: the token, or the context's end when that comes first. */
    method Wait(who: nat, cancelled: bool) returns (entered: bool)
      requires LockInv(State()) && who in inside && inside[who].Waiting? && At(State(), who)
      requires !cancelled ==> entries[inside[who].entry].holder.None?
      modifies this
      ensures entered == !cancelled && LockInv(State())
      ensures Step(old(State()), if cancelled then Cancel(who) else TakeToken(who)) == Some(State())
    {
      StepKeeps(State(), if cancelled then Cancel(who) else TakeToken(who));
      hide LockInv, TableInv, CountInv, TokenInv;
      var key, a := inside[who].key, inside[who].entry;
      if cancelled {
        inside := inside[who := Leaving(key, a)];
        return false;
      }
      entries, inside := entries[a := entries[a].(holder := Some(who))], inside[who := Holding(key, a)];
      return true;
    }

    /** The send back into the channel, which the requires shows to be empty for every holder. */
    method ReturnToken(who: nat)
      requires LockInv(State()) && who in inside && inside[who].Holding?
      modifies this
      ensures Step(old(State()), LockEvent.ReturnToken(who)) == Some(State()) && LockInv(State())
    {
      var key, a := inside[who].key, inside[who].entry;
      assert At(State(), who) && entries[a].holder == Some(who);
      StepKeeps(State(), LockEvent.ReturnToken(who));
      hide LockInv, TableInv, CountInv, TokenInv;
      entries, inside := entries[a := entries[a].(holder := None)], inside[who := Leaving(key, a)];
    }

    method Release(who: nat)
      requires LockInv(State()) && who in inside && inside[who].Leaving?
      modifies this
      ensures Step(old(State()), LockEvent.Release(who)) == Some(State()) && LockInv(State())
    {
      var key, a := inside[who].key, inside[who].entry;
      assert At(State(), who);
      StepKeeps(State(), LockEvent.Release(who));
      hide LockInv, TableInv, CountInv, TokenInv;
      var entry := entries[a].(refs := entries[a].refs - 1);
      var kept := table;
      if entry.refs == 0 { kept := table - {key}; }
      table, entries, inside := kept, entries[a := entry], inside - {who};
    }
  }
}
