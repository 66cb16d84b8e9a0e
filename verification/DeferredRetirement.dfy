/**
 Retiring the source when its current turn ends: the baseline taken with the request, the
 hook events that come after it, and when the pending request may close the session.

 internal/hooks/sessionstate.go counts a turn at its prompt and stamps its end;
 internal/daemon/handoff_outbox.go compares a later snapshot with the stored baseline.
 */
module DeferredRetirement {
  import opened Wrappers
  import opened Records
  import opened RecordStore
  import opened Outbox

  datatype HookEvent =
    | PromptSubmit(at: Time)
    | ToolStart(at: Time)
    | ToolEnd(at: Time)
    | TurnEnd(at: Time)
    | Notification(at: Time)

  /** The hook state's part that the catalog shows, after one more event. */
  function Applied(turn: TurnActivity, e: HookEvent): TurnActivity {
    match e
    case PromptSubmit(_) => turn.(count := turn.count + 1)
    case TurnEnd(at) => turn.(lastEnd := if at == 0 then None else Some(at))
    case _ => turn
  }

  function Activity(history: seq<HookEvent>): TurnActivity {
    if history == [] then TurnActivity(0, None) else Applied(Activity(history[..|history| - 1]), history[|history| - 1])
  }

  /** What the catalog shows of the session's turns: nothing before the first hook event. */
  function Shown(history: seq<HookEvent>): Option<TurnActivity> {
    if history == [] then None else Some(Activity(history))
  }

  function Prompts(history: seq<HookEvent>): nat {
    if history == [] then 0 else Prompts(history[..|history| - 1]) + if history[|history| - 1].PromptSubmit? then 1
      else 0
  }

  predicate PromptIn(history: seq<HookEvent>, b: nat, k: nat) {
    exists i :: b <= i < k <= |history| && history[i].PromptSubmit?
  }

  /** Event i is the last turn end before k. */
  predicate LastEnd(history: seq<HookEvent>, i: int, k: nat) {
    0 <= i < k <= |history| && history[i].TurnEnd? && forall j :: i < j < k ==> !history[j].TurnEnd?
  }

  /** The turn counter is the number of prompts so far, so it never runs back and grows exactly at a prompt. */
  lemma {:induction false} CountIsPrompts(history: seq<HookEvent>)
    ensures Activity(history).count == Prompts(history)
    decreases |history|
  {
    if history != [] { CountIsPrompts(history[..|history| - 1]); }
  }

  lemma {:induction false} CountGrows(history: seq<HookEvent>, b: nat, k: nat)
    requires b <= k <= |history|
    ensures Activity(history[..b]).count <= Activity(history[..k]).count
    ensures Activity(history[..b]).count == Activity(history[..k]).count <==> !PromptIn(history, b, k)
    decreases k - b
  {
    if b < k {
      CountGrows(history, b, k - 1);
      assert history[..k][..k - 1] == history[..k - 1];
      assert PromptIn(history, b, k) <==> PromptIn(history, b, k - 1) || history[k - 1].PromptSubmit?;
    }
  }

  /** The shown turn end is the time of the last turn-end event. */
  lemma {:induction false} ShownEnd(history: seq<HookEvent>, k: nat)
    requires k <= |history|
    ensures Activity(history[..k]).lastEnd.Some? ==>
              exists i :: LastEnd(history, i, k) && history[i].at == Activity(history[..k]).lastEnd.value
    ensures forall i :: LastEnd(history, i, k) && history[i].at != 0 ==>
        Activity(history[..k]).lastEnd == Some(history[i].at)
    ensures Activity(history[..k]).lastEnd != Some(0)
    decreases k
  {
    if k > 0 {
      ShownEnd(history, k - 1);
      assert history[..k][..k - 1] == history[..k - 1] && history[..k][k - 1] == history[k - 1];
      if history[k - 1].TurnEnd? {
        assert LastEnd(history, k - 1, k);
        forall i | LastEnd(history, i, k)
          ensures i == k - 1
        {
        }
      } else {
        assert forall i :: LastEnd(history, i, k) <==> LastEnd(history, i, k - 1);
      }
    }
  }

  /** The catalog's honest view of the exact source session after k hook events. */
  predicate Honest(r: SourceRecord, d: Detail, history: seq<HookEvent>, k: nat) {
    k <= |history| && d.scope == r.manifest.source.scope && d.session == r.manifest.source.session
      && d.turn == Shown(history[..k])
  }

  /** r is a pending after-turn request whose baseline was taken after b hook events. */
  predicate Requested(r: SourceRecord, history: seq<HookEvent>, b: nat) {
    && r.retirement.Some? && r.retirement.value.state.Pending? && r.retirement.value.mode.AfterTurnEnd?
    && b <= |history| && r.retirement.value.baseline ==
      TurnObservation(Activity(history[..b]).count, Activity(history[..b]).lastEnd)
  }

  /** A first request stores the baseline the catalog showed, at a time no earlier than the record's last write. */
  lemma RequestTakesBaseline(r: SourceRecord, device: string, timeout: int, seen: Detail, history: seq<HookEvent>,
      b: nat, now: Time)
    requires r.retirement.None? && Honest(r, seen, history, b)
    ensures var plan := RequestPlan(r, device, AfterTurnEnd, timeout, Some(seen), now);
            plan.Call? ==>
              && Requested(plan.record, history, b) && plan.record.manifest == r.manifest
              && plan.record.retirement.value.requestedAt == Moment(TransitionTime(now, r.updated), now)
  {
    hide ValidSource;
  }

  /** The exact condition for closing: the turn counted at the request is still the last one, and its shown end lies
      after the request. */
  lemma ClosesExactlyWhen(r: SourceRecord, seen: Detail, history: seq<HookEvent>, b: nat, k: nat)
    requires Requested(r, history, b) && b <= k && Honest(r, seen, history, k) && !seen.exited
    ensures MayClose(r, Some(seen)) <==>
              && !PromptIn(history, b, k)
              && exists i :: LastEnd(history, i, k) && history[i].at > r.retirement.value.requestedAt
  {
    CountGrows(history, b, k);
    ShownEnd(history, k);
    if exists i :: LastEnd(history, i, k) && history[i].at > r.retirement.value.requestedAt {
      assert k > 0;
    }
  }

  /** Once a later turn has begun, the request never closes the source again, however many turns end. */
  lemma NeverAfterANewTurn(r: SourceRecord, seen: Detail, history: seq<HookEvent>, b: nat, k: nat, n: nat)
    requires Requested(r, history, b) && b <= k <= n && Honest(r, seen, history, n) && !seen.exited
        && PromptIn(history, b, k)
    ensures !MayClose(r, Some(seen))
  {
    ClosesExactlyWhen(r, seen, history, b, n);
    var i :| b <= i < k <= |history| && history[i].PromptSubmit?;
    assert b <= i < n <= |history|;
  }

  /** When no turn end was stamped after the request before the request was made (a clock that did not run back
      between the hook and the daemon), only the baseline turn's own end, seen after the request, closes the source. */
  lemma ClosesOnTheTurnsOwnEnd(r: SourceRecord, seen: Detail, history: seq<HookEvent>, b: nat, k: nat)
    requires Requested(r, history, b) && b <= k && Honest(r, seen, history, k) && !seen.exited
    requires forall i :: 0 <= i < b && history[i].TurnEnd? ==> history[i].at <= r.retirement.value.requestedAt
    ensures MayClose(r, Some(seen)) <==>
              && !PromptIn(history, b, k)
              && exists i :: b <= i && LastEnd(history, i, k) && history[i].at > r.retirement.value.requestedAt
  {
    ClosesExactlyWhen(r, seen, history, b, k);
    forall i | LastEnd(history, i, k) && history[i].at > r.retirement.value.requestedAt
      ensures b <= i
    {
      assert history[i].TurnEnd?;
    }
  }

  /** Without that, and only then, a request is ready before any further event: when the end it was shown is stamped
      after it. The stored baseline end that would tell the two apart is never read. */
  lemma ReadyAtOnce(r: SourceRecord, seen: Detail, history: seq<HookEvent>, b: nat)
    requires Requested(r, history, b) && Honest(r, seen, history, b) && !seen.exited
    ensures MayClose(r, Some(seen)) <==>
              r.retirement.value.baseline.lastTurnEnd.Some?
                && r.retirement.value.baseline.lastTurnEnd.value > r.retirement.value.requestedAt
  {
    if r.retirement.value.baseline.lastTurnEnd.Some? {
      ShownEnd(history, b);
      assert b > 0;
    }
  }
}
