/**
 The supervised sessions the launch protocol relies on: internal/daemon/daemon.go's
 idempotent creation, the recorded current command and the durable inventory.
 */
module Sessions {
  import opened Wrappers
  import opened Records
  import opened RecordStore

  datatype Phase = Starting | Handshaking | Idle | Working | Stuck | Escalated | Exited | Crashed

  /** A session name: the hash of a handoff's id and digest, or any other text. */
  datatype SessionName = HandoffName(id: string, digest: Digest) | PlainName(text: string)

  /** The recorded last prompt. Evidence shows that the launch prompt's preview is the term LaunchEvidence(marker). */
  datatype Command = NoCommand | LaunchEvidence(marker: LaunchMarker) | OtherCommand(text: string)

  /** What creation fixes about a session for its whole life. */
  datatype Identity = Identity(name: SessionName, owner: string, private: bool, agent: string, cwd: string,
      instructions: string)

  datatype Session = Session(id: string, identity: Identity, phase: Phase, command: Command)

  predicate Terminal(p: Phase) { p.Exited? || p.Crashed? }

  predicate SameCaller(s: Session, want: Identity) {
    s.identity.name == want.name && s.identity.owner == want.owner && s.identity.private == want.private
  }

  predicate Reusable(s: Session, want: Identity) { SameCaller(s, want) && !Terminal(s.phase) }

  /** The inventory written to disk: terminal sessions are left out. */
  function Durable(live: map<string, Session>): map<string, Session> {
    map id | id in live && !Terminal(live[id].phase) :: live[id]
  }

  class SessionTable {
    var live: map<string, Session>
    var disk: map<string, Session>

    ghost predicate Valid() reads this {
      forall id <- live :: live[id].id == id
    }

    constructor ()
      ensures Valid() && live == map[] && disk == map[]
    {
      live, disk := map[], map[];
    }

    method FindNonTerminal(want: Identity) returns (found: Option<Session>)
      requires Valid()
      ensures found.Some? ==>
          found.value.id in live && live[found.value.id] == found.value
          && Reusable(found.value, want)
      ensures found.None? ==> forall id <- live :: !Reusable(live[id], want)
    {
      var ids := live.Keys;
      while ids != {}
        invariant ids <= live.Keys
        invariant forall id <- live.Keys - ids :: !Reusable(live[id], want)
        decreases ids
      {
        var id :| id in ids;
        ids := ids - {id};
        var snap := live[id];
        if snap.identity.name != want.name || snap.identity.owner != want.owner
          || snap.identity.private != want.private {
          continue;
        }
        if snap.phase == Exited || snap.phase == Crashed { continue; }
        return Some(snap);
      }
      return None;
    }

    /** Idempotent creation: a live session of the same caller is returned as it is, otherwise a new one is started. */
    method Create(want: Identity, freshId: string, setupOk: bool) returns (created: Option<Session>)
      requires Valid() && freshId !in live
      modifies this
      ensures Valid() && disk == old(disk)
      ensures forall id <- old(live) :: id in live && live[id] == old(live)[id]
      ensures (exists id <- old(live) :: Reusable(old(live)[id], want)) ==>
                live == old(live) && created.Some? && created.value.id in live
                  && live[created.value.id] == created.value
                && Reusable(created.value, want)
      ensures (forall id <- old(live) :: !Reusable(old(live)[id], want)) ==>
                if setupOk then created == Some(Session(freshId, want, Starting, NoCommand))
                  && live == old(live)[freshId := created.value]
                else created.None? && live == old(live)
    {
      var existing := FindNonTerminal(want);
      if existing.Some? { return existing; }
      if !setupOk { return None; }
      var started := Session(freshId, want, Starting, NoCommand);
      live := live[freshId := started];
      return Some(started);
    }

    method Persist(writeOk: bool) returns (ok: bool)
      modifies this`disk
      ensures ok == writeOk
      ensures disk == if writeOk then Durable(live) else old(disk)
    {
      if writeOk { disk := map id | id in live && !Terminal(live[id].phase) :: live[id]; }
      return writeOk;
    }
  }
}
