/**
  The persistent command bus (src/control/command_queue.py): two tables of commands, the
  authoritative remote one (Supabase) and the local one (SQLite), and every statement the
  claim protocol issues against them. Each function below is one atomic statement.
  Timestamps are integers; what a remote call did is a parameter.
 */
module CommandQueue {
  import opened Options

  type Id = string

  datatype Kind = FlattenAndHalt | GoLive | EngageKillSwitch | ReleaseKillSwitch | ReloadConfig | Ping

  predicate Emergency(k: Kind) { k == FlattenAndHalt || k == EngageKillSwitch }

  datatype Status = Pending | Processing | Completed | Failed

  predicate Terminal(s: Status) { s == Completed || s == Failed }

  /** The client's idempotency key; each table holds it at most once. */
  type Key = string

  datatype Row = Row(
    kind: Kind, status: Status, createdAt: int, expiresAt: Option<int>, attempts: nat, key: Option<Key>)

  type Table = map<Id, Row>

  function Fresh(kind: Kind, createdAt: int, expiresAt: Option<int>, key: Option<Key>): Row {
    Row(kind, Pending, createdAt, expiresAt, 0, key)
  }

  predicate Holds(t: Table, key: Option<Key>) { key.Some? && exists id :: id in t && t[id].key == key }

  /** An insert violates neither unique column. */
  predicate Insertable(t: Table, id: Id, key: Option<Key>) { id !in t && !Holds(t, key) }

  predicate UniqueKeys(t: Table) {
    forall a, b :: a in t && b in t && t[a].key.Some? && t[a].key == t[b].key ==> a == b
  }

  /** The ids of the commands that may still run. */
  function Live(t: Table): set<Id> { set id | id in t && !Terminal(t[id].status) }

  const MAX_RECLAIM_ATTEMPTS: nat := 3

  /** A remote call succeeds, fails without effect, or takes effect but reports failure. */
  datatype Call = Ok | Lost | AckLost

  // ---------- atomic statements ----------

  predicate IsPending(t: Table, id: Id) { id in t && t[id].status == Pending }

  function SetStatus(t: Table, id: Id, s: Status): Table
    requires id in t
  {
    t[id := t[id].(status := s)]
  }

  /** UPDATE ... SET processing WHERE id AND pending. */
  function CompareAndSwap(t: Table, id: Id): Table {
    if IsPending(t, id) then SetStatus(t, id, Processing) else t
  }

  /** The remote terminal update carries no status guard. */
  function FinishRemote(t: Table, id: Id, s: Status): Table {
    if id in t then SetStatus(t, id, s) else t
  }

  /** The local one never overwrites a terminal row. */
  function FinishLocal(t: Table, id: Id, s: Status): Table {
    if id in t && !Terminal(t[id].status) then SetStatus(t, id, s) else t
  }

  /** An orphan goes back to pending with one more attempt, or is dead-lettered. */
  function ReclaimRow(r: Row, maxAttempts: nat): Row {
    if r.status != Processing then r
    else if r.attempts >= maxAttempts then r.(status := Failed)
    else r.(status := Pending, attempts := r.attempts + 1)
  }

  predicate Overdue(r: Row, now: int) { !Terminal(r.status) && r.expiresAt.Some? && r.expiresAt.value < now }

  function ExpireRow(r: Row, now: int): Row { if Overdue(r, now) then r.(status := Failed) else r }

  function RetireStaleRow(r: Row, cutoff: int, kind: Option<Kind>): Row {
    if r.status == Processing && r.createdAt < cutoff && (kind == None || kind == Some(r.kind))
    then r.(status := Failed) else r
  }

  /** What recovery makes of a row: an orphan with an attempt to spare is pending again and has
      spent it, one without is failed, and anything else is as it was. */
  predicate Reclaimed(r: Row, r': Row, maxAttempts: nat) {
    && (r.status == Processing && r.attempts < maxAttempts ==> r' == r.(status := Pending, attempts := r.attempts + 1))
    && (r.status == Processing && r.attempts >= maxAttempts ==> r' == r.(status := Failed))
    && (r.status != Processing ==> r' == r)
  }

  lemma ReclaimsRow(r: Row, maxAttempts: nat)
    ensures Reclaimed(r, ReclaimRow(r, maxAttempts), maxAttempts)
  {
  }

  function PendingIds(t: Table): set<Id> { set id | id in t && t[id].status == Pending }

  lemma ReclaimRaisesPending(t: Table, maxAttempts: nat)
    ensures var t' := map id | id in t :: ReclaimRow(t[id], maxAttempts);
      var back := set id | id in t && t[id].status == Processing && t[id].attempts < maxAttempts;
      |PendingIds(t')| == |PendingIds(t)| + |back|
  {
    var t' := map id | id in t :: ReclaimRow(t[id], maxAttempts);
    var back := set id | id in t && t[id].status == Processing && t[id].attempts < maxAttempts;
    assert PendingIds(t') == PendingIds(t) + back && PendingIds(t) !! back;
  }

  lemma ExpiryEndsLives(t: Table, now: int)
    ensures var t' := map id | id in t :: ExpireRow(t[id], now); var overdue := set id | id in t && Overdue(t[id], now);
      Live(t') <= Live(t) && |Live(t)| == |Live(t')| + |overdue|
  {
    var t' := map id | id in t :: ExpireRow(t[id], now);
    var overdue := set id | id in t && Overdue(t[id], now);
    assert Live(t) == Live(t') + overdue && Live(t') !! overdue;
  }

  // ---------- one claim, uninterrupted ----------

  datatype Buses = Buses(remote: Table, local: Table)

  /** Whether an uninterrupted claim with a reachable remote bus succeeds. */
  predicate Claimable(b: Buses, id: Id) {
    IsPending(b.remote, id) || (id !in b.remote && IsPending(b.local, id))
  }

  /** Both tables and the verdict after an uninterrupted claim. */
  function Claim(b: Buses, id: Id, cas: Call, look: Call): (Buses, bool) {
    if cas == Ok && IsPending(b.remote, id) then
      (Buses(CompareAndSwap(b.remote, id), CompareAndSwap(b.local, id)), true)
    else
      var b' := if cas == AckLost then b.(remote := CompareAndSwap(b.remote, id)) else b;
      if look == Ok && id in b'.remote then (b', false)
      else (b'.(local := CompareAndSwap(b'.local, id)), IsPending(b'.local, id))
  }

  /** With the remote bus reachable a claim wins exactly when the command is claimable, and
      afterwards nobody can claim it again. */
  lemma ReachableClaim(b: Buses, id: Id)
    ensures Claim(b, id, Ok, Ok).1 == Claimable(b, id)
    ensures !Claimable(Claim(b, id, Ok, Ok).0, id)
    ensures forall other :: other != id ==> (Claimable(Claim(b, id, Ok, Ok).0, other) <==> Claimable(b, other))
  {
  }

  /** The row is as it was, or was pending and is now processing. */
  predicate KeptOrClaimed(r: Row, r': Row) { r' == r || (r.status == Pending && r' == r.(status := Processing)) }

  /** Whatever the network does, a claim moves rows of its own command only, and only from
      pending to processing; it wins with such a move, and a claim that loses leaves the local
      row. One won remotely leaves no pending local copy behind. */
  lemma ClaimMovesOwnRows(b: Buses, id: Id, cas: Call, look: Call)
    ensures var (b', won) := Claim(b, id, cas, look);
      && b'.remote.Keys == b.remote.Keys && b'.local.Keys == b.local.Keys
      && (forall o :: o in b.remote ==> if o == id then KeptOrClaimed(b.remote[o], b'.remote[o]) else b'.remote[o] == b.remote[o])
      && (forall o :: o in b.local ==> if o == id then KeptOrClaimed(b.local[o], b'.local[o]) else b'.local[o] == b.local[o])
      && (won ==> (id in b.remote && b'.remote[id] != b.remote[id]) || (id in b.local && b'.local[id] != b.local[id]))
      && (!won ==> b'.local == b.local)
      && (won && cas == Ok && id in b.remote && b.remote[id].status == Pending && id in b.local ==> b'.local[id].status != Pending)
  {
  }

  /** A command the remote bus has already given out or finished is claimed again exactly when
      the remote read does not answer and a pending local copy is left. */
  lemma SecondClaimExactly(b: Buses, id: Id, cas: Call, look: Call)
    requires id in b.remote && b.remote[id].status != Pending
    ensures Claim(b, id, cas, look).1 <==> look != Ok && IsPending(b.local, id)
  {
  }

  /** `Existing` is the row that already holds the idempotency key. */
  datatype Enqueued = Staged | TtlOnEmergency | Duplicate | Existing(id: Id)

  // ---------- the bus ----------

  class CommandBus {
    var remote: Table
    var local: Table

    constructor ()
      ensures remote == map[] && local == map[]
    {
      remote, local := map[], map[];
    }

    function State(): Buses
      reads this
    {
      Buses(remote, local)
    }

    /** Stages a command locally; a safety command may not carry a TTL, and neither the id nor
        the idempotency key may be taken. */
    method EnqueueLocal(id: Id, kind: Kind, createdAt: int, expiresAt: Option<int>, key: Option<Key>) returns (r: Enqueued)
      modifies this`local
      ensures r == TtlOnEmergency <==> expiresAt.Some? && (kind == FlattenAndHalt || kind == EngageKillSwitch)
      ensures r != TtlOnEmergency ==> r == if Insertable(old(local), id, key) then Staged else Duplicate
      ensures r == Staged ==> id !in old(local) && forall o :: o in old(local) && key.Some? ==> old(local)[o].key != key
      ensures r == Duplicate ==> id in old(local) || exists o :: o in old(local) && old(local)[o].key == key && key.Some?
      ensures local == if r == Staged then old(local)[id := Row(kind, Pending, createdAt, expiresAt, 0, key)] else old(local)
      ensures UniqueKeys(old(local)) ==> UniqueKeys(local)
    {
      if expiresAt.Some? && Emergency(kind) {
        return TtlOnEmergency;
      }
      if !Insertable(local, id, key) {
        return Duplicate;
      }
      local := local[id := Row(kind, Pending, createdAt, expiresAt, 0, key)];
      r := Staged;
    }

    /** The row with this key, remote first; `look` is what the remote read did. */
    method FetchByKey(key: Key, look: Call) returns (r: Option<Id>)
      ensures r.Some? <==> (look == Ok && Holds(remote, Some(key))) || Holds(local, Some(key))
      ensures r.Some? ==> var t := if look == Ok && Holds(remote, Some(key)) then remote else local;
                          r.value in t && t[r.value].key == Some(key)
    {
      if look == Ok && Holds(remote, Some(key)) {
        var id :| id in remote && remote[id].key == Some(key);
        return Some(id);
      }
      if Holds(local, Some(key)) {
        var id :| id in local && local[id].key == Some(key);
        return Some(id);
      }
      r := None;
    }

    /** Remote first. An insert refused as a duplicate is answered with the command that holds
        the key, if one is found; any other failure stages locally under the same id. */
    method Enqueue(id: Id, kind: Kind, createdAt: int, key: Option<Key>, insert: Call, look: Call) returns (r: Enqueued)
      modifies this
      ensures remote == if insert != Lost && Insertable(old(remote), id, key)
                        then old(remote)[id := Row(kind, Pending, createdAt, None, 0, key)] else old(remote)
      ensures insert == Ok && Insertable(old(remote), id, key) ==> r == Staged && local == old(local)
      ensures r.Existing? <==> insert == Ok && !Insertable(old(remote), id, key) && key.Some?
                               && ((look == Ok && Holds(old(remote), key)) || Holds(old(local), key))
      ensures r.Existing? ==> var t := if look == Ok && Holds(remote, key) then remote else local;
        local == old(local) && r.id in t && t[r.id].key == key
      ensures !r.Existing? && !(insert == Ok && Insertable(old(remote), id, key)) ==>
        r == (if Insertable(old(local), id, key) then Staged else Duplicate)
        && local == if r == Staged then old(local)[id := Row(kind, Pending, createdAt, None, 0, key)] else old(local)
      ensures (UniqueKeys(old(remote)) ==> UniqueKeys(remote)) && (UniqueKeys(old(local)) ==> UniqueKeys(local))
    {
      var inserts := Insertable(remote, id, key);
      if insert != Lost && inserts {
        remote := remote[id := Row(kind, Pending, createdAt, None, 0, key)];
        if insert == Ok {
          return Staged;
        }
      }
      if insert == Ok && key.Some? {
        var existing := FetchByKey(key.value, look);
        if existing.Some? {
          return Existing(existing.value);
        }
      }
      r := EnqueueLocal(id, kind, createdAt, None, key);
    }

    method TransitionLocalPendingToProcessing(id: Id) returns (changed: nat)
      modifies this`local
      ensures local == CompareAndSwap(old(local), id)
      ensures changed == if IsPending(old(local), id) then 1 else 0
    {
      changed := 0;
      if id in local && local[id].status == Pending {
        local := local[id := local[id].(status := Processing)];
        changed := 1;
      }
    }

    method TryClaim(id: Id, cas: Call, look: Call) returns (won: bool)
      modifies this
      ensures (State(), won) == Claim(old(State()), id, cas, look)
    {
      if id in remote && remote[id].status == Pending && cas != Lost {
        remote := remote[id := remote[id].(status := Processing)];
        if cas == Ok {
          var _ := TransitionLocalPendingToProcessing(id);
          return true;
        }
      }
      if look == Ok && id in remote {
        return false;
      }
      var changed := TransitionLocalPendingToProcessing(id);
      won := changed > 0;
    }

    /** Returns whether the terminal status was recorded, or already was, on some bus. */
    method MarkTerminal(id: Id, s: Status, update: Call) returns (recorded: bool)
      requires Terminal(s)
      modifies this
      ensures remote == if update == Lost then old(remote) else FinishRemote(old(remote), id, s)
      ensures local == FinishLocal(old(local), id, s)
      ensures id in old(local) ==> var was := old(local)[id];
        id in local && local[id] == if was.status == Completed || was.status == Failed then was else was.(status := s)
      ensures id in old(remote) && update != Lost ==> id in remote && remote[id] == old(remote)[id].(status := s)
      ensures remote.Keys == old(remote).Keys && local.Keys == old(local).Keys
      ensures forall o :: o != id ==> (o in local ==> local[o] == old(local)[o]) && (o in remote ==> remote[o] == old(remote)[o])
      ensures recorded == ((update == Ok && id in old(remote)) || id in old(local))
    {
      recorded := false;
      if id in remote && update != Lost {
        remote := remote[id := remote[id].(status := s)];
        recorded := update == Ok;
      }
      if id in local && !Terminal(local[id].status) {
        local := local[id := local[id].(status := s)];
        recorded := true;
      }
      recorded := recorded || id in local;
    }

    /** Startup recovery of the local table; the remote one is never touched. The pending
        commands rise by exactly the number requeued. */
    method ReclaimOrphans(maxAttempts: nat) returns (requeued: nat)
      modifies this`local
      ensures local == map id | id in old(local) :: ReclaimRow(old(local)[id], maxAttempts)
      ensures forall id :: id in old(local) ==> Reclaimed(old(local)[id], local[id], maxAttempts)
      ensures |PendingIds(local)| == |PendingIds(old(local))| + requeued
      ensures requeued == |set id | id in old(local) && old(local)[id].status == Processing
                                    && old(local)[id].attempts < maxAttempts|
    {
      hide PendingIds, Reclaimed;
      ReclaimRaisesPending(local, maxAttempts);
      var before := local;
      var orphans := set id | id in before && before[id].status == Processing;
      ghost var back: set<Id> := {};
      requeued := 0;
      while orphans != {}
        invariant orphans <= set id | id in before && before[id].status == Processing
        invariant local.Keys == before.Keys
        invariant forall id :: id in before ==>
          local[id] == if id in orphans then before[id] else ReclaimRow(before[id], maxAttempts)
        invariant back == set id | id in before && id !in orphans && before[id].status == Processing
                                   && before[id].attempts < maxAttempts
        invariant requeued == |back|
        decreases orphans
      {
        var id :| id in orphans;
        orphans := orphans - {id};
        if local[id].attempts >= maxAttempts {
          local := local[id := local[id].(status := Failed)];
        } else {
          local := local[id := local[id].(status := Pending, attempts := local[id].attempts + 1)];
          requeued := requeued + 1;
          back := back + {id};
        }
      }
      assert back == set id | id in before && before[id].status == Processing && before[id].attempts < maxAttempts;
      forall id | id in before ensures Reclaimed(before[id], ReclaimRow(before[id], maxAttempts), maxAttempts) {
        ReclaimsRow(before[id], maxAttempts);
      }
    }

    /** Fails every live row past its TTL. No other row moves, nothing but a status changes,
        and the count says by how many the live commands fell; none is left overdue. */
    method RetireExpired(now: int) returns (retired: nat)
      modifies this`local
      ensures local.Keys == old(local).Keys
      ensures forall id :: id in local && local[id] != old(local)[id] ==>
        && (old(local)[id].status == Pending || old(local)[id].status == Processing)
        && local[id] == old(local)[id].(status := Failed)
        && old(local)[id].expiresAt.Some? && old(local)[id].expiresAt.value < now
      ensures forall id :: id in local && local[id].expiresAt.Some? && local[id].expiresAt.value < now ==>
        Terminal(local[id].status)
      ensures Live(local) <= Live(old(local)) && |Live(old(local))| == |Live(local)| + retired
    {
      ExpiryEndsLives(local, now);
      retired := |set id | id in local && Overdue(local[id], now)|;
      local := map id | id in local :: ExpireRow(local[id], now);
    }

    method RetireStaleOrphans(cutoff: int, kind: Option<Kind>) returns (retired: nat)
      modifies this`local
      ensures local == map id | id in old(local) :: RetireStaleRow(old(local)[id], cutoff, kind)
      ensures forall id :: id in old(local) ==>
        local[id] == if old(local)[id].status == Processing && old(local)[id].createdAt < cutoff
                        && (kind.None? || old(local)[id].kind == kind.value)
                     then old(local)[id].(status := Failed) else old(local)[id]
      ensures retired == |set id | id in old(local) && RetireStaleRow(old(local)[id], cutoff, kind) != old(local)[id]|
    {
      var before := local;
      var stale := set id | id in before && before[id].status == Processing && before[id].createdAt < cutoff
                            && (kind == None || kind == Some(before[id].kind));
      assert stale == set id | id in before && RetireStaleRow(before[id], cutoff, kind) != before[id];
      retired := |stale|;
      while stale != {}
        invariant stale <= set id | id in before && RetireStaleRow(before[id], cutoff, kind) != before[id]
        invariant local.Keys == before.Keys
        invariant forall id :: id in before ==>
          local[id] == if id in stale then before[id] else RetireStaleRow(before[id], cutoff, kind)
        decreases stale
      {
        var id :| id in stale;
        stale := stale - {id};
        local := local[id := local[id].(status := Failed)];
      }
    }
  }
}
