/**
  The merged fetch and the emergency poller (src/control/command_queue.py). The rows each
  bus returns are parameters; merging them is shown to be one ordered, limited select over
  the union of both buses.
 */
module CommandFetch {
  import opened Options
  import opened CommandQueue

  datatype Command = Command(id: Id, kind: Kind, createdAt: int)

  function Ids(s: seq<Command>): set<Id> { set c | c in s :: c.id }

  predicate Distinct(s: seq<Command>) { forall i, j :: 0 <= i < j < |s| ==> s[i].id != s[j].id }

  predicate Sorted(s: seq<Command>) { forall i, j :: 0 <= i < j < |s| ==> s[i].createdAt <= s[j].createdAt }

  /** The command is a pending row of the table. */
  predicate Listed(t: Table, c: Command) {
    IsPending(t, c.id) && t[c.id].kind == c.kind && t[c.id].createdAt == c.createdAt
  }

  /** SELECT pending ORDER BY created_at LIMIT cap: ties in any order. */
  ghost predicate IsOldest(t: Table, cap: nat, rows: seq<Command>) {
    && Distinct(rows) && Sorted(rows) && |rows| <= cap
    && (forall c :: c in rows ==> Listed(t, c))
    && (forall id :: IsPending(t, id) && id !in Ids(rows) ==>
          |rows| == cap && forall c :: c in rows ==> c.createdAt <= t[id].createdAt)
  }

  /** A command held by both buses is the same command on both. */
  predicate Agree(b: Buses) {
    forall id :: id in b.remote && id in b.local ==>
      b.remote[id].kind == b.local[id].kind && b.remote[id].createdAt == b.local[id].createdAt
  }

  /** The pending rows of both buses as one table. */
  function Union(b: Buses): Table {
    map id | id in b.remote.Keys + b.local.Keys && (IsPending(b.remote, id) || IsPending(b.local, id)) ::
      if IsPending(b.remote, id) then b.remote[id] else b.local[id]
  }

  // ---------- the stable sort by creation time ----------

  function Insert(s: seq<Command>, c: Command): seq<Command> {
    if |s| == 0 || s[|s| - 1].createdAt <= c.createdAt then s + [c]
    else Insert(s[..|s| - 1], c) + [s[|s| - 1]]
  }

  function SortByCreation(s: seq<Command>): seq<Command> {
    if |s| == 0 then [] else Insert(SortByCreation(s[..|s| - 1]), s[|s| - 1])
  }

  lemma {:induction false} InsertAdds(s: seq<Command>, c: Command)
    ensures multiset(Insert(s, c)) == multiset(s) + multiset{c} && |Insert(s, c)| == |s| + 1
  {
    if |s| > 0 && s[|s| - 1].createdAt > c.createdAt {
      InsertAdds(s[..|s| - 1], c);
      assert s == s[..|s| - 1] + [s[|s| - 1]];
    }
  }

  lemma InsertMember(s: seq<Command>, c: Command, x: Command)
    requires x in Insert(s, c)
    ensures x in s || x == c
  {
    InsertAdds(s, c);
    assert x in multiset(Insert(s, c));
  }

  lemma {:induction false} InsertStaysSorted(s: seq<Command>, c: Command)
    requires Sorted(s)
    ensures Sorted(Insert(s, c))
  {
    if |s| > 0 && s[|s| - 1].createdAt > c.createdAt {
      var front, last := s[..|s| - 1], s[|s| - 1];
      InsertStaysSorted(front, c);
      var r := Insert(front, c);
      forall i | 0 <= i < |r| ensures r[i].createdAt <= last.createdAt {
        InsertMember(front, c, r[i]);
      }
      AppendLast(r, last);
    }
  }

  lemma AppendLast(r: seq<Command>, last: Command)
    requires Sorted(r) && forall i :: 0 <= i < |r| ==> r[i].createdAt <= last.createdAt
    ensures Sorted(r + [last])
  {
  }

  lemma {:induction false} SortKeeps(s: seq<Command>)
    ensures Sorted(SortByCreation(s)) && multiset(SortByCreation(s)) == multiset(s)
    ensures |SortByCreation(s)| == |s|
  {
    if |s| > 0 {
      SortKeeps(s[..|s| - 1]);
      InsertAdds(SortByCreation(s[..|s| - 1]), s[|s| - 1]);
      InsertStaysSorted(SortByCreation(s[..|s| - 1]), s[|s| - 1]);
      assert s == s[..|s| - 1] + [s[|s| - 1]];
    }
  }

  // ---------- counting ids ----------

  lemma IdsOfAppend(s: seq<Command>, c: Command)
    ensures Ids(s + [c]) == Ids(s) + {c.id}
    ensures Distinct(s + [c]) <==> Distinct(s) && c.id !in Ids(s)
  {
    var t := s + [c];
    assert forall x :: x in t <==> x in s || x == c;
    if Distinct(t) {
      forall i, j | 0 <= i < j < |s| ensures s[i].id != s[j].id {
        assert t[i].id != t[j].id;
      }
      forall x | x in s ensures x.id != c.id {
        var i :| 0 <= i < |s| && s[i] == x;
        assert t[i].id != t[|s|].id;
      }
    }
    if Distinct(s) && c.id !in Ids(s) {
      forall i | 0 <= i < |s| ensures s[i].id != c.id {
        assert s[i] in s;
      }
    }
  }

  lemma {:induction false} IdCount(s: seq<Command>)
    ensures |Ids(s)| <= |s|
    ensures Distinct(s) <==> |Ids(s)| == |s|
  {
    if |s| > 0 {
      var front, last := s[..|s| - 1], s[|s| - 1];
      assert s == front + [last];
      hide Ids, Distinct;
      IdCount(front);
      IdsOfAppend(front, last);
      if last.id in Ids(front) {
        assert Ids(front) + {last.id} == Ids(front);
      }
    }
  }

  lemma SubsetCount(a: set<Id>, b: set<Id>)
    requires a <= b
    ensures |a| <= |b|
  {
    if a != b {
      assert |b - a| + |a| == |b|;
    }
  }

  lemma DistinctSurvivesSort(s: seq<Command>)
    requires Distinct(s)
    ensures Distinct(SortByCreation(s)) && Ids(SortByCreation(s)) == Ids(s)
  {
    var r := SortByCreation(s);
    SortKeeps(s);
    forall c ensures c in r <==> c in s {
      assert c in r <==> c in multiset(r);
      assert c in s <==> c in multiset(s);
    }
    assert Ids(r) == Ids(s);
    IdCount(s);
    IdCount(r);
  }

  /** If more than `j` distinct members are at most `x`, the `j`-th in order is. */
  lemma EnoughBelow(sorted: seq<Command>, low: set<Id>, j: nat, x: int)
    requires Sorted(sorted) && Distinct(sorted) && j < |sorted| && |low| > j
    requires forall id :: id in low ==> exists c :: c in sorted && c.id == id && c.createdAt <= x
    ensures sorted[j].createdAt <= x
  {
    if sorted[j].createdAt > x {
      forall id | id in low ensures id in Ids(sorted[..j]) {
        var c :| c in sorted && c.id == id && c.createdAt <= x;
        var i :| 0 <= i < |sorted| && sorted[i] == c;
        assert i < j;
        assert sorted[..j][i] == c;
      }
      IdCount(sorted[..j]);
      SubsetCount(low, Ids(sorted[..j]));
    }
  }

  // ---------- the merge ----------

  /** The merged list before sorting: remote rows, then the local ones not among them. */
  ghost predicate IsMerge(remoteRows: seq<Command>, localRows: seq<Command>, merged: seq<Command>) {
    && Distinct(merged)
    && (forall c :: c in merged ==> c in remoteRows || c in localRows)
    && Ids(merged) == Ids(remoteRows) + Ids(localRows)
  }

  lemma RowsAreInUnion(b: Buses, cap: nat, remoteRows: seq<Command>, localRows: seq<Command>, c: Command)
    requires Agree(b) && IsOldest(b.remote, cap, remoteRows) && IsOldest(b.local, cap, localRows)
    requires c in remoteRows || c in localRows
    ensures Listed(Union(b), c)
  {
  }

  /** A pending id the cap kept out of the merge has `cap` older ids in it. */
  lemma LeftOut(b: Buses, cap: nat, remoteRows: seq<Command>, localRows: seq<Command>, merged: seq<Command>, id: Id)
    returns (older: set<Id>)
    requires Agree(b) && IsOldest(b.remote, cap, remoteRows) && IsOldest(b.local, cap, localRows)
    requires IsMerge(remoteRows, localRows, merged) && IsPending(Union(b), id) && id !in Ids(merged)
    ensures |older| == cap && older <= Ids(merged)
    ensures forall c :: c in merged && c.id in older ==> c.createdAt <= Union(b)[id].createdAt
  {
    var t, rows := b.local, localRows;
    if IsPending(b.remote, id) {
      t, rows := b.remote, remoteRows;
    }
    older := Ids(rows);
    IdCount(rows);
    forall c | c in merged && c.id in older ensures c.createdAt <= Union(b)[id].createdAt {
      var r :| r in rows && r.id == c.id;
      RowsAreInUnion(b, cap, remoteRows, localRows, c);
      RowsAreInUnion(b, cap, remoteRows, localRows, r);
      assert c.createdAt == r.createdAt;
    }
  }

  /** Sorting and cutting the merge gives the oldest of the union. */
  lemma MergeIsOldestOfUnion(b: Buses, cap: nat, remoteRows: seq<Command>, localRows: seq<Command>, merged: seq<Command>)
    requires Agree(b) && IsOldest(b.remote, cap, remoteRows) && IsOldest(b.local, cap, localRows)
    requires IsMerge(remoteRows, localRows, merged)
    ensures var sorted := SortByCreation(merged);
            IsOldest(Union(b), cap, if |sorted| <= cap then sorted else sorted[..cap])
  {
    var sorted := SortByCreation(merged);
    SortKeeps(merged);
    DistinctSurvivesSort(merged);
    var batch := if |sorted| <= cap then sorted else sorted[..cap];
    forall c | c in sorted ensures c in merged && Listed(Union(b), c) {
      assert c in multiset(sorted);
      RowsAreInUnion(b, cap, remoteRows, localRows, c);
    }
    forall id | IsPending(Union(b), id) && id !in Ids(batch)
      ensures |batch| == cap
      ensures forall c :: c in batch ==> c.createdAt <= Union(b)[id].createdAt
    {
      CutOff(b, cap, remoteRows, localRows, merged, sorted, batch, id);
    }
  }

  lemma CutOff(b: Buses, cap: nat, remoteRows: seq<Command>, localRows: seq<Command>, merged: seq<Command>,
               sorted: seq<Command>, batch: seq<Command>, id: Id)
    requires Agree(b) && IsOldest(b.remote, cap, remoteRows) && IsOldest(b.local, cap, localRows)
    requires IsMerge(remoteRows, localRows, merged)
    requires Sorted(sorted) && Distinct(sorted) && Ids(sorted) == Ids(merged)
    requires forall c :: c in sorted ==> c in merged && Listed(Union(b), c)
    requires batch == if |sorted| <= cap then sorted else sorted[..cap]
    requires IsPending(Union(b), id) && id !in Ids(batch)
    ensures |batch| == cap
    ensures forall c :: c in batch ==> c.createdAt <= Union(b)[id].createdAt
  {
    hide IsOldest, Agree, Union, IsMerge, Distinct;
    var x := Union(b)[id].createdAt;
    if id in Ids(sorted) {
      var c :| c in sorted && c.id == id;
      CutByPosition(sorted, cap, batch, c);
      assert Listed(Union(b), c);
    } else {
      var older := LeftOut(b, cap, remoteRows, localRows, merged, id);
      forall o | o in older ensures exists c :: c in sorted && c.id == o && c.createdAt <= x {
        assert o in Ids(sorted);
        var c :| c in sorted && c.id == o;
      }
      CutByCount(sorted, cap, batch, older, x);
    }
  }

  lemma CutByPosition(sorted: seq<Command>, cap: nat, batch: seq<Command>, c: Command)
    requires Sorted(sorted) && batch == if |sorted| <= cap then sorted else sorted[..cap]
    requires c in sorted && c.id !in Ids(batch)
    ensures |batch| == cap && forall d :: d in batch ==> d.createdAt <= c.createdAt
  {
    var j :| 0 <= j < |sorted| && sorted[j] == c;
    forall i | 0 <= i < |batch| ensures batch[i].id != c.id {
      assert batch[i] in batch;
    }
  }

  lemma CutByCount(sorted: seq<Command>, cap: nat, batch: seq<Command>, older: set<Id>, x: int)
    requires Sorted(sorted) && Distinct(sorted) && batch == if |sorted| <= cap then sorted else sorted[..cap]
    requires |older| == cap && older <= Ids(sorted)
    requires forall o :: o in older ==> exists c :: c in sorted && c.id == o && c.createdAt <= x
    ensures |batch| == cap && forall d :: d in batch ==> d.createdAt <= x
  {
    IdCount(sorted);
    SubsetCount(older, Ids(sorted));
    forall d | d in batch ensures d.createdAt <= x {
      var j :| 0 <= j < |batch| && batch[j] == d;
      EnoughBelow(sorted, older, j, x);
    }
  }

  /** The other pending commands that are as old or older. */
  function Ahead(t: Table, id: Id): set<Id>
    requires id in t
  {
    set o | o in t && IsPending(t, o) && o != id && t[o].createdAt <= t[id].createdAt
  }

  /** A pending command with fewer than `cap` others as old or older is in the batch. */
  lemma FewOlderIsFetched(t: Table, cap: nat, batch: seq<Command>, id: Id)
    requires IsOldest(t, cap, batch) && IsPending(t, id)
    requires |Ahead(t, id)| < cap
    ensures id in Ids(batch)
  {
    var others := Ahead(t, id);
    if id !in Ids(batch) {
      forall o | o in Ids(batch) ensures o in others {
        var c :| c in batch && c.id == o;
        assert Listed(t, c);
      }
      IdCount(batch);
      SubsetCount(Ids(batch), others);
    }
  }

  function Cap(limit: int): nat { if limit < 1 then 1 else limit }

  /** Appends the commands whose ids have not been seen. */
  method MergeRows(merged: seq<Command>, seen: set<Id>, rows: seq<Command>) returns (m: seq<Command>, s: set<Id>)
    requires Distinct(merged) && seen == Ids(merged)
    ensures Distinct(m) && s == Ids(m) == Ids(merged) + Ids(rows)
    ensures forall c :: c in m ==> c in merged || c in rows
  {
    hide Distinct, Ids;
    m, s := merged, seen;
    EmptyIsDistinct();
    for i := 0 to |rows|
      invariant Distinct(m) && s == Ids(m) == Ids(merged) + Ids(rows[..i])
      invariant forall c :: c in m ==> c in merged || c in rows
    {
      var c := rows[i];
      assert rows[..i + 1] == rows[..i] + [c];
      IdsOfAppend(rows[..i], c);
      IdsOfAppend(m, c);
      if c.id !in s {
        m, s := m + [c], s + {c.id};
      }
    }
    assert rows[..|rows|] == rows;
  }

  lemma EmptyIsDistinct()
    ensures Distinct([]) && Ids([]) == {}
  {
  }

  /** The buses as a fetch sees them: a failed remote select shows only the local one. */
  function Seen(b: Buses, answered: bool): Buses { if answered then b else b.(remote := map[]) }

  /** Merges what the buses returned, remote rows first, and keeps the oldest. `None` is a
      failed remote select. */
  method FetchPending(remoteRows: Option<seq<Command>>, localRows: seq<Command>, limit: int, ghost b: Buses)
    returns (batch: seq<Command>)
    requires remoteRows.Some? ==> Agree(b) && IsOldest(b.remote, Cap(limit), remoteRows.value)
    requires IsOldest(b.local, Cap(limit), localRows)
    ensures IsOldest(Union(Seen(b, remoteRows.Some?)), if limit < 1 then 1 else limit, batch)
  {
    hide IsOldest, Agree, Union, Distinct, Ids, SortByCreation;
    EmptyIsDistinct();
    var cap := Cap(limit);
    var merged, seen := [], {};
    ghost var rows := [];
    if remoteRows.Some? {
      rows := remoteRows.value;
      merged, seen := MergeRows(merged, seen, remoteRows.value);
    }
    merged, seen := MergeRows(merged, seen, localRows);
    var sorted := SortByCreation(merged);
    NothingToList(b, cap);
    MergeIsOldestOfUnion(Seen(b, remoteRows.Some?), cap, rows, localRows, merged);
    batch := if |sorted| <= cap then sorted else sorted[..cap];
  }

  lemma NothingToList(b: Buses, cap: nat)
    ensures Agree(Seen(b, false)) && IsOldest(Seen(b, false).remote, cap, [])
  {
  }

  // ---------- the emergency poller ----------

  /** Both buses hold the same rows under the id. */
  predicate SameRows(b: Buses, b': Buses, id: Id) {
    && (id in b.remote <==> id in b'.remote) && (id in b.remote ==> b.remote[id] == b'.remote[id])
    && (id in b.local <==> id in b'.local) && (id in b.local ==> b.local[id] == b'.local[id])
  }

  /** A claim reads and writes the rows of its own command only. */
  lemma ClaimsDoNotInterfere(b: Buses, b': Buses, id: Id, cas: Call, look: Call)
    requires SameRows(b, b', id)
    ensures Claim(b, id, cas, look).1 == Claim(b', id, cas, look).1
    ensures SameRows(Claim(b, id, cas, look).0, Claim(b', id, cas, look).0, id)
  {
  }

  /** A pending emergency command with fewer than `cap` others as old or older. */
  predicate Urgent(b: Buses, cap: nat, id: Id) {
    id in Union(b) && Emergency(Union(b)[id].kind) && |Ahead(Union(b), id)| < cap
  }

  lemma UrgentIsFetched(b: Buses, cap: nat, batch: seq<Command>, id: Id) returns (i: nat)
    requires IsOldest(Union(b), cap, batch) && Urgent(b, cap, id)
    ensures i < |batch| && batch[i].id == id && Emergency(batch[i].kind)
  {
    FewOlderIsFetched(Union(b), cap, batch, id);
    var c :| c in batch && c.id == id;
    assert Listed(Union(b), c);
    i :| 0 <= i < |batch| && batch[i] == c;
  }

  /** What the remote calls of the i-th claim of a poll do: the swap and the read. */
  type Net = nat -> (Call, Call)

  /** The i-th command of a batch, claimed as if alone on the buses. */
  function ClaimAlone(b: Buses, batch: seq<Command>, net: Net, i: nat): (Buses, bool)
    requires i < |batch|
  {
    Claim(b, batch[i].id, net(i).0, net(i).1)
  }

  ghost predicate ClaimedAlone(b: Buses, batch: seq<Command>, claimed: seq<Command>, net: Net) {
    && Distinct(claimed) && (forall c :: c in claimed ==> c in batch)
    && forall i :: 0 <= i < |batch| ==>
         (batch[i] in claimed <==> Emergency(batch[i].kind) && ClaimAlone(b, batch, net, i).1)
  }

  ghost predicate MovedAlone(b: Buses, b': Buses, batch: seq<Command>, net: Net) {
    && (forall i :: 0 <= i < |batch| && Emergency(batch[i].kind) ==>
          SameRows(ClaimAlone(b, batch, net, i).0, b', batch[i].id))
    && (forall id :: (forall i :: 0 <= i < |batch| && Emergency(batch[i].kind) ==> batch[i].id != id) ==>
          SameRows(b, b', id))
  }

  /** What one poll did, whatever the network did: each emergency command was claimed or not,
      and its rows moved, as if alone on the buses as they were; nothing else moved. */
  ghost predicate Polled(b: Buses, b': Buses, batch: seq<Command>, claimed: seq<Command>, net: Net) {
    ClaimedAlone(b, batch, claimed, net) && MovedAlone(b, b', batch, net)
  }

  lemma PolledNothing(b: Buses, net: Net)
    ensures Polled(b, b, [], [], net)
  {
  }

  /** One more command of the batch. */
  lemma PollGrows(b: Buses, b': Buses, batch: seq<Command>, claimed: seq<Command>, net: Net, c: Command)
    requires Distinct(batch + [c]) && Polled(b, b', batch, claimed, net)
    ensures !Emergency(c.kind) ==> Polled(b, b', batch + [c], claimed, net)
    ensures Emergency(c.kind) ==>
      var (b'', won) := Claim(b', c.id, net(|batch|).0, net(|batch|).1);
      Polled(b, b'', batch + [c], if won then claimed + [c] else claimed, net)
  {
    hide Claim, SameRows, Distinct, ClaimedAlone, MovedAlone;
    var cas, look := net(|batch|).0, net(|batch|).1;
    NewToTheBatch(batch, c);
    UntouchedSoFar(b, b', batch, net, c);
    ClaimsDoNotInterfere(b, b', c.id, cas, look);
    ChoiceGrows(b, batch, claimed, net, c);
    RowsGrow(b, b', batch, net, c);
  }

  lemma NewToTheBatch(batch: seq<Command>, c: Command)
    requires Distinct(batch + [c])
    ensures Distinct(batch) && forall i :: 0 <= i < |batch| ==> batch[i].id != c.id
  {
    var more := batch + [c];
    forall i, j | 0 <= i < j <= |batch| ensures more[i].id != more[j].id {}
    forall i | 0 <= i < |batch| ensures batch[i].id == more[i].id != more[|batch|].id {}
    forall i, j | 0 <= i < j < |batch| ensures batch[i].id != batch[j].id {
      assert more[i].id != more[j].id;
    }
  }

  lemma UntouchedSoFar(b: Buses, b': Buses, batch: seq<Command>, net: Net, c: Command)
    requires MovedAlone(b, b', batch, net) && forall i :: 0 <= i < |batch| ==> batch[i].id != c.id
    ensures SameRows(b, b', c.id)
  {
    hide SameRows;
  }

  lemma ChoiceGrows(b: Buses, batch: seq<Command>, claimed: seq<Command>, net: Net, c: Command)
    requires ClaimedAlone(b, batch, claimed, net) && forall i :: 0 <= i < |batch| ==> batch[i].id != c.id
    ensures var won := Emergency(c.kind) && Claim(b, c.id, net(|batch|).0, net(|batch|).1).1;
      ClaimedAlone(b, batch + [c], if won then claimed + [c] else claimed, net)
  {
    hide Claim;
    var more := batch + [c];
    forall d | d in claimed ensures d.id != c.id && d in more {
      var i :| 0 <= i < |batch| && batch[i] == d;
    }
    assert forall i :: 0 <= i < |batch| ==> ClaimAlone(b, more, net, i) == ClaimAlone(b, batch, net, i);
  }

  lemma RowsGrow(b: Buses, b': Buses, batch: seq<Command>, net: Net, c: Command)
    requires MovedAlone(b, b', batch, net) && forall i :: 0 <= i < |batch| ==> batch[i].id != c.id
    ensures !Emergency(c.kind) ==> MovedAlone(b, b', batch + [c], net)
    ensures Emergency(c.kind) ==> MovedAlone(b, Claim(b', c.id, net(|batch|).0, net(|batch|).1).0, batch + [c], net)
  {
    hide Claim, SameRows;
    var n, more := |batch|, batch + [c];
    var b'' := if Emergency(c.kind) then Claim(b', c.id, net(n).0, net(n).1).0 else b';
    UntouchedSoFar(b, b', batch, net, c);
    ClaimsDoNotInterfere(b, b', c.id, net(n).0, net(n).1);
    ClaimMovesOneCommand(b', c.id, net(n).0, net(n).1);
    forall i | 0 <= i < |more| && Emergency(more[i].kind) ensures SameRows(ClaimAlone(b, more, net, i).0, b'', more[i].id) {
      if i < n {
        assert ClaimAlone(b, more, net, i) == ClaimAlone(b, batch, net, i);
        SameOnward(ClaimAlone(b, batch, net, i).0, b', b'', batch[i].id);
      }
    }
    forall id | forall i :: 0 <= i < |more| && Emergency(more[i].kind) ==> more[i].id != id ensures SameRows(b, b'', id) {
      assert forall i :: 0 <= i < n && Emergency(batch[i].kind) ==> more[i].id != id;
      assert Emergency(c.kind) ==> more[n].id != id;
      SameOnward(b, b', b'', id);
    }
  }

  lemma ClaimMovesOneCommand(b: Buses, id: Id, cas: Call, look: Call)
    ensures forall other :: SameRows(b, b, other)
    ensures forall other :: other != id ==> SameRows(b, Claim(b, id, cas, look).0, other)
  {
  }

  lemma SameOnward(b: Buses, b': Buses, b'': Buses, id: Id)
    requires SameRows(b, b', id) && SameRows(b', b'', id)
    ensures SameRows(b, b'', id)
  {
  }

  predicate Reachable(net: Net, n: nat) { forall i :: 0 <= i < n ==> net(i) == (Ok, Ok) }

  /** With the remote bus reachable throughout, a poll claims exactly the claimable emergency
      commands of the batch, ends that, and leaves all others as claimable as they were; one
      with fewer than the limit ahead of it is never missed. */
  lemma ReachablePoll(b: Buses, answered: bool, b': Buses, cap: nat, batch: seq<Command>, claimed: seq<Command>,
                      net: Net)
    requires IsOldest(Union(Seen(b, answered)), cap, batch)
    requires Polled(b, b', batch, claimed, net) && Reachable(net, |batch|)
    ensures forall c :: c in claimed <==>
      c in batch && (c.kind == FlattenAndHalt || c.kind == EngageKillSwitch) && Claimable(b, c.id)
    ensures forall id :: Claimable(b', id) <==> Claimable(b, id) && id !in Ids(claimed)
    ensures forall id :: Urgent(Seen(b, answered), cap, id) && Claimable(b, id) ==> id in Ids(claimed)
  {
    hide IsOldest, Union, Urgent, Claim, Claimable, SameRows;
    forall i | 0 <= i < |batch| ensures Claim(b, batch[i].id, net(i).0, net(i).1).1 == Claimable(b, batch[i].id) {
      ReachableClaim(b, batch[i].id);
    }
    forall id ensures Claimable(b', id) <==> Claimable(b, id) && id !in Ids(claimed) {
      if i :| 0 <= i < |batch| && Emergency(batch[i].kind) && batch[i].id == id {
        ReachableClaim(b, id);
        ClaimableIsLocal(Claim(b, id, Ok, Ok).0, b', id);
        assert batch[i] in claimed ==> id in Ids(claimed);
      } else {
        ClaimableIsLocal(b, b', id);
      }
    }
    forall id | Urgent(Seen(b, answered), cap, id) && Claimable(b, id) ensures id in Ids(claimed) {
      var i := UrgentIsFetched(Seen(b, answered), cap, batch, id);
      assert batch[i] in claimed;
    }
  }

  lemma ClaimableIsLocal(b: Buses, b': Buses, id: Id)
    requires SameRows(b, b', id)
    ensures Claimable(b, id) <==> Claimable(b', id)
  {
  }

  /** One poll of the emergency lane, whatever the network does to its calls. */
  method FetchAndClaimEmergency(bus: CommandBus, remoteRows: Option<seq<Command>>, localRows: seq<Command>, limit: int,
                                net: Net)
    returns (batch: seq<Command>, claimed: seq<Command>)
    requires remoteRows.Some? ==> Agree(bus.State()) && IsOldest(bus.remote, Cap(limit), remoteRows.value)
    requires IsOldest(bus.local, Cap(limit), localRows)
    modifies bus
    ensures IsOldest(Union(Seen(old(bus.State()), remoteRows.Some?)), if limit < 1 then 1 else limit, batch)
    ensures Polled(old(bus.State()), bus.State(), batch, claimed, net)
  {
    hide Union, Polled, Distinct, Claim;
    ghost var b := bus.State();
    batch := FetchPending(remoteRows, localRows, limit, b);
    claimed := [];
    PolledNothing(b, net);
    for i := 0 to |batch|
      invariant Polled(b, bus.State(), batch[..i], claimed, net)
    {
      var c := batch[i];
      assert batch[..i + 1] == batch[..i] + [c];
      DistinctPrefix(batch, i + 1);
      PollGrows(b, bus.State(), batch[..i], claimed, net, c);
      if Emergency(c.kind) {
        var won := bus.TryClaim(c.id, net(i).0, net(i).1);
        if won {
          claimed := claimed + [c];
        }
      }
    }
    assert batch[..|batch|] == batch;
  }

  lemma DistinctPrefix(s: seq<Command>, n: nat)
    requires Distinct(s) && n <= |s|
    ensures Distinct(s[..n])
  {
  }
}
