/**
  The claim protocol under interleaving (src/control/command_queue.py). Any number of
  pollers run a claim one statement at a time, and may crash between statements, while
  commands are enqueued, finished, reclaimed and retired. Claims won are counted per command
  and bus.
 */
module CommandProtocol {
  import opened Options
  import opened CommandQueue

  /** Where a poller is inside its claim. */
  datatype Pc = Idle | AtMirror(id: Id) | AtLook(id: Id) | AtLocal(id: Id)

  datatype Wins = Wins(remote: nat, local: nat)

  datatype World = World(remote: Table, local: Table, pollers: map<nat, Pc>, wins: map<Id, Wins>)

  const Empty := World(map[], map[], map[], map[])

  function At(w: World, p: nat): Pc { if p in w.pollers then w.pollers[p] else Idle }

  function Won(w: World, id: Id): Wins { if id in w.wins then w.wins[id] else Wins(0, 0) }

  function Claims(w: World, id: Id): nat { Won(w, id).remote + Won(w, id).local }

  datatype Step =
    | EnqueueRemote(id: Id, kind: Kind, createdAt: int, key: Option<Key>)
    | EnqueueLocal(id: Id, kind: Kind, createdAt: int, expiresAt: Option<int>, key: Option<Key>)
    | Swap(p: nat, id: Id, net: Call)
    | Mirror(p: nat)
    | Look(p: nat, net: Call)
    | SwapLocal(p: nat)
    | Crash(p: nat)
    | MarkRemote(id: Id, s: Status)
    | MarkLocal(id: Id, s: Status)
    | Reclaim(id: Id)
    | Expire(id: Id, now: int)
    | RetireStale(id: Id, cutoff: int, only: Option<Kind>)

  /** A poller claims only commands it has fetched, so ones that some bus holds. */
  predicate Enabled(w: World, s: Step) {
    match s
    case EnqueueRemote(id, _, _, key) => Insertable(w.remote, id, key)
    case EnqueueLocal(id, kind, _, ttl, key) => Insertable(w.local, id, key) && (ttl.Some? ==> !Emergency(kind))
    case Swap(p, id, _) => At(w, p) == Idle && (id in w.remote || id in w.local)
    case Mirror(p) => At(w, p).AtMirror?
    case Look(p, _) => At(w, p).AtLook?
    case SwapLocal(p) => At(w, p).AtLocal?
    case Crash(_) => true
    case MarkRemote(_, st) => Terminal(st)
    case MarkLocal(_, st) => Terminal(st)
    case Reclaim(id) => id in w.local
    case Expire(id, _) => id in w.local
    case RetireStale(id, _, _) => id in w.local
  }

  function Take(w: World, s: Step): World
    requires Enabled(w, s)
  {
    match s
    case EnqueueRemote(id, kind, t, key) => w.(remote := w.remote[id := Fresh(kind, t, None, key)])
    case EnqueueLocal(id, kind, t, ttl, key) => w.(local := w.local[id := Fresh(kind, t, ttl, key)])
    case Swap(p, id, net) =>
      var swapped := if net == Lost then w else w.(remote := CompareAndSwap(w.remote, id));
      if net == Ok && IsPending(w.remote, id)
      then swapped.(pollers := w.pollers[p := AtMirror(id)], wins := w.wins[id := Won(w, id).(remote := Won(w, id).remote + 1)])
      else swapped.(pollers := w.pollers[p := AtLook(id)])
    case Mirror(p) => w.(local := CompareAndSwap(w.local, At(w, p).id), pollers := w.pollers[p := Idle])
    case Look(p, net) =>
      w.(pollers := w.pollers[p := if net == Ok && At(w, p).id in w.remote then Idle else AtLocal(At(w, p).id)])
    case SwapLocal(p) =>
      var id := At(w, p).id;
      var idle := w.(pollers := w.pollers[p := Idle]);
      if IsPending(w.local, id)
      then idle.(local := CompareAndSwap(w.local, id), wins := w.wins[id := Won(w, id).(local := Won(w, id).local + 1)])
      else idle
    case Crash(p) => w.(pollers := w.pollers[p := Idle])
    case MarkRemote(id, st) => w.(remote := FinishRemote(w.remote, id, st))
    case MarkLocal(id, st) => w.(local := FinishLocal(w.local, id, st))
    case Reclaim(id) => w.(local := w.local[id := ReclaimRow(w.local[id], MAX_RECLAIM_ATTEMPTS)])
    case Expire(id, now) => w.(local := w.local[id := ExpireRow(w.local[id], now)])
    case RetireStale(id, cutoff, only) => w.(local := w.local[id := RetireStaleRow(w.local[id], cutoff, only)])
  }

  /** `run[0]` happens first. */
  predicate Possible(w: World, run: seq<Step>)
    decreases |run|
  {
    run == [] || (Enabled(w, run[0]) && Possible(Take(w, run[0]), run[1..]))
  }

  function Final(w: World, run: seq<Step>): World
    requires Possible(w, run)
    decreases |run|
  {
    if run == [] then w else Final(Take(w, run[0]), run[1..])
  }

  /** An insert adds one pending row to its own table, unclaimed and as asked, and nothing else
      changes; only a local one can carry a TTL. */
  lemma InsertsAddOneRow(w: World, s: Step)
    requires Enabled(w, s) && (s.EnqueueRemote? || s.EnqueueLocal?)
    ensures var w' := Take(w, s);
      var row := Row(s.kind, Pending, s.createdAt, if s.EnqueueLocal? then s.expiresAt else None, 0, s.key);
      && w'.pollers == w.pollers && w'.wins == w.wins
      && s.id !in (if s.EnqueueLocal? then w.local else w.remote)
      && w'.remote == (if s.EnqueueRemote? then w.remote[s.id := row] else w.remote)
      && w'.local == (if s.EnqueueLocal? then w.local[s.id := row] else w.local)
  {
  }

  // ---------- what every step keeps ----------

  predicate RemoteBudget(w: World, id: Id) {
    Won(w, id).remote <= (if id in w.remote && w.remote[id].status != Pending then 1 else 0)
  }

  /** Claims won locally are paid for in attempts, whatever the network did. */
  predicate LocalBudget(w: World, id: Id) {
    && (id !in w.local ==> Won(w, id).local == 0)
    && (id in w.local ==>
          var r := w.local[id];
          && r.attempts <= MAX_RECLAIM_ATTEMPTS
          && Won(w, id).local <= r.attempts + (if r.status == Pending then 0 else 1)
          && (Emergency(r.kind) ==> r.expiresAt == None))
  }

  predicate Budgeted(w: World, id: Id) { RemoteBudget(w, id) && LocalBudget(w, id) }

  lemma StepKeepsRemoteBudget(w: World, s: Step, id: Id)
    requires Enabled(w, s) && RemoteBudget(w, id)
    ensures RemoteBudget(Take(w, s), id)
  {
    hide ReclaimRow, ExpireRow, RetireStaleRow, FinishLocal;
  }

  lemma StepKeepsLocalBudget(w: World, s: Step, id: Id)
    requires Enabled(w, s) && LocalBudget(w, id)
    ensures LocalBudget(Take(w, s), id)
  {
    hide FinishRemote;
  }

  lemma StepKeepsBudget(w: World, s: Step, id: Id)
    requires Enabled(w, s) && Budgeted(w, id)
    ensures Budgeted(Take(w, s), id)
  {
    hide RemoteBudget, LocalBudget, Take;
    StepKeepsRemoteBudget(w, s, id);
    StepKeepsLocalBudget(w, s, id);
  }

  lemma {:induction false} RunKeepsBudget(w: World, run: seq<Step>, id: Id)
    requires Possible(w, run) && Budgeted(w, id)
    ensures Budgeted(Final(w, run), id)
    decreases |run|
  {
    if run != [] {
      StepKeepsBudget(w, run[0], id);
      RunKeepsBudget(Take(w, run[0]), run[1..], id);
    }
  }

  /** Bounded re-fire: over any interleaving, crashes and network faults included, the local
      bus gives out a command at most four times, once and three more after recoveries, and the
      remote bus at most once. */
  lemma BoundedRefire(run: seq<Step>, id: Id)
    requires Possible(Empty, run)
    ensures Won(Final(Empty, run), id).local <= 4
    ensures Won(Final(Empty, run), id).remote <= 1
  {
    RunKeepsBudget(Empty, run, id);
  }

  // ---------- the bound is reached ----------

  /** One more local claim of a staged command. */
  lemma ClaimStaged(before: seq<Step>, id: Id) returns (run: seq<Step>)
    requires Possible(Empty, before)
    requires var w := Final(Empty, before); w.remote == map[] && IsPending(w.local, id) && At(w, 0) == Idle
    ensures Possible(Empty, run)
    ensures var w, w' := Final(Empty, before), Final(Empty, run);
      && w'.remote == map[] && At(w', 0) == Idle && id in w'.local
      && w'.local[id] == w.local[id].(status := Processing)
      && Won(w', id) == Won(w, id).(local := Won(w, id).local + 1)
  {
    hide Possible, Final;
    run := Do(Empty, before, Swap(0, id, Ok));
    run := Do(Empty, run, Look(0, Ok));
    run := Do(Empty, run, SwapLocal(0));
  }

  /** A command orphaned `n` times, up to three, is claimed again each time. */
  lemma {:induction false} RefiredUpTo(id: Id, n: nat) returns (run: seq<Step>)
    requires n <= 3
    ensures Possible(Empty, run)
    ensures var w := Final(Empty, run);
      && w.remote == map[] && At(w, 0) == Idle && id in w.local
      && w.local[id].status == Processing && w.local[id].attempts == n && Won(w, id) == Wins(0, n + 1)
  {
    hide Possible, Final;
    if n == 0 {
      run := Begin(Empty);
      run := Do(Empty, run, EnqueueLocal(id, ReloadConfig, 0, None, None));
    } else {
      run := RefiredUpTo(id, n - 1);
      run := Do(Empty, run, Reclaim(id));
    }
    run := ClaimStaged(run, id);
  }

  /** The bound is tight: every recovery gives the command out again, four times in all, and the
      fifth orphan is dead-lettered. */
  lemma BoundIsReached(id: Id) returns (run: seq<Step>)
    ensures Possible(Empty, run) && Won(Final(Empty, run), id).local == 4
    ensures Enabled(Final(Empty, run), Reclaim(id)) && Take(Final(Empty, run), Reclaim(id)).local[id].status == Failed
  {
    run := RefiredUpTo(id, 3);
  }

  // ---------- exactly once across both buses ----------

  /** No command the remote bus holds was ever won locally. */
  predicate Exclusive(w: World, id: Id) { id in w.remote ==> Won(w, id).local == 0 }

  /** The step lets a command out on both buses: a poller swaps a local copy still pending
      although the remote bus holds the command, or a remote insert lands after a local claim. */
  predicate Leaks(w: World, s: Step, id: Id)
    requires Enabled(w, s)
  {
    || (s.SwapLocal? && At(w, s.p).id == id && id in w.remote && IsPending(w.local, id))
    || (s.EnqueueRemote? && s.id == id && Won(w, id).local > 0)
  }

  predicate LeakFree(w: World, run: seq<Step>, id: Id)
    requires Possible(w, run)
    decreases |run|
  {
    run == [] || (!Leaks(w, run[0], id) && LeakFree(Take(w, run[0]), run[1..], id))
  }

  /** A step keeps the buses exclusive exactly when it does not leak, and nothing repairs a leak. */
  lemma StepLeaksExactly(w: World, s: Step, id: Id)
    requires Enabled(w, s)
    ensures Exclusive(Take(w, s), id) <==> Exclusive(w, id) && !Leaks(w, s, id)
  {
    hide ReclaimRow, ExpireRow, RetireStaleRow, Holds;
  }

  lemma {:induction false} LeaksStay(w: World, run: seq<Step>, id: Id)
    requires Possible(w, run) && !Exclusive(w, id)
    ensures !Exclusive(Final(w, run), id)
    decreases |run|
  {
    hide Take, Enabled, Leaks, Exclusive;
    if run != [] {
      StepLeaksExactly(w, run[0], id);
      LeaksStay(Take(w, run[0]), run[1..], id);
    }
  }

  /** Over any run, faults included, a command of the remote bus was never won locally exactly
      when no step of the run leaked it. */
  lemma {:induction false} ExclusiveExactly(w: World, run: seq<Step>, id: Id)
    requires Possible(w, run) && Exclusive(w, id)
    ensures Exclusive(Final(w, run), id) <==> LeakFree(w, run, id)
    decreases |run|
  {
    hide Take, Enabled, Leaks, Exclusive;
    if run != [] {
      StepLeaksExactly(w, run[0], id);
      var w' := Take(w, run[0]);
      if Exclusive(w', id) {
        ExclusiveExactly(w', run[1..], id);
      } else {
        LeaksStay(w', run[1..], id);
      }
    }
  }

  /** Exactly once: however claims interleave, crash, are marked or reclaimed, whatever the
      network loses, and whether or not a local copy is still pending, a command the remote bus
      holds is claimed at most once in all unless a step leaked it. */
  lemma ExactlyOnce(run: seq<Step>, id: Id)
    requires Possible(Empty, run) && LeakFree(Empty, run, id)
    requires id in Final(Empty, run).remote
    ensures Claims(Final(Empty, run), id) <= 1
  {
    RunKeepsBudget(Empty, run, id);
    ExclusiveExactly(Empty, run, id);
  }

  // ---------- what keeps a run from leaking ----------

  /** The remote read after a refused swap answers, and remote inserts use fresh ids. */
  predicate Careful(w: World, s: Step) {
    && (s.Look? ==> s.net == Ok)
    && (s.EnqueueRemote? ==> s.id !in w.local)
  }

  predicate CarefulRun(w: World, run: seq<Step>)
    requires Possible(w, run)
    decreases |run|
  {
    run == [] || (Careful(w, run[0]) && CarefulRun(Take(w, run[0]), run[1..]))
  }

  /** A poller about to swap locally is dealing with a local-only command. */
  predicate PollersGuarded(w: World, id: Id) {
    && (forall p :: p in w.pollers && w.pollers[p] == AtLocal(id) ==> id !in w.remote && id in w.local)
    && (forall p :: p in w.pollers && w.pollers[p] == AtLook(id) ==> id in w.remote || id in w.local)
  }

  lemma StepKeepsPollersGuarded(w: World, s: Step, id: Id)
    requires Enabled(w, s) && Careful(w, s) && PollersGuarded(w, id)
    ensures PollersGuarded(Take(w, s), id)
  {
    hide ReclaimRow, ExpireRow, RetireStaleRow, Won, Holds;
    var w' := Take(w, s);
    forall p | p in w'.pollers && w'.pollers[p] == AtLocal(id) ensures id !in w'.remote && id in w'.local {
      assert At(w, p) == AtLocal(id) || At(w, p) == AtLook(id);
    }
  }

  lemma CarefulStepKeepsIn(w: World, s: Step, id: Id)
    requires Enabled(w, s) && Careful(w, s) && PollersGuarded(w, id) && LocalBudget(w, id)
    ensures !Leaks(w, s, id)
  {
    hide ReclaimRow, ExpireRow, RetireStaleRow, Holds;
  }

  /** When every remote read answers and remote inserts use fresh ids, nothing leaks. */
  lemma {:induction false} CarefulRunsDoNotLeak(w: World, run: seq<Step>, id: Id)
    requires Possible(w, run) && CarefulRun(w, run) && LocalBudget(w, id) && PollersGuarded(w, id)
    ensures LeakFree(w, run, id)
    decreases |run|
  {
    hide Take, Enabled, Careful, Leaks, LocalBudget, PollersGuarded;
    if run != [] {
      CarefulStepKeepsIn(w, run[0], id);
      StepKeepsLocalBudget(w, run[0], id);
      StepKeepsPollersGuarded(w, run[0], id);
      CarefulRunsDoNotLeak(Take(w, run[0]), run[1..], id);
    }
  }

  lemma {:induction false} Extend(w: World, run: seq<Step>, s: Step)
    requires Possible(w, run) && Enabled(Final(w, run), s)
    ensures Possible(w, run + [s]) && Final(w, run + [s]) == Take(Final(w, run), s)
    ensures CarefulRun(w, run) && Careful(Final(w, run), s) ==> CarefulRun(w, run + [s])
    decreases |run|
  {
    hide Take, Enabled, Careful;
    if run == [] {
      assert run + [s] == [s] && [s][1..] == [];
    } else {
      Extend(Take(w, run[0]), run[1..], s);
      assert (run + [s])[1..] == run[1..] + [s];
    }
  }

  /** A command on both buses, claimed remotely by a poller that has yet to mirror it. */
  lemma ClaimedRemotely(id: Id) returns (run: seq<Step>)
    ensures Possible(Empty, run) && CarefulRun(Empty, run)
    ensures var w := Final(Empty, run);
      id in w.remote && w.remote[id].status == Processing && IsPending(w.local, id)
      && Won(w, id) == Wins(1, 0) && At(w, 1) == Idle
  {
    hide Possible, Final, CarefulRun;
    run := Begin(Empty);
    run := DoCarefully(Empty, run, EnqueueRemote(id, ReloadConfig, 0, None));
    run := DoCarefully(Empty, run, EnqueueLocal(id, ReloadConfig, 0, None, None));
    run := DoCarefully(Empty, run, Swap(0, id, Ok));
  }

  /** Without the answer to the remote read, a second poller claims the pending local copy as
      well. */
  lemma LostReadClaimsTwice(id: Id) returns (run: seq<Step>)
    ensures Possible(Empty, run) && Claims(Final(Empty, run), id) == 2
    ensures exists careful :: Possible(Empty, careful) && CarefulRun(Empty, careful)
                              && run == careful + [Swap(1, id, Ok), Look(1, Lost), SwapLocal(1)]
  {
    hide Possible, Final, CarefulRun;
    var careful := ClaimedRemotely(id);
    run := Do(Empty, careful, Swap(1, id, Ok));
    run := Do(Empty, run, Look(1, Lost));
    run := Do(Empty, run, SwapLocal(1));
    assert run == careful + [Swap(1, id, Ok), Look(1, Lost), SwapLocal(1)];
  }

  /** A command staged and claimed locally, every remote call answering. */
  lemma ClaimedLocally(id: Id) returns (run: seq<Step>)
    ensures Possible(Empty, run) && forall s :: s in run && (s.Look? || s.Swap?) ==> s.net == Ok
    ensures var w := Final(Empty, run);
      w.remote == map[] && id in w.local && Won(w, id) == Wins(0, 1) && At(w, 1) == Idle
  {
    hide Possible, Final;
    run := Begin(Empty);
    run := Do(Empty, run, EnqueueLocal(id, ReloadConfig, 0, None, None));
    run := Do(Empty, run, Swap(0, id, Ok));
    run := Do(Empty, run, Look(0, Ok));
    run := Do(Empty, run, SwapLocal(0));
  }

  /** Nor is a remote insert safe that lands after its command was staged and claimed
      locally: every remote call below answers, yet the command is claimed twice. */
  lemma LateInsertClaimsTwice(id: Id) returns (run: seq<Step>)
    ensures Possible(Empty, run) && Claims(Final(Empty, run), id) == 2
    ensures forall s :: s in run && (s.Look? || s.Swap?) ==> s.net == Ok
  {
    hide Possible, Final;
    run := ClaimedLocally(id);
    run := Do(Empty, run, EnqueueRemote(id, ReloadConfig, 0, None));
    run := Do(Empty, run, Swap(1, id, Ok));
  }

  lemma Begin(w: World) returns (run: seq<Step>)
    ensures run == [] && Possible(w, run) && Final(w, run) == w && CarefulRun(w, run)
  {
    run := [];
  }

  lemma Do(w: World, run: seq<Step>, s: Step) returns (more: seq<Step>)
    requires Possible(w, run) && Enabled(Final(w, run), s)
    ensures more == run + [s] && Possible(w, more)
    ensures Final(w, more) == Take(Final(w, run), s)
  {
    Extend(w, run, s);
    more := run + [s];
  }

  // ---------- an uninterrupted claim is a run of the protocol ----------

  lemma DoCarefully(w: World, run: seq<Step>, s: Step) returns (more: seq<Step>)
    requires Possible(w, run) && CarefulRun(w, run) && Enabled(Final(w, run), s) && Careful(Final(w, run), s)
    ensures more == run + [s] && Possible(w, more) && CarefulRun(w, more)
    ensures Final(w, more) == Take(Final(w, run), s)
  {
    Extend(w, run, s);
    more := run + [s];
  }

  /** `n` more claims of `id`, and none of any other command. */
  predicate Gains(w: World, w': World, id: Id, n: nat) {
    Claims(w', id) == Claims(w, id) + n
    && forall other :: other in w.wins.Keys + w'.wins.Keys && other != id ==> Won(w', other) == Won(w, other)
  }

  lemma SwapEffect(w: World, p: nat, id: Id, net: Call)
    requires Enabled(w, Swap(p, id, net))
    ensures var w' := Take(w, Swap(p, id, net)); var hit := net == Ok && IsPending(w.remote, id);
      && w'.remote == (if net == Lost then w.remote else CompareAndSwap(w.remote, id)) && w'.local == w.local
      && At(w', p) == (if hit then AtMirror(id) else AtLook(id))
      && Gains(w, w', id, if hit then 1 else 0)
  {
  }

  lemma MirrorEffect(w: World, p: nat)
    requires Enabled(w, Mirror(p))
    ensures var w' := Take(w, Mirror(p)); var id := At(w, p).id;
      && w'.remote == w.remote && w'.local == CompareAndSwap(w.local, id)
      && At(w', p) == Idle && w'.wins == w.wins
  {
  }

  lemma LookEffect(w: World, p: nat, net: Call)
    requires Enabled(w, Look(p, net))
    ensures var w' := Take(w, Look(p, net)); var id := At(w, p).id;
      && w'.remote == w.remote && w'.local == w.local && w'.wins == w.wins
      && At(w', p) == (if net == Ok && id in w.remote then Idle else AtLocal(id))
  {
  }

  lemma SwapLocalEffect(w: World, p: nat)
    requires Enabled(w, SwapLocal(p))
    ensures var w' := Take(w, SwapLocal(p)); var id := At(w, p).id;
      && w'.remote == w.remote && w'.local == CompareAndSwap(w.local, id) && At(w', p) == Idle
      && Gains(w, w', id, if IsPending(w.local, id) then 1 else 0)
  {
  }

  lemma ClaimIsARun(w: World, p: nat, id: Id, cas: Call, look: Call) returns (run: seq<Step>)
    requires At(w, p) == Idle && (id in w.remote || id in w.local)
    ensures Possible(w, run)
    ensures var done := Final(w, run); var (b, won) := Claim(Buses(w.remote, w.local), id, cas, look);
      && At(done, p) == Idle && Buses(done.remote, done.local) == b
      && Gains(w, done, id, if won then 1 else 0)
  {
    hide Possible, Final, Take;
    run := Begin(w);
    SwapEffect(w, p, id, cas);
    run := Do(w, run, Swap(p, id, cas));
    var w1 := Final(w, run);
    if At(w1, p).AtMirror? {
      MirrorEffect(w1, p);
      run := Do(w, run, Mirror(p));
    } else {
      LookEffect(w1, p, look);
      run := Do(w, run, Look(p, look));
      var w2 := Final(w, run);
      if At(w2, p).AtLocal? {
        SwapLocalEffect(w2, p);
        run := Do(w, run, SwapLocal(p));
      }
    }
  }

  // ---------- and so is everything else the bus does ----------

  /** A poller that crashes loses its place in a claim, and nothing else changes. */
  lemma CrashLosesThePlace(w: World, p: nat)
    ensures var w' := Take(w, Crash(p));
      && w'.remote == w.remote && w'.local == w.local && w'.wins == w.wins
      && At(w', p) == Idle && forall q: nat :: q != p ==> At(w', q) == At(w, q)
  {
  }

  /** Marking a command terminal is one statement on each bus the network lets it reach. */
  lemma MarkIsARun(w: World, id: Id, st: Status, update: Call) returns (run: seq<Step>)
    requires Terminal(st)
    ensures Possible(w, run)
    ensures Final(w, run) == w.(remote := if update == Lost then w.remote else FinishRemote(w.remote, id, st),
                                local := FinishLocal(w.local, id, st))
  {
    hide Possible, Final, FinishLocal, FinishRemote;
    run := Begin(w);
    if update != Lost {
      run := Do(w, run, MarkRemote(id, st));
    }
    run := Do(w, run, MarkLocal(id, st));
  }

  /** A statement over the whole local table: startup recovery or one of the two retirements. */
  datatype Pass = Recovery | Expiry(now: int) | Retirement(cutoff: int, only: Option<Kind>)

  function StepOn(pass: Pass, id: Id): Step {
    match pass
    case Recovery => Reclaim(id)
    case Expiry(now) => Expire(id, now)
    case Retirement(cutoff, only) => RetireStale(id, cutoff, only)
  }

  function RowAfter(pass: Pass, r: Row): Row {
    match pass
    case Recovery => ReclaimRow(r, MAX_RECLAIM_ATTEMPTS)
    case Expiry(now) => ExpireRow(r, now)
    case Retirement(cutoff, only) => RetireStaleRow(r, cutoff, only)
  }

  lemma PassOnRow(w: World, pass: Pass, id: Id)
    requires id in w.local
    ensures Enabled(w, StepOn(pass, id))
    ensures Take(w, StepOn(pass, id)) == w.(local := w.local[id := RowAfter(pass, w.local[id])])
  {
  }

  /** Such a pass is a run of one step for each row, whichever rows come first; on all rows it
      leaves the table the bus method leaves. */
  lemma {:induction false} PassIsARun(w: World, pass: Pass, ids: set<Id>) returns (run: seq<Step>)
    requires ids <= w.local.Keys
    ensures Possible(w, run)
    ensures Final(w, run) ==
      w.(local := map id | id in w.local :: if id in ids then RowAfter(pass, w.local[id]) else w.local[id])
    ensures ids == w.local.Keys ==> Final(w, run).local == map id | id in w.local :: RowAfter(pass, w.local[id])
    decreases ids
  {
    hide Possible, Final, Take, Enabled, RowAfter, StepOn;
    if ids == {} {
      run := Begin(w);
      assert w.local == map id | id in w.local :: w.local[id];
    } else {
      var id :| id in ids;
      run := PassIsARun(w, pass, ids - {id});
      PassOnRow(Final(w, run), pass, id);
      run := Do(w, run, StepOn(pass, id));
    }
  }

  // ---------- the local status ladder ----------

  /** Attempts left first, then how far the status is from terminal. */
  function Rungs(r: Row): int {
    (if r.attempts < MAX_RECLAIM_ATTEMPTS then 3 * (MAX_RECLAIM_ATTEMPTS - r.attempts) else 0)
    + match r.status case Pending => 2 case Processing => 1 case _ => 0
  }

  /** A step leaves a staged row's status alone or moves it strictly down the ladder; a
      terminal row never moves, and only reclaim spends an attempt. */
  lemma LadderDescends(w: World, s: Step, id: Id)
    requires Enabled(w, s) && id in w.local
    ensures id in Take(w, s).local
    ensures var r, r' := w.local[id], Take(w, s).local[id];
      && r'.kind == r.kind && r'.createdAt == r.createdAt && r'.expiresAt == r.expiresAt
      && (r' == r || Rungs(r') < Rungs(r))
      && (r'.status == r.status ==> r' == r)
      && (Terminal(r.status) ==> r' == r)
      && (r'.attempts == r.attempts || (s == Reclaim(id) && r'.attempts == r.attempts + 1))
      && 0 <= Rungs(r')
  {
  }

  /** How often a run changes the local status of `id`. */
  function Changes(w: World, run: seq<Step>, id: Id): nat
    requires Possible(w, run)
    decreases |run|
  {
    if run == [] then 0
    else
      var w' := Take(w, run[0]);
      (if id in w.local && id in w'.local && w.local[id].status != w'.local[id].status then 1 else 0)
      + Changes(w', run[1..], id)
  }

  lemma {:induction false} ChangesFit(w: World, run: seq<Step>, id: Id)
    requires Possible(w, run)
    requires forall other :: other in w.local ==> w.local[other].attempts <= MAX_RECLAIM_ATTEMPTS
    ensures Changes(w, run, id) <= if id in w.local then Rungs(w.local[id]) else 3 * MAX_RECLAIM_ATTEMPTS + 2
    decreases |run|
  {
    hide Rungs, Take;
    if run != [] {
      var w' := Take(w, run[0]);
      AttemptsStayBounded(w, run[0]);
      ChangesFit(w', run[1..], id);
      if id in w.local {
        LadderDescends(w, run[0], id);
      } else {
        StagedAtTheTop(w, run[0], id);
      }
    }
    RungsAreNatural(w, id);
  }

  lemma RungsAreNatural(w: World, id: Id)
    ensures id in w.local ==> Rungs(w.local[id]) >= 0
  {
  }

  lemma AttemptsStayBounded(w: World, s: Step)
    requires Enabled(w, s)
    requires forall other :: other in w.local ==> w.local[other].attempts <= MAX_RECLAIM_ATTEMPTS
    ensures forall other :: other in Take(w, s).local ==> Take(w, s).local[other].attempts <= MAX_RECLAIM_ATTEMPTS
  {
  }

  lemma StagedAtTheTop(w: World, s: Step, id: Id)
    requires Enabled(w, s) && id !in w.local
    ensures id in Take(w, s).local ==> Rungs(Take(w, s).local[id]) == 3 * MAX_RECLAIM_ATTEMPTS + 2
  {
  }

  /** No command can bounce forever: over any run its local status changes at most eleven
      times. */
  lemma NoLivelock(run: seq<Step>, id: Id)
    requires Possible(Empty, run)
    ensures Changes(Empty, run, id) <= 11
  {
    ChangesFit(Empty, run, id);
  }

  /** A protective command is never retired by a TTL, in any reachable state. */
  lemma EmergencyNeverExpires(run: seq<Step>, id: Id, now: int)
    requires Possible(Empty, run)
    ensures var w := Final(Empty, run);
      id in w.local && Emergency(w.local[id].kind) ==> ExpireRow(w.local[id], now) == w.local[id]
  {
    RunKeepsBudget(Empty, run, id);
  }
}
