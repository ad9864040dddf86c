/**
  Dedup and exponential back-off for push alerts (src/alerts/throttle.py). Times are in
  seconds; the wrapped notifier is the list of messages it has been given.
 */
module Throttle {

  datatype Key = Key(component: string, kind: string)

  /** When a condition last sent, and how often since it last started firing. */
  datatype Firing = Firing(lastSent: real, sends: nat)

  datatype Message = Alert(key: Key, at: real) | RecoveredMessage(key: Key)

  /** Seconds required after the `sends`-th send: 5 minutes, 15 minutes, then an hour. */
  function RequiredWait(sends: int): real
    requires sends >= 1
  {
    var schedule := [300.0, 900.0, 3600.0];
    schedule[if sends - 1 < |schedule| - 1 then sends - 1 else |schedule| - 1]
  }

  datatype State = State(firing: map<Key, Firing>, sent: seq<Message>)

  const Quiet := State(map[], [])

  /** Every condition that is firing has sent at least once. */
  predicate Sound(s: State) { forall k :: k in s.firing ==> s.firing[k].sends >= 1 }

  predicate Sends(s: State, k: Key, now: real)
    requires Sound(s)
  {
    k !in s.firing || now - s.firing[k].lastSent >= RequiredWait(s.firing[k].sends)
  }

  /** A quiet condition may send at once; a firing one 5 minutes after its first send, 15 after
      its second, and an hour after any later one. */
  predicate Due(s: State, k: Key, now: real) {
    k in s.firing ==>
      now >= s.firing[k].lastSent + if s.firing[k].sends <= 1 then 300.0 else if s.firing[k].sends == 2 then 900.0 else 3600.0
  }

  function Notified(s: State, k: Key, now: real): (r: State)
    requires Sound(s)
    ensures Sound(r)
  {
    if !Sends(s, k, now) then s
    else
      var n := if k in s.firing then s.firing[k].sends + 1 else 1;
      State(s.firing[k := Firing(now, n)], s.sent + [Alert(k, now)])
  }

  function Resolved(s: State, k: Key): (r: State)
    requires Sound(s)
    ensures Sound(r)
  {
    if k !in s.firing then s else State(s.firing - {k}, s.sent + [RecoveredMessage(k)])
  }

  class ThrottledNotifier {
    var firing: map<Key, Firing>
    var sent: seq<Message>

    ghost predicate Valid()
      reads this
    {
      Sound(Current())
    }

    function Current(): State
      reads this
    {
      State(firing, sent)
    }

    constructor ()
      ensures Valid() && Current() == Quiet
    {
      firing, sent := map[], [];
    }

    method Notify(component: string, kind: string, now: real)
      requires Valid()
      modifies this
      ensures Valid() && Current() == Notified(old(Current()), Key(component, kind), now)
      ensures sent == old(sent) + if Due(old(Current()), Key(component, kind), now) then [Alert(Key(component, kind), now)] else []
    {
      var key := Key(component, kind);
      if key !in firing {
        firing := firing[key := Firing(now, 1)];
        sent := sent + [Alert(key, now)];
        return;
      }
      var st := firing[key];
      if now - st.lastSent >= RequiredWait(st.sends) {
        firing := firing[key := Firing(now, st.sends + 1)];
        sent := sent + [Alert(key, now)];
      }
    }

    method Resolve(component: string, kind: string)
      requires Valid()
      modifies this
      ensures Valid() && Current() == Resolved(old(Current()), Key(component, kind))
    {
      var key := Key(component, kind);
      if key !in firing {
        return;
      }
      firing := firing - {key};
      sent := sent + [RecoveredMessage(key)];
    }
  }

  // ---------- whole runs ----------

  datatype Op = Notify(key: Key, at: real) | Resolve(key: Key)

  function Done(s: State, op: Op): (r: State)
    requires Sound(s)
    ensures Sound(r)
  {
    match op
    case Notify(k, at) => Notified(s, k, at)
    case Resolve(k) => Resolved(s, k)
  }

  function After(s: State, ops: seq<Op>): (r: State)
    requires Sound(s)
    ensures Sound(r)
  {
    if |ops| == 0 then s else Done(After(s, ops[..|ops| - 1]), ops[|ops| - 1])
  }

  /** Seconds that must separate a firing condition's first send from its `n`-th. */
  function Spacing(n: nat): real
    requires n >= 1
  {
    if n == 1 then 0.0 else if n == 2 then 300.0 else 1200.0 + 3600.0 * (n - 3) as real
  }

  lemma SpacingGrows(n: nat)
    requires n >= 1
    ensures Spacing(n + 1) == Spacing(n) + RequiredWait(n)
  {
  }

  /** While a condition fires without being resolved, its sends keep their distance: between
      its m-th and its n-th send lie at least the waits of the schedule, whatever the clock
      does in between. */
  lemma {:induction false} SendsKeepTheirDistance(s: State, ops: seq<Op>, k: Key)
    requires Sound(s) && k in s.firing
    requires forall i :: 0 <= i < |ops| ==> ops[i] != Resolve(k)
    ensures var t := After(s, ops);
      && k in t.firing && t.firing[k].sends >= s.firing[k].sends
      && t.firing[k].lastSent - s.firing[k].lastSent >= Spacing(t.firing[k].sends) - Spacing(s.firing[k].sends)
  {
    if |ops| > 0 {
      var before := ops[..|ops| - 1];
      SendsKeepTheirDistance(s, before, k);
      SpacingGrows(After(s, before).firing[k].sends);
    }
  }

  /** From the first send of an unresolved condition, its n-th send for n >= 3 is at least
      1200 + 3600 (n - 3) seconds later; so the sends in a span are bounded by its length. */
  lemma NthSendIsLate(s: State, ops: seq<Op>, k: Key, now: real)
    requires Sound(s) && k !in s.firing
    requires forall i :: 0 <= i < |ops| ==> ops[i] != Resolve(k)
    ensures var f := After(Notified(s, k, now), ops).firing;
      && k in f
      && (f[k].sends >= 3 ==> f[k].lastSent >= now + 1200.0 + 3600.0 * (f[k].sends - 3) as real)
  {
    SendsKeepTheirDistance(Notified(s, k, now), ops, k);
  }

  // ---------- what is firing is what was sent ----------

  /** Alerts a key has sent since its last recovered message, and when the last one left. */
  function AlertsSince(sent: seq<Message>, k: Key): nat {
    if |sent| == 0 then 0
    else
      var before := AlertsSince(sent[..|sent| - 1], k);
      match sent[|sent| - 1]
      case Alert(key, _) => if key == k then before + 1 else before
      case RecoveredMessage(key) => if key == k then 0 else before
  }

  function LastAlert(sent: seq<Message>, k: Key): real {
    if |sent| == 0 then 0.0
    else match sent[|sent| - 1]
      case Alert(key, at) => if key == k then at else LastAlert(sent[..|sent| - 1], k)
      case _ => LastAlert(sent[..|sent| - 1], k)
  }

  lemma AlertsAppend(sent: seq<Message>, m: Message, k: Key)
    ensures AlertsSince(sent + [m], k) ==
      if m.key != k then AlertsSince(sent, k) else if m.Alert? then AlertsSince(sent, k) + 1 else 0
    ensures LastAlert(sent + [m], k) == if m.Alert? && m.key == k then m.at else LastAlert(sent, k)
  {
    assert (sent + [m])[..|sent|] == sent;
  }

  /** The notifier's memory of a key is exactly what its messages show: it is firing iff it has
      alerted since it last recovered, as often and as lately as it remembers. */
  predicate Remembers(s: State, k: Key) {
    && (k in s.firing <==> AlertsSince(s.sent, k) > 0)
    && (k in s.firing ==> s.firing[k] == Firing(LastAlert(s.sent, k), AlertsSince(s.sent, k)))
  }

  lemma StepRemembers(s: State, op: Op, k: Key)
    requires Sound(s) && Remembers(s, k)
    ensures Remembers(Done(s, op), k)
  {
    hide AlertsSince, LastAlert, RequiredWait;
    match op
    case Notify(key, at) => AlertsAppend(s.sent, Alert(key, at), k);
    case Resolve(key) => AlertsAppend(s.sent, RecoveredMessage(key), k);
  }

  /** In every run the messages decide the next one: a notification alerts exactly when its key
      has not alerted since it recovered, or the wait for that many alerts has passed since the
      last; a resolve tells of a recovery exactly when it has. */
  lemma {:induction false} MessagesDecide(ops: seq<Op>, k: Key, at: real)
    ensures var s := After(Quiet, ops); var n := AlertsSince(s.sent, k);
      && Remembers(s, k)
      && Notified(s, k, at).sent == s.sent +
           (if n == 0 || at >= LastAlert(s.sent, k) + (if n == 1 then 300.0 else if n == 2 then 900.0 else 3600.0)
            then [Alert(k, at)] else [])
      && Resolved(s, k).sent == s.sent + (if n > 0 then [RecoveredMessage(k)] else [])
  {
    if |ops| > 0 {
      hide Done, Remembers, Notified, Resolved;
      MessagesDecide(ops[..|ops| - 1], k, at);
      StepRemembers(After(Quiet, ops[..|ops| - 1]), ops[|ops| - 1], k);
    }
    MemoryDecides(After(Quiet, ops), k, at);
  }

  lemma MemoryDecides(s: State, k: Key, at: real)
    requires Sound(s) && Remembers(s, k)
    ensures var n := AlertsSince(s.sent, k);
      && Notified(s, k, at).sent == s.sent +
           (if n == 0 || at >= LastAlert(s.sent, k) + (if n == 1 then 300.0 else if n == 2 then 900.0 else 3600.0)
            then [Alert(k, at)] else [])
      && Resolved(s, k).sent == s.sent + (if n > 0 then [RecoveredMessage(k)] else [])
  {
  }

  // ---------- keys do not affect each other ----------

  function OnlyKey(ops: seq<Op>, k: Key): seq<Op> {
    if |ops| == 0 then []
    else OnlyKey(ops[..|ops| - 1], k) + if ops[|ops| - 1].key == k then [ops[|ops| - 1]] else []
  }

  function About(sent: seq<Message>, k: Key): seq<Message> {
    if |sent| == 0 then []
    else About(sent[..|sent| - 1], k) + if sent[|sent| - 1].key == k then [sent[|sent| - 1]] else []
  }

  lemma AboutAppend(sent: seq<Message>, m: Message, k: Key)
    ensures About(sent + [m], k) == About(sent, k) + if m.key == k then [m] else []
  {
    assert (sent + [m])[..|sent|] == sent;
  }

  predicate SameFor(s: State, t: State, k: Key) {
    && (k in s.firing <==> k in t.firing) && (k in s.firing ==> s.firing[k] == t.firing[k])
    && About(s.sent, k) == About(t.sent, k)
  }

  lemma NotifySameFor(s: State, t: State, key: Key, at: real, k: Key)
    requires Sound(s) && Sound(t) && SameFor(s, t, k)
    ensures key == k ==> SameFor(Notified(s, key, at), Notified(t, key, at), k)
    ensures key != k ==> SameFor(Notified(s, key, at), t, k)
  {
    hide About, RequiredWait;
    AboutAppend(s.sent, Alert(key, at), k);
    AboutAppend(t.sent, Alert(key, at), k);
  }

  lemma ResolveSameFor(s: State, t: State, key: Key, k: Key)
    requires Sound(s) && Sound(t) && SameFor(s, t, k)
    ensures key == k ==> SameFor(Resolved(s, key), Resolved(t, key), k)
    ensures key != k ==> SameFor(Resolved(s, key), t, k)
  {
    hide About;
    AboutAppend(s.sent, RecoveredMessage(key), k);
    AboutAppend(t.sent, RecoveredMessage(key), k);
  }

  lemma StepSameFor(s: State, t: State, op: Op, k: Key)
    requires Sound(s) && Sound(t) && SameFor(s, t, k)
    ensures op.key == k ==> SameFor(Done(s, op), Done(t, op), k)
    ensures op.key != k ==> SameFor(Done(s, op), t, k)
  {
    hide SameFor, Notified, Resolved;
    match op
    case Notify(key, at) => NotifySameFor(s, t, key, at, k);
    case Resolve(key) => ResolveSameFor(s, t, key, k);
  }

  /** What a key sends and recovers is decided by that key's own calls alone. */
  lemma {:induction false} KeysAreIndependent(ops: seq<Op>, k: Key)
    ensures SameFor(After(Quiet, ops), After(Quiet, OnlyKey(ops, k)), k)
  {
    if |ops| > 0 {
      hide Done, SameFor;
      var before, op := ops[..|ops| - 1], ops[|ops| - 1];
      var kept := OnlyKey(before, k);
      KeysAreIndependent(before, k);
      StepSameFor(After(Quiet, before), After(Quiet, kept), op, k);
      if op.key == k {
        assert (kept + [op])[..|kept|] == kept;
      } else {
        assert kept + [] == kept;
      }
    } else {
      assert SameFor(Quiet, Quiet, k);
    }
  }

  // ---------- one recovery per episode ----------

  function Recoveries(sent: seq<Message>, k: Key): nat {
    if |sent| == 0 then 0
    else Recoveries(sent[..|sent| - 1], k) + if sent[|sent| - 1] == RecoveredMessage(k) then 1 else 0
  }

  /** Times the condition started firing: a notification that found it quiet. */
  function Episodes(ops: seq<Op>, k: Key): nat {
    if |ops| == 0 then 0
    else
      var before, op := ops[..|ops| - 1], ops[|ops| - 1];
      Episodes(before, k) + if op.Notify? && op.key == k && k !in After(Quiet, before).firing then 1 else 0
  }

  lemma RecoveriesAppend(sent: seq<Message>, m: Message, k: Key)
    ensures Recoveries(sent + [m], k) == Recoveries(sent, k) + if m == RecoveredMessage(k) then 1 else 0
  {
    assert (sent + [m])[..|sent|] == sent;
  }

  lemma StepRecoveries(s: State, op: Op, k: Key)
    requires Sound(s)
    ensures var t := Done(s, op);
      Recoveries(t.sent, k) + (if k in t.firing then 1 else 0)
      == Recoveries(s.sent, k) + (if k in s.firing then 1 else 0)
         + (if op.Notify? && op.key == k && k !in s.firing then 1 else 0)
  {
    hide Recoveries, RequiredWait;
    match op
    case Notify(key, at) => RecoveriesAppend(s.sent, Alert(key, at), k);
    case Resolve(key) => RecoveriesAppend(s.sent, RecoveredMessage(key), k);
  }

  /** Every episode ends in at most one recovered message, and each recovered message ends
      one: the difference is exactly whether the condition is firing now. */
  lemma {:induction false} RecoveriesMatchEpisodes(ops: seq<Op>, k: Key)
    ensures var s := After(Quiet, ops);
      Episodes(ops, k) == Recoveries(s.sent, k) + if k in s.firing then 1 else 0
  {
    hide Done;
    if |ops| > 0 {
      var before, op := ops[..|ops| - 1], ops[|ops| - 1];
      RecoveriesMatchEpisodes(before, k);
      StepRecoveries(After(Quiet, before), op, k);
    }
  }
}
