/**
  The shared outbound cap (src/alerts/outbound_cap.py): two lanes counted over sliding
  windows, and a back-off of the routine lane after a 429. Times are in microseconds. The two
  tables are shared by every process; each decision is one atomic step.
 */
module OutboundCap {

  const HOUR: int := 3_600_000_000
  const DAY: int := 24 * HOUR

  datatype Limits = Limits(perHour: int, perDay: int, priorityPerHour: int, backoff: int)

  const DEFAULTS := Limits(8, 50, 4, HOUR)

  datatype Send = Send(at: int, priority: bool)

  datatype Tables = Tables(sends: seq<Send>, incidents: seq<int>)

  datatype Reason = Priority | Routine | BackoffAfter429 | PriorityHourlyCap | RoutineHourlyCap | RoutineDailyCap

  predicate Sent(r: Reason) { r == Priority || r == Routine }

  // ---------- lanes ----------

  function LowerChar(c: char): char {
    if 'A' <= c <= 'Z' then c - 'A' + 'a' else c
  }

  function Lower(s: string): string { seq(|s|, i requires 0 <= i < |s| => LowerChar(s[i])) }

  predicate IsPriority(kind: string, severity: string) {
    kind == "daily_liveness" || Lower(severity) in ["urgent", "critical", "high"]
  }

  // ---------- counting ----------

  /** Sends on a lane at or after `since`. */
  function CountSince(sends: seq<Send>, since: int, priority: bool): nat {
    if |sends| == 0 then 0
    else
      var last := sends[|sends| - 1];
      CountSince(sends[..|sends| - 1], since, priority) + if last.at >= since && last.priority == priority then 1 else 0
  }

  /** Sends on a lane in the closed interval from `lo` to `hi`. */
  function CountWithin(sends: seq<Send>, lo: int, hi: int, priority: bool): nat {
    if |sends| == 0 then 0
    else
      var last := sends[|sends| - 1];
      CountWithin(sends[..|sends| - 1], lo, hi, priority)
      + if lo <= last.at <= hi && last.priority == priority then 1 else 0
  }

  predicate InBackoff(incidents: seq<int>, backoff: int, now: int) {
    exists i :: 0 <= i < |incidents| && now - incidents[i] < backoff
  }

  function Decide(t: Tables, l: Limits, priority: bool, now: int): Reason {
    if !priority && InBackoff(t.incidents, l.backoff, now) then BackoffAfter429
    else if priority then
      if CountSince(t.sends, now - HOUR, true) >= l.priorityPerHour then PriorityHourlyCap else Priority
    else if CountSince(t.sends, now - HOUR, false) >= l.perHour then RoutineHourlyCap
    else if CountSince(t.sends, now - DAY, false) >= l.perDay then RoutineDailyCap
    else Routine
  }

  function Allowed(t: Tables, l: Limits, priority: bool, now: int): Tables {
    if Sent(Decide(t, l, priority, now)) then t.(sends := t.sends + [Send(now, priority)]) else t
  }

  /** Indices of a lane's sends at or after `since`. */
  function SentSince(sends: seq<Send>, since: int, priority: bool): set<int> {
    set i | 0 <= i < |sends| && sends[i].at >= since && sends[i].priority == priority
  }

  lemma {:induction false} CountIsSize(sends: seq<Send>, since: int, priority: bool)
    ensures CountSince(sends, since, priority) == |SentSince(sends, since, priority)|
  {
    if |sends| > 0 {
      var n := |sends| - 1;
      CountIsSize(sends[..n], since, priority);
      assert SentSince(sends, since, priority) == SentSince(sends[..n], since, priority)
        + if sends[n].at >= since && sends[n].priority == priority then {n} else {};
    }
  }

  /** A priority alert leaves exactly when fewer priority sends than its cap lie in the last
      hour; a routine one exactly when every 429 is at least the back-off old and the routine
      sends of the last hour and of the last day are below their caps. What is refused says
      which of these failed first. */
  lemma LeavesExactly(t: Tables, l: Limits, priority: bool, now: int)
    ensures var r := Decide(t, l, priority, now);
      var hour := |SentSince(t.sends, now - 3_600_000_000, priority)|;
      var day := |SentSince(t.sends, now - 86_400_000_000, false)|;
      && (priority ==> r == if hour < l.priorityPerHour then Priority else PriorityHourlyCap)
      && (!priority ==>
            (r == BackoffAfter429 <==> exists at :: at in t.incidents && now - at < l.backoff)
            && (r == Routine <==>
                  (forall at :: at in t.incidents ==> now - at >= l.backoff) && hour < l.perHour && day < l.perDay)
            && (r == RoutineHourlyCap ==> hour >= l.perHour) && (r == RoutineDailyCap ==> day >= l.perDay)
            && r != Priority && r != PriorityHourlyCap)
  {
    hide SentSince, CountSince;
    CountIsSize(t.sends, now - HOUR, priority);
    CountIsSize(t.sends, now - DAY, false);
    if i :| 0 <= i < |t.incidents| && now - t.incidents[i] < l.backoff {
      assert t.incidents[i] in t.incidents;
    }
  }

  /** The same letters, capitals counted as small ones. */
  predicate SameLetters(s: string, small: string) {
    |s| == |small| && forall i :: 0 <= i < |s| ==>
      if 'A' <= s[i] <= 'Z' then s[i] as int + 32 == small[i] as int else s[i] == small[i]
  }

  lemma LowerExactly(s: string, small: string)
    ensures Lower(s) == small <==> SameLetters(s, small)
  {
    if SameLetters(s, small) {
      assert forall i :: 0 <= i < |s| ==> Lower(s)[i] == small[i];
    } else if |s| == |small| {
      assert exists i :: 0 <= i < |s| && Lower(s)[i] != small[i];
    }
  }

  /** The priority lane is for the daily liveness ping and for urgent, critical and high alerts in
      any case, and for nothing else. */
  lemma PriorityExactly(kind: string, severity: string)
    ensures IsPriority(kind, severity) <==>
      kind == "daily_liveness" || SameLetters(severity, "urgent") || SameLetters(severity, "critical")
      || SameLetters(severity, "high")
  {
    hide Lower, SameLetters;
    LowerExactly(severity, "urgent");
    LowerExactly(severity, "critical");
    LowerExactly(severity, "high");
  }

  class Cap {
    const limits: Limits
    var sends: seq<Send>
    var incidents: seq<int>

    constructor (limits: Limits)
      ensures this.limits == limits && State() == Tables([], [])
    {
      this.limits := limits;
      sends, incidents := [], [];
    }

    function State(): Tables
      reads this
    {
      Tables(sends, incidents)
    }

    method Count(since: int, priority: bool) returns (n: nat)
      ensures n == CountSince(sends, since, priority)
    {
      n := 0;
      for i := 0 to |sends|
        invariant n == CountSince(sends[..i], since, priority)
      {
        assert sends[..i + 1][..i] == sends[..i];
        if sends[i].at >= since && sends[i].priority == priority {
          n := n + 1;
        }
      }
      assert sends[..|sends|] == sends;
    }

    /** Whether the latest incident is within the back-off. */
    method BackingOff(now: int) returns (r: bool)
      ensures r == InBackoff(incidents, limits.backoff, now)
    {
      if |incidents| == 0 {
        return false;
      }
      var latest := incidents[0];
      for i := 0 to |incidents|
        invariant latest in incidents
        invariant forall j :: 0 <= j < i ==> incidents[j] <= latest
      {
        if incidents[i] > latest {
          latest := incidents[i];
        }
      }
      r := now - latest < limits.backoff;
      if r {
        var i :| 0 <= i < |incidents| && incidents[i] == latest;
        assert now - incidents[i] < limits.backoff;
      }
    }

    /** Decides whether an alert may leave and records it if so. */
    method Allow(kind: string, severity: string, now: int) returns (ok: bool, reason: Reason)
      modifies this`sends
      ensures reason == Decide(old(State()), limits, IsPriority(kind, severity), now) && ok == Sent(reason)
      ensures State() == Allowed(old(State()), limits, IsPriority(kind, severity), now)
      ensures ok <==> reason == Priority || reason == Routine
      ensures sends == if ok then old(sends) + [Send(now, reason == Priority)] else old(sends)
    {
      var priority := IsPriority(kind, severity);
      var n;
      if !priority {
        var backingOff := BackingOff(now);
        if backingOff {
          return false, BackoffAfter429;
        }
      }
      if priority {
        n := Count(now - HOUR, true);
        if n >= limits.priorityPerHour {
          return false, PriorityHourlyCap;
        }
      } else {
        n := Count(now - HOUR, false);
        if n >= limits.perHour {
          return false, RoutineHourlyCap;
        }
        n := Count(now - DAY, false);
        if n >= limits.perDay {
          return false, RoutineDailyCap;
        }
      }
      sends := sends + [Send(now, priority)];
      return true, if priority then Priority else Routine;
    }

    method Note429(now: int)
      modifies this`incidents
      ensures incidents == old(incidents) + [now]
    {
      incidents := incidents + [now];
    }
  }

  // ---------- whole runs ----------

  datatype Op = Ask(priority: bool, at: int) | Note(at: int)

  function Done(t: Tables, l: Limits, op: Op): Tables {
    match op
    case Ask(priority, at) => Allowed(t, l, priority, at)
    case Note(at) => t.(incidents := t.incidents + [at])
  }

  function After(l: Limits, ops: seq<Op>): Tables {
    if |ops| == 0 then Tables([], []) else Done(After(l, ops[..|ops| - 1]), l, ops[|ops| - 1])
  }

  lemma {:induction false} WithinIsSince(sends: seq<Send>, since: int, lo: int, hi: int, priority: bool)
    requires since <= lo
    ensures CountWithin(sends, lo, hi, priority) <= CountSince(sends, since, priority)
  {
    if |sends| > 0 {
      WithinIsSince(sends[..|sends| - 1], since, lo, hi, priority);
    }
  }

  lemma CountOfAppend(sends: seq<Send>, s: Send, lo: int, hi: int, priority: bool)
    ensures CountWithin(sends + [s], lo, hi, priority)
      == CountWithin(sends, lo, hi, priority) + if lo <= s.at <= hi && s.priority == priority then 1 else 0
  {
    assert (sends + [s])[..|sends|] == sends;
  }

  /** A send inside a closed window no longer than `span` was admitted after counting back
      `span` from its own time, which covers everything sent earlier in the window. */
  lemma WindowHolds(sends: seq<Send>, now: int, priority: bool, lo: int, hi: int, span: int, cap: int)
    requires hi <= lo + span && CountWithin(sends, lo, hi, priority) <= cap
    requires CountSince(sends, now - span, priority) < cap
    ensures CountWithin(sends + [Send(now, priority)], lo, hi, priority) <= cap
  {
    CountOfAppend(sends, Send(now, priority), lo, hi, priority);
    if lo <= now <= hi {
      WithinIsSince(sends, now - span, lo, hi, priority);
    }
  }

  /** Whatever the clocks of the processes do, no closed hour ever holds more sends than the
      hourly cap of their lane, and no closed day more routine sends than the daily cap. */
  lemma {:induction false} EveryWindowIsCapped(l: Limits, ops: seq<Op>, lo: int)
    requires l.perHour >= 0 && l.perDay >= 0 && l.priorityPerHour >= 0
    ensures var sends := After(l, ops).sends;
      && CountWithin(sends, lo, lo + HOUR, false) <= l.perHour
      && CountWithin(sends, lo, lo + HOUR, true) <= l.priorityPerHour
      && CountWithin(sends, lo, lo + DAY, false) <= l.perDay
  {
    if |ops| > 0 {
      var before, op := ops[..|ops| - 1], ops[|ops| - 1];
      EveryWindowIsCapped(l, before, lo);
      var t := After(l, before);
      if op.Ask? && Sent(Decide(t, l, op.priority, op.at)) {
        if op.priority {
          WindowHolds(t.sends, op.at, true, lo, lo + HOUR, HOUR, l.priorityPerHour);
        } else {
          WindowHolds(t.sends, op.at, false, lo, lo + HOUR, HOUR, l.perHour);
          WindowHolds(t.sends, op.at, false, lo, lo + DAY, DAY, l.perDay);
        }
        CountOfAppend(t.sends, Send(op.at, op.priority), lo, lo + HOUR, !op.priority);
        CountOfAppend(t.sends, Send(op.at, op.priority), lo, lo + DAY, false);
      }
    }
  }

  /** The shipped limits: at most 8 routine and 4 priority sends in any closed hour, at most 50
      routine in any closed day. */
  lemma DefaultCaps(ops: seq<Op>, lo: int)
    ensures var sends := After(DEFAULTS, ops).sends;
      && CountWithin(sends, lo, lo + HOUR, false) <= 8 && CountWithin(sends, lo, lo + HOUR, true) <= 4
      && CountWithin(sends, lo, lo + DAY, false) <= 50
  {
    EveryWindowIsCapped(DEFAULTS, ops, lo);
  }

  lemma {:induction false} IncidentsAreKept(l: Limits, ops: seq<Op>, i: nat)
    requires i < |ops| && ops[i].Note?
    ensures ops[i].at in After(l, ops).incidents
  {
    if i < |ops| - 1 {
      IncidentsAreKept(l, ops[..|ops| - 1], i);
    }
  }

  /** A routine alert asked for after a 429 was noted goes out only once the back-off since
      that 429 has passed. */
  lemma NoRoutineSendInBackoff(l: Limits, ops: seq<Op>, i: nat, at: int)
    requires i < |ops| && ops[i].Note?
    ensures Sent(Decide(After(l, ops), l, false, at)) ==> at - ops[i].at >= l.backoff
  {
    IncidentsAreKept(l, ops, i);
    var incidents := After(l, ops).incidents;
    var k :| 0 <= k < |incidents| && incidents[k] == ops[i].at;
  }

  // ---------- the priority lane stands alone ----------

  function PriorityOnly(ops: seq<Op>): seq<Op> {
    if |ops| == 0 then []
    else
      var last := ops[|ops| - 1];
      PriorityOnly(ops[..|ops| - 1]) + if last.Ask? && last.priority then [last] else []
  }

  function PrioritySends(sends: seq<Send>): seq<Send> {
    if |sends| == 0 then []
    else PrioritySends(sends[..|sends| - 1]) + if sends[|sends| - 1].priority then [sends[|sends| - 1]] else []
  }

  lemma {:induction false} CountOfPriority(sends: seq<Send>, since: int)
    ensures CountSince(PrioritySends(sends), since, true) == CountSince(sends, since, true)
  {
    if |sends| > 0 {
      var before := sends[..|sends| - 1];
      CountOfPriority(before, since);
      var p := PrioritySends(before);
      if sends[|sends| - 1].priority {
        assert (p + [sends[|sends| - 1]])[..|p|] == p;
      } else {
        assert p + [] == p;
      }
    }
  }

  lemma PrioritySendsOfAppend(sends: seq<Send>, s: Send)
    ensures PrioritySends(sends + [s]) == PrioritySends(sends) + if s.priority then [s] else []
  {
    assert (sends + [s])[..|sends|] == sends;
  }

  /** Two tables with the same priority sends decide priority alerts alike. */
  lemma SameLane(t: Tables, p: Tables, l: Limits, at: int)
    requires PrioritySends(t.sends) == p.sends
    ensures CountSince(p.sends, at - HOUR, true) == CountSince(t.sends, at - HOUR, true)
    ensures Decide(t, l, true, at) == Decide(p, l, true, at)
  {
    CountOfPriority(t.sends, at - HOUR);
  }

  lemma StepSameLane(t: Tables, p: Tables, l: Limits, op: Op)
    requires PrioritySends(t.sends) == p.sends
    ensures PrioritySends(Done(t, l, op).sends) ==
      if op.Ask? && op.priority then Done(p, l, op).sends else p.sends
  {
    hide CountSince, PrioritySends, InBackoff;
    if op.Ask? {
      SameLane(t, p, l, op.at);
      PrioritySendsOfAppend(t.sends, Send(op.at, op.priority));
    }
  }

  /** Every priority decision is the one the lane would make if no routine alert had ever been
      asked for and no 429 noted: routine traffic cannot starve it. */
  lemma {:induction false} PriorityLaneStandsAlone(l: Limits, ops: seq<Op>, at: int)
    ensures PrioritySends(After(l, ops).sends) == After(l, PriorityOnly(ops)).sends
    ensures Decide(After(l, ops), l, true, at) == Decide(After(l, PriorityOnly(ops)), l, true, at)
  {
    hide Done, Decide, CountSince;
    if |ops| > 0 {
      var before, op := ops[..|ops| - 1], ops[|ops| - 1];
      var kept := PriorityOnly(before);
      PriorityLaneStandsAlone(l, before, op.at);
      StepSameLane(After(l, before), After(l, kept), l, op);
      if op.Ask? && op.priority {
        assert (kept + [op])[..|kept|] == kept;
      } else {
        assert kept + [] == kept;
      }
    }
    SameLane(After(l, ops), After(l, PriorityOnly(ops)), l, at);
  }
}
