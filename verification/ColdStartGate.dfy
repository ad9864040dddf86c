/**
  The cold-start verification gate (src/engine/cold_start_gate.py): per-leg states, a clock
  that pauses while readiness is failed, and what the gate lets through. Wall-clock and
  monotonic times are parameters, in seconds.
 */
module ColdStartGate {
  import opened Options
  import opened Reals
  import opened BarFreshness

  datatype Policy = HighAvailability | FailSafeClose

  datatype Gate =
    | Pending | PendingBlocked | HeuristicParity | StabilizedVerified | StaleReverify | BypassOverride

  datatype Config = Config(wait: real, maxBarAge: real, heuristicScale: real, bypassScale: real)

  datatype Health = Health(
    latestTs: Option<real>, priorTs: Option<real>, latestVolume: real, priorVolume: real, bars: nat)

  type Leg = string

  // ---------- stream health ----------

  predicate Intact(h: Health) {
    && h.bars >= 2 && h.latestTs.Some? && h.priorTs.Some? && h.latestTs.value > h.priorTs.value
    && !(h.latestVolume <= 0.0 && h.priorVolume <= 0.0)
  }

  predicate FreshAt(h: Health, period: real, wall: real, c: Config) {
    h.latestTs.Some?
    && BarStaleness(h.latestTs.value, period, wall) <= Max(StaleAfter(period, c.maxBarAge), 0.0)
  }

  /** In wall time: the latest bar opened no longer ago than two periods and the latency, one
      period for it to close and one for the next to be due. */
  predicate InTime(h: Health, period: real, wall: real, latency: real) {
    h.latestTs.Some? && wall <= h.latestTs.value + period + if period + latency >= 0.0 then period + latency else 0.0
  }

  /** Two bars in order, not both without volume. */
  predicate TwoLiveBars(h: Health) {
    match (h.priorTs, h.latestTs)
    case (Some(prior), Some(latest)) => h.bars > 1 && prior < latest && (h.priorVolume > 0.0 || h.latestVolume > 0.0)
    case _ => false
  }

  lemma HealthInTerms(h: Health, period: real, wall: real, c: Config)
    ensures FreshAt(h, period, wall, c) <==> InTime(h, period, wall, c.maxBarAge)
    ensures Intact(h) <==> TwoLiveBars(h)
  {
  }

  // ---------- the pausable clock ----------

  datatype Clock = Clock(started: Option<real>, accumulated: real, pausedSince: Option<real>)

  const Unstarted := Clock(None, 0.0, None)

  function Elapsed(c: Clock, now: real): real {
    if c.started == None then 0.0
    else
      var paused := if c.pausedSince == None then c.accumulated
                    else c.accumulated + Max(now - c.pausedSince.value, 0.0);
      Max(now - c.started.value - paused, 0.0)
  }

  function Begun(c: Clock, now: real): Clock { c.(started := Some(now)) }

  function Paused(c: Clock, now: real): Clock {
    if c.pausedSince == None then c.(pausedSince := Some(now)) else c
  }

  function Resumed(c: Clock, now: real): Clock {
    if c.pausedSince == None then c
    else c.(accumulated := c.accumulated + Max(now - c.pausedSince.value, 0.0), pausedSince := None)
  }

  function Readied(c: Clock, ok: bool, now: real): Clock { if ok then Resumed(c, now) else Paused(c, now) }

  // ---------- one leg's transitions ----------

  /** What a check sees of a leg: matrices, background verification and the stream. */
  datatype View = View(aligned: bool, background: bool, recent: bool, intact: bool)

  /** The state `EvaluateTimeBound` moves to; the same state when it does not move. */
  function TimeBound(g: Gate, p: Policy, elapsed: real, wait: real, v: View): Gate {
    match g
    case BypassOverride => g
    case StabilizedVerified => if v.recent then g else StaleReverify
    case StaleReverify => if v.recent && v.aligned then StabilizedVerified else g
    case _ =>
      if elapsed < wait then g
      else if v.aligned && v.background && v.recent && v.intact then StabilizedVerified
      else if p == FailSafeClose then (if g == Pending then PendingBlocked else g)
      else if v.intact && v.recent && g == Pending then HeuristicParity
      else BypassOverride
  }

  /** A verification pass looks no further when the books diverge, or when aligned matrices meet
      a stale feed. */
  predicate StopsEarly(divergent: bool, v: View) { divergent || (v.aligned && !v.recent) }

  function Verified(g: Gate, p: Policy, elapsed: real, wait: real, divergent: bool, v: View): Gate {
    if divergent then g
    else if v.aligned && v.background && v.recent && v.intact && g != StabilizedVerified then StabilizedVerified
    else if StopsEarly(divergent, v) then g
    else TimeBound(g, p, elapsed, wait, v)
  }

  predicate Newly(prior: Gate, next: Gate) { prior != StabilizedVerified && next == StabilizedVerified }

  function Chosen(chosen: map<Leg, Policy>, leg: Leg): Policy {
    if leg in chosen then chosen[leg] else FailSafeClose
  }

  datatype Transition = Transition(prior: Gate, next: Gate)

  class ColdStartGateEngine {
    const config: Config
    var states: map<Leg, Gate>
    var policies: map<Leg, Policy>
    var started: Option<real>
    var accumulated: real
    var pausedSince: Option<real>
    var log: map<Leg, Transition>

    constructor (config: Config)
      ensures this.config == config && states == map[] && policies == map[] && ClockNow() == Unstarted && log == map[]
      ensures forall leg :: StateOf(leg) == Pending && PolicyOf(leg) == FailSafeClose
    {
      this.config := config;
      states, policies, started, accumulated, pausedSince, log := map[], map[], None, 0.0, None, map[];
    }

    function ClockNow(): Clock
      reads this
    {
      Clock(started, accumulated, pausedSince)
    }

    function StateOf(leg: Leg): Gate
      reads this
    {
      if leg in states then states[leg] else Pending
    }

    function PolicyOf(leg: Leg): Policy
      reads this
    {
      if leg in policies then policies[leg] else FailSafeClose
    }

    /** Restarts the clock and the listed legs. Time already spent paused is kept. */
    method BeginColdStart(legs: seq<Leg>, chosen: map<Leg, Policy>, now: real)
      modifies this`states, this`policies, this`started, this`log
      ensures ClockNow() == Begun(old(ClockNow()), now) && log == map[]
      ensures forall leg :: StateOf(leg) == if leg in legs then Pending else old(StateOf(leg))
      ensures forall leg ::
        PolicyOf(leg) == if leg !in legs then old(PolicyOf(leg)) else if leg in chosen then chosen[leg] else FailSafeClose
    {
      started := Some(now);
      log := map[];
      for i := 0 to |legs|
        modifies this`states, this`policies
        invariant forall leg :: StateOf(leg) == if leg in legs[..i] then Pending else old(StateOf(leg))
        invariant forall leg :: PolicyOf(leg) == if leg in legs[..i] then Chosen(chosen, leg) else old(PolicyOf(leg))
      {
        assert legs[..i + 1] == legs[..i] + [legs[i]];
        states := states[legs[i] := Pending];
        policies := policies[legs[i] := Chosen(chosen, legs[i])];
      }
      assert legs[..|legs|] == legs;
    }

    method SetPolicy(leg: Leg, p: Policy)
      modifies this`policies
      ensures forall other :: PolicyOf(other) == if other == leg then p else old(PolicyOf(other))
    {
      policies := policies[leg := p];
    }

    method Pause(now: real)
      modifies this`pausedSince
      ensures ClockNow() == Paused(old(ClockNow()), now)
    {
      if pausedSince == None {
        pausedSince := Some(now);
      }
    }

    method Resume(now: real)
      modifies this`pausedSince, this`accumulated
      ensures ClockNow() == Resumed(old(ClockNow()), now)
    {
      if pausedSince != None {
        accumulated := accumulated + Max(now - pausedSince.value, 0.0);
        pausedSince := None;
      }
    }

    method SetReadiness(ok: bool, now: real)
      modifies this`pausedSince, this`accumulated
      ensures ClockNow() == Readied(old(ClockNow()), ok, now)
    {
      if ok {
        Resume(now);
      } else {
        Pause(now);
      }
    }

    method ElapsedSeconds(now: real) returns (r: real)
      ensures r == Elapsed(ClockNow(), now)
    {
      if started == None {
        return 0.0;
      }
      var paused := accumulated;
      if pausedSince != None {
        paused := paused + Max(now - pausedSince.value, 0.0);
      }
      r := Max(now - started.value - paused, 0.0);
    }

    /** Moves one leg; a move to the same state is reported but not recorded. */
    method Move(leg: Leg, next: Gate) returns (t: Transition)
      modifies this`states, this`log
      ensures t == Transition(old(StateOf(leg)), next)
      ensures forall other :: StateOf(other) == if other == leg then next else old(StateOf(other))
      ensures log == if old(StateOf(leg)) == next then old(log) else old(log)[leg := t]
    {
      var prior := StateOf(leg);
      t := Transition(prior, next);
      if prior == next {
        return;
      }
      states := states[leg := next];
      log := log[leg := t];
    }

    method EvaluateTimeBound(leg: Leg, v: View, now: real) returns (t: Option<Transition>)
      modifies this`states, this`log
      ensures var g := old(StateOf(leg)); var g' := TimeBound(g, PolicyOf(leg), Elapsed(ClockNow(), now), config.wait, v);
        && t == (if g' == g then None else Some(Transition(g, g')))
        && (forall other :: StateOf(other) == if other == leg then g' else old(StateOf(other)))
        && log == if g' == g then old(log) else old(log)[leg := Transition(g, g')]
    {
      var current := StateOf(leg);
      t := None;
      if current == BypassOverride {
        return;
      }
      var moved;
      if current == StabilizedVerified {
        if !v.recent {
          moved := Move(leg, StaleReverify);
          t := Some(moved);
        }
        return;
      }
      if current == StaleReverify {
        if v.recent && v.aligned {
          moved := Move(leg, StabilizedVerified);
          t := Some(moved);
        }
        return;
      }
      var elapsed := ElapsedSeconds(now);
      if elapsed < config.wait {
        return;
      }
      if v.aligned && v.background && v.recent && v.intact {
        moved := Move(leg, StabilizedVerified);
        return Some(moved);
      }
      if PolicyOf(leg) == FailSafeClose {
        if current == Pending {
          moved := Move(leg, PendingBlocked);
          t := Some(moved);
        }
        return;
      }
      if v.intact && v.recent && current == Pending {
        moved := Move(leg, HeuristicParity);
        return Some(moved);
      }
      moved := Move(leg, BypassOverride);
      t := Some(moved);
    }

    /** A pass that stops early returns nothing; any other returns the last transition recorded
        for the leg, which may be an old one. */
    method EvaluateVerification(leg: Leg, matrixAligned: bool, skipped: bool, background: bool, divergent: bool,
                                h: Health, period: real, wall: real, now: real)
      returns (t: Option<Transition>)
      modifies this`states, this`log
      ensures var v := View(matrixAligned && !skipped, background, FreshAt(h, period, wall, config), Intact(h));
        var g' := Verified(old(StateOf(leg)), PolicyOf(leg), Elapsed(ClockNow(), now), config.wait, divergent, v);
        && (forall other :: StateOf(other) == if other == leg then g' else old(StateOf(other)))
        && log == (if g' == old(StateOf(leg)) then old(log) else old(log)[leg := Transition(old(StateOf(leg)), g')])
        && t == if StopsEarly(divergent, v) || leg !in log then None else Some(log[leg])
      ensures var inTime, agreed := InTime(h, period, wall, config.maxBarAge), !divergent && matrixAligned && !skipped;
        && (Newly(old(StateOf(leg)), StateOf(leg)) ==> agreed && inTime)
        && (Newly(old(StateOf(leg)), StateOf(leg)) ==> old(StateOf(leg)) == StaleReverify || (background && TwoLiveBars(h)))
        && (agreed && inTime && background && TwoLiveBars(h) ==> StateOf(leg) == StabilizedVerified)
    {
      HealthInTerms(h, period, wall, config);
      t := None;
      if divergent {
        return;
      }
      var recent := FreshAt(h, period, wall, config);
      var intact := Intact(h);
      var aligned := matrixAligned && !skipped;
      if aligned && background && recent && intact && StateOf(leg) != StabilizedVerified {
        var moved := Move(leg, StabilizedVerified);
        return Some(moved);
      }
      if aligned && !recent {
        return;
      }
      var _ := EvaluateTimeBound(leg, View(aligned, background, recent, intact), now);
      t := if leg in log then Some(log[leg]) else None;
    }

    method TickTimeBound(leg: Leg, matrixAligned: bool, background: bool, h: Health, period: real, wall: real,
                         readinessOk: bool, now: real)
      returns (t: Option<Transition>)
      modifies this`states, this`log, this`pausedSince, this`accumulated
      ensures ClockNow() == Readied(old(ClockNow()), readinessOk, now)
      ensures var v := View(matrixAligned, background, FreshAt(h, period, wall, config), Intact(h));
        var g := old(StateOf(leg));
        var g' := if readinessOk then TimeBound(g, PolicyOf(leg), Elapsed(ClockNow(), now), config.wait, v) else g;
        && (forall other :: StateOf(other) == if other == leg then g' else old(StateOf(other)))
        && t == (if g' == g then None else Some(Transition(g, g')))
        && log == if g' == g then old(log) else old(log)[leg := Transition(g, g')]
      ensures pausedSince.Some? <==> !readinessOk
      ensures readinessOk && old(StateOf(leg)) == StabilizedVerified ==>
        StateOf(leg) == if InTime(h, period, wall, config.maxBarAge) then StabilizedVerified else StaleReverify
      ensures var inTime := InTime(h, period, wall, config.maxBarAge);
        && (Newly(old(StateOf(leg)), StateOf(leg)) ==> readinessOk && matrixAligned && inTime)
        && (Newly(old(StateOf(leg)), StateOf(leg)) ==> old(StateOf(leg)) == StaleReverify || (background && TwoLiveBars(h)))
    {
      HealthInTerms(h, period, wall, config);
      SetReadiness(readinessOk, now);
      if !readinessOk {
        return None;
      }
      t := EvaluateTimeBound(leg, View(matrixAligned, background, FreshAt(h, period, wall, config), Intact(h)), now);
    }

    method BlocksEntrySignals(leg: Leg) returns (blocks: bool)
      ensures blocks == !MayEnter(StateOf(leg), PolicyOf(leg))
      ensures var g, available := StateOf(leg), PolicyOf(leg) == HighAvailability;
        !blocks <==> g == StabilizedVerified || (available && (g == HeuristicParity || g == BypassOverride))
    {
      var g := StateOf(leg);
      if g == Pending || g == PendingBlocked || g == StaleReverify {
        return true;
      }
      if g == HeuristicParity || g == BypassOverride {
        return PolicyOf(leg) == FailSafeClose;
      }
      blocks := g != StabilizedVerified;
    }

    method EntryScale(leg: Leg) returns (scale: real)
      ensures scale == ScaleOf(StateOf(leg), PolicyOf(leg), config)
      ensures StateOf(leg) == StabilizedVerified ==> scale == 1.0
      ensures PolicyOf(leg) == HighAvailability && StateOf(leg) == HeuristicParity ==> scale == config.heuristicScale
      ensures PolicyOf(leg) == HighAvailability && StateOf(leg) == BypassOverride ==> scale == config.bypassScale
      ensures StateOf(leg) != StabilizedVerified && PolicyOf(leg) == FailSafeClose ==> scale == 0.0
      ensures StateOf(leg) == Pending || StateOf(leg) == PendingBlocked || StateOf(leg) == StaleReverify ==> scale == 0.0
    {
      var g := StateOf(leg);
      if g == StabilizedVerified {
        return 1.0;
      }
      if g == StaleReverify {
        return 0.0;
      }
      if g == HeuristicParity || g == BypassOverride {
        if PolicyOf(leg) == FailSafeClose {
          return 0.0;
        }
        return if g == HeuristicParity then config.heuristicScale else config.bypassScale;
      }
      scale := 0.0;
    }
  }

  /** A verified leg may enter; an unverified one only past the wait, if it favours availability. */
  predicate MayEnter(g: Gate, p: Policy) {
    g == StabilizedVerified || ((g == HeuristicParity || g == BypassOverride) && p == HighAvailability)
  }

  function ScaleOf(g: Gate, p: Policy, c: Config): real {
    if g == StabilizedVerified then 1.0
    else if !MayEnter(g, p) then 0.0
    else if g == HeuristicParity then c.heuristicScale else c.bypassScale
  }

  // ---------- the clock measures unpaused time ----------

  /** An independent account of the same clock: running totals of unpaused and paused time,
      and the paused time there already was at the last begin. */
  datatype Ledger = Ledger(begun: bool, paused: bool, unpaused: real, pausedTotal: real, carried: real, at: real)

  datatype Signal = Begin | Pausing | Resuming

  function Advanced(l: Ledger, now: real): Ledger {
    var gap := now - l.at;
    l.(at := now,
       unpaused := if l.begun && !l.paused then l.unpaused + gap else l.unpaused,
       pausedTotal := if l.paused then l.pausedTotal + gap else l.pausedTotal)
  }

  function Entered(l: Ledger, s: Signal, now: real): Ledger {
    var a := Advanced(l, now);
    match s
    case Begin => a.(begun := true, unpaused := 0.0, carried := a.pausedTotal)
    case Pausing => a.(paused := true)
    case Resuming => a.(paused := false)
  }

  function Signalled(c: Clock, s: Signal, now: real): Clock {
    match s
    case Begin => Begun(c, now)
    case Pausing => Paused(c, now)
    case Resuming => Resumed(c, now)
  }

  predicate Agrees(c: Clock, l: Ledger) {
    && c.started.Some? == l.begun && c.pausedSince.Some? == l.paused
    && (l.paused ==> c.pausedSince.value <= l.at && l.pausedTotal == c.accumulated + l.at - c.pausedSince.value)
    && (!l.paused ==> l.pausedTotal == c.accumulated)
    && (l.begun ==> l.unpaused == l.at - c.started.value - (l.pausedTotal - l.carried))
    && (!l.begun ==> l.unpaused == 0.0)
    && 0.0 <= l.carried <= l.pausedTotal && l.unpaused >= 0.0
  }

  lemma SignalKeepsAgreement(c: Clock, l: Ledger, s: Signal, now: real)
    requires Agrees(c, l) && l.at <= now
    ensures Agrees(Signalled(c, s, now), Entered(l, s, now))
  {
  }

  /** The clock shows the unpaused time since the last begin, less the paused time there was
      before it: never early, and exact precisely when nothing was carried over or nothing
      has elapsed. */
  lemma ClockShowsUnpausedTime(c: Clock, l: Ledger, now: real)
    requires Agrees(c, l) && l.at <= now
    ensures var u := Advanced(l, now).unpaused;
      && Elapsed(c, now) <= u
      && (l.begun ==> Elapsed(c, now) == Max(u - l.carried, 0.0))
      && (l.begun ==> (Elapsed(c, now) == u <==> l.carried == 0.0 || u == 0.0))
  {
  }

  // ---------- whole runs of one leg ----------

  /** `Start` is a begin that lists the leg, `StartOthers` one that does not: it restarts the
      shared clock all the same. */
  datatype Event =
    | Start(policy: Policy)
    | StartOthers
    | SetPolicy(policy: Policy)
    | PauseClock
    | ResumeClock
    | Verify(divergent: bool, view: View)
    | Tick(ready: bool, view: View)

  datatype Stamped = Stamped(event: Event, at: real)

  /** One leg with the shared clock and its ledger. `own` is the unpaused time since the last
      begin that listed the leg (since the first begin of all, when none did); `failSafe` while
      its policy has been fail-safe ever since then. */
  datatype Story = Story(gate: Gate, policy: Policy, failSafe: bool, clock: Clock, ledger: Ledger, own: real)

  /** The signal an event sends the clock, if any; a tick drives it from readiness. */
  function SignalOf(e: Event): Option<Signal> {
    match e
    case Start(_) => Some(Begin)
    case StartOthers => Some(Begin)
    case PauseClock => Some(Pausing)
    case ResumeClock => Some(Resuming)
    case Verify(_, _) => None
    case SetPolicy(_) => None
    case Tick(ready, _) => Some(if ready then Resuming else Pausing)
  }

  function Told(s: Story, e: Event, now: real, wait: real): Story {
    var sig := SignalOf(e);
    var clock := if sig == None then s.clock else Signalled(s.clock, sig.value, now);
    var ledger := if sig == None then Advanced(s.ledger, now) else Entered(s.ledger, sig.value, now);
    var elapsed := Elapsed(clock, now);
    var t := s.(clock := clock, ledger := ledger, own := s.own + Advanced(s.ledger, now).unpaused - s.ledger.unpaused);
    match e
    case Start(p) => t.(gate := Pending, policy := p, failSafe := p == FailSafeClose, own := 0.0)
    case SetPolicy(p) => t.(policy := p, failSafe := s.failSafe && p == FailSafeClose)
    case Verify(divergent, v) => t.(gate := Verified(s.gate, s.policy, elapsed, wait, divergent, v))
    case Tick(ready, v) => if ready then t.(gate := TimeBound(s.gate, s.policy, elapsed, wait, v)) else t
    case _ => t
  }

  function Telling(events: seq<Stamped>, wait: real, origin: real): Story {
    if |events| == 0 then Story(Pending, FailSafeClose, true, Unstarted, Ledger(false, false, 0.0, 0.0, 0.0, origin), 0.0)
    else
      var last := events[|events| - 1];
      Told(Telling(events[..|events| - 1], wait, origin), last.event, last.at, wait)
  }

  // ---------- the engine tells every leg's story ----------

  /** A call on the engine, for any leg. */
  datatype Call =
    | CallBegin(legs: seq<Leg>, chosen: map<Leg, Policy>)
    | CallPolicy(leg: Leg, p: Policy)
    | CallPause
    | CallResume
    | CallVerify(leg: Leg, aligned: bool, skipped: bool, background: bool, divergent: bool, h: Health, period: real, wall: real)
    | CallTick(leg: Leg, aligned: bool, background: bool, h: Health, period: real, wall: real, ready: bool)

  const NoView := View(false, false, false, false)

  /** What a call means to one leg: calls for other legs can only move the shared clock. */
  function EventFor(c: Call, leg: Leg, config: Config): Event {
    match c
    case CallBegin(legs, chosen) => if leg in legs then Start(Chosen(chosen, leg)) else StartOthers
    case CallPolicy(other, p) => if other == leg then SetPolicy(p) else Verify(true, NoView)
    case CallPause => PauseClock
    case CallResume => ResumeClock
    case CallVerify(other, aligned, skipped, background, divergent, h, period, wall) =>
      if other == leg
      then Verify(divergent, View(aligned && !skipped, background, FreshAt(h, period, wall, config), Intact(h)))
      else Verify(true, NoView)
    case CallTick(other, aligned, background, h, period, wall, ready) =>
      if other == leg then Tick(ready, View(aligned, background, FreshAt(h, period, wall, config), Intact(h)))
      else if ready then ResumeClock else PauseClock
  }

  ghost predicate Shows(engine: ColdStartGateEngine, leg: Leg, s: Story)
    reads engine
  {
    engine.StateOf(leg) == s.gate && engine.PolicyOf(leg) == s.policy && engine.ClockNow() == s.clock
  }

  lemma DivergenceHolds(g: Gate, p: Policy, elapsed: real, wait: real, v: View)
    ensures Verified(g, p, elapsed, wait, true, v) == g
  {
  }

  /** Every call moves the engine as it moves the story of whichever leg is followed. */
  method Perform(engine: ColdStartGateEngine, c: Call, now: real, ghost leg: Leg, ghost s: Story)
    requires Shows(engine, leg, s)
    modifies engine
    ensures Shows(engine, leg, Told(s, EventFor(c, leg, engine.config), now, engine.config.wait))
  {
    if c.CallVerify? || c.CallTick? {
      PerformLook(engine, c, now, leg, s);
      return;
    }
    hide Verified, TimeBound, FreshAt, Intact, Elapsed, Begun, Paused, Resumed, Advanced, Entered;
    DivergenceHolds(s.gate, s.policy, Elapsed(s.clock, now), engine.config.wait, NoView);
    match c {
      case CallBegin(legs, chosen) => engine.BeginColdStart(legs, chosen, now);
      case CallPolicy(other, p) => engine.SetPolicy(other, p);
      case CallPause => engine.Pause(now);
      case CallResume => engine.Resume(now);
    }
  }

  method PerformLook(engine: ColdStartGateEngine, c: Call, now: real, ghost leg: Leg, ghost s: Story)
    requires Shows(engine, leg, s) && (c.CallVerify? || c.CallTick?)
    modifies engine
    ensures Shows(engine, leg, Told(s, EventFor(c, leg, engine.config), now, engine.config.wait))
  {
    hide Verified, TimeBound, FreshAt, Intact, InTime, TwoLiveBars, Newly, StopsEarly, Elapsed, Begun, Paused, Resumed,
      Advanced, Entered;
    DivergenceHolds(s.gate, s.policy, Elapsed(s.clock, now), engine.config.wait, NoView);
    match c {
      case CallVerify(other, aligned, skipped, background, divergent, h, period, wall) =>
        var _ := engine.EvaluateVerification(other, aligned, skipped, background, divergent, h, period, wall, now);
      case CallTick(other, aligned, background, h, period, wall, ready) =>
        var _ := engine.TickTimeBound(other, aligned, background, h, period, wall, ready, now);
    }
  }

  predicate Ordered(events: seq<Stamped>, origin: real) {
    && (forall i :: 0 <= i < |events| ==> origin <= events[i].at)
    && (forall i, j :: 0 <= i < j < |events| ==> events[i].at <= events[j].at)
  }

  lemma OrderedPrefix(events: seq<Stamped>, n: nat, origin: real)
    requires Ordered(events, origin) && n <= |events|
    ensures Ordered(events[..n], origin)
  {
    assert forall i :: 0 <= i < n ==> events[..n][i] == events[i];
  }

  /** Where a ready tick past the wait takes a leg, by where it ends: verified on full evidence,
      or fresh and still or again aligned; re-verifying for want of it; blocked under a
      fail-safe policy; and under high availability trading heuristically from Pending on a
      live fresh stream, overridden otherwise. */
  lemma TickPastTheWait(g: Gate, p: Policy, elapsed: real, wait: real, v: View)
    requires elapsed >= wait
    ensures var r := TimeBound(g, p, elapsed, wait, v);
      var waiting := g == Pending || g == PendingBlocked || g == HeuristicParity;
      && (r == StabilizedVerified <==>
            (waiting && FullView(v)) || (g == StabilizedVerified && v.recent) || (g == StaleReverify && v.recent && v.aligned))
      && (r == StaleReverify <==>
            (g == StabilizedVerified && !v.recent) || (g == StaleReverify && !(v.recent && v.aligned)))
      && (r == PendingBlocked <==> (g == Pending || g == PendingBlocked) && !FullView(v) && p == FailSafeClose)
      && (r == HeuristicParity <==>
            !FullView(v) && if p == FailSafeClose then g == HeuristicParity else g == Pending && v.intact && v.recent)
      && (r == BypassOverride <==>
            g == BypassOverride || (waiting && !FullView(v) && p == HighAvailability && !(g == Pending && v.intact && v.recent)))
      && r != Pending
  {
  }

  /** Before the wait is over a ready tick only re-checks a leg that was verified once. */
  lemma TickBeforeTheWait(g: Gate, p: Policy, elapsed: real, wait: real, v: View)
    requires elapsed < wait && g != StabilizedVerified && g != StaleReverify
    ensures TimeBound(g, p, elapsed, wait, v) == g
  {
  }

  predicate WaitedOut(s: Story, wait: real) {
    s.gate == PendingBlocked || s.gate == HeuristicParity || s.gate == BypassOverride ==> s.own >= wait
  }

  predicate NeverUnverified(s: Story) {
    s.failSafe ==> s.policy == FailSafeClose && s.gate != HeuristicParity && s.gate != BypassOverride
  }

  /** A gate reaches a time-bound state only past the wait, and an unverified trading state
      only if it favours availability. */
  lemma GateWaits(g: Gate, p: Policy, elapsed: real, wait: real, divergent: bool, v: View, r: Gate)
    requires r == TimeBound(g, p, elapsed, wait, v) || r == Verified(g, p, elapsed, wait, divergent, v)
    ensures r == PendingBlocked || r == HeuristicParity || r == BypassOverride ==> r == g || elapsed >= wait
    ensures r == HeuristicParity || r == BypassOverride ==> r == g || p == HighAvailability
  {
  }

  lemma StepWaits(s: Story, e: Event, now: real, wait: real)
    requires Agrees(s.clock, s.ledger) && s.ledger.at <= now && WaitedOut(s, wait) && s.own >= s.ledger.unpaused
    ensures var r := Told(s, e, now, wait);
      && Agrees(r.clock, r.ledger) && r.ledger.at == now && WaitedOut(r, wait) && r.own >= r.ledger.unpaused
      && (NeverUnverified(s) ==> NeverUnverified(r))
  {
    hide TimeBound, Verified, Elapsed, Signalled;
    var sig := SignalOf(e);
    if sig.Some? {
      SignalKeepsAgreement(s.clock, s.ledger, sig.value, now);
    }
    var r := Told(s, e, now, wait);
    match e {
      case Verify(divergent, v) => GateWaits(s.gate, s.policy, Elapsed(r.clock, now), wait, divergent, v, r.gate);
      case Tick(true, v) => GateWaits(s.gate, s.policy, Elapsed(r.clock, now), wait, false, v, r.gate);
      case _ =>
    }
    ClockShowsUnpausedTime(r.clock, r.ledger, now);
  }

  /** In every run, however readiness pauses and resumes the clock, and over repeated begins of
      this leg and of others: a leg in a time-bound state has been unpaused for at least the
      configured wait since its own last begin, and a leg kept fail-safe is in no state that
      trades unverified. */
  lemma {:induction false} EveryStoryWaits(events: seq<Stamped>, wait: real, origin: real)
    requires Ordered(events, origin)
    ensures var s := Telling(events, wait, origin);
      && Agrees(s.clock, s.ledger) && WaitedOut(s, wait) && s.own >= s.ledger.unpaused
      && s.ledger.at == (if |events| == 0 then origin else events[|events| - 1].at)
      && NeverUnverified(s)
  {
    if |events| > 0 {
      var before, last := events[..|events| - 1], events[|events| - 1];
      OrderedPrefix(events, |events| - 1, origin);
      EveryStoryWaits(before, wait, origin);
      StepWaits(Telling(before, wait, origin), last.event, last.at, wait);
    }
  }

  /** As long as only begins that list the leg come along, its own unpaused time is that of the
      ledger. */
  lemma {:induction false} OwnTimeIsLedgerTime(events: seq<Stamped>, wait: real, origin: real)
    requires forall i :: 0 <= i < |events| ==> !events[i].event.StartOthers?
    ensures var s := Telling(events, wait, origin); s.own == s.ledger.unpaused
  {
    hide TimeBound, Verified, Elapsed, Signalled;
    if |events| > 0 {
      OwnTimeIsLedgerTime(events[..|events| - 1], wait, origin);
    }
  }

  /** What a leg may trade, in every run: before it is verified nothing unless its policy favours
      availability and it has waited unpaused, and nothing ever under a fail-safe policy; with
      positive scales the two entry queries agree. */
  lemma ExposureNeedsProof(events: seq<Stamped>, wait: real, origin: real, c: Config)
    requires Ordered(events, origin)
    ensures var s := Telling(events, wait, origin); var scale := ScaleOf(s.gate, s.policy, c);
      && (scale > 0.0 && s.gate != StabilizedVerified ==> s.own >= wait && s.policy == HighAvailability)
      && (s.failSafe ==> scale == if s.gate == StabilizedVerified then 1.0 else 0.0)
      && (c.heuristicScale > 0.0 && c.bypassScale > 0.0 ==> (scale > 0.0 <==> MayEnter(s.gate, s.policy)))
  {
    hide Telling;
    EveryStoryWaits(events, wait, origin);
  }

  /** Once verified, a leg alternates between verified and re-verifying until its next begin. */
  lemma {:induction false} VerifiedSticks(events: seq<Stamped>, more: seq<Stamped>, wait: real, origin: real)
    requires var g := Telling(events, wait, origin).gate; g == StabilizedVerified || g == StaleReverify
    requires forall i :: 0 <= i < |more| ==> !more[i].event.Start?
    ensures var g := Telling(events + more, wait, origin).gate; g == StabilizedVerified || g == StaleReverify
  {
    if |more| == 0 {
      assert events + more == events;
    } else {
      VerifiedSticks(events, more[..|more| - 1], wait, origin);
      assert (events + more)[..|events + more| - 1] == events + more[..|more| - 1];
    }
  }

  /** Whether the feed was fresh at the last look that could have unverified the leg: a ready
      tick, or a verification pass that did not stop early. */
  function LastLook(events: seq<Stamped>): Option<bool> {
    if |events| == 0 then None
    else
      var before := LastLook(events[..|events| - 1]);
      match events[|events| - 1].event
      case Start(_) => None
      case Tick(true, v) => Some(v.recent)
      case Verify(divergent, v) => if StopsEarly(divergent, v) then before else Some(v.recent)
      case _ => before
  }

  /** In every run a verified leg was fresh at the last such look since its begin. */
  lemma {:induction false} VerifiedWasSeenFresh(events: seq<Stamped>, wait: real, origin: real)
    ensures Telling(events, wait, origin).gate == StabilizedVerified ==> LastLook(events) == Some(true)
  {
    if |events| > 0 {
      hide Elapsed, Signalled, Advanced, Entered;
      VerifiedWasSeenFresh(events[..|events| - 1], wait, origin);
    }
  }

  /** Passes that stop early are no such look: over any number of verification passes on a stale
      feed, a leg comes out verified exactly when it went in verified and every pass stopped
      early. */
  lemma {:induction false} VerifyMayKeepStale(events: seq<Stamped>, passes: seq<Stamped>, wait: real, origin: real)
    requires forall i :: 0 <= i < |passes| ==> passes[i].event.Verify? && !passes[i].event.view.recent
    ensures Telling(events + passes, wait, origin).gate == StabilizedVerified
            <==> Telling(events, wait, origin).gate == StabilizedVerified
                 && forall i :: 0 <= i < |passes| ==> StopsEarly(passes[i].event.divergent, passes[i].event.view)
  {
    if |passes| == 0 {
      assert events + passes == events;
    } else {
      hide Elapsed, Signalled, Advanced, Entered;
      VerifyMayKeepStale(events, passes[..|passes| - 1], wait, origin);
      assert (events + passes)[..|events + passes| - 1] == events + passes[..|passes| - 1];
    }
  }

  /** Pausing and resuming never turn the clock back. */
  lemma ClockNeverTurnsBack(c: Clock, l: Ledger, e: Event, now: real)
    requires Agrees(c, l) && l.at <= now && !e.Start? && !e.StartOthers?
    ensures var sig := SignalOf(e); var c' := if sig == None then c else Signalled(c, sig.value, now);
      Elapsed(c', now) >= Elapsed(c, l.at)
  {
  }

  predicate NoBegin(events: seq<Stamped>) {
    forall i :: 0 <= i < |events| ==> !events[i].event.Start? && !events[i].event.StartOthers?
  }

  /** The leg has left Pending and the clock has reached the wait. */
  predicate PastWait(s: Story, wait: real) { s.gate != Pending && Elapsed(s.clock, s.ledger.at) >= wait }

  lemma StepStaysPast(s: Story, e: Event, now: real, wait: real)
    requires Agrees(s.clock, s.ledger) && s.ledger.at <= now && !e.Start? && !e.StartOthers? && PastWait(s, wait)
    ensures PastWait(Told(s, e, now, wait), wait)
  {
    hide Elapsed, Signalled, Agrees;
    ClockNeverTurnsBack(s.clock, s.ledger, e, now);
  }

  /** Past the wait, a leg stays past it until the clock is restarted. */
  lemma {:induction false} PastTheWait(events: seq<Stamped>, more: seq<Stamped>, wait: real, origin: real)
    requires Ordered(events + more, origin) && NoBegin(more) && PastWait(Telling(events, wait, origin), wait)
    ensures PastWait(Telling(events + more, wait, origin), wait)
  {
    hide PastWait, Told, WaitedOut, NeverUnverified, Agrees;
    if |more| == 0 {
      assert events + more == events;
    } else {
      var all, less := events + more, more[..|more| - 1];
      var n := |all| - 1;
      assert all[..n] == events + less && all[n] == more[|more| - 1];
      OrderedPrefix(all, n, origin);
      PastTheWait(events, less, wait, origin);
      EveryStoryWaits(all[..n], wait, origin);
      StepStaysPast(Telling(all[..n], wait, origin), all[n].event, all[n].at, wait);
    }
  }

  /** Heuristic trading is transient: once a run has entered it, and until a begin restarts the
      clock, the next ready tick verifies the leg or overrides it, and leaves it trading
      heuristically only if its policy has turned fail-safe meanwhile. */
  lemma HeuristicIsTransient(events: seq<Stamped>, more: seq<Stamped>, tick: Stamped, wait: real, origin: real)
    requires Ordered(events + more + [tick], origin) && NoBegin(more) && tick.event.Tick? && tick.event.ready
    requires |events| > 0 && Telling(events[..|events| - 1], wait, origin).gate != HeuristicParity
    requires Telling(events, wait, origin).gate == HeuristicParity
    ensures var s, r := Telling(events + more, wait, origin), Telling(events + more + [tick], wait, origin);
      && (r.gate == HeuristicParity ==> s.policy == FailSafeClose)
      && (s.gate == HeuristicParity && s.policy == HighAvailability ==>
            r.gate == if FullView(tick.event.view) then StabilizedVerified else BypassOverride)
  {
    hide PastWait, Told, WaitedOut, NeverUnverified, Agrees;
    var all, n := events + more + [tick], |events + more|;
    assert all[..n] == events + more && all[n] == tick && all[n - 1] == (events + more)[n - 1];
    OrderedPrefix(all, n, origin);
    EntersPastTheWait(Telling(events[..|events| - 1], wait, origin), events[|events| - 1], wait);
    PastTheWait(events, more, wait, origin);
    EveryStoryWaits(events + more, wait, origin);
    NextTick(Telling(events + more, wait, origin), tick, wait);
  }

  lemma EntersPastTheWait(s: Story, e: Stamped, wait: real)
    requires s.gate != HeuristicParity && Told(s, e.event, e.at, wait).gate == HeuristicParity
    ensures PastWait(Told(s, e.event, e.at, wait), wait)
  {
    hide Elapsed, Signalled;
  }

  lemma NextTick(s: Story, tick: Stamped, wait: real)
    requires tick.event.Tick? && tick.event.ready && Agrees(s.clock, s.ledger) && s.ledger.at <= tick.at && PastWait(s, wait)
    ensures var g := Told(s, tick.event, tick.at, wait).gate;
      && (g == HeuristicParity ==> s.policy == FailSafeClose)
      && (s.gate == HeuristicParity && s.policy == HighAvailability ==>
            g == if FullView(tick.event.view) then StabilizedVerified else BypassOverride)
  {
    hide Elapsed, Agrees;
    ClockNeverTurnsBack(s.clock, s.ledger, tick.event, tick.at);
  }

  predicate FullView(v: View) { v.aligned && v.background && v.recent && v.intact }

  predicate FullyVerifies(e: Event) { e.Verify? && !e.divergent && FullView(e.view) }

  /** No run of ticks demotes an override; only a full verification or a begin that lists the
      leg ends it. */
  lemma {:induction false} OverrideIsSticky(events: seq<Stamped>, more: seq<Stamped>, wait: real, origin: real)
    requires Telling(events, wait, origin).gate == BypassOverride
    requires forall i :: 0 <= i < |more| ==> !more[i].event.Start? && !FullyVerifies(more[i].event)
    ensures Telling(events + more, wait, origin).gate == BypassOverride
  {
    if |more| == 0 {
      assert events + more == events;
    } else {
      OverrideIsSticky(events, more[..|more| - 1], wait, origin);
      assert (events + more)[..|events + more| - 1] == events + more[..|more| - 1];
    }
  }
}
