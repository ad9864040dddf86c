/**
  The control-plane supervisor (src/engine/control_plane.py) and the live-consumption gate
  it latches (src/control/maintenance_scheduler.py). What workers, hooks, validators and the
  restore callback do in a run is a parameter; exceptions are outcomes.
 */
module ControlPlane {
  import opened Options

  datatype SupervisorState = Inactive | Starting | Running | Degraded | Stopping | Failed

  datatype Stage = Idle | Scheduled | Dispatched | Executing | Validating | Completed | StageFailed | Alerted

  datatype Runbook = PreOpen | PostClose | WeekendTuner | WeeklyPolicy

  predicate Allowed(prior: SupervisorState, target: SupervisorState) {
    match prior
    case Inactive => target == Starting
    case Starting => target == Running || target == Failed
    case Running => target == Degraded || target == Stopping || target == Failed
    case Degraded => target == Running || target == Stopping || target == Failed
    case Stopping => target == Inactive || target == Failed
    case Failed => target == Inactive || target == Starting
  }

  /** Every legal move between different states. */
  const MOVES := {
    (Inactive, Starting), (Starting, Running), (Running, Degraded), (Degraded, Running),
    (Running, Stopping), (Degraded, Stopping), (Stopping, Inactive),
    (Starting, Failed), (Running, Failed), (Degraded, Failed), (Stopping, Failed),
    (Failed, Inactive), (Failed, Starting)
  }

  lemma AllowedIsMoves(prior: SupervisorState, target: SupervisorState)
    ensures Allowed(prior, target) <==> (prior, target) in MOVES
  {
  }

  predicate RestoresOnFailure(b: Runbook) { b == PreOpen || b == WeekendTuner }

  predicate Runnable(s: SupervisorState) { s == Running || s == Degraded }

  // ---------- what the outside does during one run ----------

  datatype Work = Raised | Payload(id: nat)
  datatype Verdict = Accepted | Rejected | Crashed
  datatype Restore = Restored | NothingToRestore | RestoreRaised

  /** `first` and `second` are the worker's runs, `restore` and `again` the restore calls. */
  datatype Script = Script(
    configured: bool, preHooksFail: bool, first: Work, postHooksFail: bool, validator: nat -> Verdict,
    restore: Restore, second: Work, again: Restore)

  // ---------- what a run should come to ----------

  /** The first payload reached the validator and was rejected. */
  predicate FirstRejected(s: Script) {
    !s.preHooksFail && s.first.Payload? && !s.postHooksFail && s.validator(s.first.id) == Rejected
  }

  /** A rejected payload was healed: restored once, and the re-run's payload accepted. */
  predicate Healed(b: Runbook, s: Script) {
    && FirstRejected(s) && RestoresOnFailure(b) && s.restore == Restored
    && s.second.Payload? && s.validator(s.second.id) == Accepted
  }

  predicate Succeeds(b: Runbook, s: Script) {
    && s.configured
    && (Healed(b, s)
        || (!s.preHooksFail && s.first.Payload? && !s.postHooksFail && s.validator(s.first.id) == Accepted))
  }

  /** Something raised, so that the handler runs. */
  predicate Throws(b: Runbook, s: Script) {
    || s.preHooksFail || s.first == Raised || s.postHooksFail
    || (s.first.Payload? && s.validator(s.first.id) == Crashed)
    || (FirstRejected(s) && RestoresOnFailure(b)
        && (s.restore == RestoreRaised
            || (s.restore == Restored && (s.second == Raised || s.validator(s.second.id) == Crashed))))
  }

  /** The restore call the handler makes: the second one if the first was already used. */
  function HandlerRestore(s: Script): Restore { if FirstRejected(s) then s.again else s.restore }

  /** The handler's own restore raises, so nothing catches it. */
  predicate Escapes(b: Runbook, s: Script) {
    s.configured && Throws(b, s) && RestoresOnFailure(b) && HandlerRestore(s) == RestoreRaised
  }

  datatype Result =
    | Escaped
    | Finished(success: bool, stage: Stage, payload: Option<nat>)

  /** A worker's payload that the validator accepts. */
  predicate Passes(s: Script, w: Work) { w.Payload? && s.validator(w.id) == Accepted }

  /** The payload of the last of `runs` worker runs passed. */
  predicate Delivered(s: Script, runs: nat) {
    (runs == 1 && !s.postHooksFail && Passes(s, s.first)) || (runs == 2 && Passes(s, s.second))
  }

  /** The worker's payload was rejected and the baseline restored, so that it runs once more: only
      a pre-open or a weekend-tuner runbook restores. */
  predicate RestoredOnce(b: Runbook, s: Script) {
    && s.configured && !s.preHooksFail && s.first.Payload? && !s.postHooksFail && s.validator(s.first.id) == Rejected
    && (b == PreOpen || b == WeekendTuner) && s.restore == Restored
  }

  /** How a run can fail by raising, and when even its handler does. A rejected payload of a
      restoring runbook uses the restore up, so that the handler's restore is a second call. */
  lemma FailureInTerms(b: Runbook, s: Script)
    ensures var restores := b == PreOpen || b == WeekendTuner;
      var worked := !s.preHooksFail && s.first.Payload? && !s.postHooksFail;
      var rejected := worked && s.validator(s.first.id) == Rejected;
      var raised := !worked || s.validator(s.first.id) == Crashed;
      var raisedAgain := rejected && restores
        && match s.restore
           case RestoreRaised => true
           case NothingToRestore => false
           case Restored => if s.second.Payload? then s.validator(s.second.id) == Crashed else true;
      && (Throws(b, s) <==> raised || raisedAgain)
      && (Escapes(b, s) <==>
            s.configured && restores && ((raised && s.restore == RestoreRaised) || (raisedAgain && s.again == RestoreRaised)))
  {
  }

  // ---------- what an event does to the plant ----------

  datatype Plant = Plant(state: SupervisorState, blocked: bool, jobs: map<Runbook, bool>)

  /** `latched` is what pre-flight reconciliation reports at boot, if it is configured. */
  datatype Event = Ran(b: Runbook, s: Script) | Race | Boot(latched: Option<bool>) | Halt

  predicate MayMove(prior: SupervisorState, target: SupervisorState) { target == prior || Allowed(prior, target) }

  /** A liquidation race blocks and degrades; a run settles the latch unless it escapes; a boot
      latched by pre-flight blocks, and a good one leaves the latch as it finds it. */
  function Happened(p: Plant, e: Event): Plant {
    match e
    case Race => p.(blocked := true, state := if p.state == Running then Degraded else p.state)
    case Ran(b, s) =>
      if !Runnable(p.state) then p.(blocked := true)
      else if Escapes(b, s) then p
      else if Succeeds(b, s) then Plant(Running, false, p.jobs[b := true])
      else Plant(Degraded, true, p.jobs[b := false])
    case Boot(latched) =>
      if !MayMove(p.state, Starting) then p
      else if latched == Some(true) then p.(state := Failed, blocked := true)
      else p.(state := Running)
    case Halt => if MayMove(p.state, Stopping) then p.(state := Inactive) else p
  }

  // ---------- the consumption gate ----------

  class Consumption {
    var blocked: bool
    /** Last recorded validation result per job. */
    var jobs: map<Runbook, bool>

    constructor ()
      ensures !blocked && jobs == map[]
    {
      blocked, jobs := false, map[];
    }

    method Block()
      modifies this`blocked
      ensures blocked
    {
      blocked := true;
    }

    method Release()
      modifies this`blocked
      ensures !blocked
    {
      blocked := false;
    }

    method RecordJob(b: Runbook, passed: bool)
      modifies this`jobs
      ensures jobs == old(jobs)[b := passed]
    {
      jobs := jobs[b := passed];
    }

    method LiveConsumptionGate() returns (allowed: bool)
      ensures allowed == GateOpen(blocked, jobs)
    {
      if blocked {
        return false;
      }
      var critical := [WeekendTuner, PreOpen];
      for i := 0 to |critical|
        invariant forall j :: 0 <= j < i ==> LastPassed(jobs, critical[j])
      {
        if critical[i] in jobs && !jobs[critical[i]] {
          return false;
        }
      }
      assert critical[0] == WeekendTuner && critical[1] == PreOpen;
      allowed := true;
    }
  }

  /** The job passed the last time it was recorded, or never was. */
  predicate LastPassed(jobs: map<Runbook, bool>, b: Runbook) { b in jobs ==> jobs[b] }

  predicate GateOpen(blocked: bool, jobs: map<Runbook, bool>) {
    !blocked && LastPassed(jobs, WeekendTuner) && LastPassed(jobs, PreOpen)
  }

  // ---------- the supervisor ----------

  class ControlPlaneSupervisor {
    const gate: Consumption
    var state: SupervisorState
    var stage: Stage
    var active: Option<Runbook>

    constructor (gate: Consumption)
      ensures this.gate == gate && state == Inactive && stage == Idle && active == None
    {
      this.gate := gate;
      state, stage, active := Inactive, Idle, None;
    }

    function Now(): Plant
      reads this`state, gate
    {
      Plant(state, gate.blocked, gate.jobs)
    }

    /** Refuses, and changes nothing, exactly when the table forbids the move. */
    method Transition(target: SupervisorState) returns (legal: bool)
      modifies this`state
      ensures legal <==> target == old(state) || (old(state), target) in MOVES
      ensures state == if legal then target else old(state)
    {
      AllowedIsMoves(state, target);
      legal := MayMove(state, target);
      if legal {
        state := target;
      }
    }

    /** Boots after pre-flight; `None` when the table forbids starting. */
    method Start(latched: Option<bool>) returns (r: Option<bool>)
      modifies this`state, gate`blocked
      ensures Now() == Happened(old(Now()), Boot(latched))
      ensures r.Some? <==> old(state) == Inactive || old(state) == Starting || old(state) == Failed
      ensures r.Some? ==> r.value == (latched != Some(true)) && state == (if r.value then Running else Failed)
      ensures r.Some? ==> gate.blocked == (old(gate.blocked) || !r.value)
    {
      var ok := Transition(Starting);
      if !ok {
        return None;
      }
      if latched == Some(true) {
        gate.Block();
        var _ := Transition(Failed);
        return Some(false);
      }
      var _ := Transition(Running);
      r := Some(true);
    }

    method Stop() returns (legal: bool)
      modifies this`state
      ensures Now() == Happened(old(Now()), Halt)
      ensures legal <==> old(state) == Running || old(state) == Degraded || old(state) == Stopping
      ensures state == if legal then Inactive else old(state)
    {
      legal := Transition(Stopping);
      if legal {
        var _ := Transition(Inactive);
      }
    }

    method EscalateLiquidationRaceFailure()
      modifies this`state, gate`blocked
      ensures Now() == Happened(old(Now()), Race) && gate.blocked
      ensures state == if old(state) == Running then Degraded else old(state)
    {
      gate.Block();
      if state == Running {
        var _ := Transition(Degraded);
      }
    }

    /** The shared ending of every failure: block, degrade, record. */
    method Fail(b: Runbook) returns (legal: bool)
      modifies this`state, gate
      ensures gate.blocked && legal == (Runnable(old(state)))
      ensures state == if legal then Degraded else old(state)
      ensures gate.jobs == if legal then old(gate.jobs)[b := false] else old(gate.jobs)
    {
      gate.Block();
      legal := Transition(Degraded);
      if legal {
        gate.RecordJob(b, false);
      }
    }

    /** The part that may raise: hooks, worker, validator, and one restore and re-run. */
    method Attempt(b: Runbook, s: Script)
      returns (threw: bool, accepted: bool, restoreUsed: bool, payload: Option<nat>, runs: nat)
      requires s.configured
      modifies this`stage
      ensures threw == Throws(b, s) && (!threw && accepted) == Succeeds(b, s)
      ensures restoreUsed == (FirstRejected(s) && RestoresOnFailure(b))
      ensures runs <= 2 && (runs == 0 <==> s.preHooksFail) && (runs == 2 <==> RestoredOnce(b, s))
      ensures !threw && accepted <==> Delivered(s, runs)
      ensures !threw && accepted ==>
        payload.Some? && s.validator(payload.value) == Accepted
        && payload.value == (if runs == 2 then s.second.id else s.first.id)
    {
      payload, runs := None, 0;
      threw, accepted, restoreUsed := s.preHooksFail, false, false;
      if threw {
        return;
      }
      stage := Executing;
      runs := 1;
      threw := s.first == Raised || s.postHooksFail;
      if threw {
        return;
      }
      stage := Validating;
      payload := Some(s.first.id);
      var verdict := s.validator(s.first.id);
      threw, accepted := verdict == Crashed, verdict == Accepted;
      if verdict == Rejected && RestoresOnFailure(b) {
        restoreUsed := true;
        threw := s.restore == RestoreRaised;
        if s.restore == Restored {
          runs := 2;
          threw := s.second == Raised;
          if !threw {
            payload := Some(s.second.id);
            var second := s.validator(s.second.id);
            threw, accepted := second == Crashed, second == Accepted;
          }
        }
      }
    }

    /** Runs one runbook. `runs` counts worker invocations; `released` is the payload on which
        consumption was released. */
    method ExecuteRunbook(b: Runbook, s: Script) returns (r: Result, runs: nat, released: Option<nat>)
      modifies this, gate
      ensures Now() == Happened(old(Now()), Ran(b, s))
      ensures r == Escaped <==> (old(state) != Running && old(state) != Degraded) || Escapes(b, s)
      ensures r.Finished? ==> r.success == Succeeds(b, s) && gate.blocked == !r.success && (state == Running) == r.success
      ensures r.Finished? ==> r.stage == if r.success then Completed
                                         else if s.configured && Throws(b, s) then StageFailed else Alerted
      ensures runs == 0 <==> (old(state) != Running && old(state) != Degraded) || !s.configured || s.preHooksFail
      ensures runs == 2 <==> (old(state) == Running || old(state) == Degraded) && RestoredOnce(b, s)
      ensures r.Finished? && r.success <==> Delivered(s, runs)
      ensures runs <= 2
      ensures released.Some? <==> r.Finished? && r.success
      ensures released.Some? ==> s.validator(released.value) == Accepted && r.payload == released
      ensures released.Some? ==> released.value == if runs == 2 then s.second.id else s.first.id
    {
      hide FirstRejected, Throws, Healed, Passes;
      runs, released := 0, None;
      active, stage := Some(b), Scheduled;
      if !Runnable(state) || !s.configured {
        var legal := Fail(b);
        if !legal {
          return Escaped, 0, None;
        }
        stage := Alerted;
        return Finished(false, stage, None), 0, None;
      }
      var threw, accepted, restoreUsed, payload;
      threw, accepted, restoreUsed, payload, runs := Attempt(b, s);
      if threw {
        if RestoresOnFailure(b) && (if restoreUsed then s.again else s.restore) == RestoreRaised {
          active, stage := None, Idle;
          return Escaped, runs, None;
        }
        var _ := Fail(b);
        active, stage := None, StageFailed;
        return Finished(false, stage, None), runs, None;
      }
      if !accepted {
        var _ := Fail(b);
        active, stage := None, Alerted;
        return Finished(false, stage, payload), runs, None;
      }
      gate.Release();
      released := payload;
      if state == Degraded {
        var _ := Transition(Running);
      }
      gate.RecordJob(b, true);
      active, stage := None, Idle;
      r := Finished(true, Completed, payload);
    }
  }

  // ---------- one run ----------

  /** A runbook leaves consumption blocked iff it did not succeed, exactly when it does not
      escape or consumption was blocked before it. */
  lemma BlockedIffFailedExactly(p: Plant, b: Runbook, s: Script)
    requires Runnable(p.state)
    ensures (Happened(p, Ran(b, s)).blocked <==> !Succeeds(b, s)) <==> !Escapes(b, s) || p.blocked
  {
  }

  /** A run that fails and leaves consumption open: a pre-hook raises, and so does the handler's
      restore. */
  lemma EscapedRunStaysOpen(p: Plant) returns (s: Script)
    requires Runnable(p.state) && !p.blocked
    ensures Escapes(PreOpen, s) && !Succeeds(PreOpen, s) && !Happened(p, Ran(PreOpen, s)).blocked
  {
    s := Script(true, true, Raised, false, _ => Accepted, RestoreRaised, Raised, RestoreRaised);
  }

  // ---------- whole lifecycles ----------

  const Built := Plant(Inactive, false, map[])

  function After(events: seq<Event>): Plant {
    if |events| == 0 then Built else Happened(After(events[..|events| - 1]), events[|events| - 1])
  }

  /** The run was allowed and nothing escaped from it. */
  predicate Completes(p: Plant, e: Event) { e.Ran? && Runnable(p.state) && !Escapes(e.b, e.s) }

  predicate Opens(p: Plant, e: Event) { Completes(p, e) && Succeeds(e.b, e.s) }

  /** The event settles the latch: all but an escaped run, a good boot and a halt do. */
  predicate Settles(p: Plant, e: Event) {
    match e
    case Race => true
    case Ran(b, s) => !Runnable(p.state) || !Escapes(b, s)
    case Boot(latched) => MayMove(p.state, Starting) && latched == Some(true)
    case Halt => false
  }

  predicate BootsWell(p: Plant, e: Event) { e.Boot? && MayMove(p.state, Starting) && e.latched != Some(true) }

  /** Whether the last event that settled the latch left it open. */
  predicate LastSettledWell(events: seq<Event>) {
    |events| == 0
    || (var before, last := events[..|events| - 1], events[|events| - 1];
        if Settles(After(before), last) then Opens(After(before), last) else LastSettledWell(before))
  }

  /** Whether the last completed run of `b` succeeded, or there was none. */
  predicate LastRunPassed(events: seq<Event>, b: Runbook) {
    |events| == 0
    || (var before, last := events[..|events| - 1], events[|events| - 1];
        if Completes(After(before), last) && last.b == b then Succeeds(b, last.s) else LastRunPassed(before, b))
  }

  /** Whether the last good boot found consumption blocked, and no run has succeeded since. */
  predicate BootedBehindLatch(events: seq<Event>) {
    |events| > 0
    && (var before, last := events[..|events| - 1], events[|events| - 1];
        if BootsWell(After(before), last) then After(before).blocked
        else !Opens(After(before), last) && BootedBehindLatch(before))
  }

  /** Over any lifecycle of boots, halts, runs and liquidation races: consumption is blocked
      exactly when the last event that settled the latch closed it; a runnable plant is blocked
      exactly when it is degraded or was booted behind a closed latch; and the live gate is open
      exactly when the latch is and the last pre-open and tuner runs each passed or never
      happened. An unrelated success clears the latch but not a failed critical job. */
  lemma {:induction false} GateTellsTheTruth(events: seq<Event>)
    ensures var p := After(events);
      && p.state != Starting && p.state != Stopping
      && (p.blocked <==> !LastSettledWell(events))
      && (Runnable(p.state) ==> (p.blocked <==> p.state == Degraded || BootedBehindLatch(events)))
      && (forall b :: LastPassed(p.jobs, b) <==> LastRunPassed(events, b))
      && (GateOpen(p.blocked, p.jobs) <==>
            LastSettledWell(events) && LastRunPassed(events, PreOpen) && LastRunPassed(events, WeekendTuner))
  {
    if |events| > 0 {
      hide Escapes, Succeeds;
      GateTellsTheTruth(events[..|events| - 1]);
    }
  }

  /** A boot refused by pre-flight and then a good one: running, but not consuming. */
  lemma GoodBootKeepsTheLatch()
    ensures var p := After([Boot(Some(true)), Boot(Some(false))]); p.state == Running && p.blocked
  {
    var all := [Boot(Some(true)), Boot(Some(false))];
    assert all[..1] == [Boot(Some(true))] && [Boot(Some(true))][..0] == [];
  }

  /** A failed pre-open run keeps the gate shut through anything but another pre-open run, also
      through successful runs of other jobs, although each of them clears the latch. */
  lemma UnrelatedSuccessDoesNotOpen(events: seq<Event>, failed: Event, others: seq<Event>)
    requires Completes(After(events), failed) && failed.b == PreOpen && !Succeeds(PreOpen, failed.s)
    requires forall i :: 0 <= i < |others| ==> !(others[i].Ran? && others[i].b == PreOpen)
    ensures var p := After(events + [failed] + others); !GateOpen(p.blocked, p.jobs)
    ensures |others| > 0 && Opens(After(events + [failed] + others[..|others| - 1]), others[|others| - 1]) ==>
      !After(events + [failed] + others).blocked
  {
    hide Escapes, Succeeds, Happened;
    var all := events + [failed] + others;
    assert (events + [failed])[..|events|] == events;
    StaysFailed(events + [failed], others);
    GateTellsTheTruth(all);
    if |others| > 0 {
      assert all[..|all| - 1] == events + [failed] + others[..|others| - 1];
      assert all[|all| - 1] == others[|others| - 1];
    }
  }

  lemma {:induction false} StaysFailed(events: seq<Event>, others: seq<Event>)
    requires !LastRunPassed(events, PreOpen)
    requires forall i :: 0 <= i < |others| ==> !(others[i].Ran? && others[i].b == PreOpen)
    ensures !LastRunPassed(events + others, PreOpen)
  {
    if |others| == 0 {
      assert events + others == events;
    } else {
      StaysFailed(events, others[..|others| - 1]);
      assert (events + others)[..|events + others| - 1] == events + others[..|others| - 1];
    }
  }
}
