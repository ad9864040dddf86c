/**
  The operational degradation manager (src/engine/degradation_manager.py): hysteresis
  recovery from service-level verdicts, a latched flatten request, and restarts.
 */
module Degradation {
  import opened Options

  datatype Mode = Normal | Soft | Recon | Hard

  datatype Severity = Healthy | SoftBreach | HardBreach

  const SOFT_RECOVERY_STREAK: nat := 3
  const HARD_RECOVERY_STREAK: nat := 6

  /** `since` is when the current mode was entered. */
  datatype State = State(mode: Mode, streak: nat, latched: bool, since: Option<int>)

  /** The durable row: everything but the streak, which a restart forgets. */
  datatype Saved = Saved(mode: Mode, latched: bool, since: Option<int>)

  const Fresh := State(Normal, 0, false, None)

  function Persisted(s: State): Saved { Saved(s.mode, s.latched, s.since) }

  function AfterSoft(s: State, now: int): State {
    if s.mode == Hard then s
    else if s.mode == Soft then s.(latched := false)
    else State(Soft, 0, false, Some(now))
  }

  function AfterRecon(s: State, now: int): State {
    if s.mode == Hard then s else State(Recon, 0, false, Some(now))
  }

  function AfterHard(s: State, now: int): State {
    State(Hard, 0, true, if s.mode == Hard then s.since else Some(now))
  }

  function Evaluated(s: State, v: Severity, now: int): State {
    if v == HardBreach then AfterHard(s, now)
    else
      var streak := if v == Healthy then s.streak + 1 else s.streak;
      match s.mode
      case Hard => if streak >= HARD_RECOVERY_STREAK then State(Soft, 0, false, Some(now)) else s.(streak := streak)
      case Soft => if streak >= SOFT_RECOVERY_STREAK then Fresh else s.(streak := streak)
      case Recon => if v == SoftBreach then AfterSoft(s, now) else s
      case Normal => if v == SoftBreach then AfterSoft(s, now) else s.(streak := 0)
  }

  function Rehydrated(row: Option<Saved>): State {
    if row == None then Fresh else State(row.value.mode, 0, row.value.latched, row.value.since)
  }

  datatype Notice = Entered | Recovered(mode: Mode)

  class Vault {
    var row: Option<Saved>

    constructor ()
      ensures row == None
    {
      row := None;
    }
  }

  class DegradationManager {
    const vault: Vault
    var mode: Mode
    var streak: nat
    var latched: bool
    var since: Option<int>
    var hydrated: bool
    var notices: seq<Notice>

    /** A manager that has taken over from the vault, or written it, agrees with it. */
    ghost predicate Valid()
      reads this, vault
    {
      && (hydrated ==> vault.row == Some(Persisted(Current())) || (vault.row == None && Current() == Fresh))
      && (!hydrated ==> Current() == Fresh)
    }

    function Current(): State
      reads this
    {
      State(mode, streak, latched, since)
    }

    constructor (vault: Vault)
      ensures Valid() && this.vault == vault && Current() == Fresh && !hydrated && notices == []
    {
      this.vault := vault;
      mode, streak, latched, since, hydrated, notices := Normal, 0, false, None, false, [];
    }

    /** Boot: the mode and the flatten latch survive, the recovery streak does not. */
    method HydrateFromVault()
      requires Valid()
      modifies this
      ensures Valid() && hydrated && notices == old(notices)
      ensures Current() == if old(hydrated) then old(Current()) else Rehydrated(vault.row)
    {
      if hydrated {
        return;
      }
      if vault.row.Some? {
        mode, latched, since := vault.row.value.mode, vault.row.value.latched, vault.row.value.since;
        streak := 0;
      }
      hydrated := true;
    }

    method PersistState()
      modifies this`hydrated, vault
      ensures Valid() && hydrated && vault.row == Some(Persisted(Current()))
    {
      vault.row := Some(Saved(mode, latched, since));
      hydrated := true;
    }

    method ApplySoftDegrade(now: int)
      requires Valid()
      modifies this, vault
      ensures Valid() && Current() == AfterSoft(old(Current()), now) && notices == old(notices)
    {
      if mode == Hard {
        return;
      }
      var entering := mode != Soft;
      mode, latched := Soft, false;
      if entering {
        since, streak := Some(now), 0;
      }
      PersistState();
    }

    method ApplyReconDegradedManage(now: int)
      requires Valid()
      modifies this, vault
      ensures Valid() && Current() == AfterRecon(old(Current()), now) && notices == old(notices)
    {
      if mode == Hard {
        return;
      }
      mode, since, streak, latched := Recon, Some(now), 0, false;
      PersistState();
    }

    /** Only the transition into the mode is stamped and announced. */
    method ApplyHardCriticalDegrade(now: int)
      requires Valid()
      modifies this, vault
      ensures Valid() && Current() == AfterHard(old(Current()), now)
      ensures notices == if old(mode) == Hard then old(notices) else old(notices) + [Entered]
    {
      var entering := mode != Hard;
      mode := Hard;
      if entering {
        since := Some(now);
      }
      streak, latched := 0, true;
      PersistState();
      if entering {
        notices := notices + [Entered];
      }
    }

    method DowngradeHardToSoft(now: int)
      requires Valid()
      modifies this, vault
      ensures Valid() && Current() == State(Soft, 0, false, Some(now))
      ensures notices == old(notices) + [Recovered(Soft)]
    {
      mode, since, streak, latched := Soft, Some(now), 0, false;
      PersistState();
      notices := notices + [Recovered(Soft)];
    }

    method ResetToNormal()
      requires Valid()
      modifies this, vault
      ensures Valid() && Current() == Fresh
      ensures notices == if old(mode) == Normal then old(notices) else old(notices) + [Recovered(Normal)]
    {
      var wasDegraded := mode != Normal;
      mode, since, streak, latched := Normal, None, 0, false;
      PersistState();
      if wasDegraded {
        notices := notices + [Recovered(Normal)];
      }
    }

    /** Every entry into Hard and every recovery step is announced exactly once. */
    method EvaluateFromSlo(v: Severity, now: int)
      requires Valid()
      modifies this, vault
      ensures Valid() && Current() == Evaluated(old(Current()), v, now)
      ensures notices == old(notices) +
        if mode == Hard && old(mode) != Hard then [Entered]
        else if old(mode) == Hard && mode == Soft then [Recovered(Soft)]
        else if old(mode) == Soft && mode == Normal then [Recovered(Normal)]
        else []
    {
      if v == HardBreach {
        ApplyHardCriticalDegrade(now);
        return;
      }
      if mode == Hard {
        if v == Healthy {
          streak := streak + 1;
        }
        if streak >= HARD_RECOVERY_STREAK {
          DowngradeHardToSoft(now);
          return;
        }
        PersistState();
        return;
      }
      if mode == Soft {
        if v == Healthy {
          streak := streak + 1;
        }
        if streak >= SOFT_RECOVERY_STREAK {
          ResetToNormal();
          return;
        }
        PersistState();
        return;
      }
      if v == SoftBreach {
        ApplySoftDegrade(now);
        return;
      }
      if mode == Recon {
        return;
      }
      streak := 0;
      PersistState();
    }

    /** Hands out the latched flatten request once. */
    method ConsumeFlattenRequest() returns (requested: bool)
      requires Valid()
      modifies this, vault
      ensures Valid() && requested == old(latched)
      ensures Current() == old(Current()).(latched := false) && notices == old(notices)
    {
      if !latched {
        return false;
      }
      latched := false;
      PersistState();
      requested := true;
    }
  }

  // ---------- recovery is a countdown ----------

  /** Healthy verdicts still needed, or the reconciliation mode the verdicts do not leave. */
  datatype Countdown = Left(oks: nat) | Reconciling

  predicate Sound(s: State) {
    && (s.mode == Hard ==> s.streak < HARD_RECOVERY_STREAK)
    && (s.mode == Soft ==> s.streak < SOFT_RECOVERY_STREAK)
    && (s.latched ==> s.mode == Hard)
  }

  function Remaining(s: State): Countdown
    requires Sound(s)
  {
    match s.mode
    case Hard => Left(HARD_RECOVERY_STREAK + SOFT_RECOVERY_STREAK - s.streak)
    case Soft => Left(SOFT_RECOVERY_STREAK - s.streak)
    case Recon => Reconciling
    case Normal => Left(0)
  }

  /** The mode a countdown stands for. */
  function ModeOf(c: Countdown): Mode {
    match c
    case Reconciling => Recon
    case Left(r) => if r == 0 then Normal else if r <= SOFT_RECOVERY_STREAK then Soft else Hard
  }

  function Tick(c: Countdown, v: Severity): Countdown {
    match v
    case HardBreach => Left(9)
    case Healthy => if c.Left? && c.oks > 0 then Left(c.oks - 1) else c
    case SoftBreach => if c == Left(0) || c == Reconciling then Left(3) else c
  }

  /** One evaluation is one tick, and the mode is read off the countdown. */
  lemma EvaluationTicks(s: State, v: Severity, now: int)
    requires Sound(s)
    ensures Sound(Evaluated(s, v, now))
    ensures Remaining(Evaluated(s, v, now)) == Tick(Remaining(s), v)
    ensures s.mode == ModeOf(Remaining(s))
  {
  }

  /** A verdict and when it arrived. */
  datatype Reading = Reading(severity: Severity, at: int)

  function EvaluatedAll(s: State, readings: seq<Reading>): State {
    if |readings| == 0 then s
    else
      var last := readings[|readings| - 1];
      Evaluated(EvaluatedAll(s, readings[..|readings| - 1]), last.severity, last.at)
  }

  function Ticked(c: Countdown, readings: seq<Reading>): Countdown {
    if |readings| == 0 then c
    else Tick(Ticked(c, readings[..|readings| - 1]), readings[|readings| - 1].severity)
  }

  /** Over any verdicts the manager's mode is the countdown's mode. */
  lemma {:induction false} ManagerIsCountdown(s: State, readings: seq<Reading>)
    requires Sound(s)
    ensures Sound(EvaluatedAll(s, readings))
    ensures Remaining(EvaluatedAll(s, readings)) == Ticked(Remaining(s), readings)
    ensures EvaluatedAll(s, readings).mode == ModeOf(Ticked(Remaining(s), readings))
  {
    if |readings| > 0 {
      ManagerIsCountdown(s, readings[..|readings| - 1]);
      var last := readings[|readings| - 1];
      EvaluationTicks(EvaluatedAll(s, readings[..|readings| - 1]), last.severity, last.at);
    }
    EvaluationTicks(EvaluatedAll(s, readings), Healthy, 0);
  }

  function Healthies(readings: seq<Reading>): nat {
    if |readings| == 0 then 0
    else Healthies(readings[..|readings| - 1]) + if readings[|readings| - 1].severity == Healthy then 1 else 0
  }

  predicate NoHardBreach(readings: seq<Reading>) {
    forall i :: 0 <= i < |readings| ==> readings[i].severity != HardBreach
  }

  lemma {:induction false} CountsDownFromNine(readings: seq<Reading>)
    requires NoHardBreach(readings)
    ensures var c := Ticked(Left(9), readings); var n := Healthies(readings);
      c.Left? && (if n < 9 then c.oks == 9 - n else c.oks <= 3)
  {
    if |readings| > 0 {
      CountsDownFromNine(readings[..|readings| - 1]);
    }
  }

  /** After a hard breach and before the next one, the engine force-flattens until the sixth
      healthy verdict and blocks entries until the ninth, whatever soft verdicts come between;
      it is back to normal only after nine. */
  lemma NineHealthyVerdictsToNormal(s: State, breach: Reading, readings: seq<Reading>)
    requires Sound(s) && breach.severity == HardBreach && NoHardBreach(readings)
    ensures var mode := EvaluatedAll(Evaluated(s, HardBreach, breach.at), readings).mode; var n := Healthies(readings);
      && (n < HARD_RECOVERY_STREAK <==> mode == Hard)
      && (n < 9 ==> (mode == Soft <==> n >= HARD_RECOVERY_STREAK))
      && (mode == Normal ==> n >= 9)
  {
    EvaluationTicks(s, HardBreach, breach.at);
    ManagerIsCountdown(Evaluated(s, HardBreach, breach.at), readings);
    CountsDownFromNine(readings);
  }

  // ---------- every operation, restarts included ----------

  datatype Op = Verdict(v: Severity) | DegradeSoft | DegradeRecon | DegradeHard | Reset | Consume | Restart

  function Operated(s: State, op: Op, now: int): State {
    match op
    case Verdict(v) => Evaluated(s, v, now)
    case DegradeSoft => AfterSoft(s, now)
    case DegradeRecon => AfterRecon(s, now)
    case DegradeHard => AfterHard(s, now)
    case Reset => Fresh
    case Consume => s.(latched := false)
    case Restart => Rehydrated(Some(Persisted(s)))
  }

  /** Every call moves the manager as the history says; a restart is `Reboot`. */
  method Perform(m: DegradationManager, op: Op, now: int)
    requires m.Valid() && op != Restart
    modifies m, m.vault
    ensures m.Valid() && m.Current() == Operated(old(m.Current()), op, now)
  {
    match op {
      case Verdict(v) => m.EvaluateFromSlo(v, now);
      case DegradeSoft => m.ApplySoftDegrade(now);
      case DegradeRecon => m.ApplyReconDegradedManage(now);
      case DegradeHard => m.ApplyHardCriticalDegrade(now);
      case Reset => m.ResetToNormal();
      case Consume => var _ := m.ConsumeFlattenRequest();
    }
  }

  /** A new process on the same vault resumes where the restarted state says. */
  method Reboot(m: DegradationManager, now: int) returns (r: DegradationManager)
    requires m.Valid() && m.hydrated
    ensures fresh(r) && r.vault == m.vault && r.Valid() && r.hydrated
    ensures r.Current() == Operated(m.Current(), Restart, now)
  {
    r := new DegradationManager(m.vault);
    r.HydrateFromVault();
  }

  datatype Event = Event(op: Op, at: int)

  function History(events: seq<Event>): State {
    if |events| == 0 then Fresh
    else Operated(History(events[..|events| - 1]), events[|events| - 1].op, events[|events| - 1].at)
  }

  /** Times a flatten request was handed out, and times Hard was applied. */
  function Consumed(events: seq<Event>): nat {
    if |events| == 0 then 0
    else
      var s := History(events[..|events| - 1]);
      Consumed(events[..|events| - 1]) + if events[|events| - 1].op == Consume && s.latched then 1 else 0
  }

  function HardApplied(events: seq<Event>): nat {
    if |events| == 0 then 0
    else
      var op := events[|events| - 1].op;
      HardApplied(events[..|events| - 1]) + if AppliesHard(op) then 1 else 0
  }

  // ---------- the countdown over every history ----------

  predicate AppliesHard(op: Op) { op == DegradeHard || op == Verdict(HardBreach) }

  /** What each operation does to the countdown; a restart goes back to the top of the mode. */
  function Counted(c: Countdown, op: Op): Countdown {
    match op
    case Verdict(v) => Tick(c, v)
    case DegradeSoft => if c == Left(0) || c == Reconciling then Left(3) else c
    case DegradeRecon => if ModeOf(c) == Hard then c else Reconciling
    case DegradeHard => Left(9)
    case Reset => Left(0)
    case Consume => c
    case Restart => match ModeOf(c) case Hard => Left(9) case Soft => Left(3) case _ => c
  }

  function Countdowns(events: seq<Event>): Countdown {
    if |events| == 0 then Left(0) else Counted(Countdowns(events[..|events| - 1]), events[|events| - 1].op)
  }

  lemma OperationCounts(s: State, op: Op, now: int)
    requires Sound(s)
    ensures Sound(Operated(s, op, now))
    ensures Remaining(Operated(s, op, now)) == Counted(Remaining(s), op)
  {
  }

  /** In every history, restarts and manual operations included, the manager's mode is the mode
      of a countdown that knows nothing of streaks, latches or the vault. */
  lemma {:induction false} HistoryIsCountdown(events: seq<Event>)
    ensures Sound(History(events)) && Remaining(History(events)) == Countdowns(events)
    ensures History(events).mode == ModeOf(Countdowns(events))
  {
    if |events| > 0 {
      var last := events[|events| - 1];
      HistoryIsCountdown(events[..|events| - 1]);
      OperationCounts(History(events[..|events| - 1]), last.op, last.at);
    }
    EvaluationTicks(History(events), Healthy, 0);
  }

  /** Healthy verdicts among the operations. */
  function HealthyOps(events: seq<Event>): nat {
    if |events| == 0 then 0
    else HealthyOps(events[..|events| - 1]) + if events[|events| - 1].op == Verdict(Healthy) then 1 else 0
  }

  /** The countdown from nine is never ahead of the healthy verdicts counted. */
  predicate Earned(c: Countdown, n: nat) {
    match ModeOf(c)
    case Hard => c.oks <= 9 && n >= 9 - c.oks
    case Soft => n >= 9 - c.oks
    case Recon => n >= 6
    case Normal => n >= 9
  }

  /** The operation puts the countdown back to nine: Hard is applied, or a restart finds it. */
  predicate ToTheTop(events: seq<Event>, op: Op) {
    AppliesHard(op) || (op == Restart && History(events).mode == Hard)
  }

  lemma {:induction false} RecoveryIsEarned(events: seq<Event>, hard: Event, more: seq<Event>)
    requires ToTheTop(events, hard.op) && forall i :: 0 <= i < |more| ==> more[i].op != Reset
    ensures Earned(Countdowns(events + [hard] + more), HealthyOps(more))
  {
    var all := events + [hard] + more;
    if |more| == 0 {
      assert all == events + [hard] && all[..|all| - 1] == events && all[|all| - 1] == hard;
      HistoryIsCountdown(events);
    } else {
      RecoveryIsEarned(events, hard, more[..|more| - 1]);
      assert all[..|all| - 1] == events + [hard] + more[..|more| - 1];
      assert all[|all| - 1] == more[|more| - 1];
    }
  }

  /** In every history, counted from any application of Hard or any restart that finds it, and
      until a manual reset: leaving Hard takes six healthy verdicts and normal operation nine,
      whatever restarts, breaches, degrades and consumed flattens come between. */
  lemma NineHealthyVerdictsInEveryHistory(events: seq<Event>, hard: Event, more: seq<Event>)
    requires ToTheTop(events, hard.op) && forall i :: 0 <= i < |more| ==> more[i].op != Reset
    ensures var mode, n := History(events + [hard] + more).mode, HealthyOps(more);
      && (mode != Hard ==> n >= HARD_RECOVERY_STREAK)
      && (mode == Normal ==> n >= HARD_RECOVERY_STREAK + SOFT_RECOVERY_STREAK)
  {
    RecoveryIsEarned(events, hard, more);
    HistoryIsCountdown(events + [hard] + more);
  }

  /** In every history a latched flatten means Hard, and no flatten is handed out twice for
      one application of Hard, restarts included. */
  lemma {:induction false} FlattensArePaidFor(events: seq<Event>)
    ensures Sound(History(events))
    ensures Consumed(events) + (if History(events).latched then 1 else 0) <= HardApplied(events)
  {
    if |events| > 0 {
      var before := events[..|events| - 1];
      FlattensArePaidFor(before);
      OperationCounts(History(before), events[|events| - 1].op, events[|events| - 1].at);
    }
  }

  /** Hard was applied, and since then no flatten was consumed and the mode never left Hard. */
  predicate RequestStands(events: seq<Event>) {
    |events| > 0
    && (var last := events[|events| - 1];
        AppliesHard(last.op)
        || (last.op != Consume && History(events).mode == Hard && RequestStands(events[..|events| - 1])))
  }

  /** In every history a flatten is requested exactly when such a request stands, restarts
      included. */
  lemma {:induction false} LatchedExactly(events: seq<Event>)
    ensures History(events).latched <==> RequestStands(events)
  {
    if |events| > 0 {
      var last, before := events[|events| - 1], events[..|events| - 1];
      LatchedExactly(before);
      FlattensArePaidFor(before);
    }
  }

  /** So a consume hands out one flatten if a request stands and none if not, and two in a row
      never both do. */
  lemma ConsumeHandsOutExactly(events: seq<Event>, at: int)
    ensures Consumed(events + [Event(Consume, at)]) == Consumed(events) + if RequestStands(events) then 1 else 0
    ensures !RequestStands(events + [Event(Consume, at)])
  {
    LatchedExactly(events);
    assert (events + [Event(Consume, at)])[..|events|] == events;
  }

  /** When the current mode was entered; a reconciliation degrade stamps again even in its mode. */
  function EntryTime(events: seq<Event>): Option<int> {
    if |events| == 0 || History(events).mode == Normal then None
    else
      var last, before, mode := events[|events| - 1], events[..|events| - 1], History(events).mode;
      if mode != History(before).mode || (mode == Recon && last.op == DegradeRecon) then Some(last.at) else EntryTime(before)
  }

  lemma OperationStamps(s: State, op: Op, now: int)
    requires Sound(s) && (s.mode == Normal ==> s.since == None)
    ensures var r := Operated(s, op, now);
      r.since == if r.mode == Normal then None
                 else if r.mode != s.mode || (r.mode == Recon && op == DegradeRecon) then Some(now) else s.since
  {
  }

  lemma {:induction false} SinceIsEntryTime(events: seq<Event>)
    ensures History(events).since == EntryTime(events)
  {
    if |events| > 0 {
      hide Operated;
      var last, before := events[|events| - 1], events[..|events| - 1];
      SinceIsEntryTime(before);
      FlattensArePaidFor(before);
      OperationStamps(History(before), last.op, last.at);
    }
  }

  /** Healthy verdicts are counted only while recovering from Hard or Soft, and only those since
      the mode was entered: outside these modes the streak is zero. */
  lemma {:induction false} StreakOnlyWhileRecovering(events: seq<Event>)
    ensures var s := History(events); s.mode == Normal || s.mode == Recon ==> s.streak == 0
  {
    if |events| > 0 {
      StreakOnlyWhileRecovering(events[..|events| - 1]);
    }
  }

  /** A restart never releases: mode, latch and entry time survive and the countdown can only
      go back up to the top of the mode. */
  lemma RestartOnlyRaises(events: seq<Event>, now: int)
    ensures var s := History(events); var r := Operated(s, Restart, now);
      && Sound(s) && Sound(r) && r == State(s.mode, 0, s.latched, s.since)
      && (Remaining(s).Left? ==> Remaining(r).Left? && Remaining(r).oks >= Remaining(s).oks)
      && (Remaining(s).Left? ==> Remaining(r).oks == (match s.mode case Hard => 9 case Soft => 3 case _ => 0))
  {
    FlattensArePaidFor(events);
  }

  /** While the mode stays Hard its entry time is that of the first application. */
  lemma {:induction false} HardKeepsItsEntryTime(events: seq<Event>, more: seq<Event>)
    requires History(events).mode == Hard
    requires forall k :: 0 <= k <= |more| ==> History(events + more[..k]).mode == Hard
    ensures History(events + more).since == History(events).since
  {
    if |more| == 0 {
      assert events + more == events;
    } else {
      var less := more[..|more| - 1];
      forall k | 0 <= k <= |less| ensures History(events + less[..k]).mode == Hard {
        assert less[..k] == more[..k];
      }
      HardKeepsItsEntryTime(events, less);
      assert (events + more)[..|events + more| - 1] == events + less;
      assert more[..|more|] == more;
    }
  }
}
