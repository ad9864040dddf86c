/**
  The unitized per-leg return series (src/control/leg_return.py) and the time-weighted
  return it stands for.
 */
module LegReturn {
  import opened Options

  const START_NAV: real := 100.0
  const CLAMPED_NAV: real := 0.000000001

  datatype NavState = NavState(units: real, nav: real, pnl: real, base: real)

  function Seed(pnl: real, base: real): NavState {
    NavState(if base > 0.0 then base / START_NAV else 0.0, START_NAV, pnl, base)
  }

  function NextNavState(prev: Option<NavState>, pnl: real, base: real): NavState {
    if prev == None || prev.value.units <= 0.0 || prev.value.nav <= 0.0 then Seed(pnl, base)
    else
      var p := prev.value;
      var raw := p.nav + (pnl - p.pnl) / p.units;
      var nav := if raw <= 0.0 then CLAMPED_NAV else raw;
      NavState(if base > 0.0 then base / nav else p.units, nav, pnl, base)
  }

  function CumulativeReturnPct(s: NavState): real { (s.nav / START_NAV - 1.0) * 100.0 }

  // ---------- runs ----------

  datatype Observation = Observation(pnl: real, base: real)

  /** The state after a nonempty series of observations, first one first. */
  function After(obs: seq<Observation>): NavState
    requires |obs| > 0
  {
    var n := |obs| - 1;
    NextNavState(if n == 0 then None else Some(After(obs[..n])), obs[n].pnl, obs[n].base)
  }

  predicate Consistent(s: NavState) {
    s.nav > 0.0 && s.units >= 0.0 && (s.base > 0.0 ==> s.units > 0.0 && s.units * s.nav == s.base)
  }

  lemma StepIsConsistent(prev: Option<NavState>, pnl: real, base: real)
    ensures Consistent(NextNavState(prev, pnl, base))
  {
    var s := NextNavState(prev, pnl, base);
    if base > 0.0 {
      assert s.units == base / s.nav;
      QuotientIsPositive(base, s.nav);
    }
  }

  lemma QuotientIsPositive(a: real, b: real)
    requires a > 0.0 && b > 0.0
    ensures a / b > 0.0 && (a / b) * b == a
  {
  }

  /** NAV is always positive, and whenever capital is allocated the units outstanding at the
      current NAV are exactly worth it. */
  lemma EveryStateIsConsistent(obs: seq<Observation>)
    requires |obs| > 0
    ensures Consistent(After(obs))
  {
    var n := |obs| - 1;
    StepIsConsistent(if n == 0 then None else Some(After(obs[..n])), obs[n].pnl, obs[n].base);
  }

  /** Moving capital moves units, never NAV: from any state with units, an observation with
      no new profit keeps NAV, and a profit moves NAV by the same amount whatever capital is
      allocated at the same time. */
  lemma ReallocationIsNeutral(prev: NavState, pnl: real, base: real, base': real)
    requires prev.units > 0.0 && prev.nav > 0.0
    ensures NextNavState(Some(prev), prev.pnl, base).nav == prev.nav
    ensures NextNavState(Some(prev), pnl, base).nav == NextNavState(Some(prev), pnl, base').nav
  {
    assert 0.0 / prev.units == 0.0;
  }

  /** The state after more observations. */
  function Onward(s: NavState, obs: seq<Observation>): NavState {
    if |obs| == 0 then s
    else
      var n := |obs| - 1;
      NextNavState(Some(Onward(s, obs[..n])), obs[n].pnl, obs[n].base)
  }

  /** While a leg has no capital and makes no new profit, for however many observations, its units
      and NAV stay as they are; so capital coming back finds the curve where it left it. */
  lemma {:induction false} UnfundedStretchKeepsNav(s: NavState, obs: seq<Observation>, base: real)
    requires s.units > 0.0 && s.nav > 0.0
    requires forall i :: 0 <= i < |obs| ==> obs[i].base <= 0.0 && obs[i].pnl == s.pnl
    ensures var t := Onward(s, obs);
      && t.units == s.units && t.nav == s.nav && t.pnl == s.pnl
      && NextNavState(Some(t), s.pnl, base).nav == s.nav
  {
    if |obs| > 0 {
      UnfundedStretchKeepsNav(s, obs[..|obs| - 1], 0.0);
    }
    assert 0.0 / s.units == 0.0;
  }

  /** A first observation, or one after a state without units, starts the curve at 100. */
  lemma SeedsAtHundred(prev: Option<NavState>, pnl: real, base: real)
    requires prev.Some? ==> prev.value.units <= 0.0 || prev.value.nav <= 0.0
    ensures var s := NextNavState(prev, pnl, base);
      && s.nav == 100.0 && s.pnl == pnl && s.base == base && CumulativeReturnPct(s) == 0.0
      && (base > 0.0 ==> s.units * 100.0 == base) && (base <= 0.0 ==> s.units == 0.0)
  {
  }

  /** A clamped leg reports a loss of all but a hundred-billionth. */
  lemma ClampReportsTotalLoss(s: NavState)
    requires s.nav == CLAMPED_NAV
    ensures -100.0 < CumulativeReturnPct(s) < -99.99999999
  {
  }

  // ---------- the time-weighted return ----------

  /** Profit since the previous observation per unit of the capital it was earned on. */
  function PeriodReturn(obs: seq<Observation>, i: nat): real
    requires 0 < i < |obs| && obs[i - 1].base > 0.0
  {
    (obs[i].pnl - obs[i - 1].pnl) / obs[i - 1].base
  }

  predicate Funded(obs: seq<Observation>) { forall i :: 0 <= i < |obs| ==> obs[i].base > 0.0 }

  /** No observation loses the whole capital base of the one before. */
  predicate Solvent(obs: seq<Observation>) {
    forall i :: 0 < i < |obs| ==> obs[i - 1].base + (obs[i].pnl - obs[i - 1].pnl) > 0.0
  }

  function Growth(obs: seq<Observation>): real
    requires Funded(obs)
  {
    var n := |obs| - 1;
    if n <= 0 then 1.0 else Growth(obs[..n]) * (1.0 + PeriodReturn(obs, n))
  }

  /** From a funded state the clamp fires exactly when the loss eats the capital base;
      otherwise NAV grows by the period return. */
  lemma StepGrows(prev: NavState, pnl: real, base: real)
    requires Consistent(prev) && prev.base > 0.0
    ensures var s := NextNavState(Some(prev), pnl, base); var d := pnl - prev.pnl;
      && (prev.base + d > 0.0 ==> s.nav == prev.nav * (1.0 + d / prev.base))
      && (prev.base + d <= 0.0 ==> s.nav == 0.000000001)
  {
    var d := pnl - prev.pnl;
    var perUnit, perDollar := d / prev.units, d / prev.base;
    assert perUnit * prev.units == d && perDollar * prev.base == d;
    PerUnit(perUnit, perDollar, prev.units, prev.nav, prev.base);
    var raw := prev.nav + perUnit;
    assert raw * prev.units == prev.base + d by {
      assert raw * prev.units == prev.nav * prev.units + perUnit * prev.units;
    }
    SameSign(raw, prev.units);
  }

  lemma PerUnit(perUnit: real, perDollar: real, units: real, nav: real, base: real)
    requires units > 0.0 && units * nav == base && perUnit * units == perDollar * base
    ensures nav + perUnit == nav * (1.0 + perDollar)
  {
    assert perDollar * base == (perDollar * nav) * units by {
      assert perDollar * (units * nav) == (perDollar * nav) * units;
    }
    assert (perUnit - perDollar * nav) * units == 0.0;
    SameSign(perUnit - perDollar * nav, units);
  }

  lemma SameSign(x: real, scale: real)
    requires scale > 0.0
    ensures x > 0.0 ==> x * scale > 0.0
    ensures x <= 0.0 ==> x * scale <= 0.0
    ensures x < 0.0 ==> x * scale < 0.0
  {
  }

  predicate TimeWeighted(obs: seq<Observation>)
    requires |obs| > 0 && Funded(obs)
  {
    After(obs).nav == 100.0 * Growth(obs)
  }

  /** One more observation keeps NAV on the compounded return exactly when it is solvent. */
  lemma OneMore(obs: seq<Observation>)
    requires |obs| > 1 && Funded(obs) && TimeWeighted(obs[..|obs| - 1])
    ensures var n := |obs| - 1;
      TimeWeighted(obs) <==> obs[n - 1].base + (obs[n].pnl - obs[n - 1].pnl) > 0.0
  {
    hide NextNavState;
    var n := |obs| - 1;
    var before := obs[..n];
    EveryStateIsConsistent(before);
    LastSeen(before);
    StepGrows(After(before), obs[n].pnl, obs[n].base);
    assert After(obs) == NextNavState(Some(After(before)), obs[n].pnl, obs[n].base);
    var r := PeriodReturn(obs, n);
    var g := Growth(before);
    assert START_NAV * (g * (1.0 + r)) == (START_NAV * g) * (1.0 + r);
    var nav := After(before).nav;
    assert r * before[n - 1].base == obs[n].pnl - obs[n - 1].pnl;
    LostEverything(nav, r, before[n - 1].base);
  }

  lemma LastSeen(obs: seq<Observation>)
    requires |obs| > 0
    ensures var last := obs[|obs| - 1]; After(obs).base == last.base && After(obs).pnl == last.pnl
  {
  }

  lemma LostEverything(nav: real, r: real, base: real)
    requires nav > 0.0 && base > 0.0
    ensures base + r * base <= 0.0 ==> nav * (1.0 + r) <= 0.0
  {
    assert base + r * base == (1.0 + r) * base;
    SameSign(1.0 + r, base);
    SameSign(1.0 + r, nav);
  }

  /** On every funded, solvent series the indexed NAV is the compounded period returns, so
      the reported percentage is the time-weighted return. */
  lemma {:induction false} NavIsTimeWeightedReturn(obs: seq<Observation>)
    requires |obs| > 0 && Funded(obs) && Solvent(obs)
    ensures TimeWeighted(obs)
    ensures CumulativeReturnPct(After(obs)) == (Growth(obs) - 1.0) * 100.0
  {
    hide NextNavState;
    if |obs| == 1 {
      assert After(obs) == NextNavState(None, obs[0].pnl, obs[0].base);
      SeedNav(obs[0].pnl, obs[0].base);
    } else {
      NavIsTimeWeightedReturn(obs[..|obs| - 1]);
      OneMore(obs);
    }
    Percent(After(obs).nav, Growth(obs));
  }

  lemma SeedNav(pnl: real, base: real)
    ensures NextNavState(None, pnl, base).nav == START_NAV
  {
  }

  lemma Percent(nav: real, growth: real)
    requires nav == START_NAV * growth
    ensures (nav / START_NAV - 1.0) * 100.0 == (growth - 1.0) * 100.0
  {
  }

  /** Solvency is exactly what it takes: every prefix of a funded series is on its compounded
      return if and only if no observation loses its whole capital base. */
  lemma TimeWeightedExactlyWhenSolvent(obs: seq<Observation>)
    requires |obs| > 0 && Funded(obs)
    ensures (forall k :: 1 <= k <= |obs| ==> TimeWeighted(obs[..k])) <==> Solvent(obs)
  {
    if Solvent(obs) {
      forall k | 1 <= k <= |obs| ensures TimeWeighted(obs[..k]) {
        NavIsTimeWeightedReturn(obs[..k]);
      }
    } else {
      var i :| 0 < i < |obs| && !(obs[i - 1].base + (obs[i].pnl - obs[i - 1].pnl) > 0.0);
      var through := obs[..i + 1];
      assert through[..i] == obs[..i];
      if TimeWeighted(obs[..i]) {
        OneMore(through);
        assert !TimeWeighted(obs[..i + 1]);
      }
    }
  }
}
