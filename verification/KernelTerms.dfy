/**
  The kernel in the market's own terms: when it trades, how much, at what price, what it
  pays and what it reports, said in prices, scores, shares and cash.
 */
module KernelTerms {
  import opened Reals
  import opened Metrics
  import opened Kernel
  import opened KernelProofs
  import opened KernelAttribution

  // ---------- margin ----------

  /** A short is covered at the close exactly when its marked equity is below the maintenance
      requirement, at the close plus penal slippage; nothing else is touched there. */
  lemma LiquidationExactly(u: Setup, k: nat)
    requires u.start + k + 1 <= Length(u)
    ensures var i, held, r := u.start + k, BeforeClose(u, k, After(u, k)), After(u, k + 1);
      var mark, x := u.market.closes[i], u.exec;
      && (held.qty < 0.0 ==>
            (r.qty == 0.0 <==> held.cash + held.qty * mark < -held.qty * mark * x.marginMaint))
      && (r.qty != held.qty ==>
            held.qty < 0.0 && r.qty == 0.0 && r.cash == held.cash + held.qty * (mark + mark * x.slippage * x.liquidationMultiplier))
      && (r.qty == held.qty ==> r.cash == held.cash)
  {
    hide BeforeClose, Decide;
    var held := BeforeClose(u, k, After(u, k));
    CloseCarriesOver(u, k);
    if held.qty < 0.0 {
      Covering(held, u.market.closes[u.start + k], u.exec.slippage, u.exec.liquidationMultiplier);
    }
  }

  lemma Covering(b: Book, raw: real, slippage: real, multiplier: real)
    requires b.qty <= 0.0
    ensures CoverShort(b, raw, slippage, multiplier).cash == b.cash + b.qty * (raw + raw * slippage * multiplier)
  {
    var price := raw + raw * slippage * multiplier;
    assert price * -b.qty == -(b.qty * price);
  }

  // ---------- holding period and time stop ----------

  /** For how many closes in a row, up to bar `k`, a position has been open. */
  function HeldFor(u: Setup, k: nat): nat
    requires u.start + k <= Length(u)
  {
    if k == 0 || After(u, k).qty == 0.0 then 0 else HeldFor(u, k - 1) + 1
  }

  lemma BarCountsHolding(u: Setup, k: nat)
    requires u.start + k + 1 <= Length(u)
    ensures var b, r := After(u, k), After(u, k + 1);
      r.bars == if r.qty == 0.0 then 0 else b.bars + 1
  {
    hide Margined, Breached, Decide, BorrowDue, DividendDue, FillAtOpen;
    EveryBarIsSound(u, k);
    CloseCarriesOver(u, k);
    OpenKeepsCount(u, k);
    MarginedCount(u.exec, BeforeClose(u, k, After(u, k)), u.market.closes[u.start + k]);
  }

  lemma MarginedCount(x: Exec, b: Book, mark: real)
    ensures var r := Margined(x, b, mark);
      r == b || (r.qty == 0.0 && r.bars == 0)
  {
  }

  lemma OpenKeepsCount(u: Setup, k: nat)
    requires u.start + k + 1 <= Length(u)
    ensures Opened(u, k, After(u, k)).bars == After(u, k).bars
  {
    hide LongShares, ShortShares, Ask, Bid;
  }

  /** The holding counter is the number of closes the position has been open. */
  lemma {:induction false} HoldingPeriodIsCounted(u: Setup, k: nat)
    requires u.start + k <= Length(u)
    ensures After(u, k).bars == HeldFor(u, k)
  {
    if k > 0 {
      hide Bar;
      HoldingPeriodIsCounted(u, k - 1);
      BarCountsHolding(u, k - 1);
    }
  }

  // ---------- why it trades, and how much ----------

  /** Flat through bar `k`, from its open to after its close: not just closed out by margin. */
  predicate FlatThrough(u: Setup, k: nat)
    requires u.start + k + 1 <= Length(u)
  {
    Opened(u, k, After(u, k)).qty == 0.0 && After(u, k + 1).qty == 0.0
  }

  /** `k` closes are enough for every SMA the rule reads. */
  predicate MeansExist(u: Setup, k: nat) {
    match u.rule
    case Coupled(_, period) => k >= period
    case Decoupled(_, _, long, short) => k >= long && k >= short
  }

  predicate LongSignal(u: Setup, k: nat)
    requires u.start + k + 1 <= Length(u)
  {
    var i := u.start + k;
    FlatThrough(u, k) && MeansExist(u, k + 1) && LongScore(u, i) < -u.strategy.longTh && u.market.regime[i] == 1
  }

  predicate ShortSignal(u: Setup, k: nat)
    requires u.start + k + 1 <= Length(u)
  {
    FlatThrough(u, k) && MeansExist(u, k + 1) && !LongSignal(u, k) && ShortScore(u, u.start + k) > u.strategy.shortTh
  }

  lemma SignalsAreWants(u: Setup, k: nat)
    requires u.start + k + 1 <= Length(u)
    ensures After(u, k + 1).qty == 0.0 ==> (LongSignal(u, k) <==> WantsLong(u, k)) && (ShortSignal(u, k) <==> WantsShort(u, k))
  {
    hide After, Opened, Decide, Margined;
    CloseCarriesOver(u, k);
    FlatMeansUncovered(u, k);
  }

  lemma FlatMeansUncovered(u: Setup, k: nat)
    requires u.start + k + 1 <= Length(u)
    ensures AtClose(u, k).qty == 0.0 ==> (Liquidated(u, k) <==> Opened(u, k, After(u, k)).qty != 0.0)
  {
    hide After, Opened;
  }

  /** The next open goes long by at least `n` shares exactly when the close before was flat, had
      its means, scored below the band in an open regime, and `n` shares at the slipped open fit
      the risk budget, the cash and the concentration limit; so by the most that do. */
  lemma LongEntryInTerms(u: Setup, k: nat, n: int, price: real)
    requires u.start + k + 2 <= Length(u) && n >= 1 && After(u, k + 1).qty == 0.0
    requires var open := u.market.opens[u.start + k + 1]; price == open + open * u.exec.slippage
    ensures var i, x, cash := u.start + k, u.exec, After(u, k + 1).cash;
      n as real <= Opened(u, k + 1, After(u, k + 1)).qty <==>
        && LongSignal(u, k) && u.market.atr[i] > 0.0 && price > 0.0 && cash > 0.0
        && n as real * u.market.atr[i] <= cash * x.maxRisk && n as real * price <= cash
        && n as real * price <= cash * x.maxPosition
  {
    hide LongSignal, WantsLong, WantsShort, ShortSignal, After, SizeShares, SizeSharesShort, Breached, AtClose, Liquidated, WantsOut;
    SignalsAreWants(u, k);
    TradesHaveCauses(u, k + 1);
    var i, x, b := u.start + k, u.exec, After(u, k + 1);
    FlatEquity(b, u.market.closes[i]);
    OpenSize(u, k + 1);
    var shares := LongShares(x, b, u.market.closes[i], u.market.atr[i], price);
    assert Ask(u.market.opens[i + 1], x.slippage) == price;
    assert shares == SizeShares(b.cash, b.cash, u.market.atr[i], price, x.maxRisk, x.maxPosition);
    LongSizeInTerms(b.cash, u.market.atr[i], price, x.maxRisk, x.maxPosition, n);
  }

  lemma LongSizeInTerms(cash: real, atr: real, price: real, maxRisk: real, maxPosition: real, n: int)
    requires n >= 1
    ensures n <= SizeShares(cash, cash, atr, price, maxRisk, maxPosition) <==>
      && atr > 0.0 && price > 0.0 && cash > 0.0
      && n as real * atr <= cash * maxRisk && n as real * price <= cash && n as real * price <= cash * maxPosition
  {
    hide SizeShares;
    LongSizeIsLargestAllowed(cash, cash, atr, price, maxRisk, maxPosition, n);
  }

  lemma FlatEquity(b: Book, close: real)
    ensures b.qty == 0.0 ==> MarkEquity(b.cash, b.qty, close) == b.cash
  {
  }

  /** An entry takes the whole size. */
  lemma OpenSize(u: Setup, k: nat)
    requires k > 0 && u.start + k + 1 <= Length(u)
    ensures var i, b := u.start + k, After(u, k); var q := Opened(u, k, b).qty;
      && (b.qty == 0.0 && q > 0.0 ==>
            q == LongShares(u.exec, b, u.market.closes[i - 1], u.market.atr[i - 1], Ask(u.market.opens[i], u.exec.slippage)) as real)
      && (b.qty == 0.0 && q < 0.0 ==>
            -q == ShortShares(u.exec, b, u.market.closes[i - 1], u.market.atr[i - 1], Bid(u.market.opens[i], u.exec.slippage)) as real)
  {
    hide LongShares, ShortShares, Ask, Bid, After;
  }

  /** The same for a short: it needs no long signal beside it, and takes the most shares that,
      scaled up by the multiplier, the risk budget, the concentration limit and the initial
      margin pay for. */
  lemma ShortEntryInTerms(u: Setup, k: nat, n: int, price: real)
    requires u.start + k + 2 <= Length(u) && n >= 1 && After(u, k + 1).qty == 0.0
    requires var open := u.market.opens[u.start + k + 1]; price == open - open * u.exec.slippage
    ensures var i, x, cash := u.start + k, u.exec, After(u, k + 1).cash;
      n as real <= -Opened(u, k + 1, After(u, k + 1)).qty <==>
        && ShortSignal(u, k) && u.market.atr[i] > 0.0 && price > 0.0 && cash > 0.0 && x.marginInitial > 0.0
        && ShortAllowed(cash, u.market.atr[i], price, x.maxRisk, x.maxPosition, x.marginInitial, x.shortMultiplier, n)
  {
    hide LongSignal, WantsLong, WantsShort, ShortSignal, After, SizeShares, SizeSharesShort, Breached, AtClose, Liquidated, WantsOut, ShortAllowed;
    SignalsAreWants(u, k);
    TradesHaveCauses(u, k + 1);
    var i, x, b := u.start + k, u.exec, After(u, k + 1);
    FlatEquity(b, u.market.closes[i]);
    OpenSize(u, k + 1);
    var shares := ShortShares(x, b, u.market.closes[i], u.market.atr[i], price);
    assert Bid(u.market.opens[i + 1], x.slippage) == price;
    assert shares == SizeSharesShort(b.cash, u.market.atr[i], price, x.maxRisk, x.maxPosition, x.marginInitial, x.shortMultiplier);
    ShortSizeIsLargestAllowed(b.cash, u.market.atr[i], price, x.maxRisk, x.maxPosition, x.marginInitial, x.shortMultiplier, n);
  }

  /** An open position is closed out whole at the next open exactly when it has been held for
      the time stop or its own leg's score lies strictly inside the exit band. */
  lemma ExitInTerms(u: Setup, k: nat)
    requires u.start + k + 2 <= Length(u) && After(u, k + 1).qty != 0.0
    ensures var before, s := After(u, k + 1), u.strategy;
      var score := if before.qty > 0.0 then LongScore(u, u.start + k) else ShortScore(u, u.start + k);
      Opened(u, k + 1, before).qty ==
        if HeldFor(u, k + 1) >= s.maxBars || -s.exitSigma < score < s.exitSigma then 0.0 else before.qty
  {
    hide WantsLong, WantsShort, After, LongShares, ShortShares, Breached, AtClose, Liquidated, Opened;
    TradesHaveCauses(u, k + 1);
    CloseCarriesOver(u, k);
    HoldingPeriodIsCounted(u, k + 1);
  }

  // ---------- what it pays ----------

  /** Whatever an open trades, it trades at the open moved against it by the slippage. */
  lemma FillsInTerms(u: Setup, k: nat)
    requires k > 0 && u.start + k + 1 <= Length(u)
    ensures var open, b := u.market.opens[u.start + k], After(u, k);
      var r := Opened(u, k, b); var change := r.qty - b.qty;
      r.cash == b.cash - change * open - (if change > 0.0 then change else -change) * open * u.exec.slippage
  {
    hide FillAtOpen, After;
    var i, b := u.start + k, After(u, k);
    var open, slip := u.market.opens[i], u.exec.slippage;
    FillLosesSlippage(u.exec, open, u.market.closes[i - 1], u.market.atr[i - 1], b);
    var r := Opened(u, k, b);
    assert (r.qty - b.qty) * open == r.qty * open - b.qty * open;
    var size := Abs(r.qty - b.qty);
    assert open * slip * 1.0 * size == size * open * slip;
  }

  /** A short pays a 252nd of the annual fee on its value at the close before whenever a session
      starts, and every dividend on an ex-date; nobody else pays anything for holding. */
  lemma CarryInTerms(u: Setup, k: nat)
    requires u.start + k + 1 <= Length(u)
    ensures var i, q := u.start + k, Opened(u, k, After(u, k)).qty;
      var fee := if k > 0 && u.market.session[i] == 1 then u.market.closes[i - 1] * u.exec.borrowFee / 252.0 else 0.0;
      var dividend := if u.market.dividend[i] > 0.0 then u.market.dividend[i] else 0.0;
      Ledger(After(u, k + 1)) == Ledger(After(u, k)) - if q < 0.0 then -q * (fee + dividend) else 0.0
  {
    hide Ledger, Opened, After, Bar;
    var i, q := u.start + k, Opened(u, k, After(u, k)).qty;
    OneBarOn(u, k);
    BarPaysOnlyCarry(u, k, After(u, k));
    FeeInTerms(u, k, q);
  }

  lemma OneBarOn(u: Setup, k: nat)
    requires u.start + k + 1 <= Length(u)
    ensures After(u, k + 1) == Bar(u, k, After(u, k))
  {
  }

  lemma FeeInTerms(u: Setup, k: nat, q: real)
    requires u.start + k + 1 <= Length(u)
    ensures var i := u.start + k;
      var fee := if k > 0 && u.market.session[i] == 1 then u.market.closes[i - 1] * u.exec.borrowFee / 252.0 else 0.0;
      var dividend := if u.market.dividend[i] > 0.0 then u.market.dividend[i] else 0.0;
      BorrowDue(u, k, q) + DividendDue(u, k, q) == if q < 0.0 then -q * (fee + dividend) else 0.0
  {
    var i := u.start + k;
    var dividend := if u.market.dividend[i] > 0.0 then u.market.dividend[i] else 0.0;
    var close := if k > 0 && u.market.session[i] == 1 then u.market.closes[i - 1] else 0.0;
    var fee := close * u.exec.borrowFee / 252.0;
    assert fee == close * (u.exec.borrowFee / 252.0);
    assert -q * (fee + dividend) == -q * fee + -q * dividend;
    assert -q * close * (u.exec.borrowFee / 252.0) == -q * fee;
  }

  /** The fee on any position at any mark: nothing for a long or a flat book. */
  lemma BorrowFeeInTerms(cash: real, qty: real, mark: real, annual: real)
    ensures var fee := if qty < 0.0 then -qty * mark * annual / 252.0 else 0.0;
      BorrowFee(qty, mark, annual) == fee && ApplyBorrowFee(cash, qty, mark, annual) == cash - fee
  {
    assert -qty * mark * (annual / 252.0) == -qty * mark * annual / 252.0;
  }

  /** A flat book carries no entry value. */
  lemma {:induction false} FlatHasNoEntryValue(u: Setup, k: nat)
    requires u.start + k <= Length(u)
    ensures After(u, k).qty == 0.0 ==> After(u, k).cost == 0.0
  {
    if k > 0 {
      hide FillAtOpen, CoverPrice, BorrowDue, DividendDue, Decide, Breached;
      FlatHasNoEntryValue(u, k - 1);
      if k > 1 {
        var i := u.start + k - 1;
        FillFlattensWhole(u.exec, u.market.opens[i], u.market.closes[i - 1], u.market.atr[i - 1], After(u, k - 1));
      }
    }
  }

  lemma FillFlattensWhole(x: Exec, raw: real, close: real, atr: real, b: Book)
    requires b.qty == 0.0 ==> b.cost == 0.0
    ensures var r := FillAtOpen(x, raw, close, atr, b); r.qty == 0.0 ==> r.cost == 0.0
  {
    hide LongShares, ShortShares, Ask, Bid, CoverPrice;
  }

  /** A bar books one trade's result at most, as a win or as a loss; neither total ever falls. */
  lemma ResultsAreBookedOnce(u: Setup, k: nat)
    requires u.start + k + 1 <= Length(u)
    ensures var b, r := After(u, k), After(u, k + 1);
      && r.win >= b.win && r.loss >= b.loss && (r.win == b.win || r.loss == b.loss)
  {
    hide LongShares, ShortShares, Ask, Bid, CoverPrice, BorrowDue, DividendDue, Decide, Breached, Margined;
    CloseCarriesOver(u, k);
    var b := After(u, k);
    OpenBooks(u, k);
    MarginBooks(u.exec, BeforeClose(u, k, b), u.market.closes[u.start + k]);
  }

  lemma OpenBooks(u: Setup, k: nat)
    requires u.start + k + 1 <= Length(u)
    ensures var b := After(u, k); var r := Opened(u, k, b);
      && r.win >= b.win && r.loss >= b.loss && (r.win == b.win || r.loss == b.loss)
      && (r.win != b.win || r.loss != b.loss ==> r.qty == 0.0)
  {
    hide LongShares, ShortShares, Ask, Bid, CoverPrice;
  }

  lemma MarginBooks(x: Exec, b: Book, mark: real)
    ensures var r := Margined(x, b, mark);
      && r.win >= b.win && r.loss >= b.loss && (r.win == b.win || r.loss == b.loss)
      && (b.qty == 0.0 ==> r == b)
  {
    hide CoverPrice;
  }

  // ---------- what it reports ----------

  /** A side's entries are the opens that found the book flat and left it on that side. */
  lemma EntriesInTerms(u: Setup, k: nat)
    requires u.start + k + 1 <= Length(u)
    ensures var flat, q := After(u, k).qty == 0.0, Opened(u, k, After(u, k)).qty;
      && Entries(u, k + 1, Long) == Entries(u, k, Long) + (if flat && q > 0.0 then 1 else 0)
      && Entries(u, k + 1, Short) == Entries(u, k, Short) + (if flat && q < 0.0 then 1 else 0)
      && Entries(u, 0, Long) == Entries(u, 0, Short) == 0
  {
    hide After, Opened;
  }

  /** A run too short for its means reports nothing. Any other reports the fills of its last
      book, a return that times opening equity is the price moves less the costs, and as profit
      factor what the wins are to the losses. */
  lemma ReportInTerms(u: Setup, n: nat, root: real -> real, annualize: real)
    requires u.start + n <= Length(u)
    ensures var r := Reported(u, n, root, annualize);
      if n < 2 || !MeansExist(u, n - 2) then
        r == Report(0.0, 0.0, 0.0, 0, 0.0) && forall side :: ReportedEntries(u, n, side) == 0
      else
        var b, initial := After(u, n), u.exec.initialEquity;
        && r.fills == b.fills && (forall side :: ReportedEntries(u, n, side) == Entries(u, n, side))
        && (initial > 0.0 ==> r.totalReturn * initial == PriceMoves(u, n) - Costs(u, n))
        && (initial <= 0.0 ==> r.totalReturn == 0.0)
        && (b.loss > 0.0 ==> r.profitFactor * b.loss == b.win)
        && (b.loss <= 0.0 ==> r.profitFactor == if b.win > 0.0 then 1000000000.0 else 0.0)
  {
    hide After, StatsAfter, PriceMoves, Costs, Sharpe, EquityAt;
    if n >= 2 && MeansExist(u, n - 2) {
      var initial := u.exec.initialEquity;
      EquityIsAttributed(u, n);
      ClosingEquity(u, n);
      var end := EquityAt(u, n - 1);
      if initial > 0.0 {
        assert (end - initial) / initial * initial == end - initial;
      }
      var b := After(u, n);
      if b.loss > 0.0 {
        assert b.win / b.loss * b.loss == b.win;
      }
    }
  }

  lemma ClosingEquity(u: Setup, n: nat)
    requires n > 0 && u.start + n <= Length(u)
    ensures var b := After(u, n); EquityAt(u, n - 1) == b.cash + b.qty * u.market.closes[u.start + n - 1]
  {
    hide After;
  }
}
