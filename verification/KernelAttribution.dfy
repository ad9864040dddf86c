/**
  Where the kernel's money comes from and why it trades: every change of equity is a price
  move on the position held, less slippage and carry; every entry and exit has its cause at
  the close before.
 */
module KernelAttribution {
  import opened Kernel
  import opened KernelProofs

  // ---------- profit and loss attribution ----------

  /** Slippage paid for moving the position by `change` shares at a raw price. */
  function Friction(raw: real, slippage: real, multiplier: real, change: real): real {
    raw * slippage * multiplier * Abs(change)
  }

  /** Marked at the raw open, a fill loses exactly its slippage, whichever way it trades. */
  lemma FillLosesSlippage(x: Exec, raw: real, close: real, atr: real, b: Book)
    ensures var r := FillAtOpen(x, raw, close, atr, b);
      MarkEquity(r.cash, r.qty, raw) == MarkEquity(b.cash, b.qty, raw) - Friction(raw, x.slippage, 1.0, r.qty - b.qty)
  {
    hide LongShares, ShortShares;
    var r := FillAtOpen(x, raw, close, atr, b);
    NoFriction(raw, x.slippage);
    match b.pending
    case Hold =>
    case Long => BuyLosesSlippage(raw, x.slippage, 1.0, r.qty);
    case Short => SaleLosesSlippage(raw, x.slippage, -r.qty);
    case Exit =>
      SaleLosesSlippage(raw, x.slippage, b.qty);
      BuyLosesSlippage(raw, x.slippage, 1.0, -b.qty);
  }

  lemma NoFriction(raw: real, slippage: real)
    ensures Friction(raw, slippage, 1.0, 0.0) == 0.0
  {
  }

  lemma BuyLosesSlippage(raw: real, slippage: real, multiplier: real, n: real)
    ensures CoverPrice(raw, slippage, multiplier) * n == n * raw + raw * slippage * multiplier * n
    ensures multiplier == 1.0 ==> Ask(raw, slippage) == CoverPrice(raw, slippage, multiplier)
  {
    assert (raw + raw * slippage * multiplier) * n == raw * n + raw * slippage * multiplier * n;
  }

  lemma SaleLosesSlippage(raw: real, slippage: real, n: real)
    ensures Bid(raw, slippage) * n == n * raw - raw * slippage * 1.0 * n
  {
    assert raw * slippage * 1.0 == raw * slippage;
    assert (raw - raw * slippage) * n == raw * n - raw * slippage * n;
  }

  /** A liquidation loses its penal slippage, and a book in margin loses nothing. */
  lemma MarginCallLosesSlippage(x: Exec, b: Book, mark: real)
    ensures var r := Margined(x, b, mark);
      MarkEquity(r.cash, r.qty, mark) == MarkEquity(b.cash, b.qty, mark)
        - (if Breached(x, b, mark) then Friction(mark, x.slippage, x.liquidationMultiplier, b.qty) else 0.0)
  {
    if Breached(x, b, mark) {
      BuyLosesSlippage(mark, x.slippage, x.liquidationMultiplier, -b.qty);
    }
  }

  /** What the prices of local bar `k` did to the position held into and through it. */
  function PriceMove(u: Setup, k: nat): real
    requires u.start + k + 1 <= Length(u)
  {
    if k == 0 then 0.0
    else
      var i, before := u.start + k, After(u, k);
      before.qty * (u.market.opens[i] - u.market.closes[i - 1])
      + Opened(u, k, before).qty * (u.market.closes[i] - u.market.opens[i])
  }

  /** What trading and holding cost on local bar `k`: slippage at the open, carry, and penal
      slippage if the close liquidates. */
  function Cost(u: Setup, k: nat): real
    requires u.start + k + 1 <= Length(u)
  {
    var i, x, before := u.start + k, u.exec, After(u, k);
    var filled, held := Opened(u, k, before), BeforeClose(u, k, before);
    (if k == 0 then 0.0 else Friction(u.market.opens[i], x.slippage, 1.0, filled.qty - before.qty))
    + BorrowDue(u, k, filled.qty) + DividendDue(u, k, filled.qty)
    + (if Breached(x, held, u.market.closes[i])
       then Friction(u.market.closes[i], x.slippage, x.liquidationMultiplier, held.qty) else 0.0)
  }

  function EquityBefore(u: Setup, k: nat): real
    requires u.start + k <= Length(u)
  {
    if k == 0 then u.exec.initialEquity else EquityAt(u, k - 1)
  }

  lemma Remark(cash: real, qty: real, from: real, to: real)
    ensures MarkEquity(cash, qty, to) == MarkEquity(cash, qty, from) + qty * (to - from)
  {
  }

  /** The open and the carry, marked at the close. */
  lemma HeldIsAttributed(u: Setup, k: nat)
    requires u.start + k + 1 <= Length(u)
    ensures var i, before := u.start + k, After(u, k);
      var filled, held := Opened(u, k, before), BeforeClose(u, k, before);
      MarkEquity(held.cash, held.qty, u.market.closes[i]) == EquityBefore(u, k) + PriceMove(u, k)
        - (if k == 0 then 0.0 else Friction(u.market.opens[i], u.exec.slippage, 1.0, filled.qty - before.qty))
        - BorrowDue(u, k, filled.qty) - DividendDue(u, k, filled.qty)
  {
    hide FillAtOpen, Friction, BorrowDue, DividendDue;
    var i, before := u.start + k, After(u, k);
    var filled, held := Opened(u, k, before), BeforeClose(u, k, before);
    if k > 0 {
      hide After, MarkEquity;
      var open, close := u.market.opens[i], u.market.closes[i - 1];
      Remark(before.cash, before.qty, close, open);
      FillLosesSlippage(u.exec, open, close, u.market.atr[i - 1], before);
      Remark(filled.cash, filled.qty, open, u.market.closes[i]);
      PayFromCash(filled.cash, BorrowDue(u, k, filled.qty) + DividendDue(u, k, filled.qty), filled.qty, u.market.closes[i]);
    }
  }

  lemma PayFromCash(cash: real, due: real, qty: real, mark: real)
    ensures MarkEquity(cash - due, qty, mark) == MarkEquity(cash, qty, mark) - due
  {
  }

  /** One bar changes equity by its price moves less its costs, and by nothing else. */
  lemma BarIsAttributed(u: Setup, k: nat)
    requires u.start + k + 1 <= Length(u)
    ensures EquityAt(u, k) == EquityBefore(u, k) + PriceMove(u, k) - Cost(u, k)
  {
    hide Friction, BorrowDue, DividendDue, Breached, PriceMove, Decide, BeforeClose;
    HeldIsAttributed(u, k);
    MarginCallLosesSlippage(u.exec, BeforeClose(u, k, After(u, k)), u.market.closes[u.start + k]);
  }

  function PriceMoves(u: Setup, k: nat): real
    requires u.start + k <= Length(u)
  {
    if k == 0 then 0.0 else PriceMoves(u, k - 1) + PriceMove(u, k - 1)
  }

  function Costs(u: Setup, k: nat): real
    requires u.start + k <= Length(u)
  {
    if k == 0 then 0.0 else Costs(u, k - 1) + Cost(u, k - 1)
  }

  /** Over any run, equity is opening equity plus the price moves of the positions held, less
      slippage, borrow fees, dividends and liquidation penalties. */
  lemma {:induction false} EquityIsAttributed(u: Setup, k: nat)
    requires u.start + k <= Length(u)
    ensures EquityBefore(u, k) == u.exec.initialEquity + PriceMoves(u, k) - Costs(u, k)
  {
    hide After, PriceMove, Cost, EquityAt;
    if k > 0 {
      EquityIsAttributed(u, k - 1);
      BarIsAttributed(u, k - 1);
    }
  }

  // ---------- frictions never help ----------

  predicate Frictional(u: Setup) {
    && u.exec.slippage >= 0.0 && u.exec.liquidationMultiplier >= 0.0 && u.exec.borrowFee >= 0.0
    && (forall i :: 0 <= i < |u.market.opens| ==> u.market.opens[i] >= 0.0)
    && (forall i :: 0 <= i < |u.market.closes| ==> u.market.closes[i] >= 0.0)
  }

  lemma ProductIsNonNegative(a: real, b: real)
    requires a >= 0.0 && b >= 0.0
    ensures a * b >= 0.0
  {
  }

  lemma FrictionIsNonNegative(raw: real, slippage: real, multiplier: real, change: real)
    requires raw >= 0.0 && slippage >= 0.0 && multiplier >= 0.0
    ensures Friction(raw, slippage, multiplier, change) >= 0.0
  {
    ProductIsNonNegative(raw, slippage);
    ProductIsNonNegative(raw * slippage, multiplier);
    ProductIsNonNegative(raw * slippage * multiplier, Abs(change));
  }

  lemma CarryIsNonNegative(u: Setup, k: nat, qty: real)
    requires u.start + k + 1 <= Length(u) && Frictional(u)
    ensures BorrowDue(u, k, qty) >= 0.0 && DividendDue(u, k, qty) >= 0.0
  {
    var i := u.start + k;
    ProductIsNonNegative(Abs(qty), if u.market.dividend[i] > 0.0 then u.market.dividend[i] else 0.0);
    if k > 0 {
      ProductIsNonNegative(Abs(qty), u.market.closes[i - 1]);
      ProductIsNonNegative(Abs(qty) * u.market.closes[i - 1], u.exec.borrowFee / TRADING_DAYS);
    }
  }

  /** With nonnegative prices and rates every bar's cost is nonnegative, so equity never
      exceeds opening equity plus the price moves: no friction ever works in the book's favour. */
  lemma {:induction false} FrictionsNeverHelp(u: Setup, k: nat)
    requires u.start + k <= Length(u) && Frictional(u)
    ensures Costs(u, k) >= 0.0
    ensures EquityBefore(u, k) <= u.exec.initialEquity + PriceMoves(u, k)
  {
    hide Friction, BorrowDue, DividendDue, After, Breached, PriceMoves, EquityAt;
    if k > 0 {
      FrictionsNeverHelp(u, k - 1);
      var i, x, before := u.start + k - 1, u.exec, After(u, k - 1);
      var filled, held := Opened(u, k - 1, before), BeforeClose(u, k - 1, before);
      CarryIsNonNegative(u, k - 1, filled.qty);
      FrictionIsNonNegative(u.market.opens[i], x.slippage, 1.0, filled.qty - before.qty);
      FrictionIsNonNegative(u.market.closes[i], x.slippage, x.liquidationMultiplier, held.qty);
    }
    EquityIsAttributed(u, k);
  }

  // ---------- why it trades ----------

  /** The book at the close of local bar `k`, after margin and before signals. */
  function AtClose(u: Setup, k: nat): Book
    requires u.start + k + 1 <= Length(u)
  {
    Margined(u.exec, BeforeClose(u, k, After(u, k)), u.market.closes[u.start + k])
  }

  predicate Liquidated(u: Setup, k: nat)
    requires u.start + k + 1 <= Length(u)
  {
    Breached(u.exec, BeforeClose(u, k, After(u, k)), u.market.closes[u.start + k])
  }

  /** The z-score an entry on each side, and an exit from each side, reads at bar `i`. */
  function LongScore(u: Setup, i: nat): real
    requires i < Length(u)
  {
    match u.rule case Coupled(z, _) => z[i] case Decoupled(zl, _, _, _) => zl[i]
  }

  function ShortScore(u: Setup, i: nat): real
    requires i < Length(u)
  {
    match u.rule case Coupled(z, _) => z[i] case Decoupled(_, zs, _, _) => zs[i]
  }

  /** The previous close settled everything the open acts on: nothing stays pending for two
      bars. */
  lemma PendingIsFresh(u: Setup, k: nat)
    requires u.start + k + 1 <= Length(u)
    ensures AtClose(u, k).pending == Hold
  {
    hide Decide, Breached, BorrowDue, DividendDue, LongShares, ShortShares, EnterLong, EnterShort;
    if k > 0 {
      var i, b := u.start + k, After(u, k);
      OpenClearsPending(u.exec, u.market.opens[i], u.market.closes[i - 1], u.market.atr[i - 1], b);
    }
  }

  lemma OpenClearsPending(x: Exec, raw: real, close: real, atr: real, b: Book)
    ensures FillAtOpen(x, raw, close, atr, b).pending == Hold
  {
  }

  /** Margin and signals leave the position alone between the close and the next open. */
  lemma CloseCarriesOver(u: Setup, k: nat)
    requires u.start + k + 1 <= Length(u)
    ensures After(u, k + 1) == Signalled(u, k, AtClose(u, k), Liquidated(u, k))
    ensures After(u, k + 1).qty == AtClose(u, k).qty && After(u, k + 1).bars == AtClose(u, k).bars
  {
    hide BeforeClose, Breached, Margined, Decide;
  }

  lemma OpenFollowsPending(x: Exec, raw: real, close: real, atr: real, b: Book)
    ensures var r := FillAtOpen(x, raw, close, atr, b);
      && (b.qty == 0.0 ==> (r.qty > 0.0 <==> b.pending == Long && LongShares(x, b, close, atr, Ask(raw, x.slippage)) > 0))
      && (b.qty == 0.0 ==> (r.qty < 0.0 <==> b.pending == Short && ShortShares(x, b, close, atr, Bid(raw, x.slippage)) > 0))
      && (b.qty != 0.0 ==> r.qty == if b.pending == Exit then 0.0 else b.qty)
  {
    hide LongShares, ShortShares, Ask, Bid;
  }

  /** Flat at the close of bar `k`, past warm-up, and not because it was just liquidated. */
  predicate Ready(u: Setup, k: nat)
    requires u.start + k + 1 <= Length(u)
  {
    AtClose(u, k).qty == 0.0 && k >= Warmup(u) - 1 && !Liquidated(u, k)
  }

  predicate WantsLong(u: Setup, k: nat)
    requires u.start + k + 1 <= Length(u)
  {
    Ready(u, k) && LongScore(u, u.start + k) < -u.strategy.longTh && u.market.regime[u.start + k] == 1
  }

  predicate WantsShort(u: Setup, k: nat)
    requires u.start + k + 1 <= Length(u)
  {
    Ready(u, k) && !WantsLong(u, k) && ShortScore(u, u.start + k) > u.strategy.shortTh
  }

  /** An open position at the close of bar `k` has run its time or its own score is back in
      the exit band. */
  predicate WantsOut(u: Setup, k: nat)
    requires u.start + k + 1 <= Length(u)
  {
    var b, i := AtClose(u, k), u.start + k;
    b.bars >= u.strategy.maxBars
    || Abs(if b.qty > 0.0 then LongScore(u, i) else ShortScore(u, i)) < u.strategy.exitSigma
  }

  /** Every trade has its cause at the close before, and every cause its trade: the open goes
      long or short exactly when the close wanted it and at least one share can be sized, and
      it ends an open position exactly when the close wanted out. */
  lemma TradesHaveCauses(u: Setup, k: nat)
    requires k > 0 && u.start + k + 1 <= Length(u)
    ensures var j, before := u.start + k, After(u, k);
      var after := Opened(u, k, before);
      var close, atr, ask, bid := u.market.closes[j - 1], u.market.atr[j - 1],
                                  Ask(u.market.opens[j], u.exec.slippage), Bid(u.market.opens[j], u.exec.slippage);
      && (before.qty == 0.0 ==>
            (after.qty > 0.0 <==> WantsLong(u, k - 1) && LongShares(u.exec, before, close, atr, ask) > 0))
      && (before.qty == 0.0 ==>
            (after.qty < 0.0 <==> WantsShort(u, k - 1) && ShortShares(u.exec, before, close, atr, bid) > 0))
      && (before.qty != 0.0 ==> after.qty == if WantsOut(u, k - 1) then 0.0 else before.qty)
  {
    hide AtClose, Liquidated, FillAtOpen, After, LongShares, ShortShares, Ask, Bid;
    PendingIsFresh(u, k - 1);
    CloseCarriesOver(u, k - 1);
    EveryBarIsSound(u, k);
    LiquidatedIsFlat(u, k - 1);
    var j := u.start + k;
    OpenFollowsPending(u.exec, u.market.opens[j], u.market.closes[j - 1], u.market.atr[j - 1], After(u, k));
  }

  lemma LiquidatedIsFlat(u: Setup, k: nat)
    requires u.start + k + 1 <= Length(u)
    ensures Liquidated(u, k) ==> AtClose(u, k).qty == 0.0
  {
    hide BeforeClose, Breached;
  }

  /** A liquidated book stays out for at least one more bar. */
  lemma NoReentryAfterLiquidation(u: Setup, k: nat)
    requires u.start + k + 2 <= Length(u) && Liquidated(u, k)
    ensures Opened(u, k + 1, After(u, k + 1)).qty == 0.0
  {
    hide BeforeClose, Breached, FillAtOpen;
    PendingIsFresh(u, k);
    CloseCarriesOver(u, k);
    var j := u.start + k + 1;
    OpenFollowsPending(u.exec, u.market.opens[j], u.market.closes[j - 1], u.market.atr[j - 1], After(u, k + 1));
  }
}
