/**
  What every run of the backtest kernel keeps: the ledger balances, longs are paid for in
  cash, shorts meet maintenance margin at each close, no trade outlives the time stop, and
  nothing is decided by prices that have not been seen yet.
 */
module KernelProofs {
  import opened Reals
  import opened Metrics
  import opened Kernel

  // ---------- the ledger ----------

  /** Cash with the open position put back at what it was entered for. */
  function Basis(b: Book): real {
    if b.qty > 0.0 then b.cash + b.cost else if b.qty < 0.0 then b.cash - b.cost else b.cash
  }

  /** Basis without the realised result. */
  function Ledger(b: Book): real { Basis(b) - b.win + b.loss }

  /** Borrow fees and dividends a short has paid in the first `k` bars. */
  function CarryPaid(u: Setup, k: nat): real
    requires u.start + k <= Length(u)
  {
    if k == 0 then 0.0
    else
      var qty := Opened(u, k - 1, After(u, k - 1)).qty;
      CarryPaid(u, k - 1) + BorrowDue(u, k - 1, qty) + DividendDue(u, k - 1, qty)
  }

  lemma FillKeepsLedger(x: Exec, raw: real, close: real, atr: real, b: Book)
    ensures Ledger(FillAtOpen(x, raw, close, atr, b)) == Ledger(b)
  {
  }

  lemma MarginCallKeepsLedger(x: Exec, b: Book, mark: real)
    ensures Ledger(Margined(x, b, mark)) == Ledger(b)
  {
  }

  lemma BarPaysOnlyCarry(u: Setup, k: nat, b: Book)
    requires u.start + k + 1 <= Length(u)
    ensures var qty := Opened(u, k, b).qty;
      Ledger(Bar(u, k, b)) == Ledger(b) - BorrowDue(u, k, qty) - DividendDue(u, k, qty)
  {
    hide FillAtOpen, Margined, BorrowDue, DividendDue, Decide;
    var i := u.start + k;
    if k > 0 {
      FillKeepsLedger(u.exec, u.market.opens[i], u.market.closes[i - 1], u.market.atr[i - 1], b);
    }
    MarginCallKeepsLedger(u.exec, BeforeClose(u, k, b), u.market.closes[i]);
  }

  /** Opening equity plus realised profit, less realised loss and carry, is always exactly
      the cash plus (for a long) or minus (for a short) the entry value of the position. */
  lemma {:induction false} LedgerBalances(u: Setup, k: nat)
    requires u.start + k <= Length(u)
    ensures var b := After(u, k);
            Basis(b) == u.exec.initialEquity + b.win - b.loss - CarryPaid(u, k)
  {
    hide Bar, Opened, BorrowDue, DividendDue;
    if k > 0 {
      LedgerBalances(u, k - 1);
      BarPaysOnlyCarry(u, k - 1, After(u, k - 1));
    }
  }

  /** Profit on the open position if it were closed at `mark` without slippage. */
  function Unrealised(b: Book, mark: real): real {
    if b.qty > 0.0 then b.qty * mark - b.cost else if b.qty < 0.0 then b.cost + b.qty * mark else 0.0
  }

  /** Equity at every close is opening equity plus realised and unrealised result, less carry. */
  lemma EquityDecomposes(u: Setup, k: nat)
    requires u.start + k + 1 <= Length(u)
    ensures var b := After(u, k + 1);
      EquityAt(u, k) == u.exec.initialEquity + b.win - b.loss - CarryPaid(u, k + 1)
                        + Unrealised(b, u.market.closes[u.start + k])
  {
    hide After, CarryPaid;
    LedgerBalances(u, k + 1);
  }

  // ---------- sizing ----------

  predicate Fits(shares: real, budget: real, each: real) { shares * each <= budget }

  predicate Exceeds(shares: real, budget: real, each: real) { shares * each >= budget }

  lemma PaysForWhatFits(shares: real, budget: real, each: real)
    requires each > 0.0
    ensures shares <= PaysFor(budget, each) <==> Fits(shares, budget, each)
    ensures shares >= PaysFor(budget, each) <==> Exceeds(shares, budget, each)
  {
    var q := budget / each;
    assert q * each == budget;
    SignOfProduct(shares - q, each);
  }

  lemma WholeSharesAreLargest(k: int, shares: real)
    requires k >= 1
    ensures WholeShares(shares) >= 0 && (k <= WholeShares(shares) <==> k as real <= shares)
  {
  }

  /** A negative multiplier turns the limit round. */
  lemma ScaledDown(k: real, shares: real, multiplier: real)
    requires multiplier != 0.0
    ensures k <= Scaled(shares, multiplier) <==>
      if multiplier > 0.0 then k / multiplier <= shares else k / multiplier >= shares
  {
    var q := k / multiplier;
    assert q * multiplier == k;
    if multiplier > 0.0 {
      SignOfProduct(q - shares, multiplier);
    } else {
      SignOfProduct(q - shares, -multiplier);
    }
  }

  /** A long takes the most whole shares that the risk budget, the cash and the concentration
      limit each pay for, and none if any input is not positive. */
  lemma LongSizeIsLargestAllowed(equity: real, cash: real, atr: real, price: real, maxRisk: real, maxPosition: real, k: int)
    requires k >= 1
    ensures var n := SizeShares(equity, cash, atr, price, maxRisk, maxPosition);
      && n >= 0
      && (k <= n <==> atr > 0.0 && price > 0.0 && equity > 0.0 && Fits(k as real, equity * maxRisk, atr)
                      && Fits(k as real, cash, price) && Fits(k as real, equity * maxPosition, price))
  {
    hide PaysFor, Fits, WholeShares;
    if atr > 0.0 && price > 0.0 && equity > 0.0 {
      PaysForWhatFits(k as real, equity * maxRisk, atr);
      PaysForWhatFits(k as real, cash, price);
      PaysForWhatFits(k as real, equity * maxPosition, price);
      var least := Min(Min(PaysFor(equity * maxRisk, atr), PaysFor(cash, price)), PaysFor(equity * maxPosition, price));
      WholeSharesAreLargest(k, least);
    }
  }

  /** A short takes the most whole shares that, scaled up by the short multiplier, the risk
      budget, the concentration limit and the initial margin each pay for. A zero multiplier
      allows none; a negative one allows only what scales down below an exceeded limit. */
  lemma ShortSizeIsLargestAllowed(equity: real, atr: real, price: real, maxRisk: real, maxPosition: real, margin: real,
                                  multiplier: real, k: int)
    requires k >= 1
    ensures var n := SizeSharesShort(equity, atr, price, maxRisk, maxPosition, margin, multiplier);
      && n >= 0
      && (k <= n <==> atr > 0.0 && price > 0.0 && equity > 0.0 && margin > 0.0
                      && ShortAllowed(equity, atr, price, maxRisk, maxPosition, margin, multiplier, k))
  {
    hide PaysFor, Fits, Exceeds, WholeShares, Scaled;
    if atr > 0.0 && price > 0.0 && equity > 0.0 && margin > 0.0 {
      var cap := ShortCap(equity, atr, price, maxRisk, maxPosition, margin);
      WholeSharesAreLargest(k, Scaled(cap, multiplier));
      if multiplier == 0.0 {
        ScaledToNothing(cap);
      } else {
        var up := k as real / multiplier;
        PaysForWhatFits(up, equity * maxRisk, atr);
        PaysForWhatFits(up, equity * maxPosition, price);
        PaysForWhatFits(up, equity, MarginPerShare(price, margin));
        ScaledDown(k as real, cap, multiplier);
      }
    }
  }

  predicate ShortAllowed(equity: real, atr: real, price: real, maxRisk: real, maxPosition: real, margin: real,
                         multiplier: real, k: int)
  {
    multiplier != 0.0
    && var up := k as real / multiplier;
       if multiplier > 0.0
       then Fits(up, equity * maxRisk, atr) && Fits(up, equity * maxPosition, price) && Fits(up, equity, price * margin)
       else Exceeds(up, equity * maxRisk, atr) || Exceeds(up, equity * maxPosition, price) || Exceeds(up, equity, price * margin)
  }

  lemma ScaledToNothing(shares: real)
    ensures Scaled(shares, 0.0) == 0.0
  {
  }

  // ---------- paying for longs, margining shorts, stopping on time ----------

  /** A truncated share count never costs more than the cash it was sized by. */
  lemma AffordableShares(equity: real, cash: real, atr: real, price: real, maxRisk: real, maxPosition: real)
    ensures var n := SizeShares(equity, cash, atr, price, maxRisk, maxPosition);
            n > 0 ==> price > 0.0 && price * n as real <= cash
  {
    var n := SizeShares(equity, cash, atr, price, maxRisk, maxPosition);
    if n > 0 {
      var most := cash / price;
      assert n as real <= most;
      assert most * price == cash;
      Scale(n as real, most, price);
    }
  }

  /** What holds of the book after every bar. */
  predicate Sound(u: Setup, b: Book) {
    && (b.qty > 0.0 ==> b.cash >= 0.0)
    && (b.qty == 0.0 ==> b.bars == 0)
    && b.bars <= TimeStop(u.strategy)
    && (b.qty != 0.0 && b.bars >= u.strategy.maxBars ==> b.pending == Exit)
  }

  /** Marked equity covers the maintenance rate on the value of a short. */
  predicate MeetsMargin(b: Book, mark: real, maintenance: real) {
    b.qty < 0.0 ==> b.cash + b.qty * mark >= -b.qty * mark * maintenance
  }

  function TimeStop(s: Strategy): nat { if s.maxBars < 1 then 1 else s.maxBars }

  /** The open either leaves the holding period to run or restarts it. */
  lemma FillIsSound(x: Exec, raw: real, close: real, atr: real, b: Book)
    requires b.qty > 0.0 ==> b.cash >= 0.0
    ensures var r := FillAtOpen(x, raw, close, atr, b);
      && (r.qty > 0.0 ==> r.cash >= 0.0) && r.bars == b.bars && r.pending == Hold
      && (b.pending == Hold ==> r == b) && (b.pending == Exit ==> r.qty == 0.0)
      && (b.qty != 0.0 && b.pending != Exit ==> r.qty == b.qty)
  {
    var price := Ask(raw, x.slippage);
    AffordableShares(MarkEquity(b.cash, b.qty, close), b.cash, atr, price, x.maxRisk, x.maxPosition);
  }

  lemma BarIsSound(u: Setup, k: nat, b: Book)
    requires u.start + k + 1 <= Length(u)
    requires Sound(u, b) && (k == 0 ==> b.qty == 0.0 && b.pending == Hold)
    requires b.pending != Hold ==> k >= Warmup(u)
    requires b.qty != 0.0 ==> k >= Warmup(u)
    ensures var r := Bar(u, k, b);
      Sound(u, r) && MeetsMargin(r, u.market.closes[u.start + k], u.exec.marginMaint)
      && (r.pending != Hold || r.qty != 0.0 ==> k + 1 >= Warmup(u))
  {
    hide FillAtOpen, BorrowDue, DividendDue, Decide;
    var i := u.start + k;
    if k > 0 {
      FillIsSound(u.exec, u.market.opens[i], u.market.closes[i - 1], u.market.atr[i - 1], b);
    }
    LongsOweNoCarry(u, k, Opened(u, k, b).qty);
  }

  lemma LongsOweNoCarry(u: Setup, k: nat, qty: real)
    requires u.start + k + 1 <= Length(u)
    ensures qty > 0.0 ==> BorrowDue(u, k, qty) == 0.0 == DividendDue(u, k, qty)
  {
  }

  /** After every bar of every run: a long was paid for in cash, a short meets its
      maintenance margin at the close, and no position has been open at more closes than the
      time stop allows; at the stop its exit is already pending. */
  lemma {:induction false} EveryBarIsSound(u: Setup, k: nat)
    requires u.start + k <= Length(u)
    ensures Sound(u, After(u, k))
    ensures k > 0 ==> MeetsMargin(After(u, k), u.market.closes[u.start + k - 1], u.exec.marginMaint)
    ensures After(u, k).pending != Hold || After(u, k).qty != 0.0 ==> k >= Warmup(u)
  {
    hide Bar, MeetsMargin;
    if k > 0 {
      EveryBarIsSound(u, k - 1);
      BarIsSound(u, k - 1, After(u, k - 1));
    }
  }

  // ---------- fills and entries ----------

  function Open(b: Book): nat { if b.qty != 0.0 then 1 else 0 }

  lemma FillCounts(x: Exec, raw: real, close: real, atr: real, b: Book)
    ensures var r := FillAtOpen(x, raw, close, atr, b); var e := Entered(b, r);
      r.fills + Open(r) == b.fills + Open(b) + (if e == Hold then 0 else 2)
      && (e == Hold || e == Long || e == Short)
  {
  }

  lemma BarCounts(u: Setup, k: nat, b: Book)
    requires u.start + k + 1 <= Length(u)
    ensures var r := Bar(u, k, b); var e := Entered(b, Opened(u, k, b));
      r.fills + Open(r) == b.fills + Open(b) + (if e == Hold then 0 else 2)
      && (e == Hold || e == Long || e == Short)
  {
    hide FillAtOpen, BorrowDue, DividendDue, Decide, MarkEquity;
    var i := u.start + k;
    if k > 0 {
      FillCounts(u.exec, u.market.opens[i], u.market.closes[i - 1], u.market.atr[i - 1], b);
    }
  }

  /** Every entry is filled once and closed once, except the one still open. */
  lemma {:induction false} FillsPairUp(u: Setup, k: nat)
    requires u.start + k <= Length(u)
    ensures var b := After(u, k);
      b.fills == 2 * (Entries(u, k, Long) + Entries(u, k, Short)) - Open(b)
  {
    hide Bar, Opened;
    if k > 0 {
      FillsPairUp(u, k - 1);
      BarCounts(u, k - 1, After(u, k - 1));
    }
  }

  // ---------- the two simulators in lockstep ----------

  /** The same z-scores and period given to both legs. */
  function Split(u: Setup): Setup
    requires u.rule.Coupled?
  {
    u.(rule := Decoupled(u.rule.z, u.rule.z, u.rule.period, u.rule.period))
  }

  lemma OpensAgree(u: Setup, k: nat, b: Book)
    requires u.rule.Coupled? && u.start + k + 1 <= Length(u)
    ensures Length(Split(u)) == Length(u) && BeforeClose(Split(u), k, b) == BeforeClose(u, k, b)
  {
    hide FillAtOpen, BorrowFee;
  }

  lemma BarsAgree(u: Setup, k: nat, b: Book)
    requires u.rule.Coupled? && u.start + k + 1 <= Length(u)
    ensures Length(Split(u)) == Length(u) && Bar(Split(u), k, b) == Bar(u, k, b)
  {
    hide BeforeClose, Breached, Margined;
    OpensAgree(u, k, b);
    var held, mark := BeforeClose(u, k, b), u.market.closes[u.start + k];
    SignalsAgree(u, k, Margined(u.exec, held, mark), Breached(u.exec, held, mark));
  }

  lemma SignalsAgree(u: Setup, k: nat, b: Book, liquidated: bool)
    requires u.rule.Coupled? && u.start + k + 1 <= Length(u)
    ensures Length(Split(u)) == Length(u)
    ensures Signalled(Split(u), k, b, liquidated) == Signalled(u, k, b, liquidated)
  {
  }

  lemma {:induction false} BooksAgree(u: Setup, k: nat)
    requires u.rule.Coupled? && u.start + k <= Length(u)
    ensures Length(Split(u)) == Length(u)
    ensures After(Split(u), k) == After(u, k) && StatsAfter(Split(u), k) == StatsAfter(u, k)
  {
    hide Bar, Observe, MarkEquity;
    if k > 0 {
      BooksAgree(u, k - 1);
      BarsAgree(u, k - 1, After(u, k - 1));
    }
  }

  /** On equal horizons the two simulators report exactly the same, and the decoupled one's
      entry counts account for every fill. */
  lemma Lockstep(u: Setup, n: nat, root: real -> real, annualize: real)
    requires u.rule.Coupled? && u.start + n <= Length(u)
    ensures Length(Split(u)) == Length(u)
    ensures Reported(Split(u), n, root, annualize) == Reported(u, n, root, annualize)
    ensures n >= Warmup(u) + 2 ==>
      Reported(u, n, root, annualize).fills ==
        2 * (ReportedEntries(Split(u), n, Long) + ReportedEntries(Split(u), n, Short)) - Open(After(u, n))
  {
    hide Bar, Observe, Sharpe, ProfitFactor, TotalReturn, Entries;
    BooksAgree(u, n);
    FillsPairUp(Split(u), n);
  }

  // ---------- drawdown ----------

  /** Opening equity followed by the equity at each of the first `k` closes. */
  function Curve(u: Setup, k: nat): (c: seq<real>)
    requires u.start + k <= Length(u)
    ensures |c| == k + 1
  {
    if k == 0 then [u.exec.initialEquity] else Curve(u, k - 1) + [EquityAt(u, k - 1)]
  }

  /** The running drawdown of the loop is the one-pass drawdown of the equity curve. */
  lemma {:induction false} KernelDrawdown(u: Setup, k: nat)
    requires u.start + k <= Length(u)
    ensures var t := StatsAfter(u, k);
      t.peak == RunningPeak(Curve(u, k)) && t.maxDd == OnePass(Curve(u, k)) && t.maxDd >= 0.0
  {
    hide After, EquityAt, Drop;
    var c := Curve(u, k);
    if k == 0 {
      DropToSelf(u.exec.initialEquity);
      assert c[..0] == [];
    } else {
      KernelDrawdown(u, k - 1);
      assert c[..k] == Curve(u, k - 1);
    }
  }

  lemma DropToSelf(x: real)
    ensures Drop(x, x) == 0.0
  {
  }

  /** The reported drawdown is the largest fall from any point of the equity curve to any
      later one exactly when no fall below zero, taken from the least positive equity before
      it, is larger; the larger of the two is the largest fall on every run. */
  lemma ReportedDrawdownIsLargestDrop(u: Setup, n: nat, root: real -> real, annualize: real)
    requires u.start + n <= Length(u) && n >= Warmup(u) + 2
    ensures var c, d := Curve(u, n), Reported(u, n, root, annualize).maxDd;
      && (IsLargestDrop(c, d) <==> LowPass(c) <= d)
      && IsLargestDrop(c, Max(d, LowPass(c)))
      && (NonNegative(c) ==> IsLargestDrop(c, d))
  {
    hide After, EquityAt, Drop, IsLargestDrop, LowPass;
    KernelDrawdown(u, n);
    OnePassIsLargestDrop(Curve(u, n));
    TwoPassesAreLargestDrop(Curve(u, n));
  }

  // ---------- no look-ahead ----------

  lemma PrefixAt<T>(a: seq<T>, b: seq<T>, n: nat, i: nat)
    requires n <= |a| && n <= |b| && a[..n] == b[..n] && i < n
    ensures a[i] == b[i] && a[..i] == b[..i]
  {
    assert a[..n][i] == b[..n][i];
    assert a[..n][..i] == a[..i] && b[..n][..i] == b[..i];
  }

  /** Two runs with the same parameters whose inputs agree on all bars before `n`. */
  predicate AgreeBefore(u: Setup, v: Setup, n: nat)
    requires n <= Length(u) && n <= Length(v)
  {
    && u.exec == v.exec && u.strategy == v.strategy && u.start == v.start
    && u.market.opens[..n] == v.market.opens[..n] && u.market.closes[..n] == v.market.closes[..n]
    && u.market.regime[..n] == v.market.regime[..n] && u.market.atr[..n] == v.market.atr[..n]
    && u.market.session[..n] == v.market.session[..n] && u.market.dividend[..n] == v.market.dividend[..n]
    && match (u.rule, v.rule)
       case (Coupled(z, p), Coupled(z', p')) => z[..n] == z'[..n] && p == p'
       case (Decoupled(zl, zs, pl, ps), Decoupled(zl', zs', pl', ps')) =>
         zl[..n] == zl'[..n] && zs[..n] == zs'[..n] && pl == pl' && ps == ps'
       case _ => false
  }

  /** What bar `i` shows, and what it shows a run. */
  predicate AgreeAt(u: Setup, v: Setup, i: nat)
    requires i < Length(u) && i < Length(v)
  {
    && u.exec == v.exec && u.strategy == v.strategy && u.start == v.start && Warmup(u) == Warmup(v)
    && u.market.opens[i] == v.market.opens[i] && u.market.closes[i] == v.market.closes[i]
    && u.market.regime[i] == v.market.regime[i] && u.market.atr[i] == v.market.atr[i]
    && u.market.session[i] == v.market.session[i] && u.market.dividend[i] == v.market.dividend[i]
    && match (u.rule, v.rule)
       case (Coupled(z, _), Coupled(z', _)) => z[i] == z'[i]
       case (Decoupled(zl, zs, _, _), Decoupled(zl', zs', _, _)) => zl[i] == zl'[i] && zs[i] == zs'[i]
       case _ => false
  }

  lemma AgreeBeforeAt(u: Setup, v: Setup, n: nat, i: nat)
    requires i < n && n <= Length(u) && n <= Length(v) && AgreeBefore(u, v, n)
    ensures AgreeAt(u, v, i) && AgreeBefore(u, v, i)
  {
    PrefixAt(u.market.opens, v.market.opens, n, i);
    PrefixAt(u.market.closes, v.market.closes, n, i);
    PrefixAt(u.market.regime, v.market.regime, n, i);
    PrefixAt(u.market.atr, v.market.atr, n, i);
    PrefixAt(u.market.session, v.market.session, n, i);
    PrefixAt(u.market.dividend, v.market.dividend, n, i);
    match (u.rule, v.rule)
    case (Coupled(z, _), Coupled(z', _)) => PrefixAt(z, z', n, i);
    case (Decoupled(zl, zs, _, _), Decoupled(zl', zs', _, _)) =>
      PrefixAt(zl, zl', n, i);
      PrefixAt(zs, zs', n, i);
    case _ =>
  }

  lemma BarSeesOnlyItself(u: Setup, v: Setup, k: nat, b: Book)
    requires u.start == v.start && u.start + k + 1 <= Length(u) && u.start + k + 1 <= Length(v)
    requires AgreeAt(u, v, u.start + k)
    requires k > 0 ==> AgreeAt(u, v, u.start + k - 1)
    ensures Bar(u, k, b) == Bar(v, k, b)
  {
    hide FillAtOpen, Breached, Margined, Warmup;
  }

  /** Two runs whose inputs agree before bar `start + k` have the same book and statistics
      after `k` bars: nothing in them depends on later data. */
  lemma {:induction false} NoLookAhead(u: Setup, v: Setup, k: nat)
    requires u.start == v.start && u.start + k <= Length(u) && u.start + k <= Length(v)
    requires AgreeBefore(u, v, u.start + k)
    ensures After(u, k) == After(v, k) && StatsAfter(u, k) == StatsAfter(v, k)
  {
    hide Bar, Observe, MarkEquity, Warmup;
    if k > 0 {
      hide AgreeBefore;
      var i := u.start + k;
      AgreeBeforeAt(u, v, i, i - 1);
      if k > 1 {
        AgreeBeforeAt(u, v, i, i - 2);
      }
      NoLookAhead(u, v, k - 1);
      BarSeesOnlyItself(u, v, k - 1, After(u, k - 1));
    }
  }

  lemma OpenSeesOnlyThePast(u: Setup, v: Setup, k: nat, b: Book)
    requires u.start == v.start && u.start + k + 1 <= Length(u) && u.start + k + 1 <= Length(v)
    requires k > 0 ==> AgreeAt(u, v, u.start + k - 1)
    requires u.market.opens[u.start + k] == v.market.opens[u.start + k]
    ensures Opened(u, k, b) == Opened(v, k, b)
  {
    hide FillAtOpen, Warmup;
  }

  /** The trade made at the open of bar `start + k` depends on that open and on earlier bars
      only: not on that bar's close, z-score, ATR, regime, session mark or dividend. */
  lemma FillUsesOnlyThePast(u: Setup, v: Setup, k: nat)
    requires u.start == v.start && u.start + k + 1 <= Length(u) && u.start + k + 1 <= Length(v)
    requires AgreeBefore(u, v, u.start + k)
    requires u.market.opens[u.start + k] == v.market.opens[u.start + k]
    ensures Opened(u, k, After(u, k)) == Opened(v, k, After(v, k))
  {
    hide Opened, After, StatsAfter, AgreeBefore, AgreeAt, Warmup;
    NoLookAhead(u, v, k);
    if k > 0 {
      AgreeBeforeAt(u, v, u.start + k, u.start + k - 1);
    }
    OpenSeesOnlyThePast(u, v, k, After(u, k));
  }
}
