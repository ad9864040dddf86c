/**
  The mean-reversion backtest kernel (src/backtest/vectorized_mr.py): the bar-by-bar state
  machine, and the two loops that run it, one for a shared horizon and one for separate
  long and short horizons. Prices and cash are reals; the square root is a parameter.
 */
module Kernel {
  import opened Reals
  import opened Metrics

  // ---------- inputs ----------

  /** Action codes of src/math/indicators.py; Hold is code 0, nothing pending. */
  datatype Action = Hold | Long | Short | Exit

  datatype Exec = Exec(
    slippage: real, maxRisk: real, maxPosition: real, initialEquity: real, borrowFee: real,
    shortMultiplier: real, marginInitial: real, marginMaint: real, liquidationMultiplier: real)

  datatype Strategy = Strategy(longTh: real, shortTh: real, exitSigma: real, maxBars: int)

  datatype Market = Market(
    opens: seq<real>, closes: seq<real>, regime: seq<int>, atr: seq<real>,
    session: seq<int>, dividend: seq<real>)

  /** The z-scores a simulator reads and the SMA periods behind them: one series for both
      legs, or one per leg. */
  datatype Rule =
    | Coupled(z: seq<real>, period: nat)
    | Decoupled(zLong: seq<real>, zShort: seq<real>, longPeriod: nat, shortPeriod: nat)

  datatype Setup = Setup(exec: Exec, strategy: Strategy, rule: Rule, market: Market, start: nat)

  /** How many bars every series has. */
  function Length(u: Setup): (n: nat)
    ensures n <= |u.market.opens| && n <= |u.market.closes| && n <= |u.market.regime|
    ensures n <= |u.market.atr| && n <= |u.market.session| && n <= |u.market.dividend|
    ensures match u.rule
            case Coupled(z, _) => n <= |z|
            case Decoupled(zl, zs, _, _) => n <= |zl| && n <= |zs|
  {
    var m := u.market;
    var scores := match u.rule case Coupled(z, _) => |z| case Decoupled(zl, zs, _, _) => Least(|zl|, |zs|);
    Least(scores, Least(Least(|m.opens|, |m.closes|), Least(Least(|m.regime|, |m.atr|), Least(|m.session|, |m.dividend|))))
  }

  /** No signal is read before the longest SMA is defined. */
  function Warmup(u: Setup): nat {
    match u.rule
    case Coupled(_, period) => period
    case Decoupled(_, _, long, short) => if short > long then short else long
  }

  function Least(a: nat, b: nat): nat { if b < a then b else a }

  const TRADING_DAYS: real := 252.0

  function Abs(x: real): real { if x < 0.0 then -x else x }

  function Min(x: real, y: real): real { if y < x then y else x }

  // ---------- sizing, marking, covering ----------

  /** Shares a budget pays for at so much a share. */
  function PaysFor(budget: real, each: real): real
    requires each > 0.0
  {
    budget / each
  }

  /** int() of a share count, or nothing below one share. */
  function WholeShares(shares: real): int { if shares < 1.0 then 0 else shares.Floor }

  function SizeShares(equity: real, cash: real, atr: real, price: real, maxRisk: real, maxPosition: real): int {
    if atr <= 0.0 || price <= 0.0 || equity <= 0.0 then 0
    else WholeShares(Min(Min(PaysFor(equity * maxRisk, atr), PaysFor(cash, price)), PaysFor(equity * maxPosition, price)))
  }

  /** The tightest of the three limits on a short, before it is scaled down. */
  function ShortCap(equity: real, atr: real, price: real, maxRisk: real, maxPosition: real, margin: real): real
    requires atr > 0.0 && price > 0.0 && margin > 0.0
  {
    Min(Min(PaysFor(equity * maxRisk, atr), PaysFor(equity * maxPosition, price)),
        PaysFor(equity, MarginPerShare(price, margin)))
  }

  function Scaled(shares: real, multiplier: real): real { shares * multiplier }

  function SizeSharesShort(equity: real, atr: real, price: real, maxRisk: real, maxPosition: real, margin: real,
                           multiplier: real): int
  {
    if atr <= 0.0 || price <= 0.0 || equity <= 0.0 || margin <= 0.0 then 0
    else WholeShares(Scaled(ShortCap(equity, atr, price, maxRisk, maxPosition, margin), multiplier))
  }

  function MarginPerShare(price: real, margin: real): (r: real)
    requires price > 0.0 && margin > 0.0
    ensures r > 0.0
  {
    price * margin
  }

  function MarkEquity(cash: real, qty: real, mark: real): real { cash + qty * mark }

  function BorrowFee(qty: real, mark: real, annual: real): real {
    if qty >= 0.0 then 0.0 else Abs(qty) * mark * (annual / TRADING_DAYS)
  }

  function ApplyBorrowFee(cash: real, qty: real, mark: real, annual: real): real {
    if qty >= 0.0 then cash else cash - Abs(qty) * mark * (annual / TRADING_DAYS)
  }

  // ---------- the book ----------

  datatype Book = Book(
    cash: real, qty: real, bars: nat, pending: Action,
    fills: nat, win: real, loss: real, cost: real)

  function Gain(pnl: real): real { if pnl > 0.0 then pnl else 0.0 }

  function CoverPrice(raw: real, slippage: real, multiplier: real): real { raw + raw * slippage * multiplier }

  function CoverShort(b: Book, raw: real, slippage: real, multiplier: real): Book {
    var paid := CoverPrice(raw, slippage, multiplier) * Abs(b.qty);
    b.(cash := b.cash - paid, qty := 0.0, cost := 0.0, fills := b.fills + 1,
       win := b.win + Gain(b.cost - paid), loss := b.loss + Gain(-(b.cost - paid)))
  }

  function SellLong(b: Book, price: real): Book {
    var proceeds := price * b.qty;
    b.(cash := b.cash + proceeds, qty := 0.0, cost := 0.0, fills := b.fills + 1,
       win := b.win + Gain(proceeds - b.cost), loss := b.loss + Gain(-(proceeds - b.cost)))
  }

  function EnterLong(b: Book, price: real, n: int): Book {
    if n <= 0 then b
    else
      var paid := price * n as real;
      b.(cash := b.cash - paid, qty := n as real, cost := paid, fills := b.fills + 1)
  }

  function EnterShort(b: Book, price: real, n: int): Book {
    if n <= 0 then b
    else
      var proceeds := price * n as real;
      b.(cash := b.cash + proceeds, qty := -(n as real), cost := proceeds, fills := b.fills + 1)
  }

  function LongShares(x: Exec, b: Book, close: real, atr: real, price: real): int {
    SizeShares(MarkEquity(b.cash, b.qty, close), b.cash, atr, price, x.maxRisk, x.maxPosition)
  }

  function ShortShares(x: Exec, b: Book, close: real, atr: real, price: real): int {
    SizeSharesShort(MarkEquity(b.cash, b.qty, close), atr, price, x.maxRisk, x.maxPosition, x.marginInitial, x.shortMultiplier)
  }

  /** The price paid to buy, and received to sell, at an open of `raw`. */
  function Ask(raw: real, slippage: real): real { raw + raw * slippage }
  function Bid(raw: real, slippage: real): real { raw - raw * slippage }

  /** The open of a bar: whatever the previous close left pending is filled or dropped.
      `close` and `atr` are those of the bar before. */
  function FillAtOpen(x: Exec, raw: real, close: real, atr: real, b: Book): Book {
    var idle := b.(pending := Hold);
    match b.pending
    case Hold => b
    case Long =>
      var price := Ask(raw, x.slippage);
      if b.qty == 0.0 then EnterLong(idle, price, LongShares(x, b, close, atr, price)) else idle
    case Short =>
      var price := Bid(raw, x.slippage);
      if b.qty == 0.0 then EnterShort(idle, price, ShortShares(x, b, close, atr, price)) else idle
    case Exit =>
      if b.qty > 0.0 then SellLong(idle, Bid(raw, x.slippage))
      else if b.qty < 0.0 then CoverShort(idle, raw, x.slippage, 1.0)
      else idle
  }

  /** Borrow fee owed by a short held into bar `i` when a session starts there. */
  function BorrowDue(u: Setup, k: nat, qty: real): real
    requires u.start + k + 1 <= Length(u)
  {
    var i := u.start + k;
    if k > 0 && u.market.session[i] == 1 && qty < 0.0
    then BorrowFee(qty, u.market.closes[i - 1], u.exec.borrowFee) else 0.0
  }

  /** Dividend a short owes on an ex-date. */
  function DividendDue(u: Setup, k: nat, qty: real): real
    requires u.start + k + 1 <= Length(u)
  {
    var i := u.start + k;
    if qty < 0.0 && u.market.dividend[i] > 0.0 then Abs(qty) * u.market.dividend[i] else 0.0
  }

  /** The book after the open of local bar `k`. */
  function Opened(u: Setup, k: nat, b: Book): Book
    requires u.start + k + 1 <= Length(u)
  {
    var i := u.start + k;
    if k == 0 then b
    else FillAtOpen(u.exec, u.market.opens[i], u.market.closes[i - 1], u.market.atr[i - 1], b)
  }

  /** Carry is paid and the holding period counted. */
  function Carried(u: Setup, k: nat, b: Book): Book
    requires u.start + k + 1 <= Length(u)
  {
    b.(cash := b.cash - BorrowDue(u, k, b.qty) - DividendDue(u, k, b.qty),
       bars := if b.qty != 0.0 then b.bars + 1 else 0)
  }

  predicate Breached(x: Exec, b: Book, mark: real) {
    b.qty < 0.0 && MarkEquity(b.cash, b.qty, mark) < Abs(b.qty) * mark * x.marginMaint
  }

  /** A short below its maintenance margin is covered at the close, at penal slippage. */
  function Margined(x: Exec, b: Book, mark: real): Book {
    if Breached(x, b, mark)
    then CoverShort(b, mark, x.slippage, x.liquidationMultiplier).(bars := 0)
    else b
  }

  /** The entry or exit the z-scores of bar `i` ask for. */
  function Decide(s: Strategy, rule: Rule, regime: int, i: nat, qty: real): Action
    requires match rule case Coupled(z, _) => i < |z| case Decoupled(zl, zs, _, _) => i < |zl| && i < |zs|
  {
    match rule
    case Coupled(z, _) =>
      if qty == 0.0 && z[i] < -s.longTh && regime == 1 then Long
      else if qty == 0.0 && z[i] > s.shortTh then Short
      else if qty != 0.0 && Abs(z[i]) < s.exitSigma then Exit
      else Hold
    case Decoupled(zl, zs, _, _) =>
      if qty == 0.0 && zl[i] < -s.longTh && regime == 1 then Long
      else if qty == 0.0 && zs[i] > s.shortTh then Short
      else if qty > 0.0 && Abs(zl[i]) < s.exitSigma then Exit
      else if qty < 0.0 && Abs(zs[i]) < s.exitSigma then Exit
      else Hold
  }

  /** The close of local bar `k` decides what the next open will fill. */
  function Signalled(u: Setup, k: nat, b: Book, liquidated: bool): Book
    requires u.start + k + 1 <= Length(u)
  {
    var i := u.start + k;
    if k < Warmup(u) - 1 || b.pending != Hold || liquidated then b
    else if b.qty != 0.0 && b.bars >= u.strategy.maxBars then b.(pending := Exit)
    else b.(pending := Decide(u.strategy, u.rule, u.market.regime[i], i, b.qty))
  }

  function BeforeClose(u: Setup, k: nat, b: Book): Book
    requires u.start + k + 1 <= Length(u)
  {
    Carried(u, k, Opened(u, k, b))
  }

  /** One whole bar. */
  function Bar(u: Setup, k: nat, b: Book): Book
    requires u.start + k + 1 <= Length(u)
  {
    var held := BeforeClose(u, k, b);
    var mark := u.market.closes[u.start + k];
    Signalled(u, k, Margined(u.exec, held, mark), Breached(u.exec, held, mark))
  }

  function Opening(x: Exec): Book { Book(x.initialEquity, 0.0, 0, Hold, 0, 0.0, 0.0, 0.0) }

  /** The book after the first `k` bars. */
  function After(u: Setup, k: nat): Book
    requires u.start + k <= Length(u)
  {
    if k == 0 then Opening(u.exec) else Bar(u, k - 1, After(u, k - 1))
  }

  // ---------- statistics along the way ----------

  datatype Stats = Stats(
    peak: real, maxDd: real, retSum: real, retSqSum: real, retCount: nat, prevEquity: real)

  function Observe(t: Stats, first: bool, equity: real): Stats {
    var peak := Max(t.peak, equity);
    var dd := Max(t.maxDd, Drop(peak, equity));
    if !first && t.prevEquity > 0.0 then
      var r := (equity - t.prevEquity) / t.prevEquity;
      Stats(peak, dd, t.retSum + r, t.retSqSum + r * r, t.retCount + 1, equity)
    else Stats(peak, dd, t.retSum, t.retSqSum, t.retCount, equity)
  }

  /** Marked equity at the close of local bar `k`. */
  function EquityAt(u: Setup, k: nat): real
    requires u.start + k + 1 <= Length(u)
  {
    var b := After(u, k + 1);
    MarkEquity(b.cash, b.qty, u.market.closes[u.start + k])
  }

  function StatsAfter(u: Setup, k: nat): Stats
    requires u.start + k <= Length(u)
  {
    if k == 0 then Stats(u.exec.initialEquity, 0.0, 0.0, 0.0, 0, u.exec.initialEquity)
    else Observe(StatsAfter(u, k - 1), k - 1 == 0, EquityAt(u, k - 1))
  }

  /** The side a fill entered, if it entered one. */
  function Entered(before: Book, after: Book): Action {
    if before.qty != 0.0 then Hold
    else if after.qty > 0.0 then Long
    else if after.qty < 0.0 then Short
    else Hold
  }

  /** Entries on `side` filled in the first `k` bars. */
  function Entries(u: Setup, k: nat, side: Action): nat
    requires u.start + k <= Length(u)
  {
    if k == 0 then 0
    else
      var before := After(u, k - 1);
      Entries(u, k - 1, side) + (if Entered(before, Opened(u, k - 1, before)) == side then 1 else 0)
  }

  // ---------- the report ----------

  datatype Report = Report(totalReturn: real, sharpe: real, maxDd: real, fills: nat, profitFactor: real)

  const Nothing := Report(0.0, 0.0, 0.0, 0, 0.0)

  function TotalReturn(start: real, end: real): real {
    if start > 0.0 then (end - start) / start else 0.0
  }

  function MeanReturn(sum: real, count: nat): real
    requires count > 0
  {
    sum / count as real
  }

  /** Mean of squares less squared mean, clamped at zero. */
  function ReturnVariance(sum: real, sumSq: real, count: nat): real
    requires count > 0
  {
    var mean := sum / count as real;
    var raw := sumSq / count as real - mean * mean;
    if raw < 0.0 then 0.0 else raw
  }

  function Sharpe(t: Stats, root: real -> real, annualize: real): real {
    if t.retCount > 1 then
      Annualized(MeanReturn(t.retSum, t.retCount), root(ReturnVariance(t.retSum, t.retSqSum, t.retCount)), annualize)
    else 0.0
  }

  function Annualized(mean: real, std: real, annualize: real): real {
    if std > 0.0 then mean / std * annualize else 0.0
  }

  function ProfitFactor(win: real, loss: real): real {
    if loss > 0.0 then win / loss else if win > 0.0 then 1000000000.0 else 0.0
  }

  function Summary(initial: real, b: Book, t: Stats, close: real, root: real -> real, annualize: real): Report {
    Report(TotalReturn(initial, MarkEquity(b.cash, b.qty, close)), Sharpe(t, root, annualize),
           t.maxDd, b.fills, ProfitFactor(b.win, b.loss))
  }

  /** What a simulator reports for `n` bars. */
  function Reported(u: Setup, n: nat, root: real -> real, annualize: real): Report
    requires u.start + n <= Length(u)
  {
    if n < Warmup(u) + 2 then Nothing
    else
      Summary(u.exec.initialEquity, After(u, n), StatsAfter(u, n), u.market.closes[u.start + n - 1], root, annualize)
  }

  function ReportedEntries(u: Setup, n: nat, side: Action): nat
    requires u.start + n <= Length(u)
  {
    if n < Warmup(u) + 2 then 0 else Entries(u, n, side)
  }

  // ---------- one bar, step by step ----------

  /** The open of a bar: fills the pending action; `entry` is the side entered, if any. */
  method FillPending(x: Exec, raw: real, close: real, atr: real, b: Book) returns (r: Book, entry: Action)
    ensures r == FillAtOpen(x, raw, close, atr, b)
    ensures entry == Entered(b, r)
  {
    r, entry := b.(pending := Hold), Hold;
    if b.pending == Long && b.qty == 0.0 {
      var price := Ask(raw, x.slippage);
      var n := LongShares(x, b, close, atr, price);
      if n > 0 {
        r := EnterLong(r, price, n);
        entry := Long;
      }
    } else if b.pending == Short && b.qty == 0.0 {
      var price := Bid(raw, x.slippage);
      var n := ShortShares(x, b, close, atr, price);
      if n > 0 {
        r := EnterShort(r, price, n);
        entry := Short;
      }
    } else if b.pending == Exit {
      if b.qty > 0.0 {
        r := CloseLong(r, Bid(raw, x.slippage));
      } else if b.qty < 0.0 {
        r := CoverShort(r, raw, x.slippage, 1.0);
      }
    }
  }

  method CloseLong(b: Book, price: real) returns (r: Book)
    ensures r == SellLong(b, price)
  {
    var proceeds := price * b.qty;
    var pnl := proceeds - b.cost;
    r := b;
    if pnl > 0.0 {
      r := r.(win := r.win + pnl);
    } else if pnl < 0.0 {
      r := r.(loss := r.loss - pnl);
    }
    r := r.(cash := r.cash + proceeds, qty := 0.0, cost := 0.0, fills := r.fills + 1);
  }

  /** Overnight borrow fee, ex-date dividend, and the holding-period counter. */
  method PayCarry(u: Setup, k: nat, b: Book) returns (r: Book)
    requires u.start + k + 1 <= Length(u)
    ensures r == Carried(u, k, b)
  {
    var i := u.start + k;
    var cash, bars := b.cash, b.bars;
    if k > 0 && u.market.session[i] == 1 && b.qty < 0.0 {
      cash := ApplyBorrowFee(cash, b.qty, u.market.closes[i - 1], u.exec.borrowFee);
    }
    if b.qty < 0.0 && u.market.dividend[i] > 0.0 {
      cash := cash - Abs(b.qty) * u.market.dividend[i];
    }
    if b.qty != 0.0 {
      bars := bars + 1;
    } else {
      bars := 0;
    }
    r := b.(cash := cash, bars := bars);
  }

  /** The maintenance check at the close, with the equity it leaves. */
  method MarginCall(x: Exec, b: Book, mark: real) returns (r: Book, equity: real, liquidated: bool)
    ensures r == Margined(x, b, mark) && equity == r.cash + r.qty * mark
    ensures liquidated <==> b.qty < 0.0 && b.cash + b.qty * mark < -b.qty * mark * x.marginMaint
    ensures liquidated == Breached(x, b, mark)
  {
    r, equity, liquidated := b, MarkEquity(b.cash, b.qty, mark), false;
    if b.qty < 0.0 {
      var required := Abs(b.qty) * mark * x.marginMaint;
      if equity < required {
        r := CoverShort(b, mark, x.slippage, x.liquidationMultiplier).(bars := 0);
        equity := MarkEquity(r.cash, r.qty, mark);
        liquidated := true;
      }
    }
  }

  /** Signals from one shared z-score series. */
  method Scan(u: Setup, k: nat, b: Book, liquidated: bool) returns (r: Book)
    requires u.start + k + 1 <= Length(u) && u.rule.Coupled?
    ensures r == Signalled(u, k, b, liquidated)
  {
    var i, s := u.start + k, u.strategy;
    r := b;
    if k >= Warmup(u) - 1 && b.pending == Hold && !liquidated {
      if b.qty != 0.0 && b.bars >= s.maxBars {
        r := b.(pending := Exit);
      } else {
        var z := u.rule.z[i];
        if b.qty == 0.0 && z < -s.longTh && u.market.regime[i] == 1 {
          r := b.(pending := Long);
        } else if b.qty == 0.0 && z > s.shortTh {
          r := b.(pending := Short);
        } else if b.qty != 0.0 && Abs(z) < s.exitSigma {
          r := b.(pending := Exit);
        }
      }
    }
  }

  /** Signals from one z-score series per leg; an open leg exits on its own series. */
  method ScanDecoupled(u: Setup, k: nat, b: Book, liquidated: bool) returns (r: Book)
    requires u.start + k + 1 <= Length(u) && u.rule.Decoupled?
    ensures r == Signalled(u, k, b, liquidated)
  {
    var i, s := u.start + k, u.strategy;
    r := b;
    if k >= Warmup(u) - 1 && b.pending == Hold && !liquidated {
      if b.qty != 0.0 && b.bars >= s.maxBars {
        r := b.(pending := Exit);
      } else {
        var zl, zs := u.rule.zLong[i], u.rule.zShort[i];
        if b.qty == 0.0 && zl < -s.longTh && u.market.regime[i] == 1 {
          r := b.(pending := Long);
        } else if b.qty == 0.0 && zs > s.shortTh {
          r := b.(pending := Short);
        } else if b.qty > 0.0 && Abs(zl) < s.exitSigma {
          r := b.(pending := Exit);
        } else if b.qty < 0.0 && Abs(zs) < s.exitSigma {
          r := b.(pending := Exit);
        }
      }
    }
  }

  /** Peak, drawdown and return statistics of one more equity mark. */
  method Track(t: Stats, first: bool, equity: real) returns (r: Stats)
    requires t.maxDd >= 0.0
    ensures r == Observe(t, first, equity) && r.maxDd >= 0.0
  {
    r := t;
    if equity > r.peak {
      r := r.(peak := equity);
    }
    if r.peak > 0.0 {
      var dd := (r.peak - equity) / r.peak;
      if dd > r.maxDd {
        r := r.(maxDd := dd);
      }
    }
    if !first && r.prevEquity > 0.0 {
      var ret := (equity - r.prevEquity) / r.prevEquity;
      r := r.(retSum := r.retSum + ret, retSqSum := r.retSqSum + ret * ret, retCount := r.retCount + 1);
    }
    r := r.(prevEquity := equity);
  }

  method OpenAndCarry(u: Setup, k: nat, b: Book) returns (r: Book, entry: Action)
    requires u.start + k + 1 <= Length(u)
    requires k == 0 ==> b.pending == Hold
    ensures r == BeforeClose(u, k, b)
    ensures entry == Entered(b, Opened(u, k, b))
  {
    var i := u.start + k;
    r, entry := b, Hold;
    if k > 0 && b.pending != Hold {
      r, entry := FillPending(u.exec, u.market.opens[i], u.market.closes[i - 1], u.market.atr[i - 1], b);
    }
    r := PayCarry(u, k, r);
  }

  /** Local bar `k` with one shared horizon. */
  method RunBar(u: Setup, k: nat, b: Book) returns (r: Book, equity: real)
    requires u.start + k + 1 <= Length(u) && u.rule.Coupled?
    requires k == 0 ==> b.pending == Hold
    ensures r == Bar(u, k, b) && equity == MarkEquity(r.cash, r.qty, u.market.closes[u.start + k])
  {
    var entry, liquidated;
    r, entry := OpenAndCarry(u, k, b);
    r, equity, liquidated := MarginCall(u.exec, r, u.market.closes[u.start + k]);
    r := Scan(u, k, r, liquidated);
  }

  /** Local bar `k` with separate horizons. */
  method RunBarDecoupled(u: Setup, k: nat, b: Book) returns (r: Book, equity: real, entry: Action)
    requires u.start + k + 1 <= Length(u) && u.rule.Decoupled?
    requires k == 0 ==> b.pending == Hold
    ensures r == Bar(u, k, b) && equity == MarkEquity(r.cash, r.qty, u.market.closes[u.start + k])
    ensures entry == Entered(b, Opened(u, k, b))
  {
    var liquidated;
    r, entry := OpenAndCarry(u, k, b);
    r, equity, liquidated := MarginCall(u.exec, r, u.market.closes[u.start + k]);
    r := ScanDecoupled(u, k, r, liquidated);
  }

  // ---------- the two loops ----------

  /** One horizon for both legs. */
  method SimulateSlice(u: Setup, root: real -> real, annualize: real, end: nat) returns (report: Report)
    requires u.rule.Coupled? && u.start <= end <= Length(u)
    ensures report == Reported(u, end - u.start, root, annualize)
  {
    hide Bar, Opened;
    var n := end - u.start;
    if n < Warmup(u) + 2 {
      return Nothing;
    }
    var initial := u.exec.initialEquity;
    var b, t := Opening(u.exec), Stats(initial, 0.0, 0.0, 0.0, 0, initial);
    for k := 0 to n
      invariant b == After(u, k)
      invariant t == StatsAfter(u, k) && t.maxDd >= 0.0
    {
      var equity;
      b, equity := RunBar(u, k, b);
      t := Track(t, k == 0, equity);
    }
    report := Summary(initial, b, t, u.market.closes[end - 1], root, annualize);
  }

  /** Separate horizons: also reports how many long and short entries were filled. */
  method SimulateSliceDecoupled(u: Setup, root: real -> real, annualize: real, end: nat)
    returns (report: Report, longs: nat, shorts: nat)
    requires u.rule.Decoupled? && u.start <= end <= Length(u)
    ensures report == Reported(u, end - u.start, root, annualize)
    ensures longs == ReportedEntries(u, end - u.start, Long)
    ensures shorts == ReportedEntries(u, end - u.start, Short)
  {
    hide Bar, Opened;
    var n := end - u.start;
    var warmup := u.rule.longPeriod;
    if u.rule.shortPeriod > warmup {
      warmup := u.rule.shortPeriod;
    }
    longs, shorts := 0, 0;
    if n < warmup + 2 {
      return Nothing, 0, 0;
    }
    var initial := u.exec.initialEquity;
    var b, t := Opening(u.exec), Stats(initial, 0.0, 0.0, 0.0, 0, initial);
    for k := 0 to n
      invariant b == After(u, k)
      invariant t == StatsAfter(u, k) && t.maxDd >= 0.0
      invariant longs == Entries(u, k, Long) && shorts == Entries(u, k, Short)
    {
      var equity, entry;
      b, equity, entry := RunBarDecoupled(u, k, b);
      if entry == Long {
        longs := longs + 1;
      } else if entry == Short {
        shorts := shorts + 1;
      }
      t := Track(t, k == 0, equity);
    }
    report := Summary(initial, b, t, u.market.closes[end - 1], root, annualize);
  }
}
