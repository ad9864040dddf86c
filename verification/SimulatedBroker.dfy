/**
  The backtest broker (src/broker/simulated.py): immediate fills against cash and
  whole-share positions, all marked at one price.
 */
module SimulatedBroker {
  import opened Reals

  datatype Position = Position(qty: real, isLong: bool, avg: real)

  datatype Order = Order(symbol: string, buy: bool, qty: real)

  datatype Fill = Fill(symbol: string, buy: bool, qty: real, price: real)

  type Positions = map<string, Position>

  const SHORT_MARGIN_INITIAL: real := 0.5

  /** Truncation toward zero, as int() does. */
  function Trunc(x: real): int { if x >= 0.0 then x.Floor else -((-x).Floor) }

  predicate Whole(q: real) { q > 0.0 && q == q.Floor as real }

  /** Every position is a positive whole number of shares. */
  predicate WholeShares(m: Positions) { forall s :: s in m ==> Whole(m[s].qty) }

  function Signed(p: Position): real { if p.isLong then p.qty else -p.qty }

  /** Some symbol held. */
  ghost function Pick(m: Positions): (s: string)
    requires |m| > 0
    ensures s in m
  {
    var s :| s in m;
    s
  }

  /** Net shares held, shorts counted negatively. */
  ghost function Net(m: Positions): real {
    if |m| == 0 then 0.0 else Signed(m[Pick(m)]) + Net(m - {Pick(m)})
  }

  /** Shares held on either side. */
  ghost function Gross(m: Positions): real {
    if |m| == 0 then 0.0 else m[Pick(m)].qty + Gross(m - {Pick(m)})
  }

  lemma Swap(m: Positions, s: string, t: string)
    requires s in m && t in m && s != t
    ensures m - {t} - {s} == m - {s} - {t} && |m - {t}| < |m| && |m - {s}| < |m| && |m| > 0
  {
    assert m.Keys - {t} == (m - {t}).Keys && m.Keys - {s} == (m - {s}).Keys;
  }

  /** The sums do not depend on the order positions are taken in. */
  lemma {:induction false} NetWithout(m: Positions, s: string)
    requires s in m
    ensures Net(m) == Signed(m[s]) + Net(m - {s})
    decreases |m|
  {
    assert m.Keys != {};
    var t := Pick(m);
    if t != s {
      Swap(m, s, t);
      NetWithout(m - {t}, s);
      NetWithout(m - {s}, t);
    }
  }

  lemma {:induction false} GrossWithout(m: Positions, s: string)
    requires s in m
    ensures Gross(m) == m[s].qty + Gross(m - {s})
    decreases |m|
  {
    assert m.Keys != {};
    var t := Pick(m);
    if t != s {
      Swap(m, s, t);
      GrossWithout(m - {t}, s);
      GrossWithout(m - {s}, t);
    }
  }

  function Held(m: Positions, s: string): real { if s in m then Signed(m[s]) else 0.0 }

  lemma NetAfter(m: Positions, s: string, p: Position)
    ensures Net(m[s := p]) == Net(m) - Held(m, s) + Signed(p)
    ensures Net(m - {s}) == Net(m) - Held(m, s)
  {
    hide Net;
    NetWithout(m[s := p], s);
    assert m[s := p] - {s} == m - {s};
    if s in m {
      NetWithout(m, s);
    } else {
      assert m - {s} == m;
    }
  }

  /** Shares traded by a list of fills. */
  function Traded(fills: seq<Fill>): real {
    if |fills| == 0 then 0.0 else Traded(fills[..|fills| - 1]) + fills[|fills| - 1].qty
  }

  lemma TradedAppend(fills: seq<Fill>, f: Fill)
    ensures Traded(fills + [f]) == Traded(fills) + f.qty
  {
    assert (fills + [f])[..|fills|] == fills;
  }

  lemma NothingTraded(scale: real)
    ensures scale * Traded([]) == 0.0
  {
  }

  // ---------- sizes ----------

  function Least(a: int, b: int): int { if b < a then b else a }

  function Shares(n: int): real { if n <= 0 then 0.0 else n as real }

  /** Shares a buy opens: truncated, and clipped by cash. */
  function LongFill(cash: real, qty: real, price: real): real {
    if price <= 0.0 then 0.0 else Shares(Least(Trunc(qty), Trunc(cash / price)))
  }

  /** Shares a sale shorts: truncated, and clipped by initial margin. */
  function ShortFill(cash: real, qty: real, price: real): real {
    if price <= 0.0 then 0.0 else Shares(Least(Trunc(qty), Trunc(cash / (price * SHORT_MARGIN_INITIAL))))
  }

  /** Shares a close takes off a position. */
  function CloseFill(qty: real, held: real): real { Shares(Least(Trunc(qty), Trunc(held))) }

  lemma TruncOfWhole(q: real)
    requires Whole(q)
    ensures Trunc(q) as real == q
  {
  }

  lemma Affordable(cash: real, price: real, n: int)
    requires price > 0.0 && 0 < n <= Trunc(cash / price)
    ensures price * n as real <= cash
  {
    var most := cash / price;
    assert most * price == cash;
    assert n as real <= most;
    Scale(n as real, most, price);
  }

  /** A buy never spends more than the cash there is, and a short never needs more margin. */
  lemma FillsAreCovered(cash: real, qty: real, price: real)
    ensures LongFill(cash, qty, price) > 0.0 ==> price * LongFill(cash, qty, price) <= cash
    ensures ShortFill(cash, qty, price) > 0.0 ==>
      price * SHORT_MARGIN_INITIAL * ShortFill(cash, qty, price) <= cash
  {
    var n := Least(Trunc(qty), if price <= 0.0 then 0 else Trunc(cash / price));
    if price > 0.0 && n > 0 {
      Affordable(cash, price, n);
    }
    var margin := price * SHORT_MARGIN_INITIAL;
    var k := Least(Trunc(qty), if price <= 0.0 then 0 else Trunc(cash / margin));
    if price > 0.0 && k > 0 {
      Affordable(cash, margin, k);
    }
  }

  lemma TruncAtLeast(x: real, k: int)
    requires k >= 1
    ensures k <= Trunc(x) <==> k as real <= x
  {
  }

  lemma PaidFor(cash: real, price: real, k: int)
    requires price > 0.0 && k >= 1
    ensures k <= Trunc(cash / price) <==> price * k as real <= cash
  {
    TruncAtLeast(cash / price, k);
    var most := cash / price;
    assert most * price == cash;
    if k as real <= most {
      Scale(k as real, most, price);
    } else {
      assert (k as real - most) * price > 0.0;
    }
  }

  /** Every fill is the largest whole one allowed: `k` shares are bought iff the order asks for
      them and the cash pays for them, shorted iff the order asks for them and the cash covers
      half their value, and closed iff the order asks for them and they are held. */
  lemma FillsAreLargest(cash: real, qty: real, price: real, held: real, k: int)
    requires k >= 1
    ensures k as real <= LongFill(cash, qty, price) <==> price > 0.0 && k as real <= qty && price * k as real <= cash
    ensures k as real <= ShortFill(cash, qty, price) <==> price > 0.0 && k as real <= qty && price * 0.5 * k as real <= cash
    ensures k as real <= CloseFill(qty, held) <==> k as real <= qty && k as real <= held
  {
    hide Trunc;
    TruncAtLeast(qty, k);
    TruncAtLeast(held, k);
    if price > 0.0 {
      PaidFor(cash, price, k);
      PaidFor(cash, price * SHORT_MARGIN_INITIAL, k);
    }
  }

  // ---------- what an order does to an account ----------

  datatype Account = Account(cash: real, positions: Positions)

  function PriceOf(buy: bool, raw: real, rate: real): real { if buy then raw + raw * rate else raw - raw * rate }

  predicate OnSide(m: Positions, symbol: string, isLong: bool) { symbol in m && m[symbol].isLong == isLong }

  function AverageEntry(held: Position, filled: real, price: real): (avg: real)
    requires held.qty + filled > 0.0
    ensures avg * (held.qty + filled) == held.avg * held.qty + price * filled
  {
    (held.avg * held.qty + price * filled) / (held.qty + filled)
  }

  /** More shares on one side of a symbol, at the average price of both lots. Shares held on the
      other side are overwritten. */
  function Added(m: Positions, symbol: string, isLong: bool, filled: real, price: real): (m': Positions)
    requires WholeShares(m) && Whole(filled)
  {
    if OnSide(m, symbol, isLong) then
      var held := m[symbol];
      m[symbol := Position(held.qty + filled, isLong, AverageEntry(held, filled, price))]
    else m[symbol := Position(filled, isLong, price)]
  }

  /** Shares come off a position, which disappears when none are left. */
  function TakenOff(m: Positions, symbol: string, filled: real): Positions
    requires symbol in m
  {
    if m[symbol].qty - filled <= 0.0 then m - {symbol}
    else m[symbol := m[symbol].(qty := m[symbol].qty - filled)]
  }

  /** An order against the shares held closes; any other opens or adds. */
  predicate Closes(m: Positions, o: Order) { OnSide(m, o.symbol, !o.buy) }

  /** What one order fills, from the account it meets. */
  function Expected(a: Account, o: Order, price: real): (n: real)
    ensures n >= 0.0
  {
    if Closes(a.positions, o) then CloseFill(o.qty, a.positions[o.symbol].qty)
    else if o.buy then LongFill(a.cash, o.qty, price)
    else ShortFill(a.cash, o.qty, price)
  }

  /** What an order fills, by what is held of its symbol: it closes what is held against it, and
      only then, and otherwise opens or adds on its own side. */
  lemma OrderFillsInTerms(a: Account, o: Order, price: real, k: int)
    requires k >= 1
    ensures k as real <= Expected(a, o, price) <==>
      k as real <= o.qty
      && if o.symbol in a.positions && a.positions[o.symbol].isLong != o.buy then k as real <= a.positions[o.symbol].qty
         else price > 0.0 && (if o.buy then price else price * 0.5) * k as real <= a.cash
  {
    hide LongFill, ShortFill, CloseFill;
    FillsAreLargest(a.cash, o.qty, price, if o.symbol in a.positions then a.positions[o.symbol].qty else 0.0, k);
  }

  lemma FillsAreWhole(a: Account, o: Order, price: real)
    ensures var n := Expected(a, o, price); n > 0.0 ==> Whole(n) && n <= o.qty
    ensures Closes(a.positions, o) && WholeShares(a.positions) ==> Expected(a, o, price) <= a.positions[o.symbol].qty
  {
  }

  function AfterOrder(a: Account, o: Order, price: real): (a': Account)
    requires WholeShares(a.positions)
    ensures WholeShares(a'.positions)
  {
    var n := Expected(a, o, price);
    if n <= 0.0 then a
    else
      FillsAreWhole(a, o, price);
      var cash := if o.buy then a.cash - price * n else a.cash + price * n;
      if Closes(a.positions, o) then
        TakingOffStaysWhole(a.positions, o.symbol, n);
        Account(cash, TakenOff(a.positions, o.symbol, n))
      else
        AddingStaysWhole(a.positions, o.symbol, o.buy, n, price);
        Account(cash, Added(a.positions, o.symbol, o.buy, n, price))
  }

  lemma AddingStaysWhole(m: Positions, symbol: string, isLong: bool, filled: real, price: real)
    requires WholeShares(m) && Whole(filled)
    ensures WholeShares(Added(m, symbol, isLong, filled, price))
  {
    if OnSide(m, symbol, isLong) {
      WholeSum(m[symbol].qty, filled);
    }
  }

  lemma TakingOffStaysWhole(m: Positions, symbol: string, filled: real)
    requires WholeShares(m) && symbol in m && Whole(filled)
    ensures WholeShares(TakenOff(m, symbol, filled))
  {
    if m[symbol].qty - filled > 0.0 {
      WholeDifference(m[symbol].qty, filled.Floor);
    }
  }

  /** Only the symbol changes: it holds the old lot of that side and the new one, at their total
      cost. What was held on the other side is gone, and so are its shares. */
  lemma AddedKeepsCost(m: Positions, symbol: string, isLong: bool, filled: real, price: real)
    requires WholeShares(m) && Whole(filled)
    ensures var m' := Added(m, symbol, isLong, filled, price);
      var lot := if OnSide(m, symbol, isLong) then m[symbol] else Position(0.0, isLong, 0.0);
      && m' - {symbol} == m - {symbol} && OnSide(m', symbol, isLong)
      && m'[symbol].qty == lot.qty + filled
      && m'[symbol].avg * m'[symbol].qty == lot.avg * lot.qty + price * filled
      && Held(m', symbol) == (if OnSide(m, symbol, isLong) then Held(m, symbol) else 0.0) + (if isLong then filled else -filled)
  {
    NoCash(0.0);
  }

  /** Shares coming off leave the rest of the lot on its side at its old average price, and
      nothing when all of them go. */
  lemma TakenOffKeepsLot(m: Positions, symbol: string, filled: real)
    requires symbol in m && filled <= m[symbol].qty
    ensures var m' := TakenOff(m, symbol, filled);
      && m' - {symbol} == m - {symbol} && (symbol in m' <==> filled < m[symbol].qty)
      && (symbol in m' ==> m'[symbol] == m[symbol].(qty := m[symbol].qty - filled))
  {
  }

  /** Signed shares of a symbol, and cash, that a list of fills moved. */
  function Bought(fills: seq<Fill>, symbol: string): real {
    if |fills| == 0 then 0.0
    else
      var f := fills[|fills| - 1];
      Bought(fills[..|fills| - 1], symbol) + if f.symbol != symbol then 0.0 else if f.buy then f.qty else -f.qty
  }

  function Spent(fills: seq<Fill>): real {
    if |fills| == 0 then 0.0
    else
      var f := fills[|fills| - 1];
      Spent(fills[..|fills| - 1]) + if f.buy then f.price * f.qty else -(f.price * f.qty)
  }

  lemma OrderMovesItsSymbol(a: Account, o: Order, price: real)
    requires WholeShares(a.positions)
    ensures var n := Expected(a, o, price); var a' := AfterOrder(a, o, price);
      && a'.cash == a.cash + (if o.buy then -(price * n) else price * n)
      && Held(a'.positions, o.symbol) == Held(a.positions, o.symbol) + (if o.buy then n else -n)
      && (forall s :: s != o.symbol ==> Held(a'.positions, s) == Held(a.positions, s))
      && Net(a'.positions) == Net(a.positions) + (if o.buy then n else -n)
  {
    hide Net, LongFill, ShortFill, CloseFill, WholeShares, Added, TakenOff;
    var n := Expected(a, o, price);
    FillsAreWhole(a, o, price);
    NoCash(price);
    if n > 0.0 {
      if Closes(a.positions, o) {
        TakenOffIsLess(a.positions, o.symbol, n);
      } else {
        AddedIsMore(a.positions, o.symbol, o.buy, n, price);
      }
    }
  }

  lemma NoCash(price: real)
    ensures price * 0.0 == 0.0
  {
  }

  lemma AddedIsMore(m: Positions, symbol: string, isLong: bool, filled: real, price: real)
    requires WholeShares(m) && Whole(filled)
    ensures var m' := Added(m, symbol, isLong, filled, price);
      var moved := (if isLong then filled else -filled) - (if symbol in m && !OnSide(m, symbol, isLong) then Held(m, symbol) else 0.0);
      && Held(m', symbol) == Held(m, symbol) + moved && Net(m') == Net(m) + moved
      && forall s :: s != symbol ==> Held(m', s) == Held(m, s)
  {
    hide Net;
    NetAfter(m, symbol, Added(m, symbol, isLong, filled, price)[symbol]);
  }

  lemma TakenOffIsLess(m: Positions, symbol: string, filled: real)
    requires symbol in m && filled <= m[symbol].qty
    ensures var m' := TakenOff(m, symbol, filled); var moved := if m[symbol].isLong then -filled else filled;
      && Held(m', symbol) == Held(m, symbol) + moved && Net(m') == Net(m) + moved
      && forall s :: s != symbol ==> Held(m', s) == Held(m, s)
  {
    hide Net;
    NetAfter(m, symbol, m[symbol].(qty := m[symbol].qty - filled));
  }

  /** The account and the fills after a list of orders, in turn. */
  function Filled(a: Account, orders: seq<Order>, raw: real, rate: real): (r: (Account, seq<Fill>))
    requires WholeShares(a.positions)
    ensures WholeShares(r.0.positions)
  {
    if |orders| == 0 then (a, [])
    else
      var (before, fills) := Filled(a, orders[..|orders| - 1], raw, rate);
      var o := orders[|orders| - 1];
      var price := PriceOf(o.buy, raw, rate);
      var n := Expected(before, o, price);
      (AfterOrder(before, o, price), if n > 0.0 then fills + [Fill(o.symbol, o.buy, n, price)] else fills)
  }

  /** Every fill answers an order on its own symbol and side, at the slipped price, and never
      exceeds it. */
  ghost predicate Answer(fills: seq<Fill>, orders: seq<Order>, raw: real, rate: real) {
    forall f :: f in fills ==>
      && Whole(f.qty) && f.price == PriceOf(f.buy, raw, rate)
      && exists o :: o in orders && o.symbol == f.symbol && o.buy == f.buy && f.qty <= o.qty
  }

  lemma AnswersGrow(fills: seq<Fill>, orders: seq<Order>, o: Order, f: Fill, raw: real, rate: real)
    requires Answer(fills, orders, raw, rate)
    ensures Answer(fills, orders + [o], raw, rate)
    ensures Whole(f.qty) && f.price == PriceOf(f.buy, raw, rate) && o.symbol == f.symbol && o.buy == f.buy && f.qty <= o.qty
      ==> Answer(fills + [f], orders + [o], raw, rate)
  {
    hide Whole, PriceOf;
    forall g | g in fills
      ensures exists o' :: o' in orders + [o] && o'.symbol == g.symbol && o'.buy == g.buy && g.qty <= o'.qty
    {
      var o' :| o' in orders && o'.symbol == g.symbol && o'.buy == g.buy && g.qty <= o'.qty;
      assert o' in orders + [o];
    }
    assert o in orders + [o];
  }

  lemma {:induction false} FillsAnswerOrders(a: Account, orders: seq<Order>, raw: real, rate: real)
    requires WholeShares(a.positions)
    ensures Answer(Filled(a, orders, raw, rate).1, orders, raw, rate)
  {
    if |orders| > 0 {
      hide AfterOrder, Expected, Whole, WholeShares, PriceOf, Answer;
      var front, o := orders[..|orders| - 1], orders[|orders| - 1];
      assert orders == front + [o];
      FillsAnswerOrders(a, front, raw, rate);
      var (before, fills) := Filled(a, front, raw, rate);
      var price := PriceOf(o.buy, raw, rate);
      var n := Expected(before, o, price);
      FillsAreWhole(before, o, price);
      AnswersGrow(fills, front, o, Fill(o.symbol, o.buy, n, price), raw, rate);
    } else {
      assert Answer([], [], raw, rate);
    }
  }

  lemma OneMoreFill(fills: seq<Fill>, f: Fill, s: string)
    ensures Spent(fills + [f]) == Spent(fills) + if f.buy then f.price * f.qty else -(f.price * f.qty)
    ensures Bought(fills + [f], s) == Bought(fills, s) + if f.symbol != s then 0.0 else if f.buy then f.qty else -f.qty
  {
    assert (fills + [f])[..|fills|] == fills;
  }

  lemma OrderIsExplained(a: Account, fills: seq<Fill>, o: Order, price: real, s: string)
    requires WholeShares(a.positions)
    ensures var n, a' := Expected(a, o, price), AfterOrder(a, o, price);
      var more := if n > 0.0 then fills + [Fill(o.symbol, o.buy, n, price)] else fills;
      && a'.cash - a.cash == Spent(fills) - Spent(more)
      && Held(a'.positions, s) - Held(a.positions, s) == Bought(more, s) - Bought(fills, s)
  {
    hide AfterOrder, Expected, WholeShares, Held, Bought, Spent, Net;
    OrderMovesItsSymbol(a, o, price);
    NoCash(price);
    OneMoreFill(fills, Fill(o.symbol, o.buy, Expected(a, o, price), price), s);
  }

  lemma {:induction false} FillsExplainSymbol(a: Account, orders: seq<Order>, raw: real, rate: real, s: string)
    requires WholeShares(a.positions)
    ensures var (b, fills) := Filled(a, orders, raw, rate);
      b.cash == a.cash - Spent(fills) && Held(b.positions, s) == Held(a.positions, s) + Bought(fills, s)
  {
    hide AfterOrder, Expected, WholeShares, Held, PriceOf;
    if |orders| > 0 {
      hide Bought, Spent;
      var front, o := orders[..|orders| - 1], orders[|orders| - 1];
      FillsExplainSymbol(a, front, raw, rate, s);
      var (before, fills) := Filled(a, front, raw, rate);
      OrderIsExplained(before, fills, o, PriceOf(o.buy, raw, rate), s);
    }
  }

  /** The fills explain the account: cash by what they cost, each symbol's shares by what they
      bought and sold of it. */
  lemma FillsExplainTheAccount(a: Account, orders: seq<Order>, raw: real, rate: real)
    requires WholeShares(a.positions)
    ensures var (b, fills) := Filled(a, orders, raw, rate);
      && b.cash == a.cash - Spent(fills)
      && forall s :: Held(b.positions, s) == Held(a.positions, s) + Bought(fills, s)
  {
    hide Filled, Held, Bought, Spent, WholeShares;
    var (b, fills) := Filled(a, orders, raw, rate);
    FillsExplainSymbol(a, orders, raw, rate, "");
    forall s ensures Held(b.positions, s) == Held(a.positions, s) + Bought(fills, s) {
      FillsExplainSymbol(a, orders, raw, rate, s);
    }
  }

  // ---------- the broker ----------

  class SimulatedBroker {
    var cash: real
    var equity: real
    const slippage: real
    const takerFee: real
    var positions: Positions
    var fills: seq<Fill>

    constructor (initialEquity: real, slippage: real, takerFee: real)
      ensures cash == equity == initialEquity && positions == map[] && fills == []
      ensures this.slippage == slippage && this.takerFee == takerFee
    {
      cash, equity, positions, fills := initialEquity, initialEquity, map[], [];
      this.slippage, this.takerFee := slippage, takerFee;
    }

    /** Slippage and fee together: a buy pays that much of the raw price on top, a sale receives
        that much less. */
    function Rate(): real { slippage + takerFee }

    function FillPrice(buy: bool, raw: real): real { PriceOf(buy, raw, slippage + takerFee) }

    lemma FillPriceInTerms(raw: real)
      ensures FillPrice(true, raw) == raw + raw * slippage + raw * takerFee
      ensures FillPrice(false, raw) == raw - raw * slippage - raw * takerFee
      ensures FillPrice(true, raw) - raw == raw * Rate() == raw - FillPrice(false, raw)
    {
      Distribute(raw, slippage, takerFee);
    }

    function Now(): Account
      reads this`cash, this`positions
    {
      Account(cash, positions)
    }

    /** Opens or adds to a long, overwriting a short; the average entry price keeps the total
        cost of the long. */
    method OpenLong(symbol: string, qty: real, price: real) returns (filled: real)
      requires WholeShares(positions)
      modifies this`cash, this`positions
      ensures filled >= 0.0 && filled == LongFill(old(cash), qty, price) && WholeShares(positions)
      ensures cash == old(cash) - price * filled && (filled > 0.0 ==> cash >= 0.0)
      ensures filled == 0.0 ==> positions == old(positions)
      ensures filled > 0.0 ==> Whole(filled) && positions == Added(old(positions), symbol, true, filled, price)
    {
      hide Net, Gross, Added;
      filled := 0.0;
      if price <= 0.0 {
        return;
      }
      var affordable := Trunc(cash / price);
      var n := Least(Trunc(qty), affordable);
      if n <= 0 {
        return;
      }
      filled := n as real;
      Affordable(cash, price, n);
      positions := Add(symbol, true, filled, price);
      cash := cash - price * filled;
    }

    /** Opens or adds to a short, overwriting a long; the proceeds are credited at once. */
    method OpenShort(symbol: string, qty: real, price: real) returns (filled: real)
      requires WholeShares(positions)
      modifies this`cash, this`positions
      ensures filled >= 0.0 && filled == ShortFill(old(cash), qty, price) && WholeShares(positions)
      ensures cash == old(cash) + price * filled
      ensures filled == 0.0 ==> positions == old(positions)
      ensures filled > 0.0 ==> Whole(filled) && positions == Added(old(positions), symbol, false, filled, price)
    {
      hide Net, Gross, Added;
      filled := 0.0;
      if price <= 0.0 {
        return;
      }
      var marginPerShare := price * SHORT_MARGIN_INITIAL;
      var affordable := Trunc(cash / marginPerShare);
      var n := Least(Trunc(qty), affordable);
      if n <= 0 {
        return;
      }
      filled := n as real;
      positions := Add(symbol, false, filled, price);
      cash := cash + price * filled;
    }

    /** The positions with `filled` more shares on one side of `symbol`. */
    method Add(symbol: string, isLong: bool, filled: real, price: real) returns (m: Positions)
      requires WholeShares(positions) && Whole(filled)
      ensures m == Added(positions, symbol, isLong, filled, price) && WholeShares(m)
    {
      var p := Position(filled, isLong, price);
      if symbol in positions && positions[symbol].isLong == isLong {
        var held := positions[symbol];
        p := Position(held.qty + filled, isLong, AverageEntry(held, filled, price));
      }
      m := positions[symbol := p];
      AddingStaysWhole(positions, symbol, isLong, filled, price);
    }

    /** Takes shares off a long. */
    method CloseLong(symbol: string, qty: real, price: real) returns (filled: real)
      requires WholeShares(positions)
      modifies this`cash, this`positions
      ensures filled >= 0.0 && WholeShares(positions) && cash == old(cash) + price * filled
      ensures filled == if OnSide(old(positions), symbol, true) then CloseFill(qty, old(positions)[symbol].qty) else 0.0
      ensures positions == if filled == 0.0 then old(positions) else TakenOff(old(positions), symbol, filled)
    {
      filled := 0.0;
      if symbol !in positions || !positions[symbol].isLong {
        return;
      }
      var held := positions[symbol];
      var n := Least(Trunc(qty), Trunc(held.qty));
      if n <= 0 {
        return;
      }
      filled := n as real;
      cash := cash + price * filled;
      TakingOffStaysWhole(positions, symbol, filled);
      var remaining := held.qty - filled;
      if remaining <= 0.0 {
        positions := positions - {symbol};
      } else {
        positions := positions[symbol := held.(qty := remaining)];
      }
    }

    /** Buys back shares of a short. */
    method CloseShort(symbol: string, qty: real, price: real) returns (filled: real)
      requires WholeShares(positions)
      modifies this`cash, this`positions
      ensures filled >= 0.0 && WholeShares(positions) && cash == old(cash) - price * filled
      ensures filled == if OnSide(old(positions), symbol, false) then CloseFill(qty, old(positions)[symbol].qty) else 0.0
      ensures positions == if filled == 0.0 then old(positions) else TakenOff(old(positions), symbol, filled)
    {
      filled := 0.0;
      if symbol !in positions || positions[symbol].isLong {
        return;
      }
      var held := positions[symbol];
      var n := Least(Trunc(qty), Trunc(held.qty));
      if n <= 0 {
        return;
      }
      filled := n as real;
      cash := cash - price * filled;
      TakingOffStaysWhole(positions, symbol, filled);
      var remaining := held.qty - filled;
      if remaining <= 0.0 {
        positions := positions - {symbol};
      } else {
        positions := positions[symbol := held.(qty := remaining)];
      }
    }

    /** Longs at market value, shorts at the cost of covering them. */
    method Mark(mark: real)
      modifies this`equity
      ensures equity == Worth(mark) == cash + mark * Net(positions)
    {
      hide Net, Gross;
      var holdings := 0.0;
      var left := positions;
      while |left| > 0
        invariant holdings + mark * Net(left) == mark * Net(positions)
        decreases |left|
      {
        var s :| s in left;
        NetWithout(left, s);
        var p := left[s];
        Distribute(mark, Signed(p), Net(left - {s}));
        if p.isLong {
          holdings := holdings + mark * p.qty;
        } else {
          holdings := holdings - mark * p.qty;
        }
        left := left - {s};
      }
      EmptySums();
      assert left == map[];
      equity := cash + holdings;
    }

    /** What the account is worth with every position marked at `mark`. */
    ghost function Worth(mark: real): real
      reads this`cash, this`positions
    {
      cash + mark * Net(positions)
    }

    /** One order at its slipped price, routed to a close or an open. Marked worth moves by the
        rate on the shares traded, and by nothing else. */
    method Settle(o: Order, raw: real) returns (filled: real, price: real)
      requires WholeShares(positions)
      modifies this`cash, this`positions
      ensures price == FillPrice(o.buy, raw) && filled == Expected(old(Now()), o, price)
      ensures Now() == AfterOrder(old(Now()), o, price) && WholeShares(positions)
      ensures Worth(raw) == old(Worth(raw)) - Rate() * raw * filled
    {
      hide Net, Gross, LongFill, ShortFill, CloseFill, Added, TakenOff, WholeShares, Whole, PriceOf, Held;
      ghost var before := Now();
      price := FillPrice(o.buy, raw);
      NoCash(price);
      FillsAreWhole(before, o, price);
      if o.buy {
        if o.symbol in positions && !positions[o.symbol].isLong {
          filled := CloseShort(o.symbol, o.qty, price);
        } else {
          filled := OpenLong(o.symbol, o.qty, price);
        }
      } else {
        if o.symbol in positions && positions[o.symbol].isLong {
          filled := CloseLong(o.symbol, o.qty, price);
        } else {
          filled := OpenShort(o.symbol, o.qty, price);
        }
      }
      OrderLosesItsRate(before, o, raw, Rate());
    }

    /** Fills the orders in turn. Equity afterwards is what the account was worth at the fill
        price before, less the rate on every share traded: nothing is created by opening,
        adding, closing or flipping. */
    method SubmitOrders(orders: seq<Order>, raw: real) returns (results: seq<Fill>)
      requires WholeShares(positions)
      modifies this
      ensures WholeShares(positions) && fills == old(fills) + results
      ensures raw <= 0.0 ==> results == [] && Now() == old(Now()) && equity == old(equity)
      ensures raw > 0.0 ==>
        && (Now(), results) == Filled(old(Now()), orders, raw, Rate())
        && equity == Worth(raw)
        && equity == old(Worth(raw)) - Rate() * raw * Traded(results)
    {
      hide Net, Expected, AfterOrder, WholeShares, Traded, Worth, PriceOf;
      results := [];
      if raw <= 0.0 {
        return;
      }
      ghost var drag := 0.0;
      NothingTraded(Rate() * raw);
      for i := 0 to |orders|
        invariant WholeShares(positions) && fills == old(fills) + results
        invariant (Now(), results) == Filled(old(Now()), orders[..i], raw, Rate())
        invariant Worth(raw) == old(Worth(raw)) - drag
        invariant drag == Rate() * raw * Traded(results)
      {
        var filled, price := Settle(orders[i], raw);
        assert orders[..i + 1][..i] == orders[..i];
        if filled > 0.0 {
          var f := Fill(orders[i].symbol, orders[i].buy, filled, price);
          TradedAppend(results, f);
          Distribute(Rate() * raw, Traded(results), filled);
          drag := drag + Rate() * raw * filled;
          results := results + [f];
          fills := fills + [f];
        } else {
          NoCash(Rate() * raw);
        }
      }
      assert orders[..|orders|] == orders;
      Mark(raw);
    }

    /** At a positive mark every position is closed out whole and the account ends flat. */
    method CloseAllPositions(mark: real)
      requires WholeShares(positions)
      modifies this`cash, this`equity, this`positions
      ensures positions == map[] && equity == cash
      ensures mark <= 0.0 ==> cash == old(cash)
      ensures mark > 0.0 ==> cash == old(Worth(mark)) - Rate() * mark * old(Gross(positions))
    {
      hide Net, Gross;
      if mark <= 0.0 {
        positions := map[];
        equity := cash;
        return;
      }
      ghost var drag := Rate() * mark * Gross(positions);
      while |positions| > 0
        invariant WholeShares(positions)
        invariant Worth(mark) - Rate() * mark * Gross(positions) == old(Worth(mark)) - drag
        decreases |positions|
      {
        var s :| s in positions;
        CloseOut(s, mark);
      }
      EmptySums();
      assert positions == map[];
      Mark(mark);
    }

    /** Closes one position whole. */
    method CloseOut(symbol: string, mark: real)
      requires WholeShares(positions) && symbol in positions
      modifies this`cash, this`positions
      ensures WholeShares(positions) && positions == old(positions) - {symbol}
      ensures Worth(mark) - Rate() * mark * Gross(positions) == old(Worth(mark) - Rate() * mark * Gross(positions))
    {
      hide Net, Gross;
      var p := positions[symbol];
      ghost var before, had := positions, cash;
      NetWithout(before, symbol);
      GrossWithout(before, symbol);
      TruncOfWhole(p.qty);
      TakenOffIsLess(before, symbol, p.qty);
      var filled;
      if p.isLong {
        filled := CloseLong(symbol, p.qty, FillPrice(false, mark));
      } else {
        filled := CloseShort(symbol, p.qty, FillPrice(true, mark));
      }
      assert filled == p.qty;
      OneFill(mark, Rate(), had, Net(before), filled, !p.isLong, cash, Net(positions));
      Distribute(Rate() * mark, Gross(positions), filled);
    }
  }

  lemma EmptySums()
    ensures Net(map[]) == 0.0 == Gross(map[])
  {
  }

  lemma WholeSum(p: real, q: real)
    requires Whole(p) && Whole(q)
    ensures Whole(p + q)
  {
    assert p + q == (p.Floor + q.Floor) as real;
  }

  lemma WholeDifference(q: real, n: int)
    requires Whole(q) && q - n as real > 0.0
    ensures Whole(q - n as real)
  {
    assert q - n as real == (q.Floor - n) as real;
  }

  lemma Distribute(a: real, b: real, c: real)
    ensures a * (b + c) == a * b + a * c
  {
  }

  lemma OrderLosesItsRate(a: Account, o: Order, raw: real, rate: real)
    requires WholeShares(a.positions)
    ensures var price := PriceOf(o.buy, raw, rate); var n, a' := Expected(a, o, price), AfterOrder(a, o, price);
      a'.cash + raw * Net(a'.positions) == a.cash + raw * Net(a.positions) - rate * raw * n
  {
    hide Net, Expected, AfterOrder, WholeShares;
    var price := PriceOf(o.buy, raw, rate);
    var a' := AfterOrder(a, o, price);
    OrderMovesItsSymbol(a, o, price);
    OneFill(raw, rate, a.cash, Net(a.positions), Expected(a, o, price), o.buy, a'.cash, Net(a'.positions));
  }

  /** A fill moves marked worth by the rate on the shares traded, whichever way it goes. */
  lemma OneFill(raw: real, rate: real, cash: real, net: real, filled: real, buy: bool, cash': real, net': real)
    requires buy ==> cash' == cash - (raw + raw * rate) * filled && net' == net + filled
    requires !buy ==> cash' == cash + (raw - raw * rate) * filled && net' == net - filled
    ensures cash' + raw * net' == cash + raw * net - rate * raw * filled
  {
    assert (raw + raw * rate) * filled == raw * filled + rate * raw * filled;
    assert (raw - raw * rate) * filled == raw * filled - rate * raw * filled;
    assert raw * (net + filled) == raw * net + raw * filled;
    assert raw * (net - filled) == raw * net - raw * filled;
  }
}
