/**
  The inner parameter grid (src/backtest/vectorized_mr.py): one flat index per combination
  of thresholds, exit band and time stop, each simulated once.
 */
module Sweep {
  import opened Kernel

  datatype Grid = Grid(longs: seq<real>, shorts: seq<real>, exits: seq<real>, maxBars: seq<int>)

  datatype Point = Point(li: nat, si: nat, ei: nat, mi: nat)

  datatype Cell = Cell(report: Report, longs: nat, shorts: nat)

  function Size(g: Grid): nat { |g.longs| * |g.shorts| * |g.exits| * |g.maxBars| }

  predicate InGrid(g: Grid, p: Point) {
    p.li < |g.longs| && p.si < |g.shorts| && p.ei < |g.exits| && p.mi < |g.maxBars|
  }

  /** The mixed-radix digits of `idx`, least significant last. */
  function Decode(g: Grid, idx: nat): Point
    requires |g.shorts| > 0 && |g.exits| > 0 && |g.maxBars| > 0
  {
    var t := idx / |g.maxBars|;
    var t' := t / |g.exits|;
    Point(t' / |g.shorts|, t' % |g.shorts|, t % |g.exits|, idx % |g.maxBars|)
  }

  function Encode(g: Grid, p: Point): nat {
    ((p.li * |g.shorts| + p.si) * |g.exits| + p.ei) * |g.maxBars| + p.mi
  }

  // ---------- the index is a bijection ----------

  lemma Gap(q: int, q': int, radix: nat)
    requires q < q'
    ensures q * radix + radix <= q' * radix
  {
    assert (q' - q - 1) * radix >= 0;
  }

  lemma SameQuotient(q: int, r: nat, q': int, r': nat, radix: nat)
    requires r < radix && r' < radix && q * radix + r == q' * radix + r'
    ensures q == q' && r == r'
  {
    if q < q' {
      Gap(q, q', radix);
    } else if q' < q {
      Gap(q', q, radix);
    }
  }

  lemma Digit(high: nat, radix: nat, low: nat)
    requires low < radix
    ensures (high * radix + low) / radix == high && (high * radix + low) % radix == low
  {
    var x := high * radix + low;
    SameQuotient(high, low, x / radix, x % radix, radix);
  }

  lemma Undigit(x: nat, radix: nat, count: nat)
    requires radix > 0
    ensures (x / radix) * radix + x % radix == x
    ensures x < count * radix <==> x / radix < count
  {
    var q := x / radix;
    if q < count {
      assert (q + 1) * radix <= count * radix;
    } else {
      assert q * radix >= count * radix;
    }
  }

  /** Every grid point has one index, inside the grid, and decoding gives it back. */
  lemma DecodeOfEncode(g: Grid, p: Point)
    requires InGrid(g, p)
    ensures Encode(g, p) < Size(g) && Decode(g, Encode(g, p)) == p
  {
    var a := p.li * |g.shorts| + p.si;
    var b := a * |g.exits| + p.ei;
    Digit(p.li, |g.shorts|, p.si);
    Digit(a, |g.exits|, p.ei);
    Digit(b, |g.maxBars|, p.mi);
    Undigit(a, |g.shorts|, |g.longs|);
    Undigit(b, |g.exits|, |g.longs| * |g.shorts|);
    Undigit(Encode(g, p), |g.maxBars|, |g.longs| * |g.shorts| * |g.exits|);
  }

  /** Every index below the grid's size is the index of the grid point it decodes to. */
  lemma EncodeOfDecode(g: Grid, idx: nat)
    requires idx < Size(g)
    ensures |g.shorts| > 0 && |g.exits| > 0 && |g.maxBars| > 0
    ensures InGrid(g, Decode(g, idx)) && Encode(g, Decode(g, idx)) == idx
  {
    NonEmpty(|g.longs|, |g.shorts|, |g.exits|, |g.maxBars|);
    var t := idx / |g.maxBars|;
    var t' := t / |g.exits|;
    Undigit(idx, |g.maxBars|, |g.longs| * |g.shorts| * |g.exits|);
    Undigit(t, |g.exits|, |g.longs| * |g.shorts|);
    Undigit(t', |g.shorts|, |g.longs|);
  }

  lemma NonEmpty(a: nat, b: nat, c: nat, d: nat)
    requires a * b * c * d > 0
    ensures a > 0 && b > 0 && c > 0 && d > 0
  {
  }

  // ---------- the sweep ----------

  function StrategyAt(g: Grid, p: Point): Strategy
    requires InGrid(g, p)
  {
    Strategy(g.longs[p.li], g.shorts[p.si], g.exits[p.ei], g.maxBars[p.mi])
  }

  /** What the decoupled simulator returns for one grid point. */
  function Simulated(u: Setup, g: Grid, p: Point, root: real -> real, annualize: real, end: nat): Cell
    requires InGrid(g, p) && u.start <= end <= Length(u)
  {
    var v := u.(strategy := StrategyAt(g, p));
    Cell(Reported(v, end - v.start, root, annualize),
         ReportedEntries(v, end - v.start, Long), ReportedEntries(v, end - v.start, Short))
  }

  /** The cell of a grid point, spelled out: the last parameter varies fastest, each digit picks
      from its own list, and the cell is the run of that strategy with its entry counts. */
  lemma CellInTerms(u: Setup, g: Grid, li: nat, si: nat, ei: nat, mi: nat, root: real -> real, annualize: real, end: nat)
    requires li < |g.longs| && si < |g.shorts| && ei < |g.exits| && mi < |g.maxBars| && u.start <= end <= Length(u)
    ensures var p := Point(li, si, ei, mi);
      && Encode(g, p) == li * |g.shorts| * |g.exits| * |g.maxBars| + si * |g.exits| * |g.maxBars| + ei * |g.maxBars| + mi
      && var v := u.(strategy := Strategy(g.longs[li], g.shorts[si], g.exits[ei], g.maxBars[mi]));
         var n := end - u.start;
         Simulated(u, g, p, root, annualize, end) ==
           Cell(Reported(v, n, root, annualize), ReportedEntries(v, n, Long), ReportedEntries(v, n, Short))
  {
    hide Reported, ReportedEntries;
    var a, e, m := |g.shorts|, |g.exits|, |g.maxBars|;
    assert (li * a + si) * e == li * a * e + si * e;
    assert (li * a * e + si * e + ei) * m == li * a * e * m + si * e * m + ei * m;
  }

  method SweepInnerGrid(u: Setup, g: Grid, root: real -> real, annualize: real, end: nat, out: array<Cell>)
    requires u.rule.Decoupled? && u.start <= end <= Length(u) && out.Length == Size(g)
    modifies out
    ensures forall p :: InGrid(g, p) ==>
      Encode(g, p) < out.Length && out[Encode(g, p)] == Simulated(u, g, p, root, annualize, end)
  {
    hide Encode, Simulated;
    for idx := 0 to Size(g)
      invariant forall p :: InGrid(g, p) && Encode(g, p) < idx ==>
        out[Encode(g, p)] == Simulated(u, g, p, root, annualize, end)
    {
      EncodeOfDecode(g, idx);
      var mi := idx % |g.maxBars|;
      var t := idx / |g.maxBars|;
      var ei := t % |g.exits|;
      t := t / |g.exits|;
      var si := t % |g.shorts|;
      var li := t / |g.shorts|;
      var here := Point(li, si, ei, mi);
      out[idx] := SimulatePoint(u, g, here, root, annualize, end);
      forall p | InGrid(g, p) && Encode(g, p) == idx ensures p == here {
        DecodeOfEncode(g, p);
      }
    }
    forall p | InGrid(g, p) ensures Encode(g, p) < Size(g) {
      DecodeOfEncode(g, p);
    }
  }

  method SimulatePoint(u: Setup, g: Grid, p: Point, root: real -> real, annualize: real, end: nat) returns (c: Cell)
    requires u.rule.Decoupled? && InGrid(g, p) && u.start <= end <= Length(u)
    ensures c == Simulated(u, g, p, root, annualize, end)
  {
    hide Reported, ReportedEntries;
    var report, longs, shorts := SimulateSliceDecoupled(u.(strategy := StrategyAt(g, p)), root, annualize, end);
    c := Cell(report, longs, shorts);
  }
}
