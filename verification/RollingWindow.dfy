/**
  The live OHLCV window (src/core/rolling_window.py): a bounded deque of bars mirrored in
  five ring buffers, with the forming bar held outside both.
 */
module RollingWindow {
  import opened Options

  datatype Bar = Bar(ts: int, open: real, high: real, low: real, close: real, volume: real)

  // ---------- the window as a value ----------

  /** `offset` is the corporate-action offset already applied. */
  datatype Window = Window(bars: seq<Bar>, forming: Option<Bar>, offset: real)

  datatype Upsert = Appended | Updated | Ignored

  function LastTs(bars: seq<Bar>): Option<int> {
    if |bars| == 0 then None else Some(bars[|bars| - 1].ts)
  }

  /** Not later than the latest closed bar. */
  predicate Stale(bars: seq<Bar>, ts: int) { |bars| > 0 && ts <= bars[|bars| - 1].ts }

  /** A deque with `maxlen`: pushing onto a full one drops the oldest. */
  function Push<T>(s: seq<T>, maxlen: nat, x: T): seq<T>
    requires 0 < maxlen && |s| <= maxlen
  {
    if |s| < maxlen then s + [x] else s[1..] + [x]
  }

  function Revise<T>(s: seq<T>, x: T): seq<T>
    requires |s| > 0
  {
    s[|s| - 1 := x]
  }

  function Lift(b: Bar, delta: real): Bar {
    b.(open := b.open + delta, high := b.high + delta, low := b.low + delta, close := b.close + delta)
  }

  /** The later bar is the earlier one with every price higher by `delta`. */
  predicate Above(b: Bar, b': Bar, delta: real) {
    && b'.open - b.open == delta && b'.high - b.high == delta && b'.low - b.low == delta && b'.close - b.close == delta
    && b'.ts == b.ts && b'.volume == b.volume
  }

  function LiftAll(bars: seq<Bar>, delta: real): (r: seq<Bar>)
    ensures |r| == |bars| && forall i :: 0 <= i < |r| ==> r[i] == Lift(bars[i], delta)
  {
    seq(|bars|, i requires 0 <= i < |bars| => Lift(bars[i], delta))
  }

  function UpsertVerdict(bars: seq<Bar>, ts: int): Upsert {
    if !Stale(bars, ts) then Appended else if ts == bars[|bars| - 1].ts then Updated else Ignored
  }

  function Upserted(bars: seq<Bar>, maxlen: nat, bar: Bar): seq<Bar>
    requires 0 < maxlen && |bars| <= maxlen
  {
    match UpsertVerdict(bars, bar.ts)
    case Appended => Push(bars, maxlen, bar)
    case Updated => Revise(bars, bar)
    case Ignored => bars
  }

  predicate SetsForming(w: Window, bar: Bar) {
    !Stale(w.bars, bar.ts) && (w.forming.Some? ==> bar.ts >= w.forming.value.ts)
  }

  predicate AppliesOffset(w: Window, delta: real) { delta > 0.0 && |w.bars| > 0 && w.offset <= 0.0 }

  /** The forming bar, unless its period has closed since. */
  function FormingBar(w: Window): Option<Bar> {
    if w.forming.Some? && !Stale(w.bars, w.forming.value.ts) then w.forming else None
  }

  predicate Increasing(bars: seq<Bar>) { forall i, j :: 0 <= i < j < |bars| ==> bars[i].ts < bars[j].ts }

  function Opens(bars: seq<Bar>): seq<real> { seq(|bars|, i requires 0 <= i < |bars| => bars[i].open) }
  function Highs(bars: seq<Bar>): seq<real> { seq(|bars|, i requires 0 <= i < |bars| => bars[i].high) }
  function Lows(bars: seq<Bar>): seq<real> { seq(|bars|, i requires 0 <= i < |bars| => bars[i].low) }
  function Closes(bars: seq<Bar>): seq<real> { seq(|bars|, i requires 0 <= i < |bars| => bars[i].close) }
  function Volumes(bars: seq<Bar>): seq<real> { seq(|bars|, i requires 0 <= i < |bars| => bars[i].volume) }

  datatype Op =
    | DoAppend(bar: Bar)
    | DoUpsert(bar: Bar)
    | DoSetForming(bar: Bar)
    | DoClear
    | DoOffset(delta: real)

  /** One operation on a window that keeps `maxlen` bars: what each method below does. */
  function Applied(w: Window, maxlen: nat, op: Op): (r: Window)
    requires 0 < maxlen && |w.bars| <= maxlen
    ensures |r.bars| <= maxlen
  {
    match op
    case DoAppend(b) => if Stale(w.bars, b.ts) then w else w.(bars := Push(w.bars, maxlen, b))
    case DoUpsert(b) => w.(bars := Upserted(w.bars, maxlen, b))
    case DoSetForming(b) => if SetsForming(w, b) then w.(forming := Some(b)) else w
    case DoClear => Window([], None, w.offset)
    case DoOffset(d) => if AppliesOffset(w, d) then Window(LiftAll(w.bars, d), w.forming, d) else w
  }

  // ---------- ring buffers ----------

  predicate RingShape(size: nat, head: nat, count: nat) {
    0 < size && head < size && count <= size && (count < size ==> head == count)
  }

  /** Buffer contents in chronological order. */
  function Ordered(buf: seq<real>, head: nat, count: nat): seq<real>
    requires RingShape(|buf|, head, count)
  {
    if count < |buf| then buf[..count] else buf[head..] + buf[..head]
  }

  function Bump(head: nat, size: nat): nat
    requires size > 0
  {
    (head + 1) % size
  }

  /** The slot written last. */
  function Latest(head: nat, size: nat): int
    requires size > 0
  {
    (head - 1) % size
  }

  lemma BumpIs(head: nat, size: nat)
    requires head < size
    ensures Bump(head, size) == if head + 1 == size then 0 else head + 1
    ensures Latest(head, size) == if head == 0 then size - 1 else head - 1
  {
  }

  /** Writing the head slot and advancing pushes onto the ordered contents. */
  lemma RingPush(buf: seq<real>, head: nat, count: nat, x: real)
    requires RingShape(|buf|, head, count)
    ensures var count' := if count < |buf| then count + 1 else count;
      && RingShape(|buf|, Bump(head, |buf|), count')
      && Ordered(buf[head := x], Bump(head, |buf|), count') == Push(Ordered(buf, head, count), |buf|, x)
  {
    hide Bump;
    BumpIs(head, |buf|);
    var n, b := |buf|, buf[head := x];
    assert b[..head + 1] == buf[..head] + [x];
    if count < n {
      if count + 1 == n {
        assert b[0..] + b[..0] == b[..n];
      }
    } else if head + 1 == n {
      assert b[0..] + b[..0] == b[..n];
      assert (buf[head..] + buf[..head])[1..] == buf[..head];
    } else {
      assert b[head + 1..] == buf[head + 1..];
      assert (buf[head..] + buf[..head])[1..] == buf[head + 1..] + buf[..head];
      assert b[head + 1..] + b[..head + 1] == buf[head + 1..] + buf[..head] + [x];
    }
  }

  /** Rewriting the slot written last revises the newest entry. */
  lemma RingRevise(buf: seq<real>, head: nat, count: nat, x: real)
    requires RingShape(|buf|, head, count) && count > 0
    ensures var at := Latest(head, |buf|);
      && 0 <= at < |buf|
      && Ordered(buf[at := x], head, count) == Revise(Ordered(buf, head, count), x)
  {
    BumpIs(head, |buf|);
  }

  function Shifted(buf: seq<real>, active: nat, delta: real): (r: seq<real>)
    requires active <= |buf|
    ensures |r| == |buf|
  {
    seq(|buf|, i requires 0 <= i < |buf| => if i < active then buf[i] + delta else buf[i])
  }

  lemma RingShift(buf: seq<real>, head: nat, count: nat, delta: real)
    requires RingShape(|buf|, head, count)
    ensures var s := Ordered(buf, head, count);
      Ordered(Shifted(buf, count, delta), head, count) == Shifted(s, |s|, delta)
  {
  }

  // ---------- columns of the deque ----------

  lemma ColumnsOfPush(bars: seq<Bar>, maxlen: nat, b: Bar)
    requires 0 < maxlen && |bars| <= maxlen
    ensures Opens(Push(bars, maxlen, b)) == Push(Opens(bars), maxlen, b.open)
    ensures Highs(Push(bars, maxlen, b)) == Push(Highs(bars), maxlen, b.high)
    ensures Lows(Push(bars, maxlen, b)) == Push(Lows(bars), maxlen, b.low)
    ensures Closes(Push(bars, maxlen, b)) == Push(Closes(bars), maxlen, b.close)
    ensures Volumes(Push(bars, maxlen, b)) == Push(Volumes(bars), maxlen, b.volume)
  {
  }

  lemma ColumnsOfRevise(bars: seq<Bar>, b: Bar)
    requires |bars| > 0
    ensures Opens(Revise(bars, b)) == Revise(Opens(bars), b.open)
    ensures Highs(Revise(bars, b)) == Revise(Highs(bars), b.high)
    ensures Lows(Revise(bars, b)) == Revise(Lows(bars), b.low)
    ensures Closes(Revise(bars, b)) == Revise(Closes(bars), b.close)
    ensures Volumes(Revise(bars, b)) == Revise(Volumes(bars), b.volume)
  {
  }

  lemma ColumnsOfLift(bars: seq<Bar>, delta: real)
    ensures Opens(LiftAll(bars, delta)) == Shifted(Opens(bars), |bars|, delta)
    ensures Highs(LiftAll(bars, delta)) == Shifted(Highs(bars), |bars|, delta)
    ensures Lows(LiftAll(bars, delta)) == Shifted(Lows(bars), |bars|, delta)
    ensures Closes(LiftAll(bars, delta)) == Shifted(Closes(bars), |bars|, delta)
    ensures Volumes(LiftAll(bars, delta)) == Volumes(bars)
  {
  }

  // ---------- the window object ----------

  class RollingWindow {
    const maxlen: nat
    const opens: array<real>
    const highs: array<real>
    const lows: array<real>
    const closes: array<real>
    const volumes: array<real>
    var bars: seq<Bar>
    var lastTs: Option<int>
    var count: nat
    var head: nat
    var offset: real
    var forming: Option<Bar>

    predicate Sized()
      reads this
    {
      && opens.Length == highs.Length == lows.Length == closes.Length == volumes.Length == maxlen
      && opens != highs && opens != lows && opens != closes && opens != volumes
      && highs != lows && highs != closes && highs != volumes
      && lows != closes && lows != volumes && closes != volumes
      && RingShape(maxlen, head, count)
    }

    /** Every ring buffer, read in order, is the matching column of the deque. */
    ghost predicate Valid()
      reads this, opens, highs, lows, closes, volumes
    {
      && Sized() && count == |bars| && lastTs == LastTs(bars) && Increasing(bars)
      && Ordered(opens[..], head, count) == Opens(bars)
      && Ordered(highs[..], head, count) == Highs(bars)
      && Ordered(lows[..], head, count) == Lows(bars)
      && Ordered(closes[..], head, count) == Closes(bars)
      && Ordered(volumes[..], head, count) == Volumes(bars)
    }

    function State(): Window
      reads this
    {
      Window(bars, forming, offset)
    }

    constructor (maxlen: nat)
      requires maxlen > 0
      ensures Valid() && this.maxlen == maxlen && State() == Window([], None, 0.0)
      ensures fresh(opens) && fresh(highs) && fresh(lows) && fresh(closes) && fresh(volumes)
    {
      this.maxlen := maxlen;
      opens := new real[maxlen](_ => 0.0);
      highs := new real[maxlen](_ => 0.0);
      lows := new real[maxlen](_ => 0.0);
      closes := new real[maxlen](_ => 0.0);
      volumes := new real[maxlen](_ => 0.0);
      bars, lastTs, count, head, offset, forming := [], None, 0, 0, 0.0, None;
    }

    /** Writes one column's slot. */
    method WriteSlot(buf: array<real>, at: nat, x: real)
      requires at < buf.Length
      modifies buf
      ensures buf[..] == old(buf[..])[at := x]
    {
      buf[at] := x;
    }

    method WriteBarSlot(bar: Bar)
      requires Sized()
      modifies this`head, this`count, opens, highs, lows, closes, volumes
      ensures head == Bump(old(head), maxlen) && count == if old(count) < maxlen then old(count) + 1 else maxlen
      ensures opens[..] == old(opens[..])[old(head) := bar.open]
      ensures highs[..] == old(highs[..])[old(head) := bar.high]
      ensures lows[..] == old(lows[..])[old(head) := bar.low]
      ensures closes[..] == old(closes[..])[old(head) := bar.close]
      ensures volumes[..] == old(volumes[..])[old(head) := bar.volume]
    {
      WriteSlot(opens, head, bar.open);
      WriteSlot(highs, head, bar.high);
      WriteSlot(lows, head, bar.low);
      WriteSlot(closes, head, bar.close);
      WriteSlot(volumes, head, bar.volume);
      head := (head + 1) % maxlen;
      count := if count + 1 < maxlen then count + 1 else maxlen;
    }

    /** All five buffers take the bar just after the deque does. */
    lemma PushMirrors(o: seq<real>, h: seq<real>, l: seq<real>, c: seq<real>, v: seq<real>, at: nat, n: nat, bar: Bar)
      requires |o| == |h| == |l| == |c| == |v| == maxlen && RingShape(maxlen, at, n) && n == |bars|
      requires Ordered(o, at, n) == Opens(bars) && Ordered(h, at, n) == Highs(bars) && Ordered(l, at, n) == Lows(bars)
      requires Ordered(c, at, n) == Closes(bars) && Ordered(v, at, n) == Volumes(bars)
      ensures var at', n' := Bump(at, maxlen), if n < maxlen then n + 1 else maxlen; var bars' := Push(bars, maxlen, bar);
        && RingShape(maxlen, at', n') && n' == |bars'|
        && Ordered(o[at := bar.open], at', n') == Opens(bars') && Ordered(h[at := bar.high], at', n') == Highs(bars')
        && Ordered(l[at := bar.low], at', n') == Lows(bars') && Ordered(c[at := bar.close], at', n') == Closes(bars')
        && Ordered(v[at := bar.volume], at', n') == Volumes(bars')
    {
      hide Ordered, Opens, Highs, Lows, Closes, Volumes, Bump;
      RingPush(o, at, n, bar.open);
      RingPush(h, at, n, bar.high);
      RingPush(l, at, n, bar.low);
      RingPush(c, at, n, bar.close);
      RingPush(v, at, n, bar.volume);
      ColumnsOfPush(bars, maxlen, bar);
    }

    /** A bar later than the latest one is pushed; any other is refused. */
    method Append(bar: Bar) returns (accepted: bool)
      requires Valid()
      modifies this`head, this`count, this`bars, this`lastTs, opens, highs, lows, closes, volumes
      ensures Valid() && accepted == (|old(bars)| == 0 || bar.ts > old(bars)[|old(bars)| - 1].ts)
      ensures accepted ==> |bars| > 0 && bars[|bars| - 1] == bar
      ensures !accepted ==> bars == old(bars)
      ensures State() == Applied(old(State()), maxlen, DoAppend(bar))
    {
      hide Ordered, Opens, Highs, Lows, Closes, Volumes, Bump;
      if lastTs != None && bar.ts <= lastTs.value {
        return false;
      }
      PushMirrors(opens[..], highs[..], lows[..], closes[..], volumes[..], head, count, bar);
      WriteBarSlot(bar);
      bars := Push(bars, maxlen, bar);
      lastTs := Some(bar.ts);
      accepted := true;
    }

    method RewriteLatest(bar: Bar)
      requires Valid() && count > 0 && bar.ts == bars[|bars| - 1].ts
      modifies this`bars, this`lastTs, opens, highs, lows, closes, volumes
      ensures Valid() && bars == Revise(old(bars), bar)
    {
      hide Ordered, Opens, Highs, Lows, Closes, Volumes;
      RingRevise(opens[..], head, count, bar.open);
      RingRevise(highs[..], head, count, bar.high);
      RingRevise(lows[..], head, count, bar.low);
      RingRevise(closes[..], head, count, bar.close);
      RingRevise(volumes[..], head, count, bar.volume);
      ColumnsOfRevise(bars, bar);
      var at := (head - 1) % maxlen;
      WriteSlot(opens, at, bar.open);
      WriteSlot(highs, at, bar.high);
      WriteSlot(lows, at, bar.low);
      WriteSlot(closes, at, bar.close);
      WriteSlot(volumes, at, bar.volume);
      bars := Revise(bars, bar);
      lastTs := Some(bar.ts);
    }

    /** Revises the latest bar or appends a later one; anything older is ignored. */
    method UpsertBar(bar: Bar) returns (r: Upsert)
      requires Valid()
      modifies this`head, this`count, this`bars, this`lastTs, opens, highs, lows, closes, volumes
      ensures Valid()
      ensures r == Appended <==> |old(bars)| == 0 || bar.ts > old(bars)[|old(bars)| - 1].ts
      ensures r == Updated <==> |old(bars)| > 0 && bar.ts == old(bars)[|old(bars)| - 1].ts
      ensures r != Ignored ==> |bars| > 0 && bars[|bars| - 1] == bar
      ensures r == Updated ==> bars[..|bars| - 1] == old(bars)[..|old(bars)| - 1]
      ensures r == Ignored ==> bars == old(bars)
      ensures State() == Applied(old(State()), maxlen, DoUpsert(bar))
    {
      hide Ordered, Opens, Highs, Lows, Closes, Volumes, Bump;
      if count == 0 {
        PushMirrors(opens[..], highs[..], lows[..], closes[..], volumes[..], head, count, bar);
        WriteBarSlot(bar);
        bars := Push(bars, maxlen, bar);
        lastTs := Some(bar.ts);
        return Appended;
      }
      var latest := bars[|bars| - 1];
      if bar.ts == latest.ts {
        RewriteLatest(bar);
        return Updated;
      }
      if bar.ts > latest.ts {
        var accepted := Append(bar);
        return if accepted then Appended else Ignored;
      }
      r := Ignored;
    }

    method Clear()
      requires Valid()
      modifies this`head, this`count, this`bars, this`lastTs, this`forming
      ensures Valid() && State() == Applied(old(State()), maxlen, DoClear)
      ensures bars == [] && forming == None && offset == old(offset)
    {
      bars, lastTs, count, head, forming := [], None, 0, 0, None;
    }

    /** Adds `delta` to the first `active` slots. */
    method ShiftSlots(buf: array<real>, active: nat, delta: real)
      requires active <= buf.Length
      modifies buf
      ensures buf[..] == Shifted(old(buf[..]), active, delta)
    {
      for i := 0 to active
        invariant forall k :: 0 <= k < buf.Length ==> buf[k] == if k < i then old(buf[k]) + delta else old(buf[k])
      {
        buf[i] := buf[i] + delta;
      }
    }

    /** Adds the offset once to every held price; volumes and later bars are not touched. */
    method ApplyCorporateActionOffset(delta: real) returns (applied: bool)
      requires Valid()
      modifies this`offset, this`bars, opens, highs, lows, closes
      ensures Valid() && (applied <==> delta > 0.0 && |old(bars)| > 0 && old(offset) <= 0.0)
      ensures applied ==> offset == delta && |bars| == |old(bars)|
      ensures applied ==> forall i :: 0 <= i < |bars| ==> Above(old(bars)[i], bars[i], delta)
      ensures !applied ==> bars == old(bars) && offset == old(offset)
      ensures State() == Applied(old(State()), maxlen, DoOffset(delta))
    {
      hide Ordered, Opens, Highs, Lows, Closes, Volumes, Shifted;
      if delta <= 0.0 || count == 0 || offset > 0.0 {
        return false;
      }
      offset := delta;
      var active := if count < maxlen then count else maxlen;
      RingShift(opens[..], head, count, delta);
      RingShift(highs[..], head, count, delta);
      RingShift(lows[..], head, count, delta);
      RingShift(closes[..], head, count, delta);
      ColumnLengths();
      ColumnsOfLift(bars, delta);
      ShiftSlots(opens, active, delta);
      ShiftSlots(highs, active, delta);
      ShiftSlots(lows, active, delta);
      ShiftSlots(closes, active, delta);
      var rebuilt: seq<Bar> := [];
      for i := 0 to |bars|
        modifies {}
        invariant rebuilt == LiftAll(bars[..i], delta)
      {
        rebuilt := rebuilt + [Lift(bars[i], delta)];
        assert bars[..i + 1] == bars[..i] + [bars[i]];
      }
      assert bars[..|bars|] == bars;
      bars := rebuilt;
      applied := true;
    }

    lemma ColumnLengths()
      ensures |Opens(bars)| == |Highs(bars)| == |Lows(bars)| == |Closes(bars)| == |bars|
    {
    }

    /** Records an in-progress bar outside the closed window, or ignores one that a closed bar
        or a later forming bar has overtaken. */
    method SetForming(bar: Bar) returns (recorded: bool)
      requires Valid()
      modifies this`forming
      ensures Valid()
      ensures recorded <==> (|bars| > 0 ==> bar.ts > bars[|bars| - 1].ts)
                            && (old(forming).Some? ==> bar.ts >= old(forming).value.ts)
      ensures forming == if recorded then Some(bar) else old(forming)
      ensures State() == Applied(old(State()), maxlen, DoSetForming(bar))
    {
      if lastTs != None && bar.ts <= lastTs.value {
        return false;
      }
      if forming != None && bar.ts < forming.value.ts {
        return false;
      }
      forming := Some(bar);
      recorded := true;
    }

    method CurrentFormingBar() returns (r: Option<Bar>)
      requires Valid()
      ensures r == FormingBar(State())
      ensures r.Some? && |bars| > 0 ==> r.value.ts > bars[|bars| - 1].ts
      ensures forming.Some? && (|bars| > 0 ==> forming.value.ts > bars[|bars| - 1].ts) ==> r == forming
      ensures r.Some? ==> r == forming
    {
      if forming == None {
        return None;
      }
      if lastTs != None && forming.value.ts <= lastTs.value {
        return None;
      }
      r := forming;
    }

    /** One buffer in chronological order. */
    method ReadOrdered(buf: array<real>) returns (r: seq<real>)
      requires Sized() && buf.Length == maxlen
      ensures r == Ordered(buf[..], head, count)
    {
      if count < maxlen {
        r := buf[..count];
      } else {
        r := buf[head..] + buf[..head];
      }
    }

    method ClosesArray() returns (r: seq<real>)
      requires Valid()
      ensures r == Closes(bars)
      ensures |r| == |bars| && forall i :: 0 <= i < |r| ==> r[i] == bars[i].close
    {
      r := ReadOrdered(closes);
    }

    method HighsArray() returns (r: seq<real>)
      requires Valid()
      ensures r == Highs(bars)
      ensures |r| == |bars| && forall i :: 0 <= i < |r| ==> r[i] == bars[i].high
    {
      r := ReadOrdered(highs);
    }

    method LowsArray() returns (r: seq<real>)
      requires Valid()
      ensures r == Lows(bars)
      ensures |r| == |bars| && forall i :: 0 <= i < |r| ==> r[i] == bars[i].low
    {
      r := ReadOrdered(lows);
    }

    method OpensArray() returns (r: seq<real>)
      requires Valid()
      ensures r == Opens(bars)
      ensures |r| == |bars| && forall i :: 0 <= i < |r| ==> r[i] == bars[i].open
    {
      r := ReadOrdered(opens);
    }

    method VolumesArray() returns (r: seq<real>)
      requires Valid()
      ensures r == Volumes(bars)
      ensures |r| == |bars| && forall i :: 0 <= i < |r| ==> r[i] == bars[i].volume
    {
      r := ReadOrdered(volumes);
    }

    /** For a positive period, the closes of the last min(period, count) bars. */
    method TailCloses(period: int) returns (r: seq<real>)
      requires Valid()
      ensures period >= 1 ==> r == Closes(Tail(bars, period)) && |r| == if |bars| <= period then |bars| else period
      ensures period >= 1 ==> forall i :: 0 <= i < |r| ==> r[i] == bars[|bars| - |r| + i].close
    {
      hide Valid, Closes;
      var full := ClosesArray();
      if period >= 1 {
        ClosesOfTail(bars, period);
      }
      if |full| <= period {
        return full;
      }
      if period > 0 {
        r := full[|full| - period..];
      } else if period == 0 || -period >= |full| {
        r := if period == 0 then full else [];
      } else {
        r := full[-period..];
      }
    }
  }

  lemma ClosesOfTail(bars: seq<Bar>, n: nat)
    ensures Closes(Tail(bars, n)) == Tail(Closes(bars), n) && |Closes(bars)| == |bars|
  {
  }

  // ---------- whole runs ----------

  function Replayed(maxlen: nat, ops: seq<Op>): (w: Window)
    requires 0 < maxlen
    ensures |w.bars| <= maxlen
  {
    if |ops| == 0 then Window([], None, 0.0)
    else Applied(Replayed(maxlen, ops[..|ops| - 1]), maxlen, ops[|ops| - 1])
  }

  /** The same operation on a plain list that never forgets. */
  function Noted(w: Window, op: Op): Window {
    match op
    case DoAppend(b) => if Stale(w.bars, b.ts) then w else w.(bars := w.bars + [b])
    case DoUpsert(b) =>
      (match UpsertVerdict(w.bars, b.ts)
       case Appended => w.(bars := w.bars + [b])
       case Updated => w.(bars := Revise(w.bars, b))
       case Ignored => w)
    case DoSetForming(b) => if SetsForming(w, b) then w.(forming := Some(b)) else w
    case DoClear => Window([], None, w.offset)
    case DoOffset(d) => if AppliesOffset(w, d) then Window(LiftAll(w.bars, d), w.forming, d) else w
  }

  function Recorded(ops: seq<Op>): Window {
    if |ops| == 0 then Window([], None, 0.0) else Noted(Recorded(ops[..|ops| - 1]), ops[|ops| - 1])
  }

  /** The window's view of a longer list. */
  function View(w: Window, maxlen: nat): (r: Window)
    requires 0 < maxlen
    ensures |r.bars| <= maxlen
  {
    w.(bars := Tail(w.bars, maxlen))
  }

  function Tail<T>(s: seq<T>, n: nat): seq<T> { if |s| <= n then s else s[|s| - n..] }

  lemma TailOfSteps(s: seq<Bar>, maxlen: nat, b: Bar, delta: real)
    requires 0 < maxlen
    ensures Tail(s + [b], maxlen) == Push(Tail(s, maxlen), maxlen, b)
    ensures |s| > 0 ==> Tail(Revise(s, b), maxlen) == Revise(Tail(s, maxlen), b)
    ensures Tail(LiftAll(s, delta), maxlen) == LiftAll(Tail(s, maxlen), delta)
    ensures Stale(Tail(s, maxlen), b.ts) == Stale(s, b.ts)
    ensures UpsertVerdict(Tail(s, maxlen), b.ts) == UpsertVerdict(s, b.ts)
  {
  }

  lemma StepKeepsView(w: Window, maxlen: nat, op: Op)
    requires 0 < maxlen
    ensures Applied(View(w, maxlen), maxlen, op) == View(Noted(w, op), maxlen)
  {
    hide Tail, LiftAll, Push, Revise, Stale;
    var any := Bar(0, 0.0, 0.0, 0.0, 0.0, 0.0);
    TailIsEmpty(w.bars, maxlen);
    match op
    case DoAppend(b) => TailOfSteps(w.bars, maxlen, b, 0.0);
    case DoUpsert(b) =>
      TailOfSteps(w.bars, maxlen, b, 0.0);
      OnlyKeptBarsAreRevised(w.bars, b.ts);
    case DoSetForming(b) => TailOfSteps(w.bars, maxlen, b, 0.0);
    case DoClear =>
    case DoOffset(d) => TailOfSteps(w.bars, maxlen, any, d);
  }

  lemma OnlyKeptBarsAreRevised(s: seq<Bar>, ts: int)
    ensures UpsertVerdict(s, ts) == Updated ==> |s| > 0
  {
  }

  /** After any operations the window holds exactly the last `maxlen` bars of the list that
      never forgets, with the same forming bar and offset. */
  lemma {:induction false} WindowIsTailOfHistory(maxlen: nat, ops: seq<Op>)
    requires 0 < maxlen
    ensures Replayed(maxlen, ops) == View(Recorded(ops), maxlen)
  {
    hide Noted, Applied;
    if |ops| > 0 {
      WindowIsTailOfHistory(maxlen, ops[..|ops| - 1]);
      StepKeepsView(Recorded(ops[..|ops| - 1]), maxlen, ops[|ops| - 1]);
    }
  }

  lemma TailIsEmpty(s: seq<Bar>, maxlen: nat)
    requires 0 < maxlen
    ensures |Tail(s, maxlen)| == 0 <==> |s| == 0
    ensures Tail<Bar>([], maxlen) == []
  {
  }

  predicate Sound(w: Window) {
    Increasing(w.bars) && (FormingBar(w).Some? && |w.bars| > 0 ==> FormingBar(w).value.ts > w.bars[|w.bars| - 1].ts)
  }

  lemma StepIsSound(w: Window, maxlen: nat, op: Op)
    requires 0 < maxlen && |w.bars| <= maxlen && Sound(w)
    ensures Sound(Applied(w, maxlen, op))
  {
  }

  /** Timestamps increase strictly, and a forming bar is always later than every closed one. */
  lemma {:induction false} ReplayedIsSound(maxlen: nat, ops: seq<Op>)
    requires 0 < maxlen
    ensures Sound(Replayed(maxlen, ops))
  {
    hide Applied;
    if |ops| > 0 {
      ReplayedIsSound(maxlen, ops[..|ops| - 1]);
      StepIsSound(Replayed(maxlen, ops[..|ops| - 1]), maxlen, ops[|ops| - 1]);
    }
  }

  /** An offset is applied once in the life of a window: after it, no later operation, a clear
      included, changes it or lets another one through. */
  lemma {:induction false} OffsetAppliesOnce(maxlen: nat, ops: seq<Op>, more: seq<Op>, delta: real)
    requires 0 < maxlen && Replayed(maxlen, ops).offset > 0.0
    ensures Replayed(maxlen, ops + more).offset == Replayed(maxlen, ops).offset
    ensures Replayed(maxlen, ops + more + [DoOffset(delta)]) == Replayed(maxlen, ops + more)
  {
    var all := ops + more;
    assert (all + [DoOffset(delta)])[..|all|] == all;
    if |more| == 0 {
      assert all == ops;
    } else {
      OffsetAppliesOnce(maxlen, ops, more[..|more| - 1], delta);
      assert all[..|all| - 1] == ops + more[..|more| - 1];
    }
  }

  function WithoutForming(ops: seq<Op>): seq<Op> {
    if |ops| == 0 then []
    else WithoutForming(ops[..|ops| - 1]) + if ops[|ops| - 1].DoSetForming? then [] else [ops[|ops| - 1]]
  }

  /** Forming bars leave no trace in the closed window: dropping every one of them from the
      run leaves the same bars, whatever was decided along the way. */
  lemma {:induction false} FormingIsInvisible(maxlen: nat, ops: seq<Op>)
    requires 0 < maxlen
    ensures Replayed(maxlen, WithoutForming(ops)).bars == Replayed(maxlen, ops).bars
    ensures Replayed(maxlen, WithoutForming(ops)).offset == Replayed(maxlen, ops).offset
  {
    hide Upserted, Push, LiftAll, Stale;
    if |ops| > 0 {
      var last := ops[|ops| - 1];
      var rest := WithoutForming(ops[..|ops| - 1]);
      FormingIsInvisible(maxlen, ops[..|ops| - 1]);
      if !last.DoSetForming? {
        assert (rest + [last])[..|rest|] == rest;
      } else {
        assert rest + [] == rest;
      }
    }
  }
}
