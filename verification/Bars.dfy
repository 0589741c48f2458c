/** Two folds of the same marks: the chart's candles and the strategy's closes. */
module Bars {
  import opened Common

  const SECOND: nat := 1_000_000_000

  datatype Mark = Mark(at: nat, price: int)

  datatype Bar = Bar(time: nat, open: int, high: int, low: int, close: int)

  datatype Candles = Candles(bars: seq<Bar>, bucket: nat)

  function Kept(bars: seq<Bar>, max: nat): (kept: seq<Bar>)
    ensures |kept| == if |bars| > max then max else |bars|
  {
    if |bars| > max then bars[|bars| - max..] else bars
  }

  function Extended(b: Bar, price: int): Bar {
    b.(high := if price > b.high then price else b.high, low := if price < b.low then price else b.low, close := price)
  }

  /** A price in a bucket: older than the newest candle, in it, or after it. */
  function Placed(s: Candles, bucket: nat, time: nat, max: nat, price: int): Candles {
    if s.bars != [] && bucket < s.bucket then s
    else if s.bars != [] && bucket == s.bucket then
      s.(bars := s.bars[|s.bars| - 1 := Extended(s.bars[|s.bars| - 1], price)])
    else Candles(Kept(s.bars + [Bar(time, price, price, price, price)], max), bucket)
  }

  function Observed(s: Candles, interval: nat, max: nat, m: Mark): Candles {
    if interval == 0 then s
    else Placed(s, m.at / interval, m.at / interval * interval / SECOND, max, m.price)
  }

  /** History from elsewhere, into an empty series only. */
  function Seeded(s: Candles, interval: nat, max: nat, history: seq<Bar>): Candles {
    if s.bars != [] || history == [] || max == 0 then s
    else
      var bars := Kept(history, max);
      Candles(bars, if interval > 0 then bars[|bars| - 1].time * SECOND / interval else s.bucket)
  }

  class Series {
    const interval: nat
    const max: nat
    var bars: seq<Bar>
    var bucket: nat

    constructor (interval: nat, max: nat)
      ensures this.interval == interval && this.max == max && State() == Candles([], 0)
    {
      this.interval, this.max, bars, bucket := interval, max, [], 0;
    }

    function State(): Candles
      reads this
    {
      Candles(bars, bucket)
    }

    method Observe(m: Mark)
      modifies this
      ensures State() == Observed(old(State()), interval, max, m)
    {
      if interval == 0 {
        return;
      }
      var b := m.at / interval;
      if |bars| > 0 && b < bucket {
        return;  // older than the newest candle: history already held
      }
      if |bars| > 0 && b == bucket {
        var last := bars[|bars| - 1];
        if m.price > last.high {
          last := last.(high := m.price);
        }
        if m.price < last.low {
          last := last.(low := m.price);
        }
        bars := bars[|bars| - 1 := last.(close := m.price)];
        return;
      }
      bucket := b;
      bars := bars + [Bar(b * interval / SECOND, m.price, m.price, m.price, m.price)];
      if |bars| > max {
        bars := bars[|bars| - max..];
      }
    }

    /** Seeding a series that keeps nothing would have no last candle to read. */
    method Seed(history: seq<Bar>)
      requires max > 0
      modifies this
      ensures State() == Seeded(old(State()), interval, max, history)
    {
      if |bars| > 0 || |history| == 0 {
        return;
      }
      var recent := history;
      if |recent| > max {
        recent := recent[|recent| - max..];
      }
      bars := bars + recent;
      assert bars == recent;
      if interval > 0 {
        bucket := bars[|bars| - 1].time * SECOND / interval;
      }
    }
  }

  /** The strategy's aggregator. */
  datatype Open = Open(bucket: nat, last: int, started: bool)

  function Taken(o: Open, interval: nat, m: Mark): (Open, Option<int>) {
    if interval == 0 then (o, None)
    else
      var bucket := m.at / interval;
      if !o.started then (Open(bucket, m.price, true), None)
      else if bucket == o.bucket then (o.(last := m.price), None)
      else (Open(bucket, m.price, true), Some(o.last))
  }

  class Aggregator {
    const interval: nat
    var bucket: nat
    var last: int
    var started: bool

    constructor (interval: nat)
      ensures this.interval == interval && State() == Open(0, 0, false)
    {
      this.interval, bucket, last, started := interval, 0, 0, false;
    }

    function State(): Open
      reads this
    {
      Open(bucket, last, started)
    }

    /** The close of the bar this mark ended, if it ended one. */
    method Observe(m: Mark) returns (closed: Option<int>)
      modifies this
      ensures (State(), closed) == Taken(old(State()), interval, m)
    {
      if interval == 0 {
        return None;
      }
      var b := m.at / interval;
      if !started {
        bucket, last, started := b, m.price, true;
        return None;
      }
      if b == bucket {
        last := m.price;
        return None;
      }
      var ended := last;
      bucket, last := b, m.price;
      return Some(ended);
    }
  }

  // ---------------------------------------------------------------- candles are well formed

  predicate Shaped(b: Bar) {
    b.low <= b.open <= b.high && b.low <= b.close <= b.high
  }

  predicate Ascending(bars: seq<Bar>) {
    forall i, j | 0 <= i < j < |bars| :: bars[i].time < bars[j].time
  }

  /** `seconds` to the bucket, and the newest candle not beyond it. */
  predicate WellFormed(s: Candles, seconds: nat, max: nat) {
    && |s.bars| <= max && Ascending(s.bars) && (forall b <- s.bars :: Shaped(b))
    && (s.bars != [] ==> s.bars[|s.bars| - 1].time < (s.bucket + 1) * seconds)
  }

  lemma BucketStarts(bucket: nat, seconds: nat)
    ensures bucket * (seconds * SECOND) / SECOND == bucket * seconds
  {
    assert bucket * (seconds * SECOND) == bucket * seconds * SECOND;
  }

  lemma LaterBucket(a: nat, b: nat, seconds: nat)
    requires a < b
    ensures (a + 1) * seconds <= b * seconds
  {
  }

  lemma NewestLast(bars: seq<Bar>, bar: Bar, max: nat)
    requires Ascending(bars) && (forall b <- bars :: Shaped(b)) && Shaped(bar)
    requires bars != [] ==> bars[|bars| - 1].time < bar.time
    ensures
      var kept := Kept(bars + [bar], max);
      && Ascending(kept) && (forall b <- kept :: Shaped(b)) && (kept != [] ==> kept[|kept| - 1] == bar)
  {
    hide Shaped;
    var all := bars + [bar];
    var kept := Kept(all, max);
    forall i, j | 0 <= i < j < |all| ensures all[i].time < all[j].time {
      assert all[i] == bars[i] && all[j] == if j < |bars| then bars[j] else bar;
      if j == |bars| && i < |bars| - 1 { assert bars[i].time < bars[|bars| - 1].time; }
    }
  }

  lemma PlacingKeepsShape(s: Candles, bucket: nat, seconds: nat, max: nat, price: int)
    requires seconds > 0 && WellFormed(s, seconds, max)
    ensures WellFormed(Placed(s, bucket, bucket * seconds, max, price), seconds, max)
  {
    if s.bars == [] || bucket > s.bucket {
      if s.bars != [] { LaterBucket(s.bucket, bucket, seconds); }
      NewestLast(s.bars, Bar(bucket * seconds, price, price, price, price), max);
      assert bucket * seconds < (bucket + 1) * seconds;
      hide Kept, Ascending, Shaped;
    } else if bucket == s.bucket {
      var n := |s.bars| - 1;
      var bars := s.bars[n := Extended(s.bars[n], price)];
      assert Shaped(s.bars[n]) && Shaped(bars[n]) && bars[n].time == s.bars[n].time;
      forall b <- bars ensures Shaped(b) {
        var i :| 0 <= i < |bars| && bars[i] == b;
        if i < n { assert bars[i] == s.bars[i]; }
      }
    }
  }

  /** Marks in any order keep the candles strictly ascending in time, bounded in
      number, and each within its high and low, whatever the chart was seeded with. */
  lemma ObserveKeepsShape(s: Candles, seconds: nat, max: nat, m: Mark)
    requires seconds > 0 && WellFormed(s, seconds, max)
    ensures WellFormed(Observed(s, seconds * SECOND, max, m), seconds, max)
  {
    BucketStarts(m.at / (seconds * SECOND), seconds);
    PlacingKeepsShape(s, m.at / (seconds * SECOND), seconds, max, m.price);
    hide Placed, WellFormed;
  }

  lemma SeedKeepsShape(s: Candles, seconds: nat, max: nat, history: seq<Bar>)
    requires seconds > 0 && WellFormed(s, seconds, max)
    requires Ascending(history) && forall b <- history :: Shaped(b)
    ensures WellFormed(Seeded(s, seconds * SECOND, max, history), seconds, max)
  {
    if s.bars == [] && history != [] && max > 0 {
      var bars := Kept(history, max);
      SeededBucket(bars[|bars| - 1].time, seconds);
    }
  }

  lemma SeededBucket(time: nat, seconds: nat)
    requires seconds > 0
    ensures time < (time * SECOND / (seconds * SECOND) + 1) * seconds
  {
    var q := time * SECOND / (seconds * SECOND);
    assert time * SECOND == q * (seconds * SECOND) + time * SECOND % (seconds * SECOND);
    assert (q + 1) * (seconds * SECOND) == (q + 1) * seconds * SECOND;
  }

  // ---------------------------------------------------------------- the two folds agree

  function Chart(marks: seq<Mark>, interval: nat, max: nat): Candles {
    if marks == [] then Candles([], 0)
    else Observed(Chart(marks[..|marks| - 1], interval, max), interval, max, marks[|marks| - 1])
  }

  function Taking(marks: seq<Mark>, interval: nat): Open {
    if marks == [] then Open(0, 0, false)
    else Taken(Taking(marks[..|marks| - 1], interval), interval, marks[|marks| - 1]).0
  }

  /** Every close the strategy has been given, in order. */
  function Closes(marks: seq<Mark>, interval: nat): seq<int> {
    if marks == [] then []
    else
      var before := marks[..|marks| - 1];
      var closed := Taken(Taking(before, interval), interval, marks[|marks| - 1]).1;
      Closes(before, interval) + if closed.Some? then [closed.value] else []
  }

  function CloseFields(bars: seq<Bar>): (closes: seq<int>)
    ensures |closes| == |bars|
  {
    seq(|bars|, i requires 0 <= i < |bars| => bars[i].close)
  }

  predicate InOrder(marks: seq<Mark>) {
    forall i, j | 0 <= i < j < |marks| :: marks[i].at <= marks[j].at
  }

  /** `tail` is the last `max` of `all`, or all of it. */
  predicate LastOf(tail: seq<int>, all: seq<int>, max: nat) {
    |tail| == (if |all| > max then max else |all|) && all[|all| - |tail|..] == tail
  }

  /** The strategy's closes, with the one still open, end in the chart's. */
  predicate EndsIn(closes: seq<int>, o: Open, s: Candles, max: nat) {
    && (o.started <==> s.bars != []) && (o.started ==> o.bucket == s.bucket)
    && LastOf(CloseFields(s.bars), closes + if o.started then [o.last] else [], max)
  }

  lemma LastOfAppended(tail: seq<int>, all: seq<int>, x: int, max: nat)
    requires max > 0 && LastOf(tail, all, max)
    ensures LastOf(if |tail| + 1 > max then tail[1..] + [x] else tail + [x], all + [x], max)
  {
    assert all[|all| - |tail|..] == tail;
    if |tail| == max {
      assert (all + [x])[|all| + 1 - max..] == all[|all| - max..][1..] + [x];
    } else {
      assert (all + [x])[|all| - |tail|..] == all[|all| - |tail|..] + [x];
    }
  }

  lemma LastOfUpdated(tail: seq<int>, all: seq<int>, x: int, max: nat)
    requires tail != [] && LastOf(tail, all, max)
    ensures LastOf(tail[..|tail| - 1] + [x], all[..|all| - 1] + [x], max)
  {
    var k := |all| - |tail|;
    assert (all[..|all| - 1] + [x])[k..] == all[k..][..|tail| - 1] + [x];
  }

  lemma ClosesOfKept(bars: seq<Bar>, bar: Bar, max: nat)
    requires max > 0 && |bars| <= max
    ensures
      var tail := CloseFields(bars);
      CloseFields(Kept(bars + [bar], max)) == if |bars| + 1 > max then tail[1..] + [bar.close] else tail + [bar.close]
  {
  }

  lemma ClosesOfExtended(bars: seq<Bar>, price: int)
    requires bars != []
    ensures CloseFields(bars[|bars| - 1 := Extended(bars[|bars| - 1], price)]) ==
              CloseFields(bars)[..|bars| - 1] + [price]
  {
  }

  lemma PlacingEndsIn(closes: seq<int>, o: Open, s: Candles, bucket: nat, time: nat, max: nat, price: int)
    requires max > 0 && EndsIn(closes, o, s, max) && (o.started ==> o.bucket <= bucket)
    ensures
      var s' := Placed(s, bucket, time, max, price);
      if o.started && bucket == o.bucket then EndsIn(closes, o.(last := price), s', max)
      else EndsIn(closes + if o.started then [o.last] else [], Open(bucket, price, true), s', max)
  {
    hide LastOf, CloseFields, Kept, Extended;
    var all := closes + if o.started then [o.last] else [];
    if o.started && bucket == o.bucket {
      ClosesOfExtended(s.bars, price);
      LastOfUpdated(CloseFields(s.bars), all, price, max);
      assert all[..|all| - 1] == closes;
    } else {
      LastOfIsShort(CloseFields(s.bars), all, max);
      ClosesOfKept(s.bars, Bar(time, price, price, price, price), max);
      LastOfAppended(CloseFields(s.bars), all, price, max);
    }
  }

  lemma LastOfIsShort(tail: seq<int>, all: seq<int>, max: nat)
    requires LastOf(tail, all, max)
    ensures |tail| <= max
  {
  }

  lemma StepEndsIn(closes: seq<int>, o: Open, s: Candles, interval: nat, max: nat, m: Mark)
    requires interval > 0 && max > 0 && EndsIn(closes, o, s, max) && (o.started ==> o.bucket <= m.at / interval)
    ensures
      var (o', closed) := Taken(o, interval, m);
      EndsIn(closes + if closed.Some? then [closed.value] else [], o', Observed(s, interval, max, m), max)
  {
    hide EndsIn, Placed;
    var bucket := m.at / interval;
    PlacingEndsIn(closes, o, s, bucket, bucket * interval / SECOND, max, m.price);
    assert closes + [] == closes;
  }

  /** The aggregator's bucket is that of the last mark it took. */
  lemma {:induction false} BucketOfLast(marks: seq<Mark>, interval: nat)
    requires interval > 0
    ensures Taking(marks, interval).started <==> marks != []
    ensures marks != [] ==> Taking(marks, interval).bucket == marks[|marks| - 1].at / interval
  {
  }

  lemma LaterBucketLaterMark(a: nat, b: nat, interval: nat)
    requires interval > 0
    ensures a / interval > b / interval ==> a > b
  {
    if a / interval > b / interval {
      LaterBucket(b / interval, a / interval, interval);
      assert b < (b / interval + 1) * interval;
      assert a / interval * interval <= a;
    }
  }

  /** Fed the same marks in time order, the closes the strategy acts on, with the
      bar still open, end with exactly the closes the chart shows. */
  lemma {:induction false} StrategySeesTheChart(marks: seq<Mark>, interval: nat, max: nat)
    requires interval > 0 && max > 0 && InOrder(marks)
    ensures EndsIn(Closes(marks, interval), Taking(marks, interval), Chart(marks, interval, max), max)
  {
    hide EndsIn, Observed;
    if marks == [] {
      NothingSeen(max);
    } else {
      var before, m := marks[..|marks| - 1], marks[|marks| - 1];
      StrategySeesTheChart(before, interval, max);
      BucketOfLast(before, interval);
      if before != [] { LaterBucketLaterMark(before[|before| - 1].at, m.at, interval); }
      StepEndsIn(Closes(before, interval), Taking(before, interval), Chart(before, interval, max), interval, max, m);
    }
  }

  lemma NothingSeen(max: nat)
    ensures EndsIn([], Open(0, 0, false), Candles([], 0), max)
  {
  }

  // ---------------------------------------------------------------- what a candle shows

  /** The prices of the marks in a bucket, in the order they came. */
  function PricesIn(marks: seq<Mark>, interval: nat, bucket: nat): seq<int>
    requires interval > 0
  {
    if marks == [] then []
    else
      var last := marks[|marks| - 1];
      PricesIn(marks[..|marks| - 1], interval, bucket) + if last.at / interval == bucket then [last.price] else []
  }

  /** Opened at the first price, closed at the last, as high as the highest and as
      low as the lowest. */
  predicate Shows(b: Bar, prices: seq<int>) {
    && prices != [] && b.open == prices[0] && b.close == prices[|prices| - 1]
    && b.high in prices && b.low in prices && forall p <- prices :: b.low <= p <= b.high
  }

  lemma NoneIn(marks: seq<Mark>, interval: nat, bucket: nat)
    requires interval > 0 && forall m <- marks :: m.at / interval != bucket
    ensures PricesIn(marks, interval, bucket) == []
  {
    if marks != [] { NoneIn(marks[..|marks| - 1], interval, bucket); }
  }

  lemma ExtendedShows(b: Bar, prices: seq<int>, price: int)
    requires Shows(b, prices)
    ensures Shows(Extended(b, price), prices + [price]) && Extended(b, price).time == b.time
  {
    var b', more := Extended(b, price), prices + [price];
    assert more[|prices|] == price && forall p <- prices :: p in more;
  }

  lemma EarlierIn(marks: seq<Mark>, interval: nat)
    requires interval > 0 && InOrder(marks) && marks != []
    ensures forall m <- marks :: m.at / interval <= marks[|marks| - 1].at / interval
  {
    var last := marks[|marks| - 1];
    forall m <- marks ensures m.at / interval <= last.at / interval {
      LaterBucketLaterMark(m.at, last.at, interval);
    }
  }

  /** On marks in time order the newest candle is that of the last mark's bucket
      and shows exactly the prices marked in it. */
  lemma {:induction false} NewestShows(marks: seq<Mark>, interval: nat, max: nat)
    requires interval > 0 && max > 0 && InOrder(marks) && marks != []
    ensures
      var s, bucket := Chart(marks, interval, max), marks[|marks| - 1].at / interval;
      && s.bars != [] && s.bucket == bucket && |s.bars| <= max
      && s.bars[|s.bars| - 1].time == bucket * interval / SECOND
      && Shows(s.bars[|s.bars| - 1], PricesIn(marks, interval, bucket))
  {
    hide Extended, Shows, PricesIn;
    var before, m := marks[..|marks| - 1], marks[|marks| - 1];
    var bucket := m.at / interval;
    LastPrice(marks, interval);
    if before == [] {
      NoneIn(before, interval, bucket);
      OnlyShows(Bar(bucket * interval / SECOND, m.price, m.price, m.price, m.price), m.price);
    } else {
      NewestShows(before, interval, max);
      EarlierIn(marks, interval);
      EarlierIn(before, interval);
      var s := Chart(before, interval, max);
      assert before[|before| - 1] in marks;
      if s.bucket == bucket {
        ExtendedShows(s.bars[|s.bars| - 1], PricesIn(before, interval, bucket), m.price);
      } else {
        NoneIn(before, interval, bucket);
        OnlyShows(Bar(bucket * interval / SECOND, m.price, m.price, m.price, m.price), m.price);
      }
    }
  }

  lemma LastPrice(marks: seq<Mark>, interval: nat)
    requires interval > 0 && marks != []
    ensures
      var m := marks[|marks| - 1];
      PricesIn(marks, interval, m.at / interval) ==
        PricesIn(marks[..|marks| - 1], interval, m.at / interval) + [m.price]
  {
  }

  lemma OnlyShows(b: Bar, price: int)
    requires b.open == b.high == b.low == b.close == price
    ensures Shows(b, [] + [price])
  {
  }

  /** Older candles are dropped from the far end and never change. */
  lemma OlderStand(s: Candles, interval: nat, max: nat, m: Mark)
    requires interval > 0 && max > 0 && s.bars != [] && |s.bars| <= max
    ensures
      var s' := Observed(s, interval, max, m);
      && s'.bars != []
      && if s'.bucket == s.bucket then s'.bars[..|s'.bars| - 1] == s.bars[..|s.bars| - 1]
         else s'.bars[..|s'.bars| - 1] == if |s.bars| == max then s.bars[1..] else s.bars
  {
    hide Extended;
  }
}
