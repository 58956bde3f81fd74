/** Minute candles, their aggregation into longer buckets, and the last value per bucket. */
module Candles {
  import opened Models

  datatype Candle = Candle(time: int, open: real, high: real, low: real, close: real)

  function BucketStart(epoch: int, seconds: int): int
    requires seconds > 0
  {
    epoch - epoch % seconds
  }

  /** A bucket's candle with one more folded in: same open, widened range, new close. */
  function Merge(a: Candle, b: Candle): Candle {
    Candle(a.time, a.open, Max(a.high, b.high), Min(a.low, b.low), b.close)
  }

  function Rebased(c: Candle, key: int): Candle {
    c.(time := key)
  }

  // ---------------------------------------------------------------- aggregation with a dictionary

  datatype Buckets = Buckets(order: seq<int>, candles: map<int, Candle>)

  predicate Filed(b: Buckets) {
    forall i :: 0 <= i < |b.order| ==> b.order[i] in b.candles
  }

  function Filing(b: Buckets, c: Candle, seconds: int): Buckets
    requires seconds > 0
  {
    var key := BucketStart(c.time, seconds);
    if key in b.candles then b.(candles := b.candles[key := Merge(b.candles[key], c)])
    else Buckets(b.order + [key], b.candles[key := Rebased(c, key)])
  }

  function FileAll(candles: seq<Candle>, seconds: int): (b: Buckets)
    requires seconds > 0
    ensures Filed(b) && forall k :: k in b.candles <==> k in b.order
  {
    if candles == [] then Buckets([], map[])
    else Filing(FileAll(candles[..|candles| - 1], seconds), candles[|candles| - 1], seconds)
  }

  function Listed(b: Buckets): seq<Candle>
    requires Filed(b)
  {
    seq(|b.order|, i requires 0 <= i < |b.order| => b.candles[b.order[i]])
  }

  /** Buckets of a minute or less leave the candles as they are. */
  function Aggregated(candles: seq<Candle>, seconds: int): seq<Candle> {
    if seconds <= 60 then candles else Listed(FileAll(candles, seconds))
  }

  method AggregateCandles(candles: seq<Candle>, seconds: int) returns (result: seq<Candle>)
    ensures result == Aggregated(candles, seconds)
  {
    if seconds <= 60 {
      return candles;
    }
    var buckets: map<int, Candle> := map[];
    var order: seq<int> := [];
    for i := 0 to |candles|
      invariant Buckets(order, buckets) == FileAll(candles[..i], seconds)
    {
      assert candles[..i + 1][..i] == candles[..i];
      var candle := candles[i];
      var key := BucketStart(candle.time, seconds);
      if key in buckets {
        buckets := buckets[key := Merge(buckets[key], candle)];
      } else {
        order := order + [key];
        buckets := buckets[key := Rebased(candle, key)];
      }
    }
    assert candles[..|candles|] == candles;
    result := seq(|order|, i requires 0 <= i < |order| => buckets[order[i]]);
  }

  // ---------------------------------------------------------------- what a bucket holds

  /** The candles of one bucket, in the order given. */
  function Members(candles: seq<Candle>, seconds: int, key: int): seq<Candle>
    requires seconds > 0
  {
    if candles == [] then []
    else Members(candles[..|candles| - 1], seconds, key)
         + (if BucketStart(candles[|candles| - 1].time, seconds) == key then [candles[|candles| - 1]] else [])
  }

  /** First open, highest high, lowest low, last close. */
  predicate Summarises(c: Candle, key: int, group: seq<Candle>) {
    && group != [] && c.time == key
    && c.open == group[0].open && c.close == group[|group| - 1].close
    && (forall g :: g in group ==> g.high <= c.high && c.low <= g.low)
    && (exists g :: g in group && g.high == c.high) && (exists g :: g in group && g.low == c.low)
  }

  lemma MergeSummarises(c: Candle, key: int, group: seq<Candle>, next: Candle)
    requires Summarises(c, key, group)
    ensures Summarises(Merge(c, next), key, group + [next])
  {
    var all := group + [next];
    assert next in all && forall g :: g in group ==> g in all;
    var top :| top in group && top.high == c.high;
    var bottom :| bottom in group && bottom.low == c.low;
    assert top in all && bottom in all;
  }

  /**
   Whatever the order of the candles, every bucket summarises exactly its members, and only buckets with members appear.
   */
  lemma {:induction false} BucketsSummarise(candles: seq<Candle>, seconds: int, key: int)
    requires seconds > 0
    ensures var b := FileAll(candles, seconds);
            && (key in b.candles <==> Members(candles, seconds, key) != [])
            && (key in b.candles ==> Summarises(b.candles[key], key, Members(candles, seconds, key)))
  {
    hide BucketStart, Merge, Summarises;
    if candles != [] {
      var front, last := candles[..|candles| - 1], candles[|candles| - 1];
      BucketsSummarise(front, seconds, key);
      if BucketStart(last.time, seconds) == key {
        var earlier := FileAll(front, seconds);
        if key in earlier.candles {
          MergeSummarises(earlier.candles[key], key, Members(front, seconds, key), last);
        } else {
          assert Members(candles, seconds, key) == [last];
          AloneSummarises(last, key);
        }
      } else {
        assert Members(candles, seconds, key) == Members(front, seconds, key);
      }
    }
  }

  lemma AloneSummarises(c: Candle, key: int)
    ensures Summarises(Rebased(c, key), key, [c])
  {
    assert c in [c];
  }

  // ---------------------------------------------------------------- sorted candles: only the last bucket is open

  predicate Sorted(candles: seq<Candle>) {
    forall i, j :: 0 <= i < j < |candles| ==> candles[i].time <= candles[j].time
  }

  function Extend(done: seq<Candle>, c: Candle, seconds: int): seq<Candle>
    requires seconds > 0
  {
    var key := BucketStart(c.time, seconds);
    if done != [] && done[|done| - 1].time == key then done[..|done| - 1] + [Merge(done[|done| - 1], c)]
    else done + [Rebased(c, key)]
  }

  function Running(candles: seq<Candle>, seconds: int): seq<Candle>
    requires seconds > 0
  {
    if candles == [] then [] else Extend(Running(candles[..|candles| - 1], seconds), candles[|candles| - 1], seconds)
  }

  lemma BucketMonotone(a: int, b: int, seconds: int)
    requires seconds > 0 && a <= b
    ensures BucketStart(a, seconds) <= BucketStart(b, seconds)
  {
    var qa, qb := a / seconds, b / seconds;
    assert a == seconds * qa + a % seconds && b == seconds * qb + b % seconds;
    if qa > qb {
      IntMonotone(qb + 1, qa, seconds);
      Distributes(seconds, qb, 1);
    }
    IntMonotone(if qa <= qb then qa else qb, qb, seconds);
  }

  lemma IntMonotone(a: int, b: int, k: int)
    requires a <= b && k >= 0
    ensures k * a <= k * b
  {
  }

  /** On sorted candles the dictionary only ever touches its newest bucket, so it equals the running form. */
  lemma {:induction false} RunningIsFiling(candles: seq<Candle>, seconds: int)
    requires seconds > 0 && Sorted(candles)
    ensures var b := FileAll(candles, seconds);
            && Listed(b) == Running(candles, seconds)
            && (forall i, j :: 0 <= i < j < |b.order| ==> b.order[i] < b.order[j])
            && (forall i :: 0 <= i < |b.order| ==> b.candles[b.order[i]].time == b.order[i])
            && (candles != [] ==>
                  b.order != []
                  && b.order[|b.order| - 1] == BucketStart(candles[|candles| - 1].time, seconds))
  {
    hide BucketStart, Filing, Extend, Merge, Listed;
    if candles == [] {
      NothingListed();
    } else {
      var front, last := candles[..|candles| - 1], candles[|candles| - 1];
      RunningIsFiling(front, seconds);
      if front != [] {
        BucketMonotone(front[|front| - 1].time, last.time, seconds);
      } else {
        NothingFiled(seconds);
      }
      FilingSorted(FileAll(front, seconds), last, seconds);
    }
  }

  lemma NothingListed()
    ensures Listed(Buckets([], map[])) == []
  {
  }

  lemma NothingFiled(seconds: int)
    requires seconds > 0
    ensures FileAll([], seconds) == Buckets([], map[])
  {
  }

  lemma FilingSorted(b: Buckets, c: Candle, seconds: int)
    requires seconds > 0 && Filed(b) && (forall k :: k in b.candles <==> k in b.order)
    requires forall i, j :: 0 <= i < j < |b.order| ==> b.order[i] < b.order[j]
    requires forall i :: 0 <= i < |b.order| ==> b.candles[b.order[i]].time == b.order[i]
    requires b.order != [] ==> b.order[|b.order| - 1] <= BucketStart(c.time, seconds)
    ensures var after := Filing(b, c, seconds);
            && Filed(after)
            && Listed(after) == Extend(Listed(b), c, seconds)
            && (forall i, j :: 0 <= i < j < |after.order| ==> after.order[i] < after.order[j])
            && (forall i :: 0 <= i < |after.order| ==> after.candles[after.order[i]].time == after.order[i])
            && after.order != [] && after.order[|after.order| - 1] == BucketStart(c.time, seconds)
  {
    hide BucketStart, Merge;
    var key := BucketStart(c.time, seconds);
    var after := Filing(b, c, seconds);
    var n := |b.order|;
    if key in b.candles {
      assert b.order[n - 1] == key;
      assert Listed(after) == Listed(b)[..n - 1] + [Merge(b.candles[key], c)];
      assert Merge(b.candles[key], c).time == key by { MergeKeepsTime(b.candles[key], c); }
    } else {
      assert n > 0 ==> b.order[n - 1] < key;
      assert Listed(after) == Listed(b) + [Rebased(c, key)];
    }
  }

  lemma MergeKeepsTime(a: Candle, b: Candle)
    ensures Merge(a, b).time == a.time
  {
  }

  // ---------------------------------------------------------------- composition

  predicate Divides(small: int, large: int) {
    small > 0 && large > 0 && large % small == 0
  }

  lemma RestFits(small: int, k: int, r: int, e: int)
    requires 0 <= r < k && 0 <= e < small
    ensures 0 <= small * r + e < small * k
  {
    IntMonotone(r + 1, k, small);
    Distributes(small, r, 1);
    IntMonotone(0, r, small);
  }

  lemma SplitQuotient(small: int, k: int, q: int)
    requires k > 0
    ensures small * q == small * k * (q / k) + small * (q % k)
  {
    Distributes(small, k * (q / k), q % k);
    Associates(small, k, q / k);
  }

  lemma BucketOfBucket(epoch: int, small: int, large: int)
    requires Divides(small, large)
    ensures BucketStart(BucketStart(epoch, small), large) == BucketStart(epoch, large)
  {
    var q, e, k := epoch / small, epoch % small, large / small;
    SplitQuotient(small, k, q);
    RestFits(small, k, q % k, e);
    RestFits(small, k, q % k, 0);
    RemainderOf(epoch, large, q / k, small * (q % k) + e);
    RemainderOf(small * q, large, q / k, small * (q % k));
  }

  lemma Distributes(a: int, b: int, c: int)
    ensures a * (b + c) == a * b + a * c
  {
  }

  lemma Associates(a: int, b: int, c: int)
    ensures a * (b * c) == a * b * c
  {
  }

  lemma RemainderOf(x: int, m: int, q: int, r: int)
    requires m > 0 && 0 <= r < m && x == m * q + r
    ensures x % m == r
  {
    var q', r' := x / m, x % m;
    assert x == m * q' + r';
    if q' > q {
      IntMonotone(q + 1, q', m);
      Distributes(m, q, 1);
    } else if q' < q {
      IntMonotone(q' + 1, q, m);
      Distributes(m, q', 1);
    }
  }

  lemma ExtendTwice(done: seq<Candle>, a: Candle, c: Candle, seconds: int)
    requires seconds > 0 && BucketStart(a.time, seconds) == BucketStart(c.time, seconds)
    ensures Extend(Extend(done, a, seconds), c, seconds) == Extend(done, Merge(a, c), seconds)
  {
    hide BucketStart;
    var once := Extend(done, a, seconds);
    assert once[..|once| - 1] == (if done != [] && done[|done| - 1].time == BucketStart(a.time, seconds)
                                  then done[..|done| - 1] else done);
  }

  lemma RunningSnoc(candles: seq<Candle>, c: Candle, seconds: int)
    requires seconds > 0
    ensures Running(candles + [c], seconds) == Extend(Running(candles, seconds), c, seconds)
  {
    assert (candles + [c])[..|candles|] == candles;
  }

  /** Aggregating in two steps is aggregating once, on the running form and for any candles at all. */
  lemma {:induction false} RunningComposes(candles: seq<Candle>, small: int, large: int)
    requires Divides(small, large)
    ensures Running(Running(candles, small), large) == Running(candles, large)
  {
    if candles != [] {
      var front, c := candles[..|candles| - 1], candles[|candles| - 1];
      RunningComposes(front, small, large);
      var fine := Running(front, small);
      var key := BucketStart(c.time, small);
      BucketOfBucket(c.time, small, large);
      hide BucketStart, Merge;
      if fine != [] && fine[|fine| - 1].time == key {
        var settled, open := fine[..|fine| - 1], fine[|fine| - 1];
        assert fine == settled + [open];
        RunningSnoc(settled, open, large);
        RunningSnoc(settled, Merge(open, c), large);
        ExtendTwice(Running(settled, large), open, c, large);
      } else {
        RunningSnoc(fine, Rebased(c, key), large);
        ExtendIgnoresTime(Running(fine, large), c, key, large);
      }
    }
  }

  lemma ExtendIgnoresTime(done: seq<Candle>, c: Candle, key: int, seconds: int)
    requires seconds > 0 && BucketStart(key, seconds) == BucketStart(c.time, seconds)
    ensures Extend(done, Rebased(c, key), seconds) == Extend(done, c, seconds)
  {
    hide BucketStart;
  }

  lemma {:induction false} RunningSorted(candles: seq<Candle>, seconds: int)
    requires seconds > 0 && Sorted(candles)
    ensures Sorted(Running(candles, seconds))
  {
    RunningIsFiling(candles, seconds);
  }

  /**
   For time-sorted candles, aggregating to one interval and then to a multiple of it is aggregating to the multiple.
   */
  lemma AggregationComposes(candles: seq<Candle>, small: int, large: int)
    requires Divides(small, large) && Sorted(candles)
    ensures Aggregated(Aggregated(candles, small), large) == Aggregated(candles, large)
  {
    if small > 60 {
      SmallerDivides(small, large);
      RunningIsFiling(candles, small);
      RunningIsFiling(candles, large);
      RunningSorted(candles, small);
      RunningIsFiling(Running(candles, small), large);
      RunningComposes(candles, small, large);
    }
  }

  lemma SmallerDivides(small: int, large: int)
    requires Divides(small, large)
    ensures small <= large
  {
    if large < small {
      RemainderOf(large, small, 0, large);
    }
  }

  /**
   Out of order the two disagree: when a later bucket interrupts an earlier one, the two-step close is the
   interrupter's.
   */
  lemma InterleavedDisagrees(a: Candle, b: Candle, c: Candle, small: int, large: int)
    requires Divides(small, large) && small > 60
    requires BucketStart(a.time, small) == BucketStart(c.time, small) != BucketStart(b.time, small)
    requires BucketStart(a.time, large) == BucketStart(b.time, large)
    requires b.close != c.close
    ensures Aggregated(Aggregated([a, b, c], small), large) != Aggregated([a, b, c], large)
  {
    SmallerDivides(small, large);
    BucketOfBucket(a.time, small, large);
    BucketOfBucket(b.time, small, large);
    BucketOfBucket(c.time, small, large);
    hide BucketStart, Filing, FileAll, Divides;
    FileThree(a, b, c, large);
    FileThree(a, b, c, small);
    var fine := InterleavedFine(a, b, c, small);
    FileTwo(fine[0], fine[1], large);
    assert fine == [fine[0], fine[1]];
    OneBucketClose(fine[0], fine[1], large);
    ThreeInOne(a, b, c, large);
  }

  lemma InterleavedFine(a: Candle, b: Candle, c: Candle, seconds: int) returns (fine: seq<Candle>)
    requires seconds > 0 && BucketStart(a.time, seconds) == BucketStart(c.time, seconds) != BucketStart(b.time, seconds)
    ensures fine == Listed(FileAll([a, b, c], seconds)) && |fine| == 2
    ensures fine[0].time == BucketStart(a.time, seconds) && fine[1].time == BucketStart(b.time, seconds)
            && fine[1].close == b.close
  {
    FileThree(a, b, c, seconds);
    hide BucketStart;
    fine := Listed(Filing(Filing(Filing(Buckets([], map[]), a, seconds), b, seconds), c, seconds));
  }

  lemma OneBucketClose(a: Candle, b: Candle, seconds: int)
    requires seconds > 0 && BucketStart(a.time, seconds) == BucketStart(b.time, seconds)
    ensures var all := Listed(FileAll([a, b], seconds)); |all| == 1 && all[0].close == b.close
  {
    FileTwo(a, b, seconds);
    hide BucketStart;
  }

  lemma ThreeInOne(a: Candle, b: Candle, c: Candle, seconds: int)
    requires seconds > 0 && BucketStart(a.time, seconds) == BucketStart(b.time, seconds) == BucketStart(c.time, seconds)
    ensures var all := Listed(FileAll([a, b, c], seconds)); |all| == 1 && all[0].close == c.close
  {
    FileThree(a, b, c, seconds);
    hide BucketStart;
  }

  lemma FileTwo(a: Candle, b: Candle, seconds: int)
    requires seconds > 0
    ensures FileAll([a, b], seconds) == Filing(Filing(Buckets([], map[]), a, seconds), b, seconds)
  {
    hide Filing;
    assert [a, b][..1] == [a] && [a][..0] == [];
    assert FileAll([a], seconds) == Filing(FileAll([], seconds), a, seconds);
  }

  lemma FileThree(a: Candle, b: Candle, c: Candle, seconds: int)
    requires seconds > 0
    ensures FileAll([a, b, c], seconds)
            == Filing(Filing(Filing(Buckets([], map[]), a, seconds), b, seconds), c, seconds)
  {
    hide Filing;
    FileTwo(a, b, seconds);
    assert [a, b, c][..2] == [a, b];
  }

  // ---------------------------------------------------------------- bars and their candles

  datatype BarRow = BarRow(epoch: int, spread: real)

  datatype Tick = Tick(epoch: int, spread: real)

  function InMinute(ticks: seq<Tick>, epoch: int): seq<real> {
    if ticks == [] then []
    else InMinute(ticks[..|ticks| - 1], epoch)
         + (if BucketStart(ticks[|ticks| - 1].epoch, 60) == BucketStart(epoch, 60) then [ticks[|ticks| - 1].spread]
            else [])
  }

  function Highest(values: seq<real>): real
    requires values != []
  {
    if |values| == 1 then values[0] else Max(Highest(values[..|values| - 1]), values[|values| - 1])
  }

  function Lowest(values: seq<real>): real
    requires values != []
  {
    if |values| == 1 then values[0] else Min(Lowest(values[..|values| - 1]), values[|values| - 1])
  }

  /** Range from the minute's ticks, close from the bar; a bar without ticks is flat. */
  function MinuteCandle(bar: BarRow, ticks: seq<Tick>): Candle {
    var values := InMinute(ticks, bar.epoch);
    if values == [] then Candle(bar.epoch, bar.spread, bar.spread, bar.spread, bar.spread)
    else Candle(bar.epoch, values[0], Highest(values), Lowest(values), bar.spread)
  }

  /** The tick belongs to the minute of the bar. */
  predicate SameMinute(tick: Tick, bar: BarRow) {
    bar.epoch - bar.epoch % 60 <= tick.epoch < bar.epoch - bar.epoch % 60 + 60
  }

  lemma {:induction false} InMinuteAre(bar: BarRow, ticks: seq<Tick>)
    ensures forall v :: v in InMinute(ticks, bar.epoch)
                        <==> exists t :: t in ticks && SameMinute(t, bar) && t.spread == v
    ensures InMinute(ticks, bar.epoch) != [] ==>
              exists i :: 0 <= i < |ticks| && SameMinute(ticks[i], bar)
                          && InMinute(ticks, bar.epoch)[0] == ticks[i].spread
                          && forall j :: 0 <= j < i ==> !SameMinute(ticks[j], bar)
  {
    if ticks != [] {
      var n := |ticks| - 1;
      InMinuteAre(bar, ticks[..n]);
      assert ticks == ticks[..n] + [ticks[n]];
      assert BucketStart(ticks[n].epoch, 60) == BucketStart(bar.epoch, 60) <==> SameMinute(ticks[n], bar);
      if InMinute(ticks[..n], bar.epoch) == [] && SameMinute(ticks[n], bar) {
        assert forall t :: t in ticks[..n] && SameMinute(t, bar) ==> t.spread in InMinute(ticks[..n], bar.epoch);
        assert forall j :: 0 <= j < n ==> ticks[j] in ticks[..n];
      } else if InMinute(ticks[..n], bar.epoch) != [] {
        var i :| 0 <= i < n && SameMinute(ticks[..n][i], bar)
          && InMinute(ticks[..n], bar.epoch)[0] == ticks[..n][i].spread
                 && forall j :: 0 <= j < i ==> !SameMinute(ticks[..n][j], bar);
        assert ticks[i] == ticks[..n][i] && forall j :: 0 <= j < i ==> ticks[j] == ticks[..n][j];
      }
    }
  }

  lemma {:induction false} Extrema(values: seq<real>)
    requires values != []
    ensures Highest(values) in values && Lowest(values) in values
    ensures forall v :: v in values ==> Lowest(values) <= v <= Highest(values)
  {
    if |values| > 1 {
      Extrema(values[..|values| - 1]);
      assert values == values[..|values| - 1] + [values[|values| - 1]];
    }
  }

  /**
   A minute's candle: the close is the bar's, the range is exactly that of the ticks of its minute and the open the
   first of them; without any the candle is flat at the bar.
   */
  lemma MinuteCandleShows(bar: BarRow, ticks: seq<Tick>)
    ensures var c := MinuteCandle(bar, ticks);
            && c.time == bar.epoch && c.close == bar.spread
            && ((forall t :: t in ticks ==> !SameMinute(t, bar)) ==> c.open == c.high == c.low == bar.spread)
            && ((exists t :: t in ticks && SameMinute(t, bar)) ==>
                  && (forall t :: t in ticks && SameMinute(t, bar) ==> c.low <= t.spread <= c.high)
                  && (exists t :: t in ticks && SameMinute(t, bar) && t.spread == c.high)
                  && (exists t :: t in ticks && SameMinute(t, bar) && t.spread == c.low)
                  && (exists i :: 0 <= i < |ticks| && SameMinute(ticks[i], bar) && c.open == ticks[i].spread
                                  && forall j :: 0 <= j < i ==> !SameMinute(ticks[j], bar)))
  {
    InMinuteAre(bar, ticks);
    var values := InMinute(ticks, bar.epoch);
    assert forall t :: t in ticks && SameMinute(t, bar) ==> t.spread in values;
    if values != [] {
      Extrema(values);
    }
    hide InMinute, Highest, Lowest, SameMinute;
  }

  function MinuteCandles(bars: seq<BarRow>, ticks: seq<Tick>): seq<Candle> {
    seq(|bars|, i requires 0 <= i < |bars| => MinuteCandle(bars[i], ticks))
  }

  datatype Last = Last(time: int, spread: real)

  datatype LastBuckets = LastBuckets(order: seq<int>, values: map<int, real>)

  function LastFiled(bars: seq<BarRow>, seconds: int): (b: LastBuckets)
    requires seconds > 0
    ensures forall i :: 0 <= i < |b.order| ==> b.order[i] in b.values
  {
    if bars == [] then LastBuckets([], map[])
    else
      var b := LastFiled(bars[..|bars| - 1], seconds);
      var key := BucketStart(bars[|bars| - 1].epoch, seconds);
      LastBuckets(if key in b.values then b.order else b.order + [key], b.values[key := bars[|bars| - 1].spread])
  }

  function LastListed(b: LastBuckets): seq<Last>
    requires forall i :: 0 <= i < |b.order| ==> b.order[i] in b.values
  {
    seq(|b.order|, i requires 0 <= i < |b.order| => Last(b.order[i], b.values[b.order[i]]))
  }

  method BucketLast(bars: seq<BarRow>, seconds: int) returns (result: seq<Last>)
    requires seconds > 0
    ensures result == LastListed(LastFiled(bars, seconds))
  {
    var values: map<int, real> := map[];
    var order: seq<int> := [];
    for i := 0 to |bars|
      invariant LastBuckets(order, values) == LastFiled(bars[..i], seconds)
    {
      assert bars[..i + 1][..i] == bars[..i];
      var key := BucketStart(bars[i].epoch, seconds);
      if key !in values {
        order := order + [key];
      }
      values := values[key := bars[i].spread];
    }
    assert bars[..|bars|] == bars;
    result := seq(|order|, i requires 0 <= i < |order| => Last(order[i], values[order[i]]));
  }

  lemma {:induction false} SameBuckets(bars: seq<BarRow>, ticks: seq<Tick>, seconds: int)
    requires seconds > 0
    ensures var (c, l) := (FileAll(MinuteCandles(bars, ticks), seconds), LastFiled(bars, seconds));
            && c.order == l.order && c.candles.Keys == l.values.Keys
            && forall k :: k in l.values ==> c.candles[k].time == k && c.candles[k].close == l.values[k]
  {
    if bars != [] {
      var front := bars[..|bars| - 1];
      SameBuckets(front, ticks, seconds);
      assert MinuteCandles(bars, ticks)[..|bars| - 1] == MinuteCandles(front, ticks);
      hide InMinute, Highest, Lowest;
    }
  }

  /** Every aggregated candle sits at the time of its bucket's last value and closes on it. */
  lemma LastValueIsClose(bars: seq<BarRow>, ticks: seq<Tick>, seconds: int)
    requires seconds > 60
    ensures var candles := Aggregated(MinuteCandles(bars, ticks), seconds);
            var lasts := LastListed(LastFiled(bars, seconds));
            && |candles| == |lasts|
            && forall i :: 0 <= i < |lasts| ==> candles[i].time == lasts[i].time && candles[i].close == lasts[i].spread
  {
    SameBuckets(bars, ticks, seconds);
  }

  /** At intervals of a minute or less the same holds for distinct bars on the interval's grid. */
  lemma {:induction false} LastValueIsCloseOnGrid(bars: seq<BarRow>, seconds: int)
    requires 0 < seconds <= 60
    requires forall i, j :: 0 <= i < j < |bars| ==> bars[i].epoch != bars[j].epoch
    requires forall i :: 0 <= i < |bars| ==> bars[i].epoch % seconds == 0
    ensures var b := LastFiled(bars, seconds);
            && LastListed(b) == seq(|bars|, i requires 0 <= i < |bars| => Last(bars[i].epoch, bars[i].spread))
            && |b.order| == |bars| && (forall i :: 0 <= i < |bars| ==> b.order[i] == bars[i].epoch)
            && forall k :: k in b.values ==> k in b.order
  {
    if bars != [] {
      var front, last := bars[..|bars| - 1], bars[|bars| - 1];
      LastValueIsCloseOnGrid(front, seconds);
      var b := LastFiled(front, seconds);
      assert last.epoch !in b.order;
      forall i | 0 <= i < |bars|
        ensures LastListed(LastFiled(bars, seconds))[i] == Last(bars[i].epoch, bars[i].spread)
      {
        if i < |front| {
          assert LastListed(b)[i] == Last(bars[i].epoch, bars[i].spread);
        }
      }
    }
  }
}
