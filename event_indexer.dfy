/**
 * lib/memecore/event-indexer.ts: swap events of a pool, grouped into OHLC
 * candles per period. Prices and volumes are taken as exact reals; how the
 * source derives them from swap amounts in floating point is not modelled.
 */
module EventIndexer {
  import JsMath
  import Strings

  // ----- `Array.prototype.sort` with a numeric comparator -----

  predicate SortedBy<T>(xs: seq<T>, key: T -> int) {
    forall i, j :: 0 <= i < j < |xs| ==> key(xs[i]) <= key(xs[j])
  }

  /** The elements whose key is `k`, in order. */
  function WithKey<T>(xs: seq<T>, key: T -> int, k: int): (r: seq<T>)
    ensures |r| <= |xs|
  {
    if xs == [] then []
    else (if key(xs[0]) == k then [xs[0]] else []) + WithKey(xs[1..], key, k)
  }

  /** Places `x` before the first element with a greater or equal key. */
  function InsertBy<T>(x: T, xs: seq<T>, key: T -> int): (r: seq<T>)
    requires SortedBy(xs, key)
    ensures SortedBy(r, key)
    ensures multiset(r) == multiset(xs) + multiset{x}
    ensures |r| == |xs| + 1
    ensures r[0] == x || (xs != [] && r[0] == xs[0])
  {
    if xs == [] || key(x) <= key(xs[0]) then
      PrependSorted(x, xs, key);
      [x] + xs
    else
      var rest := InsertBy(x, xs[1..], key);
      InsertStep(x, xs, rest, key);
      [xs[0]] + rest
  }

  /** The step case of `InsertBy`: `x` went into the tail, behind the head. */
  lemma InsertStep<T>(x: T, xs: seq<T>, rest: seq<T>, key: T -> int)
    requires SortedBy(xs, key) && xs != [] && key(xs[0]) < key(x)
    requires SortedBy(rest, key) && |rest| == |xs|
    requires multiset(rest) == multiset(xs[1..]) + multiset{x}
    requires rest[0] == x || (xs[1..] != [] && rest[0] == xs[1..][0])
    ensures SortedBy([xs[0]] + rest, key)
    ensures multiset([xs[0]] + rest) == multiset(xs) + multiset{x}
  {
    assert xs == [xs[0]] + xs[1..];
    PrependSorted(xs[0], rest, key);
  }

  lemma PrependSorted<T>(x: T, xs: seq<T>, key: T -> int)
    requires SortedBy(xs, key)
    requires xs != [] ==> key(x) <= key(xs[0])
    ensures SortedBy([x] + xs, key)
  {
    var r := [x] + xs;
    forall i, j | 0 <= i < j < |r| ensures key(r[i]) <= key(r[j]) {
      if i == 0 && j > 1 {
        assert r[j] == xs[j - 1];
        assert key(xs[0]) <= key(xs[j - 1]);
      }
    }
  }

  /**
   * `xs.sort((a, b) => key(a) - key(b))`, a stable sort: elements with equal
   * keys keep their relative order.
   */
  function SortBy<T>(xs: seq<T>, key: T -> int): (r: seq<T>)
    ensures SortedBy(r, key)
    ensures multiset(r) == multiset(xs)
    ensures |r| == |xs|
  {
    if xs == [] then []
    else
      assert xs == [xs[0]] + xs[1..];
      InsertBy(xs[0], SortBy(xs[1..], key), key)
  }

  lemma {:induction false} InsertByWithKey<T>(x: T, xs: seq<T>, key: T -> int, k: int)
    requires SortedBy(xs, key)
    ensures WithKey(InsertBy(x, xs, key), key, k)
            == (if key(x) == k then [x] else []) + WithKey(xs, key, k)
  {
    var mine := if key(x) == k then [x] else [];
    if xs == [] || key(x) <= key(xs[0]) {
      assert InsertBy(x, xs, key) == [x] + xs;
      WithKeyCons(x, xs, key, k);
    } else {
      var rest := InsertBy(x, xs[1..], key);
      assert InsertBy(x, xs, key) == [xs[0]] + rest;
      InsertByWithKey(x, xs[1..], key, k);
      InsertWithKeyStep(x, xs, rest, key, k);
    }
  }

  /** The step case of `InsertByWithKey`: `x` went into the tail, behind a head with a smaller key. */
  lemma InsertWithKeyStep<T>(x: T, xs: seq<T>, rest: seq<T>, key: T -> int, k: int)
    requires xs != [] && key(xs[0]) < key(x)
    requires WithKey(rest, key, k) == (if key(x) == k then [x] else []) + WithKey(xs[1..], key, k)
    ensures WithKey([xs[0]] + rest, key, k)
            == (if key(x) == k then [x] else []) + WithKey(xs, key, k)
  {
    var mine := if key(x) == k then [x] else [];
    WithKeyCons(xs[0], rest, key, k);
    assert xs == [xs[0]] + xs[1..];
    WithKeyCons(xs[0], xs[1..], key, k);
    var tail := WithKey(xs[1..], key, k);
    if key(x) == k {
      assert [] + (mine + tail) == mine + ([] + tail);
    } else {
      var head := if key(xs[0]) == k then [xs[0]] else [];
      assert head + ([] + tail) == [] + (head + tail);
    }
  }

  lemma WithKeyCons<T>(a: T, s: seq<T>, key: T -> int, k: int)
    ensures WithKey([a] + s, key, k) == (if key(a) == k then [a] else []) + WithKey(s, key, k)
  {
    assert ([a] + s)[1..] == s;
  }

  /** The sort is stable: for every key, the elements with that key keep their order. */
  lemma {:induction false} SortByStable<T>(xs: seq<T>, key: T -> int, k: int)
    ensures WithKey(SortBy(xs, key), key, k) == WithKey(xs, key, k)
  {
    if xs != [] {
      SortByStable(xs[1..], key, k);
      InsertByWithKey(xs[0], SortBy(xs[1..], key), key, k);
    }
  }

  // ----- Events and candles -----

  /** The chart intervals and their lengths in seconds. */
  datatype Interval = FiveMinutes | FifteenMinutes | OneHour | FourHours | OneDay {
    function Seconds(): (p: nat)
      ensures p > 0 && p % 300 == 0
    {
      match this
      case FiveMinutes => 5 * 60
      case FifteenMinutes => 15 * 60
      case OneHour => 60 * 60
      case FourHours => 4 * 60 * 60
      case OneDay => 24 * 60 * 60
    }
  }

  /** `SwapEvent`, keeping the fields the candles use. */
  datatype SwapEvent = SwapEvent(blockNumber: nat, blockTimestamp: int, priceInM: real, volumeInM: real)

  datatype Candle = Candle(timestamp: int, open: real, high: real, low: real, close: real,
                           volume: real, trades: nat)

  function EventTime(e: SwapEvent): int { e.blockTimestamp }

  function CandleTime(c: Candle): int { c.timestamp }

  /**
   * `Math.floor(ts / period) * period`: the start of the period holding
   * `ts` (Dafny's `/` with a positive divisor rounds down, as `Math.floor`
   * does).
   */
  function PeriodStart(ts: int, period: int): (start: int)
    requires period > 0
    ensures start <= ts < start + period
  {
    DivisionRemainder(ts, period);
    (ts / period) * period
  }

  lemma DivisionRemainder(a: int, b: int)
    requires b > 0
    ensures a == (a / b) * b + a % b && 0 <= a % b < b
  {
  }

  /** The events of the period starting at `start`, in input order. */
  function Bucket(events: seq<SwapEvent>, period: int, start: int): (b: seq<SwapEvent>)
    requires period > 0
  {
    if events == [] then []
    else
      var last := events[|events| - 1];
      Bucket(events[..|events| - 1], period, start)
      + (if PeriodStart(last.blockTimestamp, period) == start then [last] else [])
  }

  /** The period starts of `events`, in order of first appearance (the `Map`'s key order). */
  function FirstSeenStarts(events: seq<SwapEvent>, period: int): (starts: seq<int>)
    requires period > 0
  {
    if events == [] then []
    else
      var starts := FirstSeenStarts(events[..|events| - 1], period);
      var start := PeriodStart(events[|events| - 1].blockTimestamp, period);
      if start in starts then starts else starts + [start]
  }

  predicate Distinct(xs: seq<int>) {
    forall i, j :: 0 <= i < j < |xs| ==> xs[i] != xs[j]
  }

  /** A period start is listed exactly when its bucket is non-empty, and none is listed twice. */
  lemma {:induction false} FirstSeenStartsBuckets(events: seq<SwapEvent>, period: int)
    requires period > 0
    ensures Distinct(FirstSeenStarts(events, period))
    ensures forall start :: start in FirstSeenStarts(events, period) <==> Bucket(events, period, start) != []
  {
    if events != [] {
      var prefix := events[..|events| - 1];
      FirstSeenStartsBuckets(prefix, period);
    }
  }

  function MaxPrice(events: seq<SwapEvent>): (m: real)
    requires events != []
    ensures forall i :: 0 <= i < |events| ==> events[i].priceInM <= m
    ensures exists i :: 0 <= i < |events| && events[i].priceInM == m
  {
    var last := events[|events| - 1].priceInM;
    if |events| == 1 then last
    else
      var m := MaxPrice(events[..|events| - 1]);
      if m >= last then m else last
  }

  function MinPrice(events: seq<SwapEvent>): (m: real)
    requires events != []
    ensures forall i :: 0 <= i < |events| ==> m <= events[i].priceInM
    ensures exists i :: 0 <= i < |events| && events[i].priceInM == m
  {
    var last := events[|events| - 1].priceInM;
    if |events| == 1 then last
    else
      var m := MinPrice(events[..|events| - 1]);
      if m <= last then m else last
  }

  /** `events.reduce((sum, e) => sum + e.volumeInM, 0)`. */
  function SumVolume(events: seq<SwapEvent>): real {
    if events == [] then 0.0
    else SumVolume(events[..|events| - 1]) + events[|events| - 1].volumeInM
  }

  /** The candle of one period: first and last price, extremes, total volume, count. */
  function CandleOf(start: int, bucket: seq<SwapEvent>): (c: Candle)
    requires bucket != []
    ensures c.timestamp == start && c.trades == |bucket|
    ensures c.open == bucket[0].priceInM && c.close == bucket[|bucket| - 1].priceInM
    ensures c.low <= c.open <= c.high && c.low <= c.close <= c.high
    ensures forall e :: e in bucket ==> c.low <= e.priceInM <= c.high
  {
    Candle(start, bucket[0].priceInM, MaxPrice(bucket), MinPrice(bucket),
           bucket[|bucket| - 1].priceInM, SumVolume(bucket), |bucket|)
  }

  /** The candles for the period starts `starts`, in that order, before sorting. */
  function Unsorted(events: seq<SwapEvent>, period: int, starts: seq<int>): (cs: seq<Candle>)
    requires period > 0
    requires forall start :: start in starts ==> Bucket(events, period, start) != []
    ensures |cs| == |starts|
  {
    if starts == [] then []
    else
      var start := starts[|starts| - 1];
      Unsorted(events, period, starts[..|starts| - 1]) + [CandleOf(start, Bucket(events, period, start))]
  }

  lemma {:induction false} UnsortedAt(events: seq<SwapEvent>, period: int, starts: seq<int>, j: int)
    requires period > 0
    requires forall start :: start in starts ==> Bucket(events, period, start) != []
    requires 0 <= j < |starts|
    ensures Unsorted(events, period, starts)[j] == CandleOf(starts[j], Bucket(events, period, starts[j]))
  {
    if j < |starts| - 1 {
      var prefix := starts[..|starts| - 1];
      assert prefix[j] == starts[j];
      UnsortedAt(events, period, prefix, j);
    }
  }

  /** The candles `buildOHLCCandles` returns: one per period with events, sorted by start. */
  function Candles(events: seq<SwapEvent>, interval: Interval): (cs: seq<Candle>)
    ensures SortedBy(cs, CandleTime)
  {
    if events == [] then []
    else
      var period := interval.Seconds();
      FirstSeenStartsBuckets(events, period);
      SortBy(Unsorted(events, period, FirstSeenStarts(events, period)), CandleTime)
  }

  /**
   * The grouping loop of `buildOHLCCandles`: a map from period start to the
   * period's events, and its keys in insertion order.
   */
  method GroupByPeriod(events: seq<SwapEvent>, period: int)
    returns (groups: map<int, seq<SwapEvent>>, order: seq<int>)
    requires period > 0
    ensures order == FirstSeenStarts(events, period)
    ensures forall start :: start in groups <==> start in order
    ensures forall start :: start in groups ==> groups[start] == Bucket(events, period, start)
  {
    groups := map[];
    order := [];
    for i := 0 to |events|
      invariant order == FirstSeenStarts(events[..i], period)
      invariant forall start :: start in groups <==> start in order
      invariant forall start :: start in groups ==> groups[start] == Bucket(events[..i], period, start)
    {
      assert events[..i + 1][..i] == events[..i];
      var start := PeriodStart(events[i].blockTimestamp, period);
      ghost var before := groups;
      if start !in groups {
        groups := groups[start := []];
        order := order + [start];
      }
      groups := groups[start := groups[start] + [events[i]]];
      GroupStep(events, period, i, before, groups, start);
    }
    assert events[..|events|] == events;
  }

  lemma GroupStep(events: seq<SwapEvent>, period: int, i: int,
                  before: map<int, seq<SwapEvent>>, after: map<int, seq<SwapEvent>>, start: int)
    requires period > 0 && 0 <= i < |events|
    requires start == PeriodStart(events[i].blockTimestamp, period)
    requires forall s :: s in before <==> s in FirstSeenStarts(events[..i], period)
    requires forall s :: s in before ==> before[s] == Bucket(events[..i], period, s)
    requires after == before[start := (if start in before then before[start] else []) + [events[i]]]
    ensures forall s :: s in after ==> after[s] == Bucket(events[..i + 1], period, s)
  {
    assert events[..i + 1][..i] == events[..i];
    FirstSeenStartsBuckets(events[..i], period);
    forall s | s in after ensures after[s] == Bucket(events[..i + 1], period, s) {
      if s == start && start !in before {
        assert Bucket(events[..i], period, s) == [];
      }
    }
  }

  /** The candle loop of `buildOHLCCandles`: one candle per key, in key order. */
  method CandlesInKeyOrder(events: seq<SwapEvent>, period: int,
                           groups: map<int, seq<SwapEvent>>, order: seq<int>)
    returns (unsorted: seq<Candle>)
    requires period > 0
    requires forall t :: 0 <= t < |order| ==> order[t] in groups
    requires forall start :: start in groups ==> groups[start] == Bucket(events, period, start)
    requires forall start :: start in order ==> Bucket(events, period, start) != []
    ensures unsorted == Unsorted(events, period, order)
  {
    unsorted := [];
    for j := 0 to |order|
      invariant unsorted == Unsorted(events, period, order[..j])
    {
      assert order[j] in order;
      var bucket := groups[order[j]];
      assert order[..j + 1][..j] == order[..j];
      unsorted := unsorted + [CandleOf(order[j], bucket)];
    }
    assert order[..|order|] == order;
  }

  /**
   * `buildOHLCCandles`: group the events by period start in a map whose
   * keys remember their first appearance, build one candle per key in that
   * order, then sort by start.
   */
  method BuildOHLCCandles(events: seq<SwapEvent>, interval: Interval) returns (candles: seq<Candle>)
    ensures candles == Candles(events, interval)
  {
    if |events| == 0 {
      return [];
    }
    var period := interval.Seconds();
    var groups, order := GroupByPeriod(events, period);
    FirstSeenStartsBuckets(events, period);
    forall t | 0 <= t < |order| ensures order[t] in groups {
      assert order[t] in order;
    }
    var unsorted := CandlesInKeyOrder(events, period, groups, order);
    candles := SortBy(unsorted, CandleTime);
  }

  // ----- What the candles promise -----

  lemma {:induction false} WithKeyAtLeastOne<T>(xs: seq<T>, key: T -> int, j: int)
    requires 0 <= j < |xs|
    ensures |WithKey(xs, key, key(xs[j]))| >= 1
  {
    if j > 0 {
      WithKeyAtLeastOne(xs[1..], key, j - 1);
    }
  }

  lemma {:induction false} WithKeyAtLeastTwo<T>(xs: seq<T>, key: T -> int, i: int, j: int)
    requires 0 <= i < j < |xs| && key(xs[i]) == key(xs[j])
    ensures |WithKey(xs, key, key(xs[i]))| >= 2
  {
    if i == 0 {
      WithKeyAtLeastOne(xs[1..], key, j - 1);
    } else {
      WithKeyAtLeastTwo(xs[1..], key, i - 1, j - 1);
    }
  }

  lemma {:induction false} WithKeyAtMostOne<T>(xs: seq<T>, key: T -> int, k: int)
    requires forall i, j :: 0 <= i < j < |xs| ==> key(xs[i]) != key(xs[j])
    ensures |WithKey(xs, key, k)| <= 1
  {
    if xs != [] {
      WithKeyAtMostOne(xs[1..], key, k);
      if key(xs[0]) == k {
        WithKeyNone(xs[1..], key, k);
      }
    }
  }

  lemma {:induction false} WithKeyNone<T>(xs: seq<T>, key: T -> int, k: int)
    requires forall i :: 0 <= i < |xs| ==> key(xs[i]) != k
    ensures WithKey(xs, key, k) == []
  {
    if xs != [] {
      WithKeyNone(xs[1..], key, k);
    }
  }

  /** The pre-sort candles carry the distinct period starts as their timestamps. */
  lemma UnsortedTimes(events: seq<SwapEvent>, period: int)
    requires period > 0
    ensures forall start :: start in FirstSeenStarts(events, period) ==> Bucket(events, period, start) != []
    ensures var u := Unsorted(events, period, FirstSeenStarts(events, period));
      && |u| == |FirstSeenStarts(events, period)|
      && (forall j :: 0 <= j < |u| ==> u[j].timestamp == FirstSeenStarts(events, period)[j])
      && (forall i, j :: 0 <= i < j < |u| ==> CandleTime(u[i]) != CandleTime(u[j]))
  {
    var starts := FirstSeenStarts(events, period);
    FirstSeenStartsBuckets(events, period);
    var u := Unsorted(events, period, starts);
    forall j | 0 <= j < |u| ensures u[j].timestamp == starts[j] {
      UnsortedAt(events, period, starts, j);
    }
  }

  /** Sorting elements with distinct keys orders them strictly. */
  lemma SortDistinctStrict<T>(xs: seq<T>, key: T -> int)
    requires forall i, j :: 0 <= i < j < |xs| ==> key(xs[i]) != key(xs[j])
    ensures forall i, j :: 0 <= i < j < |SortBy(xs, key)| ==>
      key(SortBy(xs, key)[i]) < key(SortBy(xs, key)[j])
  {
    var ys := SortBy(xs, key);
    forall i, j | 0 <= i < j < |ys| ensures key(ys[i]) < key(ys[j]) {
      var k := key(ys[i]);
      WithKeyAtMostOne(xs, key, k);
      SortByStable(xs, key, k);
      if key(ys[j]) == k {
        WithKeyAtLeastTwo(ys, key, i, j);
      }
    }
  }

  /** Candle timestamps are distinct and strictly ascending. */
  lemma CandlesStrictlyAscending(events: seq<SwapEvent>, interval: Interval)
    ensures forall i, j :: 0 <= i < j < |Candles(events, interval)| ==>
      Candles(events, interval)[i].timestamp < Candles(events, interval)[j].timestamp
  {
    if events != [] {
      var period := interval.Seconds();
      UnsortedTimes(events, period);
      var u := Unsorted(events, period, FirstSeenStarts(events, period));
      SortDistinctStrict(u, CandleTime);
      assert Candles(events, interval) == SortBy(u, CandleTime);
    }
  }

  lemma {:induction false} BucketMembers(events: seq<SwapEvent>, period: int, start: int)
    requires period > 0
    ensures forall e :: e in Bucket(events, period, start) ==>
      e in events && PeriodStart(e.blockTimestamp, period) == start
  {
    if events != [] {
      BucketMembers(events[..|events| - 1], period, start);
    }
  }

  lemma {:induction false} EventInItsBucket(events: seq<SwapEvent>, period: int, e: SwapEvent)
    requires period > 0 && e in events
    ensures e in Bucket(events, period, PeriodStart(e.blockTimestamp, period))
  {
    if events[|events| - 1] != e {
      var prefix := events[..|events| - 1];
      assert events == prefix + [events[|events| - 1]];
      EventInItsBucket(prefix, period, e);
    }
  }

  /** Each candle is the candle of the period its timestamp starts. */
  lemma CandleOfItsPeriod(events: seq<SwapEvent>, interval: Interval, i: int)
    requires 0 <= i < |Candles(events, interval)|
    ensures var c := Candles(events, interval)[i];
      var b := Bucket(events, interval.Seconds(), c.timestamp);
      b != [] && c == CandleOf(c.timestamp, b)
  {
    var period := interval.Seconds();
    var starts := FirstSeenStarts(events, period);
    FirstSeenStartsBuckets(events, period);
    var u := Unsorted(events, period, starts);
    var cs := Candles(events, interval);
    assert events != [];
    assert cs == SortBy(u, CandleTime);
    var j := SortedElementFrom(u, CandleTime, cs, i);
    UnsortedAt(events, period, starts, j);
  }

  /** Every element of a sorted sequence is an element of its input. */
  lemma SortedElementFrom<T>(xs: seq<T>, key: T -> int, r: seq<T>, i: int) returns (j: int)
    requires r == SortBy(xs, key) && 0 <= i < |r|
    ensures 0 <= j < |xs| && xs[j] == r[i]
  {
    assert r[i] in multiset(r);
    assert r[i] in multiset(xs);
    j :| 0 <= j < |xs| && xs[j] == r[i];
  }

  /**
   * Each candle is its period's candle: its open is the period's first
   * price and its close the last, in input order; its high and low bound
   * every price of the period; its volume is the period's total and its
   * trade count the number of the period's events, all of which lie in
   * [timestamp, timestamp + period).
   */
  lemma CandleContents(events: seq<SwapEvent>, interval: Interval, i: int)
    requires 0 <= i < |Candles(events, interval)|
    ensures var c := Candles(events, interval)[i];
      var period := interval.Seconds();
      var b := Bucket(events, period, c.timestamp);
      && b != []
      && c.open == b[0].priceInM && c.close == b[|b| - 1].priceInM
      && c.low <= c.open <= c.high && c.low <= c.close <= c.high
      && c.volume == SumVolume(b) && c.trades == |b|
      && (forall e :: e in b ==> e in events && c.low <= e.priceInM <= c.high)
      && (forall e :: e in b ==> c.timestamp <= e.blockTimestamp < c.timestamp + period)
  {
    var c := Candles(events, interval)[i];
    CandleOfItsPeriod(events, interval, i);
    CandleFacts(c, Bucket(events, interval.Seconds(), c.timestamp));
    BucketMembers(events, interval.Seconds(), c.timestamp);
  }

  lemma CandleFacts(c: Candle, b: seq<SwapEvent>)
    requires b != [] && c == CandleOf(c.timestamp, b)
    ensures c.open == b[0].priceInM && c.close == b[|b| - 1].priceInM
    ensures c.low <= c.open <= c.high && c.low <= c.close <= c.high
    ensures c.volume == SumVolume(b) && c.trades == |b|
    ensures forall e :: e in b ==> c.low <= e.priceInM <= c.high
  {
  }

  lemma InSorted<T>(xs: seq<T>, key: T -> int, x: T)
    requires x in xs
    ensures x in SortBy(xs, key)
  {
    assert x in multiset(xs);
  }

  /** Every event has the candle of its period among the candles. */
  lemma EveryEventHasACandle(events: seq<SwapEvent>, interval: Interval, e: SwapEvent)
    requires e in events
    ensures exists c :: (c in Candles(events, interval)
      && c.timestamp == PeriodStart(e.blockTimestamp, interval.Seconds()))
  {
    var period := interval.Seconds();
    var start := PeriodStart(e.blockTimestamp, period);
    var starts := FirstSeenStarts(events, period);
    UnsortedTimes(events, period);
    EventInItsBucket(events, period, e);
    FirstSeenStartsBuckets(events, period);
    assert Bucket(events, period, start) != [];
    assert start in starts;
    var j :| 0 <= j < |starts| && starts[j] == start;
    var u := Unsorted(events, period, starts);
    InSorted(u, CandleTime, u[j]);
    assert u[j] in Candles(events, interval);
  }

  function SumTrades(cs: seq<Candle>): nat {
    if cs == [] then 0 else cs[0].trades + SumTrades(cs[1..])
  }

  lemma {:induction false} SumTradesAppend(cs: seq<Candle>, c: Candle)
    ensures SumTrades(cs + [c]) == SumTrades(cs) + c.trades
  {
    if cs != [] {
      assert (cs + [c])[1..] == cs[1..] + [c];
      SumTradesAppend(cs[1..], c);
    }
  }

  lemma {:induction false} SumTradesInsert(c: Candle, cs: seq<Candle>)
    requires SortedBy(cs, CandleTime)
    ensures SumTrades(InsertBy(c, cs, CandleTime)) == c.trades + SumTrades(cs)
  {
    if cs != [] && CandleTime(c) > CandleTime(cs[0]) {
      SumTradesInsert(c, cs[1..]);
      assert ([cs[0]] + InsertBy(c, cs[1..], CandleTime))[1..] == InsertBy(c, cs[1..], CandleTime);
    }
  }

  lemma {:induction false} SumTradesSorted(cs: seq<Candle>)
    ensures SumTrades(SortBy(cs, CandleTime)) == SumTrades(cs)
  {
    if cs != [] {
      SumTradesSorted(cs[1..]);
      SumTradesInsert(cs[0], SortBy(cs[1..], CandleTime));
    }
  }

  /** The total size of the buckets of `starts`. */
  function BucketSizes(events: seq<SwapEvent>, period: int, starts: seq<int>): nat
    requires period > 0
  {
    if starts == [] then 0
    else BucketSizes(events, period, starts[..|starts| - 1])
         + |Bucket(events, period, starts[|starts| - 1])|
  }

  lemma {:induction false} SumTradesUnsorted(events: seq<SwapEvent>, period: int, starts: seq<int>)
    requires period > 0
    requires forall start :: start in starts ==> Bucket(events, period, start) != []
    ensures SumTrades(Unsorted(events, period, starts)) == BucketSizes(events, period, starts)
  {
    if starts != [] {
      var prefix := starts[..|starts| - 1];
      var last := starts[|starts| - 1];
      SumTradesUnsorted(events, period, prefix);
      SumTradesAppend(Unsorted(events, period, prefix), CandleOf(last, Bucket(events, period, last)));
    }
  }

  /** One more event adds one to the total exactly when its period is among `starts`. */
  lemma {:induction false} BucketSizesStep(events: seq<SwapEvent>, period: int, starts: seq<int>)
    requires period > 0 && events != [] && Distinct(starts)
    ensures var start := PeriodStart(events[|events| - 1].blockTimestamp, period);
      BucketSizes(events, period, starts)
      == BucketSizes(events[..|events| - 1], period, starts) + (if start in starts then 1 else 0)
  {
    if starts != [] {
      var prefix := starts[..|starts| - 1];
      assert Distinct(prefix);
      BucketSizesStep(events, period, prefix);
      assert starts == prefix + [starts[|starts| - 1]];
    }
  }

  lemma {:induction false} BucketSizesAll(events: seq<SwapEvent>, period: int)
    requires period > 0
    ensures BucketSizes(events, period, FirstSeenStarts(events, period)) == |events|
  {
    if events != [] {
      var prefix := events[..|events| - 1];
      var start := PeriodStart(events[|events| - 1].blockTimestamp, period);
      var before := FirstSeenStarts(prefix, period);
      BucketSizesAll(prefix, period);
      FirstSeenStartsBuckets(prefix, period);
      FirstSeenStartsBuckets(events, period);
      BucketSizesStep(events, period, before);
      if start !in before {
        assert Bucket(prefix, period, start) == [];
        var after := before + [start];
        assert after[..|after| - 1] == before;
      }
    }
  }

  /** Every event is counted in exactly one candle. */
  lemma TradesCountEvents(events: seq<SwapEvent>, interval: Interval)
    ensures SumTrades(Candles(events, interval)) == |events|
  {
    if events != [] {
      var period := interval.Seconds();
      var starts := FirstSeenStarts(events, period);
      FirstSeenStartsBuckets(events, period);
      var u := Unsorted(events, period, starts);
      SumTradesSorted(u);
      SumTradesUnsorted(events, period, starts);
      BucketSizesAll(events, period);
      assert Candles(events, interval) == SortBy(u, CandleTime);
    }
  }

  // ----- Querying the chain -----

  /** A `Swap` log of the pair, with the price and volume derived from its amounts. */
  datatype SwapLog = SwapLog(blockNumber: nat, priceInM: real, volumeInM: real)

  /** The logs stamped with their blocks' timestamps, in log order. */
  function Stamped(logs: seq<SwapLog>, blockTimestamp: nat -> int): (events: seq<SwapEvent>)
    ensures |events| == |logs|
    ensures forall i :: 0 <= i < |logs| ==>
      events[i] == SwapEvent(logs[i].blockNumber, blockTimestamp(logs[i].blockNumber),
                             logs[i].priceInM, logs[i].volumeInM)
  {
    seq(|logs|, i requires 0 <= i < |logs| =>
      SwapEvent(logs[i].blockNumber, blockTimestamp(logs[i].blockNumber), logs[i].priceInM, logs[i].volumeInM))
  }

  /**
   * The loop and the final sort of `querySwapEvents`: one event per log,
   * stamped with its block's timestamp, then sorted by timestamp. Events of
   * the same second keep their log order.
   */
  method QuerySwapEvents(logs: seq<SwapLog>, blockTimestamp: nat -> int) returns (events: seq<SwapEvent>)
    ensures SortedBy(events, EventTime)
    ensures multiset(events) == multiset(Stamped(logs, blockTimestamp))
    ensures forall t :: WithKey(events, EventTime, t) == WithKey(Stamped(logs, blockTimestamp), EventTime, t)
  {
    var swapEvents: seq<SwapEvent> := [];
    for i := 0 to |logs|
      invariant swapEvents == Stamped(logs[..i], blockTimestamp)
    {
      var log := logs[i];
      swapEvents := swapEvents + [SwapEvent(log.blockNumber, blockTimestamp(log.blockNumber),
                                            log.priceInM, log.volumeInM)];
    }
    assert logs[..|logs|] == logs;
    events := SortBy(swapEvents, EventTime);
    forall t ensures WithKey(events, EventTime, t) == WithKey(swapEvents, EventTime, t) {
      SortByStable(swapEvents, EventTime, t);
    }
  }

  /** Seconds per block that the window estimate assumes. */
  const BLOCK_SECONDS: int := 12

  /**
   * `getRecentCandles`' first block: back from the current block by enough
   * 12-second blocks to span `limit` intervals, but not below block 0.
   */
  function FromBlock(currentBlock: nat, interval: Interval, limit: int): (fromBlock: nat)
    ensures var blocks := JsMath.CeilDiv(interval.Seconds() * limit, BLOCK_SECONDS);
      && (fromBlock > 0 ==> fromBlock == currentBlock - blocks)
      && (fromBlock == 0 ==> currentBlock <= blocks)
    ensures limit >= 0 ==> fromBlock <= currentBlock
    ensures fromBlock > 0 ==>
      (currentBlock - fromBlock) * BLOCK_SECONDS >= interval.Seconds() * limit
      > (currentBlock - fromBlock - 1) * BLOCK_SECONDS
  {
    var blocks := JsMath.CeilDiv(interval.Seconds() * limit, BLOCK_SECONDS);
    if currentBlock - blocks > 0 then currentBlock - blocks else 0
  }

  /**
   * `candles.slice(-limit)`: the last `limit` candles for a positive limit,
   * all of them for 0, and all but the first `-limit` for a negative one.
   */
  function RecentCandles(candles: seq<Candle>, limit: int): (recent: seq<Candle>)
    ensures limit >= 1 && limit <= |candles| ==> recent == candles[|candles| - limit..]
    ensures limit >= |candles| ==> recent == candles
    ensures limit == 0 ==> recent == candles
    ensures limit < 0 ==> recent == candles[Strings.Clamp(-limit, 0, |candles|)..]
    ensures |recent| <= |candles|
  {
    Strings.SliceFrom(candles, -limit)
  }

  /**
   * `getRecentCandles`: the swap logs from the first block on (`logsFrom`
   * stands for `getLogs` from that block to the latest), their candles, and
   * the last `limit` of those.
   */
  method GetRecentCandles(currentBlock: nat, logsFrom: nat -> seq<SwapLog>,
                          blockTimestamp: nat -> int, interval: Interval, limit: int)
    returns (recent: seq<Candle>)
    ensures exists events: seq<SwapEvent> ::
      && multiset(events) == multiset(Stamped(logsFrom(FromBlock(currentBlock, interval, limit)), blockTimestamp))
      && SortedBy(events, EventTime)
      && (forall t :: WithKey(events, EventTime, t)
                      == WithKey(Stamped(logsFrom(FromBlock(currentBlock, interval, limit)), blockTimestamp), EventTime, t))
      && recent == RecentCandles(Candles(events, interval), limit)
    ensures limit >= 1 ==> |recent| <= limit
  {
    var fromBlock := FromBlock(currentBlock, interval, limit);
    var events := QuerySwapEvents(logsFrom(fromBlock), blockTimestamp);
    var candles := BuildOHLCCandles(events, interval);
    recent := RecentCandles(candles, limit);
  }
}
