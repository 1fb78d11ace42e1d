// Price bins for charts: consecutive time bins, each with its first, last, lowest and highest price.
// Prices are whole quanta; a close is an average of quanta.
module PriceBins {
  import opened SwapTypes
  import opened Offers
  import opened Sorting
  import opened Trades

  const SCALE: Positive := 10

  // One trade as a bin sees it.
  datatype Tick = Tick(timestamp: int, amount: int, price: int)

  function TickOf(t: Trade): Tick { Tick(t.timestamp, t.offer.base, Quantized(Price(t.offer), SCALE)) }

  datatype Bin = Bin(open: real, closes: seq<int>, closeTime: Option<int>, low: Option<int>, high: Option<int>,
                     amount: int, timestamp: int)
  {
    function Added(t: Tick): Bin {
      this.(
        low := if low.None? || t.price < low.value then Some(t.price) else low,
        high := if high.None? || t.price > high.value then Some(t.price) else high,
        amount := amount + t.amount,
        closeTime := if closeTime.None? || t.timestamp > closeTime.value then Some(t.timestamp) else closeTime,
        closes := if closeTime.None? || t.timestamp > closeTime.value then [t.price]
                  else if t.timestamp == closeTime.value then closes + [t.price]
                  else closes)
    }

    // The average of the last timestamp's prices; without trades the open price.
    function Close(): real {
      if closeTime.None? || closes == [] then open else Average(closes)
    }

    // A lowest or highest price of zero counts as missing.
    function Min(): real { if low.None? || low.value == 0 then open else low.value as real }
    function Max(): real { if high.None? || high.value == 0 then open else high.value as real }
  }

  function NewBin(open: real, timestamp: int): Bin { Bin(open, [], None, None, None, 0, timestamp) }

  function Average(ps: seq<int>): real
    requires ps != []
  {
    Total(ps) as real / |ps| as real
  }

  function Total(ps: seq<int>): int { if ps == [] then 0 else ps[0] + Total(ps[1..]) }

  function Filled(b: Bin, ts: seq<Trade>): Bin {
    if ts == [] then b else Filled(b, ts[..|ts| - 1]).Added(TickOf(ts[|ts| - 1]))
  }

  // --- one bin ------------------------------------------------------------------------------------------

  predicate Within(lo: int, ps: seq<int>, hi: int) { forall p :: p in ps ==> lo <= p <= hi }

  // A bin with trades knows its lowest and highest price, and its closing prices are among them.
  predicate BinInv(b: Bin) {
    && b.closeTime.Some? == b.low.Some? && b.low.Some? == b.high.Some?
    && (b.closeTime.Some?
        ==> b.closes != [] && b.low.value <= b.high.value && Within(b.low.value, b.closes, b.high.value))
  }

  lemma AddedHolds(b: Bin, t: Tick)
    requires BinInv(b)
    ensures BinInv(b.Added(t)) && b.Added(t).closeTime.Some?
    ensures b.Added(t).low.value <= t.price <= b.Added(t).high.value
  {
  }

  lemma {:induction false} FilledHolds(b: Bin, ts: seq<Trade>)
    requires BinInv(b)
    ensures BinInv(Filled(b, ts)) && Filled(b, ts).open == b.open && Filled(b, ts).timestamp == b.timestamp
    ensures Filled(b, ts).amount == b.amount + Volume(ts)
    ensures ts != [] ==> Filled(b, ts).closeTime.Some?
  {
    if ts != [] {
      FilledHolds(b, ts[..|ts| - 1]);
      AddedHolds(Filled(b, ts[..|ts| - 1]), TickOf(ts[|ts| - 1]));
    }
  }

  function PricesAt(ts: seq<Trade>, timestamp: int): seq<int> {
    if ts == [] then []
    else
      var t := TickOf(ts[|ts| - 1]);
      PricesAt(ts[..|ts| - 1], timestamp) + (if t.timestamp == timestamp then [t.price] else [])
  }

  function LatestOf(ts: seq<Trade>): int
    requires ts != []
  {
    var last := ts[|ts| - 1].timestamp;
    if |ts| == 1 then last
    else
      var before := LatestOf(ts[..|ts| - 1]);
      if last > before then last else before
  }

  lemma {:induction false} LatestHolds(ts: seq<Trade>)
    requires ts != []
    ensures forall t :: t in ts ==> t.timestamp <= LatestOf(ts)
    ensures exists t :: t in ts && t.timestamp == LatestOf(ts)
  {
    var front, last := ts[..|ts| - 1], ts[|ts| - 1];
    assert last in ts;
    if front != [] {
      LatestHolds(front);
      assert forall t :: t in ts <==> t in front || t == last;
    }
  }

  // The extremes are prices of the trades and bound them all.
  predicate Extremes(b: Bin, ts: seq<Trade>) {
    && b.low.Some? && b.high.Some?
    && (forall t :: t in ts ==> b.low.value <= TickOf(t).price <= b.high.value)
    && (exists t :: t in ts && TickOf(t).price == b.low.value)
    && (exists t :: t in ts && TickOf(t).price == b.high.value)
  }

  lemma {:induction false} FilledExtremes(open: real, timestamp: int, ts: seq<Trade>)
    requires ts != []
    ensures Extremes(Filled(NewBin(open, timestamp), ts), ts)
  {
    var front, last := ts[..|ts| - 1], ts[|ts| - 1];
    assert last in ts;
    if front != [] {
      FilledExtremes(open, timestamp, front);
      assert forall t :: t in ts <==> t in front || t == last;
    }
  }

  lemma {:induction false} NonePricedAt(ts: seq<Trade>, timestamp: int)
    requires forall t :: t in ts ==> t.timestamp < timestamp
    ensures PricesAt(ts, timestamp) == []
  {
    if ts != [] {
      assert ts[|ts| - 1] in ts;
      NonePricedAt(ts[..|ts| - 1], timestamp);
    }
  }

  // The closing prices are those of the latest timestamp, whatever the order the trades come in.
  lemma {:induction false} FilledCloses(open: real, timestamp: int, ts: seq<Trade>)
    requires ts != []
    ensures var b := Filled(NewBin(open, timestamp), ts);
            b.closeTime == Some(LatestOf(ts)) && b.closes == PricesAt(ts, LatestOf(ts)) && b.closes != []
  {
    var front, last := ts[..|ts| - 1], ts[|ts| - 1];
    if front == [] {
      assert Filled(NewBin(open, timestamp), front) == NewBin(open, timestamp);
    } else {
      FilledCloses(open, timestamp, front);
      LatestHolds(front);
      if last.timestamp > LatestOf(front) { NonePricedAt(front, last.timestamp); }
    }
  }

  lemma {:induction false} TotalWithin(lo: int, ps: seq<int>, hi: int)
    requires Within(lo, ps, hi)
    ensures lo * |ps| <= Total(ps) <= hi * |ps|
  {
    if ps != [] {
      assert forall p :: p in ps[1..] ==> p in ps;
      TotalWithin(lo, ps[1..], hi);
      OneMore(lo, |ps[1..]|);
      OneMore(hi, |ps[1..]|);
      assert ps[0] in ps;
    }
  }

  // As many times the average as there are prices is what they add up to.
  lemma AverageIs(ps: seq<int>)
    requires ps != []
    ensures Average(ps) * (|ps| as real) == Total(ps) as real
  {
    var total, count := Total(ps) as real, |ps| as real;
    assert Average(ps) == total / count;
    DividedBack(total, count);
  }

  lemma DividedBack(x: real, c: real)
    requires c != 0.0
    ensures (x / c) * c == x
  {
  }

  lemma OneMore(a: int, n: nat)
    ensures a * (n + 1) == a * n + a
  {
  }

  lemma AverageWithin(lo: int, total: int, n: Positive, hi: int)
    requires lo * n <= total <= hi * n
    ensures lo as real <= total as real / n as real <= hi as real
  {
    var average, count := total as real / n as real, n as real;
    assert average * count == total as real;
    assert (lo * n) as real == lo as real * count && (hi * n) as real == hi as real * count;
    CancelFactor(lo as real, average, count);
    CancelFactor(average, hi as real, count);
  }

  lemma CancelFactor(x: real, y: real, c: real)
    requires 0.0 < c && x * c <= y * c
    ensures x <= y
  {
    assert (y - x) * c >= 0.0;
  }

  // In a bin with trades at prices that are not negative, the close lies between the reported extremes exactly when
  // the lowest price is not zero or the open price is not above the average of the closing prices.
  lemma CloseWithinExtremes(b: Bin)
    requires BinInv(b) && b.closeTime.Some? && 0 <= b.low.value && 0.0 <= b.open
    ensures b.low.value as real <= b.Close() <= b.high.value as real
    ensures b.Min() <= b.Close() <= b.Max() <==> b.low.value > 0 || b.open <= Average(b.closes)
  {
    TotalWithin(b.low.value, b.closes, b.high.value);
    AverageWithin(b.low.value, Total(b.closes), |b.closes|, b.high.value);
  }

  class PriceBin {
    const open: real
    const timestamp: int
    var closes: seq<int>
    var closeTime: Option<int>
    var low: Option<int>
    var high: Option<int>
    var amount: int

    constructor (open: real, timestamp: int)
      ensures Value() == NewBin(open, timestamp)
    {
      this.open, this.timestamp := open, timestamp;
      closes, closeTime, low, high, amount := [], None, None, None, 0;
    }

    function Value(): Bin
      reads this
    {
      Bin(open, closes, closeTime, low, high, amount, timestamp)
    }

    method Add(timestamp: int, amount: int, price: int)
      modifies this
      ensures Value() == old(Value()).Added(Tick(timestamp, amount, price))
    {
      if low.None? || price < low.value { low := Some(price); }
      if high.None? || price > high.value { high := Some(price); }
      this.amount := this.amount + amount;
      if closeTime.None? || timestamp > closeTime.value {
        closeTime, closes := Some(timestamp), [price];
      } else if timestamp == closeTime.value {
        closes := closes + [price];
      }
    }
  }

  // --- the bins of a chart ----------------------------------------------------------------------------------

  // TradesView.trades: keys are (timestamp, offer id), from (from, 0) up to but without (to, 0).
  predicate InRange(t: Trade, from: int, to: int) {
    && (t.timestamp > from || (t.timestamp == from && t.offer.id >= 0))
    && (t.timestamp < to || (t.timestamp == to && t.offer.id < 0))
  }

  // A range takes the trades from the one time up to but without the other, each as often as it was there.
  lemma {:induction false} RangeMeans(ts: seq<Trade>, from: int, to: int, t: Trade)
    ensures multiset(Range(ts, from, to))[t] == if from <= t.timestamp < to then multiset(ts)[t] else 0
  {
    if ts != [] {
      var front, last := ts[..|ts| - 1], ts[|ts| - 1];
      RangeMeans(front, from, to, t);
      assert ts == front + [last];
    }
  }

  function Range(ts: seq<Trade>, from: int, to: int): seq<Trade> {
    if ts == [] then []
    else Range(ts[..|ts| - 1], from, to) + (if InRange(ts[|ts| - 1], from, to) then [ts[|ts| - 1]] else [])
  }

  lemma RangeVolume(ts: seq<Trade>, from: int, to: int)
    requires ts != []
    ensures var last := ts[|ts| - 1];
            Volume(Range(ts, from, to))
            == Volume(Range(ts[..|ts| - 1], from, to)) + (if InRange(last, from, to) then last.offer.base else 0)
  {
    var front, last := Range(ts[..|ts| - 1], from, to), ts[|ts| - 1];
    assert front + [] == front && (front + [last])[..|front|] == front;
  }

  lemma {:induction false} RangesJoin(ts: seq<Trade>, a: int, b: int, c: int)
    requires a <= b <= c
    ensures Volume(Range(ts, a, b)) + Volume(Range(ts, b, c)) == Volume(Range(ts, a, c))
  {
    if ts != [] {
      RangesJoin(ts[..|ts| - 1], a, b, c);
      RangeVolume(ts, a, b);
      RangeVolume(ts, b, c);
      RangeVolume(ts, a, c);
    }
  }

  // Bin i of a chart starts here.
  function StartOf(first: int, interval: Positive, i: int): int { first + i * interval }

  // The trades of bin i.
  function BinRange(ts: seq<Trade>, first: int, interval: Positive, i: int): seq<Trade> {
    Range(ts, StartOf(first, interval, i), StartOf(first, interval, i + 1))
  }

  function LastClose(bins: seq<Bin>): real { if bins == [] then 0.0 else bins[|bins| - 1].Close() }

  function NextBin(before: seq<Bin>, ts: seq<Trade>, first: int, interval: Positive): Bin {
    Filled(NewBin(LastClose(before), StartOf(first, interval, |before|)), BinRange(ts, first, interval, |before|))
  }

  function BinsFrom(ts: seq<Trade>, first: int, interval: Positive, k: nat): (bins: seq<Bin>)
    ensures |bins| == k
  {
    if k == 0 then []
    else
      var before := BinsFrom(ts, first, interval, k - 1);
      before + [NextBin(before, ts, first, interval)]
  }

  function AmountsOf(bins: seq<Bin>): int {
    if bins == [] then 0 else AmountsOf(bins[..|bins| - 1]) + bins[|bins| - 1].amount
  }

  // A sound bin that starts at its multiple of the interval and counts the trades of its own range; its open
  // price is the close before it.
  predicate BinHolds(bins: seq<Bin>, ts: seq<Trade>, first: int, interval: Positive, i: nat)
    requires i < |bins|
  {
    var range := BinRange(ts, first, interval, i);
    && BinInv(bins[i])
    && bins[i].timestamp == StartOf(first, interval, i)
    && bins[i].open == (if i == 0 then 0.0 else bins[i - 1].Close())
    && bins[i].amount == Volume(range)
    && (range != [] ==> bins[i].closeTime.Some?)
  }

  lemma NextBinHolds(before: seq<Bin>, ts: seq<Trade>, first: int, interval: Positive)
    ensures BinHolds(before + [NextBin(before, ts, first, interval)], ts, first, interval, |before|)
  {
    FilledHolds(NewBin(LastClose(before), StartOf(first, interval, |before|)), BinRange(ts, first, interval, |before|));
  }

  lemma {:induction false} BinStays(ts: seq<Trade>, first: int, interval: Positive, k: nat, i: nat)
    requires i < k
    ensures BinsFrom(ts, first, interval, k)[i] == BinsFrom(ts, first, interval, i + 1)[i]
  {
    if i + 1 < k {
      var before := BinsFrom(ts, first, interval, k - 1);
      BinStays(ts, first, interval, k - 1, i);
      assert BinsFrom(ts, first, interval, k)[i] == before[i];
    }
  }

  lemma BinAt(ts: seq<Trade>, first: int, interval: Positive, k: nat, i: nat)
    requires i < k
    ensures BinHolds(BinsFrom(ts, first, interval, k), ts, first, interval, i)
  {
    BinStays(ts, first, interval, k, i);
    if i > 0 { BinStays(ts, first, interval, k, i - 1); }
    NextBinHolds(BinsFrom(ts, first, interval, i), ts, first, interval);
  }

  lemma {:induction false} AmountsTile(ts: seq<Trade>, first: int, interval: Positive, k: nat)
    ensures AmountsOf(BinsFrom(ts, first, interval, k)) == Volume(Range(ts, first, StartOf(first, interval, k)))
  {
    if k == 0 {
      EmptyRange(ts, first);
    } else {
      AmountsTile(ts, first, interval, k - 1);
      BinAt(ts, first, interval, k, k - 1);
      assert BinsFrom(ts, first, interval, k)[..k - 1] == BinsFrom(ts, first, interval, k - 1);
      StartsAscend(first, interval, 0, k - 1);
      StartsAscend(first, interval, k - 1, k);
      RangesJoin(ts, first, StartOf(first, interval, k - 1), StartOf(first, interval, k));
    }
  }

  // The bins tile the range: every one of them holds the above, and together they count each trade once.
  lemma BinsTile(ts: seq<Trade>, first: int, interval: Positive, k: nat)
    ensures forall i :: 0 <= i < k ==> BinHolds(BinsFrom(ts, first, interval, k), ts, first, interval, i)
    ensures AmountsOf(BinsFrom(ts, first, interval, k)) == Volume(Range(ts, first, StartOf(first, interval, k)))
  {
    forall i | 0 <= i < k ensures BinHolds(BinsFrom(ts, first, interval, k), ts, first, interval, i) {
      BinAt(ts, first, interval, k, i);
    }
    AmountsTile(ts, first, interval, k);
  }

  lemma QuantizedHolds(o: BasicOffer)
    ensures 0 <= Quantized(Price(o), SCALE)
  {
    assert Price(o) >= 0.0;
  }

  lemma LowNonNegative(open: real, timestamp: int, ts: seq<Trade>)
    requires ts != []
    ensures 0 <= Filled(NewBin(open, timestamp), ts).low.value
  {
    FilledExtremes(open, timestamp, ts);
    var t :| t in ts && TickOf(t).price == Filled(NewBin(open, timestamp), ts).low.value;
    QuantizedHolds(t.offer);
  }

  lemma CloseNonNegative(open: real, timestamp: int, ts: seq<Trade>)
    requires 0.0 <= open
    ensures 0.0 <= Filled(NewBin(open, timestamp), ts).Close()
  {
    FilledHolds(NewBin(open, timestamp), ts);
    if ts != [] {
      LowNonNegative(open, timestamp, ts);
      CloseWithinExtremes(Filled(NewBin(open, timestamp), ts));
    }
  }

  lemma {:induction false} LastCloseNonNegative(ts: seq<Trade>, first: int, interval: Positive, k: nat)
    ensures 0.0 <= LastClose(BinsFrom(ts, first, interval, k))
  {
    if k > 0 {
      LastCloseNonNegative(ts, first, interval, k - 1);
      CloseNonNegative(LastClose(BinsFrom(ts, first, interval, k - 1)), StartOf(first, interval, k - 1),
                       BinRange(ts, first, interval, k - 1));
    }
  }

  // With all trades at one quantum or more, a bin reports its lowest and highest trade's price.
  lemma ExtremesReported(open: real, timestamp: int, ts: seq<Trade>)
    requires ts != [] && forall t :: t in ts ==> TickOf(t).price > 0
    ensures var b := Filled(NewBin(open, timestamp), ts);
            && (forall t :: t in ts ==> b.Min() <= TickOf(t).price as real <= b.Max())
            && (exists t :: t in ts && b.Min() == TickOf(t).price as real)
            && (exists t :: t in ts && b.Max() == TickOf(t).price as real)
  {
    FilledExtremes(open, timestamp, ts);
  }

  // A bin sees a trade's time, its base amount, and its price in whole tenths.
  lemma TickIs(t: Trade)
    ensures TickOf(t).timestamp == t.timestamp && TickOf(t).amount == t.offer.base
    ensures TickOf(t).price as real <= 10.0 * Price(t.offer) < TickOf(t).price as real + 1.0
  {
    QuantaAre(Price(t.offer), SCALE, TickOf(t).price);
  }

  // In a chart, the close of a bin with trades lies between its reported extremes exactly when every trade of the bin
  // is priced at one quantum or more, or the close before the bin is not above the average price of the bin's latest
  // timestamp.
  lemma ChartCloses(ts: seq<Trade>, first: int, interval: Positive, k: nat, i: nat)
    requires i < k && BinRange(ts, first, interval, i) != []
    ensures var b, range := BinsFrom(ts, first, interval, k)[i], BinRange(ts, first, interval, i);
            && PricesAt(range, LatestOf(range)) != []
            && (b.Min() <= b.Close() <= b.Max()
                <==> (forall t :: t in range ==> TickOf(t).price > 0)
                     || LastClose(BinsFrom(ts, first, interval, i)) <= Average(PricesAt(range, LatestOf(range))))
  {
    BinStays(ts, first, interval, k, i);
    LastCloseNonNegative(ts, first, interval, i);
    FilledBinCloses(LastClose(BinsFrom(ts, first, interval, i)), StartOf(first, interval, i),
                    BinRange(ts, first, interval, i));
  }

  lemma FilledBinCloses(open: real, timestamp: int, ts: seq<Trade>)
    requires 0.0 <= open && ts != []
    ensures var b := Filled(NewBin(open, timestamp), ts);
            && PricesAt(ts, LatestOf(ts)) != []
            && (b.Min() <= b.Close() <= b.Max()
                <==> (forall t :: t in ts ==> TickOf(t).price > 0) || open <= Average(PricesAt(ts, LatestOf(ts))))
  {
    FilledHolds(NewBin(open, timestamp), ts);
    FilledCloses(open, timestamp, ts);
    FilledExtremes(open, timestamp, ts);
    LowNonNegative(open, timestamp, ts);
    CloseWithinExtremes(Filled(NewBin(open, timestamp), ts));
  }

  // Trades of one unit at ten quanta, then of a hundred at less than one quantum.
  const DEAR := Trade(BasicOffer(0, Sell, 1, 1, 0), 0)
  const CHEAP := Trade(BasicOffer(1, Sell, 100, 1, 0), 10)

  // Two bins in which the second closes below the minimum it reports.
  lemma CloseBelowMinimum()
    ensures var b := BinsFrom([DEAR, CHEAP], 0, 10, 2)[1]; b.Close() < b.Min()
  {
    assert TickOf(DEAR) == Tick(0, 1, 10) && TickOf(CHEAP) == Tick(10, 100, 0);
    var ts := [DEAR, CHEAP];
    assert ts[..1] == [DEAR] && ts[..1][..0] == [];
    assert Range(ts[..1][..0], 0, 10) == [] && Range(ts[..1][..0], 10, 20) == [];
    assert Range(ts[..1], 0, 10) == [DEAR] && Range(ts[..1], 10, 20) == [];
    assert Range(ts, 0, 10) == [DEAR] && Range(ts, 10, 20) == [CHEAP];
    OneTradeCloses(0.0, 0, DEAR);
    OneTradeCloses(10.0, 10, CHEAP);
    assert BinsFrom(ts, 0, 10, 1) == [] + [NextBin([], ts, 0, 10)];
  }

  lemma OneTradeCloses(open: real, timestamp: int, t: Trade)
    ensures var b := Filled(NewBin(open, timestamp), [t]);
            b.Close() == TickOf(t).price as real && b.low == Some(TickOf(t).price) && b.open == open
  {
    assert [t][..0] == [];
    assert Total([TickOf(t).price]) == TickOf(t).price + Total([]);
  }

  lemma {:induction false} EmptyRange(ts: seq<Trade>, a: int)
    ensures Range(ts, a, a) == []
  {
    if ts != [] { EmptyRange(ts[..|ts| - 1], a); }
  }

  lemma StartsAscend(first: int, interval: Positive, i: nat, j: nat)
    requires i <= j
    ensures StartOf(first, interval, i) <= StartOf(first, interval, j)
    ensures i < j ==> StartOf(first, interval, i) < StartOf(first, interval, j)
    ensures StartOf(first, interval, 0) == first
  {
    assert (j - i) * interval >= 0;
    assert j * interval == i * interval + (j - i) * interval;
    if i < j { assert (j - i - 1) * interval >= 0; }
  }

  // The range of bin i holds the trade.
  predicate InBin(t: Trade, first: int, interval: Positive, i: int) {
    InRange(t, StartOf(first, interval, i), StartOf(first, interval, i + 1))
  }

  // Every trade of the whole range lies in exactly one bin.
  lemma OneBinEach(t: Trade, first: int, interval: Positive, k: nat)
    requires InRange(t, first, StartOf(first, interval, k))
    ensures exists i :: 0 <= i < k && InBin(t, first, interval, i)
    ensures forall i, j :: 0 <= i < j < k && InBin(t, first, interval, i) ==> !InBin(t, first, interval, j)
  {
    var i := SomeBin(t, first, interval, k);
    forall p, q | 0 <= p < q < k && InBin(t, first, interval, p) ensures !InBin(t, first, interval, q) {
      StartsAscend(first, interval, p + 1, q);
    }
  }

  lemma {:induction false} SomeBin(t: Trade, first: int, interval: Positive, k: nat) returns (i: nat)
    requires InRange(t, first, StartOf(first, interval, k))
    ensures i < k && InBin(t, first, interval, i)
  {
    StartsAscend(first, interval, 0, k);
    if k == 0 {
      assert false;
    } else if InBin(t, first, interval, k - 1) {
      i := k - 1;
    } else {
      i := SomeBin(t, first, interval, k - 1);
    }
  }

  // --- building the chart -----------------------------------------------------------------------------------

  // The starts of count consecutive bins, the last of them that of the bin the timestamp falls in.
  function BinStarts(timestamp: int, count: nat, interval: Positive): (r: seq<int>)
    ensures |r| == count
  {
    seq(count, i => StartOf(FindTimeBin(timestamp, interval).0 - count * interval, interval, i + 1))
  }

  method TimeBinGen(timestamp: int, count: nat, interval: Positive) returns (times: seq<int>)
    ensures times == BinStarts(timestamp, count, interval)
  {
    times := [];
    var first := timestamp / interval * interval - count * interval;
    var start := first;
    for i := 0 to count
      invariant |times| == i && start == StartOf(first, interval, i)
      invariant forall j :: 0 <= j < i ==> times[j] == StartOf(first, interval, j + 1)
    {
      var time := start + interval;
      StartNext(first, interval, i);
      times := times + [time];
      start := time;
    }
  }

  lemma StartNext(first: int, interval: Positive, i: int)
    ensures StartOf(first, interval, i + 1) == StartOf(first, interval, i) + interval
    ensures StartOf(first, interval, 0) == first
  {
  }

  // Where the chart of n bins, and the extra one before them, begins.
  function ChartStart(now: int, n: nat, interval: Positive): int { FindTimeBin(now, interval).0 - (n + 1) * interval }

  // Its n bins end with the start of the bin that holds now, so they cover the n intervals before.
  lemma ChartCovers(now: int, n: nat, interval: Positive)
    ensures var first, end := ChartStart(now, n, interval), StartOf(ChartStart(now, n, interval), interval, n + 1);
            && end <= now < end + interval && end == StartOf(first, interval, 1) + n * interval
            && FindTimeBin(end, interval).0 == end
  {
    TimeBinHolds(now, interval);
    assert (n + 1) * interval == n * interval + interval;
  }

  predicate Starts(times: seq<int>, first: int, interval: Positive) {
    forall i :: 0 <= i < |times| ==> times[i] == StartOf(first, interval, i)
  }

  // Counted back from its own multiple of the interval, a generator yields the starts before it.
  lemma StartsBefore(q: int, count: nat, interval: Positive)
    ensures Starts(BinStarts(q * interval, count, interval), (q + 1) * interval - count * interval, interval)
  {
    MultipleDivides(q, interval);
    forall i | 0 <= i < count
      ensures BinStarts(q * interval, count, interval)[i] == StartOf((q + 1) * interval - count * interval, interval, i)
    {
      StartNext(q * interval - count * interval, interval, i);
    }
  }

  // Both generators run through the chart, one bin apart.
  lemma GeneratorsAlign(now: int, n: nat, interval: Positive)
    ensures var two := BinStarts(now, 2, interval); var first := ChartStart(now, n, interval);
            && Starts(BinStarts(two[0], n + 1, interval), first, interval)
            && Starts(BinStarts(two[1], n + 1, interval), first + interval, interval)
  {
    var q := now / interval;
    assert BinStarts(now, 2, interval)[0] == (q - 1) * interval;
    assert BinStarts(now, 2, interval)[1] == q * interval;
    StartsBefore(q - 1, n + 1, interval);
    StartsBefore(q, n + 1, interval);
  }

  method MakeBin(open: real, from: int, trades: seq<Trade>) returns (bin: PriceBin)
    ensures fresh(bin) && bin.Value() == Filled(NewBin(open, from), trades)
  {
    bin := new PriceBin(open, from);
    for i := 0 to |trades|
      invariant bin.Value() == Filled(NewBin(open, from), trades[..i])
    {
      var t := trades[i];
      assert trades[..i + 1][..i] == trades[..i];
      bin.Add(t.timestamp, t.offer.base, Quantized(Price(t.offer), SCALE));
    }
    assert trades[..|trades|] == trades;
  }

  predicate Earlier(a: PriceBin, b: PriceBin) { a.timestamp < b.timestamp }

  lemma AscendingStays(bins: seq<PriceBin>, first: int, interval: Positive)
    requires forall i :: 0 <= i < |bins| ==> bins[i].timestamp == StartOf(first, interval, i)
    ensures Sort(bins, Earlier) == bins
  {
    forall i, j | 0 <= i < j < |bins| ensures !Earlier(bins[j], bins[i]) {
      StartsAscend(first, interval, i, j);
    }
    SortKeepsOrdered(bins, Earlier);
  }

  ghost predicate Matches(bins: seq<PriceBin>, values: seq<Bin>)
    reads bins
  {
    |bins| == |values| && forall i :: 0 <= i < |bins| ==> bins[i].Value() == values[i]
  }

  lemma StartsAre(ts: seq<Trade>, first: int, interval: Positive, k: nat)
    ensures forall i :: 0 <= i < k ==> BinsFrom(ts, first, interval, k)[i].timestamp == StartOf(first, interval, i)
  {
    forall i | 0 <= i < k ensures BinsFrom(ts, first, interval, k)[i].timestamp == StartOf(first, interval, i) {
      BinAt(ts, first, interval, k, i);
    }
  }

  lemma MatchesOneMore(bins: seq<PriceBin>, bin: PriceBin, ts: seq<Trade>, first: int, interval: Positive)
    requires Matches(bins, BinsFrom(ts, first, interval, |bins|))
    requires bin.Value() == NextBin(BinsFrom(ts, first, interval, |bins|), ts, first, interval)
    ensures Matches(bins + [bin], BinsFrom(ts, first, interval, |bins| + 1))
    ensures LastClose(BinsFrom(ts, first, interval, |bins| + 1)) == bin.Value().Close()
  {
  }

  lemma NextOpensAtClose(ts: seq<Trade>, first: int, interval: Positive, k: nat, from: int, to: int)
    requires from == StartOf(first, interval, k) && to == StartOf(first + interval, interval, k)
    ensures var before := BinsFrom(ts, first, interval, k);
            NextBin(before, ts, first, interval) == Filled(NewBin(LastClose(before), from), Range(ts, from, to))
  {
    StartNext(first, interval, k);
    StartNext(first + interval, interval, k);
  }

  predicate Below(table: map<int, PriceBin>, bound: int) { forall t :: t in table ==> t < bound }

  lemma BelowNext(table: map<int, PriceBin>, start: int, bin: PriceBin, bound: int)
    requires Below(table, start) && start < bound
    ensures |table[start := bin]| == |table| + 1 && Below(table[start := bin], bound)
  {
    assert table[start := bin].Keys == table.Keys + {start};
  }

  // One bin after the other, each opening at the close before it. The table has one entry per start: none comes twice.
  method MakeBins(trades: seq<Trade>, froms: seq<int>, tos: seq<int>, ghost first: int, ghost interval: Positive)
    returns (bins: seq<PriceBin>)
    requires |froms| == |tos| && Starts(froms, first, interval) && Starts(tos, first + interval, interval)
    ensures fresh(bins)
    ensures Matches(bins, BinsFrom(trades, first, interval, |froms|))
  {
    var priceBins: map<int, PriceBin> := map[];
    bins := [];
    var lastClose := 0.0;
    for k := 0 to |froms|
      invariant |priceBins| == k && Below(priceBins, StartOf(first, interval, k))
      invariant fresh(bins) && Matches(bins, BinsFrom(trades, first, interval, k))
      invariant lastClose == LastClose(BinsFrom(trades, first, interval, k))
    {
      StartNext(first, interval, k);
      NextOpensAtClose(trades, first, interval, k, froms[k], tos[k]);
      var bin := MakeBin(lastClose, froms[k], Range(trades, froms[k], tos[k]));
      MatchesOneMore(bins, bin, trades, first, interval);
      BelowNext(priceBins, froms[k], bin, StartOf(first, interval, k + 1));
      priceBins := priceBins[froms[k] := bin];
      bins := bins + [bin];
      lastClose := bin.Value().Close();
    }
    assert |priceBins| == |froms|;
  }

  // A chart of n bins up to the start of the bin that holds now; the bin before them only gives the first open price.
  method MakePriceBins(trades: seq<Trade>, now: int, n: nat, interval: Positive) returns (chart: seq<PriceBin>)
    ensures fresh(chart)
    ensures Matches(chart, BinsFrom(trades, ChartStart(now, n, interval), interval, n + 1)[1..])
  {
    ghost var first := ChartStart(now, n, interval);
    GeneratorsAlign(now, n, interval);
    var two := TimeBinGen(now, 2, interval);
    var froms := TimeBinGen(two[0], n + 1, interval);
    var tos := TimeBinGen(two[1], n + 1, interval);
    var bins := MakeBins(trades, froms, tos, first, interval);
    StartsAre(trades, first, interval, n + 1);
    AscendingStays(bins, first, interval);
    var sorted := Sort(bins, Earlier);
    chart := sorted[1..];
  }
}
