// Completed trades, price quanta and time bins.
module Trades {
  import opened Offers

  datatype Trade = Trade(offer: BasicOffer, timestamp: int)

  // A price as a whole number of quanta, rounded down; scale quanta make one unit.
  function Quantized(price: real, scale: Positive): int { (price * scale as real).Floor }

  // Start and stop of the time bin a timestamp falls in.
  function FindTimeBin(timestamp: int, interval: Positive): (int, int) {
    var start := timestamp / interval * interval;
    (start, start + interval)
  }

  // The same with an offset, a number of bins to go on: the stop moves by the offset twice.
  function OffsetTimeBin(timestamp: int, offset: int, interval: Positive): (int, int) {
    var start := timestamp / interval * interval + interval * offset;
    (start, start + interval * (offset + 1))
  }

  // A bin found with an offset is one interval long exactly when the offset is zero, as in every call.
  lemma OffsetStretches(timestamp: int, offset: int, interval: Positive)
    ensures var (start, stop) := OffsetTimeBin(timestamp, offset, interval);
            && (stop == start + interval <==> offset == 0)
            && (offset == 0 ==> (start, stop) == FindTimeBin(timestamp, interval))
  {
    MultipleBounds(interval, offset);
    assert interval * (offset + 1) == interval * offset + interval;
  }

  // A multiple of the interval is its own bin start.
  lemma MultipleDivides(q: int, d: Positive)
    ensures (q * d) / d == q
  {
    var x := q * d;
    var e := q - x / d;
    assert d * e == x % d by {
      assert x == d * (x / d) + x % d;
      assert d * e == d * q - d * (x / d);
    }
    MultipleBounds(d, e);
  }

  lemma MultipleBounds(d: int, e: int)
    requires 0 < d
    ensures e >= 1 ==> d * e >= d
    ensures e <= -1 ==> d * e <= 0 - d
  {
    if e >= 1 { assert d * (e - 1) >= 0; }
    if e <= -1 { assert d * (e + 1) <= 0; }
  }

  // The bin of a timestamp is the one interval around it that starts at a multiple of its length.
  lemma TimeBinIs(timestamp: int, interval: Positive, q: int)
    ensures q * interval <= timestamp < (q + 1) * interval <==>
              FindTimeBin(timestamp, interval) == (q * interval, (q + 1) * interval)
  {
    var p := timestamp / interval;
    assert timestamp == interval * p + timestamp % interval;
    assert (q + 1) * interval == q * interval + interval && (p + 1) * interval == p * interval + interval;
    MultipleBounds(interval, q - p);
    assert interval * (q - p) == q * interval - p * interval;
  }

  // The quanta of a price are the whole number just below it.
  lemma QuantaAre(price: real, scale: Positive, q: int)
    ensures q as real <= price * scale as real < q as real + 1.0 <==> Quantized(price, scale) == q
  {
  }

  lemma TimeBinHolds(timestamp: int, interval: Positive)
    ensures FindTimeBin(timestamp, interval).0 <= timestamp < FindTimeBin(timestamp, interval).1
    ensures FindTimeBin(FindTimeBin(timestamp, interval).0, interval).0 == FindTimeBin(timestamp, interval).0
  {
    var q := timestamp / interval;
    assert timestamp == interval * q + timestamp % interval;
    MultipleDivides(q, interval);
  }

  function Volume(ts: seq<Trade>): int { if ts == [] then 0 else Volume(ts[..|ts| - 1]) + ts[|ts| - 1].offer.base }
}
