/** Incremental indicators: Wilder's average true range, rate of change, volume average. */
module Indicators {
  import opened Prelude

  // ------------------------------------------------------------------ average true range

  /** `seedSum` is the sum of the true ranges seen before the first value. */
  datatype Atr = Atr(prevClose: Option<real>, count: nat, seedSum: real, value: Option<real>)

  const NewAtr := Atr(None, 0, 0.0, None)

  function TrueRange(prevClose: Option<real>, high: real, low: real): real {
    if prevClose.None? then high - low
    else Max(high - low, Max(Abs(high - prevClose.value), Abs(low - prevClose.value)))
  }

  function Wilder(period: int, average: real, tr: real): real
    requires period >= 1
  {
    (average * (period - 1) as real + tr) / period as real
  }

  function UpdateAtr(period: int, a: Atr, high: real, low: real, close: real): Atr
    requires period >= 1
  {
    var tr := TrueRange(a.prevClose, high, low);
    var a' := a.(prevClose := Some(close), count := a.count + 1);
    if a.value.Some? then
      a'.(value := Some(Wilder(period, a.value.value, tr)))
    else if a'.count <= period then
      var sum := a.seedSum + tr;
      a'.(seedSum := sum, value := if a'.count == period then Some(sum / period as real) else None)
    else a'
  }

  /** Ready exactly from the period-th bar on, and never negative. */
  predicate AtrInv(period: int, a: Atr) {
    && (a.value.Some? <==> a.count >= period)
    && a.seedSum >= 0.0
    && (a.value.Some? ==> a.value.value >= 0.0)
  }

  lemma QuotientNonNegative(x: real, n: int)
    requires x >= 0.0 && n >= 1
    ensures x / n as real >= 0.0
  {
  }

  lemma UpdateAtrInv(period: int, a: Atr, high: real, low: real, close: real)
    requires period >= 1 && AtrInv(period, a) && low <= high
    ensures AtrInv(period, UpdateAtr(period, a, high, low, close))
  {
    var tr := TrueRange(a.prevClose, high, low);
    assert tr >= 0.0;
    if a.value.Some? {
      ProductNonNegative(a.value.value, (period - 1) as real);
      QuotientNonNegative(a.value.value * (period - 1) as real + tr, period);
    } else {
      QuotientNonNegative(a.seedSum + tr, period);
    }
  }

  // ------------------------------------------------------------------ rate of change

  /** The last period + 1 closes. */
  type Roc = seq<real>

  function UpdateRoc(period: int, closes: Roc, close: real): Roc
    requires period >= 1
  {
    var more := closes + [close];
    if |more| > period + 1 then more[|more| - (period + 1)..] else more
  }

  predicate RocReady(period: int, closes: Roc) {
    |closes| == period + 1
  }

  /** None when the divisor is zero, where the original raises. */
  function RocValue(period: int, closes: Roc): Option<real>
    requires period >= 1 && RocReady(period, closes)
  {
    if closes[0] == 0.0 then None else Some((closes[period] / closes[0] - 1.0) * 100.0)
  }

  // ------------------------------------------------------------------ volume average

  datatype Sma = Sma(vols: seq<real>, sum: real)

  const NewSma := Sma([], 0.0)

  function UpdateSma(period: int, s: Sma, volume: real): Sma
    requires period >= 1
  {
    if |s.vols| == period then Sma(s.vols[1..] + [volume], s.sum - s.vols[0] + volume)
    else Sma(s.vols + [volume], s.sum + volume)
  }

  function Sum(xs: seq<real>): real {
    if xs == [] then 0.0 else xs[0] + Sum(xs[1..])
  }

  predicate SmaReady(period: int, s: Sma) {
    |s.vols| == period
  }

  function SmaValue(period: int, s: Sma): real
    requires period >= 1
  {
    s.sum / period as real
  }

  lemma {:induction false} SumSnoc(xs: seq<real>, x: real)
    ensures Sum(xs + [x]) == Sum(xs) + x
  {
    if xs == [] {
      assert xs + [x] == [x];
    } else {
      assert (xs + [x])[1..] == xs[1..] + [x];
      SumSnoc(xs[1..], x);
    }
  }

  function RunSma(period: int, volumes: seq<real>): Sma
    requires period >= 1
    decreases |volumes|
  {
    if volumes == [] then NewSma
    else UpdateSma(period, RunSma(period, volumes[..|volumes| - 1]), volumes[|volumes| - 1])
  }

  /** The last `n` elements, or all of them. */
  function Last(xs: seq<real>, n: nat): seq<real> {
    if |xs| > n then xs[|xs| - n..] else xs
  }

  lemma LastSnoc(xs: seq<real>, x: real, n: nat)
    requires n >= 1
    ensures var w := Last(xs, n);
            Last(xs + [x], n) == (if |w| == n then w[1..] else w) + [x]
  {
  }

  lemma UpdateSmaSum(period: int, s: Sma, volume: real)
    requires period >= 1 && s.sum == Sum(s.vols)
    ensures UpdateSma(period, s, volume).sum == Sum(UpdateSma(period, s, volume).vols)
  {
    SumSnoc(if |s.vols| == period then s.vols[1..] else s.vols, volume);
  }

  /** The rolling sum is the sum of the last `period` volumes, over any number of bars. */
  lemma {:induction false} RollingSum(period: int, volumes: seq<real>)
    requires period >= 1
    ensures RunSma(period, volumes).vols == Last(volumes, period)
    ensures RunSma(period, volumes).sum == Sum(RunSma(period, volumes).vols)
    decreases |volumes|
  {
    if volumes != [] {
      var most, v := volumes[..|volumes| - 1], volumes[|volumes| - 1];
      RollingSum(period, most);
      RollingStep(period, most, RunSma(period, most), v);
      assert volumes == most + [v];
    }
  }

  lemma {:induction false} RollingStep(period: int, volumes: seq<real>, s: Sma, v: real)
    requires period >= 1 && s.vols == Last(volumes, period) && s.sum == Sum(s.vols)
    ensures var s' := UpdateSma(period, s, v);
            s'.vols == Last(volumes + [v], period) && s'.sum == Sum(s'.vols)
  {
    UpdateSmaSum(period, s, v);
    LastSnoc(volumes, v, period);
  }
}
