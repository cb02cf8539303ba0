/** Swings and breaks of structure in highs, lows and closes. */
module StructurePrices {
  import opened Prelude
  import opened Models
  import opened Structure
  import Breaks

  /** The high of bar i is above those of the k bars on either side of it. */
  predicate HighAt(k: nat, bars: seq<Candle>, i: nat) {
    k <= i && i + k < |bars| && forall j :: i - k <= j <= i + k && j != i ==> bars[j].high < bars[i].high
  }

  predicate LowAt(k: nat, bars: seq<Candle>, i: nat) {
    k <= i && i + k < |bars| && forall j :: i - k <= j <= i + k && j != i ==> bars[j].low > bars[i].low
  }

  ghost predicate LatestHigh(k: nat, bars: seq<Candle>, i: nat) {
    HighAt(k, bars, i) && forall j: nat :: j > i ==> !HighAt(k, bars, j)
  }

  ghost predicate LatestLow(k: nat, bars: seq<Candle>, i: nat) {
    LowAt(k, bars, i) && forall j: nat :: j > i ==> !LowAt(k, bars, j)
  }

  predicate Upward(e: Option<Event>) {
    e.Some? && e.value.direction == Long
  }

  predicate Downward(e: Option<Event>) {
    e.Some? && e.value.direction == Short
  }

  /** With bar n, bar i is the latest swing high, and no bar before n has broken it since it was confirmed. */
  ghost predicate HighStands(cfg: Config, bars: seq<Candle>, events: seq<Option<Event>>, n: nat, i: nat)
    requires n < |bars| == |events|
  {
    LatestHigh(cfg.lookback, bars[..n + 1], i) && forall m :: i + cfg.lookback <= m < n ==> !Upward(events[m])
  }

  ghost predicate LowStands(cfg: Config, bars: seq<Candle>, events: seq<Option<Event>>, n: nat, i: nat)
    requires n < |bars| == |events|
  {
    LatestLow(cfg.lookback, bars[..n + 1], i) && forall m :: i + cfg.lookback <= m < n ==> !Downward(events[m])
  }

  ghost predicate ClosesAbove(cfg: Config, bars: seq<Candle>, events: seq<Option<Event>>, n: nat)
    requires n < |bars| == |events|
  {
    exists i: nat :: HighStands(cfg, bars, events, n, i) && bars[i].high < bars[n].close
  }

  ghost predicate ClosesBelow(cfg: Config, bars: seq<Candle>, events: seq<Option<Event>>, n: nat)
    requires n < |bars| == |events|
  {
    exists i: nat :: LowStands(cfg, bars, events, n, i) && bars[i].low > bars[n].close
  }

  lemma {:induction false} SwingInPrices(k: nat, bars: seq<Candle>, i: nat)
    ensures IsSwing(Long, k, bars, i) <==> HighAt(k, bars, i)
    ensures IsSwing(Short, k, bars, i) <==> LowAt(k, bars, i)
  {
  }

  lemma {:induction false} LatestInPrices(k: nat, bars: seq<Candle>, i: nat)
    ensures LatestSwing(Long, k, bars, i) <==> LatestHigh(k, bars, i)
    ensures LatestSwing(Short, k, bars, i) <==> LatestLow(k, bars, i)
  {
    forall j: nat
      ensures IsSwing(Long, k, bars, j) <==> HighAt(k, bars, j)
      ensures IsSwing(Short, k, bars, j) <==> LowAt(k, bars, j)
    {
      SwingInPrices(k, bars, j);
    }
  }

  /** The standing swing of the history is the one standing in prices. */
  lemma {:induction false} StandingHigh(cfg: Config, bars: seq<Candle>, events: seq<Option<Event>>, n: nat)
    requires n < |bars| == |events|
    ensures var s := Standing(Long, cfg.lookback, bars[..n + 1], events[..n]);
            && (s.Some? ==> HighStands(cfg, bars, events, n, s.value))
            && forall i: nat :: HighStands(cfg, bars, events, n, i) ==> s == Some(i)
  {
    var upTo, past, k := bars[..n + 1], events[..n], cfg.lookback;
    var s := Standing(Long, k, upTo, past);
    if s.Some? {
      Breaks.StandingIsLatest(Long, k, upTo, past);
      LatestInPrices(k, upTo, s.value);
      forall m | s.value + k <= m < n ensures !Upward(events[m]) {
        assert !Went(past[m], Long);
      }
    }
    forall i: nat | HighStands(cfg, bars, events, n, i) ensures s == Some(i) {
      LatestInPrices(k, upTo, i);
      Breaks.StandingIs(Long, k, upTo, past, i);
      assert !BrokenSince(past, Long, i + k);
    }
  }

  lemma {:induction false} StandingLow(cfg: Config, bars: seq<Candle>, events: seq<Option<Event>>, n: nat)
    requires n < |bars| == |events|
    ensures var s := Standing(Short, cfg.lookback, bars[..n + 1], events[..n]);
            && (s.Some? ==> LowStands(cfg, bars, events, n, s.value))
            && forall i: nat :: LowStands(cfg, bars, events, n, i) ==> s == Some(i)
  {
    var upTo, past, k := bars[..n + 1], events[..n], cfg.lookback;
    var s := Standing(Short, k, upTo, past);
    if s.Some? {
      Breaks.StandingIsLatest(Short, k, upTo, past);
      LatestInPrices(k, upTo, s.value);
      forall m | s.value + k <= m < n ensures !Downward(events[m]) {
        assert !Went(past[m], Short);
      }
    }
    forall i: nat | LowStands(cfg, bars, events, n, i) ensures s == Some(i) {
      LatestInPrices(k, upTo, i);
      Breaks.StandingIs(Short, k, upTo, past, i);
      assert !BrokenSince(past, Short, i + k);
    }
  }

  lemma {:induction false} CrossesAre(cfg: Config, bars: seq<Candle>, events: seq<Option<Event>>, n: nat)
    requires n < |bars| == |events|
    ensures var upTo, past, k := bars[..n + 1], events[..n], cfg.lookback;
            && (Crosses(Long, AsSwing(Long, upTo, Standing(Long, k, upTo, past)), bars[n].close)
                <==> ClosesAbove(cfg, bars, events, n))
            && (Crosses(Short, AsSwing(Short, upTo, Standing(Short, k, upTo, past)), bars[n].close)
                <==> ClosesBelow(cfg, bars, events, n))
  {
    StandingHigh(cfg, bars, events, n);
    StandingLow(cfg, bars, events, n);
  }

  /** Over every history, bar by bar: a break up at a close above the standing swing high, a break down at one
      below the standing swing low, each named by that price; were there both, the bar's body would decide. */
  lemma {:induction false} BreaksInPrices(cfg: Config, bars: seq<Candle>, n: nat) returns (i: nat)
    requires ValidConfig(cfg) && n < |bars|
    ensures var events := Run(cfg, bars).events;
            var e, c := events[n], bars[n];
            var up, dn := ClosesAbove(cfg, bars, events, n), ClosesBelow(cfg, bars, events, n);
            && (Upward(e) <==> up && (!dn || c.close >= c.open))
            && (Downward(e) <==> dn && (!up || c.close < c.open))
            && (e.Some? ==> e.value.ts == c.ts && i < |bars|)
            && (Upward(e) ==> HighStands(cfg, bars, events, n, i) && e.value.level == bars[i].high)
            && (Downward(e) ==> LowStands(cfg, bars, events, n, i) && e.value.level == bars[i].low)
  {
    var events := Run(cfg, bars).events;
    var upTo, past, k := bars[..n + 1], events[..n], cfg.lookback;
    Refines(cfg, bars, n);
    CrossesAre(cfg, bars, events, n);
    StandingHigh(cfg, bars, events, n);
    StandingLow(cfg, bars, events, n);
    var high, low := Standing(Long, k, upTo, past), Standing(Short, k, upTo, past);
    i := if Upward(events[n]) then high.value else if Downward(events[n]) then low.value else 0;
  }
}
