/** The engine's indicators over the bars they have been fed: those in hours since the session began or a
    gap was last reset. */
module OrbGauges {
  import opened Prelude
  import opened Models
  import opened Session
  import opened Indicators
  import opened OrbEngine
  import opened OrbRuns
  import opened OrbSpacing

  /** The bars in hours since the session began or the last gap reset in it; a bar on which a position is
      closed for either reason does nothing else. */
  function FedBars(cfg: Config, inputs: seq<Input>): seq<Candle>
    requires ValidConfig(cfg)
    decreases |inputs|
  {
    if inputs == [] then []
    else
      var most, input := inputs[..|inputs| - 1], inputs[|inputs| - 1];
      var e, e' := Run(cfg, most), Run(cfg, inputs);
      if input.BrokerClosedIt? || !Accepts(e.clock.last, input.c) then FedBars(cfg, most)
      else FedOn(cfg, e, FedBars(cfg, most), e', input.c)
  }

  /** A new session, or a gap reset in the same one. */
  predicate Afresh(e: Engine, e': Engine) {
    e'.clock.session != e.clock.session || e'.trace.gapResets != e.trace.gapResets
  }

  function FedOn(cfg: Config, e: Engine, fed: seq<Candle>, e': Engine, c: Candle): seq<Candle> {
    var base := if Afresh(e, e') then [] else fed;
    if InHours(Classify(cfg.hours, c.ts).zone) && !(Afresh(e, e') && e.phase == Breakout) then base + [c] else base
  }

  function AtrOver(period: int, bars: seq<Candle>): Atr
    requires period >= 1
    decreases |bars|
  {
    if bars == [] then NewAtr
    else
      var c := bars[|bars| - 1];
      UpdateAtr(period, AtrOver(period, bars[..|bars| - 1]), c.high, c.low, c.close)
  }

  function RocOver(period: int, bars: seq<Candle>): Roc
    requires period >= 1
    decreases |bars|
  {
    if bars == [] then [] else UpdateRoc(period, RocOver(period, bars[..|bars| - 1]), bars[|bars| - 1].close)
  }

  function SmaOver(period: int, bars: seq<Candle>): Sma
    requires period >= 1
    decreases |bars|
  {
    if bars == [] then NewSma else UpdateSma(period, SmaOver(period, bars[..|bars| - 1]), bars[|bars| - 1].volume)
  }

  function GaugesOver(cfg: Config, bars: seq<Candle>): Gauges
    requires ValidConfig(cfg)
  {
    Gauges(AtrOver(cfg.atrPeriod, bars),
           if cfg.useRoc then RocOver(cfg.rocPeriod, bars) else [],
           if cfg.useRvol then SmaOver(cfg.rvolPeriod, bars) else NewSma)
  }

  lemma GaugesSnoc(cfg: Config, e: Engine, bars: seq<Candle>, c: Candle, zone: Zone)
    requires ValidConfig(cfg) && e.gauges == GaugesOver(cfg, bars)
    ensures Fed(cfg, e, c, zone).gauges == GaugesOver(cfg, if InHours(zone) then bars + [c] else bars)
  {
    assert (bars + [c])[..|bars|] == bars;
  }

  /** What no handler touches. */
  predicate SameGauges(e: Engine, e': Engine) {
    e'.gauges == e.gauges && e'.clock.session == e.clock.session && e'.trace.gapResets == e.trace.gapResets
  }

  lemma CheckGauges(cfg: Config, e: Engine, c: Candle)
    requires ValidConfig(cfg) && e.range.ends.Some? && Warm(cfg, e.gauges)
    ensures SameGauges(e, CheckBreakout(cfg, e, c).e)
  {
  }

  lemma OnRangeDefinedGauges(cfg: Config, e: Engine, c: Candle, zone: Zone)
    requires ValidConfig(cfg) && (e.range.locked || !e.range.rebuild ==> e.range.ends.Some?)
    ensures SameGauges(e, OnRangeDefined(cfg, e, c, zone).e)
  {
    if !((zone == InRangeWindow || e.range.rebuild) && !e.range.locked) {
      var e1 := if zone == InSession && !e.range.locked then Locked(e) else e;
      if Warm(cfg, e1.gauges) {
        CheckGauges(cfg, e1, c);
      }
    }
  }

  lemma OnBreakoutGauges(cfg: Config, e: Engine, c: Candle)
    requires e.pos.Some? && e.range.ends.Some? && e.gauges.atr.value.Some?
    ensures SameGauges(e, OnBreakout(cfg, e, c))
  {
  }

  lemma DispatchGauges(cfg: Config, e: Engine, c: Candle, zone: Zone)
    requires ValidConfig(cfg) && Shape(e)
    ensures SameGauges(Fed(cfg, e, c, zone), Dispatch(cfg, e, c, zone).e)
  {
    var e1 := Fed(cfg, e, c, zone);
    if e1.phase == RangeDefined {
      OnRangeDefinedGauges(cfg, e1, c, zone);
    } else if e1.phase == Breakout {
      OnBreakoutGauges(cfg, e1, c);
    }
  }

  /** Dispatching a bar: the indicators go on from these bars. */
  lemma DispatchFeeds(cfg: Config, e: Engine, bars: seq<Candle>, c: Candle, zone: Zone)
    requires ValidConfig(cfg) && Shape(e) && e.gauges == GaugesOver(cfg, bars)
    ensures var e' := Dispatch(cfg, e, c, zone).e;
            && e'.gauges == GaugesOver(cfg, if InHours(zone) then bars + [c] else bars)
            && e'.clock.session == e.clock.session && e'.trace.gapResets == e.trace.gapResets
  {
    GaugesSnoc(cfg, e, bars, c, zone);
    DispatchGauges(cfg, e, c, zone);
  }

  lemma CrossGauges(cfg: Config, e: Engine, bars: seq<Candle>, c: Candle)
    requires ValidConfig(cfg) && FullInv(cfg, e) && e.clock.session != Some(Classify(cfg.hours, c.ts).session)
    ensures var e' := CrossBoundary(cfg, e, c, Classify(cfg.hours, c.ts)).0;
            e'.gauges == GaugesOver(cfg, FedOn(cfg, e, bars, e', c))
  {
    var info := Classify(cfg.hours, c.ts);
    if e.phase != Breakout {
      NewSessionInv(e, info.session);
      DispatchFeeds(cfg, At(NewSession(e, info.session), c.ts), [], c, info.zone);
    }
  }

  /** After a gap reset that closed no position. */
  lemma GapGauges(cfg: Config, e: Engine, bars: seq<Candle>, c: Candle, info: Info)
    requires ValidConfig(cfg) && FullInv(cfg, e) && e.phase != Breakout
    requires e.clock.last.Some? && c.ts > e.clock.last.value && e.clock.session == Some(info.session)
    requires info == Classify(cfg.hours, c.ts) && info.zone != After
    ensures var gapped := At(AfterGap(cfg, e, c, info.zone), c.ts);
            && Shape(gapped)
            && var e' := Dispatch(cfg, gapped, c, info.zone).e; e'.gauges == GaugesOver(cfg, FedOn(cfg, e, bars, e', c))
  {
    AfterGapInv(cfg, e, c, info.zone);
    RestartedGauges(cfg, e, c, info.zone);
    FreshlyFed(cfg, e, bars, At(AfterGap(cfg, e, c, info.zone), c.ts), c, info.zone);
  }

  /** Dispatching a bar with the indicators just started anew. */
  lemma FreshlyFed(cfg: Config, e: Engine, bars: seq<Candle>, gapped: Engine, c: Candle, zone: Zone)
    requires ValidConfig(cfg) && Shape(gapped) && gapped.gauges == NewGauges && e.phase != Breakout
    requires gapped.trace.gapResets != e.trace.gapResets && zone == Classify(cfg.hours, c.ts).zone
    ensures var e' := Dispatch(cfg, gapped, c, zone).e; e'.gauges == GaugesOver(cfg, FedOn(cfg, e, bars, e', c))
  {
    DispatchFeeds(cfg, gapped, [], c, zone);
    assert [] + [c] == [c];
  }

  lemma HeldGapGauges(cfg: Config, e: Engine, bars: seq<Candle>, c: Candle, zone: Zone)
    requires ValidConfig(cfg) && Shape(e) && e.phase == Breakout
    ensures var gapped := At(AfterGap(cfg, e, c, zone), c.ts);
            gapped.gauges == GaugesOver(cfg, FedOn(cfg, e, bars, gapped, c))
  {
    RestartedGauges(cfg, e, c, zone);
  }

  lemma RestartedGauges(cfg: Config, e: Engine, c: Candle, zone: Zone)
    requires Shape(e)
    ensures var gapped := At(AfterGap(cfg, e, c, zone), c.ts);
            && gapped.gauges == NewGauges && gapped.clock.session == e.clock.session
            && gapped.trace.gapResets == e.trace.gapResets + 1
  {
  }

  /** After an accepted bar. */
  lemma AcceptedGauges(cfg: Config, e: Engine, bars: seq<Candle>, c: Candle)
    requires ValidConfig(cfg) && FullInv(cfg, e) && e.gauges == GaugesOver(cfg, bars) && Accepts(e.clock.last, c)
    ensures var e' := OnCandle(cfg, e, c).0; e'.gauges == GaugesOver(cfg, FedOn(cfg, e, bars, e', c))
  {
    var info := Classify(cfg.hours, c.ts);
    if e.clock.session != Some(info.session) {
      CrossGauges(cfg, e, bars, c);
    } else if info.zone == After {
      AfterGauges(cfg, e, c);
    } else if IsReset(cfg, e, c.ts) {
      if e.phase == Breakout {
        HeldGapGauges(cfg, e, bars, c, info.zone);
      } else {
        GapGauges(cfg, e, bars, c, info);
      }
    } else {
      WithinGauges(cfg, e, bars, c, info.zone);
    }
  }

  lemma WithinGauges(cfg: Config, e: Engine, bars: seq<Candle>, c: Candle, zone: Zone)
    requires ValidConfig(cfg) && Shape(e) && e.gauges == GaugesOver(cfg, bars)
    requires zone == Classify(cfg.hours, c.ts).zone
    ensures var e' := Dispatch(cfg, At(e, c.ts), c, zone).e; e'.gauges == GaugesOver(cfg, FedOn(cfg, e, bars, e', c))
  {
    DispatchFeeds(cfg, At(e, c.ts), bars, c, zone);
  }

  lemma NextGauges(cfg: Config, e: Engine, bars: seq<Candle>, input: Input)
    requires ValidConfig(cfg) && FullInv(cfg, e) && e.gauges == GaugesOver(cfg, bars)
    ensures var e' := Next(cfg, e, input);
            e'.gauges == GaugesOver(cfg, if input.BrokerClosedIt? || !Accepts(e.clock.last, input.c) then bars
                                         else FedOn(cfg, e, bars, e', input.c))
  {
    if input.Bar? && Accepts(e.clock.last, input.c) {
      AcceptedGauges(cfg, e, bars, input.c);
    }
  }

  lemma AfterGauges(cfg: Config, e: Engine, c: Candle)
    requires Shape(e)
    ensures SameGauges(e, AfterHours(cfg, e, c))
  {
  }

  /** Over every run the indicators are those of the bars fed. */
  lemma {:induction false} GaugesAreBars(cfg: Config, inputs: seq<Input>)
    requires ValidConfig(cfg)
    ensures Run(cfg, inputs).gauges == GaugesOver(cfg, FedBars(cfg, inputs))
    decreases |inputs|
  {
    if inputs != [] {
      var most, input := inputs[..|inputs| - 1], inputs[|inputs| - 1];
      GaugesAreBars(cfg, most);
      NextGauges(cfg, Run(cfg, most), FedBars(cfg, most), input);
    }
  }

  // ------------------------------------------------------------------ what the indicators are

  /** The widest of the bar's own range and its reaches from the close before it, if there is one. */
  predicate IsTrueRange(bars: seq<Candle>, i: nat, x: real)
    requires i < |bars|
  {
    var c := bars[i];
    && x >= c.high - c.low
    && (i == 0 ==> x == c.high - c.low)
    && (i > 0 ==>
          var before := bars[i - 1].close;
          && -x <= c.high - before <= x && -x <= c.low - before <= x
          && (x == c.high - c.low || x == c.high - before || x == before - c.high
              || x == c.low - before || x == before - c.low))
  }

  function Times(a: real, b: real): real {
    a * b
  }

  /** How much is kept of the average with each new true range. */
  function Fade(n: int): real
    requires n >= 1
  {
    (n - 1) as real / n as real
  }

  /** An n-th, faded k times. */
  function Weight(n: int, k: nat): real
    requires n >= 1
  {
    if k == 0 then 1.0 / n as real else Times(Fade(n), Weight(n, k - 1))
  }

  /** The weight of true range i among the first m: even over the first n, and fading by (n - 1) / n with each
      one after. */
  function WeightAt(n: int, m: int, i: nat): real
    requires 1 <= n <= m && i < m
  {
    Weight(n, if i < n then m - n else m - 1 - i)
  }

  function Weighted(n: int, m: int, xs: seq<real>): real
    requires 1 <= n <= m && |xs| <= m
    decreases |xs|
  {
    if xs == [] then 0.0 else Weighted(n, m, xs[..|xs| - 1]) + Times(WeightAt(n, m, |xs| - 1), xs[|xs| - 1])
  }

  function SumOf(xs: seq<real>): real
    decreases |xs|
  {
    if xs == [] then 0.0 else SumOf(xs[..|xs| - 1]) + xs[|xs| - 1]
  }

  lemma {:induction false} WeightedEven(n: int, xs: seq<real>)
    requires 1 <= n && |xs| <= n
    ensures Weighted(n, n, xs) == Times(1.0 / n as real, SumOf(xs))
    decreases |xs|
  {
    if xs != [] {
      WeightedEven(n, xs[..|xs| - 1]);
      Spread(1.0 / n as real, SumOf(xs[..|xs| - 1]), 1.0, xs[|xs| - 1]);
      assert Times(1.0, xs[|xs| - 1]) == xs[|xs| - 1] && Times(1.0 / n as real, 1.0) == 1.0 / n as real;
    }
  }

  lemma Spread(k: real, a: real, w: real, x: real)
    ensures Times(k, a + Times(w, x)) == Times(k, a) + Times(Times(k, w), x)
  {
    assert k * (a + w * x) == k * a + k * (w * x);
    assert k * (w * x) == (k * w) * x;
  }

  /** With one more true range to come all weights fade. */
  lemma {:induction false} WeightedFades(n: int, m: int, xs: seq<real>)
    requires 1 <= n <= m && |xs| <= m
    ensures Weighted(n, m + 1, xs) == Times(Fade(n), Weighted(n, m, xs))
    decreases |xs|
  {
    if xs != [] {
      WeightedFades(n, m, xs[..|xs| - 1]);
      WeightFades(n, m, |xs| - 1);
      Spread(Fade(n), Weighted(n, m, xs[..|xs| - 1]), WeightAt(n, m, |xs| - 1), xs[|xs| - 1]);
    }
  }

  lemma WeightFades(n: int, m: int, i: nat)
    requires 1 <= n <= m && i < m
    ensures WeightAt(n, m + 1, i) == Times(Fade(n), WeightAt(n, m, i))
  {
  }

  lemma TrueRangeIs(bars: seq<Candle>, i: nat, before: Option<real>)
    requires i < |bars| && before == (if i == 0 then None else Some(bars[i - 1].close))
    ensures IsTrueRange(bars, i, TrueRange(before, bars[i].high, bars[i].low))
  {
  }

  /** The state of the average after these bars, whose true ranges are `xs`. */
  predicate AtrIs(n: int, bars: seq<Candle>, xs: seq<real>, a: Atr)
    requires n >= 1
  {
    && a.count == |bars| == |xs|
    && a.prevClose == (if bars == [] then None else Some(bars[|bars| - 1].close))
    && (|bars| < n ==> a.value.None? && a.seedSum == SumOf(xs))
    && (|bars| >= n ==> a.value == Some(Weighted(n, |bars|, xs)))
  }

  /** Wilder's average over any bars is ready from the n-th on and then the weighted sum of their true
      ranges: the mean of the first n, and from then on (n - 1) / n of what it was and 1 / n of the new. */
  lemma {:induction false} AtrIsWeighted(n: int, bars: seq<Candle>) returns (xs: seq<real>)
    requires n >= 1
    ensures |xs| == |bars| && forall i :: 0 <= i < |bars| ==> IsTrueRange(bars, i, xs[i])
    ensures AtrIs(n, bars, xs, AtrOver(n, bars))
    decreases |bars|
  {
    if bars == [] {
      xs := [];
    } else {
      var most, k := bars[..|bars| - 1], |bars| - 1;
      var before := AtrIsWeighted(n, most);
      var a := AtrOver(n, most);
      var x := TrueRange(a.prevClose, bars[k].high, bars[k].low);
      TrueRangeIs(bars, k, a.prevClose);
      xs := before + [x];
      forall i | 0 <= i < |bars| ensures IsTrueRange(bars, i, xs[i]) {
        if i < k {
          TrueRangeSame(bars, most, i, before[i]);
        }
      }
      UpdateIs(n, a, bars[k].high, bars[k].low, bars[k].close);
      AtrStep(n, bars, most, before, x, a);
    }
  }

  lemma TrueRangeSame(bars: seq<Candle>, most: seq<Candle>, i: nat, x: real)
    requires i < |most| < |bars| && most == bars[..|most|] && IsTrueRange(most, i, x)
    ensures IsTrueRange(bars, i, x)
  {
  }

  /** One more true range, as parts of what was and of the new. */
  function Renewed(n: int, a: Atr, x: real, close: real): Atr
    requires n >= 1
  {
    var sum := if a.value.None? && a.count < n then a.seedSum + x else a.seedSum;
    Atr(Some(close), a.count + 1, sum,
        if a.value.Some? then Some(Times(Fade(n), a.value.value) + Times(1.0 / n as real, x))
        else if a.count + 1 == n then Some(Times(1.0 / n as real, sum))
        else None)
  }

  lemma UpdateIs(n: int, a: Atr, high: real, low: real, close: real)
    requires n >= 1
    ensures UpdateAtr(n, a, high, low, close) == Renewed(n, a, TrueRange(a.prevClose, high, low), close)
  {
    var x := TrueRange(a.prevClose, high, low);
    if a.value.Some? {
      NewestIs(a.value.value, x, n);
    } else {
      MeanIs(a.seedSum + x, n);
    }
  }

  lemma {:induction false} AtrStep(n: int, bars: seq<Candle>, most: seq<Candle>, before: seq<real>, x: real, a: Atr)
    requires n >= 1 && bars != [] && most == bars[..|bars| - 1] && AtrIs(n, most, before, a)
    ensures AtrIs(n, bars, before + [x], Renewed(n, a, x, bars[|bars| - 1].close))
  {
    var xs, m := before + [x], |before|;
    assert xs[..m] == before;
    if m + 1 == n {
      WeightedEven(n, xs);
    } else if m >= n {
      WeightedFades(n, m, before);
    }
  }

  lemma MeanIs(sum: real, n: int)
    requires n >= 1
    ensures sum / n as real == Times(1.0 / n as real, sum)
  {
  }

  lemma NewestIs(a: real, x: real, n: int)
    requires n >= 1
    ensures Wilder(n, a, x) == Times(Fade(n), a) + Times(1.0 / n as real, x)
  {
    var r, k := n as real, (n - 1) as real;
    assert (a * k + x) / r == a * k / r + x / r;
    assert a * k / r == (k / r) * a;
    MeanIs(x, n);
  }

  /** The rate of change compares the newest close with the one `n` bars before it. */
  lemma {:induction false} RocIsCloses(n: int, bars: seq<Candle>)
    requires n >= 1
    ensures var xs := RocOver(n, bars);
            && |xs| == (if |bars| <= n then |bars| else n + 1)
            && forall i :: 0 <= i < |xs| ==> xs[i] == bars[|bars| - |xs| + i].close
    decreases |bars|
  {
    if bars != [] {
      RocIsCloses(n, bars[..|bars| - 1]);
    }
  }

  lemma {:induction false} SmaIsVolumes(n: int, bars: seq<Candle>)
    requires n >= 1
    ensures var s := SmaOver(n, bars);
            && |s.vols| == (if |bars| <= n then |bars| else n)
            && (forall i :: 0 <= i < |s.vols| ==> s.vols[i] == bars[|bars| - |s.vols| + i].volume)
            && s.sum == Sum(s.vols)
    decreases |bars|
  {
    if bars != [] {
      SmaIsVolumes(n, bars[..|bars| - 1]);
      UpdateSmaSum(n, SmaOver(n, bars[..|bars| - 1]), bars[|bars| - 1].volume);
    }
  }
}
