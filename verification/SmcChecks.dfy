/** The multi-timeframe engine's checks in prices, over the bars it has been fed. */
module SmcChecks {
  import opened Prelude
  import opened Models
  import opened SmcEngine
  import opened SmcRuns
  import opened SmcHistory
  import Aggregation
  import Structure
  import OrderBlocks
  import Profile
  import Indicators
  import G = OrbGauges

  // ------------------------------------------------------------------ the rest of the engine's state

  /** The bars of the last bar's date. */
  function TodayOf(fed: seq<Candle>): (r: seq<Candle>)
    ensures |r| <= |fed|
    decreases |fed|
  {
    if fed == [] then []
    else
      var most, c := fed[..|fed| - 1], fed[|fed| - 1];
      if most != [] && DateOf(most[|most| - 1].ts) == DateOf(c.ts) then TodayOf(most) + [c] else [c]
  }

  /** They are the last bars, and all that have that date. */
  lemma {:induction false} TodayExact(fed: seq<Candle>)
    requires Aggregation.Ascending(fed) && fed != []
    ensures TodayOf(fed) == fed[|fed| - |TodayOf(fed)|..]
    ensures LastDate(fed, DateOf(fed[|fed| - 1].ts), |fed| - |TodayOf(fed)|)
    decreases |fed|
  {
    if |fed| > 1 {
      AscendingMost(fed);
      TodayExact(fed[..|fed| - 1]);
      OneMoreDay(fed, fed[..|fed| - 1], fed[|fed| - 1], TodayOf(fed[..|fed| - 1]));
    }
  }

  lemma {:induction false} AscendingMost(fed: seq<Candle>)
    requires Aggregation.Ascending(fed) && fed != []
    ensures Aggregation.Ascending(fed[..|fed| - 1])
  {
  }

  lemma {:induction false} OneMoreDay(fed: seq<Candle>, most: seq<Candle>, c: Candle, today: seq<Candle>)
    requires fed == most + [c] && most != [] && Aggregation.Ascending(fed) && |today| <= |most|
    requires today == most[|most| - |today|..] && LastDate(most, DateOf(most[|most| - 1].ts), |most| - |today|)
    ensures var r := if DateOf(most[|most| - 1].ts) == DateOf(c.ts) then today + [c] else [c];
            r == fed[|fed| - |r|..] && LastDate(fed, DateOf(c.ts), |fed| - |r|)
  {
    OneMoreBar(most, c, today, |most| - |today|);
  }

  lemma {:induction false} OneMoreBar(most: seq<Candle>, c: Candle, today: seq<Candle>, k: nat)
    requires most != [] && Aggregation.Ascending(most + [c]) && k <= |most| && today == most[k..]
    requires LastDate(most, DateOf(most[|most| - 1].ts), k)
    ensures var same := DateOf(most[|most| - 1].ts) == DateOf(c.ts);
            var today', k' := if same then today + [c] else [c], if same then k else |most|;
            today' == (most + [c])[k'..] && LastDate(most + [c], DateOf(c.ts), k')
  {
    if DateOf(most[|most| - 1].ts) == DateOf(c.ts) {
      StillLast(most, c, DateOf(c.ts), k);
    } else {
      FirstOfDate(most + [c]);
    }
  }

  /** The bars from number k on have this date, those before it do not. */
  predicate LastDate(fed: seq<Candle>, date: int, k: int) {
    forall i :: 0 <= i < |fed| ==> (DateOf(fed[i].ts) == date <==> i >= k)
  }

  lemma StillLast(most: seq<Candle>, c: Candle, date: int, k: nat)
    requires LastDate(most, date, k) && DateOf(c.ts) == date && k <= |most|
    ensures LastDate(most + [c], date, k)
  {
  }

  lemma {:induction false} FirstOfDate(fed: seq<Candle>)
    requires Aggregation.Ascending(fed) && |fed| > 1
    requires DateOf(fed[|fed| - 2].ts) != DateOf(fed[|fed| - 1].ts)
    ensures LastDate(fed, DateOf(fed[|fed| - 1].ts), |fed| - 1)
  {
    forall i | 0 <= i < |fed| - 1 ensures DateOf(fed[i].ts) != DateOf(fed[|fed| - 1].ts) {
      OlderDate(fed, i);
    }
  }

  lemma {:induction false} OlderDate(fed: seq<Candle>, i: nat)
    requires Aggregation.Ascending(fed) && i + 1 < |fed|
    ensures DateOf(fed[i].ts) <= DateOf(fed[|fed| - 2].ts) <= DateOf(fed[|fed| - 1].ts)
  {
    var n := |fed| - 1;
    assert i < n - 1 ==> fed[i].ts < fed[n - 1].ts;
    DatesAscend(fed[i].ts, fed[n - 1].ts);
    DatesAscend(fed[n - 1].ts, fed[n].ts);
  }

  /** The levels of the last date before the last bar's whose profile was ready. */
  function PriorOf(cfg: Config, fed: seq<Candle>): Option<Profile.Levels>
    requires ValidConfig(cfg)
    decreases |fed|
  {
    if |fed| <= 1 then None
    else
      var most, c := fed[..|fed| - 1], fed[|fed| - 1];
      var levels := Profile.LevelsOf(cfg.profile, Profile.Run(cfg.profile, TodayOf(most)));
      if DateOf(most[|most| - 1].ts) != DateOf(c.ts) && levels.Some? then levels else PriorOf(cfg, most)
  }

  predicate DayIs(cfg: Config, fed: seq<Candle>, day: Day)
    requires ValidConfig(cfg)
  {
    && day.profile == Profile.Run(cfg.profile, TodayOf(fed))
    && day.prior == PriorOf(cfg, fed)
    && day.date == if fed == [] then None else Some(DateOf(fed[|fed| - 1].ts))
  }

  /** The bars with volume. */
  function Traded(bars: seq<Candle>): seq<Candle>
    decreases |bars|
  {
    if bars == [] then []
    else Traded(bars[..|bars| - 1]) + if bars[|bars| - 1].volume > 0.0 then [bars[|bars| - 1]] else []
  }

  predicate GaugesAre(cfg: Config, bars: seq<Candle>, g: Gauges)
    requires ValidConfig(cfg)
  {
    && g.atr == G.AtrOver(cfg.blocks.atrPeriod, bars)
    && g.volume == G.SmaOver(cfg.gates.volPeriod, Traded(bars))
  }

  predicate MemoryIs(cfg: Config, bars: seq<Candle>, hours: seq<Candle>, m: Memory) {
    && m.bars == (if |bars| > 3 then bars[|bars| - 3..] else bars)
    && m.range == if hours == [] then None else Some((hours[|hours| - 1].high, hours[|hours| - 1].low))
  }

  /** Today, the indicators and the memory are those of these bars. */
  predicate RestIs(cfg: Config, fed: seq<Candle>, e: Engine)
    requires ValidConfig(cfg)
  {
    var bars, hours := Completed(cfg.frames.trigger, fed), Completed(cfg.frames.htf, fed);
    DayIs(cfg, fed, e.day) && GaugesAre(cfg, bars, e.gauges) && MemoryIs(cfg, bars, hours, e.memory)
  }

  lemma {:induction false} TodayIs(cfg: Config, fed: seq<Candle>, day: Day, c: Candle)
    requires ValidConfig(cfg) && DayIs(cfg, fed, day)
    ensures DayIs(cfg, fed + [c], Today(cfg, day, c))
  {
    if fed != [] && DateOf(fed[|fed| - 1].ts) == DateOf(c.ts) {
      SameDay(cfg, fed, day, c);
    } else {
      OtherDay(cfg, fed, day, c);
    }
  }

  lemma {:induction false} ProfileSnoc(cfg: Profile.Config, bars: seq<Candle>, more: seq<Candle>, c: Candle)
    requires Profile.ValidConfig(cfg) && more == bars + [c]
    ensures Profile.Run(cfg, more) == Profile.Update(cfg, Profile.Run(cfg, bars), c)
  {
    assert more[..|bars|] == bars;
  }

  lemma {:induction false} SameDay(cfg: Config, fed: seq<Candle>, day: Day, c: Candle)
    requires ValidConfig(cfg) && DayIs(cfg, fed, day) && fed != [] && DateOf(fed[|fed| - 1].ts) == DateOf(c.ts)
    ensures DayIs(cfg, fed + [c], Today(cfg, day, c))
  {
    assert (fed + [c])[..|fed|] == fed;
    ProfileSnoc(cfg.profile, TodayOf(fed), TodayOf(fed + [c]), c);
  }

  lemma {:induction false} OtherDay(cfg: Config, fed: seq<Candle>, day: Day, c: Candle)
    requires ValidConfig(cfg) && DayIs(cfg, fed, day) && (fed == [] || DateOf(fed[|fed| - 1].ts) != DateOf(c.ts))
    ensures DayIs(cfg, fed + [c], Today(cfg, day, c))
  {
    assert (fed + [c])[..|fed|] == fed;
    ProfileSnoc(cfg.profile, [], TodayOf(fed + [c]), c);
    Profile.VolumeConserved(cfg.profile, TodayOf(fed));
    Profile.LevelsExact(cfg.profile, day.profile);
  }

  lemma {:induction false} GaugesStep(cfg: Config, bars: seq<Candle>, g: Gauges, bar: Candle)
    requires ValidConfig(cfg) && GaugesAre(cfg, bars, g)
    ensures GaugesAre(cfg, bars + [bar], Measured(cfg, g, bar))
  {
    var traded := Traded(bars);
    assert (bars + [bar])[..|bars|] == bars;
    assert traded + [] == traded && (traded + [bar])[..|traded|] == traded;
  }

  /** What a trigger bar is decided upon with: today and the longer timeframes with the bar just fed, the
      indicators with the trigger bar, the memory of trigger bars still without it. */
  predicate SceneIs(cfg: Config, fed: seq<Candle>, bars: seq<Candle>, bar: Candle, e: Engine)
    requires ValidConfig(cfg)
  {
    && AllViews(cfg, fed, e.views) && Completed(cfg.frames.trigger, fed) == bars + [bar]
    && DayIs(cfg, fed, e.day) && GaugesAre(cfg, bars + [bar], e.gauges)
    && MemoryIs(cfg, bars, Completed(cfg.frames.htf, fed), e.memory)
  }

  lemma {:induction false} AbsorbedRest(cfg: Config, fed: seq<Candle>, e: Engine, c: Candle)
    requires ValidConfig(cfg) && AllViews(cfg, fed, e.views) && RestIs(cfg, fed, e)
    ensures var e1 := Absorbed(cfg, e, c);
            && DayIs(cfg, fed + [c], e1.day) && e1.gauges == e.gauges
            && MemoryIs(cfg, Completed(cfg.frames.trigger, fed), Completed(cfg.frames.htf, fed + [c]), e1.memory)
  {
    TodayIs(cfg, fed, e.day, c);
    SeeIs(cfg, cfg.frames.htf, fed, e.views.htf, c);
    var hours := Completed(cfg.frames.htf, fed);
    assert hours + [] == hours;
  }

  lemma {:induction false} FacingIs(cfg: Config, fed: seq<Candle>, e: Engine, c: Candle)
    requires ValidConfig(cfg) && AllViews(cfg, fed, e.views) && RestIs(cfg, fed, e)
    ensures var e1 := Absorbed(cfg, e, c);
            var s := See(cfg, cfg.frames.trigger, e1.views.trigger, c);
            var bars, after := Completed(cfg.frames.trigger, fed), Completed(cfg.frames.trigger, fed + [c]);
            && after == bars + (if s.done.Some? then [s.done.value] else [])
            && (s.done.Some? ==> SceneIs(cfg, fed + [c], bars, s.done.value, Facing(cfg, e1, s))
                                 && Breaks(cfg, cfg.frames.trigger, fed + [c]).events
                                 == Breaks(cfg, cfg.frames.trigger, fed).events + [s.event])
  {
    AbsorbedRest(cfg, fed, e, c);
    ViewsStep(cfg, fed, e.views, c);
    SeeIs(cfg, cfg.frames.trigger, fed, e.views.trigger, c);
    var s := See(cfg, cfg.frames.trigger, e.views.trigger, c);
    if s.done.Some? {
      GaugesStep(cfg, Completed(cfg.frames.trigger, fed), e.gauges, s.done.value);
    }
  }

  lemma {:induction false} OnCandleRest(cfg: Config, fed: seq<Candle>, e: Engine, c: Candle)
    requires ValidConfig(cfg) && AllViews(cfg, fed, e.views) && RestIs(cfg, fed, e) && Accepted(e, c)
    ensures RestIs(cfg, fed + [c], OnCandle(cfg, e, c).0)
  {
    AbsorbedRest(cfg, fed, e, c);
    SeeIs(cfg, cfg.frames.trigger, fed, e.views.trigger, c);
    TriggeredRest(cfg, Absorbed(cfg, e, c), c);
    var s := See(cfg, cfg.frames.trigger, e.views.trigger, c);
    RestAfter(cfg, fed + [c], Completed(cfg.frames.trigger, fed), Absorbed(cfg, e, c), s.done, OnCandle(cfg, e, c).0);
  }

  lemma {:induction false} RestAfter(cfg: Config, fed: seq<Candle>, bars: seq<Candle>, e1: Engine,
                                     done: Option<Candle>, e': Engine)
    requires ValidConfig(cfg) && DayIs(cfg, fed, e1.day) && GaugesAre(cfg, bars, e1.gauges)
    requires MemoryIs(cfg, bars, Completed(cfg.frames.htf, fed), e1.memory)
    requires Completed(cfg.frames.trigger, fed) == bars + if done.Some? then [done.value] else []
    requires e'.day == e1.day.(traded := e'.day.traded)
    requires e'.gauges == (if done.None? then e1.gauges else Measured(cfg, e1.gauges, done.value))
    requires e'.memory == if done.None? then e1.memory
                          else e1.memory.(bars := Remember(e1.memory.bars, done.value))
    ensures RestIs(cfg, fed, e')
  {
    if done.Some? {
      GaugesStep(cfg, bars, e1.gauges, done.value);
      RememberIs(cfg, bars, Completed(cfg.frames.htf, fed), e1.memory, done.value);
    } else {
      assert bars + [] == bars;
    }
  }

  /** What a trigger bar's decision leaves of the engine, entries aside. */
  lemma {:induction false} TriggeredRest(cfg: Config, e: Engine, c: Candle)
    requires ValidConfig(cfg)
    ensures var e' := Triggered(cfg, e, c);
            var s := See(cfg, cfg.frames.trigger, e.views.trigger, c);
            && e'.day == e.day.(traded := e'.day.traded)
            && e'.gauges == (if s.done.None? then e.gauges else Measured(cfg, e.gauges, s.done.value))
            && e'.memory == if s.done.None? then e.memory
                            else e.memory.(bars := Remember(e.memory.bars, s.done.value))
  {
    var s := See(cfg, cfg.frames.trigger, e.views.trigger, c);
    if s.done.Some? {
      DecideFrame(cfg, Facing(cfg, e, s), s.done.value, s.event);
    }
  }

  lemma {:induction false} RememberIs(cfg: Config, bars: seq<Candle>, hours: seq<Candle>, m: Memory, bar: Candle)
    requires MemoryIs(cfg, bars, hours, m)
    ensures MemoryIs(cfg, bars + [bar], hours, m.(bars := Remember(m.bars, bar)))
  {
  }

  /** In every run today's profile, the prior levels, the indicators and the memory are those of the bars
      fed so far. */
  lemma {:induction false} RestIsHistory(cfg: Config, inputs: seq<Input>)
    requires ValidConfig(cfg)
    ensures RestIs(cfg, Fed(cfg, inputs), Run(cfg, inputs))
    decreases |inputs|
  {
    if inputs != [] {
      var most, input := inputs[..|inputs| - 1], inputs[|inputs| - 1];
      RestIsHistory(cfg, most);
      ViewsAreHistory(cfg, most);
      var fed := Fed(cfg, most);
      assert fed + [] == fed;
      if input.Bar? && Accepted(Run(cfg, most), input.c) {
        OnCandleRest(cfg, fed, Run(cfg, most), input.c);
      }
    }
  }

  // ------------------------------------------------------------------ the five checks

  /** The bar goes beyond a level against the trade and closes on the right side of it again. */
  predicate Reclaims(dir: Direction, bar: Candle, px: real) {
    if dir == Long then bar.low < px < bar.close else bar.close < px < bar.high
  }

  /** This is the level of the latest swing against the trade. */
  ghost predicate SwingLevel(cfg: Config, bars: seq<Candle>, dir: Direction, px: real) {
    exists i: nat ::
      && Structure.LatestSwing(Opposite(dir), cfg.swings.lookback, bars, i) && i < |bars|
      && px == if dir == Long then bars[i].low else bars[i].high
  }

  ghost predicate SweepsSwing(cfg: Config, bars: seq<Candle>, dir: Direction) {
    exists px :: SwingLevel(cfg, bars, dir, px) && Reclaims(dir, bars[|bars| - 1], px)
  }

  /** The last bar has swept this level: that of the latest swing or, failing that, the end of the last
      four-hour bar. */
  ghost predicate Swept(cfg: Config, bars: seq<Candle>, hours: seq<Candle>, dir: Direction, px: real)
    requires bars != []
  {
    && Reclaims(dir, bars[|bars| - 1], px)
    && (SwingLevel(cfg, bars, dir, px)
        || (!SweepsSwing(cfg, bars, dir) && hours != []
            && px == if dir == Long then hours[|hours| - 1].low else hours[|hours| - 1].high))
  }

  ghost predicate SweepsSome(cfg: Config, bars: seq<Candle>, hours: seq<Candle>, dir: Direction)
    requires bars != []
  {
    exists px :: Swept(cfg, bars, hours, dir, px)
  }

  /** A wide bar that is mostly body, unless its volume is low: some, and below the wanted multiple of
      the average over a full period of bars with any. */
  predicate Thrusts(cfg: Config, bars: seq<Candle>)
    requires ValidConfig(cfg) && bars != []
  {
    var bar, n := bars[|bars| - 1], cfg.gates.volPeriod;
    var atr := G.AtrOver(cfg.blocks.atrPeriod, bars).value;
    var recent := LastVolumes(n, Traded(bars));
    && bar.low < bar.high
    && (bar.close - bar.open >= Times(cfg.blocks.bodyFrac, bar.high - bar.low)
        || bar.open - bar.close >= Times(cfg.blocks.bodyFrac, bar.high - bar.low))
    && atr.Some? && bar.high - bar.low >= Times(cfg.blocks.atrMult, atr.value)
    && !(bar.volume > 0.0 && |recent| == n && bar.volume < Times(cfg.gates.volMult, Indicators.Sum(recent) / n as real))
  }

  function Times(a: real, b: real): real {
    a * b
  }

  /** The volumes of the last `n` bars, or of all of them. */
  function LastVolumes(n: nat, bars: seq<Candle>): (r: seq<real>)
    ensures |r| == if |bars| > n then n else |bars|
  {
    seq(if |bars| > n then n else |bars|,
        i requires 0 <= i < (if |bars| > n then n else |bars|)
        => bars[|bars| - (if |bars| > n then n else |bars|) + i].volume)
  }

  /** A close back through the open of a bar that went the other way, itself not above (or below) its
      predecessor's close. */
  predicate Turns(bars: seq<Candle>, dir: Direction) {
    && |bars| >= 3
    && var n := |bars|;
       var now, before, first := bars[n - 1].close, bars[n - 2], bars[n - 3];
       if dir == Long then before.close < before.open < now && first.close <= before.open
       else now < before.open < before.close && before.open <= first.close
  }

  /** The latest break of structure goes this way. */
  predicate Agrees(cfg: Config, bars: seq<Candle>, dir: Direction) {
    Structure.LastDirection(Structure.Run(cfg.swings, bars).events) == Some(dir)
  }

  /** Not beyond the middle of today's value area, once there is one. */
  predicate Cheap(cfg: Config, today: seq<Candle>, px: real, dir: Direction)
    requires ValidConfig(cfg)
  {
    var lv := Profile.LevelsOf(cfg.profile, Profile.Run(cfg.profile, today));
    lv.None? || if dir == Long then 2.0 * px <= lv.value.vah + lv.value.val
                else 2.0 * px >= lv.value.vah + lv.value.val
  }

  /** How many of the five hold. */
  ghost function Checks(cfg: Config, bars: seq<Candle>, hours: seq<Candle>, today: seq<Candle>, dir: Direction): nat
    requires ValidConfig(cfg) && bars != []
  {
    (if SweepsSome(cfg, bars, hours, dir) then 1 else 0) + (if Thrusts(cfg, bars) then 1 else 0)
    + (if Turns(bars, dir) then 1 else 0) + (if Agrees(cfg, bars, dir) then 1 else 0)
    + (if Cheap(cfg, today, bars[|bars| - 1].close, dir) then 1 else 0)
  }

  // ------------------------------------------------------------------ they are the engine's

  lemma {:induction false} SwingIs(cfg: Config, bars: seq<Candle>, dir: Direction)
    requires ValidConfig(cfg)
    ensures var s := Structure.LastSwing(Structure.SideOf(Structure.Run(cfg.swings, bars).tracker, Opposite(dir)));
            && (s.Some? ==> SwingLevel(cfg, bars, dir, s.value.price))
            && forall px :: SwingLevel(cfg, bars, dir, px) ==> s.Some? && s.value.price == px
  {
    var back, k := Opposite(dir), cfg.swings.lookback;
    var all := Structure.SwingBars(back, k, bars);
    if all == [] {
      forall i: nat ensures !Structure.IsSwing(back, k, bars, i) {
        Structure.SwingBarsExact(back, k, bars, i);
      }
      Structure.NoSwingNoReference(cfg.swings, back, bars);
    } else {
      var i := all[|all| - 1];
      LastIsLatest(back, k, bars);
      Structure.ReferenceExact(cfg.swings, back, bars, i);
      forall px | SwingLevel(cfg, bars, dir, px)
        ensures px == Structure.SwingOf(back, bars[i]).price
      {
        var j: nat :| Structure.LatestSwing(back, k, bars, j) && j < |bars|
                      && px == if dir == Long then bars[j].low else bars[j].high;
        Structure.LatestIsLast(back, k, bars, j);
      }
    }
  }

  lemma {:induction false} LastIsLatest(dir: Direction, k: nat, bars: seq<Candle>)
    requires Structure.SwingBars(dir, k, bars) != []
    ensures var all := Structure.SwingBars(dir, k, bars); Structure.LatestSwing(dir, k, bars, all[|all| - 1])
  {
    var all := Structure.SwingBars(dir, k, bars);
    var i := all[|all| - 1];
    Structure.SwingBarsAscend(dir, k, bars);
    Structure.SwingBarsExact(dir, k, bars, i);
    forall j: nat | j > i ensures !Structure.IsSwing(dir, k, bars, j) {
      Structure.SwingBarsExact(dir, k, bars, j);
    }
  }

  /** This level, and no other, has been swept, if any has. */
  ghost predicate OnlySwept(cfg: Config, bars: seq<Candle>, hours: seq<Candle>, dir: Direction, r: Option<real>)
    requires bars != []
  {
    && (r.Some? ==> Swept(cfg, bars, hours, dir, r.value))
    && forall px :: Swept(cfg, bars, hours, dir, px) ==> r == Some(px)
  }

  lemma {:induction false} SweepIs(cfg: Config, hours: seq<Candle>, all: seq<Candle>, bar: Candle, e: Engine,
                                   dir: Direction)
    requires ValidConfig(cfg) && all != [] && all[|all| - 1] == bar
    requires e.views.trigger.trend == Structure.Run(cfg.swings, all).tracker
    requires e.memory.range == if hours == [] then None else Some((hours[|hours| - 1].high, hours[|hours| - 1].low))
    ensures OnlySwept(cfg, all, hours, dir, Sweep(e, bar, dir))
  {
    var t := Structure.Run(cfg.swings, all).tracker;
    SwingIs(cfg, all, dir);
    SweptIs(cfg, all, hours, dir, SwingPrice(t, dir));
    FirstSweptIs(hours, bar, e, dir);
  }

  /** The level of the latest swing against the trade. */
  function SwingPrice(t: Structure.Tracker, dir: Direction): Option<real> {
    var s := Structure.LastSwing(Structure.SideOf(t, Opposite(dir)));
    if s.Some? then Some(s.value.price) else None
  }

  lemma FirstSweptIs(hours: seq<Candle>, bar: Candle, e: Engine, dir: Direction)
    requires e.memory.range == if hours == [] then None else Some((hours[|hours| - 1].high, hours[|hours| - 1].low))
    ensures Sweep(e, bar, dir) == FirstSwept(hours, bar, dir, SwingPrice(e.views.trigger.trend, dir))
  {
  }

  /** The level swept, given that of the latest swing. */
  function FirstSwept(hours: seq<Candle>, bar: Candle, dir: Direction, swing: Option<real>): Option<real> {
    if swing.Some? && Reclaims(dir, bar, swing.value) then swing
    else if hours == [] then None
    else
      var end := if dir == Long then hours[|hours| - 1].low else hours[|hours| - 1].high;
      if Reclaims(dir, bar, end) then Some(end) else None
  }

  lemma {:induction false} SweptIs(cfg: Config, bars: seq<Candle>, hours: seq<Candle>, dir: Direction,
                                   swing: Option<real>)
    requires bars != [] && (swing.Some? ==> SwingLevel(cfg, bars, dir, swing.value))
    requires forall px :: SwingLevel(cfg, bars, dir, px) ==> swing == Some(px)
    ensures OnlySwept(cfg, bars, hours, dir, FirstSwept(hours, bars[|bars| - 1], dir, swing))
  {
    assert SweepsSwing(cfg, bars, dir) <==> swing.Some? && Reclaims(dir, bars[|bars| - 1], swing.value);
  }

  lemma {:induction false} VolumesAre(n: int, bars: seq<Candle>)
    requires n >= 1
    ensures var s := G.SmaOver(n, bars);
            s.vols == LastVolumes(n, bars) && s.sum == Indicators.Sum(LastVolumes(n, bars))
  {
    G.SmaIsVolumes(n, bars);
  }

  lemma BodyIs(body: real, range: real, frac: real)
    requires range > 0.0
    ensures body / range >= frac <==> body >= Times(frac, range)
  {
    var q := body / range;
    assert body == q * range;
    assert (q - frac) * range == q * range - frac * range;
    if q < frac {
      assert (frac - q) * range > 0.0;
    }
  }

  lemma {:induction false} ThrustIs(cfg: Config, all: seq<Candle>, g: Gauges, bar: Candle)
    requires ValidConfig(cfg) && all != [] && all[|all| - 1] == bar && GaugesAre(cfg, all, g)
    ensures Displaced(cfg, g, bar) <==> Thrusts(cfg, all)
  {
    var n := cfg.gates.volPeriod;
    VolumesAre(n, Traded(all));
    if bar.low < bar.high {
      BodyIs(Abs(bar.close - bar.open), bar.high - bar.low, cfg.blocks.bodyFrac);
    }
    LowIs(cfg, g, bar, LastVolumes(n, Traded(all)));
  }

  lemma LowIs(cfg: Config, g: Gauges, bar: Candle, recent: seq<real>)
    requires cfg.gates.volPeriod >= 1 && g.volume.vols == recent && g.volume.sum == Indicators.Sum(recent)
    ensures var n := cfg.gates.volPeriod;
            LowVolume(cfg, g, bar) <==>
            && bar.volume > 0.0 && |recent| == n
            && bar.volume < Times(cfg.gates.volMult, Indicators.Sum(recent) / n as real)
  {
  }

  lemma {:induction false} TurnIs(cfg: Config, hours: seq<Candle>, bars: seq<Candle>, bar: Candle, m: Memory,
                                  dir: Direction)
    requires MemoryIs(cfg, bars, hours, m)
    ensures Cisd(m, bar, dir) <==> Turns(bars + [bar], dir)
  {
  }

  /** A change of character on this very bar makes its direction the trend, so that the second half of
      the alignment check decides nothing. */
  lemma {:induction false} AgreeIs(cfg: Config, all: seq<Candle>, v: Views, before: seq<Option<Structure.Event>>,
                                   event: Option<Structure.Event>, dir: Direction)
    requires v.trigger.trend == Structure.Run(cfg.swings, all).tracker
    requires Structure.Run(cfg.swings, all).events == before + [event]
    ensures Aligned(v, event, dir) <==> Agrees(cfg, all, dir)
  {
    Structure.RunMatches(cfg.swings, all);
  }

  /** The profile has a point of control just when it has levels. */
  lemma {:induction false} DayLevels(cfg: Config, fed: seq<Candle>, day: Day)
    requires ValidConfig(cfg) && DayIs(cfg, fed, day)
    ensures var lv := Profile.LevelsOf(cfg.profile, day.profile);
            Profile.PocPrice(cfg.profile, day.profile) == if lv.Some? then Some(lv.value.poc) else None
  {
    Profile.VolumeConserved(cfg.profile, TodayOf(fed));
    Profile.LevelsExact(cfg.profile, day.profile);
  }

  lemma {:induction false} CheapIs(cfg: Config, fed: seq<Candle>, day: Day, bar: Candle, dir: Direction)
    requires ValidConfig(cfg) && DayIs(cfg, fed, day)
    ensures GoodSide(cfg, day, bar, dir) <==> Cheap(cfg, TodayOf(fed), bar.close, dir)
  {
    DayLevels(cfg, fed, day);
  }

  lemma {:induction false} ChecksAre(cfg: Config, fed: seq<Candle>, bars: seq<Candle>, bar: Candle, e: Engine,
                                     event: Option<Structure.Event>, dir: Direction)
    requires ValidConfig(cfg) && SceneIs(cfg, fed, bars, bar, e)
    requires Structure.Run(cfg.swings, bars + [bar]).events == Structure.Run(cfg.swings, bars).events + [event]
    ensures Votes(cfg, e, bar, event, dir)
         == Checks(cfg, bars + [bar], Completed(cfg.frames.htf, fed), TodayOf(fed), dir)
  {
    var all, hours := bars + [bar], Completed(cfg.frames.htf, fed);
    assert all[|bars|] == bar;
    SweepIs(cfg, hours, all, bar, e, dir);
    ThrustIs(cfg, all, e.gauges, bar);
    TurnIs(cfg, hours, bars, bar, e.memory, dir);
    AgreeIs(cfg, all, e.views, Structure.Run(cfg.swings, bars).events, event, dir);
    CheapIs(cfg, fed, e.day, bar, dir);
    SweepSome(cfg, all, hours, dir, Sweep(e, bar, dir));
    SameCount(cfg, e, event, all, hours, TodayOf(fed), dir);
  }

  lemma SweepSome(cfg: Config, all: seq<Candle>, hours: seq<Candle>, dir: Direction, r: Option<real>)
    requires all != [] && OnlySwept(cfg, all, hours, dir, r)
    ensures r.Some? <==> SweepsSome(cfg, all, hours, dir)
  {
  }

  lemma {:induction false} SameCount(cfg: Config, e: Engine, event: Option<Structure.Event>, all: seq<Candle>,
                                     hours: seq<Candle>, today: seq<Candle>, dir: Direction)
    requires ValidConfig(cfg) && all != []
    requires var bar := all[|all| - 1];
             && (Sweep(e, bar, dir).Some? <==> SweepsSome(cfg, all, hours, dir))
             && (Displaced(cfg, e.gauges, bar) <==> Thrusts(cfg, all))
             && (Cisd(e.memory, bar, dir) <==> Turns(all, dir))
             && (Aligned(e.views, event, dir) <==> Agrees(cfg, all, dir))
             && (GoodSide(cfg, e.day, bar, dir) <==> Cheap(cfg, today, bar.close, dir))
    ensures Votes(cfg, e, all[|all| - 1], event, dir) == Checks(cfg, all, hours, today, dir)
  {
  }

  // ------------------------------------------------------------------ entries

  predicate Within(a: real, b: real, far: real) {
    -far <= a - b <= far
  }

  /** Within the tolerance of today's point of control, or of the prior one. */
  predicate AtControl(cfg: Config, today: seq<Candle>, prior: Option<Profile.Levels>, px: real)
    requires ValidConfig(cfg)
  {
    var lv := Profile.LevelsOf(cfg.profile, Profile.Run(cfg.profile, today));
    || (lv.Some? && Within(px, lv.value.poc, cfg.gates.pocTol))
    || (prior.Some? && Within(px, prior.value.poc, cfg.gates.pocTol))
  }

  /** What the daily blocks answer or, failing that, the four-hour ones. */
  function BlockAt(z: Zones, bar: Candle, dir: Direction): Option<OrderBlocks.Block> {
    var ob := OrderBlocks.PoiAt(z.d1, bar.low, bar.high, dir).1;
    if ob.Some? then ob else OrderBlocks.PoiAt(z.htf, bar.low, bar.high, dir).1
  }

  /** The nearest stop that leaves the buffer to the bar, to the block and to any level swept. */
  ghost predicate IsStop(cfg: Config, bars: seq<Candle>, hours: seq<Candle>, dir: Direction,
                         ob: Option<OrderBlocks.Block>, stop: real)
    requires bars != []
  {
    var bar := bars[|bars| - 1];
    if dir == Long then
      var x := stop + cfg.risk.buffer;
      && x <= bar.low && (ob.Some? ==> x <= ob.value.bottom)
      && (forall px :: Swept(cfg, bars, hours, dir, px) ==> x <= px)
      && (x == bar.low || (ob.Some? && x == ob.value.bottom) || Swept(cfg, bars, hours, dir, x))
    else
      var x := stop - cfg.risk.buffer;
      && x >= bar.high && (ob.Some? ==> x >= ob.value.top)
      && (forall px :: Swept(cfg, bars, hours, dir, px) ==> x >= px)
      && (x == bar.high || (ob.Some? && x == ob.value.top) || Swept(cfg, bars, hours, dir, x))
  }

  lemma {:induction false} StopIs(cfg: Config, all: seq<Candle>, hours: seq<Candle>, bar: Candle, dir: Direction,
                                  poi: Poi, swept: Option<real>, stop: real)
    requires all != [] && all[|all| - 1] == bar && OnlySwept(cfg, all, hours, dir, swept)
    ensures var ob := if poi.DayBlock? || poi.HtfBlock? then Some(poi.ob) else None;
            IsStop(cfg, all, hours, dir, ob, stop) <==> stop == StopFor(cfg, bar, dir, poi, swept)
  {
  }

  lemma {:induction false} PoiIs(cfg: Config, fed: seq<Candle>, bar: Candle, e: Engine, dir: Direction)
    requires ValidConfig(cfg) && DayIs(cfg, fed, e.day)
    ensures var poi, near := Resolve(cfg, e, bar, dir).1, AtControl(cfg, TodayOf(fed), PriorOf(cfg, fed), bar.close);
            && (poi.AtPoc? || poi.AtPriorPoc? <==> near)
            && (poi.Nowhere? <==> !near && BlockAt(e.zones, bar, dir).None?)
            && (poi.DayBlock? || poi.HtfBlock? ==> BlockAt(e.zones, bar, dir) == Some(poi.ob))
  {
    NearIs(cfg, fed, e.day, bar);
    BlockIs(cfg, e, bar, dir);
  }

  lemma {:induction false} NearIs(cfg: Config, fed: seq<Candle>, day: Day, bar: Candle)
    requires ValidConfig(cfg) && DayIs(cfg, fed, day)
    ensures NearPoc(cfg, day, bar) || NearPriorPoc(cfg, day, bar)
            <==> AtControl(cfg, TodayOf(fed), PriorOf(cfg, fed), bar.close)
  {
    DayLevels(cfg, fed, day);
  }

  lemma BlockIs(cfg: Config, e: Engine, bar: Candle, dir: Direction)
    ensures var poi, near := Resolve(cfg, e, bar, dir).1, NearPoc(cfg, e.day, bar) || NearPriorPoc(cfg, e.day, bar);
            && (poi.AtPoc? || poi.AtPriorPoc? <==> near)
            && (poi.Nowhere? <==> !near && BlockAt(e.zones, bar, dir).None?)
            && (poi.DayBlock? || poi.HtfBlock? ==> BlockAt(e.zones, bar, dir) == Some(poi.ob))
  {
  }

  /** What the last completed trigger bar has to show for an entry that way with that stop: the trend, enough
      checks, a point of interest, the stop in its place and near enough. */
  ghost predicate Shows(cfg: Config, fed: seq<Candle>, z: Zones, dir: Direction, stop: real)
    requires ValidConfig(cfg) && Completed(cfg.frames.trigger, fed) != []
  {
    var bars, hours := Completed(cfg.frames.trigger, fed), Completed(cfg.frames.htf, fed);
    var bar := bars[|bars| - 1];
    var near := AtControl(cfg, TodayOf(fed), PriorOf(cfg, fed), bar.close);
    var ob := if near then None else BlockAt(z, bar, dir);
    && Trending(cfg, fed, dir) && Checks(cfg, bars, hours, TodayOf(fed), dir) + 1 >= cfg.gates.needed
    && (near || ob.Some?) && IsStop(cfg, bars, hours, dir, ob, stop) && Within(bar.close, stop, cfg.risk.maxDist)
  }

  /** A flat engine with entries to spare on this date, a bar that completes a trigger bar, and that one shows
      what it takes. */
  ghost predicate Opens(cfg: Config, e: Engine, before: seq<Candle>, c: Candle, dir: Direction, stop: real)
    requires ValidConfig(cfg)
  {
    && e.pos.None? && Accepted(e, c) && CountOf(e.trace.entryDates, DateOf(c.ts)) < cfg.risk.maxTrades
    && |Completed(cfg.frames.trigger, before + [c])| > |Completed(cfg.frames.trigger, before)|
    && Shows(cfg, before + [c], Absorbed(cfg, e, c).zones, dir, stop)
  }

  /** The latest four-hour break goes this way and the latest daily one, if any, not the other. */
  predicate Trending(cfg: Config, fed: seq<Candle>, dir: Direction)
    requires ValidConfig(cfg)
  {
    && Structure.LastDirection(Breaks(cfg, cfg.frames.htf, fed).events) == Some(dir)
    && Structure.LastDirection(Breaks(cfg, cfg.frames.d1, fed).events) != Some(Opposite(dir))
  }

  lemma {:induction false} TrendIs(cfg: Config, fed: seq<Candle>, v: Views, dir: Direction)
    requires ValidConfig(cfg) && AllViews(cfg, fed, v)
    ensures Bias(v) == Some(dir) <==> Trending(cfg, fed, dir)
  {
    TrendOf(cfg, cfg.frames.htf, fed, v.htf);
    TrendOf(cfg, cfg.frames.d1, fed, v.d1);
    OtherWay(v.d1.trend.trend, dir);
  }

  lemma OtherWay(d: Option<Direction>, dir: Direction)
    ensures d.Some? && d != Some(dir) <==> d == Some(Opposite(dir))
  {
    if d.Some? {
      assert d.value == Long || d.value == Short;
    }
  }

  lemma {:induction false} TrendOf(cfg: Config, minutes: int, fed: seq<Candle>, v: View)
    requires minutes >= 1 && ViewOf(cfg, minutes, fed, v)
    ensures v.trend.trend == Structure.LastDirection(Breaks(cfg, minutes, fed).events)
  {
    Structure.RunMatches(cfg.swings, Completed(minutes, fed));
  }

  /** What the engine finds on a trigger bar, in prices. */
  lemma {:induction false} SceneEnters(cfg: Config, fed: seq<Candle>, bars: seq<Candle>, bar: Candle, e: Engine,
                                       event: Option<Structure.Event>, dir: Direction, stop: real)
    requires ValidConfig(cfg) && SceneIs(cfg, fed, bars, bar, e) && Valid(bar)
    requires Structure.Run(cfg.swings, bars + [bar]).events == Structure.Run(cfg.swings, bars).events + [event]
    ensures Enters(cfg, e, bar, event) && Bias(e.views).value == dir && StopOf(cfg, e, bar) == stop
            <==> e.pos.None? && e.day.traded < cfg.risk.maxTrades && Shows(cfg, fed, e.zones, dir, stop)
  {
    TrendIs(cfg, fed, e.views, dir);
    if Bias(e.views) == Some(dir) {
      ChecksAre(cfg, fed, bars, bar, e, event, dir);
      PlaceIs(cfg, fed, bars, bar, e, dir, stop);
      EntersWhen(cfg, e, bar, event, dir);
    }
  }

  lemma EntersWhen(cfg: Config, e: Engine, bar: Candle, event: Option<Structure.Event>, dir: Direction)
    requires ValidConfig(cfg) && Bias(e.views) == Some(dir)
    ensures var poi := Resolve(cfg, e, bar, dir).1;
            var stop := StopFor(cfg, bar, dir, poi, Sweep(e, bar, dir));
            && StopOf(cfg, e, bar) == stop
            && (Enters(cfg, e, bar, event) <==>
                  && e.pos.None? && e.day.traded < cfg.risk.maxTrades
                  && Votes(cfg, e, bar, event, dir) + 1 >= cfg.gates.needed
                  && !poi.Nowhere? && Affordable(cfg, bar, stop))
  {
  }

  /** The point of interest found and where the stop would go. */
  lemma {:induction false} PlaceIs(cfg: Config, fed: seq<Candle>, bars: seq<Candle>, bar: Candle, e: Engine,
                                   dir: Direction, stop: real)
    requires ValidConfig(cfg) && SceneIs(cfg, fed, bars, bar, e) && Valid(bar)
    ensures var poi := Resolve(cfg, e, bar, dir).1;
            Shows(cfg, fed, e.zones, dir, stop) <==>
            && Trending(cfg, fed, dir)
            && Checks(cfg, bars + [bar], Completed(cfg.frames.htf, fed), TodayOf(fed), dir) + 1 >= cfg.gates.needed
            && !poi.Nowhere? && stop == StopFor(cfg, bar, dir, poi, Sweep(e, bar, dir)) && Affordable(cfg, bar, stop)
  {
    var poi, all, hours := Resolve(cfg, e, bar, dir).1, bars + [bar], Completed(cfg.frames.htf, fed);
    PoiIs(cfg, fed, bar, e, dir);
    assert all[|bars|] == bar;
    SweepIs(cfg, hours, all, bar, e, dir);
    StopIs(cfg, all, hours, bar, dir, poi, Sweep(e, bar, dir), stop);
    StopBeyond(cfg, bar, dir, poi, Sweep(e, bar, dir));
    ShownAt(cfg, fed, bars, bar, e.zones, dir, stop, poi, StopFor(cfg, bar, dir, poi, Sweep(e, bar, dir)));
  }

  /** Given what the point of interest is and where its stop goes. */
  lemma {:induction false} ShownAt(cfg: Config, fed: seq<Candle>, bars: seq<Candle>, bar: Candle, z: Zones,
                                   dir: Direction, stop: real, poi: Poi, px: real)
    requires ValidConfig(cfg) && Completed(cfg.frames.trigger, fed) == bars + [bar] && Abs(bar.close - px) > 0.0
    requires var near := AtControl(cfg, TodayOf(fed), PriorOf(cfg, fed), bar.close);
             && (poi.AtPoc? || poi.AtPriorPoc? <==> near)
             && (poi.Nowhere? <==> !near && BlockAt(z, bar, dir).None?)
             && (poi.DayBlock? || poi.HtfBlock? ==> BlockAt(z, bar, dir) == Some(poi.ob))
    requires var ob := if poi.DayBlock? || poi.HtfBlock? then Some(poi.ob) else None;
             IsStop(cfg, bars + [bar], Completed(cfg.frames.htf, fed), dir, ob, stop) <==> stop == px
    ensures Shows(cfg, fed, z, dir, stop) <==>
            && Trending(cfg, fed, dir)
            && Checks(cfg, bars + [bar], Completed(cfg.frames.htf, fed), TodayOf(fed), dir) + 1 >= cfg.gates.needed
            && !poi.Nowhere? && stop == px && Affordable(cfg, bar, stop)
  {
    assert (bars + [bar])[|bars|] == bar;
  }

  predicate HasPosition(e: Engine, dir: Direction, stop: real) {
    e.pos.Some? && e.pos.value.dir == dir && e.pos.value.stop == stop
  }

  lemma {:induction false} EntersIs(cfg: Config, e: Engine, c: Candle, dir: Direction, stop: real)
    requires ValidConfig(cfg)
    ensures var e1 := Absorbed(cfg, e, c);
            var s := See(cfg, cfg.frames.trigger, e1.views.trigger, c);
            && (Accepted(e, c) && Taken(cfg, e, c, dir, stop) <==>
                  EntersOn(cfg, e, c) && HasPosition(OnCandle(cfg, e, c).0, dir, stop))
            && (EntersOn(cfg, e, c) ==>
                  s.done.Some? && OnCandle(cfg, e, c).0.pos.value.entryPrice == s.done.value.close)
  {
    var e1 := Absorbed(cfg, e, c);
    var s := See(cfg, cfg.frames.trigger, e1.views.trigger, c);
    if s.done.Some? {
      DecideIs(cfg, Facing(cfg, e1, s), s.done.value, s.event);
    }
  }

  /** Over every run: a bar opens a position, at the close of the trigger bar it completes, this way and with
      this stop exactly when the prices of the bars fed say so. */
  lemma {:induction false} EntryInPrices(cfg: Config, inputs: seq<Input>, c: Candle, dir: Direction, stop: real)
    requires ValidConfig(cfg)
    ensures var e, e', fed := Run(cfg, inputs), OnCandle(cfg, Run(cfg, inputs), c).0, Fed(cfg, inputs);
            && (Opens(cfg, e, fed, c, dir, stop) <==> e.pos.None? && HasPosition(e', dir, stop))
            && (e.pos.None? && e'.pos.Some? ==>
                  var bars := Completed(cfg.frames.trigger, fed + [c]);
                  bars != [] && e'.pos.value.entryPrice == bars[|bars| - 1].close)
  {
    ViewsAreHistory(cfg, inputs);
    RestIsHistory(cfg, inputs);
    RunInv(cfg, inputs);
    EntryFrom(cfg, Run(cfg, inputs), Fed(cfg, inputs), c, dir, stop);
  }

  lemma {:induction false} EntryFrom(cfg: Config, e: Engine, fed: seq<Candle>, c: Candle, dir: Direction, stop: real)
    requires ValidConfig(cfg) && Inv(cfg, e) && AllViews(cfg, fed, e.views) && RestIs(cfg, fed, e)
    ensures var e' := OnCandle(cfg, e, c).0;
            && (Opens(cfg, e, fed, c, dir, stop) <==> e.pos.None? && HasPosition(e', dir, stop))
            && (e.pos.None? && e'.pos.Some? ==>
                  var bars := Completed(cfg.frames.trigger, fed + [c]);
                  bars != [] && e'.pos.value.entryPrice == bars[|bars| - 1].close)
  {
    EntersIs(cfg, e, c, dir, stop);
    if Accepted(e, c) {
      OpensIs(cfg, e, fed, c, dir, stop);
    }
  }

  /** The entry a bar leads to, by the engine's own tests. */
  predicate Taken(cfg: Config, e: Engine, c: Candle, dir: Direction, stop: real)
    requires ValidConfig(cfg)
  {
    var e1 := Absorbed(cfg, e, c);
    var s := See(cfg, cfg.frames.trigger, e1.views.trigger, c);
    && e.pos.None? && s.done.Some?
    && var e2 := Facing(cfg, e1, s);
       Enters(cfg, e2, s.done.value, s.event) && Bias(e2.views).value == dir && StopOf(cfg, e2, s.done.value) == stop
  }

  lemma {:induction false} OpensIs(cfg: Config, e: Engine, fed: seq<Candle>, c: Candle, dir: Direction, stop: real)
    requires ValidConfig(cfg) && Inv(cfg, e) && AllViews(cfg, fed, e.views) && RestIs(cfg, fed, e) && Accepted(e, c)
    ensures Opens(cfg, e, fed, c, dir, stop) <==> Taken(cfg, e, c, dir, stop)
    ensures var s := See(cfg, cfg.frames.trigger, Absorbed(cfg, e, c).views.trigger, c);
            var bars := Completed(cfg.frames.trigger, fed + [c]);
            s.done.Some? ==> bars != [] && bars[|bars| - 1] == s.done.value
  {
    FacingIs(cfg, fed, e, c);
    AbsorbedKeeps(cfg, e, c);
    var e1 := Absorbed(cfg, e, c);
    var s := See(cfg, cfg.frames.trigger, e1.views.trigger, c);
    SeeSound(cfg, cfg.frames.trigger, e1.views.trigger, c);
    if s.done.Some? {
      SceneEnters(cfg, fed + [c], Completed(cfg.frames.trigger, fed), s.done.value, Facing(cfg, e1, s), s.event, dir,
                  stop);
    }
  }
}
