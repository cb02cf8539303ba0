/** When the engine enters and leaves, and at what terms, over every run and in terms of the bars: those of
    the range, those the indicators have been fed, and the one at hand. */
module OrbSignals {
  import opened Prelude
  import opened Models
  import opened Session
  import opened Indicators
  import opened OrbEngine
  import opened OrbRuns
  import opened OrbSpacing
  import opened OrbRange
  import opened OrbGauges

  // ------------------------------------------------------------------ a bar like any other

  /** An accepted bar in the hours of the session the engine knows, with no gap to reset for. */
  predicate Ordinary(cfg: Config, e: Engine, c: Candle)
    requires ValidConfig(cfg)
  {
    var info := Classify(cfg.hours, c.ts);
    && Accepts(e.clock.last, c) && e.clock.session == Some(info.session)
    && (info.zone == InRangeWindow || info.zone == InSession) && !IsReset(cfg, e, c.ts)
  }

  lemma OrdinaryIs(cfg: Config, e: Engine, c: Candle)
    requires ValidConfig(cfg) && FullInv(cfg, e) && Ordinary(cfg, e, c)
    ensures Next(cfg, e, Bar(c)) == Dispatch(cfg, At(e, c.ts), c, Classify(cfg.hours, c.ts).zone).e
  {
  }

  /** Rounding to the nearest, halves to the even neighbour. */
  lemma RoundMeans(x: int, b: int)
    requires b >= 1
    ensures var k := RoundHalfEven(x, b);
            -b <= 2 * (x - k * b) <= b && (2 * (x - k * b) == b || 2 * (x - k * b) == -b ==> k % 2 == 0)
  {
    var q, r := x / b, x % b;
    assert x == q * b + r;
    assert (q + 1) * b == q * b + b;
  }

  /** n bar lengths have gone by since the last bar, to the nearest. */
  predicate Elapsed(cfg: Config, last: int, ts: int, n: int) {
    var off := 2 * (ts - last - Lengths(cfg, n));
    -cfg.barSec <= off <= cfg.barSec && (off == cfg.barSec || off == -cfg.barSec ==> n % 2 == 0)
  }

  function Lengths(cfg: Config, n: int): int {
    n * cfg.barSec
  }

  /** The engine starts anew when bars are missing: more than it puts up with, or any at all if it is to. */
  lemma {:induction false} ResetMeans(cfg: Config, e: Engine, ts: int, n: int)
    requires ValidConfig(cfg) && e.clock.last.Some? && Elapsed(cfg, e.clock.last.value, ts, n)
    ensures IsReset(cfg, e, ts) <==> n >= 2 && (n - 1 > cfg.maxGap || cfg.gapReset)
  {
    var x, b := ts - e.clock.last.value, cfg.barSec;
    var k := RoundHalfEven(x, b);
    RoundMeans(x, b);
    assert Lengths(cfg, k) == k * b;
    NearestOne(x, b, k, n);
  }

  lemma NearestOne(x: int, b: int, k: int, n: int)
    requires b >= 1 && -b <= 2 * (x - k * b) <= b && -b <= 2 * (x - n * b) <= b
    requires 2 * (x - k * b) == b || 2 * (x - k * b) == -b ==> k % 2 == 0
    requires 2 * (x - n * b) == b || 2 * (x - n * b) == -b ==> n % 2 == 0
    ensures k == n
  {
    var d := k - n;
    assert d * b == k * b - n * b;
    AtMostOne(d, b);
    assert d == 1 ==> 2 * (x - n * b) == b && 2 * (x - k * b) == -b;
    assert d == -1 ==> 2 * (x - n * b) == -b && 2 * (x - k * b) == b;
  }

  lemma AtMostOne(d: int, b: int)
    requires b >= 1 && -b <= d * b <= b
    ensures -1 <= d <= 1
  {
    assert d > 1 ==> (d - 1) * b >= b;
    assert d < -1 ==> (-d - 1) * b >= b;
  }

  // ------------------------------------------------------------------ leaving the range

  /** The close is above every bar of the range or, if not that, below every one. */
  predicate Outside(bars: seq<Candle>, close: real, dir: Direction) {
    var above := forall b <- bars :: close > b.high;
    && bars != []
    && if dir == Long then above else !above && forall b <- bars :: close < b.low
  }

  lemma BrokenIsOutside(bars: seq<Candle>, ends: (real, real), close: real)
    requires bars != [] && Spans(bars, ends.0, ends.1)
    ensures forall dir :: Outside(bars, close, dir) <==> Broken(ends, close) == Some(dir)
  {
    var top :| top in bars && top.high == ends.0;
    var bottom :| bottom in bars && bottom.low == ends.1;
    assert (forall b <- bars :: close > b.high) <==> close > ends.0;
    assert (forall b <- bars :: close < b.low) <==> close < ends.1;
  }

  // ------------------------------------------------------------------ the gates

  /** Enough bars for every indicator in use. */
  predicate Enough(cfg: Config, fed: seq<Candle>) {
    && |fed| >= cfg.atrPeriod
    && (cfg.useRoc ==> |fed| > cfg.rocPeriod)
    && (cfg.useRvol ==> |fed| >= cfg.rvolPeriod)
  }

  /** The close the rate of change is measured from. */
  function RocBase(cfg: Config, fed: seq<Candle>): real
    requires 1 <= cfg.rocPeriod < |fed|
  {
    fed[|fed| - 1 - cfg.rocPeriod].close
  }

  function VolumeSum(bars: seq<Candle>): real
    decreases |bars|
  {
    if bars == [] then 0.0 else bars[0].volume + VolumeSum(bars[1..])
  }

  /** The bar's volume against the average of the last so many; nothing against no volume at all. */
  function Relative(cfg: Config, fed: seq<Candle>, volume: real): real
    requires 1 <= cfg.rvolPeriod <= |fed|
  {
    var mean := VolumeSum(fed[|fed| - cfg.rvolPeriod..]) / cfg.rvolPeriod as real;
    if mean > 0.0 then volume / mean else 0.0
  }

  /** Percent change since then. */
  predicate RocWith(cfg: Config, fed: seq<Candle>, close: real, dir: Direction)
    requires 1 <= cfg.rocPeriod < |fed| && RocBase(cfg, fed) != 0.0
  {
    var roc := (close / RocBase(cfg, fed) - 1.0) * 100.0;
    if dir == Long then roc >= cfg.rocMin else roc <= -cfg.rocMin
  }

  /** What the momentum gate says of a bar whose indicators, itself included, have been fed `fed`. */
  function Gate(cfg: Config, fed: seq<Candle>, c: Candle, dir: Direction): Verdict
    requires ValidConfig(cfg) && Enough(cfg, fed)
  {
    if cfg.useRoc && RocBase(cfg, fed) == 0.0 then Fault
    else if (cfg.useRoc ==> RocWith(cfg, fed, c.close, dir))
            && (cfg.useRvol ==> Relative(cfg, fed, c.volume) >= cfg.rvolMin) then Pass
    else Fail
  }

  lemma {:induction false} SumIsVolumes(vols: seq<real>, bars: seq<Candle>)
    requires |vols| == |bars| && forall i :: 0 <= i < |vols| ==> vols[i] == bars[i].volume
    ensures Sum(vols) == VolumeSum(bars)
    decreases |vols|
  {
    if vols != [] {
      SumIsVolumes(vols[1..], bars[1..]);
    }
  }

  lemma WarmIsEnough(cfg: Config, fed: seq<Candle>)
    requires ValidConfig(cfg)
    ensures Warm(cfg, GaugesOver(cfg, fed)) <==> Enough(cfg, fed)
  {
    var xs := AtrIsWeighted(cfg.atrPeriod, fed);
    RocIsCloses(cfg.rocPeriod, fed);
    SmaIsVolumes(cfg.rvolPeriod, fed);
  }

  lemma RocIs(cfg: Config, fed: seq<Candle>, c: Candle)
    requires ValidConfig(cfg) && |fed| > cfg.rocPeriod && fed[|fed| - 1] == c
    ensures var closes := RocOver(cfg.rocPeriod, fed);
            && RocReady(cfg.rocPeriod, closes)
            && RocValue(cfg.rocPeriod, closes) ==
               if RocBase(cfg, fed) == 0.0 then None else Some((c.close / RocBase(cfg, fed) - 1.0) * 100.0)
  {
    RocIsCloses(cfg.rocPeriod, fed);
  }

  lemma RelativeIs(cfg: Config, fed: seq<Candle>, volume: real)
    requires ValidConfig(cfg) && cfg.useRvol && |fed| >= cfg.rvolPeriod
    ensures RelativeVolume(cfg, GaugesOver(cfg, fed), volume) == Relative(cfg, fed, volume)
  {
    SmaIsVolumes(cfg.rvolPeriod, fed);
    SumIsVolumes(SmaOver(cfg.rvolPeriod, fed).vols, fed[|fed| - cfg.rvolPeriod..]);
  }

  lemma MomentumIsGate(cfg: Config, fed: seq<Candle>, c: Candle, dir: Direction)
    requires ValidConfig(cfg) && Enough(cfg, fed) && fed[|fed| - 1] == c && Warm(cfg, GaugesOver(cfg, fed))
    ensures Momentum(cfg, GaugesOver(cfg, fed), c, dir) == Gate(cfg, fed, c, dir)
  {
    if cfg.useRoc {
      RocIs(cfg, fed, c);
    }
    if cfg.useRvol {
      RelativeIs(cfg, fed, c.volume);
    }
  }

  // ------------------------------------------------------------------ the terms

  /** The multiple of the average true range, cut to the upper limit and then raised to the lower. */
  function StopDistance(cfg: Config, atr: real): real {
    var raw := cfg.atrMult * atr;
    var cut := if cfg.stopMax.Some? && raw > cfg.stopMax.value then cfg.stopMax.value else raw;
    if cfg.stopMin.Some? && cut < cfg.stopMin.value then cfg.stopMin.value else cut
  }

  function Multiple(k: real, x: real): real {
    k * x
  }

  function Lots(cfg: Config): Option<real> {
    if cfg.qty > 0.0 then Some(cfg.qty) else None
  }

  /** A new position at the close: stop `d` on the losing side, target the configured multiple of that
      distance on the winning side. */
  predicate NewPosition(cfg: Config, c: Candle, dir: Direction, atr: real, d: real, p: Position) {
    && p.dir == dir && p.entryTs == c.ts && p.entryPrice == c.close && p.atrAtEntry == atr
    && p.barsHeld == 0 && p.mfe == 0.0 && p.mae == 0.0
    && p.stop == (if dir == Long then c.close - d else c.close + d)
    && (cfg.tpRrr.None? ==> p.tp.None?)
    && (cfg.tpRrr.Some? ==>
          var reach := Multiple(cfg.tpRrr.value, Abs(d));
          p.tp == Some(if dir == Long then c.close + reach else c.close - reach))
  }

  lemma OpeningIs(cfg: Config, c: Candle, dir: Direction, atr: real)
    ensures NewPosition(cfg, c, dir, atr, StopDistance(cfg, atr), Opening(cfg, c, dir, atr))
  {
    DistanceIs(cfg, atr);
    var d := StopDistance(cfg, atr);
    var stop := if dir.Long? then c.close - d else c.close + d;
    assert Abs(stop - c.close) == Abs(d);
    if cfg.tpRrr.Some? {
      TargetIs(cfg, dir, c.close, stop, Abs(d));
    }
  }

  lemma DistanceIs(cfg: Config, atr: real)
    ensures StopDist(cfg, atr) == StopDistance(cfg, atr)
  {
  }

  lemma TargetIs(cfg: Config, dir: Direction, px: real, stop: real, d: real)
    requires cfg.tpRrr.Some? && Abs(stop - px) == d
    ensures var reach := Multiple(cfg.tpRrr.value, d);
            Target(cfg, dir, px, stop) == Some(if dir == Long then px + reach else px - reach)
  {
  }

  // ------------------------------------------------------------------ entering

  /** The range is final, or the window is over and it is not being rebuilt. */
  predicate RangeFinal(cfg: Config, e: Engine, zone: Zone) {
    e.range.locked || (zone == InSession && !e.range.rebuild)
  }

  /** An ordinary bar finds the engine armed and its range final, with enough bars for the indicators. */
  predicate Armed(cfg: Config, e: Engine, fed: seq<Candle>, c: Candle)
    requires ValidConfig(cfg)
  {
    && Ordinary(cfg, e, c) && e.phase == RangeDefined && RangeFinal(cfg, e, Classify(cfg.hours, c.ts).zone)
    && Enough(cfg, fed)
  }

  /** The bar closes outside the range on an allowed side. */
  predicate Leaves(cfg: Config, range: seq<Candle>, c: Candle, dir: Direction) {
    Outside(range, c.close, dir) && if dir == Long then cfg.allowLong else cfg.allowShort
  }

  predicate Quiet(e: Engine, e': Engine) {
    e'.trace.signals == e.trace.signals && e'.phase == RangeDefined
  }

  /** The momentum gate decides: a new position at its terms, a rejection, or (a divisor of zero) nothing. */
  predicate Decided(cfg: Config, e: Engine, fed: seq<Candle>, c: Candle, dir: Direction, e': Engine)
    requires ValidConfig(cfg) && Enough(cfg, fed)
  {
    match Gate(cfg, fed, c, dir)
    case Fault => Quiet(e, e')
    case Fail =>
      && e'.phase == RangeDefined
      && e'.trace.signals == e.trace.signals +
           [Signal(Reject, dir, c.close, RangeDefined, RangeDefined, MomentumFail, None, None, Lots(cfg))]
    case Pass =>
      && e'.phase == Breakout && e'.clock.traded && e'.gauges.atr.value.Some? && e'.pos.Some?
      && var atr, p := e'.gauges.atr.value.value, e'.pos.value;
         && NewPosition(cfg, c, dir, atr, StopDistance(cfg, atr), p)
         && e'.trace.signals == e.trace.signals +
              [Signal(Entry, dir, c.close, RangeDefined, Breakout, ByBreakout, Some(p.stop), p.tp, Lots(cfg))]
  }

  /** What the bar leads to. */
  predicate Settled(cfg: Config, e: Engine, range: seq<Candle>, fed: seq<Candle>, c: Candle, e': Engine)
    requires ValidConfig(cfg) && Enough(cfg, fed)
  {
    && (forall dir :: Leaves(cfg, range, c, dir) ==> Decided(cfg, e, fed, c, dir, e'))
    && ((forall dir :: !Leaves(cfg, range, c, dir)) ==> Quiet(e, e'))
  }

  lemma CheckDecides(cfg: Config, e: Engine, range: seq<Candle>, fed: seq<Candle>, c: Candle)
    requires ValidConfig(cfg) && e.phase == RangeDefined && e.range.ends.Some?
    requires range != [] && Spans(range, e.range.ends.value.0, e.range.ends.value.1)
    requires e.gauges == GaugesOver(cfg, fed) && Enough(cfg, fed) && fed[|fed| - 1] == c && Warm(cfg, e.gauges)
    ensures Settled(cfg, e, range, fed, c, CheckBreakout(cfg, e, c).e)
  {
    BrokenIsOutside(range, e.range.ends.value, c.close);
    var broken := Broken(e.range.ends.value, c.close);
    if broken.Some? {
      MomentumIsGate(cfg, fed, c, broken.value);
      OpeningIs(cfg, c, broken.value, e.gauges.atr.value.value);
      CheckIs(cfg, e, fed, c, broken.value);
      assert Leaves(cfg, range, c, broken.value) <==> if broken.value == Long then cfg.allowLong else cfg.allowShort;
    }
    forall dir | Leaves(cfg, range, c, dir) ensures broken == Some(dir) {}
  }

  lemma CheckIs(cfg: Config, e: Engine, fed: seq<Candle>, c: Candle, dir: Direction)
    requires ValidConfig(cfg) && e.phase == RangeDefined && e.range.ends.Some? && Enough(cfg, fed)
             && Warm(cfg, e.gauges)
    requires Broken(e.range.ends.value, c.close) == Some(dir)
             && Momentum(cfg, e.gauges, c, dir) == Gate(cfg, fed, c, dir)
    requires var atr := e.gauges.atr.value.value;
             NewPosition(cfg, c, dir, atr, StopDistance(cfg, atr), Opening(cfg, c, dir, atr))
    ensures var e' := CheckBreakout(cfg, e, c).e;
            if (if dir == Long then cfg.allowLong else cfg.allowShort) then Decided(cfg, e, fed, c, dir, e')
            else Quiet(e, e')
  {
  }

  // ------------------------------------------------------------------ entries over whole runs

  /** Nothing new but exits. */
  predicate OnlyExits(e: Engine, e': Engine) {
    && |e.trace.signals| <= |e'.trace.signals| && e'.trace.signals[..|e.trace.signals|] == e.trace.signals
    && forall i :: |e.trace.signals| <= i < |e'.trace.signals| ==> e'.trace.signals[i].kind == Exit
  }

  lemma OnlyExitsThen(e: Engine, e1: Engine, e2: Engine)
    requires OnlyExits(e, e1) && OnlyExits(e1, e2)
    ensures OnlyExits(e, e2)
  {
    assert e2.trace.signals[..|e.trace.signals|] == e1.trace.signals[..|e.trace.signals|];
  }

  lemma LeaveExits(cfg: Config, e: Engine, event: Event, reason: Reason, to: Phase, px: real)
    requires e.pos.Some?
    ensures OnlyExits(e, Leave(cfg, e, event, reason, to, px))
  {
  }

  lemma BreakoutExits(cfg: Config, e: Engine, c: Candle)
    requires e.pos.Some? && e.range.ends.Some? && e.gauges.atr.value.Some?
    ensures OnlyExits(e, OnBreakout(cfg, e, c))
  {
  }

  lemma UnarmedExits(cfg: Config, e: Engine, c: Candle, zone: Zone)
    requires ValidConfig(cfg) && Shape(e)
    requires e.phase == RangeDefined ==> !RangeFinal(cfg, e, zone) && InHours(zone)
    ensures OnlyExits(e, Dispatch(cfg, e, c, zone).e)
  {
    var e1 := Fed(cfg, e, c, zone);
    if e1.phase == Breakout {
      BreakoutExits(cfg, e1, c);
    }
  }

  lemma ColdExits(cfg: Config, e: Engine, c: Candle, zone: Zone)
    requires ValidConfig(cfg) && Shape(e) && e.phase == RangeDefined && !Warm(cfg, Fed(cfg, e, c, zone).gauges)
    ensures OnlyExits(e, Dispatch(cfg, e, c, zone).e)
  {
  }

  lemma ArmedSettles(cfg: Config, e: Engine, range: seq<Candle>, fed: seq<Candle>, c: Candle, zone: Zone)
    requires ValidConfig(cfg) && Shape(e) && e.phase == RangeDefined && RangeFinal(cfg, e, zone) && InHours(zone)
    requires RangeOk(cfg, e, range) && Fed(cfg, e, c, zone).gauges == GaugesOver(cfg, fed)
    requires Enough(cfg, fed) && fed[|fed| - 1] == c
    ensures Settled(cfg, e, range, fed, c, Dispatch(cfg, e, c, zone).e)
  {
    WarmIsEnough(cfg, fed);
    var e1 := Fed(cfg, e, c, zone);
    var e2 := if zone == InSession && !e1.range.locked then Locked(e1) else e1;
    CheckDecides(cfg, e2, range, fed, c);
    SettledSame(cfg, e, e2, range, fed, c, CheckBreakout(cfg, e2, c).e);
  }

  lemma SettledSame(cfg: Config, e: Engine, e2: Engine, range: seq<Candle>, fed: seq<Candle>, c: Candle, e': Engine)
    requires ValidConfig(cfg) && Enough(cfg, fed) && e2.trace.signals == e.trace.signals
    requires Settled(cfg, e2, range, fed, c, e')
    ensures Settled(cfg, e, range, fed, c, e')
  {
    forall dir | Leaves(cfg, range, c, dir) ensures Decided(cfg, e, fed, c, dir, e') {
      assert Decided(cfg, e2, fed, c, dir, e');
    }
  }

  /** An ordinary bar is fed to the indicators. */
  lemma {:induction false} OrdinaryFed(cfg: Config, inputs: seq<Input>, c: Candle)
    requires ValidConfig(cfg) && Ordinary(cfg, Run(cfg, inputs), c)
    ensures var e, zone := Run(cfg, inputs), Classify(cfg.hours, c.ts).zone;
            && FedBars(cfg, inputs + [Bar(c)]) == FedBars(cfg, inputs) + [c]
            && Fed(cfg, At(e, c.ts), c, zone).gauges == GaugesOver(cfg, FedBars(cfg, inputs) + [c])
  {
    var e, zone := Run(cfg, inputs), Classify(cfg.hours, c.ts).zone;
    assert (inputs + [Bar(c)])[..|inputs|] == inputs;
    OrdinaryIs(cfg, e, c);
    GaugesAreBars(cfg, inputs);
    DispatchGauges(cfg, At(e, c.ts), c, zone);
    GaugesSnoc(cfg, At(e, c.ts), FedBars(cfg, inputs), c, zone);
  }

  lemma {:induction false} OrdinaryEntry(cfg: Config, inputs: seq<Input>, c: Candle)
    requires ValidConfig(cfg) && Ordinary(cfg, Run(cfg, inputs), c)
    ensures var e, e' := Run(cfg, inputs), Run(cfg, inputs + [Bar(c)]);
            var range, fed := RangeBars(cfg, inputs), FedBars(cfg, inputs + [Bar(c)]);
            if Armed(cfg, e, fed, c) then Settled(cfg, e, range, fed, c, e') else OnlyExits(e, e')
  {
    var e, zone := Run(cfg, inputs), Classify(cfg.hours, c.ts).zone;
    var range, fed := RangeBars(cfg, inputs), FedBars(cfg, inputs + [Bar(c)]);
    assert (inputs + [Bar(c)])[..|inputs|] == inputs;
    OrdinaryIs(cfg, e, c);
    OrdinaryFed(cfg, inputs, c);
    RangeIsBars(cfg, inputs);
    WarmIsEnough(cfg, fed);
    StaysInHours(cfg, e, zone, c.ts);
    var at := At(e, c.ts);
    if e.phase == RangeDefined && RangeFinal(cfg, e, zone) {
      if Enough(cfg, fed) {
        AtWay(cfg, From(|e.trace.log|, range, c), e, c.ts);
        AtRange(cfg, e, range, c.ts);
        ArmedSettles(cfg, at, range, fed, c, zone);
        SettledSame(cfg, e, at, range, fed, c, Dispatch(cfg, at, c, zone).e);
      } else {
        ColdExits(cfg, at, c, zone);
      }
    } else {
      UnarmedExits(cfg, at, c, zone);
    }
  }

  lemma AtRange(cfg: Config, e: Engine, range: seq<Candle>, ts: int)
    requires RangeOk(cfg, e, range) && (e.clock.last.Some? ==> e.clock.last.value <= ts)
    ensures RangeOk(cfg, At(e, ts), range)
  {
  }

  lemma CrossExits(cfg: Config, e: Engine, c: Candle)
    requires ValidConfig(cfg) && FullInv(cfg, e)
    ensures OnlyExits(e, CrossBoundary(cfg, e, c, Classify(cfg.hours, c.ts)).0)
  {
    var info := Classify(cfg.hours, c.ts);
    if e.phase == Breakout {
      LeaveExits(cfg, e, ExitSession, SessionEnd, Idle, c.close);
    } else {
      NewSessionInv(e, info.session);
      UnarmedExits(cfg, At(NewSession(e, info.session), c.ts), c, info.zone);
    }
  }

  lemma GapShape(cfg: Config, e: Engine, c: Candle, zone: Zone)
    requires Inv(e) && e.phase != Breakout
    ensures var gapped := At(AfterGap(cfg, e, c, zone), c.ts);
            && Shape(gapped) && gapped.trace.signals == e.trace.signals
            && (gapped.phase == RangeDefined ==> InHours(zone) && gapped.range == Range(None, 0, false, true))
  {
    AfterGapInv(cfg, e, c, zone);
  }

  lemma GapExits(cfg: Config, e: Engine, c: Candle, zone: Zone)
    requires ValidConfig(cfg) && Inv(e) && e.phase != Breakout
    ensures var gapped := At(AfterGap(cfg, e, c, zone), c.ts);
            Shape(gapped) && OnlyExits(e, Dispatch(cfg, gapped, c, zone).e)
  {
    GapShape(cfg, e, c, zone);
    var gapped := At(AfterGap(cfg, e, c, zone), c.ts);
    UnarmedExits(cfg, gapped, c, zone);
    OnlyExitsThen(e, gapped, Dispatch(cfg, gapped, c, zone).e);
  }

  lemma OtherBarExits(cfg: Config, e: Engine, c: Candle)
    requires ValidConfig(cfg) && FullInv(cfg, e) && !Ordinary(cfg, e, c)
    ensures OnlyExits(e, OnCandle(cfg, e, c).0)
  {
    if Accepts(e.clock.last, c) {
      var info := Classify(cfg.hours, c.ts);
      if e.clock.session != Some(info.session) {
        CrossExits(cfg, e, c);
      } else if info.zone == After {
        AfterExits(cfg, e, c);
      } else if IsReset(cfg, e, c.ts) {
        if e.phase == Breakout {
          LeaveExits(cfg, e, ExitGap, GapInvalidate, Idle, c.close);
        } else {
          GapExits(cfg, e, c, info.zone);
        }
      } else {
        StaysInHours(cfg, e, info.zone, c.ts);
        UnarmedExits(cfg, At(e, c.ts), c, info.zone);
      }
    }
  }

  lemma AfterExits(cfg: Config, e: Engine, c: Candle)
    requires Shape(e)
    ensures OnlyExits(e, AfterHours(cfg, e, c))
  {
    if e.phase == Breakout {
      LeaveExits(cfg, At(e, c.ts), ExitSession, SessionEnd, Idle, c.close);
    }
  }

  /** Over every run, with the next bar whatever it is.  An armed engine whose range is final and whose
      indicators have enough bars enters, long above every bar of its range, short below every one, on an
      allowed side and if the momentum gate lets it pass, at the close, with its stop on the losing side
      and its target on the winning side; it says so when the gate does not; and otherwise, and for any
      other engine and any other bar, there is neither entry nor rejection. */
  lemma {:induction false} EntryExact(cfg: Config, inputs: seq<Input>, c: Candle)
    requires ValidConfig(cfg)
    ensures var e, e' := Run(cfg, inputs), Run(cfg, inputs + [Bar(c)]);
            var range, fed := RangeBars(cfg, inputs), FedBars(cfg, inputs + [Bar(c)]);
            if Armed(cfg, e, fed, c) then Settled(cfg, e, range, fed, c, e') else OnlyExits(e, e')
  {
    if Ordinary(cfg, Run(cfg, inputs), c) {
      OrdinaryEntry(cfg, inputs, c);
    } else {
      assert (inputs + [Bar(c)])[..|inputs|] == inputs;
      OtherBarExits(cfg, Run(cfg, inputs), c);
    }
  }

  // ------------------------------------------------------------------ holding and leaving

  /** The price that touches a level on the losing side, or the close if only that counts. */
  function Worst(cfg: Config, dir: Direction, c: Candle): real {
    if cfg.reentryOnClose then c.close else if dir == Long then c.low else c.high
  }

  function Best(cfg: Config, dir: Direction, c: Candle): real {
    if cfg.reentryOnClose then c.close else if dir == Long then c.high else c.low
  }

  /** Back within reach of some bar of the range. */
  predicate Back(cfg: Config, range: seq<Candle>, dir: Direction, c: Candle) {
    exists b <- range :: if dir == Long then Worst(cfg, dir, c) <= b.high else Worst(cfg, dir, c) >= b.low
  }

  /** The far edge of the range, the one that was broken. */
  predicate IsEdge(range: seq<Candle>, dir: Direction, x: real) {
    if dir == Long then (exists b <- range :: b.high == x) && forall b <- range :: b.high <= x
    else (exists b <- range :: b.low == x) && forall b <- range :: x <= b.low
  }

  predicate AtTarget(cfg: Config, p: Position, c: Candle) {
    p.tp.Some? && if p.dir == Long then Best(cfg, p.dir, c) >= p.tp.value else Best(cfg, p.dir, c) <= p.tp.value
  }

  predicate AtStop(cfg: Config, p: Position, c: Candle) {
    if p.dir == Long then Worst(cfg, p.dir, c) <= p.stop else Worst(cfg, p.dir, c) >= p.stop
  }

  /** The position has been closed at this price, for this reason. */
  predicate Closed(cfg: Config, e: Engine, e': Engine, to: Phase, reason: Reason, px: real)
    requires e.pos.Some?
  {
    var p := e.pos.value;
    && e'.pos.None?
    && e'.trace.signals ==
         e.trace.signals + [Signal(Exit, p.dir, px, Breakout, to, reason, Some(p.stop), p.tp, Lots(cfg))]
  }

  predicate Larger(x: real, y: real, m: real) {
    m >= x && m >= y && (m == x || m == y)
  }

  /** One bar older, with the best and the worst it has been through. */
  predicate Older(p: Position, c: Candle, p': Position) {
    && p'.barsHeld == p.barsHeld + 1
    && Larger(p.mfe, if p.dir == Long then c.high - p.entryPrice else p.entryPrice - c.low, p'.mfe)
    && Larger(p.mae, if p.dir == Long then p.entryPrice - c.low else c.high - p.entryPrice, p'.mae)
    && p' == p.(barsHeld := p'.barsHeld, mfe := p'.mfe, mae := p'.mae, stop := p'.stop, tp := p'.tp)
  }

  /** Part is closed and the target is gone. */
  predicate PartClosed(cfg: Config, e: Engine, e': Engine, px: real, c: Candle)
    requires e.pos.Some?
  {
    var p, lots := e.pos.value, if cfg.qty > 0.0 then Some(cfg.qty * cfg.tpFrac) else None;
    && e'.pos.Some? && Older(p, c, e'.pos.value) && e'.pos.value.tp.None? && e'.pos.value.stop == p.stop
    && e'.trace.signals ==
         e.trace.signals + [Signal(Exit, p.dir, px, Breakout, Breakout, TakeProfitPartial, Some(p.stop), p.tp, lots)]
  }

  /** Held on: the stop follows the close at the distance the indicators now give, and never loosens. */
  predicate HeldOn(cfg: Config, e: Engine, e': Engine, c: Candle)
    requires e.pos.Some?
  {
    && e'.trace.signals == e.trace.signals && e'.pos.Some? && e'.gauges.atr.value.Some?
    && var p, p', d := e.pos.value, e'.pos.value, StopDistance(cfg, e'.gauges.atr.value.value);
       && Older(p, c, p') && p'.tp == p.tp
       && if p.dir == Long then Larger(p.stop, c.close - d, p'.stop) else Larger(-p.stop, -(c.close + d), -p'.stop)
  }

  /** An ordinary bar of a position: back in the range, at its target, at its stop, or held on. */
  predicate Managed(cfg: Config, e: Engine, range: seq<Candle>, c: Candle, e': Engine)
    requires e.pos.Some?
  {
    var p, to := e.pos.value, if !cfg.oneTrade && cfg.rearm then RangeDefined else Idle;
    if Back(cfg, range, p.dir, c) then
      && e'.phase == to && e'.trace.signals != []
      && var px := e'.trace.signals[|e'.trace.signals| - 1].price;
         && Closed(cfg, e, e', to, RangeReentry, px)
         && if cfg.reentryOnClose then px == c.close else IsEdge(range, p.dir, px)
    else if AtTarget(cfg, p, c) then
      var px := if cfg.reentryOnClose then c.close else p.tp.value;
      if cfg.tpFrac < 1.0 then e'.phase == Breakout && PartClosed(cfg, e, e', px, c)
      else e'.phase == to && Closed(cfg, e, e', to, TakeProfit, px)
    else if AtStop(cfg, p, c) then
      e'.phase == to && Closed(cfg, e, e', to, TrailStop, if cfg.reentryOnClose then c.close else p.stop)
    else e'.phase == Breakout && HeldOn(cfg, e, e', c)
  }

  lemma BackIs(cfg: Config, p: Position, range: seq<Candle>, ends: (real, real), c: Candle)
    requires range != [] && Spans(range, ends.0, ends.1)
    ensures Reentered(cfg, p, ends, c) <==> Back(cfg, range, p.dir, c)
    ensures IsEdge(range, p.dir, if p.dir == Long then ends.0 else ends.1)
  {
    var top :| top in range && top.high == ends.0;
    var bottom :| bottom in range && bottom.low == ends.1;
  }

  lemma AgedIs(p: Position, c: Candle)
    ensures Older(p, c, Aged(p, c)) && Aged(p, c).stop == p.stop && Aged(p, c).tp == p.tp
  {
  }

  lemma {:induction false} OnBreakoutIs(cfg: Config, e: Engine, range: seq<Candle>, c: Candle)
    requires Shape(e) && e.phase == Breakout && range != []
    requires Spans(range, e.range.ends.value.0, e.range.ends.value.1)
    ensures Managed(cfg, e, range, c, OnBreakout(cfg, e, c))
  {
    var p := e.pos.value;
    AgedIs(p, c);
    BackIs(cfg, Aged(p, c), range, e.range.ends.value, c);
    if Back(cfg, range, p.dir, c) {
      BackCloses(cfg, e, range, c);
    } else if AtTarget(cfg, p, c) {
      TargetCloses(cfg, e, range, c);
    } else if AtStop(cfg, p, c) {
      StopCloses(cfg, e, range, c);
    } else {
      NothingHit(cfg, e, range, c);
    }
  }

  lemma {:induction false} BackCloses(cfg: Config, e: Engine, range: seq<Candle>, c: Candle)
    requires Shape(e) && e.phase == Breakout && range != []
    requires Spans(range, e.range.ends.value.0, e.range.ends.value.1) && Back(cfg, range, e.pos.value.dir, c)
    ensures Managed(cfg, e, range, c, OnBreakout(cfg, e, c))
  {
    BackIs(cfg, Aged(e.pos.value, c), range, e.range.ends.value, c);
  }

  lemma {:induction false} TargetCloses(cfg: Config, e: Engine, range: seq<Candle>, c: Candle)
    requires Shape(e) && e.phase == Breakout
    requires !Reentered(cfg, Aged(e.pos.value, c), e.range.ends.value, c)
    requires !Back(cfg, range, e.pos.value.dir, c) && AtTarget(cfg, e.pos.value, c)
    ensures Managed(cfg, e, range, c, OnBreakout(cfg, e, c))
  {
    AgedIs(e.pos.value, c);
    assert TargetHit(cfg, Aged(e.pos.value, c), c);
  }

  lemma {:induction false} StopCloses(cfg: Config, e: Engine, range: seq<Candle>, c: Candle)
    requires Shape(e) && e.phase == Breakout
    requires !Reentered(cfg, Aged(e.pos.value, c), e.range.ends.value, c)
    requires !Back(cfg, range, e.pos.value.dir, c) && !AtTarget(cfg, e.pos.value, c) && AtStop(cfg, e.pos.value, c)
    ensures Managed(cfg, e, range, c, OnBreakout(cfg, e, c))
  {
    AgedIs(e.pos.value, c);
    assert !TargetHit(cfg, Aged(e.pos.value, c), c) && TrailHit(cfg, Aged(e.pos.value, c), c);
  }

  lemma {:induction false} NothingHit(cfg: Config, e: Engine, range: seq<Candle>, c: Candle)
    requires Shape(e) && e.phase == Breakout
    requires !Reentered(cfg, Aged(e.pos.value, c), e.range.ends.value, c)
    requires !Back(cfg, range, e.pos.value.dir, c) && !AtTarget(cfg, e.pos.value, c) && !AtStop(cfg, e.pos.value, c)
    ensures Managed(cfg, e, range, c, OnBreakout(cfg, e, c))
  {
    var p, atr := e.pos.value, e.gauges.atr.value.value;
    AgedIs(p, c);
    assert !TargetHit(cfg, Aged(p, c), c) && !TrailHit(cfg, Aged(p, c), c);
    DistanceIs(cfg, atr);
    RatchetIs(cfg, Aged(p, c), c.close, atr);
  }

  lemma RatchetIs(cfg: Config, p: Position, close: real, atr: real)
    ensures var p', d := Ratcheted(cfg, p, close, atr), StopDistance(cfg, atr);
            && p' == p.(stop := p'.stop)
            && if p.dir == Long then Larger(p.stop, close - d, p'.stop) else Larger(-p.stop, -(close + d), -p'.stop)
  {
    DistanceIs(cfg, atr);
  }

  /** Over every run: an ordinary bar manages a position in just this way, by the bars of its range. */
  lemma {:induction false} HoldExact(cfg: Config, inputs: seq<Input>, c: Candle)
    requires ValidConfig(cfg)
    requires Run(cfg, inputs).phase == Breakout && Ordinary(cfg, Run(cfg, inputs), c)
    ensures Managed(cfg, Run(cfg, inputs), RangeBars(cfg, inputs), c, Run(cfg, inputs + [Bar(c)]))
  {
    var e, range, zone := Run(cfg, inputs), RangeBars(cfg, inputs), Classify(cfg.hours, c.ts).zone;
    assert (inputs + [Bar(c)])[..|inputs|] == inputs;
    OrdinaryIs(cfg, e, c);
    RangeIsBars(cfg, inputs);
    var e1 := Fed(cfg, At(e, c.ts), c, zone);
    OnBreakoutIs(cfg, e1, range, c);
    ManagedSame(cfg, e, e1, range, c, OnBreakout(cfg, e1, c));
  }

  lemma {:induction false} ManagedSame(cfg: Config, e: Engine, e1: Engine, range: seq<Candle>, c: Candle, e': Engine)
    requires e.pos.Some? && e1.pos == e.pos && e1.trace == e.trace && Managed(cfg, e1, range, c, e')
    ensures Managed(cfg, e, range, c, e')
  {
  }

  /** And whatever else happens to a position closes it: any other accepted bar at its close, for the end
      of the session or for the gap, and the broker at its stop. */
  lemma {:induction false} ForcedOut(cfg: Config, inputs: seq<Input>, c: Candle)
    requires ValidConfig(cfg) && Run(cfg, inputs).phase == Breakout
    ensures var e, e' := Run(cfg, inputs), Run(cfg, inputs + [Bar(c)]);
            && (!Accepts(e.clock.last, c) ==> e' == e)
            && (Accepts(e.clock.last, c) && !Ordinary(cfg, e, c) ==>
                  var info := Classify(cfg.hours, c.ts);
                  var over := e.clock.session != Some(info.session) || info.zone == After;
                  Closed(cfg, e, e', Idle, if over then SessionEnd else GapInvalidate, c.close))
    ensures var e, e' := Run(cfg, inputs), Run(cfg, inputs + [BrokerClosedIt]);
            var to := if !cfg.oneTrade && cfg.rearm then RangeDefined else Idle;
            e'.phase == to && Closed(cfg, e, e', to, BrokerClosed, e.pos.value.stop)
  {
    var e := Run(cfg, inputs);
    assert (inputs + [Bar(c)])[..|inputs|] == inputs && (inputs + [BrokerClosedIt])[..|inputs|] == inputs;
    var info := Classify(cfg.hours, c.ts);
    if Accepts(e.clock.last, c) && e.clock.session == Some(info.session) && info.zone != After {
      StaysInHours(cfg, e, info.zone, c.ts);
    }
  }
}
