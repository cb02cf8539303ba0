/** The multi-timeframe engine, step by step: one-minute bars are gathered into a trigger timeframe,
    four hours and days; trends and order blocks are tracked on the longer ones, and each completed
    trigger bar may open a position. */
module SmcEngine {
  import opened Prelude
  import opened Models
  import opened Indicators
  import Aggregation
  import Structure
  import OrderBlocks
  import Profile

  datatype Frames = Frames(trigger: int, htf: int, d1: int)

  datatype Gates = Gates(volMult: real, volPeriod: int, pocTol: real, needed: int)

  datatype Risk = Risk(buffer: real, maxDist: real, maxTrades: int)

  datatype Config = Config(frames: Frames, swings: Structure.Config, blocks: OrderBlocks.Limits,
                           profile: Profile.Config, gates: Gates, risk: Risk, strict: bool)

  predicate ValidConfig(cfg: Config) {
    && Aggregation.ValidMinutes(cfg.frames.trigger) && Aggregation.ValidMinutes(cfg.frames.htf)
    && cfg.frames.trigger < cfg.frames.htf < cfg.frames.d1 == Aggregation.DAY_MIN
    && Structure.ValidConfig(cfg.swings) && OrderBlocks.ValidLimits(cfg.blocks) && Profile.ValidConfig(cfg.profile)
    && cfg.gates.volPeriod >= 1 && cfg.gates.pocTol >= 0.0 && 1 <= cfg.gates.needed <= 6
    && 0.0 < cfg.risk.buffer < cfg.risk.maxDist && cfg.risk.maxTrades >= 1
  }

  // ------------------------------------------------------------------ state

  datatype Phase = Idle | Armed | InTrade

  datatype Position = Position(dir: Direction, entryTs: int, entryPrice: real, stop: real, atrAtEntry: real,
                               barsHeld: nat)

  datatype Event = Disarm | Arm | Enter(dir: Direction) | ExitBroker

  datatype Transition = Transition(ts: int, from: Phase, to: Phase, event: Event)

  datatype Kind = Entry | Exit

  datatype Signal = Signal(kind: Kind, ts: int, dir: Direction, price: real, stop: real, barsHeld: nat)

  /** What has been emitted, and the date of the fed bar at each entry. */
  datatype Trace = Trace(log: seq<Transition>, signals: seq<Signal>, entryDates: seq<int>)

  /** One timeframe: its bucket in progress and its market structure. */
  datatype View = View(cur: Option<Candle>, trend: Structure.Tracker)

  datatype Views = Views(trigger: View, htf: View, d1: View)

  datatype Zones = Zones(htf: OrderBlocks.Zones, d1: OrderBlocks.Zones)

  datatype Gauges = Gauges(atr: Atr, volume: Sma)

  /** Today's profile, the last completed day's levels, and today's date and entries. */
  datatype Day = Day(profile: Profile.State, prior: Option<Profile.Levels>, date: Option<int>, traded: nat)

  /** The last trigger bars, and the last completed four-hour bar's high and low. */
  datatype Memory = Memory(bars: seq<Candle>, range: Option<(real, real)>)

  datatype Engine = Engine(phase: Phase, pos: Option<Position>, last: Option<int>, views: Views, zones: Zones,
                           gauges: Gauges, day: Day, memory: Memory, trace: Trace)

  const NewView := View(None, Structure.NewTracker)

  const Start := Engine(Idle, None, None, Views(NewView, NewView, NewView),
                        Zones(OrderBlocks.NewZones, OrderBlocks.NewZones),
                        Gauges(NewAtr, NewSma), Day(Profile.Empty, None, None, 0), Memory([], None), Trace([], [], []))

  /** Emits a transition and takes it. */
  function Move(e: Engine, ts: int, to: Phase, event: Event): Engine {
    e.(phase := to, trace := e.trace.(log := e.trace.log + [Transition(ts, e.phase, to, event)]))
  }

  function Say(e: Engine, s: Signal): Engine {
    e.(trace := e.trace.(signals := e.trace.signals + [s]))
  }

  // ------------------------------------------------------------------ the checks

  /** The four-hour trend, unless the daily one is against it. */
  function Bias(v: Views): Option<Direction> {
    if v.htf.trend.trend.Some? && v.d1.trend.trend.Some? && v.d1.trend.trend != v.htf.trend.trend then None
    else v.htf.trend.trend
  }

  /** The level of a swept-and-reclaimed swing or, failing that, of the last four-hour bar. */
  function Sweep(e: Engine, bar: Candle, bias: Direction): Option<real> {
    var trend := e.views.trigger.trend;
    var swing := if bias.Long? then Structure.SweptLow(trend, bar) else Structure.SweptHigh(trend, bar);
    var range := e.memory.range;
    if swing.Some? then swing
    else if range.None? then None
    else if bias.Long? && bar.low < range.value.1 && bar.close > range.value.1 then Some(range.value.1)
    else if bias.Short? && bar.high > range.value.0 && bar.close < range.value.0 then Some(range.value.0)
    else None
  }

  /** The volume gate binds only on real volume against a ready, non-zero average. */
  predicate LowVolume(cfg: Config, g: Gauges, bar: Candle)
    requires cfg.gates.volPeriod >= 1
  {
    && bar.volume > 0.0 && SmaReady(cfg.gates.volPeriod, g.volume) && SmaValue(cfg.gates.volPeriod, g.volume) != 0.0
    && bar.volume < cfg.gates.volMult * SmaValue(cfg.gates.volPeriod, g.volume)
  }

  predicate Displaced(cfg: Config, g: Gauges, bar: Candle)
    requires cfg.gates.volPeriod >= 1
  {
    var range := bar.high - bar.low;
    && range > 0.0 && Abs(bar.close - bar.open) / range >= cfg.blocks.bodyFrac
    && g.atr.value.Some? && range >= cfg.blocks.atrMult * g.atr.value.value
    && !LowVolume(cfg, g, bar)
  }

  /** Change in the state of delivery over the last two completed trigger bars. */
  predicate Cisd(m: Memory, bar: Candle, bias: Direction) {
    && |m.bars| >= 2
    && var prev, prev2 := m.bars[|m.bars| - 1], m.bars[|m.bars| - 2];
       if bias.Long? then prev.close < prev.open && bar.close > prev.open && prev2.close <= prev.open
       else prev.close > prev.open && bar.close < prev.open && prev2.close >= prev.open
  }

  predicate Aligned(v: Views, event: Option<Structure.Event>, bias: Direction) {
    || v.trigger.trend.trend == Some(bias)
    || (event.Some? && event.value.kind.Choch? && event.value.direction == bias)
  }

  /** Middle of today's value area, or the point of control, or nothing yet. */
  function Equilibrium(cfg: Config, day: Day): Option<real> {
    var lv := Profile.LevelsOf(cfg.profile, day.profile);
    if lv.Some? then Some((lv.value.vah + lv.value.val) / 2.0) else Profile.PocPrice(cfg.profile, day.profile)
  }

  predicate GoodSide(cfg: Config, day: Day, bar: Candle, bias: Direction) {
    var eq := Equilibrium(cfg, day);
    eq.None? || (if bias.Long? then bar.close <= eq.value else bar.close >= eq.value)
  }

  function One(b: bool): nat {
    if b then 1 else 0
  }

  /** How many of the five read-only checks hold. */
  function Votes(cfg: Config, e: Engine, bar: Candle, event: Option<Structure.Event>, bias: Direction): (n: nat)
    requires ValidConfig(cfg)
    ensures n <= 5
  {
    One(Sweep(e, bar, bias).Some?) + One(Displaced(cfg, e.gauges, bar)) + One(Cisd(e.memory, bar, bias))
    + One(Aligned(e.views, event, bias)) + One(GoodSide(cfg, e.day, bar, bias))
  }

  // ------------------------------------------------------------------ the point of interest

  datatype Poi = Nowhere | AtPoc | AtPriorPoc | DayBlock(ob: OrderBlocks.Block) | HtfBlock(ob: OrderBlocks.Block)

  predicate NearPoc(cfg: Config, day: Day, bar: Candle) {
    var poc := Profile.PocPrice(cfg.profile, day.profile);
    poc.Some? && Abs(bar.close - poc.value) <= cfg.gates.pocTol
  }

  predicate NearPriorPoc(cfg: Config, day: Day, bar: Candle) {
    day.prior.Some? && Abs(bar.close - day.prior.value.poc) <= cfg.gates.pocTol
  }

  /** The read-only tests first; a block is asked for, and used up, only when they fail. */
  function Resolve(cfg: Config, e: Engine, bar: Candle, bias: Direction): (Zones, Poi) {
    if NearPoc(cfg, e.day, bar) then (e.zones, AtPoc)
    else if NearPriorPoc(cfg, e.day, bar) then (e.zones, AtPriorPoc)
    else
      var (d1, ob) := OrderBlocks.PoiAt(e.zones.d1, bar.low, bar.high, bias);
      if ob.Some? then (e.zones.(d1 := d1), DayBlock(ob.value))
      else
        var (htf, ob') := OrderBlocks.PoiAt(e.zones.htf, bar.low, bar.high, bias);
        if ob'.Some? then (e.zones.(htf := htf), HtfBlock(ob'.value)) else (e.zones, Nowhere)
  }

  // ------------------------------------------------------------------ entry

  /** Beyond the bar, the block and the swept level alike. */
  function StopFor(cfg: Config, bar: Candle, dir: Direction, poi: Poi, swept: Option<real>): real {
    if dir.Long? then
      var floor := if poi.DayBlock? || poi.HtfBlock? then Min(bar.low, poi.ob.bottom) else bar.low;
      (if swept.Some? then Min(floor, swept.value) else floor) - cfg.risk.buffer
    else
      var ceil := if poi.DayBlock? || poi.HtfBlock? then Max(bar.high, poi.ob.top) else bar.high;
      (if swept.Some? then Max(ceil, swept.value) else ceil) + cfg.risk.buffer
  }

  predicate Affordable(cfg: Config, bar: Candle, stop: real) {
    0.0 < Abs(bar.close - stop) <= cfg.risk.maxDist
  }

  function Open(e: Engine, bar: Candle, dir: Direction, stop: real): Engine {
    var atr := if e.gauges.atr.value.Some? then e.gauges.atr.value.value else 0.0;
    var e1 := e.(pos := Some(Position(dir, bar.ts, bar.close, stop, atr, 0)),
                 day := e.day.(traded := e.day.traded + 1));
    Say(Move(e1, bar.ts, InTrade, Enter(dir)), Signal(Entry, bar.ts, dir, bar.close, stop, 0))
  }

  /** Opens the position unless the stop is too far away. */
  function TryEnter(cfg: Config, e: Engine, bar: Candle, dir: Direction, stop: real): Engine {
    if Affordable(cfg, bar, stop) then Open(e, bar, dir, stop) else e
  }

  function Confluence(cfg: Config, e: Engine, bar: Candle, event: Option<Structure.Event>, bias: Direction): Engine
    requires ValidConfig(cfg)
  {
    if Votes(cfg, e, bar, event, bias) + 1 < cfg.gates.needed then e
    else
      var (zones, poi) := Resolve(cfg, e, bar, bias);
      if poi.Nowhere? then e
      else TryEnter(cfg, e.(zones := zones), bar, bias, StopFor(cfg, bar, bias, poi, Sweep(e, bar, bias)))
  }

  function Disarmed(e: Engine, ts: int): Engine {
    if e.phase == Idle then e else Move(e, ts, Idle, Disarm)
  }

  function ArmedNow(e: Engine, ts: int): Engine {
    if e.phase == Armed then e else Move(e, ts, Armed, Arm)
  }

  /** What a completed trigger bar leads to. */
  function Decide(cfg: Config, e: Engine, bar: Candle, event: Option<Structure.Event>): Engine
    requires ValidConfig(cfg)
  {
    var bias := Bias(e.views);
    if e.pos.Some? then e
    else if bias.None? then Disarmed(e, bar.ts)
    else
      var e1 := ArmedNow(e, bar.ts);
      if e1.day.traded >= cfg.risk.maxTrades then e1 else Confluence(cfg, e1, bar, event, bias.value)
  }

  // ------------------------------------------------------------------ one bar

  /** On a new date today's profile becomes the prior one, if it is ready, and entries count anew. */
  function NewDay(cfg: Config, day: Day, c: Candle): Day {
    var d := DateOf(c.ts);
    if day.date == Some(d) then day
    else
      Day(Profile.Empty,
          if day.date.Some? && Profile.Ready(cfg.profile, day.profile) then Profile.LevelsOf(cfg.profile, day.profile)
            else day.prior,
          Some(d), 0)
  }

  function Today(cfg: Config, day: Day, c: Candle): Day
    requires ValidConfig(cfg)
  {
    var day' := NewDay(cfg, day, c);
    day'.(profile := Profile.Update(cfg.profile, day'.profile, c))
  }

  /** One timeframe after a bar, the bar it completed and that bar's break of structure. */
  datatype Seen = Seen(view: View, done: Option<Candle>, event: Option<Structure.Event>)

  function See(cfg: Config, minutes: int, v: View, c: Candle): Seen
    requires minutes >= 1
  {
    var (cur, done) := Aggregation.Fold(minutes, v.cur, c);
    if done.None? then Seen(View(cur, v.trend), None, None)
    else
      var (trend, event) := Structure.Update(cfg.swings, v.trend, done.value);
      Seen(View(cur, trend), done, event)
  }

  /** The zones of a timeframe after what was seen of it. */
  function Zoned(cfg: Config, z: OrderBlocks.Zones, s: Seen): OrderBlocks.Zones
    requires ValidConfig(cfg)
  {
    if s.done.None? then z else OrderBlocks.Advance(cfg.blocks, z, s.done.value, s.event)
  }

  /** Everything a bar changes before its trigger bar, if it completes one, is decided upon. */
  function Absorbed(cfg: Config, e: Engine, c: Candle): Engine
    requires ValidConfig(cfg)
  {
    Longer(cfg, e.(last := Some(c.ts), day := Today(cfg, e.day, c)), c)
  }

  /** The longer timeframes after `c`. */
  function Longer(cfg: Config, e: Engine, c: Candle): Engine
    requires ValidConfig(cfg)
  {
    var d1, htf := See(cfg, cfg.frames.d1, e.views.d1, c), See(cfg, cfg.frames.htf, e.views.htf, c);
    e.(views := Views(e.views.trigger, htf.view, d1.view),
       zones := Zones(Zoned(cfg, e.zones.htf, htf), Zoned(cfg, e.zones.d1, d1)),
       memory := if htf.done.Some? then e.memory.(range := Some((htf.done.value.high, htf.done.value.low)))
         else e.memory)
  }

  function Measured(cfg: Config, g: Gauges, bar: Candle): Gauges
    requires ValidConfig(cfg)
  {
    Gauges(UpdateAtr(cfg.blocks.atrPeriod, g.atr, bar.high, bar.low, bar.close),
           if bar.volume > 0.0 then UpdateSma(cfg.gates.volPeriod, g.volume, bar.volume) else g.volume)
  }

  function Remember(bars: seq<Candle>, bar: Candle): seq<Candle> {
    if |bars| + 1 > 3 then (bars + [bar])[1..] else bars + [bar]
  }

  /** Deciding, with a note of the fed bar's date should it enter. */
  function Decided(cfg: Config, e: Engine, c: Candle, bar: Candle, event: Option<Structure.Event>): Engine
    requires ValidConfig(cfg)
  {
    var e' := Decide(cfg, e, bar, event);
    if e.pos.None? && e'.pos.Some? then
      e'.(trace := e'.trace.(entryDates := e'.trace.entryDates + [DateOf(c.ts)]))
    else e'
  }

  function Triggered(cfg: Config, e: Engine, c: Candle): Engine
    requires ValidConfig(cfg)
  {
    var s := See(cfg, cfg.frames.trigger, e.views.trigger, c);
    var e1 := e.(views := e.views.(trigger := s.view));
    if s.done.None? then e1
    else
      var bar := s.done.value;
      var e2 := Decided(cfg, e1.(gauges := Measured(cfg, e1.gauges, bar)), c, bar, s.event);
      e2.(memory := e2.memory.(bars := Remember(e2.memory.bars, bar)))
  }

  function Held(e: Engine): Engine {
    if e.pos.None? then e else e.(pos := Some(e.pos.value.(barsHeld := e.pos.value.barsHeld + 1)))
  }

  datatype Outcome = Done | Dropped | Malformed | OutOfOrder

  predicate Accepted(e: Engine, c: Candle) {
    Valid(c) && (e.last.Some? ==> c.ts > e.last.value)
  }

  function OnCandle(cfg: Config, e: Engine, c: Candle): (Engine, Outcome)
    requires ValidConfig(cfg)
  {
    if !Valid(c) then (e, Malformed)
    else if !Accepted(e, c) then (e, if cfg.strict then OutOfOrder else Dropped)
    else (Held(Triggered(cfg, Absorbed(cfg, e, c), c)), Done)
  }

  /** The broker has closed the position. */
  function ForceFlat(e: Engine, ts: int): Engine {
    if e.pos.None? then e
    else
      var p := e.pos.value;
      var log := e.trace.log + [Transition(ts, InTrade, Armed, ExitBroker)];
      var e1 := e.(phase := Armed, pos := None, trace := e.trace.(log := log));
      Say(e1, Signal(Exit, ts, p.dir, p.stop, p.stop, p.barsHeld))
  }
}
