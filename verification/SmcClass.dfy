/** The multi-timeframe engine as an object whose handlers update its fields; each handler is the
    corresponding step of `SmcEngine`.  The trackers it holds are values, advanced by the functions
    their own classes are proved to compute. */
module SmcClass {
  import opened Prelude
  import opened Models
  import opened Indicators
  import opened SmcEngine
  import SmcRuns
  import Aggregation
  import Structure
  import OrderBlocks
  import Profile

  class Smc {
    const cfg: Config
    var state: Phase
    var position: Option<Position>
    var lastTs: Option<int>
    var m15: View
    var h4: View
    var d1: View
    var obH4: OrderBlocks.Zones
    var obD1: OrderBlocks.Zones
    var atr: Atr
    var vsma: Sma
    var dayProfile: Profile.State
    var prior: Option<Profile.Levels>
    var curDate: Option<int>
    var tradedToday: nat
    var m15Hist: seq<Candle>
    var priorH4: Option<(real, real)>   // high and low
    var trace: Trace

    function Model(): Engine
      reads this
    {
      Engine(state, position, lastTs, Views(m15, h4, d1), Zones(obH4, obD1), Gauges(atr, vsma),
             Day(dayProfile, prior, curDate, tradedToday), Memory(m15Hist, priorH4), trace)
    }

    constructor (cfg: Config)
      ensures this.cfg == cfg && Model() == Start
    {
      this.cfg := cfg;
      state, position, lastTs := Idle, None, None;
      m15, h4, d1 := NewView, NewView, NewView;
      obH4, obD1 := OrderBlocks.NewZones, OrderBlocks.NewZones;
      atr, vsma := NewAtr, NewSma;
      dayProfile, prior, curDate, tradedToday := Profile.Empty, None, None, 0;
      m15Hist, priorH4 := [], None;
      trace := Trace([], [], []);
    }

    method Transit(ts: int, to: Phase, event: Event)
      modifies this`state, this`trace
      ensures Model() == Move(old(Model()), ts, to, event)
    {
      trace := trace.(log := trace.log + [Transition(ts, state, to, event)]);
      state := to;
    }

    method Emit(s: Signal)
      modifies this`trace
      ensures Model() == Say(old(Model()), s)
    {
      trace := trace.(signals := trace.signals + [s]);
    }

    // ---------------------------------------------------------------- decision

    /** `_enter`. */
    method TryOpen(bar: Candle, dir: Direction, poi: Poi, swept: Option<real>)
      modifies this`state, this`position, this`tradedToday, this`trace
      ensures Model() == TryEnter(cfg, old(Model()), bar, dir, StopFor(cfg, bar, dir, poi, swept))
    {
      var stop: real;
      if dir == Long {
        var floor := bar.low;
        if poi.DayBlock? || poi.HtfBlock? {
          floor := Min(floor, poi.ob.bottom);
        }
        if swept.Some? {
          floor := Min(floor, swept.value);
        }
        stop := floor - cfg.risk.buffer;
      } else {
        var ceil := bar.high;
        if poi.DayBlock? || poi.HtfBlock? {
          ceil := Max(ceil, poi.ob.top);
        }
        if swept.Some? {
          ceil := Max(ceil, swept.value);
        }
        stop := ceil + cfg.risk.buffer;
      }
      var dist := Abs(bar.close - stop);
      if dist <= 0.0 || dist > cfg.risk.maxDist {
        return;
      }
      position := Some(Position(dir, bar.ts, bar.close, stop, if atr.value.Some? then atr.value.value else 0.0, 0));
      tradedToday := tradedToday + 1;
      Transit(bar.ts, InTrade, Enter(dir));
      Emit(Signal(Entry, bar.ts, dir, bar.close, stop, 0));
    }

    /** `_resolve_poi`. */
    method FindPoi(bar: Candle, bias: Direction) returns (poi: Poi)
      modifies this`obH4, this`obD1
      ensures (Zones(obH4, obD1), poi) == Resolve(cfg, old(Model()), bar, bias)
    {
      var poc := Profile.PocPrice(cfg.profile, dayProfile);
      if poc.Some? && Abs(bar.close - poc.value) <= cfg.gates.pocTol {
        return AtPoc;
      }
      if prior.Some? && Abs(bar.close - prior.value.poc) <= cfg.gates.pocTol {
        return AtPriorPoc;
      }
      var (zones, ob) := OrderBlocks.PoiAt(obD1, bar.low, bar.high, bias);
      if ob.Some? {
        obD1 := zones;
        return DayBlock(ob.value);
      }
      var (zones', ob') := OrderBlocks.PoiAt(obH4, bar.low, bar.high, bias);
      if ob'.Some? {
        obH4 := zones';
        return HtfBlock(ob'.value);
      }
      return Nowhere;
    }

    /** `_confluence`: the checks that only read are counted before anything is used up. */
    method CountVotes(bar: Candle, event: Option<Structure.Event>, bias: Direction) returns (fired: nat)
      requires ValidConfig(cfg)
      ensures fired == Votes(cfg, Model(), bar, event, bias)
    {
      fired := 0;
      if Sweep(Model(), bar, bias).Some? {
        fired := fired + 1;
      }
      if Displaced(cfg, Gauges(atr, vsma), bar) {
        fired := fired + 1;
      }
      if Cisd(Memory(m15Hist, priorH4), bar, bias) {
        fired := fired + 1;
      }
      if Aligned(Views(m15, h4, d1), event, bias) {
        fired := fired + 1;
      }
      if GoodSide(cfg, Day(dayProfile, prior, curDate, tradedToday), bar, bias) {
        fired := fired + 1;
      }
    }

    method Weigh(bar: Candle, event: Option<Structure.Event>, bias: Direction)
      requires ValidConfig(cfg)
      modifies this`state, this`position, this`tradedToday, this`trace, this`obH4, this`obD1
      ensures Model() == Confluence(cfg, old(Model()), bar, event, bias)
    {
      var swept := Sweep(Model(), bar, bias);
      var fired := CountVotes(bar, event, bias);
      if fired + 1 < cfg.gates.needed {
        return;
      }
      var poi := FindPoi(bar, bias);
      if poi.Nowhere? {
        return;
      }
      TryOpen(bar, bias, poi, swept);
    }

    /** `_on_decision`. */
    method OnDecision(bar: Candle, event: Option<Structure.Event>)
      requires ValidConfig(cfg)
      modifies this`state, this`position, this`tradedToday, this`trace, this`obH4, this`obD1
      ensures Model() == Decide(cfg, old(Model()), bar, event)
    {
      var bias := Bias(Views(m15, h4, d1));
      if position.Some? {
        return;
      }
      if bias.None? {
        if state != Idle {
          Transit(bar.ts, Idle, Disarm);
        }
        return;
      }
      if state != Armed {
        Transit(bar.ts, Armed, Arm);
      }
      if tradedToday >= cfg.risk.maxTrades {
        return;
      }
      Weigh(bar, event, bias.value);
    }

    // ---------------------------------------------------------------- one bar

    method RollDay(c: Candle)
      requires ValidConfig(cfg)
      modifies this`dayProfile, this`prior, this`curDate, this`tradedToday
      ensures Model() == old(Model()).(day := Today(cfg, old(Model()).day, c))
    {
      var d := DateOf(c.ts);
      if curDate != Some(d) {
        if curDate.Some? && Profile.Ready(cfg.profile, dayProfile) {
          prior := Profile.LevelsOf(cfg.profile, dayProfile);
        }
        dayProfile := Profile.Empty;
        tradedToday := 0;
        curDate := Some(d);
      }
      dayProfile := Profile.Update(cfg.profile, dayProfile, c);
    }

    /** The daily and four-hour bars that `c` completes. */
    method FeedLonger(c: Candle)
      requires ValidConfig(cfg)
      modifies this`h4, this`d1, this`obH4, this`obD1, this`priorH4
      ensures Model() == Longer(cfg, old(Model()), c)
    {
      FeedDaily(c);
      FeedHtf(c);
    }

    method FeedDaily(c: Candle)
      requires ValidConfig(cfg)
      modifies this`d1, this`obD1
      ensures var daily := See(cfg, cfg.frames.d1, old(d1), c);
              d1 == daily.view && obD1 == Zoned(cfg, old(obD1), daily)
    {
      var daily := See(cfg, cfg.frames.d1, d1, c);
      d1 := daily.view;
      if daily.done.Some? {
        obD1 := OrderBlocks.Advance(cfg.blocks, obD1, daily.done.value, daily.event);
      }
    }

    method FeedHtf(c: Candle)
      requires ValidConfig(cfg)
      modifies this`h4, this`obH4, this`priorH4
      ensures var htf := See(cfg, cfg.frames.htf, old(h4), c);
              && h4 == htf.view && obH4 == Zoned(cfg, old(obH4), htf)
              && priorH4 == if htf.done.Some? then Some((htf.done.value.high, htf.done.value.low)) else old(priorH4)
    {
      var htf := See(cfg, cfg.frames.htf, h4, c);
      h4 := htf.view;
      if htf.done.Some? {
        obH4 := OrderBlocks.Advance(cfg.blocks, obH4, htf.done.value, htf.event);
        priorH4 := Some((htf.done.value.high, htf.done.value.low));
      }
    }

    /** Deciding, with a note of the fed bar's date should it enter. */
    method DecideOn(c: Candle, bar: Candle, event: Option<Structure.Event>)
      requires ValidConfig(cfg)
      modifies this`state, this`position, this`tradedToday, this`trace, this`obH4, this`obD1
      ensures Model() == Decided(cfg, old(Model()), c, bar, event)
    {
      var flat := position.None?;
      OnDecision(bar, event);
      if flat && position.Some? {
        trace := trace.(entryDates := trace.entryDates + [DateOf(c.ts)]);
      }
    }

    method Measure(bar: Candle)
      requires ValidConfig(cfg)
      modifies this`atr, this`vsma
      ensures Model() == old(Model()).(gauges := Measured(cfg, old(Model()).gauges, bar))
    {
      atr := UpdateAtr(cfg.blocks.atrPeriod, atr, bar.high, bar.low, bar.close);
      if bar.volume > 0.0 {
        vsma := UpdateSma(cfg.gates.volPeriod, vsma, bar.volume);
      }
    }

    method RememberBar(bar: Candle)
      modifies this`m15Hist
      ensures m15Hist == Remember(old(m15Hist), bar)
    {
      m15Hist := m15Hist + [bar];
      if |m15Hist| > 3 {
        m15Hist := m15Hist[1..];
      }
    }

    /** The trigger bar that `c` completes. */
    method FeedTrigger(c: Candle)
      requires ValidConfig(cfg)
      modifies this
      ensures Model() == Triggered(cfg, old(Model()), c)
    {
      var s := See(cfg, cfg.frames.trigger, m15, c);
      m15 := s.view;
      if s.done.Some? {
        var bar := s.done.value;
        Measure(bar);
        DecideOn(c, bar, s.event);
        RememberBar(bar);
      }
    }

    method Absorb(c: Candle)
      requires ValidConfig(cfg)
      modifies this
      ensures Model() == Absorbed(cfg, old(Model()), c)
    {
      lastTs := Some(c.ts);
      RollDay(c);
      FeedLonger(c);
    }

    method Age()
      modifies this`position
      ensures Model() == Held(old(Model()))
    {
      if position.Some? {
        position := Some(position.value.(barsHeld := position.value.barsHeld + 1));
      }
    }

    /** `on_candle`. */
    method Feed(c: Candle) returns (outcome: Outcome)
      requires ValidConfig(cfg) && SmcRuns.Inv(cfg, Model())
      modifies this
      ensures (Model(), outcome) == OnCandle(cfg, old(Model()), c)
      ensures SmcRuns.Inv(cfg, Model())
    {
      SmcRuns.OnCandleKeeps(cfg, Model(), c);
      if !Valid(c) {
        return Malformed;
      }
      if lastTs.Some? && c.ts <= lastTs.value {
        return if cfg.strict then OutOfOrder else Dropped;
      }
      Absorb(c);
      FeedTrigger(c);
      Age();
      return Done;
    }

    /** `force_flat`. */
    method BrokerClosed(ts: int)
      requires SmcRuns.Inv(cfg, Model())
      modifies this`state, this`position, this`trace
      ensures Model() == ForceFlat(old(Model()), ts) && SmcRuns.Inv(cfg, Model())
    {
      SmcRuns.ForceFlatKeeps(cfg, Model(), ts);
      if position.None? {
        return;
      }
      var p := position.value;
      trace := trace.(log := trace.log + [Transition(ts, InTrade, Armed, ExitBroker)]);
      position := None;
      state := Armed;
      Emit(Signal(Exit, ts, p.dir, p.stop, p.stop, p.barsHeld));
    }
  }
}
