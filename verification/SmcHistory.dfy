/** The engine's running state against the bars it has been fed: its timeframes are those the batch
    aggregation gives, its trends those of the breaks over the whole history, its blocks those of the
    block tracker over the same bars and breaks. */
module SmcHistory {
  import opened Prelude
  import opened Models
  import opened SmcEngine
  import opened SmcRuns
  import Aggregation
  import Structure
  import OrderBlocks
  import Evictions
  import Profile

  // ------------------------------------------------------------------ timeframes and trends

  /** The bars the engine has accepted. */
  function Fed(cfg: Config, inputs: seq<Input>): seq<Candle>
    requires ValidConfig(cfg)
    decreases |inputs|
  {
    if inputs == [] then []
    else
      var most, input := inputs[..|inputs| - 1], inputs[|inputs| - 1];
      Fed(cfg, most) + if input.Bar? && Accepted(Run(cfg, most), input.c) then [input.c] else []
  }

  /** The completed bars of a timeframe. */
  function Completed(minutes: int, fed: seq<Candle>): seq<Candle>
    requires minutes >= 1
  {
    Aggregation.Streamed(minutes, fed).done
  }

  /** What the structure tracker says of them. */
  function Breaks(cfg: Config, minutes: int, fed: seq<Candle>): Structure.Log
    requires minutes >= 1
  {
    Structure.Run(cfg.swings, Completed(minutes, fed))
  }

  predicate ViewOf(cfg: Config, minutes: int, fed: seq<Candle>, v: View)
    requires minutes >= 1
  {
    v.cur == Aggregation.Streamed(minutes, fed).cur && v.trend == Breaks(cfg, minutes, fed).tracker
  }

  lemma {:induction false} RunSnoc(cfg: Structure.Config, bars: seq<Candle>, b: Candle)
    ensures var before, after := Structure.Run(cfg, bars), Structure.Run(cfg, bars + [b]);
            var (t, e) := Structure.Update(cfg, before.tracker, b);
            after == Structure.Log(t, before.events + [e])
  {
    assert (bars + [b])[..|bars|] == bars;
  }

  lemma {:induction false} StreamSnoc(minutes: int, fed: seq<Candle>, c: Candle)
    requires minutes >= 1
    ensures var s := Aggregation.Streamed(minutes, fed);
            var (cur, done) := Aggregation.Fold(minutes, s.cur, c);
            Aggregation.Streamed(minutes, fed + [c]) ==
            Aggregation.Stream(cur, if done.Some? then s.done + [done.value] else s.done)
  {
    assert (fed + [c])[..|fed|] == fed;
    var s := Aggregation.Streamed(minutes, fed);
    assert s.done + [] == s.done;
  }

  /** A timeframe one bar on; the bar it completes, if any, and its break are the latest ones. */
  lemma {:induction false} SeeIs(cfg: Config, minutes: int, fed: seq<Candle>, v: View, c: Candle)
    requires minutes >= 1 && ViewOf(cfg, minutes, fed, v)
    ensures var s := See(cfg, minutes, v, c);
            var before, after := Breaks(cfg, minutes, fed), Breaks(cfg, minutes, fed + [c]);
            && ViewOf(cfg, minutes, fed + [c], s.view)
            && Completed(minutes, fed + [c]) == Completed(minutes, fed) + (if s.done.Some? then [s.done.value] else [])
            && after.events == before.events + (if s.done.Some? then [s.event] else [])
  {
    StreamSnoc(minutes, fed, c);
    var s := See(cfg, minutes, v, c);
    if s.done.Some? {
      RunSnoc(cfg.swings, Completed(minutes, fed), s.done.value);
    } else {
      assert Completed(minutes, fed) + [] == Completed(minutes, fed);
      assert Breaks(cfg, minutes, fed).events + [] == Breaks(cfg, minutes, fed).events;
    }
  }

  predicate AllViews(cfg: Config, fed: seq<Candle>, v: Views)
    requires ValidConfig(cfg)
  {
    && ViewOf(cfg, cfg.frames.trigger, fed, v.trigger)
    && ViewOf(cfg, cfg.frames.htf, fed, v.htf)
    && ViewOf(cfg, cfg.frames.d1, fed, v.d1)
  }

  /** The timeframes of the engine once a bar has been absorbed and its trigger bar seen. */
  function ViewsAfter(cfg: Config, v: Views, c: Candle): Views
    requires ValidConfig(cfg)
  {
    Views(See(cfg, cfg.frames.trigger, v.trigger, c).view, See(cfg, cfg.frames.htf, v.htf, c).view,
          See(cfg, cfg.frames.d1, v.d1, c).view)
  }

  lemma {:induction false} ViewsStep(cfg: Config, fed: seq<Candle>, v: Views, c: Candle)
    requires ValidConfig(cfg) && AllViews(cfg, fed, v)
    ensures AllViews(cfg, fed + [c], ViewsAfter(cfg, v, c))
  {
    SeeIs(cfg, cfg.frames.trigger, fed, v.trigger, c);
    SeeIs(cfg, cfg.frames.htf, fed, v.htf, c);
    SeeIs(cfg, cfg.frames.d1, fed, v.d1, c);
  }

  lemma {:induction false} OnCandleViews(cfg: Config, e: Engine, c: Candle)
    requires ValidConfig(cfg)
    ensures OnCandle(cfg, e, c).0.views == if Accepted(e, c) then ViewsAfter(cfg, e.views, c) else e.views
  {
    if Accepted(e, c) {
      var e1 := Absorbed(cfg, e, c);
      var s := See(cfg, cfg.frames.trigger, e1.views.trigger, c);
      if s.done.Some? {
        DecideFrame(cfg, Facing(cfg, e1, s), s.done.value, s.event);
      }
    }
  }

  /** In every run each timeframe of the engine is what the bars so far aggregate to, and its trend
      what the structure tracker makes of the completed ones. */
  lemma {:induction false} ViewsAreHistory(cfg: Config, inputs: seq<Input>)
    requires ValidConfig(cfg)
    ensures AllViews(cfg, Fed(cfg, inputs), Run(cfg, inputs).views)
    decreases |inputs|
  {
    if inputs != [] {
      var most, input := inputs[..|inputs| - 1], inputs[|inputs| - 1];
      ViewsAreHistory(cfg, most);
      var e, fed := Run(cfg, most), Fed(cfg, most);
      assert fed + [] == fed;
      if input.Bar? {
        OnCandleViews(cfg, e, input.c);
        if Accepted(e, input.c) {
          ViewsStep(cfg, fed, e.views, input.c);
        }
      }
    }
  }

  /** Accepted bars come in strictly ascending order. */
  lemma {:induction false} FedAscends(cfg: Config, inputs: seq<Input>)
    requires ValidConfig(cfg)
    ensures var fed, last := Fed(cfg, inputs), Run(cfg, inputs).last;
            && Aggregation.Ascending(fed)
            && (last.None? <==> fed == [])
            && (fed != [] ==> last == Some(fed[|fed| - 1].ts))
    decreases |inputs|
  {
    if inputs != [] {
      var most, input := inputs[..|inputs| - 1], inputs[|inputs| - 1];
      FedAscends(cfg, most);
      var e, fed := Run(cfg, most), Fed(cfg, most);
      assert fed + [] == fed;
      NextLast(cfg, e, input);
      if input.Bar? && Accepted(e, input.c) {
        AscendingSnoc(fed, input.c);
      }
    }
  }

  lemma NextLast(cfg: Config, e: Engine, input: Input)
    requires ValidConfig(cfg)
    ensures Next(cfg, e, input).last == if input.Bar? && Accepted(e, input.c) then Some(input.c.ts) else e.last
  {
    if input.Bar? {
      LastIs(cfg, e, input.c);
    }
  }

  lemma {:induction false} AscendingSnoc(cs: seq<Candle>, c: Candle)
    requires Aggregation.Ascending(cs) && (cs != [] ==> cs[|cs| - 1].ts < c.ts)
    ensures Aggregation.Ascending(cs + [c])
  {
    var more := cs + [c];
    forall i, j | 0 <= i < j < |more| ensures more[i].ts < more[j].ts {
      assert i < |cs| - 1 ==> cs[i].ts < cs[|cs| - 1].ts;
    }
  }

  lemma LastIs(cfg: Config, e: Engine, c: Candle)
    requires ValidConfig(cfg)
    ensures OnCandle(cfg, e, c).0.last == if Accepted(e, c) then Some(c.ts) else e.last
  {
    if !Accepted(e, c) {
      return;
    }
    var e1 := Absorbed(cfg, e, c);
    var s := See(cfg, cfg.frames.trigger, e1.views.trigger, c);
    if s.done.Some? {
      DecideFrame(cfg, Facing(cfg, e1, s), s.done.value, s.event);
    }
  }

  /** The bars of a timeframe that the engine has seen completed are those of the batch aggregation,
      without the last, which is still in progress. */
  lemma {:induction false} CompletedAreBuckets(cfg: Config, inputs: seq<Input>, minutes: int)
    requires ValidConfig(cfg) && minutes >= 1 && Fed(cfg, inputs) != []
    ensures var bs := Aggregation.Buckets(minutes, Fed(cfg, inputs));
            bs != [] && Completed(minutes, Fed(cfg, inputs)) == bs[..|bs| - 1]
  {
    var fed := Fed(cfg, inputs);
    FedAscends(cfg, inputs);
    Aggregation.AscendingIsInOrder(minutes, fed);
    Aggregation.StreamIsBuckets(minutes, fed);
    var s := Aggregation.Streamed(minutes, fed);
    assert (s.done + [s.cur.value])[..|s.done|] == s.done;
  }

  // ------------------------------------------------------------------ entries and the trend

  /** Whether one more bar opens a position. */
  predicate EntersOn(cfg: Config, e: Engine, c: Candle)
    requires ValidConfig(cfg)
  {
    e.pos.None? && OnCandle(cfg, e, c).0.pos.Some?
  }

  lemma {:induction false} EntryIsDecided(cfg: Config, e: Engine, c: Candle)
    requires ValidConfig(cfg) && EntersOn(cfg, e, c)
    ensures Accepted(e, c)
    ensures var e1 := Absorbed(cfg, e, c);
            var s := See(cfg, cfg.frames.trigger, e1.views.trigger, c);
            && s.done.Some? && Enters(cfg, Facing(cfg, e1, s), s.done.value, s.event)
            && Facing(cfg, e1, s).views == ViewsAfter(cfg, e.views, c)
            && OnCandle(cfg, e, c).0.pos.value.dir == Bias(ViewsAfter(cfg, e.views, c)).value
  {
    var e1 := Absorbed(cfg, e, c);
    var s := See(cfg, cfg.frames.trigger, e1.views.trigger, c);
    if s.done.Some? {
      DecideIs(cfg, Facing(cfg, e1, s), s.done.value, s.event);
    }
  }

  /** After every run, a bar that opens a position does so in the direction of the latest break of
      structure among all completed four-hour bars, and the latest break among the completed days, if
      there has been one, is in the same direction. */
  lemma {:induction false} EntryFollowsTrend(cfg: Config, inputs: seq<Input>, c: Candle)
    requires ValidConfig(cfg) && EntersOn(cfg, Run(cfg, inputs), c)
    ensures var dir := OnCandle(cfg, Run(cfg, inputs), c).0.pos.value.dir;
            var fed := Fed(cfg, inputs) + [c];
            && Structure.LastDirection(Breaks(cfg, cfg.frames.htf, fed).events) == Some(dir)
            && Structure.LastDirection(Breaks(cfg, cfg.frames.d1, fed).events) != Some(Opposite(dir))
  {
    var e, fed := Run(cfg, inputs), Fed(cfg, inputs) + [c];
    ViewsAreHistory(cfg, inputs);
    EntryIsDecided(cfg, e, c);
    ViewsStep(cfg, Fed(cfg, inputs), e.views, c);
    Structure.RunMatches(cfg.swings, Completed(cfg.frames.htf, fed));
    Structure.RunMatches(cfg.swings, Completed(cfg.frames.d1, fed));
  }

  // ------------------------------------------------------------------ blocks

  /** The block, if any, of the daily (of the four-hour) zones that a point of interest is. */
  function BlockOf(poi: Poi, daily: bool): seq<OrderBlocks.Block> {
    if (daily && poi.DayBlock?) || (!daily && poi.HtfBlock?) then [poi.ob] else []
  }

  function UsedBy(cfg: Config, e: Engine, bar: Candle, event: Option<Structure.Event>,
                  daily: bool): seq<OrderBlocks.Block>
    requires ValidConfig(cfg)
  {
    if Looks(cfg, e, bar, event) then BlockOf(PoiOf(cfg, e, bar), daily) else []
  }

  /** What a bar uses up. */
  function UsedOn(cfg: Config, e: Engine, c: Candle, daily: bool): seq<OrderBlocks.Block>
    requires ValidConfig(cfg)
  {
    var e1 := Absorbed(cfg, e, c);
    var s := See(cfg, cfg.frames.trigger, e1.views.trigger, c);
    if Accepted(e, c) && s.done.Some? then UsedBy(cfg, Facing(cfg, e1, s), s.done.value, s.event, daily) else []
  }

  /** What a run uses up, in order. */
  function Used(cfg: Config, inputs: seq<Input>, daily: bool): seq<OrderBlocks.Block>
    requires ValidConfig(cfg)
    decreases |inputs|
  {
    if inputs == [] then []
    else
      var most, input := inputs[..|inputs| - 1], inputs[|inputs| - 1];
      Used(cfg, most, daily) + if input.Bar? then UsedOn(cfg, Run(cfg, most), input.c, daily) else []
  }

  function Handed(out: seq<Option<OrderBlocks.Block>>): seq<OrderBlocks.Block>
    decreases |out|
  {
    if out == [] then []
    else Handed(out[..|out| - 1]) + if out[|out| - 1].Some? then [out[|out| - 1].value] else []
  }

  /** Bars and breaks of a timeframe, and the blocks used up so far. */
  datatype Past = Past(bars: seq<Candle>, events: seq<Option<Structure.Event>>, used: seq<OrderBlocks.Block>)

  function PastOf(cfg: Config, minutes: int, fed: seq<Candle>, used: seq<OrderBlocks.Block>): Past
    requires minutes >= 1
  {
    Past(Completed(minutes, fed), Breaks(cfg, minutes, fed).events, used)
  }

  predicate IsTracking(cfg: OrderBlocks.Limits, z: OrderBlocks.Zones, past: Past, ops: seq<OrderBlocks.Op>)
    requires OrderBlocks.ValidLimits(cfg)
  {
    var w := OrderBlocks.Run(cfg, ops);
    w.t == z && w.h.bars == past.bars && w.h.events == past.events && Handed(w.out) == past.used
  }

  /** These zones are what the block tracker makes of that past. */
  ghost predicate Tracks(cfg: OrderBlocks.Limits, z: OrderBlocks.Zones, past: Past)
    requires OrderBlocks.ValidLimits(cfg)
  {
    exists ops :: IsTracking(cfg, z, past, ops)
  }

  lemma {:induction false} BlocksSnoc(cfg: OrderBlocks.Limits, ops: seq<OrderBlocks.Op>, op: OrderBlocks.Op)
    requires OrderBlocks.ValidLimits(cfg)
    ensures OrderBlocks.Run(cfg, ops + [op]) == OrderBlocks.Step(cfg, OrderBlocks.Run(cfg, ops), op)
  {
    assert (ops + [op])[..|ops|] == ops;
  }

  lemma {:induction false} HandedSnoc(out: seq<Option<OrderBlocks.Block>>, r: Option<OrderBlocks.Block>)
    ensures Handed(out + [r]) == Handed(out) + if r.Some? then [r.value] else []
  {
    assert (out + [r])[..|out|] == out;
  }

  lemma {:induction false} BarTracks(cfg: OrderBlocks.Limits, z: OrderBlocks.Zones, past: Past, b: Candle,
                                     e: Option<Structure.Event>)
    requires OrderBlocks.ValidLimits(cfg) && Tracks(cfg, z, past)
    ensures Tracks(cfg, OrderBlocks.Advance(cfg, z, b, e), past.(bars := past.bars + [b], events := past.events + [e]))
  {
    var ops :| IsTracking(cfg, z, past, ops);
    BarTracksOn(cfg, z, past, ops, b, e);
  }

  lemma {:induction false} BarTracksOn(cfg: OrderBlocks.Limits, z: OrderBlocks.Zones, past: Past,
                                       ops: seq<OrderBlocks.Op>, b: Candle, e: Option<Structure.Event>)
    requires OrderBlocks.ValidLimits(cfg) && IsTracking(cfg, z, past, ops)
    ensures Tracks(cfg, OrderBlocks.Advance(cfg, z, b, e), past.(bars := past.bars + [b], events := past.events + [e]))
  {
    BarTracking(cfg, z, past, ops, b, e);
  }

  lemma {:induction false} BarTracking(cfg: OrderBlocks.Limits, z: OrderBlocks.Zones, past: Past,
                                       ops: seq<OrderBlocks.Op>, b: Candle, e: Option<Structure.Event>)
    requires OrderBlocks.ValidLimits(cfg) && IsTracking(cfg, z, past, ops)
    ensures IsTracking(cfg, OrderBlocks.Advance(cfg, z, b, e),
                       past.(bars := past.bars + [b], events := past.events + [e]), ops + [OrderBlocks.Bar(b, e)])
  {
    BlocksSnoc(cfg, ops, OrderBlocks.Bar(b, e));
    HandedSnoc(OrderBlocks.Run(cfg, ops).out, None);
  }

  lemma {:induction false} AskTracks(cfg: OrderBlocks.Limits, z: OrderBlocks.Zones, past: Past, lo: real, hi: real,
                                     d: Direction)
    requires OrderBlocks.ValidLimits(cfg) && Tracks(cfg, z, past)
    ensures var (z', r) := OrderBlocks.PoiAt(z, lo, hi, d);
            Tracks(cfg, z', past.(used := past.used + if r.Some? then [r.value] else []))
  {
    var ops :| IsTracking(cfg, z, past, ops);
    AskTracksOn(cfg, z, past, ops, lo, hi, d);
  }

  lemma {:induction false} AskTracksOn(cfg: OrderBlocks.Limits, z: OrderBlocks.Zones, past: Past,
                                       ops: seq<OrderBlocks.Op>, lo: real, hi: real, d: Direction)
    requires OrderBlocks.ValidLimits(cfg) && IsTracking(cfg, z, past, ops)
    ensures var (z', r) := OrderBlocks.PoiAt(z, lo, hi, d);
            Tracks(cfg, z', past.(used := past.used + if r.Some? then [r.value] else []))
  {
    AskTracking(cfg, z, past, ops, lo, hi, d);
  }

  lemma {:induction false} AskTracking(cfg: OrderBlocks.Limits, z: OrderBlocks.Zones, past: Past,
                                       ops: seq<OrderBlocks.Op>, lo: real, hi: real, d: Direction)
    requires OrderBlocks.ValidLimits(cfg) && IsTracking(cfg, z, past, ops)
    ensures var (z', r) := OrderBlocks.PoiAt(z, lo, hi, d);
            IsTracking(cfg, z', past.(used := past.used + if r.Some? then [r.value] else []),
                       ops + [OrderBlocks.Ask(lo, hi, d)])
  {
    BlocksSnoc(cfg, ops, OrderBlocks.Ask(lo, hi, d));
    HandedSnoc(OrderBlocks.Run(cfg, ops).out, OrderBlocks.PoiAt(z, lo, hi, d).1);
  }

  lemma {:induction false} ZonedTracks(cfg: Config, minutes: int, fed: seq<Candle>, used: seq<OrderBlocks.Block>,
                                       v: View, z: OrderBlocks.Zones, c: Candle)
    requires ValidConfig(cfg) && minutes >= 1 && ViewOf(cfg, minutes, fed, v)
    requires Tracks(cfg.blocks, z, PastOf(cfg, minutes, fed, used))
    ensures Tracks(cfg.blocks, Zoned(cfg, z, See(cfg, minutes, v, c)), PastOf(cfg, minutes, fed + [c], used))
  {
    var s, past := See(cfg, minutes, v, c), PastOf(cfg, minutes, fed, used);
    SeeIs(cfg, minutes, fed, v, c);
    if s.done.Some? {
      BarTracks(cfg.blocks, z, past, s.done.value, s.event);
      assert PastOf(cfg, minutes, fed + [c], used)
          == past.(bars := past.bars + [s.done.value], events := past.events + [s.event]);
    } else {
      assert PastOf(cfg, minutes, fed + [c], used) == past;
    }
  }

  ghost predicate AllTracked(cfg: Config, fed: seq<Candle>, usedHtf: seq<OrderBlocks.Block>,
                             usedD1: seq<OrderBlocks.Block>, z: Zones)
    requires ValidConfig(cfg)
  {
    && Tracks(cfg.blocks, z.htf, PastOf(cfg, cfg.frames.htf, fed, usedHtf))
    && Tracks(cfg.blocks, z.d1, PastOf(cfg, cfg.frames.d1, fed, usedD1))
  }

  lemma {:induction false} ResolveTracks(cfg: Config, fed: seq<Candle>, usedHtf: seq<OrderBlocks.Block>,
                                         usedD1: seq<OrderBlocks.Block>, e: Engine, bar: Candle, bias: Direction)
    requires ValidConfig(cfg) && AllTracked(cfg, fed, usedHtf, usedD1, e.zones)
    ensures var (zones, poi) := Resolve(cfg, e, bar, bias);
            AllTracked(cfg, fed, usedHtf + BlockOf(poi, false), usedD1 + BlockOf(poi, true), zones)
  {
    assert usedHtf + [] == usedHtf && usedD1 + [] == usedD1;
    if Resolve(cfg, e, bar, bias).1.DayBlock? {
      AskPast(cfg, cfg.frames.d1, fed, usedD1, e.zones.d1, bar, bias);
    } else if Resolve(cfg, e, bar, bias).1.HtfBlock? {
      AskPast(cfg, cfg.frames.htf, fed, usedHtf, e.zones.htf, bar, bias);
    }
  }

  lemma {:induction false} AskPast(cfg: Config, minutes: int, fed: seq<Candle>, used: seq<OrderBlocks.Block>,
                                   z: OrderBlocks.Zones, bar: Candle, bias: Direction)
    requires ValidConfig(cfg) && minutes >= 1 && Tracks(cfg.blocks, z, PastOf(cfg, minutes, fed, used))
    ensures var (z', r) := OrderBlocks.PoiAt(z, bar.low, bar.high, bias);
            r.Some? ==> Tracks(cfg.blocks, z', PastOf(cfg, minutes, fed, used + [r.value]))
  {
    AskTracks(cfg.blocks, z, PastOf(cfg, minutes, fed, used), bar.low, bar.high, bias);
  }

  lemma {:induction false} DecideTracks(cfg: Config, fed: seq<Candle>, usedHtf: seq<OrderBlocks.Block>,
                                        usedD1: seq<OrderBlocks.Block>,
                                        e: Engine, bar: Candle, event: Option<Structure.Event>)
    requires ValidConfig(cfg) && AllTracked(cfg, fed, usedHtf, usedD1, e.zones)
    ensures AllTracked(cfg, fed, usedHtf + UsedBy(cfg, e, bar, event, false), usedD1 + UsedBy(cfg, e, bar, event, true),
                       Decide(cfg, e, bar, event).zones)
  {
    DecideIs(cfg, e, bar, event);
    assert usedHtf + [] == usedHtf && usedD1 + [] == usedD1;
    if Looks(cfg, e, bar, event) {
      ResolveTracks(cfg, fed, usedHtf, usedD1, e, bar, Bias(e.views).value);
    }
  }

  lemma {:induction false} AbsorbedTracks(cfg: Config, fed: seq<Candle>, usedHtf: seq<OrderBlocks.Block>,
                                          usedD1: seq<OrderBlocks.Block>, e: Engine, c: Candle)
    requires ValidConfig(cfg) && AllViews(cfg, fed, e.views) && AllTracked(cfg, fed, usedHtf, usedD1, e.zones)
    ensures AllTracked(cfg, fed + [c], usedHtf, usedD1, Absorbed(cfg, e, c).zones)
  {
    ZonedTracks(cfg, cfg.frames.htf, fed, usedHtf, e.views.htf, e.zones.htf, c);
    ZonedTracks(cfg, cfg.frames.d1, fed, usedD1, e.views.d1, e.zones.d1, c);
  }

  lemma {:induction false} OnCandleTracks(cfg: Config, fed: seq<Candle>, usedHtf: seq<OrderBlocks.Block>,
                                          usedD1: seq<OrderBlocks.Block>, e: Engine, c: Candle)
    requires ValidConfig(cfg) && Accepted(e, c) && AllViews(cfg, fed, e.views)
             && AllTracked(cfg, fed, usedHtf, usedD1, e.zones)
    ensures AllTracked(cfg, fed + [c], usedHtf + UsedOn(cfg, e, c, false), usedD1 + UsedOn(cfg, e, c, true),
                       OnCandle(cfg, e, c).0.zones)
  {
    AbsorbedTracks(cfg, fed, usedHtf, usedD1, e, c);
    var e1 := Absorbed(cfg, e, c);
    var s := See(cfg, cfg.frames.trigger, e1.views.trigger, c);
    assert usedHtf + [] == usedHtf && usedD1 + [] == usedD1;
    if s.done.Some? {
      DecideTracks(cfg, fed + [c], usedHtf, usedD1, Facing(cfg, e1, s), s.done.value, s.event);
    }
  }

  lemma {:induction false} StartTracks(cfg: Config, minutes: int)
    requires ValidConfig(cfg) && minutes >= 1
    ensures Tracks(cfg.blocks, OrderBlocks.NewZones, PastOf(cfg, minutes, [], []))
  {
    assert IsTracking(cfg.blocks, OrderBlocks.NewZones, PastOf(cfg, minutes, [], []), []);
  }

  /** In every run both sets of blocks are those of the block tracker over the completed bars, their
      breaks and what has been used up. */
  lemma {:induction false} ZonesAreHistory(cfg: Config, inputs: seq<Input>)
    requires ValidConfig(cfg)
    ensures AllTracked(cfg, Fed(cfg, inputs), Used(cfg, inputs, false), Used(cfg, inputs, true), Run(cfg, inputs).zones)
    decreases |inputs|
  {
    if inputs == [] {
      StartTracks(cfg, cfg.frames.htf);
      StartTracks(cfg, cfg.frames.d1);
    } else {
      var most, input := inputs[..|inputs| - 1], inputs[|inputs| - 1];
      ZonesAreHistory(cfg, most);
      ViewsAreHistory(cfg, most);
      var e, fed, htf, d1 := Run(cfg, most), Fed(cfg, most), Used(cfg, most, false), Used(cfg, most, true);
      assert fed + [] == fed && htf + [] == htf && d1 + [] == d1;
      if input.Bar? && Accepted(e, input.c) {
        OnCandleTracks(cfg, fed, htf, d1, e, input.c);
      }
    }
  }

  ghost predicate BirthsDiffer(blocks: seq<OrderBlocks.Block>) {
    forall i, j :: 0 <= i < j < |blocks| ==> blocks[i].born != blocks[j].born
  }

  lemma {:induction false} HandedFrom(out: seq<Option<OrderBlocks.Block>>, i: nat) returns (k: nat)
    requires i < |Handed(out)|
    ensures k < |out| && out[k] == Some(Handed(out)[i])
    decreases |out|
  {
    var n := |out| - 1;
    if i < |Handed(out[..n])| {
      k := HandedFrom(out[..n], i);
    } else {
      k := n;
    }
  }

  lemma {:induction false} HandedDiffer(out: seq<Option<OrderBlocks.Block>>)
    requires OrderBlocks.AllDifferent(out)
    ensures BirthsDiffer(Handed(out))
    decreases |out|
  {
    if out != [] {
      var n := |out| - 1;
      HandedDiffer(out[..n]);
      var older := Handed(out[..n]);
      if out[n].Some? {
        forall i | 0 <= i < |older| ensures older[i].born != out[n].value.born {
          var k := HandedFrom(out[..n], i);
          assert out[k] == out[..n][k];
        }
      }
    }
  }

  /** In no run does the engine use a block of either timeframe twice. */
  lemma {:induction false} NoBlockUsedTwice(cfg: Config, inputs: seq<Input>, daily: bool)
    requires ValidConfig(cfg)
    ensures BirthsDiffer(Used(cfg, inputs, daily))
  {
    ZonesAreHistory(cfg, inputs);
    var minutes := if daily then cfg.frames.d1 else cfg.frames.htf;
    var z := if daily then Run(cfg, inputs).zones.d1 else Run(cfg, inputs).zones.htf;
    var past := PastOf(cfg, minutes, Fed(cfg, inputs), Used(cfg, inputs, daily));
    assert Tracks(cfg.blocks, z, past);
    var ops :| IsTracking(cfg.blocks, z, past, ops);
    OrderBlocks.RunKeeps(cfg.blocks, ops);
    HandedDiffer(OrderBlocks.Run(cfg.blocks, ops).out);
  }

  /** The block is live in the history of those bars and breaks. */
  ghost predicate LiveIn(cfg: OrderBlocks.Limits, past: Past, ob: OrderBlocks.Block)
    requires OrderBlocks.ValidLimits(cfg)
  {
    exists h: OrderBlocks.History :: h.bars == past.bars && h.events == past.events && OrderBlocks.Live(cfg, h, ob)
  }

  lemma {:induction false} AskedIsLive(cfg: OrderBlocks.Limits, z: OrderBlocks.Zones, past: Past, lo: real, hi: real,
                                       d: Direction)
    requires OrderBlocks.ValidLimits(cfg) && Tracks(cfg, z, past) && OrderBlocks.PoiAt(z, lo, hi, d).1.Some?
    ensures LiveIn(cfg, past, OrderBlocks.PoiAt(z, lo, hi, d).1.value)
  {
    var ops :| IsTracking(cfg, z, past, ops);
    Evictions.AskExact(cfg, ops, lo, hi, d);
    var h := OrderBlocks.Run(cfg, ops).h;
    assert h.bars == past.bars && h.events == past.events;
  }

  lemma {:induction false} UsedByIsLive(cfg: Config, fed: seq<Candle>, usedHtf: seq<OrderBlocks.Block>,
                                        usedD1: seq<OrderBlocks.Block>,
                                        e: Engine, bar: Candle, event: Option<Structure.Event>, daily: bool)
    requires ValidConfig(cfg) && AllTracked(cfg, fed, usedHtf, usedD1, e.zones)
    requires UsedBy(cfg, e, bar, event, daily) != []
    ensures LiveIn(cfg.blocks,
                   PastOf(cfg, if daily then cfg.frames.d1 else cfg.frames.htf, fed, if daily then usedD1 else usedHtf),
                   UsedBy(cfg, e, bar, event, daily)[0])
  {
    var bias := Bias(e.views).value;
    if daily {
      AskedIsLive(cfg.blocks, e.zones.d1, PastOf(cfg, cfg.frames.d1, fed, usedD1), bar.low, bar.high, bias);
    } else {
      AskedIsLive(cfg.blocks, e.zones.htf, PastOf(cfg, cfg.frames.htf, fed, usedHtf), bar.low, bar.high, bias);
    }
  }

  /** Every block the engine uses was born of a displacement bar of its timeframe, confirmed in time by
      a break of that timeframe's structure, and not traded into or closed through since. */
  lemma {:induction false} UsedBlockIsLive(cfg: Config, inputs: seq<Input>, c: Candle, daily: bool)
    requires ValidConfig(cfg) && UsedOn(cfg, Run(cfg, inputs), c, daily) != []
    ensures var minutes := if daily then cfg.frames.d1 else cfg.frames.htf;
            LiveIn(cfg.blocks, PastOf(cfg, minutes, Fed(cfg, inputs) + [c], Used(cfg, inputs, daily)),
                   UsedOn(cfg, Run(cfg, inputs), c, daily)[0])
  {
    var e, fed, htf, d1 := Run(cfg, inputs), Fed(cfg, inputs), Used(cfg, inputs, false), Used(cfg, inputs, true);
    var e1 := Absorbed(cfg, e, c);
    var s := See(cfg, cfg.frames.trigger, e1.views.trigger, c);
    ZonesAreHistory(cfg, inputs);
    ViewsAreHistory(cfg, inputs);
    AbsorbedTracks(cfg, fed, htf, d1, e, c);
    UsedByIsLive(cfg, fed + [c], htf, d1, Facing(cfg, e1, s), s.done.value, s.event, daily);
  }
}
