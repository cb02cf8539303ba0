/** A run of the multi-timeframe engine, from its start, in which a block is used up and no position
    opened. */
module SmcWitness {
  import opened Prelude
  import opened Models
  import opened Indicators
  import opened SmcEngine
  import opened SmcRuns
  import opened SmcHistory
  import Aggregation
  import Structure
  import OrderBlocks
  import Profile

  /** Short frames, the smallest windows, one check needed; the profile never gets ready. */
  const Tiny := Config(Frames(1, 2, 1440), Structure.Config(1, 1), OrderBlocks.Limits(0.5, 1.0, 1, 10, 1, 100),
                       Profile.Config(1.0, 0.7, 0.7, 0.3, 1000, 5000, true, true),
                       Gates(1.5, 20, 2.0, 1), Risk(0.5, 2.0, 2), true)

  // one bar every two minutes, so that each is a trigger bar and a four-hour bar of its own
  const B0 := Candle(0, 100.0, 100.0, 100.0, 100.0, 0.0)
  const B1 := Candle(120, 100.0, 101.0, 100.0, 100.0, 0.0)     // a swing high
  const B2 := Candle(240, 100.0, 100.0, 99.0, 99.0, 0.0)       // the candle the block is made of
  const B3 := Candle(360, 99.0, 103.0, 99.0, 103.0, 0.0)       // displacement, through the swing high
  const B4 := Candle(480, 103.0, 103.0, 103.0, 103.0, 0.0)     // completes the bar before it

  const High := Structure.Swing(120, 101.0)

  /** The structure of both frames after each completed bar. */
  const T1 := Structure.Tracker([B0], Structure.Side([], None), Structure.Side([], None), None)
  const T2 := Structure.Tracker([B0, B1], Structure.Side([], None), Structure.Side([], None), None)
  const T3 := Structure.Tracker([B0, B1, B2], Structure.Side([High], Some(High)), Structure.Side([], None), None)
  const T4 := Structure.Tracker([B1, B2, B3], Structure.Side([High], None), Structure.Side([], None), Some(Long))

  const Break := Structure.Event(360, Structure.Bos, Long, 101.0)

  lemma FirstBars()
    ensures Structure.Update(Tiny.swings, Structure.NewTracker, B0) == (T1, None)
    ensures Structure.Update(Tiny.swings, T1, B1) == (T2, None)
  {
    assert Structure.Push([], 3, B0) == [B0];
    assert Structure.Push([B0], 3, B1) == [B0, B1];
  }

  lemma ThirdBar()
    ensures Structure.Update(Tiny.swings, T2, B2) == (T3, None)
  {
    var w := Structure.Push(T2.window, 3, B2);
    assert w == [B0, B1, B2];
    assert Structure.Extreme(Long, w, 1);
    assert !Structure.Beyond(Short, Structure.Level(Short, w[1]), Structure.Level(Short, w[0]));
    assert Structure.Push([], 1, High) == [High];
  }

  lemma FourthBar()
    ensures Structure.Update(Tiny.swings, T3, B3) == (T4, Some(Break))
  {
    var w := Structure.Push(T3.window, 3, B3);
    assert w == [B1, B2, B3];
    assert !Structure.Beyond(Long, Structure.Level(Long, w[1]), Structure.Level(Long, w[0]));
    assert !Structure.Beyond(Short, Structure.Level(Short, w[1]), Structure.Level(Short, w[2]));
  }

  // ------------------------------------------------------------------ blocks

  const Nothing := OrderBlocks.Lane([], [])
  const Zone := OrderBlocks.Block(240, Long, 100.0, 99.0, false, 4)

  const Z1 := OrderBlocks.Zones(Atr(Some(100.0), 1, 0.0, Some(0.0)), [B0], 1, Nothing, Nothing)
  const Z2 := OrderBlocks.Zones(Atr(Some(100.0), 2, 0.0, Some(1.0)), [B0, B1], 2, Nothing, Nothing)
  const Z3 := OrderBlocks.Zones(Atr(Some(99.0), 3, 0.0, Some(1.0)), [B0, B1, B2], 3, Nothing, Nothing)
  const Z4 := OrderBlocks.Zones(Atr(Some(103.0), 4, 0.0, Some(4.0)), [B0, B1, B2, B3], 4, OrderBlocks.Lane([], [Zone]),
                                Nothing)

  lemma QuietLane(bar: nat, c: Candle, d: Direction)
    ensures OrderBlocks.FeedLane(Tiny.blocks, Nothing, d, bar, c, None, None) == Nothing
  {
  }

  lemma FirstZones()
    ensures OrderBlocks.Advance(Tiny.blocks, OrderBlocks.NewZones, B0, None) == Z1
  {
    QuietLane(1, B0, Long);
    QuietLane(1, B0, Short);
  }

  lemma SecondZones()
    ensures OrderBlocks.Advance(Tiny.blocks, Z1, B1, None) == Z2
  {
    assert B1.close == B1.open;
    QuietLane(2, B1, Long);
    QuietLane(2, B1, Short);
    assert Structure.Push([B0], OrderBlocks.RECENT_BARS, B1) == [B0, B1];
  }

  lemma NoneAgainst()
    ensures OrderBlocks.Origin([B0, B1], Short) == None
  {
    assert [B0, B1][..1] == [B0] && [B0][..0] == [];
    assert OrderBlocks.Origin([B0], Short) == None;
  }

  lemma ThirdZones()
    ensures OrderBlocks.Advance(Tiny.blocks, Z2, B2, None) == Z3
  {
    NoneAgainst();
    QuietLane(3, B2, Long);
    QuietLane(3, B2, Short);
    assert Structure.Push([B0, B1], OrderBlocks.RECENT_BARS, B2) == [B0, B1, B2];
  }

  lemma ZoneIsBorn()
    ensures OrderBlocks.Newborn(Tiny.blocks, Some(1.0), [B0, B1, B2], 4, B3) == Some(Zone)
  {
    assert OrderBlocks.Displaced(Tiny.blocks, Some(1.0), B3);
  }

  /** Queued and, with the break, promoted. */
  lemma ZoneIsActive()
    ensures OrderBlocks.FeedLane(Tiny.blocks, Nothing, Long, 4, B3, Some(Zone), Some(Break))
         == OrderBlocks.Lane([], [Zone])
  {
    var lane := OrderBlocks.Queued(OrderBlocks.Sifted(Tiny.blocks, Nothing, 4, B3), Long, Some(Zone));
    assert lane == OrderBlocks.Lane([Zone], []);
    assert [Zone][..0] == [];
    assert OrderBlocks.Within(Tiny.blocks, [Zone], 4) == [] + [Zone];
    assert OrderBlocks.Settled(Tiny.blocks, lane, Long, 4, Some(Break)) == OrderBlocks.Lane([], [Zone]);
  }

  lemma FourthZones()
    ensures OrderBlocks.Advance(Tiny.blocks, Z3, B3, Some(Break)) == Z4
  {
    ZoneIsBorn();
    ZoneIsActive();
    assert OrderBlocks.FeedLane(Tiny.blocks, Nothing, Short, 4, B3, Some(Zone), Some(Break)) == Nothing;
    assert Structure.Push([B0, B1, B2], OrderBlocks.RECENT_BARS, B3) == [B0, B1, B2, B3];
  }

  // ------------------------------------------------------------------ the engine, bar by bar

  /** Flat and idle after bar `b`, number `n`, with this structure in both frames and these zones. */
  predicate Standing(e: Engine, b: Candle, n: nat, t: Structure.Tracker, z: OrderBlocks.Zones) {
    && e.phase == Idle && e.pos.None? && e.last == Some(b.ts) && e.trace == Trace([], [], [])
    && e.views.trigger == View(Some(b), t) && e.views.htf == View(Some(b), t)
    && e.views.d1.trend == Structure.NewTracker && e.views.d1.cur.Some? && e.views.d1.cur.value.ts == 0
    && e.zones == Zones(z, OrderBlocks.NewZones)
    && e.day.date == Some(0) && e.day.prior.None? && e.day.traded == 0 && e.day.profile.bars == n
  }

  predicate OnTheGrid(c: Candle) {
    Valid(c) && 0 <= c.ts < 3600 && c.ts % 120 == 0
  }

  lemma GridFloors(c: Candle)
    requires OnTheGrid(c)
    ensures Aggregation.Floored(1, c.ts) == c.ts && Aggregation.Floored(2, c.ts) == c.ts
    ensures Aggregation.Floored(1440, c.ts) == 0 && DateOf(c.ts) == 0
  {
    var k := c.ts / 120;
    assert c.ts == 120 * k && (c.ts % DAY) / 60 == 2 * k;
  }

  lemma ProfileCounts(s: Profile.State, c: Candle)
    ensures Profile.Update(Tiny.profile, s, c).bars == s.bars + 1
  {
  }

  /** What the next bar shows of a short frame: the bar before it, completed. */
  lemma SeeNext(minutes: int, b: Candle, c: Candle, t: Structure.Tracker)
    requires minutes == 1 || minutes == 2
    requires OnTheGrid(b) && OnTheGrid(c) && b.ts < c.ts
    ensures var (t', event) := Structure.Update(Tiny.swings, t, b);
            See(Tiny, minutes, View(Some(b), t), c) == Seen(View(Some(c), t'), Some(b), event)
  {
    GridFloors(c);
    assert c.(ts := c.ts) == c;
  }

  lemma SeeDay(v: View, c: Candle)
    requires OnTheGrid(c) && v.cur.Some? && v.cur.value.ts == 0
    ensures var s := See(Tiny, 1440, v, c);
            s.done.None? && s.view.trend == v.trend && s.view.cur.Some? && s.view.cur.value.ts == 0
  {
    GridFloors(c);
  }

  lemma FirstStep()
    ensures Standing(OnCandle(Tiny, Start, B0).0, B0, 1, Structure.NewTracker, OrderBlocks.NewZones)
    ensures UsedOn(Tiny, Start, B0, false) == []
  {
    GridFloors(B0);
    ProfileCounts(Profile.Empty, B0);
    assert B0.(ts := 0) == B0;
  }

  /** Everything but the decision. */
  lemma AbsorbNext(e: Engine, b: Candle, c: Candle, n: nat, t: Structure.Tracker, z: OrderBlocks.Zones)
    requires Standing(e, b, n, t, z) && OnTheGrid(b) && OnTheGrid(c) && b.ts < c.ts
    ensures var (t', event) := Structure.Update(Tiny.swings, t, b);
            var e1 := Absorbed(Tiny, e, c);
            && Accepted(e, c)
            && e1 == e.(last := Some(c.ts), day := e1.day, views := e1.views, zones := e1.zones, memory := e1.memory)
            && e1.views.trigger == e.views.trigger && e1.views.htf == View(Some(c), t')
            && e1.views.d1.trend == Structure.NewTracker && e1.views.d1.cur.Some? && e1.views.d1.cur.value.ts == 0
            && e1.zones == Zones(OrderBlocks.Advance(Tiny.blocks, z, b, event), OrderBlocks.NewZones)
            && e1.day == e.day.(profile := e1.day.profile) && e1.day.profile.bars == n + 1
            && e1.memory.range == Some((b.high, b.low))
            && See(Tiny, 1, e1.views.trigger, c) == Seen(View(Some(c), t'), Some(b), event)
  {
    SeeNext(1, b, c, t);
    SeeNext(2, b, c, t);
    SeeDay(e.views.d1, c);
    GridFloors(c);
    ProfileCounts(e.day.profile, c);
  }

  /** A bar after which there is still no trend. */
  lemma QuietStep(e: Engine, b: Candle, c: Candle, n: nat, t: Structure.Tracker, z: OrderBlocks.Zones)
    requires Standing(e, b, n, t, z) && OnTheGrid(b) && OnTheGrid(c) && b.ts < c.ts
    requires Structure.Update(Tiny.swings, t, b).0.trend.None?
    ensures var (t', event) := Structure.Update(Tiny.swings, t, b);
            Standing(OnCandle(Tiny, e, c).0, c, n + 1, t', OrderBlocks.Advance(Tiny.blocks, z, b, event))
    ensures UsedOn(Tiny, e, c, false) == []
  {
    AbsorbNext(e, b, c, n, t, z);
    var e1 := Absorbed(Tiny, e, c);
    var s := See(Tiny, 1, e1.views.trigger, c);
    var f := Facing(Tiny, e1, s);
    assert Bias(f.views).None?;
    assert Decide(Tiny, f, b, s.event) == f;
  }

  /** What the bar that breaks structure is decided upon with. */
  lemma WastingScene(e: Engine)
    requires Standing(e, B3, 4, T3, Z3)
    ensures var e1 := Absorbed(Tiny, e, B4);
            var s := See(Tiny, 1, e1.views.trigger, B4);
            && Accepted(e, B4) && s.done == Some(B3)
            && var f := Facing(Tiny, e1, s);
               && f == e.(last := f.last, day := f.day, views := f.views, zones := f.zones, memory := f.memory,
                          gauges := f.gauges)
               && f.zones == Zones(Z4, OrderBlocks.NewZones) && Bias(f.views) == Some(Long)
               && f.day.prior.None? && f.day.traded == 0 && Profile.PocPrice(Tiny.profile, f.day.profile).None?
               && s.event == Some(Break) && f.views.trigger == s.view
               && s.view.trend == Structure.Update(Tiny.swings, T3, B3).0 && f.memory.range == Some((B3.high, B3.low))
  {
    FourthBar();
    FourthZones();
    AbsorbNext(e, B3, B4, 4, T3, Z3);
  }

  /** The bar that breaks structure: its block is there, and is used up; the stop is too far away. */
  lemma WastingStep(e: Engine)
    requires Standing(e, B3, 4, T3, Z3)
    ensures var e' := OnCandle(Tiny, e, B4).0;
            e'.pos.None? && e'.phase == Armed && e'.trace.signals == [] && e'.trace.entryDates == []
    ensures UsedOn(Tiny, e, B4, false) == [Zone]
  {
    var e1 := Absorbed(Tiny, e, B4);
    var s := See(Tiny, 1, e1.views.trigger, B4);
    var f := Facing(Tiny, e1, s);
    WastingScene(e);
    assert OrderBlocks.Pick([], 99.0, 103.0) == 0 && OrderBlocks.Pick([Zone], 99.0, 103.0) == 0;
    assert PoiOf(Tiny, f, B3) == HtfBlock(Zone);
    assert Looks(Tiny, f, B3, s.event);
    assert Sweep(f, B3, Long).None?;
    assert StopOf(Tiny, f, B3) == 98.5;
    assert !Enters(Tiny, f, B3, s.event);
    DecideIs(Tiny, f, B3, s.event);
  }

  function WastingRun(): seq<Input> {
    [Bar(B0), Bar(B1), Bar(B2), Bar(B3), Bar(B4)]
  }

  lemma {:induction false} RunOn(inputs: seq<Input>, c: Candle)
    ensures Run(Tiny, inputs + [Bar(c)]) == OnCandle(Tiny, Run(Tiny, inputs), c).0
    ensures Used(Tiny, inputs + [Bar(c)], false) ==
            Used(Tiny, inputs, false) + UsedOn(Tiny, Run(Tiny, inputs), c, false)
  {
    assert (inputs + [Bar(c)])[..|inputs|] == inputs;
  }

  lemma {:induction false} RunQuietly(inputs: seq<Input>, b: Candle, c: Candle, n: nat, t: Structure.Tracker,
                                      z: OrderBlocks.Zones)
    requires Standing(Run(Tiny, inputs), b, n, t, z) && Used(Tiny, inputs, false) == []
    requires OnTheGrid(b) && OnTheGrid(c) && b.ts < c.ts
    requires Structure.Update(Tiny.swings, t, b).0.trend.None?
    ensures var (t', event) := Structure.Update(Tiny.swings, t, b);
            Standing(Run(Tiny, inputs + [Bar(c)]), c, n + 1, t', OrderBlocks.Advance(Tiny.blocks, z, b, event))
    ensures Used(Tiny, inputs + [Bar(c)], false) == []
  {
    RunOn(inputs, c);
    QuietStep(Run(Tiny, inputs), b, c, n, t, z);
  }

  lemma {:induction false} QuietStart()
    ensures Standing(Run(Tiny, [Bar(B0)]), B0, 1, Structure.NewTracker, OrderBlocks.NewZones)
    ensures Used(Tiny, [Bar(B0)], false) == []
  {
    assert [] + [Bar(B0)] == [Bar(B0)];
    RunOn([], B0);
    FirstStep();
  }

  lemma {:induction false} Quietly()
    ensures var inputs := [Bar(B0), Bar(B1), Bar(B2), Bar(B3)];
            Standing(Run(Tiny, inputs), B3, 4, T3, Z3) && Used(Tiny, inputs, false) == []
  {
    var two, three := [Bar(B0), Bar(B1)], [Bar(B0), Bar(B1), Bar(B2)];
    assert [Bar(B0)] + [Bar(B1)] == two && two + [Bar(B2)] == three;
    assert three + [Bar(B3)] == [Bar(B0), Bar(B1), Bar(B2), Bar(B3)];
    QuietStart();
    FirstBars();
    ThirdBar();
    FirstZones();
    RunQuietly([Bar(B0)], B0, B1, 1, Structure.NewTracker, OrderBlocks.NewZones);
    SecondZones();
    RunQuietly(two, B1, B2, 2, T1, Z1);
    ThirdZones();
    RunQuietly(three, B2, B3, 3, T2, Z2);
  }

  /** A run from the engine's start whose last bar uses up a block and enters nothing: no position, no
      signal, and the block gone for good. */
  lemma {:induction false} BlockWasted()
    ensures ValidConfig(Tiny)
    ensures var most := WastingRun()[..4];
            Used(Tiny, most, false) == [] && Run(Tiny, most).pos.None?
    ensures var inputs := WastingRun();
            && Used(Tiny, inputs, false) == [Zone]
            && Run(Tiny, inputs).pos.None? && Run(Tiny, inputs).trace.signals == []
  {
    var most := [Bar(B0), Bar(B1), Bar(B2), Bar(B3)];
    assert WastingRun()[..4] == most && WastingRun() == most + [Bar(B4)];
    Quietly();
    RunOn(most, B4);
    WastingStep(Run(Tiny, most));
  }
}
