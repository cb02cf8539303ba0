/** How many entries one session can see: the configured one trade, unless bars come too close
    together for the opening window. */
module OrbSpacing {
  import opened Prelude
  import opened Models
  import opened Session
  import opened Indicators
  import opened OrbEngine
  import opened OrbRuns

  /** The time of the last bar the engine accepts: valid, and later than those before it. */
  function LastBar(inputs: seq<Input>): Option<int>
    decreases |inputs|
  {
    if inputs == [] then None
    else
      var before, input := LastBar(inputs[..|inputs| - 1]), inputs[|inputs| - 1];
      if input.Bar? && Accepts(before, input.c) then Some(input.c.ts) else before
  }

  predicate Accepts(last: Option<int>, c: Candle) {
    Valid(c) && (last.None? || c.ts > last.value)
  }

  /** Each accepted bar comes at least `d` seconds after the one before. */
  predicate Spaced(d: int, inputs: seq<Input>)
    decreases |inputs|
  {
    inputs == [] ||
    var most, input := inputs[..|inputs| - 1], inputs[|inputs| - 1];
    var last := LastBar(most);
    Spaced(d, most) && (input.Bar? && last.Some? && Accepts(last, input.c) ==> input.c.ts >= last.value + d)
  }

  /** One trade a session, and no room for a second range: by the earliest time at which an entry can
      be over and another bar come, the opening window has closed. */
  predicate NoRoom(cfg: Config, d: int) {
    && ValidConfig(cfg) && cfg.oneTrade && 1 <= d <= 60
    && Span(d, cfg.hours.rangeMin + 1) >= 60 * cfg.hours.rangeMin
  }

  /** `k` bars' worth of time. */
  function Span(d: int, k: int): int {
    d * k
  }

  lemma SpanStep(d: int, k: int)
    ensures Span(d, k + 1) == Span(d, k) + d
  {
  }

  lemma SpanMonotone(d: int, j: int, k: int)
    requires d >= 0 && j <= k
    ensures Span(d, j) <= Span(d, k)
  {
  }

  /** Armed, the session still has an entry to spare. */
  predicate Counts(e: Engine) {
    && e.trace.entries <= 1 + e.trace.gapResets
    && (e.phase == RangeDefined ==> e.trace.entries <= e.trace.gapResets)
  }

  /** What the time of the last bar, `t`, says about the session so far: a range took a spacing for each
      bar after its first, so it is locked after `rangeMin - 1` of them at the earliest, and an entry
      comes later still. */
  predicate Timing(cfg: Config, d: int, e: Engine, t: int)
    requires e.clock.session.Some?
  {
    var open := OpenOf(cfg.hours, e.clock.session.value);
    && (e.range.bars > 0 ==> Span(d, e.range.bars - 1) <= t - open)
    && (e.range.locked && e.phase != Idle ==> t >= open + Span(d, cfg.hours.rangeMin - 1))
    && (e.trace.entries > 0 ==> t >= open + Span(d, cfg.hours.rangeMin))
  }

  predicate EntryInv(cfg: Config, d: int, e: Engine) {
    && Counts(e)
    && (e.clock.session.Some? && e.clock.last.Some? ==> Timing(cfg, d, e, e.clock.last.value))
  }

  /** The situation in which a bar is dispatched: the last bar was at least `d` seconds before it. */
  predicate Ready(cfg: Config, d: int, e: Engine, c: Candle) {
    var i := Classify(cfg.hours, c.ts);
    && NoRoom(cfg, d) && Shape(e) && (e.phase == Idle || InHours(i.zone))
    && e.clock.session == Some(i.session) && e.clock.last == Some(c.ts)
    && Counts(e) && Timing(cfg, d, e, c.ts - d)
  }

  lemma MaybeLockTiming(cfg: Config, d: int, e: Engine, t: int)
    requires NoRoom(cfg, d) && e.phase == RangeDefined && e.clock.session.Some? && Timing(cfg, d, e, t) && Counts(e)
    ensures var e' := MaybeLock(cfg, e); Timing(cfg, d, e', t) && Counts(e')
  {
    if e.range.bars >= cfg.hours.rangeMin {
      SpanMonotone(d, cfg.hours.rangeMin - 1, e.range.bars - 1);
    }
  }

  lemma OnIdleTiming(cfg: Config, d: int, e: Engine, c: Candle)
    requires Ready(cfg, d, e, c) && e.phase == Idle
    ensures var e' := OnIdle(cfg, e, c, Classify(cfg.hours, c.ts).zone); Timing(cfg, d, e', c.ts) && Counts(e')
  {
    WindowMeaning(cfg.hours, c.ts);
    SpanStep(d, cfg.hours.rangeMin);
    if Classify(cfg.hours, c.ts).zone == InRangeWindow {
      MaybeLockTiming(cfg, d, Log(e, Idle, RangeDefined, RangeOpen).(
                      phase := RangeDefined, range := Range(Some((c.high, c.low)), 1, false, e.range.rebuild)), c.ts);
    }
  }

  lemma CheckBreakoutTiming(cfg: Config, d: int, e: Engine, c: Candle)
    requires ValidConfig(cfg) && e.range.ends.Some? && Warm(cfg, e.gauges)
    requires e.phase == RangeDefined && e.clock.session.Some? && Timing(cfg, d, e, c.ts) && Counts(e)
    requires c.ts >= OpenOf(cfg.hours, e.clock.session.value) + Span(d, cfg.hours.rangeMin)
    ensures var e' := CheckBreakout(cfg, e, c).e; Timing(cfg, d, e', c.ts) && Counts(e')
  {
  }

  lemma WindowIsLonger(d: int, n: int)
    requires d <= 60 && n >= 0
    ensures Span(d, n) <= 60 * n
  {
  }

  lemma BuiltTiming(cfg: Config, d: int, e: Engine, c: Candle)
    requires NoRoom(cfg, d) && e.clock.session.Some? && Timing(cfg, d, e, c.ts - d) && !e.range.locked
    requires c.ts >= OpenOf(cfg.hours, e.clock.session.value)
    ensures Timing(cfg, d, e.(range := Built(e.range, c)), c.ts)
  {
    SpanStep(d, e.range.bars - 1);
  }

  lemma OnRangeDefinedTiming(cfg: Config, d: int, e: Engine, c: Candle)
    requires Ready(cfg, d, e, c) && e.phase == RangeDefined
    ensures var e' := OnRangeDefined(cfg, e, c, Classify(cfg.hours, c.ts).zone).e;
            Timing(cfg, d, e', c.ts) && Counts(e')
  {
    var zone := Classify(cfg.hours, c.ts).zone;
    WindowMeaning(cfg.hours, c.ts);
    SpanStep(d, cfg.hours.rangeMin - 1);
    SpanMonotone(d, cfg.hours.rangeMin - 1, cfg.hours.rangeMin);
    WindowIsLonger(d, cfg.hours.rangeMin);
    if (zone == InRangeWindow || e.range.rebuild) && !e.range.locked {
      BuiltTiming(cfg, d, e, c);
      MaybeLockTiming(cfg, d, Log(e.(range := Built(e.range, c)), RangeDefined, RangeDefined, RangeBuild), c.ts);
    } else {
      var e1 := if zone == InSession && !e.range.locked then Locked(e) else e;
      assert Timing(cfg, d, e1, c.ts) && Counts(e1);
      if Warm(cfg, e1.gauges) {
        CheckBreakoutTiming(cfg, d, e1, c);
      }
    }
  }

  lemma OnBreakoutTiming(cfg: Config, d: int, e: Engine, c: Candle)
    requires Ready(cfg, d, e, c) && e.phase == Breakout
    ensures var e' := OnBreakout(cfg, e, c); Timing(cfg, d, e', c.ts) && Counts(e')
  {
  }

  lemma DispatchTiming(cfg: Config, d: int, e: Engine, c: Candle)
    requires Ready(cfg, d, e, c)
    ensures var e' := Dispatch(cfg, e, c, Classify(cfg.hours, c.ts).zone).e; Timing(cfg, d, e', c.ts) && Counts(e')
  {
    var zone := Classify(cfg.hours, c.ts).zone;
    var e1 := Fed(cfg, e, c, zone);
    assert Ready(cfg, d, e1, c);
    if e1.phase == Idle {
      OnIdleTiming(cfg, d, e1, c);
    } else if e1.phase == RangeDefined {
      OnRangeDefinedTiming(cfg, d, e1, c);
    } else {
      OnBreakoutTiming(cfg, d, e1, c);
    }
  }

  lemma CrossBoundaryTiming(cfg: Config, d: int, e: Engine, c: Candle)
    requires NoRoom(cfg, d) && FullInv(cfg, e) && EntryInv(cfg, d, e)
    ensures EntryInv(cfg, d, CrossBoundary(cfg, e, c, Classify(cfg.hours, c.ts)).0)
  {
    var info := Classify(cfg.hours, c.ts);
    if e.phase != Breakout {
      NewSessionInv(e, info.session);
      var e1 := At(NewSession(e, info.session), c.ts);
      DispatchTiming(cfg, d, e1, c);
      DispatchClock(cfg, e1, c, info.zone);
    }
  }

  lemma TimingLater(cfg: Config, d: int, e: Engine, t: int, u: int)
    requires e.clock.session.Some? && Timing(cfg, d, e, t) && t <= u
    ensures Timing(cfg, d, e, u)
  {
  }

  lemma WithinTiming(cfg: Config, d: int, e: Engine, c: Candle)
    requires NoRoom(cfg, d) && FullInv(cfg, e) && EntryInv(cfg, d, e)
    requires e.clock.last.Some? && c.ts >= e.clock.last.value + d
    requires var i := Classify(cfg.hours, c.ts); e.clock.session == Some(i.session) && i.zone != After
    ensures EntryInv(cfg, d, Dispatch(cfg, At(e, c.ts), c, Classify(cfg.hours, c.ts).zone).e)
  {
    var zone := Classify(cfg.hours, c.ts).zone;
    StaysInHours(cfg, e, zone, c.ts);
    TimingLater(cfg, d, e, e.clock.last.value, c.ts - d);
    DispatchTiming(cfg, d, At(e, c.ts), c);
    DispatchClock(cfg, At(e, c.ts), c, zone);
  }

  lemma GapCounts(cfg: Config, d: int, e: Engine, c: Candle, zone: Zone, t: int)
    requires cfg.oneTrade && d >= 1 && Shape(e) && Counts(e)
    requires e.clock.session.Some? && Timing(cfg, d, e, t) && t <= c.ts - d
    ensures var gapped := At(AfterGap(cfg, e, c, zone), c.ts);
            && Counts(gapped) && gapped.clock.session == e.clock.session && gapped.clock.last == Some(c.ts)
            && Timing(cfg, d, gapped, c.ts - d) && Timing(cfg, d, gapped, c.ts)
            && (gapped.phase == Idle || InHours(zone))
  {
  }

  lemma GapTiming(cfg: Config, d: int, e: Engine, c: Candle)
    requires NoRoom(cfg, d) && FullInv(cfg, e) && EntryInv(cfg, d, e)
    requires e.clock.last.Some? && c.ts >= e.clock.last.value + d
    requires var i := Classify(cfg.hours, c.ts); e.clock.session == Some(i.session) && i.zone != After
    ensures var gapped := At(AfterGap(cfg, e, c, Classify(cfg.hours, c.ts).zone), c.ts);
            EntryInv(cfg, d, gapped) && Ready(cfg, d, gapped, c)
  {
    var zone := Classify(cfg.hours, c.ts).zone;
    AfterGapInv(cfg, e, c, zone);
    GapCounts(cfg, d, e, c, zone, e.clock.last.value);
  }

  lemma GappedTiming(cfg: Config, d: int, e: Engine, c: Candle)
    requires NoRoom(cfg, d) && FullInv(cfg, e) && EntryInv(cfg, d, e)
    requires e.clock.last.Some? && c.ts >= e.clock.last.value + d
    requires var i := Classify(cfg.hours, c.ts); e.clock.session == Some(i.session) && i.zone != After
    ensures var gapped := At(AfterGap(cfg, e, c, Classify(cfg.hours, c.ts).zone), c.ts);
            && Shape(gapped) && EntryInv(cfg, d, gapped)
            && EntryInv(cfg, d, Dispatch(cfg, gapped, c, Classify(cfg.hours, c.ts).zone).e)
  {
    var zone := Classify(cfg.hours, c.ts).zone;
    GapTiming(cfg, d, e, c);
    var gapped := At(AfterGap(cfg, e, c, zone), c.ts);
    DispatchTiming(cfg, d, gapped, c);
    DispatchClock(cfg, gapped, c, zone);
  }

  lemma AfterHoursTiming(cfg: Config, d: int, e: Engine, c: Candle)
    requires NoRoom(cfg, d) && FullInv(cfg, e) && EntryInv(cfg, d, e)
    requires e.clock.last.Some? && c.ts >= e.clock.last.value + d
    ensures EntryInv(cfg, d, AfterHours(cfg, e, c))
  {
  }

  lemma NextTiming(cfg: Config, d: int, e: Engine, input: Input)
    requires NoRoom(cfg, d) && FullInv(cfg, e) && EntryInv(cfg, d, e)
    requires input.Bar? && e.clock.last.Some? && Accepts(e.clock.last, input.c) ==> input.c.ts >= e.clock.last.value + d
    ensures EntryInv(cfg, d, Next(cfg, e, input))
  {
    if input.Bar? {
      var c := input.c;
      if Valid(c) && !(e.clock.last.Some? && c.ts <= e.clock.last.value) {
        var info := Classify(cfg.hours, c.ts);
        if e.clock.session != Some(info.session) {
          CrossBoundaryTiming(cfg, d, e, c);
        } else if info.zone == After {
          AfterHoursTiming(cfg, d, e, c);
        } else if IsReset(cfg, e, c.ts) {
          GappedTiming(cfg, d, e, c);
        } else {
          WithinTiming(cfg, d, e, c);
        }
      }
    }
  }

  lemma OnCandleClock(cfg: Config, e: Engine, c: Candle)
    requires ValidConfig(cfg) && FullInv(cfg, e)
    ensures OnCandle(cfg, e, c).0.clock.last == if Accepts(e.clock.last, c) then Some(c.ts) else e.clock.last
  {
    if Accepts(e.clock.last, c) {
      var info := Classify(cfg.hours, c.ts);
      if e.clock.session != Some(info.session) {
        if e.phase != Breakout {
          NewSessionInv(e, info.session);
          DispatchClock(cfg, At(NewSession(e, info.session), c.ts), c, info.zone);
        }
      } else if info.zone != After {
        AfterGapInv(cfg, e, c, info.zone);
        DispatchClock(cfg, At(AfterGap(cfg, e, c, info.zone), c.ts), c, info.zone);
        DispatchClock(cfg, At(e, c.ts), c, info.zone);
      }
    }
  }

  /** The engine's clock stands at the last bar it accepted. */
  lemma {:induction false} ClockIsLastBar(cfg: Config, inputs: seq<Input>)
    requires ValidConfig(cfg)
    ensures Run(cfg, inputs).clock.last == LastBar(inputs)
    decreases |inputs|
  {
    if inputs != [] {
      var most, input := inputs[..|inputs| - 1], inputs[|inputs| - 1];
      ClockIsLastBar(cfg, most);
      if input.Bar? {
        OnCandleClock(cfg, Run(cfg, most), input.c);
      }
    }
  }

  lemma {:induction false} RunTiming(cfg: Config, d: int, inputs: seq<Input>)
    requires NoRoom(cfg, d) && Spaced(d, inputs)
    ensures EntryInv(cfg, d, Run(cfg, inputs))
    decreases |inputs|
  {
    if inputs != [] {
      var most := inputs[..|inputs| - 1];
      RunTiming(cfg, d, most);
      ClockIsLastBar(cfg, most);
      NextTiming(cfg, d, Run(cfg, most), inputs[|inputs| - 1]);
    }
  }

  lemma {:induction false} CloserSpaced(d: int, d': int, inputs: seq<Input>)
    requires Spaced(d, inputs) && d' <= d
    ensures Spaced(d', inputs)
    decreases |inputs|
  {
    if inputs != [] {
      CloserSpaced(d, d', inputs[..|inputs| - 1]);
    }
  }

  /** With one trade a session and bars at least `d` seconds apart, no session sees more than one entry
      plus one for each gap reset in it, at any point of any run, if `rangeMin + 1` spacings take at
      least the opening window's `rangeMin` minutes; a minute between bars is always enough. */
  lemma EntriesPerSession(cfg: Config, d: int, inputs: seq<Input>)
    requires ValidConfig(cfg) && cfg.oneTrade && d >= 1 && Spaced(d, inputs)
    requires d >= 60 || (cfg.hours.rangeMin + 1) * d >= 60 * cfg.hours.rangeMin
    ensures var trace := Run(cfg, inputs).trace; trace.entries <= 1 + trace.gapResets
  {
    if d >= 60 {
      CloserSpaced(d, 60, inputs);
      RunTiming(cfg, 60, inputs);
    } else {
      RunTiming(cfg, d, inputs);
    }
  }

  // ------------------------------------------------------------------ closer bars

  /** One trade a session, an opening range of `n` minutes, no filters; gaps reset. */
  function Quick(n: int): Config {
    Config(Hours(0, n, n + 1), false, 5, 0.0, false, 20, 0.0, 1, 1.0, None, None,
           true, 0.0, None, 1.0, true, true, true, false, true, 60, 3, true, true)
  }

  /** The first bar after the opening window, at spacing `d`. */
  function Final(n: int, d: int): int
    requires d >= 1
  {
    (60 * n + d - 1) / d
  }

  /** A flat bar every `d` seconds, except that the bar after a full range and the first one after the
      opening window break out upwards. */
  function BarAt(n: int, d: int, i: int): Candle
    requires d >= 1
  {
    var px := if i == n || i == Final(n, d) then 102.0 else 100.0;
    Candle(Span(d, i), 100.0, px, 100.0, px, 0.0)
  }

  /** The first `k` of these bars; the broker closes the first position at once. */
  function Story(n: int, d: int, k: nat): seq<Input>
    requires d >= 1
  {
    if k == 0 then []
    else Story(n, d, k - 1) + [Bar(BarAt(n, d, k - 1))] + if k - 1 == n then [BrokerClosedIt] else []
  }

  /** There is room for a second range. */
  predicate Room(n: int, d: int) {
    1 <= n < 1440 && 1 <= d < 60 && Span(d, n + 1) < 60 * n
  }

  lemma FinalIs(n: int, d: int)
    requires Room(n, d)
    ensures var k := Final(n, d); k >= n + 2 && Span(d, k - 1) < 60 * n <= Span(d, k) < 60 * n + 60
  {
    var k, x := Final(n, d), 60 * n + d - 1;
    assert x == d * k + x % d;
    SpanStep(d, k - 1);
    if k <= n + 1 {
      SpanMonotone(d, k, n + 1);
    }
  }

  predicate Flat(e: Engine) {
    e.phase == RangeDefined && e.range.ends == Some((100.0, 100.0)) && !e.range.rebuild
  }

  /** Where the story stands after `k` bars, broker included. */
  predicate StoryInv(n: int, d: int, k: nat, e: Engine)
    requires Room(n, d) && k >= 1
  {
    && FullInv(Quick(n), e) && e.trace.gapResets == 0 && AtrInv(1, e.gauges.atr) && e.gauges.atr.value.Some?
    && e.clock.session == Some(0) && e.clock.last == Some(Span(d, k - 1))
    && e.trace.entries == (if k <= n then 0 else if k <= Final(n, d) then 1 else 2)
    && (k <= n ==> Flat(e) && e.range.bars == k && (e.range.locked <==> k >= n))
    && (k == n + 1 ==> e.phase == Idle && !e.range.rebuild)
    && (n + 2 <= k <= Final(n, d) ==> Flat(e))
  }

  /** A bar of the story is a bar within the first session, and no gap comes before it. */
  lemma StoryBar(n: int, d: int, k: nat, e: Engine)
    requires Room(n, d) && 1 <= k <= Final(n, d) && StoryInv(n, d, k, e)
    ensures Valid(BarAt(n, d, k)) && 0 <= Span(d, k) < 60 * n + 60
    ensures var zone := if k < Final(n, d) then InRangeWindow else InSession;
            Next(Quick(n), e, Bar(BarAt(n, d, k))) == Dispatch(Quick(n), At(e, Span(d, k)), BarAt(n, d, k), zone).e
  {
    StoryTime(n, d, k);
    StoryWithin(n, d, BarAt(n, d, k), e);
  }

  lemma StoryTime(n: int, d: int, k: nat)
    requires Room(n, d) && 1 <= k <= Final(n, d)
    ensures Span(d, k - 1) == Span(d, k) - d && 0 <= Span(d, k) < 60 * n + 60
    ensures Span(d, k) < 60 * n <==> k < Final(n, d)
  {
    FinalIs(n, d);
    SpanStep(d, k - 1);
    SpanMonotone(d, 0, k);
    SpanMonotone(d, k, Final(n, d));
    if k < Final(n, d) {
      SpanMonotone(d, k, Final(n, d) - 1);
    }
  }

  lemma StoryWithin(n: int, d: int, c: Candle, e: Engine)
    requires Room(n, d) && 0 <= c.ts < 60 * n + 60 && e.clock.last == Some(c.ts - d) && Valid(c)
    requires FullInv(Quick(n), e) && e.clock.session == Some(0)
    ensures Next(Quick(n), e, Bar(c)) ==
            Dispatch(Quick(n), At(e, c.ts), c, if c.ts < 60 * n then InRangeWindow else InSession).e
  {
    StoryTimes(n, d, c.ts, e);
  }

  lemma StoryTimes(n: int, d: int, ts: int, e: Engine)
    requires Room(n, d) && 0 <= ts < 60 * n + 60 && e.clock.last == Some(ts - d)
    ensures Classify(Quick(n).hours, ts) == Info(if ts < 60 * n then InRangeWindow else InSession, 0)
    ensures !IsReset(Quick(n), e, ts)
  {
  }

  /** The first `n` bars build the range. */
  lemma StoryBuilds(n: int, d: int, k: nat, e: Engine)
    requires Room(n, d) && 1 <= k < n && StoryInv(n, d, k, e)
    ensures StoryInv(n, d, k + 1, Next(Quick(n), e, Bar(BarAt(n, d, k))))
  {
    FinalIs(n, d);
    StoryBar(n, d, k, e);
    UpdateAtrInv(1, e.gauges.atr, 100.0, 100.0, 100.0);
  }

  /** The next enters, and the broker closes the position. */
  lemma StoryEnters(n: int, d: int, e: Engine)
    requires Room(n, d) && StoryInv(n, d, n, e)
    ensures StoryInv(n, d, n + 1, Next(Quick(n), Next(Quick(n), e, Bar(BarAt(n, d, n))), BrokerClosedIt))
  {
    FinalIs(n, d);
    StoryBar(n, d, n, e);
    UpdateAtrInv(1, e.gauges.atr, 102.0, 100.0, 102.0);
  }

  /** The one after that opens a second range, which the rest of the window leaves as it is. */
  lemma StoryReopens(n: int, d: int, k: nat, e: Engine)
    requires Room(n, d) && n + 1 <= k < Final(n, d) && StoryInv(n, d, k, e)
    ensures StoryInv(n, d, k + 1, Next(Quick(n), e, Bar(BarAt(n, d, k))))
  {
    FinalIs(n, d);
    StoryBar(n, d, k, e);
    UpdateAtrInv(1, e.gauges.atr, 100.0, 100.0, 100.0);
  }

  /** And the first bar after the window enters again. */
  lemma StoryEntersAgain(n: int, d: int, e: Engine)
    requires Room(n, d) && StoryInv(n, d, Final(n, d), e)
    ensures StoryInv(n, d, Final(n, d) + 1, Next(Quick(n), e, Bar(BarAt(n, d, Final(n, d)))))
  {
    FinalIs(n, d);
    StoryBar(n, d, Final(n, d), e);
    UpdateAtrInv(1, e.gauges.atr, 102.0, 100.0, 102.0);
  }

  lemma RunOn(cfg: Config, inputs: seq<Input>, input: Input)
    requires ValidConfig(cfg)
    ensures Run(cfg, inputs + [input]) == Next(cfg, Run(cfg, inputs), input)
  {
    assert (inputs + [input])[..|inputs|] == inputs;
  }

  /** One more bar, broker included. */
  function Further(n: int, d: int, k: nat, e: Engine): Engine
    requires Room(n, d) && FullInv(Quick(n), e)
  {
    var e' := Next(Quick(n), e, Bar(BarAt(n, d, k)));
    if k == n then Next(Quick(n), e', BrokerClosedIt) else e'
  }

  lemma StoryStarts(n: int, d: int)
    requires Room(n, d)
    ensures StoryInv(n, d, 1, Further(n, d, 0, Start))
  {
    FinalIs(n, d);
    StoryFirst(n, d);
    var e := At(NewSession(Start, 0), 0);
    NewSessionInv(Start, 0);
    StoryOpens(n, d, e, BarAt(n, d, 0));
    UpdateAtrInv(1, NewAtr, 100.0, 100.0, 100.0);
  }

  lemma StoryOpens(n: int, d: int, e: Engine, c: Candle)
    requires Room(n, d) && e.phase == Idle && e.pos.None? && !e.range.rebuild && c.high == 100.0 == c.low
    ensures var e' := Dispatch(Quick(n), e, c, InRangeWindow).e;
            && Flat(e') && e'.range.bars == 1 && (e'.range.locked <==> 1 >= n)
            && e'.clock == e.clock && e'.trace.entries == e.trace.entries && e'.trace.gapResets == e.trace.gapResets
            && e'.gauges.atr == UpdateAtr(1, e.gauges.atr, c.high, c.low, c.close)
  {
  }

  lemma StoryFirst(n: int, d: int)
    requires Room(n, d)
    ensures BarAt(n, d, 0) == Candle(0, 100.0, 100.0, 100.0, 100.0, 0.0)
    ensures Next(Quick(n), Start, Bar(BarAt(n, d, 0))) ==
            Dispatch(Quick(n), At(NewSession(Start, 0), 0), BarAt(n, d, 0), InRangeWindow).e
  {
    FinalIs(n, d);
    assert Classify(Quick(n).hours, 0) == Info(InRangeWindow, 0);
  }

  lemma FurtherInv(n: int, d: int, k: nat, e: Engine)
    requires Room(n, d) && 1 <= k <= Final(n, d) && StoryInv(n, d, k, e)
    ensures StoryInv(n, d, k + 1, Further(n, d, k, e))
  {
    FinalIs(n, d);
    if k < n {
      StoryBuilds(n, d, k, e);
    } else if k == n {
      StoryEnters(n, d, e);
    } else if k < Final(n, d) {
      StoryReopens(n, d, k, e);
    } else {
      StoryEntersAgain(n, d, e);
    }
  }

  lemma StorySnoc(n: int, d: int, k: nat)
    requires Room(n, d)
    ensures Run(Quick(n), Story(n, d, k + 1)) == Further(n, d, k, Run(Quick(n), Story(n, d, k)))
  {
    var before := Story(n, d, k) + [Bar(BarAt(n, d, k))];
    RunOn(Quick(n), Story(n, d, k), Bar(BarAt(n, d, k)));
    if k == n {
      RunOn(Quick(n), before, BrokerClosedIt);
    } else {
      assert before + [] == before;
    }
  }

  /** The engine after `k + 1` bars. */
  function Tale(n: int, d: int, k: nat): (e: Engine)
    requires Room(n, d) && k <= Final(n, d)
    ensures StoryInv(n, d, k + 1, e)
  {
    if k == 0 then
      StoryStarts(n, d);
      Further(n, d, 0, Start)
    else
      FurtherInv(n, d, k, Tale(n, d, k - 1));
      Further(n, d, k, Tale(n, d, k - 1))
  }

  lemma {:induction false} TaleIsRun(n: int, d: int, k: nat)
    requires Room(n, d) && k <= Final(n, d)
    ensures Run(Quick(n), Story(n, d, k + 1)) == Tale(n, d, k)
    decreases k
  {
    StorySnoc(n, d, k);
    if k > 0 {
      TaleIsRun(n, d, k - 1);
    }
  }

  lemma SpacedSnoc(d: int, inputs: seq<Input>, input: Input)
    requires Spaced(d, inputs)
    requires input.Bar? && LastBar(inputs).Some? ==> input.c.ts >= LastBar(inputs).value + d
    ensures Spaced(d, inputs + [input])
    ensures LastBar(inputs + [input]) ==
            if input.Bar? && Accepts(LastBar(inputs), input.c) then Some(input.c.ts) else LastBar(inputs)
  {
    assert (inputs + [input])[..|inputs|] == inputs;
  }

  lemma {:induction false} StorySpaced(n: int, d: int, k: nat)
    requires d >= 1
    ensures Spaced(d, Story(n, d, k)) && LastBar(Story(n, d, k)) == if k == 0 then None else Some(Span(d, k - 1))
    decreases k
  {
    if k > 0 {
      var older, bar := Story(n, d, k - 1), Bar(BarAt(n, d, k - 1));
      StorySpaced(n, d, k - 1);
      SpanStep(d, k - 2);
      SpacedSnoc(d, older, bar);
      if k - 1 == n {
        SpacedSnoc(d, older + [bar], BrokerClosedIt);
      } else {
        assert older + [bar] + [] == older + [bar];
      }
    }
  }

  predicate TwiceInOne(e: Engine) {
    e.clock.session == Some(0) && e.trace.entries == 2 && e.trace.gapResets == 0
  }

  lemma TaleEnds(n: int, d: int) returns (k: nat)
    requires Room(n, d)
    ensures k <= Final(n, d) && TwiceInOne(Tale(n, d, k))
  {
    FinalIs(n, d);
    k := Final(n, d);
  }

  lemma StoryEnds(n: int, d: int) returns (inputs: seq<Input>)
    requires Room(n, d)
    ensures Spaced(d, inputs) && TwiceInOne(Run(Quick(n), inputs))
  {
    var k := TaleEnds(n, d);
    inputs := StoryTells(n, d, k);
  }

  lemma StoryTells(n: int, d: int, k: nat) returns (inputs: seq<Input>)
    requires Room(n, d) && k <= Final(n, d)
    ensures Spaced(d, inputs) && Run(Quick(n), inputs) == Tale(n, d, k)
  {
    StorySpaced(n, d, k + 1);
    TaleIsRun(n, d, k);
    inputs := Story(n, d, k + 1);
  }

  /** Wherever there is room for a second range there is a run from the start with bars `d` seconds
      apart, two entries in one session, allowed one, and no gap. */
  lemma TwoEntriesInOneSession(n: int, d: int) returns (inputs: seq<Input>)
    requires 1 <= n < 1440 && d >= 1 && (n + 1) * d < 60 * n
    ensures Spaced(d, inputs) && ValidConfig(Quick(n)) && Quick(n).oneTrade && Quick(n).hours.rangeMin == n
    ensures TwiceInOne(Run(Quick(n), inputs))
  {
    SpacingWithin(n, d);
    inputs := StoryEnds(n, d);
  }

  lemma SpacingWithin(n: int, d: int)
    requires n >= 1 && d >= 1 && (n + 1) * d < 60 * n
    ensures d < 60 && Span(d, n + 1) < 60 * n
  {
    if d >= 60 {
      SpanMonotone(n + 1, 60, d);
    }
  }

  /** Every run with bars `d` seconds apart or more keeps to one entry a session, plus one for each gap
      reset in it. */
  ghost predicate KeepsToOne(cfg: Config, d: int)
    requires ValidConfig(cfg)
  {
    forall inputs :: Spaced(d, inputs) ==> Run(cfg, inputs).trace.entries <= 1 + Run(cfg, inputs).trace.gapResets
  }

  /** One trade a session means one entry a session, at every configuration with an opening range of `n`
      minutes, exactly when `n + 1` spacings take at least those minutes. */
  lemma SpacingExact(n: int, d: int)
    requires 1 <= n < 1440 && d >= 1
    ensures (forall cfg :: ValidConfig(cfg) && cfg.oneTrade && cfg.hours.rangeMin == n ==> KeepsToOne(cfg, d)) <==>
            (n + 1) * d >= 60 * n
  {
    if (n + 1) * d >= 60 * n {
      forall cfg, inputs | ValidConfig(cfg) && cfg.oneTrade && cfg.hours.rangeMin == n && Spaced(d, inputs)
        ensures Run(cfg, inputs).trace.entries <= 1 + Run(cfg, inputs).trace.gapResets
      {
        EntriesPerSession(cfg, d, inputs);
      }
    } else {
      var inputs := TwoEntriesInOneSession(n, d);
      assert !KeepsToOne(Quick(n), d);
    }
  }

  /** And whatever the opening range, exactly when bars are at least a minute apart. */
  lemma MinuteExact(d: int)
    requires d >= 1
    ensures (forall cfg :: ValidConfig(cfg) && cfg.oneTrade ==> KeepsToOne(cfg, d)) <==> d >= 60
  {
    if d >= 60 {
      forall cfg, inputs | ValidConfig(cfg) && cfg.oneTrade && Spaced(d, inputs)
        ensures Run(cfg, inputs).trace.entries <= 1 + Run(cfg, inputs).trace.gapResets
      {
        EntriesPerSession(cfg, d, inputs);
      }
    } else {
      var inputs := TwoEntriesInOneSession(60, d);
      assert !KeepsToOne(Quick(60), d);
    }
  }
}
