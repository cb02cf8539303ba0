/** The bars of the engine's range, by the transitions it has emitted: over every run the range's ends are
    their highest high and their lowest low. */
module OrbRange {
  import opened Prelude
  import opened Models
  import opened Session
  import opened OrbEngine
  import opened OrbRuns

  // ------------------------------------------------------------------ the bars of the range

  /** What a transition emitted on bar `c` makes of the bars collected for the range. */
  function Noted(cfg: Config, bars: seq<Candle>, t: Transition, c: Candle): seq<Candle> {
    match t.event
    case RangeOpen => [c]
    case RangeBuild => bars + [c]
    case Rearm => if cfg.rearmRebuild then [] else bars
    case GapReset => []
    case _ => bars
  }

  function Collected(cfg: Config, bars: seq<Candle>, ts: seq<Transition>, c: Candle): seq<Candle>
    decreases |ts|
  {
    if ts == [] then bars else Noted(cfg, Collected(cfg, bars, ts[..|ts| - 1], c), ts[|ts| - 1], c)
  }

  /** The transitions from number `n` on. */
  function Since(log: seq<Transition>, n: nat): seq<Transition> {
    if n <= |log| then log[n..] else []
  }

  function CandleOf(input: Input): Candle {
    if input.Bar? then input.c else Candle(0, 0.0, 0.0, 0.0, 0.0, 0.0)
  }

  /** The bars at which the current range was opened and built: those since the last RANGE_OPEN, or since
      the range was last cleared for a rebuild. */
  function RangeBars(cfg: Config, inputs: seq<Input>): seq<Candle>
    requires ValidConfig(cfg)
    decreases |inputs|
  {
    if inputs == [] then []
    else
      var most, input := inputs[..|inputs| - 1], inputs[|inputs| - 1];
      Collected(cfg, RangeBars(cfg, most), Since(Run(cfg, inputs).trace.log, |Run(cfg, most).trace.log|),
                CandleOf(input))
  }

  /** Highest and lowest price of these bars. */
  ghost predicate Spans(bars: seq<Candle>, hi: real, lo: real) {
    && (forall b <- bars :: lo <= b.low && b.high <= hi)
    && (exists b <- bars :: b.high == hi) && (exists b <- bars :: b.low == lo)
  }

  ghost predicate Ends(ends: Option<(real, real)>, bars: seq<Candle>) {
    if ends.None? then bars == [] else bars != [] && Spans(bars, ends.value.0, ends.value.1)
  }

  /** The opening window is over. */
  predicate PastWindow(cfg: Config, e: Engine) {
    && e.clock.session.Some? && e.clock.last.Some?
    && e.clock.last.value >= OpenOf(cfg.hours, e.clock.session.value) + 60 * cfg.hours.rangeMin
  }

  /** Of an armed or holding engine: its range is that of these bars; it is final once there are as many as
      configured, and before that only after the window. */
  ghost predicate RangeOk(cfg: Config, e: Engine, bars: seq<Candle>) {
    e.phase != Idle ==>
      && Ends(e.range.ends, bars) && e.range.bars == |bars|
      && (e.range.locked ==> |bars| == cfg.hours.rangeMin || PastWindow(cfg, e))
      && (!e.range.locked ==> |bars| < cfg.hours.rangeMin)
  }

  // ------------------------------------------------------------------ within one step

  /** Where a step started: how many transitions there were, the bars collected, and the bar. */
  datatype From = From(n: nat, bars: seq<Candle>, c: Candle)

  function BarsNow(cfg: Config, x: From, e: Engine): seq<Candle> {
    Collected(cfg, x.bars, Since(e.trace.log, x.n), x.c)
  }

  /** Still on the way from `x`, with the range in order. */
  ghost predicate OnTheWay(cfg: Config, x: From, e: Engine) {
    x.n <= |e.trace.log| && RangeOk(cfg, e, BarsNow(cfg, x, e))
  }

  lemma LogNotes(cfg: Config, x: From, e: Engine, from: Phase, to: Phase, event: Event)
    requires x.n <= |e.trace.log|
    ensures var e' := Log(e, from, to, event);
            x.n <= |e'.trace.log| && BarsNow(cfg, x, e') == Noted(cfg, BarsNow(cfg, x, e), Transition(from, to, event),
                                                                  x.c)
  {
    var log, t := e.trace.log, Transition(from, to, event);
    assert (log + [t])[x.n..] == log[x.n..] + [t];
    assert (log[x.n..] + [t])[..|log| - x.n] == log[x.n..];
  }

  lemma SpansOne(c: Candle)
    ensures Spans([c], c.high, c.low)
  {
    assert c in [c];
  }

  lemma SpansMore(bars: seq<Candle>, hi: real, lo: real, c: Candle)
    requires bars != [] && Spans(bars, hi, lo)
    ensures Spans(bars + [c], Max(hi, c.high), Min(lo, c.low))
  {
    var more := bars + [c];
    assert c in more && forall b <- bars :: b in more;
    var top :| top in bars && top.high == hi;
    var bottom :| bottom in bars && bottom.low == lo;
    assert (if c.high > hi then c else top) in more;
    assert (if c.low < lo then c else bottom) in more;
  }

  lemma MaybeLockWay(cfg: Config, x: From, e: Engine)
    requires ValidConfig(cfg) && x.n <= |e.trace.log| && e.phase != Idle && !e.range.locked
    requires Ends(e.range.ends, BarsNow(cfg, x, e)) && e.range.bars == |BarsNow(cfg, x, e)| <= cfg.hours.rangeMin
    ensures OnTheWay(cfg, x, MaybeLock(cfg, e))
  {
    LogNotes(cfg, x, e, RangeDefined, RangeDefined, RangeLock);
  }

  lemma LeaveWay(cfg: Config, x: From, e: Engine, event: Event, reason: Reason, to: Phase, px: real)
    requires ValidConfig(cfg) && OnTheWay(cfg, x, e) && e.pos.Some? && e.phase == Breakout
    requires event !in {RangeOpen, RangeBuild, Rearm, GapReset} && to != Breakout
    ensures OnTheWay(cfg, x, Leave(cfg, e, event, reason, to, px))
  {
    LogNotes(cfg, x, e, Breakout, to, event);
    var e1 := Say(Log(e, Breakout, to, event), ExitSignal(cfg, e.pos.value, to, reason, px));
    var e2 := e1.(pos := None, phase := to);
    LogNotes(cfg, x, e2, Idle, Idle, if reason == SessionEnd then SessionDone else TradeDone);
    if to == RangeDefined {
      RearmWay(cfg, x, e2);
    }
  }

  lemma RearmWay(cfg: Config, x: From, e: Engine)
    requires ValidConfig(cfg) && OnTheWay(cfg, x, e) && e.phase == RangeDefined
    ensures OnTheWay(cfg, x, Rearmed(cfg, e))
  {
    LogNotes(cfg, x, e, RangeDefined, RangeDefined, Rearm);
    LogNotes(cfg, x, e.(range := Range(None, 0, false, true)), RangeDefined, RangeDefined, Rearm);
  }

  lemma ForceFlatWay(cfg: Config, x: From, e: Engine)
    requires ValidConfig(cfg) && Shape(e) && OnTheWay(cfg, x, e)
    ensures OnTheWay(cfg, x, ForceFlat(cfg, e))
  {
    if e.pos.Some? {
      var to := PostExit(cfg, e);
      LogNotes(cfg, x, e, Breakout, to, ExitBroker);
      var e1 := Say(Log(e, Breakout, to, ExitBroker), ExitSignal(cfg, e.pos.value, to, BrokerClosed, e.pos.value.stop));
      if to == RangeDefined {
        RearmWay(cfg, x, e1.(pos := None, phase := to));
      }
    }
  }

  lemma NewSessionWay(cfg: Config, x: From, e: Engine, session: int)
    requires x.n <= |e.trace.log|
    ensures OnTheWay(cfg, x, NewSession(e, session))
  {
    LogNotes(cfg, x, e, e.phase, Idle, SessionReset);
  }

  lemma AfterGapWay(cfg: Config, x: From, e: Engine, c: Candle, zone: Zone)
    requires ValidConfig(cfg) && Shape(e) && OnTheWay(cfg, x, e)
    ensures OnTheWay(cfg, x, AfterGap(cfg, e, c, zone))
  {
    var e1 := e;
    if e.phase == Breakout {
      LeaveWay(cfg, x, e, ExitGap, GapInvalidate, Idle, c.close);
      e1 := Leave(cfg, e, ExitGap, GapInvalidate, Idle, c.close);
    }
    var e2 := e1.(gauges := NewGauges, trace := e1.trace.(gapResets := e1.trace.gapResets + 1));
    LogNotes(cfg, x, e2, e2.phase, RangeDefined, GapReset);
    LogNotes(cfg, x, e2, e2.phase, Idle, GapReset);
  }

  lemma OnIdleWay(cfg: Config, x: From, e: Engine, zone: Zone)
    requires ValidConfig(cfg) && OnTheWay(cfg, x, e) && e.phase == Idle
    ensures OnTheWay(cfg, x, OnIdle(cfg, e, x.c, zone))
  {
    if zone == InRangeWindow {
      LogNotes(cfg, x, e, Idle, RangeDefined, RangeOpen);
      SpansOne(x.c);
      MaybeLockWay(cfg, x, Log(e, Idle, RangeDefined, RangeOpen).(
                   phase := RangeDefined, range := Range(Some((x.c.high, x.c.low)), 1, false, e.range.rebuild)));
    }
  }

  lemma BuildWay(cfg: Config, x: From, e: Engine)
    requires ValidConfig(cfg) && OnTheWay(cfg, x, e) && e.phase == RangeDefined && !e.range.locked
    ensures OnTheWay(cfg, x, MaybeLock(cfg, Log(e.(range := Built(e.range, x.c)), RangeDefined, RangeDefined,
                                                RangeBuild)))
  {
    var e1, bars := e.(range := Built(e.range, x.c)), BarsNow(cfg, x, e);
    LogNotes(cfg, x, e1, RangeDefined, RangeDefined, RangeBuild);
    if e.range.ends.None? {
      SpansOne(x.c);
      assert bars + [x.c] == [x.c];
    } else {
      SpansMore(bars, e.range.ends.value.0, e.range.ends.value.1, x.c);
    }
    MaybeLockWay(cfg, x, Log(e1, RangeDefined, RangeDefined, RangeBuild));
  }

  lemma LockedWay(cfg: Config, x: From, e: Engine)
    requires OnTheWay(cfg, x, e) && e.phase == RangeDefined && PastWindow(cfg, e)
    ensures OnTheWay(cfg, x, Locked(e))
  {
    LogNotes(cfg, x, e, RangeDefined, RangeDefined, RangeLock);
  }

  lemma CheckWay(cfg: Config, x: From, e: Engine, c: Candle)
    requires ValidConfig(cfg) && OnTheWay(cfg, x, e) && e.phase == RangeDefined
    requires e.range.ends.Some? && Warm(cfg, e.gauges)
    ensures OnTheWay(cfg, x, CheckBreakout(cfg, e, c).e)
  {
    var broken := Broken(e.range.ends.value, c.close);
    if broken.Some? && (if broken.value.Long? then cfg.allowLong else cfg.allowShort) {
      match Momentum(cfg, e.gauges, c, broken.value)
      case Fault =>
      case Fail =>
      case Pass => EnterWay(cfg, x, e, Opening(cfg, c, broken.value, e.gauges.atr.value.value));
    }
  }

  lemma EnterWay(cfg: Config, x: From, e: Engine, p: Position)
    requires OnTheWay(cfg, x, e) && e.phase == RangeDefined
    ensures OnTheWay(cfg, x, Enter(cfg, e, p))
  {
    var e1 := e.(pos := Some(p), clock := e.clock.(traded := true));
    LogNotes(cfg, x, e1, RangeDefined, Breakout, if p.dir.Long? then BreakoutLong else BreakoutShort);
  }

  lemma OnRangeDefinedWay(cfg: Config, x: From, e: Engine, zone: Zone)
    requires ValidConfig(cfg) && Shape(e) && OnTheWay(cfg, x, e) && e.phase == RangeDefined
    requires zone == InSession ==> PastWindow(cfg, e)
    ensures OnTheWay(cfg, x, OnRangeDefined(cfg, e, x.c, zone).e)
  {
    if (zone == InRangeWindow || e.range.rebuild) && !e.range.locked {
      BuildWay(cfg, x, e);
    } else {
      var e1 := e;
      if zone == InSession && !e.range.locked {
        LockedWay(cfg, x, e);
        e1 := Locked(e);
      }
      if Warm(cfg, e1.gauges) {
        CheckWay(cfg, x, e1, x.c);
      }
    }
  }

  lemma OnBreakoutWay(cfg: Config, x: From, e: Engine)
    requires ValidConfig(cfg) && Shape(e) && OnTheWay(cfg, x, e) && e.phase == Breakout
    ensures OnTheWay(cfg, x, OnBreakout(cfg, e, x.c))
  {
    var c := x.c;
    var p, ends := Aged(e.pos.value, c), e.range.ends.value;
    var e1 := e.(pos := Some(p));
    assert OnTheWay(cfg, x, e1);
    var to := PostExit(cfg, e1);
    if Reentered(cfg, p, ends, c) {
      LeaveWay(cfg, x, e1, ExitReentry, RangeReentry, to,
               if cfg.reentryOnClose then c.close else if p.dir.Long? then ends.0 else ends.1);
    } else if TargetHit(cfg, p, c) {
      var px := if cfg.reentryOnClose then c.close else p.tp.value;
      LogNotes(cfg, x, e1, Breakout, Breakout, ExitTpPartial);
      if cfg.tpFrac >= 1.0 {
        LeaveWay(cfg, x, e1, ExitTp, TakeProfit, to, px);
      }
    } else if TrailHit(cfg, p, c) {
      LeaveWay(cfg, x, e1, ExitTrail, TrailStop, to, if cfg.reentryOnClose then c.close else p.stop);
    }
  }

  lemma DispatchWay(cfg: Config, x: From, e: Engine, zone: Zone)
    requires ValidConfig(cfg) && Shape(e) && OnTheWay(cfg, x, e) && (e.phase == Idle || InHours(zone))
    requires zone == InSession ==> PastWindow(cfg, e)
    ensures OnTheWay(cfg, x, Dispatch(cfg, e, x.c, zone).e)
  {
    var e1 := Fed(cfg, e, x.c, zone);
    assert OnTheWay(cfg, x, e1) && Shape(e1);
    if e1.phase == Idle {
      OnIdleWay(cfg, x, e1, zone);
    } else if e1.phase == RangeDefined {
      OnRangeDefinedWay(cfg, x, e1, zone);
    } else {
      OnBreakoutWay(cfg, x, e1);
    }
  }

  /** A bar of the session the clock stands in moves the clock on. */
  lemma AtWay(cfg: Config, x: From, e: Engine, ts: int)
    requires OnTheWay(cfg, x, e) && (e.clock.last.Some? ==> e.clock.last.value <= ts)
    ensures OnTheWay(cfg, x, At(e, ts))
  {
  }

  lemma InSessionIsPast(cfg: Config, e: Engine, ts: int)
    requires ValidConfig(cfg) && e.clock.session == Some(Classify(cfg.hours, ts).session) && e.clock.last == Some(ts)
    ensures Classify(cfg.hours, ts).zone == InSession ==> PastWindow(cfg, e)
  {
    WindowMeaning(cfg.hours, ts);
  }

  lemma CrossBoundaryWay(cfg: Config, x: From, e: Engine)
    requires ValidConfig(cfg) && FullInv(cfg, e) && OnTheWay(cfg, x, e)
    ensures OnTheWay(cfg, x, CrossBoundary(cfg, e, x.c, Classify(cfg.hours, x.c.ts)).0)
  {
    var info := Classify(cfg.hours, x.c.ts);
    if e.phase == Breakout {
      LeaveWay(cfg, x, e, ExitSession, SessionEnd, Idle, x.c.close);
      NewSessionWay(cfg, x, Leave(cfg, e, ExitSession, SessionEnd, Idle, x.c.close), info.session);
    } else {
      NewSessionInv(e, info.session);
      NewSessionWay(cfg, x, e, info.session);
      var e1 := At(NewSession(e, info.session), x.c.ts);
      InSessionIsPast(cfg, e1, x.c.ts);
      DispatchWay(cfg, x, e1, info.zone);
    }
  }

  lemma AfterHoursWay(cfg: Config, x: From, e: Engine)
    requires ValidConfig(cfg) && FullInv(cfg, e) && OnTheWay(cfg, x, e)
    requires e.clock.last.Some? ==> e.clock.last.value <= x.c.ts
    ensures OnTheWay(cfg, x, AfterHours(cfg, e, x.c))
  {
    AtWay(cfg, x, e, x.c.ts);
    var e1 := At(e, x.c.ts);
    LogNotes(cfg, x, e1, e.phase, Idle, SessionDone);
    if e.phase == Breakout {
      LeaveWay(cfg, x, e1, ExitSession, SessionEnd, Idle, x.c.close);
    }
  }

  lemma GappedWay(cfg: Config, x: From, e: Engine, info: Info)
    requires ValidConfig(cfg) && FullInv(cfg, e) && OnTheWay(cfg, x, e) && info == Classify(cfg.hours, x.c.ts)
    requires e.clock.last.Some? && x.c.ts > e.clock.last.value && e.clock.session == Some(info.session)
    ensures var gapped := At(AfterGap(cfg, e, x.c, info.zone), x.c.ts);
            OnTheWay(cfg, x, gapped) && Shape(gapped) && OnTheWay(cfg, x, Dispatch(cfg, gapped, x.c, info.zone).e)
  {
    AfterGapWay(cfg, x, e, x.c, info.zone);
    AfterGapInv(cfg, e, x.c, info.zone);
    AfterGapModest(cfg, e, x.c, info.zone);
    var gapped := At(AfterGap(cfg, e, x.c, info.zone), x.c.ts);
    AtWay(cfg, x, AfterGap(cfg, e, x.c, info.zone), x.c.ts);
    InSessionIsPast(cfg, gapped, x.c.ts);
    DispatchWay(cfg, x, gapped, info.zone);
  }

  lemma WithinWay(cfg: Config, x: From, e: Engine, info: Info)
    requires ValidConfig(cfg) && FullInv(cfg, e) && OnTheWay(cfg, x, e) && info == Classify(cfg.hours, x.c.ts)
    requires e.clock.last.Some? && x.c.ts > e.clock.last.value
    requires e.clock.session == Some(info.session) && info.zone != After
    ensures OnTheWay(cfg, x, Dispatch(cfg, At(e, x.c.ts), x.c, info.zone).e)
  {
    StaysInHours(cfg, e, info.zone, x.c.ts);
    AtWay(cfg, x, e, x.c.ts);
    InSessionIsPast(cfg, At(e, x.c.ts), x.c.ts);
    DispatchWay(cfg, x, At(e, x.c.ts), info.zone);
  }

  lemma NextWay(cfg: Config, x: From, e: Engine, input: Input)
    requires ValidConfig(cfg) && FullInv(cfg, e) && OnTheWay(cfg, x, e) && x.c == CandleOf(input)
    ensures OnTheWay(cfg, x, Next(cfg, e, input))
  {
    match input
    case BrokerClosedIt => ForceFlatWay(cfg, x, e);
    case Bar(c) =>
      if Valid(c) && !(e.clock.last.Some? && c.ts <= e.clock.last.value) {
        var info := Classify(cfg.hours, c.ts);
        if e.clock.session != Some(info.session) {
          CrossBoundaryWay(cfg, x, e);
        } else if info.zone == After {
          AfterHoursWay(cfg, x, e);
        } else if IsReset(cfg, e, c.ts) {
          GappedWay(cfg, x, e, info);
        } else {
          WithinWay(cfg, x, e, info);
        }
      }
  }

  /** Over every run: an armed or holding engine's range has the highest high and the lowest low of the bars
      at which it was opened and built; there are as many of them as configured, unless the window ran
      out first or the range is not final yet. */
  lemma {:induction false} RangeIsBars(cfg: Config, inputs: seq<Input>)
    requires ValidConfig(cfg)
    ensures RangeOk(cfg, Run(cfg, inputs), RangeBars(cfg, inputs))
    decreases |inputs|
  {
    if inputs != [] {
      var most, input := inputs[..|inputs| - 1], inputs[|inputs| - 1];
      RangeIsBars(cfg, most);
      var e := Run(cfg, most);
      var x := From(|e.trace.log|, RangeBars(cfg, most), CandleOf(input));
      assert Since(e.trace.log, x.n) == [];
      NextWay(cfg, x, e, input);
    }
  }
}
