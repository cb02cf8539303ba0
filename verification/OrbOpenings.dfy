/** What a session's entries are paid for, on bars of any length. */
module OrbOpenings {
  import opened Prelude
  import opened Models
  import opened Session
  import opened OrbEngine
  import opened OrbRuns

  /** How many ranges the current session has opened: the RANGE_OPEN transitions since the last reset
      of the session. */
  function Openings(log: seq<Transition>): nat
    decreases |log|
  {
    if log == [] then 0
    else
      var before := Openings(log[..|log| - 1]);
      match log[|log| - 1].event
      case SessionReset => 0
      case RangeOpen => before + 1
      case _ => before
  }

  /** Every entry so far, and the one an armed range may still bring, has an opening or a gap reset of
      its own. */
  predicate Paid(e: Engine) {
    e.trace.entries + (if e.phase == RangeDefined then 1 else 0) <= Openings(e.trace.log) + e.trace.gapResets
  }

  lemma LogOpenings(e: Engine, from: Phase, to: Phase, event: Event)
    requires event != SessionReset
    ensures Openings(Log(e, from, to, event).trace.log) == Openings(e.trace.log) + if event == RangeOpen then 1 else 0
  {
    assert Log(e, from, to, event).trace.log[..|e.trace.log|] == e.trace.log;
  }

  lemma MaybeLockPaid(cfg: Config, e: Engine)
    requires Paid(e)
    ensures Paid(MaybeLock(cfg, e))
  {
    LogOpenings(e, RangeDefined, RangeDefined, RangeLock);
  }

  lemma LeavePaid(cfg: Config, e: Engine, event: Event, reason: Reason, px: real)
    requires Paid(e) && e.pos.Some? && e.phase == Breakout && event != SessionReset
    ensures var e' := Leave(cfg, e, event, reason, Idle, px);
            Paid(e') && e'.phase == Idle
  {
    LogOpenings(e, Breakout, Idle, event);
    var e1 := Say(Log(e, Breakout, Idle, event), ExitSignal(cfg, e.pos.value, Idle, reason, px));
    LogOpenings(e1.(pos := None, phase := Idle), Idle, Idle, if reason == SessionEnd then SessionDone else TradeDone);
  }

  lemma OnIdlePaid(cfg: Config, e: Engine, c: Candle, zone: Zone)
    requires Paid(e) && e.phase == Idle
    ensures Paid(OnIdle(cfg, e, c, zone))
  {
    LogOpenings(e, Idle, RangeDefined, RangeOpen);
    if zone == InRangeWindow {
      MaybeLockPaid(cfg, Log(e, Idle, RangeDefined, RangeOpen).(
                    phase := RangeDefined, range := Range(Some((c.high, c.low)), 1, false, e.range.rebuild)));
    }
  }

  lemma EnterPaid(cfg: Config, e: Engine, p: Position)
    requires Paid(e) && e.phase == RangeDefined
    ensures Paid(Enter(cfg, e, p))
  {
    var event := if p.dir.Long? then BreakoutLong else BreakoutShort;
    LogOpenings(e, RangeDefined, Breakout, event);
    LogOpenings(e.(pos := Some(p), clock := e.clock.(traded := true)), RangeDefined, Breakout, event);
  }

  lemma CheckBreakoutPaid(cfg: Config, e: Engine, c: Candle)
    requires ValidConfig(cfg) && e.range.ends.Some? && Warm(cfg, e.gauges)
    requires Paid(e) && e.phase == RangeDefined
    ensures Paid(CheckBreakout(cfg, e, c).e)
  {
    var broken := Broken(e.range.ends.value, c.close);
    if broken.Some? && (if broken.value.Long? then cfg.allowLong else cfg.allowShort) {
      match Momentum(cfg, e.gauges, c, broken.value)
      case Fault =>
      case Fail =>
      case Pass => EnterPaid(cfg, e, Opening(cfg, c, broken.value, e.gauges.atr.value.value));
    }
  }

  lemma OnRangeDefinedPaid(cfg: Config, e: Engine, c: Candle, zone: Zone)
    requires ValidConfig(cfg) && Shape(e) && Paid(e) && e.phase == RangeDefined && InHours(zone)
    ensures Paid(OnRangeDefined(cfg, e, c, zone).e)
  {
    if (zone == InRangeWindow || e.range.rebuild) && !e.range.locked {
      var e1 := e.(range := Built(e.range, c));
      LogOpenings(e1, RangeDefined, RangeDefined, RangeBuild);
      MaybeLockPaid(cfg, Log(e1, RangeDefined, RangeDefined, RangeBuild));
    } else {
      LogOpenings(e, RangeDefined, RangeDefined, RangeLock);
      var e1 := if zone == InSession && !e.range.locked then Locked(e) else e;
      if Warm(cfg, e1.gauges) {
        CheckBreakoutPaid(cfg, e1, c);
      }
    }
  }

  lemma PartialPaid(cfg: Config, e: Engine, px: real)
    requires e.pos.Some? && Paid(e) && e.phase == Breakout
    ensures Paid(PartialTp(cfg, e, px))
  {
    LogOpenings(e, Breakout, Breakout, ExitTpPartial);
  }

  lemma OnBreakoutPaid(cfg: Config, e: Engine, c: Candle)
    requires cfg.oneTrade && Shape(e) && Paid(e) && e.phase == Breakout
    ensures Paid(OnBreakout(cfg, e, c))
  {
    var p, ends := Aged(e.pos.value, c), e.range.ends.value;
    var e1 := e.(pos := Some(p));
    assert Paid(e1) && PostExit(cfg, e1) == Idle;
    if Reentered(cfg, p, ends, c) {
      LeavePaid(cfg, e1, ExitReentry, RangeReentry,
                if cfg.reentryOnClose then c.close else if p.dir.Long? then ends.0 else ends.1);
    } else if TargetHit(cfg, p, c) {
      var px := if cfg.reentryOnClose then c.close else p.tp.value;
      if cfg.tpFrac < 1.0 {
        PartialPaid(cfg, e1, px);
      } else {
        LeavePaid(cfg, e1, ExitTp, TakeProfit, px);
      }
    } else if TrailHit(cfg, p, c) {
      LeavePaid(cfg, e1, ExitTrail, TrailStop, if cfg.reentryOnClose then c.close else p.stop);
    }
  }

  lemma DispatchPaid(cfg: Config, e: Engine, c: Candle, zone: Zone)
    requires ValidConfig(cfg) && cfg.oneTrade && Shape(e) && Paid(e) && (e.phase == Idle || InHours(zone))
    ensures Paid(Dispatch(cfg, e, c, zone).e)
  {
    var e1 := Fed(cfg, e, c, zone);
    assert Shape(e1) && Paid(e1);
    if e1.phase == Idle {
      OnIdlePaid(cfg, e1, c, zone);
    } else if e1.phase == RangeDefined {
      OnRangeDefinedPaid(cfg, e1, c, zone);
    } else {
      OnBreakoutPaid(cfg, e1, c);
    }
  }

  /** A new session owes nothing. */
  lemma CrossBoundaryPaid(cfg: Config, e: Engine, c: Candle)
    requires ValidConfig(cfg) && cfg.oneTrade && FullInv(cfg, e)
    ensures Paid(CrossBoundary(cfg, e, c, Classify(cfg.hours, c.ts)).0)
  {
    var info := Classify(cfg.hours, c.ts);
    if e.phase != Breakout {
      NewSessionInv(e, info.session);
      DispatchPaid(cfg, At(NewSession(e, info.session), c.ts), c, info.zone);
    }
  }

  lemma AfterHoursPaid(cfg: Config, e: Engine, c: Candle)
    requires FullInv(cfg, e) && Paid(e)
    ensures Paid(AfterHours(cfg, e, c))
  {
    var e1 := At(e, c.ts);
    LogOpenings(e1, e.phase, Idle, SessionDone);
    if e.phase == Breakout {
      LeavePaid(cfg, e1, ExitSession, SessionEnd, c.close);
    }
  }

  /** A gap reset pays for the range it arms. */
  lemma AfterGapPaid(cfg: Config, e: Engine, c: Candle, zone: Zone)
    requires Inv(e) && Paid(e)
    ensures Paid(AfterGap(cfg, e, c, zone))
  {
    var e1 := e;
    if e.phase == Breakout {
      LeavePaid(cfg, e, ExitGap, GapInvalidate, c.close);
      e1 := Leave(cfg, e, ExitGap, GapInvalidate, Idle, c.close);
    }
    var e2 := e1.(gauges := NewGauges, trace := e1.trace.(gapResets := e1.trace.gapResets + 1));
    LogOpenings(e2, e2.phase, RangeDefined, GapReset);
    LogOpenings(e2, e2.phase, Idle, GapReset);
  }

  lemma GappedPaid(cfg: Config, e: Engine, c: Candle, info: Info)
    requires ValidConfig(cfg) && cfg.oneTrade && FullInv(cfg, e) && Paid(e) && info == Classify(cfg.hours, c.ts)
    requires e.clock.last.Some? && c.ts > e.clock.last.value && e.clock.session == Some(info.session)
    ensures var gapped := At(AfterGap(cfg, e, c, info.zone), c.ts);
            Paid(gapped) && Shape(gapped) && Paid(Dispatch(cfg, gapped, c, info.zone).e)
  {
    AfterGapPaid(cfg, e, c, info.zone);
    AfterGapInv(cfg, e, c, info.zone);
    AfterGapModest(cfg, e, c, info.zone);
    DispatchPaid(cfg, At(AfterGap(cfg, e, c, info.zone), c.ts), c, info.zone);
  }

  lemma WithinPaid(cfg: Config, e: Engine, c: Candle, info: Info)
    requires ValidConfig(cfg) && cfg.oneTrade && FullInv(cfg, e) && Paid(e) && info == Classify(cfg.hours, c.ts)
    requires e.clock.last.Some? && c.ts > e.clock.last.value && e.clock.session == Some(info.session)
             && info.zone != After
    ensures Paid(Dispatch(cfg, At(e, c.ts), c, info.zone).e)
  {
    StaysInHours(cfg, e, info.zone, c.ts);
    DispatchPaid(cfg, At(e, c.ts), c, info.zone);
  }

  lemma BrokerClosedPaid(cfg: Config, e: Engine)
    requires cfg.oneTrade && Inv(e) && Paid(e)
    ensures Paid(ForceFlat(cfg, e))
  {
    LogOpenings(e, Breakout, Idle, ExitBroker);
  }

  lemma NextPaid(cfg: Config, e: Engine, input: Input)
    requires ValidConfig(cfg) && cfg.oneTrade && FullInv(cfg, e) && Paid(e)
    ensures Paid(Next(cfg, e, input))
  {
    match input
    case BrokerClosedIt => BrokerClosedPaid(cfg, e);
    case Bar(c) =>
      if Valid(c) && !(e.clock.last.Some? && c.ts <= e.clock.last.value) {
        var info := Classify(cfg.hours, c.ts);
        if e.clock.session != Some(info.session) {
          CrossBoundaryPaid(cfg, e, c);
        } else if info.zone == After {
          AfterHoursPaid(cfg, e, c);
        } else if IsReset(cfg, e, c.ts) {
          GappedPaid(cfg, e, c, info);
        } else {
          WithinPaid(cfg, e, c, info);
        }
      }
  }

  /** With one trade a session and bars of any length, at any point of any run, the session's entries
      are at most the ranges it has opened and the gap resets in it: only an idle engine that meets the
      opening window again can trade again. */
  lemma {:induction false} EntriesArePaidFor(cfg: Config, inputs: seq<Input>)
    requires ValidConfig(cfg) && cfg.oneTrade
    ensures var e := Run(cfg, inputs);
            e.trace.entries + (if e.phase == RangeDefined then 1 else 0) <= Openings(e.trace.log) + e.trace.gapResets
    decreases |inputs|
  {
    if inputs != [] {
      EntriesArePaidFor(cfg, inputs[..|inputs| - 1]);
      NextPaid(cfg, Run(cfg, inputs[..|inputs| - 1]), inputs[|inputs| - 1]);
    }
  }
}
