/** The breakout engine as an object: the handlers update its fields step by step, and each is the
    corresponding step of `OrbEngine`. */
module OrbClass {
  import opened Prelude
  import opened Models
  import opened Session
  import opened Indicators
  import opened OrbEngine
  import OrbRuns

  class Orb {
    const cfg: Config
    var state: Phase
    var ends: Option<(real, real)>   // the range's high and low
    var rangeBars: nat
    var rangeLocked: bool
    var rebuild: bool
    var pos: Option<Position>
    var gauges: Gauges
    var lastTs: Option<int>
    var sessionId: Option<int>
    var traded: bool
    var trace: Trace

    function Model(): Engine
      reads this
    {
      Engine(state, Range(ends, rangeBars, rangeLocked, rebuild), pos, gauges, Clock(lastTs, sessionId, traded), trace)
    }

    constructor (cfg: Config)
      ensures this.cfg == cfg && Model() == Start
    {
      this.cfg := cfg;
      state, pos, gauges := Idle, None, NewGauges;
      ends, rangeBars, rangeLocked, rebuild := None, 0, false, false;
      lastTs, sessionId, traded := None, None, false;
      trace := Trace([], [], 0, 0);
    }

    method Emit(from: Phase, to: Phase, event: Event)
      modifies this`trace
      ensures Model() == Log(old(Model()), from, to, event)
    {
      trace := trace.(log := trace.log + [Transition(from, to, event)]);
    }

    method Tell(s: Signal)
      modifies this`trace
      ensures Model() == Say(old(Model()), s)
    {
      trace := trace.(signals := trace.signals + [s]);
      if s.kind == Entry {
        trace := trace.(entries := trace.entries + 1);
      }
    }

    method ClearRange()
      modifies this`ends, this`rangeBars, this`rangeLocked
      ensures ends == None && rangeBars == 0 && !rangeLocked
    {
      ends, rangeBars, rangeLocked := None, 0, false;
    }

    method RearmRange()
      modifies this`ends, this`rangeBars, this`rangeLocked, this`rebuild, this`trace
      ensures Model() == Rearmed(cfg, old(Model()))
    {
      if cfg.rearmRebuild {
        ClearRange();
        rebuild := true;
      }
      Emit(RangeDefined, RangeDefined, Rearm);
    }

    /** `_exit`. */
    method ExitPosition(event: Event, reason: Reason, to: Phase, px: real)
      requires pos.Some?
      modifies this
      ensures Model() == Leave(cfg, old(Model()), event, reason, to, px)
    {
      Emit(Breakout, to, event);
      Tell(ExitSignal(cfg, pos.value, to, reason, px));
      pos := None;
      state := to;
      if to == Idle {
        Emit(Idle, Idle, if reason == SessionEnd then SessionDone else TradeDone);
      } else {
        RearmRange();
      }
    }

    /** `force_flat`. */
    method ForceFlatNow()
      modifies this
      ensures Model() == ForceFlat(cfg, old(Model()))
    {
      if pos.None? {
        return;
      }
      var p := pos.value;
      var to := PostExit(cfg, Model());
      Emit(Breakout, to, ExitBroker);
      Tell(ExitSignal(cfg, p, to, BrokerClosed, p.stop));
      pos := None;
      state := to;
      if to == RangeDefined {
        RearmRange();
      }
    }

    /** `_reset_for_new_session`. */
    method ResetForNewSession(id: int)
      modifies this
      ensures Model() == NewSession(old(Model()), id)
    {
      gauges := NewGauges;
      if sessionId.Some? {
        Emit(state, Idle, SessionReset);
      }
      state := Idle;
      ClearRange();
      pos := None;
      rebuild := false;
      traded := false;
      sessionId := Some(id);
      trace := trace.(entries := 0, gapResets := 0);
    }

    /** `_handle_gap_reset`. */
    method HandleGapReset(c: Candle, zone: Zone)
      requires state == Breakout ==> pos.Some?
      modifies this
      ensures Model() == AfterGap(cfg, old(Model()), c, zone)
    {
      if state == Breakout {
        ExitPosition(ExitGap, GapInvalidate, Idle, c.close);
      }
      StartOver(zone);
    }

    method StartOver(zone: Zone)
      modifies this
      ensures Model() == Restarted(old(Model()), zone)
    {
      gauges := NewGauges;
      trace := trace.(gapResets := trace.gapResets + 1);
      if InHours(zone) {
        Emit(state, RangeDefined, GapReset);
        state := RangeDefined;
        ClearRange();
        rebuild := true;
      } else {
        if state != Idle {
          Emit(state, Idle, GapReset);
        }
        state := Idle;
        ClearRange();
        rebuild := false;
      }
    }

    method LockRange()
      modifies this`rangeLocked, this`rebuild, this`trace
      ensures Model() == Locked(old(Model()))
    {
      rangeLocked := true;
      rebuild := false;
      Emit(RangeDefined, RangeDefined, RangeLock);
    }

    method MaybeLockRange()
      modifies this`rangeLocked, this`rebuild, this`trace
      ensures Model() == MaybeLock(cfg, old(Model()))
    {
      if rangeBars >= cfg.hours.rangeMin {
        LockRange();
      }
    }

    /** `_on_idle`. */
    method HandleIdle(c: Candle, zone: Zone)
      modifies this
      ensures Model() == OnIdle(cfg, old(Model()), c, zone)
    {
      if zone == InRangeWindow {
        ends, rangeBars := Some((c.high, c.low)), 1;
        rangeLocked := false;
        Emit(Idle, RangeDefined, RangeOpen);
        state := RangeDefined;
        MaybeLockRange();
      }
    }

    /** `_on_range_defined`. */
    method HandleRangeDefined(c: Candle, zone: Zone) returns (fault: bool)
      requires ValidConfig(cfg) && (rangeLocked || !rebuild ==> ends.Some?)
      modifies this
      ensures Out(Model(), fault) == OnRangeDefined(cfg, old(Model()), c, zone)
    {
      fault := false;
      var building := zone == InRangeWindow || rebuild;
      if building && !rangeLocked {
        if ends.None? {
          ends, rangeBars := Some((c.high, c.low)), 1;
        } else {
          ends := Some((Max(ends.value.0, c.high), Min(ends.value.1, c.low)));
          rangeBars := rangeBars + 1;
        }
        Emit(RangeDefined, RangeDefined, RangeBuild);
        MaybeLockRange();
        return;
      }
      if zone == InSession && !rangeLocked {
        LockRange();
      }
      if !Warm(cfg, gauges) {
        return;
      }
      fault := HandleBreakoutCheck(c);
    }

    /** `_check_breakout`. */
    method HandleBreakoutCheck(c: Candle) returns (fault: bool)
      requires ValidConfig(cfg) && ends.Some? && Warm(cfg, gauges)
      modifies this
      ensures Out(Model(), fault) == CheckBreakout(cfg, old(Model()), c)
    {
      fault := false;
      var dir: Direction;
      if c.close > ends.value.0 {
        dir := Long;
      } else if c.close < ends.value.1 {
        dir := Short;
      } else {
        return;
      }
      if (dir.Long? && !cfg.allowLong) || (dir.Short? && !cfg.allowShort) {
        return;
      }
      var verdict := Momentum(cfg, gauges, c, dir);
      if verdict == Fault {
        return true;
      }
      if verdict == Fail {
        Tell(Signal(Reject, dir, c.close, RangeDefined, RangeDefined, MomentumFail, None, None, Qty(cfg)));
        return;
      }
      var atr := gauges.atr.value.value;
      var dist := StopDist(cfg, atr);
      var stop := if dir.Long? then c.close - dist else c.close + dist;
      var p := Position(dir, c.ts, c.close, stop, atr, Target(cfg, dir, c.close, stop), 0, 0.0, 0.0);
      pos := Some(p);
      traded := true;
      Emit(RangeDefined, Breakout, if dir.Long? then BreakoutLong else BreakoutShort);
      state := Breakout;
      Tell(Signal(Entry, dir, c.close, RangeDefined, Breakout, ByBreakout, Some(stop), p.tp, Qty(cfg)));
    }

    /** `_partial_tp`. */
    method TakePartial(px: real)
      requires pos.Some?
      modifies this
      ensures Model() == PartialTp(cfg, old(Model()), px)
    {
      var p := pos.value;
      var closed := PartialQty(cfg);
      Emit(Breakout, Breakout, ExitTpPartial);
      Tell(Signal(Exit, p.dir, px, Breakout, Breakout, TakeProfitPartial, Some(p.stop), p.tp, closed));
      pos := Some(p.(tp := None));
    }

    /** `_on_breakout`. */
    method HandleBreakout(c: Candle)
      requires pos.Some? && ends.Some? && gauges.atr.value.Some?
      modifies this
      ensures Model() == OnBreakout(cfg, old(Model()), c)
    {
      pos := Some(Aged(pos.value, c));
      var p := pos.value;
      if Reentered(cfg, p, ends.value, c) {
        var px := if cfg.reentryOnClose then c.close else if p.dir.Long? then ends.value.0 else ends.value.1;
        ExitPosition(ExitReentry, RangeReentry, PostExit(cfg, Model()), px);
        return;
      }
      if TargetHit(cfg, p, c) {
        var px := if cfg.reentryOnClose then c.close else p.tp.value;
        if cfg.tpFrac < 1.0 {
          TakePartial(px);
        } else {
          ExitPosition(ExitTp, TakeProfit, PostExit(cfg, Model()), px);
        }
        return;
      }
      if TrailHit(cfg, p, c) {
        var px := if cfg.reentryOnClose then c.close else p.stop;
        ExitPosition(ExitTrail, TrailStop, PostExit(cfg, Model()), px);
        return;
      }
      var dist := StopDist(cfg, gauges.atr.value.value);
      var stop := if p.dir.Long? then Max(p.stop, c.close - dist) else Min(p.stop, c.close + dist);
      pos := Some(p.(stop := stop));
    }

    method FeedGauges(c: Candle, zone: Zone)
      requires ValidConfig(cfg)
      modifies this`gauges
      ensures Model() == Fed(cfg, old(Model()), c, zone)
    {
      if InHours(zone) {
        var g := gauges;
        g := g.(atr := UpdateAtr(cfg.atrPeriod, g.atr, c.high, c.low, c.close));
        if cfg.useRoc {
          g := g.(roc := UpdateRoc(cfg.rocPeriod, g.roc, c.close));
        }
        if cfg.useRvol {
          g := g.(sma := UpdateSma(cfg.rvolPeriod, g.sma, c.volume));
        }
        gauges := g;
      }
    }

    method FeedAndDispatch(c: Candle, zone: Zone) returns (outcome: Outcome)
      requires ValidConfig(cfg) && Shape(Model())
      modifies this
      ensures (Model(), outcome) == Finished(Dispatch(cfg, old(Model()), c, zone))
    {
      outcome := Done;
      FeedGauges(c, zone);
      if state == Idle {
        HandleIdle(c, zone);
      } else if state == RangeDefined {
        var fault := HandleRangeDefined(c, zone);
        if fault {
          outcome := ZeroDivisor;
        }
      } else {
        HandleBreakout(c);
      }
    }

    /** A bar after the session's end. */
    method EndSession(c: Candle)
      requires Shape(Model())
      modifies this
      ensures Model() == AfterHours(cfg, old(Model()), c)
    {
      lastTs := Some(c.ts);
      if state == Breakout {
        ExitPosition(ExitSession, SessionEnd, Idle, c.close);
      } else if state != Idle {
        Emit(state, Idle, SessionDone);
        state := Idle;
        ClearRange();
      }
    }

    /** A bar after a gap that resets: a position it closes is all there is to it. */
    method AfterReset(c: Candle, info: Info) returns (outcome: Outcome)
      requires ValidConfig(cfg) && OrbRuns.FullInv(cfg, Model())
      requires info == Classify(cfg.hours, c.ts) && sessionId == Some(info.session)
      requires lastTs.Some? && c.ts > lastTs.value
      modifies this
      ensures var gapped := At(AfterGap(cfg, old(Model()), c, info.zone), c.ts);
              (Model(), outcome) == if old(state) == Breakout then (gapped, Done)
                                    else Finished(Dispatch(cfg, gapped, c, info.zone))
    {
      outcome := Done;
      OrbRuns.GappedInv(cfg, Model(), c, info);
      var held := state == Breakout;
      HandleGapReset(c, info.zone);
      lastTs := Some(c.ts);
      if !held {
        outcome := FeedAndDispatch(c, info.zone);
      }
    }

    /** A bar in the session the engine knows: session end, then gap, then the handlers. */
    method SameSession(c: Candle, info: Info) returns (outcome: Outcome)
      requires ValidConfig(cfg) && OrbRuns.FullInv(cfg, Model()) && Valid(c)
      requires lastTs.Some? ==> c.ts > lastTs.value
      requires info == Classify(cfg.hours, c.ts) && sessionId == Some(info.session)
      modifies this
      ensures (Model(), outcome) == OnCandle(cfg, old(Model()), c)
    {
      outcome := Done;
      if info.zone == After {
        EndSession(c);
      } else if IsReset(cfg, Model(), c.ts) {
        outcome := AfterReset(c, info);
      } else {
        lastTs := Some(c.ts);
        outcome := FeedAndDispatch(c, info.zone);
      }
    }

    /** `on_candle`. */
    method Feed(c: Candle) returns (outcome: Outcome)
      requires ValidConfig(cfg) && OrbRuns.FullInv(cfg, Model())
      modifies this
      ensures (Model(), outcome) == OnCandle(cfg, old(Model()), c)
      ensures OrbRuns.FullInv(cfg, Model())
    {
      OrbRuns.OnCandleInv(cfg, Model(), c);
      if !Valid(c) {
        return Malformed;
      }
      if lastTs.Some? && c.ts <= lastTs.value {
        return if cfg.strict then OutOfOrder else Dropped;
      }
      var info := Classify(cfg.hours, c.ts);
      if sessionId != Some(info.session) {
        outcome := Done;
        var held := state == Breakout;
        if held {
          ExitPosition(ExitSession, SessionEnd, Idle, c.close);
        }
        ResetForNewSession(info.session);
        lastTs := Some(c.ts);
        if !held {
          outcome := FeedAndDispatch(c, info.zone);
        }
      } else {
        outcome := SameSession(c, info);
      }
    }
  }
}
