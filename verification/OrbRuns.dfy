/** What holds in every run of the breakout engine. */
module OrbRuns {
  import opened Prelude
  import opened Models
  import opened Session
  import opened Indicators
  import opened OrbEngine

  // ------------------------------------------------------------------ the path of transitions

  /** The edges each event may label. */
  predicate Legal(t: Transition) {
    match t.event
    case RangeOpen => t.from == Idle && t.to == RangeDefined
    case RangeBuild => t.from == RangeDefined && t.to == RangeDefined
    case RangeLock => t.from == RangeDefined && t.to == RangeDefined
    case Rearm => t.from == RangeDefined && t.to == RangeDefined
    case BreakoutLong => t.from == RangeDefined && t.to == Breakout
    case BreakoutShort => t.from == RangeDefined && t.to == Breakout
    case ExitTpPartial => t.from == Breakout && t.to == Breakout
    case ExitTp => t.from == Breakout && t.to != Breakout
    case ExitTrail => t.from == Breakout && t.to != Breakout
    case ExitReentry => t.from == Breakout && t.to != Breakout
    case ExitBroker => t.from == Breakout && t.to != Breakout
    case ExitSession => t.from == Breakout && t.to == Idle
    case ExitGap => t.from == Breakout && t.to == Idle
    case TradeDone => t.from == Idle && t.to == Idle
    case SessionDone => t.from != Breakout && t.to == Idle
    case GapReset => t.from != Breakout && t.to != Breakout
    case SessionReset => t.from != Breakout && t.to == Idle
  }

  function EndOf(log: seq<Transition>): Phase {
    if log == [] then Idle else log[|log| - 1].to
  }

  /** Each transition starts where the one before it ended, the first in idle, along legal edges. */
  predicate IsPath(log: seq<Transition>) {
    forall i :: 0 <= i < |log| ==> Legal(log[i]) && log[i].from == EndOf(log[..i])
  }

  // ------------------------------------------------------------------ the grammar of signals

  /** What a reader of the signals believes: flat, or holding with the last stop it was told, and
      whether part has been closed. */
  datatype Holding = Flat | Held(dir: Direction, stop: real, partial: bool)

  predicate NotLooser(dir: Direction, a: real, b: real) {
    if dir.Long? then a >= b else a <= b
  }

  /** (ENTRY, at most one partial EXIT, final EXIT) repeated, in one direction, with a stop that never
      loosens; REJECT only while flat.  None: the signal does not fit. */
  function Accept(h: Holding, s: Signal): Option<Holding> {
    match s.kind
    case Reject => if h.Flat? then Some(Flat) else None
    case Entry => if h.Flat? && s.stop.Some? then Some(Held(s.dir, s.stop.value, false)) else None
    case Exit =>
      if h.Flat? || s.dir != h.dir || s.stop.None? || !NotLooser(h.dir, s.stop.value, h.stop) then None
      else if s.reason != TakeProfitPartial then Some(Flat)
      else if h.partial then None
      else Some(Held(h.dir, s.stop.value, true))
  }

  function Read(signals: seq<Signal>): Option<Holding> {
    if signals == [] then Some(Flat)
    else
      var h := Read(signals[..|signals| - 1]);
      if h.None? then None else Accept(h.value, signals[|signals| - 1])
  }

  predicate Fits(pos: Option<Position>, h: Holding) {
    if pos.None? then h.Flat?
    else h.Held? && h.dir == pos.value.dir && NotLooser(h.dir, pos.value.stop, h.stop)
         && (h.partial ==> pos.value.tp.None?)
  }

  // ------------------------------------------------------------------ the invariant

  predicate PathInv(e: Engine) {
    IsPath(e.trace.log) && EndOf(e.trace.log) == e.phase
  }

  predicate SignalInv(e: Engine) {
    var h := Read(e.trace.signals);
    h.Some? && Fits(e.pos, h.value)
  }

  predicate Inv(e: Engine) {
    Shape(e) && PathInv(e) && SignalInv(e)
  }

  lemma LogPath(e: Engine, from: Phase, to: Phase, event: Event)
    requires IsPath(e.trace.log) && EndOf(e.trace.log) == from && Legal(Transition(from, to, event))
    ensures IsPath(Log(e, from, to, event).trace.log) && EndOf(Log(e, from, to, event).trace.log) == to
  {
    var log, log' := e.trace.log, Log(e, from, to, event).trace.log;
    forall i | 0 <= i < |log'| ensures Legal(log'[i]) && log'[i].from == EndOf(log'[..i]) {
      assert log'[..i] == log[..i];
      if i == |log| {
        assert log[..i] == log;
      }
    }
  }

  lemma SayReads(e: Engine, s: Signal)
    requires Read(e.trace.signals).Some?
    ensures Read(Say(e, s).trace.signals) == Accept(Read(e.trace.signals).value, s)
  {
    assert Say(e, s).trace.signals[..|e.trace.signals|] == e.trace.signals;
  }

  /** Leaving a position by a final signal and a legal edge. */
  lemma LeaveInv(cfg: Config, e: Engine, event: Event, reason: Reason, to: Phase, px: real)
    requires PathInv(e) && SignalInv(e) && e.phase == Breakout && e.pos.Some?
    requires Legal(Transition(Breakout, to, event)) && to != Breakout && reason != TakeProfitPartial
    requires to == RangeDefined ==> cfg.rearmRebuild || e.range.ends.Some?
    ensures Inv(Leave(cfg, e, event, reason, to, px))
  {
    var e2 := Say(Log(e, Breakout, to, event), ExitSignal(cfg, e.pos.value, to, reason, px)).(pos := None, phase := to);
    ExitInv(cfg, e, event, reason, to, px);
    if to == Idle {
      LogPath(e2, Idle, Idle, if reason == SessionEnd then SessionDone else TradeDone);
    } else {
      RearmedInv(cfg, e2);
    }
  }

  /** The final signal and the edge themselves. */
  lemma ExitInv(cfg: Config, e: Engine, event: Event, reason: Reason, to: Phase, px: real)
    requires PathInv(e) && SignalInv(e) && e.phase == Breakout && e.pos.Some?
    requires Legal(Transition(Breakout, to, event)) && to != Breakout && reason != TakeProfitPartial
    ensures var s := ExitSignal(cfg, e.pos.value, to, reason, px);
            var e2 := Say(Log(e, Breakout, to, event), s).(pos := None, phase := to);
            PathInv(e2) && SignalInv(e2)
  {
    LogPath(e, Breakout, to, event);
    SayReads(Log(e, Breakout, to, event), ExitSignal(cfg, e.pos.value, to, reason, px));
  }

  lemma RearmedInv(cfg: Config, e: Engine)
    requires PathInv(e) && SignalInv(e) && e.phase == RangeDefined && e.pos.None?
    requires cfg.rearmRebuild || e.range.ends.Some?
    ensures Inv(Rearmed(cfg, e))
  {
    LogPath(e, RangeDefined, RangeDefined, Rearm);
  }

  lemma ForceFlatInv(cfg: Config, e: Engine)
    requires Inv(e)
    ensures Inv(ForceFlat(cfg, e))
  {
    if e.pos.Some? {
      var to := PostExit(cfg, e);
      LogPath(e, Breakout, to, ExitBroker);
      var e0 := Log(e, Breakout, to, ExitBroker);
      SayReads(e0, ExitSignal(cfg, e.pos.value, to, BrokerClosed, e.pos.value.stop));
      if to == RangeDefined {
        var e1 := Say(e0, ExitSignal(cfg, e.pos.value, to, BrokerClosed, e.pos.value.stop));
        RearmedInv(cfg, e1.(pos := None, phase := to));
      }
    }
  }

  lemma NewSessionInv(e: Engine, session: int)
    requires Inv(e) && e.phase != Breakout && (e.clock.session.None? ==> e.phase == Idle)
    ensures Inv(NewSession(e, session)) && NewSession(e, session).phase == Idle
  {
    if e.clock.session.Some? {
      LogPath(e, e.phase, Idle, SessionReset);
    }
  }

  lemma AfterGapInv(cfg: Config, e: Engine, c: Candle, zone: Zone)
    requires Inv(e)
    ensures Inv(AfterGap(cfg, e, c, zone)) && AfterGap(cfg, e, c, zone).phase != Breakout
  {
    var e1 := e;
    if e.phase == Breakout {
      LeaveInv(cfg, e, ExitGap, GapInvalidate, Idle, c.close);
      e1 := Leave(cfg, e, ExitGap, GapInvalidate, Idle, c.close);
    }
    var e2 := e1.(gauges := NewGauges, trace := e1.trace.(gapResets := e1.trace.gapResets + 1));
    if InHours(zone) {
      LogPath(e2, e2.phase, RangeDefined, GapReset);
    } else if e2.phase != Idle {
      LogPath(e2, e2.phase, Idle, GapReset);
    }
  }

  lemma MaybeLockInv(cfg: Config, e: Engine)
    requires Inv(e) && e.phase == RangeDefined && e.range.ends.Some?
    ensures Inv(MaybeLock(cfg, e)) && MaybeLock(cfg, e).range.ends.Some?
  {
    LogPath(e, RangeDefined, RangeDefined, RangeLock);
  }

  lemma OnIdleInv(cfg: Config, e: Engine, c: Candle, zone: Zone)
    requires Inv(e) && e.phase == Idle
    ensures Inv(OnIdle(cfg, e, c, zone))
  {
    if zone == InRangeWindow {
      LogPath(e, Idle, RangeDefined, RangeOpen);
      MaybeLockInv(cfg, Log(e, Idle, RangeDefined, RangeOpen).(
                   phase := RangeDefined, range := Range(Some((c.high, c.low)), 1, false, e.range.rebuild)));
    }
  }

  lemma CheckBreakoutInv(cfg: Config, e: Engine, c: Candle)
    requires ValidConfig(cfg) && Inv(e) && e.phase == RangeDefined
    requires e.range.locked && e.range.ends.Some? && Warm(cfg, e.gauges)
    ensures Inv(CheckBreakout(cfg, e, c).e)
  {
    var broken := Broken(e.range.ends.value, c.close);
    if broken.Some? && (if broken.value.Long? then cfg.allowLong else cfg.allowShort) {
      var dir := broken.value;
      match Momentum(cfg, e.gauges, c, dir)
      case Fault =>
      case Fail =>
        SayReads(e, Signal(Reject, dir, c.close, RangeDefined, RangeDefined, MomentumFail, None, None, Qty(cfg)));
      case Pass =>
        EnterInv(cfg, e, Opening(cfg, c, dir, e.gauges.atr.value.value));
    }
  }

  lemma EnterInv(cfg: Config, e: Engine, p: Position)
    requires Inv(e) && e.phase == RangeDefined
    requires e.range.locked && e.range.ends.Some? && e.gauges.atr.value.Some?
    ensures Inv(Enter(cfg, e, p))
  {
    var event := if p.dir.Long? then BreakoutLong else BreakoutShort;
    LogPath(e, RangeDefined, Breakout, event);
    SayReads(Log(e, RangeDefined, Breakout, event),
             Signal(Entry, p.dir, p.entryPrice, RangeDefined, Breakout, ByBreakout, Some(p.stop), p.tp, Qty(cfg)));
  }

  lemma OnRangeDefinedInv(cfg: Config, e: Engine, c: Candle, zone: Zone)
    requires ValidConfig(cfg) && Inv(e) && e.phase == RangeDefined && InHours(zone)
    ensures Inv(OnRangeDefined(cfg, e, c, zone).e)
  {
    if (zone == InRangeWindow || e.range.rebuild) && !e.range.locked {
      var e1 := e.(range := Built(e.range, c));
      LogPath(e1, RangeDefined, RangeDefined, RangeBuild);
      MaybeLockInv(cfg, Log(e1, RangeDefined, RangeDefined, RangeBuild));
    } else {
      LogPath(e, RangeDefined, RangeDefined, RangeLock);
      var e1 := if zone == InSession && !e.range.locked then Locked(e) else e;
      if Warm(cfg, e1.gauges) {
        CheckBreakoutInv(cfg, e1, c);
      }
    }
  }

  lemma PartialTpInv(cfg: Config, e: Engine, px: real)
    requires Inv(e) && e.phase == Breakout && e.pos.value.tp.Some?
    ensures Inv(PartialTp(cfg, e, px))
  {
    LogPath(e, Breakout, Breakout, ExitTpPartial);
    var p := e.pos.value;
    var closed := PartialQty(cfg);
    SayReads(Log(e, Breakout, Breakout, ExitTpPartial),
             Signal(Exit, p.dir, px, Breakout, Breakout, TakeProfitPartial, Some(p.stop), p.tp, closed));
  }

  lemma OnBreakoutInv(cfg: Config, e: Engine, c: Candle)
    requires Inv(e) && e.phase == Breakout
    ensures Inv(OnBreakout(cfg, e, c))
  {
    var p, ends := Aged(e.pos.value, c), e.range.ends.value;
    var e1 := e.(pos := Some(p));
    assert Inv(e1);
    var to := PostExit(cfg, e1);
    if Reentered(cfg, p, ends, c) {
      LeaveInv(cfg, e1, ExitReentry, RangeReentry, to,
               if cfg.reentryOnClose then c.close else if p.dir.Long? then ends.0 else ends.1);
    } else if TargetHit(cfg, p, c) {
      var px := if cfg.reentryOnClose then c.close else p.tp.value;
      if cfg.tpFrac < 1.0 {
        PartialTpInv(cfg, e1, px);
      } else {
        LeaveInv(cfg, e1, ExitTp, TakeProfit, to, px);
      }
    } else if TrailHit(cfg, p, c) {
      LeaveInv(cfg, e1, ExitTrail, TrailStop, to, if cfg.reentryOnClose then c.close else p.stop);
    }
  }

  /** An armed or holding engine is within hours: outside them it is idle. */
  lemma DispatchInv(cfg: Config, e: Engine, c: Candle, zone: Zone)
    requires ValidConfig(cfg) && Inv(e) && (e.phase == Idle || InHours(zone))
    ensures Inv(Dispatch(cfg, e, c, zone).e)
  {
    var e1 := Fed(cfg, e, c, zone);
    assert Inv(e1);
    if e1.phase == Idle {
      OnIdleInv(cfg, e1, c, zone);
    } else if e1.phase == RangeDefined {
      OnRangeDefinedInv(cfg, e1, c, zone);
    } else {
      OnBreakoutInv(cfg, e1, c);
    }
  }

  // ------------------------------------------------------------------ one candle

  /** The engine knows the session of the last bar, and an armed or holding engine saw it in hours. */
  predicate ClockInv(cfg: Config, e: Engine) {
    && (e.clock.last.None? <==> e.clock.session.None?)
    && (e.clock.last.Some? ==> e.clock.session == Some(Classify(cfg.hours, e.clock.last.value).session))
    && (e.phase != Idle ==> e.clock.last.Some? && InHours(Classify(cfg.hours, e.clock.last.value).zone))
  }

  predicate FullInv(cfg: Config, e: Engine) {
    Inv(e) && ClockInv(cfg, e)
  }

  /** A handler leaves the clock's times alone and emits at most one signal. */
  predicate Modest(e: Engine, e': Engine) {
    && e'.clock.last == e.clock.last && e'.clock.session == e.clock.session
    && |e.trace.signals| <= |e'.trace.signals| <= |e.trace.signals| + 1
  }

  lemma CheckBreakoutModest(cfg: Config, e: Engine, c: Candle)
    requires ValidConfig(cfg) && e.range.ends.Some? && Warm(cfg, e.gauges)
    ensures Modest(e, CheckBreakout(cfg, e, c).e)
  {
  }

  lemma OnRangeDefinedModest(cfg: Config, e: Engine, c: Candle, zone: Zone)
    requires ValidConfig(cfg) && (e.range.locked || !e.range.rebuild ==> e.range.ends.Some?)
    ensures Modest(e, OnRangeDefined(cfg, e, c, zone).e)
  {
    if !((zone == InRangeWindow || e.range.rebuild) && !e.range.locked) {
      var e1 := if zone == InSession && !e.range.locked then Locked(e) else e;
      if Warm(cfg, e1.gauges) {
        CheckBreakoutModest(cfg, e1, c);
      }
    }
  }

  lemma OnBreakoutModest(cfg: Config, e: Engine, c: Candle)
    requires e.pos.Some? && e.range.ends.Some? && e.gauges.atr.value.Some?
    ensures Modest(e, OnBreakout(cfg, e, c))
  {
  }

  lemma DispatchClock(cfg: Config, e: Engine, c: Candle, zone: Zone)
    requires ValidConfig(cfg) && Shape(e)
    ensures Modest(e, Dispatch(cfg, e, c, zone).e)
    ensures e.phase == Idle && zone != InRangeWindow ==> Dispatch(cfg, e, c, zone).e.phase == Idle
  {
    var e1 := Fed(cfg, e, c, zone);
    if e1.phase == RangeDefined {
      OnRangeDefinedModest(cfg, e1, c, zone);
    } else if e1.phase == Breakout {
      OnBreakoutModest(cfg, e1, c);
    }
  }

  lemma CrossBoundaryInv(cfg: Config, e: Engine, c: Candle)
    requires ValidConfig(cfg) && FullInv(cfg, e)
    ensures var e' := CrossBoundary(cfg, e, c, Classify(cfg.hours, c.ts)).0;
            && FullInv(cfg, e') && |e'.trace.signals| <= |e.trace.signals| + 1
  {
    var info := Classify(cfg.hours, c.ts);
    if e.phase == Breakout {
      LeaveInv(cfg, e, ExitSession, SessionEnd, Idle, c.close);
      NewSessionInv(Leave(cfg, e, ExitSession, SessionEnd, Idle, c.close), info.session);
    } else {
      NewSessionInv(e, info.session);
      var e1 := At(NewSession(e, info.session), c.ts);
      DispatchInv(cfg, e1, c, info.zone);
      DispatchClock(cfg, e1, c, info.zone);
    }
  }

  lemma AfterHoursInv(cfg: Config, e: Engine, c: Candle)
    requires FullInv(cfg, e) && e.clock.session == Some(Classify(cfg.hours, c.ts).session)
    ensures FullInv(cfg, AfterHours(cfg, e, c)) && AfterHours(cfg, e, c).phase == Idle
    ensures |AfterHours(cfg, e, c).trace.signals| <= |e.trace.signals| + 1
  {
    var e1 := At(e, c.ts);
    if e.phase == Breakout {
      LeaveInv(cfg, e1, ExitSession, SessionEnd, Idle, c.close);
    } else if e.phase != Idle {
      LogPath(e1, e.phase, Idle, SessionDone);
    }
  }

  /** Within a session an armed or holding engine stays within hours until they are over. */
  lemma StaysInHours(cfg: Config, e: Engine, zone: Zone, ts: int)
    requires ValidConfig(cfg) && ClockInv(cfg, e) && e.clock.last.Some? && e.clock.last.value < ts
    requires e.clock.session == Some(Classify(cfg.hours, ts).session)
    requires zone == Classify(cfg.hours, ts).zone && zone != After
    ensures e.phase != Idle ==> InHours(zone)
  {
    ClockForward(cfg.hours, e.clock.last.value, ts);
  }

  /** Dispatching a bar of the session the clock stands in. */
  lemma DispatchFull(cfg: Config, e: Engine, c: Candle, info: Info)
    requires ValidConfig(cfg) && Inv(e) && info == Classify(cfg.hours, c.ts)
    requires e.clock.last == Some(c.ts) && e.clock.session == Some(info.session)
    requires e.phase == Idle || InHours(info.zone)
    ensures FullInv(cfg, Dispatch(cfg, e, c, info.zone).e)
    ensures |Dispatch(cfg, e, c, info.zone).e.trace.signals| <= |e.trace.signals| + 1
  {
    DispatchInv(cfg, e, c, info.zone);
    DispatchClock(cfg, e, c, info.zone);
  }

  lemma WithinInv(cfg: Config, e: Engine, c: Candle, info: Info)
    requires ValidConfig(cfg) && FullInv(cfg, e) && info == Classify(cfg.hours, c.ts)
    requires e.clock.last.Some? && c.ts > e.clock.last.value
    requires e.clock.session == Some(info.session) && info.zone != After
    ensures var e' := Dispatch(cfg, At(e, c.ts), c, info.zone).e;
            FullInv(cfg, e') && |e'.trace.signals| <= |e.trace.signals| + 1
  {
    StaysInHours(cfg, e, info.zone, c.ts);
    DispatchFull(cfg, At(e, c.ts), c, info);
  }

  lemma AfterGapModest(cfg: Config, e: Engine, c: Candle, zone: Zone)
    requires Shape(e)
    ensures var e' := AfterGap(cfg, e, c, zone);
            && e'.clock == e.clock && (e'.phase == Idle || InHours(zone))
            && |e'.trace.signals| <= |e.trace.signals| + if e.phase == Breakout then 1 else 0
  {
  }

  lemma GappedInv(cfg: Config, e: Engine, c: Candle, info: Info)
    requires ValidConfig(cfg) && FullInv(cfg, e) && info == Classify(cfg.hours, c.ts)
    requires e.clock.last.Some? && c.ts > e.clock.last.value && e.clock.session == Some(info.session)
    ensures var gapped := At(AfterGap(cfg, e, c, info.zone), c.ts);
            && FullInv(cfg, gapped) && |gapped.trace.signals| <= |e.trace.signals| + 1
            && FullInv(cfg, Dispatch(cfg, gapped, c, info.zone).e)
            && (e.phase != Breakout ==> |Dispatch(cfg, gapped, c, info.zone).e.trace.signals| <= |e.trace.signals| + 1)
  {
    AfterGapInv(cfg, e, c, info.zone);
    AfterGapModest(cfg, e, c, info.zone);
    DispatchFull(cfg, At(AfterGap(cfg, e, c, info.zone), c.ts), c, info);
  }

  lemma OnCandleInv(cfg: Config, e: Engine, c: Candle)
    requires ValidConfig(cfg) && FullInv(cfg, e)
    ensures FullInv(cfg, OnCandle(cfg, e, c).0)
    ensures |OnCandle(cfg, e, c).0.trace.signals| <= |e.trace.signals| + 1
  {
    if Valid(c) && !(e.clock.last.Some? && c.ts <= e.clock.last.value) {
      var info := Classify(cfg.hours, c.ts);
      if e.clock.session != Some(info.session) {
        CrossBoundaryInv(cfg, e, c);
      } else if info.zone == After {
        AfterHoursInv(cfg, e, c);
      } else {
        WithinInv(cfg, e, c, info);
        GappedInv(cfg, e, c, info);
      }
    }
  }

  // ------------------------------------------------------------------ every run

  datatype Input = Bar(c: Candle) | BrokerClosedIt

  function Next(cfg: Config, e: Engine, input: Input): (e': Engine)
    requires ValidConfig(cfg) && FullInv(cfg, e)
    ensures FullInv(cfg, e')
  {
    match input
    case Bar(c) => OnCandleInv(cfg, e, c); OnCandle(cfg, e, c).0
    case BrokerClosedIt => ForceFlatInv(cfg, e); ForceFlat(cfg, e)
  }

  function Run(cfg: Config, inputs: seq<Input>): (e: Engine)
    requires ValidConfig(cfg)
    ensures FullInv(cfg, e)
    decreases |inputs|
  {
    if inputs == [] then Start else Next(cfg, Run(cfg, inputs[..|inputs| - 1]), inputs[|inputs| - 1])
  }

  /** Every run of candles (any candles, in any order) and broker closes, for every configuration:
      a position exists exactly in breakout, and then the range is locked and known and the average
      true range ready, so no handler meets a missing value; and the transitions emitted form one
      path from idle along legal edges. */
  lemma EveryRun(cfg: Config, inputs: seq<Input>)
    requires ValidConfig(cfg)
    ensures var e := Run(cfg, inputs);
            && (e.phase == Breakout <==> e.pos.Some?)
            && (e.phase == Breakout ==> e.range.locked && e.range.ends.Some? && e.gauges.atr.value.Some?)
            && IsPath(e.trace.log) && EndOf(e.trace.log) == e.phase
  {
  }

  lemma {:induction false} ReadPrefix(signals: seq<Signal>, n: nat)
    requires n <= |signals| && Read(signals).Some?
    ensures Read(signals[..n]).Some?
  {
    if n < |signals| {
      ReadPrefix(signals[..|signals| - 1], n);
      assert signals[..|signals| - 1][..n] == signals[..n];
    } else {
      assert signals[..n] == signals;
    }
  }

  /** And the signals of every run fit the grammar (ENTRY, at most one partial EXIT, final EXIT)
      repeated with REJECTs in between: exits match the direction of their entry, and from entry to
      final exit no signal carries a looser stop than the one before it. */
  lemma SignalsFollowGrammar(cfg: Config, inputs: seq<Input>, n: nat)
    requires ValidConfig(cfg) && n < |Run(cfg, inputs).trace.signals|
    ensures var signals := Run(cfg, inputs).trace.signals;
            && Read(signals[..n]).Some?
            && Accept(Read(signals[..n]).value, signals[n]).Some?
            && (signals[n].kind == Exit ==>
                  var h := Read(signals[..n]).value;
                  h.Held? && signals[n].dir == h.dir && NotLooser(h.dir, signals[n].stop.value, h.stop))
  {
    var signals := Run(cfg, inputs).trace.signals;
    ReadPrefix(signals, n);
    ReadPrefix(signals, n + 1);
    assert signals[..n + 1][..n] == signals[..n];
  }
}
