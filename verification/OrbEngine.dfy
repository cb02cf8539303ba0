/** The opening-range-breakout engine: one closed candle at a time through the states idle, range
    defined and breakout.

    The engine's trace (transitions and signals emitted so far) is part of its state here, so that
    statements about whole runs are statements about a reachable state. */
module OrbEngine {
  import opened Prelude
  import opened Models
  import opened Session
  import opened Indicators

  datatype Config = Config(
    hours: Hours,
    useRoc: bool, rocPeriod: int, rocMin: real,
    useRvol: bool, rvolPeriod: int, rvolMin: real,
    atrPeriod: int, atrMult: real, stopMax: Option<real>, stopMin: Option<real>,
    reentryOnClose: bool, qty: real, tpRrr: Option<real>, tpFrac: real,
    allowLong: bool, allowShort: bool,
    oneTrade: bool, rearm: bool, rearmRebuild: bool,
    barSec: int, maxGap: int, gapReset: bool, strict: bool)

  /** What the configuration insists on, as far as the engine depends on it. */
  predicate ValidConfig(cfg: Config) {
    && ValidHours(cfg.hours)
    && cfg.rocPeriod >= 1 && cfg.rvolPeriod >= 1 && cfg.atrPeriod >= 1
    && cfg.barSec >= 1 && cfg.maxGap >= 0
  }

  datatype Phase = Idle | RangeDefined | Breakout

  datatype Position = Position(dir: Direction, entryTs: int, entryPrice: real, stop: real, atrAtEntry: real,
                               tp: Option<real>, barsHeld: nat, mfe: real, mae: real)

  /** The range's (high, low), how many bars built it, and whether it is final or being rebuilt. */
  datatype Range = Range(ends: Option<(real, real)>, bars: nat, locked: bool, rebuild: bool)

  datatype Gauges = Gauges(atr: Atr, roc: Roc, sma: Sma)

  datatype Clock = Clock(last: Option<int>, session: Option<int>, traded: bool)

  datatype Event =
    | RangeOpen | RangeBuild | RangeLock | Rearm
    | BreakoutLong | BreakoutShort
    | ExitTpPartial | ExitTp | ExitTrail | ExitReentry | ExitBroker | ExitSession | ExitGap
    | TradeDone | SessionDone | GapReset | SessionReset

  datatype Transition = Transition(from: Phase, to: Phase, event: Event)

  datatype Kind = Entry | Exit | Reject

  datatype Reason =
    | ByBreakout | MomentumFail
    | TakeProfitPartial | TakeProfit | TrailStop | RangeReentry | SessionEnd | GapInvalidate | BrokerClosed

  datatype Signal = Signal(kind: Kind, dir: Direction, price: real, from: Phase, to: Phase, reason: Reason,
                           stop: Option<real>, tp: Option<real>, qty: Option<real>)

  /** What has been emitted, and how many entries and gap resets the current session has seen. */
  datatype Trace = Trace(log: seq<Transition>, signals: seq<Signal>, entries: nat, gapResets: nat)

  datatype Engine = Engine(phase: Phase, range: Range, pos: Option<Position>, gauges: Gauges, clock: Clock,
                           trace: Trace)

  const NoRange := Range(None, 0, false, false)
  const NewGauges := Gauges(NewAtr, [], NewSma)
  const Start := Engine(Idle, NoRange, None, NewGauges, Clock(None, None, false), Trace([], [], 0, 0))

  // ------------------------------------------------------------------ emitting

  function Log(e: Engine, from: Phase, to: Phase, event: Event): Engine {
    e.(trace := e.trace.(log := e.trace.log + [Transition(from, to, event)]))
  }

  function Say(e: Engine, s: Signal): Engine {
    e.(trace := e.trace.(signals := e.trace.signals + [s],
    entries := e.trace.entries + if s.kind == Entry then 1 else 0))
  }

  function Qty(cfg: Config): Option<real> {
    if cfg.qty > 0.0 then Some(cfg.qty) else None
  }

  // ------------------------------------------------------------------ leaving a position

  function PostExit(cfg: Config, e: Engine): Phase {
    if !cfg.oneTrade && cfg.rearm && (cfg.rearmRebuild || e.range.locked) then RangeDefined else Idle
  }

  function Rearmed(cfg: Config, e: Engine): Engine {
    var e' := if cfg.rearmRebuild then e.(range := Range(None, 0, false, true)) else e;
    Log(e', RangeDefined, RangeDefined, Rearm)
  }

  function ExitSignal(cfg: Config, p: Position, to: Phase, reason: Reason, px: real): Signal {
    Signal(Exit, p.dir, px, Breakout, to, reason, Some(p.stop), p.tp, Qty(cfg))
  }

  /** `_exit`. */
  function Leave(cfg: Config, e: Engine, event: Event, reason: Reason, to: Phase, px: real): Engine
    requires e.pos.Some?
  {
    var e1 := Say(Log(e, Breakout, to, event), ExitSignal(cfg, e.pos.value, to, reason, px));
    var e2 := e1.(pos := None, phase := to);
    if to == Idle then Log(e2, Idle, Idle, if reason == SessionEnd then SessionDone else TradeDone)
    else Rearmed(cfg, e2)
  }

  /** `force_flat`: the broker closed the position. */
  function ForceFlat(cfg: Config, e: Engine): Engine {
    if e.pos.None? then e
    else
      var to, p := PostExit(cfg, e), e.pos.value;
      var e1 := Say(Log(e, Breakout, to, ExitBroker), ExitSignal(cfg, p, to, BrokerClosed, p.stop));
      var e2 := e1.(pos := None, phase := to);
      if to == RangeDefined then Rearmed(cfg, e2) else e2
  }

  // ------------------------------------------------------------------ resets

  function NewSession(e: Engine, session: int): Engine {
    var e1 := if e.clock.session.Some? then Log(e, e.phase, Idle, SessionReset) else e;
    e1.(phase := Idle, range := NoRange, pos := None, gauges := NewGauges,
    clock := e.clock.(session := Some(session), traded := false),
    trace := e1.trace.(entries := 0, gapResets := 0))
  }

  function InHours(zone: Zone): bool {
    zone == InRangeWindow || zone == InSession
  }

  function AfterGap(cfg: Config, e: Engine, c: Candle, zone: Zone): Engine
    requires e.phase == Breakout ==> e.pos.Some?
  {
    Restarted(if e.phase == Breakout then Leave(cfg, e, ExitGap, GapInvalidate, Idle, c.close) else e, zone)
  }

  /** Indicators and range anew. */
  function Restarted(e: Engine, zone: Zone): Engine {
    var e2 := e.(gauges := NewGauges, trace := e.trace.(gapResets := e.trace.gapResets + 1));
    if InHours(zone) then
      Log(e2, e2.phase, RangeDefined, GapReset).(phase := RangeDefined, range := Range(None, 0, false, true))
    else
      var e3 := if e2.phase != Idle then Log(e2, e2.phase, Idle, GapReset) else e2;
      e3.(phase := Idle, range := NoRange)
  }

  // ------------------------------------------------------------------ range building

  function Locked(e: Engine): Engine {
    Log(e, RangeDefined, RangeDefined, RangeLock).(range := e.range.(locked := true, rebuild := false))
  }

  function MaybeLock(cfg: Config, e: Engine): Engine {
    if e.range.bars >= cfg.hours.rangeMin then Locked(e) else e
  }

  function OnIdle(cfg: Config, e: Engine, c: Candle, zone: Zone): Engine {
    if zone == InRangeWindow then
      MaybeLock(cfg, Log(e, Idle, RangeDefined, RangeOpen).(
                phase := RangeDefined, range := Range(Some((c.high, c.low)), 1, false, e.range.rebuild)))
    else e
  }

  function Built(r: Range, c: Candle): Range {
    match r.ends
    case None => r.(ends := Some((c.high, c.low)), bars := 1)
    case Some((hi, lo)) => r.(ends := Some((Max(hi, c.high), Min(lo, c.low))), bars := r.bars + 1)
  }

  /** A handler's result; `fault`: the rate of change had a zero divisor and the original raised. */
  datatype Out = Out(e: Engine, fault: bool)

  function OnRangeDefined(cfg: Config, e: Engine, c: Candle, zone: Zone): Out
    requires ValidConfig(cfg)
    requires e.range.locked || !e.range.rebuild ==> e.range.ends.Some?
  {
    var building := zone == InRangeWindow || e.range.rebuild;
    if building && !e.range.locked then
      var e1 := e.(range := Built(e.range, c));
      Out(MaybeLock(cfg, Log(e1, RangeDefined, RangeDefined, RangeBuild)), false)
    else
      var e1 := if zone == InSession && !e.range.locked then Locked(e) else e;
      if !Warm(cfg, e1.gauges) then Out(e1, false) else CheckBreakout(cfg, e1, c)
  }

  // ------------------------------------------------------------------ breaking out

  predicate Warm(cfg: Config, g: Gauges) {
    && g.atr.value.Some?
    && (cfg.useRoc ==> RocReady(cfg.rocPeriod, g.roc))
    && (cfg.useRvol ==> SmaReady(cfg.rvolPeriod, g.sma))
  }

  datatype Verdict = Pass | Fail | Fault

  function RelativeVolume(cfg: Config, g: Gauges, volume: real): real
    requires ValidConfig(cfg)
  {
    var sma := SmaValue(cfg.rvolPeriod, g.sma);
    if sma > 0.0 then volume / sma else 0.0
  }

  function Momentum(cfg: Config, g: Gauges, c: Candle, dir: Direction): Verdict
    requires ValidConfig(cfg) && Warm(cfg, g)
  {
    if cfg.useRoc && RocValue(cfg.rocPeriod, g.roc).None? then Fault
    else if cfg.useRoc && (var roc := RocValue(cfg.rocPeriod, g.roc).value;
                           if dir.Long? then roc < cfg.rocMin else roc > -cfg.rocMin) then Fail
    else if cfg.useRvol && RelativeVolume(cfg, g, c.volume) < cfg.rvolMin then Fail
    else Pass
  }

  /** The stop distance, clamped from above and then from below. */
  function StopDist(cfg: Config, atr: real): real {
    var d := cfg.atrMult * atr;
    var d1 := if cfg.stopMax.Some? then Min(d, cfg.stopMax.value) else d;
    if cfg.stopMin.Some? then Max(d1, cfg.stopMin.value) else d1
  }

  function Behind(dir: Direction, px: real, dist: real): real {
    if dir.Long? then px - dist else px + dist
  }

  function Target(cfg: Config, dir: Direction, px: real, stop: real): Option<real> {
    if cfg.tpRrr.None? then None else Some(Behind(dir, px, -(cfg.tpRrr.value * Abs(stop - px))))
  }

  function Opening(cfg: Config, c: Candle, dir: Direction, atr: real): Position {
    var stop := Behind(dir, c.close, StopDist(cfg, atr));
    Position(dir, c.ts, c.close, stop, atr, Target(cfg, dir, c.close, stop), 0, 0.0, 0.0)
  }

  function Enter(cfg: Config, e: Engine, p: Position): Engine {
    var e1 := e.(pos := Some(p), clock := e.clock.(traded := true));
    var e2 := Log(e1, RangeDefined, Breakout, if p.dir.Long? then BreakoutLong else BreakoutShort).(phase := Breakout);
    Say(e2, Signal(Entry, p.dir, p.entryPrice, RangeDefined, Breakout, ByBreakout, Some(p.stop), p.tp, Qty(cfg)))
  }

  /** Which way the close has left the range, if it has. */
  function Broken(ends: (real, real), close: real): Option<Direction> {
    if close > ends.0 then Some(Long) else if close < ends.1 then Some(Short) else None
  }

  function CheckBreakout(cfg: Config, e: Engine, c: Candle): Out
    requires ValidConfig(cfg) && e.range.ends.Some? && Warm(cfg, e.gauges)
  {
    var broken := Broken(e.range.ends.value, c.close);
    if broken.None? || !(if broken.value.Long? then cfg.allowLong else cfg.allowShort) then Out(e, false)
    else
      match Momentum(cfg, e.gauges, c, broken.value)
      case Fault => Out(e, true)
      case Fail =>
        var dir := broken.value;
        Out(Say(e, Signal(Reject, dir, c.close, RangeDefined, RangeDefined, MomentumFail, None, None, Qty(cfg))), false)
      case Pass => Out(Enter(cfg, e, Opening(cfg, c, broken.value, e.gauges.atr.value.value)), false)
  }

  // ------------------------------------------------------------------ managing a position

  function Aged(p: Position, c: Candle): Position {
    p.(barsHeld := p.barsHeld + 1,
    mfe := Max(p.mfe, if p.dir.Long? then c.high - p.entryPrice else p.entryPrice - c.low),
    mae := Max(p.mae, if p.dir.Long? then p.entryPrice - c.low else c.high - p.entryPrice))
  }

  predicate Reentered(cfg: Config, p: Position, ends: (real, real), c: Candle) {
    if p.dir.Long? then (if cfg.reentryOnClose then c.close else c.low) <= ends.0
    else (if cfg.reentryOnClose then c.close else c.high) >= ends.1
  }

  predicate TargetHit(cfg: Config, p: Position, c: Candle) {
    p.tp.Some? &&
    if p.dir.Long? then (if cfg.reentryOnClose then c.close else c.high) >= p.tp.value
    else (if cfg.reentryOnClose then c.close else c.low) <= p.tp.value
  }

  predicate TrailHit(cfg: Config, p: Position, c: Candle) {
    if p.dir.Long? then (if cfg.reentryOnClose then c.close else c.low) <= p.stop
    else (if cfg.reentryOnClose then c.close else c.high) >= p.stop
  }

  function PartialQty(cfg: Config): Option<real> {
    if cfg.qty > 0.0 then Some(cfg.qty * cfg.tpFrac) else None
  }

  /** Closes part of the position at its target; the rest rides the trail. */
  function PartialTp(cfg: Config, e: Engine, px: real): Engine
    requires e.pos.Some?
  {
    var p := e.pos.value;
    var closed := PartialQty(cfg);
    var e1 := Say(Log(e, Breakout, Breakout, ExitTpPartial),
                  Signal(Exit, p.dir, px, Breakout, Breakout, TakeProfitPartial, Some(p.stop), p.tp, closed));
    e1.(pos := Some(p.(tp := None)))
  }

  function Ratcheted(cfg: Config, p: Position, close: real, atr: real): Position {
    var candidate := Behind(p.dir, close, StopDist(cfg, atr));
    p.(stop := if p.dir.Long? then Max(p.stop, candidate) else Min(p.stop, candidate))
  }

  function OnBreakout(cfg: Config, e: Engine, c: Candle): Engine
    requires e.pos.Some? && e.range.ends.Some? && e.gauges.atr.value.Some?
  {
    var p, ends := Aged(e.pos.value, c), e.range.ends.value;
    var e1 := e.(pos := Some(p));
    if Reentered(cfg, p, ends, c) then
      Leave(cfg, e1, ExitReentry, RangeReentry, PostExit(cfg, e1),
            if cfg.reentryOnClose then c.close else if p.dir.Long? then ends.0 else ends.1)
    else if TargetHit(cfg, p, c) then
      var px := if cfg.reentryOnClose then c.close else p.tp.value;
      if cfg.tpFrac < 1.0 then PartialTp(cfg, e1, px)
      else Leave(cfg, e1, ExitTp, TakeProfit, PostExit(cfg, e1), px)
    else if TrailHit(cfg, p, c) then
      Leave(cfg, e1, ExitTrail, TrailStop, PostExit(cfg, e1), if cfg.reentryOnClose then c.close else p.stop)
    else
      e1.(pos := Some(Ratcheted(cfg, p, c.close, e.gauges.atr.value.value)))
  }

  // ------------------------------------------------------------------ one candle

  function Fed(cfg: Config, e: Engine, c: Candle, zone: Zone): Engine
    requires ValidConfig(cfg)
  {
    if !InHours(zone) then e
    else
      var g := e.gauges;
      e.(gauges := Gauges(
         UpdateAtr(cfg.atrPeriod, g.atr, c.high, c.low, c.close),
         if cfg.useRoc then UpdateRoc(cfg.rocPeriod, g.roc, c.close) else g.roc,
         if cfg.useRvol then UpdateSma(cfg.rvolPeriod, g.sma, c.volume) else g.sma))
  }

  /** What every handler relies on: a position exists exactly in breakout, and then the range is
      locked and known and the average true range has a value; an armed range is known. */
  predicate Shape(e: Engine) {
    && (e.phase == Breakout <==> e.pos.Some?)
    && (e.phase == Breakout ==> e.range.locked && e.range.ends.Some? && e.gauges.atr.value.Some?)
    && (e.phase == RangeDefined && (e.range.locked || !e.range.rebuild) ==> e.range.ends.Some?)
  }

  function Dispatch(cfg: Config, e: Engine, c: Candle, zone: Zone): Out
    requires ValidConfig(cfg) && Shape(e)
  {
    var e1 := Fed(cfg, e, c, zone);
    match e1.phase
    case Idle => Out(OnIdle(cfg, e1, c, zone), false)
    case RangeDefined => OnRangeDefined(cfg, e1, c, zone)
    case Breakout => Out(OnBreakout(cfg, e1, c), false)
  }

  predicate IsReset(cfg: Config, e: Engine, ts: int)
    requires ValidConfig(cfg)
  {
    e.clock.last.Some? &&
    var gap := RoundHalfEven(ts - e.clock.last.value, cfg.barSec) - 1;
    gap > 0 && (gap > cfg.maxGap || cfg.gapReset)
  }

  function At(e: Engine, ts: int): Engine {
    e.(clock := e.clock.(last := Some(ts)))
  }

  datatype Outcome = Done | Dropped | Malformed | OutOfOrder | ZeroDivisor

  function Finished(o: Out): (Engine, Outcome) {
    (o.e, if o.fault then ZeroDivisor else Done)
  }

  /** The first bar of a session: a position carried over is closed, and the bar is then over. */
  function CrossBoundary(cfg: Config, e: Engine, c: Candle, info: Info): (Engine, Outcome)
    requires ValidConfig(cfg) && Shape(e)
  {
    if e.phase == Breakout then
      (At(NewSession(Leave(cfg, e, ExitSession, SessionEnd, Idle, c.close), info.session), c.ts), Done)
    else
      Finished(Dispatch(cfg, At(NewSession(e, info.session), c.ts), c, info.zone))
  }

  /** A bar after the session's end. */
  function AfterHours(cfg: Config, e: Engine, c: Candle): Engine
    requires Shape(e)
  {
    var e1 := At(e, c.ts);
    if e.phase == Breakout then Leave(cfg, e1, ExitSession, SessionEnd, Idle, c.close)
    else if e.phase != Idle then
      Log(e1, e.phase, Idle, SessionDone).(phase := Idle, range := e.range.(ends := None, bars := 0, locked := false))
    else e1
  }

  function OnCandle(cfg: Config, e: Engine, c: Candle): (Engine, Outcome)
    requires ValidConfig(cfg) && Shape(e)
  {
    if !Valid(c) then (e, Malformed)
    else if e.clock.last.Some? && c.ts <= e.clock.last.value then (e, if cfg.strict then OutOfOrder else Dropped)
    else
      var info := Classify(cfg.hours, c.ts);
      if e.clock.session != Some(info.session) then CrossBoundary(cfg, e, c, info)
      else if info.zone == After then (AfterHours(cfg, e, c), Done)
      else if IsReset(cfg, e, c.ts) then
        var e1 := At(AfterGap(cfg, e, c, info.zone), c.ts);
        if e.phase == Breakout then (e1, Done) else Finished(Dispatch(cfg, e1, c, info.zone))
      else Finished(Dispatch(cfg, At(e, c.ts), c, info.zone))
  }
}
