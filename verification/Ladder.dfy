/** The ladder exit manager: volume rungs, a final target, and a stop that moves at most twice. */
module Ladder {
  import opened Prelude
  import opened Models
  import opened Sitters
  import Sim

  const EPS := Sim.EPS

  datatype Config = Config(partials: seq<(real, real)>, finalTpR: real, stage1AtR: real, stage2AtR: real,
                           stage2MinLockR: real, stage2Buffer: real, commPerLot: real, valuePerMove: real,
                           volMin: real, volStep: real, defaultD: real)

  /** What the constructor insists on. */
  predicate ValidConfig(cfg: Config) {
    && cfg.volStep > 0.0 && cfg.volMin > 0.0 && cfg.defaultD > 0.0
    && cfg.stage1AtR > 0.0 && cfg.stage2AtR > cfg.stage1AtR && cfg.stage2MinLockR > 0.0 && cfg.valuePerMove > 0.0
  }

  /** What the manager remembers of a position. */
  datatype Trade = Trade(entry: real, d: real, vol0: real, filled: set<nat>, stage1: bool, stage2: bool)

  function RiskDistance(cfg: Config, priceOpen: real, sl: real): real {
    var d := if sl != 0.0 then Abs(priceOpen - sl) else cfg.defaultD;
    if d <= 0.0 then cfg.defaultD else d
  }

  function NewTrade(cfg: Config, v: View): Trade {
    Trade(v.priceOpen, RiskDistance(cfg, v.priceOpen, v.sl), v.volume, {}, false, false)
  }

  function SnapDown(v: real, step: real): real
    requires step > 0.0
  {
    (v / step + EPS).Floor as real * step
  }

  /** Profit in units of the risk distance. */
  function InR(t: Trade, side: Direction, px: real): real
    requires t.d > 0.0
  {
    Profit(side, t.entry, px) / t.d
  }

  // ------------------------------------------------------------------ rungs

  /** The rungs done, the closes asked for and their volume, after the first `n` rungs. */
  datatype Climb = Climb(filled: set<nat>, closes: seq<Action>, volume: real)

  function RungVolume(cfg: Config, t: Trade, i: nat): real
    requires ValidConfig(cfg) && i < |cfg.partials|
  {
    SnapDown(t.vol0 * cfg.partials[i].1, cfg.volStep)
  }

  predicate Fillable(cfg: Config, volume: real, residual: real) {
    volume >= cfg.volMin - EPS && residual >= cfg.volMin - EPS
  }

  function Rungs(cfg: Config, t: Trade, v: View, r: real, n: nat): Climb
    requires ValidConfig(cfg) && n <= |cfg.partials|
  {
    if n == 0 then Climb(t.filled, [], 0.0)
    else
      var most := Rungs(cfg, t, v, r, n - 1);
      var i := n - 1;
      if i in most.filled || r < cfg.partials[i].0 then most
      else
        var volume := RungVolume(cfg, t, i);
        if Fillable(cfg, volume, v.volume - most.volume - volume) then
          Climb(most.filled + {i}, most.closes + [PartialClose(v.ticket, volume)], most.volume + volume)
        else
          most.(filled := most.filled + {i})
  }

  // ------------------------------------------------------------------ the stop

  function Stage1Level(cfg: Config, entry: real, side: Direction, spread: real): real
    requires ValidConfig(cfg)
  {
    var buf := spread + cfg.commPerLot / cfg.valuePerMove;
    if side.Long? then entry + buf else entry - buf
  }

  /** The profit the final stop locks at least. */
  function Locked(cfg: Config, d: real): real {
    cfg.stage2MinLockR * d
  }

  function Stage2Level(cfg: Config, entry: real, d: real, candidate: Candle, side: Direction): real {
    if side.Long? then Max(candidate.low - cfg.stage2Buffer, entry + Locked(cfg, d))
    else Min(candidate.high + cfg.stage2Buffer, entry - Locked(cfg, d))
  }

  /** The stop the confirmed candle calls for, and whether that is the final one. */
  datatype Call = Call(sl: real, final: bool)

  function StageCall(cfg: Config, t: Trade, side: Direction, candidate: Option<Candle>, spread: real): Option<Call>
    requires ValidConfig(cfg) && t.d > 0.0
  {
    if candidate.None? || t.stage2 then None
    else
      var r := InR(t, side, candidate.value.close);
      if r >= cfg.stage2AtR then Some(Call(Stage2Level(cfg, t.entry, t.d, candidate.value, side), true))
      else if !t.stage1 && r >= cfg.stage1AtR then Some(Call(Stage1Level(cfg, t.entry, side, spread), false))
      else None
  }

  /** Strictly tighter than the stop in place, and on the losing side of the close. */
  predicate Acceptable(v: View, close: real, sl: real) {
    (v.sl == 0.0 || Tighter(v.side, sl, v.sl)) && Tighter(v.side, close, sl)
  }

  function Staged(t: Trade, call: Option<Call>, v: View, close: real): Trade {
    if call.None? || !Acceptable(v, close, call.value.sl) then t
    else t.(stage1 := true, stage2 := call.value.final)
  }

  function StageAction(call: Option<Call>, v: View, close: real): seq<Action> {
    if call.None? || !Acceptable(v, close, call.value.sl) then [] else [UpdateSl(v.ticket, call.value.sl)]
  }

  // ------------------------------------------------------------------ one position, one bar

  predicate FinalReached(cfg: Config, r: real) {
    cfg.finalTpR > 0.0 && r >= cfg.finalTpR
  }

  function TradeFor(cfg: Config, tr: Option<Trade>, v: View): Trade {
    if tr.Some? then tr.value else NewTrade(cfg, v)
  }

  /** The bar's inputs besides the positions: the closed candle, the one before it, the spread. */
  datatype Tick = Tick(c: Candle, candidate: Option<Candle>, spread: real)

  /** What one bar does for one position: the trade kept (none once the final target is reached) and
      the actions asked for. */
  function Manage(cfg: Config, tr: Option<Trade>, v: View, tick: Tick): (Option<Trade>, seq<Action>)
    requires ValidConfig(cfg) && TradeFor(cfg, tr, v).d > 0.0
  {
    var t := TradeFor(cfg, tr, v);
    var r := InR(t, v.side, tick.c.close);
    var climb := Rungs(cfg, t, v, r, |cfg.partials|);
    var t1 := t.(filled := climb.filled);
    if FinalReached(cfg, r) then
      var remainder := v.volume - climb.volume;
      (None, climb.closes + if remainder > EPS then [PartialClose(v.ticket, remainder)] else [])
    else
      var call := StageCall(cfg, t1, v.side, tick.candidate, tick.spread);
      (Some(Staged(t1, call, v, tick.c.close)), climb.closes + StageAction(call, v, tick.c.close))
  }

  // ------------------------------------------------------------------ all positions, one bar

  type Book = map<int, Trade>

  predicate BookOk(book: Book) {
    forall t <- book :: book[t].d > 0.0
  }

  function Lookup(book: Book, ticket: int): Option<Trade> {
    if ticket in book then Some(book[ticket]) else None
  }

  function Store(book: Book, ticket: int, tr: Option<Trade>): Book {
    if tr.Some? then book[ticket := tr.value] else book - {ticket}
  }

  lemma RiskDistancePositive(cfg: Config, priceOpen: real, sl: real)
    requires ValidConfig(cfg)
    ensures RiskDistance(cfg, priceOpen, sl) > 0.0
  {
  }

  /** The positions in turn. */
  function Sweep(cfg: Config, book: Book, views: seq<View>, tick: Tick): (r: (Book, seq<Action>))
    requires ValidConfig(cfg) && BookOk(book)
    ensures BookOk(r.0)
    decreases |views|
  {
    if views == [] then (book, [])
    else
      var v := views[|views| - 1];
      var (most, actions) := Sweep(cfg, book, views[..|views| - 1], tick);
      var (tr, more) := Manage(cfg, Lookup(most, v.ticket), v, tick);
      (Store(most, v.ticket, tr), actions + more)
  }

  /** The manager between bars. */
  datatype State = State(book: Book, prev: Option<Candle>)

  const Fresh := State(map[], None)

  function OnBar(cfg: Config, s: State, views: seq<View>, c: Candle, spread: real): (State, seq<Action>)
    requires ValidConfig(cfg) && BookOk(s.book)
  {
    var (book, actions) := Sweep(cfg, s.book, views, Tick(c, s.prev, spread));
    (State(map t | t in book && t in Seen(views) :: book[t], Some(c)), actions)
  }

  // ------------------------------------------------------------------ what one bar promises

  /** At most one stop update per bar, after the closes; none once the final stop is set. */
  lemma OneUpdate(cfg: Config, tr: Option<Trade>, v: View, tick: Tick)
    requires ValidConfig(cfg) && TradeFor(cfg, tr, v).d > 0.0
    ensures var acts := Manage(cfg, tr, v, tick).1;
            && (forall i :: 0 <= i < |acts| && acts[i].UpdateSl? ==> i == |acts| - 1)
            && (tr.Some? && tr.value.stage2 ==> forall i :: 0 <= i < |acts| ==> acts[i].PartialClose?)
            && (forall i :: 0 <= i < |acts| ==> acts[i].ticket == v.ticket)
  {
    var t := TradeFor(cfg, tr, v);
    RungsShape(cfg, t, v, InR(t, v.side, tick.c.close), |cfg.partials|);
  }

  /** The rungs only ask for closes; they mark rungs done and never undo one; each close is within
      what is left, and leaves at least the minimum volume (less the slack) open. */
  lemma {:induction false} RungsShape(cfg: Config, t: Trade, v: View, r: real, n: nat)
    requires ValidConfig(cfg) && n <= |cfg.partials|
    ensures var climb := Rungs(cfg, t, v, r, n);
            && (forall i :: 0 <= i < |climb.closes| ==>
                  climb.closes[i].PartialClose? && climb.closes[i].ticket == v.ticket)
            && (forall i :: 0 <= i < |climb.closes| ==> climb.closes[i].volume >= cfg.volMin - EPS)
            && t.filled <= climb.filled
            && (forall i <- climb.filled :: i in t.filled || i < n)
            && (climb.closes != [] ==> v.volume - climb.volume >= cfg.volMin - EPS)
            && (climb.closes == [] ==> climb.volume == 0.0)
  {
    if n > 0 {
      RungsShape(cfg, t, v, r, n - 1);
    }
  }

  /** Each close asked for is paid for by a rung newly marked done. */
  lemma {:induction false} RungsOnce(cfg: Config, t: Trade, v: View, r: real, n: nat)
    requires ValidConfig(cfg) && n <= |cfg.partials|
    ensures var climb := Rungs(cfg, t, v, r, n);
            |climb.closes| + |t.filled| <= |climb.filled|
  {
    if n > 0 {
      RungsOnce(cfg, t, v, r, n - 1);
    }
  }

  /** A stop that is asked for is strictly tighter than the one in place and on the valid side of the
      close, and the final one locks at least the promised profit. */
  lemma UpdateIsSafe(cfg: Config, tr: Option<Trade>, v: View, tick: Tick, sl: real)
    requires ValidConfig(cfg) && TradeFor(cfg, tr, v).d > 0.0
    requires UpdateSl(v.ticket, sl) in Manage(cfg, tr, v, tick).1
    ensures v.sl == 0.0 || Tighter(v.side, sl, v.sl)
    ensures Tighter(v.side, tick.c.close, sl)
    ensures var t := TradeFor(cfg, tr, v);
            var tr' := Manage(cfg, tr, v, tick).0;
            && tr'.Some?
            && (tr'.value.stage2 ==> Profit(v.side, t.entry, sl) >= Locked(cfg, t.d))
  {
    var t := TradeFor(cfg, tr, v);
    RungsShape(cfg, t, v, InR(t, v.side, tick.c.close), |cfg.partials|);
  }

  // ------------------------------------------------------------------ the code itself

  class LadderExitManager {
    const cfg: Config
    var trades: Book
    var prevCandle: Option<Candle>

    function Model(): State
      reads this
    {
      State(trades, prevCandle)
    }

    constructor (cfg: Config)
      requires ValidConfig(cfg)
      ensures this.cfg == cfg && Model() == Fresh
    {
      this.cfg := cfg;
      trades, prevCandle := map[], None;
    }

    /** The rung loop for one position. */
    method TakeRungs(t: Trade, v: View, r: real) returns (filled: set<nat>, closes: seq<Action>, emitted: real)
      requires ValidConfig(cfg)
      ensures Climb(filled, closes, emitted) == Rungs(cfg, t, v, r, |cfg.partials|)
    {
      filled, closes, emitted := t.filled, [], 0.0;
      var i := 0;
      while i < |cfg.partials|
        invariant 0 <= i <= |cfg.partials|
        invariant Climb(filled, closes, emitted) == Rungs(cfg, t, v, r, i)
      {
        if i !in filled && r >= cfg.partials[i].0 {
          filled := filled + {i};
          var volume := RungVolume(cfg, t, i);
          var residual := v.volume - emitted - volume;
          if volume >= cfg.volMin - EPS && residual >= cfg.volMin - EPS {
            closes := closes + [PartialClose(v.ticket, volume)];
            emitted := emitted + volume;
          }
        }
        i := i + 1;
      }
    }

    /** The body of the loop over positions. */
    method ManageOne(v: View, tick: Tick) returns (actions: seq<Action>)
      requires ValidConfig(cfg) && BookOk(trades)
      modifies this`trades
      ensures BookOk(trades)
      ensures TradeFor(cfg, Lookup(old(trades), v.ticket), v).d > 0.0
      ensures var (tr, acts) := Manage(cfg, Lookup(old(trades), v.ticket), v, tick);
              actions == acts && trades == Store(old(trades), v.ticket, tr)
    {
      var t := if v.ticket in trades then trades[v.ticket] else NewTrade(cfg, v);
      var close := tick.c.close;
      var r := InR(t, v.side, close);
      var filled, closes, emitted := TakeRungs(t, v, r);
      actions := closes;
      if cfg.finalTpR > 0.0 && r >= cfg.finalTpR {
        var remainder := v.volume - emitted;
        if remainder > EPS {
          actions := actions + [PartialClose(v.ticket, remainder)];
        }
        trades := trades - {v.ticket};
        return;
      }
      t := t.(filled := filled);
      var call := StageCall(cfg, t, v.side, tick.candidate, tick.spread);
      if call.Some? {
        if Acceptable(v, close, call.value.sl) {
          actions := actions + [UpdateSl(v.ticket, call.value.sl)];
          t := t.(stage1 := true, stage2 := call.value.final);
        }
      }
      trades := trades[v.ticket := t];
    }

    /** `on_bar`. */
    method OnCandle(views: seq<View>, c: Candle, spread: real) returns (actions: seq<Action>)
      requires ValidConfig(cfg) && BookOk(trades)
      modifies this
      ensures BookOk(trades)
      ensures (Model(), actions) == OnBar(cfg, old(Model()), views, c, spread)
    {
      actions := [];
      ghost var book := trades;
      var tick := Tick(c, prevCandle, spread);
      var seen := {};
      var i := 0;
      while i < |views|
        invariant 0 <= i <= |views|
        invariant BookOk(trades) && prevCandle == old(prevCandle)
        invariant (trades, actions) == Sweep(cfg, book, views[..i], tick)
        invariant seen == Seen(views[..i])
      {
        assert views[..i + 1][..i] == views[..i];
        assert Seen(views[..i + 1]) == Seen(views[..i]) + {views[i].ticket};
        seen := seen + {views[i].ticket};
        var more := ManageOne(views[i], tick);
        actions := actions + more;
        i := i + 1;
      }
      assert views[..|views|] == views;
      trades := map t | t in trades && t in seen :: trades[t];
      prevCandle := Some(c);
    }
  }
}
