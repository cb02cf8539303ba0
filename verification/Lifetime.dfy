/** A position under the ladder in the simulator, from opening to closing. */
module Lifetime {
  import opened Prelude
  import opened Models
  import opened Sitters
  import opened Sim
  import opened ClosedLoop
  import Ladder

  // ------------------------------------------------------------------ what is kept for a position

  /** How many stop updates the trade state accounts for. */
  function StagesDone(t: Ladder.Trade): nat {
    if t.stage2 then 2 else if t.stage1 then 1 else 0
  }

  /** A position the manager has not seen yet has not been touched. */
  predicate Untouched(p: Position) {
    p.fills == [] && |p.stops| == 1 && p.volume == p.lots
  }

  /** The trade state fits the position's own history. */
  predicate Tracks(cfg: Ladder.Config, t: Ladder.Trade, p: Position) {
    && p.stops != []
    && t.entry == p.priceOpen && t.vol0 == p.lots && t.d > 0.0
    && t.d == Ladder.RiskDistance(cfg, p.priceOpen, p.stops[0])
    && (forall i <- t.filled :: i < |cfg.partials|)
    && |p.fills| <= |t.filled|
    && |p.stops| <= 1 + StagesDone(t)
    && (p.fills != [] ==> p.volume >= cfg.volMin - EPS)
    && (t.stage2 ==> Profit(p.side, p.priceOpen, p.sl) >= Ladder.Locked(cfg, t.d))
  }

  predicate LifeInv(cfg: Ladder.Config, tr: Option<Ladder.Trade>, p: Position) {
    && p.sl > 0.0 && p.volume > EPS
    && p.stops != [] && p.sl == p.stops[|p.stops| - 1]
    && if tr.None? then Untouched(p) else Tracks(cfg, tr.value, p)
  }

  /** What can be said of a finished life: at most two stop moves, and no more fills than rungs plus
      the closing one. */
  predicate LifeOver(cfg: Ladder.Config, p: Position) {
    |p.stops| <= 3 && |p.fills| <= |cfg.partials| + 1
  }

  lemma {:induction false} BoundedSet(s: set<nat>, n: nat)
    requires forall i <- s :: i < n
    ensures |s| <= n
  {
    if n == 0 {
      assert s == {};
    } else if n - 1 in s {
      BoundedSet(s - {n - 1}, n - 1);
    } else {
      BoundedSet(s, n - 1);
    }
  }

  /** A stop hit or a halt ends a tracked life within its limits. */
  lemma ClosingFits(costs: Costs, cfg: Ladder.Config, tr: Option<Ladder.Trade>, p: Position, px: real, volume: real,
                    reason: Reason)
    requires LifeInv(cfg, tr, p)
    ensures LifeOver(cfg, Filled(costs, p, px, volume, reason))
  {
    if tr.Some? {
      BoundedSet(tr.value.filled, |cfg.partials|);
    }
  }

  // ------------------------------------------------------------------ one bar of a life

  /** The rungs' closes, applied: they add one fill each and take away just their volume, unless one
      of them leaves only dust. */
  predicate RungsTaken(p: Position, climb: Ladder.Climb, f: Fate) {
    && f.p.stops == p.stops && f.p.sl == p.sl && f.p.side == p.side && f.p.priceOpen == p.priceOpen
    && f.p.lots == p.lots && f.p.ticket == p.ticket
    && |f.p.fills| <= |p.fills| + |climb.closes|
    && (f.Live? ==> |f.p.fills| == |p.fills| + |climb.closes| && f.p.volume == p.volume - climb.volume)
    && (f.Live? ==> f.p.volume > EPS)
    && (f.Gone? ==> 0.0 <= f.p.volume <= EPS && climb.closes != [])
  }

  lemma {:induction false} RungsApply(costs: Costs, cfg: Ladder.Config, t: Ladder.Trade, p: Position, r: real, n: nat,
                                      c: Candle)
    requires Ladder.ValidConfig(cfg) && n <= |cfg.partials| && p.volume > EPS
    ensures var climb := Ladder.Rungs(cfg, t, ViewOf(p), r, n);
            RungsTaken(p, climb, Own(costs, p, climb.closes, c))
    ensures cfg.volMin > 2.0 * EPS ==> Own(costs, p, Ladder.Rungs(cfg, t, ViewOf(p), r, n).closes, c).Live?
  {
    if n > 0 {
      RungsApply(costs, cfg, t, p, r, n - 1, c);
      var most, climb := Ladder.Rungs(cfg, t, ViewOf(p), r, n - 1), Ladder.Rungs(cfg, t, ViewOf(p), r, n);
      if climb.closes != most.closes {
        OwnSnoc(costs, p, most.closes, climb.closes[|climb.closes| - 1], c);
        Ladder.RungsShape(cfg, t, ViewOf(p), r, n);
      }
    }
  }

  lemma OwnSnoc(costs: Costs, p: Position, acts: seq<Action>, act: Action, c: Candle)
    ensures Own(costs, p, acts + [act], c) ==
            var f := Own(costs, p, acts, c); if f.Gone? then f else OwnOne(costs, f.p, act, c)
  {
    assert (acts + [act])[..|acts|] == acts;
  }

  /** The rungs of a bar keep the trade state and the position in step. */
  lemma RungsKeep(costs: Costs, cfg: Ladder.Config, t: Ladder.Trade, p: Position, c: Candle)
    requires Ladder.ValidConfig(cfg) && Tracks(cfg, t, p) && p.volume > EPS
    ensures var climb := Ladder.Rungs(cfg, t, ViewOf(p), Ladder.InR(t, p.side, c.close), |cfg.partials|);
            var f := Own(costs, p, climb.closes, c);
            && RungsTaken(p, climb, f)
            && |f.p.fills| <= |climb.filled| <= |cfg.partials|
            && (f.Live? ==> Tracks(cfg, t.(filled := climb.filled), f.p))
            && (cfg.volMin > 2.0 * EPS ==> f.Live?)
  {
    var r, n := Ladder.InR(t, p.side, c.close), |cfg.partials|;
    RungsApply(costs, cfg, t, p, r, n, c);
    Ladder.RungsShape(cfg, t, ViewOf(p), r, n);
    Ladder.RungsOnce(cfg, t, ViewOf(p), r, n);
    BoundedSet(Ladder.Rungs(cfg, t, ViewOf(p), r, n).filled, n);
  }

  /** The final target closes whatever the rungs have left, exactly. */
  lemma FinalEnds(costs: Costs, cfg: Ladder.Config, t: Ladder.Trade, p: Position, c: Candle)
    requires Ladder.ValidConfig(cfg) && Tracks(cfg, t, p) && p.volume > EPS
    ensures var climb := Ladder.Rungs(cfg, t, ViewOf(p), Ladder.InR(t, p.side, c.close), |cfg.partials|);
            var rest := p.volume - climb.volume;
            var f := Own(costs, p, climb.closes + if rest > EPS then [PartialClose(p.ticket, rest)] else [], c);
            && f.Gone? && 0.0 <= f.p.volume <= EPS && LifeOver(cfg, f.p)
            && (cfg.volMin > 2.0 * EPS ==> f.p.volume == 0.0)
  {
    RungsKeep(costs, cfg, t, p, c);
    var climb := Ladder.Rungs(cfg, t, ViewOf(p), Ladder.InR(t, p.side, c.close), |cfg.partials|);
    var rest := p.volume - climb.volume;
    if rest > EPS {
      OwnSnoc(costs, p, climb.closes, PartialClose(p.ticket, rest), c);
    } else {
      assert climb.closes + [] == climb.closes;
    }
    RestEnds(costs, cfg, p, climb, Own(costs, p, climb.closes, c), c);
  }

  /** What the rungs have left, closed in one piece. */
  lemma RestEnds(costs: Costs, cfg: Ladder.Config, p: Position, climb: Ladder.Climb, f: Fate, c: Candle)
    requires RungsTaken(p, climb, f) && |f.p.fills| <= |cfg.partials| && |p.stops| <= 3
    ensures var rest := p.volume - climb.volume;
            var f' := if f.Gone? || rest <= EPS then f else OwnOne(costs, f.p, PartialClose(p.ticket, rest), c);
            && f'.Gone? && 0.0 <= f'.p.volume <= EPS && LifeOver(cfg, f'.p)
            && (f.Live? ==> f'.p.volume == 0.0)
  {
  }

  /** A stop the manager asks for is applied by the simulator and accounted for by the trade state. */
  lemma StageKeeps(cfg: Ladder.Config, t: Ladder.Trade, p: Position, view: View, tick: Ladder.Tick)
    requires Ladder.ValidConfig(cfg) && Tracks(cfg, t, p) && p.sl > 0.0 && p.sl == p.stops[|p.stops| - 1]
    requires tick.c.close > 0.0 && view.side == p.side && view.sl == p.sl
    ensures var call := Ladder.StageCall(cfg, t, p.side, tick.candidate, tick.spread);
            var t' := Ladder.Staged(t, call, view, tick.c.close);
            if call.Some? && Ladder.Acceptable(view, tick.c.close, call.value.sl) then
              var p' := Moved(p, call.value.sl);
              Tracks(cfg, t', p') && p'.sl == call.value.sl > 0.0 && p'.sl == p'.stops[|p'.stops| - 1]
            else t' == t
  {
  }

  /** Rungs, then perhaps a stop update. */
  lemma StageBar(costs: Costs, cfg: Ladder.Config, t1: Ladder.Trade, p: Position, closes: seq<Action>, f1: Fate,
                 tick: Ladder.Tick)
    requires Ladder.ValidConfig(cfg) && tick.c.close > 0.0 && t1.d > 0.0
    requires f1 == Own(costs, p, closes, tick.c) && f1.p.side == p.side && f1.p.sl == p.sl
    requires f1.Live? ==>
               && Tracks(cfg, t1, f1.p) && f1.p.volume > EPS
               && f1.p.sl > 0.0 && f1.p.sl == f1.p.stops[|f1.p.stops| - 1]
    ensures var call := Ladder.StageCall(cfg, t1, p.side, tick.candidate, tick.spread);
            var f := Own(costs, p, closes + Ladder.StageAction(call, ViewOf(p), tick.c.close), tick.c);
            && (f1.Gone? ==> f == f1)
            && (f1.Live? ==> f.Live? && LifeInv(cfg, Some(Ladder.Staged(t1, call, ViewOf(p), tick.c.close)), f.p))
  {
    var v := ViewOf(p);
    var call := Ladder.StageCall(cfg, t1, p.side, tick.candidate, tick.spread);
    if call.Some? && Ladder.Acceptable(v, tick.c.close, call.value.sl) {
      OwnSnoc(costs, p, closes, UpdateSl(v.ticket, call.value.sl), tick.c);
    } else {
      assert closes + [] == closes;
    }
    if f1.Live? {
      StageKeeps(cfg, t1, f1.p, v, tick);
    }
  }

  /** The same bar, for a position the manager tracks as `t`. */
  lemma TrackedBar(costs: Costs, cfg: Ladder.Config, t: Ladder.Trade, p: Position, tick: Ladder.Tick)
    requires Ladder.ValidConfig(cfg) && LifeInv(cfg, Some(t), p) && tick.c.close > 0.0
    ensures var (tr', acts) := Ladder.Manage(cfg, Some(t), ViewOf(p), tick);
            BarOk(cfg, tr', Own(costs, p, acts, tick.c))
  {
    if Ladder.FinalReached(cfg, Ladder.InR(t, p.side, tick.c.close)) {
      FinalEnds(costs, cfg, t, p, tick.c);
    } else {
      BarBeforeFinal(costs, cfg, t, p, tick);
    }
  }

  /** Short of the final target: rungs, then perhaps a stop. */
  lemma ManageBeforeFinal(cfg: Ladder.Config, t: Ladder.Trade, v: View, tick: Ladder.Tick)
    requires Ladder.ValidConfig(cfg) && t.d > 0.0
    requires !Ladder.FinalReached(cfg, Ladder.InR(t, v.side, tick.c.close))
    ensures var climb := Ladder.Rungs(cfg, t, v, Ladder.InR(t, v.side, tick.c.close), |cfg.partials|);
            var t1 := t.(filled := climb.filled);
            var call := Ladder.StageCall(cfg, t1, v.side, tick.candidate, tick.spread);
            Ladder.Manage(cfg, Some(t), v, tick) ==
            (Some(Ladder.Staged(t1, call, v, tick.c.close)),
             climb.closes + Ladder.StageAction(call, v, tick.c.close))
  {
  }

  lemma BarBeforeFinal(costs: Costs, cfg: Ladder.Config, t: Ladder.Trade, p: Position, tick: Ladder.Tick)
    requires Ladder.ValidConfig(cfg) && LifeInv(cfg, Some(t), p) && tick.c.close > 0.0
    requires !Ladder.FinalReached(cfg, Ladder.InR(t, p.side, tick.c.close))
    ensures var (tr', acts) := Ladder.Manage(cfg, Some(t), ViewOf(p), tick);
            BarOk(cfg, tr', Own(costs, p, acts, tick.c))
  {
    RungsKeep(costs, cfg, t, p, tick.c);
    ManageBeforeFinal(cfg, t, ViewOf(p), tick);
    var climb := Ladder.Rungs(cfg, t, ViewOf(p), Ladder.InR(t, p.side, tick.c.close), |cfg.partials|);
    RungsAreIn(cfg, p, climb, Own(costs, p, climb.closes, tick.c));
    StageBar(costs, cfg, t.(filled := climb.filled), p, climb.closes, Own(costs, p, climb.closes, tick.c), tick);
  }

  lemma RungsAreIn(cfg: Ladder.Config, p: Position, climb: Ladder.Climb, f: Fate)
    requires RungsTaken(p, climb, f) && |f.p.fills| <= |cfg.partials| && |p.stops| <= 3
    ensures f.Gone? ==> f.p.volume <= EPS && LifeOver(cfg, f.p)
  {
  }

  predicate BarOk(cfg: Ladder.Config, tr': Option<Ladder.Trade>, f: Fate) {
    && (f.Live? ==> tr'.Some? && LifeInv(cfg, tr', f.p))
    && (f.Gone? ==> f.p.volume <= EPS && LifeOver(cfg, f.p))
    && (tr'.None? ==> f.Gone? && (cfg.volMin > 2.0 * EPS ==> f.p.volume == 0.0))
  }

  /** One bar of a life: it goes on with trade state and position in step, or it ends within its
      limits; and it ends, with nothing left over, when the final target is reached. */
  lemma BarOfLife(costs: Costs, cfg: Ladder.Config, tr: Option<Ladder.Trade>, p: Position, tick: Ladder.Tick)
    requires Ladder.ValidConfig(cfg) && LifeInv(cfg, tr, p) && tick.c.close > 0.0
    ensures Ladder.TradeFor(cfg, tr, ViewOf(p)).d > 0.0
    ensures var (tr', acts) := Ladder.Manage(cfg, tr, ViewOf(p), tick);
            BarOk(cfg, tr', Own(costs, p, acts, tick.c))
  {
    Ladder.RiskDistancePositive(cfg, p.priceOpen, p.sl);
    var t := Ladder.TradeFor(cfg, tr, ViewOf(p));
    assert Ladder.Manage(cfg, tr, ViewOf(p), tick) == Ladder.Manage(cfg, Some(t), ViewOf(p), tick);
    TrackedBar(costs, cfg, t, p, tick);
  }
}
