/** At which prices the ladder manager acts: rungs, final target and stops, in terms of how far a close
    has gone beyond the entry. */
module LadderLevels {
  import opened Prelude
  import opened Models
  import opened Sitters
  import Ladder

  const EPS := Ladder.EPS

  /** How far the market at `px` is beyond the entry, on the winning side. */
  function Gain(side: Direction, entry: real, px: real): real {
    if side == Long then px - entry else entry - px
  }

  /** `m` volume steps. */
  function Steps(cfg: Ladder.Config, m: int): real {
    Product(m as real, cfg.volStep)
  }

  function Product(a: real, b: real): real {
    a * b
  }

  /** `w` is as many whole volume steps as `x` holds, give or take the slack. */
  ghost predicate WholeSteps(cfg: Ladder.Config, x: real, w: real) {
    exists m: int :: w == Steps(cfg, m) && Steps(cfg, m) <= x + EPS * cfg.volStep < Steps(cfg, m + 1)
  }

  /** What rung i is to close of the position's first volume. */
  function Share(cfg: Ladder.Config, t: Ladder.Trade, i: nat): real
    requires i < |cfg.partials|
  {
    t.vol0 * cfg.partials[i].1
  }

  /** The close has reached rung i. */
  predicate Reached(cfg: Ladder.Config, t: Ladder.Trade, v: View, close: real, i: nat)
    requires i < |cfg.partials|
  {
    Gain(v.side, t.entry, close) >= cfg.partials[i].0 * t.d
  }

  function Asked(closes: seq<Action>): real
    decreases |closes|
  {
    if closes == [] then 0.0
    else
      var a := closes[|closes| - 1];
      Asked(closes[..|closes| - 1]) + if a.PartialClose? then a.volume else 0.0
  }

  /** This close is that of rung i, newly reached: its share of the position's first volume. */
  ghost predicate Fires(cfg: Ladder.Config, t: Ladder.Trade, v: View, close: real, act: Action, i: nat) {
    && i < |cfg.partials| && i !in t.filled && Reached(cfg, t, v, close, i)
    && act.PartialClose? && act.ticket == v.ticket && WholeSteps(cfg, Share(cfg, t, i), act.volume)
  }

  /** Rung i was too small, or would have left too little: `k` closes were asked for before its turn. */
  ghost predicate TooSmall(cfg: Ladder.Config, t: Ladder.Trade, v: View, closes: seq<Action>, rungs: seq<nat>,
                           k: nat, i: nat)
    requires i < |cfg.partials|
  {
    && k <= |rungs| == |closes|
    && (forall j :: 0 <= j < k ==> rungs[j] < i) && (forall j :: k <= j < |rungs| ==> rungs[j] > i)
    && exists w: real :: WholeSteps(cfg, Share(cfg, t, i), w)
                      && (w < cfg.volMin - EPS || v.volume - Asked(closes[..k]) - w < cfg.volMin - EPS)
  }

  /** These closes are those of these rungs, in order, among the first `n`. */
  ghost predicate Fired(cfg: Ladder.Config, t: Ladder.Trade, v: View, close: real, n: nat, closes: seq<Action>,
                  rungs: seq<nat>)
    requires n <= |cfg.partials|
  {
    && |rungs| == |closes|
    && (forall j, k :: 0 <= j < k < |rungs| ==> rungs[j] < rungs[k])
    && (forall j :: 0 <= j < |rungs| ==> rungs[j] < n && Fires(cfg, t, v, close, closes[j], rungs[j]))
    && (forall i :: 0 <= i < n && i !in t.filled && Reached(cfg, t, v, close, i) && i !in rungs ==>
          exists k: nat :: TooSmall(cfg, t, v, closes, rungs, k, i))
  }

  lemma InROf(t: Ladder.Trade, side: Direction, px: real, level: real)
    requires t.d > 0.0
    ensures Ladder.InR(t, side, px) >= level <==> Gain(side, t.entry, px) >= level * t.d
  {
    var gain, r := Gain(side, t.entry, px), Ladder.InR(t, side, px);
    assert r * t.d == gain;
    if r >= level {
      assert (r - level) * t.d >= 0.0;
    } else {
      assert (level - r) * t.d > 0.0;
    }
  }

  lemma SnapWhole(cfg: Ladder.Config, x: real)
    requires Ladder.ValidConfig(cfg)
    ensures WholeSteps(cfg, x, Ladder.SnapDown(x, cfg.volStep))
  {
    var m := (x / cfg.volStep + EPS).Floor;
    SnapBounds(x, cfg.volStep, x / cfg.volStep + EPS, m);
    assert Steps(cfg, m) <= x + EPS * cfg.volStep < Steps(cfg, m + 1);
    assert Steps(cfg, m) == Ladder.SnapDown(x, cfg.volStep);
  }

  lemma SnapBounds(x: real, step: real, y: real, m: int)
    requires step > 0.0 && y == x / step + EPS && m == y.Floor
    ensures Product(m as real, step) <= x + EPS * step < Product((m + 1) as real, step)
  {
    assert m as real <= y < (m + 1) as real;
    InSteps(x, step, y);
    StepTimes(m as real, y, step);
    StepTimes(y, (m + 1) as real, step);
  }

  lemma InSteps(x: real, step: real, y: real)
    requires step > 0.0 && y == x / step + EPS
    ensures y * step == x + EPS * step
  {
    var q := x / step;
    assert q * step == x;
    assert (q + EPS) * step == q * step + EPS * step;
  }

  lemma StepTimes(a: real, b: real, k: real)
    requires k > 0.0
    ensures a <= b ==> Product(a, k) <= Product(b, k)
    ensures a < b ==> Product(a, k) < Product(b, k)
  {
    assert (b - a) * k == b * k - a * k;
  }

  /** After the turns of the first `n` rungs. */
  ghost predicate RungsOk(cfg: Ladder.Config, t: Ladder.Trade, v: View, close: real, n: nat, climb: Ladder.Climb,
                          rungs: seq<nat>)
    requires n <= |cfg.partials|
  {
    && Fired(cfg, t, v, close, n, climb.closes, rungs)
    && climb.volume == Asked(climb.closes)
    && (forall i: nat :: i < n ==> (i in climb.filled <==> i in t.filled || Reached(cfg, t, v, close, i)))
    && (forall i: nat :: i >= n ==> (i in climb.filled <==> i in t.filled))
  }

  lemma {:induction false} RungsFire(cfg: Ladder.Config, t: Ladder.Trade, v: View, close: real, n: nat)
    returns (rungs: seq<nat>)
    requires Ladder.ValidConfig(cfg) && t.d > 0.0 && n <= |cfg.partials|
    ensures RungsOk(cfg, t, v, close, n, Ladder.Rungs(cfg, t, v, Ladder.InR(t, v.side, close), n), rungs)
    decreases n
  {
    if n == 0 {
      rungs := [];
    } else {
      rungs := RungsFire(cfg, t, v, close, n - 1);
      rungs := NextRung(cfg, t, v, close, n - 1, rungs);
    }
  }

  lemma {:induction false} NextRung(cfg: Ladder.Config, t: Ladder.Trade, v: View, close: real, i: nat,
                                    before: seq<nat>) returns (rungs: seq<nat>)
    requires Ladder.ValidConfig(cfg) && t.d > 0.0 && i < |cfg.partials|
    requires RungsOk(cfg, t, v, close, i, Ladder.Rungs(cfg, t, v, Ladder.InR(t, v.side, close), i), before)
    ensures RungsOk(cfg, t, v, close, i + 1, Ladder.Rungs(cfg, t, v, Ladder.InR(t, v.side, close), i + 1), rungs)
  {
    RungTurn(cfg, t, v, close, i);
    SnapWhole(cfg, Share(cfg, t, i));
    rungs := OneRung(cfg, t, v, close, i, Ladder.Rungs(cfg, t, v, Ladder.InR(t, v.side, close), i), before,
                     Ladder.RungVolume(cfg, t, i));
  }

  /** What the turn of rung i, of volume `w`, makes of the turns before it. */
  function Turn(cfg: Ladder.Config, t: Ladder.Trade, v: View, close: real, i: nat, most: Ladder.Climb,
                w: real): Ladder.Climb
    requires i < |cfg.partials|
  {
    if i in most.filled || !Reached(cfg, t, v, close, i) then most else Taken(cfg, v, i, most, w)
  }

  function Taken(cfg: Ladder.Config, v: View, i: nat, most: Ladder.Climb, w: real): Ladder.Climb {
    if Ladder.Fillable(cfg, w, v.volume - most.volume - w) then
      Ladder.Climb(most.filled + {i}, most.closes + [PartialClose(v.ticket, w)], most.volume + w)
    else most.(filled := most.filled + {i})
  }

  lemma {:induction false} RungTurn(cfg: Ladder.Config, t: Ladder.Trade, v: View, close: real, i: nat)
    requires Ladder.ValidConfig(cfg) && t.d > 0.0 && i < |cfg.partials|
    ensures var r := Ladder.InR(t, v.side, close);
            Ladder.Rungs(cfg, t, v, r, i + 1) ==
            Turn(cfg, t, v, close, i, Ladder.Rungs(cfg, t, v, r, i), Ladder.RungVolume(cfg, t, i))
  {
    InROf(t, v.side, close, cfg.partials[i].0);
  }

  lemma {:induction false} OneRung(cfg: Ladder.Config, t: Ladder.Trade, v: View, close: real, i: nat,
                                   most: Ladder.Climb, before: seq<nat>, w: real) returns (rungs: seq<nat>)
    requires i < |cfg.partials| && RungsOk(cfg, t, v, close, i, most, before)
    requires WholeSteps(cfg, Share(cfg, t, i), w)
    ensures RungsOk(cfg, t, v, close, i + 1, Turn(cfg, t, v, close, i, most, w), rungs)
  {
    if i in t.filled || !Reached(cfg, t, v, close, i) {
      rungs := before;
      NotFired(cfg, t, v, close, i, most, rungs);
    } else {
      rungs := RungTaken(cfg, t, v, close, i, most, before, w);
    }
  }

  lemma {:induction false} RungTaken(cfg: Ladder.Config, t: Ladder.Trade, v: View, close: real, i: nat,
                                     most: Ladder.Climb, before: seq<nat>, w: real) returns (rungs: seq<nat>)
    requires i < |cfg.partials| && RungsOk(cfg, t, v, close, i, most, before)
    requires i !in t.filled && Reached(cfg, t, v, close, i) && WholeSteps(cfg, Share(cfg, t, i), w)
    ensures RungsOk(cfg, t, v, close, i + 1, Taken(cfg, v, i, most, w), rungs)
  {
    rungs := before;
    if Ladder.Fillable(cfg, w, v.volume - most.volume - w) {
      rungs := FiredMore(cfg, t, v, close, i, most, rungs, PartialClose(v.ticket, w));
    } else {
      FiredLess(cfg, t, v, close, i, most, rungs, w);
    }
  }

  lemma {:induction false} NotFired(cfg: Ladder.Config, t: Ladder.Trade, v: View, close: real, i: nat,
                                    climb: Ladder.Climb, rungs: seq<nat>)
    requires i < |cfg.partials| && RungsOk(cfg, t, v, close, i, climb, rungs)
    requires i in t.filled || !Reached(cfg, t, v, close, i)
    ensures RungsOk(cfg, t, v, close, i + 1, climb, rungs)
  {
  }

  lemma {:induction false} FiredMore(cfg: Ladder.Config, t: Ladder.Trade, v: View, close: real, i: nat,
                                     climb: Ladder.Climb, rungs: seq<nat>, act: Action) returns (rungs': seq<nat>)
    requires i < |cfg.partials| && RungsOk(cfg, t, v, close, i, climb, rungs) && Fires(cfg, t, v, close, act, i)
    ensures RungsOk(cfg, t, v, close, i + 1,
                    Ladder.Climb(climb.filled + {i}, climb.closes + [act], climb.volume + act.volume), rungs')
  {
    rungs' := rungs + [i];
    FiredSnoc(cfg, t, v, close, i, climb.closes, rungs, act);
    AskedSnoc(climb.closes, act);
  }

  lemma {:induction false} AskedSnoc(closes: seq<Action>, act: Action)
    requires act.PartialClose?
    ensures Asked(closes + [act]) == Asked(closes) + act.volume
  {
    assert (closes + [act])[..|closes|] == closes;
  }

  lemma {:induction false} FiredSnoc(cfg: Ladder.Config, t: Ladder.Trade, v: View, close: real, i: nat,
                                     closes: seq<Action>, rungs: seq<nat>, act: Action)
    requires i < |cfg.partials| && Fired(cfg, t, v, close, i, closes, rungs) && Fires(cfg, t, v, close, act, i)
    ensures Fired(cfg, t, v, close, i + 1, closes + [act], rungs + [i])
  {
    var closes', rungs' := closes + [act], rungs + [i];
    forall j: nat | j <= i && j !in t.filled && Reached(cfg, t, v, close, j) && j !in rungs'
      ensures exists k: nat :: TooSmall(cfg, t, v, closes', rungs', k, j)
    {
      assert rungs'[|rungs|] == i;
      assert forall a :: 0 <= a < |rungs| ==> rungs'[a] == rungs[a];
      var k: nat :| TooSmall(cfg, t, v, closes, rungs, k, j);
      TooSmallStill(cfg, t, v, closes, rungs, act, i, k, j);
    }
  }

  lemma {:induction false} TooSmallStill(cfg: Ladder.Config, t: Ladder.Trade, v: View, closes: seq<Action>,
                                         rungs: seq<nat>, act: Action, i: nat, k: nat, j: nat)
    requires j < i < |cfg.partials| && TooSmall(cfg, t, v, closes, rungs, k, j)
    ensures TooSmall(cfg, t, v, closes + [act], rungs + [i], k, j)
  {
    assert (closes + [act])[..k] == closes[..k];
  }

  lemma {:induction false} FiredLess(cfg: Ladder.Config, t: Ladder.Trade, v: View, close: real, i: nat,
                                     climb: Ladder.Climb, rungs: seq<nat>, w: real)
    requires i < |cfg.partials| && RungsOk(cfg, t, v, close, i, climb, rungs) && Reached(cfg, t, v, close, i)
    requires WholeSteps(cfg, Share(cfg, t, i), w)
    requires w < cfg.volMin - EPS || v.volume - climb.volume - w < cfg.volMin - EPS
    ensures RungsOk(cfg, t, v, close, i + 1, climb.(filled := climb.filled + {i}), rungs)
  {
    assert climb.closes[..|climb.closes|] == climb.closes;
    assert TooSmall(cfg, t, v, climb.closes, rungs, |rungs|, i);
  }

  // ------------------------------------------------------------------ one bar

  /** The stop that the confirmed candle calls for: beyond the second threshold the final one, at the
      candle's far end with the buffer but locking the minimum multiple; beyond the first, break-even with
      costs; before that none. */
  predicate StopWanted(cfg: Ladder.Config, t: Ladder.Trade, side: Direction, tick: Ladder.Tick, sl: real, final: bool)
    requires Ladder.ValidConfig(cfg)
  {
    && tick.candidate.Some? && !t.stage2
    && var c, gain := tick.candidate.value, Gain(side, t.entry, tick.candidate.value.close);
       var costs := tick.spread + cfg.commPerLot / cfg.valuePerMove;
       if gain >= cfg.stage2AtR * t.d then final && FinalStop(cfg, t.entry, t.d, c, side, sl)
       else
         && !final && !t.stage1 && gain >= cfg.stage1AtR * t.d
         && sl == if side == Long then t.entry + costs else t.entry - costs
  }

  /** Tighter than the stop in place, and not beyond the close. */
  predicate StopPossible(v: View, close: real, sl: real) {
    if v.side == Long then (v.sl == 0.0 || sl > v.sl) && sl < close
    else (v.sl == 0.0 || sl < v.sl) && sl > close
  }

  ghost predicate StopDue(cfg: Ladder.Config, t: Ladder.Trade, v: View, tick: Ladder.Tick, sl: real, final: bool)
    requires Ladder.ValidConfig(cfg)
  {
    StopWanted(cfg, t, v.side, tick, sl, final) && StopPossible(v, tick.c.close, sl)
  }

  /** A position the manager has not met: entry, risk distance and volume as the simulator shows them. */
  predicate MetAs(cfg: Ladder.Config, v: View, t: Ladder.Trade) {
    && t.entry == v.priceOpen && t.vol0 == v.volume && t.filled == {} && !t.stage1 && !t.stage2
    && t.d == (if v.sl != 0.0 && v.sl != v.priceOpen then Abs(v.priceOpen - v.sl) else cfg.defaultD)
  }

  /** The call, with its thresholds in prices. */
  lemma CallIs(cfg: Ladder.Config, t: Ladder.Trade, side: Direction, tick: Ladder.Tick)
    requires Ladder.ValidConfig(cfg) && t.d > 0.0 && tick.candidate.Some? && !t.stage2
    ensures var c, gain := tick.candidate.value, Gain(side, t.entry, tick.candidate.value.close);
            Ladder.StageCall(cfg, t, side, tick.candidate, tick.spread) ==
            if gain >= cfg.stage2AtR * t.d then Some(Ladder.Call(Ladder.Stage2Level(cfg, t.entry, t.d, c, side), true))
            else if !t.stage1 && gain >= cfg.stage1AtR * t.d then
              Some(Ladder.Call(Ladder.Stage1Level(cfg, t.entry, side, tick.spread), false))
            else None
  {
    InROf(t, side, tick.candidate.value.close, cfg.stage2AtR);
    InROf(t, side, tick.candidate.value.close, cfg.stage1AtR);
  }

  lemma {:induction false} CallWanted(cfg: Ladder.Config, t: Ladder.Trade, side: Direction, tick: Ladder.Tick, sl: real,
                                      final: bool)
    requires Ladder.ValidConfig(cfg) && t.d > 0.0
    ensures StopWanted(cfg, t, side, tick, sl, final) <==>
            Ladder.StageCall(cfg, t, side, tick.candidate, tick.spread) == Some(Ladder.Call(sl, final))
  {
    if tick.candidate.Some? && !t.stage2 {
      CallIs(cfg, t, side, tick);
      var c := tick.candidate.value;
      if Gain(side, t.entry, c.close) >= cfg.stage2AtR * t.d {
        FinalLevel(cfg, t.entry, t.d, c, side, sl);
        assert StopWanted(cfg, t, side, tick, sl, final) <==>
               final && sl == Ladder.Stage2Level(cfg, t.entry, t.d, c, side);
      } else {
        assert StopWanted(cfg, t, side, tick, sl, final) <==>
               !final && !t.stage1 && Gain(side, t.entry, c.close) >= cfg.stage1AtR * t.d
               && sl == Ladder.Stage1Level(cfg, t.entry, side, tick.spread);
      }
    }
  }

  /** The candle's far end with the buffer or the locked profit, whichever protects more. */
  predicate FinalStop(cfg: Ladder.Config, entry: real, d: real, c: Candle, side: Direction, sl: real) {
    var lock := cfg.stage2MinLockR * d;
    if side == Long then
      && sl >= c.low - cfg.stage2Buffer && sl >= entry + lock
      && (sl == c.low - cfg.stage2Buffer || sl == entry + lock)
    else
      && sl <= c.high + cfg.stage2Buffer && sl <= entry - lock
      && (sl == c.high + cfg.stage2Buffer || sl == entry - lock)
  }

  lemma FinalLevel(cfg: Ladder.Config, entry: real, d: real, c: Candle, side: Direction, sl: real)
    ensures FinalStop(cfg, entry, d, c, side, sl) <==> sl == Ladder.Stage2Level(cfg, entry, d, c, side)
  {
  }

  /** The close has reached the final target. */
  predicate FinalGone(cfg: Ladder.Config, t: Ladder.Trade, v: View, close: real) {
    cfg.finalTpR > 0.0 && Gain(v.side, t.entry, close) >= cfg.finalTpR * t.d
  }

  /** The manager lets go of the position exactly beyond the final target, having asked for all that the
      rungs leave. */
  predicate LetsGo(cfg: Ladder.Config, t: Ladder.Trade, v: View, close: real, tr': Option<Ladder.Trade>,
                   closes: seq<Action>, more: seq<Action>) {
    && (tr'.None? <==> FinalGone(cfg, t, v, close))
    && (tr'.None? ==>
          var rest := v.volume - Asked(closes);
          more == if rest > EPS then [PartialClose(v.ticket, rest)] else [])
  }

  /** What it remembers otherwise: the same position, with exactly the rungs the close has reached marked
      done besides those that were. */
  ghost predicate Remembers(cfg: Ladder.Config, t: Ladder.Trade, v: View, close: real, t': Ladder.Trade) {
    && t'.entry == t.entry && t'.d == t.d && t'.vol0 == t.vol0
    && forall i: nat :: i < |cfg.partials| ==> (i in t'.filled <==> i in t.filled || Reached(cfg, t, v, close, i))
  }

  /** One position on one bar, in prices: the first `n` actions are the rungs' closes. */
  ghost predicate ByPrice(cfg: Ladder.Config, t: Ladder.Trade, v: View, tick: Ladder.Tick, tr': Option<Ladder.Trade>,
                          acts: seq<Action>, rungs: seq<nat>, n: nat)
    requires Ladder.ValidConfig(cfg)
  {
    && n <= |acts| && Fired(cfg, t, v, tick.c.close, |cfg.partials|, acts[..n], rungs)
    && LetsGo(cfg, t, v, tick.c.close, tr', acts[..n], acts[n..])
    && (tr'.Some? ==>
          Remembers(cfg, t, v, tick.c.close, tr'.value) && StopsAsked(cfg, t, v, tick, acts[n..], tr'.value))
  }

  /** One position on one bar, in prices.  Once the close has gone the final target's multiple of the risk
      distance beyond the entry the manager lets go of it, having asked for all that is left; until then
      it marks exactly the rungs the close has reached, each newly reached one asking for its share of the
      first volume in whole steps unless that, or what it would leave, is below the minimum; and it asks
      for the stop the last confirmed candle calls for, exactly if that is tighter and still possible. */
  lemma {:induction false} ActsByPrice(cfg: Ladder.Config, tr: Option<Ladder.Trade>, v: View, tick: Ladder.Tick)
    returns (rungs: seq<nat>, n: nat)
    requires Ladder.ValidConfig(cfg) && Ladder.TradeFor(cfg, tr, v).d > 0.0
    ensures var t, (tr', acts) := Ladder.TradeFor(cfg, tr, v), Ladder.Manage(cfg, tr, v, tick);
            && (tr.Some? ==> t == tr.value) && (tr.None? ==> MetAs(cfg, v, t))
            && ByPrice(cfg, t, v, tick, tr', acts, rungs, n)
  {
    Meets(cfg, tr, v);
    rungs, n := TradeByPrice(cfg, tr, Ladder.TradeFor(cfg, tr, v), v, tick);
  }

  lemma Meets(cfg: Ladder.Config, tr: Option<Ladder.Trade>, v: View)
    ensures var t := Ladder.TradeFor(cfg, tr, v);
            (tr.Some? ==> t == tr.value) && (tr.None? && Ladder.ValidConfig(cfg) ==> MetAs(cfg, v, t))
  {
  }

  lemma {:induction false} TradeByPrice(cfg: Ladder.Config, tr: Option<Ladder.Trade>, t: Ladder.Trade, v: View,
                                        tick: Ladder.Tick) returns (rungs: seq<nat>, n: nat)
    requires Ladder.ValidConfig(cfg) && t == Ladder.TradeFor(cfg, tr, v) && t.d > 0.0
    ensures ByPrice(cfg, t, v, tick, Ladder.Manage(cfg, tr, v, tick).0, Ladder.Manage(cfg, tr, v, tick).1, rungs, n)
  {
    var climb := Ladder.Rungs(cfg, t, v, Ladder.InR(t, v.side, tick.c.close), |cfg.partials|);
    rungs := RungsFire(cfg, t, v, tick.c.close, |cfg.partials|);
    n := |climb.closes|;
    ManageIs(cfg, tr, v, tick, climb);
    StageIs(cfg, t, v, tick, climb.filled);
    FinalIs(cfg, t, v, tick.c.close);
    var (tr', acts) := Ladder.Manage(cfg, tr, v, tick);
    Assembled(cfg, t, v, tick, tr', acts, climb, rungs);
  }

  lemma FinalIs(cfg: Ladder.Config, t: Ladder.Trade, v: View, close: real)
    requires t.d > 0.0
    ensures FinalGone(cfg, t, v, close) <==> Ladder.FinalReached(cfg, Ladder.InR(t, v.side, close))
  {
    InROf(t, v.side, close, cfg.finalTpR);
  }

  lemma {:induction false} Assembled(cfg: Ladder.Config, t: Ladder.Trade, v: View, tick: Ladder.Tick,
                                     tr': Option<Ladder.Trade>, acts: seq<Action>, climb: Ladder.Climb, rungs: seq<nat>)
    requires Ladder.ValidConfig(cfg) && RungsOk(cfg, t, v, tick.c.close, |cfg.partials|, climb, rungs)
    requires |climb.closes| <= |acts| && acts[..|climb.closes|] == climb.closes
    requires tr'.None? <==> FinalGone(cfg, t, v, tick.c.close)
    requires var rest := v.volume - climb.volume;
             tr'.None? ==> acts[|climb.closes|..] == if rest > EPS then [PartialClose(v.ticket, rest)] else []
    requires tr'.Some? ==>
               && StopsAsked(cfg, t, v, tick, acts[|climb.closes|..], tr'.value)
               && tr'.value.entry == t.entry && tr'.value.d == t.d && tr'.value.vol0 == t.vol0
               && tr'.value.filled == climb.filled
    ensures ByPrice(cfg, t, v, tick, tr', acts, rungs, |climb.closes|)
  {
  }

  /** The closes of the rungs come first. */
  lemma {:induction false} ManageIs(cfg: Ladder.Config, tr: Option<Ladder.Trade>, v: View, tick: Ladder.Tick,
                                    climb: Ladder.Climb)
    requires Ladder.ValidConfig(cfg) && Ladder.TradeFor(cfg, tr, v).d > 0.0
    requires var t := Ladder.TradeFor(cfg, tr, v);
             climb == Ladder.Rungs(cfg, t, v, Ladder.InR(t, v.side, tick.c.close), |cfg.partials|)
    ensures var t, (tr', acts) := Ladder.TradeFor(cfg, tr, v), Ladder.Manage(cfg, tr, v, tick);
            var call, rest := Ladder.StageCall(cfg, t, v.side, tick.candidate, tick.spread), v.volume - climb.volume;
            && |climb.closes| <= |acts| && acts[..|climb.closes|] == climb.closes
            && (tr'.None? <==> Ladder.FinalReached(cfg, Ladder.InR(t, v.side, tick.c.close)))
            && (tr'.None? ==> acts[|climb.closes|..] == if rest > EPS then [PartialClose(v.ticket, rest)] else [])
            && (tr'.Some? ==>
                  && tr' == Some(Ladder.Staged(t.(filled := climb.filled), call, v, tick.c.close))
                  && acts[|climb.closes|..] == Ladder.StageAction(call, v, tick.c.close))
  {
  }

  /** At most one stop update, and it is the one due; the trade remembers which. */
  ghost predicate StopsAsked(cfg: Ladder.Config, t: Ladder.Trade, v: View, tick: Ladder.Tick, acts: seq<Action>,
                             t': Ladder.Trade)
    requires Ladder.ValidConfig(cfg)
  {
    && (forall sl, final :: StopDue(cfg, t, v, tick, sl, final) ==>
          acts == [UpdateSl(v.ticket, sl)] && t'.stage1 && t'.stage2 == final)
    && ((forall sl, final :: !StopDue(cfg, t, v, tick, sl, final)) ==>
          acts == [] && t'.stage1 == t.stage1 && t'.stage2 == t.stage2)
  }

  lemma {:induction false} StageIs(cfg: Ladder.Config, t: Ladder.Trade, v: View, tick: Ladder.Tick, filled: set<nat>)
    requires Ladder.ValidConfig(cfg) && t.d > 0.0
    ensures var call := Ladder.StageCall(cfg, t, v.side, tick.candidate, tick.spread);
            var t' := Ladder.Staged(t.(filled := filled), call, v, tick.c.close);
            && StopsAsked(cfg, t, v, tick, Ladder.StageAction(call, v, tick.c.close), t')
            && t'.entry == t.entry && t'.d == t.d && t'.vol0 == t.vol0 && t'.filled == filled
  {
    var call, close := Ladder.StageCall(cfg, t, v.side, tick.candidate, tick.spread), tick.c.close;
    forall sl, final
      ensures StopDue(cfg, t, v, tick, sl, final) <==>
              call == Some(Ladder.Call(sl, final)) && Ladder.Acceptable(v, close, sl)
    {
      CallWanted(cfg, t, v.side, tick, sl, final);
      PossibleIs(v, close, sl);
    }
    DueIs(cfg, t, v, tick, call, filled);
  }

  lemma {:induction false} DueIs(cfg: Ladder.Config, t: Ladder.Trade, v: View, tick: Ladder.Tick,
                                 call: Option<Ladder.Call>, filled: set<nat>)
    requires Ladder.ValidConfig(cfg)
    requires forall sl, final :: StopDue(cfg, t, v, tick, sl, final) <==>
               call == Some(Ladder.Call(sl, final)) && Ladder.Acceptable(v, tick.c.close, sl)
    ensures StopsAsked(cfg, t, v, tick, Ladder.StageAction(call, v, tick.c.close),
                       Ladder.Staged(t.(filled := filled), call, v, tick.c.close))
  {
    if call.Some? && Ladder.Acceptable(v, tick.c.close, call.value.sl) {
      assert StopDue(cfg, t, v, tick, call.value.sl, call.value.final);
    }
  }

  lemma PossibleIs(v: View, close: real, sl: real)
    ensures StopPossible(v, close, sl) <==> Ladder.Acceptable(v, close, sl)
  {
  }
}
