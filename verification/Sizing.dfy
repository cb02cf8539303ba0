/** Lot size for a structural stop, and what it promises about the loss at that stop. */
module Sizing {
  import opened Prelude
  import opened Sim

  datatype Limits = Limits(volMin: real, volStep: real, volMax: real)

  /** What is put at risk: a percentage of the balance, capped by the remaining daily budget. */
  function RiskDollars(balance: real, riskPct: real, maxRisk: Option<real>): real {
    var r := balance * (riskPct / 100.0);
    if maxRisk.Some? then Min(r, maxRisk.value) else r
  }

  function FloorToStep(x: real, step: real): real {
    if step <= 0.0 then x else (x / step + EPS).Floor as real * step
  }

  /** Inputs that mean "no trade". */
  predicate Degenerate(balance: real, riskPct: real, dist: real, valuePerMove: real, maxRisk: Option<real>) {
    || dist <= 0.0 || valuePerMove <= 0.0 || balance <= 0.0 || riskPct <= 0.0
    || (maxRisk.Some? && maxRisk.value <= 0.0)
  }

  /** What one lot loses at the stop. */
  function UnitRisk(entry: real, stop: real, valuePerMove: real): real {
    Scaled(Abs(entry - stop), valuePerMove)
  }

  /** The budget over the loss of one lot, snapped down to the volume step; no trade below the
      smallest volume. */
  function LotFor(risk: real, unit: real, limits: Limits): real
    requires unit != 0.0
  {
    var lot := FloorToStep(risk / unit, limits.volStep);
    if lot < limits.volMin then 0.0 else Min(lot, limits.volMax)
  }

  function ComputeLot(balance: real, riskPct: real, entry: real, stop: real, valuePerMove: real,
                      limits: Limits, maxRisk: Option<real>): real
  {
    if Degenerate(balance, riskPct, Abs(entry - stop), valuePerMove, maxRisk) then 0.0
    else
      UnitPositive(entry, stop, valuePerMove);
      LotFor(RiskDollars(balance, riskPct, maxRisk), UnitRisk(entry, stop, valuePerMove), limits)
  }

  lemma UnitPositive(entry: real, stop: real, valuePerMove: real)
    requires Abs(entry - stop) > 0.0 && valuePerMove > 0.0
    ensures UnitRisk(entry, stop, valuePerMove) > 0.0
  {
  }

  /** What snapping may add: 1e-9 of a step. */
  function Slack(limits: Limits): real {
    if limits.volStep > 0.0 then EPS * limits.volStep else 0.0
  }

  lemma ScaledLess(a: real, b: real, k: real)
    requires k > 0.0
    ensures a <= b ==> Scaled(a, k) <= Scaled(b, k)
    ensures a < b ==> Scaled(a, k) < Scaled(b, k)
  {
    if a < b {
      assert (b - a) * k > 0.0;
    }
  }

  lemma FloorBelow(x: real, step: real)
    requires step > 0.0
    ensures FloorToStep(x, step) <= x + EPS * step
    ensures x < FloorToStep(x, step) + step
  {
    var q := x / step;
    var n := (q + EPS).Floor as real;
    assert FloorToStep(x, step) == Scaled(n, step);
    assert n <= q + EPS < n + 1.0;
    assert Scaled(q, step) == x;
    ScaledLess(n, q + EPS, step);
    ScaledLess(q, n + 1.0, step);
    ScaledSum(q, EPS, step);
    ScaledSum(n, 1.0, step);
  }

  lemma RawTimesUnit(risk: real, unit: real)
    requires unit != 0.0
    ensures Scaled(risk / unit, unit) == risk
  {
  }

  /** Snapping overshoots the budget by at most the slack, and one step more would exceed it. */
  lemma LotBounds(risk: real, unit: real, limits: Limits)
    requires unit > 0.0 && risk >= 0.0 && limits.volMin > 0.0 && limits.volMax > 0.0
    ensures var lot := LotFor(risk, unit, limits);
            && lot >= 0.0
            && (lot > 0.0 ==> Scaled(lot, unit) <= risk + Scaled(Slack(limits), unit))
            && (0.0 < lot < limits.volMax && limits.volStep > 0.0 ==> risk < Scaled(lot + limits.volStep, unit))
  {
    var raw := risk / unit;
    var snapped := FloorToStep(raw, limits.volStep);
    RawTimesUnit(risk, unit);
    if limits.volStep > 0.0 {
      FloorBelow(raw, limits.volStep);
    }
    assert snapped <= raw + Slack(limits);
    ScaledLess(snapped, raw + Slack(limits), unit);
    ScaledLess(Min(snapped, limits.volMax), snapped, unit);
    ScaledLess(raw, snapped + limits.volStep, unit);
    ScaledSum(raw, Slack(limits), unit);
  }

  lemma RiskPositive(balance: real, riskPct: real, maxRisk: Option<real>)
    requires balance > 0.0 && riskPct > 0.0 && (maxRisk.Some? ==> maxRisk.value > 0.0)
    ensures RiskDollars(balance, riskPct, maxRisk) > 0.0
  {
    assert riskPct / 100.0 > 0.0;
  }

  /** The loss at the stop never exceeds the budget by more than 1e-9 of a volume step's worth: a
      trade that would is skipped.  And the lot is not needlessly small: unless it is capped at the
      maximum or skipped, one more step would exceed the budget. */
  lemma LotWithinBudget(balance: real, riskPct: real, entry: real, stop: real, valuePerMove: real,
                        limits: Limits, maxRisk: Option<real>)
    requires limits.volMin > 0.0 && limits.volMax > 0.0
    ensures var lot := ComputeLot(balance, riskPct, entry, stop, valuePerMove, limits, maxRisk);
            var risk, unit := RiskDollars(balance, riskPct, maxRisk), UnitRisk(entry, stop, valuePerMove);
            && lot >= 0.0
            && (lot > 0.0 ==> Scaled(lot, unit) <= risk + Scaled(Slack(limits), unit))
            && (0.0 < lot < limits.volMax && limits.volStep > 0.0 ==> risk < Scaled(lot + limits.volStep, unit))
  {
    if !Degenerate(balance, riskPct, Abs(entry - stop), valuePerMove, maxRisk) {
      RiskPositive(balance, riskPct, maxRisk);
      UnitPositive(entry, stop, valuePerMove);
      LotBounds(RiskDollars(balance, riskPct, maxRisk), UnitRisk(entry, stop, valuePerMove), limits);
    }
  }

  /** The smaller of a percentage of the balance and what may still be lost today. */
  predicate IsBudget(balance: real, riskPct: real, maxRisk: Option<real>, budget: real) {
    var share := Scaled(balance, riskPct);
    && 100.0 * budget <= share && (maxRisk.Some? ==> budget <= maxRisk.value)
    && (100.0 * budget == share || (maxRisk.Some? && budget == maxRisk.value))
  }

  /** Some whole number of steps, the most that the budget pays for at this loss per lot, up to 1e-9 of a step;
      without steps all that it pays for. */
  predicate IsMost(budget: real, unit: real, step: real, n: int, volume: real) {
    if step <= 0.0 then Scaled(volume, unit) == budget
    else
      && volume == Scaled(n as real, step)
      && Scaled(n as real, Scaled(step, unit)) <= budget + Scaled(EPS, Scaled(step, unit))
      && budget + Scaled(EPS, Scaled(step, unit)) < Scaled((n + 1) as real, Scaled(step, unit))
  }

  lemma FloorIsMost(budget: real, unit: real, step: real) returns (n: int)
    requires unit > 0.0
    ensures IsMost(budget, unit, step, n, FloorToStep(budget / unit, step))
  {
    var q, k := budget / unit, Scaled(step, unit);
    RawTimesUnit(budget, unit);
    if step <= 0.0 {
      n := 0;
    } else {
      n := (q / step + EPS).Floor;
      var x := q / step;
      assert Scaled(x, step) == q;
      ScaledTwice(x, step, unit);
      assert Scaled(x, k) == budget;
      assert k > 0.0;
      ScaledLess(n as real, x + EPS, k);
      ScaledLess(x + EPS, (n + 1) as real, k);
      ScaledSum(x, EPS, k);
    }
  }

  lemma ScaledTwice(a: real, b: real, c: real)
    ensures Scaled(a, Scaled(b, c)) == Scaled(Scaled(a, b), c)
  {
  }

  /** No trade without something to risk on something; otherwise the most the budget pays for, none if that is
      below the smallest volume and at most the largest. */
  lemma LotExact(balance: real, riskPct: real, entry: real, stop: real, valuePerMove: real, limits: Limits,
                 maxRisk: Option<real>) returns (budget: real, n: int, volume: real)
    ensures var lot := ComputeLot(balance, riskPct, entry, stop, valuePerMove, limits, maxRisk);
            var dist := if stop < entry then entry - stop else stop - entry;
            if balance <= 0.0 || riskPct <= 0.0 || entry == stop || valuePerMove <= 0.0
               || (maxRisk.Some? && maxRisk.value <= 0.0)
            then lot == 0.0
            else
              && IsBudget(balance, riskPct, maxRisk, budget)
              && IsMost(budget, Scaled(dist, valuePerMove), limits.volStep, n, volume)
              && lot == if volume < limits.volMin then 0.0 else if volume > limits.volMax then limits.volMax else volume
  {
    if Degenerate(balance, riskPct, Abs(entry - stop), valuePerMove, maxRisk) {
      budget, n, volume := 0.0, 0, 0.0;
    } else {
      UnitPositive(entry, stop, valuePerMove);
      budget := RiskDollars(balance, riskPct, maxRisk);
      volume := FloorToStep(budget / UnitRisk(entry, stop, valuePerMove), limits.volStep);
      assert 100.0 * (balance * (riskPct / 100.0)) == Scaled(balance, riskPct);
      n := FloorIsMost(budget, UnitRisk(entry, stop, valuePerMove), limits.volStep);
    }
  }

  /** A market entry sized this way never loses more, however it is managed and closed, than the
      budget, plus a full spread and the commission on its lots, plus the 1e-9-step slack. */
  lemma SizedEntryLoss(costs: Costs, events: seq<Event>, p: Position, price: real, balance: real, riskPct: real,
                       limits: Limits, maxRisk: Option<real>)
    requires ValidCosts(costs) && SoundRun(costs, events)
    requires p in Run(costs, events).closed || p in Run(costs, events).positions
    requires limits.volMin > 0.0 && limits.volMax > 0.0
    requires p.priceOpen == Worse(costs, p.side, price) && p.stops != []
    requires p.lots == ComputeLot(balance, riskPct, price, p.stops[0], costs.valuePerMove, limits, maxRisk)
    requires p.lots > 0.0
    ensures p.pnl >= -(RiskDollars(balance, riskPct, maxRisk)
                       + Scaled(Slack(limits), UnitRisk(price, p.stops[0], costs.valuePerMove))
                       + Scaled(p.lots, Scaled(2.0 * costs.halfSpread, costs.valuePerMove) + costs.comm))
  {
    LossLimited(costs, events, p);
    LotWithinBudget(balance, riskPct, price, p.stops[0], costs.valuePerMove, limits, maxRisk);
    UnitLossSplit(costs, p, price);
    SpreadOnTop(p.lots, UnitLoss(costs, p), UnitRisk(price, p.stops[0], costs.valuePerMove),
                Scaled(2.0 * costs.halfSpread, costs.valuePerMove) + costs.comm);
  }

  lemma UnitLossSplit(costs: Costs, p: Position, price: real)
    requires ValidCosts(costs) && p.priceOpen == Worse(costs, p.side, price) && p.stops != []
    ensures UnitLoss(costs, p) <=
            UnitRisk(price, p.stops[0], costs.valuePerMove) +
            (Scaled(2.0 * costs.halfSpread, costs.valuePerMove) + costs.comm)
  {
    var dist := Abs(price - p.stops[0]);
    ScaleUp(dist + 2.0 * costs.halfSpread, Abs(p.priceOpen - p.stops[0]) + costs.halfSpread, costs.valuePerMove);
    ScaledSum(dist, 2.0 * costs.halfSpread, costs.valuePerMove);
  }

  lemma SpreadOnTop(lots: real, loss: real, unit: real, extra: real)
    requires lots >= 0.0 && loss <= unit + extra
    ensures Scaled(lots, loss) <= Scaled(lots, unit) + Scaled(lots, extra)
  {
    assert lots * loss <= lots * (unit + extra);
  }
}
