/** The simulator as an object: its lists are changed step by step, one bar after another. */
module SimClass {
  import opened Prelude
  import opened Models
  import opened Sitters
  import opened Sim

  class Simulator {
    const costs: Costs
    var pendings: seq<Pending>
    var positions: seq<Position>
    var closed: seq<Position>
    var ticket: int
    var equity: real

    function Model(): State
      reads this
    {
      State(pendings, positions, closed, ticket, equity)
    }

    constructor (costs: Costs)
      ensures this.costs == costs && Model() == Empty
    {
      this.costs := costs;
      pendings, positions, closed, ticket, equity := [], [], [], 0, 0.0;
    }

    method LimitSet(e: Entry, ts: int)
      modifies this
      ensures Model() == PlaceLimitSet(costs, old(Model()), e, ts)
    {
      var d := Abs(e.price - e.stop);
      if d <= 0.0 {
        return;
      }
      var back := if e.side.Short? then d else -d;
      var l1 := e.price + back;
      var sl := l1 + back;
      var l2 := l1 + ADDON_FRAC * back;
      ticket := ticket + 1;
      pendings := pendings + [Pending(ticket, e.side, l1, sl, costs.qty, ts)];
      ticket := ticket + 1;
      pendings := pendings + [Pending(ticket, e.side, l2, sl, costs.qty, ts)];
    }

    method Market(e: Entry, ts: int, lot: real)
      modifies this
      ensures Model() == PlaceMarket(costs, old(Model()), e, ts, lot)
    {
      ticket := ticket + 1;
      positions := positions + [Opened(ticket, e.side, lot, Worse(costs, e.side, e.price), e.stop, ts)];
    }

    /** `_close` on the i-th position. */
    method ClosePart(i: nat, px: real, volume: real, reason: Reason)
      requires i < |positions|
      modifies this
      ensures Model() == Close(costs, old(Model()), i, px, volume, reason)
    {
      var p := positions[i];
      var gross := Profit(p.side, p.priceOpen, px) * volume * costs.valuePerMove;
      var pnl := gross - costs.comm * volume;
      assert pnl == PnlOf(costs, p, px, volume);
      ghost var filled := Filled(costs, p, px, volume, reason);
      p := p.(pnl := p.pnl + pnl, volume := p.volume - volume, fills := p.fills + [Fill(reason, px, volume, pnl)]);
      assert p == filled;
      equity := equity + pnl;
      if p.volume <= EPS {
        closed := closed + [p];
        positions := positions[..i] + positions[i + 1..];
      } else {
        positions := positions[i := p];
      }
    }

    method DropPendings(ts: int, spike: bool)
      modifies this`pendings
      ensures pendings == KeepPendings(old(pendings), ts, spike)
    {
      var keep, os := [], pendings;
      var i := 0;
      while i < |os|
        invariant 0 <= i <= |os|
        invariant keep == KeepPendings(os[..i], ts, spike)
      {
        assert os[..i + 1][..i] == os[..i];
        var age := ts - os[i].placedTs;
        if age < LIMIT_TTL_SEC && !(spike && age >= SPIKE_MIN_AGE_SEC) {
          keep := keep + [os[i]];
        }
        i := i + 1;
      }
      assert os[..|os|] == os;
      pendings := keep;
    }

    method FillTouched(c: Candle)
      modifies this`pendings, this`positions
      ensures var (still, entered) := FillPendings(costs, old(pendings), c);
              pendings == still && positions == old(positions) + entered
    {
      var still, entered, os := [], [], pendings;
      var i := 0;
      while i < |os|
        invariant 0 <= i <= |os|
        invariant (still, entered) == FillPendings(costs, os[..i], c)
      {
        assert os[..i + 1][..i] == os[..i];
        var o := os[i];
        if Touched(o, c) {
          entered := entered + [Opened(o.ticket, o.side, o.volume, Worse(costs, o.side, o.px), o.sl, c.ts)];
        } else {
          still := still + [o];
        }
        i := i + 1;
      }
      assert os[..|os|] == os;
      pendings := still;
      positions := positions + entered;
    }

    /** The intrabar stops; a position that closes leaves the list, so the index stays. */
    method StopOut(c: Candle)
      modifies this
      ensures Model() == StopPass(costs, old(Model()), 0, c)
    {
      var i := 0;
      while i < |positions|
        invariant 0 <= i <= |positions|
        invariant StopPass(costs, Model(), i, c) == StopPass(costs, old(Model()), 0, c)
        decreases |positions| - i
      {
        if Hit(positions[i], c) {
          ClosePart(i, positions[i].sl, positions[i].volume, StopHit);
        } else {
          i := i + 1;
        }
      }
    }

    method ApplyActions(acts: seq<Action>, c: Candle)
      modifies this
      ensures Model() == ApplyAll(costs, old(Model()), acts, c)
    {
      var k := 0;
      while k < |acts|
        invariant 0 <= k <= |acts|
        invariant Model() == ApplyAll(costs, old(Model()), acts[..k], c)
      {
        assert acts[..k + 1][..k] == acts[..k];
        ApplyOneAction(acts[k], c);
        k := k + 1;
      }
      assert acts[..|acts|] == acts;
    }

    method ApplyOneAction(act: Action, c: Candle)
      modifies this
      ensures Model() == Apply(costs, old(Model()), act, c)
    {
      var i := Find(positions, act.ticket);
      if i < |positions| {
        var p := positions[i];
        match act
        case PartialClose(_, volume) =>
          ClosePart(i, ExitPx(costs, p.side, c), Min(volume, p.volume), Partial);
        case UpdateSl(_, sl) =>
          if p.sl == 0.0 || Tighter(p.side, sl, p.sl) {
            p := p.(sl := sl, stops := p.stops + [sl]);
          }
          positions := positions[i := p];
      }
    }

    method FlattenAll(c: Candle)
      modifies this
      ensures Model() == Flatten(costs, old(Model()), c)
    {
      while positions != []
        invariant Flatten(costs, Model(), c) == Flatten(costs, old(Model()), c)
        decreases |positions|
      {
        ClosePart(0, ExitPx(costs, positions[0].side, c), positions[0].volume, DailyHalt);
      }
      pendings := [];
    }

    /** `on_bar`. */
    method Bar(c: Candle, sitter: Sitter, spike: bool, halted: bool)
      modifies this
      ensures Model() == OnBar(costs, old(Model()), c, sitter, spike, halted)
    {
      DropPendings(c.ts, spike);
      FillTouched(c);
      StopOut(c);
      ApplyActions(sitter(Views(positions), c), c);
      if halted {
        FlattenAll(c);
      }
    }
  }
}
