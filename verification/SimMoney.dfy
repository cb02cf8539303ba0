/** Where every price in the simulator comes from: what each position was opened at and why, and what
    each fill was booked at, in terms of the entries and the bars of the run. */
module SimMoney {
  import opened Prelude
  import opened Models
  import opened Sitters
  import opened Sim

  // ------------------------------------------------------------------ what a price is

  /** The gain of a fill before commission, by the price it was booked at. */
  predicate FillFair(costs: Costs, side: Direction, entry: real, f: Fill) {
    var gained := if side == Long then f.px - entry else entry - f.px;
    f.pnl + costs.comm * f.volume == gained * f.volume * costs.valuePerMove
  }

  /** The close of this bar, half a spread to the bad. */
  predicate AtClose(costs: Costs, side: Direction, c: Candle, px: real) {
    px == if side == Long then c.close - costs.halfSpread else c.close + costs.halfSpread
  }

  /** The bar trades at the level or beyond it. */
  predicate Reaches(side: Direction, c: Candle, level: real) {
    if side == Long then c.low <= level else level <= c.high
  }

  ghost predicate PricedByClose(costs: Costs, events: seq<Event>, side: Direction, px: real, halt: bool) {
    exists i ::
      0 <= i < |events| && events[i].Bar? && (halt ==> events[i].halted) && AtClose(costs, side, events[i].c, px)
  }

  ghost predicate StopReached(events: seq<Event>, side: Direction, stop: real) {
    exists i :: 0 <= i < |events| && events[i].Bar? && Reaches(side, events[i].c, stop)
  }

  /** A fill of a position: partial ones at a close, at any time; a hit stop or a halt once, at the end,
      at the stop in force or at the close of the halt. */
  ghost predicate FillPriced(costs: Costs, events: seq<Event>, p: Position, k: nat, open: bool)
    requires k < |p.fills|
  {
    var f := p.fills[k];
    && FillFair(costs, p.side, p.priceOpen, f)
    && match f.reason
       case Partial => PricedByClose(costs, events, p.side, f.px, false)
       case DailyHalt => !open && k == |p.fills| - 1 && PricedByClose(costs, events, p.side, f.px, true)
       case StopHit => !open && k == |p.fills| - 1 && f.px == p.sl && StopReached(events, p.side, p.sl)
  }

  // ------------------------------------------------------------------ where a position comes from

  predicate Entered(e: Entry, p: Position) {
    e.side == p.side && p.stops != [] && p.stops[0] == e.stop
  }

  /** At the signal's price, half a spread to the bad, with the signal's stop. */
  ghost predicate FromMarket(costs: Costs, events: seq<Event>, p: Position) {
    exists i ::
      && 0 <= i < |events| && events[i].Market? && Entered(events[i].entry, p)
      && p.lots == events[i].lot && p.openTs == events[i].ts
      && p.priceOpen == (if p.side == Long then events[i].entry.price + costs.halfSpread
                         else events[i].entry.price - costs.halfSpread)
  }

  /** One of the two limits of this entry: where the naive stop would have sat or 0.8 of its distance
      deeper, the stop twice the distance back. */
  predicate LimitOf(e: Entry, side: Direction, px: real, sl: real) {
    var d := Abs(e.price - e.stop);
    && d > 0.0 && side == e.side
    && (if side == Long then px == e.price - d || px == e.price - 1.8 * d
        else px == e.price + d || px == e.price + 1.8 * d)
    && sl == if side == Long then e.price - 2.0 * d else e.price + 2.0 * d
  }

  predicate PendingFrom(costs: Costs, e: Event, o: Pending) {
    e.Limits? && LimitOf(e.entry, o.side, o.px, o.sl) && o.volume == costs.qty && o.placedTs == e.ts
  }

  ghost predicate PendingOk(costs: Costs, events: seq<Event>, o: Pending) {
    exists i :: 0 <= i < |events| && PendingFrom(costs, events[i], o)
  }

  /** In time: within half an hour, and within two minutes when volatility has spiked. */
  predicate InTime(o: Pending, ts: int, spike: bool) {
    ts - o.placedTs < 1800 && (spike ==> ts - o.placedTs < 120)
  }

  /** The order of this limit, filled by this bar in time: at its price, half a spread to the bad. */
  predicate FilledBy(costs: Costs, o: Pending, e: Event, p: Position) {
    && e.Bar? && InTime(o, e.c.ts, e.spike) && Reaches(o.side, e.c, o.px)
    && p.ticket == o.ticket && p.side == o.side && p.lots == o.volume && p.openTs == e.c.ts
    && p.stops != [] && p.stops[0] == o.sl
    && p.priceOpen == if o.side == Long then o.px + costs.halfSpread else o.px - costs.halfSpread
  }

  ghost predicate FromLimit(costs: Costs, events: seq<Event>, p: Position) {
    exists o: Pending, i :: 0 <= i < |events| && PendingOk(costs, events, o) && FilledBy(costs, o, events[i], p)
  }

  ghost predicate Sourced(costs: Costs, events: seq<Event>, p: Position) {
    FromMarket(costs, events, p) || FromLimit(costs, events, p)
  }

  ghost predicate Priced(costs: Costs, events: seq<Event>, p: Position, open: bool) {
    Sourced(costs, events, p) && forall k :: 0 <= k < |p.fills| ==> FillPriced(costs, events, p, k, open)
  }

  ghost predicate MoneyInv(costs: Costs, events: seq<Event>, s: State) {
    && (forall i :: 0 <= i < |s.positions| ==> Priced(costs, events, s.positions[i], true))
    && (forall i :: 0 <= i < |s.closed| ==> Priced(costs, events, s.closed[i], false))
    && (forall i :: 0 <= i < |s.pendings| ==> PendingOk(costs, events, s.pendings[i]))
  }

  // ------------------------------------------------------------------ more events

  lemma PricedByCloseMore(costs: Costs, events: seq<Event>, e: Event, side: Direction, px: real, halt: bool)
    requires PricedByClose(costs, events, side, px, halt)
    ensures PricedByClose(costs, events + [e], side, px, halt)
  {
    var i :|
      0 <= i < |events| && events[i].Bar? && (halt ==> events[i].halted) && AtClose(costs, side, events[i].c, px);
    assert (events + [e])[i] == events[i];
  }

  lemma StopReachedMore(events: seq<Event>, e: Event, side: Direction, stop: real)
    requires StopReached(events, side, stop)
    ensures StopReached(events + [e], side, stop)
  {
    var i :| 0 <= i < |events| && events[i].Bar? && Reaches(side, events[i].c, stop);
    assert (events + [e])[i] == events[i];
  }

  lemma PendingMore(costs: Costs, events: seq<Event>, e: Event, o: Pending)
    requires PendingOk(costs, events, o)
    ensures PendingOk(costs, events + [e], o)
  {
    var i :| 0 <= i < |events| && PendingFrom(costs, events[i], o);
    assert (events + [e])[i] == events[i];
  }

  lemma SourcedMore(costs: Costs, events: seq<Event>, e: Event, p: Position)
    requires Sourced(costs, events, p)
    ensures Sourced(costs, events + [e], p)
  {
    if FromMarket(costs, events, p) {
      var i :| && 0 <= i < |events| && events[i].Market? && Entered(events[i].entry, p)
               && p.lots == events[i].lot && p.openTs == events[i].ts
               && p.priceOpen == (if p.side == Long then events[i].entry.price + costs.halfSpread
                                  else events[i].entry.price - costs.halfSpread);
      assert (events + [e])[i] == events[i];
    } else {
      var o: Pending, i :| 0 <= i < |events| && PendingOk(costs, events, o) && FilledBy(costs, o, events[i], p);
      PendingMore(costs, events, e, o);
      assert (events + [e])[i] == events[i];
    }
  }

  lemma FillPricedMore(costs: Costs, events: seq<Event>, e: Event, p: Position, k: nat, open: bool)
    requires k < |p.fills| && FillPriced(costs, events, p, k, open)
    ensures FillPriced(costs, events + [e], p, k, open)
  {
    var f := p.fills[k];
    match f.reason
    case Partial => PricedByCloseMore(costs, events, e, p.side, f.px, false);
    case DailyHalt => PricedByCloseMore(costs, events, e, p.side, f.px, true);
    case StopHit => StopReachedMore(events, e, p.side, p.sl);
  }

  lemma PricedMore(costs: Costs, events: seq<Event>, e: Event, p: Position, open: bool)
    requires Priced(costs, events, p, open)
    ensures Priced(costs, events + [e], p, open)
  {
    SourcedMore(costs, events, e, p);
    forall k | 0 <= k < |p.fills| ensures FillPriced(costs, events + [e], p, k, open) {
      FillPricedMore(costs, events, e, p, k, open);
    }
  }

  lemma MoneyMore(costs: Costs, events: seq<Event>, e: Event, s: State)
    requires MoneyInv(costs, events, s)
    ensures MoneyInv(costs, events + [e], s)
  {
    forall i | 0 <= i < |s.positions| ensures Priced(costs, events + [e], s.positions[i], true) {
      PricedMore(costs, events, e, s.positions[i], true);
    }
    forall i | 0 <= i < |s.closed| ensures Priced(costs, events + [e], s.closed[i], false) {
      PricedMore(costs, events, e, s.closed[i], false);
    }
    forall i | 0 <= i < |s.pendings| ensures PendingOk(costs, events + [e], s.pendings[i]) {
      PendingMore(costs, events, e, s.pendings[i]);
    }
  }

  // ------------------------------------------------------------------ one fill

  /** What a position came from does not depend on what happens to it. */
  lemma SourcedSame(costs: Costs, events: seq<Event>, p: Position, q: Position)
    requires Sourced(costs, events, p)
    requires q.side == p.side && q.ticket == p.ticket && q.lots == p.lots && q.openTs == p.openTs
    requires q.priceOpen == p.priceOpen && p.stops != [] ==> q.stops != [] && q.stops[0] == p.stops[0]
    requires q.priceOpen == p.priceOpen
    ensures Sourced(costs, events, q)
  {
    if FromMarket(costs, events, p) {
      var i :| && 0 <= i < |events| && events[i].Market? && Entered(events[i].entry, p)
               && p.lots == events[i].lot && p.openTs == events[i].ts
               && p.priceOpen == (if p.side == Long then events[i].entry.price + costs.halfSpread
                                  else events[i].entry.price - costs.halfSpread);
      assert Entered(events[i].entry, q);
    } else {
      var o: Pending, i :| 0 <= i < |events| && PendingOk(costs, events, o) && FilledBy(costs, o, events[i], p);
      assert FilledBy(costs, o, events[i], q);
    }
  }

  lemma FairFill(costs: Costs, p: Position, px: real, volume: real, reason: Reason)
    ensures var q := Filled(costs, p, px, volume, reason);
            FillFair(costs, p.side, p.priceOpen, q.fills[|q.fills| - 1])
  {
  }

  /** An open position's earlier fills, seen once it has one more or is closed. */
  lemma EarlierFill(costs: Costs, events: seq<Event>, p: Position, q: Position, k: nat, open: bool)
    requires k < |p.fills| && FillPriced(costs, events, p, k, true)
    requires k < |q.fills| && q.fills[k] == p.fills[k] && q.side == p.side && q.priceOpen == p.priceOpen
    ensures FillPriced(costs, events, q, k, open)
  {
  }

  lemma MarketFill(costs: Costs, events: seq<Event>, p: Position, c: Candle, volume: real, reason: Reason, open: bool)
    requires Priced(costs, events, p, true)
    requires reason == Partial || (reason == DailyHalt && !open)
    requires PricedByClose(costs, events, p.side, ExitPx(costs, p.side, c), reason == DailyHalt)
    ensures Priced(costs, events, Filled(costs, p, ExitPx(costs, p.side, c), volume, reason), open)
  {
    var q := Filled(costs, p, ExitPx(costs, p.side, c), volume, reason);
    SourcedSame(costs, events, p, q);
    FairFill(costs, p, ExitPx(costs, p.side, c), volume, reason);
    forall k | 0 <= k < |q.fills| ensures FillPriced(costs, events, q, k, open) {
      if k < |p.fills| {
        EarlierFill(costs, events, p, q, k, open);
      }
    }
  }

  lemma StopFill(costs: Costs, events: seq<Event>, p: Position)
    requires Priced(costs, events, p, true) && StopReached(events, p.side, p.sl)
    ensures Priced(costs, events, Filled(costs, p, p.sl, p.volume, StopHit), false)
  {
    var q := Filled(costs, p, p.sl, p.volume, StopHit);
    SourcedSame(costs, events, p, q);
    FairFill(costs, p, p.sl, p.volume, StopHit);
    forall k | 0 <= k < |q.fills| ensures FillPriced(costs, events, q, k, false) {
      if k < |p.fills| {
        EarlierFill(costs, events, p, q, k, false);
      }
    }
  }

  lemma MovedPriced(costs: Costs, events: seq<Event>, p: Position, sl: real)
    requires Priced(costs, events, p, true)
    ensures Priced(costs, events, Moved(p, sl), true)
  {
    var q := Moved(p, sl);
    SourcedSame(costs, events, p, q);
    forall k | 0 <= k < |q.fills| ensures FillPriced(costs, events, q, k, true) {
      EarlierFill(costs, events, p, q, k, true);
    }
  }

  // ------------------------------------------------------------------ one bar

  lemma CloseKeeps(costs: Costs, events: seq<Event>, s: State, i: nat, px: real, volume: real, reason: Reason)
    requires MoneyInv(costs, events, s) && i < |s.positions|
    requires var p := Filled(costs, s.positions[i], px, volume, reason);
             Priced(costs, events, p, false) && (p.volume > EPS ==> Priced(costs, events, p, true))
    ensures MoneyInv(costs, events, Close(costs, s, i, px, volume, reason))
  {
  }

  lemma {:induction false} StopsKeep(costs: Costs, events: seq<Event>, s: State, i: nat, c: Candle)
    requires MoneyInv(costs, events, s) && i <= |s.positions|
    requires exists n :: 0 <= n < |events| && events[n].Bar? && events[n].c == c
    ensures MoneyInv(costs, events, StopPass(costs, s, i, c))
    ensures StopPass(costs, s, i, c).pendings == s.pendings
    decreases |s.positions| - i
  {
    if i < |s.positions| {
      var p := s.positions[i];
      if Hit(p, c) {
        var n :| 0 <= n < |events| && events[n].Bar? && events[n].c == c;
        assert Reaches(p.side, events[n].c, p.sl);
        StopFill(costs, events, p);
        CloseKeeps(costs, events, s, i, p.sl, p.volume, StopHit);
        StopsKeep(costs, events, Close(costs, s, i, p.sl, p.volume, StopHit), i, c);
      } else {
        StopsKeep(costs, events, s, i + 1, c);
      }
    }
  }

  lemma ByClose(costs: Costs, events: seq<Event>, n: nat, side: Direction, halt: bool)
    requires n < |events| && events[n].Bar? && (halt ==> events[n].halted)
    ensures PricedByClose(costs, events, side, ExitPx(costs, side, events[n].c), halt)
  {
    assert AtClose(costs, side, events[n].c, ExitPx(costs, side, events[n].c));
  }

  lemma ApplyKeeps(costs: Costs, events: seq<Event>, n: nat, s: State, act: Action)
    requires MoneyInv(costs, events, s) && n < |events| && events[n].Bar?
    ensures MoneyInv(costs, events, Apply(costs, s, act, events[n].c))
  {
    var i := Find(s.positions, act.ticket);
    if i < |s.positions| {
      var p := s.positions[i];
      match act
      case PartialClose(_, volume) =>
        ByClose(costs, events, n, p.side, false);
        MarketFill(costs, events, p, events[n].c, Min(volume, p.volume), Partial, true);
        MarketFill(costs, events, p, events[n].c, Min(volume, p.volume), Partial, false);
        CloseKeeps(costs, events, s, i, ExitPx(costs, p.side, events[n].c), Min(volume, p.volume), Partial);
      case UpdateSl(_, sl) =>
        MovedPriced(costs, events, p, sl);
    }
  }

  lemma {:induction false} ApplyAllKeeps(costs: Costs, events: seq<Event>, n: nat, s: State, acts: seq<Action>)
    requires MoneyInv(costs, events, s) && n < |events| && events[n].Bar?
    ensures MoneyInv(costs, events, ApplyAll(costs, s, acts, events[n].c))
    decreases |acts|
  {
    if acts != [] {
      var most := acts[..|acts| - 1];
      ApplyAllKeeps(costs, events, n, s, most);
      ApplyKeeps(costs, events, n, ApplyAll(costs, s, most, events[n].c), acts[|acts| - 1]);
    }
  }

  lemma {:induction false} FlattenKeeps(costs: Costs, events: seq<Event>, n: nat, s: State)
    requires MoneyInv(costs, events, s) && n < |events| && events[n].Bar? && events[n].halted
    ensures MoneyInv(costs, events, Flatten(costs, s, events[n].c))
    decreases |s.positions|
  {
    if s.positions != [] {
      var p := s.positions[0];
      ByClose(costs, events, n, p.side, true);
      MarketFill(costs, events, p, events[n].c, p.volume, DailyHalt, false);
      CloseKeeps(costs, events, s, 0, ExitPx(costs, p.side, events[n].c), p.volume, DailyHalt);
      FlattenKeeps(costs, events, n, Close(costs, s, 0, ExitPx(costs, p.side, events[n].c), p.volume, DailyHalt));
    }
  }

  // ------------------------------------------------------------------ orders

  lemma {:induction false} KeptExactly(os: seq<Pending>, ts: int, spike: bool, o: Pending)
    ensures o in KeepPendings(os, ts, spike) <==> o in os && InTime(o, ts, spike)
    decreases |os|
  {
    if os != [] {
      var most := os[..|os| - 1];
      KeptExactly(most, ts, spike, o);
      assert os == most + [os[|os| - 1]];
    }
  }

  lemma {:induction false} StillExactly(costs: Costs, os: seq<Pending>, c: Candle, o: Pending)
    ensures o in FillPendings(costs, os, c).0 <==> o in os && !Reaches(o.side, c, o.px)
    decreases |os|
  {
    if os != [] {
      var most := os[..|os| - 1];
      StillExactly(costs, most, c, o);
      assert os == most + [os[|os| - 1]];
    }
  }

  /** A position that was opened by this order on this bar, untouched. */
  predicate Fresh(costs: Costs, o: Pending, c: Candle, p: Position) {
    && p.ticket == o.ticket && p.side == o.side && p.lots == o.volume && p.openTs == c.ts
    && p.stops == [o.sl] && p.sl == o.sl && p.fills == [] && p.volume == o.volume
    && p.priceOpen == if o.side == Long then o.px + costs.halfSpread else o.px - costs.halfSpread
  }

  ghost predicate OpenedBy(costs: Costs, os: seq<Pending>, c: Candle, p: Position) {
    exists o: Pending :: o in os && Reaches(o.side, c, o.px) && Fresh(costs, o, c, p)
  }

  ghost predicate Opens(costs: Costs, ps: seq<Position>, c: Candle, o: Pending) {
    exists i :: 0 <= i < |ps| && Fresh(costs, o, c, ps[i])
  }

  lemma {:induction false} EnteredFrom(costs: Costs, os: seq<Pending>, c: Candle, i: nat)
    requires i < |FillPendings(costs, os, c).1|
    ensures OpenedBy(costs, os, c, FillPendings(costs, os, c).1[i])
    decreases |os|
  {
    if os != [] {
      var most, last := os[..|os| - 1], os[|os| - 1];
      var before := FillPendings(costs, most, c).1;
      if i < |before| {
        EnteredFrom(costs, most, c, i);
        var o: Pending :| o in most && Reaches(o.side, c, o.px) && Fresh(costs, o, c, before[i]);
        assert o in os;
      } else {
        assert last in os && Fresh(costs, last, c, FillPendings(costs, os, c).1[i]);
      }
    }
  }

  lemma {:induction false} EnteredAll(costs: Costs, os: seq<Pending>, c: Candle, o: Pending)
    requires o in os && Reaches(o.side, c, o.px)
    ensures Opens(costs, FillPendings(costs, os, c).1, c, o)
    decreases |os|
  {
    var most, last := os[..|os| - 1], os[|os| - 1];
    var before, ps := FillPendings(costs, most, c).1, FillPendings(costs, os, c).1;
    if o in most {
      EnteredAll(costs, most, c, o);
      var i :| 0 <= i < |before| && Fresh(costs, o, c, before[i]);
      assert ps[i] == before[i];
    } else {
      assert os == most + [last];
      assert Fresh(costs, last, c, ps[|ps| - 1]);
    }
  }

  lemma FreshPriced(costs: Costs, events: seq<Event>, n: nat, o: Pending, p: Position)
    requires n < |events| && events[n].Bar? && PendingOk(costs, events, o)
    requires InTime(o, events[n].c.ts, events[n].spike) && Reaches(o.side, events[n].c, o.px)
    requires Fresh(costs, o, events[n].c, p)
    ensures Priced(costs, events, p, true)
  {
    assert FilledBy(costs, o, events[n], p);
  }

  lemma BeforeKeeps(costs: Costs, events: seq<Event>, n: nat, s: State)
    requires MoneyInv(costs, events, s) && n < |events| && events[n].Bar?
    ensures MoneyInv(costs, events, Before(costs, s, events[n].c, events[n].spike))
  {
    var c, spike := events[n].c, events[n].spike;
    var os := KeepPendings(s.pendings, c.ts, spike);
    var (still, ps) := FillPendings(costs, os, c);
    forall i | 0 <= i < |ps| ensures Priced(costs, events, ps[i], true) {
      EnteredFrom(costs, os, c, i);
      var o: Pending :| o in os && Reaches(o.side, c, o.px) && Fresh(costs, o, c, ps[i]);
      KeptExactly(s.pendings, c.ts, spike, o);
      FreshPriced(costs, events, n, o, ps[i]);
    }
    forall i | 0 <= i < |still| ensures PendingOk(costs, events, still[i]) {
      StillExactly(costs, os, c, still[i]);
      KeptExactly(s.pendings, c.ts, spike, still[i]);
    }
    StopsKeep(costs, events, s.(pendings := still, positions := s.positions + ps), 0, c);
  }

  lemma BarKeeps(costs: Costs, events: seq<Event>, n: nat, s: State)
    requires MoneyInv(costs, events, s) && n < |events| && events[n].Bar?
    ensures MoneyInv(costs, events, Step(costs, s, events[n]))
  {
    var e := events[n];
    BeforeKeeps(costs, events, n, s);
    var s1 := Before(costs, s, e.c, e.spike);
    var acts := e.sitter(Views(s1.positions), e.c);
    ApplyAllKeeps(costs, events, n, s1, acts);
    if e.halted {
      FlattenKeeps(costs, events, n, ApplyAll(costs, s1, acts, e.c));
    }
  }

  lemma MarketKeeps(costs: Costs, events: seq<Event>, n: nat, s: State)
    requires MoneyInv(costs, events, s) && n < |events| && events[n].Market?
    ensures MoneyInv(costs, events, Step(costs, s, events[n]))
  {
    var e, s' := events[n], Step(costs, s, events[n]);
    assert Entered(e.entry, s'.positions[|s.positions|]);
    assert FromMarket(costs, events, s'.positions[|s.positions|]);
  }

  lemma LimitsKeep(costs: Costs, events: seq<Event>, n: nat, s: State)
    requires MoneyInv(costs, events, s) && n < |events| && events[n].Limits?
    ensures MoneyInv(costs, events, Step(costs, s, events[n]))
  {
    var s' := Step(costs, s, events[n]);
    forall i | 0 <= i < |s'.pendings| ensures PendingOk(costs, events, s'.pendings[i]) {
      if i < |s.pendings| {
        assert s'.pendings[i] == s.pendings[i];
      } else {
        assert PendingFrom(costs, events[n], s'.pendings[i]);
      }
    }
  }

  lemma {:induction false} RunMoney(costs: Costs, events: seq<Event>)
    ensures MoneyInv(costs, events, Run(costs, events))
    decreases |events|
  {
    if events != [] {
      var most, n := events[..|events| - 1], |events| - 1;
      RunMoney(costs, most);
      MoneyMore(costs, most, events[n], Run(costs, most));
      assert most + [events[n]] == events;
      match events[n]
      case Limits(_, _) => LimitsKeep(costs, events, n, Run(costs, most));
      case Market(_, _, _) => MarketKeeps(costs, events, n, Run(costs, most));
      case Bar(_, _, _, _) => BarKeeps(costs, events, n, Run(costs, most));
    }
  }

  // ------------------------------------------------------------------ main results

  /** Over any run, with any sitter: every position was opened by a market entry at its price or by one
      of the two limits of an entry, touched in time, half a spread to the bad; and every fill gains its
      price difference times volume and value per move, less commission, at a price that is the
      position's stop, reached by a bar, or a bar's close half a spread to the bad. */
  lemma EveryPrice(costs: Costs, events: seq<Event>, p: Position)
    ensures p in Run(costs, events).positions ==> Priced(costs, events, p, true)
    ensures p in Run(costs, events).closed ==> Priced(costs, events, p, false)
  {
    RunMoney(costs, events);
    var s := Run(costs, events);
    assert p in s.positions ==> exists i :: 0 <= i < |s.positions| && s.positions[i] == p;
    assert p in s.closed ==> exists i :: 0 <= i < |s.closed| && s.closed[i] == p;
  }

  lemma {:induction false} StopsTaken(costs: Costs, s: State, i: nat, c: Candle)
    requires i <= |s.positions| && forall j :: 0 <= j < i ==> !Reaches(s.positions[j].side, c, s.positions[j].sl)
    ensures var s' := StopPass(costs, s, i, c);
            && s'.pendings == s.pendings
            && forall j :: 0 <= j < |s'.positions| ==>
                 !Reaches(s'.positions[j].side, c, s'.positions[j].sl) && s'.positions[j] in s.positions
    decreases |s.positions| - i
  {
    if i < |s.positions| {
      var p := s.positions[i];
      if Hit(p, c) {
        var s1 := Close(costs, s, i, p.sl, p.volume, StopHit);
        StopsTaken(costs, s1, i, c);
        forall q | q in s1.positions ensures q in s.positions {}
      } else {
        StopsTaken(costs, s, i + 1, c);
      }
    }
  }

  lemma {:induction false} StopsOnly(costs: Costs, s: State, i: nat, c: Candle, p: Position)
    requires i <= |s.positions| && p in s.positions && !Reaches(p.side, c, p.sl)
    ensures p in StopPass(costs, s, i, c).positions
    decreases |s.positions| - i
  {
    if i < |s.positions| {
      if Hit(s.positions[i], c) {
        var s1 := Close(costs, s, i, s.positions[i].sl, s.positions[i].volume, StopHit);
        var j :| 0 <= j < |s.positions| && s.positions[j] == p;
        assert j != i && p == s1.positions[if j < i then j else j - 1];
        StopsOnly(costs, s1, i, c, p);
      } else {
        StopsOnly(costs, s, i + 1, c, p);
      }
    }
  }

  /** Before the sitter's turn on a bar: exactly the positions whose stop the bar does not reach are open,
      those that were and those the bar opens; and exactly the orders in time that the bar does not reach
      are pending. */
  lemma BarTakes(costs: Costs, s: State, c: Candle, spike: bool)
    ensures var s1 := Before(costs, s, c, spike);
            && (forall p: Position :: p in s1.positions ==>
                  && !Reaches(p.side, c, p.sl)
                  && (p in s.positions || exists o: Pending ::
                        o in s.pendings && InTime(o, c.ts, spike) && Reaches(o.side, c, o.px) && Fresh(costs, o, c, p)))
            && (forall p: Position :: p in s.positions && !Reaches(p.side, c, p.sl) ==> p in s1.positions)
            && (forall o: Pending ::
                  o in s.pendings && InTime(o, c.ts, spike) && Reaches(o.side, c, o.px) && !Reaches(o.side, c, o.sl) ==>
                    exists p: Position :: p in s1.positions && Fresh(costs, o, c, p))
            && (forall o: Pending :: o in s1.pendings <==>
                  o in s.pendings && InTime(o, c.ts, spike) && !Reaches(o.side, c, o.px))
  {
    var os := KeepPendings(s.pendings, c.ts, spike);
    var (still, ps) := FillPendings(costs, os, c);
    var mid := s.(pendings := still, positions := s.positions + ps);
    StopsTaken(costs, mid, 0, c);
    forall o: Pending
      ensures o in os <==> o in s.pendings && InTime(o, c.ts, spike)
      ensures o in still <==> o in os && !Reaches(o.side, c, o.px)
    {
      KeptExactly(s.pendings, c.ts, spike, o);
      StillExactly(costs, os, c, o);
    }
    TakesOpen(costs, s, c, spike, mid, ps);
  }

  lemma TakesOpen(costs: Costs, s: State, c: Candle, spike: bool, mid: State, ps: seq<Position>)
    requires mid.positions == s.positions + ps
    requires ps == FillPendings(costs, KeepPendings(s.pendings, c.ts, spike), c).1
    ensures var s1 := StopPass(costs, mid, 0, c);
            && (forall p: Position :: p in s1.positions ==>
                  p in s.positions || exists o: Pending ::
                    o in s.pendings && InTime(o, c.ts, spike) && Reaches(o.side, c, o.px) && Fresh(costs, o, c, p))
            && (forall p: Position :: p in s.positions && !Reaches(p.side, c, p.sl) ==> p in s1.positions)
            && (forall o: Pending ::
                  o in s.pendings && InTime(o, c.ts, spike) && Reaches(o.side, c, o.px) && !Reaches(o.side, c, o.sl) ==>
                    exists p: Position :: p in s1.positions && Fresh(costs, o, c, p))
  {
    var os, s1 := KeepPendings(s.pendings, c.ts, spike), StopPass(costs, mid, 0, c);
    StopsTaken(costs, mid, 0, c);
    forall p: Position | p in s1.positions && p !in s.positions
      ensures exists o: Pending ::
                o in s.pendings && InTime(o, c.ts, spike) && Reaches(o.side, c, o.px) && Fresh(costs, o, c, p)
    {
      var i :| 0 <= i < |ps| && ps[i] == p;
      EnteredFrom(costs, os, c, i);
      var o: Pending :| o in os && Reaches(o.side, c, o.px) && Fresh(costs, o, c, ps[i]);
      KeptExactly(s.pendings, c.ts, spike, o);
    }
    forall p: Position | p in s.positions && !Reaches(p.side, c, p.sl) ensures p in s1.positions {
      StopsOnly(costs, mid, 0, c, p);
    }
    forall o: Pending |
      o in s.pendings && InTime(o, c.ts, spike) && Reaches(o.side, c, o.px) && !Reaches(o.side, c, o.sl)
      ensures exists p: Position :: p in s1.positions && Fresh(costs, o, c, p)
    {
      KeptExactly(s.pendings, c.ts, spike, o);
      EnteredAll(costs, os, c, o);
      var i :| 0 <= i < |ps| && Fresh(costs, o, c, ps[i]);
      StopsOnly(costs, mid, 0, c, ps[i]);
    }
  }

  /** A halt leaves nothing open and nothing pending. */
  lemma HaltClears(costs: Costs, s: State, e: Event)
    requires e.Bar? && e.halted
    ensures Step(costs, s, e).positions == [] && Step(costs, s, e).pendings == []
  {
    var s1 := Before(costs, s, e.c, e.spike);
    FlattenEmpties(costs, ApplyAll(costs, s1, e.sitter(Views(s1.positions), e.c), e.c), e.c);
  }

  lemma {:induction false} FlattenEmpties(costs: Costs, s: State, c: Candle)
    ensures Flatten(costs, s, c).positions == [] && Flatten(costs, s, c).pendings == []
    decreases |s.positions|
  {
    if s.positions != [] {
      var p := s.positions[0];
      FlattenEmpties(costs, Close(costs, s, 0, ExitPx(costs, p.side, c), p.volume, DailyHalt), c);
    }
  }

  /** Getting in at a price and out again at the same one costs exactly a spread and the commission. */
  lemma RoundTripCost(costs: Costs, side: Direction, price: real, entry: real, f: Fill)
    requires FillFair(costs, side, entry, f)
    requires entry == if side == Long then price + costs.halfSpread else price - costs.halfSpread
    requires f.px == if side == Long then price - costs.halfSpread else price + costs.halfSpread
    ensures f.pnl == -(2.0 * costs.halfSpread * f.volume * costs.valuePerMove) - costs.comm * f.volume
  {
  }
}
