/** The execution simulator: pending limits, open positions, intrabar stops, and whatever an exit
    manager (the sitter) asks for, bar by bar.

    A position here also carries what has happened to it: the lots it was opened with and every stop
    it has had.  Rounding to eight decimals is taken as exact. */
module Sim {
  import opened Prelude
  import opened Models
  import opened Sitters

  const EPS := 0.000000001
  const LIMIT_TTL_SEC := 1800
  const SPIKE_MIN_AGE_SEC := 120
  const ADDON_FRAC := 0.8

  datatype Costs = Costs(qty: real, halfSpread: real, comm: real, valuePerMove: real)

  datatype Reason = StopHit | Partial | DailyHalt

  datatype Fill = Fill(reason: Reason, px: real, volume: real, pnl: real)

  datatype Pending = Pending(ticket: int, side: Direction, px: real, sl: real, volume: real, placedTs: int)

  datatype Position = Position(ticket: int, side: Direction, volume: real, priceOpen: real, sl: real,
                               openTs: int, fills: seq<Fill>, pnl: real, lots: real, stops: seq<real>)

  datatype State = State(pendings: seq<Pending>, positions: seq<Position>, closed: seq<Position>,
                         ticket: int, equity: real)

  const Empty := State([], [], [], 0, 0.0)

  function Opened(ticket: int, side: Direction, volume: real, px: real, sl: real, ts: int): Position {
    Position(ticket, side, volume, px, sl, ts, [], 0.0, volume, [sl])
  }

  // ------------------------------------------------------------------ placing orders

  /** The part of a signal the simulator uses. */
  datatype Entry = Entry(side: Direction, price: real, stop: real)

  /** Entry limit where the naive stop would have sat, one add-on deeper, a shared stop. */
  function PlaceLimitSet(costs: Costs, s: State, e: Entry, ts: int): State {
    var d := Abs(e.price - e.stop);
    if d <= 0.0 then s
    else
      var back := if e.side.Short? then d else -d;
      var l1 := e.price + back;
      var sl := l1 + back;
      var l2 := l1 + ADDON_FRAC * back;
      s.(ticket := s.ticket + 2,
      pendings := s.pendings + [Pending(s.ticket + 1, e.side, l1, sl, costs.qty, ts),
                                Pending(s.ticket + 2, e.side, l2, sl, costs.qty, ts)])
  }

  /** The price a market order of this side fills at; the other way round it is the exit price. */
  function Worse(costs: Costs, side: Direction, px: real): real {
    if side.Long? then px + costs.halfSpread else px - costs.halfSpread
  }

  function PlaceMarket(costs: Costs, s: State, e: Entry, ts: int, lot: real): State {
    s.(ticket := s.ticket + 1,
    positions := s.positions + [Opened(s.ticket + 1, e.side, lot, Worse(costs, e.side, e.price), e.stop, ts)])
  }

  // ------------------------------------------------------------------ closing

  function PnlOf(costs: Costs, p: Position, px: real, volume: real): real {
    Profit(p.side, p.priceOpen, px) * volume * costs.valuePerMove - costs.comm * volume
  }

  function Filled(costs: Costs, p: Position, px: real, volume: real, reason: Reason): Position {
    var pnl := PnlOf(costs, p, px, volume);
    p.(pnl := p.pnl + pnl, volume := p.volume - volume, fills := p.fills + [Fill(reason, px, volume, pnl)])
  }

  /** `_close` on the i-th position: it leaves the list once its volume is down to dust. */
  function Close(costs: Costs, s: State, i: nat, px: real, volume: real, reason: Reason): State
    requires i < |s.positions|
  {
    var p := Filled(costs, s.positions[i], px, volume, reason);
    var s' := s.(equity := s.equity + PnlOf(costs, s.positions[i], px, volume));
    if p.volume <= EPS then
      s'.(closed := s.closed + [p], positions := s.positions[..i] + s.positions[i + 1..])
    else
      s'.(positions := s.positions[i := p])
  }

  // ------------------------------------------------------------------ one bar

  predicate Kept(o: Pending, ts: int, spike: bool) {
    ts - o.placedTs < LIMIT_TTL_SEC && !(spike && ts - o.placedTs >= SPIKE_MIN_AGE_SEC)
  }

  predicate Touched(o: Pending, c: Candle) {
    if o.side.Long? then c.low <= o.px else c.high >= o.px
  }

  function KeepPendings(os: seq<Pending>, ts: int, spike: bool): seq<Pending> {
    if os == [] then []
    else
      var most := KeepPendings(os[..|os| - 1], ts, spike);
      if Kept(os[|os| - 1], ts, spike) then most + [os[|os| - 1]] else most
  }

  /** Which pendings stay, and which positions the touched ones open. */
  function FillPendings(costs: Costs, os: seq<Pending>, c: Candle): (seq<Pending>, seq<Position>) {
    if os == [] then ([], [])
    else
      var o := os[|os| - 1];
      var (still, entered) := FillPendings(costs, os[..|os| - 1], c);
      if Touched(o, c) then
        (still, entered + [Opened(o.ticket, o.side, o.volume, Worse(costs, o.side, o.px), o.sl, c.ts)])
      else (still + [o], entered)
  }

  predicate Hit(p: Position, c: Candle) {
    if p.side.Long? then c.low <= p.sl else c.high >= p.sl
  }

  /** Stops from the i-th position on; a position that is hit closes whole, at its stop. */
  function StopPass(costs: Costs, s: State, i: nat, c: Candle): State
    requires i <= |s.positions|
    decreases |s.positions| - i
  {
    if i == |s.positions| then s
    else if Hit(s.positions[i], c) then
      StopPass(costs, Close(costs, s, i, s.positions[i].sl, s.positions[i].volume, StopHit), i, c)
    else StopPass(costs, s, i + 1, c)
  }

  /** The first position with this ticket, or the length of the list. */
  function Find(ps: seq<Position>, ticket: int): (i: nat)
    ensures i <= |ps|
    ensures i < |ps| ==> ps[i].ticket == ticket
    ensures forall j :: 0 <= j < i ==> ps[j].ticket != ticket
  {
    if ps == [] || ps[0].ticket == ticket then 0 else 1 + Find(ps[1..], ticket)
  }

  function ExitPx(costs: Costs, side: Direction, c: Candle): real {
    Worse(costs, Opposite(side), c.close)
  }

  function Moved(p: Position, sl: real): Position {
    if p.sl == 0.0 || Tighter(p.side, sl, p.sl) then p.(sl := sl, stops := p.stops + [sl]) else p
  }

  function Apply(costs: Costs, s: State, act: Action, c: Candle): State {
    var i := Find(s.positions, act.ticket);
    if i == |s.positions| then s
    else
      var p := s.positions[i];
      match act
      case PartialClose(_, volume) =>
        Close(costs, s, i, ExitPx(costs, p.side, c), Min(volume, p.volume), Partial)
      case UpdateSl(_, sl) =>
        s.(positions := s.positions[i := Moved(p, sl)])
  }

  function ApplyAll(costs: Costs, s: State, acts: seq<Action>, c: Candle): State {
    if acts == [] then s else Apply(costs, ApplyAll(costs, s, acts[..|acts| - 1], c), acts[|acts| - 1], c)
  }

  /** The daily-loss halt: everything is closed at market. */
  function Flatten(costs: Costs, s: State, c: Candle): State
    decreases |s.positions|
  {
    if s.positions == [] then s.(pendings := [])
    else
      var p := s.positions[0];
      Flatten(costs, Close(costs, s, 0, ExitPx(costs, p.side, c), p.volume, DailyHalt), c)
  }

  function ViewOf(p: Position): View {
    View(p.ticket, p.side, p.volume, p.priceOpen, p.sl)
  }

  function Views(ps: seq<Position>): seq<View> {
    seq(|ps|, i requires 0 <= i < |ps| => ViewOf(ps[i]))
  }

  /** What a sitter does on one bar. */
  type Sitter = (seq<View>, Candle) -> seq<Action>

  /** The bar up to the sitter: pendings, limit fills, stops. */
  function Before(costs: Costs, s: State, c: Candle, spike: bool): State {
    var (still, entered) := FillPendings(costs, KeepPendings(s.pendings, c.ts, spike), c);
    StopPass(costs, s.(pendings := still, positions := s.positions + entered), 0, c)
  }

  function OnBar(costs: Costs, s: State, c: Candle, sitter: Sitter, spike: bool, halted: bool): State {
    var s1 := Before(costs, s, c, spike);
    var s2 := ApplyAll(costs, s1, sitter(Views(s1.positions), c), c);
    if halted then Flatten(costs, s2, c) else s2
  }

  // ------------------------------------------------------------------ what is kept

  function FillVolume(fs: seq<Fill>): real {
    if fs == [] then 0.0 else FillVolume(fs[..|fs| - 1]) + fs[|fs| - 1].volume
  }

  function FillPnl(fs: seq<Fill>): real {
    if fs == [] then 0.0 else FillPnl(fs[..|fs| - 1]) + fs[|fs| - 1].pnl
  }

  /** The most one lot can lose: the initial stop distance and half a spread, plus commission. */
  function UnitLoss(costs: Costs, p: Position): real
    requires p.stops != []
  {
    (Abs(p.priceOpen - p.stops[0]) + costs.halfSpread) * costs.valuePerMove + costs.comm
  }

  function Scaled(x: real, y: real): real {
    x * y
  }

  /** The stops have only ever tightened, and none of them was 0.0. */
  predicate StopsTighten(p: Position) {
    && p.stops != [] && p.sl == p.stops[|p.stops| - 1]
    && (forall i, j :: 0 <= i < j < |p.stops| ==> Tighter(p.side, p.stops[j], p.stops[i]))
    && (forall i :: 0 <= i < |p.stops| ==> p.stops[i] != 0.0)
  }

  /** Volumes and money add up, fill by fill, and no fill loses more than its share. */
  predicate BooksBalance(costs: Costs, p: Position)
    requires p.stops != []
  {
    && p.lots == p.volume + FillVolume(p.fills)
    && p.pnl == FillPnl(p.fills)
    && p.volume >= 0.0 && FillVolume(p.fills) >= 0.0
    && p.pnl >= -Scaled(FillVolume(p.fills), UnitLoss(costs, p))
  }

  predicate PositionInv(costs: Costs, p: Position) {
    StopsTighten(p) && BooksBalance(costs, p)
  }

  function PnlSum(ps: seq<Position>): real {
    if ps == [] then 0.0 else PnlSum(ps[..|ps| - 1]) + ps[|ps| - 1].pnl
  }

  predicate DistinctTickets(ps: seq<Position>) {
    forall i, j :: 0 <= i < j < |ps| ==> ps[i].ticket != ps[j].ticket
  }

  /** Costs are not negative. */
  predicate ValidCosts(costs: Costs) {
    costs.qty >= 0.0 && costs.halfSpread >= 0.0 && costs.comm >= 0.0 && costs.valuePerMove >= 0.0
  }

  predicate Inv(costs: Costs, s: State) {
    && (forall i :: 0 <= i < |s.positions| ==> PositionInv(costs, s.positions[i]))
    && (forall i :: 0 <= i < |s.closed| ==> PositionInv(costs, s.closed[i]) && s.closed[i].volume <= EPS)
    && s.equity == PnlSum(s.closed) + PnlSum(s.positions)
    && (forall i :: 0 <= i < |s.pendings| ==> s.pendings[i].volume >= 0.0 && s.pendings[i].sl != 0.0)
  }

  /** Every open position's initial stop is on the losing side of `close`: none was hit this bar. */
  predicate Surviving(s: State, close: real) {
    forall i :: 0 <= i < |s.positions| ==>
      s.positions[i].stops != [] && Tighter(s.positions[i].side, close, s.positions[i].stops[0])
  }

  // ------------------------------------------------------------------ lemmas on sums

  lemma {:induction false} PnlSumConcat(a: seq<Position>, b: seq<Position>)
    ensures PnlSum(a + b) == PnlSum(a) + PnlSum(b)
  {
    if b == [] {
      assert a + b == a;
    } else {
      assert (a + b)[..|a + b| - 1] == a + b[..|b| - 1];
      PnlSumConcat(a, b[..|b| - 1]);
    }
  }

  lemma PnlSumOne(p: Position)
    ensures PnlSum([p]) == p.pnl
  {
    assert PnlSum([p]) == PnlSum([]) + p.pnl;
  }

  lemma {:induction false} PnlSumSplit(ps: seq<Position>, i: nat)
    requires i < |ps|
    ensures PnlSum(ps) == PnlSum(ps[..i]) + ps[i].pnl + PnlSum(ps[i + 1..])
  {
    var head, one, tail := ps[..i], [ps[i]], ps[i + 1..];
    PnlSumConcat(head, one + tail);
    PnlSumConcat(one, tail);
    PnlSumOne(ps[i]);
    assert ps == head + (one + tail);
  }

  lemma PnlSumUpdate(ps: seq<Position>, i: nat, p: Position)
    requires i < |ps|
    ensures PnlSum(ps[i := p]) == PnlSum(ps) - ps[i].pnl + p.pnl
  {
    PnlSumSplit(ps, i);
    PnlSumSplit(ps[i := p], i);
    assert ps[i := p][..i] == ps[..i] && ps[i := p][i + 1..] == ps[i + 1..];
  }

  lemma PnlSumRemove(ps: seq<Position>, i: nat)
    requires i < |ps|
    ensures PnlSum(ps[..i] + ps[i + 1..]) == PnlSum(ps) - ps[i].pnl
  {
    PnlSumSplit(ps, i);
    PnlSumConcat(ps[..i], ps[i + 1..]);
  }

  // ------------------------------------------------------------------ lemmas on money

  lemma ScaleUp(a: real, b: real, k: real)
    requires a >= b && k >= 0.0
    ensures Scaled(a, k) >= Scaled(b, k)
  {
  }

  lemma ScaledSum(a: real, b: real, k: real)
    ensures Scaled(a + b, k) == Scaled(a, k) + Scaled(b, k)
  {
  }

  lemma LossAlgebra(dist: real, volume: real, vpm: real, comm: real)
    ensures -dist * volume * vpm - comm * volume == -Scaled(volume, dist * vpm + comm)
  {
    assert dist * volume * vpm == volume * (dist * vpm);
    assert volume * (dist * vpm + comm) == volume * (dist * vpm) + volume * comm;
  }

  /** A fill whose price is at most half a spread beyond the initial stop loses at most its share. */
  lemma FillBounded(costs: Costs, p: Position, px: real, volume: real)
    requires ValidCosts(costs) && p.stops != [] && volume >= 0.0
    requires Profit(p.side, p.priceOpen, px) >= Profit(p.side, p.priceOpen, p.stops[0]) - costs.halfSpread
    ensures PnlOf(costs, p, px, volume) >= -Scaled(volume, UnitLoss(costs, p))
  {
    var dist := Abs(p.priceOpen - p.stops[0]) + costs.halfSpread;
    var gain := Profit(p.side, p.priceOpen, px);
    assert gain >= -dist;
    ProductAtLeast(gain, -dist, volume, costs.valuePerMove);
    LossAlgebra(dist, volume, costs.valuePerMove, costs.comm);
  }

  lemma ProductAtLeast(a: real, b: real, k: real, m: real)
    requires a >= b && k >= 0.0 && m >= 0.0
    ensures a * k * m >= b * k * m
  {
    assert a * k >= b * k;
    ScaleUp(a * k, b * k, m);
  }

  lemma FilledKeepsInv(costs: Costs, p: Position, px: real, volume: real, reason: Reason)
    requires ValidCosts(costs) && PositionInv(costs, p) && 0.0 <= volume <= p.volume
    requires Profit(p.side, p.priceOpen, px) >= Profit(p.side, p.priceOpen, p.stops[0]) - costs.halfSpread
    ensures PositionInv(costs, Filled(costs, p, px, volume, reason))
  {
    var p' := Filled(costs, p, px, volume, reason);
    assert p'.fills[..|p'.fills| - 1] == p.fills;
    FillBounded(costs, p, px, volume);
    ScaledSum(FillVolume(p.fills), volume, UnitLoss(costs, p));
  }

  lemma MovedKeepsInv(costs: Costs, p: Position, sl: real)
    requires PositionInv(costs, p) && sl != 0.0
    ensures PositionInv(costs, Moved(p, sl))
  {
  }

  /** A position never loses more than its lots times the unit loss. */
  lemma LossBounded(costs: Costs, p: Position)
    requires ValidCosts(costs) && PositionInv(costs, p)
    ensures p.pnl >= -Scaled(p.lots, UnitLoss(costs, p))
  {
    assert UnitLoss(costs, p) >= 0.0 by {
      ScaleUp(Abs(p.priceOpen - p.stops[0]) + costs.halfSpread, 0.0, costs.valuePerMove);
    }
    ScaleUp(p.lots, FillVolume(p.fills), UnitLoss(costs, p));
  }

  // ------------------------------------------------------------------ every step keeps the books

  lemma OpenedInv(costs: Costs, ticket: int, side: Direction, volume: real, px: real, sl: real, ts: int)
    requires volume >= 0.0 && sl != 0.0
    ensures PositionInv(costs, Opened(ticket, side, volume, px, sl, ts))
  {
  }

  lemma CloseKeepsInv(costs: Costs, s: State, i: nat, px: real, volume: real, reason: Reason)
    requires Inv(costs, s) && i < |s.positions|
    requires PositionInv(costs, Filled(costs, s.positions[i], px, volume, reason))
    ensures Inv(costs, Close(costs, s, i, px, volume, reason))
  {
    var p := Filled(costs, s.positions[i], px, volume, reason);
    if p.volume <= EPS {
      WholeCloseKeepsInv(costs, s, i, px, volume, reason);
    } else {
      PnlSumUpdate(s.positions, i, p);
    }
  }

  lemma WholeCloseKeepsInv(costs: Costs, s: State, i: nat, px: real, volume: real, reason: Reason)
    requires Inv(costs, s) && i < |s.positions|
    requires var p := Filled(costs, s.positions[i], px, volume, reason); PositionInv(costs, p) && p.volume <= EPS
    ensures Inv(costs, Close(costs, s, i, px, volume, reason))
  {
    var p := Filled(costs, s.positions[i], px, volume, reason);
    PnlSumRemove(s.positions, i);
    PnlSumConcat(s.closed, [p]);
    assert PnlSum([p]) == PnlSum([]) + p.pnl;
  }

  /** Among the first `i` positions none has been hit by this bar. */
  predicate NoneHit(s: State, i: nat, c: Candle) {
    i <= |s.positions| && forall j :: 0 <= j < i ==> !Hit(s.positions[j], c)
  }

  lemma StopFillKeepsInv(costs: Costs, p: Position)
    requires ValidCosts(costs) && PositionInv(costs, p)
    ensures PositionInv(costs, Filled(costs, p, p.sl, p.volume, StopHit))
  {
    assert p.sl == p.stops[0] || Tighter(p.side, p.sl, p.stops[0]);
    FilledKeepsInv(costs, p, p.sl, p.volume, StopHit);
  }

  lemma {:induction false} StopPassKeepsInv(costs: Costs, s: State, i: nat, c: Candle)
    requires ValidCosts(costs) && Inv(costs, s) && NoneHit(s, i, c)
    ensures var s' := StopPass(costs, s, i, c);
            Inv(costs, s') && NoneHit(s', |s'.positions|, c) && s'.pendings == s.pendings
    decreases |s.positions| - i
  {
    if i < |s.positions| {
      var p := s.positions[i];
      if Hit(p, c) {
        StopFillKeepsInv(costs, p);
        CloseKeepsInv(costs, s, i, p.sl, p.volume, StopHit);
        StopPassKeepsInv(costs, Close(costs, s, i, p.sl, p.volume, StopHit), i, c);
      } else {
        StopPassKeepsInv(costs, s, i + 1, c);
      }
    }
  }

  lemma NoneHitSurvives(costs: Costs, s: State, c: Candle)
    requires Valid(c) && Inv(costs, s) && NoneHit(s, |s.positions|, c)
    ensures Surviving(s, c.close)
  {
    forall i | 0 <= i < |s.positions| ensures Tighter(s.positions[i].side, c.close, s.positions[i].stops[0]) {
      var p := s.positions[i];
      assert p.sl == p.stops[0] || Tighter(p.side, p.sl, p.stops[0]);
    }
  }

  /** Closing a survivor at market, in part or whole. */
  lemma MarketCloseKeepsInv(costs: Costs, s: State, i: nat, volume: real, reason: Reason, c: Candle)
    requires ValidCosts(costs) && Inv(costs, s) && Surviving(s, c.close)
    requires i < |s.positions| && 0.0 <= volume <= s.positions[i].volume
    ensures var s' := Close(costs, s, i, ExitPx(costs, s.positions[i].side, c), volume, reason);
            Inv(costs, s') && Surviving(s', c.close)
  {
    var p := s.positions[i];
    FilledKeepsInv(costs, p, ExitPx(costs, p.side, c), volume, reason);
    CloseKeepsInv(costs, s, i, ExitPx(costs, p.side, c), volume, reason);
  }

  lemma ApplyKeepsInv(costs: Costs, s: State, act: Action, c: Candle)
    requires ValidCosts(costs) && Inv(costs, s) && Surviving(s, c.close) && Sane(act)
    ensures var s' := Apply(costs, s, act, c); Inv(costs, s') && Surviving(s', c.close)
  {
    var i := Find(s.positions, act.ticket);
    if i < |s.positions| {
      var p := s.positions[i];
      if act.PartialClose? {
        MarketCloseKeepsInv(costs, s, i, Min(act.volume, p.volume), Partial, c);
      } else {
        MoveKeepsInv(costs, s, i, act.sl, c);
      }
    }
  }

  lemma MoveKeepsInv(costs: Costs, s: State, i: nat, sl: real, c: Candle)
    requires ValidCosts(costs) && Inv(costs, s) && Surviving(s, c.close) && i < |s.positions| && sl != 0.0
    ensures var s' := s.(positions := s.positions[i := Moved(s.positions[i], sl)]);
            Inv(costs, s') && Surviving(s', c.close)
  {
    MovedKeepsInv(costs, s.positions[i], sl);
    PnlSumUpdate(s.positions, i, Moved(s.positions[i], sl));
  }

  lemma {:induction false} ApplyAllKeepsInv(costs: Costs, s: State, acts: seq<Action>, c: Candle)
    requires ValidCosts(costs) && Inv(costs, s) && Surviving(s, c.close)
    requires AllSane(acts)
    ensures var s' := ApplyAll(costs, s, acts, c); Inv(costs, s') && Surviving(s', c.close)
  {
    if acts != [] {
      ApplyAllKeepsInv(costs, s, acts[..|acts| - 1], c);
      ApplyKeepsInv(costs, ApplyAll(costs, s, acts[..|acts| - 1], c), acts[|acts| - 1], c);
    }
  }

  lemma {:induction false} FlattenKeepsInv(costs: Costs, s: State, c: Candle)
    requires ValidCosts(costs) && Inv(costs, s) && Surviving(s, c.close)
    ensures Inv(costs, Flatten(costs, s, c)) && Flatten(costs, s, c).positions == []
    decreases |s.positions|
  {
    if s.positions != [] {
      var p := s.positions[0];
      MarketCloseKeepsInv(costs, s, 0, p.volume, DailyHalt, c);
      FlattenKeepsInv(costs, Close(costs, s, 0, ExitPx(costs, p.side, c), p.volume, DailyHalt), c);
    }
  }

  predicate PendingsOk(os: seq<Pending>) {
    forall i :: 0 <= i < |os| ==> os[i].volume >= 0.0 && os[i].sl != 0.0
  }

  lemma {:induction false} PendingsKept(os: seq<Pending>, ts: int, spike: bool)
    requires PendingsOk(os)
    ensures PendingsOk(KeepPendings(os, ts, spike))
  {
    if os != [] {
      PendingsKept(os[..|os| - 1], ts, spike);
    }
  }

  lemma {:induction false} PendingsFill(costs: Costs, os: seq<Pending>, c: Candle)
    requires PendingsOk(os)
    ensures PendingsOk(FillPendings(costs, os, c).0)
    ensures var ps := FillPendings(costs, os, c).1;
            (forall i :: 0 <= i < |ps| ==> PositionInv(costs, ps[i])) && PnlSum(ps) == 0.0
  {
    if os != [] {
      var o := os[|os| - 1];
      PendingsFill(costs, os[..|os| - 1], c);
      OpenedInv(costs, o.ticket, o.side, o.volume, Worse(costs, o.side, o.px), o.sl, c.ts);
    }
  }

  lemma BeforeKeepsInv(costs: Costs, s: State, c: Candle, spike: bool)
    requires ValidCosts(costs) && Inv(costs, s) && Valid(c)
    ensures var s' := Before(costs, s, c, spike); Inv(costs, s') && Surviving(s', c.close)
  {
    var os := KeepPendings(s.pendings, c.ts, spike);
    PendingsKept(s.pendings, c.ts, spike);
    PendingsFill(costs, os, c);
    var (still, entered) := FillPendings(costs, os, c);
    PnlSumConcat(s.positions, entered);
    var s1 := s.(pendings := still, positions := s.positions + entered);
    StopPassKeepsInv(costs, s1, 0, c);
    NoneHitSurvives(costs, Before(costs, s, c, spike), c);
  }

  /** The sitter asks for sane actions in the situation this bar puts it in. */
  predicate SitterSane(costs: Costs, s: State, c: Candle, sitter: Sitter, spike: bool) {
    AllSane(sitter(Views(Before(costs, s, c, spike).positions), c))
  }

  lemma OnBarKeepsInv(costs: Costs, s: State, c: Candle, sitter: Sitter, spike: bool, halted: bool)
    requires ValidCosts(costs) && Inv(costs, s) && Valid(c) && SitterSane(costs, s, c, sitter, spike)
    ensures Inv(costs, OnBar(costs, s, c, sitter, spike, halted))
  {
    BeforeKeepsInv(costs, s, c, spike);
    var s1 := Before(costs, s, c, spike);
    var acts := sitter(Views(s1.positions), c);
    ApplyAllKeepsInv(costs, s1, acts, c);
    if halted {
      FlattenKeepsInv(costs, ApplyAll(costs, s1, acts, c), c);
    }
  }

  // ------------------------------------------------------------------ whole runs

  datatype Event =
    | Limits(entry: Entry, ts: int)
    | Market(entry: Entry, ts: int, lot: real)
    | Bar(c: Candle, sitter: Sitter, spike: bool, halted: bool)

  function Step(costs: Costs, s: State, e: Event): State {
    match e
    case Limits(entry, ts) => PlaceLimitSet(costs, s, entry, ts)
    case Market(entry, ts, lot) => PlaceMarket(costs, s, entry, ts, lot)
    case Bar(c, sitter, spike, halted) => OnBar(costs, s, c, sitter, spike, halted)
  }

  function Run(costs: Costs, events: seq<Event>): State {
    if events == [] then Empty else Step(costs, Run(costs, events[..|events| - 1]), events[|events| - 1])
  }

  /** The stop the limits of an entry share: twice the risk distance back from the signal price. */
  function SharedStop(e: Entry): real {
    var back := if e.side.Short? then Abs(e.price - e.stop) else -Abs(e.price - e.stop);
    e.price + back + back
  }

  /** What a run has to satisfy, event by event: valid candles, non-zero initial stops, no negative
      lots, and sane sitters. */
  predicate Sound(costs: Costs, s: State, e: Event) {
    match e
    case Limits(entry, _) => SharedStop(entry) != 0.0
    case Market(entry, _, lot) => entry.stop != 0.0 && lot >= 0.0
    case Bar(c, sitter, spike, _) => Valid(c) && SitterSane(costs, s, c, sitter, spike)
  }

  predicate SoundRun(costs: Costs, events: seq<Event>) {
    events != [] ==>
      var most := events[..|events| - 1];
      SoundRun(costs, most) && Sound(costs, Run(costs, most), events[|events| - 1])
  }

  lemma EnterKeepsInv(costs: Costs, s: State, p: Position)
    requires Inv(costs, s) && PositionInv(costs, p) && p.pnl == 0.0
    ensures Inv(costs, s.(positions := s.positions + [p]))
  {
    PnlSumConcat(s.positions, [p]);
    assert PnlSum([p]) == PnlSum([]) + p.pnl;
  }

  lemma MarketKeepsInv(costs: Costs, s: State, e: Entry, ts: int, lot: real)
    requires Inv(costs, s) && e.stop != 0.0 && lot >= 0.0
    ensures Inv(costs, PlaceMarket(costs, s, e, ts, lot))
  {
    OpenedInv(costs, s.ticket + 1, e.side, lot, Worse(costs, e.side, e.price), e.stop, ts);
    EnterKeepsInv(costs, s.(ticket := s.ticket + 1),
                  Opened(s.ticket + 1, e.side, lot, Worse(costs, e.side, e.price), e.stop, ts));
  }

  lemma LimitsKeepInv(costs: Costs, s: State, e: Entry, ts: int)
    requires ValidCosts(costs) && Inv(costs, s) && SharedStop(e) != 0.0
    ensures Inv(costs, PlaceLimitSet(costs, s, e, ts))
  {
  }

  lemma StepKeepsInv(costs: Costs, s: State, e: Event)
    requires ValidCosts(costs) && Inv(costs, s) && Sound(costs, s, e)
    ensures Inv(costs, Step(costs, s, e))
  {
    match e
    case Limits(entry, ts) => LimitsKeepInv(costs, s, entry, ts);
    case Market(entry, ts, lot) => MarketKeepsInv(costs, s, entry, ts, lot);
    case Bar(c, sitter, spike, halted) => OnBarKeepsInv(costs, s, c, sitter, spike, halted);
  }

  lemma {:induction false} RunInv(costs: Costs, events: seq<Event>)
    requires ValidCosts(costs) && SoundRun(costs, events)
    ensures Inv(costs, Run(costs, events))
  {
    if events != [] {
      RunInv(costs, events[..|events| - 1]);
      StepKeepsInv(costs, Run(costs, events[..|events| - 1]), events[|events| - 1]);
    }
  }

  /** Money and volume over whole runs, with any sane sitter: equity is the profit of the closed and
      the open positions together, and of every position, closed or open, the lots it was opened
      with are its fills plus what is still open, and its profit that of its fills. */
  lemma EquityAndVolume(costs: Costs, events: seq<Event>)
    requires ValidCosts(costs) && SoundRun(costs, events)
    ensures var s := Run(costs, events);
            && s.equity == PnlSum(s.closed) + PnlSum(s.positions)
            && forall p <- s.closed + s.positions ::
                 p.lots == p.volume + FillVolume(p.fills) && p.pnl == FillPnl(p.fills)
    ensures forall p <- Run(costs, events).closed :: p.volume <= EPS
  {
    RunInv(costs, events);
  }

  /** Stops over whole runs, with any sane sitter: they only tighten, and no position, however it
      came to close, has lost more than its lots times the initial stop distance plus half a spread,
      plus commission. */
  lemma LossLimited(costs: Costs, events: seq<Event>, p: Position)
    requires ValidCosts(costs) && SoundRun(costs, events)
    requires p in Run(costs, events).closed || p in Run(costs, events).positions
    ensures StopsTighten(p)
    ensures p.pnl >= -Scaled(p.lots, UnitLoss(costs, p))
  {
    RunInv(costs, events);
    LossBounded(costs, p);
  }

  /** Why a stop of 0.0 has to be ruled out: a position's stop can never be loosened by an update
      exactly when it is not 0.0, which the simulator takes for "no stop yet". */
  lemma NeverLooserIffNonzero(p: Position)
    ensures (forall x :: !Tighter(p.side, p.sl, Moved(p, x).sl)) <==> p.sl != 0.0
  {
    if p.sl == 0.0 {
      var x := if p.side.Long? then -1.0 else 1.0;
      assert Tighter(p.side, p.sl, Moved(p, x).sl);
    }
  }
}
