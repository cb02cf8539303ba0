/** Whole runs of the simulator driven by the babysitter. */
module BabyRun {
  import opened Prelude
  import opened Models
  import opened Sitters
  import opened Sim
  import opened SimTickets
  import opened ClosedLoop
  import B = Babysitting

  /** The simulator, the babysitter's trades, and for each ticket the closes at which the babysitter has
      seen it. */
  datatype Loop = Loop(sim: State, book: B.Book, closes: map<int, seq<real>>)

  datatype LoopEvent =
    | Enter(entry: Entry, ts: int, lot: real)
    | EnterLimits(entry: Entry, ts: int)
    | OneBar(c: Candle, spike: bool, halted: bool)

  /** The babysitter as the simulator calls it on this bar. */
  function SitterOf(cfg: B.Config, book: B.Book): Sitter {
    (views: seq<View>, c: Candle) => B.OnBar(cfg, book, views, c.close).1
  }

  function ClosesOf(closes: map<int, seq<real>>, ticket: int): seq<real> {
    if ticket in closes then closes[ticket] else []
  }

  function Heard(closes: map<int, seq<real>>, views: seq<View>, close: real): map<int, seq<real>> {
    map t | t in Seen(views) :: ClosesOf(closes, t) + [close]
  }

  function Next(costs: Costs, cfg: B.Config, l: Loop, e: LoopEvent): Loop {
    match e
    case Enter(entry, ts, lot) => l.(sim := PlaceMarket(costs, l.sim, entry, ts, lot))
    case EnterLimits(entry, ts) => l.(sim := PlaceLimitSet(costs, l.sim, entry, ts))
    case OneBar(c, spike, halted) =>
      var views := Views(Before(costs, l.sim, c, spike).positions);
      Loop(OnBar(costs, l.sim, c, SitterOf(cfg, l.book), spike, halted),
           B.OnBar(cfg, l.book, views, c.close).0, Heard(l.closes, views, c.close))
  }

  function Run(costs: Costs, cfg: B.Config, events: seq<LoopEvent>): Loop
    decreases |events|
  {
    if events == [] then Loop(Empty, map[], map[])
    else Next(costs, cfg, Run(costs, cfg, events[..|events| - 1]), events[|events| - 1])
  }

  // ------------------------------------------------------------------ one position

  function Trade(book: B.Book, ticket: int): Option<B.Trade> {
    if ticket in book then Some(book[ticket]) else None
  }

  /** The position's stop is where its closes so far put it, and it has been banked on once at most.  One
      the babysitter has not seen yet is as it was opened. */
  predicate Chased(cfg: B.Config, tr: Option<B.Trade>, closes: seq<real>, p: Position) {
    && p.stops != [] && p.stops[0] > 0.0 && p.sl > 0.0 && p.priceOpen > 0.0
    && (tr.None? <==> closes == [])
    && if tr.None? then p.sl == p.stops[0] && p.fills == []
       else
         && tr.value.d == Abs(p.priceOpen - p.stops[0])
         && p.sl == B.HighWater(cfg, tr.value.d, ViewOf(p), p.stops[0], closes)
         && |p.fills| <= (if tr.value.partialDone then 1 else 0)
  }

  /** At most one partial close and the final one. */
  predicate Over(p: Position) {
    |p.fills| <= 2
  }

  lemma ChasedOver(cfg: B.Config, tr: Option<B.Trade>, closes: seq<real>, p: Position, costs: Costs, px: real,
                   volume: real, reason: Reason)
    requires Chased(cfg, tr, closes, p)
    ensures Over(Filled(costs, p, px, volume, reason))
  {
  }

  /** Where the stop belongs depends on what does not change in a position's life. */
  lemma TargetOf(cfg: B.Config, d: real, p: Position, q: Position, close: real)
    requires p.side == q.side && p.priceOpen == q.priceOpen
    ensures B.StopTarget(cfg, d, ViewOf(p), close) == B.StopTarget(cfg, d, ViewOf(q), close)
  {
  }

  lemma HighWaterOf(cfg: B.Config, d: real, p: Position, q: Position, initial: real, closes: seq<real>)
    requires p.side == q.side && p.priceOpen == q.priceOpen && closes != []
    ensures B.HighWater(cfg, d, ViewOf(p), initial, closes) == B.HighWater(cfg, d, ViewOf(q), initial, closes)
  {
    TargetOf(cfg, d, p, q, B.BestClose(p.side, closes));
  }

  /** What no action changes, and how many fills have come on top. */
  predicate Kept(p: Position, q: Position, fills: nat) {
    && q.side == p.side && q.priceOpen == p.priceOpen && q.ticket == p.ticket
    && q.stops != [] && p.stops != [] && q.stops[0] == p.stops[0]
    && |q.fills| == |p.fills| + fills
  }

  /** What the babysitter's own actions make of a position. */
  lemma {:induction false} OwnBar(costs: Costs, cfg: B.Config, t: B.Trade, p: Position, c: Candle)
    requires p.sl > 0.0 && p.stops != []
    ensures var f := Own(costs, p, B.ActionsFor(cfg, t, ViewOf(p), c.close), c);
            && Kept(p, f.p, if B.TakesPartial(cfg, t, ViewOf(p), c.close) then 1 else 0)
            && (f.Live? ==> f.p.sl == B.Tightest(p.side, B.StopTarget(cfg, t.d, ViewOf(p), c.close), p.sl))
  {
    var v := ViewOf(p);
    var target := B.StopTarget(cfg, t.d, v, c.close);
    var bank := if B.TakesPartial(cfg, t, v, c.close) then [B.Bank(cfg, v)] else [];
    var move := if Tighter(v.side, target, v.sl) then [UpdateSl(v.ticket, target)] else [];
    assert B.ActionsFor(cfg, t, v, c.close) == bank + move;
    OwnSplit(costs, p, bank, move, c);
    if bank != [] {
      assert [B.Bank(cfg, v)][..0] == [];
      assert Own(costs, p, bank, c) == OwnOne(costs, p, B.Bank(cfg, v), c);
    }
    var f1 := Own(costs, p, bank, c);
    if f1.Live? && move != [] {
      assert [UpdateSl(v.ticket, target)][..0] == [];
      assert Own(costs, f1.p, move, c) == Live(Moved(f1.p, target));
    }
  }

  lemma {:induction false} OwnSplit(costs: Costs, p: Position, a: seq<Action>, b: seq<Action>, c: Candle)
    ensures var f := Own(costs, p, a, c);
            Own(costs, p, a + b, c) == if f.Gone? then f else Own(costs, f.p, b, c)
    decreases |b|
  {
    if b == [] {
      assert a + b == a;
    } else {
      assert (a + b)[..|a + b| - 1] == a + b[..|b| - 1];
      OwnSplit(costs, p, a, b[..|b| - 1], c);
    }
  }

  function TradeOr(cfg: B.Config, tr: Option<B.Trade>, p: Position): B.Trade {
    if tr.Some? then tr.value else B.NewTrade(cfg, ViewOf(p))
  }

  function Sat(cfg: B.Config, t: B.Trade, p: Position, close: real): B.Trade {
    t.(partialDone := t.partialDone || B.TakesPartial(cfg, t, ViewOf(p), close))
  }

  /** One bar in a position's life. */
  lemma {:induction false} BarOfLife(costs: Costs, cfg: B.Config, tr: Option<B.Trade>, closes: seq<real>, p: Position,
                                     c: Candle)
    requires Chased(cfg, tr, closes, p) && c.close > 0.0
    ensures var t := TradeOr(cfg, tr, p);
            var f := Own(costs, p, B.ActionsFor(cfg, t, ViewOf(p), c.close), c);
            && f.p.ticket == p.ticket && Over(f.p)
            && (f.Live? ==> Chased(cfg, Some(Sat(cfg, t, p, c.close)), closes + [c.close], f.p))
  {
    var t := TradeOr(cfg, tr, p);
    var f := Own(costs, p, B.ActionsFor(cfg, t, ViewOf(p), c.close), c);
    OwnBar(costs, cfg, t, p, c);
    DistanceOf(cfg, tr, closes, p);
    if f.Live? {
      ChasedOn(cfg, tr, closes, p, f.p, c.close);
    }
  }

  lemma {:induction false} ChasedOn(cfg: B.Config, tr: Option<B.Trade>, closes: seq<real>, p: Position, q: Position,
                                    close: real)
    requires Chased(cfg, tr, closes, p) && close > 0.0
    requires var t := TradeOr(cfg, tr, p);
             && Kept(p, q, if B.TakesPartial(cfg, t, ViewOf(p), close) then 1 else 0)
             && q.sl == B.Tightest(p.side, B.StopTarget(cfg, t.d, ViewOf(p), close), p.sl)
    ensures Chased(cfg, Some(Sat(cfg, TradeOr(cfg, tr, p), p, close)), closes + [close], q)
  {
    var t := TradeOr(cfg, tr, p);
    DistanceOf(cfg, tr, closes, p);
    MarkMoves(cfg, tr, closes, p, close);
    TargetPositive(cfg, t.d, p, close);
    HighWaterOf(cfg, t.d, p, q, p.stops[0], closes + [close]);
  }

  lemma DistanceOf(cfg: B.Config, tr: Option<B.Trade>, closes: seq<real>, p: Position)
    requires Chased(cfg, tr, closes, p)
    ensures TradeOr(cfg, tr, p).d == Abs(p.priceOpen - p.stops[0])
    ensures |p.fills| <= if TradeOr(cfg, tr, p).partialDone then 1 else 0
  {
  }

  /** One more close moves the mark as the babysitter moves the stop. */
  lemma {:induction false} MarkMoves(cfg: B.Config, tr: Option<B.Trade>, closes: seq<real>, p: Position, close: real)
    requires Chased(cfg, tr, closes, p)
    ensures var d := TradeOr(cfg, tr, p).d;
            B.Tightest(p.side, B.StopTarget(cfg, d, ViewOf(p), close), p.sl) ==
            B.HighWater(cfg, d, ViewOf(p), p.stops[0], closes + [close])
  {
    if closes == [] {
      assert closes + [close] == [close];
      assert B.BestClose(p.side, [close]) == close;
    } else {
      B.HighWaterStep(cfg, tr.value.d, ViewOf(p), p.stops[0], closes, close);
    }
  }

  /** A tighter stop than a positive one is positive. */
  lemma TargetPositive(cfg: B.Config, d: real, p: Position, close: real)
    requires d >= 0.0 && close > 0.0 && p.priceOpen > 0.0 && p.sl > 0.0
    ensures B.Tightest(p.side, B.StopTarget(cfg, d, ViewOf(p), close), p.sl) > 0.0
  {
  }

  // ------------------------------------------------------------------ what is kept

  predicate AllChased(cfg: B.Config, book: B.Book, closes: map<int, seq<real>>, ps: seq<Position>) {
    forall i :: 0 <= i < |ps| ==> Chased(cfg, Trade(book, ps[i].ticket), ClosesOf(closes, ps[i].ticket), ps[i])
  }

  predicate AllOver(ps: seq<Position>) {
    forall i :: 0 <= i < |ps| ==> Over(ps[i])
  }

  /** Orders that open at a positive price with a positive stop. */
  predicate OrdersOk(costs: Costs, os: seq<Pending>) {
    forall i :: 0 <= i < |os| ==> os[i].sl > 0.0 && Worse(costs, os[i].side, os[i].px) > 0.0
  }

  /** Trades are those of positions only, never of a ticket still pending or not yet handed out. */
  predicate BookFits(book: B.Book, closes: map<int, seq<real>>, os: seq<Pending>, top: int) {
    && closes.Keys == book.Keys && B.Distances(book)
    && forall t <- book :: t <= top && NoOrder(os, t)
  }

  predicate LoopInv(costs: Costs, cfg: B.Config, book: B.Book, closes: map<int, seq<real>>, s: State) {
    && TicketsOk(s.positions, s.pendings, s.ticket)
    && OrdersOk(costs, s.pendings)
    && BookFits(book, closes, s.pendings, s.ticket)
    && AllChased(cfg, book, closes, s.positions)
    && AllOver(s.closed)
  }

  lemma CloseWhole(costs: Costs, cfg: B.Config, book: B.Book, closes: map<int, seq<real>>, s: State, i: nat, px: real,
                   reason: Reason)
    requires LoopInv(costs, cfg, book, closes, s) && i < |s.positions|
    ensures LoopInv(costs, cfg, book, closes, Close(costs, s, i, px, s.positions[i].volume, reason))
  {
    var p := s.positions[i];
    ChasedOver(cfg, Trade(book, p.ticket), ClosesOf(closes, p.ticket), p, costs, px, p.volume, reason);
  }

  lemma {:induction false} StopsKeep(costs: Costs, cfg: B.Config, book: B.Book, closes: map<int, seq<real>>, s: State,
                                     i: nat, c: Candle)
    requires LoopInv(costs, cfg, book, closes, s) && i <= |s.positions|
    ensures LoopInv(costs, cfg, book, closes, StopPass(costs, s, i, c))
    decreases |s.positions| - i
  {
    if i < |s.positions| {
      var p := s.positions[i];
      if Hit(p, c) {
        CloseWhole(costs, cfg, book, closes, s, i, p.sl, StopHit);
        StopsKeep(costs, cfg, book, closes, Close(costs, s, i, p.sl, p.volume, StopHit), i, c);
      } else {
        StopsKeep(costs, cfg, book, closes, s, i + 1, c);
      }
    }
  }

  lemma {:induction false} FlattenKeeps(costs: Costs, cfg: B.Config, book: B.Book, closes: map<int, seq<real>>,
                                        s: State, c: Candle)
    requires LoopInv(costs, cfg, book, closes, s)
    ensures LoopInv(costs, cfg, book, closes, Flatten(costs, s, c))
    decreases |s.positions|
  {
    if s.positions != [] {
      var p := s.positions[0];
      CloseWhole(costs, cfg, book, closes, s, 0, ExitPx(costs, p.side, c), DailyHalt);
      FlattenKeeps(costs, cfg, book, closes, Close(costs, s, 0, ExitPx(costs, p.side, c), p.volume, DailyHalt), c);
    }
  }

  // ------------------------------------------------------------------ pendings

  lemma FewerFits(costs: Costs, ps: seq<Position>, os: seq<Pending>, os': seq<Pending>, book: B.Book,
                  closes: map<int, seq<real>>, top: int)
    requires TicketsOk(ps, os, top) && Fewer(os, os') && OrdersOk(costs, os) && BookFits(book, closes, os, top)
    ensures TicketsOk(ps, os', top) && OrdersOk(costs, os') && BookFits(book, closes, os', top)
  {
    forall t | NoOrder(os, t) ensures NoOrder(os', t) {
      forall i | 0 <= i < |os'| ensures os'[i].ticket != t {
        assert os'[i] in os;
      }
    }
    forall i | 0 <= i < |os'| ensures os'[i] in os {}
  }

  /** Freshly opened positions are as they were opened, and unknown to the babysitter. */
  lemma {:induction false} FillsChased(costs: Costs, cfg: B.Config, book: B.Book, closes: map<int, seq<real>>,
                                       os: seq<Pending>, top: int, c: Candle)
    requires OrdersOk(costs, os) && BookFits(book, closes, os, top)
    ensures AllChased(cfg, book, closes, FillPendings(costs, os, c).1)
    decreases |os|
  {
    if os != [] {
      var most, o := os[..|os| - 1], os[|os| - 1];
      assert os == most + [o];
      FillsChased(costs, cfg, book, closes, most, top, c);
      assert o.ticket !in book && o.ticket !in closes;
    }
  }

  lemma PendingsStep(costs: Costs, cfg: B.Config, book: B.Book, closes: map<int, seq<real>>, s: State, c: Candle,
                     spike: bool)
    requires LoopInv(costs, cfg, book, closes, s)
    ensures var (still, ps) := FillPendings(costs, KeepPendings(s.pendings, c.ts, spike), c);
            LoopInv(costs, cfg, book, closes, s.(pendings := still, positions := s.positions + ps))
  {
    var os := KeepPendings(s.pendings, c.ts, spike);
    KeepFewer(s.pendings, c.ts, spike);
    FewerFits(costs, s.positions, s.pendings, os, book, closes, s.ticket);
    FillTickets(costs, os, s.ticket, c);
    FillsChased(costs, cfg, book, closes, os, s.ticket, c);
    var (still, ps) := FillPendings(costs, os, c);
    FewerFits(costs, s.positions, os, still, book, closes, s.ticket);
    forall i, j | 0 <= i < |s.positions| && 0 <= j < |ps| ensures s.positions[i].ticket != ps[j].ticket {
      assert NoOrder(os, s.positions[i].ticket) && !NoOrder(os, ps[j].ticket);
    }
  }

  lemma BeforeKeeps(costs: Costs, cfg: B.Config, book: B.Book, closes: map<int, seq<real>>, s: State, c: Candle,
                    spike: bool)
    requires LoopInv(costs, cfg, book, closes, s)
    ensures LoopInv(costs, cfg, book, closes, Before(costs, s, c, spike))
  {
    PendingsStep(costs, cfg, book, closes, s, c, spike);
    var (still, ps) := FillPendings(costs, KeepPendings(s.pendings, c.ts, spike), c);
    StopsKeep(costs, cfg, book, closes, s.(pendings := still, positions := s.positions + ps), 0, c);
  }

  // ------------------------------------------------------------------ the babysitter's turn

  /** Its actions on each position. */
  function Parts(cfg: B.Config, book: B.Book, ps: seq<Position>, close: real): (r: seq<seq<Action>>)
    ensures |r| == |ps|
    decreases |ps|
  {
    if ps == [] then []
    else
      var p := ps[|ps| - 1];
      Parts(cfg, book, ps[..|ps| - 1], close) +
      [B.ActionsFor(cfg, TradeOr(cfg, Trade(book, p.ticket), p), ViewOf(p), close)]
  }

  /** The pass over the positions leaves the trades of others alone. */
  lemma {:induction false} SitOther(cfg: B.Config, book: B.Book, views: seq<View>, close: real, ticket: int)
    requires forall i :: 0 <= i < |views| ==> views[i].ticket != ticket
    ensures Trade(B.Sit(cfg, book, views, close).0, ticket) == Trade(book, ticket)
    decreases |views|
  {
    if views != [] {
      SitOther(cfg, book, views[..|views| - 1], close, ticket);
    }
  }

  lemma {:induction false} SitSnoc(cfg: B.Config, book: B.Book, most: seq<Position>, p: Position, close: real)
    requires NoTicket(most, p.ticket)
    ensures var t := TradeOr(cfg, Trade(book, p.ticket), p);
            var before, after := B.Sit(cfg, book, Views(most), close), B.Sit(cfg, book, Views(most + [p]), close);
            && after.1 == before.1 + B.ActionsFor(cfg, t, ViewOf(p), close)
            && after.0 == before.0[p.ticket := Sat(cfg, t, p, close)]
  {
    var views := Views(most + [p]);
    assert views[..|views| - 1] == Views(most);
    SitOther(cfg, book, Views(most), close, p.ticket);
  }

  lemma {:induction false} PartsAreFit(cfg: B.Config, book: B.Book, ps: seq<Position>, close: real)
    ensures PartsFit(ps, Parts(cfg, book, ps, close))
    decreases |ps|
  {
    if ps != [] {
      var n := |ps| - 1;
      PartsAreFit(cfg, book, ps[..n], close);
      assert Parts(cfg, book, ps, close)[..n] == Parts(cfg, book, ps[..n], close);
    }
  }

  lemma {:induction false} SitIsParts(cfg: B.Config, book: B.Book, ps: seq<Position>, close: real)
    requires DistinctTickets(ps)
    ensures B.Sit(cfg, book, Views(ps), close).1 == Joined(Parts(cfg, book, ps, close))
    decreases |ps|
  {
    if ps == [] {
      assert Views(ps) == [];
    } else {
      var n := |ps| - 1;
      var most, p := ps[..n], ps[n];
      assert ps == most + [p];
      SitIsParts(cfg, book, most, close);
      SitSnoc(cfg, book, most, p, close);
      assert Parts(cfg, book, ps, close)[..n] == Parts(cfg, book, most, close);
    }
  }

  lemma {:induction false} SitTrade(cfg: B.Config, book: B.Book, ps: seq<Position>, close: real, i: nat)
    requires DistinctTickets(ps) && i < |ps|
    ensures Trade(B.Sit(cfg, book, Views(ps), close).0, ps[i].ticket) ==
            Some(Sat(cfg, TradeOr(cfg, Trade(book, ps[i].ticket), ps[i]), ps[i], close))
    decreases |ps|
  {
    var n := |ps| - 1;
    var most, p := ps[..n], ps[n];
    assert ps == most + [p];
    SitSnoc(cfg, book, most, p, close);
    if i < n {
      SitTrade(cfg, book, most, close, i);
    }
  }

  /** Every survivor of the babysitter's turn is chased on, everything it closed is over. */
  predicate TurnOk(cfg: B.Config, book': B.Book, closes': map<int, seq<real>>, lives: seq<Position>,
                   deaths: seq<Position>) {
    AllChased(cfg, book', closes', lives) && AllOver(deaths)
  }

  lemma {:induction false} TurnKeeps(costs: Costs, cfg: B.Config, book: B.Book, closes: map<int, seq<real>>,
                                     book': B.Book, closes': map<int, seq<real>>, ps: seq<Position>, c: Candle)
    requires AllChased(cfg, book, closes, ps) && c.close > 0.0
    requires forall i :: 0 <= i < |ps| ==>
               && Trade(book', ps[i].ticket) ==
                  Some(Sat(cfg, TradeOr(cfg, Trade(book, ps[i].ticket), ps[i]), ps[i], c.close))
               && ClosesOf(closes', ps[i].ticket) == ClosesOf(closes, ps[i].ticket) + [c.close]
    ensures var parts := Parts(cfg, book, ps, c.close);
            TurnOk(cfg, book', closes', Lives(costs, ps, parts, c), Deaths(costs, ps, parts, c))
    decreases |ps|
  {
    if ps != [] {
      var n := |ps| - 1;
      var most, p, parts := ps[..n], ps[n], Parts(cfg, book, ps, c.close);
      assert parts[..n] == Parts(cfg, book, most, c.close);
      TurnKeeps(costs, cfg, book, closes, book', closes', most, c);
      BarOfLife(costs, cfg, Trade(book, p.ticket), ClosesOf(closes, p.ticket), p, c);
    }
  }

  lemma {:induction false} TurnTrade(cfg: B.Config, book: B.Book, closes: map<int, seq<real>>, ps: seq<Position>,
                                     close: real, i: nat)
    requires DistinctTickets(ps) && i < |ps|
    ensures Trade(B.OnBar(cfg, book, Views(ps), close).0, ps[i].ticket) ==
            Some(Sat(cfg, TradeOr(cfg, Trade(book, ps[i].ticket), ps[i]), ps[i], close))
    ensures ClosesOf(Heard(closes, Views(ps), close), ps[i].ticket) == ClosesOf(closes, ps[i].ticket) + [close]
  {
    SitTrade(cfg, book, ps, close, i);
    SeenTickets(ps, ps[i].ticket);
  }

  lemma {:induction false} TurnLives(costs: Costs, cfg: B.Config, book: B.Book, closes: map<int, seq<real>>,
                                     ps: seq<Position>, c: Candle)
    requires DistinctTickets(ps) && AllChased(cfg, book, closes, ps) && c.close > 0.0
    ensures var parts := Parts(cfg, book, ps, c.close);
            TurnOk(cfg, B.OnBar(cfg, book, Views(ps), c.close).0, Heard(closes, Views(ps), c.close),
                   Lives(costs, ps, parts, c), Deaths(costs, ps, parts, c))
  {
    forall i | 0 <= i < |ps|
      ensures Trade(B.OnBar(cfg, book, Views(ps), c.close).0, ps[i].ticket) ==
              Some(Sat(cfg, TradeOr(cfg, Trade(book, ps[i].ticket), ps[i]), ps[i], c.close))
      ensures ClosesOf(Heard(closes, Views(ps), c.close), ps[i].ticket) == ClosesOf(closes, ps[i].ticket) + [c.close]
    {
      TurnTrade(cfg, book, closes, ps, c.close, i);
    }
    TurnKeeps(costs, cfg, book, closes, B.OnBar(cfg, book, Views(ps), c.close).0,
              Heard(closes, Views(ps), c.close), ps, c);
  }

  /** The babysitter's list of actions, applied in order, does to each position what it asked for it. */
  lemma {:induction false} TurnApplies(costs: Costs, cfg: B.Config, book: B.Book, s: State, c: Candle)
    requires DistinctTickets(s.positions)
    ensures var acts := B.OnBar(cfg, book, Views(s.positions), c.close).1;
            Managed(costs, s, ApplyAll(costs, s, acts, c), s.positions, Parts(cfg, book, s.positions, c.close), [], c)
  {
    PartsAreFit(cfg, book, s.positions, c.close);
    SitIsParts(cfg, book, s.positions, c.close);
    assert s.positions + [] == s.positions;
    PartsApply(costs, s, s.positions, Parts(cfg, book, s.positions, c.close), [], c);
  }

  lemma {:induction false} SitterKeeps(costs: Costs, cfg: B.Config, book: B.Book, closes: map<int, seq<real>>, s: State,
                                       c: Candle)
    requires LoopInv(costs, cfg, book, closes, s) && c.close > 0.0
    ensures var (book', acts) := B.OnBar(cfg, book, Views(s.positions), c.close);
            LoopInv(costs, cfg, book', Heard(closes, Views(s.positions), c.close), ApplyAll(costs, s, acts, c))
  {
    var ps, parts := s.positions, Parts(cfg, book, s.positions, c.close);
    TurnApplies(costs, cfg, book, s, c);
    TurnLives(costs, cfg, book, closes, ps, c);
    LivesWithin(costs, ps, parts, c);
    var lives := Lives(costs, ps, parts, c);
    assert lives + [] == lives;
    SweepTickets(s, lives);
    BooksKeep(costs, cfg, book, closes, s, c);
  }

  lemma {:induction false} SitDistances(cfg: B.Config, book: B.Book, views: seq<View>, close: real)
    requires B.Distances(book) && forall i :: 0 <= i < |views| ==> views[i].sl != 0.0
    ensures B.Distances(B.Sit(cfg, book, views, close).0)
    decreases |views|
  {
    if views != [] {
      SitDistances(cfg, book, views[..|views| - 1], close);
    }
  }

  lemma {:induction false} BooksKeep(costs: Costs, cfg: B.Config, book: B.Book, closes: map<int, seq<real>>, s: State,
                                     c: Candle)
    requires LoopInv(costs, cfg, book, closes, s)
    ensures BookFits(B.OnBar(cfg, book, Views(s.positions), c.close).0, Heard(closes, Views(s.positions), c.close),
                     s.pendings, s.ticket)
  {
    var ps, views := s.positions, Views(s.positions);
    var book', closes' := B.OnBar(cfg, book, views, c.close).0, Heard(closes, views, c.close);
    SitDistances(cfg, book, views, c.close);
    forall t ensures t in book' <==> t in closes' {
      SeenTickets(ps, t);
      if t in Seen(views) {
        var i :| 0 <= i < |ps| && ps[i].ticket == t;
        SitTrade(cfg, book, ps, c.close, i);
      }
    }
    forall t | t in book' ensures t <= s.ticket && NoOrder(s.pendings, t) {
      SeenTickets(ps, t);
      var i :| 0 <= i < |ps| && ps[i].ticket == t;
    }
  }

  // ------------------------------------------------------------------ whole runs

  /** What the inputs have to satisfy: entries at positive prices with positive stops and no negative
      lots, valid candles with positive closes. */
  predicate Fair(costs: Costs, e: LoopEvent) {
    match e
    case Enter(entry, _, lot) => entry.stop > 0.0 && Worse(costs, entry.side, entry.price) > 0.0 && lot >= 0.0
    case EnterLimits(entry, _) =>
      var d := Abs(entry.price - entry.stop);
      SharedStop(entry) > 0.0 && Worse(costs, entry.side, entry.price + if entry.side.Short? then d else -d) > 0.0
    case OneBar(c, _, _) => Valid(c) && c.close > 0.0
  }

  predicate FairRun(costs: Costs, events: seq<LoopEvent>) {
    forall i :: 0 <= i < |events| ==> Fair(costs, events[i])
  }

  lemma LimitsKeep(costs: Costs, cfg: B.Config, book: B.Book, closes: map<int, seq<real>>, s: State, entry: Entry,
                   ts: int)
    requires ValidCosts(costs) && LoopInv(costs, cfg, book, closes, s) && Fair(costs, EnterLimits(entry, ts))
    ensures LoopInv(costs, cfg, book, closes, PlaceLimitSet(costs, s, entry, ts))
  {
  }

  lemma EnterKeeps(costs: Costs, cfg: B.Config, book: B.Book, closes: map<int, seq<real>>, s: State, entry: Entry,
                   ts: int, lot: real)
    requires LoopInv(costs, cfg, book, closes, s) && Fair(costs, Enter(entry, ts, lot))
    ensures LoopInv(costs, cfg, book, closes, PlaceMarket(costs, s, entry, ts, lot))
  {
    assert s.ticket + 1 !in book && s.ticket + 1 !in closes;
  }

  /** In the situations the simulator puts it in, the babysitter asks for sane actions, and for strictly
      tighter stops only. */
  lemma {:induction false} SitterIsSane(costs: Costs, cfg: B.Config, l: Loop, c: Candle, spike: bool)
    requires ValidCosts(costs) && cfg.partialFrac >= 0.0 && Valid(c) && c.close > 0.0
    requires LoopInv(costs, cfg, l.book, l.closes, l.sim) && Inv(costs, l.sim)
    ensures SitterSane(costs, l.sim, c, SitterOf(cfg, l.book), spike)
    ensures var views := Views(Before(costs, l.sim, c, spike).positions);
            B.AsksTighter(views, SitterOf(cfg, l.book)(views, c))
  {
    BeforeKeeps(costs, cfg, l.book, l.closes, l.sim, c, spike);
    BeforeKeepsInv(costs, l.sim, c, spike);
    var ps := Before(costs, l.sim, c, spike).positions;
    var views := Views(ps);
    forall i | 0 <= i < |views| ensures views[i].sl > 0.0 && views[i].priceOpen > 0.0 && views[i].volume >= 0.0 {
      assert PositionInv(costs, ps[i]);
    }
    B.BabysitterSane(cfg, l.book, views, c.close);
  }

  lemma BarKeeps(costs: Costs, cfg: B.Config, l: Loop, c: Candle, spike: bool, halted: bool)
    requires LoopInv(costs, cfg, l.book, l.closes, l.sim) && c.close > 0.0
    ensures var l' := Next(costs, cfg, l, OneBar(c, spike, halted));
            LoopInv(costs, cfg, l'.book, l'.closes, l'.sim)
  {
    BeforeKeeps(costs, cfg, l.book, l.closes, l.sim, c, spike);
    var s1 := Before(costs, l.sim, c, spike);
    SitterKeeps(costs, cfg, l.book, l.closes, s1, c);
    var (book', acts) := B.OnBar(cfg, l.book, Views(s1.positions), c.close);
    if halted {
      FlattenKeeps(costs, cfg, book', Heard(l.closes, Views(s1.positions), c.close), ApplyAll(costs, s1, acts, c), c);
    }
  }

  lemma {:induction false} RunKeeps(costs: Costs, cfg: B.Config, events: seq<LoopEvent>)
    requires ValidCosts(costs) && cfg.partialFrac >= 0.0 && FairRun(costs, events)
    ensures var l := Run(costs, cfg, events); LoopInv(costs, cfg, l.book, l.closes, l.sim) && Inv(costs, l.sim)
    decreases |events|
  {
    if events != [] {
      var most, e := events[..|events| - 1], events[|events| - 1];
      var l := Run(costs, cfg, most);
      RunKeeps(costs, cfg, most);
      assert Fair(costs, e);
      match e
      case Enter(entry, ts, lot) =>
        EnterKeeps(costs, cfg, l.book, l.closes, l.sim, entry, ts, lot);
        MarketKeepsInv(costs, l.sim, entry, ts, lot);
      case EnterLimits(entry, ts) =>
        LimitsKeep(costs, cfg, l.book, l.closes, l.sim, entry, ts);
        LimitsKeepInv(costs, l.sim, entry, ts);
      case OneBar(c, spike, halted) =>
        BarKeeps(costs, cfg, l, c, spike, halted);
        SitterIsSane(costs, cfg, l, c, spike);
        OnBarKeepsInv(costs, l.sim, c, SitterOf(cfg, l.book), spike, halted);
    }
  }

  /** In every run of the simulator with the babysitter, an open position's stop is a high-water mark: the
      initial one or, once the babysitter has seen the position, where the best close it has seen puts
      it (at the initial risk distance behind, not worse than entry beyond the breakeven threshold),
      whichever is tighter. */
  lemma {:induction false} StopIsHighWater(costs: Costs, cfg: B.Config, events: seq<LoopEvent>, p: Position)
    requires ValidCosts(costs) && cfg.partialFrac >= 0.0 && FairRun(costs, events)
    requires p in Run(costs, cfg, events).sim.positions
    ensures p.stops != [] && p.sl > 0.0
    ensures var closes := ClosesOf(Run(costs, cfg, events).closes, p.ticket);
            p.sl == if closes == [] then p.stops[0]
                    else B.HighWater(cfg, Abs(p.priceOpen - p.stops[0]), ViewOf(p), p.stops[0], closes)
  {
    RunKeeps(costs, cfg, events);
    var l := Run(costs, cfg, events);
    var i :| 0 <= i < |l.sim.positions| && l.sim.positions[i] == p;
    assert Chased(cfg, Trade(l.book, p.ticket), ClosesOf(l.closes, p.ticket), p);
  }

  /** And a position's whole life under the babysitter, in every run: its stop only tightens, it is banked
      on at most once before it is closed, fills and open volume add up to its lots, and it never
      loses more than its initial risk with costs. */
  lemma {:induction false} BabysatLife(costs: Costs, cfg: B.Config, events: seq<LoopEvent>, p: Position)
    requires ValidCosts(costs) && cfg.partialFrac >= 0.0 && FairRun(costs, events)
    requires var s := Run(costs, cfg, events).sim; p in s.positions || p in s.closed
    ensures StopsTighten(p)
    ensures |p.fills| <= 2 && (p in Run(costs, cfg, events).sim.positions ==> |p.fills| <= 1)
    ensures p.lots == p.volume + FillVolume(p.fills) && p.pnl == FillPnl(p.fills)
    ensures p.pnl >= -Scaled(p.lots, UnitLoss(costs, p))
  {
    RunKeeps(costs, cfg, events);
    LossBounded(costs, p);
    var l := Run(costs, cfg, events);
    if p in l.sim.positions {
      var i :| 0 <= i < |l.sim.positions| && l.sim.positions[i] == p;
      assert Chased(cfg, Trade(l.book, p.ticket), ClosesOf(l.closes, p.ticket), p);
    }
  }

  /** And equity is the profit of closed and open positions. */
  lemma BabysatEquity(costs: Costs, cfg: B.Config, events: seq<LoopEvent>)
    requires ValidCosts(costs) && cfg.partialFrac >= 0.0 && FairRun(costs, events)
    ensures var s := Run(costs, cfg, events).sim; s.equity == PnlSum(s.closed) + PnlSum(s.positions)
  {
    RunKeeps(costs, cfg, events);
  }
}
