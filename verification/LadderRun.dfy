/** Whole runs of the simulator driven by the ladder manager. */
module LadderRun {
  import opened Prelude
  import opened Models
  import opened Sitters
  import opened Sim
  import opened SimTickets
  import opened ClosedLoop
  import opened Lifetime
  import Ladder

  datatype Loop = Loop(sim: State, ladder: Ladder.State)

  datatype LoopEvent =
    | Enter(entry: Entry, ts: int, lot: real)
    | EnterLimits(entry: Entry, ts: int)
    | OneBar(c: Candle, spread: real, spike: bool, halted: bool)

  /** The manager as the simulator calls it on this bar. */
  function SitterOf(cfg: Ladder.Config, s: Ladder.State, spread: real): Sitter {
    (views: seq<View>, c: Candle) =>
      if Ladder.ValidConfig(cfg) && Ladder.BookOk(s.book) then Ladder.OnBar(cfg, s, views, c, spread).1 else []
  }

  function Next(costs: Costs, cfg: Ladder.Config, l: Loop, e: LoopEvent): Loop
    requires Ladder.ValidConfig(cfg) && Ladder.BookOk(l.ladder.book)
  {
    match e
    case Enter(entry, ts, lot) => l.(sim := PlaceMarket(costs, l.sim, entry, ts, lot))
    case EnterLimits(entry, ts) => l.(sim := PlaceLimitSet(costs, l.sim, entry, ts))
    case OneBar(c, spread, spike, halted) =>
      Loop(OnBar(costs, l.sim, c, SitterOf(cfg, l.ladder, spread), spike, halted),
           Ladder.OnBar(cfg, l.ladder, Views(Before(costs, l.sim, c, spike).positions), c, spread).0)
  }

  // ------------------------------------------------------------------ what is kept

  predicate AllLive(cfg: Ladder.Config, book: Ladder.Book, ps: seq<Position>) {
    forall i :: 0 <= i < |ps| ==> LifeInv(cfg, Ladder.Lookup(book, ps[i].ticket), ps[i])
  }

  predicate AllOver(cfg: Ladder.Config, ps: seq<Position>) {
    forall i :: 0 <= i < |ps| ==> LifeOver(cfg, ps[i])
  }

  predicate OrdersOk(os: seq<Pending>) {
    forall i :: 0 <= i < |os| ==> os[i].sl > 0.0 && os[i].volume > EPS
  }

  /** The book tracks positions only, never a ticket still pending or not yet handed out. */
  predicate BookFits(book: Ladder.Book, os: seq<Pending>, top: int) {
    Ladder.BookOk(book) && forall t <- book :: t <= top && NoOrder(os, t)
  }

  predicate LoopInv(cfg: Ladder.Config, book: Ladder.Book, s: State) {
    && TicketsOk(s.positions, s.pendings, s.ticket)
    && OrdersOk(s.pendings)
    && BookFits(book, s.pendings, s.ticket)
    && AllLive(cfg, book, s.positions)
    && AllOver(cfg, s.closed)
  }

  // ------------------------------------------------------------------ closing whole positions

  lemma CloseWhole(costs: Costs, cfg: Ladder.Config, book: Ladder.Book, s: State, i: nat, px: real, reason: Reason)
    requires LoopInv(cfg, book, s) && i < |s.positions|
    ensures LoopInv(cfg, book, Close(costs, s, i, px, s.positions[i].volume, reason))
  {
    var p := s.positions[i];
    ClosingFits(costs, cfg, Ladder.Lookup(book, p.ticket), p, px, p.volume, reason);
  }

  lemma {:induction false} StopsKeep(costs: Costs, cfg: Ladder.Config, book: Ladder.Book, s: State, i: nat, c: Candle)
    requires LoopInv(cfg, book, s) && i <= |s.positions|
    ensures LoopInv(cfg, book, StopPass(costs, s, i, c))
    decreases |s.positions| - i
  {
    if i < |s.positions| {
      var p := s.positions[i];
      if Hit(p, c) {
        CloseWhole(costs, cfg, book, s, i, p.sl, StopHit);
        StopsKeep(costs, cfg, book, Close(costs, s, i, p.sl, p.volume, StopHit), i, c);
      } else {
        StopsKeep(costs, cfg, book, s, i + 1, c);
      }
    }
  }

  lemma {:induction false} FlattenKeeps(costs: Costs, cfg: Ladder.Config, book: Ladder.Book, s: State, c: Candle)
    requires LoopInv(cfg, book, s)
    ensures LoopInv(cfg, book, Flatten(costs, s, c))
    decreases |s.positions|
  {
    if s.positions != [] {
      var p := s.positions[0];
      CloseWhole(costs, cfg, book, s, 0, ExitPx(costs, p.side, c), DailyHalt);
      FlattenKeeps(costs, cfg, book, Close(costs, s, 0, ExitPx(costs, p.side, c), p.volume, DailyHalt), c);
    }
  }

  // ------------------------------------------------------------------ pendings

  /** Freshly opened positions are untouched and unknown to the book. */
  lemma {:induction false} FillLives(costs: Costs, cfg: Ladder.Config, book: Ladder.Book, os: seq<Pending>, top: int,
                                     c: Candle)
    requires OrdersOk(os) && BookFits(book, os, top)
    ensures AllLive(cfg, book, FillPendings(costs, os, c).1)
  {
    if os != [] {
      FillLives(costs, cfg, book, os[..|os| - 1], top, c);
      assert os[|os| - 1].ticket !in book;
    }
  }

  lemma PendingsStep(costs: Costs, cfg: Ladder.Config, book: Ladder.Book, s: State, c: Candle, spike: bool)
    requires LoopInv(cfg, book, s)
    ensures var (still, ps) := FillPendings(costs, KeepPendings(s.pendings, c.ts, spike), c);
            LoopInv(cfg, book, s.(pendings := still, positions := s.positions + ps))
  {
    var os := KeepPendings(s.pendings, c.ts, spike);
    KeepFewer(s.pendings, c.ts, spike);
    FewerFits(s.positions, s.pendings, os, book, s.ticket);
    FillTickets(costs, os, s.ticket, c);
    FillLives(costs, cfg, book, os, s.ticket, c);
    var (still, ps) := FillPendings(costs, os, c);
    FewerFits(s.positions, os, still, book, s.ticket);
    forall i, j | 0 <= i < |s.positions| && 0 <= j < |ps| ensures s.positions[i].ticket != ps[j].ticket {
      assert NoOrder(os, s.positions[i].ticket) && !NoOrder(os, ps[j].ticket);
    }
  }

  lemma FewerFits(ps: seq<Position>, os: seq<Pending>, os': seq<Pending>, book: Ladder.Book, top: int)
    requires TicketsOk(ps, os, top) && Fewer(os, os') && OrdersOk(os) && BookFits(book, os, top)
    ensures TicketsOk(ps, os', top) && OrdersOk(os') && BookFits(book, os', top)
  {
    forall i | 0 <= i < |os'| ensures os'[i] in os {}
    forall t | NoOrder(os, t) ensures NoOrder(os', t) {
      forall i | 0 <= i < |os'| ensures os'[i].ticket != t {
        assert os'[i] in os;
      }
    }
  }

  lemma BeforeKeeps(costs: Costs, cfg: Ladder.Config, book: Ladder.Book, s: State, c: Candle, spike: bool)
    requires LoopInv(cfg, book, s)
    ensures LoopInv(cfg, book, Before(costs, s, c, spike))
  {
    PendingsStep(costs, cfg, book, s, c, spike);
    var (still, ps) := FillPendings(costs, KeepPendings(s.pendings, c.ts, spike), c);
    StopsKeep(costs, cfg, book, s.(pendings := still, positions := s.positions + ps), 0, c);
  }

  // ------------------------------------------------------------------ the sweep

  lemma LookupStore(book: Ladder.Book, ticket: int, tr: Option<Ladder.Trade>, other: int)
    ensures Ladder.Lookup(Ladder.Store(book, ticket, tr), other) ==
            if other == ticket then tr else Ladder.Lookup(book, other)
  {
  }

  lemma {:induction false} SweepKeepsBookOther(cfg: Ladder.Config, book: Ladder.Book, ps: seq<Position>,
                                               tick: Ladder.Tick, ticket: int)
    requires Ladder.ValidConfig(cfg) && Ladder.BookOk(book) && NoTicket(ps, ticket)
    ensures Ladder.Lookup(Ladder.Sweep(cfg, book, Views(ps), tick).0, ticket) == Ladder.Lookup(book, ticket)
  {
    SweepBook(cfg, book, Views(ps), tick, ticket);
  }

  /** After the sweep every life is in step with its own entry of the new book, and every position
      the sweep has closed ended within its limits. */
  lemma {:induction false} SweepLives(costs: Costs, cfg: Ladder.Config, book: Ladder.Book, ps: seq<Position>,
                                      tick: Ladder.Tick)
    requires Ladder.ValidConfig(cfg) && Ladder.BookOk(book) && DistinctTickets(ps)
    requires AllLive(cfg, book, ps) && tick.c.close > 0.0
    ensures var parts := Parts(cfg, book, ps, tick);
            && AllLive(cfg, Ladder.Sweep(cfg, book, Views(ps), tick).0, Lives(costs, ps, parts, tick.c))
            && AllOver(cfg, Deaths(costs, ps, parts, tick.c))
    decreases |ps|
  {
    if ps != [] {
      var n := |ps| - 1;
      var most, p, parts := ps[..n], ps[n], Parts(cfg, book, ps, tick);
      SweepLives(costs, cfg, book, most, tick);
      PartsLast(cfg, book, ps, tick);
      assert Views(ps)[..n] == Views(most);
      SweepKeepsBookOther(cfg, book, most, tick, p.ticket);
      BarOfLife(costs, cfg, Ladder.Lookup(book, p.ticket), p, tick);
      OwnTicket(costs, p, parts[n], tick.c);
      LivesTickets(costs, most, parts[..n], tick.c, p.ticket);
      SweepOne(costs, cfg, Ladder.Sweep(cfg, book, Views(most), tick).0, Lives(costs, most, parts[..n], tick.c), p,
               Ladder.Manage(cfg, Ladder.Lookup(book, p.ticket), ViewOf(p), tick).0, Own(costs, p, parts[n], tick.c));
    }
  }

  lemma SweepOne(costs: Costs, cfg: Ladder.Config, book: Ladder.Book, lives: seq<Position>, p: Position,
                 tr: Option<Ladder.Trade>, f: Fate)
    requires AllLive(cfg, book, lives) && NoTicket(lives, p.ticket)
    requires f.p.ticket == p.ticket && BarOk(cfg, tr, f)
    ensures AllLive(cfg, Ladder.Store(book, p.ticket, tr), lives + LiveOf(f))
  {
    var all, book' := lives + LiveOf(f), Ladder.Store(book, p.ticket, tr);
    forall i | 0 <= i < |all| ensures LifeInv(cfg, Ladder.Lookup(book', all[i].ticket), all[i]) {
      LookupStore(book, p.ticket, tr, all[i].ticket);
    }
  }

  lemma SweepKeeps(costs: Costs, cfg: Ladder.Config, lad: Ladder.State, s: State, c: Candle, spread: real)
    requires Ladder.ValidConfig(cfg) && LoopInv(cfg, lad.book, s) && c.close > 0.0
    ensures var (lad', acts) := Ladder.OnBar(cfg, lad, Views(s.positions), c, spread);
            LoopInv(cfg, lad'.book, ApplyAll(costs, s, acts, c))
  {
    var ps, tick := s.positions, Ladder.Tick(c, lad.prev, spread);
    var parts := Parts(cfg, lad.book, ps, tick);
    SweepApplies(costs, cfg, lad.book, s, tick);
    SweepLives(costs, cfg, lad.book, ps, tick);
    LivesWithin(costs, ps, parts, c);
    var swept := Ladder.Sweep(cfg, lad.book, Views(ps), tick).0;
    var book' := Ladder.OnBar(cfg, lad, Views(ps), c, spread).0.book;
    var lives := Lives(costs, ps, parts, c);
    assert lives + [] == lives;
    forall i | 0 <= i < |lives|
      ensures Ladder.Lookup(book', lives[i].ticket) == Ladder.Lookup(swept, lives[i].ticket)
    {
      assert !NoTicket(ps, lives[i].ticket);
      SeenTickets(ps, lives[i].ticket);
    }
    forall t | t in book' ensures t <= s.ticket && NoOrder(s.pendings, t) {
      SeenTickets(ps, t);
    }
    SweepTickets(s, lives);
  }

  // ------------------------------------------------------------------ the manager's requests are sane

  predicate FractionsOk(cfg: Ladder.Config) {
    forall i :: 0 <= i < |cfg.partials| ==> cfg.partials[i].1 >= 0.0
  }

  lemma RungVolumeNonNegative(cfg: Ladder.Config, t: Ladder.Trade, i: nat)
    requires Ladder.ValidConfig(cfg) && FractionsOk(cfg) && i < |cfg.partials| && t.vol0 >= 0.0
    ensures Ladder.RungVolume(cfg, t, i) >= 0.0
  {
    var volume := t.vol0 * cfg.partials[i].1;
    ProductNonNegative(t.vol0, cfg.partials[i].1);
    assert volume / cfg.volStep >= 0.0;
    ProductNonNegative((volume / cfg.volStep + EPS).Floor as real, cfg.volStep);
  }

  lemma SaneConcat(a: seq<Action>, b: seq<Action>)
    requires AllSane(a) && AllSane(b)
    ensures AllSane(a + b)
  {
  }

  lemma {:induction false} RungsSane(cfg: Ladder.Config, t: Ladder.Trade, v: View, r: real, n: nat)
    requires Ladder.ValidConfig(cfg) && FractionsOk(cfg) && n <= |cfg.partials| && t.vol0 >= 0.0
    ensures AllSane(Ladder.Rungs(cfg, t, v, r, n).closes)
  {
    if n > 0 {
      RungsSane(cfg, t, v, r, n - 1);
      RungVolumeNonNegative(cfg, t, n - 1);
      var most := Ladder.Rungs(cfg, t, v, r, n - 1).closes;
      assert Sane(PartialClose(v.ticket, Ladder.RungVolume(cfg, t, n - 1)));
      SaneConcat(most, [PartialClose(v.ticket, Ladder.RungVolume(cfg, t, n - 1))]);
    }
  }

  lemma StageSane(call: Option<Ladder.Call>, v: View, close: real)
    requires v.sl > 0.0 && close > 0.0
    ensures AllSane(Ladder.StageAction(call, v, close))
  {
  }

  lemma ManageSane(cfg: Ladder.Config, tr: Option<Ladder.Trade>, v: View, tick: Ladder.Tick)
    requires Ladder.ValidConfig(cfg) && FractionsOk(cfg) && Ladder.TradeFor(cfg, tr, v).d > 0.0
    requires Ladder.TradeFor(cfg, tr, v).vol0 >= 0.0 && v.sl > 0.0 && tick.c.close > 0.0
    ensures AllSane(Ladder.Manage(cfg, tr, v, tick).1)
  {
    var t := Ladder.TradeFor(cfg, tr, v);
    var r := Ladder.InR(t, v.side, tick.c.close);
    RungsSane(cfg, t, v, r, |cfg.partials|);
    var climb := Ladder.Rungs(cfg, t, v, r, |cfg.partials|);
    if Ladder.FinalReached(cfg, r) {
      var rest := v.volume - climb.volume;
      SaneConcat(climb.closes, if rest > EPS then [PartialClose(v.ticket, rest)] else []);
    } else {
      var call := Ladder.StageCall(cfg, t.(filled := climb.filled), v.side, tick.candidate, tick.spread);
      StageSane(call, v, tick.c.close);
      SaneConcat(climb.closes, Ladder.StageAction(call, v, tick.c.close));
    }
  }

  lemma {:induction false} SweepSane(cfg: Ladder.Config, book: Ladder.Book, ps: seq<Position>, tick: Ladder.Tick)
    requires Ladder.ValidConfig(cfg) && FractionsOk(cfg) && Ladder.BookOk(book) && DistinctTickets(ps)
    requires AllLive(cfg, book, ps) && tick.c.close > 0.0
    requires forall i :: 0 <= i < |ps| ==> ps[i].lots >= 0.0
    ensures AllSane(Ladder.Sweep(cfg, book, Views(ps), tick).1)
  {
    if ps != [] {
      var most, p := ps[..|ps| - 1], ps[|ps| - 1];
      SweepSane(cfg, book, most, tick);
      assert ps == most + [p];
      SweepSnoc(cfg, book, most, p, tick);
      Ladder.RiskDistancePositive(cfg, p.priceOpen, p.sl);
      ManageSane(cfg, Ladder.Lookup(book, p.ticket), ViewOf(p), tick);
    }
  }

  lemma LadderSane(costs: Costs, cfg: Ladder.Config, l: Loop, c: Candle, spread: real, spike: bool)
    requires ValidCosts(costs) && Ladder.ValidConfig(cfg) && FractionsOk(cfg)
    requires LoopInv(cfg, l.ladder.book, l.sim) && Inv(costs, l.sim) && Valid(c) && c.close > 0.0
    ensures SitterSane(costs, l.sim, c, SitterOf(cfg, l.ladder, spread), spike)
  {
    BeforeKeeps(costs, cfg, l.ladder.book, l.sim, c, spike);
    BeforeKeepsInv(costs, l.sim, c, spike);
    var ps := Before(costs, l.sim, c, spike).positions;
    forall i | 0 <= i < |ps| ensures ps[i].lots >= 0.0 {
      assert PositionInv(costs, ps[i]);
    }
    SweepSane(cfg, l.ladder.book, ps, Ladder.Tick(c, l.ladder.prev, spread));
    assert SitterOf(cfg, l.ladder, spread)(Views(ps), c) == Ladder.OnBar(cfg, l.ladder, Views(ps), c, spread).1;
  }

  // ------------------------------------------------------------------ whole runs

  function Run(costs: Costs, cfg: Ladder.Config, events: seq<LoopEvent>): (l: Loop)
    requires Ladder.ValidConfig(cfg)
    ensures Ladder.BookOk(l.ladder.book)
  {
    if events == [] then Loop(Empty, Ladder.Fresh)
    else Next(costs, cfg, Run(costs, cfg, events[..|events| - 1]), events[|events| - 1])
  }

  /** Entries have a positive stop and more lots than dust; candles are valid with positive closes. */
  predicate Fair(costs: Costs, e: LoopEvent) {
    match e
    case Enter(entry, _, lot) => entry.stop > 0.0 && lot > EPS
    case EnterLimits(entry, _) => SharedStop(entry) > 0.0 && costs.qty > EPS
    case OneBar(c, _, _, _) => Valid(c) && c.close > 0.0
  }

  lemma EnterKeeps(costs: Costs, cfg: Ladder.Config, book: Ladder.Book, s: State, entry: Entry, ts: int, lot: real)
    requires LoopInv(cfg, book, s) && entry.stop > 0.0 && lot > EPS
    ensures LoopInv(cfg, book, PlaceMarket(costs, s, entry, ts, lot))
  {
    assert s.ticket + 1 !in book;
  }

  lemma LimitsKeep(costs: Costs, cfg: Ladder.Config, book: Ladder.Book, s: State, entry: Entry, ts: int)
    requires LoopInv(cfg, book, s) && SharedStop(entry) > 0.0 && costs.qty > EPS
    ensures LoopInv(cfg, book, PlaceLimitSet(costs, s, entry, ts))
  {
  }

  lemma BarKeeps(costs: Costs, cfg: Ladder.Config, l: Loop, c: Candle, spread: real, spike: bool, halted: bool)
    requires Ladder.ValidConfig(cfg) && LoopInv(cfg, l.ladder.book, l.sim) && c.close > 0.0
    ensures var l' := Next(costs, cfg, l, OneBar(c, spread, spike, halted));
            LoopInv(cfg, l'.ladder.book, l'.sim)
  {
    BeforeKeeps(costs, cfg, l.ladder.book, l.sim, c, spike);
    var s1 := Before(costs, l.sim, c, spike);
    SweepKeeps(costs, cfg, l.ladder, s1, c, spread);
    var (lad', acts) := Ladder.OnBar(cfg, l.ladder, Views(s1.positions), c, spread);
    if halted {
      FlattenKeeps(costs, cfg, lad'.book, ApplyAll(costs, s1, acts, c), c);
    }
  }

  lemma {:induction false} RunKeeps(costs: Costs, cfg: Ladder.Config, events: seq<LoopEvent>)
    requires ValidCosts(costs) && Ladder.ValidConfig(cfg) && FractionsOk(cfg)
    requires forall i :: 0 <= i < |events| ==> Fair(costs, events[i])
    ensures var l := Run(costs, cfg, events); LoopInv(cfg, l.ladder.book, l.sim) && Inv(costs, l.sim)
  {
    if events != [] {
      var l, e := Run(costs, cfg, events[..|events| - 1]), events[|events| - 1];
      RunKeeps(costs, cfg, events[..|events| - 1]);
      match e
      case Enter(entry, ts, lot) =>
        EnterKeeps(costs, cfg, l.ladder.book, l.sim, entry, ts, lot);
        MarketKeepsInv(costs, l.sim, entry, ts, lot);
      case EnterLimits(entry, ts) =>
        LimitsKeep(costs, cfg, l.ladder.book, l.sim, entry, ts);
        LimitsKeepInv(costs, l.sim, entry, ts);
      case OneBar(c, spread, spike, halted) =>
        BarKeeps(costs, cfg, l, c, spread, spike, halted);
        LadderSane(costs, cfg, l, c, spread, spike);
        OnBarKeepsInv(costs, l.sim, c, SitterOf(cfg, l.ladder, spread), spike, halted);
    }
  }

  /** A position's whole life under the ladder, in every run: its stop moves at most twice and only
      tightens, it has at most one fill per rung and one that closes it, fills and open volume add up
      to the lots it was opened with, its profit is that of its fills, and it never loses more than its
      initial risk with costs. */
  lemma LadderLife(costs: Costs, cfg: Ladder.Config, events: seq<LoopEvent>, p: Position)
    requires ValidCosts(costs) && Ladder.ValidConfig(cfg) && FractionsOk(cfg)
    requires forall i :: 0 <= i < |events| ==> Fair(costs, events[i])
    requires var s := Run(costs, cfg, events).sim; p in s.positions || p in s.closed
    ensures |p.stops| <= 3 && StopsTighten(p)
    ensures |p.fills| <= |cfg.partials| + 1
    ensures p.lots == p.volume + FillVolume(p.fills) && p.pnl == FillPnl(p.fills)
    ensures p.pnl >= -Scaled(p.lots, UnitLoss(costs, p))
  {
    RunKeeps(costs, cfg, events);
    LossBounded(costs, p);
    var l := Run(costs, cfg, events);
    if p in l.sim.positions {
      var i :| 0 <= i < |l.sim.positions| && l.sim.positions[i] == p;
      var tr := Ladder.Lookup(l.ladder.book, p.ticket);
      assert LifeInv(cfg, tr, p);
      if tr.Some? {
        BoundedSet(tr.value.filled, |cfg.partials|);
      }
    }
  }

  /** And while it is open.  Once the final stop is set, in one move or in two, it locks at least the
      promised profit; after any rung at least the minimum volume (less the slack) is still open; and
      each fill is paid for by a rung of its own that the manager has marked done. */
  lemma OpenLife(costs: Costs, cfg: Ladder.Config, events: seq<LoopEvent>, p: Position)
    requires ValidCosts(costs) && Ladder.ValidConfig(cfg) && FractionsOk(cfg)
    requires forall i :: 0 <= i < |events| ==> Fair(costs, events[i])
    requires p in Run(costs, cfg, events).sim.positions
    ensures p.stops != []
    ensures p.fills != [] ==> p.volume >= cfg.volMin - EPS
    ensures var tr := Ladder.Lookup(Run(costs, cfg, events).ladder.book, p.ticket);
            && (tr.None? ==> p.fills == [] && |p.stops| == 1)
            && (tr.Some? ==> |p.fills| <= |tr.value.filled| && forall i <- tr.value.filled :: i < |cfg.partials|)
            && (tr.Some? && |p.stops| > 1 ==> tr.value.stage1 || tr.value.stage2)
            && (|p.stops| == 3 ==> tr.Some? && tr.value.stage2)
            && (tr.Some? && tr.value.stage2 ==>
                  Profit(p.side, p.priceOpen, p.sl) >=
                  Ladder.Locked(cfg, Ladder.RiskDistance(cfg, p.priceOpen, p.stops[0])))
  {
    RunKeeps(costs, cfg, events);
    var l := Run(costs, cfg, events);
    var i :| 0 <= i < |l.sim.positions| && l.sim.positions[i] == p;
    assert LifeInv(cfg, Ladder.Lookup(l.ladder.book, p.ticket), p);
  }

  /** Money under the ladder, in every run: equity is the profit of the closed and the open positions
      together, and of a closed one at most dust is left. */
  lemma LadderEquity(costs: Costs, cfg: Ladder.Config, events: seq<LoopEvent>)
    requires ValidCosts(costs) && Ladder.ValidConfig(cfg) && FractionsOk(cfg)
    requires forall i :: 0 <= i < |events| ==> Fair(costs, events[i])
    ensures var s := Run(costs, cfg, events).sim;
            && s.equity == PnlSum(s.closed) + PnlSum(s.positions)
            && forall p <- s.closed :: p.volume <= EPS
  {
    RunKeeps(costs, cfg, events);
  }
}
