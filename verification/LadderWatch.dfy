/** Which rungs are marked done, over whole runs of the simulator with the ladder manager, in terms of the
    closes the manager has seen the position at. */
module LadderWatch {
  import opened Prelude
  import opened Models
  import opened Sitters
  import opened Sim
  import opened SimTickets
  import opened ClosedLoop
  import opened Lifetime
  import opened LadderRun
  import SimMoney
  import Ladder
  import Levels = LadderLevels

  /** The closes of the bars on which the manager was shown a position with this ticket. */
  function Watched(costs: Costs, cfg: Ladder.Config, events: seq<LoopEvent>, ticket: int): seq<real>
    decreases |events|
  {
    if events == [] || !Ladder.ValidConfig(cfg) then []
    else
      var most, e := events[..|events| - 1], events[|events| - 1];
      Watched(costs, cfg, most, ticket) +
      if !e.OneBar? then []
      else
        var shown := Before(costs, LadderRun.Run(costs, cfg, most).sim, e.c, e.spike).positions;
        if ticket in Seen(Views(shown)) then [e.c.close] else []
  }

  type Watch = int -> seq<real>

  function WatchOf(costs: Costs, cfg: Ladder.Config, events: seq<LoopEvent>): Watch {
    (ticket: int) => Watched(costs, cfg, events, ticket)
  }

  /** One of these closes has gone that far beyond the entry. */
  predicate Touched(side: Direction, entry: real, closes: seq<real>, level: real) {
    exists k :: 0 <= k < |closes| && Levels.Gain(side, entry, closes[k]) >= level
  }

  /** How far beyond the entry each of the rungs is, and after the last of them the final target. */
  function LevelsOf(cfg: Ladder.Config, d: real): nat -> real {
    (i: nat) => if i < |cfg.partials| then cfg.partials[i].0 * d else cfg.finalTpR * d
  }

  /** Rung by rung: done exactly if one of these closes has reached it. */
  predicate MarkedBy(n: nat, level: nat -> real, side: Direction, entry: real, closes: seq<real>, filled: set<nat>) {
    forall i: nat :: i < n ==> (i in filled <==> Touched(side, entry, closes, level(i)))
  }

  predicate LevelOk(cfg: Ladder.Config, p: Position, tr: Option<Ladder.Trade>, closes: seq<real>) {
    && (tr.None? <==> closes == [])
    && (tr.Some? ==>
          var n, level := |cfg.partials|, LevelsOf(cfg, tr.value.d);
          && MarkedBy(n, level, p.side, p.priceOpen, closes, tr.value.filled)
          && (cfg.finalTpR > 0.0 ==> !Touched(p.side, p.priceOpen, closes, level(n))))
  }

  predicate AllLevels(cfg: Ladder.Config, w: Watch, book: Ladder.Book, ps: seq<Position>) {
    forall i :: 0 <= i < |ps| ==> LevelOk(cfg, ps[i], Ladder.Lookup(book, ps[i].ticket), w(ps[i].ticket))
  }

  /** Tickets of orders, and tickets not handed out yet, have never been shown. */
  ghost predicate Unwatched(w: Watch, os: seq<Pending>, top: int) {
    forall t: int :: t > top || !NoOrder(os, t) ==> w(t) == []
  }

  ghost predicate WatchInv(cfg: Ladder.Config, w: Watch, book: Ladder.Book, s: State) {
    AllLevels(cfg, w, book, s.positions) && Unwatched(w, s.pendings, s.ticket)
  }

  // ------------------------------------------------------------------ one position, one bar

  lemma TouchedMore(side: Direction, entry: real, closes: seq<real>, close: real, level: real)
    ensures Touched(side, entry, closes + [close], level) <==>
            Touched(side, entry, closes, level) || Levels.Gain(side, entry, close) >= level
  {
    var more := closes + [close];
    assert more[|closes|] == close;
    if Touched(side, entry, closes, level) {
      var k :| 0 <= k < |closes| && Levels.Gain(side, entry, closes[k]) >= level;
      assert more[k] == closes[k];
    }
  }

  lemma {:induction false} OwnSame(costs: Costs, p: Position, acts: seq<Action>, c: Candle)
    ensures var f := Own(costs, p, acts, c);
            f.p.side == p.side && f.p.priceOpen == p.priceOpen && f.p.ticket == p.ticket
    decreases |acts|
  {
    if acts != [] {
      OwnSame(costs, p, acts[..|acts| - 1], c);
    }
  }

  lemma {:induction false} MarkedMore(n: nat, level: nat -> real, side: Direction, entry: real, closes: seq<real>,
                                      filled: set<nat>, close: real, filled': set<nat>)
    requires MarkedBy(n, level, side, entry, closes, filled)
    requires forall i: nat :: i < n ==> (i in filled' <==> i in filled || Levels.Gain(side, entry, close) >= level(i))
    ensures MarkedBy(n, level, side, entry, closes + [close], filled')
  {
    forall i: nat | i < n ensures i in filled' <==> Touched(side, entry, closes + [close], level(i)) {
      TouchedMore(side, entry, closes, close, level(i));
    }
  }

  /** What is remembered, level by level. */
  lemma {:induction false} RememberedAt(cfg: Ladder.Config, t: Ladder.Trade, v: View, close: real, t': Ladder.Trade)
    requires Levels.Remembers(cfg, t, v, close, t')
    ensures var level := LevelsOf(cfg, t.d);
            && (forall i: nat :: i < |cfg.partials| ==>
                  (i in t'.filled <==> i in t.filled || Levels.Gain(v.side, t.entry, close) >= level(i)))
            && (Levels.FinalGone(cfg, t, v, close) <==>
                cfg.finalTpR > 0.0 && Levels.Gain(v.side, t.entry, close) >= level(|cfg.partials|))
  {
    var level := LevelsOf(cfg, t.d);
    forall i: nat | i < |cfg.partials|
      ensures Levels.Reached(cfg, t, v, close, i) <==> Levels.Gain(v.side, t.entry, close) >= level(i) {}
  }

  /** What the manager remembers, in terms of the closes. */
  lemma {:induction false} Remembered(cfg: Ladder.Config, t: Ladder.Trade, p: Position, close: real, t': Ladder.Trade,
                                      closes: seq<real>)
    requires t.entry == p.priceOpen && Levels.Remembers(cfg, t, ViewOf(p), close, t')
    requires !Levels.FinalGone(cfg, t, ViewOf(p), close)
    requires MarkedBy(|cfg.partials|, LevelsOf(cfg, t.d), p.side, p.priceOpen, closes, t.filled)
    requires cfg.finalTpR > 0.0 ==> !Touched(p.side, p.priceOpen, closes, LevelsOf(cfg, t.d)(|cfg.partials|))
    ensures LevelOk(cfg, p, Some(t'), closes + [close])
  {
    var n, level := |cfg.partials|, LevelsOf(cfg, t.d);
    RememberedAt(cfg, t, ViewOf(p), close, t');
    MarkedMore(n, level, p.side, p.priceOpen, closes, t.filled, close, t'.filled);
    TouchedMore(p.side, p.priceOpen, closes, close, level(n));
  }

  lemma LevelOkSame(cfg: Ladder.Config, p: Position, q: Position, tr: Option<Ladder.Trade>, closes: seq<real>)
    requires LevelOk(cfg, p, tr, closes) && q.side == p.side && q.priceOpen == p.priceOpen
    ensures LevelOk(cfg, q, tr, closes)
  {
  }

  lemma NothingYet(cfg: Ladder.Config, d: real, side: Direction, entry: real)
    ensures MarkedBy(|cfg.partials|, LevelsOf(cfg, d), side, entry, [], {})
    ensures !Touched(side, entry, [], LevelsOf(cfg, d)(|cfg.partials|))
  {
  }

  lemma {:induction false} OneLevel(costs: Costs, cfg: Ladder.Config, tr: Option<Ladder.Trade>, p: Position,
                                    tick: Ladder.Tick, closes: seq<real>)
    requires Ladder.ValidConfig(cfg) && LifeInv(cfg, tr, p) && tick.c.close > 0.0 && LevelOk(cfg, p, tr, closes)
    ensures Ladder.TradeFor(cfg, tr, ViewOf(p)).d > 0.0
    ensures var (tr', acts) := Ladder.Manage(cfg, tr, ViewOf(p), tick);
            var f := Own(costs, p, acts, tick.c);
            f.p.ticket == p.ticket && (f.Live? ==> LevelOk(cfg, f.p, tr', closes + [tick.c.close]))
  {
    BarOfLife(costs, cfg, tr, p, tick);
    var t := Ladder.TradeFor(cfg, tr, ViewOf(p));
    var (tr', acts) := Ladder.Manage(cfg, tr, ViewOf(p), tick);
    OwnSame(costs, p, acts, tick.c);
    var rungs, n := Levels.ActsByPrice(cfg, tr, ViewOf(p), tick);
    NothingYet(cfg, t.d, p.side, p.priceOpen);
    if tr'.Some? {
      Remembered(cfg, t, p, tick.c.close, tr'.value, closes);
      LevelOkSame(cfg, p, Own(costs, p, acts, tick.c).p, tr', closes + [tick.c.close]);
    }
  }

  // ------------------------------------------------------------------ the sweep

  /** After the manager's turn over these positions. */
  predicate SweptOk(costs: Costs, cfg: Ladder.Config, w: Watch, book: Ladder.Book, ps: seq<Position>, tick: Ladder.Tick)
    requires Ladder.ValidConfig(cfg) && Ladder.BookOk(book)
  {
    AllLevels(cfg, w, Ladder.Sweep(cfg, book, Views(ps), tick).0, Lives(costs, ps, Parts(cfg, book, ps, tick), tick.c))
  }

  lemma {:induction false} SweptOne(costs: Costs, cfg: Ladder.Config, w: Watch, book: Ladder.Book, most: seq<Position>,
                                    p: Position, tick: Ladder.Tick, closes: seq<real>)
    requires Ladder.ValidConfig(cfg) && Ladder.BookOk(book) && NoTicket(most, p.ticket)
    requires SweptOk(costs, cfg, w, book, most, tick)
    requires LifeInv(cfg, Ladder.Lookup(book, p.ticket), p) && tick.c.close > 0.0
    requires LevelOk(cfg, p, Ladder.Lookup(book, p.ticket), closes) && w(p.ticket) == closes + [tick.c.close]
    ensures SweptOk(costs, cfg, w, book, most + [p], tick)
  {
    var ps, parts := most + [p], Parts(cfg, book, most + [p], tick);
    var tr := Ladder.Lookup(book, p.ticket);
    assert ps[..|most|] == most;
    PartsLast(cfg, book, ps, tick);
    assert Views(ps)[..|most|] == Views(most);
    SweepKeepsBookOther(cfg, book, most, tick, p.ticket);
    OneLevel(costs, cfg, tr, p, tick, closes);
    LivesTickets(costs, most, Parts(cfg, book, most, tick), tick.c, p.ticket);
    LevelsOne(cfg, w, Ladder.Sweep(cfg, book, Views(most), tick).0,
              Lives(costs, most, Parts(cfg, book, most, tick), tick.c), p,
              Ladder.Manage(cfg, tr, ViewOf(p), tick).0, Own(costs, p, parts[|most|], tick.c));
  }

  lemma {:induction false} SweepLevels(costs: Costs, cfg: Ladder.Config, w: Watch, w': Watch, book: Ladder.Book,
                                       ps: seq<Position>, tick: Ladder.Tick)
    requires Ladder.ValidConfig(cfg) && Ladder.BookOk(book) && DistinctTickets(ps)
    requires AllLive(cfg, book, ps) && AllLevels(cfg, w, book, ps) && tick.c.close > 0.0
    requires forall i :: 0 <= i < |ps| ==> w'(ps[i].ticket) == w(ps[i].ticket) + [tick.c.close]
    ensures SweptOk(costs, cfg, w', book, ps, tick)
    decreases |ps|
  {
    if ps != [] {
      var n := |ps| - 1;
      SweepLevels(costs, cfg, w, w', book, ps[..n], tick);
      SweptOne(costs, cfg, w', book, ps[..n], ps[n], tick, w(ps[n].ticket));
      assert ps == ps[..n] + [ps[n]];
    }
  }

  lemma LevelsOne(cfg: Ladder.Config, w: Watch, book: Ladder.Book, lives: seq<Position>, p: Position,
                  tr: Option<Ladder.Trade>, f: Fate)
    requires AllLevels(cfg, w, book, lives) && NoTicket(lives, p.ticket) && f.p.ticket == p.ticket
    requires f.Live? ==> LevelOk(cfg, f.p, tr, w(p.ticket))
    ensures AllLevels(cfg, w, Ladder.Store(book, p.ticket, tr), lives + LiveOf(f))
  {
    var all, book' := lives + LiveOf(f), Ladder.Store(book, p.ticket, tr);
    forall i | 0 <= i < |all| ensures LevelOk(cfg, all[i], Ladder.Lookup(book', all[i].ticket), w(all[i].ticket)) {
      LookupStore(book, p.ticket, tr, all[i].ticket);
    }
  }

  // ------------------------------------------------------------------ one bar

  /** Before the manager's turn. */
  lemma {:induction false} BeforeLevels(costs: Costs, cfg: Ladder.Config, w: Watch, book: Ladder.Book, s: State,
                                        c: Candle, spike: bool)
    requires LoopInv(cfg, book, s) && WatchInv(cfg, w, book, s)
    ensures WatchInv(cfg, w, book, Before(costs, s, c, spike))
  {
    var s1 := Before(costs, s, c, spike);
    SimMoney.BarTakes(costs, s, c, spike);
    SimMoney.StopsTaken(costs, s.(pendings := FillPendings(costs, KeepPendings(s.pendings, c.ts, spike), c).0,
                                  positions := s.positions +
                                    FillPendings(costs, KeepPendings(s.pendings, c.ts, spike), c).1), 0, c);
    forall i | 0 <= i < |s1.positions|
      ensures LevelOk(cfg, s1.positions[i], Ladder.Lookup(book, s1.positions[i].ticket), w(s1.positions[i].ticket))
    {
      FirstShown(costs, cfg, w, book, s, c, spike, s1.positions[i]);
    }
    forall t: int | t > s1.ticket || !NoOrder(s1.pendings, t) ensures w(t) == [] {
      TicketStays(costs, s, c, spike);
      if !NoOrder(s1.pendings, t) {
        var i :| 0 <= i < |s1.pendings| && s1.pendings[i].ticket == t;
        assert s1.pendings[i] in s.pendings;
      }
    }
  }

  lemma {:induction false} TicketStays(costs: Costs, s: State, c: Candle, spike: bool)
    ensures Before(costs, s, c, spike).ticket == s.ticket
  {
    var (still, ps) := FillPendings(costs, KeepPendings(s.pendings, c.ts, spike), c);
    StopsTicket(costs, s.(pendings := still, positions := s.positions + ps), 0, c);
  }

  lemma {:induction false} StopsTicket(costs: Costs, s: State, i: nat, c: Candle)
    requires i <= |s.positions|
    ensures StopPass(costs, s, i, c).ticket == s.ticket
    decreases |s.positions| - i
  {
    if i < |s.positions| {
      if Hit(s.positions[i], c) {
        StopsTicket(costs, Close(costs, s, i, s.positions[i].sl, s.positions[i].volume, StopHit), i, c);
      } else {
        StopsTicket(costs, s, i + 1, c);
      }
    }
  }

  lemma {:induction false} FirstShown(costs: Costs, cfg: Ladder.Config, w: Watch, book: Ladder.Book, s: State,
                                      c: Candle, spike: bool, p: Position)
    requires LoopInv(cfg, book, s) && WatchInv(cfg, w, book, s) && p in Before(costs, s, c, spike).positions
    ensures LevelOk(cfg, p, Ladder.Lookup(book, p.ticket), w(p.ticket))
  {
    SimMoney.BarTakes(costs, s, c, spike);
    if p in s.positions {
      var i :| 0 <= i < |s.positions| && s.positions[i] == p;
    } else {
      var o: Pending :| o in s.pendings && SimMoney.InTime(o, c.ts, spike) && SimMoney.Reaches(o.side, c, o.px)
                        && SimMoney.Fresh(costs, o, c, p);
      var i :| 0 <= i < |s.pendings| && s.pendings[i] == o;
      assert !NoOrder(s.pendings, p.ticket);
    }
  }

  /** What the manager is shown on this bar. */
  lemma {:induction false} WatchedBar(costs: Costs, cfg: Ladder.Config, events: seq<LoopEvent>, e: LoopEvent, t: int)
    requires Ladder.ValidConfig(cfg) && e.OneBar?
    ensures Watched(costs, cfg, events + [e], t) == Watched(costs, cfg, events, t) +
            if NoTicket(Before(costs, LadderRun.Run(costs, cfg, events).sim, e.c, e.spike).positions, t) then []
            else [e.c.close]
  {
    assert (events + [e])[..|events|] == events;
    SeenTickets(Before(costs, LadderRun.Run(costs, cfg, events).sim, e.c, e.spike).positions, t);
  }

  lemma {:induction false} WatchedOther(costs: Costs, cfg: Ladder.Config, events: seq<LoopEvent>, e: LoopEvent, t: int)
    requires !e.OneBar?
    ensures Watched(costs, cfg, events + [e], t) == Watched(costs, cfg, events, t)
  {
    assert (events + [e])[..|events|] == events;
    assert Watched(costs, cfg, events, t) + [] == Watched(costs, cfg, events, t);
  }

  lemma {:induction false} SweptLevels(costs: Costs, cfg: Ladder.Config, w: Watch, w': Watch, lad: Ladder.State,
                                       s: State, c: Candle, spread: real)
    requires Ladder.ValidConfig(cfg) && LoopInv(cfg, lad.book, s) && c.close > 0.0 && WatchInv(cfg, w, lad.book, s)
    requires forall t: int :: w'(t) == w(t) + if NoTicket(s.positions, t) then [] else [c.close]
    ensures var (lad', acts) := Ladder.OnBar(cfg, lad, Views(s.positions), c, spread);
            WatchInv(cfg, w', lad'.book, ApplyAll(costs, s, acts, c))
  {
    var ps, tick := s.positions, Ladder.Tick(c, lad.prev, spread);
    var parts := Parts(cfg, lad.book, ps, tick);
    SweepApplies(costs, cfg, lad.book, s, tick);
    forall i | 0 <= i < |ps| ensures w'(ps[i].ticket) == w(ps[i].ticket) + [c.close] {
      assert !NoTicket(ps, ps[i].ticket);
    }
    SweepLevels(costs, cfg, w, w', lad.book, ps, tick);
    LivesWithin(costs, ps, parts, c);
    var lives := Lives(costs, ps, parts, c);
    assert lives + [] == lives;
    var swept := Ladder.Sweep(cfg, lad.book, Views(ps), tick).0;
    var book' := Ladder.OnBar(cfg, lad, Views(ps), c, spread).0.book;
    forall i | 0 <= i < |lives|
      ensures Ladder.Lookup(book', lives[i].ticket) == Ladder.Lookup(swept, lives[i].ticket)
    {
      assert !NoTicket(ps, lives[i].ticket);
      SeenTickets(ps, lives[i].ticket);
    }
    forall t: int | t > s.ticket || !NoOrder(s.pendings, t) ensures w'(t) == [] {
      assert NoTicket(ps, t);
      assert w(t) + [] == w(t);
    }
  }

  lemma {:induction false} FlattenQuiet(costs: Costs, cfg: Ladder.Config, w: Watch, book: Ladder.Book, s: State,
                                        c: Candle)
    requires WatchInv(cfg, w, book, s)
    ensures WatchInv(cfg, w, book, Flatten(costs, s, c))
  {
    FlattenTicket(costs, s, c);
    SimMoney.FlattenEmpties(costs, s, c);
  }

  lemma {:induction false} FlattenTicket(costs: Costs, s: State, c: Candle)
    ensures Flatten(costs, s, c).ticket == s.ticket
    decreases |s.positions|
  {
    if s.positions != [] {
      var p := s.positions[0];
      FlattenTicket(costs, Close(costs, s, 0, ExitPx(costs, p.side, c), p.volume, DailyHalt), c);
    }
  }

  lemma {:induction false} BarLevels(costs: Costs, cfg: Ladder.Config, events: seq<LoopEvent>, e: LoopEvent)
    requires Ladder.ValidConfig(cfg) && e.OneBar? && e.c.close > 0.0
    requires var l := LadderRun.Run(costs, cfg, events);
             LoopInv(cfg, l.ladder.book, l.sim) && WatchInv(cfg, WatchOf(costs, cfg, events), l.ladder.book, l.sim)
    ensures var l' := LadderRun.Next(costs, cfg, LadderRun.Run(costs, cfg, events), e);
            WatchInv(cfg, WatchOf(costs, cfg, events + [e]), l'.ladder.book, l'.sim)
  {
    var l := LadderRun.Run(costs, cfg, events);
    var w, w' := WatchOf(costs, cfg, events), WatchOf(costs, cfg, events + [e]);
    var s1 := Before(costs, l.sim, e.c, e.spike);
    LadderRun.BeforeKeeps(costs, cfg, l.ladder.book, l.sim, e.c, e.spike);
    BeforeLevels(costs, cfg, w, l.ladder.book, l.sim, e.c, e.spike);
    forall t: int ensures w'(t) == w(t) + if NoTicket(s1.positions, t) then [] else [e.c.close] {
      WatchedBar(costs, cfg, events, e, t);
    }
    SweptLevels(costs, cfg, w, w', l.ladder, s1, e.c, e.spread);
    var (lad', acts) := Ladder.OnBar(cfg, l.ladder, Views(s1.positions), e.c, e.spread);
    if e.halted {
      FlattenQuiet(costs, cfg, w', lad'.book, ApplyAll(costs, s1, acts, e.c), e.c);
    }
  }

  // ------------------------------------------------------------------ runs

  lemma {:induction false} EnterLevels(costs: Costs, cfg: Ladder.Config, w: Watch, book: Ladder.Book, s: State,
                                       entry: Entry, ts: int, lot: real)
    requires LoopInv(cfg, book, s) && WatchInv(cfg, w, book, s)
    ensures WatchInv(cfg, w, book, PlaceMarket(costs, s, entry, ts, lot))
  {
    assert s.ticket + 1 !in book;
  }

  lemma {:induction false} EnterLimitsLevels(costs: Costs, cfg: Ladder.Config, w: Watch, book: Ladder.Book, s: State,
                                             entry: Entry, ts: int)
    requires LoopInv(cfg, book, s) && WatchInv(cfg, w, book, s)
    ensures WatchInv(cfg, w, book, PlaceLimitSet(costs, s, entry, ts))
  {
    var s' := PlaceLimitSet(costs, s, entry, ts);
    forall t: int | t > s'.ticket || !NoOrder(s'.pendings, t) ensures w(t) == [] {
      if !NoOrder(s'.pendings, t) {
        var i :| 0 <= i < |s'.pendings| && s'.pendings[i].ticket == t;
        assert i < |s.pendings| ==> s'.pendings[i] == s.pendings[i];
      }
    }
  }

  lemma {:induction false} SameWatch(cfg: Ladder.Config, w: Watch, w': Watch, book: Ladder.Book, s: State)
    requires WatchInv(cfg, w, book, s) && forall t: int :: w'(t) == w(t)
    ensures WatchInv(cfg, w', book, s)
  {
    forall i | 0 <= i < |s.positions|
      ensures LevelOk(cfg, s.positions[i], Ladder.Lookup(book, s.positions[i].ticket), w'(s.positions[i].ticket))
    {
      assert w'(s.positions[i].ticket) == w(s.positions[i].ticket);
    }
  }

  lemma {:induction false} RunLevels(costs: Costs, cfg: Ladder.Config, events: seq<LoopEvent>)
    requires ValidCosts(costs) && Ladder.ValidConfig(cfg) && FractionsOk(cfg)
    requires forall i :: 0 <= i < |events| ==> Fair(costs, events[i])
    ensures var l := LadderRun.Run(costs, cfg, events);
            WatchInv(cfg, WatchOf(costs, cfg, events), l.ladder.book, l.sim)
    decreases |events|
  {
    if events != [] {
      var most, e := events[..|events| - 1], events[|events| - 1];
      var l := LadderRun.Run(costs, cfg, most);
      assert events == most + [e];
      RunLevels(costs, cfg, most);
      RunKeeps(costs, cfg, most);
      match e
      case Enter(entry, ts, lot) =>
        EnterLevels(costs, cfg, WatchOf(costs, cfg, most), l.ladder.book, l.sim, entry, ts, lot);
        OtherEvent(costs, cfg, most, e);
      case EnterLimits(entry, ts) =>
        EnterLimitsLevels(costs, cfg, WatchOf(costs, cfg, most), l.ladder.book, l.sim, entry, ts);
        OtherEvent(costs, cfg, most, e);
      case OneBar(_, _, _, _) =>
        BarLevels(costs, cfg, most, e);
    }
  }

  lemma {:induction false} OtherEvent(costs: Costs, cfg: Ladder.Config, events: seq<LoopEvent>, e: LoopEvent)
    requires Ladder.ValidConfig(cfg) && !e.OneBar?
    requires var l' := LadderRun.Next(costs, cfg, LadderRun.Run(costs, cfg, events), e);
             WatchInv(cfg, WatchOf(costs, cfg, events), l'.ladder.book, l'.sim)
    ensures var l' := LadderRun.Next(costs, cfg, LadderRun.Run(costs, cfg, events), e);
            WatchInv(cfg, WatchOf(costs, cfg, events + [e]), l'.ladder.book, l'.sim)
  {
    var l' := LadderRun.Next(costs, cfg, LadderRun.Run(costs, cfg, events), e);
    forall t: int ensures WatchOf(costs, cfg, events + [e])(t) == WatchOf(costs, cfg, events)(t) {
      WatchedOther(costs, cfg, events, e, t);
    }
    SameWatch(cfg, WatchOf(costs, cfg, events), WatchOf(costs, cfg, events + [e]), l'.ladder.book, l'.sim);
  }

  /** In every run, of every open position the manager has been shown: a rung is marked done exactly if
      one of the closes it was shown at had gone that multiple of the initial risk distance beyond the
      entry, and none of them had reached the final target. */
  lemma {:induction false} RungsByCloses(costs: Costs, cfg: Ladder.Config, events: seq<LoopEvent>, p: Position)
    requires ValidCosts(costs) && Ladder.ValidConfig(cfg) && FractionsOk(cfg)
    requires forall i :: 0 <= i < |events| ==> Fair(costs, events[i])
    requires p in LadderRun.Run(costs, cfg, events).sim.positions
    ensures p.stops != []
    ensures var tr := Ladder.Lookup(LadderRun.Run(costs, cfg, events).ladder.book, p.ticket);
            var closes := Watched(costs, cfg, events, p.ticket);
            && (tr.None? <==> closes == [])
            && (tr.Some? ==>
                  && tr.value.d == (if p.stops[0] == 0.0 || p.stops[0] == p.priceOpen then cfg.defaultD
                                    else if p.stops[0] < p.priceOpen then p.priceOpen - p.stops[0]
                                    else p.stops[0] - p.priceOpen)
                  && RungsAt(cfg, p, tr.value, closes))
  {
    RunLevels(costs, cfg, events);
    RunKeeps(costs, cfg, events);
    var l := LadderRun.Run(costs, cfg, events);
    var i :| 0 <= i < |l.sim.positions| && l.sim.positions[i] == p;
    var tr, closes := Ladder.Lookup(l.ladder.book, p.ticket), Watched(costs, cfg, events, p.ticket);
    assert LifeInv(cfg, tr, p);
    assert LevelOk(cfg, p, tr, WatchOf(costs, cfg, events)(p.ticket));
    if tr.Some? {
      Unfolded(cfg, p, tr.value, closes);
    }
  }

  /** Rung i is done exactly if one of the closes was `partials[i].0` risk distances beyond the entry; none
      was the final target's multiple. */
  predicate RungsAt(cfg: Ladder.Config, p: Position, t: Ladder.Trade, closes: seq<real>) {
    && (forall i: nat :: i < |cfg.partials| ==>
          (i in t.filled <==> exists k :: 0 <= k < |closes| && Beyond(p, closes[k], cfg.partials[i].0, t.d)))
    && (cfg.finalTpR > 0.0 ==> forall k :: 0 <= k < |closes| ==> !Beyond(p, closes[k], cfg.finalTpR, t.d))
  }

  predicate Beyond(p: Position, close: real, multiple: real, d: real) {
    (if p.side == Long then close - p.priceOpen else p.priceOpen - close) >= multiple * d
  }

  lemma {:induction false} Unfolded(cfg: Ladder.Config, p: Position, t: Ladder.Trade, closes: seq<real>)
    requires LevelOk(cfg, p, Some(t), closes)
    ensures RungsAt(cfg, p, t, closes)
  {
    forall i: nat | i < |cfg.partials|
      ensures i in t.filled <==> exists k :: 0 <= k < |closes| && Beyond(p, closes[k], cfg.partials[i].0, t.d)
    {
      TouchedIs(cfg, p, t.d, closes, i);
    }
    TouchedIs(cfg, p, t.d, closes, |cfg.partials|);
  }

  lemma {:induction false} TouchedIs(cfg: Ladder.Config, p: Position, d: real, closes: seq<real>, i: nat)
    requires i <= |cfg.partials|
    ensures var multiple := if i < |cfg.partials| then cfg.partials[i].0 else cfg.finalTpR;
            Touched(p.side, p.priceOpen, closes, LevelsOf(cfg, d)(i)) <==>
            exists k :: 0 <= k < |closes| && Beyond(p, closes[k], multiple, d)
  {
    var multiple := if i < |cfg.partials| then cfg.partials[i].0 else cfg.finalTpR;
    forall k | 0 <= k < |closes|
      ensures Beyond(p, closes[k], multiple, d) <==>
              Levels.Gain(p.side, p.priceOpen, closes[k]) >= LevelsOf(cfg, d)(i) {}
  }
}
