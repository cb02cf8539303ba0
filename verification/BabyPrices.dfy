/** The babysitter in prices: what it asks for on one bar, and where the stops of a run are. */
module BabyPrices {
  import opened Prelude
  import opened Models
  import opened Sitters
  import opened Sim
  import opened BabyRun
  import B = Babysitting

  /** How far the price has gone beyond the entry. */
  function Gain(side: Direction, entry: real, px: real): real {
    if side == Long then px - entry else entry - px
  }

  /** That multiple of the risk distance beyond the entry. */
  predicate Reached(side: Direction, entry: real, d: real, multiple: real, px: real) {
    Gain(side, entry, px) >= multiple * d
  }

  /** Seen from the side of the position: the higher the better for a long, the lower for a short. */
  function Favour(side: Direction, px: real): real {
    if side == Long then px else -px
  }

  predicate PastBreakeven(cfg: B.Config, side: Direction, entry: real, d: real, px: real) {
    cfg.breakevenAtR > 0.0 && Reached(side, entry, d, cfg.breakevenAtR, px)
  }

  // ------------------------------------------------------------------ one bar

  /** The risk distance behind the close, but the entry if that is better and breakeven has been reached. */
  predicate IsTarget(cfg: B.Config, side: Direction, entry: real, d: real, close: real, px: real) {
    var chase := Favour(side, close) - d;
    Favour(side, px) == if PastBreakeven(cfg, side, entry, d, close) && Favour(side, entry) > chase
                        then Favour(side, entry) else chase
  }

  predicate DistinctViews(views: seq<View>) {
    forall i, j :: 0 <= i < j < |views| ==> views[i].ticket != views[j].ticket
  }

  /** What is asked for this ticket, in order. */
  function Asked(actions: seq<Action>, ticket: int): seq<Action>
    decreases |actions|
  {
    if actions == [] then []
    else
      var a := actions[|actions| - 1];
      Asked(actions[..|actions| - 1], ticket) + if a.ticket == ticket then [a] else []
  }

  /** The trade as remembered or, the first time, at the distance of its stop, if it has one. */
  predicate IsTrade(cfg: B.Config, book: B.Book, v: View, t: B.Trade) {
    if v.ticket in book then t == book[v.ticket]
    else
      && !t.partialDone
      && t.d == if v.sl == 0.0 then cfg.defaultD
                else if v.sl < v.priceOpen then v.priceOpen - v.sl else v.sl - v.priceOpen
  }

  /** What a position gets: once, at the wanted profit, the wanted part of its volume is closed; and the stop
      is moved to the target if there is none or the target protects more. */
  predicate Gets(cfg: B.Config, t: B.Trade, v: View, close: real, target: real, actions: seq<Action>) {
    var banks := !t.partialDone && Reached(v.side, v.priceOpen, t.d, cfg.partialAtR, close);
    var moves := v.sl == 0.0 || Favour(v.side, target) > Favour(v.side, v.sl);
    && IsTarget(cfg, v.side, v.priceOpen, t.d, close, target)
    && |actions| == (if banks then 1 else 0) + (if moves then 1 else 0)
    && (banks ==> actions[0].PartialClose? && actions[0].ticket == v.ticket
                  && actions[0].volume == cfg.partialFrac * v.volume)
    && (moves ==> actions[|actions| - 1] == UpdateSl(v.ticket, target))
  }

  lemma {:induction false} AskedMore(a: seq<Action>, b: seq<Action>, ticket: int)
    ensures Asked(a + b, ticket) == Asked(a, ticket) + Asked(b, ticket)
    decreases |b|
  {
    if b == [] {
      assert a + b == a;
    } else {
      AskedMore(a, b[..|b| - 1], ticket);
      assert (a + b)[..|a + b| - 1] == a + b[..|b| - 1];
    }
  }

  lemma {:induction false} AskedOwn(actions: seq<Action>, owner: int, ticket: int)
    requires forall i :: 0 <= i < |actions| ==> actions[i].ticket == owner
    ensures Asked(actions, ticket) == if owner == ticket then actions else []
    decreases |actions|
  {
    if actions != [] {
      AskedOwn(actions[..|actions| - 1], owner, ticket);
    }
  }

  /** A trade after one more close. */
  function Sat(cfg: B.Config, t: B.Trade, v: View, close: real): B.Trade {
    t.(partialDone := t.partialDone || B.TakesPartial(cfg, t, v, close))
  }

  lemma {:induction false} AskedOf(before: seq<Action>, more: seq<Action>, owner: int, ticket: int)
    requires forall i :: 0 <= i < |more| ==> more[i].ticket == owner
    ensures Asked(before + more, ticket) ==
            if owner == ticket then Asked(before, ticket) + more else Asked(before, ticket)
  {
    AskedMore(before, more, ticket);
    AskedOwn(more, owner, ticket);
    assert Asked(before, ticket) + [] == Asked(before, ticket);
  }

  lemma {:induction false} SitIs(cfg: B.Config, book: B.Book, views: seq<View>, close: real)
    requires views != []
    ensures var v := views[|views| - 1];
            var before, after := B.Sit(cfg, book, views[..|views| - 1], close), B.Sit(cfg, book, views, close);
            var t := B.TradeOf(cfg, before.0, v);
            && after.0 == before.0[v.ticket := Sat(cfg, t, v, close)]
            && after.1 == before.1 + B.ActionsFor(cfg, t, v, close)
  {
  }

  lemma ActionsOwned(cfg: B.Config, t: B.Trade, v: View, close: real)
    ensures var more := B.ActionsFor(cfg, t, v, close); forall i :: 0 <= i < |more| ==> more[i].ticket == v.ticket
  {
  }

  /** The last position of the list, seen from one ticket. */
  lemma {:induction false} SitLast(cfg: B.Config, book: B.Book, views: seq<View>, close: real, ticket: int)
    requires views != []
    ensures var v := views[|views| - 1];
            var before, after := B.Sit(cfg, book, views[..|views| - 1], close), B.Sit(cfg, book, views, close);
            var t := B.TradeOf(cfg, before.0, v);
            if v.ticket == ticket then
              Asked(after.1, ticket) == Asked(before.1, ticket) + B.ActionsFor(cfg, t, v, close)
              && Trade(after.0, ticket) == Some(Sat(cfg, t, v, close))
            else Asked(after.1, ticket) == Asked(before.1, ticket) && Trade(after.0, ticket) == Trade(before.0, ticket)
  {
    var v := views[|views| - 1];
    var before := B.Sit(cfg, book, views[..|views| - 1], close);
    var t := B.TradeOf(cfg, before.0, v);
    SitIs(cfg, book, views, close);
    ActionsOwned(cfg, t, v, close);
    AskedOf(before.1, B.ActionsFor(cfg, t, v, close), v.ticket, ticket);
  }

  /** The babysitter's pass gives a position not in the list nothing and leaves its trade alone. */
  lemma {:induction false} SitSkips(cfg: B.Config, book: B.Book, views: seq<View>, close: real, ticket: int)
    requires forall i :: 0 <= i < |views| ==> views[i].ticket != ticket
    ensures var (book', actions) := B.Sit(cfg, book, views, close);
            Asked(actions, ticket) == [] && Trade(book', ticket) == Trade(book, ticket)
    decreases |views|
  {
    if views != [] {
      SitSkips(cfg, book, views[..|views| - 1], close, ticket);
      SitLast(cfg, book, views, close, ticket);
    }
  }

  predicate Served(cfg: B.Config, book: B.Book, v: View, close: real, after: (B.Book, seq<Action>)) {
    var t := B.TradeOf(cfg, book, v);
    && Asked(after.1, v.ticket) == B.ActionsFor(cfg, t, v, close)
    && Trade(after.0, v.ticket) == Some(Sat(cfg, t, v, close))
  }

  lemma {:induction false} SitAsks(cfg: B.Config, book: B.Book, views: seq<View>, close: real, i: nat)
    requires DistinctViews(views) && i < |views|
    ensures Served(cfg, book, views[i], close, B.Sit(cfg, book, views, close))
    decreases |views|
  {
    var n := |views| - 1;
    SitLast(cfg, book, views, close, views[i].ticket);
    if i < n {
      SitAsks(cfg, book, views[..n], close, i);
    } else {
      SitSkips(cfg, book, views[..n], close, views[i].ticket);
      SameTrade(cfg, book, B.Sit(cfg, book, views[..n], close).0, views[n]);
      assert [] + B.ActionsFor(cfg, B.TradeOf(cfg, book, views[n]), views[n], close)
          == B.ActionsFor(cfg, B.TradeOf(cfg, book, views[n]), views[n], close);
    }
  }

  lemma SameTrade(cfg: B.Config, book: B.Book, book': B.Book, v: View)
    requires Trade(book, v.ticket) == Trade(book', v.ticket)
    ensures B.TradeOf(cfg, book, v) == B.TradeOf(cfg, book', v)
  {
  }

  lemma GetsThat(cfg: B.Config, t: B.Trade, v: View, close: real)
    ensures Gets(cfg, t, v, close, B.StopTarget(cfg, t.d, v, close), B.ActionsFor(cfg, t, v, close))
  {
  }

  /** On every bar each position shown gets just that, and its trade remembers whether it has been banked on. */
  lemma {:induction false} ActsByPrice(cfg: B.Config, book: B.Book, views: seq<View>, close: real, v: View)
    returns (t: B.Trade, target: real)
    requires DistinctViews(views) && v in views
    ensures IsTrade(cfg, book, v, t)
    ensures var (book', actions) := B.OnBar(cfg, book, views, close);
            && Gets(cfg, t, v, close, target, Asked(actions, v.ticket))
            && v.ticket in book' && book'[v.ticket].d == t.d
            && (book'[v.ticket].partialDone <==>
                  t.partialDone || Reached(v.side, v.priceOpen, t.d, cfg.partialAtR, close))
  {
    t := B.TradeOf(cfg, book, v);
    target := B.StopTarget(cfg, t.d, v, close);
    var i :| 0 <= i < |views| && views[i] == v;
    SitAsks(cfg, book, views, close, i);
    GetsThat(cfg, t, v, close);
  }

  /** Nobody else gets anything, and whoever is not shown is forgotten. */
  lemma {:induction false} OthersGetNothing(cfg: B.Config, book: B.Book, views: seq<View>, close: real, ticket: int)
    requires forall i :: 0 <= i < |views| ==> views[i].ticket != ticket
    ensures var (book', actions) := B.OnBar(cfg, book, views, close);
            Asked(actions, ticket) == [] && ticket !in book'
  {
    SitSkips(cfg, book, views, close, ticket);
  }

  // ------------------------------------------------------------------ whole runs

  /** The nearest stop, on the position's side, that is no looser than the first one, than the risk distance
      behind any of the closes and, once one of them has reached breakeven, than the entry. */
  predicate IsMark(cfg: B.Config, side: Direction, entry: real, first: real, d: real, closes: seq<real>, sl: real) {
    var breakeven := exists k :: 0 <= k < |closes| && PastBreakeven(cfg, side, entry, d, closes[k]);
    && Favour(side, sl) >= Favour(side, first)
    && (forall k :: 0 <= k < |closes| ==> Favour(side, sl) >= Favour(side, closes[k]) - d)
    && (breakeven ==> Favour(side, sl) >= Favour(side, entry))
    && (sl == first || (breakeven && sl == entry)
        || exists k :: 0 <= k < |closes| && Favour(side, sl) == Favour(side, closes[k]) - d)
  }

  lemma {:induction false} BestIs(side: Direction, closes: seq<real>) returns (at: nat)
    requires closes != []
    ensures at < |closes| && B.BestClose(side, closes) == closes[at]
    ensures forall k :: 0 <= k < |closes| ==> Favour(side, closes[k]) <= Favour(side, closes[at])
    decreases |closes|
  {
    var n := |closes| - 1;
    if n == 0 {
      at := 0;
    } else {
      at := BestIs(side, closes[..n]);
      if Tighter(side, closes[n], closes[..n][at]) {
        at := n;
      }
    }
  }

  lemma {:induction false} MarkIs(cfg: B.Config, v: View, first: real, d: real, closes: seq<real>)
    requires closes != []
    ensures IsMark(cfg, v.side, v.priceOpen, first, d, closes, B.HighWater(cfg, d, v, first, closes))
  {
    var at := BestIs(v.side, closes);
    BreakevenAtBest(cfg, v, d, closes, at);
    GetsThat(cfg, B.Trade(d, true), v, closes[at]);
  }

  /** If any close has reached breakeven, so has the best. */
  lemma BreakevenAtBest(cfg: B.Config, v: View, d: real, closes: seq<real>, at: nat)
    requires at < |closes| && forall k :: 0 <= k < |closes| ==> Favour(v.side, closes[k]) <= Favour(v.side, closes[at])
    ensures (exists k :: 0 <= k < |closes| && PastBreakeven(cfg, v.side, v.priceOpen, d, closes[k]))
            <==> PastBreakeven(cfg, v.side, v.priceOpen, d, closes[at])
  {
  }

  /** In every run an open position's stop is the mark of the closes the babysitter has been shown it at. */
  lemma {:induction false} StopByCloses(costs: Costs, cfg: B.Config, events: seq<LoopEvent>, p: Position)
    requires ValidCosts(costs) && cfg.partialFrac >= 0.0 && FairRun(costs, events)
    requires p in BabyRun.Run(costs, cfg, events).sim.positions
    ensures p.stops != []
    ensures var d := if p.stops[0] < p.priceOpen then p.priceOpen - p.stops[0] else p.stops[0] - p.priceOpen;
            IsMark(cfg, p.side, p.priceOpen, p.stops[0], d,
                   ClosesOf(BabyRun.Run(costs, cfg, events).closes, p.ticket), p.sl)
  {
    StopIsHighWater(costs, cfg, events, p);
    var closes := ClosesOf(BabyRun.Run(costs, cfg, events).closes, p.ticket);
    if closes != [] {
      MarkIs(cfg, ViewOf(p), p.stops[0], Abs(p.priceOpen - p.stops[0]), closes);
    }
  }
}
