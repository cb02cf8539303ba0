/** The babysitter: one partial close at a profit target, and a stop that chases the close at the
    trade's own risk distance. */
module Babysitting {
  import opened Prelude
  import opened Models
  import opened Sitters

  datatype Config = Config(partialFrac: real, partialAtR: real, breakevenAtR: real, defaultD: real)

  datatype Trade = Trade(d: real, partialDone: bool)

  function NewTrade(cfg: Config, v: View): Trade {
    Trade(if v.sl != 0.0 then Abs(v.priceOpen - v.sl) else cfg.defaultD, false)
  }

  /** Where the stop should be: at distance d behind the close, not worse than entry once the
      breakeven threshold is reached. */
  function StopTarget(cfg: Config, d: real, v: View, close: real): real {
    var target := if v.side.Long? then close - d else close + d;
    if cfg.breakevenAtR > 0.0 && Profit(v.side, v.priceOpen, close) >= cfg.breakevenAtR * d then
      if v.side.Long? then Max(target, v.priceOpen) else Min(target, v.priceOpen)
    else target
  }

  function TakesPartial(cfg: Config, t: Trade, v: View, close: real): bool {
    !t.partialDone && Profit(v.side, v.priceOpen, close) >= cfg.partialAtR * t.d
  }

  /** The one partial close of a trade. */
  function Bank(cfg: Config, v: View): Action {
    PartialClose(v.ticket, v.volume * cfg.partialFrac)
  }

  function ActionsFor(cfg: Config, t: Trade, v: View, close: real): seq<Action> {
    var target := StopTarget(cfg, t.d, v, close);
    (if TakesPartial(cfg, t, v, close) then [Bank(cfg, v)] else []) +
    (if v.sl == 0.0 || Tighter(v.side, target, v.sl) then [UpdateSl(v.ticket, target)] else [])
  }

  type Book = map<int, Trade>

  function TradeOf(cfg: Config, book: Book, v: View): Trade {
    if v.ticket in book then book[v.ticket] else NewTrade(cfg, v)
  }

  /** One bar over the first positions of the list: the trade states and the actions so far. */
  function Sit(cfg: Config, book: Book, views: seq<View>, close: real): (Book, seq<Action>)
    decreases |views|
  {
    if views == [] then (book, [])
    else
      var v := views[|views| - 1];
      var (most, actions) := Sit(cfg, book, views[..|views| - 1], close);
      var t := TradeOf(cfg, most, v);
      (most[v.ticket := t.(partialDone := t.partialDone || TakesPartial(cfg, t, v, close))],
       actions + ActionsFor(cfg, t, v, close))
  }

  /** `on_bar`: closed tickets are forgotten at the end. */
  function OnBar(cfg: Config, book: Book, views: seq<View>, close: real): (Book, seq<Action>) {
    var (most, actions) := Sit(cfg, book, views, close);
    (map t | t in most && t in Seen(views) :: most[t], actions)
  }

  /** Every stop asked for is strictly tighter than the one of a position it is asked for. */
  predicate AsksTighter(views: seq<View>, actions: seq<Action>) {
    forall i :: 0 <= i < |actions| && actions[i].UpdateSl? ==>
      exists j ::
        0 <= j < |views| && views[j].ticket == actions[i].ticket && Tighter(views[j].side, actions[i].sl, views[j].sl)
  }

  predicate Distances(book: Book) {
    forall t <- book :: book[t].d >= 0.0
  }

  /** Prices and stops are positive, volumes not negative. */
  predicate Sensible(views: seq<View>) {
    forall i :: 0 <= i < |views| ==> views[i].sl > 0.0 && views[i].priceOpen > 0.0 && views[i].volume >= 0.0
  }

  /** With positive prices and stops, whatever the babysitter asks for is sane, and every stop it
      asks for is strictly tighter than the one in place. */
  lemma {:induction false} BabysitterSane(cfg: Config, book: Book, views: seq<View>, close: real)
    requires cfg.partialFrac >= 0.0 && close > 0.0 && Distances(book) && Sensible(views)
    ensures var (book', actions) := OnBar(cfg, book, views, close);
            AllSane(actions) && AsksTighter(views, actions) && Distances(book')
  {
    SitSane(cfg, book, views, close);
  }

  lemma {:induction false} SitSane(cfg: Config, book: Book, views: seq<View>, close: real)
    requires cfg.partialFrac >= 0.0 && close > 0.0 && Distances(book) && Sensible(views)
    ensures var (book', actions) := Sit(cfg, book, views, close);
            AllSane(actions) && AsksTighter(views, actions) && Distances(book')
    decreases |views|
  {
    if views != [] {
      var most, v := views[..|views| - 1], views[|views| - 1];
      SitSane(cfg, book, most, close);
      var (book1, asked) := Sit(cfg, book, most, close);
      var t := TradeOf(cfg, book1, v);
      OneSane(cfg, t, v, close);
      TighterMore(most, v, asked, ActionsFor(cfg, t, v, close));
      assert views == most + [v];
    }
  }

  lemma {:induction false} OneSane(cfg: Config, t: Trade, v: View, close: real)
    requires cfg.partialFrac >= 0.0 && close > 0.0 && t.d >= 0.0
    requires v.sl > 0.0 && v.priceOpen > 0.0 && v.volume >= 0.0
    ensures var acts := ActionsFor(cfg, t, v, close);
            && AllSane(acts)
            && forall i :: 0 <= i < |acts| ==>
                 acts[i].ticket == v.ticket && (acts[i].UpdateSl? ==> Tighter(v.side, acts[i].sl, v.sl))
  {
  }

  lemma {:induction false} TighterMore(most: seq<View>, v: View, asked: seq<Action>, more: seq<Action>)
    requires AsksTighter(most, asked)
    requires forall i :: 0 <= i < |more| ==>
               more[i].ticket == v.ticket && (more[i].UpdateSl? ==> Tighter(v.side, more[i].sl, v.sl))
    ensures AsksTighter(most + [v], asked + more)
  {
    var views, all := most + [v], asked + more;
    forall i | 0 <= i < |all| && all[i].UpdateSl?
      ensures exists j ::
                0 <= j < |views| && views[j].ticket == all[i].ticket && Tighter(views[j].side, all[i].sl, views[j].sl)
    {
      if i < |asked| {
        var j :| 0 <= j < |most| && most[j].ticket == asked[i].ticket && Tighter(most[j].side, asked[i].sl, most[j].sl);
        assert views[j] == most[j];
      } else {
        assert views[|most|] == v && all[i] == more[i - |asked|];
      }
    }
  }

  // ------------------------------------------------------------------ the stop as a high-water mark

  /** The best close so far, seen from the side of the position. */
  function BestClose(side: Direction, closes: seq<real>): real
    requires closes != []
    decreases |closes|
  {
    if |closes| == 1 then closes[0]
    else
      var best := BestClose(side, closes[..|closes| - 1]);
      if Tighter(side, closes[|closes| - 1], best) then closes[|closes| - 1] else best
  }

  /** Whichever protects more. */
  function Tightest(side: Direction, a: real, b: real): real {
    if Tighter(side, a, b) then a else b
  }

  /** The initial stop, or where the stop belongs at the best close so far, whichever is tighter. */
  function HighWater(cfg: Config, d: real, v: View, initial: real, closes: seq<real>): real
    requires closes != []
  {
    Tightest(v.side, StopTarget(cfg, d, v, BestClose(v.side, closes)), initial)
  }

  /** A better close never makes the babysitter want a looser stop, breakeven or not. */
  lemma TargetMonotone(cfg: Config, d: real, v: View, better: real, worse: real)
    requires !Tighter(v.side, worse, better)
    ensures !Tighter(v.side, StopTarget(cfg, d, v, worse), StopTarget(cfg, d, v, better))
  {
  }

  /** One more close, the broker moving the stop when it is asked to: a high-water mark still. */
  lemma {:induction false} HighWaterStep(cfg: Config, d: real, v: View, initial: real, closes: seq<real>, close: real)
    requires closes != []
    ensures HighWater(cfg, d, v, initial, closes + [close]) ==
            Tightest(v.side, StopTarget(cfg, d, v, close), HighWater(cfg, d, v, initial, closes))
  {
    var best := BestClose(v.side, closes);
    assert (closes + [close])[..|closes|] == closes;
    if Tighter(v.side, close, best) {
      TargetMonotone(cfg, d, v, close, best);
    } else {
      TargetMonotone(cfg, d, v, best, close);
    }
  }

  class Babysitter {
    const cfg: Config
    var trades: Book

    constructor (cfg: Config)
      ensures this.cfg == cfg && trades == map[]
    {
      this.cfg := cfg;
      trades := map[];
    }

    method OnCandle(views: seq<View>, close: real) returns (actions: seq<Action>)
      modifies this`trades
      ensures (trades, actions) == OnBar(cfg, old(trades), views, close)
    {
      actions := [];
      var seen := {};
      var i := 0;
      while i < |views|
        invariant 0 <= i <= |views|
        invariant (trades, actions) == Sit(cfg, old(trades), views[..i], close)
        invariant seen == Seen(views[..i])
      {
        assert views[..i + 1][..i] == views[..i];
        var v := views[i];
        assert Seen(views[..i + 1]) == Seen(views[..i]) + {v.ticket};
        seen := seen + {v.ticket};
        var t := if v.ticket in trades then trades[v.ticket] else NewTrade(cfg, v);
        var takes := TakesPartial(cfg, t, v, close);
        var target := StopTarget(cfg, t.d, v, close);
        ghost var partial := if takes then [Bank(cfg, v)] else [];
        ghost var move := if v.sl == 0.0 || Tighter(v.side, target, v.sl) then [UpdateSl(v.ticket, target)] else [];
        ghost var before := actions;
        assert ActionsFor(cfg, t, v, close) == partial + move;
        trades := trades[v.ticket := t.(partialDone := t.partialDone || takes)];
        if takes {
          actions := actions + [Bank(cfg, v)];
        }
        if v.sl == 0.0 || Tighter(v.side, target, v.sl) {
          actions := actions + [UpdateSl(v.ticket, target)];
        }
        assert actions == before + (partial + move);
        i := i + 1;
      }
      assert views[..|views|] == views;
      trades := map t | t in trades && t in seen :: trades[t];
    }
  }
}
