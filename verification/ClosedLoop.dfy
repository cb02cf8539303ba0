/** A manager's list of actions, applied by the simulator, position by position. */
module ClosedLoop {
  import opened Prelude
  import opened Models
  import opened Sitters
  import opened Sim
  import opened SimTickets
  import Ladder

  // ------------------------------------------------------------------ one position's own actions

  /** What its own actions make of a position: still open, or closed in this final form. */
  datatype Fate = Live(p: Position) | Gone(p: Position)

  function AfterFill(p: Position): Fate {
    if p.volume <= EPS then Gone(p) else Live(p)
  }

  function OwnOne(costs: Costs, p: Position, act: Action, c: Candle): Fate {
    match act
    case PartialClose(_, volume) =>
      AfterFill(Filled(costs, p, ExitPx(costs, p.side, c), Min(volume, p.volume), Partial))
    case UpdateSl(_, sl) => Live(Moved(p, sl))
  }

  function Own(costs: Costs, p: Position, acts: seq<Action>, c: Candle): Fate {
    if acts == [] then Live(p)
    else
      var f := Own(costs, p, acts[..|acts| - 1], c);
      if f.Gone? then f else OwnOne(costs, f.p, acts[|acts| - 1], c)
  }

  function LiveOf(f: Fate): seq<Position> {
    if f.Live? then [f.p] else []
  }

  function GoneOf(f: Fate): seq<Position> {
    if f.Gone? then [f.p] else []
  }

  predicate NoTicket(ps: seq<Position>, ticket: int) {
    forall i :: 0 <= i < |ps| ==> ps[i].ticket != ticket
  }

  lemma {:induction false} FindMiddle(xs: seq<Position>, p: Position, ys: seq<Position>)
    requires NoTicket(xs, p.ticket)
    ensures Find(xs + [p] + ys, p.ticket) == |xs|
  {
    var ps := xs + [p] + ys;
    if xs != [] {
      assert ps[0] == xs[0];
      assert ps[1..] == xs[1..] + [p] + ys;
      FindMiddle(xs[1..], p, ys);
    }
  }

  /** What of a simulator state the ladder's work is about. */
  predicate SameElse(s: State, t: State) {
    s.pendings == t.pendings && s.ticket == t.ticket
  }

  /** An action on a position touches that position only. */
  lemma ApplyAt(costs: Costs, s: State, xs: seq<Position>, p: Position, ys: seq<Position>, act: Action, c: Candle)
    requires s.positions == xs + [p] + ys && NoTicket(xs, p.ticket) && act.ticket == p.ticket
    ensures var s', f := Apply(costs, s, act, c), OwnOne(costs, p, act, c);
            s'.positions == xs + LiveOf(f) + ys && s'.closed == s.closed + GoneOf(f) && SameElse(s, s')
  {
    FindMiddle(xs, p, ys);
    assert s.positions[..|xs|] == xs && s.positions[|xs| + 1..] == ys;
    assert s.positions[|xs|] == p;
    var f := OwnOne(costs, p, act, c);
    if f.Gone? {
      assert xs + [] + ys == xs + ys;
    } else {
      assert s.positions[|xs| := f.p] == xs + [f.p] + ys;
    }
  }

  lemma ApplyAway(costs: Costs, s: State, act: Action, c: Candle)
    requires NoTicket(s.positions, act.ticket)
    ensures Apply(costs, s, act, c) == s
  {
  }

  /** `s'` is `s` with one position, between `xs` and `ys`, replaced by its fate. */
  predicate Replaced(s: State, s': State, xs: seq<Position>, f: Fate, ys: seq<Position>) {
    s'.positions == xs + LiveOf(f) + ys && s'.closed == s.closed + GoneOf(f) && SameElse(s, s')
  }

  lemma ApplyMore(costs: Costs, s: State, s1: State, xs: seq<Position>, f: Fate, ys: seq<Position>, act: Action,
                  c: Candle)
    requires Replaced(s, s1, xs, f, ys) && act.ticket == f.p.ticket
    requires NoTicket(xs, f.p.ticket) && NoTicket(ys, f.p.ticket)
    ensures Replaced(s, Apply(costs, s1, act, c), xs, if f.Gone? then f else OwnOne(costs, f.p, act, c), ys)
  {
    if f.Live? {
      assert s1.closed == s.closed;
      ApplyAt(costs, s1, xs, f.p, ys, act, c);
    } else {
      assert s1.positions == xs + ys;
      ApplyAway(costs, s1, act, c);
    }
  }

  lemma {:induction false} ApplyOwn(costs: Costs, s: State, xs: seq<Position>, p: Position, ys: seq<Position>,
                                    acts: seq<Action>, c: Candle)
    requires s.positions == xs + [p] + ys && NoTicket(xs, p.ticket) && NoTicket(ys, p.ticket)
    requires forall i :: 0 <= i < |acts| ==> acts[i].ticket == p.ticket
    ensures Replaced(s, ApplyAll(costs, s, acts, c), xs, Own(costs, p, acts, c), ys)
  {
    if acts == [] {
      assert s.closed + [] == s.closed;
    } else {
      var most := acts[..|acts| - 1];
      ApplyOwn(costs, s, xs, p, ys, most, c);
      OwnTicket(costs, p, most, c);
      ApplyMore(costs, s, ApplyAll(costs, s, most, c), xs, Own(costs, p, most, c), ys, acts[|acts| - 1], c);
    }
  }

  lemma {:induction false} ApplyAllConcat(costs: Costs, s: State, a: seq<Action>, b: seq<Action>, c: Candle)
    ensures ApplyAll(costs, s, a + b, c) == ApplyAll(costs, ApplyAll(costs, s, a, c), b, c)
  {
    if b == [] {
      assert a + b == a;
    } else {
      assert (a + b)[..|a + b| - 1] == a + b[..|b| - 1];
      ApplyAllConcat(costs, s, a, b[..|b| - 1], c);
    }
  }

  lemma {:induction false} OwnTicket(costs: Costs, p: Position, acts: seq<Action>, c: Candle)
    ensures Own(costs, p, acts, c).p.ticket == p.ticket
  {
    if acts != [] {
      OwnTicket(costs, p, acts[..|acts| - 1], c);
    }
  }

  lemma NoneAfter(most: seq<Position>, p: Position, rest: seq<Position>)
    requires DistinctTickets(most + ([p] + rest))
    ensures NoTicket(most, p.ticket) && NoTicket(rest, p.ticket)
  {
    var ps := most + ([p] + rest);
    assert ps[|most|] == p;
    forall i | 0 <= i < |most| ensures most[i].ticket != p.ticket {
      assert ps[i] == most[i];
    }
    forall i | 0 <= i < |rest| ensures rest[i].ticket != p.ticket {
      assert ps[|most| + 1 + i] == rest[i];
    }
  }

  // ------------------------------------------------------------------ every position its own part

  /** Each part of a list of actions is about one position. */
  predicate PartsFit(ps: seq<Position>, parts: seq<seq<Action>>) {
    && |parts| == |ps|
    && forall i, j :: 0 <= i < |parts| && 0 <= j < |parts[i]| ==> parts[i][j].ticket == ps[i].ticket
  }

  function Joined(parts: seq<seq<Action>>): seq<Action>
    decreases |parts|
  {
    if parts == [] then [] else Joined(parts[..|parts| - 1]) + parts[|parts| - 1]
  }

  /** The positions that live on after their own parts, and those that have closed. */
  function Lives(costs: Costs, ps: seq<Position>, parts: seq<seq<Action>>, c: Candle): seq<Position>
    requires |parts| == |ps|
    decreases |ps|
  {
    if ps == [] then []
    else
      var n := |ps| - 1;
      Lives(costs, ps[..n], parts[..n], c) + LiveOf(Own(costs, ps[n], parts[n], c))
  }

  function Deaths(costs: Costs, ps: seq<Position>, parts: seq<seq<Action>>, c: Candle): seq<Position>
    requires |parts| == |ps|
    decreases |ps|
  {
    if ps == [] then []
    else
      var n := |ps| - 1;
      Deaths(costs, ps[..n], parts[..n], c) + GoneOf(Own(costs, ps[n], parts[n], c))
  }

  lemma {:induction false} LivesTickets(costs: Costs, ps: seq<Position>, parts: seq<seq<Action>>, c: Candle,
                                        ticket: int)
    requires |parts| == |ps| && NoTicket(ps, ticket)
    ensures NoTicket(Lives(costs, ps, parts, c), ticket)
    decreases |ps|
  {
    if ps != [] {
      var n := |ps| - 1;
      LivesTickets(costs, ps[..n], parts[..n], c, ticket);
      OwnTicket(costs, ps[n], parts[n], c);
    }
  }

  /** Same tickets, in order, some missing. */
  predicate TicketsWithin(ps: seq<Position>, lives: seq<Position>) {
    forall i :: 0 <= i < |lives| ==> !NoTicket(ps, lives[i].ticket)
  }

  lemma {:induction false} LivesWithin(costs: Costs, ps: seq<Position>, parts: seq<seq<Action>>, c: Candle)
    requires |parts| == |ps| && DistinctTickets(ps)
    ensures var lives := Lives(costs, ps, parts, c);
            TicketsWithin(ps, lives) && DistinctTickets(lives)
    decreases |ps|
  {
    if ps != [] {
      var n := |ps| - 1;
      var most, p := ps[..n], ps[n];
      LivesWithin(costs, most, parts[..n], c);
      var lives := Lives(costs, most, parts[..n], c);
      OwnTicket(costs, p, parts[n], c);
      forall i | 0 <= i < |lives| ensures !NoTicket(ps, lives[i].ticket) && lives[i].ticket != p.ticket {
        var j :| 0 <= j < |most| && most[j].ticket == lives[i].ticket;
        assert ps[j].ticket == lives[i].ticket;
      }
      assert ps[n].ticket == p.ticket;
    }
  }

  /** The manager's whole bar, position by position: who lives on, who has closed. */
  predicate Managed(costs: Costs, s: State, s': State, ps: seq<Position>, parts: seq<seq<Action>>, rest: seq<Position>,
                    c: Candle)
    requires |parts| == |ps|
  {
    && s'.positions == Lives(costs, ps, parts, c) + rest
    && s'.closed == s.closed + Deaths(costs, ps, parts, c)
    && SameElse(s, s')
  }

  lemma ManagedMore(costs: Costs, s: State, s1: State, s': State, most: seq<Position>, p: Position, rest: seq<Position>,
                    parts: seq<seq<Action>>, c: Candle)
    requires |parts| == |most| + 1
    requires Managed(costs, s, s1, most, parts[..|most|], [p] + rest, c)
    requires Replaced(s1, s', Lives(costs, most, parts[..|most|], c), Own(costs, p, parts[|most|], c), rest)
    ensures Managed(costs, s, s', most + [p], parts, rest, c)
  {
    assert (most + [p])[..|most|] == most;
  }

  /** For positions with distinct tickets a list of actions, applied in order, does to each position
      exactly what its own part of the list says. */
  lemma {:induction false} PartsApply(costs: Costs, s: State, ps: seq<Position>, parts: seq<seq<Action>>,
                                      rest: seq<Position>, c: Candle)
    requires s.positions == ps + rest && DistinctTickets(ps + rest) && PartsFit(ps, parts)
    ensures Managed(costs, s, ApplyAll(costs, s, Joined(parts), c), ps, parts, rest, c)
    decreases |ps|
  {
    if ps == [] {
      assert [] + rest == rest && s.closed + [] == s.closed;
    } else {
      var n := |ps| - 1;
      var most, p := ps[..n], ps[n];
      assert ps == most + [p] && ps + rest == most + ([p] + rest);
      PartsApply(costs, s, most, parts[..n], [p] + rest, c);
      NoneAfter(most, p, rest);
      ApplyAllConcat(costs, s, Joined(parts[..n]), parts[n], c);
      var s1 := ApplyAll(costs, s, Joined(parts[..n]), c);
      LivesTickets(costs, most, parts[..n], c, p.ticket);
      var lives := Lives(costs, most, parts[..n], c);
      assert s1.positions == lives + [p] + rest;
      ApplyOwn(costs, s1, lives, p, rest, parts[n], c);
      ManagedMore(costs, s, s1, ApplyAll(costs, s1, parts[n], c), most, p, rest, parts, c);
    }
  }

  lemma SeenTickets(ps: seq<Position>, t: int)
    ensures t in Seen(Views(ps)) <==> !NoTicket(ps, t)
  {
    var views := Views(ps);
    assert forall i :: 0 <= i < |ps| ==> views[i].ticket == ps[i].ticket;
    SeenView(views, t);
  }

  lemma SeenView(views: seq<View>, t: int)
    ensures t in Seen(views) <==> !forall i :: 0 <= i < |views| ==> views[i].ticket != t
  {
  }

  lemma SweepTickets(s: State, lives: seq<Position>)
    requires TicketsOk(s.positions, s.pendings, s.ticket)
    requires TicketsWithin(s.positions, lives) && DistinctTickets(lives)
    ensures TicketsOk(lives, s.pendings, s.ticket)
  {
    forall i | 0 <= i < |lives| ensures NoOrder(s.pendings, lives[i].ticket) && lives[i].ticket <= s.ticket {
      assert !NoTicket(s.positions, lives[i].ticket);
      var j :| 0 <= j < |s.positions| && s.positions[j].ticket == lives[i].ticket;
    }
  }

  // ------------------------------------------------------------------ the ladder's list

  /** The ladder's actions on each position. */
  function Parts(cfg: Ladder.Config, book: Ladder.Book, ps: seq<Position>, tick: Ladder.Tick): (r: seq<seq<Action>>)
    requires Ladder.ValidConfig(cfg) && Ladder.BookOk(book)
    ensures |r| == |ps|
    decreases |ps|
  {
    if ps == [] then []
    else
      var p := ps[|ps| - 1];
      Parts(cfg, book, ps[..|ps| - 1], tick) + [Ladder.Manage(cfg, Ladder.Lookup(book, p.ticket), ViewOf(p), tick).1]
  }

  lemma {:induction false} PartsLast(cfg: Ladder.Config, book: Ladder.Book, ps: seq<Position>, tick: Ladder.Tick)
    requires Ladder.ValidConfig(cfg) && Ladder.BookOk(book) && ps != []
    ensures var n, parts := |ps| - 1, Parts(cfg, book, ps, tick);
            && parts[..n] == Parts(cfg, book, ps[..n], tick)
            && parts[n] == Ladder.Manage(cfg, Ladder.Lookup(book, ps[n].ticket), ViewOf(ps[n]), tick).1
  {
  }

  /** The sweep leaves the trades of positions it has not come to alone. */
  lemma {:induction false} SweepBook(cfg: Ladder.Config, book: Ladder.Book, views: seq<View>, tick: Ladder.Tick,
                                     ticket: int)
    requires Ladder.ValidConfig(cfg) && Ladder.BookOk(book)
    requires forall i :: 0 <= i < |views| ==> views[i].ticket != ticket
    ensures Ladder.Lookup(Ladder.Sweep(cfg, book, views, tick).0, ticket) == Ladder.Lookup(book, ticket)
  {
    if views != [] {
      SweepBook(cfg, book, views[..|views| - 1], tick, ticket);
    }
  }

  lemma SweepSnoc(cfg: Ladder.Config, book: Ladder.Book, most: seq<Position>, p: Position, tick: Ladder.Tick)
    requires Ladder.ValidConfig(cfg) && Ladder.BookOk(book) && NoTicket(most, p.ticket)
    ensures Ladder.Sweep(cfg, book, Views(most + [p]), tick).1 ==
            Ladder.Sweep(cfg, book, Views(most), tick).1 +
            Ladder.Manage(cfg, Ladder.Lookup(book, p.ticket), ViewOf(p), tick).1
  {
    var views := Views(most + [p]);
    assert views[..|views| - 1] == Views(most);
    SweepBook(cfg, book, Views(most), tick, p.ticket);
  }

  lemma {:induction false} PartsAreFit(cfg: Ladder.Config, book: Ladder.Book, ps: seq<Position>, tick: Ladder.Tick)
    requires Ladder.ValidConfig(cfg) && Ladder.BookOk(book)
    ensures PartsFit(ps, Parts(cfg, book, ps, tick))
    decreases |ps|
  {
    if ps != [] {
      var p := ps[|ps| - 1];
      PartsAreFit(cfg, book, ps[..|ps| - 1], tick);
      PartsLast(cfg, book, ps, tick);
      ManageTickets(cfg, Ladder.Lookup(book, p.ticket), ViewOf(p), tick);
    }
  }

  lemma {:induction false} SweepIsParts(cfg: Ladder.Config, book: Ladder.Book, ps: seq<Position>, tick: Ladder.Tick)
    requires Ladder.ValidConfig(cfg) && Ladder.BookOk(book) && DistinctTickets(ps)
    ensures Ladder.Sweep(cfg, book, Views(ps), tick).1 == Joined(Parts(cfg, book, ps, tick))
    decreases |ps|
  {
    if ps == [] {
      assert Views(ps) == [];
    } else {
      var n := |ps| - 1;
      var most, p := ps[..n], ps[n];
      SweepIsParts(cfg, book, most, tick);
      PartsLast(cfg, book, ps, tick);
      assert ps == most + [p];
      SweepSnoc(cfg, book, most, p, tick);
    }
  }

  /** The ladder's list of actions, applied in order, does to each position exactly what the manager
      asked for it. */
  lemma {:induction false} SweepApplies(costs: Costs, cfg: Ladder.Config, book: Ladder.Book, s: State,
                                        tick: Ladder.Tick)
    requires Ladder.ValidConfig(cfg) && Ladder.BookOk(book) && DistinctTickets(s.positions)
    ensures var ps := s.positions;
            Managed(costs, s, ApplyAll(costs, s, Ladder.Sweep(cfg, book, Views(ps), tick).1, tick.c),
                    ps, Parts(cfg, book, ps, tick), [], tick.c)
  {
    PartsAreFit(cfg, book, s.positions, tick);
    SweepIsParts(cfg, book, s.positions, tick);
    assert s.positions + [] == s.positions;
    PartsApply(costs, s, s.positions, Parts(cfg, book, s.positions, tick), [], tick.c);
  }

  lemma ManageTickets(cfg: Ladder.Config, tr: Option<Ladder.Trade>, v: View, tick: Ladder.Tick)
    requires Ladder.ValidConfig(cfg) && Ladder.TradeFor(cfg, tr, v).d > 0.0
    ensures var acts := Ladder.Manage(cfg, tr, v, tick).1;
            forall i :: 0 <= i < |acts| ==> acts[i].ticket == v.ticket
  {
    Ladder.OneUpdate(cfg, tr, v, tick);
  }
}
