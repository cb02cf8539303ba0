/** When a stop of the simulator loosens: exactly when a sitter asks for a looser one while the stop
    stands at 0.0, which the simulator takes for "no stop yet". */
module SimStops {
  import opened Prelude
  import opened Models
  import opened Sitters
  import opened Sim

  /** No stop the position has had is tighter than a later one. */
  predicate NeverLooser(p: Position) {
    forall i, j :: 0 <= i < j < |p.stops| ==> !Tighter(p.side, p.stops[i], p.stops[j])
  }

  predicate Recorded(p: Position) {
    p.stops != [] && p.sl == p.stops[|p.stops| - 1]
  }

  predicate AllRecorded(s: State) {
    && (forall i :: 0 <= i < |s.positions| ==> Recorded(s.positions[i]))
    && (forall i :: 0 <= i < |s.closed| ==> Recorded(s.closed[i]))
  }

  /** Open or closed, no position's stop has ever loosened. */
  predicate NoneLooser(s: State) {
    && (forall i :: 0 <= i < |s.positions| ==> NeverLooser(s.positions[i]))
    && (forall i :: 0 <= i < |s.closed| ==> NeverLooser(s.closed[i]))
  }

  // ------------------------------------------------------------------ the guard, action by action

  /** The update passes because the stop is 0.0, and not because it is tighter or the same. */
  predicate Loosens(p: Position, sl: real) {
    p.sl == 0.0 && Tighter(p.side, p.sl, sl)
  }

  predicate ActLoosens(s: State, act: Action) {
    var i := Find(s.positions, act.ticket);
    act.UpdateSl? && i < |s.positions| && Loosens(s.positions[i], act.sl)
  }

  /** One of the actions does, at the point where its turn comes. */
  predicate SomeLoosens(costs: Costs, s: State, acts: seq<Action>, c: Candle)
    decreases |acts|
  {
    acts != [] &&
    var most := acts[..|acts| - 1];
    SomeLoosens(costs, s, most, c) || ActLoosens(ApplyAll(costs, s, most, c), acts[|acts| - 1])
  }

  /** Some bar's sitter asks for one. */
  predicate AskedLooser(costs: Costs, events: seq<Event>)
    decreases |events|
  {
    events != [] &&
    var most, e := events[..|events| - 1], events[|events| - 1];
    || AskedLooser(costs, most)
    || (e.Bar? &&
        var s1 := Before(costs, Run(costs, most), e.c, e.spike);
        SomeLoosens(costs, s1, e.sitter(Views(s1.positions), e.c), e.c))
  }

  // ------------------------------------------------------------------ step by step

  lemma MovedLooser(p: Position, sl: real)
    requires Recorded(p)
    ensures Recorded(Moved(p, sl))
    ensures NeverLooser(Moved(p, sl)) <==> NeverLooser(p) && !Loosens(p, sl)
  {
    var p', n := Moved(p, sl), |p.stops|;
    if p' != p {
      assert p'.stops[n - 1] == p.sl && p'.stops[n] == sl;
      forall i, j | 0 <= i < j < n ensures p'.stops[i] == p.stops[i] && p'.stops[j] == p.stops[j] {}
      if NeverLooser(p) && !Loosens(p, sl) {
        forall i | 0 <= i < n ensures !Tighter(p.side, p'.stops[i], sl) {
          assert i < n - 1 ==> !Tighter(p.side, p.stops[i], p.stops[n - 1]);
        }
      }
    }
  }

  /** Closing, in part or whole, takes no position out of the account. */
  lemma CloseLooser(costs: Costs, s: State, i: nat, px: real, volume: real, reason: Reason)
    requires AllRecorded(s) && i < |s.positions|
    ensures var s' := Close(costs, s, i, px, volume, reason);
            AllRecorded(s') && (NoneLooser(s') <==> NoneLooser(s))
  {
    var s', p := Close(costs, s, i, px, volume, reason), Filled(costs, s.positions[i], px, volume, reason);
    assert NeverLooser(p) == NeverLooser(s.positions[i]) && Recorded(p);
    if p.volume <= EPS {
      assert s'.closed[|s.closed|] == p && s'.closed[..|s.closed|] == s.closed;
      forall j | 0 <= j < |s.positions| && j != i
        ensures s.positions[j] == s'.positions[if j < i then j else j - 1] {}
      if NoneLooser(s') {
        forall j | 0 <= j < |s.closed| ensures NeverLooser(s.closed[j]) {
          assert s'.closed[j] == s.closed[j];
        }
        forall j | 0 <= j < |s.positions| ensures NeverLooser(s.positions[j]) {
          if j != i {
            assert NeverLooser(s'.positions[if j < i then j else j - 1]);
          }
        }
      }
    } else {
      assert s'.positions[i] == p;
      if NoneLooser(s') {
        forall j | 0 <= j < |s.positions| ensures NeverLooser(s.positions[j]) {
          assert NeverLooser(s'.positions[j]);
        }
      }
    }
  }

  lemma {:induction false} StopPassLooser(costs: Costs, s: State, i: nat, c: Candle)
    requires AllRecorded(s) && i <= |s.positions|
    ensures var s' := StopPass(costs, s, i, c);
            AllRecorded(s') && (NoneLooser(s') <==> NoneLooser(s))
    decreases |s.positions| - i
  {
    if i < |s.positions| {
      var p := s.positions[i];
      if Hit(p, c) {
        CloseLooser(costs, s, i, p.sl, p.volume, StopHit);
        StopPassLooser(costs, Close(costs, s, i, p.sl, p.volume, StopHit), i, c);
      } else {
        StopPassLooser(costs, s, i + 1, c);
      }
    }
  }

  lemma {:induction false} FlattenLooser(costs: Costs, s: State, c: Candle)
    requires AllRecorded(s)
    ensures var s' := Flatten(costs, s, c);
            AllRecorded(s') && (NoneLooser(s') <==> NoneLooser(s))
    decreases |s.positions|
  {
    if s.positions != [] {
      var p := s.positions[0];
      CloseLooser(costs, s, 0, ExitPx(costs, p.side, c), p.volume, DailyHalt);
      FlattenLooser(costs, Close(costs, s, 0, ExitPx(costs, p.side, c), p.volume, DailyHalt), c);
    }
  }

  predicate AllNew(ps: seq<Position>) {
    forall i :: 0 <= i < |ps| ==> ps[i].stops == [ps[i].sl]
  }

  lemma {:induction false} FilledAreNew(costs: Costs, os: seq<Pending>, c: Candle)
    ensures AllNew(FillPendings(costs, os, c).1)
    decreases |os|
  {
    if os != [] {
      FilledAreNew(costs, os[..|os| - 1], c);
    }
  }

  lemma EnterLooser(s: State, s': State, ps: seq<Position>)
    requires AllRecorded(s) && AllNew(ps) && s'.positions == s.positions + ps && s'.closed == s.closed
    ensures AllRecorded(s') && (NoneLooser(s') <==> NoneLooser(s))
  {
    forall i | 0 <= i < |ps| ensures NeverLooser(ps[i]) && s'.positions[|s.positions| + i] == ps[i] {}
    forall i | 0 <= i < |s.positions| ensures s'.positions[i] == s.positions[i] {}
  }

  lemma BeforeLooser(costs: Costs, s: State, c: Candle, spike: bool)
    requires AllRecorded(s)
    ensures var s' := Before(costs, s, c, spike);
            AllRecorded(s') && (NoneLooser(s') <==> NoneLooser(s))
  {
    var os := KeepPendings(s.pendings, c.ts, spike);
    var (still, ps) := FillPendings(costs, os, c);
    FilledAreNew(costs, os, c);
    var s1 := s.(pendings := still, positions := s.positions + ps);
    EnterLooser(s, s1, ps);
    StopPassLooser(costs, s1, 0, c);
  }

  lemma ApplyLooser(costs: Costs, s: State, act: Action, c: Candle)
    requires AllRecorded(s)
    ensures var s' := Apply(costs, s, act, c);
            AllRecorded(s') && (NoneLooser(s') <==> NoneLooser(s) && !ActLoosens(s, act))
  {
    var i := Find(s.positions, act.ticket);
    if i < |s.positions| {
      var p := s.positions[i];
      match act
      case PartialClose(_, volume) =>
        CloseLooser(costs, s, i, ExitPx(costs, p.side, c), Min(volume, p.volume), Partial);
      case UpdateSl(_, sl) =>
        MovedLooser(p, sl);
        var s' := Apply(costs, s, act, c);
        assert s'.positions[i] == Moved(p, sl);
        forall j | 0 <= j < |s.positions| && j != i ensures s'.positions[j] == s.positions[j] {}
    }
  }

  lemma {:induction false} ApplyAllLooser(costs: Costs, s: State, acts: seq<Action>, c: Candle)
    requires AllRecorded(s)
    ensures var s' := ApplyAll(costs, s, acts, c);
            AllRecorded(s') && (NoneLooser(s') <==> NoneLooser(s) && !SomeLoosens(costs, s, acts, c))
    decreases |acts|
  {
    if acts != [] {
      ApplyAllLooser(costs, s, acts[..|acts| - 1], c);
      ApplyLooser(costs, ApplyAll(costs, s, acts[..|acts| - 1], c), acts[|acts| - 1], c);
    }
  }

  lemma {:induction false} RunLooser(costs: Costs, events: seq<Event>)
    ensures var s := Run(costs, events);
            AllRecorded(s) && (NoneLooser(s) <==> !AskedLooser(costs, events))
    decreases |events|
  {
    if events != [] {
      var most, e := events[..|events| - 1], events[|events| - 1];
      RunLooser(costs, most);
      var s := Run(costs, most);
      match e
      case Limits(entry, ts) =>
      case Market(entry, ts, lot) =>
        var s' := PlaceMarket(costs, s, entry, ts, lot);
        EnterLooser(s, s', [s'.positions[|s.positions|]]);
      case Bar(c, sitter, spike, halted) =>
        BeforeLooser(costs, s, c, spike);
        var s1 := Before(costs, s, c, spike);
        var acts := sitter(Views(s1.positions), c);
        ApplyAllLooser(costs, s1, acts, c);
        if halted {
          FlattenLooser(costs, ApplyAll(costs, s1, acts, c), c);
        }
    }
  }

  /** Over any run at all, whatever the candles, the entries and the sitters: some position's stop has
      loosened exactly when some sitter has asked for a stop on the losing side of 0.0 while the
      position's stop stood at 0.0. */
  lemma {:induction false} LoosenedExactly(costs: Costs, events: seq<Event>)
    ensures var s := Run(costs, events);
            (exists p <- s.positions + s.closed :: !NeverLooser(p)) <==> AskedLooser(costs, events)
  {
    RunLooser(costs, events);
    var s := Run(costs, events);
    var all := s.positions + s.closed;
    assert forall i :: 0 <= i < |s.positions| ==> s.positions[i] == all[i];
    assert forall i :: 0 <= i < |s.closed| ==> s.closed[i] == all[|s.positions| + i];
    if !NoneLooser(s) {
      if i :| 0 <= i < |s.positions| && !NeverLooser(s.positions[i]) {
        assert all[i] in all;
      } else {
        var j :| 0 <= j < |s.closed| && !NeverLooser(s.closed[j]);
        assert all[|s.positions| + j] in all;
      }
    }
  }

  // ------------------------------------------------------------------ and it happens

  const Free := Costs(0.0, 0.0, 0.0, 1.0)

  /** A sitter that takes the stop to 0.0 and then far away. */
  const Careless: Sitter := (views: seq<View>, c: Candle) => [UpdateSl(1, 0.0), UpdateSl(1, 500.0)]

  const Quiet: Sitter := (views: seq<View>, c: Candle) => []

  function CarelessRun(): seq<Event> {
    [Market(Entry(Short, 100.0, 101.0), 0, 1.0),
     Bar(Candle(60, 100.0, 100.5, 99.5, 100.0, 0.0), Careless, false, false),
     Bar(Candle(120, 400.0, 400.0, 400.0, 400.0, 0.0), Quiet, false, true)]
  }

  lemma {:induction false} RunSnoc(costs: Costs, events: seq<Event>, e: Event)
    ensures Run(costs, events + [e]) == Step(costs, Run(costs, events), e)
  {
    assert (events + [e])[..|events|] == events;
  }

  /** One bar on a single open short with no orders pending, not stopped out. */
  lemma QuietBar(s: State, p: Position, c: Candle, sitter: Sitter)
    requires s.pendings == [] && s.positions == [p] && p.side.Short? && c.high < p.sl
    ensures Before(Free, s, c, false) == s
    ensures OnBar(Free, s, c, sitter, false, false) == ApplyAll(Free, s, sitter(Views([p]), c), c)
  {
    assert KeepPendings([], c.ts, false) == [];
    assert FillPendings(Free, [], c) == ([], []);
    assert s.positions + [] == s.positions;
    assert s.(pendings := [], positions := s.positions + []) == s;
    assert StopPass(Free, s, 1, c) == s;
  }

  lemma OneUpdateOn(s: State, p: Position, sl: real, c: Candle)
    requires s.positions == [p]
    ensures Apply(Free, s, UpdateSl(p.ticket, sl), c) == s.(positions := [Moved(p, sl)])
  {
    assert s.positions[0 := Moved(p, sl)] == [Moved(p, sl)];
  }

  lemma CarelessBar(s: State, p: Position, c: Candle)
    requires s.pendings == [] && s.positions == [p] && p.side.Short? && p.ticket == 1 && c.high < p.sl
    ensures OnBar(Free, s, c, Careless, false, false) == s.(positions := [Moved(Moved(p, 0.0), 500.0)])
  {
    QuietBar(s, p, c, Careless);
    var acts := [UpdateSl(1, 0.0), UpdateSl(1, 500.0)];
    assert acts[..1] == [UpdateSl(1, 0.0)] && acts[..1][..0] == [];
    assert ApplyAll(Free, s, acts[..1], c) == Apply(Free, ApplyAll(Free, s, [], c), UpdateSl(1, 0.0), c);
    OneUpdateOn(s, p, 0.0, c);
    OneUpdateOn(s.(positions := [Moved(p, 0.0)]), Moved(p, 0.0), 500.0, c);
  }

  lemma HaltBar(s: State, p: Position, c: Candle)
    requires s.pendings == [] && s.positions == [p] && p.side.Short? && c.high < p.sl && s.closed == []
    ensures OnBar(Free, s, c, Quiet, false, true).closed ==
            [Filled(Free, p, ExitPx(Free, p.side, c), p.volume, DailyHalt)]
  {
    QuietBar(s, p, c, Quiet);
    var f := Filled(Free, p, ExitPx(Free, p.side, c), p.volume, DailyHalt);
    assert f.volume == 0.0;
    assert s.positions[..0] + s.positions[1..] == [];
    var s1 := Close(Free, s, 0, ExitPx(Free, p.side, c), p.volume, DailyHalt);
    assert s1.closed == [f] && s1.positions == [];
    assert OnBar(Free, s, c, Quiet, false, true) == Flatten(Free, s, c);
    assert Flatten(Free, s, c) == Flatten(Free, s1, c);
  }

  lemma {:induction false} CarelessSoFar()
    ensures CarelessRun()[..2] == [CarelessRun()[0], CarelessRun()[1]]
    ensures var p := Opened(1, Short, 1.0, 100.0, 101.0, 0);
            Run(Free, CarelessRun()[..2]) == State([], [Moved(Moved(p, 0.0), 500.0)], [], 1, 0.0)
  {
    var e0, e1 := CarelessRun()[0], CarelessRun()[1];
    assert CarelessRun()[..2] == [e0] + [e1] && [] + [e0] == [e0];
    CarelessOpens();
    RunSnoc(Free, [e0], e1);
    CarelessBar(Run(Free, [e0]), Opened(1, Short, 1.0, 100.0, 101.0, 0), e1.c);
  }

  lemma {:induction false} CarelessOpens()
    ensures Run(Free, [CarelessRun()[0]]) == State([], [Opened(1, Short, 1.0, 100.0, 101.0, 0)], [], 1, 0.0)
  {
    var e0 := CarelessRun()[0];
    assert [] + [e0] == [e0];
    RunSnoc(Free, [], e0);
  }

  /** A run in which it happens: a market short with its stop at 101, a bar on which the sitter asks
      for 0.0 and then 500.0, and a bar on which trading is halted far above.  The stop has loosened,
      and the position has lost more than its initial risk allows. */
  lemma {:induction false} ZeroStopLoosens()
    ensures var s := Run(Free, CarelessRun());
            && |s.closed| == 1
            && s.closed[0].stops == [101.0, 0.0, 500.0]
            && !NeverLooser(s.closed[0]) && !StopsTighten(s.closed[0])
            && s.closed[0].pnl < -Scaled(s.closed[0].lots, UnitLoss(Free, s.closed[0]))
    ensures AskedLooser(Free, CarelessRun())
  {
    var events, p := CarelessRun(), Opened(1, Short, 1.0, 100.0, 101.0, 0);
    CarelessSoFar();
    assert events == events[..2] + [events[2]];
    RunSnoc(Free, events[..2], events[2]);
    var p2 := Moved(Moved(p, 0.0), 500.0);
    assert p2.stops == [101.0, 0.0, 500.0];
    HaltBar(Run(Free, events[..2]), p2, events[2].c);
    var s := Run(Free, events);
    var gone := s.closed[0];
    assert gone.pnl == -300.0 && UnitLoss(Free, gone) == 1.0;
    assert Tighter(Short, gone.stops[1], gone.stops[2]);
    RunLooser(Free, events);
  }
}
