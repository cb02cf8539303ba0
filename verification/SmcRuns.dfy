/** What holds of the multi-timeframe engine in every run. */
module SmcRuns {
  import opened Prelude
  import opened Models
  import opened Indicators
  import opened SmcEngine
  import Aggregation
  import Structure
  import OrderBlocks
  import Profile

  // ------------------------------------------------------------------ transitions

  predicate Legal(t: Transition) {
    match t.event
    case Disarm => t.from == Armed && t.to == Idle
    case Arm => t.from == Idle && t.to == Armed
    case Enter(_) => t.from == Armed && t.to == InTrade
    case ExitBroker => t.from == InTrade && t.to == Armed
  }

  function EndOf(log: seq<Transition>): Phase {
    if log == [] then Idle else log[|log| - 1].to
  }

  /** Legal edges, each starting where the one before it ended. */
  predicate IsPath(log: seq<Transition>) {
    forall i :: 0 <= i < |log| ==> Legal(log[i]) && log[i].from == EndOf(log[..i])
  }

  lemma {:induction false} PathGrows(log: seq<Transition>, t: Transition)
    requires IsPath(log) && Legal(t) && t.from == EndOf(log)
    ensures IsPath(log + [t]) && EndOf(log + [t]) == t.to
  {
    var more := log + [t];
    forall i | 0 <= i < |more| ensures Legal(more[i]) && more[i].from == EndOf(more[..i]) {
      assert more[..i] == log[..i];
      assert log[..|log|] == log;
    }
  }

  // ------------------------------------------------------------------ signals

  /** What the signals so far leave open. */
  datatype Holding = Flat | Holds(dir: Direction, stop: real)

  function Accept(h: Holding, s: Signal): Option<Holding> {
    match s.kind
    case Entry => if h.Flat? then Some(Holds(s.dir, s.stop)) else None
    case Exit => if h == Holds(s.dir, s.stop) && s.price == s.stop then Some(Flat) else None
  }

  /** Entries and exits in turn, each exit for the direction and the stop of the entry before it. */
  function Read(signals: seq<Signal>): Option<Holding>
    decreases |signals|
  {
    if signals == [] then Some(Flat)
    else
      var before := Read(signals[..|signals| - 1]);
      if before.None? then None else Accept(before.value, signals[|signals| - 1])
  }

  lemma {:induction false} ReadGrows(signals: seq<Signal>, s: Signal)
    ensures Read(signals + [s]) ==
            if Read(signals).None? then None else Accept(Read(signals).value, s)
  {
    assert (signals + [s])[..|signals|] == signals;
  }

  function HoldingOf(pos: Option<Position>): Holding {
    if pos.None? then Flat else Holds(pos.value.dir, pos.value.stop)
  }

  /** The stop lies on the losing side of the price, at most `maxDist` away. */
  predicate Protective(cfg: Config, s: Signal) {
    && 0.0 < Abs(s.price - s.stop) <= cfg.risk.maxDist
    && if s.dir.Long? then s.stop < s.price else s.price < s.stop
  }

  predicate EntriesProtective(cfg: Config, signals: seq<Signal>) {
    forall i :: 0 <= i < |signals| && signals[i].kind.Entry? ==> Protective(cfg, signals[i])
  }

  // ------------------------------------------------------------------ entries per day

  function CountOf(dates: seq<int>, d: int): nat
    decreases |dates|
  {
    if dates == [] then 0
    else CountOf(dates[..|dates| - 1], d) + if dates[|dates| - 1] == d then 1 else 0
  }

  lemma {:induction false} CountGrows(dates: seq<int>, x: int, d: int)
    ensures CountOf(dates + [x], d) == CountOf(dates, d) + if x == d then 1 else 0
  {
    assert (dates + [x])[..|dates|] == dates;
  }

  lemma {:induction false} CountNone(dates: seq<int>, d: int)
    requires forall i :: 0 <= i < |dates| ==> dates[i] != d
    ensures CountOf(dates, d) == 0
    decreases |dates|
  {
    if dates != [] {
      CountNone(dates[..|dates| - 1], d);
    }
  }

  ghost predicate CountsBounded(dates: seq<int>, most: int) {
    forall d :: CountOf(dates, d) <= most
  }

  /** Entries are dated no later than today, and today's are the ones counted. */
  ghost predicate DayInv(cfg: Config, day: Day, dates: seq<int>) {
    && CountsBounded(dates, cfg.risk.maxTrades)
    && (day.date.None? ==> dates == [] && day.traded == 0)
    && (day.date.Some? ==>
          && (forall i :: 0 <= i < |dates| ==> dates[i] <= day.date.value)
          && day.traded == CountOf(dates, day.date.value))
  }

  // ------------------------------------------------------------------ the invariant

  function EntriesIn(signals: seq<Signal>): nat
    decreases |signals|
  {
    if signals == [] then 0
    else EntriesIn(signals[..|signals| - 1]) + One(signals[|signals| - 1].kind.Entry?)
  }

  lemma {:induction false} EntriesGrow(signals: seq<Signal>, s: Signal)
    ensures EntriesIn(signals + [s]) == EntriesIn(signals) + One(s.kind.Entry?)
  {
    assert (signals + [s])[..|signals|] == signals;
  }

  predicate Story(cfg: Config, e: Engine) {
    && (e.phase.InTrade? <==> e.pos.Some?)
    && IsPath(e.trace.log) && EndOf(e.trace.log) == e.phase
    && Read(e.trace.signals) == Some(HoldingOf(e.pos))
    && EntriesProtective(cfg, e.trace.signals)
  }

  predicate Sound(v: Views) {
    && (v.trigger.cur.Some? ==> Valid(v.trigger.cur.value))
    && (v.htf.cur.Some? ==> Valid(v.htf.cur.value))
    && (v.d1.cur.Some? ==> Valid(v.d1.cur.value))
  }

  ghost predicate Inv(cfg: Config, e: Engine) {
    && Story(cfg, e)
    && Sound(e.views)
    && (e.last.None? <==> e.day.date.None?)
    && (e.last.Some? ==> e.day.date == Some(DateOf(e.last.value)))
    && DayInv(cfg, e.day, e.trace.entryDates)
    && EntriesIn(e.trace.signals) == |e.trace.entryDates|
  }

  // ------------------------------------------------------------------ steps of a decision

  lemma MoveKeeps(e: Engine, ts: int, to: Phase, event: Event)
    requires IsPath(e.trace.log) && EndOf(e.trace.log) == e.phase
    requires Legal(Transition(ts, e.phase, to, event))
    ensures var e' := Move(e, ts, to, event);
            IsPath(e'.trace.log) && EndOf(e'.trace.log) == e'.phase == to
  {
    PathGrows(e.trace.log, Transition(ts, e.phase, to, event));
  }

  /** On a sound bar the stop is on the losing side, at least `buffer` away from everything that
      invalidates the trade. */
  lemma StopBeyond(cfg: Config, bar: Candle, dir: Direction, poi: Poi, swept: Option<real>)
    requires ValidConfig(cfg) && Valid(bar)
    ensures var stop := StopFor(cfg, bar, dir, poi, swept);
            && Abs(bar.close - stop) >= cfg.risk.buffer
            && (dir.Long? ==>
                  && stop < bar.close && stop <= bar.low - cfg.risk.buffer
                  && (poi.DayBlock? || poi.HtfBlock? ==> stop <= poi.ob.bottom - cfg.risk.buffer)
                  && (swept.Some? ==> stop <= swept.value - cfg.risk.buffer))
            && (dir.Short? ==>
                  && stop > bar.close && stop >= bar.high + cfg.risk.buffer
                  && (poi.DayBlock? || poi.HtfBlock? ==> stop >= poi.ob.top + cfg.risk.buffer)
                  && (swept.Some? ==> stop >= swept.value + cfg.risk.buffer))
  {
  }

  lemma OpenKeeps(cfg: Config, e: Engine, bar: Candle, dir: Direction, stop: real)
    requires Story(cfg, e) && e.phase == Armed && Affordable(cfg, bar, stop)
    requires if dir.Long? then stop < bar.close else bar.close < stop
    ensures Story(cfg, Open(e, bar, dir, stop))
  {
    MoveKeeps(e, bar.ts, InTrade, Enter(dir));
    ReadGrows(e.trace.signals, Signal(Entry, bar.ts, dir, bar.close, stop, 0));
  }

  /** Whether this decision gets as far as looking for a point of interest. */
  predicate Looks(cfg: Config, e: Engine, bar: Candle, event: Option<Structure.Event>)
    requires ValidConfig(cfg)
  {
    && e.pos.None? && Bias(e.views).Some? && e.day.traded < cfg.risk.maxTrades
    && Votes(cfg, e, bar, event, Bias(e.views).value) + 1 >= cfg.gates.needed
  }

  lemma ArmedVotes(cfg: Config, e: Engine, bar: Candle, event: Option<Structure.Event>, bias: Direction)
    requires ValidConfig(cfg)
    ensures var e1 := ArmedNow(e, bar.ts);
            && Votes(cfg, e1, bar, event, bias) == Votes(cfg, e, bar, event, bias)
            && Resolve(cfg, e1, bar, bias) == Resolve(cfg, e, bar, bias)
            && Sweep(e1, bar, bias) == Sweep(e, bar, bias)
  {
  }

  function PoiOf(cfg: Config, e: Engine, bar: Candle): Poi {
    if Bias(e.views).None? then Nowhere else Resolve(cfg, e, bar, Bias(e.views).value).1
  }

  /** Where the stop of an entry would go. */
  function StopOf(cfg: Config, e: Engine, bar: Candle): real
    requires Bias(e.views).Some?
  {
    var bias := Bias(e.views).value;
    StopFor(cfg, bar, bias, PoiOf(cfg, e, bar), Sweep(e, bar, bias))
  }

  predicate Enters(cfg: Config, e: Engine, bar: Candle, event: Option<Structure.Event>)
    requires ValidConfig(cfg)
  {
    Looks(cfg, e, bar, event) && !PoiOf(cfg, e, bar).Nowhere? && Affordable(cfg, bar, StopOf(cfg, e, bar))
  }

  /** Armed, disarmed or left alone. */
  function Poised(e: Engine, ts: int): Engine {
    if e.pos.Some? then e else if Bias(e.views).None? then Disarmed(e, ts) else ArmedNow(e, ts)
  }

  lemma PoisedKeeps(cfg: Config, e: Engine, ts: int)
    requires Story(cfg, e)
    ensures var e1 := Poised(e, ts);
            && Story(cfg, e1)
            && e1 == e.(phase := e1.phase, trace := e.trace.(log := e1.trace.log))
            && (e.pos.None? && Bias(e.views).Some? ==> e1.phase == Armed)
  {
    if e.pos.None? && Bias(e.views).None? && e.phase != Idle {
      MoveKeeps(e, ts, Idle, Disarm);
    } else if e.pos.None? && Bias(e.views).Some? && e.phase != Armed {
      MoveKeeps(e, ts, Armed, Arm);
    }
  }

  /** The zones after a decision: those it was made with unless it looks for a point of interest. */
  function ZonesAfter(cfg: Config, e: Engine, bar: Candle, event: Option<Structure.Event>): Zones
    requires ValidConfig(cfg)
  {
    if Looks(cfg, e, bar, event) then Resolve(cfg, e, bar, Bias(e.views).value).0 else e.zones
  }

  /** The branches of a decision, put together. */
  lemma DecideIs(cfg: Config, e: Engine, bar: Candle, event: Option<Structure.Event>)
    requires ValidConfig(cfg)
    ensures var e1 := Poised(e, bar.ts).(zones := ZonesAfter(cfg, e, bar, event));
            Decide(cfg, e, bar, event) ==
            if Enters(cfg, e, bar, event) then Open(e1, bar, Bias(e.views).value, StopOf(cfg, e, bar)) else e1
  {
    var bias := Bias(e.views);
    if e.pos.None? && bias.Some? {
      ArmedVotes(cfg, e, bar, event, bias.value);
    }
  }

  /** A decision enters exactly when it is flat with a bias and entries to spare, enough checks hold, a
      point of interest is found and the stop is close enough; it then enters with the bias. */
  lemma DecideExact(cfg: Config, e: Engine, bar: Candle, event: Option<Structure.Event>)
    requires ValidConfig(cfg) && Valid(bar) && Story(cfg, e)
    ensures var e' := Decide(cfg, e, bar, event);
            && Story(cfg, e')
            && e'.zones == ZonesAfter(cfg, e, bar, event)
            && (e.pos.Some? ==> e'.pos == e.pos && e'.trace == e.trace)
            && (e.pos.None? ==> (e'.pos.Some? <==> Enters(cfg, e, bar, event)))
            && e'.trace.signals == e.trace.signals +
               (if Enters(cfg, e, bar, event)
                then [Signal(Entry, bar.ts, Bias(e.views).value, bar.close, StopOf(cfg, e, bar), 0)] else [])
  {
    DecideIs(cfg, e, bar, event);
    PoisedKeeps(cfg, e, bar.ts);
    var e1 := Poised(e, bar.ts).(zones := ZonesAfter(cfg, e, bar, event));
    assert Story(cfg, e1);
    if Enters(cfg, e, bar, event) {
      var bias := Bias(e.views).value;
      StopBeyond(cfg, bar, bias, PoiOf(cfg, e, bar), Sweep(e, bar, bias));
      OpenKeeps(cfg, e1, bar, bias, StopOf(cfg, e, bar));
    } else {
      assert e.trace.signals + [] == e.trace.signals;
    }
  }

  /** What a decision leaves alone. */
  lemma DecideFrame(cfg: Config, e: Engine, bar: Candle, event: Option<Structure.Event>)
    requires ValidConfig(cfg)
    ensures var e' := Decide(cfg, e, bar, event);
            && e'.views == e.views && e'.gauges == e.gauges && e'.memory == e.memory && e'.last == e.last
            && e'.trace.entryDates == e.trace.entryDates
            && e'.day == e.day.(traded := e.day.traded + One(Enters(cfg, e, bar, event)))
            && (Enters(cfg, e, bar, event) ==> e.day.traded < cfg.risk.maxTrades)
  {
    DecideIs(cfg, e, bar, event);
  }

  // ------------------------------------------------------------------ blocks used up

  function UnspentIn(xs: seq<OrderBlocks.Block>): nat
    decreases |xs|
  {
    if xs == [] then 0 else UnspentIn(xs[..|xs| - 1]) + One(!xs[|xs| - 1].mitigated)
  }

  function Unspent(z: OrderBlocks.Zones): nat {
    UnspentIn(z.longs.active) + UnspentIn(z.shorts.active)
  }

  function UnspentAll(z: Zones): nat {
    Unspent(z.htf) + Unspent(z.d1)
  }

  lemma {:induction false} SpendingOne(xs: seq<OrderBlocks.Block>, i: nat)
    requires i < |xs| && !xs[i].mitigated
    ensures UnspentIn(xs[i := xs[i].(mitigated := true)]) == UnspentIn(xs) - 1
    decreases |xs|
  {
    var n, xs' := |xs| - 1, xs[i := xs[i].(mitigated := true)];
    if i == n {
      assert xs'[..n] == xs[..n];
    } else {
      assert xs'[..n] == xs[..n][i := xs[i].(mitigated := true)];
      SpendingOne(xs[..n], i);
    }
  }

  lemma AskingSpends(z: OrderBlocks.Zones, lo: real, hi: real, d: Direction)
    ensures var (z', r) := OrderBlocks.PoiAt(z, lo, hi, d);
            Unspent(z') == Unspent(z) - One(r.Some?) && (r.None? <==> z' == z)
  {
    var lane := OrderBlocks.LaneOf(z, d);
    var i := OrderBlocks.Pick(lane.active, lo, hi);
    if i < |lane.active| {
      SpendingOne(lane.active, i);
    }
  }

  /** Whether the decision uses up a block. */
  predicate UsesBlock(cfg: Config, e: Engine, bar: Candle, event: Option<Structure.Event>)
    requires ValidConfig(cfg)
  {
    Looks(cfg, e, bar, event) && (PoiOf(cfg, e, bar).DayBlock? || PoiOf(cfg, e, bar).HtfBlock?)
  }

  /** A decision uses up one block or none, and only once the read-only checks leave no more than the
      point of interest to find and no point of control is near. */
  lemma OneBlockPerDecision(cfg: Config, e: Engine, bar: Candle, event: Option<Structure.Event>)
    requires ValidConfig(cfg)
    ensures var e' := Decide(cfg, e, bar, event);
            && UnspentAll(e'.zones) == UnspentAll(e.zones) - One(UsesBlock(cfg, e, bar, event))
            && (e'.zones == e.zones <==> !UsesBlock(cfg, e, bar, event))
            && (UsesBlock(cfg, e, bar, event) ==>
                  && e.pos.None? && Bias(e.views).Some? && e.day.traded < cfg.risk.maxTrades
                  && Votes(cfg, e, bar, event, Bias(e.views).value) >= cfg.gates.needed - 1
                  && !NearPoc(cfg, e.day, bar) && !NearPriorPoc(cfg, e.day, bar))
  {
    DecideIs(cfg, e, bar, event);
    if Looks(cfg, e, bar, event) {
      var bias := Bias(e.views).value;
      AskingSpends(e.zones.d1, bar.low, bar.high, bias);
      AskingSpends(e.zones.htf, bar.low, bar.high, bias);
    }
  }

  /** Contrary to what is said of it, a decision can use up a block and not enter: exactly when the
      block puts the stop too far away. */
  lemma SpentForNothing(cfg: Config, e: Engine, bar: Candle, event: Option<Structure.Event>)
    requires ValidConfig(cfg) && Valid(bar) && UsesBlock(cfg, e, bar, event)
    ensures Decide(cfg, e, bar, event).pos.None? <==> Abs(bar.close - StopOf(cfg, e, bar)) > cfg.risk.maxDist
  {
    DecideIs(cfg, e, bar, event);
    StopBeyond(cfg, bar, Bias(e.views).value, PoiOf(cfg, e, bar), Sweep(e, bar, Bias(e.views).value));
  }

  // ------------------------------------------------------------------ one bar

  lemma SeeSound(cfg: Config, minutes: int, v: View, c: Candle)
    requires minutes >= 1 && Valid(c) && (v.cur.Some? ==> Valid(v.cur.value))
    ensures var s := See(cfg, minutes, v, c);
            s.view.cur.Some? && Valid(s.view.cur.value) && (s.done.Some? ==> Valid(s.done.value))
  {
  }

  lemma DatesAscend(s: int, t: int)
    requires s <= t
    ensures DateOf(s) <= DateOf(t)
  {
  }

  lemma {:induction false} TodayKeeps(cfg: Config, e: Engine, c: Candle)
    requires ValidConfig(cfg) && Accepted(e, c) && Inv(cfg, e)
    ensures var day := Today(cfg, e.day, c);
            day.date == Some(DateOf(c.ts)) && DayInv(cfg, day, e.trace.entryDates)
  {
    var d, dates := DateOf(c.ts), e.trace.entryDates;
    if e.last.Some? {
      DatesAscend(e.last.value, c.ts);
    }
    if e.day.date != Some(d) {
      CountNone(dates, d);
    }
  }

  lemma AbsorbedKeeps(cfg: Config, e: Engine, c: Candle)
    requires ValidConfig(cfg) && Accepted(e, c) && Inv(cfg, e)
    ensures var e' := Absorbed(cfg, e, c);
            Inv(cfg, e') && e'.last == Some(c.ts) && e'.pos == e.pos && e'.trace == e.trace
  {
    TodayKeeps(cfg, e, c);
    SeeSound(cfg, cfg.frames.d1, e.views.d1, c);
    SeeSound(cfg, cfg.frames.htf, e.views.htf, c);
  }

  lemma {:induction false} DecidedKeeps(cfg: Config, e: Engine, c: Candle, bar: Candle, event: Option<Structure.Event>)
    requires ValidConfig(cfg) && Valid(bar) && Inv(cfg, e) && e.last == Some(c.ts)
    ensures Inv(cfg, Decided(cfg, e, c, bar, event))
  {
    DecideExact(cfg, e, bar, event);
    DecideFrame(cfg, e, bar, event);
    if Enters(cfg, e, bar, event) {
      EntriesGrow(e.trace.signals, Signal(Entry, bar.ts, Bias(e.views).value, bar.close, StopOf(cfg, e, bar), 0));
      OneMoreToday(cfg, e.day, e.trace.entryDates);
    } else {
      assert e.trace.signals + [] == e.trace.signals;
    }
  }

  lemma {:induction false} OneMoreToday(cfg: Config, day: Day, dates: seq<int>)
    requires DayInv(cfg, day, dates) && day.date.Some? && day.traded < cfg.risk.maxTrades
    ensures DayInv(cfg, day.(traded := day.traded + 1), dates + [day.date.value])
  {
    var today := day.date.value;
    forall d ensures CountOf(dates + [today], d) <= cfg.risk.maxTrades {
      CountGrows(dates, today, d);
    }
    CountGrows(dates, today, today);
  }

  /** What a trigger bar is decided upon with. */
  function Facing(cfg: Config, e: Engine, s: Seen): Engine
    requires ValidConfig(cfg) && s.done.Some?
  {
    e.(views := e.views.(trigger := s.view), gauges := Measured(cfg, e.gauges, s.done.value))
  }

  lemma TriggeredKeeps(cfg: Config, e: Engine, c: Candle)
    requires ValidConfig(cfg) && Valid(c) && Inv(cfg, e) && e.last == Some(c.ts)
    ensures Inv(cfg, Triggered(cfg, e, c))
  {
    var s := See(cfg, cfg.frames.trigger, e.views.trigger, c);
    SeeSound(cfg, cfg.frames.trigger, e.views.trigger, c);
    if s.done.Some? {
      assert Inv(cfg, Facing(cfg, e, s));
      DecidedKeeps(cfg, Facing(cfg, e, s), c, s.done.value, s.event);
    }
  }

  lemma OnCandleKeeps(cfg: Config, e: Engine, c: Candle)
    requires ValidConfig(cfg) && Inv(cfg, e)
    ensures Inv(cfg, OnCandle(cfg, e, c).0)
  {
    if Accepted(e, c) {
      AbsorbedKeeps(cfg, e, c);
      TriggeredKeeps(cfg, Absorbed(cfg, e, c), c);
    }
  }

  lemma ForceFlatKeeps(cfg: Config, e: Engine, ts: int)
    requires Inv(cfg, e)
    ensures Inv(cfg, ForceFlat(e, ts))
  {
    if e.pos.Some? {
      var p := e.pos.value;
      var s := Signal(Exit, ts, p.dir, p.stop, p.stop, p.barsHeld);
      PathGrows(e.trace.log, Transition(ts, InTrade, Armed, ExitBroker));
      ReadGrows(e.trace.signals, s);
      EntriesGrow(e.trace.signals, s);
    }
  }

  // ------------------------------------------------------------------ runs

  datatype Input = Bar(c: Candle) | BrokerClosed(ts: int)

  function Next(cfg: Config, e: Engine, input: Input): Engine
    requires ValidConfig(cfg)
  {
    match input
    case Bar(c) => OnCandle(cfg, e, c).0
    case BrokerClosed(ts) => ForceFlat(e, ts)
  }

  function Run(cfg: Config, inputs: seq<Input>): Engine
    requires ValidConfig(cfg)
    decreases |inputs|
  {
    if inputs == [] then Start else Next(cfg, Run(cfg, inputs[..|inputs| - 1]), inputs[|inputs| - 1])
  }

  lemma {:induction false} RunInv(cfg: Config, inputs: seq<Input>)
    requires ValidConfig(cfg)
    ensures Inv(cfg, Run(cfg, inputs))
    decreases |inputs|
  {
    if inputs != [] {
      var most := inputs[..|inputs| - 1];
      RunInv(cfg, most);
      match inputs[|inputs| - 1]
      case Bar(c) => OnCandleKeeps(cfg, Run(cfg, most), c);
      case BrokerClosed(ts) => ForceFlatKeeps(cfg, Run(cfg, most), ts);
    }
  }

  /** In every run: in a trade exactly when there is a position; transitions form one connected path of
      legal edges that ends in the current phase; entries and exits take turns, an exit naming its
      entry's direction and stop; and every entry's stop is strictly protective and close enough. */
  lemma {:induction false} EveryRun(cfg: Config, inputs: seq<Input>)
    requires ValidConfig(cfg)
    ensures var e := Run(cfg, inputs);
            && (e.phase.InTrade? <==> e.pos.Some?)
            && IsPath(e.trace.log) && EndOf(e.trace.log) == e.phase
            && Read(e.trace.signals) == Some(HoldingOf(e.pos))
            && EntriesProtective(cfg, e.trace.signals)
  {
    RunInv(cfg, inputs);
  }

  /** On every date, counted by the bar that was fed, at most `maxTrades` entries. */
  lemma {:induction false} EntriesPerDay(cfg: Config, inputs: seq<Input>, d: int)
    requires ValidConfig(cfg)
    ensures var t := Run(cfg, inputs).trace;
            CountOf(t.entryDates, d) <= cfg.risk.maxTrades && EntriesIn(t.signals) == |t.entryDates|
  {
    RunInv(cfg, inputs);
  }
}
