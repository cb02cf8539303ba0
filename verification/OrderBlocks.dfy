/** Order blocks: zones left by the last opposite candle before a displacement bar, confirmed by a
    structure break, spent by the first touch.  The tracker's bounded queues are compared with what
    the whole history of bars and breaks says about each block. */
module OrderBlocks {
  import opened Prelude
  import opened Models
  import opened Indicators
  import opened Structure

  const RECENT_BARS := 10
  const MAX_PENDING := 5

  datatype Limits = Limits(bodyFrac: real, atrMult: real, atrPeriod: int, confirm: nat, maxBlocks: nat, expiry: nat)

  predicate ValidLimits(cfg: Limits) {
    && 0.0 < cfg.bodyFrac <= 1.0 && cfg.atrMult > 0.0 && cfg.atrPeriod >= 1
    && cfg.maxBlocks >= 1 && cfg.expiry >= 1
  }

  /** One zone; `born` is the number of the displacement bar, counted from 1. */
  datatype Block = Block(ts: int, direction: Direction, top: real, bottom: real, mitigated: bool, born: nat)

  /** The blocks of one direction: candidates, and those a break has confirmed. */
  datatype Lane = Lane(pending: seq<Block>, active: seq<Block>)

  datatype Zones = Zones(atr: Atr, recent: seq<Candle>, bar: nat, longs: Lane, shorts: Lane)

  const NewZones := Zones(NewAtr, [], 0, Lane([], []), Lane([], []))

  function LaneOf(t: Zones, d: Direction): Lane {
    if d.Long? then t.longs else t.shorts
  }

  // ------------------------------------------------------------------ one bar

  predicate Touches(c: Candle, ob: Block) {
    c.low <= ob.top && c.high >= ob.bottom
  }

  predicate Through(c: Candle, ob: Block) {
    if ob.direction.Long? then c.close < ob.bottom else c.close > ob.top
  }

  /** A bar removes the active blocks it expires or closes through and spends those it touches. */
  function Sift(cfg: Limits, xs: seq<Block>, bar: nat, c: Candle): seq<Block>
    decreases |xs|
  {
    if xs == [] then []
    else
      var ob := xs[|xs| - 1];
      Sift(cfg, xs[..|xs| - 1], bar, c) +
      if bar - ob.born >= cfg.expiry || Through(c, ob) then [] else [Aged(ob, c)]
  }

  function Aged(ob: Block, c: Candle): Block {
    ob.(mitigated := ob.mitigated || Touches(c, ob))
  }

  predicate Displaced(cfg: Limits, atr: Option<real>, c: Candle) {
    var range := c.high - c.low;
    && atr.Some? && range > 0.0 && c.close != c.open
    && Abs(c.close - c.open) / range >= cfg.bodyFrac
    && range >= cfg.atrMult * atr.value
  }

  predicate Against(c: Candle, d: Direction) {
    if d.Long? then c.close < c.open else c.close > c.open
  }

  /** The latest candle against the direction. */
  function Origin(recent: seq<Candle>, d: Direction): Option<Candle>
    decreases |recent|
  {
    if recent == [] then None
    else if Against(recent[|recent| - 1], d) then Some(recent[|recent| - 1])
    else Origin(recent[..|recent| - 1], d)
  }

  function Newborn(cfg: Limits, atr: Option<real>, recent: seq<Candle>, bar: nat, c: Candle): (r: Option<Block>)
    ensures r.Some? ==> r.value.born == bar
  {
    if !Displaced(cfg, atr, c) then None
    else
      var d := if c.close > c.open then Long else Short;
      var from := Origin(recent, d);
      if from.None? then None
      else Some(Block(from.value.ts, d, from.value.high, from.value.low, false, bar))
  }

  function Candidates(lane: Lane, d: Direction, nb: Option<Block>): seq<Block> {
    if nb.Some? && nb.value.direction == d then lane.pending + [nb.value] else lane.pending
  }

  /** Those at most `confirm` bars old. */
  function Within(cfg: Limits, xs: seq<Block>, bar: nat): seq<Block>
    decreases |xs|
  {
    if xs == [] then []
    else
      Within(cfg, xs[..|xs| - 1], bar) +
      if bar - xs[|xs| - 1].born <= cfg.confirm then [xs[|xs| - 1]] else []
  }

  /** Dropping stale candidates from the head only. */
  function DropStale(cfg: Limits, xs: seq<Block>, bar: nat): seq<Block>
    decreases |xs|
  {
    if xs != [] && bar - xs[0].born > cfg.confirm then DropStale(cfg, xs[1..], bar) else xs
  }

  function Sifted(cfg: Limits, lane: Lane, bar: nat, c: Candle): Lane {
    lane.(active := Sift(cfg, lane.active, bar, c))
  }

  function Queued(lane: Lane, d: Direction, nb: Option<Block>): Lane {
    lane.(pending := LastOf(Candidates(lane, d, nb), MAX_PENDING))
  }

  /** A break in the lane's direction promotes the candidates still in time and drops the others; on
      any other bar the stale ones are purged. */
  function Settled(cfg: Limits, lane: Lane, d: Direction, bar: nat, e: Option<Event>): Lane {
    if Went(e, d) then Lane([], LastOf(lane.active + Within(cfg, lane.pending, bar), cfg.maxBlocks))
    else lane.(pending := DropStale(cfg, lane.pending, bar))
  }

  function FeedLane(cfg: Limits, lane: Lane, d: Direction, bar: nat, c: Candle, nb: Option<Block>,
                    e: Option<Event>): Lane {
    Settled(cfg, Queued(Sifted(cfg, lane, bar, c), d, nb), d, bar, e)
  }

  function Advance(cfg: Limits, t: Zones, c: Candle, e: Option<Event>): Zones
    requires ValidLimits(cfg)
  {
    var bar := t.bar + 1;
    var nb := Newborn(cfg, t.atr.value, t.recent, bar, c);
    Zones(UpdateAtr(cfg.atrPeriod, t.atr, c.high, c.low, c.close), Push(t.recent, RECENT_BARS, c), bar,
            FeedLane(cfg, t.longs, Long, bar, c, nb, e), FeedLane(cfg, t.shorts, Short, bar, c, nb, e))
  }

  // ------------------------------------------------------------------ asking for a block

  predicate Overlaps(ob: Block, lo: real, hi: real) {
    ob.bottom <= hi && ob.top >= lo
  }

  /** Position of the latest unspent block overlapping [lo, hi]; the length if there is none. */
  function Pick(xs: seq<Block>, lo: real, hi: real): (i: nat)
    ensures i <= |xs|
    ensures i < |xs| ==> !xs[i].mitigated && Overlaps(xs[i], lo, hi)
    ensures forall j :: 0 <= j < |xs| && (i < j || i == |xs|) ==> xs[j].mitigated || !Overlaps(xs[j], lo, hi)
    decreases |xs|
  {
    if xs == [] then 0
    else
      var n := |xs| - 1;
      if !xs[n].mitigated && Overlaps(xs[n], lo, hi) then n
      else
        var i := Pick(xs[..n], lo, hi);
        assert forall j :: 0 <= j < n ==> xs[..n][j] == xs[j];
        if i == n then n + 1 else i
  }

  function Spend(lane: Lane, i: nat): Lane
    requires i < |lane.active|
  {
    lane.(active := lane.active[i := lane.active[i].(mitigated := true)])
  }

  function PoiAt(t: Zones, lo: real, hi: real, d: Direction): (Zones, Option<Block>) {
    var lane := LaneOf(t, d);
    var i := Pick(lane.active, lo, hi);
    if i == |lane.active| then (t, None)
    else
      (if d.Long? then t.(longs := Spend(lane, i)) else t.(shorts := Spend(lane, i)), Some(lane.active[i]))
  }

  // ------------------------------------------------------------------ over the whole history

  /** Bars and breaks so far, the blocks handed out, and those the bounded queues have pushed out;
      a block is named by the number of the bar it was born at. */
  datatype History = History(bars: seq<Candle>, events: seq<Option<Event>>, given: set<nat>, evicted: set<nat>)

  const Nothing := History([], [], {}, {})

  function RunAtr(cfg: Limits, bars: seq<Candle>): Atr
    requires cfg.atrPeriod >= 1
    decreases |bars|
  {
    if bars == [] then NewAtr
    else
      var c := bars[|bars| - 1];
      UpdateAtr(cfg.atrPeriod, RunAtr(cfg, bars[..|bars| - 1]), c.high, c.low, c.close)
  }

  /** The block, if any, that bar `n` of a history gives birth to. */
  function BornAt(cfg: Limits, bars: seq<Candle>, n: nat): Option<Block>
    requires cfg.atrPeriod >= 1 && 1 <= n <= |bars|
  {
    Newborn(cfg, RunAtr(cfg, bars[..n - 1]).value, LastOf(bars[..n - 1], RECENT_BARS), n, bars[n - 1])
  }

  predicate Born(cfg: Limits, bars: seq<Candle>, ob: Block)
    requires cfg.atrPeriod >= 1
  {
    1 <= ob.born <= |bars| && BornAt(cfg, bars, ob.born) == Some(ob)
  }

  /** Number of the first bar from `born` on to break in direction `d`. */
  function FirstBreak(events: seq<Option<Event>>, d: Direction, born: nat): (r: Option<nat>)
    ensures r.Some? ==> born <= r.value <= |events|
    decreases |events|
  {
    var n := |events|;
    if n == 0 || n < born then None
    else
      var f := FirstBreak(events[..n - 1], d, born);
      if f.Some? then f
      else if Went(events[n - 1], d) then Some(n)
      else None
  }

  /** No bar after bar `a` has traded into the zone or closed through its far edge. */
  predicate Clean(bars: seq<Candle>, ob: Block, a: nat) {
    forall i :: a <= i < |bars| ==> !Touches(bars[i], ob) && !Through(bars[i], ob)
  }

  /** A candidate no break has confirmed yet and that can still be confirmed. */
  predicate Waiting(cfg: Limits, h: History, ob: Block)
    requires cfg.atrPeriod >= 1
  {
    && Born(cfg, h.bars, ob)
    && FirstBreak(h.events, ob.direction, ob.born).None?
    && |h.bars| - ob.born <= cfg.confirm
  }

  /** A block born of a displacement bar, confirmed in time, untouched since, unexpired, not handed
      out. */
  predicate Live(cfg: Limits, h: History, ob: Block)
    requires cfg.atrPeriod >= 1
  {
    var a := FirstBreak(h.events, ob.direction, ob.born);
    && Born(cfg, h.bars, ob)
    && a.Some? && a.value - ob.born <= cfg.confirm
    && Clean(h.bars, ob, a.value)
    && (a.value == |h.bars| || |h.bars| - ob.born < cfg.expiry)
    && ob.born !in h.given
  }

  predicate Ascending(xs: seq<Block>) {
    forall i, j :: 0 <= i < j < |xs| ==> xs[i].born < xs[j].born
  }

  /** What is in the queues of direction `d` belongs there. */
  ghost predicate Sound(cfg: Limits, d: Direction, lane: Lane, h: History)
    requires cfg.atrPeriod >= 1
  {
    && Ascending(lane.pending) && Ascending(lane.active)
    && |lane.pending| <= MAX_PENDING && |lane.active| <= cfg.maxBlocks
    && (forall ob <- lane.pending :: ob.direction == d && ob.born !in h.given && Waiting(cfg, h, ob))
    && (forall ob <- lane.active ::
          && ob.direction == d && FirstBreak(h.events, d, ob.born).Some?
          && (!ob.mitigated ==> Live(cfg, h, ob)))
  }

  /** What belongs in the queues is there, unless it has been pushed out. */
  ghost predicate Complete(cfg: Limits, d: Direction, lane: Lane, h: History)
    requires cfg.atrPeriod >= 1
  {
    forall ob: Block :: ob.direction == d && ob.born !in h.evicted ==>
      && (Waiting(cfg, h, ob) ==> ob in lane.pending)
      && (Live(cfg, h, ob) ==> ob in lane.active)
  }

  /** The block born at bar `n` has been confirmed. */
  predicate Confirmed(cfg: Limits, h: History, n: nat)
    requires cfg.atrPeriod >= 1
  {
    && 1 <= n <= |h.bars|
    && var ob := BornAt(cfg, h.bars, n);
       ob.Some? && FirstBreak(h.events, ob.value.direction, n).Some?
  }

  predicate Synced(cfg: Limits, h: History)
    requires cfg.atrPeriod >= 1
  {
    |h.bars| == |h.events| && forall n <- h.given :: Confirmed(cfg, h, n)
  }

  ghost predicate Inv(cfg: Limits, t: Zones, h: History)
    requires cfg.atrPeriod >= 1
  {
    && Synced(cfg, h) && t.bar == |h.bars|
    && t.atr == RunAtr(cfg, h.bars) && t.recent == LastOf(h.bars, RECENT_BARS)
    && Sound(cfg, Long, t.longs, h) && Complete(cfg, Long, t.longs, h)
    && Sound(cfg, Short, t.shorts, h) && Complete(cfg, Short, t.shorts, h)
  }

  // ------------------------------------------------------------------ a bar, block by block

  /** The history with one more bar. */
  function Grown(h: History, c: Candle, e: Option<Event>): History {
    h.(bars := h.bars + [c], events := h.events + [e])
  }

  lemma {:induction false} BornStays(cfg: Limits, bars: seq<Candle>, c: Candle, ob: Block)
    requires cfg.atrPeriod >= 1 && ob.born <= |bars|
    ensures Born(cfg, bars + [c], ob) == Born(cfg, bars, ob)
  {
    if ob.born >= 1 {
      assert (bars + [c])[..ob.born - 1] == bars[..ob.born - 1];
    }
  }

  lemma {:induction false} BornNow(cfg: Limits, bars: seq<Candle>, c: Candle, ob: Block)
    requires cfg.atrPeriod >= 1 && ob.born == |bars| + 1
    ensures Born(cfg, bars + [c], ob) <==>
            Newborn(cfg, RunAtr(cfg, bars).value, LastOf(bars, RECENT_BARS), |bars| + 1, c) == Some(ob)
  {
    assert (bars + [c])[..|bars|] == bars;
  }

  lemma {:induction false} FirstBreakStep(events: seq<Option<Event>>, e: Option<Event>, d: Direction, born: nat)
    ensures FirstBreak(events + [e], d, born) ==
            if FirstBreak(events, d, born).Some? then FirstBreak(events, d, born)
            else if born <= |events| + 1 && Went(e, d) then Some(|events| + 1)
            else None
  {
    assert (events + [e])[..|events|] == events;
  }

  lemma {:induction false} CleanStep(bars: seq<Candle>, c: Candle, ob: Block, a: nat)
    requires a <= |bars|
    ensures Clean(bars + [c], ob, a) <==> Clean(bars, ob, a) && !Touches(c, ob) && !Through(c, ob)
  {
    var more := bars + [c];
    assert more[|bars|] == c;
    assert forall i :: 0 <= i < |bars| ==> more[i] == bars[i];
  }

  /** How a new bar changes what is live among the blocks born before it. */
  lemma {:induction false} LiveStep(cfg: Limits, h: History, c: Candle, e: Option<Event>, ob: Block)
    requires cfg.atrPeriod >= 1 && |h.bars| == |h.events| && ob.born <= |h.bars|
    ensures Live(cfg, Grown(h, c, e), ob) <==>
            if FirstBreak(h.events, ob.direction, ob.born).Some? then
              Live(cfg, h, ob) && !Touches(c, ob) && !Through(c, ob) && |h.bars| + 1 - ob.born < cfg.expiry
            else
              Waiting(cfg, h, ob) && Went(e, ob.direction) && |h.bars| + 1 - ob.born <= cfg.confirm
                && ob.born !in h.given
  {
    BornStays(cfg, h.bars, c, ob);
    FirstBreakStep(h.events, e, ob.direction, ob.born);
    var a := FirstBreak(h.events, ob.direction, ob.born);
    if a.Some? {
      CleanStep(h.bars, c, ob, a.value);
    }
  }

  lemma {:induction false} WaitingStep(cfg: Limits, h: History, c: Candle, e: Option<Event>, ob: Block)
    requires cfg.atrPeriod >= 1 && |h.bars| == |h.events| && ob.born <= |h.bars|
    ensures Waiting(cfg, Grown(h, c, e), ob) <==>
            Waiting(cfg, h, ob) && !Went(e, ob.direction) && |h.bars| + 1 - ob.born <= cfg.confirm
  {
    BornStays(cfg, h.bars, c, ob);
    FirstBreakStep(h.events, e, ob.direction, ob.born);
  }

  /** The block born at the new bar waits, or is live at once when that bar also breaks structure. */
  lemma {:induction false} NewbornStep(cfg: Limits, h: History, c: Candle, e: Option<Event>, ob: Block)
    requires cfg.atrPeriod >= 1 && |h.bars| == |h.events| && ob.born == |h.bars| + 1 && ob.born !in h.given
    ensures var born := Newborn(cfg, RunAtr(cfg, h.bars).value, LastOf(h.bars, RECENT_BARS), ob.born, c) == Some(ob);
            && (Live(cfg, Grown(h, c, e), ob) <==> born && Went(e, ob.direction))
            && (Waiting(cfg, Grown(h, c, e), ob) <==> born && !Went(e, ob.direction))
  {
    BornNow(cfg, h.bars, c, ob);
    FirstBreakStep(h.events, e, ob.direction, ob.born);
  }

  /** What is, or may become, a candidate at bar `c`. */
  predicate Candidate(cfg: Limits, h: History, c: Candle, d: Direction, ob: Block)
    requires cfg.atrPeriod >= 1
  {
    && ob.direction == d && ob.born !in h.given
    && if ob.born <= |h.bars| then Waiting(cfg, h, ob)
       else
         && ob.born == |h.bars| + 1
         && Newborn(cfg, RunAtr(cfg, h.bars).value, LastOf(h.bars, RECENT_BARS), ob.born, c) == Some(ob)
  }

  predicate InWindow(cfg: Limits, h: History, ob: Block) {
    |h.bars| + 1 - ob.born <= cfg.confirm
  }

  predicate Kept(cfg: Limits, ob: Block, bar: nat, c: Candle) {
    bar - ob.born < cfg.expiry && !Through(c, ob)
  }

  lemma {:induction false} WaitingIsCandidate(cfg: Limits, h: History, c: Candle, e: Option<Event>, ob: Block)
    requires cfg.atrPeriod >= 1 && |h.bars| == |h.events| && ob.born !in h.given
    ensures Waiting(cfg, Grown(h, c, e), ob) <==>
            Candidate(cfg, h, c, ob.direction, ob) && !Went(e, ob.direction) && InWindow(cfg, h, ob)
  {
    if ob.born <= |h.bars| {
      WaitingStep(cfg, h, c, e, ob);
    } else if ob.born == |h.bars| + 1 {
      NewbornStep(cfg, h, c, e, ob);
    }
  }

  lemma {:induction false} FirstBreakOfLater(events: seq<Option<Event>>, d: Direction, born: nat)
    requires born > |events|
    ensures FirstBreak(events, d, born).None?
  {
  }

  /** A block is live after a bar because it was, and the bar left it alone, or because the bar
      confirms it. */
  lemma {:induction false} LiveFrom(cfg: Limits, h: History, c: Candle, e: Option<Event>, ob: Block)
    requires cfg.atrPeriod >= 1 && |h.bars| == |h.events|
    requires ob.born == |h.bars| + 1 ==> ob.born !in h.given
    ensures Live(cfg, Grown(h, c, e), ob) <==>
            if FirstBreak(h.events, ob.direction, ob.born).Some? then
              Live(cfg, h, ob) && !Touches(c, ob) && Kept(cfg, ob, |h.bars| + 1, c)
            else
              Candidate(cfg, h, c, ob.direction, ob) && Went(e, ob.direction) && InWindow(cfg, h, ob)
  {
    if ob.born <= |h.bars| {
      LiveStep(cfg, h, c, e, ob);
    } else {
      FirstBreakOfLater(h.events, ob.direction, ob.born);
      if ob.born == |h.bars| + 1 {
        NewbornStep(cfg, h, c, e, ob);
      }
    }
  }

  // ------------------------------------------------------------------ a bar, queue by queue

  lemma {:induction false} SiftFrom(cfg: Limits, xs: seq<Block>, bar: nat, c: Candle, ob: Block) returns (o: Block)
    requires ob in Sift(cfg, xs, bar, c)
    ensures o in xs && Kept(cfg, o, bar, c) && ob == Aged(o, c)
    decreases |xs|
  {
    var n := |xs| - 1;
    if ob in Sift(cfg, xs[..n], bar, c) {
      o := SiftFrom(cfg, xs[..n], bar, c, ob);
    } else {
      o := xs[n];
    }
  }

  lemma {:induction false} SiftKeeps(cfg: Limits, xs: seq<Block>, bar: nat, c: Candle, o: Block)
    requires o in xs && Kept(cfg, o, bar, c)
    ensures Aged(o, c) in Sift(cfg, xs, bar, c)
    decreases |xs|
  {
    var n := |xs| - 1;
    if o != xs[n] {
      assert o in xs[..n];
      SiftKeeps(cfg, xs[..n], bar, c, o);
    }
  }

  lemma {:induction false} SiftAscends(cfg: Limits, xs: seq<Block>, bar: nat, c: Candle)
    requires Ascending(xs)
    ensures var r := Sift(cfg, xs, bar, c);
            Ascending(r) && |r| <= |xs| && (r != [] ==> r[|r| - 1].born <= xs[|xs| - 1].born)
    decreases |xs|
  {
    if xs != [] {
      SiftAscends(cfg, xs[..|xs| - 1], bar, c);
    }
  }

  lemma {:induction false} SiftShort(cfg: Limits, xs: seq<Block>, bar: nat, c: Candle)
    ensures |Sift(cfg, xs, bar, c)| <= |xs|
    decreases |xs|
  {
    if xs != [] {
      SiftShort(cfg, xs[..|xs| - 1], bar, c);
    }
  }

  lemma {:induction false} WithinAscends(cfg: Limits, xs: seq<Block>, bar: nat)
    requires Ascending(xs)
    ensures var r := Within(cfg, xs, bar);
            Ascending(r) && |r| <= |xs| && (r != [] ==> r[|r| - 1].born <= xs[|xs| - 1].born)
    decreases |xs|
  {
    if xs != [] {
      WithinAscends(cfg, xs[..|xs| - 1], bar);
    }
  }

  lemma {:induction false} WithinExact(cfg: Limits, xs: seq<Block>, bar: nat)
    ensures forall ob: Block :: ob in Within(cfg, xs, bar) <==> ob in xs && bar - ob.born <= cfg.confirm
    decreases |xs|
  {
    if xs != [] {
      var n := |xs| - 1;
      WithinExact(cfg, xs[..n], bar);
      assert xs == xs[..n] + [xs[n]];
    }
  }

  /** In a queue sorted by birth, dropping from the head only removes everything stale. */
  lemma {:induction false} DropStaleExact(cfg: Limits, xs: seq<Block>, bar: nat)
    requires Ascending(xs)
    ensures DropStale(cfg, xs, bar) == Within(cfg, xs, bar)
    decreases |xs|
  {
    if xs != [] {
      if bar - xs[0].born > cfg.confirm {
        DropStaleExact(cfg, xs[1..], bar);
        WithinTail(cfg, xs, bar);
      } else {
        WithinAll(cfg, xs, bar);
      }
    }
  }

  lemma {:induction false} WithinTail(cfg: Limits, xs: seq<Block>, bar: nat)
    requires xs != [] && bar - xs[0].born > cfg.confirm
    ensures Within(cfg, xs, bar) == Within(cfg, xs[1..], bar)
    decreases |xs|
  {
    var n := |xs| - 1;
    if n > 0 {
      WithinTail(cfg, xs[..n], bar);
      assert xs[1..][..n - 1] == xs[..n][1..];
    }
  }

  lemma {:induction false} WithinAll(cfg: Limits, xs: seq<Block>, bar: nat)
    requires xs == [] || (Ascending(xs) && bar - xs[0].born <= cfg.confirm)
    ensures Within(cfg, xs, bar) == xs
    decreases |xs|
  {
    if xs != [] {
      var n := |xs| - 1;
      WithinAll(cfg, xs[..n], bar);
      assert xs == xs[..n] + [xs[n]];
    }
  }

  /** Births of what a queue holding at most `n` pushes out. */
  function PushedOut(xs: seq<Block>, n: nat): set<nat> {
    set i | 0 <= i < |xs| - n :: xs[i].born
  }

  lemma {:induction false} LastOfExact(xs: seq<Block>, n: nat)
    requires Ascending(xs)
    ensures var r := LastOf(xs, n);
            && Ascending(r) && |r| <= n
            && (forall ob: Block :: ob in r ==> ob in xs)
            && (forall ob: Block :: ob in xs && ob.born !in PushedOut(xs, n) ==> ob in r)
  {
    var r := LastOf(xs, n);
    forall ob: Block | ob in xs && ob.born !in PushedOut(xs, n) ensures ob in r {
      var i :| 0 <= i < |xs| && xs[i] == ob;
      assert i >= |xs| - n;
      if |xs| > n {
        assert r[i - (|xs| - n)] == ob;
      }
    }
  }

  lemma {:induction false} FirstBreakEarlier(events: seq<Option<Event>>, d: Direction, early: nat, late: nat)
    requires FirstBreak(events, d, late).Some? && FirstBreak(events, d, early).None?
    ensures late < early
    decreases |events|
  {
    var most := events[..|events| - 1];
    if FirstBreak(most, d, late).Some? {
      FirstBreakEarlier(most, d, early, late);
    }
  }

  // ------------------------------------------------------------------ a bar, lane by lane

  /** The block born at the next bar. */
  function NextBorn(cfg: Limits, h: History, c: Candle): Option<Block>
    requires cfg.atrPeriod >= 1
  {
    Newborn(cfg, RunAtr(cfg, h.bars).value, LastOf(h.bars, RECENT_BARS), |h.bars| + 1, c)
  }

  /** Candidates queued at the next bar: those waiting and the newborn. */
  function Queue(cfg: Limits, h: History, c: Candle, d: Direction, lane: Lane): seq<Block>
    requires cfg.atrPeriod >= 1
  {
    Candidates(lane, d, NextBorn(cfg, h, c))
  }

  lemma {:induction false} QueueSound(cfg: Limits, h: History, c: Candle, d: Direction, lane: Lane)
    requires cfg.atrPeriod >= 1 && Synced(cfg, h) && Sound(cfg, d, lane, h)
    ensures Ascending(Queue(cfg, h, c, d, lane))
    ensures forall ob <- Queue(cfg, h, c, d, lane) :: Candidate(cfg, h, c, d, ob)
  {
  }

  lemma {:induction false} QueueComplete(cfg: Limits, h: History, c: Candle, d: Direction, lane: Lane, ob: Block)
    requires cfg.atrPeriod >= 1 && Complete(cfg, d, lane, h)
    requires Candidate(cfg, h, c, d, ob) && ob.born !in h.evicted
    ensures ob in Queue(cfg, h, c, d, lane)
  {
  }

  /** The queue as far as it is kept. */
  function KeptQueue(cfg: Limits, h: History, c: Candle, d: Direction, lane: Lane): seq<Block>
    requires cfg.atrPeriod >= 1
  {
    LastOf(Queue(cfg, h, c, d, lane), MAX_PENDING)
  }

  lemma {:induction false} KeptQueueIs(cfg: Limits, h: History, c: Candle, d: Direction, lane: Lane)
    requires cfg.atrPeriod >= 1 && Synced(cfg, h) && Sound(cfg, d, lane, h)
    ensures var q := KeptQueue(cfg, h, c, d, lane);
            && Ascending(q) && |q| <= MAX_PENDING
            && (forall ob <- q :: Candidate(cfg, h, c, d, ob))
            && (Complete(cfg, d, lane, h) ==>
                  forall ob: Block ::
                    (Candidate(cfg, h, c, d, ob)
                     && ob.born !in h.evicted + PushedOut(Queue(cfg, h, c, d, lane), MAX_PENDING)) ==> ob in q)
  {
    QueueSound(cfg, h, c, d, lane);
    LastOfExact(Queue(cfg, h, c, d, lane), MAX_PENDING);
    var q := KeptQueue(cfg, h, c, d, lane);
    if Complete(cfg, d, lane, h) {
      forall ob: Block | (Candidate(cfg, h, c, d, ob)
                          && ob.born !in h.evicted + PushedOut(Queue(cfg, h, c, d, lane), MAX_PENDING))
        ensures ob in q
      {
        QueueComplete(cfg, h, c, d, lane, ob);
      }
    }
  }

  /** Active blocks of the next bar before the queue's limit: those sifted, then those confirmed. */
  function Confirming(cfg: Limits, h: History, c: Candle, d: Direction, lane: Lane): seq<Block>
    requires cfg.atrPeriod >= 1
  {
    Sift(cfg, lane.active, |h.bars| + 1, c) + Within(cfg, KeptQueue(cfg, h, c, d, lane), |h.bars| + 1)
  }

  /** Births pushed out of the lane by the next bar. */
  function Lost(cfg: Limits, h: History, c: Candle, e: Option<Event>, d: Direction, lane: Lane): set<nat>
    requires cfg.atrPeriod >= 1
  {
    PushedOut(Queue(cfg, h, c, d, lane), MAX_PENDING) +
    if Went(e, d) then PushedOut(Confirming(cfg, h, c, d, lane), cfg.maxBlocks) else {}
  }

  function NextLane(cfg: Limits, h: History, c: Candle, e: Option<Event>, d: Direction, lane: Lane): Lane
    requires cfg.atrPeriod >= 1
  {
    FeedLane(cfg, lane, d, |h.bars| + 1, c, NextBorn(cfg, h, c), e)
  }

  /** Sifting keeps what is live and only that. */
  lemma {:induction false} SiftedSound(cfg: Limits, h: History, c: Candle, e: Option<Event>, d: Direction, lane: Lane,
                                       ob: Block)
    requires cfg.atrPeriod >= 1 && Synced(cfg, h) && Sound(cfg, d, lane, h)
    requires ob in Sift(cfg, lane.active, |h.bars| + 1, c)
    ensures ob.direction == d && FirstBreak(h.events, d, ob.born).Some? && FirstBreak(h.events + [e], d, ob.born).Some?
    ensures !ob.mitigated ==> Live(cfg, Grown(h, c, e), ob)
  {
    var o := SiftFrom(cfg, lane.active, |h.bars| + 1, c, ob);
    assert o.born == ob.born && FirstBreak(h.events, d, o.born).Some?;
    FirstBreakStep(h.events, e, d, ob.born);
    if !ob.mitigated {
      assert ob == o && Live(cfg, h, o);
      LiveFrom(cfg, h, c, e, ob);
    }
  }

  lemma {:induction false} SiftedComplete(cfg: Limits, h: History, c: Candle, e: Option<Event>, d: Direction,
                                          lane: Lane, ob: Block)
    requires cfg.atrPeriod >= 1 && Synced(cfg, h) && Complete(cfg, d, lane, h)
    requires ob.direction == d && ob.born !in h.evicted
    requires Live(cfg, Grown(h, c, e), ob) && FirstBreak(h.events, d, ob.born).Some?
    ensures ob in Sift(cfg, lane.active, |h.bars| + 1, c)
  {
    LiveFrom(cfg, h, c, e, ob);
    SiftKeeps(cfg, lane.active, |h.bars| + 1, c, ob);
    assert !ob.mitigated;
  }

  lemma {:induction false} WaitingNotGiven(cfg: Limits, h: History, c: Candle, e: Option<Event>, ob: Block)
    requires cfg.atrPeriod >= 1 && Synced(cfg, h) && Waiting(cfg, Grown(h, c, e), ob)
    ensures ob.born !in h.given
  {
    if ob.born in h.given {
      assert Confirmed(cfg, h, ob.born);
      BornStays(cfg, h.bars, c, ob);
      FirstBreakStep(h.events, e, ob.direction, ob.born);
    }
  }

  /** A bar with no break in the lane's direction. */
  lemma {:induction false} QuietLaneSound(cfg: Limits, h: History, c: Candle, e: Option<Event>, d: Direction,
                                          lane: Lane)
    requires ValidLimits(cfg) && Synced(cfg, h) && Sound(cfg, d, lane, h) && !Went(e, d)
    ensures Sound(cfg, d, NextLane(cfg, h, c, e, d, lane), Grown(h, c, e))
  {
    KeptQueueIs(cfg, h, c, d, lane);
    var q, h' := KeptQueue(cfg, h, c, d, lane), Grown(h, c, e);
    DropStaleExact(cfg, q, |h.bars| + 1);
    WithinExact(cfg, q, |h.bars| + 1);
    WithinAscends(cfg, q, |h.bars| + 1);
    SiftAscends(cfg, lane.active, |h.bars| + 1, c);
    var next := NextLane(cfg, h, c, e, d, lane);
    forall ob | ob in next.pending ensures ob.direction == d && ob.born !in h'.given && Waiting(cfg, h', ob) {
      assert Candidate(cfg, h, c, d, ob);
      WaitingIsCandidate(cfg, h, c, e, ob);
    }
    forall ob | ob in next.active
      ensures ob.direction == d && FirstBreak(h'.events, d, ob.born).Some? && (!ob.mitigated ==> Live(cfg, h', ob))
    {
      SiftedSound(cfg, h, c, e, d, lane, ob);
    }
  }

  lemma {:induction false} QuietLaneComplete(cfg: Limits, h: History, c: Candle, e: Option<Event>, d: Direction,
                                             lane: Lane, ob: Block)
    requires ValidLimits(cfg) && Synced(cfg, h) && Sound(cfg, d, lane, h) && Complete(cfg, d, lane, h) && !Went(e, d)
    requires ob.direction == d && ob.born !in h.evicted + Lost(cfg, h, c, e, d, lane)
    ensures Waiting(cfg, Grown(h, c, e), ob) ==> ob in NextLane(cfg, h, c, e, d, lane).pending
    ensures Live(cfg, Grown(h, c, e), ob) ==> ob in NextLane(cfg, h, c, e, d, lane).active
  {
    KeptQueueIs(cfg, h, c, d, lane);
    var q := KeptQueue(cfg, h, c, d, lane);
    DropStaleExact(cfg, q, |h.bars| + 1);
    WithinExact(cfg, q, |h.bars| + 1);
    if Waiting(cfg, Grown(h, c, e), ob) {
      WaitingNotGiven(cfg, h, c, e, ob);
      WaitingIsCandidate(cfg, h, c, e, ob);
    }
    if Live(cfg, Grown(h, c, e), ob) {
      LiveFrom(cfg, h, c, e, ob);
      SiftedComplete(cfg, h, c, e, d, lane, ob);
    }
  }

  /** A bar that breaks in the lane's direction confirms or drops every candidate. */
  lemma {:induction false} BreakLaneAscends(cfg: Limits, h: History, c: Candle, e: Option<Event>, d: Direction,
                                            lane: Lane)
    requires ValidLimits(cfg) && Synced(cfg, h) && Sound(cfg, d, lane, h)
    ensures Ascending(Confirming(cfg, h, c, d, lane))
  {
    KeptQueueIs(cfg, h, c, d, lane);
    var q, bar := KeptQueue(cfg, h, c, d, lane), |h.bars| + 1;
    WithinExact(cfg, q, bar);
    WithinAscends(cfg, q, bar);
    SiftAscends(cfg, lane.active, bar, c);
    var old_, new_ := Sift(cfg, lane.active, bar, c), Within(cfg, q, bar);
    forall i, j | 0 <= i < |old_| && 0 <= j < |new_| ensures old_[i].born < new_[j].born {
      SiftedSound(cfg, h, c, None, d, lane, old_[i]);
      assert new_[j] in q && Candidate(cfg, h, c, d, new_[j]);
      CandidateUnbroken(cfg, h, c, d, new_[j]);
      FirstBreakEarlier(h.events, d, new_[j].born, old_[i].born);
    }
  }

  lemma {:induction false} CandidateUnbroken(cfg: Limits, h: History, c: Candle, d: Direction, ob: Block)
    requires cfg.atrPeriod >= 1 && Synced(cfg, h) && Candidate(cfg, h, c, d, ob)
    ensures FirstBreak(h.events, d, ob.born).None?
  {
    if ob.born > |h.bars| {
      FirstBreakOfLater(h.events, d, ob.born);
    }
  }

  lemma {:induction false} ConfirmedSound(cfg: Limits, h: History, c: Candle, e: Option<Event>, d: Direction,
                                          lane: Lane, ob: Block)
    requires ValidLimits(cfg) && Synced(cfg, h) && Sound(cfg, d, lane, h) && Went(e, d)
    requires ob in Within(cfg, KeptQueue(cfg, h, c, d, lane), |h.bars| + 1)
    ensures ob.direction == d && FirstBreak(h.events + [e], d, ob.born).Some? && Live(cfg, Grown(h, c, e), ob)
  {
    KeptQueueIs(cfg, h, c, d, lane);
    WithinExact(cfg, KeptQueue(cfg, h, c, d, lane), |h.bars| + 1);
    assert Candidate(cfg, h, c, d, ob);
    CandidateUnbroken(cfg, h, c, d, ob);
    FirstBreakStep(h.events, e, d, ob.born);
    LiveFrom(cfg, h, c, e, ob);
  }

  lemma {:induction false} BreakLaneSound(cfg: Limits, h: History, c: Candle, e: Option<Event>, d: Direction,
                                          lane: Lane)
    requires ValidLimits(cfg) && Synced(cfg, h) && Sound(cfg, d, lane, h) && Went(e, d)
    ensures Sound(cfg, d, NextLane(cfg, h, c, e, d, lane), Grown(h, c, e))
  {
    BreakLaneAscends(cfg, h, c, e, d, lane);
    var all := Confirming(cfg, h, c, d, lane);
    LastOfExact(all, cfg.maxBlocks);
    var next, h' := NextLane(cfg, h, c, e, d, lane), Grown(h, c, e);
    assert next.active == LastOf(all, cfg.maxBlocks) && next.pending == [];
    forall ob | ob in next.active
      ensures ob.direction == d && FirstBreak(h'.events, d, ob.born).Some? && (!ob.mitigated ==> Live(cfg, h', ob))
    {
      assert ob in all;
      if ob in Sift(cfg, lane.active, |h.bars| + 1, c) {
        SiftedSound(cfg, h, c, e, d, lane, ob);
      } else {
        ConfirmedSound(cfg, h, c, e, d, lane, ob);
      }
    }
  }

  lemma {:induction false} BreakLaneComplete(cfg: Limits, h: History, c: Candle, e: Option<Event>, d: Direction,
                                             lane: Lane, ob: Block)
    requires ValidLimits(cfg) && Synced(cfg, h) && Sound(cfg, d, lane, h) && Complete(cfg, d, lane, h) && Went(e, d)
    requires ob.direction == d && ob.born !in h.evicted + Lost(cfg, h, c, e, d, lane)
    ensures !Waiting(cfg, Grown(h, c, e), ob)
    ensures Live(cfg, Grown(h, c, e), ob) ==> ob in NextLane(cfg, h, c, e, d, lane).active
  {
    if Waiting(cfg, Grown(h, c, e), ob) {
      WaitingNotGiven(cfg, h, c, e, ob);
      WaitingIsCandidate(cfg, h, c, e, ob);
    }
    if Live(cfg, Grown(h, c, e), ob) {
      LiveFrom(cfg, h, c, e, ob);
      if FirstBreak(h.events, d, ob.born).Some? {
        SiftedComplete(cfg, h, c, e, d, lane, ob);
      } else {
        KeptQueueIs(cfg, h, c, d, lane);
        WithinExact(cfg, KeptQueue(cfg, h, c, d, lane), |h.bars| + 1);
      }
      BreakLaneAscends(cfg, h, c, e, d, lane);
      LastOfExact(Confirming(cfg, h, c, d, lane), cfg.maxBlocks);
    }
  }

  /** The history after a bar the tracker has been fed. */
  function Fed(cfg: Limits, t: Zones, h: History, c: Candle, e: Option<Event>): History
    requires cfg.atrPeriod >= 1
  {
    Grown(h, c, e).(evicted := h.evicted + Lost(cfg, h, c, e, Long, t.longs) + Lost(cfg, h, c, e, Short, t.shorts))
  }

  lemma {:induction false} LaneKeeps(cfg: Limits, t: Zones, h: History, c: Candle, e: Option<Event>, d: Direction)
    requires ValidLimits(cfg) && Inv(cfg, t, h)
    ensures Sound(cfg, d, NextLane(cfg, h, c, e, d, LaneOf(t, d)), Fed(cfg, t, h, c, e))
    ensures Complete(cfg, d, NextLane(cfg, h, c, e, d, LaneOf(t, d)), Fed(cfg, t, h, c, e))
  {
    var lane, h', next := LaneOf(t, d), Fed(cfg, t, h, c, e), NextLane(cfg, h, c, e, d, LaneOf(t, d));
    if Went(e, d) {
      BreakLaneSound(cfg, h, c, e, d, lane);
    } else {
      QuietLaneSound(cfg, h, c, e, d, lane);
    }
    EvictedIrrelevant(cfg, d, next, Grown(h, c, e), h'.evicted);
    forall ob: Block | ob.direction == d && ob.born !in h'.evicted
      ensures (Waiting(cfg, h', ob) ==> ob in next.pending) && (Live(cfg, h', ob) ==> ob in next.active)
    {
      if Went(e, d) {
        BreakLaneComplete(cfg, h, c, e, d, lane, ob);
      } else {
        QuietLaneComplete(cfg, h, c, e, d, lane, ob);
      }
      assert Waiting(cfg, h', ob) == Waiting(cfg, Grown(h, c, e), ob)
             && Live(cfg, h', ob) == Live(cfg, Grown(h, c, e), ob);
    }
  }

  lemma {:induction false} EvictedIrrelevant(cfg: Limits, d: Direction, lane: Lane, h: History, evicted: set<nat>)
    requires cfg.atrPeriod >= 1 && Sound(cfg, d, lane, h)
    ensures Sound(cfg, d, lane, h.(evicted := evicted))
  {
    var h' := h.(evicted := evicted);
    assert forall ob <- lane.pending :: Waiting(cfg, h', ob) == Waiting(cfg, h, ob);
    assert forall ob <- lane.active :: Live(cfg, h', ob) == Live(cfg, h, ob);
  }

  lemma {:induction false} UpdateKeepsInv(cfg: Limits, t: Zones, h: History, c: Candle, e: Option<Event>)
    requires ValidLimits(cfg) && Inv(cfg, t, h)
    ensures Inv(cfg, Advance(cfg, t, c, e), Fed(cfg, t, h, c, e))
  {
    LaneKeeps(cfg, t, h, c, e, Long);
    LaneKeeps(cfg, t, h, c, e, Short);
    PushKeepsLast(h.bars, RECENT_BARS, c);
    assert (h.bars + [c])[..|h.bars|] == h.bars;
    forall n | n in h.given ensures Confirmed(cfg, Fed(cfg, t, h, c, e), n) {
      assert Confirmed(cfg, h, n);
      var ob := BornAt(cfg, h.bars, n).value;
      BornStays(cfg, h.bars, c, ob);
      FirstBreakStep(h.events, e, ob.direction, n);
    }
  }

  // ------------------------------------------------------------------ asking for a block

  function Given(h: History, r: Option<Block>): History {
    if r.None? then h else h.(given := h.given + {r.value.born})
  }

  /** No other block has the name of a live one. */
  lemma {:induction false} NameIsUnique(cfg: Limits, h: History, ob: Block, other: Block)
    requires cfg.atrPeriod >= 1 && Live(cfg, h, ob) && (Live(cfg, h, other) || Waiting(cfg, h, other))
    requires other.born == ob.born
    ensures other == ob && Live(cfg, h, other) && !Waiting(cfg, h, other)
  {
  }

  /** A lane that does not lose a block when it is handed out. */
  lemma {:induction false} OtherLaneKeeps(cfg: Limits, h: History, d: Direction, lane: Lane, ob: Block)
    requires cfg.atrPeriod >= 1 && Sound(cfg, d, lane, h) && Complete(cfg, d, lane, h)
    requires Live(cfg, h, ob) && ob.direction != d
    ensures var h' := Given(h, Some(ob)); Sound(cfg, d, lane, h') && Complete(cfg, d, lane, h')
  {
    var h' := Given(h, Some(ob));
    forall o: Block | o.direction == d && (Live(cfg, h, o) || Waiting(cfg, h, o))
      ensures o.born != ob.born && Live(cfg, h', o) == Live(cfg, h, o) && Waiting(cfg, h', o) == Waiting(cfg, h, o)
    {
      if o.born == ob.born {
        NameIsUnique(cfg, h, ob, o);
      }
    }
  }

  lemma {:induction false} SpendSound(cfg: Limits, h: History, d: Direction, lane: Lane, i: nat)
    requires cfg.atrPeriod >= 1 && Sound(cfg, d, lane, h)
    requires i < |lane.active| && !lane.active[i].mitigated
    ensures Live(cfg, h, lane.active[i])
    ensures Sound(cfg, d, Spend(lane, i), Given(h, Some(lane.active[i])))
  {
    var ob, next := lane.active[i], Spend(lane, i);
    var h' := Given(h, Some(ob));
    forall o | o in next.pending ensures o.direction == d && o.born !in h'.given && Waiting(cfg, h', o) {
      if o.born == ob.born {
        NameIsUnique(cfg, h, ob, o);
      }
    }
    forall o | o in next.active
      ensures o.direction == d && FirstBreak(h'.events, d, o.born).Some? && (!o.mitigated ==> Live(cfg, h', o))
    {
      var j :| 0 <= j < |next.active| && next.active[j] == o;
      assert j != i ==> lane.active[j] == o && o.born != ob.born;
    }
  }

  lemma {:induction false} SpendComplete(cfg: Limits, h: History, d: Direction, lane: Lane, i: nat)
    requires cfg.atrPeriod >= 1 && Complete(cfg, d, lane, h)
    requires i < |lane.active|
    ensures Complete(cfg, d, Spend(lane, i), Given(h, Some(lane.active[i])))
  {
    var ob, next := lane.active[i], Spend(lane, i);
    var h' := Given(h, Some(ob));
    forall o: Block | o.direction == d && o.born !in h'.evicted
      ensures (Waiting(cfg, h', o) ==> o in next.pending) && (Live(cfg, h', o) ==> o in next.active)
    {
      if Waiting(cfg, h', o) {
        assert Waiting(cfg, h, o);
      }
      if Live(cfg, h', o) {
        assert Live(cfg, h, o);
        var j :| 0 <= j < |lane.active| && lane.active[j] == o;
        assert next.active[j] == o;
      }
    }
  }

  lemma {:induction false} PoiKeepsInv(cfg: Limits, t: Zones, h: History, lo: real, hi: real, d: Direction)
    requires ValidLimits(cfg) && Inv(cfg, t, h)
    ensures Inv(cfg, PoiAt(t, lo, hi, d).0, Given(h, PoiAt(t, lo, hi, d).1))
  {
    var lane := LaneOf(t, d);
    var i := Pick(lane.active, lo, hi);
    if i < |lane.active| {
      assert d == Long ==> lane == t.longs;
      SpendSound(cfg, h, d, lane, i);
      SpendComplete(cfg, h, d, lane, i);
      OtherLaneKeeps(cfg, h, Opposite(d), LaneOf(t, Opposite(d)), lane.active[i]);
      var h' := Given(h, Some(lane.active[i]));
      forall n | n in h'.given ensures Confirmed(cfg, h', n) {
        assert n != lane.active[i].born ==> Confirmed(cfg, h, n);
      }
    }
  }

  lemma {:induction false} PickLatest(xs: seq<Block>, lo: real, hi: real, ob: Block)
    requires Ascending(xs) && ob in xs && !ob.mitigated && Overlaps(ob, lo, hi)
    ensures Pick(xs, lo, hi) < |xs| && ob.born <= xs[Pick(xs, lo, hi)].born
  {
    var j :| 0 <= j < |xs| && xs[j] == ob;
  }

  lemma {:induction false} LaneInv(cfg: Limits, t: Zones, h: History, d: Direction)
    requires cfg.atrPeriod >= 1 && Inv(cfg, t, h)
    ensures Sound(cfg, d, LaneOf(t, d), h) && Complete(cfg, d, LaneOf(t, d), h)
  {
  }

  /** The one picked among the active blocks of a lane. */
  lemma {:induction false} PickExact(cfg: Limits, d: Direction, lane: Lane, h: History, lo: real, hi: real)
    requires cfg.atrPeriod >= 1 && Sound(cfg, d, lane, h) && Complete(cfg, d, lane, h)
    ensures var i := Pick(lane.active, lo, hi);
            && (i < |lane.active| ==>
                  var ob := lane.active[i]; Live(cfg, h, ob) && ob.direction == d && Overlaps(ob, lo, hi))
            && forall ob: Block ::
                 Live(cfg, h, ob) && ob.direction == d && ob.born !in h.evicted && Overlaps(ob, lo, hi) ==>
                   i < |lane.active| && ob.born <= lane.active[i].born
  {
    var i := Pick(lane.active, lo, hi);
    if i < |lane.active| {
      assert lane.active[i] in lane.active;
    }
    forall ob: Block | Live(cfg, h, ob) && ob.direction == d && ob.born !in h.evicted && Overlaps(ob, lo, hi)
      ensures i < |lane.active| && ob.born <= lane.active[i].born
    {
      assert ob in lane.active;
      PickLatest(lane.active, lo, hi, ob);
    }
  }

  /** What asking returns: the latest live block overlapping [lo, hi] among those the bounded queues
      have not pushed out, and none exactly when there is none. */
  lemma {:induction false} PoiExact(cfg: Limits, t: Zones, h: History, lo: real, hi: real, d: Direction)
    requires ValidLimits(cfg) && Inv(cfg, t, h)
    ensures var r := PoiAt(t, lo, hi, d).1;
            && (r.Some? ==> Live(cfg, h, r.value) && r.value.direction == d && Overlaps(r.value, lo, hi))
            && forall ob: Block ::
                 Live(cfg, h, ob) && ob.direction == d && ob.born !in h.evicted && Overlaps(ob, lo, hi) ==>
                   r.Some? && ob.born <= r.value.born
  {
    LaneInv(cfg, t, h, d);
    PickExact(cfg, d, LaneOf(t, d), h, lo, hi);
  }

  // ------------------------------------------------------------------ runs

  datatype Op = Bar(c: Candle, event: Option<Event>) | Ask(lo: real, hi: real, d: Direction)

  /** The tracker, its history and what each operation handed out. */
  datatype World = World(t: Zones, h: History, out: seq<Option<Block>>)

  function Step(cfg: Limits, w: World, op: Op): World
    requires ValidLimits(cfg)
  {
    match op
    case Bar(c, e) => World(Advance(cfg, w.t, c, e), Fed(cfg, w.t, w.h, c, e), w.out + [None])
    case Ask(lo, hi, d) =>
      var (t, r) := PoiAt(w.t, lo, hi, d);
      World(t, Given(w.h, r), w.out + [r])
  }

  function Run(cfg: Limits, ops: seq<Op>): (w: World)
    requires ValidLimits(cfg)
    ensures |w.out| == |ops|
    decreases |ops|
  {
    if ops == [] then World(NewZones, Nothing, []) else Step(cfg, Run(cfg, ops[..|ops| - 1]), ops[|ops| - 1])
  }

  /** Nothing handed out is forgotten. */
  ghost predicate Remembers(w: World) {
    forall i :: 0 <= i < |w.out| && w.out[i].Some? ==> w.out[i].value.born in w.h.given
  }

  ghost predicate AllDifferent(out: seq<Option<Block>>) {
    forall i, j :: 0 <= i < j < |out| && out[i].Some? && out[j].Some? ==> out[i].value.born != out[j].value.born
  }

  lemma {:induction false} StepKeeps(cfg: Limits, w: World, op: Op)
    requires ValidLimits(cfg) && Inv(cfg, w.t, w.h) && Remembers(w) && AllDifferent(w.out)
    ensures var w' := Step(cfg, w, op); Inv(cfg, w'.t, w'.h) && Remembers(w') && AllDifferent(w'.out)
  {
    match op
    case Bar(c, e) =>
      UpdateKeepsInv(cfg, w.t, w.h, c, e);
      OutGrows(w, w.t, None);
    case Ask(lo, hi, d) =>
      PoiKeepsInv(cfg, w.t, w.h, lo, hi, d);
      PoiExact(cfg, w.t, w.h, lo, hi, d);
      OutGrows(w, PoiAt(w.t, lo, hi, d).0, PoiAt(w.t, lo, hi, d).1);
  }

  lemma {:induction false} OutGrows(w: World, t: Zones, r: Option<Block>)
    requires Remembers(w) && AllDifferent(w.out) && (r.Some? ==> r.value.born !in w.h.given)
    ensures var w' := World(t, Given(w.h, r), w.out + [r]); Remembers(w') && AllDifferent(w'.out)
  {
  }

  lemma {:induction false} RunKeeps(cfg: Limits, ops: seq<Op>)
    requires ValidLimits(cfg)
    ensures var w := Run(cfg, ops); Inv(cfg, w.t, w.h) && Remembers(w) && AllDifferent(w.out)
    decreases |ops|
  {
    if ops != [] {
      RunKeeps(cfg, ops[..|ops| - 1]);
      StepKeeps(cfg, Run(cfg, ops[..|ops| - 1]), ops[|ops| - 1]);
    }
  }

  /** In every run a block is handed out at most once. */
  lemma {:induction false} HandedOutOnce(cfg: Limits, ops: seq<Op>, i: nat, j: nat)
    requires ValidLimits(cfg) && i < j < |ops|
    requires Run(cfg, ops).out[i].Some? && Run(cfg, ops).out[j].Some?
    ensures Run(cfg, ops).out[i] != Run(cfg, ops).out[j]
    ensures Run(cfg, ops).out[i].value.born != Run(cfg, ops).out[j].value.born
  {
    RunKeeps(cfg, ops);
  }

  /** The queues stay bounded and sorted by birth, and no candidate outlives its window. */
  lemma {:induction false} QueuesStayShort(cfg: Limits, ops: seq<Op>, d: Direction)
    requires ValidLimits(cfg)
    ensures var w := Run(cfg, ops);
            var lane := LaneOf(w.t, d);
            && |lane.pending| <= MAX_PENDING && |lane.active| <= cfg.maxBlocks
            && Ascending(lane.pending) && Ascending(lane.active)
            && forall ob <- lane.pending :: w.t.bar - ob.born <= cfg.confirm
  {
    RunKeeps(cfg, ops);
  }

  // ------------------------------------------------------------------ the code itself

  class OrderBlockTracker {
    const cfg: Limits
    var atr: Atr
    var recent: seq<Candle>
    var bar: nat
    var pending: map<Direction, seq<Block>>
    var active: map<Direction, seq<Block>>

    ghost predicate Valid()
      reads this`pending, this`active
    {
      && ValidLimits(cfg)
      && (forall d: Direction :: d in pending && d in active)
      && (forall d: Direction :: |pending[d]| <= MAX_PENDING && |active[d]| <= cfg.maxBlocks)
    }

    function LaneNow(d: Direction): Lane
      requires Valid()
      reads this`pending, this`active
    {
      Lane(pending[d], active[d])
    }

    function Model(): Zones
      requires Valid()
      reads this
    {
      Zones(atr, recent, bar, LaneNow(Long), LaneNow(Short))
    }

    constructor (cfg: Limits)
      requires ValidLimits(cfg)
      ensures Valid() && this.cfg == cfg && Model() == NewZones
    {
      this.cfg := cfg;
      atr, recent, bar := NewAtr, [], 0;
      pending, active := map[Long := [], Short := []], map[Long := [], Short := []];
      new;
      forall d: Direction ensures d in pending && d in active && pending[d] == active[d] == [] {
        assert d == Long || d == Short;
      }
    }

    /** The first step of `update` for one direction. */
    method SiftActive(d: Direction, c: Candle)
      requires Valid()
      modifies this`active
      ensures Valid() && LaneNow(Opposite(d)) == old(LaneNow(Opposite(d)))
      ensures LaneNow(d) == Sifted(cfg, old(LaneNow(d)), bar, c)
    {
      var reg, keep, i := active[d], [], 0;
      while i < |reg|
        invariant 0 <= i <= |reg|
        invariant keep == Sift(cfg, reg[..i], bar, c)
      {
        assert reg[..i + 1][..i] == reg[..i];
        var ob := reg[i];
        i := i + 1;
        if bar - ob.born >= cfg.expiry || Through(c, ob) {
          continue;
        }
        if !ob.mitigated && c.low <= ob.top && c.high >= ob.bottom {
          ob := ob.(mitigated := true);
        }
        keep := keep + [ob];
      }
      assert reg[..|reg|] == reg;
      SiftShort(cfg, reg, bar, c);
      active := active[d := keep];
    }

    /** The scan for the latest candle against the displacement. */
    method Scan(d: Direction) returns (from: Option<Candle>)
      ensures from == Origin(recent, d)
    {
      var i := |recent|;
      assert recent[..i] == recent;
      while i > 0
        invariant 0 <= i <= |recent|
        invariant Origin(recent[..i], d) == Origin(recent, d)
      {
        assert recent[..i][..i - 1] == recent[..i - 1];
        i := i - 1;
        if Against(recent[i], d) {
          return Some(recent[i]);
        }
      }
      return None;
    }

    method Enqueue(d: Direction, ob: Block)
      requires Valid()
      modifies this`pending
      ensures Valid() && LaneNow(Opposite(d)) == old(LaneNow(Opposite(d)))
      ensures LaneNow(d) == old(LaneNow(d)).(pending := Push(old(pending[d]), MAX_PENDING, ob))
    {
      pending := pending[d := Push(pending[d], MAX_PENDING, ob)];
    }

    method AddCandidate(c: Candle)
      requires Valid()
      modifies this`pending
      ensures Valid()
      ensures var nb := Newborn(cfg, atr.value, recent, bar, c);
              && LaneNow(Long) == Queued(old(LaneNow(Long)), Long, nb)
              && LaneNow(Short) == Queued(old(LaneNow(Short)), Short, nb)
    {
      if Displaced(cfg, atr.value, c) {
        var d := if c.close > c.open then Long else Short;
        var from := Scan(d);
        if from.Some? {
          var ob := Block(from.value.ts, d, from.value.high, from.value.low, false, bar);
          Enqueue(d, ob);
        }
      }
    }

    method Promote(d: Direction)
      requires Valid()
      modifies this`pending, this`active
      ensures Valid() && LaneNow(Opposite(d)) == old(LaneNow(Opposite(d)))
      ensures LaneNow(d) == Lane([], LastOf(old(active[d]) + Within(cfg, old(pending[d]), bar), cfg.maxBlocks))
    {
      var pend, was, i := pending[d], active[d], 0;
      var reg := was;
      while i < |pend|
        invariant 0 <= i <= |pend|
        invariant pending == old(pending) && active == old(active)
        invariant reg == LastOf(was + Within(cfg, pend[..i], bar), cfg.maxBlocks)
      {
        assert pend[..i + 1][..i] == pend[..i];
        ghost var sofar := was + Within(cfg, pend[..i], bar);
        if bar - pend[i].born <= cfg.confirm {
          PushKeepsLast(sofar, cfg.maxBlocks, pend[i]);
          reg := Push(reg, cfg.maxBlocks, pend[i]);
          assert was + Within(cfg, pend[..i + 1], bar) == sofar + [pend[i]];
        }
        i := i + 1;
      }
      assert pend[..|pend|] == pend;
      active := active[d := reg];
      pending := pending[d := []];
    }

    method Purge(d: Direction)
      requires Valid()
      modifies this`pending
      ensures Valid() && LaneNow(Opposite(d)) == old(LaneNow(Opposite(d)))
      ensures LaneNow(d) == Lane(DropStale(cfg, old(pending[d]), bar), active[d])
    {
      var pend := pending[d];
      while pend != [] && bar - pend[0].born > cfg.confirm
        invariant DropStale(cfg, pend, bar) == DropStale(cfg, old(pending[d]), bar)
        invariant |pend| <= MAX_PENDING
        decreases |pend|
      {
        pend := pend[1..];
      }
      pending := pending[d := pend];
    }

    /** Promotion and purge of both directions. */
    method Settle(event: Option<Event>)
      requires Valid()
      modifies this`pending, this`active
      ensures Valid()
      ensures LaneNow(Long) == Settled(cfg, old(LaneNow(Long)), Long, bar, event)
      ensures LaneNow(Short) == Settled(cfg, old(LaneNow(Short)), Short, bar, event)
    {
      if event.Some? && pending[event.value.direction] != [] {
        Promote(event.value.direction);
      }
      Purge(Long);
      Purge(Short);
    }

    /** What `update` does to the two directions. */
    method FeedLanes(c: Candle, event: Option<Event>)
      requires Valid()
      modifies this`pending, this`active
      ensures Valid()
      ensures var nb := Newborn(cfg, atr.value, recent, bar, c);
              && LaneNow(Long) == FeedLane(cfg, old(LaneNow(Long)), Long, bar, c, nb, event)
              && LaneNow(Short) == FeedLane(cfg, old(LaneNow(Short)), Short, bar, c, nb, event)
    {
      SiftActive(Long, c);
      SiftActive(Short, c);
      AddCandidate(c);
      Settle(event);
    }

    /** `update`. */
    method Feed(c: Candle, event: Option<Event>)
      requires Valid()
      modifies this
      ensures Valid() && Model() == Advance(cfg, old(Model()), c, event)
    {
      bar := bar + 1;
      FeedLanes(c, event);
      See(c);
    }

    /** The average true range and the latest bars. */
    method See(c: Candle)
      requires Valid()
      modifies this`atr, this`recent
      ensures Valid() && LaneNow(Long) == old(LaneNow(Long)) && LaneNow(Short) == old(LaneNow(Short))
      ensures atr == UpdateAtr(cfg.atrPeriod, old(atr), c.high, c.low, c.close)
      ensures recent == Push(old(recent), RECENT_BARS, c)
    {
      atr := UpdateAtr(cfg.atrPeriod, atr, c.high, c.low, c.close);
      recent := Push(recent, RECENT_BARS, c);
    }

    /** `poi_at`. */
    method Poi(lo: real, hi: real, d: Direction) returns (r: Option<Block>)
      requires Valid()
      modifies this`active
      ensures Valid() && (Model(), r) == PoiAt(old(Model()), lo, hi, d)
    {
      var reg := active[d];
      var i := |reg|;
      while i > 0
        invariant 0 <= i <= |reg|
        invariant forall j :: i <= j < |reg| ==> reg[j].mitigated || !Overlaps(reg[j], lo, hi)
      {
        i := i - 1;
        if !reg[i].mitigated && reg[i].bottom <= hi && reg[i].top >= lo {
          assert i == Pick(reg, lo, hi);
          active := active[d := reg[i := reg[i].(mitigated := true)]];
          return Some(reg[i]);
        }
      }
      return None;
    }
  }
}