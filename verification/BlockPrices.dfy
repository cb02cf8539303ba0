/** Order blocks in prices: which bar leaves one, over which range, and what it takes to be handed out. */
module BlockPrices {
  import opened Prelude
  import opened Models
  import opened OrderBlocks
  import Structure
  import Indicators
  import Evictions
  import G = OrbGauges

  function Times(a: real, b: real): real {
    a * b
  }

  predicate Rose(c: Candle) {
    c.open < c.close
  }

  predicate Fell(c: Candle) {
    c.close < c.open
  }

  function Body(c: Candle): real {
    if c.close < c.open then c.open - c.close else c.close - c.open
  }

  /** Wide against this average true range, and mostly body. */
  predicate Wide(cfg: Limits, atr: Option<real>, c: Candle) {
    && c.low < c.high && (Rose(c) || Fell(c)) && Body(c) >= Times(cfg.bodyFrac, c.high - c.low)
    && atr.Some? && c.high - c.low >= Times(cfg.atrMult, atr.value)
  }

  /** Bar n, counted from 1, is a thrust: most of a range that is wide against the average true range of the
      bars before it, which there must be, is body. */
  predicate Thrust(cfg: Limits, bars: seq<Candle>, n: nat)
    requires cfg.atrPeriod >= 1 && 1 <= n <= |bars|
  {
    Wide(cfg, G.AtrOver(cfg.atrPeriod, bars[..n - 1]).value, bars[n - 1])
  }

  /** Bar j is the latest of the ten before bar n, counted from 1, that closed against it. */
  predicate LastAgainst(bars: seq<Candle>, n: nat, j: nat)
    requires 1 <= n <= |bars|
  {
    && j + 1 < n && n - 1 - j <= 10
    && (if Rose(bars[n - 1]) then Fell(bars[j]) else Rose(bars[j]))
    && forall i :: j < i < n - 1 ==> !(if Rose(bars[n - 1]) then Fell(bars[i]) else Rose(bars[i]))
  }

  /** The block is the range of that bar. */
  predicate LeftBy(bars: seq<Candle>, ob: Block, j: nat) {
    && 1 <= ob.born <= |bars| && LastAgainst(bars, ob.born, j)
    && ob == Block(bars[j].ts, if Rose(bars[ob.born - 1]) then Long else Short, bars[j].high, bars[j].low, false,
                   ob.born)
  }

  ghost predicate BornInPrices(cfg: Limits, bars: seq<Candle>, ob: Block)
    requires cfg.atrPeriod >= 1
  {
    1 <= ob.born <= |bars| && Thrust(cfg, bars, ob.born) && exists j: nat :: LeftBy(bars, ob, j)
  }

  lemma {:induction false} AtrIs(cfg: Limits, bars: seq<Candle>)
    requires cfg.atrPeriod >= 1
    ensures RunAtr(cfg, bars) == G.AtrOver(cfg.atrPeriod, bars)
    decreases |bars|
  {
    if bars != [] {
      AtrIs(cfg, bars[..|bars| - 1]);
    }
  }

  lemma BodyIs(body: real, range: real, frac: real)
    requires range > 0.0
    ensures body / range >= frac <==> body >= Times(frac, range)
  {
    var q := body / range;
    assert body == q * range;
    assert (q - frac) * range == q * range - frac * range;
    if q < frac {
      assert (frac - q) * range > 0.0;
    }
  }

  lemma {:induction false} ThrustIs(cfg: Limits, bars: seq<Candle>, n: nat)
    requires cfg.atrPeriod >= 1 && 1 <= n <= |bars|
    ensures Displaced(cfg, RunAtr(cfg, bars[..n - 1]).value, bars[n - 1]) <==> Thrust(cfg, bars, n)
  {
    AtrIs(cfg, bars[..n - 1]);
    WideIs(cfg, G.AtrOver(cfg.atrPeriod, bars[..n - 1]).value, bars[n - 1]);
  }

  lemma WideIs(cfg: Limits, atr: Option<real>, c: Candle)
    ensures Displaced(cfg, atr, c) <==> Wide(cfg, atr, c)
  {
    if c.low < c.high {
      BodyIs(Body(c), c.high - c.low, cfg.bodyFrac);
      assert Abs(c.close - c.open) == Body(c);
    }
  }

  predicate IsOrigin(recent: seq<Candle>, d: Direction, j: nat) {
    && j < |recent| && (if d == Long then Fell(recent[j]) else Rose(recent[j]))
    && forall i :: j < i < |recent| ==> !(if d == Long then Fell(recent[i]) else Rose(recent[i]))
  }

  lemma {:induction false} OriginIs(recent: seq<Candle>, d: Direction) returns (at: nat)
    ensures Origin(recent, d).Some? ==> IsOrigin(recent, d, at) && Origin(recent, d).value == recent[at]
    ensures forall j: nat :: IsOrigin(recent, d, j) ==> Origin(recent, d).Some? && j == at
    decreases |recent|
  {
    at := 0;
    if recent != [] {
      var n := |recent| - 1;
      if Against(recent[n], d) {
        at := n;
      } else {
        at := OriginIs(recent[..n], d);
        forall j: nat | IsOrigin(recent, d, j) ensures IsOrigin(recent[..n], d, j) {}
      }
    }
  }

  /** Of the bars before bar n, the one a block comes from. */
  lemma {:induction false} LastAgainstIs(bars: seq<Candle>, n: nat, d: Direction) returns (at: nat)
    requires 1 <= n <= |bars| && d == (if Rose(bars[n - 1]) then Long else Short)
    ensures var r := Origin(Structure.LastOf(bars[..n - 1], RECENT_BARS), d);
            && (r.Some? ==> LastAgainst(bars, n, at) && r.value == bars[at])
            && forall j: nat :: LastAgainst(bars, n, j) ==> r.Some? && j == at
  {
    var recent := Structure.LastOf(bars[..n - 1], RECENT_BARS);
    var from := n - 1 - |recent|;
    assert forall i :: 0 <= i < |recent| ==> recent[i] == bars[from + i];
    var k := OriginIs(recent, d);
    at := from + k;
    if Origin(recent, d).Some? {
      forall i | at < i < n - 1 ensures !(if d == Long then Fell(bars[i]) else Rose(bars[i])) {
        assert recent[i - from] == bars[i];
      }
    }
    forall j: nat | LastAgainst(bars, n, j) ensures Origin(recent, d).Some? && j == at {
      assert j >= from;
      assert IsOrigin(recent, d, j - from);
    }
  }

  /** A block is born just when prices say so. */
  lemma {:induction false} BornIs(cfg: Limits, bars: seq<Candle>, ob: Block)
    requires cfg.atrPeriod >= 1
    ensures Born(cfg, bars, ob) <==> BornInPrices(cfg, bars, ob)
  {
    if 1 <= ob.born <= |bars| {
      ThrustIs(cfg, bars, ob.born);
      var at := LastAgainstIs(bars, ob.born, if Rose(bars[ob.born - 1]) then Long else Short);
      if Born(cfg, bars, ob) {
        assert LeftBy(bars, ob, at);
      }
    }
  }

  // ------------------------------------------------------------------ to be handed out

  /** The bar trades outside the block and does not close beyond its far edge. */
  predicate LeavesAlone(c: Candle, ob: Block) {
    && (ob.top < c.low || c.high < ob.bottom)
    && if ob.direction == Long then ob.bottom <= c.close else c.close <= ob.top
  }

  predicate BrokeThatWay(e: Option<Structure.Event>, d: Direction) {
    e.Some? && e.value.direction == d
  }

  /** Bar `a`, counted from 1, is the first from the block's birth on to break structure its way. */
  predicate ConfirmedAt(events: seq<Option<Structure.Event>>, ob: Block, a: nat) {
    && 1 <= ob.born <= a <= |events| && BrokeThatWay(events[a - 1], ob.direction)
    && forall i :: ob.born - 1 <= i < a - 1 ==> !BrokeThatWay(events[i], ob.direction)
  }

  /** Confirmed in time, not expired by a later bar, left alone by every later bar. */
  ghost predicate Stands(cfg: Limits, bars: seq<Candle>, events: seq<Option<Structure.Event>>, ob: Block) {
    exists a: nat ::
      && ConfirmedAt(events, ob, a) && a - ob.born <= cfg.confirm
      && (a < |bars| ==> |bars| - ob.born < cfg.expiry)
      && forall i :: a <= i < |bars| ==> LeavesAlone(bars[i], ob)
  }

  lemma {:induction false} FirstBreakIs(events: seq<Option<Structure.Event>>, ob: Block)
    requires 1 <= ob.born
    ensures var f := FirstBreak(events, ob.direction, ob.born);
            && (f.Some? ==> ConfirmedAt(events, ob, f.value))
            && (f.None? ==> forall i :: ob.born - 1 <= i < |events| ==> !BrokeThatWay(events[i], ob.direction))
            && forall a: nat :: ConfirmedAt(events, ob, a) ==> f == Some(a)
    decreases |events|
  {
    var n := |events|;
    if n != 0 && n >= ob.born {
      FirstBreakIs(events[..n - 1], ob);
      assert forall i :: 0 <= i < n - 1 ==> events[..n - 1][i] == events[i];
    }
  }

  lemma {:induction false} LiveIs(cfg: Limits, h: History, ob: Block)
    requires cfg.atrPeriod >= 1 && |h.bars| == |h.events|
    ensures Live(cfg, h, ob) <==>
            BornInPrices(cfg, h.bars, ob) && Stands(cfg, h.bars, h.events, ob) && ob.born !in h.given
  {
    BornIs(cfg, h.bars, ob);
    if 1 <= ob.born <= |h.bars| {
      FirstBreakIs(h.events, ob);
      forall c: Candle ensures LeavesAlone(c, ob) <==> !Touches(c, ob) && !Through(c, ob) {}
    }
  }

  /** What it takes to be handed out for the prices from lo to hi. */
  ghost predicate OnOffer(cfg: Limits, h: History, ob: Block, lo: real, hi: real, d: Direction)
    requires cfg.atrPeriod >= 1
  {
    && ob.direction == d && ob.bottom <= hi && lo <= ob.top
    && BornInPrices(cfg, h.bars, ob) && Stands(cfg, h.bars, h.events, ob)
    && ob.born !in h.given && ob.born !in h.evicted
  }

  /** After any run of bars and requests, asking hands out the latest block on offer, and none exactly when
      there is none. */
  lemma {:induction false} AskInPrices(cfg: Limits, ops: seq<Op>, lo: real, hi: real, d: Direction)
    requires ValidLimits(cfg)
    ensures var w := OrderBlocks.Run(cfg, ops);
            var r := PoiAt(w.t, lo, hi, d).1;
            && (r.Some? ==> OnOffer(cfg, w.h, r.value, lo, hi, d))
            && (forall ob: Block :: OnOffer(cfg, w.h, ob, lo, hi, d) ==> r.Some? && ob.born <= r.value.born)
            && (r.None? <==> forall ob: Block :: !OnOffer(cfg, w.h, ob, lo, hi, d))
  {
    Evictions.AskExact(cfg, ops, lo, hi, d);
    RunKeeps(cfg, ops);
    var h := OrderBlocks.Run(cfg, ops).h;
    forall ob: Block ensures OnOffer(cfg, h, ob, lo, hi, d) <==> Evictions.Available(cfg, h, ob, lo, hi, d) {
      LiveIs(cfg, h, ob);
    }
  }
}
