/** The volume profile in prices: which bars a row's volume comes from, and how far its levels can be from
    prices that were traded. */
module ProfilePrices {
  import opened Prelude
  import opened Models
  import opened Profile

  /** The lower edge of row r. */
  function Edge(cfg: Config, anchor: real, r: int): real {
    anchor + Product(r as real, cfg.rowSize)
  }

  function Product(a: real, b: real): real {
    a * b
  }

  /** The bar's prices, from the lower to the higher of its two ends, meet row r. */
  predicate Meets(cfg: Config, anchor: real, c: Candle, r: int) {
    Min(c.low, c.high) < Edge(cfg, anchor, r + 1) && Edge(cfg, anchor, r) <= Max(c.low, c.high)
  }

  /** Rows a..b are just those the bar meets. */
  ghost predicate Met(cfg: Config, anchor: real, c: Candle, a: int, b: int) {
    a <= b && forall r :: Meets(cfg, anchor, c, r) <==> a <= r <= b
  }

  /** What a bar weighs: its volume or, if that is wanted, one unit of time. */
  predicate Weighs(cfg: Config, c: Candle, w: real) {
    w == if c.volume > 0.0 then c.volume else if cfg.tpoFallback then 1.0 else 0.0
  }

  /** The bar counts: it weighs something and meets no more rows than allowed. */
  ghost predicate Counted(cfg: Config, anchor: real, c: Candle) {
    exists a, b :: Met(cfg, anchor, c, a, b) && b - a + 1 <= cfg.maxRowsPerBar
                   && exists w: real :: Weighs(cfg, c, w) && w > 0.0
  }

  /** What the bar adds to row r: an even share of its weight if it counts and meets the row. */
  ghost predicate Adds(cfg: Config, anchor: real, c: Candle, r: int, x: real) {
    exists a, b, w: real ::
      && Met(cfg, anchor, c, a, b) && Weighs(cfg, c, w)
      && x == if w > 0.0 && b - a + 1 <= cfg.maxRowsPerBar && a <= r <= b then w / (b - a + 1) as real else 0.0
  }

  function Total(xs: seq<real>): real
    decreases |xs|
  {
    if xs == [] then 0.0 else Total(xs[..|xs| - 1]) + xs[|xs| - 1]
  }

  // ------------------------------------------------------------------ rows are price bands

  lemma EdgesAscend(cfg: Config, anchor: real, r: int, q: int)
    requires ValidConfig(cfg) && r <= q
    ensures Edge(cfg, anchor, r) <= Edge(cfg, anchor, q)
  {
    assert (q - r) as real * cfg.rowSize >= 0.0;
    assert q as real * cfg.rowSize - r as real * cfg.rowSize == (q - r) as real * cfg.rowSize;
  }

  lemma RowBounds(x: real, size: real, y: real, m: int)
    requires size > 0.0 && y == x / size && m == y.Floor
    ensures Product(m as real, size) <= x < Product((m + 1) as real, size)
  {
    assert m as real <= y < (m + 1) as real;
    assert y * size == x;
    ProductMonotone(m as real, y, size);
    ProductMonotone(y, (m + 1) as real, size);
  }

  lemma ProductMonotone(a: real, b: real, k: real)
    requires k > 0.0
    ensures a <= b ==> Product(a, k) <= Product(b, k)
    ensures a < b ==> Product(a, k) < Product(b, k)
  {
    assert (b - a) * k == b * k - a * k;
  }

  /** The row of a price is the band it lies in. */
  lemma RowIsBand(cfg: Config, anchor: real, px: real)
    requires ValidConfig(cfg)
    ensures Edge(cfg, anchor, RowOf(cfg, anchor, px)) <= px < Edge(cfg, anchor, RowOf(cfg, anchor, px) + 1)
  {
    RowBounds(px - anchor, cfg.rowSize, (px - anchor) / cfg.rowSize, RowOf(cfg, anchor, px));
  }

  lemma {:induction false} RowsAreMet(cfg: Config, anchor: real, c: Candle)
    requires ValidConfig(cfg)
    ensures var (lo, hi) := Rows(cfg, anchor, c); Met(cfg, anchor, c, lo, hi)
  {
    var (lo, hi) := Rows(cfg, anchor, c);
    RowIsBand(cfg, anchor, c.low);
    RowIsBand(cfg, anchor, c.high);
    LowerRow(cfg, anchor, c);
    forall r ensures Meets(cfg, anchor, c, r) <==> lo <= r <= hi {
      MeetsBetween(cfg, anchor, c, lo, hi, r);
    }
  }

  /** The two rows are those of the lower and the higher price. */
  lemma LowerRow(cfg: Config, anchor: real, c: Candle)
    requires ValidConfig(cfg)
    ensures var (lo, hi) := Rows(cfg, anchor, c);
            && Edge(cfg, anchor, lo) <= Min(c.low, c.high) < Edge(cfg, anchor, lo + 1)
            && Edge(cfg, anchor, hi) <= Max(c.low, c.high) < Edge(cfg, anchor, hi + 1)
  {
    RowIsBand(cfg, anchor, c.low);
    RowIsBand(cfg, anchor, c.high);
    var a, b := RowOf(cfg, anchor, c.low), RowOf(cfg, anchor, c.high);
    if a < b {
      EdgesAscend(cfg, anchor, a + 1, b);
    } else if b < a {
      EdgesAscend(cfg, anchor, b + 1, a);
    }
  }

  lemma MeetsBetween(cfg: Config, anchor: real, c: Candle, lo: int, hi: int, r: int)
    requires ValidConfig(cfg)
    requires Edge(cfg, anchor, lo) <= Min(c.low, c.high) < Edge(cfg, anchor, lo + 1)
    requires Edge(cfg, anchor, hi) <= Max(c.low, c.high) < Edge(cfg, anchor, hi + 1)
    ensures Meets(cfg, anchor, c, r) <==> lo <= r <= hi
  {
    if r < lo {
      EdgesAscend(cfg, anchor, r + 1, lo);
    } else {
      EdgesAscend(cfg, anchor, lo + 1, r + 1);
    }
    if r > hi {
      EdgesAscend(cfg, anchor, hi + 1, r);
    } else {
      EdgesAscend(cfg, anchor, r, hi);
    }
  }

  lemma MetOnce(cfg: Config, anchor: real, c: Candle, a: int, b: int, a': int, b': int)
    requires Met(cfg, anchor, c, a, b) && Met(cfg, anchor, c, a', b')
    ensures a == a' && b == b'
  {
    assert Meets(cfg, anchor, c, a) && Meets(cfg, anchor, c, b);
    assert Meets(cfg, anchor, c, a') && Meets(cfg, anchor, c, b');
  }

  // ------------------------------------------------------------------ where the volume comes from

  lemma {:induction false} OneBarAdds(cfg: Config, s: State, c: Candle, r: int) returns (x: real)
    requires ValidConfig(cfg)
    ensures Adds(cfg, AnchorFor(s, c), c, r, x) && x >= 0.0
    ensures At(Update(cfg, s, c).hist, r) == At(s.hist, r) + x
    ensures r in Update(cfg, s, c).hist <==> r in s.hist || x > 0.0
    ensures x > 0.0 <==> Counted(cfg, AnchorFor(s, c), c) && Meets(cfg, AnchorFor(s, c), c, r)
  {
    var anchor := AnchorFor(s, c);
    var (lo, hi) := Rows(cfg, anchor, c);
    var w := Weight(cfg, c);
    RowsAreMet(cfg, anchor, c);
    assert Weighs(cfg, c, w);
    x := if Distributed(cfg, anchor, c) && lo <= r <= hi then w / (hi - lo + 1) as real else 0.0;
    assert Adds(cfg, anchor, c, r, x);
    CountedIs(cfg, anchor, c);
    if Distributed(cfg, anchor, c) {
      AddShareAt(s.hist, lo, hi, w / (hi - lo + 1) as real, r);
      SharePositive(w, hi - lo + 1);
    }
  }

  lemma CountedIs(cfg: Config, anchor: real, c: Candle)
    requires ValidConfig(cfg)
    ensures Counted(cfg, anchor, c) <==> Distributed(cfg, anchor, c)
  {
    var (lo, hi) := Rows(cfg, anchor, c);
    RowsAreMet(cfg, anchor, c);
    assert Weighs(cfg, c, Weight(cfg, c));
    if Counted(cfg, anchor, c) {
      var a, b :| Met(cfg, anchor, c, a, b) && b - a + 1 <= cfg.maxRowsPerBar
                  && exists w: real :: Weighs(cfg, c, w) && w > 0.0;
      MetOnce(cfg, anchor, c, a, b, lo, hi);
    }
  }

  lemma TotalSnoc(xs: seq<real>, x: real)
    ensures Total(xs + [x]) == Total(xs) + x
  {
    assert (xs + [x])[..|xs|] == xs;
  }

  /** Over every sequence of bars: the volume of a row is the sum of what the bars add to it, each an even
      share over the price bands it meets. */
  lemma {:induction false} RowVolume(cfg: Config, bars: seq<Candle>, r: int) returns (xs: seq<real>)
    requires ValidConfig(cfg)
    ensures |xs| == |bars| && forall i :: 0 <= i < |bars| ==> Adds(cfg, bars[0].low, bars[i], r, xs[i])
    ensures At(Run(cfg, bars).hist, r) == Total(xs)
    decreases |bars|
  {
    if bars == [] {
      xs := [];
    } else {
      var most, c := bars[..|bars| - 1], bars[|bars| - 1];
      xs := RowVolume(cfg, most, r);
      VolumeConserved(cfg, most);
      var x := OneBarAdds(cfg, Run(cfg, most), c, r);
      TotalSnoc(xs, x);
      xs := xs + [x];
    }
  }

  /** And a row holds volume exactly when its price band was met by a bar that counted. */
  lemma {:induction false} RowTraded(cfg: Config, bars: seq<Candle>, r: int)
    requires ValidConfig(cfg)
    ensures r in Run(cfg, bars).hist <==>
            exists i :: 0 <= i < |bars| && Counted(cfg, bars[0].low, bars[i]) && Meets(cfg, bars[0].low, bars[i], r)
    decreases |bars|
  {
    if bars != [] {
      var most, c, n := bars[..|bars| - 1], bars[|bars| - 1], |bars| - 1;
      RowTraded(cfg, most, r);
      VolumeConserved(cfg, most);
      var x := OneBarAdds(cfg, Run(cfg, most), c, r);
      assert most != [] ==> most[0] == bars[0];
      if r in Run(cfg, most).hist {
        var i :| 0 <= i < |most| && Counted(cfg, most[0].low, most[i]) && Meets(cfg, most[0].low, most[i], r);
        assert bars[i] == most[i];
      }
      if i :| 0 <= i < |bars| && Counted(cfg, bars[0].low, bars[i]) && Meets(cfg, bars[0].low, bars[i], r) {
        assert i < n ==> most[i] == bars[i];
      }
    }
  }

  // ------------------------------------------------------------------ levels and prices

  /** Some counted bar covers this price. */
  ghost predicate Covered(cfg: Config, bars: seq<Candle>, px: real)
    requires bars != []
  {
    exists i :: 0 <= i < |bars| && Counted(cfg, bars[0].low, bars[i])
                && Min(bars[i].low, bars[i].high) <= px <= Max(bars[i].low, bars[i].high)
  }

  /** Within half a row of each other. */
  predicate Near(cfg: Config, a: real, b: real) {
    -0.5 * cfg.rowSize <= a - b <= 0.5 * cfg.rowSize
  }

  /** The price of a row is the middle of its band. */
  lemma RowPriceIs(cfg: Config, anchor: real, r: int)
    ensures var px := RowPrice(cfg, anchor, r);
            && px - Edge(cfg, anchor, r) == 0.5 * cfg.rowSize
            && Edge(cfg, anchor, r + 1) - px == 0.5 * cfg.rowSize
  {
    assert (r as real + 0.5) * cfg.rowSize == r as real * cfg.rowSize + 0.5 * cfg.rowSize;
    assert (r + 1) as real * cfg.rowSize == r as real * cfg.rowSize + cfg.rowSize;
  }

  lemma MeetsNear(cfg: Config, anchor: real, c: Candle, r: int) returns (px: real)
    requires ValidConfig(cfg) && Meets(cfg, anchor, c, r)
    ensures Min(c.low, c.high) <= px <= Max(c.low, c.high) && Near(cfg, RowPrice(cfg, anchor, r), px)
  {
    var mid := RowPrice(cfg, anchor, r);
    RowPriceIs(cfg, anchor, r);
    px := Max(Min(c.low, c.high), Min(mid, Max(c.low, c.high)));
  }

  /** The price of a row that holds volume is within half a row of a price some counted bar covers. */
  lemma {:induction false} RowPriceTraded(cfg: Config, bars: seq<Candle>, r: int) returns (px: real)
    requires ValidConfig(cfg) && bars != [] && r in Run(cfg, bars).hist
    ensures Covered(cfg, bars, px) && Near(cfg, RowPrice(cfg, bars[0].low, r), px)
  {
    RowTraded(cfg, bars, r);
    var i :| 0 <= i < |bars| && Counted(cfg, bars[0].low, bars[i]) && Meets(cfg, bars[0].low, bars[i], r);
    px := MeetsNear(cfg, bars[0].low, bars[i], r);
  }

  /** Over every sequence of bars: the point of control is within half a row of a covered price, and the
      value area's edges are nowhere beyond the covered prices by more than that. */
  lemma {:induction false} LevelsTraded(cfg: Config, bars: seq<Candle>) returns (poc: real, low: real, high: real)
    requires ValidConfig(cfg) && LevelsOf(cfg, Run(cfg, bars)).Some?
    ensures bars != []
    ensures var lv := LevelsOf(cfg, Run(cfg, bars)).value;
            && Covered(cfg, bars, poc) && Near(cfg, lv.poc, poc)
            && Covered(cfg, bars, low) && low - 0.5 * cfg.rowSize <= lv.val
            && Covered(cfg, bars, high) && lv.vah <= high + 0.5 * cfg.rowSize
  {
    var s := Run(cfg, bars);
    VolumeConserved(cfg, bars);
    PocOfExact(s);
    var p := PocOf(s).value;
    var (mn, mx) := s.span.value;
    ExpandWithin(AreaOf(cfg, s), p, p);
    poc := RowPriceTraded(cfg, bars, p);
    low := RowPriceTraded(cfg, bars, mn);
    high := RowPriceTraded(cfg, bars, mx);
    var (lo, hi) := Expand(AreaOf(cfg, s), p, p);
    RowPriceMonotone(cfg, bars[0].low, mn, lo);
    RowPriceMonotone(cfg, bars[0].low, hi, mx);
  }

  /** There are levels once there have been enough bars and some volume; they are the middles of the heaviest row
      and of the two outer rows of the value area. */
  lemma {:induction false} LevelsAre(cfg: Config, bars: seq<Candle>)
    requires ValidConfig(cfg)
    ensures var s, lv := Run(cfg, bars), LevelsOf(cfg, Run(cfg, bars));
            && (lv.Some? <==> |bars| >= cfg.minBars && s.hist != map[])
            && (lv.Some? ==>
                  && bars != [] && s.span.Some? && PocOf(s).Some? && IsPoc(s.hist, PocOf(s).value)
                  && s.span.value.0 <= PocOf(s).value <= s.span.value.1
                  && var (lo, hi) := Expand(AreaOf(cfg, s), PocOf(s).value, PocOf(s).value);
                     && IsMiddle(cfg, bars[0].low, PocOf(s).value, lv.value.poc)
                     && IsMiddle(cfg, bars[0].low, lo, lv.value.val) && IsMiddle(cfg, bars[0].low, hi, lv.value.vah))
  {
    var s := Run(cfg, bars);
    VolumeConserved(cfg, bars);
    PocOfExact(s);
    HoldsVolume(s);
    if LevelsOf(cfg, s).Some? {
      var p := PocOf(s).value;
      var (lo, hi) := Expand(AreaOf(cfg, s), p, p);
      RowPriceIs(cfg, bars[0].low, p);
      RowPriceIs(cfg, bars[0].low, lo);
      RowPriceIs(cfg, bars[0].low, hi);
    }
  }

  predicate IsMiddle(cfg: Config, anchor: real, r: int, px: real) {
    px == anchor + Product(r as real, cfg.rowSize) + 0.5 * cfg.rowSize
  }

  lemma HoldsVolume(s: State)
    requires Inv(s)
    ensures s.hist != map[] <==> s.span.Some?
    ensures s.hist != map[] <==> s.total > 0.0
  {
    if s.span.Some? {
      RangeSumPositive(s.hist, s.span.value.0, s.span.value.1);
    }
  }

  // ------------------------------------------------------------------ an edge in a gap

  const Plain := Config(1.0, 0.7, 0.7, 0.3, 1, 10, true, true)

  function Tick(px: real, volume: real): Candle {
    Candle(0, px, px, px, px, volume)
  }

  const First := Tick(0.0, 10.0)
  const Second := Tick(1.0, 8.0)
  const Third := Tick(5.0, 1.0)
  const Gapped := [First, Second, Third]

  const After1 := State(Some(0.0), map[0 := 10.0], Some((0, 0)), 10.0, 1)
  const After2 := State(Some(0.0), map[0 := 10.0, 1 := 8.0], Some((0, 1)), 18.0, 2)
  const After3 := State(Some(0.0), map[0 := 10.0, 1 := 8.0, 5 := 1.0], Some((0, 5)), 19.0, 3)

  /** A bar at one price adds all its volume to one row. */
  lemma TickAdds(s: State, r: int, px: real, volume: real)
    requires AnchorFor(s, Tick(px, volume)) == 0.0 && px == r as real && volume > 0.0
    ensures Update(Plain, s, Tick(px, volume)) ==
            State(Some(0.0), s.hist[r := At(s.hist, r) + volume], Some(Widened(s.span, r, r)), s.total + volume,
                  s.bars + 1)
  {
    var c := Tick(px, volume);
    assert RowOf(Plain, 0.0, px) == r;
    assert Rows(Plain, 0.0, c) == (r, r) && Distributed(Plain, 0.0, c);
    assert AddShare(s.hist, r, r - 1, volume / 1.0) == s.hist;
  }

  lemma FirstAdds()
    ensures Update(Plain, Empty, First) == After1
  {
    TickAdds(Empty, 0, 0.0, 10.0);
    assert Update(Plain, Empty, First).hist == After1.hist;
  }

  lemma SecondAdds()
    ensures Update(Plain, After1, Second) == After2
  {
    TickAdds(After1, 1, 1.0, 8.0);
    assert Update(Plain, After1, Second).hist == After2.hist;
  }

  lemma ThirdAdds()
    ensures Update(Plain, After2, Third) == After3
  {
    TickAdds(After2, 5, 5.0, 1.0);
    var h := After2.hist;
    assert h[5 := At(h, 5) + 1.0] == After3.hist;
    assert Widened(After2.span, 5, 5) == (0, 5);
  }

  lemma {:induction false} RunOn(bars: seq<Candle>, n: nat, s: State, s': State)
    requires n < |bars| && Run(Plain, bars[..n]) == s && Update(Plain, s, bars[n]) == s'
    ensures Run(Plain, bars[..n + 1]) == s'
  {
    assert bars[..n + 1][..n] == bars[..n];
  }

  lemma {:induction false} GappedOne(bars: seq<Candle>)
    requires |bars| == 3 && bars[0] == First
    ensures Run(Plain, bars[..1]) == After1
  {
    FirstAdds();
    RunOn(bars, 0, Empty, After1);
  }

  lemma {:induction false} GappedTwo(bars: seq<Candle>)
    requires |bars| == 3 && bars[0] == First && bars[1] == Second
    ensures Run(Plain, bars[..2]) == After2
  {
    GappedOne(bars);
    SecondAdds();
    RunOn(bars, 1, After1, After2);
  }

  lemma {:induction false} GappedRun(bars: seq<Candle>)
    requires |bars| == 3 && bars[0] == First && bars[1] == Second && bars[2] == Third
    ensures Run(Plain, bars[..3]) == After3
  {
    GappedTwo(bars);
    ThirdAdds();
    RunOn(bars, 2, After2, After3);
  }

  lemma RunWhole(bars: seq<Candle>, s: State)
    requires Run(Plain, bars[..|bars|]) == s
    ensures Run(Plain, bars) == s
  {
    assert bars[..|bars|] == bars;
  }

  lemma {:induction false} GapPoc()
    ensures PocOf(After3) == Some(0)
  {
    var h := After3.hist;
    assert Heaviest(h, 0, -1) == None && Heaviest(h, 0, 0) == Some(0) && Heaviest(h, 0, 1) == Some(0);
    assert Heaviest(h, 0, 3) == Some(0);
  }

  lemma {:induction false} GapArea()
    ensures Expand(AreaOf(Plain, After3), 0, 0) == (0, 2)
  {
    var a := AreaOf(Plain, After3);
    assert RangeSum(a.hist, 0, -1) == 0.0 && RangeSum(a.hist, 0, 0) == 10.0 && RangeSum(a.hist, 0, 1) == 18.0;
    assert a.target == 13.3 && !Finished(a, 0, 0) && Finished(a, 0, 2);
    assert Grown(a, 0, 0) == (0, 2);
  }

  /** The edges of the value area can lie where nothing was traded: rows are taken in pairs, and the outer
      one of a pair may be empty. */
  lemma {:induction false} EdgeInGap()
    ensures var lv := LevelsOf(Plain, Run(Plain, Gapped)); lv.Some? && lv.value.poc == 0.5 && lv.value.vah == 2.5
    ensures forall px :: Covered(Plain, Gapped, px) ==> !Near(Plain, 2.5, px)
  {
    EdgeOf(Gapped);
  }

  lemma {:induction false} EdgeOf(bars: seq<Candle>)
    requires |bars| == 3 && bars[0] == First && bars[1] == Second && bars[2] == Third
    ensures var lv := LevelsOf(Plain, Run(Plain, bars)); lv.Some? && lv.value.poc == 0.5 && lv.value.vah == 2.5
    ensures forall px :: Covered(Plain, bars, px) ==> !Near(Plain, 2.5, px)
  {
    GappedRun(bars);
    RunWhole(bars, After3);
    GapLevels();
  }

  lemma {:induction false} GapLevels()
    ensures var lv := LevelsOf(Plain, After3); lv.Some? && lv.value.poc == 0.5 && lv.value.vah == 2.5
  {
    GapPoc();
    GapArea();
  }
}
