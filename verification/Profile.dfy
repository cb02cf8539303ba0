/** The session volume profile: a histogram of volume over price rows, its point of control, its
    value area and its high- and low-volume nodes. */
module Profile {
  import opened Prelude
  import opened Models

  type Hist = map<int, real>

  datatype Config = Config(rowSize: real, valueAreaPct: real, hvnFrac: real, lvnFrac: real,
                           minBars: int, maxRowsPerBar: int, tieUp: bool, tpoFallback: bool)

  /** What the constructor insists on. */
  predicate ValidConfig(cfg: Config) {
    cfg.rowSize > 0.0 && 0.0 < cfg.valueAreaPct <= 1.0
  }

  /** The row span is empty until a bar has been distributed. */
  datatype State = State(anchor: Option<real>, hist: Hist, span: Option<(int, int)>, total: real, bars: nat)

  const Empty := State(None, map[], None, 0.0, 0)

  function At(h: Hist, r: int): real {
    if r in h then h[r] else 0.0
  }

  /** The volume of rows lo..hi, both included. */
  function RangeSum(h: Hist, lo: int, hi: int): real
    decreases hi - lo
  {
    if hi < lo then 0.0 else RangeSum(h, lo, hi - 1) + At(h, hi)
  }

  // ------------------------------------------------------------------ accumulation

  function RowOf(cfg: Config, anchor: real, price: real): int
    requires ValidConfig(cfg)
  {
    ((price - anchor) / cfg.rowSize).Floor
  }

  function AddShare(h: Hist, lo: int, hi: int, share: real): Hist
    decreases hi - lo
  {
    if hi < lo then h
    else
      var h' := AddShare(h, lo, hi - 1, share);
      h'[hi := At(h', hi) + share]
  }

  function Weight(cfg: Config, c: Candle): real {
    if c.volume > 0.0 then c.volume else if cfg.tpoFallback then 1.0 else 0.0
  }

  /** The rows a bar covers, lowest first even if the bar is upside down. */
  function Rows(cfg: Config, anchor: real, c: Candle): (r: (int, int))
    requires ValidConfig(cfg)
    ensures r.0 <= r.1
  {
    var lo, hi := RowOf(cfg, anchor, c.low), RowOf(cfg, anchor, c.high);
    if hi < lo then (hi, lo) else (lo, hi)
  }

  /** Whether a bar adds anything: it weighs something and does not span too many rows. */
  predicate Distributed(cfg: Config, anchor: real, c: Candle)
    requires ValidConfig(cfg)
  {
    var (lo, hi) := Rows(cfg, anchor, c);
    Weight(cfg, c) > 0.0 && hi - lo + 1 <= cfg.maxRowsPerBar
  }

  function AnchorFor(s: State, c: Candle): real {
    if s.anchor.None? then c.low else s.anchor.value
  }

  function Update(cfg: Config, s: State, c: Candle): State
    requires ValidConfig(cfg)
  {
    var anchor := AnchorFor(s, c);
    var s' := s.(anchor := Some(anchor), bars := s.bars + 1);
    if !Distributed(cfg, anchor, c) then s'
    else
      var (lo, hi) := Rows(cfg, anchor, c);
      s'.(hist := AddShare(s.hist, lo, hi, Weight(cfg, c) / (hi - lo + 1) as real),
      total := s.total + Weight(cfg, c), span := Some(Widened(s.span, lo, hi)))
  }

  function Widened(span: Option<(int, int)>, lo: int, hi: int): (int, int) {
    match span
    case None => (lo, hi)
    case Some((mn, mx)) => (if lo < mn then lo else mn, if hi > mx then hi else mx)
  }

  /** The histogram holds positive volume, exactly within its span, both ends included, and the
      running total is its sum. */
  predicate Inv(s: State) {
    && (s.span.Some? ==> s.anchor.Some?)
    && Tight(s.hist, s.span)
    && s.total == SpanSum(s.hist, s.span)
  }

  predicate Tight(h: Hist, span: Option<(int, int)>) {
    match span
    case None => h == map[]
    case Some((mn, mx)) =>
      && mn <= mx && mn in h && mx in h
      && (forall r <- h :: mn <= r <= mx && h[r] > 0.0)
  }

  function SpanSum(h: Hist, span: Option<(int, int)>): real {
    match span
    case None => 0.0
    case Some((mn, mx)) => RangeSum(h, mn, mx)
  }

  lemma {:induction false} AddShareAt(h: Hist, lo: int, hi: int, share: real, r: int)
    ensures var h' := AddShare(h, lo, hi, share);
            && (r in h' <==> r in h || lo <= r <= hi)
            && At(h', r) == At(h, r) + if lo <= r <= hi then share else 0.0
    decreases hi - lo
  {
    if lo <= hi {
      AddShareAt(h, lo, hi - 1, share, r);
      AddShareAt(h, lo, hi - 1, share, hi);
    }
  }

  /** `n` times `x`, by addition. */
  function Times(n: nat, x: real): real {
    if n == 0 then 0.0 else Times(n - 1, x) + x
  }

  lemma {:induction false} TimesIs(n: nat, x: real)
    ensures Times(n, x) == x * n as real
  {
    if n > 0 {
      TimesIs(n - 1, x);
    }
  }

  lemma {:induction false} RangeSumAdd(h: Hist, h': Hist, lo: int, hi: int, share: real, mn: int, mx: int)
    requires forall r :: At(h', r) == At(h, r) + if lo <= r <= hi then share else 0.0
    requires mn <= lo <= mx + 1
    ensures var rows := if mx <= hi then mx - lo + 1 else if lo <= hi then hi - lo + 1 else 0;
            RangeSum(h', mn, mx) == RangeSum(h, mn, mx) + Times(rows, share)
    decreases mx - mn
  {
    if lo <= mx {
      RangeSumAdd(h, h', lo, hi, share, mn, mx - 1);
    } else {
      RangeSumSame(h, h', mn, mx);
    }
  }

  lemma {:induction false} RangeSumSame(h: Hist, h': Hist, mn: int, mx: int)
    requires forall r :: mn <= r <= mx ==> At(h', r) == At(h, r)
    ensures RangeSum(h', mn, mx) == RangeSum(h, mn, mx)
    decreases mx - mn
  {
    if mn <= mx {
      RangeSumSame(h, h', mn, mx - 1);
    }
  }

  lemma {:induction false} RangeSumWider(h: Hist, lo: int, hi: int, mn: int, mx: int)
    requires mn <= lo && hi <= mx && lo <= hi + 1
    requires forall r <- h :: lo <= r <= hi
    ensures RangeSum(h, mn, mx) == RangeSum(h, lo, hi)
    decreases mx - mn
  {
    if hi < mx {
      RangeSumWider(h, lo, hi, mn, mx - 1);
    } else if mn < lo {
      RangeSumSplit(h, mn, lo, mx);
      RangeSumNothing(h, mn, lo - 1);
    }
  }

  lemma {:induction false} RangeSumNothing(h: Hist, lo: int, hi: int)
    requires forall r <- h :: !(lo <= r <= hi)
    ensures RangeSum(h, lo, hi) == 0.0
    decreases hi - lo
  {
    if lo <= hi {
      RangeSumNothing(h, lo, hi - 1);
    }
  }

  lemma {:induction false} RangeSumSplit(h: Hist, lo: int, mid: int, hi: int)
    requires lo <= mid <= hi + 1
    ensures RangeSum(h, lo, hi) == RangeSum(h, lo, mid - 1) + RangeSum(h, mid, hi)
    decreases hi - mid
  {
    if mid <= hi {
      RangeSumSplit(h, lo, mid, hi - 1);
    }
  }

  lemma ShareTimesRows(weight: real, n: int)
    requires n >= 1
    ensures weight / n as real * n as real == weight
  {
  }

  lemma SharePositive(weight: real, n: int)
    requires weight > 0.0 && n >= 1
    ensures weight / n as real > 0.0
  {
  }

  lemma AddShareTight(h: Hist, span: Option<(int, int)>, lo: int, hi: int, share: real)
    requires Tight(h, span) && lo <= hi && share > 0.0
    ensures Tight(AddShare(h, lo, hi, share), Some(Widened(span, lo, hi)))
  {
    var h' := AddShare(h, lo, hi, share);
    forall r ensures (r in h' <==> r in h || lo <= r <= hi)
                  && At(h', r) == At(h, r) + if lo <= r <= hi then share else 0.0 {
      AddShareAt(h, lo, hi, share, r);
    }
    forall r | r in h' ensures h'[r] > 0.0 {
      assert h'[r] == At(h', r);
    }
  }

  lemma AddShareSum(h: Hist, span: Option<(int, int)>, lo: int, hi: int, share: real)
    requires Tight(h, span) && lo <= hi
    ensures SpanSum(AddShare(h, lo, hi, share), Some(Widened(span, lo, hi))) ==
            SpanSum(h, span) + Times(hi - lo + 1, share)
  {
    var h' := AddShare(h, lo, hi, share);
    var (mn, mx) := Widened(span, lo, hi);
    forall r ensures At(h', r) == At(h, r) + if lo <= r <= hi then share else 0.0 {
      AddShareAt(h, lo, hi, share, r);
    }
    RangeSumAdd(h, h', lo, hi, share, mn, mx);
    if span.Some? {
      RangeSumWider(h, span.value.0, span.value.1, mn, mx);
    } else {
      RangeSumNothing(h, mn, mx);
    }
  }

  /** Spreading a weight evenly over rows adds just that weight. */
  lemma TimesShare(weight: real, n: nat)
    requires n >= 1
    ensures Times(n, weight / n as real) == weight
  {
    TimesIs(n, weight / n as real);
    ShareTimesRows(weight, n);
  }

  lemma UpdateKeepsInv(cfg: Config, s: State, c: Candle)
    requires ValidConfig(cfg) && Inv(s)
    ensures Inv(Update(cfg, s, c))
  {
    var anchor := AnchorFor(s, c);
    if Distributed(cfg, anchor, c) {
      var (lo, hi) := Rows(cfg, anchor, c);
      var n, weight := hi - lo + 1, Weight(cfg, c);
      SharePositive(weight, n);
      AddShareTight(s.hist, s.span, lo, hi, weight / n as real);
      AddShareSum(s.hist, s.span, lo, hi, weight / n as real);
      TimesShare(weight, n);
    }
  }

  function Run(cfg: Config, bars: seq<Candle>): State
    requires ValidConfig(cfg)
    decreases |bars|
  {
    if bars == [] then Empty else Update(cfg, Run(cfg, bars[..|bars| - 1]), bars[|bars| - 1])
  }

  /** The weights of the bars that were distributed, the anchor being the first bar's low. */
  function Distribution(cfg: Config, bars: seq<Candle>): real
    requires ValidConfig(cfg)
    decreases |bars|
  {
    if bars == [] then 0.0
    else
      var c := bars[|bars| - 1];
      Distribution(cfg, bars[..|bars| - 1]) + if Distributed(cfg, bars[0].low, c) then Weight(cfg, c) else 0.0
  }

  /** Over every sequence of bars: nothing is lost or made up between rows, total and span, and the
      total is the weight of the bars that counted. */
  lemma {:induction false} VolumeConserved(cfg: Config, bars: seq<Candle>)
    requires ValidConfig(cfg)
    ensures var s := Run(cfg, bars);
            && Inv(s)
            && s.bars == |bars|
            && s.total == Distribution(cfg, bars)
            && s.anchor == if bars == [] then None else Some(bars[0].low)
    decreases |bars|
  {
    if bars != [] {
      var most := bars[..|bars| - 1];
      VolumeConserved(cfg, most);
      UpdateKeepsInv(cfg, Run(cfg, most), bars[|bars| - 1]);
      if most != [] {
        assert most[0] == bars[0];
      }
    }
  }

  // ------------------------------------------------------------------ point of control

  /** The heaviest row; of several, the lowest. */
  predicate IsPoc(h: Hist, r: int) {
    && r in h
    && (forall q <- h :: h[q] <= h[r])
    && (forall q <- h :: q < r ==> h[q] < h[r])
  }

  lemma PocUnique(h: Hist, r: int, q: int)
    requires IsPoc(h, r) && IsPoc(h, q)
    ensures r == q
  {
    assert h[r] <= h[q] && h[q] <= h[r];
  }

  /** Heaviest of rows lo..hi that hold volume, the first of them on a tie. */
  function Heaviest(h: Hist, lo: int, hi: int): (r: Option<int>)
    ensures r.Some? ==> lo <= r.value <= hi && r.value in h
    decreases hi - lo
  {
    if hi < lo then None
    else
      var best := Heaviest(h, lo, hi - 1);
      if hi in h && (best.None? || h[hi] > h[best.value]) then Some(hi) else best
  }

  lemma {:induction false} HeaviestTops(h: Hist, lo: int, hi: int, q: int)
    requires lo <= q <= hi && q in h
    ensures var r := Heaviest(h, lo, hi); r.Some? && h[q] <= h[r.value] && (q < r.value ==> h[q] < h[r.value])
    decreases hi - lo
  {
    if q < hi {
      HeaviestTops(h, lo, hi - 1, q);
    }
  }

  /** The point of control; none before any volume. */
  function PocOf(s: State): Option<int> {
    if s.span.None? then None else Heaviest(s.hist, s.span.value.0, s.span.value.1)
  }

  lemma PocOfExact(s: State)
    requires Inv(s)
    ensures PocOf(s).Some? <==> s.span.Some?
    ensures PocOf(s).Some? ==> IsPoc(s.hist, PocOf(s).value)
  {
    if s.span.Some? {
      forall q | q in s.hist
        ensures PocOf(s).Some? && s.hist[q] <= s.hist[PocOf(s).value]
        ensures q < PocOf(s).value ==> s.hist[q] < s.hist[PocOf(s).value]
      {
        HeaviestTops(s.hist, s.span.value.0, s.span.value.1, q);
      }
      assert s.span.value.0 in s.hist;
    }
  }

  // ------------------------------------------------------------------ value area

  /** What the expansion of the value area keeps fixed. */
  datatype Area = Area(hist: Hist, mn: int, mx: int, target: real, tieUp: bool)

  /** The two rows above (below) the area, as they are compared; none once the edge is reached. */
  function Above(a: Area, hi: int): Option<real> {
    if hi + 1 <= a.mx then Some(At(a.hist, hi + 1) + At(a.hist, hi + 2)) else None
  }

  function Below(a: Area, lo: int): Option<real> {
    if lo - 1 >= a.mn then Some(At(a.hist, lo - 1) + At(a.hist, lo - 2)) else None
  }

  predicate GoesUp(a: Area, lo: int, hi: int) {
    var up, dn := Above(a, hi), Below(a, lo);
    dn.None? || (up.Some? && (up.value > dn.value || (up.value == dn.value && a.tieUp)))
  }

  /** One expansion: two rows on the chosen side, or one at the edge. */
  function Grown(a: Area, lo: int, hi: int): (int, int) {
    if GoesUp(a, lo, hi) then (lo, if hi + 2 <= a.mx then hi + 2 else hi + 1)
    else (if lo - 2 >= a.mn then lo - 2 else lo - 1, hi)
  }

  predicate Finished(a: Area, lo: int, hi: int) {
    RangeSum(a.hist, lo, hi) >= a.target || (hi >= a.mx && lo <= a.mn)
  }

  /** The area the expansion ends with, by volume actually enclosed. */
  function Expand(a: Area, lo: int, hi: int): (int, int)
    requires a.mn <= lo <= hi <= a.mx
    decreases lo - a.mn + a.mx - hi
  {
    if Finished(a, lo, hi) then (lo, hi) else Expand(a, Grown(a, lo, hi).0, Grown(a, lo, hi).1)
  }

  predicate Within(a: Area, inner: (int, int), outer: (int, int)) {
    a.mn <= outer.0 <= inner.0 <= inner.1 <= outer.1 <= a.mx
  }

  /** The rows just outside on either side weigh no more, pair against pair, than the side taken. */
  predicate Greedy(a: Area, lo: int, hi: int, lo': int, hi': int) {
    var up, dn := Above(a, hi), Below(a, lo);
    && (lo', hi') == Grown(a, lo, hi)
    && (hi' > hi && dn.Some? && up.Some? ==> up.value >= dn.value)
    && (lo' < lo && up.Some? && dn.Some? ==> dn.value >= up.value)
  }

  lemma {:induction false} ExpandWithin(a: Area, lo: int, hi: int)
    requires a.mn <= lo <= hi <= a.mx
    ensures Within(a, (lo, hi), Expand(a, lo, hi))
    ensures Finished(a, Expand(a, lo, hi).0, Expand(a, lo, hi).1)
    decreases lo - a.mn + a.mx - hi
  {
    if !Finished(a, lo, hi) {
      ExpandWithin(a, Grown(a, lo, hi).0, Grown(a, lo, hi).1);
    }
  }

  /** The last expansion was needed: before it the area was short of the target. */
  lemma {:induction false} ExpandTight(a: Area, lo: int, hi: int) returns (l: int, u: int)
    requires a.mn <= lo <= hi <= a.mx
    ensures Expand(a, lo, hi) == (lo, hi) || (
              && Within(a, (lo, hi), (l, u)) && Greedy(a, l, u, Expand(a, lo, hi).0, Expand(a, lo, hi).1)
              && RangeSum(a.hist, l, u) < a.target)
    decreases lo - a.mn + a.mx - hi
  {
    l, u := lo, hi;
    if !Finished(a, lo, hi) {
      var (lo', hi') := Grown(a, lo, hi);
      if !Finished(a, lo', hi') {
        ExpandWithin(a, lo', hi');
        l, u := ExpandTight(a, lo', hi');
      }
    }
  }

  /** A larger share of the volume encloses every smaller one. */
  lemma {:induction false} ExpandNested(a: Area, b: Area, lo: int, hi: int)
    requires a.mn <= lo <= hi <= a.mx && b == a.(target := b.target) && a.target <= b.target
    ensures Within(a, Expand(a, lo, hi), Expand(b, lo, hi))
    decreases lo - a.mn + a.mx - hi
  {
    if Finished(a, lo, hi) {
      ExpandWithin(b, lo, hi);
    } else {
      ExpandNested(a, b, Grown(a, lo, hi).0, Grown(a, lo, hi).1);
    }
  }

  function AreaOf(cfg: Config, s: State): Area
    requires s.span.Some?
  {
    Area(s.hist, s.span.value.0, s.span.value.1, Target(cfg, s), cfg.tieUp)
  }

  /** The volume the value area has to hold. */
  function Target(cfg: Config, s: State): real {
    cfg.valueAreaPct * s.total
  }

  lemma {:induction false} RangeSumPositive(h: Hist, lo: int, hi: int)
    requires forall r <- h :: h[r] > 0.0
    ensures RangeSum(h, lo, hi) >= 0.0
    ensures (exists r <- h :: lo <= r <= hi) ==> RangeSum(h, lo, hi) > 0.0
    decreases hi - lo
  {
    if lo <= hi {
      RangeSumPositive(h, lo, hi - 1);
    }
  }

  lemma TargetReachable(cfg: Config, s: State)
    requires ValidConfig(cfg) && s.total >= 0.0
    ensures Target(cfg, s) <= s.total
  {
  }

  lemma ExpandExact(a: Area, poc: int) returns (l: int, u: int)
    requires a.mn <= poc <= a.mx && a.target <= RangeSum(a.hist, a.mn, a.mx)
    ensures var area := Expand(a, poc, poc);
            && Within(a, (poc, poc), area)
            && RangeSum(a.hist, area.0, area.1) >= a.target
            && (area == (poc, poc) || (
                  && Within(a, (poc, poc), (l, u)) && Greedy(a, l, u, area.0, area.1)
                  && RangeSum(a.hist, l, u) < a.target))
  {
    ExpandWithin(a, poc, poc);
    l, u := ExpandTight(a, poc, poc);
  }

  /** The value area of a profile around its point of control lies within the occupied span, holds
      at least the wanted share of all volume, and would not without its last expansion, which took
      the heavier side. */
  lemma ValueAreaExact(cfg: Config, s: State, poc: int) returns (l: int, u: int)
    requires ValidConfig(cfg) && Inv(s) && s.span.Some? && IsPoc(s.hist, poc)
    ensures var a := AreaOf(cfg, s);
            var area := Expand(a, poc, poc);
            && Within(a, (poc, poc), area)
            && RangeSum(s.hist, area.0, area.1) >= Target(cfg, s)
            && (area == (poc, poc) || (
                  && Within(a, (poc, poc), (l, u)) && Greedy(a, l, u, area.0, area.1)
                  && RangeSum(s.hist, l, u) < Target(cfg, s)))
  {
    var a := AreaOf(cfg, s);
    RangeSumPositive(s.hist, a.mn, a.mx);
    TargetReachable(cfg, s);
    l, u := ExpandExact(a, poc);
  }

  // ------------------------------------------------------------------ prices

  predicate Ready(cfg: Config, s: State) {
    s.bars >= cfg.minBars && s.total > 0.0
  }

  /** Middle of a row. */
  function RowPrice(cfg: Config, anchor: real, row: int): real {
    anchor + (row as real + 0.5) * cfg.rowSize
  }

  datatype Levels = Levels(poc: real, vah: real, val: real)

  function PocPrice(cfg: Config, s: State): Option<real> {
    if !Ready(cfg, s) || PocOf(s).None? || s.anchor.None? then None
    else Some(RowPrice(cfg, s.anchor.value, PocOf(s).value))
  }

  function LevelsOf(cfg: Config, s: State): Option<Levels> {
    if !Ready(cfg, s) || PocOf(s).None? || s.anchor.None? then None
    else
      var poc := PocOf(s).value;
      var (lo, hi) := Expand(AreaOf(cfg, s), poc, poc);
      Some(Levels(RowPrice(cfg, s.anchor.value, poc), RowPrice(cfg, s.anchor.value, hi),
                  RowPrice(cfg, s.anchor.value, lo)))
  }

  /** A ready profile has levels, and its point of control lies within its value area. */
  lemma LevelsExact(cfg: Config, s: State)
    requires ValidConfig(cfg) && Inv(s)
    ensures LevelsOf(cfg, s).Some? <==> Ready(cfg, s)
    ensures LevelsOf(cfg, s).Some? ==>
              var lv := LevelsOf(cfg, s).value;
              PocPrice(cfg, s) == Some(lv.poc) && lv.val <= lv.poc <= lv.vah
  {
    PocOfExact(s);
    if Ready(cfg, s) {
      var poc := PocOf(s).value;
      ExpandWithin(AreaOf(cfg, s), poc, poc);
      var (lo, hi) := Expand(AreaOf(cfg, s), poc, poc);
      RowPriceMonotone(cfg, s.anchor.value, lo, poc);
      RowPriceMonotone(cfg, s.anchor.value, poc, hi);
    }
  }

  lemma RowPriceMonotone(cfg: Config, anchor: real, r: int, q: int)
    requires ValidConfig(cfg) && r <= q
    ensures RowPrice(cfg, anchor, r) <= RowPrice(cfg, anchor, q)
  {
    assert (q - r) as real * cfg.rowSize >= 0.0;
  }

  // ------------------------------------------------------------------ nodes

  /** The volume of the next row, -1 beyond the span. */
  function Neighbour(h: Hist, mn: int, mx: int, r: int): real {
    if mn <= r <= mx then At(h, r) else -1.0
  }

  /** A row of the span that is heavy enough and no lighter than its neighbours. */
  predicate IsPeak(h: Hist, mn: int, mx: int, threshold: real, r: int) {
    && mn <= r <= mx
    && At(h, r) >= threshold
    && At(h, r) >= Neighbour(h, mn, mx, r - 1)
    && At(h, r) >= Neighbour(h, mn, mx, r + 1)
  }

  predicate Ascending(rows: seq<int>) {
    forall i, j :: 0 <= i < j < |rows| ==> rows[i] < rows[j]
  }

  /** `r` and `q` lie in one unbroken run of `rows`. */
  ghost predicate SameRun(rows: seq<int>, r: int, q: int) {
    forall x :: (r <= x <= q || q <= x <= r) ==> x in rows
  }

  predicate Outweighs(h: Hist, r: int, q: int) {
    At(h, q) < At(h, r) || (At(h, q) == At(h, r) && r <= q)
  }

  /** The row that stands for its run: the heaviest, and the lowest of those. */
  ghost predicate IsRunTop(h: Hist, rows: seq<int>, r: int) {
    r in rows && forall q :: SameRun(rows, r, q) ==> Outweighs(h, r, q)
  }

  /** Exactly the tops of the runs, in order. */
  ghost predicate Suppressed(h: Hist, rows: seq<int>, out: seq<int>) {
    Ascending(out) && forall r :: r in out <==> IsRunTop(h, rows, r)
  }

  /** rows[b..i] is one whole run of `rows`. */
  predicate WholeRun(rows: seq<int>, b: nat, i: nat) {
    && b < i <= |rows|
    && (forall k :: b <= k < i ==> rows[k] == rows[b] + k - b)
    && (b > 0 ==> rows[b - 1] + 1 < rows[b])
    && (i < |rows| ==> rows[i - 1] + 1 < rows[i])
  }

  lemma WholeRunMembers(rows: seq<int>, b: nat, i: nat, r: int, q: int)
    requires Ascending(rows) && WholeRun(rows, b, i) && rows[b] <= r <= rows[i - 1]
    ensures SameRun(rows, r, q) <==> rows[b] <= q <= rows[i - 1]
  {
    forall x | x in rows ensures x != rows[b] - 1 && x != rows[i - 1] + 1 {
      var k :| 0 <= k < |rows| && rows[k] == x;
      assert k < b ==> k == b - 1 || rows[k] < rows[b - 1];
      assert k >= i ==> k == i || rows[k] > rows[i];
    }
    var first, last := rows[b], rows[i - 1];
    if SameRun(rows, r, q) {
      assert q < first ==> first - 1 in rows;
      assert q > last ==> last + 1 in rows;
    }
    if rows[b] <= q <= rows[i - 1] {
      forall x | r <= x <= q || q <= x <= r ensures x in rows {
        assert rows[b + x - rows[b]] == x;
      }
    }
  }

  /** The top of a whole run is the one row of it that stands for it. */
  lemma RunTopOf(h: Hist, rows: seq<int>, b: nat, i: nat, top: int)
    requires Ascending(rows) && WholeRun(rows, b, i) && rows[b] <= top <= rows[i - 1]
    requires forall q :: rows[b] <= q <= rows[i - 1] ==> Outweighs(h, top, q)
    ensures forall r :: rows[b] <= r <= rows[i - 1] ==> (IsRunTop(h, rows, r) <==> r == top)
  {
    forall r | rows[b] <= r <= rows[i - 1] ensures IsRunTop(h, rows, r) <==> r == top {
      forall q ensures SameRun(rows, r, q) <==> rows[b] <= q <= rows[i - 1] {
        WholeRunMembers(rows, b, i, r, q);
      }
      assert rows[b + r - rows[b]] == r;
      if IsRunTop(h, rows, r) {
        assert Outweighs(h, r, top) && Outweighs(h, top, r);
      }
    }
  }

  lemma TopsDiffer(h: Hist, rows: seq<int>, r: int, q: int)
    requires IsRunTop(h, rows, r) && IsRunTop(h, rows, q) && SameRun(rows, r, q)
    ensures r == q
  {
    assert SameRun(rows, q, r);
    assert Outweighs(h, r, q) && Outweighs(h, q, r);
  }

  /** No two suppressed rows are adjacent. */
  lemma SuppressedSpaced(h: Hist, rows: seq<int>, out: seq<int>)
    requires Suppressed(h, rows, out)
    ensures forall i, j :: 0 <= i < j < |out| ==> out[i] + 1 < out[j]
  {
    forall i, j | 0 <= i < j < |out| ensures out[i] + 1 < out[j] {
      var r, q := out[i], out[j];
      if r + 1 == q {
        TopsDiffer(h, rows, r, q);
      }
    }
  }

  /** All peaks of the span, in order. */
  ghost predicate ArePeaks(h: Hist, mn: int, mx: int, threshold: real, rows: seq<int>) {
    Ascending(rows) && forall r :: r in rows <==> IsPeak(h, mn, mx, threshold, r)
  }

  /** The lightest row strictly between two, and the lowest of those. */
  ghost predicate IsValley(h: Hist, a: int, b: int, v: int) {
    a < v < b && forall q :: a < q < b ==> At(h, v) < At(h, q) || (At(h, v) == At(h, q) && v <= q)
  }

  function CountPositive(h: Hist, lo: int, hi: int): nat
    decreases hi - lo
  {
    if hi < lo then 0 else CountPositive(h, lo, hi - 1) + if At(h, hi) > 0.0 then 1 else 0
  }

  function MeanOccupied(h: Hist, mn: int, mx: int): real {
    var n := CountPositive(h, mn, mx);
    if n == 0 then 0.0 else RangeSum(h, mn, mx) / n as real
  }

  /** The lows: between each two consecutive high nodes their valley, if it is light enough. */
  ghost predicate AreLows(h: Hist, threshold: real, hvn: seq<int>, lvn: seq<int>) {
    && Ascending(lvn)
    && forall v :: v in lvn <==>
                   At(h, v) <= threshold && exists k :: 0 <= k < |hvn| - 1 && IsValley(h, hvn[k], hvn[k + 1], v)
  }

  function Part(frac: real, x: real): real {
    frac * x
  }

  function HighThreshold(cfg: Config, s: State, poc: int): real {
    Part(cfg.hvnFrac, At(s.hist, poc))
  }

  function LowThreshold(cfg: Config, s: State): real
    requires s.span.Some?
  {
    cfg.lvnFrac * MeanOccupied(s.hist, s.span.value.0, s.span.value.1)
  }

  /** The result of the node search, `peaks` being its intermediate list. */
  ghost predicate AreNodes(cfg: Config, s: State, poc: int, peaks: seq<int>, hvn: seq<int>, lvn: seq<int>)
    requires s.span.Some?
  {
    var (mn, mx) := s.span.value;
    && ArePeaks(s.hist, mn, mx, HighThreshold(cfg, s, poc), peaks)
    && Suppressed(s.hist, peaks, hvn)
    && AreLows(s.hist, LowThreshold(cfg, s), hvn, lvn)
  }

  /** No two high nodes are adjacent, so there is always a row between two of them, and each low node
      lies strictly between two consecutive high ones and is no heavier than either. */
  lemma NodesAlternate(cfg: Config, s: State, poc: int, peaks: seq<int>, hvn: seq<int>, lvn: seq<int>)
    requires s.span.Some? && AreNodes(cfg, s, poc, peaks, hvn, lvn)
    ensures forall i, j :: 0 <= i < j < |hvn| ==> hvn[i] + 1 < hvn[j]
    ensures forall v <- lvn :: exists k :: 0 <= k < |hvn| - 1 && IsValley(s.hist, hvn[k], hvn[k + 1], v)
                                           && At(s.hist, v) <= At(s.hist, hvn[k])
                                           && At(s.hist, v) <= At(s.hist, hvn[k + 1])
  {
    var (mn, mx) := s.span.value;
    SuppressedSpaced(s.hist, peaks, hvn);
    forall v | v in lvn
      ensures exists k :: 0 <= k < |hvn| - 1 && IsValley(s.hist, hvn[k], hvn[k + 1], v)
                          && At(s.hist, v) <= At(s.hist, hvn[k]) && At(s.hist, v) <= At(s.hist, hvn[k + 1])
    {
      var k :| 0 <= k < |hvn| - 1 && IsValley(s.hist, hvn[k], hvn[k + 1], v);
      ValleyBelow(s.hist, mn, mx, HighThreshold(cfg, s, poc), peaks, hvn, k, v);
    }
  }

  /** At most one low node in each gap between high ones. */
  lemma OneLowPerGap(cfg: Config, s: State, poc: int, peaks: seq<int>, hvn: seq<int>, lvn: seq<int>,
                     k: nat, v: int, w: int)
    requires s.span.Some? && AreNodes(cfg, s, poc, peaks, hvn, lvn)
    requires v in lvn && w in lvn && k < |hvn| - 1 && hvn[k] < v < hvn[k + 1] && hvn[k] < w < hvn[k + 1]
    ensures v == w
  {
    SuppressedSpaced(s.hist, peaks, hvn);
    ValleyOfGap(s.hist, hvn, k, v);
    ValleyOfGap(s.hist, hvn, k, w);
  }

  lemma ValleyBelow(h: Hist, mn: int, mx: int, threshold: real, peaks: seq<int>, hvn: seq<int>, k: nat, v: int)
    requires ArePeaks(h, mn, mx, threshold, peaks) && Suppressed(h, peaks, hvn)
    requires k < |hvn| - 1 && IsValley(h, hvn[k], hvn[k + 1], v)
    ensures At(h, v) <= At(h, hvn[k]) && At(h, v) <= At(h, hvn[k + 1])
  {
    var a, b := hvn[k], hvn[k + 1];
    assert IsRunTop(h, peaks, a) && IsRunTop(h, peaks, b);
    assert IsPeak(h, mn, mx, threshold, a) && IsPeak(h, mn, mx, threshold, b);
    assert Neighbour(h, mn, mx, a + 1) == At(h, a + 1) && Neighbour(h, mn, mx, b - 1) == At(h, b - 1);
  }

  lemma ValleyOfGap(h: Hist, hvn: seq<int>, k: nat, v: int)
    requires Ascending(hvn) && k < |hvn| - 1 && hvn[k] < v < hvn[k + 1]
    requires exists i :: 0 <= i < |hvn| - 1 && IsValley(h, hvn[i], hvn[i + 1], v)
    ensures IsValley(h, hvn[k], hvn[k + 1], v)
  {
    var i :| 0 <= i < |hvn| - 1 && IsValley(h, hvn[i], hvn[i + 1], v);
    assert forall p, q :: 0 <= p <= q < |hvn| ==> hvn[p] <= hvn[q];
  }

  /** The point of control is a high node exactly when the threshold fraction is at most 1; above
      that there are no high nodes at all. */
  lemma PocIsNode(cfg: Config, s: State, poc: int, peaks: seq<int>, hvn: seq<int>, lvn: seq<int>)
    requires Inv(s) && s.span.Some? && IsPoc(s.hist, poc) && AreNodes(cfg, s, poc, peaks, hvn, lvn)
    ensures poc in hvn <==> cfg.hvnFrac <= 1.0
    ensures cfg.hvnFrac > 1.0 ==> hvn == []
  {
    var (mn, mx) := s.span.value;
    var threshold := HighThreshold(cfg, s, poc);
    FractionOf(cfg, s, poc);
    if cfg.hvnFrac <= 1.0 {
      PocTops(s.hist, mn, mx, threshold, peaks, hvn, poc);
    } else {
      NothingTops(s.hist, mn, mx, threshold, peaks, hvn, poc);
    }
  }

  lemma PocTops(h: Hist, mn: int, mx: int, threshold: real, peaks: seq<int>, hvn: seq<int>, poc: int)
    requires ArePeaks(h, mn, mx, threshold, peaks) && Suppressed(h, peaks, hvn)
    requires Tight(h, Some((mn, mx))) && IsPoc(h, poc) && threshold <= h[poc]
    ensures poc in hvn
  {
    forall q ensures Outweighs(h, poc, q) {}
    assert IsPeak(h, mn, mx, threshold, poc);
    assert IsRunTop(h, peaks, poc);
  }

  lemma NothingTops(h: Hist, mn: int, mx: int, threshold: real, peaks: seq<int>, hvn: seq<int>, poc: int)
    requires ArePeaks(h, mn, mx, threshold, peaks) && Suppressed(h, peaks, hvn)
    requires Tight(h, Some((mn, mx))) && IsPoc(h, poc) && threshold > h[poc]
    ensures hvn == []
  {
    if |hvn| > 0 {
      var r := hvn[0];
      assert At(h, r) <= h[poc];
      TopIsHeavy(h, mn, mx, threshold, peaks, hvn, r);
    }
  }

  lemma TopIsHeavy(h: Hist, mn: int, mx: int, threshold: real, peaks: seq<int>, hvn: seq<int>, r: int)
    requires ArePeaks(h, mn, mx, threshold, peaks) && Suppressed(h, peaks, hvn) && r in hvn
    ensures At(h, r) >= threshold
  {
    assert IsRunTop(h, peaks, r);
    assert IsPeak(h, mn, mx, threshold, r);
  }

  lemma AscendingSnoc(rows: seq<int>, r: int)
    requires Ascending(rows) && forall q <- rows :: q < r
    ensures Ascending(rows + [r])
    ensures forall q :: q in rows + [r] <==> q in rows || q == r
  {
    forall i | 0 <= i < |rows| ensures rows[i] < r {
      assert rows[i] in rows;
    }
  }

  lemma FractionOf(cfg: Config, s: State, poc: int)
    requires At(s.hist, poc) > 0.0
    ensures cfg.hvnFrac <= 1.0 <==> HighThreshold(cfg, s, poc) <= At(s.hist, poc)
  {
  }

  // ------------------------------------------------------------------ the code itself

  class VolumeProfile {
    const cfg: Config
    var anchor: Option<real>
    var hist: Hist
    var span: Option<(int, int)>   // lowest and highest row
    var total: real
    var bars: nat

    function Model(): State
      reads this
    {
      State(anchor, hist, span, total, bars)
    }

    constructor (cfg: Config)
      requires ValidConfig(cfg)
      ensures this.cfg == cfg && Model() == Empty
    {
      this.cfg := cfg;
      anchor, hist, span, total, bars := None, map[], None, 0.0, 0;
    }

    /** `update`: one closed bar. */
    method Feed(c: Candle)
      requires ValidConfig(cfg)
      modifies this
      ensures Model() == Update(cfg, old(Model()), c)
    {
      if anchor.None? {
        anchor := Some(c.low);
      }
      bars := bars + 1;
      var weight := if c.volume > 0.0 then c.volume else if cfg.tpoFallback then 1.0 else 0.0;
      if weight <= 0.0 {
        return;
      }
      var lo, hi := RowOf(cfg, anchor.value, c.low), RowOf(cfg, anchor.value, c.high);
      if hi < lo {
        lo, hi := hi, lo;
      }
      var n := hi - lo + 1;
      if n > cfg.maxRowsPerBar {
        return;
      }
      var share := weight / n as real;
      var r := lo;
      while r <= hi
        invariant lo <= r <= hi + 1
        invariant hist == AddShare(old(hist), lo, r - 1, share)
        invariant anchor.Some? && Model() == old(Model()).(anchor := anchor, hist := hist, bars := bars)
        invariant anchor == Some(AnchorFor(old(Model()), c)) && bars == old(bars) + 1
      {
        hist := hist[r := (if r in hist then hist[r] else 0.0) + share];
        r := r + 1;
      }
      total := total + weight;
      span := Some(Widened(span, lo, hi));
    }

    /** `_poc_row`: an ascending scan that a tie does not displace.  The rows of the histogram are met
        in order by going through the span. */
    method PocRow() returns (best: Option<int>)
      requires Inv(Model())
      ensures span.None? ==> best.None?
      ensures span.Some? ==> best.Some? && IsPoc(hist, best.value)
      ensures best == PocOf(Model())
    {
      PocOfExact(Model());
      best := None;
      if span.None? {
        return;
      }
      var bestVolume := -1.0;
      var r := span.value.0;
      while r <= span.value.1
        invariant span.value.0 <= r <= span.value.1 + 1
        invariant best.None? ==> bestVolume == -1.0 && r == span.value.0
        invariant best.Some? ==> best.value in hist && bestVolume == hist[best.value] && best.value < r
        invariant forall q <- hist :: q < r ==> hist[q] <= bestVolume
        invariant best.Some? ==> forall q <- hist :: q < best.value ==> hist[q] < bestVolume
      {
        if r in hist {
          if hist[r] > bestVolume {
            bestVolume := hist[r];
            best := Some(r);
          }
        }
        r := r + 1;
      }
      if best.Some? {
        PocUnique(hist, best.value, PocOf(Model()).value);
      }
    }

    /** One turn of the expansion: absorbs two rows of the chosen side, or one at the edge. */
    method Absorb(mn: int, mx: int, goUp: bool, va: real, lo: int, hi: int) returns (va': real, lo': int, hi': int)
      requires mn <= lo <= hi <= mx && va == RangeSum(hist, lo, hi)
      requires if goUp then hi < mx else lo > mn
      ensures (lo', hi') == if goUp then (lo, if hi + 2 <= mx then hi + 2 else hi + 1)
                            else (if lo - 2 >= mn then lo - 2 else lo - 1, hi)
      ensures va' == RangeSum(hist, lo', hi')
    {
      va', lo', hi' := va, lo, hi;
      if goUp {
        var up := hi + 1;
        va' := va' + At(hist, up);
        hi' := up;
        if up + 1 <= mx {
          va' := va' + At(hist, up + 1);
          hi' := up + 1;
        }
      } else {
        var dn := lo - 1;
        RangeSumOneLess(hist, lo, hi);
        va' := va' + At(hist, dn);
        lo' := dn;
        if dn - 1 >= mn {
          RangeSumOneLess(hist, dn, hi);
          va' := va' + At(hist, dn - 1);
          lo' := dn - 1;
        }
      }
    }

    /** The loop of `_value_area`, with its running volume. */
    method ExpandFrom(poc: int, a: Area) returns (lo: int, hi: int)
      requires a.hist == hist && a.mn <= poc <= a.mx
      ensures (lo, hi) == Expand(a, poc, poc)
    {
      var va := At(hist, poc);
      lo, hi := poc, poc;
      assert RangeSum(hist, poc, poc - 1) == 0.0;
      while va < a.target
        invariant a.mn <= lo <= hi <= a.mx
        invariant va == RangeSum(hist, lo, hi)
        invariant Expand(a, lo, hi) == Expand(a, poc, poc)
        decreases lo - a.mn + a.mx - hi
      {
        if hi + 1 > a.mx && lo - 1 < a.mn {
          break;
        }
        va, lo, hi := Absorb(a.mn, a.mx, GoesUp(a, lo, hi), va, lo, hi);
      }
    }

    /** `_value_area`. */
    method ValueArea() returns (area: Option<(int, int)>)
      requires ValidConfig(cfg) && Inv(Model())
      ensures span.None? ==> area.None?
      ensures span.Some? ==> area.Some? && exists poc :: IsPoc(hist, poc) && InSpan(poc) &&
                                                         area.value == Expand(AreaOf(cfg, Model()), poc, poc)
    {
      var best := PocRow();
      if best.Some? {
        RangeSumPositive(hist, span.value.0, span.value.1);
        assert InSpan(best.value);
      }
      if best.None? || total <= 0.0 {
        return None;
      }
      var lo, hi := ExpandFrom(best.value, Area(hist, span.value.0, span.value.1, Target(cfg, Model()), cfg.tieUp));
      return Some((lo, hi));
    }

    predicate InSpan(r: int)
      reads this
    {
      span.Some? && span.value.0 <= r <= span.value.1
    }

    /** `max(vols)`. */
    method MaxVolume() returns (best: real)
      requires Inv(Model()) && span.Some?
      ensures forall poc :: IsPoc(hist, poc) ==> best == hist[poc]
      ensures best > 0.0
    {
      var mn, mx := span.value.0, span.value.1;
      best := At(hist, mn);
      var r := mn + 1;
      while r <= mx
        invariant mn < r <= mx + 1
        invariant forall q :: mn <= q < r ==> At(hist, q) <= best
        invariant exists q :: mn <= q < r && At(hist, q) == best
      {
        if At(hist, r) > best {
          best := At(hist, r);
        }
        r := r + 1;
      }
      assert best >= At(hist, mn) > 0.0;
      forall poc | IsPoc(hist, poc) ensures best == hist[poc] {
        assert At(hist, poc) <= best;
        var q :| mn <= q <= mx && At(hist, q) == best;
      }
    }

    /** The end of the run that starts at index `b`, and its top. */
    method TopOfRun(rows: seq<int>, b: nat) returns (e: nat, top: int)
      requires Ascending(rows) && b < |rows| && (b > 0 ==> rows[b - 1] + 1 < rows[b])
      ensures WholeRun(rows, b, e) && rows[b] <= top <= rows[e - 1]
      ensures forall q :: rows[b] <= q <= rows[e - 1] ==> Outweighs(hist, top, q)
    {
      top, e := rows[b], b + 1;
      while e < |rows| && rows[e] == rows[e - 1] + 1
        invariant b < e <= |rows|
        invariant forall k :: b <= k < e ==> rows[k] == rows[b] + k - b
        invariant rows[b] <= top <= rows[e - 1]
        invariant forall q :: rows[b] <= q <= rows[e - 1] ==> Outweighs(hist, top, q)
      {
        ghost var before := top;
        if At(hist, rows[e]) > At(hist, top) {
          top := rows[e];
        }
        forall q | rows[b] <= q <= rows[e] ensures Outweighs(hist, top, q) {
          assert q < rows[e] ==> Outweighs(hist, before, q);
        }
        e := e + 1;
      }
    }

    /** `_suppress_adjacent`. */
    method SuppressAdjacent(rows: seq<int>) returns (out: seq<int>)
      requires Ascending(rows)
      ensures Suppressed(hist, rows, out)
    {
      out := [];
      var b := 0;
      while b < |rows|
        invariant 0 <= b <= |rows|
        invariant 0 < b < |rows| ==> rows[b - 1] + 1 < rows[b]
        invariant Ascending(out)
        invariant b < |rows| ==> forall r <- out :: r < rows[b]
        invariant forall i :: 0 <= i < b ==> (rows[i] in out <==> IsRunTop(hist, rows, rows[i]))
        invariant forall r <- out :: IsRunTop(hist, rows, r)
      {
        var e, top := TopOfRun(rows, b);
        RunTopOf(hist, rows, b, e, top);
        AscendingSnoc(out, top);
        out := out + [top];
        b := e;
      }
    }

    /** The lightest row strictly between two high nodes, the lowest of several. */
    method Valley(a: int, b: int) returns (v: int)
      requires a + 1 < b
      ensures IsValley(hist, a, b, v)
    {
      v := a + 1;
      var r := a + 2;
      while r < b
        invariant a < v < r <= b
        invariant forall q :: a < q < r ==> At(hist, v) < At(hist, q) || (At(hist, v) == At(hist, q) && v <= q)
      {
        if At(hist, r) < At(hist, v) {
          v := r;
        }
        r := r + 1;
      }
    }

    method Lows(hvn: seq<int>, threshold: real) returns (lvn: seq<int>)
      requires forall i, j :: 0 <= i < j < |hvn| ==> hvn[i] + 1 < hvn[j]
      ensures AreLows(hist, threshold, hvn, lvn)
    {
      lvn := [];
      var k := 0;
      while k < |hvn| - 1
        invariant 0 <= k <= if |hvn| > 0 then |hvn| - 1 else 0
        invariant Ascending(lvn) && (|hvn| > 0 ==> forall v <- lvn :: v < hvn[k])
        invariant forall v :: v in lvn <==>
                              && At(hist, v) <= threshold
                              && exists i :: 0 <= i < k && IsValley(hist, hvn[i], hvn[i + 1], v)
      {
        var v := Valley(hvn[k], hvn[k + 1]);
        if At(hist, v) <= threshold {
          AscendingSnoc(lvn, v);
          lvn := lvn + [v];
        }
        ghost var a, b := hvn[k], hvn[k + 1];
        forall w | IsValley(hist, a, b, w) ensures w == v {}
        k := k + 1;
      }
    }

    method Peaks(mn: int, mx: int, threshold: real) returns (rows: seq<int>)
      requires mn <= mx
      ensures ArePeaks(hist, mn, mx, threshold, rows)
    {
      rows := [];
      var r := mn;
      while r <= mx
        invariant mn <= r <= mx + 1
        invariant Ascending(rows) && (forall q <- rows :: q < r)
        invariant forall q :: q in rows <==> q < r && IsPeak(hist, mn, mx, threshold, q)
      {
        if At(hist, r) >= threshold && At(hist, r) >= Neighbour(hist, mn, mx, r - 1)
           && At(hist, r) >= Neighbour(hist, mn, mx, r + 1) {
          AscendingSnoc(rows, r);
          rows := rows + [r];
        }
        r := r + 1;
      }
    }

    /** `_nodes`. */
    method Nodes() returns (hvn: seq<int>, lvn: seq<int>, ghost peaks: seq<int>)
      requires Inv(Model())
      ensures span.None? ==> hvn == [] && lvn == []
      ensures span.Some? ==> forall poc :: IsPoc(hist, poc) ==> AreNodes(cfg, Model(), poc, peaks, hvn, lvn)
    {
      if span.None? {
        return [], [], [];
      }
      var mn, mx := span.value.0, span.value.1;
      var maxVolume := MaxVolume();
      var threshold := Part(cfg.hvnFrac, maxVolume);
      assert forall poc :: IsPoc(hist, poc) ==> threshold == HighThreshold(cfg, Model(), poc);
      var rows := Peaks(mn, mx, threshold);
      peaks := rows;
      hvn := SuppressAdjacent(rows);
      SuppressedSpaced(hist, rows, hvn);
      lvn := Lows(hvn, LowThreshold(cfg, Model()));
    }
  }

  lemma RangeSumOneLess(h: Hist, lo: int, hi: int)
    requires lo <= hi
    ensures RangeSum(h, lo - 1, hi) == RangeSum(h, lo, hi) + At(h, lo - 1)
  {
    RangeSumSplit(h, lo - 1, lo, hi);
    assert RangeSum(h, lo - 1, lo - 1) == RangeSum(h, lo - 1, lo - 2) + At(h, lo - 1);
  }
}
