/** The tables of trades in time: which trades each row counts. */
module TradeTables {
  import opened Prelude
  import opened Models
  import opened Analytics

  /** The trades of that kind, in their order. */
  function Those(trades: seq<Trade>, kind: Trade -> bool): seq<Trade>
    decreases |trades|
  {
    if trades == [] then []
    else
      var t := trades[|trades| - 1];
      Those(trades[..|trades| - 1], kind) + if kind(t) then [t] else []
  }

  function ClosedOn(date: int): Trade -> bool {
    (t: Trade) => 86400 * date <= t.closeTs < 86400 * (date + 1)
  }

  function ClosedBy(date: int): Trade -> bool {
    (t: Trade) => t.closeTs < 86400 * (date + 1)
  }

  /** So many hours after some midnight and not a full hour more. */
  function OpenedInHour(h: int): Trade -> bool {
    (t: Trade) => 3600 * h <= t.openTs - 86400 * (t.openTs / 86400) < 3600 * (h + 1)
  }

  /** Up to a quarter of an hour, an hour, four hours, a day, and longer. */
  function Lasted(bucket: int): Trade -> bool {
    (t: Trade) =>
      var secs := t.closeTs - t.openTs;
      match bucket
      case 0 => secs < 900
      case 1 => 900 <= secs < 3600
      case 2 => 3600 <= secs < 14400
      case 3 => 14400 <= secs < 86400
      case 4 => 86400 <= secs
      case _ => false
  }

  lemma {:induction false} BucketIs(trades: seq<Trade>, key: Trade -> int, k: int, kind: Trade -> bool)
    requires forall t :: t in trades ==> (key(t) == k <==> kind(t))
    ensures Bucket(trades, key, k) == Those(trades, kind)
    decreases |trades|
  {
    if trades != [] {
      var most := trades[..|trades| - 1];
      forall t | t in most ensures key(t) == k <==> kind(t) {
        assert t in trades;
      }
      BucketIs(most, key, k, kind);
    }
  }

  lemma {:induction false} ThoseSame(trades: seq<Trade>, a: Trade -> bool, b: Trade -> bool)
    requires forall t :: t in trades ==> (a(t) <==> b(t))
    ensures Those(trades, a) == Those(trades, b)
    decreases |trades|
  {
    if trades != [] {
      var most := trades[..|trades| - 1];
      forall t | t in most ensures a(t) <==> b(t) {
        assert t in trades;
      }
      ThoseSame(most, a, b);
    }
  }

  /** The trades of either of two kinds that exclude each other. */
  lemma {:induction false} NetOfBoth(trades: seq<Trade>, a: Trade -> bool, b: Trade -> bool, both: Trade -> bool)
    requires forall t :: t in trades ==> (both(t) <==> a(t) || b(t)) && !(a(t) && b(t))
    ensures Net(Those(trades, both)) == Net(Those(trades, a)) + Net(Those(trades, b))
    decreases |trades|
  {
    if trades != [] {
      var most, t := trades[..|trades| - 1], trades[|trades| - 1];
      forall u | u in most ensures (both(u) <==> a(u) || b(u)) && !(a(u) && b(u)) {
        assert u in trades;
      }
      NetOfBoth(most, a, b, both);
      NetMore(Those(most, both), t, both(t));
      NetMore(Those(most, a), t, a(t));
      NetMore(Those(most, b), t, b(t));
    }
  }

  lemma {:induction false} NetMore(trades: seq<Trade>, t: Trade, more: bool)
    ensures Net(trades + if more then [t] else []) == Net(trades) + if more then t.pnl else 0.0
  {
    if more {
      assert (trades + [t])[..|trades|] == trades;
    } else {
      assert trades + [] == trades;
    }
  }

  /** Everything up to a key. */
  function UpTo(key: Trade -> int, k: int): Trade -> bool {
    (t: Trade) => key(t) <= k
  }

  lemma {:induction false} RowAt(trades: seq<Trade>, key: Trade -> int, keys: seq<int>, i: nat)
    requires i < |keys|
    ensures var group, rows := Bucket(trades, key, keys[i]), Rows(trades, key, keys);
            && rows[i].key == keys[i] && rows[i].n == |group| && rows[i].net == Net(group)
            && rows[i].cum == Net(group) + if i == 0 then 0.0 else rows[i - 1].cum
    decreases |keys|
  {
    if i < |keys| - 1 {
      RowAt(trades, key, keys[..|keys| - 1], i);
    }
  }

  /** The running total takes in everything up to the row's key. */
  lemma {:induction false} CumIs(trades: seq<Trade>, key: Trade -> int, i: nat)
    requires i < |Keys(trades, key)|
    ensures Table(trades, key)[i].cum == Net(Those(trades, UpTo(key, Keys(trades, key)[i])))
    decreases i
  {
    var keys := Keys(trades, key);
    KeysExact(trades, key);
    RowAt(trades, key, keys, i);
    BucketIs(trades, key, keys[i], Only(key, keys[i]));
    if i == 0 {
      forall t | t in trades ensures UpTo(key, keys[0])(t) <==> Only(key, keys[0])(t) {
        KeySplit(trades, key, keys, i, t);
      }
      ThoseSame(trades, UpTo(key, keys[0]), Only(key, keys[0]));
    } else {
      CumIs(trades, key, i - 1);
      OneMoreKey(trades, key, keys, i);
    }
  }

  function Only(key: Trade -> int, k: int): Trade -> bool {
    (t: Trade) => key(t) == k
  }

  lemma {:induction false} KeySplit(trades: seq<Trade>, key: Trade -> int, keys: seq<int>, i: nat, t: Trade)
    requires Rising(keys) && AllKeyed(trades, key, keys) && i < |keys| && t in trades
    ensures key(t) <= keys[i] <==> key(t) == keys[i] || (i > 0 && key(t) <= keys[i - 1])
    ensures i > 0 && key(t) <= keys[i - 1] ==> key(t) != keys[i]
  {
    var n :| 0 <= n < |trades| && trades[n] == t;
    var j :| 0 <= j < |keys| && keys[j] == key(t);
  }

  lemma {:induction false} OneMoreKey(trades: seq<Trade>, key: Trade -> int, keys: seq<int>, i: nat)
    requires Rising(keys) && AllKeyed(trades, key, keys) && 0 < i < |keys|
    ensures Net(Those(trades, UpTo(key, keys[i])))
         == Net(Those(trades, UpTo(key, keys[i - 1]))) + Net(Those(trades, Only(key, keys[i])))
  {
    forall t | t in trades
      ensures UpTo(key, keys[i])(t) <==> UpTo(key, keys[i - 1])(t) || Only(key, keys[i])(t)
      ensures !(UpTo(key, keys[i - 1])(t) && Only(key, keys[i])(t))
    {
      KeySplit(trades, key, keys, i, t);
    }
    NetOfBoth(trades, UpTo(key, keys[i - 1]), Only(key, keys[i]), UpTo(key, keys[i]));
  }

  /** Every row of the daily table counts and adds up the trades that closed on its date, of which there are some,
      and its running total is what has been made by the end of that date; no trade's date is missing. */
  lemma {:induction false} DaysInTime(trades: seq<Trade>)
    ensures var rows := Table(trades, CloseDate);
            && (forall i :: 0 <= i < |rows| ==>
                  var group := Those(trades, ClosedOn(rows[i].key));
                  && group != [] && rows[i].n == |group| && rows[i].net == Net(group)
                  && rows[i].cum == Net(Those(trades, ClosedBy(rows[i].key))))
            && (forall t :: t in trades ==> exists i :: 0 <= i < |rows| && ClosedOn(rows[i].key)(t))
  {
    var rows, keys := Table(trades, CloseDate), Keys(trades, CloseDate);
    forall i | 0 <= i < |rows|
      ensures var group := Those(trades, ClosedOn(rows[i].key));
              && group != [] && rows[i].n == |group| && rows[i].net == Net(group)
              && rows[i].cum == Net(Those(trades, ClosedBy(rows[i].key)))
    {
      RowAt(trades, CloseDate, keys, i);
      KeyHasTrades(trades, CloseDate, keys[i]);
      BucketIs(trades, CloseDate, keys[i], ClosedOn(keys[i]));
      CumIs(trades, CloseDate, i);
      ThoseSame(trades, UpTo(CloseDate, keys[i]), ClosedBy(keys[i]));
    }
    KeysExact(trades, CloseDate);
    forall t | t in trades ensures exists i :: 0 <= i < |rows| && ClosedOn(rows[i].key)(t) {
      assert CloseDate(t) in keys;
      var i :| 0 <= i < |keys| && keys[i] == CloseDate(t);
      RowAt(trades, CloseDate, keys, i);
      assert ClosedOn(rows[i].key)(t);
    }
  }

  /** Every row of the hour table counts and adds up the trades opened in that hour of some day. */
  lemma {:induction false} HoursInTime(trades: seq<Trade>)
    ensures var rows := HourTable(trades);
            forall i :: 0 <= i < |rows| ==>
              var group := Those(trades, OpenedInHour(rows[i].key));
              group != [] && rows[i].n == |group| && rows[i].net == Net(group)
  {
    var rows, keys := HourTable(trades), Keys(trades, OpenHour);
    forall i | 0 <= i < |rows|
      ensures var group := Those(trades, OpenedInHour(rows[i].key));
              group != [] && rows[i].n == |group| && rows[i].net == Net(group)
    {
      GroupsAt(trades, OpenHour, keys, i);
      KeyHasTrades(trades, OpenHour, keys[i]);
      BucketIs(trades, OpenHour, keys[i], OpenedInHour(keys[i]));
    }
  }

  lemma LastedIs(t: Trade, k: int)
    ensures DurationBucket(t) == k <==> Lasted(k)(t)
  {
  }

  /** Every row of the duration table counts and adds up the trades that lasted that long. */
  lemma {:induction false} DurationsInTime(trades: seq<Trade>)
    ensures var rows := DurationTable(trades);
            forall i :: 0 <= i < |rows| ==>
              var group := Those(trades, Lasted(rows[i].key));
              group != [] && rows[i].n == |group| && rows[i].net == Net(group)
  {
    var rows, keys := DurationTable(trades), Keys(trades, DurationBucket);
    forall i | 0 <= i < |rows|
      ensures var group := Those(trades, Lasted(rows[i].key));
              group != [] && rows[i].n == |group| && rows[i].net == Net(group)
    {
      GroupsAt(trades, DurationBucket, keys, i);
      KeyHasTrades(trades, DurationBucket, keys[i]);
      forall t | t in trades ensures DurationBucket(t) == keys[i] <==> Lasted(keys[i])(t) {
        LastedIs(t, keys[i]);
      }
      BucketIs(trades, DurationBucket, keys[i], Lasted(keys[i]));
    }
  }

  /** The curve is the starting balance and what has been made so far. */
  lemma {:induction false} CurveIs(start: real, trades: seq<Trade>, i: nat)
    requires i <= |trades|
    ensures Curve(start, trades)[i] == start + Net(trades[..i])
    decreases |trades|
  {
    if i == |trades| {
      if i > 0 {
        CurveIs(start, trades[..i - 1], i - 1);
        assert trades[..i - 1][..i - 1] == trades[..i - 1];
      }
      assert trades[..i] == trades;
    } else {
      CurveIs(start, trades[..|trades| - 1], i);
      assert trades[..|trades| - 1][..i] == trades[..i];
    }
  }

  /** What the first i trades have made. */
  function Made(trades: seq<Trade>, i: nat): real
    requires i <= |trades|
  {
    Net(trades[..i])
  }

  predicate IsPercent(pct: real, dd: real, peak: real) {
    if peak > 0.0 then pct * peak == 100.0 * dd else pct == 0.0
  }

  /** No fall of what has been made is deeper. */
  predicate FallsAtMost(trades: seq<Trade>, dd: real) {
    forall i, j :: 0 <= i <= j <= |trades| ==> Made(trades, i) - Made(trades, j) <= dd
  }

  /** From the highest point so far down to here. */
  predicate FallsFrom(trades: seq<Trade>, peak: nat, trough: nat, dd: real) {
    && peak <= trough <= |trades|
    && Made(trades, peak) - Made(trades, trough) == dd
    && forall i :: 0 <= i <= trough ==> Made(trades, i) <= Made(trades, peak)
  }

  predicate IsCurve(start: real, trades: seq<Trade>, curve: seq<real>) {
    |curve| == |trades| + 1 && forall i :: 0 <= i <= |trades| ==> curve[i] == start + Made(trades, i)
  }

  lemma {:induction false} FallsBound(start: real, trades: seq<Trade>, curve: seq<real>, dd: real)
    requires IsCurve(start, trades, curve) && Bounds(curve, dd)
    ensures FallsAtMost(trades, dd)
  {
    forall i, j | 0 <= i <= j <= |trades| ensures Made(trades, i) - Made(trades, j) <= dd {
      assert curve[i] - curve[j] <= dd;
    }
  }

  lemma {:induction false} FallAt(start: real, trades: seq<Trade>, curve: seq<real>, trough: nat, dd: real, pct: real)
    returns (peak: nat)
    requires IsCurve(start, trades, curve) && Trough(curve, trough, dd, pct)
    ensures FallsFrom(trades, peak, trough, dd) && IsPercent(pct, dd, start + Made(trades, peak))
  {
    peak :| 0 <= peak <= trough && curve[peak] == curve[trough] + dd;
    PercentIs(dd, curve[peak]);
    forall i | 0 <= i <= trough ensures Made(trades, i) <= Made(trades, peak) {
      assert curve[i] <= curve[peak];
    }
  }

  /** The trades by closing time: the drawdown is the deepest fall of what has been made, from the highest point so
      far, and is given in percent of the balance there. */
  lemma {:induction false} DrawdownInMoney(start: real, trades: seq<Trade>) returns (peak: nat, trough: nat)
    ensures var done, r := ByClose(trades), Drawdown(start, ByClose(trades));
            && FallsAtMost(done, r.dd) && FallsFrom(done, peak, trough, r.dd)
            && IsPercent(r.pct, r.dd, if r.dd == 0.0 then 1.0 else start + Made(done, peak))
  {
    peak, trough := DeepestFall(start, ByClose(trades));
  }

  lemma {:induction false} DeepestFall(start: real, done: seq<Trade>) returns (peak: nat, trough: nat)
    ensures var r := Drawdown(start, done);
            && FallsAtMost(done, r.dd) && FallsFrom(done, peak, trough, r.dd)
            && IsPercent(r.pct, r.dd, if r.dd == 0.0 then 1.0 else start + Made(done, peak))
  {
    DrawdownExact(start, done);
    WholeCurve(start, done);
    peak, trough := FallOf(start, done, Curve(start, done), Drawdown(start, done));
  }

  lemma {:induction false} WholeCurve(start: real, trades: seq<Trade>)
    ensures IsCurve(start, trades, Curve(start, trades))
  {
    forall i: nat | i <= |trades| ensures Curve(start, trades)[i] == start + Made(trades, i) {
      CurveIs(start, trades, i);
    }
  }

  lemma {:induction false} FallOf(start: real, trades: seq<Trade>, curve: seq<real>, r: Run)
    returns (peak: nat, trough: nat)
    requires IsCurve(start, trades, curve) && Exact(curve, r)
    ensures FallsAtMost(trades, r.dd) && FallsFrom(trades, peak, trough, r.dd)
    ensures IsPercent(r.pct, r.dd, if r.dd == 0.0 then 1.0 else start + Made(trades, peak))
  {
    FallsBound(start, trades, curve, r.dd);
    if r.dd == 0.0 {
      peak, trough := 0, 0;
    } else {
      trough :| Trough(curve, trough, r.dd, r.pct);
      peak := FallAt(start, trades, curve, trough, r.dd, r.pct);
    }
  }

  lemma PercentIs(dd: real, peak: real)
    ensures IsPercent(Percent(dd, peak), dd, peak)
  {
  }
}
