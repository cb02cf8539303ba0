/** The session clock: which session a timestamp belongs to, and where in it. */
module Session {
  import opened Models

  /** Seconds after midnight of the open, minutes of opening range, minutes of session. */
  datatype Hours = Hours(open: int, rangeMin: int, lenMin: int)

  /** What the configuration insists on. */
  predicate ValidHours(h: Hours) {
    0 <= h.open < DAY && 1 <= h.rangeMin < h.lenMin
  }

  datatype Zone = Before | InRangeWindow | InSession | After

  /** A session is named by the day on which it opens. */
  datatype Info = Info(zone: Zone, session: int)

  function OpenOf(h: Hours, session: int): int {
    session * DAY + h.open
  }

  function ZoneWithin(h: Hours, ts: int, session: int): Info {
    if ts < OpenOf(h, session) + h.rangeMin * 60 then Info(InRangeWindow, session) else Info(InSession, session)
  }

  function Classify(h: Hours, ts: int): Info {
    var today := DateOf(ts);
    if ts < OpenOf(h, today) then
      if OpenOf(h, today - 1) <= ts < OpenOf(h, today - 1) + h.lenMin * 60 then ZoneWithin(h, ts, today - 1)
      else Info(Before, today)
    else if ts >= OpenOf(h, today) + h.lenMin * 60 then Info(After, today)
    else ZoneWithin(h, ts, today)
  }

  function Rank(z: Zone): int {
    match z
    case Before => 0
    case InRangeWindow => 1
    case InSession => 2
    case After => 3
  }

  /** As time goes on session names never go back, and within one session the zones only go forward. */
  lemma ClockForward(h: Hours, t: int, u: int)
    requires ValidHours(h) && t <= u
    ensures var a, b := Classify(h, t), Classify(h, u);
            a.session < b.session || (a.session == b.session && Rank(a.zone) <= Rank(b.zone))
  {
    assert DateOf(t) <= DateOf(u);
  }

  /** A bar in the opening window lies within the first `rangeMin` minutes after its session's open;
      one later in the session lies after them. */
  lemma WindowMeaning(h: Hours, ts: int)
    requires ValidHours(h)
    ensures var i := Classify(h, ts);
            && (i.zone == InRangeWindow ==> OpenOf(h, i.session) <= ts < OpenOf(h, i.session) + h.rangeMin * 60)
            && (i.zone == InSession ==> OpenOf(h, i.session) + h.rangeMin * 60 <= ts)
            && (i.zone == After ==> OpenOf(h, i.session) + h.lenMin * 60 <= ts)
            && (i.zone == Before ==> ts < OpenOf(h, i.session))
  {
  }

  /** Exactly: within its length from the open, until the next one, a session is in its range window and then
      under way; after that its day has ended, before the open its day has not begun unless the session of
      the day before still runs. */
  lemma ZoneExact(h: Hours, ts: int, s: int)
    requires ValidHours(h)
    ensures var since, i := ts - (86400 * s + h.open), Classify(h, ts);
            && (i == Info(InRangeWindow, s) <==> 0 <= since < 86400 && since < h.rangeMin * 60)
            && (i == Info(InSession, s) <==> 0 <= since < 86400 && h.rangeMin * 60 <= since < h.lenMin * 60)
            && (i == Info(After, s) <==> h.lenMin * 60 <= since && ts < 86400 * (s + 1))
            && (i == Info(Before, s) <==> since < 0 && 86400 * s <= ts && since + 86400 >= h.lenMin * 60)
  {
    assert DateOf(ts) == s <==> 86400 * s <= ts < 86400 * (s + 1);
    assert DateOf(ts) == s + 1 <==> 86400 * (s + 1) <= ts < 86400 * (s + 2);
  }
}
