/** What an exit manager sees of a position and what it may ask for. */
module Sitters {
  import opened Prelude
  import opened Models

  /** A position as its manager sees it. */
  datatype View = View(ticket: int, side: Direction, volume: real, priceOpen: real, sl: real)

  datatype Action = PartialClose(ticket: int, volume: real) | UpdateSl(ticket: int, sl: real)

  /** What a position has gained when the market is at `px`. */
  function Profit(side: Direction, entry: real, px: real): real {
    if side.Long? then px - entry else entry - px
  }

  /** `a` protects more than `b`. */
  predicate Tighter(side: Direction, a: real, b: real) {
    if side.Long? then a > b else a < b
  }

  /** An action that keeps the simulator's books in order: no negative volume, and no stop of 0.0,
      which the simulator reads as "no stop". */
  predicate Sane(a: Action) {
    match a
    case PartialClose(_, volume) => volume >= 0.0
    case UpdateSl(_, sl) => sl != 0.0
  }

  predicate AllSane(actions: seq<Action>) {
    forall i :: 0 <= i < |actions| ==> Sane(actions[i])
  }

  /** The tickets of a list of positions. */
  function Seen(views: seq<View>): set<int> {
    set i | 0 <= i < |views| :: views[i].ticket
  }
}
