/** Candles and directions.  Prices and volumes are reals; a timestamp is a count of seconds since
    the epoch, UTC. */
module Models {

  const DAY := 86400

  datatype Direction = Long | Short

  datatype Candle = Candle(ts: int, open: real, high: real, low: real, close: real, volume: real)

  /** What `validate` lets through. */
  predicate Valid(c: Candle) {
    && c.volume >= 0.0
    && c.low <= c.open <= c.high
    && c.low <= c.close <= c.high
  }

  function Opposite(d: Direction): Direction {
    if d.Long? then Short else Long
  }

  /** The UTC date of a timestamp, as a day number. */
  function DateOf(ts: int): int {
    ts / DAY
  }
}
