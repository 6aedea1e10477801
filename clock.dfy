/**
 * Points in time as the stores see them: a calendar day number and an offset within
 * that day. Clocks are never read by the model; "now" and "today" are passed in.
 */
module Clock {
  /** Nanoseconds in a day, the finest resolution any of the stores keeps. */
  const TicksPerDay: int := 86_400_000_000_000

  type TimeOfDay = t: int | 0 <= t < TicksPerDay

  datatype Timestamp = Timestamp(day: int, time: TimeOfDay)

  /** A single number that orders timestamps: day first, then time of day. */
  function Instant(t: Timestamp): int {
    t.day * TicksPerDay + t.time
  }

  /** The first instant of `day`. */
  function StartOfDay(day: int): (t: Timestamp)
    ensures t.day == day && t.time == 0
  {
    Timestamp(day, 0)
  }

  /** `Instant` orders timestamps lexicographically by day, then by time of day. */
  lemma InstantOrder(a: Timestamp, b: Timestamp)
    ensures Instant(a) < Instant(b) <==> a.day < b.day || (a.day == b.day && a.time < b.time)
    ensures Instant(a) == Instant(b) <==> a == b
  {
    if a.day < b.day {
      assert a.day * TicksPerDay + TicksPerDay <= b.day * TicksPerDay by {
        assert (b.day - a.day) * TicksPerDay >= TicksPerDay;
      }
    } else if a.day > b.day {
      assert b.day * TicksPerDay + TicksPerDay <= a.day * TicksPerDay by {
        assert (a.day - b.day) * TicksPerDay >= TicksPerDay;
      }
    }
  }
}
