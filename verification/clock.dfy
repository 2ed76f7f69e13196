/**
 * The timeline the telemetry lives on. Library parsing and combining of
 * dates and times is not modelled: each library routine is a field of a
 * `Calendar`, supplied by the caller, and the model uses nothing about it
 * except that an `Instant` is totally ordered by `<`.
 */
module Clock {
  import opened Results

  /** A point in time (a Python datetime); only its order is used. */
  type Instant = int

  /** A calendar date (the `.date()` part of a datetime). */
  type Day = int

  /** A time of day (a Python `time`, or the `.time()` part of a datetime). */
  type Tod = int

  /**
   * What `datetime.fromisoformat` returns: the point in time, and whether the
   * text carried a UTC offset (a timezone-aware datetime).
   */
  datatype Moment = Moment(instant: Instant, aware: bool)

  /** The library routines, each returning None where the library raises ValueError. */
  datatype Calendar = Calendar(
    parseDate: string -> Option<Day>,     // strptime(s, "%m/%d/%Y"), keeping the date
    parseTime: string -> Option<Tod>,     // strptime(s, "%H:%M:%S"), keeping the time of day
    parseIso: string -> Option<Moment>,   // datetime.fromisoformat(s)
    combine: (Day, Tod) -> Instant)       // datetime.combine(date, time)
}
