/** The part of Python's `datetime` the adapter uses: a calendar date, a
    time of day, and `datetime.combine` of the two. */
module DateTimes {
  import opened Wrappers

  datatype Date = Date(year: int, month: int, day: int)
  datatype Time = Time(hour: int, minute: int, second: int)
  datatype DateTime = DateTime(date: Date, time: Time)

  /** `time(0, 0, 0)` */
  const Midnight := Time(0, 0, 0)

  /** The two `strptime` formats, taken as given: `date` reads
      "%B %d, %Y" and `time` reads "%I:%M %p"; `None` is the ValueError
      `strptime` raises on text that does not match. */
  datatype Parsers = Parsers(date: string -> Option<Date>, time: string -> Option<Time>)
}
