/** The platform services the app calls and this model does not look inside:
    Foundation's calendar, its date and number formatters and its number parser.
    Each one is a function-valued field, so that every operation that uses it takes
    it as a parameter and every property is proved for all of its behaviours. */
module Platform {
  import opened Wrappers

  /** A point in time (`Date`), in whole seconds. */
  type Date = int

  /** Money in minor units (kuruş); the app itself uses `Double`. */
  type Amount = int

  /** The parts of `Calendar.current` the app uses. */
  datatype Calendar = Calendar(
    /** `component(.weekOfYear, from:)` */
    weekOfYear: Date -> nat,
    /** `component(.yearForWeekOfYear, from:)` */
    yearForWeekOfYear: Date -> nat,
    /** `component(.month, from:)` */
    month: Date -> nat,
    /** `component(.year, from:)` */
    year: Date -> nat,
    /** `isDate(_:equalTo:toGranularity: .weekOfYear)` */
    sameWeek: (Date, Date) -> bool,
    /** `date(byAdding: .weekOfYear, value: -1, to:)`, which may fail */
    weekBefore: Date -> Option<Date>
  )

  /** The formatting and parsing calls the app uses. */
  datatype Formatters = Formatters(
    /** `Double(text)`: the amount a text denotes, if it parses */
    parseNumber: string -> Option<Amount>,
    /** `String(format: "%.2f", amount)` */
    twoDecimals: Amount -> string,
    /** `"\(amount)"`, the default description of a number */
    describe: Amount -> string,
    /** a `DateFormatter` with format `yyyy-MM-dd` */
    isoDay: Date -> string,
    /** a `DateFormatter` with format `dd.MM.yyyy` */
    dottedDay: Date -> string,
    /** `DateFormatter.localizedString(from:dateStyle: .short, timeStyle: .none)` */
    shortDay: Date -> string
  )
}
