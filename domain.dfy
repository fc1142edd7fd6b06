/** Value types shared by the stores and the screens: identifiers, instants and
    days, weekdays, colors, and the Tracker, TrackerCategory and TrackerRecord
    values the data layer hands to the screens. */
module Domain {

  datatype Option<+T> = None | Some(value: T) {
    /** Swift's `??`. */
    function GetOr(default: T): T {
      if Some? then value else default
    }
  }

  /** A UUID; no rule of the model depends on its bits. */
  type Uuid = nat

  /** An instant (Foundation's Date), in whole seconds since 1970-01-01 00:00 UTC. */
  type Instant = int

  /** One calendar day. The model's calendar has no time zones and no daylight saving. */
  const SecondsPerDay: int := 86400

  /** Calendar.startOfDay(for:): the first instant of the day that contains `t`. */
  function StartOfDay(t: Instant): (r: Instant)
    ensures r <= t < r + SecondsPerDay
    ensures r % SecondsPerDay == 0
  {
    t - t % SecondsPerDay
  }

  /** The day window [startOfDay, startOfDay + 1 day) that the record store queries. */
  predicate InDayOf(t: Instant, day: Instant) {
    StartOfDay(day) <= t < StartOfDay(day) + SecondsPerDay
  }

  /** A start of day is the only day start within one day of the instants it covers. */
  lemma StartOfDayUnique(t: Instant, r: Instant)
    requires r % SecondsPerDay == 0
    requires r <= t < r + SecondsPerDay
    ensures StartOfDay(t) == r
  {
    var q := r / SecondsPerDay;
    assert r == q * SecondsPerDay;
    assert t == q * SecondsPerDay + (t - r);
    assert t % SecondsPerDay == t - r;
  }

  /** An instant lies in the window of `day` exactly when both have the same start of day. */
  lemma InDayOfIff(t: Instant, day: Instant)
    ensures InDayOf(t, day) <==> StartOfDay(t) == StartOfDay(day)
  {
    if InDayOf(t, day) {
      StartOfDayUnique(t, StartOfDay(day));
    }
  }

  /** Weekday (its declaration is not part of this model's sources; see README). */
  datatype Weekday = Monday | Tuesday | Wednesday | Thursday | Friday | Saturday | Sunday

  /** Weekday.allCases, in declaration order. */
  const AllWeekdays: seq<Weekday> := [Monday, Tuesday, Wednesday, Thursday, Friday, Saturday, Sunday]

  /** The raw value a weekday is archived under. */
  function RawValue(w: Weekday): string {
    match w
    case Monday => "monday"
    case Tuesday => "tuesday"
    case Wednesday => "wednesday"
    case Thursday => "thursday"
    case Friday => "friday"
    case Saturday => "saturday"
    case Sunday => "sunday"
  }

  /** Weekday(rawValue:): the failable initializer. */
  function WeekdayFromRawValue(s: string): (r: Option<Weekday>)
    ensures r.Some? ==> RawValue(r.value) == s
    ensures r.None? ==> forall w: Weekday :: RawValue(w) != s
  {
    if s == "monday" then Some(Monday)
    else if s == "tuesday" then Some(Tuesday)
    else if s == "wednesday" then Some(Wednesday)
    else if s == "thursday" then Some(Thursday)
    else if s == "friday" then Some(Friday)
    else if s == "saturday" then Some(Saturday)
    else if s == "sunday" then Some(Sunday)
    else None
  }

  /** Every weekday is read back from its raw value. */
  lemma RawValueRoundTrip(w: Weekday)
    ensures WeekdayFromRawValue(RawValue(w)) == Some(w)
  {
  }

  /** Weekday.bitValue: one bit per day, Monday lowest. */
  function BitValue(w: Weekday): nat {
    match w
    case Monday => 1
    case Tuesday => 2
    case Wednesday => 4
    case Thursday => 8
    case Friday => 16
    case Saturday => 32
    case Sunday => 64
  }

  /** Weekday.shortName, the label used in the schedule summary. */
  function ShortName(w: Weekday): string {
    match w
    case Monday => "Пн"
    case Tuesday => "Вт"
    case Wednesday => "Ср"
    case Thursday => "Чт"
    case Friday => "Пт"
    case Saturday => "Сб"
    case Sunday => "Вс"
  }

  /** Weekday(calendarWeekday:): the Gregorian calendar numbers Sunday 1 through Saturday 7. */
  function WeekdayFromCalendar(n: int): (r: Option<Weekday>)
    ensures r.Some? <==> 1 <= n <= 7
  {
    if n == 1 then Some(Sunday)
    else if n == 2 then Some(Monday)
    else if n == 3 then Some(Tuesday)
    else if n == 4 then Some(Wednesday)
    else if n == 5 then Some(Thursday)
    else if n == 6 then Some(Friday)
    else if n == 7 then Some(Saturday)
    else None
  }

  /** Calendar.component(.weekday, from:) for the model's calendar:
      1970-01-01 was a Thursday (component 5). */
  function CalendarWeekday(t: Instant): (n: int)
    ensures 1 <= n <= 7
  {
    (t / SecondsPerDay + 4) % 7 + 1
  }

  /** UIColor, kept as the hex string UIColorMarshalling turns it into. */
  datatype Color = Color(hex: string)

  /** Tracker: a habit with its weekly schedule. */
  datatype Tracker = Tracker(id: Uuid, name: string, color: Color, schedule: seq<Weekday>, emoji: string)

  /** TrackerCategory: a title and the trackers shown under it. */
  datatype TrackerCategory = TrackerCategory(title: string, trackers: seq<Tracker>)

  /** TrackerRecord: one completion of a tracker. */
  datatype TrackerRecord = TrackerRecord(trackerId: Uuid, date: Instant)
}
