/**
 * The dashboard's app bar: how long ago the last run was, in words, and what
 * the status area shows while the status loads and once it has loaded.
 * The clock, date parsing and locale date formatting are parameters.
 */
module AppBar {
  import opened Base
  import opened Text
  import Schemas
  import Badge

  const MsPerMinute: int := 60000

  /** The age of the last run, bucketed as the app bar words it. */
  datatype LastRunAge =
    | Never
    | JustNow
    | MinutesAgo(minutes: int)
    | HoursAgo(hours: int)
    | OnDate(at: Time)
    | InvalidDate

  /**
   * The bucket of `dateString` at time `now` (milliseconds). `parse` is
   * `new Date(s).getTime()`, None for an invalid date, which fails every
   * comparison and is shown as "Invalid Date". Minutes are floored.
   */
  function Age(dateString: Option<string>, parse: string -> Option<Time>, now: Time): (age: LastRunAge)
    ensures (dateString.None? || dateString.value == "") <==> age == Never
    ensures dateString.Some? && dateString.value != "" && parse(dateString.value).None? ==> age == InvalidDate
    ensures dateString.Some? && dateString.value != "" && parse(dateString.value).Some? ==>
              var t := parse(dateString.value).value;
              var m := (now - t) / MsPerMinute;
              && (age == JustNow <==> now - t < MsPerMinute)
              && (age.MinutesAgo? <==> MsPerMinute <= now - t < 60 * MsPerMinute)
              && (age.MinutesAgo? ==> age.minutes == m && 1 <= m < 60)
              && (age.HoursAgo? <==> 60 * MsPerMinute <= now - t < 1440 * MsPerMinute)
              && (age.HoursAgo? ==> age.hours == m / 60 && 1 <= age.hours < 24)
              && (age.OnDate? <==> now - t >= 1440 * MsPerMinute)
              && (age.OnDate? ==> age.at == t)
  {
    if dateString.None? || dateString.value == "" then Never
    else match parse(dateString.value)
      case None => InvalidDate
      case Some(t) =>
        var diffMins := (now - t) / MsPerMinute;
        if diffMins < 1 then JustNow
        else if diffMins < 60 then MinutesAgo(diffMins)
        else
          var diffHours := diffMins / 60;
          if diffHours < 24 then HoursAgo(diffHours)
          else OnDate(t)
  }

  /** The words for an age; `localeDate` is `toLocaleDateString()`. */
  function AgeText(age: LastRunAge, localeDate: Time -> string): (text: string)
    ensures age.MinutesAgo? ==> HasSuffix(text, "m ago") && text[..|text| - 5] == IntToString(age.minutes)
    ensures age.HoursAgo? ==> HasSuffix(text, "h ago") && text[..|text| - 5] == IntToString(age.hours)
    ensures age.OnDate? ==> text == localeDate(age.at)
    ensures age == Never ==> text == "Never"
    ensures age == JustNow ==> text == "Just now"
    ensures age == InvalidDate ==> text == "Invalid Date"
  {
    match age
    case Never => "Never"
    case JustNow => "Just now"
    case MinutesAgo(m) => IntToString(m) + "m ago"
    case HoursAgo(h) => IntToString(h) + "h ago"
    case OnDate(t) => localeDate(t)
    case InvalidDate => "Invalid Date"
  }

  /** formatLastRun. */
  function FormatLastRun(dateString: Option<string>, parse: string -> Option<Time>, now: Time,
                         localeDate: Time -> string): (text: string)
    ensures (dateString.None? || dateString.value == "") ==> text == "Never"
  {
    AgeText(Age(dateString, parse, now), localeDate)
  }

  /** The number in "<n>m ago" or "<n>h ago" reads back as the minutes or hours of the age. */
  lemma AgeTextReadsBack(age: LastRunAge, localeDate: Time -> string)
    requires (age.MinutesAgo? && age.minutes >= 0) || (age.HoursAgo? && age.hours >= 0)
    ensures age.MinutesAgo? ==> JsParseInt(AgeText(age, localeDate)) == Some(age.minutes)
    ensures age.HoursAgo? ==> JsParseInt(AgeText(age, localeDate)) == Some(age.hours)
  {
    if age.MinutesAgo? {
      JsParseIntOfNat(age.minutes, "m ago");
    } else {
      JsParseIntOfNat(age.hours, "h ago");
    }
  }

  /** A run that has just happened, or whose time lies in the future, is "Just now". */
  lemma FutureRunIsJustNow(s: string, parse: string -> Option<Time>, now: Time)
    requires s != "" && parse(s).Some? && parse(s).value >= now
    ensures FormatLastRun(Some(s), parse, now, t => "") == "Just now"
  {
  }

  /** The status area next to the title. */
  datatype BadgeArea = Pulse | StatusBadge(config: Badge.StatusBadgeConfig) | Empty

  /** A pulsing placeholder while loading, the state's badge once a status exists, nothing otherwise. */
  function BadgeAreaOf(isLoading: bool, status: Option<Schemas.MonitorStatus>): (area: BadgeArea)
    ensures isLoading <==> area == Pulse
    ensures !isLoading && status.Some? <==> area.StatusBadge?
    ensures area.StatusBadge? ==> area.config == Badge.StatusBadge(status.value.state)
    ensures !isLoading && status.None? <==> area == Empty
  {
    if isLoading then Pulse
    else if status.Some? then StatusBadge(Badge.StatusBadge(status.value.state))
    else Empty
  }

  /** "Last run: …", shown exactly when a status exists, even while it reloads. */
  function LastRunText(status: Option<Schemas.MonitorStatus>, parse: string -> Option<Time>, now: Time,
                       localeDate: Time -> string): (text: Option<string>)
    ensures text.Some? <==> status.Some?
    ensures text.Some? ==>
              HasPrefix(text.value, "Last run: ")
              && text.value[10..] == FormatLastRun(status.value.lastRunAt, parse, now, localeDate)
  {
    if status.Some? then Some("Last run: " + FormatLastRun(status.value.lastRunAt, parse, now, localeDate))
    else None
  }
}
