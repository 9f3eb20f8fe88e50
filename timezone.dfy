/** The time-zone adapter: the table of twenty city names, the chain that
    tries the table first and the raw location second, the reply built from
    the answer (with the day name taken from a seven-day list), and the
    reply that replaces every failure, so that a lookup never throws.

    The time API is the parameter `fetch` (from a URL to the answer's
    fields, or an error).  Parsing and printing dates is the parameter
    `clock`: `localeString` is `new Date(x).toLocaleString(...)`, `isoOf` is
    `new Date(x).toISOString()` (no value for an invalid date, where it
    throws a `RangeError`) and `nowIso` is the ISO text of the current
    time. */
module Timezone {
  import opened Common

  const BaseUrl: string := "http://worldtimeapi.org/api"
  /** Request timeout, in milliseconds. */
  const Timeout: int := 10000

  /** `isAvailable()` is always true: the time API needs no key. */
  const Available: bool := true

  /** What calling `toLowerCase` on a missing location throws. */
  const LowerOfUndefined: string := "Cannot read properties of undefined (reading 'toLowerCase')"

  /** The tool definition offered to the language model. */
  const ToolDef: ToolDefinition :=
    ToolDefinition("get_timezone_info",
                   "Get current time and timezone information for travel destinations",
                   [ToolParameter("location", "City name, country, or timezone (e.g., \"New York\", \"London\", \"Tokyo\", \"America/New_York\")", None)],
                   ["location"])

  /** The city table, lower-case names to time-zone names. */
  const Cities: seq<(string, string)> := [
    ("new york", "America/New_York"),
    ("london", "Europe/London"),
    ("paris", "Europe/Paris"),
    ("tokyo", "Asia/Tokyo"),
    ("sydney", "Australia/Sydney"),
    ("los angeles", "America/Los_Angeles"),
    ("chicago", "America/Chicago"),
    ("berlin", "Europe/Berlin"),
    ("rome", "Europe/Rome"),
    ("madrid", "Europe/Madrid"),
    ("moscow", "Europe/Moscow"),
    ("dubai", "Asia/Dubai"),
    ("singapore", "Asia/Singapore"),
    ("hong kong", "Asia/Hong_Kong"),
    ("mumbai", "Asia/Kolkata"),
    ("delhi", "Asia/Kolkata"),
    ("bangkok", "Asia/Bangkok"),
    ("seoul", "Asia/Seoul"),
    ("beijing", "Asia/Shanghai"),
    ("shanghai", "Asia/Shanghai")
  ]

  const DayNames: seq<string> := ["Sunday", "Monday", "Tuesday", "Wednesday", "Thursday", "Friday", "Saturday"]

  /** The fields of the time API's answer the adapter reads. */
  datatype TimeData = TimeData(datetime: Option<string>, timezone: string, utcOffset: string,
                               dayOfWeek: int, dayOfYear: int, weekNumber: int)

  datatype Clock = Clock(localeString: string -> string, isoOf: string -> Option<string>, nowIso: string)

  /** The two replies, before they are printed. */
  datatype TimeReply =
    | Report(location: string, localTime: string, timezone: string, utcOffset: string, dayName: string,
             dayOfYear: int, weekNumber: int, utcTime: string)
    | Fallback(location: string, utcTime: string)

  /** The entry for `name` in a table of pairs: the first match. */
  function Find(table: seq<(string, string)>, name: string): (r: Option<string>)
    ensures r.None? <==> forall i :: 0 <= i < |table| ==> table[i].0 != name
    ensures r.Some? ==> exists i :: 0 <= i < |table| && table[i] == (name, r.value)
  {
    if table == [] then None
    else if table[0].0 == name then Some(table[0].1)
    else
      var rest := Find(table[1..], name);
      assert rest.Some? ==> exists i :: 0 <= i < |table[1..]| && table[1..][i] == (name, rest.value);
      rest
  }

  /** `cityTimezoneMap[location.toLowerCase()]`. */
  function CityTimezone(location: string): Option<string>
  {
    Find(Cities, ToLower(location))
  }

  /** The table has twenty distinct names. */
  lemma CitiesDistinct()
    ensures |Cities| == 20
    ensures forall i, j :: 0 <= i < j < |Cities| ==> Cities[i].0 != Cities[j].0
  {
  }

  /** In a table without repeated names, each name finds its own entry. */
  lemma {:induction false} FindsOwnEntry(table: seq<(string, string)>, i: nat)
    requires i < |table|
    requires forall j, k :: 0 <= j < k < |table| ==> table[j].0 != table[k].0
    ensures Find(table, table[i].0) == Some(table[i].1)
  {
    if i > 0 {
      FindsOwnEntry(table[1..], i - 1);
    }
  }

  /** A location whose lower-case form is the name of entry `i` finds that
      entry's zone. */
  lemma ZoneOf(location: string, i: nat)
    requires i < |Cities| && ToLower(location) == Cities[i].0
    ensures CityTimezone(location) == Some(Cities[i].1)
  {
    CitiesDistinct();
    FindsOwnEntry(Cities, i);
  }

  /** Cities sharing a zone. */
  lemma SharedZones()
    ensures CityTimezone("mumbai") == CityTimezone("delhi") == Some("Asia/Kolkata")
    ensures CityTimezone("beijing") == CityTimezone("shanghai") == Some("Asia/Shanghai")
  {
    assert ToLower("mumbai") == Cities[14].0 && ToLower("delhi") == Cities[15].0;
    assert ToLower("beijing") == Cities[18].0 && ToLower("shanghai") == Cities[19].0;
    ZoneOf("mumbai", 14);
    ZoneOf("delhi", 15);
    ZoneOf("beijing", 18);
    ZoneOf("shanghai", 19);
  }

  /** The lookup ignores the case of ASCII letters. */
  lemma LookupIgnoresCase()
    ensures CityTimezone("New York") == Some("America/New_York")
  {
    ZoneOf("New York", 0);
  }

  function ZoneUrl(name: string): string
  {
    BaseUrl + "/timezone/" + name
  }

  /** `searchTimezoneByLocation(location)`: nothing for a name outside the
      table, the answer for the table's zone otherwise, and a failure when
      the location is missing or the request fails. */
  function SearchTimezoneByLocation(location: Option<string>, fetch: string -> HttpResult<TimeData>): (r: Result<Option<TimeData>>)
    ensures location.None? ==> r == Err(LowerOfUndefined)
    ensures location.Some? && CityTimezone(location.value).None? ==> r == Ok(None)
    ensures location.Some? && CityTimezone(location.value).Some? ==>
              var answer := fetch(ZoneUrl(CityTimezone(location.value).value));
              && (answer.HttpError? ==> r == Err(answer.message))
              && (answer.Response? ==> r == Ok(Some(answer.data)))
  {
    if location.None? then Err(LowerOfUndefined)
    else
      match CityTimezone(location.value)
      case None => Ok(None)
      case Some(zone) =>
        match fetch(ZoneUrl(zone))
        case HttpError(_, message) => Err(message)
        case Response(data) => Ok(Some(data))
  }

  /** `dayNames[dayOfWeek]`. */
  function DayName(dayOfWeek: int): (r: Option<string>)
    ensures r.Some? <==> 0 <= dayOfWeek < 7
    ensures r.Some? ==> r.value == DayNames[dayOfWeek]
  {
    if 0 <= dayOfWeek < |DayNames| then Some(DayNames[dayOfWeek]) else None
  }

  lemma DayNameExamples()
    ensures DayName(0) == Some("Sunday") && DayName(6) == Some("Saturday")
    ensures DayName(7).None? && DayName(-1).None?
  {
  }

  predicate OccursAt(s: string, pattern: string, i: nat)
  {
    i + |pattern| <= |s| && s[i..i + |pattern|] == pattern
  }

  /** The first position at or after `from` where `pattern` occurs. */
  function FindFrom(s: string, pattern: string, from: nat): (r: Option<nat>)
    requires from <= |s|
    ensures r.Some? ==> from <= r.value && OccursAt(s, pattern, r.value)
    ensures r.Some? ==> forall k :: from <= k < r.value ==> !OccursAt(s, pattern, k)
    ensures r.None? ==> forall k :: from <= k <= |s| ==> !OccursAt(s, pattern, k)
    decreases |s| - from
  {
    if OccursAt(s, pattern, from) then Some(from)
    else if from == |s| then None
    else FindFrom(s, pattern, from + 1)
  }

  /** `s.replace(pattern, replacement)` for a string pattern: only the first
      occurrence is replaced. */
  function ReplaceFirst(s: string, pattern: string, replacement: string): (r: string)
    ensures FindFrom(s, pattern, 0).None? ==> r == s
    ensures FindFrom(s, pattern, 0).Some? ==>
              var i := FindFrom(s, pattern, 0).value;
              r == s[..i] + replacement + s[i + |pattern|..]
  {
    match FindFrom(s, pattern, 0)
    case None => s
    case Some(i) => s[..i] + replacement + s[i + |pattern|..]
  }

  /** `iso.replace('T', ' ').substring(0, 19)`. */
  function UtcText(iso: string): (r: string)
    ensures |r| <= 19
  {
    var t := ReplaceFirst(iso, "T", " ");
    t[..Min(19, |t|)]
  }

  /** `formatTimezoneResponse` with the destructuring before it; no reply
      when the answer has no `datetime` or its UTC form is not a valid
      date. */
  function Describe(location: Option<string>, data: TimeData, clock: Clock): (r: Option<TimeReply>)
    ensures r.None? <==> data.datetime.None? || clock.isoOf(ReplaceFirst(data.datetime.value, data.utcOffset, "Z")).None?
    ensures r.Some? ==> r.value.Report? && r.value.location == Show(location)
                        && r.value.timezone == data.timezone && r.value.utcOffset == data.utcOffset
                        && r.value.dayName == Show(DayName(data.dayOfWeek))
  {
    if data.datetime.None? then None
    else
      var dt := data.datetime.value;
      match clock.isoOf(ReplaceFirst(dt, data.utcOffset, "Z"))
      case None => None
      case Some(iso) =>
        Some(Report(Show(location), clock.localeString(dt), data.timezone, data.utcOffset, Show(DayName(data.dayOfWeek)),
                    data.dayOfYear, data.weekNumber, UtcText(iso)))
  }

  /** The reply made from an answer, or the fallback. */
  function FromAnswer(location: Option<string>, answer: Result<TimeData>, clock: Clock): (r: TimeReply)
    ensures answer.Err? ==> r == Fallback(Show(location), UtcText(clock.nowIso))
    ensures answer.Ok? ==> r == (var d := Describe(location, answer.value, clock);
                                 if d.Some? then d.value else Fallback(Show(location), UtcText(clock.nowIso)))
  {
    if answer.Err? then Fallback(Show(location), UtcText(clock.nowIso))
    else
      match Describe(location, answer.value, clock)
      case None => Fallback(Show(location), UtcText(clock.nowIso))
      case Some(reply) => reply
  }

  /** The answer for the raw location, used when the table gives nothing. */
  function Direct(location: Option<string>, fetch: string -> HttpResult<TimeData>): (r: Result<TimeData>)
    ensures fetch(ZoneUrl(Show(location))).HttpError? ==> r == Err(fetch(ZoneUrl(Show(location))).message)
    ensures fetch(ZoneUrl(Show(location))).Response? ==> r == Ok(fetch(ZoneUrl(Show(location))).data)
  {
    match fetch(ZoneUrl(Show(location)))
    case HttpError(_, message) => Err(message)
    case Response(data) => Ok(data)
  }

  /** `getTimezoneInfo(location)`: a reply in every case. */
  function GetTimezoneInfo(location: Option<string>, fetch: string -> HttpResult<TimeData>, clock: Clock): (r: TimeReply)
    ensures r.Fallback? ==> r == Fallback(Show(location), UtcText(clock.nowIso))
    ensures r.Report? ==> r.location == Show(location)
  {
    var found := SearchTimezoneByLocation(location, fetch);
    var answer := if found.Ok? && found.value.Some? then Ok(found.value.value) else Direct(location, fetch);
    FromAnswer(location, answer, clock)
  }

  /** A city of the table is looked up under its zone name. */
  lemma TableCityUsesItsZone(location: string, fetch: string -> HttpResult<TimeData>, clock: Clock)
    requires CityTimezone(location).Some?
    requires fetch(ZoneUrl(CityTimezone(location).value)).Response?
    ensures GetTimezoneInfo(Some(location), fetch, clock)
         == FromAnswer(Some(location), Ok(fetch(ZoneUrl(CityTimezone(location).value)).data), clock)
  {
  }

  /** When the table has no entry, or its request fails, the raw location is
      tried as a zone name. */
  lemma RawLocationIsTriedNext(location: Option<string>, fetch: string -> HttpResult<TimeData>, clock: Clock)
    requires location.None? || CityTimezone(location.value).None? || fetch(ZoneUrl(CityTimezone(location.value).value)).HttpError?
    ensures GetTimezoneInfo(location, fetch, clock) == FromAnswer(location, Direct(location, fetch), clock)
  {
  }

  /** When both requests fail the reply is the fallback quoting the
      location. */
  lemma BothFailuresFallBack(location: Option<string>, fetch: string -> HttpResult<TimeData>, clock: Clock)
    requires location.None? || CityTimezone(location.value).None? || fetch(ZoneUrl(CityTimezone(location.value).value)).HttpError?
    requires fetch(ZoneUrl(Show(location))).HttpError?
    ensures GetTimezoneInfo(location, fetch, clock) == Fallback(Show(location), UtcText(clock.nowIso))
  {
  }

  /** The printed reply. */
  function Text(reply: TimeReply): string
  {
    match reply
    case Report(location, localTime, timezone, utcOffset, dayName, dayOfYear, weekNumber, utcTime) =>
      "\U{1F550}" + " **Time Information for " + location + "**\n\n" +
      "**Current Local Time:** " + localTime + "\n\n" +
      "**Timezone:** " + timezone + "\n" +
      "**UTC Offset:** " + utcOffset + "\n" +
      "**Day of Week:** " + dayName + "\n" +
      "**Day of Year:** " + IntToString(dayOfYear) + "\n" +
      "**Week Number:** " + IntToString(weekNumber) + "\n\n" +
      "**UTC Time:** " + utcTime + " UTC\n\n" +
      "*This information is useful for planning calls, meetings, and travel schedules.*"
    case Fallback(location, utcTime) =>
      "\U{1F550}" + " **Time Information**\n\n" +
      "I couldn't get specific timezone data for \"" + location + "\", but here's the current UTC time:\n\n" +
      "**Current UTC Time:** " + utcTime + " UTC\n\n" +
      "**Suggestion:** Try using a more specific location (like \"New York\" or \"London\") or a timezone name (like \"America/New_York\").\n\n" +
      "*For accurate local times when traveling, I recommend checking multiple sources and confirming timezone rules for your specific dates.*"
  }

  /** `executeFunction(functionCall)`: only a failure to parse the arguments
      is thrown. */
  function ExecuteFunction(call: FunctionCall, fetch: string -> HttpResult<TimeData>, clock: Clock): (r: Result<string>)
    ensures r.Err? <==> call.arguments.Err?
    ensures r.Err? ==> r.error == call.arguments.error
    ensures r.Ok? ==>
              var args := call.arguments.value;
              r.value == Text(GetTimezoneInfo(if "location" in args then Some(args["location"]) else None, fetch, clock))
  {
    match call.arguments
    case Err(e) => Err(e)
    case Ok(args) => Ok(Text(GetTimezoneInfo(if "location" in args then Some(args["location"]) else None, fetch, clock)))
  }
}
