/** The game-information reporters of the second extension: venue,
    attendance, weather and officials. */
module GameInfoReporters {
  import opened Js
  import opened JsArray
  import opened JsNumber
  import opened Documents

  /** `summary.gameInfo.venue`, when it is there. */
  function VenueOf(doc: SummaryDoc): Option<Venue> {
    var info :- doc.gameInfo;
    info.venue
  }

  function VenueName(v: Venue): string {
    OrDefault(Or(v.fullName, v.name), "")
  }

  function City(v: Venue): string {
    if v.address.Some? then OrDefault(v.address.value.city, "") else ""
  }

  function Region(v: Venue): string {
    if v.address.Some? then OrDefault(v.address.value.state, "") else ""
  }

  /** " (s)" for a non-empty `s`, nothing for an empty one. */
  function Parenthesised(s: string): string {
    if s == "" then "" else " (" + s + ")"
  }

  /** `getVenue`: `''` without a venue; otherwise the name followed by the
      city and state that are present, comma-separated only when both are,
      in parentheses, and the bare name when neither is. */
  function VenueText(doc: SummaryDoc): (r: string)
    ensures VenueOf(doc).None? ==> r == ""
    ensures VenueOf(doc).Some? ==>
      var v := VenueOf(doc).value;
      r == VenueName(v) + Parenthesised(JoinPresent([City(v), Region(v)], ", "))
  {
    match VenueOf(doc)
    case None => ""
    case Some(v) =>
      var name := VenueName(v);
      var city := City(v);
      var state := Region(v);
      JoinPresentPair(city, state, ", ");
      if city != "" || state != "" then name + " (" + city + (if city != "" && state != "" then ", " else "") + state + ")"
      else name
  }

  /** `summary.gameInfo.attendance`, when it is there. */
  function AttendanceOf(doc: SummaryDoc): Option<int> {
    var info :- doc.gameInfo;
    info.attendance
  }

  const AttendancePrefix := "Attendance: "

  /** `getAttendance`: `''` exactly when the attendance is missing or zero
      (falsy); otherwise the prefix followed by the number, which can be read
      back from the text. */
  function AttendanceText(doc: SummaryDoc): (r: string)
    ensures r == "" <==> AttendanceOf(doc).None? || AttendanceOf(doc).value == 0
    ensures r != "" ==> AttendancePrefix <= r && ParseInt(r[|AttendancePrefix|..]) == AttendanceOf(doc)
  {
    match AttendanceOf(doc)
    case Some(a) =>
      if a != 0 then
        var r := AttendancePrefix + IntToString(a);
        assert r[|AttendancePrefix|..] == IntToString(a);
        r
      else ""
    case None => ""
  }

  /** `summary.gameInfo.weather`, when it is there. */
  function WeatherOf(doc: SummaryDoc): Option<Weather> {
    var info :- doc.gameInfo;
    info.weather
  }

  /** "T°" when a temperature is present (zero included), else nothing. */
  function Temperature(w: Weather): string {
    if w.temperature.Some? then IntToString(w.temperature.value) + "°" else ""
  }

  function Condition(w: Weather): string {
    OrDefault(Or(w.displayValue, w.description), "")
  }

  /** `getWeather`: `''` without a weather object; otherwise the temperature
      and the condition that are present, joined by ", " only when both are.
      A present temperature always leads the text, zero degrees included. */
  function WeatherText(doc: SummaryDoc): (r: string)
    ensures WeatherOf(doc).None? ==> r == ""
    ensures WeatherOf(doc).Some? ==>
      var w := WeatherOf(doc).value;
      r == JoinPresent([Temperature(w), Condition(w)], ", ")
    ensures WeatherOf(doc).Some? && WeatherOf(doc).value.temperature.Some? ==>
      IntToString(WeatherOf(doc).value.temperature.value) + "°" <= r
  {
    match WeatherOf(doc)
    case None => ""
    case Some(w) =>
      var temp := if w.temperature.Some? then IntToString(w.temperature.value) + "°" else "";
      var cond := Condition(w);
      JoinPresentPair(temp, cond, ", ");
      if temp != "" && cond != "" then temp + ", " + cond
      else if temp != "" then temp else cond
  }

  /** An official's name: the display name, `Official` when it is missing
      or empty. */
  function OfficialName(o: Official): string {
    OrDefault(o.displayName, "Official")
  }

  /** An official's position: `position`, else `positionName`, else nothing. */
  function OfficialPosition(o: Official): string {
    OrDefault(Or(o.position, o.positionName), "")
  }

  /** One official's entry: never empty, it starts with the name, and it is
      exactly the name when there is no position, otherwise the name
      followed by " (position)". */
  function OfficialLabel(o: Official): (r: string)
    ensures r != ""
    ensures OfficialName(o) <= r
    ensures r == OfficialName(o) <==> OfficialPosition(o) == ""
    ensures OfficialPosition(o) != "" ==> r[|OfficialName(o)|..] == " (" + OfficialPosition(o) + ")"
  {
    var name := OfficialName(o);
    var pos := OfficialPosition(o);
    if pos != "" then name + " (" + pos + ")" else name
  }

  /** `summary.gameInfo.officials`, when it is there and an array. */
  function OfficialsOf(doc: SummaryDoc): Option<seq<Official>> {
    var info :- doc.gameInfo;
    info.officials
  }

  /** `getOfficials`: one non-empty entry per official, in order; no
      entries when `officials` is not an array. */
  function OfficialsList(doc: SummaryDoc): (r: seq<string>)
    ensures OfficialsOf(doc).None? ==> r == []
    ensures OfficialsOf(doc).Some? ==> |r| == |OfficialsOf(doc).value|
    ensures OfficialsOf(doc).Some? ==> forall i :: 0 <= i < |r| ==> r[i] == OfficialLabel(OfficialsOf(doc).value[i])
    ensures forall i :: 0 <= i < |r| ==> r[i] != ""
  {
    match OfficialsOf(doc)
    case None => []
    case Some(officials) => Map(OfficialLabel, officials)
  }
}
