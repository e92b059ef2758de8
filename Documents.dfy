/** The two cached ESPN documents, typed. Every field is optional: `None`
    stands for a key that is missing, a JSON `null`, or, for a list, a value
    that is not an array. The navigation code defaults on all three alike;
    only a leaf printed into a string tells a `null` (printed `null`) from a
    missing key (printed `undefined`), and `Js.Text` prints both as
    `undefined`. Only the fields some reporter reads are kept. */
module Documents {
  import opened Js

  /** A team object: only its short display name is ever read. */
  datatype TeamRef = TeamRef(shortDisplayName: Option<string>)

  /** `team?.shortDisplayName || 'Team'`: the short display name of a team
      that may be missing, `Team` when it is missing or empty; never empty. */
  function TeamName(team: Option<TeamRef>): (r: string)
    ensures r != ""
    ensures team.Some? && Truthy(team.value.shortDisplayName) ==> r == team.value.shortDisplayName.value
    ensures !(team.Some? && Truthy(team.value.shortDisplayName)) ==> r == "Team"
  {
    OrDefault(if team.Some? then team.value.shortDisplayName else None, "Team")
  }

  /** The `type` object of a status. */
  datatype StatusType = StatusType(state: Option<string>)

  /** A status object, on a scoreboard event or a summary header competition. */
  datatype Status = Status(period: Option<int>, displayClock: Option<string>, statusType: Option<StatusType>)

  // The scoreboard document.

  datatype Competitor = Competitor(homeAway: Option<string>, team: Option<TeamRef>, score: Option<string>)

  datatype Competition = Competition(competitors: Option<seq<Competitor>>)

  datatype Event = Event(
    id: Option<string>,
    date: Option<string>,
    competitions: Option<seq<Competition>>,
    status: Option<Status>)

  datatype ScoreboardDoc = ScoreboardDoc(events: Option<seq<Event>>)

  /** `{}`: what an absent scoreboard reads as. */
  const EmptyScoreboard := ScoreboardDoc(None)

  // The single-game summary document.

  /** A competitor of the summary header. Its team is a required field: the
      code dereferences it without a guard. */
  datatype HeaderCompetitor = HeaderCompetitor(isRedZone: Option<bool>, team: TeamRef)

  datatype HeaderCompetition = HeaderCompetition(status: Option<Status>, competitors: Option<seq<HeaderCompetitor>>)

  datatype Header = Header(competitions: Option<seq<HeaderCompetition>>)

  datatype Stat = Stat(name: Option<string>, abbreviation: Option<string>, displayValue: Option<string>)

  datatype TeamBox = TeamBox(team: Option<TeamRef>, statistics: Option<seq<Stat>>)

  datatype Boxscore = Boxscore(teams: Option<seq<TeamBox>>)

  datatype Address = Address(city: Option<string>, state: Option<string>)

  datatype Venue = Venue(fullName: Option<string>, name: Option<string>, address: Option<Address>)

  datatype Weather = Weather(temperature: Option<int>, displayValue: Option<string>, description: Option<string>)

  datatype Official = Official(displayName: Option<string>, position: Option<string>, positionName: Option<string>)

  datatype GameInfo = GameInfo(
    venue: Option<Venue>,
    attendance: Option<int>,
    weather: Option<Weather>,
    officials: Option<seq<Official>>)

  datatype Drive = Drive(isRedZone: Option<bool>, team: Option<TeamRef>)

  datatype Drives = Drives(current: Option<Drive>)

  datatype Athlete = Athlete(displayName: Option<string>, shortName: Option<string>, jersey: Option<string>)

  datatype Participant = Participant(athlete: Option<Athlete>)

  datatype Play = Play(
    period: Option<int>,
    clock: Option<string>,
    team: Option<TeamRef>,
    text: Option<string>,
    description: Option<string>,
    participants: Option<seq<Participant>>)

  datatype SummaryDoc = SummaryDoc(
    header: Option<Header>,
    boxscore: Option<Boxscore>,
    gameInfo: Option<GameInfo>,
    drives: Option<Drives>,
    scoringPlays: Option<seq<Play>>)

  /** `{}`: what an absent summary reads as. */
  const EmptySummary := SummaryDoc(None, None, None, None, None)
}
