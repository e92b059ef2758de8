/** The seven team-stat reporters: one "team: value" line per team of the
    box score. */
module TeamStats {
  import opened Js
  import opened JsArray
  import opened Documents

  /** The seven statistics a reporter exists for. */
  datatype TeamStat = TotalYards | PassingYards | RushingYards | FirstDowns
                    | ThirdDownEfficiency | Turnovers | TimeOfPossession

  /** The stat `name` each reporter looks for. */
  function StatName(s: TeamStat): string {
    match s
    case TotalYards => "totalYards"
    case PassingYards => "netPassingYards"
    case RushingYards => "rushingYards"
    case FirstDowns => "firstDowns"
    case ThirdDownEfficiency => "thirdDownEff"
    case Turnovers => "turnovers"
    case TimeOfPossession => "possessionTime"
  }

  /** The stat `abbreviation` each reporter accepts instead. */
  function StatAbbreviation(s: TeamStat): string {
    match s
    case TotalYards => "TY"
    case PassingYards => "PY"
    case RushingYards => "RY"
    case FirstDowns => "FD"
    case ThirdDownEfficiency => "3D"
    case Turnovers => "TO"
    case TimeOfPossession => "TOP"
  }

  /** No two reporters look for the same name or the same abbreviation. */
  lemma StatKeysDistinct(s: TeamStat, t: TeamStat)
    requires s != t
    ensures StatName(s) != StatName(t)
    ensures StatAbbreviation(s) != StatAbbreviation(t)
  {
  }

  /** The matching rule of the reporter for `s`: the name OR the abbreviation. */
  predicate Matches(entry: Stat, s: TeamStat) {
    entry.name == Some(StatName(s)) || entry.abbreviation == Some(StatAbbreviation(s))
  }

  /** The value shown for `s`: the `displayValue` of the first entry that
      matches by name or by abbreviation, kept even when it is empty;
      `?` when no entry matches or that entry has no `displayValue`. */
  function StatValue(stats: seq<Stat>, s: TeamStat): (r: string)
    ensures (forall i :: 0 <= i < |stats| ==> !Matches(stats[i], s)) ==> r == "?"
    ensures forall i :: 0 <= i < |stats| && Matches(stats[i], s) && (forall j :: 0 <= j < i ==> !Matches(stats[j], s)) ==>
      (stats[i].displayValue.Some? ==> r == stats[i].displayValue.value) &&
      (stats[i].displayValue.None? ==> r == "?")
  {
    match Find(stats, (entry: Stat) => Matches(entry, s))
    case None => "?"
    case Some(entry) => entry.displayValue.GetOr("?")
  }

  /** One team's line: "name: value". */
  function StatLine(t: TeamBox, s: TeamStat): (r: string)
    ensures TeamName(t.team) + ": " <= r
    ensures r[|TeamName(t.team)| + 2..] == StatValue(t.statistics.GetOr([]), s)
  {
    TeamName(t.team) + ": " + StatValue(t.statistics.GetOr([]), s)
  }

  /** `summary.boxscore.teams`, when it is there and an array. */
  function Teams(doc: SummaryDoc): Option<seq<TeamBox>> {
    var boxscore :- doc.boxscore;
    boxscore.teams
  }

  /** `getTeamStatList`, which each of the seven reporters calls with its
      own matching rule: one line per team, in order; no lines when `teams`
      is not an array. */
  function TeamStatList(doc: SummaryDoc, s: TeamStat): (r: seq<string>)
    ensures Teams(doc).None? ==> r == []
    ensures Teams(doc).Some? ==> |r| == |Teams(doc).value|
    ensures Teams(doc).Some? ==> forall i :: 0 <= i < |r| ==> r[i] == StatLine(Teams(doc).value[i], s)
  {
    match Teams(doc)
    case None => []
    case Some(teams) => Map((t: TeamBox) => StatLine(t, s), teams)
  }

  /** A stat found by its name alone is shown with its value. */
  lemma PassingYardsByName(team: TeamRef)
    requires Truthy(team.shortDisplayName)
    ensures StatLine(TeamBox(Some(team), Some([Stat(Some("netPassingYards"), None, Some("245"))])), PassingYards)
      == team.shortDisplayName.value + ": 245"
  {
  }

  /** A team without statistics shows the placeholder. */
  lemma NoStatisticsShowsPlaceholder(t: TeamBox, s: TeamStat)
    requires t.statistics == Some([])
    ensures StatLine(t, s) == TeamName(t.team) + ": ?"
  {
  }
}
