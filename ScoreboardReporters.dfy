/** The scoreboard reporters: each gives one entry per event of the
    scoreboard, in document order, and a failure to read one event yields
    that event's default without touching its neighbours. */
module ScoreboardReporters {
  import opened Js
  import opened JsArray
  import opened Documents

  const UnknownMatchup := "Unknown matchup"

  /** `safeScoreboardEvents`: the events array, or no events when it is
      missing or not an array. */
  function Events(doc: ScoreboardDoc): (r: seq<Event>)
    ensures doc.events.Some? ==> r == doc.events.value
    ensures doc.events.None? ==> r == []
  {
    doc.events.GetOr([])
  }

  /** `e.competitions[0].competitors`, when every link is there. */
  function Competitors(e: Event): Option<seq<Competitor>> {
    var competitions :- e.competitions;
    if |competitions| == 0 then None else competitions[0].competitors
  }

  predicate IsHome(c: Competitor) {
    c.homeAway == Some("home")
  }

  predicate IsAway(c: Competitor) {
    c.homeAway == Some("away")
  }

  /** The (away, home) pair that the two `comps.find` calls pick: the first
      competitor of each side. `None` when the competitors cannot be reached
      or one side has no competitor. */
  function Sides(e: Event): (r: Option<(Competitor, Competitor)>)
    ensures Competitors(e).None? ==> r.None?
    ensures Competitors(e).Some? ==>
      var comps := Competitors(e).value;
      (r.None? <==> (forall i :: 0 <= i < |comps| ==> !IsAway(comps[i])) || (forall i :: 0 <= i < |comps| ==> !IsHome(comps[i])))
    ensures Competitors(e).Some? ==>
      var comps := Competitors(e).value;
      forall i, j :: IsFirstMatch(comps, IsAway, i) && IsFirstMatch(comps, IsHome, j) ==> r == Some((comps[i], comps[j]))
  {
    var comps :- Competitors(e);
    var home :- Find(comps, IsHome);
    var away :- Find(comps, IsAway);
    Some((away, home))
  }

  /** No "away @ home" text is the `Unknown matchup` placeholder. */
  lemma MatchupTextIsNotPlaceholder(away: string, home: string)
    ensures away + " @ " + home != UnknownMatchup
  {
    var s := away + " @ " + home;
    assert s[|away| + 1] == '@';
    assert forall k :: 0 <= k < |UnknownMatchup| ==> UnknownMatchup[k] != '@';
  }

  /** The matchup of one event: "away @ home" from the two teams' short
      names (a missing short name prints as `undefined`), and the
      placeholder exactly when the chain to either team object breaks. */
  function Matchup(e: Event): (r: string)
    ensures r == UnknownMatchup <==> Sides(e).None? || Sides(e).value.0.team.None? || Sides(e).value.1.team.None?
    ensures r != UnknownMatchup ==>
      r == Text(Sides(e).value.0.team.value.shortDisplayName) + " @ " + Text(Sides(e).value.1.team.value.shortDisplayName)
  {
    match Sides(e)
    case None => UnknownMatchup
    case Some((away, home)) =>
      if away.team.None? || home.team.None? then UnknownMatchup
      else
        var text := Text(away.team.value.shortDisplayName) + " @ " + Text(home.team.value.shortDisplayName);
        MatchupTextIsNotPlaceholder(Text(away.team.value.shortDisplayName), Text(home.team.value.shortDisplayName));
        text
  }

  /** The score line of one event: "awayScore - homeScore", and `''`
      exactly when the two sides cannot be resolved. */
  function Score(e: Event): (r: string)
    ensures r == "" <==> Sides(e).None?
    ensures Sides(e).Some? ==> r == Text(Sides(e).value.0.score) + " - " + Text(Sides(e).value.1.score)
  {
    match Sides(e)
    case None => ""
    case Some((away, home)) => Text(away.score) + " - " + Text(home.score)
  }

  /** The state of one event: `status.type.state` as it is, `''` when
      `status` or `status.type` is missing. `None` is a present `type`
      without a `state`: the source then returns `undefined`. */
  function State(e: Event): (r: Option<string>)
    ensures e.status.None? || e.status.value.statusType.None? ==> r == Some("")
    ensures r.None? <==>
      e.status.Some? && e.status.value.statusType.Some? && e.status.value.statusType.value.state.None?
    ensures r.Some? && r.value != "" ==> r == e.status.value.statusType.value.state
  {
    if e.status.None? || e.status.value.statusType.None? then Some("")
    else e.status.value.statusType.value.state
  }

  /** `getMatchups`. */
  function Matchups(doc: ScoreboardDoc): (r: seq<string>)
    ensures |r| == |Events(doc)|
    ensures forall i :: 0 <= i < |r| ==> r[i] == Matchup(Events(doc)[i])
  {
    Map(Matchup, Events(doc))
  }

  /** `getScores`. */
  function Scores(doc: ScoreboardDoc): (r: seq<string>)
    ensures |r| == |Events(doc)|
    ensures forall i :: 0 <= i < |r| ==> r[i] == Score(Events(doc)[i])
  {
    Map(Score, Events(doc))
  }

  /** `getStates`. */
  function States(doc: ScoreboardDoc): (r: seq<Option<string>>)
    ensures |r| == |Events(doc)|
    ensures forall i :: 0 <= i < |r| ==>
      var e := Events(doc)[i];
      if e.status.None? || e.status.value.statusType.None? then r[i] == Some("")
      else r[i] == e.status.value.statusType.value.state
  {
    Map(State, Events(doc))
  }

  /** `getKickoffTimes`: each event's `date`, `''` when it is missing or empty. */
  function KickoffTimes(doc: ScoreboardDoc): (r: seq<string>)
    ensures |r| == |Events(doc)|
    ensures forall i :: 0 <= i < |r| ==>
      (Truthy(Events(doc)[i].date) ==> r[i] == Events(doc)[i].date.value) &&
      (!Truthy(Events(doc)[i].date) ==> r[i] == "")
  {
    Map((e: Event) => OrDefault(e.date, ""), Events(doc))
  }

  /** `getEventIDs`: each event's `id`, `''` when it is missing or empty. */
  function EventIds(doc: ScoreboardDoc): (r: seq<string>)
    ensures |r| == |Events(doc)|
    ensures forall i :: 0 <= i < |r| ==>
      (Truthy(Events(doc)[i].id) ==> r[i] == Events(doc)[i].id.value) &&
      (!Truthy(Events(doc)[i].id) ==> r[i] == "")
  {
    Map((e: Event) => OrDefault(e.id, ""), Events(doc))
  }
}
