/** Quarter labels and the structured scoring-play list of the summary. */
module ScoringPlays {
  import opened Js
  import opened JsArray
  import opened Documents

  /** A period of regulation play. */
  predicate IsRegulation(p: Option<int>) {
    p.Some? && 1 <= p.value <= 4
  }

  function QuarterOrdinal(q: int): string
    requires 1 <= q <= 4
  {
    ["1ST", "2ND", "3RD", "4TH"][q - 1]
  }

  /** `periodToLabel`: a regulation period is named by its ordinal, every
      other value, a missing one included, is overtime. */
  function PeriodToLabel(p: Option<int>): (r: string)
    ensures r == "OT" <==> !IsRegulation(p)
    ensures IsRegulation(p) ==> r == QuarterOrdinal(p.value) + " QUARTER"
  {
    if p == Some(1) then "1ST QUARTER"
    else if p == Some(2) then "2ND QUARTER"
    else if p == Some(3) then "3RD QUARTER"
    else if p == Some(4) then "4TH QUARTER"
    else "OT"
  }

  /** Distinct regulation periods get distinct labels. */
  lemma QuarterLabelsDistinct(p: int, q: int)
    requires 1 <= p <= 4 && 1 <= q <= 4 && p != q
    ensures PeriodToLabel(Some(p)) != PeriodToLabel(Some(q))
  {
  }

  /** One participant's text: the athlete's name (display name, else short
      name, printed as `undefined` when neither is usable) with ` #jersey`
      when the jersey is truthy. */
  function PlayerLabel(a: Athlete): (r: string)
    ensures Truthy(a.jersey) ==> r == Text(Or(a.displayName, a.shortName)) + " #" + a.jersey.value
    ensures !Truthy(a.jersey) ==> r == Text(Or(a.displayName, a.shortName))
  {
    Text(Or(a.displayName, a.shortName)) + (if Truthy(a.jersey) then " #" + a.jersey.value else "")
  }

  /** The player texts of a participant list, in order; a participant
      without an athlete contributes nothing. */
  function PlayerNames(parts: seq<Participant>): (r: seq<string>)
    ensures |r| <= |parts|
    ensures (forall i :: 0 <= i < |parts| ==> parts[i].athlete.None?) ==> r == []
  {
    if |parts| == 0 then []
    else
      var last := parts[|parts| - 1];
      PlayerNames(parts[..|parts| - 1]) + (if last.athlete.Some? then [PlayerLabel(last.athlete.value)] else [])
  }

  /** Collecting player texts distributes over concatenation. */
  lemma {:induction false} PlayerNamesAppend(a: seq<Participant>, b: seq<Participant>)
    ensures PlayerNames(a + b) == PlayerNames(a) + PlayerNames(b)
  {
    if |b| > 0 {
      var b' := b[..|b| - 1];
      assert (a + b)[..|a + b| - 1] == a + b';
      assert (a + b)[|a + b| - 1] == b[|b| - 1];
      PlayerNamesAppend(a, b');
    } else {
      assert a + b == a;
    }
  }

  /** A participant without an athlete is skipped: removing it changes nothing. */
  lemma AthletelessParticipantSkipped(a: seq<Participant>, b: seq<Participant>)
    ensures PlayerNames(a + [Participant(None)] + b) == PlayerNames(a + b)
  {
    PlayerNamesAppend(a + [Participant(None)], b);
    PlayerNamesAppend(a, [Participant(None)]);
    PlayerNamesAppend(a, b);
    assert [Participant(None)][..0] == [];
  }

  /** When every participant has an athlete there is one text per
      participant, in participant order. */
  lemma {:induction false} PlayerNamesOnePerAthlete(parts: seq<Participant>)
    requires forall i :: 0 <= i < |parts| ==> parts[i].athlete.Some?
    ensures |PlayerNames(parts)| == |parts|
    ensures forall i :: 0 <= i < |parts| ==> PlayerNames(parts)[i] == PlayerLabel(parts[i].athlete.value)
  {
    if |parts| > 0 {
      PlayerNamesOnePerAthlete(parts[..|parts| - 1]);
    }
  }

  /** A join ends with its last part. */
  lemma {:induction false} JoinEndsWithLast(parts: seq<string>, sep: string)
    requires |parts| > 0
    ensures |parts[|parts| - 1]| <= |Join(parts, sep)|
    ensures Join(parts, sep)[|Join(parts, sep)| - |parts[|parts| - 1]|..] == parts[|parts| - 1]
  {
    if |parts| > 1 {
      JoinEndsWithLast(parts[1..], sep);
    }
  }

  /** The player text: nothing, the one player, "p1 to p2", or the
      comma-separated list for more than two. It starts with the first
      player's text and ends with the last one's. */
  function PlayerText(players: seq<string>): (r: string)
    ensures |players| > 0 ==> players[0] <= r
    ensures |players| > 0 ==> |players[|players| - 1]| <= |r| && r[|r| - |players[|players| - 1]|..] == players[|players| - 1]
  {
    if |players| == 1 then players[0]
    else if |players| == 2 then players[0] + " to " + players[1]
    else if |players| > 2 then
      JoinEndsWithLast(players, ", ");
      Join(players, ", ")
    else ""
  }

  /** The player text is empty exactly when there is no player, or a single
      one whose own text is empty. */
  lemma PlayerTextEmpty(players: seq<string>)
    ensures PlayerText(players) == "" <==> |players| == 0 || (|players| == 1 && players[0] == "")
  {
  }

  /** The description: "team: base", followed by " (players)" when the
      player text is not empty. */
  function Description(team: string, base: string, playerText: string): (r: string)
    ensures team + ": " + base <= r
    ensures r == team + ": " + base <==> playerText == ""
    ensures playerText != "" ==> r[|team + ": " + base|..] == " (" + playerText + ")"
  {
    if playerText != "" then team + ": " + base + " (" + playerText + ")" else team + ": " + base
  }

  function PlayBase(p: Play): string {
    OrDefault(Or(p.text, p.description), "")
  }

  function Players(p: Play): seq<string> {
    if p.participants.Some? then PlayerNames(p.participants.value) else []
  }

  type PlayRow = (string, string, string)

  /** The `[quarter, clock, desc]` tuple of one scoring play: the quarter is
      `OT` exactly outside regulation, the clock is empty exactly when the
      play has no usable clock, and the description starts with "team: base"
      (`RowHasPlayersIff` says when it is exactly that). */
  function Row(p: Play): (r: PlayRow)
    ensures r.0 == "OT" <==> !IsRegulation(p.period)
    ensures r.1 == "" <==> !Truthy(p.clock)
    ensures TeamName(p.team) + ": " + PlayBase(p) <= r.2
  {
    (PeriodToLabel(p.period), OrDefault(p.clock, ""), Description(TeamName(p.team), PlayBase(p), PlayerText(Players(p))))
  }

  /** A play's description carries a parenthetical exactly when some
      participant with an athlete gives a non-empty text. */
  lemma RowHasPlayersIff(p: Play)
    ensures Row(p).2 != TeamName(p.team) + ": " + PlayBase(p) <==>
      |Players(p)| > 1 || (|Players(p)| == 1 && Players(p)[0] != "")
  {
    PlayerTextEmpty(Players(p));
  }

  /** The single-participant case: "team: base (name #jersey)". */
  lemma OneScorerRow(p: Play, a: Athlete)
    requires p.participants == Some([Participant(Some(a))])
    requires Truthy(a.displayName) && Truthy(a.jersey)
    ensures Row(p).2 == TeamName(p.team) + ": " + PlayBase(p) + " (" + a.displayName.value + " #" + a.jersey.value + ")"
  {
    assert [Participant(Some(a))][..0] == [];
    var player := a.displayName.value + " #" + a.jersey.value;
    assert PlayerLabel(a) == player;
    assert PlayerNames([Participant(Some(a))]) == PlayerNames([]) + [player];
    assert Players(p) == [player];
    assert PlayerText(Players(p)) == player;
  }

  /** The participant loop of `getScoringPlaysStructured`: the text of
      every participant that has an athlete, in order. */
  method CollectPlayers(parts: seq<Participant>) returns (players: seq<string>)
    ensures players == PlayerNames(parts)
  {
    players := [];
    for m := 0 to |parts|
      invariant players == PlayerNames(parts[..m])
    {
      assert parts[..m + 1][..m] == parts[..m];
      var a := parts[m].athlete;
      if a.None? {
        continue;
      }
      var name := Text(Or(a.value.displayName, a.value.shortName));
      var jersey := if Truthy(a.value.jersey) then " #" + a.value.jersey.value else "";
      players := players + [name + jersey];
    }
    assert parts[..|parts|] == parts;
  }

  /** The body of the play loop of `getScoringPlaysStructured`: the
      `[quarter, clock, desc]` tuple of one play, built as the source builds
      it, with `playerText` reassigned by the number of players. */
  method BuildRow(p: Play) returns (row: PlayRow)
    ensures row == Row(p)
  {
    var quarter := PeriodToLabel(p.period);
    var clock := OrDefault(p.clock, "");
    var team := OrDefault(if p.team.Some? then p.team.value.shortDisplayName else None, "Team");
    var base := OrDefault(Or(p.text, p.description), "");

    var players: seq<string> := [];
    if p.participants.Some? {
      players := CollectPlayers(p.participants.value);
    }

    var playerText := "";
    if |players| == 1 {
      playerText := players[0];
    } else if |players| == 2 {
      playerText := players[0] + " to " + players[1];
    } else if |players| > 2 {
      playerText := Join(players, ", ");
    }

    var desc := if playerText != "" then team + ": " + base + " (" + playerText + ")" else team + ": " + base;
    row := (quarter, clock, desc);
  }

  /** The play loop of `getScoringPlaysStructured`: the tuples of all plays,
      in order, each built by `BuildRow`. */
  method BuildRows(plays: seq<Play>) returns (out: seq<PlayRow>)
    ensures out == Map(Row, plays)
  {
    out := [];
    for k := 0 to |plays|
      invariant out == MapPrefix(Row, plays, k)
    {
      var row := BuildRow(plays[k]);
      out := out + [row];
    }
    MapPrefixIsMap(Row, plays, |plays|);
    assert plays[..|plays|] == plays;
  }

  /** `getScoringPlaysStructured`: one `[quarter, clock, desc]` tuple per
      scoring play, in order; no tuples when `scoringPlays` is not an array. */
  method ScoringPlaysStructured(doc: SummaryDoc) returns (out: seq<PlayRow>)
    ensures doc.scoringPlays.None? ==> out == []
    ensures doc.scoringPlays.Some? ==> |out| == |doc.scoringPlays.value|
    ensures doc.scoringPlays.Some? ==> forall i :: 0 <= i < |out| ==> out[i] == Row(doc.scoringPlays.value[i])
  {
    if doc.scoringPlays.None? {
      return [];
    }
    out := BuildRows(doc.scoringPlays.value);
  }
}
