/** The red-zone reporter: a two-tier fallback from the current drive to the
    competitors of the summary header. */
module RedZone {
  import opened Js
  import opened JsArray
  import opened Documents

  /** `summary.drives.current`, when it is there. */
  function CurrentDrive(doc: SummaryDoc): Option<Drive> {
    var drives :- doc.drives;
    drives.current
  }

  /** The first tier: a current drive flagged as in the red zone that names
      a team. */
  predicate DriveInRedZone(doc: SummaryDoc) {
    CurrentDrive(doc).Some? && CurrentDrive(doc).value.isRedZone == Some(true) && CurrentDrive(doc).value.team.Some?
  }

  /** `summary.header.competitions[0].competitors`, or no competitors when
      that is missing or not an array. */
  function HeaderCompetitors(doc: SummaryDoc): seq<HeaderCompetitor> {
    var comps := (
      var header :- doc.header;
      var competitions :- header.competitions;
      if |competitions| == 0 then None else competitions[0].competitors);
    comps.GetOr([])
  }

  predicate Flagged(c: HeaderCompetitor) {
    c.isRedZone == Some(true)
  }

  /** "team in red zone"; a missing short name prints as `undefined`. */
  function InRedZone(team: TeamRef): (r: string)
    ensures r != ""
  {
    Text(team.shortDisplayName) + " in red zone"
  }

  /** `getRedZoneStatus`: a flagged current drive with a team wins whatever
      the competitors say; otherwise the first flagged competitor is
      reported; `''` exactly when neither tier finds anything. */
  function RedZoneStatus(doc: SummaryDoc): (r: string)
    ensures DriveInRedZone(doc) ==> r == InRedZone(CurrentDrive(doc).value.team.value)
    ensures !DriveInRedZone(doc) ==>
      forall i :: IsFirstMatch(HeaderCompetitors(doc), Flagged, i) ==> r == InRedZone(HeaderCompetitors(doc)[i].team)
    ensures r == "" <==>
      !DriveInRedZone(doc) && forall i :: 0 <= i < |HeaderCompetitors(doc)| ==> !Flagged(HeaderCompetitors(doc)[i])
  {
    if DriveInRedZone(doc) then InRedZone(CurrentDrive(doc).value.team.value)
    else
      match Find(HeaderCompetitors(doc), Flagged)
      case Some(red) => InRedZone(red.team)
      case None => ""
  }
}
