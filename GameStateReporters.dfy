/** The game-state reporters of the first extension: quarter, clock and
    status, read from the first competition of the summary header. */
module GameStateReporters {
  import opened Js
  import opened Documents
  import opened ScoringPlays

  /** `summary.header.competitions[0].status`, when every link is there;
      `None` is the case where the source's `try` block throws. */
  function HeaderStatus(doc: SummaryDoc): Option<Status> {
    var header :- doc.header;
    var competitions :- header.competitions;
    if |competitions| == 0 then None else competitions[0].status
  }

  /** `getGameQuarter`: `''` exactly when the status cannot be reached;
      otherwise the same label the scoring plays use for the period, so a
      readable status without a period reads as overtime. */
  function GameQuarter(doc: SummaryDoc): (r: string)
    ensures r == "" <==> HeaderStatus(doc).None?
    ensures HeaderStatus(doc).Some? ==> r == PeriodToLabel(HeaderStatus(doc).value.period)
  {
    match HeaderStatus(doc)
    case None => ""
    case Some(status) =>
      if status.period == Some(1) then "1ST QUARTER"
      else if status.period == Some(2) then "2ND QUARTER"
      else if status.period == Some(3) then "3RD QUARTER"
      else if status.period == Some(4) then "4TH QUARTER"
      else "OT"
  }

  /** `getGameClock`: the display clock when the status is readable and the
      clock is non-empty, `''` in every other case. */
  function GameClock(doc: SummaryDoc): (r: string)
    ensures r != "" <==> HeaderStatus(doc).Some? && Truthy(HeaderStatus(doc).value.displayClock)
    ensures r != "" ==> r == HeaderStatus(doc).value.displayClock.value
  {
    match HeaderStatus(doc)
    case None => ""
    case Some(status) => OrDefault(status.displayClock, "")
  }

  /** `getGameStatus`: `status.type.state` when every link is there and the
      state is non-empty, `''` in every other case. */
  function GameStatus(doc: SummaryDoc): (r: string)
    ensures r != "" <==>
      HeaderStatus(doc).Some? && HeaderStatus(doc).value.statusType.Some? &&
      Truthy(HeaderStatus(doc).value.statusType.value.state)
    ensures r != "" ==> r == HeaderStatus(doc).value.statusType.value.state.value
  {
    match HeaderStatus(doc)
    case None => ""
    case Some(status) =>
      match status.statusType
      case None => ""
      case Some(statusType) => OrDefault(statusType.state, "")
  }
}
