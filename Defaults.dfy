/** What the reporters give while a slot of the shared object is empty,
    before any fetch or after a failed one: every reporter falls back to
    its documented default, so no stale data survives a failed refetch. */
module Defaults {
  import opened Documents
  import opened Store
  import opened ScoreboardReporters
  import opened GameStateReporters
  import opened TeamStats
  import opened GameInfoReporters
  import opened RedZone

  /** An empty scoreboard slot gives an empty list from every scoreboard reporter. */
  lemma EmptyScoreboardSlotDefaults(shared: NflShared)
    requires shared.scoreboard.None?
    ensures Matchups(shared.CurrentScoreboard()) == []
    ensures Scores(shared.CurrentScoreboard()) == []
    ensures States(shared.CurrentScoreboard()) == []
    ensures KickoffTimes(shared.CurrentScoreboard()) == []
    ensures EventIds(shared.CurrentScoreboard()) == []
  {
  }

  /** An empty summary slot, or no shared object at all, gives `''` or an
      empty list from every summary reporter, and no scoring plays. */
  lemma EmptySummarySlotDefaults(shared: NflShared?)
    requires shared == null || shared.summary.None?
    ensures GameQuarter(SharedSummary(shared)) == ""
    ensures GameClock(SharedSummary(shared)) == ""
    ensures GameStatus(SharedSummary(shared)) == ""
    ensures forall s :: TeamStatList(SharedSummary(shared), s) == []
    ensures VenueText(SharedSummary(shared)) == ""
    ensures AttendanceText(SharedSummary(shared)) == ""
    ensures WeatherText(SharedSummary(shared)) == ""
    ensures OfficialsList(SharedSummary(shared)) == []
    ensures RedZoneStatus(SharedSummary(shared)) == ""
    ensures SharedSummary(shared).scoringPlays.None?
  {
  }
}
