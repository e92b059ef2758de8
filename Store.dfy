/** The object the two extensions share: one slot per fetched document. */
module Store {
  import opened Js
  import opened Documents

  /** `nflShared`. A slot holds the last parsed document, or `None` both
      before the first fetch and after a failed one; the two cases are not
      told apart. */
  class NflShared {
    var scoreboard: Option<ScoreboardDoc>
    var summary: Option<SummaryDoc>

    /** Both slots start empty. */
    constructor ()
      ensures scoreboard == None && summary == None
    {
      scoreboard := None;
      summary := None;
    }

    /** The completion of `fetchScoreboard`: `response` is the parsed
        document, or `None` when the request or the parse failed. The slot is
        overwritten, never merged; the summary slot is untouched. */
    method FetchScoreboard(response: Option<ScoreboardDoc>)
      modifies this
      ensures scoreboard == response
      ensures summary == old(summary)
      ensures response.None? ==> CurrentScoreboard() == EmptyScoreboard
    {
      scoreboard := response;
    }

    /** The completion of `fetchSummary`, as `FetchScoreboard` for the other slot. */
    method FetchSummary(response: Option<SummaryDoc>)
      modifies this
      ensures summary == response
      ensures scoreboard == old(scoreboard)
      ensures response.None? ==> CurrentSummary() == EmptySummary
    {
      summary := response;
    }

    /** The `scoreboard` getter: an empty slot reads as `{}`. */
    function CurrentScoreboard(): (d: ScoreboardDoc)
      reads this
      ensures scoreboard.Some? ==> d == scoreboard.value
      ensures scoreboard.None? ==> d == EmptyScoreboard
    {
      scoreboard.GetOr(EmptyScoreboard)
    }

    /** The `summary` getter: an empty slot reads as `{}`. */
    function CurrentSummary(): (d: SummaryDoc)
      reads this
      ensures summary.Some? ==> d == summary.value
      ensures summary.None? ==> d == EmptySummary
    {
      summary.GetOr(EmptySummary)
    }
  }

  /** The start-up guard: the shared object is created, with both slots
      empty, only when none exists yet; an existing one is kept as it is. */
  method Attach(existing: NflShared?) returns (shared: NflShared)
    ensures existing != null ==> shared == existing
    ensures existing == null ==> fresh(shared) && shared.scoreboard == None && shared.summary == None
  {
    if existing != null {
      shared := existing;
    } else {
      shared := new NflShared();
    }
  }

  /** The second extension's `summary` getter, which also tolerates a
      shared object that was never created. */
  function SharedSummary(shared: NflShared?): (d: SummaryDoc)
    reads shared
    ensures shared == null ==> d == EmptySummary
    ensures shared != null && shared.summary.Some? ==> d == shared.summary.value
    ensures shared != null && shared.summary.None? ==> d == EmptySummary
  {
    if shared == null then EmptySummary else shared.CurrentSummary()
  }
}
