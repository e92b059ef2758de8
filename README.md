# NFL scoreboard and game-summary reporters, modelled in Dafny

Two TurboWarp extensions share a cache of two ESPN JSON documents: the
league scoreboard for a date and the summary of one game. The first
extension fetches both documents into a shared object with two slots
(`SCOREBOARD`, `SUMMARY`) and reports per-event matchups, scores, states,
kickoff times and ids, plus the quarter, clock and status of the summarised
game. The second extension reads the summary slot and reports seven team
statistics, the venue, attendance, weather, officials, the red-zone status
and a structured list of scoring plays.

Every reporter is a defensive read over a nested structure in which any
field may be missing, and returns a fixed default (`''`, `[]`, `'?'`,
`'Team'`, `'Official'`, `'Unknown matchup'`, `'OT'`) instead of failing.
This project models that layer:

- `Js`, `JsArray`, `JsNumber`: the JavaScript conventions the code relies
  on. `Option` stands for a field that may be missing; `:-` chains play the
  role of the `try`/`catch` and `?.` navigation. `Truthy`, `Or` and
  `OrDefault` model `||` on strings, so an empty string falls through. `GetOr`
  models `??`, which keeps an empty string. `Text` models `${v}`, which prints
  a missing leaf as `undefined`. The module also has `find`, `map` and `join`,
  and decimal printing of whole numbers.
- `Documents`: the two documents as datatypes whose fields are all optional.
  Only the fields some reporter reads are kept.
- `Store`: the shared object as a class with two `Option` slots. The
  completions of the two fetches overwrite their slot. The getters read an
  empty slot as `{}`.
- `ScoreboardReporters`, `GameStateReporters`: the first extension's reporters.
- `TeamStats`, `GameInfoReporters`, `RedZone`, `ScoringPlays`: the second
  extension's reporters. `getScoringPlaysStructured` is an imperative loop
  and is modelled as methods with loops, proved against the function `Row`.
- `Defaults`: with an empty slot, every reporter gives its default.

Three behaviours of the code worth noting:

- `getStates` returns `status.type.state` as it is. A present `type` without
  a `state` therefore yields `undefined`, not `''`. `States` returns
  `Option<string>` entries for this reason.
- The team-stat value is `'?'` both when no entry matches and when the
  matching entry has no `displayValue`. An empty `displayValue` is shown as
  it is.
- `getGameQuarter` returns `'OT'`, not `''`, when the status is readable but
  has no period.

## Model

| member | source | states |
|---|---|---|
| `JsArray.Find` | nfl-extension-2.js:47 | `find` gives the element at the first index that satisfies the predicate, and nothing exactly when no element does |
| `JsArray.Map` | nfl-extension-1.js:135 | `map` gives one result per element, in the same order, each computed from its own element only |
| `JsArray.JoinPresentPair` | nfl-extension-2.js:83 | joining the present parts of a pair puts the separator in only when both parts are non-empty; otherwise the result is whichever part is present |
| `JsNumber.IntToString` | nfl-extension-2.js:88 | a whole number prints as non-empty text that reads back as the same number, so distinct numbers print differently; the text is canonical decimal: digits with no leading zero (only `0` itself starts with `0`), and for a negative number a `-` followed by such digits with a non-zero first one |
| `Store.NflShared.constructor` | nfl-extension-1.js:5-10 | a new shared object starts with both slots empty |
| `Store.Attach` | nfl-extension-1.js:5-10 | an existing shared object is kept as it is; a fresh one with two empty slots is created only when none exists |
| `Store.NflShared.FetchScoreboard` | nfl-extension-1.js:91-102 | the scoreboard slot becomes the parsed document on success and empty on failure, with no merge; the summary slot is unchanged; after a failure the scoreboard reads as `{}` |
| `Store.NflShared.FetchSummary` | nfl-extension-1.js:104-115 | the summary slot becomes the parsed document or empty, with no merge; the scoreboard slot is unchanged; after a failure the summary reads as `{}` |
| `Store.NflShared.CurrentScoreboard` | nfl-extension-1.js:119-121 | the scoreboard getter returns the stored document, or `{}` for an empty slot |
| `Store.NflShared.CurrentSummary` | nfl-extension-1.js:123-125 | the summary getter returns the stored document, or `{}` for an empty slot |
| `Store.SharedSummary` | nfl-extension-2.js:35-37 | the second extension's getter reads `{}` when the shared object is missing or its summary slot is empty |
| `ScoreboardReporters.Events` | nfl-extension-1.js:127-130 | the events are the `events` array when there is one, and none otherwise |
| `ScoreboardReporters.Sides` | nfl-extension-1.js:137-139 | the pair is the first away and the first home competitor of the first competition; it is missing exactly when the competitors cannot be reached or one side has no competitor |
| `ScoreboardReporters.Matchup` | nfl-extension-1.js:136-143 | an event's matchup is the placeholder `Unknown matchup` exactly when the chain to either team object breaks; otherwise it is "away @ home", with a missing short name printed as `undefined` |
| `ScoreboardReporters.Score` | nfl-extension-1.js:149-156 | an event's score is `''` exactly when the two sides cannot be resolved; otherwise it is "awayScore - homeScore" |
| `ScoreboardReporters.State` | nfl-extension-1.js:161-167 | one event's state is `''` when `status` or `status.type` is missing, `undefined` (`None`) exactly when `type` is present without a `state`, and otherwise the `state` leaf |
| `ScoreboardReporters.Matchups` | nfl-extension-1.js:134-145 | one matchup per event, in document order; each entry depends on its own event only |
| `ScoreboardReporters.Scores` | nfl-extension-1.js:147-158 | one score per event, in document order; each entry depends on its own event only |
| `ScoreboardReporters.States` | nfl-extension-1.js:160-168 | one entry per event: `status.type.state` as it is, and `''` when `status` or `status.type` is missing |
| `ScoreboardReporters.KickoffTimes` | nfl-extension-1.js:170-172 | one entry per event: its non-empty `date`, else `''` |
| `ScoreboardReporters.EventIds` | nfl-extension-1.js:174-176 | one entry per event: its non-empty `id`, else `''` |
| `GameStateReporters.GameQuarter` | nfl-extension-1.js:180-192 | `''` exactly when the header status cannot be reached; otherwise the same label as `periodToLabel`, so a status without a period reads `OT` |
| `GameStateReporters.GameClock` | nfl-extension-1.js:194-201 | non-empty exactly when the status is readable and has a non-empty display clock, and then it is that clock |
| `GameStateReporters.GameStatus` | nfl-extension-1.js:203-210 | non-empty exactly when `status.type.state` is reachable and non-empty, and then it is that state |
| `ScoringPlays.PeriodToLabel` | nfl-extension-2.js:126-132 | `OT` exactly for a value outside 1..4, a missing one included; a regulation period gets its ordinal followed by ` QUARTER` |
| `ScoringPlays.QuarterLabelsDistinct` | nfl-extension-2.js:126-132 | the four regulation periods get four distinct labels |
| `ScoringPlays.PlayerLabel` | nfl-extension-2.js:152-154 | a player's text is the display name, else the short name, followed by ` #jersey` exactly when the jersey is truthy |
| `ScoringPlays.PlayerNames` | nfl-extension-2.js:147-156 | the collected player texts are never more than the participants, and none at all when no participant has an athlete |
| `ScoringPlays.PlayerText` | nfl-extension-2.js:158-161 | the player text starts with the first player's text and ends with the last player's text |
| `ScoringPlays.PlayerNamesAppend` | nfl-extension-2.js:147-156 | collecting player texts from two participant lists one after the other gives the two collections concatenated |
| `ScoringPlays.AthletelessParticipantSkipped` | nfl-extension-2.js:150-151 | a participant without an athlete contributes nothing: removing it leaves the player texts unchanged |
| `ScoringPlays.PlayerNamesOnePerAthlete` | nfl-extension-2.js:148-156 | when every participant has an athlete, there is one player text per participant, in participant order |
| `ScoringPlays.PlayerTextEmpty` | nfl-extension-2.js:158-161 | the player text is empty exactly when there are no players, or one player whose text is empty; two players or more always give text |
| `ScoringPlays.Description` | nfl-extension-2.js:163-165 | the description starts with "team: base" and adds " (players)" exactly when the player text is non-empty |
| `ScoringPlays.RowHasPlayersIff` | nfl-extension-2.js:158-165 | a play's description has a player parenthetical exactly when it has two or more players, or one with non-empty text |
| `ScoringPlays.OneScorerRow` | nfl-extension-2.js:152-165 | one participant with a name and a jersey gives "team: base (name #jersey)" |
| `ScoringPlays.Row` | nfl-extension-2.js:141-167 | a play's tuple has quarter `OT` exactly outside regulation, an empty clock exactly when the clock is missing or empty, and a description that starts with "team: base" |
| `ScoringPlays.CollectPlayers` | nfl-extension-2.js:147-156 | the participant loop pushes exactly the player texts of the participants that have an athlete, in order |
| `ScoringPlays.BuildRow` | nfl-extension-2.js:141-167 | the loop body builds the play's `[quarter, clock, desc]` tuple as `Row` specifies it |
| `ScoringPlays.BuildRows` | nfl-extension-2.js:138-170 | the play loop returns exactly the map of `Row` over the plays, in order |
| `ScoringPlays.ScoringPlaysStructured` | nfl-extension-2.js:134-171 | one tuple per scoring play, in order, each being that play's `Row`; no tuples when `scoringPlays` is not an array |
| `TeamStats.StatKeysDistinct` | nfl-extension-2.js:54-74 | the seven reporters' keys are distinct: seven different stat names and seven different abbreviations (about the keys only; one entry can still match two reporters, by name for one and by abbreviation for another) |
| `TeamStats.StatValue` | nfl-extension-2.js:47-48 | the value is the `displayValue` of the first entry matching by name or by abbreviation; it is `?` when nothing matches or that entry has no `displayValue` |
| `Documents.TeamName` | nfl-extension-2.js:45 | `team?.shortDisplayName || 'Team'`: the non-empty short display name, else `Team`; never empty. The stat lines and the scoring-play descriptions (nfl-extension-2.js:143) share this one rule |
| `TeamStats.StatLine` | nfl-extension-2.js:45-49 | a team's line is its name, then ": ", then the stat value found for it |
| `TeamStats.TeamStatList` | nfl-extension-2.js:40-51 | one "name: value" line per box-score team, in order; no lines when `teams` is not an array |
| `TeamStats.PassingYardsByName` | nfl-extension-2.js:57-59 | a `netPassingYards` entry without an abbreviation still matches, and its value is shown |
| `TeamStats.NoStatisticsShowsPlaceholder` | nfl-extension-2.js:46-49 | a team with an empty statistics list shows `?` |
| `GameInfoReporters.VenueText` | nfl-extension-2.js:77-84 | `''` without a venue; otherwise the name followed by the present city and state in parentheses, comma-separated only when both are present, and the bare name when neither is |
| `GameInfoReporters.AttendanceText` | nfl-extension-2.js:86-89 | `''` exactly when the attendance is missing or zero; otherwise `Attendance: ` followed by text that reads back as the attendance |
| `GameInfoReporters.WeatherText` | nfl-extension-2.js:91-97 | `''` without weather; otherwise the present temperature (with a degree sign) and condition, joined by ", " only when both are present; a temperature of zero still leads the text |
| `GameInfoReporters.OfficialLabel` | nfl-extension-2.js:102-106 | an official's entry is never empty and starts with the name (`Official` by default); it is exactly the name when there is no position, otherwise the name followed by " (position)" |
| `GameInfoReporters.OfficialsList` | nfl-extension-2.js:99-107 | one non-empty entry per official, in order; no entries when `officials` is not an array |
| `RedZone.InRedZone` | nfl-extension-2.js:113 | the red-zone report for a team is never empty |
| `RedZone.RedZoneStatus` | nfl-extension-2.js:110-123 | a flagged current drive with a team always wins; otherwise the first flagged header competitor is reported; `''` exactly when neither tier finds one |
| `Defaults.EmptyScoreboardSlotDefaults` | nfl-extension-1.js:119-130 | with an empty scoreboard slot, every scoreboard reporter gives an empty list |
| `Defaults.EmptySummarySlotDefaults` | nfl-extension-2.js:35-37 | with an empty summary slot, or no shared object, every summary reporter gives `''` or an empty list, and there are no scoring plays |

## Left out

- The HTTP request, `response.json()`, URL construction and the trimming of
  the date and event id (nfl-extension-1.js:91-115) are network I/O. A fetch
  is modelled only by its completion: `FetchScoreboard`/`FetchSummary` take
  the parsed document, or `None` for any failure.
- Overlapping asynchronous fetches, where the last completion wins the slot,
  are a matter of concurrency. The model has sequential completions only.
- The `getInfo` block tables and `Scratch.extensions.register` are plugin
  registration and UI.
- The `Scratch.vm.runtime.nflShared` global is replaced by an explicit
  `NflShared` object. Reporters take the document the getters return.
- Generic coercion of arbitrary JSON values is not modelled.
  - `attendance`, `temperature` and `period` are whole numbers. A period sent
    as the string `"1"` (which the code's `===` turns into `OT`), fractional
    numbers and exponent notation are not modelled.
  - `score`, `clock`, `jersey`, positions and names are strings. A value of
    another JSON type, such as an object printing as `[object Object]`, is
    not modelled.
  - The truthiness of non-string values, such as a non-boolean `isRedZone`,
    is fixed by the types. An object field is truthy when present, and
    `isRedZone` is truthy only when it is `true`.
  - A parsed document that is itself falsy (`0`, `""`, `false`) and so reads
    as `{}` is not modelled.
- Uncaught throws that come only from untyped list elements or values of the
  wrong shape are ruled out by the types:
  - a `null` event, whose `date`/`id` read outside any `try` (nfl-extension-1.js:171, 175);
  - a `null` team, official, stat entry, play or participant;
  - a non-array truthy `statistics` (nfl-extension-2.js:46-47);
  - a flagged header competitor without `team` (nfl-extension-2.js:119).
    `HeaderCompetitor.team` is therefore a required field.
- A `competitors` or `competitions` value that is present but not an array
  is treated as missing. The code reaches the same default through a thrown
  `TypeError` or an `Array.isArray` test.
- A printed leaf that is JSON `null` is not told apart from a missing one.
  The source prints a `null` leaf as `null` when it goes into a template or
  `+`, and a missing one as `undefined`. The model prints both as
  `undefined`. This affects the team short names printed by `Matchup` and
  `InRedZone`, the `score` leaves printed by `Score`, and the athlete names
  printed by `PlayerLabel`. Likewise a `null` state is returned by `getStates`
  as `null`, where `State` gives `None` (`undefined`).
