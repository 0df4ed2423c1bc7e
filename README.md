# Match statistics engine (sirius_bandy `Stats`), modelled in Dafny

This project models the statistics engine of a bandy match-analysis tool. The
engine is the class `Stats` in `kod/get_stats.py`. It reads an ordered event log
for two teams. Each row holds a team, an event tag, an optional sub-event label
and a time. From the log it derives:

- **possession**: a single forward pass turns the log into a list of markers
  `(holder, time)`. A holder is a team or nobody, and `(None, None)` is the
  sentinel left by an unrecognised tag. Each team's possession time is the sum
  of the intervals that start at its markers;
- **score, duels and shot types**: counts of rows per team;
- **shot origins**: a second pass keeps three state variables (possession team,
  the tag that gained it, and when). It records every shot and goal and counts
  the records per team and origin;
- **merging** (`__add__`): two objects combine into a new one. Counts and
  possession seconds are summed per team. Label-keyed counts are merged as a
  union, summed where both sides have the label.

Times are whole seconds. The readable `H:MM:SS` form and its conversion
functions are not part of this model. The log is a sequence of `Event` records.

Modules, one per part of the engine:

- `Events` (`events.dfy`): the row record, the four tag sets, the classification
  of a tag, and the opposite team.
- `Possession` (`possession.dfy`): the marker pass (`Step`, `Reconstruct`) and
  the possession-time loop with its lemmas.
- `Aggregates` (`aggregates.dfy`): row counting, score, duels and shot types.
- `Origins` (`origins.dfy`): the shot-origin pass and its tally.
- `Merge` (`merge.dfy`): the `add_*` loops and the lemmas that merging loses
  nothing.
- `Statistics` (`stats.dfy`): the class `Stats`. It holds the log, the marker
  list and one memo field per statistic, with an object invariant `Valid()`.
  The invariant says every remembered value is the one the log determines.

Error outcomes of the source are modelled as results, not as preconditions:

- Building the marker list fails (Python `IndexError`) when the first row has an
  await tag and the second a recognised tag. `Possession.ReconstructFailsIff`
  proves that this is the only way it fails. On failure the list is still empty.
- The possession loop fails when an interval held by a match team ends at the
  sentinel, whose time cannot be converted to seconds.
- Shot-origin counting fails (Python `KeyError`) when a shot record has no
  match team, for example a shot before anybody gained the ball.

Where the design description of this system and the code differ, the model
follows the code:

- The description says a loss by a team that does not hold the ball is ignored.
  The code hands the ball to the other team whenever that team is not the
  holder of the last marker.
- The description says consecutive markers never share a holder. The code keeps
  that only while every tag is recognised: a sentinel can follow a "nobody"
  marker (`Possession.RecognisedLogAlternates`).
- The description says a merge fails fast when the team sets differ. The code
  does not check. It fails only when a team of the left operand is missing on
  the right, and `Statistics.Stats.Add` requires exactly that.

## Model

| member | source | states |
|---|---|---|
| `Events.Classify` | kod/get_stats.py:8-11 | The gained, lost and await tag sets are pairwise disjoint, so each tag has exactly one class and the source's test order does not matter. |
| `Events.Opposite` | kod/get_stats.py:311-314 | For a team of a two-team match, the result is the other team: `teams == {team, other}` and `other != team`. |
| `Events.DifferenceAsWritten` | kod/get_stats.py:314 | `teams.difference(team)` as written removes only one-character names that occur in `team`; the result is a subset of the teams. |
| `Events.DifferenceAsWrittenKeepsTeam` | kod/get_stats.py:314 | When no team name is one character long, the difference as written removes nothing, so `pop()` may return the losing team itself. |
| `Events.DifferenceAsWrittenExample` | kod/get_stats.py:311-314 | For teams {"iks", "mot"}, losing the ball as "iks" leaves both names to pop from, while the intended opposite is "mot". |
| `Possession.Step` | kod/get_stats.py:260-274 | One row fails exactly when it is not the first row, the list is empty and its tag is recognised. Otherwise it keeps every existing marker and appends at most one. |
| `Possession.StepRules` | kod/get_stats.py:262-273 | Gain and loss append the new holder only on the first row or when it differs from the last holder. Await appends "nobody" only after the first row and when somebody held the ball. An unknown tag always appends the sentinel. |
| `Possession.Reconstruct` | kod/get_stats.py:276-281 | The marker list of the whole log never has more markers than the log has rows, and only the sentinel lacks a time. |
| `Possession.FailurePersists` | kod/get_stats.py:278-280 | A failure on a prefix of the log is a failure of the whole pass. |
| `Possession.EmptyOnlyAfterLeadingAwait` | kod/get_stats.py:268-270 | The marker list is empty exactly when the log is empty or is a single await row. |
| `Possession.ReconstructFailsIff` | kod/get_stats.py:263-270 | The pass fails exactly when the first row is an await row and the second carries a recognised tag. |
| `Possession.RecognisedLogAlternates` | kod/get_stats.py:262-270 | When every tag is recognised, no two consecutive markers share a holder. |
| `Possession.RepeatedGainCollapses` | kod/get_stats.py:262-264 | A second gain by the team that just gained the ball leaves the list unchanged. |
| `Possession.MarkerTimesOrdered` | kod/get_stats.py:260-281 | With row times that never decrease, adjacent timed markers are in time order and none is later than the last row. |
| `Possession.PossessionTotals` | kod/get_stats.py:124-128 | Every match team, and nothing else, gets the sum of `time[i+1] - time[i]` over the markers `i < len - 1` that it holds. The result is None exactly when such an interval lacks a time. |
| `Possession.TimeHeldNonNegative` | kod/get_stats.py:126-128 | With adjacent marker times in order, every accumulated possession time is non-negative. |
| `Possession.PossessionNonNegative` | kod/get_stats.py:124-128 | With row times that never decrease, every team's possession time over the reconstructed markers is non-negative. |
| `Possession.TimeAddsUp` | kod/get_stats.py:124-128 | When all markers are timed and every holder is a match team or nobody, both teams' possession plus the time nobody held the ball equals the elapsed time. |
| `Aggregates.CountRows` | kod/get_stats.py:297-309 | The number of rows a filter selects is at most the number of rows. |
| `Aggregates.CountRowsAppend` | kod/get_stats.py:297-309 | Counting the rows of two joined logs is the sum of counting each. |
| `Aggregates.CountRowsPositive` | kod/get_stats.py:160-161 | A count is positive exactly when some row is selected. |
| `Aggregates.CountPerTeam` | kod/get_stats.py:64-73 | Score (goal rows) and duels (duel and interception rows, lines 92-101): every match team, and nothing else, gets the number of its selected rows. |
| `Aggregates.ShotTypesPerTeam` | kod/get_stats.py:152-162 | Every match team gets exactly the vocabulary labels with a positive count of its shot-type rows, each with that count. |
| `Aggregates.ShotTypesPerTeamIsShotTypesOf` | kod/get_stats.py:156-161 | The pointwise description of the shot-type table determines it: it equals `ShotTypesOf`. |
| `Aggregates.ForeignRowIgnored` | kod/get_stats.py:69-71 | A row whose team is not a match team changes neither the score nor the duels. |
| `Aggregates.ShotTypeIffRow` | kod/get_stats.py:158-161 | A label is among a team's shot types exactly when it is in the vocabulary and the log has such a row, and its count is then positive. |
| `Origins.Advance` | kod/get_stats.py:203-217 | A shot or goal never changes the possession state. Any change sets a known team, the row's tag as origin and the row's time. |
| `Origins.StateAfter` | kod/get_stats.py:197-217 | After any prefix of the log, the state names a team exactly when it names the gaining tag. |
| `Origins.ShotRecords` | kod/get_stats.py:201-207 | Exactly one record per shot or goal row, and a record names a team exactly when it names an origin. |
| `Origins.ShotOriginRecords` | kod/get_stats.py:191-219 | The loop over the three state variables produces exactly the records of `ShotRecords`. |
| `Origins.TallyOrigins` | kod/get_stats.py:221-233 | Fails exactly when a record has no match team. Otherwise every match team gets the count of each origin it has, and its counts sum to its number of records. |
| `Origins.TallyStep` | kod/get_stats.py:228-231 | One more record keeps the tally correct and adds one to its team's sum. |
| `Origins.SumValuesUpdate` | kod/get_stats.py:228-231 | Setting one key of a count map changes the sum of its values by the difference. |
| `Merge.AddPerTeam` | kod/get_stats.py:84-90 | Score, duels (112-118) and possession in seconds (144-150): each team of the left operand gets the sum of both sides. |
| `Merge.UnionLabels` | kod/get_stats.py:180-188 | Every label of either side, with the summed count where both have it and the single count otherwise. |
| `Merge.AddLabelCounts` | kod/get_stats.py:176-189 | Shot types and shot origins (245-258): every match team gets the label union of both sides, or no labels when the left side lacks the team. |
| `Merge.PerTeamCountsMergeLossless` | kod/get_stats.py:84-90 | Summing the score or duels of two logs gives the score or duels of the joined log. |
| `Merge.TeamShotTypesMergeLossless` | kod/get_stats.py:180-188 | For one team, the label union of two logs' shot types is the shot types of the joined log. |
| `Merge.ShotTypesMergeLossless` | kod/get_stats.py:176-189 | Merging the shot types of two logs gives the shot types of the joined log. |
| `Merge.PerTeamSumCommutes` | kod/get_stats.py:84-90 | With the same teams on both sides, the per-team sum does not depend on the operand order. |
| `Merge.LabelUnionCommutes` | kod/get_stats.py:180-188 | The label union does not depend on the operand order. |
| `Merge.LabelUnionAssociates` | kod/get_stats.py:180-188 | The label union is associative, so many games merge the same in any grouping. |
| `Statistics.Stats.constructor` | kod/get_stats.py:15-26 | A new object over a log has the given teams and log, an empty marker list and no statistic computed. |
| `Statistics.Stats.Merged` | kod/get_stats.py:33-40 | The merged object has no log, and every statistic is given, keyed by the match teams. |
| `Statistics.Stats.NotePossession` | kod/get_stats.py:260-274 | Updates the marker list as `Step` says. Where the source raises, the result is false and the list is unchanged. |
| `Statistics.Stats.MakePossessionList` | kod/get_stats.py:276-281 | Builds the list only while it is empty, so a second call changes nothing. Succeeds exactly when `Reconstruct` does, with its list; on failure the list stays empty. |
| `Statistics.Stats.GetScore` | kod/get_stats.py:64-73 | Computed once and remembered; for an object over a log, it equals the per-team goal counts. |
| `Statistics.Stats.GetDuels` | kod/get_stats.py:92-101 | Computed once and remembered; for an object over a log, it equals the per-team duel counts. |
| `Statistics.Stats.GetPossession` | kod/get_stats.py:120-132 | Builds the marker list, then totals possession per team and remembers the result. Fails exactly when the pass or a time conversion fails, and then remembers nothing. |
| `Statistics.Stats.GetShotTypes` | kod/get_stats.py:152-163 | Computed once and remembered; for an object over a log, it equals `ShotTypesOf`. |
| `Statistics.Stats.GetShotOrigins` | kod/get_stats.py:221-233 | Tallies the records of the shot-origin pass and remembers them. Fails exactly when a record lacks a match team. |
| `Statistics.Stats.Add` | kod/get_stats.py:29-42 | A fresh merged object: score, possession and duels summed per team; shot types and shot origins merged label by label. |

## Findings

| source | as written | input that shows it | evidently intended | confidence | as-written member | corrected member |
|---|---|---|---|---|---|---|
| kod/get_stats.py:314 | `self.teams.difference(team).pop()` passes a string, so `difference` removes the characters of the name, not the name, and `pop()` returns an arbitrary remaining team | teams {"iks", "mot"}, team "iks": the difference is {"iks", "mot"}, so the "opposite" of "iks" may be "iks" | the other team of the two-team set, as the docstring at lines 312-313 says | high; not executed | `Events.DifferenceAsWritten` | `Events.Opposite` |

Every possession-lost row, in the marker pass and in the shot-origin pass, uses
`Events.Opposite`.

## Left out

- Statistics.Stats.constructor: requires every possession-lost row to name one of exactly two match teams. The docstring of `opposite_team` says it works only for such input; other input is the defect under Findings.
- Statistics.Stats.Add: requires every statistic to be present on both operands and every team of the left operand to be a team of the right. The source reads them without checking and raises `KeyError` otherwise.
- Possession.PossessionTotals: treats a missing marker time as a conversion failure. `gf.readable_to_sec` is not part of this model, so what it does with `None` is assumed, not shown.
- The `write_*` methods and `write_header` (text-file output) and the diagnostic print for an unrecognised tag: output only.
- `gf.readable_to_sec`, `gf.sec_to_readable` and the readable form of possession times: not part of this model. All times stay in seconds and no string round-trip is claimed.
- `gf.read_csv_as_df`, `gf.make_df` and the pandas filters (`get_score_df`, `get_duels_df`, `get_shottypes_df`, `get_shots_df`): the log is a sequence, and a filter is a `RowFilter` counted by `CountRows`.
- The `df_dict` memo of filtered tables and of the shot-origin table: recomputing them yields the same value, so only the `prints` memo is modelled.
- `Game.events_and_their_subevents['skottyp']`: the shot-type vocabulary is the constructor parameter `shotTypeLabels`.
- The output file name (`out`) and the `NotImplemented` answer of `__add__` for a non-`Stats` operand: the types rule the latter out.
- Dictionary iteration order: maps are unordered.
- `kod/get_pp.py` (slide building) and `kod/runme.py` (driver script, mostly dead code in a string literal, including its division that can divide by zero): presentation and orchestration, not part of this model.
