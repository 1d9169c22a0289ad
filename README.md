# Tennis analytics core, modelled in Dafny

This project models the analytics core of a tennis data repository. That core turns a table of
professional matches into derived datasets. The table has one row per match: winner, loser,
tournament, date, round, surface, score, duration and rankings. The datasets are:

- **Score parsing** (`aggregations/shared_utils.py`). It reads score strings such as
  `"6-4 3-6 7-6(3) 6-4"` into sets, games, tiebreaks, margins and lead changes. It also covers
  the comeback classifier, the final-set tiebreak flag, Grand Slam name recognition, the table
  filters, win percentages and their bands, peak rankings, opponent quality, and breakdowns by
  surface or by tournament. The copies of `parse_sets`, `advanced_comeback_score` and
  `final_set_tiebreak` in `aggregations/nbi.py:37-111` are identical, so they are modelled once.
- **Career and head-to-head aggregation** (`aggregations/base_metrics.py`). A first pass builds
  per-player profiles. A second pass counts what each champion did before their first Grand Slam
  title, and derived fields follow. There is also a head-to-head record per unordered pair of
  players, and the enrichment of each match row.
- **Smaller aggregations built on these**:
  - the breakthrough comparison (`aggregations/stantheman.py`);
  - the player network (`aggregations/network_graph.py`);
  - career longevity (`aggregations/career_longevity.py`);
  - the global evolution of countries (`aggregations/global_evolution.py`);
  - the datasets for one country's players (`aggregations/indian_players.py`).
- **Composite indices**:
  - the Grand Slam Dominance Index (`aggregations/gsdi.py`);
  - the Nailbiter Index (`aggregations/nbi.py`);
  - the legacy pipeline (`etl_pipeline.py`), with its own nailbiter, dominance and
    breakthrough heuristics.

Modelling conventions:

- **Missing cells.** A pandas NaN or None is `Option.None`.
- **Dates.** A date is the integer yyyymmdd. Day differences use a proleptic Gregorian day
  number (module `Dates`).
- **Reals.** Floats are exact reals.
- **Tables and sorts.** A table is a sequence of `Match` rows in file order.
  - `groupby` visits its keys in sorted order (`Ordering.SortedDistinct`).
  - Python's `list.sort(key=..., reverse=True)` is stable (`Ordering.StableSortDescending`).
  - pandas `sort_values` is not stable, so the model only claims a permutation with
    non-increasing keys.

Code written as a loop over rows that updates dictionaries becomes a `method` with a `while`
loop. Each such dictionary is a `map`-valued local that the loop reassigns. The method is proved
equal to a specification function that replays the rows one at a time. The properties the source
promises are then proved about that function as lemmas. Examples:

- `Careers.AccumulateMatches` against `Careers.Pass1`;
- `HeadToHead.BuildHeadToHeadMatrix` against `HeadToHead.Tally`;
- `Network.BuildNetworkData`;
- `LegacyEtl.TrackWinners` against `LegacyEtl.WinnerTrack`.

Pure selections and arithmetic stay functions.

Where the design description and the code disagree, the model follows the code:

- **Row order matters in the code.** The design calls the aggregation invariant under any
  reordering of the input rows. That holds for the counts: `HeadToHead.CountsPermutation` and
  `Matches.CountPermutation` prove it. It does not hold everywhere, because the code keeps some
  values from the first row that sets them:
  - a player's first Grand Slam title date and age (`base_metrics.py`, `stantheman.py`,
    `etl_pipeline.py`);
  - a country's top player (`global_evolution.py`).
- **The nailbiter ranking is not stable.** The design describes a stable sort of composite
  scores. `aggregations/nbi.py` and `etl_pipeline.py` sort with pandas `sort_values`, which is
  not stable, so their contracts promise only the order of the scores.
- **Some code raises.** The design says no error surfaces. The code does raise in these cases:
  - `mode()[0]` on an empty column (`aggregations/career_longevity.py:49`);
  - `calculate_career_stats` when no appearance is left: the frame built from an empty list
    has no `career_length_years` column (`aggregations/career_longevity.py:83`);
  - `build_network_data` on a kept row that names only one of its players, or when no row
    is kept. A row missing both names does not raise; the model still fails on it (see Left out).

  The model returns `None` in those cases.

## Model

| member | source | states |
|---|---|---|
| GrandSlams.CanonicalName | aggregations/shared_utils.py:40-63 | a missing name stays missing; a name that does not normalise to one of the four Grand Slams is returned unchanged |
| GrandSlams.GrandSlamIffCanonical | aggregations/shared_utils.py:19-63 | `is_grand_slam` holds exactly when `get_grand_slam_name` yields one of the four canonical names |
| GrandSlams.CanonicalFixed | aggregations/shared_utils.py:54-61 | each canonical name normalises to itself (Wimbledon by exact match, the others by substring) |
| GrandSlams.CanonicalIdempotent | aggregations/shared_utils.py:40-63 | normalising a name twice gives the same result as normalising it once |
| GrandSlams.FilterGrandSlams | aggregations/shared_utils.py:241-243 | keeps exactly the rows whose tournament is a Grand Slam |
| GrandSlams.FilterByYear | aggregations/shared_utils.py:246-256 | keeps exactly the rows whose year lies within the bounds given; an absent bound does not restrict |
| GrandSlams.FilterByYearTwice | aggregations/shared_utils.py:246-256 | narrowing by two year ranges in turn equals narrowing once by their intersection |
| GrandSlams.FilterByRounds | aggregations/shared_utils.py:259-263 | an empty round list returns the table unchanged; otherwise keeps exactly the rows whose round is listed |
| GrandSlams.FilterByTournaments | aggregations/shared_utils.py:266-270 | an empty tournament list returns the table unchanged; otherwise keeps exactly the rows whose tournament is listed |
| Summaries.WinPercentage | aggregations/shared_utils.py:277-281 | 0 for no matches; within [0, 100] when wins do not exceed matches; 100 for all wins and 0 for none |
| Summaries.WinPercentageMonotone | aggregations/shared_utils.py:277-281 | more wins out of the same matches never give a lower percentage |
| Summaries.BandIndex | aggregations/shared_utils.py:301-312 | the band is above the k-th threshold (40, 50, 60, 70) exactly when the percentage strictly exceeds it |
| Summaries.Categorize | aggregations/shared_utils.py:301-312 | every percentage falls into exactly one of the five labels |
| Summaries.BandMonotone | aggregations/shared_utils.py:301-312 | a higher percentage never lands in a lower band |
| Summaries.PeakRanking | aggregations/shared_utils.py:319-333 | the smallest ranking the player held as winner or loser, provided it is below 9999; missing exactly when no such ranking exists |
| Summaries.PeakOfSubTable | aggregations/shared_utils.py:319-333 | the peak over a sub-table is never better than the peak over the whole table |
| Summaries.OpponentQuality | aggregations/shared_utils.py:355-384 | no present ranking gives the all-zero summary; otherwise top5 <= top10 <= top30 <= opponents and the top-30 share lies in [0, 100] |
| Summaries.Breakdown | aggregations/shared_utils.py:391-446 | one record per surface (or tournament) seen in the player's matches, whose wins and losses count the player's rows there, with total = wins + losses > 0 and the percentage in [0, 100] |
| Scores.MatchRendered | aggregations/shared_utils.py:109-110 | the set pattern matches a written-out set ("6-4", "7-6(3)") whole, with its games and tiebreak points, when a space or the end follows |
| Scores.ScanRenderedSet | aggregations/shared_utils.py:109-110 | scanning the text of one set gives back exactly that set |
| Scores.TiebreakGroupKeepsPairs | aggregations/shared_utils.py:152-176 | the pattern with the optional tiebreak group and the plain `(\d+)-(\d+)` pattern find the same game pairs, set for set |
| Scores.ParseScore | aggregations/shared_utils.py:70-138 | the parsed score of the scanned sets; missing input gives zero sets and games, empty lists and not complete; winner plus loser sets is the number of sets; tiebreaks never outnumber sets; complete exactly when no RET, W/O, DEF or ABD appears in the upper-cased text |
| Scores.TallySets | aggregations/shared_utils.py:112-128 | the loop over the matched sets collects exactly their game pairs and tiebreak points, credits the sets with strictly more games to the winner and the rest to the loser, and sums each side's games |
| Scores.SetsWon | aggregations/shared_utils.py:124-128 | the sets credited to the winner (strictly more games) never outnumber the sets |
| Scores.ParseSets | aggregations/shared_utils.py:141-162 | missing input gives no margins, no tiebreaks, no lead changes; one margin per scanned set; tiebreaks at most the sets; lead changes at most one fewer than the sets |
| Scores.LeadChanges | aggregations/shared_utils.py:157-160 | lead changes are at most one fewer than the sets |
| Scores.ParseSetsAgreesWithParseScore | aggregations/shared_utils.py:141-162 | on a score without RET and W/O, `parse_sets` sees the sets `parse_score` sees: each margin is that set's game difference and the tiebreak count is the length of the tiebreak list |
| Scores.FinalSetTiebreak | aggregations/shared_utils.py:222-234 | the flag is 0 or 1 |
| Scores.FinalTiebreakIsCounted | aggregations/shared_utils.py:222-234 | a final-set tiebreak is one of the tiebreaks `parse_sets` counts |
| Scores.ComebackRating | aggregations/shared_utils.py:178-219 | the rating is always between 0 and 3 |
| Scores.LeadDiffs | aggregations/shared_utils.py:191-200 | after each set, the entry is the sets the eventual winner has lost minus those it has won so far |
| Scores.LosingIndices | aggregations/shared_utils.py:207 | exactly the positions of the sets the eventual winner lost, in increasing order |
| Scores.SpreadOfLosses | aggregations/shared_utils.py:207-209 | the first and last lost sets are more than one apart exactly when some two lost sets are |
| Scores.AdvancedComebackScore | aggregations/shared_utils.py:165-219 | the rating the priority-ordered rules give: 0 for a missing score, fewer than three sets or an even split, else 3, 2, 2, 1 or 0 |
| Scores.RealComebackNeedsTwoLostSets | aggregations/shared_utils.py:202-213 | a rating of 2 or 3 is only given when each side took at least two sets |
| Scores.FromTwoSetsDown | aggregations/shared_utils.py:202-204 | the sets 4-6, 4-6, 6-4, 6-4, 6-3 (down two sets, then three won) rate 3 |
| Scores.FromAlternatingSets | aggregations/shared_utils.py:206-209 | the sets 6-4, 3-6, 6-4, 2-6, 6-3 (the two lost sets not adjacent) rate 2 |
| Nailbiter.Cohort | aggregations/nbi.py:150-168 | keeps exactly the rows named as one of the four Grand Slams, level G, round F or SF, dated on a real calendar day from 1980 on (a date `to_datetime` cannot parse has no year and is dropped), whose score lacks RET and W/O |
| Nailbiter.BpSavedRatio | aggregations/nbi.py:187-191 | 0 when no break point was faced (missing counters read as 0); within [0, 1] when saves do not exceed break points faced |
| Nailbiter.DurationScore | aggregations/nbi.py:193-194 | minutes per set, present exactly when minutes are known and at least one set parsed |
| Nailbiter.FeaturesOf | aggregations/nbi.py:176-194 | the average margin is missing exactly when no set parsed; the duration is present exactly when minutes are known and a set parsed; final-set flag at most 1, comeback at most 3, tiebreaks at most the sets |
| Nailbiter.Normalize | aggregations/nbi.py:201-210 | every present value lands in [0, 1]; a constant column becomes 0 on every row; otherwise the minimum maps to 0 and the maximum to 1, the reverse for the inverted margin, and a value is present exactly when the raw one is |
| Nailbiter.Rescale | aggregations/nbi.py:206-210 | the rescaled value lies in [0, 1], with the ends mapped to 0 and 1 (swapped when inverted) |
| Nailbiter.NormalizeMonotone | aggregations/nbi.py:206-210 | rescaling keeps the order of the values, and reverses it for the inverted margin |
| Nailbiter.Index | aggregations/nbi.py:214-222 | the weighted sum is missing exactly when a rescaled feature is missing; with every feature in [0, 1] and the final-set flag 0 or 1 it lies in [0, 1] |
| Nailbiter.ScoreCohort | aggregations/nbi.py:176-222 | one scored row per cohort match, carrying its own features, rescaled features in [0, 1] and their index |
| Nailbiter.MaxPresent | aggregations/nbi.py:228 | the largest present index: missing exactly when all are, otherwise at least every present index and attained by one |
| Nailbiter.Scale | aggregations/nbi.py:228-229 | 0 on every row unless the best index is positive; then the index divided by the best and multiplied by 100, missing exactly when the index is, within [0, 100] for indexes up to the best, and 100 for the best |
| Nailbiter.TagsFrom | aggregations/nbi.py:114-128 | exactly the tags that apply, in the fixed order |
| Nailbiter.TagDrama | aggregations/nbi.py:114-129 | the labels that apply joined by ", ", and "standard" exactly when none applies |
| Nailbiter.NotStandard | aggregations/nbi.py:129 | a non-empty list of labels never joins to "standard" |
| Nailbiter.CalculateNbi | aggregations/nbi.py:136-239 | the rows are a reordering of the scored cohort with missing indexes last and present indexes non-increasing and in [0, 1]; each row's rescaled index is its index scaled to the best index of the sorted rows (in [0, 100], the best at 100); every row is tagged from its own features |
| Nailbiter.FinalizeSorted | aggregations/nbi.py:225-232 | rescaling and tagging a sorted cohort keeps its rows and order, its ranges and the best match at 100 |
| Nailbiter.SortedOrder | aggregations/nbi.py:225 | the sorted rows have non-increasing present indexes, missing indexes last, and the first present index is the best |
| Nailbiter.FinalizeFacts | aggregations/nbi.py:228-229 | every rescaled index lies in [0, 100], and a positive best at the top becomes 100 |
| Dominance.GrandSlamRows | aggregations/gsdi.py:31-34 | keeps exactly the rows flagged Grand Slam whose tournament is one of the four canonical names |
| Dominance.FinalCampaigns | aggregations/gsdi.py:39-43 | a campaign appears exactly when a final among the rows was won by its player at its tournament and year |
| Dominance.Champions | aggregations/gsdi.py:43-44 | each title run once, in the strictly increasing order of the grouping keys, listed exactly when one of its finals is among the rows |
| Dominance.CampaignRows | aggregations/gsdi.py:66-70 | exactly the matches the champion won at that tournament and year |
| Dominance.ChampionHasMatches | aggregations/gsdi.py:72-73 | a title run always holds its own final, so the empty-campaign branch is never taken |
| Dominance.PointsWonPct | aggregations/gsdi.py:89 | a games share in [0, 100] gives a points share in [20, 80], below (above) 50 exactly when the games share is |
| Dominance.PointsWonMonotone | aggregations/gsdi.py:89 | a larger games share never gives a smaller points share |
| Dominance.PctTop30 | aggregations/gsdi.py:92-99 | within [0, 100]; 30 without a rank column; with ranks, 0 exactly when no opponent was in the top 30 and 100 exactly when all were |
| Dominance.Top5Wins | aggregations/gsdi.py:95-100 | with ranks, the count of wins over top-5 opponents; without, 1 exactly for a campaign of six or more wins and 0 otherwise; never more than the matches |
| Dominance.Top5WithinTop30 | aggregations/gsdi.py:94-95 | top-5 wins never outnumber top-30 wins |
| Dominance.AvgMinutes | aggregations/gsdi.py:103-106 | 120 without a minutes column or without any known duration; otherwise between the shortest and longest known duration |
| Dominance.SpeedScore | aggregations/gsdi.py:108-109 | within [0, 100]: 100 up to two hours, 0 from six hours on, and linear in between |
| Dominance.SpeedMonotone | aggregations/gsdi.py:108-109 | a slower campaign never scores faster |
| Dominance.Bonus | aggregations/gsdi.py:111-115 | 3 per top-5 win, plus 10 exactly when no set was lost: 10 + 3 per top-5 win with no set lost, 3 per top-5 win otherwise |
| Dominance.DominanceScore | aggregations/gsdi.py:117-125 | shares in [0, 100] put the score between the bonus and the bonus plus 100 |
| Dominance.Summarize | aggregations/gsdi.py:75-152 | the campaign's set sums, set share, perfect flag exactly when no set was lost, every share in range, points in [20, 80], and the score within 100 of the bonus |
| Dominance.ScoreAllComplete | aggregations/gsdi.py:60-73 | every champion with matches gets exactly one entry, in the champions' order |
| Dominance.CampaignsAreTitles | aggregations/gsdi.py:39-73 | each title run appears once, in the grouping order |
| Dominance.CalculateGsdi | aggregations/gsdi.py:18-168 | the scored campaigns stably sorted by dominance score, best first, and ranked 1, 2, ... |
| Dominance.ScoreCampaigns | aggregations/gsdi.py:60-73 | the loop produces exactly the scored title runs, skipping any without matches |
| Dominance.RankAll | aggregations/gsdi.py:157-159 | keeps the sorted entries and gives the k-th the rank k + 1 |
| Breakthrough.StepWf | aggregations/stantheman.py:48-89 | one row keeps every player listed once, in insertion order, with an entry exactly for the listed names |
| Breakthrough.TrackWf | aggregations/stantheman.py:46-89 | after any rows the entries and the insertion order agree and list no player twice |
| Breakthrough.TrackFacts | aggregations/stantheman.py:48-89 | a player has an entry exactly when a row with a winner names them; the first match date is that of the first such row; wins and matches count the rows; titles count the Grand Slam final wins; the first title date and age are those of the first such win in row order |
| Breakthrough.WinsWithinMatches | aggregations/stantheman.py:67-82 | every player has at least as many matches as wins |
| Breakthrough.EntryOf | aggregations/stantheman.py:98-125 | the output row: matches before the first title counted and capped at 1000, the year of the first match and of the first title, years on tour never negative, win percentage in [0, 100], age 25 when unknown |
| Breakthrough.EntriesFrom | aggregations/stantheman.py:96-97 | rows only for listed players with a dated title, and one for each such player |
| Breakthrough.EntriesFromRows | aggregations/stantheman.py:98-125 | each listed row is the champion's own entry |
| Breakthrough.EntriesFromDistinct | aggregations/stantheman.py:96 | distinct names give rows naming distinct players |
| Breakthrough.EntriesAreChampions | aggregations/stantheman.py:34-125 | a player is listed exactly when their first Grand Slam final win in row order carries a non-zero date, and no player twice |
| Breakthrough.Take | aggregations/stantheman.py:135 | at most n rows, the leading rows of the list, and the whole list when it is short enough |
| Breakthrough.TrackPlayers | aggregations/stantheman.py:46-89 | the row loop fills exactly the entries and insertion order the per-row step describes |
| Breakthrough.TrackRow | aggregations/stantheman.py:49-89 | one pass of the loop body is the per-row step |
| Breakthrough.CountBefore | aggregations/stantheman.py:99-103 | counts the rows naming the player dated strictly before the given date |
| Breakthrough.CollectEntries | aggregations/stantheman.py:94-125 | the second loop produces exactly the champions' rows in insertion order |
| Breakthrough.CalculateBreakthroughComparison | aggregations/stantheman.py:19-135 | the champions' rows stably sorted by matches before the first title, largest first, and cut to 50 (none when the table has no Grand Slam final) |
| Careers.Bump | aggregations/base_metrics.py:159-179 | a win-loss tally gains one match, and one win exactly when the row was won; wins never exceed matches |
| Careers.AddSurface | aggregations/base_metrics.py:168-179 | Hard, Clay, Grass or Carpet gains one match in its own bucket, any other surface none; bucket totals grow by at most one |
| Careers.AddOpponent | aggregations/base_metrics.py:203-212 | an opponent ranked below 999 counts in every top-5/10/30 bucket its rank falls within, so the buckets stay nested |
| Careers.SlamWin | aggregations/base_metrics.py:182-200 | a Grand Slam win adds a match and a win; a final adds a title, and the first title met fixes the title date and age |
| Careers.SlamLoss | aggregations/base_metrics.py:255-264 | a Grand Slam loss adds a match and a loss and leaves titles and the first-title date and age alone |
| Careers.WinnerUpdate | aggregations/base_metrics.py:151-225 | the winner gains one match and one win, a title exactly for a Grand Slam final, and keeps an earlier first-title date |
| Careers.LoserUpdate | aggregations/base_metrics.py:228-281 | the loser gains one match and one loss and keeps titles and first-title date |
| Careers.WinnerUpdateOk | aggregations/base_metrics.py:151-225 | a win keeps every counting invariant (wins + losses = matches, slam/surface/opponent counts within the totals, first date before last) |
| Careers.LoserUpdateOk | aggregations/base_metrics.py:228-281 | a loss keeps every counting invariant |
| Careers.LookupOk | aggregations/base_metrics.py:151 | a player's current profile, or the initial one, keeps the invariants |
| Careers.StepOk | aggregations/base_metrics.py:133-281 | one row, winner then loser (possibly the same name), keeps the invariants of every profile |
| Careers.StoreOk | aggregations/base_metrics.py:151 | storing a profile that keeps the invariants keeps them for the whole dictionary |
| Careers.ReplayOk | aggregations/base_metrics.py:133-281 | any run of rows keeps the invariants of every profile |
| Careers.InitialOk | aggregations/base_metrics.py:46-126 | the initial dictionary of all named players keeps the invariants |
| Careers.FreshOk | aggregations/base_metrics.py:49-126 | the all-zero initial profile keeps the invariants |
| Careers.Pass1 | aggregations/base_metrics.py:43-281 | pass 1 has an entry for exactly the names the table carries, each keeping the invariants |
| Careers.ReplayKeys | aggregations/base_metrics.py:137-151 | rows whose names are already present add no entry |
| Careers.ReplayAllPlayers | aggregations/base_metrics.py:46-151 | pass 1 adds no name beyond the winner and loser names of the table |
| Careers.FirstTitle | aggregations/base_metrics.py:192-194 | the first row in table order that gives the player a Grand Slam final win, or none exactly when there is no such row |
| Careers.StepEffect | aggregations/base_metrics.py:151-264 | one row changes a player's wins, losses and titles by exactly what the row gives that player, and sets the first title only if none was set |
| Careers.ReplayCounts | aggregations/base_metrics.py:133-281 | after a run of rows, wins, losses and titles grow by the number of rows the player won, lost and won as a Grand Slam final, and the first title is the first such row |
| Careers.ReplayHasPlayer | aggregations/base_metrics.py:151 | a player present before a run of rows is still present after it |
| Careers.Pass1Counts | aggregations/base_metrics.py:43-281 | after pass 1 each named player's wins, losses, titles and first-title date and age are counted from exactly the rows naming the player |
| Careers.AccumulateMatches | aggregations/base_metrics.py:43-281 | the row loop produces exactly pass 1, keyed by every named player |
| Careers.BeforeFirstTitle | aggregations/base_metrics.py:288-307 | only a champion changes: matches and wins before the first title are the rows naming the player, and the rows the player won, dated strictly before it; the percentage lies in 0..100 |
| Careers.MapEach | aggregations/base_metrics.py:291-307 | the per-player loop gives every key its transformed value and no other key |
| Careers.Pass2 | aggregations/base_metrics.py:288-307 | pass 2 keeps the same players and their invariants |
| Careers.RowsBefore | aggregations/base_metrics.py:363 | the rows dated before the first title are rows of the table |
| Careers.Derive | aggregations/base_metrics.py:316-366 | the overall, Grand Slam, hard, clay, grass, carpet, top-5, top-10 and top-30 win percentages all lie in 0..100, unique opponents is the number of distinct names met, the peak is a real ranking, and the average duration is missing exactly when no match had one |
| Careers.PeakBeforeNotBetter | aggregations/base_metrics.py:356-366 | the peak ranking before the first title is never better than the career peak |
| Careers.SpansNonNegative | aggregations/base_metrics.py:316-328 | for eight-digit dates the career span and the years to the first title are never negative |
| Careers.BuildPlayerCareerMetrics | aggregations/base_metrics.py:32-376 | one finished record for exactly every named player, computed from pass 1 then pass 2, each keeping the counting invariants |
| HeadToHead.Key | aggregations/base_metrics.py:486-487 | the key is the two names, in sorted order |
| HeadToHead.KeySymmetric | aggregations/base_metrics.py:486 | a pair has one key whichever of the two won |
| HeadToHead.Credit | aggregations/base_metrics.py:514-521 | a surface bucket gains one meeting and one win for the side that won, so its wins still add up to its meetings |
| HeadToHead.Tally | aggregations/base_metrics.py:505-521 | a meeting adds one to the total and one to the winner's side, and keeps the pair's counting invariants |
| HeadToHead.BuildHeadToHeadMatrix | aggregations/base_metrics.py:465-528 | the row loop yields the matrix of the whole table; every record is keyed by its sorted pair and keeps its counting invariants |
| HeadToHead.MatrixOk | aggregations/base_metrics.py:476-521 | in every record the two players' wins add up to the meetings, on each surface too, and surface meetings never exceed the total |
| HeadToHead.CountsSnoc | aggregations/base_metrics.py:505-521 | one more row changes only its own pair's counts, exactly as one tally does |
| HeadToHead.SplitSnoc | aggregations/base_metrics.py:509-521 | one more row changes a surface bucket only when it is a meeting of the pair on that surface |
| HeadToHead.MatrixCounts | aggregations/base_metrics.py:476-521 | the matrix has a record for exactly the pairs that met, and each record counts the table's rows naming that pair, per winner and per surface |
| HeadToHead.CountsAbsent | aggregations/base_metrics.py:492-503 | a pair that never met counts nothing |
| HeadToHead.RowOrderIrrelevant | aggregations/base_metrics.py:478-521 | reordering the table's rows leaves the matrix unchanged |
| HeadToHead.PairsPermutation | aggregations/base_metrics.py:478-503 | reordering the rows leaves the set of pairs unchanged |
| HeadToHead.CountsPermutation | aggregations/base_metrics.py:505-521 | reordering the rows leaves each pair's counts unchanged |
| HeadToHead.SplitPermutation | aggregations/base_metrics.py:509-521 | reordering the rows leaves each surface bucket unchanged |
| Enrich.ContextOf | aggregations/base_metrics.py:429-454 | a left merge: a player's career columns appear exactly when the name is in the metrics table, and are that player's totals |
| Enrich.EnrichRow | aggregations/base_metrics.py:383-458 | the parsed sets add up to the set scores, tiebreaks never exceed the sets, the average margin is missing exactly without sets, the Grand Slam flag matches a canonical name, the year is the date's first four digits, and each context is present exactly when the name is known |
| Enrich.ContextFound | aggregations/base_metrics.py:429-454 | merged against the metrics built from the same matches, both players of a row are found and have played at least that match |
| Network.FilterRows | aggregations/network_graph.py:61-77 | keeps exactly the rows within the year bounds, in the tournament list and in the round list, an empty list keeping every row |
| Network.UnfilteredKeepsAll | aggregations/network_graph.py:62-77 | with no filter every row is kept, in order |
| Network.Bump | aggregations/network_graph.py:195-198 | incrementing a counter adds one under its own key and nothing under any other, and one to its total |
| Network.Keys | aggregations/network_graph.py:240 | a counter's keys are listed once each, and exactly the keys incremented |
| Network.Items | aggregations/network_graph.py:240-248 | every listed key comes with its positive count |
| Network.Won | aggregations/network_graph.py:193-203 | the winner gains a win, a match and the loser as an opponent |
| Network.Lost | aggregations/network_graph.py:206-212 | the loser gains a match, no win, and the winner as an opponent |
| Network.CreditOk | aggregations/network_graph.py:193-212 | a win or a loss keeps every win count within its match count, overall, against the top 5, per surface and per tournament |
| Network.Meet | aggregations/network_graph.py:216-227 | an edge gains one meeting, and a surface win for the key's first name exactly when that name won |
| Network.MeetOk | aggregations/network_graph.py:216-227 | a meeting keeps every breakdown of the edge adding up to its meetings |
| Network.AddNode | aggregations/network_graph.py:108-190 | a node exists for the name afterwards and every earlier node is kept |
| Network.Enter | aggregations/network_graph.py:108-190 | both players of the row have a node afterwards |
| Network.AddNodeWf | aggregations/network_graph.py:108-190 | adding a node keeps the dictionary's keys listed once each in insertion order |
| Network.PlayerStepWf | aggregations/network_graph.py:108-212 | one row keeps the node keys listed once each |
| Network.EnterOk | aggregations/network_graph.py:108-190 | new nodes start with counts that keep the invariants |
| Network.NodesUpdate | aggregations/network_graph.py:193-212 | replacing one node's counts by consistent ones keeps all nodes consistent |
| Network.CreditPlayersOk | aggregations/network_graph.py:193-212 | crediting the winner and then the loser keeps all nodes consistent |
| Network.PlayerStepOk | aggregations/network_graph.py:108-212 | one row keeps all nodes consistent |
| Network.PlayersInvariants | aggregations/network_graph.py:98-212 | after the loop the nodes are listed once each and every node's wins lie within its matches |
| Network.EnterNode | aggregations/network_graph.py:108-190 | a node exists afterwards exactly when it existed or the row names the player, and creation does not change counts |
| Network.CreditNode | aggregations/network_graph.py:193-212 | crediting a row adds one win to its winner, one match to both players, and the other player as an opponent |
| Network.StepNode | aggregations/network_graph.py:108-212 | one row changes exactly its two players' wins, matches and opponents |
| Network.NodePresence | aggregations/network_graph.py:98-190 | after the loop a player has a node exactly when some filtered row names them |
| Network.NodeTallies | aggregations/network_graph.py:193-209 | a node's wins count the filtered rows the player won, and its matches those they won or lost |
| Network.NodeOpponents | aggregations/network_graph.py:199-209 | a node's opponents are exactly the names met in some filtered row |
| Network.AddEdge | aggregations/network_graph.py:87-95 | the key has an edge afterwards (a `defaultdict` entry) |
| Network.EdgesUpdate | aggregations/network_graph.py:216-227 | replacing one edge by a consistent one keeps all edges consistent |
| Network.AddEdgeWf | aggregations/network_graph.py:216 | adding an edge keeps the edge keys listed once each in insertion order |
| Network.AddEdgeOk | aggregations/network_graph.py:87-95 | a new edge starts consistent |
| Network.RecordWf | aggregations/network_graph.py:215-227 | recording a meeting keeps the edge keys listed once each |
| Network.RecordOk | aggregations/network_graph.py:215-227 | recording a meeting keeps all edges consistent |
| Network.PairStepInvariants | aggregations/network_graph.py:214-227 | one row keeps the edges listed once each and consistent |
| Network.PairsInvariants | aggregations/network_graph.py:98-227 | after the loop every edge is listed once and every breakdown adds up to its meetings |
| Network.KeysSorted | aggregations/network_graph.py:215 | every edge key is a sorted pair |
| Network.StepEdge | aggregations/network_graph.py:214-227 | one row adds a meeting to exactly its own pair, and a first-name win exactly when that name won |
| Network.EdgeFacts | aggregations/network_graph.py:214-227 | an edge exists exactly for pairs that met, its meetings count the rows between them, and its first-name wins the rows that name won |
| Network.WinPcts | aggregations/network_graph.py:238-248 | one percentage per key of the wins counter, of that key's wins over its matches, between 0 and 100 when wins lie within matches |
| Network.NodeRowOf | aggregations/network_graph.py:229-272 | a node's row keeps its counts, counts its distinct opponents, puts its win percentage in its band, and every percentage in 0..100 |
| Network.EdgeRowOf | aggregations/network_graph.py:274-293 | the two players' wins add up to the meetings, and the surface and tournament breakdowns do too |
| Network.EdgeRowCounts | aggregations/network_graph.py:276-279 | on a filtered table, the first player's wins are the rows that player won against the second, and the two players' wins add up to their meetings |
| Network.MinYear | aggregations/network_graph.py:305 | the smallest year of the filtered rows, attained by one of them |
| Network.MaxYear | aggregations/network_graph.py:306 | the largest year of the filtered rows, attained by one of them |
| Network.NodeRows | aggregations/network_graph.py:229-272 | one row per node in insertion order, each with a percentage in 0..100 |
| Network.EdgeRows | aggregations/network_graph.py:274-293 | one row per edge in insertion order, each with wins adding up to its meetings |
| Network.NetworkOf | aggregations/network_graph.py:297-309 | the metadata counts the filtered matches, the nodes and the edges, and the year range is ordered |
| Network.ListingFacts | aggregations/network_graph.py:229-309 | the listing names each node once and only the nodes, with percentages in range and sorted, balanced pairs |
| Network.NetworkFacts | aggregations/network_graph.py:47-309 | the graph of the filtered rows lists every player who appears once and nobody else, every pair as a sorted pair, and every count within its bounds |
| Network.UpdateNodes | aggregations/network_graph.py:108-212 | the node part of the loop body is one node step |
| Network.UpdateEdges | aggregations/network_graph.py:214-227 | the edge part of the loop body is one edge step |
| Network.ListNodes | aggregations/network_graph.py:229-272 | the node loop produces exactly the node rows |
| Network.ListEdges | aggregations/network_graph.py:274-293 | the edge loop produces exactly the edge rows |
| Network.AfterSnoc | aggregations/network_graph.py:98-227 | the nodes and edges after one more row are one step from those before it |
| Network.BuildGraph | aggregations/network_graph.py:98-227 | fails exactly when a kept row misses a name (see Left out for a row missing both); otherwise the loop yields the nodes and edges of the filtered rows |
| Network.BuildNetworkData | aggregations/network_graph.py:47-309 | fails exactly when no row is kept or a kept row misses a name (see Left out for a row missing both); otherwise the listing of the graph of the filtered rows |
| Longevity.Side | aggregations/career_longevity.py:33-41 | one side of a row is kept exactly when its player id is present and its date parses, and keeps that id and date |
| Longevity.Sides | aggregations/career_longevity.py:33-41 | the kept sides are no more than the rows and all have parsed dates |
| Longevity.Appearances | aggregations/career_longevity.py:40-41 | every appearance has a parsed date |
| Longevity.SidesCount | aggregations/career_longevity.py:33-41 | a player's kept appearances on one side are exactly their rows on that side whose date parses |
| Longevity.PlayerIds | aggregations/career_longevity.py:48 | the grouped ids are strictly increasing and are exactly the ids with an appearance |
| Longevity.PresentNames | aggregations/career_longevity.py:49 | exactly the names present among the player's appearances |
| Longevity.PresentRanks | aggregations/career_longevity.py:59 | exactly the rankings present among the player's appearances |
| Longevity.Earliest | aggregations/career_longevity.py:51 | the smallest date of the player's appearances, attained by one of them |
| Longevity.Latest | aggregations/career_longevity.py:52 | the largest date of the player's appearances, attained by one of them |
| Longevity.BestRank | aggregations/career_longevity.py:59-77 | the smallest present ranking when it is below 999, missing exactly when no present ranking is below 999 |
| Longevity.Career | aggregations/career_longevity.py:48-78 | fails exactly when no appearance carries a name (where `mode()[0]` raises); otherwise the id, matches, wins and losses, a non-negative length that is 0 exactly for one date, and a win percentage in 0..100 |
| Longevity.RecordFacts | aggregations/career_longevity.py:49-59 | the name is the most frequent present name (the smallest among ties), start and end bound every appearance, the length is the day difference over 365.25, the best rank as above |
| Longevity.RecordOf | aggregations/career_longevity.py:48-78 | for one grouped id: fails exactly when no appearance is named; wins and losses count the table's rows with that id as winner and as loser |
| Longevity.MatchesCovered | aggregations/career_longevity.py:56-64 | every appearance is a win or a loss, so wins + losses is at least the matches and the zero guard never fires |
| Longevity.CareerStats | aggregations/career_longevity.py:18-86 | one record per grouped id in increasing id order, each the group's record, with non-negative lengths; fails exactly when no appearance is left or some group has no name |
| Longevity.Remaining | aggregations/career_longevity.py:105 | the players whose careers reach the threshold, never more than all players |
| Longevity.SurvivalData | aggregations/career_longevity.py:89-120 | one point per threshold in order, with the players remaining and their percentage of all players |
| Longevity.SurvivalFalls | aggregations/career_longevity.py:99-106 | along the increasing thresholds the players remaining and their percentage never rise |
| Longevity.SurvivalStartsFull | aggregations/career_longevity.py:99-106 | at threshold 0 every player remains, 100 percent of a non-empty table |
| Longevity.ExactlyOneBand | aggregations/career_longevity.py:129-166 | half-open bands between increasing cuts hold every value in exactly one band |
| Longevity.BandCount | aggregations/career_longevity.py:132-162 | a band count never exceeds the number of players |
| Longevity.CountsFromAbove | aggregations/career_longevity.py:132-162 | the bands from one band up hold exactly the values reaching it |
| Longevity.BandsCover | aggregations/career_longevity.py:129-166 | the band counts add up to the number of players |
| Longevity.PercentAdd | aggregations/career_longevity.py:171 | shares of one total add like their counts |
| Longevity.PercentsAdd | aggregations/career_longevity.py:168-172 | the percentages of the bands from one up are the percentage of their total count |
| Longevity.PercentsWhole | aggregations/career_longevity.py:168-172 | for a non-empty table the band percentages add up to 100 |
| Longevity.Lengths | aggregations/career_longevity.py:132 | one career length per player |
| Longevity.CareerCategories | aggregations/career_longevity.py:123-175 | the six bands with their keys, labels, bounds, counts and percentages; the counts add up to the players and, for any players, the percentages to 100 |
| Longevity.Volumes | aggregations/career_longevity.py:201 | one match total per player |
| Longevity.MatchVolumeStats | aggregations/career_longevity.py:194-228 | the five bands with their keys, labels, counts and percentages; the counts add up to the players and, for any players, the percentages to 100 |
| Longevity.LongestCareers | aggregations/career_longevity.py:178-191 | at most `top_n` players, a permutation of the table sorted longest first with ties in table order, and nobody left out is longer than anyone kept |
| GlobalEvolution.YearsFrom | aggregations/global_evolution.py:55 | `range(start, stop, 5)`: the years start, start + 5, … below stop, and none missing before stop |
| GlobalEvolution.AnalysisYears | aggregations/global_evolution.py:16-17 | the analysed years increase strictly from 1975 and stay below the current year |
| GlobalEvolution.CountryMapping | aggregations/global_evolution.py:43-48 | maps exactly the present winner country codes, each to itself |
| GlobalEvolution.NamesSnoc | aggregations/global_evolution.py:72 | one more row adds its winner's name to the set of names |
| GlobalEvolution.TallyFacts | aggregations/global_evolution.py:58-75 | as intended: a country's entry holds every winner name, the smallest present ranking (missing only when none is present), and the name on the first row holding it |
| GlobalEvolution.NanFirstRankSticks | aggregations/global_evolution.py:66-75 | as written: when the first row of a country lacks a ranking, its best rank stays missing and its top player stays that row's winner |
| GlobalEvolution.AsWrittenAgrees | aggregations/global_evolution.py:66-75 | when the first row has a ranking, the update as written and as intended give the same entry |
| GlobalEvolution.NanFirstRankExample | aggregations/global_evolution.py:66-87 | an unranked winner then a winner ranked 3: reported as written with top rank 100 and no top-10 flag, as intended with rank 3 and the flag |
| GlobalEvolution.CountryStats | aggregations/global_evolution.py:58-75 | the row loop yields the per-country entries of the year's rows, with the intended best-rank update (see Findings) |
| GlobalEvolution.StatsPerCountry | aggregations/global_evolution.py:58-75 | a country has an entry exactly when it has a row, and the entry is the intended tally of its rows (see Findings) |
| GlobalEvolution.CountryRowsExist | aggregations/global_evolution.py:59-64 | a country's rows are non-empty exactly when some row carries its code |
| GlobalEvolution.ProfileOf | aggregations/global_evolution.py:81-87 | the names counted, the top-10 flag exactly for a best rank of 10 or better, the best rank or 100 when missing |
| GlobalEvolution.ProfileFacts | aggregations/global_evolution.py:58-87 | a country's profile counts its distinct winner names, flags the top 10 exactly when one of its winners was ranked 10 or better, and reports their best ranking, 100 when none; the flag and the best ranking are the intended ones (see Findings) |
| GlobalEvolution.AddYearOk | aggregations/global_evolution.py:77-87 | adding one year keeps the profiles equal to those of the intended tallies of every year added |
| GlobalEvolution.CountryProfiles | aggregations/global_evolution.py:52-87 | a country has a profile for an analysed year exactly when it had a winner that year, and the profile is that of that year's intended tally (see Findings) |
| GlobalEvolution.CountriesSnoc | aggregations/global_evolution.py:98-103 | one more row adds its own country, and to the top-10 list only when its winner is ranked 10 or better |
| GlobalEvolution.YearCountries | aggregations/global_evolution.py:95-108 | the sorted countries with a winner that year and the sorted countries with a top-10 winner |
| GlobalEvolution.Timeline | aggregations/global_evolution.py:91-116 | per analysed year the two sorted country lists (top 10 within the first), their sizes, and the number of distinct winner names |
| GlobalEvolution.CountriesIn | aggregations/global_evolution.py:124-127 | exactly the countries with a profile for the year |
| GlobalEvolution.TimelineJs | aggregations/global_evolution.py:121-128 | per analysed year the countries with a profile that year, each with that profile |
| GlobalEvolution.TimelinesAgree | aggregations/global_evolution.py:93-128 | the countries of a year's JS timeline are exactly that year's countries with a winner, each with the profile of its winners under the intended tally |
| GlobalEvolution.ProfileOfYear | aggregations/global_evolution.py:77-87 | a profile for an analysed year is present exactly when that year's tally has the country |
| GlobalEvolution.YearsOf | aggregations/global_evolution.py:39 | one year per row |
| GlobalEvolution.Lowest | aggregations/global_evolution.py:142 | the first year a player won, attained by one of the rows |
| GlobalEvolution.Highest | aggregations/global_evolution.py:143 | the last year a player won, attained by one of the rows |
| GlobalEvolution.Span | aggregations/global_evolution.py:148 | the consecutive years from first to last |
| GlobalEvolution.Entry | aggregations/global_evolution.py:145-151 | the titles count the wins, the active years run consecutively over every winning year, and the peak is the most frequent year, the earliest among ties |
| GlobalEvolution.Winners | aggregations/global_evolution.py:136 | the distinct present winner names, exactly those with a win |
| GlobalEvolution.TopPlayersTimeline | aggregations/global_evolution.py:132-152 | at most 50 players, a permutation of the winners ordered by wins (most first), each with their entry, and nobody left out has more wins than anyone kept |
| IndianPlayers.RoundRank | aggregations/indian_players.py:78 | a known round's place in R128 … W counted from 1, and 0 exactly for any other round |
| IndianPlayers.Sides | aggregations/indian_players.py:85-86 | the country's winner (or loser) sides, each taken from a row where the country is on that side |
| IndianPlayers.SidesCount | aggregations/indian_players.py:85-145 | a player's appearances on one side are exactly the country's rows with that player on that side |
| IndianPlayers.MatchesAreWinsPlusLosses | aggregations/indian_players.py:108-160 | a player's matches played are their wins plus their losses |
| IndianPlayers.PlayerIds | aggregations/indian_players.py:91 | the distinct ids of the appearances, exactly those present |
| IndianPlayers.BestIndex | aggregations/indian_players.py:30-35 | the first row reaching the highest known round, none exactly when no round is known |
| IndianPlayers.BestPerformance | aggregations/indian_players.py:24-36 | (None, None) exactly when no row has a known round; otherwise the round and event of the first row reaching the highest round |
| IndianPlayers.EachYear | aggregations/indian_players.py:95-127 | one entry per given year with a known round, each that year's best performance |
| IndianPlayers.YearsOf | aggregations/indian_players.py:121 | exactly the years of the appearances |
| IndianPlayers.LowestRank | aggregations/indian_players.py:111 | the smallest present ranking, missing exactly when none is present |
| IndianPlayers.PlayerName | aggregations/indian_players.py:176 | the first present name of the player's appearances, missing only when none has one |
| IndianPlayers.SummaryNameDropped | aggregations/indian_players.py:176 | as written the summary name is missing even for a player whose first appearance carries a name |
| IndianPlayers.DistinctYears | aggregations/indian_players.py:121 | the sorted distinct years of the appearances, empty exactly without appearances |
| IndianPlayers.BestRank | aggregations/indian_players.py:111-169 | the lowest ranking when it is below 9999, missing exactly when no present ranking is below 9999 |
| IndianPlayers.Summarize | aggregations/indian_players.py:120-190 | the sorted distinct years with their count and ends, matches played, wins and losses, a win percentage in 0..100 (0 without matches), the best performances and best rank; the name is the intended one (see Findings) |
| IndianPlayers.Top100Wins | aggregations/indian_players.py:147-150 | wins over opponents ranked 100 or better are among the wins |
| IndianPlayers.SummaryCounts | aggregations/indian_players.py:108-184 | in every summary matches played are wins plus losses, top-100 wins are among the wins, and the percentage lies in 0..100 |
| IndianPlayers.PlayersSummary | aggregations/indian_players.py:113-190 | one summary per player id, a permutation of the ids, most matches played first; names are the intended ones (see Findings) |
| IndianPlayers.Collect | aggregations/indian_players.py:114 | one result per id, in id order |
| IndianPlayers.TableYears | aggregations/indian_players.py:198 | the sorted distinct years of the table |
| IndianPlayers.Ratio | aggregations/indian_players.py:204 | 0 when the whole is 0, otherwise a share in [0, 1] of a part within its whole |
| IndianPlayers.SubsetCard | aggregations/indian_players.py:202-203 | a subset has no more ids than its superset |
| IndianPlayers.IdsSubset | aggregations/indian_players.py:202-203 | the ids of the country's rows of a year are among the ids of all that year's rows |
| IndianPlayers.PointBounds | aggregations/indian_players.py:200-204 | the country's players of a year are among all the year's players, and for a year of the table the ratio is their plain quotient in [0, 1] |
| IndianPlayers.TableYearGuarded | aggregations/indian_players.py:198-204 | every year of the table gives a point whose ratio is the plain quotient, in [0, 1] |
| IndianPlayers.TimeSeries | aggregations/indian_players.py:197-204 | one point per year of the table in order, none of them hitting the zero guard |
| IndianPlayers.WinsAndLosses | aggregations/indian_players.py:324-327 | over rows naming the player, wins plus losses count every row once and the rows naming the player on both sides twice |
| IndianPlayers.Top50Of | aggregations/indian_players.py:319-341 | the matches against opponents ranked 50 or better with their wins and losses, and the upsets over the top 10, earliest first, each naming the beaten opponent |
| IndianPlayers.IdHasMatches | aggregations/indian_players.py:319-321 | every player id has a country match naming it, so the skip never fires |
| IndianPlayers.HeadToHeadTop50 | aggregations/indian_players.py:316-341 | one entry per player id in id order: its matches against the top 50, the wins and the losses among them each counted over those matches, and as upsets the wins over a top-10 opponent, each taken once and ordered by date; the name is the intended one (see Findings) |
| IndianPlayers.SurfaceStatOf | aggregations/indian_players.py:351-357 | wins within matches on the surface, and the percentage 0 for no match and otherwise their quotient times 100 |
| IndianPlayers.SurfacePerformanceByPlayer | aggregations/indian_players.py:347-358 | one entry per player id in id order, each with its record on Hard, Clay and Grass; the name is the intended one (see Findings) |
| LegacyEtl.Margins | etl_pipeline.py:64-83 | a margin for each set token whose games parse, in token order, never more margins than tokens |
| LegacyEtl.MarginsSnoc | etl_pipeline.py:64-83 | one more token adds its margin when it parses and one tie-break when it holds a `(` |
| LegacyEtl.TiebreakTokens | etl_pipeline.py:65-66 | the tie-break count never exceeds the number of tokens |
| LegacyEtl.NbiOf | etl_pipeline.py:49-104 | the Nailbiter Index lies between 0 and 1.3 |
| LegacyEtl.CloseIff | etl_pipeline.py:88-94 | the average margin is at most two exactly when the margins sum to at most twice their number |
| LegacyEtl.AtMostTwice | etl_pipeline.py:93 | a quotient by a positive number is at most two exactly when the dividend is at most twice the divisor |
| LegacyEtl.OneWord | etl_pipeline.py:56 | a text without whitespace splits into at most one token |
| LegacyEtl.MissingScoreIsZero | etl_pipeline.py:52-58 | a missing score reads "nan", one token, so its index is 0 whatever the duration |
| LegacyEtl.NbiKept | etl_pipeline.py:56-102 | the index exceeds 0.5 exactly when three or more tokens with a parsable set show a close average plus another sign of drama, or two tie-breaks in four or more sets |
| LegacyEtl.ParseSet | etl_pipeline.py:65-83 | the margin a token gives, if any, and whether it is a tie-break, equal to the token-level specification |
| LegacyEtl.ScanSets | etl_pipeline.py:61-83 | the loop collects exactly the parsable margins and the tie-break count |
| LegacyEtl.CalculateNbi | etl_pipeline.py:49-104 | the index computed step by step equals the specification `NbiOf` |
| LegacyEtl.Rated | etl_pipeline.py:122 | one rated row per candidate |
| LegacyEtl.KeptRows | etl_pipeline.py:110-123 | a kept row is exactly a Grand Slam match of best of five or more lasting 180 minutes or more whose index exceeds 0.5, with that index |
| LegacyEtl.ReportFacts | etl_pipeline.py:150-168 | a reported match scores above 50 and at most 130 on the scaled index, has the comeback flag exactly for four or more tokens, and without it had a close average margin |
| LegacyEtl.RateAll | etl_pipeline.py:122 | the loop rates every candidate with its index |
| LegacyEtl.GenerateNailbiters | etl_pipeline.py:106-170 | the kept rows reordered by non-increasing index, cut to a hundred, and a report entry for each of the first fifty |
| LegacyEtl.ReportAll | etl_pipeline.py:150-170 | one report entry for each of the first fifty rows, in order |
| LegacyEtl.RowKeys | etl_pipeline.py:190-195 | a campaign appears exactly when some row carries that winner, tournament and year |
| LegacyEtl.GroupKeys | etl_pipeline.py:195 | the group keys are strictly increasing and are exactly the keys of the rows |
| LegacyEtl.MinutesOf | etl_pipeline.py:210 | one duration per row of the group |
| LegacyEtl.SpeedScore | etl_pipeline.py:210-211 | the speed score is never negative, 0 with no known duration, at most 100 for an hour or more and above 100 under an hour |
| LegacyEtl.TwoThirds | etl_pipeline.py:199-204 | two sets won of every three give a set share of two thirds |
| LegacyEtl.RunOf | etl_pipeline.py:199-243 | a run's record names its campaign, counts two sets won and one lost per match, has fixed set, game and point shares, is never perfect, and scores 56.75 plus 0.15 of the speed score |
| LegacyEtl.FasterRanksHigher | etl_pipeline.py:207-219 | a shorter known average duration scores at least as high, every run scores at least 56.75, and a run with no known duration scores exactly that |
| LegacyEtl.Runs | etl_pipeline.py:195-197 | no more records than group keys |
| LegacyEtl.RunsListed | etl_pipeline.py:195-243 | each record is the record of a listed key with three or more rows, and each such key has its record |
| LegacyEtl.RunsAreCampaigns | etl_pipeline.py:186-197 | a player, tournament and year has a record exactly when three or more Grand Slam rows were won by that player there that year |
| LegacyEtl.RunsSnoc | etl_pipeline.py:195-243 | one more key adds its record when its group has three or more rows |
| LegacyEtl.CollectRuns | etl_pipeline.py:193-243 | the loop over the groups yields exactly the specified records |
| LegacyEtl.GenerateDominanceRankings | etl_pipeline.py:182-252 | the records of the groups stably sorted by score, largest first, and the first hundred of them numbered from 1 |
| LegacyEtl.NumberRuns | etl_pipeline.py:247-248 | the first hundred records numbered 1, 2, 3 and so on, in order |
| LegacyEtl.WinnerTrackWf | etl_pipeline.py:272-298 | the tally map and its insertion order stay consistent |
| LegacyEtl.WinnerFacts | etl_pipeline.py:274-298 | a player has an entry exactly when they won a row; it is dated by the first win, counts wins as matches, counts Grand Slam final wins as titles, and dates and ages the first of them |
| LegacyEtl.PioneerOf | etl_pipeline.py:303-329 | the row of a champion counts their earlier matches capped at 1000, puts turning pro ten years before the first title, and shows 100 percent wins when all counted matches are wins |
| LegacyEtl.PioneersFrom | etl_pipeline.py:301-329 | every row belongs to a listed eligible player and every listed eligible player has a row |
| LegacyEtl.PioneersDistinct | etl_pipeline.py:302-329 | rows built from distinct names name distinct players |
| LegacyEtl.PioneersAreChampions | etl_pipeline.py:262-329 | a player has a row exactly when their first Grand Slam final win carries a non-zero date, and no player has two rows |
| LegacyEtl.PioneerCounts | etl_pipeline.py:290-323 | each row shows the player's wins as their matches, a win percentage of 100, and a positive count of Grand Slam final wins as titles |
| LegacyEtl.TrackWinners | etl_pipeline.py:272-298 | the loop fills the tallies and their order exactly as the specification `WinnerTrack` |
| LegacyEtl.GenerateBreakthroughComparison | etl_pipeline.py:256-336 | nothing without a Grand Slam final; otherwise the champions' rows stably sorted by earlier matches, largest first, cut to fifty |
| LegacyEtl.PioneersSnoc | etl_pipeline.py:302-329 | one more name adds its row when the player is eligible |
| LegacyEtl.CollectPioneers | etl_pipeline.py:301-329 | the second loop, counting earlier matches by a nested loop, yields exactly the specified rows |
| Matches.YearOf | aggregations/shared_utils.py:249 | the leading four digits of the date: never more than the date, the date itself below 10000, and a four-digit year for any date from 1000 on |
| Text.PyInt | etl_pipeline.py:72 | `int()` accepts exactly a non-empty text of an optional sign followed by digits (single underscores allowed between digits) |
| Text.SplitWhitespace | etl_pipeline.py:55 | `split()` yields non-empty tokens free of whitespace, breaking on every character `str.isspace()` accepts |
| Text.SplitLayout | etl_pipeline.py:55 | the text is its tokens with whitespace before, between and after them, a non-empty run between two tokens |
| Text.SplitInterleave | etl_pipeline.py:55 | splitting words laid out with such whitespace gives back exactly those words, so the tokens are the maximal non-whitespace runs |
| Numeric.MeanPresent | etl_pipeline.py:210 | the mean that skips missing values is missing exactly when every value is missing |
| Ordering.SortedDistinct | aggregations/gsdi.py:43 | the keys `groupby` visits: strictly increasing and exactly the values present |
| Ordering.StableSortDescending | aggregations/gsdi.py:155 | `sort(key=..., reverse=True)`: a permutation of the input with non-increasing keys, equal keys keeping their input order |
| Ordering.Mode | aggregations/global_evolution.py:150 | `mode()[0]`: the most frequent value, the least of equally frequent ones, missing exactly for no values |
| Dates.DayNumberOrder | aggregations/career_longevity.py:53 | `(end - start).days` for dates in order is never negative and is 0 exactly for the same date |
| Nailbiter.Finalize | aggregations/nbi.py:228-232 | every row keeps its scored match, gains the index rescaled against the best and the drama tags of its features |

## Left out

- Rounding: the model leaves out every `round(x, n)` applied to an output value. Results are exact reals.
- Floating point: the model uses exact reals instead of IEEE doubles.
- Input and output: the model does not read Parquet or CSV, write JSON or CSV, create directories or print. Fetching the data over the network (`TennisETL.fetch_data`) is not part of the model. Neither are the `save_*`/`generate_*` wrappers, the `__main__` blocks or `TennisETL.run`.
- Placeholder outputs: the model leaves out output columns that hold constants. These are the Shannon indices (aggregations/global_evolution.py:113-115), the fixed columns of aggregations/stantheman.py:118-123 and the fixed columns of etl_pipeline.py:136-140, 160-167, 230, 233 and 322-327.
- Current year: `datetime.now().year` is a parameter of the global-evolution functions.
- Pre-filtered tables: the year filter each script applies before its core (`start_year` and the like) is left to the caller. The tables passed in are already filtered.
- Non-ASCII digits: `int()` and the `\d` of the score pattern accept any Unicode decimal digit. The model accepts only ASCII digits.
- Text.UpperAscii: upper-cases ASCII letters only. Python's `str.upper()` (aggregations/shared_utils.py:99) also maps other letters, some of them to ASCII (the ligature "ﬁ" becomes "FI", so "deﬁ" reads as a default marker there). Unicode case mapping is not modelled.
- Network.BuildGraph: a kept row missing both names is modelled as a failure. The source does not raise there: `sorted` compares two NaNs without error (aggregations/network_graph.py:215). It goes on with a NaN-keyed node and a (NaN, NaN) edge. Whether later NaNs hit the same dictionary entry depends on whether pandas hands back the same NaN object, so the model does not say what the source builds then.
- Network.BuildNetworkData: fails on a kept row missing both names, for the reason given for BuildGraph.
- LegacyEtl.RunOf: assumes the table has a `minutes` column. The fallback of 120 minutes for a table without one (etl_pipeline.py:210) is not modelled; a row's missing minutes are.
- Outer `except`: the outer `except` of `calculate_nbi` (etl_pipeline.py:103-104) is not modelled. With typed cells, nothing in its body raises.
- ETL global evolution: `generate_global_top100_evolution` (etl_pipeline.py:343-459) is not part of this model. It repeats, in an older form, the computation that aggregations/global_evolution.py performs, and that file is modelled.
- Career summary: the summary statistics of aggregations/career_longevity.py (means, medians and shares, around lines 263-280) are not part of this model. They are arithmetic on columns the model already produces.
- Other country datasets: these outputs of aggregations/indian_players.py are not part of this model:
  - win/loss by year (210-221);
  - participation by level (224-244);
  - sample matches (247-254);
  - notable players (257-260);
  - milestones (263-313);
  - yearly rank trajectory (363-375);
  - career lengths (377-390);
  - the 1990 subset files (393-473).

  They are regroupings of the same rows. The model covers the per-player counting, the best performances, the time series, the top-50 head-to-head and the surface performance.
- Nailbiter.CalculateNbi: promises a permutation of the cohort with non-increasing present indices, missing indices last. It does not promise the order among equal indices. `sort_values` uses an unstable sort, so the source does not fix that order.
- LegacyEtl.GenerateNailbiters: promises a reordering with non-increasing indices, cut to one hundred. For the same reason as above, it does not say which of several equal indices come first.
- LegacyEtl.GenerateDominanceRankings: sorts on the unrounded dominance score. The source sorts on the score rounded to two places (etl_pipeline.py:225, 246), so runs within 0.005 of each other may come out in another order.
- Dominance.CalculateGsdi: sorts on the unrounded dominance score. The source sorts on the score rounded to two places (aggregations/gsdi.py:132, 155).
- Summaries.WinPercentage: returns the exact quotient times 100, without rounding to two places.
- Longevity.CareerCategories: bands the exact career length in years. The source bands the length rounded to two places (aggregations/career_longevity.py:72), so a length just under a cut can fall in the next band in the source.
- Longevity.SurvivalData: compares the exact career length in years against each threshold, not the length rounded to two places.
- Longevity.LongestCareers: orders by the exact length and keeps table order among ties, as `nlargest` does. It does not model ties that arise only after rounding.
- GlobalEvolution.TopPlayersTimeline: promises non-increasing win counts and that nobody left out has more wins than a listed player. It does not promise the order among equal counts, which `value_counts` does not fix.
- GlobalEvolution.CountryStats: runs the intended best-rank update (first row in Findings). The source keeps a missing first rank, so for a year whose first row for a country is unranked it reports best rank 100, no top-10 flag and that first winner. GlobalEvolution.NanFirstRankSticks and GlobalEvolution.AsWrittenAgrees relate the two: they agree whenever the first row carries a rank.
- GlobalEvolution.StatsPerCountry: equates each entry with the intended tally, for the reason given for CountryStats.
- GlobalEvolution.ProfileFacts: states the intended best rank and top-10 flag, for the reason given for CountryStats.
- GlobalEvolution.AddYearOk: keeps the profiles equal to the intended tallies, for the reason given for CountryStats.
- GlobalEvolution.CountryProfiles: yields the intended profiles. On the input of the first Findings row it reports 3, the top-10 flag and "B" where the source reports 100, no flag and "A".
- GlobalEvolution.TimelinesAgree: ties the JS timeline to the intended profiles, for the reason given for CountryStats.
- IndianPlayers.Summarize: gives each summary the intended name (second row in Findings). The source gives None for every player.
- IndianPlayers.HeadToHeadTop50: gives each entry the intended name. The source copies None from the summaries (aggregations/indian_players.py:336).
- IndianPlayers.SurfacePerformanceByPlayer: gives each entry the intended name. The source copies None from the summaries (aggregations/indian_players.py:353).
- IndianPlayers.PlayersSummary: carries the intended names of Summarize. It also sorts stably by `matches_played`, largest first. It does not model the secondary ascending sort by `best_rank` (aggregations/indian_players.py:173).

## Findings

| source | as written | input that shows it | evidently intended | confidence | as-written member | corrected member |
|---|---|---|---|---|---|---|
| aggregations/global_evolution.py:66-75 | a country's best rank starts as the first row's `winner_rank`; when that is NaN, `x < NaN` is always false, so the best rank and top player never change for that year | two rows of one year for country ESP: winner "A" unranked, then winner "B" ranked 3 | the smallest present rank (3, held by "B"), with the top-10 flag set | not executed | GlobalEvolution.NanFirstRankExample | GlobalEvolution.TallyFacts |
| aggregations/indian_players.py:176 | `row.get('name')` reads a column the summary frame does not have, so every `players_summary` name is None, and so is every name the later datasets copy from it | any country player with at least one named appearance | a name taken from the player's appearances; the corrected model takes the first appearance that carries one | not executed | IndianPlayers.SummaryNameDropped | IndianPlayers.PlayerName |
