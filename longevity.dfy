/**
 * aggregations/career_longevity.py: one career record per player id (first and last match
 * dates, length, matches, wins, losses, best ranking), the survival curve over a fixed list
 * of year thresholds, the six career-length and five match-volume categories with their
 * percentages, and the longest careers.
 */
module Longevity {
  import opened Wrappers
  import opened Matches
  import opened Ordering
  import opened Numeric
  import opened Dates
  import Summaries

  // ---------------------------------------------------------------------------------------
  // Appearances
  // ---------------------------------------------------------------------------------------

  /** One row of `all_player_data`: one player's side of one match. */
  datatype Appearance = Appearance(id: int, name: Option<string>, date: nat, rank: Option<int>)

  /**
   * The winner's (or loser's) side of a row, dropped (`dropna`) when the id is missing or
   * the date does not parse.
   */
  function Side(m: Match, winner: bool): (a: Option<Appearance>)
    ensures a.Some? ==> ValidDate(a.value.date) && a.value.date == m.tourneyDate
    ensures a.Some? <==> (if winner then m.winnerId else m.loserId).Some? && ValidDate(m.tourneyDate)
    ensures a.Some? ==> Some(a.value.id) == (if winner then m.winnerId else m.loserId)
  {
    var id := if winner then m.winnerId else m.loserId;
    if id.Some? && ValidDate(m.tourneyDate) then
      Some(Appearance(id.value, if winner then m.winnerName else m.loserName,
                      m.tourneyDate, if winner then m.winnerRank else m.loserRank))
    else None
  }

  /** The kept sides of every row, in row order. */
  function Sides(df: seq<Match>, winner: bool): (r: seq<Appearance>)
    ensures |r| <= |df|
    ensures forall k :: 0 <= k < |r| ==> ValidDate(r[k].date)
  {
    if |df| == 0 then []
    else
      var init := Sides(df[..|df| - 1], winner);
      var a := Side(df[|df| - 1], winner);
      if a.Some? then init + [a.value] else init
  }

  /** `pd.concat([winner_data, loser_data]).dropna(subset=['player_id', 'tourney_date'])`. */
  function Appearances(df: seq<Match>): (r: seq<Appearance>)
    ensures forall k :: 0 <= k < |r| ==> ValidDate(r[k].date)
  {
    Sides(df, true) + Sides(df, false)
  }

  /** The rows a player id has as winner (or loser), whether or not their date parses. */
  predicate OnSide(m: Match, winner: bool, id: int)
  {
    (if winner then m.winnerId else m.loserId) == Some(id)
  }

  /** The sides kept for `id` are its rows on that side whose date parses. */
  lemma {:induction false} SidesCount(df: seq<Match>, winner: bool, id: int)
    ensures Count(Sides(df, winner), (a: Appearance) => a.id == id)
            == Count(df, m => OnSide(m, winner, id) && ValidDate(m.tourneyDate))
  {
    if |df| > 0 {
      var init, m := df[..|df| - 1], df[|df| - 1];
      assert df == init + [m];
      SidesCount(init, winner, id);
      CountSnoc(init, m, m => OnSide(m, winner, id) && ValidDate(m.tourneyDate));
      var a := Side(m, winner);
      if a.Some? {
        CountSnoc(Sides(init, winner), a.value, (a: Appearance) => a.id == id);
      }
    }
  }

  /** The appearances of one player id. */
  function PlayerRows(apps: seq<Appearance>, id: int): seq<Appearance>
  {
    Filter(apps, (a: Appearance) => a.id == id)
  }

  predicate Appears(df: seq<Match>, id: int)
  {
    exists a :: a in Appearances(df) && a.id == id
  }

  /** The ids `groupby('player_id')` visits, in increasing order. */
  function PlayerIds(df: seq<Match>): (r: seq<int>)
    ensures forall i, j :: 0 <= i < j < |r| ==> r[i] < r[j]
    ensures forall id :: id in r <==> Appears(df, id)
  {
    var apps := Appearances(df);
    var ids := seq(|apps|, k requires 0 <= k < |apps| => apps[k].id);
    IntLtStrictTotal();
    var r := SortedDistinct(ids, (a: int, b: int) => a < b);
    assert forall id :: id in ids <==> Appears(df, id) by {
      forall id ensures id in ids <==> Appears(df, id) {
        if id in ids {
          var k :| 0 <= k < |ids| && ids[k] == id;
          assert apps[k] in apps;
        }
        if Appears(df, id) {
          var a :| a in apps && a.id == id;
          var k :| 0 <= k < |apps| && apps[k] == a;
          assert ids[k] == id;
        }
      }
    }
    r
  }

  /** The names present among a player's appearances. */
  function PresentNames(rows: seq<Appearance>): (r: seq<string>)
    ensures forall x :: x in r <==> exists k :: 0 <= k < |rows| && rows[k].name == Some(x)
  {
    if |rows| == 0 then []
    else
      var init := PresentNames(rows[..|rows| - 1]);
      var last := rows[|rows| - 1];
      assert forall k :: 0 <= k < |rows| - 1 ==> rows[..|rows| - 1][k] == rows[k];
      if last.name.Some? then init + [last.name.value] else init
  }

  /** The ranks present among a player's appearances. */
  function PresentRanks(rows: seq<Appearance>): (r: seq<int>)
    ensures forall x :: x in r <==> exists k :: 0 <= k < |rows| && rows[k].rank == Some(x)
  {
    if |rows| == 0 then []
    else
      var init := PresentRanks(rows[..|rows| - 1]);
      var last := rows[|rows| - 1];
      assert forall k :: 0 <= k < |rows| - 1 ==> rows[..|rows| - 1][k] == rows[k];
      if last.rank.Some? then init + [last.rank.value] else init
  }

  // ---------------------------------------------------------------------------------------
  // Career records
  // ---------------------------------------------------------------------------------------

  /** `tourney_date.min()`. */
  function Earliest(rows: seq<Appearance>): (d: nat)
    requires |rows| > 0
    ensures exists k :: 0 <= k < |rows| && rows[k].date == d
    ensures forall k :: 0 <= k < |rows| ==> d <= rows[k].date
  {
    if |rows| == 1 then rows[0].date
    else
      var init := rows[..|rows| - 1];
      var d := Earliest(init);
      assert forall k :: 0 <= k < |init| ==> init[k] == rows[k];
      if rows[|rows| - 1].date < d then rows[|rows| - 1].date else d
  }

  /** `tourney_date.max()`. */
  function Latest(rows: seq<Appearance>): (d: nat)
    requires |rows| > 0
    ensures exists k :: 0 <= k < |rows| && rows[k].date == d
    ensures forall k :: 0 <= k < |rows| ==> rows[k].date <= d
  {
    if |rows| == 1 then rows[0].date
    else
      var init := rows[..|rows| - 1];
      var d := Latest(init);
      assert forall k :: 0 <= k < |init| ==> init[k] == rows[k];
      if rows[|rows| - 1].date > d then rows[|rows| - 1].date else d
  }

  /** The 999 sentinel `best_rank` takes when no ranking is present. */
  const NoBestRank := 999

  /** A player's entry of `career_stats`. */
  datatype CareerRecord = CareerRecord(
    playerId: int, playerName: string,
    careerStart: nat, careerEnd: nat, careerLengthDays: int, careerLengthYears: real,
    totalMatches: nat, wins: nat, losses: nat, winPct: real, bestRank: Option<int>)

  /** The rows naming `id` as winner (or loser), counted over the whole table. */
  function SideCount(df: seq<Match>, winner: bool, id: int): nat
  {
    Count(df, m => OnSide(m, winner, id))
  }

  /** The best ranking among present ones, or the 999 sentinel. */
  function BestRank(rows: seq<Appearance>): (r: Option<int>)
    ensures r.Some? ==> r.value < NoBestRank
    ensures r.Some? ==> exists k :: 0 <= k < |rows| && rows[k].rank == r
    ensures r.Some? ==> forall k :: 0 <= k < |rows| && rows[k].rank.Some? ==> r.value <= rows[k].rank.value
    ensures r.None? <==> forall k :: 0 <= k < |rows| && rows[k].rank.Some? ==> rows[k].rank.value >= NoBestRank
  {
    var ranks := PresentRanks(rows);
    var best := Summaries.MinFrom(NoBestRank, ranks);
    assert forall k :: 0 <= k < |rows| && rows[k].rank.Some? ==> rows[k].rank.value in ranks;
    if best < NoBestRank then Some(best) else None
  }

  /**
   * The body of the `groupby('player_id')` loop for one player's appearances and the
   * player's win and loss counts; `None` when no appearance carries a name, where
   * `mode()[0]` raises.
   */
  function Career(id: int, rows: seq<Appearance>, wins: nat, losses: nat): (r: Option<CareerRecord>)
    requires |rows| > 0 && forall k :: 0 <= k < |rows| ==> ValidDate(rows[k].date)
    ensures r.None? <==> forall k :: 0 <= k < |rows| ==> rows[k].name.None?
    ensures r.Some? ==> r.value.playerId == id && r.value.totalMatches == |rows|
                        && r.value.wins == wins && r.value.losses == losses
    ensures r.Some? ==> r.value.careerStart <= r.value.careerEnd
                        && 0 <= r.value.careerLengthDays && 0.0 <= r.value.careerLengthYears
                        && (r.value.careerLengthDays == 0 <==> r.value.careerStart == r.value.careerEnd)
    ensures r.Some? ==> 0.0 <= r.value.winPct <= 100.0
  {
    var names := PresentNames(rows);
    StrLtStrictTotal();
    var name := Mode(names, StrLt);
    if name.None? then
      None
    else
      var start, end := Earliest(rows), Latest(rows);
      DayNumberOrder(start, end);
      var days := DayNumber(end) - DayNumber(start);
      Some(CareerRecord(id, name.value, start, end, days, days as real / 365.25, |rows|,
                        wins, losses, Percent(wins as real, (wins + losses) as real), BestRank(rows)))
  }

  /**
   * What a record says about the player's appearances: the name is their most frequent
   * present name, the start and end are the earliest and latest parsed dates, the length is
   * the day difference in years of 365.25 days, and the best rank is the smallest present
   * ranking when it is below 999, `None` otherwise.
   */
  lemma RecordFacts(id: int, rows: seq<Appearance>, wins: nat, losses: nat)
    requires |rows| > 0 && forall k :: 0 <= k < |rows| ==> ValidDate(rows[k].date)
    requires Career(id, rows, wins, losses).Some?
    ensures var c, names := Career(id, rows, wins, losses).value, PresentNames(rows);
      && c.playerName in names
      && (forall x :: x in names ==> Freq(names, x) <= Freq(names, c.playerName))
      && (forall x :: x in names && x != c.playerName && Freq(names, x) == Freq(names, c.playerName)
            ==> StrLt(c.playerName, x))
      && (exists k :: 0 <= k < |rows| && rows[k].date == c.careerStart)
      && (exists k :: 0 <= k < |rows| && rows[k].date == c.careerEnd)
      && (forall k :: 0 <= k < |rows| ==> c.careerStart <= rows[k].date <= c.careerEnd)
      && c.careerLengthDays == DayNumber(c.careerEnd) - DayNumber(c.careerStart)
      && c.careerLengthYears == c.careerLengthDays as real / 365.25
      && c.bestRank == BestRank(rows)
  {
    StrLtStrictTotal();
  }

  /** One iteration of the `groupby('player_id')` loop over the whole table. */
  function RecordOf(df: seq<Match>, id: int): (r: Option<CareerRecord>)
    requires id in PlayerIds(df)
    ensures r.None? <==> forall a :: a in PlayerRows(Appearances(df), id) ==> a.name.None?
    ensures r.Some? ==> r.value.playerId == id && r.value.totalMatches == |PlayerRows(Appearances(df), id)| >= 1
    ensures r.Some? ==> r.value.wins == SideCount(df, true, id) && r.value.losses == SideCount(df, false, id)
    ensures r.Some? ==> r.value.careerStart <= r.value.careerEnd && 0.0 <= r.value.careerLengthYears
  {
    var apps := Appearances(df);
    var rows := PlayerRows(apps, id);
    var a :| a in apps && a.id == id;
    assert a in rows;
    assert forall k :: 0 <= k < |rows| ==> rows[k] in apps;
    var r := Career(id, rows, SideCount(df, true, id), SideCount(df, false, id));
    assert r.None? <==> forall b :: b in rows ==> b.name.None? by {
      assert forall b :: b in rows ==> exists k :: 0 <= k < |rows| && rows[k] == b;
    }
    r
  }

  /**
   * Every appearance is a row naming the player as winner or loser, so `wins + losses` is at
   * least `total_matches` (and at least 1): the zero guard on `win_pct` never fires.
   */
  lemma MatchesCovered(df: seq<Match>, id: int)
    requires id in PlayerIds(df) && RecordOf(df, id).Some?
    ensures RecordOf(df, id).value.totalMatches <= RecordOf(df, id).value.wins + RecordOf(df, id).value.losses
  {
    var w, l := Sides(df, true), Sides(df, false);
    CountAppend(w, l, (a: Appearance) => a.id == id);
    SidesCount(df, true, id);
    SidesCount(df, false, id);
    CountMonotone(df, m => OnSide(m, true, id) && ValidDate(m.tourneyDate), m => OnSide(m, true, id));
    CountMonotone(df, m => OnSide(m, false, id) && ValidDate(m.tourneyDate), m => OnSide(m, false, id));
  }

  /**
   * `calculate_career_stats`: one record per player id, in increasing id order. It fails
   * when some group has no name (`mode()[0]` raises) and when no appearance is left: the
   * frame built from an empty list has no `career_length_years` column to average.
   */
  method CareerStats(df: seq<Match>) returns (r: Option<seq<CareerRecord>>)
    ensures var ids := PlayerIds(df);
      r.None? <==> |ids| == 0 || exists k :: 0 <= k < |ids| && RecordOf(df, ids[k]).None?
    ensures var ids := PlayerIds(df);
      r.Some? ==> |r.value| == |ids| && forall k :: 0 <= k < |ids| ==> RecordOf(df, ids[k]) == Some(r.value[k])
    ensures r.Some? ==> forall i, j :: 0 <= i < j < |r.value| ==> r.value[i].playerId < r.value[j].playerId
    ensures r.Some? ==> forall k :: 0 <= k < |r.value| ==> r.value[k].careerLengthYears >= 0.0
  {
    var ids := PlayerIds(df);
    if |ids| == 0 {
      return None;
    }
    var stats: seq<CareerRecord> := [];
    var i := 0;
    while i < |ids|
      invariant 0 <= i <= |ids| && |stats| == i
      invariant forall k :: 0 <= k < i ==> RecordOf(df, ids[k]) == Some(stats[k])
      invariant forall k :: 0 <= k < i ==> stats[k].careerLengthYears >= 0.0 && stats[k].playerId == ids[k]
    {
      var c := RecordOf(df, ids[i]);
      if c.None? {
        return None;
      }
      stats := stats + [c.value];
      i := i + 1;
    }
    r := Some(stats);
  }

  // ---------------------------------------------------------------------------------------
  // Survival curve
  // ---------------------------------------------------------------------------------------

  const YearThresholds: seq<nat> := [0, 1, 2, 3, 4, 5, 6, 7, 8, 9, 10, 12, 15, 18, 20, 25, 30]

  datatype SurvivalPoint = SurvivalPoint(years: nat, playersRemaining: nat, survivalProbability: real)

  datatype Survival = Survival(timeline: seq<SurvivalPoint>, totalPlayers: nat)

  /** `len(career_df[career_df['career_length_years'] >= year])`. */
  function Remaining(careers: seq<CareerRecord>, year: nat): (n: nat)
    ensures n <= |careers|
  {
    Count(careers, (c: CareerRecord) => c.careerLengthYears >= year as real)
  }

  /** `calculate_survival_data`: one point per threshold, in threshold order. */
  method SurvivalData(careers: seq<CareerRecord>) returns (s: Survival)
    ensures s.totalPlayers == |careers| && |s.timeline| == |YearThresholds|
    ensures forall k :: 0 <= k < |YearThresholds| ==>
      s.timeline[k].years == YearThresholds[k]
      && s.timeline[k].playersRemaining == Remaining(careers, YearThresholds[k])
      && s.timeline[k].survivalProbability == Percent(s.timeline[k].playersRemaining as real, |careers| as real)
  {
    var timeline: seq<SurvivalPoint> := [];
    var i := 0;
    while i < |YearThresholds|
      invariant 0 <= i <= |YearThresholds| && |timeline| == i
      invariant forall k :: 0 <= k < i ==>
        timeline[k].years == YearThresholds[k]
        && timeline[k].playersRemaining == Remaining(careers, YearThresholds[k])
        && timeline[k].survivalProbability == Percent(timeline[k].playersRemaining as real, |careers| as real)
    {
      var year := YearThresholds[i];
      var surviving := Remaining(careers, year);
      timeline := timeline + [SurvivalPoint(year, surviving, Percent(surviving as real, |careers| as real))];
      i := i + 1;
    }
    s := Survival(timeline, |careers|);
  }

  /**
   * The survival curve never rises: along the increasing thresholds fewer (or as many)
   * players remain, and their share falls with them.
   */
  lemma SurvivalFalls(careers: seq<CareerRecord>, i: nat, j: nat)
    requires i <= j < |YearThresholds|
    ensures Remaining(careers, YearThresholds[j]) <= Remaining(careers, YearThresholds[i])
    ensures Percent(Remaining(careers, YearThresholds[j]) as real, |careers| as real)
            <= Percent(Remaining(careers, YearThresholds[i]) as real, |careers| as real)
  {
    var lo, hi := YearThresholds[i], YearThresholds[j];
    assert lo <= hi;
    CountMonotone(careers, (c: CareerRecord) => c.careerLengthYears >= hi as real, (c: CareerRecord) => c.careerLengthYears >= lo as real);
    if |careers| > 0 {
      PercentMonotone(Remaining(careers, hi) as real, Remaining(careers, lo) as real, |careers| as real);
    }
  }

  /** Every career lasts at least 0 years, so the curve starts at every player, 100%. */
  lemma SurvivalStartsFull(careers: seq<CareerRecord>)
    requires forall k :: 0 <= k < |careers| ==> careers[k].careerLengthYears >= 0.0
    ensures Remaining(careers, YearThresholds[0]) == |careers|
    ensures |careers| > 0 ==> Percent(Remaining(careers, YearThresholds[0]) as real, |careers| as real) == 100.0
  {
    FilterAll(careers, (c: CareerRecord) => c.careerLengthYears >= 0 as real);
    if |careers| > 0 {
      PercentMonotone(|careers| as real, |careers| as real, |careers| as real);
    }
  }

  // ---------------------------------------------------------------------------------------
  // Categories: half-open bands between increasing cuts
  // ---------------------------------------------------------------------------------------

  predicate Ascending(cuts: seq<real>)
  {
    forall i, j :: 0 <= i < j < |cuts| ==> cuts[i] < cuts[j]
  }

  /** `v` reaches band `k`: the first band has no lower bound, band `k` starts at `cuts[k - 1]`. */
  predicate Above(cuts: seq<real>, k: nat, v: real)
    requires k <= |cuts|
  {
    k == 0 || v >= cuts[k - 1]
  }

  /** `v` falls in band `k`: it reaches `k` and, unless `k` is the last band, not `k + 1`. */
  predicate InBand(cuts: seq<real>, k: nat, v: real)
    requires k <= |cuts|
  {
    Above(cuts, k, v) && (k == |cuts| || !Above(cuts, k + 1, v))
  }

  /** The bands are disjoint and cover every value: each value falls in exactly one. */
  lemma ExactlyOneBand(cuts: seq<real>, v: real)
    requires Ascending(cuts)
    ensures exists k :: 0 <= k <= |cuts| && InBand(cuts, k, v)
    ensures forall j, k :: 0 <= j <= |cuts| && 0 <= k <= |cuts| && InBand(cuts, j, v) && InBand(cuts, k, v) ==> j == k
  {
    var k := 0;
    while k < |cuts| && v >= cuts[k]
      invariant 0 <= k <= |cuts| && Above(cuts, k, v)
    {
      k := k + 1;
    }
    assert InBand(cuts, k, v);
  }

  /** The number of values in band `k`. */
  function BandCount(values: seq<real>, cuts: seq<real>, k: nat): (n: nat)
    requires k <= |cuts|
    ensures n <= |values|
  {
    Count(values, v => InBand(cuts, k, v))
  }

  /** The counts of bands `k` and above, added up. */
  function CountsFrom(values: seq<real>, cuts: seq<real>, k: nat): nat
    requires k <= |cuts|
    decreases |cuts| - k
  {
    BandCount(values, cuts, k) + if k == |cuts| then 0 else CountsFrom(values, cuts, k + 1)
  }

  /** The bands from `k` up hold exactly the values that reach band `k`. */
  lemma {:induction false} CountsFromAbove(values: seq<real>, cuts: seq<real>, k: nat)
    requires Ascending(cuts) && k <= |cuts|
    ensures CountsFrom(values, cuts, k) == Count(values, v => Above(cuts, k, v))
    decreases |cuts| - k
  {
    if k == |cuts| {
      CountMonotone(values, v => InBand(cuts, k, v), v => Above(cuts, k, v));
      CountMonotone(values, v => Above(cuts, k, v), v => InBand(cuts, k, v));
    } else {
      CountsFromAbove(values, cuts, k + 1);
      CountPartition(values, v => Above(cuts, k, v), v => InBand(cuts, k, v), v => Above(cuts, k + 1, v));
    }
  }

  /** The band counts add up to the number of values: nothing is missed or counted twice. */
  lemma BandsCover(values: seq<real>, cuts: seq<real>)
    requires Ascending(cuts)
    ensures CountsFrom(values, cuts, 0) == |values|
  {
    CountsFromAbove(values, cuts, 0);
    FilterAll(values, v => Above(cuts, 0, v));
  }

  /** The shares of bands `k` and above, added up. */
  function PercentsFrom(values: seq<real>, cuts: seq<real>, k: nat): real
    requires k <= |cuts|
    decreases |cuts| - k
  {
    Percent(BandCount(values, cuts, k) as real, |values| as real)
      + if k == |cuts| then 0.0 else PercentsFrom(values, cuts, k + 1)
  }

  /** Shares of one whole add like their parts. */
  lemma PercentAdd(a: real, b: real, t: real)
    ensures Percent(a, t) + Percent(b, t) == Percent(a + b, t)
  {
    if t != 0.0 {
      assert (a + b) / t == a / t + b / t;
    }
  }

  /** The shares of the bands from `k` up are the share of their total. */
  lemma {:induction false} PercentsAdd(values: seq<real>, cuts: seq<real>, k: nat)
    requires k <= |cuts|
    ensures PercentsFrom(values, cuts, k) == Percent(CountsFrom(values, cuts, k) as real, |values| as real)
    decreases |cuts| - k
  {
    if k < |cuts| {
      PercentsAdd(values, cuts, k + 1);
      PercentAdd(BandCount(values, cuts, k) as real, CountsFrom(values, cuts, k + 1) as real, |values| as real);
    }
  }

  /** For any values at all, the band percentages add up to 100. */
  lemma PercentsWhole(values: seq<real>, cuts: seq<real>)
    requires Ascending(cuts) && |values| > 0
    ensures PercentsFrom(values, cuts, 0) == 100.0
  {
    PercentsAdd(values, cuts, 0);
    BandsCover(values, cuts);
    PercentMonotone(|values| as real, |values| as real, |values| as real);
  }

  // ---------------------------------------------------------------------------------------
  // Career-length categories
  // ---------------------------------------------------------------------------------------

  const CareerCuts: seq<real> := [1.0, 2.0, 5.0, 10.0, 15.0]
  const CareerKeys: seq<string> := ["less_than_1_year", "1_to_2_years", "2_to_5_years",
                                    "5_to_10_years", "10_to_15_years", "15_plus_years"]
  const CareerLabels: seq<string> := ["Less than 1 year", "1-2 years", "2-5 years",
                                      "5-10 years", "10-15 years", "15+ years"]
  const CareerMinYears: seq<nat> := [0, 1, 2, 5, 10, 15]
  const CareerMaxYears: seq<Option<nat>> := [Some(1), Some(2), Some(5), Some(10), Some(15), None]

  datatype CareerBand = CareerBand(key: string, labelText: string, count: nat, minYears: nat,
                                   maxYears: Option<nat>, percentage: real)

  function Lengths(careers: seq<CareerRecord>): (r: seq<real>)
    ensures |r| == |careers|
  {
    seq(|careers|, k requires 0 <= k < |careers| => careers[k].careerLengthYears)
  }

  /**
   * `calculate_career_categories`: the six counts, then each one's percentage of all
   * players. The first band has no lower bound, so the six counts always add up to the
   * number of players and, for any players at all, the percentages to 100.
   */
  method CareerCategories(careers: seq<CareerRecord>) returns (bands: seq<CareerBand>)
    ensures |bands| == 6
    ensures forall k :: 0 <= k < 6 ==>
      bands[k].key == CareerKeys[k] && bands[k].labelText == CareerLabels[k]
      && bands[k].minYears == CareerMinYears[k] && bands[k].maxYears == CareerMaxYears[k]
      && bands[k].count == BandCount(Lengths(careers), CareerCuts, k)
      && bands[k].percentage == Percent(bands[k].count as real, |careers| as real)
    ensures bands[0].count + bands[1].count + bands[2].count + bands[3].count + bands[4].count
            + bands[5].count == |careers|
    ensures |careers| > 0 ==>
      bands[0].percentage + bands[1].percentage + bands[2].percentage
      + bands[3].percentage + bands[4].percentage + bands[5].percentage == 100.0
  {
    var lengths := Lengths(careers);
    bands := [];
    var k := 0;
    while k < 6
      invariant 0 <= k <= 6 && |bands| == k
      invariant forall j :: 0 <= j < k ==>
        bands[j].key == CareerKeys[j] && bands[j].labelText == CareerLabels[j]
        && bands[j].minYears == CareerMinYears[j] && bands[j].maxYears == CareerMaxYears[j]
        && bands[j].count == BandCount(lengths, CareerCuts, j)
        && bands[j].percentage == Percent(bands[j].count as real, |careers| as real)
    {
      var count := BandCount(lengths, CareerCuts, k);
      bands := bands + [CareerBand(CareerKeys[k], CareerLabels[k], count, CareerMinYears[k],
                                   CareerMaxYears[k], Percent(count as real, |careers| as real))];
      k := k + 1;
    }
    BandsCover(lengths, CareerCuts);
    if |careers| > 0 {
      PercentsWhole(lengths, CareerCuts);
    }
  }

  // ---------------------------------------------------------------------------------------
  // Match-volume categories
  // ---------------------------------------------------------------------------------------

  const VolumeCuts: seq<real> := [50.0, 200.0, 500.0, 1000.0]
  const VolumeKeys: seq<string> := ["less_than_50", "50_to_200", "200_to_500", "500_to_1000", "1000_plus"]
  const VolumeLabels: seq<string> := ["Less than 50 matches", "50-200 matches", "200-500 matches",
                                      "500-1000 matches", "1000+ matches"]

  datatype VolumeBand = VolumeBand(key: string, labelText: string, count: nat, percentage: real)

  function Volumes(careers: seq<CareerRecord>): (r: seq<real>)
    ensures |r| == |careers|
  {
    seq(|careers|, k requires 0 <= k < |careers| => careers[k].totalMatches as real)
  }

  /**
   * `calculate_match_volume_stats`: the five counts of players by matches played, then
   * their percentages; the five bands partition the players.
   */
  method MatchVolumeStats(careers: seq<CareerRecord>) returns (bands: seq<VolumeBand>)
    ensures |bands| == 5
    ensures forall k :: 0 <= k < 5 ==>
      bands[k].key == VolumeKeys[k] && bands[k].labelText == VolumeLabels[k]
      && bands[k].count == BandCount(Volumes(careers), VolumeCuts, k)
      && bands[k].percentage == Percent(bands[k].count as real, |careers| as real)
    ensures bands[0].count + bands[1].count + bands[2].count + bands[3].count + bands[4].count == |careers|
    ensures |careers| > 0 ==>
      bands[0].percentage + bands[1].percentage + bands[2].percentage
      + bands[3].percentage + bands[4].percentage == 100.0
  {
    var volumes := Volumes(careers);
    bands := [];
    var k := 0;
    while k < 5
      invariant 0 <= k <= 5 && |bands| == k
      invariant forall j :: 0 <= j < k ==>
        bands[j].key == VolumeKeys[j] && bands[j].labelText == VolumeLabels[j]
        && bands[j].count == BandCount(volumes, VolumeCuts, j)
        && bands[j].percentage == Percent(bands[j].count as real, |careers| as real)
    {
      var count := BandCount(volumes, VolumeCuts, k);
      bands := bands + [VolumeBand(VolumeKeys[k], VolumeLabels[k], count, Percent(count as real, |careers| as real))];
      k := k + 1;
    }
    BandsCover(volumes, VolumeCuts);
    if |careers| > 0 {
      PercentsWhole(volumes, VolumeCuts);
    }
  }

  // ---------------------------------------------------------------------------------------
  // Longest careers
  // ---------------------------------------------------------------------------------------

  /** The seven columns `get_longest_careers` keeps. */
  datatype Longest = Longest(playerName: string, careerLengthYears: real, careerStart: nat,
                             careerEnd: nat, totalMatches: nat, wins: nat, bestRank: Option<int>)

  function Brief(c: CareerRecord): Longest
  {
    Longest(c.playerName, c.careerLengthYears, c.careerStart, c.careerEnd, c.totalMatches, c.wins, c.bestRank)
  }

  function LengthKey(c: CareerRecord): real { c.careerLengthYears }

  /**
   * `career_df.nlargest(top_n, 'career_length_years')`: at most `top_n` players, longest
   * first, equal lengths in table order, and no player left out has a longer career than
   * one kept (nor an equal one met earlier).
   */
  method LongestCareers(careers: seq<CareerRecord>, topN: nat) returns (r: seq<Longest>, ghost perm: seq<nat>)
    ensures |r| == if topN < |careers| then topN else |careers|
    ensures IsPermutation(perm, |careers|)
    ensures forall k :: 0 <= k < |r| ==> r[k] == Brief(careers[perm[k]])
    ensures forall a, b :: 0 <= a < b < |r| ==> r[a].careerLengthYears >= r[b].careerLengthYears
    ensures forall a, b :: 0 <= a < b < |r| && r[a].careerLengthYears == r[b].careerLengthYears ==> perm[a] < perm[b]
    ensures forall a, k :: 0 <= a < |r| <= k < |careers| ==>
      careers[perm[k]].careerLengthYears < r[a].careerLengthYears
      || (careers[perm[k]].careerLengthYears == r[a].careerLengthYears && perm[a] < perm[k])
  {
    var ys;
    perm, ys := StableSortDescending(careers, LengthKey);
    var n := if topN < |careers| then topN else |careers|;
    r := seq(n, k requires 0 <= k < n => Brief(ys[k]));
  }
}
