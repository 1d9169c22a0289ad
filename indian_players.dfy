/**
 * aggregations/indian_players.py: summaries of the players of one country (`country_code`,
 * 'IND' by default) over a table already restricted to the analysed years.
 * The country's matches are the rows it won or lost; its appearances are the winner sides
 * it won with followed by the loser sides it lost with. Player ids are compared as values
 * (the source compares their `str` forms, missing ids included, as "nan").
 */
module IndianPlayers {
  import opened Wrappers
  import opened Matches
  import opened Ordering
  import opened Numeric

  /** The `GRAND_SLAMS` list, matched exactly by `isin`. */
  const GrandSlamNames: seq<string> := ["Australian Open", "Roland Garros", "Wimbledon", "US Open", "French Open"]

  /** The rounds `round_order` knows, from the earliest to the title. */
  const RoundNames: seq<string> := ["R128", "R64", "R32", "R16", "QF", "SF", "F", "W"]

  /** `fillna(9999)` for a missing ranking, and the bound above which a best rank is dropped. */
  const MissingRank := 9999

  /** `round_order[round]`: a known round's place in `RoundNames` counted from 1, 0 for any other. */
  function RoundRank(r: Option<string>): (o: nat)
    ensures o <= |RoundNames|
    ensures o > 0 ==> r == Some(RoundNames[o - 1])
    ensures (exists k :: 0 <= k < |RoundNames| && r == Some(RoundNames[k])) ==> o > 0
  {
    if r == Some("R128") then 1
    else if r == Some("R64") then 2
    else if r == Some("R32") then 3
    else if r == Some("R16") then 4
    else if r == Some("QF") then 5
    else if r == Some("SF") then 6
    else if r == Some("F") then 7
    else if r == Some("W") then 8
    else 0
  }

  // ---------------------------------------------------------------------------------------
  // Appearances
  // ---------------------------------------------------------------------------------------

  /** One row of `appearances`: a side of a match, with the match's year, round and event. */
  datatype Appearance = Appearance(id: Option<int>, name: Option<string>, year: nat, round: Option<string>,
                                   tourneyName: Option<string>, rank: Option<int>)

  function SideOf(m: Match, winner: bool): Appearance
  {
    if winner then Appearance(m.winnerId, m.winnerName, YearOf(m.tourneyDate), m.round, m.tourneyName, m.winnerRank)
    else Appearance(m.loserId, m.loserName, YearOf(m.tourneyDate), m.round, m.tourneyName, m.loserRank)
  }

  /** The side of `m` belongs to the country. */
  predicate OnSide(m: Match, code: string, winner: bool)
  {
    (if winner then m.winnerIoc else m.loserIoc) == Some(code)
  }

  /** `country_matches`: the rows the country won or lost. */
  function CountryMatches(df: seq<Match>, code: string): seq<Match>
  {
    Filter(df, (m: Match) => m.winnerIoc == Some(code) || m.loserIoc == Some(code))
  }

  /** The country's sides on one side of the rows, in row order (`winners` or `losers`). */
  function Sides(rows: seq<Match>, code: string, winner: bool): (r: seq<Appearance>)
    ensures |r| <= |rows|
    ensures forall a :: a in r ==> exists k :: 0 <= k < |rows| && OnSide(rows[k], code, winner) && a == SideOf(rows[k], winner)
  {
    if |rows| == 0 then []
    else
      var init := rows[..|rows| - 1];
      var m := rows[|rows| - 1];
      assert forall k :: 0 <= k < |init| ==> init[k] == rows[k];
      Sides(init, code, winner) + (if OnSide(m, code, winner) then [SideOf(m, winner)] else [])
  }

  /** `pd.concat([winners, losers])`. */
  function Appearances(rows: seq<Match>, code: string): seq<Appearance>
  {
    Sides(rows, code, true) + Sides(rows, code, false)
  }

  /** A player's appearances, in order. */
  function PlayerRows(apps: seq<Appearance>, id: Option<int>): seq<Appearance>
  {
    Filter(apps, (a: Appearance) => a.id == id)
  }

  /** The rows in which the player is the country's winner (`wins`) or loser (`losses`). */
  function SideTally(rows: seq<Match>, code: string, winner: bool, id: Option<int>): nat
  {
    Count(rows, (m: Match) => OnSide(m, code, winner) && SideOf(m, winner).id == id)
  }

  lemma {:induction false} SidesCount(rows: seq<Match>, code: string, winner: bool, id: Option<int>)
    ensures |PlayerRows(Sides(rows, code, winner), id)| == SideTally(rows, code, winner, id)
  {
    if |rows| > 0 {
      var init, m := rows[..|rows| - 1], rows[|rows| - 1];
      assert rows == init + [m];
      SidesCount(init, code, winner, id);
      CountSnoc(init, m, (m: Match) => OnSide(m, code, winner) && SideOf(m, winner).id == id);
      if OnSide(m, code, winner) {
        assert Sides(rows, code, winner) == Sides(init, code, winner) + [SideOf(m, winner)];
        CountSnoc(Sides(init, code, winner), SideOf(m, winner), (a: Appearance) => a.id == id);
      } else {
        assert Sides(rows, code, winner) == Sides(init, code, winner);
      }
    }
  }

  /**
   * `matches_played` is `wins + losses`: a player's appearances are exactly the rows the
   * player won for the country and the rows the player lost for it.
   */
  lemma MatchesAreWinsPlusLosses(rows: seq<Match>, code: string, id: Option<int>)
    ensures |PlayerRows(Appearances(rows, code), id)| == SideTally(rows, code, true, id) + SideTally(rows, code, false, id)
  {
    CountAppend(Sides(rows, code, true), Sides(rows, code, false), (a: Appearance) => a.id == id);
    SidesCount(rows, code, true, id);
    SidesCount(rows, code, false, id);
  }

  /** `player_ids`: the distinct ids of the appearances, in order of first appearance. */
  function PlayerIds(apps: seq<Appearance>): (r: seq<Option<int>>)
    ensures forall i, j :: 0 <= i < j < |r| ==> r[i] != r[j]
    ensures forall id :: id in r <==> exists k :: 0 <= k < |apps| && apps[k].id == id
  {
    if |apps| == 0 then []
    else
      var init := PlayerIds(apps[..|apps| - 1]);
      var a := apps[|apps| - 1];
      assert forall k :: 0 <= k < |apps| - 1 ==> apps[..|apps| - 1][k] == apps[k];
      if a.id in init then init else init + [a.id]
  }

  // ---------------------------------------------------------------------------------------
  // Best performance
  // ---------------------------------------------------------------------------------------

  /** A best performance: the round and the event it was reached at. */
  datatype Performance = Performance(round: Option<string>, tourney: Option<string>)

  /** `idxmax` over the known rounds: row `i` has the highest round, and no earlier row has it. */
  predicate BestAt(g: seq<Appearance>, i: int)
  {
    0 <= i < |g| && RoundRank(g[i].round) > 0
    && (forall k :: 0 <= k < |g| ==> RoundRank(g[k].round) <= RoundRank(g[i].round))
    && (forall k :: 0 <= k < i ==> RoundRank(g[k].round) < RoundRank(g[i].round))
  }

  function BestIndex(g: seq<Appearance>): (b: Option<nat>)
    ensures b.None? <==> forall k :: 0 <= k < |g| ==> RoundRank(g[k].round) == 0
    ensures b.Some? ==> BestAt(g, b.value)
  {
    if |g| == 0 then None
    else
      var last := |g| - 1;
      var b := BestIndex(g[..last]);
      assert forall k :: 0 <= k < last ==> g[..last][k] == g[k];
      if RoundRank(g[last].round) > 0 && (b.None? || RoundRank(g[last].round) > RoundRank(g[b.value].round))
      then Some(last) else b
  }

  /**
   * `get_best_performance_from_group`: (None, None) when no row of the group has a known
   * round (an empty group included); otherwise the round and event of the first row
   * reaching the highest round.
   */
  function BestPerformance(g: seq<Appearance>): (p: Performance)
    ensures p.round.None? <==> forall k :: 0 <= k < |g| ==> RoundRank(g[k].round) == 0
    ensures p.round.None? ==> p.tourney.None?
    ensures p.round.Some? ==> exists i :: BestAt(g, i) && p == Performance(g[i].round, g[i].tourneyName)
  {
    var b := BestIndex(g);
    if b.None? then Performance(None, None) else Performance(g[b.value].round, g[b.value].tourneyName)
  }

  /** The appearances of one year. */
  function YearRows(rows: seq<Appearance>, y: int): seq<Appearance>
  {
    Filter(rows, (a: Appearance) => a.year == y)
  }

  /** The appearances at a Grand Slam, by exact event name. */
  function SlamRows(rows: seq<Appearance>): seq<Appearance>
  {
    Filter(rows, (a: Appearance) => a.tourneyName.Some? && a.tourneyName.value in GrandSlamNames)
  }

  /**
   * `best_performance_each_year` before formatting: for each of the given years in turn,
   * the best performance of that year, the years without a known round being dropped.
   */
  function EachYear(rows: seq<Appearance>, ys: seq<int>): (r: seq<(int, Performance)>)
    ensures forall e :: e in r ==> e.0 in ys && e.1.round.Some? && e.1 == BestPerformance(YearRows(rows, e.0))
    ensures forall y :: y in ys && BestPerformance(YearRows(rows, y)).round.Some? ==> exists e :: e in r && e.0 == y
  {
    if |ys| == 0 then []
    else
      var p := BestPerformance(YearRows(rows, ys[0]));
      var rest := EachYear(rows, ys[1..]);
      assert forall y :: y in ys ==> y == ys[0] || y in ys[1..];
      var r := (if p.round.Some? then [(ys[0], p)] else []) + rest;
      assert forall e :: e in rest ==> e in r;
      r
  }

  // ---------------------------------------------------------------------------------------
  // Player summary
  // ---------------------------------------------------------------------------------------

  /** The years of the rows, in row order. */
  function YearsOf(rows: seq<Appearance>): (ys: seq<int>)
    ensures forall y :: y in ys <==> exists k :: 0 <= k < |rows| && rows[k].year == y
  {
    var ys := seq(|rows|, k requires 0 <= k < |rows| => rows[k].year as int);
    assert forall k :: 0 <= k < |rows| ==> ys[k] == rows[k].year;
    ys
  }

  /** The smallest present ranking, missing when none is present. */
  function LowestRank(rows: seq<Appearance>): (r: Option<int>)
    ensures r.None? <==> forall k :: 0 <= k < |rows| ==> rows[k].rank.None?
    ensures r.Some? ==> exists k :: 0 <= k < |rows| && rows[k].rank == r
    ensures r.Some? ==> forall k :: 0 <= k < |rows| && rows[k].rank.Some? ==> r.value <= rows[k].rank.value
  {
    if |rows| == 0 then None
    else
      var last := |rows| - 1;
      var r := LowestRank(rows[..last]);
      assert forall k :: 0 <= k < last ==> rows[..last][k] == rows[k];
      var x := rows[last].rank;
      if x.Some? && (r.None? || x.value < r.value) then x else r
  }

  /** The name on the first of a player's appearances that carries one. */
  function PlayerName(rows: seq<Appearance>): (n: Option<string>)
    ensures n.Some? <==> exists k :: 0 <= k < |rows| && rows[k].name.Some?
    ensures n.Some? ==> exists i :: 0 <= i < |rows| && rows[i].name == n && forall j :: 0 <= j < i ==> rows[j].name.None?
  {
    var f := First(rows, (a: Appearance) => a.name.Some?);
    if f.Some? then f.value.name else None
  }

  /** The `name` of a `players_summary` entry as written: `row.get('name')` on a frame without that column. */
  function SummaryNameAsWritten(rows: seq<Appearance>): Option<string>
  {
    None
  }

  /**
   * As written every summary's name is missing, and so is every name the later datasets
   * copy from the summaries, even for a player whose appearances all carry a name.
   */
  lemma SummaryNameDropped(rows: seq<Appearance>)
    requires |rows| > 0 && rows[0].name.Some?
    ensures SummaryNameAsWritten(rows).None?
    ensures PlayerName(rows) == rows[0].name
  {
  }

  /** A `players_summary` entry, before its performances are formatted as text. */
  datatype PlayerSummary = PlayerSummary(
    id: Option<int>, name: Option<string>, years: seq<int>, yearsPlayed: nat,
    minYear: Option<int>, maxYear: Option<int>, matchesPlayed: nat, wins: nat, losses: nat,
    winPct: real, bestLifetime: Performance, bestEachYear: seq<(int, Performance)>,
    bestGrandSlam: Performance, bestRank: Option<int>, top100Wins: nat)

  /** The sorted distinct years, `sorted(set(x))`. */
  function DistinctYears(rows: seq<Appearance>): (ys: seq<int>)
    ensures Increasing(ys, (a: int, b: int) => a < b)
    ensures forall y :: y in ys <==> exists k :: 0 <= k < |rows| && rows[k].year == y
    ensures |ys| == 0 <==> |rows| == 0
  {
    IntLtStrictTotal();
    SortedDistinct(YearsOf(rows), (a: int, b: int) => a < b)
  }

  /** `best_rank`: the lowest ranking, dropped when missing or not below 9999. */
  function BestRank(rows: seq<Appearance>): (r: Option<int>)
    ensures r.Some? ==> r.value < MissingRank && r == LowestRank(rows)
    ensures r.None? <==> forall k :: 0 <= k < |rows| && rows[k].rank.Some? ==> rows[k].rank.value >= MissingRank
  {
    var low := LowestRank(rows);
    if low.Some? && low.value < MissingRank then low else None
  }

  /**
   * One player's summary from the player's appearances and the three counts: the sorted
   * distinct years with their number and their ends (missing when there are none), the
   * appearances as matches played, the win percentage (0 for no match), the best
   * performances overall, per year and at Grand Slams, and the best ranking. The name is the
   * intended one (`PlayerName`); as written it is always missing (`SummaryNameAsWritten`).
   */
  function Summarize(id: Option<int>, rows: seq<Appearance>, wins: nat, losses: nat, top100Wins: nat): (s: PlayerSummary)
    ensures s.id == id && s.name == PlayerName(rows)
    ensures s.matchesPlayed == |rows| && s.wins == wins && s.losses == losses && s.top100Wins == top100Wins
    ensures Increasing(s.years, (a: int, b: int) => a < b)
    ensures forall y :: y in s.years <==> exists k :: 0 <= k < |rows| && rows[k].year == y
    ensures s.yearsPlayed == |s.years|
    ensures s.minYear.None? <==> |rows| == 0
    ensures s.maxYear.None? <==> |rows| == 0
    ensures s.minYear.Some? ==> s.minYear.value in s.years && forall y :: y in s.years ==> s.minYear.value <= y
    ensures s.maxYear.Some? ==> s.maxYear.value in s.years && forall y :: y in s.years ==> y <= s.maxYear.value
    ensures |rows| == 0 ==> s.winPct == 0.0
    ensures wins <= |rows| ==> 0.0 <= s.winPct <= 100.0
    ensures s.bestLifetime == BestPerformance(rows) && s.bestGrandSlam == BestPerformance(SlamRows(rows))
    ensures s.bestEachYear == EachYear(rows, s.years)
    ensures s.bestRank == BestRank(rows)
  {
    var ys := DistinctYears(rows);
    PlayerSummary(id, PlayerName(rows), ys, |ys|,
                  if |ys| > 0 then Some(ys[0]) else None, if |ys| > 0 then Some(ys[|ys| - 1]) else None,
                  |rows|, wins, losses, Percent(wins as real, |rows| as real),
                  BestPerformance(rows), EachYear(rows, ys), BestPerformance(SlamRows(rows)),
                  BestRank(rows), top100Wins)
  }

  /** The opponent beaten is ranked inside the top 100 (a missing ranking reads as 9999). */
  predicate BeatTop100(m: Match)
  {
    (if m.loserRank.Some? then m.loserRank.value else MissingRank) <= 100
  }

  /** `top100_wins`. */
  function Top100Wins(rows: seq<Match>, code: string, id: Option<int>): (n: nat)
    ensures n <= SideTally(rows, code, true, id)
  {
    CountMonotone(rows, (m: Match) => OnSide(m, code, true) && SideOf(m, true).id == id && BeatTop100(m),
                        (m: Match) => OnSide(m, code, true) && SideOf(m, true).id == id);
    Count(rows, (m: Match) => OnSide(m, code, true) && SideOf(m, true).id == id && BeatTop100(m))
  }

  /** The summary of the player `id` over the country's matches `rows`. */
  function SummaryOf(rows: seq<Match>, code: string, id: Option<int>): PlayerSummary
  {
    Summarize(id, PlayerRows(Appearances(rows, code), id),
              SideTally(rows, code, true, id), SideTally(rows, code, false, id), Top100Wins(rows, code, id))
  }

  /**
   * Every summary's counts agree: matches played are wins plus losses, wins over top-100
   * opponents are among the wins, and the win percentage lies between 0 and 100.
   */
  lemma SummaryCounts(rows: seq<Match>, code: string, id: Option<int>)
    ensures SummaryOf(rows, code, id).matchesPlayed == SummaryOf(rows, code, id).wins + SummaryOf(rows, code, id).losses
    ensures SummaryOf(rows, code, id).top100Wins <= SummaryOf(rows, code, id).wins
    ensures 0.0 <= SummaryOf(rows, code, id).winPct <= 100.0
  {
    MatchesAreWinsPlusLosses(rows, code, id);
  }

  function MatchesKey(s: PlayerSummary): real
  {
    s.matchesPlayed as real
  }

  /**
   * `players_summary`: one summary per player id, most matches played first.
   */
  method PlayersSummary(df: seq<Match>, code: string) returns (r: seq<PlayerSummary>)
    ensures var cm := CountryMatches(df, code);
      var ids := PlayerIds(Appearances(cm, code));
      |r| == |ids|
      && exists perm ::
        && IsPermutation(perm, |ids|)
        && (forall k :: 0 <= k < |r| ==> r[k] == SummaryOf(cm, code, ids[perm[k]]))
    ensures forall a, b :: 0 <= a < b < |r| ==> r[a].matchesPlayed >= r[b].matchesPlayed
  {
    var cm := CountryMatches(df, code);
    var ids := PlayerIds(Appearances(cm, code));
    var players := Collect(ids, (id: Option<int>) => SummaryOf(cm, code, id));
    var perm;
    perm, r := StableSortDescending(players, MatchesKey);
    assert IsPermutation(perm, |ids|) && forall k :: 0 <= k < |r| ==> r[k] == SummaryOf(cm, code, ids[perm[k]]);
  }

  /** The per-player loop: `f` of each id, in order. */
  method Collect<T, U>(ids: seq<T>, f: T -> U) returns (out: seq<U>)
    ensures |out| == |ids| && forall k :: 0 <= k < |ids| ==> out[k] == f(ids[k])
  {
    out := [];
    var i := 0;
    while i < |ids|
      invariant 0 <= i <= |ids| && |out| == i
      invariant forall k :: 0 <= k < i ==> out[k] == f(ids[k])
    {
      out := out + [f(ids[i])];
      i := i + 1;
    }
  }

  // ---------------------------------------------------------------------------------------
  // Players time series
  // ---------------------------------------------------------------------------------------

  /** The ids named in the rows, winners and losers, a missing id counting as one more value. */
  function IdsIn(rows: seq<Match>): set<Option<int>>
  {
    (set k | 0 <= k < |rows| :: rows[k].winnerId) + (set k | 0 <= k < |rows| :: rows[k].loserId)
  }

  function InYear(rows: seq<Match>, y: int): seq<Match>
  {
    Filter(rows, (m: Match) => YearOf(m.tourneyDate) == y)
  }

  /** `sorted(df['year'].unique())`. */
  function TableYears(df: seq<Match>): (ys: seq<int>)
    ensures Increasing(ys, (a: int, b: int) => a < b)
    ensures forall y :: y in ys <==> exists k :: 0 <= k < |df| && YearOf(df[k].tourneyDate) == y
  {
    IntLtStrictTotal();
    var all := seq(|df|, k requires 0 <= k < |df| => YearOf(df[k].tourneyDate) as int);
    assert forall k :: 0 <= k < |df| ==> all[k] == YearOf(df[k].tourneyDate);
    SortedDistinct(all, (a: int, b: int) => a < b)
  }

  /** The guarded share: 0 when the whole is 0. */
  function Ratio(part: nat, whole: nat): (r: real)
    ensures whole == 0 ==> r == 0.0
    ensures part <= whole ==> 0.0 <= r <= 1.0
  {
    if whole > 0 then part as real / whole as real else 0.0
  }

  datatype SeriesPoint = SeriesPoint(year: int, countryUniquePlayers: nat, globalUniquePlayers: nat, ratio: real)

  function PointOf(df: seq<Match>, code: string, y: int): SeriesPoint
  {
    var c := |IdsIn(InYear(CountryMatches(df, code), y))|;
    var g := |IdsIn(InYear(df, y))|;
    SeriesPoint(y, c, g, Ratio(c, g))
  }

  lemma SubsetCard(a: set<Option<int>>, b: set<Option<int>>)
    requires a <= b
    ensures |a| <= |b|
  {
    assert b == a + (b - a);
  }

  lemma IdsSubset(xs: seq<Match>, ys: seq<Match>)
    requires forall m :: m in xs ==> m in ys
    ensures IdsIn(xs) <= IdsIn(ys)
  {
    forall id | id in IdsIn(xs) ensures id in IdsIn(ys) {
      var k :| 0 <= k < |xs| && (xs[k].winnerId == id || xs[k].loserId == id);
      assert xs[k] in xs;
      var j :| 0 <= j < |ys| && ys[j] == xs[k];
    }
  }

  /**
   * A year's point: the country's players are among all players of the year, so the ratio
   * lies between 0 and 1, and a year with a match has players, so its ratio is the plain share.
   */
  lemma PointBounds(df: seq<Match>, code: string, y: int)
    ensures PointOf(df, code, y).countryUniquePlayers <= PointOf(df, code, y).globalUniquePlayers
    ensures 0.0 <= PointOf(df, code, y).ratio <= 1.0
    ensures (exists k :: 0 <= k < |df| && YearOf(df[k].tourneyDate) == y) ==>
      PointOf(df, code, y).globalUniquePlayers > 0
      && PointOf(df, code, y).ratio == PointOf(df, code, y).countryUniquePlayers as real / PointOf(df, code, y).globalUniquePlayers as real
  {
    var cy, dy := InYear(CountryMatches(df, code), y), InYear(df, y);
    IdsSubset(cy, dy);
    SubsetCard(IdsIn(cy), IdsIn(dy));
    if exists k :: 0 <= k < |df| && YearOf(df[k].tourneyDate) == y {
      var k :| 0 <= k < |df| && YearOf(df[k].tourneyDate) == y;
      assert df[k] in df;
      assert df[k] in dy;
      var j :| 0 <= j < |dy| && dy[j] == df[k];
      assert dy[j].winnerId in IdsIn(dy);
    }
  }

  /** A point whose year has players: the share is the plain quotient and lies in [0, 1]. */
  predicate Guarded(p: SeriesPoint)
  {
    && p.countryUniquePlayers <= p.globalUniquePlayers
    && p.globalUniquePlayers > 0
    && p.ratio == p.countryUniquePlayers as real / p.globalUniquePlayers as real
    && 0.0 <= p.ratio <= 1.0
  }

  /** Every year of the table gives a guarded point. */
  lemma TableYearGuarded(df: seq<Match>, code: string, y: int)
    requires y in TableYears(df)
    ensures Guarded(PointOf(df, code, y))
  {
    PointBounds(df, code, y);
  }

  /** `players_time_series`: one point per year of the table, in order, none hitting the guard. */
  method TimeSeries(df: seq<Match>, code: string) returns (ts: seq<SeriesPoint>)
    ensures var years := TableYears(df);
      |ts| == |years| && forall k :: 0 <= k < |ts| ==> ts[k] == PointOf(df, code, years[k])
    ensures forall k :: 0 <= k < |ts| ==> Guarded(ts[k])
  {
    var years := TableYears(df);
    ts := [];
    var i := 0;
    while i < |years|
      invariant 0 <= i <= |years| && |ts| == i
      invariant forall k :: 0 <= k < i ==> ts[k] == PointOf(df, code, years[k]) && Guarded(ts[k])
    {
      TableYearGuarded(df, code, years[i]);
      ts := ts + [PointOf(df, code, years[i])];
      i := i + 1;
    }
  }

  // ---------------------------------------------------------------------------------------
  // Head to head against the top 50
  // ---------------------------------------------------------------------------------------

  predicate WonBy(m: Match, id: Option<int>) { m.winnerId == id }

  predicate LostBy(m: Match, id: Option<int>) { m.loserId == id }

  /** `opp_rank`: the other side's ranking, 9999 when missing. */
  function OppRank(m: Match, id: Option<int>): int
  {
    var r := if WonBy(m, id) then m.loserRank else m.winnerRank;
    if r.Some? then r.value else MissingRank
  }

  function PlayerMatches(rows: seq<Match>, id: Option<int>): seq<Match>
  {
    Filter(rows, (m: Match) => WonBy(m, id) || LostBy(m, id))
  }

  /** `top50_matches`. */
  function Top50Rows(rows: seq<Match>, id: Option<int>): seq<Match>
  {
    Filter(PlayerMatches(rows, id), (m: Match) => OppRank(m, id) <= 50)
  }

  /** `upsets`: top-50 matches the player won against an opponent ranked 10 or better. */
  function UpsetRows(rows: seq<Match>, id: Option<int>): seq<Match>
  {
    Filter(Top50Rows(rows, id), (m: Match) => WonBy(m, id) && OppRank(m, id) <= 10)
  }

  datatype Upset = Upset(date: nat, opponent: Option<string>, opponentRank: int, tournament: Option<string>,
                         round: Option<string>, score: Option<string>)

  function UpsetOf(m: Match, id: Option<int>): Upset
  {
    Upset(m.tourneyDate, if WonBy(m, id) then m.loserName else m.winnerName, OppRank(m, id), m.tourneyName, m.round, m.score)
  }

  datatype Top50Record = Top50Record(id: Option<int>, name: Option<string>, top50Matches: nat, top50Wins: nat,
                                     top50Losses: nat, upsets: seq<Upset>)

  /**
   * Rows each naming the player: the wins and the losses together count every row once,
   * and the rows where the player is named on both sides a second time.
   */
  lemma {:induction false} WinsAndLosses(rows: seq<Match>, id: Option<int>)
    requires forall k :: 0 <= k < |rows| ==> WonBy(rows[k], id) || LostBy(rows[k], id)
    ensures Count(rows, (m: Match) => WonBy(m, id)) + Count(rows, (m: Match) => LostBy(m, id))
            == |rows| + Count(rows, (m: Match) => WonBy(m, id) && LostBy(m, id))
  {
    if |rows| > 0 {
      var init, m := rows[..|rows| - 1], rows[|rows| - 1];
      assert rows == init + [m];
      WinsAndLosses(init, id);
      CountSnoc(init, m, (m: Match) => WonBy(m, id));
      CountSnoc(init, m, (m: Match) => LostBy(m, id));
      CountSnoc(init, m, (m: Match) => WonBy(m, id) && LostBy(m, id));
    }
  }

  function DateKey(m: Match): real
  {
    -(m.tourneyDate as real)
  }

  /**
   * What one `head_to_head_top50` entry holds: the matches against opponents ranked 50 or
   * better, split into wins and losses (which add up to them unless the player is named on
   * both sides), and the upsets over the top 10, each the wins over such an opponent taken
   * once, earliest first.
   */
  ghost predicate IsTop50Record(rows: seq<Match>, id: Option<int>, name: Option<string>, r: Top50Record)
  {
    var t := Top50Rows(rows, id);
    var u := UpsetRows(rows, id);
    && r.id == id && r.name == name && r.top50Matches == |t|
    && r.top50Wins == Count(t, (m: Match) => WonBy(m, id))
    && r.top50Losses == Count(t, (m: Match) => LostBy(m, id))
    && r.top50Wins + r.top50Losses == r.top50Matches + Count(t, (m: Match) => WonBy(m, id) && LostBy(m, id))
    && |r.upsets| == |u|
    && (exists perm :: IsPermutation(perm, |u|) && forall k :: 0 <= k < |u| ==> r.upsets[k] == UpsetOf(u[perm[k]], id))
    && (forall a, b :: 0 <= a < b < |u| ==> r.upsets[a].date <= r.upsets[b].date)
  }

  /**
   * One `head_to_head_top50` entry: the matches against opponents ranked 50 or better, split
   * into wins and losses (which add up to them unless the player is named on both sides),
   * and the upsets over the top 10, earliest first, each naming the beaten opponent.
   */
  method Top50Of(rows: seq<Match>, id: Option<int>, name: Option<string>) returns (r: Top50Record, ghost perm: seq<nat>)
    ensures var t := Top50Rows(rows, id);
      && r.id == id && r.name == name && r.top50Matches == |t|
      && r.top50Wins == Count(t, (m: Match) => WonBy(m, id))
      && r.top50Losses == Count(t, (m: Match) => LostBy(m, id))
      && r.top50Wins + r.top50Losses == r.top50Matches + Count(t, (m: Match) => WonBy(m, id) && LostBy(m, id))
    ensures var u := UpsetRows(rows, id);
      && |r.upsets| == |u| && IsPermutation(perm, |u|)
      && (forall k :: 0 <= k < |u| ==> r.upsets[k] == UpsetOf(u[perm[k]], id))
      && (forall k :: 0 <= k < |u| ==> r.upsets[k].opponent == u[perm[k]].loserName && r.upsets[k].opponentRank <= 10)
      && (forall a, b :: 0 <= a < b < |u| ==> r.upsets[a].date <= r.upsets[b].date)
  {
    var t := Top50Rows(rows, id);
    assert forall k :: 0 <= k < |t| ==> t[k] in t && t[k] in PlayerMatches(rows, id);
    WinsAndLosses(t, id);
    var u := UpsetRows(rows, id);
    var sorted;
    perm, sorted := StableSortDescending(u, DateKey);
    var upsets := [];
    var i := 0;
    while i < |sorted|
      invariant 0 <= i <= |sorted| && |upsets| == i
      invariant forall k :: 0 <= k < i ==> upsets[k] == UpsetOf(sorted[k], id)
    {
      upsets := upsets + [UpsetOf(sorted[i], id)];
      i := i + 1;
    }
    assert forall k :: 0 <= k < |u| ==> u[k] in u;
    r := Top50Record(id, name, |t|, Count(t, (m: Match) => WonBy(m, id)), Count(t, (m: Match) => LostBy(m, id)), upsets);
  }

  /** Every player id has a match of the country that names it. */
  lemma IdHasMatches(rows: seq<Match>, code: string, id: Option<int>)
    requires id in PlayerIds(Appearances(rows, code))
    ensures |PlayerMatches(rows, id)| > 0
  {
    var apps := Appearances(rows, code);
    var k :| 0 <= k < |apps| && apps[k].id == id;
    var w := k < |Sides(rows, code, true)|;
    var side := Sides(rows, code, w);
    assert apps[k] in side;
    var j :| 0 <= j < |rows| && OnSide(rows[j], code, w) && apps[k] == SideOf(rows[j], w);
    assert rows[j] in rows;
    assert rows[j] in PlayerMatches(rows, id);
  }

  /**
   * `head_to_head_top50`: one entry per player id, in id order; no id is skipped. Names are
   * the intended ones, as in `Summarize`.
   */
  method HeadToHeadTop50(df: seq<Match>, code: string) returns (r: seq<Top50Record>)
    ensures var cm := CountryMatches(df, code);
      var ids := PlayerIds(Appearances(cm, code));
      |r| == |ids| && forall k :: 0 <= k < |r| ==>
        IsTop50Record(cm, ids[k], PlayerName(PlayerRows(Appearances(cm, code), ids[k])), r[k])
  {
    var cm := CountryMatches(df, code);
    var apps := Appearances(cm, code);
    var ids := PlayerIds(apps);
    r := [];
    var i := 0;
    while i < |ids|
      invariant 0 <= i <= |ids| && |r| == i
      invariant forall k :: 0 <= k < i ==> IsTop50Record(cm, ids[k], PlayerName(PlayerRows(apps, ids[k])), r[k])
    {
      var id := ids[i];
      IdHasMatches(cm, code, id);
      assert |PlayerMatches(cm, id)| > 0;
      var entry, perm := Top50Of(cm, id, PlayerName(PlayerRows(apps, id)));
      assert IsTop50Record(cm, id, PlayerName(PlayerRows(apps, id)), entry);
      r := r + [entry];
      i := i + 1;
    }
  }

  // ---------------------------------------------------------------------------------------
  // Surface performance
  // ---------------------------------------------------------------------------------------

  const Surfaces: seq<string> := ["Hard", "Clay", "Grass"]

  datatype SurfaceStat = SurfaceStat(wins: nat, matches: nat, winPct: real)

  /**
   * A player's record on one surface over the whole table: wins never exceed matches, and
   * the percentage is 0 for no match and otherwise between 0 and 100.
   */
  function SurfaceStatOf(df: seq<Match>, id: Option<int>, s: string): (st: SurfaceStat)
    ensures st.wins <= st.matches
    ensures st.matches == 0 ==> st.winPct == 0.0
    ensures 0.0 <= st.winPct <= 100.0
    ensures st.matches > 0 ==> st.winPct == st.wins as real / st.matches as real * 100.0
  {
    CountMonotone(df, (m: Match) => WonBy(m, id) && m.surface == Some(s),
                      (m: Match) => (WonBy(m, id) || LostBy(m, id)) && m.surface == Some(s));
    var w := Count(df, (m: Match) => WonBy(m, id) && m.surface == Some(s));
    var n := Count(df, (m: Match) => (WonBy(m, id) || LostBy(m, id)) && m.surface == Some(s));
    SurfaceStat(w, n, Percent(w as real, n as real))
  }

  datatype SurfacePerformance = SurfacePerformance(id: Option<int>, name: Option<string>, stats: seq<SurfaceStat>)

  /**
   * `surface_performance_by_player`: per player id, the record on each of Hard, Clay and
   * Grass. Names are the intended ones, as in `Summarize`.
   */
  method SurfacePerformanceByPlayer(df: seq<Match>, code: string) returns (r: seq<SurfacePerformance>)
    ensures var apps := Appearances(CountryMatches(df, code), code);
      var ids := PlayerIds(apps);
      |r| == |ids| && forall k :: 0 <= k < |r| ==>
        && r[k].id == ids[k] && r[k].name == PlayerName(PlayerRows(apps, ids[k]))
        && |r[k].stats| == |Surfaces|
        && forall j :: 0 <= j < |Surfaces| ==> r[k].stats[j] == SurfaceStatOf(df, ids[k], Surfaces[j])
  {
    var apps := Appearances(CountryMatches(df, code), code);
    var ids := PlayerIds(apps);
    r := [];
    var i := 0;
    while i < |ids|
      invariant 0 <= i <= |ids| && |r| == i
      invariant forall k :: 0 <= k < i ==>
        && r[k].id == ids[k] && r[k].name == PlayerName(PlayerRows(apps, ids[k]))
        && |r[k].stats| == |Surfaces|
        && forall j :: 0 <= j < |Surfaces| ==> r[k].stats[j] == SurfaceStatOf(df, ids[k], Surfaces[j])
    {
      var stats := [];
      var j := 0;
      while j < |Surfaces|
        invariant 0 <= j <= |Surfaces| && |stats| == j
        invariant forall q :: 0 <= q < j ==> stats[q] == SurfaceStatOf(df, ids[i], Surfaces[q])
      {
        stats := stats + [SurfaceStatOf(df, ids[i], Surfaces[j])];
        j := j + 1;
      }
      r := r + [SurfacePerformance(ids[i], PlayerName(PlayerRows(apps, ids[i])), stats)];
      i := i + 1;
    }
  }
}
