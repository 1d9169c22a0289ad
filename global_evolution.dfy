/**
 * aggregations/global_evolution.py: which countries' players win matches, year by year.
 * Every fifth year from 1975 up to (not including) the current year gets, per winner's
 * country, the distinct winners, the best winner ranking and the first winner holding it;
 * a timeline of the countries with winners and with top-10 winners; the same profiles
 * regrouped by year; and, for the fifty players with most wins, the span of years they won in.
 * The current year is a parameter (the source reads the clock).
 */
module GlobalEvolution {
  import opened Wrappers
  import opened Matches
  import opened Ordering
  import Network

  const AnalysisStartYear := 1975
  const YearStep := 5

  /** `range(start, stop, YEAR_STEP)`. */
  function YearsFrom(start: int, stop: int): (ys: seq<int>)
    ensures forall k :: 0 <= k < |ys| ==> ys[k] == start + YearStep * k && ys[k] < stop
    ensures start + YearStep * |ys| >= stop
    decreases stop - start
  {
    if start >= stop then [] else [start] + YearsFrom(start + YearStep, stop)
  }

  /** The analysed years, `range(ANALYSIS_START_YEAR, current_year, YEAR_STEP)`. */
  function AnalysisYears(currentYear: int): (ys: seq<int>)
    ensures forall i, j :: 0 <= i < j < |ys| ==> ys[i] < ys[j]
    ensures forall k :: 0 <= k < |ys| ==> AnalysisStartYear <= ys[k] < currentYear
  {
    YearsFrom(AnalysisStartYear, currentYear)
  }

  /** `df[df['year'] == year]`, in row order. */
  function YearRows(df: seq<Match>, year: int): seq<Match>
  {
    Filter(df, (m: Match) => YearOf(m.tourneyDate) == year)
  }

  // ---------------------------------------------------------------------------------------
  // Country code mapping
  // ---------------------------------------------------------------------------------------

  /** The distinct present `winner_ioc` codes. */
  function Iocs(df: seq<Match>): set<string>
  {
    set k | 0 <= k < |df| && df[k].winnerIoc.Some? :: df[k].winnerIoc.value
  }

  /** The `country_mapping` loop: every present winner country code maps to itself. */
  method CountryMapping(df: seq<Match>) returns (mapping: map<string, string>)
    ensures mapping.Keys == Iocs(df)
    ensures forall c :: c in mapping ==> mapping[c] == c
  {
    mapping := map[];
    var i := 0;
    while i < |df|
      invariant 0 <= i <= |df|
      invariant mapping.Keys == Iocs(df[..i])
      invariant forall c :: c in mapping ==> mapping[c] == c
    {
      var ioc := df[i].winnerIoc;
      assert Iocs(df[..i + 1]) == Iocs(df[..i]) + (if ioc.Some? then {ioc.value} else {}) by {
        assert forall k :: 0 <= k < i ==> df[..i + 1][k] == df[..i][k];
      }
      if ioc.Some? && ioc.value !in mapping {
        mapping := mapping[ioc.value := ioc.value];
      }
      i := i + 1;
    }
    assert df[..i] == df;
  }

  // ---------------------------------------------------------------------------------------
  // One country's year: distinct winners, best rank, top player
  // ---------------------------------------------------------------------------------------

  /** A `country_stats` entry. Names are kept with their missing values, as the set does. */
  datatype Stats = Stats(players: set<Option<string>>, topPlayer: Option<string>, bestRank: Option<int>)

  /** The entry a country's first row of the year creates. */
  function Fresh(m: Match): Stats
  {
    Stats({}, m.winnerName, m.winnerRank)
  }

  /** `rank < best` as Python evaluates it on floats: false when either side is NaN. */
  predicate NanLess(rank: Option<int>, best: Option<int>)
  {
    rank.Some? && best.Some? && rank.value < best.value
  }

  /** A present rank beats the best so far when it is smaller or no best is known yet. */
  predicate Improves(rank: Option<int>, best: Option<int>)
  {
    rank.Some? && (best.None? || rank.value < best.value)
  }

  /** The update the source applies for one row, with its NaN comparison. */
  function AddAsWritten(s: Stats, m: Match): Stats
  {
    var s' := s.(players := s.players + {m.winnerName});
    if NanLess(m.winnerRank, s.bestRank) then s'.(bestRank := m.winnerRank, topPlayer := m.winnerName) else s'
  }

  /** The update the source evidently intends: a missing best rank is replaced by a present one. */
  function Add(s: Stats, m: Match): Stats
  {
    var s' := s.(players := s.players + {m.winnerName});
    if Improves(m.winnerRank, s.bestRank) then s'.(bestRank := m.winnerRank, topPlayer := m.winnerName) else s'
  }

  /** A country's entry after its rows of the year, updated as written. */
  function TallyAsWritten(rows: seq<Match>): Stats
    requires |rows| > 0
  {
    if |rows| == 1 then AddAsWritten(Fresh(rows[0]), rows[0])
    else AddAsWritten(TallyAsWritten(rows[..|rows| - 1]), rows[|rows| - 1])
  }

  /** A country's entry after its rows of the year, updated as intended. */
  function Tally(rows: seq<Match>): Stats
    requires |rows| > 0
  {
    if |rows| == 1 then Add(Fresh(rows[0]), rows[0])
    else Add(Tally(rows[..|rows| - 1]), rows[|rows| - 1])
  }

  function Names(rows: seq<Match>): set<Option<string>>
  {
    set k | 0 <= k < |rows| :: rows[k].winnerName
  }

  /** The last row adds its winner's name to those of the rows before it. */
  lemma NamesSnoc(rows: seq<Match>)
    requires |rows| > 0
    ensures Names(rows) == Names(rows[..|rows| - 1]) + {rows[|rows| - 1].winnerName}
  {
    var n, init := |rows|, rows[..|rows| - 1];
    forall x | x in Names(rows) ensures x in Names(init) || x == rows[n - 1].winnerName {
      var k :| 0 <= k < n && rows[k].winnerName == x;
      if k < n - 1 { assert init[k].winnerName == x; }
    }
    forall x | x in Names(init) ensures x in Names(rows) {
      var k :| 0 <= k < n - 1 && init[k].winnerName == x;
      assert rows[k].winnerName == x;
    }
    assert rows[n - 1].winnerName in Names(rows);
  }

  /**
   * The intended entry: every winner's name, the smallest present ranking (missing only
   * when no row has one), and the name on the first row holding that ranking, or on the
   * first row when no ranking is present.
   */
  lemma {:induction false} TallyFacts(rows: seq<Match>)
    requires |rows| > 0
    ensures Tally(rows).players == Names(rows)
    ensures Tally(rows).bestRank.None? <==> forall k :: 0 <= k < |rows| ==> rows[k].winnerRank.None?
    ensures Tally(rows).bestRank.Some? ==>
      forall k :: 0 <= k < |rows| && rows[k].winnerRank.Some? ==> Tally(rows).bestRank.value <= rows[k].winnerRank.value
    ensures Tally(rows).bestRank.Some? ==>
      exists i :: 0 <= i < |rows| && rows[i].winnerRank == Tally(rows).bestRank
        && Tally(rows).topPlayer == rows[i].winnerName
        && forall j :: 0 <= j < i ==> rows[j].winnerRank != Tally(rows).bestRank
    ensures Tally(rows).bestRank.None? ==> Tally(rows).topPlayer == rows[0].winnerName
  {
    var n := |rows|;
    if n > 1 {
      var init, m := rows[..n - 1], rows[n - 1];
      TallyFacts(init);
      assert forall k :: 0 <= k < n - 1 ==> init[k] == rows[k];
      NamesSnoc(rows);
      var s := Tally(init);
      if Improves(m.winnerRank, s.bestRank) {
        var i := n - 1;
        assert forall j :: 0 <= j < i ==> rows[j].winnerRank != m.winnerRank by {
          forall j | 0 <= j < i ensures rows[j].winnerRank != m.winnerRank {
            assert init[j] == rows[j];
          }
        }
      } else {
        if s.bestRank.Some? {
          var i :| 0 <= i < n - 1 && init[i].winnerRank == s.bestRank && s.topPlayer == init[i].winnerName
                   && forall j :: 0 <= j < i ==> init[j].winnerRank != s.bestRank;
          assert rows[i] == init[i];
        }
      }
    }
  }

  /**
   * As written, a country whose first row of the year lacks a ranking keeps a missing best
   * rank for the whole year, and keeps that row's winner as its top player, whatever
   * rankings later rows carry.
   */
  lemma {:induction false} NanFirstRankSticks(rows: seq<Match>)
    requires |rows| > 0 && rows[0].winnerRank.None?
    ensures TallyAsWritten(rows).bestRank.None?
    ensures TallyAsWritten(rows).topPlayer == rows[0].winnerName
  {
    if |rows| > 1 {
      NanFirstRankSticks(rows[..|rows| - 1]);
    }
  }

  /** When the first row has a ranking the NaN comparison never matters: both updates agree. */
  lemma {:induction false} AsWrittenAgrees(rows: seq<Match>)
    requires |rows| > 0 && rows[0].winnerRank.Some?
    ensures TallyAsWritten(rows) == Tally(rows)
    ensures Tally(rows).bestRank.Some?
  {
    if |rows| > 1 {
      AsWrittenAgrees(rows[..|rows| - 1]);
    }
  }

  /** A winner row of the given country, ranking and name, in the year 2000. */
  function Row(ioc: string, rank: Option<int>, name: string): Match
  {
    Match(None, None, None, None, 20000101, None, None, None, Some(name), None, Some(ioc), None,
          rank, None, None, None, None, None, None, None, None)
  }

  /**
   * The discrepancy on two rows of one country: an unranked winner then a winner ranked 3.
   * As written the country has no best rank, so it is reported with `top_rank` 100 and
   * `ever_in_top10` 0 and the unranked winner as top player; as intended its best rank is 3.
   */
  lemma NanFirstRankExample()
    ensures var rows := [Row("ESP", None, "A"), Row("ESP", Some(3), "B")];
      && ProfileOf(TallyAsWritten(rows)).topRank == 100
      && ProfileOf(TallyAsWritten(rows)).everInTop10 == 0
      && ProfileOf(TallyAsWritten(rows)).topPlayer == Some("A")
      && ProfileOf(Tally(rows)).topRank == 3
      && ProfileOf(Tally(rows)).everInTop10 == 1
      && ProfileOf(Tally(rows)).topPlayer == Some("B")
  {
    var rows := [Row("ESP", None, "A"), Row("ESP", Some(3), "B")];
    assert rows[..1] == [rows[0]];
  }

  // ---------------------------------------------------------------------------------------
  // All countries of one year
  // ---------------------------------------------------------------------------------------

  /**
   * One row of the `country_stats` loop; rows without a winner country are skipped. The best
   * rank is updated as intended (`Add`), not as written (`AddAsWritten`).
   */
  function StepStats(st: map<string, Stats>, m: Match): map<string, Stats>
  {
    if m.winnerIoc.None? then st
    else
      var c := m.winnerIoc.value;
      st[c := Add(if c in st then st[c] else Fresh(m), m)]
  }

  function StatsAfter(rows: seq<Match>): map<string, Stats>
  {
    if |rows| == 0 then map[] else StepStats(StatsAfter(rows[..|rows| - 1]), rows[|rows| - 1])
  }

  /** The rows of one winner country. */
  function CountryRows(rows: seq<Match>, c: string): seq<Match>
  {
    Filter(rows, (m: Match) => m.winnerIoc == Some(c))
  }

  /** The `country_stats` loop over one year's rows, with the intended best-rank update. */
  method CountryStats(rows: seq<Match>) returns (st: map<string, Stats>)
    ensures st == StatsAfter(rows)
  {
    st := map[];
    var i := 0;
    while i < |rows|
      invariant 0 <= i <= |rows| && st == StatsAfter(rows[..i])
    {
      assert rows[..i + 1][..i] == rows[..i];
      var m := rows[i];
      if m.winnerIoc.Some? {
        var c := m.winnerIoc.value;
        if c !in st {
          st := st[c := Fresh(m)];
        }
        st := st[c := Add(st[c], m)];
      }
      i := i + 1;
    }
    assert rows[..i] == rows;
  }

  /**
   * Each country's entry depends on its own rows only: a country has an entry exactly when
   * one of the rows is its, and the entry is the tally of its rows.
   */
  lemma {:induction false} StatsPerCountry(rows: seq<Match>, c: string)
    ensures c in StatsAfter(rows) <==> |CountryRows(rows, c)| > 0
    ensures c in StatsAfter(rows) ==> StatsAfter(rows)[c] == Tally(CountryRows(rows, c))
  {
    if |rows| > 0 {
      var init, m := rows[..|rows| - 1], rows[|rows| - 1];
      StatsPerCountry(init, c);
      var xs := CountryRows(init, c);
      if m.winnerIoc == Some(c) {
        assert CountryRows(rows, c) == xs + [m];
        assert (xs + [m])[..|xs|] == xs;
      } else {
        assert CountryRows(rows, c) == xs;
      }
    }
  }

  predicate HasCountry(rows: seq<Match>, c: string)
  {
    exists k :: 0 <= k < |rows| && rows[k].winnerIoc == Some(c)
  }

  lemma CountryRowsExist(rows: seq<Match>, c: string)
    ensures |CountryRows(rows, c)| > 0 <==> HasCountry(rows, c)
  {
    var xs := CountryRows(rows, c);
    if |xs| > 0 {
      assert xs[0] in xs;
      var k :| 0 <= k < |rows| && rows[k] == xs[0];
    }
    if HasCountry(rows, c) {
      var k :| 0 <= k < |rows| && rows[k].winnerIoc == Some(c);
      assert rows[k] in rows;
      assert rows[k] in xs;
    }
  }

  // ---------------------------------------------------------------------------------------
  // Country profiles
  // ---------------------------------------------------------------------------------------

  /** A `country_profiles[country][str(year)]` entry. */
  datatype Profile = Profile(everInTop100: nat, everInTop10: nat, topPlayer: Option<string>,
                             topRank: int, uniqueAtpPlayer: nat)

  /** The profile of an entry: a missing best rank is not in the top 10 and reads as 100. */
  function ProfileOf(s: Stats): (p: Profile)
    ensures p.everInTop100 == p.uniqueAtpPlayer == |s.players|
    ensures p.everInTop10 <= 1 && (p.everInTop10 == 1 <==> s.bestRank.Some? && s.bestRank.value <= 10)
    ensures s.bestRank.None? ==> p.topRank == 100
    ensures s.bestRank.Some? ==> p.topRank == s.bestRank.value
    ensures p.topPlayer == s.topPlayer
  {
    Profile(|s.players|, if s.bestRank.Some? && s.bestRank.value <= 10 then 1 else 0,
            s.topPlayer, if s.bestRank.Some? then s.bestRank.value else 100, |s.players|)
  }

  /** A winner ranked in the top 10 (false for a missing rank). */
  predicate Top10(rank: Option<int>) { rank.Some? && rank.value <= 10 }

  /**
   * A country's profile for a year counts its distinct winners' names, flags the top 10
   * exactly when one of its winners that year was ranked 10 or better, and reports the best
   * of their rankings (100 when none is present).
   */
  lemma ProfileFacts(rows: seq<Match>, c: string)
    requires c in StatsAfter(rows)
    ensures var p, xs := ProfileOf(StatsAfter(rows)[c]), CountryRows(rows, c);
      && p.everInTop100 == |Names(xs)|
      && (p.everInTop10 == 1 <==> exists k :: 0 <= k < |xs| && Top10(xs[k].winnerRank))
      && ((forall k :: 0 <= k < |xs| ==> xs[k].winnerRank.None?) ==> p.topRank == 100)
      && (forall k :: 0 <= k < |xs| && xs[k].winnerRank.Some? ==> p.topRank <= xs[k].winnerRank.value)
      && ((exists k :: 0 <= k < |xs| && xs[k].winnerRank.Some?) ==>
            exists k :: 0 <= k < |xs| && xs[k].winnerRank == Some(p.topRank))
  {
    StatsPerCountry(rows, c);
    var xs := CountryRows(rows, c);
    TallyFacts(xs);
  }

  type Profiles = map<string, map<int, Profile>>

  function StatsOfYear(df: seq<Match>, year: int): map<string, Stats>
  {
    StatsAfter(YearRows(df, year))
  }

  /** The `for country, stats in country_stats.items()` loop for one year. */
  function AddYear(p: Profiles, year: int, st: map<string, Stats>): Profiles
  {
    map c | c in p.Keys + st.Keys ::
      if c in st then (if c in p then p[c] else map[])[year := ProfileOf(st[c])] else p[c]
  }

  /**
   * `country_profiles` after the given years: a country has a profile for a year exactly
   * when it had a winner that year, and the profile is that year's entry's.
   */
  ghost predicate ProfilesOf(df: seq<Match>, years: seq<int>, p: Profiles)
  {
    (forall c, y :: c in p && y in p[c] ==>
       y in years && c in StatsOfYear(df, y) && p[c][y] == ProfileOf(StatsOfYear(df, y)[c]))
    && (forall y, c :: y in years && c in StatsOfYear(df, y) ==> c in p && y in p[c])
  }

  lemma AddYearOk(df: seq<Match>, years: seq<int>, p: Profiles, year: int)
    requires ProfilesOf(df, years, p) && year !in years
    ensures ProfilesOf(df, years + [year], AddYear(p, year, StatsOfYear(df, year)))
  {
    var st := StatsOfYear(df, year);
    var q := AddYear(p, year, st);
    forall c, y | c in q && y in q[c]
      ensures y in years + [year] && c in StatsOfYear(df, y) && q[c][y] == ProfileOf(StatsOfYear(df, y)[c])
    {
      if y != year {
        assert c in p && y in p[c];
      }
    }
  }

  /** The per-year loop that fills `country_profiles`. */
  method CountryProfiles(df: seq<Match>, currentYear: int) returns (p: Profiles)
    ensures ProfilesOf(df, AnalysisYears(currentYear), p)
  {
    var years := AnalysisYears(currentYear);
    p := map[];
    var i := 0;
    while i < |years|
      invariant 0 <= i <= |years| && ProfilesOf(df, years[..i], p)
    {
      var st := CountryStats(YearRows(df, years[i]));
      assert years[i] !in years[..i];
      AddYearOk(df, years[..i], p, years[i]);
      assert years[..i + 1] == years[..i] + [years[i]];
      p := AddYear(p, years[i], st);
      i := i + 1;
    }
    assert years[..i] == years;
  }

  // ---------------------------------------------------------------------------------------
  // Global timeline
  // ---------------------------------------------------------------------------------------

  predicate HasTop10(rows: seq<Match>, c: string)
  {
    exists k :: 0 <= k < |rows| && rows[k].winnerIoc == Some(c) && Top10(rows[k].winnerRank)
  }

  /** A `timeline` point; the three Shannon indices are constants and left out. */
  datatype TimelinePoint = TimelinePoint(
    year: int, countriesTop100: seq<string>, countriesTop10: seq<string>,
    numCountriesTop100: nat, numCountriesTop10: nat, numCountriesWithPlayers: nat,
    totalUniquePlayers: nat)

  /** One more row adds its own country, and its flag for the top 10, to those before it. */
  lemma CountriesSnoc(rows: seq<Match>, i: nat)
    requires i < |rows|
    ensures forall c :: HasCountry(rows[..i + 1], c) <==> HasCountry(rows[..i], c) || rows[i].winnerIoc == Some(c)
    ensures forall c :: HasTop10(rows[..i + 1], c) <==>
      HasTop10(rows[..i], c) || (rows[i].winnerIoc == Some(c) && Top10(rows[i].winnerRank))
  {
    assert forall k :: 0 <= k < i ==> rows[..i + 1][k] == rows[..i][k];
    assert rows[..i + 1][i] == rows[i];
  }

  /**
   * The row loop filling the `countries_top100` and `countries_top10` sets, each held as
   * the sorted list `sorted(list(...))` makes of it.
   */
  method YearCountries(rows: seq<Match>) returns (top100: seq<string>, top10: seq<string>)
    ensures Increasing(top100, StrLt) && Increasing(top10, StrLt)
    ensures forall c :: c in top100 <==> HasCountry(rows, c)
    ensures forall c :: c in top10 <==> HasTop10(rows, c)
  {
    StrLtStrictTotal();
    top100, top10 := [], [];
    var i := 0;
    while i < |rows|
      invariant 0 <= i <= |rows|
      invariant Increasing(top100, StrLt) && Increasing(top10, StrLt)
      invariant forall c :: c in top100 <==> HasCountry(rows[..i], c)
      invariant forall c :: c in top10 <==> HasTop10(rows[..i], c)
    {
      var m := rows[i];
      CountriesSnoc(rows, i);
      if m.winnerIoc.Some? {
        top100 := Insert(top100, m.winnerIoc.value, StrLt);
        if Top10(m.winnerRank) {
          top10 := Insert(top10, m.winnerIoc.value, StrLt);
        }
      }
      i := i + 1;
    }
    assert rows[..i] == rows;
  }

  /**
   * `calculate_global_evolution`'s timeline: per analysed year, the sorted lists of
   * countries with a winner and with a top-10 winner (the second within the first), their
   * sizes, and the number of distinct winner names that year.
   */
  method Timeline(df: seq<Match>, currentYear: int) returns (t: seq<TimelinePoint>)
    ensures var years := AnalysisYears(currentYear);
      |t| == |years| && forall k :: 0 <= k < |t| ==> t[k].year == years[k]
    ensures var years := AnalysisYears(currentYear);
      forall k :: 0 <= k < |t| ==>
        && Increasing(t[k].countriesTop100, StrLt) && Increasing(t[k].countriesTop10, StrLt)
        && (forall c :: c in t[k].countriesTop100 <==> HasCountry(YearRows(df, years[k]), c))
        && (forall c :: c in t[k].countriesTop10 <==> HasTop10(YearRows(df, years[k]), c))
        && (forall c :: c in t[k].countriesTop10 ==> c in t[k].countriesTop100)
        && t[k].numCountriesTop100 == |t[k].countriesTop100| == t[k].numCountriesWithPlayers
        && t[k].numCountriesTop10 == |t[k].countriesTop10|
        && t[k].totalUniquePlayers == |Names(YearRows(df, years[k]))|
  {
    var years := AnalysisYears(currentYear);
    t := [];
    var i := 0;
    while i < |years|
      invariant 0 <= i <= |years| && |t| == i
      invariant forall k :: 0 <= k < i ==> t[k].year == years[k]
      invariant forall k :: 0 <= k < i ==>
        && Increasing(t[k].countriesTop100, StrLt) && Increasing(t[k].countriesTop10, StrLt)
        && (forall c :: c in t[k].countriesTop100 <==> HasCountry(YearRows(df, years[k]), c))
        && (forall c :: c in t[k].countriesTop10 <==> HasTop10(YearRows(df, years[k]), c))
        && (forall c :: c in t[k].countriesTop10 ==> c in t[k].countriesTop100)
        && t[k].numCountriesTop100 == |t[k].countriesTop100| == t[k].numCountriesWithPlayers
        && t[k].numCountriesTop10 == |t[k].countriesTop10|
        && t[k].totalUniquePlayers == |Names(YearRows(df, years[k]))|
    {
      var rows := YearRows(df, years[i]);
      var top100, top10 := YearCountries(rows);
      t := t + [TimelinePoint(years[i], top100, top10, |top100|, |top10|, |top100|, |Names(rows)|)];
      i := i + 1;
    }
  }

  // ---------------------------------------------------------------------------------------
  // Timeline by year
  // ---------------------------------------------------------------------------------------

  datatype YearEntry = YearEntry(year: int, countries: map<string, Profile>)

  /** The countries with a profile for `year`, each with that profile. */
  function CountriesIn(p: Profiles, year: int): (r: map<string, Profile>)
    ensures forall c :: c in r <==> c in p && year in p[c]
  {
    map c | c in p && year in p[c] :: p[c][year]
  }

  /** `timeline_js`: per analysed year, the countries having a profile that year. */
  method TimelineJs(p: Profiles, currentYear: int) returns (t: seq<YearEntry>)
    ensures var years := AnalysisYears(currentYear);
      |t| == |years| && forall k :: 0 <= k < |t| ==> t[k].year == years[k]
    ensures var years := AnalysisYears(currentYear);
      forall k :: 0 <= k < |t| ==> forall c :: c in t[k].countries <==> c in p && years[k] in p[c]
    ensures var years := AnalysisYears(currentYear);
      forall k, c :: 0 <= k < |t| && c in t[k].countries ==> t[k].countries[c] == p[c][years[k]]
  {
    var years := AnalysisYears(currentYear);
    t := [];
    var i := 0;
    while i < |years|
      invariant 0 <= i <= |years| && |t| == i
      invariant forall k :: 0 <= k < i ==> t[k] == YearEntry(years[k], CountriesIn(p, years[k]))
    {
      t := t + [YearEntry(years[i], CountriesIn(p, years[i]))];
      i := i + 1;
    }
  }

  /**
   * The countries `timeline_js` lists for an analysed year are exactly those of that year's
   * `countries_top100`, each with the profile of its winners that year.
   */
  lemma TimelinesAgree(df: seq<Match>, years: seq<int>, p: Profiles, year: int, c: string)
    requires ProfilesOf(df, years, p) && year in years
    ensures c in CountriesIn(p, year) <==> HasCountry(YearRows(df, year), c)
    ensures var xs := CountryRows(YearRows(df, year), c);
      c in CountriesIn(p, year) ==> |xs| > 0 && CountriesIn(p, year)[c] == ProfileOf(Tally(xs))
  {
    var rows := YearRows(df, year);
    ProfileOfYear(df, years, p, year, c);
    StatsPerCountry(rows, c);
    CountryRowsExist(rows, c);
  }

  /** A profile for an analysed year is there exactly when that year's tally has the country. */
  lemma ProfileOfYear(df: seq<Match>, years: seq<int>, p: Profiles, year: int, c: string)
    requires ProfilesOf(df, years, p) && year in years
    ensures c in CountriesIn(p, year) <==> c in StatsOfYear(df, year)
    ensures c in CountriesIn(p, year) ==> CountriesIn(p, year)[c] == ProfileOf(StatsOfYear(df, year)[c])
  {
  }

  // ---------------------------------------------------------------------------------------
  // Top players
  // ---------------------------------------------------------------------------------------

  /** A `top_players_timeline` entry. */
  datatype TopPlayer = TopPlayer(player: string, country: string, yearsActive: seq<int>,
                                 totalTitles: nat, peakYear: int)

  function WinsOf(df: seq<Match>, player: string): seq<Match>
  {
    Filter(df, (m: Match) => m.winnerName == Some(player))
  }

  function YearsOf(rows: seq<Match>): (ys: seq<int>)
    ensures |ys| == |rows|
  {
    seq(|rows|, k requires 0 <= k < |rows| => YearOf(rows[k].tourneyDate) as int)
  }

  function Lowest(xs: seq<int>): (r: int)
    requires |xs| > 0
    ensures r in xs && forall k :: 0 <= k < |xs| ==> r <= xs[k]
  {
    if |xs| == 1 then xs[0]
    else
      var m := Lowest(xs[..|xs| - 1]);
      assert forall k :: 0 <= k < |xs| - 1 ==> xs[..|xs| - 1][k] == xs[k];
      if xs[|xs| - 1] < m then xs[|xs| - 1] else m
  }

  function Highest(xs: seq<int>): (r: int)
    requires |xs| > 0
    ensures r in xs && forall k :: 0 <= k < |xs| ==> xs[k] <= r
  {
    if |xs| == 1 then xs[0]
    else
      var m := Highest(xs[..|xs| - 1]);
      assert forall k :: 0 <= k < |xs| - 1 ==> xs[..|xs| - 1][k] == xs[k];
      if xs[|xs| - 1] > m then xs[|xs| - 1] else m
  }

  /** The consecutive years `lo` .. `hi`. */
  function Span(lo: int, hi: int): (s: seq<int>)
    requires lo <= hi
    ensures |s| == hi - lo + 1 && forall k :: 0 <= k < |s| ==> s[k] == lo + k
  {
    seq(hi - lo + 1, k => lo + k)
  }

  /**
   * The entry of a player with the given country and the years of their wins: every year
   * from the first to the last of them, the number of wins, and the year with most wins
   * (`mode()[0]`: the modes come out sorted, so the earliest among equals).
   */
  function Entry(player: string, country: Option<string>, ys: seq<int>): (e: TopPlayer)
    requires |ys| > 0
    ensures e.player == player && e.country == Network.Label(country) && e.totalTitles == |ys|
    ensures |e.yearsActive| >= 1 && e.yearsActive[0] in ys && e.yearsActive[|e.yearsActive| - 1] in ys
    ensures forall k :: 0 <= k < |e.yearsActive| ==> e.yearsActive[k] == e.yearsActive[0] + k
    ensures forall k :: 0 <= k < |ys| ==> e.yearsActive[0] <= ys[k] <= e.yearsActive[|e.yearsActive| - 1]
    ensures e.peakYear in ys
    ensures forall y :: y in ys ==> Freq(ys, y) <= Freq(ys, e.peakYear)
    ensures forall y :: y in ys && Freq(ys, y) == Freq(ys, e.peakYear) ==> e.peakYear <= y
  {
    IntLtStrictTotal();
    var peak := Mode(ys, (a: int, b: int) => a < b);
    TopPlayer(player, Network.Label(country), Span(Lowest(ys), Highest(ys)), |ys|, peak.value)
  }

  /** One player's entry, the country taken from the player's first winning row ("nan" when missing). */
  function PlayerEntry(df: seq<Match>, player: string): TopPlayer
    requires |WinsOf(df, player)| > 0
  {
    var rows := WinsOf(df, player);
    Entry(player, rows[0].winnerIoc, YearsOf(rows))
  }

  /** The distinct present winner names, in order of first appearance. */
  function Winners(df: seq<Match>): (r: seq<string>)
    ensures forall i, j :: 0 <= i < j < |r| ==> r[i] != r[j]
    ensures forall p :: p in r <==> |WinsOf(df, p)| > 0
  {
    if |df| == 0 then []
    else
      var init := Winners(df[..|df| - 1]);
      var m := df[|df| - 1];
      assert forall p :: |WinsOf(df, p)| > 0 <==> |WinsOf(df[..|df| - 1], p)| > 0 || m.winnerName == Some(p) by {
        forall p ensures |WinsOf(df, p)| > 0 <==> |WinsOf(df[..|df| - 1], p)| > 0 || m.winnerName == Some(p) {
          assert WinsOf(df, p) == WinsOf(df[..|df| - 1], p) + (if m.winnerName == Some(p) then [m] else []);
        }
      }
      if m.winnerName.Some? && m.winnerName.value !in init then init + [m.winnerName.value] else init
  }

  /**
   * `top_players_timeline`: the fifty players with most wins (`value_counts().head(50)`),
   * most wins first, each with their entry; no player left out has more wins than one kept.
   */
  method TopPlayersTimeline(df: seq<Match>) returns (t: seq<TopPlayer>, ghost perm: seq<nat>)
    ensures var names := Winners(df);
      |t| == (if |names| < 50 then |names| else 50) && IsPermutation(perm, |names|)
    ensures var names := Winners(df);
      forall k :: 0 <= k < |t| ==> t[k] == PlayerEntry(df, names[perm[k]])
    ensures forall a, b :: 0 <= a < b < |t| ==> t[a].totalTitles >= t[b].totalTitles
    ensures var names := Winners(df);
      forall a, k :: 0 <= a < |t| <= k < |names| ==> |WinsOf(df, names[perm[k]])| <= t[a].totalTitles
  {
    var names := Winners(df);
    var tallied: seq<(string, int)> := seq(|names|, k requires 0 <= k < |names| => (names[k], |WinsOf(df, names[k])|));
    var sorted;
    perm, sorted := StableSortDescending(tallied, (e: (string, int)) => e.1 as real);
    var n := if |names| < 50 then |names| else 50;
    t := [];
    var i := 0;
    while i < n
      invariant 0 <= i <= n && |t| == i
      invariant forall k :: 0 <= k < i ==> t[k] == PlayerEntry(df, names[perm[k]]) && t[k].totalTitles == sorted[k].1
    {
      assert sorted[i] == tallied[perm[i]];
      t := t + [PlayerEntry(df, sorted[i].0)];
      i := i + 1;
    }
  }
}
