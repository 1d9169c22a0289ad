/**
 * Recognising the four Grand Slam tournaments by name, and the table filters the
 * aggregations share (Grand Slams only, a year range, some rounds, some tournaments).
 */
module GrandSlams {
  import opened Wrappers
  import opened Text
  import opened Matches

  const AustralianOpen := "Australian Open"
  const RolandGarros := "Roland Garros"
  const Wimbledon := "Wimbledon"
  const UsOpen := "US Open"
  const Names := [AustralianOpen, RolandGarros, Wimbledon, UsOpen]

  /**
   * `is_grand_slam`: a missing name is not a Grand Slam; otherwise the Australian Open,
   * Roland Garros and the US Open are recognised anywhere inside the name, while
   * Wimbledon must be the whole name.
   */
  predicate IsGrandSlam(name: Option<string>)
  {
    name.Some? && (Contains(name.value, AustralianOpen) || Contains(name.value, RolandGarros)
                   || name.value == Wimbledon || Contains(name.value, UsOpen))
  }

  /** `get_grand_slam_name`: the canonical name of a Grand Slam, any other name unchanged. */
  function CanonicalName(name: Option<string>): (r: Option<string>)
    ensures r.None? <==> name.None?
    ensures r.Some? && r.value !in Names ==> r == name
  {
    match name
    case None => None
    case Some(s) =>
      if Contains(s, AustralianOpen) then Some(AustralianOpen)
      else if Contains(s, RolandGarros) then Some(RolandGarros)
      else if s == Wimbledon then Some(Wimbledon)
      else if Contains(s, UsOpen) then Some(UsOpen)
      else name
  }

  lemma ContainsItself(s: string)
    ensures Contains(s, s)
  {
    assert OccursAt(s, s, 0);
  }

  lemma LongerNotContained(s: string, p: string)
    requires |p| > |s|
    ensures !Contains(s, p)
  {
  }

  /**
   * The two recognisers agree: a name is a Grand Slam exactly when its canonical name is
   * one of the four.
   */
  lemma GrandSlamIffCanonical(name: Option<string>)
    ensures IsGrandSlam(name) <==> CanonicalName(name).Some? && CanonicalName(name).value in Names
  {
    if name.Some? && !IsGrandSlam(name) {
      var s := name.value;
      if s == AustralianOpen { ContainsItself(s); }
      if s == RolandGarros { ContainsItself(s); }
      if s == UsOpen { ContainsItself(s); }
    }
  }

  /** Each canonical name is its own canonical name. */
  lemma CanonicalFixed(c: string)
    requires c in Names
    ensures CanonicalName(Some(c)) == Some(c)
  {
    ContainsItself(c);
    if c != AustralianOpen {
      LongerNotContained(c, AustralianOpen);
    }
    if c == UsOpen {
      LongerNotContained(c, RolandGarros);
    }
  }

  /** Normalising a name twice is normalising it once. */
  lemma CanonicalIdempotent(name: Option<string>)
    ensures CanonicalName(CanonicalName(name)) == CanonicalName(name)
  {
    var r := CanonicalName(name);
    if r.Some? && r.value in Names {
      CanonicalFixed(r.value);
    }
  }

  /** `filter_grand_slams`: the rows whose tournament is a Grand Slam. */
  function FilterGrandSlams(df: seq<Match>): (r: seq<Match>)
    ensures forall m :: m in r <==> m in df && IsGrandSlam(m.tourneyName)
  {
    Filter(df, (m: Match) => IsGrandSlam(m.tourneyName))
  }

  /** `filter_by_year`: an absent bound does not restrict the rows. */
  predicate InYears(m: Match, minYear: Option<int>, maxYear: Option<int>)
  {
    (minYear.None? || YearOf(m.tourneyDate) >= minYear.value)
    && (maxYear.None? || YearOf(m.tourneyDate) <= maxYear.value)
  }

  function FilterByYear(df: seq<Match>, minYear: Option<int>, maxYear: Option<int>): (r: seq<Match>)
    ensures forall m :: m in r <==> m in df && InYears(m, minYear, maxYear)
  {
    Filter(df, (m: Match) => InYears(m, minYear, maxYear))
  }

  /** Narrowing a year range twice is narrowing it once to the intersection of the ranges. */
  lemma FilterByYearTwice(df: seq<Match>, lo1: int, hi1: int, lo2: int, hi2: int)
    ensures FilterByYear(FilterByYear(df, Some(lo1), Some(hi1)), Some(lo2), Some(hi2))
         == FilterByYear(df, Some(Max(lo1, lo2)), Some(Min(hi1, hi2)))
  {
    var p := (m: Match) => InYears(m, Some(lo1), Some(hi1));
    var q := (m: Match) => InYears(m, Some(lo2), Some(hi2));
    var both := (m: Match) => InYears(m, Some(Max(lo1, lo2)), Some(Min(hi1, hi2)));
    var once := FilterByYear(df, Some(lo1), Some(hi1));
    assert once == Filter(df, p);
    assert FilterByYear(once, Some(lo2), Some(hi2)) == Filter(once, q);
    FilterTwice(df, p, q, both);
    assert FilterByYear(df, Some(Max(lo1, lo2)), Some(Min(hi1, hi2))) == Filter(df, both);
  }

  function Max(a: int, b: int): int { if a < b then b else a }

  function Min(a: int, b: int): int { if a < b then a else b }

  /** `filter_by_rounds`: an empty list of rounds keeps every row. */
  function FilterByRounds(df: seq<Match>, rounds: seq<string>): (r: seq<Match>)
    ensures |rounds| == 0 ==> r == df
    ensures |rounds| > 0 ==> forall m :: m in r <==> m in df && m.round.Some? && m.round.value in rounds
  {
    if |rounds| == 0 then df
    else Filter(df, (m: Match) => m.round.Some? && m.round.value in rounds)
  }

  /** `filter_by_tournaments`: an empty list of tournaments keeps every row. */
  function FilterByTournaments(df: seq<Match>, tournaments: seq<string>): (r: seq<Match>)
    ensures |tournaments| == 0 ==> r == df
    ensures |tournaments| > 0 ==>
      forall m :: m in r <==> m in df && m.tourneyName.Some? && m.tourneyName.value in tournaments
  {
    if |tournaments| == 0 then df
    else Filter(df, (m: Match) => m.tourneyName.Some? && m.tourneyName.value in tournaments)
  }
}
