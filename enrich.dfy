/**
 * `enrich_match_data` of aggregations/base_metrics.py: each match row gains its parsed
 * score, drama measures, Grand Slam identity, year, round flags, and the career context of
 * both players looked up by name in the player metrics table.
 */
module Enrich {
  import opened Wrappers
  import opened Text
  import opened Numeric
  import opened Matches
  import opened GrandSlams
  import opened Scores
  import opened Careers

  /** The career columns merged in for one player. */
  datatype Context = Context(careerMatches: nat, gsTitles: nat, hasGsTitle: bool, peakRanking: Option<int>)

  /** The columns `enrich_match_data` adds to a row. */
  datatype Enriched = Enriched(
    row: Match,
    winnerSets: nat, loserSets: nat, winnerGames: nat, loserGames: nat,
    tiebreaksCount: nat, isComplete: bool,
    setMargins: seq<nat>, avgSetMargin: Option<real>, leadChanges: nat,
    comebackScore: nat, finalSetTiebreak: nat,
    isGrandSlam: bool, grandSlamName: Option<string>, year: nat,
    isFinal: bool, isSemifinal: bool, isQuarterfinal: bool,
    winnerContext: Option<Context>, loserContext: Option<Context>)

  /** A left merge on the name: the player's columns when the name is in the table. */
  function ContextOf(table: map<string, Metrics>, name: Option<string>): (c: Option<Context>)
    ensures c.Some? <==> name.Some? && name.value in table
    ensures c.Some? ==> c.value.careerMatches == table[name.value].profile.totals.matches
                        && c.value.gsTitles == table[name.value].profile.slams.titles
  {
    if name.Some? && name.value in table then
      var p := table[name.value];
      Some(Context(p.profile.totals.matches, p.profile.slams.titles, p.profile.slams.hasTitle, p.derived.peakRanking))
    else None
  }

  /** The enriched columns of one row. */
  function EnrichRow(m: Match, table: map<string, Metrics>): (e: Enriched)
    ensures e.row == m
    ensures e.winnerSets + e.loserSets == |ParsedScoreOf(m.score).setScores|
    ensures e.tiebreaksCount <= e.winnerSets + e.loserSets
    ensures e.isComplete ==> m.score.Some?
    ensures e.avgSetMargin.None? <==> |e.setMargins| == 0
    ensures e.comebackScore <= 3 && e.finalSetTiebreak <= 1
    ensures e.finalSetTiebreak <= |e.setMargins|
    ensures e.isGrandSlam <==> e.grandSlamName.Some? && e.grandSlamName.value in Names
    ensures 10000000 <= m.tourneyDate < 100000000 ==> e.year == m.tourneyDate / 10000
    ensures e.isFinal <==> m.round == Some("F")
    ensures e.winnerContext.Some? <==> m.winnerName.Some? && m.winnerName.value in table
    ensures e.loserContext.Some? <==> m.loserName.Some? && m.loserName.value in table
  {
    var p := ParsedScoreOf(m.score);
    var s := ParseSets(m.score);
    GrandSlamIffCanonical(m.tourneyName);
    FinalTiebreakIsCounted(m.score);
    var e := Enriched(
      m, p.winnerSets, p.loserSets, p.winnerGames, p.loserGames, |p.tiebreaks|, p.isComplete,
      s.margins, MeanOfNats(s.margins), s.leadChanges,
      ComebackOf(m.score),
      FinalSetTiebreak(m.score),
      IsGrandSlam(m.tourneyName), CanonicalName(m.tourneyName), YearOf(m.tourneyDate),
      m.round == Some("F"), m.round == Some("SF"), m.round == Some("QF"),
      ContextOf(table, m.winnerName), ContextOf(table, m.loserName));
    if 10000000 <= m.tourneyDate < 100000000 then YearOfDate(m.tourneyDate); e else e
  }

  /**
   * Merged against the metrics table built from the same matches, every row naming both
   * players finds both of them, and each has played at least this match.
   */
  lemma ContextFound(df: seq<Match>, table: map<string, Metrics>, m: Match)
    requires table.Keys == AllPlayers(df)
    requires forall p :: p in table ==> table[p] == Finish(df, p, Pass2(df, Pass1(df))[p])
    requires m in df && Counted(m)
    ensures EnrichRow(m, table).winnerContext.Some? && EnrichRow(m, table).winnerContext.value.careerMatches >= 1
    ensures EnrichRow(m, table).loserContext.Some? && EnrichRow(m, table).loserContext.value.careerMatches >= 1
  {
    var w, l := m.winnerName.value, m.loserName.value;
    assert w in AllPlayers(df) && l in AllPlayers(df);
    Pass1Counts(df, w);
    Pass1Counts(df, l);
    assert m in Filter(df, m' => WonBy(m', w));
    assert m in Filter(df, m' => LostBy(m', l));
  }
}
