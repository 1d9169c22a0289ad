/**
 * `calculate_gsdi` of aggregations/gsdi.py: the Grand Slam Dominance Index. Every Grand
 * Slam title (a distinct player, tournament and year of a won final) is a campaign; the
 * campaign's won matches give set and game shares, an estimated points share, opponent
 * quality and a speed score, which are weighted, given a bonus, sorted best first and
 * ranked from 1.
 */
module Dominance {
  import opened Wrappers
  import opened Numeric
  import opened Matches
  import opened GrandSlams
  import opened Ordering
  import opened Enrich

  /** A title run: the champion, the tournament and the year. */
  datatype Campaign = Campaign(player: string, tournament: string, year: nat)

  /** The order of the `groupby(['winner_name', 'tourney_name', 'year'])` keys. */
  predicate CampaignLt(a: Campaign, b: Campaign)
  {
    StrLt(a.player, b.player)
    || (a.player == b.player
        && (StrLt(a.tournament, b.tournament) || (a.tournament == b.tournament && a.year < b.year)))
  }

  lemma CampaignLtStrictTotal()
    ensures StrictTotal(CampaignLt)
  {
    forall a: Campaign ensures !CampaignLt(a, a) {
      StrLtIrreflexive(a.player);
      StrLtIrreflexive(a.tournament);
    }
    forall a: Campaign, b: Campaign, c: Campaign | CampaignLt(a, b) && CampaignLt(b, c)
      ensures CampaignLt(a, c)
    {
      if StrLt(a.player, b.player) && StrLt(b.player, c.player) {
        StrLtTransitive(a.player, b.player, c.player);
      } else if a.player == b.player == c.player
        && StrLt(a.tournament, b.tournament) && StrLt(b.tournament, c.tournament) {
        StrLtTransitive(a.tournament, b.tournament, c.tournament);
      }
    }
    forall a: Campaign, b: Campaign | a != b ensures CampaignLt(a, b) || CampaignLt(b, a) {
      if a.player != b.player {
        StrLtTotal(a.player, b.player);
      } else if a.tournament != b.tournament {
        StrLtTotal(a.tournament, b.tournament);
      }
    }
  }

  /** `is_grand_slam == True` and the tournament name is one of the four canonical names. */
  predicate InGrandSlams(e: Enriched)
  {
    e.isGrandSlam && e.row.tourneyName.Some? && e.row.tourneyName.value in Names
  }

  function GrandSlamRows(rows: seq<Enriched>): (r: seq<Enriched>)
    ensures forall e :: e in r <==> e in rows && InGrandSlams(e)
  {
    Filter(rows, InGrandSlams)
  }

  /** The row is a match the campaign's player won at its tournament and year. */
  predicate InCampaign(e: Enriched, c: Campaign)
  {
    e.row.winnerName == Some(c.player) && e.row.tourneyName == Some(c.tournament) && e.year == c.year
  }

  /** The row is the final that made `c` a title run. */
  predicate WonFinal(e: Enriched, c: Campaign)
  {
    e.row.round == Some("F") && InCampaign(e, c)
  }

  /** The campaign of every final with a named winner, in row order. */
  function FinalCampaigns(gs: seq<Enriched>): (r: seq<Campaign>)
    ensures forall c :: c in r <==> exists e :: e in gs && WonFinal(e, c)
  {
    if |gs| == 0 then []
    else
      var e := gs[|gs| - 1];
      var init := FinalCampaigns(gs[..|gs| - 1]);
      assert forall x :: x in gs <==> x in gs[..|gs| - 1] || x == e;
      if e.row.round == Some("F") && e.row.winnerName.Some? && e.row.tourneyName.Some? then
        var c := Campaign(e.row.winnerName.value, e.row.tourneyName.value, e.year);
        assert WonFinal(e, c);
        init + [c]
      else init
  }

  /**
   * The champions table: each title run once, in the order of the grouping keys. A run is
   * listed exactly when a final of it is among the rows.
   */
  function Champions(gs: seq<Enriched>): (r: seq<Campaign>)
    ensures Increasing(r, CampaignLt)
    ensures forall c :: c in r <==> exists e :: e in gs && WonFinal(e, c)
  {
    CampaignLtStrictTotal();
    SortedDistinct(FinalCampaigns(gs), CampaignLt)
  }

  /** All the matches the champion won at that tournament and year. */
  function CampaignRows(gs: seq<Enriched>, c: Campaign): (r: seq<Enriched>)
    ensures forall e :: e in r <==> e in gs && InCampaign(e, c)
  {
    Filter(gs, (e: Enriched) => InCampaign(e, c))
  }

  /** A title run always holds its own final, so the empty-campaign branch is never taken. */
  lemma ChampionHasMatches(gs: seq<Enriched>, c: Campaign)
    requires c in Champions(gs)
    ensures |CampaignRows(gs, c)| > 0
  {
    var e :| e in gs && WonFinal(e, c);
    assert e in CampaignRows(gs, c);
  }

  /** `points_won_pct`: the games share pulled towards 50 by a factor 0.6. */
  function PointsWonPct(gamesPct: real): (r: real)
    ensures 0.0 <= gamesPct <= 100.0 ==> 20.0 <= r <= 80.0
    ensures (r < 50.0 <==> gamesPct < 50.0) && (r > 50.0 <==> gamesPct > 50.0)
  {
    50.0 + (gamesPct - 50.0) * 0.6
  }

  /** A larger games share never estimates a smaller points share. */
  lemma PointsWonMonotone(g1: real, g2: real)
    requires g1 <= g2
    ensures PointsWonPct(g1) <= PointsWonPct(g2)
  {
  }

  /** Opponents ranked within `cut`; a missing rank compares false. */
  predicate RankedWithin(e: Enriched, cut: int)
  {
    e.row.loserRank.Some? && e.row.loserRank.value <= cut
  }

  /** `pct_top30_opponents`: the share of won matches over top-30 opponents, or 30 without ranks. */
  function PctTop30(campaign: seq<Enriched>, hasRank: bool): (r: real)
    requires |campaign| > 0
    ensures 0.0 <= r <= 100.0
    ensures !hasRank ==> r == 30.0
    ensures hasRank ==> (r == 0.0 <==> Count(campaign, (e: Enriched) => RankedWithin(e, 30)) == 0)
    ensures hasRank ==> (r == 100.0 <==> Count(campaign, (e: Enriched) => RankedWithin(e, 30)) == |campaign|)
  {
    if hasRank then
      var n := Count(campaign, (e: Enriched) => RankedWithin(e, 30));
      var r := n as real / |campaign| as real * 100.0;
      Unit(n as real, |campaign| as real);
      assert n == |campaign| ==> r == 100.0 by { DivideSelf(|campaign| as real); }
      assert n < |campaign| ==> r < 100.0 by {
        if n < |campaign| { Unit(n as real, |campaign| as real); }
      }
      r
    else 30.0
  }

  /** `top5_wins`: wins over top-5 opponents, or 1 for a campaign of six or more wins without ranks. */
  function Top5Wins(campaign: seq<Enriched>, hasRank: bool): (r: nat)
    ensures hasRank ==> r == Count(campaign, (e: Enriched) => RankedWithin(e, 5))
    ensures r <= |campaign|
    ensures !hasRank ==> (r == 1 <==> |campaign| >= 6) && r <= 1
  {
    if hasRank then Count(campaign, (e: Enriched) => RankedWithin(e, 5))
    else if |campaign| >= 6 then 1 else 0
  }

  /** A top-5 win is a top-30 win. */
  lemma Top5WithinTop30(campaign: seq<Enriched>)
    ensures Top5Wins(campaign, true) <= Count(campaign, (e: Enriched) => RankedWithin(e, 30))
  {
    CountMonotone(campaign, (e: Enriched) => RankedWithin(e, 5), (e: Enriched) => RankedWithin(e, 30));
  }

  function Minutes(campaign: seq<Enriched>): (r: seq<Option<real>>)
    ensures |r| == |campaign| && forall k :: 0 <= k < |r| ==> r[k] == campaign[k].row.minutes
  {
    seq(|campaign|, k requires 0 <= k < |campaign| => campaign[k].row.minutes)
  }

  const DefaultMinutes := 120.0
  const MaxTypicalMinutes := 240.0

  /** `avg_minutes`: the mean of the known durations, or 120 when there are none. */
  function AvgMinutes(campaign: seq<Enriched>, hasMinutes: bool): (r: real)
    ensures !hasMinutes || (forall k :: 0 <= k < |campaign| ==> campaign[k].row.minutes.None?) ==> r == DefaultMinutes
    ensures hasMinutes && |Present(Minutes(campaign))| > 0 ==>
              MinOf(Present(Minutes(campaign))) <= r <= MaxOf(Present(Minutes(campaign)))
  {
    var ms := Minutes(campaign);
    if hasMinutes && MeanPresent(ms).Some? then
      assert Present(ms)[0] in Present(ms);
      MeanPresent(ms).value
    else DefaultMinutes
  }

  /** `speed_score`: 100 at two hours or less, falling linearly to 0 at six hours and beyond. */
  function SpeedScore(avgMinutes: real): (r: real)
    ensures 0.0 <= r <= 100.0
    ensures avgMinutes <= DefaultMinutes ==> r == 100.0
    ensures avgMinutes >= 360.0 ==> r == 0.0
    ensures DefaultMinutes <= avgMinutes <= 360.0 ==> r == 150.0 - avgMinutes * 100.0 / 240.0
  {
    Clamp((MaxTypicalMinutes - avgMinutes) / MaxTypicalMinutes * 100.0 + 50.0, 0.0, 100.0)
  }

  /** A slower campaign never scores faster. */
  lemma SpeedMonotone(a: real, b: real)
    requires a <= b
    ensures SpeedScore(b) <= SpeedScore(a)
  {
  }

  /** `bonus_points`: 10 for a campaign without a lost set, plus 3 per top-5 win. */
  function Bonus(setsLost: nat, top5Wins: nat): (r: nat)
    ensures r >= 3 * top5Wins
    ensures setsLost == 0 <==> r == 10 + 3 * top5Wins
    ensures setsLost > 0 ==> r == 3 * top5Wins
  {
    (if setsLost == 0 then 10 else 0) + top5Wins * 3
  }

  /** The weights of the five shares; they sum to 1. */
  const SetsWeight := 0.32
  const GamesWeight := 0.25
  const PointsWeight := 0.23
  const OpponentWeight := 0.10
  const SpeedWeight := 0.10

  /** The weighted shares plus the bonus: shares in [0, 100] put the score within 100 of the bonus. */
  function DominanceScore(sets: real, games: real, points: real, opponent: real, speed: real, bonus: real): (r: real)
    requires 0.0 <= sets <= 100.0 && 0.0 <= games <= 100.0 && 0.0 <= points <= 100.0
    requires 0.0 <= opponent <= 100.0 && 0.0 <= speed <= 100.0
    ensures bonus <= r <= bonus + 100.0
  {
    sets * SetsWeight + games * GamesWeight + points * PointsWeight + opponent * OpponentWeight
    + speed * SpeedWeight + bonus
  }

  /** The `score_breakdown` entries: each weighted share and the bonus. */
  datatype Breakdown = Breakdown(sets: real, games: real, points: real, opponent: real, speed: real, bonus: real)

  /** One entry of the rankings before the rank is assigned. */
  datatype Score = Score(
    campaign: Campaign, dominanceScore: real,
    setsWon: nat, setsWonPct: real, gamesWonPct: real, pointsWonPct: real,
    pctTop30Opponents: real, speedScore: real, avgMatchMinutes: real,
    top5Wins: nat, perfectCampaign: bool, setsLost: nat, matchesWon: nat,
    breakdown: Breakdown)

  function WinnerSets(e: Enriched): nat { e.winnerSets }
  function LoserSets(e: Enriched): nat { e.loserSets }
  function WinnerGames(e: Enriched): nat { e.winnerGames }
  function LoserGames(e: Enriched): nat { e.loserGames }

  /** The sums and shares of one campaign's won matches. */
  function Summarize(c: Campaign, campaign: seq<Enriched>, hasRank: bool, hasMinutes: bool): (s: Score)
    requires |campaign| > 0
    ensures s.campaign == c && s.matchesWon == |campaign|
    ensures s.setsWon == Total(campaign, WinnerSets) && s.setsLost == Total(campaign, LoserSets)
    ensures s.setsWonPct == Percent(s.setsWon as real, (s.setsWon + s.setsLost) as real)
    ensures s.perfectCampaign <==> forall k :: 0 <= k < |campaign| ==> campaign[k].loserSets == 0
    ensures 0.0 <= s.setsWonPct <= 100.0 && 0.0 <= s.gamesWonPct <= 100.0
    ensures 20.0 <= s.pointsWonPct <= 80.0
    ensures 0.0 <= s.pctTop30Opponents <= 100.0 && 0.0 <= s.speedScore <= 100.0
    ensures s.breakdown.bonus <= s.dominanceScore <= s.breakdown.bonus + 100.0
    ensures s.perfectCampaign ==> s.breakdown.bonus >= 10.0
  {
    var setsWon, setsLost := Total(campaign, WinnerSets), Total(campaign, LoserSets);
    var gamesWon, gamesLost := Total(campaign, WinnerGames), Total(campaign, LoserGames);
    var setsPct := Percent(setsWon as real, (setsWon + setsLost) as real);
    var gamesPct := Percent(gamesWon as real, (gamesWon + gamesLost) as real);
    var points := PointsWonPct(gamesPct);
    var opponent := PctTop30(campaign, hasRank);
    var top5 := Top5Wins(campaign, hasRank);
    var minutes := AvgMinutes(campaign, hasMinutes);
    var speed := SpeedScore(minutes);
    var bonus := Bonus(setsLost, top5);
    TotalZero(campaign, LoserSets);
    var parts := Breakdown(setsPct * SetsWeight, gamesPct * GamesWeight, points * PointsWeight,
                           opponent * OpponentWeight, speed * SpeedWeight, bonus as real);
    Score(c, DominanceScore(setsPct, gamesPct, points, opponent, speed, bonus as real),
          setsWon, setsPct, gamesPct, points, opponent, speed, minutes,
          top5, setsLost == 0, setsLost, |campaign|, parts)
  }

  /** The entries the loop appends, one per listed campaign that has matches, in order. */
  function ScoreAll(gs: seq<Enriched>, champions: seq<Campaign>, hasRank: bool, hasMinutes: bool): (r: seq<Score>)
    ensures |r| <= |champions|
  {
    if |champions| == 0 then []
    else
      var init := ScoreAll(gs, champions[..|champions| - 1], hasRank, hasMinutes);
      var c := champions[|champions| - 1];
      var campaign := CampaignRows(gs, c);
      if |campaign| == 0 then init else init + [Summarize(c, campaign, hasRank, hasMinutes)]
  }

  lemma ScoreAllSnoc(gs: seq<Enriched>, champions: seq<Campaign>, i: nat, hasRank: bool, hasMinutes: bool)
    requires i < |champions|
    ensures var campaign := CampaignRows(gs, champions[i]);
      ScoreAll(gs, champions[..i + 1], hasRank, hasMinutes)
      == ScoreAll(gs, champions[..i], hasRank, hasMinutes)
         + if |campaign| == 0 then [] else [Summarize(champions[i], campaign, hasRank, hasMinutes)]
  {
    assert champions[..i + 1][..i] == champions[..i];
  }

  /** Every champion with matches gets exactly one entry, in the champions' order. */
  lemma {:induction false} ScoreAllComplete(gs: seq<Enriched>, champions: seq<Campaign>, hasRank: bool, hasMinutes: bool)
    requires forall k :: 0 <= k < |champions| ==> |CampaignRows(gs, champions[k])| > 0
    ensures |ScoreAll(gs, champions, hasRank, hasMinutes)| == |champions|
    ensures forall k :: 0 <= k < |champions| ==> ScoreAll(gs, champions, hasRank, hasMinutes)[k].campaign == champions[k]
  {
    if |champions| > 0 {
      ScoreAllComplete(gs, champions[..|champions| - 1], hasRank, hasMinutes);
    }
  }

  /** The unsorted rankings of a table: every title run of its Grand Slam rows, scored. */
  function Campaigns(rows: seq<Enriched>, hasRank: bool, hasMinutes: bool): seq<Score>
  {
    var gs := GrandSlamRows(rows);
    ScoreAll(gs, Champions(gs), hasRank, hasMinutes)
  }

  /** Each title run appears once, in the grouping order, as a summary of its own matches. */
  lemma CampaignsAreTitles(rows: seq<Enriched>, hasRank: bool, hasMinutes: bool)
    ensures var gs := GrandSlamRows(rows);
      |Campaigns(rows, hasRank, hasMinutes)| == |Champions(gs)|
      && forall k :: 0 <= k < |Champions(gs)| ==> Campaigns(rows, hasRank, hasMinutes)[k].campaign == Champions(gs)[k]
  {
    var gs := GrandSlamRows(rows);
    forall k | 0 <= k < |Champions(gs)| ensures |CampaignRows(gs, Champions(gs)[k])| > 0 {
      ChampionHasMatches(gs, Champions(gs)[k]);
    }
    ScoreAllComplete(gs, Champions(gs), hasRank, hasMinutes);
  }

  function DominanceOf(s: Score): real { s.dominanceScore }

  /** A rankings entry: its 1-based rank and its scores. */
  datatype Ranked = Ranked(rank: nat, score: Score)

  function ScoresOf(rs: seq<Ranked>): (r: seq<Score>)
    ensures |r| == |rs| && forall k :: 0 <= k < |rs| ==> r[k] == rs[k].score
  {
    seq(|rs|, k requires 0 <= k < |rs| => rs[k].score)
  }

  /**
   * `calculate_gsdi`: the campaigns scored in the grouping order, then sorted by dominance
   * score, best first with ties kept in that order, and ranked 1, 2, ... .
   */
  method CalculateGsdi(rows: seq<Enriched>, hasRank: bool, hasMinutes: bool) returns (rankings: seq<Ranked>)
    ensures exists perm :: StableDescending(Campaigns(rows, hasRank, hasMinutes), DominanceOf, perm, ScoresOf(rankings))
    ensures forall k :: 0 <= k < |rankings| ==> rankings[k].rank == k + 1
  {
    var gs := GrandSlamRows(rows);
    var scores := ScoreCampaigns(gs, Champions(gs), hasRank, hasMinutes);
    assert scores == Campaigns(rows, hasRank, hasMinutes);
    var perm, sorted := StableSortDescending(scores, DominanceOf);
    rankings := RankAll(sorted);
    assert StableDescending(Campaigns(rows, hasRank, hasMinutes), DominanceOf, perm, ScoresOf(rankings));
  }

  /** The loop over the title runs in grouping order, skipping any without matches. */
  method ScoreCampaigns(gs: seq<Enriched>, champions: seq<Campaign>, hasRank: bool, hasMinutes: bool) returns (scores: seq<Score>)
    ensures scores == ScoreAll(gs, champions, hasRank, hasMinutes)
  {
    scores := [];
    var i := 0;
    while i < |champions|
      invariant 0 <= i <= |champions|
      invariant scores == ScoreAll(gs, champions[..i], hasRank, hasMinutes)
    {
      var c := champions[i];
      var campaign := CampaignRows(gs, c);
      ScoreAllSnoc(gs, champions, i, hasRank, hasMinutes);
      i := i + 1;
      if |campaign| == 0 {
        continue;
      }
      scores := scores + [Summarize(c, campaign, hasRank, hasMinutes)];
    }
    assert champions[..i] == champions;
  }

  /** `for i, r in enumerate(rankings, 1): r['rank'] = i`. */
  method RankAll(sorted: seq<Score>) returns (rankings: seq<Ranked>)
    ensures ScoresOf(rankings) == sorted
    ensures forall k :: 0 <= k < |rankings| ==> rankings[k].rank == k + 1
  {
    rankings := [];
    var j := 0;
    while j < |sorted|
      invariant 0 <= j <= |sorted| && |rankings| == j
      invariant forall k :: 0 <= k < j ==> rankings[k] == Ranked(k + 1, sorted[k])
    {
      rankings := rankings + [Ranked(j + 1, sorted[j])];
      j := j + 1;
    }
    assert ScoresOf(rankings) == sorted;
  }
}
