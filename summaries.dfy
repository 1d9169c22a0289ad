/**
 * Per-player statistics shared by the aggregations: win percentage and its band, the
 * peak (numerically smallest) ranking, opponent quality, and wins and losses broken down
 * by surface or by tournament.
 */
module Summaries {
  import opened Wrappers
  import opened Numeric
  import opened Matches

  /** `calculate_win_percentage`: wins as a percentage of matches, 0 for no matches. */
  function WinPercentage(wins: nat, total: nat): (r: real)
    ensures total == 0 ==> r == 0.0
    ensures wins <= total ==> 0.0 <= r <= 100.0
    ensures 0 < total == wins ==> r == 100.0
    ensures 0 < total && wins == 0 ==> r == 0.0
  {
    if total > 0 then
      DivideSelf(total as real);
      assert wins == total ==> (wins as real) / (total as real) == 1.0;
      Percent(wins as real, total as real)
    else 0.0
  }

  /** More wins out of the same matches never lower the percentage. */
  lemma WinPercentageMonotone(w1: nat, w2: nat, total: nat)
    requires w1 <= w2
    ensures WinPercentage(w1, total) <= WinPercentage(w2, total)
  {
    if total > 0 {
      PercentMonotone(w1 as real, w2 as real, total as real);
    }
  }

  /** The band labels, lowest first, and the thresholds a percentage must exceed to climb a band. */
  const Bands := ["40% or below", "41% - 50%", "51% - 60%", "61% - 70%", "Above 70%"]
  const Thresholds := [40.0, 50.0, 60.0, 70.0]

  /** The position in `Bands` of a percentage: how many thresholds it exceeds. */
  function BandIndex(pct: real): (b: nat)
    ensures b < |Bands|
    ensures forall k :: 0 <= k < |Thresholds| ==> (b > k <==> pct > Thresholds[k])
  {
    if pct > 70.0 then 4 else if pct > 60.0 then 3 else if pct > 50.0 then 2 else if pct > 40.0 then 1 else 0
  }

  /** `categorize_win_percentage`. */
  function Categorize(pct: real): (band: string)
    ensures band in Bands
  {
    Bands[BandIndex(pct)]
  }

  /** A higher percentage never lands in a lower band. */
  lemma BandMonotone(p: real, q: real)
    requires p <= q
    ensures BandIndex(p) <= BandIndex(q)
  {
  }

  /** The player's present rankings as winner, in row order. */
  function WinnerRanks(df: seq<Match>, player: string): (r: seq<int>)
    ensures forall k :: k in r <==> exists m :: m in df && m.winnerName == Some(player) && m.winnerRank == Some(k)
  {
    if |df| == 0 then []
    else
      var m := df[|df| - 1];
      var init := WinnerRanks(df[..|df| - 1], player);
      assert forall x :: x in df <==> x in df[..|df| - 1] || x == m;
      if m.winnerName == Some(player) && m.winnerRank.Some? then init + [m.winnerRank.value] else init
  }

  /** The player's present rankings as loser, in row order. */
  function LoserRanks(df: seq<Match>, player: string): (r: seq<int>)
    ensures forall k :: k in r <==> exists m :: m in df && m.loserName == Some(player) && m.loserRank == Some(k)
  {
    if |df| == 0 then []
    else
      var m := df[|df| - 1];
      var init := LoserRanks(df[..|df| - 1], player);
      assert forall x :: x in df <==> x in df[..|df| - 1] || x == m;
      if m.loserName == Some(player) && m.loserRank.Some? then init + [m.loserRank.value] else init
  }

  /** Every present ranking of the player in the table. */
  ghost predicate RankedAs(df: seq<Match>, player: string, k: int)
  {
    exists m :: m in df
      && ((m.winnerName == Some(player) && m.winnerRank == Some(k))
          || (m.loserName == Some(player) && m.loserRank == Some(k)))
  }

  /** `min(start, min(ranks))`. */
  function MinFrom(start: int, ranks: seq<int>): (r: int)
    ensures r <= start && forall k :: k in ranks ==> r <= k
    ensures r == start || r in ranks
  {
    if |ranks| == 0 then start
    else
      var m := MinFrom(start, ranks[..|ranks| - 1]);
      assert forall x :: x in ranks <==> x in ranks[..|ranks| - 1] || x == ranks[|ranks| - 1];
      if ranks[|ranks| - 1] < m then ranks[|ranks| - 1] else m
  }

  const NoRank := 9999

  /**
   * `get_player_peak_ranking`: the best (smallest) ranking the player held in the table, if
   * any held is below the 9999 sentinel.
   */
  function PeakRanking(df: seq<Match>, player: string): (r: Option<int>)
    ensures r.Some? ==> r.value < NoRank && RankedAs(df, player, r.value)
    ensures r.Some? ==> forall k :: RankedAs(df, player, k) ==> r.value <= k
    ensures r.None? <==> forall k :: RankedAs(df, player, k) ==> k >= NoRank
  {
    var w := WinnerRanks(df, player);
    var l := LoserRanks(df, player);
    var peak := MinFrom(MinFrom(NoRank, w), l);
    assert forall k :: RankedAs(df, player, k) ==> k in w || k in l;
    if peak < NoRank then Some(peak) else None
  }

  /**
   * Looking at fewer rows can only lose rankings: the peak over a sub-table is no better than
   * the peak over the whole table (base_metrics compares the two around the first title).
   */
  lemma PeakOfSubTable(sub: seq<Match>, df: seq<Match>, player: string)
    requires forall m :: m in sub ==> m in df
    requires PeakRanking(sub, player).Some?
    ensures PeakRanking(df, player).Some?
    ensures PeakRanking(df, player).value <= PeakRanking(sub, player).value
  {
    var k := PeakRanking(sub, player).value;
    assert RankedAs(df, player, k);
  }

  /** The summary of `calculate_opponent_quality`. */
  datatype Quality = Quality(avgRank: Option<real>, top5: nat, top10: nat, top30: nat, top30Pct: real)

  function RankValues(ranks: seq<Option<int>>): (r: seq<real>)
    ensures |r| <= |ranks|
    ensures forall k :: 0 <= k < |r| ==> exists j :: 0 <= j < |ranks| && ranks[j] == Some(r[k].Floor)
    ensures forall k :: 0 <= k < |r| ==> r[k] == r[k].Floor as real
    ensures |r| == 0 <==> forall j :: 0 <= j < |ranks| ==> ranks[j].None?
  {
    if |ranks| == 0 then []
    else
      var init := RankValues(ranks[..|ranks| - 1]);
      match ranks[|ranks| - 1]
      case None => init
      case Some(v) => init + [v as real]
  }

  /**
   * `calculate_opponent_quality`: counts of present opponent rankings within 5, 10 and 30,
   * and the share within 30 among all opponents, missing rankings included.
   */
  function OpponentQuality(ranks: seq<Option<int>>): (q: Quality)
    ensures q.avgRank.None? <==> forall j :: 0 <= j < |ranks| ==> ranks[j].None?
    ensures q.top5 <= q.top10 <= q.top30 <= |ranks|
    ensures 0.0 <= q.top30Pct <= 100.0
    ensures q.avgRank.None? ==> q == Quality(None, 0, 0, 0, 0.0)
  {
    var clean := RankValues(ranks);
    if |clean| == 0 then Quality(None, 0, 0, 0, 0.0)
    else
      var t5 := Count(clean, (r: real) => r <= 5.0);
      var t10 := Count(clean, (r: real) => r <= 10.0);
      var t30 := Count(clean, (r: real) => r <= 30.0);
      CountMonotone(clean, (r: real) => r <= 5.0, (r: real) => r <= 10.0);
      CountMonotone(clean, (r: real) => r <= 10.0, (r: real) => r <= 30.0);
      Quality(Some(Mean(clean)), t5, t10, t30, Percent(t30 as real, |ranks| as real))
  }

  /** Wins, losses and win percentage of one surface or tournament. */
  datatype Record = Record(wins: nat, losses: nat, total: nat, winPct: real)

  /** The values of `field` among the player's matches, missing ones left out. */
  function KeysOf(df: seq<Match>, player: string, field: Match -> Option<string>): set<string>
  {
    set m | m in df && Involves(m, player) && field(m).Some? :: field(m).value
  }

  /** `len(wins[wins[field] == key])`. */
  function WinsWith(df: seq<Match>, player: string, field: Match -> Option<string>, key: string): nat
  {
    Count(df, (m: Match) => m.winnerName == Some(player) && field(m) == Some(key))
  }

  /** `len(losses[losses[field] == key])`. */
  function LossesWith(df: seq<Match>, player: string, field: Match -> Option<string>, key: string): nat
  {
    Count(df, (m: Match) => m.loserName == Some(player) && field(m) == Some(key))
  }

  /**
   * `calculate_surface_breakdown` (with `field` the surface) and `calculate_tournament_breakdown`
   * (with `field` the tournament name): one record per value seen in the player's matches.
   */
  function Breakdown(df: seq<Match>, player: string, field: Match -> Option<string>): (r: map<string, Record>)
    ensures r.Keys == KeysOf(df, player, field)
    ensures forall key :: key in r ==>
      r[key].wins == WinsWith(df, player, field, key) && r[key].losses == LossesWith(df, player, field, key)
      && r[key].total == r[key].wins + r[key].losses
      && 0.0 <= r[key].winPct <= 100.0
    ensures forall key :: key in r ==> r[key].total > 0
  {
    var keys := KeysOf(df, player, field);
    forall key | key in keys
      ensures WinsWith(df, player, field, key) + LossesWith(df, player, field, key) > 0
    {
      var m :| m in df && Involves(m, player) && field(m) == Some(key);
      if m.winnerName == Some(player) {
        assert m in Filter(df, (m: Match) => m.winnerName == Some(player) && field(m) == Some(key));
      } else {
        assert m in Filter(df, (m: Match) => m.loserName == Some(player) && field(m) == Some(key));
      }
    }
    map key | key in keys ::
      var w := WinsWith(df, player, field, key);
      var l := LossesWith(df, player, field, key);
      Record(w, l, w + l, WinPercentage(w, w + l))
  }

  /** Surfaces the breakdown reports. */
  function SurfaceOf(m: Match): Option<string> { m.surface }

  /** Tournaments the breakdown reports. */
  function TournamentOf(m: Match): Option<string> { m.tourneyName }
}
