/**
 * etl_pipeline.py, the stand-alone pipeline that writes the legacy nailbiter, dominance
 * and breakthrough files: the Nailbiter Index of a score, the hundred Grand Slam matches
 * that score highest, a dominance ranking of Grand Slam runs with three or more wins, and
 * the champions' matches before their first Grand Slam title.
 */
module LegacyEtl {
  import opened Wrappers
  import opened Matches
  import opened Ordering
  import opened Numeric
  import opened Text
  import GrandSlams
  import Network
  import Dominance
  import Breakthrough
  import Careers
  import Summaries

  // ---------------------------------------------------------------------------------------
  // calculate_nbi

  function Abs(x: int): nat { if x < 0 then -x else x }

  /** `games = g.split('-')`; two parts that `int()` accepts give `abs(int(a) - int(b))`. */
  function GamesMargin(g: string): Option<nat>
  {
    var games := SplitOn(g, '-');
    if |games| != 2 then None
    else
      var a, b := PyInt(games[0]), PyInt(games[1]);
      if a.Some? && b.Some? then Some(Abs(a.value - b.value)) else None
  }

  /** The margin one set token contributes: a tie-break token loses its `)` and is cut at `(`. */
  function TokenMargin(t: string): Option<nat>
  {
    if '(' in t then
      var parts := SplitOn(Without(t, ')'), '(');
      if |parts| == 2 then GamesMargin(parts[0]) else None
    else GamesMargin(t)
  }

  /** `set_margins`: the margins of the tokens that parse, in token order. */
  function Margins(tokens: seq<string>): (r: seq<nat>)
    ensures |r| <= |tokens|
  {
    if |tokens| == 0 then []
    else
      var init := Margins(tokens[..|tokens| - 1]);
      var t := tokens[|tokens| - 1];
      if TokenMargin(t).Some? then init + [TokenMargin(t).value] else init
  }

  lemma MarginsSnoc(tokens: seq<string>, i: nat)
    requires i < |tokens|
    ensures var t := tokens[i];
      && Margins(tokens[..i + 1]) == Margins(tokens[..i]) + (if TokenMargin(t).Some? then [TokenMargin(t).value] else [])
      && TiebreakTokens(tokens[..i + 1]) == TiebreakTokens(tokens[..i]) + (if '(' in t then 1 else 0)
  {
    assert tokens[..i + 1][..i] == tokens[..i];
  }

  /** `tiebreak_count`: the tokens holding a `(`. */
  function TiebreakTokens(tokens: seq<string>): (n: nat)
    ensures n <= |tokens|
  {
    if |tokens| == 0 then 0
    else TiebreakTokens(tokens[..|tokens| - 1]) + (if '(' in tokens[|tokens| - 1] then 1 else 0)
  }

  function SumNats(xs: seq<nat>): nat
  {
    if |xs| == 0 then 0 else SumNats(xs[..|xs| - 1]) + xs[|xs| - 1]
  }

  /** `str(score).split()`; a missing score is the text "nan". */
  function ScoreTokens(score: Option<string>): seq<string>
  {
    SplitWhitespace(Network.Label(score))
  }

  /** `avg_set_margin <= 2`. */
  predicate Close(margins: seq<nat>)
    requires |margins| > 0
  {
    (SumNats(margins) as real) / (|margins| as real) <= 2.0
  }

  /** `minutes and minutes > 200`: a missing duration is never long. */
  predicate Lengthy(minutes: Option<real>)
  {
    minutes.Some? && minutes.value > 200.0
  }

  const CloseWeight := 0.5
  const TiebreakWeight := 0.3
  const LongWeight := 0.3
  const LengthyWeight := 0.2

  /**
   * The Nailbiter Index: 0 for fewer than three tokens or no parsable set; otherwise 0.5
   * for an average set margin of at most two games, 0.3 for two or more tie-breaks, 0.3
   * for four or more sets and 0.2 for more than 200 minutes.
   */
  function NbiOf(score: Option<string>, minutes: Option<real>): (r: real)
    ensures 0.0 <= r <= 1.3
  {
    var tokens := ScoreTokens(score);
    if |tokens| < 3 then 0.0
    else
      var margins := Margins(tokens);
      if |margins| == 0 then 0.0
      else
        (if Close(margins) then CloseWeight else 0.0)
        + (if TiebreakTokens(tokens) >= 2 then TiebreakWeight else 0.0)
        + (if |tokens| >= 4 then LongWeight else 0.0)
        + (if Lengthy(minutes) then LengthyWeight else 0.0)
  }

  /** The average margin is at most two exactly when the margins sum to at most twice their number. */
  lemma CloseIff(margins: seq<nat>)
    requires |margins| > 0
    ensures Close(margins) <==> SumNats(margins) <= 2 * |margins|
  {
    AtMostTwice(SumNats(margins) as real, |margins| as real);
  }

  lemma AtMostTwice(s: real, n: real)
    requires n > 0.0
    ensures s / n <= 2.0 <==> s <= 2.0 * n
  {
    var q := s / n;
    assert s == q * n;
    assert (2.0 - q) * n == 2.0 * n - s;
  }

  /** A text without whitespace splits into at most one token. */
  lemma OneWord(s: string)
    requires forall i :: 0 <= i < |s| ==> !IsSpace(s[i])
    ensures |SplitWhitespace(s)| <= 1
  {
    if |s| > 0 {
      var j := WordEnd(s, 0);
      assert j == |s|;
      assert SplitWhitespace(s) == [s[..j]] + SplitWhitespace(s[j..]);
    }
  }

  /** A missing score reads "nan", a single token, so its index is 0 whatever the duration. */
  lemma MissingScoreIsZero(minutes: Option<real>)
    ensures NbiOf(None, minutes) == 0.0
  {
    OneWord("nan");
  }

  /**
   * When a match clears the 0.5 bar: three or more tokens with a parsable set, and either a
   * close average together with any other sign of drama, or two tie-breaks in four or more
   * sets. Two tie-breaks, or a fourth set, with only a long duration add up to exactly 0.5
   * and do not clear it.
   */
  lemma NbiKept(score: Option<string>, minutes: Option<real>)
    ensures var tokens := ScoreTokens(score);
      NbiOf(score, minutes) > 0.5
      <==> |tokens| >= 3 && |Margins(tokens)| > 0
           && ((SumNats(Margins(tokens)) <= 2 * |Margins(tokens)|
                && (TiebreakTokens(tokens) >= 2 || |tokens| >= 4 || Lengthy(minutes)))
               || (TiebreakTokens(tokens) >= 2 && |tokens| >= 4))
  {
    var tokens := ScoreTokens(score);
    if |tokens| >= 3 && |Margins(tokens)| > 0 {
      CloseIff(Margins(tokens));
    }
  }

  /** The body of the token loop: the margin the token gives, if it parses, and whether it is a tie-break. */
  method ParseSet(setScore: string) returns (margin: Option<nat>, tiebreak: bool)
    ensures margin == TokenMargin(setScore) && tiebreak == ('(' in setScore)
  {
    margin, tiebreak := None, false;
    if '(' in setScore {
      tiebreak := true;
      var parts := SplitOn(Without(setScore, ')'), '(');
      if |parts| == 2 {
        margin := GamesMargin(parts[0]);
      }
    } else {
      margin := GamesMargin(setScore);
    }
  }

  /** The loop of `calculate_nbi` over the set tokens: the margins that parse and the tie-break count. */
  method ScanSets(sets: seq<string>) returns (setMargins: seq<nat>, tiebreakCount: nat)
    ensures setMargins == Margins(sets) && tiebreakCount == TiebreakTokens(sets)
  {
    setMargins, tiebreakCount := [], 0;
    var i := 0;
    while i < |sets|
      invariant 0 <= i <= |sets|
      invariant setMargins == Margins(sets[..i])
      invariant tiebreakCount == TiebreakTokens(sets[..i])
    {
      var margin, tiebreak := ParseSet(sets[i]);
      if tiebreak {
        tiebreakCount := tiebreakCount + 1;
      }
      if margin.Some? {
        setMargins := setMargins + [margin.value];
      }
      MarginsSnoc(sets, i);
      i := i + 1;
    }
    assert sets[..i] == sets;
  }

  /** `calculate_nbi`: one pass over the tokens collecting margins and counting tie-breaks. */
  method CalculateNbi(score: Option<string>, minutes: Option<real>) returns (nbi: real)
    ensures nbi == NbiOf(score, minutes)
  {
    var sets := SplitWhitespace(Network.Label(score));
    assert sets == ScoreTokens(score);
    if |sets| < 3 {
      return 0.0;
    }
    var setMargins, tiebreakCount := ScanSets(sets);
    if |setMargins| == 0 {
      return 0.0;
    }
    var avgSetMargin := (SumNats(setMargins) as real) / (|setMargins| as real);
    nbi := 0.0;
    if avgSetMargin <= 2.0 {
      nbi := nbi + CloseWeight;
    }
    if tiebreakCount >= 2 {
      nbi := nbi + TiebreakWeight;
    }
    if |sets| >= 4 {
      nbi := nbi + LongWeight;
    }
    if minutes.Some? && minutes.value > 200.0 {
      nbi := nbi + LengthyWeight;
    }
  }

  // ---------------------------------------------------------------------------------------
  // generate_nailbiters

  /** A match at one of the four Grand Slams, best of five or more, lasting 180 minutes or more. */
  predicate Candidate(m: Match)
  {
    m.tourneyName.Some? && m.tourneyName.value in GrandSlams.Names
    && m.bestOf.Some? && m.bestOf.value >= 5
    && m.minutes.Some? && m.minutes.value >= 180.0
  }

  /** `gs_df['NBI'] = gs_df.apply(calculate_nbi, axis=1)`: each candidate with its index. */
  function Rated(gs: seq<Match>): (r: seq<(Match, real)>)
    ensures |r| == |gs|
  {
    seq(|gs|, k requires 0 <= k < |gs| => (gs[k], NbiOf(gs[k].score, gs[k].minutes)))
  }

  predicate Thrilling(p: (Match, real)) { p.1 > 0.5 }

  function NbiKey(p: (Match, real)): real { p.1 }

  /** `gs_df[gs_df['NBI'] > 0.5]`: the rated candidates above the bar, in table order. */
  function Kept(df: seq<Match>): seq<(Match, real)>
  {
    Filter(Rated(Filter(df, Candidate)), Thrilling)
  }

  /** The kept rows are exactly the candidates of the table whose index exceeds 0.5, each with its index. */
  lemma KeptRows(df: seq<Match>)
    ensures forall p :: p in Kept(df) ==>
      p.0 in df && Candidate(p.0) && p.1 == NbiOf(p.0.score, p.0.minutes) && p.1 > 0.5
    ensures forall m :: m in df && Candidate(m) && NbiOf(m.score, m.minutes) > 0.5 ==>
      (m, NbiOf(m.score, m.minutes)) in Kept(df)
  {
    var gs := Filter(df, Candidate);
    var rated := Rated(gs);
    forall p | p in Kept(df)
      ensures p.0 in df && Candidate(p.0) && p.1 == NbiOf(p.0.score, p.0.minutes)
    {
      var k :| 0 <= k < |rated| && rated[k] == p;
      assert gs[k] in gs;
    }
    forall m | m in df && Candidate(m) && NbiOf(m.score, m.minutes) > 0.5
      ensures (m, NbiOf(m.score, m.minutes)) in Kept(df)
    {
      assert m in gs;
      var k :| 0 <= k < |gs| && gs[k] == m;
      assert rated[k] == (m, NbiOf(m.score, m.minutes));
    }
  }

  /** `int(x)`: truncation toward zero. */
  function Trunc(x: real): int
  {
    if x >= 0.0 then x.Floor else -((-x).Floor)
  }

  /** One entry of `gs_nailbiters.json`. */
  datatype Nailbiter = Nailbiter(
    title: string, tourney: Option<string>, round: Option<string>, date: nat,
    score: Option<string>, duration: int, nbi: real, nbi100: real,
    tiebreakCount: nat, comeback: nat)

  /** The JSON entry of a kept match: the index also scaled to 100, the `(` count and a comeback flag. */
  function Report(p: (Match, real)): Nailbiter
  {
    var m := p.0;
    Nailbiter(
      Network.Label(m.winnerName) + " def. " + Network.Label(m.loserName),
      m.tourneyName, m.round, m.tourneyDate, m.score,
      if m.minutes.Some? then Trunc(m.minutes.value) else 0,
      p.1, p.1 * 100.0,
      Occurrences(Network.Label(m.score), '('),
      if |ScoreTokens(m.score)| >= 4 then 2 else 0)
  }

  /**
   * A reported match scores between 50 and 130 on the scaled index, and one reported
   * without a comeback (three tokens) got there on a close average margin.
   */
  lemma ReportFacts(p: (Match, real))
    requires p.1 == NbiOf(p.0.score, p.0.minutes) && Thrilling(p)
    ensures 50.0 < Report(p).nbi100 <= 130.0
    ensures Report(p).comeback == 2 <==> |ScoreTokens(p.0.score)| >= 4
    ensures Report(p).comeback == 0 ==>
      |Margins(ScoreTokens(p.0.score))| > 0
      && SumNats(Margins(ScoreTokens(p.0.score))) <= 2 * |Margins(ScoreTokens(p.0.score))|
  {
    NbiKept(p.0.score, p.0.minutes);
  }

  /** The `apply` of `calculate_nbi` over the candidate rows. */
  method RateAll(gs: seq<Match>) returns (rated: seq<(Match, real)>)
    ensures rated == Rated(gs)
  {
    rated := [];
    var i := 0;
    while i < |gs|
      invariant 0 <= i <= |gs| && |rated| == i
      invariant forall k :: 0 <= k < i ==> rated[k] == (gs[k], NbiOf(gs[k].score, gs[k].minutes))
    {
      var nbi := CalculateNbi(gs[i].score, gs[i].minutes);
      rated := rated + [(gs[i], nbi)];
      i := i + 1;
    }
  }

  const NailbiterLimit := 100
  const ReportLimit := 50

  /**
   * `generate_nailbiters`: the candidates are rated one by one, those above 0.5 kept, sorted
   * by index, largest first, and cut to a hundred; the JSON report covers the first fifty.
   * The sort pandas uses here need not keep ties in table order, so only the order of the
   * indices is promised: some reordering of the kept rows has non-increasing indices and
   * the result is its first hundred.
   */
  method GenerateNailbiters(df: seq<Match>) returns (top: seq<(Match, real)>, report: seq<Nailbiter>)
    ensures var kept := Kept(df);
      |top| == (if |kept| < NailbiterLimit then |kept| else NailbiterLimit)
      && exists perm ::
        && IsPermutation(perm, |kept|)
        && (forall a, b :: 0 <= a < b < |kept| ==> kept[perm[a]].1 >= kept[perm[b]].1)
        && (forall k :: 0 <= k < |top| ==> top[k] == kept[perm[k]])
    ensures |report| == (if |top| < ReportLimit then |top| else ReportLimit)
    ensures forall k :: 0 <= k < |report| ==> report[k] == Report(top[k])
  {
    var rated := RateAll(Filter(df, Candidate));
    var kept := Filter(rated, Thrilling);
    var p, sorted := StableSortDescending(kept, NbiKey);
    top := Breakthrough.Take(sorted, NailbiterLimit);
    report := ReportAll(top);
    assert IsPermutation(p, |kept|) && forall k :: 0 <= k < |top| ==> top[k] == kept[p[k]];
  }

  /** The JSON loop over `gs_df.head(50)`. */
  method ReportAll(top: seq<(Match, real)>) returns (report: seq<Nailbiter>)
    ensures |report| == (if |top| < ReportLimit then |top| else ReportLimit)
    ensures forall k :: 0 <= k < |report| ==> report[k] == Report(top[k])
  {
    report := [];
    var j := 0;
    while j < |top| && j < ReportLimit
      invariant 0 <= j <= |top| && j <= ReportLimit && |report| == j
      invariant forall k :: 0 <= k < j ==> report[k] == Report(top[k])
    {
      report := report + [Report(top[j])];
      j := j + 1;
    }
  }

  // ---------------------------------------------------------------------------------------
  // generate_dominance_rankings

  /** `df['tourney_name'].isin(gs_tournaments)`. */
  predicate InSlam(m: Match)
  {
    m.tourneyName.Some? && m.tourneyName.value in GrandSlams.Names
  }

  /** The `groupby(['winner_name', 'tourney_name', 'year'])` key of a row; a row with a missing key joins no group. */
  function KeyOf(m: Match): Option<Dominance.Campaign>
  {
    if m.winnerName.Some? && m.tourneyName.Some? then
      Some(Dominance.Campaign(m.winnerName.value, m.tourneyName.value, YearOf(m.tourneyDate)))
    else None
  }

  /** The keys of the rows, in row order, with repeats. */
  function RowKeys(gs: seq<Match>): (r: seq<Dominance.Campaign>)
    ensures forall c :: c in r <==> exists k :: 0 <= k < |gs| && KeyOf(gs[k]) == Some(c)
  {
    if |gs| == 0 then []
    else
      var init := gs[..|gs| - 1];
      var m := gs[|gs| - 1];
      assert forall k :: 0 <= k < |init| ==> gs[k] == init[k];
      RowKeys(init) + (if KeyOf(m).Some? then [KeyOf(m).value] else [])
  }

  /** The groups in the order `groupby` visits them: sorted by key, each key once. */
  function GroupKeys(gs: seq<Match>): (r: seq<Dominance.Campaign>)
    ensures Increasing(r, Dominance.CampaignLt)
    ensures forall c :: c in r <==> exists k :: 0 <= k < |gs| && KeyOf(gs[k]) == Some(c)
  {
    Dominance.CampaignLtStrictTotal();
    SortedDistinct(RowKeys(gs), Dominance.CampaignLt)
  }

  /** The rows of one group. */
  function Group(gs: seq<Match>, c: Dominance.Campaign): seq<Match>
  {
    Filter(gs, (m: Match) => KeyOf(m) == Some(c))
  }

  function MinutesOf(group: seq<Match>): (r: seq<Option<real>>)
    ensures |r| == |group|
  {
    seq(|group|, k requires 0 <= k < |group| => group[k].minutes)
  }

  /**
   * `max(0, 100 - (avg_minutes - 60) / 2)`: never negative, 0 when no duration is known
   * (`max(0, nan)` keeps the 0), and with no upper cap, so a run averaging under an hour
   * scores above 100.
   */
  function SpeedScore(avg: Option<real>): (s: real)
    ensures s >= 0.0
    ensures avg.None? ==> s == 0.0
    ensures avg.Some? && avg.value >= 60.0 ==> s <= 100.0
    ensures avg.Some? && avg.value < 60.0 ==> s > 100.0
  {
    if avg.None? then 0.0
    else
      var x := 100.0 - (avg.value - 60.0) / 2.0;
      if x > 0.0 then x else 0.0
  }

  /** One record of `gs_dominance_rankings.json`, before its rank. */
  datatype Run = Run(
    player: string, tournament: string, year: nat, dominanceScore: real,
    setsWon: nat, setsWonPct: real, gamesWonPct: real, pointsWonPct: real,
    speedScore: real, avgMatchMinutes: Option<real>, perfectCampaign: bool, setsLost: nat)

  /** The score every run reaches from its set, game and point estimates alone. */
  const BaseScore := 56.75

  lemma TwoThirds(n: nat)
    requires n > 0
    ensures ((n * 2) as real) / ((n * 3) as real) * 100.0 == 200.0 / 3.0
  {
    var x := n as real;
    assert (n * 2) as real == 2.0 * x;
    assert (n * 3) as real == 3.0 * x;
    assert (2.0 * x) / (3.0 * x) == 2.0 / 3.0;
  }

  /**
   * The record of a group of three or more won matches. Every match counts as won in
   * straight sets of three, so the set share is always two thirds, the games and points
   * estimates always 75 and 56.67, no run is perfect, and the score is a fixed 56.75 plus
   * 0.15 of the speed score.
   */
  function RunOf(c: Dominance.Campaign, group: seq<Match>): (r: Run)
    requires |group| >= 3
    ensures r.player == c.player && r.tournament == c.tournament && r.year == c.year
    ensures r.setsWon == 2 * |group| && r.setsLost == |group| && !r.perfectCampaign
    ensures r.setsWonPct == 200.0 / 3.0 && r.gamesWonPct == 75.0 && r.pointsWonPct == 55.0 + 5.0 / 3.0
    ensures r.avgMatchMinutes == MeanPresent(MinutesOf(group))
    ensures r.speedScore == SpeedScore(r.avgMatchMinutes)
    ensures r.dominanceScore == BaseScore + 0.15 * r.speedScore
  {
    var n := |group|;
    var totalSets := n * 3;
    var setsWon := n * 2;
    var setsLost := if totalSets - setsWon > 0 then totalSets - setsWon else 0;
    var setsWonPct := if totalSets > 0 then (setsWon as real) / (totalSets as real) * 100.0 else 0.0;
    TwoThirds(n);
    var gamesWonPct := 70.0 + (setsWonPct - 50.0) * 0.3;
    var pointsWonPct := 55.0 + (setsWonPct - 50.0) * 0.1;
    var avgMinutes := MeanPresent(MinutesOf(group));
    var speedScore := SpeedScore(avgMinutes);
    Run(c.player, c.tournament, c.year,
        setsWonPct * 0.4 + gamesWonPct * 0.25 + pointsWonPct * 0.2 + speedScore * 0.15,
        setsWon, setsWonPct, gamesWonPct, pointsWonPct, speedScore, avgMinutes,
        setsLost == 0, setsLost)
  }

  /**
   * The ranking only measures speed: of two runs, the one with the shorter known average
   * duration scores at least as high, and a run with no known duration scores the least
   * any run can.
   */
  lemma FasterRanksHigher(c1: Dominance.Campaign, g1: seq<Match>, c2: Dominance.Campaign, g2: seq<Match>)
    requires |g1| >= 3 && |g2| >= 3
    ensures var a1, a2 := MeanPresent(MinutesOf(g1)), MeanPresent(MinutesOf(g2));
      a1.Some? && a2.Some? && a1.value <= a2.value ==> RunOf(c1, g1).dominanceScore >= RunOf(c2, g2).dominanceScore
    ensures RunOf(c1, g1).dominanceScore >= BaseScore
    ensures MeanPresent(MinutesOf(g1)).None? ==> RunOf(c1, g1).dominanceScore == BaseScore
  {
    var a1, a2 := MeanPresent(MinutesOf(g1)), MeanPresent(MinutesOf(g2));
    if a1.Some? && a2.Some? && a1.value <= a2.value {
      assert SpeedScore(a1) >= SpeedScore(a2);
    }
  }

  /** `rankings`: the records of the groups of three or more rows, visiting the keys in order. */
  function Runs(gs: seq<Match>, keys: seq<Dominance.Campaign>): (r: seq<Run>)
    ensures |r| <= |keys|
  {
    if |keys| == 0 then []
    else
      var init := Runs(gs, keys[..|keys| - 1]);
      var c := keys[|keys| - 1];
      if |Group(gs, c)| >= 3 then init + [RunOf(c, Group(gs, c))] else init
  }

  /** Each record is the record of a listed key whose group has three or more rows, and each such key has its record. */
  lemma {:induction false} RunsListed(gs: seq<Match>, keys: seq<Dominance.Campaign>)
    ensures forall x :: x in Runs(gs, keys) <==>
      exists c :: c in keys && |Group(gs, c)| >= 3 && x == RunOf(c, Group(gs, c))
  {
    if |keys| > 0 {
      var init := keys[..|keys| - 1];
      RunsListed(gs, init);
      assert forall c :: c in keys <==> c in init || c == keys[|keys| - 1];
    }
  }

  /**
   * A player, tournament and year has a record exactly when three or more of the table's
   * Grand Slam rows were won by that player there that year.
   */
  lemma RunsAreCampaigns(df: seq<Match>, c: Dominance.Campaign)
    ensures var gs := Filter(df, InSlam);
      (exists x :: x in Runs(gs, GroupKeys(gs)) && x.player == c.player && x.tournament == c.tournament && x.year == c.year)
      <==> |Group(gs, c)| >= 3
  {
    var gs := Filter(df, InSlam);
    var keys := GroupKeys(gs);
    RunsListed(gs, keys);
    if |Group(gs, c)| >= 3 {
      var m := Group(gs, c)[0];
      assert m in Group(gs, c);
      var k :| 0 <= k < |gs| && gs[k] == m;
      assert c in keys;
      assert RunOf(c, Group(gs, c)) in Runs(gs, keys);
    }
    if exists x :: x in Runs(gs, keys) && x.player == c.player && x.tournament == c.tournament && x.year == c.year {
      var x :| x in Runs(gs, keys) && x.player == c.player && x.tournament == c.tournament && x.year == c.year;
      var c' :| c' in keys && |Group(gs, c')| >= 3 && x == RunOf(c', Group(gs, c'));
      assert c' == c;
    }
  }

  lemma RunsSnoc(gs: seq<Match>, keys: seq<Dominance.Campaign>, i: nat)
    requires i < |keys|
    ensures Runs(gs, keys[..i + 1]) == Runs(gs, keys[..i])
      + (if |Group(gs, keys[i])| >= 3 then [RunOf(keys[i], Group(gs, keys[i]))] else [])
  {
    assert keys[..i + 1][..i] == keys[..i];
  }

  /** The loop over the groups, in key order, skipping those of fewer than three rows. */
  method CollectRuns(gs: seq<Match>, keys: seq<Dominance.Campaign>) returns (runs: seq<Run>)
    ensures runs == Runs(gs, keys)
  {
    runs := [];
    var i := 0;
    while i < |keys|
      invariant 0 <= i <= |keys|
      invariant runs == Runs(gs, keys[..i])
    {
      RunsSnoc(gs, keys, i);
      var group := Group(gs, keys[i]);
      if |group| >= 3 {
        runs := runs + [RunOf(keys[i], group)];
      }
      i := i + 1;
    }
    assert keys[..i] == keys;
  }

  /** An entry of the output: the rank and the record. */
  datatype RankedRun = RankedRun(rank: nat, run: Run)

  function ScoreKey(r: Run): real { r.dominanceScore }

  const RankingLimit := 100

  /**
   * `generate_dominance_rankings`: the records of the groups, visited in key order, sorted
   * by score, largest first, keeping ties in that order, and the first hundred numbered from 1.
   */
  method GenerateDominanceRankings(df: seq<Match>) returns (rankings: seq<RankedRun>)
    ensures var gs := Filter(df, InSlam);
      var runs := Runs(gs, GroupKeys(gs));
      |rankings| == (if |runs| < RankingLimit then |runs| else RankingLimit)
      && exists perm, sorted :: StableDescending(runs, ScoreKey, perm, sorted)
           && forall k :: 0 <= k < |rankings| ==> rankings[k] == RankedRun(k + 1, sorted[k])
  {
    var gs := Filter(df, InSlam);
    var runs := CollectRuns(gs, GroupKeys(gs));
    var perm, sorted := StableSortDescending(runs, ScoreKey);
    rankings := NumberRuns(sorted);
  }

  /** `for i, r in enumerate(rankings[:100], 1): r['rank'] = i`. */
  method NumberRuns(ys: seq<Run>) returns (rankings: seq<RankedRun>)
    ensures |rankings| == (if |ys| < RankingLimit then |ys| else RankingLimit)
    ensures forall k :: 0 <= k < |rankings| ==> rankings[k] == RankedRun(k + 1, ys[k])
  {
    rankings := [];
    var j := 0;
    while j < |ys| && j < RankingLimit
      invariant 0 <= j <= |ys| && j <= RankingLimit && |rankings| == j
      invariant forall k :: 0 <= k < j ==> rankings[k] == RankedRun(k + 1, ys[k])
    {
      rankings := rankings + [RankedRun(j + 1, ys[j])];
      j := j + 1;
    }
  }

  // ---------------------------------------------------------------------------------------
  // generate_breakthrough_comparison

  /**
   * What one row does to `player_stats`: only the winner is entered and counted, gaining
   * a match and a win, and a Grand Slam final win a title, dated the first time.
   */
  function WinnerStep(s: Breakthrough.State, m: Match): Breakthrough.State
  {
    if m.winnerName.None? then s
    else
      var w := m.winnerName.value;
      var s1 := Breakthrough.Enter(s, w, m.tourneyDate);
      var t := s1.stats[w];
      var t1 := t.(totalMatches := t.totalMatches + 1, wins := t.wins + 1);
      var t2 :=
        if Breakthrough.IsSlamFinal(m) then
          var t' := if t1.firstGsDate.None? then t1.(firstGsDate := Some(m.tourneyDate), firstGsAge := m.winnerAge) else t1;
          t'.(gsTitles := t'.gsTitles + 1)
        else t1;
      Breakthrough.State(s1.stats[w := t2], s1.order)
  }

  /** `player_stats` after the rows of `df`, in order. */
  function WinnerTrack(df: seq<Match>): Breakthrough.State
  {
    if |df| == 0 then Breakthrough.State(map[], []) else WinnerStep(WinnerTrack(df[..|df| - 1]), df[|df| - 1])
  }

  lemma {:induction false} WinnerTrackWf(df: seq<Match>)
    ensures Breakthrough.Wf(WinnerTrack(df))
  {
    if |df| > 0 {
      WinnerTrackWf(df[..|df| - 1]);
    }
  }

  /**
   * A player has an entry exactly when they won a row; the entry is dated by their first
   * win, counts their wins twice over (as matches and as wins: losses are never counted), and
   * its first title is the first Grand Slam final win in row order.
   */
  lemma {:induction false} WinnerFacts(df: seq<Match>, p: string)
    ensures var t, first, title := Breakthrough.Get(WinnerTrack(df), p),
        First(df, (m: Match) => Breakthrough.Wins(m, p)), First(df, (m: Match) => Breakthrough.SlamTitle(m, p));
      && (p in WinnerTrack(df).stats <==> first.Some?)
      && t.firstMatchDate == (if first.Some? then first.value.tourneyDate else 0)
      && t.wins == Count(df, (m: Match) => Breakthrough.Wins(m, p))
      && t.totalMatches == t.wins
      && t.gsTitles == Count(df, (m: Match) => Breakthrough.SlamTitle(m, p))
      && t.firstGsDate == (if title.Some? then Some(title.value.tourneyDate) else None)
      && t.firstGsAge == (if title.Some? then title.value.winnerAge else None)
  {
    if |df| > 0 {
      var init, m := df[..|df| - 1], df[|df| - 1];
      assert df == init + [m];
      WinnerFacts(init, p);
      CountSnoc(init, m, (m: Match) => Breakthrough.Wins(m, p));
      CountSnoc(init, m, (m: Match) => Breakthrough.SlamTitle(m, p));
    }
  }

  /** One row of `gs_breakthrough_comparison.csv`, less the columns the source fills with constants. */
  datatype Pioneer = Pioneer(
    player: string, ageFirstGs: real, matchesBeforeFirstGs: nat, totalGsTitles: nat,
    yearTurnedPro: int, yearFirstGs: nat, totalAtpMatches: nat, winPercentage: real,
    yearsOnTourBeforeGs: int)

  /** `start_year = first_year - 10`. */
  const ProEstimate := 10

  /**
   * The output row of a champion. The turning-pro year is always ten years before the
   * first title, so the years on tour before it are always ten.
   */
  function PioneerOf(df: seq<Match>, p: string, t: Breakthrough.Tally): (e: Pioneer)
    requires t.firstGsDate.Some?
    ensures e.player == p && e.totalGsTitles == t.gsTitles && e.totalAtpMatches == t.totalMatches
    ensures e.matchesBeforeFirstGs <= Breakthrough.Cap
    ensures e.matchesBeforeFirstGs == Careers.MatchesBefore(df, p, t.firstGsDate.value)
      || (e.matchesBeforeFirstGs == Breakthrough.Cap && Careers.MatchesBefore(df, p, t.firstGsDate.value) > Breakthrough.Cap)
    ensures e.yearFirstGs == YearOf(t.firstGsDate.value) && e.yearTurnedPro == e.yearFirstGs - ProEstimate
    ensures e.yearsOnTourBeforeGs == ProEstimate
    ensures t.firstGsAge.None? ==> e.ageFirstGs == Breakthrough.DefaultAge
    ensures 0 < t.totalMatches == t.wins ==> e.winPercentage == 100.0
  {
    var before := Careers.MatchesBefore(df, p, t.firstGsDate.value);
    var firstYear := YearOf(t.firstGsDate.value);
    var startYear := firstYear - ProEstimate;
    Pioneer(
      p, if t.firstGsAge.Some? then t.firstGsAge.value else Breakthrough.DefaultAge,
      if before < Breakthrough.Cap then before else Breakthrough.Cap, t.gsTitles, startYear,
      firstYear, t.totalMatches, Summaries.WinPercentage(t.wins, t.totalMatches),
      if 1 < firstYear - startYear then firstYear - startYear else 1)
  }

  /** The rows the second loop appends, walking `names` in order. */
  function PioneersFrom(df: seq<Match>, stats: map<string, Breakthrough.Tally>, names: seq<string>): (r: seq<Pioneer>)
    requires forall q :: q in names ==> q in stats
    ensures forall k :: 0 <= k < |r| ==>
      r[k].player in names && Breakthrough.Eligible(stats[r[k].player])
      && r[k] == PioneerOf(df, r[k].player, stats[r[k].player])
    ensures forall q :: q in names && Breakthrough.Eligible(stats[q]) ==> exists k :: 0 <= k < |r| && r[k].player == q
  {
    if |names| == 0 then []
    else
      var init := names[..|names| - 1];
      var q := names[|names| - 1];
      assert forall x :: x in names <==> x in init || x == q;
      var r := PioneersFrom(df, stats, init);
      if Breakthrough.Eligible(stats[q]) then
        var r' := r + [PioneerOf(df, q, stats[q])];
        assert forall k :: 0 <= k < |r| ==> r'[k] == r[k];
        assert r'[|r|].player == q;
        r'
      else r
  }

  /** Listed from distinct names, the rows name distinct players. */
  lemma {:induction false} PioneersDistinct(df: seq<Match>, stats: map<string, Breakthrough.Tally>, names: seq<string>)
    requires forall q :: q in names ==> q in stats
    requires forall i, j :: 0 <= i < j < |names| ==> names[i] != names[j]
    ensures forall i, j :: 0 <= i < j < |PioneersFrom(df, stats, names)| ==>
      PioneersFrom(df, stats, names)[i].player != PioneersFrom(df, stats, names)[j].player
  {
    if |names| > 0 {
      var init := names[..|names| - 1];
      PioneersDistinct(df, stats, init);
      var q := names[|names| - 1];
      assert q !in init by {
        forall k | 0 <= k < |init| ensures init[k] != q { assert init[k] == names[k]; }
      }
      var r := PioneersFrom(df, stats, init);
      if Breakthrough.Eligible(stats[q]) {
        var r' := r + [PioneerOf(df, q, stats[q])];
        assert PioneersFrom(df, stats, names) == r';
        forall i, j | 0 <= i < j < |r'| ensures r'[i].player != r'[j].player {
          assert r'[i] == r[i];
          if j < |r| {
            assert r'[j] == r[j];
          }
        }
      }
    }
  }

  /** The unsorted output: nothing at all when the table holds no Grand Slam final. */
  function Pioneers(df: seq<Match>): seq<Pioneer>
  {
    if Count(df, Breakthrough.IsSlamFinal) == 0 then []
    else
      var t := WinnerTrack(df);
      WinnerTrackWf(df);
      PioneersFrom(df, t.stats, t.order)
  }

  /** The output lists each champion once: exactly the players whose first Grand Slam final win in row order carries a non-zero date. */
  lemma PioneersAreChampions(df: seq<Match>, p: string)
    ensures var title := First(df, (m: Match) => Breakthrough.SlamTitle(m, p));
      (exists k :: 0 <= k < |Pioneers(df)| && Pioneers(df)[k].player == p)
      <==> title.Some? && title.value.tourneyDate != 0
    ensures forall i, j :: 0 <= i < j < |Pioneers(df)| ==> Pioneers(df)[i].player != Pioneers(df)[j].player
  {
    var title := First(df, (m: Match) => Breakthrough.SlamTitle(m, p));
    WinnerTrackWf(df);
    WinnerFacts(df, p);
    var t := WinnerTrack(df);
    if title.Some? {
      var i :| 0 <= i < |df| && df[i] == title.value && Breakthrough.SlamTitle(title.value, p);
      assert df[i] in Filter(df, Breakthrough.IsSlamFinal);
      assert df[i] in Filter(df, (m: Match) => Breakthrough.Wins(m, p));
      assert First(df, (m: Match) => Breakthrough.Wins(m, p)).Some?;
    }
    if Count(df, Breakthrough.IsSlamFinal) > 0 {
      assert Pioneers(df) == PioneersFrom(df, t.stats, t.order);
      PioneersDistinct(df, t.stats, t.order);
    }
  }

  /**
   * Only wins were counted, so each champion's row shows their wins as their matches, a
   * win percentage of 100, and their Grand Slam final wins as titles.
   */
  lemma PioneerCounts(df: seq<Match>, k: nat)
    requires k < |Pioneers(df)|
    ensures var e := Pioneers(df)[k];
      && e.totalAtpMatches == Count(df, (m: Match) => Breakthrough.Wins(m, e.player))
      && e.winPercentage == 100.0
      && e.totalGsTitles == Count(df, (m: Match) => Breakthrough.SlamTitle(m, e.player)) > 0
  {
    var p := Pioneers(df)[k].player;
    WinnerTrackWf(df);
    WinnerFacts(df, p);
    var t := WinnerTrack(df);
    assert Pioneers(df) == PioneersFrom(df, t.stats, t.order);
    assert Breakthrough.Get(t, p) == t.stats[p];
    CountMonotone(df, (m: Match) => Breakthrough.SlamTitle(m, p), (m: Match) => Breakthrough.Wins(m, p));
  }

  /** The first loop: `player_stats`, filled row by row. */
  method TrackWinners(df: seq<Match>) returns (stats: map<string, Breakthrough.Tally>, order: seq<string>)
    ensures Breakthrough.State(stats, order) == WinnerTrack(df)
  {
    stats, order := map[], [];
    var i := 0;
    while i < |df|
      invariant 0 <= i <= |df|
      invariant Breakthrough.State(stats, order) == WinnerTrack(df[..i])
    {
      var m := df[i];
      assert df[..i + 1][..i] == df[..i];
      if m.winnerName.Some? {
        var player := m.winnerName.value;
        if player !in stats {
          stats := stats[player := Breakthrough.NewTally(m.tourneyDate)];
          order := order + [player];
        }
        stats := stats[player := stats[player].(totalMatches := stats[player].totalMatches + 1, wins := stats[player].wins + 1)];
        if Breakthrough.IsSlamFinal(m) {
          if stats[player].firstGsDate.None? {
            stats := stats[player := stats[player].(firstGsDate := Some(m.tourneyDate), firstGsAge := m.winnerAge)];
          }
          stats := stats[player := stats[player].(gsTitles := stats[player].gsTitles + 1)];
        }
      }
      i := i + 1;
    }
    assert df[..i] == df;
  }

  function PioneerKey(e: Pioneer): real { e.matchesBeforeFirstGs as real }

  /**
   * `generate_breakthrough_comparison`: nothing when the table has no Grand Slam final;
   * otherwise the winners' entries, a row per champion in insertion order, a stable sort by
   * the matches before the first title, largest first, cut to fifty.
   */
  method GenerateBreakthroughComparison(df: seq<Match>) returns (result: seq<Pioneer>)
    ensures exists perm, sorted ::
      StableDescending(Pioneers(df), PioneerKey, perm, sorted)
      && result == Breakthrough.Take(sorted, Breakthrough.Limit)
    ensures Count(df, Breakthrough.IsSlamFinal) == 0 ==> result == []
  {
    if Count(df, Breakthrough.IsSlamFinal) == 0 {
      assert StableDescending(Pioneers(df), PioneerKey, [], []);
      return [];
    }
    var stats, order := TrackWinners(df);
    WinnerTrackWf(df);
    var data := CollectPioneers(df, stats, order);
    assert data == Pioneers(df);
    var perm, sorted := StableSortDescending(data, PioneerKey);
    result := Breakthrough.Take(sorted, Breakthrough.Limit);
  }

  lemma PioneersSnoc(df: seq<Match>, stats: map<string, Breakthrough.Tally>, names: seq<string>, j: nat)
    requires forall q :: q in names ==> q in stats
    requires j < |names|
    ensures forall q :: q in names[..j] ==> q in stats
    ensures forall q :: q in names[..j + 1] ==> q in stats
    ensures PioneersFrom(df, stats, names[..j + 1]) == PioneersFrom(df, stats, names[..j])
      + (if Breakthrough.Eligible(stats[names[j]]) then [PioneerOf(df, names[j], stats[names[j]])] else [])
  {
    assert forall q :: q in names[..j + 1] ==> q in names;
    assert names[..j + 1][..j] == names[..j];
  }

  /** The second loop: each eligible player's row, counting their earlier matches with a nested loop. */
  method CollectPioneers(df: seq<Match>, stats: map<string, Breakthrough.Tally>, order: seq<string>) returns (data: seq<Pioneer>)
    requires forall q :: q in order ==> q in stats
    ensures data == PioneersFrom(df, stats, order)
  {
    data := [];
    var j := 0;
    while j < |order|
      invariant 0 <= j <= |order|
      invariant data == PioneersFrom(df, stats, order[..j])
    {
      var p := order[j];
      var t := stats[p];
      PioneersSnoc(df, stats, order, j);
      if t.gsTitles > 0 && t.firstGsDate.Some? && t.firstGsDate.value != 0 {
        var before := Breakthrough.CountBefore(df, p, t.firstGsDate.value);
        var firstYear := YearOf(t.firstGsDate.value);
        var startYear := firstYear - ProEstimate;
        var row := Pioneer(
          p, if t.firstGsAge.Some? then t.firstGsAge.value else Breakthrough.DefaultAge,
          if before < Breakthrough.Cap then before else Breakthrough.Cap, t.gsTitles, startYear,
          firstYear, t.totalMatches, Summaries.WinPercentage(t.wins, t.totalMatches),
          if 1 < firstYear - startYear then firstYear - startYear else 1);
        assert row == PioneerOf(df, p, t);
        data := data + [row];
      }
      j := j + 1;
    }
    assert order[..j] == order;
  }
}
