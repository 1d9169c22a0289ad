/**
 * `build_player_career_metrics` of aggregations/base_metrics.py: one profile per player,
 * filled by a first pass over every match, a second pass counting what a champion did
 * before the first Grand Slam title, and derived fields (years, percentages, opponents,
 * peak rankings).
 */
module Careers {
  import opened Wrappers
  import opened Numeric
  import opened Matches
  import opened GrandSlams
  import opened Summaries

  /** Matches played and won in one bucket (a surface, or opponents within a ranking). */
  datatype Tally = Tally(matches: nat, wins: nat)

  /** Matches, wins and losses, overall or at the Grand Slams. */
  datatype Totals = Totals(matches: nat, wins: nat, losses: nat)

  /** The Grand Slam part of a profile. */
  datatype Slams = Slams(
    totals: Totals, titles: nat, finals: nat, semifinals: nat, quarterfinals: nat,
    hasTitle: bool, firstTitleDate: Option<nat>, firstTitleAge: Option<real>)

  datatype Surfaces = Surfaces(hard: Tally, clay: Tally, grass: Tally, carpet: Tally)

  /** Matches and wins against opponents ranked within 5, 10 and 30. */
  datatype Opposition = Opposition(top5: Tally, top10: Tally, top30: Tally)

  /** The per-player record pass 1 and pass 2 fill in. */
  datatype Profile = Profile(
    country: Option<string>,
    firstMatchDate: Option<nat>, lastMatchDate: Option<nat>,
    totals: Totals, slams: Slams, surfaces: Surfaces, opposition: Opposition,
    totalMinutes: real, matchesWithDuration: nat,
    wasTop5: bool, wasTop10: bool,
    matchesBeforeFirstGs: nat, winsBeforeFirstGs: nat, winPctBeforeFirstGs: real)

  const Zero := Tally(0, 0)
  const NoMatches := Totals(0, 0, 0)

  /** The record every player starts from. */
  const Fresh := Profile(None, None, None, NoMatches,
                         Slams(NoMatches, 0, 0, 0, 0, false, None, None),
                         Surfaces(Zero, Zero, Zero, Zero), Opposition(Zero, Zero, Zero),
                         0.0, 0, false, false, 0, 0, 0.0)

  /** The rankings the opponent buckets and the top-5/top-10 flags ignore: missing, or 999 and above. */
  const Unranked := 999

  predicate Ranked(rank: Option<int>) { rank.Some? && rank.value < Unranked }

  predicate TallyOk(t: Tally) { t.wins <= t.matches }

  predicate TotalsOk(t: Totals) { t.matches == t.wins + t.losses }

  predicate SlamsOk(s: Slams)
  {
    && TotalsOk(s.totals)
    && s.titles <= s.finals && s.titles <= s.totals.wins
    && (s.hasTitle <==> s.titles > 0)
    && (s.firstTitleDate.Some? <==> s.hasTitle)
  }

  predicate SurfacesOk(s: Surfaces)
  {
    TallyOk(s.hard) && TallyOk(s.clay) && TallyOk(s.grass) && TallyOk(s.carpet)
  }

  function SurfaceMatches(s: Surfaces): nat
  {
    s.hard.matches + s.clay.matches + s.grass.matches + s.carpet.matches
  }

  /** The buckets nest: a top-5 opponent is also a top-10 and a top-30 opponent. */
  predicate OppositionOk(o: Opposition)
  {
    && TallyOk(o.top5) && TallyOk(o.top10) && TallyOk(o.top30)
    && o.top5.matches <= o.top10.matches <= o.top30.matches
    && o.top5.wins <= o.top10.wins <= o.top30.wins
  }

  /** The counting invariants every profile keeps, before and after each row. */
  predicate ProfileOk(p: Profile)
  {
    PartsOk(p) && BoundsOk(p) && DatesOk(p)
  }

  predicate PartsOk(p: Profile)
  {
    TotalsOk(p.totals) && SlamsOk(p.slams) && SurfacesOk(p.surfaces) && OppositionOk(p.opposition)
  }

  /** Grand Slam, surface, opponent and duration counts never exceed the overall ones. */
  predicate BoundsOk(p: Profile)
  {
    && p.slams.totals.matches <= p.totals.matches
    && p.slams.totals.wins <= p.totals.wins
    && SurfaceMatches(p.surfaces) <= p.totals.matches
    && p.opposition.top30.matches <= p.totals.matches
    && p.opposition.top30.wins <= p.totals.wins
    && p.matchesWithDuration <= p.totals.wins
    && p.winsBeforeFirstGs <= p.matchesBeforeFirstGs
  }

  /** Dates exist once a match is counted, the first no later than the last; top 5 implies top 10. */
  predicate DatesOk(p: Profile)
  {
    && (p.wasTop5 ==> p.wasTop10)
    && (p.firstMatchDate.Some? <==> p.totals.matches > 0)
    && (p.lastMatchDate.Some? <==> p.totals.matches > 0)
    && (p.firstMatchDate.Some? && p.lastMatchDate.Some? ==> p.firstMatchDate.value <= p.lastMatchDate.value)
  }

  function Bump(t: Tally, won: bool): (r: Tally)
    ensures TallyOk(t) ==> TallyOk(r)
  {
    Tally(t.matches + 1, if won then t.wins + 1 else t.wins)
  }

  function Earlier(d: Option<nat>, date: nat): Option<nat>
  {
    if d.None? || date < d.value then Some(date) else d
  }

  function Later(d: Option<nat>, date: nat): Option<nat>
  {
    if d.None? || date > d.value then Some(date) else d
  }

  /** Hard, Clay, Grass and Carpet have buckets; any other (or missing) surface touches none. */
  function AddSurface(s: Surfaces, surface: Option<string>, won: bool): (r: Surfaces)
    ensures SurfacesOk(s) ==> SurfacesOk(r)
    ensures SurfaceMatches(r) <= SurfaceMatches(s) + 1
  {
    if surface == Some("Hard") then s.(hard := Bump(s.hard, won))
    else if surface == Some("Clay") then s.(clay := Bump(s.clay, won))
    else if surface == Some("Grass") then s.(grass := Bump(s.grass, won))
    else if surface == Some("Carpet") then s.(carpet := Bump(s.carpet, won))
    else s
  }

  /** An opponent's ranking, if known and below 999, counts in every bucket it falls within. */
  function AddOpponent(o: Opposition, oppRank: Option<int>, won: bool): (r: Opposition)
    ensures OppositionOk(o) ==> OppositionOk(r)
    ensures r.top30.matches <= o.top30.matches + 1
    ensures r.top30.wins <= o.top30.wins + (if won then 1 else 0)
  {
    if Ranked(oppRank) then
      var k := oppRank.value;
      Opposition(if k <= 5 then Bump(o.top5, won) else o.top5,
                 if k <= 10 then Bump(o.top10, won) else o.top10,
                 if k <= 30 then Bump(o.top30, won) else o.top30)
    else o
  }

  /**
   * A Grand Slam win. In a final it is a title and a final, and the first one met fixes the
   * first-title date and age; otherwise a semifinal or quarterfinal win counts as reaching
   * that round. (The source's second `round == 'F'` branch can never run.)
   */
  function SlamWin(s: Slams, m: Match): (r: Slams)
    ensures SlamsOk(s) ==> SlamsOk(r)
    ensures r.totals == Totals(s.totals.matches + 1, s.totals.wins + 1, s.totals.losses)
    ensures r.titles == s.titles + (if m.round == Some("F") then 1 else 0)
    ensures r.firstTitleDate == if s.firstTitleDate.None? && m.round == Some("F") then Some(m.tourneyDate) else s.firstTitleDate
    ensures r.firstTitleAge == if s.firstTitleDate.None? && m.round == Some("F") then m.winnerAge else s.firstTitleAge
  {
    var q := s.(totals := Totals(s.totals.matches + 1, s.totals.wins + 1, s.totals.losses));
    if m.round == Some("F") then
      var t := q.(titles := q.titles + 1, finals := q.finals + 1, hasTitle := true);
      if t.firstTitleDate.None? then t.(firstTitleDate := Some(m.tourneyDate), firstTitleAge := m.winnerAge)
      else t
    else if m.round == Some("SF") then q.(semifinals := q.semifinals + 1)
    else if m.round == Some("QF") then q.(quarterfinals := q.quarterfinals + 1)
    else q
  }

  /** A Grand Slam loss still counts the round reached. */
  function SlamLoss(s: Slams, m: Match): (r: Slams)
    ensures SlamsOk(s) ==> SlamsOk(r)
    ensures r.totals == Totals(s.totals.matches + 1, s.totals.wins, s.totals.losses + 1)
    ensures r.titles == s.titles && r.firstTitleDate == s.firstTitleDate && r.firstTitleAge == s.firstTitleAge
  {
    var q := s.(totals := Totals(s.totals.matches + 1, s.totals.wins, s.totals.losses + 1));
    if m.round == Some("F") then q.(finals := q.finals + 1)
    else if m.round == Some("SF") then q.(semifinals := q.semifinals + 1)
    else if m.round == Some("QF") then q.(quarterfinals := q.quarterfinals + 1)
    else q
  }

  /** Everything one match adds to its winner's profile (base_metrics.py, lines 151-225). */
  function WinnerUpdate(p: Profile, m: Match): (r: Profile)
    ensures r.totals == Totals(p.totals.matches + 1, p.totals.wins + 1, p.totals.losses)
    ensures r.slams.firstTitleDate == (if p.slams.firstTitleDate.None? && TitleRound(m) then Some(m.tourneyDate) else p.slams.firstTitleDate)
    ensures r.slams.firstTitleAge == (if p.slams.firstTitleDate.None? && TitleRound(m) then m.winnerAge else p.slams.firstTitleAge)
    ensures r.slams.titles == p.slams.titles + (if TitleRound(m) then 1 else 0)
    ensures r.matchesBeforeFirstGs == p.matchesBeforeFirstGs
  {
    var own := m.winnerRank;
    Profile(
      if p.country.None? && m.winnerIoc.Some? then m.winnerIoc else p.country,
      Earlier(p.firstMatchDate, m.tourneyDate), Later(p.lastMatchDate, m.tourneyDate),
      Totals(p.totals.matches + 1, p.totals.wins + 1, p.totals.losses),
      if IsGrandSlam(m.tourneyName) then SlamWin(p.slams, m) else p.slams,
      AddSurface(p.surfaces, m.surface, true),
      AddOpponent(p.opposition, m.loserRank, true),
      if m.minutes.Some? then p.totalMinutes + m.minutes.value else p.totalMinutes,
      if m.minutes.Some? then p.matchesWithDuration + 1 else p.matchesWithDuration,
      p.wasTop5 || (Ranked(own) && own.value <= 5),
      p.wasTop10 || (Ranked(own) && own.value <= 10),
      p.matchesBeforeFirstGs, p.winsBeforeFirstGs, p.winPctBeforeFirstGs)
  }

  /** Everything one match adds to its loser's profile (base_metrics.py, lines 228-281). */
  function LoserUpdate(p: Profile, m: Match): (r: Profile)
    ensures r.totals == Totals(p.totals.matches + 1, p.totals.wins, p.totals.losses + 1)
    ensures r.slams.firstTitleDate == p.slams.firstTitleDate && r.slams.firstTitleAge == p.slams.firstTitleAge
    ensures r.slams.titles == p.slams.titles
    ensures r.matchesBeforeFirstGs == p.matchesBeforeFirstGs
  {
    var own := m.loserRank;
    Profile(
      if p.country.None? && m.loserIoc.Some? then m.loserIoc else p.country,
      Earlier(p.firstMatchDate, m.tourneyDate), Later(p.lastMatchDate, m.tourneyDate),
      Totals(p.totals.matches + 1, p.totals.wins, p.totals.losses + 1),
      if IsGrandSlam(m.tourneyName) then SlamLoss(p.slams, m) else p.slams,
      AddSurface(p.surfaces, m.surface, false),
      AddOpponent(p.opposition, m.winnerRank, false),
      p.totalMinutes, p.matchesWithDuration,
      p.wasTop5 || (Ranked(own) && own.value <= 5),
      p.wasTop10 || (Ranked(own) && own.value <= 10),
      p.matchesBeforeFirstGs, p.winsBeforeFirstGs, p.winPctBeforeFirstGs)
  }

  /** The counting invariants survive a win. */
  lemma WinnerUpdateOk(p: Profile, m: Match)
    requires ProfileOk(p)
    ensures ProfileOk(WinnerUpdate(p, m))
  {
    var r := WinnerUpdate(p, m);
    assert PartsOk(r);
    assert BoundsOk(r);
    assert DatesOk(r);
  }

  /** The counting invariants survive a loss. */
  lemma LoserUpdateOk(p: Profile, m: Match)
    requires ProfileOk(p)
    ensures ProfileOk(LoserUpdate(p, m))
  {
    var r := LoserUpdate(p, m);
    assert PartsOk(r);
    assert BoundsOk(r);
    assert DatesOk(r);
  }

  /** A Grand Slam final: its winner takes a title. */
  predicate TitleRound(m: Match)
  {
    IsGrandSlam(m.tourneyName) && m.round == Some("F")
  }

  /** Every name in the table, as winner or loser. */
  function AllPlayers(df: seq<Match>): set<string>
  {
    (set m | m in df && m.winnerName.Some? :: m.winnerName.value)
    + (set m | m in df && m.loserName.Some? :: m.loserName.value)
  }

  /** `player_stats[player]`, or the fresh record for a name not met yet. */
  function Lookup(stats: map<string, Profile>, player: string): Profile
  {
    if player in stats then stats[player] else Fresh
  }

  predicate AllOk(stats: map<string, Profile>)
  {
    forall p :: p in stats ==> ProfileOk(stats[p])
  }

  lemma LookupOk(stats: map<string, Profile>, player: string)
    requires AllOk(stats)
    ensures ProfileOk(Lookup(stats, player))
  {
    if player !in stats {
      FreshOk();
    }
  }

  /** One row of pass 1: the winner's update, then the loser's (on a profile that may be the winner's). */
  function Step(stats: map<string, Profile>, m: Match): map<string, Profile>
  {
    if !Counted(m) then stats
    else
      var w, l := m.winnerName.value, m.loserName.value;
      var s1 := stats[w := WinnerUpdate(Lookup(stats, w), m)];
      s1[l := LoserUpdate(Lookup(s1, l), m)]
  }

  /** A row keeps the counting invariants of every profile. */
  lemma StepOk(stats: map<string, Profile>, m: Match)
    requires AllOk(stats)
    ensures AllOk(Step(stats, m))
  {
    if Counted(m) {
      var w, l := m.winnerName.value, m.loserName.value;
      LookupOk(stats, w);
      WinnerUpdateOk(Lookup(stats, w), m);
      var s1 := stats[w := WinnerUpdate(Lookup(stats, w), m)];
      StoreOk(stats, w, WinnerUpdate(Lookup(stats, w), m));
      LookupOk(s1, l);
      LoserUpdateOk(Lookup(s1, l), m);
      StoreOk(s1, l, LoserUpdate(Lookup(s1, l), m));
    }
  }

  lemma StoreOk(stats: map<string, Profile>, player: string, p: Profile)
    requires AllOk(stats) && ProfileOk(p)
    ensures AllOk(stats[player := p])
  {
    var r := stats[player := p];
    forall q | q in r
      ensures ProfileOk(r[q])
    {
      if q != player {
        assert r[q] == stats[q];
      }
    }
  }

  /** Pass 1 over `rows`, starting from `stats`. */
  function Replay(stats: map<string, Profile>, rows: seq<Match>): map<string, Profile>
  {
    if |rows| == 0 then stats else Step(Replay(stats, rows[..|rows| - 1]), rows[|rows| - 1])
  }

  lemma {:induction false} ReplayOk(stats: map<string, Profile>, rows: seq<Match>)
    requires AllOk(stats)
    ensures AllOk(Replay(stats, rows))
  {
    if |rows| > 0 {
      ReplayOk(stats, rows[..|rows| - 1]);
      StepOk(Replay(stats, rows[..|rows| - 1]), rows[|rows| - 1]);
    }
  }

  /** Every named player starts from the fresh record. */
  function Initial(df: seq<Match>): map<string, Profile>
  {
    map p | p in AllPlayers(df) :: Fresh
  }

  lemma InitialOk(df: seq<Match>)
    ensures AllOk(Initial(df))
  {
    FreshOk();
    UniformOk(AllPlayers(df), Fresh);
  }

  lemma UniformOk(players: set<string>, v: Profile)
    requires ProfileOk(v)
    ensures AllOk(map p | p in players :: v)
  {
  }

  lemma FreshOk()
    ensures ProfileOk(Fresh)
  {
    FreshParts();
    FreshBounds();
    FreshDates();
  }

  lemma FreshParts() ensures PartsOk(Fresh) {}
  lemma FreshBounds() ensures BoundsOk(Fresh) {}
  lemma FreshDates() ensures DatesOk(Fresh) {}

  /** Pass 1 over the whole table; every profile it produces keeps the counting invariants. */
  function Pass1(df: seq<Match>): (r: map<string, Profile>)
    ensures AllOk(r)
    ensures r.Keys == AllPlayers(df)
  {
    InitialOk(df);
    ReplayOk(Initial(df), df);
    ReplayAllPlayers(df);
    Replay(Initial(df), df)
  }

  /** A row adds a player to the table only under a name the row carries. */
  lemma {:induction false} ReplayKeys(stats: map<string, Profile>, rows: seq<Match>)
    requires forall m :: m in rows && Counted(m) ==> m.winnerName.value in stats && m.loserName.value in stats
    ensures Replay(stats, rows).Keys == stats.Keys
  {
    if |rows| > 0 {
      ReplayKeys(stats, rows[..|rows| - 1]);
    }
  }

  /** Pass 1 adds no name beyond those the table carries. */
  lemma ReplayAllPlayers(df: seq<Match>)
    ensures Replay(Initial(df), df).Keys == AllPlayers(df)
  {
    var init := Initial(df);
    forall m | m in df && Counted(m)
      ensures m.winnerName.value in init && m.loserName.value in init
    {
      assert m.winnerName.value in AllPlayers(df);
      assert m.loserName.value in AllPlayers(df);
    }
    ReplayKeys(init, df);
  }

  /** The player won the row (and pass 1 counts it). */
  predicate WonBy(m: Match, player: string) { Counted(m) && m.winnerName == Some(player) }

  /** The player lost the row (and pass 1 counts it). */
  predicate LostBy(m: Match, player: string) { Counted(m) && m.loserName == Some(player) }

  /** The player won a Grand Slam final in the row (and pass 1 counts it). */
  predicate TitleFor(m: Match, player: string) { WonBy(m, player) && TitleRound(m) }

  /** The row of the first Grand Slam final win met in row order. */
  function FirstTitle(rows: seq<Match>, player: string): (r: Option<Match>)
    ensures r.None? <==> forall k :: 0 <= k < |rows| ==> !TitleFor(rows[k], player)
    ensures r.Some? ==> exists i :: 0 <= i < |rows| && rows[i] == r.value && TitleFor(r.value, player)
                          && forall j :: 0 <= j < i ==> !TitleFor(rows[j], player)
  {
    First(rows, (m: Match) => TitleFor(m, player))
  }

  /** How one row changes one player's wins, losses, titles and first title. */
  lemma StepEffect(stats: map<string, Profile>, m: Match, player: string)
    requires player in stats
    ensures var before := Lookup(stats, player);
            var after := Lookup(Step(stats, m), player);
            && after.totals.wins == before.totals.wins + (if WonBy(m, player) then 1 else 0)
            && after.totals.losses == before.totals.losses + (if LostBy(m, player) then 1 else 0)
            && after.slams.titles == before.slams.titles + (if TitleFor(m, player) then 1 else 0)
            && after.slams.firstTitleDate == (if before.slams.firstTitleDate.None? && TitleFor(m, player) then Some(m.tourneyDate) else before.slams.firstTitleDate)
            && after.slams.firstTitleAge == (if before.slams.firstTitleDate.None? && TitleFor(m, player) then m.winnerAge else before.slams.firstTitleAge)
            && after.matchesBeforeFirstGs == before.matchesBeforeFirstGs
  {
    if Counted(m) {
      var w, l := m.winnerName.value, m.loserName.value;
      var before := Lookup(stats, player);
      var s1 := stats[w := WinnerUpdate(Lookup(stats, w), m)];
      var s2 := s1[l := LoserUpdate(Lookup(s1, l), m)];
      var mid := Lookup(s1, player);
      if player == w {
        assert mid == WinnerUpdate(before, m);
      } else {
        assert mid == before;
      }
      if player == l {
        assert Lookup(s2, player) == LoserUpdate(mid, m);
      } else {
        assert Lookup(s2, player) == mid;
      }
    }
  }

  /**
   * Pass 1 counts, for each player, exactly the rows the player won and lost, and the Grand
   * Slam finals the player won; and the first-title date and age come from the first such
   * final in row order and are never overwritten afterwards.
   */
  lemma {:induction false} ReplayCounts(stats: map<string, Profile>, rows: seq<Match>, player: string)
    requires player in stats
    ensures var before := Lookup(stats, player);
            var after := Lookup(Replay(stats, rows), player);
            var first := FirstTitle(rows, player);
            && after.totals.wins == before.totals.wins + Count(rows, m => WonBy(m, player))
            && after.totals.losses == before.totals.losses + Count(rows, m => LostBy(m, player))
            && after.slams.titles == before.slams.titles + Count(rows, m => TitleFor(m, player))
            && after.slams.firstTitleDate == (if before.slams.firstTitleDate.None? && first.Some? then Some(first.value.tourneyDate) else before.slams.firstTitleDate)
            && after.slams.firstTitleAge == (if before.slams.firstTitleDate.None? && first.Some? then first.value.winnerAge else before.slams.firstTitleAge)
            && after.matchesBeforeFirstGs == before.matchesBeforeFirstGs
  {
    if |rows| > 0 {
      var init := rows[..|rows| - 1];
      ReplayCounts(stats, init, player);
      var mid := Replay(stats, init);
      assert player in mid by { ReplayHasPlayer(stats, init, player); }
      StepEffect(mid, rows[|rows| - 1], player);
    }
  }

  lemma {:induction false} ReplayHasPlayer(stats: map<string, Profile>, rows: seq<Match>, player: string)
    requires player in stats
    ensures player in Replay(stats, rows)
  {
    if |rows| > 0 {
      ReplayHasPlayer(stats, rows[..|rows| - 1], player);
    }
  }

  /**
   * After pass 1 every named player has a profile whose wins, losses and titles count the
   * rows that name them, whose first title is the first title row met, and which keeps the
   * counting invariants.
   */
  lemma Pass1Counts(df: seq<Match>, player: string)
    requires player in AllPlayers(df)
    ensures player in Pass1(df)
    ensures var p := Pass1(df)[player];
            var first := FirstTitle(df, player);
            && ProfileOk(p)
            && p.totals.wins == Count(df, m => WonBy(m, player))
            && p.totals.losses == Count(df, m => LostBy(m, player))
            && p.totals.matches == p.totals.wins + p.totals.losses
            && p.slams.titles == Count(df, m => TitleFor(m, player))
            && p.slams.firstTitleDate == (if first.Some? then Some(first.value.tourneyDate) else None)
            && p.slams.firstTitleAge == (if first.Some? then first.value.winnerAge else None)
            && p.matchesBeforeFirstGs == 0
  {
    var init := Initial(df);
    assert Lookup(init, player) == Fresh;
    ReplayCounts(init, df, player);
    ReplayHasPlayer(init, df, player);
  }

  /** Pass 1 as the source runs it: one row at a time, updating the winner's then the loser's profile. */
  method AccumulateMatches(df: seq<Match>) returns (stats: map<string, Profile>)
    ensures stats == Pass1(df)
    ensures stats.Keys == AllPlayers(df)
  {
    stats := map p | p in AllPlayers(df) :: Fresh;
    var i := 0;
    while i < |df|
      invariant 0 <= i <= |df|
      invariant stats == Replay(Initial(df), df[..i])
    {
      var m := df[i];
      if m.winnerName.Some? && m.loserName.Some? {
        var w := m.winnerName.value;
        var l := m.loserName.value;
        stats := stats[w := WinnerUpdate(Lookup(stats, w), m)];
        stats := stats[l := LoserUpdate(Lookup(stats, l), m)];
      }
      assert df[..i + 1][..i] == df[..i];
      i := i + 1;
    }
    assert df[..|df|] == df;
  }

  /** The rows naming the player dated strictly before `date`, won or lost, whatever the other name. */
  function MatchesBefore(df: seq<Match>, player: string, date: nat): nat
  {
    Count(df, (m: Match) => Involves(m, player) && m.tourneyDate < date)
  }

  function WinsBefore(df: seq<Match>, player: string, date: nat): nat
  {
    Count(df, (m: Match) => m.winnerName == Some(player) && m.tourneyDate < date)
  }

  /** Pass 2 for one player: only a champion with a first-title date is touched. */
  function BeforeFirstTitle(df: seq<Match>, player: string, p: Profile): (r: Profile)
    requires ProfileOk(p)
    ensures ProfileOk(r)
    ensures !p.slams.hasTitle ==> r == p
    ensures p.slams.hasTitle ==> r.matchesBeforeFirstGs == MatchesBefore(df, player, p.slams.firstTitleDate.value)
    ensures p.slams.hasTitle ==> r.winsBeforeFirstGs == WinsBefore(df, player, p.slams.firstTitleDate.value)
    ensures 0.0 <= r.winPctBeforeFirstGs <= 100.0 || r == p
    ensures r == p.(matchesBeforeFirstGs := r.matchesBeforeFirstGs, winsBeforeFirstGs := r.winsBeforeFirstGs,
                    winPctBeforeFirstGs := r.winPctBeforeFirstGs)
  {
    if p.slams.hasTitle && p.slams.firstTitleDate.Some? then
      var d := p.slams.firstTitleDate.value;
      var total := MatchesBefore(df, player, d);
      var wins := WinsBefore(df, player, d);
      CountMonotone(df, (m: Match) => m.winnerName == Some(player) && m.tourneyDate < d,
                        (m: Match) => Involves(m, player) && m.tourneyDate < d);
      p.(matchesBeforeFirstGs := total, winsBeforeFirstGs := wins, winPctBeforeFirstGs := WinPercentage(wins, total))
    else p
  }

  /** Applies `f` to every entry of a dictionary, one key at a time. */
  method MapEach<V, W>(m: map<string, V>, f: (string, V) --> W) returns (r: map<string, W>)
    requires forall k :: k in m ==> f.requires(k, m[k])
    ensures r == map k | k in m :: f(k, m[k])
  {
    r := map[];
    var todo := m.Keys;
    while todo != {}
      invariant todo <= m.Keys
      invariant r.Keys == m.Keys - todo
      invariant forall k :: k in r ==> r[k] == f(k, m[k])
      decreases |todo|
    {
      var k :| k in todo;
      r := r[k := f(k, m[k])];
      todo := todo - {k};
    }
  }

  function Pass2(df: seq<Match>, stats: map<string, Profile>): (r: map<string, Profile>)
    requires AllOk(stats)
    ensures r.Keys == stats.Keys && AllOk(r)
  {
    map p | p in stats :: BeforeFirstTitle(df, p, stats[p])
  }

  /** A `tourney_date` or year tested with Python truthiness: present and non-zero. */
  predicate Truthy(d: Option<int>) { d.Some? && d.value != 0 }

  function Truthful(d: Option<int>): Option<int> { if Truthy(d) then d else None }

  function YearOpt(d: Option<nat>): Option<int>
  {
    if d.Some? && d.value != 0 then Some(YearOf(d.value)) else None
  }

  function Widen(d: Option<nat>): Option<int> { if d.Some? then Some(d.value) else None }

  /** The distinct names the player met, as winner or as loser, missing names dropped. */
  function Opponents(df: seq<Match>, player: string): set<string>
  {
    (set m | m in df && m.winnerName == Some(player) && m.loserName.Some? :: m.loserName.value)
    + (set m | m in df && m.loserName == Some(player) && m.winnerName.Some? :: m.winnerName.value)
  }

  /** The fields base_metrics derives from a finished profile. */
  datatype Derived = Derived(
    careerStartYear: Option<int>, careerEndYear: Option<int>, careerSpanYears: int,
    firstGsTitleYear: Option<int>, yearsToFirstGs: int,
    winPct: real, gsWinPct: real,
    hardWinPct: real, clayWinPct: real, grassWinPct: real, carpetWinPct: real,
    top5WinPct: real, top10WinPct: real, top30WinPct: real,
    avgMatchDuration: Option<real>, uniqueOpponents: nat,
    peakRanking: Option<int>, peakRankingBeforeFirstGs: Option<int>)

  /** The rows dated strictly before `date`. */
  function RowsBefore(df: seq<Match>, date: nat): (r: seq<Match>)
    ensures forall m :: m in r ==> m in df
  {
    Filter(df, (m: Match) => m.tourneyDate < date)
  }

  function Pct(t: Tally): real { WinPercentage(t.wins, t.matches) }

  /** base_metrics.py, lines 316-366, for one player. */
  function Derive(df: seq<Match>, player: string, p: Profile): (d: Derived)
    requires ProfileOk(p)
    ensures 0.0 <= d.winPct <= 100.0 && 0.0 <= d.gsWinPct <= 100.0
    ensures 0.0 <= d.hardWinPct <= 100.0 && 0.0 <= d.clayWinPct <= 100.0
    ensures 0.0 <= d.grassWinPct <= 100.0 && 0.0 <= d.carpetWinPct <= 100.0
    ensures 0.0 <= d.top5WinPct <= 100.0 && 0.0 <= d.top10WinPct <= 100.0 && 0.0 <= d.top30WinPct <= 100.0
    ensures d.uniqueOpponents == |Opponents(df, player)|
    ensures d.peakRanking.Some? ==> d.peakRanking.value < NoRank
    ensures d.avgMatchDuration.None? <==> p.matchesWithDuration == 0
  {
    var start := YearOpt(p.firstMatchDate);
    var end := YearOpt(p.lastMatchDate);
    var gsYear := YearOpt(p.slams.firstTitleDate);
    var peakBefore :=
      if Truthy(Widen(p.slams.firstTitleDate)) then Truthful(PeakRanking(RowsBefore(df, p.slams.firstTitleDate.value), player))
      else None;
    Derived(
      start, end,
      if Truthy(start) && Truthy(end) then end.value - start.value else 0,
      gsYear,
      if Truthy(gsYear) && Truthy(start) then gsYear.value - start.value else 0,
      WinPercentage(p.totals.wins, p.totals.matches), WinPercentage(p.slams.totals.wins, p.slams.totals.matches),
      Pct(p.surfaces.hard), Pct(p.surfaces.clay), Pct(p.surfaces.grass), Pct(p.surfaces.carpet),
      Pct(p.opposition.top5), Pct(p.opposition.top10), Pct(p.opposition.top30),
      if p.matchesWithDuration > 0 then Some(p.totalMinutes / p.matchesWithDuration as real) else None,
      |Opponents(df, player)|,
      Truthful(PeakRanking(df, player)),
      peakBefore)
  }

  /** The peak ranking before the first title is never better than the career peak. */
  lemma PeakBeforeNotBetter(df: seq<Match>, player: string, p: Profile)
    requires ProfileOk(p)
    ensures var d := Derive(df, player, p);
            d.peakRanking.Some? && d.peakRankingBeforeFirstGs.Some? ==>
              d.peakRanking.value <= d.peakRankingBeforeFirstGs.value
  {
    if Truthy(Widen(p.slams.firstTitleDate)) {
      var sub := RowsBefore(df, p.slams.firstTitleDate.value);
      if PeakRanking(sub, player).Some? {
        PeakOfSubTable(sub, df, player);
      }
    }
  }

  /** For yyyymmdd dates the career span and the years to the first title are never negative. */
  lemma SpansNonNegative(df: seq<Match>, player: string, p: Profile)
    requires ProfileOk(p)
    requires p.firstMatchDate.Some? ==> 10000000 <= p.firstMatchDate.value < 100000000
    requires p.lastMatchDate.Some? ==> 10000000 <= p.lastMatchDate.value < 100000000
    requires p.slams.firstTitleDate.Some? && p.firstMatchDate.Some? ==> p.firstMatchDate.value <= p.slams.firstTitleDate.value < 100000000
    ensures Derive(df, player, p).careerSpanYears >= 0
    ensures Derive(df, player, p).yearsToFirstGs >= 0
  {
    if p.firstMatchDate.Some? && p.lastMatchDate.Some? {
      YearMonotone(p.firstMatchDate.value, p.lastMatchDate.value);
    }
    if p.slams.firstTitleDate.Some? && p.firstMatchDate.Some? {
      YearMonotone(p.firstMatchDate.value, p.slams.firstTitleDate.value);
    }
  }

  /** One finished row of the player metrics table. */
  datatype Metrics = Metrics(player: string, profile: Profile, derived: Derived)

  function Finish(df: seq<Match>, player: string, p: Profile): Metrics
    requires ProfileOk(p)
  {
    Metrics(player, p, Derive(df, player, p))
  }

  /** `build_player_career_metrics`: both passes, then the derived fields of every player. */
  method BuildPlayerCareerMetrics(df: seq<Match>) returns (table: map<string, Metrics>)
    ensures table.Keys == AllPlayers(df)
    ensures forall p :: p in table ==>
      table[p] == Finish(df, p, Pass2(df, Pass1(df))[p]) && ProfileOk(table[p].profile)
  {
    var stats := AccumulateMatches(df);
    var champions := MapEach(stats, (p: string, s: Profile) requires ProfileOk(s) => BeforeFirstTitle(df, p, s));
    table := MapEach(champions, (p: string, s: Profile) requires ProfileOk(s) => Finish(df, p, s));
  }
}
