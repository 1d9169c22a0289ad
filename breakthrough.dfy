/**
 * `calculate_breakthrough_comparison` of aggregations/stantheman.py: for every Grand Slam
 * champion, how many matches they played before their first title, listed with the most
 * patient champions first and cut to fifty.
 */
module Breakthrough {
  import opened Wrappers
  import opened Matches
  import opened GrandSlams
  import opened Ordering
  import opened Summaries
  import Careers

  /** A Grand Slam final, the tournament named exactly as one of the four. */
  predicate IsSlamFinal(m: Match)
  {
    m.tourneyName.Some? && m.tourneyName.value in Names && m.round == Some("F")
  }

  /** The entry `player_stats` keeps for one player. */
  datatype Tally = Tally(
    firstMatchDate: nat, gsTitles: nat, totalMatches: nat, wins: nat,
    firstGsDate: Option<nat>, firstGsAge: Option<real>)

  function NewTally(date: nat): Tally { Tally(date, 0, 0, 0, None, None) }

  /** The dictionary and the order its keys were inserted in, which is the order Python iterates. */
  datatype State = State(stats: map<string, Tally>, order: seq<string>)

  /** Creates the player's entry, dated by this row, unless it exists. */
  function Enter(s: State, name: string, date: nat): State
  {
    if name in s.stats then s else State(s.stats[name := NewTally(date)], s.order + [name])
  }

  /** What one row does: rows without a winner are skipped; the winner gains a match and a win,
   * a named loser a match, and a Grand Slam final win a title, dated the first time. */
  function Step(s: State, m: Match): State
  {
    if m.winnerName.None? then s
    else
      var w := m.winnerName.value;
      var s1 := Enter(s, w, m.tourneyDate);
      var t := s1.stats[w];
      var s2 := State(s1.stats[w := t.(totalMatches := t.totalMatches + 1, wins := t.wins + 1)], s1.order);
      var s3 :=
        if m.loserName.Some? then
          var s' := Enter(s2, m.loserName.value, m.tourneyDate);
          var u := s'.stats[m.loserName.value];
          State(s'.stats[m.loserName.value := u.(totalMatches := u.totalMatches + 1)], s'.order)
        else s2;
      if IsSlamFinal(m) then
        var v := s3.stats[w];
        var v' := if v.firstGsDate.None? then v.(firstGsDate := Some(m.tourneyDate), firstGsAge := m.winnerAge) else v;
        State(s3.stats[w := v'.(gsTitles := v'.gsTitles + 1)], s3.order)
      else s3
  }

  /** The state after the rows of `df`, in order. */
  function Track(df: seq<Match>): State
  {
    if |df| == 0 then State(map[], []) else Step(Track(df[..|df| - 1]), df[|df| - 1])
  }

  /** The keys are exactly the listed names, each listed once. */
  ghost predicate Wf(s: State)
  {
    (forall p :: p in s.stats <==> p in s.order)
    && forall i, j :: 0 <= i < j < |s.order| ==> s.order[i] != s.order[j]
  }

  lemma StepWf(s: State, m: Match)
    requires Wf(s)
    ensures Wf(Step(s, m))
  {
  }

  lemma {:induction false} TrackWf(df: seq<Match>)
    ensures Wf(Track(df))
  {
    if |df| > 0 {
      TrackWf(df[..|df| - 1]);
      StepWf(Track(df[..|df| - 1]), df[|df| - 1]);
    }
  }

  /** The row counts for the player: it has a winner and names the player. */
  predicate Plays(m: Match, p: string) { m.winnerName.Some? && Involves(m, p) }
  predicate Wins(m: Match, p: string) { m.winnerName == Some(p) }
  predicate Loses(m: Match, p: string) { m.winnerName.Some? && m.loserName == Some(p) }
  predicate SlamTitle(m: Match, p: string) { IsSlamFinal(m) && m.winnerName == Some(p) }

  /** A player's entry, or the zero entry when there is none yet. */
  function Get(s: State, p: string): Tally
  {
    if p in s.stats then s.stats[p] else NewTally(0)
  }

  /** How one row changes one player's entry. */
  lemma StepEffect(s: State, m: Match, p: string)
    ensures var a, b := Get(s, p), Get(Step(s, m), p);
      && (p in Step(s, m).stats <==> p in s.stats || Plays(m, p))
      && b.firstMatchDate == (if p in s.stats then a.firstMatchDate else if Plays(m, p) then m.tourneyDate else 0)
      && b.wins == a.wins + (if Wins(m, p) then 1 else 0)
      && b.totalMatches == a.totalMatches + (if Wins(m, p) then 1 else 0) + (if Loses(m, p) then 1 else 0)
      && b.gsTitles == a.gsTitles + (if SlamTitle(m, p) then 1 else 0)
      && b.firstGsDate == (if a.firstGsDate.None? && SlamTitle(m, p) then Some(m.tourneyDate) else a.firstGsDate)
      && b.firstGsAge == (if a.firstGsDate.None? && SlamTitle(m, p) then m.winnerAge else a.firstGsAge)
  {
  }

  /**
   * A player has an entry exactly when some counted row names them; the entry's first
   * match is the first such row, its wins and matches count the rows, and its first title
   * is the first Grand Slam final win in row order, whatever the dates of later ones.
   */
  lemma {:induction false} TrackFacts(df: seq<Match>, p: string)
    ensures var t, first, title := Get(Track(df), p), First(df, (m: Match) => Plays(m, p)), First(df, (m: Match) => SlamTitle(m, p));
      && (p in Track(df).stats <==> first.Some?)
      && t.firstMatchDate == (if first.Some? then first.value.tourneyDate else 0)
      && t.wins == Count(df, (m: Match) => Wins(m, p))
      && t.totalMatches == Count(df, (m: Match) => Wins(m, p)) + Count(df, (m: Match) => Loses(m, p))
      && t.gsTitles == Count(df, (m: Match) => SlamTitle(m, p))
      && t.firstGsDate == (if title.Some? then Some(title.value.tourneyDate) else None)
      && t.firstGsAge == (if title.Some? then title.value.winnerAge else None)
  {
    if |df| > 0 {
      var init, m := df[..|df| - 1], df[|df| - 1];
      assert df == init + [m];
      TrackFacts(init, p);
      StepEffect(Track(init), m, p);
      CountSnoc(init, m, (m: Match) => Wins(m, p));
      CountSnoc(init, m, (m: Match) => Loses(m, p));
      CountSnoc(init, m, (m: Match) => SlamTitle(m, p));
    }
  }

  /** Every player has at least as many matches as wins. */
  lemma WinsWithinMatches(df: seq<Match>, p: string)
    ensures Get(Track(df), p).wins <= Get(Track(df), p).totalMatches
  {
    TrackFacts(df, p);
  }

  /** One row of the output. */
  datatype Entry = Entry(
    player: string, ageFirstGs: real, matchesBeforeFirstGs: nat, totalGsTitles: nat,
    yearTurnedPro: nat, yearFirstGs: nat, totalAtpMatches: nat, winPercentage: real,
    yearsOnTourBeforeGs: nat)

  const Cap := 1000
  const DefaultAge := 25.0
  const Limit := 50

  /** `stats['gs_titles'] > 0 and stats['first_gs_date']`: a title, dated by a non-zero date. */
  predicate Eligible(t: Tally)
  {
    t.gsTitles > 0 && t.firstGsDate.Some? && t.firstGsDate.value != 0
  }

  /** The output row of a champion. */
  function EntryOf(df: seq<Match>, p: string, t: Tally): (e: Entry)
    requires t.firstGsDate.Some?
    ensures e.player == p && e.totalGsTitles == t.gsTitles && e.totalAtpMatches == t.totalMatches
    ensures e.matchesBeforeFirstGs <= Cap
    ensures Careers.MatchesBefore(df, p, t.firstGsDate.value) <= Cap ==> e.matchesBeforeFirstGs == Careers.MatchesBefore(df, p, t.firstGsDate.value)
    ensures Careers.MatchesBefore(df, p, t.firstGsDate.value) > Cap ==> e.matchesBeforeFirstGs == Cap
    ensures e.yearTurnedPro == YearOf(t.firstMatchDate) && e.yearFirstGs == YearOf(t.firstGsDate.value)
    ensures e.yearsOnTourBeforeGs == if e.yearFirstGs <= e.yearTurnedPro then 0 else e.yearFirstGs - e.yearTurnedPro
    ensures t.wins <= t.totalMatches ==> 0.0 <= e.winPercentage <= 100.0
    ensures t.firstGsAge.None? ==> e.ageFirstGs == DefaultAge
  {
    var before := Careers.MatchesBefore(df, p, t.firstGsDate.value);
    var proYear, gsYear := YearOf(t.firstMatchDate), YearOf(t.firstGsDate.value);
    Entry(
      p, if t.firstGsAge.Some? then t.firstGsAge.value else DefaultAge,
      if before < Cap then before else Cap, t.gsTitles, proYear, gsYear, t.totalMatches,
      WinPercentage(t.wins, t.totalMatches),
      if gsYear <= proYear then 0 else gsYear - proYear)
  }

  /** The rows the second loop appends, walking `names` in order. */
  function EntriesFrom(df: seq<Match>, stats: map<string, Tally>, names: seq<string>): (r: seq<Entry>)
    requires forall q :: q in names ==> q in stats
    ensures forall k :: 0 <= k < |r| ==> r[k].player in names && Eligible(stats[r[k].player])
    ensures forall q :: q in names && Eligible(stats[q]) ==> exists k :: 0 <= k < |r| && r[k].player == q
  {
    if |names| == 0 then []
    else
      var init := names[..|names| - 1];
      var q := names[|names| - 1];
      assert forall x :: x in names <==> x in init || x == q;
      var r := EntriesFrom(df, stats, init);
      if Eligible(stats[q]) then
        var r' := r + [EntryOf(df, q, stats[q])];
        assert forall k :: 0 <= k < |r| ==> r'[k] == r[k];
        assert r'[|r|].player == q;
        r'
      else r
  }

  /** Each listed row is the champion's own entry. */
  lemma {:induction false} EntriesFromRows(df: seq<Match>, stats: map<string, Tally>, names: seq<string>)
    requires forall q :: q in names ==> q in stats
    ensures forall k :: 0 <= k < |EntriesFrom(df, stats, names)| ==>
      EntriesFrom(df, stats, names)[k] == EntryOf(df, EntriesFrom(df, stats, names)[k].player, stats[EntriesFrom(df, stats, names)[k].player])
  {
    if |names| > 0 {
      var init := names[..|names| - 1];
      assert forall x :: x in init ==> x in names;
      EntriesFromRows(df, stats, init);
    }
  }

  /** Listed from distinct names, the rows name distinct players. */
  lemma {:induction false} EntriesFromDistinct(df: seq<Match>, stats: map<string, Tally>, names: seq<string>)
    requires forall q :: q in names ==> q in stats
    requires forall i, j :: 0 <= i < j < |names| ==> names[i] != names[j]
    ensures forall i, j :: 0 <= i < j < |EntriesFrom(df, stats, names)| ==>
      EntriesFrom(df, stats, names)[i].player != EntriesFrom(df, stats, names)[j].player
  {
    if |names| > 0 {
      var init := names[..|names| - 1];
      EntriesFromDistinct(df, stats, init);
      var q := names[|names| - 1];
      assert q !in init by {
        forall k | 0 <= k < |init| ensures init[k] != q { assert init[k] == names[k]; }
      }
      var r := EntriesFrom(df, stats, init);
      assert forall i, j :: 0 <= i < j < |r| ==> r[i].player != r[j].player;
      assert forall k :: 0 <= k < |r| ==> r[k].player in init;
      if Eligible(stats[q]) {
        var e := EntryOf(df, q, stats[q]);
        var r' := r + [e];
        assert EntriesFrom(df, stats, names) == r';
        assert e.player == q;
        forall i, j | 0 <= i < j < |r'| ensures r'[i].player != r'[j].player {
          assert r'[i] == r[i];
          if j < |r| {
            assert r'[j] == r[j];
          } else {
            assert r'[j] == e;
          }
        }
      } else {
        assert EntriesFrom(df, stats, names) == r;
      }
    }
  }

  /** The unsorted output: no rows at all when the table holds no Grand Slam final. */
  function Entries(df: seq<Match>): seq<Entry>
  {
    if Count(df, IsSlamFinal) == 0 then []
    else
      var t := Track(df);
      TrackWf(df);
      EntriesFrom(df, t.stats, t.order)
  }

  /**
   * The output lists each champion once: exactly the players whose first Grand Slam final
   * win in row order is dated by a non-zero date.
   */
  lemma EntriesAreChampions(df: seq<Match>, p: string)
    ensures var title := First(df, (m: Match) => SlamTitle(m, p));
      (exists k :: 0 <= k < |Entries(df)| && Entries(df)[k].player == p)
      <==> title.Some? && title.value.tourneyDate != 0
    ensures forall i, j :: 0 <= i < j < |Entries(df)| ==> Entries(df)[i].player != Entries(df)[j].player
  {
    var title := First(df, (m: Match) => SlamTitle(m, p));
    TrackWf(df);
    TrackFacts(df, p);
    var t := Track(df);
    if title.Some? {
      var i :| 0 <= i < |df| && df[i] == title.value && SlamTitle(title.value, p);
      assert df[i] in Filter(df, IsSlamFinal);
      assert df[i] in Filter(df, (m: Match) => SlamTitle(m, p));
      assert Plays(df[i], p);
      assert First(df, (m: Match) => Plays(m, p)).Some?;
    }
    if Count(df, IsSlamFinal) > 0 {
      assert Entries(df) == EntriesFrom(df, t.stats, t.order);
      EntriesFromDistinct(df, t.stats, t.order);
    }
  }

  function BeforeKey(e: Entry): real { e.matchesBeforeFirstGs as real }

  /** `xs[:n]`. */
  function Take<T>(xs: seq<T>, n: nat): (r: seq<T>)
    ensures |r| <= n && |r| <= |xs| && (|xs| <= n ==> r == xs)
    ensures forall k :: 0 <= k < |r| ==> r[k] == xs[k]
  {
    if |xs| <= n then xs else xs[..n]
  }

  /** The first loop of `calculate_breakthrough_comparison`: the players' entries, filled row by row. */
  method TrackPlayers(df: seq<Match>) returns (stats: map<string, Tally>, order: seq<string>)
    ensures State(stats, order) == Track(df)
  {
    stats, order := map[], [];
    var i := 0;
    while i < |df|
      invariant 0 <= i <= |df|
      invariant State(stats, order) == Track(df[..i])
    {
      assert df[..i + 1][..i] == df[..i];
      stats, order := TrackRow(stats, order, df[i]);
      i := i + 1;
    }
    assert df[..i] == df;
  }

  /** The body of that loop, for one row. */
  method TrackRow(stats0: map<string, Tally>, order0: seq<string>, m: Match)
    returns (stats: map<string, Tally>, order: seq<string>)
    ensures State(stats, order) == Step(State(stats0, order0), m)
  {
    stats, order := stats0, order0;
    if m.winnerName.Some? {
      var w := m.winnerName.value;
      if w !in stats {
        stats := stats[w := NewTally(m.tourneyDate)];
        order := order + [w];
      }
      stats := stats[w := stats[w].(totalMatches := stats[w].totalMatches + 1, wins := stats[w].wins + 1)];
      if m.loserName.Some? {
        var l := m.loserName.value;
        if l !in stats {
          stats := stats[l := NewTally(m.tourneyDate)];
          order := order + [l];
        }
        stats := stats[l := stats[l].(totalMatches := stats[l].totalMatches + 1)];
      }
      if IsSlamFinal(m) {
        if stats[w].firstGsDate.None? {
          stats := stats[w := stats[w].(firstGsDate := Some(m.tourneyDate), firstGsAge := m.winnerAge)];
        }
        stats := stats[w := stats[w].(gsTitles := stats[w].gsTitles + 1)];
      }
    }
  }

  /** The nested loop: rows naming the player, as winner or loser, dated strictly before `date`. */
  method CountBefore(df: seq<Match>, p: string, date: nat) returns (before: nat)
    ensures before == Careers.MatchesBefore(df, p, date)
  {
    before := 0;
    var k := 0;
    while k < |df|
      invariant 0 <= k <= |df|
      invariant before == Count(df[..k], (m: Match) => Involves(m, p) && m.tourneyDate < date)
    {
      assert df[..k + 1] == df[..k] + [df[k]];
      CountSnoc(df[..k], df[k], (m: Match) => Involves(m, p) && m.tourneyDate < date);
      if df[k].winnerName == Some(p) || df[k].loserName == Some(p) {
        if df[k].tourneyDate < date {
          before := before + 1;
        }
      }
      k := k + 1;
    }
    assert df[..k] == df;
  }

  /** The second loop: the champions' rows, walking the players in insertion order. */
  method CollectEntries(df: seq<Match>, stats: map<string, Tally>, order: seq<string>) returns (data: seq<Entry>)
    requires forall q :: q in order ==> q in stats
    ensures data == EntriesFrom(df, stats, order)
  {
    data := [];
    var j := 0;
    while j < |order|
      invariant 0 <= j <= |order|
      invariant data == EntriesFrom(df, stats, order[..j])
    {
      var p := order[j];
      assert order[..j + 1][..j] == order[..j];
      var t := stats[p];
      if Eligible(t) {
        var before := CountBefore(df, p, t.firstGsDate.value);
        data := data + [Entry(
          p, if t.firstGsAge.Some? then t.firstGsAge.value else DefaultAge,
          if before < Cap then before else Cap, t.gsTitles, YearOf(t.firstMatchDate),
          YearOf(t.firstGsDate.value), t.totalMatches, WinPercentage(t.wins, t.totalMatches),
          if YearOf(t.firstGsDate.value) <= YearOf(t.firstMatchDate) then 0
          else YearOf(t.firstGsDate.value) - YearOf(t.firstMatchDate))];
      }
      j := j + 1;
    }
    assert order[..j] == order;
  }

  /**
   * `calculate_breakthrough_comparison`: one pass filling the players' entries, a second
   * over the players in insertion order counting each champion's earlier matches, then a
   * stable sort by that count, largest first, cut to fifty rows.
   */
  method CalculateBreakthroughComparison(df: seq<Match>) returns (result: seq<Entry>)
    ensures exists perm, sorted :: StableDescending(Entries(df), BeforeKey, perm, sorted) && result == Take(sorted, Limit)
    ensures |result| <= Limit
  {
    if Count(df, IsSlamFinal) == 0 {
      assert StableDescending(Entries(df), BeforeKey, [], []);
      return [];
    }
    var stats, order := TrackPlayers(df);
    TrackWf(df);
    var data := CollectEntries(df, stats, order);
    assert data == Entries(df);
    var perm, sorted := StableSortDescending(data, BeforeKey);
    result := Take(sorted, Limit);
  }
}
