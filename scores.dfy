/**
 * Score strings such as "6-4 3-6 7-6(3) 6-4": the set scanner behind `re.findall`, the
 * score parser, per-set summaries, the comeback classifier and the final-set tiebreak flag
 * (aggregations/shared_utils.py; aggregations/nbi.py repeats the last three word for word).
 */
module Scores {
  import opened Wrappers
  import opened Text

  /** One set as the set pattern captures it: both game counts and the tiebreak points, if any. */
  datatype SetToken = SetToken(first: nat, second: nat, tiebreak: Option<nat>)

  /**
   * The digits-dash-digits part of the set pattern at `i`: the end `j` of the first run
   * (where the dash is) and the end `k` of the second. Both runs are maximal, as the greedy
   * `\d+` makes them, and both are non-empty.
   */
  function PairAt(s: string, i: nat): (r: Option<(nat, nat)>)
    requires i <= |s|
    ensures r.Some? ==> i < r.value.0 < r.value.1 <= |s| && s[r.value.0] == '-'
  {
    var j := DigitRunEnd(s, i);
    if j == i || j == |s| || s[j] != '-' then None
    else
      var k := DigitRunEnd(s, j + 1);
      if k == j + 1 then None else Some((j, k))
  }

  /** The optional group `\((\d+)\)` at `k`: the position of its closing parenthesis. */
  function GroupAt(s: string, k: nat): (r: Option<nat>)
    requires k <= |s|
    ensures r.Some? ==> k + 1 < r.value < |s| && s[k] == '(' && s[r.value] == ')'
  {
    if k < |s| && s[k] == '(' then
      var m := DigitRunEnd(s, k + 1);
      if m > k + 1 && m < |s| && s[m] == ')' then Some(m) else None
    else None
  }

  /**
   * The set pattern `(\d+)-(\d+)` tried at position `i`, followed by the optional group
   * when `withTiebreak`; on success, the token and the position after it.
   */
  function MatchAt(s: string, i: nat, withTiebreak: bool): (r: Option<(SetToken, nat)>)
    requires i <= |s|
    ensures r.Some? ==> i < r.value.1 <= |s|
  {
    var jk := PairAt(s, i);
    if jk.None? then None
    else
      var j, k := jk.value.0, jk.value.1;
      var t := SetToken(NatOf(s[i..j]), NatOf(s[j + 1..k]), None);
      if !withTiebreak then Some((t, k))
      else
        match GroupAt(s, k)
        case None => Some((t, k))
        case Some(m) => Some((t.(tiebreak := Some(NatOf(s[k + 1..m]))), m + 1))
  }

  /** `re.findall` from position `i`: leftmost matches, never overlapping, one step on after a miss. */
  function ScanFrom(s: string, i: nat, withTiebreak: bool): seq<SetToken>
    requires i <= |s|
    decreases |s| - i
  {
    if i == |s| then []
    else
      var r := MatchAt(s, i, withTiebreak);
      if r.None? then ScanFrom(s, i + 1, withTiebreak) else [r.value.0] + ScanFrom(s, r.value.1, withTiebreak)
  }

  /** The sets of `r'(\d+)-(\d+)(?:\((\d+)\))?'`. */
  function SetTokens(s: string): seq<SetToken>
  {
    ScanFrom(s, 0, true)
  }

  /** The game pairs of each token. */
  function Pairs(ts: seq<SetToken>): (r: seq<(nat, nat)>)
    ensures |r| == |ts|
    ensures forall k :: 0 <= k < |ts| ==> r[k] == (ts[k].first, ts[k].second)
  {
    seq(|ts|, k requires 0 <= k < |ts| => (ts[k].first, ts[k].second))
  }

  /** The game pairs of `r'(\d+)-(\d+)'`, the pattern the comeback rating scans with. */
  function GamePairs(s: string): seq<(nat, nat)>
  {
    Pairs(ScanFrom(s, 0, false))
  }

  /** A set written back as text: "6-4", or "7-6(3)" with a tiebreak. */
  function RenderSet(t: SetToken): (s: string)
    ensures |s| > 0
  {
    NatStr(t.first) + "-" + NatStr(t.second)
    + if t.tiebreak.Some? then "(" + NatStr(t.tiebreak.value) + ")" else ""
  }

  lemma PairRendered(a: string, b: string, rest: string)
    requires |a| > 0 && |b| > 0 && AllDigits(a) && AllDigits(b)
    requires rest == [] || !IsDigit(rest[0])
    ensures PairAt(a + "-" + b + rest, 0) == Some((|a|, |a| + 1 + |b|))
    ensures (a + "-" + b + rest)[0..|a|] == a && (a + "-" + b + rest)[|a| + 1..|a| + 1 + |b|] == b
  {
    var s := a + "-" + b + rest;
    var j: nat, k: nat := |a|, |a| + 1 + |b|;
    var ab := a + "-" + b;
    assert s == ab + rest;
    assert ab[..j] == a && ab[j] == '-' && ab[j + 1..k] == b;
    assert s[0..j] == a && s[j] == '-' && s[j + 1..k] == b;
    RunEndsAt(s, 0, j);
    RunEndsAt(s, j + 1, k);
  }

  lemma GroupRendered(x: string, c: string, rest: string)
    requires |c| > 0 && AllDigits(c)
    ensures GroupAt(x + ("(" + c + ")") + rest, |x|) == Some(|x| + 1 + |c|)
    ensures (x + ("(" + c + ")") + rest)[|x| + 1..|x| + 1 + |c|] == c
  {
    var s := x + ("(" + c + ")") + rest;
    var m: nat := |x| + 1 + |c|;
    assert s[|x|] == '(' && s[|x| + 1..m] == c && s[m] == ')';
    RunEndsAt(s, |x| + 1, m);
  }

  lemma MatchWithGroup(s: string, i: nat, j: nat, k: nat, m: nat)
    requires i <= |s| && PairAt(s, i) == Some((j, k)) && GroupAt(s, k) == Some(m)
    ensures MatchAt(s, i, true) == Some((SetToken(NatOf(s[i..j]), NatOf(s[j + 1..k]), Some(NatOf(s[k + 1..m]))), m + 1))
  {
  }

  lemma MatchGroupValues(s: string, j: nat, k: nat, m: nat, a: string, b: string, c: string)
    requires PairAt(s, 0) == Some((j, k)) && GroupAt(s, k) == Some(m)
    requires s[0..j] == a && s[j + 1..k] == b && s[k + 1..m] == c
    ensures MatchAt(s, 0, true) == Some((SetToken(NatOf(a), NatOf(b), Some(NatOf(c))), m + 1))
  {
    MatchWithGroup(s, 0, j, k, m);
  }

  lemma MatchPlainText(a: string, b: string, rest: string)
    requires |a| > 0 && |b| > 0 && AllDigits(a) && AllDigits(b)
    requires rest == [] || rest[0] == ' '
    ensures MatchAt(a + "-" + b + rest, 0, true) == Some((SetToken(NatOf(a), NatOf(b), None), |a| + 1 + |b|))
  {
    var s := a + "-" + b + rest;
    PairRendered(a, b, rest);
    var j: nat, k: nat := |a|, |a| + 1 + |b|;
    assert GroupAt(s, k).None?;
  }

  lemma MatchGroupText(a: string, b: string, c: string, rest: string)
    requires |a| > 0 && |b| > 0 && |c| > 0 && AllDigits(a) && AllDigits(b) && AllDigits(c)
    requires rest == [] || rest[0] == ' '
    ensures MatchAt(a + "-" + b + ("(" + c + ")") + rest, 0, true)
      == Some((SetToken(NatOf(a), NatOf(b), Some(NatOf(c))), |a| + |b| + |c| + 3))
  {
    var x, g := a + "-" + b, "(" + c + ")";
    var s := x + g + rest;
    var j: nat, k: nat := |a|, |a| + 1 + |b|;
    var m: nat := k + 1 + |c|;
    PairFollowed(a, b, g, rest);
    GroupRendered(x, c, rest);
    MatchGroupValues(s, j, k, m, a, b, c);
  }

  /** The pair of a set followed by its tiebreak group, as the pair scanner sees it. */
  lemma PairFollowed(a: string, b: string, g: string, rest: string)
    requires |a| > 0 && |b| > 0 && AllDigits(a) && AllDigits(b)
    requires |g| > 0 && g[0] == '('
    ensures PairAt(a + "-" + b + g + rest, 0) == Some((|a|, |a| + 1 + |b|))
    ensures (a + "-" + b + g + rest)[0..|a|] == a && (a + "-" + b + g + rest)[|a| + 1..|a| + 1 + |b|] == b
  {
    assert a + "-" + b + (g + rest) == a + "-" + b + g + rest;
    PairRendered(a, b, g + rest);
  }

  /** A rendered set is matched whole, when what follows it is a space or nothing. */
  lemma MatchRendered(t: SetToken, rest: string)
    requires rest == [] || rest[0] == ' '
    ensures MatchAt(RenderSet(t) + rest, 0, true) == Some((t, |RenderSet(t)|))
  {
    var a, b := NatStr(t.first), NatStr(t.second);
    if t.tiebreak.Some? {
      var c := NatStr(t.tiebreak.value);
      assert RenderSet(t) + rest == a + "-" + b + ("(" + c + ")") + rest;
      MatchGroupText(a, b, c, rest);
    } else {
      assert RenderSet(t) + rest == a + "-" + b + rest;
      MatchPlainText(a, b, rest);
    }
  }

  /** Scanning a rendered set gives back exactly that set. */
  lemma ScanRenderedSet(t: SetToken)
    ensures SetTokens(RenderSet(t)) == [t]
  {
    var s := RenderSet(t);
    MatchRendered(t, []);
    assert s + [] == s;
    assert MatchAt(s, 0, true) == Some((t, |s|));
    assert ScanFrom(s, |s|, true) == [];
  }

  lemma PairsCons(t: SetToken, ts: seq<SetToken>)
    ensures Pairs([t] + ts) == [(t.first, t.second)] + Pairs(ts)
  {
  }

  /** No position inside a matched `(digits)` group starts a match of the plain pattern. */
  lemma {:induction false} SkipGroup(s: string, k: nat, m: nat, x: nat)
    requires k < m < |s| && s[k] == '(' && s[m] == ')' && AllDigits(s[k + 1..m]) && k <= x <= m
    ensures ScanFrom(s, x, false) == ScanFrom(s, m + 1, false)
    decreases m - x
  {
    if k < x < m {
      assert AllDigits(s[x..m]) by { assert forall y :: x <= y < m ==> s[y] == s[k + 1..m][y - k - 1]; }
      RunEndsAt(s, x, m);
    }
    assert MatchAt(s, x, false).None?;
    if x < m { SkipGroup(s, k, m, x + 1); }
  }

  /** Where the pattern with the tiebreak group matches, the plain pattern matches the same games. */
  lemma SameSetAt(s: string, i: nat)
    requires i < |s| && MatchAt(s, i, true).Some?
    ensures MatchAt(s, i, false).Some?
    ensures MatchAt(s, i, false).value.0.first == MatchAt(s, i, true).value.0.first
    ensures MatchAt(s, i, false).value.0.second == MatchAt(s, i, true).value.0.second
  {
  }

  /** Where each pattern's match ends: after the pair, and after the group when there is one. */
  lemma MatchEnds(s: string, i: nat)
    requires i < |s| && MatchAt(s, i, true).Some?
    ensures PairAt(s, i).Some? && MatchAt(s, i, false).Some?
    ensures MatchAt(s, i, false).value.1 == PairAt(s, i).value.1
    ensures var k := PairAt(s, i).value.1;
      MatchAt(s, i, true).value.1 == (if GroupAt(s, k).Some? then GroupAt(s, k).value + 1 else k)
  {
  }


  /** The plain pattern's scan passes over a `(digits)` group as if it were not there. */
  lemma GroupSkipped(s: string, k: nat)
    requires k <= |s| && GroupAt(s, k).Some?
    ensures ScanFrom(s, k, false) == ScanFrom(s, GroupAt(s, k).value + 1, false)
  {
    var m := GroupAt(s, k).value;
    assert m == DigitRunEnd(s, k + 1);
    RunIsDigits(s, k + 1);
    SkipGroup(s, k, m, k);
  }

  /**
   * The tiebreak group never changes the game pairs: `r'(\d+)-(\d+)'` and the pattern with the
   * optional `\((\d+)\)` find the same sets, so the comeback rating sees the sets `parse_sets` sees.
   */
  lemma {:induction false} TiebreakGroupKeepsPairs(s: string, i: nat)
    requires i <= |s|
    ensures Pairs(ScanFrom(s, i, true)) == Pairs(ScanFrom(s, i, false))
    decreases |s| - i
  {
    if i < |s| {
      var r1, r2 := MatchAt(s, i, true), MatchAt(s, i, false);
      if r1.None? {
        TiebreakGroupKeepsPairs(s, i + 1);
      } else {
        var t, e := r1.value.0, r1.value.1;
        SameSetAt(s, i);
        MatchEnds(s, i);
        var k := PairAt(s, i).value.1;
        if GroupAt(s, k).Some? {
          GroupSkipped(s, k);
        }
        TiebreakGroupKeepsPairs(s, e);
        PairsCons(t, ScanFrom(s, e, true));
        PairsCons(r2.value.0, ScanFrom(s, e, false));
      }
    }
  }

  /** `score_str.replace("RET", "").replace("W/O", "")`. */
  function StripMarkers(s: string): string
  {
    RemoveAll(RemoveAll(s, "RET"), "W/O")
  }

  // ---------------------------------------------------------------------------------------
  // parse_score
  // ---------------------------------------------------------------------------------------

  datatype ParsedScore = ParsedScore(
    winnerSets: nat, loserSets: nat, winnerGames: nat, loserGames: nat,
    setScores: seq<(nat, nat)>, tiebreaks: seq<nat>, isComplete: bool)

  const NoScore := ParsedScore(0, 0, 0, 0, [], [], false)

  /** A retirement, walkover, default or abandonment marker appears, in any ASCII case. */
  predicate HasMarker(s: string)
  {
    var u := UpperAscii(s);
    Contains(u, "RET") || Contains(u, "W/O") || Contains(u, "DEF") || Contains(u, "ABD")
  }

  /** Sets whose first count is strictly larger: the ones the match winner took. */
  function SetsWon(ps: seq<(nat, nat)>): (n: nat)
    ensures n <= |ps|
  {
    if |ps| == 0 then 0 else SetsWon(ps[..|ps| - 1]) + (if ps[|ps| - 1].0 > ps[|ps| - 1].1 then 1 else 0)
  }

  function SumFirst(ps: seq<(nat, nat)>): nat
  {
    if |ps| == 0 then 0 else SumFirst(ps[..|ps| - 1]) + ps[|ps| - 1].0
  }

  function SumSecond(ps: seq<(nat, nat)>): nat
  {
    if |ps| == 0 then 0 else SumSecond(ps[..|ps| - 1]) + ps[|ps| - 1].1
  }

  /** The tiebreak points of the tokens that carry them, in order. */
  function TiebreakPoints(ts: seq<SetToken>): (r: seq<nat>)
    ensures |r| <= |ts|
  {
    if |ts| == 0 then []
    else
      TiebreakPoints(ts[..|ts| - 1])
      + (match ts[|ts| - 1].tiebreak case Some(p) => [p] case None => [])
  }

  /** What `parse_score` returns, stated over the scanned sets. */
  function ParsedScoreOf(score: Option<string>): (p: ParsedScore)
  {
    match score
    case None => NoScore
    case Some(s) =>
      var ts := SetTokens(s);
      var ps := Pairs(ts);
      ParsedScore(SetsWon(ps), |ps| - SetsWon(ps), SumFirst(ps), SumSecond(ps), ps, TiebreakPoints(ts), !HasMarker(s))
  }

  /** `parse_score`: one pass over the sets, crediting each to a side (equal games go to the loser). */
  method ParseScore(score: Option<string>) returns (p: ParsedScore)
    ensures p == ParsedScoreOf(score)
    ensures score.None? ==> p == NoScore
    ensures score.Some? ==>
      && p.winnerSets + p.loserSets == |p.setScores| == |SetTokens(score.value)|
      && |p.tiebreaks| <= |p.setScores|
      && (p.isComplete <==> !HasMarker(score.value))
  {
    if score.None? {
      return NoScore;
    }
    var s := score.value;
    var ts := SetTokens(s);
    var winnerSets, loserSets, winnerGames, loserGames, setScores, tiebreaks := TallySets(ts);
    p := ParsedScore(winnerSets, loserSets, winnerGames, loserGames, setScores, tiebreaks, !HasMarker(s));
  }

  /** The tallies of `parse_score` after the first `i` sets. */
  predicate Tallied(ts: seq<SetToken>, i: nat, winnerSets: nat, loserSets: nat, winnerGames: nat, loserGames: nat,
                    setScores: seq<(nat, nat)>, tiebreaks: seq<nat>)
    requires i <= |ts|
  {
    && setScores == Pairs(ts[..i]) && tiebreaks == TiebreakPoints(ts[..i])
    && winnerSets == SetsWon(setScores) && winnerSets + loserSets == i
    && winnerGames == SumFirst(setScores) && loserGames == SumSecond(setScores)
  }

  /** One pass of the loop body keeps the tallies. */
  lemma TallyStep(ts: seq<SetToken>, i: nat, winnerSets: nat, loserSets: nat, winnerGames: nat, loserGames: nat,
                  setScores: seq<(nat, nat)>, tiebreaks: seq<nat>)
    requires i < |ts| && Tallied(ts, i, winnerSets, loserSets, winnerGames, loserGames, setScores, tiebreaks)
    ensures var t := ts[i];
      Tallied(ts, i + 1,
              winnerSets + (if t.first > t.second then 1 else 0), loserSets + (if t.first > t.second then 0 else 1),
              winnerGames + t.first, loserGames + t.second, setScores + [(t.first, t.second)],
              tiebreaks + (if t.tiebreak.Some? then [t.tiebreak.value] else []))
  {
    ParseStep(ts, i);
  }

  /** The loop of `parse_score` over the matched sets. */
  method TallySets(ts: seq<SetToken>)
    returns (winnerSets: nat, loserSets: nat, winnerGames: nat, loserGames: nat, setScores: seq<(nat, nat)>, tiebreaks: seq<nat>)
    ensures setScores == Pairs(ts) && tiebreaks == TiebreakPoints(ts)
    ensures winnerSets == SetsWon(setScores) && loserSets == |ts| - winnerSets
    ensures winnerGames == SumFirst(setScores) && loserGames == SumSecond(setScores)
  {
    winnerSets, loserSets, winnerGames, loserGames := 0, 0, 0, 0;
    setScores, tiebreaks := [], [];
    var i := 0;
    while i < |ts|
      invariant 0 <= i <= |ts|
      invariant Tallied(ts, i, winnerSets, loserSets, winnerGames, loserGames, setScores, tiebreaks)
    {
      var t := ts[i];
      TallyStep(ts, i, winnerSets, loserSets, winnerGames, loserGames, setScores, tiebreaks);
      winnerGames := winnerGames + t.first;
      loserGames := loserGames + t.second;
      setScores := setScores + [(t.first, t.second)];
      if t.tiebreak.Some? {
        tiebreaks := tiebreaks + [t.tiebreak.value];
      }
      if t.first > t.second {
        winnerSets := winnerSets + 1;
      } else {
        loserSets := loserSets + 1;
      }
      i := i + 1;
    }
    assert ts[..i] == ts;
  }



  /** One more set adds its pair, its games, its tiebreak points and, if won, a set to the tallies. */
  lemma ParseStep(ts: seq<SetToken>, i: nat)
    requires i < |ts|
    ensures var ps, ps' := Pairs(ts[..i]), Pairs(ts[..i + 1]);
      && ps' == ps + [(ts[i].first, ts[i].second)]
      && SetsWon(ps') == SetsWon(ps) + (if ts[i].first > ts[i].second then 1 else 0)
      && SumFirst(ps') == SumFirst(ps) + ts[i].first
      && SumSecond(ps') == SumSecond(ps) + ts[i].second
      && TiebreakPoints(ts[..i + 1]) == TiebreakPoints(ts[..i]) + (if ts[i].tiebreak.Some? then [ts[i].tiebreak.value] else [])
  {
    var ps, ps' := Pairs(ts[..i]), Pairs(ts[..i + 1]);
    assert ps' == ps + [(ts[i].first, ts[i].second)];
    assert ps'[..i] == ps;
    assert ts[..i + 1][..i] == ts[..i];
  }

  // ---------------------------------------------------------------------------------------
  // parse_sets and final_set_tiebreak
  // ---------------------------------------------------------------------------------------

  datatype SetSummary = SetSummary(margins: seq<nat>, tiebreakCount: nat, leadChanges: nat)

  function Margin(t: SetToken): nat
  {
    if t.first >= t.second then t.first - t.second else t.second - t.first
  }

  /** Number of sets whose tiebreak group matched. */
  function TiebreakCount(ts: seq<SetToken>): (n: nat)
    ensures n <= |ts|
  {
    if |ts| == 0 then 0 else TiebreakCount(ts[..|ts| - 1]) + (if ts[|ts| - 1].tiebreak.Some? then 1 else 0)
  }

  /** Adjacent sets where "first count strictly larger" flips. */
  function LeadChanges(ts: seq<SetToken>): (n: nat)
    ensures n <= if |ts| == 0 then 0 else |ts| - 1
  {
    if |ts| <= 1 then 0
    else
      var a := ts[|ts| - 2];
      var b := ts[|ts| - 1];
      LeadChanges(ts[..|ts| - 1]) + (if (a.first > a.second) != (b.first > b.second) then 1 else 0)
  }

  /** `parse_sets`: the margin of every set, the tiebreak count and the lead changes. */
  function ParseSets(score: Option<string>): (r: SetSummary)
    ensures score.None? ==> r == SetSummary([], 0, 0)
    ensures r.tiebreakCount <= |r.margins|
    ensures r.leadChanges <= if |r.margins| == 0 then 0 else |r.margins| - 1
    ensures score.Some? ==> |r.margins| == |SetTokens(StripMarkers(score.value))|
  {
    match score
    case None => SetSummary([], 0, 0)
    case Some(s) =>
      var ts := SetTokens(StripMarkers(s));
      SetSummary(seq(|ts|, k requires 0 <= k < |ts| => Margin(ts[k])), TiebreakCount(ts), LeadChanges(ts))
  }

  /** `final_set_tiebreak`: 1 when the last scanned set carries a tiebreak, else 0. */
  function FinalSetTiebreak(score: Option<string>): (r: nat)
    ensures r <= 1
  {
    match score
    case None => 0
    case Some(s) =>
      var ts := SetTokens(StripMarkers(s));
      if |ts| == 0 then 0 else if ts[|ts| - 1].tiebreak.Some? then 1 else 0
  }

  /** A final-set tiebreak is one of the tiebreaks `parse_sets` counts. */
  lemma FinalTiebreakIsCounted(score: Option<string>)
    ensures FinalSetTiebreak(score) <= ParseSets(score).tiebreakCount
  {
    if score.Some? {
      var ts := SetTokens(StripMarkers(score.value));
      if |ts| > 0 && ts[|ts| - 1].tiebreak.Some? {
        assert TiebreakCount(ts) >= 1;
      }
    }
  }

  /**
   * On a score without "RET" and "W/O", `parse_sets` sees the very sets `parse_score` sees:
   * each margin is the difference of that set's games, and the tiebreak count is the
   * length of the tiebreak list.
   */
  lemma ParseSetsAgreesWithParseScore(s: string)
    requires !Contains(s, "RET") && !Contains(s, "W/O")
    ensures var p := ParsedScoreOf(Some(s));
      var r := ParseSets(Some(s));
      && |r.margins| == |p.setScores|
      && (forall k :: 0 <= k < |r.margins| ==>
            r.margins[k] == if p.setScores[k].0 >= p.setScores[k].1 then p.setScores[k].0 - p.setScores[k].1
                            else p.setScores[k].1 - p.setScores[k].0)
      && r.tiebreakCount == |p.tiebreaks|
  {
    RemoveAbsent(s, "RET");
    RemoveAbsent(s, "W/O");
    TiebreakCountIsLength(SetTokens(s));
  }

  lemma {:induction false} TiebreakCountIsLength(ts: seq<SetToken>)
    ensures TiebreakCount(ts) == |TiebreakPoints(ts)|
  {
    if |ts| > 0 { TiebreakCountIsLength(ts[..|ts| - 1]); }
  }

  // ---------------------------------------------------------------------------------------
  // advanced_comeback_score
  // ---------------------------------------------------------------------------------------

  /** Who took each set: 1 when the first count is strictly larger, else 2. */
  function SetWinners(ps: seq<(nat, nat)>): (ws: seq<int>)
    ensures |ws| == |ps|
    ensures forall k :: 0 <= k < |ws| ==> ws[k] == 1 || ws[k] == 2
  {
    seq(|ps|, k requires 0 <= k < |ps| => if ps[k].0 > ps[k].1 then 1 else 2)
  }

  /** `xs.count(v)`. */
  function CountOf(xs: seq<int>, v: int): (n: nat)
    ensures n <= |xs|
  {
    if |xs| == 0 then 0 else CountOf(xs[..|xs| - 1], v) + (if xs[|xs| - 1] == v then 1 else 0)
  }

  /**
   * The comeback rules over the set winners, in priority order: 0 below three sets or on
   * an even split; else 3 when the match winner lost the first two sets, 2 when the sets it
   * lost are not all adjacent, 2 when it took exactly one of the first three of five sets,
   * 1 when it took the fifth of five, and 0 otherwise.
   */
  function ComebackRating(ws: seq<int>): (r: nat)
    ensures r <= 3
  {
    if |ws| < 3 || CountOf(ws, 1) == CountOf(ws, 2) then 0
    else
      var winner := if CountOf(ws, 1) > CountOf(ws, 2) then 1 else 2;
      var loser := 3 - winner;
      if ws[0] == loser && ws[1] == loser then 3
      else if exists i, j :: 0 <= i < j < |ws| && j - i > 1 && ws[i] == loser && ws[j] == loser then 2
      else if |ws| == 5 && CountOf(ws[..3], winner) == 1 then 2
      else if |ws| == 5 && ws[4] == winner then 1
      else 0
  }

  /** The rating of a score string: the sets are scanned after the markers are dropped. */
  function ComebackOf(score: Option<string>): nat
  {
    match score
    case None => 0
    case Some(s) => ComebackRating(SetWinners(GamePairs(StripMarkers(s))))
  }

  /** The eventual winner's deficit after each set (`lead_diffs`): sets lost minus sets won so far. */
  method LeadDiffs(ws: seq<int>, winner: int) returns (diffs: seq<int>)
    ensures |diffs| == |ws|
    ensures forall k :: 0 <= k < |ws| ==>
      diffs[k] == (k + 1 - CountOf(ws[..k + 1], winner)) - CountOf(ws[..k + 1], winner)
  {
    var winnerWins, loserWins := 0, 0;
    diffs := [];
    var i := 0;
    while i < |ws|
      invariant 0 <= i <= |ws| && |diffs| == i
      invariant winnerWins == CountOf(ws[..i], winner) && loserWins == i - winnerWins
      invariant forall k :: 0 <= k < i ==>
        diffs[k] == (k + 1 - CountOf(ws[..k + 1], winner)) - CountOf(ws[..k + 1], winner)
    {
      assert ws[..i + 1][..i] == ws[..i];
      if ws[i] == winner {
        winnerWins := winnerWins + 1;
      } else {
        loserWins := loserWins + 1;
      }
      diffs := diffs + [loserWins - winnerWins];
      i := i + 1;
    }
  }

  /** The positions of the sets the eventual winner lost (`losing_indices`), in increasing order. */
  method LosingIndices(ws: seq<int>, loser: int) returns (losing: seq<nat>)
    ensures forall k :: 0 <= k < |losing| ==> losing[k] < |ws| && ws[losing[k]] == loser
    ensures forall a, b :: 0 <= a < b < |losing| ==> losing[a] < losing[b]
    ensures forall k :: 0 <= k < |ws| && ws[k] == loser ==> k in losing
  {
    losing := [];
    var i := 0;
    while i < |ws|
      invariant 0 <= i <= |ws|
      invariant forall k :: 0 <= k < |losing| ==> losing[k] < i && ws[losing[k]] == loser
      invariant forall a, b :: 0 <= a < b < |losing| ==> losing[a] < losing[b]
      invariant forall k :: 0 <= k < i && ws[k] == loser ==> k in losing
    {
      if ws[i] == loser {
        losing := losing + [i];
      }
      i := i + 1;
    }
  }

  /** The first and last lost sets are more than one apart exactly when some two lost sets are. */
  lemma SpreadOfLosses(ws: seq<int>, loser: int, losing: seq<nat>)
    requires forall k :: 0 <= k < |losing| ==> losing[k] < |ws| && ws[losing[k]] == loser
    requires forall a, b :: 0 <= a < b < |losing| ==> losing[a] < losing[b]
    requires forall k :: 0 <= k < |ws| && ws[k] == loser ==> k in losing
    ensures (|losing| >= 2 && losing[|losing| - 1] - losing[0] > 1)
      <==> exists a, b :: 0 <= a < b < |ws| && b - a > 1 && ws[a] == loser && ws[b] == loser
  {
    if exists a, b :: 0 <= a < b < |ws| && b - a > 1 && ws[a] == loser && ws[b] == loser {
      var a, b :| 0 <= a < b < |ws| && b - a > 1 && ws[a] == loser && ws[b] == loser;
      var x :| 0 <= x < |losing| && losing[x] == a;
      var y :| 0 <= y < |losing| && losing[y] == b;
      assert x == 0 || losing[0] < losing[x];
      assert y == |losing| - 1 || losing[y] < losing[|losing| - 1];
    }
    if |losing| >= 2 && losing[|losing| - 1] - losing[0] > 1 {
      assert ws[losing[0]] == loser && ws[losing[|losing| - 1]] == loser;
    }
  }

  /**
   * `advanced_comeback_score`: the running deficit (`lead_diffs`) and the lost-set indices
   * are computed set by set as the source does, then the rules are tried in order.
   */
  method AdvancedComebackScore(score: Option<string>) returns (r: nat)
    ensures r == ComebackOf(score)
  {
    if score.None? {
      return 0;
    }
    var ws := SetWinners(GamePairs(StripMarkers(score.value)));
    if |ws| < 3 {
      return 0;
    }
    var p1, p2 := CountOf(ws, 1), CountOf(ws, 2);
    if p1 == p2 {
      return 0;
    }
    var winner := if p1 > p2 then 1 else 2;
    var loser := if winner == 1 then 2 else 1;
    var leadDiffs := LeadDiffs(ws, winner);
    assert ws[..2][..1] == ws[..1] && ws[..1][..0] == [];
    assert CountOf(ws[..2], winner) == (if ws[0] == winner then 1 else 0) + (if ws[1] == winner then 1 else 0);
    assert leadDiffs[1] == 2 <==> ws[0] == loser && ws[1] == loser;
    if leadDiffs[1] == 2 {
      return 3;
    }
    var losing := LosingIndices(ws, loser);
    SpreadOfLosses(ws, loser, losing);
    if |losing| >= 2 && losing[|losing| - 1] - losing[0] > 1 {
      return 2;
    }
    if |ws| == 5 && CountOf(ws[..3], winner) == 1 {
      return 2;
    }
    if |ws| == 5 && ws[|ws| - 1] == winner {
      return 1;
    }
    return 0;
  }

  lemma {:induction false} CountOne(xs: seq<int>, v: int, i: nat)
    requires i < |xs| && xs[i] == v
    ensures CountOf(xs, v) >= 1
  {
    if i < |xs| - 1 {
      CountOne(xs[..|xs| - 1], v, i);
    }
  }

  lemma {:induction false} CountTwo(xs: seq<int>, v: int, i: nat, j: nat)
    requires i < j < |xs| && xs[i] == v && xs[j] == v
    ensures CountOf(xs, v) >= 2
  {
    if j == |xs| - 1 {
      CountOne(xs[..|xs| - 1], v, i);
    } else {
      CountTwo(xs[..|xs| - 1], v, i, j);
    }
  }

  /**
   * A rating of 2 or 3 is only ever given to a match in which each side took at least two
   * sets: every rule from the 0-2 deficit down needs two sets lost by the eventual winner.
   */
  lemma RealComebackNeedsTwoLostSets(ws: seq<int>)
    requires forall k :: 0 <= k < |ws| ==> ws[k] == 1 || ws[k] == 2
    ensures ComebackRating(ws) >= 2 ==> CountOf(ws, 1) >= 2 && CountOf(ws, 2) >= 2
  {
    if ComebackRating(ws) >= 2 {
      var winner := if CountOf(ws, 1) > CountOf(ws, 2) then 1 else 2;
      var loser := 3 - winner;
      if ws[0] == loser && ws[1] == loser {
        CountTwo(ws, loser, 0, 1);
      } else if exists i, j :: 0 <= i < j < |ws| && j - i > 1 && ws[i] == loser && ws[j] == loser {
        var i, j :| 0 <= i < j < |ws| && j - i > 1 && ws[i] == loser && ws[j] == loser;
        CountTwo(ws, loser, i, j);
      } else {
        assert ws[..3][..2][..1] == ws[..1] && ws[..3][..2] == ws[..2] && ws[..1][..0] == [];
        assert CountOf(ws[..3], winner) == 1;
        assert ws[1] == loser && ws[2] == loser;
        CountTwo(ws, loser, 1, 2);
      }
    }
  }

  lemma CountFive(a: int, b: int, c: int, d: int, e: int, v: int)
    ensures CountOf([a, b, c, d, e], v) ==
      (if a == v then 1 else 0) + (if b == v then 1 else 0) + (if c == v then 1 else 0)
      + (if d == v then 1 else 0) + (if e == v then 1 else 0)
  {
    assert [a][..0] == [];
    assert CountOf([a], v) == (if a == v then 1 else 0);
    assert [a, b][..1] == [a];
    assert CountOf([a, b], v) == CountOf([a], v) + (if b == v then 1 else 0);
    assert [a, b, c][..2] == [a, b];
    assert CountOf([a, b, c], v) == CountOf([a, b], v) + (if c == v then 1 else 0);
    assert [a, b, c, d][..3] == [a, b, c];
    assert CountOf([a, b, c, d], v) == CountOf([a, b, c], v) + (if d == v then 1 else 0);
    assert [a, b, c, d, e][..4] == [a, b, c, d];
  }

  /** The first example of the rules: down two sets to love, then three sets won. */
  lemma FromTwoSetsDown()
    ensures ComebackRating(SetWinners([(4, 6), (4, 6), (6, 4), (6, 4), (6, 3)])) == 3
  {
    var ws := SetWinners([(4, 6), (4, 6), (6, 4), (6, 4), (6, 3)]);
    assert ws == [2, 2, 1, 1, 1];
    CountFive(2, 2, 1, 1, 1, 1);
    CountFive(2, 2, 1, 1, 1, 2);
  }

  /** The second example: the winner's two lost sets are not adjacent. */
  lemma FromAlternatingSets()
    ensures ComebackRating(SetWinners([(6, 4), (3, 6), (6, 4), (2, 6), (6, 3)])) == 2
  {
    var ws := SetWinners([(6, 4), (3, 6), (6, 4), (2, 6), (6, 3)]);
    assert ws == [1, 2, 1, 2, 1];
    CountFive(1, 2, 1, 2, 1, 1);
    CountFive(1, 2, 1, 2, 1, 2);
    assert 3 - 1 > 1 && ws[1] == 2 && ws[3] == 2;
  }
}
