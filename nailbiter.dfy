/**
 * The nailbiter index of aggregations/nbi.py: Grand Slam finals and semifinals from 1980
 * on get seven drama features, six of them rescaled to [0, 1] against the cohort, a
 * weighted sum whose weights add up to 1, a rescaling against the best match, and tags.
 */
module Nailbiter {
  import opened Wrappers
  import opened Text
  import opened Numeric
  import opened Matches
  import opened GrandSlams
  import opened Scores
  import opened Ordering
  import opened Dates

  /** The weights of the index; they add up to 1. */
  const MarginWeight := 0.25
  const TiebreakWeight := 0.12
  const LeadWeight := 0.18
  const ComebackWeight := 0.22
  const BreakPointWeight := 0.07
  const FinalTiebreakWeight := 0.06
  const DurationWeight := 0.10

  const StartYear := 1980

  /**
   * The cohort: a tournament named exactly as one of the four Grand Slams, level "G", a
   * final or semifinal, from 1980 on, and a score without "RET" or "W/O" (a missing score
   * is kept, since the source's `contains` treats it as not containing them). The year is
   * read through `to_datetime(..., errors='coerce')`: a date that is no calendar day has no
   * year, and a missing year is never at least 1980, so its row is dropped.
   */
  predicate InCohort(m: Match)
  {
    && m.tourneyName.Some? && m.tourneyName.value in Names
    && m.tourneyLevel == Some("G")
    && (m.round == Some("F") || m.round == Some("SF"))
    && ValidDate(m.tourneyDate) && YearOf(m.tourneyDate) >= StartYear
    && !(m.score.Some? && (Contains(m.score.value, "RET") || Contains(m.score.value, "W/O")))
  }

  function Cohort(df: seq<Match>): (r: seq<Match>)
    ensures forall m :: m in r <==> m in df && InCohort(m)
  {
    Filter(df, InCohort)
  }

  /** The raw drama features of one match. */
  datatype Features = Features(
    avgSetMargin: Option<real>, tiebreakCount: nat, leadChanges: nat, comeback: nat,
    bpSavedRatio: real, durationScore: Option<real>, finalSetTiebreak: nat)

  /** `fillna(0)`. */
  function OrZero(x: Option<real>): real { if x.Some? then x.value else 0.0 }

  /**
   * Break points saved over break points faced by both players, missing counters read as 0;
   * 0 when none were faced.
   */
  function BpSavedRatio(m: Match): (r: real)
    ensures OrZero(m.wBpFaced) + OrZero(m.lBpFaced) == 0.0 ==> r == 0.0
    ensures 0.0 <= OrZero(m.wBpSaved) + OrZero(m.lBpSaved) <= OrZero(m.wBpFaced) + OrZero(m.lBpFaced) ==> 0.0 <= r <= 1.0
  {
    var faced := OrZero(m.wBpFaced) + OrZero(m.lBpFaced);
    var saved := OrZero(m.wBpSaved) + OrZero(m.lBpSaved);
    if faced == 0.0 then 0.0
    else if 0.0 <= saved <= faced then Unit(saved, faced); saved / faced
    else saved / faced
  }

  /** Minutes per set; missing without minutes or without a parsed set. */
  function DurationScore(minutes: Option<real>, sets: nat): (r: Option<real>)
    ensures r.Some? <==> minutes.Some? && sets > 0
  {
    if minutes.Some? && sets > 0 then Some(minutes.value / sets as real) else None
  }

  function FeaturesOf(m: Match): (f: Features)
    ensures f.avgSetMargin.None? <==> |ParseSets(m.score).margins| == 0
    ensures f.durationScore.Some? <==> m.minutes.Some? && |ParseSets(m.score).margins| > 0
    ensures f.finalSetTiebreak <= 1 && f.comeback <= 3
    ensures f.tiebreakCount <= |ParseSets(m.score).margins|
  {
    var s := ParseSets(m.score);
    Features(MeanOfNats(s.margins), s.tiebreakCount, s.leadChanges, ComebackOf(m.score),
             BpSavedRatio(m), DurationScore(m.minutes, |s.margins|), FinalSetTiebreak(m.score))
  }

  /** A feature column whose present values all coincide. */
  predicate Constant(col: seq<Option<real>>)
  {
    |Present(col)| > 0 && MinOf(Present(col)) == MaxOf(Present(col))
  }

  /**
   * Min-max rescaling of one feature over the cohort (inverted for the set margin). pandas
   * skips missing values for the minimum and maximum; a column with no value at all stays
   * missing, and a column whose values coincide is 0 on every row, missing ones included.
   */
  function Normalize(col: seq<Option<real>>, invert: bool): (r: seq<Option<real>>)
    ensures |r| == |col|
    ensures forall k :: 0 <= k < |r| && r[k].Some? ==> 0.0 <= r[k].value <= 1.0
    ensures |Present(col)| == 0 ==> forall k :: 0 <= k < |r| ==> r[k].None?
    ensures Constant(col) ==> forall k :: 0 <= k < |r| ==> r[k] == Some(0.0)
    ensures |Present(col)| > 0 && !Constant(col) ==> forall k :: 0 <= k < |r| ==> (r[k].Some? <==> col[k].Some?)
    ensures |Present(col)| > 0 && !Constant(col) ==>
      forall k :: 0 <= k < |r| && col[k] == Some(MinOf(Present(col))) ==> r[k] == Some(if invert then 1.0 else 0.0)
    ensures |Present(col)| > 0 && !Constant(col) ==>
      forall k :: 0 <= k < |r| && col[k] == Some(MaxOf(Present(col))) ==> r[k] == Some(if invert then 0.0 else 1.0)
  {
    var p := Present(col);
    if |p| == 0 then seq(|col|, k => None)
    else
      var lo, hi := MinOf(p), MaxOf(p);
      if hi == lo then seq(|col|, k => Some(0.0))
      else
        assert forall k :: 0 <= k < |col| && col[k].Some? ==> lo <= col[k].value <= hi by {
          forall k | 0 <= k < |col| && col[k].Some? ensures lo <= col[k].value <= hi {
            assert col[k].value in p;
          }
        }
        seq(|col|, k requires 0 <= k < |col| => Rescale(col[k], lo, hi, invert))
  }

  function Rescale(x: Option<real>, lo: real, hi: real, invert: bool): (r: Option<real>)
    requires lo < hi
    requires x.Some? ==> lo <= x.value <= hi
    ensures r.Some? <==> x.Some?
    ensures r.Some? ==> 0.0 <= r.value <= 1.0
    ensures x == Some(lo) ==> r == Some(if invert then 1.0 else 0.0)
    ensures x == Some(hi) ==> r == Some(if invert then 0.0 else 1.0)
  {
    match x
    case None => None
    case Some(v) =>
      var t := if invert then (hi - v) / (hi - lo) else (v - lo) / (hi - lo);
      Unit(if invert then hi - v else v - lo, hi - lo);
      DivideSelf(hi - lo);
      Some(t)
  }

  /** Rescaling keeps the order of the values, or reverses it when inverted. */
  lemma NormalizeMonotone(col: seq<Option<real>>, invert: bool, i: nat, j: nat)
    requires i < |col| && j < |col| && col[i].Some? && col[j].Some? && col[i].value <= col[j].value
    ensures var r := Normalize(col, invert);
            r[i].Some? && r[j].Some?
            && (if invert then r[i].value >= r[j].value else r[i].value <= r[j].value)
  {
    var p := Present(col);
    assert col[i].value in p && col[j].value in p;
    var lo, hi := MinOf(p), MaxOf(p);
    if hi != lo {
      RescaleMonotone(col[i].value, col[j].value, lo, hi, invert);
    }
  }

  lemma RescaleMonotone(x: real, y: real, lo: real, hi: real, invert: bool)
    requires lo <= x <= y <= hi && lo < hi
    ensures var a, b := Rescale(Some(x), lo, hi, invert), Rescale(Some(y), lo, hi, invert);
            if invert then a.value >= b.value else a.value <= b.value
  {
    DivideMonotone(x - lo, y - lo, hi - lo);
    DivideMonotone(hi - y, hi - x, hi - lo);
  }

  /** The six rescaled features of one match. */
  datatype Norms = Norms(
    margin: Option<real>, tiebreak: Option<real>, lead: Option<real>,
    comeback: Option<real>, breakPoint: Option<real>, duration: Option<real>)

  predicate InUnit(x: Option<real>) { x.Some? ==> 0.0 <= x.value <= 1.0 }

  predicate NormsInUnit(n: Norms)
  {
    InUnit(n.margin) && InUnit(n.tiebreak) && InUnit(n.lead)
    && InUnit(n.comeback) && InUnit(n.breakPoint) && InUnit(n.duration)
  }

  /**
   * The weighted sum; missing when any rescaled feature is missing. With every feature in
   * [0, 1] and the final-set flag 0 or 1 the index lies in [0, 1].
   */
  function Index(n: Norms, finalSetTiebreak: nat): (r: Option<real>)
    ensures r.None? <==> n.margin.None? || n.tiebreak.None? || n.lead.None? || n.comeback.None?
                         || n.breakPoint.None? || n.duration.None?
    ensures r.Some? && NormsInUnit(n) && finalSetTiebreak <= 1 ==> 0.0 <= r.value <= 1.0
  {
    if n.margin.None? || n.tiebreak.None? || n.lead.None? || n.comeback.None? || n.breakPoint.None? || n.duration.None? then None
    else
      Some(MarginWeight * n.margin.value + TiebreakWeight * n.tiebreak.value + LeadWeight * n.lead.value
           + ComebackWeight * n.comeback.value + BreakPointWeight * n.breakPoint.value
           + FinalTiebreakWeight * finalSetTiebreak as real + DurationWeight * n.duration.value)
  }

  /** A match of the cohort with its features, rescaled features and index. */
  datatype Scored = Scored(row: Match, features: Features, norms: Norms, nbi: Option<real>)

  function Column(fs: seq<Features>, f: Features -> Option<real>): (c: seq<Option<real>>)
    ensures |c| == |fs| && forall k :: 0 <= k < |fs| ==> c[k] == f(fs[k])
  {
    seq(|fs|, k requires 0 <= k < |fs| => f(fs[k]))
  }

  /** The six rescaled feature columns of the cohort. */
  datatype Columns = Columns(
    margin: seq<Option<real>>, tiebreak: seq<Option<real>>, lead: seq<Option<real>>,
    comeback: seq<Option<real>>, breakPoint: seq<Option<real>>, duration: seq<Option<real>>)

  predicate ColumnOk(c: seq<Option<real>>, n: nat)
  {
    |c| == n && forall k :: 0 <= k < n ==> InUnit(c[k])
  }

  /** The loop over `features_to_normalize`: each column rescaled against the cohort. */
  function NormalizeAll(fs: seq<Features>): (c: Columns)
    ensures ColumnOk(c.margin, |fs|) && ColumnOk(c.tiebreak, |fs|) && ColumnOk(c.lead, |fs|)
    ensures ColumnOk(c.comeback, |fs|) && ColumnOk(c.breakPoint, |fs|) && ColumnOk(c.duration, |fs|)
  {
    Columns(Rescaled(Column(fs, (f: Features) => f.avgSetMargin), true),
            Rescaled(Column(fs, (f: Features) => Some(f.tiebreakCount as real)), false),
            Rescaled(Column(fs, (f: Features) => Some(f.leadChanges as real)), false),
            Rescaled(Column(fs, (f: Features) => Some(f.comeback as real)), false),
            Rescaled(Column(fs, (f: Features) => Some(f.bpSavedRatio)), false),
            Rescaled(Column(fs, (f: Features) => f.durationScore), false))
  }

  /** One rescaled column, of the column's length and inside [0, 1]. */
  function Rescaled(col: seq<Option<real>>, invert: bool): (r: seq<Option<real>>)
    ensures ColumnOk(r, |col|)
  {
    Normalize(col, invert)
  }

  /** Row `k` of the rescaled columns. */
  function NormsAt(c: Columns, k: nat, n: nat): (r: Norms)
    requires k < n
    requires ColumnOk(c.margin, n) && ColumnOk(c.tiebreak, n) && ColumnOk(c.lead, n)
    requires ColumnOk(c.comeback, n) && ColumnOk(c.breakPoint, n) && ColumnOk(c.duration, n)
    ensures NormsInUnit(r)
  {
    Norms(c.margin[k], c.tiebreak[k], c.lead[k], c.comeback[k], c.breakPoint[k], c.duration[k])
  }

  /** A scored match: its own features, rescaled features in [0, 1], and their index. */
  predicate ScoredOk(s: Scored, m: Match)
  {
    s.row == m && s.features == FeaturesOf(m) && NormsInUnit(s.norms)
    && s.nbi == Index(s.norms, s.features.finalSetTiebreak)
  }

  function MakeScored(m: Match, n: Norms): (s: Scored)
    requires NormsInUnit(n)
    ensures ScoredOk(s, m)
  {
    var f := FeaturesOf(m);
    Scored(m, f, n, Index(n, f.finalSetTiebreak))
  }

  /** The features of the cohort and their rescaled columns, one `Scored` per match. */
  function ScoreCohort(cohort: seq<Match>): (r: seq<Scored>)
    ensures |r| == |cohort|
    ensures forall k :: 0 <= k < |r| ==> ScoredOk(r[k], cohort[k])
  {
    var fs := seq(|cohort|, k requires 0 <= k < |cohort| => FeaturesOf(cohort[k]));
    var c := NormalizeAll(fs);
    seq(|cohort|, k requires 0 <= k < |cohort| => MakeScored(cohort[k], NormsAt(c, k, |cohort|)))
  }

  /** The sort key: a missing index sorts after every present one (pandas puts NaN last). */
  function NbiKey(s: Scored): real
  {
    if s.nbi.Some? then s.nbi.value else -1.0
  }

  /** The largest present index, if any. */
  function MaxPresent(xs: seq<Option<real>>): (r: Option<real>)
    ensures r.None? <==> forall k :: 0 <= k < |xs| ==> xs[k].None?
    ensures r.Some? ==> forall k :: 0 <= k < |xs| && xs[k].Some? ==> xs[k].value <= r.value
    ensures r.Some? ==> exists k :: 0 <= k < |xs| && xs[k] == Some(r.value)
  {
    var p := Present(xs);
    if |p| == 0 then
      assert forall k :: 0 <= k < |xs| ==> xs[k] !in xs || xs[k].None?;
      None
    else
      assert forall k :: 0 <= k < |xs| && xs[k].Some? ==> xs[k].value in p;
      assert MaxOf(p) in p;
      Some(MaxOf(p))
  }

  /** `NBI / max * 100` when the best index is positive, otherwise 0 on every row. */
  function Scale(nbi: Option<real>, best: Option<real>): (r: Option<real>)
    ensures !(best.Some? && best.value > 0.0) ==> r == Some(0.0)
    ensures best.Some? && best.value > 0.0 ==> (r.Some? <==> nbi.Some?)
    ensures best.Some? && best.value > 0.0 && nbi.Some? && 0.0 <= nbi.value <= best.value ==> 0.0 <= r.value <= 100.0
    ensures best.Some? && best.value > 0.0 && nbi.Some? ==> r == Some(nbi.value / best.value * 100.0)
    ensures best.Some? && best.value > 0.0 && nbi == best ==> r == Some(100.0)
  {
    if best.Some? && best.value > 0.0 then
      if nbi.Some? then
        var r := Some(nbi.value / best.value * 100.0);
        assert best.value / best.value == 1.0;
        if 0.0 <= nbi.value <= best.value then Unit(nbi.value, best.value); r else r
      else None
    else Some(0.0)
  }

  /** The drama tags, in the order the source tests them. */
  const Tags := ["comeback", "tiebreaks", "momentum", "bp drama", "epic length", "final set tiebreak"]

  /** Whether tag `t` (a position in `Tags`) applies to a match. */
  predicate Applies(t: nat, f: Features, durationNorm: Option<real>)
  {
    match t
    case 0 => f.comeback >= 2
    case 1 => f.tiebreakCount >= 2
    case 2 => f.leadChanges >= 2
    case 3 => f.bpSavedRatio > 0.6
    case 4 => durationNorm.Some? && durationNorm.value > 0.7
    case _ => f.finalSetTiebreak > 0
  }

  /** The positions of the tags that apply, from `t` on. */
  function TagsFrom(t: nat, f: Features, durationNorm: Option<real>): (r: seq<nat>)
    requires t <= |Tags|
    ensures forall k :: 0 <= k < |r| ==> t <= r[k] < |Tags| && Applies(r[k], f, durationNorm)
    ensures forall u :: t <= u < |Tags| && Applies(u, f, durationNorm) ==> u in r
    ensures forall a, b :: 0 <= a < b < |r| ==> r[a] < r[b]
    decreases |Tags| - t
  {
    if t == |Tags| then []
    else if Applies(t, f, durationNorm) then [t] + TagsFrom(t + 1, f, durationNorm)
    else TagsFrom(t + 1, f, durationNorm)
  }

  /** `', '.join(labels)`. */
  function Join(labels: seq<string>, sep: string): string
  {
    if |labels| == 0 then "" else if |labels| == 1 then labels[0] else labels[0] + sep + Join(labels[1..], sep)
  }

  /**
   * `tag_drama`: the labels of the tags that apply, in the fixed order, joined by ", ";
   * "standard" when none applies.
   */
  function TagDrama(f: Features, durationNorm: Option<real>): (s: string)
    ensures s == "standard" <==> forall t :: 0 <= t < |Tags| ==> !Applies(t, f, durationNorm)
  {
    var ts := TagsFrom(0, f, durationNorm);
    var labels := seq(|ts|, k requires 0 <= k < |ts| => Tags[ts[k]]);
    if |labels| == 0 then "standard"
    else
      NotStandard(ts, labels);
      assert ts[0] in ts;
      Join(labels, ", ")
  }

  /** Joined labels drawn from `Tags` never read "standard": no label starts with 's'. */
  lemma NotStandard(ts: seq<nat>, labels: seq<string>)
    requires |ts| > 0 && |labels| == |ts|
    requires forall k :: 0 <= k < |ts| ==> ts[k] < |Tags| && labels[k] == Tags[ts[k]]
    ensures Join(labels, ", ") != "standard"
  {
    var first := Tags[ts[0]];
    assert |first| > 0 && first[0] != 's' by { Initial(ts[0]); }
    JoinStart(labels, ", ");
    assert "standard"[0] == 's';
  }

  lemma Initial(t: nat)
    requires t < |Tags|
    ensures |Tags[t]| > 0 && Tags[t][0] != 's'
  {
  }

  lemma JoinStart(labels: seq<string>, sep: string)
    requires |labels| > 0 && |labels[0]| > 0
    ensures |Join(labels, sep)| > 0 && Join(labels, sep)[0] == labels[0][0]
  {
    if |labels| >= 2 {
      var s := labels[0] + sep + Join(labels[1..], sep);
      assert s[0] == labels[0][0];
    }
  }

  /** One output row of `calculate_nbi`. */
  datatype Nailbiter = Nailbiter(scored: Scored, nbi100: Option<real>, dramaTags: string)

  /** The index values of a list of scored matches. */
  function Indices(xs: seq<Scored>): (r: seq<Option<real>>)
    ensures |r| == |xs| && forall k :: 0 <= k < |xs| ==> r[k] == xs[k].nbi
  {
    seq(|xs|, k requires 0 <= k < |xs| => xs[k].nbi)
  }

  /**
   * `calculate_nbi`: the cohort scored, sorted by index with the best first and missing
   * indexes last, rescaled to the best index of the sorted rows, and tagged. An empty
   * cohort gives no rows. The sort is not stable, so only some reordering of the cohort
   * is promised; the model happens to pick the stable one.
   */
  method CalculateNbi(df: seq<Match>) returns (result: seq<Nailbiter>)
    ensures |result| == |Cohort(df)|
    ensures exists perm :: Reordered(ScoreCohort(Cohort(df)), perm, Scoreds(result))
    ensures RankedRows(result)
    ensures forall k :: 0 <= k < |result| ==>
              result[k].nbi100 == Scale(result[k].scored.nbi, MaxPresent(Indices(Scoreds(result))))
  {
    var scored := ScoreCohort(Cohort(df));
    ScoredInUnit(Cohort(df));
    var perm, sorted := StableSortDescending(scored, NbiKey);
    var best := MaxPresent(Indices(sorted));
    result := Finalize(sorted, best);
    FinalizeSorted(scored, perm, sorted, best);
    FinalizeScaled(sorted, best);
    assert Reordered(scored, perm, Scoreds(result));
  }

  /** Every finished row's rescaled index is its index scaled to the best index of the finished rows. */
  lemma FinalizeScaled(sorted: seq<Scored>, best: Option<real>)
    requires best == MaxPresent(Indices(sorted))
    ensures var r := Finalize(sorted, best);
      forall k :: 0 <= k < |r| ==> r[k].nbi100 == Scale(r[k].scored.nbi, MaxPresent(Indices(Scoreds(r))))
  {
    assert Scoreds(Finalize(sorted, best)) == sorted;
  }

  /**
   * The output's shape: missing indexes after present ones, present indexes non-increasing
   * and in [0, 1], rescaled indexes in [0, 100] with a positive best at exactly 100, and
   * every row tagged from its own features.
   */
  ghost predicate RankedRows(r: seq<Nailbiter>)
  {
    && (forall a, b :: 0 <= a < b < |r| && r[a].scored.nbi.None? ==> r[b].scored.nbi.None?)
    && (forall a, b :: 0 <= a < b < |r| && r[a].scored.nbi.Some? && r[b].scored.nbi.Some? ==>
          r[a].scored.nbi.value >= r[b].scored.nbi.value)
    && (forall k :: 0 <= k < |r| && r[k].scored.nbi.Some? ==> 0.0 <= r[k].scored.nbi.value <= 1.0)
    && (forall k :: 0 <= k < |r| && r[k].nbi100.Some? ==> 0.0 <= r[k].nbi100.value <= 100.0)
    && (|r| > 0 && r[0].scored.nbi.Some? && r[0].scored.nbi.value > 0.0 ==> r[0].nbi100 == Some(100.0))
    && (forall k :: 0 <= k < |r| ==> r[k].dramaTags == TagDrama(r[k].scored.features, r[k].scored.norms.duration))
  }

  /** The rescaled rows of a sorted cohort keep its order, its ranges and the best match at 100. */
  lemma FinalizeSorted(scored: seq<Scored>, perm: seq<nat>, sorted: seq<Scored>, best: Option<real>)
    requires StableDescending(scored, NbiKey, perm, sorted)
    requires forall k :: 0 <= k < |scored| ==> InUnit(scored[k].nbi)
    requires best == MaxPresent(Indices(sorted))
    ensures Scoreds(Finalize(sorted, best)) == sorted
    ensures RankedRows(Finalize(sorted, best))
  {
    SortedOrder(scored, perm, sorted, best);
    FinalizeFacts(sorted, best);
    FinalizeOrder(sorted, best);
    FinalizeTags(sorted, best);
  }

  lemma ScoredInUnit(cohort: seq<Match>)
    ensures forall k :: 0 <= k < |cohort| ==> InUnit(ScoreCohort(cohort)[k].nbi)
  {
  }

  /** Rescaling keeps the order and range of the sorted indexes. */
  lemma FinalizeOrder(sorted: seq<Scored>, best: Option<real>)
    requires forall k :: 0 <= k < |sorted| ==> InUnit(sorted[k].nbi)
    requires forall a, b :: 0 <= a < b < |sorted| && sorted[a].nbi.None? ==> sorted[b].nbi.None?
    requires forall a, b :: 0 <= a < b < |sorted| && sorted[a].nbi.Some? && sorted[b].nbi.Some? ==>
              sorted[a].nbi.value >= sorted[b].nbi.value
    ensures var r := Finalize(sorted, best);
      forall a, b :: 0 <= a < b < |r| && r[a].scored.nbi.None? ==> r[b].scored.nbi.None?
    ensures var r := Finalize(sorted, best);
      forall a, b :: 0 <= a < b < |r| && r[a].scored.nbi.Some? && r[b].scored.nbi.Some? ==>
        r[a].scored.nbi.value >= r[b].scored.nbi.value
    ensures var r := Finalize(sorted, best);
      forall k :: 0 <= k < |r| && r[k].scored.nbi.Some? ==> 0.0 <= r[k].scored.nbi.value <= 1.0
  {
  }

  /** Every rescaled row carries the tags of its own features. */
  lemma FinalizeTags(sorted: seq<Scored>, best: Option<real>)
    ensures var r := Finalize(sorted, best);
      forall k :: 0 <= k < |r| ==> r[k].dramaTags == TagDrama(r[k].scored.features, r[k].scored.norms.duration)
  {
  }

  /** Rescaling keeps the sorted rows, maps every index into [0, 100], and the best to 100. */
  lemma FinalizeFacts(sorted: seq<Scored>, best: Option<real>)
    requires forall k :: 0 <= k < |sorted| ==> InUnit(sorted[k].nbi)
    requires best == MaxPresent(Indices(sorted))
    ensures Scoreds(Finalize(sorted, best)) == sorted
    ensures forall k :: 0 <= k < |sorted| && Finalize(sorted, best)[k].nbi100.Some? ==>
              0.0 <= Finalize(sorted, best)[k].nbi100.value <= 100.0
    ensures |sorted| > 0 && sorted[0].nbi == best && best.Some? && best.value > 0.0 ==>
              Finalize(sorted, best)[0].nbi100 == Some(100.0)
  {
    var r := Finalize(sorted, best);
    assert Scoreds(r) == sorted;
    forall k | 0 <= k < |sorted| && r[k].nbi100.Some?
      ensures 0.0 <= r[k].nbi100.value <= 100.0
    {
      if best.Some? && best.value > 0.0 {
        assert Indices(sorted)[k] == sorted[k].nbi;
      }
    }
  }

  /** The rescaled index and the drama tags of every sorted row. */
  function Finalize(sorted: seq<Scored>, best: Option<real>): (r: seq<Nailbiter>)
    ensures |r| == |sorted|
    ensures forall k :: 0 <= k < |r| ==> r[k].scored == sorted[k] && r[k].nbi100 == Scale(sorted[k].nbi, best)
    ensures forall k :: 0 <= k < |r| ==> r[k].dramaTags == TagDrama(sorted[k].features, sorted[k].norms.duration)
  {
    seq(|sorted|, k requires 0 <= k < |sorted| =>
      Nailbiter(sorted[k], Scale(sorted[k].nbi, best), TagDrama(sorted[k].features, sorted[k].norms.duration)))
  }

  function Scoreds(xs: seq<Nailbiter>): (r: seq<Scored>)
    ensures |r| == |xs| && forall k :: 0 <= k < |xs| ==> r[k] == xs[k].scored
  {
    seq(|xs|, k requires 0 <= k < |xs| => xs[k].scored)
  }

  /** What the sort by `NbiKey` gives: present indexes non-increasing, missing ones last, and the first the best. */
  lemma SortedOrder(scored: seq<Scored>, perm: seq<nat>, sorted: seq<Scored>, best: Option<real>)
    requires StableDescending(scored, NbiKey, perm, sorted)
    requires forall k :: 0 <= k < |scored| ==> InUnit(scored[k].nbi)
    requires best == MaxPresent(Indices(sorted))
    ensures forall k :: 0 <= k < |sorted| ==> InUnit(sorted[k].nbi)
    ensures forall a, b :: 0 <= a < b < |sorted| && sorted[a].nbi.None? ==> sorted[b].nbi.None?
    ensures forall a, b :: 0 <= a < b < |sorted| && sorted[a].nbi.Some? && sorted[b].nbi.Some? ==>
              sorted[a].nbi.value >= sorted[b].nbi.value
    ensures |sorted| > 0 && sorted[0].nbi.Some? ==> best == sorted[0].nbi
  {
  }
}
