/**
 * The match table every aggregation reads (one row per match of the Jeff Sackmann style
 * CSV files), and the row filters and counts the aggregations build on it.
 * A missing cell is `None`; `tourney_date` is the integer yyyymmdd.
 */
module Matches {
  import opened Wrappers

  datatype Match = Match(
    tourneyName: Option<string>,
    tourneyLevel: Option<string>,
    round: Option<string>,
    surface: Option<string>,
    tourneyDate: nat,
    bestOf: Option<int>,
    winnerId: Option<int>,
    loserId: Option<int>,
    winnerName: Option<string>,
    loserName: Option<string>,
    winnerIoc: Option<string>,
    loserIoc: Option<string>,
    winnerRank: Option<int>,
    loserRank: Option<int>,
    winnerAge: Option<real>,
    score: Option<string>,
    minutes: Option<real>,
    wBpSaved: Option<real>,
    wBpFaced: Option<real>,
    lBpSaved: Option<real>,
    lBpFaced: Option<real>)

  /** `int(str(date)[:4])`: the number the first four decimal digits of `date` spell. */
  function YearOf(date: nat): (y: nat)
    ensures y <= date
    ensures date < 10000 ==> y == date
    ensures date >= 1000 ==> 1000 <= y < 10000
  {
    if date < 10000 then date else YearOf(date / 10)
  }

  /** For a yyyymmdd date the year is the date divided by 10000. */
  lemma {:induction false} YearOfDate(date: nat)
    requires 10000000 <= date < 100000000
    ensures YearOf(date) == date / 10000
  {
    assert YearOf(date) == YearOf(date / 10);
    assert YearOf(date / 10) == YearOf(date / 100);
    assert YearOf(date / 100) == YearOf(date / 1000);
    assert YearOf(date / 1000) == YearOf(date / 10000);
  }

  /** A later yyyymmdd date never has an earlier year. */
  lemma YearMonotone(d1: nat, d2: nat)
    requires 10000000 <= d1 <= d2 < 100000000
    ensures YearOf(d1) <= YearOf(d2)
  {
    YearOfDate(d1);
    YearOfDate(d2);
  }

  /** `df[mask]`: the rows `keep` accepts, in their original order. */
  function Filter<T(==,!new)>(xs: seq<T>, keep: T -> bool): (r: seq<T>)
    ensures |r| <= |xs|
    ensures forall x :: x in r <==> x in xs && keep(x)
  {
    if |xs| == 0 then []
    else
      var init := Filter(xs[..|xs| - 1], keep);
      assert forall x :: x in xs <==> x in xs[..|xs| - 1] || x == xs[|xs| - 1];
      if keep(xs[|xs| - 1]) then init + [xs[|xs| - 1]] else init
  }

  /** Filtering twice keeps exactly the rows both masks accept. */
  lemma {:induction false} FilterTwice<T(!new)>(xs: seq<T>, p: T -> bool, q: T -> bool, both: T -> bool)
    requires forall x :: both(x) == (p(x) && q(x))
    ensures Filter(Filter(xs, p), q) == Filter(xs, both)
  {
    if |xs| > 0 {
      var init := xs[..|xs| - 1];
      var last := xs[|xs| - 1];
      FilterTwice(init, p, q, both);
      if p(last) {
        var f := Filter(init, p);
        assert Filter(xs, p) == f + [last];
        assert (f + [last])[..|f|] == f;
      }
    }
  }

  /** A mask accepting every row of `xs` leaves it unchanged. */
  lemma {:induction false} FilterAll<T(!new)>(xs: seq<T>, keep: T -> bool)
    requires forall k :: 0 <= k < |xs| ==> keep(xs[k])
    ensures Filter(xs, keep) == xs
  {
    if |xs| > 0 {
      FilterAll(xs[..|xs| - 1], keep);
      assert xs[..|xs| - 1] + [xs[|xs| - 1]] == xs;
    }
  }

  /** `mask.sum()`: how many rows `keep` accepts. */
  function Count<T(==,!new)>(xs: seq<T>, keep: T -> bool): (n: nat)
    ensures n <= |xs|
  {
    |Filter(xs, keep)|
  }

  /** One more row adds one to the count exactly when the mask accepts it. */
  lemma CountSnoc<T(!new)>(xs: seq<T>, x: T, keep: T -> bool)
    ensures Count(xs + [x], keep) == Count(xs, keep) + (if keep(x) then 1 else 0)
  {
    assert (xs + [x])[..|xs|] == xs;
  }

  /** A mask that accepts at least the rows another accepts counts at least as many. */
  lemma {:induction false} CountMonotone<T(!new)>(xs: seq<T>, p: T -> bool, q: T -> bool)
    requires forall x :: p(x) ==> q(x)
    ensures Count(xs, p) <= Count(xs, q)
  {
    if |xs| > 0 {
      CountMonotone(xs[..|xs| - 1], p, q);
    }
  }

  /** Counting over a concatenation adds the counts of the parts. */
  lemma {:induction false} CountAppend<T(!new)>(xs: seq<T>, ys: seq<T>, keep: T -> bool)
    ensures Count(xs + ys, keep) == Count(xs, keep) + Count(ys, keep)
    decreases |ys|
  {
    if |ys| > 0 {
      var ys', y := ys[..|ys| - 1], ys[|ys| - 1];
      assert ys == ys' + [y];
      assert xs + ys == (xs + ys') + [y];
      CountAppend(xs, ys', keep);
      CountSnoc(xs + ys', y, keep);
      CountSnoc(ys', y, keep);
    } else {
      assert xs + ys == xs;
    }
  }

  /** A row counts once: `keep` splits the rows into those it accepts and the rest. */
  lemma {:induction false} CountSplit<T(!new)>(xs: seq<T>, keep: T -> bool)
    ensures Count(xs, keep) + Count(xs, x => !keep(x)) == |xs|
  {
    if |xs| > 0 {
      CountSplit(xs[..|xs| - 1], keep);
    }
  }

  /** Counting passes skip a row that lacks a winner or a loser name. */
  predicate Counted(m: Match)
  {
    m.winnerName.Some? && m.loserName.Some?
  }

  /** Counting is blind to row order: a reordered table gives the same count. */
  lemma {:induction false} CountPermutation<T(!new)>(xs: seq<T>, ys: seq<T>, keep: T -> bool)
    requires multiset(xs) == multiset(ys)
    ensures Count(xs, keep) == Count(ys, keep)
    decreases |xs|
  {
    if |xs| == 0 {
      assert |ys| == |multiset(ys)| == 0;
    } else {
      var init, x := xs[..|xs| - 1], xs[|xs| - 1];
      assert xs == init + [x];
      assert x in multiset(ys);
      var j :| 0 <= j < |ys| && ys[j] == x;
      var rest := ys[..j] + ys[j + 1..];
      assert ys == ys[..j] + [x] + ys[j + 1..];
      calc {
        multiset(init) + multiset{x};
        multiset(xs);
        multiset(ys[..j]) + multiset{x} + multiset(ys[j + 1..]);
        multiset(rest) + multiset{x};
      }
      assert multiset(init) == multiset(init) + multiset{x} - multiset{x};
      assert multiset(rest) == multiset(rest) + multiset{x} - multiset{x};
      CountPermutation(init, rest, keep);
      CountAppend(init, [x], keep);
      CountAppend(ys[..j], [x], keep);
      CountAppend(ys[..j] + [x], ys[j + 1..], keep);
      CountAppend(ys[..j], ys[j + 1..], keep);
    }
  }

  /** Splitting the rows one mask accepts between two disjoint masks splits their count. */
  lemma {:induction false} CountPartition<T(!new)>(xs: seq<T>, keep: T -> bool, a: T -> bool, b: T -> bool)
    requires forall x :: keep(x) == (a(x) || b(x)) && !(a(x) && b(x))
    ensures Count(xs, keep) == Count(xs, a) + Count(xs, b)
  {
    if |xs| > 0 {
      CountPartition(xs[..|xs| - 1], keep, a, b);
    }
  }

  /** The first row `keep` accepts, in row order: what a flag set once and never overwritten records. */
  function First<T(==)>(rows: seq<T>, keep: T -> bool): (r: Option<T>)
    ensures r.None? <==> forall k :: 0 <= k < |rows| ==> !keep(rows[k])
    ensures r.Some? ==> exists i :: 0 <= i < |rows| && rows[i] == r.value && keep(r.value)
                          && forall j :: 0 <= j < i ==> !keep(rows[j])
  {
    if |rows| == 0 then None
    else
      var init := rows[..|rows| - 1];
      var f := First(init, keep);
      if f.Some? then
        var i :| 0 <= i < |init| && init[i] == f.value && keep(f.value)
                 && forall j :: 0 <= j < i ==> !keep(init[j]);
        assert rows[i] == f.value;
        f
      else if keep(rows[|rows| - 1]) then Some(rows[|rows| - 1])
      else None
  }

  /** `series.sum()` of a count column. */
  function Total<T>(xs: seq<T>, f: T -> nat): nat
  {
    if |xs| == 0 then 0 else Total(xs[..|xs| - 1], f) + f(xs[|xs| - 1])
  }

  /** A column of counts sums to zero exactly when every row holds zero. */
  lemma {:induction false} TotalZero<T>(xs: seq<T>, f: T -> nat)
    ensures Total(xs, f) == 0 <==> forall k :: 0 <= k < |xs| ==> f(xs[k]) == 0
  {
    if |xs| > 0 {
      TotalZero(xs[..|xs| - 1], f);
      assert forall k :: 0 <= k < |xs| - 1 ==> xs[..|xs| - 1][k] == xs[k];
    }
  }

  /** `player` is named in the row, as winner or as loser. */
  predicate Involves(m: Match, player: string)
  {
    m.winnerName == Some(player) || m.loserName == Some(player)
  }
}
