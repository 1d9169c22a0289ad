/**
 * `build_head_to_head_matrix` of aggregations/base_metrics.py: one record per unordered pair
 * of players, keyed by the pair in sorted order, counting their meetings, who won them and
 * on which of the four surfaces.
 */
module HeadToHead {
  import opened Wrappers
  import opened Matches
  import opened Ordering

  /** `tuple(sorted([a, b]))`. */
  function Key(a: string, b: string): (k: (string, string))
    ensures k == (a, b) || k == (b, a)
    ensures !StrLt(k.1, k.0)
  {
    if StrLt(b, a) then StrLtAsymmetric(b, a); (b, a) else (a, b)
  }

  /** The pair is keyed the same way whoever won. */
  lemma KeySymmetric(a: string, b: string)
    ensures Key(a, b) == Key(b, a)
  {
    if a != b {
      StrLtTotal(a, b);
      if StrLt(a, b) {
        StrLtAsymmetric(a, b);
      } else {
        StrLtAsymmetric(b, a);
      }
    }
  }

  /** Meetings on one surface and how each player of the pair fared. */
  datatype Split = Split(total: nat, p1Wins: nat, p2Wins: nat)

  /** One head-to-head row. */
  datatype Record = Record(
    player1: string, player2: string, total: nat, p1Wins: nat, p2Wins: nat,
    hard: Split, clay: Split, grass: Split, carpet: Split)

  const Empty := Split(0, 0, 0)

  function NewRecord(k: (string, string)): Record
  {
    Record(k.0, k.1, 0, 0, 0, Empty, Empty, Empty, Empty)
  }

  predicate SplitOk(s: Split) { s.total == s.p1Wins + s.p2Wins }

  /** The counting invariants of a head-to-head row under its key. */
  predicate RecordOk(k: (string, string), r: Record)
  {
    && r.player1 == k.0 && r.player2 == k.1
    && r.total == r.p1Wins + r.p2Wins
    && SplitOk(r.hard) && SplitOk(r.clay) && SplitOk(r.grass) && SplitOk(r.carpet)
    && r.hard.total + r.clay.total + r.grass.total + r.carpet.total <= r.total
  }

  function Credit(s: Split, firstWon: bool): (r: Split)
    ensures SplitOk(s) ==> SplitOk(r)
  {
    if firstWon then Split(s.total + 1, s.p1Wins + 1, s.p2Wins) else Split(s.total + 1, s.p1Wins, s.p2Wins + 1)
  }

  /**
   * One meeting added to the pair's row: the total, the winner's side, and the surface
   * bucket when the surface is Hard, Clay, Grass or Carpet.
   */
  function Tally(r: Record, winner: string, surface: Option<string>): (r': Record)
    ensures r'.player1 == r.player1 && r'.player2 == r.player2
    ensures r'.total == r.total + 1
    ensures r'.p1Wins == r.p1Wins + (if winner == r.player1 then 1 else 0)
    ensures r'.p2Wins == r.p2Wins + (if winner == r.player1 then 0 else 1)
    ensures RecordOk((r.player1, r.player2), r) ==> RecordOk((r.player1, r.player2), r')
  {
    var first := winner == r.player1;
    var r1 := if first then r.(total := r.total + 1, p1Wins := r.p1Wins + 1)
              else r.(total := r.total + 1, p2Wins := r.p2Wins + 1);
    if surface == Some("Hard") then r1.(hard := Credit(r.hard, first))
    else if surface == Some("Clay") then r1.(clay := Credit(r.clay, first))
    else if surface == Some("Grass") then r1.(grass := Credit(r.grass, first))
    else if surface == Some("Carpet") then r1.(carpet := Credit(r.carpet, first))
    else r1
  }

  /** The key of a row both of whose names are present. */
  function KeyOf(m: Match): (string, string)
    requires Counted(m)
  {
    Key(m.winnerName.value, m.loserName.value)
  }

  /** One row of the loop: skipped without both names, otherwise tallied under its pair. */
  function AddRow(h2h: map<(string, string), Record>, m: Match): map<(string, string), Record>
  {
    if !Counted(m) then h2h
    else
      var k := KeyOf(m);
      var r := if k in h2h then h2h[k] else NewRecord(k);
      h2h[k := Tally(r, m.winnerName.value, m.surface)]
  }

  /** The matrix after the rows `rows`, in order. */
  function Matrix(rows: seq<Match>): map<(string, string), Record>
  {
    if |rows| == 0 then map[] else AddRow(Matrix(rows[..|rows| - 1]), rows[|rows| - 1])
  }

  /** `build_head_to_head_matrix`, one row at a time as the source loops. */
  method BuildHeadToHeadMatrix(df: seq<Match>) returns (h2h: map<(string, string), Record>)
    ensures h2h == Matrix(df)
    ensures forall k :: k in h2h ==> RecordOk(k, h2h[k]) && !StrLt(k.1, k.0)
  {
    h2h := map[];
    var i := 0;
    while i < |df|
      invariant 0 <= i <= |df|
      invariant h2h == Matrix(df[..i])
    {
      var m := df[i];
      if m.winnerName.Some? && m.loserName.Some? {
        var key := Key(m.winnerName.value, m.loserName.value);
        if key !in h2h {
          h2h := h2h[key := NewRecord(key)];
        }
        h2h := h2h[key := Tally(h2h[key], m.winnerName.value, m.surface)];
      }
      assert df[..i + 1][..i] == df[..i];
      i := i + 1;
    }
    assert df[..|df|] == df;
    MatrixOk(df);
  }

  /**
   * Every row of the matrix keeps its counting invariants: the two players' wins add up
   * to the meetings, on each surface too, and the surface meetings never exceed the total.
   */
  lemma {:induction false} MatrixOk(rows: seq<Match>)
    ensures forall k :: k in Matrix(rows) ==> RecordOk(k, Matrix(rows)[k]) && !StrLt(k.1, k.0)
  {
    if |rows| > 0 {
      MatrixOk(rows[..|rows| - 1]);
    }
  }

  /** The row is a meeting of the pair `k`. */
  predicate Meets(m: Match, k: (string, string))
  {
    Counted(m) && KeyOf(m) == k
  }

  /** The row is a meeting of the pair `k` that the first player of the pair won. */
  predicate FirstWon(m: Match, k: (string, string))
  {
    Meets(m, k) && m.winnerName.value == k.0
  }

  predicate SecondWon(m: Match, k: (string, string))
  {
    Meets(m, k) && m.winnerName.value != k.0
  }

  function SplitFor(rows: seq<Match>, k: (string, string), surface: string): Split
  {
    Split(Count(rows, (m: Match) => Meets(m, k) && m.surface == Some(surface)),
          Count(rows, (m: Match) => FirstWon(m, k) && m.surface == Some(surface)),
          Count(rows, (m: Match) => SecondWon(m, k) && m.surface == Some(surface)))
  }

  /** The row of pair `k` written as counts over the whole table. */
  function Counts(rows: seq<Match>, k: (string, string)): Record
  {
    Record(k.0, k.1,
           Count(rows, (m: Match) => Meets(m, k)),
           Count(rows, (m: Match) => FirstWon(m, k)),
           Count(rows, (m: Match) => SecondWon(m, k)),
           SplitFor(rows, k, "Hard"), SplitFor(rows, k, "Clay"),
           SplitFor(rows, k, "Grass"), SplitFor(rows, k, "Carpet"))
  }

  /** The pairs that met in the table. */
  function Pairs(rows: seq<Match>): set<(string, string)>
  {
    set m | m in rows && Counted(m) :: KeyOf(m)
  }

  /** One more row changes only its own pair's counts, as `Tally` does. */
  lemma CountsSnoc(rows: seq<Match>, m: Match, k: (string, string))
    ensures Counts(rows + [m], k)
         == if Meets(m, k) then Tally(Counts(rows, k), m.winnerName.value, m.surface) else Counts(rows, k)
  {
    CountSnoc(rows, m, (m: Match) => Meets(m, k));
    CountSnoc(rows, m, (m: Match) => FirstWon(m, k));
    CountSnoc(rows, m, (m: Match) => SecondWon(m, k));
    SplitSnoc(rows, m, k, "Hard");
    SplitSnoc(rows, m, k, "Clay");
    SplitSnoc(rows, m, k, "Grass");
    SplitSnoc(rows, m, k, "Carpet");
  }

  lemma SplitSnoc(rows: seq<Match>, m: Match, k: (string, string), surface: string)
    ensures SplitFor(rows + [m], k, surface)
         == if Meets(m, k) && m.surface == Some(surface) then Credit(SplitFor(rows, k, surface), m.winnerName.value == k.0)
            else SplitFor(rows, k, surface)
  {
    CountSnoc(rows, m, (m: Match) => Meets(m, k) && m.surface == Some(surface));
    CountSnoc(rows, m, (m: Match) => FirstWon(m, k) && m.surface == Some(surface));
    CountSnoc(rows, m, (m: Match) => SecondWon(m, k) && m.surface == Some(surface));
  }

  /**
   * The matrix holds exactly the pairs that met, and each pair's row is a count of the
   * table's rows naming that pair.
   */
  lemma {:induction false} MatrixCounts(rows: seq<Match>)
    ensures Matrix(rows).Keys == Pairs(rows)
    ensures forall k :: k in Matrix(rows) ==> Matrix(rows)[k] == Counts(rows, k)
  {
    if |rows| > 0 {
      var init, m := rows[..|rows| - 1], rows[|rows| - 1];
      MatrixCounts(init);
      assert rows == init + [m];
      assert forall x :: x in rows <==> x in init || x == m;
      assert Pairs(rows) == Pairs(init) + (if Counted(m) then {KeyOf(m)} else {});
      forall k | k in Matrix(rows)
        ensures Matrix(rows)[k] == Counts(rows, k)
      {
        CountsSnoc(init, m, k);
        if k !in Matrix(init) {
          CountsAbsent(init, k);
        }
      }
    }
  }

  /** A pair that never met counts nothing. */
  lemma {:induction false} CountsAbsent(rows: seq<Match>, k: (string, string))
    requires k !in Pairs(rows)
    ensures Counts(rows, k) == NewRecord(k)
  {
    if |rows| > 0 {
      var init := rows[..|rows| - 1];
      assert forall x :: x in init ==> x in rows;
      CountsAbsent(init, k);
    }
  }

  /** The matrix does not depend on the order of the rows. */
  lemma RowOrderIrrelevant(xs: seq<Match>, ys: seq<Match>)
    requires multiset(xs) == multiset(ys)
    ensures Matrix(xs) == Matrix(ys)
  {
    var a, b := Matrix(xs), Matrix(ys);
    MatrixCounts(xs);
    MatrixCounts(ys);
    PairsPermutation(xs, ys);
    assert a.Keys == b.Keys;
    forall k | k in a
      ensures a[k] == b[k]
    {
      CountsPermutation(xs, ys, k);
    }
    MapsEqual(a, b);
  }

  lemma MapsEqual<K, V>(a: map<K, V>, b: map<K, V>)
    requires a.Keys == b.Keys && forall k :: k in a ==> a[k] == b[k]
    ensures a == b
  {
  }

  lemma PairsPermutation(xs: seq<Match>, ys: seq<Match>)
    requires multiset(xs) == multiset(ys)
    ensures Pairs(xs) == Pairs(ys)
  {
    forall m ensures m in xs <==> m in ys {
      assert m in xs <==> m in multiset(xs);
      assert m in ys <==> m in multiset(ys);
    }
  }

  lemma CountsPermutation(xs: seq<Match>, ys: seq<Match>, k: (string, string))
    requires multiset(xs) == multiset(ys)
    ensures Counts(xs, k) == Counts(ys, k)
  {
    CountPermutation(xs, ys, (m: Match) => Meets(m, k));
    CountPermutation(xs, ys, (m: Match) => FirstWon(m, k));
    CountPermutation(xs, ys, (m: Match) => SecondWon(m, k));
    SplitPermutation(xs, ys, k, "Hard");
    SplitPermutation(xs, ys, k, "Clay");
    SplitPermutation(xs, ys, k, "Grass");
    SplitPermutation(xs, ys, k, "Carpet");
  }

  lemma SplitPermutation(xs: seq<Match>, ys: seq<Match>, k: (string, string), surface: string)
    requires multiset(xs) == multiset(ys)
    ensures SplitFor(xs, k, surface) == SplitFor(ys, k, surface)
  {
    CountPermutation(xs, ys, (m: Match) => Meets(m, k) && m.surface == Some(surface));
    CountPermutation(xs, ys, (m: Match) => FirstWon(m, k) && m.surface == Some(surface));
    CountPermutation(xs, ys, (m: Match) => SecondWon(m, k) && m.surface == Some(surface));
  }
}
