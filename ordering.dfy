/**
 * Orders used by the aggregations: Python's code-point order on strings, the sorted
 * distinct keys a pandas `groupby` walks through, and the stable descending sort of
 * `list.sort(key=..., reverse=True)`, and the first value of a `Series.mode()`.
 */
module Ordering {
  import opened Wrappers

  /** Python's `a < b` on strings: lexicographic by code point, a proper prefix first. */
  predicate StrLt(a: string, b: string)
    decreases |a|
  {
    if |a| == 0 then |b| > 0
    else |b| > 0 && (a[0] < b[0] || (a[0] == b[0] && StrLt(a[1..], b[1..])))
  }

  lemma {:induction false} StrLtIrreflexive(a: string)
    ensures !StrLt(a, a)
    decreases |a|
  {
    if |a| > 0 { StrLtIrreflexive(a[1..]); }
  }

  lemma {:induction false} StrLtTransitive(a: string, b: string, c: string)
    requires StrLt(a, b) && StrLt(b, c)
    ensures StrLt(a, c)
    decreases |a|
  {
    if |a| > 0 && a[0] == b[0] && b[0] == c[0] {
      StrLtTransitive(a[1..], b[1..], c[1..]);
    }
  }

  lemma StrLtAsymmetric(a: string, b: string)
    requires StrLt(a, b)
    ensures !StrLt(b, a)
  {
    if StrLt(b, a) {
      StrLtTransitive(a, b, a);
      StrLtIrreflexive(a);
    }
  }

  lemma {:induction false} StrLtTotal(a: string, b: string)
    requires a != b
    ensures StrLt(a, b) || StrLt(b, a)
    decreases |a|
  {
    if |a| > 0 && |b| > 0 && a[0] == b[0] {
      assert a == [a[0]] + a[1..] && b == [b[0]] + b[1..];
      StrLtTotal(a[1..], b[1..]);
    }
  }

  /** `lt` is a strict total order. */
  ghost predicate StrictTotal<T(!new)>(lt: (T, T) -> bool)
  {
    (forall a :: !lt(a, a))
    && (forall a, b, c :: lt(a, b) && lt(b, c) ==> lt(a, c))
    && (forall a, b :: a != b ==> lt(a, b) || lt(b, a))
  }

  lemma StrLtStrictTotal()
    ensures StrictTotal(StrLt)
  {
    forall a ensures !StrLt(a, a) { StrLtIrreflexive(a); }
    forall a, b, c | StrLt(a, b) && StrLt(b, c) ensures StrLt(a, c) { StrLtTransitive(a, b, c); }
    forall a, b | a != b ensures StrLt(a, b) || StrLt(b, a) { StrLtTotal(a, b); }
  }

  /** Strictly increasing under `lt`, hence free of duplicates. */
  predicate Increasing<T>(xs: seq<T>, lt: (T, T) -> bool)
  {
    forall i, j :: 0 <= i < j < |xs| ==> lt(xs[i], xs[j])
  }

  /** Adds `x` to an increasing sequence, keeping it increasing and adding nothing else. */
  function Insert<T(==,!new)>(xs: seq<T>, x: T, lt: (T, T) -> bool): (r: seq<T>)
    requires StrictTotal(lt) && Increasing(xs, lt)
    ensures Increasing(r, lt)
    ensures forall e :: e in r <==> e in xs || e == x
  {
    if |xs| == 0 then [x]
    else if x == xs[0] then xs
    else if lt(x, xs[0]) then [x] + xs
    else
      var tail := Insert(xs[1..], x, lt);
      assert forall e :: e in xs <==> e == xs[0] || e in xs[1..];
      assert lt(xs[0], x);
      assert forall k :: 0 <= k < |tail| ==> lt(xs[0], tail[k]) by {
        forall k | 0 <= k < |tail| ensures lt(xs[0], tail[k]) {
          if tail[k] != x {
            assert tail[k] in tail;
            assert tail[k] in xs[1..];
            var m :| 0 <= m < |xs[1..]| && xs[1..][m] == tail[k];
            assert lt(xs[0], xs[m + 1]);
          }
        }
      }
      [xs[0]] + tail
  }

  /**
   * The distinct values of `xs` in increasing order: the keys a pandas `groupby`
   * visits (or `sorted(set(xs))`).
   */
  function SortedDistinct<T(==,!new)>(xs: seq<T>, lt: (T, T) -> bool): (r: seq<T>)
    requires StrictTotal(lt)
    ensures Increasing(r, lt)
    ensures forall e :: e in r <==> e in xs
  {
    if |xs| == 0 then []
    else
      assert forall e :: e in xs <==> e in xs[..|xs| - 1] || e == xs[|xs| - 1];
      Insert(SortedDistinct(xs[..|xs| - 1], lt), xs[|xs| - 1], lt)
  }

  /** Integer `<` is a strict total order. */
  lemma IntLtStrictTotal()
    ensures StrictTotal((a: int, b: int) => a < b)
  {
  }

  /** `perm` lists every position below `n` exactly once. */
  predicate IsPermutation(perm: seq<nat>, n: nat)
  {
    |perm| == n
    && (forall k :: 0 <= k < n ==> perm[k] < n)
    && (forall a, b :: 0 <= a < b < n ==> perm[a] != perm[b])
  }

  /** `ys` is `xs` reordered by the permutation `perm`, in whatever order. */
  predicate Reordered<T(==)>(xs: seq<T>, perm: seq<nat>, ys: seq<T>)
  {
    IsPermutation(perm, |xs|) && |ys| == |xs| && forall k :: 0 <= k < |ys| ==> ys[k] == xs[perm[k]]
  }

  /**
   * `ys` is `xs` reordered by `perm` so that keys never increase and items with equal keys
   * keep their original order: the one outcome of a stable descending sort.
   */
  predicate StableDescending<T(==)>(xs: seq<T>, key: T -> real, perm: seq<nat>, ys: seq<T>)
  {
    IsPermutation(perm, |xs|) && |ys| == |xs|
    && (forall k :: 0 <= k < |ys| ==> ys[k] == xs[perm[k]])
    && (forall a, b :: 0 <= a < b < |ys| ==> key(ys[a]) >= key(ys[b]))
    && (forall a, b :: 0 <= a < b < |ys| && key(ys[a]) == key(ys[b]) ==> perm[a] < perm[b])
  }

  /** Position `i` goes before position `j`: a larger key, or an equal key met earlier. */
  predicate Before<T>(xs: seq<T>, key: T -> real, i: nat, j: nat)
    requires i < |xs| && j < |xs|
  {
    key(xs[i]) > key(xs[j]) || (key(xs[i]) == key(xs[j]) && i < j)
  }

  /** Python's `sorted(xs, key=key, reverse=True)` by insertion, positions tracked in `perm`. */
  method StableSortDescending<T(==)>(xs: seq<T>, key: T -> real) returns (perm: seq<nat>, ys: seq<T>)
    ensures StableDescending(xs, key, perm, ys)
  {
    perm := [];
    var i := 0;
    while i < |xs|
      invariant 0 <= i <= |xs| && |perm| == i
      invariant forall k :: 0 <= k < i ==> perm[k] < i
      invariant forall a, b :: 0 <= a < b < i ==> Before(xs, key, perm[a], perm[b])
    {
      var pos := 0;
      while pos < |perm| && key(xs[perm[pos]]) >= key(xs[i])
        invariant 0 <= pos <= |perm|
        invariant forall k :: 0 <= k < pos ==> key(xs[perm[k]]) >= key(xs[i])
      {
        pos := pos + 1;
      }
      assert forall k :: pos <= k < |perm| ==> key(xs[perm[k]]) < key(xs[i]) by {
        forall k | pos <= k < |perm| ensures key(xs[perm[k]]) < key(xs[i]) {
          if k > pos { assert Before(xs, key, perm[pos], perm[k]); }
        }
      }
      InsertKeepsOrder(xs, key, perm, pos, i);
      perm := perm[..pos] + [i] + perm[pos..];
      i := i + 1;
    }
    ys := seq(|xs|, k requires 0 <= k < |xs| => xs[perm[k]]);
    OrderIsStable(xs, key, perm, ys);
  }

  /** Inserting the next position after every key at least as large keeps the order. */
  lemma InsertKeepsOrder<T>(xs: seq<T>, key: T -> real, perm: seq<nat>, pos: nat, i: nat)
    requires i < |xs| && |perm| == i && pos <= i
    requires forall k :: 0 <= k < i ==> perm[k] < i
    requires forall a, b :: 0 <= a < b < i ==> Before(xs, key, perm[a], perm[b])
    requires forall k :: 0 <= k < pos ==> key(xs[perm[k]]) >= key(xs[i])
    requires forall k :: pos <= k < i ==> key(xs[perm[k]]) < key(xs[i])
    ensures var p := perm[..pos] + [i] + perm[pos..];
      && |p| == i + 1
      && (forall k :: 0 <= k < i + 1 ==> p[k] < i + 1)
      && (forall a, b :: 0 <= a < b < i + 1 ==> Before(xs, key, p[a], p[b]))
  {
    var p := perm[..pos] + [i] + perm[pos..];
    assert forall k :: 0 <= k < pos ==> p[k] == perm[k];
    assert p[pos] == i;
    assert forall k :: pos < k < i + 1 ==> p[k] == perm[k - 1];
  }

  /** Positions in `Before` order give the outcome of a stable descending sort. */
  lemma OrderIsStable<T>(xs: seq<T>, key: T -> real, perm: seq<nat>, ys: seq<T>)
    requires |perm| == |xs| == |ys|
    requires forall k :: 0 <= k < |xs| ==> perm[k] < |xs| && ys[k] == xs[perm[k]]
    requires forall a, b :: 0 <= a < b < |xs| ==> Before(xs, key, perm[a], perm[b])
    ensures StableDescending(xs, key, perm, ys)
  {
  }

  function Freq<T(==)>(xs: seq<T>, x: T): nat { multiset(xs)[x] }

  /** `x` comes before `y` in `Series.mode()`: more frequent, or as frequent and smaller. */
  predicate Ahead<T(==)>(xs: seq<T>, lt: (T, T) -> bool, x: T, y: T)
  {
    Freq(xs, x) > Freq(xs, y) || (Freq(xs, x) == Freq(xs, y) && lt(x, y))
  }

  /** The candidate nothing among `cands` comes before. */
  function Leader<T(==,!new)>(cands: seq<T>, xs: seq<T>, lt: (T, T) -> bool): (r: T)
    requires StrictTotal(lt) && |cands| > 0
    ensures r in cands
    ensures forall k :: 0 <= k < |cands| ==> !Ahead(xs, lt, cands[k], r)
  {
    if |cands| == 1 then cands[0]
    else
      var init, x := cands[..|cands| - 1], cands[|cands| - 1];
      var best := Leader(init, xs, lt);
      if Ahead(xs, lt, x, best) then
        assert forall k :: 0 <= k < |init| ==> !Ahead(xs, lt, init[k], x) by {
          forall k | 0 <= k < |init| ensures !Ahead(xs, lt, init[k], x) {
            assert !Ahead(xs, lt, init[k], best);
          }
        }
        x
      else best
  }

  /**
   * `Series.mode()[0]`: the most frequent value, the smallest under `lt` among equally
   * frequent ones; `None` for no values, where the source's `[0]` raises.
   */
  function Mode<T(==,!new)>(xs: seq<T>, lt: (T, T) -> bool): (r: Option<T>)
    requires StrictTotal(lt)
    ensures r.None? <==> |xs| == 0
    ensures r.Some? ==> r.value in xs
    ensures r.Some? ==> forall x :: x in xs ==> Freq(xs, x) <= Freq(xs, r.value)
    ensures r.Some? ==> forall x :: x in xs && x != r.value && Freq(xs, x) == Freq(xs, r.value) ==> lt(r.value, x)
  {
    if |xs| == 0 then None
    else
      var m := Leader(xs, xs, lt);
      assert forall x :: x in xs ==> !Ahead(xs, lt, x, m) by {
        forall x | x in xs ensures !Ahead(xs, lt, x, m) {
          var k :| 0 <= k < |xs| && xs[k] == x;
        }
      }
      Some(m)
  }
}
