/** Character and string operations of the Python standard library that the analytics rely on. */
module Text {
  import opened Wrappers

  predicate IsDigit(c: char) { '0' <= c <= '9' }

  /** The value of a decimal digit (0 for any other character, which callers never pass). */
  function DigitValue(c: char): nat
  {
    if IsDigit(c) then (c as int) - ('0' as int) else 0
  }

  predicate AllDigits(s: string) { forall i :: 0 <= i < |s| ==> IsDigit(s[i]) }

  /** The number a run of decimal digits spells, most significant digit first (`int("0703") == 703`). */
  function NatOf(s: string): nat
  {
    NatOfPrefix(s, |s|)
  }

  /** The number the first `n` characters of `s` spell. */
  function NatOfPrefix(s: string, n: nat): nat
    requires n <= |s|
  {
    if n == 0 then 0 else 10 * NatOfPrefix(s, n - 1) + DigitValue(s[n - 1])
  }

  /** Only the first `n` characters matter. */
  lemma {:induction false} NatOfPrefixAgrees(s: string, t: string, n: nat)
    requires n <= |s| && n <= |t| && s[..n] == t[..n]
    ensures NatOfPrefix(s, n) == NatOfPrefix(t, n)
  {
    if n > 0 {
      assert s[n - 1] == s[..n][n - 1] == t[..n][n - 1] == t[n - 1];
      assert s[..n - 1] == s[..n][..n - 1];
      assert t[..n - 1] == t[..n][..n - 1];
      NatOfPrefixAgrees(s, t, n - 1);
    }
  }

  /** `p` occurs in `s` at position `i`. */
  predicate OccursAt(s: string, p: string, i: nat)
  {
    i + |p| <= |s| && s[i..i + |p|] == p
  }

  /** Python's `p in s`. */
  predicate Contains(s: string, p: string)
  {
    exists i :: 0 <= i <= |s| - |p| && OccursAt(s, p, i)
  }

  /** Python's `s.replace(p, "")`: occurrences are removed left to right, without overlapping. */
  function RemoveAll(s: string, p: string): (r: string)
    requires |p| > 0
    ensures |r| <= |s|
    decreases |s|
  {
    if |s| == 0 then []
    else if OccursAt(s, p, 0) then RemoveAll(s[|p|..], p)
    else [s[0]] + RemoveAll(s[1..], p)
  }

  /** When `p` does not occur in `s`, removing it leaves `s` as it was. */
  lemma {:induction false} RemoveAbsent(s: string, p: string)
    requires |p| > 0 && !Contains(s, p)
    ensures RemoveAll(s, p) == s
    decreases |s|
  {
    if |s| > 0 {
      assert !OccursAt(s, p, 0);
      forall i | 0 <= i <= |s[1..]| - |p|
        ensures !OccursAt(s[1..], p, i)
      {
        assert s[1..][i..i + |p|] == s[i + 1..i + 1 + |p|];
        assert !OccursAt(s, p, i + 1);
      }
      RemoveAbsent(s[1..], p);
    }
  }

  /** A string that lacks the first character of `p` does not contain `p`. */
  lemma LacksFirstChar(s: string, p: string)
    requires |p| > 0 && forall i :: 0 <= i < |s| ==> s[i] != p[0]
    ensures !Contains(s, p)
  {
    forall i | 0 <= i <= |s| - |p| ensures !OccursAt(s, p, i) {
      assert s[i..i + |p|][0] == s[i];
    }
  }

  /** The decimal digits of `n`, as `str(n)` writes them. */
  function NatStr(n: nat): (s: string)
    ensures |s| > 0 && AllDigits(s) && NatOf(s) == n
  {
    var d := ((n % 10) + ('0' as int)) as char;
    if n < 10 then
      assert NatOfPrefix([d], 1) == 10 * NatOfPrefix([d], 0) + DigitValue(d);
      [d]
    else
      var p := NatStr(n / 10);
      var s := p + [d];
      assert s[..|p|] == p[..|p|];
      NatOfPrefixAgrees(s, p, |p|);
      s
  }

  /** Where a known run of digits ends, `DigitRunEnd` ends. */
  lemma {:induction false} RunEndsAt(s: string, i: nat, j: nat)
    requires i <= j <= |s| && AllDigits(s[i..j]) && (j == |s| || !IsDigit(s[j]))
    ensures DigitRunEnd(s, i) == j
    decreases j - i
  {
    if i < j {
      assert s[i..j][0] == s[i];
      assert s[i + 1..j] == s[i..j][1..];
      RunEndsAt(s, i + 1, j);
    }
  }

  /** Python's `str.upper()` restricted to ASCII letters; other characters are kept. */
  function UpperAscii(s: string): (r: string)
    ensures |r| == |s|
    ensures forall i :: 0 <= i < |s| && !('a' <= s[i] <= 'z') ==> r[i] == s[i]
  {
    seq(|s|, i requires 0 <= i < |s| => if 'a' <= s[i] <= 'z' then (s[i] as int - 32) as char else s[i])
  }

  /** The end of the maximal run of digits that starts at `i` (`i` itself when `s[i]` is no digit). */
  function DigitRunEnd(s: string, i: nat): (j: nat)
    requires i <= |s|
    ensures i <= j <= |s|
    ensures j == |s| || !IsDigit(s[j])
    decreases |s| - i
  {
    if i < |s| && IsDigit(s[i]) then DigitRunEnd(s, i + 1) else i
  }

  /** Everything `DigitRunEnd` skips over is a digit. */
  lemma {:induction false} RunIsDigits(s: string, i: nat)
    requires i <= |s|
    ensures AllDigits(s[i..DigitRunEnd(s, i)])
    decreases |s| - i
  {
    if i < |s| && IsDigit(s[i]) {
      RunIsDigits(s, i + 1);
      var j := DigitRunEnd(s, i);
      forall y | 0 <= y < j - i ensures IsDigit(s[i..j][y]) {
        if y > 0 { assert s[i..j][y] == s[i + 1..j][y - 1]; }
      }
    }
  }

  /**
   * The characters Python's `str.isspace()` accepts, on which `str.split()` breaks a string:
   * the ASCII controls TAB to CR and FS to US, the space, NEL, NBSP, the Ogham space mark,
   * the typographic spaces U+2000 to U+200A, the line and paragraph separators, the narrow
   * no-break space, the medium mathematical space and the ideographic space.
   */
  predicate IsSpace(c: char)
  {
    ('\t' <= c <= '\r') || ('\U{1C}' <= c <= ' ')
    || c == '\U{85}' || c == '\U{A0}' || c == '\U{1680}'
    || ('\U{2000}' <= c <= '\U{200A}') || c == '\U{2028}' || c == '\U{2029}'
    || c == '\U{202F}' || c == '\U{205F}' || c == '\U{3000}'
  }

  /** A token of `split()`: non-empty and free of whitespace. */
  predicate IsWord(w: string)
  {
    |w| > 0 && forall i :: 0 <= i < |w| ==> !IsSpace(w[i])
  }

  predicate AllSpace(s: string)
  {
    forall i :: 0 <= i < |s| ==> IsSpace(s[i])
  }

  /** Python's `s.split()`: the maximal runs of non-whitespace, in order. */
  function SplitWhitespace(s: string): (r: seq<string>)
    ensures forall k :: 0 <= k < |r| ==> IsWord(r[k])
    decreases |s|
  {
    if |s| == 0 then []
    else if IsSpace(s[0]) then SplitWhitespace(s[1..])
    else
      var j := WordEnd(s, 0);
      [s[..j]] + SplitWhitespace(s[j..])
  }

  /**
   * How a string lays out around `n` words: whitespace before, between and after them, where
   * only the gaps between two words must be non-empty.
   */
  predicate Gaps(gaps: seq<string>, n: nat)
  {
    |gaps| == n + 1
    && (forall k :: 0 <= k < |gaps| ==> AllSpace(gaps[k]))
    && (forall k :: 0 < k < n ==> |gaps[k]| > 0)
  }

  /** The words with the gaps around them: `gaps[0] + words[0] + gaps[1] + ... + gaps[n]`. */
  function Interleave(gaps: seq<string>, words: seq<string>): string
    requires |gaps| == |words| + 1
    decreases |words|
  {
    if |words| == 0 then gaps[0] else gaps[0] + words[0] + Interleave(gaps[1..], words[1..])
  }

  /** `s` is `words` laid out with whitespace gaps. */
  ghost predicate LaidOut(s: string, words: seq<string>)
  {
    exists gaps :: Gaps(gaps, |words|) && Interleave(gaps, words) == s
  }

  /** Every string is its tokens laid out with whitespace: the tokens lose nothing but whitespace. */
  lemma {:induction false} SplitLayout(s: string)
    ensures LaidOut(s, SplitWhitespace(s))
    decreases |s|
  {
    var r := SplitWhitespace(s);
    if |s| == 0 {
      assert Gaps([[]], 0) && Interleave([[]], r) == s;
    } else if IsSpace(s[0]) {
      SplitLayout(s[1..]);
      var gaps :| Gaps(gaps, |r|) && Interleave(gaps, r) == s[1..];
      LayoutAfterSpace(s[0], s[1..], r, gaps);
      assert [s[0]] + s[1..] == s;
    } else {
      var j := WordEnd(s, 0);
      var rest := SplitWhitespace(s[j..]);
      assert r == [s[..j]] + rest;
      SplitLayout(s[j..]);
      var gaps :| Gaps(gaps, |rest|) && Interleave(gaps, rest) == s[j..];
      LayoutAfterWord(s[..j], s[j..], rest, gaps);
      assert s[..j] + s[j..] == s;
    }
  }

  /** A whitespace character in front joins the first gap. */
  lemma LayoutAfterSpace(c: char, t: string, words: seq<string>, gaps: seq<string>)
    requires IsSpace(c) && Gaps(gaps, |words|) && Interleave(gaps, words) == t
    ensures var gaps' := [[c] + gaps[0]] + gaps[1..];
      Gaps(gaps', |words|) && Interleave(gaps', words) == [c] + t
  {
    GapsAfterSpace(c, gaps, |words|);
    InterleaveAfterSpace(c, words, gaps);
  }

  lemma InterleaveAfterSpace(c: char, words: seq<string>, gaps: seq<string>)
    requires |gaps| == |words| + 1
    ensures Interleave([[c] + gaps[0]] + gaps[1..], words) == [c] + Interleave(gaps, words)
  {
    var gaps' := [[c] + gaps[0]] + gaps[1..];
    assert gaps'[1..] == gaps[1..];
    if |words| > 0 {
      var tail := words[0] + Interleave(gaps[1..], words[1..]);
      assert Interleave(gaps', words) == gaps'[0] + tail;
      assert Interleave(gaps, words) == gaps[0] + tail;
      assert gaps'[0] + tail == [c] + (gaps[0] + tail);
    }
  }

  lemma GapsAfterSpace(c: char, gaps: seq<string>, n: nat)
    requires IsSpace(c) && Gaps(gaps, n)
    ensures Gaps([[c] + gaps[0]] + gaps[1..], n)
  {
    var gaps' := [[c] + gaps[0]] + gaps[1..];
    var g := gaps'[0];
    assert AllSpace(g) by {
      forall i | 0 <= i < |g| ensures IsSpace(g[i]) {
        if i > 0 { assert g[i] == gaps[0][i - 1]; }
      }
    }
    forall k | 0 < k < |gaps'| ensures gaps'[k] == gaps[k] { }
  }

  /** A word in front, followed by whitespace or nothing, becomes the first word after an empty gap. */
  lemma LayoutAfterWord(w: string, t: string, words: seq<string>, gaps: seq<string>)
    requires IsWord(w) && Gaps(gaps, |words|) && Interleave(gaps, words) == t
    requires |t| == 0 || IsSpace(t[0])
    requires forall k :: 0 <= k < |words| ==> IsWord(words[k])
    ensures Gaps([[]] + gaps, |words| + 1) && Interleave([[]] + gaps, [w] + words) == w + t
  {
    var gaps' := [[]] + gaps;
    if |words| > 0 {
      FirstGapBeforeWord(t, words, gaps);
    }
    forall k | 0 < k < |gaps'| ensures gaps'[k] == gaps[k - 1] { }
    assert AllSpace(gaps'[0]);
    assert Gaps(gaps', |words| + 1);
    assert gaps'[1..] == gaps && ([w] + words)[1..] == words;
    assert Interleave(gaps', [w] + words) == [] + w + t;
    assert [] + w + t == w + t;
  }

  /** Text laid out from a word cannot start with whitespace unless a gap comes first. */
  lemma FirstGapBeforeWord(t: string, words: seq<string>, gaps: seq<string>)
    requires Gaps(gaps, |words|) && Interleave(gaps, words) == t && |words| > 0 && IsWord(words[0])
    requires IsSpace(t[0])
    ensures |gaps[0]| > 0
  {
  }

  /** Leading whitespace gives no token. */
  lemma {:induction false} SplitSkipsSpace(g: string, t: string)
    requires AllSpace(g)
    ensures SplitWhitespace(g + t) == SplitWhitespace(t)
    decreases |g|
  {
    if |g| > 0 {
      assert (g + t)[1..] == g[1..] + t;
      SplitSkipsSpace(g[1..], t);
    } else {
      assert g + t == t;
    }
  }

  /** A word followed by whitespace or the end is one token. */
  lemma SplitTakesWord(w: string, t: string)
    requires IsWord(w) && (|t| == 0 || IsSpace(t[0]))
    ensures SplitWhitespace(w + t) == [w] + SplitWhitespace(t)
  {
    var s := w + t;
    WordEndAt(s, 0, |w|);
    assert s[..|w|] == w && s[|w|..] == t;
  }

  lemma {:induction false} WordEndAt(s: string, i: nat, j: nat)
    requires i <= j <= |s| && (forall k :: i <= k < j ==> !IsSpace(s[k])) && (j == |s| || IsSpace(s[j]))
    ensures WordEnd(s, i) == j
    decreases j - i
  {
    if i < j {
      WordEndAt(s, i + 1, j);
    }
  }

  /**
   * Splitting words laid out with whitespace gives back exactly those words: together with
   * `SplitLayout`, the tokens are the one way of reading the string as words and gaps.
   */
  lemma {:induction false} SplitInterleave(gaps: seq<string>, words: seq<string>)
    requires Gaps(gaps, |words|) && forall k :: 0 <= k < |words| ==> IsWord(words[k])
    ensures SplitWhitespace(Interleave(gaps, words)) == words
    decreases |words|
  {
    if |words| == 0 {
      SplitSkipsSpace(gaps[0], []);
      assert gaps[0] + [] == gaps[0];
    } else {
      var rest := Interleave(gaps[1..], words[1..]);
      TailGaps(gaps, words);
      SplitInterleave(gaps[1..], words[1..]);
      SplitTakesWord(words[0], rest);
      SplitSkipsSpace(gaps[0], words[0] + rest);
      assert Interleave(gaps, words) == gaps[0] + (words[0] + rest);
      assert [words[0]] + words[1..] == words;
    }
  }

  /** After the first word the layout goes on with the other gaps, starting with whitespace if anything. */
  lemma TailGaps(gaps: seq<string>, words: seq<string>)
    requires Gaps(gaps, |words|) && |words| > 0
    ensures Gaps(gaps[1..], |words| - 1)
    ensures var rest := Interleave(gaps[1..], words[1..]); |rest| == 0 || IsSpace(rest[0])
  {
    assert forall k :: 0 <= k < |gaps| - 1 ==> gaps[1..][k] == gaps[k + 1];
    var rest := Interleave(gaps[1..], words[1..]);
    if |words| > 1 {
      assert gaps[1..][1..] == gaps[2..] && words[1..][1..] == words[2..];
      assert rest == gaps[1] + words[1] + Interleave(gaps[2..], words[2..]);
      assert rest[0] == gaps[1][0];
    } else {
      assert rest == gaps[1];
    }
  }

  function WordEnd(s: string, i: nat): (j: nat)
    requires i <= |s|
    ensures i <= j <= |s|
    ensures forall k :: i <= k < j ==> !IsSpace(s[k])
    ensures j == |s| || IsSpace(s[j])
    decreases |s| - i
  {
    if i < |s| && !IsSpace(s[i]) then WordEnd(s, i + 1) else i
  }

  /** Python's `s.split(sep)` for a one-character separator: always one piece more than separators. */
  function SplitOn(s: string, sep: char): (r: seq<string>)
    ensures |r| == Occurrences(s, sep) + 1
    ensures forall k :: 0 <= k < |r| ==> sep !in r[k]
    decreases |s|
  {
    if |s| == 0 then [[]]
    else
      var rest := SplitOn(s[1..], sep);
      if s[0] == sep then [[]] + rest else [[s[0]] + rest[0]] + rest[1..]
  }

  function Occurrences(s: string, c: char): nat
  {
    if |s| == 0 then 0 else (if s[0] == c then 1 else 0) + Occurrences(s[1..], c)
  }

  /** Python's `s.replace(c, "")` for one character. */
  function Without(s: string, c: char): (r: string)
    ensures c !in r
    ensures (forall i :: 0 <= i < |s| ==> IsDigit(s[i]) || s[i] == c) ==> AllDigits(r)
  {
    if |s| == 0 then [] else (if s[0] == c then [] else [s[0]]) + Without(s[1..], c)
  }

  /** The digits of `s` with the `_` separators Python's `int()` allows between digits. */
  predicate UnderscoredDigits(s: string)
  {
    |s| > 0 && IsDigit(s[0]) && IsDigit(s[|s| - 1])
    && (forall i :: 0 <= i < |s| ==> IsDigit(s[i]) || s[i] == '_')
    && (forall i :: 0 <= i < |s| - 1 && s[i] == '_' ==> s[i + 1] != '_')
  }

  /**
   * Python's `int(s)` on a string with no surrounding whitespace: an optional sign, then
   * digits, possibly with single underscores between them; anything else raises `ValueError` (None).
   */
  function PyInt(s: string): (r: Option<int>)
    ensures r.Some? <==> |s| > 0 && UnderscoredDigits(if s[0] == '+' || s[0] == '-' then s[1..] else s)
  {
    if |s| == 0 then None
    else
      var body := if s[0] == '+' || s[0] == '-' then s[1..] else s;
      if !UnderscoredDigits(body) then None
      else
        var n: int := NatOf(Without(body, '_'));
        Some(if s[0] == '-' then -n else n)
  }
}
