/**
 * The two JavaScript built-ins the bot's logic rests on: `Array.prototype.filter`
 * followed by `[0]` (a first-match lookup that yields `undefined` on a miss) and
 * `String.prototype.indexOf` (the lowest position of a substring, or -1).
 */
module JsBuiltins {
  import opened Wrappers

  /**
   * `idx` lists, in increasing order, every position of `s` whose element satisfies `p`,
   * and `r` holds the elements at those positions: `r` is the matches of `s` in their
   * original order, duplicates kept.
   */
  ghost predicate IsMatchSubsequence<T>(s: seq<T>, p: T -> bool, r: seq<T>, idx: seq<int>) {
    && |idx| == |r|
    && (forall i, j | 0 <= i < j < |idx| :: idx[i] < idx[j])
    && (forall i | 0 <= i < |idx| :: 0 <= idx[i] < |s| && r[i] == s[idx[i]] && p(s[idx[i]]))
    && (forall k | 0 <= k < |s| && p(s[k]) :: k in idx)
  }

  /** Every position in `idx`, moved one to the right. */
  ghost function Shifted(idx: seq<int>): (r: seq<int>)
    ensures |r| == |idx| && forall i | 0 <= i < |idx| :: r[i] == idx[i] + 1
  {
    seq(|idx|, i requires 0 <= i < |idx| => idx[i] + 1)
  }

  /** `s.filter(p)`: the elements of `s` that satisfy `p`, in their original order. */
  function Filter<T>(s: seq<T>, p: T -> bool): (r: seq<T>)
    ensures |r| <= |s|
    ensures forall x | x in r :: x in s && p(x)
    ensures forall x | x in s && p(x) :: x in r
  {
    if s == [] then []
    else if p(s[0]) then [s[0]] + Filter(s[1..], p)
    else Filter(s[1..], p)
  }

  /** The matches of the tail of `s`, moved one to the right, are the matches of `s` past its head. */
  lemma ShiftedMatches<T>(s: seq<T>, p: T -> bool, rest: seq<T>, idx: seq<int>)
    requires s != [] && IsMatchSubsequence(s[1..], p, rest, idx)
    ensures var moved := Shifted(idx);
      && |moved| == |rest|
      && (forall i, j | 0 <= i < j < |moved| :: moved[i] < moved[j])
      && (forall i | 0 <= i < |moved| :: 0 < moved[i] < |s| && rest[i] == s[moved[i]] && p(s[moved[i]]))
      && (forall k | 0 < k < |s| && p(s[k]) :: k in moved)
  {
    var moved := Shifted(idx);
    forall i | 0 <= i < |moved|
      ensures 0 < moved[i] < |s| && rest[i] == s[moved[i]]
    {
      assert s[1..][idx[i]] == s[moved[i]];
    }
    forall k | 0 < k < |s| && p(s[k])
      ensures k in moved
    {
      assert s[1..][k - 1] == s[k];
      var j :| 0 <= j < |idx| && idx[j] == k - 1;
      assert moved[j] == k;
    }
  }

  /** A head that does not match adds nothing to the matches of the tail. */
  lemma SkipHeadMatches<T>(s: seq<T>, p: T -> bool, rest: seq<T>, idx: seq<int>)
    requires s != [] && !p(s[0]) && IsMatchSubsequence(s[1..], p, rest, idx)
    ensures IsMatchSubsequence(s, p, rest, Shifted(idx))
  {
    ShiftedMatches(s, p, rest, idx);
  }

  /** Putting position 0 before the shifted positions of the tail keeps them increasing. */
  lemma KeepHeadIncreasing(idx: seq<int>)
    requires forall i | 0 <= i < |idx| :: 0 <= idx[i]
    requires forall i, j | 0 <= i < j < |idx| :: idx[i] < idx[j]
    ensures var idx' := [0] + Shifted(idx); forall i, j | 0 <= i < j < |idx'| :: idx'[i] < idx'[j]
  {
    var idx' := [0] + Shifted(idx);
    forall i, j | 0 <= i < j < |idx'|
      ensures idx'[i] < idx'[j]
    {
      assert idx'[j] == idx[j - 1] + 1;
      if i > 0 {
        assert idx'[i] == idx[i - 1] + 1;
      }
    }
  }

  /** Every position a matching tail element came from, shifted, still points at it in `s`. */
  lemma KeepHeadElements<T>(s: seq<T>, p: T -> bool, rest: seq<T>, idx: seq<int>)
    requires s != [] && p(s[0]) && IsMatchSubsequence(s[1..], p, rest, idx)
    ensures var r, idx' := [s[0]] + rest, [0] + Shifted(idx);
      forall i | 0 <= i < |idx'| :: 0 <= idx'[i] < |s| && r[i] == s[idx'[i]] && p(s[idx'[i]])
  {
    var r, idx' := [s[0]] + rest, [0] + Shifted(idx);
    forall i | 0 <= i < |idx'|
      ensures 0 <= idx'[i] < |s| && r[i] == s[idx'[i]] && p(s[idx'[i]])
    {
      if i > 0 {
        assert idx'[i] == idx[i - 1] + 1 && r[i] == rest[i - 1];
        assert s[1..][idx[i - 1]] == s[idx'[i]];
      }
    }
  }

  /** Every matching position of `s` is the head's or a shifted matching position of the tail. */
  lemma KeepHeadComplete<T>(s: seq<T>, p: T -> bool, idx: seq<int>)
    requires s != []
    requires forall k | 0 <= k < |s[1..]| && p(s[1..][k]) :: k in idx
    ensures var idx' := [0] + Shifted(idx); forall k | 0 <= k < |s| && p(s[k]) :: k in idx'
  {
    var idx' := [0] + Shifted(idx);
    forall k | 0 < k < |s| && p(s[k])
      ensures k in idx'
    {
      assert s[1..][k - 1] == s[k];
      var j :| 0 <= j < |idx| && idx[j] == k - 1;
      assert idx'[j + 1] == k;
    }
    assert idx'[0] == 0;
  }

  /** A head that matches comes first, before the matches of the tail. */
  lemma KeepHeadMatches<T>(s: seq<T>, p: T -> bool, rest: seq<T>, idx: seq<int>)
    requires s != [] && p(s[0]) && IsMatchSubsequence(s[1..], p, rest, idx)
    ensures IsMatchSubsequence(s, p, [s[0]] + rest, [0] + Shifted(idx))
  {
    KeepHeadIncreasing(idx);
    KeepHeadElements(s, p, rest, idx);
    KeepHeadComplete(s, p, idx);
  }

  /** `s.filter(p)` is the subsequence of the matches of `s`, in order and with duplicates kept. */
  lemma {:induction false} FilterKeepsOrder<T>(s: seq<T>, p: T -> bool)
    ensures exists idx :: IsMatchSubsequence(s, p, Filter(s, p), idx)
  {
    if s == [] {
      assert Filter(s, p) == [];
      assert IsMatchSubsequence(s, p, [], []);
    } else {
      var rest := Filter(s[1..], p);
      FilterKeepsOrder(s[1..], p);
      var idx :| IsMatchSubsequence(s[1..], p, rest, idx);
      if p(s[0]) {
        KeepHeadMatches(s, p, rest, idx);
        assert IsMatchSubsequence(s, p, Filter(s, p), [0] + Shifted(idx));
      } else {
        SkipHeadMatches(s, p, rest, idx);
        assert IsMatchSubsequence(s, p, Filter(s, p), Shifted(idx));
      }
    }
  }

  /** `k` is the position of the first element of `s` that satisfies `p`. */
  ghost predicate IsFirstWhere<T>(s: seq<T>, p: T -> bool, k: int) {
    0 <= k < |s| && p(s[k]) && forall j | 0 <= j < k :: !p(s[j])
  }

  /** The head of a non-empty filtered sequence is the first match of the original one. */
  lemma {:induction false} FilterHead<T>(s: seq<T>, p: T -> bool)
    requires Filter(s, p) != []
    ensures exists k :: IsFirstWhere(s, p, k) && Filter(s, p)[0] == s[k]
  {
    assert s != [];
    if p(s[0]) {
      assert IsFirstWhere(s, p, 0);
    } else {
      FilterHead(s[1..], p);
      var k :| IsFirstWhere(s[1..], p, k) && Filter(s[1..], p)[0] == s[1..][k];
      assert IsFirstWhere(s, p, k + 1);
    }
  }

  /** `s.filter(p)[0]`: the first element satisfying `p`, or `undefined` when none does. */
  function FirstWhere<T>(s: seq<T>, p: T -> bool): (r: Option<T>)
    ensures r.None? <==> forall x | x in s :: !p(x)
    ensures r.Some? ==> exists k :: IsFirstWhere(s, p, k) && s[k] == r.value
  {
    var matches := Filter(s, p);
    if matches == [] then None
    else
      FilterHead(s, p);
      Some(matches[0])
  }

  /** `pattern` occurs in `text` starting at position `i`. */
  ghost predicate OccursAt(text: string, pattern: string, i: int) {
    0 <= i && i + |pattern| <= |text| && text[i..i + |pattern|] == pattern
  }

  /** `pattern` is a contiguous substring of `text` (the empty string is in every text). */
  ghost predicate Contains(text: string, pattern: string) {
    exists i :: OccursAt(text, pattern, i)
  }

  /** The search behind `indexOf`: the lowest occurrence at or after `from`, or -1. */
  function IndexOfFrom(text: string, pattern: string, from: nat): (r: int)
    requires from <= |text|
    decreases |text| - from
    ensures r == -1 || (from <= r && OccursAt(text, pattern, r))
    ensures r == -1 <==> forall i | from <= i :: !OccursAt(text, pattern, i)
    ensures forall i | from <= i < r :: !OccursAt(text, pattern, i)
  {
    if from + |pattern| > |text| then -1
    else if text[from..from + |pattern|] == pattern then from
    else IndexOfFrom(text, pattern, from + 1)
  }

  /** `text.indexOf(pattern)`: the first occurrence of `pattern` in `text`, or -1. */
  function IndexOf(text: string, pattern: string): (r: int)
    ensures r >= 0 ==> OccursAt(text, pattern, r) && forall i | 0 <= i < r :: !OccursAt(text, pattern, i)
    ensures r == -1 <==> !Contains(text, pattern)
    ensures r >= -1
  {
    IndexOfFrom(text, pattern, 0)
  }
}
