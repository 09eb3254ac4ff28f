/** `String.stringBetween(start:end:)`: the text after the first occurrence
    of `start` and before the first occurrence of `end` that begins at or
    after the end of that `start`.

    Substring search follows Foundation's `range(of:)`, which never reports
    an empty search string as found. Characters are compared exactly. */
module Strings {
  import opened Wrappers

  /** The non-empty pattern `p` occurs in `s` starting at position `i`. */
  predicate OccursAt(s: string, p: string, i: int) {
    |p| > 0 && 0 <= i && i + |p| <= |s| && s[i..i + |p|] == p
  }

  ghost predicate Contains(s: string, p: string) {
    exists i :: OccursAt(s, p, i)
  }

  /** `i` is the first occurrence of `p` in `s` at or after `from`. */
  ghost predicate IsFirstFrom(s: string, p: string, from: int, i: int) {
    from <= i && OccursAt(s, p, i) && forall k :: from <= k < i ==> !OccursAt(s, p, k)
  }

  /** `range(of: p, range: from..<endIndex)`: the first position at or after
      `from` where `p` occurs, or nil. */
  function FindFrom(s: string, p: string, from: nat): (r: Option<nat>)
    ensures r.Some? ==> IsFirstFrom(s, p, from, r.value)
    ensures r.None? ==> forall k :: from <= k ==> !OccursAt(s, p, k)
    decreases |s| - from
  {
    if |p| == 0 || from + |p| > |s| then None
    else if s[from..from + |p|] == p then Some(from)
    else FindFrom(s, p, from + 1)
  }

  /** An occurrence inside a slice is an occurrence in the whole string. */
  lemma OccursInSlice(s: string, p: string, a: nat, b: nat, k: int)
    requires a <= b <= |s|
    requires OccursAt(s[a..b], p, k)
    ensures OccursAt(s, p, a + k)
  {
    forall t | 0 <= t < |p|
      ensures s[a + k..a + k + |p|][t] == p[t]
    {
      assert s[a..b][k..k + |p|][t] == p[t];
    }
  }

  /** Nil exactly when there is no `start` followed, at or after its end, by
      an `end`. On success, the result sits between the first `start` and the
      first `end` after it, contains no `end`, and leaves room for both
      sentinels. */
  function StringBetween(s: string, start: string, end: string): (r: Option<string>)
    ensures r.Some? <==>
      exists i, j :: OccursAt(s, start, i) && i + |start| <= j && OccursAt(s, end, j)
    ensures r.Some? ==> exists i ::
      && IsFirstFrom(s, start, 0, i)
      && IsFirstFrom(s, end, i + |start|, i + |start| + |r.value|)
      && s[i + |start|..i + |start| + |r.value|] == r.value
    ensures r.Some? ==> !Contains(r.value, end)
    ensures r.Some? ==> |r.value| <= |s| - |start| - |end|
  {
    match FindFrom(s, start, 0)
    case None => None
    case Some(i) =>
      match FindFrom(s, end, i + |start|)
      case None =>
        NoEndAfterFirstStart(s, start, end, i);
        None
      case Some(j) =>
        NoEndBeforeFirstEnd(s, end, i + |start|, j);
        Some(s[i + |start|..j])
  }

  /** If no `end` follows the first `start`, none follows any `start`. */
  lemma NoEndAfterFirstStart(s: string, start: string, end: string, i: nat)
    requires IsFirstFrom(s, start, 0, i)
    requires forall k :: i + |start| <= k ==> !OccursAt(s, end, k)
    ensures forall a, b :: OccursAt(s, start, a) && a + |start| <= b ==> !OccursAt(s, end, b)
  {
    forall a, b | OccursAt(s, start, a) && a + |start| <= b
      ensures !OccursAt(s, end, b)
    {
      assert i <= a;
    }
  }

  /** The text between `from` and the first `end` at or after it holds no `end`. */
  lemma NoEndBeforeFirstEnd(s: string, end: string, from: nat, j: nat)
    requires IsFirstFrom(s, end, from, j)
    ensures !Contains(s[from..j], end)
  {
    forall k | OccursAt(s[from..j], end, k)
      ensures false
    {
      OccursInSlice(s, end, from, j, k);
    }
  }

  /** On success the input decomposes as `s[..i] + start + result + end +
      rest`, where `i` is the first occurrence of `start`. */
  lemma {:induction false} StringBetweenDecomposes(s: string, start: string, end: string, r: string)
    requires StringBetween(s, start, end) == Some(r)
    ensures exists i ::
      && IsFirstFrom(s, start, 0, i)
      && i + |start| + |r| + |end| <= |s|
      && s == s[..i] + start + r + end + s[i + |start| + |r| + |end|..]
  {
    var i := FindFrom(s, start, 0).value;
    var j := FindFrom(s, end, i + |start|).value;
    assert r == s[i + |start|..j];
    SplitAt(s, i, i + |start|, j, j + |end|);
    assert s[i..i + |start|] == start;
    assert s[j..j + |end|] == end;
  }

  lemma SplitAt(s: string, a: nat, b: nat, c: nat, d: nat)
    requires a <= b <= c <= d <= |s|
    ensures s == s[..a] + s[a..b] + s[b..c] + s[c..d] + s[d..]
  {
    assert s[..a] + s[a..b] == s[..b];
    assert s[..b] + s[b..c] == s[..c];
    assert s[..c] + s[c..d] == s[..d];
    assert s[..d] + s[d..] == s;
  }
}
