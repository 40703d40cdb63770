/** The part of Python's `str` that the refinement loop relies on:
    `str.strip()` with no argument, which removes leading and trailing
    whitespace as `str.isspace` defines it. */
module PyStrings {

  /** Python 3's whitespace characters (Unicode bidirectional classes WS, B, S
      and category Zs): U+0009..U+000D, U+001C..U+0020, U+0085, U+00A0,
      U+1680, U+2000..U+200A, U+2028, U+2029, U+202F, U+205F, U+3000. */
  predicate IsSpace(c: char) {
    ('\t' <= c <= '\r') || ('\U{1C}' <= c <= ' ') || c == '\U{85}' || c == '\U{A0}'
    || c == '\U{1680}' || ('\U{2000}' <= c <= '\U{200A}') || c == '\U{2028}'
    || c == '\U{2029}' || c == '\U{202F}' || c == '\U{205F}' || c == '\U{3000}'
  }

  predicate AllSpace(s: string) {
    forall i :: 0 <= i < |s| ==> IsSpace(s[i])
  }

  /** Neither end of `s` is whitespace. */
  predicate Trimmed(s: string) {
    s == [] || (!IsSpace(s[0]) && !IsSpace(s[|s| - 1]))
  }

  /** The forward scan of `strip()`: from `i`, the index of the first
      character that is not whitespace, or `|s|`. */
  function SpanFrom(s: string, i: nat): (j: nat)
    requires i <= |s|
    ensures i <= j <= |s|
    ensures forall k :: i <= k < j ==> IsSpace(s[k])
    ensures j == |s| || !IsSpace(s[j])
    decreases |s| - i
  {
    if i < |s| && IsSpace(s[i]) then SpanFrom(s, i + 1) else i
  }

  /** The backward scan of `strip()`: from the end `j` down to no further than
      `lo`, the index just after the last character that is not whitespace. */
  function SpanBack(s: string, lo: nat, j: nat): (i: nat)
    requires lo <= j <= |s|
    ensures lo <= i <= j
    ensures forall k :: i <= k < j ==> IsSpace(s[k])
    ensures i == lo || !IsSpace(s[i - 1])
    decreases j - lo
  {
    if lo < j && IsSpace(s[j - 1]) then SpanBack(s, lo, j - 1) else j
  }

  /** `s.strip()`: the text between the two scans. */
  function Strip(s: string): (r: string)
    ensures |r| <= |s|
  {
    var i := SpanFrom(s, 0);
    s[i..SpanBack(s, i, |s|)]
  }

  lemma SpanFromUnique(s: string, i: nat, n: nat)
    requires i <= n <= |s|
    requires forall k :: i <= k < n ==> IsSpace(s[k])
    requires n == |s| || !IsSpace(s[n])
    ensures SpanFrom(s, i) == n
  {
  }

  lemma SpanBackUnique(s: string, lo: nat, j: nat, n: nat)
    requires lo <= n <= j <= |s|
    requires forall k :: n <= k < j ==> IsSpace(s[k])
    requires n == lo || !IsSpace(s[n - 1])
    ensures SpanBack(s, lo, j) == n
  {
  }

  /** `strip()` leaves no whitespace at either end. */
  lemma StripTrimmed(s: string)
    ensures Trimmed(Strip(s))
  {
    var i := SpanFrom(s, 0);
    var j := SpanBack(s, i, |s|);
    if i < j {
      assert Strip(s)[0] == s[i];
      assert Strip(s)[|Strip(s)| - 1] == s[j - 1];
    }
  }

  /** Every string is its stripped text with whitespace on both sides. */
  lemma StripSplit(s: string) returns (lead: string, trail: string)
    ensures AllSpace(lead) && AllSpace(trail)
    ensures s == lead + Strip(s) + trail
  {
    var i := SpanFrom(s, 0);
    var j := SpanBack(s, i, |s|);
    lead, trail := s[..i], s[j..];
    assert AllSpace(lead) by {
      forall k | 0 <= k < |lead| ensures IsSpace(lead[k]) { assert lead[k] == s[k]; }
    }
    assert AllSpace(trail) by {
      forall k | 0 <= k < |trail| ensures IsSpace(trail[k]) { assert trail[k] == s[j + k]; }
    }
    assert s[..j] == lead + s[i..j];
    assert s == s[..j] + trail;
  }

  /** A string of whitespace strips to nothing. */
  lemma StripOfSpaces(s: string)
    requires AllSpace(s)
    ensures Strip(s) == []
  {
    SpanFromUnique(s, 0, |s|);
  }

  /** When `s[i..j]` starts and ends with non-whitespace and only whitespace
      lies outside it, `strip()` returns exactly `s[i..j]`. */
  lemma StripBetween(s: string, i: nat, j: nat)
    requires i < j <= |s|
    requires forall k :: 0 <= k < i ==> IsSpace(s[k])
    requires forall k :: j <= k < |s| ==> IsSpace(s[k])
    requires !IsSpace(s[i]) && !IsSpace(s[j - 1])
    ensures Strip(s) == s[i..j]
  {
    SpanFromUnique(s, 0, i);
    SpanBackUnique(s, i, |s|, j);
  }

  /** Stripping is determined by the text between the whitespace runs: whatever
      whitespace surrounds a trimmed text, `strip()` gives back exactly that text. */
  lemma {:induction false} StripUnique(p: string, core: string, q: string)
    requires AllSpace(p) && AllSpace(q) && Trimmed(core)
    ensures Strip(p + core + q) == core
  {
    var s := p + core + q;
    if core == [] {
      assert s == p + q;
      AllSpaceConcat(p, q);
      StripOfSpaces(s);
    } else {
      var j := |p| + |core|;
      assert forall k :: 0 <= k < |p| ==> IsSpace(s[k]) by {
        forall k | 0 <= k < |p| ensures IsSpace(s[k]) { assert s[k] == p[k]; }
      }
      assert forall k :: j <= k < |s| ==> IsSpace(s[k]) by {
        forall k | j <= k < |s| ensures IsSpace(s[k]) { assert s[k] == q[k - j]; }
      }
      assert s[|p|] == core[0] && s[j - 1] == core[|core| - 1];
      StripBetween(s, |p|, j);
      assert s[|p|..j] == core;
    }
  }

  lemma {:induction false} AllSpaceConcat(a: string, b: string)
    requires AllSpace(a) && AllSpace(b)
    ensures AllSpace(a + b)
  {
    forall i | 0 <= i < |a + b| ensures IsSpace((a + b)[i]) {
      if i >= |a| { assert (a + b)[i] == b[i - |a|]; }
    }
  }

  /** `strip()` leaves a string with no whitespace at either end unchanged. */
  lemma StripKeepsTrimmed(s: string)
    requires Trimmed(s)
    ensures Strip(s) == s
  {
    StripUnique([], s, []);
    assert [] + s + [] == s;
  }

  lemma StripIdempotent(s: string)
    ensures Strip(Strip(s)) == Strip(s)
  {
    StripTrimmed(s);
    StripKeepsTrimmed(Strip(s));
  }

  lemma Regroup(a: string, b: string, c: string, d: string, e: string)
    ensures a + (b + c + d) + e == (a + b) + c + (d + e)
  {
  }

  /** Adding whitespace at either end does not change what `strip()` returns. */
  lemma {:induction false} StripIgnoresPadding(p: string, s: string, q: string)
    requires AllSpace(p) && AllSpace(q)
    ensures Strip(p + s + q) == Strip(s)
  {
    var lead, trail := StripSplit(s);
    StripTrimmed(s);
    AllSpaceConcat(p, lead);
    AllSpaceConcat(trail, q);
    Regroup(p, lead, Strip(s), trail, q);
    StripUnique(p + lead, Strip(s), trail + q);
  }
}
