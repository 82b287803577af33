/**
 * Server-side normalisation of the one free-text field of an entry: a
 * non-string becomes the empty string, a string loses its leading and
 * trailing whitespace (Python's `str.strip()` with no argument).
 */
module Sanitizer {
  import opened Json

  /**
   * The characters `str.strip()` removes: those for which Python's
   * `str.isspace` holds.
   */
  predicate IsSpace(c: char)
  {
    || '\t' <= c <= '\r'          // tab, line feed, vertical tab, form feed, carriage return
    || '\U{1C}' <= c <= '\U{1F}'  // file, group, record and unit separators
    || c == ' '
    || c == '\U{85}'              // next line
    || c == '\U{A0}'              // no-break space
    || c == '\U{1680}'
    || '\U{2000}' <= c <= '\U{200A}'
    || c == '\U{2028}' || c == '\U{2029}'
    || c == '\U{202F}' || c == '\U{205F}' || c == '\U{3000}'
  }

  /** Every character of `s` is whitespace (vacuously true of ""). */
  predicate AllSpace(s: string)
  {
    forall i :: 0 <= i < |s| ==> IsSpace(s[i])
  }

  /** `s` neither starts nor ends with whitespace. */
  predicate NoEdgeSpace(s: string)
  {
    s == [] || (!IsSpace(s[0]) && !IsSpace(s[|s| - 1]))
  }

  /**
   * Where the stripped text starts: the first index at or after `i` that does
   * not hold whitespace, or |s| if there is none.
   */
  function StartIndex(s: string, i: nat): (n: nat)
    requires i <= |s|
    ensures i <= n <= |s|
    ensures forall k :: i <= k < n ==> IsSpace(s[k])
    ensures n < |s| ==> !IsSpace(s[n])
    decreases |s| - i
  {
    if i < |s| && IsSpace(s[i]) then StartIndex(s, i + 1) else i
  }

  /**
   * Where the stripped text ends: scanning back from `j` but never below
   * `lo`, the position just after the last non-whitespace character.
   */
  function EndIndex(s: string, lo: nat, j: nat): (n: nat)
    requires lo <= j <= |s|
    ensures lo <= n <= j
    ensures forall k :: n <= k < j ==> IsSpace(s[k])
    ensures n > lo ==> !IsSpace(s[n - 1])
    decreases j
  {
    if lo < j && IsSpace(s[j - 1]) then EndIndex(s, lo, j - 1) else j
  }

  /** Python's `s.strip()`. */
  function Strip(s: string): (r: string)
    ensures |r| <= |s|
    ensures NoEdgeSpace(r)
  {
    var i := StartIndex(s, 0);
    s[i..EndIndex(s, i, |s|)]
  }

  /** `sanitize_content`: the stripped text of a string, "" for anything else. */
  function SanitizeContent(v: Json): (r: string)
    ensures NoEdgeSpace(r)
    ensures !v.JString? ==> r == ""
    ensures v.JString? ==> |r| <= |v.str|
    ensures v.JString? && NoEdgeSpace(v.str) ==> r == v.str
    ensures v.JString? ==>
              exists i, j :: 0 <= i <= j <= |v.str| && r == v.str[i..j]
                             && AllSpace(v.str[..i]) && AllSpace(v.str[j..])
    ensures v.JString? ==> r == Strip(v.str)
  {
    if v.JString? then
      StripFixesUnspaced(v.str);
      var i := StartIndex(v.str, 0);
      var j := EndIndex(v.str, i, |v.str|);
      assert AllSpace(v.str[..i]) && AllSpace(v.str[j..]);
      Strip(v.str)
    else
      ""
  }

  /** StartIndex is the only index with its two defining properties. */
  lemma StartIndexUnique(s: string, i: nat, n: nat)
    requires i <= n <= |s|
    requires forall k :: i <= k < n ==> IsSpace(s[k])
    requires n < |s| ==> !IsSpace(s[n])
    ensures StartIndex(s, i) == n
  {
  }

  /** EndIndex is the only index with its two defining properties. */
  lemma EndIndexUnique(s: string, lo: nat, j: nat, n: nat)
    requires lo <= n <= j <= |s|
    requires forall k :: n <= k < j ==> IsSpace(s[k])
    requires n > lo ==> !IsSpace(s[n - 1])
    ensures EndIndex(s, lo, j) == n
  {
  }

  /**
   * The result of Strip is a contiguous piece of its input, and everything
   * cut away on either side is whitespace.
   */
  lemma StripSplits(s: string) returns (i: nat, j: nat)
    ensures i <= j <= |s|
    ensures Strip(s) == s[i..j]
    ensures AllSpace(s[..i]) && AllSpace(s[j..])
  {
    i := StartIndex(s, 0);
    j := EndIndex(s, i, |s|);
  }

  /**
   * Strip is characterised without reference to how it is computed: whatever
   * whitespace surrounds a text without edge whitespace is removed, and
   * nothing else.
   */
  lemma StripSurrounded(p: string, m: string, q: string)
    requires AllSpace(p) && AllSpace(q) && NoEdgeSpace(m)
    ensures Strip(p + m + q) == m
  {
    var s := p + m + q;
    var a, b := |p|, |p| + |m|;
    forall k | 0 <= k < a ensures IsSpace(s[k]) {
      assert s[k] == p[k];
    }
    forall k | b <= k < |s| ensures IsSpace(s[k]) {
      assert s[k] == q[k - b];
    }
    if m == [] {
      StartIndexUnique(s, 0, |s|);
      EndIndexUnique(s, |s|, |s|, |s|);
    } else {
      assert s[a] == m[0] && s[b - 1] == m[|m| - 1];
      StartIndexUnique(s, 0, a);
      EndIndexUnique(s, a, |s|, b);
      assert s[a..b] == m;
    }
  }

  /** Stripping twice is stripping once. */
  lemma StripIdempotent(s: string)
    ensures Strip(Strip(s)) == Strip(s)
  {
    StripFixesUnspaced(Strip(s));
  }

  /** Strip leaves a string unchanged exactly when it has no edge whitespace. */
  lemma StripFixesUnspaced(s: string)
    ensures Strip(s) == s <==> NoEdgeSpace(s)
  {
    if NoEdgeSpace(s) {
      StripSurrounded([], s, []);
      assert [] + s + [] == s;
    }
  }

  /** Strip yields "" exactly for strings made only of whitespace. */
  lemma StripEmptyIffAllSpace(s: string)
    ensures Strip(s) == [] <==> AllSpace(s)
  {
    if AllSpace(s) {
      StripSurrounded(s, [], []);
      assert s + [] + [] == s;
    } else {
      var i, j := StripSplits(s);
    }
  }

  /** Sanitizing already-sanitized content changes nothing. */
  lemma SanitizeIdempotent(v: Json)
    ensures SanitizeContent(JString(SanitizeContent(v))) == SanitizeContent(v)
  {
  }
}
