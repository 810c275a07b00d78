/** String.prototype.trim, which the handler applies to the captured output before JSON.parse. */
module JsText {

  /** ECMAScript WhiteSpace and LineTerminator code points: exactly what trim removes. */
  predicate IsJsSpace(c: char) {
    c == '\t' || c == '\n' || c == '\U{000B}' || c == '\U{000C}' || c == '\r' || c == ' '
    || c == '\U{00A0}' || c == '\U{1680}' || ('\U{2000}' <= c <= '\U{200A}')
    || c == '\U{2028}' || c == '\U{2029}' || c == '\U{202F}' || c == '\U{205F}'
    || c == '\U{3000}' || c == '\U{FEFF}'
  }

  predicate AllSpace(s: string) {
    forall k :: 0 <= k < |s| ==> IsJsSpace(s[k])
  }

  /** The first index at or after i that does not hold white space (|s| if there is none). */
  function SpaceEnd(s: string, i: nat): (j: nat)
    requires i <= |s|
    ensures i <= j <= |s|
    ensures forall k :: i <= k < j ==> IsJsSpace(s[k])
    ensures j < |s| ==> !IsJsSpace(s[j])
    decreases |s| - i
  {
    if i < |s| && IsJsSpace(s[i]) then SpaceEnd(s, i + 1) else i
  }

  /** Where the run of white space that ends s[lo..j] begins (j if s[j - 1] is not white space). */
  function SpaceStart(s: string, lo: nat, j: nat): (m: nat)
    requires lo <= j <= |s|
    ensures lo <= m <= j
    ensures forall k :: m <= k < j ==> IsJsSpace(s[k])
    ensures m > lo ==> !IsJsSpace(s[m - 1])
    decreases j
  {
    if j > lo && IsJsSpace(s[j - 1]) then SpaceStart(s, lo, j - 1) else j
  }

  /** The bounds of s.trim() inside s: white space outside them, none at either end inside. */
  function TrimBounds(s: string): (b: (nat, nat))
    ensures b.0 <= b.1 <= |s|
    ensures forall k :: 0 <= k < b.0 ==> IsJsSpace(s[k])
    ensures forall k :: b.1 <= k < |s| ==> IsJsSpace(s[k])
    ensures b.0 < b.1 ==> !IsJsSpace(s[b.0]) && !IsJsSpace(s[b.1 - 1])
    ensures b.0 == b.1 <==> AllSpace(s)
  {
    var lo := SpaceEnd(s, 0);
    (lo, SpaceStart(s, lo, |s|))
  }

  /** s.trim(): s without the white space at its two ends. */
  function Trim(s: string): (r: string)
    ensures |r| <= |s|
    ensures r == [] <==> AllSpace(s)
    ensures r != [] ==> !IsJsSpace(r[0]) && !IsJsSpace(r[|r| - 1])
  {
    var b := TrimBounds(s);
    s[b.0..b.1]
  }

  /** Any infix of s with non-space ends and only white space around it is s.trim(). */
  lemma TrimUnique(s: string, lo: nat, hi: nat)
    requires lo < hi <= |s|
    requires forall k :: 0 <= k < lo ==> IsJsSpace(s[k])
    requires forall k :: hi <= k < |s| ==> IsJsSpace(s[k])
    requires !IsJsSpace(s[lo]) && !IsJsSpace(s[hi - 1])
    ensures Trim(s) == s[lo..hi]
  {
  }

  lemma AllSpaceConcat(p: string, s: string, q: string)
    requires AllSpace(p) && AllSpace(s) && AllSpace(q)
    ensures AllSpace(p + s + q)
  {
  }

  /** Inside p + s + q, everything before index |p| + lo is white space. */
  lemma PaddedPrefixSpace(p: string, s: string, q: string, lo: nat)
    requires AllSpace(p) && lo <= |s|
    requires forall k :: 0 <= k < lo ==> IsJsSpace(s[k])
    ensures forall k :: 0 <= k < |p| + lo ==> IsJsSpace((p + s + q)[k])
  {
    var u := p + s + q;
    forall k | 0 <= k < |p| + lo ensures IsJsSpace(u[k]) {
      if k < |p| { assert u[k] == p[k]; } else { assert u[k] == s[k - |p|]; }
    }
  }

  /** Inside p + s + q, everything from index |p| + hi on is white space. */
  lemma PaddedSuffixSpace(p: string, s: string, q: string, hi: nat)
    requires AllSpace(q) && hi <= |s|
    requires forall k :: hi <= k < |s| ==> IsJsSpace(s[k])
    ensures forall k :: |p| + hi <= k < |p + s + q| ==> IsJsSpace((p + s + q)[k])
  {
    var u := p + s + q;
    forall k | |p| + hi <= k < |u| ensures IsJsSpace(u[k]) {
      if k < |p| + |s| { assert u[k] == s[k - |p|]; } else { assert u[k] == q[k - |p| - |s|]; }
    }
  }

  /** The trimmed text of s, shifted by |p|, satisfies TrimUnique's conditions inside p + s + q. */
  lemma PaddedBounds(p: string, s: string, q: string, lo: nat, hi: nat)
    requires AllSpace(p) && AllSpace(q)
    requires lo < hi <= |s|
    requires forall k :: 0 <= k < lo ==> IsJsSpace(s[k])
    requires forall k :: hi <= k < |s| ==> IsJsSpace(s[k])
    requires !IsJsSpace(s[lo]) && !IsJsSpace(s[hi - 1])
    ensures Trim(p + s + q) == s[lo..hi]
  {
    var u := p + s + q;
    PaddedPrefixSpace(p, s, q, lo);
    PaddedSuffixSpace(p, s, q, hi);
    assert u[|p| + lo] == s[lo] && u[|p| + hi - 1] == s[hi - 1];
    TrimUnique(u, |p| + lo, |p| + hi);
    MiddleSlice(p, s, q, lo, hi);
  }

  lemma MiddleSlice(p: string, s: string, q: string, lo: nat, hi: nat)
    requires lo <= hi <= |s|
    ensures (p + s + q)[|p| + lo..|p| + hi] == s[lo..hi]
  {
    var u := p + s + q;
    forall k | 0 <= k < hi - lo ensures u[|p| + lo..|p| + hi][k] == s[lo..hi][k] {
      assert u[|p| + lo + k] == s[lo + k];
    }
  }

  /** White space around the text, such as the newline Python's print adds, never reaches JSON.parse. */
  lemma TrimIgnoresPadding(p: string, s: string, q: string)
    requires AllSpace(p) && AllSpace(q)
    ensures Trim(p + s + q) == Trim(s)
  {
    if AllSpace(s) {
      AllSpaceConcat(p, s, q);
    } else {
      var b := TrimBounds(s);
      PaddedBounds(p, s, q, b.0, b.1);
    }
  }

  /** Trimming twice is trimming once. */
  lemma TrimIdempotent(s: string)
    ensures Trim(Trim(s)) == Trim(s)
  {
  }
}
