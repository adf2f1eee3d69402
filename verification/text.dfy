/** The Python string operations the agents rely on, restricted to what the
    code uses: the `in` substring test, ASCII `lower()`, `strip()` over the
    ASCII whitespace set, `replace(old, "")`, `sep.join(...)` and `s[:n]`.
    `Split` is not used by the code: it reads a joined text back into its
    pieces, as the partner of `Join`. */
module Text {

  // ---------------------------------------------------------------------
  // Substring test (Python `p in s`)
  // ---------------------------------------------------------------------

  /** `p` is a prefix of `s`. */
  predicate IsPrefix(p: string, s: string) {
    |p| <= |s| && s[..|p|] == p
  }

  /** Python's `p in s`: `p` occurs somewhere in `s` as a contiguous block. */
  predicate Contains(s: string, p: string)
    decreases |s|
  {
    IsPrefix(p, s) || (|s| > 0 && Contains(s[1..], p))
  }

  /** Reference definition of an occurrence: `p` sits at index `i` of `s`. */
  ghost predicate OccursAt(s: string, p: string, i: int) {
    0 <= i && i + |p| <= |s| && s[i..i + |p|] == p
  }

  /** A slice of a slice is a slice of the original. */
  lemma SliceOfSlice(s: string, lo: int, hi: int, i: int, j: int)
    requires 0 <= lo <= hi <= |s| && 0 <= i <= j <= hi - lo
    ensures s[lo..hi][i..j] == s[lo + i..lo + j]
  {
    forall k | 0 <= k < j - i
      ensures s[lo..hi][i..j][k] == s[lo + i..lo + j][k]
    {
    }
  }

  /** An occurrence found by `Contains` sits at some index. */
  lemma {:induction false} ContainsHasIndex(s: string, p: string)
    requires Contains(s, p)
    ensures exists i :: OccursAt(s, p, i)
    decreases |s|
  {
    if IsPrefix(p, s) {
      assert OccursAt(s, p, 0);
    } else {
      ContainsHasIndex(s[1..], p);
      var i :| OccursAt(s[1..], p, i);
      SliceOfSlice(s, 1, |s|, i, i + |p|);
      assert OccursAt(s, p, i + 1);
    }
  }

  /** An occurrence at any index is found by `Contains`. */
  lemma {:induction false} IndexIsContained(s: string, p: string, i: int)
    requires OccursAt(s, p, i)
    ensures Contains(s, p)
    decreases i
  {
    if i > 0 {
      SliceOfSlice(s, 1, |s|, i - 1, i - 1 + |p|);
      IndexIsContained(s[1..], p, i - 1);
    }
  }

  /** The recursive substring test agrees with the index-based definition. */
  lemma ContainsIffOccurs(s: string, p: string)
    ensures Contains(s, p) <==> exists i :: OccursAt(s, p, i)
  {
    if Contains(s, p) {
      ContainsHasIndex(s, p);
    }
    if exists i :: OccursAt(s, p, i) {
      var i :| OccursAt(s, p, i);
      IndexIsContained(s, p, i);
    }
  }

  /** A pattern longer than the text cannot occur in it. */
  lemma TooShortNotContained(s: string, p: string)
    requires |s| < |p|
    ensures !Contains(s, p)
  {
    ContainsIffOccurs(s, p);
  }

  /** An occurrence inside a slice is an occurrence in the whole string. */
  lemma ContainsInSlice(s: string, lo: int, hi: int, p: string)
    requires 0 <= lo <= hi <= |s|
    requires Contains(s[lo..hi], p)
    ensures Contains(s, p)
  {
    ContainsIffOccurs(s[lo..hi], p);
    var i :| OccursAt(s[lo..hi], p, i);
    SliceOfSlice(s, lo, hi, i, i + |p|);
    assert OccursAt(s, p, lo + i);
    ContainsIffOccurs(s, p);
  }

  /** A string placed between two others occurs in the concatenation. */
  lemma ContainsInMiddle(a: string, p: string, b: string)
    ensures Contains(a + p + b, p)
  {
    var s := a + p + b;
    assert s[|a|..|a| + |p|] == p;
    assert OccursAt(s, p, |a|);
    ContainsIffOccurs(s, p);
  }

  /** Both strings placed between fixed parts occur in the result. */
  lemma ContainsBoth(a: string, x: string, b: string, y: string, c: string)
    ensures Contains(a + x + b + y + c, x)
    ensures Contains(a + x + b + y + c, y)
  {
    ContainsInMiddle(a, x, b + y + c);
    assert a + x + b + y + c == a + x + (b + y + c);
    ContainsInMiddle(a + x + b, y, c);
  }

  /** A string occurs in any string that it prefixes, and in any string that
      contains a string it occurs in. */
  lemma ContainsTransitive(s: string, q: string, p: string)
    requires Contains(s, q)
    requires Contains(q, p)
    ensures Contains(s, p)
  {
    ContainsIffOccurs(s, q);
    ContainsIffOccurs(q, p);
    var i :| OccursAt(s, q, i);
    var j :| OccursAt(q, p, j);
    SliceOfSlice(s, i, i + |q|, j, j + |p|);
    assert OccursAt(s, p, i + j);
    ContainsIffOccurs(s, p);
  }

  // ---------------------------------------------------------------------
  // ASCII lower-casing (Python `str.lower` on ASCII text)
  // ---------------------------------------------------------------------

  predicate IsUpper(c: char) {
    'A' <= c <= 'Z'
  }

  function LowerChar(c: char): char {
    if IsUpper(c) then (c as int + 32) as char else c
  }

  /** Python's `s.lower()` for ASCII letters; other characters are kept. */
  function Lower(s: string): (r: string)
    ensures |r| == |s|
    ensures forall i :: 0 <= i < |s| ==> r[i] == LowerChar(s[i])
  {
    seq(|s|, i requires 0 <= i < |s| => LowerChar(s[i]))
  }

  /** Lower-casing leaves no upper-case ASCII letter and is idempotent. */
  lemma LowerIsLower(s: string)
    ensures forall i :: 0 <= i < |Lower(s)| ==> !IsUpper(Lower(s)[i])
    ensures Lower(Lower(s)) == Lower(s)
  {
  }

  /** Lower-casing commutes with taking a slice. */
  lemma LowerSlice(s: string, lo: int, hi: int)
    requires 0 <= lo <= hi <= |s|
    ensures Lower(s)[lo..hi] == Lower(s[lo..hi])
  {
  }

  /** Case-insensitive matching: if `w` occurs in `s` in any mixture of
      cases, the lower-cased `w` occurs in the lower-cased `s`. */
  lemma ContainsLower(s: string, w: string)
    requires Contains(s, w)
    ensures Contains(Lower(s), Lower(w))
  {
    ContainsIffOccurs(s, w);
    var i :| OccursAt(s, w, i);
    LowerSlice(s, i, i + |w|);
    assert OccursAt(Lower(s), Lower(w), i);
    ContainsIffOccurs(Lower(s), Lower(w));
  }

  // ---------------------------------------------------------------------
  // Whitespace stripping (Python `str.strip()` with no argument)
  // ---------------------------------------------------------------------

  /** ASCII whitespace as Python's `str.isspace` sees it: space, tab, line
      feed, vertical tab, form feed, carriage return and the four
      information separators U+001C..U+001F. */
  predicate IsSpace(c: char) {
    c == ' ' || ('\t' <= c <= '\r') || ('\U{1C}' <= c <= '\U{1F}')
  }

  predicate AllSpace(s: string) {
    forall k :: 0 <= k < |s| ==> IsSpace(s[k])
  }

  /** Neither end of `s` is whitespace. */
  predicate Trimmed(s: string) {
    |s| == 0 || (!IsSpace(s[0]) && !IsSpace(s[|s| - 1]))
  }

  /** How many whitespace characters `s` starts with. */
  function LeadingSpaces(s: string): (n: nat)
    ensures n <= |s|
    ensures forall k :: 0 <= k < n ==> IsSpace(s[k])
    ensures n == |s| || !IsSpace(s[n])
    decreases |s|
  {
    if |s| > 0 && IsSpace(s[0]) then 1 + LeadingSpaces(s[1..]) else 0
  }

  /** Where the trailing whitespace of `s` starts. */
  function TrailingStart(s: string): (m: nat)
    ensures m <= |s|
    ensures forall k :: m <= k < |s| ==> IsSpace(s[k])
    ensures m == 0 || !IsSpace(s[m - 1])
    decreases |s|
  {
    if |s| > 0 && IsSpace(s[|s| - 1]) then TrailingStart(s[..|s| - 1]) else |s|
  }

  /** Python's `s.lstrip()`. */
  function StripLeft(s: string): string {
    s[LeadingSpaces(s)..]
  }

  /** Python's `s.rstrip()`. */
  function StripRight(s: string): string {
    s[..TrailingStart(s)]
  }

  /** Python's `s.strip()`: neither end of the result is whitespace. */
  function Strip(s: string): (r: string)
    ensures Trimmed(r)
    ensures |r| <= |s|
  {
    var l := StripLeft(s);
    var r := StripRight(l);
    assert |r| > 0 ==> r[0] == s[LeadingSpaces(s)];
    r
  }

  /** `Strip` only removes whitespace, and only at the ends: `s` is
      whitespace, then `Strip(s)`, then whitespace. */
  lemma StripRemovesPadding(s: string)
    ensures var i, r := LeadingSpaces(s), Strip(s);
      && i + |r| <= |s| && s[i..i + |r|] == r
      && (forall k :: 0 <= k < i ==> IsSpace(s[k]))
      && (forall k :: i + |r| <= k < |s| ==> IsSpace(s[k]))
  {
    var i := LeadingSpaces(s);
    var l := s[i..];
    var m := TrailingStart(l);
    assert Strip(s) == l[..m];
    SliceOfSlice(s, i, |s|, 0, m);
    assert s[i..|s|] == l;
    forall k | i + m <= k < |s|
      ensures IsSpace(s[k])
    {
      assert s[k] == l[k - i];
    }
  }

  /** Leading whitespace adds to the count of leading whitespace. */
  lemma {:induction false} LeadingSpacesSkip(w: string, t: string)
    requires AllSpace(w)
    ensures LeadingSpaces(w + t) == |w| + LeadingSpaces(t)
    decreases |w|
  {
    if |w| > 0 {
      assert (w + t)[1..] == w[1..] + t;
      LeadingSpacesSkip(w[1..], t);
    } else {
      assert w + t == t;
    }
  }

  /** Leading whitespace does not change the left-stripped result. */
  lemma StripLeftSkipsSpaces(w: string, t: string)
    requires AllSpace(w)
    ensures StripLeft(w + t) == StripLeft(t)
  {
    LeadingSpacesSkip(w, t);
    assert (w + t)[|w|..] == t;
  }

  /** Trailing whitespace does not move where the trailing whitespace of
      the rest starts. */
  lemma {:induction false} TrailingStartSkip(t: string, w: string)
    requires AllSpace(w)
    ensures TrailingStart(t + w) == TrailingStart(t)
    decreases |w|
  {
    if |w| > 0 {
      assert (t + w)[..|t + w| - 1] == t + w[..|w| - 1];
      TrailingStartSkip(t, w[..|w| - 1]);
    } else {
      assert t + w == t;
    }
  }

  /** Trailing whitespace does not change the right-stripped result. */
  lemma StripRightSkipsSpaces(t: string, w: string)
    requires AllSpace(w)
    ensures StripRight(t + w) == StripRight(t)
  {
    TrailingStartSkip(t, w);
    assert (t + w)[..TrailingStart(t)] == t[..TrailingStart(t)];
  }

  /** Stripping a trimmed string padded with whitespace recovers it. */
  lemma StripPadded(w1: string, t: string, w2: string)
    requires AllSpace(w1) && AllSpace(w2) && Trimmed(t)
    ensures Strip(w1 + t + w2) == t
  {
    var tw := t + w2;
    assert w1 + t + w2 == w1 + tw;
    StripLeftSkipsSpaces(w1, tw);
    if |t| == 0 {
      assert tw == w2 + [];
      StripLeftSkipsSpaces(w2, []);
      assert StripLeft(w1 + t + w2) == [];
    } else {
      assert tw[0] == t[0];
      assert StripLeft(tw) == tw;
      StripRightSkipsSpaces(t, w2);
      assert StripRight(t) == t;
    }
  }

  /** `Strip` is idempotent and leaves a trimmed string alone. */
  lemma StripTrimmed(s: string)
    requires Trimmed(s)
    ensures Strip(s) == s
  {
  }

  /** Stripping only removes characters, so it cannot create an occurrence. */
  lemma StripKeepsAbsence(s: string, p: string)
    requires !Contains(s, p)
    ensures !Contains(Strip(s), p)
  {
    StripRemovesPadding(s);
    var i := LeadingSpaces(s);
    if Contains(Strip(s), p) {
      ContainsInSlice(s, i, i + |Strip(s)|, p);
    }
  }

  // ---------------------------------------------------------------------
  // Replacement (Python `s.replace(p, rep)` with a non-empty `p`)
  // ---------------------------------------------------------------------

  /** Python's `s.replace(p, rep)`: scan left to right, replacing each
      non-overlapping occurrence of `p`. */
  function ReplaceAll(s: string, p: string, rep: string): (r: string)
    requires |p| > 0
    ensures !Contains(s, p) ==> r == s
    ensures |rep| <= |p| ==> |r| <= |s|
    decreases |s|
  {
    if |s| < |p| then s
    else if s[..|p|] == p then rep + ReplaceAll(s[|p|..], p, rep)
    else [s[0]] + ReplaceAll(s[1..], p, rep)
  }

  /** A prefix that cannot start an occurrence of `p` is copied through. */
  lemma {:induction false} ReplaceAllSkipsPrefix(t: string, u: string, p: string, rep: string)
    requires |p| > 0
    requires forall k :: 0 <= k < |t| ==> t[k] != p[0]
    ensures ReplaceAll(t + u, p, rep) == t + ReplaceAll(u, p, rep)
    decreases |t|
  {
    if |t| == 0 {
      assert t + u == u;
    } else if |t + u| < |p| {
      assert |u| < |p|;
    } else {
      assert (t + u)[..|p|][0] == t[0];
      assert (t + u)[1..] == t[1..] + u;
      ReplaceAllSkipsPrefix(t[1..], u, p, rep);
    }
  }

  /** Python's `s.join(xs)`. */
  function Join(sep: string, xs: seq<string>): (r: string)
    decreases |xs|
  {
    if |xs| == 0 then ""
    else if |xs| == 1 then xs[0]
    else xs[0] + sep + Join(sep, xs[1..])
  }

  // ---------------------------------------------------------------------
  // Splitting at a character (Python `s.split(c)`), the partner of `Join`
  // ---------------------------------------------------------------------

  /** Python's `s.split(c)`: the pieces between occurrences of `c`; always at
      least one piece. */
  function Split(s: string, c: char): (r: seq<string>)
    ensures |r| >= 1
    ensures forall k :: 0 <= k < |r| ==> c !in r[k]
    decreases |s|
  {
    if |s| == 0 then [""]
    else if s[0] == c then [""] + Split(s[1..], c)
    else
      var t := Split(s[1..], c);
      [[s[0]] + t[0]] + t[1..]
  }

  /** Splitting a string without the separator gives the string itself. */
  lemma {:induction false} SplitNoSeparator(a: string, c: char)
    requires c !in a
    ensures Split(a, c) == [a]
    decreases |a|
  {
    if |a| > 0 {
      assert c !in a[1..];
      SplitNoSeparator(a[1..], c);
      assert [a[0]] + a[1..] == a;
    }
  }

  /** Splitting `a + c + b` peels `a` off as the first piece. */
  lemma {:induction false} SplitFirstPiece(a: string, c: char, b: string)
    requires c !in a
    ensures Split(a + [c] + b, c) == [a] + Split(b, c)
    decreases |a|
  {
    var s := a + [c] + b;
    if |a| == 0 {
      assert s[1..] == b;
    } else {
      assert s[1..] == a[1..] + [c] + b;
      assert c !in a[1..];
      SplitFirstPiece(a[1..], c, b);
      assert [a[0]] + a[1..] == a;
    }
  }

  /** Round trip: splitting a newline-free list joined by its separator gives
      the list back. */
  lemma {:induction false} SplitJoin(xs: seq<string>, c: char)
    requires |xs| >= 1
    requires forall k :: 0 <= k < |xs| ==> c !in xs[k]
    ensures Split(Join([c], xs), c) == xs
    decreases |xs|
  {
    if |xs| == 1 {
      SplitNoSeparator(xs[0], c);
    } else {
      SplitJoin(xs[1..], c);
      SplitFirstPiece(xs[0], c, Join([c], xs[1..]));
      assert [xs[0]] + xs[1..] == xs;
    }
  }

  // ---------------------------------------------------------------------
  // Prefix of bounded length (Python `s[:n]`)
  // ---------------------------------------------------------------------

  /** Python's `s[:n]` for `n >= 0`. */
  function Take<T>(s: seq<T>, n: nat): (r: seq<T>)
    ensures |r| <= n && |r| <= |s|
    ensures r == s[..|r|]
    ensures |s| <= n ==> r == s
    ensures n <= |s| ==> |r| == n
  {
    if |s| <= n then s else s[..n]
  }
}
