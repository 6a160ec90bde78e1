/**
 * Text operations the finance tracker relies on: Python's `str.strip()`
 * (used by the edit window on its fields) and the order SQLite's default
 * BINARY collation puts on TEXT values (used by every date-range filter).
 */
module Text {

  /** The characters Python's `str.isspace()` accepts, i.e. what `strip()` removes. */
  const SpaceChars: set<char> :=
    { '\t', '\n', '\U{0B}', '\U{0C}', '\r', '\U{1C}', '\U{1D}', '\U{1E}',
      '\U{1F}', ' ', '\U{85}', '\U{A0}', '\U{1680}', '\U{2000}', '\U{2001}', '\U{2002}',
      '\U{2003}', '\U{2004}', '\U{2005}', '\U{2006}', '\U{2007}', '\U{2008}', '\U{2009}', '\U{200A}',
      '\U{2028}', '\U{2029}', '\U{202F}', '\U{205F}', '\U{3000}' }

  predicate IsSpace(c: char)
  {
    c in SpaceChars
  }

  predicate AllSpace(s: string)
  {
    forall i :: 0 <= i < |s| ==> IsSpace(s[i])
  }

  /** Scanning right from `i`: the first position that is not whitespace (or the end). */
  function SkipLeading(s: string, i: nat): (k: nat)
    requires i <= |s|
    ensures i <= k <= |s|
    ensures forall p :: i <= p < k ==> IsSpace(s[p])
    ensures k < |s| ==> !IsSpace(s[k])
    decreases |s| - i
  {
    if i < |s| && IsSpace(s[i]) then SkipLeading(s, i + 1) else i
  }

  /** Scanning left from `j` down to `lo`: the end of the text once trailing whitespace is dropped. */
  function SkipTrailing(s: string, lo: nat, j: nat): (k: nat)
    requires lo <= j <= |s|
    ensures lo <= k <= j
    ensures forall p :: k <= p < j ==> IsSpace(s[p])
    ensures k > lo ==> !IsSpace(s[k - 1])
  {
    if j > lo && IsSpace(s[j - 1]) then SkipTrailing(s, lo, j - 1) else j
  }

  /**
   * `s.strip()`: the text between the leading and the trailing whitespace,
   * found as CPython finds it, scanning in from the left and then from the right.
   */
  function Strip(s: string): (r: string)
  {
    var i := SkipLeading(s, 0);
    s[i..SkipTrailing(s, i, |s|)]
  }

  /**
   * `Strip(s)` is a slice `s[i..j]` with only whitespace outside it and
   * no whitespace at either of its ends.
   */
  lemma StripIsTrimmedSlice(s: string)
    ensures exists i, j :: 0 <= i <= j <= |s| && Strip(s) == s[i..j]
                           && AllSpace(s[..i]) && AllSpace(s[j..])
    ensures Strip(s) != [] ==> !IsSpace(Strip(s)[0]) && !IsSpace(Strip(s)[|Strip(s)| - 1])
  {
    var i := SkipLeading(s, 0);
    var j := SkipTrailing(s, i, |s|);
    assert AllSpace(s[..i]) && AllSpace(s[j..]);
  }

  /** A field left blank or filled with whitespace only strips to "". */
  lemma StripEmptyIffBlank(s: string)
    ensures Strip(s) == [] <==> AllSpace(s)
  {
    var i := SkipLeading(s, 0);
    var j := SkipTrailing(s, i, |s|);
    if AllSpace(s) {
      assert i == |s|;
    }
  }

  /** Stripping twice strips nothing more. */
  lemma StripIdempotent(s: string)
    ensures Strip(Strip(s)) == Strip(s)
  {
    var r := Strip(s);
    StripIsTrimmedSlice(s);
    if r != [] {
      assert SkipLeading(r, 0) == 0;
      assert SkipTrailing(r, 0, |r|) == |r|;
    }
  }

  /**
   * `a < b` between two TEXT values under SQLite's BINARY collation:
   * compare character by character (UTF-8 bytes order as code points do),
   * and a proper prefix sorts first.
   */
  predicate LexLess(a: string, b: string)
  {
    if a == [] then b != []
    else if b == [] then false
    else if a[0] != b[0] then a[0] < b[0]
    else LexLess(a[1..], b[1..])
  }

  /** BINARY collation is a strict total order: exactly one of a < b, a == b, b < a. */
  lemma {:induction false} LexTrichotomy(a: string, b: string)
    ensures LexLess(a, b) || a == b || LexLess(b, a)
    ensures !(LexLess(a, b) && LexLess(b, a))
    ensures !LexLess(a, a)
  {
    if a != [] && b != [] && a[0] == b[0] {
      LexTrichotomy(a[1..], b[1..]);
      if a[1..] == b[1..] {
        assert a == [a[0]] + a[1..] && b == [b[0]] + b[1..];
      }
    } else if a != [] && a == b {
      assert false;
    }
    if a != [] {
      LexIrreflexive(a);
    }
  }

  lemma {:induction false} LexIrreflexive(a: string)
    ensures !LexLess(a, a)
  {
    if a != [] {
      LexIrreflexive(a[1..]);
    }
  }

  lemma {:induction false} LexTransitive(a: string, b: string, c: string)
    requires LexLess(a, b) && LexLess(b, c)
    ensures LexLess(a, c)
  {
    if a != [] && b != [] && c != [] && a[0] == b[0] && b[0] == c[0] {
      LexTransitive(a[1..], b[1..], c[1..]);
    }
  }

  /**
   * Two texts that start with equally long heads compare by their heads
   * first and, when the heads are equal, by their tails.
   */
  lemma {:induction false} LexConcat(x: string, u: string, y: string, v: string)
    requires |x| == |y|
    ensures LexLess(x + u, y + v) <==> LexLess(x, y) || (x == y && LexLess(u, v))
  {
    if x != [] {
      assert (x + u)[0] == x[0] && (y + v)[0] == y[0];
      assert (x + u)[1..] == x[1..] + u && (y + v)[1..] == y[1..] + v;
      LexConcat(x[1..], u, y[1..], v);
      assert x == [x[0]] + x[1..] && y == [y[0]] + y[1..];
    } else {
      assert x + u == u && y + v == v;
    }
  }
}
