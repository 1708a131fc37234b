/** The JavaScript built-ins that both campaign-grouping components rely on,
    modelled only as far as the components use them: ASCII case folding
    (`String.prototype.toLowerCase`), `String.prototype.includes`,
    `String.prototype.trim`, `Math.round`, `Array.prototype.find` and the
    `filter(id => id !== x)` idiom. */
module JsSemantics {

  datatype Option<+T> = None | Some(value: T)

  /** How a backend (Apex) promise settles: resolved, or rejected with the
      text of `error.body.message`. */
  datatype Outcome = Success | Failure(message: string)

  /** How an event handler ends: by returning, or by throwing a TypeError
      because it read a property of `undefined`. */
  datatype Completion = Returned | ThrewTypeError

  /** A value computed by code that may throw a TypeError. */
  datatype Result<+T> = Ok(value: T) | TypeError

  // ---------------------------------------------------------------------
  // toLowerCase, restricted to the ASCII letters A-Z
  // ---------------------------------------------------------------------

  predicate IsAsciiUpper(c: char) {
    'A' <= c <= 'Z'
  }

  function ToLowerChar(c: char): char {
    if IsAsciiUpper(c) then (c as int - 'A' as int + 'a' as int) as char else c
  }

  /** `s.toLowerCase()` for the ASCII letters; every other character is kept. */
  function ToLower(s: string): (r: string)
    ensures |r| == |s|
    ensures forall i :: 0 <= i < |s| ==> r[i] == ToLowerChar(s[i])
  {
    if s == [] then [] else [ToLowerChar(s[0])] + ToLower(s[1..])
  }

  /** Lower-casing leaves no ASCII capital behind, so doing it twice is doing it once. */
  lemma ToLowerIdempotent(s: string)
    ensures ToLower(ToLower(s)) == ToLower(s)
  {
    var once := ToLower(s);
    assert forall i :: 0 <= i < |once| ==> !IsAsciiUpper(once[i]);
  }

  /** Lower-casing is determined character by character. */
  lemma ToLowerPointwise(s: string, t: string)
    requires |s| == |t| && forall i :: 0 <= i < |s| ==> ToLowerChar(s[i]) == t[i]
    ensures ToLower(s) == t
  {
  }

  // ---------------------------------------------------------------------
  // includes
  // ---------------------------------------------------------------------

  /** `s.includes(k)`: k is a prefix of s or of one of its suffixes. */
  predicate Includes(s: string, k: string)
    decreases |s|
  {
    k <= s || (|s| > 0 && Includes(s[1..], k))
  }

  /** k occurs in s starting at index i. */
  predicate OccursAt(s: string, k: string, i: int) {
    0 <= i && i + |k| <= |s| && s[i..i + |k|] == k
  }

  /** The recursive definition of `includes` agrees with the positional one. */
  lemma {:induction false} IncludesIffOccurs(s: string, k: string)
    ensures Includes(s, k) <==> exists i :: OccursAt(s, k, i)
    decreases |s|
  {
    if Includes(s, k) {
      if k <= s {
        assert s[0..|k|] == k;
        assert OccursAt(s, k, 0);
      } else {
        IncludesIffOccurs(s[1..], k);
        var j :| OccursAt(s[1..], k, j);
        forall m | 0 <= m < |k| ensures s[j + 1 + m] == k[m] {
          assert s[1..][j..j + |k|][m] == k[m];
        }
        assert s[j + 1..j + 1 + |k|] == k;
        assert OccursAt(s, k, j + 1);
      }
    }
    forall i | OccursAt(s, k, i) ensures Includes(s, k) {
      if i == 0 {
        assert s[..|k|] == k;
      } else {
        forall m | 0 <= m < |k| ensures s[1..][i - 1 + m] == k[m] {
          assert s[i..i + |k|][m] == k[m];
        }
        assert s[1..][i - 1..i - 1 + |k|] == k;
        assert OccursAt(s[1..], k, i - 1);
        IncludesIffOccurs(s[1..], k);
      }
    }
  }

  /** A string lacking some character of k does not include k. */
  lemma {:induction false} IncludesNeedsEveryChar(s: string, k: string, c: char)
    requires c in k && c !in s
    ensures !Includes(s, k)
    decreases |s|
  {
    if |s| > 0 {
      assert c !in s[1..];
      IncludesNeedsEveryChar(s[1..], k, c);
    }
  }

  // ---------------------------------------------------------------------
  // trim
  // ---------------------------------------------------------------------

  /** The characters `trim` removes: ECMAScript WhiteSpace (tab, vertical tab,
      form feed, space, no-break space, zero-width no-break space and the
      Unicode space separators) and LineTerminator. */
  predicate IsWhiteSpace(c: char) {
    c in {'\U{9}', '\U{A}', '\U{B}', '\U{C}', '\U{D}', '\U{20}', '\U{A0}', '\U{1680}',
          '\U{2000}', '\U{2001}', '\U{2002}', '\U{2003}', '\U{2004}', '\U{2005}',
          '\U{2006}', '\U{2007}', '\U{2008}', '\U{2009}', '\U{200A}',
          '\U{2028}', '\U{2029}', '\U{202F}', '\U{205F}', '\U{3000}', '\U{FEFF}'}
  }

  predicate IsBlank(s: string) {
    forall i :: 0 <= i < |s| ==> IsWhiteSpace(s[i])
  }

  /** Drops leading white space: the result is a suffix of s, what was dropped
      is all white space, and the result does not start with white space. */
  function TrimStart(s: string): (r: string)
    ensures |r| <= |s| && r == s[|s| - |r|..]
    ensures IsBlank(s[..|s| - |r|])
    ensures r == [] || !IsWhiteSpace(r[0])
  {
    if |s| > 0 && IsWhiteSpace(s[0]) then
      var r := TrimStart(s[1..]);
      assert forall i :: 0 < i < |s| ==> s[1..][i - 1] == s[i];
      r
    else s
  }

  /** Drops trailing white space: the result is a prefix of s, what was dropped
      is all white space, and the result does not end with white space. */
  function TrimEnd(s: string): (r: string)
    ensures |r| <= |s| && r == s[..|r|]
    ensures IsBlank(s[|r|..])
    ensures r == [] || !IsWhiteSpace(r[|r| - 1])
  {
    if |s| > 0 && IsWhiteSpace(s[|s| - 1]) then
      var r := TrimEnd(s[..|s| - 1]);
      assert forall i :: 0 <= i < |s| - 1 ==> s[..|s| - 1][i] == s[i];
      r
    else s
  }

  /** `s.trim()`: empty exactly when s is all white space, and otherwise
      neither starts nor ends with white space. */
  function Trim(s: string): (r: string)
    ensures r == [] <==> IsBlank(s)
    ensures r != [] ==> !IsWhiteSpace(r[0]) && !IsWhiteSpace(r[|r| - 1])
  {
    var t := TrimStart(s);
    var r := TrimEnd(t);
    assert t != [] ==> t[0] == s[|s| - |t|];
    assert t == [] ==> IsBlank(s) by {
      if t == [] {
        assert s[..|s|] == s;
      }
    }
    r
  }

  // ---------------------------------------------------------------------
  // Math.round
  // ---------------------------------------------------------------------

  /** `Math.round(x)` over the reals: the integer nearest to x, halves rounded
      up (towards positive infinity). */
  function MathRound(x: real): (r: int)
    ensures x - 0.5 < r as real <= x + 0.5
  {
    (x + 0.5).Floor
  }

  // ---------------------------------------------------------------------
  // Array.prototype.find
  // ---------------------------------------------------------------------

  /** The index `xs.find(p)` stops at: the first element satisfying p. */
  function FindIndex<T>(xs: seq<T>, p: T -> bool): (r: Option<nat>)
    ensures r.Some? ==> r.value < |xs| && p(xs[r.value])
    ensures r.Some? ==> forall j :: 0 <= j < r.value ==> !p(xs[j])
    ensures r.None? <==> forall j :: 0 <= j < |xs| ==> !p(xs[j])
  {
    if xs == [] then None
    else if p(xs[0]) then Some(0)
    else match FindIndex(xs[1..], p)
      case None => None
      case Some(k) => Some(k + 1)
  }

  /** `xs.find(p)`, with `undefined` as None: the first element satisfying p. */
  function Find<T>(xs: seq<T>, p: T -> bool): (r: Option<T>)
    ensures r.None? <==> forall j :: 0 <= j < |xs| ==> !p(xs[j])
    ensures r.Some? ==> p(r.value) && r.value in xs
    ensures r.Some? ==> exists k :: 0 <= k < |xs| && xs[k] == r.value && forall j :: 0 <= j < k ==> !p(xs[j])
  {
    match FindIndex(xs, p)
    case None => None
    case Some(k) => Some(xs[k])
  }

  // ---------------------------------------------------------------------
  // xs.filter(y => y !== x)
  // ---------------------------------------------------------------------

  /** a can be obtained from b by deleting elements (relative order kept). */
  predicate IsSubsequence<T(==)>(a: seq<T>, b: seq<T>)
    decreases |b|
  {
    a == [] || (b != [] && ((a[0] == b[0] && IsSubsequence(a[1..], b[1..])) || IsSubsequence(a, b[1..])))
  }

  predicate NoDuplicates<T(==)>(xs: seq<T>) {
    forall i, j :: 0 <= i < j < |xs| ==> xs[i] != xs[j]
  }

  /** `xs.filter(y => y !== x)`: every occurrence of x goes, every other
      element keeps its count and its relative order. */
  function RemoveAll<T(==)>(xs: seq<T>, x: T): (r: seq<T>)
    ensures multiset(r) == multiset(xs)[x := 0]
    ensures IsSubsequence(r, xs)
  {
    if xs == [] then []
    else
      var rest := RemoveAll(xs[1..], x);
      assert xs == [xs[0]] + xs[1..];
      if xs[0] == x then rest else
        [xs[0]] + rest
  }

  /** Removing every occurrence of x keeps a list duplicate-free. */
  lemma {:induction false} RemoveAllKeepsNoDuplicates<T>(xs: seq<T>, x: T)
    requires NoDuplicates(xs)
    ensures NoDuplicates(RemoveAll(xs, x))
    decreases |xs|
  {
    if xs != [] {
      var rest := RemoveAll(xs[1..], x);
      RemoveAllKeepsNoDuplicates(xs[1..], x);
      if xs[0] != x {
        forall k | 0 <= k < |xs[1..]| ensures xs[1..][k] != xs[0] {
          assert xs[1..][k] == xs[k + 1];
        }
        assert multiset(xs[1..])[xs[0]] == 0;
        assert multiset(rest)[xs[0]] == 0;
        assert xs[0] !in rest;
        var r := [xs[0]] + rest;
        forall i, j | 0 <= i < j < |r| ensures r[i] != r[j] {
          if i == 0 {
            assert r[j] == rest[j - 1];
          } else {
            assert r[i] == rest[i - 1] && r[j] == rest[j - 1];
          }
        }
      }
    }
  }

  /** Filtering out a value that is absent changes nothing. */
  lemma {:induction false} RemoveAllAbsent<T>(xs: seq<T>, x: T)
    requires x !in xs
    ensures RemoveAll(xs, x) == xs
    decreases |xs|
  {
    if xs != [] {
      assert x !in xs[1..];
      RemoveAllAbsent(xs[1..], x);
    }
  }

  /** Filtering distributes over concatenation. */
  lemma {:induction false} RemoveAllAppend<T>(xs: seq<T>, ys: seq<T>, x: T)
    ensures RemoveAll(xs + ys, x) == RemoveAll(xs, x) + RemoveAll(ys, x)
    decreases |xs|
  {
    if xs != [] {
      assert (xs + ys)[1..] == xs[1..] + ys;
      RemoveAllAppend(xs[1..], ys, x);
    } else {
      assert xs + ys == ys;
    }
  }
}
