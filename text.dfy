/** The two JavaScript string built-ins the core relies on:
    `String.prototype.trim` (Mongoose's `trim: true` setter) and
    `String.prototype.replace` with a string pattern (the bearer-prefix strip). */
module Text {
  import opened Basics

  /** WhiteSpace and LineTerminator code points as ECMAScript's `trim` removes them:
      TAB, VT, FF, SP, NBSP, ZWNBSP, the Space_Separator category (U+1680, U+2000 to
      U+200A, U+202F, U+205F, U+3000), LF, CR, LS and PS. */
  const JsWhitespace: set<char> := {
    '\t', '\U{B}', '\U{C}', ' ', '\U{A0}', '\U{FEFF}', '\U{1680}',
    '\U{2000}', '\U{2001}', '\U{2002}', '\U{2003}', '\U{2004}', '\U{2005}',
    '\U{2006}', '\U{2007}', '\U{2008}', '\U{2009}', '\U{200A}',
    '\U{202F}', '\U{205F}', '\U{3000}', '\n', '\r', '\U{2028}', '\U{2029}'
  }

  predicate IsJsWhitespace(c: char)
  {
    c in JsWhitespace
  }

  /** Removes leading whitespace: the result is the longest suffix that does not start with whitespace. */
  function TrimStart(s: string): (r: string)
    ensures |r| <= |s| && r == s[|s| - |r|..]
    ensures r == [] || !IsJsWhitespace(r[0])
    ensures forall i :: 0 <= i < |s| - |r| ==> IsJsWhitespace(s[i])
  {
    if s == [] || !IsJsWhitespace(s[0]) then s else TrimStart(s[1..])
  }

  /** Removes trailing whitespace: the result is the longest prefix that does not end with whitespace. */
  function TrimEnd(s: string): (r: string)
    ensures |r| <= |s| && r == s[..|r|]
    ensures r == [] || !IsJsWhitespace(r[|r| - 1])
    ensures forall i :: |r| <= i < |s| ==> IsJsWhitespace(s[i])
  {
    if s == [] || !IsJsWhitespace(s[|s| - 1]) then s else TrimEnd(s[..|s| - 1])
  }

  /** `String.prototype.trim`: leading and trailing whitespace removed. */
  function Trim(s: string): (r: string)
    ensures |r| <= |s|
  {
    TrimEnd(TrimStart(s))
  }

  /** A string `trim` leaves unchanged. */
  predicate IsTrimmed(s: string)
  {
    s == [] || (!IsJsWhitespace(s[0]) && !IsJsWhitespace(s[|s| - 1]))
  }

  /** Where `trim` starts cutting: the number of leading whitespace characters. */
  function TrimOffset(s: string): (r: nat)
    ensures r <= |s|
  {
    |s| - |TrimStart(s)|
  }

  /** The trimmed string is the slice of the input from `TrimOffset(s)`. */
  lemma TrimSliceBounds(s: string)
    ensures TrimOffset(s) + |Trim(s)| <= |s| && Trim(s) == s[TrimOffset(s)..TrimOffset(s) + |Trim(s)|]
  {
    var t := TrimStart(s);
    var u := TrimEnd(t);
    assert t == s[TrimOffset(s)..];
    assert u == t[..|u|];
  }

  /** Everything after the trimmed slice is whitespace. */
  lemma TrimTailIsWhitespace(s: string)
    ensures forall k :: TrimOffset(s) + |Trim(s)| <= k < |s| ==> IsJsWhitespace(s[k])
  {
    var t := TrimStart(s);
    var i := TrimOffset(s);
    assert t == s[i..];
    forall k | i + |Trim(s)| <= k < |s| ensures IsJsWhitespace(s[k]) {
      assert s[k] == t[k - i];
    }
  }

  /** The trimmed string is a contiguous slice of the input; everything cut away on
      either side is whitespace. */
  lemma TrimIsSlice(s: string)
    ensures var i := TrimOffset(s);
      && i + |Trim(s)| <= |s| && Trim(s) == s[i..i + |Trim(s)|]
      && (forall k :: 0 <= k < i ==> IsJsWhitespace(s[k]))
      && (forall k :: i + |Trim(s)| <= k < |s| ==> IsJsWhitespace(s[k]))
  {
    TrimSliceBounds(s);
    TrimTailIsWhitespace(s);
  }

  /** The result of `trim` neither starts nor ends with whitespace. */
  lemma TrimIsTrimmed(s: string)
    ensures IsTrimmed(Trim(s))
  {
    var t := TrimStart(s);
    var u := TrimEnd(t);
    if u != [] {
      assert u == t[..|u|];
      assert u[0] == t[0];
    }
  }

  /** Trimming a trimmed string changes nothing. */
  lemma TrimOfTrimmed(s: string)
    requires IsTrimmed(s)
    ensures Trim(s) == s
  {
  }

  /** `trim` is idempotent: Mongoose's setter applied twice stores the same value. */
  lemma TrimIdempotent(s: string)
    ensures Trim(Trim(s)) == Trim(s)
  {
    TrimIsTrimmed(s);
    TrimOfTrimmed(Trim(s));
  }

  /** Some character of `s` is not whitespace. */
  predicate NotBlank(s: string)
  {
    exists k :: 0 <= k < |s| && !IsJsWhitespace(s[k])
  }

  /** A string is empty after trimming exactly when it consists of whitespace only. */
  lemma TrimEmptyIffBlank(s: string)
    ensures Trim(s) != [] <==> NotBlank(s)
  {
    TrimIsSlice(s);
    if Trim(s) != [] {
      TrimIsTrimmed(s);
      assert Trim(s)[0] == s[TrimOffset(s)];
    }
  }

  /** `pat` occurs in `s` at position `i`. */
  predicate OccursAt(s: string, pat: string, i: nat)
  {
    i + |pat| <= |s| && s[i..i + |pat|] == pat
  }

  /** Occurrences in `s` from position 1 on are the occurrences in `s[1..]`, shifted by one. */
  lemma OccursShift(s: string, pat: string)
    requires s != []
    ensures forall k :: 1 <= k <= |s| ==> (OccursAt(s, pat, k) <==> OccursAt(s[1..], pat, k - 1))
  {
    forall k | 1 <= k <= |s| ensures OccursAt(s, pat, k) <==> OccursAt(s[1..], pat, k - 1) {
      if k + |pat| <= |s| {
        var a, b := s[k..k + |pat|], s[1..][k - 1..k - 1 + |pat|];
        assert forall m :: 0 <= m < |pat| ==> a[m] == b[m];
        assert a == b;
      }
    }
  }

  /** The first occurrence of `pat` in `s` (JavaScript's `indexOf`, with None for -1). */
  function IndexOf(s: string, pat: string): (r: Option<nat>)
    ensures r.Some? ==> OccursAt(s, pat, r.value)
    ensures r.Some? ==> forall k :: 0 <= k < r.value ==> !OccursAt(s, pat, k)
    ensures r.None? ==> forall k :: 0 <= k <= |s| ==> !OccursAt(s, pat, k)
    decreases |s|
  {
    if |pat| > |s| then None
    else if s[..|pat|] == pat then Some(0)
    else
      OccursShift(s, pat);
      match IndexOf(s[1..], pat)
      case None => None
      case Some(i) => Some(i + 1)
  }

  /** `s.replace(pat, rep)` for a string `pat`: only the FIRST occurrence is replaced,
      wherever it stands; without an occurrence the string is returned unchanged.
      (Replacement patterns such as `$&` do not arise: every caller passes a literal.) */
  function ReplaceFirst(s: string, pat: string, rep: string): (r: string)
    ensures IndexOf(s, pat).None? ==> r == s
    ensures IndexOf(s, pat).Some? ==>
              var i := IndexOf(s, pat).value;
              |r| == |s| - |pat| + |rep| && r == s[..i] + rep + s[i + |pat|..]
  {
    match IndexOf(s, pat)
    case None => s
    case Some(i) => s[..i] + rep + s[i + |pat|..]
  }

  /** Replacing the first occurrence in `pat + t` removes exactly the leading `pat`,
      even when `t` itself contains `pat` again. */
  lemma ReplaceFirstOfPrefixed(pat: string, rep: string, t: string)
    ensures ReplaceFirst(pat + t, pat, rep) == rep + t
  {
    assert (pat + t)[..|pat|] == pat;
    assert (pat + t)[|pat|..] == t;
  }
}
