/** Character-level string helpers that the list screens and the dashboard
    search rely on: lower-casing, substring search and whitespace trimming.
    Lower-casing covers the ASCII letters only (every string in the screens'
    data is ASCII); whitespace is the ASCII whitespace set. */
module Text {

  predicate IsUpper(c: char) { 'A' <= c <= 'Z' }

  /** The lower-case form of one character. */
  function LowerChar(c: char): (r: char)
    ensures !IsUpper(r)
    ensures !IsUpper(c) ==> r == c
    ensures IsUpper(c) ==> 'a' <= r <= 'z' && r as int - c as int == 32
  {
    if IsUpper(c) then (c as int + 32) as char else c
  }

  /** `s.toLowerCase()` on ASCII text. */
  function ToLower(s: string): (r: string)
    ensures |r| == |s|
    ensures forall i :: 0 <= i < |s| ==> r[i] == LowerChar(s[i])
  {
    seq(|s|, i requires 0 <= i < |s| => LowerChar(s[i]))
  }

  /** q occurs in s starting at position i. */
  predicate OccursAt(s: string, q: string, i: int)
  {
    0 <= i <= |s| - |q| && s[i..i + |q|] == q
  }

  /** `s.includes(q)`: some position of s starts a copy of q. */
  predicate Contains(s: string, q: string)
  {
    exists i :: 0 <= i <= |s| - |q| && OccursAt(s, q, i)
  }

  /** The case-insensitive search every list screen uses:
      `s.toLowerCase().includes(q.toLowerCase())`. */
  predicate IncludesIgnoringCase(s: string, q: string)
  {
    Contains(ToLower(s), ToLower(q))
  }

  /** The search scans s from the front: q is found when s starts with q, or
      when it is found in what follows the first character. */
  lemma {:induction false} ContainsScansFront(s: string, q: string)
    ensures Contains(s, q) <==> q <= s || (s != [] && Contains(s[1..], q))
  {
    if q <= s {
      assert OccursAt(s, q, 0);
    } else if s != [] {
      if Contains(s, q) {
        var i :| 0 <= i <= |s| - |q| && OccursAt(s, q, i);
        assert i != 0;
        assert s[1..][i - 1..i - 1 + |q|] == s[i..i + |q|];
        assert OccursAt(s[1..], q, i - 1);
      }
      if Contains(s[1..], q) {
        var j :| 0 <= j <= |s[1..]| - |q| && OccursAt(s[1..], q, j);
        assert s[1..][j..j + |q|] == s[j + 1..j + 1 + |q|];
        assert OccursAt(s, q, j + 1);
      }
    }
  }

  /** Every string contains the empty string, so an empty query matches. */
  lemma ContainsEmpty(s: string)
    ensures Contains(s, "")
  {
    assert OccursAt(s, "", 0);
  }

  /** Lower-casing twice is lower-casing once. */
  lemma ToLowerIdempotent(s: string)
    ensures ToLower(ToLower(s)) == ToLower(s)
  {
  }

  /** Two queries that differ only in letter case find the same strings. */
  lemma IncludesIgnoresQueryCase(s: string, q1: string, q2: string)
    requires ToLower(q1) == ToLower(q2)
    ensures IncludesIgnoringCase(s, q1) == IncludesIgnoringCase(s, q2)
  {
  }

  /** A query that has, at position k, a letter the text lacks in either
      case cannot be found in the text. */
  lemma {:induction false} MissingLetterNotIncluded(s: string, q: string, k: int)
    requires 0 <= k < |q|
    requires forall i :: 0 <= i < |s| ==> LowerChar(s[i]) != LowerChar(q[k])
    ensures !IncludesIgnoringCase(s, q)
  {
    var ls, lq := ToLower(s), ToLower(q);
    forall i | 0 <= i <= |ls| - |lq| ensures !OccursAt(ls, lq, i) {
      assert ls[i..i + |lq|][k] == ls[i + k] != lq[k];
    }
  }

  /** A query holding, at position k, a character that is not a letter and
      does not occur in the text cannot be found in the text. */
  lemma MissingSymbolNotIncluded(s: string, q: string, k: int)
    requires 0 <= k < |q|
    requires !('a' <= q[k] <= 'z') && !IsUpper(q[k])
    requires q[k] !in s
    ensures !IncludesIgnoringCase(s, q)
  {
    forall i | 0 <= i < |s| ensures LowerChar(s[i]) != LowerChar(q[k]) {
      assert s[i] in s;
    }
    MissingLetterNotIncluded(s, q, k);
  }

  /** A query holding, at position k, a lower-case letter that occurs in the
      text in neither case cannot be found in the text. */
  lemma MissingLowerNotIncluded(s: string, q: string, k: int)
    requires 0 <= k < |q| && 'a' <= q[k] <= 'z'
    requires forall i :: 0 <= i < |s| ==> s[i] != q[k] && s[i] != (q[k] as int - 32) as char
    ensures !IncludesIgnoringCase(s, q)
  {
    MissingLetterNotIncluded(s, q, k);
  }

  /** A query that matches the text at position i, letter by letter up to
      case, is found. */
  lemma {:induction false} OccurrenceIncluded(s: string, q: string, i: int)
    requires 0 <= i <= |s| - |q|
    requires forall j :: 0 <= j < |q| ==> LowerChar(s[i + j]) == LowerChar(q[j])
    ensures IncludesIgnoringCase(s, q)
  {
    var ls, lq := ToLower(s), ToLower(q);
    assert OccursAt(ls, lq, i);
  }

  /** q matches s at position i letter by letter, up to case. */
  predicate MatchesUpToCase(s: string, q: string, i: int)
  {
    0 <= i <= |s| - |q| && forall j :: 0 <= j < |q| ==> LowerChar(s[i + j]) == LowerChar(q[j])
  }

  /** The case-insensitive search finds q exactly when q matches some
      position of s up to case. */
  lemma IncludesIffMatchesAt(s: string, q: string)
    ensures IncludesIgnoringCase(s, q) <==> exists i :: MatchesUpToCase(s, q, i)
  {
    var ls, lq := ToLower(s), ToLower(q);
    if IncludesIgnoringCase(s, q) {
      var i :| 0 <= i <= |ls| - |lq| && OccursAt(ls, lq, i);
      forall j | 0 <= j < |q| ensures LowerChar(s[i + j]) == LowerChar(q[j]) {
        assert ls[i..i + |lq|][j] == ls[i + j];
      }
      assert MatchesUpToCase(s, q, i);
    }
    if exists i :: MatchesUpToCase(s, q, i) {
      var i :| MatchesUpToCase(s, q, i);
      OccurrenceIncluded(s, q, i);
    }
  }

  /** The characters `String.prototype.trim` strips (ASCII subset). */
  predicate IsWhitespace(c: char)
  {
    c == ' ' || c == '\t' || c == '\n' || c == '\r' || c == '\U{000B}' || c == '\U{000C}'
  }

  /** `s` without its leading whitespace. */
  function TrimStart(s: string): (r: string)
    ensures |r| <= |s| && r == s[|s| - |r|..]
    ensures forall i :: 0 <= i < |s| - |r| ==> IsWhitespace(s[i])
    ensures r == [] || !IsWhitespace(r[0])
  {
    if s != [] && IsWhitespace(s[0]) then TrimStart(s[1..]) else s
  }

  /** `s` without its trailing whitespace. */
  function TrimEnd(s: string): (r: string)
    ensures |r| <= |s| && r == s[..|r|]
    ensures forall i :: |r| <= i < |s| ==> IsWhitespace(s[i])
    ensures r == [] || !IsWhitespace(r[|r| - 1])
  {
    if s != [] && IsWhitespace(s[|s| - 1]) then TrimEnd(s[..|s| - 1]) else s
  }

  /** r is the slice of s at k with only whitespace around it. */
  predicate StrippedAt(s: string, r: string, k: int)
  {
    && 0 <= k <= |s| - |r| && s[k..k + |r|] == r
    && (forall i :: 0 <= i < k ==> IsWhitespace(s[i]))
    && (forall i :: k + |r| <= i < |s| ==> IsWhitespace(s[i]))
  }

  /** `s.trim()`: the slice of s left once the whitespace at both ends is
      removed; it neither starts nor ends with whitespace. */
  function Trim(s: string): (r: string)
    ensures exists k :: StrippedAt(s, r, k)
    ensures r == [] || (!IsWhitespace(r[0]) && !IsWhitespace(r[|r| - 1]))
  {
    var t := TrimStart(s);
    var r := TrimEnd(t);
    StripsBothEnds(s, t, r);
    r
  }

  /** Stripping whitespace from the front of s, then from the back of what
      is left, leaves the slice of s at the length removed first. */
  lemma StripsBothEnds(s: string, t: string, r: string)
    requires |t| <= |s| && t == s[|s| - |t|..] && forall i :: 0 <= i < |s| - |t| ==> IsWhitespace(s[i])
    requires |r| <= |t| && r == t[..|r|] && forall i :: |r| <= i < |t| ==> IsWhitespace(t[i])
    ensures StrippedAt(s, r, |s| - |t|)
  {
    var k := |s| - |t|;
    assert s[k..k + |r|] == r;
    forall i | k + |r| <= i < |s| ensures IsWhitespace(s[i]) {
      assert s[i] == t[i - k];
    }
  }

  /** A string trims to nothing exactly when it is all whitespace. */
  lemma TrimEmptyIffBlank(s: string)
    ensures Trim(s) == [] <==> forall i :: 0 <= i < |s| ==> IsWhitespace(s[i])
  {
  }
}
