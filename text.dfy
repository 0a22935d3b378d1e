/**
 * The string operations the application calls: `trim`, `toUpperCase`,
 * `toLowerCase`, `startsWith` and `replace` with a string pattern.
 */
module Text {

  /**
   * The characters `String.prototype.trim` strips: ECMAScript WhiteSpace
   * (tab, vertical tab, form feed, space, no-break space, byte order mark and
   * the Unicode space separators) and LineTerminator (LF, CR, LS, PS).
   */
  predicate IsSpace(c: char)
  {
    c == '\t' || c == '\n' || c == '\U{000B}' || c == '\U{000C}' || c == '\r' || c == ' ' ||
    c == '\U{00A0}' || c == '\U{1680}' || ('\U{2000}' <= c <= '\U{200A}') ||
    c == '\U{2028}' || c == '\U{2029}' || c == '\U{202F}' || c == '\U{205F}' ||
    c == '\U{3000}' || c == '\U{FEFF}'
  }

  predicate AllSpace(s: string)
  {
    forall i :: 0 <= i < |s| ==> IsSpace(s[i])
  }

  function TrimStart(s: string): (r: string)
    decreases |s|
  {
    if s != [] && IsSpace(s[0]) then TrimStart(s[1..]) else s
  }

  function TrimEnd(s: string): (r: string)
    decreases |s|
  {
    if s != [] && IsSpace(s[|s| - 1]) then TrimEnd(s[..|s| - 1]) else s
  }

  /** `s.trim()`. */
  function Trim(s: string): (r: string)
  {
    TrimEnd(TrimStart(s))
  }

  /** A trimmed string neither starts nor ends with white space. */
  predicate IsTrimmed(s: string)
  {
    s == [] || (!IsSpace(s[0]) && !IsSpace(s[|s| - 1]))
  }

  /** TrimStart removes exactly a leading run of white space. */
  lemma {:induction false} TrimStartSplits(s: string)
    ensures exists k :: 0 <= k <= |s| && AllSpace(s[..k]) && TrimStart(s) == s[k..]
    ensures TrimStart(s) == [] || !IsSpace(TrimStart(s)[0])
    decreases |s|
  {
    if s != [] && IsSpace(s[0]) {
      TrimStartSplits(s[1..]);
      var t := s[1..];
      var k :| 0 <= k <= |t| && AllSpace(t[..k]) && TrimStart(t) == t[k..];
      var head := s[..k + 1];
      forall i | 0 <= i < |head| ensures IsSpace(head[i]) {
        if i > 0 { assert head[i] == t[..k][i - 1]; }
      }
      assert s[k + 1..] == t[k..];
    } else {
      assert s[..0] == [];
    }
  }

  /** TrimEnd removes exactly a trailing run of white space. */
  lemma {:induction false} TrimEndSplits(s: string)
    ensures exists k :: 0 <= k <= |s| && AllSpace(s[k..]) && TrimEnd(s) == s[..k]
    ensures TrimEnd(s) == [] || !IsSpace(TrimEnd(s)[|TrimEnd(s)| - 1])
    decreases |s|
  {
    if s != [] && IsSpace(s[|s| - 1]) {
      var t := s[..|s| - 1];
      TrimEndSplits(t);
      var k :| 0 <= k <= |t| && AllSpace(t[k..]) && TrimEnd(t) == t[..k];
      assert s[k..] == t[k..] + [s[|s| - 1]];
      assert s[..k] == t[..k];
    } else {
      assert s[|s|..] == [];
    }
  }

  /** TrimEnd of a string that does not start with white space does not either. */
  lemma {:induction false} TrimEndKeepsFirst(s: string)
    requires s != [] && !IsSpace(s[0])
    ensures TrimEnd(s) != [] && TrimEnd(s)[0] == s[0]
    decreases |s|
  {
    if IsSpace(s[|s| - 1]) {
      TrimEndKeepsFirst(s[..|s| - 1]);
    }
  }

  /** The result of `trim` has no white space at either end. */
  lemma TrimIsTrimmed(s: string)
    ensures IsTrimmed(Trim(s))
  {
    var t := TrimStart(s);
    TrimStartSplits(s);
    TrimEndSplits(t);
    if t != [] { TrimEndKeepsFirst(t); }
  }

  /** Trimming a string with no white space at either end changes nothing. */
  lemma TrimOfTrimmed(s: string)
    requires IsTrimmed(s)
    ensures Trim(s) == s
  {
  }

  /** `trim` is idempotent. */
  lemma TrimIdempotent(s: string)
    ensures Trim(Trim(s)) == Trim(s)
  {
    TrimIsTrimmed(s);
    TrimOfTrimmed(Trim(s));
  }

  /** `s.trim()` is empty exactly when `s` is only white space: `!s.trim()` means "blank". */
  lemma {:induction false} TrimEmptyIffAllSpace(s: string)
    ensures Trim(s) == "" <==> AllSpace(s)
  {
    TrimStartSplits(s);
    var k :| 0 <= k <= |s| && AllSpace(s[..k]) && TrimStart(s) == s[k..];
    TrimEndSplits(s[k..]);
    if Trim(s) == "" {
      var j :| 0 <= j <= |s[k..]| && AllSpace(s[k..][j..]) && TrimEnd(s[k..]) == s[k..][..j];
      assert j == 0;
      forall i | 0 <= i < |s| ensures IsSpace(s[i]) {
        assert s[..k][i] == s[i];
      }
    } else {
      var t := Trim(s);
      TrimIsTrimmed(s);
      assert !IsSpace(t[0]);
      var j :| 0 <= j <= |s[k..]| && AllSpace(s[k..][j..]) && TrimEnd(s[k..]) == s[k..][..j];
      assert t[0] == s[k];
    }
  }

  predicate IsAsciiUpper(c: char) { 'A' <= c <= 'Z' }

  predicate IsAsciiLower(c: char) { 'a' <= c <= 'z' }

  function UpperChar(c: char): (u: char)
    ensures IsAsciiLower(c) ==> IsAsciiUpper(u) && u as int == c as int - 32
    ensures !IsAsciiLower(c) ==> u == c
  {
    if IsAsciiLower(c) then (c as int - 32) as char else c
  }

  function LowerChar(c: char): (l: char)
    ensures IsAsciiUpper(c) ==> IsAsciiLower(l) && l as int == c as int + 32
    ensures !IsAsciiUpper(c) ==> l == c
  {
    if IsAsciiUpper(c) then (c as int + 32) as char else c
  }

  /** `s.toUpperCase()` on the ASCII letters. */
  function ToUpper(s: string): (r: string)
    ensures |r| == |s|
    ensures forall i :: 0 <= i < |s| ==> r[i] == UpperChar(s[i])
  {
    seq(|s|, i requires 0 <= i < |s| => UpperChar(s[i]))
  }

  /** `s.toLowerCase()` on the ASCII letters. */
  function ToLower(s: string): (r: string)
    ensures |r| == |s|
    ensures forall i :: 0 <= i < |s| ==> r[i] == LowerChar(s[i])
  {
    seq(|s|, i requires 0 <= i < |s| => LowerChar(s[i]))
  }

  /** Upper-casing leaves no lower-case letter and is idempotent. */
  lemma ToUpperIdempotent(s: string)
    ensures forall i :: 0 <= i < |ToUpper(s)| ==> !IsAsciiLower(ToUpper(s)[i])
    ensures ToUpper(ToUpper(s)) == ToUpper(s)
  {
  }

  /** Lower-casing an upper-cased string gives the lower-cased string. */
  lemma LowerOfUpper(s: string)
    ensures ToLower(ToUpper(s)) == ToLower(s)
  {
  }

  /** `s.startsWith(p)`. */
  predicate StartsWith(s: string, p: string)
  {
    |p| <= |s| && s[..|p|] == p
  }

  /** `pat` occurs in `s` at position `k`. */
  predicate OccursAt(s: string, pat: string, k: nat)
  {
    k + |pat| <= |s| && s[k..k + |pat|] == pat
  }

  /** `s.replace(pat, '')`: deletes the first occurrence of `pat` only. */
  function RemoveFirst(s: string, pat: string): (r: string)
    ensures |r| == |s| || |r| + |pat| == |s|
    ensures StartsWith(s, pat) ==> r == s[|pat|..]
    ensures !StartsWith(s, pat) && s != [] ==> r != [] && r[0] == s[0]
    decreases |s|
  {
    if StartsWith(s, pat) then s[|pat|..]
    else if s == [] then s
    else [s[0]] + RemoveFirst(s[1..], pat)
  }

  /** Shifting by one character shifts every occurrence by one. */
  lemma OccursAtTail(s: string, pat: string, k: nat)
    requires 1 <= k && s != []
    ensures OccursAt(s, pat, k) == OccursAt(s[1..], pat, k - 1)
  {
    if k + |pat| <= |s| {
      var t := s[1..];
      forall j | k <= j < k + |pat| ensures s[j] == t[j - 1] {
      }
      assert s[k..k + |pat|] == t[k - 1..k - 1 + |pat|];
    }
  }

  /** RemoveFirst cuts `pat` out at its leftmost occurrence `k`. */
  lemma {:induction false} RemoveFirstCutsLeftmost(s: string, pat: string, k: nat)
    requires OccursAt(s, pat, k)
    requires forall j :: 0 <= j < k ==> !OccursAt(s, pat, j)
    ensures RemoveFirst(s, pat) == s[..k] + s[k + |pat|..]
    decreases k
  {
    if k == 0 {
      assert StartsWith(s, pat);
    } else {
      assert !OccursAt(s, pat, 0);
      assert !StartsWith(s, pat);
      OccursAtTail(s, pat, k);
      forall j | 0 <= j < k - 1 ensures !OccursAt(s[1..], pat, j) {
        OccursAtTail(s, pat, j + 1);
      }
      RemoveFirstCutsLeftmost(s[1..], pat, k - 1);
      assert s[..k] == [s[0]] + s[1..][..k - 1];
      assert s[k + |pat|..] == s[1..][k - 1 + |pat|..];
    }
  }

  /** When `pat` does not occur, `replace` returns the string unchanged. */
  lemma {:induction false} RemoveFirstWithoutOccurrence(s: string, pat: string)
    requires forall k :: 0 <= k <= |s| ==> !OccursAt(s, pat, k)
    ensures RemoveFirst(s, pat) == s
    decreases |s|
  {
    assert !OccursAt(s, pat, 0);
    if s != [] {
      forall k | 0 <= k <= |s[1..]| ensures !OccursAt(s[1..], pat, k) {
        OccursAtTail(s, pat, k + 1);
      }
      RemoveFirstWithoutOccurrence(s[1..], pat);
    }
  }
}
