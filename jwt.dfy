/**
 * Extraction of the bearer token from the decoded cookie string: the first match of
 * `/(eyJ[a-zA-Z0-9_-]+.[a-zA-Z0-9_-]+.[a-zA-Z0-9_-]+)/`, or "" when there is none.
 *
 * The search follows the JavaScript regular-expression semantics for this pattern: the
 * leftmost start position wins; at a start, each `+` is greedy and gives characters back one
 * at a time until the rest of the pattern matches. The unescaped `.` matches any character
 * except a line terminator, so it may also match a letter or a digit.
 *
 * Without the `u` flag the pattern runs over UTF-16 code units. A character outside the Basic
 * Multilingual Plane is two code units (a surrogate pair): `.` can take only the first, and
 * the second is never in `[a-zA-Z0-9_-]`, so no match contains such a character. The model
 * works on characters and therefore lets `.` match only characters below U+10000.
 */
module Jwt {
  import opened Wrappers

  /** `[a-zA-Z0-9_-]` */
  predicate IsWordChar(c: char)
  {
    ('a' <= c <= 'z') || ('A' <= c <= 'Z') || ('0' <= c <= '9') || c == '_' || c == '-'
  }

  /**
   * `.` without the `s` flag, as far as it can be part of a match: a single UTF-16 code unit
   * other than LF, CR, LINE SEPARATOR and PARAGRAPH SEPARATOR.
   */
  predicate IsDotChar(c: char)
  {
    c != '\n' && c != '\r' && c != '\U{2028}' && c != '\U{2029}' && (c as int) < 0x1_0000
  }

  ghost predicate AllWord(t: string)
  {
    forall k :: 0 <= k < |t| ==> IsWordChar(t[k])
  }

  /** `t` belongs to the language `(W+ .){n} W+`, with W the class `[a-zA-Z0-9_-]`. */
  ghost predicate Segments(t: string, n: nat)
    decreases n
  {
    if n == 0 then |t| > 0 && AllWord(t)
    else exists j :: 0 < j < |t| && AllWord(t[..j]) && IsDotChar(t[j]) && Segments(t[j + 1..], n - 1)
  }

  /** `t` is a whole match of the token pattern. */
  ghost predicate JwtShaped(t: string)
  {
    |t| >= 3 && t[..3] == "eyJ" && Segments(t[3..], 2)
  }

  /** No substring starting in `[lo, hi)` matches the pattern. */
  ghost predicate NoMatchBetween(s: string, lo: nat, hi: nat)
  {
    forall a, e :: lo <= a < hi && a <= e <= |s| ==> !JwtShaped(s[a..e])
  }

  /** Where the longest run of word characters starting at `q` ends. */
  function RunEnd(s: string, q: nat): (e: nat)
    requires q <= |s|
    ensures q <= e <= |s|
    ensures forall k :: q <= k < e ==> IsWordChar(s[k])
    ensures e == |s| || !IsWordChar(s[e])
    decreases |s| - q
  {
    if q < |s| && IsWordChar(s[q]) then RunEnd(s, q + 1) else q
  }

  /**
   * Where the match of `(W+ .){n} W+` starting at `q` ends, trying the alternatives in the
   * order of the regular-expression engine, or None when it fails at `q`.
   */
  function Seg(s: string, q: nat, n: nat): (r: Option<nat>)
    requires q <= |s|
    ensures r.Some? ==> q < r.value <= |s| && (r.value == |s| || !IsWordChar(s[r.value]))
    decreases n, 1, 0
  {
    if q < |s| && IsWordChar(s[q]) then
      if n == 0 then Some(RunEnd(s, q)) else Backtrack(s, q, RunEnd(s, q), n)
    else
      None
  }

  /**
   * The greedy `W+` of the first segment takes `s[q..e]`; if `.` and the remaining
   * `n - 1` segments do not match after it, it gives back one character and tries again.
   */
  function Backtrack(s: string, q: nat, e: nat, n: nat): (r: Option<nat>)
    requires q < e <= |s| && n > 0
    ensures r.Some? ==> q < r.value <= |s| && (r.value == |s| || !IsWordChar(s[r.value]))
    decreases n, 0, e - q
  {
    if e < |s| && IsDotChar(s[e]) && Seg(s, e + 1, n - 1).Some? then Seg(s, e + 1, n - 1)
    else if e - 1 > q then Backtrack(s, q, e - 1, n)
    else None
  }

  /** The end of the match that starts at `i`, if one does. */
  function MatchAt(s: string, i: nat): (r: Option<nat>)
    requires i <= |s|
    ensures r.Some? ==> i + 3 < r.value <= |s| && (r.value == |s| || !IsWordChar(s[r.value]))
  {
    if i + 3 <= |s| && s[i..i + 3] == "eyJ" then Seg(s, i + 3, 2) else None
  }

  /** The first match at a start position `>= i`, as (start, end). */
  function FirstMatchFrom(s: string, i: nat): (r: Option<(nat, nat)>)
    requires i <= |s|
    ensures r.Some? ==> i <= r.value.0 < r.value.1 <= |s|
    ensures r.Some? ==> r.value.1 == |s| || !IsWordChar(s[r.value.1])
    decreases |s| - i
  {
    match MatchAt(s, i)
    case Some(e) => Some((i, e))
    case None => if i < |s| then FirstMatchFrom(s, i + 1) else None
  }

  /** `tokenMatch ? tokenMatch[1] : ''`: the group spans the whole match. */
  function ExtractToken(cookies: string): string
  {
    match FirstMatchFrom(cookies, 0)
    case Some((a, e)) => cookies[a..e]
    case None => ""
  }

  // ----- the search is sound -----

  lemma {:induction false} SegSound(s: string, q: nat, n: nat)
    requires q <= |s|
    ensures Seg(s, q, n).Some? ==> Segments(s[q..Seg(s, q, n).value], n)
    decreases n, 1, 0
  {
    if q < |s| && IsWordChar(s[q]) {
      var e := RunEnd(s, q);
      if n == 0 {
        assert AllWord(s[q..e]);
      } else {
        BacktrackSound(s, q, e, n);
      }
    }
  }

  lemma {:induction false} BacktrackSound(s: string, q: nat, e: nat, n: nat)
    requires q < e <= |s| && n > 0
    requires forall k :: q <= k < e ==> IsWordChar(s[k])
    ensures Backtrack(s, q, e, n).Some? ==> Segments(s[q..Backtrack(s, q, e, n).value], n)
    decreases n, 0, e - q
  {
    if e < |s| && IsDotChar(s[e]) && Seg(s, e + 1, n - 1).Some? {
      SegSound(s, e + 1, n - 1);
      SegmentsJoin(s, q, e, Seg(s, e + 1, n - 1).value, n);
    } else if e - 1 > q {
      BacktrackSound(s, q, e - 1, n);
    }
  }

  /** A word run `s[q..e]`, a `.` at `e` and `n - 1` further segments form `n` segments. */
  lemma SegmentsJoin(s: string, q: nat, e: nat, r: nat, n: nat)
    requires q < e < r <= |s| && n > 0
    requires forall k :: q <= k < e ==> IsWordChar(s[k])
    requires IsDotChar(s[e]) && Segments(s[e + 1..r], n - 1)
    ensures Segments(s[q..r], n)
  {
    var t := s[q..r];
    var j := e - q;
    assert t[..j] == s[q..e];
    assert AllWord(t[..j]);
    assert t[j] == s[e];
    assert t[j + 1..] == s[e + 1..r];
  }

  // ----- the search is complete -----

  lemma {:induction false} RunEndCovers(s: string, q: nat, x: nat)
    requires q <= x <= |s|
    requires forall k :: q <= k < x ==> IsWordChar(s[k])
    ensures x <= RunEnd(s, q)
    decreases |s| - q
  {
    if q < x {
      RunEndCovers(s, q + 1, x);
    }
  }

  lemma {:induction false} BacktrackFinds(s: string, q: nat, e: nat, n: nat, m: nat)
    requires q < m <= e <= |s| && n > 0
    requires m < |s| && IsDotChar(s[m]) && Seg(s, m + 1, n - 1).Some?
    ensures Backtrack(s, q, e, n).Some?
    decreases e - m
  {
    if !(e < |s| && IsDotChar(s[e]) && Seg(s, e + 1, n - 1).Some?) {
      assert e != m;
      BacktrackFinds(s, q, e - 1, n, m);
    }
  }

  /** How the slices of `s[q..e]` around position `j` sit in `s`. */
  lemma SliceAround(s: string, q: nat, e: nat, j: nat)
    requires q <= e <= |s| && j < e - q
    ensures s[q..e][..j] == s[q..q + j]
    ensures s[q..e][j] == s[q + j]
    ensures s[q..e][j + 1..] == s[q + j + 1..e]
  {
  }

  lemma WordSlice(s: string, q: nat, x: nat)
    requires q <= x <= |s| && AllWord(s[q..x])
    ensures forall k :: q <= k < x ==> IsWordChar(s[k])
  {
    forall k | q <= k < x
      ensures IsWordChar(s[k])
    {
      assert s[q..x][k - q] == s[k];
    }
  }

  /** A first segment of a match, as a witness. */
  lemma FirstSegment(t: string, n: nat) returns (j: nat)
    requires n > 0 && Segments(t, n)
    ensures 0 < j < |t| && AllWord(t[..j]) && IsDotChar(t[j]) && Segments(t[j + 1..], n - 1)
  {
    j :| 0 < j < |t| && AllWord(t[..j]) && IsDotChar(t[j]) && Segments(t[j + 1..], n - 1);
  }

  lemma {:induction false} SegComplete(s: string, q: nat, n: nat, e: nat)
    requires q <= e <= |s|
    requires Segments(s[q..e], n)
    ensures Seg(s, q, n).Some?
    decreases n
  {
    if n == 0 {
      assert s[q..e][0] == s[q];
    } else {
      var j := SplitSegments(s, q, e, n);
      SegComplete(s, q + j + 1, n - 1, e);
      SegFromParts(s, q, n, j);
    }
  }

  /** The first segment of a match `s[q..e]`, stated on `s`. */
  lemma SplitSegments(s: string, q: nat, e: nat, n: nat) returns (j: nat)
    requires q <= e <= |s| && n > 0
    requires Segments(s[q..e], n)
    ensures 0 < j && q + j < e
    ensures forall k :: q <= k < q + j ==> IsWordChar(s[k])
    ensures IsDotChar(s[q + j]) && Segments(s[q + j + 1..e], n - 1)
  {
    j := FirstSegment(s[q..e], n);
    SliceAround(s, q, e, j);
    WordSlice(s, q, q + j);
  }

  /** A word run of length `j`, a `.` and a match of the other `n - 1` segments make a match. */
  lemma SegFromParts(s: string, q: nat, n: nat, j: nat)
    requires n > 0 && 0 < j && q + j < |s|
    requires forall k :: q <= k < q + j ==> IsWordChar(s[k])
    requires IsDotChar(s[q + j]) && Seg(s, q + j + 1, n - 1).Some?
    ensures Seg(s, q, n).Some?
  {
    RunEndCovers(s, q, q + j);
    BacktrackFinds(s, q, RunEnd(s, q), n, q + j);
  }

  // ----- the first match -----

  lemma MatchAtSpec(s: string, i: nat)
    requires i <= |s|
    ensures MatchAt(s, i).Some? ==> JwtShaped(s[i..MatchAt(s, i).value])
    ensures MatchAt(s, i).None? ==> forall e :: i <= e <= |s| ==> !JwtShaped(s[i..e])
  {
    if MatchAt(s, i).Some? {
      MatchAtSound(s, i);
    } else {
      forall e | i <= e <= |s|
        ensures !JwtShaped(s[i..e])
      {
        if JwtShaped(s[i..e]) {
          MatchAtComplete(s, i, e);
        }
      }
    }
  }

  lemma MatchAtSound(s: string, i: nat)
    requires i <= |s| && MatchAt(s, i).Some?
    ensures JwtShaped(s[i..MatchAt(s, i).value])
  {
    var e := MatchAt(s, i).value;
    SegSound(s, i + 3, 2);
    assert s[i..e][..3] == s[i..i + 3];
    assert s[i..e][3..] == s[i + 3..e];
  }

  lemma MatchAtComplete(s: string, i: nat, e: nat)
    requires i <= e <= |s| && JwtShaped(s[i..e])
    ensures MatchAt(s, i).Some?
  {
    assert s[i..e][..3] == s[i..i + 3];
    assert s[i..e][3..] == s[i + 3..e];
    SegComplete(s, i + 3, 2, e);
  }

  lemma NoMatchExtend(s: string, i: nat, hi: nat)
    requires i < hi
    requires forall e :: i <= e <= |s| ==> !JwtShaped(s[i..e])
    requires NoMatchBetween(s, i + 1, hi)
    ensures NoMatchBetween(s, i, hi)
  {
  }

  lemma {:induction false} FirstMatchFromSpec(s: string, i: nat)
    requires i <= |s|
    ensures match FirstMatchFrom(s, i)
      case Some((a, e)) => JwtShaped(s[a..e]) && NoMatchBetween(s, i, a)
      case None => NoMatchBetween(s, i, |s| + 1)
    decreases |s| - i
  {
    MatchAtSpec(s, i);
    match MatchAt(s, i)
    case Some(e) =>
      assert FirstMatchFrom(s, i) == Some((i, e));
    case None =>
      if i < |s| {
        FirstMatchFromSpec(s, i + 1);
        match FirstMatchFrom(s, i + 1)
        case Some((a, e)) =>
          NoMatchExtend(s, i, a);
        case None =>
          NoMatchExtend(s, i, |s| + 1);
      } else {
        NoMatchExtend(s, i, |s| + 1);
      }
  }

  /** The extracted token is "" exactly when no substring of the cookies matches the pattern. */
  lemma ExtractTokenEmpty(cookies: string)
    ensures ExtractToken(cookies) == "" <==> NoMatchBetween(cookies, 0, |cookies| + 1)
  {
    FirstMatchFromSpec(cookies, 0);
    match FirstMatchFrom(cookies, 0)
    case Some((a, e)) =>
      assert JwtShaped(cookies[a..e]);
      assert ExtractToken(cookies) == cookies[a..e] != "";
    case None =>
  }

  /**
   * A non-empty token matches the pattern (so it begins with "eyJ"); it is the substring
   * `cookies[a..e]` with no match starting before `a`, and its last run of word characters
   * is not cut short: it ends at the end of the cookies or before a non-word character.
   */
  lemma ExtractTokenFound(cookies: string) returns (a: nat, e: nat)
    requires ExtractToken(cookies) != ""
    ensures JwtShaped(ExtractToken(cookies)) && ExtractToken(cookies)[..3] == "eyJ"
    ensures a <= e <= |cookies| && ExtractToken(cookies) == cookies[a..e]
    ensures NoMatchBetween(cookies, 0, a)
    ensures e == |cookies| || !IsWordChar(cookies[e])
  {
    FirstMatchFromSpec(cookies, 0);
    a, e := FirstMatchFrom(cookies, 0).value.0, FirstMatchFrom(cookies, 0).value.1;
  }

  // ----- characters outside the Basic Multilingual Plane -----

  /** Every character of `n` segments is a single UTF-16 code unit. */
  lemma {:induction false} SegmentsInBmp(t: string, n: nat)
    requires Segments(t, n)
    ensures forall k :: 0 <= k < |t| ==> (t[k] as int) < 0x1_0000
    decreases n
  {
    if n > 0 {
      var j := FirstSegment(t, n);
      SegmentsInBmp(t[j + 1..], n - 1);
      forall k | 0 <= k < |t|
        ensures (t[k] as int) < 0x1_0000
      {
        if k < j {
          assert t[..j][k] == t[k];
        } else if k > j {
          assert t[j + 1..][k - j - 1] == t[k];
        }
      }
    }
  }

  /** A token never contains a character outside the Basic Multilingual Plane. */
  lemma ExtractTokenInBmp(cookies: string)
    ensures forall k :: 0 <= k < |ExtractToken(cookies)| ==> (ExtractToken(cookies)[k] as int) < 0x1_0000
  {
    if ExtractToken(cookies) != "" {
      var a, e := ExtractTokenFound(cookies);
      var t := ExtractToken(cookies);
      SegmentsInBmp(t[3..], 2);
      forall k | 3 <= k < |t|
        ensures (t[k] as int) < 0x1_0000
      {
        assert t[3..][k - 3] == t[k];
      }
      assert t[..3] == "eyJ";
      forall k | 0 <= k < 3
        ensures (t[k] as int) < 0x1_0000
      {
        assert t[..3][k] == t[k];
      }
    }
  }

  /** An emoji where the second segment should start: the half surrogate stops the match. */
  lemma AstralCharacterStopsMatch()
    ensures ExtractToken("eyJa\U{1F600}b.c") == ""
  {
    var s := "eyJa\U{1F600}b.c";
    assert RunEnd(s, 3) == 4;
    assert Seg(s, 3, 2).None?;
    assert MatchAt(s, 0).None?;
    forall i | 1 <= i <= |s|
      ensures MatchAt(s, i).None?
    {
      if i + 3 <= |s| {
        assert s[i..i + 3][0] == s[i];
      }
    }
  }
}
