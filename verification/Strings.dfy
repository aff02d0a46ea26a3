/**
 * The JavaScript string operations the core relies on, on `seq<char>`:
 * `trim`, `toLowerCase`, `startsWith`, `indexOf`/`includes` and `split`
 * on a one-character separator.
 */
module Strings {
  import opened Wrappers

  /** The WhiteSpace and LineTerminator code points that `String.prototype.trim` removes. */
  predicate IsJsSpace(c: char)
  {
    || c == '\t' || c == '\U{000B}' || c == '\U{000C}' || c == ' '
    || c == '\U{00A0}' || c == '\U{FEFF}' || c == '\U{1680}'
    || ('\U{2000}' <= c <= '\U{200A}')
    || c == '\U{202F}' || c == '\U{205F}' || c == '\U{3000}'
    || c == '\n' || c == '\r' || c == '\U{2028}' || c == '\U{2029}'
  }

  /** `!s.trim()` in JavaScript: the string is empty or whitespace only. */
  predicate IsBlank(s: string)
  {
    forall i :: 0 <= i < |s| ==> IsJsSpace(s[i])
  }

  /** Drops leading whitespace: what is dropped is whitespace, what remains starts with a non-space. */
  function TrimStart(s: string): (r: string)
    ensures |r| <= |s| && r == s[|s| - |r|..]
    ensures forall i :: 0 <= i < |s| - |r| ==> IsJsSpace(s[i])
    ensures r != [] ==> !IsJsSpace(r[0])
  {
    if s != [] && IsJsSpace(s[0]) then TrimStart(s[1..]) else s
  }

  /** Drops trailing whitespace: what is dropped is whitespace, what remains ends with a non-space. */
  function TrimEnd(s: string): (r: string)
    ensures |r| <= |s| && r == s[..|r|]
    ensures forall i :: |r| <= i < |s| ==> IsJsSpace(s[i])
    ensures r != [] ==> !IsJsSpace(r[|r| - 1])
  {
    if s != [] && IsJsSpace(s[|s| - 1]) then TrimEnd(s[..|s| - 1]) else s
  }

  /** `r` is the part of `s` from index `a` on, before trailing whitespace, with only whitespace before `a`. */
  predicate IsTrimWindow(s: string, r: string, a: int)
  {
    && 0 <= a && a + |r| <= |s| && r == s[a..a + |r|]
    && (forall i :: 0 <= i < a ==> IsJsSpace(s[i]))
    && (forall i :: a + |r| <= i < |s| ==> IsJsSpace(s[i]))
  }

  /**
   * `s.trim()`: what is removed is whitespace at the two ends; the result is
   * empty exactly for blank strings, and otherwise non-space at both ends.
   */
  function Trim(s: string): (r: string)
    ensures |r| <= |s|
    ensures exists a :: IsTrimWindow(s, r, a)
    ensures r == [] <==> IsBlank(s)
    ensures r != [] ==> !IsJsSpace(r[0]) && !IsJsSpace(r[|r| - 1])
  {
    TrimBlank(s);
    TrimWindow(s);
    TrimEnd(TrimStart(s))
  }

  /** The trimmed string sits in `s` right after the leading whitespace. */
  lemma TrimWindow(s: string)
    ensures IsTrimWindow(s, TrimEnd(TrimStart(s)), |s| - |TrimStart(s)|)
  {
    var u := TrimStart(s);
    var r := TrimEnd(u);
    WindowOfSuffix(s, u, r, |s| - |u|);
  }

  /** A prefix `r` of the suffix `u` of `s` with only whitespace after it in `u`, placed back in `s`. */
  lemma WindowOfSuffix(s: string, u: string, r: string, a: nat)
    requires a + |u| == |s| && u == s[a..]
    requires forall i :: 0 <= i < a ==> IsJsSpace(s[i])
    requires |r| <= |u| && r == u[..|r|]
    requires forall i :: |r| <= i < |u| ==> IsJsSpace(u[i])
    ensures IsTrimWindow(s, r, a)
  {
    assert r == s[a..a + |r|];
    forall i | a + |r| <= i < |s| ensures IsJsSpace(s[i]) {
      assert s[i] == u[i - a];
    }
  }

  /** What `Trim` leaves is empty exactly when the whole string was whitespace. */
  lemma TrimBlank(s: string)
    ensures TrimEnd(TrimStart(s)) == [] <==> IsBlank(s)
  {
    var u := TrimStart(s);
    var k := |s| - |u|;
    if TrimEnd(u) == [] {
      assert u == [];
    } else {
      assert s[k] == u[0];
      NotBlankAt(s, k);
    }
  }

  /** A string with a non-space character is not blank. */
  lemma NotBlankAt(s: string, i: nat)
    requires i < |s| && !IsJsSpace(s[i])
    ensures !IsBlank(s)
  {
  }

  /** Trimming is idempotent. */
  lemma {:induction false} TrimIdempotent(s: string)
    ensures Trim(Trim(s)) == Trim(s)
  {
    var r := Trim(s);
    if r != [] {
      TrimStartKeeps(r);
      TrimEndKeeps(r);
    }
  }

  /** A string that starts with a non-space loses nothing at its start. */
  lemma TrimStartKeeps(s: string)
    requires s != [] && !IsJsSpace(s[0])
    ensures TrimStart(s) == s
  {
  }

  /** A string that ends with a non-space loses nothing at its end. */
  lemma TrimEndKeeps(s: string)
    requires s != [] && !IsJsSpace(s[|s| - 1])
    ensures TrimEnd(s) == s
  {
  }

  /** JavaScript's locale-independent `toLowerCase` on one code point, for ASCII, Latin-1 and the Turkish Ğ and Ş. */
  function LowerChar(c: char): char
  {
    if 'A' <= c <= 'Z' then (c as int + 32) as char
    else if '\U{00C0}' <= c <= '\U{00DE}' && c != '\U{00D7}' then (c as int + 32) as char
    else if c == '\U{011E}' then '\U{011F}'
    else if c == '\U{015E}' then '\U{015F}'
    else c
  }

  /** `s.toLowerCase()`, one code point at a time. */
  function Lower(s: string): (r: string)
    ensures |r| == |s|
    ensures forall i :: 0 <= i < |s| ==> r[i] == LowerChar(s[i])
  {
    seq(|s|, i requires 0 <= i < |s| => LowerChar(s[i]))
  }

  /** `s.startsWith(p)`. */
  predicate StartsWith(s: string, p: string)
  {
    |p| <= |s| && s[..|p|] == p
  }

  /** A concatenation starts with its first part and the rest is its second part. */
  lemma ConcatParts(p: string, t: string)
    ensures StartsWith(p + t, p) && (p + t)[|p|..] == t
  {
    assert (p + t)[..|p|] == p;
  }

  /** `p` occurs in `s` starting at index `j`. */
  predicate OccursAt(s: string, p: string, j: int)
  {
    0 <= j && j + |p| <= |s| && s[j..j + |p|] == p
  }

  /** `s.indexOf(p)`: the first index at which `p` occurs, or None when it occurs nowhere. */
  function IndexOf(s: string, p: string): (r: Option<nat>)
    ensures r.Some? ==> OccursAt(s, p, r.value) && forall j :: 0 <= j < r.value ==> !OccursAt(s, p, j)
    ensures r.None? ==> forall j :: !OccursAt(s, p, j)
  {
    if StartsWith(s, p) then
      assert OccursAt(s, p, 0);
      Some(0)
    else if s == [] then
      None
    else
      var r := IndexOf(s[1..], p);
      OccursShift(s, p);
      assert !OccursAt(s, p, 0);
      match r
      case None => None
      case Some(i) => Some(i + 1)
  }

  /** Past the first character, `p` occurs in `s` exactly where it occurs in `s[1..]`, one further on. */
  lemma OccursShift(s: string, p: string)
    requires s != []
    ensures forall j {:trigger OccursAt(s, p, j)} :: j > 0 ==> (OccursAt(s, p, j) <==> OccursAt(s[1..], p, j - 1))
  {
    forall j | j > 0
      ensures OccursAt(s, p, j) <==> OccursAt(s[1..], p, j - 1)
    {
      if 0 <= j - 1 && j - 1 + |p| <= |s[1..]| {
        var a, b := s[j..j + |p|], s[1..][j - 1..j - 1 + |p|];
        forall k | 0 <= k < |p| ensures a[k] == b[k] {
          assert a[k] == s[j + k];
        }
        assert a == b;
      }
    }
  }

  /** An occurrence with none before it is the one `indexOf` finds. */
  lemma FirstOccurrence(s: string, p: string, i: nat)
    requires OccursAt(s, p, i)
    requires forall j :: 0 <= j < i ==> !OccursAt(s, p, j)
    ensures IndexOf(s, p) == Some(i)
  {
    var r := IndexOf(s, p);
    assert r.Some?;
  }

  /** `s.includes(p)`. */
  predicate Contains(s: string, p: string)
  {
    IndexOf(s, p).Some?
  }

  /** `s.split(d)` for a one-character separator `d`, as JavaScript does it (`"".split(d)` is `[""]`). */
  function Split(s: string, d: char): (parts: seq<string>)
    ensures |parts| >= 1
    ensures |parts[0]| <= |s| && parts[0] == s[..|parts[0]|]
    ensures d !in parts[0]
    ensures |parts[0]| < |s| ==> s[|parts[0]|] == d
  {
    if s == [] then [[]]
    else
      var rest := Split(s[1..], d);
      if s[0] == d then [[]] + rest
      else [[s[0]] + rest[0]] + rest[1..]
  }

  /** `parts.join(d)`. */
  function Join(parts: seq<string>, d: char): string
    requires |parts| >= 1
  {
    if |parts| == 1 then parts[0] else parts[0] + [d] + Join(parts[1..], d)
  }

  /** Splitting and joining again gives back the string, and no part holds the separator. */
  lemma {:induction false} SplitJoin(s: string, d: char)
    ensures Join(Split(s, d), d) == s
    ensures forall k :: 0 <= k < |Split(s, d)| ==> d !in Split(s, d)[k]
  {
    if s != [] {
      var rest := Split(s[1..], d);
      SplitJoin(s[1..], d);
      if s[0] == d {
        assert Split(s, d)[1..] == rest;
      } else {
        var parts := Split(s, d);
        assert parts[1..] == rest[1..];
        if |rest| == 1 {
          assert Join(parts, d) == [s[0]] + rest[0];
        } else {
          assert Join(rest, d) == rest[0] + [d] + Join(rest[1..], d);
        }
        assert s == [s[0]] + s[1..];
      }
    }
  }
}
