/**
 * Text operations of the Python and JavaScript standard libraries that the
 * core relies on: substring search, `str.strip`/`String.prototype.trim`,
 * `str.replace`, `str.join`, `str.split`, `rsplit` and ASCII case mapping.
 * Strings are sequences of Unicode code points, as in Python.
 */
module Strings {
  import opened Wrappers

  // ---------------------------------------------------------------------
  // Prefixes, suffixes and substring search
  // ---------------------------------------------------------------------

  predicate IsPrefix(p: string, s: string)
  {
    |p| <= |s| && s[..|p|] == p
  }

  predicate IsSuffix(p: string, s: string)
  {
    |p| <= |s| && s[|s| - |p|..] == p
  }

  /** `t` occurs in `s` starting at index `k`. */
  predicate OccursAt(s: string, t: string, k: int)
  {
    0 <= k && k + |t| <= |s| && s[k..k + |t|] == t
  }

  /** Python's `t in s`. */
  predicate Contains(s: string, t: string)
  {
    exists k | 0 <= k <= |s| - |t| :: OccursAt(s, t, k)
  }

  /** Python's `any(kw in s for kw in keywords)`. */
  predicate ContainsAny(s: string, keywords: seq<string>)
  {
    exists i | 0 <= i < |keywords| :: Contains(s, keywords[i])
  }

  lemma ContainsWitness(s: string, t: string, k: int)
    requires OccursAt(s, t, k)
    ensures Contains(s, t)
  {
  }

  lemma ContainsAnyWitness(s: string, keywords: seq<string>, i: int, k: int)
    requires 0 <= i < |keywords| && OccursAt(s, keywords[i], k)
    ensures ContainsAny(s, keywords)
  {
    ContainsWitness(s, keywords[i], k);
  }

  /** Searching `c + y` finds `t` at the front or somewhere in `y`. */
  lemma ContainsCons(c: char, y: string, t: string)
    ensures Contains([c] + y, t) <==> IsPrefix(t, [c] + y) || Contains(y, t)
  {
    var s := [c] + y;
    if Contains(s, t) && !IsPrefix(t, s) {
      var k :| 0 <= k <= |s| - |t| && OccursAt(s, t, k);
      assert k != 0;
      var a, b := y[k - 1..k - 1 + |t|], s[k..k + |t|];
      forall j | 0 <= j < |t| ensures a[j] == b[j] {
        assert s[k + j] == y[k - 1 + j];
      }
      assert a == b;
      assert OccursAt(y, t, k - 1);
    }
    if Contains(y, t) {
      var k :| 0 <= k <= |y| - |t| && OccursAt(y, t, k);
      assert s[k + 1..k + 1 + |t|] == y[k..k + |t|];
      assert OccursAt(s, t, k + 1);
    }
    if IsPrefix(t, s) {
      assert OccursAt(s, t, 0);
    }
  }

  /** An occurrence inside a slice is an occurrence in the whole string. */
  lemma ContainsInSlice(s: string, a: int, b: int, t: string)
    requires 0 <= a <= b <= |s| && Contains(s[a..b], t)
    ensures Contains(s, t)
  {
    var k :| 0 <= k <= |s[a..b]| - |t| && OccursAt(s[a..b], t, k);
    var u, v := s[a + k..a + k + |t|], s[a..b][k..k + |t|];
    forall j | 0 <= j < |t| ensures u[j] == v[j] {
      assert u[j] == s[a + k + j] && v[j] == s[a..b][k + j];
    }
    assert u == v;
    assert OccursAt(s, t, a + k);
  }

  /** A text whose first character differs from that of `p` does not start with `p`. */
  lemma NotPrefixFirst(p: string, s: string)
    requires |p| > 0 && |s| > 0 && s[0] != p[0]
    ensures !IsPrefix(p, s)
  {
    if |p| <= |s| {
      assert s[..|p|][0] == s[0];
    }
  }

  /** A common first character does not change whether one text starts with another. */
  lemma PrefixCons(c: char, p: string, y: string)
    ensures IsPrefix([c] + p, [c] + y) <==> IsPrefix(p, y)
  {
    var cp, cy := [c] + p, [c] + y;
    if IsPrefix(p, y) {
      assert cy[..|cp|] == [c] + y[..|p|];
    }
    if IsPrefix(cp, cy) {
      assert y[..|p|] == cy[..|cp|][1..];
    }
  }

  /** Stripping characters from the ends cannot create an occurrence. */
  lemma ContainsInStrip(s: string, cs: set<char>, t: string)
    requires Contains(StripChars(s, cs), t)
    ensures Contains(s, t)
  {
    var l := LStrip(s, cs);
    var r := RStrip(l, cs);
    LStripSpec(s, cs);
    RStripSpec(l, cs);
    assert r == l[0..|r|];
    ContainsInSlice(l, 0, |r|, t);
    assert l == s[|s| - |l|..|s|];
    ContainsInSlice(s, |s| - |l|, |s|, t);
  }

  /** A keyword whose first character is absent cannot occur. */
  lemma NotContainsWithoutFirstChar(s: string, t: string)
    requires |t| > 0 && t[0] !in s
    ensures !Contains(s, t)
  {
  }

  /** First index at or after `from` where `pat` occurs (Python's `str.find`). */
  function FindFrom(s: string, pat: string, from: nat): (r: Option<nat>)
    ensures r.Some? ==> from <= r.value && OccursAt(s, pat, r.value)
    ensures r.Some? ==> forall k :: from <= k < r.value ==> !OccursAt(s, pat, k)
    ensures r.None? ==> forall k :: from <= k ==> !OccursAt(s, pat, k)
    decreases if from <= |s| then |s| - from + 1 else 0
  {
    if from + |pat| > |s| then None
    else if s[from..from + |pat|] == pat then Some(from)
    else FindFrom(s, pat, from + 1)
  }

  // ---------------------------------------------------------------------
  // Whitespace and stripping
  // ---------------------------------------------------------------------

  /** The characters Python's `str.isspace`, `str.strip()` and `re`'s `\s` treat as whitespace. */
  const PyWhitespace: set<char> := {
    '\t', '\n', '\U{000B}', '\U{000C}', '\r', '\U{001C}', '\U{001D}', '\U{001E}', '\U{001F}', ' ',
    '\U{0085}', '\U{00A0}', '\U{1680}',
    '\U{2000}', '\U{2001}', '\U{2002}', '\U{2003}', '\U{2004}', '\U{2005}', '\U{2006}',
    '\U{2007}', '\U{2008}', '\U{2009}', '\U{200A}',
    '\U{2028}', '\U{2029}', '\U{202F}', '\U{205F}', '\U{3000}'
  }

  /** The characters JavaScript's `\s` and `String.prototype.trim` treat as white space or line terminators. */
  const JsWhitespace: set<char> := {
    '\t', '\n', '\U{000B}', '\U{000C}', '\r', ' ', '\U{00A0}', '\U{1680}',
    '\U{2000}', '\U{2001}', '\U{2002}', '\U{2003}', '\U{2004}', '\U{2005}', '\U{2006}',
    '\U{2007}', '\U{2008}', '\U{2009}', '\U{200A}',
    '\U{2028}', '\U{2029}', '\U{202F}', '\U{205F}', '\U{3000}', '\U{FEFF}'
  }

  /** Python's `s.lstrip(chars)`. */
  function LStrip(s: string, cs: set<char>): (r: string)
    ensures |r| <= |s|
    decreases |s|
  {
    if |s| > 0 && s[0] in cs then LStrip(s[1..], cs) else s
  }

  /** `lstrip` drops the longest prefix made of characters of `cs`, and only it. */
  lemma {:induction false} LStripSpec(s: string, cs: set<char>)
    ensures var r := LStrip(s, cs);
      r == s[|s| - |r|..] && (r == [] || r[0] !in cs) &&
      forall i :: 0 <= i < |s| - |r| ==> s[i] in cs
    decreases |s|
  {
    if |s| > 0 && s[0] in cs {
      LStripSpec(s[1..], cs);
      var r := LStrip(s, cs);
      forall i | 0 <= i < |s| - |r| ensures s[i] in cs {
        if i > 0 { assert s[i] == s[1..][i - 1]; }
      }
    }
  }

  /** Python's `s.rstrip(chars)`. */
  function RStrip(s: string, cs: set<char>): (r: string)
    ensures |r| <= |s|
    decreases |s|
  {
    if |s| > 0 && s[|s| - 1] in cs then RStrip(s[..|s| - 1], cs) else s
  }

  /** `rstrip` drops the longest suffix made of characters of `cs`, and only it. */
  lemma {:induction false} RStripSpec(s: string, cs: set<char>)
    ensures var r := RStrip(s, cs);
      r == s[..|r|] && (r == [] || r[|r| - 1] !in cs) &&
      forall i :: |r| <= i < |s| ==> s[i] in cs
    decreases |s|
  {
    if |s| > 0 && s[|s| - 1] in cs {
      RStripSpec(s[..|s| - 1], cs);
      var r := RStrip(s, cs);
      forall i | |r| <= i < |s| ensures s[i] in cs {
        if i < |s| - 1 { assert s[i] == s[..|s| - 1][i]; }
      }
    }
  }

  /** Python's `s.strip(chars)`. */
  function StripChars(s: string, cs: set<char>): (r: string)
    ensures |r| <= |s|
  {
    RStrip(LStrip(s, cs), cs)
  }

  /** `strip` leaves a text that neither starts nor ends with a character of `cs`, and is the identity on such texts. */
  lemma StripCharsSpec(s: string, cs: set<char>)
    ensures var r := StripChars(s, cs); r == [] || (r[0] !in cs && r[|r| - 1] !in cs)
    ensures (s == [] || (s[0] !in cs && s[|s| - 1] !in cs)) ==> StripChars(s, cs) == s
  {
    var l := LStrip(s, cs);
    var r := RStrip(l, cs);
    LStripSpec(s, cs);
    RStripSpec(l, cs);
    if r != [] {
      assert r[0] == l[0];
    }
  }

  /** Python's `s.strip()`. */
  function Strip(s: string): string
  {
    StripChars(s, PyWhitespace)
  }

  /** JavaScript's `s.trim()`. */
  function Trim(s: string): string
  {
    StripChars(s, JsWhitespace)
  }

  /** `s` with every character of `cs` removed (JavaScript's `s.replace(/\s+/g, '')` for `cs` the white space). */
  function RemoveChars(s: string, cs: set<char>): (r: string)
    ensures forall i :: 0 <= i < |r| ==> r[i] !in cs
    ensures |r| <= |s|
    decreases |s|
  {
    if |s| == 0 then []
    else if s[0] in cs then RemoveChars(s[1..], cs)
    else [s[0]] + RemoveChars(s[1..], cs)
  }

  // ---------------------------------------------------------------------
  // Replacement, case mapping, joining and splitting
  // ---------------------------------------------------------------------

  /** Python's `s.replace(pat, rep)`: leftmost, non-overlapping occurrences. */
  function ReplaceAll(s: string, pat: string, rep: string): string
    requires pat != []
    decreases |s|
  {
    if |s| == 0 then []
    else if IsPrefix(pat, s) then rep + ReplaceAll(s[|pat|..], pat, rep)
    else [s[0]] + ReplaceAll(s[1..], pat, rep)
  }

  function LowerChar(c: char): char
  {
    if 'A' <= c <= 'Z' then (c as int + 32) as char else c
  }

  function UpperChar(c: char): char
  {
    if 'a' <= c <= 'z' then (c as int - 32) as char else c
  }

  /** `str.lower()` on the ASCII letters. */
  function LowerAscii(s: string): (r: string)
    ensures |r| == |s|
  {
    seq(|s|, i requires 0 <= i < |s| => LowerChar(s[i]))
  }

  /** `str.upper()` on the ASCII letters. */
  function UpperAscii(s: string): (r: string)
    ensures |r| == |s|
  {
    seq(|s|, i requires 0 <= i < |s| => UpperChar(s[i]))
  }

  /** Python's `sep.join(parts)` and JavaScript's `parts.join(sep)`. */
  function Join(sep: string, parts: seq<string>): string
    decreases |parts|
  {
    if |parts| == 0 then ""
    else if |parts| == 1 then parts[0]
    else parts[0] + sep + Join(sep, parts[1..])
  }

  /** Python's `s.split(c)` for a one-character separator: always at least one piece. */
  function SplitOn(s: string, c: char): (r: seq<string>)
    ensures |r| >= 1
    ensures forall i :: 0 <= i < |r| ==> c !in r[i]
    decreases |s|
  {
    if |s| == 0 then [""]
    else
      var rest := SplitOn(s[1..], c);
      if s[0] == c then [""] + rest else [[s[0]] + rest[0]] + rest[1..]
  }

  lemma ConcatAssoc<T>(a: seq<T>, b: seq<T>, c: seq<T>)
    ensures (a + b) + c == a + (b + c)
  {
  }

  lemma ConsParts<T>(c: T, t: seq<T>)
    ensures ([c] + t)[0] == c && ([c] + t)[1..] == t
  {
  }

  lemma SnocParts<T>(t: seq<T>, c: T)
    ensures (t + [c])[|t|] == c && (t + [c])[..|t|] == t
  {
  }

  lemma {:induction false} JoinCons(sep: string, x: string, parts: seq<string>)
    requires |parts| >= 1
    ensures Join(sep, [x] + parts) == x + sep + Join(sep, parts)
  {
    assert ([x] + parts)[1..] == parts;
  }

  lemma {:induction false} JoinSnoc(sep: string, parts: seq<string>, x: string)
    requires |parts| >= 1
    ensures Join(sep, parts + [x]) == Join(sep, parts) + sep + x
    decreases |parts|
  {
    if |parts| == 1 {
      assert parts + [x] == [parts[0], x];
    } else {
      assert (parts + [x])[1..] == parts[1..] + [x];
      JoinSnoc(sep, parts[1..], x);
    }
  }

  /** Splitting on `c` undoes joining with `c` when no piece contains `c`. */
  lemma {:induction false} SplitJoin(parts: seq<string>, c: char)
    requires |parts| >= 1
    requires forall i :: 0 <= i < |parts| ==> c !in parts[i]
    ensures SplitOn(Join([c], parts), c) == parts
    decreases |parts|, |parts[0]|
  {
    var p := parts[0];
    if |parts| == 1 {
      SplitNoSeparator(p, c);
    } else if |p| == 0 {
      assert Join([c], parts) == [c] + Join([c], parts[1..]);
      assert (Join([c], parts))[1..] == Join([c], parts[1..]);
      SplitJoin(parts[1..], c);
      assert parts == [""] + parts[1..];
    } else {
      var shorter := [p[1..]] + parts[1..];
      assert shorter[1..] == parts[1..];
      assert Join([c], parts) == [p[0]] + Join([c], shorter);
      assert (Join([c], parts))[1..] == Join([c], shorter);
      assert c !in p[1..] by {
        forall i | 0 <= i < |p[1..]| ensures p[1..][i] != c { assert p[1..][i] == p[i + 1]; }
      }
      SplitJoin(shorter, c);
      assert [p[0]] + p[1..] == p;
      assert parts == [[p[0]] + shorter[0]] + shorter[1..];
    }
  }

  lemma {:induction false} SplitNoSeparator(s: string, c: char)
    requires c !in s
    ensures SplitOn(s, c) == [s]
    decreases |s|
  {
    if |s| > 0 {
      assert c !in s[1..] by {
        forall i | 0 <= i < |s[1..]| ensures s[1..][i] != c { assert s[1..][i] == s[i + 1]; }
      }
      SplitNoSeparator(s[1..], c);
      assert [s[0]] + s[1..] == s;
    }
  }

  /** The text after the last `c` (all of `s` when there is none): `s.rsplit(c, 1)[-1]` and `s.split(c)[-1]`. */
  function AfterLast(s: string, c: char): (r: string)
    ensures IsSuffix(r, s) && c !in r
    ensures |r| < |s| ==> s[|s| - |r| - 1] == c
    decreases |s|
  {
    if |s| == 0 then []
    else if s[|s| - 1] == c then []
    else AfterLast(s[..|s| - 1], c) + [s[|s| - 1]]
  }

  /** Python's `s[:n]`. */
  function Take(s: string, n: nat): (r: string)
    ensures |r| <= n && IsPrefix(r, s)
    ensures |s| <= n ==> r == s
  {
    if |s| <= n then s else s[..n]
  }
}
