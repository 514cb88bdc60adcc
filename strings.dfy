/** The handful of Python and JavaScript string operations the core relies on:
    prefix and suffix tests, substring search, `str.strip`, `str.replace(pat, "")`,
    `rfind`, and the quoted, comma-separated rendering of a list of strings. */
module Strings {

  predicate StartsWith(s: string, prefix: string) {
    |prefix| <= |s| && s[..|prefix|] == prefix
  }

  predicate EndsWith(s: string, suffix: string) {
    |suffix| <= |s| && s[|s| - |suffix|..] == suffix
  }

  /** Python's `sub in s`, JavaScript's `s.includes(sub)`. */
  predicate Contains(s: string, sub: string)
    decreases |s|
  {
    StartsWith(s, sub) || (|s| > 0 && Contains(s[1..], sub))
  }

  /** `sub` occurs in `s` at index `i`. */
  predicate OccursAt(s: string, sub: string, i: int) {
    0 <= i && i + |sub| <= |s| && s[i..i + |sub|] == sub
  }

  /** An occurrence inside an occurrence is an occurrence. */
  lemma OccursWithin(s: string, t: string, sub: string, j: int, i: int)
    requires OccursAt(s, t, j) && OccursAt(t, sub, i)
    ensures OccursAt(s, sub, j + i)
  {
    forall k | 0 <= k < |sub| ensures s[j + i..j + i + |sub|][k] == sub[k] {
      assert s[j + i + k] == s[j..j + |t|][i + k] == t[i + k];
      assert t[i + k] == t[i..i + |sub|][k];
    }
  }

  lemma {:induction false} ContainsIffOccurs(s: string, sub: string)
    ensures Contains(s, sub) <==> exists i :: OccursAt(s, sub, i)
    decreases |s|
  {
    assert OccursAt(s, sub, 0) <==> StartsWith(s, sub);
    if StartsWith(s, sub) {
      assert OccursAt(s, sub, 0);
    } else if |s| > 0 {
      ContainsIffOccurs(s[1..], sub);
      forall i | OccursAt(s[1..], sub, i) ensures OccursAt(s, sub, i + 1) {
        assert s[1..][i..i + |sub|] == s[i + 1..i + 1 + |sub|];
      }
      forall i | OccursAt(s, sub, i) && i >= 1 ensures OccursAt(s[1..], sub, i - 1) {
        assert s[1..][i - 1..i - 1 + |sub|] == s[i..i + |sub|];
      }
    }
  }

  /** Index of the last `c` in `s`, or -1 (Python's `rfind`). */
  function LastIndexOf(s: string, c: char): (r: int)
    ensures -1 <= r < |s|
    ensures r >= 0 ==> s[r] == c
    ensures forall j :: r < j < |s| ==> s[j] != c
    decreases |s|
  {
    if |s| == 0 then -1
    else if s[|s| - 1] == c then |s| - 1
    else LastIndexOf(s[..|s| - 1], c)
  }

  /** Index of the first `c` in `s`, or -1 (Python's `find`). */
  function IndexOf(s: string, c: char): (r: int)
    ensures -1 <= r < |s|
    ensures r >= 0 ==> s[r] == c
    ensures forall j :: 0 <= j < |s| && (r < 0 || j < r) ==> s[j] != c
    decreases |s|
  {
    if |s| == 0 then -1
    else if s[0] == c then 0
    else var k := IndexOf(s[1..], c); if k < 0 then -1 else k + 1
  }

  /** Python's `str.isspace` for one character (ASCII and Unicode white space). */
  predicate IsSpace(c: char) {
    ('\t' <= c <= '\r') || ('\U{1C}' <= c <= '\U{1F}') || c == ' ' || c == '\U{85}' || c == '\U{A0}'
    || c == '\U{1680}' || ('\U{2000}' <= c <= '\U{200A}') || c == '\U{2028}' || c == '\U{2029}'
    || c == '\U{202F}' || c == '\U{205F}' || c == '\U{3000}'
  }

  predicate AllSpace(s: string) {
    forall i :: 0 <= i < |s| ==> IsSpace(s[i])
  }

  function TrimLeft(s: string): (r: string)
    ensures |r| <= |s| && r == s[|s| - |r|..]
    ensures r == "" || !IsSpace(r[0])
    ensures AllSpace(s[..|s| - |r|])
    decreases |s|
  {
    if |s| > 0 && IsSpace(s[0]) then
      var t := s[1..];
      var r := TrimLeft(t);
      assert s[..|s| - |r|] == [s[0]] + t[..|t| - |r|];
      r
    else s
  }

  function TrimRight(s: string): (r: string)
    ensures |r| <= |s| && r == s[..|r|]
    ensures r == "" || !IsSpace(r[|r| - 1])
    ensures AllSpace(s[|r|..])
    decreases |s|
  {
    if |s| > 0 && IsSpace(s[|s| - 1]) then
      var t := s[..|s| - 1];
      var r := TrimRight(t);
      assert s[|r|..] == t[|r|..] + [s[|s| - 1]];
      r
    else s
  }

  /** Python's `str.strip()` with no argument. */
  function Strip(s: string): (r: string)
    ensures |r| <= |s|
    ensures r == "" || (!IsSpace(r[0]) && !IsSpace(r[|r| - 1]))
  {
    TrimRight(TrimLeft(s))
  }

  /** A line is blank for `if package_name:` exactly when it is all white space. */
  lemma StripEmptyIffBlank(s: string)
    ensures Strip(s) == "" <==> AllSpace(s)
  {
    var l := TrimLeft(s);
    var n := |s| - |l|;
    if l != "" {
      assert l[0] == s[n];
      assert l[0..] == l;
    } else {
      assert s[..n] == s;
    }
  }

  /** Python's `s.replace(pat, "")`: left-to-right, non-overlapping removal. */
  function RemoveAll(s: string, pat: string): (r: string)
    requires |pat| > 0
    ensures |r| <= |s|
    ensures forall j :: 0 <= j < |r| ==> r[j] in s
    decreases |s|
  {
    if |s| < |pat| then s
    else if s[..|pat|] == pat then RemoveAll(s[|pat|..], pat)
    else [s[0]] + RemoveAll(s[1..], pat)
  }

  /** Removal changes nothing in a string that does not contain the pattern. */
  lemma {:induction false} RemoveAllAbsent(s: string, pat: string)
    requires |pat| > 0 && !Contains(s, pat)
    ensures RemoveAll(s, pat) == s
    decreases |s|
  {
    if |s| >= |pat| {
      assert s[..|pat|] != pat;
      RemoveAllAbsent(s[1..], pat);
    }
  }

  /** Removal never introduces a character. */
  lemma {:induction false} RemoveAllKeepsAbsent(s: string, pat: string, c: char)
    requires |pat| > 0 && c !in s
    ensures c !in RemoveAll(s, pat)
    decreases |s|
  {
    if |s| >= |pat| {
      if s[..|pat|] == pat {
        RemoveAllKeepsAbsent(s[|pat|..], pat, c);
      } else {
        RemoveAllKeepsAbsent(s[1..], pat, c);
      }
    }
  }

  /** `"'" + x + "'"`, the quoting of `f"'{x}'"` and of Python's list repr. */
  function Quote(x: string): string {
    "'" + x + "'"
  }

  /** `parts.join(sep)`. */
  function JoinWith(parts: seq<string>, sep: string): string
    decreases |parts|
  {
    if |parts| == 0 then ""
    else if |parts| == 1 then parts[0]
    else parts[0] + sep + JoinWith(parts[1..], sep)
  }

  lemma ContainsLeft(a: string, b: string, t: string)
    requires Contains(a, t)
    ensures Contains(a + b, t)
  {
    ContainsIffOccurs(a, t);
    var i :| OccursAt(a, t, i);
    assert (a + b)[i..i + |t|] == a[i..i + |t|];
    assert OccursAt(a + b, t, i);
    ContainsIffOccurs(a + b, t);
  }

  lemma ContainsRight(a: string, b: string, t: string)
    requires Contains(b, t)
    ensures Contains(a + b, t)
  {
    ContainsIffOccurs(b, t);
    var i :| OccursAt(b, t, i);
    assert (a + b)[|a| + i..|a| + i + |t|] == b[i..i + |t|];
    assert OccursAt(a + b, t, |a| + i);
    ContainsIffOccurs(a + b, t);
  }

  lemma ContainsSelf(t: string)
    ensures Contains(t, t)
  {
    assert t[..|t|] == t;
  }

  /** Each part occurs in the joined string. */
  lemma {:induction false} JoinWithContains(parts: seq<string>, sep: string, t: string)
    requires t in parts
    ensures Contains(JoinWith(parts, sep), t)
    decreases |parts|
  {
    if |parts| == 1 {
      ContainsSelf(t);
    } else if parts[0] == t {
      ContainsSelf(t);
      ContainsLeft(t + sep, JoinWith(parts[1..], sep), t) by {
        ContainsLeft(t, sep, t);
      }
      assert t + sep + JoinWith(parts[1..], sep) == (t + sep) + JoinWith(parts[1..], sep);
    } else {
      JoinWithContains(parts[1..], sep, t);
      ContainsRight(parts[0] + sep, JoinWith(parts[1..], sep), t);
    }
  }

  function Quoted(xs: seq<string>): (r: seq<string>)
    ensures |r| == |xs| && forall i :: 0 <= i < |xs| ==> r[i] == Quote(xs[i])
  {
    seq(|xs|, i requires 0 <= i < |xs| => Quote(xs[i]))
  }

  /** `", ".join(f"'{x}'" for x in xs)`. */
  function QuotedJoin(xs: seq<string>): (r: string)
    ensures xs == [] <==> r == ""
  {
    if xs == [] then ""
    else
      JoinWithStarts(Quoted(xs), ", ");
      JoinWith(Quoted(xs), ", ")
  }

  /** Joining one more part adds the separator and that part at the end. */
  lemma {:induction false} JoinWithSnoc(parts: seq<string>, p: string, sep: string)
    requires parts != []
    ensures JoinWith(parts + [p], sep) == JoinWith(parts, sep) + sep + p
    decreases |parts|
  {
    var xs := parts + [p];
    if |parts| > 1 {
      assert xs[1..] == parts[1..] + [p];
      JoinWithSnoc(parts[1..], p, sep);
    } else {
      assert xs[1..] == [p];
    }
  }

  /** Quoting one more item adds `, 'x'` at the end. */
  lemma QuotedJoinSnoc(xs: seq<string>, x: string)
    requires xs != []
    ensures QuotedJoin(xs + [x]) == QuotedJoin(xs) + ", " + Quote(x)
  {
    assert Quoted(xs + [x]) == Quoted(xs) + [Quote(x)];
    JoinWithSnoc(Quoted(xs), Quote(x), ", ");
  }

  /** A non-empty join starts with its first part. */
  lemma {:induction false} JoinWithStarts(parts: seq<string>, sep: string)
    requires |parts| > 0
    ensures StartsWith(JoinWith(parts, sep), parts[0])
  {
    if |parts| > 1 {
      assert (parts[0] + sep + JoinWith(parts[1..], sep))[..|parts[0]|] == parts[0];
    }
  }

  /** ASCII lower-casing of one character. */
  function LowerChar(c: char): char {
    if 'A' <= c <= 'Z' then (c as int + 32) as char else c
  }

  /** Lower-casing, position by position (`str.lower()` / `toLowerCase()` on ASCII text). */
  function Lower(s: string): (r: string)
    ensures |r| == |s| && forall i :: 0 <= i < |s| ==> r[i] == LowerChar(s[i])
  {
    seq(|s|, i requires 0 <= i < |s| => LowerChar(s[i]))
  }
}
