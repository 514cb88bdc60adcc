/** `is_valid_url` of `_external_functions.py`: `urllib.parse.urlparse`
    reduced to what decides it, the scheme and the network location. */
module Urls {
  import opened Wrappers
  import opened Strings

  /** WHATWG "C0 control or space": every character up to and including ' '. */
  predicate IsC0OrSpace(c: char) {
    c <= ' '
  }

  /** `url.lstrip(_WHATWG_C0_CONTROL_OR_SPACE)`. */
  function LStripC0(s: string): (r: string)
    ensures |r| <= |s| && r == s[|s| - |r|..]
    ensures r == "" || !IsC0OrSpace(r[0])
    decreases |s|
  {
    if |s| > 0 && IsC0OrSpace(s[0]) then LStripC0(s[1..]) else s
  }

  /** The leading strip, then the removal of every tab, carriage return and
      line feed, which `urlsplit` applies before parsing; it only ever drops
      characters. */
  function Sanitise(u: string): (r: string)
    ensures forall j :: 0 <= j < |r| ==> r[j] in u
  {
    RemoveAll(RemoveAll(RemoveAll(LStripC0(u), "\t"), "\r"), "\n")
  }

  predicate IsAsciiAlpha(c: char) {
    'a' <= c <= 'z' || 'A' <= c <= 'Z'
  }

  /** `urllib.parse.scheme_chars`. */
  predicate IsSchemeChar(c: char) {
    IsAsciiAlpha(c) || '0' <= c <= '9' || c == '+' || c == '-' || c == '.'
  }

  /** The scheme rule of `urlsplit`: the text before the first ':' is the
      scheme when it is non-empty, starts with an ASCII letter and holds only
      scheme characters; otherwise there is no scheme. */
  function SplitScheme(url: string): (r: (string, string))
    ensures r.0 == "" ==> r.1 == url
    ensures r.0 != "" ==>
      |r.0| < |url| && url[|r.0|] == ':' && r.1 == url[|r.0| + 1..]
      && ':' !in url[..|r.0|] && r.0 == Lower(url[..|r.0|])
  {
    var i := IndexOf(url, ':');
    if i > 0 && IsAsciiAlpha(url[0]) && forall j :: 0 <= j < i ==> IsSchemeChar(url[j]) then
      (Lower(url[..i]), url[i + 1..])
    else ("", url)
  }

  /** `_splitnetloc(url, start)`: the end of the network location, the first
      '/', '?' or '#' at or after `start`, or the end of the text. */
  function NetlocEnd(url: string, start: nat): (r: nat)
    requires start <= |url|
    ensures start <= r <= |url|
    ensures forall j :: start <= j < r ==> url[j] !in "/?#"
    ensures r < |url| ==> url[r] in "/?#"
    decreases |url| - start
  {
    if start == |url| || url[start] in "/?#" then start else NetlocEnd(url, start + 1)
  }

  datatype UrlParts = UrlParts(scheme: string, netloc: string)

  /** The part of `urlparse(url)` that `is_valid_url` looks at; `Err` is the
      `ValueError` raised for an unbalanced IPv6 bracket. */
  function UrlSplit(u: string): Result<UrlParts> {
    SplitSanitised(Sanitise(u))
  }

  /** `urlsplit` once the text has been sanitised. */
  function SplitSanitised(url: string): (r: Result<UrlParts>)
    ensures r.Err? ==> StartsWith(SplitScheme(url).1, "//")
  {
    var (scheme, rest) := SplitScheme(url);
    if StartsWith(rest, "//") then
      var netloc := rest[2..NetlocEnd(rest, 2)];
      if ('[' in netloc) != (']' in netloc) then Err("Invalid IPv6 URL")
      else Ok(UrlParts(scheme, netloc))
    else Ok(UrlParts(scheme, ""))
  }

  /** `all([result.scheme, result.netloc])`, `False` on `ValueError`. */
  predicate IsValidUrl(u: string) {
    match UrlSplit(u)
    case Ok(parts) => parts.scheme != "" && parts.netloc != ""
    case Err(_) => false
  }

  /** A valid URL names a scheme followed by "://" once the leading control
      characters, tabs and line breaks are gone. */
  lemma ValidUrlHasAuthority(u: string)
    requires IsValidUrl(u)
    ensures var url := Sanitise(u); var n := |SplitScheme(url).0|;
      0 < n && OccursAt(url, "://", n) && forall j :: 0 <= j < n ==> IsSchemeChar(url[j])
  {
    SchemeBeforeAuthority(Sanitise(u));
  }

  lemma SchemeBeforeAuthority(url: string)
    requires SplitSanitised(url).Ok?
    requires SplitSanitised(url).value.scheme != "" && SplitSanitised(url).value.netloc != ""
    ensures var n := |SplitScheme(url).0|;
      0 < n && OccursAt(url, "://", n) && forall j :: 0 <= j < n ==> IsSchemeChar(url[j])
  {
    var (scheme, rest) := SplitScheme(url);
    var n := |scheme|;
    assert StartsWith(rest, "//");
    assert url[n..n + 3] == [url[n]] + rest[..2];
    assert IndexOf(url, ':') == n;
  }

  /** A text without the characters `Sanitise` removes or strips. */
  predicate Printable(s: string) {
    forall j :: 0 <= j < |s| ==> !IsC0OrSpace(s[j])
  }

  lemma {:induction false} AbsentCharNotContained(s: string, c: char)
    requires c !in s
    ensures !Contains(s, [c])
    decreases |s|
  {
    if |s| > 0 {
      assert s[0] != c;
      AbsentCharNotContained(s[1..], c);
    }
  }

  lemma PrintableSanitised(u: string)
    requires Printable(u)
    ensures Sanitise(u) == u
  {
    assert LStripC0(u) == u;
    AbsentCharNotContained(u, '\t');
    AbsentCharNotContained(u, '\r');
    AbsentCharNotContained(u, '\n');
    RemoveAllAbsent(u, "\t");
    RemoveAllAbsent(u, "\r");
    RemoveAllAbsent(u, "\n");
  }

  /** An alphabetic prefix before the first ':' is taken as the scheme. */
  lemma SplitSchemeOf(scheme: string, rest: string)
    requires scheme != "" && forall j :: 0 <= j < |scheme| ==> IsAsciiAlpha(scheme[j])
    ensures SplitScheme(scheme + ":" + rest) == (Lower(scheme), rest)
  {
    var url := scheme + ":" + rest;
    var i := IndexOf(url, ':');
    assert url[|scheme|] == ':';
    forall j | 0 <= j < |scheme| ensures url[j] == scheme[j] && url[j] != ':' { }
    assert i == |scheme|;
    assert url[..i] == scheme;
    assert url[i + 1..] == rest;
  }

  /** The network location of `//host/path` is `host`. */
  lemma NetlocOf(host: string, path: string)
    requires forall j :: 0 <= j < |host| ==> host[j] !in "/?#"
    requires path == "" || path[0] == '/'
    ensures var rest := "//" + host + path; rest[2..NetlocEnd(rest, 2)] == host
  {
    var rest := "//" + host + path;
    var e := NetlocEnd(rest, 2);
    forall j | 2 <= j < 2 + |host| ensures rest[j] == host[j - 2] && rest[j] !in "/?#" { }
    assert 2 + |host| < |rest| ==> rest[2 + |host|] == '/';
    assert e == 2 + |host|;
    assert rest[2..2 + |host|] == host;
  }

  /** Every URL of the usual shape `scheme://host[/path]` with an alphabetic
      scheme and a host free of delimiters and brackets is valid. */
  lemma CommonShapeValid(scheme: string, host: string, path: string)
    requires scheme != "" && forall j :: 0 <= j < |scheme| ==> IsAsciiAlpha(scheme[j])
    requires host != "" && forall j :: 0 <= j < |host| ==> host[j] !in "/?#[]"
    requires path == "" || path[0] == '/'
    requires Printable(scheme + "://" + host + path)
    ensures IsValidUrl(scheme + "://" + host + path)
  {
    var u := scheme + "://" + host + path;
    PrintableSanitised(u);
    SplitCommonShape(scheme, host, path);
  }

  lemma SplitCommonShape(scheme: string, host: string, path: string)
    requires scheme != "" && forall j :: 0 <= j < |scheme| ==> IsAsciiAlpha(scheme[j])
    requires forall j :: 0 <= j < |host| ==> host[j] !in "/?#[]"
    requires path == "" || path[0] == '/'
    ensures SplitSanitised(scheme + "://" + host + path) == Ok(UrlParts(Lower(scheme), host))
  {
    forall j | 0 <= j < |host| ensures host[j] !in "/?#" {
      assert host[j] !in "/?#[]";
    }
    ShapeParts(scheme, host, path);
    assert '[' !in host && ']' !in host;
  }

  /** `scheme://host[/path]` splits into the lower-cased scheme and `host`. */
  lemma ShapeParts(scheme: string, host: string, path: string)
    requires scheme != "" && forall j :: 0 <= j < |scheme| ==> IsAsciiAlpha(scheme[j])
    requires forall j :: 0 <= j < |host| ==> host[j] !in "/?#"
    requires path == "" || path[0] == '/'
    ensures var rest := "//" + host + path;
      SplitScheme(scheme + "://" + host + path) == (Lower(scheme), rest)
      && StartsWith(rest, "//") && rest[2..NetlocEnd(rest, 2)] == host
  {
    var u := scheme + "://" + host + path;
    var rest := "//" + host + path;
    assert u == scheme + ":" + rest;
    SplitSchemeOf(scheme, rest);
    NetlocOf(host, path);
  }

  /** Without a "scheme:" prefix there is no scheme, so no URL. */
  lemma NoSchemeInvalid(u: string)
    requires ':' !in u
    ensures !IsValidUrl(u)
  {
    var url := Sanitise(u);
    assert ':' !in url;
    assert IndexOf(url, ':') == -1;
  }

  /** An unbalanced bracket in the host makes `urlparse` raise. */
  lemma UnbalancedBracketInvalid(scheme: string, host: string, path: string)
    requires scheme != "" && forall j :: 0 <= j < |scheme| ==> IsAsciiAlpha(scheme[j])
    requires forall j :: 0 <= j < |host| ==> host[j] !in "/?#"
    requires path == "" || path[0] == '/'
    requires Printable(scheme + "://" + host + path)
    requires ('[' in host) != (']' in host)
    ensures UrlSplit(scheme + "://" + host + path).Err?
    ensures !IsValidUrl(scheme + "://" + host + path)
  {
    PrintableSanitised(scheme + "://" + host + path);
    SplitBracketShape(scheme, host, path);
  }

  lemma SplitBracketShape(scheme: string, host: string, path: string)
    requires scheme != "" && forall j :: 0 <= j < |scheme| ==> IsAsciiAlpha(scheme[j])
    requires forall j :: 0 <= j < |host| ==> host[j] !in "/?#"
    requires path == "" || path[0] == '/'
    requires ('[' in host) != (']' in host)
    ensures SplitSanitised(scheme + "://" + host + path).Err?
  {
    ShapeParts(scheme, host, path);
  }
}
