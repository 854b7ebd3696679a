/**
  The part of `urllib.parse` that `build_url` relies on: `urlparse` (by way
  of `urlsplit` and `_splitparams`) and `ParseResult.geturl()` (by way of
  `urlunparse` and `urlunsplit`).
 */
module UrlLib {
  import opened Wrappers
  import Text

  /** The six components of `urlparse`. */
  datatype ParseResult = ParseResult(
    scheme: string,
    netloc: string,
    path: string,
    params: string,
    query: string,
    fragment: string)

  /** The `ValueError` that `urlsplit` raises for a netloc with one bracket of a pair. */
  datatype UrlError = InvalidIpv6Url

  /** Schemes whose URLs carry a netloc (`uses_netloc`). */
  const NetlocSchemes: seq<string> := [
    "", "ftp", "http", "gopher", "nntp", "telnet", "imap", "wais", "file", "mms", "https",
    "shttp", "snews", "prospero", "rtsp", "rtsps", "rtspu", "rsync", "svn", "svn+ssh",
    "sftp", "nfs", "git", "git+ssh", "ws", "wss", "itms-services"]

  /** Schemes whose last path segment may carry `;` parameters (`uses_params`). */
  const ParamsSchemes: seq<string> := [
    "", "ftp", "hdl", "prospero", "http", "imap", "https", "shttp", "rtsp", "rtsps", "rtspu",
    "sip", "sips", "mms", "sftp", "tel"]

  /** Whether `scheme` is one of `schemes`. */
  predicate Listed(scheme: string, schemes: seq<string>)
    decreases schemes
  {
    schemes != [] && (scheme == schemes[0] || Listed(scheme, schemes[1..]))
  }

  predicate UsesNetloc(scheme: string) { Listed(scheme, NetlocSchemes) }

  predicate UsesParams(scheme: string) { Listed(scheme, ParamsSchemes) }

  /** The characters `urlsplit` deletes everywhere: tab, carriage return, line feed. */
  predicate IsUnsafe(c: char) { c == '\t' || c == '\r' || c == '\n' }

  predicate NoUnsafe(s: string) { '\t' !in s && '\r' !in s && '\n' !in s }

  /** Letters, digits, `+`, `-` and `.` (`scheme_chars`). */
  predicate IsSchemeChar(c: char) {
    Text.IsCased(c) || Text.IsAsciiDigit(c) || c == '+' || c == '-' || c == '.'
  }

  predicate AllSchemeChars(s: string) {
    forall i :: 0 <= i < |s| ==> IsSchemeChar(s[i])
  }

  /** `s[:2] == '//'`. */
  predicate StartsWithTwoSlashes(s: string) {
    |s| >= 2 && s[0] == '/' && s[1] == '/'
  }

  /** The characters that end a netloc. */
  predicate IsNetlocDelimiter(c: char) { c == '/' || c == '?' || c == '#' }

  /** `s.lstrip()` of the C0 control characters and space. */
  function StripLeadingControls(s: string): (r: string)
    ensures |r| <= |s| && r == s[|s| - |r|..]
    ensures forall i :: 0 <= i < |s| - |r| ==> s[i] <= ' '
    ensures r == [] || r[0] > ' '
  {
    if s != [] && s[0] <= ' ' then StripLeadingControls(s[1..]) else s
  }

  /** Deletes every tab, carriage return and line feed, keeping the order of the rest. */
  function RemoveUnsafe(s: string): (r: string)
    ensures NoUnsafe(r)
    ensures |r| <= |s|
    ensures NoUnsafe(s) ==> r == s
  {
    if s == [] then []
    else
      var rest := RemoveUnsafe(s[1..]);
      assert s == [s[0]] + s[1..];
      if IsUnsafe(s[0]) then rest else [s[0]] + rest
  }

  /** A single character is dropped exactly when it is a tab, carriage return or line feed. */
  lemma RemoveUnsafeChar(c: char)
    ensures RemoveUnsafe([c]) == if IsUnsafe(c) then [] else [c]
  {
  }

  /** Removal works piece by piece, so every other character is kept, in order. */
  lemma {:induction false} RemoveUnsafeAppend(a: string, b: string)
    ensures RemoveUnsafe(a + b) == RemoveUnsafe(a) + RemoveUnsafe(b)
  {
    if a == [] {
      assert a + b == b;
    } else {
      assert (a + b)[0] == a[0];
      assert (a + b)[1..] == a[1..] + b;
      RemoveUnsafeAppend(a[1..], b);
    }
  }

  /** ASCII lower-casing of every character. */
  function Lower(s: string): (t: string)
    ensures |t| == |s|
    ensures (forall i :: 0 <= i < |s| ==> !Text.IsAsciiUpper(s[i])) ==> t == s
  {
    if s == [] then [] else [Text.ToLower(s[0])] + Lower(s[1..])
  }

  /**
    Splits off the scheme: the text before the first `:` when it is not
    empty, starts with an ASCII letter and holds only scheme characters.
   */
  function SplitScheme(url: string): (string, string) {
    match Text.Find(url, ':')
    case Some(i) =>
      if i > 0 && Text.IsCased(url[0]) && AllSchemeChars(url[..i]) then (Lower(url[..i]), url[i + 1..])
      else ("", url)
    case None => ("", url)
  }

  /**
    The first position at or after `start` that holds `/`, `?` or `#`, or
    the length of `s`: the smallest of the three `find`s of `_splitnetloc`.
   */
  function NetlocEnd(s: string, start: nat): (n: nat)
    requires start <= |s|
    ensures start <= n <= |s|
    ensures forall j :: start <= j < n ==> !IsNetlocDelimiter(s[j])
    ensures n < |s| ==> IsNetlocDelimiter(s[n])
    decreases |s| - start
  {
    if start == |s| || IsNetlocDelimiter(s[start]) then start else NetlocEnd(s, start + 1)
  }

  /** `s.split(c, 1)` when `c` occurs, and `(s, '')` otherwise. */
  function SplitAtFirst(s: string, c: char): (r: (string, string))
    ensures c !in r.0
  {
    match Text.Find(s, c)
    case Some(i) => (s[..i], s[i + 1..])
    case None => (s, "")
  }

  /** The five components of `urlsplit`. */
  datatype SplitResult = SplitResult(scheme: string, netloc: string, path: string, query: string, fragment: string)

  /** `urlsplit(url)` with no default scheme and fragments allowed. */
  function UrlSplit(raw: string): (r: Result<SplitResult, UrlError>)
    ensures r.Success? ==> ('[' in r.value.netloc) == (']' in r.value.netloc)
    ensures r.Success? ==> '#' !in r.value.path && '?' !in r.value.path && '#' !in r.value.query
  {
    var (scheme, afterScheme) := SplitScheme(RemoveUnsafe(StripLeadingControls(raw)));
    SplitAfterScheme(scheme, afterScheme)
  }

  /** The steps of `urlsplit` after the scheme: netloc, bracket check, fragment, query. */
  function SplitAfterScheme(scheme: string, afterScheme: string): (r: Result<SplitResult, UrlError>)
    ensures r.Success? ==> ('[' in r.value.netloc) == (']' in r.value.netloc)
    ensures r.Success? ==> '#' !in r.value.path && '?' !in r.value.path && '#' !in r.value.query
  {
    var netlocEnd := if StartsWithTwoSlashes(afterScheme) then NetlocEnd(afterScheme, 2) else 0;
    var netloc := if StartsWithTwoSlashes(afterScheme) then afterScheme[2..netlocEnd] else "";
    var rest := afterScheme[netlocEnd..];
    if ('[' in netloc) != (']' in netloc) then Failure(InvalidIpv6Url)
    else
      var (beforeFragment, fragment) := SplitAtFirst(rest, '#');
      var (path, query) := SplitAtFirst(beforeFragment, '?');
      Success(SplitResult(scheme, netloc, path, query, fragment))
  }

  /** The position of the last `c` in `s` (`s.rfind(c)`), if any. */
  function LastIndex(s: string, c: char): (r: Option<nat>)
    ensures r.None? <==> c !in s
    ensures r.Some? ==> r.value < |s| && s[r.value] == c && c !in s[r.value + 1..]
  {
    if s == [] then None
    else if s[|s| - 1] == c then Some(|s| - 1)
    else
      var r := LastIndex(s[..|s| - 1], c);
      assert r.Some? ==> s[r.value + 1..] == s[..|s| - 1][r.value + 1..] + [s[|s| - 1]];
      r
  }

  /**
    `_splitparams`: the parameters follow the first `;` of the last path
    segment; `url` holds a `;`.
   */
  function SplitParams(url: string): (string, string)
    requires ';' in url
  {
    match LastIndex(url, '/')
    case Some(slash) =>
      (match Text.FindSubstring(url, ";", slash)
       case Some(i) => (url[..i], url[i + 1..])
       case None => (url, ""))
    case None =>
      var i := Text.Find(url, ';').value;
      (url[..i], url[i + 1..])
  }

  /** `urlparse(url)`. */
  function UrlParse(url: string): (r: Result<ParseResult, UrlError>)
    ensures r.Failure? <==> UrlSplit(url).Failure?
    ensures r.Success? ==> var p := UrlSplit(url).value;
      r.value.scheme == p.scheme && r.value.netloc == p.netloc && r.value.query == p.query && r.value.fragment == p.fragment
    ensures r.Success? && ';' !in UrlSplit(url).value.path ==>
      r.value.path == UrlSplit(url).value.path && r.value.params == ""
  {
    match UrlSplit(url)
    case Failure(e) => Failure(e)
    case Success(p) =>
      var (path, params) := if ';' in p.path && UsesParams(p.scheme) then SplitParams(p.path) else (p.path, "");
      Success(ParseResult(p.scheme, p.netloc, path, params, p.query, p.fragment))
  }

  /** `urlunsplit`: a netloc, or a scheme that uses one, brings back the `//`. */
  function UrlUnsplit(scheme: string, netloc: string, url: string, query: string, fragment: string): string {
    var slashedUrl := if url != "" && url[0] != '/' then "/" + url else url;
    var withNetloc :=
      if netloc != "" then "//" + netloc + slashedUrl
      else if scheme != "" && UsesNetloc(scheme) && !StartsWithTwoSlashes(url) then "//" + slashedUrl
      else url;
    var withScheme := if scheme != "" then scheme + ":" + withNetloc else withNetloc;
    var withQuery := if query != "" then withScheme + "?" + query else withScheme;
    if fragment != "" then withQuery + "#" + fragment else withQuery
  }

  /** `urlunparse`, which `ParseResult.geturl()` calls. */
  function UrlUnparse(p: ParseResult): string {
    var url := if p.params != "" then p.path + ";" + p.params else p.path;
    UrlUnsplit(p.scheme, p.netloc, url, p.query, p.fragment)
  }

  /** `?query` when the query is not empty. */
  function QueryPart(query: string): string {
    if query == "" then "" else "?" + query
  }

  /** `#fragment` when the fragment is not empty. */
  function FragmentPart(fragment: string): string {
    if fragment == "" then "" else "#" + fragment
  }

  /**
    A URL of the form `scheme://host/path?query#fragment` whose components
    hold none of the characters that would end them early.
   */
  predicate IsPlainUrl(scheme: string, host: string, path: string, query: string, fragment: string) {
    && |scheme| > 0 && Text.IsAsciiLower(scheme[0]) && AllSchemeChars(scheme)
    && (forall i :: 0 <= i < |scheme| ==> !Text.IsAsciiUpper(scheme[i]))
    && host != "" && '/' !in host && '?' !in host && '#' !in host && '[' !in host && ']' !in host
    && (path == "" || path[0] == '/') && '?' !in path && '#' !in path && ';' !in path
    && '#' !in query
    && NoUnsafe(host) && NoUnsafe(path) && NoUnsafe(query) && NoUnsafe(fragment)
  }

  function PlainUrl(scheme: string, host: string, path: string, query: string, fragment: string): string {
    scheme + "://" + host + path + QueryPart(query) + FragmentPart(fragment)
  }

  /** Scheme characters exclude `:`. */
  lemma SchemeHasNoColon(scheme: string)
    requires AllSchemeChars(scheme)
    ensures ':' !in scheme
  {
    forall i | 0 <= i < |scheme| ensures scheme[i] != ':' {
      assert IsSchemeChar(scheme[i]);
    }
  }

  /** A lower-case scheme in front of the first `:` is split off unchanged. */
  lemma SplitSchemeOf(scheme: string, rest: string)
    requires |scheme| > 0 && Text.IsCased(scheme[0]) && AllSchemeChars(scheme)
    requires forall i :: 0 <= i < |scheme| ==> !Text.IsAsciiUpper(scheme[i])
    ensures SplitScheme(scheme + ":" + rest) == (scheme, rest)
  {
    var url := scheme + ":" + rest;
    SchemeHasNoColon(scheme);
    SplitAtFirstAfter(scheme, ':', rest);
    assert url[..|scheme|] == scheme && url[|scheme| + 1..] == rest;
  }

  /** The netloc of a plain URL ends where its host ends. */
  lemma NetlocEndOfHost(host: string, tail: string)
    requires '/' !in host && '?' !in host && '#' !in host
    requires tail == [] || IsNetlocDelimiter(tail[0])
    ensures NetlocEnd("//" + host + tail, 2) == 2 + |host|
  {
    var s := "//" + host + tail;
    var m := 2 + |host|;
    assert forall j :: 2 <= j < m ==> !IsNetlocDelimiter(s[j]) by {
      forall j | 2 <= j < m ensures !IsNetlocDelimiter(s[j]) {
        assert s[j] == host[j - 2];
      }
    }
    assert m == |s| || IsNetlocDelimiter(s[m]) by {
      if m < |s| {
        assert s[m] == tail[0];
      }
    }
    NetlocEndAt(s, 2, m);
  }

  /** The netloc ends at `m` when nothing from `start` up to `m` ends it and `m` does. */
  lemma {:induction false} NetlocEndAt(s: string, start: nat, m: nat)
    requires start <= m <= |s|
    requires forall j :: start <= j < m ==> !IsNetlocDelimiter(s[j])
    requires m == |s| || IsNetlocDelimiter(s[m])
    ensures NetlocEnd(s, start) == m
    decreases m - start
  {
    if start < m {
      NetlocEndAt(s, start + 1, m);
    }
  }

  /** Splitting at a character that occurs only after a prefix. */
  lemma SplitAtFirstAfter(a: string, c: char, b: string)
    requires c !in a
    ensures SplitAtFirst(a + [c] + b, c) == (a, b)
  {
    var s := a + [c] + b;
    forall j | 0 <= j < |a| ensures s[j] != c {
      assert s[j] == a[j];
    }
    assert s[|a|] == c;
    assert s[..|a|] == a && s[|a| + 1..] == b;
  }

  /** Splitting at a character that does not occur. */
  lemma SplitAtFirstAbsent(s: string, c: char)
    requires c !in s
    ensures SplitAtFirst(s, c) == (s, "")
  {
  }

  /** The query and fragment of a plain URL come apart at the first `#` and `?`. */
  lemma SplitQueryAndFragment(path: string, query: string, fragment: string)
    requires '?' !in path && '#' !in path && '#' !in query
    ensures var (before, f) := SplitAtFirst(path + QueryPart(query) + FragmentPart(fragment), '#');
      f == fragment && SplitAtFirst(before, '?') == (path, query)
  {
    var beforeFragment := path + QueryPart(query);
    assert '#' !in beforeFragment;
    if fragment == "" {
      assert path + QueryPart(query) + FragmentPart(fragment) == beforeFragment;
      SplitAtFirstAbsent(beforeFragment, '#');
    } else {
      assert path + QueryPart(query) + FragmentPart(fragment) == beforeFragment + ['#'] + fragment;
      SplitAtFirstAfter(beforeFragment, '#', fragment);
    }
    if query == "" {
      assert beforeFragment == path;
      SplitAtFirstAbsent(path, '?');
    } else {
      assert beforeFragment == path + ['?'] + query;
      SplitAtFirstAfter(path, '?', query);
    }
  }

  /** The text of a plain URL is left alone by the clean-up `urlsplit` starts with. */
  lemma CleanPlainUrl(scheme: string, host: string, path: string, query: string, fragment: string)
    requires IsPlainUrl(scheme, host, path, query, fragment)
    ensures var url := PlainUrl(scheme, host, path, query, fragment);
      RemoveUnsafe(StripLeadingControls(url)) == url
  {
    var url := PlainUrl(scheme, host, path, query, fragment);
    assert url[0] == scheme[0];
    assert StripLeadingControls(url) == url;
    assert NoUnsafe(scheme) by {
      forall i | 0 <= i < |scheme| ensures !IsUnsafe(scheme[i]) {
        assert IsSchemeChar(scheme[i]);
      }
    }
    assert NoUnsafe(QueryPart(query)) && NoUnsafe(FragmentPart(fragment));
    assert NoUnsafe(url);
  }

  /** How `urlsplit` proceeds after the scheme when a netloc follows. */
  lemma SplitAfterSchemeWithNetloc(scheme: string, host: string, tail: string)
    requires NetlocEnd("//" + host + tail, 2) == 2 + |host|
    ensures var (before, fragment) := SplitAtFirst(tail, '#');
      var (path, query) := SplitAtFirst(before, '?');
      var afterScheme := "//" + host + tail;
      ('[' in host) == (']' in host) ==> SplitAfterScheme(scheme, afterScheme) == Success(SplitResult(scheme, host, path, query, fragment))
    ensures ('[' in host) != (']' in host) ==> SplitAfterScheme(scheme, "//" + host + tail) == Failure(InvalidIpv6Url)
  {
    var afterScheme := "//" + host + tail;
    assert StartsWithTwoSlashes(afterScheme);
    assert afterScheme[2..2 + |host|] == host;
    assert afterScheme[2 + |host|..] == tail;
  }

  /** A plain URL is its scheme, a colon, and the part after the scheme. */
  lemma PlainUrlShape(scheme: string, host: string, path: string, query: string, fragment: string)
    ensures PlainUrl(scheme, host, path, query, fragment)
      == scheme + ":" + ("//" + host + (path + QueryPart(query) + FragmentPart(fragment)))
  {
  }

  /** What follows the host of a plain URL starts with a netloc delimiter, if anything. */
  lemma PlainTailStart(path: string, query: string, fragment: string)
    requires path == "" || path[0] == '/'
    ensures var tail := path + QueryPart(query) + FragmentPart(fragment);
      tail == [] || IsNetlocDelimiter(tail[0])
  {
  }

  /** On a clean URL, `urlsplit` is the scheme split followed by the remaining steps. */
  lemma UrlSplitOfClean(url: string, scheme: string, afterScheme: string)
    requires RemoveUnsafe(StripLeadingControls(url)) == url
    requires SplitScheme(url) == (scheme, afterScheme)
    ensures UrlSplit(url) == SplitAfterScheme(scheme, afterScheme)
  {
  }

  /** `urlsplit` takes a plain URL apart into the components it was built from. */
  lemma SplitPlainUrl(scheme: string, host: string, path: string, query: string, fragment: string)
    requires IsPlainUrl(scheme, host, path, query, fragment)
    ensures UrlSplit(PlainUrl(scheme, host, path, query, fragment)) == Success(SplitResult(scheme, host, path, query, fragment))
  {
    var url := PlainUrl(scheme, host, path, query, fragment);
    var tail := path + QueryPart(query) + FragmentPart(fragment);
    PlainUrlShape(scheme, host, path, query, fragment);
    CleanPlainUrl(scheme, host, path, query, fragment);
    SplitSchemeOf(scheme, "//" + host + tail);
    UrlSplitOfClean(url, scheme, "//" + host + tail);
    PlainTailStart(path, query, fragment);
    NetlocEndOfHost(host, tail);
    SplitAfterSchemeWithNetloc(scheme, host, tail);
    SplitQueryAndFragment(path, query, fragment);
  }

  /** `urlparse` takes a plain URL apart into the components it was built from. */
  lemma ParsePlainUrl(scheme: string, host: string, path: string, query: string, fragment: string)
    requires IsPlainUrl(scheme, host, path, query, fragment)
    ensures UrlParse(PlainUrl(scheme, host, path, query, fragment)) == Success(ParseResult(scheme, host, path, "", query, fragment))
  {
    SplitPlainUrl(scheme, host, path, query, fragment);
  }

  /** `urlunsplit` on a scheme and a non-empty netloc. */
  lemma UnsplitWithNetloc(scheme: string, netloc: string, url: string, query: string, fragment: string)
    requires scheme != "" && netloc != "" && (url == "" || url[0] == '/')
    ensures UrlUnsplit(scheme, netloc, url, query, fragment) == scheme + ":" + ("//" + netloc + url) + QueryPart(query) + FragmentPart(fragment)
  {
  }

  /** `urlunsplit` puts a `/` in front of a relative path when there is a netloc. */
  lemma UnsplitRelativePath(scheme: string, netloc: string, url: string, query: string, fragment: string)
    requires scheme != "" && netloc != "" && url != "" && url[0] != '/'
    ensures UrlUnsplit(scheme, netloc, url, query, fragment) == scheme + ":" + ("//" + netloc + ("/" + url)) + QueryPart(query) + FragmentPart(fragment)
  {
    var withScheme := scheme + ":" + ("//" + netloc + ("/" + url));
    var withQuery := if query != "" then withScheme + "?" + query else withScheme;
    assert UrlUnsplit(scheme, netloc, url, query, fragment) ==
      if fragment != "" then withQuery + "#" + fragment else withQuery;
    assert withQuery == withScheme + QueryPart(query) by {
      if query != "" {
        assert withScheme + "?" + query == withScheme + ("?" + query);
      }
    }
    if fragment != "" {
      assert withQuery + "#" + fragment == withQuery + ("#" + fragment);
    }
  }

  /** `geturl()` puts a plain URL's components back together. */
  lemma UnparsePlainUrl(scheme: string, host: string, path: string, query: string, fragment: string)
    requires scheme != "" && host != "" && (path == "" || path[0] == '/')
    ensures UrlUnparse(ParseResult(scheme, host, path, "", query, fragment)) == PlainUrl(scheme, host, path, query, fragment)
  {
    UnsplitWithNetloc(scheme, host, path, query, fragment);
    AuthorityForm(scheme, host, path);
  }

  /** `scheme:` followed by `//host` and a path is `scheme://host` and the path. */
  lemma AuthorityForm(scheme: string, host: string, path: string)
    ensures scheme + ":" + ("//" + host + path) == scheme + "://" + host + path
  {
    assert ":" + "//" == "://";
  }

  /** Parsing a plain URL and putting it back together gives the URL. */
  lemma ParseUnparsePlainUrl(scheme: string, host: string, path: string, query: string, fragment: string)
    requires IsPlainUrl(scheme, host, path, query, fragment)
    ensures var url := PlainUrl(scheme, host, path, query, fragment);
      UrlParse(url).Success? && UrlUnparse(UrlParse(url).value) == url
  {
    ParsePlainUrl(scheme, host, path, query, fragment);
    UnparsePlainUrl(scheme, host, path, query, fragment);
  }

  /** A netloc with an opening bracket and no closing one is rejected. */
  lemma RejectsUnbalancedBracket(scheme: string, host: string)
    requires IsPlainUrl(scheme, "x", "", "", "")
    requires '[' in host && ']' !in host && '/' !in host && '?' !in host && '#' !in host && NoUnsafe(host)
    ensures UrlParse(scheme + "://" + host) == Failure(InvalidIpv6Url)
  {
    var url := scheme + "://" + host;
    assert url == scheme + ":" + ("//" + host);
    assert StripLeadingControls(url) == url by {
      assert url[0] == scheme[0];
    }
    assert NoUnsafe(url) by {
      assert NoUnsafe(scheme) by {
        forall i | 0 <= i < |scheme| ensures !IsUnsafe(scheme[i]) {
          assert IsSchemeChar(scheme[i]);
        }
      }
    }
    SplitSchemeOf(scheme, "//" + host);
    NetlocEndOfHost(host, "");
    assert "//" + host == "//" + host + "";
    SplitAfterSchemeWithNetloc(scheme, host, "");
  }
}
