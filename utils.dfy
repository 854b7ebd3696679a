/**
  The string helpers of the provider (`utils.py`): key renaming from
  snake_case to camelCase, the organisation id hidden in a public key, the
  default Horizon URL and the joining of a base URL with an API path.
 */
module Utils {
  import opened Wrappers
  import opened Types
  import Text
  import Base64
  import Utf8
  import opened UrlLib

  // ---------------------------------------------------------------------------
  // to_camel_case

  /** `x.title()` of every piece, in order. */
  function TitleEach(parts: seq<string>): (r: seq<string>)
    ensures |r| == |parts|
    ensures forall i :: 0 <= i < |parts| ==> r[i] == Text.Title(parts[i])
  {
    if parts == [] then [] else [Text.Title(parts[0])] + TitleEach(parts[1..])
  }

  /**
    `to_camel_case`: the first `_`-separated component, then every other one
    title-cased; no `_` is left.
   */
  function ToCamelCase(s: string): (r: string)
    ensures '_' !in r
  {
    var components := Text.Split(s, '_');
    TitleEachKeepsAbsentChar(components[1..], '_');
    components[0] + Text.Concat(TitleEach(components[1..]))
  }

  /** Title-casing does not bring in a character that is not a letter. */
  lemma TitleKeepsAbsentChar(p: string, c: char)
    requires c !in p && !Text.IsCased(c)
    ensures c !in Text.Title(p)
  {
    var t := Text.Title(p);
    forall i | 0 <= i < |t| ensures t[i] != c {
      if !Text.IsCased(p[i]) {
        assert t[i] == p[i];
      }
    }
  }

  /** A character absent from every piece is absent from their concatenation. */
  lemma {:induction false} ConcatKeepsAbsentChar(parts: seq<string>, c: char)
    requires forall i :: 0 <= i < |parts| ==> c !in parts[i]
    ensures c !in Text.Concat(parts)
  {
    if parts != [] {
      ConcatKeepsAbsentChar(parts[1..], c);
    }
  }

  /** Title-casing pieces without a non-letter and joining them brings in none. */
  lemma TitleEachKeepsAbsentChar(parts: seq<string>, c: char)
    requires forall i :: 0 <= i < |parts| ==> c !in parts[i]
    requires !Text.IsCased(c)
    ensures c !in Text.Concat(TitleEach(parts))
  {
    var titled := TitleEach(parts);
    forall i | 0 <= i < |titled| ensures c !in titled[i] {
      TitleKeepsAbsentChar(parts[i], c);
    }
    ConcatKeepsAbsentChar(titled, c);
  }

  /** The result of `to_camel_case` starts with the first component, unchanged. */
  lemma ToCamelCaseKeepsFirstComponent(s: string)
    ensures Text.Split(s, '_')[0] <= ToCamelCase(s)
  {
  }

  /** A name without `_` is already in camelCase. */
  lemma ToCamelCaseWithoutUnderscore(s: string)
    requires '_' !in s
    ensures ToCamelCase(s) == s
  {
    Text.SplitWithoutSeparator(s, '_');
  }

  /** Joining pieces with `_` and camel-casing title-cases every piece after the first. */
  lemma ToCamelCaseOfJoin(parts: seq<string>)
    requires |parts| >= 1
    requires forall i :: 0 <= i < |parts| ==> '_' !in parts[i]
    ensures ToCamelCase(Text.Join(parts, '_')) == parts[0] + Text.Concat(TitleEach(parts[1..]))
  {
    Text.SplitJoin(parts, '_');
  }

  // ---------------------------------------------------------------------------
  // transform_dict_keys

  /** The keys of a dict. */
  function KeySet(d: seq<Entry>): (keys: set<string>)
    ensures forall i :: 0 <= i < |d| ==> d[i].key in keys
    ensures forall k :: k in keys ==> exists i :: 0 <= i < |d| && d[i].key == k
  {
    if d == [] then {}
    else
      var rest := KeySet(d[1..]);
      assert forall k :: k in rest ==> exists i :: 0 <= i < |d| && d[i].key == k by {
        forall k | k in rest ensures exists i :: 0 <= i < |d| && d[i].key == k {
          var i :| 0 <= i < |d[1..]| && d[1..][i].key == k;
          assert d[i + 1].key == k;
        }
      }
      {d[0].key} + rest
  }

  /** Whether no key occurs twice, as in every Python dict. */
  predicate UniqueKeys(d: seq<Entry>) {
    forall i, j :: 0 <= i < j < |d| ==> d[i].key != d[j].key
  }

  /** `d.get(k)`. */
  function Lookup(d: seq<Entry>, k: string): (r: Option<Value>)
    ensures r.Some? <==> k in KeySet(d)
  {
    if d == [] then None else if d[0].key == k then Some(d[0].val) else Lookup(d[1..], k)
  }

  /**
    `d[k] = v`: a key already present keeps its position and takes the new
    value; a new key goes at the end.
   */
  function Put(d: seq<Entry>, k: string, v: Value): (r: seq<Entry>)
    ensures Lookup(r, k) == Some(v)
    ensures forall k' :: k' != k ==> Lookup(r, k') == Lookup(d, k')
    ensures KeySet(r) == KeySet(d) + {k}
    ensures k !in KeySet(d) ==> r == d + [Entry(k, v)]
  {
    if d == [] then [Entry(k, v)]
    else
      assert d == [d[0]] + d[1..];
      if d[0].key == k then
        ReplaceFrontStores(d[0], d[1..], v);
        [Entry(k, v)] + d[1..]
      else
        var rest := Put(d[1..], k, v);
        KeepFrontStores(d[0], d[1..], k, v, rest);
        [d[0]] + rest
  }

  /** What `Put` promises of its result `r`. */
  ghost predicate Stores(d: seq<Entry>, k: string, v: Value, r: seq<Entry>) {
    && Lookup(r, k) == Some(v)
    && (forall k' :: k' != k ==> Lookup(r, k') == Lookup(d, k'))
    && KeySet(r) == KeySet(d) + {k}
    && (k !in KeySet(d) ==> r == d + [Entry(k, v)])
  }

  /** Storing the first key of a dict replaces its value in place. */
  lemma ReplaceFrontStores(e: Entry, d: seq<Entry>, v: Value)
    ensures Stores([e] + d, e.key, v, [Entry(e.key, v)] + d)
  {
    FrontEntry(e, d);
    FrontEntry(Entry(e.key, v), d);
  }

  /** Storing another key keeps the first entry in front of the rest. */
  lemma KeepFrontStores(e: Entry, d: seq<Entry>, k: string, v: Value, rest: seq<Entry>)
    requires e.key != k && Stores(d, k, v, rest)
    ensures Stores([e] + d, k, v, [e] + rest)
  {
    FrontEntry(e, d);
    FrontEntry(e, rest);
    if k !in KeySet([e] + d) {
      assert rest == d + [Entry(k, v)];
      AppendAssociative([e], d, [Entry(k, v)]);
    }
  }

  /** What a dict whose first entry is `e` gives for every key, and its keys. */
  lemma FrontEntry(e: Entry, d: seq<Entry>)
    ensures forall k :: Lookup([e] + d, k) == if e.key == k then Some(e.val) else Lookup(d, k)
    ensures KeySet([e] + d) == {e.key} + KeySet(d)
  {
    assert ([e] + d)[1..] == d;
  }

  /** In a dict the first key does not come back later. */
  lemma FirstKeyNotInRest(d: seq<Entry>)
    requires UniqueKeys(d) && d != []
    ensures d[0].key !in KeySet(d[1..])
  {
    forall i | 0 <= i < |d[1..]| ensures d[1..][i].key != d[0].key {
      assert d[1..][i] == d[i + 1];
    }
  }

  /** An entry whose key is not among the others can go in front of them. */
  lemma ConsKeepsUniqueKeys(e: Entry, rest: seq<Entry>)
    requires UniqueKeys(rest) && e.key !in KeySet(rest)
    ensures UniqueKeys([e] + rest)
  {
    var r := [e] + rest;
    forall i, j | 0 <= i < j < |r| ensures r[i].key != r[j].key {
      assert r[j] == rest[j - 1];
      if i > 0 {
        assert r[i] == rest[i - 1];
      }
    }
  }

  /** Giving the first key a new value keeps every key unique. */
  lemma ReplaceFirstKeepsUniqueKeys(d: seq<Entry>, v: Value)
    requires UniqueKeys(d) && d != []
    ensures UniqueKeys([Entry(d[0].key, v)] + d[1..])
  {
    var r := [Entry(d[0].key, v)] + d[1..];
    forall i, j | 0 <= i < j < |r| ensures r[i].key != r[j].key {
      assert r[j] == d[j];
      assert r[i].key == d[i].key;
    }
  }

  /** Storing a key keeps every key unique. */
  lemma {:induction false} PutKeepsUniqueKeys(d: seq<Entry>, k: string, v: Value)
    requires UniqueKeys(d)
    ensures UniqueKeys(Put(d, k, v))
    decreases d
  {
    if d != [] && d[0].key != k {
      PutKeepsUniqueKeys(d[1..], k, v);
      FirstKeyNotInRest(d);
      ConsKeepsUniqueKeys(d[0], Put(d[1..], k, v));
    } else if d != [] {
      ReplaceFirstKeepsUniqueKeys(d, v);
    }
  }

  /**
    The entries of `es` renamed and transformed one after the other into the
    dict `acc`: the loop of `transform_dict_keys` from a given point on.
   */
  function CamelCasedFrom(acc: seq<Entry>, es: seq<Entry>): seq<Entry>
    decreases es
  {
    if es == [] then acc
    else CamelCasedFrom(Put(acc, ToCamelCase(es[0].key), CamelCasedValue(es[0].val)), es[1..])
  }

  /** `transform_dict_keys(d)`. */
  function CamelCased(d: seq<Entry>): seq<Entry> {
    CamelCasedFrom([], d)
  }

  /** A value of a dict: a dict is transformed, a list has its dict items transformed, the rest is kept. */
  function CamelCasedValue(v: Value): Value
    decreases v
  {
    match v
    case Dict(es) => Dict(CamelCasedFrom([], es))
    case List(xs) => List(CamelCasedItems(xs))
    case _ => v
  }

  /** An item of a list value: only a dict is transformed, so nesting below a list stops there. */
  function CamelCasedItem(x: Value): Value
    decreases x
  {
    if x.Dict? then Dict(CamelCasedFrom([], x.entries)) else x
  }

  function CamelCasedItems(xs: seq<Value>): (r: seq<Value>)
    ensures |r| == |xs|
    ensures forall i :: 0 <= i < |xs| ==> r[i] == CamelCasedItem(xs[i])
    decreases xs
  {
    if xs == [] then [] else [CamelCasedItem(xs[0])] + CamelCasedItems(xs[1..])
  }

  /** The renamed keys of the entries. */
  function CamelKeys(es: seq<Entry>): (keys: set<string>)
    ensures forall i :: 0 <= i < |es| ==> ToCamelCase(es[i].key) in keys
  {
    if es == [] then {} else {ToCamelCase(es[0].key)} + CamelKeys(es[1..])
  }

  /** The transformed value of the last entry whose key is renamed to `k`. */
  function LastWithCamelKey(es: seq<Entry>, k: string): (r: Option<Value>)
    ensures r.Some? <==> k in CamelKeys(es)
  {
    if es == [] then None
    else match LastWithCamelKey(es[1..], k)
      case Some(v) => Some(v)
      case None => if ToCamelCase(es[0].key) == k then Some(CamelCasedValue(es[0].val)) else None
  }

  /**
    Looking a renamed key up finds the transformed value of the LAST entry
    renamed to it: a later key overwrites an earlier one that collides with it.
   */
  lemma {:induction false} CamelCasedFromLookup(acc: seq<Entry>, es: seq<Entry>, k: string)
    ensures Lookup(CamelCasedFrom(acc, es), k) ==
      (match LastWithCamelKey(es, k) case Some(v) => Some(v) case None => Lookup(acc, k))
    decreases es
  {
    if es != [] {
      CamelCasedFromLookup(Put(acc, ToCamelCase(es[0].key), CamelCasedValue(es[0].val)), es[1..], k);
    }
  }

  lemma CamelCasedLookup(d: seq<Entry>, k: string)
    ensures Lookup(CamelCased(d), k) == LastWithCamelKey(d, k)
  {
    CamelCasedFromLookup([], d, k);
  }

  /** The keys of the result are the renamed keys, each once. */
  lemma {:induction false} CamelCasedFromKeys(acc: seq<Entry>, es: seq<Entry>)
    requires UniqueKeys(acc)
    ensures KeySet(CamelCasedFrom(acc, es)) == KeySet(acc) + CamelKeys(es)
    ensures UniqueKeys(CamelCasedFrom(acc, es))
    decreases es
  {
    if es != [] {
      var key := ToCamelCase(es[0].key);
      var next := Put(acc, key, CamelCasedValue(es[0].val));
      PutKeepsUniqueKeys(acc, key, CamelCasedValue(es[0].val));
      CamelCasedFromKeys(next, es[1..]);
      assert CamelCasedFrom(acc, es) == CamelCasedFrom(next, es[1..]);
      assert CamelKeys(es) == {key} + CamelKeys(es[1..]);
    }
  }

  lemma CamelCasedKeys(d: seq<Entry>)
    ensures KeySet(CamelCased(d)) == CamelKeys(d)
    ensures UniqueKeys(CamelCased(d))
  {
    CamelCasedFromKeys([], d);
  }

  /** Every entry renamed and transformed, in order. */
  function RenameEach(es: seq<Entry>): (r: seq<Entry>)
    ensures |r| == |es|
    ensures forall i :: 0 <= i < |es| ==> r[i] == Entry(ToCamelCase(es[i].key), CamelCasedValue(es[i].val))
  {
    if es == [] then [] else [Entry(ToCamelCase(es[0].key), CamelCasedValue(es[0].val))] + RenameEach(es[1..])
  }

  lemma AppendAssociative<T>(a: seq<T>, b: seq<T>, c: seq<T>)
    ensures (a + b) + c == a + (b + c)
  {
  }

  /** When no two keys collide after renaming, the order of the entries is kept. */
  lemma {:induction false} CamelCasedFromKeepsOrder(acc: seq<Entry>, es: seq<Entry>)
    requires forall i, j :: 0 <= i < j < |es| ==> ToCamelCase(es[i].key) != ToCamelCase(es[j].key)
    requires forall i :: 0 <= i < |es| ==> ToCamelCase(es[i].key) !in KeySet(acc)
    ensures CamelCasedFrom(acc, es) == acc + RenameEach(es)
    decreases es
  {
    if es != [] {
      var first := Entry(ToCamelCase(es[0].key), CamelCasedValue(es[0].val));
      var acc' := Put(acc, first.key, first.val);
      assert acc' == acc + [first];
      forall i | 0 <= i < |es[1..]| ensures ToCamelCase(es[1..][i].key) !in KeySet(acc') {
        assert es[1..][i] == es[i + 1];
      }
      CamelCasedFromKeepsOrder(acc', es[1..]);
      assert CamelCasedFrom(acc, es) == CamelCasedFrom(acc', es[1..]);
      assert RenameEach(es) == [first] + RenameEach(es[1..]);
      AppendAssociative(acc, [first], RenameEach(es[1..]));
    }
  }

  lemma CamelCasedKeepsOrder(d: seq<Entry>)
    requires forall i, j :: 0 <= i < j < |d| ==> ToCamelCase(d[i].key) != ToCamelCase(d[j].key)
    ensures CamelCased(d) == RenameEach(d)
  {
    CamelCasedFromKeepsOrder([], d);
  }

  /**
    `transform_dict_keys`: fills a new dict entry by entry, recursing into
    dict values and into the dict items of list values.
   */
  method TransformDictKeys(d: seq<Entry>) returns (newDict: seq<Entry>)
    ensures newDict == CamelCased(d)
    decreases d
  {
    newDict := [];
    for i := 0 to |d|
      invariant CamelCasedFrom(newDict, d[i..]) == CamelCased(d)
    {
      var newKey := ToCamelCase(d[i].key);
      var value := d[i].val;
      if value.Dict? {
        var transformed := TransformDictKeys(value.entries);
        value := Dict(transformed);
      } else if value.List? {
        var items := TransformListItems(value.elems);
        value := List(items);
      }
      assert d[i..][1..] == d[i + 1..];
      newDict := Put(newDict, newKey, value);
    }
  }

  /** The list comprehension of `transform_dict_keys`: dict items are transformed, others kept. */
  method TransformListItems(xs: seq<Value>) returns (items: seq<Value>)
    ensures items == CamelCasedItems(xs)
    decreases xs
  {
    items := [];
    for j := 0 to |xs|
      invariant |items| == j
      invariant forall k :: 0 <= k < j ==> items[k] == CamelCasedItem(xs[k])
    {
      var item := xs[j];
      if item.Dict? {
        var transformed := TransformDictKeys(item.entries);
        item := Dict(transformed);
      }
      items := items + [item];
    }
  }

  // ---------------------------------------------------------------------------
  // get_org_id_from_public_key and build_default_horizon_url

  /** The characters of `[a-zA-Z0-9_-]`. */
  predicate IsOrgIdChar(c: char) {
    Text.IsCased(c) || Text.IsAsciiDigit(c) || c == '_' || c == '-'
  }

  predicate AllOrgIdChars(s: string) {
    forall i :: 0 <= i < |s| ==> IsOrgIdChar(s[i])
  }

  /**
    Whether `re.match(r'^[a-zA-Z0-9_-]+$', s)` succeeds: `$` matches at the
    end and also just before a final line feed.
   */
  predicate MatchesOrgIdPattern(s: string)
    ensures MatchesOrgIdPattern(s) ==> s != "" && ':' !in s
  {
    || (|s| >= 1 && AllOrgIdChars(s))
    || (|s| >= 2 && s[|s| - 1] == '\n' && AllOrgIdChars(s[..|s| - 1]))
  }

  /**
    `get_org_id_from_public_key`: drop the first `public_`, decode base 64,
    decode UTF-8, keep what precedes the first `:` and accept it only when
    it matches the pattern. Every failure yields the empty string.
   */
  function GetOrgIdFromPublicKey(publicKey: string): (orgId: string)
    ensures orgId == "" || MatchesOrgIdPattern(orgId)
    ensures ':' !in orgId
  {
    var keyWithoutPrefix := Text.ReplaceFirst(publicKey, "public_", "");
    match Base64.Decode(keyWithoutPrefix)
    case None => ""
    case Some(bytes) =>
      match Utf8.Decode(bytes)
      case None => ""
      case Some(decoded) =>
        var orgId := Text.Split(decoded, ':')[0];
        if MatchesOrgIdPattern(orgId) then orgId else ""
  }

  /** The public key that carries `org` and `rest` as `org:rest`. */
  function PublicKeyOf(org: string, rest: string): string {
    "public_" + Base64.Encode(Utf8.Encode(org + ":" + rest))
  }

  /** The organisation id put into a public key is the one read back from it. */
  lemma OrgIdOfPublicKey(org: string, rest: string)
    requires |org| >= 1 && AllOrgIdChars(org)
    ensures GetOrgIdFromPublicKey(PublicKeyOf(org, rest)) == org
  {
    var text := org + ":" + rest;
    var encoded := Base64.Encode(Utf8.Encode(text));
    Text.RemovePrefix("public_", encoded);
    Base64.DecodeEncode(Utf8.Encode(text));
    Utf8.DecodeEncode(text);
    assert ':' !in org by {
      forall i | 0 <= i < |org| ensures org[i] != ':' {
        assert IsOrgIdChar(org[i]);
      }
    }
    assert text == org + [':'] + rest;
    Text.SplitAfterFirst(org, ':', rest);
  }

  /** A key whose remainder is not valid base 64 carries no organisation id. */
  lemma OrgIdOfUndecodableKey(publicKey: string)
    requires var decoded := Base64.Decode(Text.ReplaceFirst(publicKey, "public_", ""));
      decoded.None? || Utf8.Decode(decoded.value).None?
    ensures GetOrgIdFromPublicKey(publicKey) == ""
  {
  }

  const GlobalHorizonUrl := "https://toggle.hyphen.cloud"

  /** `build_default_horizon_url`: the organisation's own host when the key names one. */
  function BuildDefaultHorizonUrl(publicKey: string): (url: string)
    ensures "https://" <= url
    ensures GetOrgIdFromPublicKey(publicKey) != "" ==>
      url == "https://" + GetOrgIdFromPublicKey(publicKey) + ".toggle.hyphen.cloud"
    ensures GetOrgIdFromPublicKey(publicKey) == "" ==> url == GlobalHorizonUrl
  {
    var orgId := GetOrgIdFromPublicKey(publicKey);
    if orgId != "" then "https://" + orgId + ".toggle.hyphen.cloud" else GlobalHorizonUrl
  }

  /** A key that names an organisation leads to the organisation's host. */
  lemma DefaultHorizonUrlOfOrgKey(org: string, rest: string)
    requires |org| >= 1 && AllOrgIdChars(org)
    ensures BuildDefaultHorizonUrl(PublicKeyOf(org, rest)) == "https://" + org + ".toggle.hyphen.cloud"
  {
    OrgIdOfPublicKey(org, rest);
  }

  /** A key that names no organisation leads to the global host. */
  lemma DefaultHorizonUrlWithoutOrg(publicKey: string)
    requires GetOrgIdFromPublicKey(publicKey) == ""
    ensures BuildDefaultHorizonUrl(publicKey) == GlobalHorizonUrl
  {
  }

  // ---------------------------------------------------------------------------
  // build_url

  /**
    The path `build_url` puts in the URL: the base path without its trailing
    slashes and the added path without its leading slashes, joined by one `/`
    unless the base path is left empty.
   */
  function JoinPath(basePath: string, path: string): (r: string)
    ensures var base := Text.StripTrailing(basePath, '/');
      base <= r && (base != "" ==> |r| > |base| && r[|base|] == '/')
    ensures var clean := Text.StripLeading(path, '/');
      |clean| <= |r| && r[|r| - |clean|..] == clean
  {
    var base, clean := Text.StripTrailing(basePath, '/'), Text.StripLeading(path, '/');
    if base != "" then base + "/" + clean else clean
  }

  /**
    `build_url`: the base URL with its path replaced by the base path and
    `path` joined with one `/`. It raises only what `urlparse` raises.
   */
  function BuildUrl(baseUrl: string, path: string): (r: Result<string, UrlError>)
    ensures r.Failure? <==> UrlParse(baseUrl).Failure?
    ensures r.Failure? ==> r.error == UrlParse(baseUrl).error
  {
    match UrlParse(baseUrl)
    case Failure(e) => Failure(e)
    case Success(parsed) => Success(UrlUnparse(parsed.(path := JoinPath(parsed.path, path))))
  }

  /** On a plain base URL only the path changes before the URL is put back together. */
  lemma BuildUrlReplacesPath(scheme: string, host: string, basePath: string, query: string, fragment: string, path: string)
    requires IsPlainUrl(scheme, host, basePath, query, fragment)
    ensures BuildUrl(PlainUrl(scheme, host, basePath, query, fragment), path)
      == Success(UrlUnsplit(scheme, host, JoinPath(basePath, path), query, fragment))
  {
    ParsePlainUrl(scheme, host, basePath, query, fragment);
    var full := JoinPath(basePath, path);
    assert UrlUnparse(ParseResult(scheme, host, full, "", query, fragment)) == UrlUnsplit(scheme, host, full, query, fragment);
  }

  /** Putting a URL back together around a base path and an added path. */
  lemma UnsplitBaseAndPath(scheme: string, host: string, bp: string, cp: string, query: string, fragment: string)
    requires scheme != "" && host != "" && bp != "" && bp[0] == '/'
    ensures UrlUnsplit(scheme, host, bp + "/" + cp, query, fragment)
      == scheme + "://" + host + bp + "/" + cp + QueryPart(query) + FragmentPart(fragment)
  {
    var full := bp + "/" + cp;
    assert full[0] == '/';
    UnsplitWithNetloc(scheme, host, full, query, fragment);
    AuthorityForm(scheme, host, full);
    var authority := scheme + "://" + host;
    AppendAssociative(authority, bp + "/", cp);
    AppendAssociative(authority, bp, "/");
  }

  /** Putting a URL back together around an added path alone. */
  lemma UnsplitPathOnly(scheme: string, host: string, cp: string, query: string, fragment: string)
    requires scheme != "" && host != "" && cp != "" && cp[0] != '/'
    ensures UrlUnsplit(scheme, host, cp, query, fragment)
      == scheme + "://" + host + "/" + cp + QueryPart(query) + FragmentPart(fragment)
  {
    UnsplitRelativePath(scheme, host, cp, query, fragment);
    AuthorityForm(scheme, host, "/" + cp);
  }

  /** Putting a URL back together without a path. */
  lemma UnsplitNoPath(scheme: string, host: string, query: string, fragment: string)
    requires scheme != "" && host != ""
    ensures UrlUnsplit(scheme, host, "", query, fragment)
      == scheme + "://" + host + QueryPart(query) + FragmentPart(fragment)
  {
    UnsplitWithNetloc(scheme, host, "", query, fragment);
    AuthorityForm(scheme, host, "");
    var authority := scheme + "://" + host;
    assert authority + "" == authority;
  }

  /** Putting a URL back together around a base path joined with an added path. */
  lemma UnsplitJoinedPath(scheme: string, host: string, basePath: string, path: string, query: string, fragment: string)
    requires scheme != "" && host != "" && (basePath == "" || basePath[0] == '/')
    ensures var bp, cp := Text.StripTrailing(basePath, '/'), Text.StripLeading(path, '/');
      UrlUnsplit(scheme, host, JoinPath(basePath, path), query, fragment)
        == if bp != "" || cp != "" then scheme + "://" + host + bp + "/" + cp + QueryPart(query) + FragmentPart(fragment)
           else scheme + "://" + host + QueryPart(query) + FragmentPart(fragment)
  {
    var bp, cp := Text.StripTrailing(basePath, '/'), Text.StripLeading(path, '/');
    if bp != "" {
      assert JoinPath(basePath, path) == bp + "/" + cp;
      assert bp[0] == basePath[0];
      UnsplitBaseAndPath(scheme, host, bp, cp, query, fragment);
    } else if cp != "" {
      assert JoinPath(basePath, path) == cp;
      UnsplitPathOnly(scheme, host, cp, query, fragment);
      assert scheme + "://" + host + bp == scheme + "://" + host;
    } else {
      assert JoinPath(basePath, path) == "";
      UnsplitNoPath(scheme, host, query, fragment);
    }
  }

  /**
    On a plain base URL, `build_url` keeps the scheme, host, query and
    fragment, and puts exactly one `/` between the base path without its
    trailing slashes and the path without its leading slashes.
   */
  lemma BuildUrlOnPlainUrl(scheme: string, host: string, basePath: string, query: string, fragment: string, path: string)
    requires IsPlainUrl(scheme, host, basePath, query, fragment)
    ensures var bp, cp := Text.StripTrailing(basePath, '/'), Text.StripLeading(path, '/');
      (bp != "" || cp != "" ==>
        BuildUrl(PlainUrl(scheme, host, basePath, query, fragment), path)
          == Success(scheme + "://" + host + bp + "/" + cp + QueryPart(query) + FragmentPart(fragment)))
      && (bp == "" && cp == "" ==>
        BuildUrl(PlainUrl(scheme, host, basePath, query, fragment), path)
          == Success(scheme + "://" + host + QueryPart(query) + FragmentPart(fragment)))
  {
    BuildUrlReplacesPath(scheme, host, basePath, query, fragment, path);
    UnsplitJoinedPath(scheme, host, basePath, path, query, fragment);
  }
}
