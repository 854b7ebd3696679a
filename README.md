# Hyphen OpenFeature provider: a Dafny model

This project models the core of the Hyphen feature-toggle provider for
OpenFeature (Python). The core has three parts:

- **`HyphenProvider`** (`provider.py`):
  - checks its options and registers the usage-telemetry hook;
  - prepares the evaluation context (targeting key, application, environment);
  - asks the client for the flags of that context;
  - turns the requested flag into a resolution, or into the error the OpenFeature framework expects;
  - converts the value for the integer, float and object resolvers.
- **`HyphenClient`** (`hyphen_client.py`):
  - builds the list of Horizon endpoints (the caller's, then the default one derived from the public key);
  - posts to them in order until one answers (`_try_urls`);
  - keeps evaluation responses in a time-limited cache;
  - sends telemetry along the same fallback path.
- **The helpers** (`utils.py`):
  - snake_case to camelCase conversion of keys, recursively through dicts and lists;
  - extraction of the organisation id from a base64 public key;
  - the default Horizon URL;
  - `build_url`, which replaces the path of a base URL.

The Python library functions the core relies on are modelled as far as the core uses them:

- `str.split`, `str.title`, `rstrip`/`lstrip` and `replace` (module `Text`);
- strict base64 decoding, as in section 4 of RFC 4648 (`Base64`);
- UTF-8 decoding, as in RFC 3629 (`Utf8`);
- `urlparse`/`geturl` for the URLs the client handles (`UrlLib`);
- `str()` and `int()` of flag values (`PyText`).

The network is an oracle. `network[j]` is what a post to the `j`-th endpoint
gives: either a delivered body or a failure. An endpoint whose URL `build_url`
rejects fails without a post.

Three more inputs are parameters:

- the current time, which only the cache reads;
- the cache-key function of the cache client;
- `id(context)`, the number Python gives an object, which ends a generated targeting key.

An evaluation context is a class whose fields `_prepare_context` updates in place.

The model follows the code where the tests expect otherwise.
`test_provider_initialization_environment_validation_regex`
(tests/openfeature_provider_hyphen/test_provider.py:50-93) expects an
"Invalid environment format" error. The constructor only rejects an empty
application or environment, so the model accepts such environments
(`Provider.EnvironmentFormatNotChecked`).

## Model

| member | source | states |
|---|---|---|
| Text.Split | src/openfeature_provider_hyphen/utils.py:8 | `str.split` on one character gives at least one part, and no part contains the separator |
| Text.JoinSplit | src/openfeature_provider_hyphen/utils.py:8 | joining the parts of a split with the separator gives back the original string |
| Text.SplitJoin | src/openfeature_provider_hyphen/utils.py:8 | splitting a join of separator-free parts gives back those parts |
| Text.SplitWithoutSeparator | src/openfeature_provider_hyphen/utils.py:29 | a string without the separator splits into itself alone |
| Text.SplitAfterFirst | src/openfeature_provider_hyphen/utils.py:29 | the first part of a split is everything before the first separator |
| Text.Title | src/openfeature_provider_hyphen/utils.py:9 | `str.title` keeps the length; a character that follows a cased character is lower-cased and any other is upper-cased, so uncased characters are kept and cased ones stay cased |
| Text.StripLeading | src/openfeature_provider_hyphen/utils.py:47 | `lstrip('/')` removes exactly the maximal run of leading slashes |
| Text.StripTrailing | src/openfeature_provider_hyphen/utils.py:46 | `rstrip('/')` removes exactly the maximal run of trailing slashes |
| Text.Find | src/openfeature_provider_hyphen/utils.py:29 | the first position of a character, and None exactly when it is absent |
| Text.FindSubstring | src/openfeature_provider_hyphen/utils.py:26 | the first occurrence of a pattern at or after a position, and none is missed |
| Text.RemovePrefix | src/openfeature_provider_hyphen/utils.py:26 | `replace('public_', '', 1)` on a key that starts with `public_` leaves the rest |
| Text.ReplaceFirst | src/openfeature_provider_hyphen/utils.py:26 | `replace(pat, rep, 1)`: the leftmost occurrence of `pat`, wherever it is, is replaced by `rep` and the rest kept (in particular a leading `pat`), and a string without `pat` is unchanged |
| Base64.CharOf | src/openfeature_provider_hyphen/utils.py:28 | every 6-bit value has a base64 character that decodes back to it |
| Base64.Encode | tests/openfeature_provider_hyphen/test_utils.py:17 | `b64encode`, as the tests use it to build keys: four characters for every started group of three bytes; DecodeEncode is its inverse |
| Base64.DecodeEncode | src/openfeature_provider_hyphen/utils.py:28 | decoding the base64 encoding of any byte string gives that byte string back |
| Base64.Decode | src/openfeature_provider_hyphen/utils.py:28 | strict `b64decode` of whole four-character groups, the last one possibly padded; DecodeLength, DecodeFullGroupFirst and DecodeEncode state what it gives |
| Base64.DecodeLength | src/openfeature_provider_hyphen/utils.py:28 | accepted input has a length that is a multiple of 4 and gives at most 3 bytes per 4 characters |
| Base64.GroupRoundTrip | src/openfeature_provider_hyphen/utils.py:28 | a full four-character group decodes to the three bytes it encodes |
| Base64.OneByteRoundTrip | src/openfeature_provider_hyphen/utils.py:28 | the padded encoding of one byte decodes back to it |
| Base64.TwoBytesRoundTrip | src/openfeature_provider_hyphen/utils.py:28 | the padded encoding of two bytes decodes back to them |
| Base64.DecodeFullGroupFirst | src/openfeature_provider_hyphen/utils.py:28 | decoding a longer input decodes its first group, then the rest |
| Utf8.SequenceLength | src/openfeature_provider_hyphen/utils.py:28 | a lead byte announces 1 to 4 bytes, and exactly 1 for an ASCII byte |
| Utf8.Encode | tests/openfeature_provider_hyphen/test_utils.py:17 | the UTF-8 encoding of a string: between one and four bytes per character; DecodeEncode is its inverse |
| Utf8.CodePoint | src/openfeature_provider_hyphen/utils.py:28 | a decoded sequence is a Unicode scalar value, and its length is the shortest form for it |
| Utf8.Decode | src/openfeature_provider_hyphen/utils.py:28 | strict `decode('utf-8')`: never more characters than bytes; DecodeEncode, DecodeAscii and RejectsLeadingContinuation fix its behaviour |
| Utf8.EncodeCharWellFormed | src/openfeature_provider_hyphen/utils.py:28 | the encoding of a character is read back as one sequence giving that character |
| Utf8.DecodeEncode | src/openfeature_provider_hyphen/utils.py:28 | `decode('utf-8')` of the UTF-8 encoding of any string gives that string |
| Utf8.DecodeAscii | src/openfeature_provider_hyphen/utils.py:28 | ASCII bytes decode to the characters with those codes |
| Utf8.RejectsLeadingContinuation | src/openfeature_provider_hyphen/utils.py:28 | bytes starting with a continuation byte do not decode |
| UrlLib.StripLeadingControls | src/openfeature_provider_hyphen/utils.py:45 | `urlparse` first removes exactly the leading control and space characters |
| UrlLib.RemoveUnsafe | src/openfeature_provider_hyphen/utils.py:45 | tab, CR and LF are removed, and a URL without them is unchanged; RemoveUnsafeChar and RemoveUnsafeAppend show the rest is kept in order |
| UrlLib.RemoveUnsafeChar | src/openfeature_provider_hyphen/utils.py:45 | a single character is dropped exactly when it is a tab, CR or LF |
| UrlLib.RemoveUnsafeAppend | src/openfeature_provider_hyphen/utils.py:45 | the removal works piece by piece, so every other character is kept in order |
| UrlLib.NetlocEnd | src/openfeature_provider_hyphen/utils.py:45 | the network location ends at the first `/`, `?` or `#` |
| UrlLib.NetlocEndAt | src/openfeature_provider_hyphen/utils.py:45 | a position with no delimiter before it and a delimiter (or the end) at it is where the network location ends |
| UrlLib.LastIndex | src/openfeature_provider_hyphen/utils.py:45 | the last position of a character, and None exactly when it is absent |
| UrlLib.UrlSplit | src/openfeature_provider_hyphen/utils.py:45 | `urlsplit`: a netloc holds `[` exactly when it holds `]`, the path holds no `?` or `#`, and the query no `#`; SplitPlainUrl gives its parts |
| UrlLib.UrlParse | src/openfeature_provider_hyphen/utils.py:45 | `urlparse` fails exactly when `urlsplit` does, keeps its scheme, netloc, query and fragment, and leaves a path without `;` whole with empty params |
| UrlLib.SplitPlainUrl | src/openfeature_provider_hyphen/utils.py:45 | `urlsplit` of a scheme://host/path?query#fragment URL gives those five parts |
| UrlLib.ParsePlainUrl | src/openfeature_provider_hyphen/utils.py:45 | `urlparse` of such a URL gives those parts and empty params |
| UrlLib.UnparsePlainUrl | src/openfeature_provider_hyphen/utils.py:56 | `geturl` of those parts gives the URL back |
| UrlLib.ParseUnparsePlainUrl | src/openfeature_provider_hyphen/utils.py:45-56 | parsing and unparsing a plain URL is the identity |
| UrlLib.RejectsUnbalancedBracket | src/openfeature_provider_hyphen/utils.py:45 | a network location with `[` and no `]` raises the invalid-IPv6 error |
| UrlLib.SplitSchemeOf | src/openfeature_provider_hyphen/utils.py:45 | a lower-case scheme is split off at its colon |
| UrlLib.UrlUnsplit | src/openfeature_provider_hyphen/utils.py:56 | `urlunsplit`; what it gives is stated by UnsplitWithNetloc and UnsplitRelativePath |
| UrlLib.UrlUnparse | src/openfeature_provider_hyphen/utils.py:56 | `geturl`, by way of `urlunparse`; UnparsePlainUrl and ParseUnparsePlainUrl state what it gives |
| UrlLib.UnsplitWithNetloc | src/openfeature_provider_hyphen/utils.py:56 | with a network location and an absolute path, the URL is scheme://netloc/path plus query and fragment |
| UrlLib.UnsplitRelativePath | src/openfeature_provider_hyphen/utils.py:56 | with a network location, a relative path gets a leading slash |
| PyText.DecimalText | src/openfeature_provider_hyphen/provider.py:95 | the decimal text of a number is digits without a leading zero |
| PyText.DigitsValueOfDecimalText | src/openfeature_provider_hyphen/provider.py:95 | reading the decimal text of a number gives the number |
| PyText.IntText | src/openfeature_provider_hyphen/provider.py:137 | `str()` of an integer is never empty |
| PyText.IntLiteral | src/openfeature_provider_hyphen/provider.py:168 | `int()` of a string accepts exactly an optional `+` or `-` followed by at least one decimal digit (leading zeros allowed), with the value of the digits, negated after `-`; anything else raises |
| PyText.IntLiteralExamples | src/openfeature_provider_hyphen/provider.py:168 | `int('+7')` and `int('007')` are 7, `int('-12')` is -12, and `'abc'`, `'+'` and `''` raise |
| PyText.PyStr | src/openfeature_provider_hyphen/provider.py:137 | `str()`: a string is itself, an integer reads back with `int()`, and a boolean is not read as an integer |
| PyText.IntLiteralOfIntText | src/openfeature_provider_hyphen/provider.py:168 | `int(str(i)) == i` for every integer |
| Utils.TitleEach | src/openfeature_provider_hyphen/utils.py:9 | each component after the first is title-cased, in order |
| Utils.ToCamelCase | src/openfeature_provider_hyphen/utils.py:6-9 | the result holds no underscore; the lemmas below give its prefix, its value on keys without `_` and on joined components |
| Utils.TitleEachKeepsAbsentChar | src/openfeature_provider_hyphen/utils.py:9 | title-casing the components and joining them brings in no `_` |
| Utils.ToCamelCaseKeepsFirstComponent | src/openfeature_provider_hyphen/utils.py:6-9 | a camelCase key starts with the first component unchanged |
| Utils.ToCamelCaseWithoutUnderscore | src/openfeature_provider_hyphen/utils.py:6-9 | a key without underscores is unchanged |
| Utils.ToCamelCaseOfJoin | src/openfeature_provider_hyphen/utils.py:6-9 | a key made of components joined by `_` becomes the first component followed by the others title-cased |
| Utils.TitleKeepsAbsentChar | src/openfeature_provider_hyphen/utils.py:9 | title-casing does not introduce an uncased character |
| Utils.ConcatKeepsAbsentChar | src/openfeature_provider_hyphen/utils.py:9 | `''.join` of parts without a character has none |
| Utils.KeySet | src/openfeature_provider_hyphen/utils.py:13-21 | the keys of a dict are exactly the keys of its entries |
| Utils.Lookup | src/openfeature_provider_hyphen/utils.py:20 | a dict has a value for a key exactly when the key is one of its keys |
| Utils.Put | src/openfeature_provider_hyphen/utils.py:20 | `new_dict[k] = v` makes `k` give `v`, leaves every other key, adds only `k`, and appends a new key at the end |
| Utils.ReplaceFrontStores | src/openfeature_provider_hyphen/utils.py:20 | assigning the first key of a dict replaces its value in place and keeps every other key |
| Utils.KeepFrontStores | src/openfeature_provider_hyphen/utils.py:20 | assigning another key keeps the first entry in front |
| Utils.PutKeepsUniqueKeys | src/openfeature_provider_hyphen/utils.py:20 | assignment keeps every key unique |
| Utils.FirstKeyNotInRest | src/openfeature_provider_hyphen/utils.py:13-21 | in a dict, the first key does not occur again |
| Utils.CamelCased | src/openfeature_provider_hyphen/utils.py:11-21 | `transform_dict_keys` as a function of the dict; what it gives is stated by CamelCasedLookup, CamelCasedKeys and CamelCasedKeepsOrder |
| Utils.CamelCasedItems | src/openfeature_provider_hyphen/utils.py:19 | each list item is converted on its own and the length is kept |
| Utils.CamelKeys | src/openfeature_provider_hyphen/utils.py:15 | the converted keys include the camelCase form of every original key |
| Utils.LastWithCamelKey | src/openfeature_provider_hyphen/utils.py:14-20 | a key is given a value exactly when some original key converts to it |
| Utils.CamelCasedLookup | src/openfeature_provider_hyphen/utils.py:11-21 | in the converted dict a key gives the converted value of the LAST original entry whose key converts to it |
| Utils.CamelCasedFromLookup | src/openfeature_provider_hyphen/utils.py:14-20 | the same, for the loop from any intermediate dict |
| Utils.CamelCasedKeys | src/openfeature_provider_hyphen/utils.py:11-21 | the converted dict's keys are the converted keys, each once |
| Utils.CamelCasedFromKeys | src/openfeature_provider_hyphen/utils.py:14-20 | the loop adds exactly the converted keys and keeps keys unique |
| Utils.RenameEach | src/openfeature_provider_hyphen/utils.py:14-20 | each entry is renamed and its value converted, in order |
| Utils.CamelCasedKeepsOrder | src/openfeature_provider_hyphen/utils.py:11-21 | when no two keys convert to the same key, the converted dict keeps the original order |
| Utils.CamelCasedFromKeepsOrder | src/openfeature_provider_hyphen/utils.py:14-20 | the same, for the loop from any intermediate dict |
| Utils.TransformDictKeys | src/openfeature_provider_hyphen/utils.py:11-21 | the loop builds the converted dict, recursing into dict values and into dicts inside lists |
| Utils.TransformListItems | src/openfeature_provider_hyphen/utils.py:19 | the list comprehension converts dict items and keeps the others |
| Utils.GetOrgIdFromPublicKey | src/openfeature_provider_hyphen/utils.py:23-34 | the result is empty or matches `^[a-zA-Z0-9_-]+$`, and never contains `:` |
| Utils.MatchesOrgIdPattern | src/openfeature_provider_hyphen/utils.py:30 | `re.match(r'^[a-zA-Z0-9_-]+$', …)`, where `$` also accepts one trailing newline: a match is never empty and has no `:` |
| Utils.OrgIdOfPublicKey | src/openfeature_provider_hyphen/utils.py:23-34 | `public_` + base64 of `org:rest` gives back `org` for every valid org id |
| Utils.OrgIdOfUndecodableKey | src/openfeature_provider_hyphen/utils.py:25-34 | a key whose remainder is not base64, or whose decoded bytes are not UTF-8, gives the empty id |
| Utils.BuildDefaultHorizonUrl | src/openfeature_provider_hyphen/utils.py:36-41 | `https://{org}.toggle.hyphen.cloud` when the key gives a non-empty org id, `https://toggle.hyphen.cloud` otherwise |
| Utils.DefaultHorizonUrlOfOrgKey | src/openfeature_provider_hyphen/utils.py:36-40 | a key carrying an org id gives `https://{org}.toggle.hyphen.cloud` |
| Utils.DefaultHorizonUrlWithoutOrg | src/openfeature_provider_hyphen/utils.py:39-41 | a key without one gives `https://toggle.hyphen.cloud` |
| Utils.BuildUrl | src/openfeature_provider_hyphen/utils.py:43-56 | `build_url` raises exactly when `urlparse` of the base URL raises, with that error; its result is stated by BuildUrlReplacesPath and BuildUrlOnPlainUrl |
| Utils.BuildUrlReplacesPath | src/openfeature_provider_hyphen/utils.py:43-56 | on a plain base URL, only the path changes; scheme, host, query and fragment are kept |
| Utils.BuildUrlOnPlainUrl | src/openfeature_provider_hyphen/utils.py:43-56 | the result is scheme://host + base path without trailing slashes + `/` + path without leading slashes, or only the path when the base has none |
| Utils.JoinPath | src/openfeature_provider_hyphen/utils.py:46-52 | the result starts with the base path without trailing slashes, followed by a `/` when that is non-empty, and ends with the path without leading slashes |
| Utils.UnsplitJoinedPath | src/openfeature_provider_hyphen/utils.py:46-56 | putting the URL back together around the joined path gives scheme://host + base + `/` + path, or scheme://host when both are empty |
| Utils.UnsplitBaseAndPath | src/openfeature_provider_hyphen/utils.py:49-50 | a non-empty base path is joined to the path with one slash |
| Utils.UnsplitPathOnly | src/openfeature_provider_hyphen/utils.py:51-52 | an empty base path gives `/` + path |
| Utils.UnsplitNoPath | src/openfeature_provider_hyphen/utils.py:51-56 | an empty base path and an empty path give scheme://host |
| Cache.Lookup | tests/openfeature_provider_hyphen/test_cache_client.py:52-58 | a value is served only if stored under the key, and never with a time-to-live of 0 |
| Cache.EmptyServesNothing | tests/openfeature_provider_hyphen/test_cache_client.py:12-13 | an empty cache serves nothing |
| Cache.StoredIsServed | tests/openfeature_provider_hyphen/test_cache_client.py:15-17 | what was just stored is served, unless the time-to-live is 0 |
| Cache.StoreKeepsOtherKeys | tests/openfeature_provider_hyphen/test_cache_client.py:20-36 | storing under one key does not change what another key serves |
| Cache.ServedUntilExpiry | tests/openfeature_provider_hyphen/test_cache_client.py:52-58 | a stored entry is served exactly until `ttl` seconds have passed |
| Cache.CacheClient.Get | tests/openfeature_provider_hyphen/test_cache_client.py:5-17 | an empty cache and a time-to-live of 0 serve nothing; anything served was stored under the context's key |
| Cache.CacheClient.Set | tests/openfeature_provider_hyphen/test_cache_client.py:15-17 | the entry is stored under the context's key and served right after, unless the time-to-live is 0 |
| Client.HorizonUrls | src/openfeature_provider_hyphen/hyphen_client.py:20-21 | the endpoints are the configured ones (none if unset) followed by the default one, which is always last |
| Client.CacheTtl | src/openfeature_provider_hyphen/hyphen_client.py:22-24 | the time-to-live is the configured one, and 30 when it is unset or 0 |
| Client.HyphenClient.constructor | src/openfeature_provider_hyphen/hyphen_client.py:12-29 | the client starts with the default URL, the endpoint list, an empty cache and that time-to-live |
| Client.Builds | src/openfeature_provider_hyphen/hyphen_client.py:47-49 | one `build_url` result per endpoint, in endpoint order |
| Client.Attempt | src/openfeature_provider_hyphen/hyphen_client.py:48-53 | an attempt succeeds exactly when the URL builds and the post delivers; a failure is either the URL error or the request error |
| Client.FirstSuccess | src/openfeature_provider_hyphen/hyphen_client.py:47-57 | the first endpoint that answers: every earlier one fails |
| Client.Fetch | src/openfeature_provider_hyphen/hyphen_client.py:45-59 | the fallback's result: `All URLs failed` exactly when there are no endpoints, and success exactly when some endpoint answers |
| Client.Posted | src/openfeature_provider_hyphen/hyphen_client.py:49-50 | no more posts than endpoints considered |
| Client.PostedComesFromEndpoints | src/openfeature_provider_hyphen/hyphen_client.py:49-50 | every URL posted to is the built URL of an endpoint |
| Client.PostedWhenAllBuild | src/openfeature_provider_hyphen/hyphen_client.py:47-50 | when every URL builds, one post per endpoint in endpoint order |
| Client.NoSuccessExtends | src/openfeature_provider_hyphen/hyphen_client.py:53-57 | one more failed endpoint extends the run of failures |
| Client.FetchAnswersFromFirstSuccess | src/openfeature_provider_hyphen/hyphen_client.py:47-52 | the first endpoint that answers decides the result, and nothing after it is posted to |
| Client.FetchAllFail | src/openfeature_provider_hyphen/hyphen_client.py:53-59 | when all endpoints fail, every one is tried and the last one's error is raised |
| Client.FetchNeverExhaustsEmptyList | src/openfeature_provider_hyphen/hyphen_client.py:59 | with an endpoint list that is never empty, `All URLs failed` is never raised, and the call succeeds exactly when some endpoint answers |
| Client.FallbackToSecond | tests/openfeature_provider_hyphen/test_hyphen_client.py:160-193 | first endpoint fails, second answers: both are posted to in order, and the second's answer is returned |
| Client.AllFailPostsToEach | tests/openfeature_provider_hyphen/test_hyphen_client.py:196-206 | all endpoints fail: one post each, and the last request error is raised |
| Client.UnbuildableUrlFallsBack | src/openfeature_provider_hyphen/hyphen_client.py:47-57 | an endpoint whose URL does not build is skipped without a post and the next one answers |
| Client.LoggedFetchFrom | src/openfeature_provider_hyphen/hyphen_client.py:47-57 | `_try_urls` as written with a logger: a success is the first endpoint that answers, and once a URL has been built it succeeds exactly when the loop without a logger does |
| Client.LoggedFetchAbandonsFallback | src/openfeature_provider_hyphen/hyphen_client.py:53-56 | with a logger, a first URL that does not build raises an unbound-name error where the fallback would have answered |
| Client.HyphenClient.TryUrls | src/openfeature_provider_hyphen/hyphen_client.py:31-59 | the loop returns the fallback result `Fetch` and posts to exactly `Attempted` |
| Client.EvaluateSpec | src/openfeature_provider_hyphen/hyphen_client.py:76-88 | `evaluate` posts only on a cache miss, and on a miss posts exactly as `_try_urls` does and raises the error `_try_urls` raises (or the malformed-body error); it stores nothing but the returned response under the context's key, and nothing when it raises |
| Client.EvaluateAllFailRaisesLast | src/openfeature_provider_hyphen/hyphen_client.py:47-59 | on a miss with every endpoint failing, `evaluate` raises the last endpoint's error (never the generic one), posts to every built URL and leaves the cache unchanged |
| Client.EvaluateCacheHit | src/openfeature_provider_hyphen/hyphen_client.py:76-78 | a cached response is returned without a post and the cache is unchanged |
| Client.EvaluateMissStores | src/openfeature_provider_hyphen/hyphen_client.py:80-88 | on a miss, the response that arrives is returned, stored under the context's key and served afterwards |
| Client.EvaluateFailureKeepsCache | src/openfeature_provider_hyphen/hyphen_client.py:80-82 | a failed evaluation leaves the cache unchanged |
| Client.EvaluateTwiceHitsCache | tests/openfeature_provider_hyphen/test_hyphen_client.py:92-104 | after an evaluation through the network, a second one of the same context less than `ttl` seconds later posts nothing and returns the same response; from `ttl` seconds on it posts again |
| Client.HyphenClient.Evaluate | src/openfeature_provider_hyphen/hyphen_client.py:61-88 | the response, the URLs posted to and the new cache are those of `EvaluateSpec` on the old cache, so a miss propagates the fallback's error and a failure keeps the cache |
| Client.HyphenClient.PostTelemetry | src/openfeature_provider_hyphen/hyphen_client.py:90-101 | telemetry fails exactly when the fallback fails on the telemetry path, posts to `Attempted`, and leaves the cache alone |
| Provider.ValidateOptions | src/openfeature_provider_hyphen/provider.py:32-35 | options are accepted exactly when application and environment are non-empty; the application error comes first |
| Provider.EnvironmentFormatNotChecked | src/openfeature_provider_hyphen/provider.py:32-35 | an environment in upper case is accepted |
| Provider.HyphenProvider.constructor | src/openfeature_provider_hyphen/provider.py:25-38 | valid options give a provider with a fresh client over those options |
| Provider.HyphenProvider.Create | src/openfeature_provider_hyphen/provider.py:32-38 | invalid options raise the first failed check, valid ones give a provider |
| Provider.HyphenProvider.GetProviderHooks | src/openfeature_provider_hyphen/provider.py:44-51 | the telemetry hook exactly when usage telemetry is enabled |
| Provider.TargetingKey | src/openfeature_provider_hyphen/provider.py:83-95 | never empty; the context's own key if non-empty, else a Hyphen user's non-empty id, else the generated key |
| Provider.GeneratedTargetingKey | src/openfeature_provider_hyphen/provider.py:94-95 | the key is application-environment- followed by decimal digits that read back as the context's identity |
| Provider.GeneratedKeyNamesOptions | tests/openfeature_provider_hyphen/test_provider.py:112-121 | a generated key is application, `-`, environment, `-`, decimal digits |
| Provider.Prepared | src/openfeature_provider_hyphen/provider.py:97-108 | the prepared context has the targeting key, the application and the environment set |
| Provider.PreparedKeepsOtherFields | src/openfeature_provider_hyphen/provider.py:104-107 | preparing changes no other field |
| Provider.PrepareIdempotent | src/openfeature_provider_hyphen/provider.py:97-108 | preparing a prepared context again changes nothing |
| Provider.HyphenProvider.PrepareContext | src/openfeature_provider_hyphen/provider.py:97-108 | the given context, or a new empty one, is updated in place to its prepared form |
| Provider.Decide | src/openfeature_provider_hyphen/provider.py:110-139 | flag not found, then an error message, then a type mismatch (each raised exactly when the earlier checks pass); otherwise the flag's value, its `str()` as the variant, its reason or TARGETING_MATCH; success exactly when none of the checks fires |
| Provider.Answer | src/openfeature_provider_hyphen/provider.py:122-139 | a client error passes through; a resolution comes only from a present flag of the requested type and carries its value |
| Provider.DecideOnlyReadsItsFlag | src/openfeature_provider_hyphen/provider.py:124 | the resolution depends only on the requested flag's entry |
| Provider.ErrorMessageBeforeTypeMismatch | src/openfeature_provider_hyphen/provider.py:129-133 | a flag with an error message and a wrong type raises the general error, not a type mismatch |
| Provider.IntegerVariantReadsBack | src/openfeature_provider_hyphen/provider.py:137 | the variant of an integer flag reads back with `int()` as its value |
| Provider.HyphenProvider.GetEvaluation | src/openfeature_provider_hyphen/provider.py:114-139 | the context is prepared in place; the answer and the cache are those of evaluating the prepared context and deciding on the flag |
| Provider.ToInt | src/openfeature_provider_hyphen/provider.py:168 | `int()`: integers unchanged, booleans 0/1, floats truncated toward zero, strings read as decimal literals, other values rejected |
| Provider.ToFloat | src/openfeature_provider_hyphen/provider.py:179 | `float()` on exact reals: floats unchanged, integers and booleans as the real of the same value, strings by the float parser, other values rejected |
| Provider.IntegerDetails | src/openfeature_provider_hyphen/provider.py:167-169 | errors pass through; a convertible value becomes an integer, and the rest of the resolution is kept |
| Provider.IntegerFlagUnchanged | src/openfeature_provider_hyphen/provider.py:167-169 | an integer flag's resolution is unchanged by the conversion |
| Provider.FloatFlagTruncatedTowardZero | src/openfeature_provider_hyphen/provider.py:168 | a float flag -2.5 resolved as an integer gives -2 |
| Provider.FloatDetails | src/openfeature_provider_hyphen/provider.py:178-180 | errors pass through; a convertible value becomes a float, and the rest of the resolution is kept |
| Provider.ObjectValue | src/openfeature_provider_hyphen/provider.py:190-200 | a non-string value is kept, a JSON string is replaced by its parse, an unparsable one gives the default with reason ERROR and PARSE_ERROR |
| Provider.ObjectDetails | src/openfeature_provider_hyphen/provider.py:189-200 | errors pass through; a parse failure is a resolution, never an error |
| Provider.HyphenProvider.ResolveBooleanDetails | src/openfeature_provider_hyphen/provider.py:142-149 | `_get_evaluation` with the boolean type |
| Provider.HyphenProvider.ResolveStringDetails | src/openfeature_provider_hyphen/provider.py:151-158 | `_get_evaluation` with the string type |
| Provider.HyphenProvider.ResolveIntegerDetails | src/openfeature_provider_hyphen/provider.py:160-169 | `_get_evaluation` with the number type, then `int()` |
| Provider.HyphenProvider.ResolveFloatDetails | src/openfeature_provider_hyphen/provider.py:171-180 | `_get_evaluation` with the number type, then `float()` |
| Provider.HyphenProvider.ResolveObjectDetails | src/openfeature_provider_hyphen/provider.py:182-200 | `_get_evaluation` with the object type, then the JSON fallback |

## Findings

| source | as written | input that shows it | evidently intended | confidence | as-written member | corrected member |
|---|---|---|---|---|---|---|
| src/openfeature_provider_hyphen/hyphen_client.py:47-57 | with a logger, the handler formats `url`, which is unbound when `build_url` raised on the first endpoint; the handler raises and the loop ends | a logger, a first horizon URL with an unbalanced `[` in its host, and a second endpoint that answers | skip the endpoint and try the next one, as without a logger | high; not executed | Client.LoggedFetchFrom, Client.LoggedFetchAbandonsFallback | Client.UnbuildableUrlFallsBack |

## Left out

- HTTP transport: the session, its headers (`Content-Type`, `x-api-key`), the JSON request bodies and `raise_for_status` are an oracle reply per endpoint. The body `evaluate` posts is `context.__dict__` (hyphen_client.py:81); when `user` is set it holds a `HyphenUser` dataclass, which the JSON encoder of `requests` cannot serialise, so such a post raises before reaching any endpoint. An oracle reply that fails the attempt can stand for that, but the model does not derive it.
- Client.HyphenClient.TryUrls: the logger parameter is not modelled (only the finding above is); the model behaves as without a logger.
- Reading a response body: the model takes a body as an `EvaluationResponse` whose `toggles` are `Evaluation` records, or as malformed. As written, `EvaluationResponse(**response.json())` (hyphen_client.py:82) keeps the decoded JSON dictionaries of `toggles` as plain dicts, so `evaluation.error_message` (provider.py:129) raises AttributeError for every flag that is present in a real response. The model gives the behaviour the records are evidently meant to have (`Provider.Decide`) and does not model that AttributeError.
- `cache_client.py` is not part of this model. The cache-key function is a parameter, and freshness is `storedAt <= now < storedAt + ttl`.
- Client.HyphenClient.Evaluate: one time `now` serves both the cache lookup (hyphen_client.py:76) and the store (hyphen_client.py:86), so an entry is stamped with the start of the call, not with the moment `set` runs after the network reply; the entry therefore expires no later than in the source. Also, `if cached_response` and `if evaluation_response` test instances of a dataclass without `__bool__` or `__len__`; those are always true, so the tests reduce to "a response is there".
- `id(context)` is a parameter. A context made by the provider takes `freshIdentity`.
- The telemetry hook's `after` method, `hooks.py` and the payload it builds: only the registration of the hook is modelled.
- `get_metadata` returns a constant name and is not modelled.
- Flag types: only the four documented type strings are modelled. A response with another type string is a type mismatch in the source and has no counterpart here.
- Base64.Decode: decodes strictly, as in section 4 of RFC 4648. Python's non-validating `b64decode` is more lenient, and the model rejects what it accepts: it drops characters outside the alphabet, stops reading at the first complete padding, and skips `=` in the first two positions of a group. So for `public_b3JnOng=QUJD` Python decodes `org:x` and gives the org id `org`, while Utils.GetOrgIdFromPublicKey gives "".
- Text.Title and Utils.ToCamelCase: case mapping is modelled for ASCII letters only; other characters are left unchanged.
- UrlLib: the IPv6 address and NFKC network-location checks of `urlsplit` and the version-dependent details of `urlunsplit` are not modelled, beyond the bracket check.
- PyText.PyStr: `str()` of floats and the escapes of `repr()` for strings are approximations.
- Provider.ToInt: `int()` of a string accepts only an optional sign and decimal digits, not surrounding whitespace or underscores.
- Provider.ToFloat: `float()` of a string is a parameter. Floats are exact reals (`Types.Value`'s `Float`): there is no rounding to IEEE 754 doubles, no OverflowError, no inf and no nan. So `float(2**53 + 1)` is exactly 2**53 + 1 here, where Python gives 9007199254740992.0, and a huge integer converts, where Python raises OverflowError.
- Provider.ObjectValue: JSON parsing is a parameter.
- Concurrency: none; every call runs alone.
