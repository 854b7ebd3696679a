/**
  `HyphenClient`: the evaluation client. It posts to a list of endpoints in
  order until one answers, and keeps evaluation responses in a cache.

  The network is an oracle: `network[j]` is what a post to the `j`-th
  endpoint gives, either a delivered body (the body may not make an
  `EvaluationResponse`) or a failure (a connection error or an error
  status). An endpoint whose URL `build_url` rejects fails without a post.
  The current time, which only the cache uses, is a parameter as well.
 */
module Client {
  import opened Wrappers
  import opened Types
  import opened UrlLib
  import Utils
  import Cache

  /** The exceptions the client raises. */
  datatype Error =
    | RequestFailed(reason: string)   // from the session or `raise_for_status`
    | InvalidUrl(cause: UrlError)      // `build_url` raised
    | MalformedResponse               // the body does not make an `EvaluationResponse`
    | AllUrlsFailed                   // `Exception("All URLs failed")`
    | UnboundUrl                      // `UnboundLocalError` for `url` in the logging handler

  /** What a post to one endpoint gives. */
  datatype Reply = Delivered(body: Option<EvaluationResponse>) | Failed(reason: string)

  const EvaluatePath := "/toggle/evaluate"
  const TelemetryPath := "/toggle/telemetry"

  /** The endpoints in the order they are tried: the caller's, then the default one last. */
  function HorizonUrls(publicKey: string, options: HyphenProviderOptions): (urls: seq<string>)
    ensures |urls| >= 1
    ensures urls[|urls| - 1] == Utils.BuildDefaultHorizonUrl(publicKey)
    ensures urls[..|urls| - 1] == options.horizonUrls.GetOr([])
  {
    options.horizonUrls.GetOr([]) + [Utils.BuildDefaultHorizonUrl(publicKey)]
  }

  /** The cache's time-to-live: the configured value unless it is None or 0, else 30 seconds. */
  function CacheTtl(configured: Option<int>): (ttl: int)
    ensures ttl != 0
    ensures configured == None || configured == Some(0) ==> ttl == 30
    ensures configured.Some? && configured.value != 0 ==> ttl == configured.value
  {
    if configured.Some? && configured.value != 0 then configured.value else 30
  }

  /** What `build_url` gives for each endpoint, in order. */
  function Builds(urls: seq<string>, path: string): (builds: seq<Result<string, UrlError>>)
    ensures |builds| == |urls|
  {
    seq(|urls|, j requires 0 <= j < |urls| => Utils.BuildUrl(urls[j], path))
  }

  /** One attempt: a URL that did not build fails; otherwise the post decides. */
  function Attempt(build: Result<string, UrlError>, reply: Reply): (r: Result<Option<EvaluationResponse>, Error>)
    ensures r.Success? <==> build.Success? && reply.Delivered?
    ensures r.Failure? ==> r.error.InvalidUrl? || r.error.RequestFailed?
  {
    match build
    case Failure(e) => Failure(InvalidUrl(e))
    case Success(_) =>
      match reply
      case Delivered(body) => Success(body)
      case Failed(reason) => Failure(RequestFailed(reason))
  }

  predicate Succeeds(builds: seq<Result<string, UrlError>>, network: seq<Reply>, j: int)
    requires 0 <= j < |builds| <= |network|
  {
    Attempt(builds[j], network[j]).Success?
  }

  /** The position of the first endpoint from `i` on that answers, or `|builds|` when none does. */
  function FirstSuccess(builds: seq<Result<string, UrlError>>, network: seq<Reply>, i: nat): (k: nat)
    requires i <= |builds| <= |network|
    ensures i <= k <= |builds|
    ensures forall j :: i <= j < k ==> !Succeeds(builds, network, j)
    ensures k < |builds| ==> Succeeds(builds, network, k)
    decreases |builds| - i
  {
    if i == |builds| then i
    else if Succeeds(builds, network, i) then i
    else FirstSuccess(builds, network, i + 1)
  }

  /**
    What trying the endpoints in order gives: the answer of the first one that
    answers; when none does, the failure of the last one; with no endpoints at
    all, `AllUrlsFailed`.
   */
  function Fetch(builds: seq<Result<string, UrlError>>, network: seq<Reply>): (r: Result<Option<EvaluationResponse>, Error>)
    requires |builds| <= |network|
    ensures r == Failure(AllUrlsFailed) <==> builds == []
    ensures r.Success? <==> FirstSuccess(builds, network, 0) < |builds|
  {
    var k := FirstSuccess(builds, network, 0);
    if k < |builds| then Attempt(builds[k], network[k])
    else if builds == [] then Failure(AllUrlsFailed)
    else
      assert !Succeeds(builds, network, |builds| - 1);
      Attempt(builds[|builds| - 1], network[|builds| - 1])
  }

  /** The URLs posted to by the attempts at the first `n` endpoints, in order. */
  function Posted(builds: seq<Result<string, UrlError>>, n: nat): (posted: seq<string>)
    requires n <= |builds|
    ensures |posted| <= n
  {
    if n == 0 then []
    else if builds[n - 1].Success? then Posted(builds, n - 1) + [builds[n - 1].value]
    else Posted(builds, n - 1)
  }

  /** The URLs posted to while trying the endpoints: up to and including the first that answers. */
  function Attempted(builds: seq<Result<string, UrlError>>, network: seq<Reply>): seq<string>
    requires |builds| <= |network|
  {
    var k := FirstSuccess(builds, network, 0);
    Posted(builds, if k < |builds| then k + 1 else |builds|)
  }

  /** Every posted URL is the URL of one of the endpoints considered. */
  lemma {:induction false} PostedComesFromEndpoints(builds: seq<Result<string, UrlError>>, n: nat)
    requires n <= |builds|
    ensures forall x :: x in Posted(builds, n) ==> exists j :: 0 <= j < n && builds[j] == Success(x)
  {
    if n > 0 {
      PostedComesFromEndpoints(builds, n - 1);
    }
  }

  /** When every URL builds, there is one post per endpoint, in endpoint order. */
  lemma {:induction false} PostedWhenAllBuild(builds: seq<Result<string, UrlError>>, n: nat)
    requires n <= |builds|
    requires forall j :: 0 <= j < n ==> builds[j].Success?
    ensures |Posted(builds, n)| == n
    ensures forall j :: 0 <= j < n ==> Posted(builds, n)[j] == builds[j].value
  {
    if n > 0 {
      PostedWhenAllBuild(builds, n - 1);
    }
  }

  lemma NoSuccessExtends(builds: seq<Result<string, UrlError>>, network: seq<Reply>, i: nat)
    requires i < |builds| <= |network|
    requires forall j :: 0 <= j < i ==> !Succeeds(builds, network, j)
    requires !Attempt(builds[i], network[i]).Success?
    ensures forall j :: 0 <= j < i + 1 ==> !Succeeds(builds, network, j)
  {
  }

  /** The first endpoint that answers decides the result, and no later endpoint is posted to. */
  lemma FetchAnswersFromFirstSuccess(builds: seq<Result<string, UrlError>>, network: seq<Reply>, k: nat)
    requires k < |builds| <= |network|
    requires Succeeds(builds, network, k)
    requires forall j :: 0 <= j < k ==> !Succeeds(builds, network, j)
    ensures Fetch(builds, network) == Attempt(builds[k], network[k])
    ensures Attempted(builds, network) == Posted(builds, k + 1)
  {
  }

  /** When no endpoint answers, each is tried and the last one's error is raised. */
  lemma FetchAllFail(builds: seq<Result<string, UrlError>>, network: seq<Reply>)
    requires 0 < |builds| <= |network|
    requires forall j :: 0 <= j < |builds| ==> !Succeeds(builds, network, j)
    ensures Fetch(builds, network) == Attempt(builds[|builds| - 1], network[|builds| - 1])
    ensures Fetch(builds, network).Failure? && Fetch(builds, network) != Failure(AllUrlsFailed)
    ensures Attempted(builds, network) == Posted(builds, |builds|)
  {
    assert !Succeeds(builds, network, |builds| - 1);
  }

  /** With at least one endpoint the fallback error is never raised, and a failure is an endpoint's own. */
  lemma FetchNeverExhaustsEmptyList(builds: seq<Result<string, UrlError>>, network: seq<Reply>)
    requires 0 < |builds| <= |network|
    ensures Fetch(builds, network) != Failure(AllUrlsFailed)
    ensures Fetch(builds, network).Success? <==> exists j :: 0 <= j < |builds| && Succeeds(builds, network, j)
  {
    var k := FirstSuccess(builds, network, 0);
    if k == |builds| {
      assert !Succeeds(builds, network, |builds| - 1);
    }
  }

  /**
    The fallback scenario: the first endpoint fails, the second answers, so
    both are posted to, in order, and the second one's answer is returned.
   */
  lemma FallbackToSecond(builds: seq<Result<string, UrlError>>, network: seq<Reply>)
    requires |builds| == 2 <= |network|
    requires builds[0].Success? && builds[1].Success?
    requires network[0].Failed? && network[1].Delivered?
    ensures Fetch(builds, network) == Success(network[1].body)
    ensures Attempted(builds, network) == [builds[0].value, builds[1].value]
  {
    FetchAnswersFromFirstSuccess(builds, network, 1);
    PostedWhenAllBuild(builds, 2);
  }

  /** When every endpoint fails, there are exactly as many posts as endpoints. */
  lemma AllFailPostsToEach(builds: seq<Result<string, UrlError>>, network: seq<Reply>)
    requires 0 < |builds| <= |network|
    requires forall j :: 0 <= j < |builds| ==> builds[j].Success? && network[j].Failed?
    ensures |Attempted(builds, network)| == |builds|
    ensures Fetch(builds, network) == Failure(RequestFailed(network[|builds| - 1].reason))
  {
    FetchAllFail(builds, network);
    PostedWhenAllBuild(builds, |builds|);
  }

  /** An endpoint whose URL does not build is skipped without a post, and the next one answers. */
  lemma UnbuildableUrlFallsBack(builds: seq<Result<string, UrlError>>, network: seq<Reply>)
    requires |builds| == 2 <= |network|
    requires builds[0].Failure? && builds[1].Success? && network[1].Delivered?
    ensures Fetch(builds, network) == Success(network[1].body)
    ensures Attempted(builds, network) == [builds[1].value]
  {
    FetchAnswersFromFirstSuccess(builds, network, 1);
  }

  /**
    `_try_urls` as written when a logger is passed. The handler of a failed
    attempt formats `url` into its debug line; while no URL has been built
    yet that name is unbound, so the handler itself raises and the loop ends
    there instead of moving on to the next endpoint.
   */
  function LoggedFetchFrom(builds: seq<Result<string, UrlError>>, network: seq<Reply>, i: nat, urlBound: bool, lastError: Option<Error>)
    : (r: Result<Option<EvaluationResponse>, Error>)
    requires i <= |builds| <= |network|
    ensures r.Success? ==> var k := FirstSuccess(builds, network, i);
      k < |builds| && r == Attempt(builds[k], network[k])
    ensures urlBound ==> (r.Success? <==> FirstSuccess(builds, network, i) < |builds|)
    decreases |builds| - i
  {
    if i == |builds| then Failure(lastError.GetOr(AllUrlsFailed))
    else
      var bound := urlBound || builds[i].Success?;
      match Attempt(builds[i], network[i])
      case Success(body) => Success(body)
      case Failure(e) => if !bound then Failure(UnboundUrl) else LoggedFetchFrom(builds, network, i + 1, bound, Some(e))
  }

  /**
    With a logger, a first endpoint whose URL does not build ends the call
    with `UnboundUrl`, although the second endpoint answers and the loop
    without the logging line returns that answer.
   */
  lemma LoggedFetchAbandonsFallback(cause: UrlError, url: string, first: Reply, response: EvaluationResponse)
    ensures var builds := [Failure(cause), Success(url)];
      var network := [first, Delivered(Some(response))];
      LoggedFetchFrom(builds, network, 0, false, None) == Failure(UnboundUrl)
      && Fetch(builds, network) == Success(Some(response))
  {
    var builds: seq<Result<string, UrlError>> := [Failure(cause), Success(url)];
    var network := [first, Delivered(Some(response))];
    UnbuildableUrlFallsBack(builds, network);
  }

  // ---------------------------------------------------------------------------
  // evaluate

  type Entries = map<string, Cache.CacheEntry<EvaluationResponse>>

  /** The result of `evaluate`, the cache entries after it, and the URLs it posted to. */
  datatype Evaluated = Evaluated(result: Result<EvaluationResponse, Error>, entries: Entries, attempted: seq<string>)

  /**
    `evaluate`: a response the cache serves is returned without a post;
    otherwise the endpoints are tried, and a response that arrives is stored
    under the context's key and returned.
   */
  function EvaluateSpec(entries: Entries, key: string, ttl: int, now: int, builds: seq<Result<string, UrlError>>, network: seq<Reply>): (r: Evaluated)
    requires |builds| <= |network|
    ensures r.attempted != [] ==> Cache.Lookup(entries, key, ttl, now).None?
    ensures r.entries == entries || (r.result.Success? && r.entries == entries[key := Cache.CacheEntry(r.result.value, now)])
    ensures r.result.Failure? ==> r.entries == entries
    ensures Cache.Lookup(entries, key, ttl, now).None? ==>
      && r.attempted == Attempted(builds, network)
      && (Fetch(builds, network).Failure? ==> r.result == Failure(Fetch(builds, network).error))
      && (Fetch(builds, network) == Success(None) ==> r.result == Failure(MalformedResponse))
  {
    match Cache.Lookup(entries, key, ttl, now)
    case Some(cached) => Evaluated(Success(cached), entries, [])
    case None =>
      var attempted := Attempted(builds, network);
      match Fetch(builds, network)
      case Failure(e) => Evaluated(Failure(e), entries, attempted)
      case Success(None) => Evaluated(Failure(MalformedResponse), entries, attempted)
      case Success(Some(response)) => Evaluated(Success(response), entries[key := Cache.CacheEntry(response, now)], attempted)
  }

  /** A cache hit is returned as is, posts nothing and leaves the cache alone. */
  lemma EvaluateCacheHit(entries: Entries, key: string, ttl: int, now: int, builds: seq<Result<string, UrlError>>, network: seq<Reply>, cached: EvaluationResponse)
    requires |builds| <= |network|
    requires Cache.Lookup(entries, key, ttl, now) == Some(cached)
    ensures EvaluateSpec(entries, key, ttl, now, builds, network) == Evaluated(Success(cached), entries, [])
  {
  }

  /** On a miss, a response that arrives is stored under the key and returned. */
  lemma EvaluateMissStores(entries: Entries, key: string, ttl: int, now: int, builds: seq<Result<string, UrlError>>, network: seq<Reply>, response: EvaluationResponse)
    requires |builds| <= |network|
    requires Cache.Lookup(entries, key, ttl, now) == None
    requires Fetch(builds, network) == Success(Some(response))
    ensures EvaluateSpec(entries, key, ttl, now, builds, network).result == Success(response)
    ensures EvaluateSpec(entries, key, ttl, now, builds, network).entries == entries[key := Cache.CacheEntry(response, now)]
    ensures ttl > 0 ==> Cache.Lookup(EvaluateSpec(entries, key, ttl, now, builds, network).entries, key, ttl, now) == Some(response)
  {
    Cache.StoredIsServed(entries, key, response, ttl, now);
  }

  /** A failed evaluation raises before anything is stored. */
  /**
    On a miss where every endpoint fails, `evaluate` raises the last
    endpoint's error, never the generic one, after posting to every endpoint
    whose URL builds, and the cache is unchanged.
   */
  lemma EvaluateAllFailRaisesLast(entries: Entries, key: string, ttl: int, now: int, builds: seq<Result<string, UrlError>>, network: seq<Reply>)
    requires 0 < |builds| <= |network|
    requires Cache.Lookup(entries, key, ttl, now).None?
    requires forall j :: 0 <= j < |builds| ==> !Succeeds(builds, network, j)
    ensures var last := Attempt(builds[|builds| - 1], network[|builds| - 1]);
      last.Failure? && EvaluateSpec(entries, key, ttl, now, builds, network).result == Failure(last.error)
    ensures EvaluateSpec(entries, key, ttl, now, builds, network).result != Failure(AllUrlsFailed)
    ensures EvaluateSpec(entries, key, ttl, now, builds, network).entries == entries
    ensures EvaluateSpec(entries, key, ttl, now, builds, network).attempted == Posted(builds, |builds|)
  {
    FetchAllFail(builds, network);
  }

  lemma EvaluateFailureKeepsCache(entries: Entries, key: string, ttl: int, now: int, builds: seq<Result<string, UrlError>>, network: seq<Reply>)
    requires |builds| <= |network|
    requires EvaluateSpec(entries, key, ttl, now, builds, network).result.Failure?
    ensures EvaluateSpec(entries, key, ttl, now, builds, network).entries == entries
  {
  }

  /**
    A context evaluated once through the network and again at a later time:
    within the time-to-live the second call posts nothing and returns what the
    first one did; from `now + ttl` on the entry has expired and the second
    call posts again.
   */
  lemma EvaluateTwiceHitsCache(entries: Entries, key: string, ttl: int, now: int, later: int,
                               builds: seq<Result<string, UrlError>>, first: seq<Reply>, second: seq<Reply>)
    requires |builds| <= |first| && |builds| <= |second|
    requires now <= later
    requires Cache.Lookup(entries, key, ttl, now).None?
    requires EvaluateSpec(entries, key, ttl, now, builds, first).result.Success?
    ensures var one := EvaluateSpec(entries, key, ttl, now, builds, first);
      var two := EvaluateSpec(one.entries, key, ttl, later, builds, second);
      later < now + ttl ==> two.attempted == [] && two.result == one.result && two.entries == one.entries
    ensures var one := EvaluateSpec(entries, key, ttl, now, builds, first);
      var two := EvaluateSpec(one.entries, key, ttl, later, builds, second);
      later >= now + ttl ==> Cache.Lookup(one.entries, key, ttl, later).None? && two.attempted == Attempted(builds, second)
  {
    var one := EvaluateSpec(entries, key, ttl, now, builds, first);
    Cache.ServedUntilExpiry(entries, key, one.result.value, ttl, now, later);
  }

  /** The client: its endpoints in order, the default one, and the response cache. */
  class HyphenClient {
    const publicKey: string
    const defaultHorizonUrl: string
    const horizonUrls: seq<string>
    const cache: Cache.CacheClient<EvaluationResponse>

    /**
      The cache key function is a parameter: how `CacheClient` derives a key
      from a context is not part of this model.
     */
    constructor(publicKey: string, options: HyphenProviderOptions, cacheKey: ContextValue -> string)
      ensures this.publicKey == publicKey
      ensures defaultHorizonUrl == Utils.BuildDefaultHorizonUrl(publicKey)
      ensures horizonUrls == HorizonUrls(publicKey, options)
      ensures fresh(cache) && cache.entries == map[]
      ensures cache.ttlSeconds == CacheTtl(options.cacheTtlSeconds) && cache.keyOf == cacheKey
    {
      this.publicKey := publicKey;
      defaultHorizonUrl := Utils.BuildDefaultHorizonUrl(publicKey);
      horizonUrls := options.horizonUrls.GetOr([]) + [Utils.BuildDefaultHorizonUrl(publicKey)];
      cache := new Cache.CacheClient(CacheTtl(options.cacheTtlSeconds), cacheKey);
    }

    /**
      `_try_urls`: posts to each endpoint in turn, returning the first answer;
      when none answers it raises the last error. `attempted` lists the URLs
      posted to, in order.
     */
    method TryUrls(urlPath: string, network: seq<Reply>) returns (r: Result<Option<EvaluationResponse>, Error>, attempted: seq<string>)
      requires |horizonUrls| <= |network|
      ensures r == Fetch(Builds(horizonUrls, urlPath), network)
      ensures attempted == Attempted(Builds(horizonUrls, urlPath), network)
    {
      ghost var builds := Builds(horizonUrls, urlPath);
      var lastError: Option<Error> := None;
      attempted := [];
      for i := 0 to |horizonUrls|
        invariant |builds| == |horizonUrls|
        invariant forall j :: 0 <= j < i ==> !Succeeds(builds, network, j)
        invariant attempted == Posted(builds, i)
        invariant i == 0 ==> lastError == None
        invariant i > 0 ==> lastError.Some? && Attempt(builds[i - 1], network[i - 1]) == Failure(lastError.value)
      {
        var built := Utils.BuildUrl(horizonUrls[i], urlPath);
        var outcome := Attempt(built, network[i]);
        if built.Success? {
          attempted := attempted + [built.value];
        }
        if outcome.Success? {
          FetchAnswersFromFirstSuccess(builds, network, i);
          return outcome, attempted;
        }
        NoSuccessExtends(builds, network, i);
        lastError := Some(outcome.error);
      }
      r := Failure(lastError.GetOr(AllUrlsFailed));
      if horizonUrls != [] {
        FetchAllFail(builds, network);
      }
    }

    /**
      `evaluate`: serves from the cache when it can; otherwise fetches, and
      stores and returns the response.
     */
    method Evaluate(context: ContextValue, now: int, network: seq<Reply>) returns (r: Result<EvaluationResponse, Error>, attempted: seq<string>)
      requires |horizonUrls| <= |network|
      modifies cache
      ensures var spec := EvaluateSpec(old(cache.entries), cache.keyOf(context), cache.ttlSeconds, now, Builds(horizonUrls, EvaluatePath), network);
        r == spec.result && cache.entries == spec.entries && attempted == spec.attempted
    {
      var cached := cache.Get(context, now);
      if cached.Some? {
        return Success(cached.value), [];
      }
      var fetched;
      fetched, attempted := TryUrls(EvaluatePath, network);
      match fetched {
        case Failure(e) =>
          r := Failure(e);
        case Success(body) =>
          if body.None? {
            r := Failure(MalformedResponse);
          } else {
            cache.Set(context, body.value, now);
            r := Success(body.value);
          }
      }
    }

    /**
      `post_telemetry`: the same fallback on the telemetry path; the cache is
      not touched. `payload` stands for the JSON body that is posted; what the
      endpoints answer to it is `network`, so nothing here reads it.
     */
    method PostTelemetry(payload: TelemetryPayload, network: seq<Reply>) returns (error: Option<Error>, attempted: seq<string>)
      requires |horizonUrls| <= |network|
      ensures error.Some? <==> Fetch(Builds(horizonUrls, TelemetryPath), network).Failure?
      ensures error.Some? ==> error.value == Fetch(Builds(horizonUrls, TelemetryPath), network).error
      ensures attempted == Attempted(Builds(horizonUrls, TelemetryPath), network)
    {
      var r;
      r, attempted := TryUrls(TelemetryPath, network);
      error := if r.Failure? then Some(r.error) else None;
    }
  }
}
