/**
 * Fetching a dataset's info document with layout negotiation
 * (`getDatasetInfo`, src/utils/versionUtils.ts, lines 54-119).
 *
 * The bounded fetch is an oracle `Fetcher` from URL to `Reply`; the JSON
 * body arrives already decoded. The operation returns its result together
 * with the cache afterwards and the URLs it requested, in order.
 */
module DatasetInfo {
  import opened Wrappers
  import opened Layouts
  import opened Urls

  /** Feature name to its description; only the presence of the mapping is checked. */
  type Features = map<string, string>

  /** The fields of an info document the model reads. */
  datatype Info = Info(codebaseVersion: Option<string>, features: Option<Features>)

  /**
   * What one bounded GET produced: a response with its decoded body (`None`
   * when the body is not a JSON object), or an abort (the 10-second timeout
   * or a network failure).
   */
  datatype Reply = Response(status: int, body: Option<Info>) | Aborted

  type Fetcher = string -> Reply

  /** The errors the two exported operations throw, by kind. */
  datatype Error =
    | RequestAborted
    | HttpStatus(status: int)
    | MalformedBody
    | MissingFeatures
    | MissingVersion
    | UnsupportedVersion(version: string)

  /** A result, the layout cache after the call, and the URLs requested in order. */
  datatype Outcome<+T> = Outcome(result: Result<T, Error>, cache: Cache, requests: seq<string>)

  /** `Response.ok`. */
  predicate IsOk(status: int)
  {
    200 <= status <= 299
  }

  predicate IsNotFound(reply: Reply)
  {
    reply.Response? && reply.status == 404
  }

  function InfoUrlFor(cfg: Config, repoId: string, layout: Layout): string
  {
    BuildInfoUrl(BaseHost(cfg), repoId, layout)
  }

  /** The layout tried last, the reply it got, and every URL requested. */
  datatype Attempt = Attempt(layout: Layout, reply: Reply, requests: seq<string>)

  /** Lines 78-95: one request under a fixed preference; hf then, on 404 only, flat under auto. */
  function Negotiate(cfg: Config, fetch: Fetcher, repoId: string): (a: Attempt)
    ensures 1 <= |a.requests| <= 2
    ensures a.requests[|a.requests| - 1] == InfoUrlFor(cfg, repoId, a.layout)
    ensures a.reply == fetch(a.requests[|a.requests| - 1])
    ensures GetLayoutPreference(cfg).Fixed? ==>
      a.requests == [InfoUrlFor(cfg, repoId, GetLayoutPreference(cfg).layout)]
    ensures GetLayoutPreference(cfg).Auto? ==> a.requests[0] == InfoUrlFor(cfg, repoId, Hf)
    ensures GetLayoutPreference(cfg).Auto? ==>
      (|a.requests| == 2 <==> IsNotFound(fetch(InfoUrlFor(cfg, repoId, Hf))))
    ensures |a.requests| == 2 ==> a.layout == Flat
  {
    match GetLayoutPreference(cfg)
    case Fixed(l) =>
      Attempt(l, fetch(InfoUrlFor(cfg, repoId, l)), [InfoUrlFor(cfg, repoId, l)])
    case Auto =>
      var first := fetch(InfoUrlFor(cfg, repoId, Hf));
      if IsNotFound(first) then
        Attempt(Flat, fetch(InfoUrlFor(cfg, repoId, Flat)), [InfoUrlFor(cfg, repoId, Hf), InfoUrlFor(cfg, repoId, Flat)])
      else
        Attempt(Hf, first, [InfoUrlFor(cfg, repoId, Hf)])
  }

  /** Lines 97-106: the status check, the JSON decode and the structural check. */
  function Classify(reply: Reply): (r: Result<Info, Error>)
    ensures r.Success? <==>
      reply.Response? && IsOk(reply.status) && reply.body.Some? && reply.body.value.features.Some?
    ensures r.Success? ==> reply.body == Some(r.value)
    ensures r == Failure(RequestAborted) <==> reply.Aborted?
    ensures reply.Response? && !IsOk(reply.status) <==> r.Failure? && r.error.HttpStatus?
    ensures reply.Response? && !IsOk(reply.status) ==> r == Failure(HttpStatus(reply.status))
    ensures r == Failure(MalformedBody) <==> reply.Response? && IsOk(reply.status) && reply.body.None?
    ensures r == Failure(MissingFeatures) <==>
      reply.Response? && IsOk(reply.status) && reply.body.Some? && reply.body.value.features.None?
    ensures r.Failure? ==> !r.error.MissingVersion? && !r.error.UnsupportedVersion?
  {
    match reply
    case Aborted => Failure(RequestAborted)
    case Response(status, body) =>
      if !IsOk(status) then Failure(HttpStatus(status))
      else if body.None? then Failure(MalformedBody)
      else if body.value.features.None? then Failure(MissingFeatures)
      else Success(body.value)
  }

  /**
   * `getDatasetInfo`. Under a fixed preference exactly one request, to that
   * layout's info URL; under auto the hf info URL first and the flat one
   * second exactly when the first reply is a 404. The last reply alone
   * decides the result, and only a success touches the cache: it records
   * the layout of the URL that succeeded for `repoId` and nothing else.
   */
  function GetDatasetInfo(cfg: Config, fetch: Fetcher, cache: Cache, repoId: string): (o: Outcome<Info>)
    ensures 1 <= |o.requests| <= 2
    ensures GetLayoutPreference(cfg).Fixed? ==>
      o.requests == [InfoUrlFor(cfg, repoId, GetLayoutPreference(cfg).layout)]
    ensures GetLayoutPreference(cfg).Auto? ==> o.requests[0] == InfoUrlFor(cfg, repoId, Hf)
    ensures GetLayoutPreference(cfg).Auto? ==>
      (|o.requests| == 2 <==> IsNotFound(fetch(InfoUrlFor(cfg, repoId, Hf))))
    ensures |o.requests| == 2 ==> o.requests[1] == InfoUrlFor(cfg, repoId, Flat)
    ensures o.result == Classify(fetch(o.requests[|o.requests| - 1]))
    ensures o.result.Failure? ==> o.cache == cache
    ensures o.result.Success? ==>
      && repoId in o.cache
      && o.cache == cache[repoId := o.cache[repoId]]
      && o.requests[|o.requests| - 1] == InfoUrlFor(cfg, repoId, o.cache[repoId])
  {
    var attempt := Negotiate(cfg, fetch, repoId);
    var result := Classify(attempt.reply);
    Outcome(result, if result.Success? then cache[repoId := attempt.layout] else cache, attempt.requests)
  }

  /**
   * Negotiation never reads the cache: what is requested and what is
   * returned do not depend on it, so a cached flat layout does not stop an
   * auto fetch from trying hf first.
   */
  lemma NegotiationIgnoresCache(cfg: Config, fetch: Fetcher, c1: Cache, c2: Cache, repoId: string)
    ensures GetDatasetInfo(cfg, fetch, c1, repoId).result == GetDatasetInfo(cfg, fetch, c2, repoId).result
    ensures GetDatasetInfo(cfg, fetch, c1, repoId).requests == GetDatasetInfo(cfg, fetch, c2, repoId).requests
  {
  }

  /** No request is ever repeated: the two URLs of a fallback are distinct. */
  lemma RequestsAreDistinct(cfg: Config, fetch: Fetcher, cache: Cache, repoId: string)
    ensures var o := GetDatasetInfo(cfg, fetch, cache, repoId);
      |o.requests| == 2 ==> o.requests[0] != o.requests[1]
  {
  }

  /**
   * After a successful fetch, the versioned URL of the info path is the URL
   * that succeeded: later URLs follow the layout that was negotiated.
   */
  lemma VersionedUrlFollowsNegotiation(cfg: Config, fetch: Fetcher, cache: Cache, repoId: string, version: string)
    requires GetDatasetInfo(cfg, fetch, cache, repoId).result.Success?
    ensures var o := GetDatasetInfo(cfg, fetch, cache, repoId);
      BuildVersionedUrl(cfg, o.cache, repoId, version, "meta/info.json") == o.requests[|o.requests| - 1]
  {
    var o := GetDatasetInfo(cfg, fetch, cache, repoId);
    var layout := o.cache[repoId];
    var pref := GetLayoutPreference(cfg);
    if pref.Fixed? {
      InfoUrlInjective(BaseHost(cfg), repoId, layout, repoId, pref.layout);
    }
    assert ResolveDatasetLayout(pref, o.cache, repoId) == layout;
    VersionedUrlShape(cfg, o.cache, repoId, version, version, "meta/info.json");
  }
}
