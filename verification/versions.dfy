/**
 * Version validation (`getDatasetVersion`, src/utils/versionUtils.ts,
 * lines 122-155).
 */
module Versions {
  import opened Wrappers
  import opened Urls
  import opened Layouts
  import opened DatasetInfo

  /** The codebase versions this tool reads. */
  const SupportedVersions: seq<string> := ["v3.0", "v2.1", "v2.0"]

  /**
   * Lines 130-143: an absent or empty version is missing; a present one is
   * returned unchanged when it is on the allow-list and rejected by name
   * otherwise.
   */
  function ValidateVersion(version: Option<string>): (r: Result<string, Error>)
    ensures r.Success? <==> version == Some("v3.0") || version == Some("v2.1") || version == Some("v2.0")
    ensures r.Success? ==> version == Some(r.value)
    ensures r == Failure(MissingVersion) <==> version.None? || version.value == ""
    ensures r.Failure? && r.error.UnsupportedVersion? ==> version == Some(r.error.version)
    ensures r.Failure? ==> r.error == MissingVersion || r.error.UnsupportedVersion?
  {
    match version
    case None => Failure(MissingVersion)
    case Some(v) =>
      if v == "" then Failure(MissingVersion)
      else if v !in SupportedVersions then Failure(UnsupportedVersion(v))
      else Success(v)
  }

  /**
   * `getDatasetVersion`: the requests and the cache are those of the info
   * fetch; a fetch error propagates unchanged, otherwise the document's
   * version is validated.
   */
  function GetDatasetVersion(cfg: Config, fetch: Fetcher, cache: Cache, repoId: string): (o: Outcome<string>)
    ensures var info := GetDatasetInfo(cfg, fetch, cache, repoId);
      && o.cache == info.cache
      && o.requests == info.requests
      && (info.result.Failure? ==> o.result == Failure(info.result.error))
      && (info.result.Success? ==> o.result == ValidateVersion(info.result.value.codebaseVersion))
      && (o.result.Success? ==> info.result.Success? && info.result.value.codebaseVersion == Some(o.result.value))
    ensures o.result.Success? ==> o.result.value in SupportedVersions
  {
    var info := GetDatasetInfo(cfg, fetch, cache, repoId);
    match info.result
    case Failure(e) => Outcome(Failure(e), info.cache, info.requests)
    case Success(doc) => Outcome(ValidateVersion(doc.codebaseVersion), info.cache, info.requests)
  }

  /**
   * The layout is cached before the version is checked, so a dataset whose
   * version is missing or unsupported still has its layout recorded.
   */
  lemma RejectedVersionStillCachesLayout(cfg: Config, fetch: Fetcher, cache: Cache, repoId: string)
    requires GetDatasetVersion(cfg, fetch, cache, repoId).result.Failure?
    requires GetDatasetVersion(cfg, fetch, cache, repoId).result.error == MissingVersion
          || GetDatasetVersion(cfg, fetch, cache, repoId).result.error.UnsupportedVersion?
    ensures var o := GetDatasetVersion(cfg, fetch, cache, repoId);
      repoId in o.cache && o.requests[|o.requests| - 1] == InfoUrlFor(cfg, repoId, o.cache[repoId])
  {
  }

  /** Examples: each listed version passes, "v1.0" and "" fail. */
  lemma VersionExamples()
    ensures ValidateVersion(Some("v3.0")) == Success("v3.0")
    ensures ValidateVersion(Some("v2.1")) == Success("v2.1")
    ensures ValidateVersion(Some("v2.0")) == Success("v2.0")
    ensures ValidateVersion(Some("v1.0")) == Failure(UnsupportedVersion("v1.0"))
    ensures ValidateVersion(Some("")) == Failure(MissingVersion)
    ensures ValidateVersion(None) == Failure(MissingVersion)
  {
  }
}
