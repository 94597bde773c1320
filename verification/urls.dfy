/**
 * URL construction and layout resolution (src/utils/versionUtils.ts, lines
 * 20-29, 46-52 and 157-160).
 *
 * The module-level layout cache of the source becomes an explicit `Cache`
 * value: it is read here and written by `DatasetInfo.GetDatasetInfo`.
 */
module Urls {
  import opened Wrappers
  import opened Layouts

  /** Repository id to the layout its info document was last fetched with. */
  type Cache = map<string, Layout>

  const ResolveMain: string := "/resolve/main"
  const InfoPath: string := "/meta/info.json"

  /** `buildBaseUrl`: the root under which a dataset's files live. */
  function BuildBaseUrl(base: string, repoId: string, layout: Layout): (url: string)
    ensures url == base + "/" + repoId + LayoutSuffix(layout)
  {
    if layout == Flat then base + "/" + repoId
    else base + "/" + repoId + ResolveMain
  }

  /** `buildInfoUrl`: where the dataset's info document lives. */
  function BuildInfoUrl(base: string, repoId: string, layout: Layout): (url: string)
    ensures url == base + "/" + repoId + LayoutSuffix(layout) + "/meta/info.json"
  {
    BuildBaseUrl(base, repoId, layout) + InfoPath
  }

  /** What a layout appends after `<base>/<repoId>`. */
  function LayoutSuffix(layout: Layout): string
  {
    match layout
    case Flat => ""
    case Hf => ResolveMain
  }

  /**
   * The inverse of `BuildBaseUrl` for a known host and layout: the repository
   * id, when `url` has the shape `<base>/<repoId><suffix>`.
   */
  function RepoIdOf(base: string, layout: Layout, url: string): Option<string>
  {
    var head := base + "/";
    var tail := LayoutSuffix(layout);
    if |head| + |tail| <= |url| && url[..|head|] == head && url[|url| - |tail|..] == tail
    then Some(url[|head|..|url| - |tail|])
    else None
  }

  /** The base URL is `<base>/<repoId>` followed by the layout's suffix. */
  lemma BaseUrlShape(base: string, repoId: string, layout: Layout)
    ensures BuildBaseUrl(base, repoId, layout) == base + "/" + repoId + LayoutSuffix(layout)
    ensures layout == Hf ==> BuildBaseUrl(base, repoId, layout) == BuildBaseUrl(base, repoId, Flat) + "/resolve/main"
  {
  }

  /** Reading the repository id back out of a base URL returns the id it was built from. */
  lemma BaseUrlRoundTrip(base: string, repoId: string, layout: Layout)
    ensures RepoIdOf(base, layout, BuildBaseUrl(base, repoId, layout)) == Some(repoId)
  {
    BaseUrlShape(base, repoId, layout);
    var head := base + "/";
    var tail := LayoutSuffix(layout);
    var url := BuildBaseUrl(base, repoId, layout);
    assert url == head + repoId + tail;
    assert url[..|head|] == head;
    assert url[|url| - |tail|..] == tail;
    assert url[|head|..|url| - |tail|] == repoId;
  }

  /** Every URL the inverse accepts is the base URL of the id it returns. */
  lemma RepoIdOfOnlyAcceptsBaseUrls(base: string, layout: Layout, url: string)
    requires RepoIdOf(base, layout, url).Some?
    ensures BuildBaseUrl(base, RepoIdOf(base, layout, url).value, layout) == url
  {
  }

  /**
   * Info URLs are distinct for distinct requests: for a fixed repository the
   * two layouts give different URLs, and for a fixed layout different
   * repositories give different URLs.
   */
  lemma InfoUrlInjective(base: string, id1: string, l1: Layout, id2: string, l2: Layout)
    requires id1 == id2 || l1 == l2
    requires BuildInfoUrl(base, id1, l1) == BuildInfoUrl(base, id2, l2)
    ensures id1 == id2 && l1 == l2
  {
    var b1 := BuildBaseUrl(base, id1, l1);
    var b2 := BuildBaseUrl(base, id2, l2);
    assert |b1| == |b2|;
    assert b1 == BuildInfoUrl(base, id1, l1)[..|b1|];
    assert b2 == BuildInfoUrl(base, id2, l2)[..|b2|];
    BaseUrlShape(base, id1, l1);
    BaseUrlShape(base, id2, l2);
    if l1 == l2 {
      BaseUrlRoundTrip(base, id1, l1);
      BaseUrlRoundTrip(base, id2, l2);
    }
  }

  /**
   * Without the repository id the layout cannot be read off a URL: the flat
   * URL of `<id>/resolve/main` is the hf URL of `<id>`.
   */
  lemma LayoutsOverlapAcrossIds(base: string, repoId: string)
    ensures BuildBaseUrl(base, repoId + ResolveMain, Flat) == BuildBaseUrl(base, repoId, Hf)
    ensures BuildInfoUrl(base, repoId + ResolveMain, Flat) == BuildInfoUrl(base, repoId, Hf)
  {
  }

  /** `resolveDatasetLayout`: a fixed preference wins; under auto the cached layout, else hf. */
  function ResolveDatasetLayout(pref: Preference, cache: Cache, repoId: string): (layout: Layout)
    ensures pref.Fixed? ==> layout == pref.layout
    ensures pref.Auto? && repoId in cache ==> layout == cache[repoId]
    ensures pref.Auto? && repoId !in cache ==> layout == Hf
  {
    match pref
    case Fixed(l) => l
    case Auto => if repoId in cache then cache[repoId] else Hf
  }

  /** Resolution reads the cache only under auto, and then only the entry for `repoId`. */
  lemma ResolutionReadsOnlyOwnEntry(pref: Preference, c1: Cache, c2: Cache, repoId: string)
    requires pref.Fixed? || (repoId in c1 <==> repoId in c2)
    requires pref.Fixed? || repoId !in c1 || c1[repoId] == c2[repoId]
    ensures ResolveDatasetLayout(pref, c1, repoId) == ResolveDatasetLayout(pref, c2, repoId)
  {
  }

  /** `buildVersionedUrl`: a file path under the dataset's base URL for its resolved layout. */
  function BuildVersionedUrl(cfg: Config, cache: Cache, repoId: string, version: string, path: string): (url: string)
    ensures GetLayoutPreference(cfg).Fixed? ==>
      url == BuildBaseUrl(BaseHost(cfg), repoId, GetLayoutPreference(cfg).layout) + "/" + path
    ensures GetLayoutPreference(cfg).Auto? && repoId in cache ==>
      url == BuildBaseUrl(BaseHost(cfg), repoId, cache[repoId]) + "/" + path
    ensures GetLayoutPreference(cfg).Auto? && repoId !in cache ==>
      url == BuildBaseUrl(BaseHost(cfg), repoId, Hf) + "/" + path
  {
    var layout := ResolveDatasetLayout(GetLayoutPreference(cfg), cache, repoId);
    BuildBaseUrl(BaseHost(cfg), repoId, layout) + "/" + path
  }

  /**
   * The versioned URL ignores its version argument, and for the info path it
   * is exactly the info URL of the resolved layout.
   */
  lemma VersionedUrlShape(cfg: Config, cache: Cache, repoId: string, v1: string, v2: string, path: string)
    ensures BuildVersionedUrl(cfg, cache, repoId, v1, path) == BuildVersionedUrl(cfg, cache, repoId, v2, path)
    ensures BuildVersionedUrl(cfg, cache, repoId, v1, "meta/info.json")
         == BuildInfoUrl(BaseHost(cfg), repoId, ResolveDatasetLayout(GetLayoutPreference(cfg), cache, repoId))
  {
  }
}
