# Dataset layout negotiation and version validation

A Dafny model of `src/utils/versionUtils.ts` from the LeRobot dataset
visualizer. That file finds out which of two URL layouts a remote dataset
host uses, fetches a dataset's `meta/info.json` document, and checks that
the document's `codebase_version` is one the visualizer supports.

- A **layout** is either `hf`, where files live under `<base>/<repo>/resolve/main`, or `flat`, where they live under `<base>/<repo>`.
- The **preference** comes from `DATASET_URL_LAYOUT`. It is a fixed layout, or `auto`.
- Under `auto`, `getDatasetInfo` **negotiates**. It tries the hf info URL first. It falls back to the flat URL only when hf answers 404.
- A successful fetch records the layout that worked in a process-wide **layout cache**. `buildVersionedUrl` later reads it.

The model keeps the source's branches, constants and error conditions. Its
shared state and its environment become explicit values:

- `Layouts`: `Config` holds the two environment variables as optional strings. `GetLayoutPreference` normalises them as the source does. Unset or empty falls back, the value is lower-cased, and it is compared with `"flat"` and `"hf"`.
- `Urls`: the URL builders, their inverse `RepoIdOf`, `ResolveDatasetLayout` and `BuildVersionedUrl`. The cache is a `map<string, Layout>` parameter.
- `DatasetInfo`: `GetDatasetInfo` takes a `Fetcher` oracle from URL to `Reply`. A reply is a response with a status and a decoded body, or an abort. The function returns an `Outcome`: the result, the cache afterwards, and the URLs requested in order.
- `Versions`: the allow-list `["v3.0", "v2.1", "v2.0"]`, `ValidateVersion` and `GetDatasetVersion`.
- `Negotiation`: the fetch as an explicit state machine (Start, Trying, ParsingBody, Succeeded, Failed). It is an independent reference definition, proved equal to `GetDatasetInfo`.
- `Session`: a sequence of calls threading one cache. It shows that the cache ends up holding, per repository, the layout of that repository's last successful call.

Errors are a tagged datatype: `RequestAborted`, `HttpStatus(status)`,
`MalformedBody`, `MissingFeatures`, `MissingVersion` and
`UnsupportedVersion(version)`. The exact message texts are not modelled.

## Model

| member | source | states |
|---|---|---|
| Layouts.BaseHost | src/utils/versionUtils.ts:5 | the host is `DATASET_URL` when set and non-empty, and `https://huggingface.co/datasets` otherwise; it is never empty |
| Layouts.LowerAscii | src/utils/versionUtils.ts:6 | lower-casing keeps the length and folds every character independently |
| Layouts.GetLayoutPreference | src/utils/versionUtils.ts:13-18 | the preference is flat or hf exactly when the normalised setting equals that word; every other setting is auto |
| Layouts.LowerAsciiSpells | src/utils/versionUtils.ts:6 | a string lower-cases to a lower-case word exactly when it spells that word letter by letter in either case |
| Layouts.PreferenceIgnoresCase | src/utils/versionUtils.ts:6-18 | the preference is flat (hf) exactly when the variable is set and spells "flat" ("hf") in any mix of cases, so "FLAT" and "Hf" count and "auto" does not |
| Layouts.UnsetPreferenceIsAuto | src/utils/versionUtils.ts:6-18 | an unset or empty layout variable gives auto |
| Urls.BuildBaseUrl | src/utils/versionUtils.ts:20-25 | the base URL is `<base>/<repoId>` followed by the layout's suffix: nothing for flat, `/resolve/main` for hf |
| Urls.BuildInfoUrl | src/utils/versionUtils.ts:27-29 | the info URL is `<base>/<repoId>`, then the layout's suffix, then `/meta/info.json` |
| Urls.BaseUrlShape | src/utils/versionUtils.ts:20-25 | the base URL is `<base>/<repoId>` for flat, and the same followed by `/resolve/main` for hf |
| Urls.BaseUrlRoundTrip | src/utils/versionUtils.ts:20-25 | for a known host and layout, the repository id is read back from the base URL unchanged |
| Urls.RepoIdOfOnlyAcceptsBaseUrls | src/utils/versionUtils.ts:20-25 | every URL the inverse accepts is exactly the base URL of the id it returns, so the inverse and the builder form a bijection |
| Urls.InfoUrlInjective | src/utils/versionUtils.ts:20-29 | two info URLs are equal only for the same repository and layout, given that the ids or the layouts agree |
| Urls.LayoutsOverlapAcrossIds | src/utils/versionUtils.ts:20-29 | the flat URL of `<id>/resolve/main` equals the hf URL of `<id>`, which is why the injectivity above needs one side fixed |
| Urls.ResolveDatasetLayout | src/utils/versionUtils.ts:46-52 | a fixed preference is returned whatever the cache holds; under auto the cached layout is returned, or hf when there is no entry |
| Urls.ResolutionReadsOnlyOwnEntry | src/utils/versionUtils.ts:46-52 | two caches that agree on the repository's own entry give the same resolution, and under a fixed preference any two caches do |
| Urls.BuildVersionedUrl | src/utils/versionUtils.ts:157-160 | the URL is `<path>` under the base URL of the preferred layout when the preference is fixed. Under auto it is under the cached layout's base URL, or hf's when there is no entry |
| Urls.VersionedUrlShape | src/utils/versionUtils.ts:157-160 | the versioned URL does not depend on its version argument, and for `meta/info.json` it equals the info URL of the resolved layout |
| DatasetInfo.Negotiate | src/utils/versionUtils.ts:78-95 | one or two requests. A fixed preference makes exactly one, to its layout's info URL. Auto makes the hf request first, and a second, flat request exactly when hf replied 404. The layout reported is the one of the last URL, and the reply is that URL's reply |
| DatasetInfo.Classify | src/utils/versionUtils.ts:97-106 | success exactly for an ok (2xx) response whose decoded body has `features`, returning that body. An abort gives RequestAborted, and a non-ok status gives HttpStatus with that status. An ok but undecodable body gives MalformedBody, and an ok body without `features` gives MissingFeatures. Never a version error |
| DatasetInfo.GetDatasetInfo | src/utils/versionUtils.ts:76-109 | one request to the preferred layout's info URL when the preference is fixed. Under auto, the hf URL first and the flat URL second exactly when hf replied 404, never a third. The result is the classification of the last reply alone. Any failure leaves the cache unchanged. Success returns the body and sets only `cache[repoId]`, to the layout of the URL that succeeded |
| DatasetInfo.NegotiationIgnoresCache | src/utils/versionUtils.ts:78-95 | the requests and the result do not depend on the cache, so a cached flat layout does not stop auto from trying hf first |
| DatasetInfo.RequestsAreDistinct | src/utils/versionUtils.ts:88-95 | the fallback request goes to a different URL than the first |
| DatasetInfo.VersionedUrlFollowsNegotiation | src/utils/versionUtils.ts:157-160 | after a successful fetch, under any preference, the versioned URL of `meta/info.json` is the URL that succeeded |
| Versions.ValidateVersion | src/utils/versionUtils.ts:129-143 | succeeds, returning the version unchanged, exactly for "v3.0", "v2.1" and "v2.0". An absent or empty version is MissingVersion. Any other version is UnsupportedVersion, naming that version |
| Versions.GetDatasetVersion | src/utils/versionUtils.ts:125-145 | issues the same requests and leaves the same cache as the info fetch. A fetch error propagates unchanged. After a successful fetch the result is the validation of the document's `codebase_version`: the version itself when supported, MissingVersion or UnsupportedVersion otherwise |
| Versions.RejectedVersionStillCachesLayout | src/utils/versionUtils.ts:125-143 | a missing or unsupported version still leaves the negotiated layout cached, because the cache is written before the version is checked |
| Versions.VersionExamples | src/utils/versionUtils.ts:136-143 | each listed version passes; "v1.0" is unsupported; "" and an absent version are missing |
| Negotiation.SettlesWithoutFallback | src/utils/versionUtils.ts:82-87 | a try without fallback settles in two steps on the verdict of its one reply, after one request |
| Negotiation.SettlesAfterFallback | src/utils/versionUtils.ts:88-95 | after a 404 from hf, the flat try settles in two more steps on the flat reply's verdict, after exactly the two requests |
| Negotiation.StepKeepsReachable | src/utils/versionUtils.ts:82-95 | each transition keeps the per-phase bound on requests already issued |
| Negotiation.NeverMoreThanTwoRequests | src/utils/versionUtils.ts:82-95 | however many steps the machine takes, it never issues more than two requests |
| Negotiation.FourStepsSettle | src/utils/versionUtils.ts:82-106 | four steps from the start state reach a terminal state. Its requests are the negotiated ones, its verdict is the classification of the last reply, and a success carries the negotiated layout |
| Negotiation.MachineMatchesGetDatasetInfo | src/utils/versionUtils.ts:76-109 | four or more steps from the start state reach a terminal state. Its result, requests and cache update are those of `GetDatasetInfo` |
| Session.ApplyEffect | src/utils/versionUtils.ts:108 | one call sets the repository's entry to the negotiated layout when the fetch succeeds, and leaves the cache as it was otherwise |
| Session.CacheKeysOnlyGrow | src/utils/versionUtils.ts:108 | a sequence of calls never removes a cache key, and adds only keys that were asked for |
| Session.CacheHoldsLastSuccess | src/utils/versionUtils.ts:108 | after a sequence of calls, a repository's entry is the layout of its last successful call. With no successful call it is unchanged |
| Session.FixedPreferencePinsLastSuccess | src/utils/versionUtils.ts:82-87 | under a fixed preference every recorded layout is that preference |
| Session.VersionedUrlAfterSession | src/utils/versionUtils.ts:46-52 | under auto, after a successful call, versioned URLs use the layout of the last success whatever the starting cache |

## Left out

- `fetchWithTimeout` (lines 31-44) is I/O and timing. Each fetch is a value of the `Fetcher` oracle. The 10-second timeout and network failures are both the one reply `Aborted`, because the source does not tell them apart either: both are rejections of the awaited fetch. The no-store cache mode is not modelled.
- Reading `process.env` (lines 5-6): the two variables are fields of `Config`, passed to every operation.
- JSON decoding (line 101): the body arrives decoded as `Option<Info>`. `None` stands for a body that fails to parse or that parses to `null`; both raise before the features check. A body that parses to a number, string, boolean or array has no `features` property, so it decodes to `Some(Info(None, None))` and fails the features check. Decoding also maps a present but falsy `features` (`null`, `0`, `""`, `false`) to `None`, because line 104 rejects those as well. Likewise a falsy `codebase_version` decodes to `None` or `Some("")`.
- The fields of `DatasetInfo` other than `features` and `codebase_version` (lines 57-71): nothing reads them.
- The message texts and the catch branches (lines 110-118, 146-154): errors are kinds of a datatype. The branch that turns a non-`Error` throwable into a generic incompatibility message is not modelled, because every failure the model produces is one of the kinds above.
- Layouts.LowerAscii: folds only the letters A-Z, whereas `toLowerCase` folds all of Unicode. As far as is known, no non-ASCII character lower-cases to one of the letters of "flat" or "hf", so the preference comes out the same.
- The status codes of a `Reply` are unbounded integers. The model does not restrict them to the 100-599 range that `fetch` can produce.
- Concurrent calls sharing the one cache: the model threads a single cache through calls in sequence (`Session`), which is one of the orders a racing program could produce.
- A server whose replies change over time is modelled per call: each `Session.Call` carries its own oracle.
