/**
 * The layout cache over the life of a process: a sequence of
 * `getDatasetInfo` calls threading one cache (src/utils/versionUtils.ts,
 * lines 11 and 108). Entries are only ever added or overwritten, never
 * removed, and the last successful call for a repository wins.
 */
module Session {
  import opened Wrappers
  import opened Layouts
  import opened Urls
  import opened DatasetInfo

  /** One call: the repository asked for and the host's replies at that time. */
  datatype Call = Call(repoId: string, fetch: Fetcher)

  function Apply(cfg: Config, cache: Cache, call: Call): Cache
  {
    GetDatasetInfo(cfg, call.fetch, cache, call.repoId).cache
  }

  /** One call records the negotiated layout when, and only when, it succeeds. */
  lemma ApplyEffect(cfg: Config, cache: Cache, call: Call)
    ensures var a := Negotiate(cfg, call.fetch, call.repoId);
      Apply(cfg, cache, call) == if Classify(a.reply).Success? then cache[call.repoId := a.layout] else cache
  {
  }

  /** Applies `step` to the calls in order, threading the cache through. */
  function FoldCalls(step: (Cache, Call) -> Cache, cache: Cache, calls: seq<Call>): Cache
    decreases |calls|
  {
    if |calls| == 0 then cache
    else FoldCalls(step, step(cache, calls[0]), calls[1..])
  }

  /** The cache after making `calls` in order, starting from `cache`. */
  function RunCalls(cfg: Config, cache: Cache, calls: seq<Call>): Cache
  {
    FoldCalls((c, call) => Apply(cfg, c, call), cache, calls)
  }

  predicate Called(calls: seq<Call>, repoId: string)
  {
    exists i :: 0 <= i < |calls| && calls[i].repoId == repoId
  }

  /** A sequence of calls never removes a key, and adds only keys that were asked for. */
  lemma {:induction false} CacheKeysOnlyGrow(cfg: Config, cache: Cache, calls: seq<Call>)
    ensures cache.Keys <= RunCalls(cfg, cache, calls).Keys
    ensures forall k :: k in RunCalls(cfg, cache, calls) ==> k in cache || Called(calls, k)
    decreases |calls|
  {
    if |calls| > 0 {
      var c1 := Apply(cfg, cache, calls[0]);
      CacheKeysOnlyGrow(cfg, c1, calls[1..]);
      assert RunCalls(cfg, cache, calls) == RunCalls(cfg, c1, calls[1..]);
      ApplyEffect(cfg, cache, calls[0]);
      forall k | k in RunCalls(cfg, cache, calls)
        ensures k in cache || Called(calls, k)
      {
        if k == calls[0].repoId {
          assert calls[0].repoId == k;
        } else if k !in cache {
          var i :| 0 <= i < |calls[1..]| && calls[1..][i].repoId == k;
          assert calls[i + 1].repoId == k;
        }
      }
    }
  }

  /**
   * A reference for the cache: the layout of the last call for `repoId`
   * whose negotiation succeeded, read from the end of the sequence.
   */
  function LastSuccess(cfg: Config, calls: seq<Call>, repoId: string): Option<Layout>
    decreases |calls|
  {
    if |calls| == 0 then None
    else
      var call := calls[|calls| - 1];
      var attempt := Negotiate(cfg, call.fetch, call.repoId);
      if call.repoId == repoId && Classify(attempt.reply).Success? then Some(attempt.layout)
      else LastSuccess(cfg, calls[..|calls| - 1], repoId)
  }

  /** The fold's last step can be split off. */
  lemma {:induction false} FoldCallsSnoc(step: (Cache, Call) -> Cache, cache: Cache, calls: seq<Call>)
    requires |calls| > 0
    ensures FoldCalls(step, cache, calls)
         == step(FoldCalls(step, cache, calls[..|calls| - 1]), calls[|calls| - 1])
    decreases |calls|
  {
    var init := calls[..|calls| - 1];
    if |calls| > 1 {
      var rest := calls[1..];
      FoldCallsSnoc(step, step(cache, calls[0]), rest);
      assert rest[..|rest| - 1] == init[1..];
    }
  }

  lemma RunCallsSnoc(cfg: Config, cache: Cache, calls: seq<Call>)
    requires |calls| > 0
    ensures RunCalls(cfg, cache, calls)
         == Apply(cfg, RunCalls(cfg, cache, calls[..|calls| - 1]), calls[|calls| - 1])
  {
    FoldCallsSnoc((c, call) => Apply(cfg, c, call), cache, calls);
  }

  /**
   * After a sequence of calls, a repository's entry is the layout of its
   * last successful call; with no successful call it is what it was before.
   */
  lemma {:induction false} CacheHoldsLastSuccess(cfg: Config, cache: Cache, calls: seq<Call>, repoId: string)
    ensures var c := RunCalls(cfg, cache, calls);
      match LastSuccess(cfg, calls, repoId)
      case Some(l) => repoId in c && c[repoId] == l
      case None => (repoId in c <==> repoId in cache) && (repoId in cache ==> c[repoId] == cache[repoId])
    decreases |calls|
  {
    if |calls| > 0 {
      var init := calls[..|calls| - 1];
      RunCallsSnoc(cfg, cache, calls);
      CacheHoldsLastSuccess(cfg, cache, init, repoId);
      ApplyEffect(cfg, RunCalls(cfg, cache, init), calls[|calls| - 1]);
    }
  }

  /** Under a fixed preference every layout ever recorded is that preference. */
  lemma {:induction false} FixedPreferencePinsLastSuccess(cfg: Config, calls: seq<Call>, repoId: string)
    requires GetLayoutPreference(cfg).Fixed?
    ensures LastSuccess(cfg, calls, repoId).Some? ==>
      LastSuccess(cfg, calls, repoId).value == GetLayoutPreference(cfg).layout
    decreases |calls|
  {
    if |calls| > 0 {
      FixedPreferencePinsLastSuccess(cfg, calls[..|calls| - 1], repoId);
    }
  }

  /**
   * Under auto, once some call for a repository has succeeded, its versioned
   * URLs use the layout of the last success, whatever the starting cache.
   */
  lemma VersionedUrlAfterSession(cfg: Config, cache: Cache, calls: seq<Call>, repoId: string, version: string, path: string)
    requires GetLayoutPreference(cfg).Auto?
    requires LastSuccess(cfg, calls, repoId).Some?
    ensures BuildVersionedUrl(cfg, RunCalls(cfg, cache, calls), repoId, version, path)
         == BuildBaseUrl(BaseHost(cfg), repoId, LastSuccess(cfg, calls, repoId).value) + "/" + path
  {
    CacheHoldsLastSuccess(cfg, cache, calls, repoId);
  }
}
