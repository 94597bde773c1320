/**
 * The info fetch as a state machine, a reference definition of
 * `DatasetInfo.GetDatasetInfo` built from its transitions:
 *
 *   Start -> Trying(hf, fallback) | Trying(layout, no fallback)
 *   Trying -> ParsingBody (ok) | Trying(flat) (404, fallback allowed) | Failed
 *   ParsingBody -> Succeeded (features present) | Failed
 *
 * Each `Trying` step issues one request. Succeeded and Failed are terminal.
 */
module Negotiation {
  import opened Wrappers
  import opened Layouts
  import opened Urls
  import opened DatasetInfo

  datatype Phase =
    | Start
    | Trying(layout: Layout, fallback: bool)
    | ParsingBody(layout: Layout, body: Option<Info>)
    | Succeeded(info: Info, layout: Layout)
    | Failed(error: Error)

  datatype Machine = Machine(phase: Phase, requests: seq<string>)

  const Init: Machine := Machine(Start, [])

  predicate Terminal(p: Phase)
  {
    p.Succeeded? || p.Failed?
  }

  function Step(cfg: Config, fetch: Fetcher, repoId: string, m: Machine): Machine
  {
    match m.phase
    case Start =>
      (match GetLayoutPreference(cfg)
       case Fixed(l) => Machine(Trying(l, false), m.requests)
       case Auto => Machine(Trying(Hf, true), m.requests))
    case Trying(l, fallback) =>
      var url := InfoUrlFor(cfg, repoId, l);
      var sent := m.requests + [url];
      (match fetch(url)
       case Aborted => Machine(Failed(RequestAborted), sent)
       case Response(status, body) =>
         if IsOk(status) then Machine(ParsingBody(l, body), sent)
         else if fallback && status == 404 then Machine(Trying(Flat, false), sent)
         else Machine(Failed(HttpStatus(status)), sent))
    case ParsingBody(l, body) =>
      (match body
       case None => Machine(Failed(MalformedBody), m.requests)
       case Some(info) =>
         if info.features.Some? then Machine(Succeeded(info, l), m.requests)
         else Machine(Failed(MissingFeatures), m.requests))
    case Succeeded(_, _) => m
    case Failed(_) => m
  }

  function Run(cfg: Config, fetch: Fetcher, repoId: string, m: Machine, fuel: nat): Machine
    decreases fuel
  {
    if fuel == 0 then m else Run(cfg, fetch, repoId, Step(cfg, fetch, repoId, m), fuel - 1)
  }

  /** The result a terminal machine reports. */
  function Verdict(p: Phase): Result<Info, Error>
    requires Terminal(p)
  {
    if p.Succeeded? then Success(p.info) else Failure(p.error)
  }

  /** The cache after a terminal machine: the succeeded layout is recorded, a failure changes nothing. */
  function CacheAfter(p: Phase, cache: Cache, repoId: string): Cache
  {
    if p.Succeeded? then cache[repoId := p.layout] else cache
  }

  /** What every reachable machine state satisfies: how many requests each phase has behind it. */
  predicate Reachable(m: Machine)
  {
    match m.phase
    case Start => |m.requests| == 0
    case Trying(l, fallback) => if fallback then |m.requests| == 0 && l == Hf else |m.requests| <= 1
    case ParsingBody(_, _) => 1 <= |m.requests| <= 2
    case Succeeded(_, _) => 1 <= |m.requests| <= 2
    case Failed(_) => 1 <= |m.requests| <= 2
  }

  lemma StepKeepsReachable(cfg: Config, fetch: Fetcher, repoId: string, m: Machine)
    requires Reachable(m)
    ensures Reachable(Step(cfg, fetch, repoId, m))
  {
  }

  /** However long the machine runs, it never issues a third request. */
  lemma {:induction false} NeverMoreThanTwoRequests(cfg: Config, fetch: Fetcher, repoId: string, m: Machine, fuel: nat)
    requires Reachable(m)
    ensures Reachable(Run(cfg, fetch, repoId, m, fuel))
    ensures |Run(cfg, fetch, repoId, m, fuel).requests| <= 2
    decreases fuel
  {
    if fuel > 0 {
      StepKeepsReachable(cfg, fetch, repoId, m);
      NeverMoreThanTwoRequests(cfg, fetch, repoId, Step(cfg, fetch, repoId, m), fuel - 1);
    }
  }

  /** A terminal machine stays where it is. */
  lemma {:induction false} TerminalIsFixpoint(cfg: Config, fetch: Fetcher, repoId: string, m: Machine, fuel: nat)
    requires Terminal(m.phase)
    ensures Run(cfg, fetch, repoId, m, fuel) == m
    decreases fuel
  {
    if fuel > 0 {
      TerminalIsFixpoint(cfg, fetch, repoId, m, fuel - 1);
    }
  }

  /** A try without fallback settles in two steps, on the verdict of its one reply. */
  lemma SettlesWithoutFallback(cfg: Config, fetch: Fetcher, repoId: string, l: Layout)
    ensures var m := Step(cfg, fetch, repoId, Step(cfg, fetch, repoId, Machine(Trying(l, false), [])));
      && Terminal(m.phase)
      && Verdict(m.phase) == Classify(fetch(InfoUrlFor(cfg, repoId, l)))
      && m.requests == [InfoUrlFor(cfg, repoId, l)]
      && (m.phase.Succeeded? ==> m.phase.layout == l)
  {
  }

  /** After a 404 from hf, the flat try settles in two more steps. */
  lemma SettlesAfterFallback(cfg: Config, fetch: Fetcher, repoId: string)
    ensures var m := Step(cfg, fetch, repoId, Step(cfg, fetch, repoId,
                       Machine(Trying(Flat, false), [InfoUrlFor(cfg, repoId, Hf)])));
      && Terminal(m.phase)
      && Verdict(m.phase) == Classify(fetch(InfoUrlFor(cfg, repoId, Flat)))
      && m.requests == [InfoUrlFor(cfg, repoId, Hf), InfoUrlFor(cfg, repoId, Flat)]
      && (m.phase.Succeeded? ==> m.phase.layout == Flat)
  {
  }

  lemma RunFour(cfg: Config, fetch: Fetcher, repoId: string, m: Machine)
    ensures Run(cfg, fetch, repoId, m, 4)
         == Step(cfg, fetch, repoId, Step(cfg, fetch, repoId, Step(cfg, fetch, repoId, Step(cfg, fetch, repoId, m))))
  {
  }

  /** Four steps from the start settle on the negotiated request sequence and the verdict of its last reply. */
  lemma FourStepsSettle(cfg: Config, fetch: Fetcher, repoId: string)
    ensures var m := Run(cfg, fetch, repoId, Init, 4);
      var a := Negotiate(cfg, fetch, repoId);
      && Terminal(m.phase)
      && Verdict(m.phase) == Classify(a.reply)
      && m.requests == a.requests
      && (m.phase.Succeeded? ==> m.phase.layout == a.layout)
  {
    var s1 := Step(cfg, fetch, repoId, Init);
    var s2 := Step(cfg, fetch, repoId, s1);
    var s3 := Step(cfg, fetch, repoId, s2);
    var s4 := Step(cfg, fetch, repoId, s3);
    RunFour(cfg, fetch, repoId, Init);
    match GetLayoutPreference(cfg) {
    case Fixed(l) =>
      assert s1 == Machine(Trying(l, false), []);
      SettlesWithoutFallback(cfg, fetch, repoId, l);
      assert s4 == s3;
    case Auto =>
      assert s1 == Machine(Trying(Hf, true), []);
      if IsNotFound(fetch(InfoUrlFor(cfg, repoId, Hf))) {
        assert s2 == Machine(Trying(Flat, false), [InfoUrlFor(cfg, repoId, Hf)]);
        SettlesAfterFallback(cfg, fetch, repoId);
      } else {
        assert s2 == Step(cfg, fetch, repoId, Machine(Trying(Hf, false), []));
        SettlesWithoutFallback(cfg, fetch, repoId, Hf);
        assert s4 == s3;
      }
    }
  }

  /**
   * The machine and `GetDatasetInfo` agree: from the start state, four
   * steps or more reach a terminal state whose result, requests and cache
   * update are exactly those of the straight-line operation.
   */
  lemma {:induction false} MachineMatchesGetDatasetInfo(cfg: Config, fetch: Fetcher, cache: Cache, repoId: string, fuel: nat)
    requires fuel >= 4
    ensures var m := Run(cfg, fetch, repoId, Init, fuel);
      var o := GetDatasetInfo(cfg, fetch, cache, repoId);
      && Terminal(m.phase)
      && Verdict(m.phase) == o.result
      && m.requests == o.requests
      && CacheAfter(m.phase, cache, repoId) == o.cache
  {
    var m4 := Run(cfg, fetch, repoId, Init, 4);
    FourStepsSettle(cfg, fetch, repoId);
    TerminalIsFixpoint(cfg, fetch, repoId, m4, fuel - 4);
    RunSplits(cfg, fetch, repoId, Init, 4, fuel - 4);
  }

  lemma {:induction false} RunSplits(cfg: Config, fetch: Fetcher, repoId: string, m: Machine, a: nat, b: nat)
    ensures Run(cfg, fetch, repoId, m, a + b) == Run(cfg, fetch, repoId, Run(cfg, fetch, repoId, m, a), b)
    decreases a
  {
    if a > 0 {
      RunSplits(cfg, fetch, repoId, Step(cfg, fetch, repoId, m), a - 1, b);
    }
  }
}
