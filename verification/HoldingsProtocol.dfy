/**
 Holdings requests, shared in-flight computations and provider fetches over the service's caches and the
 persisted table. One step is the code between two awaits; any number of requests, computations and fetches
 run at once, and a fetch may finish long after the computation that started it has timed out.
 */
module HoldingsProtocol {
  import opened Chains
  import opened WalletRecords
  import opened Wrappers
  import opened HoldingsModel
  import opened HoldingsCaches

  const CACHE_TTL_MS := 120 * 1000
  const AGGREGATE_DEGRADED_TTL_MS := 15 * 1000
  const CHAIN_DEGRADED_TTL_MS := 60 * 1000
  const LAST_KNOWN_GOOD_TTL_MS := 15 * 60 * 1000
  const PERSISTED_MAX_AGE_MS := 24 * 60 * 60 * 1000

  datatype AggKey = AggKey(wallet: nat, chains: set<Chain>, persisted: bool, live: bool)

  datatype ChainKey = ChainKey(wallet: nat, address: nat, chain: Chain)

  type FetchId = nat
  type JobId = nat
  type RequestId = nat

  datatype FetchStage = Running | Persisting(result: ChainHoldings) | Fetched(result: ChainHoldings) | FetchError

  /** A provider fetch for `subject`, shared under `key`. */
  datatype Fetch = Fetch(key: ChainKey, subject: Origin, stage: FetchStage)

  /** One chain of a computation: waiting for a shared fetch with a stale value in hand, or resolved. */
  datatype ChainState = Pending(fetch: FetchId, stale: Option<ChainHoldings>) | Resolved(resolution: Resolution)

  datatype JobStage = Created | Resolving(chains: seq<ChainState>) | Finished(result: Portfolio) | Rejected

  /** A computation shared under `key`; `good` is the last known good result its creator read. */
  datatype Job = Job(key: AggKey, wallet: Wallet, good: Option<Portfolio>, stage: JobStage)

  /** `wallet` is the record the request read of the wallet it asks about. */
  datatype Request =
    | LoadingPersisted(wallet: Wallet, key: AggKey, good: Option<Portfolio>)
    | Awaiting(live: bool, wallet: Wallet, job: JobId)
    | Answered(live: bool, wallet: Wallet, result: Portfolio)
    | Failed(live: bool)

  datatype Row = Row(payload: ChainHoldings, capturedAt: int)

  datatype Caches = Caches(
    agg: map<AggKey, Entry<Portfolio>>,
    aggGood: map<AggKey, Entry<Portfolio>>,
    chain: map<ChainKey, Entry<ChainHoldings>>,
    chainGood: map<ChainKey, Entry<ChainHoldings>>)

  datatype World = World(
    now: int,
    caches: Caches,
    fetchInFlight: map<ChainKey, FetchId>,
    jobInFlight: map<AggKey, JobId>,
    fetches: map<FetchId, Fetch>,
    jobs: map<JobId, Job>,
    requests: map<RequestId, Request>,
    table: map<ChainKey, Row>)

  // ---- Cache writes ----

  function SetAgg(m: Caches, now: int, key: AggKey, p: Portfolio, source: Source): Caches {
    var ttl := if Degraded(p.partial, p.available, p.reason, p.total) then AGGREGATE_DEGRADED_TTL_MS else CACHE_TTL_MS;
    m.(agg := m.agg[key := Entry(p, now + ttl, source)])
  }

  function SetAggGood(m: Caches, now: int, key: AggKey, p: Portfolio, source: Source): Caches {
    if UsablePortfolio(p) then m.(aggGood := m.aggGood[key := Entry(p, now + LAST_KNOWN_GOOD_TTL_MS, source)]) else m
  }

  function SetChain(m: Caches, now: int, key: ChainKey, h: ChainHoldings): Caches {
    var ttl := if Degraded(h.partial, h.available, h.reason, h.total) then CHAIN_DEGRADED_TTL_MS else CACHE_TTL_MS;
    m.(chain := m.chain[key := Entry(h, now + ttl, LiveSource)])
  }

  function SetChainGood(m: Caches, now: int, key: ChainKey, h: ChainHoldings, source: Source): Caches {
    if UsableChain(h) then m.(chainGood := m.chainGood[key := Entry(h, now + LAST_KNOWN_GOOD_TTL_MS, source)]) else m
  }

  function KeyOf(w: Wallet, c: Chain): ChainKey {
    ChainKey(w.id, w.address, c)
  }

  function KeyOfRequest(w: Wallet, allowPersisted: bool, live: bool): AggKey {
    AggKey(w.id, ChainSet(w), allowPersisted && !live, live)
  }

  /** What a chain key stands for. */
  function OriginOf(k: ChainKey): Origin {
    Origin(k.wallet, k.address, k.chain)
  }

  /** `hydratePersistedChainHoldingsToMemory`. */
  function Hydrate(m: Caches, now: int, w: Wallet, parts: seq<Part>): Caches {
    if parts == [] then m
    else
      var last := parts[|parts| - 1];
      SetChainGood(Hydrate(m, now, w, parts[..|parts| - 1]), now, KeyOf(w, last.chain), last.holdings, PersistedSource)
  }

  /** The stale chain results read after every chain failed. */
  function StaleParts(m: Caches, now: int, w: Wallet, cs: seq<Chain>, live: bool): seq<Part> {
    if cs == [] then []
    else
      (match Lookup(m.chainGood, KeyOf(w, cs[0]), now, live) case Some(h) => [Part(cs[0], h)] case None => [])
      + StaleParts(m, now, w, cs[1..], live)
  }

  function Resolutions(chains: seq<ChainState>): seq<Resolution>
    requires forall i | 0 <= i < |chains| :: chains[i].Resolved?
  {
    seq(|chains|, i requires 0 <= i < |chains| => chains[i].resolution)
  }

  // ---- Steps ----

  datatype RequestAct =
    | Ask(wallet: Wallet, allowPersisted: bool, live: bool, job: JobId)
    | Loaded(parts: seq<Part>, job: JobId)
    | LoadFailed
    | Deliver

  datatype JobAct =
    | StartJob
    | ResolveNext(fetch: FetchId)
    | Settle(i: nat)
    | TimeOut(i: nat)
    | FinishJob
    | CatchJob(timeout: bool)

  datatype FetchAct =
    | FetchReturns(result: ChainHoldings)
    | FetchFails
    | FetchPersists(written: bool)

  datatype Step =
    | Tick(elapsed: nat)
    | OtherProcessWrites(row: ChainKey, contents: Row)
    | OfRequest(r: RequestId, request: RequestAct)
    | OfJob(j: JobId, job: JobAct)
    | OfFetch(f: FetchId, fetch: FetchAct)

  /** Joins the computation in flight under the key, or creates one. */
  ghost predicate Shares(s: World, r: RequestId, w: Wallet, key: AggKey, good: Option<Portfolio>, j: JobId, s': World) {
    if key in s.jobInFlight then
      s' == s.(requests := s.requests[r := Awaiting(key.live, w, s.jobInFlight[key])])
    else
      && j !in s.jobs
      && s' == s.(requests := s.requests[r := Awaiting(key.live, w, j)],
                  jobs := s.jobs[j := Job(key, w, good, Created)],
                  jobInFlight := s.jobInFlight[key := j])
  }

  /** The rows a load may return: current rows of this wallet's supported chains, younger than a day. */
  ghost predicate LoadsFrom(s: World, w: Wallet, parts: seq<Part>) {
    forall i | 0 <= i < |parts| ::
      && parts[i].chain in SupportedChains(w)
      && KeyOf(w, parts[i].chain) in s.table
      && s.now - s.table[KeyOf(w, parts[i].chain)].capturedAt < PERSISTED_MAX_AGE_MS
      && parts[i].holdings == s.table[KeyOf(w, parts[i].chain)].payload.(stored := true)
  }

  ghost predicate RequestNext(s: World, r: RequestId, act: RequestAct, s': World) {
    match act
    case Ask(w, allow, live, j) =>
      && r !in s.requests
      && var key := KeyOfRequest(w, allow, live);
      && if SupportedChains(w) == [] then s' == s.(requests := s.requests[r := Failed(live)])
         else
           (match Lookup(s.caches.agg, key, s.now, live)
            case Some(p) => s' == s.(requests := s.requests[r := Answered(live, w, p)])
            case None =>
              var good := Lookup(s.caches.aggGood, key, s.now, live);
              if key.persisted then s' == s.(requests := s.requests[r := LoadingPersisted(w, key, good)])
              else Shares(s, r, w, key, good, j, s'))
    case Loaded(parts, j) =>
      && r in s.requests && s.requests[r].LoadingPersisted?
      && var q := s.requests[r];
      && LoadsFrom(s, q.wallet, parts)
      && if parts == [] then Shares(s, r, q.wallet, q.key, q.good, j, s')
         else
           var p := PersistedAggregate(q.wallet, parts);
           var hydrated := SetAgg(Hydrate(s.caches, s.now, q.wallet, parts), s.now, q.key, p, PersistedSource);
           s' == s.(caches := SetAggGood(hydrated, s.now, q.key, p, PersistedSource),
                    requests := s.requests[r := Answered(q.key.live, q.wallet, p)])
    case LoadFailed =>
      && r in s.requests && s.requests[r].LoadingPersisted?
      && s' == s.(requests := s.requests[r := Failed(s.requests[r].key.live)])
    case Deliver =>
      && r in s.requests && s.requests[r].Awaiting?
      && var q := s.requests[r];
      && q.job in s.jobs && (s.jobs[q.job].stage.Finished? || s.jobs[q.job].stage.Rejected?)
      && s' == s.(requests := s.requests[r :=
                    if s.jobs[q.job].stage.Finished? then Answered(q.live, q.wallet, s.jobs[q.job].stage.result) else Failed(q.live)])
  }

  ghost predicate FetchNext(s: World, f: FetchId, act: FetchAct, s': World) {
    && f in s.fetches
    && var key, subject, stage := s.fetches[f].key, s.fetches[f].subject, s.fetches[f].stage;
    match act
    // The provider answers what it was asked; caches are filled before anything waits for the table.
    case FetchReturns(h) =>
      && stage.Running? && !h.stored && h.origin == subject
      && s' == s.(caches := SetChainGood(SetChain(s.caches, s.now, key, h), s.now, key, h, LiveSource),
                  fetches := s.fetches[f := Fetch(key, subject, Persisting(h))])
    case FetchFails =>
      && stage.Running?
      && s' == s.(fetches := s.fetches[f := Fetch(key, subject, FetchError)], fetchInFlight := s.fetchInFlight - {key})
    // A failed table write is logged and swallowed.
    case FetchPersists(written) =>
      && stage.Persisting?
      && var h := stage.result;
      && s' == s.(fetches := s.fetches[f := Fetch(key, subject, Fetched(h))], fetchInFlight := s.fetchInFlight - {key},
                  table := if written && UsableChain(h) then s.table[key := Row(h, s.now)] else s.table)
  }

  /** A fresh cache hit, or the stale value in hand while the shared fetch, else fetch `f`, runs. */
  function FirstState(m: Caches, now: int, inFlight: map<ChainKey, FetchId>, key: ChainKey, live: bool, f: FetchId): ChainState {
    var cached := Lookup(m.chain, key, now, live);
    if cached.Some? then Resolved(Available(cached.value, []))
    else Pending(if key in inFlight then inFlight[key] else f, Lookup(m.chainGood, key, now, live))
  }

  function PutJob(s: World, j: JobId, job: Job): World {
    s.(jobs := s.jobs[j := job])
  }

  ghost predicate JobNext(s: World, j: JobId, act: JobAct, s': World) {
    && j in s.jobs
    && var job := s.jobs[j];
    match act
    case StartJob =>
      job.stage.Created? && s' == PutJob(s, j, job.(stage := Resolving([])))
    // `resolveChainHoldings` up to its await: fresh cache, else the stale value and a shared or new fetch.
    case ResolveNext(f) =>
      && job.stage.Resolving? && |job.stage.chains| < |SupportedChains(job.wallet)|
      && var w, c := job.wallet, SupportedChains(job.wallet)[|job.stage.chains|];
      && var key := KeyOf(w, c);
      && var x := FirstState(s.caches, s.now, s.fetchInFlight, key, job.key.live, f);
      && var next := PutJob(s, j, job.(stage := Resolving(job.stage.chains + [x])));
      && if x.Resolved? || key in s.fetchInFlight then s' == next
         else
           && f !in s.fetches
           && s' == next.(fetches := s.fetches[f := Fetch(key, Origin(w.id, w.address, c), Running)], fetchInFlight := s.fetchInFlight[key := f])
    case Settle(i) =>
      && PendingAt(job, i)
      && var p, c := job.stage.chains[i], SupportedChains(job.wallet)[i];
      && p.fetch in s.fetches
      && var stage := s.fetches[p.fetch].stage;
      && (stage.Fetched? || stage.FetchError?)
      && s' == PutJob(s, j, ResolveAt(job, i,
                 if stage.Fetched? then Available(stage.result, []) else WithStale(p.stale, FetchFailed(c), c)))
    case TimeOut(i) =>
      && PendingAt(job, i)
      && var p, c := job.stage.chains[i], SupportedChains(job.wallet)[i];
      && s' == PutJob(s, j, ResolveAt(job, i, WithStale(p.stale, FetchTimeout(c), c)))
    case FinishJob =>
      && AllResolved(job)
      && var p := Answer(job.wallet, Resolutions(job.stage.chains), job.good,
                         StaleParts(s.caches, s.now, job.wallet, SupportedChains(job.wallet), job.key.live));
      && s' == PutJob(s, j, job.(stage := Finished(p)))
               .(caches := SetAggGood(SetAgg(s.caches, s.now, job.key, p, LiveSource), s.now, job.key, p, LiveSource),
                 jobInFlight := s.jobInFlight - {job.key})
    // The computation throws: the last known good result is served if there is one.
    case CatchJob(timeout) =>
      && (job.stage.Resolving? || job.stage.Created?)
      && if job.good.None? then
           s' == PutJob(s, j, job.(stage := Rejected)).(jobInFlight := s.jobInFlight - {job.key})
         else
           var p := StaleFallback(job.good.value, FetchFailedStaleCache(timeout));
           s' == PutJob(s, j, job.(stage := Finished(p)))
                 .(caches := SetAgg(s.caches, s.now, job.key, p, LiveSource), jobInFlight := s.jobInFlight - {job.key})
  }

  predicate AllResolved(job: Job) {
    && job.stage.Resolving? && |job.stage.chains| == |SupportedChains(job.wallet)|
    && forall i | 0 <= i < |job.stage.chains| :: job.stage.chains[i].Resolved?
  }

  predicate PendingAt(job: Job, i: nat) {
    && job.stage.Resolving? && i < |job.stage.chains| <= |SupportedChains(job.wallet)|
    && job.stage.chains[i].Pending?
  }

  function ResolveAt(job: Job, i: nat, r: Resolution): Job
    requires job.stage.Resolving? && i < |job.stage.chains|
  {
    job.(stage := Resolving(job.stage.chains[i := Resolved(r)]))
  }

  function WithStale(stale: Option<ChainHoldings>, why: Reason, c: Chain): Resolution {
    match stale
    case Some(h) => Available(h, [why, StaleCache(c)])
    case None => Unavailable([why])
  }

  ghost predicate Next(s: World, step: Step, s': World) {
    match step
    case Tick(elapsed) => s' == s.(now := s.now + elapsed)
    case OtherProcessWrites(row, contents) => contents.payload.origin == OriginOf(row) && s' == s.(table := s.table[row := contents])
    case OfRequest(r, act) => RequestNext(s, r, act, s')
    case OfJob(j, act) => JobNext(s, j, act, s')
    case OfFetch(f, act) => FetchNext(s, f, act, s')
  }

  /** Every row holds what some process once fetched for it. */
  ghost predicate TableOk(table: map<ChainKey, Row>) {
    forall k | k in table :: table[k].payload.origin == OriginOf(k)
  }

  /** The process has just started. */
  ghost predicate Init(s: World) {
    && TableOk(s.table)
    && s.caches == Caches(map[], map[], map[], map[])
    && s.fetchInFlight == map[] && s.jobInFlight == map[]
    && s.fetches == map[] && s.jobs == map[] && s.requests == map[]
  }

  ghost predicate IsRun(run: seq<World>, steps: seq<Step>) {
    && |run| == |steps| + 1
    && forall i | 0 <= i < |steps| :: Next(run[i], steps[i], run[i + 1])
  }
}
