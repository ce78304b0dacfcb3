/**
 The data behind holdings answers: what is cached, shared, fallen back to and served are results the provider
 returned, or rows of the table, unaltered, and whole answers are ones some step of the run computed.
 */
module HoldingsData {
  import opened Chains
  import opened WalletRecords
  import opened Wrappers
  import opened HoldingsModel
  import opened HoldingsCaches
  import opened HoldingsProtocol
  import opened HoldingsAnswers
  import Provenance = HoldingsProvenance

  // ---- Where a chain result comes from ----

  /** The provider returned exactly this result in one of these steps. */
  ghost predicate Returned(past: seq<Step>, h: ChainHoldings) {
    exists j | 0 <= j < |past| :: Returns(past[j], h)
  }

  predicate Returns(step: Step, h: ChainHoldings) {
    step.OfFetch? && step.fetch.FetchReturns? && step.fetch.result == h
  }

  /** A row with this payload was in the table at the start, or written by another process, or returned to this one. */
  ghost predicate WasStored(first: map<ChainKey, Row>, past: seq<Step>, payload: ChainHoldings) {
    || (exists k | k in first :: first[k].payload == payload)
    || (exists j | 0 <= j < |past| :: past[j].OtherProcessWrites? && past[j].contents.payload == payload)
    || Returned(past, payload)
  }

  /** This result is one the provider returned, or a row's payload marked as stored. */
  ghost predicate From(first: map<ChainKey, Row>, past: seq<Step>, h: ChainHoldings) {
    Returned(past, h) || exists payload :: WasStored(first, past, payload) && h == payload.(stored := true)
  }

  ghost predicate PartsFrom(first: map<ChainKey, Row>, past: seq<Step>, parts: seq<Part>) {
    forall i | 0 <= i < |parts| :: From(first, past, parts[i].holdings)
  }

  ghost predicate EntriesFrom(first: map<ChainKey, Row>, past: seq<Step>, entries: map<ChainKey, Entry<ChainHoldings>>) {
    forall k | k in entries :: From(first, past, entries[k].value)
  }

  ghost predicate AnswersFrom(first: map<ChainKey, Row>, past: seq<Step>, entries: map<AggKey, Entry<Portfolio>>) {
    forall k | k in entries :: PartsFrom(first, past, entries[k].value.parts)
  }

  ghost predicate ResolutionFrom(first: map<ChainKey, Row>, past: seq<Step>, r: Resolution) {
    r.Available? ==> From(first, past, r.holdings)
  }

  ghost predicate ChainFrom(first: map<ChainKey, Row>, past: seq<Step>, x: ChainState) {
    match x
    case Pending(_, stale) => stale.Some? ==> From(first, past, stale.value)
    case Resolved(r) => ResolutionFrom(first, past, r)
  }

  ghost predicate StageFrom(first: map<ChainKey, Row>, past: seq<Step>, stage: JobStage) {
    && (stage.Resolving? ==> forall i | 0 <= i < |stage.chains| :: ChainFrom(first, past, stage.chains[i]))
    && (stage.Finished? ==> PartsFrom(first, past, stage.result.parts))
  }

  ghost predicate JobFrom(first: map<ChainKey, Row>, past: seq<Step>, job: Job) {
    StageFrom(first, past, job.stage) && (job.good.Some? ==> PartsFrom(first, past, job.good.value.parts))
  }

  ghost predicate FetchFrom(past: seq<Step>, f: Fetch) {
    f.stage.Persisting? || f.stage.Fetched? ==> Returned(past, f.stage.result)
  }

  ghost predicate RequestFrom(first: map<ChainKey, Row>, past: seq<Step>, q: Request) {
    match q
    case LoadingPersisted(_, _, good) => good.Some? ==> PartsFrom(first, past, good.value.parts)
    case Answered(_, _, p) => PartsFrom(first, past, p.parts)
    case _ => true
  }

  ghost predicate CachesFrom(first: map<ChainKey, Row>, past: seq<Step>, m: Caches) {
    && AnswersFrom(first, past, m.agg) && AnswersFrom(first, past, m.aggGood)
    && EntriesFrom(first, past, m.chain) && EntriesFrom(first, past, m.chainGood)
  }

  ghost predicate DataIn(first: map<ChainKey, Row>, past: seq<Step>, s: World) {
    && CachesFrom(first, past, s.caches)
    && (forall f | f in s.fetches :: FetchFrom(past, s.fetches[f]))
    && (forall j | j in s.jobs :: JobFrom(first, past, s.jobs[j]))
    && (forall r | r in s.requests :: RequestFrom(first, past, s.requests[r]))
    && (forall k | k in s.table :: WasStored(first, past, s.table[k].payload))
  }

  // ---- Every step keeps it ----

  lemma ReturnedIsFrom(first: map<ChainKey, Row>, past: seq<Step>, step: Step, h: ChainHoldings)
    requires step in past && Returns(step, h)
    ensures Returned(past, h) && From(first, past, h) && WasStored(first, past, h)
  {
    var j :| 0 <= j < |past| && past[j] == step;
    assert Returns(past[j], h);
  }

  lemma LookupFrom(first: map<ChainKey, Row>, past: seq<Step>, entries: map<ChainKey, Entry<ChainHoldings>>, key: ChainKey, now: int, live: bool)
    requires EntriesFrom(first, past, entries)
    ensures var found := Lookup(entries, key, now, live); found.Some? ==> From(first, past, found.value)
  {
  }

  lemma LookupAnswerFrom(first: map<ChainKey, Row>, past: seq<Step>, entries: map<AggKey, Entry<Portfolio>>, key: AggKey, now: int, live: bool)
    requires AnswersFrom(first, past, entries)
    ensures var found := Lookup(entries, key, now, live); found.Some? ==> PartsFrom(first, past, found.value.parts)
  {
  }

  lemma AnswerKept(first: map<ChainKey, Row>, past: seq<Step>, m: Caches, now: int, key: AggKey, p: Portfolio, source: Source)
    requires CachesFrom(first, past, m) && PartsFrom(first, past, p.parts)
    ensures CachesFrom(first, past, SetAgg(m, now, key, p, source)) && CachesFrom(first, past, SetAggGood(m, now, key, p, source))
    ensures CachesFrom(first, past, SetAggGood(SetAgg(m, now, key, p, source), now, key, p, source))
  {
    AnswerCached(first, past, m, now, key, p, source);
    GoodAnswerCached(first, past, m, now, key, p, source);
    GoodAnswerCached(first, past, SetAgg(m, now, key, p, source), now, key, p, source);
  }

  lemma AnswerCached(first: map<ChainKey, Row>, past: seq<Step>, m: Caches, now: int, key: AggKey, p: Portfolio, source: Source)
    requires CachesFrom(first, past, m) && PartsFrom(first, past, p.parts)
    ensures CachesFrom(first, past, SetAgg(m, now, key, p, source))
  {
  }

  lemma GoodAnswerCached(first: map<ChainKey, Row>, past: seq<Step>, m: Caches, now: int, key: AggKey, p: Portfolio, source: Source)
    requires CachesFrom(first, past, m) && PartsFrom(first, past, p.parts)
    ensures CachesFrom(first, past, SetAggGood(m, now, key, p, source))
  {
  }

  lemma ResultKept(first: map<ChainKey, Row>, past: seq<Step>, m: Caches, now: int, key: ChainKey, h: ChainHoldings, source: Source)
    requires CachesFrom(first, past, m) && From(first, past, h)
    ensures CachesFrom(first, past, SetChain(m, now, key, h)) && CachesFrom(first, past, SetChainGood(m, now, key, h, source))
  {
  }

  lemma {:induction false} HydrateKeeps(first: map<ChainKey, Row>, past: seq<Step>, m: Caches, now: int, w: Wallet, parts: seq<Part>)
    requires CachesFrom(first, past, m) && PartsFrom(first, past, parts)
    ensures CachesFrom(first, past, Hydrate(m, now, w, parts))
    decreases |parts|
  {
    if parts != [] {
      var init, last := parts[..|parts| - 1], parts[|parts| - 1];
      HydrateKeeps(first, past, m, now, w, init);
      ResultKept(first, past, Hydrate(m, now, w, init), now, KeyOf(w, last.chain), last.holdings, PersistedSource);
    }
  }

  lemma {:induction false} StalePartsFrom(first: map<ChainKey, Row>, past: seq<Step>, m: Caches, now: int, w: Wallet, cs: seq<Chain>, live: bool)
    requires EntriesFrom(first, past, m.chainGood)
    ensures PartsFrom(first, past, StaleParts(m, now, w, cs, live))
    decreases |cs|
  {
    if cs != [] {
      StalePartsFrom(first, past, m, now, w, cs[1..], live);
      LookupFrom(first, past, m.chainGood, KeyOf(w, cs[0]), now, live);
    }
  }

  /** The stale results are, in chain order, those of every chain with an unexpired last known good result the caller may see. */
  lemma {:induction false} StaleServesAll(m: Caches, now: int, w: Wallet, cs: seq<Chain>, live: bool)
    ensures forall p :: p in StaleParts(m, now, w, cs, live) <==>
              && p.chain in cs && KeyOf(w, p.chain) in m.chainGood
              && var e := m.chainGood[KeyOf(w, p.chain)];
              && now < e.expiresAt && (live ==> e.source.LiveSource?) && p.holdings == e.value
    decreases |cs|
  {
    if cs != [] {
      StaleServesAll(m, now, w, cs[1..], live);
      assert forall c :: c in cs <==> c == cs[0] || c in cs[1..];
    }
  }

  lemma {:induction false} ResolvedPartsFrom(first: map<ChainKey, Row>, past: seq<Step>, cs: seq<Chain>, rs: seq<Resolution>)
    requires |cs| == |rs| && forall i | 0 <= i < |rs| :: ResolutionFrom(first, past, rs[i])
    ensures PartsFrom(first, past, Parts(cs, rs))
    decreases |cs|
  {
    if cs != [] {
      ResolvedPartsFrom(first, past, cs[..|cs| - 1], rs[..|cs| - 1]);
      assert ResolutionFrom(first, past, rs[|cs| - 1]);
    }
  }

  lemma FinishedFrom(first: map<ChainKey, Row>, past: seq<Step>, m: Caches, now: int, job: Job)
    requires CachesFrom(first, past, m) && JobFrom(first, past, job) && AllResolved(job)
    ensures PartsFrom(first, past, FinishedAnswer(m, now, job).parts)
  {
    var w, rs := job.wallet, Resolutions(job.stage.chains);
    forall i | 0 <= i < |rs| ensures ResolutionFrom(first, past, rs[i]) {
      assert ChainFrom(first, past, job.stage.chains[i]);
    }
    ResolvedPartsFrom(first, past, SupportedChains(w), rs);
    StalePartsFrom(first, past, m, now, w, SupportedChains(w), job.key.live);
    Provenance.AnswerParts(w, rs, job.good, StaleParts(m, now, w, SupportedChains(w), job.key.live));
  }

  /** What a computation whose chains are all resolved answers. */
  function FinishedAnswer(m: Caches, now: int, job: Job): Portfolio
    requires AllResolved(job)
  {
    Answer(job.wallet, Resolutions(job.stage.chains), job.good, StaleParts(m, now, job.wallet, SupportedChains(job.wallet), job.key.live))
  }

  lemma LoadedFrom(first: map<ChainKey, Row>, past: seq<Step>, s: World, w: Wallet, parts: seq<Part>)
    requires DataIn(first, past, s) && LoadsFrom(s, w, parts)
    ensures PartsFrom(first, past, parts)
  {
    forall i | 0 <= i < |parts| ensures From(first, past, parts[i].holdings) {
      assert WasStored(first, past, s.table[KeyOf(w, parts[i].chain)].payload);
    }
  }

  lemma RequestPut(first: map<ChainKey, Row>, past: seq<Step>, s: World, r: RequestId, q: Request)
    requires DataIn(first, past, s) && RequestFrom(first, past, q)
    ensures DataIn(first, past, s.(requests := s.requests[r := q]))
  {
  }

  lemma JobPut(first: map<ChainKey, Row>, past: seq<Step>, s: World, j: JobId, job: Job)
    requires DataIn(first, past, s) && JobFrom(first, past, job)
    ensures DataIn(first, past, PutJob(s, j, job))
  {
  }

  lemma SharesKeeps(first: map<ChainKey, Row>, past: seq<Step>, s: World, r: RequestId, w: Wallet, key: AggKey, good: Option<Portfolio>, j: JobId, s': World)
    requires DataIn(first, past, s) && Shares(s, r, w, key, good, j, s') && (good.Some? ==> PartsFrom(first, past, good.value.parts))
    ensures DataIn(first, past, s')
  {
    if key in s.jobInFlight {
      RequestPut(first, past, s, r, Awaiting(key.live, w, s.jobInFlight[key]));
    } else {
      JobPut(first, past, s, j, Job(key, w, good, Created));
      RequestPut(first, past, PutJob(s, j, Job(key, w, good, Created)).(jobInFlight := s.jobInFlight[key := j]), r, Awaiting(key.live, w, j));
    }
  }

  lemma AskKeeps(first: map<ChainKey, Row>, past: seq<Step>, s: World, r: RequestId, w: Wallet, allow: bool, live: bool, j: JobId, s': World)
    requires DataIn(first, past, s) && RequestNext(s, r, Ask(w, allow, live, j), s')
    ensures DataIn(first, past, s')
  {
    var key := KeyOfRequest(w, allow, live);
    var good := Lookup(s.caches.aggGood, key, s.now, live);
    LookupAnswerFrom(first, past, s.caches.aggGood, key, s.now, live);
    if SupportedChains(w) != [] && Lookup(s.caches.agg, key, s.now, live).None? && !key.persisted {
      SharesKeeps(first, past, s, r, w, key, good, j, s');
    } else {
      AnsweredAtOnce(first, past, s, r, w, allow, live, j, s');
      RequestPut(first, past, s, r, s'.requests[r]);
    }
  }

  lemma AnsweredAtOnce(first: map<ChainKey, Row>, past: seq<Step>, s: World, r: RequestId, w: Wallet, allow: bool, live: bool, j: JobId, s': World)
    requires CachesFrom(first, past, s.caches) && RequestNext(s, r, Ask(w, allow, live, j), s')
    requires var key := KeyOfRequest(w, allow, live);
             !(SupportedChains(w) != [] && Lookup(s.caches.agg, key, s.now, live).None? && !key.persisted)
    ensures r in s'.requests && RequestFrom(first, past, s'.requests[r]) && s' == s.(requests := s.requests[r := s'.requests[r]])
  {
    var key := KeyOfRequest(w, allow, live);
    LookupAnswerFrom(first, past, s.caches.agg, key, s.now, live);
    LookupAnswerFrom(first, past, s.caches.aggGood, key, s.now, live);
  }

  lemma LoadKeeps(first: map<ChainKey, Row>, past: seq<Step>, s: World, r: RequestId, parts: seq<Part>, j: JobId, s': World)
    requires DataIn(first, past, s) && RequestNext(s, r, Loaded(parts, j), s')
    ensures DataIn(first, past, s')
  {
    var q := s.requests[r];
    assert RequestFrom(first, past, q);
    if parts == [] {
      SharesKeeps(first, past, s, r, q.wallet, q.key, q.good, j, s');
    } else {
      LoadedFrom(first, past, s, q.wallet, parts);
      HydrateKeeps(first, past, s.caches, s.now, q.wallet, parts);
      AnswerKept(first, past, Hydrate(s.caches, s.now, q.wallet, parts), s.now, q.key, PersistedAggregate(q.wallet, parts), PersistedSource);
      RequestPut(first, past, s.(caches := s'.caches), r, s'.requests[r]);
    }
  }

  lemma RequestKeeps(first: map<ChainKey, Row>, past: seq<Step>, s: World, r: RequestId, act: RequestAct, s': World)
    requires DataIn(first, past, s) && RequestNext(s, r, act, s')
    ensures DataIn(first, past, s')
  {
    match act
    case Ask(w, allow, live, j) => AskKeeps(first, past, s, r, w, allow, live, j, s');
    case Loaded(parts, j) => LoadKeeps(first, past, s, r, parts, j, s');
    case LoadFailed => RequestPut(first, past, s, r, s'.requests[r]);
    case Deliver =>
      assert JobFrom(first, past, s.jobs[s.requests[r].job]);
      RequestPut(first, past, s, r, s'.requests[r]);
  }

  lemma FetchMoves(first: map<ChainKey, Row>, past: seq<Step>, s: World, f: FetchId, x: Fetch, m: Caches, table: map<ChainKey, Row>, s': World)
    requires DataIn(first, past, s) && FetchFrom(past, x) && CachesFrom(first, past, m)
    requires forall k | k in table :: WasStored(first, past, table[k].payload)
    requires s' == s.(caches := m, table := table, fetches := s.fetches[f := x], fetchInFlight := s'.fetchInFlight)
    ensures DataIn(first, past, s')
  {
  }

  lemma FetchKeeps(first: map<ChainKey, Row>, past: seq<Step>, s: World, f: FetchId, act: FetchAct, s': World)
    requires DataIn(first, past, s) && FetchNext(s, f, act, s') && OfFetch(f, act) in past
    ensures DataIn(first, past, s')
  {
    assert FetchFrom(past, s.fetches[f]);
    if act.FetchReturns? {
      var key, h := s.fetches[f].key, act.result;
      ReturnedIsFrom(first, past, OfFetch(f, act), h);
      ResultKept(first, past, s.caches, s.now, key, h, LiveSource);
      ResultKept(first, past, SetChain(s.caches, s.now, key, h), s.now, key, h, LiveSource);
    }
    FetchMoves(first, past, s, f, s'.fetches[f], s'.caches, s'.table, s');
  }

  lemma ResolvesKeeps(first: map<ChainKey, Row>, past: seq<Step>, s: World, j: JobId, f: FetchId, s': World)
    requires DataIn(first, past, s) && JobNext(s, j, ResolveNext(f), s')
    ensures DataIn(first, past, s')
  {
    var job := s.jobs[j];
    var c := SupportedChains(job.wallet)[|job.stage.chains|];
    var x := FirstState(s.caches, s.now, s.fetchInFlight, KeyOf(job.wallet, c), job.key.live, f);
    assert JobFrom(first, past, job);
    LookupFrom(first, past, s.caches.chain, KeyOf(job.wallet, c), s.now, job.key.live);
    LookupFrom(first, past, s.caches.chainGood, KeyOf(job.wallet, c), s.now, job.key.live);
    ChainJoins(first, past, job, x);
    JobPut(first, past, s, j, job.(stage := Resolving(job.stage.chains + [x])));
  }

  lemma ChainJoins(first: map<ChainKey, Row>, past: seq<Step>, job: Job, x: ChainState)
    requires JobFrom(first, past, job) && job.stage.Resolving? && ChainFrom(first, past, x)
    ensures JobFrom(first, past, job.(stage := Resolving(job.stage.chains + [x])))
  {
  }

  lemma SettleKeeps(first: map<ChainKey, Row>, past: seq<Step>, s: World, j: JobId, i: nat, s': World)
    requires DataIn(first, past, s) && (JobNext(s, j, Settle(i), s') || JobNext(s, j, TimeOut(i), s'))
    ensures DataIn(first, past, s')
  {
    var job := s.jobs[j];
    assert JobFrom(first, past, job) && ChainFrom(first, past, job.stage.chains[i]);
    if job.stage.chains[i].fetch in s.fetches { assert FetchFrom(past, s.fetches[job.stage.chains[i].fetch]); }
    ChainSettled(first, past, job, i, s'.jobs[j].stage.chains[i].resolution);
    JobPut(first, past, s, j, s'.jobs[j]);
  }

  lemma ChainSettled(first: map<ChainKey, Row>, past: seq<Step>, job: Job, i: nat, r: Resolution)
    requires JobFrom(first, past, job) && job.stage.Resolving? && i < |job.stage.chains| && ResolutionFrom(first, past, r)
    ensures JobFrom(first, past, ResolveAt(job, i, r))
  {
  }

  lemma EndKeeps(first: map<ChainKey, Row>, past: seq<Step>, s: World, j: JobId, stage: JobStage, m: Caches, s': World)
    requires DataIn(first, past, s) && j in s.jobs && CachesFrom(first, past, m) && StageFrom(first, past, stage)
    requires s' == PutJob(s, j, s.jobs[j].(stage := stage)).(caches := m, jobInFlight := s'.jobInFlight)
    ensures DataIn(first, past, s')
  {
    assert JobFrom(first, past, s.jobs[j]);
    JobPut(first, past, s, j, s.jobs[j].(stage := stage));
  }

  lemma FinishKeeps(first: map<ChainKey, Row>, past: seq<Step>, s: World, j: JobId, s': World)
    requires DataIn(first, past, s) && JobNext(s, j, FinishJob, s')
    ensures DataIn(first, past, s')
  {
    var job := s.jobs[j];
    assert JobFrom(first, past, job);
    FinishedFrom(first, past, s.caches, s.now, job);
    AnswerKept(first, past, s.caches, s.now, job.key, FinishedAnswer(s.caches, s.now, job), LiveSource);
    EndKeeps(first, past, s, j, s'.jobs[j].stage, s'.caches, s');
  }

  lemma CatchKeeps(first: map<ChainKey, Row>, past: seq<Step>, s: World, j: JobId, timeout: bool, s': World)
    requires DataIn(first, past, s) && JobNext(s, j, CatchJob(timeout), s')
    ensures DataIn(first, past, s')
  {
    var job := s.jobs[j];
    assert JobFrom(first, past, job);
    if job.good.Some? {
      var p := StaleFallback(job.good.value, FetchFailedStaleCache(timeout));
      assert p.parts == job.good.value.parts;
      AnswerCached(first, past, s.caches, s.now, job.key, p, LiveSource);
    }
    EndKeeps(first, past, s, j, s'.jobs[j].stage, s'.caches, s');
  }

  lemma JobKeeps(first: map<ChainKey, Row>, past: seq<Step>, s: World, j: JobId, act: JobAct, s': World)
    requires DataIn(first, past, s) && JobNext(s, j, act, s')
    ensures DataIn(first, past, s')
  {
    match act
    case StartJob =>
      assert JobFrom(first, past, s.jobs[j]);
      JobPut(first, past, s, j, s'.jobs[j]);
    case ResolveNext(f) => ResolvesKeeps(first, past, s, j, f, s');
    case Settle(i) => SettleKeeps(first, past, s, j, i, s');
    case TimeOut(i) => SettleKeeps(first, past, s, j, i, s');
    case FinishJob => FinishKeeps(first, past, s, j, s');
    case CatchJob(timeout) => CatchKeeps(first, past, s, j, timeout, s');
  }

  lemma WriteKeeps(first: map<ChainKey, Row>, past: seq<Step>, s: World, k: ChainKey, contents: Row, s': World)
    requires DataIn(first, past, s) && Next(s, OtherProcessWrites(k, contents), s') && OtherProcessWrites(k, contents) in past
    ensures DataIn(first, past, s')
  {
    var j :| 0 <= j < |past| && past[j] == OtherProcessWrites(k, contents);
    assert past[j].OtherProcessWrites? && past[j].contents.payload == contents.payload;
    assert WasStored(first, past, contents.payload);
  }

  lemma StepKeeps(first: map<ChainKey, Row>, past: seq<Step>, s: World, step: Step, s': World)
    requires DataIn(first, past, s) && Next(s, step, s') && step in past
    ensures DataIn(first, past, s')
  {
    match step
    case Tick(_) =>
    case OtherProcessWrites(k, contents) => WriteKeeps(first, past, s, k, contents, s');
    case OfRequest(r, act) => RequestKeeps(first, past, s, r, act, s');
    case OfJob(j, act) => JobKeeps(first, past, s, j, act, s');
    case OfFetch(f, act) => FetchKeeps(first, past, s, f, act, s');
  }

  lemma {:induction false} RunData(run: seq<World>, steps: seq<Step>, n: nat, i: nat)
    requires IsRun(run, steps) && Init(run[0]) && i <= n < |run|
    ensures DataIn(run[0].table, steps[..n], run[i])
    decreases i
  {
    if i == 0 {
      assert forall k | k in run[0].table :: WasStored(run[0].table, steps[..n], run[0].table[k].payload);
    } else {
      RunData(run, steps, n, i - 1);
      assert Next(run[i - 1], steps[i - 1], run[i]);
      assert steps[..n][i - 1] == steps[i - 1];
      StepKeeps(run[0].table, steps[..n], run[i - 1], steps[i - 1], run[i]);
    }
  }

  // ---- Main results ----

  /** What a part of an answer holds: a result returned before, or, marked as stored, the payload of a row. */
  ghost predicate Genuine(first: map<ChainKey, Row>, past: seq<Step>, h: ChainHoldings) {
    if h.stored then exists payload :: WasStored(first, past, payload) && SameData(h, payload) else Returned(past, h)
  }

  predicate SameData(h: ChainHoldings, payload: ChainHoldings) {
    && h.items == payload.items && h.total == payload.total && h.available == payload.available && h.reason == payload.reason
    && h.partial == payload.partial && h.origin == payload.origin
  }

  lemma FromIsGenuine(first: map<ChainKey, Row>, past: seq<Step>, h: ChainHoldings)
    requires From(first, past, h)
    ensures h.stored || Returned(past, h)
    ensures Genuine(first, past, h)
  {
    if Returned(past, h) {
      assert WasStored(first, past, h) && SameData(h, h);
    } else {
      var payload :| WasStored(first, past, payload) && h == payload.(stored := true);
      assert SameData(h, payload);
    }
  }

  /** No answer, to any caller, holds a chain result that was not returned, or stored, before: no step alters one. */
  lemma EveryPartIsGenuine(run: seq<World>, steps: seq<Step>, i: nat, r: RequestId, k: nat)
    requires IsRun(run, steps) && Init(run[0]) && i < |run| && r in run[i].requests && run[i].requests[r].Answered?
    requires k < |run[i].requests[r].result.parts|
    ensures Genuine(run[0].table, steps[..i], run[i].requests[r].result.parts[k].holdings)
  {
    RunData(run, steps, i, i);
    assert RequestFrom(run[0].table, steps[..i], run[i].requests[r]);
    FromIsGenuine(run[0].table, steps[..i], run[i].requests[r].result.parts[k].holdings);
  }

  /** And to a caller that demands live data every part is a result the provider returned to this process. */
  lemma LivePartsWereReturned(run: seq<World>, steps: seq<Step>, i: nat, r: RequestId, k: nat) returns (j: nat)
    requires IsRun(run, steps) && Init(run[0]) && i < |run| && r in run[i].requests && run[i].requests[r].Answered?
    requires run[i].requests[r].live && k < |run[i].requests[r].result.parts|
    ensures j < i && steps[j].OfFetch? && steps[j].fetch == FetchReturns(run[i].requests[r].result.parts[k].holdings)
  {
    Provenance.LiveCallersSeeNoStoredData(run, steps, i, r);
    EveryPartIsGenuine(run, steps, i, r, k);
    j :| 0 <= j < |steps[..i]| && Returns(steps[..i][j], run[i].requests[r].result.parts[k].holdings);
  }

  /** Each of the answer's results is one the provider returned to this process in these steps. */
  ghost predicate AllReturned(past: seq<Step>, p: Portfolio) {
    forall k | 0 <= k < |p.parts| :: Returned(past, p.parts[k].holdings)
  }

  lemma LiveAnswersWereReturned(run: seq<World>, steps: seq<Step>, i: nat, r: RequestId)
    requires IsRun(run, steps) && Init(run[0]) && i < |run| && r in run[i].requests && run[i].requests[r].Answered?
    requires run[i].requests[r].live
    ensures AllReturned(steps[..i], run[i].requests[r].result)
  {
    forall k | 0 <= k < |run[i].requests[r].result.parts| ensures Returned(steps[..i], run[i].requests[r].result.parts[k].holdings) {
      var j := LivePartsWereReturned(run, steps, i, r, k);
      assert Returns(steps[..i][j], run[i].requests[r].result.parts[k].holdings);
    }
  }

  /** The chain caches hold nothing else either. */
  lemma CachedResultsAreGenuine(run: seq<World>, steps: seq<Step>, i: nat, key: ChainKey)
    requires IsRun(run, steps) && Init(run[0]) && i < |run|
    ensures key in run[i].caches.chain ==> Genuine(run[0].table, steps[..i], run[i].caches.chain[key].value)
    ensures key in run[i].caches.chainGood ==> Genuine(run[0].table, steps[..i], run[i].caches.chainGood[key].value)
  {
    RunData(run, steps, i, i);
    if key in run[i].caches.chain { FromIsGenuine(run[0].table, steps[..i], run[i].caches.chain[key].value); }
    if key in run[i].caches.chainGood { FromIsGenuine(run[0].table, steps[..i], run[i].caches.chainGood[key].value); }
  }

  // ---- Whole answers ----

  /** This step makes this answer, from the chains it resolved, from the last known good answer, or from the table. */
  ghost predicate Computes(s: World, step: Step, p: Portfolio) {
    match step
    case OfJob(j, FinishJob) => j in s.jobs && AllResolved(s.jobs[j]) && p == FinishedAnswer(s.caches, s.now, s.jobs[j])
    case OfJob(j, CatchJob(timeout)) =>
      j in s.jobs && s.jobs[j].good.Some? && p == StaleFallback(s.jobs[j].good.value, FetchFailedStaleCache(timeout))
    case OfRequest(r, Loaded(parts, _)) =>
      r in s.requests && s.requests[r].LoadingPersisted? && parts != [] && p == PersistedAggregate(s.requests[r].wallet, parts)
    case _ => false
  }

  ghost predicate EntriesMade(made: iset<Portfolio>, entries: map<AggKey, Entry<Portfolio>>) {
    forall k | k in entries :: entries[k].value in made
  }

  ghost predicate JobMade(made: iset<Portfolio>, job: Job) {
    (job.good.Some? ==> job.good.value in made) && (job.stage.Finished? ==> job.stage.result in made)
  }

  ghost predicate RequestMade(made: iset<Portfolio>, q: Request) {
    match q
    case LoadingPersisted(_, _, good) => good.Some? ==> good.value in made
    case Answered(_, _, p) => p in made
    case _ => true
  }

  /** Every answer anywhere is one of these. */
  ghost predicate AnswersMade(made: iset<Portfolio>, s: World) {
    && EntriesMade(made, s.caches.agg) && EntriesMade(made, s.caches.aggGood)
    && (forall j | j in s.jobs :: JobMade(made, s.jobs[j]))
    && (forall r | r in s.requests :: RequestMade(made, s.requests[r]))
  }

  lemma MadeCached(made: iset<Portfolio>, m: Caches, now: int, key: AggKey, p: Portfolio, source: Source)
    requires EntriesMade(made, m.agg) && EntriesMade(made, m.aggGood) && p in made
    ensures EntriesMade(made, SetAgg(m, now, key, p, source).agg) && EntriesMade(made, SetAggGood(m, now, key, p, source).aggGood)
  {
  }

  lemma {:induction false} HydrateKeepsAnswers(m: Caches, now: int, w: Wallet, parts: seq<Part>)
    ensures Hydrate(m, now, w, parts).agg == m.agg && Hydrate(m, now, w, parts).aggGood == m.aggGood
    decreases |parts|
  {
    if parts != [] { HydrateKeepsAnswers(m, now, w, parts[..|parts| - 1]); }
  }

  lemma MadeRequest(made: iset<Portfolio>, s: World, r: RequestId, q: Request)
    requires AnswersMade(made, s) && RequestMade(made, q)
    ensures AnswersMade(made, s.(requests := s.requests[r := q]))
  {
  }

  lemma MadeJob(made: iset<Portfolio>, s: World, j: JobId, job: Job)
    requires AnswersMade(made, s) && JobMade(made, job)
    ensures AnswersMade(made, PutJob(s, j, job))
  {
  }

  lemma MadeByRequest(made: iset<Portfolio>, s: World, r: RequestId, act: RequestAct, s': World)
    requires AnswersMade(made, s) && RequestNext(s, r, act, s') && forall p | Computes(s, OfRequest(r, act), p) :: p in made
    ensures AnswersMade(made, s')
  {
    match act
    case Ask(w, allow, live, j) => MadeByAsk(made, s, r, w, allow, live, j, s');
    case Loaded(parts, j) => MadeByLoad(made, s, r, parts, j, s');
    case LoadFailed => MadeRequest(made, s, r, s'.requests[r]);
    case Deliver =>
      assert JobMade(made, s.jobs[s.requests[r].job]);
      MadeRequest(made, s, r, s'.requests[r]);
  }

  lemma MadeByShare(made: iset<Portfolio>, s: World, r: RequestId, w: Wallet, key: AggKey, good: Option<Portfolio>, j: JobId, s': World)
    requires AnswersMade(made, s) && Shares(s, r, w, key, good, j, s') && (good.Some? ==> good.value in made)
    ensures AnswersMade(made, s')
  {
    if key in s.jobInFlight {
      MadeRequest(made, s, r, Awaiting(key.live, w, s.jobInFlight[key]));
    } else {
      MadeJob(made, s, j, Job(key, w, good, Created));
      MadeRequest(made, PutJob(s, j, Job(key, w, good, Created)).(jobInFlight := s.jobInFlight[key := j]), r, Awaiting(key.live, w, j));
    }
  }

  lemma MadeFound(made: iset<Portfolio>, entries: map<AggKey, Entry<Portfolio>>, key: AggKey, now: int, live: bool)
    requires EntriesMade(made, entries)
    ensures var found := Lookup(entries, key, now, live); found.Some? ==> found.value in made
  {
  }

  lemma MadeByAsk(made: iset<Portfolio>, s: World, r: RequestId, w: Wallet, allow: bool, live: bool, j: JobId, s': World)
    requires AnswersMade(made, s) && RequestNext(s, r, Ask(w, allow, live, j), s')
    ensures AnswersMade(made, s')
  {
    var key := KeyOfRequest(w, allow, live);
    MadeFound(made, s.caches.aggGood, key, s.now, live);
    if SupportedChains(w) != [] && Lookup(s.caches.agg, key, s.now, live).None? && !key.persisted {
      MadeByShare(made, s, r, w, key, Lookup(s.caches.aggGood, key, s.now, live), j, s');
    } else {
      MadeAtOnce(made, s, r, w, allow, live, j, s');
      MadeRequest(made, s, r, s'.requests[r]);
    }
  }

  lemma MadeAtOnce(made: iset<Portfolio>, s: World, r: RequestId, w: Wallet, allow: bool, live: bool, j: JobId, s': World)
    requires EntriesMade(made, s.caches.agg) && EntriesMade(made, s.caches.aggGood) && RequestNext(s, r, Ask(w, allow, live, j), s')
    requires var key := KeyOfRequest(w, allow, live);
             !(SupportedChains(w) != [] && Lookup(s.caches.agg, key, s.now, live).None? && !key.persisted)
    ensures r in s'.requests && RequestMade(made, s'.requests[r]) && s' == s.(requests := s.requests[r := s'.requests[r]])
  {
    var key := KeyOfRequest(w, allow, live);
    MadeFound(made, s.caches.agg, key, s.now, live);
    MadeFound(made, s.caches.aggGood, key, s.now, live);
  }

  lemma MadeByLoad(made: iset<Portfolio>, s: World, r: RequestId, parts: seq<Part>, j: JobId, s': World)
    requires AnswersMade(made, s) && RequestNext(s, r, Loaded(parts, j), s') && forall p | Computes(s, OfRequest(r, Loaded(parts, j)), p) :: p in made
    ensures AnswersMade(made, s')
  {
    var q := s.requests[r];
    assert RequestMade(made, q);
    if parts == [] {
      MadeByShare(made, s, r, q.wallet, q.key, q.good, j, s');
    } else {
      var p, m := PersistedAggregate(q.wallet, parts), Hydrate(s.caches, s.now, q.wallet, parts);
      assert Computes(s, OfRequest(r, Loaded(parts, j)), p);
      HydrateKeepsAnswers(s.caches, s.now, q.wallet, parts);
      MadeCached(made, m, s.now, q.key, p, PersistedSource);
      MadeCached(made, SetAgg(m, s.now, q.key, p, PersistedSource), s.now, q.key, p, PersistedSource);
      MadeRequest(made, s.(caches := s'.caches), r, s'.requests[r]);
    }
  }

  lemma MadeByJob(made: iset<Portfolio>, s: World, j: JobId, act: JobAct, s': World)
    requires AnswersMade(made, s) && JobNext(s, j, act, s') && forall p | Computes(s, OfJob(j, act), p) :: p in made
    ensures AnswersMade(made, s')
  {
    assert JobMade(made, s.jobs[j]);
    match act
    case FinishJob => MadeByEnd(made, s, j, act, FinishedAnswer(s.caches, s.now, s.jobs[j]), s');
    case CatchJob(timeout) =>
      if s.jobs[j].good.Some? {
        MadeByEnd(made, s, j, act, StaleFallback(s.jobs[j].good.value, FetchFailedStaleCache(timeout)), s');
      } else {
        MadeJob(made, s, j, s'.jobs[j]);
      }
    case StartJob => MadeJob(made, s, j, s'.jobs[j]);
    case ResolveNext(f) =>
      ResolveNextMoves(s, j, f, s');
      MadeJob(made, s, j, s'.jobs[j]);
    case Settle(i) => MadeJob(made, s, j, s'.jobs[j]);
    case TimeOut(i) => MadeJob(made, s, j, s'.jobs[j]);
  }

  lemma ResolveNextMoves(s: World, j: JobId, f: FetchId, s': World)
    requires JobNext(s, j, ResolveNext(f), s')
    ensures s' == PutJob(s, j, s'.jobs[j]).(fetches := s'.fetches, fetchInFlight := s'.fetchInFlight)
    ensures s'.jobs[j].good == s.jobs[j].good && s'.jobs[j].stage.Resolving?
  {
  }

  lemma MadeByEnd(made: iset<Portfolio>, s: World, j: JobId, act: JobAct, p: Portfolio, s': World)
    requires AnswersMade(made, s) && JobNext(s, j, act, s') && (act.FinishJob? || (act.CatchJob? && s.jobs[j].good.Some?))
    requires Computes(s, OfJob(j, act), p) && p in made
    ensures AnswersMade(made, s')
  {
    var job := s.jobs[j];
    assert JobMade(made, job);
    MadeCached(made, s.caches, s.now, job.key, p, LiveSource);
    MadeCached(made, SetAgg(s.caches, s.now, job.key, p, LiveSource), s.now, job.key, p, LiveSource);
    MadeJob(made, s, j, job.(stage := Finished(p)));
  }

  lemma MadeByStep(made: iset<Portfolio>, s: World, step: Step, s': World)
    requires AnswersMade(made, s) && Next(s, step, s') && forall p | Computes(s, step, p) :: p in made
    ensures AnswersMade(made, s')
  {
    match step
    case Tick(_) =>
    case OtherProcessWrites(_, _) =>
    case OfRequest(r, act) => MadeByRequest(made, s, r, act, s');
    case OfJob(j, act) => MadeByJob(made, s, j, act, s');
    case OfFetch(f, act) => FetchKeepsAnswers(s, f, act, s');
  }

  lemma FetchKeepsAnswers(s: World, f: FetchId, act: FetchAct, s': World)
    requires FetchNext(s, f, act, s')
    ensures s'.caches.agg == s.caches.agg && s'.caches.aggGood == s.caches.aggGood && s'.jobs == s.jobs && s'.requests == s.requests
  {
  }

  /** What the first `n` steps computed. */
  ghost function Made(run: seq<World>, steps: seq<Step>, n: nat): iset<Portfolio>
    requires n <= |steps| < |run|
  {
    iset p | ComputedBefore(run, steps, n, p)
  }

  ghost predicate ComputedBefore(run: seq<World>, steps: seq<Step>, n: nat, p: Portfolio)
    requires n <= |steps| < |run|
  {
    exists j: nat | j < n :: ComputesAt(run, steps, j, p)
  }

  ghost predicate ComputesAt(run: seq<World>, steps: seq<Step>, j: nat, p: Portfolio)
    requires j < |steps| < |run|
  {
    Computes(run[j], steps[j], p)
  }

  lemma {:induction false} RunMade(run: seq<World>, steps: seq<Step>, n: nat, i: nat)
    requires IsRun(run, steps) && Init(run[0]) && i <= n <= |steps|
    ensures AnswersMade(Made(run, steps, n), run[i])
    decreases i
  {
    if i > 0 {
      RunMade(run, steps, n, i - 1);
      assert Next(run[i - 1], steps[i - 1], run[i]);
      forall p | Computes(run[i - 1], steps[i - 1], p) ensures p in Made(run, steps, n) {
        assert ComputesAt(run, steps, i - 1, p);
      }
      MadeByStep(Made(run, steps, n), run[i - 1], steps[i - 1], run[i]);
    }
  }

  /** What such a step puts into the answer: its wallet, its parts, its total and the mark of being partial. */
  ghost predicate Tells(s: World, step: Step, p: Portfolio) {
    match step
    case OfJob(j, FinishJob) =>
      && j in s.jobs && AllResolved(s.jobs[j])
      && var w, rs := s.jobs[j].wallet, Resolutions(s.jobs[j].stage.chains);
      && var stale := StaleParts(s.caches, s.now, w, SupportedChains(w), s.jobs[j].key.live);
      && AnswerMeans(w, rs, s.jobs[j].good, stale, p)
    case OfJob(j, CatchJob(timeout)) =>
      && j in s.jobs && s.jobs[j].good.Some?
      && var good := s.jobs[j].good.value;
      && p.wallet == good.wallet && p.enabled == good.enabled && p.parts == good.parts && p.total == good.total && p.partial
    case OfRequest(r, Loaded(parts, _)) =>
      && r in s.requests && s.requests[r].LoadingPersisted?
      && var w := s.requests[r].wallet;
      && p.wallet == w.id && p.enabled == EnabledChains(w) && p.parts == parts && p.total == Total(parts) && p.partial && !p.available
    case _ => false
  }

  lemma ComputesTells(s: World, step: Step, p: Portfolio)
    requires Computes(s, step, p)
    ensures Tells(s, step, p)
  {
    if step.OfJob? && step.job.FinishJob? {
      var job := s.jobs[step.j];
      AnswerIsMeant(job.wallet, Resolutions(job.stage.chains), job.good,
                    StaleParts(s.caches, s.now, job.wallet, SupportedChains(job.wallet), job.key.live));
    } else if step.OfRequest? {
      PersistedIsMeant(s.requests[step.r].wallet, step.request.parts);
    }
  }

  lemma AnswersWereMade(run: seq<World>, steps: seq<Step>, i: nat, r: RequestId) returns (j: nat)
    requires IsRun(run, steps) && Init(run[0]) && i < |run| && r in run[i].requests && run[i].requests[r].Answered?
    ensures j < i && Computes(run[j], steps[j], run[i].requests[r].result)
  {
    RunMade(run, steps, i, i);
    assert RequestMade(Made(run, steps, i), run[i].requests[r]);
    assert ComputedBefore(run, steps, i, run[i].requests[r].result);
    j :| j < i && ComputesAt(run, steps, j, run[i].requests[r].result);
  }

  /** Every answer a request receives is, as it stands, what one earlier step made of the results it had. */
  lemma AnswersWereComputed(run: seq<World>, steps: seq<Step>, i: nat, r: RequestId) returns (j: nat)
    requires IsRun(run, steps) && Init(run[0]) && i < |run| && r in run[i].requests && run[i].requests[r].Answered?
    ensures j < i && Tells(run[j], steps[j], run[i].requests[r].result)
  {
    j := AnswersWereMade(run, steps, i, r);
    ComputesTells(run[j], steps[j], run[i].requests[r].result);
  }
}
