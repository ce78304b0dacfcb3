/** Callers that demand live holdings never see the persisted table, and unqualified answers are whole. */
module HoldingsProvenance {
  import opened Chains
  import opened WalletRecords
  import opened Wrappers
  import opened HoldingsModel
  import opened HoldingsCaches
  import opened HoldingsProtocol

  /** Nothing of this result came from the table. */
  ghost predicate Live(p: Portfolio) {
    forall i | 0 <= i < |p.parts| :: !p.parts[i].holdings.stored
  }

  ghost predicate KeysTo(w: Wallet, key: AggKey) {
    w.id == key.wallet && ChainSet(w) == key.chains
  }

  /** The parts were all fetched for one record, of those in `asked`, of the wallet and chain set the key names. */
  ghost predicate Belongs(asked: set<Wallet>, key: AggKey, parts: seq<Part>) {
    exists w | w in asked :: KeysTo(w, key) && FetchedFor(w, parts)
  }

  /** What an answer under this key may be, when only wallets of `asked` are asked about. */
  ghost predicate Sound(asked: set<Wallet>, key: AggKey, p: Portfolio) {
    && p.wallet == key.wallet && (set c | c in p.enabled) == key.chains && Belongs(asked, key, p.parts)
    && (key.live ==> Live(p)) && (!p.partial ==> Whole(p))
  }

  ghost predicate ResolutionOk(live: bool, origin: Origin, r: Resolution) {
    match r
    case Available(h, _) => h.origin == origin && (live ==> !h.stored)
    case Unavailable(rs) => rs != []
  }

  /** A chain that waits does so on a fetch for its own wallet, address and chain. */
  ghost predicate ChainStateOk(fetches: map<FetchId, Fetch>, live: bool, origin: Origin, x: ChainState) {
    match x
    case Pending(f, stale) =>
      && f in fetches && fetches[f].subject == origin
      && (stale.Some? ==> stale.value.origin == origin && (live ==> !stale.value.stored))
    case Resolved(r) => ResolutionOk(live, origin, r)
  }

  function OriginAt(w: Wallet, i: nat): Origin
    requires i < |SupportedChains(w)|
  {
    Origin(w.id, w.address, SupportedChains(w)[i])
  }

  ghost predicate ChainsOk(fetches: map<FetchId, Fetch>, job: Job) {
    job.stage.Resolving? ==>
      && |job.stage.chains| <= |SupportedChains(job.wallet)|
      && forall i | 0 <= i < |job.stage.chains| :: ChainStateOk(fetches, job.key.live, OriginAt(job.wallet, i), job.stage.chains[i])
  }

  ghost predicate JobOk(asked: set<Wallet>, fetches: map<FetchId, Fetch>, job: Job) {
    && SupportedChains(job.wallet) != [] && job.wallet in asked && KeysTo(job.wallet, job.key)
    && (job.good.Some? ==> Sound(asked, job.key, job.good.value))
    && ChainsOk(fetches, job)
    && (job.stage.Finished? ==> Sound(asked, job.key, job.stage.result))
  }

  ghost predicate FetchOk(f: Fetch) {
    && f.subject == OriginOf(f.key)
    && (f.stage.Persisting? || f.stage.Fetched? ==> !f.stage.result.stored && f.stage.result.origin == f.subject)
  }

  /** What a caller with this record of the wallet receives. */
  ghost predicate AnswerOk(asked: set<Wallet>, live: bool, w: Wallet, p: Portfolio) {
    exists key :: KeysTo(w, key) && key.live == live && Sound(asked, key, p)
  }

  ghost predicate RequestOk(asked: set<Wallet>, jobs: map<JobId, Job>, q: Request) {
    match q
    case LoadingPersisted(w, key, good) =>
      && !key.live && key.persisted && SupportedChains(w) != [] && w in asked && KeysTo(w, key)
      && (good.Some? ==> Sound(asked, key, good.value))
    case Awaiting(live, w, j) => w in asked && SupportedChains(w) != [] && j in jobs && jobs[j].key.live == live && KeysTo(w, jobs[j].key)
    case Answered(live, w, p) => w in asked && SupportedChains(w) != [] && AnswerOk(asked, live, w, p)
    case Failed(_) => true
  }

  ghost predicate AggOk(asked: set<Wallet>, entries: map<AggKey, Entry<Portfolio>>) {
    forall k | k in entries :: Sound(asked, k, entries[k].value)
  }

  /**
   At chain level the source label is trusted; at wallet level it is not, since a result labelled live under a
   key that allows stored data may hold stored data. There the key's own flag is what counts.
   */
  ghost predicate ChainOk(entries: map<ChainKey, Entry<ChainHoldings>>) {
    forall k | k in entries ::
      entries[k].value.origin == OriginOf(k) && (entries[k].source.LiveSource? ==> !entries[k].value.stored)
  }

  ghost predicate CachesOk(asked: set<Wallet>, m: Caches) {
    && AggOk(asked, m.agg) && AggOk(asked, m.aggGood) && ChainOk(m.chain) && ChainOk(m.chainGood)
    && forall k | k in m.chain :: m.chain[k].source.LiveSource?
  }

  ghost predicate FetchesOk(fetches: map<FetchId, Fetch>, inFlight: map<ChainKey, FetchId>) {
    && (forall f | f in fetches :: FetchOk(fetches[f]))
    && (forall k | k in inFlight :: inFlight[k] in fetches && fetches[inFlight[k]].key == k)
  }

  ghost predicate JobsOk(asked: set<Wallet>, fetches: map<FetchId, Fetch>, jobs: map<JobId, Job>, inFlight: map<AggKey, JobId>) {
    && (forall j | j in jobs :: JobOk(asked, fetches, jobs[j]))
    && (forall k | k in inFlight :: inFlight[k] in jobs && jobs[inFlight[k]].key == k)
  }

  ghost predicate RequestsOk(asked: set<Wallet>, jobs: map<JobId, Job>, requests: map<RequestId, Request>) {
    forall r | r in requests :: RequestOk(asked, jobs, requests[r])
  }

  ghost predicate Inv(asked: set<Wallet>, s: World) {
    && CachesOk(asked, s.caches) && TableOk(s.table) && FetchesOk(s.fetches, s.fetchInFlight)
    && JobsOk(asked, s.fetches, s.jobs, s.jobInFlight) && RequestsOk(asked, s.jobs, s.requests)
  }

  lemma JobReplaced(asked: set<Wallet>, fetches: map<FetchId, Fetch>, jobs: map<JobId, Job>, inFlight: map<AggKey, JobId>,
                    requests: map<RequestId, Request>, j: JobId, job: Job)
    requires JobsOk(asked, fetches, jobs, inFlight) && RequestsOk(asked, jobs, requests) && JobOk(asked, fetches, job)
    requires j in jobs ==> job.key == jobs[j].key
    ensures JobsOk(asked, fetches, jobs[j := job], inFlight) && RequestsOk(asked, jobs[j := job], requests)
  {
    forall r | r in requests ensures RequestOk(asked, jobs[j := job], requests[r]) {
      assert RequestOk(asked, jobs, requests[r]);
    }
  }

  /** Fetches end but keep what they are for, so whoever waits on one still waits on the right one. */
  lemma JobsWaitOn(asked: set<Wallet>, fetches: map<FetchId, Fetch>, fetches': map<FetchId, Fetch>, jobs: map<JobId, Job>,
                   inFlight: map<AggKey, JobId>)
    requires JobsOk(asked, fetches, jobs, inFlight)
    requires forall f | f in fetches :: f in fetches' && fetches'[f].subject == fetches[f].subject
    ensures JobsOk(asked, fetches', jobs, inFlight)
  {
    forall j | j in jobs ensures JobOk(asked, fetches', jobs[j]) {
      JobWaitsOn(asked, fetches, fetches', jobs[j]);
    }
  }

  lemma JobWaitsOn(asked: set<Wallet>, fetches: map<FetchId, Fetch>, fetches': map<FetchId, Fetch>, job: Job)
    requires JobOk(asked, fetches, job)
    requires forall f | f in fetches :: f in fetches' && fetches'[f].subject == fetches[f].subject
    ensures JobOk(asked, fetches', job)
  {
    if job.stage.Resolving? {
      forall i | 0 <= i < |job.stage.chains|
        ensures ChainStateOk(fetches', job.key.live, OriginAt(job.wallet, i), job.stage.chains[i])
      {
        assert ChainStateOk(fetches, job.key.live, OriginAt(job.wallet, i), job.stage.chains[i]);
      }
    }
  }

  lemma RequestReplaced(asked: set<Wallet>, jobs: map<JobId, Job>, requests: map<RequestId, Request>, r: RequestId, q: Request)
    requires RequestsOk(asked, jobs, requests) && RequestOk(asked, jobs, q)
    ensures RequestsOk(asked, jobs, requests[r := q])
  {
  }

  lemma {:induction false} HydrateKeepsChainOk(m: Caches, now: int, w: Wallet, parts: seq<Part>)
    requires ChainOk(m.chainGood) && FetchedFor(w, parts)
    ensures ChainOk(Hydrate(m, now, w, parts).chainGood)
    ensures Hydrate(m, now, w, parts) == m.(chainGood := Hydrate(m, now, w, parts).chainGood)
  {
    if parts != [] { HydrateKeepsChainOk(m, now, w, parts[..|parts| - 1]); }
  }

  lemma {:induction false} StalePartsAreOwn(m: Caches, now: int, w: Wallet, cs: seq<Chain>, live: bool)
    requires ChainOk(m.chainGood)
    ensures FetchedFor(w, StaleParts(m, now, w, cs, live))
    ensures live ==> forall i | 0 <= i < |StaleParts(m, now, w, cs, live)| :: !StaleParts(m, now, w, cs, live)[i].holdings.stored
  {
    if cs != [] { StalePartsAreOwn(m, now, w, cs[1..], live); }
  }

  ghost predicate AllOk(live: bool, w: Wallet, cs: seq<Chain>, rs: seq<Resolution>) {
    |cs| == |rs| && forall i | 0 <= i < |rs| :: ResolutionOk(live, Origin(w.id, w.address, cs[i]), rs[i])
  }

  lemma {:induction false} PartsAreOwn(live: bool, w: Wallet, cs: seq<Chain>, rs: seq<Resolution>)
    requires AllOk(live, w, cs, rs)
    ensures FetchedFor(w, Parts(cs, rs))
    ensures live ==> forall i | 0 <= i < |Parts(cs, rs)| :: !Parts(cs, rs)[i].holdings.stored
  {
    if cs != [] {
      var n := |cs| - 1;
      PartsAreOwn(live, w, cs[..n], rs[..n]);
      assert ResolutionOk(live, Origin(w.id, w.address, cs[n]), rs[n]);
    }
  }

  lemma PersistedAnswerIsPartial(w: Wallet, parts: seq<Part>)
    requires parts != []
    ensures PersistedAggregate(w, parts).partial
  {
    assert PersistedReasons(parts) != [];
  }

  lemma ResolutionsAreOk(asked: set<Wallet>, fetches: map<FetchId, Fetch>, job: Job)
    requires JobOk(asked, fetches, job) && AllResolved(job)
    ensures AllOk(job.key.live, job.wallet, SupportedChains(job.wallet), Resolutions(job.stage.chains))
  {
    forall i | 0 <= i < |job.stage.chains|
      ensures ResolutionOk(job.key.live, OriginAt(job.wallet, i), Resolutions(job.stage.chains)[i])
    {
      assert ChainStateOk(fetches, job.key.live, OriginAt(job.wallet, i), job.stage.chains[i]);
    }
  }

  /** An answer's parts are those of its own chains, of the last known good result, or stale ones. */
  lemma AnswerParts(w: Wallet, rs: seq<Resolution>, good: Option<Portfolio>, stale: seq<Part>)
    requires |rs| == |SupportedChains(w)|
    ensures var p := Answer(w, rs, good, stale);
            && (p.parts == Parts(SupportedChains(w), rs) || p.parts == stale || (good.Some? && p.parts == good.value.parts))
            && (p.enabled == EnabledChains(w) || (good.Some? && p.enabled == good.value.enabled))
            && (p.wallet == w.id || (good.Some? && p.wallet == good.value.wallet))
  {
  }

  lemma FinishedAnswerIsSound(asked: set<Wallet>, fetches: map<FetchId, Fetch>, m: Caches, now: int, job: Job)
    requires ChainOk(m.chainGood) && JobOk(asked, fetches, job) && AllResolved(job)
    ensures Sound(asked, job.key, Answer(job.wallet, Resolutions(job.stage.chains), job.good,
                                         StaleParts(m, now, job.wallet, SupportedChains(job.wallet), job.key.live)))
  {
    var w, cs, rs, live := job.wallet, SupportedChains(job.wallet), Resolutions(job.stage.chains), job.key.live;
    var stale := StaleParts(m, now, w, cs, live);
    var p := Answer(w, rs, job.good, stale);
    ResolutionsAreOk(asked, fetches, job);
    assert forall i | 0 <= i < |rs| :: ResolutionOk(live, Origin(w.id, w.address, cs[i]), rs[i]);
    UnqualifiedAnswerIsWhole(w, rs, job.good, stale);
    StalePartsAreOwn(m, now, w, cs, live);
    PartsAreOwn(live, w, cs, rs);
    AnswerParts(w, rs, job.good, stale);
    assert FetchedFor(w, Parts(cs, rs)) ==> Belongs(asked, job.key, Parts(cs, rs));
    assert Belongs(asked, job.key, stale);
  }

  /** Storing a sound answer or a properly labelled chain result keeps the caches in order. */
  lemma StoringKeepsCachesOk(asked: set<Wallet>, m: Caches, now: int, key: AggKey, p: Portfolio, source: Source)
    requires CachesOk(asked, m) && Sound(asked, key, p)
    ensures CachesOk(asked, SetAgg(m, now, key, p, source)) && CachesOk(asked, SetAggGood(m, now, key, p, source))
    ensures CachesOk(asked, SetAggGood(SetAgg(m, now, key, p, source), now, key, p, source))
  {
    AnswerStored(asked, m, now, key, p, source);
    GoodAnswerStored(asked, m, now, key, p, source);
    GoodAnswerStored(asked, SetAgg(m, now, key, p, source), now, key, p, source);
  }

  lemma AnswerStored(asked: set<Wallet>, m: Caches, now: int, key: AggKey, p: Portfolio, source: Source)
    requires CachesOk(asked, m) && Sound(asked, key, p)
    ensures CachesOk(asked, SetAgg(m, now, key, p, source))
  {
    AggPut(asked, m.agg, key, SetAgg(m, now, key, p, source).agg[key]);
  }

  lemma GoodAnswerStored(asked: set<Wallet>, m: Caches, now: int, key: AggKey, p: Portfolio, source: Source)
    requires CachesOk(asked, m) && Sound(asked, key, p)
    ensures CachesOk(asked, SetAggGood(m, now, key, p, source))
  {
    if UsablePortfolio(p) { AggPut(asked, m.aggGood, key, SetAggGood(m, now, key, p, source).aggGood[key]); }
  }

  lemma AggPut(asked: set<Wallet>, entries: map<AggKey, Entry<Portfolio>>, key: AggKey, e: Entry<Portfolio>)
    requires AggOk(asked, entries) && Sound(asked, key, e.value)
    ensures AggOk(asked, entries[key := e])
  {
  }

  // ---- Preservation, one family of steps per lemma ----

  lemma SharingKeepsInv(asked: set<Wallet>, s: World, r: RequestId, w: Wallet, key: AggKey, good: Option<Portfolio>, j: JobId, s': World)
    requires Inv(asked, s) && Shares(s, r, w, key, good, j, s')
    requires SupportedChains(w) != [] && w in asked && KeysTo(w, key) && (good.Some? ==> Sound(asked, key, good.value))
    ensures Inv(asked, s')
  {
    if key in s.jobInFlight {
      RequestReplaced(asked, s.jobs, s.requests, r, Awaiting(key.live, w, s.jobInFlight[key]));
    } else {
      JobReplaced(asked, s.fetches, s.jobs, s.jobInFlight, s.requests, j, Job(key, w, good, Created));
      RequestReplaced(asked, s'.jobs, s.requests, r, Awaiting(key.live, w, j));
    }
  }

  lemma AskStep(asked: set<Wallet>, s: World, r: RequestId, w: Wallet, allow: bool, live: bool, j: JobId, s': World)
    requires Inv(asked, s) && RequestNext(s, r, Ask(w, allow, live, j), s') && w in asked
    ensures Inv(asked, s')
  {
    var key := KeyOfRequest(w, allow, live);
    var good := Lookup(s.caches.aggGood, key, s.now, live);
    if SupportedChains(w) != [] && Lookup(s.caches.agg, key, s.now, live).None? && !key.persisted {
      SharingKeepsInv(asked, s, r, w, key, good, j, s');
    } else {
      AnsweredAtOnce(asked, s, r, w, allow, live, j, s');
      RequestReplaced(asked, s.jobs, s.requests, r, s'.requests[r]);
    }
  }

  /** A request that starts no job is answered from the cache, waits for the table, or names no supported chain. */
  lemma AnsweredAtOnce(asked: set<Wallet>, s: World, r: RequestId, w: Wallet, allow: bool, live: bool, j: JobId, s': World)
    requires CachesOk(asked, s.caches) && RequestNext(s, r, Ask(w, allow, live, j), s') && w in asked
    requires var key := KeyOfRequest(w, allow, live);
             !(SupportedChains(w) != [] && Lookup(s.caches.agg, key, s.now, live).None? && !key.persisted)
    ensures r in s'.requests && RequestOk(asked, s.jobs, s'.requests[r]) && s' == s.(requests := s.requests[r := s'.requests[r]])
  {
    var key := KeyOfRequest(w, allow, live);
    assert KeysTo(w, key);
    LookupIsSound(asked, s.caches.agg, key, s.now, live);
    LookupIsSound(asked, s.caches.aggGood, key, s.now, live);
  }

  lemma LookupIsSound(asked: set<Wallet>, entries: map<AggKey, Entry<Portfolio>>, key: AggKey, now: int, live: bool)
    requires AggOk(asked, entries)
    ensures var found := Lookup(entries, key, now, live); found.Some? ==> Sound(asked, key, found.value)
  {
  }

  lemma LoadedIsOwn(s: World, w: Wallet, parts: seq<Part>)
    requires TableOk(s.table) && LoadsFrom(s, w, parts)
    ensures FetchedFor(w, parts)
  {
  }

  lemma PersistedAnswerIsSound(asked: set<Wallet>, w: Wallet, key: AggKey, parts: seq<Part>)
    requires w in asked && KeysTo(w, key) && !key.live && parts != [] && FetchedFor(w, parts)
    ensures Sound(asked, key, PersistedAggregate(w, parts))
  {
    PersistedAnswerIsPartial(w, parts);
  }

  lemma LoadedStep(asked: set<Wallet>, s: World, r: RequestId, parts: seq<Part>, j: JobId, s': World)
    requires Inv(asked, s) && RequestNext(s, r, Loaded(parts, j), s')
    ensures Inv(asked, s')
  {
    var q := s.requests[r];
    assert RequestOk(asked, s.jobs, q);
    if parts == [] {
      SharingKeepsInv(asked, s, r, q.wallet, q.key, q.good, j, s');
    } else {
      var p := PersistedAggregate(q.wallet, parts);
      LoadedIsOwn(s, q.wallet, parts);
      HydrateKeepsChainOk(s.caches, s.now, q.wallet, parts);
      PersistedAnswerIsSound(asked, q.wallet, q.key, parts);
      StoringKeepsCachesOk(asked, Hydrate(s.caches, s.now, q.wallet, parts), s.now, q.key, p, PersistedSource);
      RequestReplaced(asked, s.jobs, s.requests, r, Answered(q.key.live, q.wallet, p));
    }
  }

  lemma RequestStep(asked: set<Wallet>, s: World, r: RequestId, act: RequestAct, s': World)
    requires Inv(asked, s) && RequestNext(s, r, act, s') && (act.Ask? ==> act.wallet in asked)
    ensures Inv(asked, s')
  {
    match act
    case Ask(w, allow, live, j) => AskStep(asked, s, r, w, allow, live, j, s');
    case Loaded(parts, j) => LoadedStep(asked, s, r, parts, j, s');
    case LoadFailed => RequestReplaced(asked, s.jobs, s.requests, r, s'.requests[r]);
    case Deliver =>
      assert RequestOk(asked, s.jobs, s.requests[r]) && JobOk(asked, s.fetches, s.jobs[s.requests[r].job]);
      RequestReplaced(asked, s.jobs, s.requests, r, s'.requests[r]);
  }

  lemma ChainPut(entries: map<ChainKey, Entry<ChainHoldings>>, key: ChainKey, e: Entry<ChainHoldings>)
    requires ChainOk(entries) && e.value.origin == OriginOf(key) && !e.value.stored
    ensures ChainOk(entries[key := e])
  {
  }

  lemma FetchedKeepsCachesOk(asked: set<Wallet>, m: Caches, now: int, key: ChainKey, h: ChainHoldings)
    requires CachesOk(asked, m) && h.origin == OriginOf(key) && !h.stored
    ensures CachesOk(asked, SetChainGood(SetChain(m, now, key, h), now, key, h, LiveSource))
  {
    var stored := SetChain(m, now, key, h);
    ChainPut(m.chain, key, stored.chain[key]);
    GoodKeepsCachesOk(asked, stored, now, key, h);
  }

  lemma GoodKeepsCachesOk(asked: set<Wallet>, m: Caches, now: int, key: ChainKey, h: ChainHoldings)
    requires CachesOk(asked, m) && h.origin == OriginOf(key) && !h.stored
    ensures CachesOk(asked, SetChainGood(m, now, key, h, LiveSource))
  {
    var m' := SetChainGood(m, now, key, h, LiveSource);
    if m' != m { ChainPut(m.chainGood, key, m'.chainGood[key]); }
  }

  /** A fetch moves on: what it is for stays, and so does everything that waits on it. */
  lemma FetchMoves(asked: set<Wallet>, s: World, f: FetchId, stage: FetchStage, m: Caches, table: map<ChainKey, Row>,
                   inFlight: map<ChainKey, FetchId>, s': World)
    requires Inv(asked, s) && f in s.fetches && CachesOk(asked, m) && TableOk(table)
    requires FetchOk(s.fetches[f].(stage := stage)) && forall k | k in inFlight :: k in s.fetchInFlight && inFlight[k] == s.fetchInFlight[k]
    requires s' == s.(caches := m, table := table, fetches := s.fetches[f := s.fetches[f].(stage := stage)], fetchInFlight := inFlight)
    ensures Inv(asked, s')
  {
    JobsWaitOn(asked, s.fetches, s'.fetches, s.jobs, s.jobInFlight);
  }

  lemma FetchStep(asked: set<Wallet>, s: World, f: FetchId, act: FetchAct, s': World)
    requires Inv(asked, s) && FetchNext(s, f, act, s')
    ensures Inv(asked, s')
  {
    assert FetchOk(s.fetches[f]);
    if act.FetchReturns? { FetchedKeepsCachesOk(asked, s.caches, s.now, s.fetches[f].key, act.result); }
    FetchMoves(asked, s, f, s'.fetches[f].stage, s'.caches, s'.table, s'.fetchInFlight, s');
  }

  lemma ResolvingKeepsInv(asked: set<Wallet>, s: World, j: JobId, i: nat, r: Resolution, s': World)
    requires Inv(asked, s) && j in s.jobs && PendingAt(s.jobs[j], i) && s' == PutJob(s, j, ResolveAt(s.jobs[j], i, r))
    requires ResolutionOk(s.jobs[j].key.live, OriginAt(s.jobs[j].wallet, i), r)
    ensures Inv(asked, s')
  {
    assert JobOk(asked, s.fetches, s.jobs[j]);
    JobReplaced(asked, s.fetches, s.jobs, s.jobInFlight, s.requests, j, s'.jobs[j]);
  }

  lemma OneMoreChain(asked: set<Wallet>, fetches: map<FetchId, Fetch>, job: Job, x: ChainState)
    requires JobOk(asked, fetches, job) && job.stage.Resolving? && |job.stage.chains| < |SupportedChains(job.wallet)|
    requires ChainStateOk(fetches, job.key.live, OriginAt(job.wallet, |job.stage.chains|), x)
    ensures JobOk(asked, fetches, job.(stage := Resolving(job.stage.chains + [x])))
  {
  }

  /** The state a chain starts in refers to cache entries and a fetch under its own key. */
  lemma FirstStateOk(s: World, w: Wallet, c: Chain, live: bool, f: FetchId, fetches: map<FetchId, Fetch>)
    requires ChainOk(s.caches.chain) && ChainOk(s.caches.chainGood) && FetchesOk(s.fetches, s.fetchInFlight)
    requires forall x | x in s.fetches :: x in fetches && fetches[x] == s.fetches[x]
    requires var key := KeyOf(w, c);
             Lookup(s.caches.chain, key, s.now, live).None? && key !in s.fetchInFlight ==>
               f in fetches && fetches[f].subject == Origin(w.id, w.address, c)
    ensures ChainStateOk(fetches, live, Origin(w.id, w.address, c), FirstState(s.caches, s.now, s.fetchInFlight, KeyOf(w, c), live, f))
  {
    var key := KeyOf(w, c);
    if key in s.fetchInFlight { assert FetchOk(s.fetches[s.fetchInFlight[key]]); }
  }

  /** A chain joins its computation, with the fetches as they then are. */
  lemma ChainJoins(asked: set<Wallet>, s: World, j: JobId, x: ChainState, fetches: map<FetchId, Fetch>, inFlight: map<ChainKey, FetchId>, s': World)
    requires Inv(asked, s) && j in s.jobs && s.jobs[j].stage.Resolving? && |s.jobs[j].stage.chains| < |SupportedChains(s.jobs[j].wallet)|
    requires forall f | f in s.fetches :: f in fetches && fetches[f].subject == s.fetches[f].subject
    requires FetchesOk(fetches, inFlight)
    requires ChainStateOk(fetches, s.jobs[j].key.live, OriginAt(s.jobs[j].wallet, |s.jobs[j].stage.chains|), x)
    requires s' == PutJob(s, j, s.jobs[j].(stage := Resolving(s.jobs[j].stage.chains + [x]))).(fetches := fetches, fetchInFlight := inFlight)
    ensures Inv(asked, s')
  {
    var job := s.jobs[j];
    JobsWaitOn(asked, s.fetches, fetches, s.jobs, s.jobInFlight);
    assert JobOk(asked, fetches, job);
    OneMoreChain(asked, fetches, job, x);
    JobReplaced(asked, fetches, s.jobs, s.jobInFlight, s.requests, j, job.(stage := Resolving(job.stage.chains + [x])));
  }

  /** A fetch is started for the chain, or none is. */
  ghost predicate MayStart(s: World, w: Wallet, c: Chain, f: FetchId, fetches: map<FetchId, Fetch>, inFlight: map<ChainKey, FetchId>) {
    || (fetches == s.fetches && inFlight == s.fetchInFlight)
    || (f !in s.fetches && fetches == s.fetches[f := Fetch(KeyOf(w, c), Origin(w.id, w.address, c), Running)]
        && inFlight == s.fetchInFlight[KeyOf(w, c) := f])
  }

  lemma ResolveNextStep(asked: set<Wallet>, s: World, j: JobId, f: FetchId, s': World)
    requires Inv(asked, s) && JobNext(s, j, ResolveNext(f), s')
    ensures Inv(asked, s')
  {
    ResolveNextStarts(s, j, f, s');
    ChainResolves(asked, s, j, f, s');
  }

  /** The one chain a computation looks at, and the fetch it may start for it. */
  ghost predicate Resolves(s: World, j: JobId, f: FetchId, s': World) {
    && j in s.jobs && s.jobs[j].stage.Resolving? && |s.jobs[j].stage.chains| < |SupportedChains(s.jobs[j].wallet)|
    && var job := s.jobs[j];
    && var c := SupportedChains(job.wallet)[|job.stage.chains|];
    && var key := KeyOf(job.wallet, c);
    && var x := FirstState(s.caches, s.now, s.fetchInFlight, key, job.key.live, f);
    && s' == PutJob(s, j, job.(stage := Resolving(job.stage.chains + [x]))).(fetches := s'.fetches, fetchInFlight := s'.fetchInFlight)
    && MayStart(s, job.wallet, c, f, s'.fetches, s'.fetchInFlight)
    && (Lookup(s.caches.chain, key, s.now, job.key.live).None? && key !in s.fetchInFlight ==>
          f in s'.fetches && s'.fetches[f].subject == Origin(job.wallet.id, job.wallet.address, c))
  }

  lemma ResolveNextStarts(s: World, j: JobId, f: FetchId, s': World)
    requires JobNext(s, j, ResolveNext(f), s')
    ensures Resolves(s, j, f, s')
  {
  }

  lemma ChainResolves(asked: set<Wallet>, s: World, j: JobId, f: FetchId, s': World)
    requires Inv(asked, s) && Resolves(s, j, f, s')
    ensures Inv(asked, s')
  {
    var job := s.jobs[j];
    var c := SupportedChains(job.wallet)[|job.stage.chains|];
    FirstStateOk(s, job.wallet, c, job.key.live, f, s'.fetches);
    NewFetchOk(s, s'.fetches, s'.fetchInFlight, job.wallet, c, f);
    ChainJoins(asked, s, j, FirstState(s.caches, s.now, s.fetchInFlight, KeyOf(job.wallet, c), job.key.live, f),
               s'.fetches, s'.fetchInFlight, s');
  }

  lemma NewFetchOk(s: World, fetches: map<FetchId, Fetch>, inFlight: map<ChainKey, FetchId>, w: Wallet, c: Chain, f: FetchId)
    requires FetchesOk(s.fetches, s.fetchInFlight)
    requires MayStart(s, w, c, f, fetches, inFlight)
    ensures FetchesOk(fetches, inFlight)
  {
  }

  lemma SettleStep(asked: set<Wallet>, s: World, j: JobId, i: nat, s': World)
    requires Inv(asked, s) && (JobNext(s, j, Settle(i), s') || JobNext(s, j, TimeOut(i), s'))
    ensures Inv(asked, s')
  {
    var job := s.jobs[j];
    var p := job.stage.chains[i];
    assert JobOk(asked, s.fetches, job) && ChainStateOk(s.fetches, job.key.live, OriginAt(job.wallet, i), p);
    assert FetchOk(s.fetches[p.fetch]);
    ResolvingKeepsInv(asked, s, j, i, s'.jobs[j].stage.chains[i].resolution, s');
  }

  /** A computation ends with a sound answer, or none, and sound caches. */
  lemma EndStep(asked: set<Wallet>, s: World, j: JobId, stage: JobStage, m: Caches, s': World)
    requires Inv(asked, s) && j in s.jobs && CachesOk(asked, m)
    requires !stage.Resolving? && (stage.Finished? ==> Sound(asked, s.jobs[j].key, stage.result))
    requires s' == PutJob(s, j, s.jobs[j].(stage := stage)).(caches := m, jobInFlight := s.jobInFlight - {s.jobs[j].key})
    ensures Inv(asked, s')
  {
    EndedJobOk(asked, s.fetches, s.jobs[j], stage);
    JobReplaced(asked, s.fetches, s.jobs, s.jobInFlight, s.requests, j, s'.jobs[j]);
  }

  lemma FinishStep(asked: set<Wallet>, s: World, j: JobId, s': World)
    requires Inv(asked, s) && JobNext(s, j, FinishJob, s')
    ensures Inv(asked, s')
  {
    var job := s.jobs[j];
    assert JobOk(asked, s.fetches, job);
    FinishedAnswerIsSound(asked, s.fetches, s.caches, s.now, job);
    StoringKeepsCachesOk(asked, s.caches, s.now, job.key, s'.jobs[j].stage.result, LiveSource);
    EndStep(asked, s, j, s'.jobs[j].stage, s'.caches, s');
  }

  lemma FallbackIsSound(asked: set<Wallet>, key: AggKey, p: Portfolio, why: Reason)
    requires Sound(asked, key, p)
    ensures Sound(asked, key, StaleFallback(p, why))
  {
  }

  lemma EndedJobOk(asked: set<Wallet>, fetches: map<FetchId, Fetch>, job: Job, stage: JobStage)
    requires JobOk(asked, fetches, job) && !stage.Resolving? && (stage.Finished? ==> Sound(asked, job.key, stage.result))
    ensures JobOk(asked, fetches, job.(stage := stage))
  {
  }

  lemma CatchStep(asked: set<Wallet>, s: World, j: JobId, timeout: bool, s': World)
    requires Inv(asked, s) && JobNext(s, j, CatchJob(timeout), s')
    ensures Inv(asked, s')
  {
    var job := s.jobs[j];
    assert JobOk(asked, s.fetches, job);
    if job.good.Some? {
      var p := StaleFallback(job.good.value, FetchFailedStaleCache(timeout));
      FallbackIsSound(asked, job.key, job.good.value, FetchFailedStaleCache(timeout));
      StoringKeepsCachesOk(asked, s.caches, s.now, job.key, p, LiveSource);
      EndStep(asked, s, j, Finished(p), SetAgg(s.caches, s.now, job.key, p, LiveSource), s');
    } else {
      EndStep(asked, s, j, Rejected, s.caches, s');
    }
  }

  lemma JobStep(asked: set<Wallet>, s: World, j: JobId, act: JobAct, s': World)
    requires Inv(asked, s) && JobNext(s, j, act, s')
    ensures Inv(asked, s')
  {
    match act
    case StartJob =>
      assert JobOk(asked, s.fetches, s.jobs[j]);
      JobReplaced(asked, s.fetches, s.jobs, s.jobInFlight, s.requests, j, s'.jobs[j]);
    case ResolveNext(f) => ResolveNextStep(asked, s, j, f, s');
    case Settle(i) => SettleStep(asked, s, j, i, s');
    case TimeOut(i) => SettleStep(asked, s, j, i, s');
    case FinishJob => FinishStep(asked, s, j, s');
    case CatchJob(timeout) => CatchStep(asked, s, j, timeout, s');
  }

  /** The step asks about no wallet record outside this set. */
  predicate AsksWithin(step: Step, asked: set<Wallet>) {
    step.OfRequest? && step.request.Ask? ==> step.request.wallet in asked
  }

  lemma StepInv(asked: set<Wallet>, s: World, step: Step, s': World)
    requires Inv(asked, s) && Next(s, step, s') && AsksWithin(step, asked)
    ensures Inv(asked, s')
  {
    match step
    case Tick(_) =>
    case OtherProcessWrites(_, _) =>
    case OfRequest(r, act) => RequestStep(asked, s, r, act, s');
    case OfJob(j, act) => JobStep(asked, s, j, act, s');
    case OfFetch(f, act) => FetchStep(asked, s, f, act, s');
  }

  predicate AllWithin(steps: seq<Step>, asked: set<Wallet>) {
    forall i | 0 <= i < |steps| :: AsksWithin(steps[i], asked)
  }

  /** A run of this process whose requests read these wallet records. */
  ghost predicate Possible(run: seq<World>, steps: seq<Step>, asked: set<Wallet>) {
    IsRun(run, steps) && Init(run[0]) && AllWithin(steps, asked)
  }

  lemma {:induction false} RunInv(asked: set<Wallet>, run: seq<World>, steps: seq<Step>, i: nat)
    requires IsRun(run, steps) && Init(run[0]) && i < |run| && AllWithin(steps, asked)
    ensures Inv(asked, run[i])
  {
    if i > 0 {
      RunInv(asked, run, steps, i - 1);
      assert Next(run[i - 1], steps[i - 1], run[i]);
      StepInv(asked, run[i - 1], steps[i - 1], run[i]);
    }
  }

  /** The wallet records the requests of a run read. */
  function Asked(steps: seq<Step>): (asked: set<Wallet>)
    ensures AllWithin(steps, asked)
  {
    set i | 0 <= i < |steps| && steps[i].OfRequest? && steps[i].request.Ask? :: steps[i].request.wallet
  }

  // ---- Main results ----

  /**
   Over every run, through every cache, fallback, shared computation and late fetch: what a caller that
   demanded live data receives contains nothing read from the persisted table.
   */
  lemma LiveCallersSeeNoStoredData(run: seq<World>, steps: seq<Step>, i: nat, r: RequestId)
    requires IsRun(run, steps) && Init(run[0]) && i < |run|
    requires r in run[i].requests && run[i].requests[r].Answered? && run[i].requests[r].live
    ensures run[i].requests[r].result.wallet == run[i].requests[r].wallet.id
    ensures forall k | 0 <= k < |run[i].requests[r].result.parts| :: !run[i].requests[r].result.parts[k].holdings.stored
  {
    RunInv(Asked(steps), run, steps, i);
    assert RequestOk(Asked(steps), run[i].jobs, run[i].requests[r]);
  }

  /**
   Wallets and chains are never mixed up: every answer, to any caller, is about exactly the chains its wallet has
   enabled, and each part was fetched for that wallet on the chain it is listed under, all at one address: that
   of `reader`, a record of the wallet with these chains that a request of this run read.
   */
  lemma AnswersAreOfTheirWallet(run: seq<World>, steps: seq<Step>, i: nat, r: RequestId) returns (reader: Wallet)
    requires IsRun(run, steps) && Init(run[0]) && i < |run|
    requires r in run[i].requests && run[i].requests[r].Answered?
    ensures var w, p := run[i].requests[r].wallet, run[i].requests[r].result;
            && reader in Asked(steps) && reader.id == w.id && ChainSet(reader) == ChainSet(w)
            && p.wallet == w.id && (set c | c in p.enabled) == ChainSet(w)
            && forall k | 0 <= k < |p.parts| :: p.parts[k].holdings.origin == Origin(w.id, reader.address, p.parts[k].chain)
  {
    RunInv(Asked(steps), run, steps, i);
    assert RequestOk(Asked(steps), run[i].jobs, run[i].requests[r]);
    var w, p := run[i].requests[r].wallet, run[i].requests[r].result;
    var key :| KeysTo(w, key) && key.live == run[i].requests[r].live && Sound(Asked(steps), key, p);
    assert KeysTo(w, key) && Belongs(Asked(steps), key, p.parts);
    reader :| reader in Asked(steps) && KeysTo(reader, key) && FetchedFor(reader, p.parts);
  }

  /** And an answer not marked partial holds one whole result of every chain its caller's wallet has enabled. */
  lemma UnqualifiedAnswersAreWhole(run: seq<World>, steps: seq<Step>, i: nat, r: RequestId) returns (reader: Wallet)
    requires IsRun(run, steps) && Init(run[0]) && i < |run|
    requires r in run[i].requests && run[i].requests[r].Answered? && !run[i].requests[r].result.partial
    ensures Whole(run[i].requests[r].result)
    ensures var w, p := run[i].requests[r].wallet, run[i].requests[r].result;
            && (set c | c in p.enabled) == ChainSet(w) && |p.parts| == |p.enabled|
            && forall k | 0 <= k < |p.parts| :: p.parts[k].holdings.origin == Origin(w.id, reader.address, p.enabled[k])
    ensures reader in Asked(steps) && reader.id == run[i].requests[r].wallet.id
  {
    reader := AnswersAreOfTheirWallet(run, steps, i, r);
    RunInv(Asked(steps), run, steps, i);
    assert RequestOk(Asked(steps), run[i].jobs, run[i].requests[r]);
    var key :| KeysTo(run[i].requests[r].wallet, key) && key.live == run[i].requests[r].live && Sound(Asked(steps), key, run[i].requests[r].result);
    assert Whole(run[i].requests[r].result);
  }
}
