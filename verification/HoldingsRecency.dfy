/** How long a chain result is served from memory: it is cached when the provider returns it, and for a limited time. */
module HoldingsRecency {
  import opened Chains
  import opened WalletRecords
  import opened Wrappers
  import opened HoldingsModel
  import opened HoldingsCaches
  import opened HoldingsProtocol
  import Data = HoldingsData

  /** The provider's result for this key, and when it came. */
  datatype Arrival = Arrival(key: ChainKey, result: ChainHoldings, at: int)

  predicate Arrives(s: World, step: Step, x: Arrival) {
    && step.OfFetch? && step.f in s.fetches && s.fetches[step.f].key == x.key && step.fetch == FetchReturns(x.result) && x.at == s.now
  }

  /** Two minutes for a result with nothing missing, one for any other. */
  function Lifetime(h: ChainHoldings): int {
    if !h.partial && h.available && h.reason == [] && h.total.Some? then 120 * 1000 else 60 * 1000
  }

  /** Worth falling back to: not cut off by a page limit, and either something is held or nothing is for certain. */
  predicate Good(h: ChainHoldings) {
    PageLimit !in h.reason && (h.items != [] || (h.available && h.total == Some(0) && !h.partial))
  }

  ghost predicate Recent(arrived: iset<Arrival>, key: ChainKey, e: Entry<ChainHoldings>, lifetime: int) {
    exists at :: Arrival(key, e.value, at) in arrived && e.expiresAt <= at + lifetime
  }

  ghost predicate ChainRecent(arrived: iset<Arrival>, chain: map<ChainKey, Entry<ChainHoldings>>) {
    forall k | k in chain :: Recent(arrived, k, chain[k], Lifetime(chain[k].value))
  }

  /** A result from the table may be fallen back to as well, but is labelled as such. */
  ghost predicate GoodRecent(arrived: iset<Arrival>, chainGood: map<ChainKey, Entry<ChainHoldings>>) {
    forall k | k in chainGood ::
      Good(chainGood[k].value) && (chainGood[k].source.LiveSource? ==> Recent(arrived, k, chainGood[k], 15 * 60 * 1000))
  }

  ghost predicate AllRecent(arrived: iset<Arrival>, m: Caches) {
    ChainRecent(arrived, m.chain) && GoodRecent(arrived, m.chainGood)
  }

  lemma Arriving(arrived: iset<Arrival>, m: Caches, now: int, key: ChainKey, h: ChainHoldings)
    requires AllRecent(arrived, m) && Arrival(key, h, now) in arrived
    ensures AllRecent(arrived, SetChainGood(SetChain(m, now, key, h), now, key, h, LiveSource))
  {
    var m' := SetChain(m, now, key, h);
    assert Recent(arrived, key, m'.chain[key], Lifetime(h));
    if UsableChain(h) {
      assert Recent(arrived, key, SetChainGood(m', now, key, h, LiveSource).chainGood[key], 15 * 60 * 1000);
    }
  }

  lemma {:induction false} HydrateRecent(arrived: iset<Arrival>, m: Caches, now: int, w: Wallet, parts: seq<Part>)
    requires AllRecent(arrived, m)
    ensures AllRecent(arrived, Hydrate(m, now, w, parts))
    decreases |parts|
  {
    if parts != [] { HydrateRecent(arrived, m, now, w, parts[..|parts| - 1]); }
  }

  lemma RequestsFill(arrived: iset<Arrival>, s: World, r: RequestId, act: RequestAct, s': World)
    requires AllRecent(arrived, s.caches) && RequestNext(s, r, act, s')
    ensures AllRecent(arrived, s'.caches)
  {
    if act.Loaded? {
      HydrateRecent(arrived, s.caches, s.now, s.requests[r].wallet, act.parts);
    } else {
      RequestsKeepChains(s, r, act, s');
    }
  }

  lemma RequestsKeepChains(s: World, r: RequestId, act: RequestAct, s': World)
    requires RequestNext(s, r, act, s') && !act.Loaded?
    ensures s'.caches == s.caches
  {
  }

  lemma JobsKeepChains(s: World, j: JobId, act: JobAct, s': World)
    requires JobNext(s, j, act, s')
    ensures s'.caches.chain == s.caches.chain && s'.caches.chainGood == s.caches.chainGood
  {
  }

  lemma StepFills(arrived: iset<Arrival>, s: World, step: Step, s': World)
    requires AllRecent(arrived, s.caches) && Next(s, step, s') && forall x | Arrives(s, step, x) :: x in arrived
    ensures AllRecent(arrived, s'.caches)
  {
    match step
    case Tick(_) =>
    case OtherProcessWrites(_, _) =>
    case OfRequest(r, act) => RequestsFill(arrived, s, r, act, s');
    case OfJob(j, act) => JobsKeepChains(s, j, act, s');
    case OfFetch(f, act) =>
      if act.FetchReturns? {
        assert Arrives(s, step, Arrival(s.fetches[f].key, act.result, s.now));
        Arriving(arrived, s.caches, s.now, s.fetches[f].key, act.result);
      }
  }

  predicate ArrivesAt(run: seq<World>, steps: seq<Step>, j: nat, x: Arrival)
    requires j < |steps| < |run|
  {
    Arrives(run[j], steps[j], x)
  }

  ghost predicate ArrivedBefore(run: seq<World>, steps: seq<Step>, n: nat, x: Arrival)
    requires n <= |steps| < |run|
  {
    exists j: nat | j < n :: ArrivesAt(run, steps, j, x)
  }

  ghost function Arrived(run: seq<World>, steps: seq<Step>, n: nat): iset<Arrival>
    requires n <= |steps| < |run|
  {
    iset x | ArrivedBefore(run, steps, n, x)
  }

  lemma {:induction false} RunFills(run: seq<World>, steps: seq<Step>, n: nat, i: nat)
    requires IsRun(run, steps) && Init(run[0]) && i <= n <= |steps|
    ensures AllRecent(Arrived(run, steps, n), run[i].caches)
    decreases i
  {
    if i > 0 {
      RunFills(run, steps, n, i - 1);
      assert Next(run[i - 1], steps[i - 1], run[i]);
      forall x | Arrives(run[i - 1], steps[i - 1], x) ensures x in Arrived(run, steps, n) {
        assert ArrivesAt(run, steps, i - 1, x);
      }
      StepFills(Arrived(run, steps, n), run[i - 1], steps[i - 1], run[i]);
    }
  }

  /** A cached chain result is the provider's result for its key, and goes at most two minutes after it came. */
  lemma CachedResultsAreRecent(run: seq<World>, steps: seq<Step>, i: nat, key: ChainKey) returns (j: nat)
    requires IsRun(run, steps) && Init(run[0]) && i < |run| && key in run[i].caches.chain
    ensures var e := run[i].caches.chain[key];
            && j < i && steps[j].OfFetch? && steps[j].f in run[j].fetches && run[j].fetches[steps[j].f].key == key
            && steps[j].fetch == FetchReturns(e.value) && e.expiresAt <= run[j].now + Lifetime(e.value)
  {
    RunFills(run, steps, i, i);
    var e := run[i].caches.chain[key];
    assert Recent(Arrived(run, steps, i), key, e, Lifetime(e.value));
    var at :| Arrival(key, e.value, at) in Arrived(run, steps, i) && e.expiresAt <= at + Lifetime(e.value);
    j :| j < i && ArrivesAt(run, steps, j, Arrival(key, e.value, at));
  }

  /** The last known good result of a chain was good when it came, and goes a quarter of an hour later. */
  lemma LastKnownGoodIsGood(run: seq<World>, steps: seq<Step>, i: nat, key: ChainKey) returns (j: nat)
    requires IsRun(run, steps) && Init(run[0]) && i < |run| && key in run[i].caches.chainGood
    ensures var e := run[i].caches.chainGood[key];
            && Good(e.value)
            && (e.source.LiveSource? ==>
                  && j < i && steps[j].OfFetch? && steps[j].f in run[j].fetches && run[j].fetches[steps[j].f].key == key
                  && steps[j].fetch == FetchReturns(e.value) && e.expiresAt <= run[j].now + 15 * 60 * 1000)
  {
    RunFills(run, steps, i, i);
    var e := run[i].caches.chainGood[key];
    j := 0;
    if e.source.LiveSource? {
      assert Recent(Arrived(run, steps, i), key, e, 15 * 60 * 1000);
      var at :| Arrival(key, e.value, at) in Arrived(run, steps, i) && e.expiresAt <= at + 15 * 60 * 1000;
      j :| j < i && ArrivesAt(run, steps, j, Arrival(key, e.value, at));
    }
  }

  // ---- Whole answers ----

  /** An answer made under this key at this time. */
  datatype Given = Given(key: AggKey, answer: Portfolio, at: int)

  ghost predicate Gives(s: World, step: Step, x: Given) {
    && x.at == s.now && Data.Computes(s, step, x.answer)
    && match step
       case OfJob(j, _) => j in s.jobs && s.jobs[j].key == x.key
       case OfRequest(r, _) => r in s.requests && s.requests[r].LoadingPersisted? && s.requests[r].key == x.key
       case _ => false
  }

  /** Two minutes for an answer with nothing missing, a quarter of one for any other. */
  function AnswerLifetime(p: Portfolio): int {
    if !p.partial && p.available && p.reason == [] && p.total.Some? then 120 * 1000 else 15 * 1000
  }

  predicate GoodAnswer(p: Portfolio) {
    PageLimit !in p.reason && (Items(p.parts) != [] || (p.available && p.total == Some(0) && !p.partial))
  }

  ghost predicate RecentAnswer(given: iset<Given>, key: AggKey, e: Entry<Portfolio>, lifetime: int) {
    exists at :: Given(key, e.value, at) in given && e.expiresAt <= at + lifetime
  }

  ghost predicate AnswersRecent(given: iset<Given>, m: Caches) {
    && (forall k | k in m.agg :: RecentAnswer(given, k, m.agg[k], AnswerLifetime(m.agg[k].value)))
    && (forall k | k in m.aggGood :: GoodAnswer(m.aggGood[k].value) && RecentAnswer(given, k, m.aggGood[k], 15 * 60 * 1000))
  }

  lemma AnswerPut(given: iset<Given>, m: Caches, now: int, key: AggKey, p: Portfolio, source: Source)
    requires AnswersRecent(given, m) && Given(key, p, now) in given
    ensures AnswersRecent(given, SetAgg(m, now, key, p, source))
    ensures AnswersRecent(given, SetAggGood(m, now, key, p, source))
  {
    assert RecentAnswer(given, key, SetAgg(m, now, key, p, source).agg[key], AnswerLifetime(p));
    if UsablePortfolio(p) { assert RecentAnswer(given, key, SetAggGood(m, now, key, p, source).aggGood[key], 15 * 60 * 1000); }
  }

  lemma AnswersStand(given: iset<Given>, m: Caches, m': Caches)
    requires AnswersRecent(given, m) && m'.agg == m.agg && m'.aggGood == m.aggGood
    ensures AnswersRecent(given, m')
  {
  }

  lemma LoadGives(given: iset<Given>, s: World, r: RequestId, parts: seq<Part>, j: JobId, s': World)
    requires AnswersRecent(given, s.caches) && RequestNext(s, r, Loaded(parts, j), s')
    requires parts != [] ==> Given(s.requests[r].key, PersistedAggregate(s.requests[r].wallet, parts), s.now) in given
    ensures AnswersRecent(given, s'.caches)
  {
    if parts != [] {
      var w, key := s.requests[r].wallet, s.requests[r].key;
      var p, m := PersistedAggregate(w, parts), Hydrate(s.caches, s.now, w, parts);
      Data.HydrateKeepsAnswers(s.caches, s.now, w, parts);
      AnswersStand(given, s.caches, m);
      AnswerPut(given, m, s.now, key, p, PersistedSource);
      AnswerPut(given, SetAgg(m, s.now, key, p, PersistedSource), s.now, key, p, PersistedSource);
    }
  }

  lemma RequestGives(given: iset<Given>, s: World, r: RequestId, act: RequestAct, s': World)
    requires AnswersRecent(given, s.caches) && RequestNext(s, r, act, s') && forall x | Gives(s, OfRequest(r, act), x) :: x in given
    ensures AnswersRecent(given, s'.caches)
  {
    if act.Loaded? {
      if act.parts != [] {
        assert Gives(s, OfRequest(r, act), Given(s.requests[r].key, PersistedAggregate(s.requests[r].wallet, act.parts), s.now));
      }
      LoadGives(given, s, r, act.parts, act.job, s');
    } else {
      RequestsKeepChains(s, r, act, s');
    }
  }

  lemma EndGives(given: iset<Given>, s: World, j: JobId, act: JobAct, p: Portfolio, s': World)
    requires AnswersRecent(given, s.caches) && JobNext(s, j, act, s') && Given(s.jobs[j].key, p, s.now) in given
    requires (act.FinishJob? || (act.CatchJob? && s.jobs[j].good.Some?)) && Data.Computes(s, OfJob(j, act), p)
    ensures AnswersRecent(given, s'.caches)
  {
    var key := s.jobs[j].key;
    AnswerPut(given, s.caches, s.now, key, p, LiveSource);
    AnswerPut(given, SetAgg(s.caches, s.now, key, p, LiveSource), s.now, key, p, LiveSource);
  }

  lemma JobsKeepAnswers(s: World, j: JobId, act: JobAct, s': World)
    requires JobNext(s, j, act, s') && !act.FinishJob? && !(act.CatchJob? && s.jobs[j].good.Some?)
    ensures s'.caches == s.caches
  {
  }

  lemma JobGives(given: iset<Given>, s: World, j: JobId, act: JobAct, s': World)
    requires AnswersRecent(given, s.caches) && JobNext(s, j, act, s') && forall x | Gives(s, OfJob(j, act), x) :: x in given
    ensures AnswersRecent(given, s'.caches)
  {
    if act.FinishJob? {
      var p := Data.FinishedAnswer(s.caches, s.now, s.jobs[j]);
      assert Gives(s, OfJob(j, act), Given(s.jobs[j].key, p, s.now));
      EndGives(given, s, j, act, p, s');
    } else if act.CatchJob? && s.jobs[j].good.Some? {
      var p := StaleFallback(s.jobs[j].good.value, FetchFailedStaleCache(act.timeout));
      assert Gives(s, OfJob(j, act), Given(s.jobs[j].key, p, s.now));
      EndGives(given, s, j, act, p, s');
    } else {
      JobsKeepAnswers(s, j, act, s');
    }
  }

  lemma StepGives(given: iset<Given>, s: World, step: Step, s': World)
    requires AnswersRecent(given, s.caches) && Next(s, step, s') && forall x | Gives(s, step, x) :: x in given
    ensures AnswersRecent(given, s'.caches)
  {
    match step
    case Tick(_) =>
    case OtherProcessWrites(_, _) =>
    case OfRequest(r, act) => RequestGives(given, s, r, act, s');
    case OfJob(j, act) => JobGives(given, s, j, act, s');
    case OfFetch(f, act) =>
      Data.FetchKeepsAnswers(s, f, act, s');
      AnswersStand(given, s.caches, s'.caches);
  }

  ghost predicate GivesAt(run: seq<World>, steps: seq<Step>, j: nat, x: Given)
    requires j < |steps| < |run|
  {
    Gives(run[j], steps[j], x)
  }

  ghost predicate GivenBefore(run: seq<World>, steps: seq<Step>, n: nat, x: Given)
    requires n <= |steps| < |run|
  {
    exists j: nat | j < n :: GivesAt(run, steps, j, x)
  }

  ghost function AllGiven(run: seq<World>, steps: seq<Step>, n: nat): iset<Given>
    requires n <= |steps| < |run|
  {
    iset x | GivenBefore(run, steps, n, x)
  }

  lemma {:induction false} RunGives(run: seq<World>, steps: seq<Step>, n: nat, i: nat)
    requires IsRun(run, steps) && Init(run[0]) && i <= n <= |steps|
    ensures AnswersRecent(AllGiven(run, steps, n), run[i].caches)
    decreases i
  {
    if i > 0 {
      RunGives(run, steps, n, i - 1);
      assert Next(run[i - 1], steps[i - 1], run[i]);
      forall x | Gives(run[i - 1], steps[i - 1], x) ensures x in AllGiven(run, steps, n) {
        assert GivesAt(run, steps, i - 1, x);
      }
      StepGives(AllGiven(run, steps, n), run[i - 1], steps[i - 1], run[i]);
    }
  }

  /** A cached answer was made under its key by one step, and goes at most two minutes later, fifteen seconds if anything is missing. */
  lemma CachedAnswersAreRecent(run: seq<World>, steps: seq<Step>, i: nat, key: AggKey) returns (j: nat)
    requires IsRun(run, steps) && Init(run[0]) && i < |run| && key in run[i].caches.agg
    ensures var e := run[i].caches.agg[key];
            && j < i && Gives(run[j], steps[j], Given(key, e.value, run[j].now)) && Data.Tells(run[j], steps[j], e.value)
            && e.expiresAt <= run[j].now + AnswerLifetime(e.value)
  {
    RunGives(run, steps, i, i);
    var e := run[i].caches.agg[key];
    assert RecentAnswer(AllGiven(run, steps, i), key, e, AnswerLifetime(e.value));
    var at :| Given(key, e.value, at) in AllGiven(run, steps, i) && e.expiresAt <= at + AnswerLifetime(e.value);
    j :| j < i && GivesAt(run, steps, j, Given(key, e.value, at));
    Data.ComputesTells(run[j], steps[j], e.value);
  }

  /** The last known good answer is worth falling back to, and goes a quarter of an hour after it was made. */
  lemma LastKnownGoodAnswerIsGood(run: seq<World>, steps: seq<Step>, i: nat, key: AggKey) returns (j: nat)
    requires IsRun(run, steps) && Init(run[0]) && i < |run| && key in run[i].caches.aggGood
    ensures var e := run[i].caches.aggGood[key];
            && GoodAnswer(e.value) && j < i && Gives(run[j], steps[j], Given(key, e.value, run[j].now))
            && e.expiresAt <= run[j].now + 15 * 60 * 1000
  {
    RunGives(run, steps, i, i);
    var e := run[i].caches.aggGood[key];
    assert RecentAnswer(AllGiven(run, steps, i), key, e, 15 * 60 * 1000);
    var at :| Given(key, e.value, at) in AllGiven(run, steps, i) && e.expiresAt <= at + 15 * 60 * 1000;
    j :| j < i && GivesAt(run, steps, j, Given(key, e.value, at));
  }
}
