/**
 A run in which a live request is answered: every chain of the wallet is fetched in turn and the provider answers
 each with an empty, complete result.
 */
module HoldingsLiveRun {
  import opened Chains
  import opened WalletRecords
  import opened Wrappers
  import opened HoldingsModel
  import opened HoldingsCaches
  import opened HoldingsProtocol
  import opened HoldingsProvenance

  function LiveKey(w: Wallet): AggKey {
    KeyOfRequest(w, false, true)
  }

  /** What the provider answers. */
  function Complete(o: Origin): ChainHoldings {
    ChainHoldings([], Some(0), true, [], false, false, o)
  }

  lemma OneStepMore(run: seq<World>, steps: seq<Step>, asked: set<Wallet>, step: Step, s': World)
    requires Possible(run, steps, asked) && Next(run[|steps|], step, s') && AsksWithin(step, asked)
    ensures Possible(run + [s'], steps + [step], asked)
  {
    forall i | 0 <= i < |steps| + 1 ensures Next((run + [s'])[i], (steps + [step])[i], (run + [s'])[i + 1]) {
      if i < |steps| { assert Next(run[i], steps[i], run[i + 1]); }
    }
  }

  lemma LargerAsked(run: seq<World>, steps: seq<Step>, few: set<Wallet>, many: set<Wallet>)
    requires Possible(run, steps, few) && few <= many
    ensures Possible(run, steps, many)
  {
    forall i | 0 <= i < |steps| ensures AsksWithin(steps[i], many) {
      assert AsksWithin(steps[i], few);
    }
  }

  ghost predicate WholeAt(chains: seq<ChainState>, i: nat)
    requires i < |chains|
  {
    chains[i].Resolved? && chains[i].resolution.Available? && chains[i].resolution.reasons == [] && WholeChain(chains[i].resolution.holdings)
  }

  /** The request waits for computation 0, whose first `k` chains are resolved to whole results. */
  ghost predicate Midway(s: World, w: Wallet, k: nat) {
    && s.requests == map[0 := Awaiting(true, w, 0)]
    && 0 in s.jobs && s.jobs[0].wallet == w && s.jobs[0].key == LiveKey(w) && s.jobs[0].stage.Resolving?
    && |s.jobs[0].stage.chains| == k <= |SupportedChains(w)|
    && (forall i | 0 <= i < k :: WholeAt(s.jobs[0].stage.chains, i))
    && s.fetchInFlight == map[] && (forall f | f in s.fetches :: f < k)
    && forall key | key in s.caches.chain :: WholeChain(s.caches.chain[key].value)
  }

  function Empty(): World {
    World(0, Caches(map[], map[], map[], map[]), map[], map[], map[], map[], map[], map[])
  }

  function Asking(w: Wallet): World {
    Empty().(requests := map[0 := Awaiting(true, w, 0)], jobs := map[0 := Job(LiveKey(w), w, None, Created)], jobInFlight := map[LiveKey(w) := 0])
  }

  lemma Begins(w: Wallet) returns (run: seq<World>, steps: seq<Step>)
    requires SupportedChains(w) != []
    ensures Possible(run, steps, {w}) && Midway(run[|steps|], w, 0)
  {
    var ask, s := OfRequest(0, Ask(w, false, true, 0)), PutJob(Asking(w), 0, Job(LiveKey(w), w, None, Resolving([])));
    assert Possible([Empty()], [], {w});
    OneStepMore([Empty()], [], {w}, ask, Asking(w));
    OneStepMore([Empty()] + [Asking(w)], [] + [ask], {w}, OfJob(0, StartJob), s);
    run, steps := [Empty()] + [Asking(w)] + [s], [] + [ask] + [OfJob(0, StartJob)];
  }

  // ---- One chain more ----

  function ChainAt(w: Wallet, k: nat): Chain
    requires k < |SupportedChains(w)|
  {
    SupportedChains(w)[k]
  }

  function KeyAt(w: Wallet, k: nat): ChainKey
    requires k < |SupportedChains(w)|
  {
    KeyOf(w, ChainAt(w, k))
  }

  function WithChain(s: World, x: ChainState): World
    requires 0 in s.jobs && s.jobs[0].stage.Resolving?
  {
    PutJob(s, 0, s.jobs[0].(stage := Resolving(s.jobs[0].stage.chains + [x])))
  }

  /** The state after the fetch of chain `k` was started under id `k`. */
  function Started(s: World, w: Wallet, k: nat): World
    requires 0 in s.jobs && s.jobs[0].stage.Resolving? && k < |SupportedChains(w)|
  {
    var key := KeyAt(w, k);
    WithChain(s, Pending(k, Lookup(s.caches.chainGood, key, s.now, true))).(
      fetches := s.fetches[k := Fetch(key, OriginAt(w, k), Running)], fetchInFlight := s.fetchInFlight[key := k])
  }

  lemma Starts(s: World, w: Wallet, k: nat)
    requires Midway(s, w, k) && k < |SupportedChains(w)| && Lookup(s.caches.chain, KeyAt(w, k), s.now, true).None?
    ensures Next(s, OfJob(0, ResolveNext(k)), Started(s, w, k))
  {
  }

  function Returned(s: World, w: Wallet, k: nat): World
    requires 0 in s.jobs && s.jobs[0].stage.Resolving? && k < |SupportedChains(w)|
  {
    var s1, key, h := Started(s, w, k), KeyAt(w, k), Complete(OriginAt(w, k));
    s1.(caches := SetChainGood(SetChain(s1.caches, s1.now, key, h), s1.now, key, h, LiveSource),
        fetches := s1.fetches[k := Fetch(key, OriginAt(w, k), Persisting(h))])
  }

  function Persisted(s: World, w: Wallet, k: nat): World
    requires 0 in s.jobs && s.jobs[0].stage.Resolving? && k < |SupportedChains(w)|
  {
    var s2, key := Returned(s, w, k), KeyAt(w, k);
    s2.(fetches := s2.fetches[k := Fetch(key, OriginAt(w, k), Fetched(Complete(OriginAt(w, k))))], fetchInFlight := s2.fetchInFlight - {key})
  }

  function Settled(s: World, w: Wallet, k: nat): World
    requires 0 in s.jobs && s.jobs[0].stage.Resolving? && k < |SupportedChains(w)|
  {
    var s3 := Persisted(s, w, k);
    PutJob(s3, 0, s.jobs[0].(stage := Resolving(s.jobs[0].stage.chains + [Resolved(Available(Complete(OriginAt(w, k)), []))])))
  }

  lemma Returns(s: World, w: Wallet, k: nat)
    requires Midway(s, w, k) && k < |SupportedChains(w)|
    ensures Next(Started(s, w, k), OfFetch(k, FetchReturns(Complete(OriginAt(w, k)))), Returned(s, w, k))
  {
  }

  lemma Persists(s: World, w: Wallet, k: nat)
    requires Midway(s, w, k) && k < |SupportedChains(w)|
    ensures Next(Returned(s, w, k), OfFetch(k, FetchPersists(false)), Persisted(s, w, k))
  {
  }

  lemma Settles(s: World, w: Wallet, k: nat)
    requires Midway(s, w, k) && k < |SupportedChains(w)|
    ensures Next(Persisted(s, w, k), OfJob(0, Settle(k)), Settled(s, w, k))
  {
    var chains := s.jobs[0].stage.chains;
    var x := Pending(k, Lookup(s.caches.chainGood, KeyAt(w, k), s.now, true));
    var done := Resolved(Available(Complete(OriginAt(w, k)), []));
    assert (chains + [x])[k := done] == chains + [done];
  }

  lemma SettledIsMidway(s: World, w: Wallet, k: nat)
    requires Midway(s, w, k) && k < |SupportedChains(w)|
    ensures Midway(Settled(s, w, k), w, k + 1)
  {
    var s' := Settled(s, w, k);
    assert s'.fetchInFlight == map[];
    forall i | 0 <= i < k + 1 ensures WholeAt(s'.jobs[0].stage.chains, i) {
      if i < k { assert WholeAt(s.jobs[0].stage.chains, i); }
    }
  }

  lemma FetchesChain(run: seq<World>, steps: seq<Step>, w: Wallet, k: nat) returns (run': seq<World>, steps': seq<Step>)
    requires Possible(run, steps, {w}) && Midway(run[|steps|], w, k) && k < |SupportedChains(w)|
    requires Lookup(run[|steps|].caches.chain, KeyAt(w, k), run[|steps|].now, true).None?
    ensures Possible(run', steps', {w}) && Midway(run'[|steps'|], w, k + 1)
  {
    var s := run[|steps|];
    Starts(s, w, k);
    Returns(s, w, k);
    OneStepMore(run, steps, {w}, OfJob(0, ResolveNext(k)), Started(s, w, k));
    run', steps' := run + [Started(s, w, k)], steps + [OfJob(0, ResolveNext(k))];
    OneStepMore(run', steps', {w}, OfFetch(k, FetchReturns(Complete(OriginAt(w, k)))), Returned(s, w, k));
    run', steps' := run' + [Returned(s, w, k)], steps' + [OfFetch(k, FetchReturns(Complete(OriginAt(w, k))))];
    run', steps' := StoresChain(run', steps', s, w, k);
  }

  lemma StoresChain(run: seq<World>, steps: seq<Step>, s: World, w: Wallet, k: nat) returns (run': seq<World>, steps': seq<Step>)
    requires Midway(s, w, k) && k < |SupportedChains(w)| && Possible(run, steps, {w}) && run[|steps|] == Returned(s, w, k)
    ensures Possible(run', steps', {w}) && Midway(run'[|steps'|], w, k + 1)
  {
    Persists(s, w, k);
    Settles(s, w, k);
    SettledIsMidway(s, w, k);
    OneStepMore(run, steps, {w}, OfFetch(k, FetchPersists(false)), Persisted(s, w, k));
    run', steps' := run + [Persisted(s, w, k)], steps + [OfFetch(k, FetchPersists(false))];
    OneStepMore(run', steps', {w}, OfJob(0, Settle(k)), Settled(s, w, k));
    run', steps' := run' + [Settled(s, w, k)], steps' + [OfJob(0, Settle(k))];
  }

  /** A chain listed twice would be served from the chain cache the second time. */
  lemma FindsChain(run: seq<World>, steps: seq<Step>, w: Wallet, k: nat) returns (run': seq<World>, steps': seq<Step>)
    requires Possible(run, steps, {w}) && Midway(run[|steps|], w, k) && k < |SupportedChains(w)|
    requires Lookup(run[|steps|].caches.chain, KeyAt(w, k), run[|steps|].now, true).Some?
    ensures Possible(run', steps', {w}) && Midway(run'[|steps'|], w, k + 1)
  {
    var s := run[|steps|];
    var s' := WithChain(s, FirstState(s.caches, s.now, s.fetchInFlight, KeyAt(w, k), true, k));
    OneStepMore(run, steps, {w}, OfJob(0, ResolveNext(k)), s');
    run', steps' := run + [s'], steps + [OfJob(0, ResolveNext(k))];
    forall i | 0 <= i < k + 1 ensures WholeAt(s'.jobs[0].stage.chains, i) {
      if i < k { assert WholeAt(s.jobs[0].stage.chains, i); }
    }
  }

  lemma {:induction false} ResolvesChains(w: Wallet, k: nat) returns (run: seq<World>, steps: seq<Step>)
    requires SupportedChains(w) != [] && k <= |SupportedChains(w)|
    ensures Possible(run, steps, {w}) && Midway(run[|steps|], w, k)
  {
    if k == 0 {
      run, steps := Begins(w);
    } else {
      run, steps := ResolvesChains(w, k - 1);
      var s := run[|steps|];
      if Lookup(s.caches.chain, KeyAt(w, k - 1), s.now, true).Some? {
        run, steps := FindsChain(run, steps, w, k - 1);
      } else {
        run, steps := FetchesChain(run, steps, w, k - 1);
      }
    }
  }

  // ---- The answer ----

  function AnswerOf(s: World, w: Wallet): Portfolio
    requires 0 in s.jobs && AllResolved(s.jobs[0]) && s.jobs[0].wallet == w
  {
    Answer(w, Resolutions(s.jobs[0].stage.chains), s.jobs[0].good, StaleParts(s.caches, s.now, w, SupportedChains(w), s.jobs[0].key.live))
  }

  lemma AnswerIsWhole(s: World, w: Wallet)
    requires SupportedChains(w) != [] && Midway(s, w, |SupportedChains(w)|)
    ensures AllResolved(s.jobs[0]) && AnswerOf(s, w).parts != []
    ensures (forall c | c in EnabledChains(w) :: Supported(c)) ==> !AnswerOf(s, w).partial
  {
    forall i | 0 <= i < |s.jobs[0].stage.chains| ensures s.jobs[0].stage.chains[i].Resolved? {
      assert WholeAt(s.jobs[0].stage.chains, i);
    }
    var rs := Resolutions(s.jobs[0].stage.chains);
    forall i | 0 <= i < |rs| ensures rs[i].Available? && rs[i].reasons == [] && WholeChain(rs[i].holdings) {
      assert WholeAt(s.jobs[0].stage.chains, i);
    }
    NothingAdded(SupportedChains(w), rs);
    if forall c | c in EnabledChains(w) :: Supported(c) {
      WholeAnswerIsUnqualified(w, rs, s.jobs[0].good, StaleParts(s.caches, s.now, w, SupportedChains(w), true));
    }
  }

  function Finishing(s: World, w: Wallet): World
    requires 0 in s.jobs && AllResolved(s.jobs[0]) && s.jobs[0].wallet == w
  {
    var key, p := s.jobs[0].key, AnswerOf(s, w);
    PutJob(s, 0, s.jobs[0].(stage := Finished(p))).(
      caches := SetAggGood(SetAgg(s.caches, s.now, key, p, LiveSource), s.now, key, p, LiveSource), jobInFlight := s.jobInFlight - {key})
  }

  lemma FinishedIsCached(s: World, w: Wallet)
    requires 0 in s.jobs && AllResolved(s.jobs[0]) && s.jobs[0].wallet == w && s.jobs[0].key == LiveKey(w)
    ensures Next(s, OfJob(0, FinishJob), Finishing(s, w))
    ensures Lookup(Finishing(s, w).caches.agg, LiveKey(w), s.now, true) == Some(AnswerOf(s, w))
  {
  }

  lemma Finishes(w: Wallet) returns (run: seq<World>, steps: seq<Step>, p: Portfolio)
    requires SupportedChains(w) != []
    ensures Possible(run, steps, {w}) && run[|steps|].requests == map[0 := Awaiting(true, w, 0)]
    ensures 0 in run[|steps|].jobs && run[|steps|].jobs[0].stage == Finished(p)
    ensures Lookup(run[|steps|].caches.agg, LiveKey(w), run[|steps|].now, true) == Some(p)
    ensures p.parts != [] && ((forall c | c in EnabledChains(w) :: Supported(c)) ==> !p.partial)
  {
    run, steps := ResolvesChains(w, |SupportedChains(w)|);
    var s := run[|steps|];
    AnswerIsWhole(s, w);
    FinishedIsCached(s, w);
    p := AnswerOf(s, w);
    OneStepMore(run, steps, {w}, OfJob(0, FinishJob), Finishing(s, w));
    run, steps := run + [Finishing(s, w)], steps + [OfJob(0, FinishJob)];
  }

  lemma Delivers(s: World, w: Wallet, p: Portfolio)
    requires s.requests == map[0 := Awaiting(true, w, 0)] && 0 in s.jobs && s.jobs[0].stage == Finished(p)
    ensures Next(s, OfRequest(0, Deliver), s.(requests := map[0 := Answered(true, w, p)]))
  {
    assert s.requests[0 := Answered(true, w, p)] == map[0 := Answered(true, w, p)];
  }

  /** The answer is what the request receives and what the wallet-level cache holds for the next one. */
  lemma LiveAnswer(w: Wallet) returns (run: seq<World>, steps: seq<Step>, p: Portfolio)
    requires SupportedChains(w) != []
    ensures Possible(run, steps, {w}) && run[|steps|].requests == map[0 := Answered(true, w, p)]
    ensures Lookup(run[|steps|].caches.agg, LiveKey(w), run[|steps|].now, true) == Some(p)
    ensures p.parts != [] && FetchedFor(w, p.parts)
    ensures (forall c | c in EnabledChains(w) :: Supported(c)) ==> !p.partial
  {
    run, steps, p := Finishes(w);
    var s := run[|steps|];
    Delivers(s, w, p);
    OneStepMore(run, steps, {w}, OfRequest(0, Deliver), s.(requests := map[0 := Answered(true, w, p)]));
    run, steps := run + [s.(requests := map[0 := Answered(true, w, p)])], steps + [OfRequest(0, Deliver)];
    FetchedForOnly(run, steps, w, p);
  }

  /** With one record read, that is what every answer is for. */
  lemma FetchedForOnly(run: seq<World>, steps: seq<Step>, w: Wallet, p: Portfolio)
    requires Possible(run, steps, {w}) && 0 in run[|steps|].requests && run[|steps|].requests[0] == Answered(true, w, p)
    ensures FetchedFor(w, p.parts)
  {
    RunInv({w}, run, steps, |steps|);
    assert RequestOk({w}, run[|steps|].jobs, run[|steps|].requests[0]);
    var key :| KeysTo(w, key) && key.live && Sound({w}, key, p);
    var r :| r in {w} && KeysTo(r, key) && FetchedFor(r, p.parts);
  }
}
