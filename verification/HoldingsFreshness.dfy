/** An answer without a caveat uses no result kept for a failing provider: each was read before it expired, or fetched for it. */
module HoldingsFreshness {
  import opened Chains
  import opened WalletRecords
  import opened Wrappers
  import opened HoldingsModel
  import opened HoldingsCaches
  import opened HoldingsProtocol
  import Answers = HoldingsAnswers
  import Data = HoldingsData
  import Provenance = HoldingsProvenance

  /** This computation took this result for its i-th chain. */
  datatype Use = Use(job: JobId, index: nat, result: ChainHoldings)

  /** It was in the chain cache and had not expired, or it is what the fetch the chain waited for returned. */
  ghost predicate Takes(s: World, step: Step, x: Use) {
    && step.OfJob? && step.j == x.job && x.job in s.jobs && s.jobs[x.job].stage.Resolving?
    && var w, chains := s.jobs[x.job].wallet, s.jobs[x.job].stage.chains;
    && x.index < |SupportedChains(w)|
    && var key := KeyOf(w, SupportedChains(w)[x.index]);
    && match step.job
       case ResolveNext(_) => x.index == |chains| && key in s.caches.chain && s.now < s.caches.chain[key].expiresAt && s.caches.chain[key].value == x.result
       case Settle(i) =>
         && i == x.index < |chains| && chains[i].Pending? && chains[i].fetch in s.fetches && s.fetches[chains[i].fetch].stage == Fetched(x.result)
       case _ => false
  }

  ghost predicate ChainTaken(taken: iset<Use>, j: JobId, i: nat, x: ChainState) {
    x.Resolved? && x.resolution.Available? && x.resolution.reasons == [] ==> Use(j, i, x.resolution.holdings) in taken
  }

  ghost predicate JobTaken(taken: iset<Use>, j: JobId, job: Job) {
    job.stage.Resolving? ==> forall i: nat | i < |job.stage.chains| :: ChainTaken(taken, j, i, job.stage.chains[i])
  }

  ghost predicate AllTaken(taken: iset<Use>, jobs: map<JobId, Job>) {
    forall j | j in jobs :: JobTaken(taken, j, jobs[j])
  }

  lemma JobPut(taken: iset<Use>, jobs: map<JobId, Job>, j: JobId, job: Job)
    requires AllTaken(taken, jobs) && JobTaken(taken, j, job)
    ensures AllTaken(taken, jobs[j := job])
  {
  }

  lemma NextChainTaken(taken: iset<Use>, s: World, j: JobId, f: FetchId, s': World)
    requires AllTaken(taken, s.jobs) && JobNext(s, j, ResolveNext(f), s') && forall x | Takes(s, OfJob(j, ResolveNext(f)), x) :: x in taken
    ensures AllTaken(taken, s'.jobs)
  {
    var job := s.jobs[j];
    var n := |job.stage.chains|;
    var key := KeyOf(job.wallet, SupportedChains(job.wallet)[n]);
    var x := FirstState(s.caches, s.now, s.fetchInFlight, key, job.key.live, f);
    if x.Resolved? { assert Takes(s, OfJob(j, ResolveNext(f)), Use(j, n, x.resolution.holdings)); }
    assert JobTaken(taken, j, job) && ChainTaken(taken, j, n, x);
    ChainJoins(taken, j, job, x);
    JobPut(taken, s.jobs, j, job.(stage := Resolving(job.stage.chains + [x])));
  }

  lemma ChainJoins(taken: iset<Use>, j: JobId, job: Job, x: ChainState)
    requires JobTaken(taken, j, job) && job.stage.Resolving? && ChainTaken(taken, j, |job.stage.chains|, x)
    ensures JobTaken(taken, j, job.(stage := Resolving(job.stage.chains + [x])))
  {
  }

  lemma ChainSettles(taken: iset<Use>, j: JobId, job: Job, i: nat, r: Resolution)
    requires JobTaken(taken, j, job) && job.stage.Resolving? && i < |job.stage.chains| && ChainTaken(taken, j, i, Resolved(r))
    ensures JobTaken(taken, j, ResolveAt(job, i, r))
  {
  }

  lemma SettledTaken(taken: iset<Use>, s: World, j: JobId, i: nat, s': World)
    requires AllTaken(taken, s.jobs) && JobNext(s, j, Settle(i), s') && forall x | Takes(s, OfJob(j, Settle(i)), x) :: x in taken
    ensures AllTaken(taken, s'.jobs)
  {
    var job := s.jobs[j];
    var p, c := job.stage.chains[i], SupportedChains(job.wallet)[i];
    var stage := s.fetches[p.fetch].stage;
    var r := if stage.Fetched? then Available(stage.result, []) else WithStale(p.stale, FetchFailed(c), c);
    if stage.Fetched? { assert Takes(s, OfJob(j, Settle(i)), Use(j, i, stage.result)); }
    assert JobTaken(taken, j, job) && ChainTaken(taken, j, i, Resolved(r));
    ChainSettles(taken, j, job, i, r);
    JobPut(taken, s.jobs, j, ResolveAt(job, i, r));
  }

  lemma TimedOutTaken(taken: iset<Use>, s: World, j: JobId, i: nat, s': World)
    requires AllTaken(taken, s.jobs) && JobNext(s, j, TimeOut(i), s')
    ensures AllTaken(taken, s'.jobs)
  {
    var job := s.jobs[j];
    var p, c := job.stage.chains[i], SupportedChains(job.wallet)[i];
    assert JobTaken(taken, j, job) && ChainTaken(taken, j, i, Resolved(WithStale(p.stale, FetchTimeout(c), c)));
    ChainSettles(taken, j, job, i, WithStale(p.stale, FetchTimeout(c), c));
    JobPut(taken, s.jobs, j, ResolveAt(job, i, WithStale(p.stale, FetchTimeout(c), c)));
  }

  lemma JobStep(taken: iset<Use>, s: World, j: JobId, act: JobAct, s': World)
    requires AllTaken(taken, s.jobs) && JobNext(s, j, act, s') && forall x | Takes(s, OfJob(j, act), x) :: x in taken
    ensures AllTaken(taken, s'.jobs)
  {
    match act
    case ResolveNext(f) => NextChainTaken(taken, s, j, f, s');
    case Settle(i) => SettledTaken(taken, s, j, i, s');
    case TimeOut(i) => TimedOutTaken(taken, s, j, i, s');
    case _ => JobPut(taken, s.jobs, j, s'.jobs[j]);
  }

  lemma RequestStep(taken: iset<Use>, s: World, r: RequestId, act: RequestAct, s': World)
    requires AllTaken(taken, s.jobs) && RequestNext(s, r, act, s')
    ensures AllTaken(taken, s'.jobs)
  {
    RequestsCreate(s, r, act, s');
  }

  /** A request changes no computation but may create one. */
  lemma RequestsCreate(s: World, r: RequestId, act: RequestAct, s': World)
    requires RequestNext(s, r, act, s')
    ensures forall j | j in s'.jobs :: (j in s.jobs && s'.jobs[j] == s.jobs[j]) || s'.jobs[j].stage.Created?
  {
  }

  lemma StepTakes(taken: iset<Use>, s: World, step: Step, s': World)
    requires AllTaken(taken, s.jobs) && Next(s, step, s') && forall x | Takes(s, step, x) :: x in taken
    ensures AllTaken(taken, s'.jobs)
  {
    match step
    case Tick(_) =>
    case OtherProcessWrites(_, _) =>
    case OfRequest(r, act) => RequestStep(taken, s, r, act, s');
    case OfJob(j, act) => JobStep(taken, s, j, act, s');
    case OfFetch(f, act) => Data.FetchKeepsAnswers(s, f, act, s');
  }

  ghost predicate TakesAt(run: seq<World>, steps: seq<Step>, m: nat, x: Use)
    requires m < |steps| < |run|
  {
    Takes(run[m], steps[m], x)
  }

  ghost predicate TakenBefore(run: seq<World>, steps: seq<Step>, n: nat, x: Use)
    requires n <= |steps| < |run|
  {
    exists m: nat | m < n :: TakesAt(run, steps, m, x)
  }

  ghost function Taken(run: seq<World>, steps: seq<Step>, n: nat): iset<Use>
    requires n <= |steps| < |run|
  {
    iset x | TakenBefore(run, steps, n, x)
  }

  lemma {:induction false} RunTakes(run: seq<World>, steps: seq<Step>, n: nat, i: nat)
    requires IsRun(run, steps) && Init(run[0]) && i <= n <= |steps|
    ensures AllTaken(Taken(run, steps, n), run[i].jobs)
    decreases i
  {
    if i > 0 {
      RunTakes(run, steps, n, i - 1);
      assert Next(run[i - 1], steps[i - 1], run[i]);
      forall x | Takes(run[i - 1], steps[i - 1], x) ensures x in Taken(run, steps, n) {
        assert TakesAt(run, steps, i - 1, x);
      }
      StepTakes(Taken(run, steps, n), run[i - 1], steps[i - 1], run[i]);
    }
  }

  /** The reasons of an unqualified answer's chains are empty, so nothing was fallen back to. */
  lemma {:induction false} NoReasonsAnywhere(cs: seq<Chain>, rs: seq<Resolution>, i: nat)
    requires |cs| == |rs| && Reasons(cs, rs) == [] && i < |rs|
    ensures rs[i].reasons == []
    decreases |cs|
  {
    var n := |cs| - 1;
    if i < n { NoReasonsAnywhere(cs[..n], rs[..n], i); }
  }

  /** A computation's unqualified answer lists exactly what it resolved its chains to. */
  lemma UnqualifiedParts(w: Wallet, rs: seq<Resolution>, good: Option<Portfolio>, stale: seq<Part>)
    requires |rs| == |SupportedChains(w)| && (forall i | 0 <= i < |rs| && rs[i].Unavailable? :: rs[i].reasons != [])
    requires !Answer(w, rs, good, stale).partial
    ensures var p := Answer(w, rs, good, stale);
            && |p.parts| == |rs| && forall i | 0 <= i < |rs| :: rs[i].Available? && rs[i].reasons == [] && p.parts[i] == Part(SupportedChains(w)[i], rs[i].holdings)
  {
    var cs := SupportedChains(w);
    UnqualifiedHasNoReasons(w, rs, good, stale);
    NoReasonsMeansWhole(cs, rs);
    forall i | 0 <= i < |rs| ensures rs[i].Available? && rs[i].reasons == [] && Parts(cs, rs)[i] == Part(cs[i], rs[i].holdings) {
      assert ResolvedWhole(cs, rs, Parts(cs, rs), i);
      NoReasonsAnywhere(cs, rs, i);
    }
  }

  /** Only a finished computation makes an answer without a caveat. */
  lemma UnqualifiedIsFinished(s: World, step: Step, p: Portfolio)
    requires Data.Computes(s, step, p) && !p.partial
    ensures step.OfJob? && step.job.FinishJob? && step.j in s.jobs && AllResolved(s.jobs[step.j]) && p == Data.FinishedAnswer(s.caches, s.now, s.jobs[step.j])
  {
    if step.OfRequest? { Answers.PersistedIsMeant(s.requests[step.r].wallet, step.request.parts); }
  }

  lemma FinishedIsTaken(taken: iset<Use>, asked: set<Wallet>, s: World, j: JobId)
    requires AllTaken(taken, s.jobs) && Provenance.Inv(asked, s) && j in s.jobs && AllResolved(s.jobs[j])
    ensures var p := Data.FinishedAnswer(s.caches, s.now, s.jobs[j]);
            !p.partial ==> forall k: nat | k < |p.parts| :: Use(j, k, p.parts[k].holdings) in taken
  {
    var job := s.jobs[j];
    var p, rs := Data.FinishedAnswer(s.caches, s.now, job), Resolutions(job.stage.chains);
    assert Provenance.JobOk(asked, s.fetches, job);
    if !p.partial {
      forall i | 0 <= i < |rs| && rs[i].Unavailable? ensures rs[i].reasons != [] {
        assert Provenance.ChainStateOk(s.fetches, job.key.live, Provenance.OriginAt(job.wallet, i), job.stage.chains[i]);
      }
      UnqualifiedParts(job.wallet, rs, job.good, StaleParts(s.caches, s.now, job.wallet, SupportedChains(job.wallet), job.key.live));
      assert JobTaken(taken, j, job);
      forall k: nat | k < |p.parts| ensures Use(j, k, p.parts[k].holdings) in taken {
        assert ChainTaken(taken, j, k, job.stage.chains[k]);
      }
    }
  }

  /** The j-th step finishes a computation that took every result of this answer before. */
  ghost predicate TookAll(run: seq<World>, steps: seq<Step>, j: nat, p: Portfolio)
    requires j < |steps| < |run|
  {
    && steps[j].OfJob? && steps[j].job.FinishJob?
    && forall k: nat | k < |p.parts| :: TakenBefore(run, steps, j, Use(steps[j].j, k, p.parts[k].holdings))
  }

  lemma TakenIsBefore(run: seq<World>, steps: seq<Step>, j: nat, p: Portfolio)
    requires j < |steps| < |run| && steps[j].OfJob? && steps[j].job.FinishJob?
    requires forall k: nat | k < |p.parts| :: Use(steps[j].j, k, p.parts[k].holdings) in Taken(run, steps, j)
    ensures TookAll(run, steps, j, p)
  {
  }

  lemma MadeOfTaken(run: seq<World>, steps: seq<Step>, j: nat, p: Portfolio)
    requires IsRun(run, steps) && Init(run[0]) && j < |steps| && Data.Computes(run[j], steps[j], p) && !p.partial
    ensures TookAll(run, steps, j, p)
  {
    UnqualifiedIsFinished(run[j], steps[j], p);
    RunTakes(run, steps, j, j);
    Provenance.RunInv(Provenance.Asked(steps), run, steps, j);
    FinishedIsTaken(Taken(run, steps, j), Provenance.Asked(steps), run[j], steps[j].j);
    TakenIsBefore(run, steps, j, p);
  }

  /**
   Every result in an answer without a caveat was taken by the computation that made it, from an unexpired cache
   entry or from the fetch it waited for, so nothing that was kept for a failing or slow provider is in it.
   */
  lemma UnqualifiedAnswersAreFresh(run: seq<World>, steps: seq<Step>, i: nat, r: RequestId) returns (j: nat)
    requires IsRun(run, steps) && Init(run[0]) && i < |run|
    requires r in run[i].requests && run[i].requests[r].Answered? && !run[i].requests[r].result.partial
    ensures j < i && TookAll(run, steps, j, run[i].requests[r].result)
  {
    j := Data.AnswersWereMade(run, steps, i, r);
    MadeOfTaken(run, steps, j, run[i].requests[r].result);
  }
}
