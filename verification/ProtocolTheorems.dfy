/** The main results about the reconciliation protocol, over every run. */
module ProtocolTheorems {
  import opened Chains
  import opened Collections
  import opened Wrappers
  import opened Markers
  import opened WalletWrites
  import opened Protocol
  import opened ProtocolInvariants

  /** The provider watches `p` exactly when no active wallet wants it, or the other way round. */
  ghost predicate Drift(s: World, p: Pair) {
    Desired(s.wallets, p) != (p in s.watched)
  }

  ghost predicate DriftMarked(s: World, p: Pair) {
    Drift(s, p) ==> p in s.markers
  }

  predicate Observes(k: Worker) {
    k.Listed? || k.Confirmed? || k.Completing?
  }

  function Observation(k: Worker): bool
    requires Observes(k)
  {
    match k
    case Listed(_, _, o) => o
    case Confirmed(_, _, o) => o
    case Completing(_, o) => o
  }

  /** A worker whose observation of `p` is out of date and whose claim could still complete the marker. */
  ghost predicate Misled(s: World, a: ActorId, p: Pair) {
    && IsWorker(s, a) && Observes(s.actors[a].worker)
    && s.actors[a].worker.claim.pair == p
    && Observation(s.actors[a].worker) != (p in s.watched)
    && HasToken(s, p, s.actors[a].worker.claim.token)
  }

  /** Drift at `p` is recorded, and nobody is about to erase the record by mistake. */
  ghost predicate Secure(s: World, p: Pair) {
    Drift(s, p) ==> p in s.markers && forall a | a in s.actors :: !Misled(s, a, p)
  }

  // ---- What one step can do to one pair ----

  lemma DesireChangesByCommit(s: World, step: Step, s': World, p: Pair)
    requires Next(s, step, s') && Inv(s) && Supported(p.chain)
    requires Desired(s.wallets, p) != Desired(s'.wallets, p)
    ensures step.Write? && step.write.Commit?
    ensures Holds(s.actors[step.a], PairKey(p)) && Holds(s.actors[step.a], MarkerRow(p))
    ensures p in s'.markers && s'.markers[p] == Dirty(Row(s.markers, p), s.now)
  {
    WalletsChangeByCommit(s, step, s');
    var w := s.actors[step.a].writer;
    assert WriterOk(s, w);
    assert w.op.Create? ==> w.op.wallet !in s.wallets;
    OwnRowsSuffice(s.wallets, w.op);
    ChangeIsMarked(s.wallets, w.op, p);
    assert p in Elements(w.marks) && p in Elements(w.plan);
    assert w.plan[..w.pairsHeld] == w.plan && w.marks[..w.marksHeld] == w.marks;
  }

  lemma WatchChangesByPatch(s: World, step: Step, s': World, p: Pair)
    requires Next(s, step, s') && (p in s.watched) != (p in s'.watched)
    requires !(step.Env? && step.env.ExternalDrift?)
    ensures step.Work? && step.work.Patch? && s.actors[step.a].worker.Listed?
    ensures s.actors[step.a].worker.claim.pair == p && s'.markers == s.markers
    ensures IsWorker(s', step.a) && !Observes(s'.actors[step.a].worker)
  {
  }

  lemma ObservationsAreFresh(s: World, step: Step, s': World, a: ActorId)
    requires Next(s, step, s') && IsWorker(s', a) && Observes(s'.actors[a].worker)
    ensures IsWorker(s, a) && s'.actors[a].worker.claim == s.actors[a].worker.claim
    ensures (Observes(s.actors[a].worker) && Observation(s'.actors[a].worker) == Observation(s.actors[a].worker))
            || (Observation(s'.actors[a].worker) == (s.actors[a].worker.claim.pair in s.watched) && s'.watched == s.watched)
  {
    if Mover(step) != Some(a) {
      OthersStay(s, step, s', a);
    } else {
      OnlyWorkersWork(s, step, s', a);
      OwnObservation(s, a, step.work, s');
    }
  }

  lemma OwnObservation(s: World, a: ActorId, act: WorkerAct, s': World)
    requires WorkerNext(s, a, act, s') && IsWorker(s', a) && Observes(s'.actors[a].worker)
    ensures IsWorker(s, a) && s'.actors[a].worker.claim == s.actors[a].worker.claim
    ensures (Observes(s.actors[a].worker) && Observation(s'.actors[a].worker) == Observation(s.actors[a].worker))
            || (Observation(s'.actors[a].worker) == (s.actors[a].worker.claim.pair in s.watched) && s'.watched == s.watched)
  {
  }

  /** A worker is never misled afresh while the pair's watch and desired state stand still. */
  lemma MisledPersists(s: World, step: Step, s': World, a: ActorId, p: Pair)
    requires Next(s, step, s') && Inv(s) && Misled(s', a, p) && (p in s.watched) == (p in s'.watched)
    ensures Misled(s, a, p)
  {
    ObservationsAreFresh(s, step, s', a);
    TokensComeFromClaims(s, step, s', p, s'.actors[a].worker.claim.token);
  }

  lemma PatchMisleadsNobody(s: World, step: Step, s': World, a: ActorId, p: Pair)
    requires Next(s, step, s') && Inv(s) && (p in s.watched) != (p in s'.watched)
    requires !(step.Env? && step.env.ExternalDrift?)
    ensures !Misled(s', a, p)
  {
    if Misled(s', a, p) {
      WatchChangesByPatch(s, step, s', p);
      assert a != step.a;
      OthersStay(s, step, s', a);
      assert Holds(s.actors[a], PairKey(p)) && Holds(s.actors[step.a], PairKey(p));
      assert false;
    }
  }

  /** Unless the provider drifts by itself: a secure pair stays secure, and an insecure one has not changed. */
  lemma SecureStep(s: World, step: Step, s': World, p: Pair)
    requires Next(s, step, s') && Inv(s) && Supported(p.chain)
    requires !(step.Env? && step.env.ExternalDrift?)
    ensures Secure(s, p) ==> Secure(s', p)
    ensures !Secure(s', p) ==> Desired(s.wallets, p) == Desired(s'.wallets, p) && (p in s.watched) == (p in s'.watched)
  {
    if Desired(s.wallets, p) != Desired(s'.wallets, p) {
      DesireChangesByCommit(s, step, s', p);
    } else if (p in s.watched) != (p in s'.watched) {
      WatchChangesByPatch(s, step, s', p);
      assert PastCheck(s.actors[step.a].worker);
      forall a | a in s'.actors ensures !Misled(s', a, p) { PatchMisleadsNobody(s, step, s', a, p); }
    } else if Secure(s, p) && Drift(s', p) {
      forall a | a in s'.actors ensures !Misled(s', a, p) {
        if Misled(s', a, p) { MisledPersists(s, step, s', a, p); }
      }
      if p !in s'.markers {
        RowsLeaveByCompletion(s, step, s', p);
        assert Misled(s, step.a, p);
        assert false;
      }
    }
  }

  // ---- No lost drift ----

  ghost predicate NoExternalDrift(steps: seq<Step>) {
    forall i | 0 <= i < |steps| :: !(steps[i].Env? && steps[i].env.ExternalDrift?)
  }

  lemma {:induction false} RunSecure(run: seq<World>, steps: seq<Step>, i: nat, p: Pair)
    requires IsRun(run, steps) && Init(run[0]) && NoExternalDrift(steps) && i < |run|
    requires Supported(p.chain) && DriftMarked(run[0], p)
    ensures Secure(run[i], p)
  {
    if i > 0 {
      RunSecure(run, steps, i - 1, p);
      RunInv(run, steps, i - 1);
      SecureStep(run[i - 1], steps[i - 1], run[i], p);
    }
  }

  /**
   In every interleaving of wallet and account mutations, sweeps, claims, lease expiries, provider failures,
   crashes and completions, a pair whose desired state differs from the provider's has a marker.
   */
  lemma NoLostDrift(run: seq<World>, steps: seq<Step>, i: nat, p: Pair)
    requires IsRun(run, steps) && Init(run[0]) && NoExternalDrift(steps) && i < |run|
    requires Supported(p.chain) && DriftMarked(run[0], p)
    ensures DriftMarked(run[i], p)
  {
    RunSecure(run, steps, i, p);
  }

  /** When the backlog is empty, the provider watches exactly what the wallets want. */
  lemma EmptyBacklogMeansConverged(run: seq<World>, steps: seq<Step>, i: nat)
    requires IsRun(run, steps) && Init(run[0]) && NoExternalDrift(steps) && i < |run|
    requires forall p: Pair | Supported(p.chain) :: DriftMarked(run[0], p)
    requires run[i].markers == map[]
    ensures forall p: Pair | Supported(p.chain) :: p in run[i].watched <==> Desired(run[i].wallets, p)
  {
    forall p: Pair | Supported(p.chain) ensures p in run[i].watched <==> Desired(run[i].wallets, p) {
      NoLostDrift(run, steps, i, p);
    }
  }

  // ---- Stale claims ----

  ghost predicate Orphaned(s: World, t: Token) {
    t in s.issued && forall p :: !HasToken(s, p, t)
  }

  /** A token that has left its marker never returns, even if the marker is deleted and its generations restart. */
  lemma {:induction false} OrphanedForever(run: seq<World>, steps: seq<Step>, i: nat, j: nat, t: Token)
    requires IsRun(run, steps) && i <= j < |run| && Orphaned(run[i], t)
    ensures Orphaned(run[j], t)
  {
    if j > i {
      OrphanedForever(run, steps, i, j - 1, t);
      IssuedGrows(run[j - 1], steps[j - 1], run[j]);
      forall p ensures !HasToken(run[j], p, t) {
        if HasToken(run[j], p, t) { TokensComeFromClaims(run[j - 1], steps[j - 1], run[j], p, t); }
      }
    }
  }

  /** From then on nothing its claimant does changes any marker, whatever the claimant believes. */
  lemma StaleClaimIsHarmless(run: seq<World>, steps: seq<Step>, i: nat, j: nat, a: ActorId)
    requires IsRun(run, steps) && i <= j < |steps|
    requires steps[j].Work? && steps[j].a == a && IsWorker(run[j], a)
    requires Orphaned(run[i], run[j].actors[a].worker.claim.token)
    ensures run[j + 1].markers == run[j].markers
  {
    OrphanedForever(run, steps, i, j, run[j].actors[a].worker.claim.token);
    var c := run[j].actors[a].worker.claim;
    assert !HasToken(run[j], c.pair, c.token);
    assert !Owns(run[j].markers, c);
    NonOwnersWriteNothing(run[j], a, steps[j].work, run[j + 1]);
  }

  /** In any run a worker whose token a marker still carries matches that marker's pair and generation too. */
  lemma TokenFixesGeneration(run: seq<World>, steps: seq<Step>, i: nat, a: ActorId, p: Pair)
    requires IsRun(run, steps) && Init(run[0]) && i < |run| && IsWorker(run[i], a)
    requires HasToken(run[i], p, run[i].actors[a].worker.claim.token)
    ensures p == run[i].actors[a].worker.claim.pair && Owns(run[i].markers, run[i].actors[a].worker.claim)
  {
    RunInv(run, steps, i);
  }

  lemma NonOwnersWriteNothing(s: World, a: ActorId, act: WorkerAct, s': World)
    requires WorkerNext(s, a, act, s') && IsWorker(s, a) && !Owns(s.markers, s.actors[a].worker.claim)
    ensures s'.markers == s.markers
  {
  }

  /** A claim stops matching as soon as anybody marks, reclaims, releases, reschedules or deletes its marker. */
  lemma LosingAMarkerOrphansTheClaim(s: World, step: Step, s': World, p: Pair, t: Token)
    requires Next(s, step, s') && Inv(s) && HasToken(s, p, t)
    ensures Orphaned(s', t) <==> !HasToken(s', p, t)
    ensures !Orphaned(s', t) ==>
              && p in s'.markers && s'.markers[p].generation == s.markers[p].generation
              && s'.markers[p].attempts == s.markers[p].attempts
  {
    StepInv(s, step, s');
    IssuedGrows(s, step, s');
    if HasToken(s', p, t) {
      TokensComeFromClaims(s, step, s', p, t);
      AttemptsChangeLosesToken(s, step, s', p, t);
    } else {
      forall q ensures !HasToken(s', q, t) {
        if HasToken(s', q, t) { TokensComeFromClaims(s, step, s', q, t); }
      }
    }
  }

  lemma AttemptsChangeLosesToken(s: World, step: Step, s': World, p: Pair, t: Token)
    requires Next(s, step, s') && Inv(s) && HasToken(s, p, t) && HasToken(s', p, t)
    ensures s'.markers[p].attempts == s.markers[p].attempts
  {
    match step
    case Env(_) =>
    case Write(a, act) => WriterKeepsAttempts(s, a, act, s', p, t);
    case Work(a, act) => WorkerKeepsAttempts(s, a, act, s', p, t);
    case Scan(a, act) => SweepKeepsAttempts(s, a, act, s', p, t);
  }

  lemma WriterKeepsAttempts(s: World, a: ActorId, act: WriterAct, s': World, p: Pair, t: Token)
    requires WriterNext(s, a, act, s') && HasToken(s, p, t) && HasToken(s', p, t)
    ensures s'.markers[p].attempts == s.markers[p].attempts
  {
  }

  lemma WorkerKeepsAttempts(s: World, a: ActorId, act: WorkerAct, s': World, p: Pair, t: Token)
    requires WorkerNext(s, a, act, s') && TokensIssued(s) && HasToken(s, p, t) && HasToken(s', p, t)
    ensures s'.markers[p].attempts == s.markers[p].attempts
  {
  }

  lemma SweepKeepsAttempts(s: World, a: ActorId, act: SweepAct, s': World, p: Pair, t: Token)
    requires SweepNext(s, a, act, s') && HasToken(s, p, t) && HasToken(s', p, t)
    ensures s'.markers[p].attempts == s.markers[p].attempts
  {
  }

  // ---- Lock coverage ----

  /** Every pair whose desired state a commit changes was locked by that transaction and is marked by that commit. */
  lemma LockCoverage(run: seq<World>, steps: seq<Step>, i: nat, p: Pair)
    requires IsRun(run, steps) && Init(run[0]) && i < |steps| && Supported(p.chain)
    requires Desired(run[i].wallets, p) != Desired(run[i + 1].wallets, p)
    ensures steps[i].Write? && steps[i].write.Commit?
    ensures Holds(run[i].actors[steps[i].a], PairKey(p)) && Holds(run[i].actors[steps[i].a], MarkerRow(p))
    ensures p in run[i + 1].markers && FreshWork(Row(run[i].markers, p), run[i + 1].markers[p], run[i].now)
  {
    RunInv(run, steps, i);
    DesireChangesByCommit(run[i], steps[i], run[i + 1], p);
    DirtyIsFresh(Row(run[i].markers, p), run[i].now);
  }

  // ---- Marks fall due ----

  /** A marker no worker has failed on waits for nothing but a running lease. */
  ghost predicate Ready(s: World, p: Pair) {
    p in s.markers && s.markers[p].attempts == 0 ==> s.markers[p].nextAttemptAt <= s.now
  }

  lemma ReadyStep(s: World, step: Step, s': World, p: Pair)
    requires Next(s, step, s') && Ready(s, p)
    ensures Ready(s', p)
  {
    match step
    case Env(_) =>
    case Write(a, act) => ReadyAfterWrite(s, a, act, s', p);
    case Work(a, act) => ReadyAfterWork(s, a, act, s', p);
    case Scan(a, act) => ReadyAfterScan(s, a, act, s', p);
  }

  lemma ReadyAfterWrite(s: World, a: ActorId, act: WriterAct, s': World, p: Pair)
    requires WriterNext(s, a, act, s') && Ready(s, p)
    ensures Ready(s', p)
  {
  }

  lemma ReadyAfterWork(s: World, a: ActorId, act: WorkerAct, s': World, p: Pair)
    requires WorkerNext(s, a, act, s') && Ready(s, p)
    ensures Ready(s', p)
  {
  }

  lemma ReadyAfterScan(s: World, a: ActorId, act: SweepAct, s': World, p: Pair)
    requires SweepNext(s, a, act, s') && Ready(s, p)
    ensures Ready(s', p)
  {
  }

  lemma ReadyAfter(run: seq<World>, steps: seq<Step>, i: nat, p: Pair)
    requires IsRun(run, steps) && i < |steps| && Ready(run[i], p)
    ensures Ready(run[i + 1], p)
  {
    assert Next(run[i], steps[i], run[i + 1]);
    ReadyStep(run[i], steps[i], run[i + 1], p);
  }

  ghost predicate CarriesReady(run: seq<World>, k: nat, p: Pair)
    requires k + 1 < |run|
  {
    Ready(run[k], p) ==> Ready(run[k + 1], p)
  }

  lemma {:induction false} ReadyCarried(run: seq<World>, i: nat, j: nat, p: Pair)
    requires i <= j < |run| && Ready(run[i], p) && forall k: nat | i <= k < j :: CarriesReady(run, k, p)
    ensures Ready(run[j], p)
    decreases j
  {
    if i < j {
      ReadyCarried(run, i, j - 1, p);
      assert CarriesReady(run, j - 1, p);
    }
  }

  lemma ReadyStays(run: seq<World>, steps: seq<Step>, i: nat, j: nat, p: Pair)
    requires IsRun(run, steps) && i <= j < |run| && Ready(run[i], p)
    ensures Ready(run[j], p)
  {
    forall k: nat | i <= k < j ensures CarriesReady(run, k, p) {
      if Ready(run[k], p) { ReadyAfter(run, steps, k, p); }
    }
    ReadyCarried(run, i, j, p);
  }

  lemma NowMoves(s: World, step: Step, s': World)
    requires Next(s, step, s')
    ensures s.now <= s'.now
  {
    match step
    case Env(_) =>
    case Write(a, act) => assert WriterNext(s, a, act, s');
    case Work(a, act) => assert WorkerNext(s, a, act, s');
    case Scan(a, act) => assert SweepNext(s, a, act, s');
  }

  predicate LeaseRuns(m: Marker, now: int) {
    m.claim.Some? && now < m.claim.value.expiresAt
  }

  /**
   A pair that a commit or a sweep marked is due from that moment on until it is completed, except while a lease on
   it runs or after a worker failed on it.
   */
  lemma MarkedPairsFallDue(run: seq<World>, steps: seq<Step>, i: nat, j: nat, p: Pair)
    requires IsRun(run, steps) && i < j < |run| && p in run[i + 1].markers && FreshWork(Row(run[i].markers, p), run[i + 1].markers[p], run[i].now)
    ensures p in run[j].markers && run[j].markers[p].attempts == 0 ==>
              (Due(run[j].markers[p], run[j].now) <==> !LeaseRuns(run[j].markers[p], run[j].now))
  {
    NowMoves(run[i], steps[i], run[i + 1]);
    assert Due(run[i + 1].markers[p], run[i].now);
    ReadyStays(run, steps, i + 1, j, p);
  }

  /** With no failure and no running lease the whole backlog is due, as the worker's cycles need it. */
  lemma BacklogFallsDue(run: seq<World>, steps: seq<Step>, i: nat)
    requires IsRun(run, steps) && i < |run| && forall p :: Ready(run[0], p)
    requires forall p | p in run[i].markers :: run[i].markers[p].attempts == 0 && !LeaseRuns(run[i].markers[p], run[i].now)
    ensures forall p | p in run[i].markers :: Due(run[i].markers[p], run[i].now)
  {
    forall p | p in run[i].markers ensures Due(run[i].markers[p], run[i].now) {
      ReadyStays(run, steps, 0, i, p);
    }
  }

  predicate Decided(k: Worker) {
    k.Deciding? || k.Listed? || k.Patched? || k.Confirmed?
  }

  /** So while a worker holds the pair, what it read as desired stays true and its recheck cannot fail. */
  ghost predicate DecisionsHold(s: World) {
    forall a | IsWorker(s, a) ::
      var k := s.actors[a].worker;
      Supported(k.claim.pair.chain) && Decided(k) ==>
        && k.desired == Desired(s.wallets, k.claim.pair)
        && (k.Confirmed? ==> k.observed == k.desired)
  }

  lemma DecisionsStep(s: World, step: Step, s': World)
    requires Next(s, step, s') && Inv(s) && DecisionsHold(s)
    ensures DecisionsHold(s')
  {
    forall a | IsWorker(s', a) && Supported(s'.actors[a].worker.claim.pair.chain) && Decided(s'.actors[a].worker)
      ensures s'.actors[a].worker.desired == Desired(s'.wallets, s'.actors[a].worker.claim.pair)
      ensures s'.actors[a].worker.Confirmed? ==> s'.actors[a].worker.observed == s'.actors[a].worker.desired
    {
      DecisionStands(s, step, s', a);
    }
  }

  lemma DecisionStands(s: World, step: Step, s': World, a: ActorId)
    requires Next(s, step, s') && Inv(s) && DecisionsHold(s)
    requires IsWorker(s', a) && Supported(s'.actors[a].worker.claim.pair.chain) && Decided(s'.actors[a].worker)
    ensures s'.actors[a].worker.desired == Desired(s'.wallets, s'.actors[a].worker.claim.pair)
    ensures s'.actors[a].worker.Confirmed? ==> s'.actors[a].worker.observed == s'.actors[a].worker.desired
  {
    if Mover(step) == Some(a) {
      OnlyWorkersWork(s, step, s', a);
      OwnDecision(s, a, step.work, s');
    } else {
      OthersStay(s, step, s', a);
      DesireStandsUnderLock(s, step, s', a);
    }
  }

  /** A worker's own step keeps its decision, or takes it from the wallets. */
  lemma OwnDecision(s: World, a: ActorId, act: WorkerAct, s': World)
    requires WorkerNext(s, a, act, s') && IsWorker(s', a) && Decided(s'.actors[a].worker) && s.actors[a].Working?
    requires var k := s.actors[a].worker;
             Decided(k) ==> k.desired == Desired(s.wallets, k.claim.pair) && (k.Confirmed? ==> k.observed == k.desired)
    ensures var k := s'.actors[a].worker;
            k.claim == s.actors[a].worker.claim && k.desired == Desired(s'.wallets, k.claim.pair) && (k.Confirmed? ==> k.observed == k.desired)
  {
  }

  /** No commit changes what is desired of a pair that a worker holds. */
  lemma DesireStandsUnderLock(s: World, step: Step, s': World, a: ActorId)
    requires Next(s, step, s') && Inv(s) && IsWorker(s, a) && HasPairLock(s.actors[a].worker) && Mover(step) != Some(a)
    requires Supported(s.actors[a].worker.claim.pair.chain)
    ensures Desired(s.wallets, s.actors[a].worker.claim.pair) == Desired(s'.wallets, s.actors[a].worker.claim.pair)
  {
    var p := s.actors[a].worker.claim.pair;
    if Desired(s.wallets, p) != Desired(s'.wallets, p) {
      assert Holds(s.actors[a], PairKey(p));
      DesireChangesByCommit(s, step, s', p);
      assert false;
    }
  }

  lemma {:induction false} RunDecisions(run: seq<World>, steps: seq<Step>, i: nat)
    requires IsRun(run, steps) && Init(run[0]) && i < |run|
    ensures DecisionsHold(run[i])
  {
    if i > 0 {
      RunDecisions(run, steps, i - 1);
      RunInv(run, steps, i - 1);
      DecisionsStep(run[i - 1], steps[i - 1], run[i]);
    }
  }

  /** The recheck before completion, kept for uncoordinated changes, never finds one among these actors. */
  lemma RecheckNeverRequeues(run: seq<World>, steps: seq<Step>, i: nat)
    requires IsRun(run, steps) && Init(run[0]) && i < |steps| && steps[i].Work? && steps[i].work.Recheck?
    requires IsWorker(run[i], steps[i].a) && Supported(run[i].actors[steps[i].a].worker.claim.pair.chain)
    ensures IsWorker(run[i + 1], steps[i].a) && run[i + 1].actors[steps[i].a].worker.Completing?
  {
    RunDecisions(run, steps, i);
  }

  // ---- The drift sweep ----

  ghost predicate ChainSecure(s: World, c: Chain) {
    forall p: Pair | p.chain == c :: Secure(s, p)
  }

  /** What a sweep has read about its current chain is still true of every pair that needs its help. */
  ghost predicate SweepOk(s: World, sw: Sweep) {
    && (forall c | c in sw.todo :: Supported(c))
    && (forall c | c in sw.done :: Supported(c) && ChainSecure(s, c))
    && (sw.todo != [] ==> forall p: Pair | p.chain == sw.todo[0] && !Secure(s, p) :: StillTrue(s, sw.stage, p))
  }

  ghost predicate StillTrue(s: World, stage: SweepStage, p: Pair) {
    match stage
    case Ready => true
    case HasDb(db) => (p.address in db) == Desired(s.wallets, p)
    case HasBoth(db, watched) =>
      (p.address in db) == Desired(s.wallets, p) && (p.address in watched) == (p in s.watched)
    case Enqueueing(pairs, _) => p in pairs
  }

  ghost predicate SweepsOk(s: World) {
    forall a | a in s.actors && s.actors[a].Sweeping? :: SweepOk(s, s.actors[a].sweep)
  }

  lemma SweepKeepsReads(s: World, step: Step, s': World, sw: Sweep)
    requires Next(s, step, s') && Inv(s) && SweepOk(s, sw)
    requires !(step.Env? && step.env.ExternalDrift?)
    ensures SweepOk(s', sw)
  {
    forall p: Pair | Supported(p.chain)
      ensures Secure(s, p) ==> Secure(s', p)
      ensures !Secure(s', p) ==> Desired(s.wallets, p) == Desired(s'.wallets, p) && (p in s.watched) == (p in s'.watched)
    {
      SecureStep(s, step, s', p);
    }
  }

  lemma ReadsAreMembership(s: World, p: Pair)
    ensures p.address in ActiveAddresses(s.wallets, p.chain) <==> Desired(s.wallets, p)
    ensures p.address in WatchedAddresses(s.watched, p.chain) <==> p in s.watched
  {
  }

  lemma SweepOwnStep(s: World, a: ActorId, act: SweepAct, s': World)
    requires SweepNext(s, a, act, s') && Inv(s) && SweepsOk(s)
    ensures SweepOk(s', s'.actors[a].sweep)
  {
    if !act.StartSweep? {
      assert SweepOk(s, s.actors[a].sweep);
      SweepKeepsReads(s, Scan(a, act), s', s.actors[a].sweep);
      if act.ReadDb? || act.ReadWatched? {
        SweepReads(s, a, act, s');
      } else if act.Plan? {
        SweepPlans(s, a, act.pairs, s');
      } else if act.CommitDrift? {
        SweepCommits(s, a, s');
      }
    }
  }

  lemma SweepReads(s: World, a: ActorId, act: SweepAct, s': World)
    requires SweepNext(s, a, act, s') && (act.ReadDb? || act.ReadWatched?) && SweepOk(s', s.actors[a].sweep)
    ensures SweepOk(s', s'.actors[a].sweep)
  {
    forall p: Pair
      ensures p.address in ActiveAddresses(s.wallets, p.chain) <==> Desired(s.wallets, p)
      ensures p.address in WatchedAddresses(s.watched, p.chain) <==> p in s.watched
    {
      ReadsAreMembership(s, p);
    }
  }

  /** A pair in drift is among those the two reads differ in. */
  lemma SweepPlans(s: World, a: ActorId, pairs: seq<Pair>, s': World)
    requires SweepNext(s, a, Plan(pairs), s') && SweepOk(s', s.actors[a].sweep)
    ensures SweepOk(s', s'.actors[a].sweep)
  {
    var sw := s.actors[a].sweep;
    forall p: Pair | p.chain == sw.todo[0] && !Secure(s', p) ensures p in pairs {
      assert StillTrue(s', sw.stage, p) && Drift(s', p);
      assert Pair(p.chain, p.address) in Elements(pairs);
    }
  }

  /** Marking a pair orphans every claim on it. */
  lemma SweepCommits(s: World, a: ActorId, s': World)
    requires SweepNext(s, a, CommitDrift, s') && SweepOk(s, s.actors[a].sweep) && SweepOk(s', s.actors[a].sweep)
    ensures SweepOk(s', s'.actors[a].sweep)
  {
    var sw := s.actors[a].sweep;
    forall p: Pair | p.chain == sw.todo[0] ensures Secure(s', p) {
      if p in sw.stage.pairs {
        assert s'.markers[p].claim.None?;
      } else {
        assert !Secure(s', p) ==> StillTrue(s', sw.stage, p);
      }
    }
  }

  lemma SweepsStep(s: World, step: Step, s': World)
    requires Next(s, step, s') && Inv(s) && SweepsOk(s)
    ensures SweepsOk(s')
  {
    forall b | b in s'.actors && s'.actors[b].Sweeping? ensures SweepOk(s', s'.actors[b].sweep) {
      if Mover(step) == Some(b) {
        OnlySweepsScan(s, step, s', b);
        SweepOwnStep(s, b, step.scan, s');
      } else {
        OthersStay(s, step, s', b);
        assert SweepOk(s, s.actors[b].sweep);
        OtherStepKeepsSweep(s, step, s', b);
      }
    }
  }

  /** An actor that sweeps after its own step took a sweep's step. */
  lemma OnlySweepsScan(s: World, step: Step, s': World, a: ActorId)
    requires Next(s, step, s') && Mover(step) == Some(a) && a in s'.actors && s'.actors[a].Sweeping?
    ensures step.Scan? && step.a == a
  {
    match step
    case Env(_) =>
    case Write(b, act) => WriterActsAlone(s, b, act, s');
    case Work(b, act) => WorkerActsAlone(s, b, act, s');
    case Scan(_, _) =>
  }

  /** While anyone sweeps the provider does not drift on its own. */
  lemma OtherStepKeepsSweep(s: World, step: Step, s': World, b: ActorId)
    requires Next(s, step, s') && Inv(s) && b in s.actors && s.actors[b].Sweeping? && SweepOk(s, s.actors[b].sweep)
    ensures SweepOk(s', s.actors[b].sweep)
  {
    SweepKeepsReads(s, step, s', s.actors[b].sweep);
  }

  lemma {:induction false} RunSweeps(run: seq<World>, steps: seq<Step>, i: nat)
    requires IsRun(run, steps) && Init(run[0]) && i < |run|
    ensures SweepsOk(run[i])
  {
    if i > 0 {
      RunSweeps(run, steps, i - 1);
      RunInv(run, steps, i - 1);
      SweepsStep(run[i - 1], steps[i - 1], run[i]);
    }
  }

  /** The k-th step commits what a sweep found to differ on this chain. */
  ghost predicate FinishesChain(run: seq<World>, steps: seq<Step>, k: nat, a: ActorId, c: Chain)
    requires k < |steps| < |run|
  {
    steps[k] == Scan(a, CommitDrift) && IsSweep(run[k], a) && run[k].actors[a].sweep.todo[0] == c
  }

  lemma FinishedIsDone(run: seq<World>, steps: seq<Step>, k: nat, a: ActorId, c: Chain)
    requires IsRun(run, steps) && k < |steps| && FinishesChain(run, steps, k, a, c)
    ensures a in run[k + 1].actors && run[k + 1].actors[a].Sweeping? && c in run[k + 1].actors[a].sweep.done
  {
    assert Next(run[k], steps[k], run[k + 1]);
  }

  /**
   Whatever the provider drifted to before, once a sweep has finished a chain every drifting pair of that
   chain has a marker, although its two reads and its enqueue are separate steps and workers and writers
   run in between; and the marker is due, unless a worker holds a lease on it or failed on it.
   */
  lemma SweepRepairs(run: seq<World>, steps: seq<Step>, k: nat, a: ActorId, p: Pair)
    requires IsRun(run, steps) && Init(run[0]) && k < |steps| && FinishesChain(run, steps, k, a, p.chain)
    ensures DriftMarked(run[k + 1], p)
    ensures Drift(run[k + 1], p) && Ready(run[0], p) && run[k + 1].markers[p].attempts == 0 ==>
              (Due(run[k + 1].markers[p], run[k + 1].now) <==> !LeaseRuns(run[k + 1].markers[p], run[k + 1].now))
  {
    FinishedIsDone(run, steps, k, a, p.chain);
    RunSweeps(run, steps, k + 1);
    assert SweepOk(run[k + 1], run[k + 1].actors[a].sweep);
    if Ready(run[0], p) { ReadyStays(run, steps, 0, k + 1, p); }
  }

  /** A sweep's commit makes every pair it planned new work due from now on, and touches no other marker. */
  lemma SweepMarksAreDue(run: seq<World>, steps: seq<Step>, i: nat)
    requires IsRun(run, steps) && i < |steps| && steps[i].Scan? && steps[i].scan.CommitDrift?
    ensures IsSweep(run[i], steps[i].a) && run[i].actors[steps[i].a].sweep.stage.Enqueueing?
    ensures MarksExactly(run[i].markers, run[i + 1].markers, Elements(run[i].actors[steps[i].a].sweep.stage.pairs), run[i].now)
  {
    assert Next(run[i], steps[i], run[i + 1]);
    MarkingIsExact(run[i].markers, Elements(run[i].actors[steps[i].a].sweep.stage.pairs), run[i].now);
  }

  /** The repair lasts: every pair of the chain stays covered while nobody else changes the provider. */
  lemma {:induction false} RepairLasts(run: seq<World>, steps: seq<Step>, k: nat, j: nat, a: ActorId, p: Pair)
    requires IsRun(run, steps) && Init(run[0]) && k < j < |run| && FinishesChain(run, steps, k, a, p.chain)
    requires NoExternalDrift(steps[k + 1..])
    ensures Secure(run[j], p) && DriftMarked(run[j], p)
    decreases j
  {
    FinishedIsDone(run, steps, k, a, p.chain);
    RunSweeps(run, steps, k + 1);
    assert SweepOk(run[k + 1], run[k + 1].actors[a].sweep);
    if j > k + 1 {
      RepairLasts(run, steps, k, j - 1, a, p);
      RunInv(run, steps, j - 1);
      assert steps[k + 1..][j - 1 - (k + 1)] == steps[j - 1];
      SecureStep(run[j - 1], steps[j - 1], run[j], p);
    }
  }
}
