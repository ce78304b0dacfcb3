/** The inductive invariant of the reconciliation protocol, one named part per lemma. */
module ProtocolInvariants {
  import opened Chains
  import opened Collections
  import opened Wrappers
  import opened Markers
  import opened WalletWrites
  import opened Protocol

  /** No lock has two holders. */
  ghost predicate Exclusive(s: World) {
    forall a, b, l | a in s.actors && b in s.actors && a != b && Holds(s.actors[a], l) :: !Holds(s.actors[b], l)
  }

  /** What a writer has read is still what the tables hold, and its plan and marks are derived from it. */
  ghost predicate WriterOk(s: World, w: Writer) {
    && (!w.stage.Locking? && !w.stage.Marking? ==> w.plan == [] && w.pairsHeld == 0)
    && (!w.stage.Marking? ==> w.marks == [] && w.marksHeld == 0)
    && w.pairsHeld <= |w.plan| && w.marksHeld <= |w.marks|
    && (w.stage.Locking? || w.stage.Marking? ==>
          && w.seen == UserWallets(s.wallets, w.op.user) && Finds(w.seen, w.op)
          && Sorted(w.plan) && Elements(w.plan) == LockedPairs(w.seen, w.op)
          && forall p | p in w.plan :: Supported(p.chain))
    && (w.stage.Marking? ==>
          && w.pairsHeld == |w.plan|
          && Sorted(w.marks) && Elements(w.marks) == MarkedPairs(w.seen, w.op))
  }

  ghost predicate WritersOk(s: World) {
    forall a | a in s.actors && s.actors[a].Writing? :: WriterOk(s, s.actors[a].writer)
  }

  predicate PastCheck(k: Worker) {
    k.Current? || k.Deciding? || k.Listed? || k.Patched? || k.Confirmed? || k.Completing?
  }

  /** A worker that passed its claim check still has a marker to complete. */
  ghost predicate MarkerHeld(s: World) {
    forall a | IsWorker(s, a) && PastCheck(s.actors[a].worker) :: s.actors[a].worker.claim.pair in s.markers
  }

  ghost predicate HasToken(s: World, p: Pair, t: Token) {
    p in s.markers && s.markers[p].claim.Some? && s.markers[p].claim.value.token == t
  }

  ghost predicate TokensIssued(s: World) {
    && (forall p, t | HasToken(s, p, t) :: t in s.issued)
    && (forall a | IsWorker(s, a) :: s.actors[a].worker.claim.token in s.issued)
  }

  /** A token names one pair and one generation of its marker, and one worker. */
  ghost predicate TokensMatch(s: World) {
    && (forall p, q, t | HasToken(s, p, t) && HasToken(s, q, t) :: p == q)
    && (forall a, p | IsWorker(s, a) && HasToken(s, p, s.actors[a].worker.claim.token) ::
          p == s.actors[a].worker.claim.pair && s.markers[p].generation == s.actors[a].worker.claim.generation)
    && (forall a, b | IsWorker(s, a) && IsWorker(s, b) && a != b ::
          s.actors[a].worker.claim.token != s.actors[b].worker.claim.token)
  }

  ghost predicate Inv(s: World) {
    Exclusive(s) && WritersOk(s) && MarkerHeld(s) && TokensIssued(s) && TokensMatch(s)
  }

  // ---- Locks ----

  ghost function Mover(step: Step): Option<ActorId> {
    match step
    case Env(Join(a)) => Some(a)
    case Env(Abort(a)) => Some(a)
    case Env(_) => None
    case Write(a, _) => Some(a)
    case Work(a, _) => Some(a)
    case Scan(a, _) => Some(a)
  }

  lemma OthersStay(s: World, step: Step, s': World, b: ActorId)
    requires Next(s, step, s') && Mover(step) != Some(b)
    ensures b in s.actors <==> b in s'.actors
    ensures b in s.actors ==> s'.actors[b] == s.actors[b]
  {
    match step
    case Env(_) =>
    case Write(a, act) => WriterActsAlone(s, a, act, s');
    case Work(a, act) => WorkerActsAlone(s, a, act, s');
    case Scan(a, act) => SweepActsAlone(s, a, act, s');
  }

  lemma WriterActsAlone(s: World, a: ActorId, act: WriterAct, s': World)
    requires WriterNext(s, a, act, s')
    ensures a in s.actors && a in s'.actors && s'.actors == s.actors[a := s'.actors[a]]
    ensures s'.actors[a].Idle? || s'.actors[a].Writing?
  {
  }

  lemma WorkerActsAlone(s: World, a: ActorId, act: WorkerAct, s': World)
    requires WorkerNext(s, a, act, s')
    ensures a in s.actors && a in s'.actors && s'.actors == s.actors[a := s'.actors[a]]
    ensures s'.actors[a].Idle? || s'.actors[a].Working?
  {
  }

  lemma SweepActsAlone(s: World, a: ActorId, act: SweepAct, s': World)
    requires SweepNext(s, a, act, s')
    ensures a in s.actors && a in s'.actors && s'.actors == s.actors[a := s'.actors[a]]
    ensures s'.actors[a].Sweeping?
  {
  }

  lemma WriterLocksTaken(s: World, a: ActorId, act: WriterAct, s': World, l: Lock)
    requires WriterNext(s, a, act, s') && WritersOk(s) && Holds(s'.actors[a], l)
    ensures Holds(s.actors[a], l) || Free(s, l)
  {
    if !act.Begin? {
      var w, w' := s.actors[a].writer, s'.actors[a].writer;
      assert WriterOk(s, w);
      if act.LockPair? {
        assert w'.plan[..w'.pairsHeld] == w.plan[..w.pairsHeld] + [w.plan[w.pairsHeld]];
      } else if act.LockMark? {
        assert w'.marks[..w'.marksHeld] == w.marks[..w.marksHeld] + [w.marks[w.marksHeld]];
      }
    }
  }

  lemma WorkerLocksTaken(s: World, a: ActorId, act: WorkerAct, s': World, l: Lock)
    requires WorkerNext(s, a, act, s') && Holds(s'.actors[a], l)
    ensures Holds(s.actors[a], l) || Free(s, l)
  {
  }

  lemma SweepLocksTaken(s: World, a: ActorId, act: SweepAct, s': World, l: Lock)
    requires SweepNext(s, a, act, s') && Holds(s'.actors[a], l)
    ensures Holds(s.actors[a], l) || Free(s, l)
  {
    if act.LockRow? {
      var e := s.actors[a].sweep.stage;
      assert e.pairs[..e.rowsHeld + 1] == e.pairs[..e.rowsHeld] + [e.pairs[e.rowsHeld]];
    }
  }

  /** A step takes only locks that were free. */
  lemma LocksTaken(s: World, step: Step, s': World, a: ActorId, l: Lock)
    requires Next(s, step, s') && WritersOk(s) && Mover(step) == Some(a)
    requires a in s'.actors && Holds(s'.actors[a], l)
    ensures a in s.actors && (Holds(s.actors[a], l) || Free(s, l))
  {
    match step
    case Env(act) =>
    case Write(_, act) => WriterLocksTaken(s, a, act, s', l);
    case Work(_, act) => WorkerLocksTaken(s, a, act, s', l);
    case Scan(_, act) => SweepLocksTaken(s, a, act, s', l);
  }

  lemma ExclusiveStep(s: World, step: Step, s': World)
    requires Next(s, step, s') && Exclusive(s) && WritersOk(s)
    ensures Exclusive(s')
  {
    forall a, b, l | a in s'.actors && b in s'.actors && a != b && Holds(s'.actors[a], l)
      ensures !Holds(s'.actors[b], l)
    {
      if Mover(step) == Some(a) {
        LocksTaken(s, step, s', a, l);
        OthersStay(s, step, s', b);
      } else {
        OthersStay(s, step, s', a);
        if Mover(step) == Some(b) && Holds(s'.actors[b], l) {
          LocksTaken(s, step, s', b, l);
        } else {
          if Mover(step) != Some(b) { OthersStay(s, step, s', b); }
        }
      }
    }
  }

  // ---- Writers ----

  lemma OwnWalletsOnly(ws: Wallets, op: Op, u: UserId)
    requires Finds(ws, op) && u != op.user
    requires op.Update? || op.Delete? ==> ws[op.wallet].user == op.user
    ensures UserWallets(Applied(ws, op), u) == UserWallets(ws, u)
  {
  }

  /** A commit by one writer leaves every other writer's reads accurate, because both hold a user row. */
  lemma CommitKeepsReads(s: World, a: ActorId, b: ActorId, s': World)
    requires Exclusive(s) && WritersOk(s) && WriterNext(s, a, Commit, s')
    requires a != b && b in s.actors && s.actors[b].Writing? && WriterOk(s, s.actors[b].writer)
    ensures WriterOk(s', s.actors[b].writer)
  {
    var w, v := s.actors[a].writer, s.actors[b].writer;
    assert WriterOk(s, w);
    assert Holds(s.actors[a], UserRow(w.op.user));
    if v.stage.Locking? || v.stage.Marking? {
      assert Holds(s.actors[b], UserRow(v.op.user));
      assert v.op.user != w.op.user;
      OwnWalletsOnly(s.wallets, w.op, v.op.user);
    }
  }

  lemma WalletsChangeByCommit(s: World, step: Step, s': World)
    requires Next(s, step, s')
    ensures s'.wallets == s.wallets || (step.Write? && step.write.Commit?)
  {
  }

  lemma OwnStepKeepsWriter(s: World, a: ActorId, act: WriterAct, s': World)
    requires WriterNext(s, a, act, s') && WritersOk(s) && s'.actors[a].Writing?
    ensures WriterOk(s', s'.actors[a].writer)
  {
    if !act.Begin? {
      assert WriterOk(s, s.actors[a].writer);
    }
  }

  lemma WritersStep(s: World, step: Step, s': World)
    requires Next(s, step, s') && Exclusive(s) && WritersOk(s)
    ensures WritersOk(s')
  {
    forall b | b in s'.actors && s'.actors[b].Writing? ensures WriterOk(s', s'.actors[b].writer) {
      if Mover(step) == Some(b) {
        OnlyWritersWrite(s, step, s', b);
        OwnStepKeepsWriter(s, b, step.write, s');
      } else {
        OthersStay(s, step, s', b);
        OtherStepKeepsWriter(s, step, s', b);
      }
    }
  }

  /** An actor that is a writer after its own step took a writer's step. */
  lemma OnlyWritersWrite(s: World, step: Step, s': World, a: ActorId)
    requires Next(s, step, s') && Mover(step) == Some(a) && a in s'.actors && s'.actors[a].Writing?
    ensures step.Write? && step.a == a
  {
    match step
    case Env(_) =>
    case Write(_, _) =>
    case Work(b, act) => WorkerActsAlone(s, b, act, s');
    case Scan(b, act) => SweepActsAlone(s, b, act, s');
  }

  lemma OtherStepKeepsWriter(s: World, step: Step, s': World, b: ActorId)
    requires Next(s, step, s') && Exclusive(s) && WritersOk(s) && Mover(step) != Some(b)
    requires b in s.actors && s.actors[b].Writing?
    ensures WriterOk(s', s.actors[b].writer)
  {
    assert WriterOk(s, s.actors[b].writer);
    WalletsChangeByCommit(s, step, s');
    if step.Write? && step.write.Commit? {
      CommitKeepsReads(s, step.a, b, s');
    }
  }

  // ---- Workers ----

  /** A marker row leaves the table only when the worker holding its pair completes it. */
  lemma RowsLeaveByCompletion(s: World, step: Step, s': World, p: Pair)
    requires Next(s, step, s') && p in s.markers && p !in s'.markers
    ensures step.Work? && step.work.Complete? && s.actors[step.a].worker.Completing?
    ensures s.actors[step.a].worker.claim.pair == p && Live(s.markers, s.actors[step.a].worker.claim, s.now)
  {
  }

  lemma MarkerHeldStep(s: World, step: Step, s': World)
    requires Next(s, step, s') && Exclusive(s) && MarkerHeld(s)
    ensures MarkerHeld(s')
  {
    forall a | IsWorker(s', a) && PastCheck(s'.actors[a].worker)
      ensures s'.actors[a].worker.claim.pair in s'.markers
    {
      var p := s'.actors[a].worker.claim.pair;
      WorkerKeepsClaim(s, step, s', a);
      assert p in s.markers by {
        if Mover(step) == Some(a) { CheckNeedsMarker(s, a, step.work, s'); } else { OthersStay(s, step, s', a); }
      }
      if p !in s'.markers {
        RowsLeaveByCompletion(s, step, s', p);
        assert Holds(s.actors[step.a], PairKey(p));
        if step.a != a {
          OthersStay(s, step, s', a);
          assert Holds(s.actors[a], PairKey(p));
        }
        assert false;
      }
    }
  }

  lemma CheckNeedsMarker(s: World, a: ActorId, act: WorkerAct, s': World)
    requires WorkerNext(s, a, act, s') && MarkerHeld(s)
    requires IsWorker(s', a) && PastCheck(s'.actors[a].worker)
    ensures s'.actors[a].worker.claim.pair in s.markers
  {
  }

  lemma WorkerKeepsClaim(s: World, step: Step, s': World, a: ActorId)
    requires Next(s, step, s') && IsWorker(s', a)
    ensures (IsWorker(s, a) && s'.actors[a].worker.claim == s.actors[a].worker.claim)
            || (step.Work? && step.work.ClaimRow? && a == step.a && !IsWorker(s, a)
                && s'.actors[a].worker.claim == ClaimOf(step.work.pair, s.markers[step.work.pair], step.work.token))
  {
    if Mover(step) == Some(a) {
      OnlyWorkersWork(s, step, s', a);
      WorkerActKeepsClaim(s, a, step.work, s');
    } else {
      OthersStay(s, step, s', a);
    }
  }

  /** An actor that is a worker after its own step took a worker's step. */
  lemma OnlyWorkersWork(s: World, step: Step, s': World, a: ActorId)
    requires Next(s, step, s') && Mover(step) == Some(a) && IsWorker(s', a)
    ensures step.Work? && step.a == a
  {
    match step
    case Env(_) =>
    case Write(b, act) => WriterActsAlone(s, b, act, s');
    case Work(_, _) =>
    case Scan(b, act) => SweepActsAlone(s, b, act, s');
  }

  lemma WorkerActKeepsClaim(s: World, a: ActorId, act: WorkerAct, s': World)
    requires WorkerNext(s, a, act, s') && IsWorker(s', a)
    ensures (IsWorker(s, a) && s'.actors[a].worker.claim == s.actors[a].worker.claim)
            || (act.ClaimRow? && !IsWorker(s, a)
                && s'.actors[a].worker.claim == ClaimOf(act.pair, s.markers[act.pair], act.token))
  {
  }

  /** Marking and deleting only take tokens away; only a claim hands one out. */
  lemma TokensComeFromClaims(s: World, step: Step, s': World, p: Pair, t: Token)
    requires Next(s, step, s') && HasToken(s', p, t)
    ensures p in s.markers && s'.markers[p].generation == s.markers[p].generation
    ensures HasToken(s, p, t) || (step.Work? && step.work.ClaimRow? && p == step.work.pair && t == step.work.token)
    ensures step.Work? && step.work.ClaimRow? && p == step.work.pair ==> t == step.work.token
  {
    match step
    case Env(_) =>
    case Write(a, act) => WritersTakeTokens(s, a, act, s', p, t);
    case Work(a, act) => WorkersTakeTokens(s, a, act, s', p, t);
    case Scan(a, act) => SweepsTakeTokens(s, a, act, s', p, t);
  }

  lemma WritersTakeTokens(s: World, a: ActorId, act: WriterAct, s': World, p: Pair, t: Token)
    requires WriterNext(s, a, act, s') && HasToken(s', p, t)
    ensures HasToken(s, p, t) && s'.markers[p].generation == s.markers[p].generation
  {
  }

  lemma SweepsTakeTokens(s: World, a: ActorId, act: SweepAct, s': World, p: Pair, t: Token)
    requires SweepNext(s, a, act, s') && HasToken(s', p, t)
    ensures HasToken(s, p, t) && s'.markers[p].generation == s.markers[p].generation
  {
  }

  lemma WorkersTakeTokens(s: World, a: ActorId, act: WorkerAct, s': World, p: Pair, t: Token)
    requires WorkerNext(s, a, act, s') && HasToken(s', p, t)
    ensures p in s.markers && s'.markers[p].generation == s.markers[p].generation
    ensures if act.ClaimRow? && p == act.pair then t == act.token else HasToken(s, p, t)
  {
  }

  lemma IssuedGrows(s: World, step: Step, s': World)
    requires Next(s, step, s')
    ensures s'.issued == if step.Work? && step.work.ClaimRow? then s.issued + {step.work.token} else s.issued
    ensures step.Work? && step.work.ClaimRow? ==> step.work.token !in s.issued
  {
  }

  lemma TokensStep(s: World, step: Step, s': World)
    requires Next(s, step, s') && TokensIssued(s) && TokensMatch(s)
    ensures TokensIssued(s') && TokensMatch(s')
  {
    IssuedGrows(s, step, s');
    forall p, t | HasToken(s', p, t)
      ensures p in s.markers && s'.markers[p].generation == s.markers[p].generation
      ensures HasToken(s, p, t) || (step.Work? && step.work.ClaimRow? && p == step.work.pair && t == step.work.token)
    {
      TokensComeFromClaims(s, step, s', p, t);
    }
    ClaimsComeFromClaiming(s, step, s');
  }

  lemma ClaimsComeFromClaiming(s: World, step: Step, s': World)
    requires Next(s, step, s')
    ensures forall a | IsWorker(s', a) ::
              || (IsWorker(s, a) && s'.actors[a].worker.claim == s.actors[a].worker.claim)
              || (step.Work? && step.work.ClaimRow? && a == step.a
                  && s'.actors[a].worker.claim == ClaimOf(step.work.pair, s.markers[step.work.pair], step.work.token))
  {
    forall a | IsWorker(s', a)
      ensures (IsWorker(s, a) && s'.actors[a].worker.claim == s.actors[a].worker.claim)
              || (step.Work? && step.work.ClaimRow? && a == step.a
                  && s'.actors[a].worker.claim == ClaimOf(step.work.pair, s.markers[step.work.pair], step.work.token))
    {
      WorkerKeepsClaim(s, step, s', a);
    }
  }

  // ---- The whole invariant ----

  lemma InitInv(s: World)
    requires Init(s)
    ensures Inv(s)
  {
  }

  lemma StepInv(s: World, step: Step, s': World)
    requires Next(s, step, s') && Inv(s)
    ensures Inv(s')
  {
    ExclusiveStep(s, step, s');
    WritersStep(s, step, s');
    MarkerHeldStep(s, step, s');
    TokensStep(s, step, s');
  }

  lemma {:induction false} RunInv(run: seq<World>, steps: seq<Step>, i: nat)
    requires IsRun(run, steps) && Init(run[0]) && i < |run|
    ensures Inv(run[i])
  {
    if i == 0 {
      InitInv(run[0]);
    } else {
      RunInv(run, steps, i - 1);
      StepInv(run[i - 1], steps[i - 1], run[i]);
    }
  }
}
