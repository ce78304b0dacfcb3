/**
 The watch-reconciliation protocol: wallet writers, workers and drift sweeps run concurrently over the
 wallet tables, the marker table and the provider's watched set.

 One step is one SQL statement, one commit, one provider call, or the taking of one lock. A step that
 needs a lock is enabled only while no other actor holds it. Any actor may fail or crash between steps.
 A PATCH may take effect whether or not its call reports success.
 */
module Protocol {
  import opened Chains
  import opened Collections
  import opened Wrappers
  import opened Markers
  import opened WalletWrites

  type ActorId = nat

  datatype Lock =
    | UserRow(user: UserId)
    | SessionRow(session: SessionId)
    | WalletRow(wallet: WalletId)
    | PairKey(pair: Pair)
    | MarkerRow(row: Pair)

  // ---- Actors ----

  datatype WriterStage = Begun | UserLocked | RowLocked | Locking | Marking

  /** A wallet or account transaction; `seen` are the user's wallets as read under the user row. */
  datatype Writer = Writer(op: Op, stage: WriterStage, seen: Wallets,
                           plan: seq<Pair>, pairsHeld: nat, marks: seq<Pair>, marksHeld: nat)

  datatype Worker =
    | Waiting(claim: Claim)
    | Entered(claim: Claim)
    | Current(claim: Claim)
    | Deciding(claim: Claim, desired: bool)
    | Listed(claim: Claim, desired: bool, observed: bool)
    | Patched(claim: Claim, desired: bool)
    | Confirmed(claim: Claim, desired: bool, observed: bool)
    | Completing(claim: Claim, observed: bool)
    | Releasing(claim: Claim)
    | Unlocking(claim: Claim, failed: bool)
    | Retrying(claim: Claim)

  datatype SweepStage =
    | Ready
    | HasDb(db: set<Address>)
    | HasBoth(db: set<Address>, watched: set<Address>)
    | Enqueueing(pairs: seq<Pair>, rowsHeld: nat)

  /** A sweep visits the chains of `todo` in order; `done` are the chains that finished without error. */
  datatype Sweep = Sweep(todo: seq<Chain>, done: set<Chain>, stage: SweepStage)

  datatype Actor = Idle | Writing(writer: Writer) | Working(worker: Worker) | Sweeping(sweep: Sweep)

  datatype World = World(
    now: int,
    users: set<UserId>,
    wallets: Wallets,
    markers: map<Pair, Marker>,
    watched: set<Pair>,
    issued: set<Token>,
    actors: map<ActorId, Actor>)

  // ---- Locks ----

  function SecondRow(op: Op): Option<Lock> {
    match op
    case Create(_, _, _, _) => None
    case Update(_, w, _, _) => Some(WalletRow(w))
    case Delete(_, w) => Some(WalletRow(w))
    case DeleteAccount(_, sid) => Some(SessionRow(sid))
  }

  ghost predicate WriterHolds(w: Writer, l: Lock) {
    match l
    case UserRow(u) => !w.stage.Begun? && u == w.op.user
    case SessionRow(_) => !w.stage.Begun? && !w.stage.UserLocked? && SecondRow(w.op) == Some(l)
    case WalletRow(_) => !w.stage.Begun? && !w.stage.UserLocked? && SecondRow(w.op) == Some(l)
    case PairKey(p) => w.pairsHeld <= |w.plan| && p in w.plan[..w.pairsHeld]
    case MarkerRow(p) => w.marksHeld <= |w.marks| && p in w.marks[..w.marksHeld]
  }

  predicate HasPairLock(k: Worker) {
    !k.Waiting? && !k.Retrying?
  }

  ghost predicate SweepHolds(sw: Sweep, l: Lock) {
    && l.MarkerRow? && sw.stage.Enqueueing? && sw.stage.rowsHeld <= |sw.stage.pairs|
    && l.row in sw.stage.pairs[..sw.stage.rowsHeld]
  }

  ghost predicate Holds(x: Actor, l: Lock) {
    match x
    case Idle => false
    case Writing(w) => WriterHolds(w, l)
    case Working(k) => l == PairKey(k.claim.pair) && HasPairLock(k)
    case Sweeping(sw) => SweepHolds(sw, l)
  }

  ghost predicate Free(s: World, l: Lock) {
    forall b | b in s.actors :: !Holds(s.actors[b], l)
  }

  ghost function LockedRows(s: World): set<Pair> {
    set p | p in s.markers && !Free(s, MarkerRow(p))
  }

  // ---- Steps ----

  datatype EnvAct =
    | Tick(elapsed: nat)
    | AddUser(user: UserId)
    | ExternalDrift(watched: set<Pair>)
    | Join(a: ActorId)
    | Abort(a: ActorId)

  datatype WriterAct =
    | Begin(op: Op)
    | LockUser
    | LockSecond
    | ReadPairs(plan: seq<Pair>)
    | LockPair
    | Mutate(marks: seq<Pair>)
    | LockMark
    | Commit

  datatype WorkerAct =
    | ClaimRow(pair: Pair, token: Token, leaseMs: nat)
    | Enter
    | CheckClaim
    | ReadDesired
    | List
    | Patch(applied: bool, reported: bool)
    | Recheck
    | Complete
    | Release
    | Unlock(confirmed: bool)
    | Fail
    | Retry(delayMs: nat)

  datatype SweepAct =
    | StartSweep
    | ReadDb
    | ReadWatched
    | Plan(pairs: seq<Pair>)
    | LockRow
    | CommitDrift
    | SkipChain

  datatype Step =
    | Env(env: EnvAct)
    | Write(a: ActorId, write: WriterAct)
    | Work(a: ActorId, work: WorkerAct)
    | Scan(a: ActorId, scan: SweepAct)

  function Become(s: World, a: ActorId, x: Actor): World {
    s.(actors := s.actors[a := x])
  }

  ghost predicate IsWriter(s: World, a: ActorId, stage: WriterStage) {
    a in s.actors && s.actors[a].Writing? && s.actors[a].writer.stage == stage
  }

  ghost predicate IsWorker(s: World, a: ActorId) {
    a in s.actors && s.actors[a].Working?
  }

  ghost predicate IsSweep(s: World, a: ActorId) {
    a in s.actors && s.actors[a].Sweeping? && s.actors[a].sweep.todo != []
  }

  ghost predicate NoSweep(s: World) {
    forall b | b in s.actors :: !s.actors[b].Sweeping?
  }

  ghost predicate EnvNext(s: World, act: EnvAct, s': World) {
    match act
    case Tick(d) => s' == s.(now := s.now + d)
    case AddUser(u) => u !in s.users && s' == s.(users := s.users + {u})
    // A change of the provider's watched set by anyone but a worker; none happens during a sweep.
    case ExternalDrift(watched) => NoSweep(s) && s' == s.(watched := watched)
    case Join(a) => a !in s.actors && s' == Become(s, a, Idle)
    // A crash or a rolled-back transaction: every lock is dropped.
    case Abort(a) => a in s.actors && s' == Become(s, a, Idle)
  }

  ghost predicate WriterNext(s: World, a: ActorId, act: WriterAct, s': World) {
    match act
    case Begin(op) =>
      && a in s.actors && s.actors[a].Idle?
      && s' == Become(s, a, Writing(Writer(op, Begun, map[], [], 0, [], 0)))
    case LockUser =>
      && IsWriter(s, a, Begun)
      && var w := s.actors[a].writer;
      && w.op.user in s.users && Free(s, UserRow(w.op.user))
      && s' == Become(s, a, Writing(w.(stage := UserLocked)))
    case LockSecond =>
      && IsWriter(s, a, UserLocked)
      && var w := s.actors[a].writer;
      && (SecondRow(w.op).Some? ==> Free(s, SecondRow(w.op).value))
      && s' == Become(s, a, Writing(w.(stage := RowLocked)))
    case ReadPairs(plan) =>
      && IsWriter(s, a, RowLocked)
      && var w := s.actors[a].writer;
      && var seen := UserWallets(s.wallets, w.op.user);
      && Finds(seen, w.op)
      && Sorted(plan) && Elements(plan) == LockedPairs(seen, w.op)
      && (forall p | p in plan :: Supported(p.chain))
      && s' == Become(s, a, Writing(w.(stage := Locking, seen := seen, plan := plan)))
    case LockPair =>
      && IsWriter(s, a, Locking)
      && var w := s.actors[a].writer;
      && w.pairsHeld < |w.plan| && Free(s, PairKey(w.plan[w.pairsHeld]))
      && s' == Become(s, a, Writing(w.(pairsHeld := w.pairsHeld + 1)))
    case Mutate(marks) =>
      && IsWriter(s, a, Locking)
      && var w := s.actors[a].writer;
      && w.pairsHeld == |w.plan|
      && Finds(UserWallets(s.wallets, w.op.user), w.op)
      && Sorted(marks) && Elements(marks) == MarkedPairs(UserWallets(s.wallets, w.op.user), w.op)
      && s' == Become(s, a, Writing(w.(stage := Marking, marks := marks)))
    case LockMark =>
      && IsWriter(s, a, Marking)
      && var w := s.actors[a].writer;
      && w.marksHeld < |w.marks| && Free(s, MarkerRow(w.marks[w.marksHeld]))
      && s' == Become(s, a, Writing(w.(marksHeld := w.marksHeld + 1)))
    case Commit =>
      && IsWriter(s, a, Marking)
      && var w := s.actors[a].writer;
      && w.marksHeld == |w.marks|
      && Finds(s.wallets, w.op)
      && s' == Become(s, a, Idle).(
                 wallets := Applied(s.wallets, w.op),
                 users := if w.op.DeleteAccount? then s.users - {w.op.user} else s.users,
                 markers := MarkedDirty(s.markers, Elements(w.marks), s.now))
  }

  ghost predicate WorkerNext(s: World, a: ActorId, act: WorkerAct, s': World) {
    match act
    case ClaimRow(p, t, leaseMs) =>
      && a in s.actors && s.actors[a].Idle?
      && t !in s.issued
      && Claimable(s.markers, LockedRows(s), p, s.now)
      && s' == Become(s, a, Working(Waiting(ClaimOf(p, s.markers[p], t)))).(
                 markers := s.markers[p := Leased(s.markers[p], t, s.now + leaseMs)],
                 issued := s.issued + {t})
    case Enter =>
      && IsWorker(s, a) && s.actors[a].worker.Waiting?
      && var c := s.actors[a].worker.claim;
      && Free(s, PairKey(c.pair))
      && s' == Become(s, a, Working(Entered(c)))
    case CheckClaim =>
      && IsWorker(s, a) && s.actors[a].worker.Entered?
      && var c := s.actors[a].worker.claim;
      && s' == Become(s, a, Working(if Live(s.markers, c, s.now) then Current(c) else Unlocking(c, false)))
    case ReadDesired =>
      && IsWorker(s, a) && s.actors[a].worker.Current?
      && var c := s.actors[a].worker.claim;
      && s' == Become(s, a, Working(Deciding(c, Desired(s.wallets, c.pair))))
    case List =>
      && IsWorker(s, a)
      && var k := s.actors[a].worker;
      && (k.Deciding? || k.Patched?)
      && var observed := k.claim.pair in s.watched;
      && s' == Become(s, a, Working(
                 if k.Deciding? then
                   if observed == k.desired then Confirmed(k.claim, k.desired, observed) else Listed(k.claim, k.desired, observed)
                 else
                   // A second listing that still disagrees is an error.
                   if observed == k.desired then Confirmed(k.claim, k.desired, observed) else Unlocking(k.claim, true)))
    case Patch(applied, reported) =>
      && IsWorker(s, a) && s.actors[a].worker.Listed?
      && var k := s.actors[a].worker;
      && s' == Become(s, a, Working(if reported then Patched(k.claim, k.desired) else Unlocking(k.claim, true))).(
                 watched := if !applied then s.watched
                            else if k.desired then s.watched + {k.claim.pair} else s.watched - {k.claim.pair})
    case Recheck =>
      && IsWorker(s, a) && s.actors[a].worker.Confirmed?
      && var k := s.actors[a].worker;
      && s' == Become(s, a, Working(
                 if k.observed == Desired(s.wallets, k.claim.pair) then Completing(k.claim, k.observed) else Releasing(k.claim)))
    case Complete =>
      && IsWorker(s, a) && s.actors[a].worker.Completing?
      && var k := s.actors[a].worker;
      && Free(s, MarkerRow(k.claim.pair))
      && var desired := Desired(s.wallets, k.claim.pair);
      && s' == Become(s, a, Working(
                 if Live(s.markers, k.claim, s.now) && k.observed == desired then Unlocking(k.claim, false) else Releasing(k.claim))).(
                 markers := Completed(s.markers, k.claim, s.now, k.observed, desired))
    case Release =>
      && IsWorker(s, a) && s.actors[a].worker.Releasing?
      && var c := s.actors[a].worker.claim;
      && Free(s, MarkerRow(c.pair))
      && s' == Become(s, a, Working(Unlocking(c, false))).(markers := Released(s.markers, c, s.now))
    // The session lock ends either way; an unconfirmed unlock is reported as an error.
    case Unlock(confirmed) =>
      && IsWorker(s, a) && s.actors[a].worker.Unlocking?
      && var k := s.actors[a].worker;
      && s' == Become(s, a, if k.failed || !confirmed then Working(Retrying(k.claim)) else Idle)
    // Any awaited call inside the worker may throw; while the lock is held it is released first.
    case Fail =>
      && IsWorker(s, a) && !s.actors[a].worker.Retrying?
      && var k := s.actors[a].worker;
      && s' == Become(s, a, Working(if k.Waiting? then Retrying(k.claim) else Unlocking(k.claim, true)))
    case Retry(delayMs) =>
      && IsWorker(s, a) && s.actors[a].worker.Retrying?
      && var c := s.actors[a].worker.claim;
      && Free(s, MarkerRow(c.pair))
      && s' == Become(s, a, Idle).(markers := Retried(s.markers, c, s.now + delayMs))
  }

  ghost function ActiveAddresses(ws: Wallets, c: Chain): set<Address> {
    set w | w in ws && ws[w].active && c in ws[w].enabled :: ws[w].address
  }

  ghost function WatchedAddresses(watched: set<Pair>, c: Chain): set<Address> {
    set p | p in watched && p.chain == c :: p.address
  }

  ghost function DriftPairs(c: Chain, db: set<Address>, watched: set<Address>): set<Pair> {
    set a | a in (db - watched) + (watched - db) :: Pair(c, a)
  }

  ghost predicate SweepNext(s: World, a: ActorId, act: SweepAct, s': World) {
    match act
    case StartSweep =>
      && a in s.actors && s.actors[a].Idle?
      && s' == Become(s, a, Sweeping(Sweep([EthereumMainnet, BaseMainnet], {}, Ready)))
    case ReadDb =>
      && IsSweep(s, a) && s.actors[a].sweep.stage.Ready?
      && var sw := s.actors[a].sweep;
      && s' == Become(s, a, Sweeping(sw.(stage := HasDb(ActiveAddresses(s.wallets, sw.todo[0])))))
    case ReadWatched =>
      && IsSweep(s, a) && s.actors[a].sweep.stage.HasDb?
      && var sw := s.actors[a].sweep;
      && s' == Become(s, a, Sweeping(sw.(stage := HasBoth(sw.stage.db, WatchedAddresses(s.watched, sw.todo[0])))))
    case Plan(pairs) =>
      && IsSweep(s, a) && s.actors[a].sweep.stage.HasBoth?
      && var sw := s.actors[a].sweep;
      && Sorted(pairs) && Elements(pairs) == DriftPairs(sw.todo[0], sw.stage.db, sw.stage.watched)
      && s' == Become(s, a, Sweeping(sw.(stage := Enqueueing(pairs, 0))))
    case LockRow =>
      && IsSweep(s, a) && s.actors[a].sweep.stage.Enqueueing?
      && var sw := s.actors[a].sweep;
      && sw.stage.rowsHeld < |sw.stage.pairs| && Free(s, MarkerRow(sw.stage.pairs[sw.stage.rowsHeld]))
      && s' == Become(s, a, Sweeping(sw.(stage := Enqueueing(sw.stage.pairs, sw.stage.rowsHeld + 1))))
    case CommitDrift =>
      && IsSweep(s, a) && s.actors[a].sweep.stage.Enqueueing?
      && var sw := s.actors[a].sweep;
      && sw.stage.rowsHeld == |sw.stage.pairs|
      && s' == Become(s, a, Sweeping(Sweep(sw.todo[1..], sw.done + {sw.todo[0]}, Ready))).(
                 markers := MarkedDirty(s.markers, Elements(sw.stage.pairs), s.now))
    // A chain whose reads or enqueue fail is reported and the next chain is tried.
    case SkipChain =>
      && IsSweep(s, a)
      && var sw := s.actors[a].sweep;
      && s' == Become(s, a, Sweeping(Sweep(sw.todo[1..], sw.done, Ready)))
  }

  ghost predicate Next(s: World, step: Step, s': World) {
    match step
    case Env(act) => EnvNext(s, act, s')
    case Write(a, act) => WriterNext(s, a, act, s')
    case Work(a, act) => WorkerNext(s, a, act, s')
    case Scan(a, act) => SweepNext(s, a, act, s')
  }

  /** Any stored wallets and watched set; nobody is running and no marker is claimed. */
  ghost predicate Init(s: World) {
    s.actors == map[] && forall p | p in s.markers :: s.markers[p].claim.None?
  }

  /** `run` is a run from its first world under `steps`. */
  ghost predicate IsRun(run: seq<World>, steps: seq<Step>) {
    && |run| == |steps| + 1
    && forall i | 0 <= i < |steps| :: Next(run[i], steps[i], run[i + 1])
  }
}
