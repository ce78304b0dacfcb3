/** Writers, workers and sweeps take locks in one order, so no set of them can block itself. */
module ProtocolDeadlock {
  import opened Chains
  import opened Wrappers
  import opened Markers
  import opened WalletWrites
  import opened Protocol
  import opened ProtocolInvariants

  function Kind(l: Lock): nat {
    match l
    case UserRow(_) => 0
    case SessionRow(_) => 1
    case WalletRow(_) => 2
    case PairKey(_) => 3
    case MarkerRow(_) => 4
  }

  /** The documented order: user row, session or wallet row, sorted pair keys, sorted marker rows. */
  predicate Earlier(l: Lock, m: Lock) {
    Kind(l) < Kind(m)
    || (l.UserRow? && m.UserRow? && l.user < m.user)
    || (l.SessionRow? && m.SessionRow? && l.session < m.session)
    || (l.WalletRow? && m.WalletRow? && l.wallet < m.wallet)
    || (l.PairKey? && m.PairKey? && Precedes(l.pair, m.pair))
    || (l.MarkerRow? && m.MarkerRow? && Precedes(l.row, m.row))
  }

  /** The lock an actor's next statement needs, if it needs one. */
  function WaitsFor(x: Actor): Option<Lock> {
    match x
    case Idle => None
    case Writing(w) => (
      match w.stage
      case Begun => Some(UserRow(w.op.user))
      case UserLocked => SecondRow(w.op)
      case RowLocked => None
      case Locking => if w.pairsHeld < |w.plan| then Some(PairKey(w.plan[w.pairsHeld])) else None
      case Marking => if w.marksHeld < |w.marks| then Some(MarkerRow(w.marks[w.marksHeld])) else None)
    case Working(k) => (
      match k
      case Waiting(c) => Some(PairKey(c.pair))
      case Completing(c, _) => Some(MarkerRow(c.pair))
      case Releasing(c) => Some(MarkerRow(c.pair))
      case Retrying(c) => Some(MarkerRow(c.pair))
      case _ => None)
    case Sweeping(sw) =>
      if sw.stage.Enqueueing? && sw.stage.rowsHeld < |sw.stage.pairs| then Some(MarkerRow(sw.stage.pairs[sw.stage.rowsHeld]))
      else None
  }

  ghost predicate BlockedBy(s: World, a: ActorId, b: ActorId) {
    && a in s.actors && b in s.actors
    && WaitsFor(s.actors[a]).Some? && Holds(s.actors[b], WaitsFor(s.actors[a]).value)
  }

  ghost predicate SweepSorted(sw: Sweep) {
    sw.stage.Enqueueing? ==> Sorted(sw.stage.pairs)
  }

  ghost predicate SweepsSorted(s: World) {
    forall a | a in s.actors && s.actors[a].Sweeping? :: SweepSorted(s.actors[a].sweep)
  }

  lemma OwnSweepSorted(s: World, step: Step, s': World, a: ActorId)
    requires Next(s, step, s') && SweepsSorted(s) && Mover(step) == Some(a) && a in s'.actors && s'.actors[a].Sweeping?
    ensures SweepSorted(s'.actors[a].sweep)
  {
    match step
    case Env(_) =>
    case Write(b, act) => WriterActsAlone(s, b, act, s');
    case Work(b, act) => WorkerActsAlone(s, b, act, s');
    case Scan(b, act) =>
      if b in s.actors && s.actors[b].Sweeping? { assert SweepSorted(s.actors[b].sweep); }
  }

  lemma SweepsSortedStep(s: World, step: Step, s': World)
    requires Next(s, step, s') && SweepsSorted(s)
    ensures SweepsSorted(s')
  {
    forall a | a in s'.actors && s'.actors[a].Sweeping? ensures SweepSorted(s'.actors[a].sweep) {
      if Mover(step) == Some(a) {
        OwnSweepSorted(s, step, s', a);
      } else {
        OthersStay(s, step, s', a);
      }
    }
  }

  lemma {:induction false} RunSweepsSorted(run: seq<World>, steps: seq<Step>, i: nat)
    requires IsRun(run, steps) && Init(run[0]) && i < |run|
    ensures SweepsSorted(run[i])
  {
    if i > 0 {
      RunSweepsSorted(run, steps, i - 1);
      SweepsSortedStep(run[i - 1], steps[i - 1], run[i]);
    }
  }

  /** What an actor waits for comes after everything it holds. */
  lemma WaitsUpwards(s: World, a: ActorId, l: Lock)
    requires Inv(s) && SweepsSorted(s)
    requires a in s.actors && WaitsFor(s.actors[a]).Some? && Holds(s.actors[a], l)
    ensures Earlier(l, WaitsFor(s.actors[a]).value)
  {
    match s.actors[a]
    case Idle =>
    case Writing(w) =>
      assert WriterOk(s, w);
    case Working(k) =>
    case Sweeping(sw) =>
      assert SweepSorted(sw);
  }

  lemma EarlierIsStrict(l: Lock, m: Lock, n: Lock)
    ensures !Earlier(l, l)
    ensures Earlier(l, m) && Earlier(m, n) ==> Earlier(l, n)
    ensures l == m || Earlier(l, m) || Earlier(m, l)
  {
    if l.PairKey? && m.PairKey? {
      assert ChainRank(l.pair.chain) == ChainRank(m.pair.chain) ==> l.pair.chain == m.pair.chain;
    }
    if l.MarkerRow? && m.MarkerRow? {
      assert ChainRank(l.row.chain) == ChainRank(m.row.chain) ==> l.row.chain == m.row.chain;
    }
  }

  lemma LatestWaiter(s: World, group: set<ActorId>) returns (a: ActorId)
    requires group != {} && forall b | b in group :: b in s.actors && WaitsFor(s.actors[b]).Some?
    ensures a in group
    ensures forall b | b in group :: !Earlier(WaitsFor(s.actors[a]).value, WaitsFor(s.actors[b]).value)
  {
    var b :| b in group;
    var rest := group - {b};
    assert forall c | c in group && c != b :: c in rest;
    EarlierIsStrict(WaitsFor(s.actors[b]).value, WaitsFor(s.actors[b]).value, WaitsFor(s.actors[b]).value);
    if rest == {} {
      a := b;
    } else {
      var c := LatestWaiter(s, rest);
      var lb, lc := WaitsFor(s.actors[b]).value, WaitsFor(s.actors[c]).value;
      a := if Earlier(lc, lb) then b else c;
      forall d | d in rest ensures !Earlier(WaitsFor(s.actors[a]).value, WaitsFor(s.actors[d]).value) {
        var ld := WaitsFor(s.actors[d]).value;
        EarlierIsStrict(lc, lb, ld);
      }
    }
  }

  lemma GroupCannotBlockItself(s: World, group: set<ActorId>)
    requires Inv(s) && SweepsSorted(s) && group != {}
    ensures exists a | a in group :: forall b | b in group :: !BlockedBy(s, a, b)
  {
    if w :| w in group && (w !in s.actors || WaitsFor(s.actors[w]).None?) {
    } else {
      var a := LatestWaiter(s, group);
      forall b | b in group ensures !BlockedBy(s, a, b) {
        if BlockedBy(s, a, b) { WaitsUpwards(s, b, WaitsFor(s.actors[a]).value); }
      }
    }
  }

  /** No reachable world holds a non-empty set of actors that are all blocked by one another. */
  lemma DeadlockFree(run: seq<World>, steps: seq<Step>, i: nat, group: set<ActorId>)
    requires IsRun(run, steps) && Init(run[0]) && i < |run| && group != {}
    ensures exists a | a in group :: forall b | b in group :: !BlockedBy(run[i], a, b)
  {
    RunInv(run, steps, i);
    RunSweepsSorted(run, steps, i);
    GroupCannotBlockItself(run[i], group);
  }
}
