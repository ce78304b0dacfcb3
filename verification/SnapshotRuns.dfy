/** Which steps of a run make a snapshot: one that computes a summary, and a later one that captures it. */
module SnapshotRuns {
  import opened Chains
  import opened WalletRecords
  import opened Wrappers
  import opened PortfolioSnapshot
  import H = HoldingsModel
  import P = Positions

  /** A computation's summary, and when it was made. */
  datatype Made = Made(comp: CompId, key: Key, value: Summary, at: int)

  ghost predicate Makes(s: World, step: Step, x: Made) {
    && step.OfComp? && step.comp.Compute? && step.c == x.comp && step.c in s.comps && s.comps[step.c].key == x.key && s.now == x.at
    && (x.key.mode.full ==> !step.comp.pos.NoCached?)
    && (!x.key.mode.persisted ==> !step.comp.h.partial ==> step.comp.h.total.Some?)
    && x.value == SummaryOf(step.comp.h, step.comp.pos, x.key.mode.full)
  }

  ghost predicate Remembers(made: iset<Made>, k: Key, e: Entry) {
    exists c, at :: Made(c, k, e.value, at) in made && e.expiresAt <= at + 10 * 1000
  }

  ghost predicate CacheMade(made: iset<Made>, cache: map<Key, Entry>) {
    forall k | k in cache :: Remembers(made, k, cache[k])
  }

  ghost predicate CompMade(made: iset<Made>, c: CompId, x: Comp) {
    x.stage.Done? ==> exists at :: Made(c, x.key, x.stage.value, at) in made
  }

  ghost predicate AllMade(made: iset<Made>, s: World) {
    CacheMade(made, s.cache) && forall c | c in s.comps :: CompMade(made, c, s.comps[c])
  }

  lemma WalletChanges(made: iset<Made>, asked: set<Wallet>, s: World, w: Wallet, s': World)
    requires AllMade(made, s) && Next(asked, s, ChangeWallet(w), s')
    ensures AllMade(made, s')
  {
    forall c | c in s'.comps ensures CompMade(made, c, s'.comps[c]) {
      assert CompMade(made, c, s.comps[c]);
    }
  }

  lemma CompMoves(made: iset<Made>, asked: set<Wallet>, s: World, c: CompId, act: CompAct, s': World)
    requires AllMade(made, s) && CompNext(asked, s, c, act, s') && !act.Compute?
    ensures AllMade(made, s')
  {
    assert s'.cache == s.cache && !s'.comps[c].stage.Done? && s'.comps == s.comps[c := s'.comps[c]];
  }

  lemma HoldingsAreValued(asked: set<Wallet>, w: Wallet, h: H.Portfolio)
    requires HoldingsAnswer(asked, w, true, h) && !h.partial
    ensures h.total.Some?
  {
    HoldingsAre(asked, w, h);
  }

  lemma ComputeMakes(asked: set<Wallet>, s: World, c: CompId, h: H.Portfolio, pos: PositionsOutcome, s': World)
    requires CompNext(asked, s, c, Compute(h, pos), s')
    ensures Makes(s, OfComp(c, Compute(h, pos)), Made(c, s.comps[c].key, SummaryOf(h, pos, s.comps[c].key.mode.full), s.now))
  {
    var x := s.comps[c];
    if !x.key.mode.persisted && !h.partial { HoldingsAreValued(asked, x.holdingsRow.value, h); }
  }

  lemma ComputeKeeps(made: iset<Made>, asked: set<Wallet>, s: World, c: CompId, h: H.Portfolio, pos: PositionsOutcome, s': World)
    requires AllMade(made, s) && CompNext(asked, s, c, Compute(h, pos), s')
    requires Made(c, s.comps[c].key, SummaryOf(h, pos, s.comps[c].key.mode.full), s.now) in made
    ensures AllMade(made, s')
  {
    var x := s.comps[c];
    var v := SummaryOf(h, pos, x.key.mode.full);
    SummaryPut(made, s, c, v, s');
  }

  lemma SummaryPut(made: iset<Made>, s: World, c: CompId, v: Summary, s': World)
    requires AllMade(made, s) && c in s.comps && Made(c, s.comps[c].key, v, s.now) in made
    requires s'.cache == Remembered(s, s.comps[c], v) && s'.comps == s.comps[c := s.comps[c].(stage := Done(v))]
    ensures AllMade(made, s')
  {
    assert Remembers(made, s.comps[c].key, s'.cache[s.comps[c].key]);
    assert CompMade(made, c, s'.comps[c]);
  }

  lemma StepMakes(made: iset<Made>, asked: set<Wallet>, s: World, step: Step, s': World)
    requires AllMade(made, s) && Next(asked, s, step, s') && forall x | Makes(s, step, x) :: x in made
    ensures AllMade(made, s')
  {
    match step
    case Tick(_) =>
    case ChangeWallet(w) => WalletChanges(made, asked, s, w, s');
    case OfComp(c, act) =>
      if act.Compute? {
        ComputeMakes(asked, s, c, act.h, act.pos, s');
        ComputeKeeps(made, asked, s, c, act.h, act.pos, s');
      } else {
        CompMoves(made, asked, s, c, act, s');
      }
    case CaptureCached(w) =>
    case CaptureComputed(w, c) =>
  }

  ghost predicate MakesAt(run: seq<World>, steps: seq<Step>, j: nat, x: Made)
    requires j < |steps| < |run|
  {
    Makes(run[j], steps[j], x)
  }

  ghost predicate MadeBefore(run: seq<World>, steps: seq<Step>, n: nat, x: Made)
    requires n <= |steps| < |run|
  {
    exists j: nat | j < n :: MakesAt(run, steps, j, x)
  }

  ghost function MadeBy(run: seq<World>, steps: seq<Step>, n: nat): iset<Made>
    requires n <= |steps| < |run|
  {
    iset x | MadeBefore(run, steps, n, x)
  }

  lemma {:induction false} RunMakes(asked: set<Wallet>, run: seq<World>, steps: seq<Step>, n: nat, i: nat)
    requires IsRun(asked, run, steps) && i <= n <= |steps|
    ensures AllMade(MadeBy(run, steps, n), run[i])
    decreases i
  {
    if i > 0 {
      RunMakes(asked, run, steps, n, i - 1);
      assert StepAt(asked, run, steps, i - 1);
      forall x | Makes(run[i - 1], steps[i - 1], x) ensures x in MadeBy(run, steps, n) {
        assert MakesAt(run, steps, i - 1, x);
      }
      StepMakes(MadeBy(run, steps, n), asked, run[i - 1], steps[i - 1], run[i]);
    }
  }

  /** The m-th step captures a snapshot of this wallet, the k-th ever. */
  predicate Takes(run: seq<World>, steps: seq<Step>, m: nat, k: nat, wallet: nat)
    requires m < |steps| < |run|
  {
    && (steps[m].CaptureCached? || steps[m].CaptureComputed?) && steps[m].wallet == wallet
    && |run[m].snapshots| == k && |run[m + 1].snapshots| == k + 1
  }

  lemma StepAppends(asked: set<Wallet>, s: World, step: Step, s': World)
    requires Next(asked, s, step, s')
    ensures s.snapshots <= s'.snapshots && |s'.snapshots| <= |s.snapshots| + 1
    ensures s' != s && s'.snapshots != s.snapshots ==> step.CaptureCached? || step.CaptureComputed?
  {
  }

  lemma {:induction false} SnapshotWasTaken(asked: set<Wallet>, run: seq<World>, steps: seq<Step>, i: nat, k: nat) returns (m: nat)
    requires IsRun(asked, run, steps) && i < |run| && k < |run[i].snapshots|
    ensures m < i && |run[m].snapshots| == k < |run[m + 1].snapshots| && run[m + 1].snapshots[k] == run[i].snapshots[k]
    decreases i
  {
    assert StepAt(asked, run, steps, i - 1);
    StepAppends(asked, run[i - 1], steps[i - 1], run[i]);
    if k < |run[i - 1].snapshots| {
      m := SnapshotWasTaken(asked, run, steps, i - 1, k);
    } else {
      m := i - 1;
    }
  }

  /** The value the m-th step captures. */
  function CapturedValue(s: World, step: Step): Option<Summary> {
    match step
    case CaptureCached(w) => if Key(w, SNAPSHOT_MODE) in s.cache then Some(s.cache[Key(w, SNAPSHOT_MODE)].value) else None
    case CaptureComputed(w, c) => if c in s.comps && s.comps[c].stage.Done? then Some(s.comps[c].stage.value) else None
    case _ => None
  }

  lemma CaptureIs(asked: set<Wallet>, s: World, step: Step, s': World)
    requires Next(asked, s, step, s') && |s.snapshots| < |s'.snapshots|
    ensures (step.CaptureCached? || step.CaptureComputed?) && CapturedValue(s, step).Some? && |s'.snapshots| == |s.snapshots| + 1
    ensures var v := CapturedValue(s, step).value; Complete(v) && s'.snapshots[|s.snapshots|] == SnapshotOf(step.wallet, v, s.now)
    ensures step.CaptureCached? ==> Key(step.wallet, SNAPSHOT_MODE) in s.cache && s.now < s.cache[Key(step.wallet, SNAPSHOT_MODE)].expiresAt
    ensures step.CaptureComputed? ==> step.c in s.comps && s.comps[step.c].key == Key(step.wallet, SNAPSHOT_MODE) && s.comps[step.c].stage.Done?
  {
  }

  lemma CapturedWasMade(made: iset<Made>, asked: set<Wallet>, s: World, step: Step, s': World) returns (x: Made)
    requires AllMade(made, s) && Next(asked, s, step, s') && |s.snapshots| < |s'.snapshots|
    ensures x in made && (step.CaptureCached? || step.CaptureComputed?) && x.key == Key(step.wallet, SNAPSHOT_MODE)
    ensures Complete(x.value) && s'.snapshots[|s.snapshots|] == SnapshotOf(step.wallet, x.value, s.now) && |s'.snapshots| == |s.snapshots| + 1
    ensures if step.CaptureCached? then s.now < x.at + 10 * 1000 else step.c == x.comp
  {
    CaptureIs(asked, s, step, s');
    var k, v := Key(step.wallet, SNAPSHOT_MODE), CapturedValue(s, step).value;
    if step.CaptureCached? {
      assert Remembers(made, k, s.cache[k]);
      var c, at :| Made(c, k, v, at) in made && s.cache[k].expiresAt <= at + 10 * 1000;
      x := Made(c, k, v, at);
    } else {
      assert CompMade(made, step.c, s.comps[step.c]);
      var at :| Made(step.c, k, v, at) in made;
      x := Made(step.c, k, v, at);
    }
  }

  /** What a complete summary for a snapshot was made from, in amounts. */
  lemma MadeAdds(s: World, step: Step, x: Made, at: int)
    requires Makes(s, step, x) && x.key.mode == SNAPSHOT_MODE && Complete(x.value)
    ensures step.comp.pos.Have? && !step.comp.h.partial && !step.comp.pos.value.partial
    ensures var y := SnapshotOf(x.key.wallet, x.value, at);
            && y.wallet == x.key.wallet && y.capturedAt == at && step.comp.h.total == Some(y.holdings)
            && PositionsTotal(TallyOf(AllPositions(step.comp.pos.value.parts))) == Some(y.positions) && y.total == y.holdings + y.positions
  {
    UnqualifiedSummaryAdds(step.comp.h, step.comp.pos);
  }

  /**
   Every snapshot was written by one capture of its wallet, at that step's time, and adds the two unqualified answers
   that an earlier step had put into a summary of that wallet: the very one the capture waited for, or one made less
   than ten seconds before.
   */
  lemma SnapshotsWereComputed(asked: set<Wallet>, run: seq<World>, steps: seq<Step>, i: nat, k: nat) returns (j: nat, m: nat)
    requires IsRun(asked, run, steps) && i < |run| && k < |run[i].snapshots|
    ensures var x := run[i].snapshots[k];
            && j < m < i && Takes(run, steps, m, k, x.wallet) && x.capturedAt == run[m].now
            && Sums(run, steps, j) && run[j].comps[steps[j].c].key.wallet == x.wallet
            && steps[j].comp.h.total == Some(x.holdings) && x.total == x.holdings + x.positions
            && PositionsTotal(TallyOf(AllPositions(steps[j].comp.pos.value.parts))) == Some(x.positions)
            && if steps[m].CaptureCached? then run[m].now < run[j].now + 10 * 1000 else steps[m].c == steps[j].c
  {
    m := SnapshotWasTaken(asked, run, steps, i, k);
    RunMakes(asked, run, steps, m, m);
    assert StepAt(asked, run, steps, m);
    var x := CapturedWasMade(MadeBy(run, steps, m), asked, run[m], steps[m], run[m + 1]);
    assert MadeBefore(run, steps, m, x);
    j :| j < m && MakesAt(run, steps, j, x);
    MadeAdds(run[j], steps[j], x, run[m].now);
  }

  // ---- When the two rows of a summary differ ----

  /** The k-th step changes the wallet's chains while the computation has read one row and not yet the other. */
  predicate ChangesBetween(run: seq<World>, steps: seq<Step>, k: nat, c: CompId)
    requires k < |steps| < |run|
  {
    && steps[k].ChangeWallet? && c in run[k].comps && steps[k].row.id == run[k].comps[c].key.wallet
    && (run[k].comps[c].holdingsRow.Some? != run[k].comps[c].positionsRow.Some?)
    && var seen := if run[k].comps[c].holdingsRow.Some? then run[k].comps[c].holdingsRow.value else run[k].comps[c].positionsRow.value;
    && ChainSet(seen) != ChainSet(steps[k].row)
  }

  lemma CompBefore(asked: set<Wallet>, s: World, step: Step, s': World, c: CompId)
    requires Next(asked, s, step, s') && c in s'.comps && s'.comps[c].changed
    ensures c in s.comps && (s.comps[c].changed || (step.ChangeWallet? && s'.comps[c] == Noticed(s.comps[c], step.row)))
  {
  }

  lemma {:induction false} ChangedByAStep(asked: set<Wallet>, run: seq<World>, steps: seq<Step>, i: nat, c: CompId) returns (k: nat)
    requires IsRun(asked, run, steps) && i < |run| && c in run[i].comps && run[i].comps[c].changed
    ensures k < i && ChangesBetween(run, steps, k, c)
    decreases i
  {
    assert StepAt(asked, run, steps, i - 1);
    CompBefore(asked, run[i - 1], steps[i - 1], run[i], c);
    if run[i - 1].comps[c].changed {
      k := ChangedByAStep(asked, run, steps, i - 1, c);
    } else {
      k := i - 1;
    }
  }

  /** A summary adds answers of different chains only if the wallet's chains were changed between its two reads. */
  lemma DifferentChainsWereChanged(asked: set<Wallet>, run: seq<World>, steps: seq<Step>, i: nat) returns (k: nat)
    requires IsRun(asked, run, steps) && Sums(run, steps, i) && PartChains(steps[i].comp.pos.value) != EnabledIn(steps[i].comp.h)
    ensures k < i && ChangesBetween(run, steps, k, steps[i].c)
  {
    var wh, wp := SummaryAddsOneSetOfChains(asked, run, steps, i);
    k := ChangedByAStep(asked, run, steps, i, steps[i].c);
  }
}
