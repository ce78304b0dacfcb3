/**
 When the answers a snapshot adds up belong together. Each of the two requests of a summary reads the wallet's row
 itself, and each service may answer for a record of the wallet it read before.
 */
module SnapshotInputs {
  import opened Chains
  import opened WalletRecords
  import opened Wrappers
  import opened PortfolioSnapshot
  import H = HoldingsModel
  import HP = HoldingsProtocol
  import LiveRun = HoldingsLiveRun
  import P = Positions
  import FullRun = PositionsFullRun

  predicate AllSupported(w: Wallet) {
    forall c | c in ChainSet(w) :: Supported(c)
  }

  /** Whole holdings can be read with the first record, and positions with the second, of the same wallet. */
  predicate MayBeAdded(wh: Wallet, wp: Wallet) {
    wh.id == wp.id && AllSupported(wh) && SupportedChains(wp) != []
  }

  /** Whatever is added is of one set of chains. */
  predicate OneChainSet(asked: set<Wallet>) {
    forall wh, wp | wh in asked && wp in asked && MayBeAdded(wh, wp) :: ChainsAgree(wh, wp)
  }

  /** Whatever is added is of one address. */
  predicate OneHome(asked: set<Wallet>) {
    forall wh, wp | wh in asked && wp in asked && MayBeAdded(wh, wp) :: wh.address == wp.address
  }

  predicate SameChains(h: H.Portfolio, v: P.Result) {
    PartChains(v) == EnabledIn(h)
  }

  predicate SameAddress(h: H.Portfolio, v: P.Result) {
    forall i, j | 0 <= i < |h.parts| && 0 <= j < |v.parts| :: h.parts[i].holdings.origin.address == v.parts[j].origin.address
  }

  ghost predicate AddsSameChains(run: seq<World>, steps: seq<Step>) {
    forall i: nat | Sums(run, steps, i) :: SameChains(steps[i].comp.h, steps[i].comp.pos.value)
  }

  ghost predicate AddsSameAddress(run: seq<World>, steps: seq<Step>) {
    forall i: nat | Sums(run, steps, i) :: SameAddress(steps[i].comp.h, steps[i].comp.pos.value)
  }

  // ---- Records that agree are enough ----

  lemma AddedRecords(asked: set<Wallet>, wh: Wallet, wp: Wallet, h: H.Portfolio, v: P.Result)
    requires wh.id == wp.id && Inputs(asked, wh, wp, h, v)
    ensures MayBeAdded(wh, wp)
  {
    forall c | c in ChainSet(wh) ensures Supported(c) {
      assert c in EnabledIn(h);
    }
  }

  lemma ChainsAreSame(asked: set<Wallet>, run: seq<World>, steps: seq<Step>, i: nat)
    requires OneChainSet(asked) && IsRun(asked, run, steps) && Sums(run, steps, i)
    ensures SameChains(steps[i].comp.h, steps[i].comp.pos.value)
  {
    var wh, wp := SummaryAddsOneSetOfChains(asked, run, steps, i);
    AddedRecords(asked, wh, wp, steps[i].comp.h, steps[i].comp.pos.value);
  }

  lemma MayBeAddedToo(wh: Wallet, wp: Wallet, rh: Wallet, rp: Wallet)
    requires MayBeAdded(wh, wp) && SameKey(rh, wh) && SameKey(rp, wp)
    ensures MayBeAdded(rh, rp)
  {
    SupportedIn(wp);
    SupportedIn(rp);
  }

  lemma AddressIsSame(asked: set<Wallet>, run: seq<World>, steps: seq<Step>, i: nat)
    requires OneHome(asked) && IsRun(asked, run, steps) && Sums(run, steps, i)
    ensures SameAddress(steps[i].comp.h, steps[i].comp.pos.value)
  {
    var h, v := steps[i].comp.h, steps[i].comp.pos.value;
    var wh, wp := SummaryAddsOneSetOfChains(asked, run, steps, i);
    AddedRecords(asked, wh, wp, h, v);
    var rh :| rh in asked && SameKey(rh, wh) && H.FetchedFor(rh, h.parts);
    var rp :| rp in asked && SameKey(rp, wp) && P.FetchedFor(rp, v.parts);
    MayBeAddedToo(wh, wp, rh, rp);
  }

  // ---- And needed: a snapshot from any two records that may be added ----

  lemma LiveHoldings(asked: set<Wallet>, w: Wallet) returns (h: H.Portfolio)
    requires w in asked && AllSupported(w)
    ensures HoldingsAnswer(asked, w, true, h) && !h.partial && h.parts != [] && H.FetchedFor(w, h.parts)
  {
    AllKept(w);
    var run, steps;
    run, steps, h := LiveRun.LiveAnswer(w);
    LiveRun.LargerAsked(run, steps, {w}, asked);
    assert HoldingsServed(asked, run, steps, |steps|, 0, w, true, h);
  }

  lemma AllKept(w: Wallet)
    requires AllSupported(w)
    ensures SupportedChains(w) != [] && forall c | c in EnabledChains(w) :: Supported(c)
  {
    EnabledSome(w);
    SupportedIn(w);
    assert EnabledChains(w)[0] in EnabledChains(w);
    assert EnabledChains(w)[0] in ChainSet(w);
    forall c | c in EnabledChains(w) ensures Supported(c) {
      assert c in ChainSet(w);
    }
  }

  lemma {:induction false} DedupSome(cs: seq<Chain>)
    requires cs != []
    ensures Dedup(cs) != []
  {
    if |cs| > 1 { DedupSome(cs[..|cs| - 1]); }
  }

  lemma EnabledSome(w: Wallet)
    ensures EnabledChains(w) != []
  {
    if w.enabled != [] { DedupSome(w.enabled); }
  }

  lemma FullPositions(asked: set<Wallet>, w: Wallet) returns (v: P.Result)
    requires w in asked && SupportedChains(w) != []
    ensures PositionsAnswer(asked, w, true, v) && !v.partial && v.parts != [] && P.FetchedFor(w, v.parts)
    ensures AllPositions(v.parts) == []
  {
    v := FullRun.ResultOf(w);
    FullRun.ResultIs(w);
    var run, steps := FullRun.FullAnswer(w);
    FullRun.LargerAsked(run, steps, {w}, asked);
    assert PositionsServed(asked, run, steps, |steps|, 0, w, true, v);
    NothingListed(v.parts);
  }

  lemma {:induction false} NothingListed(parts: seq<P.Part>)
    requires forall i | 0 <= i < |parts| :: parts[i].positions == []
    ensures AllPositions(parts) == []
  {
    if parts != [] { NothingListed(parts[..|parts| - 1]); }
  }

  lemma SummaryIsComplete(asked: set<Wallet>, w: Wallet, h: H.Portfolio, v: P.Result)
    requires HoldingsAnswer(asked, w, true, h) && !h.partial && !v.partial && AllPositions(v.parts) == []
    ensures Complete(SummaryOf(h, Have(v), true))
  {
    HoldingsAre(asked, w, h);
  }

  function Working(row: Wallet, x: Comp): World {
    World(0, map[row.id := row], map[], map[x.key := 0], map[0 := x], [])
  }

  function Started(wallet: nat): Comp {
    Comp(Key(wallet, SNAPSHOT_MODE), None, None, false, Computing)
  }

  function Reading(wh: Wallet): Comp {
    Started(wh.id).(holdingsRow := Some(wh))
  }

  function HasBoth(wh: Wallet, wp: Wallet): Comp {
    Noticed(Reading(wh), wp).(positionsRow := Some(wp))
  }

  function Computed(wh: Wallet, wp: Wallet, v: Summary): World {
    var s, x := Working(wp, HasBoth(wh, wp)), HasBoth(wh, wp);
    s.(comps := map[0 := x.(stage := Done(v))], cache := Remembered(s, x, v), inFlight := map[])
  }

  lemma OneStepMore(asked: set<Wallet>, run: seq<World>, steps: seq<Step>, step: Step, s': World)
    requires IsRun(asked, run, steps) && Next(asked, run[|steps|], step, s')
    ensures IsRun(asked, run + [s'], steps + [step])
  {
    forall i | 0 <= i < |steps| + 1 ensures StepAt(asked, run + [s'], steps + [step], i) {
      if i < |steps| { assert StepAt(asked, run, steps, i); }
    }
  }

  lemma FirstRead(asked: set<Wallet>, wh: Wallet) returns (run: seq<World>, steps: seq<Step>)
    requires wh in asked
    ensures IsRun(asked, run, steps) && |steps| == 2 && run[2] == Working(wh, Reading(wh))
  {
    run, steps := [World(0, map[wh.id := wh], map[], map[], map[], [])], [];
    OneStepMore(asked, run, steps, OfComp(0, Begin(Key(wh.id, SNAPSHOT_MODE))), Working(wh, Started(wh.id)));
    run, steps := run + [Working(wh, Started(wh.id))], steps + [OfComp(0, Begin(Key(wh.id, SNAPSHOT_MODE)))];
    OneStepMore(asked, run, steps, OfComp(0, ReadForHoldings), Working(wh, Reading(wh)));
    run, steps := run + [Working(wh, Reading(wh))], steps + [OfComp(0, ReadForHoldings)];
  }

  lemma RowChanges(asked: set<Wallet>, wh: Wallet, wp: Wallet)
    requires wp in asked && wh.id == wp.id
    ensures Next(asked, Working(wh, Reading(wh)), ChangeWallet(wp), Working(wp, Noticed(Reading(wh), wp)))
  {
    var s := Working(wh, Reading(wh));
    assert (map c | c in s.comps :: Noticed(s.comps[c], wp)) == map[0 := Noticed(Reading(wh), wp)];
    assert s.rows[wp.id := wp] == map[wp.id := wp];
  }

  lemma SecondRead(asked: set<Wallet>, wh: Wallet, wp: Wallet) returns (run: seq<World>, steps: seq<Step>)
    requires wh in asked && wp in asked && wh.id == wp.id
    ensures IsRun(asked, run, steps) && |steps| == 4 && run[4] == Working(wp, HasBoth(wh, wp))
  {
    run, steps := FirstRead(asked, wh);
    RowChanges(asked, wh, wp);
    var s' := Working(wp, Noticed(Reading(wh), wp));
    OneStepMore(asked, run, steps, ChangeWallet(wp), s');
    run, steps := run + [s'], steps + [ChangeWallet(wp)];
    OneStepMore(asked, run, steps, OfComp(0, ReadForPositions), Working(wp, HasBoth(wh, wp)));
    run, steps := run + [Working(wp, HasBoth(wh, wp))], steps + [OfComp(0, ReadForPositions)];
  }

  lemma Computes(asked: set<Wallet>, wh: Wallet, wp: Wallet, h: H.Portfolio, v: P.Result)
    requires wh.id == wp.id && HoldingsAnswer(asked, wh, true, h) && PositionsAnswer(asked, wp, true, v)
    ensures Next(asked, Working(wp, HasBoth(wh, wp)), OfComp(0, Compute(h, Have(v))), Computed(wh, wp, SummaryOf(h, Have(v), true)))
  {
    var x := HasBoth(wh, wp);
    assert map[x.key := 0] - {x.key} == map[] && InputsOf(asked, wh, wp, SNAPSHOT_MODE, h, Have(v));
  }

  lemma Captures(s: World, wallet: nat, sum: Summary, asked: set<Wallet>)
    requires Complete(sum) && s.snapshots == [] && s.now == 0
    requires 0 in s.comps && s.comps[0].key == Key(wallet, SNAPSHOT_MODE) && s.comps[0].stage == Done(sum)
    ensures Next(asked, s, CaptureComputed(wallet, 0), s.(snapshots := [SnapshotOf(wallet, sum, 0)]))
  {
    assert [] + Captured(wallet, sum, 0) == [SnapshotOf(wallet, sum, 0)];
  }

  /** The run that reads the two rows, one after the other, and adds these answers. */
  lemma AddsAnswers(asked: set<Wallet>, wh: Wallet, wp: Wallet, h: H.Portfolio, v: P.Result) returns (run: seq<World>, steps: seq<Step>)
    requires wh in asked && wp in asked && wh.id == wp.id && HoldingsAnswer(asked, wh, true, h) && PositionsAnswer(asked, wp, true, v)
    requires Complete(SummaryOf(h, Have(v), true))
    ensures IsRun(asked, run, steps) && |steps| == 6 && run[4] == Working(wp, HasBoth(wh, wp))
    ensures steps[4] == OfComp(0, Compute(h, Have(v))) && run[6].snapshots == [SnapshotOf(wh.id, SummaryOf(h, Have(v), true), 0)]
  {
    run, steps := SecondRead(asked, wh, wp);
    Computes(asked, wh, wp, h, v);
    var sum := SummaryOf(h, Have(v), true);
    var s := Computed(wh, wp, sum);
    OneStepMore(asked, run, steps, OfComp(0, Compute(h, Have(v))), s);
    run, steps := run + [s], steps + [OfComp(0, Compute(h, Have(v)))];
    Captures(s, wh.id, sum, asked);
    OneStepMore(asked, run, steps, CaptureComputed(wh.id, 0), s.(snapshots := [SnapshotOf(wh.id, sum, 0)]));
    run, steps := run + [s.(snapshots := [SnapshotOf(wh.id, sum, 0)])], steps + [CaptureComputed(wh.id, 0)];
  }

  /** What two records that may be added lead to: the summary computed from them and the snapshot it is written as. */
  lemma TwoRecordsAreAdded(asked: set<Wallet>, wh: Wallet, wp: Wallet)
    returns (run: seq<World>, steps: seq<Step>, h: H.Portfolio, v: P.Result)
    requires wh in asked && wp in asked && MayBeAdded(wh, wp)
    ensures IsRun(asked, run, steps) && |steps| == 6 && steps[4] == OfComp(0, Compute(h, Have(v))) && Sums(run, steps, 4)
    ensures Inputs(asked, wh, wp, h, v) && h.parts != [] && v.parts != []
    ensures H.FetchedFor(wh, h.parts) && P.FetchedFor(wp, v.parts)
    ensures Complete(SummaryOf(h, Have(v), true)) && run[6].snapshots == [SnapshotOf(wh.id, SummaryOf(h, Have(v), true), 0)]
  {
    h := LiveHoldings(asked, wh);
    v := FullPositions(asked, wp);
    SummaryIsComplete(asked, wh, h, v);
    run, steps := AddsAnswers(asked, wh, wp, h, v);
    InputsAre(asked, wh, wp, h, v);
  }

  /** Records that disagree in chains, read one after the other, put different chains into one snapshot. */
  lemma ChangedChainsAreAdded(asked: set<Wallet>, wh: Wallet, wp: Wallet)
    returns (run: seq<World>, steps: seq<Step>, h: H.Portfolio, v: P.Result)
    requires wh in asked && wp in asked && MayBeAdded(wh, wp) && !ChainsAgree(wh, wp)
    ensures IsRun(asked, run, steps) && |steps| == 6 && steps[4] == OfComp(0, Compute(h, Have(v))) && Sums(run, steps, 4)
    ensures !SameChains(h, v) && Complete(SummaryOf(h, Have(v), true))
    ensures run[6].snapshots == [SnapshotOf(wh.id, SummaryOf(h, Have(v), true), 0)]
  {
    run, steps, h, v := TwoRecordsAreAdded(asked, wh, wp);
    InputsDisagree(asked, wh, wp, h, v);
  }

  lemma InputsDisagree(asked: set<Wallet>, wh: Wallet, wp: Wallet, h: H.Portfolio, v: P.Result)
    requires Inputs(asked, wh, wp, h, v) && !ChainsAgree(wh, wp)
    ensures !SameChains(h, v)
  {
  }

  // ---- Main results ----

  /** In every run over these records a snapshot adds holdings and positions of one set of chains, exactly when they agree. */
  lemma SameChainsExactlyWhen(asked: set<Wallet>)
    ensures (forall run, steps | IsRun(asked, run, steps) :: AddsSameChains(run, steps)) <==> OneChainSet(asked)
  {
    if OneChainSet(asked) {
      forall run: seq<World>, steps: seq<Step> | IsRun(asked, run, steps) ensures AddsSameChains(run, steps) {
        forall i: nat | Sums(run, steps, i) ensures SameChains(steps[i].comp.h, steps[i].comp.pos.value) {
          ChainsAreSame(asked, run, steps, i);
        }
      }
    } else {
      var wh, wp :| wh in asked && wp in asked && MayBeAdded(wh, wp) && !ChainsAgree(wh, wp);
      var run, steps, h, v := ChangedChainsAreAdded(asked, wh, wp);
      assert !AddsSameChains(run, steps);
    }
  }

  /** And of one address exactly when the records that may be added have one. */
  lemma SameAddressExactlyWhen(asked: set<Wallet>)
    ensures (forall run, steps | IsRun(asked, run, steps) :: AddsSameAddress(run, steps)) <==> OneHome(asked)
  {
    if OneHome(asked) {
      forall run: seq<World>, steps: seq<Step> | IsRun(asked, run, steps) ensures AddsSameAddress(run, steps) {
        forall i: nat | Sums(run, steps, i) ensures SameAddress(steps[i].comp.h, steps[i].comp.pos.value) {
          AddressIsSame(asked, run, steps, i);
        }
      }
    } else {
      var wh, wp :| wh in asked && wp in asked && MayBeAdded(wh, wp) && wh.address != wp.address;
      var run, steps, h, v := TwoRecordsAreAdded(asked, wh, wp);
      assert h.parts[0].holdings.origin.address != v.parts[0].origin.address;
      assert !AddsSameAddress(run, steps);
    }
  }
}
