/**
 Portfolio summaries and daily snapshots: a snapshot is written from a summary computed in the mode that
 demands live holdings and a full positions request, possibly a few seconds old in the summary cache.

 The two requests of a summary read the wallet's row one after the other, and the row may change in between.
 */
module PortfolioSnapshot {
  import opened Chains
  import opened Collections
  import opened WalletRecords
  import opened Wrappers
  import H = HoldingsModel
  import HD = HoldingsData
  import HP = HoldingsProtocol
  import PD = PositionsData
  import Provenance = HoldingsProvenance
  import P = Positions

  const SUMMARY_TTL_MS := 10 * 1000
  const PARTIAL_SUMMARY_TTL_MS := 2 * 1000

  /** How the positions call of a summary ended, when it did not fail the whole summary. */
  datatype PositionsOutcome = Have(value: P.Result) | NoCached | Unsupported

  datatype Summary = Summary(wallet: nat, holdings: Option<int>, positions: Option<int>, total: Option<int>,
                             holdingsValued: bool, positionsValued: bool, partial: bool)

  // ---- Positions totals ----

  datatype Tally = Tally(total: int, any: bool, anyValued: bool)

  function Add(t: Tally, p: P.Position): Tally {
    Tally(t.total + p.value.GetOr(0), t.any || p.described, t.anyValued || p.value.Some?)
  }

  function TallyOf(ps: seq<P.Position>): Tally {
    if ps == [] then Tally(0, false, false) else Add(TallyOf(ps[..|ps| - 1]), ps[|ps| - 1])
  }

  lemma OneTally(p: P.Position)
    ensures TallyOf([p]) == Tally(if p.value.Some? then p.value.value else 0, p.described, p.value.Some?)
  {
    assert [p][..0] == [];
  }

  function Both(t: Tally, u: Tally): Tally {
    Tally(t.total + u.total, t.any || u.any, t.anyValued || u.anyValued)
  }

  lemma AddIsBoth(t: Tally, p: P.Position)
    ensures Add(t, p) == Both(t, Tally(if p.value.Some? then p.value.value else 0, p.described, p.value.Some?))
  {
  }

  lemma LastTallied(ps: seq<P.Position>)
    requires ps != []
    ensures TallyOf(ps) == Add(TallyOf(ps[..|ps| - 1]), ps[|ps| - 1])
  {
  }

  /** The tally of two lists adds their amounts, and sees what either of them has. */
  lemma {:induction false} TallyAdds(a: seq<P.Position>, b: seq<P.Position>)
    ensures TallyOf(a + b) == Both(TallyOf(a), TallyOf(b))
    decreases |b|
  {
    if b == [] {
      assert a + b == a;
    } else {
      var init, last := b[..|b| - 1], b[|b| - 1];
      TallyAdds(a, init);
      LastOfBoth(a, b);
      LastTallied(b);
      LastTallied(a + b);
      AddIsBoth(TallyOf(a + init), last);
      AddIsBoth(TallyOf(init), last);
    }
  }

  lemma LastPart(parts: seq<P.Part>)
    requires parts != []
    ensures AllPositions(parts) == AllPositions(parts[..|parts| - 1]) + parts[|parts| - 1].positions
  {
  }

  /** The positions of two lists of chains follow one another. */
  lemma {:induction false} PositionsAdd(a: seq<P.Part>, b: seq<P.Part>)
    ensures AllPositions(a + b) == AllPositions(a) + AllPositions(b)
    ensures |b| == 1 ==> AllPositions(b) == b[0].positions
    decreases |b|
  {
    if b == [] {
      assert a + b == a;
    } else {
      var init, last := b[..|b| - 1], b[|b| - 1];
      PositionsAdd(a, init);
      LastOfBoth(a, b);
      LastPart(b);
      LastPart(a + b);
      Associative(AllPositions(a), AllPositions(init), last.positions);
      if |b| == 1 { assert init == [] && [] + last.positions == last.positions; }
    }
  }

  function AllPositions(parts: seq<P.Part>): seq<P.Position> {
    if parts == [] then [] else AllPositions(parts[..|parts| - 1]) + parts[|parts| - 1].positions
  }

  /** `summarizePositions`: the reduce over the listed positions. */
  method Summarize(ps: seq<P.Position>) returns (total: Option<int>, any: bool)
    ensures var t := TallyOf(ps); total == PositionsTotal(t) && any == t.any
  {
    var sum, anyValued := 0, false;
    any := false;
    for i := 0 to |ps|
      invariant TallyOf(ps[..i]) == Tally(sum, any, anyValued)
    {
      assert ps[..i + 1][..i] == ps[..i];
      if ps[i].described {
        any := true;
      }
      if ps[i].value.Some? {
        anyValued := true;
        sum := sum + ps[i].value.value;
      }
    }
    assert ps[..|ps|] == ps;
    total := if anyValued then Some(sum) else if any then None else Some(0);
  }

  function PositionsTotal(t: Tally): Option<int> {
    if t.anyValued then Some(t.total) else if t.any then None else Some(0)
  }

  // ---- The summary of one holdings answer and one positions outcome ----

  function SummaryOf(h: H.Portfolio, pos: PositionsOutcome, full: bool): Summary {
    var counted := full || pos.Have?;
    var tally := if counted && pos.Have? then TallyOf(AllPositions(pos.value.parts)) else Tally(0, false, false);
    var positions := if pos.Unsupported? || !counted then None else PositionsTotal(tally);
    var anyHoldings, anyPositions := H.Items(h.parts) != [], !pos.Unsupported? && tally.any;
    var holdingsValued := !anyHoldings || h.total.Some?;
    var positionsValued := !pos.Unsupported? && counted && (!anyPositions || positions.Some?);
    var skipped := !full && !pos.Have?;
    Summary(
      h.wallet, h.total, positions,
      if h.total.Some? && positions.Some? then Some(h.total.value + positions.value)
      else if h.total.Some? then h.total
      else if counted && positions.Some? then positions
      else if !anyHoldings && (!full || !anyPositions) then Some(0)
      else None,
      holdingsValued, positionsValued,
      h.partial || !holdingsValued || pos.Unsupported? || (pos.Have? && pos.value.partial) || (full && !positionsValued) || skipped)
  }

  /** A summary not marked partial adds two complete totals. */
  lemma UnqualifiedSummaryAdds(h: H.Portfolio, pos: PositionsOutcome)
    requires !h.partial ==> h.total.Some?
    requires !pos.NoCached?
    ensures var s := SummaryOf(h, pos, true);
            !s.partial ==>
              && !h.partial && pos.Have? && !pos.value.partial
              && h.total.Some? && PositionsTotal(TallyOf(AllPositions(pos.value.parts))).Some?
              && s.total == Some(h.total.value + PositionsTotal(TallyOf(AllPositions(pos.value.parts))).value)
  {
  }

  predicate AnyOf(ps: seq<P.Position>, has: P.Position -> bool) {
    exists i | 0 <= i < |ps| :: has(ps[i])
  }

  lemma AnySnoc(ps: seq<P.Position>, has: P.Position -> bool)
    requires ps != []
    ensures AnyOf(ps, has) <==> AnyOf(ps[..|ps| - 1], has) || has(ps[|ps| - 1])
  {
    var n := |ps| - 1;
    if AnyOf(ps[..n], has) {
      var i :| 0 <= i < n && has(ps[..n][i]);
      assert has(ps[i]);
    }
    if i :| 0 <= i < |ps| && has(ps[i]) {
      if i < n { assert has(ps[..n][i]); }
    }
  }

  predicate Described(p: P.Position) { p.described }

  predicate Valued(p: P.Position) { p.value.Some? }

  lemma {:induction false} TallySees(ps: seq<P.Position>)
    ensures TallyOf(ps).any == AnyOf(ps, Described) && TallyOf(ps).anyValued == AnyOf(ps, Valued)
    decreases |ps|
  {
    if ps != [] {
      LastTallied(ps);
      TallySees(ps[..|ps| - 1]);
      AnySnoc(ps, Described);
      AnySnoc(ps, Valued);
    }
  }

  /** Something is listed, and nothing of it has a value. */
  predicate Unvalued(ps: seq<P.Position>) {
    (exists i | 0 <= i < |ps| :: ps[i].described) && forall i | 0 <= i < |ps| :: ps[i].value.None?
  }

  /** A full summary is marked partial exactly when one of its answers is, or holds something no value is known for. */
  lemma PartialExactlyWhen(h: H.Portfolio, pos: PositionsOutcome)
    requires !pos.NoCached?
    ensures SummaryOf(h, pos, true).partial <==>
              h.partial || !pos.Have? || pos.value.partial || (H.Items(h.parts) != [] && h.total.None?) || Unvalued(AllPositions(pos.value.parts))
  {
    if pos.Have? {
      var ps := AllPositions(pos.value.parts);
      TallySees(ps);
      assert AnyOf(ps, Described) <==> exists i | 0 <= i < |ps| :: ps[i].described by {
        if i :| 0 <= i < |ps| && ps[i].described { assert Described(ps[i]); }
      }
      assert AnyOf(ps, Valued) <==> exists i | 0 <= i < |ps| :: ps[i].value.Some? by {
        if i :| 0 <= i < |ps| && ps[i].value.Some? { assert Valued(ps[i]); }
      }
    }
  }

  // ---- The summary cache and the snapshot table ----

  datatype Mode = Mode(full: bool, persisted: bool)

  datatype Key = Key(wallet: nat, mode: Mode)

  type CompId = nat

  datatype CompStage = Computing | Done(value: Summary) | Threw

  /**
   A summary being computed, with the rows its two requests read. `changed` records whether the wallet's chains
   were changed between the two reads; no code reads it.
   */
  datatype Comp = Comp(key: Key, holdingsRow: Option<Wallet>, positionsRow: Option<Wallet>, changed: bool, stage: CompStage)

  datatype Entry = Entry(value: Summary, expiresAt: int)

  datatype Snapshot = Snapshot(wallet: nat, total: int, holdings: int, positions: int, capturedAt: int)

  datatype World = World(now: int, rows: map<nat, Wallet>, cache: map<Key, Entry>, inFlight: map<Key, CompId>,
                         comps: map<CompId, Comp>, snapshots: seq<Snapshot>)

  const SNAPSHOT_MODE := Mode(true, false)

  /** In this run, which read these records, this holdings request that read this row received `h`. */
  ghost predicate HoldingsServed(asked: set<Wallet>, run: seq<HP.World>, steps: seq<HP.Step>, i: nat, r: HP.RequestId, w: Wallet, live: bool,
                                 h: H.Portfolio) {
    && Provenance.Possible(run, steps, asked) && i < |run|
    && r in run[i].requests && run[i].requests[r] == HP.Answered(live, w, h)
  }

  ghost predicate HoldingsAnswer(asked: set<Wallet>, w: Wallet, live: bool, h: H.Portfolio) {
    exists run: seq<HP.World>, steps: seq<HP.Step>, i: nat, r: HP.RequestId :: HoldingsServed(asked, run, steps, i, r, w, live, h)
  }

  ghost predicate PositionsServed(asked: set<Wallet>, run: seq<P.World>, steps: seq<P.Step>, i: nat, r: nat, w: Wallet, full: bool, v: P.Result) {
    && P.Possible(run, steps, asked) && i < |run|
    && r in run[i].requests && run[i].requests[r] == P.Served(full, w, v)
  }

  ghost predicate PositionsAnswer(asked: set<Wallet>, w: Wallet, full: bool, v: P.Result) {
    exists run: seq<P.World>, steps: seq<P.Step>, i: nat, r: nat :: PositionsServed(asked, run, steps, i, r, w, full, v)
  }

  /** The inputs a summary of this mode is computed from. */
  ghost predicate InputsOf(asked: set<Wallet>, wh: Wallet, wp: Wallet, mode: Mode, h: H.Portfolio, pos: PositionsOutcome) {
    && HoldingsAnswer(asked, wh, !mode.persisted, h)
    && (pos.Have? ==> PositionsAnswer(asked, wp, mode.full, pos.value))
    && (mode.full ==> !pos.NoCached?)
  }

  function Remembered(s: World, c: Comp, v: Summary): map<Key, Entry> {
    s.cache[c.key := Entry(v, s.now + if v.partial then PARTIAL_SUMMARY_TTL_MS else SUMMARY_TTL_MS)]
  }

  predicate Hit(s: World, k: Key) {
    k in s.cache && s.now < s.cache[k].expiresAt
  }

  predicate Complete(v: Summary) {
    !v.partial && v.total.Some?
  }

  function SnapshotOf(wallet: nat, v: Summary, at: int): Snapshot
    requires v.total.Some?
  {
    Snapshot(wallet, v.total.value, v.holdings.GetOr(0), v.positions.GetOr(0), at)
  }

  /** `captureWalletPortfolioSnapshot` on the summary it was given. */
  function Captured(wallet: nat, v: Summary, now: int): seq<Snapshot> {
    if Complete(v) then [SnapshotOf(wallet, v, now)] else []
  }

  /** The one row a computation has read so far. */
  function RowRead(c: Comp): Option<Wallet> {
    if c.holdingsRow.Some? && c.positionsRow.Some? then None
    else if c.holdingsRow.Some? then c.holdingsRow else c.positionsRow
  }

  function Noticed(c: Comp, w: Wallet): Comp {
    if c.key.wallet == w.id && RowRead(c).Some? && ChainSet(RowRead(c).value) != ChainSet(w) then c.(changed := true) else c
  }

  datatype CompAct =
    | Begin(key: Key)
    | ReadForHoldings
    | ReadForPositions
    | Compute(h: H.Portfolio, pos: PositionsOutcome)
    | Fail

  datatype Step =
    | Tick(elapsed: nat)
    | ChangeWallet(row: Wallet)
    | OfComp(c: CompId, comp: CompAct)
    | CaptureCached(wallet: nat)
    | CaptureComputed(wallet: nat, c: CompId)

  ghost predicate CompNext(asked: set<Wallet>, s: World, c: CompId, act: CompAct, s': World) {
    if act.Begin? then
      && c !in s.comps && !Hit(s, act.key) && act.key !in s.inFlight
      && s' == s.(comps := s.comps[c := Comp(act.key, None, None, false, Computing)], inFlight := s.inFlight[act.key := c])
    else
      && c in s.comps && s.comps[c].stage.Computing?
      && var x := s.comps[c];
      && var k := x.key;
      match act
      case ReadForHoldings =>
        x.holdingsRow.None? && k.wallet in s.rows && s' == s.(comps := s.comps[c := x.(holdingsRow := Some(s.rows[k.wallet]))])
      case ReadForPositions =>
        x.positionsRow.None? && k.wallet in s.rows && s' == s.(comps := s.comps[c := x.(positionsRow := Some(s.rows[k.wallet]))])
      case Compute(h, pos) =>
        && x.holdingsRow.Some? && x.positionsRow.Some?
        && InputsOf(asked, x.holdingsRow.value, x.positionsRow.value, k.mode, h, pos)
        && var v := SummaryOf(h, pos, k.mode.full);
        && s' == s.(cache := Remembered(s, x, v), comps := s.comps[c := x.(stage := Done(v))], inFlight := s.inFlight - {k})
      case Fail => s' == s.(comps := s.comps[c := x.(stage := Threw)], inFlight := s.inFlight - {k})
  }

  ghost predicate Next(asked: set<Wallet>, s: World, step: Step, s': World) {
    match step
    case Tick(elapsed) => s' == s.(now := s.now + elapsed)
    case ChangeWallet(w) =>
      w in asked && s' == s.(rows := s.rows[w.id := w], comps := map c | c in s.comps :: Noticed(s.comps[c], w))
    case OfComp(c, act) => CompNext(asked, s, c, act, s')
    case CaptureCached(w) =>
      && var k := Key(w, SNAPSHOT_MODE);
      && Hit(s, k) && s' == s.(snapshots := s.snapshots + Captured(w, s.cache[k].value, s.now))
    // A capture that waited for a computation it started or joined.
    case CaptureComputed(w, c) =>
      && c in s.comps && s.comps[c].key == Key(w, SNAPSHOT_MODE) && s.comps[c].stage.Done?
      && s' == s.(snapshots := s.snapshots + Captured(w, s.comps[c].stage.value, s.now))
  }

  /** A run in which the wallets' rows, whenever they are read, are among these records. */
  ghost predicate IsRun(asked: set<Wallet>, run: seq<World>, steps: seq<Step>) {
    && |run| == |steps| + 1 && (forall i | 0 <= i < |steps| :: StepAt(asked, run, steps, i)) && Init(asked, run[0])
  }

  ghost predicate StepAt(asked: set<Wallet>, run: seq<World>, steps: seq<Step>, i: nat)
    requires i < |steps| < |run|
  {
    Next(asked, run[i], steps[i], run[i + 1])
  }

  ghost predicate Init(asked: set<Wallet>, s: World) {
    s.cache == map[] && s.inFlight == map[] && s.comps == map[] && s.snapshots == [] && RowsOk(asked, s.rows)
  }

  ghost predicate RowsOk(asked: set<Wallet>, rows: map<nat, Wallet>) {
    forall id | id in rows :: rows[id] in asked && rows[id].id == id
  }

  // ---- What a snapshot rests on ----

  /** A live request received `h`, and each part of it was returned by the provider before, in the same run. */
  ghost predicate HoldingsFetched(asked: set<Wallet>, w: Wallet, h: H.Portfolio) {
    exists run: seq<HP.World>, steps: seq<HP.Step>, i: nat, r: HP.RequestId :: HoldingsServed(asked, run, steps, i, r, w, true, h) && HD.AllReturned(steps[..i], h)
  }

  /** A full request received `v`, and it is what the replies of one fetch before, in the same run, said. */
  ghost predicate PositionsFetched(asked: set<Wallet>, w: Wallet, v: P.Result) {
    exists run: seq<P.World>, steps: seq<P.Step>, i: nat, r: nat :: PositionsServed(asked, run, steps, i, r, w, true, v) && PD.Reported(run, steps, i, w, v)
  }

  /** The chains positions were fetched on. */
  function PartChains(v: P.Result): set<Chain> {
    set p | p in v.parts :: p.chain
  }

  function EnabledIn(h: H.Portfolio): set<Chain> {
    set c | c in h.enabled
  }

  /** What is enabled in one record is what is enabled and supported in the other. */
  predicate ChainsAgree(wh: Wallet, wp: Wallet) {
    ChainSet(wh) == set c | c in ChainSet(wp) && Supported(c)
  }

  predicate SameKey(v: Wallet, w: Wallet) {
    v.id == w.id && ChainSet(v) == ChainSet(w)
  }

  /**
   What unqualified answers to the two requests of a snapshot are: one token-complete, valued result, fetched by this
   process, of every chain enabled in `wh`, and one result, nothing of it from the table, of every supported chain
   enabled in `wp`; each for the address of some record of the wallet with these chains.
   */
  ghost predicate Inputs(asked: set<Wallet>, wh: Wallet, wp: Wallet, h: H.Portfolio, v: P.Result) {
    && h.wallet == wh.id && H.Whole(h) && Provenance.Live(h) && EnabledIn(h) == ChainSet(wh)
    && P.NothingStored(v) && PartChains(v) == (set c | c in ChainSet(wp) && Supported(c)) && SupportedChains(wp) != []
    && (exists r | r in asked :: SameKey(r, wh) && H.FetchedFor(r, h.parts))
    && (exists r | r in asked :: SameKey(r, wp) && P.FetchedFor(r, v.parts))
    && HoldingsFetched(asked, wh, h) && PositionsFetched(asked, wp, v)
  }

  /**
   A snapshot rests on whole live holdings and a full, unqualified, unstored positions result of this wallet, and
   its total is their sum. They are of the same chains exactly when the rows that were read for them agree.
   */
  ghost predicate SoundSnapshot(asked: set<Wallet>, x: Snapshot) {
    exists wh, wp, h, v :: RestsOn(asked, x, wh, wp, h, v)
  }

  ghost predicate RestsOn(asked: set<Wallet>, x: Snapshot, wh: Wallet, wp: Wallet, h: H.Portfolio, v: P.Result) {
    && wh in asked && wp in asked && wh.id == x.wallet == wp.id
    && Inputs(asked, wh, wp, h, v) && !h.partial && !v.partial
    && x.holdings == h.total.value
    && PositionsTotal(TallyOf(AllPositions(v.parts))) == Some(x.positions)
    && x.total == x.holdings + x.positions
    && (PartChains(v) == EnabledIn(h) <==> ChainsAgree(wh, wp))
  }

  ghost predicate JustifiedBy(asked: set<Wallet>, k: Key, v: Summary, wh: Wallet, wp: Wallet, h: H.Portfolio, pos: PositionsOutcome) {
    && wh in asked && wp in asked && wh.id == k.wallet == wp.id
    && InputsOf(asked, wh, wp, k.mode, h, pos) && v == SummaryOf(h, pos, k.mode.full)
  }

  ghost predicate Justified(asked: set<Wallet>, k: Key, v: Summary) {
    exists wh, wp, h, pos :: JustifiedBy(asked, k, v, wh, wp, h, pos)
  }

  ghost predicate RowReadOk(asked: set<Wallet>, key: Key, row: Option<Wallet>) {
    row.Some? ==> row.value in asked && row.value.id == key.wallet
  }

  /** The rows read differ in chains only if the chains were changed in between. */
  ghost predicate ChangeNoticed(rows: map<nat, Wallet>, c: Comp) {
    !c.changed ==>
      && (c.holdingsRow.Some? && c.positionsRow.Some? ==> ChainSet(c.holdingsRow.value) == ChainSet(c.positionsRow.value))
      && (RowRead(c).Some? ==> c.key.wallet in rows && ChainSet(rows[c.key.wallet]) == ChainSet(RowRead(c).value))
  }

  ghost predicate CompOk(asked: set<Wallet>, rows: map<nat, Wallet>, c: Comp) {
    && RowReadOk(asked, c.key, c.holdingsRow) && RowReadOk(asked, c.key, c.positionsRow) && ChangeNoticed(rows, c)
    && (c.stage.Done? ==> Justified(asked, c.key, c.stage.value))
    && (c.stage.Done? ==> c.holdingsRow.Some? && c.positionsRow.Some?)
  }

  ghost predicate CompsOk(asked: set<Wallet>, rows: map<nat, Wallet>, comps: map<CompId, Comp>) {
    forall c | c in comps :: CompOk(asked, rows, comps[c])
  }

  ghost predicate CacheOk(asked: set<Wallet>, cache: map<Key, Entry>) {
    forall k | k in cache :: Justified(asked, k, cache[k].value)
  }

  ghost predicate SnapshotsOk(asked: set<Wallet>, snapshots: seq<Snapshot>) {
    forall i | 0 <= i < |snapshots| :: SoundSnapshot(asked, snapshots[i])
  }

  ghost predicate Inv(asked: set<Wallet>, s: World) {
    RowsOk(asked, s.rows) && CompsOk(asked, s.rows, s.comps) && CacheOk(asked, s.cache) && SnapshotsOk(asked, s.snapshots)
  }

  lemma HoldingsAre(asked: set<Wallet>, w: Wallet, h: H.Portfolio)
    requires HoldingsAnswer(asked, w, true, h)
    ensures h.wallet == w.id && Provenance.Live(h) && EnabledIn(h) == ChainSet(w) && (!h.partial ==> H.Whole(h))
    ensures exists r | r in asked :: SameKey(r, w) && H.FetchedFor(r, h.parts)
    ensures HoldingsFetched(asked, w, h)
  {
    var run: seq<HP.World>, steps: seq<HP.Step>, i: nat, q: HP.RequestId :| HoldingsServed(asked, run, steps, i, q, w, true, h);
    HD.LiveAnswersWereReturned(run, steps, i, q);
    Provenance.RunInv(asked, run, steps, i);
    assert Provenance.RequestOk(asked, run[i].jobs, run[i].requests[q]);
    var key :| Provenance.KeysTo(w, key) && key.live && Provenance.Sound(asked, key, h);
    var r :| r in asked && Provenance.KeysTo(r, key) && H.FetchedFor(r, h.parts);
    assert SameKey(r, w);
  }

  lemma FullChains(w: Wallet, v: P.Result)
    requires P.FullEvidence(w, v) && !v.partial
    ensures PartChains(v) == set c | c in ChainSet(w) && Supported(c)
  {
    var cs := SupportedChains(w);
    var replies :| P.RepliesFor(w, cs, replies) && v == P.FullResult(cs, replies);
    P.UnqualifiedFullResult(cs, replies);
    SupportedIn(w);
    ChainsOf(cs, v.parts);
    assert PartChains(v) == set c | c in cs;
  }

  lemma ChainsOf(cs: seq<Chain>, parts: seq<P.Part>)
    requires |parts| == |cs| && forall i | 0 <= i < |cs| :: parts[i].chain == cs[i]
    ensures (set p | p in parts :: p.chain) == set c | c in cs
  {
    forall c | c in cs ensures c in (set p | p in parts :: p.chain) {
      var k :| 0 <= k < |cs| && cs[k] == c;
      assert parts[k] in parts;
    }
  }

  lemma PositionsAre(asked: set<Wallet>, w: Wallet, v: P.Result)
    requires PositionsAnswer(asked, w, true, v)
    ensures P.NothingStored(v) && SupportedChains(w) != []
    ensures !v.partial ==> PartChains(v) == set c | c in ChainSet(w) && Supported(c)
    ensures exists r | r in asked :: SameKey(r, w) && P.FetchedFor(r, v.parts)
    ensures PositionsFetched(asked, w, v)
  {
    var run: seq<P.World>, steps: seq<P.Step>, i: nat, q: nat :| PositionsServed(asked, run, steps, i, q, w, true, v);
    PD.FullAnswersWereReported(run, steps, i, q);
    P.RunInv(asked, run, steps, i);
    assert P.RequestOk(asked, run[i].jobs, run[i].requests[q]);
    var key :| P.KeysTo(w, key) && P.ValueOk(asked, key, true, v);
    var r :| r in asked && P.KeysTo(r, key) && P.Evidence(r, true, v);
    assert SameKey(r, w);
    if !v.partial { FullChains(r, v); }
  }

  /** Unqualified answers to the two requests of a snapshot. */
  lemma InputsAre(asked: set<Wallet>, wh: Wallet, wp: Wallet, h: H.Portfolio, v: P.Result)
    requires HoldingsAnswer(asked, wh, true, h) && PositionsAnswer(asked, wp, true, v) && !h.partial && !v.partial
    ensures Inputs(asked, wh, wp, h, v) && (PartChains(v) == EnabledIn(h) <==> ChainsAgree(wh, wp))
  {
    HoldingsAre(asked, wh, h);
    PositionsAre(asked, wp, v);
  }

  /** A complete summary of these inputs makes a sound snapshot. */
  lemma SumIsSound(asked: set<Wallet>, k: Key, v: Summary, wh: Wallet, wp: Wallet, h: H.Portfolio, pos: PositionsOutcome, at: int)
    requires k.mode == SNAPSHOT_MODE && JustifiedBy(asked, k, v, wh, wp, h, pos) && Complete(v)
    ensures SoundSnapshot(asked, SnapshotOf(k.wallet, v, at))
  {
    HoldingsAre(asked, wh, h);
    UnqualifiedSummaryAdds(h, pos);
    InputsAre(asked, wh, wp, h, pos.value);
    assert RestsOn(asked, SnapshotOf(k.wallet, v, at), wh, wp, h, pos.value);
  }

  lemma CompleteIsSound(asked: set<Wallet>, k: Key, v: Summary, at: int)
    requires k.mode == SNAPSHOT_MODE && Justified(asked, k, v) && Complete(v)
    ensures SoundSnapshot(asked, SnapshotOf(k.wallet, v, at))
  {
    var wh, wp, h, pos :| JustifiedBy(asked, k, v, wh, wp, h, pos);
    SumIsSound(asked, k, v, wh, wp, h, pos, at);
  }

  lemma SnapshotPut(asked: set<Wallet>, snapshots: seq<Snapshot>, x: Snapshot)
    requires SnapshotsOk(asked, snapshots) && SoundSnapshot(asked, x)
    ensures SnapshotsOk(asked, snapshots + [x])
  {
  }

  lemma CapturedIsSound(asked: set<Wallet>, snapshots: seq<Snapshot>, wallet: nat, v: Summary, now: int)
    requires SnapshotsOk(asked, snapshots) && Justified(asked, Key(wallet, SNAPSHOT_MODE), v)
    ensures SnapshotsOk(asked, snapshots + Captured(wallet, v, now))
  {
    if Complete(v) {
      CompleteIsSound(asked, Key(wallet, SNAPSHOT_MODE), v, now);
      SnapshotPut(asked, snapshots, SnapshotOf(wallet, v, now));
    } else {
      assert snapshots + Captured(wallet, v, now) == snapshots;
    }
  }

  lemma RowChanges(asked: set<Wallet>, s: World, w: Wallet, s': World)
    requires Inv(asked, s) && Next(asked, s, ChangeWallet(w), s')
    ensures Inv(asked, s')
  {
    forall c | c in s'.comps ensures CompOk(asked, s'.rows, s'.comps[c]) {
      assert CompOk(asked, s.rows, s.comps[c]);
    }
  }

  lemma CompPut(asked: set<Wallet>, s: World, c: CompId, x: Comp, cache: map<Key, Entry>, s': World)
    requires Inv(asked, s) && CompOk(asked, s.rows, x) && CacheOk(asked, cache)
    requires s' == s.(comps := s.comps[c := x], cache := cache, inFlight := s'.inFlight)
    ensures Inv(asked, s')
  {
  }

  lemma Computed(asked: set<Wallet>, rows: map<nat, Wallet>, x: Comp, h: H.Portfolio, pos: PositionsOutcome)
    requires CompOk(asked, rows, x) && x.holdingsRow.Some? && x.positionsRow.Some?
    requires InputsOf(asked, x.holdingsRow.value, x.positionsRow.value, x.key.mode, h, pos)
    ensures var v := SummaryOf(h, pos, x.key.mode.full); Justified(asked, x.key, v) && CompOk(asked, rows, x.(stage := Done(v)))
  {
    assert JustifiedBy(asked, x.key, SummaryOf(h, pos, x.key.mode.full), x.holdingsRow.value, x.positionsRow.value, h, pos);
  }

  lemma CachePut(asked: set<Wallet>, cache: map<Key, Entry>, k: Key, e: Entry)
    requires CacheOk(asked, cache) && Justified(asked, k, e.value)
    ensures CacheOk(asked, cache[k := e])
  {
  }

  lemma ReadStep(asked: set<Wallet>, s: World, c: CompId, act: CompAct, s': World)
    requires Inv(asked, s) && CompNext(asked, s, c, act, s') && (act.ReadForHoldings? || act.ReadForPositions?)
    ensures Inv(asked, s')
  {
    assert CompOk(asked, s.rows, s.comps[c]);
    CompPut(asked, s, c, s'.comps[c], s.cache, s');
  }

  lemma ComputeStep(asked: set<Wallet>, s: World, c: CompId, h: H.Portfolio, pos: PositionsOutcome, s': World)
    requires Inv(asked, s) && CompNext(asked, s, c, Compute(h, pos), s')
    ensures Inv(asked, s')
  {
    var x := s.comps[c];
    Computed(asked, s.rows, x, h, pos);
    CachePut(asked, s.cache, x.key, s'.cache[x.key]);
    CompPut(asked, s, c, s'.comps[c], s'.cache, s');
  }

  lemma CompStep(asked: set<Wallet>, s: World, c: CompId, act: CompAct, s': World)
    requires Inv(asked, s) && CompNext(asked, s, c, act, s')
    ensures Inv(asked, s')
  {
    match act
    case Begin(k) => CompPut(asked, s, c, Comp(k, None, None, false, Computing), s.cache, s');
    case Compute(h, pos) => ComputeStep(asked, s, c, h, pos, s');
    case ReadForHoldings => ReadStep(asked, s, c, act, s');
    case ReadForPositions => ReadStep(asked, s, c, act, s');
    case Fail =>
      assert CompOk(asked, s.rows, s.comps[c]);
      CompPut(asked, s, c, s'.comps[c], s.cache, s');
  }

  lemma CaptureStep(asked: set<Wallet>, s: World, wallet: nat, v: Summary, s': World)
    requires Inv(asked, s) && Justified(asked, Key(wallet, SNAPSHOT_MODE), v)
    requires s' == s.(snapshots := s.snapshots + Captured(wallet, v, s.now))
    ensures Inv(asked, s')
  {
    CapturedIsSound(asked, s.snapshots, wallet, v, s.now);
  }

  lemma StepInv(asked: set<Wallet>, s: World, step: Step, s': World)
    requires Inv(asked, s) && Next(asked, s, step, s')
    ensures Inv(asked, s')
  {
    match step
    case Tick(_) =>
    case ChangeWallet(w) => RowChanges(asked, s, w, s');
    case OfComp(c, act) => CompStep(asked, s, c, act, s');
    case CaptureCached(w) => CaptureStep(asked, s, w, s.cache[Key(w, SNAPSHOT_MODE)].value, s');
    case CaptureComputed(w, c) =>
      assert CompOk(asked, s.rows, s.comps[c]);
      CaptureStep(asked, s, w, s.comps[c].stage.value, s');
  }

  lemma {:induction false} RunInv(asked: set<Wallet>, run: seq<World>, steps: seq<Step>, i: nat)
    requires IsRun(asked, run, steps) && i < |run|
    ensures Inv(asked, run[i])
  {
    if i > 0 {
      RunInv(asked, run, steps, i - 1);
      assert StepAt(asked, run, steps, i - 1);
      StepInv(asked, run[i - 1], steps[i - 1], run[i]);
    }
  }

  /** Every snapshot ever written is sound. */
  lemma SnapshotsAreSound(asked: set<Wallet>, run: seq<World>, steps: seq<Step>, i: nat, k: nat)
    requires IsRun(asked, run, steps) && i < |run| && k < |run[i].snapshots|
    ensures SoundSnapshot(asked, run[i].snapshots[k])
  {
    RunInv(asked, run, steps, i);
  }

  /** The i-th step computes a summary for a snapshot from two unqualified answers. */
  predicate Sums(run: seq<World>, steps: seq<Step>, i: nat) {
    && i < |steps| < |run| && steps[i].OfComp? && steps[i].comp.Compute? && steps[i].comp.pos.Have? && steps[i].c in run[i].comps
    && run[i].comps[steps[i].c].key.mode == SNAPSHOT_MODE
    && !steps[i].comp.h.partial && !steps[i].comp.pos.value.partial
  }

  function Adding(run: seq<World>, steps: seq<Step>, i: nat): Comp
    requires Sums(run, steps, i)
  {
    run[i].comps[steps[i].c]
  }

  /**
   The answers a summary adds up are of the same chains exactly when the rows read for them agree, and they do if
   the wallet's chains stood still between the reads.
   */
  lemma SummaryAddsOneSetOfChains(asked: set<Wallet>, run: seq<World>, steps: seq<Step>, i: nat) returns (wh: Wallet, wp: Wallet)
    requires IsRun(asked, run, steps) && Sums(run, steps, i)
    ensures Adding(run, steps, i).holdingsRow == Some(wh) && Adding(run, steps, i).positionsRow == Some(wp)
    ensures wh in asked && wp in asked && wh.id == wp.id && Inputs(asked, wh, wp, steps[i].comp.h, steps[i].comp.pos.value)
    ensures PartChains(steps[i].comp.pos.value) == EnabledIn(steps[i].comp.h) <==> ChainsAgree(wh, wp)
    ensures !Adding(run, steps, i).changed ==> ChainsAgree(wh, wp)
  {
    RunInv(asked, run, steps, i);
    assert StepAt(asked, run, steps, i);
    var x := Adding(run, steps, i);
    assert CompOk(asked, run[i].rows, x);
    wh, wp := x.holdingsRow.value, x.positionsRow.value;
    InputsAre(asked, wh, wp, steps[i].comp.h, steps[i].comp.pos.value);
  }

  // ---- The capture cycle ----

  /** What capturing one wallet meets: its summary, unless computing it throws, and whether the insert works. */
  datatype Attempt = Attempt(wallet: nat, summary: Option<Summary>, inserts: bool, at: int)

  datatype CaptureOutcome = Inserted | Skipped | Failed

  /** Whose snapshots a cycle writes: those of every wallet with a complete summary whose insert works. */
  function Written(attempts: seq<Attempt>): seq<Snapshot> {
    if attempts == [] then []
    else
      var a := attempts[|attempts| - 1];
      Written(attempts[..|attempts| - 1])
      + if a.summary.Some? && Complete(a.summary.value) && a.inserts then [SnapshotOf(a.wallet, a.summary.value, a.at)] else []
  }

  function Among(attempts: seq<Attempt>, keep: Attempt -> bool): nat {
    if attempts == [] then 0 else Among(attempts[..|attempts| - 1], keep) + if keep(attempts[|attempts| - 1]) then 1 else 0
  }

  predicate Skips(a: Attempt) {
    a.summary.Some? && !Complete(a.summary.value)
  }

  predicate Throws(a: Attempt) {
    a.summary.None? || (Complete(a.summary.value) && !a.inserts)
  }

  /** A cycle over two lists of wallets writes and counts what the cycles over each of them do. */
  lemma {:induction false} CyclesAdd(a: seq<Attempt>, b: seq<Attempt>, keep: Attempt -> bool)
    ensures Written(a + b) == Written(a) + Written(b) && Among(a + b, keep) == Among(a, keep) + Among(b, keep)
    ensures |b| == 1 ==> Among(b, keep) == if keep(b[0]) then 1 else 0
    decreases |b|
  {
    if b == [] {
      assert a + b == a;
    } else {
      CyclesAdd(a, b[..|b| - 1], keep);
      LastOfBoth(a, b);
      LastWritten(b);
      LastWritten(a + b);
    }
  }

  lemma LastWritten(attempts: seq<Attempt>)
    requires attempts != []
    ensures var a := attempts[|attempts| - 1];
            Written(attempts) == Written(attempts[..|attempts| - 1])
                                 + if a.summary.Some? && Complete(a.summary.value) && a.inserts then [SnapshotOf(a.wallet, a.summary.value, a.at)] else []
  {
  }

  class SnapshotJob {
    var snapshots: seq<Snapshot>

    constructor ()
      ensures snapshots == []
    {
      snapshots := [];
    }

    /** `captureWalletPortfolioSnapshot` inside the `try` of the cycle. */
    method CaptureOne(a: Attempt) returns (outcome: CaptureOutcome)
      modifies this
      ensures outcome.Failed? <==> a.summary.None? || (!a.summary.value.partial && a.summary.value.total.Some? && !a.inserts)
      ensures outcome.Skipped? <==> a.summary.Some? && (a.summary.value.partial || a.summary.value.total.None?)
      // What is inserted is the summary's, as it is.
      ensures outcome.Inserted? ==>
                && var v := a.summary.value;
                && snapshots == old(snapshots) + [Snapshot(a.wallet, v.total.value, v.holdings.GetOr(0), v.positions.GetOr(0), a.at)]
      ensures !outcome.Inserted? ==> snapshots == old(snapshots)
      ensures (outcome.Failed? <==> Throws(a)) && (outcome.Skipped? <==> Skips(a)) && snapshots == old(snapshots) + Written([a])
      ensures |Written([a])| == if outcome.Inserted? then 1 else 0
    {
      assert [a][..0] == [];
      if a.summary.None? {
        return Failed;
      }
      var v := a.summary.value;
      if v.partial || v.total.None? {
        return Skipped;
      }
      if !a.inserts {
        return Failed;
      }
      snapshots := snapshots + [Snapshot(a.wallet, v.total.value, v.holdings.GetOr(0), v.positions.GetOr(0), a.at)];
      outcome := Inserted;
    }

    /** `captureAllWalletPortfolioSnapshots`: a failure or a skipped wallet takes nothing from the wallets after it. */
    method CaptureAll(attempts: seq<Attempt>) returns (inserted: nat, skipped: nat, failed: nat)
      modifies this
      ensures snapshots == old(snapshots) + Written(attempts)
      ensures inserted == |Written(attempts)| && skipped == Among(attempts, Skips) && failed == Among(attempts, Throws)
      ensures inserted + skipped + failed == |attempts|
    {
      inserted, skipped, failed := 0, 0, 0;
      for i := 0 to |attempts|
        invariant snapshots == old(snapshots) + Written(attempts[..i]) && inserted == |Written(attempts[..i])|
        invariant skipped == Among(attempts[..i], Skips) && failed == Among(attempts[..i], Throws) && inserted + skipped + failed == i
      {
        assert attempts[..i + 1][..i] == attempts[..i] && [attempts[i]][..0] == [];
        var outcome := CaptureOne(attempts[i]);
        match outcome {
          case Inserted => inserted := inserted + 1;
          case Skipped => skipped := skipped + 1;
          case Failed => failed := failed + 1;
        }
      }
      assert attempts[..|attempts|] == attempts;
    }
  }
}
