/**
 Holdings results and how a wallet's chains are combined into one answer. Amounts are integer cents.

 `origin` and `stored` are the provenance of a chain's data: what it was fetched for, and whether it came out of
 the persisted table.
 A wallet result keeps its contributions apart as `parts`; the response lists their items in order.
 */
module HoldingsModel {
  import opened Chains
  import opened WalletRecords
  import opened Wrappers

  datatype Reason =
    | FetchTimeout(chain: Chain)
    | FetchFailed(chain: Chain)
    | StaleCache(chain: Chain)
    | PersistedCache(chain: Chain)
    | ChainUnsupported(chain: Chain)
    | ValuationUnavailable(chain: Chain)
    | TokenBalances(why: seq<Reason>, chain: Chain)
    | TokenBalancesUnavailable
    | PageLimit
    | AllChainsUnavailable
    | AllChainsFailedStaleCache
    | FetchFailedStaleCache(timeout: bool)
    | ProviderReason(id: nat)

  /** The wallet, address and chain a provider was asked about. */
  datatype Origin = Origin(wallet: nat, address: nat, chain: Chain)

  datatype ChainHoldings = ChainHoldings(items: seq<nat>, total: Option<int>, available: bool, reason: seq<Reason>, partial: bool,
                                         stored: bool, origin: Origin)

  datatype Part = Part(chain: Chain, holdings: ChainHoldings)

  datatype Portfolio = Portfolio(wallet: nat, enabled: seq<Chain>, parts: seq<Part>, total: Option<int>,
                                 available: bool, reason: seq<Reason>, partial: bool, reasons: seq<Reason>)

  /** What resolving one chain came to. */
  datatype Resolution = Available(holdings: ChainHoldings, reasons: seq<Reason>) | Unavailable(reasons: seq<Reason>)

  predicate ChainLevel(r: Reason) {
    r.FetchTimeout? || r.FetchFailed? || r.StaleCache? || r.PersistedCache? || r.ChainUnsupported?
  }

  function Items(parts: seq<Part>): seq<nat> {
    if parts == [] then [] else Items(parts[..|parts| - 1]) + parts[|parts| - 1].holdings.items
  }

  function Sum(parts: seq<Part>): int {
    if parts == [] then 0 else Sum(parts[..|parts| - 1]) + parts[|parts| - 1].holdings.total.GetOr(0)
  }

  predicate AnyValued(parts: seq<Part>) {
    exists i | 0 <= i < |parts| :: parts[i].holdings.total.Some?
  }

  function Total(parts: seq<Part>): Option<int> {
    if Items(parts) == [] then Some(0) else if AnyValued(parts) then Some(Sum(parts)) else None
  }

  function Filtered(rs: seq<Reason>): seq<Reason> {
    if rs == [] then []
    else Filtered(rs[..|rs| - 1]) + if ChainLevel(rs[|rs| - 1]) then [rs[|rs| - 1]] else []
  }

  /** `buildChainLevelTokenBalancesReason`; the empty list is `null`. */
  function TokenReason(reasons: seq<Reason>, parts: seq<Part>): seq<Reason> {
    if parts == [] then Filtered(reasons)
    else parts[0].holdings.reason + TokenReason(reasons, parts[1..])
  }

  /** `aggregateHoldingsResults`. */
  function Aggregate(w: Wallet, parts: seq<Part>, reasons: seq<Reason>): Portfolio {
    Portfolio(
      w.id, EnabledChains(w), parts, Total(parts),
      (forall i | 0 <= i < |parts| :: parts[i].holdings.available) && Filtered(reasons) == [],
      TokenReason(reasons, parts), reasons != [], reasons)
  }

  /** The reasons one resolved chain adds. */
  function AddedReasons(c: Chain, r: Resolution): seq<Reason> {
    match r
    case Unavailable(rs) => rs
    case Available(h, rs) =>
      rs
      + (if h.total.None? && h.items != [] then [ValuationUnavailable(c)] else [])
      + (if !h.available || h.reason != [] then
           [TokenBalances(if h.reason != [] then h.reason else [TokenBalancesUnavailable], c)] else [])
  }

  function Reasons(cs: seq<Chain>, rs: seq<Resolution>): seq<Reason>
    requires |cs| == |rs|
  {
    if cs == [] then [] else Reasons(cs[..|cs| - 1], rs[..|cs| - 1]) + AddedReasons(cs[|cs| - 1], rs[|cs| - 1])
  }

  function Parts(cs: seq<Chain>, rs: seq<Resolution>): seq<Part>
    requires |cs| == |rs|
  {
    if cs == [] then []
    else
      Parts(cs[..|cs| - 1], rs[..|cs| - 1]) + AddedParts(cs[|cs| - 1], rs[|cs| - 1])
  }

  function AddedParts(c: Chain, r: Resolution): seq<Part> {
    match r
    case Available(h, _) => [Part(c, h)]
    case Unavailable(_) => []
  }

  function UnsupportedReasons(cs: seq<Chain>): seq<Reason> {
    if cs == [] then [] else [ChainUnsupported(cs[0])] + UnsupportedReasons(cs[1..])
  }

  // ---- Fallback answers, all of them partial ----

  function StaleFallback(p: Portfolio, r: Reason): Portfolio {
    p.(partial := true, reasons := p.reasons + [r], reason := p.reason + [r])
  }

  function StaleFallbackWithReasons(p: Portfolio, rs: seq<Reason>): Portfolio {
    p.(partial := true, reasons := p.reasons + rs, available := false, reason := p.reason + rs)
  }

  function EmptyPartial(w: Wallet, rs: seq<Reason>): Portfolio {
    Portfolio(w.id, EnabledChains(w), [], None, false, rs, true, rs)
  }

  function StaleReasons(parts: seq<Part>): seq<Reason> {
    if parts == [] then [] else [StaleCache(parts[0].chain)] + StaleReasons(parts[1..])
  }

  function StaleOnly(w: Wallet, parts: seq<Part>, reasons: seq<Reason>): Portfolio {
    var merged := reasons + StaleReasons(parts);
    Portfolio(w.id, EnabledChains(w), parts, Total(parts), false, merged, true, merged)
  }

  function PersistedReasons(parts: seq<Part>): seq<Reason> {
    if parts == [] then [] else [PersistedCache(parts[0].chain)] + PersistedReasons(parts[1..])
  }

  function PersistedAggregate(w: Wallet, parts: seq<Part>): Portfolio {
    var reasons := UnsupportedReasons(Keep(EnabledChains(w), false)) + PersistedReasons(parts);
    Aggregate(w, parts, reasons).(available := false)
  }

  /** The answer of a finished computation; `good` is the last known good result and `stale` the chains' own. */
  function Answer(w: Wallet, rs: seq<Resolution>, good: Option<Portfolio>, stale: seq<Part>): Portfolio
    requires |rs| == |Keep(EnabledChains(w), true)|
  {
    var cs := Keep(EnabledChains(w), true);
    var reasons := UnsupportedReasons(Keep(EnabledChains(w), false)) + Reasons(cs, rs);
    var parts := Parts(cs, rs);
    if parts != [] then Aggregate(w, parts, reasons)
    else if good.Some? then StaleFallbackWithReasons(good.value, [AllChainsFailedStaleCache] + reasons)
    else if stale != [] then StaleOnly(w, stale, reasons)
    else EmptyPartial(w, reasons + [AllChainsUnavailable])
  }

  // ---- Cacheability ----

  /** `isUsableLastKnownGoodHoldingsResult`. */
  predicate Usable(items: seq<nat>, total: Option<int>, available: bool, reason: seq<Reason>, partial: bool) {
    PageLimit !in reason && (items != [] || (available && total == Some(0) && !partial))
  }

  predicate UsableChain(h: ChainHoldings) {
    Usable(h.items, h.total, h.available, h.reason, h.partial)
  }

  predicate UsablePortfolio(p: Portfolio) {
    Usable(Items(p.parts), p.total, p.available, p.reason, p.partial)
  }

  /** `isDegradedHoldingsResult`. */
  predicate Degraded(partial: bool, available: bool, reason: seq<Reason>, total: Option<int>) {
    partial || !available || reason != [] || total.None?
  }

  // ---- What an unqualified answer says ----

  /** Each part was fetched for this wallet, at this address, on the chain it is listed under. */
  ghost predicate FetchedFor(w: Wallet, parts: seq<Part>) {
    forall i | 0 <= i < |parts| :: parts[i].holdings.origin == Origin(w.id, w.address, parts[i].chain)
  }

  /** One chain's contribution with nothing missing. */
  predicate WholeChain(h: ChainHoldings) {
    h.available && h.reason == [] && (h.total.Some? || h.items == [])
  }

  /** Every enabled chain is supported and contributed one whole result, and the total is their sum. */
  ghost predicate Whole(p: Portfolio) {
    && (forall c | c in p.enabled :: Supported(c))
    && |p.parts| == |p.enabled|
    && (forall i | 0 <= i < |p.parts| :: p.parts[i].chain == p.enabled[i] && WholeChain(p.parts[i].holdings))
    && p.total == Some(if Items(p.parts) == [] then 0 else Sum(p.parts))
    && p.available && p.reason == []
  }

  lemma {:induction false} KeepAll(cs: seq<Chain>)
    ensures Keep(cs, false) == [] ==> Keep(cs, true) == cs && forall c | c in cs :: Supported(c)
    ensures forall c | c in Keep(cs, true) :: Supported(c) && c in cs
    ensures UnsupportedReasons(Keep(cs, false)) == [] <==> Keep(cs, false) == []
  {
    if cs != [] {
      KeepAll(cs[1..]);
      assert cs == [cs[0]] + cs[1..];
    }
  }

  /** The i-th chain resolved to a whole result. */
  predicate ResolvedWhole(cs: seq<Chain>, rs: seq<Resolution>, parts: seq<Part>, i: nat)
    requires i < |cs| == |rs| == |parts|
  {
    rs[i].Available? && parts[i] == Part(cs[i], rs[i].holdings) && WholeChain(rs[i].holdings)
  }

  lemma NothingAddedMeansWhole(c: Chain, r: Resolution)
    requires AddedReasons(c, r) == [] && (r.Unavailable? ==> r.reasons != [])
    ensures r.Available? && WholeChain(r.holdings) && AddedParts(c, r) == [Part(c, r.holdings)]
  {
  }

  lemma WholeSnoc(cs: seq<Chain>, rs: seq<Resolution>, front: seq<Part>)
    requires |cs| == |rs| == |front| + 1
    requires forall i | 0 <= i < |front| :: ResolvedWhole(cs[..|front|], rs[..|front|], front, i)
    requires rs[|front|].Available? && WholeChain(rs[|front|].holdings)
    ensures forall i | 0 <= i < |cs| :: ResolvedWhole(cs, rs, front + [Part(cs[|front|], rs[|front|].holdings)], i)
  {
    forall i | 0 <= i < |cs| ensures ResolvedWhole(cs, rs, front + [Part(cs[|front|], rs[|front|].holdings)], i) {
      if i < |front| { assert ResolvedWhole(cs[..|front|], rs[..|front|], front, i); }
    }
  }

  lemma {:induction false} NoReasonsMeansWhole(cs: seq<Chain>, rs: seq<Resolution>)
    requires |cs| == |rs| && Reasons(cs, rs) == []
    requires forall i | 0 <= i < |rs| && rs[i].Unavailable? :: rs[i].reasons != []
    ensures |Parts(cs, rs)| == |cs|
    ensures forall i | 0 <= i < |cs| :: ResolvedWhole(cs, rs, Parts(cs, rs), i)
  {
    if cs != [] {
      var n := |cs| - 1;
      var front := Parts(cs[..n], rs[..n]);
      NoReasonsMeansWhole(cs[..n], rs[..n]);
      NothingAddedMeansWhole(cs[n], rs[n]);
      assert Parts(cs, rs) == front + [Part(cs[n], rs[n].holdings)];
      WholeSnoc(cs, rs, front);
    }
  }

  lemma {:induction false} WholePartsSum(parts: seq<Part>)
    requires forall i | 0 <= i < |parts| :: WholeChain(parts[i].holdings)
    ensures Items(parts) != [] ==> AnyValued(parts)
    ensures TokenReason([], parts) == []
  {
    if Items(parts) != [] {
      var i := ItemsComeFromParts(parts);
    }
    NoTokenReason(parts);
  }

  lemma {:induction false} NoTokenReason(parts: seq<Part>)
    requires forall i | 0 <= i < |parts| :: WholeChain(parts[i].holdings)
    ensures TokenReason([], parts) == []
  {
    if parts != [] { NoTokenReason(parts[1..]); }
  }

  lemma {:induction false} ItemsComeFromParts(parts: seq<Part>) returns (i: nat)
    requires Items(parts) != []
    ensures i < |parts| && parts[i].holdings.items != []
  {
    var n := |parts| - 1;
    if parts[n].holdings.items != [] {
      i := n;
    } else {
      i := ItemsComeFromParts(parts[..n]);
    }
  }

  lemma UnqualifiedHasNoReasons(w: Wallet, rs: seq<Resolution>, good: Option<Portfolio>, stale: seq<Part>)
    requires |rs| == |Keep(EnabledChains(w), true)| && !Answer(w, rs, good, stale).partial
    ensures var cs := Keep(EnabledChains(w), true);
            Reasons(cs, rs) == [] && Keep(EnabledChains(w), false) == [] && Answer(w, rs, good, stale) == Aggregate(w, Parts(cs, rs), [])
  {
    var cs, others := Keep(EnabledChains(w), true), Keep(EnabledChains(w), false);
    AnyReasonQualifies(w, rs, good, stale, UnsupportedReasons(others), Reasons(cs, rs));
    if others != [] { assert UnsupportedReasons(others)[0] == ChainUnsupported(others[0]); }
  }

  lemma AnyReasonQualifies(w: Wallet, rs: seq<Resolution>, good: Option<Portfolio>, stale: seq<Part>, us: seq<Reason>, own: seq<Reason>)
    requires |rs| == |Keep(EnabledChains(w), true)| && !Answer(w, rs, good, stale).partial
    requires us == UnsupportedReasons(Keep(EnabledChains(w), false)) && own == Reasons(Keep(EnabledChains(w), true), rs)
    ensures us == [] && own == [] && Answer(w, rs, good, stale) == Aggregate(w, Parts(Keep(EnabledChains(w), true), rs), [])
  {
    assert Answer(w, rs, good, stale) == Aggregate(w, Parts(Keep(EnabledChains(w), true), rs), us + own);
    assert us + own == [];
    assert |us| == 0 && |own| == 0;
  }

  /** An answer that is not marked partial is whole: no caveat is ever dropped on the way. */
  lemma UnqualifiedAnswerIsWhole(w: Wallet, rs: seq<Resolution>, good: Option<Portfolio>, stale: seq<Part>)
    requires |rs| == |Keep(EnabledChains(w), true)| && Keep(EnabledChains(w), true) != []
    requires forall i | 0 <= i < |rs| && rs[i].Unavailable? :: rs[i].reasons != []
    ensures !Answer(w, rs, good, stale).partial ==> Whole(Answer(w, rs, good, stale))
  {
    var p := Answer(w, rs, good, stale);
    if !p.partial {
      var cs := Keep(EnabledChains(w), true);
      UnqualifiedHasNoReasons(w, rs, good, stale);
      NoReasonsMeansWhole(cs, rs);
      forall i | 0 <= i < |cs| ensures Parts(cs, rs)[i].chain == cs[i] && WholeChain(Parts(cs, rs)[i].holdings) {
        assert ResolvedWhole(cs, rs, Parts(cs, rs), i);
      }
      AggregateIsWhole(w, Parts(cs, rs));
    }
  }

  lemma AggregateIsWhole(w: Wallet, parts: seq<Part>)
    requires Keep(EnabledChains(w), false) == [] && |parts| == |Keep(EnabledChains(w), true)|
    requires forall i | 0 <= i < |parts| ::
               parts[i].chain == Keep(EnabledChains(w), true)[i] && WholeChain(parts[i].holdings)
    ensures Whole(Aggregate(w, parts, []))
  {
    KeepAll(EnabledChains(w));
    WholePartsSum(parts);
  }

  /** And a whole set of chain results is never marked partial, so the mark is exact. */
  lemma WholeAnswerIsUnqualified(w: Wallet, rs: seq<Resolution>, good: Option<Portfolio>, stale: seq<Part>)
    requires |rs| == |Keep(EnabledChains(w), true)| && Keep(EnabledChains(w), true) != []
    requires forall c | c in EnabledChains(w) :: Supported(c)
    requires forall i | 0 <= i < |rs| :: rs[i].Available? && rs[i].reasons == [] && WholeChain(rs[i].holdings)
    ensures !Answer(w, rs, good, stale).partial
  {
    var cs := Keep(EnabledChains(w), true);
    NothingUnsupported(EnabledChains(w));
    NothingAdded(cs, rs);
  }

  lemma {:induction false} NothingUnsupported(cs: seq<Chain>)
    requires forall c | c in cs :: Supported(c)
    ensures Keep(cs, false) == []
  {
    if cs != [] { NothingUnsupported(cs[1..]); }
  }

  lemma {:induction false} NothingAdded(cs: seq<Chain>, rs: seq<Resolution>)
    requires |cs| == |rs|
    requires forall i | 0 <= i < |rs| :: rs[i].Available? && rs[i].reasons == [] && WholeChain(rs[i].holdings)
    ensures Reasons(cs, rs) == [] && |Parts(cs, rs)| == |cs|
  {
    if cs != [] { NothingAdded(cs[..|cs| - 1], rs[..|cs| - 1]); }
  }
}
