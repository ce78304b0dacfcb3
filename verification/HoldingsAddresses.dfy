/**
 Which address an answer is for. Wallet-level caches and shared computations are keyed by wallet and chains, not
 by address, so an answer can be about an address the wallet had before: exactly when requests of one wallet with
 the same chains read different addresses.
 */
module HoldingsAddresses {
  import opened Chains
  import opened WalletRecords
  import opened Wrappers
  import opened HoldingsModel
  import opened HoldingsCaches
  import opened HoldingsProtocol
  import opened HoldingsProvenance
  import opened HoldingsLiveRun

  /** An answered request got what was fetched for the address its caller read. */
  ghost predicate OwnAddress(q: Request) {
    q.Answered? ==> FetchedFor(q.wallet, q.result.parts)
  }

  /** Every caller, or every one that demands live data, gets its own address. */
  ghost predicate AlwaysOwn(run: seq<World>, live: bool) {
    forall i, r | 0 <= i < |run| && r in run[i].requests && (live ==> run[i].requests[r].Answered? && run[i].requests[r].live) ::
      OwnAddress(run[i].requests[r])
  }

  lemma SameAddress(asked: set<Wallet>, run: seq<World>, steps: seq<Step>, i: nat, r: RequestId)
    requires OneAddress(asked) && Possible(run, steps, asked) && i < |run| && r in run[i].requests
    ensures OwnAddress(run[i].requests[r])
  {
    var q := run[i].requests[r];
    if q.Answered? {
      RunInv(asked, run, steps, i);
      assert RequestOk(asked, run[i].jobs, q);
      var key :| KeysTo(q.wallet, key) && key.live == q.live && Sound(asked, key, q.result);
      var w :| w in asked && KeysTo(w, key) && FetchedFor(w, q.result.parts);
    }
  }

  /** A live request for `w` is served what an earlier one fetched for `v`. */
  lemma SecondIsServed(s: World, v: Wallet, w: Wallet, p: Portfolio)
    requires v.id == w.id && ChainSet(v) == ChainSet(w) && SupportedChains(w) != [] && 1 !in s.requests
    requires Lookup(s.caches.agg, LiveKey(v), s.now, true) == Some(p)
    ensures Next(s, OfRequest(1, Ask(w, false, true, 0)), s.(requests := s.requests[1 := Answered(true, w, p)]))
  {
    assert LiveKey(w) == LiveKey(v);
  }

  /** One live request is answered for `v`, and the next, for `w`, from the cache that filled. */
  lemma AddressChangeIsMissed(v: Wallet, w: Wallet) returns (run: seq<World>, steps: seq<Step>)
    requires v.id == w.id && ChainSet(v) == ChainSet(w) && v.address != w.address && SupportedChains(w) != []
    ensures Possible(run, steps, {v, w}) && 1 in run[|steps|].requests
    ensures run[|steps|].requests[1].Answered? && run[|steps|].requests[1].live && !OwnAddress(run[|steps|].requests[1])
  {
    SupportedIn(v);
    SupportedIn(w);
    var p;
    run, steps, p := LiveAnswer(v);
    var s := run[|steps|];
    SecondIsServed(s, v, w, p);
    LargerAsked(run, steps, {v}, {v, w});
    OneStepMore(run, steps, {v, w}, OfRequest(1, Ask(w, false, true, 0)), s.(requests := s.requests[1 := Answered(true, w, p)]));
    run, steps := run + [s.(requests := s.requests[1 := Answered(true, w, p)])], steps + [OfRequest(1, Ask(w, false, true, 0))];
    assert p.parts[0].holdings.origin != Origin(w.id, w.address, p.parts[0].chain);
  }

  /**
   Every answer of every run that reads these wallet records is about the address its caller read, exactly when
   no two records of a wallet with the same chains differ in address; and the same for callers that demand live data.
   */
  lemma OwnAddressExactlyWhen(asked: set<Wallet>)
    ensures (forall run, steps | Possible(run, steps, asked) :: AlwaysOwn(run, false)) <==> OneAddress(asked)
    ensures (forall run, steps | Possible(run, steps, asked) :: AlwaysOwn(run, true)) <==> OneAddress(asked)
  {
    if OneAddress(asked) {
      forall run: seq<World>, steps: seq<Step> | Possible(run, steps, asked) ensures AlwaysOwn(run, false) && AlwaysOwn(run, true) {
        forall i, r | 0 <= i < |run| && r in run[i].requests ensures OwnAddress(run[i].requests[r]) {
          SameAddress(asked, run, steps, i, r);
        }
      }
    } else {
      var v, w :| v in asked && w in asked && v.id == w.id && ChainSet(v) == ChainSet(w) && SupportedChains(w) != [] && v.address != w.address;
      var run, steps := AddressChangeIsMissed(v, w);
      LargerAsked(run, steps, {v, w}, asked);
      assert !AlwaysOwn(run, false) && !AlwaysOwn(run, true);
    }
  }
}
