/**
 Which address a positions answer is for. As for holdings, the cache and the fetch in flight are keyed by wallet and
 chains only, so an answer can be about an address the wallet had before.
 */
module PositionsAddresses {
  import opened Chains
  import opened WalletRecords
  import opened Wrappers
  import opened Positions
  import opened PositionsFullRun

  /** A served request got what was fetched for the address its caller read. */
  ghost predicate OwnAddress(q: Request) {
    q.Served? ==> FetchedFor(q.wallet, q.value.parts)
  }

  ghost predicate AlwaysOwn(run: seq<World>) {
    forall i, r | 0 <= i < |run| && r in run[i].requests :: OwnAddress(run[i].requests[r])
  }

  lemma SameAddress(asked: set<Wallet>, run: seq<World>, steps: seq<Step>, i: nat, r: nat)
    requires OneAddress(asked) && Possible(run, steps, asked) && i < |run| && r in run[i].requests
    ensures OwnAddress(run[i].requests[r])
  {
    var q := run[i].requests[r];
    if q.Served? {
      RunInv(asked, run, steps, i);
      assert RequestOk(asked, run[i].jobs, q);
      var key :| KeysTo(q.wallet, key) && ValueOk(asked, key, q.full, q.value);
      var w :| w in asked && KeysTo(w, key) && Evidence(w, q.full, q.value);
    }
  }

  lemma SecondIsServed(s: World, v: Wallet, w: Wallet, p: Result)
    requires v.id == w.id && ChainSet(v) == ChainSet(w) && SupportedChains(w) != [] && 1 !in s.requests
    requires Lookup(s, KeyOf(v), false) == Some(p)
    ensures Next(s, OfRequest(1, AskFull(w, 1)), PutRequest(s, 1, Served(true, w, p)))
  {
    assert KeyOf(w) == KeyOf(v);
  }

  lemma NotOwn(v: Wallet, w: Wallet)
    requires v.address != w.address && SupportedChains(v) != []
    ensures !OwnAddress(Served(true, w, ResultOf(v)))
  {
    ResultIs(v);
    assert ResultOf(v).parts[0].origin.address == v.address;
  }

  /** One full request fetches for `v`, and the next, for `w`, is served from the cache. */
  lemma AddressChangeIsMissed(v: Wallet, w: Wallet) returns (run: seq<World>, steps: seq<Step>)
    requires v.id == w.id && ChainSet(v) == ChainSet(w) && v.address != w.address && SupportedChains(w) != []
    ensures Possible(run, steps, {v, w}) && 1 in run[|steps|].requests && !OwnAddress(run[|steps|].requests[1])
  {
    SupportedIn(v);
    SupportedIn(w);
    run, steps := FullAnswer(v);
    LargerAsked(run, steps, {v}, {v, w});
    var step, s' := OfRequest(1, AskFull(w, 1)), PutRequest(run[|steps|], 1, Served(true, w, ResultOf(v)));
    SecondIsServed(run[|steps|], v, w, ResultOf(v));
    OneStepMore(run, steps, {v, w}, step, s');
    run, steps := run + [s'], steps + [step];
    NotOwn(v, w);
  }

  /**
   Every answer of every run that reads these wallet records is about the address its caller read, exactly when
   no two records of a wallet with the same chains differ in address.
   */
  lemma OwnAddressExactlyWhen(asked: set<Wallet>)
    ensures (forall run, steps | Possible(run, steps, asked) :: AlwaysOwn(run)) <==> OneAddress(asked)
  {
    if OneAddress(asked) {
      forall run: seq<World>, steps: seq<Step> | Possible(run, steps, asked) ensures AlwaysOwn(run) {
        forall i, r | 0 <= i < |run| && r in run[i].requests ensures OwnAddress(run[i].requests[r]) {
          SameAddress(asked, run, steps, i, r);
        }
      }
    } else {
      var v, w :| v in asked && w in asked && v.id == w.id && ChainSet(v) == ChainSet(w) && SupportedChains(w) != [] && v.address != w.address;
      var run, steps := AddressChangeIsMissed(v, w);
      LargerAsked(run, steps, {v, w}, asked);
      assert !AlwaysOwn(run);
    }
  }
}
