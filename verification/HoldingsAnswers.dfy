/** What a holdings answer says, part by part and amount by amount. */
module HoldingsAnswers {
  import opened Chains
  import opened Collections
  import opened WalletRecords
  import opened Wrappers
  import opened HoldingsModel

  // ---- Amounts ----

  lemma OnePart(p: Part)
    ensures Sum([p]) == p.holdings.total.GetOr(0) && Items([p]) == p.holdings.items
  {
    assert [p][..0] == [];
  }

  lemma SumUnfolds(parts: seq<Part>)
    requires parts != []
    ensures var init, last := parts[..|parts| - 1], parts[|parts| - 1].holdings;
            Sum(parts) == Sum(init) + last.total.GetOr(0) && Items(parts) == Items(init) + last.items
  {
  }

  /** The amount of two lists of chains is the sum of theirs, and their items follow one another. */
  lemma {:induction false} SumAdds(a: seq<Part>, b: seq<Part>)
    ensures Sum(a + b) == Sum(a) + Sum(b) && Items(a + b) == Items(a) + Items(b)
    decreases |b|
  {
    if b == [] {
      assert a + b == a;
    } else {
      var init, last := b[..|b| - 1], b[|b| - 1];
      SumAdds(a, init);
      LastOfBoth(a, b);
      SumUnfolds(a + b);
      SumUnfolds(b);
      Associative(Items(a), Items(init), last.holdings.items);
    }
  }

  lemma {:induction false} NoItems(parts: seq<Part>)
    ensures Items(parts) == [] <==> forall i | 0 <= i < |parts| :: parts[i].holdings.items == []
    decreases |parts|
  {
    if parts != [] { NoItems(parts[..|parts| - 1]); }
  }

  /** Nothing held is worth nothing, and what is held is worth what its valued chains come to, if any is valued. */
  lemma TotalMeans(parts: seq<Part>)
    ensures (forall i | 0 <= i < |parts| :: parts[i].holdings.items == []) ==> Total(parts) == Some(0)
    ensures (exists i | 0 <= i < |parts| :: parts[i].holdings.items != []) && (forall i | 0 <= i < |parts| :: parts[i].holdings.total.None?) ==>
              Total(parts) == None
    ensures (exists i | 0 <= i < |parts| :: parts[i].holdings.items != []) && (exists i | 0 <= i < |parts| :: parts[i].holdings.total.Some?) ==>
              Total(parts) == Some(Sum(parts))
  {
    NoItems(parts);
  }

  // ---- Parts and reasons ----

  ghost predicate Contributes(parts: seq<Part>, c: Chain, r: Resolution) {
    r.Available? ==> exists k | 0 <= k < |parts| :: parts[k] == Part(c, r.holdings)
  }

  ghost predicate Contributed(cs: seq<Chain>, rs: seq<Resolution>, p: Part)
    requires |cs| == |rs|
  {
    exists i | 0 <= i < |cs| :: rs[i].Available? && p == Part(cs[i], rs[i].holdings)
  }

  /** Each available chain contributes its result as it is, under its name, and nothing else is listed. */
  ghost predicate PartsMean(cs: seq<Chain>, rs: seq<Resolution>, parts: seq<Part>)
    requires |cs| == |rs|
  {
    && (forall i | 0 <= i < |cs| :: Contributes(parts, cs[i], rs[i]))
    && (forall k | 0 <= k < |parts| :: Contributed(cs, rs, parts[k]))
  }

  /** What a chain's resolution says against it is among the reasons. */
  predicate Explained(reasons: seq<Reason>, c: Chain, r: Resolution) {
    && (forall x | x in r.reasons :: x in reasons)
    && (r.Available? && r.holdings.total.None? && r.holdings.items != [] ==> ValuationUnavailable(c) in reasons)
    && (r.Available? && r.holdings.reason != [] ==> TokenBalances(r.holdings.reason, c) in reasons)
    && (r.Available? && r.holdings.reason == [] && !r.holdings.available ==> TokenBalances([TokenBalancesUnavailable], c) in reasons)
  }

  lemma ContributesMore(front: seq<Part>, more: seq<Part>, c: Chain, r: Resolution)
    requires Contributes(front, c, r)
    ensures Contributes(front + more, c, r)
  {
    if r.Available? {
      var k :| 0 <= k < |front| && front[k] == Part(c, r.holdings);
      assert (front + more)[k] == Part(c, r.holdings);
    }
  }

  lemma OwnContribution(front: seq<Part>, c: Chain, r: Resolution)
    ensures Contributes(front + AddedParts(c, r), c, r)
  {
    if r.Available? { assert (front + AddedParts(c, r))[|front|] == Part(c, r.holdings); }
  }

  lemma ContributedMore(cs: seq<Chain>, rs: seq<Resolution>, n: nat, p: Part)
    requires |cs| == |rs| && n <= |cs| && Contributed(cs[..n], rs[..n], p)
    ensures Contributed(cs, rs, p)
  {
    var i :| 0 <= i < n && rs[..n][i].Available? && p == Part(cs[..n][i], rs[..n][i].holdings);
    assert rs[i].Available? && p == Part(cs[i], rs[i].holdings);
  }

  lemma PartsSnoc(cs: seq<Chain>, rs: seq<Resolution>, n: nat, front: seq<Part>)
    requires |cs| == |rs| == n + 1 && PartsMean(cs[..n], rs[..n], front)
    ensures PartsMean(cs, rs, front + AddedParts(cs[n], rs[n]))
  {
    var added := AddedParts(cs[n], rs[n]);
    forall i | 0 <= i < |cs| ensures Contributes(front + added, cs[i], rs[i]) {
      if i < n {
        assert Contributes(front, cs[..n][i], rs[..n][i]);
        ContributesMore(front, added, cs[i], rs[i]);
      } else {
        OwnContribution(front, cs[n], rs[n]);
      }
    }
    forall k | 0 <= k < |front + added| ensures Contributed(cs, rs, (front + added)[k]) {
      if k < |front| { ContributedMore(cs, rs, n, front[k]); }
    }
  }

  lemma {:induction false} PartsAre(cs: seq<Chain>, rs: seq<Resolution>)
    requires |cs| == |rs|
    ensures PartsMean(cs, rs, Parts(cs, rs))
    ensures Parts(cs, rs) == [] <==> forall i | 0 <= i < |rs| :: rs[i].Unavailable?
    decreases |cs|
  {
    if cs != [] {
      var n := |cs| - 1;
      PartsAre(cs[..n], rs[..n]);
      PartsSnoc(cs, rs, n, Parts(cs[..n], rs[..n]));
      forall i | 0 <= i < n ensures rs[..n][i] == rs[i] {}
    }
  }

  lemma OwnReasons(front: seq<Reason>, c: Chain, r: Resolution)
    ensures Explained(front + AddedReasons(c, r), c, r)
  {
  }

  lemma MoreReasons(front: seq<Reason>, more: seq<Reason>, c: Chain, r: Resolution)
    requires Explained(front, c, r) || Explained(more, c, r)
    ensures Explained(front + more, c, r)
  {
  }

  lemma {:induction false} ReasonsExplain(cs: seq<Chain>, rs: seq<Resolution>, i: nat)
    requires i < |cs| == |rs|
    ensures Explained(Reasons(cs, rs), cs[i], rs[i])
    decreases |cs|
  {
    var n := |cs| - 1;
    if i < n {
      ReasonsExplain(cs[..n], rs[..n], i);
      MoreReasons(Reasons(cs[..n], rs[..n]), AddedReasons(cs[n], rs[n]), cs[i], rs[i]);
    } else {
      OwnReasons(Reasons(cs[..n], rs[..n]), cs[n], rs[n]);
    }
  }

  lemma {:induction false} UnsupportedNamed(cs: seq<Chain>, c: Chain)
    requires c in cs && !Supported(c)
    ensures ChainUnsupported(c) in UnsupportedReasons(Keep(cs, false))
    decreases |cs|
  {
    if c != cs[0] { UnsupportedNamed(cs[1..], c); }
  }

  // ---- Answers ----

  /** What holds of every answer to a request about this record, whatever it was made from. */
  ghost predicate Caveats(w: Wallet, rs: seq<Resolution>, p: Portfolio)
    requires |rs| == |SupportedChains(w)|
  {
    && (forall c | c in EnabledChains(w) && !Supported(c) :: ChainUnsupported(c) in p.reasons)
    && (forall i | 0 <= i < |rs| :: Explained(p.reasons, SupportedChains(w)[i], rs[i]))
  }

  predicate AnyAvailable(rs: seq<Resolution>) {
    exists i | 0 <= i < |rs| :: rs[i].Available?
  }

  /**
   An answer lists the results of the chains that have one; if none has, the last known good answer unchanged but
   for the caveats, else the stale results, else nothing at all.
   */
  ghost predicate AnswerMeans(w: Wallet, rs: seq<Resolution>, good: Option<Portfolio>, stale: seq<Part>, p: Portfolio)
    requires |rs| == |SupportedChains(w)|
  {
    if AnyAvailable(rs) then
      p.wallet == w.id && p.enabled == EnabledChains(w) && PartsMean(SupportedChains(w), rs, p.parts) && p.total == Total(p.parts)
    else if good.Some? then
      && p.wallet == good.value.wallet && p.enabled == good.value.enabled && p.parts == good.value.parts && p.total == good.value.total
      && p.partial && !p.available
    else
      && p.wallet == w.id && p.enabled == EnabledChains(w) && p.partial && !p.available && p.parts == stale
      && p.total == if stale == [] then None else Total(stale)
  }

  lemma CaveatsKept(w: Wallet, rs: seq<Resolution>, all: seq<Reason>, p: Portfolio)
    requires |rs| == |SupportedChains(w)|
    requires all == UnsupportedReasons(Keep(EnabledChains(w), false)) + Reasons(SupportedChains(w), rs)
    requires forall x | x in all :: x in p.reasons
    ensures Caveats(w, rs, p)
  {
    forall c | c in EnabledChains(w) && !Supported(c) ensures ChainUnsupported(c) in p.reasons {
      UnsupportedNamed(EnabledChains(w), c);
    }
    forall i | 0 <= i < |rs| ensures Explained(p.reasons, SupportedChains(w)[i], rs[i]) {
      ReasonsExplain(SupportedChains(w), rs, i);
      MoreReasons(UnsupportedReasons(Keep(EnabledChains(w), false)), Reasons(SupportedChains(w), rs), SupportedChains(w)[i], rs[i]);
      assert Explained(all, SupportedChains(w)[i], rs[i]);
    }
  }

  /** What a computation answers, in its parts, its total, and what it says is missing. */
  lemma AnswerIsMeant(w: Wallet, rs: seq<Resolution>, good: Option<Portfolio>, stale: seq<Part>)
    requires |rs| == |SupportedChains(w)|
    ensures AnswerMeans(w, rs, good, stale, Answer(w, rs, good, stale))
    ensures AnyAvailable(rs) || good.None? ==> Caveats(w, rs, Answer(w, rs, good, stale))
  {
    PartsAre(SupportedChains(w), rs);
    var all := UnsupportedReasons(Keep(EnabledChains(w), false)) + Reasons(SupportedChains(w), rs);
    CaveatsKept(w, rs, all, Answer(w, rs, good, stale));
  }

  lemma {:induction false} PersistedNamed(parts: seq<Part>, k: nat)
    requires k < |parts|
    ensures PersistedCache(parts[k].chain) in PersistedReasons(parts)
    decreases |parts|
  {
    if k > 0 { PersistedNamed(parts[1..], k - 1); }
  }

  /** An answer from the table lists the loaded rows, each named as stored, and is always partial. */
  lemma PersistedIsMeant(w: Wallet, parts: seq<Part>)
    requires parts != []
    ensures var p := PersistedAggregate(w, parts);
            && p.wallet == w.id && p.enabled == EnabledChains(w) && p.parts == parts && p.total == Total(parts)
            && p.partial && !p.available && (forall k | 0 <= k < |parts| :: PersistedCache(parts[k].chain) in p.reasons)
            && (forall c | c in EnabledChains(w) && !Supported(c) :: ChainUnsupported(c) in p.reasons)
  {
    forall k | 0 <= k < |parts| ensures PersistedCache(parts[k].chain) in PersistedReasons(parts) {
      PersistedNamed(parts, k);
    }
    forall c | c in EnabledChains(w) && !Supported(c) ensures ChainUnsupported(c) in UnsupportedReasons(Keep(EnabledChains(w), false)) {
      UnsupportedNamed(EnabledChains(w), c);
    }
    assert PersistedCache(parts[0].chain) in PersistedReasons(parts);
  }

  // ---- The loop over settled chains ----

  method AddChain(c: Chain, r: Resolution, parts: seq<Part>, reasons: seq<Reason>)
    returns (parts': seq<Part>, reasons': seq<Reason>)
    ensures parts' == parts + AddedParts(c, r) && reasons' == reasons + AddedReasons(c, r)
  {
    parts', reasons' := parts, reasons + r.reasons;
    if r.Available? {
      var h := r.holdings;
      parts' := parts' + [Part(c, h)];
      if h.total.None? && h.items != [] {
        reasons' := reasons' + [ValuationUnavailable(c)];
      }
      if !h.available || h.reason != [] {
        reasons' := reasons' + [TokenBalances(if h.reason != [] then h.reason else [TokenBalancesUnavailable], c)];
      }
    }
  }

  lemma OneChainMore(cs: seq<Chain>, rs: seq<Resolution>, i: nat)
    requires i < |cs| == |rs|
    ensures Parts(cs[..i + 1], rs[..i + 1]) == Parts(cs[..i], rs[..i]) + AddedParts(cs[i], rs[i])
    ensures Reasons(cs[..i + 1], rs[..i + 1]) == Reasons(cs[..i], rs[..i]) + AddedReasons(cs[i], rs[i])
  {
    assert cs[..i + 1][..i] == cs[..i] && rs[..i + 1][..i] == rs[..i];
  }

  function PartsTo(cs: seq<Chain>, rs: seq<Resolution>, i: nat): seq<Part>
    requires i <= |cs| == |rs|
  {
    Parts(cs[..i], rs[..i])
  }

  function ReasonsTo(cs: seq<Chain>, rs: seq<Resolution>, first: seq<Reason>, i: nat): seq<Reason>
    requires i <= |cs| == |rs|
  {
    first + Reasons(cs[..i], rs[..i])
  }

  lemma NextChain(cs: seq<Chain>, rs: seq<Resolution>, first: seq<Reason>, i: nat)
    requires i < |cs| == |rs|
    ensures PartsTo(cs, rs, i + 1) == PartsTo(cs, rs, i) + AddedParts(cs[i], rs[i])
    ensures ReasonsTo(cs, rs, first, i + 1) == ReasonsTo(cs, rs, first, i) + AddedReasons(cs[i], rs[i])
  {
    OneChainMore(cs, rs, i);
    Associative(first, Reasons(cs[..i], rs[..i]), AddedReasons(cs[i], rs[i]));
  }

  lemma EveryChain(cs: seq<Chain>, rs: seq<Resolution>, first: seq<Reason>)
    requires |cs| == |rs|
    ensures PartsTo(cs, rs, |cs|) == Parts(cs, rs) && ReasonsTo(cs, rs, first, |cs|) == first + Reasons(cs, rs)
    ensures PartsTo(cs, rs, 0) == [] && ReasonsTo(cs, rs, first, 0) == first
  {
    assert cs[..|cs|] == cs && rs[..|cs|] == rs;
  }

  /** The loop over settled chains: parts and reasons are pushed in chain order. */
  method SettleChains(cs: seq<Chain>, rs: seq<Resolution>, first: seq<Reason>) returns (parts: seq<Part>, reasons: seq<Reason>)
    requires |cs| == |rs|
    ensures parts == Parts(cs, rs) && reasons == first + Reasons(cs, rs)
  {
    EveryChain(cs, rs, first);
    parts, reasons := [], first;
    for i := 0 to |cs|
      invariant parts == PartsTo(cs, rs, i) && reasons == ReasonsTo(cs, rs, first, i)
    {
      NextChain(cs, rs, first, i);
      parts, reasons := AddChain(cs[i], rs[i], parts, reasons);
    }
  }

  /** What a holdings job resolves to once its chains are settled. */
  method CombineChains(w: Wallet, rs: seq<Resolution>, good: Option<Portfolio>, stale: seq<Part>) returns (p: Portfolio)
    requires |rs| == |Keep(EnabledChains(w), true)|
    ensures p == Answer(w, rs, good, stale) && AnswerMeans(w, rs, good, stale, p)
  {
    AnswerIsMeant(w, rs, good, stale);
    var cs := Keep(EnabledChains(w), true);
    var parts, reasons := SettleChains(cs, rs, UnsupportedReasons(Keep(EnabledChains(w), false)));
    if parts != [] {
      p := Aggregate(w, parts, reasons);
    } else if good.Some? {
      p := StaleFallbackWithReasons(good.value, [AllChainsFailedStaleCache] + reasons);
    } else if stale != [] {
      p := StaleOnly(w, stale, reasons);
    } else {
      p := EmptyPartial(w, reasons + [AllChainsUnavailable]);
    }
  }
}
