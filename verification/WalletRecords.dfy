/** A tracked wallet as the holdings and positions services read it, and the chains it stands for. */
module WalletRecords {
  import opened Chains

  /** `enabled` is the wallet's list of enabled chains as stored; it may be empty. */
  datatype Wallet = Wallet(id: nat, address: nat, chain: Chain, enabled: seq<Chain>)

  function Dedup(cs: seq<Chain>): seq<Chain> {
    if cs == [] then []
    else
      var front := Dedup(cs[..|cs| - 1]);
      if cs[|cs| - 1] in front then front else front + [cs[|cs| - 1]]
  }

  function EnabledChains(w: Wallet): seq<Chain> {
    if w.enabled != [] then Dedup(w.enabled) else [w.chain]
  }

  function ChainSet(w: Wallet): set<Chain> {
    set c | c in EnabledChains(w)
  }

  lemma {:induction false} DedupSame(cs: seq<Chain>)
    ensures forall c :: c in Dedup(cs) <==> c in cs
    ensures forall i, j | 0 <= i < j < |Dedup(cs)| :: Dedup(cs)[i] != Dedup(cs)[j]
    decreases |cs|
  {
    if cs != [] {
      DedupSame(cs[..|cs| - 1]);
      assert cs == cs[..|cs| - 1] + [cs[|cs| - 1]];
    }
  }

  /** A wallet's chains are those its list enables, each once; without a list it has the chain it was created for. */
  lemma EnabledAre(w: Wallet)
    ensures forall c :: c in EnabledChains(w) <==> if w.enabled == [] then c == w.chain else c in w.enabled
    ensures forall i, j | 0 <= i < j < |EnabledChains(w)| :: EnabledChains(w)[i] != EnabledChains(w)[j]
    ensures forall c :: c in ChainSet(w) <==> c in EnabledChains(w)
  {
    DedupSame(w.enabled);
  }

  function Keep(cs: seq<Chain>, supported: bool): seq<Chain> {
    if cs == [] then []
    else if Supported(cs[0]) == supported then [cs[0]] + Keep(cs[1..], supported)
    else Keep(cs[1..], supported)
  }

  function SupportedChains(w: Wallet): seq<Chain> {
    Keep(EnabledChains(w), true)
  }

  lemma {:induction false} Kept(cs: seq<Chain>, supported: bool)
    ensures forall c :: c in Keep(cs, supported) <==> c in cs && Supported(c) == supported
  {
    if cs != [] {
      Kept(cs[1..], supported);
      assert cs == [cs[0]] + cs[1..];
    }
  }

  /** What a wallet's services can answer about depends on its set of chains alone. */
  lemma SupportedIn(w: Wallet)
    ensures forall c :: c in SupportedChains(w) <==> c in ChainSet(w) && Supported(c)
    ensures SupportedChains(w) != [] <==> exists c | c in ChainSet(w) :: Supported(c)
  {
    Kept(EnabledChains(w), true);
    if SupportedChains(w) != [] { assert SupportedChains(w)[0] in SupportedChains(w); }
  }

  /** Records of one wallet with the same chains, one of them answerable, have the same address. */
  predicate OneAddress(asked: set<Wallet>) {
    forall v, w | v in asked && w in asked && v.id == w.id && ChainSet(v) == ChainSet(w) && SupportedChains(w) != [] ::
      v.address == w.address
  }
}
