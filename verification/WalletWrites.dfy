/**
 What wallet and account mutations do to the desired watch state, and which pairs they lock and mark.
 Each mutation is given by the wallets of the one user whose row it holds.
 */
module WalletWrites {
  import opened Chains
  import opened Wrappers
  import opened Markers

  type UserId = nat
  type WalletId = nat
  type SessionId = nat

  /** A `tracked_wallets` row joined with the enabled rows of `wallet_chains`. */
  datatype Wallet = Wallet(user: UserId, address: Address, active: bool, enabled: set<Chain>)

  type Wallets = map<WalletId, Wallet>

  datatype Op =
    | Create(user: UserId, wallet: WalletId, address: Address, chains: set<Chain>)
    | Update(user: UserId, wallet: WalletId, newAddress: Option<Address>, newChains: Option<set<Chain>>)
    | Delete(user: UserId, wallet: WalletId)
    | DeleteAccount(user: UserId, session: SessionId)

  /** `isAlchemyAddressDesired`. */
  ghost predicate Desired(ws: Wallets, p: Pair) {
    exists w | w in ws :: Wants(ws[w], p)
  }

  predicate Wants(w: Wallet, p: Pair) {
    w.active && p.chain in w.enabled && p.address == w.address
  }

  function UserWallets(ws: Wallets, u: UserId): Wallets {
    map w | w in ws && ws[w].user == u :: ws[w]
  }

  /** `listDesiredAlchemyPairsForWallet`. */
  function PairsOf(w: Wallet): set<Pair> {
    if w.active then set c | c in w.enabled && Supported(c) :: Pair(c, w.address) else {}
  }

  function Updated(w: Wallet, op: Op): Wallet
    requires op.Update?
  {
    w.(address := op.newAddress.GetOr(w.address), enabled := op.newChains.GetOr(w.enabled))
  }

  /** The rows a mutation finds: an update or delete is filtered by wallet id and user id. */
  predicate Finds(seen: Wallets, op: Op) {
    match op
    case Create(_, w, _, chains) => w !in seen && chains != {}
    case Update(_, w, _, _) => w in seen
    case Delete(_, w) => w in seen
    case DeleteAccount(_, _) => true
  }

  /** The committed effect on the wallet tables. */
  function Applied(ws: Wallets, op: Op): Wallets
    requires Finds(ws, op)
  {
    match op
    case Create(u, w, a, chains) => ws[w := Wallet(u, a, true, chains)]
    case Update(_, w, _, _) => ws[w := Updated(ws[w], op)]
    case Delete(_, w) => ws - {w}
    case DeleteAccount(u, _) => map w | w in ws && ws[w].user != u :: ws[w]
  }

  /** The desired pairs read before the mutation. */
  function PairsBefore(seen: Wallets, op: Op): set<Pair>
    requires Finds(seen, op)
  {
    match op
    case Create(_, _, _, _) => {}
    case Update(_, w, _, _) => PairsOf(seen[w])
    case Delete(_, w) => PairsOf(seen[w])
    case DeleteAccount(_, _) => set w, p | w in seen && p in PairsOf(seen[w]) :: p
  }

  /** The pairs the mutation is predicted to lead to; an unsupported chain among them is a thrown `TypeError`. */
  function PairsPredicted(seen: Wallets, op: Op): set<Pair>
    requires Finds(seen, op)
  {
    match op
    case Create(_, _, a, chains) => set c | c in chains :: Pair(c, a)
    case Update(_, w, a, chains) =>
      if seen[w].active then
        var cs := if chains.Some? then chains.value else set p | p in PairsOf(seen[w]) :: p.chain;
        set c | c in cs :: Pair(c, a.GetOr(seen[w].address))
      else {}
    case Delete(_, _) => {}
    case DeleteAccount(_, _) => {}
  }

  /** The pairs whose advisory locks the mutation takes. */
  function LockedPairs(seen: Wallets, op: Op): set<Pair>
    requires Finds(seen, op)
  {
    PairsBefore(seen, op) + PairsPredicted(seen, op)
  }

  /** The pairs the mutation marks dirty in the same commit. */
  function MarkedPairs(seen: Wallets, op: Op): set<Pair>
    requires Finds(seen, op)
  {
    match op
    case Create(u, _, a, chains) => PairsOf(Wallet(u, a, true, chains))
    case Update(_, w, _, _) =>
      var before, after := PairsOf(seen[w]), PairsOf(Updated(seen[w], op));
      if before == after then {} else before + after
    case Delete(_, _) => PairsBefore(seen, op)
    case DeleteAccount(_, _) => PairsBefore(seen, op)
  }

  lemma WantsIsListed(w: Wallet, p: Pair)
    requires Supported(p.chain)
    ensures Wants(w, p) <==> p in PairsOf(w)
  {
    if Wants(w, p) { assert p == Pair(p.chain, w.address); }
  }

  /** Only the user's own rows matter to a mutation: reading them under the user row is enough. */
  lemma OwnRowsSuffice(ws: Wallets, op: Op)
    requires op.Update? || op.Delete? ==> op.wallet in UserWallets(ws, op.user)
    requires op.Create? ==> op.wallet !in ws && op.chains != {}
    ensures Finds(ws, op) && Finds(UserWallets(ws, op.user), op)
    ensures MarkedPairs(UserWallets(ws, op.user), op) <= LockedPairs(UserWallets(ws, op.user), op)
  {
    var seen := UserWallets(ws, op.user);
    assert Finds(seen, op);
    match op {
      case Create(u, w, a, chains) =>
      case Update(_, w, a, chains) =>
        var next := Updated(seen[w], op);
        forall p | p in PairsOf(next) ensures p in PairsPredicted(seen, op) {
          if chains.None? {
            assert Pair(p.chain, seen[w].address) in PairsOf(seen[w]);
          }
        }
      case Delete(_, w) =>
      case DeleteAccount(_, _) =>
    }
  }

  /** A pair whose desired state a mutation changes is among the pairs that mutation marks. */
  lemma ChangeIsMarked(ws: Wallets, op: Op, p: Pair)
    requires Supported(p.chain)
    requires op.Update? || op.Delete? ==> op.wallet in UserWallets(ws, op.user)
    requires op.Create? ==> op.wallet !in ws && op.chains != {}
    ensures Finds(ws, op) && Finds(UserWallets(ws, op.user), op)
    ensures Desired(ws, p) != Desired(Applied(ws, op), p) ==> p in MarkedPairs(UserWallets(ws, op.user), op)
  {
    OwnRowsSuffice(ws, op);
    var seen, after := UserWallets(ws, op.user), Applied(ws, op);
    if Desired(ws, p) && !Desired(after, p) {
      var w :| w in ws && Wants(ws[w], p);
      WantsIsListed(ws[w], p);
      assert w !in after || !Wants(after[w], p);
      if op.DeleteAccount? {
        assert w in seen && p in PairsOf(seen[w]);
      } else if op.Update? {
        WantsIsListed(Updated(ws[w], op), p);
      }
    } else if !Desired(ws, p) && Desired(after, p) {
      var w :| w in after && Wants(after[w], p);
      WantsIsListed(after[w], p);
      assert w !in ws || !Wants(ws[w], p);
      if op.Update? {
        assert w == op.wallet;
        WantsIsListed(ws[w], p);
      }
    }
  }
}
