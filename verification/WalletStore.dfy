/** The wallet repository's transactions over its tables, refined to the mutations of `WalletWrites`. */
module WalletStore {
  import opened Chains
  import opened Collections
  import opened Wrappers
  import opened Markers
  import opened WalletWrites

  datatype Status = Active | Paused | Archived

  datatype WalletRow = WalletRow(user: UserId, address: Address, status: Status)

  type ChainRows = map<(WalletId, Chain), bool>

  /** `NotFound` returns null to the caller, `Invalid` is a thrown error; both roll back. */
  datatype Outcome = Done | NotFound | Invalid

  function EnabledChains(chains: ChainRows, w: WalletId): set<Chain> {
    set k | k in chains && k.0 == w && chains[k] :: k.1
  }

  function Joined(rows: map<WalletId, WalletRow>, chains: ChainRows): Wallets {
    map w | w in rows :: Wallet(rows[w].user, rows[w].address, rows[w].status.Active?, EnabledChains(chains, w))
  }

  function Enabled(chains: ChainRows, w: WalletId, list: set<Chain>): ChainRows {
    map k | k in chains.Keys + (set c | c in list :: (w, c)) :: if k.0 == w && k.1 in list then true else chains[k]
  }

  function Disabled(chains: ChainRows, w: WalletId, keep: set<Chain>): ChainRows {
    map k | k in chains :: if k.0 == w && k.1 !in keep then false else chains[k]
  }

  function ChainSet(list: seq<Chain>): set<Chain> {
    set c | c in list
  }

  lemma EnablingWallet(chains: ChainRows, w: WalletId, list: set<Chain>, v: WalletId)
    ensures EnabledChains(Enabled(chains, w, list), v) == if v == w then EnabledChains(chains, w) + list else EnabledChains(chains, v)
    ensures EnabledChains(Enabled(Disabled(chains, w, list), w, list), v) == if v == w then list else EnabledChains(chains, v)
  {
    var on, both := Enabled(chains, w, list), Enabled(Disabled(chains, w, list), w, list);
    forall c ensures c in EnabledChains(on, v) <==> (c in EnabledChains(chains, v) || (v == w && c in list)) {
      assert c in EnabledChains(on, v) <==> (v, c) in on && on[(v, c)];
      assert c in EnabledChains(chains, v) <==> (v, c) in chains && chains[(v, c)];
    }
    forall c ensures c in EnabledChains(both, v) <==> if v == w then c in list else c in EnabledChains(chains, v) {
      assert c in EnabledChains(both, v) <==> (v, c) in both && both[(v, c)];
      assert c in EnabledChains(chains, v) <==> (v, c) in chains && chains[(v, c)];
    }
  }

  lemma EnablingOne(chains: ChainRows, w: WalletId, list: set<Chain>, c: Chain)
    ensures Enabled(chains, w, list)[(w, c) := true] == Enabled(chains, w, list + {c})
  {
  }

  predicate On(chains: ChainRows, w: WalletId, c: Chain) {
    (w, c) in chains && chains[(w, c)]
  }

  predicate OthersStand(before: ChainRows, after: ChainRows, w: WalletId) {
    && (forall k | k in before && k.0 != w :: k in after && after[k] == before[k])
    && (forall k | k in after && k.0 != w :: k in before)
  }

  /** The wallet has exactly these chains on, and no other wallet's row changed. */
  ghost predicate SetTo(before: ChainRows, after: ChainRows, w: WalletId, on: set<Chain>) {
    OthersStand(before, after, w) && forall c :: On(after, w, c) <==> c in on
  }

  /** These chains are on beside those that were, and no other wallet's row changed. */
  ghost predicate Adds(before: ChainRows, after: ChainRows, w: WalletId, on: set<Chain>) {
    OthersStand(before, after, w) && forall c :: On(after, w, c) <==> c in on || On(before, w, c)
  }

  lemma EnabledAdds(chains: ChainRows, w: WalletId, list: set<Chain>)
    ensures Adds(chains, Enabled(chains, w, list), w, list)
  {
    forall c ensures On(Enabled(chains, w, list), w, c) <==> c in list || On(chains, w, c) {}
  }

  lemma RechainedSets(chains: ChainRows, w: WalletId, list: set<Chain>)
    ensures SetTo(chains, Enabled(Disabled(chains, w, list), w, list), w, list)
  {
    var off := Disabled(chains, w, list);
    EnabledAdds(off, w, list);
    forall c ensures On(Enabled(off, w, list), w, c) <==> c in list {
      assert On(off, w, c) ==> c in list;
    }
    forall k | k in Enabled(off, w, list) && k.0 != w ensures k in chains {
      assert k in off;
    }
  }

  // ---- Each transaction's row changes, as changes of the joined tables ----

  lemma CreatedRows(rows: map<WalletId, WalletRow>, chains: ChainRows, u: UserId, w: WalletId, a: Address, list: set<Chain>)
    requires w !in rows && (forall k | k in chains :: k.0 != w) && list != {}
    ensures Joined(rows[w := WalletRow(u, a, Active)], Enabled(chains, w, list)) == Applied(Joined(rows, chains), Create(u, w, a, list))
  {
    var rows' := rows[w := WalletRow(u, a, Active)];
    forall v | v in rows'
      ensures EnabledChains(Enabled(chains, w, list), v) == if v == w then list else EnabledChains(chains, v)
    {
      EnablingWallet(chains, w, list, v);
      assert v == w ==> EnabledChains(chains, w) == {};
    }
  }

  function Readdressed(rows: map<WalletId, WalletRow>, w: WalletId, a: Option<Address>): map<WalletId, WalletRow>
    requires w in rows
  {
    if a.Some? then rows[w := rows[w].(address := a.value)] else rows
  }

  function Rechained(chains: ChainRows, w: WalletId, list: Option<set<Chain>>): ChainRows {
    if list.Some? then Enabled(Disabled(chains, w, list.value), w, list.value) else chains
  }

  lemma RechainedEnabled(chains: ChainRows, w: WalletId, list: Option<set<Chain>>, v: WalletId)
    ensures EnabledChains(Rechained(chains, w, list), v) == if v == w && list.Some? then list.value else EnabledChains(chains, v)
  {
    if list.Some? { EnablingWallet(chains, w, list.value, v); }
  }

  lemma UpdatedRow(rows: map<WalletId, WalletRow>, chains: ChainRows, u: UserId, w: WalletId,
                   a: Option<Address>, list: Option<set<Chain>>, v: WalletId)
    requires w in rows && v in rows
    ensures var row := Readdressed(rows, w, a)[v];
            Wallet(row.user, row.address, row.status.Active?, EnabledChains(Rechained(chains, w, list), v))
            == Applied(Joined(rows, chains), Update(u, w, a, list))[v]
  {
    RechainedEnabled(chains, w, list, v);
  }

  lemma UpdatedRows(rows: map<WalletId, WalletRow>, chains: ChainRows, u: UserId, w: WalletId,
                    a: Option<Address>, list: Option<set<Chain>>)
    requires w in rows
    ensures Joined(Readdressed(rows, w, a), Rechained(chains, w, list)) == Applied(Joined(rows, chains), Update(u, w, a, list))
  {
    var joined := Joined(Readdressed(rows, w, a), Rechained(chains, w, list));
    forall v | v in rows ensures joined[v] == Applied(Joined(rows, chains), Update(u, w, a, list))[v] {
      UpdatedRow(rows, chains, u, w, a, list, v);
    }
  }

  /** The pairs of a user's active wallets, as the deletion reads them. */
  function PairsOfUser(ws: Wallets, u: UserId): set<Pair> {
    set w, p | w in ws && ws[w].user == u && p in PairsOf(ws[w]) :: p
  }

  lemma PairsOfUserAre(ws: Wallets, u: UserId, sid: SessionId)
    ensures PairsOfUser(ws, u) == PairsBefore(UserWallets(ws, u), DeleteAccount(u, sid))
    ensures forall p | p in PairsOfUser(ws, u) :: Supported(p.chain)
  {
    var seen := UserWallets(ws, u);
    forall p | p in PairsOfUser(ws, u) ensures p in PairsBefore(seen, DeleteAccount(u, sid)) {
      var w :| w in ws && ws[w].user == u && p in PairsOf(ws[w]);
      assert w in seen && p in PairsOf(seen[w]);
    }
  }

  lemma RemovedRows(rows: map<WalletId, WalletRow>, chains: ChainRows, gone: set<WalletId>)
    ensures Joined(rows - gone, map k | k in chains && k.0 !in gone :: chains[k]) == Joined(rows, chains) - gone
  {
    var left := map k | k in chains && k.0 !in gone :: chains[k];
    forall v | v !in gone ensures EnabledChains(left, v) == EnabledChains(chains, v) {}
  }

  /** The pairs an update locks are refused exactly when an active wallet is given an unsupported chain. */
  lemma UnsupportedUpdate(row: Wallet, op: Op)
    requires op.Update?
    ensures (exists p: Pair | p in PairsOf(row) + PairsPredicted(map[op.wallet := row], op) :: !Supported(p.chain))
            <==> row.active && op.newChains.Some? && exists c | c in op.newChains.value :: !Supported(c)
  {
    var seen := map[op.wallet := row];
    forall p | p in PairsOf(row) ensures Supported(p.chain) {}
    if row.active && op.newChains.Some? {
      forall c | c in op.newChains.value ensures Pair(c, op.newAddress.GetOr(row.address)) in PairsPredicted(seen, op) {}
    }
  }

  /** The rows of a query result, in some order. */
  method AsRows(ps: set<Pair>) returns (raw: seq<RawPair>)
    ensures forall r | r in raw :: r.address.Some? && Pair(r.chain, r.address.value) in ps
    ensures forall p | p in ps :: RawPair(p.chain, Some(p.address)) in raw
  {
    raw := [];
    var rest := ps;
    while rest != {}
      invariant rest <= ps
      invariant forall r | r in raw :: r.address.Some? && Pair(r.chain, r.address.value) in ps
      invariant forall p | p in ps - rest :: RawPair(p.chain, Some(p.address)) in raw
      decreases rest
    {
      var p :| p in rest;
      raw, rest := raw + [RawPair(p.chain, Some(p.address))], rest - {p};
    }
  }

  lemma CreatedIs(before: ChainRows, after: ChainRows, w: WalletId, list: set<Chain>)
    requires Adds(before, after, w, list) && forall k | k in before :: k.0 != w
    ensures SetTo(before, after, w, list)
  {
    forall c ensures On(after, w, c) <==> c in list {
      assert !On(before, w, c);
    }
  }

  class WalletTables {
    var rows: map<WalletId, WalletRow>
    var chains: ChainRows
    const markers: MarkerTable

    constructor ()
      ensures rows == map[] && chains == map[] && markers.rows == map[] && fresh(markers)
    {
      rows, chains := map[], map[];
      markers := new MarkerTable();
    }

    ghost predicate Committed(op: Op, before: Wallets, marked: map<Pair, Marker>, now: int)
      reads this, markers
    {
      var seen := UserWallets(before, op.user);
      && Finds(before, op) && Finds(seen, op)
      && Joined(rows, chains) == Applied(before, op)
      && markers.rows == MarkedDirty(marked, MarkedPairs(seen, op), now)
    }

    twostate predicate RolledBack()
      reads this, markers
    {
      rows == old(rows) && chains == old(chains) && markers.rows == old(markers.rows)
    }

    /** Takes the pair locks of a transaction; `false` is the `TypeError` of an invalid pair. */
    method LockPairs(ps: set<Pair>) returns (ok: bool, plan: seq<Pair>)
      ensures ok <==> forall p | p in ps :: Supported(p.chain)
      ensures ok ==> Sorted(plan) && Elements(plan) == ps
    {
      var raw := AsRows(ps);
      var sorted := NormalizePairs(raw);
      ok, plan := sorted.Some?, sorted.GetOr([]);
      if ok {
        forall p | p in ps ensures p in plan {
          assert Normalized(RawPair(p.chain, Some(p.address))) in Elements(plan);
        }
      }
    }

    method MarkPairs(ps: set<Pair>, now: int)
      requires forall p | p in ps :: Supported(p.chain)
      modifies markers
      ensures markers.rows == MarkedDirty(old(markers.rows), ps, now) && MarksExactly(old(markers.rows), markers.rows, ps, now)
    {
      var raw := AsRows(ps);
      var targets := set r | r in raw && WellFormed(r) :: Normalized(r);
      forall p | p in ps ensures p in targets {
        assert Normalized(RawPair(p.chain, Some(p.address))) == p;
      }
      assert targets == ps;
      var ok := markers.MarkDirty(raw, now);
    }

    /** `upsertWalletChains`. */
    method UpsertChains(w: WalletId, list: seq<Chain>)
      modifies this`chains
      ensures chains == Enabled(old(chains), w, ChainSet(list)) && Adds(old(chains), chains, w, ChainSet(list))
    {
      EnabledAdds(chains, w, ChainSet(list));
      for i := 0 to |list|
        invariant chains == Enabled(old(chains), w, ChainSet(list[..i]))
      {
        assert ChainSet(list[..i + 1]) == ChainSet(list[..i]) + {list[i]};
        EnablingOne(old(chains), w, ChainSet(list[..i]), list[i]);
        chains := chains[(w, list[i]) := true];
      }
      assert list[..|list|] == list;
    }

    /** `createWalletWithPreferences`; `w` is the id the insert generates. */
    method CreateWallet(u: UserId, w: WalletId, address: Address, list: seq<Chain>, now: int) returns (outcome: Outcome)
      requires w !in rows && forall k | k in chains :: k.0 != w
      modifies this`rows, this`chains, markers
      ensures outcome.Done? <==> list != [] && forall c | c in list :: Supported(c)
      ensures outcome.Done? ==> Committed(Create(u, w, address, ChainSet(list)), old(Joined(rows, chains)), old(markers.rows), now)
      // The row is the one asked for, exactly these chains are on, and each of them is marked for this address.
      ensures outcome.Done? ==>
                && rows == old(rows)[w := WalletRow(u, address, Active)] && SetTo(old(chains), chains, w, ChainSet(list))
                && MarksExactly(old(markers.rows), markers.rows, set c | c in list :: Pair(c, address), now)
      ensures !outcome.Done? ==> outcome.Invalid? && RolledBack()
    {
      if list == [] {
        return Invalid;
      }
      ghost var op := Create(u, w, address, ChainSet(list));
      assert list[0] in ChainSet(list);
      ghost var before := Joined(rows, chains);
      var wanted := set c | c in list :: Pair(c, address);
      var ok, plan := LockPairs(wanted);
      forall c | c in list ensures Pair(c, address) in wanted {}
      if !ok {
        return Invalid;
      }
      CreatedRows(rows, chains, u, w, address, ChainSet(list));
      rows := rows[w := WalletRow(u, address, Active)];
      UpsertChains(w, list);
      CreatedIs(old(chains), chains, w, ChainSet(list));
      assert PairsOf(Joined(rows, chains)[w]) == wanted by {
        assert forall p | p in wanted :: Supported(p.chain);
      }
      MarkPairs(PairsOf(Joined(rows, chains)[w]), now);
      outcome := Done;
    }

    /** The two updates of `updateWalletById` on the rows it found. */
    method WriteWallet(w: WalletId, newAddress: Option<Address>, newChains: Option<seq<Chain>>)
      requires w in rows
      modifies this`rows, this`chains
      ensures rows == Readdressed(old(rows), w, newAddress)
      ensures rows == old(rows)[w := old(rows)[w].(address := if newAddress.Some? then newAddress.value else old(rows)[w].address)]
      ensures chains == Rechained(old(chains), w, if newChains.Some? then Some(ChainSet(newChains.value)) else None)
      ensures if newChains.Some? then SetTo(old(chains), chains, w, ChainSet(newChains.value)) else chains == old(chains)
    {
      if newAddress.Some? {
        rows := rows[w := rows[w].(address := newAddress.value)];
      }
      if newChains.Some? {
        RechainedSets(chains, w, ChainSet(newChains.value));
        chains := Disabled(chains, w, ChainSet(newChains.value));
        UpsertChains(w, newChains.value);
      }
    }

    /** `updateWalletById`; the label and track types it may also set do not touch the watch state. */
    method UpdateWallet(u: UserId, w: WalletId, newAddress: Option<Address>, newChains: Option<seq<Chain>>, now: int)
      returns (outcome: Outcome)
      modifies this`rows, this`chains, markers
      ensures outcome.NotFound? <==> !(w in old(rows) && old(rows)[w].user == u)
      ensures outcome.Done? ==>
                Committed(Update(u, w, newAddress, if newChains.Some? then Some(ChainSet(newChains.value)) else None),
                          old(Joined(rows, chains)), old(markers.rows), now)
      // The address and the chains are what was asked for, if it was; nothing else of any wallet changes.
      ensures outcome.Done? ==>
                && rows == old(rows)[w := old(rows)[w].(address := if newAddress.Some? then newAddress.value else old(rows)[w].address)]
                && if newChains.Some? then SetTo(old(chains), chains, w, ChainSet(newChains.value)) else chains == old(chains)
      // When the wallet's pairs change, all it had and all it has are marked.
      ensures outcome.Done? ==>
                && w in Joined(rows, chains) && w in old(Joined(rows, chains))
                && var had, has := PairsOf(old(Joined(rows, chains))[w]), PairsOf(Joined(rows, chains)[w]);
                && if had == has then markers.rows == old(markers.rows) else MarksExactly(old(markers.rows), markers.rows, had + has, now)
      ensures !outcome.Done? ==> RolledBack()
      ensures outcome.Invalid? <==>
                && w in old(rows) && old(rows)[w].user == u && old(rows)[w].status.Active?
                && newChains.Some? && exists c | c in newChains.value :: !Supported(c)
    {
      if w !in rows || rows[w].user != u {
        return NotFound;
      }
      var before := Joined(rows, chains);
      var op := Update(u, w, newAddress, if newChains.Some? then Some(ChainSet(newChains.value)) else None);
      ghost var seen := UserWallets(before, u);
      var previous := PairsOf(before[w]);
      var predicted := PairsPredicted(map[w := before[w]], op);
      var ok, plan := LockPairs(previous + predicted);
      UnsupportedUpdate(before[w], op);
      if !ok {
        return Invalid;
      }
      UpdatedRows(rows, chains, u, w, newAddress, op.newChains);
      WriteWallet(w, newAddress, newChains);
      var next := PairsOf(Joined(rows, chains)[w]);
      if previous != next {
        forall p: Pair | p in previous + next ensures Supported(p.chain) {}
        MarkPairs(previous + next, now);
      }
      assert markers.rows == MarkedDirty(old(markers.rows), MarkedPairs(seen, op), now);
      outcome := Done;
    }

    /** `deleteWalletById`. */
    method DeleteWallet(u: UserId, w: WalletId, now: int) returns (outcome: Outcome)
      modifies this`rows, this`chains, markers
      ensures outcome.Done? <==> w in old(rows) && old(rows)[w].user == u
      ensures outcome.Done? ==> Committed(Delete(u, w), old(Joined(rows, chains)), old(markers.rows), now)
      // The wallet and its chains go, no other wallet's, and its pairs are marked.
      ensures outcome.Done? ==>
                && rows == old(rows) - {w} && OthersStand(old(chains), chains, w) && (forall k | k in chains :: k.0 != w)
                && w in old(Joined(rows, chains)) && MarksExactly(old(markers.rows), markers.rows, PairsOf(old(Joined(rows, chains))[w]), now)
      ensures !outcome.Done? ==> outcome.NotFound? && RolledBack()
    {
      if w !in rows || rows[w].user != u {
        return NotFound;
      }
      ghost var before := Joined(rows, chains);
      var pairs := PairsOf(Joined(rows, chains)[w]);
      forall p | p in pairs ensures Supported(p.chain) {}
      var ok, plan := LockPairs(pairs);
      var gone := {w};
      RemovedRows(rows, chains, gone);
      rows := rows - gone;
      chains := map k | k in chains && k.0 !in gone :: chains[k];
      MarkPairs(pairs, now);
      outcome := Done;
    }

    /** The wallet part of `deleteAccountWithAuthorization`: pairs are marked first, then the rows cascade away. */
    method DeleteUser(u: UserId, sid: SessionId, now: int)
      modifies this`rows, this`chains, markers
      ensures Committed(DeleteAccount(u, sid), old(Joined(rows, chains)), old(markers.rows), now)
      // The user's wallets and their chains go, no one else's, and every pair of theirs is marked.
      ensures forall w :: w in rows <==> w in old(rows) && old(rows)[w].user != u
      ensures forall w | w in rows :: rows[w] == old(rows)[w]
      ensures forall k :: k in chains <==> k in old(chains) && !(k.0 in old(rows) && old(rows)[k.0].user == u)
      ensures forall k | k in chains :: chains[k] == old(chains)[k]
      ensures MarksExactly(old(markers.rows), markers.rows, PairsOfUser(old(Joined(rows, chains)), u), now)
    {
      var before := Joined(rows, chains);
      var pairs := PairsOfUser(before, u);
      PairsOfUserAre(before, u, sid);
      var ok, plan := LockPairs(pairs);
      MarkPairs(pairs, now);
      var gone := set w | w in rows && rows[w].user == u;
      RemovedRows(rows, chains, gone);
      rows := rows - gone;
      chains := map k | k in chains && k.0 !in gone :: chains[k];
    }
  }
}
