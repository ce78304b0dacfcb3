/**
 The `alchemy_address_reconciliation` table: one marker row per (chain, address) pair whose
 provider-side watch state may be out of date.

 An address that passes the repository's pattern is forty lower-case hexadecimal digits, so it is
 modelled by the number it denotes: fixed width makes string order and numeric order the same.
 */
module Markers {
  import opened Chains
  import opened Collections
  import opened Wrappers

  type Address = nat

  type Token = nat

  datatype Pair = Pair(chain: Chain, address: Address)

  /** A pair as a caller passes it: `None` is a value that is no string or fails the address pattern. */
  datatype RawPair = RawPair(chain: Chain, address: Option<Address>)

  /** `claim_token` and `lease_expires_at` are null together, so they form one optional value. */
  datatype Lease = Lease(token: Token, expiresAt: int)

  datatype Marker = Marker(generation: nat, attempts: nat, nextAttemptAt: int, claim: Option<Lease>, createdAt: int)

  /** What a claiming statement returns to the worker. */
  datatype Claim = Claim(pair: Pair, generation: nat, attempts: nat, token: Token, stale: bool)

  predicate WellFormed(raw: RawPair) {
    Supported(raw.chain) && raw.address.Some?
  }

  function Normalized(raw: RawPair): Pair
    requires WellFormed(raw)
  {
    Pair(raw.chain, raw.address.value)
  }

  // ---- The order in which pair locks and marker rows are taken ----

  predicate Precedes(p: Pair, q: Pair) {
    ChainRank(p.chain) < ChainRank(q.chain) || (ChainRank(p.chain) == ChainRank(q.chain) && p.address < q.address)
  }

  ghost predicate Sorted(s: seq<Pair>) {
    forall i, j | 0 <= i < j < |s| :: Precedes(s[i], s[j])
  }

  lemma LeastExists(ps: set<Pair>) returns (m: Pair)
    requires ps != {}
    ensures m in ps && forall q | q in ps && q != m :: Precedes(m, q)
  {
    var p :| p in ps;
    m := p;
    var rest := ps - {p};
    assert forall q | q in ps && q != p :: q in rest;
    if rest != {} {
      var n := LeastExists(rest);
      m := if Precedes(n, p) then n else p;
      assert Precedes(n, p) || Precedes(p, n);
    }
  }

  /** `normalizePairs`: a `Map` drops duplicates, then the values are sorted; `None` is the thrown `TypeError`. */
  method NormalizePairs(raw: seq<RawPair>) returns (pairs: Option<seq<Pair>>)
    ensures pairs.None? <==> exists i | 0 <= i < |raw| :: !WellFormed(raw[i])
    ensures pairs.Some? ==> Sorted(pairs.value)
    ensures pairs.Some? ==> Elements(pairs.value) == (set r | r in raw && WellFormed(r) :: Normalized(r))
  {
    var unique: set<Pair> := {};
    for i := 0 to |raw|
      invariant forall k | 0 <= k < i :: WellFormed(raw[k])
      invariant unique == set k | 0 <= k < i && WellFormed(raw[k]) :: Normalized(raw[k])
    {
      if !WellFormed(raw[i]) {
        return None;
      }
      unique := unique + {Normalized(raw[i])};
    }
    assert unique == set r | r in raw && WellFormed(r) :: Normalized(r);
    var sorted: seq<Pair> := [];
    var rest := unique;
    while rest != {}
      invariant rest <= unique && Elements(sorted) == unique - rest
      invariant Sorted(sorted)
      invariant forall p, q | p in sorted && q in rest :: Precedes(p, q)
      decreases rest
    {
      ghost var least := LeastExists(rest);
      var m :| m in rest && forall q | q in rest && q != m :: Precedes(m, q);
      assert Elements(sorted + [m]) == Elements(sorted) + {m};
      sorted, rest := sorted + [m], rest - {m};
    }
    pairs := Some(sorted);
  }

  // ---- Row transitions, one per statement ----

  /** The upsert of `markAlchemyAddressPairsDirty` on one pair. */
  function Dirty(row: Option<Marker>, now: int): Marker {
    match row
    case None => Marker(1, 0, now, None, now)
    case Some(m) => m.(generation := m.generation + 1, attempts := 0, nextAttemptAt := now, claim := None)
  }

  function Row(rows: map<Pair, Marker>, p: Pair): Option<Marker> {
    if p in rows then Some(rows[p]) else None
  }

  function MarkedDirty(rows: map<Pair, Marker>, ps: set<Pair>, now: int): map<Pair, Marker> {
    map p | p in rows.Keys + ps :: if p in ps then Dirty(Row(rows, p), now) else rows[p]
  }

  lemma OneMoreDirty(rows: map<Pair, Marker>, ps: set<Pair>, p: Pair, now: int)
    requires p !in ps
    ensures var before := MarkedDirty(rows, ps, now);
            Row(before, p) == Row(rows, p) && before[p := Dirty(Row(rows, p), now)] == MarkedDirty(rows, ps + {p}, now)
  {
  }

  lemma NextInOrder(order: seq<Pair>, i: nat)
    requires Sorted(order) && i < |order|
    ensures order[i] !in order[..i] && Elements(order[..i + 1]) == Elements(order[..i]) + {order[i]}
  {
    forall k | 0 <= k < i ensures order[k] != order[i] {
      assert Precedes(order[k], order[i]);
    }
    assert order[..i + 1] == order[..i] + [order[i]];
  }

  predicate Due(m: Marker, now: int) {
    m.nextAttemptAt <= now && (m.claim.None? || m.claim.value.expiresAt <= now)
  }

  /** The claim order: `ORDER BY next_attempt_at, created_at`. */
  predicate NoLater(m: Marker, n: Marker) {
    m.nextAttemptAt < n.nextAttemptAt || (m.nextAttemptAt == n.nextAttemptAt && m.createdAt <= n.createdAt)
  }

  /** `p` is a row the claiming statement may pick: due, not locked by another transaction, and first in order. */
  ghost predicate Claimable(rows: map<Pair, Marker>, locked: set<Pair>, p: Pair, now: int) {
    && p in rows && p !in locked && Due(rows[p], now)
    && forall q | q in rows && q !in locked && Due(rows[q], now) :: NoLater(rows[p], rows[q])
  }

  function Leased(m: Marker, token: Token, expiresAt: int): Marker {
    m.(claim := Some(Lease(token, expiresAt)))
  }

  lemma LeasedIsUnderLease(m: Marker, token: Token, now: int, leaseMs: nat)
    requires Due(m, now)
    ensures UnderLease(m, Leased(m, token, now + leaseMs), token, now, leaseMs)
  {
  }

  function ClaimOf(p: Pair, m: Marker, token: Token): Claim {
    Claim(p, m.generation, m.attempts, token, m.claim.Some?)
  }

  /** The fence shared by the complete, release and retry statements. */
  predicate Owns(rows: map<Pair, Marker>, c: Claim) {
    && c.pair in rows
    && rows[c.pair].generation == c.generation
    && rows[c.pair].claim.Some? && rows[c.pair].claim.value.token == c.token
  }

  predicate Live(rows: map<Pair, Marker>, c: Claim, now: int) {
    Owns(rows, c) && rows[c.pair].claim.value.expiresAt > now
  }

  function Released(rows: map<Pair, Marker>, c: Claim, now: int): map<Pair, Marker> {
    if Owns(rows, c) then rows[c.pair := rows[c.pair].(claim := None, nextAttemptAt := now)] else rows
  }

  function Retried(rows: map<Pair, Marker>, c: Claim, nextAttemptAt: int): map<Pair, Marker> {
    if Owns(rows, c) then
      rows[c.pair := rows[c.pair].(attempts := rows[c.pair].attempts + 1, claim := None, nextAttemptAt := nextAttemptAt)]
    else rows
  }

  function Completed(rows: map<Pair, Marker>, c: Claim, now: int, observed: bool, desired: bool): map<Pair, Marker> {
    if Live(rows, c, now) && observed == desired then rows - {c.pair} else rows
  }

  /** No other pair's row is touched. */
  ghost predicate OnlyRow(before: map<Pair, Marker>, after: map<Pair, Marker>, p: Pair) {
    before - {p} == after - {p}
  }

  /** Marking leaves a new piece of work: unclaimed, without failed attempts, under the next generation, and due from now on. */
  ghost predicate FreshWork(before: Option<Marker>, after: Marker, now: int) {
    && after.claim.None? && after.attempts == 0 && (forall t :: Due(after, t) <==> now <= t)
    && match before
       case None => after.generation == 1 && after.createdAt == now
       case Some(m) => after.generation == m.generation + 1 && after.createdAt == m.createdAt
  }

  /** A marked set: its rows are fresh work and every other row stands. */
  ghost predicate MarksExactly(before: map<Pair, Marker>, after: map<Pair, Marker>, ps: set<Pair>, now: int) {
    && after.Keys == before.Keys + ps
    && (forall p | p in ps :: FreshWork(Row(before, p), after[p], now))
    && (forall p | p in before && p !in ps :: after[p] == before[p])
  }

  lemma DirtyIsFresh(row: Option<Marker>, now: int)
    ensures FreshWork(row, Dirty(row, now), now)
  {
    var m := Dirty(row, now);
    assert m.nextAttemptAt == now;
    assert Due(m, now) && forall t :: Due(m, t) <==> m.nextAttemptAt <= t;
  }

  lemma MarkingIsExact(rows: map<Pair, Marker>, ps: set<Pair>, now: int)
    ensures MarksExactly(rows, MarkedDirty(rows, ps, now), ps, now)
  {
    forall p | p in ps ensures FreshWork(Row(rows, p), MarkedDirty(rows, ps, now)[p], now) {
      DirtyIsFresh(Row(rows, p), now);
    }
  }

  /** A claimed row stays the same piece of work; it is under the lease, and due again when that ends. */
  ghost predicate UnderLease(before: Marker, after: Marker, token: Token, now: int, leaseMs: nat) {
    && KeepsWork(before, after, 0) && after.claim.Some? && after.claim.value.token == token
    && forall t :: Due(after, t) <==> now + leaseMs <= t
  }

  /** The row under the claim's pair is of its generation and leased under its token. */
  predicate IsHeld(rows: map<Pair, Marker>, c: Claim) {
    && c.pair in rows && rows[c.pair].generation == c.generation
    && match rows[c.pair].claim
       case None => false
       case Some(lease) => lease.token == c.token
  }

  /** The marker stays the same piece of work, with so many more attempts behind it. */
  predicate KeepsWork(before: Marker, after: Marker, attempts: nat) {
    after.generation == before.generation && after.createdAt == before.createdAt && after.attempts == before.attempts + attempts
  }

  /** The table, updated in place by the repository's statements. */
  class MarkerTable {
    var rows: map<Pair, Marker>

    constructor ()
      ensures rows == map[]
    {
      rows := map[];
    }

    /** `markAlchemyAddressPairsDirty`: one upsert per normalized pair, in lock order; nothing is written on a bad pair. */
    method MarkDirty(raw: seq<RawPair>, now: int) returns (ok: bool)
      modifies this
      ensures ok <==> forall i | 0 <= i < |raw| :: WellFormed(raw[i])
      ensures ok ==> rows == MarkedDirty(old(rows), set r | r in raw && WellFormed(r) :: Normalized(r), now)
      // Every given pair is new work due from now on, and no other row is touched.
      ensures ok ==> MarksExactly(old(rows), rows, set r | r in raw && WellFormed(r) :: Normalized(r), now)
      ensures !ok ==> rows == old(rows)
    {
      var pairs := NormalizePairs(raw);
      if pairs.None? {
        return false;
      }
      var order := pairs.value;
      for i := 0 to |order|
        invariant rows == MarkedDirty(old(rows), Elements(order[..i]), now)
      {
        NextInOrder(order, i);
        OneMoreDirty(old(rows), Elements(order[..i]), order[i], now);
        rows := rows[order[i] := Dirty(Row(rows, order[i]), now)];
      }
      assert order[..|order|] == order;
      MarkingIsExact(old(rows), Elements(order), now);
      ok := true;
    }

    /** `claimAlchemyAddressReconciliationRows` with limit 1; `locked` are the rows SKIP LOCKED passes over. */
    method ClaimNext(locked: set<Pair>, now: int, leaseMs: nat, token: Token) returns (claim: Option<Claim>)
      modifies this
      ensures claim.None? ==> rows == old(rows) && forall q | q in rows && q !in locked :: !Due(rows[q], now)
      ensures claim.Some? ==>
                var p := claim.value.pair;
                && Claimable(old(rows), locked, p, now)
                && claim.value == ClaimOf(p, old(rows)[p], token)
                && rows == old(rows)[p := Leased(old(rows)[p], token, now + leaseMs)]
      // The row picked is due, unlocked, and the one that has been due the longest, the oldest among equals.
      ensures claim.Some? ==>
                var p := claim.value.pair;
                && p in old(rows) && p !in locked && Due(old(rows)[p], now)
                && forall q | q in old(rows) && q !in locked && Due(old(rows)[q], now) ::
                     || old(rows)[p].nextAttemptAt < old(rows)[q].nextAttemptAt
                     || (old(rows)[p].nextAttemptAt == old(rows)[q].nextAttemptAt && old(rows)[p].createdAt <= old(rows)[q].createdAt)
      // It is leased to this claim, which owns it, and no other row changes.
      ensures claim.Some? ==>
                var p := claim.value.pair;
                && OnlyRow(old(rows), rows, p) && p in rows && UnderLease(old(rows)[p], rows[p], token, now, leaseMs)
                && claim.value.token == token && claim.value.generation == rows[p].generation && claim.value.attempts == rows[p].attempts
                && (claim.value.stale <==> old(rows)[p].claim.Some?)
    {
      var best: Option<Pair> := None;
      var rest := rows.Keys;
      while rest != {}
        invariant rest <= rows.Keys && rows == old(rows)
        invariant best.None? ==> forall q | q in rows.Keys - rest && q !in locked :: !Due(rows[q], now)
        invariant best.Some? ==> best.value in rows && best.value !in locked && Due(rows[best.value], now)
        invariant best.Some? ==> forall q | q in rows.Keys - rest && q !in locked && Due(rows[q], now) ::
                                   NoLater(rows[best.value], rows[q])
        decreases rest
      {
        var q :| q in rest;
        rest := rest - {q};
        if q !in locked && Due(rows[q], now) && (best.None? || !NoLater(rows[best.value], rows[q])) {
          best := Some(q);
        }
      }
      if best.None? {
        return None;
      }
      claim := Some(ClaimOf(best.value, rows[best.value], token));
      LeasedIsUnderLease(rows[best.value], token, now, leaseMs);
      rows := rows[best.value := Leased(rows[best.value], token, now + leaseMs)];
    }

    /** `completeAlchemyAddressClaim`: afterwards the claim is of no more use if it was live, and nothing happened if not. */
    method Complete(c: Claim, now: int, observed: bool, desired: bool) returns (done: bool)
      modifies this
      ensures rows == Completed(old(rows), c, now, observed, desired)
      ensures done <==> Live(old(rows), c, now) && observed == desired
      // It takes the pair, the generation and the token of the claim, before its lease ends, and an observation that is as desired.
      ensures done <==> IsHeld(old(rows), c) && now < old(rows)[c.pair].claim.value.expiresAt && observed == desired
      ensures OnlyRow(old(rows), rows, c.pair) && (if done then c.pair !in rows else rows == old(rows))
    {
      done := Live(rows, c, now) && observed == desired;
      if done { rows := rows - {c.pair}; }
    }

    /** `releaseAlchemyAddressClaim`: whatever it found, the claim does not own the row afterwards; an owned row is due at once. */
    method Release(c: Claim, now: int) returns (done: bool)
      modifies this
      ensures rows == Released(old(rows), c, now) && done == Owns(old(rows), c) == IsHeld(old(rows), c)
      ensures !Owns(rows, c) && OnlyRow(old(rows), rows, c.pair) && rows.Keys == old(rows).Keys
      ensures done ==> KeepsWork(old(rows)[c.pair], rows[c.pair], 0) && forall t :: Due(rows[c.pair], t) <==> now <= t
      ensures !done ==> rows == old(rows)
    {
      done := Owns(rows, c);
      if done { rows := rows[c.pair := rows[c.pair].(claim := None, nextAttemptAt := now)]; }
    }

    /** `retryAlchemyAddressClaim`: the same, but the row counts an attempt and is not due before its time. */
    method Retry(c: Claim, nextAttemptAt: int) returns (done: bool)
      modifies this
      ensures rows == Retried(old(rows), c, nextAttemptAt) && done == Owns(old(rows), c) == IsHeld(old(rows), c)
      ensures !Owns(rows, c) && OnlyRow(old(rows), rows, c.pair) && rows.Keys == old(rows).Keys
      ensures done ==> KeepsWork(old(rows)[c.pair], rows[c.pair], 1) && forall t :: Due(rows[c.pair], t) <==> nextAttemptAt <= t
      ensures !done ==> rows == old(rows)
    {
      done := Owns(rows, c);
      if done {
        var m := rows[c.pair];
        rows := rows[c.pair := m.(attempts := m.attempts + 1, claim := None, nextAttemptAt := nextAttemptAt)];
      }
    }
  }
}
