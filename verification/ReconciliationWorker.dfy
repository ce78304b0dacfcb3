/**
 The worker's own loop: one claimed marker at a time, with the wallet writers quiet except for changes
 that bypass the pair lock, and a provider that answers, fails or lies as its script says.
 */
module ReconciliationWorker {
  import opened Chains
  import opened Collections
  import opened Wrappers
  import opened Markers

  /** One provider call: how long it took and whether it returned. */
  datatype Call = Call(latencyMs: nat, ok: bool)

  /** A PATCH may take effect whether or not its call returns. */
  datatype PatchCall = PatchCall(latencyMs: nat, ok: bool, applied: bool)

  /** Which database statements around one claim work: a failing one is rolled back and throws. */
  datatype Statements = Statements(claims: bool, locks: bool, loads: bool, rechecks: bool, completes: bool, releases: bool, retries: bool)

  /** What happens around one claim; `before` and `after` are desired-state changes made without the pair lock. */
  datatype Script = Script(db: Statements, lockMs: nat, list: Call, patch: PatchCall, confirm: Call,
                           before: Option<bool>, after: Option<bool>, unlockOk: bool, retryMs: nat)

  datatype Outcome = Converged | Superseded | Requeued | Failed | Threw

  /** A batch whose claiming or rescheduling statement fails throws. */
  datatype Ending = Completed | ClaimThrew | RetryThrew

  datatype BatchResult = BatchResult(claimed: nat, stale: nat, converged: nat, retried: nat, superseded: nat, ending: Ending)

  function Changed(desired: set<Pair>, p: Pair, change: Option<bool>): set<Pair> {
    match change
    case None => desired
    case Some(wanted) => if wanted then desired + {p} else desired - {p}
  }

  function Duration(k: Script): nat {
    k.lockMs + k.list.latencyMs + k.patch.latencyMs + k.confirm.latencyMs
  }

  /** Every statement works, the provider answers truthfully and nobody bypasses the lock. */
  predicate Truthful(k: Script) {
    && k.db == Statements(true, true, true, true, true, true, true)
    && k.list.ok && k.patch.ok && k.patch.applied && k.confirm.ok && k.unlockOk
    && k.before.None? && k.after.None?
  }

  predicate Answers(k: Script, leaseMs: nat) {
    Truthful(k) && Duration(k) < leaseMs
  }

  /** The provider's part of a claim goes wrong; it is only patched if it `differs`. */
  predicate Troubled(k: Script, differs: bool) {
    !k.list.ok || (differs && (!k.patch.ok || !k.patch.applied || !k.confirm.ok))
  }

  ghost predicate EveryDriftMarked(rows: map<Pair, Marker>, desired: set<Pair>, watched: set<Pair>) {
    forall p :: (p in desired) != (p in watched) ==> p in rows
  }

  class Worker {
    const table: MarkerTable
    var desired: set<Pair>
    var watched: set<Pair>
    var now: int
    var nextToken: Token

    constructor (table: MarkerTable, desired: set<Pair>, watched: set<Pair>)
      ensures this.table == table && this.desired == desired && this.watched == watched
    {
      this.table, this.desired, this.watched, now, nextToken := table, desired, watched, 0, 0;
    }

    /** Listing, and patching and confirming if the provider differs; `None` is a thrown error. */
    method Converge(p: Pair, wanted: bool, k: Script) returns (observed: Option<bool>)
      requires EveryDriftMarked(table.rows, desired, watched) && p in table.rows && wanted == (p in desired)
      modifies this`watched, this`now
      ensures EveryDriftMarked(table.rows, desired, watched) && watched - {p} == old(watched) - {p}
      ensures old(now) <= now <= old(now) + k.list.latencyMs + k.patch.latencyMs + k.confirm.latencyMs
      ensures observed.Some? ==> observed.value == wanted == (p in watched)
      ensures Truthful(k) ==> observed.Some?
      // It throws exactly when a call it needs fails, or the second listing still disagrees.
      ensures observed.None? <==> Troubled(k, wanted != (p in old(watched)))
      ensures wanted == (p in old(watched)) || !k.list.ok || !k.patch.applied ==> watched == old(watched)
    {
      now := now + k.list.latencyMs;
      if !k.list.ok {
        return None;
      }
      if wanted == (p in watched) {
        return Some(wanted);
      }
      now := now + k.patch.latencyMs;
      if k.patch.applied {
        watched := if wanted then watched + {p} else watched - {p};
      }
      if !k.patch.ok {
        return None;
      }
      now := now + k.confirm.latencyMs;
      if !k.confirm.ok || wanted != (p in watched) {
        return None;
      }
      observed := Some(wanted);
    }

    /** The recheck and the fenced completion. */
    method Settle(c: Claim, observed: bool, k: Script) returns (outcome: Outcome)
      requires EveryDriftMarked(table.rows, desired, watched) && c.pair in table.rows && observed == (c.pair in watched)
      modifies this`desired, table
      ensures EveryDriftMarked(table.rows, desired, watched) && desired - {c.pair} == old(desired) - {c.pair}
      ensures outcome.Converged? ==>
                && Owns(old(table.rows), c) && table.rows == old(table.rows) - {c.pair} && (c.pair in desired <==> c.pair in watched)
      ensures !outcome.Converged? ==> table.rows == old(table.rows) || table.rows == Released(old(table.rows), c, now)
      ensures !outcome.Threw? && (k.before.None? && k.after.None? ==> desired == old(desired))
      // An error is thrown exactly when a statement it comes to fails; otherwise the claim owns nothing any more.
      ensures outcome.Failed? ==> !k.db.rechecks || !k.db.completes || !k.db.releases
      ensures !k.db.rechecks ==> outcome.Failed? && table.rows == old(table.rows)
      ensures !outcome.Failed? ==> !Owns(table.rows, c)
      ensures outcome.Requeued? ==> k.before == Some(!observed) || (k.before.None? && observed != (c.pair in old(desired)))
      ensures outcome.Superseded? ==> !Live(old(table.rows), c, now) || observed != (c.pair in desired)
      ensures Truthful(k) && Live(old(table.rows), c, now) && observed == (c.pair in old(desired)) ==> outcome.Converged?
    {
      desired := Changed(desired, c.pair, k.before);
      if !k.db.rechecks {
        return Failed;
      }
      if observed != (c.pair in desired) {
        if !k.db.releases {
          return Failed;
        }
        var released := table.Release(c, now);
        return Requeued;
      }
      desired := Changed(desired, c.pair, k.after);
      if !k.db.completes {
        return Failed;
      }
      var done := table.Complete(c, now, observed, c.pair in desired);
      if done {
        return Converged;
      }
      if !k.db.releases {
        return Failed;
      }
      var released := table.Release(c, now);
      outcome := Superseded;
    }

    /** The body of `reconcileClaimedAlchemyAddress`: without the lock or a first read it fails, without the claim it stops. */
    method UnderPairLock(c: Claim, k: Script) returns (outcome: Outcome)
      requires EveryDriftMarked(table.rows, desired, watched)
      modifies this`watched, this`now, this`desired, table
      ensures old(now) <= now && !outcome.Threw? && OnlyRow(old(table.rows), table.rows, c.pair)
      ensures EveryDriftMarked(table.rows, desired, watched)
      ensures watched - {c.pair} == old(watched) - {c.pair} && desired - {c.pair} == old(desired) - {c.pair}
      ensures outcome.Converged? <==> table.rows != old(table.rows) && c.pair !in table.rows
      ensures outcome.Converged? ==>
                && Owns(old(table.rows), c) && table.rows == old(table.rows) - {c.pair}
                && (c.pair in desired <==> c.pair in watched)
      ensures !outcome.Converged? ==> table.rows == old(table.rows) || table.rows == Released(old(table.rows), c, now)
      ensures !k.db.locks || !k.db.loads ==> outcome.Failed? && watched == old(watched) && table.rows == old(table.rows)
      ensures k.db.locks && k.db.loads && !Live(old(table.rows), c, old(now) + k.lockMs) ==>
                outcome.Superseded? && watched == old(watched) && table.rows == old(table.rows)
      // With the claim in force the provider is asked, and when it does not answer that is an error that changes no marker.
      ensures k.db.locks && k.db.loads && Live(old(table.rows), c, old(now) + k.lockMs) ==>
                if Troubled(k, (c.pair in old(desired)) != (c.pair in old(watched))) then outcome.Failed? && table.rows == old(table.rows)
                else (outcome.Failed? ==> !k.db.rechecks || !k.db.completes || !k.db.releases) && (!outcome.Failed? ==> !Owns(table.rows, c))
      ensures Truthful(k) && Live(old(table.rows), c, old(now) + Duration(k)) ==> outcome.Converged?
      ensures k.before.None? && k.after.None? ==> desired == old(desired)
    {
      now := now + k.lockMs;
      if !k.db.locks || !k.db.loads {
        return Failed;
      }
      if !Live(table.rows, c, now) {
        return Superseded;
      }
      var observed := Converge(c.pair, c.pair in desired, k);
      if observed.None? {
        return Failed;
      }
      outcome := Settle(c, observed.value, k);
    }

    /** Claims one marker and works on it. */
    method Turn(leaseMs: nat, k: Script) returns (claim: Option<Claim>, counted: Outcome)
      requires EveryDriftMarked(table.rows, desired, watched)
      modifies this`watched, this`now, this`desired, this`nextToken, table
      ensures EveryDriftMarked(table.rows, desired, watched) && old(now) <= now && !counted.Requeued?
      ensures claim.None? ==>
                && NothingDue(table.rows, now) && now == old(now) && table.rows == old(table.rows) && desired == old(desired)
                && !counted.Threw?
      ensures claim.Some? ==>
                && var p := claim.value.pair;
                && p in old(table.rows) && OnlyRow(old(table.rows), table.rows, p) && table.rows.Keys <= old(table.rows.Keys)
                && (counted.Converged? ==> table.rows == old(table.rows) - {p})
                && (Answers(k, leaseMs) ==> counted.Converged? && desired == old(desired))
    {
      claim := table.ClaimNext({}, now, leaseMs, nextToken);
      nextToken, counted := nextToken + 1, Superseded;
      if claim.Some? {
        counted := OneClaim(claim.value, leaseMs, k);
      }
    }

    /**
     `processAlchemyReconciliationBatch`; `scripts[i]` drives the i-th claim, and `stopAt` is where an abort is seen.
     `touched` are the pairs it claimed.
     */
    method ProcessBatch(limit: nat, leaseMs: nat, scripts: seq<Script>, stopAt: nat) returns (r: BatchResult, ghost touched: set<Pair>)
      requires limit <= |scripts|
      requires EveryDriftMarked(table.rows, desired, watched)
      modifies this`watched, this`now, this`desired, this`nextToken, table
      ensures Counted(r) && r.claimed <= limit
      ensures EveryDriftMarked(table.rows, desired, watched) && old(now) <= now
      // Every convergence counted removed a marker, and rows that were not claimed are as they were.
      ensures Worked(old(table.rows), table.rows, touched, r)
      // A batch whose calls are all answered retries and supersedes nothing, and drains what is due.
      ensures AllAnswer(scripts, limit, leaseMs) ==> Drained(old(table.rows), table.rows, touched, r) && desired == old(desired)
      // The loop ends early only on an abort, an error of its own, or when nothing is due.
      ensures r.claimed < limit && r.claimed < stopAt && r.ending.Completed? ==> NothingDue(table.rows, now)
      // So it claims something if anything is due.
      ensures !NothingDue(old(table.rows), old(now)) && limit > 0 && stopAt > 0 && !r.ending.ClaimThrew? ==> r.claimed > 0
      // An empty backlog means the provider watches exactly what is wanted.
      ensures table.rows == map[] ==> watched == desired
    {
      r, touched := BatchResult(0, 0, 0, 0, 0, Completed), {};
      ghost var before, wanted, start, answered := table.rows, desired, now, AllAnswer(scripts, limit, leaseMs);
      var more := true;
      while more && r.claimed < limit
        invariant r.claimed <= limit && (more ==> r.ending.Completed?) && start <= now
        invariant EveryDriftMarked(table.rows, desired, watched)
        invariant Accounted(before, table.rows, touched, r, answered) && (answered ==> desired == wanted)
        invariant !more && r.ending.Completed? ==> r.claimed >= stopAt || NothingDue(table.rows, now)
        invariant r.claimed == 0 ==> table.rows == before && now == start
        decreases more, limit - r.claimed
      {
        if r.claimed >= stopAt {
          more := false;
        } else if !scripts[r.claimed].db.claims {
          assert !Answers(scripts[r.claimed], leaseMs);
          r, more := r.(ending := ClaimThrew), false;
        } else {
          ghost var held := table.rows;
          var claim, counted := Turn(leaseMs, scripts[r.claimed]);
          if claim.None? {
            more := false;
          } else {
            WorkedOneMore(before, held, table.rows, touched, claim.value.pair, r, claim.value.stale, counted, answered);
            touched := touched + {claim.value.pair};
            r, more := AfterTurn(r, claim.value.stale, counted), !counted.Threw?;
          }
        }
      }
    }

    /**
     One turn of the batch loop: an error schedules a retry, and a retry that finds its claim gone counts as
     superseded. An error of the retry itself leaves the batch.
     */
    method OneClaim(c: Claim, leaseMs: nat, k: Script) returns (counted: Outcome)
      requires EveryDriftMarked(table.rows, desired, watched)
      requires Owns(table.rows, c) && table.rows[c.pair].claim.value.expiresAt == now + leaseMs
      modifies this`watched, this`now, this`desired, table
      ensures !counted.Requeued? && old(now) <= now
      ensures EveryDriftMarked(table.rows, desired, watched) && OnlyRow(old(table.rows), table.rows, c.pair)
      ensures table.rows.Keys == old(table.rows.Keys) || table.rows.Keys == old(table.rows.Keys) - {c.pair}
      ensures counted.Converged? ==> table.rows == old(table.rows) - {c.pair}
      ensures counted.Threw? ==> !k.db.retries
      // What is counted as failed is rescheduled with one more attempt behind it.
      ensures counted.Failed? ==>
                && c.pair in table.rows && KeepsWork(old(table.rows)[c.pair], table.rows[c.pair], 1)
                && forall t :: Due(table.rows[c.pair], t) <==> now + k.retryMs <= t
      // A call to the provider that fails is never counted as convergence.
      ensures k.db.locks && k.db.loads && k.lockMs < leaseMs && Troubled(k, (c.pair in old(desired)) != (c.pair in old(watched))) ==>
                !counted.Converged? && (k.db.retries ==> counted.Failed?)
      ensures Answers(k, leaseMs) ==> counted.Converged? && desired == old(desired)
    {
      var outcome := UnderPairLock(c, k);
      if outcome.Failed? || (k.db.locks && !k.unlockOk) {
        if !k.db.retries {
          return Threw;
        }
        var scheduled := table.Retry(c, now + k.retryMs);
        return if scheduled then Failed else Superseded;
      }
      counted := if outcome.Converged? then Converged else Superseded;
    }

    /**
     The cycles `AlchemyAddressReconciliationWorker` runs one after the other, with writers quiet and every call
     answered: with every marker due they reach an empty backlog, and then the provider watches exactly what is wanted.
     */
    method RunCycles(limit: nat, leaseMs: nat, scripts: seq<Script>) returns (cycles: nat)
      requires 0 < limit <= |scripts| && AllAnswer(scripts, limit, leaseMs)
      requires EveryDriftMarked(table.rows, desired, watched) && forall p | p in table.rows :: Due(table.rows[p], now)
      modifies this`watched, this`now, this`desired, this`nextToken, table
      ensures table.rows == map[] && watched == desired == old(desired)
      ensures cycles <= |old(table.rows)|
    {
      cycles := 0;
      while table.rows != map[]
        invariant EveryDriftMarked(table.rows, desired, watched) && desired == old(desired)
        invariant forall p | p in table.rows :: Due(table.rows[p], now)
        invariant cycles + |table.rows| <= |old(table.rows)|
        decreases |table.rows|
      {
        ghost var before, was := table.rows, now;
        SomeDue(before, now);
        var r, touched := ProcessBatch(limit, leaseMs, scripts, limit);
        forall p | p in table.rows ensures Due(table.rows[p], now) {
          assert table.rows[p] == before[p] && Due(before[p], was);
        }
        cycles := cycles + 1;
      }
    }
  }

  ghost predicate AllAnswer(scripts: seq<Script>, limit: nat, leaseMs: nat)
    requires limit <= |scripts|
  {
    forall i | 0 <= i < limit :: Answers(scripts[i], leaseMs)
  }

  ghost predicate NothingDue(rows: map<Pair, Marker>, now: int) {
    forall p | p in rows :: !Due(rows[p], now)
  }

  ghost predicate Untouched(before: map<Pair, Marker>, after: map<Pair, Marker>, touched: set<Pair>) {
    forall p | p in before && p !in touched :: p in after && after[p] == before[p]
  }

  lemma SomeDue(rows: map<Pair, Marker>, now: int)
    requires rows != map[] && forall p | p in rows :: Due(rows[p], now)
    ensures !NothingDue(rows, now)
  {
    var p :| p in rows;
    assert Due(rows[p], now);
  }

  /** The counters after one more claim. */
  function AfterTurn(r: BatchResult, stale: bool, counted: Outcome): BatchResult {
    BatchResult(r.claimed + 1, r.stale + (if stale then 1 else 0),
                r.converged + (if counted.Converged? then 1 else 0),
                r.retried + (if counted.Failed? then 1 else 0),
                r.superseded + (if counted.Superseded? then 1 else 0),
                if counted.Threw? then RetryThrew else Completed)
  }

  predicate Counted(r: BatchResult) {
    r.claimed == r.converged + r.retried + r.superseded + (if r.ending.RetryThrew? then 1 else 0) && r.stale <= r.claimed
  }

  /** What a batch with these counters did to the backlog. */
  ghost predicate Worked(before: map<Pair, Marker>, after: map<Pair, Marker>, touched: set<Pair>, r: BatchResult) {
    && after.Keys <= before.Keys && Untouched(before, after, touched) && |touched| <= r.claimed
    && |after| + r.converged <= |before|
  }

  /** Every claim converged, and nothing else happened. */
  ghost predicate Drained(before: map<Pair, Marker>, after: map<Pair, Marker>, touched: set<Pair>, r: BatchResult) {
    r.ending.Completed? && r.converged == r.claimed && |after| + r.claimed == |before| && after == before - touched
  }

  ghost predicate Accounted(before: map<Pair, Marker>, after: map<Pair, Marker>, touched: set<Pair>, r: BatchResult, answered: bool) {
    Counted(r) && Worked(before, after, touched, r) && (answered ==> Drained(before, after, touched, r))
  }

  lemma OneFewer(held: map<Pair, Marker>, after: map<Pair, Marker>, p: Pair)
    requires p in held && after.Keys <= held.Keys
    ensures |after| <= |held| && (after == held - {p} ==> |after| == |held| - 1)
  {
    assert held == (held - {p})[p := held[p]];
    SubsetSize(after.Keys, held.Keys);
  }

  lemma WorkedOneMore(before: map<Pair, Marker>, held: map<Pair, Marker>, after: map<Pair, Marker>, touched: set<Pair>, p: Pair,
                      r: BatchResult, stale: bool, counted: Outcome, answered: bool)
    requires Accounted(before, held, touched, r, answered) && r.ending.Completed? && !counted.Requeued?
    requires p in held && OnlyRow(held, after, p) && after.Keys <= held.Keys
    requires (counted.Converged? ==> after == held - {p}) && (answered ==> counted.Converged?)
    ensures Accounted(before, after, touched + {p}, AfterTurn(r, stale, counted), answered)
  {
    TouchedOneMore(before, held, after, touched, p);
    OneFewer(held, after, p);
  }

  lemma TouchedOneMore(before: map<Pair, Marker>, held: map<Pair, Marker>, after: map<Pair, Marker>, touched: set<Pair>, p: Pair)
    requires Untouched(before, held, touched) && OnlyRow(held, after, p)
    ensures Untouched(before, after, touched + {p})
  {
    forall q | q in before && q !in touched + {p} ensures q in after && after[q] == before[q] {
      assert q in held - {p};
      assert q in after - {p};
    }
  }
}
