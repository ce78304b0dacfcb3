/** Where account deletions come from, over every run of the reauthentication machine. */
module ReauthTheorems {
  import opened Wrappers
  import opened Reauth
  import opened ReauthProtocol
  import opened ReauthInvariants

  // ---- Linear resource ----

  /** A session's open challenges and open grants never exceed one together. */
  lemma OneOpenPerSession(run: seq<World>, steps: seq<Step>, i: nat, sid: SessionId)
    requires IsRun(run, steps) && i < |run|
    ensures var db := run[i].db;
            |set id | id in db.challenges && db.challenges[id].session == sid && db.challenges[id].consumedAt.None?|
            + |set d | d in db.grants && db.grants[d].session == sid && db.grants[d].consumedAt.None?| <= 1
  {
    RunInv(run, steps, i);
    var db := run[i].db;
    var cs := set id | id in db.challenges && db.challenges[id].session == sid && db.challenges[id].consumedAt.None?;
    var gs := set d | d in db.grants && db.grants[d].session == sid && db.grants[d].consumedAt.None?;
    assert forall id | id in cs :: OpenChallenge(db, id, sid);
    assert forall d | d in gs :: OpenGrant(db, d, sid);
    if c :| c in cs {
      assert cs == {c};
      assert gs == {};
    } else if g :| g in gs {
      assert gs == {g};
    }
  }

  /** The Google status only moves forward, and the code verifier is stored exactly while it may still be used. */
  lemma GoogleStatusAdvances(run: seq<World>, steps: seq<Step>, i: nat, id: ChallengeId)
    requires IsRun(run, steps) && i < |steps|
    requires id in run[i].db.challenges && id in run[i + 1].db.challenges
    ensures var a, b := run[i].db.challenges[id], run[i + 1].db.challenges[id];
            && OAuthMoves(a.oauth, b.oauth)
            && (b.oauth.Some? <==> b.via.Google?)
            && (b.oauth.Some? && b.oauth.value.verifier.Some? <==> HasStatus(b, Pending) || HasStatus(b, Exchanging))
            && (b.consumedAt.Some? && b.oauth.Some? ==> b.oauth.value.verifier.None?)
  {
    RunInv(run, steps, i);
    RunInv(run, steps, i + 1);
    assert StepAt(run, steps, i);
    StepInv(run[i], steps[i], run[i + 1]);
    assert ChallengeMoves(run[i].db.challenges[id], run[i + 1].db.challenges[id]) by {
      assert id in run[i].past.born;
    }
    assert ChallengeOk(run[i + 1].db.challenges[id], run[i + 1].now);
  }

  // ---- History never forgets ----

  lemma StepRemembers(s: World, step: Step, s': World)
    requires Inv(s) && Next(s, step, s')
    ensures s.now <= s'.now
    ensures s.past.redeemed <= s'.past.redeemed && s.past.sessions <= s'.past.sessions && s.past.users <= s'.past.users
    ensures forall id | id in s.past.born :: id in s'.past.born && s'.past.born[id] == s.past.born[id]
    ensures forall d | d in s.past.granted :: d in s'.past.granted && s'.past.granted[d] == s.past.granted[d]
    ensures forall d | d in s.past.spent :: d in s'.past.spent && s'.past.spent[d] == s.past.spent[d]
  {
    HistoryGrows(s, step);
    NowMoves(s, step, s');
    if Deletes(s, step) { SpentIsGone(s, step, s'); }
  }

  lemma NowMoves(s: World, step: Step, s': World)
    requires Moves(s, step, s')
    ensures s.now <= s'.now
  {
  }

  lemma {:induction false} Remembers(run: seq<World>, steps: seq<Step>, i: nat, j: nat)
    requires IsRun(run, steps) && i <= j < |run|
    ensures run[i].now <= run[j].now
    ensures run[i].past.redeemed <= run[j].past.redeemed
    ensures run[i].past.sessions <= run[j].past.sessions && run[i].past.users <= run[j].past.users
    ensures forall id | id in run[i].past.born :: id in run[j].past.born && run[j].past.born[id] == run[i].past.born[id]
    ensures forall d | d in run[i].past.granted :: d in run[j].past.granted && run[j].past.granted[d] == run[i].past.granted[d]
    ensures forall d | d in run[i].past.spent :: d in run[j].past.spent && run[j].past.spent[d] == run[i].past.spent[d]
  {
    if i < j {
      Remembers(run, steps, i, j - 1);
      RunInv(run, steps, j - 1);
      assert StepAt(run, steps, j - 1);
      StepRemembers(run[j - 1], steps[j - 1], run[j]);
    }
  }

  // ---- Single use ----

  lemma GrantUsesUp(run: seq<World>, steps: seq<Step>, g: nat, h: nat)
    requires IsRun(run, steps) && g < h < |run| && Grants(run[g], steps[g])
    ensures UsedUp(run[h].db, run[g].verifies[steps[g].r].ctx.id)
  {
    RunInv(run, steps, h);
    assert StepAt(run, steps, g);
    HistoryGrows(run[g], steps[g]);
    Remembers(run, steps, g + 1, h);
    assert steps[g].verify.digest in run[h].past.granted;
  }

  lemma DeletionSpends(run: seq<World>, steps: seq<Step>, d: nat, e: nat)
    requires IsRun(run, steps) && d < e < |run| && Deletes(run[d], steps[d])
    ensures steps[d].authorization.value !in run[e].db.grants
  {
    RunInv(run, steps, e);
    assert StepAt(run, steps, d);
    HistoryGrows(run[d], steps[d]);
    Remembers(run, steps, d + 1, e);
  }

  lemma RedeemedStays(run: seq<World>, steps: seq<Step>, e: nat, f: nat)
    requires IsRun(run, steps) && e < f < |run| && Redeems(run[e], steps[e])
    ensures run[e].callbacks[steps[e].k].ctx.id in run[f].past.redeemed
  {
    assert StepAt(run, steps, e);
    HistoryGrows(run[e], steps[e]);
    Remembers(run, steps, e + 1, f);
  }

  /** One challenge yields at most one grant. */
  lemma OneGrantPerChallenge(run: seq<World>, steps: seq<Step>, g: nat, h: nat)
    requires IsRun(run, steps) && g <= h < |steps|
    requires Grants(run[g], steps[g]) && Grants(run[h], steps[h])
    requires run[g].verifies[steps[g].r].ctx.id == run[h].verifies[steps[h].r].ctx.id
    ensures g == h
  {
    if g < h { GrantUsesUp(run, steps, g, h); }
  }

  /** One grant yields at most one deletion. */
  lemma OneDeletionPerGrant(run: seq<World>, steps: seq<Step>, d: nat, e: nat)
    requires IsRun(run, steps) && d <= e < |steps|
    requires Deletes(run[d], steps[d]) && Deletes(run[e], steps[e]) && steps[d].authorization == steps[e].authorization
    ensures d == e
  {
    if d < e { DeletionSpends(run, steps, d, e); }
  }

  /** A challenge's code is redeemed at most once, and with the verifier drawn for that challenge. */
  lemma CodeRedeemedOnce(run: seq<World>, steps: seq<Step>, e: nat, f: nat)
    requires IsRun(run, steps) && e <= f < |steps|
    requires Redeems(run[e], steps[e]) && Redeems(run[f], steps[f])
    requires run[e].callbacks[steps[e].k].ctx.id == run[f].callbacks[steps[f].k].ctx.id
    ensures e == f
  {
    RunInv(run, steps, f);
    assert CallbackFits(run[f], run[f].callbacks[steps[f].k]);
    if e < f { RedeemedStays(run, steps, e, f); }
  }

  /** What a step may do to the rows of a run. */
  lemma RunEvolves(run: seq<World>, steps: seq<Step>, i: nat)
    requires IsRun(run, steps) && i < |steps|
    ensures Evolves(run[i].db, run[i + 1].db, Added(run[i], steps[i]), Minted(run[i], steps[i]))
    ensures Added(run[i], steps[i]) !! run[i].past.born.Keys && Minted(run[i], steps[i]) !! run[i].past.granted.Keys
  {
    RunInv(run, steps, i);
    assert StepAt(run, steps, i);
    StepInv(run[i], steps[i], run[i + 1]);
  }

  /** A known challenge row was there one step before and moved on. */
  lemma RowBefore(run: seq<World>, steps: seq<Step>, i: nat, id: ChallengeId)
    requires IsRun(run, steps) && i < |steps| && id in run[i].past.born && id in run[i + 1].db.challenges
    ensures id in run[i].db.challenges
    ensures ChallengeMoves(run[i].db.challenges[id], run[i + 1].db.challenges[id])
  {
    RunEvolves(run, steps, i);
    MovedFrom(run[i].db, run[i + 1].db, Added(run[i], steps[i]), Minted(run[i], steps[i]), id);
  }

  lemma MovedFrom(db: Db, db': Db, added: set<ChallengeId>, granted: set<Digest>, id: ChallengeId)
    requires Evolves(db, db', added, granted) && id in db'.challenges && id !in added
    ensures id in db.challenges && ChallengeMoves(db.challenges[id], db'.challenges[id])
  {
  }

  lemma GrantBefore(run: seq<World>, steps: seq<Step>, i: nat, d: Digest)
    requires IsRun(run, steps) && i < |steps| && d in run[i].past.granted && d in run[i + 1].db.grants
    ensures d in run[i].db.grants
    ensures run[i + 1].db.grants[d] == run[i].db.grants[d].(consumedAt := run[i + 1].db.grants[d].consumedAt)
  {
    RunEvolves(run, steps, i);
    assert d !in Minted(run[i], steps[i]);
  }

  lemma RowIssued(s: World, step: Step, s': World)
    requires Moves(s, step, s') && Issues(s, step)
    ensures Finds(s'.db, step.ctx)
    ensures s'.db.challenges[step.ctx.id] == NewChallenge(step.ctx.user, step.ctx.session, step.via, step.material, s.now)
  {
  }

  lemma RowGranted(s: World, step: Step, s': World)
    requires Moves(s, step, s') && Grants(s, step)
    ensures step.verify.digest in s'.db.grants
    ensures var v := s.verifies[step.r];
            s'.db.grants[step.verify.digest] ==
              Grant(v.ctx.user, v.ctx.session, v.via, if v.via.Password? then None else v.proof.subject, s.now + TTL_MS, None)
  {
  }

  lemma BornStays(run: seq<World>, steps: seq<Step>, i: nat, j: nat, id: ChallengeId)
    requires IsRun(run, steps) && i <= j < |run| && id in run[i].past.born
    ensures id in run[j].past.born
  {
    Remembers(run, steps, i, j);
  }

  lemma RowKnown(run: seq<World>, steps: seq<Step>, i: nat, id: ChallengeId)
    requires IsRun(run, steps) && i < |run| && id in run[i].db.challenges
    ensures id in run[i].past.born
  {
    RunInv(run, steps, i);
  }

  /** A wrong proof is recorded against this challenge while it is open and in time. */
  predicate FailsOn(s: World, step: Step, id: ChallengeId) {
    && step.OfVerify? && step.verify.RecordFailed? && step.r in s.verifies && s.verifies[step.r].ctx.id == id
    && Finds(s.db, s.verifies[step.r].ctx) && s.db.challenges[id].consumedAt.None? && s.now < s.db.challenges[id].expiresAt
  }

  /** How many of the first `n` steps did. */
  function Failures(run: seq<World>, steps: seq<Step>, n: nat, id: ChallengeId): nat
    requires n <= |steps| < |run|
  {
    if n == 0 then 0 else Failures(run, steps, n - 1, id) + if FailsOn(run[n - 1], steps[n - 1], id) then 1 else 0
  }

  function AtMost(n: nat, limit: nat): nat {
    if n < limit then n else limit
  }

  /** A known row's attempts change by a failure recorded on it, and by nothing else. */
  lemma AttemptsStep(s: World, step: Step, s': World, id: ChallengeId)
    requires Moves(s, step, s') && id in s.db.challenges && id in s'.db.challenges && id !in Added(s, step)
    ensures s'.db.challenges[id].attempts ==
              s.db.challenges[id].attempts + if FailsOn(s, step, id) && s.db.challenges[id].attempts < MAX_ATTEMPTS then 1 else 0
  {
    match step
    case Env(_) =>
    case IssueOne(ctx, m, x) => IssueKeepsAttempts(s.db, ctx, m, x, s.now, id);
    case OfVerify(r, act) => VerifyAttempts(s, r, act, s', id);
    case OfCallback(k, act) => CallbackKeepsAttempts(s, k, act, s', id);
    case DeleteUser(_, _, _) =>
  }

  lemma IssueKeepsAttempts(db: Db, ctx: Context, m: Method, x: Material, now: int, id: ChallengeId)
    requires id in db.challenges && id in Issue(db, ctx, m, x, now).db.challenges
    requires id == ctx.id ==> !Issue(db, ctx, m, x, now).outcome.Ok?
    ensures Issue(db, ctx, m, x, now).db.challenges[id].attempts == db.challenges[id].attempts
  {
    if Issue(db, ctx, m, x, now).outcome.Ok? { IssuedRow(db, ctx, NewChallenge(ctx.user, ctx.session, m, x, now), now, id); }
  }

  lemma VerifyAttempts(s: World, r: nat, act: VerifyAct, s': World, id: ChallengeId)
    requires VerifyNext(s, r, act, s') && id in s.db.challenges && id in s'.db.challenges
    ensures s'.db.challenges[id].attempts ==
              s.db.challenges[id].attempts + if FailsOn(s, OfVerify(r, act), id) && s.db.challenges[id].attempts < MAX_ATTEMPTS then 1 else 0
  {
    if act.RecordFailed? { FailureIsMeant(s.db, s.verifies[r].ctx, s.now); }
  }

  lemma CallbackKeepsAttempts(s: World, k: nat, act: CallbackAct, s': World, id: ChallengeId)
    requires CallbackNext(s, k, act, s') && id in s.db.challenges && id in s'.db.challenges
    ensures s'.db.challenges[id].attempts == s.db.challenges[id].attempts
  {
  }

  /** No failure can be recorded before the challenge is issued. */
  lemma {:induction false} NoFailureBefore(run: seq<World>, steps: seq<Step>, n: nat, id: ChallengeId)
    requires IsRun(run, steps) && n <= |steps| && id !in run[n].past.born
    ensures Failures(run, steps, n, id) == 0
    decreases n
  {
    if n > 0 {
      Remembers(run, steps, n - 1, n);
      RunInv(run, steps, n - 1);
      NoFailureBefore(run, steps, n - 1, id);
    }
  }

  /** A row that was not there before was just issued. */
  lemma NewRowHasNoFailures(run: seq<World>, steps: seq<Step>, n: nat, id: ChallengeId)
    requires IsRun(run, steps) && 0 < n <= |steps| && id in run[n].db.challenges && id !in run[n - 1].past.born
    ensures run[n].db.challenges[id].attempts == 0 && !FailsOn(run[n - 1], steps[n - 1], id)
  {
    RunInv(run, steps, n - 1);
    assert StepAt(run, steps, n - 1);
    RowKnown(run, steps, n, id);
    BirthRecorded(run, steps, n - 1, id);
    RowIssued(run[n - 1], steps[n - 1], run[n]);
  }

  lemma OldRowCounts(run: seq<World>, steps: seq<Step>, n: nat, id: ChallengeId)
    requires IsRun(run, steps) && 0 < n <= |steps| && id in run[n].db.challenges && id in run[n - 1].past.born
    ensures id in run[n - 1].db.challenges && run[n - 1].db.challenges[id].attempts <= MAX_ATTEMPTS
    ensures run[n].db.challenges[id].attempts ==
              run[n - 1].db.challenges[id].attempts
              + if FailsOn(run[n - 1], steps[n - 1], id) && run[n - 1].db.challenges[id].attempts < MAX_ATTEMPTS then 1 else 0
  {
    RunInv(run, steps, n - 1);
    assert StepAt(run, steps, n - 1);
    RowBefore(run, steps, n - 1, id);
    RunEvolves(run, steps, n - 1);
    assert ChallengeOk(run[n - 1].db.challenges[id], run[n - 1].now);
    AttemptsStep(run[n - 1], steps[n - 1], run[n], id);
  }

  /** The attempts stored with a challenge are the failures that happened, up to five. */
  lemma {:induction false} AttemptsAreFailures(run: seq<World>, steps: seq<Step>, n: nat, id: ChallengeId)
    requires IsRun(run, steps) && n <= |steps| && id in run[n].db.challenges
    ensures run[n].db.challenges[id].attempts == AtMost(Failures(run, steps, n, id), MAX_ATTEMPTS)
    decreases n
  {
    if n > 0 {
      if id in run[n - 1].past.born {
        OldRowCounts(run, steps, n, id);
        AttemptsAreFailures(run, steps, n - 1, id);
      } else {
        NewRowHasNoFailures(run, steps, n, id);
        NoFailureBefore(run, steps, n - 1, id);
      }
    }
  }

  lemma {:induction false} FailuresGrow(run: seq<World>, steps: seq<Step>, i: nat, n: nat, id: ChallengeId)
    requires i <= n <= |steps| < |run|
    ensures Failures(run, steps, i, id) <= Failures(run, steps, n, id)
    decreases n
  {
    if i < n { FailuresGrow(run, steps, i, n - 1, id); }
  }

  /**
   Five wrong proofs recorded while a challenge was open and in time are the end of it: no later step grants on it.
   The stored count, wherever it is read before, is below five too.
   */
  lemma NoGrantAfterFiveFailures(run: seq<World>, steps: seq<Step>, i: nat, g: nat)
    requires IsRun(run, steps) && i <= g < |steps| && Grants(run[g], steps[g])
    ensures var id := run[g].verifies[steps[g].r].ctx.id;
            && Failures(run, steps, i, id) < MAX_ATTEMPTS
            && (id in run[i].db.challenges ==> run[i].db.challenges[id].attempts < MAX_ATTEMPTS)
  {
    var id := run[g].verifies[steps[g].r].ctx.id;
    AttemptsAreFailures(run, steps, g, id);
    FailuresGrow(run, steps, i, g, id);
    if id in run[i].db.challenges { AttemptsAreFailures(run, steps, i, id); }
  }

  // ---- Rows lead back to their steps ----

  /** What a challenge row keeps of the issue that wrote it. */
  predicate IssuedAs(c: Challenge, at: int, ctx: Context, m: Method, x: Material) {
    && c.user == ctx.user && c.session == ctx.session && c.via == m && c.nonce == x.nonce && c.createdAt == at
    && (c.oauth.Some? && c.oauth.value.verifier.Some? ==> x.oauth.Some? && c.oauth.value.verifier.value == x.oauth.value.1)
  }

  /** The challenge row of `id`, if any, is the one its issue wrote. */
  lemma {:induction false} ChallengeRow(run: seq<World>, steps: seq<Step>, n: nat, id: ChallengeId)
    requires IsRun(run, steps) && n < |run| && id in run[n].past.born
    ensures var i := run[n].past.born[id];
            && i < n && Issues(run[i], steps[i]) && steps[i].ctx.id == id
            && (id in run[n].db.challenges ==>
                  IssuedAs(run[n].db.challenges[id], run[i].now, steps[i].ctx, steps[i].via, steps[i].material))
  {
    if n > 0 {
      BirthRecorded(run, steps, n - 1, id);
      if id in run[n - 1].past.born {
        ChallengeRow(run, steps, n - 1, id);
        if id in run[n].db.challenges { RowBefore(run, steps, n - 1, id); }
      } else {
        assert StepAt(run, steps, n - 1);
        RowIssued(run[n - 1], steps[n - 1], run[n]);
      }
    }
  }

  lemma BirthRecorded(run: seq<World>, steps: seq<Step>, i: nat, id: ChallengeId)
    requires IsRun(run, steps) && i < |steps| && id in run[i + 1].past.born
    ensures if id in run[i].past.born then run[i + 1].past.born[id] == run[i].past.born[id]
            else run[i + 1].past.born[id] == i && Issues(run[i], steps[i]) && steps[i].ctx.id == id
  {
    RunInv(run, steps, i);
    assert StepAt(run, steps, i);
    HistoryGrows(run[i], steps[i]);
    StepRemembers(run[i], steps[i], run[i + 1]);
  }

  lemma GrantRecorded(run: seq<World>, steps: seq<Step>, i: nat, d: Digest)
    requires IsRun(run, steps) && i < |steps| && d in run[i + 1].past.granted
    ensures if d in run[i].past.granted then run[i + 1].past.granted[d] == run[i].past.granted[d]
            else Grants(run[i], steps[i]) && steps[i].verify.digest == d
                 && run[i + 1].past.granted[d] == Origin(i, run[i].verifies[steps[i].r].ctx.id)
  {
    RunInv(run, steps, i);
    assert StepAt(run, steps, i);
    HistoryGrows(run[i], steps[i]);
    StepRemembers(run[i], steps[i], run[i + 1]);
  }

  /** What a grant row keeps of the proof that wrote it. */
  predicate GrantedAs(x: Grant, at: int, v: Verify) {
    && x.user == v.ctx.user && x.session == v.ctx.session && x.via == v.via && x.expiresAt == at + TTL_MS
    && (!x.via.Password? ==> x.subject == v.proof.subject)
  }

  /** A grant row is the one its proof wrote. */
  lemma {:induction false} GrantRow(run: seq<World>, steps: seq<Step>, n: nat, d: Digest)
    requires IsRun(run, steps) && n < |run| && d in run[n].past.granted
    ensures var g := run[n].past.granted[d].at;
            && g < n && Grants(run[g], steps[g]) && steps[g].verify.digest == d
            && run[n].past.granted[d].id == run[g].verifies[steps[g].r].ctx.id
            && (d in run[n].db.grants ==> GrantedAs(run[n].db.grants[d], run[g].now, run[g].verifies[steps[g].r]))
  {
    if n > 0 {
      GrantRecorded(run, steps, n - 1, d);
      if d in run[n - 1].past.granted {
        GrantRow(run, steps, n - 1, d);
        if d in run[n].db.grants { GrantBefore(run, steps, n - 1, d); }
      } else {
        assert StepAt(run, steps, n - 1);
        RowGranted(run[n - 1], steps[n - 1], run[n]);
      }
    }
  }

  /** The verifier sent with a code is the one drawn with that callback's challenge (RFC 7636 section 4.5). */
  lemma {:induction false} CallbackVerifier(run: seq<World>, steps: seq<Step>, n: nat, k: nat)
    requires IsRun(run, steps) && n < |run| && k in run[n].callbacks
    ensures var c := run[n].callbacks[k];
            && c.ctx.id in run[n].past.born
            && var i := run[n].past.born[c.ctx.id];
            && i < n && Issues(run[i], steps[i]) && steps[i].ctx == c.ctx && steps[i].material.oauth.Some?
            && c.verifier == Some(steps[i].material.oauth.value.1) && c.nonce == steps[i].material.nonce
  {
    if n > 0 {
      var s, step := run[n - 1], steps[n - 1];
      RunInv(run, steps, n - 1);
      assert StepAt(run, steps, n - 1);
      StepRemembers(s, step, run[n]);
      if step.OfCallback? && step.callback.Claim? && step.k == k {
        var id := step.callback.id;
        assert ChallengeOk(s.db.challenges[id], s.now);
        ChallengeRow(run, steps, n - 1, id);
      } else {
        CallbackStays(s, step, run[n], k);
        CallbackVerifier(run, steps, n - 1, k);
      }
    }
  }

  lemma CallbackStays(s: World, step: Step, s': World, k: nat)
    requires Moves(s, step, s') && k in s'.callbacks && !(step.OfCallback? && step.callback.Claim? && step.k == k)
    ensures k in s.callbacks && s'.callbacks[k] == s.callbacks[k].(stage := s'.callbacks[k].stage)
  {
  }

  // ---- Sessions ----

  lemma AccountsStand(s: World, step: Step, s': World)
    requires Moves(s, step, s') && !step.Env? && !step.DeleteUser?
    ensures s'.db.users == s.db.users && s'.db.sessions == s.db.sessions
  {
    match step
    case IssueOne(_, _, _) =>
    case OfVerify(_, _) =>
    case OfCallback(_, _) =>
  }

  /** An active session was active one step before, unless it is new. */
  lemma SessionBefore(s: World, step: Step, s': World, u: UserId, sid: SessionId)
    requires Next(s, step, s') && ActiveSession(s'.db, u, sid) && u in s.past.users && sid in s.past.sessions
    ensures ActiveSession(s.db, u, sid)
  {
    if !step.Env? && !step.DeleteUser? { AccountsStand(s, step, s'); }
  }

  lemma {:induction false} SessionThroughout(run: seq<World>, steps: seq<Step>, i: nat, d: nat, u: UserId, sid: SessionId)
    requires IsRun(run, steps) && i <= d < |run|
    requires ActiveSession(run[i].db, u, sid) && ActiveSession(run[d].db, u, sid)
    ensures forall k | i <= k <= d :: ActiveSession(run[k].db, u, sid)
    decreases d
  {
    if i < d {
      RunInv(run, steps, i);
      Remembers(run, steps, i, d - 1);
      assert StepAt(run, steps, d - 1);
      SessionBefore(run[d - 1], steps[d - 1], run[d], u, sid);
      SessionThroughout(run, steps, i, d - 1, u, sid);
    }
  }

  // ---- Provenance ----

  /** Where in the run the challenge of a deletion was issued and granted. */
  datatype Trail = Trail(issued: nat, granted: nat)

  /** The proof a request presented was of a method linked to the account. */
  predicate Linked(s: World, v: Verify) {
    && HasMethod(s.db, v.ctx.user, v.via)
    && (v.via.Password? ==> s.db.users[v.ctx.user].hash == v.proof.hash)
    && (!v.via.Password? ==> HasSubject(s.db, v.ctx.user, v.via, v.proof.subject))
  }

  /** The e-th step sent the code of this challenge to the token endpoint. */
  predicate RedeemsAt(run: seq<World>, steps: seq<Step>, e: nat, id: ChallengeId)
    requires e < |steps| < |run|
  {
    Redeems(run[e], steps[e]) && run[e].callbacks[steps[e].k].ctx.id == id
  }

  lemma {:induction false} RedeemedEarlier(run: seq<World>, steps: seq<Step>, n: nat, id: ChallengeId) returns (e: nat)
    requires IsRun(run, steps) && n < |run| && id in run[n].past.redeemed
    ensures e < n && RedeemsAt(run, steps, e, id)
    decreases n
  {
    assert StepAt(run, steps, n - 1);
    if id in run[n - 1].past.redeemed {
      e := RedeemedEarlier(run, steps, n - 1, id);
    } else {
      e := n - 1;
    }
  }

  ghost predicate RedeemedBefore(run: seq<World>, steps: seq<Step>, n: nat, id: ChallengeId)
    requires n <= |steps| < |run|
  {
    exists e: nat | e < n :: RedeemsAt(run, steps, e, id)
  }

  /** A grant's challenge was issued to its user and session, in time, and for Google after its code was redeemed. */
  lemma GrantProvenance(run: seq<World>, steps: seq<Step>, g: nat) returns (i: nat)
    requires IsRun(run, steps) && g < |steps| && Grants(run[g], steps[g])
    ensures i < g && Issues(run[i], steps[i])
    ensures var v := run[g].verifies[steps[g].r];
            && steps[i].ctx == v.ctx && steps[i].via == v.via
            && run[i].now <= run[g].now < run[i].now + TTL_MS
            && Linked(run[g], v)
            && (v.via.Google? ==> RedeemedBefore(run, steps, g, v.ctx.id))
  {
    var v := run[g].verifies[steps[g].r];
    RunInv(run, steps, g);
    assert v.ctx.id in run[g].db.challenges;
    ChallengeRow(run, steps, g, v.ctx.id);
    i := run[g].past.born[v.ctx.id];
    Remembers(run, steps, i, g);
    assert ChallengeOk(run[g].db.challenges[v.ctx.id], run[g].now);
    if v.via.Google? { var e := RedeemedEarlier(run, steps, g, v.ctx.id); }
  }

  /**
   Every committed account deletion traces to one challenge of the same user and session. The challenge was
   proved by a method linked both when it was granted and when the account was deleted, each step came before
   the previous one expired, and the session stood unrevoked throughout.
   */
  lemma DeletionProvenance(run: seq<World>, steps: seq<Step>, d: nat) returns (t: Trail)
    requires IsRun(run, steps) && d < |steps| && Deletes(run[d], steps[d])
    ensures t.issued < t.granted < d
    ensures Issues(run[t.issued], steps[t.issued]) && Grants(run[t.granted], steps[t.granted])
    ensures steps[d].authorization == Some(steps[t.granted].verify.digest)
    ensures var v := run[t.granted].verifies[steps[t.granted].r];
            && v.ctx == steps[t.issued].ctx && v.via == steps[t.issued].via
            && v.ctx.user == steps[d].user && v.ctx.session == steps[d].session
            && Linked(run[t.granted], v)
            && HasMethod(run[d].db, v.ctx.user, v.via)
            && (!v.via.Password? ==> HasSubject(run[d].db, v.ctx.user, v.via, v.proof.subject))
            && (v.via.Google? ==> RedeemedBefore(run, steps, t.granted, v.ctx.id))
    ensures run[t.issued].now <= run[t.granted].now < run[t.issued].now + TTL_MS
    ensures run[t.granted].now <= run[d].now < run[t.granted].now + TTL_MS
    ensures forall k | t.issued <= k <= d :: SessionRuns(run[k].db, steps[d].user, steps[d].session)
  {
    var digest := steps[d].authorization.value;
    RunInv(run, steps, d);
    assert digest in run[d].past.granted;
    GrantRow(run, steps, d, digest);
    var g := run[d].past.granted[digest].at;
    var i := GrantProvenance(run, steps, g);
    Remembers(run, steps, g, d);
    SessionThroughout(run, steps, i, d, steps[d].user, steps[d].session);
    forall k | i <= k <= d ensures SessionRuns(run[k].db, steps[d].user, steps[d].session) {
      assert ActiveSession(run[k].db, steps[d].user, steps[d].session);
    }
    t := Trail(i, g);
  }
}
