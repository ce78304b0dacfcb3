/** Where the proof behind a deletion was taken: the step that accepted it, and for Google the callback that finished. */
module ReauthProofs {
  import opened Wrappers
  import opened Reauth
  import opened ReauthProtocol
  import opened ReauthInvariants
  import opened ReauthTheorems

  // ---- The steps that take a proof ----

  /** The unlocked read of the challenge that a proof is then taken for. */
  predicate Reads(s: World, step: Step, r: nat, v: Verify) {
    step == OfVerify(r, Read(v.ctx, v.via)) && Readable(s, v.ctx, v.via)
  }

  /** The password or the identity token was accepted; a Google challenge was already verified when it was read. */
  predicate Accepts(s: World, step: Step, r: nat, v: Verify) {
    match v.via
    case Google => Reads(s, step, r, v) && s.db.challenges[v.ctx.id].oauth.value.subject == v.proof.subject
    case _ =>
      && step.OfVerify? && step.r == r && step.verify.Accept? && r in s.verifies && s.verifies[r].stage.Checking?
      && s.verifies[r].ctx == v.ctx && s.verifies[r].via == v.via && s.verifies[r].proof.hash == v.proof.hash
      && (v.via.Apple? ==> v.proof.subject == Some(step.verify.subject))
  }

  /** A callback verified this challenge with the identity linked to its user then. */
  predicate Finishes(s: World, step: Step, id: ChallengeId, subject: Option<Subject>) {
    && step.OfCallback? && step.callback.Finish? && subject == Some(step.callback.subject)
    && step.k in s.callbacks && s.callbacks[step.k].stage.Redeemed? && s.callbacks[step.k].ctx.id == id
    && LinkedSubject(s.db, s.callbacks[step.k].ctx.user, Google) == subject && Finds(s.db, s.callbacks[step.k].ctx)
  }

  // ---- They are found by going back ----

  /** A verify call was there before with the same challenge and method, or is new. */
  predicate SameOrRead(s: World, step: Step, r: nat, v: Verify) {
    Reads(s, step, r, v) || (r in s.verifies && v.ctx == s.verifies[r].ctx && v.via == s.verifies[r].via)
  }

  lemma VerifyBefore(s: World, step: Step, s': World, r: nat)
    requires Moves(s, step, s') && r in s'.verifies
    ensures SameOrRead(s, step, r, s'.verifies[r])
    ensures s'.verifies[r].stage.Checking? ==> (Reads(s, step, r, s'.verifies[r]) && !s'.verifies[r].via.Google?) || (r in s.verifies && s'.verifies[r] == s.verifies[r])
    ensures s'.verifies[r].stage.Proved? && (r in s.verifies && s.verifies[r].stage.Checking? ==> !s.verifies[r].via.Google?) ==>
              Accepts(s, step, r, s'.verifies[r]) || (r in s.verifies && s'.verifies[r] == s.verifies[r])
  {
    match step
    case Env(_) =>
    case IssueOne(_, _, _) =>
    case OfVerify(x, act) => VerifyOwnBefore(s, x, act, s', r);
    case OfCallback(_, _) =>
    case DeleteUser(_, _, _) =>
  }

  lemma VerifyOwnBefore(s: World, x: nat, act: VerifyAct, s': World, r: nat)
    requires VerifyNext(s, x, act, s') && r in s'.verifies
    ensures SameOrRead(s, OfVerify(x, act), r, s'.verifies[r])
    ensures s'.verifies[r].stage.Checking? ==> (Reads(s, OfVerify(x, act), r, s'.verifies[r]) && !s'.verifies[r].via.Google?) || (r in s.verifies && s'.verifies[r] == s.verifies[r])
    ensures s'.verifies[r].stage.Proved? && (r in s.verifies && s.verifies[r].stage.Checking? ==> !s.verifies[r].via.Google?) ==>
              Accepts(s, OfVerify(x, act), r, s'.verifies[r]) || (r in s.verifies && s'.verifies[r] == s.verifies[r])
  {
  }

  /** A Google challenge is not checked again when it is verified already. */
  lemma {:induction false} CheckingIsNotGoogle(run: seq<World>, steps: seq<Step>, n: nat, r: nat)
    requires IsRun(run, steps) && n < |run| && r in run[n].verifies && run[n].verifies[r].stage.Checking?
    ensures !run[n].verifies[r].via.Google?
  {
    if n > 0 {
      assert StepAt(run, steps, n - 1);
      VerifyBefore(run[n - 1], steps[n - 1], run[n], r);
      if r in run[n - 1].verifies && run[n].verifies[r] == run[n - 1].verifies[r] { CheckingIsNotGoogle(run, steps, n - 1, r); }
    }
  }

  lemma {:induction false} ReadAt(run: seq<World>, steps: seq<Step>, n: nat, r: nat) returns (j: nat)
    requires IsRun(run, steps) && n < |run| && r in run[n].verifies
    ensures j < n && Reads(run[j], steps[j], r, run[n].verifies[r])
  {
    assert StepAt(run, steps, n - 1);
    VerifyBefore(run[n - 1], steps[n - 1], run[n], r);
    if Reads(run[n - 1], steps[n - 1], r, run[n].verifies[r]) {
      j := n - 1;
    } else {
      j := ReadAt(run, steps, n - 1, r);
    }
  }

  /** A proved call was read, and then its proof was accepted. */
  lemma {:induction false} AcceptedAt(run: seq<World>, steps: seq<Step>, n: nat, r: nat) returns (j: nat, a: nat)
    requires IsRun(run, steps) && n < |run| && r in run[n].verifies && run[n].verifies[r].stage.Proved?
    ensures j <= a < n && Reads(run[j], steps[j], r, run[n].verifies[r]) && Accepts(run[a], steps[a], r, run[n].verifies[r])
    ensures run[n].verifies[r].via.Google? ==> j == a
  {
    assert StepAt(run, steps, n - 1);
    if r in run[n - 1].verifies && run[n - 1].verifies[r].stage.Checking? { CheckingIsNotGoogle(run, steps, n - 1, r); }
    VerifyBefore(run[n - 1], steps[n - 1], run[n], r);
    var v := run[n].verifies[r];
    if Accepts(run[n - 1], steps[n - 1], r, v) {
      a := n - 1;
      if v.via.Google? {
        j := n - 1;
      } else {
        j := ReadAt(run, steps, n - 1, r);
      }
    } else {
      j, a := AcceptedAt(run, steps, n - 1, r);
    }
  }

  predicate VerifiedAs(db: Db, id: ChallengeId, subject: Option<Subject>) {
    id in db.challenges && HasStatus(db.challenges[id], Verified) && db.challenges[id].oauth.value.subject == subject
  }

  lemma IssueVerifiesNothing(db: Db, ctx: Context, m: Method, x: Material, now: int, id: ChallengeId, subject: Option<Subject>)
    requires VerifiedAs(Issue(db, ctx, m, x, now).db, id, subject)
    ensures VerifiedAs(db, id, subject)
  {
  }

  lemma VerifyVerifiesNothing(s: World, r: nat, act: VerifyAct, s': World, id: ChallengeId, subject: Option<Subject>)
    requires VerifyNext(s, r, act, s') && VerifiedAs(s'.db, id, subject)
    ensures VerifiedAs(s.db, id, subject)
  {
  }

  lemma OnlyFinishVerifies(s: World, k: nat, act: CallbackAct, s': World, id: ChallengeId, subject: Option<Subject>)
    requires CallbackNext(s, k, act, s') && VerifiedAs(s'.db, id, subject)
    ensures VerifiedAs(s.db, id, subject) || Finishes(s, OfCallback(k, act), id, subject)
  {
  }

  lemma VerifiedBefore(s: World, step: Step, s': World, id: ChallengeId, subject: Option<Subject>)
    requires Moves(s, step, s') && VerifiedAs(s'.db, id, subject)
    ensures VerifiedAs(s.db, id, subject) || Finishes(s, step, id, subject)
  {
    match step
    case Env(_) =>
    case IssueOne(ctx, m, x) => IssueVerifiesNothing(s.db, ctx, m, x, s.now, id, subject);
    case OfVerify(r, act) => VerifyVerifiesNothing(s, r, act, s', id, subject);
    case OfCallback(k, act) => OnlyFinishVerifies(s, k, act, s', id, subject);
    case DeleteUser(_, _, _) =>
  }

  lemma {:induction false} FinishedAt(run: seq<World>, steps: seq<Step>, n: nat, id: ChallengeId, subject: Option<Subject>) returns (f: nat)
    requires IsRun(run, steps) && n < |run| && VerifiedAs(run[n].db, id, subject)
    ensures f < n && Finishes(run[f], steps[f], id, subject)
  {
    assert StepAt(run, steps, n - 1);
    VerifiedBefore(run[n - 1], steps[n - 1], run[n], id, subject);
    if Finishes(run[n - 1], steps[n - 1], id, subject) {
      f := n - 1;
    } else {
      f := FinishedAt(run, steps, n - 1, id, subject);
    }
  }

  // ---- Main result ----

  /** The steps behind a deletion, in order; `finished` is the callback's, where there is one. */
  datatype Evidence = Evidence(issued: nat, finished: Option<nat>, read: nat, accepted: nat, granted: nat)

  /**
   Every committed account deletion goes back to the step that accepted its proof: the password check or identity
   token of the call that read the challenge, or for Google the callback that verified the challenge, after its code
   was redeemed, with the identity linked then; it is the identity linked at the grant and at the deletion.
   */
  lemma DeletionWasProved(run: seq<World>, steps: seq<Step>, d: nat) returns (e: Evidence)
    requires IsRun(run, steps) && d < |steps| && Deletes(run[d], steps[d])
    ensures e.issued < e.read <= e.accepted < e.granted < d
    ensures Issues(run[e.issued], steps[e.issued]) && Grants(run[e.granted], steps[e.granted])
    ensures steps[d].authorization == Some(steps[e.granted].verify.digest)
    ensures var r, v := steps[e.granted].r, run[e.granted].verifies[steps[e.granted].r];
            && v.ctx == steps[e.issued].ctx && v.ctx.user == steps[d].user && v.ctx.session == steps[d].session
            && Reads(run[e.read], steps[e.read], r, v) && Accepts(run[e.accepted], steps[e.accepted], r, v)
            && (e.finished.Some? <==> v.via.Google?)
            && (v.via.Google? ==>
                  && e.issued < e.finished.value < e.read && Finishes(run[e.finished.value], steps[e.finished.value], v.ctx.id, v.proof.subject)
                  && LinkedSubject(run[d].db, v.ctx.user, Google) == v.proof.subject)
  {
    var t := DeletionProvenance(run, steps, d);
    var g := t.granted;
    var r, v := steps[g].r, run[g].verifies[steps[g].r];
    var j, a := AcceptedAt(run, steps, g, r);
    e := Evidence(t.issued, None, j, a, g);
    ChallengeKnownAt(run, steps, j, v.ctx.id, t.issued);
    if v.via.Google? {
      var f := FinishedAt(run, steps, j, v.ctx.id, v.proof.subject);
      ChallengeKnownAt(run, steps, f, v.ctx.id, t.issued);
      e := e.(finished := Some(f));
    }
  }

  lemma IssuedIsNew(run: seq<World>, steps: seq<Step>, i: nat)
    requires IsRun(run, steps) && i < |steps| && Issues(run[i], steps[i])
    ensures steps[i].ctx.id !in run[i].past.born
  {
    assert StepAt(run, steps, i);
  }

  /** A challenge whose row is there was issued before, and only once. */
  lemma ChallengeKnownAt(run: seq<World>, steps: seq<Step>, j: nat, id: ChallengeId, i: nat)
    requires IsRun(run, steps) && j < |run| && id in run[j].db.challenges && i < |steps| && Issues(run[i], steps[i]) && steps[i].ctx.id == id
    ensures i < j
  {
    RowKnown(run, steps, j, id);
    IssuedIsNew(run, steps, i);
    if j <= i { BornStays(run, steps, j, i, id); }
  }
}
