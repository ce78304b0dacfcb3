/**
 Deletion reauthentication as a state machine: any number of challenge, verify, callback and deletion
 requests interleave with session revocation and changes of the account's password and identities.

 One step is one transaction or statement, one proof check or code exchange, or the loss of a request.
 `History` records what was ever issued; no code reads it, except that drawn identifiers are new.
 */
module ReauthProtocol {
  import opened Wrappers
  import opened Reauth

  datatype VerifyStage = Checking | Proved | Failing

  /** A `verify` call after its unlocked read; `proof` is what the completing transaction will compare. */
  datatype Verify = Verify(ctx: Context, via: Method, proof: Proof, stage: VerifyStage)

  datatype CallbackStage = Claiming | Redeemed | Ending

  /** A `googleCallback` call after it claimed its challenge. */
  datatype Callback = Callback(ctx: Context, nonce: Option<Nonce>, verifier: Option<Secret>, stage: CallbackStage)

  datatype Origin = Origin(at: nat, id: ChallengeId)

  datatype History = History(step: nat, users: set<UserId>, sessions: set<SessionId>, states: set<Digest>, secrets: set<Secret>,
                             born: map<ChallengeId, nat>, granted: map<Digest, Origin>, spent: map<Digest, nat>,
                             redeemed: set<ChallengeId>)

  datatype World = World(now: int, db: Db, verifies: map<nat, Verify>, callbacks: map<nat, Callback>, past: History)

  datatype EnvAct =
    | Tick(elapsed: nat)
    | AddUser(user: UserId, row: User)
    | AddSession(session: SessionId, owner: UserId)
    | Revoke(session: SessionId)
    // A password or identity change.
    | Relink(user: UserId, row: User)

  datatype VerifyAct =
    | Read(ctx: Context, via: Method)
    | Accept(subject: Subject)
    | Reject
    | RecordFailed
    | CompleteProof(digest: Digest)
    | Drop

  datatype CallbackAct =
    | Claim(id: ChallengeId, state: Digest)
    | Redeem
    | GiveUp
    | Finish(subject: Subject)
    | End
    | Crash

  datatype Step =
    | Env(env: EnvAct)
    | IssueOne(ctx: Context, via: Method, material: Material)
    | OfVerify(r: nat, verify: VerifyAct)
    | OfCallback(k: nat, callback: CallbackAct)
    | DeleteUser(user: UserId, session: SessionId, authorization: Option<Digest>)

  // ---- Results of the transactions, as steps see them ----

  function IssueResult(s: World, step: Step): Result
    requires step.IssueOne?
  {
    Issue(s.db, step.ctx, step.via, step.material, s.now)
  }

  function ProofResult(s: World, r: nat, digest: Digest): Result
    requires r in s.verifies
  {
    Complete(s.db, s.verifies[r].ctx, s.verifies[r].via, s.verifies[r].proof, digest, s.now)
  }

  function DeleteResult(s: World, step: Step): Result
    requires step.DeleteUser?
  {
    Delete(s.db, step.user, step.session, step.authorization, s.now)
  }

  predicate Issues(s: World, step: Step) {
    step.IssueOne? && IssueResult(s, step).outcome.Ok?
  }

  predicate Grants(s: World, step: Step) {
    step.OfVerify? && step.verify.CompleteProof? && step.r in s.verifies && s.verifies[step.r].stage.Proved?
    && ProofResult(s, step.r, step.verify.digest).outcome.Ok?
  }

  predicate Deletes(s: World, step: Step) {
    step.DeleteUser? && DeleteResult(s, step).outcome.Ok?
  }

  predicate Redeems(s: World, step: Step) {
    step.OfCallback? && step.callback.Redeem? && step.k in s.callbacks && s.callbacks[step.k].stage.Claiming?
  }

  function BornAfter(s: World, step: Step): map<ChallengeId, nat> {
    if Issues(s, step) then s.past.born[step.ctx.id := s.past.step] else s.past.born
  }

  function GrantedAfter(s: World, step: Step): map<Digest, Origin> {
    if Grants(s, step) then s.past.granted[step.verify.digest := Origin(s.past.step, s.verifies[step.r].ctx.id)] else s.past.granted
  }

  function SpentAfter(s: World, step: Step): map<Digest, nat> {
    if Deletes(s, step) then s.past.spent[step.authorization.value := s.past.step] else s.past.spent
  }

  function RedeemedAfter(s: World, step: Step): set<ChallengeId> {
    if Redeems(s, step) then s.past.redeemed + {s.callbacks[step.k].ctx.id} else s.past.redeemed
  }

  function Drawn(s: World, step: Step): Option<(Digest, Secret)> {
    if Issues(s, step) then step.material.oauth else None
  }

  function Recorded(s: World, step: Step): History {
    History(s.past.step + 1,
            if step.Env? && step.env.AddUser? then s.past.users + {step.env.user} else s.past.users,
            if step.Env? && step.env.AddSession? then s.past.sessions + {step.env.session} else s.past.sessions,
            if Drawn(s, step).Some? then s.past.states + {Drawn(s, step).value.0} else s.past.states,
            if Drawn(s, step).Some? then s.past.secrets + {Drawn(s, step).value.1} else s.past.secrets,
            BornAfter(s, step), GrantedAfter(s, step), SpentAfter(s, step), RedeemedAfter(s, step))
  }

  predicate MaterialFor(s: World, m: Method, x: Material) {
    && (x.nonce.None? <==> m.Password?)
    && (x.oauth.Some? <==> m.Google?)
    && (x.oauth.Some? ==> x.oauth.value.0 !in s.past.states && x.oauth.value.1 !in s.past.secrets)
  }

  /** The unlocked checks of `verify`. */
  predicate Readable(s: World, ctx: Context, m: Method) {
    && Finds(s.db, ctx) && ActiveSession(s.db, ctx.user, ctx.session)
    && var c := s.db.challenges[ctx.id];
    && c.via == m && c.consumedAt.None? && c.attempts < MAX_ATTEMPTS && s.now < c.expiresAt
    && match m
       case Password => s.db.users[ctx.user].hash.Some?
       case Apple => c.nonce.Some?
       case Google => HasStatus(c, Verified) && c.oauth.value.subject.Some?
  }

  function Started(s: World, ctx: Context, m: Method): Verify
    requires Readable(s, ctx, m)
  {
    var c := s.db.challenges[ctx.id];
    match m
    case Password => Verify(ctx, m, Proof(s.db.users[ctx.user].hash, None, None), Checking)
    case Apple => Verify(ctx, m, Proof(None, c.nonce, None), Checking)
    case Google => Verify(ctx, m, Proof(None, c.nonce, c.oauth.value.subject), Proved)
  }

  ghost predicate EnvNext(s: World, act: EnvAct, s': World) {
    match act
    case Tick(d) => s' == s.(now := s.now + d, past := s'.past)
    case AddUser(u, row) =>
      u !in s.past.users && s' == s.(db := s.db.(users := s.db.users[u := row]), past := s'.past)
    case AddSession(sid, u) =>
      && sid !in s.past.sessions && u in s.db.users
      && s' == s.(db := s.db.(sessions := s.db.sessions[sid := Session(u, false)]), past := s'.past)
    case Revoke(sid) =>
      && sid in s.db.sessions
      && s' == s.(db := s.db.(sessions := s.db.sessions[sid := s.db.sessions[sid].(revoked := true)]), past := s'.past)
    case Relink(u, row) =>
      u in s.db.users && s' == s.(db := s.db.(users := s.db.users[u := row]), past := s'.past)
  }

  ghost predicate VerifyNext(s: World, r: nat, act: VerifyAct, s': World) {
    match act
    case Read(ctx, m) =>
      && r !in s.verifies && Readable(s, ctx, m)
      && s' == s.(verifies := s.verifies[r := Started(s, ctx, m)], past := s'.past)
    // The password or identity token was accepted.
    case Accept(subject) =>
      && r in s.verifies && s.verifies[r].stage.Checking?
      && var v := s.verifies[r];
      && var p := if v.via.Password? then v.proof else v.proof.(subject := Some(subject));
      && s' == s.(verifies := s.verifies[r := v.(proof := p, stage := Proved)], past := s'.past)
    case Reject =>
      && r in s.verifies && s.verifies[r].stage.Checking?
      && s' == s.(verifies := s.verifies[r := s.verifies[r].(stage := Failing)], past := s'.past)
    case RecordFailed =>
      && r in s.verifies && s.verifies[r].stage.Failing?
      && s' == s.(db := RecordFailure(s.db, s.verifies[r].ctx, s.now), verifies := s.verifies - {r}, past := s'.past)
    case CompleteProof(digest) =>
      && r in s.verifies && s.verifies[r].stage.Proved? && digest !in s.past.granted
      && var result := ProofResult(s, r, digest);
      && s' == s.(db := result.db,
                  verifies := if result.outcome.ProofFailed? then s.verifies[r := s.verifies[r].(stage := Failing)] else s.verifies - {r},
                  past := s'.past)
    case Drop => s' == s.(verifies := s.verifies - {r}, past := s'.past)
  }

  ghost predicate CallbackNext(s: World, k: nat, act: CallbackAct, s': World) {
    match act
    case Claim(id, state) =>
      && k !in s.callbacks && ClaimableBy(s.db, id, state, s.now)
      && var c := s.db.challenges[id];
      && s' == s.(db := Claimed(s.db, id),
                  callbacks := s.callbacks[k := Callback(Context(id, c.user, c.session), c.nonce, c.oauth.value.verifier, Claiming)],
                  past := s'.past)
    // The code is sent to the token endpoint with the verifier (RFC 7636 section 4.5).
    case Redeem =>
      && k in s.callbacks && s.callbacks[k].stage.Claiming?
      && s' == s.(callbacks := s.callbacks[k := s.callbacks[k].(stage := Redeemed)], past := s'.past)
    case GiveUp =>
      && k in s.callbacks && !s.callbacks[k].stage.Ending?
      && s' == s.(callbacks := s.callbacks[k := s.callbacks[k].(stage := Ending)], past := s'.past)
    case Finish(subject) =>
      && k in s.callbacks && s.callbacks[k].stage.Redeemed?
      && var result := CompleteCallback(s.db, s.callbacks[k].ctx, subject, s.callbacks[k].nonce, s.now);
      && s' == s.(db := result.db,
                  callbacks := if result.outcome.Ok? then s.callbacks - {k} else s.callbacks[k := s.callbacks[k].(stage := Ending)],
                  past := s'.past)
    case End =>
      && k in s.callbacks && s.callbacks[k].stage.Ending?
      && s' == s.(db := FailCallback(s.db, s.callbacks[k].ctx.id, s.now), callbacks := s.callbacks - {k}, past := s'.past)
    case Crash => s' == s.(callbacks := s.callbacks - {k}, past := s'.past)
  }

  ghost predicate Moves(s: World, step: Step, s': World) {
    match step
    case Env(act) => EnvNext(s, act, s')
    case IssueOne(ctx, m, x) =>
      && ctx.id !in s.past.born && MaterialFor(s, m, x)
      && s' == s.(db := IssueResult(s, step).db, past := s'.past)
    case OfVerify(r, act) => VerifyNext(s, r, act, s')
    case OfCallback(k, act) => CallbackNext(s, k, act, s')
    case DeleteUser(_, _, _) => s' == s.(db := DeleteResult(s, step).db, past := s'.past)
  }

  ghost predicate Next(s: World, step: Step, s': World) {
    s'.past == Recorded(s, step) && Moves(s, step, s')
  }

  /** Any accounts and sessions; no challenge was ever issued. */
  ghost predicate Init(s: World) {
    && s.db.challenges == map[] && s.db.grants == map[] && s.verifies == map[] && s.callbacks == map[]
    && (forall sid | sid in s.db.sessions :: s.db.sessions[sid].user in s.db.users)
    && s.past == History(0, s.db.users.Keys, s.db.sessions.Keys, {}, {}, map[], map[], map[], {})
  }

  ghost predicate IsRun(run: seq<World>, steps: seq<Step>) {
    |run| == |steps| + 1 && Init(run[0]) && forall i | 0 <= i < |steps| :: StepAt(run, steps, i)
  }

  ghost predicate StepAt(run: seq<World>, steps: seq<Step>, i: nat)
    requires i < |steps| < |run|
  {
    Next(run[i], steps[i], run[i + 1])
  }
}
