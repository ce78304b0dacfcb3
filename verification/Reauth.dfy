/**
 Account-deletion reauthentication: the challenge and authorization rows, and each transaction over them.

 Secrets, digests and provider subjects are opaque values. One clock reading stands for the
 `clock_timestamp()` calls of one transaction.
 */
module Reauth {
  import opened Wrappers

  type UserId = nat
  type SessionId = nat
  type ChallengeId = nat
  type Digest = nat
  type Hash = nat
  type Nonce = nat
  type Secret = nat
  type Subject = nat

  const TTL_MS := 5 * 60 * 1000
  const HOUR_MS := 60 * 60 * 1000
  const MAX_CHALLENGES_PER_HOUR := 10
  const MAX_ATTEMPTS := 5

  datatype Method = Password | Apple | Google

  datatype Status = Pending | Exchanging | Verified | Failed

  /** The Google columns of a challenge; `verifier` is the PKCE code verifier of RFC 7636 section 4.1. */
  datatype OAuth = OAuth(state: Digest, verifier: Option<Secret>, status: Status, subject: Option<Subject>, completedAt: Option<int>)

  datatype Challenge = Challenge(user: UserId, session: SessionId, via: Method, nonce: Option<Nonce>,
                                 createdAt: int, expiresAt: int, consumedAt: Option<int>, attempts: nat, oauth: Option<OAuth>)

  datatype Grant = Grant(user: UserId, session: SessionId, via: Method, subject: Option<Subject>,
                         expiresAt: int, consumedAt: Option<int>)

  datatype User = User(hash: Option<Hash>, identities: map<Method, Subject>)

  datatype Session = Session(user: UserId, revoked: bool)

  datatype Db = Db(users: map<UserId, User>, sessions: map<SessionId, Session>,
                   challenges: map<ChallengeId, Challenge>, grants: map<Digest, Grant>)

  /** A challenge as its requests name it. */
  datatype Context = Context(id: ChallengeId, user: UserId, session: SessionId)

  /** What the service draws for a new challenge. */
  datatype Material = Material(nonce: Option<Nonce>, oauth: Option<(Digest, Secret)>)

  /** What a proof is checked against when a challenge is completed. */
  datatype Proof = Proof(hash: Option<Hash>, nonce: Option<Nonce>, subject: Option<Subject>)

  datatype Outcome =
    | Ok | InvalidToken | MethodUnavailable | RateLimited
    | InvalidChallenge | ExpiredChallenge | ProofFailed | InvalidAuthorization | ExpiredAuthorization

  datatype Result = Result(outcome: Outcome, db: Db)

  // ---- Conditions ----

  /** `withLockedAccount`: the user exists and owns this unrevoked session. */
  predicate ActiveSession(db: Db, u: UserId, sid: SessionId) {
    u in db.users && sid in db.sessions && db.sessions[sid].user == u && !db.sessions[sid].revoked
  }

  function LinkedSubject(db: Db, u: UserId, m: Method): Option<Subject> {
    if u in db.users && m in db.users[u].identities then Some(db.users[u].identities[m]) else None
  }

  predicate Available(db: Db, u: UserId, m: Method) {
    if m.Password? then u in db.users && db.users[u].hash.Some? else LinkedSubject(db, u, m).Some?
  }

  /** The method a grant was proved with is still linked to its user. */
  predicate StillLinked(db: Db, g: Grant) {
    if g.via.Password? then Available(db, g.user, Password)
    else g.subject.Some? && LinkedSubject(db, g.user, g.via) == g.subject
  }

  predicate Finds(db: Db, ctx: Context) {
    && ctx.id in db.challenges
    && db.challenges[ctx.id].user == ctx.user && db.challenges[ctx.id].session == ctx.session
  }

  predicate OpenChallenge(db: Db, id: ChallengeId, sid: SessionId) {
    id in db.challenges && db.challenges[id].session == sid && db.challenges[id].consumedAt.None?
  }

  predicate OpenGrant(db: Db, d: Digest, sid: SessionId) {
    d in db.grants && db.grants[d].session == sid && db.grants[d].consumedAt.None?
  }

  predicate HasStatus(c: Challenge, status: Status) {
    c.oauth.Some? && c.oauth.value.status == status
  }

  // ---- Row changes ----

  function Ended(o: OAuth, now: int): OAuth {
    o.(status := Failed, verifier := None, completedAt := Some(now))
  }

  function Superseded(c: Challenge, now: int): Challenge {
    c.(consumedAt := Some(now),
       oauth := if HasStatus(c, Pending) || HasStatus(c, Exchanging) then Some(Ended(c.oauth.value, now)) else c.oauth)
  }

  function GrantsConsumed(db: Db, sid: SessionId, now: int): map<Digest, Grant> {
    map d | d in db.grants :: if OpenGrant(db, d, sid) then db.grants[d].(consumedAt := Some(now)) else db.grants[d]
  }

  function ChallengesConsumed(db: Db, sid: SessionId, now: int): map<ChallengeId, Challenge> {
    map id | id in db.challenges :: if OpenChallenge(db, id, sid) then Superseded(db.challenges[id], now) else db.challenges[id]
  }

  /** Rows older than the throttling window and grants past their expiry are dropped. */
  function Purged(db: Db, u: UserId, now: int): Db {
    db.(challenges := map id | id in db.challenges && !(db.challenges[id].user == u && db.challenges[id].createdAt < now - HOUR_MS)
                           :: db.challenges[id],
        grants := map d | d in db.grants && !(db.grants[d].user == u && db.grants[d].expiresAt < now) :: db.grants[d])
  }

  function Recent(db: Db, u: UserId, now: int): set<ChallengeId> {
    set id | id in db.challenges && db.challenges[id].user == u && db.challenges[id].createdAt > now - HOUR_MS
  }

  function NewChallenge(u: UserId, sid: SessionId, m: Method, x: Material, now: int): Challenge {
    Challenge(u, sid, m, x.nonce, now, now + TTL_MS, None, 0,
              if x.oauth.Some? then Some(OAuth(x.oauth.value.0, Some(x.oauth.value.1), Pending, None, None)) else None)
  }

  /** The rows after a challenge is issued: nothing else of its session stays open. */
  function Issued(db: Db, ctx: Context, c: Challenge, now: int): Db {
    var p := Purged(db, ctx.user, now);
    p.(challenges := ChallengesConsumed(p, ctx.session, now)[ctx.id := c], grants := GrantsConsumed(p, ctx.session, now))
  }

  function Granted(db: Db, ctx: Context, digest: Digest, g: Grant, now: int): Db
    requires ctx.id in db.challenges
  {
    db.(challenges := db.challenges[ctx.id := db.challenges[ctx.id].(consumedAt := Some(now))],
        grants := GrantsConsumed(db, ctx.session, now)[digest := g])
  }

  function WithOAuth(db: Db, id: ChallengeId, o: OAuth): Db
    requires id in db.challenges
  {
    db.(challenges := db.challenges[id := db.challenges[id].(oauth := Some(o))])
  }

  /** The foreign keys cascade from a deleted user through its sessions. */
  function WithoutUser(db: Db, u: UserId): Db {
    var gone := set sid | sid in db.sessions && db.sessions[sid].user == u;
    Db(db.users - {u}, db.sessions - gone,
       map id | id in db.challenges && db.challenges[id].user != u && db.challenges[id].session !in gone :: db.challenges[id],
       map d | d in db.grants && db.grants[d].user != u && db.grants[d].session !in gone :: db.grants[d])
  }

  // ---- Transactions ----

  function Issue(db: Db, ctx: Context, m: Method, x: Material, now: int): Result {
    if !ActiveSession(db, ctx.user, ctx.session) then Result(InvalidToken, db)
    else if !Available(db, ctx.user, m) then Result(MethodUnavailable, db)
    else if |Recent(Purged(db, ctx.user, now), ctx.user, now)| >= MAX_CHALLENGES_PER_HOUR then Result(RateLimited, db)
    else Result(Ok, Issued(db, ctx, NewChallenge(ctx.user, ctx.session, m, x, now), now))
  }

  /** The rows a callback with this state may claim. */
  predicate ClaimableBy(db: Db, id: ChallengeId, state: Digest, now: int) {
    && id in db.challenges
    && var c := db.challenges[id];
    && c.via.Google? && HasStatus(c, Pending) && c.oauth.value.state == state
    && c.consumedAt.None? && now < c.expiresAt
    && c.session in db.sessions && db.sessions[c.session].user == c.user && !db.sessions[c.session].revoked
  }

  function Claimed(db: Db, id: ChallengeId): Db
    requires id in db.challenges && db.challenges[id].oauth.Some?
  {
    WithOAuth(db, id, db.challenges[id].oauth.value.(status := Exchanging))
  }

  function FailCallback(db: Db, id: ChallengeId, now: int): Db {
    if id in db.challenges && db.challenges[id].via.Google? && HasStatus(db.challenges[id], Exchanging)
    then WithOAuth(db, id, Ended(db.challenges[id].oauth.value, now)) else db
  }

  function CompleteCallback(db: Db, ctx: Context, subject: Subject, nonce: Option<Nonce>, now: int): Result {
    if !ActiveSession(db, ctx.user, ctx.session) then Result(InvalidToken, db)
    else if !Available(db, ctx.user, Google) then Result(MethodUnavailable, db)
    else if LinkedSubject(db, ctx.user, Google) != Some(subject) then Result(ProofFailed, db)
    else if !Finds(db, ctx) then Result(InvalidChallenge, db)
    else
      var c := db.challenges[ctx.id];
      if !c.via.Google? || c.consumedAt.Some? || c.expiresAt <= now || !HasStatus(c, Exchanging) || c.nonce.None? || c.nonce != nonce
      then Result(InvalidChallenge, db)
      else Result(Ok, WithOAuth(db, ctx.id, c.oauth.value.(status := Verified, subject := Some(subject), verifier := None, completedAt := Some(now))))
  }

  function RecordFailure(db: Db, ctx: Context, now: int): Db {
    if Finds(db, ctx) && db.challenges[ctx.id].consumedAt.None? && now < db.challenges[ctx.id].expiresAt
       && db.challenges[ctx.id].attempts < MAX_ATTEMPTS
    then db.(challenges := db.challenges[ctx.id := db.challenges[ctx.id].(attempts := db.challenges[ctx.id].attempts + 1)])
    else db
  }

  /** The proof collected before the locks were taken still fits the rows read under them. */
  predicate ProofStands(db: Db, u: UserId, c: Challenge, p: Proof) {
    match c.via
    case Password => u in db.users && db.users[u].hash == p.hash
    case Apple => LinkedSubject(db, u, Apple) == p.subject && c.nonce.Some? && c.nonce == p.nonce
    case Google =>
      && HasStatus(c, Verified) && c.oauth.value.subject == p.subject
      && LinkedSubject(db, u, Google) == p.subject && c.nonce.Some? && c.nonce == p.nonce
  }

  function Complete(db: Db, ctx: Context, m: Method, p: Proof, digest: Digest, now: int): Result {
    if !ActiveSession(db, ctx.user, ctx.session) then Result(InvalidToken, db)
    else if !Finds(db, ctx) then Result(InvalidChallenge, db)
    else
      var c := db.challenges[ctx.id];
      if c.consumedAt.Some? || c.attempts >= MAX_ATTEMPTS || c.via != m then Result(InvalidChallenge, db)
      else if c.expiresAt <= now then Result(ExpiredChallenge, db)
      else if !Available(db, ctx.user, m) then Result(MethodUnavailable, db)
      else if !ProofStands(db, ctx.user, c, p) then Result(ProofFailed, db)
      else
        var g := Grant(ctx.user, ctx.session, m, if m.Password? then None else p.subject, now + TTL_MS, None);
        Result(Ok, Granted(db, ctx, digest, g, now))
  }

  /** The grant presented to a deletion, or why it is refused; `None` is a malformed authorization. */
  function Consumable(db: Db, u: UserId, sid: SessionId, authorization: Option<Digest>, now: int): Outcome {
    if authorization.None? then InvalidAuthorization
    else
      var d := authorization.value;
      if !(OpenGrant(db, d, sid) && db.grants[d].user == u) then InvalidAuthorization
      else if db.grants[d].expiresAt <= now then ExpiredAuthorization
      else if !StillLinked(db, db.grants[d]) then MethodUnavailable
      else Ok
  }

  /** `deleteAccountWithAuthorization` as these tables see it. */
  function Delete(db: Db, u: UserId, sid: SessionId, authorization: Option<Digest>, now: int): Result {
    if !ActiveSession(db, u, sid) then Result(InvalidToken, db)
    else
      var outcome := Consumable(db, u, sid, authorization, now);
      Result(outcome, if outcome.Ok? then WithoutUser(db, u) else db)
  }

  // ---- What the transactions mean ----

  /** A challenge and a grant are open for one session at a time, if at all. */
  ghost predicate OnlyOpen(db: Db, sid: SessionId, challenge: Option<ChallengeId>, grant: Option<Digest>) {
    && (forall id: ChallengeId :: OpenChallenge(db, id, sid) <==> challenge == Some(id))
    && (forall d: Digest :: OpenGrant(db, d, sid) <==> grant == Some(d))
  }

  /** The rows of every other user stay as they are. */
  ghost predicate OthersStand(before: Db, after: Db, u: UserId) {
    && (forall id | id in before.challenges && before.challenges[id].user != u :: id in after.challenges && after.challenges[id] == before.challenges[id])
    && (forall d | d in before.grants && before.grants[d].user != u :: d in after.grants && after.grants[d] == before.grants[d])
  }

  /** A session's rows are its user's; every step of the machine keeps this. */
  ghost predicate RowsFit(db: Db) {
    && (forall id | id in db.challenges :: db.challenges[id].session in db.sessions && db.sessions[db.challenges[id].session].user == db.challenges[id].user)
    && (forall d | d in db.grants :: db.grants[d].session in db.sessions && db.sessions[db.grants[d].session].user == db.grants[d].user)
  }

  /** The account is there, and so is this session of it, which nobody revoked. */
  predicate SessionRuns(db: Db, u: UserId, sid: SessionId) {
    u in db.users && sid in db.sessions && db.sessions[sid] == Session(u, false)
  }

  predicate HasMethod(db: Db, u: UserId, m: Method) {
    && u in db.users
    && match m
       case Password => db.users[u].hash.Some?
       case _ => m in db.users[u].identities
  }

  /** This identity is the one linked to the account. */
  predicate HasSubject(db: Db, u: UserId, m: Method, subject: Option<Subject>) {
    u in db.users && m in db.users[u].identities && subject == Some(db.users[u].identities[m])
  }

  predicate MayIssue(db: Db, ctx: Context, m: Method, now: int) {
    && SessionRuns(db, ctx.user, ctx.session) && HasMethod(db, ctx.user, m)
    && |set id | id in db.challenges && db.challenges[id].user == ctx.user && now - 60 * 60 * 1000 < db.challenges[id].createdAt| < 10
  }

  /** What issuing leaves of the caller's other rows: all of other sessions but rows out of date, and no open ones of this. */
  ghost predicate OwnRowsStand(before: Db, after: Db, ctx: Context, now: int) {
    && (forall id | id in before.challenges && id != ctx.id && before.challenges[id].createdAt >= now - HOUR_MS ::
          && id in after.challenges
          && (if before.challenges[id].session != ctx.session || before.challenges[id].consumedAt.Some? then after.challenges[id] == before.challenges[id]
              else after.challenges[id].consumedAt == Some(now))
          && (after.challenges[id] == before.challenges[id].(consumedAt := after.challenges[id].consumedAt, oauth := after.challenges[id].oauth)))
    && (forall d | d in before.grants && now <= before.grants[d].expiresAt ::
          && d in after.grants
          && (if before.grants[d].session != ctx.session || before.grants[d].consumedAt.Some? then after.grants[d] == before.grants[d]
              else after.grants[d].consumedAt == Some(now))
          && after.grants[d] == before.grants[d].(consumedAt := after.grants[d].consumedAt))
  }

  /** Issuing: allowed exactly with a live session, a linked method and fewer than ten challenges within the hour. */
  ghost predicate IssueMeans(before: Db, outcome: Outcome, after: Db, ctx: Context, m: Method, x: Material, now: int) {
    && (outcome.Ok? <==> MayIssue(before, ctx, m, now))
    && (outcome.InvalidToken? <==> !SessionRuns(before, ctx.user, ctx.session))
    && (outcome.RateLimited? ==> |Recent(before, ctx.user, now)| >= MAX_CHALLENGES_PER_HOUR)
    && (!outcome.Ok? ==> after == before)
    && (outcome.Ok? ==>
          && OnlyOpen(after, ctx.session, Some(ctx.id), None)
          && (RowsFit(before) && ctx.id !in before.challenges ==> OthersStand(before, after, ctx.user))
          && OwnRowsStand(before, after, ctx, now)
          && after.users == before.users && after.sessions == before.sessions
          && Finds(after, ctx)
          && var c := after.challenges[ctx.id];
          && c.via == m && c.nonce == x.nonce && c.createdAt == now && c.expiresAt == now + TTL_MS && c.consumedAt.None? && c.attempts == 0
          && (c.oauth.Some? <==> x.oauth.Some?)
          && (c.oauth.Some? ==> c.oauth.value.state == x.oauth.value.0 && c.oauth.value.verifier == Some(x.oauth.value.1) && c.oauth.value.status.Pending?))
  }

  lemma PurgeKeepsRecent(db: Db, u: UserId, now: int)
    ensures Recent(Purged(db, u, now), u, now) == Recent(db, u, now)
  {
  }

  lemma IssuedOnlyOpen(db: Db, ctx: Context, c: Challenge, now: int)
    requires c.session == ctx.session && c.consumedAt.None?
    ensures OnlyOpen(Issued(db, ctx, c, now), ctx.session, Some(ctx.id), None)
  {
  }

  lemma IssuedOthersStand(db: Db, ctx: Context, c: Challenge, now: int)
    requires RowsFit(db) && ActiveSession(db, ctx.user, ctx.session) && ctx.id !in db.challenges
    ensures OthersStand(db, Issued(db, ctx, c, now), ctx.user)
  {
  }

  lemma IssuedOwnStand(db: Db, ctx: Context, c: Challenge, now: int)
    ensures OwnRowsStand(db, Issued(db, ctx, c, now), ctx, now)
  {
  }

  lemma IssueIsMeant(db: Db, ctx: Context, m: Method, x: Material, now: int)
    ensures var r := Issue(db, ctx, m, x, now); IssueMeans(db, r.outcome, r.db, ctx, m, x, now)
  {
    PurgeKeepsRecent(db, ctx.user, now);
    assert Recent(db, ctx.user, now)
           == set id | id in db.challenges && db.challenges[id].user == ctx.user && now - 60 * 60 * 1000 < db.challenges[id].createdAt;
    var c := NewChallenge(ctx.user, ctx.session, m, x, now);
    IssuedOnlyOpen(db, ctx, c, now);
    IssuedOwnStand(db, ctx, c, now);
    if RowsFit(db) && ActiveSession(db, ctx.user, ctx.session) && ctx.id !in db.challenges { IssuedOthersStand(db, ctx, c, now); }
  }

  /** The callback's own challenge can be verified with this identity. */
  predicate MayFinish(db: Db, ctx: Context, subject: Subject, nonce: Option<Nonce>, now: int) {
    && SessionRuns(db, ctx.user, ctx.session) && HasSubject(db, ctx.user, Google, Some(subject)) && Finds(db, ctx)
    && var c := db.challenges[ctx.id];
    && c.via.Google? && c.oauth.Some? && c.oauth.value.status.Exchanging? && c.consumedAt.None? && now < c.expiresAt && c.nonce.Some? && c.nonce == nonce
  }

  /** Only the columns of the Google flow of one challenge differ. */
  ghost predicate OnlyOAuth(before: Db, after: Db, id: ChallengeId) {
    && id in before.challenges && id in after.challenges
    && after == before.(challenges := before.challenges[id := before.challenges[id].(oauth := after.challenges[id].oauth)])
  }

  /** Finishing a callback: allowed exactly for the linked identity; it records the subject and erases the verifier. */
  ghost predicate FinishMeans(before: Db, outcome: Outcome, after: Db, ctx: Context, subject: Subject, nonce: Option<Nonce>, now: int) {
    && (outcome.Ok? <==> MayFinish(before, ctx, subject, nonce, now))
    && (outcome.ProofFailed? <==>
          ActiveSession(before, ctx.user, ctx.session) && Available(before, ctx.user, Google) && LinkedSubject(before, ctx.user, Google) != Some(subject))
    && (!outcome.Ok? ==> after == before)
    && (outcome.Ok? ==>
          && OnlyOAuth(before, after, ctx.id)
          && var o := after.challenges[ctx.id].oauth;
          && o.Some? && o.value.status.Verified? && o.value.subject == Some(subject) && o.value.verifier.None? && o.value.completedAt == Some(now))
  }

  lemma FinishIsMeant(db: Db, ctx: Context, subject: Subject, nonce: Option<Nonce>, now: int)
    ensures var r := CompleteCallback(db, ctx, subject, nonce, now); FinishMeans(db, r.outcome, r.db, ctx, subject, nonce, now)
  {
  }

  /** The challenge is the caller's, unused, in time, of this method, and its proof still stands. */
  predicate MayComplete(db: Db, ctx: Context, m: Method, p: Proof, now: int) {
    && SessionRuns(db, ctx.user, ctx.session) && Finds(db, ctx) && HasMethod(db, ctx.user, m)
    && var c := db.challenges[ctx.id];
    && c.consumedAt.None? && c.attempts < MAX_ATTEMPTS && c.via == m && now < c.expiresAt && ProofFits(db, ctx.user, c, p)
  }

  /** The password proved is the current one, or the identity proved the linked one, for this challenge's nonce and callback. */
  predicate ProofFits(db: Db, u: UserId, c: Challenge, p: Proof) {
    && u in db.users && (c.via.Password? ==> db.users[u].hash == p.hash)
    && (!c.via.Password? ==> HasSubject(db, u, c.via, p.subject) && c.nonce.Some? && p.nonce == c.nonce)
    && (c.via.Google? ==> c.oauth.Some? && c.oauth.value.status.Verified? && c.oauth.value.subject == p.subject)
  }

  /** Completing: the challenge is used up, and the new grant is the only one open in its session. */
  ghost predicate CompleteMeans(before: Db, outcome: Outcome, after: Db, ctx: Context, m: Method, p: Proof, digest: Digest, now: int) {
    && (outcome.Ok? <==> MayComplete(before, ctx, m, p, now))
    && (outcome.ExpiredChallenge? <==>
          && SessionRuns(before, ctx.user, ctx.session) && Finds(before, ctx)
          && var c := before.challenges[ctx.id]; c.consumedAt.None? && c.attempts < MAX_ATTEMPTS && c.via == m && c.expiresAt <= now)
    && (!outcome.Ok? ==> after == before)
    && (outcome.Ok? ==>
          && !OpenChallenge(after, ctx.id, ctx.session)
          && (RowsFit(before) && digest !in before.grants ==> OthersStand(before, after, ctx.user))
          && (forall id | id in before.challenges && id != ctx.id :: id in after.challenges && after.challenges[id] == before.challenges[id])
          && (forall d: Digest :: OpenGrant(after, d, ctx.session) <==> d == digest)
          && (forall d | d in before.grants && d != digest && before.grants[d].session != ctx.session :: d in after.grants && after.grants[d] == before.grants[d])
          && after.users == before.users && after.sessions == before.sessions
          && after.challenges.Keys == before.challenges.Keys
          && (after.challenges[ctx.id] == before.challenges[ctx.id].(consumedAt := Some(now)))
          && digest in after.grants && StillLinked(after, after.grants[digest])
          && var g := after.grants[digest];
          && g.user == ctx.user && g.session == ctx.session && g.via == m && g.expiresAt == now + TTL_MS && g.consumedAt.None?
          && (if m.Password? then g.subject.None? else g.subject == p.subject))
  }

  lemma GrantedOnlyOpen(db: Db, ctx: Context, digest: Digest, g: Grant, now: int)
    requires Finds(db, ctx) && g.session == ctx.session && g.consumedAt.None? && ActiveSession(db, ctx.user, ctx.session)
    ensures var after := Granted(db, ctx, digest, g, now);
            && (forall d: Digest :: OpenGrant(after, d, ctx.session) <==> d == digest) && !OpenChallenge(after, ctx.id, ctx.session)
            && (RowsFit(db) && digest !in db.grants ==> OthersStand(db, after, ctx.user))
  {
  }

  lemma CompleteIsMeant(db: Db, ctx: Context, m: Method, p: Proof, digest: Digest, now: int)
    ensures var r := Complete(db, ctx, m, p, digest, now); CompleteMeans(db, r.outcome, r.db, ctx, m, p, digest, now)
  {
    if MayComplete(db, ctx, m, p, now) {
      var g := Grant(ctx.user, ctx.session, m, if m.Password? then None else p.subject, now + TTL_MS, None);
      GrantedOnlyOpen(db, ctx, digest, g, now);
    }
  }

  /** Nothing refers to this user any more. */
  ghost predicate NoTrace(db: Db, u: UserId) {
    && u !in db.users && (forall sid | sid in db.sessions :: db.sessions[sid].user != u)
    && (forall id | id in db.challenges :: db.challenges[id].user != u) && (forall d | d in db.grants :: db.grants[d].user != u)
  }

  /** The grant presented is open, in time, the caller's, and was proved with a method still linked. */
  predicate MayDelete(db: Db, u: UserId, sid: SessionId, authorization: Option<Digest>, now: int) {
    && SessionRuns(db, u, sid) && authorization.Some? && authorization.value in db.grants
    && var g := db.grants[authorization.value];
    && g.user == u && g.session == sid && g.consumedAt.None? && now < g.expiresAt
    && HasMethod(db, u, g.via) && (!g.via.Password? ==> HasSubject(db, u, g.via, g.subject))
  }

  /** Deleting: allowed exactly with such a grant; it leaves no trace of the user and nobody else's rows change. */
  ghost predicate DeleteMeans(before: Db, outcome: Outcome, after: Db, u: UserId, sid: SessionId, authorization: Option<Digest>, now: int) {
    && (outcome.Ok? <==> MayDelete(before, u, sid, authorization, now))
    && (!outcome.Ok? ==> after == before)
    && (outcome.Ok? ==>
          && NoTrace(after, u) && (RowsFit(before) ==> OthersStand(before, after, u))
          && after.users == before.users - {u}
          && (forall x | x in before.sessions && before.sessions[x].user != u :: x in after.sessions && after.sessions[x] == before.sessions[x]))
  }

  lemma DeleteIsMeant(db: Db, u: UserId, sid: SessionId, authorization: Option<Digest>, now: int)
    ensures var r := Delete(db, u, sid, authorization, now); DeleteMeans(db, r.outcome, r.db, u, sid, authorization, now)
  {
  }

  /** A wrong proof can still count against this challenge: it is the caller's, unused, in time and below the limit. */
  predicate MayFail(db: Db, ctx: Context, now: int) {
    && Finds(db, ctx) && db.challenges[ctx.id].consumedAt.None? && now < db.challenges[ctx.id].expiresAt
    && db.challenges[ctx.id].attempts < MAX_ATTEMPTS
  }

  /** Recording a failure raises the attempts of that challenge by one, and nothing else changes. */
  ghost predicate FailureMeans(before: Db, after: Db, ctx: Context, now: int) {
    if MayFail(before, ctx, now) then
      && after.users == before.users && after.sessions == before.sessions && after.grants == before.grants
      && after.challenges.Keys == before.challenges.Keys && after.challenges - {ctx.id} == before.challenges - {ctx.id}
      && var c, c' := before.challenges[ctx.id], after.challenges[ctx.id];
      && c'.attempts == c.attempts + 1 && c' == c.(attempts := c'.attempts)
    else after == before
  }

  lemma FailureIsMeant(db: Db, ctx: Context, now: int)
    ensures FailureMeans(db, RecordFailure(db, ctx, now), ctx, now)
  {
  }

  /** The callback's state is that of a pending Google challenge, unused and in time, whose session runs. */
  predicate MayClaim(db: Db, id: ChallengeId, state: Digest, now: int) {
    && id in db.challenges
    && var c := db.challenges[id];
    && c.via.Google? && c.oauth.Some? && c.oauth.value.status.Pending? && c.oauth.value.state == state
    && c.consumedAt.None? && now < c.expiresAt && c.session in db.sessions && db.sessions[c.session] == Session(c.user, false)
  }

  /** A claimed challenge is being exchanged, and that is all that changed. */
  ghost predicate ClaimMeans(before: Db, after: Db, id: ChallengeId) {
    && OnlyOAuth(before, after, id) && before.challenges[id].oauth.Some?
    && after.challenges[id].oauth == Some(before.challenges[id].oauth.value.(status := Exchanging))
  }

  /** An abandoned callback's challenge failed and keeps no verifier; any other row stands. */
  ghost predicate AbandonMeans(before: Db, after: Db, id: ChallengeId, now: int) {
    if id in before.challenges && before.challenges[id].via.Google? && HasStatus(before.challenges[id], Exchanging) then
      && OnlyOAuth(before, after, id)
      && var o, o' := before.challenges[id].oauth, after.challenges[id].oauth;
      && o'.Some? && o'.value.status.Failed? && o'.value.verifier.None? && o'.value.completedAt == Some(now)
      && o'.value.state == o.value.state && o'.value.subject == o.value.subject
    else after == before
  }

  // ---- The tables, updated in place ----

  class ReauthTables {
    var users: map<UserId, User>
    var sessions: map<SessionId, Session>
    var challenges: map<ChallengeId, Challenge>
    var grants: map<Digest, Grant>

    function State(): Db
      reads this
    {
      Db(users, sessions, challenges, grants)
    }

    constructor ()
      ensures State() == Db(map[], map[], map[], map[])
    {
      users, sessions, challenges, grants := map[], map[], map[], map[];
    }

    method Purge(u: UserId, now: int)
      modifies this`challenges, this`grants
      ensures State() == Purged(old(State()), u, now)
    {
      challenges := map id | id in challenges && !(challenges[id].user == u && challenges[id].createdAt < now - HOUR_MS)
        :: challenges[id];
      grants := map d | d in grants && !(grants[d].user == u && grants[d].expiresAt < now) :: grants[d];
    }

    /** Ends every open challenge and grant of a session. */
    method CloseSession(sid: SessionId, now: int)
      modifies this`challenges, this`grants
      ensures challenges == ChallengesConsumed(old(State()), sid, now) && grants == GrantsConsumed(old(State()), sid, now)
    {
      challenges := map id | id in challenges ::
        if challenges[id].session == sid && challenges[id].consumedAt.None? then Superseded(challenges[id], now) else challenges[id];
      CloseGrants(sid, now);
    }

    method CloseGrants(sid: SessionId, now: int)
      modifies this`grants
      ensures grants == GrantsConsumed(old(State()), sid, now)
    {
      grants := map d | d in grants ::
        if grants[d].session == sid && grants[d].consumedAt.None? then grants[d].(consumedAt := Some(now)) else grants[d];
    }

    /** `issueAccountDeletionChallenge`; the purge of a refused request is rolled back. */
    method IssueChallenge(ctx: Context, m: Method, x: Material, now: int) returns (outcome: Outcome)
      modifies this`challenges, this`grants
      ensures Result(outcome, State()) == Issue(old(State()), ctx, m, x, now)
      ensures IssueMeans(old(State()), outcome, State(), ctx, m, x, now)
    {
      IssueIsMeant(State(), ctx, m, x, now);
      if !ActiveSession(State(), ctx.user, ctx.session) {
        return InvalidToken;
      }
      if !Available(State(), ctx.user, m) {
        return MethodUnavailable;
      }
      var challengesBefore, grantsBefore := challenges, grants;
      Purge(ctx.user, now);
      if |Recent(State(), ctx.user, now)| >= MAX_CHALLENGES_PER_HOUR {
        challenges, grants := challengesBefore, grantsBefore;
        return RateLimited;
      }
      CloseSession(ctx.session, now);
      challenges := challenges[ctx.id := NewChallenge(ctx.user, ctx.session, m, x, now)];
      outcome := Ok;
    }

    /** `claimGoogleDeletionCallback`: one row at most has the state, and only its first claim succeeds. */
    method ClaimCallback(state: Digest, now: int) returns (claimed: Option<ChallengeId>)
      modifies this`challenges
      ensures claimed.Some? ==> ClaimableBy(old(State()), claimed.value, state, now) && State() == Claimed(old(State()), claimed.value)
      ensures claimed.Some? ==> ClaimMeans(old(State()), State(), claimed.value) && MayClaim(old(State()), claimed.value, state, now)
      ensures claimed.None? ==> State() == old(State()) && forall id: ChallengeId :: !MayClaim(State(), id, state, now)
    {
      var found := set id | id in challenges && ClaimableBy(State(), id, state, now);
      forall id: ChallengeId ensures MayClaim(State(), id, state, now) <==> id in found {}
      if found == {} {
        return None;
      }
      var id :| id in found;
      challenges := challenges[id := challenges[id].(oauth := Some(challenges[id].oauth.value.(status := Exchanging)))];
      claimed := Some(id);
    }

    /** `failGoogleDeletionCallback`. */
    method Fail(id: ChallengeId, now: int)
      modifies this`challenges
      ensures State() == FailCallback(old(State()), id, now)
      ensures AbandonMeans(old(State()), State(), id, now)
    {
      if id in challenges && challenges[id].via.Google? && HasStatus(challenges[id], Exchanging) {
        challenges := challenges[id := challenges[id].(oauth := Some(Ended(challenges[id].oauth.value, now)))];
      }
    }

    /** `completeGoogleDeletionCallback`. */
    method FinishCallback(ctx: Context, subject: Subject, nonce: Option<Nonce>, now: int) returns (outcome: Outcome)
      modifies this`challenges
      ensures Result(outcome, State()) == CompleteCallback(old(State()), ctx, subject, nonce, now)
      ensures FinishMeans(old(State()), outcome, State(), ctx, subject, nonce, now)
    {
      FinishIsMeant(State(), ctx, subject, nonce, now);
      if !ActiveSession(State(), ctx.user, ctx.session) {
        return InvalidToken;
      }
      var linked := LinkedSubject(State(), ctx.user, Google);
      if linked.None? {
        return MethodUnavailable;
      }
      if linked.value != subject {
        return ProofFailed;
      }
      if !Finds(State(), ctx) || !challenges[ctx.id].via.Google? {
        return InvalidChallenge;
      }
      var c := challenges[ctx.id];
      if c.consumedAt.Some? || c.expiresAt <= now || !HasStatus(c, Exchanging) || c.nonce.None? || c.nonce != nonce {
        return InvalidChallenge;
      }
      var o := c.oauth.value.(status := Verified, subject := Some(subject), verifier := None, completedAt := Some(now));
      challenges := challenges[ctx.id := c.(oauth := Some(o))];
      outcome := Ok;
    }

    /** `recordFailedAccountDeletionProof`. */
    method RecordFailedProof(ctx: Context, now: int)
      modifies this`challenges
      ensures State() == RecordFailure(old(State()), ctx, now)
      ensures FailureMeans(old(State()), State(), ctx, now)
    {
      if Finds(State(), ctx) && challenges[ctx.id].consumedAt.None? && now < challenges[ctx.id].expiresAt
         && challenges[ctx.id].attempts < MAX_ATTEMPTS {
        challenges := challenges[ctx.id := challenges[ctx.id].(attempts := challenges[ctx.id].attempts + 1)];
      }
    }

    /** The checks of `completeAccountDeletionReauth` on the rows under its locks. */
    method CheckProof(ctx: Context, m: Method, p: Proof, ghost digest: Digest, now: int) returns (outcome: Outcome)
      ensures outcome == Complete(State(), ctx, m, p, digest, now).outcome
    {
      if !ActiveSession(State(), ctx.user, ctx.session) {
        return InvalidToken;
      }
      if !Finds(State(), ctx) {
        return InvalidChallenge;
      }
      var c := challenges[ctx.id];
      if c.consumedAt.Some? || c.attempts >= MAX_ATTEMPTS || c.via != m {
        return InvalidChallenge;
      }
      if c.expiresAt <= now {
        return ExpiredChallenge;
      }
      if !Available(State(), ctx.user, m) {
        return MethodUnavailable;
      }
      var linked := LinkedSubject(State(), ctx.user, m);
      if m.Password? && users[ctx.user].hash != p.hash {
        return ProofFailed;
      }
      if m.Apple? && (linked != p.subject || c.nonce.None? || c.nonce != p.nonce) {
        return ProofFailed;
      }
      if m.Google? && (!HasStatus(c, Verified) || c.oauth.value.subject != p.subject || linked != p.subject || c.nonce.None? || c.nonce != p.nonce) {
        return ProofFailed;
      }
      outcome := Ok;
    }

    /** `completeAccountDeletionReauth`. */
    method CompleteReauth(ctx: Context, m: Method, p: Proof, digest: Digest, now: int) returns (outcome: Outcome)
      modifies this`challenges, this`grants
      ensures Result(outcome, State()) == Complete(old(State()), ctx, m, p, digest, now)
      ensures CompleteMeans(old(State()), outcome, State(), ctx, m, p, digest, now)
    {
      CompleteIsMeant(State(), ctx, m, p, digest, now);
      outcome := CheckProof(ctx, m, p, digest, now);
      if outcome.Ok? {
        UseUp(ctx, digest, Grant(ctx.user, ctx.session, m, if m.Password? then None else p.subject, now + TTL_MS, None), now);
      }
    }

    /** Uses the challenge up for a grant that is the only open one of its session. */
    method UseUp(ctx: Context, digest: Digest, g: Grant, now: int)
      requires ctx.id in challenges
      modifies this`challenges, this`grants
      ensures State() == Granted(old(State()), ctx, digest, g, now)
    {
      challenges := challenges[ctx.id := challenges[ctx.id].(consumedAt := Some(now))];
      CloseGrants(ctx.session, now);
      grants := grants[digest := g];
    }

    /** `deleteAccountWithAuthorization`: the grant is consumed and the user deleted in one transaction. */
    method DeleteAccount(u: UserId, sid: SessionId, authorization: Option<Digest>, now: int) returns (outcome: Outcome)
      modifies this
      ensures Result(outcome, State()) == Delete(old(State()), u, sid, authorization, now)
      ensures DeleteMeans(old(State()), outcome, State(), u, sid, authorization, now)
    {
      DeleteIsMeant(State(), u, sid, authorization, now);
      if !ActiveSession(State(), u, sid) {
        return InvalidToken;
      }
      if authorization.None? {
        return InvalidAuthorization;
      }
      var d := authorization.value;
      if d !in grants || grants[d].user != u || grants[d].session != sid || grants[d].consumedAt.Some? {
        return InvalidAuthorization;
      }
      if grants[d].expiresAt <= now {
        return ExpiredAuthorization;
      }
      if grants[d].via.Password? {
        if users[u].hash.None? {
          return MethodUnavailable;
        }
      } else if grants[d].subject.None? || LinkedSubject(State(), u, grants[d].via) != grants[d].subject {
        return MethodUnavailable;
      }
      grants := grants[d := grants[d].(consumedAt := Some(now))];
      Erase(u);
      outcome := Ok;
    }

    /** The rows that go with a user. */
    method Erase(u: UserId)
      modifies this
      ensures State() == WithoutUser(old(State()), u)
    {
      var gone := set x | x in sessions && sessions[x].user == u;
      users, sessions := users - {u}, sessions - gone;
      challenges := map id | id in challenges && challenges[id].user != u && challenges[id].session !in gone :: challenges[id];
      grants := map x | x in grants && grants[x].user != u && grants[x].session !in gone :: grants[x];
    }
  }
}
