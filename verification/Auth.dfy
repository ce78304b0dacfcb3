/**
 Email codes, sessions and refresh tokens: the rows and each transaction over them.

 Password hashes, digests and codes are opaque values. One clock reading stands for the `NOW()` and
 `clock_timestamp()` calls of one transaction, and readings never go back in commit order.
 */
module Auth {
  import opened Wrappers

  type UserId = nat
  type SessionId = nat
  type CodeId = nat
  type Digest = nat
  type Hash = nat

  const SECOND_MS := 1000
  const MINUTE_MS := 60 * 1000
  const HOUR_MS := 60 * 60 * 1000
  const CODE_TTL_MS := 10 * 60 * 1000
  const MAX_CODES_PER_HOUR := 5
  const MAX_ATTEMPTS := 5

  datatype User = User(hash: Option<Hash>, verified: bool, legacyRevokedAt: Option<int>)

  /** The refresh credential of a session: its digest and expiry, which are null together. */
  datatype Credential = Credential(digest: Digest, expiresAt: int)

  datatype Session = Session(user: UserId, credential: Option<Credential>, revoked: bool)

  datatype Purpose = VerifyEmail | ResetPassword

  datatype Code = Code(user: UserId, purpose: Purpose, createdAt: int, expiresAt: int, consumed: bool, attempts: nat)

  datatype Db = Db(users: map<UserId, User>, sessions: map<SessionId, Session>, codes: map<CodeId, Code>)

  // ---- Email codes ----

  predicate Of(db: Db, id: CodeId, u: UserId, p: Purpose) {
    id in db.codes && db.codes[id].user == u && db.codes[id].purpose == p
  }

  predicate Open(db: Db, id: CodeId, u: UserId, p: Purpose) {
    Of(db, id, u, p) && !db.codes[id].consumed
  }

  function Recent(db: Db, u: UserId, p: Purpose, now: int): set<CodeId> {
    set id | id in db.codes && Of(db, id, u, p) && db.codes[id].createdAt > now - HOUR_MS
  }

  predicate CoolingDown(db: Db, u: UserId, p: Purpose, now: int) {
    exists id | id in db.codes :: Open(db, id, u, p) && db.codes[id].createdAt > now - MINUTE_MS
  }

  predicate MayIssue(db: Db, u: UserId, p: Purpose, now: int) {
    u in db.users && |Recent(db, u, p, now)| < MAX_CODES_PER_HOUR && !CoolingDown(db, u, p, now)
  }

  function CodesClosed(db: Db, u: UserId, p: Purpose): map<CodeId, Code> {
    map id | id in db.codes :: if Open(db, id, u, p) then db.codes[id].(consumed := true) else db.codes[id]
  }

  /** `issueChallenge`. */
  function IssueCode(db: Db, id: CodeId, u: UserId, p: Purpose, now: int): Db {
    if !MayIssue(db, u, p, now) then db
    else db.(codes := CodesClosed(db, u, p)[id := Code(u, p, now, now + CODE_TTL_MS, false, 0)])
  }

  /** `invalidateChallenge`. */
  function InvalidateCode(db: Db, id: CodeId): Db {
    if id in db.codes then db.(codes := db.codes[id := db.codes[id].(consumed := true)]) else db
  }

  predicate Usable(db: Db, id: CodeId, u: UserId, p: Purpose, now: int) {
    Open(db, id, u, p) && now < db.codes[id].expiresAt && db.codes[id].attempts < MAX_ATTEMPTS
  }

  /** `ORDER BY created_at DESC, id DESC`. */
  predicate Later(codes: map<CodeId, Code>, x: CodeId, y: CodeId)
    requires x in codes && y in codes
  {
    codes[y].createdAt < codes[x].createdAt || (codes[y].createdAt == codes[x].createdAt && y <= x)
  }

  predicate LatestOf(codes: map<CodeId, Code>, ids: set<CodeId>, id: CodeId)
    requires ids <= codes.Keys
  {
    id in ids && forall x | x in ids :: Later(codes, id, x)
  }

  function UsableCodes(db: Db, u: UserId, p: Purpose, now: int): set<CodeId> {
    set id | id in db.codes && Usable(db, id, u, p, now)
  }

  /** The code a guess is compared with. */
  predicate Latest(db: Db, id: CodeId, u: UserId, p: Purpose, now: int) {
    LatestOf(db.codes, UsableCodes(db, u, p, now), id)
  }

  function SessionsRevoked(db: Db, u: UserId): map<SessionId, Session> {
    map sid | sid in db.sessions :: if db.sessions[sid].user == u then db.sessions[sid].(revoked := true) else db.sessions[sid]
  }

  /** `consumeChallenge` on the code it picked: a wrong guess is counted, a right one is used up and takes effect. */
  function GuessCode(db: Db, id: CodeId, right: bool, newHash: Hash, now: int): Db
    requires id in db.codes && db.codes[id].user in db.users
  {
    var c := db.codes[id];
    var u := c.user;
    if !right then db.(codes := db.codes[id := c.(attempts := c.attempts + 1)])
    else
      var used := db.(codes := db.codes[id := c.(consumed := true)]);
      match c.purpose
      case VerifyEmail => used.(users := db.users[u := db.users[u].(verified := true)])
      case ResetPassword =>
        used.(users := db.users[u := db.users[u].(hash := Some(newHash), legacyRevokedAt := Some(now))],
              sessions := SessionsRevoked(db, u))
  }

  // ---- Sessions ----

  function NewSession(u: UserId, digest: Option<Digest>, ttlMs: nat, now: int): Session {
    Session(u, if digest.Some? then Some(Credential(digest.value, now + ttlMs)) else None, false)
  }

  /** `createSessionForPassword`: refused when the hash changed since the password was checked. */
  function LogIn(db: Db, sid: SessionId, u: UserId, expected: Hash, digest: Option<Digest>, ttlMs: nat, now: int): Db {
    if u in db.users && db.users[u].hash == Some(expected)
    then db.(sessions := db.sessions[sid := NewSession(u, digest, ttlMs, now)]) else db
  }

  /** A refresh token this session would accept now. */
  predicate Accepts(s: Session, digest: Digest, now: int) {
    !s.revoked && s.credential.Some? && s.credential.value.digest == digest && now < s.credential.value.expiresAt
  }

  function Rotated(db: Db, sid: SessionId, next: Digest, ttlMs: nat, now: int): Db
    requires sid in db.sessions
  {
    db.(sessions := db.sessions[sid := db.sessions[sid].(credential := Some(Credential(next, now + ttlMs)))])
  }

  /** `revokeSession`. */
  function Revoke(db: Db, sid: SessionId, u: UserId): Db {
    if sid in db.sessions && db.sessions[sid].user == u
    then db.(sessions := db.sessions[sid := db.sessions[sid].(revoked := true)]) else db
  }

  /** Whole seconds of an instant, as `FLOOR(EXTRACT(EPOCH ...))` and `Math.floor(ms / 1000)` give them. */
  function Seconds(at: int): int {
    at / SECOND_MS
  }

  /** A token stamped in whole seconds is no later than an instant in milliseconds. */
  lemma SecondsMean(issuedAt: int, at: int)
    ensures issuedAt <= Seconds(at) <==> issuedAt * 1000 <= at
  {
  }

  /** `revokeLegacyAccess`. */
  function RevokeLegacy(db: Db, u: UserId, issuedAt: int, now: int): Db {
    if u in db.users && (db.users[u].legacyRevokedAt.None? || Seconds(db.users[u].legacyRevokedAt.value) < issuedAt)
    then db.(users := db.users[u := db.users[u].(legacyRevokedAt := Some(now))]) else db
  }

  /** `authenticate` on a token without a session id, issued at second `issuedAt`. */
  predicate LegacyRejected(db: Db, u: UserId, issuedAt: int) {
    u in db.users && db.users[u].legacyRevokedAt.Some? && issuedAt <= Seconds(db.users[u].legacyRevokedAt.value)
  }

  function WithoutUser(db: Db, u: UserId): Db {
    Db(db.users - {u},
       map sid | sid in db.sessions && db.sessions[sid].user != u :: db.sessions[sid],
       map id | id in db.codes && db.codes[id].user != u :: db.codes[id])
  }

  predicate HasDigest(s: Session, digest: Digest) {
    s.credential.Some? && s.credential.value.digest == digest
  }

  /** The unique index on refresh digests. */
  ghost predicate DigestsDistinct(db: Db) {
    forall x, y, d | x in db.sessions && y in db.sessions && HasDigest(db.sessions[x], d) && HasDigest(db.sessions[y], d) :: x == y
  }

  // ---- The tables, updated in place ----

  /** A statement with candidates has a latest one to pick. */
  lemma {:induction false} LatestExists(codes: map<CodeId, Code>, ids: set<CodeId>)
    requires ids != {} && ids <= codes.Keys
    ensures exists id | id in ids :: LatestOf(codes, ids, id)
  {
    var x :| x in ids;
    if ids == {x} {
      assert LatestOf(codes, ids, x);
    } else {
      LatestExists(codes, ids - {x});
      var y :| y in ids - {x} && LatestOf(codes, ids - {x}, y);
      var best := if Later(codes, x, y) then x else y;
      forall z | z in ids ensures Later(codes, best, z) {
        assert z == x || z in ids - {x};
      }
      assert LatestOf(codes, ids, best);
    }
  }

  /** The only open code of its user and purpose, usable until it expires. */
  ghost predicate OnlyOpenCode(db: Db, id: CodeId, u: UserId, p: Purpose, now: int) {
    && (forall x: CodeId :: Open(db, x, u, p) <==> x == id)
    && (forall t :: Usable(db, id, u, p, t) <==> t < now + CODE_TTL_MS)
  }

  ghost predicate OtherCodesStand(before: Db, after: Db, id: CodeId, u: UserId, p: Purpose) {
    forall x | x in before.codes && x != id && !Of(before, x, u, p) :: x in after.codes && after.codes[x] == before.codes[x]
  }

  /** Fewer than five codes within the hour, none of them open and younger than a minute. */
  predicate UnderLimits(db: Db, u: UserId, p: Purpose, now: int) {
    && |set id | id in db.codes && db.codes[id].user == u && db.codes[id].purpose == p && now - 60 * 60 * 1000 < db.codes[id].createdAt| < 5
    && forall id | id in db.codes && db.codes[id].user == u && db.codes[id].purpose == p && !db.codes[id].consumed :: db.codes[id].createdAt <= now - 60 * 1000
  }

  /** The codes issued before are used up, and are otherwise as they were. */
  ghost predicate OlderCodesClosed(before: Db, after: Db, id: CodeId, u: UserId, p: Purpose) {
    && after.codes.Keys == before.codes.Keys + {id} && after.users == before.users && after.sessions == before.sessions
    && forall x | x in before.codes && x != id && Of(before, x, u, p) :: after.codes[x] == before.codes[x].(consumed := true)
  }

  lemma LimitsAre(db: Db, u: UserId, p: Purpose, now: int)
    ensures MayIssue(db, u, p, now) <==> u in db.users && UnderLimits(db, u, p, now)
  {
    assert Recent(db, u, p, now)
           == set id | id in db.codes && db.codes[id].user == u && db.codes[id].purpose == p && now - 60 * 60 * 1000 < db.codes[id].createdAt;
    if CoolingDown(db, u, p, now) {
      var id :| id in db.codes && Open(db, id, u, p) && db.codes[id].createdAt > now - MINUTE_MS;
      assert !UnderLimits(db, u, p, now);
    } else {
      forall id | id in db.codes && db.codes[id].user == u && db.codes[id].purpose == p && !db.codes[id].consumed
        ensures db.codes[id].createdAt <= now - 60 * 1000
      {
        assert Open(db, id, u, p);
      }
    }
  }

  lemma IssueIsMeant(db: Db, id: CodeId, u: UserId, p: Purpose, now: int)
    ensures var after := IssueCode(db, id, u, p, now);
            && OtherCodesStand(db, after, id, u, p)
            && if MayIssue(db, u, p, now) then OnlyOpenCode(after, id, u, p, now) && OlderCodesClosed(db, after, id, u, p) else after == db
  {
  }

  /** No other code, session or user is touched. */
  ghost predicate OnlyCode(before: Db, after: Db, id: CodeId) {
    after.codes.Keys == before.codes.Keys && after.codes - {id} == before.codes - {id}
  }

  /** A wrong guess counts one attempt of the code it was compared with, and does nothing else. */
  ghost predicate MissMeans(before: Db, after: Db, id: CodeId) {
    && id in before.codes && OnlyCode(before, after, id) && after.users == before.users && after.sessions == before.sessions
    && after.codes[id] == before.codes[id].(attempts := before.codes[id].attempts + 1)
  }

  /** A right guess uses the code up and nothing else of the codes. */
  ghost predicate UsedUp(before: Db, after: Db, id: CodeId) {
    && id in before.codes && OnlyCode(before, after, id) && after.codes[id] == before.codes[id].(consumed := true)
    && forall u, p, t :: !Usable(after, id, u, p, t)
  }

  ghost predicate OtherUsersStand(before: Db, after: Db, u: UserId) {
    && after.users.Keys == before.users.Keys && after.users - {u} == before.users - {u} && after.sessions.Keys == before.sessions.Keys
    && forall sid | sid in before.sessions && before.sessions[sid].user != u :: after.sessions[sid] == before.sessions[sid]
  }

  /** Verifying an address sets that mark of its user and nothing else. */
  ghost predicate VerifyMeans(before: Db, after: Db, u: UserId) {
    && u in before.users && OtherUsersStand(before, after, u) && after.sessions == before.sessions
    && after.users[u].verified && after.users[u].hash == before.users[u].hash
    && after.users[u].legacyRevokedAt == before.users[u].legacyRevokedAt
  }

  /** A reset gives the user the new password, ends every session of theirs and rejects every older token without one. */
  ghost predicate ResetMeans(before: Db, after: Db, u: UserId, newHash: Hash, now: int) {
    && u in before.users && OtherUsersStand(before, after, u)
    && after.users[u].hash == Some(newHash) && after.users[u].verified == before.users[u].verified
    && (forall issuedAt :: LegacyRejected(after, u, issuedAt) <==> issuedAt * 1000 <= now)
    && (forall sid | sid in before.sessions && before.sessions[sid].user == u ::
          after.sessions[sid].revoked && after.sessions[sid].user == u && forall d, t :: !Accepts(after.sessions[sid], d, t))
  }

  lemma GuessIsMeant(db: Db, id: CodeId, right: bool, newHash: Hash, now: int)
    requires id in db.codes && db.codes[id].user in db.users
    ensures var after := GuessCode(db, id, right, newHash, now);
            if !right then MissMeans(db, after, id)
            else UsedUp(db, after, id)
                 && match db.codes[id].purpose
                    case VerifyEmail => VerifyMeans(db, after, db.codes[id].user)
                    case ResetPassword => ResetMeans(db, after, db.codes[id].user, newHash, now)
  {
    if right && db.codes[id].purpose.ResetPassword? {
      var after, u := GuessCode(db, id, right, newHash, now), db.codes[id].user;
      forall issuedAt ensures LegacyRejected(after, u, issuedAt) <==> issuedAt * 1000 <= now {
        SecondsMean(issuedAt, now);
      }
    }
  }

  /** An unused code of this user and purpose, in time and with guesses left. */
  predicate MayStillMatch(c: Code, u: UserId, p: Purpose, now: int) {
    c.user == u && c.purpose == p && !c.consumed && now < c.expiresAt && c.attempts < 5
  }

  /** Of these codes it is the one issued last. */
  predicate IsNewest(db: Db, id: CodeId, u: UserId, p: Purpose, now: int) {
    && id in db.codes && MayStillMatch(db.codes[id], u, p, now)
    && forall x | x in db.codes && MayStillMatch(db.codes[x], u, p, now) :: db.codes[x].createdAt <= db.codes[id].createdAt
  }

  class AuthTables {
    var users: map<UserId, User>
    var sessions: map<SessionId, Session>
    var codes: map<CodeId, Code>

    function State(): Db
      reads this
    {
      Db(users, sessions, codes)
    }

    constructor ()
      ensures State() == Db(map[], map[], map[])
    {
      users, sessions, codes := map[], map[], map[];
    }

    /** The aggregate query over the codes of the last hour. */
    method CountRecent(u: UserId, p: Purpose, now: int) returns (count: nat, coolingDown: bool)
      ensures count == |Recent(State(), u, p, now)| && (coolingDown <==> CoolingDown(State(), u, p, now))
    {
      var recent := Recent(State(), u, p, now);
      count := |recent|;
      coolingDown := exists x | x in recent :: !codes[x].consumed && codes[x].createdAt > now - MINUTE_MS;
      if CoolingDown(State(), u, p, now) {
        ghost var x :| x in codes && Open(State(), x, u, p) && codes[x].createdAt > now - MINUTE_MS;
        assert x in recent;
      }
    }

    /** `issueChallenge`; `None` when the user is gone. */
    method IssueChallenge(id: CodeId, u: UserId, p: Purpose, now: int) returns (issued: Option<bool>)
      modifies this`codes
      ensures State() == IssueCode(old(State()), id, u, p, now)
      ensures issued == if u !in users then None else Some(MayIssue(old(State()), u, p, now))
      ensures issued == Some(true) <==> u in users && UnderLimits(old(State()), u, p, now)
      ensures issued == Some(true) ==> OnlyOpenCode(State(), id, u, p, now) && OlderCodesClosed(old(State()), State(), id, u, p)
      ensures issued != Some(true) ==> State() == old(State())
      ensures OtherCodesStand(old(State()), State(), id, u, p)
    {
      IssueIsMeant(State(), id, u, p, now);
      LimitsAre(State(), u, p, now);
      if u !in users {
        return None;
      }
      var recent, coolingDown := CountRecent(u, p, now);
      if recent >= MAX_CODES_PER_HOUR || coolingDown {
        return Some(false);
      }
      CloseCodes(u, p);
      codes := codes[id := Code(u, p, now, now + CODE_TTL_MS, false, 0)];
      issued := Some(true);
    }

    method CloseCodes(u: UserId, p: Purpose)
      modifies this`codes
      ensures codes == CodesClosed(old(State()), u, p)
    {
      codes := map x | x in codes ::
        if codes[x].user == u && codes[x].purpose == p && !codes[x].consumed then codes[x].(consumed := true) else codes[x];
    }

    /** `invalidateChallenge`. */
    method Invalidate(id: CodeId)
      modifies this`codes
      ensures State() == InvalidateCode(old(State()), id)
      ensures codes.Keys == old(codes).Keys && codes - {id} == old(codes) - {id} && forall u, p :: !Open(State(), id, u, p)
    {
      if id in codes && !codes[id].consumed {
        codes := codes[id := codes[id].(consumed := true)];
      }
    }

    /** The `SELECT ... FOR UPDATE` of `consumeChallenge`. */
    method PickCode(u: UserId, p: Purpose, now: int) returns (picked: Option<CodeId>)
      ensures picked.Some? ==> Latest(State(), picked.value, u, p, now) && IsNewest(State(), picked.value, u, p, now)
      ensures picked.None? ==> forall id :: !Usable(State(), id, u, p, now)
    {
      var usable := UsableCodes(State(), u, p, now);
      if usable == {} {
        assert forall id :: Usable(State(), id, u, p, now) ==> id in usable;
        return None;
      }
      LatestExists(codes, usable);
      var id :| id in usable && LatestOf(codes, usable, id);
      forall x | x in codes && MayStillMatch(codes[x], u, p, now) ensures Later(codes, id, x) {
        assert x in usable;
      }
      picked := Some(id);
    }

    method UseCode(id: CodeId, newHash: Hash, now: int)
      requires id in codes && codes[id].user in users
      modifies this
      ensures State() == GuessCode(old(State()), id, true, newHash, now)
    {
      var u, p := codes[id].user, codes[id].purpose;
      codes := codes[id := codes[id].(consumed := true)];
      if p.VerifyEmail? {
        users := users[u := users[u].(verified := true)];
      } else {
        users := users[u := users[u].(hash := Some(newHash), legacyRevokedAt := Some(now))];
        sessions := map sid | sid in sessions ::
          if sessions[sid].user == u && !sessions[sid].revoked then sessions[sid].(revoked := true) else sessions[sid];
      }
    }

    /** `consumeChallenge`; `matching` are the codes the guess would match, and `picked` is the one it is compared with. */
    method ConsumeChallenge(u: UserId, p: Purpose, matching: set<CodeId>, newHash: Hash, now: int)
      returns (ok: Option<bool>, picked: Option<CodeId>)
      modifies this
      ensures ok.None? <==> u !in old(users)
      ensures picked.None? ==> ok != Some(true) && State() == old(State()) && (u in users ==> forall id :: !Usable(State(), id, u, p, now))
      ensures picked.Some? ==>
                && u in old(users) && Latest(old(State()), picked.value, u, p, now) && IsNewest(old(State()), picked.value, u, p, now)
                && ok == Some(picked.value in matching)
                && State() == GuessCode(old(State()), picked.value, picked.value in matching, newHash, now)
      // A wrong guess counts against the code it was compared with and changes nothing else.
      ensures picked.Some? && ok == Some(false) ==> MissMeans(old(State()), State(), picked.value)
      // A right one uses the code up and takes the effect of its purpose.
      ensures ok == Some(true) ==> picked.Some? && UsedUp(old(State()), State(), picked.value)
      ensures ok == Some(true) && p.VerifyEmail? ==> VerifyMeans(old(State()), State(), u)
      ensures ok == Some(true) && p.ResetPassword? ==> ResetMeans(old(State()), State(), u, newHash, now)
    {
      picked := None;
      if u !in users {
        return None, None;
      }
      picked := PickCode(u, p, now);
      if picked.None? {
        return Some(false), None;
      }
      var id := picked.value;
      GuessIsMeant(State(), id, id in matching, newHash, now);
      if id !in matching {
        codes := codes[id := codes[id].(attempts := codes[id].attempts + 1)];
        return Some(false), picked;
      }
      UseCode(id, newHash, now);
      ok := Some(true);
    }

    /** `createSessionForPassword`. */
    method CreateSessionForPassword(sid: SessionId, u: UserId, expected: Hash, digest: Option<Digest>, ttlMs: nat, now: int)
      returns (created: bool)
      modifies this`sessions
      ensures State() == LogIn(old(State()), sid, u, expected, digest, ttlMs, now)
      ensures created <==> u in users && users[u].hash == Some(expected)
      // The session accepts exactly the token drawn for it, until that expires; no other session is touched.
      ensures created ==>
                && sid in sessions && sessions[sid].user == u && !sessions[sid].revoked
                && forall x: Digest, t: int :: Accepts(sessions[sid], x, t) <==> digest == Some(x) && t < now + ttlMs
      ensures sessions - {sid} == old(sessions) - {sid} && (!created ==> State() == old(State()))
    {
      if u !in users || users[u].hash != Some(expected) {
        return false;
      }
      sessions := sessions[sid := NewSession(u, digest, ttlMs, now)];
      created := true;
    }

    /** `rotateRefreshToken`; nothing is kept when the new access token cannot be signed. */
    method RotateRefreshToken(digest: Option<Digest>, next: Digest, signs: bool, ttlMs: nat, now: int) returns (rotated: Option<SessionId>)
      requires DigestsDistinct(State())
      modifies this`sessions
      ensures rotated.None? ==> State() == old(State())
      ensures rotated.None? && digest.Some? && signs ==>
                forall sid | sid in sessions && sessions[sid].user in users :: !Accepts(sessions[sid], digest.value, now)
      ensures rotated.Some? ==>
                && digest.Some? && signs && rotated.value in old(sessions) && Accepts(old(sessions)[rotated.value], digest.value, now)
                && State() == Rotated(old(State()), rotated.value, next, ttlMs, now)
      // The session then accepts the new token alone, until that expires; whose it is and every other session stay.
      ensures rotated.Some? ==>
                && sessions.Keys == old(sessions).Keys && sessions - {rotated.value} == old(sessions) - {rotated.value}
                && sessions[rotated.value].user == old(sessions)[rotated.value].user
                && forall x: Digest, t: int :: Accepts(sessions[rotated.value], x, t) <==> x == next && t < now + ttlMs
    {
      if digest.None? {
        return None;
      }
      var found := set sid | sid in sessions && HasDigest(sessions[sid], digest.value) && sessions[sid].user in users;
      if found == {} {
        forall sid | sid in sessions && sessions[sid].user in users ensures !Accepts(sessions[sid], digest.value, now) {
          assert sid !in found;
        }
        return None;
      }
      var sid :| sid in found;
      var row := sessions[sid];
      if row.revoked || row.credential.value.expiresAt <= now {
        return None;
      }
      if !signs {
        return None;
      }
      sessions := sessions[sid := row.(credential := Some(Credential(next, now + ttlMs)))];
      rotated := Some(sid);
    }

    /** `revokeSession`. */
    method RevokeSession(sid: SessionId, u: UserId)
      modifies this`sessions
      ensures State() == Revoke(old(State()), sid, u)
      ensures sid in sessions && sessions[sid].user == u ==> sessions[sid].revoked && forall d, t :: !Accepts(sessions[sid], d, t)
      ensures sessions.Keys == old(sessions).Keys && sessions - {sid} == old(sessions) - {sid}
      ensures sid in old(sessions) ==> sessions[sid] == old(sessions)[sid].(revoked := sessions[sid].revoked)
      ensures sid in old(sessions) && old(sessions)[sid].user != u ==> State() == old(State())
    {
      if sid in sessions && sessions[sid].user == u && !sessions[sid].revoked {
        sessions := sessions[sid := sessions[sid].(revoked := true)];
      }
    }

    /** `revokeLegacyAccess`. */
    method RevokeLegacyAccess(u: UserId, issuedAt: int, now: int)
      modifies this`users
      ensures State() == RevokeLegacy(old(State()), u, issuedAt, now)
      ensures LegacyRejected(State(), u, issuedAt) <==>
                u in users && (issuedAt * 1000 <= now || LegacyRejected(old(State()), u, issuedAt))
      ensures users.Keys == old(users).Keys && users - {u} == old(users) - {u}
      ensures u in users ==>
                && users[u] == old(users)[u].(legacyRevokedAt := users[u].legacyRevokedAt)
                && (users[u] == old(users)[u] || users[u].legacyRevokedAt == Some(now))
    {
      SecondsMean(issuedAt, now);
      if u in users && (users[u].legacyRevokedAt.None? || Seconds(users[u].legacyRevokedAt.value) < issuedAt) {
        users := users[u := users[u].(legacyRevokedAt := Some(now))];
      }
    }
  }
}
