/**
 Email codes and sessions as a state machine: logins, resets, refreshes, guesses and revocations interleave.
 One step is one transaction, one statement, or one password check outside any transaction.
 `History` records what was ever issued; no code reads it, except that drawn identifiers are new.
 */
module AuthProtocol {
  import opened Wrappers
  import opened Auth

  /** A password login between reading the hash and creating its session. */
  datatype Login = Login(user: UserId, expected: Hash, checked: bool)

  datatype History = History(users: set<UserId>, sessions: set<SessionId>, codes: set<CodeId>,
                             digests: set<Digest>, accepted: set<Digest>, proved: map<SessionId, Hash>)

  datatype World = World(now: int, db: Db, logins: map<nat, Login>, past: History)

  datatype EnvAct =
    | Tick(elapsed: nat)
    | AddUser(user: UserId, row: User)
    | RemoveUser(user: UserId)

  datatype CodeAct =
    | Request(id: CodeId, user: UserId, purpose: Purpose)
    | Invalidated(id: CodeId)
    | Guess(id: CodeId, user: UserId, purpose: Purpose, right: bool, newHash: Hash)

  datatype SessionAct =
    | SignUp(user: UserId, hash: Hash, sid: SessionId, digest: Option<Digest>)
    | SignIn(user: UserId, sid: SessionId, digest: Option<Digest>)
    | ReadHash(r: nat, user: UserId)
    | Check(r: nat, right: bool)
    | CreateSession(r: nat, sid: SessionId, digest: Option<Digest>)
    | Rotate(sid: SessionId, presented: Digest, next: Digest)
    | Logout(sid: SessionId, user: UserId)
    | LegacyLogout(user: UserId, issuedAt: int)

  datatype Step = Env(env: EnvAct) | OfCode(code: CodeAct) | OfSession(session: SessionAct)

  const REFRESH_TTL_MS: nat := 30 * 24 * HOUR_MS

  /** A wrong guess is evaluated against this code. */
  predicate Misses(step: Step, u: UserId, p: Purpose) {
    step.OfCode? && step.code.Guess? && !step.code.right && step.code.user == u && step.code.purpose == p
  }

  predicate ResetsPassword(step: Step, u: UserId) {
    step.OfCode? && step.code.Guess? && step.code.right && step.code.purpose.ResetPassword? && step.code.user == u
  }

  predicate AcceptsRefresh(step: Step, d: Digest) {
    step.OfSession? && step.session.Rotate? && step.session.presented == d
  }

  function Digests(d: Option<Digest>): set<Digest> {
    if d.Some? then {d.value} else {}
  }

  predicate LogsIn(s: World, act: SessionAct) {
    && act.CreateSession? && act.r in s.logins && s.logins[act.r].checked
    && s.logins[act.r].user in s.db.users && s.db.users[s.logins[act.r].user].hash == Some(s.logins[act.r].expected)
  }

  function Recorded(s: World, step: Step): History {
    var p := s.past;
    match step
    case Env(act) => if act.AddUser? then p.(users := p.users + {act.user}) else p
    case OfCode(act) => if act.Request? then p.(codes := p.codes + {act.id}) else p
    case OfSession(act) =>
      match act
      case SignUp(u, h, sid, d) =>
        p.(users := p.users + {u}, sessions := p.sessions + {sid}, digests := p.digests + Digests(d), proved := p.proved[sid := h])
      case SignIn(_, sid, d) => p.(sessions := p.sessions + {sid}, digests := p.digests + Digests(d))
      case CreateSession(r, sid, d) =>
        p.(sessions := p.sessions + {sid}, digests := p.digests + Digests(d),
           proved := if LogsIn(s, act) then p.proved[sid := s.logins[r].expected] else p.proved)
      case Rotate(_, d, next) => p.(digests := p.digests + {next}, accepted := p.accepted + {d})
      case _ => p
  }

  predicate NewCredential(s: World, sid: SessionId, d: Option<Digest>) {
    sid !in s.past.sessions && (d.Some? ==> d.value !in s.past.digests)
  }

  ghost predicate EnvNext(s: World, act: EnvAct, s': World) {
    match act
    case Tick(d) => s' == s.(now := s.now + d, past := s'.past)
    case AddUser(u, row) =>
      && u !in s.past.users && row.legacyRevokedAt.None?
      && s' == s.(db := s.db.(users := s.db.users[u := row]), past := s'.past)
    case RemoveUser(u) => s' == s.(db := WithoutUser(s.db, u), past := s'.past)
  }

  ghost predicate CodeNext(s: World, act: CodeAct, s': World) {
    match act
    case Request(id, u, p) => id !in s.past.codes && s' == s.(db := IssueCode(s.db, id, u, p, s.now), past := s'.past)
    case Invalidated(id) => s' == s.(db := InvalidateCode(s.db, id), past := s'.past)
    case Guess(id, u, p, right, newHash) =>
      && u in s.db.users && Latest(s.db, id, u, p, s.now)
      // Only an account that has a password can reset it, and none ever loses it.
      && (p.ResetPassword? ==> s.db.users[u].hash.Some?)
      && s' == s.(db := GuessCode(s.db, id, right, newHash, s.now), past := s'.past)
  }

  ghost predicate SessionNext(s: World, act: SessionAct, s': World) {
    match act
    case SignUp(u, h, sid, d) =>
      && u !in s.past.users && NewCredential(s, sid, d)
      && s' == s.(db := s.db.(users := s.db.users[u := User(Some(h), false, None)],
                              sessions := s.db.sessions[sid := NewSession(u, d, REFRESH_TTL_MS, s.now)]),
                  past := s'.past)
    case SignIn(u, sid, d) =>
      && u in s.db.users && NewCredential(s, sid, d)
      && s' == s.(db := s.db.(sessions := s.db.sessions[sid := NewSession(u, d, REFRESH_TTL_MS, s.now)]), past := s'.past)
    case ReadHash(r, u) =>
      && r !in s.logins && u in s.db.users && s.db.users[u].hash.Some?
      && s' == s.(logins := s.logins[r := Login(u, s.db.users[u].hash.value, false)], past := s'.past)
    case Check(r, right) =>
      && r in s.logins
      && s' == s.(logins := if right then s.logins[r := s.logins[r].(checked := true)] else s.logins - {r}, past := s'.past)
    case CreateSession(r, sid, d) =>
      && r in s.logins && s.logins[r].checked && NewCredential(s, sid, d)
      && var l := s.logins[r];
      && s' == s.(db := LogIn(s.db, sid, l.user, l.expected, d, REFRESH_TTL_MS, s.now), logins := s.logins - {r}, past := s'.past)
    case Rotate(sid, d, next) =>
      && sid in s.db.sessions && Accepts(s.db.sessions[sid], d, s.now) && next !in s.past.digests
      && s' == s.(db := Rotated(s.db, sid, next, REFRESH_TTL_MS, s.now), past := s'.past)
    case Logout(sid, u) => s' == s.(db := Revoke(s.db, sid, u), past := s'.past)
    // The token may be stamped by a clock ahead of the database's.
    case LegacyLogout(u, issuedAt) => s' == s.(db := RevokeLegacy(s.db, u, issuedAt, s.now), past := s'.past)
  }

  ghost predicate Next(s: World, step: Step, s': World) {
    && s'.past == Recorded(s, step)
    && match step
       case Env(act) => EnvNext(s, act, s')
       case OfCode(act) => CodeNext(s, act, s')
       case OfSession(act) => SessionNext(s, act, s')
  }

  /** Any accounts; no session or code exists yet. */
  ghost predicate Init(s: World) {
    && s.db.sessions == map[] && s.db.codes == map[] && s.logins == map[]
    && (forall u | u in s.db.users :: s.db.users[u].legacyRevokedAt.None?)
    && s.past == History(s.db.users.Keys, {}, {}, {}, {}, map[])
  }

  ghost predicate IsRun(run: seq<World>, steps: seq<Step>) {
    && |run| == |steps| + 1 && Init(run[0])
    && forall i | 0 <= i < |steps| :: StepAt(run, steps, i)
  }

  ghost predicate StepAt(run: seq<World>, steps: seq<Step>, i: nat)
    requires i < |steps| < |run|
  {
    Next(run[i], steps[i], run[i + 1])
  }

  // ---- Invariant ----

  ghost predicate Known(s: World) {
    && s.db.users.Keys <= s.past.users && s.db.sessions.Keys <= s.past.sessions && s.db.codes.Keys <= s.past.codes
    && s.past.proved.Keys <= s.past.sessions && s.past.accepted <= s.past.digests
  }

  /** No revocation instant lies in the future. */
  ghost predicate LegacyOk(s: World) {
    forall u | u in s.db.users && s.db.users[u].legacyRevokedAt.Some? :: s.db.users[u].legacyRevokedAt.value <= s.now
  }

  ghost predicate CodesOk(s: World) {
    && (forall id | id in s.db.codes :: s.db.codes[id].attempts <= MAX_ATTEMPTS && s.db.codes[id].createdAt <= s.now
                                        && s.db.codes[id].user in s.db.users)
    && OneOpen(s.db)
  }

  /** A user has at most one open code per purpose. */
  ghost predicate OneOpen(db: Db) {
    forall x, y, u, p | Open(db, x, u, p) && Open(db, y, u, p) :: x == y
  }

  ghost predicate DigestsOk(s: World) {
    && DigestsDistinct(s.db)
    && (forall sid, d | sid in s.db.sessions && HasDigest(s.db.sessions[sid], d) :: d in s.past.digests && d !in s.past.accepted)
  }

  /** Every live session born of a password was proved with the hash its user has now. */
  ghost predicate ProvedWithCurrentHash(s: World) {
    && (forall sid | sid in s.db.sessions :: s.db.sessions[sid].user in s.db.users)
    && (forall sid | sid in s.db.sessions && sid in s.past.proved && !s.db.sessions[sid].revoked ::
          s.db.users[s.db.sessions[sid].user].hash == Some(s.past.proved[sid]))
  }

  ghost predicate Inv(s: World) {
    Known(s) && LegacyOk(s) && CodesOk(s) && DigestsOk(s) && ProvedWithCurrentHash(s)
  }

  lemma KnownStep(s: World, step: Step, s': World)
    requires Known(s) && Next(s, step, s') && CodesOk(s) && DigestsOk(s)
    ensures Known(s')
  {
    match step
    case Env(_) =>
    case OfCode(act) => KnownCode(s, act, s');
    case OfSession(act) =>
      if act.Rotate? { assert HasDigest(s.db.sessions[act.sid], act.presented); }
  }

  lemma KnownCode(s: World, act: CodeAct, s': World)
    requires Known(s) && CodesOk(s) && CodeNext(s, act, s') && s'.past == Recorded(s, OfCode(act))
    ensures Known(s')
  {
  }

  lemma LegacyStep(s: World, step: Step, s': World)
    requires LegacyOk(s) && CodesOk(s) && Next(s, step, s')
    ensures LegacyOk(s')
  {
    match step
    case Env(_) =>
    case OfCode(act) => LegacyCode(s, act, s');
    case OfSession(act) => LegacySession(s, act, s');
  }

  lemma LegacyCode(s: World, act: CodeAct, s': World)
    requires LegacyOk(s) && CodesOk(s) && CodeNext(s, act, s')
    ensures LegacyOk(s')
  {
  }

  lemma LegacySession(s: World, act: SessionAct, s': World)
    requires LegacyOk(s) && SessionNext(s, act, s')
    ensures LegacyOk(s')
  {
  }

  lemma FewerOpen(db: Db, db': Db)
    requires OneOpen(db) && forall x | x in db'.codes :: x in db.codes && CodeMoves(db.codes[x], db'.codes[x])
    ensures OneOpen(db')
  {
    forall x, u, p | Open(db', x, u, p) ensures Open(db, x, u, p) {}
  }

  /** What a transaction may do to an existing code. */
  predicate CodeMoves(c: Code, c': Code) {
    && c' == c.(consumed := c'.consumed, attempts := c'.attempts)
    && (c.consumed ==> c'.consumed) && c.attempts <= c'.attempts
  }

  lemma IssueOpens(db: Db, id: CodeId, u: UserId, p: Purpose, now: int)
    requires OneOpen(db) && id !in db.codes
    ensures OneOpen(IssueCode(db, id, u, p, now))
    ensures forall x | x in IssueCode(db, id, u, p, now).codes && x != id ::
              x in db.codes && CodeMoves(db.codes[x], IssueCode(db, id, u, p, now).codes[x])
  {
    var db' := IssueCode(db, id, u, p, now);
    if db' != db {
      forall x, v, q | Open(db', x, v, q) ensures if x == id then v == u && q == p else Open(db, x, v, q) && !(v == u && q == p) {}
    }
  }

  lemma CodesStep(s: World, step: Step, s': World)
    requires CodesOk(s) && Known(s) && Next(s, step, s')
    ensures CodesOk(s')
    ensures forall x | x in s'.db.codes && x in s.past.codes :: x in s.db.codes && CodeMoves(s.db.codes[x], s'.db.codes[x])
  {
    match step
    case Env(_) => FewerOpen(s.db, s'.db);
    case OfCode(act) => CodeActStep(s, act, s');
    case OfSession(act) => CodesUntouched(s, act, s');
  }

  lemma CodesUntouched(s: World, act: SessionAct, s': World)
    requires SessionNext(s, act, s') && CodesOk(s)
    ensures s'.db.codes == s.db.codes && CodesOk(s')
  {
    assert s'.db.codes == s.db.codes && s.db.users.Keys <= s'.db.users.Keys && s'.now == s.now;
    FewerOpen(s.db, s'.db);
  }

  lemma CodeActStep(s: World, act: CodeAct, s': World)
    requires CodesOk(s) && Known(s) && CodeNext(s, act, s')
    ensures CodesOk(s')
    ensures forall x | x in s'.db.codes && x in s.past.codes :: x in s.db.codes && CodeMoves(s.db.codes[x], s'.db.codes[x])
  {
    match act
    case Request(id, u, p) => IssueOpens(s.db, id, u, p, s.now);
    case Invalidated(_) => FewerOpen(s.db, s'.db);
    case Guess(_, _, _, _, _) => FewerOpen(s.db, s'.db);
  }

  lemma DigestsStep(s: World, step: Step, s': World)
    requires DigestsOk(s) && Known(s) && Next(s, step, s')
    ensures DigestsOk(s')
  {
    match step
    case Env(_) => FewerDigests(s, s');
    case OfCode(act) => CodeKeepsDigests(s, act, s');
    case OfSession(act) =>
      if act.Rotate? { RotateDigests(s, act, s'); } else { SessionDigests(s, act, s'); }
  }

  /** Sessions that were there before keep or lose their digests. */
  lemma FewerDigests(s: World, s': World)
    requires DigestsOk(s) && s'.past.accepted == s.past.accepted && s.past.digests <= s'.past.digests
    requires forall sid: SessionId, d: Digest | sid in s'.db.sessions && HasDigest(s'.db.sessions[sid], d) ::
               sid in s.db.sessions && HasDigest(s.db.sessions[sid], d)
    ensures DigestsOk(s')
  {
  }

  lemma CodeKeepsDigests(s: World, act: CodeAct, s': World)
    requires DigestsOk(s) && CodeNext(s, act, s') && s'.past == Recorded(s, OfCode(act))
    ensures DigestsOk(s')
  {
    FewerDigests(s, s');
  }

  lemma RotateDigests(s: World, act: SessionAct, s': World)
    requires DigestsOk(s) && Known(s) && act.Rotate? && SessionNext(s, act, s') && s'.past == Recorded(s, OfSession(act))
    ensures DigestsOk(s')
  {
    assert HasDigest(s.db.sessions[act.sid], act.presented);
    forall x, e | x in s'.db.sessions && HasDigest(s'.db.sessions[x], e)
      ensures if x == act.sid then e == act.next else HasDigest(s.db.sessions[x], e) && e != act.presented
    {}
  }

  lemma SessionDigests(s: World, act: SessionAct, s': World)
    requires DigestsOk(s) && Known(s) && !act.Rotate? && SessionNext(s, act, s') && s'.past == Recorded(s, OfSession(act))
    ensures DigestsOk(s')
  {
    match act
    case SignUp(_, _, sid, d) => NewDigest(s, sid, d, s');
    case SignIn(_, sid, d) => NewDigest(s, sid, d, s');
    case CreateSession(_, sid, d) => NewDigest(s, sid, d, s');
    case _ => FewerDigests(s, s');
  }

  /** A new session with a digest never drawn before. */
  lemma NewDigest(s: World, sid: SessionId, d: Option<Digest>, s': World)
    requires DigestsOk(s) && Known(s) && NewCredential(s, sid, d)
    requires s'.past.accepted == s.past.accepted && s'.past.digests == s.past.digests + Digests(d)
    requires forall x | x in s'.db.sessions && x != sid :: x in s.db.sessions && s'.db.sessions[x] == s.db.sessions[x]
    requires forall e: Digest | sid in s'.db.sessions && HasDigest(s'.db.sessions[sid], e) :: d == Some(e)
    ensures DigestsOk(s')
  {
    forall x, e | x in s'.db.sessions && x != sid && HasDigest(s'.db.sessions[x], e) ensures HasDigest(s.db.sessions[x], e) {}
  }

  lemma ProvedStep(s: World, step: Step, s': World)
    requires ProvedWithCurrentHash(s) && Known(s) && CodesOk(s) && Next(s, step, s')
    ensures ProvedWithCurrentHash(s')
  {
    match step
    case Env(_) =>
    case OfCode(act) => ProvedCode(s, act, s');
    case OfSession(act) => ProvedSession(s, act, s');
  }

  /** A reset changes the hash and revokes every session of its user; other code steps touch neither. */
  lemma ProvedCode(s: World, act: CodeAct, s': World)
    requires ProvedWithCurrentHash(s) && CodeNext(s, act, s') && s'.past.proved == s.past.proved
    requires act.Guess? ==> s.db.codes[act.id].user == act.user
    ensures ProvedWithCurrentHash(s')
  {
    if act.Guess? && act.right {
      GuessAccounts(s.db, act.id, act.newHash, s.now);
    }
  }

  lemma GuessAccounts(db: Db, id: CodeId, newHash: Hash, now: int)
    requires id in db.codes && db.codes[id].user in db.users && forall sid | sid in db.sessions :: db.sessions[sid].user in db.users
    ensures var u, db' := db.codes[id].user, GuessCode(db, id, true, newHash, now);
            && db'.users.Keys == db.users.Keys && db'.sessions.Keys == db.sessions.Keys
            && (forall v | v in db.users && v != u :: db'.users[v] == db.users[v])
            && (forall sid | sid in db.sessions :: db'.sessions[sid].user == db.sessions[sid].user)
            && (forall sid | sid in db.sessions && !db'.sessions[sid].revoked ::
                  !db.sessions[sid].revoked && db'.users[db.sessions[sid].user].hash == db.users[db.sessions[sid].user].hash)
  {
  }

  lemma ProvedSession(s: World, act: SessionAct, s': World)
    requires ProvedWithCurrentHash(s) && Known(s) && SessionNext(s, act, s') && s'.past == Recorded(s, OfSession(act))
    ensures ProvedWithCurrentHash(s')
  {
  }

  lemma StepInv(s: World, step: Step, s': World)
    requires Inv(s) && Next(s, step, s')
    ensures Inv(s')
  {
    KnownStep(s, step, s');
    LegacyStep(s, step, s');
    CodesStep(s, step, s');
    DigestsStep(s, step, s');
    ProvedStep(s, step, s');
  }

  lemma {:induction false} RunInv(run: seq<World>, steps: seq<Step>, i: nat)
    requires IsRun(run, steps) && i < |run|
    ensures Inv(run[i])
  {
    if i > 0 {
      RunInv(run, steps, i - 1);
      assert StepAt(run, steps, i - 1);
      StepInv(run[i - 1], steps[i - 1], run[i]);
    }
  }
}
