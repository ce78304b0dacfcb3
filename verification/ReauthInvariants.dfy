/** What every step of the deletion reauthentication machine keeps. */
module ReauthInvariants {
  import opened Wrappers
  import opened Reauth
  import opened ReauthProtocol

  // ---- The constraints of migrations 026 and 027, and a little more ----

  predicate OAuthOk(o: OAuth) {
    && (o.verifier.Some? <==> o.status.Pending? || o.status.Exchanging?)
    && (o.subject.Some? <==> o.status.Verified?)
    && (o.completedAt.Some? <==> o.status.Verified? || o.status.Failed?)
  }

  predicate ChallengeOk(c: Challenge, now: int) {
    && (c.nonce.None? <==> c.via.Password?)
    && (c.oauth.Some? <==> c.via.Google?)
    && (c.oauth.Some? ==> OAuthOk(c.oauth.value))
    && (c.consumedAt.Some? ==> !HasStatus(c, Pending) && !HasStatus(c, Exchanging))
    && c.attempts <= MAX_ATTEMPTS && c.createdAt <= now && c.expiresAt == c.createdAt + TTL_MS
  }

  ghost predicate RowsOk(db: Db, now: int) {
    && (forall sid | sid in db.sessions :: db.sessions[sid].user in db.users)
    && (forall id | id in db.challenges :: ChallengeOk(db.challenges[id], now)
                                          && db.challenges[id].session in db.sessions
                                          && db.sessions[db.challenges[id].session].user == db.challenges[id].user)
    && (forall d | d in db.grants :: (db.grants[d].subject.None? <==> db.grants[d].via.Password?)
                                     && db.grants[d].session in db.sessions
                                     && db.sessions[db.grants[d].session].user == db.grants[d].user)
  }

  predicate SameState(x: Challenge, y: Challenge) {
    x.oauth.Some? && y.oauth.Some? && x.oauth.value.state == y.oauth.value.state
  }

  ghost predicate StatesDistinct(db: Db) {
    forall x, y | x in db.challenges && y in db.challenges && SameState(db.challenges[x], db.challenges[y]) :: x == y
  }

  /** A session's one open slot is a challenge or a grant, not both. */
  ghost predicate OneOpen(db: Db) {
    && (forall x, y, sid | OpenChallenge(db, x, sid) && OpenChallenge(db, y, sid) :: x == y)
    && (forall x, y, sid | OpenGrant(db, x, sid) && OpenGrant(db, y, sid) :: x == y)
    && (forall x, y, sid | OpenChallenge(db, x, sid) && OpenGrant(db, y, sid) :: false)
  }

  ghost predicate DbInv(db: Db, now: int) {
    RowsOk(db, now) && StatesDistinct(db) && OneOpen(db)
  }

  // ---- Issued identifiers ----

  ghost predicate KeysOk(s: World) {
    && s.db.users.Keys <= s.past.users && s.db.sessions.Keys <= s.past.sessions
    && s.db.challenges.Keys <= s.past.born.Keys && s.db.grants.Keys <= s.past.granted.Keys
    && s.past.spent.Keys <= s.past.granted.Keys && s.past.spent.Keys !! s.db.grants.Keys
    && s.past.redeemed <= s.past.born.Keys
  }

  ghost predicate Known(s: World) {
    && KeysOk(s)
    && (forall id | id in s.db.challenges && s.db.challenges[id].oauth.Some? ::
          s.db.challenges[id].oauth.value.state in s.past.states)
  }

  /** A challenge that was granted is used up, and was granted once. */
  ghost predicate GrantedOnce(s: World) {
    && (forall d | d in s.past.granted :: s.past.granted[d].id in s.past.born && UsedUp(s.db, s.past.granted[d].id))
    && (forall d, e | d in s.past.granted && e in s.past.granted && s.past.granted[d].id == s.past.granted[e].id :: d == e)
  }

  predicate UsedUp(db: Db, id: ChallengeId) {
    id in db.challenges ==> db.challenges[id].consumedAt.Some?
  }

  predicate NotPending(db: Db, id: ChallengeId) {
    id in db.challenges ==> db.challenges[id].oauth.Some? && !HasStatus(db.challenges[id], Pending)
  }

  /** Only a challenge whose code was redeemed is verified. */
  ghost predicate RedeemedFirst(s: World) {
    && (forall id | id in s.past.redeemed :: NotPending(s.db, id))
    && (forall id | id in s.db.challenges && HasStatus(s.db.challenges[id], Verified) :: id in s.past.redeemed)
  }

  predicate CallbackFits(s: World, k: Callback) {
    && k.ctx.id in s.past.born
    && NotPending(s.db, k.ctx.id)
    && (k.stage.Claiming? ==> k.ctx.id !in s.past.redeemed) && (k.stage.Redeemed? ==> k.ctx.id in s.past.redeemed)
    && (k.ctx.id in s.db.challenges ==>
          && Finds(s.db, k.ctx) && s.db.challenges[k.ctx.id].nonce == k.nonce
          && (HasStatus(s.db.challenges[k.ctx.id], Exchanging) ==> s.db.challenges[k.ctx.id].oauth.value.verifier == k.verifier))
  }

  ghost predicate OneCallback(s: World) {
    && (forall k | k in s.callbacks :: CallbackFits(s, s.callbacks[k]))
    && (forall j, k | j in s.callbacks && k in s.callbacks && s.callbacks[j].ctx.id == s.callbacks[k].ctx.id :: j == k)
  }

  ghost predicate Inv(s: World) {
    DbInv(s.db, s.now) && Known(s) && GrantedOnce(s) && RedeemedFirst(s) && OneCallback(s)
  }

  // ---- What one transaction may do to a row ----

  /** pending to exchanging, exchanging to verified, and either to failed. */
  predicate StatusMoves(a: Status, b: Status) {
    a == b || (a.Pending? && (b.Exchanging? || b.Failed?)) || (a.Exchanging? && (b.Verified? || b.Failed?))
  }

  predicate OAuthMoves(a: Option<OAuth>, b: Option<OAuth>) {
    && (a.Some? <==> b.Some?)
    && (a.Some? ==>
          && a.value.state == b.value.state && StatusMoves(a.value.status, b.value.status)
          && (b.value.verifier.Some? ==> b.value.verifier == a.value.verifier))
  }

  predicate ChallengeMoves(c: Challenge, c': Challenge) {
    && c' == c.(consumedAt := c'.consumedAt, attempts := c'.attempts, oauth := c'.oauth)
    && (c.consumedAt.Some? ==> c'.consumedAt.Some?) && c.attempts <= c'.attempts
    && OAuthMoves(c.oauth, c'.oauth)
  }

  /** Rows other than `added` and `granted` were there before and only moved on. */
  ghost predicate Evolves(db: Db, db': Db, added: set<ChallengeId>, granted: set<Digest>) {
    && db'.challenges.Keys <= db.challenges.Keys + added && db'.grants.Keys <= db.grants.Keys + granted
    && (forall id | id in db'.challenges && id !in added :: ChallengeMoves(db.challenges[id], db'.challenges[id]))
    && (forall d | d in db'.grants && d !in granted ::
          && db'.grants[d] == db.grants[d].(consumedAt := db'.grants[d].consumedAt)
          && (db.grants[d].consumedAt.Some? ==> db'.grants[d].consumedAt.Some?))
  }

  lemma EvolvedStates(db: Db, db': Db)
    requires StatesDistinct(db) && Evolves(db, db', {}, db'.grants.Keys)
    ensures StatesDistinct(db')
  {
    forall x, y | x in db'.challenges && y in db'.challenges && SameState(db'.challenges[x], db'.challenges[y]) ensures x == y {
      assert ChallengeMoves(db.challenges[x], db'.challenges[x]) && ChallengeMoves(db.challenges[y], db'.challenges[y]);
      assert SameState(db.challenges[x], db.challenges[y]);
    }
  }

  /** Everything open in `db'`, one row at most aside, was open in `db` in another session than `sid`. */
  ghost predicate ClosedBut(db: Db, db': Db, sid: SessionId, id: Option<ChallengeId>, d: Option<Digest>) {
    && (forall x: ChallengeId, other: SessionId | OpenChallenge(db', x, other) ::
          if Some(x) == id then other == sid else other != sid && OpenChallenge(db, x, other))
    && (forall x: Digest, other: SessionId | OpenGrant(db', x, other) ::
          if Some(x) == d then other == sid else other != sid && OpenGrant(db, x, other))
  }

  lemma ClosedButOne(db: Db, db': Db, sid: SessionId, id: Option<ChallengeId>, d: Option<Digest>)
    requires OneOpen(db) && ClosedBut(db, db', sid, id, d) && (id.None? || d.None?)
    ensures OneOpen(db')
  {
  }

  lemma FewerOpen(db: Db, db': Db)
    requires OneOpen(db) && Evolves(db, db', {}, {})
    ensures OneOpen(db')
  {
    forall x, sid | OpenChallenge(db', x, sid) ensures OpenChallenge(db, x, sid) {
      assert ChallengeMoves(db.challenges[x], db'.challenges[x]);
    }
    forall d, sid | OpenGrant(db', d, sid) ensures OpenGrant(db, d, sid) {}
  }

  // ---- The transactions ----

  /** A row left by an issue is the new one, or one that was there, possibly superseded. */
  lemma IssuedRow(db: Db, ctx: Context, c: Challenge, now: int, id: ChallengeId)
    requires id in Issued(db, ctx, c, now).challenges && id != ctx.id
    ensures id in db.challenges
    ensures Issued(db, ctx, c, now).challenges[id] in {db.challenges[id], Superseded(db.challenges[id], now)}
  {
  }

  lemma SupersededMoves(c: Challenge, now: int)
    requires ChallengeOk(c, now)
    ensures ChallengeMoves(c, Superseded(c, now)) && ChallengeOk(Superseded(c, now), now)
  {
  }

  lemma IssueMoves(db: Db, ctx: Context, m: Method, x: Material, now: int)
    requires RowsOk(db, now)
    ensures Evolves(db, Issue(db, ctx, m, x, now).db, {ctx.id}, {})
  {
    if Issue(db, ctx, m, x, now).outcome.Ok? {
      IssuedEvolves(db, ctx, NewChallenge(ctx.user, ctx.session, m, x, now), now);
    }
  }

  lemma IssuedEvolves(db: Db, ctx: Context, c: Challenge, now: int)
    requires RowsOk(db, now)
    ensures Evolves(db, Issued(db, ctx, c, now), {ctx.id}, {})
  {
    var db' := Issued(db, ctx, c, now);
    forall id | id in db'.challenges && id != ctx.id ensures id in db.challenges && ChallengeMoves(db.challenges[id], db'.challenges[id]) {
      IssuedRow(db, ctx, c, now, id);
      SupersededMoves(db.challenges[id], now);
    }
  }

  lemma IssueRows(db: Db, ctx: Context, m: Method, x: Material, now: int)
    requires RowsOk(db, now) && (x.nonce.None? <==> m.Password?) && (x.oauth.Some? <==> m.Google?)
    ensures RowsOk(Issue(db, ctx, m, x, now).db, now)
  {
    if Issue(db, ctx, m, x, now).outcome.Ok? {
      var c := NewChallenge(ctx.user, ctx.session, m, x, now);
      assert ChallengeOk(c, now);
      IssuedRows(db, ctx, c, now);
    }
  }

  lemma IssuedRows(db: Db, ctx: Context, c: Challenge, now: int)
    requires RowsOk(db, now) && ChallengeOk(c, now) && c.session in db.sessions && db.sessions[c.session].user == c.user
    ensures RowsOk(Issued(db, ctx, c, now), now)
  {
    var db' := Issued(db, ctx, c, now);
    forall id | id in db'.challenges
      ensures ChallengeOk(db'.challenges[id], now) && db'.challenges[id].session in db'.sessions
      ensures db'.sessions[db'.challenges[id].session].user == db'.challenges[id].user
    {
      if id != ctx.id {
        IssuedRow(db, ctx, c, now, id);
        SupersededMoves(db.challenges[id], now);
      }
    }
  }

  lemma IssueOpens(db: Db, ctx: Context, m: Method, x: Material, now: int)
    requires OneOpen(db)
    ensures OneOpen(Issue(db, ctx, m, x, now).db)
  {
    var result := Issue(db, ctx, m, x, now);
    if result.outcome.Ok? {
      assert ClosedBut(db, result.db, ctx.session, Some(ctx.id), None);
      ClosedButOne(db, result.db, ctx.session, Some(ctx.id), None);
    }
  }

  lemma IssueStates(db: Db, ctx: Context, m: Method, x: Material, now: int)
    requires RowsOk(db, now) && StatesDistinct(db)
    requires x.oauth.Some? ==> forall id | id in db.challenges && db.challenges[id].oauth.Some? :: db.challenges[id].oauth.value.state != x.oauth.value.0
    ensures StatesDistinct(Issue(db, ctx, m, x, now).db)
  {
    var db' := Issue(db, ctx, m, x, now).db;
    IssueMoves(db, ctx, m, x, now);
    forall a, b | a in db'.challenges && b in db'.challenges && SameState(db'.challenges[a], db'.challenges[b]) ensures a == b {
      if db' != db && a != ctx.id { assert ChallengeMoves(db.challenges[a], db'.challenges[a]); }
      if db' != db && b != ctx.id { assert ChallengeMoves(db.challenges[b], db'.challenges[b]); }
      if db' == db || (a != ctx.id && b != ctx.id) { assert SameState(db.challenges[a], db.challenges[b]); }
    }
  }

  lemma CompleteMoves(db: Db, ctx: Context, m: Method, p: Proof, digest: Digest, now: int)
    ensures Evolves(db, Complete(db, ctx, m, p, digest, now).db, {}, {digest})
  {
    var result := Complete(db, ctx, m, p, digest, now);
    if result.outcome.Ok? {
      GrantedMoves(db, ctx, digest, result.db.grants[digest], now);
    }
  }

  lemma GrantedMoves(db: Db, ctx: Context, digest: Digest, g: Grant, now: int)
    requires ctx.id in db.challenges
    ensures Evolves(db, Granted(db, ctx, digest, g, now), {}, {digest})
  {
    var db' := Granted(db, ctx, digest, g, now);
    forall d | d in db'.grants && d != digest
      ensures d in db.grants && db'.grants[d] == db.grants[d].(consumedAt := db'.grants[d].consumedAt)
      ensures db.grants[d].consumedAt.Some? ==> db'.grants[d].consumedAt.Some?
    {}
    forall id | id in db'.challenges ensures ChallengeMoves(db.challenges[id], db'.challenges[id]) {}
  }

  lemma CompleteRows(db: Db, ctx: Context, m: Method, p: Proof, digest: Digest, now: int)
    requires RowsOk(db, now)
    ensures RowsOk(Complete(db, ctx, m, p, digest, now).db, now)
  {
    var result := Complete(db, ctx, m, p, digest, now);
    if result.outcome.Ok? {
      assert ChallengeOk(db.challenges[ctx.id], now);
    }
  }

  lemma CompleteOpens(db: Db, ctx: Context, m: Method, p: Proof, digest: Digest, now: int)
    requires OneOpen(db)
    ensures OneOpen(Complete(db, ctx, m, p, digest, now).db)
  {
    var result := Complete(db, ctx, m, p, digest, now);
    if result.outcome.Ok? {
      assert OpenChallenge(db, ctx.id, ctx.session);
      forall x, sid | OpenChallenge(result.db, x, sid) ensures sid != ctx.session && OpenChallenge(db, x, sid) {
        assert x != ctx.id && OpenChallenge(db, x, sid);
      }
      assert ClosedBut(db, result.db, ctx.session, None, Some(digest));
      ClosedButOne(db, result.db, ctx.session, None, Some(digest));
    }
  }

  /** A change of one challenge that keeps its identity. */
  lemma OneRowKeeps(db: Db, db': Db, id: ChallengeId, now: int)
    requires DbInv(db, now) && id in db.challenges && id in db'.challenges
    requires db' == db.(challenges := db.challenges[id := db'.challenges[id]])
    requires ChallengeMoves(db.challenges[id], db'.challenges[id]) && ChallengeOk(db'.challenges[id], now)
    ensures DbInv(db', now) && Evolves(db, db', {}, {})
  {
    assert Evolves(db, db', {}, {});
    EvolvedStates(db, db');
    FewerOpen(db, db');
  }

  /** A legal move of one challenge's Google columns. */
  lemma OAuthKeeps(db: Db, id: ChallengeId, o: OAuth, now: int)
    requires DbInv(db, now) && id in db.challenges && db.challenges[id].consumedAt.None?
    requires OAuthOk(o) && OAuthMoves(db.challenges[id].oauth, Some(o))
    ensures DbInv(WithOAuth(db, id, o), now) && Evolves(db, WithOAuth(db, id, o), {}, {})
  {
    assert ChallengeOk(db.challenges[id], now);
    OneRowKeeps(db, WithOAuth(db, id, o), id, now);
  }

  lemma WithoutUserKeeps(db: Db, u: UserId, now: int)
    requires DbInv(db, now)
    ensures DbInv(WithoutUser(db, u), now) && Evolves(db, WithoutUser(db, u), {}, {})
  {
    var db' := WithoutUser(db, u);
    assert Evolves(db, db', {}, {});
    EvolvedStates(db, db');
    FewerOpen(db, db');
    assert RowsOk(db', now);
  }

  /** Users and sessions may change under the rows as long as the keys and owners stay. */
  lemma AccountsKeep(db: Db, db': Db, now: int, now': int)
    requires DbInv(db, now) && db'.challenges == db.challenges && db'.grants == db.grants && now <= now'
    requires db.sessions.Keys <= db'.sessions.Keys
    requires forall sid | sid in db.sessions :: db'.sessions[sid].user == db.sessions[sid].user
    requires forall sid | sid in db'.sessions :: db'.sessions[sid].user in db'.users
    ensures DbInv(db', now') && Evolves(db, db', {}, {})
  {
    assert Evolves(db, db', {}, {});
    FewerOpen(db, db');
    forall id | id in db.challenges ensures ChallengeOk(db'.challenges[id], now') {
      assert ChallengeOk(db.challenges[id], now);
    }
  }

  // ---- The tables after each step ----

  function Added(s: World, step: Step): set<ChallengeId> {
    if Issues(s, step) then {step.ctx.id} else {}
  }

  function Minted(s: World, step: Step): set<Digest> {
    if Grants(s, step) then {step.verify.digest} else {}
  }

  /** A wrong proof counts against its challenge at most. */
  lemma FailureKeeps(db: Db, ctx: Context, now: int)
    requires DbInv(db, now)
    ensures DbInv(RecordFailure(db, ctx, now), now) && Evolves(db, RecordFailure(db, ctx, now), {}, {})
  {
    var db' := RecordFailure(db, ctx, now);
    if db' != db {
      assert ChallengeOk(db.challenges[ctx.id], now);
      OneRowKeeps(db, db', ctx.id, now);
    }
  }

  lemma CompleteKeeps(db: Db, ctx: Context, m: Method, p: Proof, digest: Digest, now: int)
    requires DbInv(db, now)
    ensures DbInv(Complete(db, ctx, m, p, digest, now).db, now)
    ensures Evolves(db, Complete(db, ctx, m, p, digest, now).db, {}, {digest})
  {
    CompleteMoves(db, ctx, m, p, digest, now);
    CompleteRows(db, ctx, m, p, digest, now);
    CompleteOpens(db, ctx, m, p, digest, now);
    CompleteStates(db, Complete(db, ctx, m, p, digest, now).db, digest);
  }

  lemma CompleteStates(db: Db, db': Db, digest: Digest)
    requires StatesDistinct(db) && Evolves(db, db', {}, {digest})
    ensures StatesDistinct(db')
  {
    EvolvedStates(db, db');
  }

  /** A completion that grants nothing changes nothing. */
  lemma UngrantedComplete(db: Db, ctx: Context, m: Method, p: Proof, digest: Digest, now: int)
    requires !Complete(db, ctx, m, p, digest, now).outcome.Ok?
    ensures Complete(db, ctx, m, p, digest, now).db == db
  {
  }

  lemma Unmoved(db: Db)
    ensures Evolves(db, db, {}, {})
  {
    forall id | id in db.challenges ensures ChallengeMoves(db.challenges[id], db.challenges[id]) {}
  }

  lemma VerifyDb(s: World, step: Step, s': World)
    requires DbInv(s.db, s.now) && Moves(s, step, s') && step.OfVerify?
    ensures DbInv(s'.db, s'.now) && Evolves(s.db, s'.db, Added(s, step), Minted(s, step))
  {
    if step.verify.RecordFailed? {
      FailureKeeps(s.db, s.verifies[step.r].ctx, s.now);
    } else if step.verify.CompleteProof? {
      var v := s.verifies[step.r];
      CompleteKeeps(s.db, v.ctx, v.via, v.proof, step.verify.digest, s.now);
      if !Grants(s, step) {
        UngrantedComplete(s.db, v.ctx, v.via, v.proof, step.verify.digest, s.now);
        Unmoved(s.db);
      }
    } else {
      VerifyReads(s, step.r, step.verify, s');
      Unmoved(s.db);
    }
  }

  lemma VerifyReads(s: World, r: nat, act: VerifyAct, s': World)
    requires VerifyNext(s, r, act, s') && !act.RecordFailed? && !act.CompleteProof?
    ensures s'.db == s.db && s'.now == s.now
  {
  }

  lemma CallbackDb(s: World, step: Step, s': World)
    requires DbInv(s.db, s.now) && Moves(s, step, s') && step.OfCallback?
    ensures DbInv(s'.db, s'.now) && Evolves(s.db, s'.db, {}, {})
  {
    match step.callback
    case Claim(id, _) => OAuthKeeps(s.db, id, s.db.challenges[id].oauth.value.(status := Exchanging), s.now);
    case Finish(subject) =>
      var ctx := s.callbacks[step.k].ctx;
      if s'.db != s.db { OAuthKeeps(s.db, ctx.id, s'.db.challenges[ctx.id].oauth.value, s.now); }
    case End =>
      var id := s.callbacks[step.k].ctx.id;
      if s'.db != s.db { OAuthKeeps(s.db, id, Ended(s.db.challenges[id].oauth.value, s.now), s.now); }
    case _ =>
  }

  lemma StepDb(s: World, step: Step, s': World)
    requires DbInv(s.db, s.now) && Known(s) && Moves(s, step, s')
    ensures DbInv(s'.db, s'.now) && Evolves(s.db, s'.db, Added(s, step), Minted(s, step))
  {
    match step
    case Env(act) => EnvDb(s, act, s');
    case IssueOne(_, _, _) => IssueDb(s, step, s');
    case OfVerify(_, _) => VerifyDb(s, step, s');
    case OfCallback(_, _) => CallbackDb(s, step, s');
    case DeleteUser(_, _, _) => DeleteDb(s, step, s');
  }

  lemma EnvDb(s: World, act: EnvAct, s': World)
    requires DbInv(s.db, s.now) && KeysOk(s) && EnvNext(s, act, s')
    ensures DbInv(s'.db, s'.now) && Evolves(s.db, s'.db, {}, {})
  {
    AccountsKeep(s.db, s'.db, s.now, s'.now);
  }

  lemma DeleteDb(s: World, step: Step, s': World)
    requires DbInv(s.db, s.now) && Moves(s, step, s') && step.DeleteUser?
    ensures DbInv(s'.db, s'.now) && Evolves(s.db, s'.db, {}, {})
  {
    WithoutUserKeeps(s.db, step.user, s.now);
    Unmoved(s.db);
  }

  lemma IssueDb(s: World, step: Step, s': World)
    requires DbInv(s.db, s.now) && Known(s) && Moves(s, step, s') && step.IssueOne?
    ensures DbInv(s'.db, s'.now) && Evolves(s.db, s'.db, Added(s, step), Minted(s, step))
  {
    IssueMoves(s.db, step.ctx, step.via, step.material, s.now);
    IssueRows(s.db, step.ctx, step.via, step.material, s.now);
    IssueOpens(s.db, step.ctx, step.via, step.material, s.now);
    IssueStates(s.db, step.ctx, step.via, step.material, s.now);
  }

  // ---- The history after each step ----

  /** What a step adds to the history. */
  lemma HistoryGrows(s: World, step: Step)
    ensures Recorded(s, step).born.Keys == s.past.born.Keys + Added(s, step)
    ensures Recorded(s, step).granted.Keys == s.past.granted.Keys + Minted(s, step)
    ensures Recorded(s, step).spent.Keys == s.past.spent.Keys + if Deletes(s, step) then {step.authorization.value} else {}
    ensures Recorded(s, step).redeemed == s.past.redeemed + if Redeems(s, step) then {s.callbacks[step.k].ctx.id} else {}
    ensures s.past.states <= Recorded(s, step).states
    ensures s.past.users <= Recorded(s, step).users && s.past.sessions <= Recorded(s, step).sessions
  {
  }

  /** Identifiers drawn by a step are new. */
  lemma DrawnAreNew(s: World, step: Step, s': World)
    requires Moves(s, step, s')
    ensures Added(s, step) !! s.past.born.Keys && Minted(s, step) !! s.past.granted.Keys
  {
  }

  lemma EnvAccounts(s: World, act: EnvAct, s': World)
    requires EnvNext(s, act, s')
    ensures s'.db.users.Keys <= s.db.users.Keys + if act.AddUser? then {act.user} else {}
    ensures s'.db.sessions.Keys <= s.db.sessions.Keys + if act.AddSession? then {act.session} else {}
  {
  }

  lemma VerifyAccounts(s: World, r: nat, act: VerifyAct, s': World)
    requires VerifyNext(s, r, act, s')
    ensures s'.db.users == s.db.users && s'.db.sessions == s.db.sessions
  {
  }

  lemma CallbackAccounts(s: World, k: nat, act: CallbackAct, s': World)
    requires CallbackNext(s, k, act, s')
    ensures s'.db.users == s.db.users && s'.db.sessions == s.db.sessions
  {
  }

  /** No transaction but a deletion touches the accounts, and a deletion only removes. */
  lemma AccountsMove(s: World, step: Step, s': World)
    requires Moves(s, step, s')
    ensures s'.db.users.Keys <= s.db.users.Keys + if step.Env? && step.env.AddUser? then {step.env.user} else {}
    ensures s'.db.sessions.Keys <= s.db.sessions.Keys + if step.Env? && step.env.AddSession? then {step.env.session} else {}
  {
    match step
    case Env(act) => EnvAccounts(s, act, s');
    case IssueOne(_, _, _) =>
    case OfVerify(r, act) => VerifyAccounts(s, r, act, s');
    case OfCallback(k, act) => CallbackAccounts(s, k, act, s');
    case DeleteUser(_, _, _) =>
  }

  /** A deletion removes the grant it presents. */
  lemma SpentIsGone(s: World, step: Step, s': World)
    requires Deletes(s, step) && Moves(s, step, s')
    ensures step.authorization.value in s.db.grants && step.authorization.value !in s'.db.grants
  {
  }

  lemma KeysKnown(s: World, step: Step, s': World)
    requires KeysOk(s) && Next(s, step, s') && Evolves(s.db, s'.db, Added(s, step), Minted(s, step))
    requires forall k | k in s.callbacks :: s.callbacks[k].ctx.id in s.past.born
    ensures KeysOk(s')
  {
    HistoryGrows(s, step);
    AccountsMove(s, step, s');
    DrawnAreNew(s, step, s');
    if Deletes(s, step) { SpentIsGone(s, step, s'); }
  }

  /** The row an issue adds carries the state the history recorded. */
  lemma AddedState(s: World, step: Step, s': World, id: ChallengeId)
    requires Moves(s, step, s') && id in Added(s, step) && id in s'.db.challenges && s'.db.challenges[id].oauth.Some?
    ensures s'.db.challenges[id].oauth.value.state in Recorded(s, step).states
  {
  }

  lemma KnownStep(s: World, step: Step, s': World)
    requires Known(s) && Next(s, step, s') && Evolves(s.db, s'.db, Added(s, step), Minted(s, step))
    requires forall k | k in s.callbacks :: s.callbacks[k].ctx.id in s.past.born
    ensures Known(s')
  {
    KeysKnown(s, step, s');
    HistoryGrows(s, step);
    forall id | id in s'.db.challenges && s'.db.challenges[id].oauth.Some?
      ensures s'.db.challenges[id].oauth.value.state in s'.past.states
    {
      if id in Added(s, step) {
        AddedState(s, step, s', id);
      } else {
        assert ChallengeMoves(s.db.challenges[id], s'.db.challenges[id]);
      }
    }
  }

  /** Granting uses up a challenge that was still open. */
  lemma GrantUses(s: World, step: Step, s': World)
    requires Moves(s, step, s') && Grants(s, step)
    ensures var id := s.verifies[step.r].ctx.id; !UsedUp(s.db, id) && UsedUp(s'.db, id)
  {
  }

  lemma UsedUpStays(s: World, step: Step, s': World, id: ChallengeId)
    requires Evolves(s.db, s'.db, Added(s, step), Minted(s, step)) && Added(s, step) !! s.past.born.Keys
    requires id in s.past.born && UsedUp(s.db, id)
    ensures UsedUp(s'.db, id)
  {
    if id in s'.db.challenges { assert ChallengeMoves(s.db.challenges[id], s'.db.challenges[id]); }
  }

  lemma GrantedOnceStep(s: World, step: Step, s': World)
    requires Known(s) && GrantedOnce(s) && Next(s, step, s') && Evolves(s.db, s'.db, Added(s, step), Minted(s, step))
    ensures GrantedOnce(s')
  {
    DrawnAreNew(s, step, s');
    HistoryGrows(s, step);
    if Grants(s, step) { GrantUses(s, step, s'); }
    GrantedOnceAfter(s, step, s');
  }

  lemma GrantedOnceAfter(s: World, step: Step, s': World)
    requires KeysOk(s) && GrantedOnce(s) && s'.past == Recorded(s, step) && Evolves(s.db, s'.db, Added(s, step), Minted(s, step))
    requires Added(s, step) !! s.past.born.Keys && Minted(s, step) !! s.past.granted.Keys
    requires Grants(s, step) ==> var id := s.verifies[step.r].ctx.id; !UsedUp(s.db, id) && UsedUp(s'.db, id)
    ensures GrantedOnce(s')
  {
    forall id | id in s.past.born && UsedUp(s.db, id) ensures UsedUp(s'.db, id) {
      UsedUpStays(s, step, s', id);
    }
  }

  lemma NotPendingStays(s: World, step: Step, s': World, id: ChallengeId)
    requires Evolves(s.db, s'.db, Added(s, step), Minted(s, step)) && Added(s, step) !! s.past.born.Keys
    requires id in s.past.born && NotPending(s.db, id)
    ensures NotPending(s'.db, id)
  {
    if id in s'.db.challenges { assert ChallengeMoves(s.db.challenges[id], s'.db.challenges[id]); }
  }

  lemma ClaimedIsKnown(s: World, step: Step)
    requires Redeems(s, step) && OneCallback(s)
    ensures var id := s.callbacks[step.k].ctx.id; id in s.past.born && NotPending(s.db, id)
  {
    assert CallbackFits(s, s.callbacks[step.k]);
  }

  lemma RedeemedFirstStep(s: World, step: Step, s': World)
    requires Known(s) && RedeemedFirst(s) && OneCallback(s) && Next(s, step, s')
    requires Evolves(s.db, s'.db, Added(s, step), Minted(s, step))
    ensures RedeemedFirst(s')
  {
    DrawnAreNew(s, step, s');
    HistoryGrows(s, step);
    if Redeems(s, step) { ClaimedIsKnown(s, step); }
    forall id | id in s'.past.redeemed ensures NotPending(s'.db, id) {
      NotPendingStays(s, step, s', id);
    }
    forall id | id in s'.db.challenges && HasStatus(s'.db.challenges[id], Verified) ensures id in s'.past.redeemed {
      NewlyVerified(s, step, s', id);
    }
  }

  lemma VerifyNeverVerifies(s: World, r: nat, act: VerifyAct, s': World, id: ChallengeId)
    requires VerifyNext(s, r, act, s') && id in s'.db.challenges && HasStatus(s'.db.challenges[id], Verified)
    ensures id in s.db.challenges && HasStatus(s.db.challenges[id], Verified)
  {
  }

  lemma CallbackVerifies(s: World, k: nat, act: CallbackAct, s': World, id: ChallengeId)
    requires CallbackNext(s, k, act, s') && OneCallback(s) && id in s'.db.challenges && HasStatus(s'.db.challenges[id], Verified)
    ensures id in s.past.redeemed || (id in s.db.challenges && HasStatus(s.db.challenges[id], Verified))
  {
    if act.Finish? { assert CallbackFits(s, s.callbacks[k]); }
  }

  /** Only `Finish` verifies a challenge. */
  lemma NewlyVerified(s: World, step: Step, s': World, id: ChallengeId)
    requires Moves(s, step, s') && OneCallback(s)
    requires id in s'.db.challenges && HasStatus(s'.db.challenges[id], Verified)
    ensures id in s.past.redeemed || (id in s.db.challenges && HasStatus(s.db.challenges[id], Verified))
  {
    match step
    case Env(_) =>
    case IssueOne(_, _, _) =>
    case OfVerify(r, act) => VerifyNeverVerifies(s, r, act, s', id);
    case OfCallback(k, act) => CallbackVerifies(s, k, act, s', id);
    case DeleteUser(_, _, _) =>
  }

  lemma FitsStays(s: World, step: Step, s': World, k: Callback)
    requires s'.past == Recorded(s, step) && Evolves(s.db, s'.db, Added(s, step), Minted(s, step))
    requires Added(s, step) !! s.past.born.Keys && CallbackFits(s, k) && RowsOk(s'.db, s'.now)
    requires Redeems(s, step) ==> s.callbacks[step.k].ctx.id != k.ctx.id
    ensures CallbackFits(s', k)
  {
    HistoryGrows(s, step);
    NotPendingStays(s, step, s', k.ctx.id);
    if k.ctx.id in s'.db.challenges {
      assert ChallengeMoves(s.db.challenges[k.ctx.id], s'.db.challenges[k.ctx.id]);
      assert ChallengeOk(s'.db.challenges[k.ctx.id], s'.now);
    }
  }

  /** A claim is of a challenge no callback holds. */
  lemma ClaimFits(s: World, k: nat, act: CallbackAct, s': World)
    requires KeysOk(s) && RedeemedFirst(s) && OneCallback(s) && act.Claim? && CallbackNext(s, k, act, s')
    requires s'.past == Recorded(s, OfCallback(k, act))
    ensures CallbackFits(s', s'.callbacks[k])
    ensures forall j | j in s.callbacks :: s.callbacks[j].ctx.id != s'.callbacks[k].ctx.id
  {
    assert HasStatus(s.db.challenges[act.id], Pending);
    assert act.id !in s.past.redeemed;
    forall j | j in s.callbacks ensures s.callbacks[j].ctx.id != act.id {
      assert CallbackFits(s, s.callbacks[j]);
    }
  }

  lemma CallbackMoves(s: World, k: nat, act: CallbackAct, s': World)
    requires CallbackNext(s, k, act, s')
    ensures forall j | j in s'.callbacks && j != k :: j in s.callbacks && s'.callbacks[j] == s.callbacks[j]
    ensures k in s'.callbacks && !act.Claim? ==>
              k in s.callbacks && s'.callbacks[k] == s.callbacks[k].(stage := if act.Redeem? then Redeemed else Ending)
    ensures k in s'.callbacks && act.Redeem? ==> Redeems(s, OfCallback(k, act))
  {
  }

  lemma OthersKeepCallbacks(s: World, step: Step, s': World)
    requires Moves(s, step, s') && !step.OfCallback?
    ensures s'.callbacks == s.callbacks
  {
    match step
    case Env(_) =>
    case IssueOne(_, _, _) =>
    case OfVerify(r, act) => VerifyKeepsCallbacks(s, r, act, s');
    case DeleteUser(_, _, _) =>
  }

  lemma VerifyKeepsCallbacks(s: World, r: nat, act: VerifyAct, s': World)
    requires VerifyNext(s, r, act, s')
    ensures s'.callbacks == s.callbacks
  {
  }

  /** A callback whose code is redeemed now still fits: only its stage and the history moved. */
  lemma RedeemFits(s: World, k: nat, s': World)
    requires CallbackNext(s, k, Redeem, s') && s'.past == Recorded(s, OfCallback(k, Redeem)) && CallbackFits(s, s.callbacks[k])
    ensures CallbackFits(s', s'.callbacks[k])
  {
  }

  lemma OneCallbackStep(s: World, step: Step, s': World)
    requires Known(s) && RedeemedFirst(s) && OneCallback(s) && Next(s, step, s')
    requires Evolves(s.db, s'.db, Added(s, step), Minted(s, step)) && RowsOk(s'.db, s'.now)
    ensures OneCallback(s')
  {
    OthersStillFit(s, step, s');
    if step.OfCallback? {
      CallbackMoves(s, step.k, step.callback, s');
      if step.k in s'.callbacks {
        DrawnAreNew(s, step, s');
        HeldCallbackFits(s, step, s');
        if step.callback.Claim? { ClaimFits(s, step.k, step.callback, s'); }
      }
      OneMoved(s, step.k, s');
    } else {
      OthersKeepCallbacks(s, step, s');
    }
  }

  /** The callbacks a step does not move still fit. */
  lemma OthersStillFit(s: World, step: Step, s': World)
    requires OneCallback(s) && Next(s, step, s')
    requires Evolves(s.db, s'.db, Added(s, step), Minted(s, step)) && RowsOk(s'.db, s'.now)
    ensures forall k | k in s.callbacks && !(step.OfCallback? && step.k == k) :: CallbackFits(s', s.callbacks[k])
  {
    DrawnAreNew(s, step, s');
    forall k | k in s.callbacks && !(step.OfCallback? && step.k == k) ensures CallbackFits(s', s.callbacks[k]) {
      FitsStays(s, step, s', s.callbacks[k]);
    }
  }

  /** One callback moved, and it holds a challenge of its own. */
  lemma OneMoved(s: World, k: nat, s': World)
    requires OneCallback(s) && forall j | j in s.callbacks && j != k :: CallbackFits(s', s.callbacks[j])
    requires forall j | j in s'.callbacks && j != k :: j in s.callbacks && s'.callbacks[j] == s.callbacks[j]
    requires k in s'.callbacks ==> CallbackFits(s', s'.callbacks[k])
    requires k in s'.callbacks ==>
               forall j | j in s.callbacks && j != k :: s.callbacks[j].ctx.id != s'.callbacks[k].ctx.id
    ensures OneCallback(s')
  {
  }

  /** The callback a step moves still fits afterwards. */
  lemma HeldCallbackFits(s: World, step: Step, s': World)
    requires Known(s) && RedeemedFirst(s) && OneCallback(s) && Next(s, step, s') && step.OfCallback? && step.k in s'.callbacks
    requires Evolves(s.db, s'.db, Added(s, step), Minted(s, step)) && Added(s, step) !! s.past.born.Keys && RowsOk(s'.db, s'.now)
    ensures CallbackFits(s', s'.callbacks[step.k])
  {
    if step.callback.Claim? {
      ClaimFits(s, step.k, step.callback, s');
    } else {
      CallbackMoves(s, step.k, step.callback, s');
      assert CallbackFits(s, s.callbacks[step.k]);
      if step.callback.Redeem? {
        RedeemFits(s, step.k, s');
      } else {
        FitsStays(s, step, s', s.callbacks[step.k]);
      }
    }
  }

  lemma StepInv(s: World, step: Step, s': World)
    requires Inv(s) && Next(s, step, s')
    ensures Inv(s')
    ensures Evolves(s.db, s'.db, Added(s, step), Minted(s, step))
  {
    StepDb(s, step, s');
    KnownStep(s, step, s');
    GrantedOnceStep(s, step, s');
    RedeemedFirstStep(s, step, s');
    OneCallbackStep(s, step, s');
  }

  lemma {:induction false} RunInv(run: seq<World>, steps: seq<Step>, i: nat)
    requires IsRun(run, steps) && i < |run|
    ensures Inv(run[i]) && run[i].past.step == i
  {
    if i > 0 {
      RunInv(run, steps, i - 1);
      assert StepAt(run, steps, i - 1);
      StepInv(run[i - 1], steps[i - 1], run[i]);
    }
  }
}
