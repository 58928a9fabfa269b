/** Every request keeps the schema's constraints and the account rules that span the tables. */
module AuthInvariant {
  import opened Prelude
  import opened Mail
  import opened JobTable
  import opened Tables
  import opened AuthSpec

  ghost predicate HasToken(tokens: Tokens, u: nat) {
    exists t :: t in tokens && tokens[t].userId == u
  }

  /** Where the mail of a linked job goes: to the owner of its token. */
  ghost predicate AddressOk(db: Db, job: Job) {
    match job.key
    case ConfirmationKey(t) =>
      t in db.confirmations && db.confirmations[t].userId in db.users
      && job.toAddress == db.users[db.confirmations[t].userId].email
    case ResetKey(t) =>
      t in db.resets && db.resets[t].userId in db.users
      && job.toAddress == db.users[db.resets[t].userId].email
    case ReportKey(_) => true
  }

  /** Unverified users are exactly the owners of confirmation tokens; the rest needs a verified owner. */
  ghost predicate AccountRules(db: Db) {
    && (forall u | u in db.users :: db.users[u].verifiedAt.None? <==> HasToken(db.confirmations, u))
    && (forall t | t in db.resets :: IsCurrentUser(db, db.resets[t].userId))
    && (forall s | s in db.sessions :: IsCurrentUser(db, db.sessions[s].userId))
    && (forall j | j in db.jobs :: AddressOk(db, db.jobs[j]))
  }

  ghost predicate Good(db: Db) {
    Constraints(db) && AccountRules(db)
  }

  // ---- Building blocks ----

  lemma ForeignKeys(db: Db)
    requires Constraints(db)
    ensures forall t | t in db.confirmations :: db.confirmations[t].userId in db.users
    ensures forall t | t in db.resets :: db.resets[t].userId in db.users
    ensures forall s | s in db.sessions :: db.sessions[s].userId in db.users
    ensures db.nextUserId !in db.users
    ensures forall j | j in db.jobs :: LinkOk(db, db.jobs[j])
  {
  }

  ghost predicate FewerTokens(before: Tokens, after: Tokens, users: set<nat>) {
    forall t | t in after :: t in before && after[t] == before[t] && after[t].userId in users
  }

  ghost predicate FewerJobs(db: Db, d: Db) {
    d.nextJobId == db.nextJobId
    && forall j | j in d.jobs :: j in db.jobs && d.jobs[j] == db.jobs[j] && LinkOk(d, d.jobs[j])
  }

  ghost predicate FewerSessions(before: Sessions, after: Sessions, users: set<nat>) {
    forall s | s in after :: s in before && after[s].tokenHash == before[s].tokenHash
                             && after[s].userId == before[s].userId && after[s].userId in users
  }

  /** Requests that delete rows, or change columns that no constraint reads. */
  ghost predicate Fewer(db: Db, d: Db) {
    && d.nextUserId == db.nextUserId && d.nextConfirmationId == db.nextConfirmationId
    && d.nextResetId == db.nextResetId && d.nextSessionId == db.nextSessionId
    && (forall u | u in d.users :: u in db.users && d.users[u].email == db.users[u].email)
    && FewerTokens(db.confirmations, d.confirmations, d.users.Keys)
    && FewerTokens(db.resets, d.resets, d.users.Keys)
    && FewerSessions(db.sessions, d.sessions, d.users.Keys)
    && FewerJobs(db, d)
  }

  lemma FewerKeeps(db: Db, d: Db)
    requires Constraints(db) && Fewer(db, d)
    ensures Constraints(d)
  {
  }

  /** A job that survives a cascade still has its token. */
  lemma SurvivorsLinked(db: Db, d: Db, confirmations: set<nat>, resets: set<nat>)
    requires JobsOk(db) && d.jobs == Cascade(db.jobs, confirmations, resets) && d.nextJobId == db.nextJobId
    requires d.confirmations == db.confirmations - confirmations && d.resets == db.resets - resets
    ensures FewerJobs(db, d)
  {
  }

  lemma WithoutTokensKeeps(db: Db, p: Purpose, u: nat)
    requires Constraints(db)
    ensures Constraints(WithoutTokens(db, p, u))
    ensures forall t | t in WithoutTokens(db, p, u).TokensFor(p) :: WithoutTokens(db, p, u).TokensFor(p)[t].userId != u
  {
  }

  lemma AddUserKeeps(db: Db, user: User)
    requires Constraints(db) && forall v | v in db.users :: db.users[v].email != user.email
    ensures Constraints(WithUser(db, user))
  {
  }

  /** With a fresh token no constraint stands in the way, so the IntegrityError paths are dead. */
  lemma ReissueSucceeds(cfg: Settings, db: Db, p: Purpose, u: nat, raw: RawToken, now: int)
    requires Constraints(db) && u in db.users
    requires forall t | t in db.TokensFor(p) :: db.TokensFor(p)[t].tokenHash != Sha256(raw)
    ensures Reissued(cfg, db, p, u, raw, now).Some?
  {
  }

  lemma WithTokenKeeps(db: Db, p: Purpose, t: Token)
    requires Constraints(db) && t.userId in db.users && !TokenCollides(db.TokensFor(p), t.userId, t.tokenHash)
    ensures Constraints(WithToken(db, p, t))
  {
  }

  lemma WithJobKeeps(db: Db, m: EmailMessage, now: int, confirmation: Option<nat>, reset: Option<nat>)
    requires Constraints(db) && m.key.Some? && LinkOk(db, NewJob(m, now, confirmation, reset))
    requires !Collides(db.jobs, m.key.value, confirmation, reset)
    ensures Constraints(WithJob(db, m, now, confirmation, reset))
  {
  }

  lemma ReissueKeeps(cfg: Settings, db: Db, p: Purpose, u: nat, raw: RawToken, now: int)
    requires Constraints(db) && u in db.users && Reissued(cfg, db, p, u, raw, now).Some?
    ensures Constraints(Reissued(cfg, db, p, u, raw, now).value)
  {
    hide UsersOk, TokensOk, SessionsOk, JobsOk, Collides, Cascade;
    var clean := WithoutTokens(db, p, u);
    WithoutTokensKeeps(db, p, u);
    var id := db.NextTokenId(p);
    var t := Token(u, Sha256(raw), now + cfg.Expiry(p), now);
    WithTokenKeeps(clean, p, t);
    WithJobKeeps(WithToken(clean, p, t), TokenMail(p, db.users[u], raw, id, now), now,
                 ConfirmationLink(p, id), ResetLink(p, id));
  }

  /** A reissue leaves the other purpose alone and makes the new token the user's only one. */
  lemma ReissueRules(cfg: Settings, db: Db, p: Purpose, u: nat, raw: RawToken, now: int)
    requires Constraints(db) && u in db.users && Reissued(cfg, db, p, u, raw, now).Some?
    requires forall j | j in db.jobs :: AddressOk(db, db.jobs[j])
    ensures var d := Reissued(cfg, db, p, u, raw, now).value;
            && (forall j | j in d.jobs :: AddressOk(d, d.jobs[j]))
            && d.users == db.users && d.sessions == db.sessions
            && (p.Confirming? ==> d.resets == db.resets)
            && (p.Resetting? ==> d.confirmations == db.confirmations)
            && (forall v: nat :: HasToken(d.TokensFor(p), v) <==> v == u || HasToken(db.TokensFor(p), v))
  {
    hide UsersOk, SessionsOk, Collides;
    var d := Reissued(cfg, db, p, u, raw, now).value;
    var clean := WithoutTokens(db, p, u);
    WithoutTokensKeeps(db, p, u);
    forall j | j in d.jobs ensures AddressOk(d, d.jobs[j]) {
      if j in clean.jobs {
        assert LinkOk(clean, clean.jobs[j]) && AddressOk(db, db.jobs[j]);
      }
    }
    var id := db.NextTokenId(p);
    assert d.TokensFor(p)[id].userId == u;
    forall v: nat ensures HasToken(d.TokensFor(p), v) <==> v == u || HasToken(db.TokensFor(p), v) {
      if HasToken(db.TokensFor(p), v) && v != u {
        var t :| t in db.TokensFor(p) && db.TokensFor(p)[t].userId == v;
        assert t in d.TokensFor(p) && d.TokensFor(p)[t].userId == v;
      }
    }
  }

  // ---- Requests ----

  lemma RulesAfterReissue(cfg: Settings, db: Db, p: Purpose, u: nat, raw: RawToken, now: int)
    requires Constraints(db) && u in db.users && Reissued(cfg, db, p, u, raw, now).Some?
    requires db.users[u].verifiedAt.None? <==> p.Confirming?
    requires forall v | v in db.users && v != u :: db.users[v].verifiedAt.None? <==> HasToken(db.confirmations, v)
    requires p.Resetting? ==> !HasToken(db.confirmations, u)
    requires forall t | t in db.resets :: IsCurrentUser(db, db.resets[t].userId)
    requires forall s | s in db.sessions :: IsCurrentUser(db, db.sessions[s].userId)
    requires forall j | j in db.jobs :: AddressOk(db, db.jobs[j])
    ensures Good(Reissued(cfg, db, p, u, raw, now).value)
  {
    hide UsersOk, TokensOk, SessionsOk, JobsOk, Collides, Cascade, Reissued;
    ReissueKeeps(cfg, db, p, u, raw, now);
    ReissueRules(cfg, db, p, u, raw, now);
    var d := Reissued(cfg, db, p, u, raw, now).value;
    if p.Resetting? {
      assert d.TokensFor(p) == d.resets && db.TokensFor(p) == db.resets;
      forall t | t in d.resets ensures IsCurrentUser(d, d.resets[t].userId) {
        assert HasToken(d.resets, d.resets[t].userId);
      }
    } else {
      assert d.TokensFor(p) == d.confirmations && db.TokensFor(p) == db.confirmations;
    }
  }

  lemma RequestedKeeps(cfg: Settings, db: Db, p: Purpose, u: nat, raw: RawToken, now: int)
    requires Good(db) && u in db.users && (db.users[u].verifiedAt.None? <==> p.Confirming?)
    ensures Good(Requested(cfg, db, p, u, raw, now).db)
  {
    if Reissued(cfg, db, p, u, raw, now).Some? {
      RulesAfterReissue(cfg, db, p, u, raw, now);
    }
  }

  lemma RegisteredKeeps(cfg: Settings, db: Db, now: int, op: Op)
    requires Good(db) && op.Register?
    ensures Good(Serve(cfg, db, now, op).db)
  {
    hide UsersOk, TokensOk, SessionsOk, JobsOk, Collides, Cascade, Reissued;
    ForeignKeys(db);
    if UserWithEmail(db, op.email).None? && op.terms.Some? {
      var user := NewUser(op.email, op.password, op.profile, op.terms.value, now);
      AddUserKeeps(db, user);
      var created := WithUser(db, user);
      forall j | j in created.jobs ensures AddressOk(created, created.jobs[j]) {
        assert AddressOk(db, db.jobs[j]);
      }
      if Reissued(cfg, created, Confirming, db.nextUserId, op.drawn, now).Some? {
        RulesAfterReissue(cfg, created, Confirming, db.nextUserId, op.drawn, now);
      }
    }
  }

  /** What deleting tokens, or a user with all that is his, leaves of constraints and addresses. */
  lemma DeletionKeeps(db: Db, d: Db, confirmations: set<nat>, resets: set<nat>)
    requires Good(db)
    requires d.confirmations == db.confirmations - confirmations && d.resets == db.resets - resets
    requires d.jobs == Cascade(db.jobs, confirmations, resets) && d.nextJobId == db.nextJobId
    requires d.nextUserId == db.nextUserId && d.nextConfirmationId == db.nextConfirmationId
    requires d.nextResetId == db.nextResetId && d.nextSessionId == db.nextSessionId
    requires forall u | u in d.users :: u in db.users && d.users[u].email == db.users[u].email
    requires forall t | t in d.confirmations :: d.confirmations[t].userId in d.users
    requires forall t | t in d.resets :: d.resets[t].userId in d.users
    requires FewerSessions(db.sessions, d.sessions, d.users.Keys)
    ensures Constraints(d) && forall j | j in d.jobs :: AddressOk(d, d.jobs[j])
  {
    hide UsersOk, TokensOk, SessionsOk, Collides, Cascade;
    SurvivorsLinked(db, d, confirmations, resets);
    FewerKeeps(db, d);
    forall j | j in d.jobs ensures AddressOk(d, d.jobs[j]) {
      assert LinkOk(d, d.jobs[j]) && AddressOk(db, db.jobs[j]);
    }
  }

  lemma OthersKeepTokens(before: Tokens, u: nat, v: nat)
    requires v != u
    ensures HasToken(before - TokensOf(before, u), v) <==> HasToken(before, v)
    ensures !HasToken(before - TokensOf(before, u), u)
  {
    if HasToken(before, v) {
      var t :| t in before && before[t].userId == v;
      assert t in before - TokensOf(before, u);
    }
  }

  lemma ConfirmedKeeps(db: Db, now: int, raw: RawToken)
    requires Good(db)
    ensures Good(Confirmed(db, now, raw).db)
  {
    hide UsersOk, TokensOk, SessionsOk, JobsOk, Collides, Cascade, TokenWithHash, HasToken, AddressOk;
    ForeignKeys(db);
    var d := Confirmed(db, now, raw).db;
    if d != db {
      var u := db.confirmations[TokenWithHash(db.confirmations, Sha256(raw)).value].userId;
      assert d.resets == db.resets - {};
      DeletionKeeps(db, d, TokensOf(db.confirmations, u), {});
      OthersKeepTokens(db.confirmations, u, u + 1);
      forall v | v in d.users ensures d.users[v].verifiedAt.None? <==> HasToken(d.confirmations, v) {
        if v != u { OthersKeepTokens(db.confirmations, u, v); }
      }
    }
  }

  lemma WithPasswordKeeps(db: Db, u: nat, password: string, now: int)
    requires Good(db) && u in db.users
    ensures Good(WithPassword(db, u, password, now))
  {
    hide UsersOk, TokensOk, SessionsOk, JobsOk, Collides, Cascade, HasToken, AddressOk;
    ForeignKeys(db);
    var d := WithPassword(db, u, password, now);
    assert d.confirmations == db.confirmations - {};
    DeletionKeeps(db, d, {}, TokensOf(db.resets, u));
  }

  lemma WithoutUserKeeps(db: Db, u: nat)
    requires Good(db)
    ensures Good(WithoutUser(db, u))
  {
    hide UsersOk, TokensOk, SessionsOk, JobsOk, Collides, Cascade, HasToken, AddressOk;
    ForeignKeys(db);
    var d := WithoutUser(db, u);
    DeletionKeeps(db, d, TokensOf(db.confirmations, u), TokensOf(db.resets, u));
    forall v | v in d.users ensures d.users[v].verifiedAt.None? <==> HasToken(d.confirmations, v) {
      OthersKeepTokens(db.confirmations, u, v);
    }
  }

  lemma JobsUnmoved(db: Db, d: Db)
    requires Good(db) && d == db.(sessions := d.sessions, nextSessionId := d.nextSessionId)
    requires SessionsOk(d.sessions, d.nextSessionId, d.users.Keys)
    requires forall s | s in d.sessions :: IsCurrentUser(d, d.sessions[s].userId)
    ensures Good(d)
  {
  }

  lemma SessionsAfter(cfg: Settings, db: Db, now: int, op: Op)
    requires SessionsOk(db.sessions, db.nextSessionId, db.users.Keys) && (op.Login? || op.Refresh? || op.Logout?)
    requires forall s | s in db.sessions :: IsCurrentUser(db, db.sessions[s].userId)
    ensures var d := Serve(cfg, db, now, op).db;
            && SessionsOk(d.sessions, d.nextSessionId, d.users.Keys)
            && d == db.(sessions := d.sessions, nextSessionId := d.nextSessionId)
            && forall s | s in d.sessions :: IsCurrentUser(d, d.sessions[s].userId)
  {
    var d := Serve(cfg, db, now, op).db;
    if op.Refresh? && d != db {
      var s := SessionWithHash(db.sessions, Sha256(op.raw)).value;
      forall v | v in db.sessions && v != s ensures db.sessions[v].tokenHash != Sha256(op.drawn) {
        assert v in db.sessions - {s};
      }
    }
  }

  lemma SessionRequestKeeps(cfg: Settings, db: Db, now: int, op: Op)
    requires Good(db) && (op.Login? || op.Refresh? || op.Logout?)
    ensures Good(Serve(cfg, db, now, op).db)
  {
    SessionsAfter(cfg, db, now, op);
    hide UsersOk, TokensOk, JobsOk, LinkOk, AddressOk, SessionsOk, SessionWithHash, UserWithEmail;
    JobsUnmoved(db, Serve(cfg, db, now, op).db);
  }

  lemma ReportKeeps(cfg: Settings, db: Db, now: int, op: Op)
    requires Good(db) && op.SubmitReport?
    ensures Good(Serve(cfg, db, now, op).db)
  {
    var d := Serve(cfg, db, now, op).db;
    if d != db {
      WithJobKeeps(db, ReportMail(cfg.reportTo.value, op.reporter, op.report, op.uuid), now, None, None);
      forall j | j in d.jobs ensures AddressOk(d, d.jobs[j]) {
        if j in db.jobs { assert AddressOk(db, db.jobs[j]); }
      }
    }
  }

  lemma GoodForeignKeys(db: Db)
    requires Good(db)
    ensures forall t | t in db.resets :: db.resets[t].userId in db.users
  {
  }

  /** Every request keeps the cross-table invariant. */
  lemma ServeKeeps(cfg: Settings, db: Db, now: int, op: Op)
    requires Good(db)
    ensures Good(Serve(cfg, db, now, op).db)
  {
    hide Good, WithoutUser, WithPassword, Requested, Registered, Confirmed, LoggedIn, Refreshed;
    GoodForeignKeys(db);
    match op
    case Register(_, _, _, _, _) => RegisteredKeeps(cfg, db, now, op);
    case ConfirmEmail(raw) => ConfirmedKeeps(db, now, raw);
    case ResendConfirmation(email, drawn) =>
      var u := UserWithEmail(db, email);
      if u.Some? && db.users[u.value].verifiedAt.None? {
        RequestedKeeps(cfg, db, Confirming, u.value, drawn, now);
      }
    case ForgotPassword(email, drawn) =>
      var u := UserWithEmail(db, email);
      if u.Some? && db.users[u.value].verifiedAt.Some? {
        RequestedKeeps(cfg, db, Resetting, u.value, drawn, now);
      }
    case ResetPassword(raw, password) =>
      var t := TokenWithHash(db.resets, Sha256(raw));
      if t.Some? { WithPasswordKeeps(db, db.resets[t.value].userId, password, now); }
    case ChangePassword(u, _, password) =>
      if u in db.users { WithPasswordKeeps(db, u, password, now); }
    case DeleteAccount(u, _) => WithoutUserKeeps(db, u);
    case Login(_, _, _) => SessionRequestKeeps(cfg, db, now, op);
    case Refresh(_, _) => SessionRequestKeeps(cfg, db, now, op);
    case Logout(_) => SessionRequestKeeps(cfg, db, now, op);
    case SubmitReport(_, _, _) => ReportKeeps(cfg, db, now, op);
  }
}
