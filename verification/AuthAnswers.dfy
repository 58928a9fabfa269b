/**
 * What each account request answers and does, said in terms of rows, passwords and
 * times alone: who may sign in, which password is in force, who gets a mail and when.
 */
module AuthAnswers {
  import opened Prelude
  import opened Mail
  import opened JobTable
  import opened Tables
  import opened AuthSpec
  import opened AuthInvariant

  /** An account with this address and this password. */
  predicate Credentials(db: Db, u: nat, email: string, password: string) {
    u in db.users && db.users[u].email == email && db.users[u].passwordHash == Bcrypt(password)
  }

  /** A confirmed account with this password. */
  predicate Authorised(db: Db, u: nat, password: string) {
    u in db.users && db.users[u].verifiedAt.Some? && db.users[u].passwordHash == Bcrypt(password)
  }

  predicate SessionUnused(sessions: Sessions, drawn: RawToken) {
    forall s | s in sessions :: sessions[s].tokenHash != Sha256(drawn)
  }

  /** No token carries the digest of the drawn value. */
  predicate Unused(tokens: Tokens, drawn: RawToken) {
    forall t | t in tokens :: tokens[t].tokenHash != Sha256(drawn)
  }

  // ---- Signing in ----

  /** Who may sign in, and what the others are told. */
  lemma LoginIff(cfg: Settings, db: Db, now: int, email: string, password: string, drawn: RawToken)
    requires UsersOk(db) && SessionUnused(db.sessions, drawn)
    ensures var r := Serve(cfg, db, now, Login(email, password, drawn));
            && (r.reply.SignedIn? <==>
                 exists u :: Credentials(db, u, email, password) && db.users[u].verifiedAt.Some?)
            && (r.reply == UnconfirmedEmail <==>
                 exists u :: Credentials(db, u, email, password) && db.users[u].verifiedAt.None?)
            && (r.reply == InvalidCredentials <==> forall u :: !Credentials(db, u, email, password))
            && (!r.reply.SignedIn? ==> r.db == db && r.events == [])
  {
    var u := UserWithEmail(db, email);
    if u.Some? && db.users[u.value].passwordHash == Bcrypt(password) {
      assert Credentials(db, u.value, email, password);
    }
  }

  lemma LoginOutcome(cfg: Settings, db: Db, now: int, email: string, password: string, drawn: RawToken)
    ensures var r := Serve(cfg, db, now, Login(email, password, drawn));
            && (r.reply.SignedIn? ==> Credentials(db, r.reply.userId, email, password)
                                      && db.users[r.reply.userId].verifiedAt.Some?)
            && (!r.reply.SignedIn? ==> r.db == db)
  {
  }

  /** A sign-in opens one session, for the account whose credentials were given. */
  lemma LoginOpensSession(cfg: Settings, db: Db, now: int, email: string, password: string, drawn: RawToken)
    requires Serve(cfg, db, now, Login(email, password, drawn)).reply.SignedIn?
    ensures var r := Serve(cfg, db, now, Login(email, password, drawn));
            var u := r.reply.userId;
            && r.reply.refreshToken == drawn && Credentials(db, u, email, password) && db.users[u].verifiedAt.Some?
            && r.db == db.(nextSessionId := db.nextSessionId + 1, sessions := db.sessions[db.nextSessionId :=
                 RefreshSession(u, Sha256(drawn), now + cfg.refreshLifetime, None, now)])
  {
  }

  /** A refresh signs in the owner of the session, and the session now carries the new token only. */
  lemma RefreshRotates(cfg: Settings, db: Db, now: int, raw: RawToken, drawn: RawToken)
    requires Serve(cfg, db, now, Refresh(raw, drawn)).reply.SignedIn?
    ensures var r := Serve(cfg, db, now, Refresh(raw, drawn));
            exists s :: s in db.sessions && db.sessions[s].tokenHash == Sha256(raw)
              && r.reply == SignedIn(db.sessions[s].userId, drawn)
              && r.db == db.(sessions := db.sessions[s := db.sessions[s].(
                   tokenHash := Sha256(drawn), expiresAt := now + cfg.refreshLifetime, updatedAt := now)])
  {
    var s := SessionWithHash(db.sessions, Sha256(raw)).value;
    assert s in db.sessions && db.sessions[s].tokenHash == Sha256(raw);
  }

  /** A logout ends the session of the token now, and touches nothing else. */
  lemma LogoutEndsOne(cfg: Settings, db: Db, now: int, raw: RawToken)
    requires SessionsOk(db.sessions, db.nextSessionId, db.users.Keys)
    ensures var r := Serve(cfg, db, now, Logout(raw));
            && r.reply == Accepted && r.db == db.(sessions := r.db.sessions) && r.db.sessions.Keys == db.sessions.Keys
            && forall s | s in db.sessions ::
                 if db.sessions[s].tokenHash == Sha256(raw) && db.sessions[s].revokedAt.None?
                 then r.db.sessions[s] == db.sessions[s].(revokedAt := Some(now), updatedAt := now)
                 else r.db.sessions[s] == db.sessions[s]
  {
  }

  // ---- Passwords ----

  /** The users after one of them got a new password. */
  function WithDigest(users: map<nat, User>, u: nat, password: string): map<nat, User>
    requires u in users
  {
    users[u := users[u].(passwordHash := Bcrypt(password))]
  }

  /** Setting a password replaces the digest, ends the user's sessions and deletes his reset tokens. */
  lemma PasswordIsStored(db: Db, u: nat, password: string, now: int)
    requires u in db.users
    ensures var d := WithPassword(db, u, password, now);
            && d.users == WithDigest(db.users, u, password) && d.confirmations == db.confirmations
            && (forall t :: t in d.resets <==> t in db.resets && db.resets[t].userId != u)
            && (forall t | t in d.resets :: d.resets[t] == db.resets[t])
            && d.sessions.Keys == db.sessions.Keys
            && (forall s | s in db.sessions ::
                  d.sessions[s] == if db.sessions[s].userId == u && db.sessions[s].revokedAt.None?
                                   then db.sessions[s].(revokedAt := Some(now), updatedAt := now) else db.sessions[s])
  {
  }

  /** A reset with a live token puts the new password in force for its owner; any other changes nothing. */
  lemma ResetIffLive(cfg: Settings, db: Db, now: int, raw: RawToken, password: string)
    requires Constraints(db)
    ensures var r := Serve(cfg, db, now, ResetPassword(raw, password));
            && (forall t | t in db.resets && db.resets[t].tokenHash == Sha256(raw) && now < db.resets[t].expiresAt ::
                  db.resets[t].userId in db.users && r.reply == Accepted
                  && r.db.users == WithDigest(db.users, db.resets[t].userId, password))
            && ((forall t | t in db.resets && db.resets[t].tokenHash == Sha256(raw) ::
                   db.resets[t].expiresAt <= now) ==>
                  r.reply == InvalidToken && r.db == db && r.events == [])
  {
    hide JobsOk, SessionsOk, Cascade;
  }

  /** Which answer a change of password gets, and that only an accepted one changes anything. */
  lemma ChangeIff(cfg: Settings, db: Db, now: int, u: nat, current: string, password: string)
    ensures var r := Serve(cfg, db, now, ChangePassword(u, current, password));
            && (r.reply == Accepted <==> Authorised(db, u, current) && password != current)
            && (r.reply == PasswordReuse <==> Authorised(db, u, current) && password == current)
            && (r.reply == InvalidCurrentPassword <==>
                 u in db.users && db.users[u].verifiedAt.Some? && db.users[u].passwordHash != Bcrypt(current))
            && (r.reply == Unauthorized <==> u !in db.users || db.users[u].verifiedAt.None?)
            && (r.reply == Accepted ==> u in db.users && r.db.users == WithDigest(db.users, u, password))
            && (r.reply != Accepted ==> r.db == db && r.events == [])
  {
  }

  // ---- Accounts ----

  /** A live confirmation token confirms its owner at the time of the request, and nobody else. */
  lemma ConfirmVerifies(cfg: Settings, db: Db, now: int, raw: RawToken)
    requires Constraints(db)
    ensures var r := Serve(cfg, db, now, ConfirmEmail(raw));
            && (forall t | t in db.confirmations && db.confirmations[t].tokenHash == Sha256(raw)
                           && now < db.confirmations[t].expiresAt ::
                  var u := db.confirmations[t].userId;
                  u in db.users && r.reply == Accepted
                  && r.db.users == db.users[u := db.users[u].(verifiedAt := Some(now))])
            && ((forall t | t in db.confirmations && db.confirmations[t].tokenHash == Sha256(raw) ::
                   db.confirmations[t].expiresAt <= now) ==> r.reply == InvalidToken && r.db == db)
  {
    hide JobsOk, SessionsOk, Cascade;
  }

  /** Who may delete an account, and that all of it goes while everything of others stays. */
  lemma DeletionIff(cfg: Settings, db: Db, now: int, u: nat, password: string)
    ensures var r := Serve(cfg, db, now, DeleteAccount(u, password));
            && (r.reply == Accepted <==> Authorised(db, u, password))
            && (r.reply == InvalidCurrentPassword <==>
                 u in db.users && db.users[u].verifiedAt.Some? && db.users[u].passwordHash != Bcrypt(password))
            && (r.reply == Unauthorized <==> u !in db.users || db.users[u].verifiedAt.None?)
            && (r.reply != Accepted ==> r.db == db)
            && (r.reply == Accepted ==> OnlyOthersLeft(db, r.db, u))
  {
  }

  ghost predicate OnlyOthersLeft(db: Db, d: Db, u: nat) {
    && d.users == db.users - {u}
    && (forall t :: t in d.confirmations <==> t in db.confirmations && db.confirmations[t].userId != u)
    && (forall t | t in d.confirmations :: d.confirmations[t] == db.confirmations[t])
    && (forall t :: t in d.resets <==> t in db.resets && db.resets[t].userId != u)
    && (forall t | t in d.resets :: d.resets[t] == db.resets[t])
    && (forall s :: s in d.sessions <==> s in db.sessions && db.sessions[s].userId != u)
    && (forall s | s in d.sessions :: d.sessions[s] == db.sessions[s])
  }

  /** A report goes to the configured address, answers to the reporter, and is due at once. */
  lemma ReportIsQueued(cfg: Settings, db: Db, now: int, report: string, reporter: Option<string>, uuid: nat)
    requires forall j | j in db.jobs :: db.jobs[j].key != ReportKey(uuid)
    ensures var r := Serve(cfg, db, now, SubmitReport(report, reporter, uuid));
            && (r.reply == ReportsUnavailable <==> cfg.reportTo.None?)
            && (cfg.reportTo.None? ==> r.db == db)
            && (cfg.reportTo.Some? ==>
                  && r.reply == Accepted && r.db.jobs.Keys == db.jobs.Keys + {db.nextJobId}
                  && (forall j | j in db.jobs && j != db.nextJobId :: r.db.jobs[j] == db.jobs[j])
                  && var job := r.db.jobs[db.nextJobId];
                     && job.toAddress == cfg.reportTo.value && job.replyTo == reporter && job.key == ReportKey(uuid)
                     && job.textBody == ReportBody(report) == job.htmlBody && job.nextAttemptAt == now
                     && job.attempts == 0 && job.failedAt.None? && job.lockedUntil.None?
                     && job.confirmationTokenId.None? && job.resetTokenId.None?)
  {
  }

  // ---- Asking for a mail ----

  /** The account with this address still waits for confirmation, or has been confirmed. */
  predicate Eligible(db: Db, p: Purpose, u: nat, email: string) {
    u in db.users && db.users[u].email == email
    && (db.users[u].verifiedAt.None? <==> p == Confirming)
  }

  /** No token of the user is younger than the cooldown. */
  predicate CooledDown(tokens: Tokens, u: nat, cooldown: int, now: int) {
    forall t | t in tokens && tokens[t].userId == u :: tokens[t].createdAt + cooldown <= now
  }

  /** The stored token and the queued mail agree: the mail goes to the owner and carries what was drawn. */
  ghost predicate TokenMailed(cfg: Settings, db: Db, d: Db, p: Purpose, u: nat, raw: RawToken, now: int) {
    var t, j := db.NextTokenId(p), db.nextJobId;
    var expiry := if p == Confirming then cfg.confirmationExpiry else cfg.resetExpiry;
    && u in d.users && t in d.TokensFor(p) && d.TokensFor(p)[t] == Token(u, Sha256(raw), now + expiry, now)
    && j in d.jobs && d.jobs[j].toAddress == d.users[u].email && d.jobs[j].replyTo.None?
    && d.jobs[j].textBody == d.jobs[j].htmlBody
    && d.jobs[j].textBody == (if p == Confirming then ConfirmationBody(raw, now) else ResetBody(raw, now))
    && d.jobs[j].key == (if p == Confirming then ConfirmationKey(t) else ResetKey(t))
    && d.jobs[j].confirmationTokenId == (if p == Confirming then Some(t) else None)
    && d.jobs[j].resetTokenId == (if p == Confirming then None else Some(t))
    && d.jobs[j].nextAttemptAt == now && d.jobs[j].attempts == 0
    && d.jobs[j].failedAt.None? && d.jobs[j].lockedUntil.None?
  }

  lemma ReissueMails(cfg: Settings, db: Db, p: Purpose, u: nat, raw: RawToken, now: int)
    requires u in db.users && Reissued(cfg, db, p, u, raw, now).Some?
    ensures TokenMailed(cfg, db, Reissued(cfg, db, p, u, raw, now).value, p, u, raw, now)
  {
  }

  /** Which requests for a mail issue a token: all from eligible accounts outside the cooldown, no others. */
  lemma MailedIff(cfg: Settings, db: Db, now: int, op: Op, p: Purpose)
    requires Good(db) && (if p == Confirming then op.ResendConfirmation? else op.ForgotPassword?)
    requires Unused(db.TokensFor(p), op.drawn)
    ensures var r := Serve(cfg, db, now, op);
            var cooldown := if p == Confirming then cfg.resendCooldown else cfg.resetCooldown;
            && (r.events != [] <==>
                 exists u :: Eligible(db, p, u, op.email) && CooledDown(db.TokensFor(p), u, cooldown, now))
            && (r.events != [] ==> exists u ::
                 Eligible(db, p, u, op.email) && r.events == [TokenIssued(p, u, op.drawn, now)]
                 && TokenMailed(cfg, db, r.db, p, u, op.drawn, now))
            && (r.events == [] ==> r.db == db)
  {
    hide JobsOk, SessionsOk, AccountRules, Reissued, TokenMailed;
    var u := UserWithEmail(db, op.email);
    if u.Some? && Eligible(db, p, u.value, op.email) {
      ReissueSucceeds(cfg, db, p, u.value, op.drawn, now);
      ReissueMails(cfg, db, p, u.value, op.drawn, now);
    }
  }

  /** A successful registration stores the account as given and mails its first token. */
  lemma RegistrationMails(cfg: Settings, db: Db, now: int, op: Op)
    requires Constraints(db) && op.Register? && Serve(cfg, db, now, op).reply == Accepted
    ensures var r := Serve(cfg, db, now, op);
            && op.terms.Some? && r.events == [TokenIssued(Confirming, db.nextUserId, op.drawn, now)]
            && r.db.users == db.users[db.nextUserId :=
                 User(op.email, Bcrypt(op.password), None, op.profile, op.terms.value, now)]
            && TokenMailed(cfg, db, r.db, Confirming, db.nextUserId, op.drawn, now)
  {
    hide JobsOk, SessionsOk, TokensOk, Reissued, TokenMailed, Cascade;
    var created := WithUser(db, NewUser(op.email, op.password, op.profile, op.terms.value, now));
    AddUserKeeps(db, NewUser(op.email, op.password, op.profile, op.terms.value, now));
    ReissueMails(cfg, created, Confirming, db.nextUserId, op.drawn, now);
    ReissueKeepsUsers(cfg, created, Confirming, db.nextUserId, op.drawn, now);
    MailedAlike(cfg, db, created, Serve(cfg, db, now, op).db, db.nextUserId, op.drawn, now);
  }

  lemma ReissueKeepsUsers(cfg: Settings, db: Db, p: Purpose, u: nat, raw: RawToken, now: int)
    requires u in db.users && Reissued(cfg, db, p, u, raw, now).Some?
    ensures Reissued(cfg, db, p, u, raw, now).value.users == db.users
  {
  }

  lemma MailedAlike(cfg: Settings, db: Db, created: Db, d: Db, u: nat, raw: RawToken, now: int)
    requires created == db.(users := created.users, nextUserId := created.nextUserId)
    ensures TokenMailed(cfg, db, d, Confirming, u, raw, now) <==> TokenMailed(cfg, created, d, Confirming, u, raw, now)
  {
  }

  /** The token in the mail works: used at once it is accepted, unless it was made to expire at once. */
  lemma MailedTokenWorks(cfg: Settings, db: Db, d: Db, p: Purpose, u: nat, raw: RawToken, password: string, now: int)
    requires Good(d) && TokenMailed(cfg, db, d, p, u, raw, now)
    ensures p == Confirming ==>
              (Serve(cfg, d, now, ConfirmEmail(raw)).reply == Accepted <==> cfg.confirmationExpiry > 0)
    ensures p == Resetting ==>
              (Serve(cfg, d, now, ResetPassword(raw, password)).reply == Accepted <==> cfg.resetExpiry > 0)
  {
    hide JobsOk, SessionsOk, AccountRules, Cascade, UsersOk;
    var tokens := d.TokensFor(p);
    var t := db.NextTokenId(p);
    assert tokens[t].tokenHash == Sha256(raw);
    assert TokenWithHash(tokens, Sha256(raw)) == Some(t);
  }
}
