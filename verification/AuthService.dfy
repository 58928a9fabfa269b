/** app/auth/service.py, app/users/service.py and app/reports/service.py, statement by statement. */
module AuthService {
  import opened Prelude
  import opened Tables
  import opened AuthSpec
  import opened AuthRepositories
  import opened AuthInvariant
  import opened AuthAnswers
  import MailerRepository

  /** Replace the token and queue its mail, or report that the database refused one of the rows. */
  method IssueToken(cfg: Settings, db: Database, p: Purpose, u: nat, raw: RawToken, now: int)
    returns (ok: bool)
    requires Constraints(db.Contents()) && u in db.users
    modifies db
    ensures ok <==> Reissued(cfg, old(db.Contents()), p, u, raw, now).Some?
    ensures ok ==> db.Contents() == Reissued(cfg, old(db.Contents()), p, u, raw, now).value
  {
    var user := db.users[u];
    var id := ReplaceToken(db, p, u, Sha256(raw), now + cfg.Expiry(p), now);
    if id.None? {
      return false;
    }
    var mail := TokenMail(p, user, raw, id.value, now);
    var job := MailerRepository.Enqueue(db, mail, now, ConfirmationLink(p, id.value), ResetLink(p, id.value));
    ok := job.Queued?;
  }

  method Register(cfg: Settings, db: Database, now: int, email: string, password: string,
                  profile: Profile, terms: Option<string>, drawn: RawToken)
    returns (r: Reply)
    requires Good(db.Contents())
    modifies db
    ensures var s := Serve(cfg, old(db.Contents()), now, Op.Register(email, password, profile, terms, drawn));
            db.Contents() == s.db && r == s.reply
    ensures Good(db.Contents())
  {
    hide TokensOk, SessionsOk, JobsOk, Reissued, AccountRules;
    ghost var before := db.Contents();
    ServeKeeps(cfg, before, now, Op.Register(email, password, profile, terms, drawn));
    var existing := GetByEmail(db, email);
    if existing.Some? {
      return DuplicateEmail;
    }
    if terms.None? {
      return TermsUnavailable;
    }
    var saved := db.Contents();
    var u := CreateUser(db, email, password, profile, terms.value, now);
    AddUserKeeps(before, NewUser(email, password, profile, terms.value, now));
    var ok := IssueToken(cfg, db, Confirming, u, drawn, now);
    if !ok {
      Restore(db, saved);
      return DuplicateEmail;
    }
    r := Reply.Accepted;
  }

  method ConfirmEmail(cfg: Settings, db: Database, now: int, raw: RawToken) returns (r: Reply)
    requires Good(db.Contents())
    modifies db
    ensures var s := Serve(cfg, old(db.Contents()), now, Op.ConfirmEmail(raw));
            db.Contents() == s.db && r == s.reply
    ensures Good(db.Contents())
  {
    ServeKeeps(cfg, db.Contents(), now, Op.ConfirmEmail(raw));
    var confirmation := GetToken(db, Confirming, Sha256(raw));
    if confirmation.None? || db.confirmations[confirmation.value].expiresAt <= now {
      return InvalidToken;
    }
    var u := db.confirmations[confirmation.value].userId;
    if u !in db.users {
      return InvalidToken;
    }
    db.users := db.users[u := db.users[u].(verifiedAt := Some(now))];
    DeleteTokensForUser(db, Confirming, u);
    r := Reply.Accepted;
  }

  /** The common end of resend_confirmation and forgot_password. */
  method RequestToken(cfg: Settings, db: Database, p: Purpose, u: nat, drawn: RawToken, now: int)
    returns (r: Reply)
    requires Good(db.Contents()) && u in db.users
    modifies db
    ensures db.Contents() == Requested(cfg, old(db.Contents()), p, u, drawn, now).db
    ensures r == Requested(cfg, old(db.Contents()), p, u, drawn, now).reply
    ensures Unused(old(db.Contents()).TokensFor(p), drawn) ==> r == Reply.Accepted
  {
    if Unused(db.Contents().TokensFor(p), drawn) {
      ReissueSucceeds(cfg, db.Contents(), p, u, drawn, now);
    }
    var existing := GetTokenOfUser(db, p, u);
    if existing.Some? {
      var tokens := if p.Confirming? then db.confirmations else db.resets;
      if tokens[existing.value].createdAt + cfg.Cooldown(p) > now {
        return Reply.Accepted;
      }
    }
    var saved := db.Contents();
    var ok := IssueToken(cfg, db, p, u, drawn, now);
    if !ok {
      Restore(db, saved);
      return ServerError;
    }
    r := Reply.Accepted;
  }

  method ResendConfirmation(cfg: Settings, db: Database, now: int, email: string, drawn: RawToken)
    returns (r: Reply)
    requires Good(db.Contents())
    modifies db
    ensures var s := Serve(cfg, old(db.Contents()), now, Op.ResendConfirmation(email, drawn));
            db.Contents() == s.db && r == s.reply
    ensures Unused(old(db.confirmations), drawn) ==> r == Reply.Accepted
    ensures Good(db.Contents())
  {
    ServeKeeps(cfg, db.Contents(), now, Op.ResendConfirmation(email, drawn));
    var user := GetByEmail(db, email);
    if user.None? || db.users[user.value].verifiedAt.Some? {
      return Reply.Accepted;
    }
    r := RequestToken(cfg, db, Confirming, user.value, drawn, now);
  }

  method ForgotPassword(cfg: Settings, db: Database, now: int, email: string, drawn: RawToken)
    returns (r: Reply)
    requires Good(db.Contents())
    modifies db
    ensures var s := Serve(cfg, old(db.Contents()), now, Op.ForgotPassword(email, drawn));
            db.Contents() == s.db && r == s.reply
    ensures Unused(old(db.resets), drawn) ==> r == Reply.Accepted
    ensures Good(db.Contents())
  {
    ServeKeeps(cfg, db.Contents(), now, Op.ForgotPassword(email, drawn));
    var user := GetByEmail(db, email);
    if user.None? || db.users[user.value].verifiedAt.None? {
      return Reply.Accepted;
    }
    r := RequestToken(cfg, db, Resetting, user.value, drawn, now);
  }

  /** The common end of reset_password and change_password. */
  method SetPassword(db: Database, u: nat, password: string, now: int)
    requires u in db.users
    modifies db
    ensures db.Contents() == WithPassword(old(db.Contents()), u, password, now)
    ensures db.users == WithDigest(old(db.users), u, password)
  {
    db.users := db.users[u := db.users[u].(passwordHash := Bcrypt(password))];
    DeleteTokensForUser(db, Resetting, u);
    RevokeForUser(db, u, now);
  }

  method ResetPassword(cfg: Settings, db: Database, now: int, raw: RawToken, password: string)
    returns (r: Reply)
    requires Good(db.Contents())
    modifies db
    ensures var s := Serve(cfg, old(db.Contents()), now, Op.ResetPassword(raw, password));
            db.Contents() == s.db && r == s.reply
    ensures Good(db.Contents())
    ensures forall t | t in old(db.resets) && old(db.resets)[t].tokenHash == Sha256(raw)
                       && now < old(db.resets)[t].expiresAt ::
              old(db.resets)[t].userId in old(db.users) && r == Reply.Accepted
              && db.users == WithDigest(old(db.users), old(db.resets)[t].userId, password)
  {
    ResetIffLive(cfg, db.Contents(), now, raw, password);
    ServeKeeps(cfg, db.Contents(), now, Op.ResetPassword(raw, password));
    var token := GetToken(db, Resetting, Sha256(raw));
    if token.None? || db.resets[token.value].expiresAt <= now {
      return InvalidToken;
    }
    var u := db.resets[token.value].userId;
    if u !in db.users {
      return InvalidToken;
    }
    SetPassword(db, u, password, now);
    r := Reply.Accepted;
  }

  method ChangePassword(cfg: Settings, db: Database, now: int, u: nat, current: string, password: string)
    returns (r: Reply)
    requires Good(db.Contents())
    modifies db
    ensures var s := Serve(cfg, old(db.Contents()), now, Op.ChangePassword(u, current, password));
            db.Contents() == s.db && r == s.reply
    ensures Good(db.Contents())
    ensures r == Reply.Accepted <==> Authorised(old(db.Contents()), u, current) && password != current
    ensures r == Reply.Accepted ==> u in old(db.users) && db.users == WithDigest(old(db.users), u, password)
    ensures r != Reply.Accepted ==> db.Contents() == old(db.Contents())
  {
    ChangeIff(cfg, db.Contents(), now, u, current, password);
    ServeKeeps(cfg, db.Contents(), now, Op.ChangePassword(u, current, password));
    if u !in db.users || db.users[u].verifiedAt.None? {
      return Unauthorized;
    }
    if !Verifies(current, db.users[u].passwordHash) {
      return InvalidCurrentPassword;
    }
    if Verifies(password, db.users[u].passwordHash) {
      return PasswordReuse;
    }
    SetPassword(db, u, password, now);
    r := Reply.Accepted;
  }

  method Login(cfg: Settings, db: Database, now: int, email: string, password: string, drawn: RawToken)
    returns (r: Reply)
    requires Good(db.Contents())
    modifies db
    ensures var s := Serve(cfg, old(db.Contents()), now, Op.Login(email, password, drawn));
            db.Contents() == s.db && r == s.reply
    ensures Good(db.Contents())
    ensures SessionUnused(old(db.sessions), drawn) ==>
              (r.SignedIn? <==> exists u :: Credentials(old(db.Contents()), u, email, password)
                                            && old(db.users)[u].verifiedAt.Some?)
    ensures r.SignedIn? ==> Credentials(old(db.Contents()), r.userId, email, password)
                            && old(db.users)[r.userId].verifiedAt.Some?
    ensures !r.SignedIn? ==> db.Contents() == old(db.Contents())
  {
    hide TokensOk, JobsOk, UsersOk, SessionsOk, AccountRules, SessionUnused, Credentials;
    LoginOutcome(cfg, db.Contents(), now, email, password, drawn);
    if SessionUnused(db.sessions, drawn) { LoginIff(cfg, db.Contents(), now, email, password, drawn); }
    ServeKeeps(cfg, db.Contents(), now, Op.Login(email, password, drawn));
    var user := GetByEmail(db, email);
    if user.None? || !Verifies(password, db.users[user.value].passwordHash) {
      return InvalidCredentials;
    }
    if db.users[user.value].verifiedAt.None? {
      return UnconfirmedEmail;
    }
    var s := CreateSession(db, user.value, Sha256(drawn), now + cfg.refreshLifetime, now);
    if s.None? {
      return ServerError;
    }
    r := SignedIn(user.value, drawn);
  }

  method Refresh(cfg: Settings, db: Database, now: int, raw: RawToken, drawn: RawToken) returns (r: Reply)
    requires Good(db.Contents())
    modifies db
    ensures var s := Serve(cfg, old(db.Contents()), now, Op.Refresh(raw, drawn));
            db.Contents() == s.db && r == s.reply
    ensures Good(db.Contents())
  {
    ServeKeeps(cfg, db.Contents(), now, Op.Refresh(raw, drawn));
    var stored := GetSession(db, Sha256(raw));
    if stored.None? || db.sessions[stored.value].revokedAt.Some? || db.sessions[stored.value].expiresAt <= now {
      return InvalidToken;
    }
    var u := db.sessions[stored.value].userId;
    if u !in db.users || db.users[u].verifiedAt.None? {
      return InvalidToken;
    }
    var ok := Rotate(db, stored.value, Sha256(drawn), now + cfg.refreshLifetime, now);
    if !ok {
      return ServerError;
    }
    r := SignedIn(u, drawn);
  }

  method Logout(cfg: Settings, db: Database, now: int, raw: RawToken) returns (r: Reply)
    requires Good(db.Contents())
    modifies db
    ensures var s := Serve(cfg, old(db.Contents()), now, Op.Logout(raw));
            db.Contents() == s.db && r == s.reply
    ensures Good(db.Contents())
  {
    ServeKeeps(cfg, db.Contents(), now, Op.Logout(raw));
    var stored := GetSession(db, Sha256(raw));
    if stored.Some? && db.sessions[stored.value].revokedAt.None? {
      Revoke(db, stored.value, now);
    }
    r := Reply.Accepted;
  }

  method DeleteAccount(cfg: Settings, db: Database, now: int, u: nat, password: string) returns (r: Reply)
    requires Good(db.Contents())
    modifies db
    ensures var s := Serve(cfg, old(db.Contents()), now, Op.DeleteAccount(u, password));
            db.Contents() == s.db && r == s.reply
    ensures Good(db.Contents())
    ensures r == Reply.Accepted <==> Authorised(old(db.Contents()), u, password)
    ensures r == Reply.Accepted ==> OnlyOthersLeft(old(db.Contents()), db.Contents(), u)
    ensures r != Reply.Accepted ==> db.Contents() == old(db.Contents())
  {
    DeletionIff(cfg, db.Contents(), now, u, password);
    ServeKeeps(cfg, db.Contents(), now, Op.DeleteAccount(u, password));
    if u !in db.users || db.users[u].verifiedAt.None? {
      return Unauthorized;
    }
    if !Verifies(password, db.users[u].passwordHash) {
      return InvalidCurrentPassword;
    }
    DeleteUser(db, u);
    r := Reply.Accepted;
  }

  method SubmitReport(cfg: Settings, db: Database, now: int, report: string, reporter: Option<string>, uuid: nat)
    returns (r: Reply)
    requires Good(db.Contents())
    modifies db
    ensures var s := Serve(cfg, old(db.Contents()), now, Op.SubmitReport(report, reporter, uuid));
            db.Contents() == s.db && r == s.reply
    ensures Good(db.Contents())
  {
    ServeKeeps(cfg, db.Contents(), now, Op.SubmitReport(report, reporter, uuid));
    if cfg.reportTo.None? {
      return ReportsUnavailable;
    }
    var job := MailerRepository.Enqueue(db, ReportMail(cfg.reportTo.value, reporter, report, uuid), now, None, None);
    r := if job.Queued? then Reply.Accepted else ServerError;
  }
}
