/**
 * What each request of app/auth/service.py does to the database, in one step.
 * Every request is one transaction and samples the clock inside it.
 */
module AuthSpec {
  import opened Prelude
  import opened Mail
  import opened JobTable
  import opened Tables

  /** The configured durations; their pattern admits no negative value. */
  datatype Settings = Settings(
    confirmationExpiry: nat,
    resetExpiry: nat,
    resendCooldown: nat,
    resetCooldown: nat,
    refreshLifetime: nat,
    reportTo: Option<string>)
  {
    function Expiry(p: Purpose): nat { if p.Confirming? then confirmationExpiry else resetExpiry }
    function Cooldown(p: Purpose): nat { if p.Confirming? then resendCooldown else resetCooldown }
  }

  /** Requests; `drawn` is the token that `secrets` draws, `terms` the published version found. */
  datatype Op =
    | Register(email: string, password: string, profile: Profile, terms: Option<string>, drawn: RawToken)
    | ConfirmEmail(raw: RawToken)
    | ResendConfirmation(email: string, drawn: RawToken)
    | ForgotPassword(email: string, drawn: RawToken)
    | ResetPassword(raw: RawToken, password: string)
    | ChangePassword(userId: nat, current: string, password: string)
    | Login(email: string, password: string, drawn: RawToken)
    | Refresh(raw: RawToken, drawn: RawToken)
    | Logout(raw: RawToken)
    | DeleteAccount(userId: nat, password: string)
    | SubmitReport(report: string, reporter: Option<string>, uuid: nat)

  datatype Reply =
    | Accepted
    | SignedIn(userId: nat, refreshToken: RawToken)
    | DuplicateEmail
    | TermsUnavailable
    | InvalidToken
    | InvalidCredentials
    | UnconfirmedEmail
    | InvalidCurrentPassword
    | PasswordReuse
    | Unauthorized
    | ReportsUnavailable
    | ServerError

  /** What requests did, as far as later requests depend on it. */
  datatype AuthEvent =
    | TokenIssued(purpose: Purpose, userId: nat, raw: RawToken, at: int)
    | SessionIssued(sessionId: nat, userId: nat, raw: RawToken, at: int)
    | PasswordSet(userId: nat, at: int)

  datatype Served = Served(db: Db, reply: Reply, events: seq<AuthEvent>)

  function Refused(db: Db, reply: Reply): Served { Served(db, reply, []) }

  // ---- Lookups ----

  ghost function UserWithEmail(db: Db, email: string): (r: Option<nat>)
    ensures r.Some? ==> r.value in db.users && db.users[r.value].email == email
    ensures r.None? ==> forall u | u in db.users :: db.users[u].email != email
  {
    if exists u :: u in db.users && db.users[u].email == email then
      var u :| u in db.users && db.users[u].email == email;
      Some(u)
    else None
  }

  ghost function TokenWithHash(tokens: Tokens, h: Hash): (r: Option<nat>)
    ensures r.Some? ==> r.value in tokens && tokens[r.value].tokenHash == h
    ensures r.None? ==> forall t | t in tokens :: tokens[t].tokenHash != h
  {
    if exists t :: t in tokens && tokens[t].tokenHash == h then
      var t :| t in tokens && tokens[t].tokenHash == h;
      Some(t)
    else None
  }

  ghost function TokenOfUser(tokens: Tokens, u: nat): (r: Option<nat>)
    ensures r.Some? ==> r.value in tokens && tokens[r.value].userId == u
    ensures r.None? ==> forall t | t in tokens :: tokens[t].userId != u
  {
    if exists t :: t in tokens && tokens[t].userId == u then
      var t :| t in tokens && tokens[t].userId == u;
      Some(t)
    else None
  }

  ghost function SessionWithHash(sessions: Sessions, h: Hash): (r: Option<nat>)
    ensures r.Some? ==> r.value in sessions && sessions[r.value].tokenHash == h
    ensures r.None? ==> forall s | s in sessions :: sessions[s].tokenHash != h
  {
    if exists s :: s in sessions && sessions[s].tokenHash == h then
      var s :| s in sessions && sessions[s].tokenHash == h;
      Some(s)
    else None
  }

  // ---- Tokens and their mails ----

  function TokenMail(p: Purpose, user: User, raw: RawToken, tokenId: nat, now: int): EmailMessage {
    var body := if p.Confirming? then ConfirmationBody(raw, now) else ResetBody(raw, now);
    EmailMessage(user.email, None,
                 if p.Confirming? then "Confirm your email address" else "Reset your password",
                 body, body, Some(KeyFor(p, tokenId)))
  }

  /** Deleting the user's tokens of one purpose takes their queued mails along. */
  function WithoutTokens(db: Db, p: Purpose, u: nat): Db {
    var gone := TokensOf(db.TokensFor(p), u);
    if p.Confirming? then
      db.(confirmations := db.confirmations - gone, jobs := Cascade(db.jobs, gone, {}))
    else
      db.(resets := db.resets - gone, jobs := Cascade(db.jobs, {}, gone))
  }

  function WithToken(db: Db, p: Purpose, t: Token): Db {
    if p.Confirming? then
      db.(confirmations := db.confirmations[db.nextConfirmationId := t],
          nextConfirmationId := db.nextConfirmationId + 1)
    else
      db.(resets := db.resets[db.nextResetId := t], nextResetId := db.nextResetId + 1)
  }

  function WithJob(db: Db, m: EmailMessage, now: int, confirmation: Option<nat>, reset: Option<nat>): Db
    requires m.key.Some?
  {
    db.(jobs := db.jobs[db.nextJobId := NewJob(m, now, confirmation, reset)], nextJobId := db.nextJobId + 1)
  }

  /** A unique constraint on the token table would be violated. */
  predicate TokenCollides(tokens: Tokens, u: nat, h: Hash) {
    exists t | t in tokens :: tokens[t].userId == u || tokens[t].tokenHash == h
  }

  function ConfirmationLink(p: Purpose, id: nat): Option<nat> { if p.Confirming? then Some(id) else None }
  function ResetLink(p: Purpose, id: nat): Option<nat> { if p.Confirming? then None else Some(id) }

  /** Replace the user's token and queue its mail; None when a constraint makes the database refuse. */
  function Reissued(cfg: Settings, db: Db, p: Purpose, u: nat, raw: RawToken, now: int): Option<Db>
    requires u in db.users
  {
    var clean := WithoutTokens(db, p, u);
    var id := db.NextTokenId(p);
    if TokenCollides(clean.TokensFor(p), u, Sha256(raw)) then None
    else
      var stored := WithToken(clean, p, Token(u, Sha256(raw), now + cfg.Expiry(p), now));
      if Collides(stored.jobs, KeyFor(p, id), ConfirmationLink(p, id), ResetLink(p, id)) then None
      else Some(WithJob(stored, TokenMail(p, db.users[u], raw, id, now), now,
                        ConfirmationLink(p, id), ResetLink(p, id)))
  }

  /** A new token for an eligible user, unless the previous one is younger than the cooldown. */
  ghost function Requested(cfg: Settings, db: Db, p: Purpose, u: nat, raw: RawToken, now: int): Served
    requires u in db.users
  {
    var existing := TokenOfUser(db.TokensFor(p), u);
    if existing.Some? && db.TokensFor(p)[existing.value].createdAt + cfg.Cooldown(p) > now then
      Refused(db, Accepted)
    else
      match Reissued(cfg, db, p, u, raw, now)
      case None => Refused(db, ServerError)
      case Some(d) => Served(d, Accepted, [TokenIssued(p, u, raw, now)])
  }

  // ---- Users ----

  function NewUser(email: string, password: string, profile: Profile, terms: string, now: int): User {
    User(email, Bcrypt(password), None, profile, terms, now)
  }

  function WithUser(db: Db, user: User): Db {
    db.(users := db.users[db.nextUserId := user], nextUserId := db.nextUserId + 1)
  }

  // ---- Sessions ----

  /** UPDATE ... WHERE user_id = u AND revoked_at IS NULL. */
  function Revoked(sessions: Sessions, u: nat, now: int): Sessions {
    map s | s in sessions ::
      if sessions[s].userId == u && sessions[s].revokedAt.None?
      then sessions[s].(revokedAt := Some(now), updatedAt := now)
      else sessions[s]
  }

  function WithPassword(db: Db, u: nat, password: string, now: int): Db
    requires u in db.users
  {
    var d := WithoutTokens(db, Resetting, u);
    d.(users := db.users[u := db.users[u].(passwordHash := Bcrypt(password))],
       sessions := Revoked(db.sessions, u, now))
  }

  /** Deleting a user cascades to tokens, sessions and, through the tokens, to jobs. */
  function WithoutUser(db: Db, u: nat): Db {
    var c, r := TokensOf(db.confirmations, u), TokensOf(db.resets, u);
    db.(users := db.users - {u},
        confirmations := db.confirmations - c,
        resets := db.resets - r,
        sessions := db.sessions - (set s | s in db.sessions && db.sessions[s].userId == u),
        jobs := Cascade(db.jobs, c, r))
  }

  /** The account behind an access token: it must still exist and be confirmed. */
  predicate IsCurrentUser(db: Db, u: nat) {
    u in db.users && db.users[u].verifiedAt.Some?
  }

  function ReportMail(to: string, reporter: Option<string>, report: string, uuid: nat): EmailMessage {
    EmailMessage(to, reporter, "New Avilys issue report", ReportBody(report), ReportBody(report),
                 Some(ReportKey(uuid)))
  }

  // ---- Requests ----

  ghost function Serve(cfg: Settings, db: Db, now: int, op: Op): Served {
    match op
    case Register(email, password, profile, terms, drawn) =>
      Registered(cfg, db, now, email, password, profile, terms, drawn)
    case ConfirmEmail(raw) => Confirmed(db, now, raw)
    case ResendConfirmation(email, drawn) =>
      var u := UserWithEmail(db, email);
      if u.None? || db.users[u.value].verifiedAt.Some? then Refused(db, Accepted)
      else Requested(cfg, db, Confirming, u.value, drawn, now)
    case ForgotPassword(email, drawn) =>
      var u := UserWithEmail(db, email);
      if u.None? || db.users[u.value].verifiedAt.None? then Refused(db, Accepted)
      else Requested(cfg, db, Resetting, u.value, drawn, now)
    case ResetPassword(raw, password) => PasswordReset(db, now, raw, password)
    case ChangePassword(u, current, password) =>
      if !IsCurrentUser(db, u) then Refused(db, Unauthorized)
      else if !Verifies(current, db.users[u].passwordHash) then Refused(db, InvalidCurrentPassword)
      else if Verifies(password, db.users[u].passwordHash) then Refused(db, PasswordReuse)
      else Served(WithPassword(db, u, password, now), Accepted, [PasswordSet(u, now)])
    case Login(email, password, drawn) => LoggedIn(cfg, db, now, email, password, drawn)
    case Refresh(raw, drawn) => Refreshed(cfg, db, now, raw, drawn)
    case Logout(raw) =>
      var s := SessionWithHash(db.sessions, Sha256(raw));
      if s.None? || db.sessions[s.value].revokedAt.Some? then Refused(db, Accepted)
      else Refused(db.(sessions := db.sessions[s.value :=
                         db.sessions[s.value].(revokedAt := Some(now), updatedAt := now)]), Accepted)
    case DeleteAccount(u, password) =>
      if !IsCurrentUser(db, u) then Refused(db, Unauthorized)
      else if !Verifies(password, db.users[u].passwordHash) then Refused(db, InvalidCurrentPassword)
      else Refused(WithoutUser(db, u), Accepted)
    case SubmitReport(report, reporter, uuid) =>
      if cfg.reportTo.None? then Refused(db, ReportsUnavailable)
      else if Collides(db.jobs, ReportKey(uuid), None, None) then Refused(db, ServerError)
      else Refused(WithJob(db, ReportMail(cfg.reportTo.value, reporter, report, uuid), now, None, None), Accepted)
  }

  ghost function Registered(cfg: Settings, db: Db, now: int, email: string, password: string,
                            profile: Profile, terms: Option<string>, drawn: RawToken): Served
  {
    if UserWithEmail(db, email).Some? then Refused(db, DuplicateEmail)
    else if terms.None? then Refused(db, TermsUnavailable)
    else
      var u := db.nextUserId;
      var created := WithUser(db, NewUser(email, password, profile, terms.value, now));
      match Reissued(cfg, created, Confirming, u, drawn, now)
      case None => Refused(db, DuplicateEmail)
      case Some(d) => Served(d, Accepted, [TokenIssued(Confirming, u, drawn, now)])
  }

  ghost function Confirmed(db: Db, now: int, raw: RawToken): Served {
    var t := TokenWithHash(db.confirmations, Sha256(raw));
    if t.None? || db.confirmations[t.value].expiresAt <= now
       || db.confirmations[t.value].userId !in db.users then Refused(db, InvalidToken)
    else
      var u := db.confirmations[t.value].userId;
      var d := WithoutTokens(db, Confirming, u);
      Refused(d.(users := db.users[u := db.users[u].(verifiedAt := Some(now))]), Accepted)
  }

  ghost function PasswordReset(db: Db, now: int, raw: RawToken, password: string): Served {
    var t := TokenWithHash(db.resets, Sha256(raw));
    if t.None? || db.resets[t.value].expiresAt <= now
       || db.resets[t.value].userId !in db.users then Refused(db, InvalidToken)
    else
      var u := db.resets[t.value].userId;
      Served(WithPassword(db, u, password, now), Accepted, [PasswordSet(u, now)])
  }

  ghost function LoggedIn(cfg: Settings, db: Db, now: int, email: string, password: string,
                          drawn: RawToken): Served
  {
    var u := UserWithEmail(db, email);
    if u.None? || !Verifies(password, db.users[u.value].passwordHash) then Refused(db, InvalidCredentials)
    else if db.users[u.value].verifiedAt.None? then Refused(db, UnconfirmedEmail)
    else if SessionWithHash(db.sessions, Sha256(drawn)).Some? then Refused(db, ServerError)
    else
      var s := db.nextSessionId;
      var row := RefreshSession(u.value, Sha256(drawn), now + cfg.refreshLifetime, None, now);
      Served(db.(sessions := db.sessions[s := row], nextSessionId := s + 1),
             SignedIn(u.value, drawn), [SessionIssued(s, u.value, drawn, now)])
  }

  ghost function Refreshed(cfg: Settings, db: Db, now: int, raw: RawToken, drawn: RawToken): Served {
    var s := SessionWithHash(db.sessions, Sha256(raw));
    if s.None? || db.sessions[s.value].revokedAt.Some? || db.sessions[s.value].expiresAt <= now then
      Refused(db, InvalidToken)
    else if !IsCurrentUser(db, db.sessions[s.value].userId) then Refused(db, InvalidToken)
    else if SessionWithHash(db.sessions - {s.value}, Sha256(drawn)).Some? then Refused(db, ServerError)
    else
      var row := db.sessions[s.value];
      Served(db.(sessions := db.sessions[s.value :=
                   row.(tokenHash := Sha256(drawn), expiresAt := now + cfg.refreshLifetime, updatedAt := now)]),
             SignedIn(row.userId, drawn), [SessionIssued(s.value, row.userId, drawn, now)])
  }
}
