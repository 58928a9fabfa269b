/**
 * app/users/repository.py, app/auth/repository.py, app/auth/password_repository.py and
 * app/auth/session_repository.py: the statements that the services compose. The two token
 * repositories are one text over two tables, told apart here by the purpose of the token.
 */
module AuthRepositories {
  import opened Prelude
  import opened JobTable
  import opened Tables
  import opened AuthSpec

  // ---- Users ----

  method GetByEmail(db: Database, email: string) returns (r: Option<nat>)
    requires UsersOk(db.Contents())
    ensures r == UserWithEmail(db.Contents(), email)
  {
    if u :| u in db.users && db.users[u].email == email {
      r := Some(u);
    } else {
      r := None;
    }
  }

  method CreateUser(db: Database, email: string, password: string, profile: Profile, terms: string, now: int)
    returns (u: nat)
    modifies db`users, db`nextUserId
    ensures u == old(db.nextUserId) && db.nextUserId == u + 1
    ensures db.users == old(db.users)[u := User(email, Bcrypt(password), None, profile, terms, now)]
  {
    u := db.nextUserId;
    db.users := db.users[u := User(email, Bcrypt(password), None, profile, terms, now)];
    db.nextUserId := u + 1;
  }

  /** DELETE FROM users, with the cascades of the schema. */
  method DeleteUser(db: Database, u: nat)
    modifies db
    ensures db.Contents() == WithoutUser(old(db.Contents()), u)
  {
    var c, r := TokensOf(db.confirmations, u), TokensOf(db.resets, u);
    db.users := db.users - {u};
    db.sessions := db.sessions - (set s | s in db.sessions && db.sessions[s].userId == u);
    db.confirmations := db.confirmations - c;
    db.resets := db.resets - r;
    db.jobs := Cascade(db.jobs, c, r);
  }

  // ---- Confirmation and reset tokens ----

  method GetToken(db: Database, p: Purpose, h: Hash) returns (r: Option<nat>)
    requires TokensOk(db.Contents().TokensFor(p), db.Contents().NextTokenId(p), db.users.Keys)
    ensures r == TokenWithHash(db.Contents().TokensFor(p), h)
  {
    var tokens := if p.Confirming? then db.confirmations else db.resets;
    if t :| t in tokens && tokens[t].tokenHash == h {
      r := Some(t);
    } else {
      r := None;
    }
  }

  method GetTokenOfUser(db: Database, p: Purpose, u: nat) returns (r: Option<nat>)
    requires TokensOk(db.Contents().TokensFor(p), db.Contents().NextTokenId(p), db.users.Keys)
    ensures r == TokenOfUser(db.Contents().TokensFor(p), u)
  {
    var tokens := if p.Confirming? then db.confirmations else db.resets;
    if t :| t in tokens && tokens[t].userId == u {
      r := Some(t);
    } else {
      r := None;
    }
  }

  method DeleteTokensForUser(db: Database, p: Purpose, u: nat)
    modifies db`confirmations, db`resets, db`jobs
    ensures db.Contents() == WithoutTokens(old(db.Contents()), p, u)
    ensures forall t | t in db.Contents().TokensFor(p) :: db.Contents().TokensFor(p)[t].userId != u
  {
    if p.Confirming? {
      var gone := TokensOf(db.confirmations, u);
      db.confirmations := db.confirmations - gone;
      db.jobs := Cascade(db.jobs, gone, {});
    } else {
      var gone := TokensOf(db.resets, u);
      db.resets := db.resets - gone;
      db.jobs := Cascade(db.jobs, {}, gone);
    }
  }

  /** Delete the user's tokens, then insert the new one; None when the database refuses it. */
  method ReplaceToken(db: Database, p: Purpose, u: nat, h: Hash, expiresAt: int, now: int)
    returns (r: Option<nat>)
    modifies db`confirmations, db`resets, db`jobs, db`nextConfirmationId, db`nextResetId
    ensures var clean := WithoutTokens(old(db.Contents()), p, u);
            if TokenCollides(clean.TokensFor(p), u, h) then r.None?
            else r == Some(clean.NextTokenId(p))
                 && db.Contents() == WithToken(clean, p, Token(u, h, expiresAt, now))
  {
    DeleteTokensForUser(db, p, u);
    var tokens := if p.Confirming? then db.confirmations else db.resets;
    if TokenCollides(tokens, u, h) {
      return None;
    }
    var row := Token(u, h, expiresAt, now);
    if p.Confirming? {
      r := Some(db.nextConfirmationId);
      db.confirmations := db.confirmations[db.nextConfirmationId := row];
      db.nextConfirmationId := db.nextConfirmationId + 1;
    } else {
      r := Some(db.nextResetId);
      db.resets := db.resets[db.nextResetId := row];
      db.nextResetId := db.nextResetId + 1;
    }
  }

  // ---- Refresh sessions ----

  method GetSession(db: Database, h: Hash) returns (r: Option<nat>)
    requires SessionsOk(db.sessions, db.nextSessionId, db.users.Keys)
    ensures r == SessionWithHash(db.sessions, h)
  {
    if s :| s in db.sessions && db.sessions[s].tokenHash == h {
      r := Some(s);
    } else {
      r := None;
    }
  }

  method CreateSession(db: Database, u: nat, h: Hash, expiresAt: int, now: int) returns (r: Option<nat>)
    modifies db`sessions, db`nextSessionId
    ensures r.None? <==> SessionWithHash(old(db.sessions), h).Some?
    ensures r.None? ==> db.sessions == old(db.sessions) && db.nextSessionId == old(db.nextSessionId)
    ensures r.Some? ==>
              && r.value == old(db.nextSessionId) && db.nextSessionId == r.value + 1
              && db.sessions == old(db.sessions)[r.value := RefreshSession(u, h, expiresAt, None, now)]
  {
    if s :| s in db.sessions && db.sessions[s].tokenHash == h {
      return None;
    }
    r := Some(db.nextSessionId);
    db.sessions := db.sessions[db.nextSessionId := RefreshSession(u, h, expiresAt, None, now)];
    db.nextSessionId := db.nextSessionId + 1;
  }

  /** Rotate a session to a new token; false when the database refuses the new hash. */
  method Rotate(db: Database, s: nat, h: Hash, expiresAt: int, now: int) returns (ok: bool)
    requires s in db.sessions
    modifies db`sessions
    ensures ok <==> SessionWithHash(old(db.sessions) - {s}, h).None?
    ensures db.sessions == if ok
              then old(db.sessions)[s := old(db.sessions)[s].(tokenHash := h, expiresAt := expiresAt, updatedAt := now)]
              else old(db.sessions)
  {
    if v :| v in db.sessions && v != s && db.sessions[v].tokenHash == h {
      assert v in old(db.sessions) - {s};
      return false;
    }
    var row := db.sessions[s];
    row := row.(tokenHash := h);
    row := row.(expiresAt := expiresAt);
    row := row.(updatedAt := now);
    db.sessions := db.sessions[s := row];
    ok := true;
  }

  method Revoke(db: Database, s: nat, now: int)
    requires s in db.sessions
    modifies db`sessions
    ensures db.sessions == old(db.sessions)[s := old(db.sessions)[s].(revokedAt := Some(now), updatedAt := now)]
  {
    db.sessions := db.sessions[s := db.sessions[s].(revokedAt := Some(now), updatedAt := now)];
  }

  method RevokeForUser(db: Database, u: nat, now: int)
    modifies db`sessions
    ensures db.sessions == Revoked(old(db.sessions), u, now)
    ensures forall s | s in db.sessions && db.sessions[s].userId == u :: db.sessions[s].revokedAt.Some?
  {
    db.sessions := Revoked(db.sessions, u, now);
  }

  /** ROLLBACK. */
  method Restore(db: Database, saved: Db)
    modifies db
    ensures db.Contents() == saved
  {
    db.users, db.confirmations, db.resets := saved.users, saved.confirmations, saved.resets;
    db.sessions, db.jobs := saved.sessions, saved.jobs;
    db.nextUserId, db.nextConfirmationId := saved.nextUserId, saved.nextConfirmationId;
    db.nextResetId := saved.nextResetId;
    db.nextSessionId, db.nextJobId := saved.nextSessionId, saved.nextJobId;
  }
}
