/** What the replies of the account requests promise over every run, and which tokens they end for good. */
module AuthTheorems {
  import opened Prelude
  import opened Mail
  import opened JobTable
  import opened Tables
  import opened AuthSpec
  import opened AuthInvariant
  import opened System
  import opened SystemInvariant
  import opened SystemTheorems
  import OutboxInvariant
  import OutboxProtocol

  // ---- Replies ----

  /** A token that was never drawn is in no table. */
  lemma FreshTokenIsUnknown(cfg: Settings, w: World, drawn: RawToken)
    requires WorldInv(cfg, w) && !Drawn(w.auth, drawn)
    ensures forall p: Purpose, t | t in w.db.TokensFor(p) :: w.db.TokensFor(p)[t].tokenHash != Sha256(drawn)
    ensures forall s | s in w.db.sessions :: w.db.sessions[s].tokenHash != Sha256(drawn)
  {
    hide KeysBelow, RawsDistinct, Good, View, LatestSession, LatestToken, MailsSpaced;
    forall p: Purpose, t | t in w.db.TokensFor(p) ensures w.db.TokensFor(p)[t].tokenHash != Sha256(drawn) {
      OwnersTracked(cfg, w, p);
      LatestTokenIsDrawn(w.auth, p, w.db.TokensFor(p)[t].userId);
    }
    forall s | s in w.db.sessions ensures w.db.sessions[s].tokenHash != Sha256(drawn) {
      assert SessionTracked(cfg, w.auth, s, w.db.sessions[s]);
      LatestIsDrawn(w.auth, s);
    }
  }

  /** Asking for a mail never fails for a token nobody has. */
  lemma RequestedIsAccepted(cfg: Settings, w: World, p: Purpose, u: nat, drawn: RawToken)
    requires WorldInv(cfg, w) && !Drawn(w.auth, drawn) && u in w.db.users
    ensures Requested(cfg, w.db, p, u, drawn, w.clock).reply == Accepted
  {
    hide KeysBelow, RawsDistinct, TokensTracked, SessionsTracked, AccountRules, View, Reissued;
    FreshTokenIsUnknown(cfg, w, drawn);
    ReissueSucceeds(cfg, w.db, p, u, drawn, w.clock);
  }

  /** Both mail requests answer alike whether or not the address has an account, of whatever kind. */
  lemma UniformReply(cfg: Settings, w: World, op: Op)
    requires Reachable(cfg, w) && Enabled(w, Request(op)) && (op.ResendConfirmation? || op.ForgotPassword?)
    ensures Serve(cfg, w.db, w.clock, op).reply == Accepted
  {
    hide Requested, WorldInv, Reachable;
    ReachableInv(cfg, w);
    var u := UserWithEmail(w.db, op.email);
    if u.Some? {
      RequestedIsAccepted(cfg, w, if op.ResendConfirmation? then Confirming else Resetting, u.value, op.drawn);
    }
  }

  /** Registration reports a duplicate exactly for a taken address; no constraint does it by accident. */
  lemma DuplicateIffTaken(cfg: Settings, w: World, op: Op)
    requires Reachable(cfg, w) && Enabled(w, Request(op)) && op.Register?
    ensures Serve(cfg, w.db, w.clock, op).reply == DuplicateEmail <==>
              exists u :: u in w.db.users && w.db.users[u].email == op.email
    ensures Serve(cfg, w.db, w.clock, op).reply == Accepted <==>
              op.terms.Some? && forall u | u in w.db.users :: w.db.users[u].email != op.email
  {
    hide KeysBelow, RawsDistinct, TokensTracked, SessionsTracked, AccountRules, View, Reissued, Reachable;
    ReachableInv(cfg, w);
    if UserWithEmail(w.db, op.email).None? && op.terms.Some? {
      FreshTokenIsUnknown(cfg, w, op.drawn);
      var user := NewUser(op.email, op.password, op.profile, op.terms.value, w.clock);
      AddUserKeeps(w.db, user);
      var created := WithUser(w.db, user);
      assert created.TokensFor(Confirming) == w.db.TokensFor(Confirming);
      ReissueSucceeds(cfg, created, Confirming, w.db.nextUserId, op.drawn, w.clock);
    }
  }

  /** A report's fresh key is on no queued job. */
  lemma ReportKeyIsFree(cfg: Settings, w: World, uuid: nat)
    requires WorldInv(cfg, w) && OutboxProtocol.NewKey(w.log, ReportKey(uuid))
    ensures !Collides(w.db.jobs, ReportKey(uuid), None, None)
  {
    hide KeysBelow, RawsDistinct, TokensTracked, SessionsTracked, Good;
    forall j | j in w.db.jobs ensures w.db.jobs[j].key != ReportKey(uuid) {
      assert OutboxInvariant.JobOk(View(w), j);
      OutboxInvariant.NewKeyIsUnused(w.log, ReportKey(uuid), j);
    }
  }

  /** No request of any run fails on a constraint: the database never refuses what the services write. */
  lemma NoServerError(cfg: Settings, w: World, op: Op)
    requires Reachable(cfg, w) && Enabled(w, Request(op))
    ensures Serve(cfg, w.db, w.clock, op).reply != ServerError
  {
    hide WorldInv, Requested, Reachable;
    ReachableInv(cfg, w);
    if op.ResendConfirmation? || op.ForgotPassword? {
      UniformReply(cfg, w, op);
    } else if op.Login? || op.Refresh? {
      FreshTokenIsUnknown(cfg, w, op.drawn);
    } else if op.SubmitReport? {
      ReportKeyIsFree(cfg, w, op.uuid);
    }
  }

  // ---- Superseded tokens ----

  /** A mailed token that is no longer its user's newest cannot be used. */
  lemma SupersededIsUsedUp(cfg: Settings, w: World, p: Purpose, k: nat)
    requires WorldInv(cfg, w) && k < |w.auth| && w.auth[k].TokenIssued? && w.auth[k].purpose == p
    requires var latest := LatestToken(w.auth, p, w.auth[k].userId);
             latest.Some? ==> latest.value.raw != w.auth[k].raw
    ensures UsedUp(w, p, w.auth[k].raw)
  {
    hide KeysBelow, SessionsTracked, Good, View, LatestToken, MailsSpaced, TokensTracked;
    var tokens := w.db.TokensFor(p);
    assert RawOf(w.auth[k]) == Some(w.auth[k].raw);
    OwnersTracked(cfg, w, p);
    forall t | t in tokens ensures tokens[t].tokenHash != Sha256(w.auth[k].raw) {
      var u := tokens[t].userId;
      LatestTokenIsDrawn(w.auth, p, u);
      var i :| 0 <= i < |w.auth| && w.auth[i] == TokenIssued(p, u, LatestToken(w.auth, p, u).value.raw,
                                                             LatestToken(w.auth, p, u).value.at);
      assert i != k;
      assert RawOf(w.auth[i]) != RawOf(w.auth[k]);
    }
  }

  /** So once a newer mail went out, or the password changed, it is refused in every continuation. */
  lemma SupersededForever(cfg: Settings, w: World, p: Purpose, k: nat, run: seq<Step>, password: string)
    requires Reachable(cfg, w) && k < |w.auth| && w.auth[k].TokenIssued? && w.auth[k].purpose == p
    requires var latest := LatestToken(w.auth, p, w.auth[k].userId);
             latest.Some? ==> latest.value.raw != w.auth[k].raw
    requires Legal(cfg, w, run)
    ensures var later := Exec(cfg, w, run);
            Serve(cfg, later.db, later.clock, Consume(p, w.auth[k].raw, password)).reply == InvalidToken
  {
    hide WorldInv, Reachable, Serve, UsedUp;
    ReachableInv(cfg, w);
    SupersededIsUsedUp(cfg, w, p, k);
    UsedUpForever(cfg, w, run, p, w.auth[k].raw);
    UsedUpIsRefused(cfg, Exec(cfg, w, run), p, w.auth[k].raw, password);
  }

  // ---- Signing out ----

  /** Logging out with a session's token spends every token the session ever gave out. */
  lemma LogoutSpends(cfg: Settings, w: World, raw: RawToken, k: nat)
    requires WorldInv(cfg, w) && k < |w.auth| && w.auth[k].SessionIssued?
    requires var s := w.auth[k].sessionId; s in w.db.sessions ==> w.db.sessions[s].tokenHash == Sha256(raw)
    ensures Spent(Next(cfg, w, Request(Logout(raw))), w.auth[k].raw)
  {
    hide KeysBelow, TokensTracked, RawsDistinct, SessionsTracked, JobsOk, UsersOk, TokensOk, AccountRules, EventsOf,
         LatestSession, View;
    assert RawOf(w.auth[k]) == Some(w.auth[k].raw);
    DrawnGrows(w.auth, Serve(cfg, w.db, w.clock, Logout(raw)).events, w.auth[k].raw);
    forall s | s in w.db.sessions && w.db.sessions[s].tokenHash == Sha256(w.auth[k].raw)
      ensures s == w.auth[k].sessionId
    {
      TokenNamesSession(cfg, w, k, s);
    }
  }

  /** Deleting an account spends every refresh token its owner was ever given. */
  lemma DeletionSpends(cfg: Settings, w: World, u: nat, password: string, k: nat)
    requires WorldInv(cfg, w) && k < |w.auth| && w.auth[k].SessionIssued? && w.auth[k].userId == u
    requires Succeeds(cfg, w, DeleteAccount(u, password))
    ensures Spent(Next(cfg, w, Request(DeleteAccount(u, password))), w.auth[k].raw)
  {
    hide KeysBelow, TokensTracked, RawsDistinct, SessionsTracked, Good, EventsOf, LatestSession, View, Cascade;
    assert RawOf(w.auth[k]) == Some(w.auth[k].raw);
    DrawnGrows(w.auth, Serve(cfg, w.db, w.clock, DeleteAccount(u, password)).events, w.auth[k].raw);
    forall s | s in w.db.sessions && w.db.sessions[s].tokenHash == Sha256(w.auth[k].raw)
      ensures w.db.sessions[s].userId == u
    {
      TokenNamesSession(cfg, w, k, s);
    }
  }

  /** After a logout no token of that session, after a deletion none of that user, succeeds in any continuation. */
  lemma EndedForGood(cfg: Settings, w: World, op: Op, k: nat, run: seq<Step>, drawn: RawToken)
    requires Reachable(cfg, w) && k < |w.auth| && w.auth[k].SessionIssued?
    requires || (op.Logout? && (w.auth[k].sessionId in w.db.sessions ==>
                                  w.db.sessions[w.auth[k].sessionId].tokenHash == Sha256(op.raw)))
             || (op.DeleteAccount? && op.userId == w.auth[k].userId && Succeeds(cfg, w, op))
    requires Legal(cfg, Next(cfg, w, Request(op)), run)
    ensures var later := Exec(cfg, Next(cfg, w, Request(op)), run);
            Serve(cfg, later.db, later.clock, Refresh(w.auth[k].raw, drawn)).reply == InvalidToken
  {
    hide WorldInv, Reachable, Serve, Spent, Next;
    ReachableInv(cfg, w);
    if op.Logout? { LogoutSpends(cfg, w, op.raw, k); } else { DeletionSpends(cfg, w, op.userId, op.password, k); }
    StepKeeps(cfg, w, Request(op));
    var t := Next(cfg, w, Request(op));
    SpentForever(cfg, t, run, w.auth[k].raw);
    SpentIsRefused(cfg, Exec(cfg, t, run), w.auth[k].raw, drawn);
  }
}
