/** The invariant of requests and workers together, and the refinement that joins the two machines. */
module SystemInvariant {
  import opened Prelude
  import opened Mail
  import opened JobTable
  import opened Tables
  import opened AuthSpec
  import opened AuthInvariant
  import opened System
  import Protocol = OutboxProtocol
  import Outbox = OutboxInvariant

  // ---- Keys ----

  /** Keys of queued mails come from token ids already given out. */
  predicate KeyBelow(key: Option<Key>, db: Db) {
    match key
    case Some(ConfirmationKey(t)) => t < db.nextConfirmationId
    case Some(ResetKey(t)) => t < db.nextResetId
    case _ => true
  }

  ghost predicate KeysBelow(log: seq<Protocol.Event>, db: Db) {
    forall k | 0 <= k < |log| && log[k].Enqueued? :: KeyBelow(log[k].message.key, db)
  }

  // ---- Tokens and sessions against their history ----

  ghost predicate TokenTracked(cfg: Settings, auth: seq<AuthEvent>, p: Purpose, row: Token) {
    LatestToken(auth, p, row.userId) == Some(Issue(row.userId, row.tokenHash.raw, row.createdAt))
    && row.expiresAt == row.createdAt + cfg.Expiry(p)
  }

  ghost predicate MailsSpaced(cfg: Settings, auth: seq<AuthEvent>, p: Purpose, u: nat) {
    var times := MailTimes(auth, p, u);
    && (forall k | 1 <= k < |times| :: times[k] >= times[k - 1] + cfg.Cooldown(p))
    && (LatestToken(auth, p, u).Some? <==> times != [])
    && (times != [] ==> LatestToken(auth, p, u).value.at == times[|times| - 1])
  }

  /** The tokens of one purpose agree with what was mailed. */
  ghost predicate TokensTracked(cfg: Settings, db: Db, auth: seq<AuthEvent>, p: Purpose) {
    && (forall t | t in db.TokensFor(p) :: TokenTracked(cfg, auth, p, db.TokensFor(p)[t]))
    && (forall u | u in db.users && LatestToken(auth, p, u).Some? ::
          (p.Confirming? && db.users[u].verifiedAt.Some?) || HasToken(db.TokensFor(p), u))
    && (forall u: nat :: MailsSpaced(cfg, auth, p, u))
    && (forall u: nat | db.nextUserId <= u :: LatestToken(auth, p, u).None?)
  }

  ghost predicate SessionTracked(cfg: Settings, auth: seq<AuthEvent>, s: nat, row: RefreshSession) {
    var latest := LatestSession(auth, s);
    latest.Some? && latest.value == Issue(row.userId, row.tokenHash.raw, row.expiresAt - cfg.refreshLifetime)
  }

  ghost predicate SessionsTracked(cfg: Settings, db: Db, auth: seq<AuthEvent>) {
    && (forall s | s in db.sessions :: SessionTracked(cfg, auth, s, db.sessions[s]))
    && (forall s: nat | db.nextSessionId <= s :: LatestSession(auth, s).None?)
  }

  ghost predicate RawsDistinct(auth: seq<AuthEvent>) {
    forall i, k | 0 <= i < k < |auth| && RawOf(auth[i]).Some? :: RawOf(auth[i]) != RawOf(auth[k])
  }

  ghost predicate WorldInv(cfg: Settings, w: World) {
    && Outbox.Inv(View(w))
    && Good(w.db)
    && KeysBelow(w.log, w.db)
    && TokensTracked(cfg, w.db, w.auth, Confirming)
    && TokensTracked(cfg, w.db, w.auth, Resetting)
    && SessionsTracked(cfg, w.db, w.auth)
    && RawsDistinct(w.auth)
  }

  lemma StartOk(cfg: Settings, clock: int)
    ensures WorldInv(cfg, Start(clock))
  {
  }

  // ---- Requests refine the outbox protocol ----

  /** How any request leaves the job table: a cascade, then at most one new job under an unused key. */
  ghost predicate OutboxShape(db: Db, d: Db, now: int) {
    var left := Cascade(db.jobs, GoneConfirmations(db, d), GoneResets(db, d));
    if QueuesJob(db, d) then
      var row := d.jobs[db.nextJobId];
      && d.nextJobId == db.nextJobId + 1
      && row == NewJob(MessageOf(row), now, row.confirmationTokenId, row.resetTokenId)
      && d.jobs == left[db.nextJobId := row]
      && !Collides(left, row.key, row.confirmationTokenId, row.resetTokenId)
      && (row.key.ReportKey? || !KeyBelow(Some(row.key), db))
    else d.nextJobId == db.nextJobId && d.jobs == left
  }

  lemma UntouchedShape(db: Db, d: Db, now: int)
    requires d.confirmations == db.confirmations && d.resets == db.resets
    requires d.jobs == db.jobs && d.nextJobId == db.nextJobId
    ensures OutboxShape(db, d, now)
  {
  }

  lemma ReissueShape(cfg: Settings, db: Db, p: Purpose, u: nat, raw: RawToken, now: int)
    requires Constraints(db) && u in db.users && Reissued(cfg, db, p, u, raw, now).Some?
    ensures OutboxShape(db, Reissued(cfg, db, p, u, raw, now).value, now)
  {
    hide UsersOk, SessionsOk, JobsOk;
    var gone := TokensOf(db.TokensFor(p), u);
    var d := Reissued(cfg, db, p, u, raw, now).value;
    assert db.NextTokenId(p) !in db.TokensFor(p);
    if p.Confirming? {
      assert GoneConfirmations(db, d) == gone && GoneResets(db, d) == {};
    } else {
      assert GoneConfirmations(db, d) == {} && GoneResets(db, d) == gone;
    }
  }

  /** Every request has that shape. */
  lemma RequestShape(cfg: Settings, db: Db, now: int, op: Op)
    requires Good(db)
    ensures OutboxShape(db, Serve(cfg, db, now, op).db, now)
  {
    hide AccountRules, JobsOk, TokensOk, SessionsOk, Cascade, Reissued;
    var d := Serve(cfg, db, now, op).db;
    if d == db {
      UntouchedShape(db, d, now);
    } else if op.Register? {
      RegisterShape(cfg, db, now, op);
    } else if op.ResendConfirmation? {
      ReissueShape(cfg, db, Confirming, UserWithEmail(db, op.email).value, op.drawn, now);
    } else if op.ForgotPassword? {
      ReissueShape(cfg, db, Resetting, UserWithEmail(db, op.email).value, op.drawn, now);
    } else if op.SubmitReport? {
      ReportShape(cfg, db, now, op);
    } else if op.Login? || op.Refresh? || op.Logout? {
      UntouchedShape(db, d, now);
    } else {
      DeletingShape(cfg, db, now, op);
    }
  }

  lemma RegisterShape(cfg: Settings, db: Db, now: int, op: Op)
    requires Good(db) && op.Register? && Serve(cfg, db, now, op).db != db
    ensures OutboxShape(db, Serve(cfg, db, now, op).db, now)
  {
    hide AccountRules, JobsOk, TokensOk, SessionsOk, Cascade, Reissued;
    var user := NewUser(op.email, op.password, op.profile, op.terms.value, now);
    AddUserKeeps(db, user);
    var created := WithUser(db, user);
    ReissueShape(cfg, created, Confirming, db.nextUserId, op.drawn, now);
    SameShape(db, created, Serve(cfg, db, now, op).db, now);
  }

  lemma SameShape(db: Db, created: Db, d: Db, now: int)
    requires OutboxShape(created, d, now)
    requires created == db.(users := created.users, nextUserId := created.nextUserId)
    ensures OutboxShape(db, d, now)
  {
  }

  lemma ReportShape(cfg: Settings, db: Db, now: int, op: Op)
    requires op.SubmitReport? && Serve(cfg, db, now, op).db != db
    ensures OutboxShape(db, Serve(cfg, db, now, op).db, now)
  {
  }

  lemma DeletingShape(cfg: Settings, db: Db, now: int, op: Op)
    requires op.ConfirmEmail? || op.ResetPassword? || op.ChangePassword? || op.DeleteAccount?
    requires Serve(cfg, db, now, op).db != db
    ensures OutboxShape(db, Serve(cfg, db, now, op).db, now)
  {
  }

  /** The only new key of a request is one that no earlier mail was queued under. */
  lemma NewKeyUnused(w: World, d: Db)
    requires KeysBelow(w.log, w.db) && OutboxShape(w.db, d, w.clock) && QueuesJob(w.db, d)
    requires var key := d.jobs[w.db.nextJobId].key; key.ReportKey? ==> Protocol.NewKey(w.log, key)
    ensures Protocol.NewKey(w.log + [Protocol.Cascaded(
              Orphans(w.db.jobs, GoneConfirmations(w.db, d), GoneResets(w.db, d)))], d.jobs[w.db.nextJobId].key)
  {
  }

  /** A request acts on the outbox as its effects do: the join of the two machines. */
  lemma RefinesOutbox(w: World, d: Db)
    requires KeysBelow(w.log, w.db) && OutboxShape(w.db, d, w.clock)
    requires QueuesJob(w.db, d) ==>
               var key := d.jobs[w.db.nextJobId].key; key.ReportKey? ==> Protocol.NewKey(w.log, key)
    ensures Protocol.Legal(View(w), Effects(w.db, d))
    ensures Protocol.Exec(View(w), Effects(w.db, d))
            == Protocol.State(w.clock, d.jobs, d.nextJobId, w.flights, w.log + EventsOf(w.db, d, w.clock))
  {
    var first := Protocol.DeleteTokens(GoneConfirmations(w.db, d), GoneResets(w.db, d));
    var mid := Protocol.Next(View(w), first);
    if QueuesJob(w.db, d) {
      var row := d.jobs[w.db.nextJobId];
      var second := Protocol.Enqueue(MessageOf(row), row.confirmationTokenId, row.resetTokenId);
      NewKeyUnused(w, d);
      assert Protocol.Enabled(mid, second);
      assert Effects(w.db, d) == [first, second];
      assert [first, second][1..] == [second] && [second][1..] == [];
      assert Protocol.Legal(Protocol.Next(mid, second), []);
      assert Protocol.Exec(mid, [second]) == Protocol.Next(mid, second);
      assert Protocol.Exec(View(w), [first, second]) == Protocol.Exec(mid, [second]);
      assert w.log + EventsOf(w.db, d, w.clock) == Protocol.Next(mid, second).log;
    } else {
      assert Effects(w.db, d) == [first];
      assert [first][1..] == [];
      assert Protocol.Legal(mid, []);
    }
  }

  // ---- Requests keep the history ----

  /** An event that concerns no mail of this purpose. */
  predicate Bystander(e: AuthEvent, p: Purpose) {
    e.SessionIssued? || (e.TokenIssued? && e.purpose != p) || (e.PasswordSet? && p.Confirming?)
  }

  lemma BystanderKeepsMails(auth: seq<AuthEvent>, e: AuthEvent, p: Purpose, u: nat)
    requires Bystander(e, p)
    ensures LatestToken(auth + [e], p, u) == LatestToken(auth, p, u)
    ensures MailTimes(auth + [e], p, u) == MailTimes(auth, p, u)
  {
  }

  /** Requests without an event for this purpose: rows may only disappear, with reason. */
  ghost predicate MailsQuiet(db: Db, d: Db, auth: seq<AuthEvent>, after: seq<AuthEvent>, p: Purpose) {
    && db.nextUserId <= d.nextUserId
    && (after == auth || (|after| == |auth| + 1 && after == auth + [after[|auth|]] && Bystander(after[|auth|], p)))
    && (forall t | t in d.TokensFor(p) :: t in db.TokensFor(p) && d.TokensFor(p)[t] == db.TokensFor(p)[t])
    && (forall u | u in d.users && u < db.nextUserId :: u in db.users
          && (HasToken(db.TokensFor(p), u) ==>
                HasToken(d.TokensFor(p), u) || (p.Confirming? && d.users[u].verifiedAt.Some?))
          && (db.users[u].verifiedAt.Some? ==> d.users[u].verifiedAt.Some?))
  }

  lemma QuietKeeps(cfg: Settings, db: Db, d: Db, auth: seq<AuthEvent>, after: seq<AuthEvent>, p: Purpose)
    requires TokensTracked(cfg, db, auth, p) && MailsQuiet(db, d, auth, after, p)
    ensures TokensTracked(cfg, d, after, p)
  {
    forall u: nat
      ensures LatestToken(after, p, u) == LatestToken(auth, p, u) && MailTimes(after, p, u) == MailTimes(auth, p, u)
    {
      if after != auth { BystanderKeepsMails(auth, after[|auth|], p, u); }
    }
    forall u: nat ensures MailsSpaced(cfg, after, p, u) { assert MailsSpaced(cfg, auth, p, u); }
  }

  lemma IssueInHistory(cfg: Settings, auth: seq<AuthEvent>, p: Purpose, u: nat, raw: RawToken, now: int, v: nat)
    requires MailsSpaced(cfg, auth, p, v)
    requires LatestToken(auth, p, u).Some? ==> LatestToken(auth, p, u).value.at + cfg.Cooldown(p) <= now
    ensures var after := auth + [TokenIssued(p, u, raw, now)];
            && MailsSpaced(cfg, after, p, v)
            && LatestToken(after, p, v) == if v == u then Some(Issue(u, raw, now)) else LatestToken(auth, p, v)
  {
  }

  /** A token mailed with its cooldown respected. */
  lemma IssueKeeps(cfg: Settings, db: Db, auth: seq<AuthEvent>, p: Purpose, u: nat, raw: RawToken, now: int)
    requires Constraints(db) && u in db.users && Reissued(cfg, db, p, u, raw, now).Some?
    requires forall j | j in db.jobs :: AddressOk(db, db.jobs[j])
    requires TokensTracked(cfg, db, auth, p) && u < db.nextUserId
    requires LatestToken(auth, p, u).Some? ==> LatestToken(auth, p, u).value.at + cfg.Cooldown(p) <= now
    ensures TokensTracked(cfg, Reissued(cfg, db, p, u, raw, now).value, auth + [TokenIssued(p, u, raw, now)], p)
  {
    hide UsersOk, TokensOk, SessionsOk, JobsOk, Collides, Cascade, AddressOk, LinkOk, Reissued, MailsSpaced,
         LatestToken, HasToken;
    var after := auth + [TokenIssued(p, u, raw, now)];
    var d := Reissued(cfg, db, p, u, raw, now).value;
    ReissueRules(cfg, db, p, u, raw, now);
    ReissueSerials(cfg, db, p, u, raw, now);
    forall v: nat
      ensures MailsSpaced(cfg, after, p, v)
      ensures LatestToken(after, p, v) == if v == u then Some(Issue(u, raw, now)) else LatestToken(auth, p, v)
    {
      assert MailsSpaced(cfg, auth, p, v);
      IssueInHistory(cfg, auth, p, u, raw, now, v);
    }
    forall t | t in d.TokensFor(p) ensures TokenTracked(cfg, after, p, d.TokensFor(p)[t]) {
      IssuedRow(cfg, db, p, u, raw, now, t);
      if t != db.NextTokenId(p) {
        assert TokenTracked(cfg, auth, p, db.TokensFor(p)[t]);
      }
    }
  }

  lemma ReissueSerials(cfg: Settings, db: Db, p: Purpose, u: nat, raw: RawToken, now: int)
    requires u in db.users && Reissued(cfg, db, p, u, raw, now).Some?
    ensures var d := Reissued(cfg, db, p, u, raw, now).value;
            d.nextUserId == db.nextUserId && d.nextSessionId == db.nextSessionId
            && d.nextConfirmationId >= db.nextConfirmationId && d.nextResetId >= db.nextResetId
            && d.sessions == db.sessions && db.nextJobId in d.jobs
            && d.jobs[db.nextJobId].key == KeyFor(p, db.NextTokenId(p))
  {
  }

  lemma IssuedRow(cfg: Settings, db: Db, p: Purpose, u: nat, raw: RawToken, now: int, t: nat)
    requires u in db.users && Reissued(cfg, db, p, u, raw, now).Some?
    requires t in Reissued(cfg, db, p, u, raw, now).value.TokensFor(p)
    ensures var row := Reissued(cfg, db, p, u, raw, now).value.TokensFor(p)[t];
            if t == db.NextTokenId(p) then row == Token(u, Sha256(raw), now + cfg.Expiry(p), now)
            else t in db.TokensFor(p) && row == db.TokensFor(p)[t] && row.userId != u
  {
  }

  /** A changed password forgets the user's reset mails. */
  lemma PasswordKeeps(cfg: Settings, db: Db, auth: seq<AuthEvent>, u: nat, password: string, now: int)
    requires u in db.users && TokensTracked(cfg, db, auth, Resetting)
    ensures TokensTracked(cfg, WithPassword(db, u, password, now), auth + [PasswordSet(u, now)], Resetting)
  {
    var e := PasswordSet(u, now);
    var after := auth + [e];
    var d := WithPassword(db, u, password, now);
    HistoryGrows(auth, e);
    forall v: nat | v != u ensures LatestToken(after, Resetting, v) == LatestToken(auth, Resetting, v)
                                   && MailTimes(after, Resetting, v) == MailTimes(auth, Resetting, v) {}
    forall v: nat ensures MailsSpaced(cfg, after, Resetting, v) { assert MailsSpaced(cfg, auth, Resetting, v); }
    forall v | v in d.users && LatestToken(after, Resetting, v).Some? ensures HasToken(d.resets, v) {
      assert HasToken(db.TokensFor(Resetting), v);
      OthersKeepTokens(db.resets, u, v);
    }
    forall t | t in d.resets ensures TokenTracked(cfg, after, Resetting, d.resets[t]) {
      assert t in db.TokensFor(Resetting) && TokenTracked(cfg, auth, Resetting, db.resets[t]);
    }
  }

  lemma SessionsKept(cfg: Settings, db: Db, d: Db, auth: seq<AuthEvent>, after: seq<AuthEvent>)
    requires SessionsTracked(cfg, db, auth) && d.nextSessionId == db.nextSessionId
    requires after == auth
             || (|after| == |auth| + 1 && after == auth + [after[|auth|]] && !after[|auth|].SessionIssued?)
    requires forall s | s in d.sessions :: s in db.sessions
               && d.sessions[s] == db.sessions[s].(revokedAt := d.sessions[s].revokedAt,
                                                   updatedAt := d.sessions[s].updatedAt)
    ensures SessionsTracked(cfg, d, after)
  {
  }

  lemma SessionIssuedKeeps(cfg: Settings, db: Db, d: Db, auth: seq<AuthEvent>, s: nat, u: nat, raw: RawToken, now: int)
    requires SessionsTracked(cfg, db, auth) && s < d.nextSessionId && db.nextSessionId <= d.nextSessionId
    requires s in d.sessions && d.sessions == db.sessions[s := d.sessions[s]]
    requires d.sessions[s].userId == u && d.sessions[s].tokenHash == Sha256(raw)
    requires d.sessions[s].expiresAt == now + cfg.refreshLifetime
    ensures SessionsTracked(cfg, d, auth + [SessionIssued(s, u, raw, now)])
  {
  }

  // ---- One step ----

  /** What the history needs from a request, given what it had before. */
  ghost predicate Tracked(cfg: Settings, db: Db, auth: seq<AuthEvent>) {
    && TokensTracked(cfg, db, auth, Confirming)
    && TokensTracked(cfg, db, auth, Resetting)
    && SessionsTracked(cfg, db, auth)
  }

  lemma RequestedTracked(cfg: Settings, db: Db, auth: seq<AuthEvent>, now: int, p: Purpose, u: nat, raw: RawToken)
    requires Good(db) && Tracked(cfg, db, auth) && u in db.users
    requires db.users[u].verifiedAt.None? <==> p.Confirming?
    ensures var s := Requested(cfg, db, p, u, raw, now); Tracked(cfg, s.db, auth + s.events)
  {
    hide TokensOk, SessionsOk, JobsOk, LinkOk, AddressOk, Collides, Cascade, Reissued, LatestToken, MailsSpaced,
         SessionTracked, LatestSession;
    var s := Requested(cfg, db, p, u, raw, now);
    if s.events != [] {
      var existing := TokenOfUser(db.TokensFor(p), u);
      if LatestToken(auth, p, u).Some? {
        assert HasToken(db.TokensFor(p), u);
        assert TokenTracked(cfg, auth, p, db.TokensFor(p)[existing.value]);
      }
      IssueKeeps(cfg, db, auth, p, u, raw, now);
      ReissueRules(cfg, db, p, u, raw, now);
      ReissueSerials(cfg, db, p, u, raw, now);
      var after := auth + s.events;
      var q := if p.Confirming? then Resetting else Confirming;
      assert s.db.TokensFor(q) == db.TokensFor(q);
      QuietKeeps(cfg, db, s.db, auth, after, q);
      SessionsKept(cfg, db, s.db, auth, after);
    } else {
      assert auth + s.events == auth;
    }
  }

  lemma RegisteredTracked(cfg: Settings, db: Db, auth: seq<AuthEvent>, now: int, op: Op)
    requires Good(db) && Tracked(cfg, db, auth) && op.Register?
    ensures var s := Serve(cfg, db, now, op); Tracked(cfg, s.db, auth + s.events)
  {
    hide TokensOk, SessionsOk, JobsOk, LinkOk, AddressOk, Collides, Cascade, Reissued, LatestToken, MailsSpaced,
         SessionTracked, LatestSession, HasToken;
    var s := Serve(cfg, db, now, op);
    if s.events != [] {
      var u := db.nextUserId;
      var user := NewUser(op.email, op.password, op.profile, op.terms.value, now);
      var created := WithUser(db, user);
      AddUserKeeps(db, user);
      CreatedTracked(cfg, db, created, auth);
      CreatedAddresses(db, created);
      IssueKeeps(cfg, created, auth, Confirming, u, op.drawn, now);
      ReissueRules(cfg, created, Confirming, u, op.drawn, now);
      ReissueSerials(cfg, created, Confirming, u, op.drawn, now);
      QuietKeeps(cfg, created, s.db, auth, auth + s.events, Resetting);
      SessionsKept(cfg, created, s.db, auth, auth + s.events);
    } else {
      assert auth + s.events == auth;
    }
  }

  lemma CreatedAddresses(db: Db, created: Db)
    requires Good(db) && created == db.(users := created.users, nextUserId := created.nextUserId)
    requires forall u | u in db.users :: u in created.users && created.users[u] == db.users[u]
    ensures forall j | j in created.jobs :: AddressOk(created, created.jobs[j])
  {
  }

  /** A new user has no history. */
  lemma CreatedTracked(cfg: Settings, db: Db, created: Db, auth: seq<AuthEvent>)
    requires Tracked(cfg, db, auth)
    requires created == db.(users := created.users, nextUserId := db.nextUserId + 1)
    requires created.users.Keys == db.users.Keys + {db.nextUserId}
    requires forall u | u in db.users && u != db.nextUserId :: created.users[u] == db.users[u]
    ensures Tracked(cfg, created, auth)
    ensures LatestToken(auth, Confirming, db.nextUserId).None?
  {
  }

  lemma ConfirmedTracked(cfg: Settings, db: Db, auth: seq<AuthEvent>, now: int, raw: RawToken)
    requires Good(db) && Tracked(cfg, db, auth)
    ensures var s := Confirmed(db, now, raw); Tracked(cfg, s.db, auth + s.events)
  {
    hide UsersOk, TokensOk, SessionsOk, JobsOk, Collides, Cascade, LatestToken, MailsSpaced, HasToken;
    var s := Confirmed(db, now, raw);
    assert auth + s.events == auth;
    if s.db != db {
      var u := db.confirmations[TokenWithHash(db.confirmations, Sha256(raw)).value].userId;
      forall v: nat | v != u ensures HasToken(s.db.confirmations, v) <==> HasToken(db.confirmations, v) {
        OthersKeepTokens(db.confirmations, u, v);
      }
      QuietKeeps(cfg, db, s.db, auth, auth, Confirming);
      QuietKeeps(cfg, db, s.db, auth, auth, Resetting);
      SessionsKept(cfg, db, s.db, auth, auth);
    }
  }

  lemma PasswordTracked(cfg: Settings, db: Db, auth: seq<AuthEvent>, now: int, u: nat, password: string)
    requires Good(db) && Tracked(cfg, db, auth) && u in db.users
    ensures Tracked(cfg, WithPassword(db, u, password, now), auth + [PasswordSet(u, now)])
  {
    hide UsersOk, TokensOk, SessionsOk, JobsOk, Collides, Cascade, LatestToken, MailsSpaced, HasToken;
    var d := WithPassword(db, u, password, now);
    PasswordKeeps(cfg, db, auth, u, password, now);
    QuietKeeps(cfg, db, d, auth, auth + [PasswordSet(u, now)], Confirming);
    SessionsKept(cfg, db, d, auth, auth + [PasswordSet(u, now)]);
  }

  lemma DeletedTracked(cfg: Settings, db: Db, auth: seq<AuthEvent>, u: nat)
    requires Good(db) && Tracked(cfg, db, auth)
    ensures Tracked(cfg, WithoutUser(db, u), auth)
  {
    hide UsersOk, TokensOk, SessionsOk, JobsOk, Collides, Cascade, LatestToken, MailsSpaced, HasToken;
    var d := WithoutUser(db, u);
    forall v: nat | v != u
      ensures HasToken(d.confirmations, v) <==> HasToken(db.confirmations, v)
      ensures HasToken(d.resets, v) <==> HasToken(db.resets, v)
    {
      OthersKeepTokens(db.confirmations, u, v);
      OthersKeepTokens(db.resets, u, v);
    }
    QuietKeeps(cfg, db, d, auth, auth, Confirming);
    QuietKeeps(cfg, db, d, auth, auth, Resetting);
    SessionsKept(cfg, db, d, auth, auth);
  }

  lemma SessionsAside(cfg: Settings, db: Db, d: Db, auth: seq<AuthEvent>, after: seq<AuthEvent>, p: Purpose)
    requires TokensTracked(cfg, db, auth, p)
    requires d == db.(sessions := d.sessions, nextSessionId := d.nextSessionId)
    requires after == auth || (|after| == |auth| + 1 && after == auth + [after[|auth|]] && after[|auth|].SessionIssued?)
    ensures TokensTracked(cfg, d, after, p)
  {
    hide LatestToken, MailsSpaced, HasToken, TokensTracked;
    assert d.TokensFor(p) == db.TokensFor(p);
    QuietKeeps(cfg, db, d, auth, after, p);
  }

  lemma SessionRequestTracked(cfg: Settings, db: Db, auth: seq<AuthEvent>, now: int, op: Op)
    requires Good(db) && Tracked(cfg, db, auth) && (op.Login? || op.Refresh? || op.Logout?)
    ensures var s := Serve(cfg, db, now, op); Tracked(cfg, s.db, auth + s.events)
  {
    hide UsersOk, TokensOk, JobsOk, LatestToken, MailsSpaced, HasToken, SessionTracked, LatestSession, AccountRules,
         TokensTracked, SessionsTracked;
    var s := Serve(cfg, db, now, op);
    var after := auth + s.events;
    if s.events == [] { assert after == auth; }
    SessionsAside(cfg, db, s.db, auth, after, Confirming);
    SessionsAside(cfg, db, s.db, auth, after, Resetting);
    if s.events == [] {
      SessionsKept(cfg, db, s.db, auth, after);
    } else {
      var e := s.events[0];
      assert s.events == [e];
      SessionSerial(db);
      SessionIssuedKeeps(cfg, db, s.db, auth, e.sessionId, e.userId, e.raw, now);
    }
  }

  lemma SessionSerial(db: Db)
    requires Constraints(db)
    ensures forall s | s in db.sessions :: s < db.nextSessionId
  {
  }

  lemma RequestTracked(cfg: Settings, db: Db, auth: seq<AuthEvent>, now: int, op: Op)
    requires Good(db) && Tracked(cfg, db, auth)
    ensures var s := Serve(cfg, db, now, op); Tracked(cfg, s.db, auth + s.events)
  {
    hide UsersOk, TokensOk, SessionsOk, JobsOk, AccountRules, LatestToken, MailsSpaced, HasToken, SessionTracked,
         LatestSession, Collides, TokensTracked, SessionsTracked, Reissued, Cascade;
    var s := Serve(cfg, db, now, op);
    match op
    case Register(_, _, _, _, _) => RegisteredTracked(cfg, db, auth, now, op);
    case ConfirmEmail(raw) => ConfirmedTracked(cfg, db, auth, now, raw);
    case ResendConfirmation(email, drawn) =>
      if s.events != [] {
        RequestedTracked(cfg, db, auth, now, Confirming, UserWithEmail(db, email).value, drawn);
      } else { assert auth + s.events == auth; }
    case ForgotPassword(email, drawn) =>
      if s.events != [] {
        RequestedTracked(cfg, db, auth, now, Resetting, UserWithEmail(db, email).value, drawn);
      } else { assert auth + s.events == auth; }
    case ResetPassword(raw, password) =>
      if s.events != [] {
        PasswordTracked(cfg, db, auth, now, db.resets[TokenWithHash(db.resets, Sha256(raw)).value].userId, password);
      } else { assert auth + s.events == auth; }
    case ChangePassword(u, _, password) =>
      if s.events != [] { PasswordTracked(cfg, db, auth, now, u, password); }
      else { assert auth + s.events == auth; }
    case DeleteAccount(u, _) =>
      assert auth + s.events == auth;
      DeletedTracked(cfg, db, auth, u);
    case SubmitReport(_, _, _) =>
      assert auth + s.events == auth;
      ReportTracked(cfg, db, s.db, auth);
    case Login(_, _, _) => SessionRequestTracked(cfg, db, auth, now, op);
    case Refresh(_, _) => SessionRequestTracked(cfg, db, auth, now, op);
    case Logout(_) => SessionRequestTracked(cfg, db, auth, now, op);
  }

  lemma ReportTracked(cfg: Settings, db: Db, d: Db, auth: seq<AuthEvent>)
    requires Tracked(cfg, db, auth) && d == db.(jobs := d.jobs, nextJobId := d.nextJobId)
    ensures Tracked(cfg, d, auth)
  {
  }

  lemma QueuedReportKey(cfg: Settings, db: Db, now: int, op: Op)
    requires Good(db)
    ensures var d := Serve(cfg, db, now, op).db;
            QueuesJob(db, d) && d.jobs[db.nextJobId].key.ReportKey? ==>
              op.SubmitReport? && d.jobs[db.nextJobId].key == ReportKey(op.uuid)
    ensures var d := Serve(cfg, db, now, op).db;
            d.nextConfirmationId >= db.nextConfirmationId && d.nextResetId >= db.nextResetId
  {
    hide UsersOk, TokensOk, SessionsOk, JobsOk, AccountRules, Collides, Cascade, Reissued;
    var d := Serve(cfg, db, now, op).db;
    if d != db {
      if op.Register? {
        var created := WithUser(db, NewUser(op.email, op.password, op.profile, op.terms.value, now));
        ReissueSerials(cfg, created, Confirming, db.nextUserId, op.drawn, now);
      } else if op.ResendConfirmation? {
        ReissueSerials(cfg, db, Confirming, UserWithEmail(db, op.email).value, op.drawn, now);
      } else if op.ForgotPassword? {
        ReissueSerials(cfg, db, Resetting, UserWithEmail(db, op.email).value, op.drawn, now);
      }
    }
  }

  lemma KeysStayBelow(log: seq<Protocol.Event>, db: Db, d: Db, now: int)
    requires KeysBelow(log, db) && Constraints(d)
    requires d.nextConfirmationId >= db.nextConfirmationId && d.nextResetId >= db.nextResetId
    ensures KeysBelow(log + EventsOf(db, d, now), d)
  {
  }

  lemma RequestKeeps(cfg: Settings, w: World, op: Op)
    requires WorldInv(cfg, w) && Enabled(w, Request(op))
    ensures WorldInv(cfg, Next(cfg, w, Request(op)))
    ensures Protocol.Legal(View(w), Effects(w.db, Next(cfg, w, Request(op)).db))
    ensures View(Next(cfg, w, Request(op)))
            == Protocol.Exec(View(w), Effects(w.db, Next(cfg, w, Request(op)).db))
  {
    hide Good, KeysBelow, TokensTracked, SessionsTracked, RawsDistinct, OutboxShape, Outbox.Inv, Effects, EventsOf;
    var s := Serve(cfg, w.db, w.clock, op);
    ServeKeeps(cfg, w.db, w.clock, op);
    RequestShape(cfg, w.db, w.clock, op);
    QueuedReportKey(cfg, w.db, w.clock, op);
    RefinesOutbox(w, s.db);
    Outbox.RunKeeps(View(w), Effects(w.db, s.db));
    GoodIsConstrained(s.db);
    KeysStayBelow(w.log, w.db, s.db, w.clock);
    RequestTracked(cfg, w.db, w.auth, w.clock, op);
    RawsAfter(cfg, w, op);
  }

  lemma GoodIsConstrained(db: Db)
    requires Good(db)
    ensures Constraints(db)
  {
  }

  lemma RawsAfter(cfg: Settings, w: World, op: Op)
    requires RawsDistinct(w.auth) && FreshInput(w, op)
    ensures RawsDistinct(w.auth + Serve(cfg, w.db, w.clock, op).events)
  {
  }

  // ---- Work on the job table leaves the accounts alone ----

  lemma WorkRows(s: Protocol.State, a: Protocol.Action, j: nat)
    requires Outbox.Inv(s) && IsWork(a) && Protocol.Enabled(s, a) && j in Protocol.Next(s, a).jobs
    ensures j in s.jobs
    ensures var before, after := s.jobs[j], Protocol.Next(s, a).jobs[j];
            && after.key == before.key && after.toAddress == before.toAddress
            && after.confirmationTokenId == before.confirmationTokenId && after.resetTokenId == before.resetTokenId
  {
  }

  lemma WorkKeeps(cfg: Settings, w: World, a: Protocol.Action)
    requires WorldInv(cfg, w) && Enabled(w, Work(a))
    ensures WorldInv(cfg, Next(cfg, w, Work(a)))
  {
    hide TokensTracked, SessionsTracked, RawsDistinct, Outbox.Inv, TokensOk, SessionsOk, KeysBelow, Protocol.Next,
         Protocol.Enabled, JobsOk, LinkOk, AddressOk;
    Outbox.Keeps(View(w), a);
    WorkKeepsAccounts(w, a);
    var t := Next(cfg, w, Work(a));
    ReportTracked(cfg, w.db, t.db, w.auth);
    WorkLog(w, a);
  }

  lemma WorkKeepsAccounts(w: World, a: Protocol.Action)
    requires Outbox.Inv(View(w)) && Good(w.db) && Enabled(w, Work(a))
    ensures var t := Protocol.Next(View(w), a);
            Good(w.db.(jobs := t.jobs, nextJobId := t.nextJobId))
  {
    hide Outbox.Inv, TokensOk, SessionsOk, Protocol.Next, Protocol.Enabled;
    WorkSerial(w, a);
    var s := Protocol.Next(View(w), a);
    var d := w.db.(jobs := s.jobs, nextJobId := s.nextJobId);
    forall j | j in d.jobs
      ensures && j in w.db.jobs && LinkOk(d, d.jobs[j]) && AddressOk(d, d.jobs[j])
              && d.jobs[j].key == w.db.jobs[j].key
    {
      WorkRows(View(w), a, j);
      assert LinkOk(w.db, w.db.jobs[j]) && AddressOk(w.db, w.db.jobs[j]);
    }
  }

  lemma WorkSerial(w: World, a: Protocol.Action)
    requires Enabled(w, Work(a))
    ensures Protocol.Next(View(w), a).nextJobId == w.db.nextJobId
  {
  }

  lemma WorkLog(w: World, a: Protocol.Action)
    requires Enabled(w, Work(a)) && KeysBelow(w.log, w.db)
    ensures KeysBelow(Protocol.Next(View(w), a).log, w.db.(jobs := Protocol.Next(View(w), a).jobs))
    ensures Protocol.Next(View(w), a).nextJobId == w.db.nextJobId
  {
  }

  lemma StepKeeps(cfg: Settings, w: World, step: Step)
    requires WorldInv(cfg, w) && Enabled(w, step)
    ensures WorldInv(cfg, Next(cfg, w, step))
  {
    match step
    case Request(op) => RequestKeeps(cfg, w, op);
    case Work(a) => WorkKeeps(cfg, w, a);
  }

  lemma {:induction false} RunKeeps(cfg: Settings, w: World, run: seq<Step>)
    requires WorldInv(cfg, w) && Legal(cfg, w, run)
    ensures WorldInv(cfg, Exec(cfg, w, run))
    decreases |run|
  {
    if run != [] {
      StepKeeps(cfg, w, run[0]);
      RunKeeps(cfg, Next(cfg, w, run[0]), run[1..]);
    }
  }
}
