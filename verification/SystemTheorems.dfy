/** What accounts, tokens and sessions promise over every run of requests and workers. */
module SystemTheorems {
  import opened Prelude
  import opened JobTable
  import opened Tables
  import opened AuthSpec
  import opened AuthInvariant
  import opened System
  import opened SystemInvariant
  import Protocol = OutboxProtocol
  import OutboxTheorems

  ghost predicate Reachable(cfg: Settings, w: World) {
    exists clock, run :: Legal(cfg, Start(clock), run) && w == Exec(cfg, Start(clock), run)
  }

  lemma ReachableInv(cfg: Settings, w: World)
    requires Reachable(cfg, w)
    ensures WorldInv(cfg, w)
  {
    var clock, run :| Legal(cfg, Start(clock), run) && w == Exec(cfg, Start(clock), run);
    StartOk(cfg, clock);
    RunKeeps(cfg, Start(clock), run);
  }

  // ---- Every theorem about the outbox holds inside the system ----

  lemma {:induction false} Concatenated(s: Protocol.State, first: seq<Protocol.Action>, second: seq<Protocol.Action>)
    requires Protocol.Legal(s, first) && Protocol.Legal(Protocol.Exec(s, first), second)
    ensures Protocol.Legal(s, first + second)
    ensures Protocol.Exec(s, first + second) == Protocol.Exec(Protocol.Exec(s, first), second)
    decreases |first|
  {
    if first == [] {
      assert first + second == second;
    } else {
      Concatenated(Protocol.Next(s, first[0]), first[1..], second);
      assert (first + second)[1..] == first[1..] + second;
    }
  }

  /** The outbox actions behind one step of the system. */
  ghost function ActionsOf(cfg: Settings, w: World, step: Step): seq<Protocol.Action>
    requires Enabled(w, step)
  {
    match step
    case Request(op) => Effects(w.db, Next(cfg, w, step).db)
    case Work(a) => [a]
  }

  lemma StepIsOutboxRun(cfg: Settings, w: World, step: Step)
    requires WorldInv(cfg, w) && Enabled(w, step)
    ensures Protocol.Legal(View(w), ActionsOf(cfg, w, step))
    ensures Protocol.Exec(View(w), ActionsOf(cfg, w, step)) == View(Next(cfg, w, step))
  {
    match step
    case Request(op) => RequestKeeps(cfg, w, op);
    case Work(a) =>
      var t := Protocol.Next(View(w), a);
      assert [a][1..] == [] && Protocol.Legal(t, []);
      assert Protocol.Exec(View(w), [a]) == t;
  }

  lemma {:induction false} ProjectsToOutbox(cfg: Settings, w: World, run: seq<Step>)
    returns (actions: seq<Protocol.Action>)
    requires WorldInv(cfg, w) && Legal(cfg, w, run)
    ensures Protocol.Legal(View(w), actions) && Protocol.Exec(View(w), actions) == View(Exec(cfg, w, run))
    decreases |run|
  {
    if run == [] {
      actions := [];
    } else {
      var t := Next(cfg, w, run[0]);
      StepKeeps(cfg, w, run[0]);
      StepIsOutboxRun(cfg, w, run[0]);
      var rest := ProjectsToOutbox(cfg, t, run[1..]);
      Concatenated(View(w), ActionsOf(cfg, w, run[0]), rest);
      actions := ActionsOf(cfg, w, run[0]) + rest;
    }
  }

  /** Requests and workers together only produce runs of the outbox protocol. */
  lemma OutboxReachable(cfg: Settings, w: World)
    requires Reachable(cfg, w)
    ensures OutboxTheorems.Reachable(View(w))
  {
    var clock, run :| Legal(cfg, Start(clock), run) && w == Exec(cfg, Start(clock), run);
    StartOk(cfg, clock);
    var actions := ProjectsToOutbox(cfg, Start(clock), run);
    assert View(Start(clock)) == Protocol.Start(clock);
  }

  // ---- The tables agree ----

  /** Confirmation tokens, reset tokens, sessions, jobs and users fit together. */
  lemma TablesAgree(cfg: Settings, w: World)
    requires Reachable(cfg, w)
    ensures forall u | u in w.db.users ::
              && (w.db.users[u].verifiedAt.None? <==> |TokensOf(w.db.confirmations, u)| == 1)
              && (w.db.users[u].verifiedAt.Some? <==> TokensOf(w.db.confirmations, u) == {})
    ensures forall u, v | u in w.db.users && v in w.db.users && u != v :: w.db.users[u].email != w.db.users[v].email
    ensures forall t | t in w.db.resets ::
              w.db.resets[t].userId in w.db.users && w.db.users[w.db.resets[t].userId].verifiedAt.Some?
    ensures forall s | s in w.db.sessions ::
              w.db.sessions[s].userId in w.db.users && w.db.users[w.db.sessions[s].userId].verifiedAt.Some?
    ensures forall i, j | i in w.db.jobs && j in w.db.jobs && i != j :: w.db.jobs[i].key != w.db.jobs[j].key
    ensures forall j | j in w.db.jobs ::
              && (w.db.jobs[j].confirmationTokenId.Some? ==>
                    w.db.jobs[j].confirmationTokenId.value in w.db.confirmations)
              && (w.db.jobs[j].resetTokenId.Some? ==> w.db.jobs[j].resetTokenId.value in w.db.resets)
              && AddressOk(w.db, w.db.jobs[j])
  {
    ReachableInv(cfg, w);
    forall u | u in w.db.users
      ensures (w.db.users[u].verifiedAt.None? <==> |TokensOf(w.db.confirmations, u)| == 1)
              && (w.db.users[u].verifiedAt.Some? <==> TokensOf(w.db.confirmations, u) == {})
    {
      OneTokenEach(w.db, u);
    }
    forall j | j in w.db.jobs
      ensures && (w.db.jobs[j].confirmationTokenId.Some? ==>
                    w.db.jobs[j].confirmationTokenId.value in w.db.confirmations)
              && (w.db.jobs[j].resetTokenId.Some? ==> w.db.jobs[j].resetTokenId.value in w.db.resets)
    {
      assert LinkOk(w.db, w.db.jobs[j]);
    }
  }

  lemma OneTokenEach(db: Db, u: nat)
    requires TokensOk(db.confirmations, db.nextConfirmationId, db.users.Keys)
    ensures HasToken(db.confirmations, u) <==> |TokensOf(db.confirmations, u)| == 1
    ensures !HasToken(db.confirmations, u) <==> TokensOf(db.confirmations, u) == {}
  {
    if HasToken(db.confirmations, u) {
      var t :| t in db.confirmations && db.confirmations[t].userId == u;
      assert TokensOf(db.confirmations, u) == {t};
    } else {
      assert TokensOf(db.confirmations, u) == {};
    }
  }

  /** The user whose token a job announces. */
  ghost predicate Announces(db: Db, j: nat, p: Purpose, u: nat) {
    j in db.jobs
    && var link := if p.Confirming? then db.jobs[j].confirmationTokenId else db.jobs[j].resetTokenId;
       link.Some? && link.value in db.TokensFor(p) && db.TokensFor(p)[link.value].userId == u
  }

  /** Nobody has two queued confirmation mails, or two queued reset mails. */
  lemma OneMailPerUser(cfg: Settings, w: World, p: Purpose, u: nat, i: nat, j: nat)
    requires Reachable(cfg, w) && Announces(w.db, i, p, u) && Announces(w.db, j, p, u)
    ensures i == j
  {
    ReachableInv(cfg, w);
    assert LinkOk(w.db, w.db.jobs[i]) && LinkOk(w.db, w.db.jobs[j]);
  }

  // ---- Refresh tokens ----

  /** No live session accepts this token, now or later. */
  ghost predicate Spent(w: World, raw: RawToken) {
    Drawn(w.auth, raw)
    && forall s | s in w.db.sessions && w.db.sessions[s].tokenHash == Sha256(raw) ::
         w.db.sessions[s].revokedAt.Some? || w.db.sessions[s].expiresAt <= w.clock
  }

  lemma DrawnGrows(auth: seq<AuthEvent>, more: seq<AuthEvent>, raw: RawToken)
    requires Drawn(auth, raw)
    ensures Drawn(auth + more, raw)
  {
    var k :| 0 <= k < |auth| && RawOf(auth[k]) == Some(raw);
    assert (auth + more)[k] == auth[k];
  }

  /** What a request may do to a session row that it does not create or rotate. */
  lemma SessionStep(cfg: Settings, db: Db, now: int, op: Op, s: nat)
    requires Good(db) && s in Serve(cfg, db, now, op).db.sessions
    ensures var row := Serve(cfg, db, now, op).db.sessions[s];
            || ((op.Login? || op.Refresh?) && row.tokenHash == Sha256(op.drawn))
            || (s in db.sessions && row.tokenHash == db.sessions[s].tokenHash && row.userId == db.sessions[s].userId
                && row.expiresAt == db.sessions[s].expiresAt
                && (db.sessions[s].revokedAt.Some? ==> row == db.sessions[s]))
  {
    hide UsersOk, TokensOk, SessionsOk, JobsOk, AccountRules, Cascade, Collides;
    if op.Register? || op.ResendConfirmation? || op.ForgotPassword? {
      TokenRequestsLeaveSessions(cfg, db, now, op);
    }
  }

  lemma TokenRequestsLeaveSessions(cfg: Settings, db: Db, now: int, op: Op)
    requires op.Register? || op.ResendConfirmation? || op.ForgotPassword?
    ensures Serve(cfg, db, now, op).db.sessions == db.sessions
  {
  }

  lemma SpentStep(cfg: Settings, w: World, step: Step, raw: RawToken)
    requires WorldInv(cfg, w) && Enabled(w, step) && Spent(w, raw)
    ensures Spent(Next(cfg, w, step), raw)
  {
    hide Serve, EventsOf, Good, KeysBelow, TokensTracked, SessionsTracked, RawsDistinct;
    match step
    case Request(op) =>
      var d := Serve(cfg, w.db, w.clock, op);
      DrawnGrows(w.auth, d.events, raw);
      forall s | s in d.db.sessions && d.db.sessions[s].tokenHash == Sha256(raw)
        ensures d.db.sessions[s].revokedAt.Some? || d.db.sessions[s].expiresAt <= w.clock
      {
        SessionStep(cfg, w.db, w.clock, op, s);
      }
    case Work(a) =>
  }

  lemma {:induction false} SpentForever(cfg: Settings, w: World, run: seq<Step>, raw: RawToken)
    requires WorldInv(cfg, w) && Legal(cfg, w, run) && Spent(w, raw)
    ensures Spent(Exec(cfg, w, run), raw)
    decreases |run|
  {
    if run != [] {
      SpentStep(cfg, w, run[0], raw);
      StepKeeps(cfg, w, run[0]);
      SpentForever(cfg, Next(cfg, w, run[0]), run[1..], raw);
    }
  }

  ghost predicate Succeeds(cfg: Settings, w: World, op: Op) {
    Serve(cfg, w.db, w.clock, op).reply.SignedIn? || Serve(cfg, w.db, w.clock, op).reply.Accepted?
  }

  lemma SpentIsRefused(cfg: Settings, w: World, raw: RawToken, drawn: RawToken)
    requires Spent(w, raw)
    ensures Serve(cfg, w.db, w.clock, Refresh(raw, drawn)) == Refused(w.db, InvalidToken)
  {
  }

  /** A refresh succeeds exactly for the newest token of a live session used within its lifetime. */
  lemma RefreshIff(cfg: Settings, w: World, raw: RawToken, drawn: RawToken)
    requires Reachable(cfg, w) && !Drawn(w.auth, drawn)
    ensures Succeeds(cfg, w, Refresh(raw, drawn)) <==>
              exists s :: s in w.db.sessions && w.db.sessions[s].revokedAt.None?
                && LatestSession(w.auth, s).Some? && LatestSession(w.auth, s).value.raw == raw
                && w.clock - LatestSession(w.auth, s).value.at < cfg.refreshLifetime
  {
    hide KeysBelow, TokensTracked, RawsDistinct, View, JobsOk, UsersOk, TokensOk, LatestSession;
    ReachableInv(cfg, w);
    var found := SessionWithHash(w.db.sessions, Sha256(raw));
    forall s | s in w.db.sessions ensures w.db.sessions[s].tokenHash != Sha256(drawn) {
      assert SessionTracked(cfg, w.auth, s, w.db.sessions[s]);
      LatestIsDrawn(w.auth, s);
    }
    forall s | s in w.db.sessions ensures SessionTracked(cfg, w.auth, s, w.db.sessions[s]) {}
    if found.Some? {
      assert SessionTracked(cfg, w.auth, found.value, w.db.sessions[found.value]);
      assert IsCurrentUser(w.db, w.db.sessions[found.value].userId);
    }
  }

  lemma {:induction false} LatestIsDrawn(auth: seq<AuthEvent>, s: nat)
    requires LatestSession(auth, s).Some?
    ensures Drawn(auth, LatestSession(auth, s).value.raw)
    ensures exists k :: 0 <= k < |auth| && auth[k] == SessionIssued(s, LatestSession(auth, s).value.userId,
                          LatestSession(auth, s).value.raw, LatestSession(auth, s).value.at)
  {
    var n := |auth| - 1;
    var e := auth[n];
    if e.SessionIssued? && e.sessionId == s {
      assert RawOf(auth[n]) == Some(LatestSession(auth, s).value.raw);
    } else {
      LatestIsDrawn(auth[..n], s);
      DrawnGrows(auth[..n], [e], LatestSession(auth, s).value.raw);
      assert auth == auth[..n] + [e];
      var issue := LatestSession(auth, s).value;
      var k :| 0 <= k < n && auth[..n][k] == SessionIssued(s, issue.userId, issue.raw, issue.at);
      assert auth[k] == auth[..n][k];
    }
  }

  /** A token that succeeded is spent by its own success. */
  lemma RefreshSpends(cfg: Settings, w: World, raw: RawToken, drawn: RawToken)
    requires WorldInv(cfg, w) && Enabled(w, Request(Refresh(raw, drawn)))
    requires Succeeds(cfg, w, Refresh(raw, drawn))
    ensures Spent(Next(cfg, w, Request(Refresh(raw, drawn))), raw)
  {
    hide KeysBelow, TokensTracked, RawsDistinct, JobsOk, UsersOk, TokensOk, AccountRules, EventsOf, LatestSession;
    var s := SessionWithHash(w.db.sessions, Sha256(raw)).value;
    assert SessionTracked(cfg, w.auth, s, w.db.sessions[s]);
    LatestIsDrawn(w.auth, s);
    assert raw != drawn;
    DrawnGrows(w.auth, Serve(cfg, w.db, w.clock, Refresh(raw, drawn)).events, raw);
  }

  /** Each refresh token succeeds at most once in a run. */
  lemma RefreshOnce(cfg: Settings, w: World, raw: RawToken, drawn: RawToken, run: seq<Step>, drawn': RawToken)
    requires Reachable(cfg, w) && Enabled(w, Request(Refresh(raw, drawn))) && Succeeds(cfg, w, Refresh(raw, drawn))
    requires Legal(cfg, Next(cfg, w, Request(Refresh(raw, drawn))), run)
    ensures var later := Exec(cfg, Next(cfg, w, Request(Refresh(raw, drawn))), run);
            Serve(cfg, later.db, later.clock, Refresh(raw, drawn')).reply == InvalidToken
  {
    ReachableInv(cfg, w);
    RefreshSpends(cfg, w, raw, drawn);
    StepKeeps(cfg, w, Request(Refresh(raw, drawn)));
    var t := Next(cfg, w, Request(Refresh(raw, drawn)));
    SpentForever(cfg, t, run, raw);
    SpentIsRefused(cfg, Exec(cfg, t, run), raw, drawn');
  }

  /** A row that carries a token is the session it was given out for, and the token is its newest. */
  lemma TokenNamesSession(cfg: Settings, w: World, k: nat, s: nat)
    requires WorldInv(cfg, w) && k < |w.auth| && w.auth[k].SessionIssued?
    requires s in w.db.sessions && w.db.sessions[s].tokenHash == Sha256(w.auth[k].raw)
    ensures w.auth[k].sessionId == s && w.auth[k].userId == w.db.sessions[s].userId
    ensures LatestSession(w.auth, s) == Some(Issue(w.auth[k].userId, w.auth[k].raw, w.auth[k].at))
  {
    hide KeysBelow, TokensTracked, Good, View, LatestSession;
    assert SessionTracked(cfg, w.auth, s, w.db.sessions[s]);
    LatestIsDrawn(w.auth, s);
    var issue := LatestSession(w.auth, s).value;
    var i :| 0 <= i < |w.auth| && w.auth[i] == SessionIssued(s, issue.userId, issue.raw, issue.at);
    assert RawOf(w.auth[i]) == RawOf(w.auth[k]) && i == k;
  }

  /** A reset or change of the password spends every token ever given to that user. */
  lemma PasswordSetSpends(cfg: Settings, w: World, op: Op, u: nat, k: nat)
    requires WorldInv(cfg, w) && Enabled(w, Request(op))
    requires PasswordSet(u, w.clock) in Serve(cfg, w.db, w.clock, op).events
    requires k < |w.auth| && w.auth[k].SessionIssued? && w.auth[k].userId == u
    ensures Spent(Next(cfg, w, Request(op)), w.auth[k].raw)
  {
    hide KeysBelow, TokensTracked, JobsOk, UsersOk, TokensOk, SessionsOk, AccountRules, EventsOf, LatestSession,
         Cascade, View;
    var raw := w.auth[k].raw;
    var events := Serve(cfg, w.db, w.clock, op).events;
    assert RawOf(w.auth[k]) == Some(raw);
    assert Drawn(w.auth, raw);
    DrawnGrows(w.auth, events, raw);
    assert op.ResetPassword? || op.ChangePassword?;
    var d := Serve(cfg, w.db, w.clock, op).db;
    forall s | s in d.sessions && d.sessions[s].tokenHash == Sha256(raw) ensures d.sessions[s].revokedAt.Some? {
      assert s in w.db.sessions;
      TokenNamesSession(cfg, w, k, s);
    }
  }

  /** No token given out before a password was set succeeds afterwards. */
  lemma PasswordSetRevokes(cfg: Settings, w: World, op: Op, u: nat, k: nat, run: seq<Step>, drawn: RawToken)
    requires Reachable(cfg, w) && Enabled(w, Request(op))
    requires PasswordSet(u, w.clock) in Serve(cfg, w.db, w.clock, op).events
    requires k < |w.auth| && w.auth[k].SessionIssued? && w.auth[k].userId == u
    requires Legal(cfg, Next(cfg, w, Request(op)), run)
    ensures var later := Exec(cfg, Next(cfg, w, Request(op)), run);
            Serve(cfg, later.db, later.clock, Refresh(w.auth[k].raw, drawn)).reply == InvalidToken
  {
    ReachableInv(cfg, w);
    PasswordSetSpends(cfg, w, op, u, k);
    StepKeeps(cfg, w, Request(op));
    SpentForever(cfg, Next(cfg, w, Request(op)), run, w.auth[k].raw);
    SpentIsRefused(cfg, Exec(cfg, Next(cfg, w, Request(op)), run), w.auth[k].raw, drawn);
  }

  /** Setting one user's password leaves the sessions of the others alone. */
  lemma OthersStaySignedIn(cfg: Settings, db: Db, now: int, op: Op, u: nat, s: nat)
    requires PasswordSet(u, now) in Serve(cfg, db, now, op).events
    requires s in db.sessions && db.sessions[s].userId != u
    ensures s in Serve(cfg, db, now, op).db.sessions && Serve(cfg, db, now, op).db.sessions[s] == db.sessions[s]
  {
  }

  lemma RevocationStep(cfg: Settings, w: World, step: Step, s: nat)
    requires WorldInv(cfg, w) && Enabled(w, step)
    requires s in w.db.sessions && w.db.sessions[s].revokedAt.Some? && s in Next(cfg, w, step).db.sessions
    ensures Next(cfg, w, step).db.sessions[s] == w.db.sessions[s]
  {
    hide Serve, EventsOf, KeysBelow, TokensTracked, RawsDistinct, AccountRules, JobsOk, UsersOk, TokensOk;
    if step.Request? {
      SessionStep(cfg, w.db, w.clock, step.op, s);
      DrawnHash(cfg, w, step.op, s);
    }
  }

  /** Login and refresh leave a revoked row alone. */
  lemma DrawnHash(cfg: Settings, w: World, op: Op, s: nat)
    requires WorldInv(cfg, w) && FreshInput(w, op)
    requires s in w.db.sessions && w.db.sessions[s].revokedAt.Some? && s in Serve(cfg, w.db, w.clock, op).db.sessions
    ensures (op.Login? || op.Refresh?) ==> Serve(cfg, w.db, w.clock, op).db.sessions[s] == w.db.sessions[s]
  {
    hide KeysBelow, TokensTracked, RawsDistinct, JobsOk, UsersOk, TokensOk, AccountRules;
  }

  /** A recorded revocation time stays as long as the row. */
  lemma {:induction false} RevocationIsFinal(cfg: Settings, w: World, run: seq<Step>, s: nat)
    requires WorldInv(cfg, w) && Legal(cfg, w, run)
    requires s in w.db.sessions && w.db.sessions[s].revokedAt.Some?
    ensures s in Exec(cfg, w, run).db.sessions ==> Exec(cfg, w, run).db.sessions[s] == w.db.sessions[s]
    decreases |run|
  {
    if run != [] {
      var t := Next(cfg, w, run[0]);
      StepKeeps(cfg, w, run[0]);
      if s in t.db.sessions {
        RevocationStep(cfg, w, run[0], s);
        RevocationIsFinal(cfg, t, run[1..], s);
      } else {
        SessionSerials(cfg, w, run[0], s);
        GoneForGood(cfg, t, run[1..], s);
      }
    }
  }

  lemma RequestSerials(cfg: Settings, db: Db, now: int, op: Op)
    ensures db.nextSessionId <= Serve(cfg, db, now, op).db.nextSessionId
    ensures Serve(cfg, db, now, op).db.sessions.Keys <=
              if Serve(cfg, db, now, op).db.nextSessionId > db.nextSessionId
              then db.sessions.Keys + {db.nextSessionId} else db.sessions.Keys
  {
  }

  lemma SessionSerials(cfg: Settings, w: World, step: Step, s: nat)
    requires Enabled(w, step) && SessionsOk(w.db.sessions, w.db.nextSessionId, w.db.users.Keys)
    requires s in w.db.sessions || s < w.db.nextSessionId
    ensures s < Next(cfg, w, step).db.nextSessionId
    ensures s !in w.db.sessions ==> s !in Next(cfg, w, step).db.sessions
  {
    hide Serve, EventsOf;
    if step.Request? {
      RequestSerials(cfg, w.db, w.clock, step.op);
    }
  }

  lemma {:induction false} GoneForGood(cfg: Settings, w: World, run: seq<Step>, s: nat)
    requires WorldInv(cfg, w) && Legal(cfg, w, run) && s < w.db.nextSessionId && s !in w.db.sessions
    ensures s !in Exec(cfg, w, run).db.sessions
    decreases |run|
  {
    if run != [] {
      SessionSerials(cfg, w, run[0], s);
      StepKeeps(cfg, w, run[0]);
      GoneForGood(cfg, Next(cfg, w, run[0]), run[1..], s);
    }
  }

  // ---- Sliding expiry over a run ----

  /** A step in which somebody presents the newest token of session s. */
  ghost predicate Presents(w: World, step: Step, s: nat) {
    step.Request? && step.op.Refresh?
    && LatestSession(w.auth, s).Some? && step.op.raw == LatestSession(w.auth, s).value.raw
  }

  /** When the newest token of session s is presented in a run. */
  ghost function UseTimes(cfg: Settings, w: World, run: seq<Step>, s: nat): seq<int>
    requires Legal(cfg, w, run)
    decreases |run|
  {
    if run == [] then []
    else (if Presents(w, run[0], s) then [w.clock] else []) + UseTimes(cfg, Next(cfg, w, run[0]), run[1..], s)
  }

  ghost predicate UsesSucceed(cfg: Settings, w: World, run: seq<Step>, s: nat)
    requires Legal(cfg, w, run)
    decreases |run|
  {
    run == []
    || ((Presents(w, run[0], s) ==> Succeeds(cfg, w, run[0].op)) && UsesSucceed(cfg, Next(cfg, w, run[0]), run[1..], s))
  }

  /** Nobody revokes the session or deletes its owner during the run. */
  ghost predicate StaysUnrevoked(cfg: Settings, w: World, run: seq<Step>, s: nat)
    requires Legal(cfg, w, run)
    decreases |run|
  {
    s in w.db.sessions && w.db.sessions[s].revokedAt.None?
    && (run == [] || StaysUnrevoked(cfg, Next(cfg, w, run[0]), run[1..], s))
  }

  /** The pause before the i-th use; `last` is the time of the login or rotation before the first. */
  function Gap(last: int, times: seq<int>, i: nat): int
    requires i < |times|
  {
    times[i] - (if i == 0 then last else times[i - 1])
  }

  ghost predicate GapsBelow(last: int, times: seq<int>, lifetime: int) {
    forall i | 0 <= i < |times| :: Gap(last, times, i) < lifetime
  }

  /** A request that does not present the newest token of a session leaves that session's token alone. */
  lemma OtherRequestsLeaveRow(cfg: Settings, w: World, op: Op, s: nat)
    requires Good(w.db) && SessionsTracked(cfg, w.db, w.auth) && !Presents(w, Request(op), s)
    requires s in w.db.sessions && s in Serve(cfg, w.db, w.clock, op).db.sessions
    ensures var before, after := w.db.sessions[s], Serve(cfg, w.db, w.clock, op).db.sessions[s];
            after.tokenHash == before.tokenHash && after.userId == before.userId && after.expiresAt == before.expiresAt
  {
    hide JobsOk, UsersOk, TokensOk, AccountRules, LatestSession;
    assert SessionTracked(cfg, w.auth, s, w.db.sessions[s]);
    if !op.Login? && !op.Refresh? {
      hide Serve;
      SessionStep(cfg, w.db, w.clock, op, s);
    }
  }

  /** Other requests and all workers leave the newest token of an unrevoked session as it was. */
  lemma OtherStepsLeaveSession(cfg: Settings, w: World, step: Step, s: nat)
    requires WorldInv(cfg, w) && Enabled(w, step) && !Presents(w, step, s)
    requires s in w.db.sessions && s in Next(cfg, w, step).db.sessions
    ensures LatestSession(Next(cfg, w, step).auth, s) == LatestSession(w.auth, s)
  {
    hide EventsOf, KeysBelow, TokensTracked, RawsDistinct, Good, Serve, LatestSession, View, Enabled, Presents;
    StepKeeps(cfg, w, step);
    assert SessionTracked(cfg, w.auth, s, w.db.sessions[s]);
    var t := Next(cfg, w, step);
    assert SessionTracked(cfg, t.auth, s, t.db.sessions[s]);
    if step.Request? {
      OtherRequestsLeaveRow(cfg, w, step.op, s);
    }
  }

  /**
   * In any run that does not revoke a session, with any requests and workers in
   * between, its uses all succeed exactly when every pause between them stays
   * below the lifetime.
   */
  lemma {:induction false} SurvivesIffGapsBelow(cfg: Settings, w: World, run: seq<Step>, s: nat)
    requires WorldInv(cfg, w) && Legal(cfg, w, run) && StaysUnrevoked(cfg, w, run, s)
    ensures LatestSession(w.auth, s).Some?
    ensures UsesSucceed(cfg, w, run, s) <==>
              GapsBelow(LatestSession(w.auth, s).value.at, UseTimes(cfg, w, run, s), cfg.refreshLifetime)
    decreases |run|
  {
    hide EventsOf, Serve, KeysBelow, TokensTracked, RawsDistinct, Good, LatestSession, View;
    assert SessionTracked(cfg, w.auth, s, w.db.sessions[s]);
    if run != [] {
      var t := Next(cfg, w, run[0]);
      StepKeeps(cfg, w, run[0]);
      SurvivesIffGapsBelow(cfg, t, run[1..], s);
      var last := LatestSession(w.auth, s).value.at;
      var times, rest := UseTimes(cfg, w, run, s), UseTimes(cfg, t, run[1..], s);
      if Presents(w, run[0], s) {
        assert times == [w.clock] + rest;
        UseOf(cfg, w, run[0].op, s);
        if w.clock - last < cfg.refreshLifetime {
          assert times[1..] == rest;
          GapsSplit(last, times, cfg.refreshLifetime);
        } else {
          assert Gap(last, times, 0) >= cfg.refreshLifetime;
        }
      } else {
        assert times == rest;
        OtherStepsLeaveSession(cfg, w, run[0], s);
      }
    }
  }

  /** One use: it succeeds within the lifetime of the last one, and then becomes the last one itself. */
  lemma UseOf(cfg: Settings, w: World, op: Op, s: nat)
    requires WorldInv(cfg, w) && Enabled(w, Request(op)) && Presents(w, Request(op), s)
    requires s in w.db.sessions && w.db.sessions[s].revokedAt.None?
    ensures Succeeds(cfg, w, op) <==> w.clock - LatestSession(w.auth, s).value.at < cfg.refreshLifetime
    ensures Succeeds(cfg, w, op) ==>
              LatestSession(Next(cfg, w, Request(op)).auth, s).Some?
              && LatestSession(Next(cfg, w, Request(op)).auth, s).value.at == w.clock
  {
    hide EventsOf, KeysBelow, TokensTracked, RawsDistinct, JobsOk, UsersOk, TokensOk, LatestSession;
    assert SessionTracked(cfg, w.auth, s, w.db.sessions[s]);
    forall v | v in w.db.sessions ensures w.db.sessions[v].tokenHash != Sha256(op.drawn) {
      assert SessionTracked(cfg, w.auth, v, w.db.sessions[v]);
      LatestIsDrawn(w.auth, v);
    }
    OneUse(cfg, w.db, s, op.raw, op.drawn, w.clock);
    if Succeeds(cfg, w, op) {
      StepKeeps(cfg, w, Request(op));
      var t := Next(cfg, w, Request(op));
      assert SessionTracked(cfg, t.auth, s, t.db.sessions[s]);
    }
  }

  lemma OneUse(cfg: Settings, db: Db, s: nat, raw: RawToken, drawn: RawToken, now: int)
    requires Good(db) && s in db.sessions && db.sessions[s].tokenHash == Sha256(raw) && db.sessions[s].revokedAt.None?
    requires forall v | v in db.sessions && v != s :: db.sessions[v].tokenHash != Sha256(drawn)
    ensures var r := Serve(cfg, db, now, Refresh(raw, drawn));
            && (r.reply.SignedIn? <==> now < db.sessions[s].expiresAt)
            && (r.reply.SignedIn? ==> r.db.sessions == db.sessions[s := db.sessions[s].(
                  tokenHash := Sha256(drawn), expiresAt := now + cfg.refreshLifetime, updatedAt := now)])
  {
  }

  lemma GapsSplit(last: int, times: seq<int>, lifetime: int)
    requires times != [] && times[0] - last < lifetime
    ensures GapsBelow(last, times, lifetime) <==> GapsBelow(times[0], times[1..], lifetime)
  {
    var rest := times[1..];
    assert Gap(last, times, 0) < lifetime;
    forall i | 0 <= i < |rest| ensures Gap(times[0], rest, i) == Gap(last, times, i + 1) {}
    forall i | 0 < i < |times| ensures Gap(last, times, i) == Gap(times[0], rest, i - 1) {}
  }

  // ---- Confirmation and reset tokens ----

  /** A mailed token is accepted exactly if it is the newest for its user, unused and unexpired. */
  lemma ConfirmIff(cfg: Settings, w: World, raw: RawToken)
    requires Reachable(cfg, w)
    ensures Succeeds(cfg, w, ConfirmEmail(raw)) <==>
              exists u :: u in w.db.users && w.db.users[u].verifiedAt.None?
                && LatestToken(w.auth, Confirming, u).Some? && LatestToken(w.auth, Confirming, u).value.raw == raw
                && w.clock < LatestToken(w.auth, Confirming, u).value.at + cfg.confirmationExpiry
  {
    hide KeysBelow, SessionsTracked, RawsDistinct, View, JobsOk, SessionsOk, LatestToken, MailsSpaced, Cascade,
         TokensTracked, WithoutTokens;
    ReachableInv(cfg, w);
    assert w.db.TokensFor(Confirming) == w.db.confirmations;
    OwnersTracked(cfg, w, Confirming);
    RawNamesRow(cfg, w, Confirming, raw);
    forall t | t in w.db.confirmations ensures HasToken(w.db.confirmations, w.db.confirmations[t].userId) {}
  }

  lemma ResetIff(cfg: Settings, w: World, raw: RawToken, password: string)
    requires Reachable(cfg, w)
    ensures Succeeds(cfg, w, ResetPassword(raw, password)) <==>
              exists u :: u in w.db.users
                && LatestToken(w.auth, Resetting, u).Some? && LatestToken(w.auth, Resetting, u).value.raw == raw
                && w.clock < LatestToken(w.auth, Resetting, u).value.at + cfg.resetExpiry
  {
    hide KeysBelow, SessionsTracked, RawsDistinct, View, LatestToken, TokensTracked, Serve, Good, Reachable;
    ReachableInv(cfg, w);
    assert w.db.TokensFor(Resetting) == w.db.resets;
    OwnersTracked(cfg, w, Resetting);
    RawNamesRow(cfg, w, Resetting, raw);
    ResetAccepts(cfg, w, raw, password);
  }

  lemma ResetAccepts(cfg: Settings, w: World, raw: RawToken, password: string)
    requires Good(w.db)
    ensures Succeeds(cfg, w, ResetPassword(raw, password)) <==>
              exists t :: t in w.db.resets && w.db.resets[t].tokenHash == Sha256(raw)
                          && w.clock < w.db.resets[t].expiresAt
  {
    hide JobsOk, SessionsOk, AccountRules, Cascade, WithPassword;
  }

  lemma OwnersTracked(cfg: Settings, w: World, p: Purpose)
    requires WorldInv(cfg, w)
    ensures forall t | t in w.db.TokensFor(p) ::
              w.db.TokensFor(p)[t].userId in w.db.users && TokenTracked(cfg, w.auth, p, w.db.TokensFor(p)[t])
  {
  }

  /** The newest token of a user who may still use it is in the table. */
  lemma RawNamesRow(cfg: Settings, w: World, p: Purpose, raw: RawToken)
    requires WorldInv(cfg, w)
    ensures forall u | u in w.db.users && (p.Confirming? ==> w.db.users[u].verifiedAt.None?)
                       && LatestToken(w.auth, p, u).Some? ::
              exists t :: t in w.db.TokensFor(p) && w.db.TokensFor(p)[t].userId == u
                && w.db.TokensFor(p)[t].tokenHash == Sha256(LatestToken(w.auth, p, u).value.raw)
  {
  }

  /** A mailed token that no later request can use. */
  ghost predicate UsedUp(w: World, p: Purpose, raw: RawToken) {
    Drawn(w.auth, raw)
    && forall t | t in w.db.TokensFor(p) && w.db.TokensFor(p)[t].tokenHash == Sha256(raw) ::
         w.db.TokensFor(p)[t].expiresAt <= w.clock
  }

  function Consume(p: Purpose, raw: RawToken, password: string): Op {
    if p.Confirming? then ConfirmEmail(raw) else ResetPassword(raw, password)
  }

  lemma UsedUpIsRefused(cfg: Settings, w: World, p: Purpose, raw: RawToken, password: string)
    requires UsedUp(w, p, raw)
    ensures Serve(cfg, w.db, w.clock, Consume(p, raw, password)) == Refused(w.db, InvalidToken)
  {
  }

  /** Tokens in the tables are old rows or carry the token drawn by the request. */
  lemma TokenStep(cfg: Settings, db: Db, now: int, op: Op, p: Purpose, t: nat)
    requires t in Serve(cfg, db, now, op).db.TokensFor(p)
    ensures var row := Serve(cfg, db, now, op).db.TokensFor(p)[t];
            || ((op.Register? || op.ResendConfirmation? || op.ForgotPassword?) && row.tokenHash == Sha256(op.drawn))
            || (t in db.TokensFor(p) && row == db.TokensFor(p)[t])
  {
  }

  lemma UsedUpStep(cfg: Settings, w: World, step: Step, p: Purpose, raw: RawToken)
    requires Enabled(w, step) && UsedUp(w, p, raw)
    ensures UsedUp(Next(cfg, w, step), p, raw)
  {
    hide Serve, EventsOf;
    match step
    case Request(op) =>
      var d := Serve(cfg, w.db, w.clock, op);
      DrawnGrows(w.auth, d.events, raw);
      forall t | t in d.db.TokensFor(p) && d.db.TokensFor(p)[t].tokenHash == Sha256(raw)
        ensures d.db.TokensFor(p)[t].expiresAt <= w.clock
      {
        TokenStep(cfg, w.db, w.clock, op, p, t);
      }
    case Work(a) =>
      assert Next(cfg, w, step).db.TokensFor(p) == w.db.TokensFor(p);
  }

  lemma {:induction false} UsedUpForever(cfg: Settings, w: World, run: seq<Step>, p: Purpose, raw: RawToken)
    requires Legal(cfg, w, run) && UsedUp(w, p, raw)
    ensures UsedUp(Exec(cfg, w, run), p, raw)
    decreases |run|
  {
    if run != [] {
      UsedUpStep(cfg, w, run[0], p, raw);
      UsedUpForever(cfg, Next(cfg, w, run[0]), run[1..], p, raw);
    }
  }

  lemma {:induction false} LatestTokenIsDrawn(auth: seq<AuthEvent>, p: Purpose, u: nat)
    requires LatestToken(auth, p, u).Some?
    ensures Drawn(auth, LatestToken(auth, p, u).value.raw)
    ensures exists k :: 0 <= k < |auth| && auth[k] == TokenIssued(p, u, LatestToken(auth, p, u).value.raw,
                                                                  LatestToken(auth, p, u).value.at)
    ensures LatestToken(auth, p, u).value.userId == u
  {
    var n := |auth| - 1;
    var e := auth[n];
    if e.TokenIssued? && e.purpose == p && e.userId == u {
      assert RawOf(auth[n]) == Some(LatestToken(auth, p, u).value.raw);
    } else {
      LatestTokenIsDrawn(auth[..n], p, u);
      DrawnGrows(auth[..n], [e], LatestToken(auth, p, u).value.raw);
      assert auth == auth[..n] + [e];
      var issue := LatestToken(auth, p, u).value;
      var k :| 0 <= k < n && auth[..n][k] == TokenIssued(p, u, issue.raw, issue.at);
      assert auth[k] == auth[..n][k];
    }
  }

  /** Accepting a token deletes it. */
  lemma ConsumingUsesUp(cfg: Settings, w: World, p: Purpose, raw: RawToken, password: string)
    requires WorldInv(cfg, w) && Succeeds(cfg, w, Consume(p, raw, password))
    ensures UsedUp(Next(cfg, w, Request(Consume(p, raw, password))), p, raw)
  {
    hide KeysBelow, RawsDistinct, SessionsTracked, JobsOk, SessionsOk, UsersOk, AccountRules, EventsOf, Cascade,
         LatestToken, MailsSpaced;
    var tokens := w.db.TokensFor(p);
    var t := TokenWithHash(tokens, Sha256(raw)).value;
    OwnersTracked(cfg, w, p);
    assert TokenTracked(cfg, w.auth, p, tokens[t]);
    LatestTokenIsDrawn(w.auth, p, tokens[t].userId);
    DrawnGrows(w.auth, Serve(cfg, w.db, w.clock, Consume(p, raw, password)).events, raw);
  }

  /** Each confirmation or reset token is accepted at most once in a run. */
  lemma AcceptedOnce(cfg: Settings, w: World, p: Purpose, raw: RawToken, password: string,
                     run: seq<Step>, password': string)
    requires Reachable(cfg, w) && Succeeds(cfg, w, Consume(p, raw, password))
    requires Legal(cfg, Next(cfg, w, Request(Consume(p, raw, password))), run)
    ensures var later := Exec(cfg, Next(cfg, w, Request(Consume(p, raw, password))), run);
            Serve(cfg, later.db, later.clock, Consume(p, raw, password')).reply == InvalidToken
  {
    ReachableInv(cfg, w);
    ConsumingUsesUp(cfg, w, p, raw, password);
    var t := Next(cfg, w, Request(Consume(p, raw, password)));
    UsedUpForever(cfg, t, run, p, raw);
    UsedUpIsRefused(cfg, Exec(cfg, t, run), p, raw, password');
  }

  // ---- Cooldown ----

  lemma {:induction false} SpacedBy(times: seq<int>, gap: int, i: nat, k: nat)
    requires i <= k < |times| && forall n | 1 <= n < |times| :: times[n] >= times[n - 1] + gap
    ensures times[k] >= times[i] + (k - i) * gap
    decreases k
  {
    if i < k {
      SpacedBy(times, gap, i, k - 1);
      assert (k - 1 - i) * gap + gap == (k - i) * gap;
    }
  }

  lemma FitsInto(count: nat, gap: int, span: int)
    requires gap > 0 && count * gap <= span
    ensures count <= span / gap
  {
    var q := span / gap;
    assert gap * (count - q) == count * gap - gap * q <= span % gap < gap;
    if count - q >= 1 {
      Scale(gap, count - q);
    }
  }

  /** Mails to one user are a cooldown apart, so a window of a given span holds only so many. */
  lemma MailsPerWindow(cfg: Settings, w: World, p: Purpose, u: nat, i: nat, k: nat, span: int)
    requires Reachable(cfg, w) && i <= k < |MailTimes(w.auth, p, u)|
    requires MailTimes(w.auth, p, u)[k] - MailTimes(w.auth, p, u)[i] <= span
    ensures MailTimes(w.auth, p, u)[k] >= MailTimes(w.auth, p, u)[i] + (k - i) * cfg.Cooldown(p)
    ensures cfg.Cooldown(p) > 0 ==> k - i + 1 <= 1 + span / cfg.Cooldown(p)
  {
    ReachableInv(cfg, w);
    assert TokensTracked(cfg, w.db, w.auth, p);
    assert MailsSpaced(cfg, w.auth, p, u);
    SpacedBy(MailTimes(w.auth, p, u), cfg.Cooldown(p), i, k);
    if cfg.Cooldown(p) > 0 {
      FitsInto(k - i, cfg.Cooldown(p), span);
    }
  }

  lemma ReissueQueues(cfg: Settings, db: Db, p: Purpose, u: nat, raw: RawToken, now: int)
    requires u in db.users && Reissued(cfg, db, p, u, raw, now).Some?
    ensures var d := Reissued(cfg, db, p, u, raw, now).value;
            && d.users == db.users && d.nextJobId == db.nextJobId + 1 && db.nextJobId in d.jobs
            && d.jobs[db.nextJobId].key == KeyFor(p, db.NextTokenId(p))
            && MessageOf(d.jobs[db.nextJobId]) == TokenMail(p, db.users[u], raw, db.NextTokenId(p), now)
            && d.jobs[db.nextJobId].nextAttemptAt == now
  {
  }

  /** A token is issued exactly when its mail is queued to its owner, in the same transaction. */
  lemma OneMailPerToken(cfg: Settings, db: Db, now: int, op: Op, p: Purpose)
    requires Good(db)
    ensures var s := Serve(cfg, db, now, op);
            (exists u, raw :: s.events == [TokenIssued(p, u, raw, now)]) <==>
              QueuesJob(db, s.db) && s.db.jobs[db.nextJobId].key == KeyFor(p, db.NextTokenId(p))
    ensures var s := Serve(cfg, db, now, op);
            forall u, raw | s.events == [TokenIssued(p, u, raw, now)] ::
              && QueuesJob(db, s.db) && u in s.db.users
              && MessageOf(s.db.jobs[db.nextJobId]) == TokenMail(p, s.db.users[u], raw, db.NextTokenId(p), now)
              && s.db.jobs[db.nextJobId].nextAttemptAt == now
  {
    hide UsersOk, TokensOk, SessionsOk, JobsOk, AccountRules, Collides, Cascade, Reissued;
    var s := Serve(cfg, db, now, op);
    if s.events != [] && s.events[0].TokenIssued? {
      if op.Register? {
        var created := WithUser(db, NewUser(op.email, op.password, op.profile, op.terms.value, now));
        ReissueQueues(cfg, created, Confirming, db.nextUserId, op.drawn, now);
      } else if op.ResendConfirmation? {
        ReissueQueues(cfg, db, Confirming, UserWithEmail(db, op.email).value, op.drawn, now);
      } else {
        ReissueQueues(cfg, db, Resetting, UserWithEmail(db, op.email).value, op.drawn, now);
      }
    }
  }
}
