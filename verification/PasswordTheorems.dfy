/** Over every run: which password signs a user in, which jobs a request takes away, how far mails are apart. */
module PasswordTheorems {
  import opened Prelude
  import opened JobTable
  import opened Tables
  import opened AuthSpec
  import opened AuthInvariant
  import opened AuthAnswers
  import opened System
  import opened SystemInvariant
  import opened SystemTheorems
  import opened AuthTheorems

  // ---- The password in force ----

  /** An accepted registration, reset or change that gives user u a password. */
  ghost predicate GivesPassword(cfg: Settings, w: World, step: Step, u: nat) {
    step.Request? && Serve(cfg, w.db, w.clock, step.op).reply == Accepted
    && match step.op
       case Register(_, _, _, _, _) => u == w.db.nextUserId
       case ChangePassword(v, _, _) => u == v
       case ResetPassword(raw, _) =>
         exists t :: t in w.db.resets && w.db.resets[t].tokenHash == Sha256(raw) && w.db.resets[t].userId == u
       case _ => false
  }

  /** The password that user u was last given in a run. */
  ghost function LastPassword(cfg: Settings, w: World, run: seq<Step>, u: nat, before: Option<string>): Option<string>
    requires Legal(cfg, w, run)
    decreases |run|
  {
    if run == [] then before
    else LastPassword(cfg, Next(cfg, w, run[0]), run[1..], u,
                      if GivesPassword(cfg, w, run[0], u) then Some(run[0].op.password) else before)
  }

  ghost predicate InForce(db: Db, u: nat, password: Option<string>) {
    u in db.users ==> password.Some? && db.users[u].passwordHash == Bcrypt(password.value)
  }

  /** What any request leaves of the digests. */
  lemma DigestStep(cfg: Settings, w: World, op: Op, u: nat)
    requires WorldInv(cfg, w) && u in Serve(cfg, w.db, w.clock, op).db.users
    ensures var after := Serve(cfg, w.db, w.clock, op).db.users[u];
            if GivesPassword(cfg, w, Request(op), u) then after.passwordHash == Bcrypt(op.password)
            else u in w.db.users && after.passwordHash == w.db.users[u].passwordHash
  {
    hide View, KeysBelow, TokensTracked, SessionsTracked, RawsDistinct, UsersOk, SessionsOk, JobsOk, AccountRules,
         Cascade, Collides, Reissued, GivesPassword;
    GivesMeans(cfg, w, op, u);
    match op
    case Register(_, _, _, _, _) => DigestOfRegistration(cfg, w, op, u);
    case ResendConfirmation(_, _) => TokenRequestsKeepUsers(cfg, w.db, w.clock, op);
    case ForgotPassword(_, _) => TokenRequestsKeepUsers(cfg, w.db, w.clock, op);
    case ResetPassword(_, _) => DigestOfReset(cfg, w, op, u);
    case ChangePassword(v, current, password) => ChangeIff(cfg, w.db, w.clock, v, current, password);
    case _ =>
  }

  lemma GivesMeans(cfg: Settings, w: World, op: Op, u: nat)
    ensures GivesPassword(cfg, w, Request(op), u) ==>
              Serve(cfg, w.db, w.clock, op).reply == Accepted
              && (op.Register? || op.ResetPassword? || op.ChangePassword?)
    ensures op.ChangePassword? ==>
              (GivesPassword(cfg, w, Request(op), u) <==>
                Serve(cfg, w.db, w.clock, op).reply == Accepted && op.userId == u)
  {
    hide Serve;
  }

  lemma TokenRequestsKeepUsers(cfg: Settings, db: Db, now: int, op: Op)
    requires op.ResendConfirmation? || op.ForgotPassword?
    ensures Serve(cfg, db, now, op).db.users == db.users
  {
    hide Cascade, Collides;
  }

  lemma DigestOfRegistration(cfg: Settings, w: World, op: Op, u: nat)
    requires Constraints(w.db) && op.Register? && u in Serve(cfg, w.db, w.clock, op).db.users
    ensures var after := Serve(cfg, w.db, w.clock, op).db.users[u];
            if GivesPassword(cfg, w, Request(op), u) then after.passwordHash == Bcrypt(op.password)
            else u in w.db.users && after == w.db.users[u]
  {
    hide Cascade, Collides, Reissued, TokenMailed, UsersOk, TokensOk, SessionsOk, JobsOk;
    if Serve(cfg, w.db, w.clock, op).reply == Accepted {
      RegistrationMails(cfg, w.db, w.clock, op);
    }
  }

  lemma DigestOfReset(cfg: Settings, w: World, op: Op, u: nat)
    requires Constraints(w.db) && op.ResetPassword? && u in Serve(cfg, w.db, w.clock, op).db.users
    ensures var after := Serve(cfg, w.db, w.clock, op).db.users[u];
            if GivesPassword(cfg, w, Request(op), u) then after.passwordHash == Bcrypt(op.password)
            else u in w.db.users && after.passwordHash == w.db.users[u].passwordHash
  {
    hide Cascade, UsersOk, SessionsOk, JobsOk, Serve;
    ResetIffLive(cfg, w.db, w.clock, op.raw, op.password);
  }

  /** A user's digest is always that of the password last given to him. */
  lemma {:induction false} PasswordInForce(cfg: Settings, w: World, run: seq<Step>, u: nat, before: Option<string>)
    requires WorldInv(cfg, w) && Legal(cfg, w, run) && InForce(w.db, u, before)
    ensures InForce(Exec(cfg, w, run).db, u, LastPassword(cfg, w, run, u, before))
    decreases |run|
  {
    hide WorldInv, Serve, EventsOf, GivesPassword;
    if run != [] {
      var t := Next(cfg, w, run[0]);
      StepKeeps(cfg, w, run[0]);
      var given := GivesPassword(cfg, w, run[0], u);
      match run[0] {
        case Request(op) =>
          GivesMeans(cfg, w, op, u);
          if u in t.db.users { DigestStep(cfg, w, op, u); }
          PasswordInForce(cfg, t, run[1..], u, if given then Some(op.password) else before);
        case Work(_) =>
          WorkGivesNone(cfg, w, run[0], u);
          PasswordInForce(cfg, t, run[1..], u, before);
      }
    }
  }

  lemma WorkGivesNone(cfg: Settings, w: World, step: Step, u: nat)
    requires step.Work?
    ensures !GivesPassword(cfg, w, step, u)
  {
  }

  /** After any run from the empty system a confirmed user signs in with the password last given, and no other. */
  lemma SignsInIffLastPassword(cfg: Settings, clock: int, run: seq<Step>, email: string, password: string,
                               drawn: RawToken)
    requires Legal(cfg, Start(clock), run)
    requires !Drawn(Exec(cfg, Start(clock), run).auth, drawn)
    ensures var w := Exec(cfg, Start(clock), run);
            Succeeds(cfg, w, Login(email, password, drawn)) <==>
              exists u :: u in w.db.users && w.db.users[u].email == email && w.db.users[u].verifiedAt.Some?
                          && LastPassword(cfg, Start(clock), run, u, None) == Some(password)
  {
    hide WorldInv, Serve, EventsOf, GivesPassword, LastPassword;
    StartOk(cfg, clock);
    RunKeeps(cfg, Start(clock), run);
    var w := Exec(cfg, Start(clock), run);
    forall u | u in w.db.users ensures InForce(w.db, u, LastPassword(cfg, Start(clock), run, u, None)) {
      PasswordInForce(cfg, Start(clock), run, u, None);
    }
    FreshTokenIsUnknown(cfg, w, drawn);
    InvariantIsConstrained(cfg, w);
    LoginIff(cfg, w.db, w.clock, email, password, drawn);
    LoginNeverAccepts(cfg, w.db, w.clock, email, password, drawn);
  }

  lemma InvariantIsConstrained(cfg: Settings, w: World)
    requires WorldInv(cfg, w)
    ensures Constraints(w.db)
  {
  }

  lemma LoginNeverAccepts(cfg: Settings, db: Db, now: int, email: string, password: string, drawn: RawToken)
    ensures Serve(cfg, db, now, Login(email, password, drawn)).reply != Accepted
  {
  }

  // ---- Jobs go with their tokens ----

  /** The token that a job announces is no longer stored. */
  predicate TokenGone(job: Job, d: Db) {
    || (job.confirmationTokenId.Some? && job.confirmationTokenId.value !in d.confirmations)
    || (job.resetTokenId.Some? && job.resetTokenId.value !in d.resets)
  }

  /** A request takes away exactly the jobs whose token it deletes, and changes no other queued job. */
  lemma JobsGoWithTokens(cfg: Settings, db: Db, now: int, op: Op, j: nat)
    requires Good(db) && j in db.jobs
    ensures var d := Serve(cfg, db, now, op).db;
            && (j !in d.jobs <==> TokenGone(db.jobs[j], d))
            && (j in d.jobs ==> d.jobs[j] == db.jobs[j])
  {
    hide Serve, AccountRules, UsersOk, TokensOk, SessionsOk, Collides;
    RequestShape(cfg, db, now, op);
    assert LinkOk(db, db.jobs[j]);
  }

  // ---- Mails are a cooldown apart, event by event ----

  /** Event i is a mail of one purpose to one user, and the password has not changed since. */
  predicate MailedSince(auth: seq<AuthEvent>, p: Purpose, u: nat, i: nat) {
    i < |auth| && auth[i].TokenIssued? && auth[i].purpose == p && auth[i].userId == u
    && (p == Resetting ==> forall n | i < n < |auth| :: !(auth[n].PasswordSet? && auth[n].userId == u))
  }

  lemma {:induction false} MailIsTimed(auth: seq<AuthEvent>, p: Purpose, u: nat, i: nat)
    requires MailedSince(auth, p, u, i)
    ensures MailTimes(auth[..i + 1], p, u) <= MailTimes(auth, p, u)
    ensures MailTimes(auth[..i + 1], p, u) == MailTimes(auth[..i], p, u) + [auth[i].at]
    decreases |auth|
  {
    var n := |auth| - 1;
    assert auth[..i + 1][..i] == auth[..i];
    if i < n {
      assert auth[..n][..i + 1] == auth[..i + 1] && auth[..n][..i] == auth[..i];
      MailIsTimed(auth[..n], p, u, i);
    } else {
      assert auth[..i + 1] == auth;
    }
  }

  /** Two mails to a user, for resets with no change of password since the first, are a cooldown apart. */
  lemma MailsApart(cfg: Settings, w: World, p: Purpose, u: nat, i: nat, k: nat)
    requires Reachable(cfg, w) && i < k && MailedSince(w.auth, p, u, i) && MailedSince(w.auth, p, u, k)
    ensures w.auth[k].at >= w.auth[i].at + (if p == Confirming then cfg.resendCooldown else cfg.resetCooldown)
  {
    hide Reachable, WorldInv;
    var before := w.auth[..k];
    MailIsTimed(w.auth, p, u, i);
    MailIsTimed(w.auth, p, u, k);
    assert MailedSince(before, p, u, i);
    MailIsTimed(before, p, u, i);
    assert before[..i + 1] == w.auth[..i + 1];
    var times := MailTimes(w.auth, p, u);
    var a, b := |MailTimes(w.auth[..i + 1], p, u)| - 1, |MailTimes(w.auth[..k + 1], p, u)| - 1;
    assert a < b && times[a] == w.auth[i].at && times[b] == w.auth[k].at;
    MailsPerWindow(cfg, w, p, u, a, b, times[b] - times[a]);
    assert (b - a) * cfg.Cooldown(p) >= cfg.Cooldown(p) by { AtLeastOnce(b - a, cfg.Cooldown(p)); }
  }

  lemma AtLeastOnce(n: int, gap: nat)
    requires n >= 1
    ensures n * gap >= gap
  {
    assert n * gap == (n - 1) * gap + gap;
  }
}
