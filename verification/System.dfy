/**
 * Requests and delivery workers over one database. A request is one transaction;
 * workers take the actions of the outbox protocol on the job table of that database.
 */
module System {
  import opened Prelude
  import opened Mail
  import opened JobTable
  import opened Tables
  import opened AuthSpec
  import Protocol = OutboxProtocol

  datatype World = World(
    db: Db,
    clock: int,
    flights: map<nat, Protocol.Flight>,
    log: seq<Protocol.Event>,
    auth: seq<AuthEvent>)

  /** The outbox as the protocol sees it. */
  function View(w: World): Protocol.State {
    Protocol.State(w.clock, w.db.jobs, w.db.nextJobId, w.flights, w.log)
  }

  datatype Step = Request(op: Op) | Work(action: Protocol.Action)

  /** A worker, the clock or a crash; the requests do the rest. */
  predicate IsWork(a: Protocol.Action) {
    !a.Enqueue? && !a.DeleteTokens?
  }

  // ---- Randomness ----

  function RawOf(e: AuthEvent): Option<RawToken> {
    match e
    case TokenIssued(_, _, raw, _) => Some(raw)
    case SessionIssued(_, _, raw, _) => Some(raw)
    case PasswordSet(_, _) => None
  }

  ghost predicate Drawn(auth: seq<AuthEvent>, raw: RawToken) {
    exists k :: 0 <= k < |auth| && RawOf(auth[k]) == Some(raw)
  }

  /** `secrets` and `uuid4` never repeat a value. */
  ghost predicate FreshInput(w: World, op: Op) {
    match op
    case Register(_, _, _, _, drawn) => !Drawn(w.auth, drawn)
    case ResendConfirmation(_, drawn) => !Drawn(w.auth, drawn)
    case ForgotPassword(_, drawn) => !Drawn(w.auth, drawn)
    case Login(_, _, drawn) => !Drawn(w.auth, drawn)
    case Refresh(_, drawn) => !Drawn(w.auth, drawn)
    case SubmitReport(_, _, uuid) => Protocol.NewKey(w.log, ReportKey(uuid))
    case _ => true
  }

  ghost predicate Enabled(w: World, step: Step) {
    match step
    case Request(op) => FreshInput(w, op)
    case Work(a) => IsWork(a) && Protocol.Enabled(View(w), a)
  }

  // ---- What a request does to the outbox ----

  function GoneConfirmations(db: Db, d: Db): set<nat> { db.confirmations.Keys - d.confirmations.Keys }
  function GoneResets(db: Db, d: Db): set<nat> { db.resets.Keys - d.resets.Keys }

  predicate QueuesJob(db: Db, d: Db) {
    d.nextJobId > db.nextJobId && db.nextJobId in d.jobs
  }

  /** A cascade from the deleted tokens, then perhaps one enqueue. */
  function Effects(db: Db, d: Db): seq<Protocol.Action> {
    [Protocol.DeleteTokens(GoneConfirmations(db, d), GoneResets(db, d))]
    + if QueuesJob(db, d) then
        var row := d.jobs[db.nextJobId];
        [Protocol.Enqueue(MessageOf(row), row.confirmationTokenId, row.resetTokenId)]
      else []
  }

  function EventsOf(db: Db, d: Db, now: int): seq<Protocol.Event> {
    [Protocol.Cascaded(Orphans(db.jobs, GoneConfirmations(db, d), GoneResets(db, d)))]
    + if QueuesJob(db, d) then [Protocol.Enqueued(db.nextJobId, MessageOf(d.jobs[db.nextJobId]), now)] else []
  }

  ghost function Next(cfg: Settings, w: World, step: Step): World
    requires Enabled(w, step)
  {
    match step
    case Request(op) =>
      var s := Serve(cfg, w.db, w.clock, op);
      World(s.db, w.clock, w.flights, w.log + EventsOf(w.db, s.db, w.clock), w.auth + s.events)
    case Work(a) =>
      var t := Protocol.Next(View(w), a);
      World(w.db.(jobs := t.jobs, nextJobId := t.nextJobId), t.clock, t.flights, t.log, w.auth)
  }

  function Start(clock: int): World {
    World(EMPTY_DB, clock, map[], [], [])
  }

  ghost predicate Legal(cfg: Settings, w: World, run: seq<Step>)
    decreases |run|
  {
    run == [] || (Enabled(w, run[0]) && Legal(cfg, Next(cfg, w, run[0]), run[1..]))
  }

  ghost function Exec(cfg: Settings, w: World, run: seq<Step>): World
    requires Legal(cfg, w, run)
    decreases |run|
  {
    if run == [] then w else Exec(cfg, Next(cfg, w, run[0]), run[1..])
  }

  // ---- The history of tokens and sessions ----

  datatype Issue = Issue(userId: nat, raw: RawToken, at: int)

  /** The token last mailed to a user, forgotten for resets once the password changes. */
  function LatestToken(auth: seq<AuthEvent>, p: Purpose, u: nat): Option<Issue>
    decreases |auth|
  {
    if auth == [] then None
    else
      var e := auth[|auth| - 1];
      if e.TokenIssued? && e.purpose == p && e.userId == u then Some(Issue(u, e.raw, e.at))
      else if e.PasswordSet? && p.Resetting? && e.userId == u then None
      else LatestToken(auth[..|auth| - 1], p, u)
  }

  /** The token last given out for a session, at login or rotation. */
  function LatestSession(auth: seq<AuthEvent>, s: nat): Option<Issue>
    decreases |auth|
  {
    if auth == [] then None
    else
      var e := auth[|auth| - 1];
      if e.SessionIssued? && e.sessionId == s then Some(Issue(e.userId, e.raw, e.at))
      else LatestSession(auth[..|auth| - 1], s)
  }

  /** When mails of one purpose went to a user, for resets since the last password change. */
  function MailTimes(auth: seq<AuthEvent>, p: Purpose, u: nat): seq<int>
    decreases |auth|
  {
    if auth == [] then []
    else
      var e := auth[|auth| - 1];
      var before := MailTimes(auth[..|auth| - 1], p, u);
      if e.TokenIssued? && e.purpose == p && e.userId == u then before + [e.at]
      else if e.PasswordSet? && p.Resetting? && e.userId == u then []
      else before
  }

  lemma HistoryGrows(auth: seq<AuthEvent>, e: AuthEvent)
    ensures (auth + [e])[..|auth|] == auth && (auth + [e])[|auth|] == e
  {
  }
}
