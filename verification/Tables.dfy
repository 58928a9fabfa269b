/** The database: its rows, its constraints and the store that the repositories update. */
module Tables {
  import opened Prelude
  import opened Mail
  import opened JobTable

  /** A token drawn by `secrets`; only its SHA-256 digest is stored, and digests do not collide. */
  type RawToken = nat
  datatype Hash = Sha256(raw: RawToken)

  /** A bcrypt digest verifies exactly the password it was made from. */
  datatype PasswordHash = Bcrypt(password: string)

  predicate Verifies(password: string, h: PasswordHash) {
    h == Bcrypt(password)
  }

  /** What a registration carries besides address and password. */
  datatype Profile = Profile(firstName: string, lastName: string, locale: string, emailConsent: bool, pushConsent: bool)

  /** Terms and consents carry one time, that of the registration. */
  datatype User = User(
    email: string,
    passwordHash: PasswordHash,
    verifiedAt: Option<int>,
    profile: Profile,
    termsVersion: string,
    acceptedAt: int)

  /** Email confirmations and password resets keep their tokens in two tables of one shape. */
  datatype Purpose = Confirming | Resetting
  datatype Token = Token(userId: nat, tokenHash: Hash, expiresAt: int, createdAt: int)
  type Tokens = map<nat, Token>

  datatype RefreshSession = RefreshSession(
    userId: nat,
    tokenHash: Hash,
    expiresAt: int,
    revokedAt: Option<int>,
    updatedAt: int)
  type Sessions = map<nat, RefreshSession>

  datatype Db = Db(
    users: map<nat, User>,
    confirmations: Tokens,
    resets: Tokens,
    sessions: Sessions,
    jobs: Jobs,
    nextUserId: nat,
    nextConfirmationId: nat,
    nextResetId: nat,
    nextSessionId: nat,
    nextJobId: nat)
  {
    function TokensFor(p: Purpose): Tokens {
      if p.Confirming? then confirmations else resets
    }

    function NextTokenId(p: Purpose): nat {
      if p.Confirming? then nextConfirmationId else nextResetId
    }
  }

  const EMPTY_DB := Db(map[], map[], map[], map[], map[], 0, 0, 0, 0, 0)

  function KeyFor(p: Purpose, tokenId: nat): Key {
    if p.Confirming? then ConfirmationKey(tokenId) else ResetKey(tokenId)
  }

  function TokensOf(tokens: Tokens, u: nat): set<nat> {
    set t | t in tokens && tokens[t].userId == u
  }

  // ---- Constraints of the schema ----

  ghost predicate UsersOk(db: Db) {
    && (forall u | u in db.users :: u < db.nextUserId)
    && (forall u, v | u in db.users && v in db.users && u != v :: db.users[u].email != db.users[v].email)
  }

  ghost predicate TokensOk(tokens: Tokens, next: nat, users: set<nat>) {
    && (forall t | t in tokens :: t < next && tokens[t].userId in users)
    && (forall t, v | t in tokens && v in tokens && t != v ::
          tokens[t].userId != tokens[v].userId && tokens[t].tokenHash != tokens[v].tokenHash)
  }

  ghost predicate SessionsOk(sessions: Sessions, next: nat, users: set<nat>) {
    && (forall s | s in sessions :: s < next && sessions[s].userId in users)
    && (forall s, v | s in sessions && v in sessions && s != v :: sessions[s].tokenHash != sessions[v].tokenHash)
  }

  /** A job's key names the token row it is linked to. */
  ghost predicate LinkOk(db: Db, job: Job) {
    match job.key
    case ConfirmationKey(t) =>
      job.confirmationTokenId == Some(t) && job.resetTokenId.None? && t in db.confirmations
    case ResetKey(t) =>
      job.resetTokenId == Some(t) && job.confirmationTokenId.None? && t in db.resets
    case ReportKey(_) => job.confirmationTokenId.None? && job.resetTokenId.None?
  }

  ghost predicate JobsOk(db: Db) {
    && (forall j | j in db.jobs :: j < db.nextJobId && LinkOk(db, db.jobs[j]))
    && (forall i, j | i in db.jobs && j in db.jobs && i != j :: db.jobs[i].key != db.jobs[j].key)
  }

  ghost predicate Constraints(db: Db) {
    && UsersOk(db)
    && TokensOk(db.confirmations, db.nextConfirmationId, db.users.Keys)
    && TokensOk(db.resets, db.nextResetId, db.users.Keys)
    && SessionsOk(db.sessions, db.nextSessionId, db.users.Keys)
    && JobsOk(db)
  }

  // ---- The store ----

  class Database {
    var users: map<nat, User>
    var confirmations: Tokens
    var resets: Tokens
    var sessions: Sessions
    var jobs: Jobs
    var nextUserId: nat
    var nextConfirmationId: nat
    var nextResetId: nat
    var nextSessionId: nat
    var nextJobId: nat

    function Contents(): Db
      reads this
    {
      Db(users, confirmations, resets, sessions, jobs,
         nextUserId, nextConfirmationId, nextResetId, nextSessionId, nextJobId)
    }

    constructor ()
      ensures Contents() == EMPTY_DB
    {
      users, confirmations, resets, sessions, jobs := map[], map[], map[], map[], map[];
      nextUserId, nextConfirmationId, nextResetId, nextSessionId, nextJobId := 0, 0, 0, 0, 0;
    }
  }
}
