/**
 * Many workers, one job table. Every committed transaction is one action; the
 * provider call happens between two transactions, so a claim, its delivery
 * and its finish are separate actions and anything may come between them.
 */
module OutboxProtocol {
  import opened Prelude
  import opened Mail
  import opened JobTable
  import Resend

  /** Where the worker that owns a claim stands in process_next_email. */
  datatype Stage =
    | Holding
    | Sending
    | Delivered
    | Rejected(failedAt: int, retryable: bool, code: string)
    | Done
    | Crashed

  /** A claim, the clock sample it was made with, and its worker's progress. */
  datatype Flight = Flight(claim: ClaimedEmailJob, at: int, lease: int, stage: Stage)

  /** What happened, in commit order. `lost` marks a claim that took over an expired lease. */
  datatype Event =
    | Enqueued(job: nat, message: EmailMessage, at: int)
    | Claimed(job: nat, lock: nat, at: int, lease: int, lost: bool)
    | Handed(job: nat, lock: nat, message: EmailMessage, posts: nat)
    | Accepted(job: nat, lock: nat)
    | Finished(job: nat, lock: nat, verdict: Verdict, updated: bool)
    | Cascaded(jobs: set<nat>)

  datatype State = State(
    clock: int,
    jobs: Jobs,
    nextJobId: nat,
    flights: map<nat, Flight>,
    log: seq<Event>)

  datatype Action =
    | Tick(now: int)
    | Enqueue(message: EmailMessage, confirmation: Option<nat>, reset: Option<nat>)
    | DeleteTokens(confirmations: set<nat>, resets: set<nat>)
    | ClaimNext(sample: int, lease: int, lock: nat)
    | Hand(lock: nat, posts: nat)
    | Deliver(lock: nat)
    | Reject(lock: nat, retryable: bool, code: string)
    | Finish(lock: nat)
    | Crash(lock: nat)

  /** One call of the provider adapter posts at most this often (Resend.SendWithRetry). */
  const POSTS_PER_SEND := Resend.MAX_ATTEMPTS

  /** No message was queued under this key before. */
  ghost predicate NewKey(log: seq<Event>, key: Key) {
    forall k | 0 <= k < |log| && log[k].Enqueued? :: log[k].message.key != Some(key)
  }

  ghost predicate Enabled(s: State, a: Action) {
    match a
    case Tick(now) => s.clock <= now
    case Enqueue(m, confirmation, reset) =>
      && m.key.Some? && NewKey(s.log, m.key.value)
      && !Collides(s.jobs, m.key.value, confirmation, reset)
    case DeleteTokens(_, _) => true
    case ClaimNext(sample, _, lock) => sample <= s.clock && lock !in s.flights
    case Hand(lock, posts) => lock in s.flights && s.flights[lock].stage.Holding? && posts <= POSTS_PER_SEND
    case Deliver(lock) => lock in s.flights && s.flights[lock].stage.Sending?
    case Reject(lock, _, _) => lock in s.flights && s.flights[lock].stage.Sending?
    case Finish(lock) => lock in s.flights && (s.flights[lock].stage.Delivered? || s.flights[lock].stage.Rejected?)
    case Crash(lock) => lock in s.flights && !s.flights[lock].stage.Done?
  }

  function At(s: State, lock: nat, stage: Stage): map<nat, Flight>
    requires lock in s.flights
  {
    s.flights[lock := s.flights[lock].(stage := stage)]
  }

  function VerdictOf(f: Flight): Verdict
    requires f.stage.Delivered? || f.stage.Rejected?
  {
    if f.stage.Delivered? then Sent else Decide(f.claim, f.stage.failedAt, f.stage.retryable)
  }

  function FinishJobs(jobs: Jobs, f: Flight): Jobs
    requires f.stage.Delivered? || f.stage.Rejected?
  {
    if f.stage.Delivered? then Completed(jobs, f.claim)
    else Settled(jobs, f.claim, VerdictOf(f), f.stage.failedAt, f.stage.code)
  }

  ghost function Next(s: State, a: Action): State
    requires Enabled(s, a)
  {
    match a
    case Tick(now) => s.(clock := now)
    case Enqueue(m, confirmation, reset) =>
      s.(jobs := s.jobs[s.nextJobId := NewJob(m, s.clock, confirmation, reset)],
         nextJobId := s.nextJobId + 1,
         log := s.log + [Enqueued(s.nextJobId, m, s.clock)])
    case DeleteTokens(confirmations, resets) =>
      s.(jobs := Cascade(s.jobs, confirmations, resets),
         log := s.log + [Cascaded(Orphans(s.jobs, confirmations, resets))])
    case ClaimNext(sample, lease, lock) =>
      (match NextDue(s.jobs, sample)
       case None => s
       case Some(j) =>
         var row := Leased(s.jobs[j], sample, lease, lock);
         s.(jobs := s.jobs[j := row],
            flights := s.flights[lock := Flight(ClaimOf(j, row, lock), sample, lease, Holding)],
            log := s.log + [Claimed(j, lock, sample, lease, s.jobs[j].lockToken.Some?)]))
    case Hand(lock, posts) =>
      var c := s.flights[lock].claim;
      s.(flights := At(s, lock, Sending), log := s.log + [Handed(c.id, lock, c.message, posts)])
    case Deliver(lock) =>
      s.(flights := At(s, lock, Delivered), log := s.log + [Accepted(s.flights[lock].claim.id, lock)])
    case Reject(lock, retryable, code) =>
      s.(flights := At(s, lock, Rejected(s.clock, retryable, code)))
    case Finish(lock) =>
      var f := s.flights[lock];
      s.(jobs := FinishJobs(s.jobs, f),
         flights := At(s, lock, Done),
         log := s.log + [Finished(f.claim.id, lock, VerdictOf(f), Holds(s.jobs, f.claim))])
    case Crash(lock) => s.(flights := At(s, lock, Crashed))
  }

  // ---- Runs ----

  function Start(clock: int): State {
    State(clock, map[], 0, map[], [])
  }

  ghost predicate Legal(s: State, run: seq<Action>)
    decreases |run|
  {
    run == [] || (Enabled(s, run[0]) && Legal(Next(s, run[0]), run[1..]))
  }

  ghost function Exec(s: State, run: seq<Action>): State
    requires Legal(s, run)
    decreases |run|
  {
    if run == [] then s else Exec(Next(s, run[0]), run[1..])
  }

  // ---- The life of one job, read off the log ----

  /** `late` counts the lost claims that took over the eighth lease or a later one. */
  datatype History = History(
    message: Option<EmailMessage>,
    enqueuedAt: int,
    claimTimes: seq<int>,
    leases: seq<int>,
    locks: set<nat>,
    lost: nat,
    late: nat,
    reschedules: nat,
    handed: set<nat>,
    sends: nat,
    posts: nat,
    messages: set<EmailMessage>,
    accepted: set<nat>,
    completedBy: Option<nat>,
    failed: bool,
    cascaded: bool)

  const UNBORN := History(None, 0, [], [], {}, 0, 0, 0, {}, 0, 0, {}, {}, None, false, false)

  function Record(h: History, j: nat, e: Event): History {
    match e
    case Enqueued(job, m, at) => if job != j then h else h.(message := Some(m), enqueuedAt := at)
    case Claimed(job, lock, at, lease, lost) =>
      if job != j then h
      else h.(claimTimes := h.claimTimes + [at], leases := h.leases + [lease], locks := h.locks + {lock},
              lost := if lost then h.lost + 1 else h.lost,
              late := if lost && |h.claimTimes| >= MAX_ATTEMPTS then h.late + 1 else h.late)
    case Handed(job, lock, m, posts) =>
      if job != j then h
      else h.(handed := h.handed + {lock}, sends := h.sends + 1, posts := h.posts + posts,
              messages := h.messages + {m})
    case Accepted(job, lock) => if job != j then h else h.(accepted := h.accepted + {lock})
    case Finished(job, lock, verdict, updated) =>
      if job != j || !updated then h
      else (match verdict
            case Sent => h.(completedBy := Some(lock))
            case Retry(_) => h.(reschedules := h.reschedules + 1)
            case GiveUp => h.(failed := true))
    case Cascaded(jobs) => if j in jobs then h.(cascaded := true) else h
  }

  function Life(log: seq<Event>, j: nat): History
    decreases |log|
  {
    if log == [] then UNBORN else Record(Life(log[..|log| - 1], j), j, log[|log| - 1])
  }

  lemma LifeGrows(log: seq<Event>, e: Event, j: nat)
    ensures Life(log + [e], j) == Record(Life(log, j), j, e)
  {
  }
}
