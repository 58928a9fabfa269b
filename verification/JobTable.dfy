/**
 * The outbox table as a value: its rows and what each statement of
 * app/mailer/repository.py does to them.
 */
module JobTable {
  import opened Prelude
  import opened Mail

  datatype Job = Job(
    confirmationTokenId: Option<nat>,
    resetTokenId: Option<nat>,
    toAddress: string,
    replyTo: Option<string>,
    subject: string,
    textBody: Body,
    htmlBody: Body,
    key: Key,
    attempts: nat,
    nextAttemptAt: int,
    lockedUntil: Option<int>,
    lockToken: Option<nat>,
    lastErrorCode: Option<string>,
    failedAt: Option<int>)

  type Jobs = map<nat, Job>

  /** The provider payload together with the lease that owns the current attempt. */
  datatype ClaimedEmailJob = ClaimedEmailJob(id: nat, attempts: nat, lockToken: nat, message: EmailMessage)

  function MessageOf(job: Job): EmailMessage {
    EmailMessage(job.toAddress, job.replyTo, job.subject, job.textBody, job.htmlBody, Some(job.key))
  }

  function NewJob(m: EmailMessage, now: int, confirmation: Option<nat>, reset: Option<nat>): Job
    requires m.key.Some?
  {
    Job(confirmation, reset, m.to, m.replyTo, m.subject, m.text, m.html, m.key.value,
        0, now, None, None, None, None)
  }

  /** The unique constraints of the table: one row per key and per linked token. */
  predicate Collides(jobs: Jobs, key: Key, confirmation: Option<nat>, reset: Option<nat>) {
    exists i | i in jobs ::
      || jobs[i].key == key
      || (confirmation.Some? && jobs[i].confirmationTokenId == confirmation)
      || (reset.Some? && jobs[i].resetTokenId == reset)
  }

  // ---- Claiming ----

  predicate Claimable(job: Job, now: int) {
    && job.failedAt.None?
    && job.nextAttemptAt <= now
    && (job.lockedUntil.None? || job.lockedUntil.value <= now)
  }

  function Due(jobs: Jobs, now: int): set<nat> {
    set i | i in jobs && Claimable(jobs[i], now)
  }

  /** ORDER BY next_attempt_at, id. */
  predicate Before(jobs: Jobs, i: nat, k: nat)
    requires i in jobs && k in jobs
  {
    || jobs[i].nextAttemptAt < jobs[k].nextAttemptAt
    || (jobs[i].nextAttemptAt == jobs[k].nextAttemptAt && i < k)
  }

  predicate IsFirst(jobs: Jobs, candidates: set<nat>, i: nat)
    requires candidates <= jobs.Keys
  {
    i in candidates && forall k | k in candidates && k != i :: Before(jobs, i, k)
  }

  lemma {:induction false} FirstExists(jobs: Jobs, candidates: set<nat>)
    requires candidates <= jobs.Keys && candidates != {}
    ensures exists i :: IsFirst(jobs, candidates, i)
  {
    var x :| x in candidates;
    var rest := candidates - {x};
    assert candidates == rest + {x};
    if rest == {} {
      assert IsFirst(jobs, candidates, x);
    } else {
      FirstExists(jobs, rest);
      var y :| IsFirst(jobs, rest, y);
      var first := if Before(jobs, x, y) then x else y;
      assert IsFirst(jobs, candidates, first);
    }
  }

  /** The row that the claiming query selects. */
  ghost function NextDue(jobs: Jobs, now: int): (next: Option<nat>)
    ensures next.None? <==> Due(jobs, now) == {}
    ensures next.Some? ==> IsFirst(jobs, Due(jobs, now), next.value)
  {
    if Due(jobs, now) == {} then None
    else
      FirstExists(jobs, Due(jobs, now));
      var i :| IsFirst(jobs, Due(jobs, now), i);
      Some(i)
  }

  function Leased(job: Job, now: int, lease: int, lock: nat): Job {
    job.(attempts := job.attempts + 1, lockToken := Some(lock), lockedUntil := Some(now + lease))
  }

  function ClaimOf(id: nat, leased: Job, lock: nat): ClaimedEmailJob {
    ClaimedEmailJob(id, leased.attempts, lock, MessageOf(leased))
  }

  // ---- Finishing: every statement is fenced by the lock token ----

  predicate Holds(jobs: Jobs, c: ClaimedEmailJob) {
    c.id in jobs && jobs[c.id].lockToken == Some(c.lockToken)
  }

  function Completed(jobs: Jobs, c: ClaimedEmailJob): Jobs {
    if Holds(jobs, c) then jobs - {c.id} else jobs
  }

  function Rescheduled(jobs: Jobs, c: ClaimedEmailJob, next: int, code: string): Jobs {
    if Holds(jobs, c) then
      jobs[c.id := jobs[c.id].(nextAttemptAt := next, lockedUntil := None, lockToken := None,
                               lastErrorCode := Some(code))]
    else jobs
  }

  function Failed(jobs: Jobs, c: ClaimedEmailJob, at: int, code: string): Jobs {
    if Holds(jobs, c) then
      jobs[c.id := jobs[c.id].(lockedUntil := None, lockToken := None, lastErrorCode := Some(code),
                               failedAt := Some(at), textBody := Blank, htmlBody := Blank)]
    else jobs
  }

  // ---- ON DELETE CASCADE from the two token tables ----

  predicate LinkedTo(job: Job, confirmations: set<nat>, resets: set<nat>) {
    || (job.confirmationTokenId.Some? && job.confirmationTokenId.value in confirmations)
    || (job.resetTokenId.Some? && job.resetTokenId.value in resets)
  }

  function Orphans(jobs: Jobs, confirmations: set<nat>, resets: set<nat>): set<nat> {
    set i | i in jobs && LinkedTo(jobs[i], confirmations, resets)
  }

  function Cascade(jobs: Jobs, confirmations: set<nat>, resets: set<nat>): Jobs {
    jobs - Orphans(jobs, confirmations, resets)
  }

  // ---- Retry policy (app/mailer/outbox.py) ----

  const RETRY_DELAYS: seq<int> := [
    30 * SECOND, 60 * SECOND, 120 * SECOND, 600 * SECOND,
    3600 * SECOND, 7200 * SECOND, 14400 * SECOND]

  const MAX_ATTEMPTS := |RETRY_DELAYS| + 1

  /** The schedule in seconds, number by number: 30 s, 1 min, 2 min, 10 min, 1 h, 2 h, 4 h; then no more. */
  function WaitAfter(attempt: nat): Option<int> {
    match attempt
    case 1 => Some(30 * SECOND)
    case 2 => Some(60 * SECOND)
    case 3 => Some(120 * SECOND)
    case 4 => Some(600 * SECOND)
    case 5 => Some(3600 * SECOND)
    case 6 => Some(7200 * SECOND)
    case 7 => Some(14400 * SECOND)
    case _ => None
  }

  /** A row that the rejection of its claim has settled: failed for good, or waiting for its next attempt. */
  predicate RejectedRow(before: Job, after: Job, attempt: nat, retryable: bool, code: string, at: int) {
    && after.attempts == before.attempts && after.key == before.key && after.toAddress == before.toAddress
    && after.lockToken.None? && after.lockedUntil.None? && after.lastErrorCode == Some(code)
    && (after.failedAt.Some? <==> !retryable || attempt >= 8)
    && (after.failedAt.Some? ==> after.failedAt == Some(at) && after.textBody == after.htmlBody == Blank)
    && (after.failedAt.None? ==>
          && WaitAfter(attempt).Some? && after.nextAttemptAt == at + WaitAfter(attempt).value
          && MessageOf(after) == MessageOf(before))
  }

  datatype Verdict = Sent | Retry(at: int) | GiveUp

  /** `RETRY_DELAYS[attempts - 1]`, where Python reads index -1 as the last entry. */
  function DelayAfter(attempts: nat): int
    requires attempts < MAX_ATTEMPTS
  {
    RETRY_DELAYS[if attempts == 0 then |RETRY_DELAYS| - 1 else attempts - 1]
  }

  /** What a worker decides after a delivery error: the limit is read only here. */
  function Decide(c: ClaimedEmailJob, failedAt: int, retryable: bool): Verdict {
    if retryable && c.attempts < MAX_ATTEMPTS
    then Retry(failedAt + DelayAfter(c.attempts))
    else GiveUp
  }

  function Settled(jobs: Jobs, c: ClaimedEmailJob, v: Verdict, failedAt: int, code: string): Jobs {
    match v
    case Sent => Completed(jobs, c)
    case Retry(next) => Rescheduled(jobs, c, next, code)
    case GiveUp => Failed(jobs, c, failedAt, code)
  }

  /** The least total wait before the claim that follows `k` reschedules. */
  function TotalDelay(k: nat): int
    requires k <= |RETRY_DELAYS|
  {
    if k == 0 then 0 else TotalDelay(k - 1) + RETRY_DELAYS[k - 1]
  }
}
