/** app/mailer/repository.py: the statements on the outbox table, run against the store. */
module MailerRepository {
  import opened Prelude
  import opened Mail
  import opened JobTable
  import opened Tables

  datatype EnqueueResult = Queued(id: nat) | MissingKey | IntegrityError

  /** A foreign key of the new row would point nowhere. */
  predicate Dangling(db: Db, confirmation: Option<nat>, reset: Option<nat>) {
    || (confirmation.Some? && confirmation.value !in db.confirmations)
    || (reset.Some? && reset.value !in db.resets)
  }

  method Enqueue(db: Database, message: EmailMessage, now: int,
                 confirmation: Option<nat>, reset: Option<nat>)
    returns (r: EnqueueResult)
    modifies db`jobs, db`nextJobId
    ensures r.MissingKey? <==> message.key.None?
    ensures r.IntegrityError? <==> message.key.Some? && (Dangling(old(db.Contents()), confirmation, reset)
                                   || Collides(old(db.jobs), message.key.value, confirmation, reset))
    ensures r.Queued? ==>
              && r.id == old(db.nextJobId) && db.nextJobId == r.id + 1
              && db.jobs == old(db.jobs)[r.id := NewJob(message, now, confirmation, reset)]
    ensures r.Queued? ==>
              message.key.Some? && db.jobs[r.id] == Job(
                confirmation, reset, message.to, message.replyTo, message.subject, message.text, message.html,
                message.key.value, 0, now, None, None, None, None)
    ensures r.Queued? <==>
              && message.key.Some?
              && (confirmation.Some? ==> confirmation.value in old(db.confirmations))
              && (reset.Some? ==> reset.value in old(db.resets))
              && forall i | i in old(db.jobs) ::
                   && old(db.jobs)[i].key != message.key.value
                   && (confirmation.Some? ==> old(db.jobs)[i].confirmationTokenId != confirmation)
                   && (reset.Some? ==> old(db.jobs)[i].resetTokenId != reset)
    ensures !r.Queued? ==> db.jobs == old(db.jobs) && db.nextJobId == old(db.nextJobId)
  {
    if message.key.None? {
      return MissingKey;
    }
    if Dangling(db.Contents(), confirmation, reset)
       || Collides(db.jobs, message.key.value, confirmation, reset) {
      return IntegrityError;
    }
    var id := db.nextJobId;
    db.jobs := db.jobs[id := NewJob(message, now, confirmation, reset)];
    db.nextJobId := id + 1;
    r := Queued(id);
  }

  /** Neither failed, nor waiting for its time, nor under a lease that is still running. */
  predicate Ready(job: Job, now: int) {
    job.failedAt == None && job.nextAttemptAt <= now && !(job.lockedUntil.Some? && job.lockedUntil.value > now)
  }

  predicate NoSooner(jobs: Jobs, i: nat, k: nat)
    requires i in jobs && k in jobs
  {
    jobs[i].nextAttemptAt < jobs[k].nextAttemptAt || (jobs[i].nextAttemptAt == jobs[k].nextAttemptAt && i <= k)
  }

  /** Lease the first due job to a new lock token. */
  method ClaimNext(db: Database, now: int, lease: int, lock: nat) returns (r: Option<ClaimedEmailJob>)
    modifies db`jobs
    ensures r.None? <==> Due(old(db.jobs), now) == {}
    ensures r.None? <==> forall i | i in old(db.jobs) :: !Ready(old(db.jobs)[i], now)
    ensures r.None? ==> db.jobs == old(db.jobs)
    ensures r.Some? ==>
              && r.value.id in old(db.jobs) && Ready(old(db.jobs)[r.value.id], now)
              && forall i | i in old(db.jobs) && Ready(old(db.jobs)[i], now) :: NoSooner(old(db.jobs), r.value.id, i)
    ensures r.Some? ==>
              var j := r.value.id;
              && IsFirst(old(db.jobs), Due(old(db.jobs), now), j)
              && NextDue(old(db.jobs), now) == Some(j)
              && r.value == ClaimOf(j, Leased(old(db.jobs)[j], now, lease, lock), lock)
              && db.jobs == old(db.jobs)[j := Leased(old(db.jobs)[j], now, lease, lock)]
              && Holds(db.jobs, r.value)
  {
    var due := Due(db.jobs, now);
    assert forall i | i in db.jobs :: Ready(db.jobs[i], now) <==> i in due;
    if due == {} {
      return None;
    }
    FirstExists(db.jobs, due);
    var id :| id in due && IsFirst(db.jobs, due, id);
    var job := db.jobs[id];
    job := job.(attempts := job.attempts + 1);
    job := job.(lockToken := Some(lock));
    job := job.(lockedUntil := Some(now + lease));
    db.jobs := db.jobs[id := job];
    r := Some(ClaimedEmailJob(id, job.attempts, lock,
      EmailMessage(job.toAddress, job.replyTo, job.subject, job.textBody, job.htmlBody, Some(job.key))));
  }

  method Complete(db: Database, claimed: ClaimedEmailJob) returns (deleted: bool)
    modifies db`jobs
    ensures deleted <==> Holds(old(db.jobs), claimed)
    ensures db.jobs == Completed(old(db.jobs), claimed)
    ensures claimed.id in db.jobs ==> !deleted && db.jobs[claimed.id] == old(db.jobs)[claimed.id]
  {
    deleted := claimed.id in db.jobs && db.jobs[claimed.id].lockToken == Some(claimed.lockToken);
    if deleted {
      db.jobs := map i | i in db.jobs && i != claimed.id :: db.jobs[i];
    }
  }

  method RetryLater(db: Database, claimed: ClaimedEmailJob, next: int, code: string) returns (updated: bool)
    modifies db`jobs
    ensures updated <==> Holds(old(db.jobs), claimed)
    ensures db.jobs == Rescheduled(old(db.jobs), claimed, next, code)
    ensures !Holds(db.jobs, claimed)
  {
    updated := claimed.id in db.jobs && db.jobs[claimed.id].lockToken == Some(claimed.lockToken);
    if updated {
      var job := db.jobs[claimed.id];
      db.jobs := db.jobs[claimed.id := job.(nextAttemptAt := next, lockedUntil := None, lockToken := None,
                                            lastErrorCode := Some(code))];
    }
  }

  method Fail(db: Database, claimed: ClaimedEmailJob, at: int, code: string) returns (updated: bool)
    modifies db`jobs
    ensures updated <==> Holds(old(db.jobs), claimed)
    ensures db.jobs == Failed(old(db.jobs), claimed, at, code)
    ensures updated ==> db.jobs[claimed.id].textBody == db.jobs[claimed.id].htmlBody == Blank
    ensures !Holds(db.jobs, claimed)
  {
    updated := claimed.id in db.jobs && db.jobs[claimed.id].lockToken == Some(claimed.lockToken);
    if updated {
      var job := db.jobs[claimed.id];
      job := job.(lockedUntil := None, lockToken := None, lastErrorCode := Some(code), failedAt := Some(at));
      job := job.(textBody := Blank, htmlBody := Blank);
      db.jobs := db.jobs[claimed.id := job];
    }
  }
}
