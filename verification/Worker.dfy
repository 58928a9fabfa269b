/** app/mailer/outbox.py: one pass of the delivery worker, its loop, and why the loop drains the queue. */
module Worker {
  import opened Prelude
  import opened JobTable
  import opened Tables
  import MailerRepository
  import Protocol = OutboxProtocol
  import OutboxTheorems

  /**
   * How the provider call ended. Any other exception leaves the claim to its lease, and so does
   * the cancellation at shutdown, which also ends the loop.
   */
  datatype SendOutcome =
    | Delivered
    | DeliveryError(retryable: bool, code: string)
    | UnexpectedError
    | Cancelled

  datatype Processed = NothingDue | Handled | Raised | Stopped

  /** What the environment decides about one pass. */
  datatype Pass = Pass(claimedAt: int, lease: int, lock: nat, outcome: SendOutcome, failedAt: int)

  datatype Passed = Passed(jobs: Jobs, result: Processed)

  /** One pass without interference by other workers. */
  ghost function Process(jobs: Jobs, p: Pass): Passed {
    match NextDue(jobs, p.claimedAt)
    case None => Passed(jobs, NothingDue)
    case Some(j) =>
      var row := Leased(jobs[j], p.claimedAt, p.lease, p.lock);
      var mid := jobs[j := row];
      var c := ClaimOf(j, row, p.lock);
      match p.outcome
      case Delivered => Passed(Settled(mid, c, Sent, p.failedAt, ""), Handled)
      case DeliveryError(retryable, code) =>
        Passed(Settled(mid, c, Decide(c, p.failedAt, retryable), p.failedAt, code), Handled)
      case UnexpectedError => Passed(mid, Raised)
      case Cancelled => Passed(mid, Stopped)
  }

  /**
   * What a pass does to the first due job j: a delivery removes it, a rejection fails it for good iff the
   * error is permanent or this was the eighth attempt, and anything else leaves it leased.
   */
  predicate Outcome(before: Jobs, after: Jobs, j: nat, p: Pass) {
    && j in before && (forall i | i in before && i != j :: i in after && after[i] == before[i])
    && after.Keys <= before.Keys
    && match p.outcome
       case Delivered => j !in after
       case DeliveryError(retryable, code) =>
         j in after && after[j].attempts == before[j].attempts + 1
         && RejectedRow(before[j].(attempts := before[j].attempts + 1), after[j],
                        before[j].attempts + 1, retryable, code, p.failedAt)
       case _ =>
         j in after && after[j] == before[j].(attempts := before[j].attempts + 1, lockToken := Some(p.lock),
                                              lockedUntil := Some(p.claimedAt + p.lease))
  }

  /** The answer of a pass, and whether the loop sleeps after it. */
  predicate Answer(r: Processed, found: bool, o: SendOutcome) {
    && (r.NothingDue? <==> !found)
    && (r.Raised? <==> found && o.UnexpectedError?)
    && (r.Stopped? <==> found && o.Cancelled?)
  }

  lemma PassOutcome(jobs: Jobs, p: Pass)
    ensures Answer(Process(jobs, p).result, NextDue(jobs, p.claimedAt).Some?, p.outcome)
    ensures NextDue(jobs, p.claimedAt).Some? ==>
              Outcome(jobs, Process(jobs, p).jobs, NextDue(jobs, p.claimedAt).value, p)
    ensures NextDue(jobs, p.claimedAt).None? ==> Process(jobs, p).jobs == jobs
  {
    if NextDue(jobs, p.claimedAt).Some? {
      assert NextDue(jobs, p.claimedAt).value in Due(jobs, p.claimedAt);
    }
  }

  method ProcessNextEmail(db: Database, p: Pass) returns (r: Processed)
    modifies db`jobs
    ensures Passed(db.jobs, r) == Process(old(db.jobs), p)
    ensures Answer(r, NextDue(old(db.jobs), p.claimedAt).Some?, p.outcome)
    ensures !r.NothingDue? ==> Outcome(old(db.jobs), db.jobs, NextDue(old(db.jobs), p.claimedAt).value, p)
    ensures r.NothingDue? ==> db.jobs == old(db.jobs)
  {
    PassOutcome(db.jobs, p);
    var claimed := MailerRepository.ClaimNext(db, p.claimedAt, p.lease, p.lock);
    if claimed.None? {
      return NothingDue;
    }
    var c := claimed.value;
    match p.outcome
    case UnexpectedError => r := Raised;
    case Cancelled => r := Stopped;
    case DeliveryError(retryable, code) =>
      var shouldRetry := retryable && c.attempts < MAX_ATTEMPTS;
      if shouldRetry {
        var delay := RETRY_DELAYS[if c.attempts == 0 then |RETRY_DELAYS| - 1 else c.attempts - 1];
        var updated := MailerRepository.RetryLater(db, c, p.failedAt + delay, code);
      } else {
        var updated := MailerRepository.Fail(db, c, p.failedAt, code);
      }
      r := Handled;
    case Delivered =>
      var deleted := MailerRepository.Complete(db, c);
      r := Handled;
  }

  /** A pass is a run of the concurrent protocol: claim, hand over, learn the outcome, finish. */
  lemma PassIsProtocolRun(s: Protocol.State, p: Pass, posts: nat) returns (run: seq<Protocol.Action>)
    requires Protocol.Enabled(s, Protocol.ClaimNext(p.claimedAt, p.lease, p.lock))
    requires s.clock <= p.failedAt && posts <= Protocol.POSTS_PER_SEND
    ensures Protocol.Legal(s, run)
    ensures Protocol.Exec(s, run).jobs == Process(s.jobs, p).jobs
    ensures var locks := Protocol.Exec(s, run).flights.Keys;
            Process(s.jobs, p).result.NothingDue? <==> locks == s.flights.Keys
  {
    run := [];
    run := Then(s, run, Protocol.ClaimNext(p.claimedAt, p.lease, p.lock));
    if NextDue(s.jobs, p.claimedAt).Some? {
      assert NextDue(s.jobs, p.claimedAt).value in Due(s.jobs, p.claimedAt);
      run := Then(s, run, Protocol.Hand(p.lock, posts));
      match p.outcome {
        case UnexpectedError => run := Then(s, run, Protocol.Crash(p.lock));
        case Cancelled => run := Then(s, run, Protocol.Crash(p.lock));
        case Delivered =>
          run := Then(s, run, Protocol.Deliver(p.lock));
          run := Then(s, run, Protocol.Finish(p.lock));
        case DeliveryError(retryable, code) =>
          run := Then(s, run, Protocol.Tick(p.failedAt));
          run := Then(s, run, Protocol.Reject(p.lock, retryable, code));
          run := Then(s, run, Protocol.Finish(p.lock));
      }
    }
  }

  lemma Then(s: Protocol.State, before: seq<Protocol.Action>, a: Protocol.Action) returns (run: seq<Protocol.Action>)
    requires Protocol.Legal(s, before) && Protocol.Enabled(Protocol.Exec(s, before), a)
    ensures Protocol.Legal(s, run) && Protocol.Exec(s, run) == Protocol.Next(Protocol.Exec(s, before), a)
  {
    OutboxTheorems.Extend(s, before, a);
    run := before + [a];
  }

  /** The table after some passes, one after the other. */
  ghost function After(jobs: Jobs, passes: seq<Pass>): Jobs
    decreases |passes|
  {
    if passes == [] then jobs
    else Process(After(jobs, passes[..|passes| - 1]), passes[|passes| - 1]).jobs
  }

  ghost function ResultOf(jobs: Jobs, passes: seq<Pass>, k: nat): Processed
    requires k < |passes|
  {
    Process(After(jobs, passes[..k]), passes[k]).result
  }

  /** The passes after which the worker sleeps: those that found nothing or raised. */
  ghost function Sleeps(jobs: Jobs, passes: seq<Pass>): nat
    decreases |passes|
  {
    if passes == [] then 0
    else
      var n := |passes| - 1;
      assert passes[..n] == passes[..n][..n];
      Sleeps(jobs, passes[..n]) + (if ResultOf(jobs, passes, n) in {NothingDue, Raised} then 1 else 0)
  }

  /** The worker loop up to its cancellation, or over any finite stretch of it. */
  method RunEmailWorker(db: Database, passes: seq<Pass>) returns (ran: nat, sleeps: nat)
    modifies db`jobs
    ensures ran <= |passes|
    ensures db.jobs == After(old(db.jobs), passes[..ran])
    ensures sleeps == Sleeps(old(db.jobs), passes[..ran])
    ensures ran == |passes| || (ran > 0 && ResultOf(old(db.jobs), passes, ran - 1).Stopped?)
    ensures forall k | 0 <= k < ran - 1 :: !ResultOf(old(db.jobs), passes, k).Stopped?
  {
    sleeps, ran := 0, 0;
    while ran < |passes|
      invariant 0 <= ran <= |passes|
      invariant db.jobs == After(old(db.jobs), passes[..ran])
      invariant sleeps == Sleeps(old(db.jobs), passes[..ran])
      invariant forall k | 0 <= k < ran :: !ResultOf(old(db.jobs), passes, k).Stopped?
    {
      assert passes[..ran + 1][..ran] == passes[..ran];
      var result := ProcessNextEmail(db, passes[ran]);
      assert result == ResultOf(old(db.jobs), passes, ran);
      ran := ran + 1;
      if result.Stopped? {
        return;
      }
      var processed := result.Handled?;
      if !processed {
        sleeps := sleeps + 1;
      }
    }
  }

  // ---- Draining ----

  /** A pass at a frozen clock with a positive lease. */
  predicate Frozen(p: Pass, now: int) {
    p.claimedAt == now == p.failedAt && p.lease > 0
  }

  /** Whatever becomes of the send, the claimed job is the one that stops being due. */
  lemma PassRemovesOne(jobs: Jobs, p: Pass, now: int)
    requires Frozen(p, now)
    ensures Process(jobs, p).result.NothingDue? <==> Due(jobs, now) == {}
    ensures Due(jobs, now) != {} ==>
              Due(Process(jobs, p).jobs, now) == Due(jobs, now) - {NextDue(jobs, now).value}
    ensures Due(jobs, now) == {} ==> Process(jobs, p).jobs == jobs
  {
  }

  lemma {:induction false} DueAfter(jobs: Jobs, passes: seq<Pass>, now: int)
    requires forall p | p in passes :: Frozen(p, now)
    ensures var due := |Due(jobs, now)|;
            |Due(After(jobs, passes), now)| == if |passes| <= due then due - |passes| else 0
    decreases |passes|
  {
    if passes != [] {
      var n := |passes| - 1;
      DueAfter(jobs, passes[..n], now);
      PassRemovesOne(After(jobs, passes[..n]), passes[n], now);
    }
  }

  /** Exactly as many passes claim as jobs were due, then every further pass finds nothing. */
  lemma Drains(jobs: Jobs, passes: seq<Pass>, now: int, k: nat)
    requires k < |passes| && forall p | p in passes :: Frozen(p, now)
    ensures ResultOf(jobs, passes, k).NothingDue? <==> |Due(jobs, now)| <= k
  {
    DueAfter(jobs, passes[..k], now);
    PassRemovesOne(After(jobs, passes[..k]), passes[k], now);
  }
}
