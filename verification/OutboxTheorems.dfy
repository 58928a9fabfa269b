/** What the outbox promises over every interleaved run. */
module OutboxTheorems {
  import opened Prelude
  import opened Mail
  import opened JobTable
  import opened OutboxProtocol
  import opened OutboxInvariant

  ghost predicate Reachable(s: State) {
    exists clock, run :: Legal(Start(clock), run) && s == Exec(Start(clock), run)
  }

  lemma ReachableInv(s: State)
    requires Reachable(s)
    ensures Inv(s)
  {
    var clock, run :| Legal(Start(clock), run) && s == Exec(Start(clock), run);
    StartInv(clock);
    RunKeeps(Start(clock), run);
  }

  // ---- One key, one message ----

  lemma {:induction false} HandedIsRecorded(log: seq<Event>, k: nat)
    requires k < |log| && log[k].Handed?
    ensures log[k].message in Life(log, log[k].job).messages
  {
    if k < |log| - 1 {
      HandedIsRecorded(log[..|log| - 1], k);
    }
  }

  /** Everything sent under one key is the one message that was queued under it. */
  lemma SameKeySameMessage(s: State, a: nat, b: nat)
    requires Reachable(s)
    requires a < |s.log| && s.log[a].Handed? && b < |s.log| && s.log[b].Handed?
    requires s.log[a].message.key == s.log[b].message.key
    ensures s.log[a].message == s.log[b].message && s.log[a].job == s.log[b].job
    ensures exists q :: 0 <= q < |s.log| && s.log[q].Enqueued? && s.log[q].job == s.log[a].job
                        && s.log[q].message == s.log[a].message
  {
    ReachableInv(s);
    HandedIsRecorded(s.log, a);
    HandedIsRecorded(s.log, b);
    assert JobOk(s, s.log[a].job) && JobOk(s, s.log[b].job);
    QueuedMessage(s.log, s.log[a].job);
  }

  /** A row that failed is never taken again, so its erased bodies are never sent. */
  lemma ErasedRowsStay(s: State, a: Action, j: nat)
    requires Reachable(s) && Enabled(s, a)
    requires j in s.jobs && s.jobs[j].failedAt.Some?
    ensures j in Next(s, a).jobs ==> Next(s, a).jobs[j] == s.jobs[j]
  {
    ReachableInv(s);
    assert JobOk(s, j);
    if a.ClaimNext? {
      assert j !in Due(s.jobs, a.sample);
    } else if a.Enqueue? {
      assert j < s.nextJobId;
    }
  }

  // ---- Fencing ----

  /** A claim that no longer holds its row. */
  ghost predicate Stale(s: State, lock: nat) {
    lock in s.flights && !Holds(s.jobs, s.flights[lock].claim)
  }

  lemma OneHolder(s: State, l1: nat, l2: nat)
    requires Reachable(s) && l1 in s.flights && l2 in s.flights && l1 != l2
    requires s.flights[l1].claim.id == s.flights[l2].claim.id
    ensures Stale(s, l1) || Stale(s, l2)
  {
    ReachableInv(s);
    assert FlightOk(s, l1) && FlightOk(s, l2);
  }

  /** A finish takes effect exactly for the holder of the row. */
  lemma FinishIsFenced(s: State, lock: nat)
    requires Reachable(s) && Enabled(s, Finish(lock))
    ensures var t := Next(s, Finish(lock));
            var e := t.log[|s.log|];
            && e.Finished? && (e.updated <==> !Stale(s, lock))
            && (Stale(s, lock) ==> t.jobs == s.jobs)
            && (!Stale(s, lock) ==> t.jobs != s.jobs && Stale(t, lock))
  {
  }

  lemma StaleStep(s: State, a: Action, lock: nat)
    requires Inv(s) && Enabled(s, a) && Stale(s, lock)
    ensures Stale(Next(s, a), lock)
  {
  }

  /** Once a claim lost its row, it never changes the table again, whatever happens. */
  lemma {:induction false} StaleForever(s: State, run: seq<Action>, lock: nat)
    requires Inv(s) && Legal(s, run) && Stale(s, lock)
    ensures Stale(Exec(s, run), lock)
    decreases |run|
  {
    if run != [] {
      StaleStep(s, run[0], lock);
      Keeps(s, run[0]);
      StaleForever(Next(s, run[0]), run[1..], lock);
    }
  }

  /** A second claim of a job waits for the end of the first lease, and makes the first claim stale. */
  lemma TakeoverWaitsForLease(s: State, a: Action, j: nat)
    requires Reachable(s) && a.ClaimNext? && Enabled(s, a) && NextDue(s.jobs, a.sample) == Some(j)
    requires s.jobs[j].lockToken.Some?
    ensures var lock := s.jobs[j].lockToken.value;
            && lock in s.flights
            && a.sample >= s.flights[lock].at + s.flights[lock].lease
            && Stale(Next(s, a), lock)
  {
    ReachableInv(s);
    assert j in Due(s.jobs, a.sample);
    assert JobOk(s, j) && FlightOk(s, s.jobs[j].lockToken.value);
  }

  // ---- Nothing is lost ----

  /** A row leaves the table only with its token, or after the provider accepted its message. */
  lemma RowVanishes(s: State, a: Action, j: nat)
    requires Reachable(s) && Enabled(s, a) && j in s.jobs && j !in Next(s, a).jobs
    ensures a.DeleteTokens? || a.Finish?
    ensures a.DeleteTokens? ==> LinkedTo(s.jobs[j], a.confirmations, a.resets)
    ensures a.Finish? ==>
              && s.flights[a.lock].stage.Delivered? && s.flights[a.lock].claim.id == j
              && a.lock in Life(s.log, j).accepted && a.lock in Life(s.log, j).handed
              && Life(s.log, j).messages == {MessageOf(s.jobs[j])}
  {
    ReachableInv(s);
    assert JobOk(s, j);
    if a.Finish? {
      assert FlightOk(s, a.lock);
    }
  }

  /** Every job ever queued is still there, was accepted, or went with its token. */
  lemma NoJobIsLost(s: State, k: nat)
    requires Reachable(s) && k < |s.log| && s.log[k].Enqueued?
    ensures var j := s.log[k].job;
            var h := Life(s.log, j);
            || j in s.jobs
            || (h.completedBy.Some? && h.completedBy.value in h.accepted && h.messages == {s.log[k].message})
            || h.cascaded
  {
    ReachableInv(s);
    EnqueuedIsRecorded(s, k);
    assert JobOk(s, s.log[k].job);
  }

  lemma {:induction false} EnqueuedLife(log: seq<Event>, k: nat)
    requires k < |log| && log[k].Enqueued?
    ensures Life(log, log[k].job).message.Some?
  {
    if k < |log| - 1 {
      EnqueuedLife(log[..|log| - 1], k);
    }
  }

  /** Job ids are queued once, so the life of a job keeps its first message. */
  lemma EnqueuedIsRecorded(s: State, k: nat)
    requires Reachable(s) && k < |s.log| && s.log[k].Enqueued?
    ensures s.log[k].job < s.nextJobId
    ensures Life(s.log, s.log[k].job).message == Some(s.log[k].message)
    ensures Life(s.log, s.log[k].job).enqueuedAt == s.log[k].at
  {
    var clock, run :| Legal(Start(clock), run) && s == Exec(Start(clock), run);
    StartInv(clock);
    QueueTimes(Start(clock), run);
  }

  ghost predicate Faithful(s: State) {
    forall k | 0 <= k < |s.log| && s.log[k].Enqueued? ::
      && s.log[k].job < s.nextJobId
      && Life(s.log, s.log[k].job).message == Some(s.log[k].message)
      && Life(s.log, s.log[k].job).enqueuedAt == s.log[k].at
  }

  lemma FaithfulStep(s: State, a: Action)
    requires Inv(s) && Enabled(s, a) && Faithful(s)
    ensures Faithful(Next(s, a))
  {
    hide Life, LifeOk, RowOk, FlightOk, KeysDistinct, FinishJobs, VerdictOf;
    assert JobOk(s, s.nextJobId);
    var t := Next(s, a);
    if t.log != s.log {
      var e := t.log[|s.log|];
      assert t.log == s.log + [e];
      forall k | 0 <= k < |t.log| && t.log[k].Enqueued?
        ensures && t.log[k].job < t.nextJobId
                && Life(t.log, t.log[k].job).message == Some(t.log[k].message)
                && Life(t.log, t.log[k].job).enqueuedAt == t.log[k].at
      {
        LifeGrows(s.log, e, t.log[k].job);
        if k < |s.log| { assert t.log[k] == s.log[k]; }
      }
    }
  }

  lemma {:induction false} QueueTimes(s: State, run: seq<Action>)
    requires Inv(s) && Faithful(s) && Legal(s, run)
    ensures Faithful(Exec(s, run))
    decreases |run|
  {
    if run != [] {
      FaithfulStep(s, run[0]);
      Keeps(s, run[0]);
      QueueTimes(Next(s, run[0]), run[1..]);
    }
  }

  // ---- Attempts ----

  /**
   * Claims, reschedules, sends and posts of any job. Only the lost claims from the eighth on
   * add to the eight attempts, one each; earlier ones use up the budget.
   */
  lemma AttemptAccounting(s: State, j: nat)
    requires Reachable(s)
    ensures var h := Life(s.log, j);
            && (j in s.jobs ==> s.jobs[j].attempts == |h.claimTimes|)
            && h.reschedules <= |RETRY_DELAYS|
            && |h.claimTimes| == Least(|h.claimTimes|, MAX_ATTEMPTS) + h.late && h.late <= h.lost
            && h.sends <= |h.claimTimes|
            && h.posts <= 24 + POSTS_PER_SEND * h.late
  {
    ReachableInv(s);
    assert JobOk(s, j);
    var h := Life(s.log, j);
    SubsetSize(h.handed, h.locks);
  }

  /** A claim takes a job past the limit exactly by taking over a lease once the limit is reached. */
  lemma PastLimitStep(s: State, a: Action, j: nat)
    requires Reachable(s) && a.ClaimNext? && Enabled(s, a) && NextDue(s.jobs, a.sample) == Some(j)
    ensures Next(s, a).jobs[j].attempts > MAX_ATTEMPTS <==>
              s.jobs[j].lockToken.Some? && s.jobs[j].attempts >= MAX_ATTEMPTS
  {
    ReachableInv(s);
    assert j in Due(s.jobs, a.sample) && JobOk(s, j);
  }

  /** The event by which a job was claimed for the ninth time, from a worker that lost the eighth lease. */
  ghost predicate TakesOverEighth(log: seq<Event>, j: nat, k: nat) {
    k < |log| && log[k].Claimed? && log[k].job == j && log[k].lost
    && |Life(log[..k], j).claimTimes| == MAX_ATTEMPTS
  }

  lemma {:induction false} EighthTakenOver(log: seq<Event>, j: nat)
    ensures |Life(log, j).claimTimes| - MAX_ATTEMPTS >= Life(log, j).late || Life(log, j).late == 0
    ensures |Life(log, j).claimTimes| - MAX_ATTEMPTS == Life(log, j).late > 0 ==>
              exists k: nat :: TakesOverEighth(log, j, k)
    ensures (exists k: nat :: TakesOverEighth(log, j, k)) ==> |Life(log, j).claimTimes| > MAX_ATTEMPTS
  {
    if log != [] {
      var n := |log| - 1;
      var before := log[..n];
      EighthTakenOver(before, j);
      if k: nat :| TakesOverEighth(log, j, k) {
        if k < n {
          assert before[..k] == log[..k];
          assert TakesOverEighth(before, j, k);
        }
      }
      if |Life(log, j).claimTimes| - MAX_ATTEMPTS == Life(log, j).late > 0 {
        if |Life(before, j).claimTimes| <= MAX_ATTEMPTS {
          assert TakesOverEighth(log, j, n);
        } else {
          var k: nat :| TakesOverEighth(before, j, k);
          assert before[..k] == log[..k];
          assert TakesOverEighth(log, j, k);
        }
      }
    }
  }

  /** Over a run: a job is claimed more than eight times iff the lease of its eighth claim was taken over. */
  lemma PastLimitIff(s: State, j: nat)
    requires Reachable(s)
    ensures |Life(s.log, j).claimTimes| > MAX_ATTEMPTS <==> exists k: nat :: TakesOverEighth(s.log, j, k)
  {
    ReachableInv(s);
    assert JobOk(s, j);
    EighthTakenOver(s.log, j);
  }

  /**
   * The finish of a rejected send by the holder of the row: the job fails for good exactly if the error
   * was permanent or the claim was the eighth or a later one; else it waits by the schedule.
   */
  lemma RejectionSettles(s: State, lock: nat)
    requires Reachable(s) && Enabled(s, Finish(lock)) && s.flights[lock].stage.Rejected? && !Stale(s, lock)
    ensures var f, t := s.flights[lock], Next(s, Finish(lock));
            && f.claim.id in s.jobs && t.jobs.Keys == s.jobs.Keys
            && (forall i | i in s.jobs && i != f.claim.id :: t.jobs[i] == s.jobs[i])
            && RejectedRow(s.jobs[f.claim.id], t.jobs[f.claim.id], f.claim.attempts, f.stage.retryable, f.stage.code,
                           f.stage.failedAt)
  {
    hide Life, LifeOk, KeysDistinct;
    ReachableInv(s);
    assert FlightOk(s, lock) && JobOk(s, s.flights[lock].claim.id);
  }

  /** The delay table is only read at an index it has. */
  lemma DelayIndexInRange(s: State, lock: nat)
    requires Reachable(s) && Enabled(s, Finish(lock)) && VerdictOf(s.flights[lock]).Retry?
    ensures 0 <= s.flights[lock].claim.attempts - 1 < |RETRY_DELAYS|
    ensures VerdictOf(s.flights[lock]).at
            == s.flights[lock].stage.failedAt + RETRY_DELAYS[s.flights[lock].claim.attempts - 1]
  {
    ReachableInv(s);
    assert FlightOk(s, lock);
  }

  lemma {:induction false} Extend(s: State, run: seq<Action>, a: Action)
    requires Legal(s, run) && Enabled(Exec(s, run), a)
    ensures Legal(s, run + [a]) && Exec(s, run + [a]) == Next(Exec(s, run), a)
    decreases |run|
  {
    if run == [] {
      assert run + [a] == [a];
      assert Legal(Next(s, a), []);
    } else {
      Extend(Next(s, run[0]), run[1..], a);
      assert (run + [a])[1..] == run[1..] + [a];
    }
  }

  lemma StepReachable(s: State, a: Action)
    requires Reachable(s) && Enabled(s, a)
    ensures Reachable(Next(s, a))
  {
    var clock, run :| Legal(Start(clock), run) && s == Exec(Start(clock), run);
    Extend(Start(clock), run, a);
  }

  const DEFAULT_LEASE := 120 * SECOND

  /** One job, claimed n times, whose last lease has ended. */
  ghost predicate Expired(s: State, n: nat) {
    && Reachable(s) && s.jobs.Keys == {0} && s.jobs[0].attempts == n
    && (forall lock | lock in s.flights :: lock < n)
    && Claimable(s.jobs[0], s.clock) && s.jobs[0].nextAttemptAt <= s.clock
    && (n > 0 ==> s.jobs[0].lockToken.Some?)
    && Life(s.log, 0).lost + 1 >= n
  }

  lemma ExpireAgain(s: State, n: nat) returns (t: State)
    requires Expired(s, n)
    ensures Expired(t, n + 1)
  {
    var claim := ClaimNext(s.clock, DEFAULT_LEASE, n);
    assert 0 in Due(s.jobs, s.clock);
    assert NextDue(s.jobs, s.clock) == Some(0);
    StepReachable(s, claim);
    var mid := Next(s, claim);
    LifeGrows(s.log, mid.log[|s.log|], 0);
    StepReachable(mid, Tick(s.clock + DEFAULT_LEASE));
    t := Next(mid, Tick(s.clock + DEFAULT_LEASE));
  }

  /**
   * MAX_ATTEMPTS is read only after a delivery error, so workers that keep
   * losing their leases claim one job any number of times.
   */
  lemma {:induction false} LostLeasesExceedAnyLimit(n: nat) returns (s: State)
    ensures Reachable(s) && 0 in s.jobs && s.jobs[0].attempts == n && s.jobs[0].failedAt.None?
    ensures Expired(s, n)
  {
    if n == 0 {
      var zero := Start(0);
      assert Legal(zero, []) && zero == Exec(zero, []);
      var m := Report(0);
      StepReachable(zero, Enqueue(m, None, None));
      s := Next(zero, Enqueue(m, None, None));
    } else {
      var before := LostLeasesExceedAnyLimit(n - 1);
      s := ExpireAgain(before, n - 1);
    }
  }

  // ---- Rate ----

  /** With leases of at least the first delay, the claims of a job are that far apart, pair by pair. */
  lemma {:induction false} ClaimsAreSpaced(h: History, i: nat, k: nat)
    requires LifeOk(h) && i <= k < |h.claimTimes|
    requires forall n | 0 <= n < |h.leases| :: h.leases[n] >= RETRY_DELAYS[0]
    ensures h.claimTimes[k] >= h.claimTimes[i] + (k - i) * (30 * SECOND)
    decreases k
  {
    if i < k {
      ClaimsAreSpaced(h, i, k - 1);
      assert h.claimTimes[k] >= h.claimTimes[k - 1] + Least(h.leases[k - 1], RETRY_DELAYS[0]);
    }
  }

  lemma SendRate(s: State, j: nat, i: nat, k: nat)
    requires Reachable(s) && i <= k < |Life(s.log, j).claimTimes|
    ensures var h := Life(s.log, j);
            |h.leases| == |h.claimTimes| &&
            ((forall n | 0 <= n < |h.leases| :: h.leases[n] >= RETRY_DELAYS[0]) ==>
              h.claimTimes[k] >= h.claimTimes[i] + (k - i) * (30 * SECOND))
  {
    ReachableInv(s);
    assert JobOk(s, j);
    var h := Life(s.log, j);
    if forall n | 0 <= n < |h.leases| :: h.leases[n] >= RETRY_DELAYS[0] {
      ClaimsAreSpaced(h, i, k);
    }
  }

  /** Without lost claims the k-th claim comes after the first k-1 delays. */
  lemma BackoffSchedule(s: State, j: nat, k: nat)
    requires Reachable(s) && Life(s.log, j).lost == 0 && k < |Life(s.log, j).claimTimes|
    ensures k <= |RETRY_DELAYS|
    ensures Life(s.log, j).claimTimes[k] >= Life(s.log, j).enqueuedAt + TotalDelay(k)
  {
    ReachableInv(s);
    assert JobOk(s, j);
  }

  lemma EighthClaim()
    ensures TotalDelay(7) == 26010 * SECOND
  {
  }

  // ---- No overtaking ----

  /** Queued before j and still to be delivered, except those claimed since we began to watch. */
  function Ahead(jobs: Jobs, j: nat, taken: set<nat>): set<nat>
    requires j in jobs
  {
    set i | i in jobs && jobs[i].failedAt.None? && Before(jobs, i, j) && i !in taken
  }

  ghost predicate Waiting(s: State, j: nat) {
    && j in s.jobs && s.jobs[j].failedAt.None? && s.jobs[j].lockToken.None?
    && s.jobs[j].nextAttemptAt <= s.clock
  }

  ghost function TakenBy(s: State, a: Action): Option<nat> {
    if a.ClaimNext? then NextDue(s.jobs, a.sample) else None
  }

  ghost predicate LosesLease(s: State, a: Action) {
    TakenBy(s, a).Some? && s.jobs[TakenBy(s, a).value].lockToken.Some?
  }

  /** A job claimed since then is gone, failed, behind j, or locked and about to be one of these. */
  ghost predicate HadItsTurn(s: State, j: nat, i: nat)
    requires j in s.jobs
  {
    i in s.jobs && s.jobs[i].failedAt.None? && Before(s.jobs, i, j) ==>
      && s.jobs[i].lockToken.Some? && s.jobs[i].lockToken.value in s.flights
      && var stage := s.flights[s.jobs[i].lockToken.value].stage;
         (stage.Rejected? ==> stage.failedAt >= s.jobs[j].nextAttemptAt)
  }

  /** What finishing does to the rows: at most the held one changes, and a retry moves it back. */
  lemma FinishMovesBack(s: State, a: Action, i: nat)
    requires Inv(s) && a.Finish? && Enabled(s, a) && i in Next(s, a).jobs
    ensures i in s.jobs
    ensures Next(s, a).jobs[i] == s.jobs[i]
            || (Next(s, a).jobs[i].failedAt.Some? && s.jobs[i].lockToken == Some(a.lock))
            || (s.jobs[i].lockToken == Some(a.lock) && s.flights[a.lock].stage.Rejected?
                && Next(s, a).jobs[i].nextAttemptAt > s.flights[a.lock].stage.failedAt >= s.jobs[i].nextAttemptAt)
  {
    hide Life, LifeOk, KeysDistinct;
    assert FlightOk(s, a.lock) && JobOk(s, i);
  }

  lemma TurnKeptByFinish(s: State, a: Action, j: nat, i: nat)
    requires Inv(s) && a.Finish? && Enabled(s, a) && Waiting(s, j) && i != j && j in Next(s, a).jobs
    requires HadItsTurn(s, j, i)
    ensures Next(s, a).jobs[j] == s.jobs[j]
    ensures HadItsTurn(Next(s, a), j, i)
  {
    FinishMovesBack(s, a, j);
    if i in Next(s, a).jobs {
      FinishMovesBack(s, a, i);
    }
  }

  lemma TurnKeptByClaim(s: State, a: Action, j: nat, i: nat)
    requires Inv(s) && a.ClaimNext? && Enabled(s, a) && Waiting(s, j) && i != j
    requires TakenBy(s, a) != Some(j) && !LosesLease(s, a)
    requires HadItsTurn(s, j, i) || TakenBy(s, a) == Some(i)
    ensures j in Next(s, a).jobs && Next(s, a).jobs[j] == s.jobs[j]
    ensures HadItsTurn(Next(s, a), j, i)
  {
  }

  lemma TurnKept(s: State, a: Action, j: nat, i: nat)
    requires Inv(s) && Enabled(s, a) && Waiting(s, j) && i != j
    requires TakenBy(s, a) != Some(j) && !LosesLease(s, a) && j in Next(s, a).jobs
    requires HadItsTurn(s, j, i) || TakenBy(s, a) == Some(i)
    requires i < s.nextJobId
    ensures Next(s, a).jobs[j] == s.jobs[j]
    ensures HadItsTurn(Next(s, a), j, i)
  {
    assert JobOk(s, j);
    if a.Finish? {
      TurnKeptByFinish(s, a, j, i);
    } else if a.ClaimNext? {
      TurnKeptByClaim(s, a, j, i);
    }
  }

  /** One action: the jobs ahead never grow, and a claim takes one of them or j itself. */
  lemma AheadShrinks(s: State, a: Action, j: nat, taken: set<nat>)
    requires Inv(s) && Enabled(s, a) && Waiting(s, j)
    requires TakenBy(s, a) != Some(j) && !LosesLease(s, a) && j in Next(s, a).jobs
    ensures Waiting(Next(s, a), j) && Next(s, a).jobs[j] == s.jobs[j]
    ensures TakenBy(s, a).Some? ==> TakenBy(s, a).value in Ahead(s.jobs, j, {})
    ensures Ahead(Next(s, a).jobs, j, taken) <= Ahead(s.jobs, j, taken)
  {
    assert JobOk(s, j);
    if a.ClaimNext? {
      ClaimTakesFromAhead(s, a, j);
    } else if a.Finish? {
      FinishMovesBack(s, a, j);
      forall i | i in Ahead(Next(s, a).jobs, j, taken) ensures i in Ahead(s.jobs, j, taken) {
        FinishMovesBack(s, a, i);
      }
    }
  }

  lemma ClaimTakesFromAhead(s: State, a: Action, j: nat)
    requires a.ClaimNext? && Enabled(s, a) && Waiting(s, j) && JobOk(s, j) && TakenBy(s, a) != Some(j)
    ensures TakenBy(s, a).Some? ==> TakenBy(s, a).value in Ahead(s.jobs, j, {})
  {
  }

  /** The jobs that a run claims, in order. */
  ghost function Taken(s: State, run: seq<Action>): seq<nat>
    requires Legal(s, run)
    decreases |run|
  {
    if run == [] then []
    else (if TakenBy(s, run[0]).Some? then [TakenBy(s, run[0]).value] else [])
         + Taken(Next(s, run[0]), run[1..])
  }

  /** Until j is claimed it is not deleted, and no claim takes over a lost lease. */
  ghost predicate Undisturbed(s: State, run: seq<Action>, j: nat)
    requires Legal(s, run)
    decreases |run|
  {
    run == [] || TakenBy(s, run[0]) == Some(j)
    || (!LosesLease(s, run[0]) && j in Next(s, run[0]).jobs && Undisturbed(Next(s, run[0]), run[1..], j))
  }

  lemma {:induction false} Overtaking(s: State, run: seq<Action>, j: nat, taken: set<nat>)
    requires Inv(s) && Legal(s, run) && Waiting(s, j) && Undisturbed(s, run, j)
    requires forall i | i in taken :: i != j && i < s.nextJobId && HadItsTurn(s, j, i)
    ensures j in Taken(s, run) || |Taken(s, run)| <= |Ahead(s.jobs, j, taken)|
    decreases |run|
  {
    if run != [] && TakenBy(s, run[0]) != Some(j) {
      var a := run[0];
      var t := Next(s, a);
      Keeps(s, a);
      AheadShrinks(s, a, j, taken);
      var next := TakenBy(s, a);
      var taken' := if next.Some? then taken + {next.value} else taken;
      forall i | i in taken' ensures i != j && i < t.nextJobId && HadItsTurn(t, j, i) {
        if next == Some(i) { assert JobOk(s, i); }
        TurnKept(s, a, j, i);
      }
      Overtaking(t, run[1..], j, taken');
      var before, after := Ahead(s.jobs, j, taken), Ahead(t.jobs, j, taken');
      if next.Some? {
        NotTakenTwice(s, a, j, taken);
        assert next.value in before && after <= before - {next.value};
        SubsetSize(after, before - {next.value});
      } else {
        SubsetSize(after, before);
      }
    }
  }

  lemma NotTakenTwice(s: State, a: Action, j: nat, taken: set<nat>)
    requires Inv(s) && Enabled(s, a) && Waiting(s, j) && TakenBy(s, a).Some? && !LosesLease(s, a)
    requires TakenBy(s, a).value in s.jobs && Before(s.jobs, TakenBy(s, a).value, j)
    requires s.jobs[TakenBy(s, a).value].failedAt.None?
    requires forall i | i in taken :: HadItsTurn(s, j, i)
    ensures TakenBy(s, a).value !in taken
  {
  }

  /**
   * A due job is claimed within |ahead| + 1 claims, as long as no lease is lost.
   * The jobs ahead include locked ones: one of them may be rescheduled in front of j
   * by a delivery error sampled before j came due, but each has only one turn.
   */
  lemma NoOvertaking(s: State, run: seq<Action>, j: nat)
    requires Reachable(s) && Legal(s, run) && Waiting(s, j) && Undisturbed(s, run, j)
    requires |Taken(s, run)| > |Ahead(s.jobs, j, {})|
    ensures j in Taken(s, run)
  {
    ReachableInv(s);
    Overtaking(s, run, j, {});
  }

  // ---- The unlocked jobs ahead may grow ----

  predicate UnlockedAhead(jobs: Jobs, j: nat, i: nat)
    requires j in jobs
  {
    i in jobs && jobs[i].failedAt.None? && jobs[i].lockToken.None? && Before(jobs, i, j)
  }

  /** The holder of a row reschedules it in front of j. */
  ghost predicate ReschedulesBefore(s: State, a: Action, j: nat)
    requires j in s.jobs && Enabled(s, a)
  {
    a.Finish? && Holds(s.jobs, s.flights[a.lock].claim) && VerdictOf(s.flights[a.lock]).Retry?
    && var id, at := s.flights[a.lock].claim.id, VerdictOf(s.flights[a.lock]).at;
       at < s.jobs[j].nextAttemptAt || (at == s.jobs[j].nextAttemptAt && id < j)
  }

  /** An unlocked job joins those before a waiting job exactly by a retry that is due before it. */
  lemma UnlockedAheadGrowsIff(s: State, a: Action, j: nat)
    requires Reachable(s) && Enabled(s, a) && Waiting(s, j) && TakenBy(s, a) != Some(j) && j in Next(s, a).jobs
    ensures (exists i :: UnlockedAhead(Next(s, a).jobs, j, i) && !UnlockedAhead(s.jobs, j, i))
            <==> ReschedulesBefore(s, a, j)
  {
    ReachableInv(s);
    assert JobOk(s, j);
    if a.Finish? {
      assert FlightOk(s, a.lock);
      if ReschedulesBefore(s, a, j) {
        var f := s.flights[a.lock];
        assert Next(s, a).jobs == Rescheduled(s.jobs, f.claim, VerdictOf(f).at, f.stage.code);
        assert JobOk(s, f.claim.id);
        assert UnlockedAhead(Next(s, a).jobs, j, s.flights[a.lock].claim.id);
      }
    }
  }

  function Report(uuid: nat): EmailMessage { EmailMessage("", None, "", Blank, Blank, Some(ReportKey(uuid))) }

  /** One job, rejected at time zero by a worker that has yet to say so. */
  ghost predicate RejectedAtZero(s: State) {
    && Reachable(s) && s.clock == 0 && s.nextJobId == 1 && NewKey(s.log, ReportKey(1))
    && s.jobs.Keys == {0} && s.jobs[0].lockToken == Some(0) && s.jobs[0].failedAt.None? && s.jobs[0].key == ReportKey(0)
    && s.flights.Keys == {0} && s.flights[0].claim.id == 0 && s.flights[0].claim.lockToken == 0
    && s.flights[0].claim.attempts == 1 && s.flights[0].stage == Rejected(0, true, "")
  }

  lemma RejectAtZero() returns (s: State)
    ensures RejectedAtZero(s)
  {
    s := Start(0);
    assert Legal(s, []) && s == Exec(s, []);
    s := Step(s, Enqueue(Report(0), None, None));
    assert 0 in Due(s.jobs, 0);
    assert NextDue(s.jobs, 0) == Some(0);
    s := Step(s, ClaimNext(0, DEFAULT_LEASE, 0));
    s := Step(s, Hand(0, 1));
    s := Step(s, Reject(0, true, ""));
  }

  /** A run in which that happens: job 0 is rejected before job 1 is queued, and rescheduled afterwards. */
  lemma UnlockedAheadCanGrow() returns (s: State, a: Action)
    ensures Reachable(s) && Enabled(s, a) && Waiting(s, 1) && TakenBy(s, a).None? && 1 in Next(s, a).jobs
    ensures UnlockedAhead(Next(s, a).jobs, 1, 0) && forall i: nat :: !UnlockedAhead(s.jobs, 1, i)
  {
    hide Reachable;
    s := RejectAtZero();
    s := Step(s, Tick(60 * SECOND));
    s := Step(s, Enqueue(Report(1), None, None));
    a := Finish(0);
    var f := s.flights[0];
    assert VerdictOf(f) == Retry(30 * SECOND);
    assert Next(s, a).jobs == Rescheduled(s.jobs, f.claim, 30 * SECOND, "");
  }

  lemma Step(s: State, a: Action) returns (t: State)
    requires Reachable(s) && Enabled(s, a)
    ensures t == Next(s, a) && Reachable(t)
  {
    StepReachable(s, a);
    t := Next(s, a);
  }
}
