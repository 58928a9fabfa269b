/** What every reachable state of the outbox satisfies, and why each action keeps it. */
module OutboxInvariant {
  import opened Prelude
  import opened Mail
  import opened JobTable
  import opened OutboxProtocol

  /** Successive claims are apart by the earlier lease or by the first retry delay. */
  ghost predicate Spaced(h: History)
    requires |h.leases| == |h.claimTimes|
  {
    forall k | 1 <= k < |h.claimTimes| ::
      h.claimTimes[k] >= h.claimTimes[k - 1] + Least(h.leases[k - 1], RETRY_DELAYS[0])
  }

  /** Every claim waits for the delays of all reschedules before it. */
  ghost predicate BacksOff(h: History) {
    forall k | 0 <= k < |h.claimTimes| && k <= |RETRY_DELAYS| ::
      h.claimTimes[k] >= h.enqueuedAt + TotalDelay(k)
  }

  ghost predicate LifeOk(h: History) {
    && |h.leases| == |h.claimTimes| == |h.locks|
    && h.handed <= h.locks && h.sends == |h.handed| && h.posts <= POSTS_PER_SEND * h.sends
    && h.accepted <= h.handed
    && (h.completedBy.Some? ==> h.completedBy.value in h.accepted)
    && h.reschedules <= |RETRY_DELAYS|
    && |h.claimTimes| <= h.reschedules + h.lost + 1
    && |h.claimTimes| == Least(|h.claimTimes|, MAX_ATTEMPTS) + h.late
    && (h.message.None? ==> h == UNBORN)
    && (h.message.Some? ==> h.message.value.key.Some?
                            && h.messages == if h.handed == {} then {} else {h.message.value})
    && Spaced(h)
    && (h.lost == 0 ==> BacksOff(h))
  }

  ghost predicate UnlockedOk(row: Job, h: History)
    requires LifeOk(h)
  {
    && |h.claimTimes| == h.reschedules + h.lost && |h.claimTimes| < MAX_ATTEMPTS
    && (h.claimTimes != [] ==> row.nextAttemptAt >= h.claimTimes[|h.claimTimes| - 1] + RETRY_DELAYS[0])
    && (h.lost == 0 ==> row.nextAttemptAt >= h.enqueuedAt + TotalDelay(h.reschedules))
  }

  /** A locked row belongs to the flight of its newest claim. */
  ghost predicate LockedOk(row: Job, h: History, j: nat, f: Flight)
    requires LifeOk(h)
  {
    && f.claim.id == j && f.claim.attempts == row.attempts && !f.stage.Done?
    && |h.claimTimes| == h.reschedules + h.lost + 1
    && h.claimTimes[|h.claimTimes| - 1] == f.at
    && h.leases[|h.leases| - 1] == f.lease
    && row.lockedUntil == Some(f.at + f.lease)
    && row.nextAttemptAt <= f.at
  }

  ghost predicate RowOk(s: State, j: nat, h: History)
    requires j in s.jobs && LifeOk(h)
  {
    var row := s.jobs[j];
    && h.message.Some? && h.message.value.key == Some(row.key)
    && h.completedBy.None? && !h.cascaded && h.failed == row.failedAt.Some?
    && row.attempts == |h.claimTimes|
    && (row.lockToken.None? <==> row.lockedUntil.None?)
    && (row.failedAt.Some? ==> row.lockToken.None?)
    && (row.failedAt.None? ==> MessageOf(row) == h.message.value)
    && (row.failedAt.None? && row.lockToken.None? ==> UnlockedOk(row, h))
    && (row.lockToken.Some? ==> row.lockToken.value in s.flights
                                && LockedOk(row, h, j, s.flights[row.lockToken.value]))
  }

  ghost predicate JobOk(s: State, j: nat) {
    var h := Life(s.log, j);
    && LifeOk(h)
    && h.locks <= s.flights.Keys
    && (s.nextJobId <= j ==> h == UNBORN && j !in s.jobs)
    && (j in s.jobs ==> RowOk(s, j, h))
    && (j < s.nextJobId && j !in s.jobs ==> h.completedBy.Some? || h.cascaded)
    && (j < s.nextJobId ==> h.message.Some?)
  }

  ghost predicate FlightOk(s: State, lock: nat)
    requires lock in s.flights
  {
    var f := s.flights[lock];
    var h := Life(s.log, f.claim.id);
    && f.claim.lockToken == lock && f.claim.id < s.nextJobId && 1 <= f.claim.attempts
    && h.message == Some(f.claim.message)
    && lock in h.locks
    && (f.stage.Holding? ==> lock !in h.handed)
    && (f.stage.Delivered? ==> lock in h.accepted)
    && (f.stage.Sending? || f.stage.Rejected? ==> lock in h.handed)
    && f.at <= s.clock
    && (f.stage.Rejected? ==> f.at <= f.stage.failedAt <= s.clock)
  }

  ghost predicate KeysDistinct(log: seq<Event>) {
    forall i: nat, k: nat | Life(log, i).message.Some? && Life(log, k).message.Some? && i != k ::
      Life(log, i).message.value.key != Life(log, k).message.value.key
  }

  ghost predicate Inv(s: State) {
    && (forall j: nat :: JobOk(s, j))
    && (forall lock | lock in s.flights :: FlightOk(s, lock))
    && KeysDistinct(s.log)
  }

  lemma StartInv(clock: int)
    ensures Inv(Start(clock))
  {
  }

  /** A queued message is in the log. */
  lemma {:induction false} QueuedMessage(log: seq<Event>, j: nat)
    requires Life(log, j).message.Some?
    ensures exists k :: 0 <= k < |log| && log[k].Enqueued? && log[k].job == j
                        && Life(log, j).message == Some(log[k].message)
  {
    var n := |log| - 1;
    var e := log[n];
    if e.Enqueued? && e.job == j {
      assert log[n] == e;
    } else {
      QueuedMessage(log[..n], j);
      var k :| 0 <= k < n && log[..n][k].Enqueued? && log[..n][k].job == j
               && Life(log[..n], j).message == Some(log[..n][k].message);
      assert log[k] == log[..n][k];
    }
  }

  lemma NewKeyIsUnused(log: seq<Event>, key: Key, j: nat)
    requires NewKey(log, key)
    ensures Life(log, j).message.Some? ==> Life(log, j).message.value.key != Some(key)
  {
  }

  lemma KeepsEnqueue(s: State, a: Action)
    requires Inv(s) && a.Enqueue? && Enabled(s, a)
    ensures Inv(Next(s, a))
  {
    var t := Next(s, a);
    var e := Enqueued(s.nextJobId, a.message, s.clock);
    forall j: nat ensures Life(t.log, j) == Record(Life(s.log, j), j, e) { LifeGrows(s.log, e, j); }
    forall j: nat ensures JobOk(t, j) { assert JobOk(s, j); }
    forall lock | lock in t.flights ensures FlightOk(t, lock) { assert FlightOk(s, lock); }
    forall i: nat, k: nat | Life(t.log, i).message.Some? && Life(t.log, k).message.Some? && i != k
      ensures Life(t.log, i).message.value.key != Life(t.log, k).message.value.key
    {
      NewKeyIsUnused(s.log, a.message.key.value, i);
      NewKeyIsUnused(s.log, a.message.key.value, k);
      assert JobOk(s, i) && JobOk(s, k);
    }
  }

  lemma KeepsDeleteTokens(s: State, a: Action)
    requires Inv(s) && a.DeleteTokens? && Enabled(s, a)
    ensures Inv(Next(s, a))
  {
    hide LifeOk, RowOk, Orphans;
    var t := Next(s, a);
    var e := Cascaded(Orphans(s.jobs, a.confirmations, a.resets));
    forall j: nat ensures Life(t.log, j) == Record(Life(s.log, j), j, e) { LifeGrows(s.log, e, j); }
    forall j: nat ensures JobOk(t, j) {
      assert JobOk(s, j);
      DeletionKeepsJob(s, a, j);
    }
    forall lock | lock in t.flights ensures FlightOk(t, lock) { assert FlightOk(s, lock); }
  }

  lemma DeletionKeepsJob(s: State, a: Action, j: nat)
    requires JobOk(s, j) && a.DeleteTokens? && Enabled(s, a)
    ensures JobOk(Next(s, a), j)
  {
    hide Life;
    LifeGrows(s.log, Cascaded(Orphans(s.jobs, a.confirmations, a.resets)), j);
  }

  /** A job that an action does not concern stays as it was. */
  lemma Unconcerned(s: State, t: State, j: nat)
    requires JobOk(s, j) && Life(t.log, j) == Life(s.log, j)
    requires s.flights.Keys <= t.flights.Keys && t.nextJobId == s.nextJobId
    requires j in t.jobs <==> j in s.jobs
    requires j in s.jobs ==> t.jobs[j] == s.jobs[j]
    requires j in s.jobs && s.jobs[j].lockToken.Some? && s.jobs[j].lockToken.value in s.flights ==>
               var before := s.flights[s.jobs[j].lockToken.value];
               var after := t.flights[s.jobs[j].lockToken.value];
               after == before.(stage := after.stage) && (after.stage.Done? ==> before.stage.Done?)
    ensures JobOk(t, j)
  {
  }

  lemma ClaimSpaced(h: History, h': History, at: int, lease: int)
    requires |h.leases| == |h.claimTimes| && Spaced(h)
    requires h'.claimTimes == h.claimTimes + [at] && h'.leases == h.leases + [lease]
    requires h.claimTimes != [] ==>
               at >= h.claimTimes[|h.claimTimes| - 1] + Least(h.leases[|h.leases| - 1], RETRY_DELAYS[0])
    ensures Spaced(h')
  {
  }

  /** The life of the claimed job, from the row that the claim found. */
  lemma ClaimedLife(h: History, row: Job, e: Event)
    requires e.Claimed? && e.lock !in h.locks && LifeOk(h) && h.message.Some?
    requires row.nextAttemptAt <= e.at && e.lost == row.lockToken.Some?
    requires row.lockToken.None? ==> UnlockedOk(row, h)
    requires row.lockToken.Some? ==>
               && |h.claimTimes| == h.reschedules + h.lost + 1
               && h.claimTimes[|h.claimTimes| - 1] + h.leases[|h.leases| - 1] <= e.at
    ensures LifeOk(Record(h, e.job, e))
  {
    var h' := Record(h, e.job, e);
    assert |h.locks + {e.lock}| == |h.locks| + 1;
    ClaimSpaced(h, h', e.at, e.lease);
    if h'.lost == 0 {
      forall k | 0 <= k < |h'.claimTimes| && k <= |RETRY_DELAYS|
        ensures h'.claimTimes[k] >= h'.enqueuedAt + TotalDelay(k)
      {
        if k < |h.claimTimes| { assert h'.claimTimes[k] == h.claimTimes[k]; }
      }
    }
  }

  lemma KeysStay(log: seq<Event>, e: Event)
    requires KeysDistinct(log) && !e.Enqueued?
    ensures KeysDistinct(log + [e])
  {
  }

  lemma ClaimedJob(s: State, a: Action, c: nat)
    requires a.ClaimNext? && Enabled(s, a) && NextDue(s.jobs, a.sample) == Some(c) && JobOk(s, c)
    ensures JobOk(Next(s, a), c)
  {
    hide Life, Spaced, BacksOff;
    assert c in Due(s.jobs, a.sample);
    var e := Claimed(c, a.lock, a.sample, a.lease, s.jobs[c].lockToken.Some?);
    LifeGrows(s.log, e, c);
    ClaimedLife(Life(s.log, c), s.jobs[c], e);
  }

  lemma ClaimKeepsJob(s: State, a: Action, j: nat)
    requires a.ClaimNext? && Enabled(s, a) && NextDue(s.jobs, a.sample).Some?
    requires JobOk(s, j)
    ensures JobOk(Next(s, a), j)
  {
    var c := NextDue(s.jobs, a.sample).value;
    if j == c {
      ClaimedJob(s, a, c);
    } else {
      assert c in Due(s.jobs, a.sample);
      LifeGrows(s.log, Claimed(c, a.lock, a.sample, a.lease, s.jobs[c].lockToken.Some?), j);
      Unconcerned(s, Next(s, a), j);
    }
  }

  lemma ClaimKeepsFlight(s: State, a: Action, lock: nat)
    requires Inv(s) && a.ClaimNext? && Enabled(s, a) && NextDue(s.jobs, a.sample).Some?
    requires lock in Next(s, a).flights
    ensures FlightOk(Next(s, a), lock)
  {
    var c := NextDue(s.jobs, a.sample).value;
    assert c in Due(s.jobs, a.sample) && JobOk(s, c);
    var e := Claimed(c, a.lock, a.sample, a.lease, s.jobs[c].lockToken.Some?);
    if lock == a.lock {
      LifeGrows(s.log, e, c);
    } else {
      assert FlightOk(s, lock);
      LifeGrows(s.log, e, s.flights[lock].claim.id);
    }
  }

  lemma KeepsClaim(s: State, a: Action)
    requires Inv(s) && a.ClaimNext? && Enabled(s, a)
    ensures Inv(Next(s, a))
  {
    var t := Next(s, a);
    if NextDue(s.jobs, a.sample).Some? {
      forall j: nat ensures JobOk(t, j) {
        assert JobOk(s, j);
        ClaimKeepsJob(s, a, j);
      }
      forall lock | lock in t.flights ensures FlightOk(t, lock) { ClaimKeepsFlight(s, a, lock); }
      KeysStay(s.log, t.log[|s.log|]);
    }
  }

  lemma KeepsProgress(s: State, a: Action)
    requires Inv(s) && (a.Tick? || a.Reject? || a.Crash?) && Enabled(s, a)
    ensures Inv(Next(s, a))
  {
    var t := Next(s, a);
    forall j: nat ensures JobOk(t, j) {
      assert JobOk(s, j);
      Unconcerned(s, t, j);
    }
    forall lock | lock in t.flights ensures FlightOk(t, lock) { assert FlightOk(s, lock); }
    assert KeysDistinct(s.log);
  }

  /** The event that handing over, accepting or finishing appends. */
  function EventOf(s: State, a: Action): Event
    requires a.Hand? || a.Deliver? || a.Finish?
    requires a.lock in s.flights
    requires a.Finish? ==> s.flights[a.lock].stage.Delivered? || s.flights[a.lock].stage.Rejected?
  {
    var f := s.flights[a.lock];
    if a.Hand? then Handed(f.claim.id, a.lock, f.claim.message, a.posts)
    else if a.Deliver? then Accepted(f.claim.id, a.lock)
    else Finished(f.claim.id, a.lock, VerdictOf(f), Holds(s.jobs, f.claim))
  }

  /** Rows do not depend on how far the delivery of their messages has come. */
  lemma DeliveryRow(s: State, t: State, j: nat, h: History, h': History)
    requires LifeOk(h) && LifeOk(h') && j in s.jobs && RowOk(s, j, h) && j in t.jobs && t.jobs[j] == s.jobs[j]
    requires h' == h.(handed := h'.handed, sends := h'.sends, posts := h'.posts, messages := h'.messages,
                      accepted := h'.accepted)
    requires forall lock | lock in s.flights :: lock in t.flights
               && t.flights[lock] == s.flights[lock].(stage := t.flights[lock].stage)
               && (t.flights[lock].stage.Done? ==> s.flights[lock].stage.Done?)
    ensures RowOk(t, j, h')
  {
  }

  lemma DeliveredJob(s: State, a: Action)
    requires (a.Hand? || a.Deliver?) && Enabled(s, a) && FlightOk(s, a.lock)
    requires JobOk(s, s.flights[a.lock].claim.id)
    ensures JobOk(Next(s, a), s.flights[a.lock].claim.id)
  {
    hide Life, Spaced, BacksOff;
    var j := s.flights[a.lock].claim.id;
    var h, h' := Life(s.log, j), Life(Next(s, a).log, j);
    LifeGrows(s.log, EventOf(s, a), j);
    DeliveryLife(h, EventOf(s, a));
    if j in s.jobs {
      DeliveryRow(s, Next(s, a), j, h, h');
    }
  }

  lemma WorkKeepsJob(s: State, a: Action, j: nat)
    requires (a.Hand? || a.Deliver? || a.Finish?) && Enabled(s, a)
    requires FlightOk(s, a.lock) && JobOk(s, j)
    ensures JobOk(Next(s, a), j)
  {
    var c := s.flights[a.lock].claim;
    if j == c.id && a.Finish? && Holds(s.jobs, c) {
      FinishedJob(s, a);
    } else if j == c.id && !a.Finish? {
      DeliveredJob(s, a);
    } else {
      OtherJob(s, a, j);
    }
  }

  /** A finish that no longer holds its row, or work on another job, leaves a job alone. */
  lemma OtherJob(s: State, a: Action, j: nat)
    requires (a.Hand? || a.Deliver? || a.Finish?) && Enabled(s, a)
    requires FlightOk(s, a.lock) && JobOk(s, j)
    requires j != s.flights[a.lock].claim.id || (a.Finish? && !Holds(s.jobs, s.flights[a.lock].claim))
    ensures JobOk(Next(s, a), j)
  {
    LifeGrows(s.log, EventOf(s, a), j);
    if j in s.jobs {
      assert s.jobs[j].lockToken != Some(a.lock);
    }
    Unconcerned(s, Next(s, a), j);
  }

  lemma WorkKeepsFlight(s: State, a: Action, lock: nat)
    requires (a.Hand? || a.Deliver? || a.Finish?) && Enabled(s, a) && lock in s.flights
    requires FlightOk(s, lock)
    ensures lock in Next(s, a).flights && FlightOk(Next(s, a), lock)
  {
  }

  lemma KeepsWork(s: State, a: Action)
    requires Inv(s) && (a.Hand? || a.Deliver? || a.Finish?) && Enabled(s, a)
    ensures Inv(Next(s, a))
  {
    hide RowOk, LifeOk, KeysDistinct, FinishJobs;
    var t := Next(s, a);
    assert FlightOk(s, a.lock);
    forall j: nat ensures JobOk(t, j) {
      assert JobOk(s, j);
      WorkKeepsJob(s, a, j);
    }
    forall lock | lock in t.flights ensures FlightOk(t, lock) {
      assert FlightOk(s, lock);
      WorkKeepsFlight(s, a, lock);
    }
    KeysStay(s.log, EventOf(s, a));
  }

  lemma DeliveryLife(h: History, e: Event)
    requires LifeOk(h)
    requires e.Handed? || e.Accepted?
    requires e.Handed? ==> e.lock in h.locks && e.lock !in h.handed && h.message == Some(e.message)
                           && e.posts <= POSTS_PER_SEND
    requires e.Accepted? ==> e.lock in h.handed
    ensures LifeOk(Record(h, e.job, e))
  {
    if e.Handed? {
      assert |h.handed + {e.lock}| == |h.handed| + 1;
    }
  }

  lemma FinishedLife(h: History, e: Event)
    requires LifeOk(h) && h.message.Some? && e.Finished?
    requires e.verdict.Sent? ==> e.lock in h.accepted
    requires e.verdict.Retry? ==> h.reschedules < |RETRY_DELAYS|
    ensures LifeOk(Record(h, e.job, e))
  {
  }

  /** The fenced finish of the claim that holds the row. */
  lemma FinishedJob(s: State, a: Action)
    requires a.Finish? && Enabled(s, a) && FlightOk(s, a.lock) && JobOk(s, s.flights[a.lock].claim.id)
    requires Holds(s.jobs, s.flights[a.lock].claim)
    ensures JobOk(Next(s, a), s.flights[a.lock].claim.id)
  {
    hide Life, Spaced, BacksOff;
    var f := s.flights[a.lock];
    var e := Finished(f.claim.id, a.lock, VerdictOf(f), true);
    LifeGrows(s.log, e, f.claim.id);
    var h := Life(s.log, f.claim.id);
    if VerdictOf(f).Retry? {
      assert h.reschedules + h.lost + 1 == f.claim.attempts <= |RETRY_DELAYS|;
      RescheduledLife(h, s.jobs[f.claim.id], f);
    }
    FinishedLife(h, e);
  }

  lemma RescheduledLife(h: History, row: Job, f: Flight)
    requires LifeOk(h) && f.stage.Rejected? && VerdictOf(f).Retry? && f.at <= f.stage.failedAt
    requires f.claim.attempts == |h.claimTimes| == h.reschedules + h.lost + 1
    requires h.claimTimes[|h.claimTimes| - 1] == f.at
    ensures UnlockedOk(row.(nextAttemptAt := VerdictOf(f).at), h.(reschedules := h.reschedules + 1))
  {
  }

  lemma Keeps(s: State, a: Action)
    requires Inv(s) && Enabled(s, a)
    ensures Inv(Next(s, a))
  {
    match a
    case Enqueue(_, _, _) => KeepsEnqueue(s, a);
    case DeleteTokens(_, _) => KeepsDeleteTokens(s, a);
    case ClaimNext(_, _, _) => KeepsClaim(s, a);
    case Hand(_, _) => KeepsWork(s, a);
    case Deliver(_) => KeepsWork(s, a);
    case Finish(_) => KeepsWork(s, a);
    case Tick(_) => KeepsProgress(s, a);
    case Reject(_, _, _) => KeepsProgress(s, a);
    case Crash(_) => KeepsProgress(s, a);
  }

  /** The invariant holds after every run. */
  lemma {:induction false} RunKeeps(s: State, run: seq<Action>)
    requires Inv(s) && Legal(s, run)
    ensures Inv(Exec(s, run))
    decreases |run|
  {
    if run != [] {
      Keeps(s, run[0]);
      RunKeeps(Next(s, run[0]), run[1..]);
    }
  }
}
