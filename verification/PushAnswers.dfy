/** What each transaction on a push job does to it, field by field. */
module PushAnswers {
  import opened Options
  import opened Sequences
  import opened PushRounds
  import opened Presend
  import opened PushRuns
  import opened PushHistory

  /** Nothing about the job changes but whether it waits, when, how often it was tried and who holds it. */
  predicate SameNotice(a: Job, b: Job) {
    && a.user == b.user && a.kind == b.kind && a.assignment == b.assignment && a.maxAttempts == b.maxAttempts
  }

  /* ----- The pre-send check ----- */

  /**
   The due time a job is sent for lies ahead and is one a row still has; a countdown filed with none goes by
   the rows.
   */
  predicate DueAhead(job: Job, dues: set<int>, now: int) {
    if job.kind == Reminder || job.due.Some? then job.due.Some? && job.due.value in dues && now < job.due.value
    else dues == {} || exists d :: d in dues && now < d
  }

  /**
   The ruling is to send exactly on a send verdict, with the assignment open, its due time ahead and the grace
   not over.
   */
  lemma SendMeans(job: Job, check: Check, facts: Facts, now: int, grace: int)
    requires job.kind == Reminder || job.kind == CountdownStart
    ensures Ruling(job, check, facts, now, grace) == Send <==>
              && check == Send && job.assignment.Some?
              && !facts.submitted && !facts.marked && !facts.ignored && facts.alive
              && DueAhead(job, facts.dues, now) && now < job.fireAt + grace
  {
    if facts.dues != {} {
      var last := Greatest(facts.dues);
      assert (exists d :: d in facts.dues && now < d) <==> now < last;
    }
  }

  /** Any other verdict stands; a send verdict the rows contradict becomes what they say. */
  lemma RulingSays(job: Job, check: Check, facts: Facts, now: int, grace: int)
    ensures var r := Ruling(job, check, facts, now, grace);
            && (check != Send ==> r == check)
            && (check == Send ==> r != Unverified)
            && (check == Send ==> (r == Submitted <==> job.assignment.Some? && facts.submitted))
  {
  }

  /**
   What becomes of a job held back: cancelled with its reason, or put off while the grace lasts; no attempt is
   spent.
   */
  lemma HeldBackSays(cfg: Config, job: Job, ruling: Check, now: int)
    requires ruling != Send
    ensures var after := HeldBack(cfg, job, ruling, now);
            && SameNotice(job, after) && after.attempts == job.attempts && after.fireAt == job.fireAt
                && after.due == job.due
            && after.lockedBy.None? && after.lockedAt.None?
            && (after.status == Cancelled <==> ruling != Unverified || job.fireAt + cfg.grace <= now)
            && (after.status == Pending <==> ruling == Unverified && now < job.fireAt + cfg.grace)
            && (after.status == Pending ==> after.availableAt == now + cfg.presendRetry)
            && (after.status == Cancelled ==>
                  after.error == Some(if ruling == Submitted then SubmittedBeforeSend
                                      else if ruling == Gone then StaleBeforeSend else UnverifiedBeforeSend))
  {
  }

  /* ----- Claims ----- */

  function Doubled(n: nat): nat { if n == 0 then 1 else 2 * Doubled(n - 1) }

  lemma {:induction false} BackoffDoubles(delay: nat, n: nat)
    ensures Backoff(delay, n) == delay * Doubled(n)
  {
    if n > 0 { BackoffDoubles(delay, n - 1); }
  }

  /**
   A stale claim costs an attempt, and fails the job exactly when that was the last; else it waits twice as
   long each time.
   */
  lemma RecoveredSays(cfg: Config, job: Job, now: int)
    ensures var after := Recovered(cfg, job, now);
            && SameNotice(job, after) && after.attempts == job.attempts + 1 && after.lockedBy.None?
                && after.lockedAt.None?
            && (after.status == Failed <==> job.attempts + 1 >= job.maxAttempts)
            && (after.status == Pending <==> job.attempts + 1 < job.maxAttempts)
            && (after.status == Failed ==> after.error == Some(StaleLock) && after.availableAt == job.availableAt)
            && (after.status == Pending ==> after.availableAt == now + cfg.delay * Doubled(job.attempts))
  {
    BackoffDoubles(cfg.delay, job.attempts);
  }

  /** So does a crash, after which it waits one round's delay. */
  lemma CrashedSays(cfg: Config, job: Job, now: int)
    ensures var after := Crashed(cfg, job, now);
            && SameNotice(job, after) && after.attempts == job.attempts + 1 && after.lockedBy.None?
                && after.lockedAt.None?
            && (after.status == Failed <==> job.attempts + 1 >= job.maxAttempts)
            && (after.status == Pending <==> job.attempts + 1 < job.maxAttempts)
            && (after.status == Failed ==> after.error == Some(PipelineCrash) && after.availableAt == job.availableAt)
            && (after.status == Pending ==> after.availableAt == now + cfg.delay)
  {
  }

  /**
   A claim marks the job as its worker's, from now, and leaves the rest of it, other jobs and all deliveries
   alone.
   */
  lemma ClaimsSay(cfg: Config, job: Job, ds: seq<Delivery>, worker: nat, ids: set<nat>, id: nat, now: int)
    ensures var (after, ds') := After(cfg, job, ds, Claim(worker, ids, now), id);
            && ds' == ds && (id !in ids ==> after == job)
            && (id in ids ==>
                  && after.status == Processing && after.lockedBy == Some(worker) && after.lockedAt == Some(now)
                  && after.(status := job.status, lockedBy := job.lockedBy, lockedAt := job.lockedAt) == job)
  {
  }

  /** A release lets go of exactly the worker's own claims among those named. */
  lemma ReleasesSay(cfg: Config, job: Job, ds: seq<Delivery>, worker: nat, ids: set<nat>, id: nat)
    ensures var (after, ds') := After(cfg, job, ds, Release(worker, ids), id);
            var own := id in ids && job.status == Processing && job.lockedBy == Some(worker);
            && ds' == ds && (!own ==> after == job)
            && (own ==> after.status == Pending && after.lockedBy.None? && after.lockedAt.None?
                        && after.(status := job.status, lockedBy := job.lockedBy, lockedAt := job.lockedAt) == job)
  {
  }

  /** A turn acts only on a job its worker holds, and whatever it does it lets go of it. */
  lemma TurnLetsGo(cfg: Config, s: Push, tx: Tx)
    requires Inv(s) && Enabled(cfg, s, tx) && tx.Process?
    ensures var job, after := s.jobs[tx.id], After(cfg, s.jobs[tx.id], s.ds[tx.id], tx, tx.id);
            && (!(job.status == Processing && job.lockedBy == Some(tx.worker)) ==> after == (job, s.ds[tx.id]))
            && (job.status == Processing && job.lockedBy == Some(tx.worker) ==>
                  after.0.status != Processing && after.0.lockedBy.None? && after.0.lockedAt.None?)
  {
    if Mine(s.jobs[tx.id], tx.worker) {
      TurnKeeps(cfg, s, tx.id, tx.work);
      TurnUnlocks(cfg, s.jobs[tx.id], s.ds[tx.id], tx.work);
    }
  }

  lemma TurnUnlocks(cfg: Config, job: Job, ds: seq<Delivery>, work: Work)
    ensures Turn(cfg, job, ds, work).0.lockedBy.None? && Turn(cfg, job, ds, work).0.lockedAt.None?
  {
    if work.plan.Deliver? {
      RoundUnlocks(job, Materialized(ds, work.plan.tokens, work.t1), work.plan.replies, work.t2, cfg.delay);
    }
  }

  lemma RoundUnlocks(job: Job, ds: seq<Delivery>, replies: Replies, now: int, delay: int)
    ensures Round(job, ds, replies, now, delay).0.lockedBy.None? && Round(job, ds, replies, now, delay).0.lockedAt.None?
  {
  }

  /** A turn that does not deliver: settled, put off to the time its plan names, or put back unchecked. */
  lemma TurnPutsOff(cfg: Config, job: Job, ds: seq<Delivery>, work: Work)
    requires work.check.Some? ==> Ruling(job, work.check.value, work.facts, work.t0, cfg.grace) == Send
    requires !work.plan.Deliver? || !LetThrough(cfg, job, ds, work)
    ensures var (after, ds') := Turn(cfg, job, ds, work);
            var unchecked := work.check.None? && ds == [] && (job.kind == Reminder || job.kind == CountdownStart);
            && SameNotice(job, after) && after.attempts == job.attempts && after.fireAt == job.fireAt
            && after.lockedBy.None? && after.lockedAt.None? && |ds'| == |ds|
            && (unchecked ==> after.status == Pending && after.availableAt == job.availableAt && ds' == ds)
            && (!unchecked ==>
                  match work.plan
                  case Settle(outcome, skip) => after.status == outcome && (skip ==> Without(ds', Waiting))
                  case Hold(until) => after.status == Pending && after.availableAt == until && ds' == ds
                  case WaitForCountdown => after.status == Pending && after.availableAt == work.t1 + 60 && ds' == ds
                  case Pace(last) => after.status == Pending && after.availableAt == last + 1200 && ds' == ds
                  case Deliver(_, _) => false)
  {
  }

  /* ----- The other writers ----- */

  /** A posted schedule moves a waiting start to a time ahead, cancels one moved into the past, and touches no other. */
  lemma ReschedulesSay(cfg: Config, job: Job, ds: seq<Delivery>, id: nat, at: int, due: Option<int>, now: int)
    ensures var (after, ds') := After(cfg, job, ds, Reschedule(id, at, due, now), id);
            && ds' == ds && SameNotice(job, after) && after.attempts == job.attempts && after.priority == job.priority
            && (job.status != Pending ==> after == job)
            && (job.status == Pending && at != job.fireAt && at <= now ==> after == job.(status := Cancelled))
            && (job.status == Pending && at != job.fireAt && now < at ==>
                  after.status == Pending && after.fireAt == at && after.availableAt == at && after.due == due)
            && (job.status == Pending && at == job.fireAt ==>
                after.availableAt == job.availableAt && after.status == Pending)
  {
  }

  /** The end of an activity takes its time and goes first; one already settled is left as it is. */
  lemma EndsSay(cfg: Config, job: Job, ds: seq<Delivery>, id: nat, at: int, now: int)
    ensures var (after, ds') := After(cfg, job, ds, EndUpsert(id, at, now), id);
            && ds' == ds && SameNotice(job, after) && after.attempts == job.attempts
                && after.availableAt == job.availableAt
            && (job.status == Pending || job.status == Processing ==>
                  after.status == Pending && after.fireAt == at && after.priority == 10)
            && (job.status != Pending && job.status != Processing ==> after == job)
  {
  }

  /** Cancelling takes jobs that wait or are going out, and leaves settled ones and all deliveries as they are. */
  lemma CancelsSay(cfg: Config, job: Job, ds: seq<Delivery>, ids: set<nat>, id: nat)
    ensures var (after, ds') := After(cfg, job, ds, Cancel(ids), id);
            && ds' == ds && after == job.(status := after.status)
            && (after.status == Cancelled <==>
                  job.status == Cancelled || (id in ids && (job.status == Pending || job.status == Processing)))
            && (after.status != Cancelled ==> after.status == job.status)
  {
  }

  /** A device that synced is taken off exactly the deliveries still waiting for it. */
  lemma SkipsSay(cfg: Config, job: Job, ds: seq<Delivery>, ids: set<nat>, tokens: set<nat>, id: nat, i: nat)
    requires i < |ds|
    ensures var (after, ds') := After(cfg, job, ds, SkipSynced(ids, tokens), id);
            && after == job && |ds'| == |ds| && ds'[i] == ds[i].(status := ds'[i].status)
            && (ds'[i].status != ds[i].status <==>
                  id in ids && (job.status == Pending || job.status == Processing)
                  && ds[i].status == Waiting && ds[i].token in tokens)
            && (ds'[i].status != ds[i].status ==> ds'[i].status == Skipped)
  {
  }
}
