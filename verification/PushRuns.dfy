/**
 The push pipeline as committed transactions on the job table, in any order the
 ticks, their crashes and the other writers of push jobs leave them.
 */
module PushRuns {
  import opened Options
  import opened PushRounds
  import opened Presend
  import opened Spans

  datatype Config = Config(delay: nat, staleAfter: nat, presendRetry: nat, grace: nat)

  const DELIVERY_ATTEMPTS: nat := 3
  const ACTIVITY_PRIORITY := 10
  const COUNTDOWN_WAIT: nat := 60

  /** `clock` is the last reading of the clock by a committed transaction. */
  datatype Push = Push(jobs: map<nat, Job>, ds: map<nat, seq<Delivery>>, clock: int)

  /** How a job's turn goes once the pre-send check lets it through. */
  datatype Plan =
    | Settle(outcome: JobStatus, skipPending: bool)
    | Hold(until: int)
    | WaitForCountdown
    | Pace(last: int)
    | Deliver(tokens: seq<nat>, replies: Replies)

  /**
   One turn: the check's verdict, the rows read with the job locked, the clock as it is read, and the table the
   pacing query saw. Others may commit between that read and the turn's own commit.
   */
  datatype Work = Work(check: Option<Check>, facts: Facts, t0: int, t1: int, t2: int, seen: Push, plan: Plan)

  datatype Tx =
    | File(id: nat, job: Job, now: int)
    | Claim(worker: nat, ids: set<nat>, now: int)
    | Recover(ids: set<nat>, now: int)
    | Release(worker: nat, ids: set<nat>)
    | Process(worker: nat, id: nat, work: Work)
    /** A turn that died after going through the first `sent` deliveries: nothing of it is stored. */
    | RolledBack(worker: nat, id: nat, work: Work, sent: nat)
    | CrashHandled(id: nat, now: int)
    /** The end of a running activity, filed or moved. */
    | EndUpsert(id: nat, at: int, now: int)
    /** A device posts its schedule: a start that waits takes the posted time, or goes with one that is past. */
    | Reschedule(id: nat, at: int, due: Option<int>, now: int)
    /** Reminders no longer wanted, starts taken off a schedule, or a user's queue cleared by the portal. */
    | Cancel(ids: set<nat>)
    /** A device that has just synced needs none of the pushes still waiting for it. */
    | SkipSynced(ids: set<nat>, tokens: set<nat>)

  /* ----- What each transaction does to one job ----- */

  function Backoff(delay: nat, n: nat): nat {
    if n == 0 then delay else 2 * Backoff(delay, n - 1)
  }

  function Recovered(cfg: Config, job: Job, now: int): Job {
    var j := job.Unlocked().(attempts := job.attempts + 1);
    if j.attempts >= j.maxAttempts then j.(status := Failed, error := Some(StaleLock))
    else j.(status := Pending, availableAt := now + Backoff(cfg.delay, j.attempts - 1))
  }

  function Crashed(cfg: Config, job: Job, now: int): Job {
    var j := job.Unlocked().(attempts := job.attempts + 1);
    if j.attempts >= j.maxAttempts then j.(status := Failed, error := Some(PipelineCrash))
    else j.(status := Pending, availableAt := now + cfg.delay)
  }

  /** Acting on a verdict other than `Send`. */
  function HeldBack(cfg: Config, job: Job, ruling: Check, now: int): Job
    requires !ruling.Send?
  {
    match ruling
    case Submitted => job.Settled(Cancelled, SubmittedBeforeSend)
    case Gone => job.Settled(Cancelled, StaleBeforeSend)
    case Unverified =>
      if now < job.fireAt + cfg.grace then job.PutBack(now + cfg.presendRetry)
      else job.Settled(Cancelled, UnverifiedBeforeSend)
  }

  function Tokens(ds: seq<Delivery>): set<nat> { set d | d in ds :: d.token }

  /** A delivery row per token that has none yet. */
  function Materialized(ds: seq<Delivery>, tokens: seq<nat>, now: int): (after: seq<Delivery>)
    decreases tokens
  {
    if tokens == [] then ds
    else
      var t := tokens[0];
      Materialized(if t in Tokens(ds) then ds else ds + [Delivery(t, Waiting, 0, DELIVERY_ATTEMPTS, now, None)],
                   tokens[1..], now)
  }

  function SkipPending(ds: seq<Delivery>): (after: seq<Delivery>)
    ensures |after| == |ds|
    ensures forall i :: 0 <= i < |ds| ==> after[i] == if ds[i].status.Waiting? then ds[i].(status := Skipped) else ds[i]
  {
    seq(|ds|, i requires 0 <= i < |ds| => if ds[i].status.Waiting? then ds[i].(status := Skipped) else ds[i])
  }

  function SkipTokens(ds: seq<Delivery>, tokens: set<nat>): (after: seq<Delivery>)
    ensures |after| == |ds|
    ensures forall i :: 0 <= i < |ds| ==>
              after[i] == if ds[i].status.Waiting? && ds[i].token in tokens then ds[i].(status := Skipped) else ds[i]
  {
    seq(|ds|, i requires 0 <= i < |ds| =>
      if ds[i].status.Waiting? && ds[i].token in tokens then ds[i].(status := Skipped) else ds[i])
  }

  function Rescheduled(job: Job, at: int, due: Option<int>, now: int): Job {
    if at == job.fireAt then job.(due := due)
    else if at <= now then job.(status := Cancelled)
    else job.(fireAt := at, availableAt := at, due := due)
  }

  predicate LetThrough(cfg: Config, job: Job, ds: seq<Delivery>, work: Work) {
    if work.check.Some? then Ruling(job, work.check.value, work.facts, work.t0, cfg.grace).Send?
    else !Guarded(job) || ds != []
  }

  function Turn(cfg: Config, job: Job, ds: seq<Delivery>, work: Work): (r: (Job, seq<Delivery>)) {
    if work.check.Some? && !Ruling(job, work.check.value, work.facts, work.t0, cfg.grace).Send? then
      (HeldBack(cfg, job, Ruling(job, work.check.value, work.facts, work.t0, cfg.grace), work.t0), ds)
    else if !LetThrough(cfg, job, ds, work) then
      (job.Unlocked().(status := Pending), ds)
    else
      match work.plan
      case Settle(outcome, skipPending) =>
        (job.Settled(outcome, SettledEarly), if skipPending then SkipPending(ds) else ds)
      case Hold(until) => (job.PutBack(until), ds)
      case WaitForCountdown => (job.PutBack(work.t1 + COUNTDOWN_WAIT), ds)
      case Pace(last) => (job.PutBack(last + MIN_GAP), ds)
      case Deliver(tokens, replies) =>
        Round(job, Materialized(ds, tokens, work.t1), replies, work.t2, cfg.delay)
  }

  predicate Mine(job: Job, worker: nat) { job.status.Processing? && job.lockedBy == Some(worker) }

  function After(cfg: Config, job: Job, ds: seq<Delivery>, tx: Tx, id: nat): (r: (Job, seq<Delivery>)) {
    match tx
    case Claim(w, ids, now) =>
      (if id in ids then job.(status := Processing, lockedBy := Some(w), lockedAt := Some(now)) else job, ds)
    case Recover(ids, now) => (if id in ids then Recovered(cfg, job, now) else job, ds)
    case Release(w, ids) => (if id in ids && Mine(job, w) then job.Unlocked().(status := Pending) else job, ds)
    case Process(w, p, work) => if id == p && Mine(job, w) then Turn(cfg, job, ds, work) else (job, ds)
    case CrashHandled(c, now) => (if id == c && job.status.Processing? then Crashed(cfg, job, now) else job, ds)
    case EndUpsert(e, at, _) =>
      (if id == e && job.Unfinished() then job.(fireAt := at, priority := ACTIVITY_PRIORITY, status := Pending)
          else job, ds)
    case Reschedule(r, at, due, now) =>
      (if id == r && job.status.Pending? then Rescheduled(job, at, due, now) else job, ds)
    case Cancel(ids) => (if id in ids && job.Unfinished() then job.(status := Cancelled) else job, ds)
    case SkipSynced(ids, tokens) => (job, if id in ids && job.Unfinished() then SkipTokens(ds, tokens) else ds)
    case _ => (job, ds)
  }

  /* ----- The machine ----- */

  function Now(s: Push, tx: Tx): int {
    match tx
    case File(_, _, now) => now
    case Claim(_, _, now) => now
    case Recover(_, now) => now
    case Process(_, _, work) => work.t2
    case RolledBack(_, _, work, _) => work.t2
    case CrashHandled(_, now) => now
    case EndUpsert(_, _, now) => now
    case Reschedule(_, _, _, now) => now
    case _ => s.clock
  }

  /** The statuses under which a job counts as waiting, going out or sent. */
  predicate Active(job: Job) { job.Unfinished() || job.status.Sent? || job.status.PartialFailed? }

  /** Another sync trigger of the user reached a device at `at`, within the gap before `now`. */
  ghost predicate RecentSend(s: Push, id: nat, now: int, at: int) {
    exists o, d :: o in s.jobs && o in s.ds && o != id && id in s.jobs
      && s.jobs[o].user == s.jobs[id].user && s.jobs[o].kind.SyncTrigger? && Active(s.jobs[o])
      && d in s.ds[o] && d.status.Delivered? && d.sentAt == Some(at) && at > now - MIN_GAP
  }

  ghost predicate PlanFits(cfg: Config, s: Push, id: nat, work: Work)
    requires id in s.jobs && id in s.ds
  {
    var job := s.jobs[id];
    var paced := job.kind == SyncTrigger(false);
    match work.plan
    case Settle(outcome, _) => !job.kind.SyncTrigger? && (outcome.Failed? || outcome.Cancelled?)
    case Hold(until) => !job.kind.SyncTrigger? && work.t1 < until
    case WaitForCountdown =>
      job.kind.Reminder? && s.ds[id] == []
      && job.availableAt < job.fireAt + COUNTDOWN_WAIT && work.t1 + 2 * COUNTDOWN_WAIT < job.fireAt + cfg.grace
    case Pace(last) =>
      paced && RecentSend(work.seen, id, work.t1, last)
      && forall at :: RecentSend(work.seen, id, work.t1, at) ==> at <= last
    case Deliver(tokens, _) =>
      paced ==> forall at :: !RecentSend(work.seen, id, work.t1, at)
  }

  /** The clock reads no earlier than when the job was claimed. */
  predicate SinceClaim(job: Job, now: int) {
    job.status.Processing? && job.lockedAt.Some? ==> job.lockedAt.value <= now
  }

  /** The turn holds its job's row from before its reads, so the job it saw is the one it commits to. */
  ghost predicate Works(cfg: Config, s: Push, id: nat, work: Work) {
    && id in s.jobs && id in s.ds && work.t0 <= work.t1 <= work.t2 && SinceClaim(s.jobs[id], work.t0)
    && id in work.seen.jobs && work.seen.jobs[id] == s.jobs[id]
    && PlanFits(cfg, s, id, work) && (work.check.Some? ==> Guarded(s.jobs[id]))
  }

  ghost predicate Enabled(cfg: Config, s: Push, tx: Tx) {
    match tx
    case File(id, job, _) =>
      && id !in s.jobs && job.status.Pending? && job.attempts == 0 && job.maxAttempts > 0
      && job.lockedBy.None? && job.error.None?
    case Claim(_, ids, now) =>
      forall id :: id in ids ==>
        id in s.jobs && s.jobs[id].status.Pending? && s.jobs[id].fireAt <= now && s.jobs[id].availableAt <= now
    case Recover(ids, now) =>
      forall id :: id in ids ==>
        && id in s.jobs && s.jobs[id].status.Processing?
        && s.jobs[id].lockedAt.Some? && s.jobs[id].lockedAt.value < now - cfg.staleAfter
    case Process(_, id, work) => Works(cfg, s, id, work)
    case RolledBack(w, id, work, _) =>
      && Works(cfg, s, id, work) && Mine(s.jobs[id], w)
      && LetThrough(cfg, s.jobs[id], s.ds[id], work) && work.plan.Deliver?
    case CrashHandled(id, now) => id in s.jobs ==> SinceClaim(s.jobs[id], now)
    case EndUpsert(id, _, _) => id in s.jobs ==> s.jobs[id].kind.Plain?
    case Reschedule(id, _, _, _) => id in s.jobs ==> s.jobs[id].kind.Plain? || s.jobs[id].kind.CountdownStart?
    case _ => true
  }

  function Next(cfg: Config, s: Push, tx: Tx): Push {
    var jobs := map id | id in s.jobs && id in s.ds :: After(cfg, s.jobs[id], s.ds[id], tx, id).0;
    var ds := map id | id in s.jobs && id in s.ds :: After(cfg, s.jobs[id], s.ds[id], tx, id).1;
    if tx.File? then Push(jobs[tx.id := tx.job], ds[tx.id := []], Now(s, tx)) else Push(jobs, ds, Now(s, tx))
  }

  /* ----- The invariant ----- */

  predicate Unique(ds: seq<Delivery>) {
    forall i, j :: 0 <= i < j < |ds| ==> ds[i].token != ds[j].token
  }

  predicate JobOk(job: Job, ds: seq<Delivery>) {
    && 0 < job.maxAttempts && job.attempts <= job.maxAttempts
    && WithinLimits(ds) && Unique(ds)
    && StatusFits(job, ds)
    && (job.Unfinished() ==> job.attempts < job.maxAttempts && Triable(ds))
    && (job.status.Processing? ==>
          job.lockedAt.Some? && job.availableAt <= job.lockedAt.value && job.fireAt <= job.lockedAt.value)
  }

  ghost predicate Inv(s: Push) {
    && s.ds.Keys == s.jobs.Keys
    && forall id :: id in s.jobs ==> JobOk(s.jobs[id], s.ds[id])
  }

  lemma {:induction false} MaterializedKeeps(ds: seq<Delivery>, tokens: seq<nat>, now: int)
    requires Triable(ds) && WithinLimits(ds) && Unique(ds)
    ensures var after := Materialized(ds, tokens, now);
            Triable(after) && WithinLimits(after) && Unique(after) && ds <= after
    decreases tokens
  {
    if tokens != [] {
      var t := tokens[0];
      if t in Tokens(ds) {
        MaterializedKeeps(ds, tokens[1..], now);
      } else {
        var more := ds + [Delivery(t, Waiting, 0, DELIVERY_ATTEMPTS, now, None)];
        forall i, j | 0 <= i < j < |more| ensures more[i].token != more[j].token {
          if j == |ds| { assert ds[i] in ds; }
        }
        MaterializedKeeps(more, tokens[1..], now);
      }
    }
  }

  predicate SameTokens(a: seq<Delivery>, b: seq<Delivery>) {
    |a| == |b| && forall i :: 0 <= i < |a| ==> a[i].token == b[i].token
  }

  /** Deliveries skipped rather than sent. */
  predicate OnlySkipped(ds: seq<Delivery>, after: seq<Delivery>) {
    |after| == |ds| && forall i :: 0 <= i < |ds| ==>
      after[i] == ds[i] || (ds[i].status.Waiting? && after[i] == ds[i].(status := Skipped))
  }

  lemma SkippingKeeps(ds: seq<Delivery>, after: seq<Delivery>)
    requires WithinLimits(ds) && Unique(ds) && OnlySkipped(ds, after)
    ensures WithinLimits(after) && Unique(after) && SameTokens(ds, after)
    ensures Triable(ds) ==> Triable(after)
    ensures forall latest :: Timely(ds, latest) ==> Timely(after, latest)
  {
    forall d | d in after ensures d.attempts <= d.maxAttempts && (d.status.Waiting? ==> d in ds) {
      var i :| 0 <= i < |ds| && after[i] == d;
      assert ds[i] in ds;
    }
  }

  lemma RoundTokens(job: Job, ds: seq<Delivery>, replies: Replies, now: int, delay: int)
    ensures SameTokens(ds, Round(job, ds, replies, now, delay).1)
  {
    var after := Sweep(ds, replies, now, delay);
    assert SameTokens(ds, after);
    assert SameTokens(after, GiveUp(after));
  }

  /** What a round of a job in order leaves. */
  lemma TurnDelivers(cfg: Config, job: Job, ds: seq<Delivery>, work: Work)
    requires JobOk(job, ds) && job.status.Processing? && work.plan.Deliver?
    ensures var all := Materialized(ds, work.plan.tokens, work.t1);
            var (job', ds') := Round(job, all, work.plan.replies, work.t2, cfg.delay);
            && JobOk(job', ds')
            && (job'.Unfinished() ==>
                  job'.attempts == job.attempts + 1 || (Idle(all, work.t2) && job'.attempts == job.attempts))
            && (!job'.Unfinished() ==> SettledByRound(job'))
  {
    MaterializedKeeps(ds, work.plan.tokens, work.t1);
    var all := Materialized(ds, work.plan.tokens, work.t1);
    RoundSettlesOrCounts(job, all, work.plan.replies, work.t2, cfg.delay);
    RoundTokens(job, all, work.plan.replies, work.t2, cfg.delay);
  }

  lemma TurnKeeps(cfg: Config, s: Push, id: nat, work: Work)
    requires Inv(s) && id in s.jobs && s.jobs[id].status.Processing? && Works(cfg, s, id, work)
    ensures var (job', ds') := Turn(cfg, s.jobs[id], s.ds[id], work);
            JobOk(job', ds') && !job'.status.Processing?
  {
    var job, ds := s.jobs[id], s.ds[id];
    assert JobOk(job, ds);
    if LetThrough(cfg, job, ds, work) {
      match work.plan
      case Settle(_, _) => SkippingKeeps(ds, SkipPending(ds));
      case Deliver(_, _) =>
        TurnDelivers(cfg, job, ds, work);
        RoundFinishes(job, Materialized(ds, work.plan.tokens, work.t1), work.plan.replies, work.t2, cfg.delay);
      case _ =>
    }
  }

  lemma RoundFinishes(job: Job, ds: seq<Delivery>, replies: Replies, now: int, delay: int)
    ensures !Round(job, ds, replies, now, delay).0.status.Processing?
  {
  }

  lemma AfterKeeps(cfg: Config, s: Push, tx: Tx, id: nat)
    requires Inv(s) && Enabled(cfg, s, tx) && id in s.jobs
    ensures var (job', ds') := After(cfg, s.jobs[id], s.ds[id], tx, id); JobOk(job', ds')
  {
    var job, ds := s.jobs[id], s.ds[id];
    assert JobOk(job, ds);
    match tx
    case Process(w, p, work) => if id == p && Mine(job, w) { TurnKeeps(cfg, s, id, work); }
    case SkipSynced(ids, tokens) => SkippingKeeps(ds, SkipTokens(ds, tokens));
    case _ =>
  }

  /** Every transaction keeps the table in order. */
  lemma StepKeeps(cfg: Config, s: Push, tx: Tx)
    requires Inv(s) && Enabled(cfg, s, tx)
    ensures Inv(Next(cfg, s, tx))
  {
    var s' := Next(cfg, s, tx);
    forall id | id in s'.jobs ensures JobOk(s'.jobs[id], s'.ds[id]) {
      if !(tx.File? && id == tx.id) { AfterKeeps(cfg, s, tx, id); }
    }
  }

  /* ----- Deliveries come due no later than their job ----- */

  predicate OnTime(job: Job, ds: seq<Delivery>) { job.Unfinished() ==> Timely(ds, job.availableAt) }

  ghost predicate AllOnTime(s: Push) {
    s.ds.Keys == s.jobs.Keys && forall id :: id in s.jobs ==> OnTime(s.jobs[id], s.ds[id])
  }

  /** A schedule posted for a start moves it to no earlier than its deliveries' retries. */
  ghost predicate MovesInTime(s: Push, tx: Tx) {
    tx.Reschedule? && tx.id in s.jobs && tx.id in s.ds && s.jobs[tx.id].status.Pending?
    && tx.at != s.jobs[tx.id].fireAt && tx.now < tx.at ==>
      Timely(s.ds[tx.id], tx.at)
  }

  lemma {:induction false} MaterializedTimely(ds: seq<Delivery>, tokens: seq<nat>, now: int)
    requires Timely(ds, now)
    ensures Timely(Materialized(ds, tokens, now), now)
    decreases tokens
  {
    if tokens != [] {
      var t := tokens[0];
      MaterializedTimely(if t in Tokens(ds) then ds else ds + [Delivery(t, Waiting, 0, DELIVERY_ATTEMPTS, now, None)],
                         tokens[1..], now);
    }
  }

  lemma TimelyLater(ds: seq<Delivery>, a: int, b: int)
    requires Timely(ds, a) && a <= b
    ensures Timely(ds, b)
  {
  }

  lemma TurnOnTime(cfg: Config, s: Push, id: nat, work: Work)
    requires Inv(s) && id in s.jobs && s.jobs[id].status.Processing? && Works(cfg, s, id, work)
    requires OnTime(s.jobs[id], s.ds[id])
    ensures var (job', ds') := Turn(cfg, s.jobs[id], s.ds[id], work); OnTime(job', ds')
  {
    var job, ds := s.jobs[id], s.ds[id];
    assert JobOk(job, ds);
    if LetThrough(cfg, job, ds, work) {
      match work.plan
      case Settle(_, _) =>
      case Hold(until) => TimelyLater(ds, job.availableAt, until);
      case WaitForCountdown => TimelyLater(ds, job.availableAt, work.t1 + COUNTDOWN_WAIT);
      case Pace(last) => TimelyLater(ds, job.availableAt, last + MIN_GAP);
      case Deliver(tokens, replies) =>
        TimelyLater(ds, job.availableAt, work.t1);
        MaterializedTimely(ds, tokens, work.t1);
        var all := Materialized(ds, tokens, work.t1);
        TimelyLater(all, work.t1, work.t2);
        TimelyRound(job, all, replies, work.t2, cfg.delay);
        PutBackUntil(job, all, replies, work.t2, cfg.delay);
    } else {
      TimelyLater(ds, job.availableAt, work.t0 + cfg.presendRetry);
    }
  }

  lemma PutBackUntil(job: Job, ds: seq<Delivery>, replies: Replies, now: int, delay: int)
    ensures var job' := Round(job, ds, replies, now, delay).0; job'.Unfinished() ==> job'.availableAt == now + delay
  {
  }

  /** A start that waits keeps its deliveries due by its new time exactly when none is to be retried after it. */
  lemma RescheduleOnTimeIff(cfg: Config, s: Push, tx: Tx)
    requires AllOnTime(s) && Enabled(cfg, s, tx) && tx.Reschedule? && tx.id in s.jobs
    ensures OnTime(After(cfg, s.jobs[tx.id], s.ds[tx.id], tx, tx.id).0, s.ds[tx.id]) <==> MovesInTime(s, tx)
  {
    assert OnTime(s.jobs[tx.id], s.ds[tx.id]);
  }

  lemma AfterOnTime(cfg: Config, s: Push, tx: Tx, id: nat)
    requires Inv(s) && AllOnTime(s) && Enabled(cfg, s, tx) && MovesInTime(s, tx) && id in s.jobs
    ensures var (job', ds') := After(cfg, s.jobs[id], s.ds[id], tx, id); OnTime(job', ds')
  {
    var job, ds := s.jobs[id], s.ds[id];
    assert JobOk(job, ds) && OnTime(job, ds);
    match tx
    case Process(w, p, work) => if id == p && Mine(job, w) { TurnOnTime(cfg, s, id, work); }
    case Recover(ids, now) =>
      if id in ids { TimelyLater(ds, job.availableAt, now + Backoff(cfg.delay, job.attempts)); }
    case CrashHandled(c, now) =>
      if id == c && job.status.Processing? { TimelyLater(ds, job.availableAt, now + cfg.delay); }
    case SkipSynced(ids, tokens) => SkippingKeeps(ds, SkipTokens(ds, tokens));
    case Reschedule(r, _, _, _) => if id == r { RescheduleOnTimeIff(cfg, s, tx); }
    case _ =>
  }

  /** Only a schedule posted for an early time can leave a delivery due after its job. */
  lemma StepOnTimeIff(cfg: Config, s: Push, tx: Tx)
    requires Inv(s) && AllOnTime(s) && Enabled(cfg, s, tx)
    ensures AllOnTime(Next(cfg, s, tx)) <==> MovesInTime(s, tx)
  {
    var s' := Next(cfg, s, tx);
    if MovesInTime(s, tx) {
      forall id | id in s'.jobs ensures OnTime(s'.jobs[id], s'.ds[id]) {
        if !(tx.File? && id == tx.id) { AfterOnTime(cfg, s, tx, id); }
      }
    } else {
      RescheduleOnTimeIff(cfg, s, tx);
      assert !OnTime(s'.jobs[tx.id], s'.ds[tx.id]);
    }
  }

  /** While deliveries are on time, each delivery round tries every one still pending. */
  lemma RoundTriesAll(cfg: Config, s: Push, tx: Tx)
    requires Inv(s) && AllOnTime(s) && Enabled(cfg, s, tx) && tx.Process? && tx.work.plan.Deliver?
    requires Mine(s.jobs[tx.id], tx.worker) && LetThrough(cfg, s.jobs[tx.id], s.ds[tx.id], tx.work)
    ensures var all := Materialized(s.ds[tx.id], tx.work.plan.tokens, tx.work.t1);
            (forall d :: d in all && d.status.Waiting? ==> Tried(d, tx.work.t2)) && !Idle(all, tx.work.t2)
  {
    var job, ds := s.jobs[tx.id], s.ds[tx.id];
    assert JobOk(job, ds) && OnTime(job, ds);
    TimelyLater(ds, job.availableAt, tx.work.t1);
    MaterializedTimely(ds, tx.work.plan.tokens, tx.work.t1);
    var all := Materialized(ds, tx.work.plan.tokens, tx.work.t1);
    TimelyLater(all, tx.work.t1, tx.work.t2);
    TimelyRound(job, all, tx.work.plan.replies, tx.work.t2, cfg.delay);
  }
}
