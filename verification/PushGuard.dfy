/** Whole-run safety of the pre-send guard and of the pacing of sync triggers. */
module PushGuard {
  import opened Options
  import opened PushRounds
  import opened Presend
  import opened PushRuns
  import opened PushHistory
  import opened Spans

  /** What no transaction changes about a job: only starts and ends of activities are ever moved. */
  predicate SameJob(a: Job, b: Job) {
    && a.user == b.user && a.kind == b.kind && a.assignment == b.assignment
    && (a.kind.Reminder? || a.kind.SyncTrigger? ==> a.due == b.due && a.fireAt == b.fireAt)
  }

  lemma RoundSameJob(job: Job, ds: seq<Delivery>, replies: Replies, now: int, delay: int)
    ensures SameJob(job, Round(job, ds, replies, now, delay).0)
  {
  }

  lemma StaysSameJob(cfg: Config, s: Push, tx: Tx, id: nat)
    requires Enabled(cfg, s, tx) && id in s.jobs && id in s.ds
    ensures SameJob(s.jobs[id], After(cfg, s.jobs[id], s.ds[id], tx, id).0)
  {
    var job, ds := s.jobs[id], s.ds[id];
    if IsRound(cfg, s, tx, id) {
      RoundSameJob(job, Materialized(ds, tx.work.plan.tokens, tx.work.t1), tx.work.plan.replies, tx.work.t2, cfg.delay);
    }
  }

  /* ----- The first delivery of a guarded job ----- */

  /** Transaction `k` created the job's first deliveries, on a `Send` verdict and clear rows. */
  ghost predicate ClearedAt(cfg: Config, states: seq<Push>, txs: seq<Tx>, k: nat, id: nat)
    requires |states| == |txs| + 1
  {
    && k < |txs| && id in states[k].jobs && id in states[k].ds && states[k].ds[id] == []
    && IsRound(cfg, states[k], txs[k], id)
    && txs[k].work.check == Some(Send)
    && Clear(states[k].jobs[id], txs[k].work.facts, txs[k].work.t0, cfg.grace)
  }

  lemma OnlyRoundsDeliver(cfg: Config, s: Push, tx: Tx, id: nat)
    requires id in s.jobs && id in s.ds && s.ds[id] == [] && !IsRound(cfg, s, tx, id)
    ensures After(cfg, s.jobs[id], s.ds[id], tx, id).1 == []
  {
  }

  /** No reminder or countdown start reaches a device but by a send verdict on clear rows within the grace. */
  lemma {:induction false} FirstDeliveryIsCleared(cfg: Config, states: seq<Push>, txs: seq<Tx>, i: nat, id: nat)
    returns (k: nat)
    requires Run(cfg, states, txs) && i <= |txs| && id in states[i].jobs && id in states[i].ds
    requires Guarded(states[i].jobs[id]) && states[i].ds[id] != []
    ensures k < i && ClearedAt(cfg, states, txs, k, id) && SameJob(states[k].jobs[id], states[i].jobs[id])
  {
    k := 0;
    if i > 0 {
      StepOf(cfg, states, txs, i - 1);
      var s, tx := states[i - 1], txs[i - 1];
      StaysSameJob(cfg, s, tx, id);
      if s.ds[id] != [] {
        k := FirstDeliveryIsCleared(cfg, states, txs, i - 1, id);
      } else {
        k := i - 1;
        if !IsRound(cfg, s, tx, id) { OnlyRoundsDeliver(cfg, s, tx, id); }
        SendIsClear(s.jobs[id], tx.work.check.value, tx.work.facts, tx.work.t0, cfg.grace);
      }
    }
  }

  /** Nor by a turn that dies after it has sent. */
  lemma LostDeliveryIsCleared(cfg: Config, s: Push, tx: Tx)
    requires Enabled(cfg, s, tx) && tx.RolledBack? && Guarded(s.jobs[tx.id]) && s.ds[tx.id] == []
    ensures tx.work.check == Some(Send) && Clear(s.jobs[tx.id], tx.work.facts, tx.work.t0, cfg.grace)
  {
    SendIsClear(s.jobs[tx.id], tx.work.check.value, tx.work.facts, tx.work.t0, cfg.grace);
  }

  /* ----- Deferrals and the countdown wait are bounded ----- */

  /** The transaction gives the job a new fire time. */
  predicate Moves(cfg: Config, s: Push, tx: Tx, id: nat) {
    id in s.jobs && id in s.ds && After(cfg, s.jobs[id], s.ds[id], tx, id).0.fireAt != s.jobs[id].fireAt
  }

  lemma AvailableGrows(cfg: Config, s: Push, tx: Tx, id: nat)
    requires Inv(s) && Enabled(cfg, s, tx) && id in s.jobs && !Moves(cfg, s, tx, id)
    ensures s.jobs[id].availableAt <= After(cfg, s.jobs[id], s.ds[id], tx, id).0.availableAt
  {
    var job, ds := s.jobs[id], s.ds[id];
    assert JobOk(job, ds);
    if IsRound(cfg, s, tx, id) {
      RoundAvailable(job, Materialized(ds, tx.work.plan.tokens, tx.work.t1), tx.work.plan.replies, tx.work.t2,
          cfg.delay);
    }
  }

  lemma RoundAvailable(job: Job, ds: seq<Delivery>, replies: Replies, now: int, delay: nat)
    requires job.availableAt <= now
    ensures job.availableAt <= Round(job, ds, replies, now, delay).0.availableAt
  {
  }

  ghost predicate IsDeferral(cfg: Config, s: Push, tx: Tx, id: nat) {
    && tx.Process? && tx.id == id && id in s.jobs && id in s.ds && Mine(s.jobs[id], tx.worker) && tx.work.check.Some?
    && Ruling(s.jobs[id], tx.work.check.value, tx.work.facts, tx.work.t0, cfg.grace).Unverified?
    && tx.work.t0 < s.jobs[id].fireAt + cfg.grace
  }

  ghost predicate IsCountdownWait(cfg: Config, s: Push, tx: Tx, id: nat) {
    && tx.Process? && tx.id == id && id in s.jobs && id in s.ds && Mine(s.jobs[id], tx.worker)
    && LetThrough(cfg, s.jobs[id], s.ds[id], tx.work) && tx.work.plan.WaitForCountdown?
  }

  /** The job's deferrals since it was filed or last moved. */
  ghost function DeferralsOf(cfg: Config, states: seq<Push>, txs: seq<Tx>, i: nat, id: nat): nat
    requires |states| == |txs| + 1 && i <= |txs|
  {
    if i == 0 || Moves(cfg, states[i - 1], txs[i - 1], id) then 0
    else DeferralsOf(cfg, states, txs, i - 1, id) + if IsDeferral(cfg, states[i - 1], txs[i - 1], id) then 1 else 0
  }

  ghost function WaitsOf(cfg: Config, states: seq<Push>, txs: seq<Tx>, i: nat, id: nat): nat
    requires |states| == |txs| + 1 && i <= |txs|
  {
    if i == 0 then 0
    else WaitsOf(cfg, states, txs, i - 1, id) + if IsCountdownWait(cfg, states[i - 1], txs[i - 1], id) then 1 else 0
  }

  lemma {:induction false} NothingBefore(cfg: Config, states: seq<Push>, txs: seq<Tx>, i: nat, id: nat)
    requires Run(cfg, states, txs) && i <= |txs| && id !in states[i].jobs
    ensures DeferralsOf(cfg, states, txs, i, id) == 0 && WaitsOf(cfg, states, txs, i, id) == 0
  {
    if i > 0 {
      StepOf(cfg, states, txs, i - 1);
      NothingBefore(cfg, states, txs, i - 1, id);
    }
  }

  lemma DeferralMoves(cfg: Config, s: Push, tx: Tx, id: nat)
    requires Inv(s) && Enabled(cfg, s, tx) && IsDeferral(cfg, s, tx, id)
    ensures var after := After(cfg, s.jobs[id], s.ds[id], tx, id).0;
            && after.availableAt == tx.work.t0 + cfg.presendRetry && after.attempts == s.jobs[id].attempts
            && s.jobs[id].availableAt <= tx.work.t0 && s.jobs[id].fireAt <= tx.work.t0
  {
    assert JobOk(s.jobs[id], s.ds[id]);
  }

  /** A job deferred `n` times, no longer than `grace` past its fire time, has moved `n` retry intervals past it. */
  predicate Fits(cfg: Config, job: Job, n: nat) {
    n > 0 ==> job.fireAt + n * cfg.presendRetry <= job.availableAt && (n - 1) * cfg.presendRetry < cfg.grace
  }

  lemma OneMoreFits(cfg: Config, job: Job, after: Job, n: nat, now: int)
    requires Fits(cfg, job, n) && after.fireAt == job.fireAt && job.fireAt <= now && job.availableAt <= now
    requires now < job.fireAt + cfg.grace && after.availableAt == now + cfg.presendRetry
    ensures Fits(cfg, after, n + 1)
  {
    assert (n + 1) * cfg.presendRetry == n * cfg.presendRetry + cfg.presendRetry;
  }

  lemma DeferralFits(cfg: Config, s: Push, tx: Tx, id: nat, n: nat)
    requires Inv(s) && Enabled(cfg, s, tx) && id in s.jobs && !Moves(cfg, s, tx, id) && Fits(cfg, s.jobs[id], n)
    ensures Fits(cfg, After(cfg, s.jobs[id], s.ds[id], tx, id).0, if IsDeferral(cfg, s, tx, id) then n + 1 else n)
  {
    AvailableGrows(cfg, s, tx, id);
    if IsDeferral(cfg, s, tx, id) {
      DeferralMoves(cfg, s, tx, id);
      OneMoreFits(cfg, s.jobs[id], After(cfg, s.jobs[id], s.ds[id], tx, id).0, n, tx.work.t0);
    }
  }

  /** Deferrals fit in the grace: there are at most the grace over the retry interval, and one. */
  lemma {:induction false} DeferralsFitTheGrace(cfg: Config, states: seq<Push>, txs: seq<Tx>, i: nat, id: nat)
    requires Run(cfg, states, txs) && i <= |txs| && id in states[i].jobs
    ensures Fits(cfg, states[i].jobs[id], DeferralsOf(cfg, states, txs, i, id))
  {
    if i > 0 && !Moves(cfg, states[i - 1], txs[i - 1], id) {
      StepOf(cfg, states, txs, i - 1);
      if id in states[i - 1].jobs {
        DeferralsFitTheGrace(cfg, states, txs, i - 1, id);
        DeferralFits(cfg, states[i - 1], txs[i - 1], id, DeferralsOf(cfg, states, txs, i - 1, id));
      } else {
        NothingBefore(cfg, states, txs, i - 1, id);
      }
    }
  }

  lemma WaitMoves(cfg: Config, s: Push, tx: Tx, id: nat)
    requires Inv(s) && Enabled(cfg, s, tx) && IsCountdownWait(cfg, s, tx, id)
    ensures var after := After(cfg, s.jobs[id], s.ds[id], tx, id).0;
            && after.status.Pending? && after.attempts == s.jobs[id].attempts
            && s.jobs[id].availableAt < s.jobs[id].fireAt + COUNTDOWN_WAIT <= after.availableAt
            && after.availableAt + COUNTDOWN_WAIT < after.fireAt + cfg.grace
  {
    assert JobOk(s.jobs[id], s.ds[id]);
  }

  predicate WaitedFor(job: Job, n: nat) { n <= 1 && (n == 1 ==> job.fireAt + COUNTDOWN_WAIT <= job.availableAt) }

  lemma WaitStep(cfg: Config, s: Push, tx: Tx, id: nat, n: nat)
    requires Inv(s) && Enabled(cfg, s, tx) && id in s.jobs && s.jobs[id].kind.Reminder? && WaitedFor(s.jobs[id], n)
    ensures WaitedFor(After(cfg, s.jobs[id], s.ds[id], tx, id).0, if IsCountdownWait(cfg, s, tx, id) then n + 1 else n)
  {
    StaysSameJob(cfg, s, tx, id);
    AvailableGrows(cfg, s, tx, id);
    if IsCountdownWait(cfg, s, tx, id) { WaitMoves(cfg, s, tx, id); }
  }

  /** A reminder waits for its countdown at most once. */
  lemma {:induction false} WaitsOnce(cfg: Config, states: seq<Push>, txs: seq<Tx>, i: nat, id: nat)
    requires Run(cfg, states, txs) && i <= |txs| && id in states[i].jobs && states[i].jobs[id].kind.Reminder?
    ensures WaitedFor(states[i].jobs[id], WaitsOf(cfg, states, txs, i, id))
  {
    if i > 0 {
      StepOf(cfg, states, txs, i - 1);
      if id in states[i - 1].jobs {
        StaysSameJob(cfg, states[i - 1], txs[i - 1], id);
        WaitsOnce(cfg, states, txs, i - 1, id);
        WaitStep(cfg, states[i - 1], txs[i - 1], id, WaitsOf(cfg, states, txs, i - 1, id));
      } else {
        NothingBefore(cfg, states, txs, i - 1, id);
      }
    }
  }

  /* ----- Sync triggers ----- */

  /** A delivery of this trigger was recorded as sent. */
  predicate Reached(ds: seq<Delivery>) { exists d :: d in ds && d.status.Delivered? }

  predicate SentTimes(ds: seq<Delivery>) { forall d :: d in ds && d.status.Delivered? ==> d.sentAt.Some? }

  predicate WasSent(d: Delivery) { d.status.Delivered? && d.sentAt.Some? }

  ghost predicate Paced(s: Push, a: nat, b: nat)
    requires a in s.ds && b in s.ds
  {
    forall d, e :: d in s.ds[a] && e in s.ds[b] && WasSent(d) && WasSent(e) ==>
      Apart(d.sentAt.value, e.sentAt.value)
  }

  predicate Rivals(s: Push, a: nat, b: nat) {
    && a in s.jobs && b in s.jobs && a != b && s.jobs[a].user == s.jobs[b].user
    && s.jobs[a].kind == SyncTrigger(false) == s.jobs[b].kind
  }

  ghost predicate TimesOk(s: Push) {
    s.ds.Keys == s.jobs.Keys && forall id :: id in s.jobs ==> SentTimes(s.ds[id])
  }

  /** The sends of any two different unforced triggers of a user are at least `MIN_GAP` apart. */
  ghost predicate AllPaced(s: Push) {
    s.ds.Keys == s.jobs.Keys && forall a, b :: Rivals(s, a, b) ==> Paced(s, a, b)
  }

  /** A delivery sent by a turn was sent before, or by this turn's round at its clock. */
  lemma {:induction false} MaterializedSent(ds: seq<Delivery>, tokens: seq<nat>, now: int, d: Delivery)
    requires d in Materialized(ds, tokens, now) && !d.status.Waiting?
    ensures d in ds
    decreases tokens
  {
    if tokens != [] {
      var t := tokens[0];
      var more := if t in Tokens(ds) then ds else ds + [Delivery(t, Waiting, 0, DELIVERY_ATTEMPTS, now, None)];
      MaterializedSent(more, tokens[1..], now, d);
    }
  }

  lemma RoundSent(job: Job, ds: seq<Delivery>, replies: Replies, now: int, delay: int, d: Delivery)
    requires d in Round(job, ds, replies, now, delay).1 && d.status.Delivered?
    ensures d in ds || d.sentAt == Some(now)
  {
    var after := Sweep(ds, replies, now, delay);
    var ds' := Round(job, ds, replies, now, delay).1;
    var i :| 0 <= i < |ds'| && ds'[i] == d;
    assert ds' == after || ds' == GiveUp(after) || ds' == ds;
    if ds' != ds { assert ds'[i] == after[i] && (after[i] == ds[i] || after[i].sentAt == Some(now)); }
  }

  lemma SentBefore(cfg: Config, s: Push, tx: Tx, id: nat, d: Delivery)
    requires Enabled(cfg, s, tx) && id in s.jobs && id in s.ds
    requires d in After(cfg, s.jobs[id], s.ds[id], tx, id).1 && d.status.Delivered?
    ensures d in s.ds[id] || (IsRound(cfg, s, tx, id) && d.sentAt == Some(tx.work.t2))
  {
    var job, ds := s.jobs[id], s.ds[id];
    if IsRound(cfg, s, tx, id) {
      var all := Materialized(ds, tx.work.plan.tokens, tx.work.t1);
      RoundSent(job, all, tx.work.plan.replies, tx.work.t2, cfg.delay, d);
      if d in all { MaterializedSent(ds, tx.work.plan.tokens, tx.work.t1, d); }
    } else if tx.Process? && tx.id == id && Mine(job, tx.worker) && LetThrough(cfg, job, ds, tx.work)
        && tx.work.plan.Settle? {
      var i :| 0 <= i < |After(cfg, job, ds, tx, id).1| && After(cfg, job, ds, tx, id).1[i] == d;
      assert ds[i] in ds;
    }
  }

  /** `before` is the table at an earlier time. */
  ghost predicate Precedes(before: Push, s: Push) {
    forall id :: id in before.jobs ==> id in s.jobs && SameJob(before.jobs[id], s.jobs[id])
  }

  /** The pacing query of `tx` counts the send `e` of trigger `b`: it was recorded by then, and `b` was active. */
  predicate Counts(tx: Tx, b: nat, e: Delivery)
    requires tx.Process?
  {
    b in tx.work.seen.jobs && b in tx.work.seen.ds && Active(tx.work.seen.jobs[b]) && e in tx.work.seen.ds[b]
  }

  /** A recorded send of another unforced trigger of the user of `a`. */
  predicate RivalSend(s: Push, a: nat, b: nat, e: Delivery) {
    Rivals(s, a, b) && b in s.ds && e in s.ds[b] && WasSent(e)
  }

  lemma CountedIsClear(cfg: Config, s: Push, tx: Tx, a: nat, b: nat, e: Delivery)
    requires Enabled(cfg, s, tx) && IsRound(cfg, s, tx, a) && RivalSend(s, a, b, e) && Precedes(tx.work.seen, s)
    requires Counts(tx, b, e)
    ensures Apart(e.sentAt.value, tx.work.t2)
  {
    assert SameJob(tx.work.seen.jobs[b], s.jobs[b]);
    assert !RecentSend(tx.work.seen, a, tx.work.t1, e.sentAt.value);
  }

  /**
   A round keeps the gap from every rival's send exactly when it does from those its query does not count: of
   triggers failed or cancelled by then, or recorded only since.
   */
  lemma RoundIsPacedIff(cfg: Config, s: Push, tx: Tx, a: nat)
    requires Enabled(cfg, s, tx) && IsRound(cfg, s, tx, a) && Precedes(tx.work.seen, s)
    requires s.jobs[a].kind == SyncTrigger(false)
    ensures (forall b, e :: RivalSend(s, a, b, e) ==> Apart(e.sentAt.value, tx.work.t2)) <==>
            (forall b, e :: RivalSend(s, a, b, e) && !Counts(tx, b, e) ==> Apart(e.sentAt.value, tx.work.t2))
  {
    forall b, e | RivalSend(s, a, b, e) && Counts(tx, b, e) ensures Apart(e.sentAt.value, tx.work.t2) {
      CountedIsClear(cfg, s, tx, a, b, e);
    }
  }

  /** The transaction sends trigger `a` to a device. */
  ghost predicate Reaches(cfg: Config, s: Push, tx: Tx, a: nat) {
    && IsRound(cfg, s, tx, a)
    && exists d :: d in After(cfg, s.jobs[a], s.ds[a], tx, a).1 && d.status.Delivered? && d !in s.ds[a]
  }

  /** A trigger reaches a device within the gap of a send its query did not count. */
  ghost predicate Forgets(cfg: Config, s: Push, tx: Tx) {
    exists a, b, e :: Reaches(cfg, s, tx, a) && RivalSend(s, a, b, e) && !Counts(tx, b, e)
      && !Apart(e.sentAt.value, tx.work.t2)
  }

  lemma ReachKeepsGap(cfg: Config, s: Push, tx: Tx, a: nat, b: nat, e: Delivery)
    requires Enabled(cfg, s, tx) && Reaches(cfg, s, tx, a) && !Forgets(cfg, s, tx) && Precedes(tx.work.seen, s)
    requires RivalSend(s, a, b, e)
    ensures Apart(e.sentAt.value, tx.work.t2)
  {
    assert forall o, f :: RivalSend(s, a, o, f) && !Counts(tx, o, f) ==> Apart(f.sentAt.value, tx.work.t2);
    RoundIsPacedIff(cfg, s, tx, a);
  }

  ghost predicate ReadsEarlier(s: Push, tx: Tx) { tx.Process? ==> Precedes(tx.work.seen, s) }

  lemma RivalsPaced(cfg: Config, s: Push, tx: Tx, a: nat, b: nat)
    requires TimesOk(s) && AllPaced(s) && Enabled(cfg, s, tx) && ReadsEarlier(s, tx) && !Forgets(cfg, s, tx)
    requires a in s.jobs && b in s.jobs && Rivals(Next(cfg, s, tx), a, b)
    ensures var s' := Next(cfg, s, tx); a in s'.ds && b in s'.ds && Paced(s', a, b)
  {
    var s' := Next(cfg, s, tx);
    StaysSameJob(cfg, s, tx, a);
    StaysSameJob(cfg, s, tx, b);
    assert Rivals(s, a, b) && Rivals(s, b, a);
    forall d, e | d in s'.ds[a] && e in s'.ds[b] && WasSent(d) && WasSent(e)
      ensures Apart(d.sentAt.value, e.sentAt.value)
    {
      SentBefore(cfg, s, tx, a, d);
      SentBefore(cfg, s, tx, b, e);
      if d in s.ds[a] && e in s.ds[b] {
        assert Paced(s, a, b);
      } else if e in s.ds[b] {
        ReachKeepsGap(cfg, s, tx, a, b, e);
      } else {
        ReachKeepsGap(cfg, s, tx, b, a, d);
      }
    }
  }

  lemma ForgettingBreaksPace(cfg: Config, s: Push, tx: Tx)
    requires TimesOk(s) && Enabled(cfg, s, tx) && Forgets(cfg, s, tx)
    ensures !AllPaced(Next(cfg, s, tx))
  {
    var s' := Next(cfg, s, tx);
    var a, b, e :| Reaches(cfg, s, tx, a) && RivalSend(s, a, b, e) && !Counts(tx, b, e)
                   && !Apart(e.sentAt.value, tx.work.t2);
    var d :| d in After(cfg, s.jobs[a], s.ds[a], tx, a).1 && d.status.Delivered? && d !in s.ds[a];
    SentBefore(cfg, s, tx, a, d);
    StaysSameJob(cfg, s, tx, a);
    assert s'.ds[a] == After(cfg, s.jobs[a], s.ds[a], tx, a).1 && s'.ds[b] == s.ds[b] && s'.jobs[b] == s.jobs[b];
    assert Rivals(s', a, b) && !Apart(d.sentAt.value, e.sentAt.value);
    assert !Paced(s', a, b);
  }

  lemma TimesStay(cfg: Config, s: Push, tx: Tx)
    requires TimesOk(s) && Inv(s) && Enabled(cfg, s, tx)
    ensures TimesOk(Next(cfg, s, tx))
  {
    var s' := Next(cfg, s, tx);
    forall id, d | id in s'.jobs && d in s'.ds[id] && d.status.Delivered? ensures d.sentAt.Some? {
      if id in s.jobs {
        SentBefore(cfg, s, tx, id, d);
        assert SentTimes(s.ds[id]);
      }
    }
  }

  lemma {:induction false} RunTimes(cfg: Config, states: seq<Push>, txs: seq<Tx>, i: nat)
    requires Run(cfg, states, txs) && i < |states|
    ensures TimesOk(states[i])
  {
    if i > 0 {
      RunTimes(cfg, states, txs, i - 1);
      StepOf(cfg, states, txs, i - 1);
      TimesStay(cfg, states[i - 1], txs[i - 1]);
    }
  }

  /** A transaction breaks the pacing exactly when it forgets a send. */
  lemma StepIsPacedIff(cfg: Config, s: Push, tx: Tx)
    requires TimesOk(s) && AllPaced(s) && Inv(s) && Enabled(cfg, s, tx) && ReadsEarlier(s, tx)
    ensures AllPaced(Next(cfg, s, tx)) <==> !Forgets(cfg, s, tx)
  {
    if Forgets(cfg, s, tx) {
      ForgettingBreaksPace(cfg, s, tx);
    } else {
      var s' := Next(cfg, s, tx);
      forall a, b | Rivals(s', a, b) ensures Paced(s', a, b) {
        if a in s.jobs && b in s.jobs { RivalsPaced(cfg, s, tx, a, b); }
      }
    }
  }

  lemma {:induction false} RunPrecedes(cfg: Config, states: seq<Push>, txs: seq<Tx>, j: nat, i: nat)
    requires Run(cfg, states, txs) && j <= i < |states|
    ensures Precedes(states[j], states[i])
    decreases i - j
  {
    if j < i {
      RunPrecedes(cfg, states, txs, j, i - 1);
      StepOf(cfg, states, txs, i - 1);
      forall id | id in states[j].jobs ensures id in states[i].jobs && SameJob(states[j].jobs[id], states[i].jobs[id]) {
        StaysSameJob(cfg, states[i - 1], txs[i - 1], id);
      }
    }
  }

  lemma RunReadsEarlier(cfg: Config, states: seq<Push>, txs: seq<Tx>, i: nat)
    requires Run(cfg, states, txs) && i < |txs|
    ensures ReadsEarlier(states[i], txs[i])
  {
    assert Stepped(cfg, states, txs, i);
    if txs[i].Process? {
      var j :| 0 <= j <= i && states[j] == txs[i].work.seen;
      RunPrecedes(cfg, states, txs, j, i);
    }
  }

  /** What was sent too close stays so. */
  lemma UnpacedStays(cfg: Config, states: seq<Push>, txs: seq<Tx>, i: nat)
    requires Run(cfg, states, txs) && i < |txs| && !AllPaced(states[i])
    ensures !AllPaced(states[i + 1])
  {
    StepOf(cfg, states, txs, i);
    var s, s' := states[i], states[i + 1];
    var a, b :| Rivals(s, a, b) && !Paced(s, a, b);
    var d, e :| d in s.ds[a] && e in s.ds[b] && WasSent(d) && WasSent(e)
                && !Apart(d.sentAt.value, e.sentAt.value);
    StaysSameJob(cfg, s, txs[i], a);
    StaysSameJob(cfg, s, txs[i], b);
    DeliveredKept(cfg, s.jobs[a], s.ds[a], txs[i], a, d);
    DeliveredKept(cfg, s.jobs[b], s.ds[b], txs[i], b, e);
    assert Rivals(s', a, b) && !Paced(s', a, b);
  }

  ghost predicate ForgetsAt(cfg: Config, states: seq<Push>, txs: seq<Tx>, k: nat)
    requires k < |txs| <= |states|
  {
    Forgets(cfg, states[k], txs[k])
  }

  /** None of the first `i` transactions forgets a send. */
  ghost predicate NoneForgets(cfg: Config, states: seq<Push>, txs: seq<Tx>, i: nat)
    requires i <= |txs| <= |states|
  {
    i == 0 || (NoneForgets(cfg, states, txs, i - 1) && !ForgetsAt(cfg, states, txs, i - 1))
  }

  lemma {:induction false} NoneForgetsMeans(cfg: Config, states: seq<Push>, txs: seq<Tx>, i: nat)
    requires i <= |txs| <= |states|
    ensures NoneForgets(cfg, states, txs, i) <==> forall k :: 0 <= k < i ==> !ForgetsAt(cfg, states, txs, k)
  {
    if i > 0 { NoneForgetsMeans(cfg, states, txs, i - 1); }
  }

  /**
   Over any run, whatever fails, is cancelled or overlaps, recorded sends of two different unforced triggers of a
   user are at least `MIN_GAP` apart exactly when no trigger reached a device within the gap of a send that its
   query did not count.
   */
  lemma {:induction false} PacedIffNoneForgotten(cfg: Config, states: seq<Push>, txs: seq<Tx>, i: nat)
    requires Run(cfg, states, txs) && i < |states|
    ensures AllPaced(states[i]) <==> NoneForgets(cfg, states, txs, i)
  {
    if i == 0 {
      EmptyIsPaced(states[0]);
    } else {
      PacedIffNoneForgotten(cfg, states, txs, i - 1);
      StepOfRunIsPacedIff(cfg, states, txs, i - 1);
    }
  }

  lemma EmptyIsPaced(s: Push)
    requires s.jobs == map[] && s.ds == map[]
    ensures AllPaced(s)
  {
  }

  lemma StepOfRunIsPacedIff(cfg: Config, states: seq<Push>, txs: seq<Tx>, k: nat)
    requires Run(cfg, states, txs) && k < |txs|
    ensures AllPaced(states[k + 1]) <==> AllPaced(states[k]) && !ForgetsAt(cfg, states, txs, k)
  {
    if AllPaced(states[k]) {
      StepOf(cfg, states, txs, k);
      RunTimes(cfg, states, txs, k);
      RunReadsEarlier(cfg, states, txs, k);
      StepIsPacedIff(cfg, states[k], txs[k]);
    } else {
      UnpacedStays(cfg, states, txs, k);
    }
  }

  /* ----- While turns do not overlap and no trigger that reached a device is failed or cancelled ----- */

  predicate ReachedTrigger(s: Push, b: nat) {
    b in s.jobs && b in s.ds && s.jobs[b].kind.SyncTrigger? && Reached(s.ds[b])
  }

  /** No other trigger's send is recorded between the turn's read and its commit. */
  ghost predicate ReadsLast(s: Push, tx: Tx) {
    tx.Process? ==> forall b :: ReachedTrigger(s, b) && b != tx.id ==>
      b in tx.work.seen.jobs && b in tx.work.seen.ds && tx.work.seen.ds[b] == s.ds[b]
      && (Active(s.jobs[b]) ==> Active(tx.work.seen.jobs[b]))
  }

  ghost predicate KeepsTriggers(cfg: Config, s: Push, tx: Tx) {
    forall id :: id in s.jobs && id in s.ds && s.jobs[id].kind.SyncTrigger? && Reached(s.ds[id]) ==>
      Active(After(cfg, s.jobs[id], s.ds[id], tx, id).0)
  }

  ghost predicate ReachedAreActive(s: Push) {
    forall id :: id in s.jobs && id in s.ds && s.jobs[id].kind.SyncTrigger? && Reached(s.ds[id]) ==> Active(s.jobs[id])
  }

  lemma TriggerStaysActive(cfg: Config, s: Push, tx: Tx, id: nat)
    requires Inv(s) && Enabled(cfg, s, tx) && KeepsTriggers(cfg, s, tx)
    requires id in s.jobs && s.jobs[id].kind.SyncTrigger?
    requires Reached(After(cfg, s.jobs[id], s.ds[id], tx, id).1)
    ensures Active(After(cfg, s.jobs[id], s.ds[id], tx, id).0)
  {
    var job, ds := s.jobs[id], s.ds[id];
    var d :| d in After(cfg, job, ds, tx, id).1 && d.status.Delivered?;
    SentBefore(cfg, s, tx, id, d);
    if IsRound(cfg, s, tx, id) {
      assert JobOk(job, ds);
      TurnDelivers(cfg, job, ds, tx.work);
    } else {
      assert Reached(ds);
    }
  }

  lemma {:induction false} ReachedStayActive(cfg: Config, states: seq<Push>, txs: seq<Tx>, i: nat)
    requires Run(cfg, states, txs) && i < |states| && forall k :: 0 <= k < i ==> KeepsTriggers(cfg, states[k], txs[k])
    ensures ReachedAreActive(states[i])
  {
    if i > 0 {
      StepOf(cfg, states, txs, i - 1);
      var s, tx, s' := states[i - 1], txs[i - 1], states[i];
      forall id | id in s'.jobs && id in s'.ds && s'.jobs[id].kind.SyncTrigger? && Reached(s'.ds[id])
        ensures Active(s'.jobs[id])
      {
        if id in s.jobs {
          StaysSameJob(cfg, s, tx, id);
          TriggerStaysActive(cfg, s, tx, id);
        }
      }
    }
  }

  lemma ActiveAreNotForgotten(cfg: Config, s: Push, tx: Tx)
    requires ReachedAreActive(s) && ReadsLast(s, tx)
    ensures !Forgets(cfg, s, tx)
  {
    forall a, b, e | Reaches(cfg, s, tx, a) && RivalSend(s, a, b, e) ensures Counts(tx, b, e) {
      assert ReachedTrigger(s, b) && Active(s.jobs[b]) && b != tx.id;
    }
  }

  /**
   In particular while each turn sees the triggers sent before it commits, and every trigger that reached a device
   stays waiting, going out or sent.
   */
  lemma TriggersArePaced(cfg: Config, states: seq<Push>, txs: seq<Tx>, i: nat)
    requires Run(cfg, states, txs) && i < |states|
    requires forall k :: 0 <= k < i ==> KeepsTriggers(cfg, states[k], txs[k]) && ReadsLast(states[k], txs[k])
    ensures AllPaced(states[i])
  {
    forall k | 0 <= k < i ensures !ForgetsAt(cfg, states, txs, k) {
      ReachedStayActive(cfg, states, txs, k);
      ActiveAreNotForgotten(cfg, states[k], txs[k]);
    }
    NoneForgetsMeans(cfg, states, txs, i);
    PacedIffNoneForgotten(cfg, states, txs, i);
  }
}
