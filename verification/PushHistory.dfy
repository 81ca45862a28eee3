/** What holds over whole runs of the push pipeline. */
module PushHistory {
  import opened Options
  import opened PushRounds
  import opened PushRuns

  ghost predicate Run(cfg: Config, states: seq<Push>, txs: seq<Tx>) {
    && |states| == |txs| + 1
    && states[0].jobs == map[] && states[0].ds == map[]
    && forall i :: 0 <= i < |txs| ==> Stepped(cfg, states, txs, i)
  }

  ghost predicate Stepped(cfg: Config, states: seq<Push>, txs: seq<Tx>, i: nat)
    requires i < |txs| < |states|
  {
    && Enabled(cfg, states[i], txs[i]) && states[i + 1] == Next(cfg, states[i], txs[i])
    && (txs[i].Process? || txs[i].RolledBack? ==> ReadAt(states, txs[i].work.seen, i))
  }

  /** What a turn saw is the table as committed at some time before it commits itself. */
  ghost predicate ReadAt(states: seq<Push>, seen: Push, i: nat)
    requires i < |states|
  {
    exists j :: 0 <= j <= i && states[j] == seen
  }

  /** The table is in order in every reachable state. */
  lemma {:induction false} RunKeeps(cfg: Config, states: seq<Push>, txs: seq<Tx>, i: nat)
    requires Run(cfg, states, txs) && i < |states|
    ensures Inv(states[i])
  {
    if i > 0 {
      RunKeeps(cfg, states, txs, i - 1);
      assert Stepped(cfg, states, txs, i - 1);
      StepKeeps(cfg, states[i - 1], txs[i - 1]);
    }
  }

  /** While every posted schedule moves in time, each pending delivery comes due no later than its job. */
  lemma {:induction false} RunOnTime(cfg: Config, states: seq<Push>, txs: seq<Tx>, i: nat)
    requires Run(cfg, states, txs) && i < |states| && forall k :: 0 <= k < i ==> MovesInTime(states[k], txs[k])
    ensures AllOnTime(states[i])
  {
    if i > 0 {
      RunOnTime(cfg, states, txs, i - 1);
      RunKeeps(cfg, states, txs, i - 1);
      assert Stepped(cfg, states, txs, i - 1);
      StepOnTimeIff(cfg, states[i - 1], txs[i - 1]);
    }
  }

  lemma StepOf(cfg: Config, states: seq<Push>, txs: seq<Tx>, i: nat)
    requires Run(cfg, states, txs) && i < |txs|
    ensures Inv(states[i]) && Enabled(cfg, states[i], txs[i]) && states[i + 1] == Next(cfg, states[i], txs[i])
    ensures states[i].jobs.Keys <= states[i + 1].jobs.Keys
    ensures states[i].ds.Keys == states[i].jobs.Keys && states[i + 1].ds.Keys == states[i + 1].jobs.Keys
    ensures forall id :: id in states[i].jobs ==>
              (states[i + 1].jobs[id], states[i + 1].ds[id]) ==
                  After(cfg, states[i].jobs[id], states[i].ds[id], txs[i], id)
  {
    assert Stepped(cfg, states, txs, i);
    RunKeeps(cfg, states, txs, i);
    RunKeeps(cfg, states, txs, i + 1);
  }

  lemma {:induction false} JobsStay(cfg: Config, states: seq<Push>, txs: seq<Tx>, i: nat, j: nat)
    requires Run(cfg, states, txs) && i <= j < |states|
    ensures states[i].jobs.Keys <= states[j].jobs.Keys
    decreases j - i
  {
    if i < j {
      JobsStay(cfg, states, txs, i, j - 1);
      StepOf(cfg, states, txs, j - 1);
    }
  }

  /* ----- Claims ----- */

  /** Whatever changes a claimed job ends its claim. */
  lemma ChangeEndsClaim(cfg: Config, s: Push, tx: Tx, id: nat)
    requires Inv(s) && Enabled(cfg, s, tx) && !tx.SkipSynced? && id in s.jobs && s.jobs[id].status.Processing?
    requires After(cfg, s.jobs[id], s.ds[id], tx, id) != (s.jobs[id], s.ds[id])
    ensures !After(cfg, s.jobs[id], s.ds[id], tx, id).0.status.Processing?
  {
    if tx.Process? && tx.id == id && Mine(s.jobs[id], tx.worker) { TurnKeeps(cfg, s, id, tx.work); }
  }

  lemma OnlyClaimsClaim(cfg: Config, s: Push, tx: Tx, id: nat)
    requires Inv(s) && Enabled(cfg, s, tx) && id in s.jobs && !s.jobs[id].status.Processing?
    requires After(cfg, s.jobs[id], s.ds[id], tx, id).0.status.Processing?
    ensures tx.Claim? && id in tx.ids && s.jobs[id].status.Pending?
  {
  }

  /** The transaction changes a claimed job, or its deliveries otherwise than by skipping them. */
  ghost predicate ActsOn(states: seq<Push>, txs: seq<Tx>, i: nat, id: nat)
    requires |states| == |txs| + 1
  {
    && i < |txs| && !txs[i].SkipSynced? && id in states[i].jobs && states[i].jobs[id].status.Processing?
    && id in states[i + 1].jobs && id in states[i].ds && id in states[i + 1].ds
    && (states[i + 1].jobs[id], states[i + 1].ds[id]) != (states[i].jobs[id], states[i].ds[id])
  }

  lemma {:induction false} ClaimBetween(cfg: Config, states: seq<Push>, txs: seq<Tx>, i: nat, j: nat, id: nat)
    returns (k: nat)
    requires Run(cfg, states, txs) && i <= j < |states| && id in states[i].jobs && id in states[j].jobs
    requires !states[i].jobs[id].status.Processing? && states[j].jobs[id].status.Processing?
    ensures i <= k < j && txs[k].Claim? && id in txs[k].ids
    decreases j - i
  {
    StepOf(cfg, states, txs, j - 1);
    JobsStay(cfg, states, txs, i, j - 1);
    if states[j - 1].jobs[id].status.Processing? {
      k := ClaimBetween(cfg, states, txs, i, j - 1, id);
    } else {
      OnlyClaimsClaim(cfg, states[j - 1], txs[j - 1], id);
      k := j - 1;
    }
  }

  /** At most one transaction acts on each claim, whichever tick took it and under whichever worker id. */
  lemma OneActPerClaim(cfg: Config, states: seq<Push>, txs: seq<Tx>, i: nat, j: nat, id: nat) returns (k: nat)
    requires Run(cfg, states, txs) && i < j && ActsOn(states, txs, i, id) && ActsOn(states, txs, j, id)
    ensures i < k < j && txs[k].Claim? && id in txs[k].ids
  {
    StepOf(cfg, states, txs, i);
    ChangeEndsClaim(cfg, states[i], txs[i], id);
    k := ClaimBetween(cfg, states, txs, i + 1, j, id);
  }

  /* ----- Finished work stays finished ----- */

  lemma FinishedStays(cfg: Config, s: Push, tx: Tx, id: nat)
    requires Inv(s) && Enabled(cfg, s, tx) && id in s.jobs && !s.jobs[id].Unfinished()
    ensures After(cfg, s.jobs[id], s.ds[id], tx, id) == (s.jobs[id], s.ds[id])
  {
  }

  /** A settled job is never touched again, so what its deliveries dictated stands. */
  lemma {:induction false} SettledForGood(cfg: Config, states: seq<Push>, txs: seq<Tx>, i: nat, j: nat, id: nat)
    requires Run(cfg, states, txs) && i <= j < |states| && id in states[i].jobs && !states[i].jobs[id].Unfinished()
    ensures id in states[j].jobs && id in states[i].ds && id in states[j].ds
    ensures states[j].jobs[id] == states[i].jobs[id] && states[j].ds[id] == states[i].ds[id]
    ensures StatusFits(states[j].jobs[id], states[j].ds[id])
    decreases j - i
  {
    RunKeeps(cfg, states, txs, i);
    assert JobOk(states[i].jobs[id], states[i].ds[id]);
    if i < j {
      SettledForGood(cfg, states, txs, i, j - 1, id);
      StepOf(cfg, states, txs, j - 1);
      FinishedStays(cfg, states[j - 1], txs[j - 1], id);
    }
  }

  lemma {:induction false} MaterializedPrefix(ds: seq<Delivery>, tokens: seq<nat>, now: int)
    ensures ds <= Materialized(ds, tokens, now)
    decreases tokens
  {
    if tokens != [] {
      var t := tokens[0];
      MaterializedPrefix(if t in Tokens(ds) then ds
          else ds + [Delivery(t, Waiting, 0, DELIVERY_ATTEMPTS, now, None)], tokens[1..], now);
    }
  }

  lemma DeliveredKept(cfg: Config, job: Job, ds: seq<Delivery>, tx: Tx, id: nat, d: Delivery)
    requires d in ds && d.status.Delivered?
    ensures d in After(cfg, job, ds, tx, id).1
  {
    var i :| 0 <= i < |ds| && ds[i] == d;
    if tx.SkipSynced? {
      assert SkipTokens(ds, tx.tokens)[i] == d;
    } else if tx.Process? && tx.id == id && Mine(job, tx.worker) && LetThrough(cfg, job, ds, tx.work) {
      if tx.work.plan.Deliver? {
        var all := Materialized(ds, tx.work.plan.tokens, tx.work.t1);
        MaterializedPrefix(ds, tx.work.plan.tokens, tx.work.t1);
        assert all[i] == d;
        FinishedUntouched(job, all, tx.work.plan.replies, tx.work.t2, cfg.delay, i);
        assert Round(job, all, tx.work.plan.replies, tx.work.t2, cfg.delay).1[i] == d;
      } else {
        assert SkipPending(ds)[i] == d;
      }
    }
  }

  lemma {:induction false} DeliveredStays(cfg: Config, states: seq<Push>, txs: seq<Tx>, i: nat, j: nat, id: nat,
      d: Delivery)
    requires Run(cfg, states, txs) && i <= j < |states| && id in states[i].ds && d in states[i].ds[id]
        && d.status.Delivered?
    ensures id in states[j].ds && id in states[j].jobs && d in states[j].ds[id]
    decreases j - i
  {
    RunKeeps(cfg, states, txs, j);
    if i < j {
      DeliveredStays(cfg, states, txs, i, j - 1, id, d);
      StepOf(cfg, states, txs, j - 1);
      DeliveredKept(cfg, states[j - 1].jobs[id], states[j - 1].ds[id], txs[j - 1], id, d);
    }
  }

  /** The tokens sent to in going through the first `n` deliveries of a turn. */
  function SentTo(ds: seq<Delivery>, work: Work, n: nat): set<nat>
    requires work.plan.Deliver?
  {
    var all := Materialized(ds, work.plan.tokens, work.t1);
    set i | 0 <= i < |all| && i < n && Tried(all[i], work.t2) :: all[i].token
  }

  lemma SentToSkipsDelivered(ds: seq<Delivery>, work: Work, n: nat, d: Delivery)
    requires work.plan.Deliver? && Unique(ds) && d in ds && !d.status.Waiting?
    ensures d.token !in SentTo(ds, work, n)
  {
    var all := Materialized(ds, work.plan.tokens, work.t1);
    MaterializedUnique(ds, work.plan.tokens, work.t1);
    MaterializedPrefix(ds, work.plan.tokens, work.t1);
    var k :| 0 <= k < |ds| && ds[k] == d;
    assert all[k] == d;
  }

  /** A delivery recorded as sent is sent to by no later turn, neither one that commits nor one that dies on the way. */
  lemma SentIsNeverSentAgain(cfg: Config, states: seq<Push>, txs: seq<Tx>, i: nat, j: nat, id: nat, d: Delivery)
    requires Run(cfg, states, txs) && i <= j < |txs|
    requires id in states[i].ds && d in states[i].ds[id] && d.status.Delivered?
    requires (txs[j].Process? || txs[j].RolledBack?) && txs[j].id == id && txs[j].work.plan.Deliver?
    ensures id in states[j].ds && forall n: nat :: d.token !in SentTo(states[j].ds[id], txs[j].work, n)
  {
    DeliveredStays(cfg, states, txs, i, j, id, d);
    StepOf(cfg, states, txs, j);
    assert JobOk(states[j].jobs[id], states[j].ds[id]);
    forall n: nat ensures d.token !in SentTo(states[j].ds[id], txs[j].work, n) {
      SentToSkipsDelivered(states[j].ds[id], txs[j].work, n, d);
    }
  }

  lemma {:induction false} MaterializedUnique(ds: seq<Delivery>, tokens: seq<nat>, now: int)
    requires Unique(ds)
    ensures Unique(Materialized(ds, tokens, now))
    decreases tokens
  {
    if tokens != [] {
      var t := tokens[0];
      var more := if t in Tokens(ds) then ds else ds + [Delivery(t, Waiting, 0, DELIVERY_ATTEMPTS, now, None)];
      forall i, j | 0 <= i < j < |more| ensures more[i].token != more[j].token {
        if j == |ds| { assert ds[i] in ds; }
      }
      MaterializedUnique(more, tokens[1..], now);
    }
  }

  /** A turn's deliveries: those there were, and one for each further token, due at once. */
  lemma {:induction false} MaterializedSays(ds: seq<Delivery>, tokens: seq<nat>, now: int)
    ensures var all := Materialized(ds, tokens, now);
            && (forall t :: t in Tokens(all) <==> t in Tokens(ds) || t in tokens)
            && (forall d :: d in all && d !in ds ==>
                d == Delivery(d.token, Waiting, 0, 3, now, None) && d.token !in Tokens(ds))
    decreases tokens
  {
    if tokens != [] {
      var t := tokens[0];
      var more := if t in Tokens(ds) then ds else ds + [Delivery(t, Waiting, 0, DELIVERY_ATTEMPTS, now, None)];
      MaterializedSays(more, tokens[1..], now);
      assert forall x :: x in tokens <==> x == t || x in tokens[1..];
      assert forall x :: x in Tokens(more) <==> x in Tokens(ds) || x == t;
    }
  }

  /** Transaction `k` tried the delivery `d` of job `id`, and the provider accepted it. */
  ghost predicate AcceptedAt(cfg: Config, states: seq<Push>, txs: seq<Tx>, k: nat, id: nat, d: Delivery)
    requires |states| == |txs| + 1
  {
    && k < |txs| && IsRound(cfg, states[k], txs[k], id) && d.sentAt == Some(txs[k].work.t2)
    && txs[k].work.plan.replies(d.token) == Accepted
    && d.token in SentTo(states[k].ds[id], txs[k].work,
        |Materialized(states[k].ds[id], txs[k].work.plan.tokens, txs[k].work.t1)|)
  }

  lemma RoundDelivers(cfg: Config, s: Push, tx: Tx, id: nat, d: Delivery)
    requires IsRound(cfg, s, tx, id) && d in After(cfg, s.jobs[id], s.ds[id], tx, id).1 && d.status.Delivered?
        && d !in s.ds[id]
    ensures var all := Materialized(s.ds[id], tx.work.plan.tokens, tx.work.t1);
            && d.sentAt == Some(tx.work.t2) && tx.work.plan.replies(d.token) == Accepted
            && d.token in SentTo(s.ds[id], tx.work, |all|)
  {
    var all := Materialized(s.ds[id], tx.work.plan.tokens, tx.work.t1);
    var after := Round(s.jobs[id], all, tx.work.plan.replies, tx.work.t2, cfg.delay).1;
    var i :| 0 <= i < |after| && after[i] == d;
    RoundTokens(s.jobs[id], all, tx.work.plan.replies, tx.work.t2, cfg.delay);
    RoundAnswers(s.jobs[id], all, tx.work.plan.replies, tx.work.t2, cfg.delay, i);
    MaterializedSays(s.ds[id], tx.work.plan.tokens, tx.work.t1);
    assert all[i] in all;
  }

  lemma OnlyRoundsSend(cfg: Config, s: Push, tx: Tx, id: nat, d: Delivery)
    requires id in s.jobs && id in s.ds && !IsRound(cfg, s, tx, id)
    requires d in After(cfg, s.jobs[id], s.ds[id], tx, id).1 && d.status.Delivered?
    ensures d in s.ds[id]
  {
    var job, ds := s.jobs[id], s.ds[id];
    var i :| 0 <= i < |After(cfg, job, ds, tx, id).1| && After(cfg, job, ds, tx, id).1[i] == d;
    assert i < |ds| ==> ds[i] in ds;
  }

  /** Every delivery recorded as sent was tried by a committed round, to which the provider answered that it took it. */
  lemma {:induction false} DeliveredWasAccepted(cfg: Config, states: seq<Push>, txs: seq<Tx>, i: nat, id: nat,
      d: Delivery)
      returns (k: nat)
    requires Run(cfg, states, txs) && i < |states| && id in states[i].ds && d in states[i].ds[id] && d.status.Delivered?
    ensures k < i && AcceptedAt(cfg, states, txs, k, id, d)
  {
    RunKeeps(cfg, states, txs, i);
    k := 0;
    if i > 0 {
      StepOf(cfg, states, txs, i - 1);
      var s, tx := states[i - 1], txs[i - 1];
      if id in s.jobs && d in s.ds[id] {
        k := DeliveredWasAccepted(cfg, states, txs, i - 1, id, d);
      } else {
        k := i - 1;
        if id in s.jobs {
          if !IsRound(cfg, s, tx, id) { OnlyRoundsSend(cfg, s, tx, id, d); }
          RoundDelivers(cfg, s, tx, id, d);
        }
      }
    }
  }

  /* ----- Rounds are bounded ----- */

  ghost predicate IsRound(cfg: Config, s: Push, tx: Tx, id: nat) {
    && tx.Process? && tx.id == id && id in s.jobs && id in s.ds && Mine(s.jobs[id], tx.worker)
    && LetThrough(cfg, s.jobs[id], s.ds[id], tx.work) && tx.work.plan.Deliver?
  }

  /** A round that tries nothing though deliveries are pending. */
  ghost predicate IsIdle(cfg: Config, s: Push, tx: Tx, id: nat) {
    IsRound(cfg, s, tx, id) && Idle(Materialized(s.ds[id], tx.work.plan.tokens, tx.work.t1), tx.work.t2)
  }

  /** The committed rounds of a job so far that were not idle. */
  ghost function RoundsOf(cfg: Config, states: seq<Push>, txs: seq<Tx>, i: nat, id: nat): nat
    requires |states| == |txs| + 1 && i <= |txs|
  {
    if i == 0 then 0
    else
      var (s, tx) := (states[i - 1], txs[i - 1]);
      RoundsOf(cfg, states, txs, i - 1, id) + if IsRound(cfg, s, tx, id) && !IsIdle(cfg, s, tx, id) then 1 else 0
  }

  lemma {:induction false} NoRoundsBefore(cfg: Config, states: seq<Push>, txs: seq<Tx>, i: nat, id: nat)
    requires Run(cfg, states, txs) && i <= |txs| && id !in states[i].jobs
    ensures RoundsOf(cfg, states, txs, i, id) == 0
  {
    if i > 0 {
      StepOf(cfg, states, txs, i - 1);
      NoRoundsBefore(cfg, states, txs, i - 1, id);
    }
  }

  lemma RoundAttempts(job: Job, ds: seq<Delivery>, replies: Replies, now: int, delay: int)
    ensures var after := Round(job, ds, replies, now, delay).0;
            after.maxAttempts == job.maxAttempts && job.attempts <= after.attempts
  {
  }

  lemma QuietAttempts(cfg: Config, job: Job, ds: seq<Delivery>, tx: Tx, id: nat)
    requires !(tx.Process? && tx.id == id && Mine(job, tx.worker) && LetThrough(cfg, job, ds, tx.work)
        && tx.work.plan.Deliver?)
    ensures var after := After(cfg, job, ds, tx, id).0;
            after.maxAttempts == job.maxAttempts && job.attempts <= after.attempts
  {
  }

  lemma AttemptsGrow(cfg: Config, s: Push, tx: Tx, id: nat)
    requires Inv(s) && Enabled(cfg, s, tx) && id in s.jobs
    ensures var (job, after) := (s.jobs[id], After(cfg, s.jobs[id], s.ds[id], tx, id).0);
            && after.maxAttempts == job.maxAttempts && job.attempts <= after.attempts
            && (IsRound(cfg, s, tx, id) ==> job.attempts < job.maxAttempts)
            && (IsRound(cfg, s, tx, id) && !IsIdle(cfg, s, tx, id) && after.Unfinished() ==>
                after.attempts == job.attempts + 1)
  {
    var job, ds := s.jobs[id], s.ds[id];
    assert JobOk(job, ds);
    if IsRound(cfg, s, tx, id) {
      TurnDelivers(cfg, job, ds, tx.work);
      RoundAttempts(job, Materialized(ds, tx.work.plan.tokens, tx.work.t1), tx.work.plan.replies, tx.work.t2,
          cfg.delay);
    } else {
      QuietAttempts(cfg, job, ds, tx, id);
    }
  }

  /** A job is through within `maxAttempts` committed rounds that are not idle, however the ticks interleave. */
  lemma {:induction false} RoundsAreBounded(cfg: Config, states: seq<Push>, txs: seq<Tx>, i: nat, id: nat)
    requires Run(cfg, states, txs) && i <= |txs| && id in states[i].jobs
    ensures var job := states[i].jobs[id];
            && RoundsOf(cfg, states, txs, i, id) <= job.maxAttempts
            && (job.Unfinished() ==> RoundsOf(cfg, states, txs, i, id) <= job.attempts < job.maxAttempts)
  {
    RunKeeps(cfg, states, txs, i);
    assert JobOk(states[i].jobs[id], states[i].ds[id]);
    if i > 0 {
      StepOf(cfg, states, txs, i - 1);
      if id in states[i - 1].jobs {
        RoundsAreBounded(cfg, states, txs, i - 1, id);
        AttemptsGrow(cfg, states[i - 1], txs[i - 1], id);
        if !states[i - 1].jobs[id].Unfinished() { FinishedStays(cfg, states[i - 1], txs[i - 1], id); }
      } else {
        NoRoundsBefore(cfg, states, txs, i - 1, id);
      }
    }
  }

  /** While every posted schedule moves in time, no round is idle: each tries every pending delivery. */
  lemma NoRoundIsIdle(cfg: Config, states: seq<Push>, txs: seq<Tx>, i: nat, id: nat)
    requires Run(cfg, states, txs) && i < |txs| && forall k :: 0 <= k < i ==> MovesInTime(states[k], txs[k])
    requires IsRound(cfg, states[i], txs[i], id)
    ensures !IsIdle(cfg, states[i], txs[i], id)
    ensures var all := Materialized(states[i].ds[id], txs[i].work.plan.tokens, txs[i].work.t1);
            forall d :: d in all && d.status.Waiting? ==> Tried(d, txs[i].work.t2)
  {
    StepOf(cfg, states, txs, i);
    RunOnTime(cfg, states, txs, i);
    RoundTriesAll(cfg, states[i], txs[i]);
  }
}
