/**
 One delivery round of a push job: every due pending delivery is sent once, and
 the job is settled by what came of its deliveries or put back for another round.
 */
module PushRounds {
  import opened Options

  datatype JobStatus = Pending | Processing | Sent | PartialFailed | Failed | Cancelled

  datatype DeliveryStatus = Waiting | Delivered | Lost | Skipped

  datatype Error =
    | StaleLock | PipelineCrash | NoActiveTokens | AllSkipped | AllFailed
    | StaleBeforeSend | UnverifiedBeforeSend | SubmittedBeforeSend | SettledEarly

  /** Which rules a job is subject to before its first delivery. */
  datatype Kind = Reminder | CountdownStart | SyncTrigger(forced: bool) | Plain

  datatype Job = Job(
    user: nat,
    kind: Kind,
    assignment: Option<nat>,
    due: Option<int>,
    fireAt: int,
    availableAt: int,
    priority: int,
    status: JobStatus,
    attempts: nat,
    maxAttempts: nat,
    lockedBy: Option<nat>,
    lockedAt: Option<int>,
    error: Option<Error>,
    sentAt: Option<int>)
  {
    predicate Unfinished() { status.Pending? || status.Processing? }

    function Unlocked(): Job { this.(lockedBy := None, lockedAt := None) }

    function Settled(outcome: JobStatus, why: Error): Job {
      this.(status := outcome, error := Some(why), lockedBy := None, lockedAt := None)
    }

    /** Back to pending, without spending an attempt. */
    function PutBack(until: int): Job {
      this.(status := Pending, availableAt := until, lockedBy := None, lockedAt := None)
    }
  }

  datatype Delivery = Delivery(
    token: nat,
    status: DeliveryStatus,
    attempts: nat,
    maxAttempts: nat,
    nextRetryAt: int,
    sentAt: Option<int>)

  /** What a send came to: no usable token or copy, accepted, refused for good, or failed for now. */
  datatype Reply = Unsendable | Accepted | Unregistered | Transient

  /** What the provider answers for each token. */
  type Replies = nat -> Reply

  function SendOne(d: Delivery, reply: Reply, now: int, delay: int): Delivery {
    match reply
    case Unsendable => d.(status := Skipped)
    case Accepted => d.(attempts := d.attempts + 1, status := Delivered, sentAt := Some(now))
    case Unregistered => d.(attempts := d.attempts + 1, status := Lost)
    case Transient =>
      if d.attempts + 1 >= d.maxAttempts then d.(attempts := d.attempts + 1, status := Lost)
      else d.(attempts := d.attempts + 1, nextRetryAt := now + delay)
  }

  predicate Tried(d: Delivery, now: int) { d.status.Waiting? && d.nextRetryAt <= now }

  /** What a round makes of one delivery. */
  function Swept(d: Delivery, replies: Replies, now: int, delay: int): Delivery {
    if Tried(d, now) then SendOne(d, replies(d.token), now, delay) else d
  }

  function Sweep(ds: seq<Delivery>, replies: Replies, now: int, delay: int): (after: seq<Delivery>)
    ensures |after| == |ds|
    ensures forall i :: 0 <= i < |ds| ==> after[i] == Swept(ds[i], replies, now, delay)
  {
    seq(|ds|, i requires 0 <= i < |ds| => Swept(ds[i], replies, now, delay))
  }

  function Count(ds: seq<Delivery>, status: DeliveryStatus): (n: nat)
    ensures n == 0 <==> forall d :: d in ds ==> d.status != status
    ensures n <= |ds|
  {
    if ds == [] then 0
    else
      assert forall d :: d in ds <==> d == ds[0] || d in ds[1..];
      (if ds[0].status == status then 1 else 0) + Count(ds[1..], status)
  }

  function TriedCount(ds: seq<Delivery>, now: int): (n: nat)
    ensures n == 0 <==> forall d :: d in ds ==> !Tried(d, now)
  {
    if ds == [] then 0
    else
      assert forall d :: d in ds <==> d == ds[0] || d in ds[1..];
      (if Tried(ds[0], now) then 1 else 0) + TriedCount(ds[1..], now)
  }

  /** Out of rounds: what is still waiting is given up. */
  function GiveUp(ds: seq<Delivery>): (after: seq<Delivery>)
    ensures |after| == |ds|
    ensures forall i :: 0 <= i < |ds| ==> after[i] == if ds[i].status.Waiting? then ds[i].(status := Lost) else ds[i]
  {
    seq(|ds|, i requires 0 <= i < |ds| => if ds[i].status.Waiting? then ds[i].(status := Lost) else ds[i])
  }

  /** The status the deliveries' outcomes dictate, once none is waiting. */
  function Verdict(job: Job, ds: seq<Delivery>, now: int): Job {
    var sent, failed := Count(ds, Delivered), Count(ds, Lost);
    var done := job.Unlocked();
    if sent > 0 && failed == 0 then done.(status := Sent, sentAt := Some(now))
    else if sent > 0 then done.(status := PartialFailed, sentAt := Some(now))
    else done.(status := Failed, error := Some(if failed == 0 then AllSkipped else AllFailed))
  }

  /** A round of `job`, whose deliveries are `ds`. */
  function Round(job: Job, ds: seq<Delivery>, replies: Replies, now: int, delay: int): (r: (Job, seq<Delivery>)) {
    if ds == [] then (job.Settled(Failed, NoActiveTokens), ds)
    else
      var after := Sweep(ds, replies, now, delay);
      if Count(after, Waiting) > 0 then
        if TriedCount(ds, now) == 0 && job.attempts + 1 >= job.maxAttempts then (job.PutBack(now + delay), after)
        else if job.attempts + 1 < job.maxAttempts then
          (job.PutBack(now + delay).(attempts := job.attempts + 1), after)
        else (Verdict(job, GiveUp(after), now), GiveUp(after))
      else (Verdict(job, after, now), after)
  }

  /* ----- What a settled job's deliveries say ----- */

  predicate SettledByRound(job: Job) {
    || job.status.Sent? || job.status.PartialFailed?
    || (job.status.Failed? && (job.error == Some(AllSkipped) || job.error == Some(AllFailed)
        || job.error == Some(NoActiveTokens)))
  }

  predicate Without(ds: seq<Delivery>, status: DeliveryStatus) {
    forall d :: d in ds ==> d.status != status
  }

  /** A job settled by a round has no delivery waiting and the status its outcomes dictate. */
  predicate StatusFits(job: Job, ds: seq<Delivery>) {
    SettledByRound(job) ==>
      && Without(ds, Waiting)
      && (job.status.Sent? <==> !Without(ds, Delivered) && Without(ds, Lost))
      && (job.status.PartialFailed? <==> !Without(ds, Delivered) && !Without(ds, Lost))
      && (job.status.Failed? <==> Without(ds, Delivered))
      && (job.status.Failed? ==>
            (job.error == Some(NoActiveTokens) <==> ds == [])
            && (job.error == Some(AllFailed) <==> !Without(ds, Lost)))
  }

  /** Every pending delivery comes due no later than `latest`. */
  predicate Timely(ds: seq<Delivery>, latest: int) {
    forall d :: d in ds && d.status.Waiting? ==> d.nextRetryAt <= latest
  }

  /** Every pending delivery has attempts left. */
  predicate Triable(ds: seq<Delivery>) {
    forall d :: d in ds && d.status.Waiting? ==> d.attempts < d.maxAttempts
  }

  /** A round that tries nothing though deliveries are pending. */
  predicate Idle(ds: seq<Delivery>, now: int) {
    TriedCount(ds, now) == 0 && !Without(ds, Waiting)
  }

  predicate WithinLimits(ds: seq<Delivery>) {
    forall d :: d in ds ==> d.attempts <= d.maxAttempts
  }

  lemma VerdictFits(job: Job, ds: seq<Delivery>, now: int)
    requires Without(ds, Waiting) && ds != []
    ensures StatusFits(Verdict(job, ds, now), ds) && !Verdict(job, ds, now).Unfinished()
    ensures SettledByRound(Verdict(job, ds, now))
  {
    assert ds[0] in ds;
  }

  lemma GiveUpLeavesNone(ds: seq<Delivery>)
    ensures Without(GiveUp(ds), Waiting)
  {
  }

  /** A round settles the job by its outcomes or counts one attempt, unless it is idle on the last one. */
  lemma RoundSettlesOrCounts(job: Job, ds: seq<Delivery>, replies: Replies, now: int, delay: int)
    requires Triable(ds) && WithinLimits(ds) && job.attempts < job.maxAttempts
    ensures var (job', ds') := Round(job, ds, replies, now, delay);
            && StatusFits(job', ds') && WithinLimits(ds') && Triable(ds')
            && (job'.Unfinished() ==>
                  && job'.attempts < job'.maxAttempts && job'.availableAt == now + delay
                  && (job'.attempts == job.attempts + 1 || (Idle(ds, now) && job'.attempts == job.attempts)))
            && (!job'.Unfinished() ==> job'.attempts == job.attempts && SettledByRound(job'))
            && job'.maxAttempts == job.maxAttempts && !job'.status.Processing?
  {
    var after := Sweep(ds, replies, now, delay);
    if ds != [] {
      SweepKeeps(ds, replies, now, delay);
      if Count(after, Waiting) > 0 {
        StillWaiting(ds, replies, now, delay);
        GiveUpLeavesNone(after);
        GiveUpLimits(after);
        VerdictFits(job, GiveUp(after), now);
      } else {
        VerdictFits(job, after, now);
      }
    }
  }

  lemma SweepKeeps(ds: seq<Delivery>, replies: Replies, now: int, delay: int)
    requires Triable(ds) && WithinLimits(ds)
    ensures Triable(Sweep(ds, replies, now, delay)) && WithinLimits(Sweep(ds, replies, now, delay))
  {
    var after := Sweep(ds, replies, now, delay);
    forall d | d in after ensures d.attempts <= d.maxAttempts && (d.status.Waiting? ==> d.attempts < d.maxAttempts) {
      var i :| 0 <= i < |after| && after[i] == d;
      assert ds[i] in ds && d == Swept(ds[i], replies, now, delay);
    }
  }

  lemma StillWaiting(ds: seq<Delivery>, replies: Replies, now: int, delay: int)
    requires Count(Sweep(ds, replies, now, delay), Waiting) > 0
    ensures !Without(ds, Waiting)
  {
    var after := Sweep(ds, replies, now, delay);
    var d :| d in after && d.status.Waiting?;
    var i :| 0 <= i < |after| && after[i] == d;
    assert ds[i] in ds && ds[i].status.Waiting?;
  }

  /** When all pending deliveries are due, a round tries each of them, and leaves none to come due after the job. */
  lemma TimelyRound(job: Job, ds: seq<Delivery>, replies: Replies, now: int, delay: int)
    requires Timely(ds, now)
    ensures (forall d :: d in ds && d.status.Waiting? ==> Tried(d, now)) && !Idle(ds, now)
    ensures var (job', ds') := Round(job, ds, replies, now, delay); job'.Unfinished() ==> Timely(ds', now + delay)
  {
    var after := Sweep(ds, replies, now, delay);
    forall d | d in after && d.status.Waiting? ensures d.nextRetryAt <= now + delay {
      var i :| 0 <= i < |after| && after[i] == d;
      assert ds[i] in ds && d == Swept(ds[i], replies, now, delay);
    }
    assert Without(GiveUp(after), Waiting);
    if !Without(ds, Waiting) {
      var d :| d in ds && d.status.Waiting?;
      assert Tried(d, now);
    }
  }

  lemma GiveUpLimits(ds: seq<Delivery>)
    requires WithinLimits(ds)
    ensures WithinLimits(GiveUp(ds))
  {
    forall d | d in GiveUp(ds) ensures d.attempts <= d.maxAttempts {
      var i :| 0 <= i < |ds| && GiveUp(ds)[i] == d;
      assert ds[i] in ds;
    }
  }

  /** A delivery that is no longer waiting is left alone by every round. */
  lemma FinishedUntouched(job: Job, ds: seq<Delivery>, replies: Replies, now: int, delay: int, i: nat)
    requires i < |ds| && !ds[i].status.Waiting?
    ensures var ds' := Round(job, ds, replies, now, delay).1; |ds'| == |ds| && ds'[i] == ds[i] && !Tried(ds[i], now)
  {
  }

  /* ----- What the replies make of a round ----- */

  /** Nothing more comes of the job after this round, whatever is left waiting. */
  predicate LastRound(job: Job) { job.attempts + 1 >= job.maxAttempts }

  /** What a round makes of a delivery it tries, by the provider's reply; `last` when waiting ones are given up. */
  predicate AnsweredBy(d: Delivery, after: Delivery, reply: Reply, now: int, delay: int, last: bool) {
    var spent := d.attempts + 1 >= d.maxAttempts;
    && after.token == d.token && after.maxAttempts == d.maxAttempts
    && (after.status == Delivered <==> reply == Accepted)
    && (after.status == Skipped <==> reply == Unsendable)
    && (after.status == Lost <==> reply == Unregistered || (reply == Transient && (spent || last)))
    && (after.status == Waiting <==> reply == Transient && !spent && !last)
    && (after.status == Delivered ==> after.sentAt == Some(now))
    && (after.status != Delivered ==> after.sentAt == d.sentAt)
    && (after.status == Waiting ==> after.nextRetryAt == now + delay)
    && after.attempts == (if reply == Unsendable then d.attempts else d.attempts + 1)
  }

  /** A round gives up what still waits exactly when it is the job's last and not idle. */
  predicate GivesUp(job: Job, ds: seq<Delivery>, replies: Replies, now: int) {
    LastRound(job) && TriedCount(ds, now) > 0
  }

  /** Each delivery a round tries ends as its reply says; the others are as they were, or given up. */
  lemma RoundAnswers(job: Job, ds: seq<Delivery>, replies: Replies, now: int, delay: int, i: nat)
    requires i < |ds|
    ensures var after := Round(job, ds, replies, now, delay).1;
            && |after| == |ds|
            && (ds[i].status.Waiting? && ds[i].nextRetryAt <= now ==>
                  AnsweredBy(ds[i], after[i], replies(ds[i].token), now, delay, GivesUp(job, ds, replies, now)))
            && (ds[i].status.Waiting? && ds[i].nextRetryAt > now ==>
                  after[i] == if GivesUp(job, ds, replies, now) then ds[i].(status := Lost) else ds[i])
            && (!ds[i].status.Waiting? ==> after[i] == ds[i])
  {
    assert ds[i] in ds;
    var swept := Sweep(ds, replies, now, delay);
    assert swept[i] in swept && swept[i] == Swept(ds[i], replies, now, delay);
  }

  /** The job after a round: put back with its claim ended, or settled by what its deliveries came to. */
  lemma RoundSays(job: Job, ds: seq<Delivery>, replies: Replies, now: int, delay: int)
    ensures var (job', after) := Round(job, ds, replies, now, delay);
            && job'.lockedBy.None? && job'.lockedAt.None?
            && (job'.status.Pending? <==> !Without(after, Waiting))
            && (job'.status == Sent <==> Without(after, Waiting) && !Without(after, Delivered) && Without(after, Lost))
            && (job'.status == PartialFailed <==>
                  Without(after, Waiting) && !Without(after, Delivered) && !Without(after, Lost))
            && (job'.status == Failed <==> Without(after, Waiting) && Without(after, Delivered))
            && (job'.status == Sent || job'.status == PartialFailed ==> job'.sentAt == Some(now))
            && (job'.status == Failed ==>
                  && job'.sentAt == job.sentAt
                  && job'.error == Some(if ds == [] then NoActiveTokens
                                        else if Without(after, Lost) then AllSkipped else AllFailed))
            && (job'.status.Pending? ==>
                  job'.availableAt == now + delay
                  && job'.attempts == if LastRound(job) then job.attempts else job.attempts + 1)
  {
    if ds != [] {
      var swept := Sweep(ds, replies, now, delay);
      GiveUpLeavesNone(swept);
      assert GiveUp(swept)[0] in GiveUp(swept) && swept[0] in swept;
    }
  }

  /* ----- The round as the pipeline runs it ----- */

  lemma TriedFrom(ds: seq<Delivery>, now: int, i: nat)
    requires i < |ds|
    ensures TriedCount(ds[i..], now) == (if Tried(ds[i], now) then 1 else 0) + TriedCount(ds[i + 1..], now)
  {
    assert ds[i..][1..] == ds[i + 1..];
  }

  lemma SweepFrom(ds: seq<Delivery>, replies: Replies, now: int, delay: int, i: nat)
    requires i < |ds|
    ensures var after := Sweep(ds, replies, now, delay);
            after[..i + 1] == after[..i] + [Swept(ds[i], replies, now, delay)]
  {
  }

  method SendDue(ds: seq<Delivery>, replies: Replies, now: int, delay: int)
    returns (after: seq<Delivery>, attempted: nat)
    ensures after == Sweep(ds, replies, now, delay)
    ensures attempted == TriedCount(ds, now)
  {
    after, attempted := [], 0;
    for i := 0 to |ds|
      invariant after == Sweep(ds, replies, now, delay)[..i]
      invariant attempted + TriedCount(ds[i..], now) == TriedCount(ds, now)
    {
      var d := ds[i];
      TriedFrom(ds, now, i);
      SweepFrom(ds, replies, now, delay, i);
      if d.status.Waiting? && d.nextRetryAt <= now {
        attempted := attempted + 1;
        d := SendOne(d, replies(d.token), now, delay);
      }
      after := after + [d];
    }
    assert ds[|ds|..] == [];
  }

  method CountStatus(ds: seq<Delivery>, status: DeliveryStatus) returns (n: nat)
    ensures n == Count(ds, status)
  {
    n := 0;
    for i := 0 to |ds|
      invariant n + Count(ds[i..], status) == Count(ds, status)
    {
      assert ds[i..][1..] == ds[i + 1..];
      if ds[i].status == status { n := n + 1; }
    }
    assert ds[|ds|..] == [];
  }

  method FailPending(ds: seq<Delivery>) returns (after: seq<Delivery>)
    ensures after == GiveUp(ds)
  {
    after := [];
    for i := 0 to |ds|
      invariant after == GiveUp(ds)[..i]
    {
      after := after + [if ds[i].status.Waiting? then ds[i].(status := Lost) else ds[i]];
    }
  }

  method DeliverRound(job: Job, deliveries: seq<Delivery>, replies: Replies, now: int, delay: int)
    returns (job': Job, ds: seq<Delivery>)
    ensures (job', ds) == Round(job, deliveries, replies, now, delay)
    ensures |ds| == |deliveries| && forall i :: 0 <= i < |ds| && Tried(deliveries[i], now) ==>
              AnsweredBy(deliveries[i], ds[i], replies(ds[i].token), now, delay, GivesUp(job, deliveries, replies, now))
    ensures job'.status == Sent <==> Without(ds, Waiting) && !Without(ds, Delivered) && Without(ds, Lost)
    ensures job'.status == Failed <==> Without(ds, Waiting) && Without(ds, Delivered)
  {
    RoundSays(job, deliveries, replies, now, delay);
    forall i | 0 <= i < |deliveries|
      ensures var after := Round(job, deliveries, replies, now, delay).1;
              |after| == |deliveries| && (Tried(deliveries[i], now) ==>
                AnsweredBy(deliveries[i], after[i], replies(deliveries[i].token), now, delay,
                           GivesUp(job, deliveries, replies, now)))
    {
      RoundAnswers(job, deliveries, replies, now, delay, i);
    }
    job', ds := job, deliveries;
    if ds == [] {
      job' := job'.(status := Failed, error := Some(NoActiveTokens), lockedBy := None, lockedAt := None);
      return;
    }
    var attempted: nat;
    ds, attempted := SendDue(deliveries, replies, now, delay);
    var pending := CountStatus(ds, Waiting);
    if pending > 0 {
      if attempted == 0 && job'.attempts + 1 >= job'.maxAttempts {
        job' := job'.(status := Pending, availableAt := now + delay, lockedBy := None, lockedAt := None);
        return;
      }
      if job'.attempts + 1 < job'.maxAttempts {
        job' := job'.(attempts := job'.attempts + 1);
        job' := job'.(status := Pending, availableAt := now + delay, lockedBy := None, lockedAt := None);
        return;
      }
      ds := FailPending(ds);
    }
    var sent := CountStatus(ds, Delivered);
    var failed := CountStatus(ds, Lost);
    if sent > 0 && failed == 0 {
      job' := job'.(status := Sent);
    } else if sent > 0 {
      job' := job'.(status := PartialFailed);
    } else {
      job' := job'.(status := Failed, error := Some(if failed == 0 then AllSkipped else AllFailed));
    }
    if sent > 0 { job' := job'.(sentAt := Some(now)); }
    job' := job'.(lockedBy := None, lockedAt := None);
  }
}
