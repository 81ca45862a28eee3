/** A run in which a start is posted again for an earlier time than its retry, and its rounds try nothing. */
module PushIdle {
  import opened Options
  import opened PushRounds
  import opened PushRuns
  import opened PushHistory
  import opened PushUnpaced

  const Filed := Job(0, Plain, None, None, 0, 0, 10, Pending, 0, 3, None, None, None, None)
  const Claimed := Filed.(status := Processing, lockedBy := Some(0), lockedAt := Some(0))
  const Tried1 := Filed.(attempts := 1, availableAt := 60)
  const Posted := Tried1.(fireAt := 10, availableAt := 10)
  const Claimed10 := Posted.(status := Processing, lockedBy := Some(0), lockedAt := Some(10))
  const Burned := Posted.(attempts := 2, availableAt := 70)
  const PostedAgain := Burned.(fireAt := 20, availableAt := 20)
  const Claimed20 := PostedAgain.(status := Processing, lockedBy := Some(0), lockedAt := Some(20))
  const Still := PostedAgain.(availableAt := 80)

  const Retry := [Delivery(11, Waiting, 1, DELIVERY_ATTEMPTS, 60, None)]

  lemma FirstRound()
    ensures Round(Claimed, Materialized([], [11], 0), Answers(), 0, CFG.delay) == (Tried1, Retry)
  {
    var d := Delivery(11, Waiting, 0, DELIVERY_ATTEMPTS, 0, None);
    assert [11][1..] == [] && Tokens([]) == {};
    assert Materialized([d], [], 0) == [d];
    assert Materialized([], [11], 0) == [d];
    var after := Sweep([d], Answers(), 0, CFG.delay);
    assert after == Retry && Retry[0] in after;
    assert d in [d] && Tried(d, 0);
  }

  /** Before the retry is due a round tries nothing: it costs an attempt, or with none to spare is put back. */
  lemma IdleRound(job: Job, now: int)
    requires 0 < now < 60
    ensures Materialized(Retry, [11], now) == Retry && Idle(Retry, now)
    ensures Round(job, Retry, Answers(), now, CFG.delay) ==
              (if job.attempts + 1 >= job.maxAttempts then job.PutBack(now + 60)
               else job.PutBack(now + 60).(attempts := job.attempts + 1), Retry)
  {
    assert [11][1..] == [] && Retry[0] in Retry && 11 in Tokens(Retry);
    assert Materialized(Retry, [], now) == Retry;
    assert Sweep(Retry, Answers(), now, CFG.delay) == Retry;
    assert Count(Retry, Waiting) > 0;
  }

  lemma Files()
    ensures Goes(Push(map[], map[], 0), File(1, Filed, 0), Alone(Filed, [], 0))
  {
  }

  lemma Claims(job: Job, ds: seq<Delivery>, clock: int, now: int)
    requires job.status.Pending? && job.fireAt <= now && job.availableAt <= now && clock <= now
    ensures Goes(Alone(job, ds, clock), Claim(0, {1}, now),
                 Alone(job.(status := Processing, lockedBy := Some(0), lockedAt := Some(now)), ds, now))
  {
    AloneSteps(job, ds, clock, Claim(0, {1}, now));
  }

  lemma Sends()
    ensures Goes(Alone(Claimed, [], 0), Turns(1, Alone(Claimed, [], 0), 0, [11]), Alone(Tried1, Retry, 0))
  {
    FirstRound();
    AloneSteps(Claimed, [], 0, Turns(1, Alone(Claimed, [], 0), 0, [11]));
  }

  lemma Posts(job: Job, at: int, clock: int, now: int)
    requires job.status.Pending? && job.kind.Plain? && clock <= now < at && at != job.fireAt && job.due.None?
    ensures Goes(Alone(job, Retry, clock), Reschedule(1, at, None, now),
                 Alone(job.(fireAt := at, availableAt := at), Retry, now))
  {
    AloneSteps(job, Retry, clock, Reschedule(1, at, None, now));
  }

  lemma Idles(job: Job, now: int)
    requires 0 < now < 60 && job.kind.Plain? && Mine(job, 0) && SinceClaim(job, now)
    ensures Goes(Alone(job, Retry, now), Turns(1, Alone(job, Retry, now), now, [11]),
                 Alone(Round(job, Retry, Answers(), now, CFG.delay).0, Retry, now))
    ensures IsIdle(CFG, Alone(job, Retry, now), Turns(1, Alone(job, Retry, now), now, [11]), 1)
  {
    IdleRound(job, now);
    AloneSteps(job, Retry, now, Turns(1, Alone(job, Retry, now), now, [11]));
  }

  lemma UpToTheRetry() returns (states: seq<Push>, txs: seq<Tx>)
    ensures Run(CFG, states, txs) && states[|txs|] == Alone(Tried1, Retry, 0)
  {
    states, txs := [Push(map[], map[], 0)], [];
    Files();
    states, txs := Append(states, txs, File(1, Filed, 0), Alone(Filed, [], 0));
    Claims(Filed, [], 0, 0);
    states, txs := Append(states, txs, Claim(0, {1}, 0), Alone(Claimed, [], 0));
    Sends();
    states, txs := Append(states, txs, Turns(1, Alone(Claimed, [], 0), 0, [11]), Alone(Tried1, Retry, 0));
  }

  /** Posted for a time before its retry, the start is claimed early, tries nothing and loses an attempt. */
  lemma EarlyPostBurnsAttempt() returns (states: seq<Push>, txs: seq<Tx>)
    ensures Run(CFG, states, txs) && states[|txs|] == Alone(Burned, Retry, 10)
    ensures |txs| > 0 && IsIdle(CFG, states[|txs| - 1], txs[|txs| - 1], 1)
    ensures states[|txs| - 1] == Alone(Claimed10, Retry, 10)
  {
    states, txs := UpToTheRetry();
    Posts(Tried1, 10, 0, 5);
    states, txs := Append(states, txs, Reschedule(1, 10, None, 5), Alone(Posted, Retry, 5));
    Claims(Posted, Retry, 5, 10);
    states, txs := Append(states, txs, Claim(0, {1}, 10), Alone(Claimed10, Retry, 10));
    Idles(Claimed10, 10);
    IdleRound(Claimed10, 10);
    var last := Alone(Claimed10, Retry, 10);
    assert Round(Claimed10, Retry, Answers(), 10, CFG.delay).0 == Burned;
    states, txs := Append(states, txs, Turns(1, Alone(Claimed10, Retry, 10), 10, [11]), Alone(Burned, Retry, 10));
    assert states[|txs| - 1] == last;
  }

  /** Posted so once more, it takes the branch that tries nothing, and is left with job and delivery as they were. */
  lemma EarlyPostIdles() returns (states: seq<Push>, txs: seq<Tx>)
    ensures Run(CFG, states, txs) && states[|txs|] == Alone(Still, Retry, 20)
    ensures |txs| > 0 && IsIdle(CFG, states[|txs| - 1], txs[|txs| - 1], 1)
    ensures states[|txs| - 1] == Alone(Claimed20, Retry, 20) && Still.attempts == Claimed20.attempts
  {
    states, txs := EarlyPostBurnsAttempt();
    Posts(Burned, 20, 10, 15);
    states, txs := Append(states, txs, Reschedule(1, 20, None, 15), Alone(PostedAgain, Retry, 15));
    Claims(PostedAgain, Retry, 15, 20);
    states, txs := Append(states, txs, Claim(0, {1}, 20), Alone(Claimed20, Retry, 20));
    Idles(Claimed20, 20);
    IdleRound(Claimed20, 20);
    assert Round(Claimed20, Retry, Answers(), 20, CFG.delay).0 == Still;
    states, txs := Append(states, txs, Turns(1, Alone(Claimed20, Retry, 20), 20, [11]), Alone(Still, Retry, 20));
  }
}
