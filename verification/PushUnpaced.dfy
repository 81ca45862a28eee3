/** A run in which a trigger that reached a device fails afterwards, and the next one goes out inside the gap. */
module PushUnpaced {
  import opened Options
  import opened PushRounds
  import opened Presend
  import opened PushRuns
  import opened PushHistory
  import opened PushGuard
  import opened Spans

  const CFG := Config(60, 300, 60, 600)
  const NoFacts := Facts(false, false, false, false, {})

  function Waits(fireAt: int): Job {
    Job(0, SyncTrigger(false), None, None, fireAt, fireAt, 100, Pending, 0, 3, None, None, None, None)
  }

  function Answers(): Replies { t => if t == 10 then Accepted else Transient }

  const First := Delivery(10, Delivered, 1, DELIVERY_ATTEMPTS, 0, Some(0))
  const Second := Delivery(11, Waiting, 1, DELIVERY_ATTEMPTS, 60, None)

  /** Two tokens: one send goes through, the other is to be tried again. */
  lemma HalfRound(job: Job)
    requires job.attempts == 0 && job.maxAttempts == 3
    ensures Round(job, Materialized([], [10, 11], 0), Answers(), 0, CFG.delay) ==
              (job.PutBack(60).(attempts := 1), [First, Second])
  {
    var d0 := Delivery(10, Waiting, 0, DELIVERY_ATTEMPTS, 0, None);
    var d1 := Delivery(11, Waiting, 0, DELIVERY_ATTEMPTS, 0, None);
    assert [10, 11][1..] == [11] && [11][1..] == [];
    assert Tokens([]) == {} && Tokens([d0]) == {10};
    assert Materialized([d0, d1], [], 0) == [d0, d1];
    assert [d0] + [d1] == [d0, d1];
    assert Materialized([d0], [11], 0) == [d0, d1];
    assert Materialized([], [10, 11], 0) == [d0, d1];
    var after := Sweep([d0, d1], Answers(), 0, CFG.delay);
    assert after == [First, Second];
    assert Second in after && Count(after, Waiting) > 0;
    assert d0 in [d0, d1] && Tried(d0, 0);
  }

  function Sent1(at: int): Delivery { Delivery(10, Delivered, 1, DELIVERY_ATTEMPTS, at, Some(at)) }

  lemma FullRound(job: Job, at: int)
    ensures Round(job, Materialized([], [10], at), Answers(), at, CFG.delay).1 == [Sent1(at)]
  {
    var d := Delivery(10, Waiting, 0, DELIVERY_ATTEMPTS, at, None);
    assert [10][1..] == [] && Tokens([]) == {};
    assert Materialized([d], [], at) == [d];
    assert Materialized([], [10], at) == [d];
    var after := Sweep([d], Answers(), at, CFG.delay);
    assert after == [Sent1(at)];
    assert Count(after, Waiting) == 0;
  }

  /** A turn of job `id` that sends to `tokens`, having read the table as `seen`. */
  function Turns(id: nat, seen: Push, at: int, tokens: seq<nat>): Tx {
    Process(0, id, Work(None, NoFacts, at, at, at, seen, Deliver(tokens, Answers())))
  }

  /* ----- The states, one after another ----- */

  const Claimed1 := Waits(0).(status := Processing, lockedBy := Some(0), lockedAt := Some(0))
  const Back1 := Waits(0).(attempts := 1, availableAt := 60)
  const Again1 := Back1.(status := Processing, lockedBy := Some(0), lockedAt := Some(60))
  const Later1 := Back1.(attempts := 2, availableAt := 120)
  const Last1 := Later1.(status := Processing, lockedBy := Some(0), lockedAt := Some(120))
  const Failed1 := Later1.(attempts := 3, status := Failed, error := Some(PipelineCrash))
  const Claimed2 := Waits(120).(status := Processing, lockedBy := Some(0), lockedAt := Some(120))

  const Halves := [First, Second]

  function Alone(job: Job, ds: seq<Delivery>, clock: int): Push { Push(map[1 := job], map[1 := ds], clock) }

  function Pair(j1: Job, d1: seq<Delivery>, j2: Job, d2: seq<Delivery>, clock: int): Push {
    Push(map[1 := j1, 2 := j2], map[1 := d1, 2 := d2], clock)
  }

  function Both(job: Job, ds: seq<Delivery>): Push { Pair(Failed1, Halves, job, ds, 120) }

  lemma AloneSteps(job: Job, ds: seq<Delivery>, clock: int, tx: Tx)
    requires !tx.File?
    ensures var after := After(CFG, job, ds, tx, 1);
            Next(CFG, Alone(job, ds, clock), tx) == Alone(after.0, after.1, Now(Alone(job, ds, clock), tx))
  {
  }

  lemma PairSteps(j1: Job, d1: seq<Delivery>, j2: Job, d2: seq<Delivery>, clock: int, tx: Tx)
    requires !tx.File?
    ensures var s := Pair(j1, d1, j2, d2, clock);
            var (one, two) := (After(CFG, j1, d1, tx, 1), After(CFG, j2, d2, tx, 2));
            Next(CFG, s, tx) == Pair(one.0, one.1, two.0, two.1, Now(s, tx))
  {
    var s := Pair(j1, d1, j2, d2, clock);
    var one, two := After(CFG, j1, d1, tx, 1), After(CFG, j2, d2, tx, 2);
    NextOf(s, tx, 1);
    NextOf(s, tx, 2);
    assert s.jobs[1] == j1 && s.ds[1] == d1 && s.jobs[2] == j2 && s.ds[2] == d2;
    assert Next(CFG, s, tx).jobs == map[1 := one.0, 2 := two.0];
    assert Next(CFG, s, tx).ds == map[1 := one.1, 2 := two.1];
  }

  lemma NextOf(s: Push, tx: Tx, id: nat)
    requires !tx.File? && id in s.jobs && s.ds.Keys == s.jobs.Keys
    ensures Next(CFG, s, tx).jobs.Keys == s.jobs.Keys == Next(CFG, s, tx).ds.Keys
        && Next(CFG, s, tx).clock == Now(s, tx)
    ensures (Next(CFG, s, tx).jobs[id], Next(CFG, s, tx).ds[id]) == After(CFG, s.jobs[id], s.ds[id], tx, id)
  {
  }

  lemma NoneRecent(s: Push, id: nat, now: int, at: int)
    requires forall o :: o in s.jobs && o != id ==> !Active(s.jobs[o])
    ensures !RecentSend(s, id, now, at)
  {
  }

  ghost predicate Goes(s: Push, tx: Tx, s': Push) { Enabled(CFG, s, tx) && s' == Next(CFG, s, tx) }

  lemma FirstFiled()
    ensures Goes(Push(map[], map[], 0), File(1, Waits(0), 0), Alone(Waits(0), [], 0))
  {
  }

  lemma FirstClaimed()
    ensures Goes(Alone(Waits(0), [], 0), Claim(0, {1}, 0), Alone(Claimed1, [], 0))
  {
    AloneSteps(Waits(0), [], 0, Claim(0, {1}, 0));
  }

  lemma FirstSent()
    ensures Goes(Alone(Claimed1, [], 0), Turns(1, Alone(Claimed1, [], 0), 0, [10, 11]), Alone(Back1, Halves, 0))
  {
    var s := Alone(Claimed1, [], 0);
    var tx := Turns(1, s, 0, [10, 11]);
    HalfRound(Claimed1);
    AloneSteps(Claimed1, [], 0, tx);
    assert After(CFG, Claimed1, [], tx, 1) == (Back1, Halves);
    forall at ensures !RecentSend(s, 1, 0, at) { NoneRecent(s, 1, 0, at); }
  }

  lemma FirstClaimedAgain()
    ensures Goes(Alone(Back1, Halves, 0), Claim(0, {1}, 60), Alone(Again1, Halves, 60))
  {
    AloneSteps(Back1, Halves, 0, Claim(0, {1}, 60));
  }

  lemma FirstCrashes()
    ensures Goes(Alone(Again1, Halves, 60), CrashHandled(1, 60), Alone(Later1, Halves, 60))
  {
    AloneSteps(Again1, Halves, 60, CrashHandled(1, 60));
  }

  lemma FirstClaimedLast()
    ensures Goes(Alone(Later1, Halves, 60), Claim(0, {1}, 120), Alone(Last1, Halves, 120))
  {
    AloneSteps(Later1, Halves, 60, Claim(0, {1}, 120));
  }

  lemma FirstFails()
    ensures Goes(Alone(Last1, Halves, 120), CrashHandled(1, 120), Alone(Failed1, Halves, 120))
  {
    AloneSteps(Last1, Halves, 120, CrashHandled(1, 120));
  }

  lemma SecondFiled()
    ensures Goes(Alone(Failed1, Halves, 120), File(2, Waits(120), 120), Both(Waits(120), []))
  {
    var s, tx := Alone(Failed1, Halves, 120), File(2, Waits(120), 120);
    assert After(CFG, Failed1, Halves, tx, 1) == (Failed1, Halves);
    assert Next(CFG, s, tx) == Push(map[1 := Failed1][2 := Waits(120)], map[1 := Halves][2 := []], 120);
  }

  lemma SecondClaimed()
    ensures Goes(Both(Waits(120), []), Claim(0, {2}, 120), Both(Claimed2, []))
  {
    PairSteps(Failed1, Halves, Waits(120), [], 120, Claim(0, {2}, 120));
  }

  /** A turn of a trigger its worker holds, to one device that takes it. */
  lemma TurnSends(job: Job, id: nat, seen: Push, at: int) returns (done: Job)
    requires Mine(job, 0) && job.user == 0 && job.kind == SyncTrigger(false)
    ensures After(CFG, job, [], Turns(id, seen, at, [10]), id) == (done, [Sent1(at)])
    ensures done.user == 0 && done.kind == SyncTrigger(false) && !done.status.Processing?
  {
    FullRound(job, at);
    RoundFinishes(job, Materialized([], [10], at), Answers(), at, CFG.delay);
    RoundSameJob(job, Materialized([], [10], at), Answers(), at, CFG.delay);
    done := After(CFG, job, [], Turns(id, seen, at, [10]), id).0;
  }

  lemma TurnGoes(s: Push, id: nat, seen: Push, at: int)
    requires id in s.jobs && id in s.ds && Mine(s.jobs[id], 0) && s.jobs[id].kind == SyncTrigger(false)
    requires SinceClaim(s.jobs[id], at) && id in seen.jobs && seen.jobs[id] == s.jobs[id]
    requires forall o :: o in seen.jobs && o in seen.ds && o != id && Active(seen.jobs[o]) ==> seen.ds[o] == []
    ensures Enabled(CFG, s, Turns(id, seen, at, [10]))
  {
    forall t ensures !RecentSend(seen, id, at, t) { }
  }

  lemma SecondSent() returns (done: Job)
    ensures Goes(Both(Claimed2, []), Turns(2, Both(Claimed2, []), 120, [10]), Both(done, [Sent1(120)]))
    ensures done.user == 0 && done.kind == SyncTrigger(false)
  {
    var s := Both(Claimed2, []);
    done := TurnSends(Claimed2, 2, s, 120);
    PairSteps(Failed1, Halves, Claimed2, [], 120, Turns(2, s, 120, [10]));
    TurnGoes(s, 2, s, 120);
  }

  lemma OneMore(states: seq<Push>, txs: seq<Tx>, tx: Tx, s': Push)
    requires Run(CFG, states, txs) && Goes(states[|txs|], tx, s') && (Reads(tx) ==> tx.work.seen in states)
    ensures Run(CFG, states + [s'], txs + [tx])
  {
    var more, all := states + [s'], txs + [tx];
    forall i | 0 <= i < |all| ensures Stepped(CFG, more, all, i) {
      if i < |txs| {
        assert Stepped(CFG, states, txs, i);
        if Reads(txs[i]) {
          var j :| 0 <= j <= i && states[j] == txs[i].work.seen;
          assert more[j] == txs[i].work.seen;
        }
      } else if Reads(tx) {
        var j :| 0 <= j < |states| && states[j] == tx.work.seen;
        assert more[j] == tx.work.seen;
      }
    }
  }

  predicate Reads(tx: Tx) { tx.Process? || tx.RolledBack? }

  /** The first trigger reaches one of two devices, and is claimed again. */
  lemma ReachesOne() returns (states: seq<Push>, txs: seq<Tx>)
    ensures Run(CFG, states, txs) && states[|txs|] == Alone(Again1, Halves, 60)
  {
    states, txs := [Push(map[], map[], 0)], [];
    FirstFiled();
    states, txs := Append(states, txs, File(1, Waits(0), 0), Alone(Waits(0), [], 0));
    FirstClaimed();
    states, txs := Append(states, txs, Claim(0, {1}, 0), Alone(Claimed1, [], 0));
    FirstSent();
    states, txs := Append(states, txs, Turns(1, Alone(Claimed1, [], 0), 0, [10, 11]), Alone(Back1, Halves, 0));
    FirstClaimedAgain();
    states, txs := Append(states, txs, Claim(0, {1}, 60), Alone(Again1, Halves, 60));
  }

  /** Two crashes later it is out of attempts, and failed. */
  lemma FailsAfterReaching() returns (states: seq<Push>, txs: seq<Tx>)
    ensures Run(CFG, states, txs) && states[|txs|] == Alone(Failed1, Halves, 120)
  {
    states, txs := ReachesOne();
    FirstCrashes();
    states, txs := Append(states, txs, CrashHandled(1, 60), Alone(Later1, Halves, 60));
    FirstClaimedLast();
    states, txs := Append(states, txs, Claim(0, {1}, 120), Alone(Last1, Halves, 120));
    FirstFails();
    states, txs := Append(states, txs, CrashHandled(1, 120), Alone(Failed1, Halves, 120));
  }

  lemma NotPaced(s: Push, done: Job)
    requires s == Both(done, [Sent1(120)]) && done.user == 0 && done.kind == SyncTrigger(false)
    ensures Rivals(s, 1, 2) && 1 in s.ds && 2 in s.ds && !Paced(s, 1, 2)
  {
    assert First in Halves && Sent1(120) in [Sent1(120)] && !Apart(0, 120);
  }

  /** A trigger failed after it reached a device is no longer looked at, so the next one is sent inside the gap. */
  lemma FailedTriggerIsForgotten() returns (states: seq<Push>, txs: seq<Tx>)
    ensures Run(CFG, states, txs)
    ensures var s := states[|txs|]; Rivals(s, 1, 2) && 1 in s.ds && 2 in s.ds && !Paced(s, 1, 2)
  {
    states, txs := FailsAfterReaching();
    SecondFiled();
    states, txs := Append(states, txs, File(2, Waits(120), 120), Both(Waits(120), []));
    SecondClaimed();
    states, txs := Append(states, txs, Claim(0, {2}, 120), Both(Claimed2, []));
    var done := SecondSent();
    states, txs := Append(states, txs, Turns(2, Both(Claimed2, []), 120, [10]), Both(done, [Sent1(120)]));
    NotPaced(states[|txs|], done);
  }

  lemma Append(states: seq<Push>, txs: seq<Tx>, tx: Tx, s': Push) returns (more: seq<Push>, all: seq<Tx>)
    requires Run(CFG, states, txs) && Goes(states[|txs|], tx, s') && (Reads(tx) ==> tx.work.seen in states)
    ensures Run(CFG, more, all) && more[|all|] == s' && more == states + [s'] && all == txs + [tx]
  {
    OneMore(states, txs, tx, s');
    more, all := states + [s'], txs + [tx];
  }

  /* ----- Two turns that overlap ----- */

  function Took(job: Job, at: int): Job { job.(status := Processing, lockedBy := Some(0), lockedAt := Some(at)) }

  /** Two triggers due since the workers were down, each claimed by a tick of its own. */
  const Due1 := Took(Waits(0), 2000)
  const Due2 := Took(Waits(1200), 2000)

  function Claimed12(): Push { Pair(Due1, [], Due2, [], 2000) }

  lemma OtherFiled()
    ensures Goes(Alone(Waits(0), [], 0), File(2, Waits(1200), 0), Pair(Waits(0), [], Waits(1200), [], 0))
  {
    var s, tx := Alone(Waits(0), [], 0), File(2, Waits(1200), 0);
    assert Next(CFG, s, tx) == Push(map[1 := Waits(0)][2 := Waits(1200)], map[1 := []][2 := []], 0);
  }

  lemma OneClaimed()
    ensures Goes(Pair(Waits(0), [], Waits(1200), [], 0), Claim(0, {1}, 2000), Pair(Due1, [], Waits(1200), [], 2000))
  {
    PairSteps(Waits(0), [], Waits(1200), [], 0, Claim(0, {1}, 2000));
  }

  lemma OtherClaimed()
    ensures Goes(Pair(Due1, [], Waits(1200), [], 2000), Claim(0, {2}, 2000), Claimed12())
  {
    PairSteps(Due1, [], Waits(1200), [], 2000, Claim(0, {2}, 2000));
  }

  /** Nothing is failed or cancelled, but by a round. */
  ghost predicate OnlyFiled(txs: seq<Tx>) { forall tx :: tx in txs ==> tx.File? || tx.Claim? || tx.Process? }

  lemma BothFiled() returns (states: seq<Push>, txs: seq<Tx>)
    ensures Run(CFG, states, txs) && states[|txs|] == Pair(Waits(0), [], Waits(1200), [], 0) && OnlyFiled(txs)
  {
    states, txs := [Push(map[], map[], 0)], [];
    FirstFiled();
    states, txs := Append(states, txs, File(1, Waits(0), 0), Alone(Waits(0), [], 0));
    OtherFiled();
    states, txs := Append(states, txs, File(2, Waits(1200), 0), Pair(Waits(0), [], Waits(1200), [], 0));
  }

  lemma BothClaimed() returns (states: seq<Push>, txs: seq<Tx>)
    ensures Run(CFG, states, txs) && states[|txs|] == Claimed12() && OnlyFiled(txs)
  {
    states, txs := BothFiled();
    OneClaimed();
    states, txs := Append(states, txs, Claim(0, {1}, 2000), Pair(Due1, [], Waits(1200), [], 2000));
    OtherClaimed();
    states, txs := Append(states, txs, Claim(0, {2}, 2000), Claimed12());
  }

  lemma OneGoesOut() returns (done: Job)
    ensures Goes(Claimed12(), Turns(1, Claimed12(), 2000, [10]), Pair(done, [Sent1(2000)], Due2, [], 2000))
    ensures done.user == 0 && done.kind == SyncTrigger(false) && !done.status.Processing?
  {
    done := TurnSends(Due1, 1, Claimed12(), 2000);
    PairSteps(Due1, [], Due2, [], 2000, Turns(1, Claimed12(), 2000, [10]));
    TurnGoes(Claimed12(), 1, Claimed12(), 2000);
  }

  lemma OtherGoesOut(one: Job) returns (done: Job)
    ensures Goes(Pair(one, [Sent1(2000)], Due2, [], 2000), Turns(2, Claimed12(), 2005, [10]),
                 Pair(one, [Sent1(2000)], done, [Sent1(2005)], 2005))
    ensures done.user == 0 && done.kind == SyncTrigger(false)
  {
    done := TurnSends(Due2, 2, Claimed12(), 2005);
    PairSteps(one, [Sent1(2000)], Due2, [], 2000, Turns(2, Claimed12(), 2005, [10]));
    TurnGoes(Pair(one, [Sent1(2000)], Due2, [], 2000), 2, Claimed12(), 2005);
  }

  /** Two turns that both read before either commits send five seconds apart, with nothing failed or cancelled. */
  lemma OverlappingTurnsAreClose() returns (states: seq<Push>, txs: seq<Tx>)
    ensures Run(CFG, states, txs) && OnlyFiled(txs)
    ensures var s := states[|txs|]; Rivals(s, 1, 2) && 1 in s.ds && 2 in s.ds && !Paced(s, 1, 2)
  {
    states, txs := BothClaimed();
    var one := OneGoesOut();
    states, txs := Append(states, txs, Turns(1, Claimed12(), 2000, [10]), Pair(one, [Sent1(2000)], Due2, [], 2000));
    var two := OtherGoesOut(one);
    var s := Pair(one, [Sent1(2000)], two, [Sent1(2005)], 2005);
    states, txs := Append(states, txs, Turns(2, Claimed12(), 2005, [10]), s);
    assert Sent1(2000) in s.ds[1] && Sent1(2005) in s.ds[2] && !Apart(2000, 2005);
  }
}
