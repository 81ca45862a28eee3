/** The push fan-out of one bulletin, tick by tick, where a tick may die at any point. */
module BulletinFanout {
  import opened Sequences

  const MAX_ATTEMPTS: nat := 3
  const FCM_BATCH: nat := 500

  datatype Status = Pending | Sent | Failed | Cancelled

  datatype Row = Row(status: Status, attempts: nat)

  /** A registered device, with or without a token to send to. */
  datatype Device = Android(token: bool) | Apple(token: bool)

  datatype Fan = Fan(rows: map<nat, Row>, notified: bool)

  datatype Reply = Accepted | BadToken | Refused

  function Record(row: Row, reply: Reply): Row {
    var n := row.attempts + 1;
    match reply
    case Accepted => Row(Sent, n)
    case BadToken => Row(Cancelled, n)
    case Refused => if n >= MAX_ATTEMPTS then Row(Failed, n) else Row(row.status, n)
  }

  /** How the work up to the k-th commit goes: it commits, or the process dies before or after what it sends. */
  datatype Fate = Commits | DiesFirst | DiesAfterSend

  datatype World = World(fate: nat -> Fate, reply: nat -> Reply)

  function RecordAll(rows: map<nat, Row>, ids: set<nat>, world: World): map<nat, Row> {
    map d | d in rows :: if d in ids then Record(rows[d], world.reply(d)) else rows[d]
  }

  function Inserted(rows: map<nat, Row>, matched: set<nat>): map<nat, Row> {
    map d | d in rows.Keys + matched :: if d in rows then rows[d] else Row(Pending, 0)
  }

  /* ----- What a tick is seen to do ----- */

  /** One tick as seen from outside: `sent` are the devices it sent to, `lost` those whose send it did not record. */
  datatype Tick = Tick(
    devices: map<nat, Device>,
    replies: nat -> Reply,
    matched: set<nat>,
    crashed: bool,
    sent: set<nat>,
    lost: set<nat>)

  function Before(f: Fan, d: nat): Row { if d in f.rows then f.rows[d] else Row(Pending, 0) }

  /**
   What handling a pending row leaves: a device with a token is sent to and the row goes by the reply, with one
   more attempt; the row of a device without one is cancelled.
   */
  predicate Outcome(before: Row, after: Row, sent: bool, device: Device, reply: Reply) {
    && (sent <==> device.token)
    && (!sent ==> after == Row(Cancelled, before.attempts))
    && (sent ==>
          && after.attempts == before.attempts + 1
          && (after.status == Sent <==> reply == Accepted)
          && (after.status == Cancelled <==> reply == BadToken)
          && (after.status == Failed <==> reply == Refused && after.attempts >= 3)
          && (after.status == Pending <==> reply == Refused && after.attempts < 3))
  }

  predicate RowStep(before: Row, after: Row, t: Tick, d: nat) {
    || after == before
    || (before.status.Pending? && d in t.devices && d !in t.lost
        && Outcome(before, after, d in t.sent, t.devices[d], t.replies(d)))
  }

  /** Only pending rows of devices with a token are sent to, and a send is recorded or lost. */
  predicate SendOk(before: Row, after: Row, t: Tick, d: nat) {
    && before.status.Pending? && d in t.devices && t.devices[d].token
    && if d in t.lost then after == before else Outcome(before, after, true, t.devices[d], t.replies(d))
  }

  /** What can go unrecorded at once: a single send, or one batch to Android devices. */
  predicate OneUnit(ids: set<nat>, devices: map<nat, Device>) {
    |ids| <= 1 || (|ids| <= 500 && forall d :: d in ids ==> d in devices && devices[d].Android?)
  }

  predicate AllDone(rows: map<nat, Row>) { forall d :: d in rows ==> !rows[d].status.Pending? }

  ghost predicate Step(f: Fan, t: Tick, f': Fan) {
    && !f.notified
    && f.rows.Keys <= f'.rows.Keys <= f.rows.Keys + t.matched
        && (!t.crashed ==> f'.rows.Keys == f.rows.Keys + t.matched)
    && t.lost <= t.sent <= f'.rows.Keys
    && (forall d :: d in f'.rows ==> RowStep(Before(f, d), f'.rows[d], t, d))
    && (forall d :: d in t.sent ==> SendOk(Before(f, d), f'.rows[d], t, d))
    && OneUnit(t.lost, t.devices) && (!t.crashed ==> t.lost == {})
    && (!t.crashed ==>
          forall d :: d in f'.rows && d in t.devices && Before(f, d).status.Pending? ==>
            (d in t.sent <==> t.devices[d].token) && (d !in t.sent ==> f'.rows[d].status == Cancelled))
    && (f'.notified ==> AllDone(f'.rows)) && (!t.crashed && AllDone(f'.rows) ==> f'.notified)
  }

  /* ----- The tick ----- */

  /** The rows in `done` are handled, the others as they were. */
  ghost predicate Handled(start: map<nat, Row>, rows: map<nat, Row>, done: set<nat>, sent: set<nat>,
                          devices: map<nat, Device>, reply: nat -> Reply) {
    && rows.Keys == start.Keys && sent <= done <= start.Keys && done <= devices.Keys
    && (forall d :: d in start && d !in done ==> rows[d] == start[d])
    && (forall d :: d in done ==>
          start[d].status.Pending? && Outcome(start[d], rows[d], d in sent, devices[d], reply(d)))
  }

  lemma BatchHandled(start: map<nat, Row>, rows: map<nat, Row>, done: set<nat>, sent: set<nat>, ids: set<nat>,
                     devices: map<nat, Device>, world: World)
    requires Handled(start, rows, done, sent, devices, world.reply) && ids <= start.Keys && ids !! done
    requires forall d :: d in ids ==> start[d].status.Pending? && d in devices && devices[d].token
    ensures Handled(start, RecordAll(rows, ids, world), done + ids, sent + ids, devices, world.reply)
  {
  }

  lemma CancelHandled(start: map<nat, Row>, rows: map<nat, Row>, done: set<nat>, sent: set<nat>, d: nat,
                      devices: map<nat, Device>, reply: nat -> Reply)
    requires Handled(start, rows, done, sent, devices, reply) && d in start && d !in done && start[d].status.Pending?
    requires d in devices && !devices[d].token
    ensures Handled(start, rows[d := rows[d].(status := Cancelled)], done + {d}, sent, devices, reply)
  {
  }

  lemma Slice(order: seq<nat>, i: nat, j: nat)
    requires Distinct(order) && i <= j <= |order|
    ensures Members(order[..j]) == Members(order[..i]) + Members(order[i..j])
        && Members(order[..i]) !! Members(order[i..j])
    ensures |Members(order[i..j])| <= j - i
    ensures Members(order[i..j]) <= Members(order)
  {
    assert order[..j] == order[..i] + order[i..j];
    MembersSize(order[i..j]);
    forall d | d in Members(order[i..j]) ensures d !in Members(order[..i]) && d in order {
      var k :| 0 <= k < |order[i..j]| && order[i..j][k] == d;
      assert order[i + k] == d;
    }
  }

  /** Android sends, a batch at a time, each recorded before the next. */
  method SendAndroid(start: map<nat, Row>, devices: map<nat, Device>, order: seq<nat>, world: World, k0: nat)
    returns (rows: map<nat, Row>, crashed: bool, sent: set<nat>, lost: set<nat>, k: nat)
    requires Distinct(order) && Members(order) <= start.Keys
    requires forall d :: d in order ==>
               d in devices && devices[d].Android? && devices[d].token && start[d].status.Pending?
    ensures lost <= sent && sent - lost <= Members(order) && lost <= Members(order) && OneUnit(lost, devices)
    ensures Handled(start, rows, sent - lost, sent - lost, devices, world.reply)
    ensures !crashed ==> lost == {} && sent == Members(order)
  {
    rows, crashed, sent, lost, k := start, false, {}, {}, k0;
    var i := 0;
    while i < |order|
      invariant i <= |order| && Handled(start, rows, sent, sent, devices, world.reply)
          && sent == Members(order[..i]) <= Members(order)
    {
      var j := if i + FCM_BATCH < |order| then i + FCM_BATCH else |order|;
      var batch := Members(order[i..j]);
      Slice(order, i, j);
      match world.fate(k) {
        case DiesFirst => return rows, true, sent, {}, k;
        case DiesAfterSend =>
          assert OneUnit(batch, devices);
          assert sent + batch - batch == sent;
          return rows, true, sent + batch, batch, k;
        case Commits =>
          BatchHandled(start, rows, sent, sent, batch, devices, world);
          rows, sent := RecordAll(rows, batch, world), sent + batch;
      }
      i, k := j, k + 1;
    }
    assert order[..|order|] == order;
  }

  predicate Batched(devices: map<nat, Device>, d: nat) { d in devices && devices[d].Android? && devices[d].token }

  /** Those of the first `i` pending rows that are not sent in a batch. */
  function Singly(pending: seq<nat>, i: nat, devices: map<nat, Device>): set<nat>
    requires i <= |pending|
  {
    set d | d in pending[..i] && !Batched(devices, d)
  }

  lemma OneMoreSingly(pending: seq<nat>, i: nat, devices: map<nat, Device>)
    requires i < |pending| && Distinct(pending)
    ensures Singly(pending, i + 1, devices) == Singly(pending, i, devices) + if Batched(devices, pending[i]) then {}
        else {pending[i]}
    ensures pending[i] !in Singly(pending, i, devices)
  {
    assert pending[..i + 1] == pending[..i] + [pending[i]];
  }

  /** How the handling of some rows ended: those in `done` are recorded, `lost` sent to and not. */
  datatype Result = Result(rows: map<nat, Row>, crashed: bool, sent: set<nat>, lost: set<nat>, done: set<nat>)

  ghost predicate ResultOk(start: map<nat, Row>, r: Result, devices: map<nat, Device>, world: World) {
    && Handled(start, r.rows, r.done, r.sent - r.lost, devices, world.reply) && r.lost <= r.sent <= start.Keys
        && r.done !! r.lost
    && (!r.crashed ==> r.lost == {}) && (forall d :: d in r.lost ==>
        start[d].status.Pending? && d in devices && devices[d].token)
  }

  /** One row on its own: cancelled when there is no token to send to, else sent and recorded. */
  method SendRow(start: map<nat, Row>, was: Result, d: nat, devices: map<nat, Device>, world: World, k: nat)
    returns (r: Result)
    requires ResultOk(start, was, devices, world) && !was.crashed && d in start && d !in was.done
        && start[d].status.Pending?
    requires d in devices && !Batched(devices, d)
    ensures ResultOk(start, r, devices, world) && |r.lost| <= 1
    ensures if r.crashed then r.done == was.done else r.done == was.done + {d}
    ensures was.sent <= r.sent <= was.sent + {d}
  {
    assert was.sent - was.lost == was.sent;
    var sendable := devices[d].Apple? && devices[d].token;
    match world.fate(k) {
      case DiesFirst => return was.(crashed := true);
      case DiesAfterSend =>
        if !sendable {
          return was.(crashed := true);
        }
        assert was.sent + {d} - {d} == was.sent;
        return was.(crashed := true, sent := was.sent + {d}, lost := {d});
      case Commits =>
        if !sendable {
          CancelHandled(start, was.rows, was.done, was.sent, d, devices, world.reply);
          return was.(rows := was.rows[d := was.rows[d].(status := Cancelled)], done := was.done + {d});
        }
        BatchHandled(start, was.rows, was.done, was.sent, {d}, devices, world);
        assert was.sent + {d} - {} == was.sent + {d};
        return was.(rows := RecordAll(was.rows, {d}, world), sent := was.sent + {d}, done := was.done + {d});
    }
  }

  /** Everything else, row by row, each recorded before the next. */
  method SendSingly(start: map<nat, Row>, was: Result, devices: map<nat, Device>, pending: seq<nat>, world: World,
      k0: nat)
    returns (r: Result, k: nat)
    requires ResultOk(start, was, devices, world) && !was.crashed && Distinct(pending) && Members(pending) <= start.Keys
    requires forall d :: d in pending ==> d in devices && start[d].status.Pending?
    requires forall d :: d in was.done ==> Batched(devices, d)
    ensures ResultOk(start, r, devices, world) && |r.lost| <= 1
    ensures !r.crashed ==> r.done == was.done + Singly(pending, |pending|, devices)
  {
    r, k := was, k0;
    var i := 0;
    while i < |pending|
      invariant i <= |pending| && ResultOk(start, r, devices, world) && !r.crashed
      invariant r.done == was.done + Singly(pending, i, devices)
    {
      var d := pending[i];
      assert d in Members(pending);
      OneMoreSingly(pending, i, devices);
      if !Batched(devices, d) {
        r := SendRow(start, r, d, devices, world, k);
        if r.crashed {
          return;
        }
        k := k + 1;
      }
      i := i + 1;
    }
  }

  /** Every pending row of a registered device, the batched ones first. */
  method SendAll(start: map<nat, Row>, devices: map<nat, Device>, world: World) returns (r: Result, k: nat)
    ensures ResultOk(start, r, devices, world) && OneUnit(r.lost, devices)
    ensures !r.crashed ==> forall d :: d in start && start[d].status.Pending? && d in devices ==> d in r.done
  {
    var android: seq<nat> := Listed<nat>(set d | d in start && start[d].status.Pending? && Batched(devices, d));
    assert forall d :: d in android <==> d in Members(android);
    var rows, crashed, sent, lost, k1 := SendAndroid(start, devices, android, world, 1);
    r, k := Result(rows, crashed, sent, lost, sent - lost), k1;
    if !crashed {
      var pending: seq<nat> := Listed<nat>(set d | d in start && start[d].status.Pending? && d in devices);
      assert forall d :: d in pending <==> d in Members(pending);
      assert sent - lost == sent;
      r, k := SendSingly(start, r, devices, pending, world, k);
      assert pending[..|pending|] == pending;
    }
  }

  /** One tick's work on a bulletin: rows for the matched devices, the sends, and the mark that all are through. */
  method Dispatch(f: Fan, devices: map<nat, Device>, matched: set<nat>, world: World) returns (f': Fan, t: Tick)
    requires !f.notified
    ensures Step(f, t, f') && t.devices == devices && t.replies == world.reply && t.matched == matched
  {
    if !world.fate(0).Commits? {
      return f, Tick(devices, world.reply, matched, true, {}, {});
    }
    var start := Inserted(f.rows, matched);
    var r, k := SendAll(start, devices, world);
    var crashed := r.crashed || !world.fate(k).Commits?;
    t := Tick(devices, world.reply, matched, crashed, r.sent, r.lost);
    f' := Fan(r.rows, !crashed && AllDone(r.rows));
    HandledSteps(f, f', t, start, r.done);
  }

  lemma HandledSteps(f: Fan, f': Fan, t: Tick, start: map<nat, Row>, done: set<nat>)
    requires !f.notified && start == Inserted(f.rows, t.matched)
        && Handled(start, f'.rows, done, t.sent - t.lost, t.devices, t.replies)
    requires t.lost <= t.sent <= start.Keys && done !! t.lost
    requires forall d :: d in t.lost ==> start[d].status.Pending? && d in t.devices && t.devices[d].token
    requires OneUnit(t.lost, t.devices) && (!t.crashed ==> t.lost == {})
    requires !t.crashed ==> forall d :: d in start && start[d].status.Pending? && d in t.devices ==> d in done
    requires (f'.notified ==> AllDone(f'.rows)) && (!t.crashed ==> (f'.notified <==> AllDone(f'.rows)))
    ensures Step(f, t, f')
  {
    forall d | d in f'.rows ensures RowStep(Before(f, d), f'.rows[d], t, d) {
      assert start[d] == Before(f, d);
    }
  }

  /* ----- Whole runs ----- */

  ghost predicate Run(fans: seq<Fan>, ticks: seq<Tick>) {
    && |fans| == |ticks| + 1 && fans[0].rows == map[]
    && forall i :: 0 <= i < |ticks| ==> Ticked(fans, ticks, i)
  }

  ghost predicate Ticked(fans: seq<Fan>, ticks: seq<Tick>, i: nat)
    requires i < |ticks| < |fans|
  {
    Step(fans[i], ticks[i], fans[i + 1])
  }

  predicate RowOk(row: Row) { row.attempts <= MAX_ATTEMPTS && (row.status.Pending? ==> row.attempts < MAX_ATTEMPTS) }

  /** Recorded attempts never pass the limit. */
  lemma {:induction false} AttemptsAreBounded(fans: seq<Fan>, ticks: seq<Tick>, i: nat, d: nat)
    requires Run(fans, ticks) && i < |fans|
    ensures RowOk(Before(fans[i], d))
  {
    if i > 0 {
      AttemptsAreBounded(fans, ticks, i - 1, d);
      assert Ticked(fans, ticks, i - 1);
      if d in fans[i].rows { assert RowStep(Before(fans[i - 1], d), fans[i].rows[d], ticks[i - 1], d); }
    }
  }

  /** A row once sent, failed or cancelled stays so, and its device is sent to in no later tick. */
  lemma {:induction false} DoneForGood(fans: seq<Fan>, ticks: seq<Tick>, i: nat, j: nat, d: nat)
    requires Run(fans, ticks) && i <= j < |fans| && d in fans[i].rows && !fans[i].rows[d].status.Pending?
    ensures d in fans[j].rows && fans[j].rows[d] == fans[i].rows[d]
    ensures j < |ticks| ==> d !in ticks[j].sent
    decreases j - i
  {
    if i < j {
      DoneForGood(fans, ticks, i, j - 1, d);
      assert Ticked(fans, ticks, j - 1);
      assert RowStep(Before(fans[j - 1], d), fans[j].rows[d], ticks[j - 1], d);
    }
    if j < |ticks| {
      assert Ticked(fans, ticks, j);
      assert RowStep(Before(fans[j], d), fans[j + 1].rows[d], ticks[j], d);
    }
  }

  ghost function SendsTo(ticks: seq<Tick>, d: nat): nat {
    if ticks == [] then 0 else SendsTo(ticks[..|ticks| - 1], d) + if d in ticks[|ticks| - 1].sent then 1 else 0
  }

  ghost function LossesOf(ticks: seq<Tick>, d: nat): nat {
    if ticks == [] then 0 else LossesOf(ticks[..|ticks| - 1], d) + if d in ticks[|ticks| - 1].lost then 1 else 0
  }

  ghost function Crashes(ticks: seq<Tick>): nat {
    if ticks == [] then 0 else Crashes(ticks[..|ticks| - 1]) + if ticks[|ticks| - 1].crashed then 1 else 0
  }

  lemma StepCounts(f: Fan, t: Tick, f': Fan, d: nat)
    requires Step(f, t, f')
    ensures Before(f', d).attempts + (if d in t.lost then 1 else 0) ==
        Before(f, d).attempts + (if d in t.sent then 1 else 0)
    ensures d in t.lost ==> t.crashed
  {
    if d in f'.rows { assert RowStep(Before(f, d), f'.rows[d], t, d); }
  }

  /**
   Every send is a recorded attempt or was lost to a crash, so a device is sent to at most three times and once
   more a crash.
   */
  lemma {:induction false} SendsAreAccountedFor(fans: seq<Fan>, ticks: seq<Tick>, i: nat, d: nat)
    requires Run(fans, ticks) && i < |fans|
    ensures SendsTo(ticks[..i], d) == Before(fans[i], d).attempts + LossesOf(ticks[..i], d)
    ensures LossesOf(ticks[..i], d) <= Crashes(ticks[..i])
        && SendsTo(ticks[..i], d) <= MAX_ATTEMPTS + Crashes(ticks[..i])
  {
    AttemptsAreBounded(fans, ticks, i, d);
    if i > 0 {
      SendsAreAccountedFor(fans, ticks, i - 1, d);
      OneMoreTick(fans, ticks, i - 1, d);
    }
  }

  lemma OneMoreTick(fans: seq<Fan>, ticks: seq<Tick>, i: nat, d: nat)
    requires Run(fans, ticks) && i < |ticks|
    ensures var (was, more) := (ticks[..i], ticks[..i + 1]);
            && SendsTo(more, d) - SendsTo(was, d) ==
                 Before(fans[i + 1], d).attempts - Before(fans[i], d).attempts + LossesOf(more, d) - LossesOf(was, d)
            && LossesOf(more, d) - LossesOf(was, d) <= Crashes(more) - Crashes(was)
  {
    assert ticks[..i + 1][..i] == ticks[..i] && Ticked(fans, ticks, i);
    StepCounts(fans[i], ticks[i], fans[i + 1], d);
  }

  ghost predicate FixedDevices(ticks: seq<Tick>, matched: set<nat>) {
    forall i :: 0 <= i < |ticks| ==> ticks[i].matched == matched && matched <= ticks[i].devices.Keys
  }

  /** A row still pending after a tick was pending before it, and has one more attempt unless the tick crashed. */
  lemma PendingStep(f: Fan, t: Tick, f': Fan, d: nat)
    requires Step(f, t, f') && d in t.matched && d in t.devices && Before(f', d).status.Pending?
    ensures Before(f, d).status.Pending?
    ensures Before(f', d).attempts >= Before(f, d).attempts + if t.crashed then 0 else 1
  {
    if d in f'.rows { assert RowStep(Before(f, d), f'.rows[d], t, d); }
  }

  lemma {:induction false} PendingHasTried(fans: seq<Fan>, ticks: seq<Tick>, i: nat, matched: set<nat>)
    requires Run(fans, ticks) && FixedDevices(ticks, matched) && i < |fans|
    ensures fans[i].rows.Keys <= matched
    ensures forall d :: d in matched && Before(fans[i], d).status.Pending? ==>
        i - Crashes(ticks[..i]) <= Before(fans[i], d).attempts
  {
    if i > 0 {
      PendingHasTried(fans, ticks, i - 1, matched);
      assert ticks[..i][..i - 1] == ticks[..i - 1];
      assert Ticked(fans, ticks, i - 1) && ticks[i - 1].matched == matched;
      forall d | d in matched && Before(fans[i], d).status.Pending?
        ensures i - Crashes(ticks[..i]) <= Before(fans[i], d).attempts
      {
        PendingStep(fans[i - 1], ticks[i - 1], fans[i], d);
      }
    }
  }

  lemma RunPrefix(fans: seq<Fan>, ticks: seq<Tick>, n: nat)
    requires Run(fans, ticks) && n <= |ticks|
    ensures Run(fans[..n + 1], ticks[..n])
  {
    var fans', ticks' := fans[..n + 1], ticks[..n];
    forall i | 0 <= i < n ensures Ticked(fans', ticks', i) { assert Ticked(fans, ticks, i); }
  }

  /** After three ticks that do not crash no row is pending. */
  lemma ThreeTriesFinish(fans: seq<Fan>, ticks: seq<Tick>, matched: set<nat>)
    requires Run(fans, ticks) && FixedDevices(ticks, matched) && |ticks| - Crashes(ticks) >= 3
    ensures AllDone(fans[|ticks|].rows)
  {
    var n := |ticks|;
    assert ticks[..n] == ticks;
    PendingHasTried(fans, ticks, n, matched);
    forall d | d in fans[n].rows ensures !fans[n].rows[d].status.Pending? {
      AttemptsAreBounded(fans, ticks, n, d);
      assert Before(fans[n], d) == fans[n].rows[d];
    }
  }

  /** With a fixed set of devices a bulletin is through, and marked so, after three ticks that do not crash. */
  lemma ThreeCleanTicks(fans: seq<Fan>, ticks: seq<Tick>, matched: set<nat>)
    requires Run(fans, ticks) && FixedDevices(ticks, matched)
    ensures |ticks| - Crashes(ticks) <= 3
    ensures |ticks| - Crashes(ticks) == 3 ==> fans[|ticks|].notified && AllDone(fans[|ticks|].rows)
    decreases |ticks|
  {
    var n := |ticks|;
    if n > 0 {
      RunPrefix(fans, ticks, n - 1);
      ThreeCleanTicks(fans[..n], ticks[..n - 1], matched);
      assert Ticked(fans, ticks, n - 1) && fans[..n][n - 1] == fans[n - 1];
      if n - Crashes(ticks) == 3 { ThreeTriesFinish(fans, ticks, matched); }
    }
  }
}
