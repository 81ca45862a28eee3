/** One tick of the push pipeline: it drains the due jobs batch by batch and yields to more urgent ones. */
module PushTick {
  import opened Options
  import opened Sequences
  import opened PushRounds
  import opened PushRuns

  /**
   What goes on around a tick. `between` is the table, and the time, the k-th statement
   finds, after whatever other transactions left; `locked` the rows they hold locked then;
   `turn` what the processing of one job comes to, a crash included.
   */
  datatype World = World(between: (nat, Push) -> Push, locked: nat -> set<nat>, turn: (nat, nat, Push) -> Push)

  predicate Due(s: Push, id: nat, skip: set<nat>) {
    && id in s.jobs && s.jobs[id].status.Pending?
    && s.jobs[id].fireAt <= s.clock && s.jobs[id].availableAt <= s.clock && id !in skip
  }

  function DueJobs(s: Push, skip: set<nat>): set<nat> {
    set id | id in s.jobs && Due(s, id, skip)
  }

  predicate Before(s: Push, a: nat, b: nat)
    requires a in s.jobs && b in s.jobs
  {
    || s.jobs[a].priority < s.jobs[b].priority
    || (s.jobs[a].priority == s.jobs[b].priority && s.jobs[a].fireAt <= s.jobs[b].fireAt)
  }

  /** `ids` is a claim of up to `batch` of `due`: the foremost of them, in order. */
  ghost predicate Foremost(s: Push, due: set<nat>, batch: nat, ids: seq<nat>)
    requires due <= s.jobs.Keys
  {
    && Members(ids) <= due && Distinct(ids) && |ids| <= batch
    && (|ids| < batch ==> due <= Members(ids))
    && (forall i, j :: 0 <= i < j < |ids| ==> ids[i] in due && ids[j] in due && Before(s, ids[i], ids[j]))
    && (forall i, o :: 0 <= i < |ids| && o in due && o !in ids ==> ids[i] in due && Before(s, ids[i], o))
  }

  lemma {:induction false} FirstOf(s: Push, rest: set<nat>) returns (first: nat)
    requires rest != {} && rest <= s.jobs.Keys
    ensures first in rest && forall o :: o in rest ==> Before(s, first, o)
    decreases |rest|
  {
    var x :| x in rest;
    first := x;
    var others := rest - {x};
    assert rest == {x} + others;
    if others != {} {
      var y := FirstOf(s, others);
      first := if Before(s, x, y) then x else y;
      forall o | o in rest ensures Before(s, first, o) {
        if o != x { assert Before(s, y, o); }
      }
    }
  }

  /** The choice among equals is left open, as the ordering leaves it. */
  method TakeForemost(s: Push, due: set<nat>, batch: nat) returns (ids: seq<nat>)
    requires due <= s.jobs.Keys
    ensures Foremost(s, due, batch, ids)
  {
    ids := [];
    var rest := due;
    while |ids| < batch && rest != {}
      invariant rest == due - Members(ids) && Members(ids) <= due && Distinct(ids) && |ids| <= batch
      invariant forall i, j :: 0 <= i < j < |ids| ==> Before(s, ids[i], ids[j])
      invariant forall i, o :: 0 <= i < |ids| && o in rest ==> Before(s, ids[i], o)
      decreases rest
    {
      ghost var first := FirstOf(s, rest);
      var id: nat :| id in rest && forall o :: o in rest ==> Before(s, id, o);
      assert Members(ids + [id]) == Members(ids) + {id};
      ids := ids + [id];
      rest := rest - {id};
    }
    assert forall o :: o in due && o !in ids ==> o in rest;
  }

  /** The claims gone stale, as the tick may recover them. */
  function Stale(cfg: Config, s: Push): set<nat> {
    set id | id in s.jobs && s.jobs[id].status.Processing?
      && s.jobs[id].lockedAt.Some? && s.jobs[id].lockedAt.value < s.clock - cfg.staleAfter
  }

  /** The jobs in `ids` are recovered and the others as they were. */
  ghost predicate Recovers(cfg: Config, s: Push, ids: set<nat>, s': Push) {
    && s'.jobs.Keys == s.jobs.Keys && s'.ds == s.ds && s'.clock == s.clock
    && forall id :: id in s.jobs ==>
         s'.jobs[id] == if id in ids then Recovered(cfg, s.jobs[id], s.clock) else s.jobs[id]
  }

  /** Each stale claim nobody holds locked is failed or put back, one by one; the other jobs stay as they are. */
  method RecoverStale(cfg: Config, s: Push, locked: set<nat>) returns (s': Push)
    ensures var ids := Stale(cfg, s) - locked;
            && Enabled(cfg, s, Recover(ids, s.clock)) && Recovers(cfg, s, ids, s')
            && (s.ds.Keys == s.jobs.Keys ==> s' == Next(cfg, s, Recover(ids, s.clock)))
    ensures forall id ::
              (id in s'.jobs && id !in locked && s'.jobs[id].status == Processing && s'.jobs[id].lockedAt.Some?) ==>
                s.clock - cfg.staleAfter <= s'.jobs[id].lockedAt.value
  {
    ghost var ids := Stale(cfg, s) - locked;
    s' := s;
    var rest := Stale(cfg, s) - locked;
    while rest != {}
      invariant rest <= ids && s'.ds == s.ds && s'.clock == s.clock && s'.jobs.Keys == s.jobs.Keys
      invariant forall id :: id in s.jobs ==>
        s'.jobs[id] == if id in ids - rest then Recovered(cfg, s.jobs[id], s.clock) else s.jobs[id]
      decreases rest
    {
      var id: nat :| id in rest;
      var job := s'.jobs[id].(lockedBy := None, lockedAt := None, attempts := s'.jobs[id].attempts + 1);
      if job.attempts >= job.maxAttempts {
        job := job.(status := Failed, error := Some(StaleLock));
      } else {
        job := job.(status := Pending, availableAt := s.clock + Backoff(cfg.delay, job.attempts - 1));
      }
      s' := s'.(jobs := s'.jobs[id := job]);
      rest := rest - {id};
    }
  }

  /** Claims what is due and not locked by anyone else, leaving out `skip`. */
  method ClaimDue(cfg: Config, worker: nat, batch: nat, s: Push, skip: set<nat>, locked: set<nat>)
    returns (claimed: seq<nat>, s': Push)
    ensures Foremost(s, DueJobs(s, skip) - locked, batch, claimed)
    ensures s' == Next(cfg, s, Claim(worker, Members(claimed), s.clock))
    ensures Enabled(cfg, s, Claim(worker, Members(claimed), s.clock))
    ensures |claimed| <= batch && forall i, j :: 0 <= i < j < |claimed| ==>
              claimed[i] in s.jobs && claimed[j] in s.jobs && claimed[i] != claimed[j]
              && Urgent(s.jobs[claimed[i]], s.jobs[claimed[j]])
    ensures forall id :: id in claimed ==> Claimable(s, id) && id !in skip && id !in locked
    ensures forall id :: Claimable(s, id) && id !in skip && id !in locked && id !in claimed ==>
              |claimed| == batch && forall c :: c in claimed ==> c in s.jobs && Urgent(s.jobs[c], s.jobs[id])
  {
    claimed := TakeForemost(s, DueJobs(s, skip) - locked, batch);
    s' := Next(cfg, s, Claim(worker, Members(claimed), s.clock));
    assert forall id :: id in claimed ==> id in Members(claimed);
    assert forall id :: Claimable(s, id) && id !in skip && id !in locked ==> id in DueJobs(s, skip) - locked;
  }

  /** Pending, with its fire time and its wait behind it. */
  predicate Claimable(s: Push, id: nat) {
    && id in s.jobs && s.jobs[id].status == Pending && s.jobs[id].fireAt <= s.clock && s.jobs[id].availableAt <= s.clock
  }

  /** Of lower priority number, or as low and not later to fire. */
  predicate Urgent(a: Job, b: Job) { a.priority < b.priority || (a.priority == b.priority && a.fireAt <= b.fireAt) }

  function Outranking(s: Push, priority: int, skip: set<nat>): set<nat> {
    set id | id in s.jobs && Due(s, id, skip) && s.jobs[id].priority < priority
  }

  /** Releasing a claim leaves each job as it was when claimed: attempts, times and all. */
  lemma HandedBackUntouched(cfg: Config, job: Job, ds: seq<Delivery>, worker: nat, ids: set<nat>, kept: set<nat>,
      id: nat, now: int)
    requires job.status.Pending? && id in ids && id in kept
    ensures var claimed := After(cfg, job, ds, Claim(worker, ids, now), id);
            Mine(claimed.0, worker) && After(cfg, claimed.0, claimed.1, Release(worker, kept), id) ==
                (job.Unlocked(), ds)
  {
  }

  /* ----- A tick, statement by statement ----- */

  /** What a statement of the tick is for; a hand-back gives up the rest of what the `claim`-th took. */
  datatype Act = Recovery | Claiming(ids: seq<nat>) | Looking | Turning(id: nat) | HandingBack(claim: nat,
      ids: seq<nat>)

  /**
   A job's turn: the statement it came with, the one that claimed it, its priority then, what the tick last saw of
   the table, and what it had handled.
   */
  datatype Passage = Passage(id: nat, at: nat, claim: nat, priority: int, seen: Push, handled: set<nat>,
      locked: set<nat>)

  /** The statements of a tick, the tables before, between and after them, and the turns among them. */
  datatype History = History(acts: seq<Act>, states: seq<Push>, log: seq<Passage>)

  /** `s'` is what the k-th statement, for `act`, makes of the table `s` and of what others did to it since. */
  ghost predicate Did(cfg: Config, worker: nat, world: World, k: nat, s: Push, act: Act, s': Push) {
    var found := world.between(k, s);
    match act
    case Recovery => Recovers(cfg, found, Stale(cfg, found) - world.locked(k), s')
    case Claiming(ids) => s' == Next(cfg, found, Claim(worker, Members(ids), found.clock))
    case Looking => s' == found
    case Turning(id) => s' == world.turn(k, id, s)
    case HandingBack(_, ids) => s' == Next(cfg, found, Release(worker, Members(ids)))
  }

  /** The table as the k-th statement finds it. */
  function FoundBy(world: World, states: seq<Push>, k: nat): Push
    requires k < |states|
  {
    world.between(k, states[k])
  }

  /** The jobs given their turn, in order. */
  function Turns(acts: seq<Act>): seq<nat> {
    if acts == [] then []
    else
      var last := acts[|acts| - 1];
      Turns(acts[..|acts| - 1]) + if last.Turning? then [last.id] else []
  }

  /** A hand-back gives up the end of a claim, for a job more urgent than the next of it. */
  ghost predicate Yields(world: World, acts: seq<Act>, states: seq<Push>, k: nat)
    requires k < |acts| <= |states| && acts[k].HandingBack?
  {
    var (c, rest) := (acts[k].claim, acts[k].ids);
    && c < k && acts[c].Claiming? && rest != [] && |rest| < |acts[c].ids|
    && rest == acts[c].ids[|acts[c].ids| - |rest|..]
    && rest[0] in FoundBy(world, states, c).jobs
    && exists o: nat :: Claimable(states[k], o) && o !in Turns(acts[..k])
         && states[k].jobs[o].priority < FoundBy(world, states, c).jobs[rest[0]].priority
  }

  ghost predicate Stepped(cfg: Config, worker: nat, world: World, acts: seq<Act>, states: seq<Push>, k: nat)
    requires k < |acts| < |states|
  {
    && Did(cfg, worker, world, k, states[k], acts[k], states[k + 1])
    && (acts[k].HandingBack? ==> Yields(world, acts, states, k))
  }

  /** A turn is of a claimed job, and right after its claim or after a look at the table. */
  ghost predicate Tied(world: World, acts: seq<Act>, states: seq<Push>, p: Passage)
    requires |acts| < |states|
  {
    && p.claim < p.at < |acts| && acts[p.at] == Turning(p.id) && acts[p.claim].Claiming? && p.id in acts[p.claim].ids
    && var claimed := FoundBy(world, states, p.claim);
       && p.id in claimed.jobs && p.priority == claimed.jobs[p.id].priority
       && if p.at == p.claim + 1 then p.seen == claimed && p.locked == world.locked(p.claim)
          else acts[p.at - 1].Looking? && p.seen == states[p.at] && p.locked == {}
  }

  /** No job due then, unlocked and not handled by this tick, was strictly more urgent. */
  ghost predicate Fair(p: Passage) {
    forall o :: Due(p.seen, o, p.handled) && o !in p.locked ==> p.priority <= p.seen.jobs[o].priority
  }

  function Ids(log: seq<Passage>): seq<nat> { seq(|log|, i requires 0 <= i < |log| => log[i].id) }

  ghost predicate LogOk(log: seq<Passage>) {
    && Distinct(Ids(log))
    && forall i :: 0 <= i < |log| ==>
         Fair(log[i]) && log[i].handled == Members(Ids(log[..i])) && log[i].id !in log[i].handled
  }

  ghost predicate Told(cfg: Config, worker: nat, world: World, h: History) {
    && |h.states| == |h.acts| + 1 && LogOk(h.log) && Turns(h.acts) == Ids(h.log)
    && (forall k :: 0 <= k < |h.acts| ==> Stepped(cfg, worker, world, h.acts, h.states, k))
    && (forall p :: p in h.log ==> Tied(world, h.acts, h.states, p))
  }

  predicate Ends(act: Act, id: nat) { act == Turning(id) || (act.HandingBack? && id in act.ids) }

  /** A job the i-th statement claimed is later given its turn or handed back. */
  ghost predicate Ended(acts: seq<Act>, i: nat, id: nat) { exists j :: i < j < |acts| && Ends(acts[j], id) }

  ghost predicate ClaimEnded(acts: seq<Act>, i: nat)
    requires i < |acts|
  {
    acts[i].Claiming? ==> forall id :: id in acts[i].ids ==> Ended(acts, i, id)
  }

  /** Nothing the tick claimed is left claimed. */
  ghost predicate AllEnded(acts: seq<Act>) { forall i :: 0 <= i < |acts| ==> ClaimEnded(acts, i) }

  lemma LogGrows(log: seq<Passage>, p: Passage)
    requires LogOk(log) && Fair(p) && p.handled == Members(Ids(log)) && p.id !in p.handled
    ensures LogOk(log + [p]) && Members(Ids(log + [p])) == Members(Ids(log)) + {p.id}
  {
    var log' := log + [p];
    assert Ids(log') == Ids(log) + [p.id];
    forall i | 0 <= i < |log'|
      ensures Fair(log'[i]) && log'[i].handled == Members(Ids(log'[..i])) && log'[i].id !in log'[i].handled
    {
      assert log'[..i] == if i == |log| then log else log[..i];
    }
    assert p.id !in Ids(log);
  }

  function Grown(h: History, act: Act, s: Push): History { h.(acts := h.acts + [act], states := h.states + [s]) }

  lemma SteppedStays(cfg: Config, worker: nat, world: World, h: History, act: Act, s: Push, k: nat)
    requires k < |h.acts| < |h.states| && Stepped(cfg, worker, world, h.acts, h.states, k)
    ensures var g := Grown(h, act, s); Stepped(cfg, worker, world, g.acts, g.states, k)
  {
    var g := Grown(h, act, s);
    assert g.acts[..k] == h.acts[..k];
  }

  lemma HistoryGrows(cfg: Config, worker: nat, world: World, h: History, act: Act, s: Push)
    requires Told(cfg, worker, world, h)
    requires var g := Grown(h, act, s); Stepped(cfg, worker, world, g.acts, g.states, |h.acts|)
    ensures var g := Grown(h, act, s);
            && |g.states| == |g.acts| + 1 && Turns(g.acts) == Ids(h.log) + (if act.Turning? then [act.id] else [])
            && (forall k :: 0 <= k < |g.acts| ==> Stepped(cfg, worker, world, g.acts, g.states, k))
            && (forall p :: p in h.log ==> Tied(world, g.acts, g.states, p))
  {
    var g := Grown(h, act, s);
    assert g.acts[..|h.acts|] == h.acts;
    forall k | 0 <= k < |h.acts| ensures Stepped(cfg, worker, world, g.acts, g.states, k) {
      SteppedStays(cfg, worker, world, h, act, s, k);
    }
    forall p | p in h.log ensures Tied(world, g.acts, g.states, p) { assert Tied(world, h.acts, h.states, p); }
  }

  lemma StatementTold(cfg: Config, worker: nat, world: World, h: History, act: Act, s: Push)
    requires Told(cfg, worker, world, h) && !act.Turning?
    requires var g := Grown(h, act, s); Stepped(cfg, worker, world, g.acts, g.states, |h.acts|)
    ensures Told(cfg, worker, world, Grown(h, act, s))
  {
    HistoryGrows(cfg, worker, world, h, act, s);
  }

  lemma TurnTold(cfg: Config, worker: nat, world: World, h: History, s: Push, p: Passage)
    requires Told(cfg, worker, world, h) && Did(cfg, worker, world, |h.acts|, h.states[|h.acts|], Turning(p.id), s)
    requires var g := Grown(h, Turning(p.id), s); Tied(world, g.acts, g.states, p)
    requires Fair(p) && p.handled == Members(Ids(h.log)) && p.id !in p.handled
    ensures Told(cfg, worker, world, Grown(h, Turning(p.id), s).(log := h.log + [p]))
    ensures Members(Ids(h.log + [p])) == Members(Ids(h.log)) + {p.id}
  {
    HistoryGrows(cfg, worker, world, h, Turning(p.id), s);
    LogGrows(h.log, p);
    assert Ids(h.log + [p]) == Ids(h.log) + [p.id];
  }

  /** Once every job of the latest claim is let go, nothing is left claimed. */
  lemma BatchEnds(before: seq<Act>, acts: seq<Act>)
    requires before != [] && before <= acts && AllEnded(before[..|before| - 1])
    requires ClaimEnded(acts, |before| - 1) && forall j :: |before| <= j < |acts| ==> !acts[j].Claiming?
    ensures AllEnded(acts)
  {
    var c := |before| - 1;
    forall i | 0 <= i < c ensures ClaimEnded(acts, i) {
      assert ClaimEnded(before[..c], i) && before[..c][i] == acts[i];
      if acts[i].Claiming? {
        forall id | id in acts[i].ids ensures Ended(acts, i, id) {
          assert Ended(before[..c], i, id);
          var j :| i < j < c && Ends(before[..c][j], id);
          assert before[..c][j] == acts[j];
        }
      }
    }
  }

  /** No statement of the tick finds a job outside `universe`. */
  ghost predicate Within(world: World, universe: set<nat>) {
    forall k, s :: world.between(k, s).jobs.Keys <= universe
  }

  lemma FirstIsFair(s: Push, skip: set<nat>, locked: set<nat>, batch: nat, claimed: seq<nat>, at: nat, claim: nat)
    requires Foremost(s, DueJobs(s, skip) - locked, batch, claimed) && claimed != []
    ensures claimed[0] in Members(claimed) && Due(s, claimed[0], skip)
    ensures Fair(Passage(claimed[0], at, claim, s.jobs[claimed[0]].priority, s, skip, locked))
  {
    assert claimed[0] in Members(claimed);
    forall o | Due(s, o, skip) && o !in locked ensures s.jobs[claimed[0]].priority <= s.jobs[o].priority {
      assert o in DueJobs(s, skip) - locked;
      if o in claimed {
        var j :| 0 <= j < |claimed| && claimed[j] == o;
      }
    }
  }

  lemma ClaimedAreDue(s: Push, skip: set<nat>, locked: set<nat>, batch: nat, claimed: seq<nat>, i: nat)
    requires Foremost(s, DueJobs(s, skip) - locked, batch, claimed) && i < |claimed|
    ensures claimed[i] in s.jobs && claimed[i] !in skip && claimed[i] !in Members(claimed[..i])
    ensures Members(claimed[..i + 1]) == Members(claimed[..i]) + {claimed[i]}
  {
    assert claimed[i] in Members(claimed);
    assert claimed[..i + 1] == claimed[..i] + [claimed[i]];
  }

  /** It ends with a claim. */
  predicate EndsInClaim(h: History) {
    h.acts != [] && h.acts[|h.acts| - 1].Claiming? && |h.states| == |h.acts| + 1
  }

  function Batch(h: History): seq<nat>
    requires EndsInClaim(h)
  {
    h.acts[|h.acts| - 1].ids
  }

  /** The table that claim found. */
  function ClaimedFrom(world: World, h: History): Push
    requires EndsInClaim(h)
  {
    FoundBy(world, h.states, |h.acts| - 1)
  }

  /** The last statement claimed a batch, and all claimed before are let go. */
  ghost predicate JustClaimed(world: World, batch: nat, h: History) {
    && EndsInClaim(h) && AllEnded(h.acts[..|h.acts| - 1])
    && var seen := ClaimedFrom(world, h);
       Foremost(seen, DueJobs(seen, Members(Ids(h.log))) - world.locked(|h.acts| - 1), batch, Batch(h))
  }

  /** Still at the batch the history `h0` ends with a claim of: `i` of its jobs are through. */
  ghost predicate AtBatch(h0: History, h: History, i: nat)
    requires EndsInClaim(h0) && i <= |Batch(h0)|
  {
    && h0.acts <= h.acts && h0.states <= h.states
    && (i == 0 ==> h == h0)
    && (forall j :: |h0.acts| <= j < |h.acts| ==> !h.acts[j].Claiming?)
    && (forall k :: 0 <= k < i ==> Ended(h.acts, |h0.acts| - 1, Batch(h0)[k]))
    && Members(Ids(h.log)) == Members(Ids(h0.log)) + Members(Batch(h0)[..i])
  }

  lemma EndedStays(acts: seq<Act>, more: seq<Act>, c: nat, id: nat)
    requires acts <= more && Ended(acts, c, id)
    ensures Ended(more, c, id)
  {
    var j :| c < j < |acts| && Ends(acts[j], id);
    assert more[j] == acts[j];
  }

  lemma AtBatchLooks(h0: History, h: History, i: nat, act: Act, s: Push)
    requires EndsInClaim(h0) && 0 < i <= |Batch(h0)| && AtBatch(h0, h, i) && !act.Claiming?
    ensures AtBatch(h0, Grown(h, act, s), i)
  {
    var g := Grown(h, act, s);
    forall k | 0 <= k < i ensures Ended(g.acts, |h0.acts| - 1, Batch(h0)[k]) {
      EndedStays(h.acts, g.acts, |h0.acts| - 1, Batch(h0)[k]);
    }
  }

  lemma AtBatchTurns(h0: History, h: History, i: nat, s: Push, p: Passage)
    requires EndsInClaim(h0) && i < |Batch(h0)| && AtBatch(h0, h, i) && p.id == Batch(h0)[i]
    requires Members(Ids(h.log + [p])) == Members(Ids(h.log)) + {p.id}
    ensures AtBatch(h0, Grown(h, Turning(p.id), s).(log := h.log + [p]), i + 1)
  {
    var g, claimed := Grown(h, Turning(p.id), s).(log := h.log + [p]), Batch(h0);
    assert claimed[..i + 1] == claimed[..i] + [claimed[i]];
    forall k | 0 <= k < i + 1 ensures Ended(g.acts, |h0.acts| - 1, claimed[k]) {
      if k < i {
        EndedStays(h.acts, g.acts, |h0.acts| - 1, claimed[k]);
      } else {
        assert Ends(g.acts[|h.acts|], claimed[k]);
      }
    }
  }

  lemma BatchIsThrough(h0: History, h: History, i: nat)
    requires EndsInClaim(h0) && AllEnded(h0.acts[..|h0.acts| - 1]) && i <= |Batch(h0)| && AtBatch(h0, h, i)
    requires forall k :: i <= k < |Batch(h0)| ==> Ended(h.acts, |h0.acts| - 1, Batch(h0)[k])
    ensures AllEnded(h.acts)
  {
    var c := |h0.acts| - 1;
    assert h.acts[c] == h0.acts[c];
    forall id | id in h.acts[c].ids ensures Ended(h.acts, c, id) {
      var k :| 0 <= k < |Batch(h0)| && Batch(h0)[k] == id;
    }
    BatchEnds(h0.acts, h.acts);
  }

  lemma NoneOutranks(s: Push, priority: int, handled: set<nat>, id: nat, at: nat, claim: nat)
    requires Outranking(s, priority, handled) == {}
    ensures Fair(Passage(id, at, claim, priority, s, handled, {}))
  {
    forall o | Due(s, o, handled) ensures priority <= s.jobs[o].priority {
      assert o !in Outranking(s, priority, handled);
    }
  }

  /** What is left of a batch is handed back for a job that outranks it. */
  lemma YieldTold(cfg: Config, worker: nat, world: World, h0: History, h: History, i: nat, s: Push)
    requires Told(cfg, worker, world, h) && EndsInClaim(h0) && 0 < i < |Batch(h0)| && AtBatch(h0, h, i)
    requires Batch(h0)[i] in ClaimedFrom(world, h0).jobs
    requires var priority := ClaimedFrom(world, h0).jobs[Batch(h0)[i]].priority;
             Outranking(h.states[|h.acts|], priority, Members(Ids(h.log))) != {}
    requires Did(cfg, worker, world, |h.acts|, h.states[|h.acts|], HandingBack(|h0.acts| - 1, Batch(h0)[i..]), s)
    ensures var g := Grown(h, HandingBack(|h0.acts| - 1, Batch(h0)[i..]), s);
            && Told(cfg, worker, world, g) && AtBatch(h0, g, i)
            && forall k :: i <= k < |Batch(h0)| ==> Ended(g.acts, |h0.acts| - 1, Batch(h0)[k])
  {
    var c, n, ids := |h0.acts| - 1, |h.acts|, Batch(h0);
    var g := Grown(h, HandingBack(c, ids[i..]), s);
    var priority := ClaimedFrom(world, h0).jobs[ids[i]].priority;
    var o :| o in Outranking(h.states[n], priority, Members(Ids(h.log)));
    assert g.acts[..n] == h.acts && g.states[n] == h.states[n] && g.acts[c] == h0.acts[c];
    assert FoundBy(world, g.states, c) == ClaimedFrom(world, h0);
    assert Claimable(g.states[n], o) && o !in Turns(g.acts[..n]);
    assert Yields(world, g.acts, g.states, n);
    StatementTold(cfg, worker, world, h, HandingBack(c, ids[i..]), s);
    AtBatchLooks(h0, h, i, HandingBack(c, ids[i..]), s);
    forall k | i <= k < |ids| ensures Ended(g.acts, c, ids[k]) {
      assert ids[i..][k - i] == ids[k];
      assert Ends(g.acts[n], ids[k]);
    }
  }

  /** The next job of a batch is given its turn, right after the claim or after a look that found none more urgent. */
  lemma BatchTurns(cfg: Config, worker: nat, batch: nat, world: World, h0: History, h: History, i: nat, p: Passage)
    requires Told(cfg, worker, world, h) && JustClaimed(world, batch, h0) && i < |Batch(h0)| && AtBatch(h0, h, i)
    requires Batch(h0)[i] in ClaimedFrom(world, h0).jobs
    requires p.id == Batch(h0)[i] && p.at == |h.acts| && p.claim == |h0.acts| - 1 && p.handled == Members(Ids(h.log))
    requires p.priority == ClaimedFrom(world, h0).jobs[p.id].priority && Fair(p)
    requires i == 0 ==> p.seen == ClaimedFrom(world, h0) && p.locked == world.locked(p.claim)
    requires i > 0 ==>
               |h.acts| > |h0.acts| && h.acts[|h.acts| - 1].Looking? && p.seen == h.states[|h.acts|] && p.locked == {}
    ensures var g := Grown(h, Turning(p.id), world.turn(|h.acts|, p.id, h.states[|h.acts|])).(log := h.log + [p]);
            && Told(cfg, worker, world, g) && AtBatch(h0, g, i + 1)
            && Members(Ids(g.log)) == Members(Ids(h.log)) + {p.id}
  {
    var s := world.turn(|h.acts|, p.id, h.states[|h.acts|]);
    ClaimedAreDue(ClaimedFrom(world, h0), Members(Ids(h0.log)), world.locked(p.claim), batch, Batch(h0), i);
    var g := Grown(h, Turning(p.id), s);
    assert FoundBy(world, g.states, p.claim) == ClaimedFrom(world, h0) && g.acts[p.claim] == h0.acts[p.claim];
    assert Tied(world, g.acts, g.states, p);
    TurnTold(cfg, worker, world, h, s, p);
    AtBatchTurns(h0, h, i, s, p);
  }

  lemma BatchLooks(cfg: Config, worker: nat, world: World, h0: History, h: History, i: nat)
    requires Told(cfg, worker, world, h) && EndsInClaim(h0) && 0 < i <= |Batch(h0)| && AtBatch(h0, h, i)
    ensures var g := Grown(h, Looking, FoundBy(world, h.states, |h.acts|));
            Told(cfg, worker, world, g) && AtBatch(h0, g, i)
  {
    StatementTold(cfg, worker, world, h, Looking, FoundBy(world, h.states, |h.acts|));
    AtBatchLooks(h0, h, i, Looking, FoundBy(world, h.states, |h.acts|));
  }

  /** The next job of a claimed batch: its turn, or the rest handed back if a look finds a more urgent one. */
  method NextOfBatch(cfg: Config, worker: nat, batch: nat, world: World, h0: History, was: History, i: nat)
    returns (h: History, yielded: bool)
    requires Told(cfg, worker, world, was) && JustClaimed(world, batch, h0) && i < |Batch(h0)| && AtBatch(h0, was, i)
    ensures Told(cfg, worker, world, h) && (yielded ==> i > 0 && AllEnded(h.acts) && AtBatch(h0, h, i))
    ensures !yielded ==> AtBatch(h0, h, i + 1)
  {
    h, yielded := was, false;
    var c, claimed, seen := |h0.acts| - 1, Batch(h0), ClaimedFrom(world, h0);
    var id, handled := claimed[i], Members(Ids(h.log));
    ClaimedAreDue(seen, Members(Ids(h0.log)), world.locked(c), batch, claimed, i);
    var passage := Passage(id, |h.acts|, c, seen.jobs[id].priority, seen, handled, world.locked(c));
    if i > 0 {
      BatchLooks(cfg, worker, world, h0, h, i);
      var s := FoundBy(world, h.states, |h.acts|);
      h := Grown(h, Looking, s);
      if Outranking(s, passage.priority, handled) != {} {
        var s' := Next(cfg, FoundBy(world, h.states, |h.acts|), Release(worker, Members(claimed[i..])));
        YieldTold(cfg, worker, world, h0, h, i, s');
        h, yielded := Grown(h, HandingBack(c, claimed[i..]), s'), true;
        BatchIsThrough(h0, h, i);
        return;
      }
      passage := passage.(at := |h.acts|, seen := s, locked := {});
      NoneOutranks(s, passage.priority, handled, id, |h.acts|, c);
    } else {
      FirstIsFair(seen, Members(Ids(h0.log)), world.locked(c), batch, claimed, |h.acts|, c);
    }
    BatchTurns(cfg, worker, batch, world, h0, h, i, passage);
    h := Grown(h, Turning(id), world.turn(|h.acts|, id, h.states[|h.acts|])).(log := h.log + [passage]);
  }

  lemma BatchAddsTurns(world: World, batch: nat, h0: History, h: History, i: nat, universe: set<nat>)
    requires Within(world, universe) && JustClaimed(world, batch, h0) && 0 < i <= |Batch(h0)| && AtBatch(h0, h, i)
    requires Members(Ids(h0.log)) <= universe
    ensures Members(Ids(h0.log)) < Members(Ids(h.log)) <= universe
  {
    var ids, seen := Batch(h0), ClaimedFrom(world, h0);
    assert Members(ids[..i]) <= Members(ids) <= seen.jobs.Keys <= universe;
    assert ids[0] in ids[..i] && ids[0] in Members(ids);
    assert ids[0] !in Members(Ids(h0.log));
  }

  /**
   Works through a claimed batch; before each job but the first it looks for a more urgent one, and hands the
   rest back if there is.
   */
  method RunBatch(cfg: Config, worker: nat, batch: nat, world: World, h0: History, ghost universe: set<nat>)
    returns (h: History)
    requires Within(world, universe) && Told(cfg, worker, world, h0) && Members(Ids(h0.log)) <= universe
    requires JustClaimed(world, batch, h0) && Batch(h0) != []
    ensures Told(cfg, worker, world, h) && AllEnded(h.acts) && h0.acts <= h.acts && h0.states <= h.states
    ensures Members(Ids(h0.log)) < Members(Ids(h.log)) <= universe
  {
    h := h0;
    var i := 0;
    while i < |Batch(h0)|
      invariant i <= |Batch(h0)| && Told(cfg, worker, world, h) && AtBatch(h0, h, i)
    {
      var yielded: bool;
      h, yielded := NextOfBatch(cfg, worker, batch, world, h0, h, i);
      if yielded {
        BatchAddsTurns(world, batch, h0, h, i, universe);
        return;
      }
      i := i + 1;
    }
    BatchAddsTurns(world, batch, h0, h, i, universe);
    BatchIsThrough(h0, h, i);
  }

  lemma ClaimTold(cfg: Config, worker: nat, batch: nat, world: World, h: History, claimed: seq<nat>, s: Push)
    requires Told(cfg, worker, world, h) && AllEnded(h.acts)
    requires var seen := FoundBy(world, h.states, |h.acts|);
             && Foremost(seen, DueJobs(seen, Members(Ids(h.log))) - world.locked(|h.acts|), batch, claimed)
             && s == Next(cfg, seen, Claim(worker, Members(claimed), seen.clock))
    ensures Told(cfg, worker, world, Grown(h, Claiming(claimed), s))
        && JustClaimed(world, batch, Grown(h, Claiming(claimed), s))
  {
    StatementTold(cfg, worker, world, h, Claiming(claimed), s);
    assert Grown(h, Claiming(claimed), s).acts[..|h.acts|] == h.acts;
  }

  /** A claim that comes back empty leaves nothing due but what is handled or locked. */
  lemma NothingLeft(batch: nat, world: World, h: History)
    requires JustClaimed(world, batch, h) && Batch(h) == [] && Turns(h.acts) == Ids(h.log)
    ensures AllEnded(h.acts)
    ensures batch > 0 ==> forall id :: Claimable(ClaimedFrom(world, h), id) ==>
              id in Turns(h.acts) || id in world.locked(|h.acts| - 1)
  {
    BatchEnds(h.acts, h.acts);
    var seen := ClaimedFrom(world, h);
    forall id | Claimable(seen, id) && id !in Ids(h.log) && id !in world.locked(|h.acts| - 1) ensures batch == 0 {
      assert id in DueJobs(seen, Members(Ids(h.log))) - world.locked(|h.acts| - 1);
    }
  }

  /**
   A tick over finitely many jobs ends, handles each at most once and none out of turn. It recovers stale claims
   first, leaves nothing due unhandled but what others hold locked, and nothing claimed.
   */
  method RunTick(cfg: Config, worker: nat, batch: nat, world: World, start: Push, ghost universe: set<nat>)
    returns (h: History)
    requires Within(world, universe)
    ensures Told(cfg, worker, world, h) && AllEnded(h.acts) && Members(Ids(h.log)) <= universe
    ensures h.states[0] == start && |h.acts| >= 2 && h.acts[0] == Recovery && h.acts[|h.acts| - 1] == Claiming([])
    ensures batch > 0 ==> forall id :: Claimable(FoundBy(world, h.states, |h.acts| - 1), id) ==>
              id in Turns(h.acts) || id in world.locked(|h.acts| - 1)
  {
    h := RecoverFirst(cfg, worker, world, start);
    while true
      invariant Told(cfg, worker, world, h) && AllEnded(h.acts) && Members(Ids(h.log)) <= universe
      invariant h.states[0] == start && h.acts != [] && h.acts[0] == Recovery
      decreases universe - Members(Ids(h.log))
    {
      h := ClaimNext(cfg, worker, batch, world, h);
      if Batch(h) == [] {
        NothingLeft(batch, world, h);
        break;
      }
      h := RunBatch(cfg, worker, batch, world, h, universe);
    }
  }

  method RecoverFirst(cfg: Config, worker: nat, world: World, start: Push) returns (h: History)
    ensures Told(cfg, worker, world, h) && AllEnded(h.acts) && h.log == []
    ensures h.states[0] == start && h.acts == [Recovery]
  {
    var s := RecoverStale(cfg, world.between(0, start), world.locked(0));
    h := History([], [start], []);
    StatementTold(cfg, worker, world, h, Recovery, s);
    h := Grown(h, Recovery, s);
  }

  method ClaimNext(cfg: Config, worker: nat, batch: nat, world: World, was: History) returns (h: History)
    requires Told(cfg, worker, world, was) && AllEnded(was.acts)
    ensures Told(cfg, worker, world, h) && JustClaimed(world, batch, h)
    ensures was.acts <= h.acts && was.states <= h.states && h.log == was.log && |h.acts| == |was.acts| + 1
  {
    var k := |was.acts|;
    var claimed, s := ClaimDue(cfg, worker, batch, FoundBy(world, was.states, k), Members(Ids(was.log)),
        world.locked(k));
    ClaimTold(cfg, worker, batch, world, was, claimed, s);
    h := Grown(was, Claiming(claimed), s);
  }
}
