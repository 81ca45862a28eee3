/** The filing of one user's sync triggers, by writers that race each other. */
module SyncTriggers {
  import opened Options
  import opened Sequences
  import opened Spans

  const MAX_ROUNDS := 5

  /** Yet to go out; going out, tried or sent; or failed or cancelled, which frees its key. */
  datatype Stage = Waiting | Going | Over

  /**
   `after` is the trigger it was filed to follow, which makes up its dedupe key; one forced from the portal
   has the second it was forced in for a key, and follows none.
   */
  datatype Trigger = Trigger(after: Option<nat>, forced: Option<int>, fireAt: int, stage: Stage, source: Option<nat>)

  type Table = map<nat, Trigger>

  predicate Active(t: Table, id: nat) { id in t && !t[id].stage.Over? }

  /** Active, and not forced. */
  predicate Planned(t: Table, id: nat) { Active(t, id) && t[id].forced.None? }

  /** The active trigger `id` was filed after `key`. */
  predicate Holds(t: Table, id: nat, key: Option<nat>) { Planned(t, id) && t[id].after == key }

  /* ----- What one committed change does ----- */

  datatype Move =
    | File(id: nat, after: Option<nat>, fireAt: int, source: Option<nat>)
    | Force(id: nat, fireAt: int)
    | Ride(id: nat, source: Option<nat>)
    | SendOut(id: nat)
    | Fail(id: nat)

  predicate Enabled(t: Table, m: Move) {
    match m
    case File(id, after, at, _) =>
      && id !in t && (after.Some? ==> after.value in t && t[after.value].fireAt + MIN_GAP <= at)
      && forall o :: o in t ==> !Holds(t, o, after)
    case Force(id, at) => id !in t && forall o :: o in t && Active(t, o) ==> t[o].forced != Some(at)
    case Ride(id, _) => id in t && t[id].stage.Waiting?
    case SendOut(id) => Active(t, id)
    case Fail(id) => Active(t, id)
  }

  function Next(t: Table, m: Move): Table
    requires Enabled(t, m)
  {
    match m
    case File(id, after, at, source) => t[id := Trigger(after, None, at, Waiting, source)]
    case Force(id, at) => t[id := Trigger(None, Some(at), at, Waiting, None)]
    case Ride(id, source) => if t[id].source == source then t else t[id := t[id].(source := None)]
    case SendOut(id) => t[id := t[id].(stage := Going)]
    case Fail(id) => t[id := t[id].(stage := Over)]
  }

  /** Each trigger keeps the gap from the one it follows, and no two active ones were filed after the same. */
  ghost predicate Sound(t: Table) {
    && (forall id :: id in t && t[id].after.Some? ==>
          t[id].after.value in t && t[t[id].after.value].fireAt + MIN_GAP <= t[id].fireAt)
    && (forall a, b :: Planned(t, a) && Planned(t, b) && t[a].after == t[b].after ==> a == b)
  }

  /** Holds whatever fails, is forced or races. */
  lemma SoundKept(t: Table, m: Move)
    requires Sound(t) && Enabled(t, m)
    ensures Sound(Next(t, m))
  {
    var t' := Next(t, m);
    assert m.File? ==> forall o :: Planned(t, o) ==> !Holds(t, o, m.after);
    forall a, b | Planned(t', a) && Planned(t', b) && t'[a].after == t'[b].after ensures a == b {
      assert m.File? || (Planned(t, a) && Planned(t, b) && t[a].after == t[b].after);
    }
  }

  /* ----- While none fails, the triggers are one chain ----- */

  /** `chain` lists the table from its first trigger on, each after the one before. */
  ghost predicate Chain(t: Table, chain: seq<nat>) {
    && (forall id :: id in t <==> id in chain)
    && (forall i :: 0 <= i < |chain| ==> Linked(t, chain, i))
  }

  /** The trigger a new one follows when `chain` is all there is. */
  function LastOf(chain: seq<nat>): Option<nat> { if chain == [] then None else Some(chain[|chain| - 1]) }

  predicate Linked(t: Table, chain: seq<nat>, i: nat)
    requires i < |chain|
  {
    Holds(t, chain[i], LastOf(chain[..i]))
  }

  lemma {:induction false} ChainGaps(t: Table, chain: seq<nat>, i: nat, j: nat)
    requires Sound(t) && Chain(t, chain) && i < j < |chain|
    ensures t[chain[i]].fireAt + MIN_GAP <= t[chain[j]].fireAt
  {
    assert Linked(t, chain, j) && Linked(t, chain, i);
    if i < j - 1 { ChainGaps(t, chain, i, j - 1); }
  }

  /** A key no active trigger holds is the chain's end. */
  lemma FreeKeyIsLast(t: Table, chain: seq<nat>, key: Option<nat>)
    requires Chain(t, chain) && (key.Some? ==> key.value in t) && forall o :: o in t ==> !Holds(t, o, key)
    ensures key == LastOf(chain)
  {
    forall i | 0 <= i < |chain| ensures LastOf(chain[..i]) != key {
      assert Linked(t, chain, i) && !Holds(t, chain[i], key);
    }
    assert chain[..0] == [];
    if key.Some? {
      var i :| 0 <= i < |chain| && chain[i] == key.value;
      assert LastOf(chain[..i + 1]) == key;
    }
  }

  ghost function Extended(chain: seq<nat>, m: Move): seq<nat> { if m.File? then chain + [m.id] else chain }

  lemma FiledIsLast(t: Table, chain: seq<nat>, m: Move)
    requires Sound(t) && Chain(t, chain) && Enabled(t, m) && m.File?
    ensures forall o :: o in t ==> t[o].fireAt + MIN_GAP <= m.fireAt
    ensures m.after == LastOf(chain)
  {
    FreeKeyIsLast(t, chain, m.after);
    forall o | o in t ensures t[o].fireAt + MIN_GAP <= m.fireAt {
      var i :| 0 <= i < |chain| && chain[i] == o;
      if i < |chain| - 1 { ChainGaps(t, chain, i, |chain| - 1); }
    }
  }

  lemma ChainGrows(t: Table, chain: seq<nat>, id: nat, trigger: Trigger)
    requires Chain(t, chain) && id !in t && !trigger.stage.Over?
    requires trigger.after == LastOf(chain) && trigger.forced.None?
    ensures Chain(t[id := trigger], chain + [id])
  {
    var t', more := t[id := trigger], chain + [id];
    forall i | 0 <= i < |more| ensures Linked(t', more, i) {
      if i < |chain| { assert Linked(t, chain, i) && more[..i] == chain[..i]; } else { assert more[..i] == chain; }
    }
  }

  lemma ChainKept(t: Table, chain: seq<nat>, m: Move)
    requires Sound(t) && Chain(t, chain) && Enabled(t, m) && !m.Fail? && !m.Force?
    ensures Chain(Next(t, m), Extended(chain, m))
    ensures m.File? ==> forall o :: o in t ==> t[o].fireAt + MIN_GAP <= m.fireAt
  {
    if m.File? {
      FiledIsLast(t, chain, m);
      ChainGrows(t, chain, m.id, Trigger(m.after, None, m.fireAt, Waiting, m.source));
    } else {
      var t' := Next(t, m);
      forall i | 0 <= i < |chain| ensures Linked(t', chain, i) { assert Linked(t, chain, i); }
    }
  }

  ghost predicate Run(tables: seq<Table>, moves: seq<Move>) {
    && |tables| == |moves| + 1 && tables[0] == map[]
    && forall i :: 0 <= i < |moves| ==> Enabled(tables[i], moves[i]) && tables[i + 1] == Next(tables[i], moves[i])
  }

  lemma {:induction false} ReachableIsSound(tables: seq<Table>, moves: seq<Move>, i: nat)
    requires Run(tables, moves) && i < |tables|
    ensures Sound(tables[i])
  {
    if i > 0 {
      ReachableIsSound(tables, moves, i - 1);
      SoundKept(tables[i - 1], moves[i - 1]);
      assert tables[i - 1 + 1] == Next(tables[i - 1], moves[i - 1]);
    }
  }

  lemma {:induction false} ReachableIsChain(tables: seq<Table>, moves: seq<Move>, i: nat) returns (chain: seq<nat>)
    requires Run(tables, moves) && i < |tables| && forall k :: 0 <= k < i ==> !moves[k].Fail? && !moves[k].Force?
    ensures Sound(tables[i]) && Chain(tables[i], chain)
  {
    ReachableIsSound(tables, moves, i);
    chain := [];
    if i > 0 {
      ReachableIsSound(tables, moves, i - 1);
      var before := ReachableIsChain(tables, moves, i - 1);
      ChainKept(tables[i - 1], before, moves[i - 1]);
      assert tables[i - 1 + 1] == Next(tables[i - 1], moves[i - 1]);
      chain := Extended(before, moves[i - 1]);
    }
  }

  /**
   However writers race, while no trigger fails or is forced all of a user's fire times keep the gap, each new
   one from all before.
   */
  lemma RacingWritersKeepTheGap(tables: seq<Table>, moves: seq<Move>, i: nat)
    requires Run(tables, moves) && i < |tables| && forall k :: 0 <= k < i ==> !moves[k].Fail? && !moves[k].Force?
    ensures forall a, b :: a in tables[i] && b in tables[i] && a != b ==>
        Apart(tables[i][a].fireAt, tables[i][b].fireAt)
    ensures i < |moves| && moves[i].File? ==> forall o :: o in tables[i] ==>
        tables[i][o].fireAt + MIN_GAP <= moves[i].fireAt
  {
    var t := tables[i];
    var chain := ReachableIsChain(tables, moves, i);
    forall a, b | a in t && b in t && a != b ensures Apart(t[a].fireAt, t[b].fireAt) {
      var x :| 0 <= x < |chain| && chain[x] == a;
      var y :| 0 <= y < |chain| && chain[y] == b;
      if x < y { ChainGaps(t, chain, x, y); } else { ChainGaps(t, chain, y, x); }
    }
    if i < |moves| && moves[i].File? { ChainKept(t, chain, moves[i]); }
  }

  /* ----- Exactly when a filing keeps the gap, whatever failed or was forced before ----- */

  /** An active trigger no active one was filed after. */
  ghost predicate End(t: Table, e: nat) { Active(t, e) && forall o :: o in t ==> !Holds(t, o, Some(e)) }

  function LaterThan(t: Table, at: int): set<nat> { set o | o in t && t[o].fireAt > at }

  /** From any active trigger its followers lead to an end, itself or one at least the gap later. */
  lemma {:induction false} EndOf(t: Table, o: nat) returns (e: nat)
    requires Sound(t) && Active(t, o)
    ensures End(t, e) && (e == o || (t[o].fireAt + MIN_GAP <= t[e].fireAt && Planned(t, e)))
    decreases |LaterThan(t, t[o].fireAt)|
  {
    e := o;
    if next :| next in t && Holds(t, next, Some(o)) {
      var all, fewer := LaterThan(t, t[o].fireAt), LaterThan(t, t[next].fireAt);
      assert next in all - fewer && all == fewer + (all - fewer);
      e := EndOf(t, next);
    }
  }

  /** A filing is the gap after every planned trigger exactly when it is so for the ends it does not follow. */
  lemma FiledLeadsIff(t: Table, m: Move)
    requires Sound(t) && Enabled(t, m) && m.File?
    ensures (forall o :: Planned(t, o) ==> t[o].fireAt + MIN_GAP <= m.fireAt) <==>
            (forall e: nat :: End(t, e) && Planned(t, e) && m.after != Some(e) ==> t[e].fireAt + MIN_GAP <= m.fireAt)
  {
    if forall e: nat :: End(t, e) && Planned(t, e) && m.after != Some(e) ==> t[e].fireAt + MIN_GAP <= m.fireAt {
      forall o | Planned(t, o) ensures t[o].fireAt + MIN_GAP <= m.fireAt { var e := EndOf(t, o); }
    }
  }

  predicate TooClose(t: Table, a: nat, b: nat) {
    Planned(t, a) && Planned(t, b) && a != b && !Apart(t[a].fireAt, t[b].fireAt)
  }

  /** A failed trigger frees its key, and a writer that read before it was filed then lands inside the gap. */
  lemma FailureCanBreakTheGap() returns (tables: seq<Table>, moves: seq<Move>)
    ensures Run(tables, moves) && TooClose(tables[|moves|], 3, 4)
  {
    var going := Trigger(None, None, 0, Going, None);
    var one: Table := map[1 := going];
    var two := Trigger(Some(1), None, 5000, Going, None);
    var three := Trigger(Some(2), None, 6200, Waiting, None);
    moves := [File(1, None, 0, None), SendOut(1), File(2, Some(1), 5000, None), SendOut(2),
              File(3, Some(2), 6200, None), Fail(2), File(4, Some(1), 5010, None)];
    tables := [map[], map[1 := going.(stage := Waiting)], one, one[2 := two.(stage := Waiting)], one[2 := two],
               one[2 := two][3 := three], one[2 := two.(stage := Over)][3 := three],
               one[2 := two.(stage := Over)][3 := three][4 := Trigger(Some(1), None, 5010, Waiting, None)]];
    forall k | 0 <= k < |moves| ensures Enabled(tables[k], moves[k]) && tables[k + 1] == Next(tables[k], moves[k]) { }
  }

  /** With nothing failed, a forced trigger is followed by one writer while another still follows the one before it. */
  lemma ForceCanBreakTheGap() returns (tables: seq<Table>, moves: seq<Move>)
    ensures Run(tables, moves) && TooClose(tables[|moves|], 3, 4) && forall k :: 0 <= k < |moves| ==> !moves[k].Fail?
  {
    var going := Trigger(None, None, 1000, Going, None);
    var one: Table := map[1 := going];
    var two := Trigger(None, Some(1500), 1500, Going, None);
    var three := Trigger(Some(2), None, 2700, Waiting, None);
    moves := [File(1, None, 1000, None), SendOut(1), Force(2, 1500), SendOut(2),
              File(3, Some(2), 2700, None), File(4, Some(1), 2200, None)];
    tables := [map[], map[1 := going.(stage := Waiting)], one, one[2 := two.(stage := Waiting)], one[2 := two],
               one[2 := two][3 := three],
               one[2 := two][3 := three][4 := Trigger(Some(1), None, 2200, Waiting, None)]];
    forall k | 0 <= k < |moves| ensures Enabled(tables[k], moves[k]) && tables[k + 1] == Next(tables[k], moves[k]) { }
  }

  /* ----- Whom a trigger leaves out ----- */

  /** The move files or rides on the trigger. */
  predicate Wants(m: Move, id: nat) { (m.File? || m.Ride?) && m.id == id }

  /** A trigger leaves a device out exactly when each of those who filed it or rode on it named that device. */
  lemma {:induction false} LeftOutByAll(tables: seq<Table>, moves: seq<Move>, i: nat, id: nat, device: nat)
    requires Run(tables, moves) && i < |tables| && id in tables[i] && tables[i][id].forced.None?
    ensures tables[i][id].source == Some(device) <==>
              forall k :: 0 <= k < i && Wants(moves[k], id) ==> moves[k].source == Some(device)
  {
    var t, m := tables[i - 1], moves[i - 1];
    assert Enabled(t, m) && tables[i - 1 + 1] == Next(t, m);
    if id in t {
      LeftOutByAll(tables, moves, i - 1, id, device);
      assert (forall k :: 0 <= k < i && Wants(moves[k], id) ==> moves[k].source == Some(device)) <==>
             ((forall k :: 0 <= k < i - 1 && Wants(moves[k], id) ==> moves[k].source == Some(device))
              && (Wants(m, id) ==> m.source == Some(device)));
    } else {
      forall k | 0 <= k < i - 1 ensures !Wants(moves[k], id) {
        if Wants(moves[k], id) { NeverForgotten(tables, moves, k, i - 1, id); }
      }
    }
  }

  lemma {:induction false} NeverForgotten(tables: seq<Table>, moves: seq<Move>, k: nat, i: nat, id: nat)
    requires Run(tables, moves) && k < i < |tables| && Wants(moves[k], id)
    ensures id in tables[i]
    decreases i
  {
    assert Enabled(tables[i - 1], moves[i - 1]) && tables[i - 1 + 1] == Next(tables[i - 1], moves[i - 1]);
    if k < i - 1 { NeverForgotten(tables, moves, k, i - 1, id); }
  }

  /* ----- One writer ----- */

  /** The last active trigger, by fire time and then by id. */
  ghost predicate IsLatest(t: Table, latest: Option<nat>) {
    if latest.None? then forall o :: !Active(t, o)
    else
      && Active(t, latest.value)
      && forall o :: Active(t, o) ==> Later(t, latest.value, o)
  }

  predicate Later(t: Table, a: nat, b: nat)
    requires a in t && b in t
  {
    t[b].fireAt < t[a].fireAt || (t[b].fireAt == t[a].fireAt && b <= a)
  }

  method ReadLatest(t: Table) returns (latest: Option<nat>)
    ensures IsLatest(t, latest)
  {
    latest := None;
    var rest := t.Keys;
    while rest != {}
      invariant rest <= t.Keys
      invariant latest.None? ==> forall o :: Active(t, o) ==> o in rest
      invariant latest.Some? ==> Active(t, latest.value) && forall o :: Active(t, o) && o !in rest ==>
          Later(t, latest.value, o)
      decreases rest
    {
      var x: nat :| x in rest;
      if Active(t, x) && (latest.None? || Later(t, x, latest.value)) { latest := Some(x); }
      rest := rest - {x};
    }
  }

  function FireAt(t: Table, latest: Option<nat>, now: int): int
    requires latest.Some? ==> latest.value in t
  {
    if latest.None? || t[latest.value].fireAt + MIN_GAP <= now then now else t[latest.value].fireAt + MIN_GAP
  }

  /**
   A trigger filed after `latest` keeps the gap from every active one exactly when none fires later, or all are
   over it by now.
   */
  lemma FiledApart(t: Table, latest: Option<nat>, now: int)
    requires latest.Some? ==> latest.value in t
    ensures (forall o :: Active(t, o) ==> t[o].fireAt + MIN_GAP <= FireAt(t, latest, now)) <==>
            (forall o :: Active(t, o) ==>
               (latest.Some? && t[o].fireAt <= t[latest.value].fireAt) || t[o].fireAt + MIN_GAP <= now)
  {
  }

  /** What other transactions leave for the k-th statement, which rows they hold locked then, and the time. */
  datatype World = World(between: (nat, Table) -> Table, locked: nat -> set<nat>, clock: nat -> int)

  /** Other writers leave what a trigger follows and when it fires as they are. */
  ghost predicate Extends(t: Table, t': Table) {
    forall id :: id in t ==> id in t' && t'[id].after == t[id].after && t'[id].fireAt == t[id].fireAt
  }

  ghost predicate Lawful(world: World) { forall k, t :: Extends(t, world.between(k, t)) }

  ghost predicate Undisturbed(world: World) { forall k, t :: world.between(k, t) == t && world.locked(k) == {} }

  function FreshId(t: Table): (id: nat)
    ensures id !in t
  {
    var keys := set k | k in t.Keys :: k as int;
    assert forall k :: k in t ==> k as int in keys;
    if keys == {} then 1 else
      var m := Greatest(keys);
      if m < 0 then 1 else m + 1
  }

  function Holder(t: Table, key: Option<nat>): (held: set<nat>)
    ensures forall o :: o in held <==> Holds(t, o, key)
  {
    set o | o in t && Holds(t, o, key)
  }

  datatype Outcome = Filed(id: nat, after: Option<nat>, fireAt: int) | Rode(id: nat) | GaveUp

  /** At once, or the gap of twenty minutes after the trigger it follows, whichever is later. */
  predicate FiresWhen(t: Table, key: Option<nat>, at: int, now: int) {
    && now <= at && (key.Some? ==> key.value in t && t[key.value].fireAt + 1200 <= at)
    && (at == now || (key.Some? && at == t[key.value].fireAt + 1200))
  }

  /** The answer to a writer nobody races: it rides on the latest trigger exactly when that waits. */
  ghost predicate AnswersAlone(t: Table, outcome: Outcome, now: int) {
    match outcome
    case Rode(id) => IsLatest(t, Some(id)) && t[id].stage.Waiting?
    case Filed(_, key, at) =>
      && IsLatest(t, key) && (key.Some? ==> !t[key.value].stage.Waiting?) && FiresWhen(t, key, at, now)
      && forall o :: Active(t, o) ==> t[o].fireAt + 1200 <= at
    case GaveUp => false
  }

  /**
   Files a trigger or rides on a waiting one. Whatever others commit between its statements, its own
   change is one of the moves above, on the table `seen` it finds then; left alone, it always
   rides on the latest trigger while that waits, and else files one the gap after every active one.
   */
  method Enqueue(table: Table, source: Option<nat>, world: World)
    returns (outcome: Outcome, after: Table, seen: Table)
    requires Lawful(world)
    ensures Extends(table, seen)
    ensures match outcome
            case Filed(id, key, at) => Enabled(seen, File(id, key, at, source))
                && after == Next(seen, File(id, key, at, source))
            case Rode(id) => Enabled(seen, Ride(id, source)) && after == Next(seen, Ride(id, source))
            case GaveUp => after == seen
    ensures outcome.Filed? ==> exists r :: 0 <= r < 5 && FiresWhen(seen, outcome.after, outcome.fireAt, world.clock(r))
    ensures Undisturbed(world) && Sound(table) ==> seen == table && AnswersAlone(table, outcome, world.clock(0))
  {
    after := world.between(0, table);
    var latest := ReadLatest(after);
    ghost var alone := Undisturbed(world) && Sound(table);
    for round := 0 to MAX_ROUNDS
      invariant Extends(table, after) && (latest.Some? ==> latest.value in after)
      invariant alone ==> round == 0 && after == table && IsLatest(table, latest)
    {
      if latest.Some? {
        after := world.between(3 * round + 1, after);
        seen := after;
        var id := latest.value;
        if after[id].stage.Waiting? && id !in world.locked(3 * round + 1) {
          after := RideOn(after, id, source);
          return Rode(id), after, seen;
        }
      }
      after := world.between(3 * round + 2, after);
      var at := FireAt(after, latest, world.clock(round));
      if Holder(after, latest) == {} {
        seen := after;
        var id: nat;
        id, after := Insert(after, latest, at, source);
        if alone { FiledAlone(table, latest, world.clock(0), id); }
        assert FiresWhen(seen, latest, at, world.clock(round));
        return Filed(id, latest, at), after, seen;
      }
      if alone { LatestHasNoFollower(table, latest); }
      assert !alone;
      after := world.between(3 * round + 3, after);
      var holders := Holder(after, latest);
      if holders != {} {
        var holder: nat :| holder in holders;
        latest := Some(holder);
      }
    }
    outcome, seen := GaveUp, after;
  }

  /** Rides on a waiting trigger, which from then on leaves no device out unless both leave out the same. */
  method RideOn(t: Table, id: nat, source: Option<nat>) returns (t': Table)
    requires id in t && t[id].stage.Waiting?
    ensures Enabled(t, Ride(id, source)) && t' == Next(t, Ride(id, source))
    ensures t'.Keys == t.Keys && t'[id].source == (if t[id].source == source then source else None)
  {
    t' := t;
    if t[id].source != source { t' := t[id := t[id].(source := None)]; }
  }

  method Insert(t: Table, latest: Option<nat>, at: int, source: Option<nat>) returns (id: nat, t': Table)
    requires Holder(t, latest) == {} && (latest.Some? ==> latest.value in t && t[latest.value].fireAt + MIN_GAP <= at)
    ensures Enabled(t, File(id, latest, at, source)) && t' == Next(t, File(id, latest, at, source))
  {
    assert forall o :: o in t ==> o !in Holder(t, latest);
    id := FreshId(t);
    t' := t[id := Trigger(latest, None, at, Waiting, source)];
  }

  lemma FiledAlone(t: Table, latest: Option<nat>, now: int, id: nat)
    requires IsLatest(t, latest) && (latest.Some? ==> !t[latest.value].stage.Waiting?)
    ensures AnswersAlone(t, Filed(id, latest, FireAt(t, latest, now)), now)
  {
  }

  lemma LatestHasNoFollower(t: Table, latest: Option<nat>)
    requires Sound(t) && IsLatest(t, latest)
    ensures Holder(t, latest) == {}
  {
    forall o | Planned(t, o) ensures t[o].after != latest { }
  }
}
