/** The pre-send checks of one push tick, side by side, and the breaker that stops them asking Moodle. */
module Breaker {

  const CONCURRENCY := 4

  /** How a check got its turn: alone, before Moodle has answered, or as one of a few. */
  datatype Place = Alone | Shared

  datatype Phase =
    | New
    | QueueAlone
    | QueueShared
    | Holding(place: Place)
    | Loading(place: Place)
    | Calling(place: Place)
    | Done

  /** `started` counts the calls; each is under way, or ended as one of the other three counts. */
  datatype Tick = Tick(
    tasks: map<nat, Phase>,
    tripped: bool,
    answered: bool,
    started: nat,
    failed: nat,
    replied: nat,
    dropped: nat)

  /** What the event loop may run next. A task runs from one wait to the next without a break. */
  datatype Move =
    | StartBatch(ids: set<nat>)
    | Arrive(task: nat)
    | EnterAlone(task: nat)
    | EnterShared(task: nat)
    | FindShut(task: nat)
    | Call(task: nat)
    | FailForAll(task: nat)
    | Reply(task: nat)
    | Quit(task: nat)
    | Drop(task: nat)

  predicate In(phase: Phase, place: Place) {
    (phase.Holding? || phase.Loading? || phase.Calling?) && phase.place == place
  }

  function At(s: Tick, place: Place): set<nat> { set t | t in s.tasks && In(s.tasks[t], place) }

  /** The checks that found the breaker shut and have yet to end: they will ask, or are asking. */
  function InFlight(s: Tick): set<nat> { set t | t in s.tasks && (s.tasks[t].Loading? || s.tasks[t].Calling?) }

  function OnCall(s: Tick): set<nat> { set t | t in s.tasks && s.tasks[t].Calling? }

  predicate Enabled(s: Tick, m: Move) {
    if m.StartBatch? then forall t :: t in s.tasks ==> s.tasks[t].Done?
    else
      m.task in s.tasks &&
      var phase := s.tasks[m.task];
      match m
      case Arrive(_) => phase.New?
      case EnterAlone(_) => phase.QueueAlone? && At(s, Alone) == {}
      case EnterShared(_) => phase.QueueShared? && |At(s, Shared)| < CONCURRENCY
      case FindShut(_) => phase.Holding? && !s.tripped
      case Call(_) => phase.Loading?
      case FailForAll(_) => phase.Calling?
      case Reply(_) => phase.Calling?
      case Quit(_) => !phase.Calling?
      case Drop(_) => phase.Calling?
  }

  function Next(s: Tick, m: Move): Tick
    requires Enabled(s, m)
  {
    if m.StartBatch? then s.(tasks := map t | t in m.ids :: New)
    else
      var t := m.task;
      match m
      case Arrive(_) => s.(tasks := s.tasks[t := if s.answered then QueueShared else QueueAlone])
      case EnterAlone(_) => s.(tasks := s.tasks[t := if s.answered then QueueShared else Holding(Alone)])
      case EnterShared(_) => s.(tasks := s.tasks[t := Holding(Shared)])
      case FindShut(_) => s.(tasks := s.tasks[t := Loading(s.tasks[t].place)])
      case Call(_) => s.(tasks := s.tasks[t := Calling(s.tasks[t].place)], started := s.started + 1)
      case FailForAll(_) => s.(tasks := s.tasks[t := Done], tripped := true, failed := s.failed + 1)
      case Reply(_) => s.(tasks := s.tasks[t := Done], answered := s.answered || !s.tripped, replied := s.replied + 1)
      case Quit(_) => s.(tasks := s.tasks[t := Done])
      case Drop(_) => s.(tasks := s.tasks[t := Done], dropped := s.dropped + 1)
  }

  const Idle := Tick(map[], false, false, 0, 0, 0, 0)

  /* ----- The invariant ----- */

  predicate TurnsOk(s: Tick) {
    && |At(s, Alone)| <= 1 && |At(s, Shared)| <= CONCURRENCY
    && (s.answered ==> At(s, Alone) == {})
    && (!s.answered ==> forall t :: t in s.tasks ==> !s.tasks[t].QueueShared? && !In(s.tasks[t], Shared))
  }

  /** Failures so far and checks that may still fail: together no more than could ask side by side. */
  predicate CallsOk(s: Tick) {
    && (!s.tripped ==> s.failed == 0)
    && (s.replied == 0 ==> !s.answered)
    && s.failed + |InFlight(s)| <= (if s.answered then CONCURRENCY else 1)
    && s.started == s.failed + s.replied + s.dropped + |OnCall(s)|
  }

  predicate Inv(s: Tick) { TurnsOk(s) && CallsOk(s) }

  lemma Fewer(a: set<nat>, b: set<nat>)
    requires a <= b
    ensures |a| <= |b|
  {
    assert b == a + (b - a);
  }

  /** The state after task `t` went on to `phase`, whatever else it changed. */
  predicate MovesTo(s: Tick, s': Tick, t: nat, phase: Phase) {
    t in s.tasks && s'.tasks == s.tasks[t := phase]
  }

  lemma AtMoves(s: Tick, s': Tick, t: nat, phase: Phase, place: Place)
    requires MovesTo(s, s', t, phase)
    ensures At(s', place) == if In(phase, place) then At(s, place) + {t} else At(s, place) - {t}
  {
  }

  lemma TurnsMove(s: Tick, s': Tick, t: nat, phase: Phase)
    requires TurnsOk(s) && MovesTo(s, s', t, phase) && (s.answered ==> s'.answered)
    requires In(phase, Alone) ==> !s'.answered && (In(s.tasks[t], Alone) || At(s, Alone) == {})
    requires In(phase, Shared) ==> In(s.tasks[t], Shared) || |At(s, Shared)| < CONCURRENCY
    requires phase.QueueShared? || In(phase, Shared) ==> s.answered
    requires s'.answered && !s.answered ==> In(s.tasks[t], Alone)
    ensures TurnsOk(s')
  {
    AtMoves(s, s', t, phase, Alone);
    AtMoves(s, s', t, phase, Shared);
    if t in At(s, Alone) { OnlyOne(At(s, Alone), t); }
    if t in At(s, Shared) { assert At(s, Shared) + {t} == At(s, Shared); }
    Fewer(At(s, Alone) - {t}, At(s, Alone));
    Fewer(At(s, Shared) - {t}, At(s, Shared));
  }

  lemma TurnsKeep(s: Tick, m: Move)
    requires TurnsOk(s) && Enabled(s, m)
    ensures TurnsOk(Next(s, m))
  {
    var s' := Next(s, m);
    if m.StartBatch? {
      assert At(s', Alone) == {} && At(s', Shared) == {};
    } else {
      var phase := s.tasks[m.task];
      if phase.Holding? || phase.Loading? || phase.Calling? { assert m.task in At(s, phase.place); }
      TurnsMove(s, s', m.task, s'.tasks[m.task]);
    }
  }

  lemma OnlyOne(a: set<nat>, t: nat)
    requires t in a && |a| <= 1
    ensures a == {t}
  {
    assert |a - {t}| == |a| - 1;
  }

  lemma InFlightHolds(s: Tick)
    ensures InFlight(s) <= At(s, Alone) + At(s, Shared)
  {
  }

  /** A check that finds the breaker shut joins only those that share its turn. */
  lemma ShutJoins(s: Tick, t: nat)
    requires Inv(s) && t in s.tasks && s.tasks[t].Holding? && !s.tripped
    ensures s.failed + |InFlight(s) + {t}| <= (if s.answered then CONCURRENCY else 1)
  {
    InFlightHolds(s);
    if s.answered {
      assert t in At(s, Shared);
      Fewer(InFlight(s) + {t}, At(s, Shared));
    } else {
      assert t in At(s, Alone);
      assert At(s, Shared) == {};
      Fewer(InFlight(s) + {t}, At(s, Alone));
    }
  }

  lemma FlightMoves(s: Tick, s': Tick, t: nat, phase: Phase)
    requires MovesTo(s, s', t, phase)
    ensures InFlight(s') == if phase.Loading? || phase.Calling? then InFlight(s) + {t} else InFlight(s) - {t}
    ensures OnCall(s') == if phase.Calling? then OnCall(s) + {t} else OnCall(s) - {t}
    ensures t in InFlight(s) <==> s.tasks[t].Loading? || s.tasks[t].Calling?
    ensures t in OnCall(s) <==> s.tasks[t].Calling?
  {
  }

  function One(b: bool): int { if b then 1 else 0 }

  predicate Flies(phase: Phase) { phase.Loading? || phase.Calling? }

  lemma FlightCounts(s: Tick, s': Tick, t: nat, phase: Phase)
    requires MovesTo(s, s', t, phase)
    ensures |InFlight(s')| == |InFlight(s)| - One(Flies(s.tasks[t])) + One(Flies(phase))
    ensures |OnCall(s')| == |OnCall(s)| - One(s.tasks[t].Calling?) + One(phase.Calling?)
  {
    FlightMoves(s, s', t, phase);
    SizeWith(InFlight(s), t);
    SizeWith(OnCall(s), t);
  }

  lemma SizeWith(a: set<nat>, t: nat)
    ensures |a + {t}| == |a| + One(t !in a) && |a - {t}| == |a| - One(t in a)
  {
    if t in a { assert a + {t} == a; } else { assert a - {t} == a; }
  }

  lemma CallsKeep(s: Tick, m: Move)
    requires Inv(s) && Enabled(s, m)
    ensures CallsOk(Next(s, m))
  {
    var s' := Next(s, m);
    if m.StartBatch? {
      assert InFlight(s') == {} == InFlight(s) && OnCall(s') == {} == OnCall(s);
    } else {
      FlightCounts(s, s', m.task, s'.tasks[m.task]);
      if m.FindShut? {
        ShutJoins(s, m.task);
        assert m.task !in InFlight(s);
      }
    }
  }

  ghost predicate Run(states: seq<Tick>, moves: seq<Move>) {
    states != [] && states[0] == Idle && Steps(states, moves)
  }

  ghost predicate Steps(states: seq<Tick>, moves: seq<Move>) {
    |states| == |moves| + 1 && forall i :: 0 <= i < |moves| ==> Moved(states[i], moves[i], states[i + 1])
  }

  ghost predicate Moved(s: Tick, m: Move, s': Tick) { Enabled(s, m) && s' == Next(s, m) }

  lemma {:induction false} RunKeeps(states: seq<Tick>, moves: seq<Move>, i: nat)
    requires Run(states, moves) && i < |states|
    ensures Inv(states[i])
  {
    if i == 0 {
      assert At(Idle, Alone) == {} && At(Idle, Shared) == {} && InFlight(Idle) == {} && OnCall(Idle) == {};
    } else {
      RunKeeps(states, moves, i - 1);
      assert Moved(states[i - 1], moves[i - 1], states[i - 1 + 1]);
      TurnsKeep(states[i - 1], moves[i - 1]);
      CallsKeep(states[i - 1], moves[i - 1]);
    }
  }

  /** However the checks of a tick interleave, at most as many calls as run side by side fail for everyone. */
  lemma FailuresAreBounded(states: seq<Tick>, moves: seq<Move>, i: nat)
    requires Run(states, moves) && i < |states|
    ensures states[i].failed <= 4
  {
    RunKeeps(states, moves, i);
  }

  /** Every call made is under way, failed for everyone, was answered, or was cut off. */
  lemma CallsAreAccountedFor(states: seq<Tick>, moves: seq<Move>, i: nat)
    requires Run(states, moves) && i < |states|
    ensures var s := states[i]; s.started == s.failed + s.replied + s.dropped + |OnCall(s)|
  {
    RunKeeps(states, moves, i);
  }

  /**
   While Moodle has answered nobody, at most one call is under way or has failed; and there has been one call at
   most exactly when none was cut off, or one was and it is the only one.
   */
  lemma OutageCostsOneCall(states: seq<Tick>, moves: seq<Move>, i: nat)
    requires Run(states, moves) && i < |states| && states[i].replied == 0
    ensures var s := states[i];
            && s.failed + |OnCall(s)| <= 1
            && s.started == s.failed + s.dropped + |OnCall(s)|
            && (s.started <= 1 <==> s.dropped == 0 || (s.dropped == 1 && s.failed == 0 && OnCall(s) == {}))
  {
    RunKeeps(states, moves, i);
    Fewer(OnCall(states[i]), InFlight(states[i]));
  }

  /** Once Moodle has answered, unless it failed before, checks wait for no other but run a few side by side. */
  lemma AnsweredRunsShared(s: Tick, t: nat, u: nat)
    requires Enabled(s, Reply(t)) && !s.tripped && u != t && u in s.tasks && (s.tasks[u].New? || s.tasks[u].QueueAlone?)
    requires At(Next(s, Reply(t)), Alone) == {}
    ensures var s' := Next(s, Reply(t));
            var m := if s.tasks[u].New? then Arrive(u) else EnterAlone(u);
            Enabled(s', m) && Next(s', m).tasks[u] == QueueShared
  {
  }

  /** After a failure for everyone no check that has not passed the breaker asks Moodle. */
  lemma TrippedAsksNoMore(s: Tick, m: Move, t: nat)
    requires s.tripped && Enabled(s, m) && t in s.tasks && t in Next(s, m).tasks && !Flies(s.tasks[t]) && !m.StartBatch?
    ensures Next(s, m).tripped && !Flies(Next(s, m).tasks[t])
  {
  }

  /** A check that finds Moodle unheard from gets as far as asking it. */
  lemma AsksAlone(s: Tick, t: nat) returns (states: seq<Tick>, moves: seq<Move>)
    requires !s.tripped && !s.answered && forall u :: u in s.tasks ==> s.tasks[u].Done?
    ensures Steps(states, moves) && states[0] == s
    ensures states[|moves|] == s.(tasks := map[t := Calling(Alone)], started := s.started + 1)
  {
    var s1 := s.(tasks := map[t := New]);
    var s2 := s.(tasks := map[t := QueueAlone]);
    var s3 := s.(tasks := map[t := Holding(Alone)]);
    var s4 := s.(tasks := map[t := Loading(Alone)]);
    var s5 := s.(tasks := map[t := Calling(Alone)], started := s.started + 1);
    assert s1 == Next(s, StartBatch({t})) && s2 == Next(s1, Arrive(t));
    assert At(s2, Alone) == {};
    assert s3 == Next(s2, EnterAlone(t)) && s4 == Next(s3, FindShut(t)) && s5 == Next(s4, Call(t));
    states := [s, s1, s2, s3, s4, s5];
    moves := [StartBatch({t}), Arrive(t), EnterAlone(t), FindShut(t), Call(t)];
  }

  lemma StepsJoin(xs: seq<Tick>, ms: seq<Move>, m: Move, ys: seq<Tick>, ns: seq<Move>)
    requires Steps(xs, ms) && Steps(ys, ns) && Enabled(xs[|ms|], m) && ys[0] == Next(xs[|ms|], m)
    ensures Steps(xs + ys, ms + [m] + ns)
  {
    var states, moves := xs + ys, ms + [m] + ns;
    forall i | 0 <= i < |moves| ensures Moved(states[i], moves[i], states[i + 1]) {
      if i < |ms| {
        assert Moved(xs[i], ms[i], xs[i + 1]);
      } else if i > |ms| {
        var k := i - |ms| - 1;
        assert Moved(ys[k], ns[k], ys[k + 1]);
      }
    }
  }

  /** A call cut off when its batch is handed back leaves the breaker shut: an outage can then cost a second one. */
  lemma OutageAfterYield(t: nat, u: nat) returns (states: seq<Tick>, moves: seq<Move>)
    ensures Run(states, moves) && states[|moves|].replied == 0 && states[|moves|].tripped
        && states[|moves|].started == 2
  {
    var xs, ms := AsksAlone(Idle, t);
    var mid := Next(xs[|ms|], Drop(t));
    var ys, ns := AsksAlone(mid, u);
    StepsJoin(xs, ms, Drop(t), ys, ns);
    var end := Next(ys[|ns|], FailForAll(u));
    StepsJoin(xs + ys, ms + [Drop(t)] + ns, FailForAll(u), [end], []);
    states, moves := xs + ys + [end], ms + [Drop(t)] + ns + [FailForAll(u)] + [];
  }
}
