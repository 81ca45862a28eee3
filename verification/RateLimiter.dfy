/** The sliding-window limiter of sign-in attempts, against the full log of attempts it stands for. */
module RateLimiter {

  /** What happened: an attempt recorded for a key, or a key reset. */
  datatype Event = Attempt(key: string, at: int) | Reset(key: string)

  /** The times of the key's attempts since its last reset, oldest first. */
  function Since(log: seq<Event>, key: string): seq<int> {
    if log == [] then []
    else
      var before := Since(log[..|log| - 1], key);
      match log[|log| - 1]
      case Attempt(k, at) => if k == key then before + [at] else before
      case Reset(k) => if k == key then [] else before
  }

  /** Those later than `cutoff`. */
  function Later(times: seq<int>, cutoff: int): seq<int> {
    if times == [] then []
    else
      var before := Later(times[..|times| - 1], cutoff);
      if times[|times| - 1] > cutoff then before + [times[|times| - 1]] else before
  }

  /** How many of the key's attempts since its last reset fall in the window before `now`. */
  function InWindow(log: seq<Event>, key: string, window: int, now: int): nat { |Later(Since(log, key), now - window)| }

  /** Which events of the log count at a look: attempts of the key later than `cutoff` with no reset of it since. */
  ghost function Counted(log: seq<Event>, key: string, cutoff: int): set<int> {
    set i | 0 <= i < |log| && Counts(log, key, cutoff, i)
  }

  ghost predicate Counts(log: seq<Event>, key: string, cutoff: int, i: int)
    requires 0 <= i < |log|
  {
    log[i].Attempt? && log[i].key == key && log[i].at > cutoff && forall j :: i < j < |log| ==> log[j] != Reset(key)
  }

  /** One more event: a reset of the key discounts all before it, an attempt counts if it is late enough. */
  lemma CountedMore(log: seq<Event>, key: string, cutoff: int, e: Event)
    ensures Counted(log + [e], key, cutoff) ==
              if e == Reset(key) then {}
              else if e.Attempt? && e.key == key && e.at > cutoff then Counted(log, key, cutoff) + {|log|}
              else Counted(log, key, cutoff)
  {
    forall i | 0 <= i < |log|
      ensures Counts(log + [e], key, cutoff, i) <==> Counts(log, key, cutoff, i) && e != Reset(key)
    {
      CountsMore(log, key, cutoff, e, i);
    }
  }

  lemma CountsMore(log: seq<Event>, key: string, cutoff: int, e: Event, i: int)
    requires 0 <= i < |log|
    ensures Counts(log + [e], key, cutoff, i) <==> Counts(log, key, cutoff, i) && e != Reset(key)
  {
    var more := log + [e];
    assert more[|log|] == e && forall j :: 0 <= j < |log| ==> more[j] == log[j];
    if Counts(more, key, cutoff, i) {
      forall j | i < j < |log| ensures log[j] != Reset(key) { assert more[j] != Reset(key); }
    }
  }

  lemma {:induction false} WindowCounts(log: seq<Event>, key: string, cutoff: int)
    ensures |Later(Since(log, key), cutoff)| == |Counted(log, key, cutoff)|
  {
    if log == [] {
      assert Counted(log, key, cutoff) == {};
    } else {
      var init, last := log[..|log| - 1], log[|log| - 1];
      assert log == init + [last];
      WindowCounts(init, key, cutoff);
      CountedMore(init, key, cutoff, last);
      if last.Attempt? { LaterOfMore(Since(init, key), last.at, cutoff); }
      assert |init| !in Counted(init, key, cutoff);
    }
  }

  predicate Rising(times: seq<int>) { forall i, j :: 0 <= i < j < |times| ==> times[i] <= times[j] }

  predicate UpTo(times: seq<int>, now: int) { forall i :: 0 <= i < |times| ==> times[i] <= now }

  lemma {:induction false} LaterOfLater(times: seq<int>, a: int, b: int)
    requires a <= b
    ensures Later(Later(times, a), b) == Later(times, b)
  {
    if times != [] {
      LaterOfLater(times[..|times| - 1], a, b);
      var before, last := Later(times[..|times| - 1], a), times[|times| - 1];
      if last > a { assert (before + [last])[..|before|] == before; }
    }
  }

  lemma {:induction false} LaterFacts(times: seq<int>, cutoff: int)
    ensures forall x :: x in Later(times, cutoff) ==> x in times && x > cutoff
    ensures |Later(times, cutoff)| <= |times|
    ensures Rising(times) ==> Rising(Later(times, cutoff))
  {
    if times != [] {
      var init := times[..|times| - 1];
      LaterFacts(init, cutoff);
      if Rising(times) {
        assert Rising(init);
        forall i | 0 <= i < |Later(init, cutoff)| ensures Later(init, cutoff)[i] <= times[|times| - 1] {
          assert Later(init, cutoff)[i] in Later(init, cutoff);
        }
      }
    }
  }

  lemma {:induction false} NoneLater(times: seq<int>, cutoff: int)
    requires UpTo(times, cutoff)
    ensures Later(times, cutoff) == []
  {
    if times != [] { NoneLater(times[..|times| - 1], cutoff); }
  }

  /** Dropping from the front what is out of the window is dropping all of it, the times being in order. */
  lemma {:induction false} FrontIsOld(times: seq<int>, cutoff: int)
    requires Rising(times) && times != []
    ensures times[0] <= cutoff ==> Later(times[1..], cutoff) == Later(times, cutoff)
    ensures times[0] > cutoff ==> Later(times, cutoff) == times
  {
    var init := times[..|times| - 1];
    if |times| > 1 {
      FrontIsOld(init, cutoff);
      assert times[1..][..|times| - 2] == init[1..];
    }
  }

  /** What is kept of a key is all of it, but for times that are out of the window for good. */
  predicate Keeps(kept: seq<int>, all: seq<int>, window: int, clock: int) {
    && Rising(kept) && Rising(all) && UpTo(kept, clock) && UpTo(all, clock)
    && Later(kept, clock - window) == Later(all, clock - window)
  }

  lemma KeepsLater(kept: seq<int>, all: seq<int>, window: int, clock: int, now: int)
    requires Keeps(kept, all, window, clock) && clock <= now
    ensures Keeps(kept, all, window, now) && Later(kept, now - window) == Later(all, now - window)
  {
    LaterOfLater(kept, clock - window, now - window);
    LaterOfLater(all, clock - window, now - window);
  }

  lemma KeepsNone(kept: seq<int>, all: seq<int>, window: int, clock: int)
    requires Keeps(kept, all, window, clock) && (kept == [] || kept[|kept| - 1] <= clock - window)
    ensures Keeps([], all, window, clock)
  {
    NoneLater(kept, clock - window);
  }

  lemma KeepsMore(kept: seq<int>, all: seq<int>, window: int, clock: int)
    requires Keeps(kept, all, window, clock)
    ensures Keeps(kept + [clock], all + [clock], window, clock)
  {
    SameLaterMore(kept, all, clock, clock - window);
    RisingMore(kept, clock);
    RisingMore(all, clock);
  }

  lemma SameLaterMore(a: seq<int>, b: seq<int>, at: int, cutoff: int)
    requires Later(a, cutoff) == Later(b, cutoff)
    ensures Later(a + [at], cutoff) == Later(b + [at], cutoff)
  {
    LaterOfMore(a, at, cutoff);
    LaterOfMore(b, at, cutoff);
  }

  lemma RisingMore(times: seq<int>, at: int)
    requires Rising(times) && UpTo(times, at)
    ensures Rising(times + [at]) && UpTo(times + [at], at)
  {
    var more := times + [at];
    forall i, j | 0 <= i < j < |more| ensures more[i] <= more[j] { assert j < |times| || more[j] == at; }
  }

  lemma LaterOfMore(times: seq<int>, at: int, cutoff: int)
    ensures Later(times + [at], cutoff) == Later(times, cutoff) + if at > cutoff then [at] else []
  {
    assert (times + [at])[..|times|] == times;
  }

  lemma KeepsPruned(kept: seq<int>, all: seq<int>, window: int, clock: int)
    requires Keeps(kept, all, window, clock)
    ensures Keeps(Later(kept, clock - window), all, window, clock)
  {
    LaterFacts(kept, clock - window);
    LaterOfLater(kept, clock - window, clock - window);
    assert forall x :: x in kept ==> x <= clock;
    var later := Later(kept, clock - window);
    forall i | 0 <= i < |later| ensures later[i] <= clock { assert later[i] in later; }
  }

  /** Takes times off the front until the first is in the window. */
  method DropOld(times: seq<int>, cutoff: int) returns (bucket: seq<int>)
    requires Rising(times)
    ensures bucket == Later(times, cutoff)
  {
    bucket := times;
    while bucket != [] && bucket[0] <= cutoff
      invariant Rising(bucket) && Later(bucket, cutoff) == Later(times, cutoff)
    {
      FrontIsOld(bucket, cutoff);
      bucket := bucket[1..];
    }
    if bucket != [] { FrontIsOld(bucket, cutoff); }
  }

  function StudentKey(student: string): string { "login:sid:" + student }

  function AddressKey(ip: string): string { "login:ip:" + ip }

  lemma KeysDiffer(student: string, ip: string)
    ensures StudentKey(student) != AddressKey(ip)
  {
    assert StudentKey(student)[6] != AddressKey(ip)[6];
  }

  function KeptOf(attempts: map<string, seq<int>>, key: string): seq<int> {
    if key in attempts then attempts[key] else []
  }

  /** The attempts kept stand for the log, key by key. */
  ghost predicate StandsFor(attempts: map<string, seq<int>>, log: seq<Event>, window: int, clock: int) {
    forall key :: Keeps(KeptOf(attempts, key), Since(log, key), window, clock)
  }

  lemma StandsLater(attempts: map<string, seq<int>>, log: seq<Event>, window: int, clock: int, now: int)
    requires StandsFor(attempts, log, window, clock) && clock <= now
    ensures StandsFor(attempts, log, window, now)
  {
    forall k ensures Keeps(KeptOf(attempts, k), Since(log, k), window, now) {
      KeepsLater(KeptOf(attempts, k), Since(log, k), window, clock, now);
    }
  }

  function Put(attempts: map<string, seq<int>>, key: string, bucket: seq<int>): map<string, seq<int>> {
    if bucket == [] then map k | k in attempts && k != key :: attempts[k] else attempts[key := bucket]
  }

  lemma StandsPut(attempts: map<string, seq<int>>, log: seq<Event>, log': seq<Event>, window: int, clock: int,
      key: string, bucket: seq<int>)
    requires StandsFor(attempts, log, window, clock) && Keeps(bucket, Since(log', key), window, clock)
    requires forall k :: k != key ==> Since(log', k) == Since(log, k)
    ensures StandsFor(Put(attempts, key, bucket), log', window, clock)
  {
    forall k ensures Keeps(KeptOf(Put(attempts, key, bucket), k), Since(log', k), window, clock) {
      assert Keeps(KeptOf(attempts, k), Since(log, k), window, clock);
    }
  }

  lemma StandsPruned(attempts: map<string, seq<int>>, log: seq<Event>, window: int, clock: int, key: string)
    requires StandsFor(attempts, log, window, clock)
    ensures var bucket := Later(KeptOf(attempts, key), clock - window);
            && Rising(KeptOf(attempts, key)) && bucket == Later(Since(log, key), clock - window)
            && StandsFor(Put(attempts, key, bucket), log, window, clock)
  {
    var kept := KeptOf(attempts, key);
    assert Keeps(kept, Since(log, key), window, clock);
    KeepsPruned(kept, Since(log, key), window, clock);
    StandsPut(attempts, log, log, window, clock, key, Later(kept, clock - window));
  }

  predicate Gone(kept: seq<int>, cutoff: int) { kept == [] || kept[|kept| - 1] <= cutoff }

  lemma StandsSwept(attempts: map<string, seq<int>>, log: seq<Event>, window: int, clock: int)
    requires StandsFor(attempts, log, window, clock)
    ensures StandsFor(map k | k in attempts && !Gone(attempts[k], clock - window) :: attempts[k], log, window, clock)
  {
    var swept := map k | k in attempts && !Gone(attempts[k], clock - window) :: attempts[k];
    forall k ensures Keeps(KeptOf(swept, k), Since(log, k), window, clock) {
      assert Keeps(KeptOf(attempts, k), Since(log, k), window, clock);
      if k !in swept { KeepsNone(KeptOf(attempts, k), Since(log, k), window, clock); }
    }
  }

  lemma SinceMore(log: seq<Event>, e: Event)
    ensures forall k :: k != e.key ==> Since(log + [e], k) == Since(log, k)
    ensures Since(log + [e], e.key) == if e.Attempt? then Since(log, e.key) + [e.at] else []
  {
    assert (log + [e])[..|log|] == log;
  }

  lemma StandsMore(attempts: map<string, seq<int>>, log: seq<Event>, window: int, clock: int, key: string)
    requires StandsFor(attempts, log, window, clock)
    ensures StandsFor(attempts[key := KeptOf(attempts, key) + [clock]], log + [Attempt(key, clock)], window, clock)
  {
    var e, kept := Attempt(key, clock), KeptOf(attempts, key);
    SinceMore(log, e);
    assert Keeps(kept, Since(log, key), window, clock);
    KeepsMore(kept, Since(log, key), window, clock);
    StandsPut(attempts, log, log + [e], window, clock, key, kept + [clock]);
  }

  /* ----- No window is overfull ----- */

  /** Attempts less than a window apart number at most `most`. */
  predicate NeverOver(times: seq<int>, most: nat, window: int) {
    forall i, j :: 0 <= i <= j < |times| && times[j] < times[i] + window ==> j - i < most
  }

  /** The attempts in the window are the last ones. */
  lemma {:induction false} LaterIsSuffix(times: seq<int>, cutoff: int)
    requires Rising(times)
    ensures |Later(times, cutoff)| <= |times|
    ensures forall i :: 0 <= i < |times| - |Later(times, cutoff)| ==> times[i] <= cutoff
  {
    if times != [] {
      var init, last := times[..|times| - 1], times[|times| - 1];
      LaterIsSuffix(init, cutoff);
      assert Rising(init);
      if last <= cutoff {
        forall i | 0 <= i < |times| ensures times[i] <= cutoff { }
      }
    }
  }

  /** One more attempt after an allowed look keeps every window, past and present, within the limit. */
  lemma AllowedKeepsUnder(times: seq<int>, most: nat, window: int, looked: int, at: int)
    requires Rising(times) && NeverOver(times, most, window) && UpTo(times, at) && looked <= at
    requires |Later(times, looked - window)| < most
    ensures NeverOver(times + [at], most, window)
  {
    LaterIsSuffix(times, looked - window);
    var more := times + [at];
    forall i, j | 0 <= i <= j < |more| && more[j] < more[i] + window ensures j - i < most {
      if j == |times| && i < j { assert times[i] > looked - window; }
    }
  }

  class SlidingWindowLimiter {
    const maxAttempts: nat
    const window: nat
    var attempts: map<string, seq<int>>
    var nextSweep: int
    /** Everything that happened, and the last time the clock was read. */
    ghost var log: seq<Event>
    ghost var clock: int

    ghost predicate Valid()
      reads this
    {
      StandsFor(attempts, log, window, clock)
    }

    /** No window of any key has held more than the limit. */
    ghost predicate Bounded()
      reads this
    {
      forall key :: NeverOver(Since(log, key), maxAttempts, window)
    }

    constructor (maxAttempts: nat, window: nat, ghost now: int)
      ensures Valid() && Bounded() && log == [] && clock == now && this.maxAttempts == maxAttempts
          && this.window == window
    {
      this.maxAttempts, this.window := maxAttempts, window;
      attempts, nextSweep := map[], 0;
      log, clock := [], now;
    }

    /** Drops the key's attempts that are out of the window. */
    method Prune(key: string, now: int) returns (bucket: seq<int>)
      requires Valid() && clock <= now
      modifies this`attempts, this`clock
      ensures Valid() && clock == now && bucket == Later(Since(log, key), now - window)
    {
      StandsLater(attempts, log, window, clock, now);
      clock := now;
      StandsPruned(attempts, log, window, now, key);
      bucket := DropOld(KeptOf(attempts, key), now - window);
      attempts := Put(attempts, key, bucket);
    }

    /** Allows exactly while fewer than the limit of the key's attempts are in the window. */
    method Allow(key: string, now: int) returns (ok: bool)
      requires Valid() && clock <= now
      modifies this`attempts, this`clock
      ensures Valid() && clock == now && (ok <==> InWindow(log, key, window, now) < maxAttempts)
      ensures ok <==> |Counted(log, key, now - window)| < maxAttempts
    {
      WindowCounts(log, key, now - window);
      var bucket := Prune(key, now);
      ok := |bucket| < maxAttempts;
    }

    /** Once a window, drops every key whose last attempt has left it. */
    method Sweep(now: int)
      requires Valid() && clock <= now
      modifies this`attempts, this`nextSweep, this`clock
      ensures Valid() && clock == now
      ensures now < old(nextSweep) ==> attempts == old(attempts) && nextSweep == old(nextSweep)
      ensures old(nextSweep) <= now ==> nextSweep == now + window && forall k :: k in attempts <==>
                k in old(attempts) && old(attempts)[k] != [] && old(attempts)[k][|old(attempts)[k]| - 1] > now - window
    {
      StandsLater(attempts, log, window, clock, now);
      clock := now;
      if now < nextSweep {
        return;
      }
      nextSweep := now + window;
      StandsSwept(attempts, log, window, now);
      attempts := map k | k in attempts && !Gone(attempts[k], now - window) :: attempts[k];
    }

    /** Adds an attempt of the key. */
    method RecordAttempt(key: string, now: int)
      requires Valid() && clock <= now
      modifies this
      ensures Valid() && clock == now && log == old(log) + [Attempt(key, now)]
    {
      Sweep(now);
      StandsMore(attempts, log, window, now, key);
      attempts := attempts[key := KeptOf(attempts, key) + [now]];
      log := log + [Attempt(key, now)];
    }

    /** Forgets the key. */
    method ResetKey(key: string)
      requires Valid()
      modifies this
      ensures Valid() && clock == old(clock) && log == old(log) + [Reset(key)]
      ensures attempts.Keys == old(attempts).Keys - {key}
    {
      SinceMore(log, Reset(key));
      StandsPut(attempts, log, log + [Reset(key)], window, clock, key, []);
      attempts := map k | k in attempts && k != key :: attempts[k];
      log := log + [Reset(key)];
    }

    /** The limit as a sign-in uses it: it looks at both keys, and records both only when both allow it. */
    method SignIn(student: string, ip: string, t0: int, t1: int, t2: int, t3: int) returns (ok: bool)
      requires Valid() && Bounded() && clock <= t0 <= t1 <= t2 <= t3
      modifies this
      ensures Valid() && Bounded()
      ensures ok <==> InWindow(old(log), StudentKey(student), window, t0) < maxAttempts
                      && InWindow(old(log), AddressKey(ip), window, t1) < maxAttempts
      ensures log == if ok then old(log) + [Attempt(StudentKey(student), t2), Attempt(AddressKey(ip), t3)] else old(log)
    {
      var sid, addr := StudentKey(student), AddressKey(ip);
      KeysDiffer(student, ip);
      ok := Allow(sid, t0);
      if ok {
        ok := Allow(addr, t1);
      }
      if ok {
        ghost var before := log;
        assert Keeps(KeptOf(attempts, sid), Since(before, sid), window, clock);
        assert Keeps(KeptOf(attempts, addr), Since(before, addr), window, clock);
        RecordAttempt(sid, t2);
        RecordAttempt(addr, t3);
        BothUnder(before, sid, t0, t2, addr, t1, t3, maxAttempts, window);
      }
    }
  }

  /** Recording both of two allowed keys keeps every key's windows within the limit. */
  lemma BothUnder(log: seq<Event>, a: string, la: int, at: int, b: string, lb: int, bt: int, most: nat, window: int)
    requires a != b && la <= at && lb <= bt && forall k :: NeverOver(Since(log, k), most, window)
    requires Rising(Since(log, a)) && UpTo(Since(log, a), at) && Rising(Since(log, b)) && UpTo(Since(log, b), bt)
    requires InWindow(log, a, window, la) < most && InWindow(log, b, window, lb) < most
    ensures var log' := log + [Attempt(a, at)] + [Attempt(b, bt)];
            log' == log + [Attempt(a, at), Attempt(b, bt)] && forall k :: NeverOver(Since(log', k), most, window)
  {
    TwoMore(log, a, at, b, bt);
    var log' := log + [Attempt(a, at)] + [Attempt(b, bt)];
    forall k ensures NeverOver(Since(log', k), most, window) {
      if k == a {
        AllowedKeepsUnder(Since(log, a), most, window, la, at);
      } else if k == b {
        AllowedKeepsUnder(Since(log, b), most, window, lb, bt);
      }
    }
  }

  lemma TwoMore(log: seq<Event>, a: string, at: int, b: string, bt: int)
    requires a != b
    ensures var log' := log + [Attempt(a, at)] + [Attempt(b, bt)];
            && log' == log + [Attempt(a, at), Attempt(b, bt)]
            && forall k :: Since(log', k) == if k == a then Since(log, k) + [at]
                else if k == b then Since(log, k) + [bt] else Since(log, k)
  {
    var one := log + [Attempt(a, at)];
    var two := one + [Attempt(b, bt)];
    assert one[..|log|] == log && two[..|one|] == one;
  }
}
