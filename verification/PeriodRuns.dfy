/** Sorted numbers cut into maximal runs of consecutive ones. */
module PeriodRuns {
  import opened Sequences

  function Last(s: seq<int>): int
    requires s != []
  {
    s[|s| - 1]
  }

  /** Whether `p` goes on the last of `runs`. */
  predicate GoesOn(runs: seq<seq<int>>, p: int) {
    runs != [] && runs[|runs| - 1] != [] && Last(runs[|runs| - 1]) + 1 == p
  }

  function Add(runs: seq<seq<int>>, p: int): seq<seq<int>> {
    if GoesOn(runs, p) then runs[..|runs| - 1] + [runs[|runs| - 1] + [p]] else runs + [[p]]
  }

  function Runs(sorted: seq<int>): seq<seq<int>> {
    if sorted == [] then [] else Add(Runs(sorted[..|sorted| - 1]), Last(sorted))
  }

  function Joined(runs: seq<seq<int>>): seq<int> {
    if runs == [] then [] else Joined(runs[..|runs| - 1]) + runs[|runs| - 1]
  }

  predicate Consecutive(run: seq<int>) {
    run != [] && forall i :: 0 <= i < |run| ==> run[i] == run[0] + i
  }

  /** `runs` cuts `sorted` into consecutive stretches, with a gap between each and the next. */
  predicate Split(sorted: seq<int>, runs: seq<seq<int>>) {
    && Joined(runs) == sorted
    && (forall k :: 0 <= k < |runs| ==> Consecutive(runs[k]))
    && (forall k :: 0 < k < |runs| ==> Last(runs[k - 1]) + 1 < runs[k][0])
  }

  lemma AddJoins(runs: seq<seq<int>>, p: int)
    ensures Joined(Add(runs, p)) == Joined(runs) + [p]
  {
    var added := Add(runs, p);
    if GoesOn(runs, p) {
      assert added[..|added| - 1] == runs[..|runs| - 1];
    } else {
      assert added[..|added| - 1] == runs;
    }
  }

  lemma JoinedEndsWith(runs: seq<seq<int>>)
    requires runs != [] && runs[|runs| - 1] != []
    ensures Joined(runs) != [] && Last(Joined(runs)) == Last(runs[|runs| - 1])
  {
  }

  lemma AddSplits(runs: seq<seq<int>>, init: seq<int>, p: int)
    requires Split(init, runs) && (init != [] ==> Last(init) < p)
    ensures Split(init + [p], Add(runs, p))
  {
    AddJoins(runs, p);
    var added := Add(runs, p);
    if runs != [] {
      assert Consecutive(runs[|runs| - 1]);
      JoinedEndsWith(runs);
    }
    forall k | 0 <= k < |added| ensures Consecutive(added[k]) {
      if k < |runs| { assert Consecutive(runs[k]); }
    }
    forall k | 0 < k < |added| ensures Last(added[k - 1]) + 1 < added[k][0] {
      if k < |runs| { assert Consecutive(runs[k]) && Last(runs[k - 1]) + 1 < runs[k][0]; }
    }
  }

  lemma {:induction false} RunsSplit(sorted: seq<int>)
    requires Increasing(sorted)
    ensures Split(sorted, Runs(sorted))
  {
    if sorted != [] {
      var init, p := sorted[..|sorted| - 1], sorted[|sorted| - 1];
      assert init + [p] == sorted && Increasing(init);
      RunsSplit(init);
      AddSplits(Runs(init), init, p);
      assert Runs(sorted) == Add(Runs(init), p);
    }
  }

  lemma {:induction false} RunsApart(sorted: seq<int>, runs: seq<seq<int>>, j: nat, k: nat)
    requires Split(sorted, runs) && j < k < |runs|
    ensures Last(runs[j]) + 1 < runs[k][0]
  {
    assert Consecutive(runs[k - 1]);
    if j < k - 1 { RunsApart(sorted, runs, j, k - 1); }
  }

  lemma {:induction false} JoinedHas(runs: seq<seq<int>>, p: int)
    ensures p in Joined(runs) <==> exists k :: 0 <= k < |runs| && p in runs[k]
  {
    if runs != [] {
      var init := runs[..|runs| - 1];
      JoinedHas(init, p);
      if k :| 0 <= k < |runs| && p in runs[k] { assert k == |runs| - 1 || p in init[k]; }
      if k :| 0 <= k < |init| && p in init[k] { assert p in runs[k]; }
    }
  }

  predicate Together(runs: seq<seq<int>>, p: int, q: int) {
    exists k :: 0 <= k < |runs| && p in runs[k] && q in runs[k]
  }

  lemma RunOf(sorted: seq<int>, runs: seq<seq<int>>, p: int) returns (k: nat)
    requires Split(sorted, runs) && p in sorted
    ensures k < |runs| && p in runs[k] && runs[k] != [] && runs[k][0] <= p <= Last(runs[k])
  {
    JoinedHas(runs, p);
    k :| 0 <= k < |runs| && p in runs[k];
    assert Consecutive(runs[k]);
  }

  lemma NextIsTogether(sorted: seq<int>, runs: seq<seq<int>>, p: int)
    requires Split(sorted, runs) && p in sorted && p + 1 in sorted
    ensures forall k :: 0 <= k < |runs| ==> (p in runs[k] <==> p + 1 in runs[k])
  {
    var j := RunOf(sorted, runs, p);
    var n := RunOf(sorted, runs, p + 1);
    if j < n { RunsApart(sorted, runs, j, n); }
    if n < j { RunsApart(sorted, runs, n, j); }
    forall k | 0 <= k < |runs| ensures p in runs[k] <==> p + 1 in runs[k] {
      assert Consecutive(runs[k]);
      if k < j { RunsApart(sorted, runs, k, j); } else if j < k { RunsApart(sorted, runs, j, k); }
    }
  }

  lemma {:induction false} StretchIsTogether(sorted: seq<int>, runs: seq<seq<int>>, p: int, q: int)
    requires Split(sorted, runs) && p <= q && forall x :: p <= x <= q ==> x in sorted
    ensures Together(runs, p, q)
    decreases q - p
  {
    if p == q {
      var k := RunOf(sorted, runs, p);
    } else {
      StretchIsTogether(sorted, runs, p, q - 1);
      NextIsTogether(sorted, runs, q - 1);
    }
  }

  lemma TogetherIsUnbroken(sorted: seq<int>, runs: seq<seq<int>>, p: int, q: int, x: int)
    requires Split(sorted, runs) && Together(runs, p, q) && p <= x <= q
    ensures x in sorted
  {
    var k :| 0 <= k < |runs| && p in runs[k] && q in runs[k];
    assert Consecutive(runs[k]);
    assert x == runs[k][x - runs[k][0]];
    JoinedHas(runs, x);
  }

  /** The runs of a set of periods, each in order. */
  function RunsOf(known: set<int>): seq<seq<int>> { Runs(Ascending(known)) }

  lemma RunsOfSplit(known: set<int>)
    ensures Split(Ascending(known), RunsOf(known)) && forall x :: x in Ascending(known) <==> x in known
  {
    RunsSplit(Ascending(known));
  }

  /** The runs are the maximal ones: two periods meet as one class exactly when every period between them is there. */
  lemma TogetherIffUnbroken(known: set<int>, p: int, q: int)
    requires p in known && q in known && p <= q
    ensures Together(RunsOf(known), p, q) <==> forall x :: p <= x <= q ==> x in known
  {
    var sorted, runs := Ascending(known), RunsOf(known);
    RunsOfSplit(known);
    if Together(runs, p, q) {
      forall x | p <= x <= q ensures x in known { TogetherIsUnbroken(sorted, runs, p, q, x); }
    }
    if forall x :: p <= x <= q ==> x in known {
      StretchIsTogether(sorted, runs, p, q);
    }
  }

  lemma InOneRun(sorted: seq<int>, runs: seq<seq<int>>, p: int, j: nat, k: nat)
    requires Split(sorted, runs) && j < k < |runs| && p in runs[j]
    ensures p !in runs[k]
  {
    RunsApart(sorted, runs, j, k);
    assert Consecutive(runs[j]) && Consecutive(runs[k]);
  }

  /** Each known period is in exactly one of the runs, and nothing else is. */
  lemma RunsPartition(known: set<int>, p: int)
    ensures p in known <==> exists k :: 0 <= k < |RunsOf(known)| && p in RunsOf(known)[k]
    ensures forall j, k :: 0 <= j < k < |RunsOf(known)| && p in RunsOf(known)[j] ==> p !in RunsOf(known)[k]
  {
    var sorted, runs := Ascending(known), RunsOf(known);
    RunsOfSplit(known);
    JoinedHas(runs, p);
    forall j, k | 0 <= j < k < |runs| && p in runs[j] ensures p !in runs[k] { InOneRun(sorted, runs, p, j, k); }
  }
}
