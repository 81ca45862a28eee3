/** A course's schedule as runs of periods, and the class starts it comes to in a window of time. */
module Timetable {
  import opened Options
  import opened Sequences
  import opened PeriodRuns

  /** The school's periods, in the order they follow one another. */
  const PERIODS: seq<string> := ["1", "2", "3", "4", "5", "6", "7", "8", "9", "10", "A", "B", "C", "D"]

  type Minute = m: int | 0 <= m < 1440

  /** When each period starts; None is a setting that does not read as a time. */
  type Times = map<string, Option<Minute>>

  datatype Entry = Entry(day: int, periods: seq<string>) | Malformed

  /** A weekday of the object form: None where the key is no weekday, or the value no list. */
  datatype Weekday = Weekday(key: Option<int>, periods: Option<seq<string>>)

  datatype Schedule = AsList(entries: seq<Entry>) | AsObject(days: seq<Weekday>) | Neither

  /* ----- The schedule's entries ----- */

  function Known(periods: seq<string>): set<int> {
    set r | 0 <= r < |PERIODS| && PERIODS[r] in periods
  }

  function PeriodAtRank(rank: int): string { if 0 <= rank < |PERIODS| then PERIODS[rank] else "" }

  function RunEntry(day: int, run: seq<int>): Entry {
    Entry(day, seq(|run|, i requires 0 <= i < |run| => PeriodAtRank(run[i])))
  }

  function RunEntries(day: int, runs: seq<seq<int>>): (entries: seq<Entry>)
    ensures |entries| == |runs|
  {
    seq(|runs|, k requires 0 <= k < |runs| => RunEntry(day, runs[k]))
  }

  /** A weekday of the object form, as one entry per maximal run. */
  function DayEntries(w: Weekday): seq<Entry> {
    if w.key.None? || w.periods.None? then []
    else RunEntries(w.key.value, RunsOf(Known(w.periods.value)))
  }

  /** The periods in order: the numbers from 1 to 10, then the letters from A to D. */
  lemma PeriodsInOrder(i: nat)
    requires i < 14
    ensures |PERIODS| == 14
    ensures i < 9 ==> PERIODS[i] == [('1' as int + i) as char]
    ensures i == 9 ==> PERIODS[i] == "10"
    ensures i > 9 ==> PERIODS[i] == [('A' as int + i - 10) as char]
  {
  }

  /** The ranks of a weekday's runs are those of the school's periods it names. */
  lemma RunsHoldNamed(named: seq<string>, k: nat, r: int)
    requires k < |RunsOf(Known(named))| && r in RunsOf(Known(named))[k]
    ensures 0 <= r < |PERIODS| && PERIODS[r] in named
  {
    RunsPartition(Known(named), r);
  }

  /** An entry of a weekday is of its day, and names at least one period, each of the school and named by it. */
  lemma EntryIsNamed(w: Weekday, k: nat)
    requires w.key.Some? && w.periods.Some? && k < |DayEntries(w)|
    ensures var e := DayEntries(w)[k];
            && e.Entry? && e.day == w.key.value && e.periods != []
            && forall p :: p in e.periods ==> p in w.periods.value && p in PERIODS
  {
    var named := w.periods.value;
    var run, e := RunsOf(Known(named))[k], DayEntries(w)[k];
    RunsOfSplit(Known(named));
    assert e == RunEntry(w.key.value, run) && Consecutive(run);
    forall p | p in e.periods ensures p in named && p in PERIODS {
      var i :| 0 <= i < |e.periods| && e.periods[i] == p;
      RunsHoldNamed(named, k, run[i]);
    }
  }

  lemma RunEntryHas(day: int, run: seq<int>, r: nat)
    requires r in run && r < |PERIODS|
    ensures PERIODS[r] in RunEntry(day, run).periods
  {
    var i :| 0 <= i < |run| && run[i] == r;
    assert RunEntry(day, run).periods[i] == PERIODS[r];
  }

  /** And every period of the school that a weekday names is in one of its entries. */
  lemma NamedIsInEntry(w: Weekday, r: nat) returns (k: nat)
    requires w.key.Some? && w.periods.Some? && r < |PERIODS| && PERIODS[r] in w.periods.value
    ensures k < |DayEntries(w)| && DayEntries(w)[k].Entry? && PERIODS[r] in DayEntries(w)[k].periods
  {
    var known := Known(w.periods.value);
    RunsPartition(known, r);
    k :| 0 <= k < |RunsOf(known)| && r in RunsOf(known)[k];
    RunEntryHas(w.key.value, RunsOf(known)[k], r);
    assert DayEntries(w)[k] == RunEntry(w.key.value, RunsOf(known)[k]);
  }

  function EntriesOf(days: seq<Weekday>): seq<Entry> {
    if days == [] then [] else EntriesOf(days[..|days| - 1]) + DayEntries(days[|days| - 1])
  }

  predicate Gives(w: Weekday, e: Entry) { w.key.Some? && w.periods.Some? && e in DayEntries(w) }

  /**
   A schedule in object form has the entries of its weekdays and no others; a key or value that does not read
   adds none.
   */
  lemma {:induction false} ObjectEntriesSay(days: seq<Weekday>, e: Entry)
    ensures e in ScheduleSpec(AsObject(days)) <==> SomeGives(days, e)
  {
    if days != [] {
      ObjectEntriesSay(days[..|days| - 1], e);
      OneMoreGives(days[..|days| - 1], days[|days| - 1], e);
      assert days == days[..|days| - 1] + [days[|days| - 1]];
    }
  }

  predicate SomeGives(days: seq<Weekday>, e: Entry) { exists w :: w in days && Gives(w, e) }

  lemma OneMoreGives(days: seq<Weekday>, last: Weekday, e: Entry)
    ensures SomeGives(days + [last], e) <==> SomeGives(days, e) || e in DayEntries(last)
  {
    if SomeGives(days, e) {
      var w :| w in days && Gives(w, e);
      assert w in days + [last];
    }
    if e in DayEntries(last) { assert last in days + [last] && Gives(last, e); }
  }

  function ScheduleSpec(schedule: Schedule): seq<Entry> {
    match schedule
    case AsList(entries) => entries
    case AsObject(days) => EntriesOf(days)
    case Neither => []
  }

  method SplitDay(day: int, sorted: seq<int>) returns (entries: seq<Entry>)
    ensures entries == RunEntries(day, Runs(sorted))
  {
    entries := [];
    var run: seq<int> := [];
    for i := 0 to |sorted|
      invariant i == 0 ==> entries == [] && run == []
      invariant i > 0 ==> run != [] && Runs(sorted[..i]) != []
      invariant i > 0 ==> var runs := Runs(sorted[..i]);
                run == runs[|runs| - 1] && entries == RunEntries(day, runs[..|runs| - 1])
    {
      assert sorted[..i + 1][..i] == sorted[..i];
      if run != [] && sorted[i] != run[|run| - 1] + 1 {
        ghost var runs := Runs(sorted[..i]);
        entries := entries + [RunEntry(day, run)];
        assert entries == RunEntries(day, runs);
        run := [];
      }
      run := run + [sorted[i]];
    }
    assert sorted[..|sorted|] == sorted;
    if run != [] {
      entries := entries + [RunEntry(day, run)];
    }
  }

  method ScheduleEntries(schedule: Schedule) returns (entries: seq<Entry>)
    ensures entries == ScheduleSpec(schedule)
  {
    match schedule
    case AsList(list) => return list;
    case Neither => return [];
    case AsObject(days) =>
      entries := [];
      for d := 0 to |days|
        invariant entries == EntriesOf(days[..d])
      {
        assert days[..d + 1][..d] == days[..d];
        if days[d].key.Some? && days[d].periods.Some? {
          var more := SplitDay(days[d].key.value, Ascending(Known(days[d].periods.value)));
          entries := entries + more;
        }
      }
      assert days[..|days|] == days;
  }
}
