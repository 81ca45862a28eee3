/**
 The class starts a schedule comes to, the school's changes to them, and the scan and the send-time recheck
 over both.
 */
module ClassMeetings {
  import opened Options
  import opened Sequences
  import opened Spans
  import opened Timetable

  datatype Slot = Slot(day: int, minute: Minute, period: string)

  datatype Meeting = Meeting(start: int, period: string)

  /* ----- When an entry starts ----- */

  predicate TextBefore(a: string, b: string) {
    b != [] && (a == [] || a[0] < b[0] || (a[0] == b[0] && TextBefore(a[1..], b[1..])))
  }

  predicate Sooner(a: Slot, b: Slot) { a.minute < b.minute || (a.minute == b.minute && TextBefore(a.period, b.period)) }

  lemma {:induction false} TextBeforeIsStrict(a: string)
    ensures !TextBefore(a, a)
  {
    if a != [] { TextBeforeIsStrict(a[1..]); }
  }

  lemma {:induction false} TextBeforeGoesOn(a: string, b: string, c: string)
    requires TextBefore(a, b) && TextBefore(b, c)
    ensures TextBefore(a, c)
  {
    if a != [] && a[0] == b[0] == c[0] { TextBeforeGoesOn(a[1..], b[1..], c[1..]); }
  }

  lemma SoonerGoesOn(a: Slot, b: Slot, c: Slot)
    requires Sooner(a, b) && Sooner(b, c)
    ensures Sooner(a, c)
  {
    if a.minute == b.minute == c.minute { TextBeforeGoesOn(a.period, b.period, c.period); }
  }

  predicate HasTime(times: Times, period: string) { period in times && times[period].Some? }

  /** The earliest of the entry's periods whose start is known. */
  function EarliestOf(day: int, periods: seq<string>, times: Times): (r: Option<Slot>)
    ensures r.Some? ==> r.value.day == day && r.value.period in periods && HasTime(times, r.value.period)
    ensures r.Some? ==> times[r.value.period] == Some(r.value.minute)
    ensures forall p :: p in periods && HasTime(times, p) ==> r.Some? && !Sooner(Slot(day, times[p].value, p), r.value)
  {
    if periods == [] then None
    else
      var before := EarliestOf(day, periods[..|periods| - 1], times);
      var p := periods[|periods| - 1];
      assert forall q :: q in periods ==> q == p || q in periods[..|periods| - 1];
      assert forall q: Slot :: !Sooner(q, q) by {
        forall q: Slot ensures !Sooner(q, q) { TextBeforeIsStrict(q.period); }
      }
      assert forall a: Slot, b: Slot, c: Slot :: Sooner(a, b) && Sooner(b, c) ==> Sooner(a, c) by {
        forall a: Slot, b: Slot, c: Slot | Sooner(a, b) && Sooner(b, c) ensures Sooner(a, c) { SoonerGoesOn(a, b, c); }
      }
      if !HasTime(times, p) then before
      else if before.None? || Sooner(Slot(day, times[p].value, p), before.value) then Some(Slot(day, times[p].value, p))
      else before
  }

  function SlotOf(entry: Entry, times: Times): Option<Slot> {
    if entry.Malformed? || !(1 <= entry.day <= 7) then None else EarliestOf(entry.day, entry.periods, times)
  }

  function Slots(entries: seq<Entry>, times: Times): seq<Slot> {
    if entries == [] then []
    else
      var last := SlotOf(entries[|entries| - 1], times);
      Slots(entries[..|entries| - 1], times) + if last.Some? then [last.value] else []
  }

  /* ----- Class starts, in a zone `offset` seconds ahead of UTC all year ----- */

  function LocalDay(t: int, offset: int): int { (t + offset) / DAY }

  function Midnight(day: int, offset: int): int { day * DAY - offset }

  /** Monday is 1; day 0 was a Thursday. */
  function WeekdayOf(day: int): int { (day + 3) % 7 + 1 }

  function StartOn(day: int, minute: Minute, offset: int): int { Midnight(day, offset) + minute * 60 }

  lemma StartsThatDay(day: int, minute: Minute, offset: int)
    ensures LocalDay(StartOn(day, minute, offset), offset) == day
  {
  }

  predicate Meets(slot: Slot, t: int, offset: int) {
    WeekdayOf(LocalDay(t, offset)) == slot.day && t == StartOn(LocalDay(t, offset), slot.minute, offset)
  }

  /** A class of the slot's weekday and minute is at `t`: so many weeks from Monday, 5 January 1970, local time. */
  ghost predicate Weekly(slot: Slot, t: int, offset: int) {
    exists w: int :: t == WeekStart(w, offset) + (slot.day - 1) * 86400 + slot.minute * 60
  }

  /** Midnight of the `w`-th Monday. */
  function WeekStart(w: int, offset: int): int { 4 * 86400 - offset + w * 7 * 86400 }

  /** A slot meets every week at its time, and at no other. */
  lemma MeetsWeekly(slot: Slot, t: int, offset: int)
    requires 1 <= slot.day <= 7
    ensures Meets(slot, t, offset) <==> Weekly(slot, t, offset)
  {
    if Meets(slot, t, offset) {
      var day := LocalDay(t, offset);
      var w := (day + 3) / 7 - 1;
      assert t == WeekStart(w, offset) + (slot.day - 1) * 86400 + slot.minute * 60;
    }
    if Weekly(slot, t, offset) {
      var w :| t == WeekStart(w, offset) + (slot.day - 1) * 86400 + slot.minute * 60;
      StartsThatDay(4 + 7 * w + slot.day - 1, slot.minute, offset);
    }
  }

  /** The period of the first slot that starts a class at `t`, if one does. */
  function PeriodAt(slots: seq<Slot>, t: int, offset: int): Option<string> {
    if slots == [] then None
    else
      var before := PeriodAt(slots[..|slots| - 1], t, offset);
      var last := slots[|slots| - 1];
      if before.Some? then before else if Meets(last, t, offset) then Some(last.period) else None
  }

  /** `ms` is every class start in (from, to], once and in order, with the period it starts in. */
  ghost predicate Lists(ms: seq<Meeting>, slots: seq<Slot>, from: int, to: int, offset: int) {
    && (forall i, j :: 0 <= i < j < |ms| ==> ms[i].start < ms[j].start)
    && (forall m :: m in ms ==> from < m.start <= to && PeriodAt(slots, m.start, offset) == Some(m.period))
    && (forall t :: from < t <= to && PeriodAt(slots, t, offset).Some? ==>
          Meeting(t, PeriodAt(slots, t, offset).value) in ms)
  }

  ghost predicate Found(occ: map<int, string>, slots: seq<Slot>, done: seq<Slot>, day: int, from: int, to: int,
      offset: int) {
    forall t :: t in occ <==> from < t <= to && SoFar(slots, done, day, t, offset).Some?
  }

  /** What is known of `t` once all days before `day` are through, and `done` of the slots on it. */
  ghost function SoFar(slots: seq<Slot>, done: seq<Slot>, day: int, t: int, offset: int): Option<string> {
    if LocalDay(t, offset) < day then PeriodAt(slots, t, offset)
    else if LocalDay(t, offset) == day then PeriodAt(done, t, offset)
    else None
  }

  ghost predicate Right(occ: map<int, string>, slots: seq<Slot>, done: seq<Slot>, day: int, offset: int) {
    forall t :: t in occ ==> Some(occ[t]) == SoFar(slots, done, day, t, offset)
  }

  lemma OneMoreSlot(slots: seq<Slot>, k: nat, day: int, t: int, offset: int)
    requires k < |slots|
    ensures SoFar(slots, slots[..k + 1], day, t, offset) ==
              if SoFar(slots, slots[..k], day, t, offset).Some? then SoFar(slots, slots[..k], day, t, offset)
              else if WeekdayOf(day) == slots[k].day
                  && t == StartOn(day, slots[k].minute, offset) then Some(slots[k].period)
              else None
  {
    assert slots[..k + 1][..k] == slots[..k];
    StartsThatDay(day, slots[k].minute, offset);
  }

  lemma OneMoreDay(slots: seq<Slot>, day: int, t: int, offset: int)
    ensures SoFar(slots, slots, day, t, offset) == SoFar(slots, [], day + 1, t, offset)
  {
  }

  lemma {:induction false} SlotsOfMore(entries: seq<Entry>, times: Times, i: nat)
    requires i < |entries|
    ensures Slots(entries[..i + 1], times) ==
              Slots(entries[..i], times) + if SlotOf(entries[i], times).Some? then [SlotOf(entries[i], times).value]
                  else []
  {
    assert entries[..i + 1][..i] == entries[..i];
  }

  method CollectSlots(schedule: Schedule, times: Times) returns (slots: seq<Slot>)
    ensures slots == Slots(ScheduleSpec(schedule), times)
  {
    var entries := ScheduleEntries(schedule);
    slots := [];
    for i := 0 to |entries|
      invariant slots == Slots(entries[..i], times)
    {
      SlotsOfMore(entries, times, i);
      var slot := SlotOf(entries[i], times);
      if slot.Some? { slots := slots + [slot.value]; }
    }
    assert entries[..|entries|] == entries;
  }

  method ClassesOfDay(slots: seq<Slot>, day: int, from: int, to: int, offset: int, occ: map<int, string>)
    returns (occ': map<int, string>)
    requires Found(occ, slots, [], day, from, to, offset) && Right(occ, slots, [], day, offset)
    ensures Found(occ', slots, [], day + 1, from, to, offset) && Right(occ', slots, [], day + 1, offset)
  {
    occ' := occ;
    for k := 0 to |slots|
      invariant Found(occ', slots, slots[..k], day, from, to, offset) && Right(occ', slots, slots[..k], day, offset)
    {
      forall t ensures SoFar(slots, slots[..k + 1], day, t, offset) ==
              if SoFar(slots, slots[..k], day, t, offset).Some? then SoFar(slots, slots[..k], day, t, offset)
              else if WeekdayOf(day) == slots[k].day
                  && t == StartOn(day, slots[k].minute, offset) then Some(slots[k].period)
              else None { OneMoreSlot(slots, k, day, t, offset); }
      if slots[k].day == WeekdayOf(day) {
        var t := StartOn(day, slots[k].minute, offset);
        if from < t <= to && t !in occ' { occ' := occ'[t := slots[k].period]; }
      }
    }
    assert slots[..|slots|] == slots;
    forall t ensures SoFar(slots, slots, day, t, offset) == SoFar(slots, [], day + 1, t, offset) {
      OneMoreDay(slots, day, t, offset);
    }
  }

  function ByStart(occ: map<int, string>): (ms: seq<Meeting>)
    ensures |ms| == |Ascending(occ.Keys)|
    ensures forall i :: 0 <= i < |ms| ==>
              ms[i].start == Ascending(occ.Keys)[i] && ms[i].start in occ && ms[i].period == occ[ms[i].start]
  {
    var keys := Ascending(occ.Keys);
    assert forall i :: 0 <= i < |keys| ==> keys[i] in keys;
    seq(|keys|, i requires 0 <= i < |keys| => Meeting(keys[i], occ[keys[i]]))
  }

  lemma ByStartLists(occ: map<int, string>)
    ensures forall i, j :: 0 <= i < j < |ByStart(occ)| ==> ByStart(occ)[i].start < ByStart(occ)[j].start
    ensures forall m :: m in ByStart(occ) <==> m.start in occ && occ[m.start] == m.period
  {
    var ms, keys := ByStart(occ), Ascending(occ.Keys);
    forall m: Meeting | m.start in occ && occ[m.start] == m.period ensures m in ms {
      assert m.start in keys;
      var i :| 0 <= i < |keys| && keys[i] == m.start;
      assert ms[i] == m;
    }
  }

  method ListMeetings(slots: seq<Slot>, from: int, to: int, offset: int) returns (ms: seq<Meeting>)
    ensures Lists(ms, slots, from, to, offset)
  {
    var occ: map<int, string> := map[];
    var day, last := LocalDay(from, offset), LocalDay(to, offset);
    while day <= last
      invariant Found(occ, slots, [], day, from, to, offset) && Right(occ, slots, [], day, offset)
    {
      occ := ClassesOfDay(slots, day, from, to, offset, occ);
      day := day + 1;
    }
    forall t | from < t <= to ensures LocalDay(t, offset) < day || day <= LocalDay(from, offset) { }
    ms := ByStart(occ);
    ByStartLists(occ);
  }

  /** An entry of the schedule, on a weekday, has the slot: its earliest period whose time is known. */
  predicate HasSlot(e: Entry, times: Times, slot: Slot) {
    e.Entry? && 1 <= e.day <= 7 && EarliestOf(e.day, e.periods, times) == Some(slot)
  }

  lemma {:induction false} SlotsSay(entries: seq<Entry>, times: Times, slot: Slot)
    ensures slot in Slots(entries, times) <==> exists e :: e in entries && HasSlot(e, times, slot)
  {
    if entries != [] {
      var init, last := entries[..|entries| - 1], entries[|entries| - 1];
      SlotsSay(init, times, slot);
      assert forall e :: e in entries <==> e in init || e == last;
      assert HasSlot(last, times, slot) <==> SlotOf(last, times) == Some(slot);
    }
  }

  /** Some entry of the schedule has a class at `t`. */
  ghost predicate HasClass(schedule: Schedule, times: Times, t: int, offset: int) {
    exists e, slot :: e in ScheduleSpec(schedule) && HasSlot(e, times, slot) && Weekly(slot, t, offset)
  }

  lemma ClassIffPeriod(schedule: Schedule, times: Times, t: int, offset: int)
    ensures HasClass(schedule, times, t, offset) <==> PeriodAt(Slots(ScheduleSpec(schedule), times), t, offset).Some?
  {
    var slots := Slots(ScheduleSpec(schedule), times);
    SlotsAreOnWeekdays(ScheduleSpec(schedule), times);
    if PeriodAt(slots, t, offset).Some? {
      var slot := MeetingHasSlot(slots, t, offset);
      MeetsWeekly(slot, t, offset);
      SlotsSay(ScheduleSpec(schedule), times, slot);
    }
    if HasClass(schedule, times, t, offset) {
      var e, slot :| e in ScheduleSpec(schedule) && HasSlot(e, times, slot) && Weekly(slot, t, offset);
      SlotsSay(ScheduleSpec(schedule), times, slot);
      MeetsWeekly(slot, t, offset);
      SlotGivesMeeting(slots, slot, t, offset);
    }
  }

  /** Of the slots with a class at `t`, the first listed gives the period. */
  lemma {:induction false} FirstGivesPeriod(slots: seq<Slot>, t: int, offset: int, i: nat)
    requires i < |slots| && Meets(slots[i], t, offset) && forall j :: 0 <= j < i ==> !Meets(slots[j], t, offset)
    ensures PeriodAt(slots, t, offset) == Some(slots[i].period)
  {
    var init := slots[..|slots| - 1];
    if i < |init| {
      FirstGivesPeriod(init, t, offset, i);
    } else if PeriodAt(init, t, offset).Some? {
      var slot := MeetingHasSlot(init, t, offset);
      assert false;
    }
  }

  /** Exactly the class starts of the window, sorted and each once. */
  method MeetingsOf(schedule: Schedule, from: int, to: int, offset: int, times: Times) returns (ms: seq<Meeting>)
    ensures Lists(ms, Slots(ScheduleSpec(schedule), times), from, to, offset)
    ensures forall t :: (exists m :: m in ms && m.start == t) <==>
        (from < t <= to && HasClass(schedule, times, t, offset))
  {
    forall t ensures HasClass(schedule, times, t, offset) <==>
        PeriodAt(Slots(ScheduleSpec(schedule), times), t, offset).Some? {
      ClassIffPeriod(schedule, times, t, offset);
    }
    var slots := CollectSlots(schedule, times);
    if slots == [] {
      return [];
    }
    ms := ListMeetings(slots, from, to, offset);
  }

  /* ----- The school's changes ----- */

  datatype ChangeKind = CancelledClass | NewStart | NewRoom | Note

  datatype Change = Change(
    kind: ChangeKind,
    term: string,
    course: string,
    first: int,
    last: int,
    excluded: set<int>,
    weekdays: set<int>,
    periods: Option<set<string>>,
    minute: Minute,
    room: Option<string>)

  datatype Course = Course(
    id: nat,
    user: nat,
    enrolled: bool,
    term: string,
    number: Option<string>,
    classroom: Option<string>,
    schedule: Schedule)

  predicate Applies(c: Change, term: string, course: string, day: int, period: string) {
    && !c.kind.Note? && c.term == term && c.course == course && c.first <= day <= c.last
    && WeekdayOf(day) !in c.excluded && WeekdayOf(day) in c.weekdays
    && (c.periods.None? || period in c.periods.value)
  }

  /** The weekday of a day, by the week it is in: day 4, 5 January 1970, was a Monday. */
  lemma WeekdaySays(day: int, w: int)
    requires 4 + 7 * w <= day < 4 + 7 * (w + 1)
    ensures WeekdayOf(day) == day - (4 + 7 * w) + 1
  {
  }

  /**
   A change applies to a course's class from its first to its last day, on its weekdays but those left out, and to
   the periods it names or to all; a note applies to none.
   */
  lemma AppliesSays(c: Change, term: string, course: string, w: int, weekday: int, period: string)
    requires 1 <= weekday <= 7
    ensures var day := 4 + 7 * w + weekday - 1;
            Applies(c, term, course, day, period) <==>
              && (c.kind == CancelledClass || c.kind == NewStart || c.kind == NewRoom)
              && c.term == term && c.course == course && c.first <= day && day <= c.last
              && weekday in c.weekdays - c.excluded && (c.periods == None || period in c.periods.value)
  {
    WeekdaySays(4 + 7 * w + weekday - 1, w);
  }

  /** The changes to one meeting, by kind. */
  function MeetingChanges(changes: seq<Change>, term: string, course: string, day: int,
      period: string): (r: map<ChangeKind, Change>)
    ensures forall k :: k in r <==> exists c :: c in changes && Applies(c, term, course, day, period) && c.kind == k
    ensures forall k :: k in r ==> r[k] in changes && Applies(r[k], term, course, day, period) && r[k].kind == k
  {
    if changes == [] then map[]
    else
      var before := MeetingChanges(changes[..|changes| - 1], term, course, day, period);
      var c := changes[|changes| - 1];
      assert forall x :: x in changes <==> x == c || x in changes[..|changes| - 1];
      if Applies(c, term, course, day, period) then before[c.kind := c] else before
  }

  /** Of several changes of a kind the last listed is the one that holds. */
  lemma {:induction false} LastChangeHolds(changes: seq<Change>, term: string, course: string, day: int,
      period: string, i: nat)
    requires i < |changes| && Applies(changes[i], term, course, day, period)
    requires forall j :: i < j < |changes| && Applies(changes[j], term, course, day, period) ==>
               changes[j].kind != changes[i].kind
    ensures var r := MeetingChanges(changes, term, course, day, period);
            changes[i].kind in r && r[changes[i].kind] == changes[i]
  {
    if i < |changes| - 1 { LastChangeHolds(changes[..|changes| - 1], term, course, day, period, i); }
  }

  predicate AppliesTo(c: Change, course: Course, m: Meeting, offset: int) {
    course.number.Some? && Applies(c, course.term, course.number.value, LocalDay(m.start, offset), m.period)
  }

  /** A change of the kind covers the meeting. */
  predicate IsChanged(changes: seq<Change>, course: Course, m: Meeting, offset: int, kind: ChangeKind) {
    exists c :: c in changes && AppliesTo(c, course, m, offset) && c.kind == kind
  }

  /** Where and when the meeting of `course` at `m` takes place; None when it is cancelled. */
  function Changed(changes: seq<Change>, course: Course, m: Meeting, offset: int): (r: Option<(int, Option<string>)>)
    ensures r.Some? ==> LocalDay(r.value.0, offset) == LocalDay(m.start, offset)
    ensures changes == [] ==> r == Some((m.start, course.classroom))
  {
    var day := LocalDay(m.start, offset);
    var byKind := if course.number.Some? then MeetingChanges(changes, course.term, course.number.value, day, m.period)
        else map[];
    if CancelledClass in byKind then None
    else
      var start := if NewStart in byKind then StartOn(day, byKind[NewStart].minute, offset) else m.start;
      assert LocalDay(start, offset) == day by {
        if NewStart in byKind { StartsThatDay(day, byKind[NewStart].minute, offset); }
      }
      Some((start, if NewRoom in byKind then byKind[NewRoom].room else course.classroom))
  }

  /** Cancelled exactly by a cancellation that covers it; start and room as scheduled, or as a change says. */
  lemma ChangedMeans(changes: seq<Change>, course: Course, m: Meeting, offset: int)
    ensures var r := Changed(changes, course, m, offset);
            && (r.None? <==> IsChanged(changes, course, m, offset, CancelledClass))
            && (r.Some? && !IsChanged(changes, course, m, offset, NewStart) ==> r.value.0 == m.start)
            && (r.Some? && IsChanged(changes, course, m, offset, NewStart) ==>
                  exists c :: c in changes && AppliesTo(c, course, m, offset) && c.kind.NewStart?
                    && r.value.0 == StartOn(LocalDay(m.start, offset), c.minute, offset))
            && (r.Some? && !IsChanged(changes, course, m, offset, NewRoom) ==> r.value.1 == course.classroom)
            && (r.Some? && IsChanged(changes, course, m, offset, NewRoom) ==>
                  exists c :: c in changes && AppliesTo(c, course, m, offset) && c.kind.NewRoom? && r.value.1 == c.room)
  {
    var day := LocalDay(m.start, offset);
    if course.number.Some? {
      var byKind := MeetingChanges(changes, course.term, course.number.value, day, m.period);
      forall k ensures k in byKind <==> IsChanged(changes, course, m, offset, k) {
        if IsChanged(changes, course, m, offset, k) {
          var c :| c in changes && AppliesTo(c, course, m, offset) && c.kind == k;
          assert Applies(c, course.term, course.number.value, day, m.period);
        }
      }
      forall k | k in byKind ensures byKind[k] in changes && AppliesTo(byKind[k], course, m, offset) { }
    }
  }

  /* ----- The recheck before a class reminder goes out ----- */

  datatype Setting = Setting(offset: int, times: Times)

  ghost predicate IsMeeting(course: Course, m: Meeting, setting: Setting) {
    PeriodAt(Slots(ScheduleSpec(course.schedule), setting.times), m.start, setting.offset) == Some(m.period)
  }

  /** The changes leave the meeting `m` to start at `start`. */
  predicate MovedTo(course: Course, changes: seq<Change>, m: Meeting, start: int, setting: Setting) {
    var c := Changed(changes, course, m, setting.offset);
    c.Some? && c.value.0 == start
  }

  /** A class of the course starts at `start`, moved from one in (from, to]. */
  ghost predicate StartsAt(course: Course, changes: seq<Change>, start: int, from: int, to: int, setting: Setting) {
    exists m :: IsMeeting(course, m, setting) && from < m.start <= to && MovedTo(course, changes, m, start, setting)
  }

  /** Whether the class still starts when the reminder says, and in which room. */
  method Recheck(found: Option<Course>, start: int, changes: seq<Change>, setting: Setting)
    returns (room: Option<Option<string>>)
    ensures room.Some? <==> found.Some? && found.value.enrolled && Accepts(found.value, changes, start, setting)
    ensures room.Some? ==> exists m :: IsMeeting(found.value, m, setting)
                             && Changed(changes, found.value, m, setting.offset) == Some((start, room.value))
  {
    room := None;
    if found.None? || !found.value.enrolled {
      return;
    }
    var course := found.value;
    var midnight := Midnight(LocalDay(start, setting.offset), setting.offset);
    var ms := MeetingsOf(course.schedule, midnight, midnight + DAY, setting.offset, setting.times);
    for i := 0 to |ms|
      invariant forall k :: 0 <= k < i ==> !MovedTo(course, changes, ms[k], start, setting)
    {
      var meeting := Changed(changes, course, ms[i], setting.offset);
      if meeting.Some? && meeting.value.0 == start {
        assert ms[i] in ms && IsMeeting(course, ms[i], setting) && MovedTo(course, changes, ms[i], start, setting);
        return Some(meeting.value.1);
      }
    }
    forall m | IsMeeting(course, m, setting) && midnight < m.start <= midnight + DAY
      ensures !MovedTo(course, changes, m, start, setting)
    {
      assert m in ms;
    }
  }

  ghost predicate Accepts(course: Course, changes: seq<Change>, start: int, setting: Setting) {
    var midnight := Midnight(LocalDay(start, setting.offset), setting.offset);
    StartsAt(course, changes, start, midnight, midnight + DAY, setting)
  }

  /** The starts a scan at `now` files reminders for. */
  ghost predicate ScanFinds(course: Course, changes: seq<Change>, start: int, now: int, to: int, setting: Setting) {
    now < start && StartsAt(course, changes, start, Midnight(LocalDay(now, setting.offset), setting.offset), to,
        setting)
  }

  predicate FoundIn(course: Course, changes: seq<Change>, ms: seq<Meeting>, start: int, setting: Setting) {
    exists m :: m in ms && MovedTo(course, changes, m, start, setting)
  }

  lemma ListedAreFound(course: Course, changes: seq<Change>, ms: seq<Meeting>, start: int, from: int, to: int,
      setting: Setting)
    requires Lists(ms, Slots(ScheduleSpec(course.schedule), setting.times), from, to, setting.offset)
    ensures FoundIn(course, changes, ms, start, setting) <==> StartsAt(course, changes, start, from, to, setting)
  {
    if FoundIn(course, changes, ms, start, setting) {
      var m :| m in ms && MovedTo(course, changes, m, start, setting);
      assert IsMeeting(course, m, setting);
    }
    if StartsAt(course, changes, start, from, to, setting) {
      var m :| IsMeeting(course, m, setting) && from < m.start <= to && MovedTo(course, changes, m, start, setting);
      assert m in ms;
    }
  }

  /** The start is that of a weekly class up to `to`, as the changes leave it. */
  ghost predicate FromClass(course: Course, changes: seq<Change>, start: int, to: int, setting: Setting) {
    exists m :: MovedTo(course, changes, m, start, setting) && m.start <= to
      && HasClass(course.schedule, setting.times, m.start, setting.offset)
  }

  lemma OneMoreFound(course: Course, changes: seq<Change>, ms: seq<Meeting>, i: nat, start: int, setting: Setting)
    requires i < |ms|
    ensures FoundIn(course, changes, ms[..i + 1], start, setting) <==>
              FoundIn(course, changes, ms[..i], start, setting) || MovedTo(course, changes, ms[i], start, setting)
  {
    assert forall m :: m in ms[..i + 1] <==> m in ms[..i] || m == ms[i];
  }

  method ScanStarts(course: Course, changes: seq<Change>, now: int, to: int, setting: Setting, dayOpen: int -> bool)
    returns (starts: seq<int>)
    ensures forall s :: s in starts <==>
        (ScanFinds(course, changes, s, now, to, setting) && dayOpen(LocalDay(s, setting.offset)))
    ensures forall s :: s in starts ==> now < s && FromClass(course, changes, s, to, setting)
  {
    starts := [];
    var from := Midnight(LocalDay(now, setting.offset), setting.offset);
    var ms := MeetingsOf(course.schedule, from, to, setting.offset, setting.times);
    for i := 0 to |ms|
      invariant forall s :: s in starts <==>
        (now < s && dayOpen(LocalDay(s, setting.offset)) && FoundIn(course, changes, ms[..i], s, setting))
    {
      forall s ensures FoundIn(course, changes, ms[..i + 1], s, setting) <==>
                 FoundIn(course, changes, ms[..i], s, setting) || MovedTo(course, changes, ms[i], s, setting)
      {
        OneMoreFound(course, changes, ms, i, s, setting);
      }
      if dayOpen(LocalDay(ms[i].start, setting.offset)) {
        var meeting := Changed(changes, course, ms[i], setting.offset);
        if meeting.Some? && meeting.value.0 > now { starts := starts + [meeting.value.0]; }
      }
    }
    assert ms[..|ms|] == ms;
    forall s ensures FoundIn(course, changes, ms, s, setting) <==> StartsAt(course, changes, s, from, to, setting) {
      ListedAreFound(course, changes, ms, s, from, to, setting);
    }
  }

  /* ----- The recheck agrees with the scan ----- */

  predicate NoneAtMidnight(course: Course, setting: Setting) {
    forall slot :: slot in Slots(ScheduleSpec(course.schedule), setting.times) ==> slot.minute != 0
  }

  lemma {:induction false} MeetingHasSlot(slots: seq<Slot>, t: int, offset: int) returns (slot: Slot)
    requires PeriodAt(slots, t, offset).Some?
    ensures slot in slots && Meets(slot, t, offset)
  {
    var init := slots[..|slots| - 1];
    if PeriodAt(init, t, offset).Some? {
      slot := MeetingHasSlot(init, t, offset);
    } else {
      slot := slots[|slots| - 1];
    }
  }

  lemma InsideItsDay(course: Course, m: Meeting, setting: Setting)
    requires IsMeeting(course, m, setting) && NoneAtMidnight(course, setting)
    ensures var midnight := Midnight(LocalDay(m.start, setting.offset), setting.offset);
            midnight < m.start < midnight + DAY
  {
    var slot := MeetingHasSlot(Slots(ScheduleSpec(course.schedule), setting.times), m.start, setting.offset);
  }

  /** Where no class starts at midnight, every start the scan files is accepted when it comes to send. */
  lemma ScannedIsAccepted(course: Course, changes: seq<Change>, start: int, now: int, to: int, setting: Setting)
    requires NoneAtMidnight(course, setting) && ScanFinds(course, changes, start, now, to, setting)
    ensures Accepts(course, changes, start, setting)
  {
    var m :| IsMeeting(course, m, setting) && Midnight(LocalDay(now, setting.offset), setting.offset) < m.start <= to
             && MovedTo(course, changes, m, start, setting);
    InsideItsDay(course, m, setting);
  }

  lemma AcceptedIsScanned(course: Course, changes: seq<Change>, start: int, now: int, to: int, setting: Setting)
    requires NoneAtMidnight(course, setting) && now < start && Accepts(course, changes, start, setting)
    requires Midnight(LocalDay(start, setting.offset), setting.offset) + DAY <= to + 1
    ensures ScanFinds(course, changes, start, now, to, setting)
  {
    var midnight := Midnight(LocalDay(start, setting.offset), setting.offset);
    var m :| IsMeeting(course, m, setting) && midnight < m.start <= midnight + DAY
        && MovedTo(course, changes, m, start, setting);
    InsideItsDay(course, m, setting);
    assert m.start <= to;
    EarlierMidnight(now, start, setting.offset);
  }

  lemma EarlierMidnight(a: int, b: int, offset: int)
    requires a <= b
    ensures Midnight(LocalDay(a, offset), offset) <= Midnight(LocalDay(b, offset), offset)
  {
  }

  /** And over the days the window takes in whole, the recheck accepts no other start. */
  lemma AcceptedIffScanned(course: Course, changes: seq<Change>, start: int, now: int, to: int, setting: Setting)
    requires NoneAtMidnight(course, setting) && now < start
    requires Midnight(LocalDay(start, setting.offset), setting.offset) + DAY <= to + 1
    ensures Accepts(course, changes, start, setting) <==> ScanFinds(course, changes, start, now, to, setting)
  {
    if ScanFinds(course, changes, start, now, to, setting) {
      ScannedIsAccepted(course, changes, start, now, to, setting);
    }
    if Accepts(course, changes, start, setting) {
      AcceptedIsScanned(course, changes, start, now, to, setting);
    }
  }

  lemma {:induction false} SlotGivesMeeting(slots: seq<Slot>, slot: Slot, t: int, offset: int)
    requires slot in slots && Meets(slot, t, offset)
    ensures PeriodAt(slots, t, offset).Some?
  {
    if slot in slots[..|slots| - 1] { SlotGivesMeeting(slots[..|slots| - 1], slot, t, offset); }
  }

  /** A day of each weekday. */
  lemma SomeDay(weekday: int) returns (day: int)
    requires 1 <= weekday <= 7
    ensures WeekdayOf(day) == weekday
  {
    day := weekday + 3;
  }

  lemma {:induction false} SlotsAreOnWeekdays(entries: seq<Entry>, times: Times)
    ensures forall slot :: slot in Slots(entries, times) ==> 1 <= slot.day <= 7
  {
    if entries != [] { SlotsAreOnWeekdays(entries[..|entries| - 1], times); }
  }

  ghost predicate AllAccepted(course: Course, changes: seq<Change>, setting: Setting) {
    forall start, now, to ::
      ScanFinds(course, changes, start, now, to, setting) ==> Accepts(course, changes, start, setting)
  }

  predicate AtMidnight(m: Meeting, setting: Setting) {
    m.start == Midnight(LocalDay(m.start, setting.offset), setting.offset)
  }

  /** Another meeting of the same day is moved to `start`. */
  ghost predicate OtherMovedTo(course: Course, changes: seq<Change>, m: Meeting, start: int, setting: Setting) {
    exists o :: IsMeeting(course, o, setting) && o != m && MovedTo(course, changes, o, start, setting)
      && LocalDay(o.start, setting.offset) == LocalDay(m.start, setting.offset)
  }

  /** A class at midnight is left uncancelled, and no other of its day is moved to where it starts. */
  ghost predicate Refused(course: Course, changes: seq<Change>, m: Meeting, start: int, setting: Setting) {
    && IsMeeting(course, m, setting) && AtMidnight(m, setting) && MovedTo(course, changes, m, start, setting)
    && !OtherMovedTo(course, changes, m, start, setting)
  }

  lemma DayBounds(t: int, offset: int)
    ensures Midnight(LocalDay(t, offset), offset) <= t < Midnight(LocalDay(t, offset), offset) + DAY
  {
  }

  /** The recheck of a class at midnight finds others of the day or nothing. */
  lemma MidnightDecides(course: Course, changes: seq<Change>, m: Meeting, start: int, setting: Setting)
    requires IsMeeting(course, m, setting) && AtMidnight(m, setting) && MovedTo(course, changes, m, start, setting)
    ensures Accepts(course, changes, start, setting) <==> OtherMovedTo(course, changes, m, start, setting)
  {
    var midnight := Midnight(LocalDay(start, setting.offset), setting.offset);
    assert midnight == m.start;
    if OtherMovedTo(course, changes, m, start, setting) {
      var o :| IsMeeting(course, o, setting) && o != m && MovedTo(course, changes, o, start, setting)
               && LocalDay(o.start, setting.offset) == LocalDay(m.start, setting.offset);
      DayBounds(o.start, setting.offset);
      assert o.start != m.start;
    }
    if Accepts(course, changes, start, setting) {
      var o :| IsMeeting(course, o, setting) && midnight < o.start <= midnight + DAY
               && MovedTo(course, changes, o, start, setting);
      assert o != m;
    }
  }

  lemma OthersAccepted(course: Course, changes: seq<Change>, m: Meeting, start: int, setting: Setting)
    requires IsMeeting(course, m, setting) && !AtMidnight(m, setting) && MovedTo(course, changes, m, start, setting)
    ensures Accepts(course, changes, start, setting)
  {
    DayBounds(m.start, setting.offset);
  }

  lemma RefusedIsScanned(course: Course, changes: seq<Change>, m: Meeting, start: int, setting: Setting)
    requires Refused(course, changes, m, start, setting)
    ensures ScanFinds(course, changes, start, m.start - 1, m.start, setting)
    ensures !Accepts(course, changes, start, setting)
  {
    MidnightDecides(course, changes, m, start, setting);
    DayBounds(start, setting.offset);
    DayBounds(m.start - 1, setting.offset);
  }

  /** Whatever the changes, that is exactly when the recheck refuses a start the scan files. */
  lemma AllAcceptedIff(course: Course, changes: seq<Change>, setting: Setting)
    ensures AllAccepted(course, changes, setting) <==> forall m, start :: !Refused(course, changes, m, start, setting)
  {
    if AllAccepted(course, changes, setting) {
      forall m, start ensures !Refused(course, changes, m, start, setting) {
        if Refused(course, changes, m, start, setting) { RefusedIsScanned(course, changes, m, start, setting); }
      }
    }
    if forall m, start :: !Refused(course, changes, m, start, setting) {
      forall start, now, to | ScanFinds(course, changes, start, now, to, setting)
        ensures Accepts(course, changes, start, setting)
      {
        var from := Midnight(LocalDay(now, setting.offset), setting.offset);
        var m :| IsMeeting(course, m, setting) && from < m.start <= to && MovedTo(course, changes, m, start, setting);
        if AtMidnight(m, setting) {
          assert !Refused(course, changes, m, start, setting);
          MidnightDecides(course, changes, m, start, setting);
        } else {
          OthersAccepted(course, changes, m, start, setting);
        }
      }
    }
  }

  /** With no changes: exactly when a class starts at midnight. */
  lemma AllAcceptedIffNoneAtMidnight(course: Course, setting: Setting)
    ensures AllAccepted(course, [], setting) <==> NoneAtMidnight(course, setting)
  {
    if NoneAtMidnight(course, setting) {
      forall start, now, to | ScanFinds(course, [], start, now, to, setting)
        ensures Accepts(course, [], start, setting) {
        ScannedIsAccepted(course, [], start, now, to, setting);
      }
    } else {
      var slots := Slots(ScheduleSpec(course.schedule), setting.times);
      var slot :| slot in slots && slot.minute == 0;
      SlotsAreOnWeekdays(ScheduleSpec(course.schedule), setting.times);
      var day := SomeDay(slot.day);
      MidnightIsRefused(course, setting, slot, day);
    }
  }

  lemma MidnightIsRefused(course: Course, setting: Setting, slot: Slot, day: int)
    requires slot in Slots(ScheduleSpec(course.schedule), setting.times) && slot.minute == 0
        && WeekdayOf(day) == slot.day
    ensures var start := Midnight(day, setting.offset);
            ScanFinds(course, [], start, start - 1, start, setting) && !Accepts(course, [], start, setting)
  {
    var slots := Slots(ScheduleSpec(course.schedule), setting.times);
    var start := Midnight(day, setting.offset);
    StartsThatDay(day, 0, setting.offset);
    SlotGivesMeeting(slots, slot, start, setting.offset);
    var m := Meeting(start, PeriodAt(slots, start, setting.offset).value);
    assert IsMeeting(course, m, setting) && Changed([], course, m, setting.offset) == Some((start, course.classroom));
    assert Midnight(LocalDay(start - 1, setting.offset), setting.offset) <= start - 1;
    assert MovedTo(course, [], m, start, setting);
    assert StartsAt(course, [], start, Midnight(LocalDay(start - 1, setting.offset), setting.offset), start, setting);
  }
}
