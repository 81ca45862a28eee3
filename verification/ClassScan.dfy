/** A whole scan of class reminders: from courses, changes and calendar to the jobs left pending. */
module ClassScan {
  import opened Options
  import opened PushRounds
  import opened Timetable
  import opened ClassMeetings
  import opened ReminderScan

  /**
   What a scan reads of the school: the enrolled courses it takes as current, the changes to their classes, the
   calendar, the dates a user skips a course on, and the term of each day while terms are published.
   */
  datatype School = School(
    courses: seq<Course>,
    changes: seq<Change>,
    calendar: Calendar,
    skipped: set<(nat, int)>,
    termOn: Option<int -> string>,
    setting: Setting)

  /** Classes of the course meet on the day, as far as its user is concerned. */
  predicate Open(school: School, course: Course, day: int) {
    && (course.id, day) !in school.skipped
    && (school.termOn.Some? ==> school.termOn.value(day) == course.term)
    && ClassesQuiet(school.calendar, course.user, day).None?
  }

  /** Not skipped by the user, in the course's own term and in no holiday but one the user put back. */
  lemma OpenSays(school: School, course: Course, day: int)
    ensures var c := school.calendar;
            Open(school, course, day) <==>
              && (course.id, day) !in school.skipped
              && (school.termOn.Some? ==> school.termOn.value(day) == course.term)
              && (c.terms == [] || exists t :: t in c.terms && t.0 <= day <= t.1)
              && ((forall h :: h in c.holidays ==> !Covers(h, day))
                  || exists h, o :: h in c.holidays && Covers(h, day) && o in c.overrides
                       && o.user == course.user && o.holiday == h.id && o.notify)
  {
    QuietSays(school.calendar, course.user, day);
  }

  ghost predicate Gives(school: School, course: Course, it: Item, now: int, to: int) {
    && it.id == course.id && it.user == course.user
    && ScanFinds(course, school.changes, it.at, now, to, school.setting)
    && Open(school, course, LocalDay(it.at, school.setting.offset))
  }

  ghost predicate GivenBy(school: School, courses: seq<Course>, it: Item, now: int, to: int) {
    exists c :: c in courses && Gives(school, c, it, now, to)
  }

  /** The item is a class of the course still to come, at its time of the week or where a change moved it. */
  ghost predicate ClassOf(school: School, course: Course, it: Item, now: int, to: int) {
    it.id == course.id && it.user == course.user && now < it.at
    && FromClass(course, school.changes, it.at, to, school.setting)
  }

  ghost predicate ClassOfSome(school: School, it: Item, now: int, to: int) {
    exists c :: c in school.courses && ClassOf(school, c, it, now, to)
  }

  method CourseItems(school: School, course: Course, now: int, to: int) returns (items: seq<Item>)
    ensures forall it :: it in items <==> Gives(school, course, it, now, to)
    ensures forall it :: it in items ==> ClassOf(school, course, it, now, to)
  {
    var starts := ScanStarts(course, school.changes, now, to, school.setting, day => Open(school, course, day));
    items := [];
    for i := 0 to |starts|
      invariant forall it :: it in items <==> it.id == course.id && it.user == course.user && it.at in starts[..i]
    {
      assert starts[..i + 1] == starts[..i] + [starts[i]];
      items := items + [Item(course.id, course.user, starts[i])];
    }
    assert starts[..|starts|] == starts;
  }

  lemma OneMoreCourse(school: School, i: nat, it: Item, now: int, to: int)
    requires i < |school.courses|
    ensures GivenBy(school, school.courses[..i + 1], it, now, to) <==>
              GivenBy(school, school.courses[..i], it, now, to) || Gives(school, school.courses[i], it, now, to)
  {
    assert forall c :: c in school.courses[..i + 1] <==> c in school.courses[..i] || c == school.courses[i];
  }

  /** The class starts to be reminded of. */
  method AllItems(school: School, now: int, to: int) returns (items: seq<Item>)
    ensures forall it :: it in items <==> GivenBy(school, school.courses, it, now, to)
    ensures forall it :: it in items ==> ClassOfSome(school, it, now, to)
  {
    items := [];
    for i := 0 to |school.courses|
      invariant forall it :: it in items ==> ClassOfSome(school, it, now, to)
      invariant forall it :: it in items <==> GivenBy(school, school.courses[..i], it, now, to)
    {
      var more := CourseItems(school, school.courses[i], now, to);
      forall it ensures GivenBy(school, school.courses[..i + 1], it, now, to) <==> it in items || it in more {
        OneMoreCourse(school, i, it, now, to);
      }
      assert school.courses[i] in school.courses;
      items := items + more;
    }
    assert school.courses[..|school.courses|] == school.courses;
  }

  /** The reminder is for a class its course still has, on a day it meets, and the recheck before sending agrees. */
  ghost predicate Stands(school: School, r: Notice) {
    exists c :: c in school.courses && c.id == r.key.item && c.user == r.user && c.enrolled
      && Accepts(c, school.changes, r.key.at, school.setting)
      && Open(school, c, LocalDay(r.key.at, school.setting.offset))
  }

  lemma ValidStands(school: School, f: Found, r: Notice, now: int, to: int)
    requires forall it :: it in f.items ==> GivenBy(school, school.courses, it, now, to)
    requires forall c :: c in school.courses ==> c.enrolled && AllAccepted(c, school.changes, school.setting)
    requires (r.user, r.key) in f.Valid()
    ensures Stands(school, r)
  {
    var it, o :| it in f.items && f.Wants(it) && o in f.prefs(it.user).offsets
        && (r.user, r.key) == (it.user, Key(it.id, o, it.at));
    var c :| c in school.courses && Gives(school, c, it, now, to);
    assert Accepts(c, school.changes, it.at, school.setting);
  }

  /** The reminder is for a class still to come, with reminders on, at a lead time chosen, for a user with a device. */
  ghost predicate Wanted(school: School, prefs: nat -> Pref, users: set<nat>, r: Notice, now: int, to: int) {
    && r.user in users && prefs(r.user).enabled && r.key.offset in prefs(r.user).offsets
    && ClassOfSome(school, Item(r.key.item, r.user, r.key.at), now, to)
  }

  /**
   One scan pass. Every reminder it leaves pending and unlocked stands, unless a class at midnight is refused
   (`AllAcceptedIff`); every class start still to be reminded of has a job; what is being sent is left alone.
   */
  method ScanCourseReminders(table: ReminderJobs, school: School, prefs: nat -> Pref, reachable: set<nat>,
                             awaiting: set<nat>, now: int, to: int, locked: set<nat>, chunk: nat)
    returns (created: nat)
    requires table.Ok() && chunk > 0 && forall c :: c in school.courses ==> c.enrolled
    modifies table
    ensures table.Ok()
    ensures (forall c :: c in school.courses ==> AllAccepted(c, school.changes, school.setting)) ==>
              forall id :: id in table.jobs && id !in locked && table.jobs[id].status.Pending? ==>
                  Stands(school, table.jobs[id])
    ensures forall id :: id in table.jobs && id !in locked && table.jobs[id].status.Pending? ==>
              Wanted(school, prefs, reachable + awaiting, table.jobs[id], now, to)
    ensures forall id :: id in table.jobs && id !in old(table.jobs) ==>
              && table.jobs[id].status == Pending && table.jobs[id].user in reachable
              && table.jobs[id].fireAt == table.jobs[id].key.at - table.jobs[id].key.offset > now
    ensures forall c, it, o ::
              (c in school.courses && Gives(school, c, it, now, to) && o in prefs(c.user).offsets
               && prefs(c.user).enabled && c.user in reachable && now < it.at - o) ==>
                Has(table.jobs, c.user, Key(it.id, o, it.at))
    ensures forall id :: id in old(table.jobs) && !old(table.jobs)[id].status.Pending? ==>
              id in table.jobs && table.jobs[id] == old(table.jobs)[id]
  {
    var items := AllItems(school, now, to);
    var f := Found(items, prefs, reachable, awaiting, now);
    ghost var before := table.jobs;
    created := table.Scan(f, locked, chunk);
    ScanReconciles(before, table.jobs, f, locked);
    ghost var after := table.jobs;
    forall id | id in after && id !in locked && after[id].status.Pending?
      ensures Wanted(school, prefs, reachable + awaiting, after[id], now, to)
    {
      ValidSays(f, after[id].user, after[id].key);
    }
    if forall c :: c in school.courses ==> AllAccepted(c, school.changes, school.setting) {
      forall id | id in after && id !in locked && after[id].status.Pending? ensures Stands(school, after[id]) {
        ValidStands(school, f, after[id], now, to);
      }
    }
    forall c, it, o | c in school.courses && Gives(school, c, it, now, to) && o in prefs(c.user).offsets
                      && prefs(c.user).enabled && c.user in reachable && now < it.at - o
      ensures Has(after, c.user, Key(it.id, o, it.at))
    {
      assert it in items && f.Wants(it);
      assert f.ToFile(c.user, Key(it.id, o, it.at));
    }
  }
}
