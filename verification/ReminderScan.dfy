/** A reminder scan: it works out which reminders are wanted and brings the job table in line with them. */
module ReminderScan {
  import opened Options
  import opened PushRounds

  /** What a reminder is about, how long before it, and when that takes place: its dedupe key. */
  datatype Key = Key(item: nat, offset: int, at: int)

  datatype Notice = Notice(user: nat, key: Key, fireAt: int, status: JobStatus) {
    /** The statuses under which the user's key is taken. */
    predicate Active() { status.Pending? || status.Processing? || status.Sent? || status.PartialFailed? }
  }

  type Table = map<nat, Notice>

  /** An assignment and its due time, or a course and a class start of it, that may be reminded of. */
  datatype Item = Item(id: nat, user: nat, at: int)

  datatype Pref = Pref(enabled: bool, offsets: seq<int>)

  /** What a scan finds: the eligible items, each user's settings, and who has a device now or may have one again. */
  datatype Found = Found(items: seq<Item>, prefs: nat -> Pref, reachable: set<nat>, awaiting: set<nat>, now: int) {
    predicate Wants(i: Item) { prefs(i.user).enabled && (i.user in reachable || i.user in awaiting) }

    function Valid(): set<(nat, Key)> {
      set i, o | i in items && Wants(i) && o in prefs(i.user).offsets :: (i.user, Key(i.id, o, i.at))
    }

    /** A valid reminder still to fire, of a user with a device for it. */
    predicate ToFile(user: nat, key: Key) {
      (user, key) in Valid() && now < key.at - key.offset && user in reachable
    }
  }

  predicate SameKey(a: Notice, b: Notice) { a.user == b.user && a.key == b.key }

  predicate Stale(f: Found, r: Notice) { r.status.Pending? && (r.user, r.key) !in f.Valid() }

  predicate Has(t: Table, user: nat, key: Key) {
    exists id :: id in t && t[id].Active() && t[id].user == user && t[id].key == key
  }

  /** What a scan that could not lock `locked` makes of `t`. */
  ghost predicate Scanned(t: Table, t': Table, f: Found, locked: set<nat>) {
    && t.Keys <= t'.Keys
    && (forall id :: id in t ==> t'[id] == if Stale(f, t[id]) && id !in locked then t[id].(status := Cancelled)
        else t[id])
    && (forall id :: id in t' && id !in t ==>
          && t'[id].status.Pending? && f.ToFile(t'[id].user, t'[id].key)
          && t'[id].fireAt == t'[id].key.at - t'[id].key.offset
          && !Has(t, t'[id].user, t'[id].key))
    && (forall a, b :: a in t' && b in t' && a !in t && b !in t && SameKey(t'[a], t'[b]) ==> a == b)
    && (forall user, key {:trigger Has(t', user, key)} :: f.ToFile(user, key) ==> Has(t', user, key))
  }

  /** What makes a reminder valid: an eligible item, reminders on, a lead time chosen, and a device now or to come. */
  lemma ValidSays(f: Found, user: nat, key: Key)
    ensures (user, key) in f.Valid() <==>
              && Item(key.item, user, key.at) in f.items && f.prefs(user).enabled && key.offset in f.prefs(user).offsets
              && (user in f.reachable || user in f.awaiting)
  {
    if (user, key) in f.Valid() {
      var i, o :| i in f.items && f.Wants(i) && o in f.prefs(i.user).offsets
          && (user, key) == (i.user, Key(i.id, o, i.at));
      assert i == Item(key.item, user, key.at);
    }
    if Item(key.item, user, key.at) in f.items && f.prefs(user).enabled && key.offset in f.prefs(user).offsets
       && (user in f.reachable || user in f.awaiting) {
      assert f.Wants(Item(key.item, user, key.at));
    }
  }

  /** And to be filed: still to fire, for a user with a device now. */
  lemma ToFileSays(f: Found, user: nat, key: Key)
    ensures f.ToFile(user, key) <==>
              && Item(key.item, user, key.at) in f.items && f.prefs(user).enabled && key.offset in f.prefs(user).offsets
              && user in f.reachable && f.now < key.at - key.offset
  {
    ValidSays(f, user, key);
  }

  /** A scan leaves no unlocked stale reminder and no wanted one unfiled, and what is being sent alone. */
  lemma ScanReconciles(t: Table, t': Table, f: Found, locked: set<nat>)
    requires Scanned(t, t', f, locked)
    ensures forall id :: id in t' && id !in locked && t'[id].status.Pending? ==> (t'[id].user, t'[id].key) in f.Valid()
    ensures forall user, key :: f.ToFile(user, key) ==> Has(t', user, key)
    ensures forall id :: id in t && !t[id].status.Pending? ==> t'[id] == t[id]
    ensures forall id :: id in locked && id in t ==> t'[id] == t[id]
  {
    forall id | id in t' && id !in locked && t'[id].status.Pending? ensures (t'[id].user, t'[id].key) in f.Valid() {
      if id !in t { assert f.ToFile(t'[id].user, t'[id].key); }
    }
  }

  /** A reminder is filed only where every earlier one of its user and key failed or was cancelled. */
  lemma FiledAfresh(t: Table, t': Table, f: Found, locked: set<nat>, id: nat, o: nat)
    requires Scanned(t, t', f, locked) && id in t' && id !in t && o in t
    requires t[o].user == t'[id].user && t[o].key == t'[id].key
    ensures t[o].status == Failed || t[o].status == Cancelled
  {
    assert !Has(t, t'[id].user, t'[id].key);
  }

  predicate Unique(t: Table) {
    forall a, b :: a in t && b in t && t[a].Active() && t[b].Active() && SameKey(t[a], t[b]) ==> a == b
  }

  /** Filing keeps each user's active keys apart. */
  lemma ScanKeepsUnique(t: Table, t': Table, f: Found, locked: set<nat>)
    requires Scanned(t, t', f, locked) && Unique(t)
    ensures Unique(t')
  {
    assert forall id :: id in t && t'[id].Active() ==> t'[id] == t[id] && Has(t, t'[id].user, t'[id].key);
  }

  /** A second scan of the same data files nothing, and cancels only what the first found locked and it does not. */
  lemma SecondScan(t: Table, t': Table, t'': Table, f: Found, locked: set<nat>, locked2: set<nat>)
    requires Scanned(t, t', f, locked) && Scanned(t', t'', f, locked2)
    ensures t''.Keys == t'.Keys
    ensures forall id :: id in t' ==> (t''[id] != t'[id] <==> id in locked && id !in locked2 && Stale(f, t'[id]))
    ensures locked <= locked2 ==> t'' == t'
  {
    assert forall id :: id in t'' && f.ToFile(t''[id].user, t''[id].key) ==> Has(t', t''[id].user, t''[id].key);
    ScanReconciles(t, t', f, locked);
  }

  datatype Request = Request(user: nat, key: Key, fireAt: int)

  predicate Asks(f: Found, valid: set<(nat, Key)>, r: Request) {
    (r.user, r.key) in valid && r.fireAt == r.key.at - r.key.offset && f.now < r.fireAt
  }

  /** The keys of the items so far, and the requests to file that go with them. */
  ghost predicate Worked(f: Found, items: seq<Item>, valid: set<(nat, Key)>, values: seq<Request>) {
    && valid == f.(items := items).Valid()
    && (forall r :: r in values <==> Asks(f, valid, r))
  }

  lemma OneMoreItem(f: Found, items: seq<Item>, i: nat)
    requires i < |items|
    ensures f.(items := items[..i + 1]).Valid() == f.(items := items[..i]).Valid() + f.(items := [items[i]]).Valid()
  {
    var (all, before, last) := (f.(items := items[..i + 1]), f.(items := items[..i]), f.(items := [items[i]]));
    forall x | x in all.Valid() ensures x in before.Valid() + last.Valid() {
      var it, o :| it in all.items && all.Wants(it) && o in all.prefs(it.user).offsets
          && x == (it.user, Key(it.id, o, it.at));
      if it in items[..i] { assert before.Wants(it); } else { assert it == items[i] && last.Wants(it); }
    }
    forall x | x in before.Valid() + last.Valid() ensures x in all.Valid() {
      if x in before.Valid() {
        var it, o :| it in before.items && before.Wants(it) && o in before.prefs(it.user).offsets
            && x == (it.user, Key(it.id, o, it.at));
        assert it in all.items && all.Wants(it);
      } else {
        var it, o :| it in last.items && last.Wants(it) && o in last.prefs(it.user).offsets
            && x == (it.user, Key(it.id, o, it.at));
        assert items[i] in all.items && all.Wants(it);
      }
    }
  }

  method ItemReminders(f: Found, item: Item) returns (valid: set<(nat, Key)>, values: seq<Request>)
    ensures Worked(f, [item], valid, values)
  {
    valid, values := {}, [];
    if !f.Wants(item) {
      return;
    }
    var offsets := f.prefs(item.user).offsets;
    for o := 0 to |offsets|
      invariant valid == set x | x in offsets[..o] :: (item.user, Key(item.id, x, item.at))
      invariant forall r :: r in values <==> Asks(f, valid, r)
    {
      var key := Key(item.id, offsets[o], item.at);
      var fireAt := item.at - offsets[o];
      assert offsets[..o + 1] == offsets[..o] + [offsets[o]];
      valid := valid + {(item.user, key)};
      if fireAt > f.now { values := values + [Request(item.user, key, fireAt)]; }
    }
    assert offsets[..|offsets|] == offsets;
    assert valid == f.(items := [item]).Valid() by {
      forall x | x in valid ensures x in f.(items := [item]).Valid() {
        var o :| o in offsets && x == (item.user, Key(item.id, o, item.at));
        assert item in f.(items := [item]).items && f.(items := [item]).Wants(item);
      }
    }
  }

  method WorkOut(f: Found) returns (valid: set<(nat, Key)>, values: seq<Request>)
    ensures Worked(f, f.items, valid, values)
  {
    valid, values := {}, [];
    for i := 0 to |f.items|
      invariant Worked(f, f.items[..i], valid, values)
    {
      var v, rs := ItemReminders(f, f.items[i]);
      OneMoreItem(f, f.items, i);
      valid, values := valid + v, values + rs;
    }
    assert f.items[..|f.items|] == f.items;
  }

  /** The jobs of one reminder channel. */
  class ReminderJobs {
    var jobs: Table
    var nextId: nat

    ghost predicate Ok()
      reads this
    {
      Below(jobs, nextId)
    }

    constructor ()
      ensures Ok() && jobs == map[]
    {
      jobs, nextId := map[], 1;
    }

    /** Files the requests in chunks, leaving out keys already taken; how they are cut makes no difference. */
    method FileJobs(rows: seq<Request>, chunk: nat) returns (created: nat)
      requires chunk > 0
      modifies this
      ensures (jobs, nextId) == FileAll(old(jobs), old(nextId), rows)
      ensures nextId == old(nextId) + created
    {
      created := 0;
      var start := 0;
      while start < |rows|
        invariant start <= |rows| && (jobs, nextId) == FileAll(old(jobs), old(nextId), rows[..start])
        invariant nextId == old(nextId) + created
      {
        var end := if start + chunk < |rows| then start + chunk else |rows|;
        for i := start to end
          invariant (jobs, nextId) == FileAll(old(jobs), old(nextId), rows[..i])
          invariant nextId == old(nextId) + created
        {
          var r := rows[i];
          assert rows[..i + 1][..i] == rows[..i];
          if !Has(jobs, r.user, r.key) {
            jobs := jobs[nextId := Notice(r.user, r.key, r.fireAt, Pending)];
            nextId := nextId + 1;
            created := created + 1;
          }
        }
        start := end;
      }
      assert rows[..|rows|] == rows;
    }

    /** One scan pass, over the jobs it can lock. */
    method Scan(f: Found, locked: set<nat>, chunk: nat) returns (created: nat)
      requires Ok() && chunk > 0
      modifies this
      ensures Ok() && Scanned(old(jobs), jobs, f, locked)
      ensures created == |jobs.Keys - old(jobs).Keys|
    {
      var pending := PendingJobs(jobs, locked);
      var valid, values := WorkOut(f);
      ghost var t, n := jobs, nextId;
      PassScans(t, n, f, locked, valid, values);
      created := FileJobs(Reachable(values, f.reachable), chunk);
      CancelStale(pending, valid);
    }

    /** Cancels those of `pending` that are no longer wanted. */
    method CancelStale(pending: set<nat>, valid: set<(nat, Key)>)
      requires pending <= jobs.Keys
      modifies this`jobs
      ensures jobs == Culled(old(jobs), pending, valid)
    {
      var rest := pending;
      while rest != {}
        invariant rest <= pending && jobs == Culled(old(jobs), pending - rest, valid)
        decreases rest
      {
        var id: nat :| id in rest;
        if (jobs[id].user, jobs[id].key) !in valid {
          jobs := jobs[id := jobs[id].(status := Cancelled)];
        }
        rest := rest - {id};
      }
    }
  }

  function PendingJobs(t: Table, locked: set<nat>): set<nat> {
    set id | id in t && t[id].status.Pending? && id !in locked
  }

  function Culled(t: Table, ids: set<nat>, valid: set<(nat, Key)>): Table {
    map id | id in t :: if id in ids && (t[id].user, t[id].key) !in valid then t[id].(status := Cancelled) else t[id]
  }

  function Reachable(values: seq<Request>, users: set<nat>): (r: seq<Request>)
    ensures forall x :: x in r <==> x in values && x.user in users
  {
    if values == [] then []
    else
      var last := values[|values| - 1];
      Reachable(values[..|values| - 1], users) + if last.user in users then [last] else []
  }

  /** `t'` is `t` with a new job for each requested key that was not taken. */
  ghost predicate FiledFrom(t: Table, t': Table, rows: seq<Request>) {
    && t.Keys <= t'.Keys && (forall id :: id in t ==> t'[id] == t[id])
    && (forall id :: id in t' && id !in t ==>
          && t'[id].status.Pending? && Request(t'[id].user, t'[id].key, t'[id].fireAt) in rows
          && !Has(t, t'[id].user, t'[id].key))
    && (forall a, b :: a in t' && b in t' && a !in t && b !in t && SameKey(t'[a], t'[b]) ==> a == b)
    && (forall r {:trigger Has(t', r.user, r.key)} :: r in rows ==> Has(t', r.user, r.key))
  }

  lemma HasMore(t: Table, t': Table, user: nat, key: Key)
    requires t.Keys <= t'.Keys && forall id :: id in t ==> t'[id] == t[id]
    ensures Has(t, user, key) ==> Has(t', user, key)
  {
    if Has(t, user, key) {
      var id :| id in t && t[id].Active() && t[id].user == user && t[id].key == key;
      assert id in t' && t'[id].Active();
    }
  }

  lemma OneMoreFiled(t: Table, was: Table, t': Table, rows: seq<Request>, r: Request, id: nat)
    requires FiledFrom(t, was, rows) && id !in was
    requires t' == if Has(was, r.user, r.key) then was else was[id := Notice(r.user, r.key, r.fireAt, Pending)]
    ensures FiledFrom(t, t', rows + [r])
  {
    forall x | x in rows + [r] ensures Has(t', x.user, x.key) {
      HasMore(was, t', x.user, x.key);
      if !Has(was, r.user, r.key) && x == r { assert t'[id].Active(); }
    }
    HasMore(t, was, r.user, r.key);
    forall a, b | a in t' && b in t' && a !in t && b !in t && SameKey(t'[a], t'[b])
      ensures a == b {
      if a != b && a == id { assert was[b].Active(); }
      if a != b && b == id { assert was[a].Active(); }
    }
  }

  /** Inserts one request, unless its key is taken. */
  function FileOne(t: Table, nextId: nat, r: Request): (Table, nat) {
    if Has(t, r.user, r.key) then (t, nextId) else (t[nextId := Notice(r.user, r.key, r.fireAt, Pending)], nextId + 1)
  }

  function FileAll(t: Table, nextId: nat, rows: seq<Request>): (Table, nat) {
    if rows == [] then (t, nextId)
    else
      var before := FileAll(t, nextId, rows[..|rows| - 1]);
      FileOne(before.0, before.1, rows[|rows| - 1])
  }

  predicate Below(t: Table, nextId: nat) { forall id :: id in t ==> id < nextId }

  ghost predicate Grown(t: Table, nextId: nat, t': Table, next': nat) {
    Below(t', next') && nextId <= next' && t.Keys <= t'.Keys && |t'.Keys - t.Keys| == next' - nextId
  }

  lemma FileOneGrows(t: Table, nextId: nat, was: Table, next: nat, r: Request)
    requires Grown(t, nextId, was, next)
    ensures Grown(t, nextId, FileOne(was, next, r).0, FileOne(was, next, r).1)
  {
    OneMoreKey(t, was, next, Notice(r.user, r.key, r.fireAt, Pending));
  }

  lemma OneMoreKey(t: Table, was: Table, id: nat, n: Notice)
    requires t.Keys <= was.Keys && Below(was, id)
    ensures Below(was[id := n], id + 1) && t.Keys <= was[id := n].Keys
    ensures |was[id := n].Keys - t.Keys| == |was.Keys - t.Keys| + 1
  {
    assert was[id := n].Keys - t.Keys == (was.Keys - t.Keys) + {id};
    assert id !in was.Keys;
  }

  lemma {:induction false} FileAllGrows(t: Table, nextId: nat, rows: seq<Request>)
    requires Below(t, nextId)
    ensures Grown(t, nextId, FileAll(t, nextId, rows).0, FileAll(t, nextId, rows).1)
  {
    if rows == [] {
      assert t.Keys - t.Keys == {};
    } else {
      var before := FileAll(t, nextId, rows[..|rows| - 1]);
      FileAllGrows(t, nextId, rows[..|rows| - 1]);
      FileOneGrows(t, nextId, before.0, before.1, rows[|rows| - 1]);
    }
  }

  lemma FiledNothing(t: Table)
    ensures FiledFrom(t, t, [])
  {
  }

  lemma {:induction false} FileAllFiles(t: Table, nextId: nat, rows: seq<Request>)
    requires Below(t, nextId)
    ensures FiledFrom(t, FileAll(t, nextId, rows).0, rows)
  {
    if rows == [] {
      FiledNothing(t);
    } else {
      var init, r := rows[..|rows| - 1], rows[|rows| - 1];
      assert init + [r] == rows;
      FileAllGrows(t, nextId, init);
      var before := FileAll(t, nextId, init);
      assert before.1 !in before.0;
      FileAllFiles(t, nextId, init);
      OneMoreFiled(t, before.0, FileOne(before.0, before.1, r).0, init, r, before.1);
    }
  }

  lemma FiledIsScanned(t: Table, filed: Table, t': Table, f: Found, locked: set<nat>, rows: seq<Request>)
    requires FiledFrom(t, filed, rows)
    requires forall r :: r in rows <==> f.ToFile(r.user, r.key) && r.fireAt == r.key.at - r.key.offset
    requires t' == Culled(filed, PendingJobs(t, locked), f.Valid())
    ensures Scanned(t, t', f, locked)
  {
    forall id | id in t' && id !in t ensures f.ToFile(t'[id].user, t'[id].key) {
      assert Request(t'[id].user, t'[id].key, t'[id].fireAt) in rows;
    }
    forall user, key | f.ToFile(user, key) ensures Has(t', user, key) {
      var r := Request(user, key, key.at - key.offset);
      assert r in rows && Has(filed, r.user, r.key);
      var id :| id in filed && filed[id].Active() && filed[id].user == user && filed[id].key == key;
      assert t'[id] == filed[id];
    }
  }

  /** Filing and then cancelling, as a pass does them, is a scan. */
  lemma PassScans(t: Table, nextId: nat, f: Found, locked: set<nat>, valid: set<(nat, Key)>, values: seq<Request>)
    requires Below(t, nextId) && Worked(f, f.items, valid, values)
    ensures var (filed, next) := FileAll(t, nextId, Reachable(values, f.reachable));
            var t' := Culled(filed, PendingJobs(t, locked), valid);
            && PendingJobs(t, locked) <= filed.Keys && Below(t', next) && Scanned(t, t', f, locked)
            && next == nextId + |t'.Keys - t.Keys|
  {
    var toFile := Reachable(values, f.reachable);
    var (filed, next) := FileAll(t, nextId, toFile);
    var t' := Culled(filed, PendingJobs(t, locked), valid);
    assert f.(items := f.items) == f;
    FileAllFiles(t, nextId, toFile);
    FileAllGrows(t, nextId, toFile);
    assert t'.Keys == filed.Keys;
    FiledIsScanned(t, filed, t', f, locked, toFile);
  }

  /* ----- The days classes meet ----- */

  datatype Holiday = Holiday(id: nat, first: int, last: int)

  /** A user's choice to be notified, or not, on a holiday. */
  datatype Override = Override(user: nat, holiday: nat, notify: bool)

  datatype Calendar = Calendar(terms: seq<(int, int)>, holidays: seq<Holiday>, overrides: seq<Override>)

  datatype Quiet = OutsideTerm | OnHoliday

  predicate Outside(day: int, terms: seq<(int, int)>) {
    terms != [] && forall t :: t in terms ==> !(t.0 <= day <= t.1)
  }

  function Covering(c: Calendar, day: int): set<nat> {
    set h | h in c.holidays && h.first <= day <= h.last :: h.id
  }

  /** Why classes do not meet for the user on the day, as the pipeline asks when a class start fires. */
  function ClassesQuiet(c: Calendar, user: nat, day: int): Option<Quiet> {
    if Outside(day, c.terms) then Some(OutsideTerm)
    else if Covering(c, day) == {} then None
    else if exists o :: o in c.overrides && o.user == user && o.holiday in Covering(c, day) && o.notify then None
    else Some(OnHoliday)
  }

  predicate Covers(h: Holiday, day: int) { h.first <= day <= h.last }

  /** Classes do not meet outside every published term, nor on a holiday the user put none back of. */
  lemma QuietSays(c: Calendar, user: nat, day: int)
    ensures var inTerm := c.terms == [] || exists t :: t in c.terms && t.0 <= day <= t.1;
            var holiday := exists h :: h in c.holidays && Covers(h, day);
            var putBack := exists h, o :: h in c.holidays && Covers(h, day) && o in c.overrides
                              && o.user == user && o.holiday == h.id && o.notify;
            && (ClassesQuiet(c, user, day) == Some(OutsideTerm) <==> !inTerm)
            && (ClassesQuiet(c, user, day) == Some(OnHoliday) <==> inTerm && holiday && !putBack)
            && (ClassesQuiet(c, user, day) == None <==> inTerm && (!holiday || putBack))
  {
    forall id ensures id in Covering(c, day) <==> exists h :: h in c.holidays && Covers(h, day) && h.id == id { }
    if h :| h in c.holidays && Covers(h, day) { assert h.id in Covering(c, day); }
  }

  function ChosenBy(overrides: seq<Override>, user: nat): set<nat> {
    set o | o in overrides && o.user == user && o.notify :: o.holiday
  }

  /** Who opted in to which holidays, as the scan gathers them. */
  method OptedIn(overrides: seq<Override>) returns (m: map<nat, set<nat>>)
    ensures forall user :: ChosenBy(overrides, user) == if user in m then m[user] else {}
  {
    m := map[];
    for i := 0 to |overrides|
      invariant forall user :: ChosenBy(overrides[..i], user) == if user in m then m[user] else {}
    {
      var o := overrides[i];
      assert forall x :: x in overrides[..i + 1] <==> x in overrides[..i] || x == o;
      forall user ensures ChosenBy(overrides[..i + 1], user) == ChosenBy(overrides[..i], user) + if o.user == user
          && o.notify then {o.holiday} else {} {
      }
      if o.notify {
        m := m[o.user := (if o.user in m then m[o.user] else {}) + {o.holiday}];
      }
    }
    assert overrides[..|overrides|] == overrides;
  }

  /** The scan's test of a day is the pipeline's, for every calendar and every choice of holidays. */
  method ScanSkipsDay(c: Calendar, user: nat, day: int) returns (skip: bool)
    ensures skip <==> ClassesQuiet(c, user, day).Some?
  {
    if Outside(day, c.terms) {
      return true;
    }
    var optedIn := OptedIn(c.overrides);
    assert ChosenBy(c.overrides, user) == if user in optedIn then optedIn[user] else {};
    var covering := Covering(c, day);
    if covering == {} {
      return false;
    }
    var both := (if user in optedIn then optedIn[user] else {}) * covering;
    assert both != {} <==> exists o :: o in c.overrides && o.user == user && o.holiday in covering && o.notify by {
      if both != {} {
        var h :| h in both;
        var o :| o in c.overrides && o.user == user && o.notify && o.holiday == h;
      }
      forall o | o in c.overrides && o.user == user && o.holiday in covering && o.notify ensures o.holiday in both { }
    }
    return both == {};
  }
}
