/** The nightly purge, a batch at a time, and the days it keeps of the sessions it deletes. */
module Purge {
  import opened Options
  import opened Sequences
  import opened Spans
  import opened SessionRows
  import opened SessionLedger
  import opened SessionSteps
  import opened SessionLineage

  const BATCH_ATTEMPTS: nat := 3

  /** Which sessions a purge is after, by id and contents. */
  type Filter = (Id, Session) -> bool

  /** A device and a UTC day. */
  datatype Key = Key(device: nat, day: int)

  datatype Span = Span(first: int, last: int)

  type Days = map<Key, Span>

  /** A device seen at a time. */
  datatype Point = Point(device: nat, at: int)

  function KeyOf(p: Point): Key { Key(p.device, p.at / DAY) }

  /** A point's day is the UTC day it falls in. */
  lemma FallsInItsDay(p: Point)
    ensures KeyOf(p).device == p.device && KeyOf(p).day * 86400 <= p.at < (KeyOf(p).day + 1) * 86400
  {
  }

  function Points(rows: seq<Session>): set<Point> {
    set r | r in rows && r.device.Some? :: Point(r.device.value, r.createdAt)
  }

  /* ----- What the days must say ----- */

  function Times(ps: set<Point>, k: Key): set<int> { set p | p in ps && KeyOf(p) == k :: p.at }

  function Firsts(prior: Days, ps: set<Point>, k: Key): set<int> {
    Times(ps, k) + if k in prior then {prior[k].first} else {}
  }

  function Lasts(prior: Days, ps: set<Point>, k: Key): set<int> {
    Times(ps, k) + if k in prior then {prior[k].last} else {}
  }

  predicate IsLeast(m: int, s: set<int>) { m in s && forall x :: x in s ==> m <= x }

  predicate IsGreatest(m: int, s: set<int>) { m in s && forall x :: x in s ==> x <= m }

  ghost predicate DayFits(prior: Days, ps: set<Point>, days: Days, k: Key) {
    && (k in days <==> Firsts(prior, ps, k) != {})
    && (k in days ==> IsLeast(days[k].first, Firsts(prior, ps, k)) && IsGreatest(days[k].last, Lasts(prior, ps, k)))
  }

  /** Each day's first and last are the least and greatest of what it said before and of the points. */
  ghost predicate Summary(prior: Days, ps: set<Point>, days: Days) { forall k :: DayFits(prior, ps, days, k) }

  /** So what they say does not depend on how the points came. */
  lemma SummaryIsUnique(prior: Days, ps: set<Point>, a: Days, b: Days)
    requires Summary(prior, ps, a) && Summary(prior, ps, b)
    ensures a == b
  {
    forall k ensures (k in a <==> k in b) && (k in a && k in b ==> a[k] == b[k]) {
      assert DayFits(prior, ps, a, k) && DayFits(prior, ps, b, k);
    }
  }

  lemma DaysCompose(prior: Days, ps: set<Point>, mid: Days, qs: set<Point>, days: Days, k: Key)
    requires DayFits(prior, ps, mid, k) && DayFits(mid, qs, days, k)
    ensures DayFits(prior, ps + qs, days, k)
  {
    assert Times(ps + qs, k) == Times(ps, k) + Times(qs, k);
    assert Firsts(prior, ps + qs, k) == Firsts(prior, ps, k) + Times(qs, k);
    assert Lasts(prior, ps + qs, k) == Lasts(prior, ps, k) + Times(qs, k);
  }

  lemma SummariesCompose(prior: Days, ps: set<Point>, mid: Days, qs: set<Point>, days: Days)
    requires Summary(prior, ps, mid) && Summary(mid, qs, days)
    ensures Summary(prior, ps + qs, days)
  {
    forall k ensures DayFits(prior, ps + qs, days, k) {
      assert DayFits(prior, ps, mid, k) && DayFits(mid, qs, days, k);
      DaysCompose(prior, ps, mid, qs, days, k);
    }
  }

  lemma NothingNew(days: Days)
    ensures Summary(days, {}, days)
  {
    forall k ensures DayFits(days, {}, days, k) { assert Times({}, k) == {}; }
  }

  /* ----- Keeping the days of a batch ----- */

  function Min(a: int, b: int): int { if a <= b then a else b }

  function Max(a: int, b: int): int { if a <= b then b else a }

  function Widened(days: Days, p: Point): Days {
    var k := KeyOf(p);
    var span := if k in days then days[k] else Span(p.at, p.at);
    days[k := Span(Min(span.first, p.at), Max(span.last, p.at))]
  }

  lemma WidenedFits(days: Days, p: Point)
    ensures Summary(days, {p}, Widened(days, p))
  {
    forall k ensures DayFits(days, {p}, Widened(days, p), k) {
      assert Times({p}, k) == if KeyOf(p) == k then {p.at} else {};
    }
  }

  lemma OneMoreRow(rows: seq<Session>, i: nat)
    requires i < |rows|
    ensures Points(rows[..i + 1]) == if rows[i].device.None? then Points(rows[..i])
                                     else Points(rows[..i]) + {Point(rows[i].device.value, rows[i].createdAt)}
  {
    assert rows[..i + 1] == rows[..i] + [rows[i]];
  }

  method FoldDays(rows: seq<Session>) returns (days: Days)
    ensures Summary(map[], Points(rows), days)
  {
    days := map[];
    NothingNew(days);
    for i := 0 to |rows|
      invariant Summary(map[], Points(rows[..i]), days)
    {
      var row := rows[i];
      OneMoreRow(rows, i);
      if row.device.Some? {
        var p := Point(row.device.value, row.createdAt);
        WidenedFits(days, p);
        SummariesCompose(map[], Points(rows[..i]), days, {p}, Widened(days, p));
        days := Widened(days, p);
      }
    }
    assert rows[..|rows|] == rows;
  }

  function Merged(a: Option<Span>, b: Span): Span {
    if a.None? then b else Span(Min(a.value.first, b.first), Max(a.value.last, b.last))
  }

  /** The stored days with those of `ks` brought in from `folded`. */
  function Upserted(stored: Days, folded: Days, ks: set<Key>): Days
    requires ks <= folded.Keys
  {
    map k | k in stored.Keys + ks ::
      if k in ks then Merged(if k in stored then Some(stored[k]) else None, folded[k]) else stored[k]
  }

  lemma UpsertedFits(stored: Days, folded: Days, ps: set<Point>)
    requires Summary(map[], ps, folded)
    ensures Summary(stored, ps, Upserted(stored, folded, folded.Keys))
  {
    var days := Upserted(stored, folded, folded.Keys);
    forall k ensures DayFits(stored, ps, days, k) {
      assert DayFits(map[], ps, folded, k);
      assert Firsts(map[], ps, k) == Times(ps, k) == Lasts(map[], ps, k);
    }
  }

  function KeySet(ks: seq<Key>): set<Key> { set k | k in ks }

  lemma OneMoreUpsert(stored: Days, folded: Days, ks: set<Key>, k: Key)
    requires ks <= folded.Keys && k in folded && k !in ks
    ensures var days := Upserted(stored, folded, ks);
            Upserted(stored, folded, ks + {k}) ==
                days[k := Merged(if k in days then Some(days[k]) else None, folded[k])]
  {
  }

  lemma OneMoreKey(ks: seq<Key>, i: nat)
    requires i < |ks| && forall i, j :: 0 <= i < j < |ks| ==> ks[i] != ks[j]
    ensures KeySet(ks[..i + 1]) == KeySet(ks[..i]) + {ks[i]} && ks[i] !in KeySet(ks[..i]) && ks[i] in KeySet(ks)
  {
    assert ks[..i + 1] == ks[..i] + [ks[i]];
  }

  /** Brings the folded days in, a chunk at a time. */
  method UpsertDays(stored: Days, folded: Days, values: seq<Key>, chunk: nat) returns (days: Days)
    requires chunk > 0 && KeySet(values) == folded.Keys && forall i, j :: 0 <= i < j < |values| ==>
        values[i] != values[j]
    ensures days == Upserted(stored, folded, folded.Keys)
  {
    days := stored;
    var start := 0;
    while start < |values|
      invariant start <= |values| && KeySet(values[..start]) <= folded.Keys
      invariant days == Upserted(stored, folded, KeySet(values[..start]))
    {
      var end := Min(start + chunk, |values|);
      for i := start to end
        invariant KeySet(values[..i]) <= folded.Keys && days == Upserted(stored, folded, KeySet(values[..i]))
      {
        var k := values[i];
        OneMoreKey(values, i);
        OneMoreUpsert(stored, folded, KeySet(values[..i]), k);
        days := days[k := Merged(if k in days then Some(days[k]) else None, folded[k])];
      }
      start := end;
    }
    assert values[..|values|] == values;
  }

  /** Folds the rows of a batch into their days and stores these. */
  method KeepActiveDays(stored: Days, rows: seq<Session>, chunk: nat) returns (days: Days)
    requires chunk > 0
    ensures Summary(stored, Points(rows), days)
  {
    var folded := FoldDays(rows);
    var values := Listed(folded.Keys);
    assert KeySet(values) == folded.Keys;
    days := UpsertDays(stored, folded, values, chunk);
    UpsertedFits(stored, folded, Points(rows));
  }

  /* ----- Deleting in batches ----- */

  /** The rows the purge is after, with ids in (after, upTo]. */
  function Matching(t: Rows, wanted: Filter, after: nat, upTo: nat): set<nat> {
    set id | id in t && after < id <= upTo && wanted(id, t[id])
  }

  function AllMatching(t: Rows, wanted: Filter, after: nat): set<nat> {
    set id | id in t && after < id && wanted(id, t[id])
  }

  function RowsOf(t: Rows, ids: seq<nat>): seq<Session>
    requires Members(ids) <= t.Keys
  {
    seq(|ids|, i requires 0 <= i < |ids| => assert ids[i] in Members(ids); t[ids[i]])
  }

  ghost function PointsOf(t: Rows, ids: set<nat>): set<Point> {
    set id | id in ids && id in t && t[id].device.Some? :: Point(t[id].device.value, t[id].createdAt)
  }

  lemma PointsOfRows(t: Rows, ids: seq<nat>)
    requires Members(ids) <= t.Keys
    ensures Points(RowsOf(t, ids)) == PointsOf(t, Members(ids))
  {
    var rows := RowsOf(t, ids);
    forall p | p in PointsOf(t, Members(ids)) ensures p in Points(rows) {
      var id :| id in Members(ids) && t[id].device.Some? && p == Point(t[id].device.value, t[id].createdAt);
      var i :| 0 <= i < |ids| && ids[i] == id;
      assert rows[i] in rows;
    }
    forall p | p in Points(rows) ensures p in PointsOf(t, Members(ids)) {
      var r :| r in rows && r.device.Some? && p == Point(r.device.value, r.createdAt);
      var i :| 0 <= i < |rows| && rows[i] == r;
      assert ids[i] in Members(ids);
    }
  }

  lemma {:induction false} LeastOf(s: set<nat>) returns (m: nat)
    requires s != {}
    ensures m in s && forall x :: x in s ==> m <= x
    decreases |s|
  {
    m :| m in s;
    var rest := s - {m};
    assert s == rest + {m};
    if rest != {} {
      var n := LeastOf(rest);
      m := if n < m then n else m;
    }
  }

  /** `batch` is the first `n` of `ids`, in order. */
  ghost predicate FirstOf(ids: set<nat>, n: nat, batch: seq<nat>) {
    && Increasing(batch) && |batch| <= n && Members(batch) <= ids
    && (|batch| < n ==> ids == Members(batch))
    && (forall b, id :: b in Members(batch) && id in ids && id !in Members(batch) ==> b < id)
  }

  method ReadBatch(ids: set<nat>, n: nat) returns (batch: seq<nat>)
    ensures FirstOf(ids, n, batch)
  {
    batch := [];
    var rest := ids;
    while |batch| < n && rest != {}
      invariant rest == ids - Members(batch) && Members(batch) <= ids && Increasing(batch) && |batch| <= n
      invariant forall b, id :: b in Members(batch) && id in rest ==> b < id
      decreases rest
    {
      ghost var least := LeastOf(rest);
      var id: nat :| id in rest && forall o :: o in rest ==> id <= o;
      assert Members(batch + [id]) == Members(batch) + {id};
      assert forall i :: 0 <= i < |batch| ==> batch[i] in Members(batch);
      batch, rest := batch + [id], rest - {id};
    }
    assert forall id :: id in ids && id !in Members(batch) ==> id in rest;
    assert |batch| < n ==> ids == Members(batch) + rest;
  }

  /** How far a purge got: everything it is after is gone up to id `after`. */
  datatype Progress = Progress(t: Rows, days: Days, deleted: nat, after: nat)

  /** What of the table is gone, and only that; and the days say so. */
  ghost predicate Removed(t: Rows, days: Days, gone: set<nat>, p: Progress) {
    gone <= t.Keys && p.t == Delete(t, gone) && p.deleted == |gone| && Summary(days, PointsOf(t, gone), p.days)
  }

  lemma BatchGoes(t: Rows, days: Days, gone: set<nat>, p: Progress, batch: seq<nat>, days': Days, after: nat)
    requires Removed(t, days, gone, p) && Increasing(batch) && Members(batch) <= t.Keys && gone !! Members(batch)
    requires Summary(p.days, PointsOf(t, Members(batch)), days')
    ensures Removed(t, days, gone + Members(batch),
        Progress(Delete(p.t, Members(batch)), days', p.deleted + |batch|, after))
  {
    MembersSize(batch);
    assert Delete(Delete(t, gone), Members(batch)) == Delete(t, gone + Members(batch));
    assert PointsOf(t, gone + Members(batch)) == PointsOf(t, gone) + PointsOf(t, Members(batch));
    SummariesCompose(days, PointsOf(t, gone), p.days, PointsOf(t, Members(batch)), days');
  }

  /** Deleting what `wanted` picks, which nulls the links to it, makes no other row wanted or unwanted. */
  ghost predicate Steady(t: Rows, wanted: Filter) {
    forall id :: id in t && t[id].replacedBy.Some? && t[id].replacedBy.value in AllMatching(t, wanted, 0) ==>
      (wanted(id, t[id].(replacedBy := None)) <==> wanted(id, t[id]))
  }

  lemma RestIs(t: Rows, wanted: Filter, after: nat)
    requires Steady(t, wanted)
    ensures AllMatching(Delete(t, Matching(t, wanted, 0, after)), wanted, after) == AllMatching(t, wanted, after)
  {
    var gone := Matching(t, wanted, 0, after);
    assert gone <= AllMatching(t, wanted, 0);
    forall id | id in t && after < id ensures id in Delete(t, gone)
        && (wanted(id, Delete(t, gone)[id]) <==> wanted(id, t[id])) {
      if t[id].replacedBy.Some? && t[id].replacedBy.value in gone {
        assert t[id].replacedBy.value in AllMatching(t, wanted, 0);
      }
    }
  }

  lemma PointsStay(t: Rows, gone: set<nat>, ids: set<nat>)
    requires ids <= Delete(t, gone).Keys
    ensures PointsOf(Delete(t, gone), ids) == PointsOf(t, ids) && ids <= t.Keys && gone !! ids
  {
  }

  /** One batch's transaction: the rows it read go, and their days are kept. */
  method DeleteBatch(p: Progress, batch: seq<nat>, chunk: nat, ghost t: Rows, ghost days: Days, ghost gone: set<nat>)
    returns (p': Progress)
    requires Removed(t, days, gone, p) && Increasing(batch) && Members(batch) <= p.t.Keys && chunk > 0
    ensures Removed(t, days, gone + Members(batch), p')
    ensures p'.after == if batch == [] then p.after else batch[|batch| - 1]
  {
    PointsStay(t, gone, Members(batch));
    var kept := KeepActiveDays(p.days, RowsOf(p.t, batch), chunk);
    PointsOfRows(p.t, batch);
    var last := if batch == [] then p.after else batch[|batch| - 1];
    BatchGoes(t, days, gone, p, batch, kept, last);
    p' := Progress(Delete(p.t, Members(batch)), kept, p.deleted + |batch|, last);
  }

  /**
   Deletes what `wanted` picks, oldest id first, `n` rows a transaction. Whatever `n`, `chunk` and the deadlocks,
   exactly the wanted rows are gone, or when it gave up exactly those up to the last finished batch.
   */
  method DeleteInBatches(t: Rows, days: Days, wanted: Filter, n: nat, chunk: nat, deadlock: (nat, nat) -> bool)
    returns (p: Progress, stoppedEarly: bool)
    requires n > 0 && chunk > 0 && 0 !in t && Steady(t, wanted)
    ensures Removed(t, days, if stoppedEarly then Matching(t, wanted, 0, p.after) else AllMatching(t, wanted, 0), p)
  {
    p := Progress(t, days, 0, 0);
    assert Matching(t, wanted, 0, 0) == {} && PointsOf(t, {}) == {};
    NothingNew(days);
    var round := 0;
    while true
      invariant Removed(t, days, Matching(t, wanted, 0, p.after), p)
      decreases AllMatching(t, wanted, p.after)
    {
      var attempt := 1;
      while attempt <= BATCH_ATTEMPTS && deadlock(round, attempt) { attempt := attempt + 1; }
      if attempt > BATCH_ATTEMPTS {
        return p, true;
      }
      ghost var gone := Matching(t, wanted, 0, p.after);
      RestIs(t, wanted, p.after);
      var batch := ReadBatch(AllMatching(p.t, wanted, p.after), n);
      ghost var was := p.after;
      p := DeleteBatch(p, batch, chunk, t, days, gone);
      if |batch| < n {
        assert gone + Members(batch) == AllMatching(t, wanted, 0);
        return p, false;
      }
      LastOfBatch(t, wanted, was, n, batch);
      round := round + 1;
    }
  }

  lemma LastOfBatch(t: Rows, wanted: Filter, after: nat, n: nat, batch: seq<nat>)
    requires FirstOf(AllMatching(t, wanted, after), n, batch) && batch != []
    ensures var last := batch[|batch| - 1];
            && Matching(t, wanted, 0, after) + Members(batch) == Matching(t, wanted, 0, last)
            && AllMatching(t, wanted, last) < AllMatching(t, wanted, after)
  {
    var last := batch[|batch| - 1];
    assert last in Members(batch) && forall b :: b in Members(batch) ==> b <= last;
    assert last in AllMatching(t, wanted, after) && last !in AllMatching(t, wanted, last);
  }

  /** A live session that points at another points at one that does so too. */
  ghost predicate LiveLinksHold(t: Rows) {
    forall id :: id in t && t[id].Live() && t[id].replacedBy.Some? ==>
      var next := t[id].replacedBy.value; next in t && t[next].Live() && t[next].replacedBy.Some?
  }

  /** In every state the protocol reaches they stand in closed rings. */
  lemma RingsHold(rows: Rows, nextId: Id, l: Ledger)
    requires Inv(rows, nextId, l)
    ensures LiveLinksHold(rows)
  {
    forall id | id in rows && rows[id].Live() && rows[id].replacedBy.Some?
      ensures var next := rows[id].replacedBy.value; next in rows && rows[next].Live() && rows[next].replacedBy.Some?
    {
      PointingIsInRing(rows, nextId, l, id);
      var st := Standing(l.contests[l.parent[id]].kids);
      var i :| 0 <= i < |st| && st[i] == id;
      var k := if i + 1 < |st| then i + 1 else 0;
      assert Waiting(rows, st[i]) && rows[st[i]].replacedBy == After(st, i);
      assert Waiting(rows, st[k]) && rows[st[k]].replacedBy == After(st, k);
    }
  }

  lemma PrunableIsSteady(t: Rows, cutoff: int)
    requires LiveLinksHold(t)
    ensures Steady(t, (id, row) => Prunable(row, cutoff))
  {
  }

  function ToPrune(t: Rows, cutoff: int, upTo: Option<nat>): set<Id> {
    set id | id in t && Prunable(t[id], cutoff) && (upTo.Some? ==> id <= upTo.value)
  }

  /**
   The nightly purge of sessions: exactly the prunable ones go, links to them are nulled, and a live session that
   points at another is left as it is.
   */
  method PruneExpiredSessions(t: Rows, days: Days, cutoff: int, n: nat, chunk: nat, deadlock: (nat, nat) -> bool)
    returns (p: Progress, stoppedEarly: bool)
    requires n > 0 && chunk > 0 && 0 !in t && LiveLinksHold(t)
    ensures var gone := ToPrune(t, cutoff, if stoppedEarly then Some(p.after) else None);
            p.t == Delete(t, gone) && p.deleted == |gone| && Summary(days, PointsOf(t, gone), p.days)
    ensures forall id :: id in t && t[id].Live() && t[id].replacedBy.Some? ==> id in p.t && p.t[id] == t[id]
    ensures forall id :: id in t ==>
              (id !in p.t <==> t[id].expiresAt < cutoff && (t[id].revokedAt.Some? || t[id].replacedBy.None?)
                               && (stoppedEarly ==> id <= p.after))
  {
    var wanted: Filter := (id, row) => Prunable(row, cutoff);
    assert Steady(t, wanted) by { PrunableIsSteady(t, cutoff); }
    p, stoppedEarly := DeleteInBatches(t, days, wanted, n, chunk, deadlock);
    ghost var gone := if stoppedEarly then Matching(t, wanted, 0, p.after) else AllMatching(t, wanted, 0);
    assert gone == ToPrune(t, cutoff, if stoppedEarly then Some(p.after) else None);
  }

  /** So what a purge leaves is again a table the protocol reaches. */
  lemma PurgedIsInOrder(rows: Rows, nextId: Id, l: Ledger, cutoff: int, upTo: Option<nat>)
    requires Inv(rows, nextId, l)
    ensures var gone := ToPrune(rows, cutoff, upTo); Inv(Delete(rows, gone), nextId, Close(l, gone))
  {
    PruneKeeps(rows, nextId, l, ToPrune(rows, cutoff, upTo), cutoff);
  }
}
