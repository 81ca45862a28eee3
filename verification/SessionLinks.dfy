/**
 Which rows a transaction reads and writes: what the linked sessions of a row can
 become while others commit, and that a transaction writes only rows linked to its own.
 */
module SessionLinks {
  import opened Options
  import opened Sequences
  import opened SessionRows
  import opened SessionLedger
  import opened SessionSteps
  import opened SessionRuns

  lemma LinkedWithin(rows: Rows, x: Id, within: set<Id>)
    requires x in within && ClosedUnder(rows, within)
    requires x in rows && rows[x].replacedBy.Some? && rows[x].replacedBy.value in rows ==>
        rows[x].replacedBy.value in within
    ensures Linked(rows, x) <= within
  {
    if x in rows { WalkStaysIn(rows, rows[x].replacedBy, {x}, within); }
  }

  lemma LinkedIsClosed(rows: Rows, x: Id)
    ensures ClosedUnder(rows, Linked(rows, x))
    ensures x in rows ==> x in Linked(rows, x)
    ensures x in rows && rows[x].replacedBy.Some? && rows[x].replacedBy.value in rows ==>
        rows[x].replacedBy.value in Linked(rows, x)
    ensures forall id :: id in Linked(rows, x) ==> id in rows
  {
    if x in rows { WalkIsClosed(rows, rows[x].replacedBy, {x}); }
  }

  /** A closed set that holds one member of a ring holds the ring. */
  lemma ClosedHoldsRing(rows: Rows, ids: seq<Id>, found: set<Id>, k: Id)
    requires Ring(rows, ids) && ClosedUnder(rows, found) && k in ids && k in found
    ensures forall id :: id in ids ==> id in found
  {
    var i :| 0 <= i < |ids| && ids[i] == k;
    var last := |ids| - 1;
    var inside := found * Members(ids);
    forall id | id in inside && id in rows && rows[id].replacedBy.Some? && rows[id].replacedBy.value in rows
      ensures rows[id].replacedBy.value in inside
    {
      var n :| 0 <= n < |ids| && ids[n] == id;
      assert Waiting(rows, ids[n]);
    }
    ClosedReachesUp(rows, ids, inside, i, last);
    assert Waiting(rows, ids[0]) && rows[ids[last]].replacedBy == After(ids, last);
    forall id | id in ids ensures id in found {
      var n :| 0 <= n < |ids| && ids[n] == id;
      ClosedReachesUp(rows, ids, inside, 0, n);
    }
  }

  /** Only links of rows that stay live matter, and they lead where they led. */
  lemma LinkedShrinks(rows: Rows, rows': Rows, x: Id, extra: set<Id>)
    requires x in rows
    requires forall id ::
               (id in Linked(rows, x) && id in rows' && rows'[id].Live()
                && rows'[id].replacedBy.Some? && rows'[id].replacedBy.value in rows') ==>
                 rows'[id].replacedBy.value in Linked(rows, x) + extra
    requires forall id ::
               (id in extra && id in rows' && rows'[id].Live()
                && rows'[id].replacedBy.Some? && rows'[id].replacedBy.value in rows') ==>
                 rows'[id].replacedBy.value in Linked(rows, x) + extra
    requires x in rows' && rows'[x].replacedBy.Some? && rows'[x].replacedBy.value in rows' ==>
               rows'[x].replacedBy.value in Linked(rows, x) + extra
    ensures Linked(rows', x) <= Linked(rows, x) + extra
  {
    LinkedIsClosed(rows, x);
    LinkedWithin(rows', x, Linked(rows, x) + extra);
  }

  /** The linked sessions depend on no other rows. */
  lemma {:induction false} WalkIsLocal(rows: Rows, rows': Rows, next: Option<Id>, seen: set<Id>, held: set<Id>)
    requires forall id :: id in held ==> (id in rows <==> id in rows') && (id in rows ==> rows'[id] == rows[id])
    requires Walk(rows, next, seen) <= held
    requires next.Some? && next.value !in rows ==> next.value !in rows'
    requires forall id :: id in rows && rows[id].replacedBy.Some? && rows[id].replacedBy.value !in rows ==>
        rows[id].replacedBy.value !in rows'
    ensures Walk(rows', next, seen) == Walk(rows, next, seen)
    decreases rows.Keys - seen
  {
    if next.Some? && next.value in rows && next.value !in seen {
      var n := next.value;
      assert n in Walk(rows, next, seen);
      assert n in rows.Keys - seen;
      if rows[n].Live() { WalkIsLocal(rows, rows', rows[n].replacedBy, seen + {n}, held); }
    }
  }

  /* ----- Links lead to rows that are there ----- */

  predicate NoDangling(rows: Rows) {
    forall id :: id in rows && rows[id].replacedBy.Some? ==> rows[id].replacedBy.value in rows
  }

  lemma SettleLinks(rows: Rows, id: Id, now: int)
    requires NoDangling(rows) && id in rows
    ensures NoDangling(Settle(rows, id, now))
  {
  }

  lemma RotateLinks(rows: Rows, id: Id, newId: Id, now: int, ttl: int)
    requires NoDangling(rows) && id in rows && newId !in rows
    ensures NoDangling(Rotate(rows, id, newId, now, ttl))
  {
    SettleLinks(rows, id, now);
  }

  lemma CutLinks(rows: Rows, ring: seq<Id>, newId: Id, now: int)
    requires NoDangling(rows) && newId in rows && forall id :: id in ring ==> id in rows
    ensures NoDangling(Cut(rows, ring, newId, now))
  {
    if |ring| > KEPT { assert ring[|ring| - KEPT] in ring; }
  }

  lemma TrimLinks(rows: Rows, newId: Id, now: int)
    requires NoDangling(rows) && newId in rows
    ensures NoDangling(Trim(rows, newId, now))
  {
    LinkedIsClosed(rows, newId);
    CutLinks(rows, Sorted(Linked(rows, newId)), newId, now);
  }

  lemma RotateAgainLinks(rows: Rows, token: Id, newId: Id, now: int, ttl: int)
    requires NoDangling(rows) && token in rows && newId !in rows && !rows[token].Live() && MayRotateAgain(rows, token)
    ensures NoDangling(RotateAgain(rows, token, newId, now, ttl))
  {
    RotateLinks(rows, token, newId, now, ttl);
    var joined := Join(Rotate(rows, token, newId, now, ttl), rows[token].replacedBy.value, newId);
    assert NoDangling(joined);
    TrimLinks(joined, newId, now);
  }

  lemma RefreshLinks(cfg: Config, rows: Rows, token: Id, active: bool, newId: Id, now: int)
    requires NoDangling(rows) && newId !in rows
    ensures NoDangling(Refresh(cfg, rows, token, active, newId, now).0)
  {
    if token in rows && rows[token].Live() {
      RotateLinks(rows, token, newId, now, cfg.ttl);
    } else if token in rows && MayRotateAgain(rows, token) {
      RotateAgainLinks(rows, token, newId, now, cfg.ttl);
    }
  }

  lemma StepLinks(cfg: Config, s: State, l: Ledger, a: Action)
    requires Enabled(cfg, s, l, a) && NoDangling(s.rows)
    ensures NoDangling(Next(cfg, s, l, a).rows)
  {
    match a
    case Present(token, active, newId, now) => RefreshLinks(cfg, s.rows, token, active, newId, now);
    case Request(id, _, now) =>
      if id in s.rows { SettleLinks(s.rows, id, now); }
    case _ =>
  }

  /* ----- What the links of a row become ----- */

  /** Settling a ring leaves the others as they are, and has each rival point at the winner it was linked to. */
  lemma SettleRivals(rows: Rows, st: seq<Id>, i: nat, now: int, x: Id)
    requires Ring(rows, st) && Increasing(st) && i < |st| && x in rows && x != st[i]
    ensures var u := Settle(rows, st[i], now);
            x in u && (u[x] == rows[x] || (!u[x].Live() && u[x].replacedBy == Some(st[i]) && st[i] in Linked(rows, x)))
  {
    SettleRing(rows, st, i, now);
    if x in st {
      var k :| 0 <= k < |st| && st[k] == x;
      LinkedIsRing(rows, st, k);
    }
  }

  lemma UseRivals(rows: Rows, nextId: Id, l: Ledger, id: Id, now: int, x: Id)
    requires Inv(rows, nextId, l) && id in rows && rows[id].Live() && x in rows && x != id
    ensures var u := Use(rows, id, true, now).0;
            u[x] == rows[x] || (!u[x].Live() && u[x].replacedBy == Some(id) && id in Linked(rows, x))
  {
    LiveFacts(rows, nextId, l, id);
    if rows[id].replacedBy.Some? {
      var p := l.parent[id];
      assert KidsOk(l, p) && ContestOk(rows, l, p);
      StandingFacts(l.contests[p].kids);
      var st := Standing(l.contests[p].kids);
      var i :| 0 <= i < |st| && st[i] == id;
      SettleRivals(rows, st, i, now, x);
    }
  }

  lemma UseGrows(rows: Rows, nextId: Id, l: Ledger, id: Id, now: int, x: Id)
    requires Inv(rows, nextId, l) && id in rows && rows[id].Live() && x in rows
    ensures Linked(Use(rows, id, true, now).0, x) <= Linked(rows, x)
  {
    var u := Use(rows, id, true, now).0;
    UseLeavesLive(rows, nextId, l, id, now);
    LinkedIsClosed(rows, x);
    forall y | y in rows && y != id
      ensures u[y] == rows[y] || (!u[y].Live() && u[y].replacedBy == Some(id) && id in Linked(rows, y))
    { UseRivals(rows, nextId, l, id, now, y); }
    LinkedShrinks(rows, u, x, {});
    assert Linked(rows, x) + {} == Linked(rows, x);
  }

  lemma RotateGrows(rows: Rows, nextId: Id, l: Ledger, id: Id, newId: Id, now: int, ttl: int, x: Id)
    requires Inv(rows, nextId, l) && id in rows && rows[id].Live() && newId !in rows && x in rows
    ensures Linked(Rotate(rows, id, newId, now, ttl), x) <= Linked(rows, x) + {newId}
  {
    var u := Use(rows, id, true, now).0;
    RotateIsUseThenReplace(rows, nextId, l, id, newId, now, ttl);
    UseGrows(rows, nextId, l, id, now, x);
    UseLeavesLive(rows, nextId, l, id, now);
    LinkedIsClosed(u, x);
    LinkedShrinks(u, Replace(u, id, newId, now, ttl), x, {newId});
  }

  /** What a renewal makes of the links, and nothing else about it. */
  predicate RenewedLinks(rows: Rows, rows': Rows, token: Id, newId: Id, st: seq<Id>) {
    && token in rows && rows'.Keys == rows.Keys + {newId}
    && (forall id :: id in rows && id !in st && id != token ==> rows'[id] == rows[id])
    && (forall id :: id in rows && id in st && rows'[id].replacedBy.Some? ==>
          rows'[id].replacedBy.value in st || rows'[id].replacedBy.value == newId)
    && (rows'[newId].replacedBy.Some? ==> rows'[newId].replacedBy.value in st)
    && rows'[token].replacedBy == Some(newId) && !rows'[token].Live()
  }

  lemma RenewedHasLinks(rows: Rows, rows': Rows, token: Id, newId: Id, st: seq<Id>, st': seq<Id>)
    requires RenewedRows(rows, rows', token, newId, st, st') && newId !in st && token !in st
    requires st' != [] && st'[|st'| - 1] == newId && Increasing(st')
    requires forall id :: id in st' ==> id in st || id == newId
    ensures RenewedLinks(rows, rows', token, newId, st)
  {
    forall id | id in st'
      ensures rows'[id].replacedBy.Some? ==>
                rows'[id].replacedBy.value in st || (id != newId && rows'[id].replacedBy.value == newId)
    {
      var n :| 0 <= n < |st'| && st'[n] == id;
      assert Waiting(rows', st'[n]) && rows'[id].replacedBy == After(st', n);
      assert st'[0] in st';
      assert n + 1 < |st'| ==> st'[n + 1] in st';
    }
  }

  /** A row linked to none of the ring keeps its links through a renewal. */
  lemma RenewalElsewhere(rows: Rows, rows': Rows, token: Id, newId: Id, st: seq<Id>, x: Id)
    requires RenewedLinks(rows, rows', token, newId, st) && newId !in rows && x in rows && x != token
    requires NoDangling(rows) && forall k :: k in st ==> k !in Linked(rows, x)
    ensures Linked(rows', x) <= Linked(rows, x)
  {
    LinkedIsClosed(rows, x);
    forall id | id in Linked(rows, x) && id in rows' && rows'[id].Live() ensures rows'[id] == rows[id] {
    }
    LinkedShrinks(rows, rows', x, {});
    assert Linked(rows, x) + {} == Linked(rows, x);
  }

  lemma RenewalHere(rows: Rows, rows': Rows, token: Id, newId: Id, st: seq<Id>, x: Id)
    requires RenewedLinks(rows, rows', token, newId, st) && newId !in rows && x in rows
    requires forall k :: k in st ==> k in Linked(rows, x)
    ensures Linked(rows', x) <= Linked(rows, x) + {newId}
  {
    LinkedIsClosed(rows, x);
    forall id | id in Linked(rows, x) && id in rows' && rows'[id].Live() && rows'[id].replacedBy.Some?
        && rows'[id].replacedBy.value in rows'
      ensures rows'[id].replacedBy.value in Linked(rows, x) + {newId}
    {
      if id !in st { assert rows'[id] == rows[id]; }
    }
    LinkedShrinks(rows, rows', x, {newId});
  }

  lemma RenewedLinksGrow(rows: Rows, rows': Rows, token: Id, newId: Id, st: seq<Id>, x: Id)
    requires RenewedLinks(rows, rows', token, newId, st) && Ring(rows, st) && newId !in rows && x in rows
    requires rows[token].replacedBy == Some(st[|st| - 1]) && NoDangling(rows)
    ensures Linked(rows', x) <= Linked(rows, x) + {newId}
  {
    if k :| k in st && k in Linked(rows, x) {
      assert ClosedUnder(rows, Linked(rows, x)) by { LinkedIsClosed(rows, x); }
      ClosedHoldsRing(rows, st, Linked(rows, x), k);
      RenewalHere(rows, rows', token, newId, st, x);
    } else {
      assert Waiting(rows, st[|st| - 1]) && st[|st| - 1] in st;
      assert x != token by { LinkedIsClosed(rows, x); }
      RenewalElsewhere(rows, rows', token, newId, st, x);
    }
  }

  lemma AgainLinks(rows: Rows, token: Id, st: seq<Id>, newId: Id, now: int, ttl: int)
    requires token in rows && newId !in rows && MayRotateAgain(rows, token)
    requires !rows[token].Live() && rows[token].Used()
    requires Ring(rows, st) && Increasing(st) && |st| <= KEPT && token !in st
        && rows[token].replacedBy == Some(st[|st| - 1])
    requires forall id :: id in st ==> id < newId
    ensures RenewedLinks(rows, RotateAgain(rows, token, newId, now, ttl), token, newId, st)
  {
    AgainShape(rows, token, st, newId, now, ttl);
    KeptFacts(st, newId);
    assert Increasing(Standing(st + [newId])) by {
      AppendIncreasing(st, newId);
      StandingFacts(st + [newId]);
    }
    RenewedHasLinks(rows, RotateAgain(rows, token, newId, now, ttl), token, newId, st, Standing(st + [newId]));
  }

  lemma RotateAgainRenews(rows: Rows, nextId: Id, l: Ledger, token: Id, newId: Id, now: int, ttl: int)
    returns (st: seq<Id>)
    requires Inv(rows, nextId, l) && token in rows && MayRotateAgain(rows, token) && NewFor(l, token, newId)
    ensures newId !in rows && !rows[token].Live()
    ensures Ring(rows, st) && rows[token].replacedBy == Some(st[|st| - 1]) && token !in st
    ensures RenewedLinks(rows, RotateAgain(rows, token, newId, now, ttl), token, newId, st)
  {
    IdsBelow(rows, nextId, l);
    AgainFacts(rows, nextId, l, token);
    var kids := l.contests[token].kids;
    st := Standing(kids);
    StandingFacts(kids);
    AgainLinks(rows, token, st, newId, now, ttl);
  }

  lemma RotateAgainGrows(rows: Rows, nextId: Id, l: Ledger, token: Id, newId: Id, now: int, ttl: int, x: Id)
    requires Inv(rows, nextId, l) && token in rows && MayRotateAgain(rows, token) && NewFor(l, token, newId)
        && x in rows
    requires NoDangling(rows)
    ensures newId !in rows && !rows[token].Live()
    ensures Linked(RotateAgain(rows, token, newId, now, ttl), x) <= Linked(rows, x) + {newId}
  {
    var st := RotateAgainRenews(rows, nextId, l, token, newId, now, ttl);
    RenewedLinksGrow(rows, RotateAgain(rows, token, newId, now, ttl), token, newId, st, x);
  }

  /** The links of a row lead, after any transaction, only where they led or to a session just created. */
  lemma PresentGrowsLinks(cfg: Config, s: State, l: Ledger, a: Action, x: Id)
    requires StateOk(s, l) && Enabled(cfg, s, l, a) && a.Present? && NoDangling(s.rows) && x in s.rows
    ensures Linked(Next(cfg, s, l, a).rows, x) <= Linked(s.rows, x) + {a.newId}
  {
    var rows, id, newId, now := s.rows, a.token, a.newId, a.now;
    var r := Refresh(cfg, rows, id, a.userActive, newId, now);
    if r.1.Issued? {
      if rows[id].Live() {
        RotateGrows(rows, s.nextId, l, id, newId, now, cfg.ttl, x);
      } else {
        RotateAgainGrows(rows, s.nextId, l, id, newId, now, cfg.ttl, x);
      }
    } else {
      RefusedGrowsNone(cfg, rows, id, a.userActive, newId, now, x);
    }
  }

  lemma RefusedGrowsNone(cfg: Config, rows: Rows, id: Id, active: bool, newId: Id, now: int, x: Id)
    requires NoDangling(rows) && newId !in rows && x in rows && !Refresh(cfg, rows, id, active, newId, now).1.Issued?
    ensures Linked(Refresh(cfg, rows, id, active, newId, now).0, x) <= Linked(rows, x)
  {
    LinkedIsClosed(rows, x);
    LinkedShrinks(rows, Refresh(cfg, rows, id, active, newId, now).0, x, {});
    assert Linked(rows, x) + {} == Linked(rows, x);
  }

  predicate Creates(a: Action, id: Id) { (a.Present? || a.SignIn?) && id == a.newId }

  lemma OtherLinks(cfg: Config, s: State, l: Ledger, a: Action, x: Id)
    requires Enabled(cfg, s, l, a) && !a.Present? && !a.Request? && NoDangling(s.rows) && x in s.rows && Known(l, x)
    ensures Linked(Next(cfg, s, l, a).rows, x) <= Linked(s.rows, x)
  {
    LinkedIsClosed(s.rows, x);
    LinkedShrinks(s.rows, Next(cfg, s, l, a).rows, x, {});
    assert Linked(s.rows, x) + {} == Linked(s.rows, x);
  }

  lemma StepGrowsLinks(cfg: Config, s: State, l: Ledger, a: Action, x: Id)
    requires StateOk(s, l) && Enabled(cfg, s, l, a) && NoDangling(s.rows) && Known(l, x) && !Creates(a, x)
    ensures forall id :: id in Linked(Next(cfg, s, l, a).rows, x) ==> id in Linked(s.rows, x) || Creates(a, id)
  {
    if x in s.rows {
      match a
      case Present(_, _, _, _) => PresentGrowsLinks(cfg, s, l, a, x);
      case Request(id, active, now) =>
        if Use(s.rows, id, active, now).1 { UseGrows(s.rows, s.nextId, l, id, now, x); }
      case _ => OtherLinks(cfg, s, l, a, x);
    }
  }

  /* ----- A transaction writes only what it is linked to ----- */

  predicate Same(rows: Rows, rows': Rows, id: Id) {
    (id in rows <==> id in rows') && (id in rows ==> rows'[id] == rows[id])
  }

  lemma UseWrites(rows: Rows, id: Id, active: bool, now: int, x: Id)
    requires x !in Linked(rows, id)
    ensures Same(rows, Use(rows, id, active, now).0, x)
  {
  }

  lemma RotateAgainWrites(rows: Rows, nextId: Id, l: Ledger, token: Id, newId: Id, now: int, ttl: int, x: Id)
    requires Inv(rows, nextId, l) && token in rows && MayRotateAgain(rows, token) && NewFor(l, token, newId)
    requires x !in Linked(rows, token) && x != newId
    ensures newId !in rows && !rows[token].Live() && Same(rows, RotateAgain(rows, token, newId, now, ttl), x)
  {
    var st := RotateAgainRenews(rows, nextId, l, token, newId, now, ttl);
    LinkedIsClosed(rows, token);
    assert Waiting(rows, st[|st| - 1]) && st[|st| - 1] in st;
    ClosedHoldsRing(rows, st, Linked(rows, token), st[|st| - 1]);
  }

  lemma RotateWrites(rows: Rows, id: Id, newId: Id, now: int, ttl: int, x: Id)
    requires id in rows && newId !in rows && x !in Linked(rows, id) && x != newId
    ensures Same(rows, Rotate(rows, id, newId, now, ttl), x)
  {
  }

  lemma RefreshWrites(cfg: Config, rows: Rows, nextId: Id, l: Ledger, id: Id, active: bool, newId: Id, now: int, x: Id)
    requires Inv(rows, nextId, l) && newId !in rows && (id in rows ==> NewFor(l, id, newId))
    requires x !in Linked(rows, id) && x != newId
    ensures Same(rows, Refresh(cfg, rows, id, active, newId, now).0, x)
  {
    var r := Refresh(cfg, rows, id, active, newId, now);
    if r.1.Issued? {
      if rows[id].Live() {
        RotateWrites(rows, id, newId, now, cfg.ttl, x);
      } else {
        RotateAgainWrites(rows, nextId, l, id, newId, now, cfg.ttl, x);
      }
    } else {
      assert id in rows ==> x != id;
    }
  }
}
