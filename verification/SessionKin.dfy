/** Links never leave a lineage: a session points only at sessions that descend from the same sign-in. */
module SessionKin {
  import opened Options
  import opened Sequences
  import opened SessionRows
  import opened SessionLedger
  import opened SessionSteps
  import opened SessionRuns
  import opened SessionLineage
  import opened SessionLinks

  /** Every link joins rows of one home. */
  ghost predicate Kin(rows: Rows, home: Id -> Id) {
    forall id :: id in rows && rows[id].replacedBy.Some? && rows[id].replacedBy.value in rows ==>
      home(rows[id].replacedBy.value) == home(id)
  }

  lemma LinkedAreKin(rows: Rows, home: Id -> Id, x: Id)
    requires Kin(rows, home) && x in rows
    ensures forall y :: y in Linked(rows, x) ==> y in rows && home(y) == home(x)
  {
    LinkedIsClosed(rows, x);
    LinkedWithin(rows, x, set y | y in rows && home(y) == home(x));
  }

  lemma SettleKin(rows: Rows, home: Id -> Id, id: Id, now: int)
    requires Kin(rows, home) && id in rows
    ensures Kin(Settle(rows, id, now), home)
  {
    LinkedAreKin(rows, home, id);
  }

  lemma RotateKin(rows: Rows, home: Id -> Id, id: Id, newId: Id, now: int, ttl: int)
    requires Kin(rows, home) && NoDangling(rows) && id in rows && newId !in rows && home(newId) == home(id)
    ensures Kin(Rotate(rows, id, newId, now, ttl), home)
  {
    SettleKin(rows, home, id, now);
    SettleLinks(rows, id, now);
  }

  lemma SupersedeKin(rows: Rows, home: Id -> Id, ids: set<Id>, winner: Id, now: int)
    requires Kin(rows, home) && forall id :: id in ids ==> home(id) == home(winner)
    ensures Kin(Supersede(rows, ids, winner, now), home)
  {
  }

  lemma CutKin(rows: Rows, home: Id -> Id, ring: seq<Id>, newId: Id, now: int)
    requires Kin(rows, home) && newId in rows && forall id :: id in ring ==> home(id) == home(newId)
    ensures Kin(Cut(rows, ring, newId, now), home)
  {
    if |ring| > KEPT {
      var cut := |ring| - KEPT;
      assert ring[cut] in ring;
      SupersedeKin(rows[newId := rows[newId].(replacedBy := Some(ring[cut]))], home, Members(ring[..cut]), newId, now);
    }
  }

  lemma TrimKin(rows: Rows, home: Id -> Id, newId: Id, now: int)
    requires Kin(rows, home) && newId in rows
    ensures Kin(Trim(rows, newId, now), home)
  {
    LinkedAreKin(rows, home, newId);
    CutKin(rows, home, Sorted(Linked(rows, newId)), newId, now);
  }

  lemma RotateAgainKin(rows: Rows, home: Id -> Id, token: Id, newId: Id, now: int, ttl: int)
    requires Kin(rows, home) && NoDangling(rows) && token in rows && newId !in rows && home(newId) == home(token)
    requires !rows[token].Live() && MayRotateAgain(rows, token)
    ensures Kin(RotateAgain(rows, token, newId, now, ttl), home)
  {
    RotateKin(rows, home, token, newId, now, ttl);
    var rotated := Rotate(rows, token, newId, now, ttl);
    var successor := rows[token].replacedBy.value;
    assert home(successor) == home(token) && rotated[successor] == rows[successor];
    var joined := Join(rotated, successor, newId);
    assert Kin(joined, home);
    TrimKin(joined, home, newId, now);
  }

  lemma RefreshKin(cfg: Config, rows: Rows, home: Id -> Id, token: Id, active: bool, newId: Id, now: int)
    requires Kin(rows, home) && NoDangling(rows) && newId !in rows
    requires Refresh(cfg, rows, token, active, newId, now).1.Issued? ==> home(newId) == home(token)
    ensures Kin(Refresh(cfg, rows, token, active, newId, now).0, home)
  {
    if Refresh(cfg, rows, token, active, newId, now).1.Issued? {
      if rows[token].Live() {
        RotateKin(rows, home, token, newId, now, cfg.ttl);
      } else {
        RotateAgainKin(rows, home, token, newId, now, cfg.ttl);
      }
    }
  }

  lemma StepKin(cfg: Config, s: State, l: Ledger, a: Action, home: Id -> Id)
    requires Enabled(cfg, s, l, a) && Kin(s.rows, home) && NoDangling(s.rows)
    requires a.SignIn? ==> a.newId !in s.rows
    requires a.Present? && Refresh(cfg, s.rows, a.token, a.userActive, a.newId, a.now).1.Issued? ==>
               home(a.newId) == home(a.token)
    ensures Kin(Next(cfg, s, l, a).rows, home)
  {
    match a
    case Present(token, active, newId, now) => RefreshKin(cfg, s.rows, home, token, active, newId, now);
    case Request(id, _, now) =>
      if id in s.rows { SettleKin(s.rows, home, id, now); }
    case _ =>
  }

  /* ----- Home is the sign-in ----- */

  /** A session keeps its sign-in as the ledger grows. */
  lemma {:induction false} RootStays(l: Ledger, l': Ledger, nextId: Id, nextId': Id, x: Id)
    requires TreeOk(l, nextId) && TreeOk(l', nextId') && Grows(l, l') && Known(l, x)
    ensures RootOf(l', x) == RootOf(l, x)
    decreases x
  {
    if x in l.parent {
      assert l.parent[x] in l.contests && Known(l, l.parent[x]);
      if l.parent[x] < x { RootStays(l, l', nextId, nextId', l.parent[x]); }
    }
  }

  ghost predicate LinksStayHome(rows: Rows, l: Ledger) { Kin(rows, x => RootOf(l, x)) }

  lemma SameLabels(rows: Rows, f: Id -> Id, g: Id -> Id)
    requires Kin(rows, f) && forall id :: id in rows ==> f(id) == g(id)
    ensures Kin(rows, g)
  {
  }

  lemma NewRoot(cfg: Config, s: State, l: Ledger, a: Action)
    requires StateOk(s, l) && a.Present? && Enabled(cfg, s, l, a) && StateOk(Next(cfg, s, l, a), Recorded(cfg, s, l, a))
    requires Refresh(cfg, s.rows, a.token, a.userActive, a.newId, a.now).1.Issued?
    ensures RootOf(Recorded(cfg, s, l, a), a.newId) == RootOf(Recorded(cfg, s, l, a), a.token)
  {
    assert a.token < a.newId;
  }

  /** Every transaction keeps the links within lineages. */
  lemma StepStaysHome(cfg: Config, s: State, l: Ledger, a: Action)
    requires StateOk(s, l) && NoDangling(s.rows) && Enabled(cfg, s, l, a) && LinksStayHome(s.rows, l)
    ensures LinksStayHome(Next(cfg, s, l, a).rows, Recorded(cfg, s, l, a))
  {
    var s', l' := Next(cfg, s, l, a), Recorded(cfg, s, l, a);
    StepKeeps(cfg, s, l, a);
    StepGrows(cfg, s, l, a);
    forall id | id in s.rows ensures RootOf(l', id) == RootOf(l, id) {
      assert RowOk(l, id, s.rows[id]);
      RootStays(l, l', s.nextId, s'.nextId, id);
    }
    SameLabels(s.rows, x => RootOf(l, x), x => RootOf(l', x));
    if a.SignIn? { assert a.newId in s.rows ==> RowOk(l, a.newId, s.rows[a.newId]); }
    if a.Present? && Refresh(cfg, s.rows, a.token, a.userActive, a.newId, a.now).1.Issued? { NewRoot(cfg, s, l, a); }
    StepKin(cfg, s, l, a, x => RootOf(l', x));
  }

  lemma LinkedAreHome(rows: Rows, l: Ledger, x: Id)
    requires LinksStayHome(rows, l) && RowsOk(rows, l)
    ensures forall y :: y in Linked(rows, x) ==> Known(l, y) && RootOf(l, y) == RootOf(l, x)
  {
    if x in rows {
      LinkedAreKin(rows, x => RootOf(l, x), x);
      forall y | y in Linked(rows, x) ensures Known(l, y) { assert RowOk(l, y, rows[y]); }
    }
  }

  /* ----- Whoever may add to a lineage is linked to all of its live sessions ----- */

  /** The rows let a refresh of the session through. */
  predicate WouldIssue(rows: Rows, id: Id) { id in rows && (rows[id].Live() || MayRotateAgain(rows, id)) }

  lemma RingInLinked(rows: Rows, l: Ledger, p: Id, id: Id, k: Id)
    requires p in l.contests && l.contests[p].fate.Open? && KidsOk(l, p) && ContestOk(rows, l, p)
    requires k in Standing(l.contests[p].kids) && k in Linked(rows, id)
    ensures Members(Standing(l.contests[p].kids)) <= Linked(rows, id)
  {
    LinkedIsClosed(rows, id);
    ClosedHoldsRing(rows, Standing(l.contests[p].kids), Linked(rows, id), k);
  }

  lemma LiveInLinked(rows: Rows, nextId: Id, l: Ledger, id: Id)
    requires Inv(rows, nextId, l) && WouldIssue(rows, id)
    ensures LiveOf(rows, l, RootOf(l, id)) != {} && LiveOf(rows, l, RootOf(l, id)) <= Linked(rows, id)
  {
    LinkedIsClosed(rows, id);
    if rows[id].Live() {
      assert id in LiveOf(rows, l, RootOf(l, id));
      LiveKinds(rows, nextId, l, id);
      if id in l.used {
        SoleUsedAre(rows, nextId, l, id);
      } else if id in l.parent {
        var p := l.parent[id];
        assert KidsOk(l, p) && ContestOk(rows, l, p);
        ContendersAre(rows, nextId, l, p);
        RingInLinked(rows, l, p, id, id);
      } else {
        forall y | y in LiveOf(rows, l, id) ensures y == id { UnusedRootAlone(l, nextId, id, y); }
      }
    } else {
      AgainFacts(rows, nextId, l, id);
      assert KidsOk(l, id) && ContestOk(rows, l, id);
      var kids := l.contests[id].kids;
      StandingEnd(kids);
      var last := Standing(kids)[|Standing(kids)| - 1];
      assert last in Standing(kids) && Waiting(rows, last);
      ContendersAre(rows, nextId, l, id);
      RingInLinked(rows, l, id, id, last);
    }
  }

  /** Two refreshes of one lineage that the rows would let through are linked to a common session. */
  lemma SameLineageMeets(rows: Rows, nextId: Id, l: Ledger, a: Id, b: Id) returns (y: Id)
    requires Inv(rows, nextId, l) && WouldIssue(rows, a) && WouldIssue(rows, b) && RootOf(l, a) == RootOf(l, b)
    ensures y in Linked(rows, a) && y in Linked(rows, b)
  {
    LiveInLinked(rows, nextId, l, a);
    LiveInLinked(rows, nextId, l, b);
    y :| y in LiveOf(rows, l, RootOf(l, a));
  }

  lemma {:induction false} RootIsKnown(l: Ledger, nextId: Id, x: Id)
    requires TreeOk(l, nextId) && Known(l, x)
    ensures Known(l, RootOf(l, x))
    decreases x
  {
    if x in l.parent && l.parent[x] < x {
      assert l.parent[x] in l.contests;
      RootIsKnown(l, nextId, l.parent[x]);
    }
  }
}
