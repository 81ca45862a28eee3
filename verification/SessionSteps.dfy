/** Every transaction on the sessions keeps `Inv`, moving the ledger as the protocol says. */
module SessionSteps {
  import opened Options
  import opened Sequences
  import opened SessionRows
  import opened SessionLedger

  /* ----- First use ----- */

  /** Settling a ring leaves the winner alone and every rival superseded by it. */
  lemma SettleRing(rows: Rows, ids: seq<Id>, i: nat, now: int)
    requires Ring(rows, ids) && i < |ids|
    ensures var after := Settle(rows, ids[i], now);
            && after[ids[i]] == rows[ids[i]].(replacedBy := None)
            && (forall id :: id in rows && id !in ids ==> after[id] == rows[id])
            && forall id :: id in ids && id != ids[i] ==>
                 id in rows && after[id] ==
                     rows[id].(revokedAt := Some(now), reason := Some(Superseded), replacedBy := Some(ids[i]))
  {
    LinkedIsRing(rows, ids, i);
    forall id | id in ids ensures Waiting(rows, id) {
      var k :| 0 <= k < |ids| && ids[k] == id;
    }
  }

  /** A contest no transaction touched is still in order. */
  lemma ContestFrame(rows: Rows, rows': Rows, l: Ledger, l': Ledger, p: Id)
    requires p in l.contests && p in l'.contests && l'.contests[p] == l.contests[p]
    requires ContestOk(rows, l, p)
    requires l.contests[p].fate.Open? ==>
               forall id :: id in Standing(l.contests[p].kids) && id in rows ==> id in rows' && rows'[id] == rows[id]
    requires l.contests[p].fate.Open? && p in rows' ==> p in rows && rows'[p] == rows[p]
    ensures ContestOk(rows', l', p)
  {
    var c := l.contests[p];
    if c.fate.Open? && c.kids != [] {
      var st := Standing(c.kids);
      forall i | 0 <= i < |st| ensures Waiting(rows', st[i]) && rows'[st[i]].replacedBy == After(st, i) {
        assert Waiting(rows, st[i]) && st[i] in st;
      }
      OwnerFrame(rows, rows', st, p);
    }
  }

  lemma OwnerFrame(rows: Rows, rows': Rows, st: seq<Id>, p: Id)
    requires OneOwner(rows, st + [p]) && Ring(rows, st)
    requires forall id :: id in st ==> id in rows' && id in rows && rows'[id] == rows[id]
    requires p in rows' ==> p in rows && rows'[p] == rows[p]
    ensures OneOwner(rows', st + [p])
  {
    forall a | a in st + [p] && a in rows' ensures a in rows && rows'[a] == rows[a] {
      if a != p { assert a in st; }
    }
  }

  lemma MarkUsedTree(l: Ledger, nextId: Id, id: Id)
    requires TreeOk(l, nextId) && Known(l, id)
    ensures TreeOk(MarkUsed(l, id), nextId)
  {
    var l' := MarkUsed(l, id);
    assert forall x: Id :: Known(l', x) ==> Known(l, x);
    forall q | q in l'.contests ensures KidsOk(l', q) {
      assert KidsOk(l, q);
    }
  }

  lemma MarkUsedFate(l: Ledger, id: Id, q: Id)
    requires q in l.contests && KidsOk(l, q) && FateOk(l, l.contests[q])
    requires Contesting(l, id) ==> KidsOk(l, l.parent[id]) && id in Standing(l.contests[l.parent[id]].kids)
    requires !Contesting(l, id) && id in l.parent ==> id in l.used
    ensures FateOk(MarkUsed(l, id), MarkUsed(l, id).contests[q])
  {
    if Contesting(l, id) { StandingEnd(l.contests[l.parent[id]].kids); }
  }

  lemma MarkUsedFates(l: Ledger, nextId: Id, id: Id)
    requires TreeOk(l, nextId) && FatesOk(l) && Known(l, id)
    requires Contesting(l, id) ==> id in Standing(l.contests[l.parent[id]].kids)
    requires !Contesting(l, id) && id in l.parent ==> id in l.used
    ensures FatesOk(MarkUsed(l, id))
  {
    var l' := MarkUsed(l, id);
    forall q | q in l'.contests ensures FateOk(l', l'.contests[q]) {
      assert KidsOk(l, q) && FateOk(l, l.contests[q]);
      MarkUsedFate(l, id, q);
    }
  }

  lemma MarkUsedSuperseded(l: Ledger, nextId: Id, id: Id)
    requires LedgerOk(l, nextId) && Known(l, id)
    requires Contesting(l, id) ==> id in Standing(l.contests[l.parent[id]].kids)
    requires !Contesting(l, id) && id in l.parent ==> id in l.used
    ensures forall c :: c in l.parent ==> l.parent[c] in MarkUsed(l, id).contests
    ensures SupersededOk(MarkUsed(l, id))
  {
    var l' := MarkUsed(l, id);
    if Contesting(l, id) && id !in l.used {
      var p := l.parent[id];
      var c := l.contests[p];
      assert KidsOk(l, p) && FateOk(l, c);
      StandingFacts(c.kids);
      forall k | k in l'.superseded ensures k in l'.parent && k !in l'.used && Justified(l', k) {
        if k in l.superseded {
          assert Justified(l, k);
        } else {
          assert k in c.kids;
        }
      }
    } else {
      forall k | k in l'.superseded ensures k in l'.parent && k !in l'.used && Justified(l', k) {
        assert Justified(l, k);
      }
    }
  }

  lemma MarkUsedLedger(l: Ledger, nextId: Id, id: Id)
    requires LedgerOk(l, nextId) && Known(l, id)
    requires Contesting(l, id) ==> id in Standing(l.contests[l.parent[id]].kids)
    requires !Contesting(l, id) && id in l.parent ==> id in l.used
    ensures LedgerOk(MarkUsed(l, id), nextId)
  {
    MarkUsedTree(l, nextId, id);
    MarkUsedFates(l, nextId, id);
    MarkUsedSuperseded(l, nextId, id);
  }

  lemma LiveFacts(rows: Rows, nextId: Id, l: Ledger, id: Id)
    requires Inv(rows, nextId, l) && id in rows && rows[id].Live()
    ensures Contesting(l, id) ==> id in Standing(l.contests[l.parent[id]].kids) && id !in l.used
    ensures !Contesting(l, id) ==> rows[id].replacedBy.None?
    ensures !Contesting(l, id) && id in l.parent ==> id in l.used
  {
    assert RowOk(l, id, rows[id]);
    if id in l.parent {
      var p := l.parent[id];
      assert KidsOk(l, p) && FateOk(l, l.contests[p]);
    }
  }

  /** Rows of sessions a contest does not hold keep their standing when its winner is marked. */
  lemma UsedRowOk(l: Ledger, nextId: Id, id: Id, x: Id, s: Session)
    requires LedgerOk(l, nextId) && Contesting(l, id) && id !in l.used
    requires id in Standing(l.contests[l.parent[id]].kids)
    requires x !in Standing(l.contests[l.parent[id]].kids)
    requires RowOk(l, x, s)
    ensures RowOk(MarkUsed(l, id), x, s)
  {
    var p := l.parent[id];
    assert KidsOk(l, p);
    if x in l.parent && l.parent[x] == p { assert x in l.contests[p].kids; }
  }

  lemma UseKeeps(rows: Rows, nextId: Id, l: Ledger, id: Id, now: int)
    requires Inv(rows, nextId, l) && id in rows && rows[id].Live()
    ensures Inv(Use(rows, id, true, now).0, nextId, MarkUsed(l, id))
  {
    var rows' := Use(rows, id, true, now).0;
    var l' := MarkUsed(l, id);
    LiveFacts(rows, nextId, l, id);
    assert RowOk(l, id, rows[id]);
    MarkUsedLedger(l, nextId, id);
    if id in l.used {
    } else if Contesting(l, id) {
      ContestUseKeeps(rows, nextId, l, id, now);
    } else {
      forall x | x in rows' ensures RowOk(l', x, rows'[x]) { assert RowOk(l, x, rows[x]); }
      forall p | p in l'.contests ensures ContestOk(rows', l', p) {
        var c := l.contests[p];
        assert KidsOk(l, p);
        if c.fate.Open? { StandingFacts(c.kids); assert p in l.used; }
        ContestFrame(rows, rows', l, l', p);
      }
    }
  }

  /** The rows after the first use of a ring's member `ids[i]`. */
  predicate SettledBy(rows: Rows, rows': Rows, ids: seq<Id>, winner: Id) {
    && winner in rows && rows'.Keys == rows.Keys
    && rows'[winner].Used() && rows'[winner].Live() && rows'[winner].reason.None? && rows'[winner].replacedBy.None?
    && (forall id :: id in rows && id !in ids ==> rows'[id] == rows[id])
    && (forall id :: id in rows && id in ids && id != winner ==>
          !rows'[id].Used() && !rows'[id].Live() && rows'[id].reason == Some(Superseded))
  }

  lemma UseSettles(rows: Rows, ids: seq<Id>, i: nat, now: int)
    requires Ring(rows, ids) && Increasing(ids) && i < |ids| && rows[ids[i]].reason.None?
    ensures SettledBy(rows, Use(rows, ids[i], true, now).0, ids, ids[i])
  {
    SettleRing(rows, ids, i, now);
    assert Waiting(rows, ids[i]) && rows[ids[i]].replacedBy == After(ids, i);
    assert |ids| == 1 ==> ids == [ids[i]];
    forall id | id in ids ensures Waiting(rows, id) {
      var k :| 0 <= k < |ids| && ids[k] == id;
    }
  }

  lemma SettledRowOk(l: Ledger, id: Id, x: Id, s: Session)
    requires id !in l.used && Contesting(l, id) && id in Standing(l.contests[l.parent[id]].kids)
    requires Known(l, x) && x in l.parent && l.parent[x] == l.parent[id]
    requires x in Standing(l.contests[l.parent[id]].kids) && x !in l.used && x !in l.superseded && x !in l.contests
    requires if x == id then s.Used() && s.Live() && s.reason.None? && s.replacedBy.None?
             else !s.Used() && !s.Live() && s.reason == Some(Superseded)
    ensures RowOk(MarkUsed(l, id), x, s)
  {
  }

  lemma SettledRows(rows: Rows, rows': Rows, nextId: Id, l: Ledger, id: Id)
    requires LedgerOk(l, nextId) && RowsOk(rows, l)
    requires id !in l.used && Contesting(l, id) && id in Standing(l.contests[l.parent[id]].kids)
    requires SettledBy(rows, rows', Standing(l.contests[l.parent[id]].kids), id)
    ensures RowsOk(rows', MarkUsed(l, id))
  {
    var l' := MarkUsed(l, id);
    var p := l.parent[id];
    var c := l.contests[p];
    assert KidsOk(l, p) && FateOk(l, c);
    StandingFacts(c.kids);
    forall x | x in rows' ensures RowOk(l', x, rows'[x]) {
      assert RowOk(l, x, rows[x]);
      if x !in Standing(c.kids) {
        UsedRowOk(l, nextId, id, x, rows[x]);
      } else {
        assert x in c.kids;
        SettledRowOk(l, id, x, rows'[x]);
      }
    }
  }

  /** Two contests share no standing session, and no token stands in one. */
  lemma StandingApart(l: Ledger, nextId: Id, p: Id, q: Id, x: Id)
    requires TreeOk(l, nextId) && FatesOk(l)
    requires p in l.contests && q in l.contests && p != q && l.contests[p].fate.Open?
    requires x in Standing(l.contests[q].kids) + [q]
    ensures x !in Standing(l.contests[p].kids)
  {
    assert KidsOk(l, p) && KidsOk(l, q) && FateOk(l, l.contests[p]);
    StandingFacts(l.contests[p].kids);
    StandingFacts(l.contests[q].kids);
    if x != q {
      assert x in l.contests[q].kids;
    }
  }

  lemma SettledContests(rows: Rows, rows': Rows, nextId: Id, l: Ledger, id: Id)
    requires TreeOk(l, nextId) && FatesOk(l) && ContestsOk(rows, l)
    requires id !in l.used && Contesting(l, id) && id in Standing(l.contests[l.parent[id]].kids)
    requires SettledBy(rows, rows', Standing(l.contests[l.parent[id]].kids), id)
    ensures ContestsOk(rows', MarkUsed(l, id))
  {
    var l' := MarkUsed(l, id);
    var p := l.parent[id];
    forall q | q in l'.contests ensures ContestOk(rows', l', q) {
      if q != p {
        forall x | x in Standing(l.contests[q].kids) + [q]
          ensures x !in Standing(l.contests[p].kids)
        { StandingApart(l, nextId, p, q, x); }
        ContestFrame(rows, rows', l, l', q);
      }
    }
  }

  lemma ContestUseKeeps(rows: Rows, nextId: Id, l: Ledger, id: Id, now: int)
    requires Inv(rows, nextId, l) && id in rows && rows[id].Live()
    requires id !in l.used && Contesting(l, id) && id in Standing(l.contests[l.parent[id]].kids)
    ensures RowsOk(Use(rows, id, true, now).0, MarkUsed(l, id))
    ensures ContestsOk(Use(rows, id, true, now).0, MarkUsed(l, id))
  {
    var p := l.parent[id];
    var st := Standing(l.contests[p].kids);
    assert KidsOk(l, p) && ContestOk(rows, l, p) && RowOk(l, id, rows[id]);
    StandingFacts(l.contests[p].kids);
    var i :| 0 <= i < |st| && st[i] == id;
    UseSettles(rows, st, i, now);
    SettledRows(rows, Use(rows, id, true, now).0, nextId, l, id);
    SettledContests(rows, Use(rows, id, true, now).0, nextId, l, id);
  }

  lemma IdsBelow(rows: Rows, nextId: Id, l: Ledger)
    requires TreeOk(l, nextId) && RowsOk(rows, l)
    ensures forall id :: id in rows ==> id < nextId
  {
    forall id | id in rows ensures id < nextId { assert RowOk(l, id, rows[id]); }
  }

  /* ----- Rotation of a live session ----- */

  /** A used live session gives way to a new one. */
  function Replace(rows: Rows, id: Id, newId: Id, now: int, ttl: int): (after: Rows)
    requires id in rows
    ensures after.Keys == rows.Keys + {newId}
  {
    var o := rows[id];
    rows[newId := NewSession(o.user, o.device, now, ttl)]
        [id := o.(revokedAt := Some(now), reason := Some(Rotated), replacedBy := Some(newId), lastUsedAt := now)]
  }

  /** Rotating a live session is using it and then replacing it. */
  lemma RotateIsUseThenReplace(rows: Rows, nextId: Id, l: Ledger, id: Id, newId: Id, now: int, ttl: int)
    requires Inv(rows, nextId, l) && id in rows && rows[id].Live() && newId !in rows
    ensures Rotate(rows, id, newId, now, ttl) == Replace(Use(rows, id, true, now).0, id, newId, now, ttl)
  {
    LiveFacts(rows, nextId, l, id);
    assert RowOk(l, id, rows[id]);
  }

  function OpenContest(l: Ledger, id: Id, newId: Id): Ledger {
    l.(parent := l.parent[newId := id], contests := l.contests[id := Contest([newId], Open)])
  }

  lemma OpenContestTree(l: Ledger, nextId: Id, id: Id, newId: Id)
    requires TreeOk(l, nextId) && Known(l, id) && id in l.used && id !in l.contests && NewFor(l, id, newId)
    ensures TreeOk(OpenContest(l, id, newId), Raised(nextId, newId))
  {
    var l' := OpenContest(l, id, newId);
    assert !Known(l, newId);
    assert forall x: Id :: Known(l', x) ==> Known(l, x) || x == newId;
    forall p | p in l'.contests ensures Known(l', p) && p in l'.used && KidsOk(l', p) {
      if p != id {
        assert Known(l, p) && KidsOk(l, p);
        forall k | k in l.contests[p].kids ensures k != newId { assert Known(l, k); }
      }
    }
  }

  lemma OpenContestLedger(l: Ledger, nextId: Id, id: Id, newId: Id)
    requires LedgerOk(l, nextId) && Known(l, id) && id in l.used && id !in l.contests && NewFor(l, id, newId)
    ensures LedgerOk(OpenContest(l, id, newId), Raised(nextId, newId))
  {
    var l' := OpenContest(l, id, newId);
    OpenContestTree(l, nextId, id, newId);
    assert !Known(l, newId);
    forall p | p in l'.contests ensures FateOk(l', l'.contests[p]) {
      if p != id { assert FateOk(l, l.contests[p]); }
    }
    forall k | k in l'.superseded ensures k in l'.parent && k !in l'.used && Justified(l', k) {
      assert Justified(l, k) && k != newId;
    }
  }

  lemma ReplaceRows(rows: Rows, nextId: Id, l: Ledger, id: Id, newId: Id, now: int, ttl: int)
    requires LedgerOk(l, nextId) && RowsOk(rows, l)
    requires id in rows && id in l.used && id !in l.contests && rows[id].Live() && NewFor(l, id, newId)
    ensures RowsOk(Replace(rows, id, newId, now, ttl), OpenContest(l, id, newId))
  {
    var l' := OpenContest(l, id, newId);
    var rows' := Replace(rows, id, newId, now, ttl);
    assert !Known(l, newId);
    forall x | x in rows' ensures RowOk(l', x, rows'[x]) {
      if x != newId { assert RowOk(l, x, rows[x]); }
    }
  }

  lemma OtherContestStays(rows: Rows, nextId: Id, l: Ledger, id: Id, newId: Id, now: int, ttl: int, p: Id)
    requires TreeOk(l, nextId) && p in l.contests && FateOk(l, l.contests[p]) && ContestOk(rows, l, p)
    requires id in rows && id in l.used && id != p && NewFor(l, id, newId)
    ensures ContestOk(Replace(rows, id, newId, now, ttl), OpenContest(l, id, newId), p)
  {
    var kids := l.contests[p].kids;
    assert KidsOk(l, p) && Known(l, p);
    StandingEnd(kids);
    KidsBelow(l, nextId, p);
    if l.contests[p].fate.Open? {
      forall x | x in Standing(kids) ensures x != id && x != newId { }
    }
    ContestFrame(rows, Replace(rows, id, newId, now, ttl), l, OpenContest(l, id, newId), p);
  }

  lemma ReplaceContests(rows: Rows, nextId: Id, l: Ledger, id: Id, newId: Id, now: int, ttl: int)
    requires TreeOk(l, nextId) && FatesOk(l) && ContestsOk(rows, l) && Known(l, id)
    requires id in rows && id in l.used && id !in l.contests && NewFor(l, id, newId)
    ensures ContestsOk(Replace(rows, id, newId, now, ttl), OpenContest(l, id, newId))
  {
    var l' := OpenContest(l, id, newId);
    forall p | p in l'.contests ensures ContestOk(Replace(rows, id, newId, now, ttl), l', p) {
      if p != id {
        assert FateOk(l, l.contests[p]) && ContestOk(rows, l, p);
        OtherContestStays(rows, nextId, l, id, newId, now, ttl, p);
      } else {
        assert Standing([newId]) == [newId];
      }
    }
  }

  lemma RotateKeeps(rows: Rows, nextId: Id, l: Ledger, id: Id, newId: Id, now: int, ttl: int)
    requires Inv(rows, nextId, l) && id in rows && rows[id].Live() && NewFor(l, id, newId)
    ensures newId !in rows
    ensures Inv(Rotate(rows, id, newId, now, ttl), Raised(nextId, newId), Replaced1(l, id, newId))
  {
    IdsBelow(rows, nextId, l);
    assert RowOk(l, id, rows[id]);
    RotateIsUseThenReplace(rows, nextId, l, id, newId, now, ttl);
    UseKeeps(rows, nextId, l, id, now);
    var u, l1 := Use(rows, id, true, now).0, MarkUsed(l, id);
    UseLeavesLive(rows, nextId, l, id, now);
    assert RowOk(l1, id, u[id]);
    OpenContestLedger(l1, nextId, id, newId);
    ReplaceRows(u, nextId, l1, id, newId, now, ttl);
    ReplaceContests(u, nextId, l1, id, newId, now, ttl);
  }

  lemma UseLeavesLive(rows: Rows, nextId: Id, l: Ledger, id: Id, now: int)
    requires Inv(rows, nextId, l) && id in rows && rows[id].Live()
    ensures var u := Use(rows, id, true, now).0;
            id in u && u[id].Live() && u[id].Used() && u[id].replacedBy.None? && u.Keys == rows.Keys
            && u[id].user == rows[id].user && u[id].device == rows[id].device
  {
    LiveFacts(rows, nextId, l, id);
    assert RowOk(l, id, rows[id]);
  }

  /* ----- Rotating a rotated token again ----- */

  /** A token may be rotated again only while its contest is open, and it points at the youngest. */
  lemma AgainFacts(rows: Rows, nextId: Id, l: Ledger, token: Id)
    requires Inv(rows, nextId, l) && token in rows && MayRotateAgain(rows, token)
    ensures token in l.contests && l.contests[token].fate.Open? && token in l.used
    ensures rows[token].Used() && !rows[token].Live()
    ensures var kids := l.contests[token].kids;
            kids != [] && Increasing(kids) && rows[token].replacedBy == Some(kids[|kids| - 1])
            && Ring(rows, Standing(kids)) && token !in kids && OneOwner(rows, Standing(kids) + [token])
  {
    var s := rows[token].replacedBy.value;
    assert RowOk(l, token, rows[token]) && RowOk(l, s, rows[s]);
    assert KidsOk(l, token) && FateOk(l, l.contests[token]) && ContestOk(rows, l, token);
  }

  lemma JoinRing(rows: Rows, ids: seq<Id>, newId: Id)
    requires newId in rows && Waiting(rows, newId) && newId !in ids && Increasing(ids)
    requires Ring(rows, ids)
    ensures var after := Join(rows, ids[|ids| - 1], newId);
            && Ring(after, ids + [newId])
            && (forall id :: id in rows && id != newId && id != ids[|ids| - 1] ==> after[id] == rows[id])
            && (forall id :: id in rows ==> after[id] == rows[id].(replacedBy := after[id].replacedBy))
  {
    var last := |ids| - 1;
    var after := Join(rows, ids[last], newId);
    assert Waiting(rows, ids[last]) && rows[ids[last]].replacedBy == After(ids, last);
    assert |ids| == 1 ==> ids[last] == ids[0];
    var all := ids + [newId];
    forall i | 0 <= i < |all| ensures Waiting(after, all[i]) && after[all[i]].replacedBy == After(all, i) {
      if i < |ids| { assert Waiting(rows, ids[i]) && all[i] == ids[i]; }
    }
  }

  predicate Trimmed(rows: Rows, after: Rows, ids: seq<Id>, kept: seq<Id>) {
    && after.Keys == rows.Keys
    && Ring(after, kept)
    && (forall id :: id in rows && id !in ids ==> after[id] == rows[id])
    && (forall id :: id in rows && id in kept ==> after[id] == rows[id].(replacedBy := after[id].replacedBy))
    && (forall id :: id in rows && id in ids && id !in kept ==>
          !after[id].Live() && !after[id].Used() && after[id].reason == Some(Superseded)
          && after[id].replacedBy == Some(kept[|kept| - 1]))
  }

  /** The ring without its oldest, which the youngest supersedes. */
  function CutOldest(rows: Rows, ids: seq<Id>, now: int): Rows
    requires |ids| > 1 && ids[|ids| - 1] in rows
  {
    var newest := ids[|ids| - 1];
    Supersede(rows[newest := rows[newest].(replacedBy := Some(ids[1]))], {ids[0]}, newest, now)
  }

  lemma CutLeavesRing(rows: Rows, ids: seq<Id>, now: int)
    requires Ring(rows, ids) && Increasing(ids) && |ids| > 2
    ensures ids[|ids| - 1] in rows && Ring(CutOldest(rows, ids, now), ids[1..])
  {
    var kept := ids[1..];
    assert Waiting(rows, ids[|ids| - 1]);
    var after := CutOldest(rows, ids, now);
    forall i | 0 <= i < |kept| ensures Waiting(after, kept[i]) && after[kept[i]].replacedBy == After(kept, i) {
      assert kept[i] == ids[i + 1] && Waiting(rows, ids[i + 1]);
    }
  }

  lemma CutShape(rows: Rows, ids: seq<Id>, now: int)
    requires Ring(rows, ids) && Increasing(ids) && |ids| > 2
    ensures ids[|ids| - 1] in rows && Trimmed(rows, CutOldest(rows, ids, now), ids, ids[1..])
  {
    CutLeavesRing(rows, ids, now);
    assert Waiting(rows, ids[0]) && Waiting(rows, ids[|ids| - 1]);
    forall id ensures id in ids[1..] <==> id in ids && id != ids[0] { TailMembers(ids, id); }
  }

  lemma CutIsCutOldest(rows: Rows, ids: seq<Id>, newest: Id, now: int)
    requires |ids| == KEPT + 1 && ids[|ids| - 1] == newest && newest in rows
    ensures Cut(rows, ids, newest, now) == CutOldest(rows, ids, now)
  {
    assert ids[..1] == [ids[0]];
    assert Members(ids[..1]) == {ids[0]};
  }

  lemma TrimIsCut(rows: Rows, ids: seq<Id>, now: int)
    requires Ring(rows, ids) && Increasing(ids) && |ids| <= KEPT + 1
    ensures ids[|ids| - 1] in rows
    ensures Trim(rows, ids[|ids| - 1], now) == if |ids| <= KEPT then rows else CutOldest(rows, ids, now)
  {
    assert Waiting(rows, ids[|ids| - 1]);
    LinkedIsRing(rows, ids, |ids| - 1);
    SortedOfIncreasing(ids);
    if |ids| == KEPT + 1 { CutIsCutOldest(rows, ids, ids[|ids| - 1], now); }
  }

  /** Cutting the oldest beyond `KEPT` leaves the ring closed at the youngest. */
  lemma TrimRing(rows: Rows, ids: seq<Id>, now: int)
    requires Ring(rows, ids) && Increasing(ids) && |ids| <= KEPT + 1
    ensures ids[|ids| - 1] in rows && Trimmed(rows, Trim(rows, ids[|ids| - 1], now), ids, Standing(ids))
  {
    TrimIsCut(rows, ids, now);
    if |ids| == KEPT + 1 {
      CutShape(rows, ids, now);
      assert Standing(ids) == ids[1..];
    }
  }

  lemma StandingAppend(kids: seq<Id>, newId: Id)
    ensures Standing(Standing(kids) + [newId]) == Standing(kids + [newId])
    ensures |Standing(kids)| <= KEPT
  {
  }

  /** The rows after `token` is rotated again into `newId`, with `st` standing before and `st'` after. */
  predicate RenewedRows(rows: Rows, rows': Rows, token: Id, newId: Id, st: seq<Id>, st': seq<Id>) {
    && token in rows && rows'.Keys == rows.Keys + {newId}
    && Ring(rows', st')
    && rows'[token].Used() && rows'[token].reason == Some(Rotated) && rows'[token].replacedBy == Some(newId)
    && !rows'[token].Live()
    && rows'[token].user == rows[token].user && rows'[token].device == rows[token].device
    && rows'[newId].reason.None? && rows'[newId].user == rows[token].user && rows'[newId].device == rows[token].device
    && (forall id :: id in rows && id !in st && id != token ==> rows'[id] == rows[id])
    && (forall id :: id in rows && id in st && id in st' ==> rows'[id] == rows[id].(replacedBy := rows'[id].replacedBy))
    && (forall id :: id in rows && id in st && id !in st' ==>
          !rows'[id].Live() && !rows'[id].Used() && rows'[id].reason == Some(Superseded)
          && rows'[id].replacedBy == Some(newId))
  }

  lemma RingFrame(rows: Rows, rows': Rows, ids: seq<Id>)
    requires Ring(rows, ids)
    requires forall id :: id in ids && id in rows ==> id in rows' && rows'[id] == rows[id]
    ensures Ring(rows', ids)
  {
    forall i | 0 <= i < |ids| ensures Waiting(rows', ids[i]) && rows'[ids[i]].replacedBy == After(ids, i) {
      assert ids[i] in ids && Waiting(rows, ids[i]);
    }
  }

  /** The rows once `newId` has joined the ring `st`, before the cut. */
  predicate Joined(rows: Rows, rows': Rows, token: Id, newId: Id, st: seq<Id>) {
    && token in rows && rows'.Keys == rows.Keys + {newId}
    && Ring(rows', st + [newId])
    && rows'[token].Used() && rows'[token].reason == Some(Rotated) && rows'[token].replacedBy == Some(newId)
    && !rows'[token].Live()
    && rows'[token].user == rows[token].user && rows'[token].device == rows[token].device
    && rows'[newId].reason.None? && rows'[newId].user == rows[token].user && rows'[newId].device == rows[token].device
    && (forall id :: id in rows && id !in st && id != token ==> rows'[id] == rows[id])
    && (forall id :: id in rows && id in st ==> rows'[id] == rows[id].(replacedBy := rows'[id].replacedBy))
  }

  lemma JoinShape(rows: Rows, token: Id, st: seq<Id>, newId: Id, now: int, ttl: int)
    requires token in rows && newId !in rows && !rows[token].Live() && rows[token].Used()
    requires Ring(rows, st) && Increasing(st) && token !in st
    ensures st[|st| - 1] in rows
    ensures Joined(rows, Join(Rotate(rows, token, newId, now, ttl), st[|st| - 1], newId), token, newId, st)
  {
    assert Waiting(rows, st[|st| - 1]);
    assert newId !in st by {
      forall i | 0 <= i < |st| ensures st[i] != newId { assert Waiting(rows, st[i]); }
    }
    var rows1 := Rotate(rows, token, newId, now, ttl);
    RingFrame(rows, rows1, st);
    JoinRing(rows1, st, newId);
  }

  lemma AgainShape(rows: Rows, token: Id, st: seq<Id>, newId: Id, now: int, ttl: int)
    requires token in rows && newId !in rows && MayRotateAgain(rows, token)
    requires !rows[token].Live() && rows[token].Used()
    requires Ring(rows, st) && Increasing(st) && |st| <= KEPT && token !in st
        && rows[token].replacedBy == Some(st[|st| - 1])
    requires forall id :: id in st ==> id < newId
    ensures RenewedRows(rows, RotateAgain(rows, token, newId, now, ttl), token, newId, st, Standing(st + [newId]))
  {
    JoinShape(rows, token, st, newId, now, ttl);
    var rows2 := Join(Rotate(rows, token, newId, now, ttl), st[|st| - 1], newId);
    var rows3 := Trim(rows2, newId, now);
    var all := st + [newId];
    assert Trimmed(rows2, rows3, all, Standing(all)) by {
      AppendIncreasing(st, newId);
      TrimRing(rows2, all, now);
    }
    KeptFacts(st, newId);
    TrimmedRenews(rows, rows2, rows3, token, newId, st, all, Standing(all), now);
  }

  lemma KeptFacts(st: seq<Id>, newId: Id)
    ensures var kept := Standing(st + [newId]); kept != [] && kept[|kept| - 1] == newId
    ensures forall id :: id in st + [newId] <==> id in st || id == newId
    ensures forall id :: id in Standing(st + [newId]) ==> id in st + [newId]
  {
    var all := st + [newId];
    assert Standing(all)[|Standing(all)| - 1] == newId;
  }

  lemma TrimmedRenews(rows: Rows, rows2: Rows, rows3: Rows, token: Id, newId: Id, st: seq<Id>, all: seq<Id>,
      kept: seq<Id>, now: int)
    requires newId !in rows && token !in st && Joined(rows, rows2, token, newId, st)
    requires forall id :: id in all <==> id in st || id == newId
    requires kept != [] && kept[|kept| - 1] == newId && forall id :: id in kept ==> id in all
    requires Trimmed(rows2, rows3, all, kept)
    ensures RenewedRows(rows, rows3[token := rows3[token].(rerotatedAt := Some(now))], token, newId, st, kept)
  {
    var rows4 := rows3[token := rows3[token].(rerotatedAt := Some(now))];
    RingFrame(rows3, rows4, kept);
  }

  lemma AppendIncreasing(ids: seq<Id>, x: Id)
    requires Increasing(ids) && forall id :: id in ids ==> id < x
    ensures Increasing(ids + [x])
  {
    var all := ids + [x];
    forall i, j | 0 <= i < j < |all| ensures all[i] < all[j] {
      if j == |ids| { assert ids[i] in ids; }
    }
  }

  lemma KidsBelow(l: Ledger, nextId: Id, p: Id)
    requires TreeOk(l, nextId) && p in l.contests
    ensures forall k :: k in l.contests[p].kids ==> k < nextId
  {
    assert KidsOk(l, p);
    forall k | k in l.contests[p].kids ensures k < nextId { assert Known(l, k); }
  }

  lemma RenewedKids(l: Ledger, token: Id, newId: Id)
    requires token in l.contests && KidsOk(l, token) && NewFor(l, token, newId)
    ensures KidsOk(Renewed(l, token, newId), token)
  {
    var kids, l' := l.contests[token].kids, Renewed(l, token, newId);
    AppendIncreasing(kids, newId);
    forall k | k in l'.contests[token].kids ensures token < k && k in l'.parent && l'.parent[k] == token {
      if k != newId { assert k in kids; }
    }
  }

  lemma RenewedOtherKids(l: Ledger, token: Id, newId: Id, p: Id)
    requires token in l.contests && p in l.contests && p != token && KidsOk(l, p) && !Known(l, newId)
    ensures KidsOk(Renewed(l, token, newId), p)
  {
  }

  lemma RenewedTree(l: Ledger, nextId: Id, token: Id, newId: Id)
    requires TreeOk(l, nextId) && token in l.contests && NewFor(l, token, newId)
    ensures TreeOk(Renewed(l, token, newId), Raised(nextId, newId))
  {
    var l' := Renewed(l, token, newId);
    forall p | p in l'.contests ensures Known(l', p) && p in l'.used && KidsOk(l', p) {
      assert Known(l, p) && KidsOk(l, p);
      if p == token { RenewedKids(l, token, newId); } else { RenewedOtherKids(l, token, newId, p); }
    }
    forall c | c in l'.parent ensures l'.parent[c] in l'.contests && c in l'.contests[l'.parent[c]].kids {
      if c != newId { assert l.parent[c] in l.contests && c in l.contests[l.parent[c]].kids; }
    }
    assert forall x: Id :: Known(l', x) ==> Known(l, x) || x == newId;
  }

  /** The renewed contest is still open, and of its sessions exactly those cut off are superseded. */
  lemma RenewedFate(l: Ledger, token: Id, newId: Id)
    requires token in l.contests && l.contests[token].fate.Open? && KidsOk(l, token) && FateOk(l, l.contests[token])
    requires newId !in l.used && newId !in l.superseded && forall k :: k in l.contests[token].kids ==> k < newId
    ensures FateOk(Renewed(l, token, newId), Renewed(l, token, newId).contests[token])
  {
    var kids := l.contests[token].kids;
    StandingFacts(kids);
    RenewedOpen(kids, newId);
  }

  lemma RenewedOtherFate(l: Ledger, token: Id, newId: Id, p: Id)
    requires token in l.contests && p in l.contests && p != token && KidsOk(l, p) && KidsOk(l, token)
        && FateOk(l, l.contests[p])
    ensures FateOk(Renewed(l, token, newId), Renewed(l, token, newId).contests[p])
  {
    StandingFacts(l.contests[token].kids);
    assert forall k :: k in l.contests[p].kids ==> k !in l.contests[token].kids;
  }

  lemma RenewedFates(l: Ledger, nextId: Id, token: Id, newId: Id)
    requires TreeOk(l, nextId) && FatesOk(l) && SupersededOk(l)
    requires token in l.contests && l.contests[token].fate.Open? && NewFor(l, token, newId)
    ensures FatesOk(Renewed(l, token, newId))
  {
    var l' := Renewed(l, token, newId);
    assert !Known(l, newId);
    KidsBelow(l, nextId, token);
    assert KidsOk(l, token);
    forall p | p in l'.contests ensures FateOk(l', l'.contests[p]) {
      assert FateOk(l, l.contests[p]) && KidsOk(l, p);
      if p == token { RenewedFate(l, token, newId); } else { RenewedOtherFate(l, token, newId, p); }
    }
  }

  /** Of the older sessions, those standing after the append are those standing before but the one cut. */
  lemma RenewedOpen(kids: seq<Id>, newId: Id)
    requires Increasing(kids) && kids != [] && forall k :: k in kids ==> k < newId
    ensures newId in Standing(kids + [newId])
    ensures forall k :: k in kids && k in Standing(kids + [newId]) ==> k in Standing(kids)
    ensures Increasing(kids + [newId])
  {
    AppendIncreasing(kids, newId);
    var all := kids + [newId];
    var st := Standing(all);
    assert st[|st| - 1] == newId;
    forall k | k in kids && k in st ensures k in Standing(kids) {
      var i :| 0 <= i < |st| && st[i] == k;
      var at := |all| - |st| + i;
      assert all[at] == k && at < |kids|;
      assert Standing(kids)[at - (|kids| - |Standing(kids)|)] == k;
    }
  }

  lemma RenewedSuperseded(l: Ledger, nextId: Id, token: Id, newId: Id)
    requires LedgerOk(l, nextId) && token in l.contests && l.contests[token].fate.Open? && NewFor(l, token, newId)
    ensures var l' := Renewed(l, token, newId);
            (forall c :: c in l'.parent ==> l'.parent[c] in l'.contests) && SupersededOk(l')
  {
    var l' := Renewed(l, token, newId);
    var kids := l.contests[token].kids;
    assert !Known(l, newId);
    KidsBelow(l, nextId, token);
    assert KidsOk(l, token) && FateOk(l, l.contests[token]);
    StandingFacts(kids);
    AppendIncreasing(kids, newId);
    StandingFacts(kids + [newId]);
    forall k | k in l'.superseded ensures k in l'.parent && k !in l'.used && Justified(l', k) {
      if k in l.superseded {
        assert Justified(l, k) && k != newId;
        if l.parent[k] == token {
          var i :| 0 <= i < |kids| && kids[i] == k && |kids| - 1 - i >= KEPT;
          assert (kids + [newId])[i] == k;
        }
      } else {
        assert k in kids && k in kids + [newId];
      }
    }
  }

  lemma RenewedLedger(l: Ledger, nextId: Id, token: Id, newId: Id)
    requires LedgerOk(l, nextId) && token in l.contests && l.contests[token].fate.Open? && NewFor(l, token, newId)
    ensures LedgerOk(Renewed(l, token, newId), Raised(nextId, newId))
  {
    RenewedTree(l, nextId, token, newId);
    RenewedFates(l, nextId, token, newId);
    RenewedSuperseded(l, nextId, token, newId);
  }

  lemma AgainRows(rows: Rows, rows': Rows, nextId: Id, l: Ledger, token: Id, newId: Id)
    requires LedgerOk(l, nextId) && RowsOk(rows, l) && NewFor(l, token, newId)
    requires token in l.contests && l.contests[token].fate.Open?
    requires RenewedRows(rows, rows', token, newId, Standing(l.contests[token].kids),
        Standing(l.contests[token].kids + [newId]))
    ensures RowsOk(rows', Renewed(l, token, newId))
  {
    var l' := Renewed(l, token, newId);
    var kids := l.contests[token].kids;
    var st, st' := Standing(kids), Standing(kids + [newId]);
    assert KidsOk(l, token) && FateOk(l, l.contests[token]) && !Known(l, newId);
    KidsBelow(l, nextId, token);
    StandingFacts(kids);
    RenewedOpen(kids, newId);
    forall x | x in rows' ensures RowOk(l', x, rows'[x]) {
      if x == newId {
        var i :| 0 <= i < |st'| && st'[i] == newId;
        assert Waiting(rows', st'[i]);
      } else {
        assert RowOk(l, x, rows[x]);
        if x in st {
          assert x in kids && l.parent[x] == token && x !in l.contests;
          AgainKidRow(l, token, newId, x, rows[x], rows'[x]);
        } else if x != token {
          AgainOtherRow(l, token, newId, x, rows[x]);
        }
      }
    }
  }

  lemma AgainKidRow(l: Ledger, token: Id, newId: Id, x: Id, s: Session, s': Session)
    requires token in l.contests && l.contests[token].fate.Open? && x in l.parent && l.parent[x] == token && x != newId
    requires x in Standing(l.contests[token].kids) && x !in l.contests && x !in l.used && x !in l.superseded
    requires RowOk(l, x, s)
    requires if x in Standing(l.contests[token].kids + [newId]) then s' == s.(replacedBy := s'.replacedBy)
             else !s'.Live() && !s'.Used() && s'.reason == Some(Superseded)
    ensures RowOk(Renewed(l, token, newId), x, s')
  {
  }

  lemma AgainOtherRow(l: Ledger, token: Id, newId: Id, x: Id, s: Session)
    requires token in l.contests && l.contests[token].fate.Open? && x != newId && x != token
    requires x !in Standing(l.contests[token].kids) && RowOk(l, x, s)
    ensures RowOk(Renewed(l, token, newId), x, s)
  {
  }

  /** The rows a renewal touches are in no other open contest. */
  lemma AgainApart(l: Ledger, nextId: Id, token: Id, newId: Id, q: Id, x: Id)
    requires TreeOk(l, nextId) && FatesOk(l) && NewFor(l, token, newId)
    requires token in l.contests && l.contests[token].fate.Open?
    requires q in l.contests && l.contests[q].fate.Open? && q != token && x in Standing(l.contests[q].kids) + [q]
    ensures x !in Standing(l.contests[token].kids) && x != token && x != newId
  {
    assert KidsOk(l, q) && FateOk(l, l.contests[q]) && Known(l, q) && !Known(l, newId) && token in l.used;
    StandingFacts(l.contests[q].kids);
    StandingApart(l, nextId, token, q, x);
    assert Known(l, x);
  }

  lemma AgainOtherContest(rows: Rows, rows': Rows, nextId: Id, l: Ledger, token: Id, newId: Id, q: Id)
    requires TreeOk(l, nextId) && FatesOk(l) && NewFor(l, token, newId)
    requires q in l.contests && q != token && ContestOk(rows, l, q)
    requires token in l.contests && l.contests[token].fate.Open?
    requires rows'.Keys == rows.Keys + {newId}
    requires forall id :: id in rows && id !in Standing(l.contests[token].kids) && id != token ==> rows'[id] == rows[id]
    ensures ContestOk(rows', Renewed(l, token, newId), q)
  {
    if l.contests[q].fate.Open? {
      forall x | x in Standing(l.contests[q].kids) + [q]
        ensures x !in Standing(l.contests[token].kids) && x != token && x != newId
      { AgainApart(l, nextId, token, newId, q, x); }
    }
    ContestFrame(rows, rows', l, Renewed(l, token, newId), q);
  }

  lemma AgainContests(rows: Rows, rows': Rows, nextId: Id, l: Ledger, token: Id, newId: Id)
    requires TreeOk(l, nextId) && FatesOk(l) && ContestsOk(rows, l) && NewFor(l, token, newId)
    requires token in l.contests && l.contests[token].fate.Open?
    requires RenewedRows(rows, rows', token, newId, Standing(l.contests[token].kids),
        Standing(l.contests[token].kids + [newId]))
    ensures ContestsOk(rows', Renewed(l, token, newId))
  {
    var l' := Renewed(l, token, newId);
    forall q | q in l'.contests ensures ContestOk(rows', l', q) {
      if q != token {
        AgainOtherContest(rows, rows', nextId, l, token, newId, q);
      } else {
        AgainOwner(rows, rows', nextId, l, token, newId);
      }
    }
  }

  lemma AgainOwner(rows: Rows, rows': Rows, nextId: Id, l: Ledger, token: Id, newId: Id)
    requires TreeOk(l, nextId) && ContestsOk(rows, l) && NewFor(l, token, newId)
    requires token in l.contests && l.contests[token].fate.Open?
    requires RenewedRows(rows, rows', token, newId, Standing(l.contests[token].kids),
        Standing(l.contests[token].kids + [newId]))
    ensures OneOwner(rows', Standing(l.contests[token].kids + [newId]) + [token])
  {
    var kids := l.contests[token].kids;
    var st, st' := Standing(kids), Standing(kids + [newId]);
    assert KidsOk(l, token) && ContestOk(rows, l, token);
    KidsBelow(l, nextId, token);
    RenewedOpen(kids, newId);
    forall a | a in st' + [token] && a in rows'
      ensures rows'[a].user == rows[token].user && rows'[a].device == rows[token].device
    {
      if a != token && a != newId {
        assert a in st by { AllKept(kids + [newId], a); }
        assert a in st + [token] && token in st + [token];
      }
    }
  }

  lemma AllKept(all: seq<Id>, x: Id)
    ensures x in Standing(all) ==> x in all
  {
  }

  lemma RotateAgainKeeps(rows: Rows, nextId: Id, l: Ledger, token: Id, newId: Id, now: int, ttl: int)
    requires Inv(rows, nextId, l) && token in rows && MayRotateAgain(rows, token) && NewFor(l, token, newId)
    ensures newId !in rows && !rows[token].Live() && token in l.contests
    ensures Inv(RotateAgain(rows, token, newId, now, ttl), Raised(nextId, newId), Renewed(l, token, newId))
  {
    IdsBelow(rows, nextId, l);
    AgainFacts(rows, nextId, l, token);
    var kids := l.contests[token].kids;
    StandingFacts(kids);
    KidsBelow(l, nextId, token);
    AgainShape(rows, token, Standing(kids), newId, now, ttl);
    StandingAppend(kids, newId);
    var rows' := RotateAgain(rows, token, newId, now, ttl);
    RenewedLedger(l, nextId, token, newId);
    AgainRows(rows, rows', nextId, l, token, newId);
    AgainContests(rows, rows', nextId, l, token, newId);
  }

  /* ----- Sessions that leave without being used ----- */

  predicate Hit(c: Contest, gone: set<Id>) {
    exists k :: k in Standing(c.kids) && k in gone
  }

  lemma CloseContest(l: Ledger, gone: set<Id>, p: Id)
    requires p in l.contests && KidsOk(l, p) && FateOk(l, l.contests[p])
    ensures KidsOk(Close(l, gone), p) && FateOk(Close(l, gone), Close(l, gone).contests[p])
  {
  }

  lemma CloseLedger(l: Ledger, nextId: Id, gone: set<Id>)
    requires LedgerOk(l, nextId)
    ensures LedgerOk(Close(l, gone), nextId)
  {
    var l' := Close(l, gone);
    assert forall x: Id :: Known(l', x) ==> Known(l, x);
    forall p | p in l'.contests ensures Known(l', p) && p in l'.used && KidsOk(l', p) && FateOk(l', l'.contests[p]) {
      assert Known(l, p) && KidsOk(l, p) && FateOk(l, l.contests[p]);
      CloseContest(l, gone, p);
    }
    forall k | k in l'.superseded ensures k in l'.parent && k !in l'.used && Justified(l', k) {
      assert Justified(l, k);
    }
  }

  /** Some rows are deleted, some live ones revoked; a row that pointed at a deleted one points at none. */
  predicate Retires(rows: Rows, rows': Rows, gone: set<Id>) {
    && rows'.Keys <= rows.Keys
    && (forall id :: id in rows && id !in rows' ==> id in gone)
    && (forall id :: id in rows' && id in gone ==>
          && rows[id].Live() && !rows'[id].Live() && rows'[id].reason.Some? && !Replaced(rows'[id])
          && rows'[id].Used() == rows[id].Used())
    && (forall id :: id in rows' && id !in gone ==>
          || rows'[id] == rows[id]
          || (rows[id].replacedBy.Some? && rows[id].replacedBy.value in gone
              && rows'[id] == rows[id].(replacedBy := None)))
  }

  /** No contest loses only some of the sessions standing in it. */
  predicate Whole(l: Ledger, gone: set<Id>) {
    forall p :: p in l.contests && l.contests[p].fate.Open? && Hit(l.contests[p], gone) ==>
      forall k :: k in Standing(l.contests[p].kids) ==> k in gone
  }

  lemma RetireRows(rows: Rows, rows': Rows, nextId: Id, l: Ledger, gone: set<Id>)
    requires LedgerOk(l, nextId) && RowsOk(rows, l) && Retires(rows, rows', gone) && Whole(l, gone)
    ensures RowsOk(rows', Close(l, gone))
  {
    var l' := Close(l, gone);
    forall x | x in rows' ensures RowOk(l', x, rows'[x]) {
      assert RowOk(l, x, rows[x]);
      if x !in gone && rows[x].Live() && x in l.parent {
        var c := l.contests[l.parent[x]];
        assert c.fate.Open? ==> x in Standing(c.kids) && !Hit(c, gone);
      }
    }
  }

  lemma RetireContests(rows: Rows, rows': Rows, nextId: Id, l: Ledger, gone: set<Id>)
    requires LedgerOk(l, nextId) && ContestsOk(rows, l) && Retires(rows, rows', gone)
    requires forall p :: p in gone && p in l.contests ==> p !in rows'
    ensures ContestsOk(rows', Close(l, gone))
  {
    var l' := Close(l, gone);
    forall p | p in l'.contests ensures ContestOk(rows', l', p) {
      var c := l.contests[p];
      if c.fate.Open? && !Hit(c, gone) {
        assert KidsOk(l, p) && ContestOk(rows, l, p);
        RetireContest(rows, rows', l, gone, p);
      }
    }
  }

  lemma RingUntouched(rows: Rows, rows': Rows, ids: seq<Id>, gone: set<Id>)
    requires Retires(rows, rows', gone) && Ring(rows, ids) && forall k :: k in ids ==> k !in gone
    ensures Ring(rows', ids)
    ensures forall k :: k in ids ==> k in rows && k in rows' && rows'[k] == rows[k]
  {
    forall k | k in ids ensures k in rows && k in rows' && rows'[k] == rows[k] {
      var i :| 0 <= i < |ids| && ids[i] == k;
      assert Waiting(rows, ids[i]) && rows[k].replacedBy == After(ids, i);
      assert ids[0] in ids;
      assert i + 1 < |ids| ==> ids[i + 1] in ids;
    }
    RingFrame(rows, rows', ids);
  }

  lemma RetireContest(rows: Rows, rows': Rows, l: Ledger, gone: set<Id>, p: Id)
    requires Retires(rows, rows', gone)
    requires p in l.contests && KidsOk(l, p) && ContestOk(rows, l, p) && l.contests[p].fate.Open?
        && !Hit(l.contests[p], gone)
    requires p in gone ==> p !in rows'
    ensures ContestOk(rows', Close(l, gone), p)
  {
    var c := l.contests[p];
    StandingEnd(c.kids);
    var st := Standing(c.kids);
    RingUntouched(rows, rows', st, gone);
    assert st[|st| - 1] in st && st[|st| - 1] !in gone;
    ContestFrame(rows, rows', l, Close(l, gone), p);
  }

  lemma RetireKeeps(rows: Rows, rows': Rows, nextId: Id, l: Ledger, gone: set<Id>)
    requires Inv(rows, nextId, l) && Retires(rows, rows', gone) && Whole(l, gone)
    ensures Inv(rows', nextId, Close(l, gone))
  {
    CloseLedger(l, nextId, gone);
    RetireRows(rows, rows', nextId, l, gone);
    forall p | p in rows' && p in l.contests ensures p !in gone { assert RowOk(l, p, rows[p]); }
    RetireContests(rows, rows', nextId, l, gone);
  }

  lemma OpenRing(rows: Rows, nextId: Id, l: Ledger, p: Id, k: Id)
    requires Inv(rows, nextId, l) && p in l.contests && l.contests[p].fate.Open? && k in Standing(l.contests[p].kids)
    ensures Waiting(rows, k) && k !in l.used
    ensures rows[k].replacedBy.None? ==> Standing(l.contests[p].kids) == [k]
    ensures forall j :: j in Standing(l.contests[p].kids) ==>
              Waiting(rows, j) && rows[j].user == rows[k].user && rows[j].device == rows[k].device
  {
    var st := Standing(l.contests[p].kids);
    assert KidsOk(l, p) && ContestOk(rows, l, p) && FateOk(l, l.contests[p]);
    StandingFacts(l.contests[p].kids);
    var i :| 0 <= i < |st| && st[i] == k;
    assert Waiting(rows, st[i]) && rows[k].replacedBy == After(st, i);
    assert |st| == 1 ==> st == [k];
    forall j | j in st ensures Waiting(rows, j) && rows[j].user == rows[k].user && rows[j].device == rows[k].device {
      var n :| 0 <= n < |st| && st[n] == j;
      assert Waiting(rows, st[n]);
      assert j in st + [p] && k in st + [p];
    }
  }

  /** Refusing an expired session that stands alone. */
  lemma ExpireKeeps(rows: Rows, nextId: Id, l: Ledger, id: Id, now: int)
    requires Inv(rows, nextId, l) && id in rows && rows[id].Live() && rows[id].replacedBy.None?
    ensures Inv(rows[id := rows[id].(revokedAt := Some(now), reason := Some(Expired))], nextId, Close(l, {id}))
  {
    forall p | p in l.contests && l.contests[p].fate.Open? && Hit(l.contests[p], {id})
      ensures forall k :: k in Standing(l.contests[p].kids) ==> k in {id}
    { OpenRing(rows, nextId, l, p, id); }
    RetireKeeps(rows, rows[id := rows[id].(revokedAt := Some(now), reason := Some(Expired))], nextId, l, {id});
  }

  /** Logging out a used session: no contest is open on it. */
  lemma LogOutKeeps(rows: Rows, nextId: Id, l: Ledger, id: Id, now: int)
    requires Inv(rows, nextId, l) && id in l.used
    ensures Inv(LogOut(rows, id, now), nextId, l)
  {
    if id in rows && rows[id].Live() {
      forall p | p in l.contests && l.contests[p].fate.Open? ensures !Hit(l.contests[p], {id}) {
        forall k | k in Standing(l.contests[p].kids) ensures k != id { OpenRing(rows, nextId, l, p, k); }
      }
      assert Whole(l, {id});
      assert Close(l, {id}).contests == l.contests;
      RetireKeeps(rows, LogOut(rows, id, now), nextId, l, {id});
    }
  }

  function OnDevice(rows: Rows, device: nat): set<Id> {
    set id | id in rows && rows[id].device == Some(device) && rows[id].Live()
  }

  lemma RevokeDeviceKeeps(rows: Rows, nextId: Id, l: Ledger, device: nat, now: int)
    requires Inv(rows, nextId, l)
    ensures Inv(RevokeDevice(rows, device, now), nextId, Close(l, OnDevice(rows, device)))
  {
    var gone := OnDevice(rows, device);
    forall p | p in l.contests && l.contests[p].fate.Open? && Hit(l.contests[p], gone)
      ensures forall k :: k in Standing(l.contests[p].kids) ==> k in gone
    {
      var k :| k in Standing(l.contests[p].kids) && k in gone;
      OpenRing(rows, nextId, l, p, k);
    }
    RetireKeeps(rows, RevokeDevice(rows, device, now), nextId, l, gone);
  }

  lemma DeleteUserKeeps(rows: Rows, nextId: Id, l: Ledger, user: nat)
    requires Inv(rows, nextId, l)
    ensures Inv(Delete(rows, OfUser(rows, user)), nextId, Close(l, OfUser(rows, user)))
  {
    var gone := OfUser(rows, user);
    forall p | p in l.contests && l.contests[p].fate.Open? && Hit(l.contests[p], gone)
      ensures forall k :: k in Standing(l.contests[p].kids) ==> k in gone
    {
      var k :| k in Standing(l.contests[p].kids) && k in gone;
      OpenRing(rows, nextId, l, p, k);
    }
    RetireKeeps(rows, Delete(rows, gone), nextId, l, gone);
  }

  /** The nightly purge, whichever prunable rows a batch holds, cuts no ring. */
  lemma PruneKeeps(rows: Rows, nextId: Id, l: Ledger, ids: set<Id>, cutoff: int)
    requires Inv(rows, nextId, l) && forall id :: id in ids ==> id in rows && Prunable(rows[id], cutoff)
    ensures Inv(Delete(rows, ids), nextId, Close(l, ids))
  {
    forall p | p in l.contests && l.contests[p].fate.Open? && Hit(l.contests[p], ids)
      ensures forall k :: k in Standing(l.contests[p].kids) ==> k in ids
    {
      var k :| k in Standing(l.contests[p].kids) && k in ids;
      OpenRing(rows, nextId, l, p, k);
    }
    RetireKeeps(rows, Delete(rows, ids), nextId, l, ids);
  }

  lemma DetachDeviceKeeps(rows: Rows, nextId: Id, l: Ledger, device: nat)
    requires Inv(rows, nextId, l)
    ensures Inv(DetachDevice(rows, device), nextId, l)
  {
    var rows' := DetachDevice(rows, device);
    forall x | x in rows' ensures RowOk(l, x, rows'[x]) { assert RowOk(l, x, rows[x]); }
    forall p | p in l.contests ensures ContestOk(rows', l, p) {
      var c := l.contests[p];
      assert ContestOk(rows, l, p);
      if c.fate.Open? && c.kids != [] {
        var st := Standing(c.kids);
        forall i | 0 <= i < |st| ensures Waiting(rows', st[i]) && rows'[st[i]].replacedBy == After(st, i) {
          assert Waiting(rows, st[i]);
        }
      }
    }
  }

  lemma EnrollLedger(l: Ledger, nextId: Id, id: Id)
    requires LedgerOk(l, nextId) && !Known(l, id)
    ensures LedgerOk(Enroll(l, id), Raised(nextId, id))
  {
    var l' := Enroll(l, id);
    assert !Known(l, id);
    assert forall x: Id :: Known(l', x) ==> Known(l, x) || x == id;
    forall p | p in l'.contests ensures Known(l', p) && p in l'.used && KidsOk(l', p) && FateOk(l', l'.contests[p]) {
      assert Known(l, p) && KidsOk(l, p) && FateOk(l, l.contests[p]);
    }
    forall k | k in l'.superseded ensures k in l'.parent && k !in l'.used && Justified(l', k) {
      assert Justified(l, k);
    }
  }

  lemma EnrollContest(rows: Rows, nextId: Id, l: Ledger, id: Id, s: Session, p: Id)
    requires TreeOk(l, nextId) && !Known(l, id) && p in l.contests && ContestOk(rows, l, p)
    ensures ContestOk(rows[id := s], Enroll(l, id), p)
  {
    assert KidsOk(l, p) && Known(l, p);
    StandingEnd(l.contests[p].kids);
    KidsBelow(l, nextId, p);
    ContestFrame(rows, rows[id := s], l, Enroll(l, id), p);
  }

  lemma SignInKeeps(rows: Rows, nextId: Id, l: Ledger, id: Id, s: Session)
    requires Inv(rows, nextId, l) && !Known(l, id)
    requires s.Live() && s.reason.None? && !s.Used() && s.replacedBy.None?
    ensures id !in rows && Inv(rows[id := s], Raised(nextId, id), Enroll(l, id))
  {
    IdsBelow(rows, nextId, l);
    var l' := Enroll(l, id);
    var rows' := rows[id := s];
    EnrollLedger(l, nextId, id);
    forall x | x in rows' ensures RowOk(l', x, rows'[x]) {
      if x != id { assert RowOk(l, x, rows[x]); } else { assert !Known(l, id); }
    }
    forall p | p in l'.contests ensures ContestOk(rows', l', p) {
      assert ContestOk(rows, l, p);
      EnrollContest(rows, nextId, l, id, s, p);
    }
  }
}
