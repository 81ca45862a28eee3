/**
 What the refresh protocol promises, stated without pointers. The ledger records,
 for every session ever created, the token it was rotated from, and for every
 rotated token the sessions it was rotated into, oldest first, with how their
 contest stands. `Inv` ties the rows of the table to the ledger.
 */
module SessionLedger {
  import opened Options
  import opened Sequences
  import opened SessionRows

  /** Open: none used yet. Won: the winner was the first used. Ended: none can be used any more. */
  datatype Fate = Open | Won(winner: Id) | Ended

  datatype Contest = Contest(kids: seq<Id>, fate: Fate)

  datatype Ledger = Ledger(
    roots: set<Id>,
    parent: map<Id, Id>,
    contests: map<Id, Contest>,
    used: set<Id>,
    superseded: set<Id>)

  const NoSessions := Ledger({}, map[], map[], {}, {})

  /** The newest `KEPT` of the sessions a token was rotated into. */
  function Standing(kids: seq<Id>): seq<Id> {
    if |kids| <= KEPT then kids else kids[|kids| - KEPT..]
  }

  /* ----- How the ledger moves ----- */

  function Enroll(l: Ledger, id: Id): Ledger { l.(roots := l.roots + {id}) }

  predicate Contesting(l: Ledger, id: Id) {
    id in l.parent && l.parent[id] in l.contests && l.contests[l.parent[id]].fate.Open?
  }

  /** The first use of a session wins its contest and supersedes the rivals still standing. */
  function MarkUsed(l: Ledger, id: Id): Ledger {
    if id in l.used then l
    else if Contesting(l, id) then
      var p := l.parent[id];
      l.(used := l.used + {id},
         contests := l.contests[p := l.contests[p].(fate := Won(id))],
         superseded := l.superseded + (Members(Standing(l.contests[p].kids)) - {id}))
    else l.(used := l.used + {id})
  }

  function Renewed(l: Ledger, token: Id, newId: Id): Ledger
    requires token in l.contests
  {
    var kids := l.contests[token].kids;
    l.(parent := l.parent[newId := token],
       contests := l.contests[token := Contest(kids + [newId], l.contests[token].fate)],
       superseded := l.superseded + (Members(Standing(kids)) - Members(Standing(kids + [newId]))))
  }

  /** A token rotated for the first time has been used, and opens a contest of its own. */
  function Replaced1(l: Ledger, token: Id, newId: Id): Ledger {
    var u := MarkUsed(l, token);
    u.(parent := u.parent[newId := token], contests := u.contests[token := Contest([newId], Open)])
  }

  /** Sessions revoked or deleted without being used end the contest they stood in. */
  function Close(l: Ledger, gone: set<Id>): Ledger {
    l.(contests := map p | p in l.contests ::
         var c := l.contests[p];
         if c.fate.Open? && (exists k :: k in Standing(c.kids) && k in gone) then c.(fate := Ended) else c)
  }

  /* ----- The invariant ----- */

  predicate NoneUsed(l: Ledger, kids: seq<Id>) {
    forall k :: k in kids ==> k !in l.used
  }

  predicate FateOk(l: Ledger, c: Contest) {
    match c.fate
    case Open =>
      NoneUsed(l, c.kids) && forall k :: k in c.kids ==> (k in l.superseded <==> k !in Standing(c.kids))
    case Won(w) =>
      w in c.kids && w in l.used && forall k :: k in c.kids && k != w ==> k !in l.used
    case Ended => NoneUsed(l, c.kids)
  }

  predicate Known(l: Ledger, id: Id) { id in l.roots || id in l.parent }

  /** An id never given out before, above those of the token and of what it was rotated into so far. */
  predicate NewFor(l: Ledger, token: Id, newId: Id) {
    && !Known(l, newId) && token < newId
    && (token in l.contests ==> forall k :: k in l.contests[token].kids ==> k < newId)
  }

  /** The bound on the ids given out, once `newId` is. */
  function Raised(nextId: Id, newId: Id): Id { if newId < nextId then nextId else newId + 1 }

  predicate KidsOk(l: Ledger, p: Id)
    requires p in l.contests
  {
    var kids := l.contests[p].kids;
    && kids != []
    && Increasing(kids)
    && forall k :: k in kids ==> p < k && k in l.parent && l.parent[k] == p
  }

  /** At least `KEPT` younger siblings joined after `k`. */
  predicate Crowded(kids: seq<Id>, k: Id) {
    exists i :: 0 <= i < |kids| && kids[i] == k && |kids| - 1 - i >= KEPT
  }

  predicate Justified(l: Ledger, k: Id)
    requires k in l.parent && l.parent[k] in l.contests
  {
    var c := l.contests[l.parent[k]];
    (c.fate.Won? && c.fate.winner != k) || Crowded(c.kids, k)
  }

  /** Parents and children agree, and a token that was rotated has been used. */
  ghost predicate TreeOk(l: Ledger, nextId: Id) {
    && l.roots !! l.parent.Keys
    && (forall id: Id :: Known(l, id) ==> id < nextId)
    && (forall c :: c in l.parent ==>
          l.parent[c] in l.contests && c in l.contests[l.parent[c]].kids)
    && (forall p :: p in l.contests ==> Known(l, p) && p in l.used && KidsOk(l, p))
    && (forall id :: id in l.used ==> Known(l, id))
  }

  predicate FatesOk(l: Ledger) {
    forall p :: p in l.contests ==> FateOk(l, l.contests[p])
  }

  predicate SupersededOk(l: Ledger)
    requires forall c :: c in l.parent ==> l.parent[c] in l.contests
  {
    forall id :: id in l.superseded ==> id in l.parent && id !in l.used && Justified(l, id)
  }

  ghost predicate LedgerOk(l: Ledger, nextId: Id) {
    TreeOk(l, nextId) && FatesOk(l) && SupersededOk(l)
  }

  function After(ids: seq<Id>, i: nat): Option<Id>
    requires i < |ids|
  {
    if |ids| == 1 then None else Some(if i + 1 < |ids| then ids[i + 1] else ids[0])
  }

  predicate Waiting(rows: Rows, id: Id) {
    id in rows && rows[id].Live() && !rows[id].Used()
  }

  /** Live unused sessions linked in a closed cycle, each to the next younger and the youngest to the oldest. */
  predicate Ring(rows: Rows, ids: seq<Id>) {
    ids != [] && forall i :: 0 <= i < |ids| ==> Waiting(rows, ids[i]) && rows[ids[i]].replacedBy == After(ids, i)
  }

  predicate OneOwner(rows: Rows, ids: seq<Id>) {
    forall a, b :: a in ids && b in ids && a in rows && b in rows ==>
      rows[a].user == rows[b].user && rows[a].device == rows[b].device
  }

  predicate ContestOk(rows: Rows, l: Ledger, p: Id)
    requires p in l.contests
  {
    var c := l.contests[p];
    c.fate.Open? && c.kids != [] ==>
      && Ring(rows, Standing(c.kids))
      && OneOwner(rows, Standing(c.kids) + [p])
      && (p in rows ==> rows[p].replacedBy == Some(c.kids[|c.kids| - 1]))
  }

  /** What a live row says about the contest it is in. */
  predicate LiveOk(l: Ledger, id: Id, s: Session) {
    if id in l.parent && l.parent[id] in l.contests then
      var c := l.contests[l.parent[id]];
      match c.fate
      case Open => id in Standing(c.kids)
      case Won(w) => id == w && s.replacedBy.None?
      case Ended => false
    else s.replacedBy.None?
  }

  predicate RowOk(l: Ledger, id: Id, s: Session) {
    && Known(l, id)
    && (s.Used() <==> id in l.used)
    && (s.Live() <==> s.reason.None?)
    && (s.reason == Some(Superseded) <==> id in l.superseded)
    && (s.reason == Some(Rotated) <==> id in l.contests)
    && (s.Live() ==> LiveOk(l, id, s))
    && (id in l.contests && s.replacedBy.Some? ==> s.replacedBy.value in l.contests[id].kids)
  }

  predicate RowsOk(rows: Rows, l: Ledger) {
    forall id :: id in rows ==> RowOk(l, id, rows[id])
  }

  predicate ContestsOk(rows: Rows, l: Ledger) {
    forall p :: p in l.contests ==> ContestOk(rows, l, p)
  }

  ghost predicate Inv(rows: Rows, nextId: Id, l: Ledger) {
    LedgerOk(l, nextId) && RowsOk(rows, l) && ContestsOk(rows, l)
  }

  /* ----- Rings ----- */

  /** From a live row of the set, the link leads to a row of the set. */
  predicate ClosedUnder(rows: Rows, within: set<Id>) {
    forall id ::
      (id in within && id in rows && rows[id].Live()
       && rows[id].replacedBy.Some? && rows[id].replacedBy.value in rows) ==>
        rows[id].replacedBy.value in within
  }

  lemma {:induction false} WalkStaysIn(rows: Rows, next: Option<Id>, seen: set<Id>, within: set<Id>)
    requires next.Some? && next.value in rows ==> next.value in within
    requires ClosedUnder(rows, within)
    ensures Walk(rows, next, seen) <= within
    decreases rows.Keys - seen
  {
    if next.Some? && next.value in rows && next.value !in seen && rows[next.value].Live() {
      assert next.value in rows.Keys - seen;
      WalkStaysIn(rows, rows[next.value].replacedBy, seen + {next.value}, within);
    }
  }

  /** What the walk collects is closed: the session after a live collected one was collected too. */
  lemma {:induction false} WalkIsClosed(rows: Rows, next: Option<Id>, seen: set<Id>)
    ensures forall id :: id in Walk(rows, next, seen) ==> id in rows
    ensures var all := seen + Walk(rows, next, seen);
            && (next.Some? && next.value in rows ==> next.value in all)
            && forall id ::
                 (id in Walk(rows, next, seen) && rows[id].Live() && rows[id].replacedBy.Some?
                     && rows[id].replacedBy.value in rows)
                 ==> rows[id].replacedBy.value in all
    decreases rows.Keys - seen
  {
    if next.Some? && next.value in rows && next.value !in seen && rows[next.value].Live() {
      assert next.value in rows.Keys - seen;
      WalkIsClosed(rows, rows[next.value].replacedBy, seen + {next.value});
    }
  }

  lemma {:induction false} ClosedReachesUp(rows: Rows, ids: seq<Id>, found: set<Id>, i: nat, j: nat)
    requires Ring(rows, ids) && i <= j < |ids| && ids[i] in found
    requires forall id :: id in found && id in rows && rows[id].replacedBy.Some? && rows[id].replacedBy.value in rows
               ==> rows[id].replacedBy.value in found
    ensures ids[j] in found
    decreases j - i
  {
    if i < j {
      assert rows[ids[i]].replacedBy == Some(ids[i + 1]);
      assert Waiting(rows, ids[i + 1]);
      ClosedReachesUp(rows, ids, found, i + 1, j);
    }
  }

  /** From any of its members the walk finds exactly the ring. */
  lemma {:induction false} LinkedIsRing(rows: Rows, ids: seq<Id>, i: nat)
    requires Ring(rows, ids) && i < |ids|
    ensures Linked(rows, ids[i]) == Members(ids)
  {
    var start := ids[i];
    var found := Linked(rows, start);
    assert Waiting(rows, start);
    forall id | id in Members(ids)
      ensures id in rows && (rows[id].replacedBy.Some? ==> rows[id].replacedBy.value in Members(ids))
    {
      var k :| 0 <= k < |ids| && ids[k] == id;
      assert Waiting(rows, ids[k]);
    }
    WalkStaysIn(rows, rows[start].replacedBy, {start}, Members(ids));
    WalkIsClosed(rows, rows[start].replacedBy, {start});
    forall id | id in found && id in rows && rows[id].replacedBy.Some? && rows[id].replacedBy.value in rows
      ensures rows[id].replacedBy.value in found
    {
      assert id in Members(ids);
      var k :| 0 <= k < |ids| && ids[k] == id;
      assert Waiting(rows, ids[k]);
    }
    forall id | id in Members(ids) ensures id in found {
      var k :| 0 <= k < |ids| && ids[k] == id;
      var last := |ids| - 1;
      if k < i {
        ClosedReachesUp(rows, ids, found, i, last);
        assert rows[ids[last]].replacedBy == Some(ids[0]);
        assert Waiting(rows, ids[0]);
        ClosedReachesUp(rows, ids, found, 0, k);
      } else {
        ClosedReachesUp(rows, ids, found, i, k);
      }
    }
  }

  lemma TailMembers(a: seq<Id>, x: Id)
    requires a != [] && Increasing(a)
    ensures x in a[1..] <==> x in a && x != a[0]
  {
    if x in a && x != a[0] {
      var j :| 0 <= j < |a| && a[j] == x;
      assert a[1..][j - 1] == x;
    }
  }

  lemma {:induction false} IncreasingUnique(a: seq<Id>, b: seq<Id>)
    requires Increasing(a) && Increasing(b)
    requires forall x :: x in a <==> x in b
    ensures a == b
  {
    assert (a != [] ==> a[0] in a) && (b != [] ==> b[0] in b);
    if a != [] {
      assert a[0] in b && b[0] in a;
      assert a[0] == b[0];
      forall x ensures x in a[1..] <==> x in b[1..] {
        TailMembers(a, x);
        TailMembers(b, x);
      }
      IncreasingUnique(a[1..], b[1..]);
      assert a == [a[0]] + a[1..] && b == [b[0]] + b[1..];
    }
  }

  lemma SortedOfIncreasing(ids: seq<Id>)
    requires Increasing(ids)
    ensures Sorted(Members(ids)) == ids
  {
    IncreasingUnique(Sorted(Members(ids)), ids);
  }

  lemma StandingEnd(kids: seq<Id>)
    requires kids != []
    ensures Standing(kids) != [] && Standing(kids)[|Standing(kids)| - 1] == kids[|kids| - 1]
    ensures forall k :: k in Standing(kids) ==> k in kids
  {
  }

  lemma StandingFacts(kids: seq<Id>)
    requires kids != [] && Increasing(kids)
    ensures Standing(kids) != [] && Increasing(Standing(kids)) && |Standing(kids)| <= KEPT
    ensures Standing(kids)[|Standing(kids)| - 1] == kids[|kids| - 1]
    ensures forall k :: k in Standing(kids) ==> k in kids
    ensures forall k :: k in kids && k !in Standing(kids) ==> Crowded(kids, k)
  {
    var cut := |kids| - |Standing(kids)|;
    forall i | cut <= i < |kids| ensures kids[i] in Standing(kids) {
      assert Standing(kids)[i - cut] == kids[i];
    }
    forall k | k in kids && k !in Standing(kids) ensures Crowded(kids, k) {
      var i :| 0 <= i < |kids| && kids[i] == k;
      assert |kids| - 1 - i >= KEPT;
    }
  }
}
