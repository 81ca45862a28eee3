/**
 What holds in every reachable state of the session table, and over whole runs:
 the sessions used since one sign-in form a single path, and at most one of the
 live ones has been used.
 */
module SessionLineage {
  import opened Options
  import opened Sequences
  import opened SessionRows
  import opened SessionLedger
  import opened SessionSteps
  import opened SessionRuns

  /* ----- Runs ----- */

  ghost predicate Run(cfg: Config, states: seq<State>, ledgers: seq<Ledger>, actions: seq<Action>) {
    && |states| == |ledgers| == |actions| + 1
    && states[0] == State(map[], 0) && ledgers[0] == NoSessions
    && forall i :: 0 <= i < |actions| ==> Stepped(cfg, states, ledgers, actions, i)
  }

  ghost predicate Stepped(cfg: Config, states: seq<State>, ledgers: seq<Ledger>, actions: seq<Action>, i: nat)
    requires i < |actions| < |states| == |ledgers|
  {
    && Enabled(cfg, states[i], ledgers[i], actions[i])
    && states[i + 1] == Next(cfg, states[i], ledgers[i], actions[i])
    && ledgers[i + 1] == Recorded(cfg, states[i], ledgers[i], actions[i])
  }

  lemma {:induction false} RunKeeps(cfg: Config, states: seq<State>, ledgers: seq<Ledger>, actions: seq<Action>, i: nat)
    requires Run(cfg, states, ledgers, actions) && i < |states|
    ensures StateOk(states[i], ledgers[i])
  {
    if i > 0 {
      RunKeeps(cfg, states, ledgers, actions, i - 1);
      assert Stepped(cfg, states, ledgers, actions, i - 1);
      StepKeeps(cfg, states[i - 1], ledgers[i - 1], actions[i - 1]);
    }
  }

  /** What the ledger never takes back. */
  ghost predicate Grows(l: Ledger, l': Ledger) {
    && l.used <= l'.used && l.superseded <= l'.superseded && l.roots <= l'.roots
    && l.parent.Keys <= l'.parent.Keys && (forall c :: c in l.parent ==> l'.parent[c] == l.parent[c])
    && l.contests.Keys <= l'.contests.Keys
    && forall p :: p in l.contests ==>
         && l.contests[p].kids <= l'.contests[p].kids
         && (!l.contests[p].fate.Open? ==> l'.contests[p] == l.contests[p])
  }

  lemma MarkUsedGrows(l: Ledger, id: Id)
    ensures Grows(l, MarkUsed(l, id))
  {
  }

  lemma RenewedGrows(l: Ledger, token: Id, newId: Id)
    requires token in l.contests && l.contests[token].fate.Open? && newId !in l.parent
    ensures Grows(l, Renewed(l, token, newId))
  {
  }

  lemma Replaced1Grows(l: Ledger, token: Id, newId: Id)
    requires token !in l.contests && newId !in l.parent
    ensures Grows(l, Replaced1(l, token, newId))
  {
    MarkUsedGrows(l, token);
  }

  lemma PresentGrows(cfg: Config, s: State, l: Ledger, a: Action)
    requires StateOk(s, l) && Enabled(cfg, s, l, a) && a.Present?
    ensures Grows(l, Recorded(cfg, s, l, a))
  {
    var r := Refresh(cfg, s.rows, a.token, a.userActive, a.newId, a.now);
    RefreshDecides(cfg, s.rows, s.nextId, l, a.token, a.userActive, a.newId, a.now);
    if r.1.Issued? {
      assert !Known(l, a.newId);
      assert RowOk(l, a.token, s.rows[a.token]);
      if a.token in l.contests {
        RenewedGrows(l, a.token, a.newId);
      } else {
        Replaced1Grows(l, a.token, a.newId);
      }
    }
  }

  lemma StepGrows(cfg: Config, s: State, l: Ledger, a: Action)
    requires StateOk(s, l) && Enabled(cfg, s, l, a)
    ensures Grows(l, Recorded(cfg, s, l, a))
  {
    if a.Present? {
      PresentGrows(cfg, s, l, a);
    } else if a.Request? {
      MarkUsedGrows(l, a.id);
    }
  }

  lemma GrowsOn(a: Ledger, b: Ledger, c: Ledger)
    requires Grows(a, b) && Grows(b, c)
    ensures Grows(a, c)
  {
  }

  lemma StepOfRunGrows(cfg: Config, states: seq<State>, ledgers: seq<Ledger>, actions: seq<Action>, k: nat)
    requires Run(cfg, states, ledgers, actions) && k < |actions|
    ensures Grows(ledgers[k], ledgers[k + 1])
  {
    RunKeeps(cfg, states, ledgers, actions, k);
    assert Stepped(cfg, states, ledgers, actions, k);
    StepGrows(cfg, states[k], ledgers[k], actions[k]);
  }

  lemma {:induction false} RunGrows(cfg: Config, states: seq<State>, ledgers: seq<Ledger>, actions: seq<Action>,
                                    i: nat, j: nat)
    requires Run(cfg, states, ledgers, actions) && i <= j < |states|
    ensures Grows(ledgers[i], ledgers[j])
    decreases j - i
  {
    if i < j {
      RunGrows(cfg, states, ledgers, actions, i, j - 1);
      StepOfRunGrows(cfg, states, ledgers, actions, j - 1);
      GrowsOn(ledgers[i], ledgers[j - 1], ledgers[j]);
    }
  }

  /* ----- Lineages ----- */

  function RootOf(l: Ledger, id: Id): Id
    decreases id
  {
    if id in l.parent && l.parent[id] < id then RootOf(l, l.parent[id]) else id
  }

  /** `a` is `b` or one of the tokens `b` descends from. */
  predicate Above(l: Ledger, a: Id, b: Id)
    decreases b
  {
    a == b || (b in l.parent && l.parent[b] < b && Above(l, a, l.parent[b]))
  }

  lemma {:induction false} AboveUsed(l: Ledger, nextId: Id, a: Id, b: Id)
    requires TreeOk(l, nextId) && Above(l, a, b) && b in l.used
    ensures a in l.used
    decreases b
  {
    if a != b { AboveUsed(l, nextId, a, l.parent[b]); }
  }

  lemma {:induction false} RootIsAbove(l: Ledger, id: Id)
    ensures Above(l, RootOf(l, id), id)
    decreases id
  {
    if id in l.parent && l.parent[id] < id { RootIsAbove(l, l.parent[id]); }
  }

  lemma {:induction false} AboveSameRoot(l: Ledger, a: Id, b: Id)
    requires Above(l, a, b)
    ensures RootOf(l, a) == RootOf(l, b)
    decreases b
  {
    if a != b { AboveSameRoot(l, a, l.parent[b]); }
  }

  /** The step from `a` towards a proper descendant `b`. */
  lemma {:induction false} ChildTowards(l: Ledger, nextId: Id, a: Id, b: Id) returns (c: Id)
    requires TreeOk(l, nextId) && Above(l, a, b) && a != b
    ensures c in l.parent && l.parent[c] == a && a in l.contests && c in l.contests[a].kids && Above(l, c, b)
    decreases b
  {
    if l.parent[b] == a {
      c := b;
    } else {
      c := ChildTowards(l, nextId, a, l.parent[b]);
    }
  }

  lemma ParentBelow(l: Ledger, nextId: Id, c: Id)
    requires TreeOk(l, nextId) && c in l.parent
    ensures l.parent[c] < c && l.parent[c] in l.used && l.parent[c] in l.contests
    ensures RootOf(l, c) == RootOf(l, l.parent[c])
  {
    assert KidsOk(l, l.parent[c]);
  }

  /** Of the sessions a token was rotated into, at most one was ever used. */
  lemma OneUsedKid(l: Ledger, p: Id, c: Id, d: Id)
    requires FatesOk(l) && p in l.contests && c in l.contests[p].kids && d in l.contests[p].kids
    requires c in l.used && d in l.used
    ensures c == d
  {
    assert FateOk(l, l.contests[p]);
  }

  /** The used sessions of one sign-in lie on one path. */
  lemma {:induction false} OnePath(l: Ledger, nextId: Id, a: Id, b: Id)
    requires LedgerOk(l, nextId) && a in l.used && b in l.used && RootOf(l, a) == RootOf(l, b)
    ensures Above(l, a, b) || Above(l, b, a)
    decreases b
  {
    if b in l.parent {
      var p := l.parent[b];
      ParentBelow(l, nextId, b);
      OnePath(l, nextId, a, p);
      if !Above(l, a, p) {
        var c := ChildTowards(l, nextId, p, a);
        AboveUsed(l, nextId, c, a);
        OneUsedKid(l, p, c, b);
      }
    } else {
      RootIsAbove(l, a);
    }
  }

  /* ----- The live sessions of a lineage ----- */

  function LiveOf(rows: Rows, l: Ledger, root: Id): set<Id> {
    set id | id in rows && rows[id].Live() && RootOf(l, id) == root
  }

  /** Every used session of the lineage is on the path that ends at `x`. */
  ghost predicate EndsPath(l: Ledger, root: Id, x: Id) {
    RootOf(l, x) == root && x in l.used && forall u :: u in l.used && RootOf(l, u) == root ==> Above(l, u, x)
  }

  lemma LiveHasNoKids(rows: Rows, nextId: Id, l: Ledger, x: Id)
    requires Inv(rows, nextId, l) && x in rows && rows[x].Live()
    ensures x !in l.contests
  {
    assert RowOk(l, x, rows[x]);
  }

  lemma LiveUsedEnds(rows: Rows, nextId: Id, l: Ledger, x: Id)
    requires Inv(rows, nextId, l) && x in rows && rows[x].Live() && x in l.used
    ensures EndsPath(l, RootOf(l, x), x)
  {
    LiveHasNoKids(rows, nextId, l, x);
    forall u | u in l.used && RootOf(l, u) == RootOf(l, x) ensures Above(l, u, x) {
      OnePath(l, nextId, u, x);
      if !Above(l, u, x) { var c := ChildTowards(l, nextId, x, u); }
    }
  }

  lemma OpenTokenEnds(l: Ledger, nextId: Id, p: Id)
    requires LedgerOk(l, nextId) && p in l.contests && l.contests[p].fate.Open?
    ensures EndsPath(l, RootOf(l, p), p)
  {
    assert FateOk(l, l.contests[p]) && p in l.used;
    forall u | u in l.used && RootOf(l, u) == RootOf(l, p) ensures Above(l, u, p) {
      OnePath(l, nextId, u, p);
      if !Above(l, u, p) {
        var c := ChildTowards(l, nextId, p, u);
        AboveUsed(l, nextId, c, u);
      }
    }
  }

  lemma {:induction false} AboveAntisymmetric(l: Ledger, a: Id, b: Id)
    requires Above(l, a, b)
    ensures a <= b
    decreases b
  {
    if a != b { AboveAntisymmetric(l, a, l.parent[b]); }
  }

  lemma EndIsUnique(l: Ledger, root: Id, a: Id, b: Id)
    requires EndsPath(l, root, a) && EndsPath(l, root, b)
    ensures a == b
  {
    AboveAntisymmetric(l, a, b);
    AboveAntisymmetric(l, b, a);
  }

  /** A live session is the end of the used path, an unused sign-in, or a contender for an open token. */
  lemma LiveKinds(rows: Rows, nextId: Id, l: Ledger, x: Id)
    requires Inv(rows, nextId, l) && x in rows && rows[x].Live()
    ensures x !in l.contests
    ensures x !in l.used && x !in l.parent ==> RootOf(l, x) == x
    ensures x !in l.used && x in l.parent ==>
              Contesting(l, x) && x in Standing(l.contests[l.parent[x]].kids) && RootOf(l, l.parent[x]) == RootOf(l, x)
  {
    LiveHasNoKids(rows, nextId, l, x);
    LiveFacts(rows, nextId, l, x);
    if x in l.parent { ParentBelow(l, nextId, x); }
  }

  lemma UnusedRootAlone(l: Ledger, nextId: Id, root: Id, y: Id)
    requires TreeOk(l, nextId) && root !in l.used && RootOf(l, y) == root
    ensures y == root
  {
    RootIsAbove(l, y);
    if y != root { var c := ChildTowards(l, nextId, root, y); }
  }

  ghost predicate SoleUsed(l: Ledger, live: set<Id>, root: Id) {
    exists x :: x in l.used && live == {x} && EndsPath(l, root, x)
  }

  /** The last `n` of the sessions a token was rotated into, or all if there are fewer. */
  ghost function Newest(kids: seq<Id>, n: nat): set<Id> { set i | 0 <= i < |kids| && |kids| - n <= i :: kids[i] }

  lemma StandingAreNewest(kids: seq<Id>)
    ensures Members(Standing(kids)) == Newest(kids, 16)
  {
    var st := Standing(kids);
    var cut := |kids| - |st|;
    forall x | x in Members(st) ensures x in Newest(kids, 16) {
      var i :| 0 <= i < |st| && st[i] == x;
      assert kids[cut + i] == x;
    }
    forall x | x in Newest(kids, 16) ensures x in Members(st) {
      var i :| 0 <= i < |kids| && |kids| - 16 <= i && kids[i] == x;
      assert st[i - cut] == x;
    }
  }

  ghost predicate OpenContenders(l: Ledger, live: set<Id>, root: Id) {
    exists p :: p in l.contests && l.contests[p].fate.Open? && EndsPath(l, root, p)
                && live == Newest(l.contests[p].kids, 16) && live !! l.used && |live| <= 16
  }

  lemma ContendersAre(rows: Rows, nextId: Id, l: Ledger, p: Id)
    requires Inv(rows, nextId, l) && p in l.contests && l.contests[p].fate.Open?
    ensures LiveOf(rows, l, RootOf(l, p)) == Members(Standing(l.contests[p].kids))
  {
    var root := RootOf(l, p);
    var st := Standing(l.contests[p].kids);
    assert KidsOk(l, p) && FateOk(l, l.contests[p]);
    StandingFacts(l.contests[p].kids);
    OpenTokenEnds(l, nextId, p);
    forall x | x in Members(st) ensures x in LiveOf(rows, l, root) {
      OpenRing(rows, nextId, l, p, x);
      ParentBelow(l, nextId, x);
    }
    forall x | x in LiveOf(rows, l, root) ensures x in Members(st) {
      LiveKinds(rows, nextId, l, x);
      if x in l.used {
        LiveUsedEnds(rows, nextId, l, x);
        EndIsUnique(l, root, x, p);
      } else if x in l.parent {
        OpenTokenEnds(l, nextId, l.parent[x]);
        EndIsUnique(l, root, l.parent[x], p);
      } else {
        UnusedRootAlone(l, nextId, x, p);
      }
    }
  }

  lemma ContendersStand(rows: Rows, nextId: Id, l: Ledger, p: Id)
    requires Inv(rows, nextId, l) && p in l.contests && l.contests[p].fate.Open?
    ensures OpenContenders(l, LiveOf(rows, l, RootOf(l, p)), RootOf(l, p))
  {
    var kids := l.contests[p].kids;
    ContendersAre(rows, nextId, l, p);
    OpenTokenEnds(l, nextId, p);
    assert KidsOk(l, p) && FateOk(l, l.contests[p]);
    StandingFacts(kids);
    MembersSize(Standing(kids));
    StandingAreNewest(kids);
  }

  lemma SoleUsedAre(rows: Rows, nextId: Id, l: Ledger, x: Id)
    requires Inv(rows, nextId, l) && x in rows && rows[x].Live() && x in l.used
    ensures LiveOf(rows, l, RootOf(l, x)) == {x}
  {
    var root := RootOf(l, x);
    LiveUsedEnds(rows, nextId, l, x);
    LiveHasNoKids(rows, nextId, l, x);
    forall y | y in LiveOf(rows, l, root) ensures y == x {
      LiveKinds(rows, nextId, l, y);
      if y in l.used {
        LiveUsedEnds(rows, nextId, l, y);
        EndIsUnique(l, root, x, y);
      } else if y in l.parent {
        OpenTokenEnds(l, nextId, l.parent[y]);
        EndIsUnique(l, root, x, l.parent[y]);
      } else {
        UnusedRootAlone(l, nextId, y, x);
      }
    }
  }

  /** The live sessions of any sign-in, in any state the invariant allows. */
  lemma LiveSessionsOfLineage(rows: Rows, nextId: Id, l: Ledger, root: Id)
    requires Inv(rows, nextId, l)
    ensures var live := LiveOf(rows, l, root);
            live == {} || (live == {root} && root !in l.used) || SoleUsed(l, live, root)
                || OpenContenders(l, live, root)
  {
    var live := LiveOf(rows, l, root);
    if live != {} {
      var x :| x in live;
      LiveKinds(rows, nextId, l, x);
      if x in l.used {
        SoleUsedAre(rows, nextId, l, x);
        LiveUsedEnds(rows, nextId, l, x);
      } else if x in l.parent {
        ContendersStand(rows, nextId, l, l.parent[x]);
      } else {
        forall y | y in live ensures y == root { UnusedRootAlone(l, nextId, root, y); }
        assert live == {root};
      }
    }
  }

  /* ----- Whole-run safety ----- */

  /** In every reachable state: one path of used sessions, and live sessions as the protocol says. */
  lemma ReachableLineages(cfg: Config, states: seq<State>, ledgers: seq<Ledger>, actions: seq<Action>, i: nat, root: Id)
    requires Run(cfg, states, ledgers, actions) && i < |states|
    ensures var l, live := ledgers[i], LiveOf(states[i].rows, ledgers[i], root);
            && (forall a, b :: a in l.used && b in l.used && RootOf(l, a) == root == RootOf(l, b) ==>
                Above(l, a, b) || Above(l, b, a))
            && (forall a, b :: b in l.used && RootOf(l, b) == root && Above(l, a, b) ==> a in l.used)
            && (live == {} || (live == {root} && root !in l.used) || SoleUsed(l, live, root)
                || OpenContenders(l, live, root))
            && |live * l.used| <= 1
  {
    var l := ledgers[i];
    RunKeeps(cfg, states, ledgers, actions, i);
    forall a, b | a in l.used && b in l.used && RootOf(l, a) == root == RootOf(l, b)
      ensures Above(l, a, b) || Above(l, b, a) {
      OnePath(l, states[i].nextId, a, b);
    }
    forall a, b | b in l.used && Above(l, a, b) ensures a in l.used { AboveUsed(l, states[i].nextId, a, b); }
    LiveSessionsOfLineage(states[i].rows, states[i].nextId, l, root);
    var live := LiveOf(states[i].rows, l, root);
    if SoleUsed(l, live, root) {
      var x :| x in l.used && live == {x};
      assert live * l.used == {x};
    } else {
      assert live * l.used == {};
    }
  }

  /** Once a session a token was rotated into has been used, the token is refused for good. */
  lemma RefusedOnceUsed(cfg: Config, states: seq<State>, ledgers: seq<Ledger>, actions: seq<Action>,
                        i: nat, j: nat, token: Id, kid: Id, active: bool, newId: Id, now: int)
    requires Run(cfg, states, ledgers, actions) && i <= j < |states|
    requires kid in ledgers[i].parent && ledgers[i].parent[kid] == token && kid in ledgers[i].used
    requires newId !in states[j].rows
    ensures !Refresh(cfg, states[j].rows, token, active, newId, now).1.Issued?
  {
    RunGrows(cfg, states, ledgers, actions, i, j);
    RunKeeps(cfg, states, ledgers, actions, j);
    var s, l := states[j], ledgers[j];
    assert FateOk(l, l.contests[token]);
    if token in s.rows { assert RowOk(l, token, s.rows[token]); }
    RefreshDecides(cfg, s.rows, s.nextId, l, token, active, newId, now);
  }

  /** A superseded session lost to a used sibling or to at least `KEPT` younger ones, and is never used or rotated. */
  lemma SupersededForGood(cfg: Config, states: seq<State>, ledgers: seq<Ledger>, actions: seq<Action>,
                          i: nat, j: nat, id: Id, active: bool, newId: Id, now: int)
    requires Run(cfg, states, ledgers, actions) && i <= j < |states|
    requires id in states[i].rows && states[i].rows[id].reason == Some(Superseded)
    requires newId !in states[j].rows
    ensures id in ledgers[i].parent && ledgers[i].parent[id] in ledgers[i].contests
    ensures var kids := ledgers[i].contests[ledgers[i].parent[id]].kids;
            (exists w :: w in kids && w != id && w in ledgers[i].used) || Crowded(kids, id)
    ensures id !in ledgers[j].used && id !in ledgers[j].contests
    ensures !Refresh(cfg, states[j].rows, id, active, newId, now).1.Issued?
    ensures !Use(states[j].rows, id, active, now).1
  {
    RunKeeps(cfg, states, ledgers, actions, i);
    assert RowOk(ledgers[i], id, states[i].rows[id]) && Justified(ledgers[i], id);
    assert FateOk(ledgers[i], ledgers[i].contests[ledgers[i].parent[id]]);
    RunGrows(cfg, states, ledgers, actions, i, j);
    RunKeeps(cfg, states, ledgers, actions, j);
    var s, l := states[j], ledgers[j];
    if id in s.rows { assert RowOk(l, id, s.rows[id]); }
    assert id in l.contests ==> id in l.used;
    RefreshDecides(cfg, s.rows, s.nextId, l, id, active, newId, now);
  }

  /** A live session that points at another stands in the closed ring of an open token. */
  ghost predicate InRing(rows: Rows, l: Ledger, id: Id) {
    && id in l.parent && l.parent[id] in l.contests && l.contests[l.parent[id]].fate.Open?
    && var st := Standing(l.contests[l.parent[id]].kids);
       && id in st && Increasing(st) && 2 <= |st| <= 16 && Ring(rows, st) && Linked(rows, id) == Members(st)
       && (l.parent[id] in rows ==> rows[l.parent[id]].replacedBy == Some(st[|st| - 1]))
  }

  lemma StandingRing(rows: Rows, l: Ledger, p: Id, id: Id)
    requires p in l.contests && KidsOk(l, p) && ContestOk(rows, l, p) && l.contests[p].fate.Open?
    requires id in Standing(l.contests[p].kids)
    ensures var st := Standing(l.contests[p].kids);
            && Increasing(st) && |st| <= KEPT && Ring(rows, st) && Linked(rows, id) == Members(st)
            && (rows[id].replacedBy.Some? ==> 2 <= |st|)
            && (p in rows ==> rows[p].replacedBy == Some(st[|st| - 1]))
  {
    var st := Standing(l.contests[p].kids);
    StandingFacts(l.contests[p].kids);
    var k :| 0 <= k < |st| && st[k] == id;
    assert rows[st[k]].replacedBy == After(st, k);
    LinkedIsRing(rows, st, k);
  }

  lemma PointingIsInRing(rows: Rows, nextId: Id, l: Ledger, id: Id)
    requires Inv(rows, nextId, l) && id in rows && rows[id].Live() && rows[id].replacedBy.Some?
    ensures InRing(rows, l, id)
  {
    LiveFacts(rows, nextId, l, id);
    var p := l.parent[id];
    assert KidsOk(l, p) && ContestOk(rows, l, p);
    StandingRing(rows, l, p, id);
  }

  /** In any reachable state the links of the live sessions are exactly the rings of the open tokens. */
  lemma RingsInReachableStates(cfg: Config, states: seq<State>, ledgers: seq<Ledger>, actions: seq<Action>, i: nat,
      id: Id)
    requires Run(cfg, states, ledgers, actions) && i < |states|
    requires id in states[i].rows && states[i].rows[id].Live() && states[i].rows[id].replacedBy.Some?
    ensures InRing(states[i].rows, ledgers[i], id)
  {
    RunKeeps(cfg, states, ledgers, actions, i);
    PointingIsInRing(states[i].rows, states[i].nextId, ledgers[i], id);
  }
}
