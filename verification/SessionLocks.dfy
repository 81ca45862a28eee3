/**
 Refreshes and first uses as transactions that interleave: each reads the
 sessions linked to its own, locks them one by one, reads again, and commits
 once its reads find nothing unlocked. Locks are held to the end.
 */
module SessionLocks {
  import opened Sequences
  import opened SessionRows
  import opened SessionLedger
  import opened SessionRuns
  import opened SessionLineage
  import opened SessionLinks
  import opened SessionKin

  datatype Kind = Refreshing | FirstUse

  /** Look: about to read the links. Queue: locking what the read found. Alone: locking just its own row. */
  datatype Phase = Look | Queue | Alone | Ready

  datatype Tx = Tx(kind: Kind, id: Id, phase: Phase, held: set<Id>, todo: seq<Id>)

  /** `serial` is the next number of the id sequence; `drawn` what transactions have taken from it and not committed. */
  datatype Sys = Sys(db: State, ledger: Ledger, txs: map<nat, Tx>, serial: Id, drawn: map<nat, Id>)

  predicate Free(sys: Sys, t: nat, id: Id) {
    forall u :: u in sys.txs && u != t ==> id !in sys.txs[u].held
  }

  /* ----- The steps ----- */

  /** A refresh finds its row; a first use reads its row, live and unused. */
  ghost predicate Begin(sys: Sys, sys': Sys, t: nat, kind: Kind, id: Id) {
    && t !in sys.txs && id in sys.db.rows
    && (kind.FirstUse? ==> Waiting(sys.db.rows, id))
    && sys' == sys.(txs := sys.txs[t :=
         if kind.FirstUse? && sys.db.rows[id].replacedBy.None?
         then Tx(kind, id, Alone, {}, [id])
         else Tx(kind, id, Look, {}, [])])
  }

  ghost predicate Read(sys: Sys, sys': Sys, t: nat) {
    t in sys.txs && sys.txs[t].phase.Look? && sys' == sys.(txs := sys.txs[t := AfterRead(sys.db, sys.txs[t])])
  }

  /** What is linked to the row and not locked yet is to be locked, in id order. */
  ghost function AfterRead(db: State, tx: Tx): Tx {
    var missing := Linked(db.rows, tx.id) - tx.held;
    tx.(phase := if missing == {} then Ready else Queue, todo := Sorted(missing))
  }

  /** The next lock is granted; a first use that locked its own row reads it again. */
  ghost predicate Lock(sys: Sys, sys': Sys, t: nat) {
    && t in sys.txs && sys.txs[t].todo != [] && Free(sys, t, sys.txs[t].todo[0])
    && var tx := sys.txs[t];
       var got := tx.(held := tx.held + {tx.todo[0]}, todo := tx.todo[1..]);
       if got.todo != [] then sys' == sys.(txs := sys.txs[t := got])
       else if tx.phase.Queue? then sys' == sys.(txs := sys.txs[t := got.(phase := Look)])
       else if tx.id in sys.db.rows && sys.db.rows[tx.id].Live() then
         sys' == sys.(txs := sys.txs[t := got.(phase := if sys.db.rows[tx.id].replacedBy.None? then Ready else Look)])
       else sys' == sys.(txs := sys.txs - {t})
  }

  predicate Fits(tx: Tx, a: Action) {
    match tx.kind
    case Refreshing => a.Present? && a.token == tx.id
    case FirstUse => a.Request? && a.id == tx.id
  }

  ghost predicate Issues(cfg: Config, db: State, a: Action) {
    a.Present? && a.newId !in db.rows && Refresh(cfg, db.rows, a.token, a.userActive, a.newId, a.now).1.Issued?
  }

  /** A refresh that holds its locks and is let through takes the new session's id. */
  ghost predicate Draw(sys: Sys, sys': Sys, t: nat) {
    && t in sys.txs && t !in sys.drawn && sys.txs[t].phase.Ready? && sys.txs[t].kind.Refreshing?
    && WouldIssue(sys.db.rows, sys.txs[t].id)
    && sys' == sys.(serial := sys.serial + 1, drawn := sys.drawn[t := sys.serial])
  }

  ghost predicate Commit(cfg: Config, sys: Sys, sys': Sys, t: nat, a: Action) {
    && t in sys.txs && sys.txs[t].phase.Ready? && Fits(sys.txs[t], a) && Enabled(cfg, sys.db, sys.ledger, a)
    && (Issues(cfg, sys.db, a) ==> t in sys.drawn && sys.drawn[t] == a.newId)
    && sys' == Sys(Next(cfg, sys.db, sys.ledger, a), Recorded(cfg, sys.db, sys.ledger, a), sys.txs - {t},
                   sys.serial, sys.drawn - {t})
  }

  /** A transaction that fails releases its locks, and its id is lost. */
  ghost predicate Abort(sys: Sys, sys': Sys, t: nat) {
    t in sys.txs && sys' == sys.(txs := sys.txs - {t}, drawn := sys.drawn - {t})
  }

  /**
   Any other transaction, which waits for the locks of the rows it writes. A sign-in drew its id at any time
   before.
   */
  ghost predicate Other(cfg: Config, sys: Sys, sys': Sys, a: Action) {
    && !a.Present? && !a.Request? && Enabled(cfg, sys.db, sys.ledger, a)
    && (a.SignIn? ==> a.newId !in sys.drawn.Values)
    && sys' == Sys(Next(cfg, sys.db, sys.ledger, a), Recorded(cfg, sys.db, sys.ledger, a), sys.txs,
                   if a.SignIn? then Raised(sys.serial, a.newId) else sys.serial, sys.drawn)
    && forall t, id :: t in sys.txs && id in sys.txs[t].held ==> Same(sys.db.rows, sys'.db.rows, id)
  }

  ghost predicate SysStep(cfg: Config, sys: Sys, sys': Sys) {
    || (exists t, kind, id :: Begin(sys, sys', t, kind, id))
    || (exists t :: Read(sys, sys', t))
    || (exists t :: Lock(sys, sys', t))
    || (exists t :: Draw(sys, sys', t))
    || (exists t, a :: Commit(cfg, sys, sys', t, a))
    || (exists t :: Abort(sys, sys', t))
    || (exists a :: Other(cfg, sys, sys', a))
  }

  /* ----- The invariant ----- */

  /** What the transaction has locked or is about to lock. */
  predicate Claims(tx: Tx, x: Id) { x in tx.held || x in tx.todo }

  predicate Upward(tx: Tx) { Increasing(tx.todo) && forall h, k :: h in tx.held && k in tx.todo ==> h < k }

  /** Locks are taken upwards, within a lineage, and whatever a later read adds is above them all. */
  ghost predicate Ordered(db: State, l: Ledger, tx: Tx) {
    && Known(l, tx.id) && Upward(tx)
    && (forall x :: Claims(tx, x) ==> Known(l, x) && RootOf(l, x) == RootOf(l, tx.id))
    && (forall x, y :: x in Linked(db.rows, tx.id) && !Claims(tx, x) && Claims(tx, y) ==> y < x)
  }

  ghost predicate TxOk(db: State, l: Ledger, tx: Tx) {
    && Ordered(db, l, tx)
    && (tx.phase.Look? || tx.phase.Ready? ==> tx.todo == [])
    && (tx.phase.Ready? ==> Linked(db.rows, tx.id) <= tx.held)
    && (tx.phase.Alone? ==> tx.kind.FirstUse? && tx.held == {} && tx.todo == [tx.id])
  }

  ghost predicate SysOk(sys: Sys) {
    && StateOk(sys.db, sys.ledger)
    && NoDangling(sys.db.rows) && LinksStayHome(sys.db.rows, sys.ledger)
    && LocksOk(sys) && NumbersOk(sys)
  }

  /** An id drawn is above all of its lineage. */
  ghost predicate DrawnOk(db: State, l: Ledger, tx: Tx, n: Id) {
    && tx.phase.Ready? && tx.kind.Refreshing? && WouldIssue(db.rows, tx.id) && !Known(l, n)
    && forall x: Id :: Known(l, x) && RootOf(l, x) == RootOf(l, tx.id) ==> x < n
  }

  ghost predicate NumbersOk(sys: Sys) {
    && (forall x: Id :: Known(sys.ledger, x) ==> x < sys.serial)
    && (forall t :: t in sys.drawn ==>
          t in sys.txs && sys.drawn[t] < sys.serial && DrawnOk(sys.db, sys.ledger, sys.txs[t], sys.drawn[t]))
    && (forall t, u :: t in sys.drawn && u in sys.drawn && t != u ==> sys.drawn[t] != sys.drawn[u])
  }

  /** Ids may commit out of order, but not within a lineage. */
  ghost predicate InOrder(cfg: Config, s: State, l: Ledger, a: Action) {
    Issues(cfg, s, a) ==> forall x: Id :: Known(l, x) && RootOf(l, x) == RootOf(l, a.token) ==> x < a.newId
  }

  ghost predicate LocksOk(sys: Sys) {
    && (forall t :: t in sys.txs ==> TxOk(sys.db, sys.ledger, sys.txs[t]))
    && (forall t, u :: t in sys.txs && u in sys.txs && t != u ==> sys.txs[t].held !! sys.txs[u].held)
  }

  lemma LinkedIsLocal(rows: Rows, rows': Rows, id: Id, held: set<Id>)
    requires NoDangling(rows) && (id in rows' ==> id in rows)
    requires Linked(rows, id) <= held && (forall x :: x in held ==> Same(rows, rows', x))
    ensures Linked(rows', id) == Linked(rows, id)
  {
    if id in rows {
      assert id in Linked(rows, id) by { LinkedIsClosed(rows, id); }
      WalkIsLocal(rows, rows', rows[id].replacedBy, {id}, held);
    }
  }

  lemma NewRowsAreNew(cfg: Config, s: State, l: Ledger, a: Action)
    requires Enabled(cfg, s, l, a)
    ensures forall x :: x in Next(cfg, s, l, a).rows ==> x in s.rows || Creates(a, x)
  {
  }

  lemma KnownStays(cfg: Config, s: State, l: Ledger, a: Action, id: Id)
    requires StateOk(s, l) && Enabled(cfg, s, l, a) && Known(l, id)
    ensures Known(Recorded(cfg, s, l, a), id) && RootOf(Recorded(cfg, s, l, a), id) == RootOf(l, id)
    ensures !Creates(a, id)
  {
    StepKeeps(cfg, s, l, a);
    StepGrows(cfg, s, l, a);
    RootStays(l, Recorded(cfg, s, l, a), s.nextId, Next(cfg, s, l, a).nextId, id);
  }

  /** A session just created and linked to the row is above all that was claimed of its lineage. */
  lemma NewIsAbove(cfg: Config, s: State, l: Ledger, a: Action, tx: Tx, x: Id, y: Id)
    requires StateOk(s, l) && NoDangling(s.rows) && LinksStayHome(s.rows, l) && Enabled(cfg, s, l, a)
    requires InOrder(cfg, s, l, a)
    requires Ordered(s, l, tx) && Claims(tx, y)
    requires x in Linked(Next(cfg, s, l, a).rows, tx.id) && x !in Linked(s.rows, tx.id)
    ensures y < x
  {
    var s', l' := Next(cfg, s, l, a), Recorded(cfg, s, l, a);
    NewRowsAreNew(cfg, s, l, a);
    KnownStays(cfg, s, l, a, tx.id);
    StepGrowsLinks(cfg, s, l, a, tx.id);
    StepKeeps(cfg, s, l, a);
    StepStaysHome(cfg, s, l, a);
    LinkedIsClosed(s'.rows, tx.id);
    LinkedAreHome(s'.rows, l', tx.id);
    CreatedLinked(cfg, s, l, a, tx.id, x);
    KnownStays(cfg, s, l, a, a.token);
    NewRoot(cfg, s, l, a);
  }

  /** Only a rotation adds to what is linked to a row. */
  lemma CreatedLinked(cfg: Config, s: State, l: Ledger, a: Action, id: Id, x: Id)
    requires StateOk(s, l) && Enabled(cfg, s, l, a) && Creates(a, x) && Known(l, id)
    requires x in Next(cfg, s, l, a).rows && x in Linked(Next(cfg, s, l, a).rows, id) && NoDangling(s.rows)
    ensures a.Present? && Refresh(cfg, s.rows, a.token, a.userActive, a.newId, a.now).1.Issued?
    ensures a.token in s.rows && Known(l, a.token)
  {
    assert forall y :: y in s.rows ==> RowOk(l, y, s.rows[y]);
    if a.SignIn? && id in s.rows {
      OtherLinks(cfg, s, l, a, id);
      LinkedIsClosed(s.rows, id);
    }
  }

  /** A transaction on other rows leaves this one's standing as it was. */
  lemma TxSurvives(cfg: Config, s: State, l: Ledger, a: Action, tx: Tx)
    requires StateOk(s, l) && NoDangling(s.rows) && LinksStayHome(s.rows, l) && Enabled(cfg, s, l, a)
    requires InOrder(cfg, s, l, a)
    requires TxOk(s, l, tx)
    requires forall x :: x in tx.held ==> Same(s.rows, Next(cfg, s, l, a).rows, x)
    ensures TxOk(Next(cfg, s, l, a), Recorded(cfg, s, l, a), tx)
  {
    var s', l' := Next(cfg, s, l, a), Recorded(cfg, s, l, a);
    KnownStays(cfg, s, l, a, tx.id);
    forall x | Claims(tx, x) ensures Known(l', x) && RootOf(l', x) == RootOf(l', tx.id) { KnownStays(cfg, s, l, a, x); }
    forall x, y | x in Linked(s'.rows, tx.id) && !Claims(tx, x) && Claims(tx, y) ensures y < x {
      if x !in Linked(s.rows, tx.id) { NewIsAbove(cfg, s, l, a, tx, x, y); }
    }
    NewRowsAreNew(cfg, s, l, a);
    if tx.phase.Ready? { LinkedIsLocal(s.rows, s'.rows, tx.id, tx.held); }
  }

  /** What a committing transaction writes, it has locked. */
  lemma CommitWritesHeld(cfg: Config, sys: Sys, t: nat, a: Action, x: Id)
    requires SysOk(sys) && t in sys.txs && sys.txs[t].phase.Ready? && Fits(sys.txs[t], a)
    requires Enabled(cfg, sys.db, sys.ledger, a) && !Creates(a, x) && x !in sys.txs[t].held
    ensures Same(sys.db.rows, Next(cfg, sys.db, sys.ledger, a).rows, x)
  {
    var rows, tx := sys.db.rows, sys.txs[t];
    assert TxOk(sys.db, sys.ledger, tx);
    match a
    case Present(token, active, newId, now) =>
      RefreshWrites(cfg, rows, sys.db.nextId, sys.ledger, token, active, newId, now, x);
    case Request(id, active, now) => UseWrites(rows, id, active, now, x);
  }

  lemma CommitSpares(cfg: Config, sys: Sys, sys': Sys, t: nat, a: Action, u: nat)
    requires SysOk(sys) && Commit(cfg, sys, sys', t, a) && u in sys'.txs && InOrder(cfg, sys.db, sys.ledger, a)
    ensures TxOk(sys'.db, sys'.ledger, sys'.txs[u])
  {
    var tx := sys.txs[u];
    assert TxOk(sys.db, sys.ledger, tx) && tx.held !! sys.txs[t].held;
    forall x | x in tx.held ensures Same(sys.db.rows, sys'.db.rows, x) {
      KnownStays(cfg, sys.db, sys.ledger, a, x);
      CommitWritesHeld(cfg, sys, t, a, x);
    }
    TxSurvives(cfg, sys.db, sys.ledger, a, tx);
  }

  /** What the rows say of a refresh rests on rows it holds. */
  lemma WouldIssueStays(rows: Rows, rows': Rows, id: Id)
    requires WouldIssue(rows, id) && forall x :: x in Linked(rows, id) ==> Same(rows, rows', x)
    ensures WouldIssue(rows', id)
  {
    LinkedIsClosed(rows, id);
  }

  lemma KnownOnly(cfg: Config, s: State, l: Ledger, a: Action, x: Id)
    requires Enabled(cfg, s, l, a) && Known(Recorded(cfg, s, l, a), x) && !Known(l, x)
    ensures Creates(a, x) && (a.SignIn? || Issues(cfg, s, a))
  {
  }

  /** Two refreshes that hold their locks and are let through are of different lineages. */
  lemma DrawnApart(sys: Sys, t: nat, u: nat)
    requires SysOk(sys) && t in sys.txs && u in sys.txs && t != u && sys.txs[t].phase.Ready? && sys.txs[u].phase.Ready?
    requires WouldIssue(sys.db.rows, sys.txs[t].id) && WouldIssue(sys.db.rows, sys.txs[u].id)
    ensures RootOf(sys.ledger, sys.txs[t].id) != RootOf(sys.ledger, sys.txs[u].id)
  {
    assert TxOk(sys.db, sys.ledger, sys.txs[t]) && TxOk(sys.db, sys.ledger, sys.txs[u]);
    assert sys.txs[t].held !! sys.txs[u].held;
    if RootOf(sys.ledger, sys.txs[t].id) == RootOf(sys.ledger, sys.txs[u].id) {
      var y := SameLineageMeets(sys.db.rows, sys.db.nextId, sys.ledger, sys.txs[t].id, sys.txs[u].id);
    }
  }

  /** A drawn id stays above its lineage while another lineage grows. */
  lemma DrawnStays(cfg: Config, s: State, l: Ledger, a: Action, tx: Tx, n: Id)
    requires StateOk(s, l) && Enabled(cfg, s, l, a) && TxOk(s, l, tx) && DrawnOk(s, l, tx, n)
    requires forall x :: x in tx.held ==> Same(s.rows, Next(cfg, s, l, a).rows, x)
    requires a.SignIn? || Issues(cfg, s, a) ==> n != a.newId
    requires Issues(cfg, s, a) ==> RootOf(l, a.token) != RootOf(l, tx.id)
    ensures DrawnOk(Next(cfg, s, l, a), Recorded(cfg, s, l, a), tx, n)
  {
    var l' := Recorded(cfg, s, l, a);
    WouldIssueStays(s.rows, Next(cfg, s, l, a).rows, tx.id);
    KnownStays(cfg, s, l, a, tx.id);
    if Known(l', n) { KnownOnly(cfg, s, l, a, n); }
    forall x: Id | Known(l', x) && RootOf(l', x) == RootOf(l', tx.id) ensures x < n {
      if Known(l, x) { KnownStays(cfg, s, l, a, x); } else { NewElsewhere(cfg, s, l, a, tx.id, x); }
    }
  }

  /** A session just created is of its token's lineage, or starts one. */
  lemma NewElsewhere(cfg: Config, s: State, l: Ledger, a: Action, id: Id, x: Id)
    requires StateOk(s, l) && Enabled(cfg, s, l, a) && Known(l, id)
    requires !Known(l, x) && Known(Recorded(cfg, s, l, a), x)
    requires Issues(cfg, s, a) ==> RootOf(l, a.token) != RootOf(l, id)
    ensures RootOf(Recorded(cfg, s, l, a), x) != RootOf(Recorded(cfg, s, l, a), id)
  {
    KnownOnly(cfg, s, l, a, x);
    KnownStays(cfg, s, l, a, id);
    StepKeeps(cfg, s, l, a);
    if a.Present? {
      assert RowOk(l, a.token, s.rows[a.token]);
      KnownStays(cfg, s, l, a, a.token);
      NewRoot(cfg, s, l, a);
    } else {
      RootIsKnown(l, s.nextId, id);
    }
  }

  lemma CommitNumbers(cfg: Config, sys: Sys, sys': Sys, t: nat, a: Action)
    requires SysOk(sys) && Commit(cfg, sys, sys', t, a)
    ensures NumbersOk(sys') && InOrder(cfg, sys.db, sys.ledger, a)
  {
    forall x: Id | Known(sys'.ledger, x) ensures x < sys'.serial {
      if !Known(sys.ledger, x) { KnownOnly(cfg, sys.db, sys.ledger, a, x); }
    }
    forall u | u in sys'.drawn ensures DrawnOk(sys'.db, sys'.ledger, sys'.txs[u], sys'.drawn[u]) {
      assert TxOk(sys.db, sys.ledger, sys.txs[u]) && sys.txs[u].held !! sys.txs[t].held;
      forall x | x in sys.txs[u].held ensures Same(sys.db.rows, sys'.db.rows, x) {
        KnownStays(cfg, sys.db, sys.ledger, a, x);
        CommitWritesHeld(cfg, sys, t, a, x);
      }
      if Issues(cfg, sys.db, a) { DrawnApart(sys, t, u); }
      DrawnStays(cfg, sys.db, sys.ledger, a, sys.txs[u], sys.drawn[u]);
    }
  }

  lemma CommitKeeps(cfg: Config, sys: Sys, sys': Sys, t: nat, a: Action)
    requires SysOk(sys) && Commit(cfg, sys, sys', t, a)
    ensures SysOk(sys')
  {
    CommitNumbers(cfg, sys, sys', t, a);
    StepKeeps(cfg, sys.db, sys.ledger, a);
    StepLinks(cfg, sys.db, sys.ledger, a);
    StepStaysHome(cfg, sys.db, sys.ledger, a);
    forall u | u in sys'.txs ensures TxOk(sys'.db, sys'.ledger, sys'.txs[u]) {
      CommitSpares(cfg, sys, sys', t, a, u);
    }
  }

  lemma OtherNumbers(cfg: Config, sys: Sys, sys': Sys, a: Action)
    requires SysOk(sys) && Other(cfg, sys, sys', a)
    ensures NumbersOk(sys')
  {
    forall x: Id | Known(sys'.ledger, x) ensures x < sys'.serial {
      if !Known(sys.ledger, x) { KnownOnly(cfg, sys.db, sys.ledger, a, x); }
    }
    forall u | u in sys'.drawn ensures DrawnOk(sys'.db, sys'.ledger, sys'.txs[u], sys'.drawn[u]) {
      assert TxOk(sys.db, sys.ledger, sys.txs[u]) && sys.drawn[u] in sys.drawn.Values;
      DrawnStays(cfg, sys.db, sys.ledger, a, sys.txs[u], sys.drawn[u]);
    }
  }

  lemma OtherKeeps(cfg: Config, sys: Sys, sys': Sys, a: Action)
    requires SysOk(sys) && Other(cfg, sys, sys', a)
    ensures SysOk(sys')
  {
    OtherNumbers(cfg, sys, sys', a);
    StepKeeps(cfg, sys.db, sys.ledger, a);
    StepLinks(cfg, sys.db, sys.ledger, a);
    StepStaysHome(cfg, sys.db, sys.ledger, a);
    forall u | u in sys'.txs ensures TxOk(sys'.db, sys'.ledger, sys'.txs[u]) {
      TxSurvives(cfg, sys.db, sys.ledger, a, sys.txs[u]);
    }
  }

  lemma DrawNumbers(sys: Sys, sys': Sys, t: nat)
    requires NumbersOk(sys) && Draw(sys, sys', t)
    ensures NumbersOk(sys')
  {
    forall u | u in sys'.drawn ensures DrawnOk(sys'.db, sys'.ledger, sys'.txs[u], sys'.drawn[u]) {
      if u != t { assert DrawnOk(sys.db, sys.ledger, sys.txs[u], sys.drawn[u]); }
    }
  }

  lemma SameLocks(sys: Sys, sys': Sys)
    requires LocksOk(sys) && sys'.db == sys.db && sys'.ledger == sys.ledger && sys'.txs == sys.txs
    ensures LocksOk(sys')
  {
  }

  lemma DrawKeeps(sys: Sys, sys': Sys, t: nat)
    requires SysOk(sys) && Draw(sys, sys', t)
    ensures SysOk(sys')
  {
    DrawNumbers(sys, sys', t);
    SameLocks(sys, sys');
  }

  /** A transaction that has drawn no id changes nothing about those that are. */
  lemma NumbersStay(sys: Sys, txs: map<nat, Tx>)
    requires NumbersOk(sys) && forall t :: t in sys.drawn ==> t in sys.txs && t in txs && txs[t] == sys.txs[t]
    ensures NumbersOk(sys.(txs := txs))
  {
    forall u | u in sys.drawn ensures DrawnOk(sys.db, sys.ledger, txs[u], sys.drawn[u]) {
      assert DrawnOk(sys.db, sys.ledger, sys.txs[u], sys.drawn[u]);
    }
  }

  /** One transaction moves on; the others stand as they did. */
  lemma OneMovesOn(sys: Sys, t: nat, tx: Tx)
    requires LocksOk(sys) && TxOk(sys.db, sys.ledger, tx)
    requires forall u :: u in sys.txs && u != t ==> tx.held !! sys.txs[u].held
    ensures LocksOk(sys.(txs := sys.txs[t := tx]))
  {
  }

  lemma NotReadyStays(sys: Sys, t: nat, txs: map<nat, Tx>)
    requires NumbersOk(sys) && t in sys.txs && !sys.txs[t].phase.Ready?
    requires forall u :: u in sys.txs && u != t ==> u in txs && txs[u] == sys.txs[u]
    ensures NumbersOk(sys.(txs := txs))
  {
    assert t in sys.drawn ==> DrawnOk(sys.db, sys.ledger, sys.txs[t], sys.drawn[t]);
    NumbersStay(sys, txs);
  }

  lemma BegunTxOk(sys: Sys, tx: Tx)
    requires StateOk(sys.db, sys.ledger) && tx.id in sys.db.rows && tx.held == {}
    requires tx.phase.Alone? ==> tx == Tx(FirstUse, tx.id, Alone, {}, [tx.id]) && sys.db.rows[tx.id].replacedBy.None?
    requires !tx.phase.Alone? ==> tx.phase.Look? && tx.todo == []
    ensures TxOk(sys.db, sys.ledger, tx)
  {
    assert RowOk(sys.ledger, tx.id, sys.db.rows[tx.id]);
    assert sys.db.rows[tx.id].replacedBy.None? ==> Linked(sys.db.rows, tx.id) == {tx.id};
  }

  lemma BeginKeeps(sys: Sys, sys': Sys, t: nat, kind: Kind, id: Id)
    requires SysOk(sys) && Begin(sys, sys', t, kind, id)
    ensures SysOk(sys')
  {
    BegunTxOk(sys, sys'.txs[t]);
    OneMovesOn(sys, t, sys'.txs[t]);
    NumbersStay(sys, sys'.txs);
  }

  lemma ReadTxOk(sys: Sys, tx: Tx)
    requires StateOk(sys.db, sys.ledger) && LinksStayHome(sys.db.rows, sys.ledger)
    requires TxOk(sys.db, sys.ledger, tx) && tx.phase.Look?
    ensures TxOk(sys.db, sys.ledger, AfterRead(sys.db, tx))
  {
    LinkedAreHome(sys.db.rows, sys.ledger, tx.id);
    var missing := Linked(sys.db.rows, tx.id) - tx.held;
    assert forall k :: k in Sorted(missing) <==> k in missing;
    forall h, k | h in tx.held && k in Sorted(missing) ensures h < k { assert Claims(tx, h) && !Claims(tx, k); }
  }

  lemma ReadKeeps(sys: Sys, sys': Sys, t: nat)
    requires SysOk(sys) && Read(sys, sys', t)
    ensures SysOk(sys')
  {
    assert TxOk(sys.db, sys.ledger, sys.txs[t]);
    ReadTxOk(sys, sys.txs[t]);
    OneMovesOn(sys, t, AfterRead(sys.db, sys.txs[t]));
    NotReadyStays(sys, t, sys'.txs);
  }

  function Granted(tx: Tx): Tx
    requires tx.todo != []
  {
    tx.(held := tx.held + {tx.todo[0]}, todo := tx.todo[1..])
  }

  lemma GrantedUpward(tx: Tx)
    requires Upward(tx) && tx.todo != []
    ensures Upward(Granted(tx)) && forall x :: Claims(Granted(tx), x) <==> Claims(tx, x)
  {
    var head := tx.todo[0];
    assert head in tx.todo;
    forall k ensures k in tx.todo[1..] <==> k in tx.todo && k != head { TailMembers(tx.todo, k); }
    forall h, k | h in tx.held + {head} && k in tx.todo[1..] ensures h < k {
      var n :| 0 <= n < |tx.todo| - 1 && tx.todo[1..][n] == k;
      assert tx.todo[n + 1] == k;
    }
  }

  lemma GrantedOrdered(db: State, l: Ledger, tx: Tx)
    requires Ordered(db, l, tx) && tx.todo != []
    ensures Ordered(db, l, Granted(tx))
  {
    GrantedUpward(tx);
  }

  lemma LockedTxOk(sys: Sys, sys': Sys, t: nat)
    requires t in sys.txs && TxOk(sys.db, sys.ledger, sys.txs[t]) && Lock(sys, sys', t) && t in sys'.txs
    ensures TxOk(sys'.db, sys'.ledger, sys'.txs[t])
  {
    var tx := sys.txs[t];
    GrantedOrdered(sys.db, sys.ledger, tx);
    assert forall x :: Claims(sys'.txs[t], x) <==> Claims(Granted(tx), x);
    if tx.phase.Alone? {
      assert tx.todo == [tx.id] && tx.todo[1..] == [];
      assert tx.id in sys.db.rows && sys.db.rows[tx.id].replacedBy.None? ==> Linked(sys.db.rows, tx.id) == {tx.id};
    }
  }

  lemma FewerLocks(sys: Sys, t: nat)
    requires LocksOk(sys)
    ensures LocksOk(sys.(txs := sys.txs - {t}))
  {
  }

  lemma LockMovesOn(sys: Sys, sys': Sys, t: nat)
    requires LocksOk(sys) && Lock(sys, sys', t)
    ensures LocksOk(sys') && !sys.txs[t].phase.Ready?
  {
    assert TxOk(sys.db, sys.ledger, sys.txs[t]);
    if t in sys'.txs {
      LockedTxOk(sys, sys', t);
      assert sys'.txs[t].held == sys.txs[t].held + {sys.txs[t].todo[0]};
      OneMovesOn(sys, t, sys'.txs[t]);
    } else {
      FewerLocks(sys, t);
    }
  }

  lemma LockKeeps(sys: Sys, sys': Sys, t: nat)
    requires SysOk(sys) && Lock(sys, sys', t)
    ensures SysOk(sys')
  {
    LockMovesOn(sys, sys', t);
    LockLeaves(sys, sys', t);
    NotReadyStays(sys, t, sys'.txs);
  }

  lemma LockLeaves(sys: Sys, sys': Sys, t: nat)
    requires Lock(sys, sys', t)
    ensures t in sys.txs && sys' == sys.(txs := sys'.txs)
    ensures forall u :: u in sys.txs && u != t ==> u in sys'.txs && sys'.txs[u] == sys.txs[u]
  {
  }

  lemma AbortKeeps(sys: Sys, sys': Sys, t: nat)
    requires SysOk(sys) && Abort(sys, sys', t)
    ensures SysOk(sys')
  {
    AbortMovesOn(sys, sys', t);
  }

  lemma AbortMovesOn(sys: Sys, sys': Sys, t: nat)
    requires LocksOk(sys) && NumbersOk(sys) && Abort(sys, sys', t)
    ensures LocksOk(sys') && NumbersOk(sys')
  {
    forall u | u in sys'.drawn ensures DrawnOk(sys'.db, sys'.ledger, sys'.txs[u], sys'.drawn[u]) {
      assert DrawnOk(sys.db, sys.ledger, sys.txs[u], sys.drawn[u]);
    }
  }

  lemma SysKeeps(cfg: Config, sys: Sys, sys': Sys)
    requires SysOk(sys) && SysStep(cfg, sys, sys')
    ensures SysOk(sys')
  {
    if t, kind, id :| Begin(sys, sys', t, kind, id) { BeginKeeps(sys, sys', t, kind, id); }
    else if t :| Read(sys, sys', t) { ReadKeeps(sys, sys', t); }
    else if t :| Lock(sys, sys', t) { LockKeeps(sys, sys', t); }
    else if t :| Draw(sys, sys', t) { DrawKeeps(sys, sys', t); }
    else if t, a :| Commit(cfg, sys, sys', t, a) { CommitKeeps(cfg, sys, sys', t, a); }
    else if t :| Abort(sys, sys', t) { AbortKeeps(sys, sys', t); }
    else if a :| Other(cfg, sys, sys', a) { OtherKeeps(cfg, sys, sys', a); }
  }

  ghost predicate SysRun(cfg: Config, run: seq<Sys>) {
    && run != [] && run[0] == Sys(State(map[], 0), NoSessions, map[], 0, map[])
    && forall i :: 0 <= i < |run| - 1 ==> SysStep(cfg, run[i], run[i + 1])
  }

  lemma {:induction false} SysRunKeeps(cfg: Config, run: seq<Sys>, i: nat)
    requires SysRun(cfg, run) && i < |run|
    ensures SysOk(run[i])
  {
    if i > 0 {
      SysRunKeeps(cfg, run, i - 1);
      assert SysStep(cfg, run[i - 1], run[i - 1 + 1]);
      SysKeeps(cfg, run[i - 1], run[i]);
    }
  }

  /* ----- What it comes to ----- */

  /** Every lock a transaction is about to take is above every lock it holds. */
  lemma LocksGoUp(cfg: Config, run: seq<Sys>, i: nat, t: nat)
    requires SysRun(cfg, run) && i < |run| && t in run[i].txs
    ensures var tx := run[i].txs[t];
            && Upward(tx)
            && (tx.phase.Look? ==>
                  forall h, k :: h in tx.held && k in Linked(run[i].db.rows, tx.id) - tx.held ==> h < k)
  {
    SysRunKeeps(cfg, run, i);
    var tx := run[i].txs[t];
    assert TxOk(run[i].db, run[i].ledger, tx);
    if tx.phase.Look? {
      forall h, k | h in tx.held && k in Linked(run[i].db.rows, tx.id) - tx.held ensures h < k {
        assert Claims(tx, h) && !Claims(tx, k);
      }
    }
  }

  /** A first use that holds only its own row and finds it in a ring holds the oldest of the ring. */
  lemma FirstUseLocksOldest(cfg: Config, run: seq<Sys>, i: nat, t: nat, x: Id)
    requires SysRun(cfg, run) && i < |run| && t in run[i].txs
    requires run[i].txs[t].kind.FirstUse? && run[i].txs[t].phase.Look? && run[i].txs[t].held == {run[i].txs[t].id}
    requires x in Linked(run[i].db.rows, run[i].txs[t].id)
    ensures run[i].txs[t].id <= x
  {
    SysRunKeeps(cfg, run, i);
    var tx := run[i].txs[t];
    assert TxOk(run[i].db, run[i].ledger, tx) && Claims(tx, tx.id);
    assert Claims(tx, x) <==> x == tx.id;
  }

  ghost predicate WaitsIn(sys: Sys, waiting: set<nat>, t: nat) {
    && t in sys.txs && sys.txs[t].todo != []
    && exists u :: u in waiting && u in sys.txs && sys.txs[t].todo[0] in sys.txs[u].held
  }

  lemma {:induction false} HighestWaiter(sys: Sys, waiting: set<nat>) returns (t: nat)
    requires waiting != {} && forall u :: u in waiting ==> u in sys.txs && sys.txs[u].todo != []
    ensures t in waiting && forall u :: u in waiting ==> sys.txs[u].todo[0] <= sys.txs[t].todo[0]
    decreases waiting
  {
    t :| t in waiting;
    if waiting != {t} {
      var u := HighestWaiter(sys, waiting - {t});
      if sys.txs[t].todo[0] < sys.txs[u].todo[0] { t := u; }
    }
  }

  lemma HeldIsBelow(tx: Tx, h: Id)
    requires Upward(tx) && tx.todo != [] && h in tx.held
    ensures h < tx.todo[0]
  {
    assert tx.todo[0] in tx.todo;
  }

  lemma SomeoneMoves(sys: Sys, waiting: set<nat>)
    requires (forall t :: t in sys.txs ==> Upward(sys.txs[t])) && waiting != {}
    ensures exists t :: t in waiting && !WaitsIn(sys, waiting, t)
  {
    if forall u :: u in waiting ==> u in sys.txs && sys.txs[u].todo != [] {
      var t := HighestWaiter(sys, waiting);
      forall u | u in waiting ensures sys.txs[t].todo[0] !in sys.txs[u].held {
        forall h | h in sys.txs[u].held ensures h < sys.txs[t].todo[0] { HeldIsBelow(sys.txs[u], h); }
      }
      assert !WaitsIn(sys, waiting, t);
    } else {
      var t :| t in waiting && !(t in sys.txs && sys.txs[t].todo != []);
      assert !WaitsIn(sys, waiting, t);
    }
  }

  /** No set of transactions waits only for locks held within the set. */
  lemma NoDeadlock(cfg: Config, run: seq<Sys>, i: nat, waiting: set<nat>)
    requires SysRun(cfg, run) && i < |run| && waiting != {}
    ensures exists t :: t in waiting && !WaitsIn(run[i], waiting, t)
  {
    SysRunKeeps(cfg, run, i);
    forall t | t in run[i].txs ensures Upward(run[i].txs[t]) { assert TxOk(run[i].db, run[i].ledger, run[i].txs[t]); }
    SomeoneMoves(run[i], waiting);
  }
}
