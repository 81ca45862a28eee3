/** Whole runs of the session table: every interleaving of committed transactions. */
module SessionRuns {
  import opened Options
  import opened SessionRows
  import opened SessionLedger
  import opened SessionSteps

  datatype State = State(rows: Rows, nextId: Id)

  /** One committed transaction. Clocks are read afresh by each, in no assumed order. */
  datatype Action =
    | SignIn(user: nat, device: nat, newId: Id, now: int)
    | Present(token: Id, userActive: bool, newId: Id, now: int)
    | Request(id: Id, userActive: bool, now: int)
    | SignOut(id: Id, now: int)
    | RemoveDevice(device: nat, now: int)
    | DropDevice(device: nat)
    | RemoveUser(user: nat)
    | Purge(ids: set<Id>, now: int)

  /**
   Ids come from a sequence but may commit out of its order; a rotation's is taken with the token's contest
   locked, so it is above the ids in it. A sign-out follows a recorded use; a purge takes prunable rows.
   */
  ghost predicate Enabled(cfg: Config, s: State, l: Ledger, a: Action) {
    match a
    case SignIn(_, _, newId, _) => !Known(l, newId)
    case Present(token, _, newId, _) =>
      newId !in s.rows && !Known(l, newId) && (token in s.rows ==> NewFor(l, token, newId))
    case SignOut(id, _) => id in l.used
    case Purge(ids, now) => forall id :: id in ids ==> id in s.rows && Prunable(s.rows[id], now - cfg.retention)
    case _ => true
  }

  ghost function Next(cfg: Config, s: State, l: Ledger, a: Action): State
    requires Enabled(cfg, s, l, a)
  {
    match a
    case SignIn(user, device, newId, now) =>
      State(s.rows[newId := NewSession(user, Some(device), now, cfg.ttl)], Raised(s.nextId, newId))
    case Present(token, active, newId, now) =>
      State(Refresh(cfg, s.rows, token, active, newId, now).0, Raised(s.nextId, newId))
    case Request(id, active, now) => s.(rows := Use(s.rows, id, active, now).0)
    case SignOut(id, now) => s.(rows := LogOut(s.rows, id, now))
    case RemoveDevice(device, now) => s.(rows := RevokeDevice(s.rows, device, now))
    case DropDevice(device) => s.(rows := DetachDevice(s.rows, device))
    case RemoveUser(user) => s.(rows := Delete(s.rows, OfUser(s.rows, user)))
    case Purge(ids, _) => s.(rows := Delete(s.rows, ids))
  }

  /** How the ledger follows a transaction's visible outcome. */
  ghost function Recorded(cfg: Config, s: State, l: Ledger, a: Action): Ledger
    requires Enabled(cfg, s, l, a)
  {
    match a
    case SignIn(_, _, newId, _) => Enroll(l, newId)
    case Present(token, active, newId, now) =>
      var r := Refresh(cfg, s.rows, token, active, newId, now);
      if r.1.Issued? then
        if token in l.contests then Renewed(l, token, newId) else Replaced1(l, token, newId)
      else if token in s.rows && s.rows[token].Live() && !r.0[token].Live() then Close(l, {token})
      else l
    case Request(id, active, now) => if Use(s.rows, id, active, now).1 then MarkUsed(l, id) else l
    case RemoveDevice(device, _) => Close(l, OnDevice(s.rows, device))
    case RemoveUser(user) => Close(l, OfUser(s.rows, user))
    case Purge(ids, _) => Close(l, ids)
    case _ => l
  }

  ghost predicate StateOk(s: State, l: Ledger) { Inv(s.rows, s.nextId, l) }

  lemma RaiseNextId(rows: Rows, nextId: Id, l: Ledger, newId: Id)
    requires Inv(rows, nextId, l)
    ensures Inv(rows, Raised(nextId, newId), l)
  {
    assert forall id: Id :: Known(l, id) ==> id < nextId;
  }

  lemma MarkedReuse(rows: Rows, nextId: Id, l: Ledger, id: Id, now: int)
    requires Inv(rows, nextId, l) && id in rows
    ensures Inv(rows[id := rows[id].(reuseDetectedAt := Some(now))], nextId, l)
  {
    var rows' := rows[id := rows[id].(reuseDetectedAt := Some(now))];
    forall x | x in rows' ensures RowOk(l, x, rows'[x]) { assert RowOk(l, x, rows[x]); }
    forall p | p in l.contests ensures ContestOk(rows', l, p) {
      assert ContestOk(rows, l, p);
      if l.contests[p].fate.Open? && l.contests[p].kids != [] {
        var st := Standing(l.contests[p].kids);
        forall i | 0 <= i < |st| ensures Waiting(rows', st[i]) && rows'[st[i]].replacedBy == After(st, i) {
          assert Waiting(rows, st[i]);
        }
      }
    }
  }

  /** A refresh is let through exactly while its token is live or its contest is open. */
  lemma RefreshDecides(cfg: Config, rows: Rows, nextId: Id, l: Ledger, id: Id, active: bool, newId: Id, now: int)
    requires Inv(rows, nextId, l) && newId !in rows
    ensures Refresh(cfg, rows, id, active, newId, now).1.Issued? <==>
              && active && id in rows && now < rows[id].expiresAt
              && (rows[id].Live() || (id in l.contests && l.contests[id].fate.Open?))
  {
    if id in rows {
      assert RowOk(l, id, rows[id]);
      if id in l.contests {
        assert KidsOk(l, id) && ContestOk(rows, l, id);
        if l.contests[id].fate.Open? {
          StandingFacts(l.contests[id].kids);
          var st := Standing(l.contests[id].kids);
          assert Waiting(rows, st[|st| - 1]);
        } else if MayRotateAgain(rows, id) {
          AgainFacts(rows, nextId, l, id);
        }
      }
    }
  }

  lemma IssuedKeeps(cfg: Config, s: State, l: Ledger, a: Action)
    requires StateOk(s, l) && a.Present? && Enabled(cfg, s, l, a)
    requires Refresh(cfg, s.rows, a.token, a.userActive, a.newId, a.now).1.Issued?
    ensures StateOk(Next(cfg, s, l, a), Recorded(cfg, s, l, a))
  {
    var rows, id, newId, now := s.rows, a.token, a.newId, a.now;
    RefreshDecides(cfg, rows, s.nextId, l, id, a.userActive, newId, now);
    assert RowOk(l, id, rows[id]);
    if rows[id].Live() {
      RotateKeeps(rows, s.nextId, l, id, newId, now, cfg.ttl);
    } else {
      RotateAgainKeeps(rows, s.nextId, l, id, newId, now, cfg.ttl);
    }
  }

  lemma RefusedKeeps(cfg: Config, s: State, l: Ledger, a: Action)
    requires StateOk(s, l) && a.Present? && Enabled(cfg, s, l, a)
    requires !Refresh(cfg, s.rows, a.token, a.userActive, a.newId, a.now).1.Issued?
    ensures StateOk(Next(cfg, s, l, a), Recorded(cfg, s, l, a))
  {
    var rows, id, newId, now := s.rows, a.token, a.newId, a.now;
    var r := Refresh(cfg, rows, id, a.userActive, newId, now);
    if id in rows && rows[id].Live() && !r.0[id].Live() {
      ExpireKeeps(rows, s.nextId, l, id, now);
      RaiseNextId(r.0, s.nextId, Close(l, {id}), newId);
    } else {
      if r.0 != rows { MarkedReuse(rows, s.nextId, l, id, now); }
      RaiseNextId(r.0, s.nextId, l, newId);
    }
  }

  lemma RefreshKeeps(cfg: Config, s: State, l: Ledger, a: Action)
    requires StateOk(s, l) && a.Present? && Enabled(cfg, s, l, a)
    ensures StateOk(Next(cfg, s, l, a), Recorded(cfg, s, l, a))
  {
    if Refresh(cfg, s.rows, a.token, a.userActive, a.newId, a.now).1.Issued? {
      IssuedKeeps(cfg, s, l, a);
    } else {
      RefusedKeeps(cfg, s, l, a);
    }
  }

  /** Every transaction keeps the invariant. */
  lemma StepKeeps(cfg: Config, s: State, l: Ledger, a: Action)
    requires StateOk(s, l) && Enabled(cfg, s, l, a)
    ensures StateOk(Next(cfg, s, l, a), Recorded(cfg, s, l, a))
  {
    match a
    case SignIn(user, device, newId, now) =>
      SignInKeeps(s.rows, s.nextId, l, newId, NewSession(user, Some(device), now, cfg.ttl));
    case Present(_, _, _, _) => RefreshKeeps(cfg, s, l, a);
    case Request(id, active, now) =>
      if Use(s.rows, id, active, now).1 { UseKeeps(s.rows, s.nextId, l, id, now); }
    case SignOut(id, now) => LogOutKeeps(s.rows, s.nextId, l, id, now);
    case RemoveDevice(device, now) => RevokeDeviceKeeps(s.rows, s.nextId, l, device, now);
    case DropDevice(device) => DetachDeviceKeeps(s.rows, s.nextId, l, device);
    case RemoveUser(user) => DeleteUserKeeps(s.rows, s.nextId, l, user);
    case Purge(ids, now) => PruneKeeps(s.rows, s.nextId, l, ids, now - cfg.retention);
  }
}
