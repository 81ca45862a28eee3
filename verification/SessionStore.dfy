/**
 The auth service as it runs: a table whose rows each request updates in place,
 under the locks that `SessionLocks` shows it holds. Every method is proved to do
 what the function of the same transaction in `SessionRows` says.
 */
module SessionStore {
  import opened Options
  import opened Sequences
  import opened SessionRows
  import opened SessionLedger
  import opened SessionSteps
  import opened SessionRuns
  import opened SessionAnswers

  class AuthSessions {
    const cfg: Config
    var rows: Rows
    var nextId: Id

    ghost predicate Valid(l: Ledger)
      reads this
    {
      Inv(rows, nextId, l)
    }

    constructor (cfg: Config)
      ensures this.cfg == cfg && rows == map[] && nextId == 0 && Valid(NoSessions)
    {
      this.cfg := cfg;
      rows, nextId := map[], 0;
    }

    /** The recursive query: a row is followed while the row before it is live. */
    method LinkedIds(id: Id) returns (found: set<Id>)
      requires id in rows
      ensures found == Linked(rows, id)
    {
      found := {id};
      var next, live := rows[id].replacedBy, true;
      while live && next.Some? && next.value in rows && next.value !in found
        invariant id in found
        invariant Linked(rows, id) == found + if live then Walk(rows, next, found) else {}
        decreases rows.Keys - found, live
      {
        var n := next.value;
        assert n in rows.Keys - found;
        found := found + {n};
        next, live := rows[n].replacedBy, rows[n].Live();
      }
    }

    /** One UPDATE: the live unused sessions among `ids` are revoked and returned. */
    method SupersedeAll(ids: set<Id>, winner: Id, now: int) returns (dropped: set<Id>)
      modifies this`rows
      ensures rows == Supersede(old(rows), ids, winner, now)
      ensures dropped == set id | id in ids && id in old(rows) && old(rows)[id].Live() && !old(rows)[id].Used()
    {
      dropped := set id | id in ids && id in rows && rows[id].Live() && !rows[id].Used();
      rows := map id | id in rows ::
        if id in dropped
        then rows[id].(revokedAt := Some(now), reason := Some(Superseded), replacedBy := Some(winner))
        else rows[id];
    }

    method SettleContest(winner: Id, now: int)
      requires winner in rows
      modifies this`rows
      ensures rows == Settle(old(rows), winner, now)
    {
      var linked := LinkedIds(winner);
      var rivals := linked - {winner};
      rows := rows[winner := rows[winner].(replacedBy := None)];
      if rivals == {} {
        assert rows == Supersede(rows, rivals, winner, now);
      } else {
        var _ := SupersedeAll(rivals, winner, now);
      }
    }

    method RotateSession(prior: Id, now: int) returns (newId: Id)
      requires prior in rows && nextId !in rows
      modifies this
      ensures newId == old(nextId) && nextId == newId + 1
      ensures rows == Rotate(old(rows), prior, newId, now, cfg.ttl)
      ensures Unspent(rows[newId], old(rows)[prior].user, old(rows)[prior].device, now + cfg.ttl)
      ensures rows[newId].replacedBy.None? && Spent(old(rows)[prior], rows[prior], newId, now)
    {
      RotateIssues(rows, prior, nextId, now, cfg.ttl);
      if rows[prior].Live() && rows[prior].replacedBy.Some? {
        SettleContest(prior, now);
      }
      newId := nextId;
      nextId := nextId + 1;
      rows := rows[newId := NewSession(rows[prior].user, rows[prior].device, now, cfg.ttl)];
      var o := rows[prior];
      o := o.(revokedAt := Some(now), reason := Some(Rotated));
      o := o.(replacedBy := Some(newId), lastUsedAt := now);
      if o.firstUsedAt.None? {
        o := o.(firstUsedAt := Some(now));
      }
      rows := rows[prior := o];
    }

    method JoinAfter(successor: Id, newId: Id)
      requires successor in rows && newId in rows
      modifies this`rows
      ensures rows == Join(old(rows), successor, newId)
    {
      var next := rows[successor].replacedBy;
      rows := rows[newId := rows[newId].(replacedBy := if next.None? then Some(successor) else next)];
      rows := rows[successor := rows[successor].(replacedBy := Some(newId))];
    }

    method CutRing(ring: seq<Id>, newId: Id, now: int)
      requires newId in rows
      modifies this`rows
      ensures rows == Cut(old(rows), ring, newId, now)
    {
      if |ring| > KEPT {
        var cut := |ring| - KEPT;
        rows := rows[newId := rows[newId].(replacedBy := Some(ring[cut]))];
        var _ := SupersedeAll(Members(ring[..cut]), newId, now);
      }
    }

    method DropOldest(newId: Id, now: int)
      requires newId in rows
      modifies this`rows
      ensures rows == Trim(old(rows), newId, now)
    {
      var linked := LinkedIds(newId);
      CutRing(Sorted(linked), newId, now);
    }

    method RotateTokenAgain(token: Id, now: int) returns (newId: Id)
      requires token in rows && nextId !in rows && !rows[token].Live() && MayRotateAgain(rows, token)
      modifies this
      ensures newId == old(nextId) && nextId == newId + 1
      ensures rows == RotateAgain(old(rows), token, newId, now, cfg.ttl)
    {
      var successor := rows[token].replacedBy.value;
      newId := RotateSession(token, now);
      JoinAfter(successor, newId);
      DropOldest(newId, now);
      rows := rows[token := rows[token].(rerotatedAt := Some(now))];
    }

    method HandleRevokedReuse(id: Id, now: int) returns (outcome: Outcome)
      requires id in rows && nextId !in rows && rows[id].revokedAt.Some?
      modifies this
      ensures (rows, outcome) == ReuseRevoked(cfg, old(rows), id, old(nextId), now)
      ensures nextId == if outcome.Issued? then old(nextId) + 1 else old(nextId)
    {
      if !Replaced(rows[id]) {
        return SessionRevoked;
      }
      if MayRotateAgain(rows, id) {
        if rows[id].expiresAt <= now {
          return TokenExpired;
        }
        var newId := RotateTokenAgain(id, now);
        return Issued(newId);
      }
      if now - rows[id].revokedAt.value >= cfg.reuseGrace {
        rows := rows[id := rows[id].(reuseDetectedAt := Some(now))];
      }
      return SessionRevoked;
    }

    /** A refresh request, run to its answer; the invariant holds after it whatever the answer. */
    method RefreshToken(id: Id, userActive: bool, now: int, ghost l: Ledger)
      returns (outcome: Outcome, ghost l': Ledger)
      requires Valid(l)
      modifies this
      ensures nextId == if outcome.Issued? then old(nextId) + 1 else old(nextId)
      ensures old(nextId) !in old(rows) && (rows, outcome) == Refresh(cfg, old(rows), id, userActive, old(nextId), now)
      ensures Enabled(cfg, State(old(rows), old(nextId)), l, Present(id, userActive, old(nextId), now))
      ensures l' == Recorded(cfg, State(old(rows), old(nextId)), l, Present(id, userActive, old(nextId), now))
      ensures Valid(l')
      ensures outcome.Issued? ==>
                && id in old(rows) && outcome.session !in old(rows) && outcome.session in rows && id in rows
                && Unspent(rows[outcome.session], old(rows)[id].user, old(rows)[id].device, now + cfg.ttl)
                && Spent(old(rows)[id], rows[id], outcome.session, now)
    {
      IssuedIfAny(cfg, rows, nextId, l, id, userActive, now);
      RefreshValid(cfg, rows, nextId, l, id, userActive, now);
      l' := Recorded(cfg, State(rows, nextId), l, Present(id, userActive, nextId, now));
      if id !in rows {
        outcome := InvalidToken;
      } else if !userActive {
        outcome := SessionRevoked;
      } else if rows[id].revokedAt.Some? {
        outcome := HandleRevokedReuse(id, now);
      } else if rows[id].expiresAt <= now {
        if rows[id].replacedBy.None? {
          rows := rows[id := rows[id].(revokedAt := Some(now), reason := Some(Expired))];
        }
        outcome := TokenExpired;
      } else {
        var newId := RotateSession(id, now);
        outcome := Issued(newId);
      }
    }

    /** The session checks and the first-use record of an authenticated request. */
    method RequireUser(id: Id, userActive: bool, now: int, ghost l: Ledger) returns (accepted: bool)
      requires Valid(l)
      modifies this`rows
      ensures (rows, accepted) == Use(old(rows), id, userActive, now)
      ensures Valid(if accepted then MarkUsed(l, id) else l)
      ensures accepted <==> userActive && id in old(rows) && old(rows)[id].revokedAt.None?
      ensures !accepted ==> rows == old(rows)
      ensures accepted ==> id in rows && rows[id].revokedAt.None? && FirstUse(old(rows)[id], rows[id], now)
    {
      if id !in rows || !rows[id].Live() || !userActive {
        return false;
      }
      UseKeeps(rows, nextId, l, id, now);
      if rows[id].firstUsedAt.None? {
        if rows[id].replacedBy.Some? {
          SettleContest(id, now);
        }
        rows := rows[id := rows[id].(firstUsedAt := Some(now))];
      }
      return true;
    }

    /** Reached only after the request's first use was recorded. */
    method Logout(id: Id, now: int, ghost l: Ledger)
      requires Valid(l) && id in l.used
      modifies this`rows
      ensures rows == LogOut(old(rows), id, now) && Valid(l)
      ensures rows.Keys == old(rows).Keys && (id in rows ==> rows[id].revokedAt.Some?)
      ensures forall x :: x in rows && x != id ==> rows[x] == old(rows)[x]
    {
      LogOutKeeps(rows, nextId, l, id, now);
      if id !in rows || rows[id].revokedAt.Some? {
        return;
      }
      rows := rows[id := rows[id].(revokedAt := Some(now), reason := Some(Reason.Logout), lastUsedAt := now)];
    }
  }

  lemma IssuedIfAny(cfg: Config, rows: Rows, nextId: Id, l: Ledger, id: Id, active: bool, now: int)
    requires Inv(rows, nextId, l)
    ensures nextId !in rows
    ensures var r := Refresh(cfg, rows, id, active, nextId, now);
            r.1.Issued? ==>
              && r.1.session !in rows && id in rows && r.1.session in r.0 && id in r.0
              && Unspent(r.0[r.1.session], rows[id].user, rows[id].device, now + cfg.ttl)
              && Spent(rows[id], r.0[id], r.1.session, now)
  {
    NextIdIsNew(cfg, rows, nextId, l, id, active, now);
    if Refresh(cfg, rows, id, active, nextId, now).1.Issued? {
      IssuedSession(cfg, State(rows, nextId), l, id, active, nextId, now);
    }
  }

  lemma NextIdIsNew(cfg: Config, rows: Rows, nextId: Id, l: Ledger, id: Id, active: bool, now: int)
    requires Inv(rows, nextId, l)
    ensures Enabled(cfg, State(rows, nextId), l, Present(id, active, nextId, now))
  {
    IdsBelow(rows, nextId, l);
    if id in rows {
      assert RowOk(l, id, rows[id]);
      if id in l.contests { KidsBelow(l, nextId, id); }
    }
  }

  lemma RefreshValid(cfg: Config, rows: Rows, nextId: Id, l: Ledger, id: Id, active: bool, now: int)
    requires Inv(rows, nextId, l)
    ensures nextId !in rows && Enabled(cfg, State(rows, nextId), l, Present(id, active, nextId, now))
    ensures var r := Refresh(cfg, rows, id, active, nextId, now);
            Inv(r.0, if r.1.Issued? then nextId + 1 else nextId,
                Recorded(cfg, State(rows, nextId), l, Present(id, active, nextId, now)))
  {
    NextIdIsNew(cfg, rows, nextId, l, id, active, now);
    var s := State(rows, nextId);
    StepKeeps(cfg, s, l, Present(id, active, nextId, now));
    if !Refresh(cfg, rows, id, active, nextId, now).1.Issued? {
      RefusedAddsNone(cfg, s, l, id, active, now);
    }
  }

  /** A refusal leaves the ids given out as they were. */
  lemma RefusedAddsNone(cfg: Config, s: State, l: Ledger, id: Id, active: bool, now: int)
    requires StateOk(s, l) && Enabled(cfg, s, l, Present(id, active, s.nextId, now))
    requires !Refresh(cfg, s.rows, id, active, s.nextId, now).1.Issued?
    ensures Inv(Refresh(cfg, s.rows, id, active, s.nextId, now).0, s.nextId,
                Recorded(cfg, s, l, Present(id, active, s.nextId, now)))
  {
    var r := Refresh(cfg, s.rows, id, active, s.nextId, now);
    if id in s.rows && s.rows[id].Live() && !r.0[id].Live() {
      ExpireKeeps(s.rows, s.nextId, l, id, now);
    } else if r.0 != s.rows {
      MarkedReuse(s.rows, s.nextId, l, id, now);
    }
  }
}
