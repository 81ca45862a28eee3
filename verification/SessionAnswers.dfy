/** What the auth service answers and what each answer leaves in the rows, field by field. */
module SessionAnswers {
  import opened Options
  import opened SessionRows
  import opened SessionLedger
  import opened SessionSteps
  import opened SessionRuns

  /* ----- A session just issued ----- */

  /** A session nobody has used or replaced, good until `until`. */
  predicate Unspent(s: Session, user: nat, device: Option<nat>, until: int) {
    && s.user == user && s.device == device && s.expiresAt == until
    && s.revokedAt.None? && s.reason.None? && s.firstUsedAt.None? && s.reuseDetectedAt.None?
  }

  lemma RotateIssues(rows: Rows, id: Id, newId: Id, now: int, ttl: int)
    requires id in rows && newId !in rows && newId != id
    ensures var after := Rotate(rows, id, newId, now, ttl);
            && Unspent(after[newId], rows[id].user, rows[id].device, now + ttl) && after[newId].replacedBy.None?
            && after[newId].createdAt == now
            && Spent(rows[id], after[id], newId, now)
  {
  }

  /** The token the session was issued for: revoked as rotated, pointing at it, and used if it was not before. */
  predicate Spent(was: Session, s: Session, newId: Id, now: int) {
    && s.user == was.user && s.device == was.device && s.expiresAt == was.expiresAt && s.lastUsedAt == now
    && s.revokedAt == Some(now) && s.reason == Some(Rotated) && s.replacedBy == Some(newId)
    && FirstUse(was, s, now)
  }

  lemma TrimLeaves(rows: Rows, newId: Id, now: int, x: Id)
    requires newId in rows && x in rows
    ensures var after := Trim(rows, newId, now);
            after[x].user == rows[x].user && after[x].device == rows[x].device
                && after[x].expiresAt == rows[x].expiresAt
            && after[x].createdAt == rows[x].createdAt && after[x].firstUsedAt == rows[x].firstUsedAt
            && after[x].reuseDetectedAt == rows[x].reuseDetectedAt && after[x].lastUsedAt == rows[x].lastUsedAt
            && (!rows[x].Live() ==> after[x] == rows[x] || x == newId)
  {
  }

  lemma RotateAgainIssues(rows: Rows, nextId: Id, l: Ledger, id: Id, newId: Id, now: int, ttl: int)
    requires Inv(rows, nextId, l) && id in rows && MayRotateAgain(rows, id) && NewFor(l, id, newId) && newId !in rows
    ensures rows[id].revokedAt.Some?
    ensures var after := RotateAgain(rows, id, newId, now, ttl);
            && Unspent(after[newId], rows[id].user, rows[id].device, now + ttl) && after[newId].createdAt == now
            && Spent(rows[id], after[id], newId, now) && after[id].rerotatedAt == Some(now)
  {
    AgainFacts(rows, nextId, l, id);
    var rotated := Rotate(rows, id, newId, now, ttl);
    RotateIssues(rows, id, newId, now, ttl);
    var successor := rows[id].replacedBy.value;
    var joined := Join(rotated, successor, newId);
    assert joined[id] == rotated[id];
    TrimLeaves(joined, newId, now, id);
    TrimLeaves(joined, newId, now, newId);
    RotateAgainKeeps(rows, nextId, l, id, newId, now, ttl);
    NewestStands(rows, nextId, l, id, newId, now, ttl);
  }

  /** The newest of a renewed contest is live. */
  lemma NewestStands(rows: Rows, nextId: Id, l: Ledger, id: Id, newId: Id, now: int, ttl: int)
    requires Inv(rows, nextId, l) && id in rows && MayRotateAgain(rows, id) && NewFor(l, id, newId) && newId !in rows
    requires rows[id].revokedAt.Some?
    ensures var s := RotateAgain(rows, id, newId, now, ttl)[newId]; s.Live() && s.reason.None?
  {
    AgainFacts(rows, nextId, l, id);
    RotateAgainKeeps(rows, nextId, l, id, newId, now, ttl);
    var after, l' := RotateAgain(rows, id, newId, now, ttl), Renewed(l, id, newId);
    assert KidsOk(l', id) && ContestOk(after, l', id);
    StandingEnd(l'.contests[id].kids);
    var st := Standing(l'.contests[id].kids);
    assert Waiting(after, st[|st| - 1]);
    assert RowOk(l', newId, after[newId]);
  }

  /** An issued session is live, unused, of its token's user and device, and good for the time to live. */
  lemma IssuedSession(cfg: Config, s: State, l: Ledger, id: Id, active: bool, n: Id, now: int)
    requires StateOk(s, l) && Enabled(cfg, s, l, Present(id, active, n, now))
    requires Refresh(cfg, s.rows, id, active, n, now).1.Issued?
    ensures var after := Refresh(cfg, s.rows, id, active, n, now).0;
            && Refresh(cfg, s.rows, id, active, n, now).1 == Issued(n)
            && n !in s.rows && id in s.rows && n in after && id in after
            && Unspent(after[n], s.rows[id].user, s.rows[id].device, now + cfg.ttl)
            && (s.rows[id].Live() ==> after[n].replacedBy.None?)
            && Spent(s.rows[id], after[id], n, now)
  {
    if s.rows[id].Live() {
      RotateIssues(s.rows, id, n, now, cfg.ttl);
    } else {
      RotateAgainIssues(s.rows, s.nextId, l, id, n, now, cfg.ttl);
    }
  }

  /** Presented by an active user right after, it is rotated exactly until the time to live is over. */
  lemma IssuedLasts(cfg: Config, s: State, l: Ledger, id: Id, active: bool, n: Id, now: int, t: int, m: Id)
    requires StateOk(s, l) && Enabled(cfg, s, l, Present(id, active, n, now))
    requires Refresh(cfg, s.rows, id, active, n, now).1.Issued?
    requires m !in Refresh(cfg, s.rows, id, active, n, now).0
    ensures Refresh(cfg, Refresh(cfg, s.rows, id, active, n, now).0, n, true, m, t).1.Issued? <==> t < now + cfg.ttl
  {
    IssuedSession(cfg, s, l, id, active, n, now);
  }

  /** A sign-in's session is one of its own, good for the time to live, and rotated exactly until that is over. */
  lemma SignedInLasts(cfg: Config, s: State, l: Ledger, user: nat, device: nat, n: Id, now: int, t: int, m: Id)
    requires Enabled(cfg, s, l, SignIn(user, device, n, now))
    requires m !in Next(cfg, s, l, SignIn(user, device, n, now)).rows
    ensures var after := Next(cfg, s, l, SignIn(user, device, n, now)).rows;
            && n in after && Unspent(after[n], user, Some(device), now + cfg.ttl) && after[n].replacedBy.None?
            && after[n].createdAt == now && (forall x :: x in s.rows && x != n ==> x in after && after[x] == s.rows[x])
            && (Refresh(cfg, after, n, true, m, t).1.Issued? <==> t < now + cfg.ttl)
            && (forall at: int :: Use(after, n, true, at).1)
  {
  }

  /* ----- Refusals ----- */

  /** Which refusal a refresh gets: unknown token, expired while it could be rotated, or revoked. */
  lemma RefusalSays(cfg: Config, rows: Rows, nextId: Id, l: Ledger, id: Id, active: bool, newId: Id, now: int)
    requires Inv(rows, nextId, l) && newId !in rows
    ensures var r := Refresh(cfg, rows, id, active, newId, now).1;
            var open := id in rows && (rows[id].revokedAt.None? || (id in l.contests && l.contests[id].fate.Open?));
            && (r == InvalidToken <==> id !in rows)
            && (r == TokenExpired <==> active && open && rows[id].expiresAt <= now)
            && (r == SessionRevoked <==> id in rows && (!active || !open))
  {
    RefreshDecides(cfg, rows, nextId, l, id, active, newId, now);
    if id in rows && rows[id].revokedAt.Some? { OpenIsRenewable(rows, nextId, l, id); }
  }

  lemma OpenIsRenewable(rows: Rows, nextId: Id, l: Ledger, id: Id)
    requires Inv(rows, nextId, l) && id in rows && rows[id].revokedAt.Some?
    ensures MayRotateAgain(rows, id) <==> id in l.contests && l.contests[id].fate.Open?
  {
    if MayRotateAgain(rows, id) { AgainFacts(rows, nextId, l, id); }
    if id in l.contests && l.contests[id].fate.Open? {
      assert RowOk(l, id, rows[id]) && KidsOk(l, id) && ContestOk(rows, l, id);
      StandingEnd(l.contests[id].kids);
      var st := Standing(l.contests[id].kids);
      assert Waiting(rows, st[|st| - 1]);
    }
  }

  /** What a refusal writes: an expired session standing alone is revoked, a reuse past the grace is marked. */
  lemma RefusalWrites(cfg: Config, rows: Rows, id: Id, active: bool, newId: Id, now: int, x: Id)
    requires newId !in rows && !Refresh(cfg, rows, id, active, newId, now).1.Issued? && x in rows
    ensures var after := Refresh(cfg, rows, id, active, newId, now).0;
            && after.Keys == rows.Keys
            && (x != id ==> after[x] == rows[x])
            && (x == id && rows[x].revokedAt.None? ==>
                  after[x] == if active && rows[x].expiresAt <= now && rows[x].replacedBy.None?
                              then rows[x].(revokedAt := Some(now), reason := Some(Expired)) else rows[x])
            && (x == id && rows[x].revokedAt.Some? ==>
                  after[x] == rows[x].(reuseDetectedAt := after[x].reuseDetectedAt)
                  && (after[x].reuseDetectedAt == rows[x].reuseDetectedAt || after[x].reuseDetectedAt == Some(now)))
  {
  }

  /** A reuse is marked exactly when it is refused for good, of a replaced token, past the grace. */
  lemma ReuseIsMarked(cfg: Config, rows: Rows, nextId: Id, l: Ledger, id: Id, newId: Id, now: int)
    requires Inv(rows, nextId, l) && newId !in rows && id in rows && rows[id].revokedAt.Some?
    requires rows[id].reuseDetectedAt != Some(now)
    ensures var after := Refresh(cfg, rows, id, true, newId, now).0;
            id in after &&
            (after[id].reuseDetectedAt == Some(now) && !Refresh(cfg, rows, id, true, newId, now).1.Issued? <==>
               && (rows[id].reason == Some(Rotated) || rows[id].reason == Some(Superseded))
               && !(id in l.contests && l.contests[id].fate.Open?)
               && now - rows[id].revokedAt.value >= cfg.reuseGrace)
  {
    OpenIsRenewable(rows, nextId, l, id);
    assert RowOk(l, id, rows[id]);
  }

  /* ----- Requests and sign-outs ----- */

  /** A first use once on record stays as it is. */
  predicate FirstUse(was: Session, s: Session, now: int) {
    s.firstUsedAt == if was.firstUsedAt.Some? then was.firstUsedAt else Some(now)
  }

  /** A request is let through exactly for a live session of an active user, whose first use is then on record. */
  lemma UseDecides(rows: Rows, id: Id, active: bool, now: int)
    ensures var r := Use(rows, id, active, now);
            && (r.1 <==> active && id in rows && rows[id].revokedAt.None?)
            && (!r.1 ==> r.0 == rows)
            && (r.1 ==> id in r.0 && r.0[id].revokedAt.None? && FirstUse(rows[id], r.0[id], now))
            && (r.1 && rows[id].firstUsedAt.Some? ==> r.0 == rows)
  {
  }

  /** After a sign-out the session is revoked, and no request or refresh with it is let through. */
  lemma SignedOut(cfg: Config, s: State, l: Ledger, id: Id, now: int, active: bool, newId: Id, t: int)
    requires StateOk(s, l) && Enabled(cfg, s, l, SignOut(id, now)) && id in s.rows && newId !in s.rows
    ensures var after := Next(cfg, s, l, SignOut(id, now)).rows;
            && after.Keys == s.rows.Keys && after[id].revokedAt.Some?
            && (s.rows[id].revokedAt.None? ==>
                  after[id].revokedAt == Some(now) && after[id].reason == Some(Logout) && after[id].lastUsedAt == now)
            && (s.rows[id].revokedAt.Some? ==> after == s.rows)
            && (forall x :: x in s.rows && x != id ==> after[x] == s.rows[x])
            && !Use(after, id, active, t).1
            && (s.rows[id].revokedAt.None? ==> !Refresh(cfg, after, id, active, newId, t).1.Issued?)
  {
  }

  /* ----- Devices and accounts ----- */

  /** Removing a device leaves it no live session, and all others and all revoked ones as they were. */
  lemma DeviceRevoked(rows: Rows, device: nat, now: int)
    ensures var after := RevokeDevice(rows, device, now);
            && after.Keys == rows.Keys
            && (forall x :: x in after && after[x].device == Some(device) ==>
                  && after[x].revokedAt.Some?
                  && (forall active, t :: !Use(after, x, active, t).1)
                  && (rows[x].revokedAt.None? ==> after[x].reason == Some(AdminRevoked)))
            && (forall x :: x in rows && (rows[x].device != Some(device) || rows[x].revokedAt.Some?) ==>
                after[x] == rows[x])
  {
  }

  /** Deleting a device's row leaves each session as it was, but on no device where it was on that one. */
  lemma DeviceDetached(rows: Rows, device: nat)
    ensures var after := DetachDevice(rows, device);
            && after.Keys == rows.Keys
            && (forall x :: x in after ==> after[x].device != Some(device))
            && (forall x :: x in rows && rows[x].device == Some(device) ==> after[x].device.None?)
            && (forall x :: x in rows ==> after[x] == rows[x].(device := after[x].device))
            && (forall x :: x in rows && rows[x].device != Some(device) ==> after[x] == rows[x])
  {
  }

  /**
   Deleting an account leaves no session of it, so no request or refresh of one is let through, and keeps the
   others.
   */
  lemma UserRemoved(cfg: Config, s: State, l: Ledger, user: nat)
    requires Enabled(cfg, s, l, RemoveUser(user))
    ensures var after := Next(cfg, s, l, RemoveUser(user)).rows;
            && (forall x :: x in after <==> x in s.rows && s.rows[x].user != user)
            && (forall x :: x in after ==> after[x] == s.rows[x].(replacedBy := after[x].replacedBy))
            && (forall x, active, t :: x in s.rows && s.rows[x].user == user ==> !Use(after, x, active, t).1)
  {
  }

  /** Deleting rows takes exactly those, and links to them. */
  lemma DeletedRows(rows: Rows, ids: set<Id>, x: Id)
    ensures x in Delete(rows, ids) <==> x in rows && x !in ids
    ensures x in rows && x !in ids ==>
              Delete(rows, ids)[x] == if rows[x].replacedBy.Some? && rows[x].replacedBy.value in ids
                                      then rows[x].(replacedBy := None) else rows[x]
  {
  }
}
