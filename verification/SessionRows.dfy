/**
 The auth_sessions table and what one transaction of the auth service does to
 it. A refresh token is identified with the id of its session. Every function
 here maps the rows before a transaction to the rows after it.
 */
module SessionRows {
  import opened Options
  import opened Sequences

  type Id = nat

  datatype Reason =
    | Logout | Rotated | Superseded | ReuseDetected | Expired | AdminRevoked | CredentialRevoked

  datatype Session = Session(
    user: nat,
    device: Option<nat>,
    createdAt: int,
    expiresAt: int,
    revokedAt: Option<int>,
    reason: Option<Reason>,
    replacedBy: Option<Id>,
    firstUsedAt: Option<int>,
    lastUsedAt: int,
    rerotatedAt: Option<int>,
    reuseDetectedAt: Option<int>)
  {
    predicate Live() { revokedAt.None? }
    predicate Used() { firstUsedAt.Some? }
  }

  type Rows = map<Id, Session>

  datatype Config = Config(ttl: int, reuseGrace: int, retention: int)

  /** How many unused sessions of one token stay live. */
  const KEPT: nat := 16

  datatype Outcome = Issued(session: Id) | InvalidToken | SessionRevoked | TokenExpired

  /* ----- Walking the links ----- */

  /** The rows a recursive walk adds: it goes on from a row only while that row is live. */
  function Walk(rows: Rows, next: Option<Id>, seen: set<Id>): (found: set<Id>)
    decreases rows.Keys - seen
  {
    if next.None? || next.value !in rows || next.value in seen then {}
    else
      var n := next.value;
      assert n in rows.Keys - seen;
      {n} + if rows[n].Live() then Walk(rows, rows[n].replacedBy, seen + {n}) else {}
  }

  /** The session, the one it points at and, on from there, each live session's rival. */
  function Linked(rows: Rows, id: Id): (found: set<Id>)
  {
    if id !in rows then {} else {id} + Walk(rows, rows[id].replacedBy, {id})
  }

  /* ----- Sorting a finite set of ids ----- */

  function Least(s: set<Id>): (m: Id)
    requires s != {}
    ensures m in s && forall x :: x in s ==> m <= x
  {
    LeastExists(s);
    var m :| m in s && forall x :: x in s ==> m <= x; m
  }

  lemma {:induction false} LeastExists(s: set<Id>)
    requires s != {}
    ensures exists m :: m in s && forall x :: x in s ==> m <= x
  {
    var a :| a in s;
    if s != {a} {
      LeastExists(s - {a});
      var m :| m in s - {a} && forall x :: x in s - {a} ==> m <= x;
      var least := if a <= m then a else m;
      assert forall x :: x in s ==> x == a || x in s - {a};
      assert least in s && forall x :: x in s ==> least <= x;
    }
  }

  function Sorted(s: set<Id>): (ids: seq<Id>)
    ensures Increasing(ids)
    ensures forall x :: x in ids <==> x in s
    ensures |ids| == |s|
  {
    if s == {} then [] else
      var m := Least(s);
      [m] + Sorted(s - {m})
  }

  /* ----- Superseding and settling ----- */

  /** Revokes the live unused sessions among `ids`, superseded by `winner`. */
  function Supersede(rows: Rows, ids: set<Id>, winner: Id, now: int): (after: Rows)
    ensures after.Keys == rows.Keys
  {
    map id | id in rows ::
      if id in ids && rows[id].Live() && !rows[id].Used()
      then rows[id].(revokedAt := Some(now), reason := Some(Superseded), replacedBy := Some(winner))
      else rows[id]
  }

  /** `winner` has been used: its rivals are superseded and point at it. */
  function Settle(rows: Rows, winner: Id, now: int): (after: Rows)
    requires winner in rows
    ensures after.Keys == rows.Keys
  {
    Supersede(rows[winner := rows[winner].(replacedBy := None)],
              Linked(rows, winner) - {winner}, winner, now)
  }

  /* ----- Rotation ----- */

  function NewSession(user: nat, device: Option<nat>, now: int, ttl: int): Session {
    Session(user, device, now, now + ttl, None, None, None, None, now, None, None)
  }

  function Rotate(rows: Rows, prior: Id, newId: Id, now: int, ttl: int): (after: Rows)
    requires prior in rows && newId !in rows
    ensures after.Keys == rows.Keys + {newId}
  {
    var settled :=
      if rows[prior].Live() && rows[prior].replacedBy.Some? then Settle(rows, prior, now) else rows;
    var o := settled[prior];
    settled[newId := NewSession(o.user, o.device, now, ttl)]
           [prior := o.(revokedAt := Some(now), reason := Some(Rotated), replacedBy := Some(newId),
                      lastUsedAt := now,
                      firstUsedAt := if o.firstUsedAt.None? then Some(now) else o.firstUsedAt)]
  }

  predicate MayRotateAgain(rows: Rows, token: Id)
    requires token in rows
  {
    && rows[token].reason == Some(Rotated)
    && rows[token].replacedBy.Some?
    && rows[token].replacedBy.value in rows
    && rows[rows[token].replacedBy.value].Live()
    && !rows[rows[token].replacedBy.value].Used()
  }

  /** The new session joins the ring after `successor`. */
  function Join(rows: Rows, successor: Id, newId: Id): (after: Rows)
    requires successor in rows && newId in rows
    ensures after.Keys == rows.Keys
  {
    var next := if rows[successor].replacedBy.None? then Some(successor) else rows[successor].replacedBy;
    rows[newId := rows[newId].(replacedBy := next)]
        [successor := rows[successor].(replacedBy := Some(newId))]
  }

  /** The oldest of `ring` beyond `KEPT` are superseded by the newest. */
  function Cut(rows: Rows, ring: seq<Id>, newId: Id, now: int): (after: Rows)
    requires newId in rows
    ensures after.Keys == rows.Keys
  {
    if |ring| <= KEPT then rows
    else
      var cut := |ring| - KEPT;
      Supersede(rows[newId := rows[newId].(replacedBy := Some(ring[cut]))],
                Members(ring[..cut]), newId, now)
  }

  function Trim(rows: Rows, newId: Id, now: int): (after: Rows)
    requires newId in rows
    ensures after.Keys == rows.Keys
  {
    Cut(rows, Sorted(Linked(rows, newId)), newId, now)
  }

  function RotateAgain(rows: Rows, token: Id, newId: Id, now: int, ttl: int): (after: Rows)
    requires token in rows && newId !in rows && MayRotateAgain(rows, token)
    requires rows[token].revokedAt.Some?
    ensures after.Keys == rows.Keys + {newId}
  {
    var successor := rows[token].replacedBy.value;
    var trimmed := Trim(Join(Rotate(rows, token, newId, now, ttl), successor, newId), newId, now);
    trimmed[token := trimmed[token].(rerotatedAt := Some(now))]
  }

  predicate Replaced(s: Session) {
    s.reason == Some(Rotated) || s.reason == Some(Superseded)
  }

  /** A revoked token presented again. */
  function ReuseRevoked(cfg: Config, rows: Rows, id: Id, newId: Id, now: int): (r: (Rows, Outcome))
    requires id in rows && newId !in rows && rows[id].revokedAt.Some?
  {
    var s := rows[id];
    if !Replaced(s) then (rows, SessionRevoked)
    else if MayRotateAgain(rows, id) then
      if s.expiresAt <= now then (rows, TokenExpired)
      else (RotateAgain(rows, id, newId, now, cfg.ttl), Issued(newId))
    else if now - s.revokedAt.value < cfg.reuseGrace then (rows, SessionRevoked)
    else (rows[id := s.(reuseDetectedAt := Some(now))], SessionRevoked)
  }

  /** One refresh request; `newId` is the id the database would give a new row. */
  function Refresh(cfg: Config, rows: Rows, id: Id, userActive: bool, newId: Id, now: int): (r: (Rows, Outcome))
    requires newId !in rows
  {
    if id !in rows then (rows, InvalidToken)
    else if !userActive then (rows, SessionRevoked)
    else if rows[id].revokedAt.Some? then ReuseRevoked(cfg, rows, id, newId, now)
    else if rows[id].expiresAt <= now then
      if rows[id].replacedBy.None? then
        (rows[id := rows[id].(revokedAt := Some(now), reason := Some(Expired))], TokenExpired)
      else (rows, TokenExpired)
    else (Rotate(rows, id, newId, now, cfg.ttl), Issued(newId))
  }

  /* ----- The other transactions ----- */

  /** An authenticated request; `true` when it is let through. */
  function Use(rows: Rows, id: Id, userActive: bool, now: int): (r: (Rows, bool))
  {
    if id !in rows || !rows[id].Live() || !userActive then (rows, false)
    else if rows[id].Used() then (rows, true)
    else
      var settled := if rows[id].replacedBy.Some? then Settle(rows, id, now) else rows;
      (settled[id := settled[id].(firstUsedAt := Some(now))], true)
  }

  function LogOut(rows: Rows, id: Id, now: int): (after: Rows)
    ensures after.Keys == rows.Keys
  {
    if id !in rows || !rows[id].Live() then rows
    else rows[id := rows[id].(revokedAt := Some(now), reason := Some(Logout), lastUsedAt := now)]
  }

  /** Removing a device revokes every live session of it. */
  function RevokeDevice(rows: Rows, device: nat, now: int): (after: Rows)
    ensures after.Keys == rows.Keys
  {
    map id | id in rows ::
      if rows[id].device == Some(device) && rows[id].Live()
      then rows[id].(revokedAt := Some(now), reason := Some(AdminRevoked))
      else rows[id]
  }

  /** Deleting a device row: its sessions stay, with no device. */
  function DetachDevice(rows: Rows, device: nat): (after: Rows)
    ensures after.Keys == rows.Keys
  {
    map id | id in rows ::
      if rows[id].device == Some(device) then rows[id].(device := None) else rows[id]
  }

  /** Deletes rows; a row pointing at a deleted one points at none (ON DELETE SET NULL). */
  function Delete(rows: Rows, ids: set<Id>): (after: Rows)
    ensures after.Keys == rows.Keys - ids
  {
    map id | id in rows && id !in ids ::
      if rows[id].replacedBy.Some? && rows[id].replacedBy.value in ids
      then rows[id].(replacedBy := None)
      else rows[id]
  }

  /** Which rows the nightly purge may delete. */
  predicate Prunable(s: Session, cutoff: int) {
    s.expiresAt < cutoff && (s.revokedAt.Some? || s.replacedBy.None?)
  }

  function OfUser(rows: Rows, user: nat): set<Id> {
    set id | id in rows && rows[id].user == user
  }
}
