/** The refresh_tokens table and the handlers that use it, one request at a time. Times are in
    milliseconds on one clock. A token's number stands for its row id and for its hash, both
    unique. */
module RefreshTokens {
  import opened Options

  type UserId = nat
  type TokenId = nat

  const ROTATION_GRACE: int := 15_000
  const LIFETIME: int := 30 * 24 * 3600 * 1000

  datatype Row = Row(user: UserId, expires: int, revokedAt: Option<int>)
  type Rows = map<TokenId, Row>

  predicate Active(rows: Rows, t: TokenId) {
    t in rows && rows[t].revokedAt.None?
  }

  function NewRow(user: UserId, now: int): Row {
    Row(user, now + LIFETIME, None)
  }

  /** The unique columns make a clashing insert fail. */
  function Insert(rows: Rows, t: TokenId, row: Row): Rows {
    if t in rows then rows else rows[t := row]
  }

  /** The conditional revoke; it succeeds exactly on an active row. */
  function Revoke(rows: Rows, t: TokenId, now: int): Rows {
    if Active(rows, t) then rows[t := rows[t].(revokedAt := Some(now))] else rows
  }

  function DeleteUser(rows: Rows, user: UserId): Rows {
    map t | t in rows && rows[t].user != user :: rows[t]
  }

  function DeleteExpired(rows: Rows, now: int): Rows {
    map t | t in rows && rows[t].expires >= now :: rows[t]
  }

  /** What the reuse check makes of a row it was shown. */
  datatype Verdict = Benign | Theft | Expired | Usable

  function Judge(row: Row, now: int): Verdict {
    if row.revokedAt.Some? then
      if now - row.revokedAt.value > ROTATION_GRACE then Theft else Benign
    else if row.expires < now then Expired
    else Usable
  }

  class TokenStore {
    var rows: Rows

    constructor ()
      ensures rows == map[]
    {
      rows := map[];
    }

    method CreateRefreshToken(t: TokenId, row: Row) returns (ok: bool)
      modifies this
      ensures ok <==> t !in old(rows)
      ensures rows == if ok then old(rows)[t := row] else old(rows)
      ensures rows == Insert(old(rows), t, row)
    {
      if t in rows {
        return false;
      }
      rows := rows[t := row];
      return true;
    }

    method GetRefreshTokenByHash(t: TokenId) returns (row: Option<Row>)
      ensures row == if t in rows then Some(rows[t]) else None
    {
      if t in rows {
        return Some(rows[t]);
      }
      return None;
    }

    method RevokeRefreshTokenIfActive(t: TokenId, now: int) returns (won: bool)
      modifies this
      ensures won <==> t in old(rows) && old(rows)[t].revokedAt == None
      ensures rows == if won then old(rows)[t := Row(old(rows)[t].user, old(rows)[t].expires, Some(now))] else old(rows)
      ensures rows == Revoke(old(rows), t, now)
    {
      if t in rows && rows[t].revokedAt == None {
        rows := rows[t := rows[t].(revokedAt := Some(now))];
        return true;
      }
      return false;
    }

    method RevokeAllUserRefreshTokens(user: UserId)
      modifies this
      ensures forall x :: x in rows <==> x in old(rows) && old(rows)[x].user != user
      ensures forall x <- rows :: rows[x] == old(rows)[x]
      ensures rows == DeleteUser(old(rows), user)
    {
      rows := map t | t in rows && rows[t].user != user :: rows[t];
    }

    method CleanupExpiredTokens(now: int)
      modifies this
      ensures forall x :: x in rows <==> x in old(rows) && old(rows)[x].expires >= now
      ensures forall x <- rows :: rows[x] == old(rows)[x]
      ensures rows == DeleteExpired(old(rows), now)
    {
      rows := map t | t in rows && rows[t].expires >= now :: rows[t];
    }

    /** The refresh handler when nothing interleaves: `next` is the new random token, `allowed`
        says whether the user still exists and is not banned. */
    method RefreshToken(t: TokenId, next: TokenId, now: int, allowed: bool) returns (issued: bool)
      requires next !in rows && next != t
      modifies this
      // unknown
      ensures t !in old(rows) ==> !issued && rows == old(rows)
      // consumed up to 15 s ago
      ensures t in old(rows) && old(rows)[t].revokedAt.Some? && now - old(rows)[t].revokedAt.value <= 15_000 ==>
                !issued && rows == old(rows)
      // consumed longer ago
      ensures t in old(rows) && old(rows)[t].revokedAt.Some? && now - old(rows)[t].revokedAt.value > 15_000 ==>
                && !issued
                && (forall x :: x in rows <==> x in old(rows) && old(rows)[x].user != old(rows)[t].user)
                && (forall x <- rows :: rows[x] == old(rows)[x])
      // never consumed but expired
      ensures t in old(rows) && old(rows)[t].revokedAt.None? && old(rows)[t].expires < now ==> !issued && rows == old(rows)
      // live
      ensures t in old(rows) && old(rows)[t].revokedAt.None? && old(rows)[t].expires >= now ==>
                && issued == allowed
                && (forall x :: x in rows <==> x in old(rows) || (allowed && x == next))
                && rows[t] == Row(old(rows)[t].user, old(rows)[t].expires, Some(now))
                && (forall x <- old(rows) | x != t :: rows[x] == old(rows)[x])
                && (allowed ==> rows[next] == Row(old(rows)[t].user, now + 2_592_000_000, None))
    {
      var found := GetRefreshTokenByHash(t);
      if found.None? {
        return false;
      }
      var rt := found.value;
      if rt.revokedAt.Some? {
        if now - rt.revokedAt.value > ROTATION_GRACE {
          RevokeAllUserRefreshTokens(rt.user);
        }
        return false;
      }
      if rt.expires < now {
        return false;
      }
      var rotated := RevokeRefreshTokenIfActive(t, now);
      if !rotated || !allowed {
        return false;
      }
      var created := CreateRefreshToken(next, NewRow(rt.user, now));
      return true;
    }
  }
}
