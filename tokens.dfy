/**
 * The pure part of the token service: the claim set of an access token, the
 * row a refresh issues, the revocation update, and the chain of checks a
 * presented (access, refresh) pair must pass before it may be rotated.
 */
module Tokens {
  import opened Wrappers
  import opened Decimal
  import opened Crypto
  import opened Models

  /** Lifetime of an access token: one hour. */
  const AccessTtl: int := 3600
  /** Lifetime of a refresh row: seven days. */
  const RefreshTtl: int := 7 * 24 * 3600

  /** The errors the service returns; every failed check of a rotation is InvalidToken. */
  datatype Error =
    | RecordNotFound   // gorm.ErrRecordNotFound: no user with this GUID
    | InvalidToken     // the pair was refused
    | KeyUnavailable   // the key file could not be read
    | KeyMalformed     // the key file is not base64
    | RandomFailure    // crypto/rand failed
    | StorageFailure   // an insert or update was refused by the database

  /** The RefreshTokens table, keyed by row id. */
  type Rows = map<int, RefreshToken>

  /** The claims of an access token issued at now for user guid from ip, linked to row rid. */
  function AccessClaims(guid: string, ip: string, rid: string, now: int): (c: Claims)
    ensures c.Keys == {"sub", "iat", "exp", "ip", "rid"}
    ensures ClaimString(c, "sub") == Some(guid)
    ensures ClaimString(c, "ip") == Some(ip)
    ensures ClaimString(c, "rid") == Some(rid)
  {
    map["sub" := Str(guid), "iat" := Num(now), "exp" := Num(now + AccessTtl), "ip" := Str(ip), "rid" := Str(rid)]
  }

  /** The row inserted for a new refresh secret whose hash is token. */
  function NewRow(id: int, token: string, guid: string, ip: string, now: int): (r: RefreshToken)
    ensures r.id == id && r.token == token && r.userGuid == guid && r.ip == ip
    ensures !r.revoked && r.createdAt == r.updatedAt == now && r.expiresAt == r.createdAt + RefreshTtl
  {
    RefreshToken(id, token, guid, now + RefreshTtl, now, now, ip, false)
  }

  /** The table after the update that sets Revoked on row id (gorm also stamps UpdatedAt). */
  function Revoke(rows: Rows, id: int, now: int): (r: Rows)
    requires id in rows
    ensures r.Keys == rows.Keys
    ensures r[id].revoked && r[id].updatedAt == now
    ensures r[id] == rows[id].(revoked := true, updatedAt := now)
    ensures forall j :: j in rows && j != id ==> r[j] == rows[j]
  {
    rows[id := rows[id].(revoked := true, updatedAt := now)]
  }

  /** The lookup `WHERE id = rid AND user_guid = guid`. */
  function FindRow(rows: Rows, rid: string, guid: string): (r: Option<int>)
    ensures r.Some? ==> r.value in rows && rows[r.value].userGuid == guid && Atoi(rid) == Some(r.value)
    ensures Atoi(rid).Some? && Atoi(rid).value in rows && rows[Atoi(rid).value].userGuid == guid ==> r.Some?
  {
    match Atoi(rid)
    case None => None
    case Some(id) => if id in rows && rows[id].userGuid == guid then Some(id) else None
  }

  /**
   * When a pair is good for rotating row id, stated all at once: the access
   * token parses, its sub names the row's owner, its rid denotes id, the
   * refresh secret matches the stored hash, and the row is neither expired
   * nor revoked.
   */
  predicate Accepts(p: Primitives, rows: Rows, access: string, refresh: string, key: KeySource, now: int, id: int) {
    && id in rows
    && Parse(p, access, key, now).Some?
    && ClaimString(Parse(p, access, key, now).value, "sub") == Some(rows[id].userGuid)
    && ClaimString(Parse(p, access, key, now).value, "rid").Some?
    && Atoi(ClaimString(Parse(p, access, key, now).value, "rid").value) == Some(id)
    && p.matches(rows[id].token, refresh)
    && now <= rows[id].expiresAt
    && !rows[id].revoked
  }

  /**
   * The checks of a rotation in the order the service makes them; the first
   * that fails gives InvalidToken, and a pair that passes gives the id of the
   * row it consumes.
   */
  function CheckPair(p: Primitives, rows: Rows, access: string, refresh: string, key: KeySource, now: int): (r: Result<int, Error>)
    ensures r.Err? ==> r.error == InvalidToken
    ensures forall id :: r == Ok(id) <==> Accepts(p, rows, access, refresh, key, now, id)
  {
    var parsed := Parse(p, access, key, now);
    if parsed.None? then Err(InvalidToken)
    else
      var guid := ClaimString(parsed.value, "sub");
      var rid := ClaimString(parsed.value, "rid");
      if guid.None? || rid.None? then Err(InvalidToken)
      else
        var found := FindRow(rows, rid.value, guid.value);
        if found.None? then Err(InvalidToken)
        else if !p.matches(rows[found.value].token, refresh) then Err(InvalidToken)
        else if now > rows[found.value].expiresAt then Err(InvalidToken)
        else if rows[found.value].revoked then Err(InvalidToken)
        else Ok(found.value)
  }

  /**
   * An access token issued at t0 parses from t0 until one hour later, and
   * (unless a time claim is 0, which jwt-go reads as absent) at no other time.
   */
  lemma AccessTokenWindow(p: Primitives, k: Bytes, guid: string, ip: string, rid: string, t0: int, now: int)
    requires p.Sound()
    ensures t0 <= now <= t0 + AccessTtl ==> Parse(p, p.sign(k, AccessClaims(guid, ip, rid, t0)), Loaded(k), now) == Some(AccessClaims(guid, ip, rid, t0))
    ensures t0 != 0 && t0 + AccessTtl != 0 && Parse(p, p.sign(k, AccessClaims(guid, ip, rid, t0)), Loaded(k), now).Some? ==> t0 <= now <= t0 + AccessTtl
  {
  }

  /** A pair issued together at t0 (row id and an access token naming it) is accepted for that row throughout the access window. */
  lemma FreshPairAccepted(p: Primitives, rows: Rows, k: Bytes, id: int, salt: Bytes, secret: string, guid: string, ip: string, t0: int, now: int)
    requires p.Sound()
    requires id in rows && rows[id] == NewRow(id, p.hash(salt, secret), guid, ip, t0)
    requires t0 <= now <= t0 + AccessTtl
    ensures CheckPair(p, rows, p.sign(k, AccessClaims(guid, ip, Itoa(id), t0)), secret, Loaded(k), now) == Ok(id)
  {
    AccessTokenWindow(p, k, guid, ip, Itoa(id), t0, now);
    AtoiOfItoa(id);
  }

  /**
   * For a pair issued together, the access token stops parsing before the
   * row expires: the row's own seven-day expiry never decides a rotation.
   */
  lemma AccessTokenExpiresFirst(p: Primitives, k: Bytes, id: int, token: string, guid: string, ip: string, t0: int, now: int)
    requires p.Sound()
    requires t0 != 0 && t0 + AccessTtl != 0
    requires Parse(p, p.sign(k, AccessClaims(guid, ip, Itoa(id), t0)), Loaded(k), now).Some?
    ensures now < NewRow(id, token, guid, ip, t0).expiresAt
  {
  }

  /** Whatever the refresh value and the time, two accepted uses of one access token name the same row. */
  lemma AccessBindsOneRow(p: Primitives, rows1: Rows, rows2: Rows, access: string, refresh1: string, refresh2: string,
                          key: KeySource, t1: int, t2: int, i: int, j: int)
    requires CheckPair(p, rows1, access, refresh1, key, t1) == Ok(i)
    requires CheckPair(p, rows2, access, refresh2, key, t2) == Ok(j)
    ensures i == j
  {
  }

  /**
   * After a rotation has consumed row id (a new row added, then id revoked),
   * the same access token is refused with any refresh value at any time.
   */
  lemma ReplayRejected(p: Primitives, rows: Rows, access: string, refresh: string, key: KeySource, now: int, id: int,
                       newId: int, newRow: RefreshToken, refresh2: string, later: int)
    requires CheckPair(p, rows, access, refresh, key, now) == Ok(id)
    requires newId !in rows
    ensures CheckPair(p, Revoke(rows[newId := newRow], id, now), access, refresh2, key, later).Err?
  {
  }

  /**
   * If the revoke update fails after the new row was inserted, the consumed
   * pair is still accepted: the rotation is not atomic.
   */
  lemma StalePairSurvivesFailedRevoke(p: Primitives, rows: Rows, access: string, refresh: string, key: KeySource, now: int,
                                      id: int, newId: int, newRow: RefreshToken)
    requires CheckPair(p, rows, access, refresh, key, now) == Ok(id)
    requires newId !in rows
    ensures CheckPair(p, rows[newId := newRow], access, refresh, key, now) == Ok(id)
  {
  }
}
