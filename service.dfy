/**
 * TokenService: the state the token service changes (the RefreshTokens
 * table and its id sequence) and its three operations, issuing an access
 * token, issuing a refresh token, and rotating a pair.
 */
module Service {
  import opened Wrappers
  import opened Decimal
  import opened Crypto
  import opened Models
  import opened Tokens

  /** The result of reading 32 bytes from crypto/rand. */
  datatype RandomRead = ReadOk(bytes: Bytes) | ReadFailed

  /**
   * What the world outside the service supplies to one call: the clock, the
   * random bytes of a new secret, bcrypt's salt, the outcome of loading the
   * key file, and whether the database accepts an insert and an update.
   */
  datatype Env = Env(now: int, random: RandomRead, salt: Bytes, key: KeySource, insertOk: bool, updateOk: bool)

  /** A new refresh secret and the text id of its row. */
  datatype Issued = Issued(secret: string, rid: string)

  /** A new (access, refresh) pair. */
  datatype Pair = Pair(access: string, refresh: string)

  function KeyError(source: KeySource): Error
    requires !source.Loaded?
  {
    if source.Unavailable? then KeyUnavailable else KeyMalformed
  }

  /** No row holds this hash yet: the unique index on Token lets it in. */
  predicate TokenFree(rows: Rows, token: string) {
    forall id :: id in rows ==> rows[id].token != token
  }

  /** The secret a call would issue, and the hash stored for it. */
  function SecretOf(p: Primitives, env: Env): string
    requires env.random.ReadOk?
  {
    p.encode(env.random.bytes)
  }

  function HashOf(p: Primitives, env: Env): string
    requires env.random.ReadOk?
  {
    p.hash(env.salt, SecretOf(p, env))
  }

  /** The random read and the insert of a new refresh row both succeed. */
  predicate CanIssue(p: Primitives, rows: Rows, env: Env) {
    env.random.ReadOk? && env.insertOk && TokenFree(rows, HashOf(p, env))
  }

  /** Why issuing a refresh token for a known user fails. */
  function IssueError(env: Env): Error {
    if env.random.ReadFailed? then RandomFailure else StorageFailure
  }

  class TokenService {
    /** The signing, hashing and encoding libraries. */
    const primitives: Primitives
    /** GUIDs of the Users table, which this service only reads. */
    const users: set<string>
    /** The RefreshTokens table. */
    var rows: Rows
    /** The next value of the table's id sequence. */
    var nextId: int

    /**
     * Every row sits under its own id, which the sequence has already
     * passed, and belongs to a known user; no two rows hold the same hash.
     */
    ghost predicate Valid()
      reads this
    {
      && primitives.Sound()
      && 0 < nextId
      && (forall id :: id in rows ==> 0 < id < nextId && rows[id].id == id && rows[id].userGuid in users)
      && (forall i, j :: i in rows && j in rows && i != j ==> rows[i].token != rows[j].token)
    }

    constructor (primitives: Primitives, users: set<string>)
      requires primitives.Sound()
      ensures Valid()
      ensures this.primitives == primitives && this.users == users
      ensures rows == map[] && nextId == 1
    {
      this.primitives := primitives;
      this.users := users;
      rows := map[];
      nextId := 1;
    }

    /**
     * CreateAccessToken: for a known user, the HS512-signed token whose claims
     * are sub, iat = now, exp = now + 1h, ip and rid; a failed key load is
     * reported as it is.  Nothing is stored.
     */
    function CreateAccessToken(guid: string, ip: string, rid: string, key: KeySource, now: int): (r: Result<string, Error>)
      requires primitives.Sound()
      ensures guid !in users ==> r == Err(RecordNotFound)
      ensures guid in users && !key.Loaded? ==> r == Err(KeyError(key))
      ensures r.Ok? <==> guid in users && key.Loaded?
      ensures r.Ok? ==> primitives.verify(r.value, key.key) == Some(AccessClaims(guid, ip, rid, now))
    {
      if guid !in users then Err(RecordNotFound)
      else if !key.Loaded? then Err(KeyError(key))
      else Ok(primitives.sign(key.key, AccessClaims(guid, ip, rid, now)))
    }

    /**
     * DB.Create of a RefreshTokens row: takes the next id from the sequence;
     * refused when the database fails or another row holds the same hash.
     */
    method Insert(token: string, guid: string, ip: string, now: int, ok: bool) returns (id: Option<int>)
      requires Valid() && guid in users
      modifies this
      ensures Valid()
      ensures id.Some? <==> ok && TokenFree(old(rows), token)
      ensures id.Some? ==> && id.value == old(nextId) && id.value !in old(rows)
                           && rows == old(rows)[id.value := NewRow(id.value, token, guid, ip, now)]
                           && nextId == old(nextId) + 1
      ensures id.None? ==> rows == old(rows) && nextId == old(nextId)
    {
      if !ok || !TokenFree(rows, token) {
        return None;
      }
      id := Some(nextId);
      rows := rows[nextId := NewRow(nextId, token, guid, ip, now)];
      nextId := nextId + 1;
    }

    /** The update that sets Revoked on row id; ok says whether the database accepts it. */
    method MarkRevoked(id: int, now: int, ok: bool) returns (done: bool)
      requires Valid() && id in rows
      modifies this
      ensures Valid()
      ensures done == ok && nextId == old(nextId)
      ensures rows == if ok then Revoke(old(rows), id, now) else old(rows)
    {
      done := ok;
      if ok {
        rows := Revoke(rows, id, now);
      }
    }

    /**
     * CreateRefreshToken: for a known user, a fresh secret (base64 of random
     * bytes) whose bcrypt hash goes into exactly one new row owned by guid,
     * from ip, expiring seven days after now and not revoked.  Returns the
     * secret and the new row's id as text; no existing row changes.
     */
    method CreateRefreshToken(guid: string, ip: string, env: Env) returns (r: Result<Issued, Error>)
      requires Valid()
      modifies this
      ensures Valid()
      ensures guid !in users ==> r == Err(RecordNotFound)
      ensures guid in users && !CanIssue(primitives, old(rows), env) ==> r == Err(IssueError(env))
      ensures r.Ok? <==> guid in users && CanIssue(primitives, old(rows), env)
      ensures r.Err? ==> rows == old(rows) && nextId == old(nextId)
      ensures r.Ok? ==> && r.value.secret == SecretOf(primitives, env)
                        && r.value.rid == Itoa(old(nextId))
                        && Atoi(r.value.rid) == Some(old(nextId))
                        && old(nextId) !in old(rows)
                        && rows == old(rows)[old(nextId) := NewRow(old(nextId), HashOf(primitives, env), guid, ip, env.now)]
                        && primitives.matches(rows[old(nextId)].token, r.value.secret)
                        && nextId == old(nextId) + 1
    {
      if guid !in users {
        return Err(RecordNotFound);
      }
      if env.random.ReadFailed? {
        return Err(RandomFailure);
      }
      var secret := primitives.encode(env.random.bytes);
      var hashed := primitives.hash(env.salt, secret);
      var id := Insert(hashed, guid, ip, env.now, env.insertOk);
      if id.None? {
        return Err(StorageFailure);
      }
      AtoiOfItoa(id.value);
      r := Ok(Issued(secret, Itoa(id.value)));
    }

    /**
     * RefreshTokens: a pair that fails any check is refused with InvalidToken
     * and nothing changes.  A pair that passes (consuming row id) first gets a
     * new refresh row and a new access token naming it, for the same user and
     * the request's ip; only then is row id revoked.  When the revoke fails the
     * new row stays and the consumed row is still usable.  No failure changes
     * an existing row, and a revoked row stays revoked.
     */
    method RefreshTokens(access: string, refresh: string, ip: string, env: Env) returns (r: Result<Pair, Error>)
      requires Valid()
      modifies this
      ensures Valid()
      ensures CheckPair(primitives, old(rows), access, refresh, env.key, env.now).Err? ==>
                r == Err(InvalidToken) && rows == old(rows) && nextId == old(nextId)
      ensures var chk := CheckPair(primitives, old(rows), access, refresh, env.key, env.now);
              chk.Ok? && !CanIssue(primitives, old(rows), env) ==>
                r == Err(IssueError(env)) && rows == old(rows) && nextId == old(nextId)
      ensures var chk := CheckPair(primitives, old(rows), access, refresh, env.key, env.now);
              chk.Ok? && CanIssue(primitives, old(rows), env) ==>
                var id, newId := chk.value, old(nextId);
                var guid := old(rows)[id].userGuid;
                var added := old(rows)[newId := NewRow(newId, HashOf(primitives, env), guid, ip, env.now)];
                && newId !in old(rows)
                && nextId == old(nextId) + 1
                && (!env.updateOk ==> r == Err(StorageFailure) && rows == added)
                && (env.updateOk ==>
                      && r.Ok?
                      && rows == Revoke(added, id, env.now)
                      && r.value.refresh == SecretOf(primitives, env)
                      && primitives.verify(r.value.access, env.key.key) == Some(AccessClaims(guid, ip, Itoa(newId), env.now)))
      ensures r.Err? ==> forall id :: id in old(rows) ==> id in rows && rows[id] == old(rows)[id]
      ensures forall id :: id in old(rows) && old(rows)[id].revoked ==> id in rows && rows[id].revoked
      ensures r.Ok? ==> CheckPair(primitives, rows, r.value.access, r.value.refresh, env.key, env.now) == Ok(old(nextId))
      ensures r.Ok? ==> forall refresh2, later :: CheckPair(primitives, rows, access, refresh2, env.key, later).Err?
    {
      var checked := CheckPair(primitives, rows, access, refresh, env.key, env.now);
      if checked.Err? {
        return Err(InvalidToken);
      }
      var id := checked.value;
      var guid := rows[id].userGuid;
      ghost var before := rows;

      var issued := CreateRefreshToken(guid, ip, env);
      if issued.Err? {
        return Err(issued.error);
      }
      ghost var newId := nextId - 1;
      var acc := CreateAccessToken(guid, ip, issued.value.rid, env.key, env.now);
      if acc.Err? {
        return Err(acc.error);
      }
      var ok := MarkRevoked(id, env.now, env.updateOk);
      if !ok {
        return Err(StorageFailure);
      }
      r := Ok(Pair(acc.value, issued.value.secret));
      FreshPairAccepted(primitives, rows, env.key.key, newId, env.salt, issued.value.secret, guid, ip, env.now, env.now);
      forall refresh2, later
        ensures CheckPair(primitives, rows, access, refresh2, env.key, later).Err?
      {
        ReplayRejected(primitives, before, access, refresh, env.key, env.now, id, newId, NewRow(newId, HashOf(primitives, env), guid, ip, env.now), refresh2, later);
      }
    }
  }
}
