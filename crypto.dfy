/**
 * The cryptographic and encoding libraries the token service calls, kept
 * abstract: JWT signing with HS512 and signature verification (jwt-go),
 * bcrypt hashing and comparison, and base64 encoding of random bytes.
 * Each is a function-valued field of `Primitives`; `Sound()` holds the only
 * facts the service relies on.  The time checks that jwt-go's `Parse` runs on
 * the decoded claims are spelled out, because the service depends on them.
 */
module Crypto {
  import opened Wrappers

  type Bytes = seq<bv8>

  /** A decoded JSON claim value: a string, a number, or anything else. */
  datatype ClaimValue = Str(s: string) | Num(n: int) | Other

  /** jwt.MapClaims: claim name to loosely typed value. */
  type Claims = map<string, ClaimValue>

  /** The outcome of reading and base64-decoding the signing-key file. */
  datatype KeySource = Loaded(key: Bytes) | Unavailable | Malformed

  datatype Primitives = Primitives(
    sign: (Bytes, Claims) -> string,          // jwt.NewWithClaims(HS512, c).SignedString(k)
    verify: (string, Bytes) -> Option<Claims>, // signature check under k, then claim decoding
    hash: (Bytes, string) -> string,          // bcrypt.GenerateFromPassword with a random salt
    matches: (string, string) -> bool,        // bcrypt.CompareHashAndPassword returns no error
    encode: Bytes -> string                   // base64.StdEncoding.EncodeToString
  )
  {
    /** A token signed with k verifies under k to its claims; a hash matches its own password. */
    ghost predicate Sound() {
      && (forall k, c :: verify(sign(k, c), k) == Some(c))
      && (forall salt, t :: matches(hash(salt, t), t))
    }
  }

  /** The claim `name` when it is a string: `claims[name].(string)`. */
  function ClaimString(c: Claims, name: string): Option<string> {
    if name in c && c[name].Str? then Some(c[name].s) else None
  }

  /** A numeric time claim; jwt-go ignores it when it is missing, not a number, or zero. */
  function TimeClaim(c: Claims, name: string): Option<int> {
    if name in c && c[name].Num? && c[name].n != 0 then Some(c[name].n) else None
  }

  /** jwt-go's MapClaims.Valid at time now: not expired, not issued later, not before nbf. */
  predicate TimeValid(c: Claims, now: int): (b: bool)
    ensures "exp" !in c && "iat" !in c && "nbf" !in c ==> b
    ensures TimeClaim(c, "exp").Some? && now > TimeClaim(c, "exp").value ==> !b
    ensures TimeClaim(c, "iat").Some? && now < TimeClaim(c, "iat").value ==> !b
    ensures TimeClaim(c, "nbf").Some? && now < TimeClaim(c, "nbf").value ==> !b
  {
    && (TimeClaim(c, "exp").Some? ==> now <= TimeClaim(c, "exp").value)
    && (TimeClaim(c, "iat").Some? ==> TimeClaim(c, "iat").value <= now)
    && (TimeClaim(c, "nbf").Some? ==> TimeClaim(c, "nbf").value <= now)
  }

  /**
   * jwt.Parse with a key function that loads the key: fails when the key
   * cannot be loaded, when the signature does not verify, or when the time
   * claims are not valid at now; otherwise gives the claims.
   */
  function Parse(p: Primitives, token: string, source: KeySource, now: int): (r: Option<Claims>)
    ensures !source.Loaded? ==> r.None?
    ensures r.Some? ==> p.verify(token, source.key) == r && TimeValid(r.value, now)
  {
    if !source.Loaded? then None
    else
      match p.verify(token, source.key)
      case None => None
      case Some(c) => if TimeValid(c, now) then Some(c) else None
  }

  /** A token signed with the loaded key parses back to its claims exactly when they are valid at now. */
  lemma ParseOfSigned(p: Primitives, k: Bytes, c: Claims, now: int)
    requires p.Sound()
    ensures Parse(p, p.sign(k, c), Loaded(k), now) == (if TimeValid(c, now) then Some(c) else None)
  {
  }
}
