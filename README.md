# Token lifecycle of the auth service, in Dafny

This project models the token service of the auth service (`TokenService` in
`internal/auth/services/tokens.go`). The service issues two kinds of credential
for a user known by GUID:

- a one-hour access token, signed with HS512 as a JWT and carrying `sub`, `iat`,
  `exp`, `ip` and `rid`;
- a seven-day refresh secret, of which only a bcrypt hash is stored, in a row
  of the `RefreshTokens` table.

It also rotates a presented (access, refresh) pair into a new pair and revokes
the row the old pair named.

The model is split as follows:

- `Service.TokenService` is a class. Its state is the `RefreshTokens` table, a
  map from row id to a `Models.RefreshToken` record. Its other fields are the
  id sequence, the read-only set of user GUIDs, and the crypto primitives.
  `CreateRefreshToken` and `RefreshTokens` are methods that change that state.
  `CreateAccessToken`, which stores nothing, is a function.
- The chain of checks a rotation runs is the function `Tokens.CheckPair`. It is
  proved equal to a one-shot statement of acceptance, `Tokens.Accepts`. The
  lemmas in `Tokens` state what follows from it: single use, binding through
  `rid`, the time window, and what happens when a revoke fails.
- JWT signing and verification, bcrypt, and base64 are function-valued fields of
  `Crypto.Primitives`. The only facts assumed about them are in
  `Primitives.Sound()`: a token signed with key k verifies under k to its claims,
  and a bcrypt hash matches its own password. The class requires these facts of
  its primitives.
- jwt-go's parse step also checks the time claims (`exp`, `iat` and `nbf`; a
  zero or non-numeric value counts as absent). The model spells this check out
  as `Crypto.TimeValid`, because rotation depends on it.
- The world outside each call is an `Env` value: the clock, the random bytes,
  bcrypt's salt, the outcome of loading the key file, and whether the database
  accepts an insert and an update.
- `Decimal` gives `strconv.Itoa`, which writes the `rid` claim. It also gives
  the integer conversion PostgreSQL applies to `rid` in the lookup
  `WHERE id = ? AND user_guid = ?`. The two are proved to round-trip.

The model follows the code on these points, some of which a reader of the service might not expect:

- The client IP is stored in the row and in the `ip` claim, but a rotation never
  compares it. Pairs are bound to a user and a row, not to an IP.
- The revoke is an unconditional update made after the new pair is issued. If
  the update fails, the new row stays in the table, an error is returned, and
  the old pair can still be rotated (`Tokens.StalePairSurvivesFailedRevoke`).
  Issuance is therefore not all-or-nothing.
- A failed user lookup, for any reason, returns `gorm.ErrRecordNotFound`. The
  other failures are returned as they come: random read, insert, update, key
  loading.
- Claims are a loosely typed map (`jwt.MapClaims`), not a fixed record.
- A rotation needs an access token that has not expired. A pair can therefore be
  rotated only within one hour of its issue, and the row's seven-day expiry
  never decides the outcome for a pair issued together
  (`Tokens.AccessTokenExpiresFirst`).

## Model

| member | source | states |
|---|---|---|
| `Decimal.NatDigits` | internal/auth/services/tokens.go:91 | the decimal text of a row id is non-empty, all digits, with no leading zero |
| `Decimal.DigitsValueOfNatDigits` | internal/auth/services/tokens.go:91 | reading the digits of n back gives n |
| `Decimal.AtoiOfItoa` | internal/auth/services/tokens.go:122 | the lookup's integer conversion of `strconv.Itoa(n)` gives back exactly n |
| `Decimal.ItoaInjective` | internal/auth/services/tokens.go:91 | distinct row ids give distinct `rid` texts |
| `Decimal.Itoa` | internal/auth/services/tokens.go:91 | strconv.Itoa: the text is non-empty, starts with '-' exactly for a negative id, and is all digits otherwise |
| `Decimal.Atoi` | internal/auth/services/tokens.go:122 | the lookup's conversion of `rid`: empty text fails, a run of digits gives its value, a negative result comes only from a leading '-' |
| `Crypto.TimeValid` | internal/auth/services/tokens.go:98-104 | jwt-go's time checks: claims without time claims pass; a numeric non-zero exp before now, or iat or nbf after now, fails |
| `Crypto.Parse` | internal/auth/services/tokens.go:98-104 | a key that fails to load gives no claims; returned claims are what the signature check decoded and are valid at now |
| `Tokens.NewRow` | internal/auth/services/tokens.go:81-86 | the inserted row carries the hash, owner and IP given, is not revoked, and expires 7 days after its creation time |
| `Tokens.FindRow` | internal/auth/services/tokens.go:121-125 | the lookup finds a row exactly when `rid` converts to the id of a row owned by the given GUID, and then gives that id |
| `Tokens.Revoke` | internal/auth/services/tokens.go:155-157 | the update keeps the same ids, sets revoked and the update time on the named row, and leaves every other row as it was |
| `Crypto.ParseOfSigned` | internal/auth/services/tokens.go:98-104 | a token signed with the loaded key parses back to its claims exactly when they are valid at the current time |
| `Tokens.AccessClaims` | internal/auth/services/tokens.go:41-47 | the claim set has exactly sub, iat, exp, ip, rid; sub, ip and rid read back as the request GUID, the request IP and the given rid |
| `Tokens.AccessTokenWindow` | internal/auth/services/tokens.go:41-47 | an access token issued at t0 parses at every time from t0 to t0 + 3600 and, when neither time claim is 0, at no other time |
| `Tokens.CheckPair` | internal/auth/services/tokens.go:98-138 | every refusal is InvalidToken; the checks give row id exactly when the token parses, sub is the row's owner, rid denotes id, the secret matches the stored hash, and the row is neither expired nor revoked |
| `Tokens.FreshPairAccepted` | internal/auth/services/tokens.go:121-138 | a row and an access token issued together at t0 are accepted for that row at any time in the first hour |
| `Tokens.AccessTokenExpiresFirst` | internal/auth/services/tokens.go:132-134 | for a pair issued together, the access token stops parsing before the row's seven-day expiry |
| `Tokens.AccessBindsOneRow` | internal/auth/services/tokens.go:111-125 | whatever the table, refresh value or time, every accepted use of one access token consumes the same row |
| `Tokens.ReplayRejected` | internal/auth/services/tokens.go:136-157 | once a rotation has added its new row and revoked the consumed one, the old access token is refused with any refresh value at any time |
| `Tokens.StalePairSurvivesFailedRevoke` | internal/auth/services/tokens.go:145-160 | if only the new row was added and the revoke failed, the old pair is still accepted for the same row |
| `Service.TokenService.constructor` | internal/auth/services/tokens.go:26-31 | a service over sound primitives and a user set starts with an empty table, the id sequence at 1, and its invariant holding |
| `Service.TokenService.CreateAccessToken` | internal/auth/services/tokens.go:34-62 | an unknown GUID gives RecordNotFound; a failed key load gives its error; otherwise the token verifies under the key to exactly the claims of `AccessClaims` |
| `Service.TokenService.Insert` | internal/auth/services/tokens.go:87-90 | an insert succeeds exactly when the database accepts it and no row holds the same hash; it then adds one row under the next id and changes nothing else; a failed insert changes nothing |
| `Service.TokenService.MarkRevoked` | internal/auth/services/tokens.go:155-160 | on success only the named row changes, to revoked with a new update time; on failure nothing changes |
| `Service.TokenService.CreateRefreshToken` | internal/auth/services/tokens.go:65-94 | an unknown GUID gives RecordNotFound and no row; a failed random read or insert changes nothing; otherwise exactly one new unrevoked row appears, holding the hash of the returned secret, owned by the GUID, from the IP, expiring 7 days on; the returned rid reads back as its id and no existing row changes |
| `Service.TokenService.RefreshTokens` | internal/auth/services/tokens.go:97-163 | a refused pair gives InvalidToken and changes nothing; otherwise a new row comes first and then the revoke; a failed revoke leaves the new row and returns an error; success revokes only the consumed row; no failure changes an existing row; revocation is permanent; the new pair is accepted at once; the old access token is refused forever |
| `Scenario.IssueRotateReplay` | internal/auth/api/endpoints.go:42-43 | a pair issued to a known user rotates within the hour, and presenting the original pair again gives InvalidToken |

## Left out

- HTTP handlers (`internal/auth/api/endpoints.go`): request decoding, status mapping and JSON encoding are I/O glue. The `Access` handler overwrites the error of `CreateRefreshToken` with that of `CreateAccessToken` (lines 42-43). This is not modelled; the scenario method calls the two operations in the same order.
- Configuration loading, application wiring, logger setup, database connection and migration: process I/O and library calls.
- Field validation of the GUID as a UUID and of the IP (`internal/auth/dto/request.go`): done by an external validator library.
- GUIDs are compared as text. The `Guid` and `UserGuid` columns are PostgreSQL `uuid` values (`internal/auth/storage/models/model.go:9`, `:17`), which the database compares after parsing. So in the source, other spellings of a known GUID (upper case, braces, no hyphens) find the user and the user's rows, but in the model they do not. The handlers' validator admits only the lower-case hyphenated form, and on that form the two agree.
- The internals of HMAC-SHA-512, JWT compact serialisation, bcrypt, base64 and `crypto/rand`: these are abstract functions, with only the two facts in `Primitives.Sound()`. Which signing algorithms the parser accepts is part of the abstract `verify`.
- Reading and base64-decoding the key file: each call gets one `KeySource` outcome. The source reloads the file at every use. A file that changes between the two loads of one rotation is not modelled, so the model never reaches the case where the key fails after the new row was inserted.
- `Service.TokenService.CreateAccessToken`: the error path of `SignedString` (lines 56-59) is not modelled, because HMAC signing with a byte key does not fail.
- The bcrypt error at line 79 is ignored by the source, so hashing is total in the model.
- The clock: each call reads one `now`, in whole Unix seconds. The source reads the clock separately at lines 43, 44, 84 and 132. A second boundary crossed between those reads, and the sub-second part of `ExpiresAt`, are not modelled.
- Database reads do not fail in the model. In the source, a failed user lookup gives the same error as an unknown user, and a failed row lookup gives InvalidToken.
- The id sequence advances only on a successful insert. Gaps left by failed inserts, and the 64-bit range of ids, are not modelled.
- The lookup's text-to-integer conversion accepts an optional sign followed by digits. Whitespace, underscores and other input forms that PostgreSQL also accepts are not modelled.
- JSON numbers in decoded claims are integers, not floating point.
- The users' email column, and creating or deleting users: the service only reads whether a GUID exists.
- Concurrent rotations racing on one row: the update is unconditional (lines 155-157), and the model is sequential.
