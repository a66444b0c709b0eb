/** A client of TokenService that walks through issue, rotate and replay. */
module Scenario {
  import opened Wrappers
  import opened Crypto
  import opened Tokens
  import opened Service

  const Guid: string := "11111111-1111-1111-1111-111111111111"
  const Ip: string := "203.0.113.5"

  /**
   * A known user is issued a pair at e1.now; rotating it within the hour
   * succeeds, and presenting the original pair again is refused.
   */
  method IssueRotateReplay(p: Primitives, e1: Env, e2: Env, e3: Env) returns (first: Result<Pair, Error>, second: Result<Pair, Error>)
    requires p.Sound()
    requires e1.random.ReadOk? && e1.insertOk && e1.key.Loaded?
    requires e2.random.ReadOk? && e2.insertOk && e2.updateOk && e2.key == e1.key
    requires HashOf(p, e2) != HashOf(p, e1)
    requires e1.now <= e2.now <= e1.now + AccessTtl
    requires e3.key == e1.key
    ensures first.Ok? && first.value.refresh == SecretOf(p, e2)
    ensures second == Err(InvalidToken)
  {
    var service := new TokenService(p, {Guid});
    var issued := service.CreateRefreshToken(Guid, Ip, e1);
    var access := service.CreateAccessToken(Guid, Ip, issued.value.rid, e1.key, e1.now);
    FreshPairAccepted(p, service.rows, e1.key.key, 1, e1.salt, issued.value.secret, Guid, Ip, e1.now, e2.now);
    first := service.RefreshTokens(access.value, issued.value.secret, Ip, e2);
    second := service.RefreshTokens(access.value, issued.value.secret, Ip, e3);
  }
}
