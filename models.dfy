/** The rows of the RefreshTokens table. */
module Models {

  /**
   * One issued refresh credential.  `token` holds the bcrypt hash of the
   * bearer secret, never the secret; times are Unix seconds.
   */
  datatype RefreshToken = RefreshToken(
    id: int,
    token: string,
    userGuid: string,
    expiresAt: int,
    createdAt: int,
    updatedAt: int,
    ip: string,
    revoked: bool
  )
}
