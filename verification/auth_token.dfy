/** The claims of the bearer token issued after a successful verification. */
module Token {
  import opened Wrappers
  import opened Numbers

  /** `Claims`: the subject (the normalised phone), expiry and issue time as `usize` seconds. */
  datatype Claims = Claims(sub: string, exp: U64, iat: U64)

  /** Tokens are valid for seven days. */
  const TOKEN_LIFETIME: int := 7 * 86400

  /** The signing step (HS256 over the server secret), left abstract. */
  datatype SignError = SignError

  /**
   * The claims `create_token` signs at time `now`: `iat` and `exp` are the
   * timestamps `now` and `now + 7 days` cast with `as usize`.
   */
  function CreateClaims(phone: string, now: I64): (c: Claims)
    requires now <= I64_MAX - TOKEN_LIFETIME
    ensures c.sub == phone
    ensures c.iat == now % TWO_64 && c.exp == (now + TOKEN_LIFETIME) % TWO_64
    ensures 0 <= now ==> c.exp == c.iat + TOKEN_LIFETIME && c.exp > c.iat
    ensures -TOKEN_LIFETIME <= now < 0 ==> c.exp < c.iat
  {
    Claims(phone, AsU64(now + TOKEN_LIFETIME), AsU64(now))
  }

  /** `create_token`: sign claims for `phone` issued now and expiring seven days later; a signing failure is passed on. */
  function CreateToken(phone: string, now: I64, sign: Claims -> Result<string, SignError>): (r: Result<string, SignError>)
    requires now <= I64_MAX - TOKEN_LIFETIME
    ensures exists c: Claims ::
              (r == sign(c) && c.sub == phone && c.iat == AsU64(now) && (0 <= now ==> c.exp == c.iat + TOKEN_LIFETIME))
  {
    sign(CreateClaims(phone, now))
  }
}
