/**
 * The one-time-code endpoints of the phone-login server: `send_code`,
 * `verify_code`, the SMS dispatch guard and the `Claims` extractor.
 */
module AuthHandlers {
  import opened Wrappers
  import opened Numbers
  import opened Http
  import opened Phone
  import opened OneTimeCode
  import opened Token
  import opened Db

  /** The reserved test identity and its fixed code. */
  const TEST_PHONE: string := "123"
  const TEST_CODE: string := "123456"

  /** A code is valid for ten minutes. */
  const CODE_VALIDITY: int := 600

  /** JSON bodies of the two endpoints. */
  datatype AuthBody = Message(message: string) | Error(error: string) | TokenBody(token: string)

  /** A text message handed to the SMS provider. */
  datatype Sms = Sms(to: string, text: string)

  /**
   * The SMS provider as seen from here: whether its three credentials are
   * configured, and whether it accepts the message when asked.
   */
  datatype SmsProvider = SmsProvider(configured: bool, delivers: bool)

  /** The result of `send_sms` and the message actually dispatched, if any. */
  datatype SmsOutcome = SmsOutcome(ok: bool, sent: Option<Sms>)

  /**
   * `send_sms`: nothing is sent to the test number; missing credentials fail
   * before sending; otherwise the code is sent and the provider decides.
   */
  function SendSms(to: string, code: string, provider: SmsProvider): (o: SmsOutcome)
    ensures o.sent.Some? ==> o.sent.value == Sms(to, "Your AB Macros verification code: " + code)
    ensures o.sent.Some? <==> to != NormalizePhone(TEST_PHONE) && provider.configured
    ensures o.ok <==> to == NormalizePhone(TEST_PHONE) || (provider.configured && provider.delivers)
  {
    if to == NormalizePhone(TEST_PHONE) then SmsOutcome(true, None)
    else if !provider.configured then SmsOutcome(false, None)
    else SmsOutcome(provider.delivers, Some(Sms(to, "Your AB Macros verification code: " + code)))
  }

  /** The answer to a token request: the token with 200, or 500 when signing failed. */
  function TokenReply(t: Result<string, SignError>): (resp: Response<AuthBody>)
    ensures resp.status == OK <==> t.Ok?
    ensures t.Ok? ==> resp.body == TokenBody(t.value)
    ensures t.Err? ==> resp == Response(INTERNAL_SERVER_ERROR, Error("Failed to generate token"))
  {
    match t
    case Ok(token) => Response(OK, TokenBody(token))
    case Err(_) => Response(INTERNAL_SERVER_ERROR, Error("Failed to generate token"))
  }

  /**
   * `send_code`. The raw phone "123" stores the fixed test code under "+123" and
   * never reaches SMS. Any other phone stores `FormatCode(draw)` under its
   * normalised form, then answers 500 if the store failed, 200 without SMS in
   * development mode (`DEV_MODE` equal to "1"), and otherwise what `send_sms`
   * gives; a failed SMS leaves the stored code in place. Both paths store an
   * expiry ten minutes after `now`.
   */
  method SendCode(db: AppDb, rawPhone: string, now: I64, draw: nat, devMode: string, provider: SmsProvider)
    returns (resp: Response<AuthBody>, sent: Option<Sms>)
    requires draw < CODE_SPACE
    requires now <= I64_MAX - CODE_VALIDITY
    modifies db`verifications
    ensures rawPhone == TEST_PHONE ==>
      sent.None?
      && db.verifications == (if db.healthy then old(db.verifications)["+123" := VerificationRecord(TEST_CODE, now + CODE_VALIDITY)]
                              else old(db.verifications))
      && resp == (if db.healthy then Response(OK, Message("Verification code sent (TEST MODE)"))
                  else Response(INTERNAL_SERVER_ERROR, Error("Failed to store verification")))
    ensures rawPhone != TEST_PHONE ==>
      var phone := NormalizePhone(rawPhone);
      var code := FormatCode(draw);
      var sms := SendSms(phone, code, provider);
      && db.verifications == (if db.healthy then old(db.verifications)[phone := VerificationRecord(code, now + CODE_VALIDITY)]
                              else old(db.verifications))
      && (!db.healthy ==> sent.None? && resp == Response(INTERNAL_SERVER_ERROR, Error("Failed to store verification")))
      && (db.healthy && devMode == "1" ==> sent.None? && resp == Response(OK, Message("Verification code sent (DEV MODE)")))
      && (db.healthy && devMode != "1" ==>
            sent == sms.sent
            && resp == (if sms.ok then Response(OK, Message("Verification code sent"))
                        else Response(INTERNAL_SERVER_ERROR, Error("Failed to send verification code"))))
  {
    if rawPhone == TEST_PHONE {
      TestNumberNormalized();
      var phone := NormalizePhone(rawPhone);
      var stored := db.StoreVerification(phone, TEST_CODE, now + CODE_VALIDITY);
      if stored.Err? {
        return Response(INTERNAL_SERVER_ERROR, Error("Failed to store verification")), None;
      }
      return Response(OK, Message("Verification code sent (TEST MODE)")), None;
    }
    var phone := NormalizePhone(rawPhone);
    var code := FormatCode(draw);
    var expiry := now + CODE_VALIDITY;
    var stored := db.StoreVerification(phone, code, expiry);
    if stored.Err? {
      return Response(INTERNAL_SERVER_ERROR, Error("Failed to store verification")), None;
    }
    if devMode == "1" {
      return Response(OK, Message("Verification code sent (DEV MODE)")), None;
    }
    var sms := SendSms(phone, code, provider);
    sent := sms.sent;
    if sms.ok {
      resp := Response(OK, Message("Verification code sent"));
    } else {
      resp := Response(INTERNAL_SERVER_ERROR, Error("Failed to send verification code"));
    }
  }

  /**
   * `verify_code`. The test pair ("123", "123456") gets a token for "+123"
   * without touching the store. Otherwise the store decides for the normalised
   * phone: accepted gives a token for that phone (the record is consumed),
   * rejected gives 400, a store failure 500.
   */
  method VerifyCode(db: AppDb, rawPhone: string, code: string, now: I64, sign: Claims -> Result<string, SignError>)
    returns (resp: Response<AuthBody>)
    requires now <= I64_MAX - TOKEN_LIFETIME
    modifies db`verifications
    ensures rawPhone == TEST_PHONE && code == TEST_CODE ==>
      db.verifications == old(db.verifications) && resp == TokenReply(CreateToken("+123", now, sign))
    ensures !(rawPhone == TEST_PHONE && code == TEST_CODE) ==>
      var phone := NormalizePhone(rawPhone);
      var accepted := CodeAccepted(old(db.verifications), phone, code, now);
      && (!db.healthy ==> db.verifications == old(db.verifications)
                          && resp == Response(INTERNAL_SERVER_ERROR, Error("Verification failed")))
      && (db.healthy && accepted ==> db.verifications == old(db.verifications) - {phone}
                                     && resp == TokenReply(CreateToken(phone, now, sign)))
      && (db.healthy && !accepted ==> db.verifications == old(db.verifications)
                                      && resp == Response(BAD_REQUEST, Error("Invalid or expired verification code")))
  {
    if rawPhone == TEST_PHONE && code == TEST_CODE {
      TestNumberNormalized();
      return TokenReply(CreateToken(NormalizePhone(TEST_PHONE), now, sign));
    }
    var phone := NormalizePhone(rawPhone);
    var verified := db.VerifyCode(phone, code, now);
    match verified
    case Ok(true) =>
      resp := TokenReply(CreateToken(phone, now, sign));
    case Ok(false) =>
      resp := Response(BAD_REQUEST, Error("Invalid or expired verification code"));
    case Err(_) =>
      resp := Response(INTERNAL_SERVER_ERROR, Error("Verification failed"));
  }

  /** `Claims::from_request`: the claims the gate attached, or Unauthorized when there are none. */
  function ClaimsFromRequest(req: Request<Claims>): (r: Result<Claims, Unauthorized>)
    reads req
    ensures r.Err? <==> req.extension.None?
    ensures r.Ok? ==> r.value == req.extension.value
    ensures r.Err? ==> r.error == Unauthorized("Not authorized")
  {
    match req.extension
    case Some(claims) => Ok(claims)
    case None => Err(Unauthorized("Not authorized"))
  }

  /**
   * A code sent to a phone verifies with the same phone written differently,
   * as long as it is presented before it expires, and never after.
   */
  lemma SentCodeVerifies(v: map<string, string>, rawSent: string, rawVerify: string, draw: nat, issuedAt: I64, now: I64)
    requires draw < CODE_SPACE && issuedAt <= I64_MAX - CODE_VALIDITY
    requires Digits(rawSent) == Digits(rawVerify)
    ensures var phone := NormalizePhone(rawSent);
      var v' := v[phone := VerificationRecord(FormatCode(draw), issuedAt + CODE_VALIDITY)];
      CodeAccepted(v', NormalizePhone(rawVerify), FormatCode(draw), now) <==> now < issuedAt + CODE_VALIDITY
  {
    SameDigitsSameNumber(rawSent, rawVerify);
    StoredRecordAccepts(v, NormalizePhone(rawSent), FormatCode(draw), issuedAt + CODE_VALIDITY, FormatCode(draw), now);
  }
}
