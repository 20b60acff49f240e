/**
 * The bearer-token gate wrapped around the `/api` scope of the phone-login
 * server. JWT decoding (signature and expiry validation) is a parameter.
 */
module BearerGate {
  import opened Wrappers
  import opened Text
  import opened Numbers
  import opened Http
  import opened Token

  /** `HeaderValue::to_str` succeeds only when every byte is visible ASCII or a tab. */
  predicate VisibleAscii(h: seq<Byte>) {
    forall i | 0 <= i < |h| :: h[i] == 9 || 32 <= h[i] <= 126
  }

  /** The header bytes read as text, one character per byte. */
  function HeaderText(h: seq<Byte>): (s: string)
    ensures |s| == |h|
    ensures forall i | 0 <= i < |h| :: s[i] as int == h[i]
  {
    seq(|h|, i requires 0 <= i < |h| => h[i] as char)
  }

  /** A string of ASCII characters written as header bytes. */
  function AsciiBytes(s: string): (h: seq<Byte>)
    requires forall i | 0 <= i < |s| :: s[i] as int < 128
    ensures |h| == |s|
    ensures forall i | 0 <= i < |s| :: h[i] == s[i] as int
    ensures HeaderText(h) == s
  {
    seq(|s|, i requires 0 <= i < |s| => s[i] as int)
  }

  /** The text of a header that is readable and carries the case-sensitive "Bearer " scheme. */
  predicate IsBearer(header: Option<seq<Byte>>) {
    header.Some? && VisibleAscii(header.value) && StartsWith(HeaderText(header.value), "Bearer ")
  }

  /** The token handed to the decoder: the header with its first seven characters skipped. */
  function BearerToken(header: Option<seq<Byte>>): (token: string)
    requires IsBearer(header)
    ensures HeaderText(header.value) == "Bearer " + token
  {
    HeaderText(header.value)[7..]
  }

  /** What the gate decides for a request inside the `/api` scope. */
  datatype Decision =
    | Pass                      // forwarded untouched
    | Attach(claims: Claims)    // claims inserted, then forwarded
    | Deny(message: string)     // answered 401 without calling the inner service

  /**
   * The gate's decision: any path containing "/auth/" passes; otherwise a
   * readable "Bearer " header whose token decodes attaches the claims, one
   * whose token does not decode is denied as "Invalid token", and anything
   * else is denied as "Authorization required".
   */
  function Decide(path: string, header: Option<seq<Byte>>, decode: string -> Option<Claims>): (d: Decision)
    ensures d.Pass? <==> Contains(path, "/auth/")
    ensures d.Attach? <==> !Contains(path, "/auth/") && IsBearer(header) && decode(BearerToken(header)).Some?
    ensures d.Attach? ==> d.claims == decode(BearerToken(header)).value
    ensures d == Deny("Invalid token") <==> !Contains(path, "/auth/") && IsBearer(header) && decode(BearerToken(header)).None?
    ensures d == Deny("Authorization required") <==> !Contains(path, "/auth/") && !IsBearer(header)
    ensures d.Deny? ==> d.message in {"Invalid token", "Authorization required"}
  {
    if Contains(path, "/auth/") then Pass
    else if IsBearer(header) then
      match decode(BearerToken(header))
      case Some(claims) => Attach(claims)
      case None => Deny("Invalid token")
    else Deny("Authorization required")
  }

  /** Whether a path falls in the `/api` scope, the only one the gate wraps. */
  predicate InApiScope(path: string) {
    path == "/api" || StartsWith(path, "/api/")
  }

  /** Where the server routes a request, as far as the gate is concerned. */
  datatype Routed =
    | StaticFiles               // served from the static directory, never gated
    | Inner                     // handed to the `/api` services
    | Rejected(error: Unauthorized)

  /**
   * Routing one request through the server: outside `/api` it goes to the
   * static files untouched; inside, the gate decides, and on `Attach` it
   * inserts the claims into the request before forwarding.
   */
  method Route(req: Request<Claims>, decode: string -> Option<Claims>) returns (r: Routed)
    modifies req
    ensures !InApiScope(req.path) ==> r == StaticFiles && req.extension == old(req.extension)
    ensures InApiScope(req.path) ==>
      match Decide(req.path, req.authorization, decode)
      case Pass => r == Inner && req.extension == old(req.extension)
      case Attach(claims) => r == Inner && req.extension == Some(claims)
      case Deny(message) => r == Rejected(Unauthorized(message)) && req.extension == old(req.extension)
  {
    if !InApiScope(req.path) {
      return StaticFiles;
    }
    var d := Decide(req.path, req.authorization, decode);
    match d
    case Pass =>
      r := Inner;
    case Attach(claims) =>
      req.extension := Some(claims);
      r := Inner;
    case Deny(message) =>
      r := Rejected(Unauthorized(message));
  }

  /** A header written as "Bearer " followed by a token reads back as exactly that token. */
  lemma {:induction false} BearerHeaderCarriesToken(token: string)
    requires forall i | 0 <= i < |token| :: 32 <= token[i] as int <= 126
    ensures var s := "Bearer " + token;
      var header := Some(AsciiBytes(s));
      IsBearer(header) && BearerToken(header) == token
  {
    var s := "Bearer " + token;
    var h := AsciiBytes(s);
    assert forall i | 0 <= i < |s| :: 32 <= s[i] as int <= 126 by {
      forall i | 0 <= i < |s|
        ensures 32 <= s[i] as int <= 126
      {
        if i >= 7 {
          assert s[i] == token[i - 7];
        }
      }
    }
    assert VisibleAscii(h);
    assert HeaderText(h)[..7] == "Bearer ";
    assert HeaderText(h)[7..] == token;
  }

  /**
   * A token issued by `create_token` passes the gate on any non-auth `/api`
   * path, carrying the claims it was issued with, provided the decoder inverts
   * the signer (the same secret on both sides, and the token not yet expired).
   */
  lemma IssuedTokenPasses(phone: string, now: I64, sign: Claims -> Result<string, SignError>,
                          decode: string -> Option<Claims>, path: string)
    requires now <= I64_MAX - TOKEN_LIFETIME
    requires CreateToken(phone, now, sign).Ok?
    requires var t := CreateToken(phone, now, sign).value;
      (forall i | 0 <= i < |t| :: 32 <= t[i] as int <= 126) && decode(t) == Some(CreateClaims(phone, now))
    requires !Contains(path, "/auth/")
    ensures var header := Some(AsciiBytes("Bearer " + CreateToken(phone, now, sign).value));
      Decide(path, header, decode) == Attach(CreateClaims(phone, now))
      && Decide(path, header, decode).claims.sub == phone
  {
    BearerHeaderCarriesToken(CreateToken(phone, now, sign).value);
  }

  /** Any path containing "/auth/" anywhere is forwarded whatever its header, even under another route. */
  lemma AuthSegmentAnywhereBypasses(prefix: string, suffix: string, header: Option<seq<Byte>>, decode: string -> Option<Claims>)
    ensures Decide(prefix + "/auth/" + suffix, header, decode) == Pass
  {
    var p := prefix + "/auth/" + suffix;
    assert p[|prefix|..|prefix| + 6] == "/auth/";
    assert OccursAt(p, "/auth/", |prefix|);
  }
}
