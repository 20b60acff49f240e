/** How the browser client and the phone-login server's gate fit together. */
module EndToEnd {
  import opened Wrappers
  import opened Text
  import opened Http
  import opened Token
  import opened BearerGate
  import opened ClientAuth
  import opened ClientApi

  /**
   * Once a token is stored, every request the client prepares for a non-auth
   * endpoint passes the server's gate with the token's claims attached,
   * provided the token is plain visible text and the server decodes it.
   */
  lemma StoredTokenPassesGate(m: HttpMethod, endpoint: string, body: Option<string>, storage: map<string, string>,
                              decode: string -> Option<Claims>, claims: Claims)
    requires AUTH_TOKEN_KEY in storage
    requires var t := storage[AUTH_TOKEN_KEY];
      (forall i | 0 <= i < |t| :: 32 <= t[i] as int <= 126) && decode(t) == Some(claims)
    requires !Contains(API_BASE + endpoint, "/auth/")
    ensures var r := Prepare(m, endpoint, body, storage);
      HasHeader(r, "Authorization", "Bearer " + storage[AUTH_TOKEN_KEY])
      && Decide(r.url, Some(AsciiBytes("Bearer " + storage[AUTH_TOKEN_KEY])), decode) == Attach(claims)
  {
    BearerHeaderCarriesToken(storage[AUTH_TOKEN_KEY]);
  }

  /** The client's sign-in calls reach the server without any credential. */
  lemma SignInCallsBypassGate(header: Option<seq<Byte>>, decode: string -> Option<Claims>)
    ensures Decide(API_BASE + "/auth/send-code", header, decode) == Pass
    ensures Decide(API_BASE + "/auth/verify", header, decode) == Pass
  {
    assert API_BASE + "/auth/send-code" == "/api" + "/auth/" + "send-code";
    AuthSegmentAnywhereBypasses("/api", "send-code", header, decode);
    assert API_BASE + "/auth/verify" == "/api" + "/auth/" + "verify";
    AuthSegmentAnywhereBypasses("/api", "verify", header, decode);
  }
}
