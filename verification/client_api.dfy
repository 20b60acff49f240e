/**
 * The browser's API client: the URL, method and headers of each call, and how
 * an answer's status becomes a result. Sending, reading the body and JSON
 * decoding are parameters.
 */
module ClientApi {
  import opened Wrappers
  import opened Text
  import opened ClientAuth

  /** Every endpoint lives under this prefix. */
  const API_BASE: string := "/api"

  datatype HttpMethod = Get | Post | Put | Delete

  /** The errors a call can end in. */
  datatype ApiError =
    | NetworkError(message: string)
    | DeserializationError(message: string)
    | Status(status: nat, message: string)   // `ApiError::ApiError { status, message }`
    | Unauthorized
    | NotFound

  /** A failure reported by the browser's fetch layer, with its display text. */
  datatype FetchError = FetchError(text: string)

  /** A request as handed to the browser. */
  datatype Outgoing = Outgoing(verb: HttpMethod, url: string, headers: seq<(string, string)>, body: Option<string>)

  /** The status of an answer and its body, whose reading may fail. */
  datatype Reply = Reply(status: nat, body: Result<string, FetchError>)

  /** The method names `request` accepts. */
  function ParseMethod(name: string): (m: Option<HttpMethod>)
    ensures m.Some? <==> name in {"GET", "POST", "PUT", "DELETE"}
    ensures m == Some(Get) <==> name == "GET"
    ensures m == Some(Post) <==> name == "POST"
    ensures m == Some(Put) <==> name == "PUT"
    ensures m == Some(Delete) <==> name == "DELETE"
  {
    if name == "GET" then Some(Get)
    else if name == "POST" then Some(Post)
    else if name == "PUT" then Some(Put)
    else if name == "DELETE" then Some(Delete)
    else None
  }

  /** Whether a request carries a header of the given name, and with which value. */
  predicate HasHeader(r: Outgoing, name: string, value: string) {
    (name, value) in r.headers
  }

  /** `with_auth`: add "Authorization: Bearer <token>" when a token is stored, else nothing. */
  function WithAuth(r: Outgoing, token: Option<string>): (r': Outgoing)
    ensures token.None? ==> r' == r
    ensures token.Some? ==> r' == r.(headers := r.headers + [("Authorization", "Bearer " + token.value)])
    ensures r'.verb == r.verb && r'.url == r.url && r'.body == r.body
  {
    match token
    case Some(t) => r.(headers := r.headers + [("Authorization", "Bearer " + t)])
    case None => r
  }

  /**
   * The request `request` sends: the method, "/api" followed by the endpoint,
   * the stored token as a bearer header, and a JSON body with its content type
   * when there is one.
   */
  function Prepare(m: HttpMethod, endpoint: string, body: Option<string>, storage: map<string, string>): (r: Outgoing)
    ensures r.verb == m && r.url == API_BASE + endpoint && r.body == body
    ensures (exists v :: HasHeader(r, "Authorization", v)) <==> AUTH_TOKEN_KEY in storage
    ensures AUTH_TOKEN_KEY in storage ==> HasHeader(r, "Authorization", "Bearer " + storage[AUTH_TOKEN_KEY])
    ensures HasHeader(r, "Content-Type", "application/json") <==> body.Some?
  {
    var authed := WithAuth(Outgoing(m, API_BASE + endpoint, [], body), GetToken(storage));
    var r := if body.Some? then authed.(headers := authed.headers + [("Content-Type", "application/json")]) else authed;
    assert AUTH_TOKEN_KEY in storage ==> r.headers[0] == ("Authorization", "Bearer " + storage[AUTH_TOKEN_KEY]);
    assert AUTH_TOKEN_KEY in storage ==> HasHeader(r, "Authorization", "Bearer " + storage[AUTH_TOKEN_KEY]);
    assert AUTH_TOKEN_KEY !in storage ==> r.headers == if body.Some? then [("Content-Type", "application/json")] else [];
    r
  }

  /** Reading an answer's body as JSON: a failure to read or to parse is a network error. */
  function ReadJson<R>(body: Result<string, FetchError>, decode: string -> Result<R, FetchError>): (r: Result<R, ApiError>)
    ensures r.Ok? <==> body.Ok? && decode(body.value).Ok?
    ensures r.Ok? ==> r.value == decode(body.value).value
    ensures r.Err? ==> r.error.NetworkError?
  {
    match body
    case Err(e) => Err(NetworkError(e.text))
    case Ok(text) =>
      match decode(text)
      case Ok(v) => Ok(v)
      case Err(e) => Err(NetworkError(e.text))
  }

  /**
   * The status dispatch of `request`: 200 and 201 decode the body, 401 is
   * Unauthorized, 404 NotFound, and every other status an error carrying
   * that status and the body text ("Unknown error" when it cannot be read).
   */
  function Interpret<R>(reply: Reply, decode: string -> Result<R, FetchError>): (r: Result<R, ApiError>)
    ensures r.Ok? ==> reply.status in {200, 201}
    ensures reply.status in {200, 201} ==> r == ReadJson(reply.body, decode)
    ensures r == Err(Unauthorized) <==> reply.status == 401
    ensures r == Err(NotFound) <==> reply.status == 404
    ensures (r.Err? && r.error.Status?) <==> reply.status !in {200, 201, 401, 404}
    ensures r.Err? && r.error.Status? ==>
      r.error.status == reply.status && r.error.message == (if reply.body.Ok? then reply.body.value else "Unknown error")
  {
    if reply.status == 200 || reply.status == 201 then ReadJson(reply.body, decode)
    else if reply.status == 401 then Err(Unauthorized)
    else if reply.status == 404 then Err(NotFound)
    else Err(Status(reply.status, if reply.body.Ok? then reply.body.value else "Unknown error"))
  }

  /**
   * `request`: an unknown method fails before anything is sent; otherwise the
   * prepared request is sent, a failed send is a network error, and the
   * answer is interpreted.
   */
  function Request<R>(methodName: string, endpoint: string, body: Option<string>, storage: map<string, string>,
                      send: Outgoing -> Result<Reply, FetchError>, decode: string -> Result<R, FetchError>)
    : (r: Result<R, ApiError>)
    ensures ParseMethod(methodName).None? ==> r == Err(NetworkError("Invalid HTTP method"))
    ensures ParseMethod(methodName).Some? ==>
      var sent := send(Prepare(ParseMethod(methodName).value, endpoint, body, storage));
      && (sent.Err? ==> r == Err(NetworkError(sent.error.text)))
      && (sent.Ok? ==> r == Interpret(sent.value, decode))
    ensures r.Ok? ==> ParseMethod(methodName).Some?
  {
    match ParseMethod(methodName)
    case None => Err(NetworkError("Invalid HTTP method"))
    case Some(m) =>
      match send(Prepare(m, endpoint, body, storage))
      case Err(e) => Err(NetworkError(e.text))
      case Ok(reply) => Interpret(reply, decode)
  }

  /**
   * The endpoint of `get_meals` and `get_nutrient_summary`: the base alone
   * without dates, else "?start_date=S", "?end_date=E" or
   * "?start_date=S&end_date=E" appended.
   */
  function DateQuery(base: string, startDate: Option<string>, endDate: Option<string>): string {
    match (startDate, endDate)
    case (None, None) => base
    case (Some(s), None) => base + "?start_date=" + s
    case (None, Some(e)) => base + "?end_date=" + e
    case (Some(s), Some(e)) => base + "?start_date=" + s + "&end_date=" + e
  }

  /** The builder itself: successive pushes onto a mutable endpoint string. */
  method DateQueryEndpoint(base: string, startDate: Option<string>, endDate: Option<string>) returns (endpoint: string)
    ensures endpoint == DateQuery(base, startDate, endDate)
  {
    endpoint := base;
    if startDate.Some? || endDate.Some? {
      endpoint := endpoint + ['?'];
      if startDate.Some? {
        endpoint := endpoint + "start_date=" + startDate.value;
      }
      if endDate.Some? {
        if startDate.Some? {
          endpoint := endpoint + ['&'];
        }
        endpoint := endpoint + "end_date=" + endDate.value;
      }
    }
  }

  /**
   * With both dates present, the query splits back into the two parameters
   * it was built from, provided neither date holds a separator.
   */
  lemma BothDatesSplitBack(base: string, s: string, e: string)
    requires '?' !in base && '&' !in s && '?' !in s && '&' !in e && '?' !in e
    ensures var q := "start_date=" + s + "&end_date=" + e;
      Split(DateQuery(base, Some(s), Some(e)), '?') == [base, q] && Split(q, '&') == ["start_date=" + s, "end_date=" + e]
  {
    var a := "start_date=" + s;
    var b := "end_date=" + e;
    var q := "start_date=" + s + "&end_date=" + e;
    ParametersHaveNoSeparators(s, e);
    assert q == a + ['&'] + b;
    assert DateQuery(base, Some(s), Some(e)) == base + ['?'] + q by {
      assert "?start_date=" == ['?'] + "start_date=";
    }
    TwoParametersSplitBack(base, a, b);
  }

  /** Splitting `base?a&b` at '?' and then at '&' recovers the pieces. */
  lemma TwoParametersSplitBack(base: string, a: string, b: string)
    requires '?' !in base && '?' !in a && '?' !in b && '&' !in a && '&' !in b
    ensures Split(base + ['?'] + (a + ['&'] + b), '?') == [base, a + ['&'] + b]
    ensures Split(a + ['&'] + b, '&') == [a, b]
  {
    var q := a + ['&'] + b;
    assert '?' !in q;
    SplitAtFirstSeparator(base, q, '?');
    SplitWithoutSeparator(q, '?');
    SplitAtFirstSeparator(a, b, '&');
    SplitWithoutSeparator(b, '&');
  }

  lemma ParametersHaveNoSeparators(s: string, e: string)
    requires '&' !in s && '?' !in s && '&' !in e && '?' !in e
    ensures '?' !in "start_date=" + s + "&end_date=" + e
    ensures '&' !in "start_date=" + s && '&' !in "end_date=" + e
  {
    var p1 := "start_date=";
    var p2 := "&end_date=";
    assert '?' !in p1 && '&' !in p1 && '?' !in p2 by {
      assert p1 == ['s','t','a','r','t','_','d','a','t','e','='];
      assert p2 == ['&','e','n','d','_','d','a','t','e','='];
    }
    assert '&' !in "end_date=" by {
      assert "end_date=" == ['e','n','d','_','d','a','t','e','='];
    }
  }

  /** `get_meals`: GET the meals endpoint with the optional date bounds. */
  method GetMeals<R>(startDate: Option<string>, endDate: Option<string>, storage: map<string, string>,
                     send: Outgoing -> Result<Reply, FetchError>, decode: string -> Result<R, FetchError>)
    returns (r: Result<R, ApiError>)
    ensures r == Request("GET", DateQuery("/meals", startDate, endDate), None, storage, send, decode)
  {
    var endpoint := DateQueryEndpoint("/meals", startDate, endDate);
    r := Request("GET", endpoint, None, storage, send, decode);
  }

  /** `get_nutrient_summary`: GET the summary endpoint with the optional date bounds. */
  method GetNutrientSummary<R>(startDate: Option<string>, endDate: Option<string>, storage: map<string, string>,
                               send: Outgoing -> Result<Reply, FetchError>, decode: string -> Result<R, FetchError>)
    returns (r: Result<R, ApiError>)
    ensures r == Request("GET", DateQuery("/summary", startDate, endDate), None, storage, send, decode)
  {
    var endpoint := DateQueryEndpoint("/summary", startDate, endDate);
    r := Request("GET", endpoint, None, storage, send, decode);
  }

  /** `delete_meal`: DELETE "/meals/{id}", discarding the body of a success. */
  function DeleteMeal(id: string, storage: map<string, string>, send: Outgoing -> Result<Reply, FetchError>,
                      decode: string -> Result<string, FetchError>): (r: Result<(), ApiError>)
    ensures r.Ok? <==> Request("DELETE", "/meals/" + id, None, storage, send, decode).Ok?
    ensures r.Err? ==> r.error == Request("DELETE", "/meals/" + id, None, storage, send, decode).error
  {
    match Request("DELETE", "/meals/" + id, None, storage, send, decode)
    case Ok(_) => Ok(())
    case Err(e) => Err(e)
  }

  /** `send_verification_code`: POST the phone to "/auth/send-code". */
  function SendVerificationCode(phoneJson: string, storage: map<string, string>, send: Outgoing -> Result<Reply, FetchError>,
                                decode: string -> Result<string, FetchError>): (r: Result<(), ApiError>)
    ensures r.Ok? <==> Request("POST", "/auth/send-code", Some(phoneJson), storage, send, decode).Ok?
    ensures r.Err? ==> r.error == Request("POST", "/auth/send-code", Some(phoneJson), storage, send, decode).error
  {
    match Request("POST", "/auth/send-code", Some(phoneJson), storage, send, decode)
    case Ok(_) => Ok(())
    case Err(e) => Err(e)
  }

  /** The answer of "/auth/verify". */
  datatype TokenResponse = TokenResponse(token: string)

  /** `verify_code`: POST phone and code to "/auth/verify" and return the answer's token. */
  function VerifyCode(requestJson: string, storage: map<string, string>, send: Outgoing -> Result<Reply, FetchError>,
                      decode: string -> Result<TokenResponse, FetchError>): (r: Result<string, ApiError>)
    ensures var answer := Request("POST", "/auth/verify", Some(requestJson), storage, send, decode);
      (r.Ok? <==> answer.Ok?) && (r.Ok? ==> r.value == answer.value.token) && (r.Err? ==> r.error == answer.error)
  {
    match Request("POST", "/auth/verify", Some(requestJson), storage, send, decode)
    case Ok(answer) => Ok(answer.token)
    case Err(e) => Err(e)
  }
}
