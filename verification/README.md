# AB Macros: sign-in, gates and meal store, modelled in Dafny

AB Macros is a meal and macronutrient tracker. This project models the parts of
it that decide who may do what, and the small stores underneath them:

- **Phone sign-in** (`src/auth.rs`, `src/db.rs`). A phone number is normalised
  to E.164 form. A six-digit one-time code is stored as `"code:expiry"` under
  that number, and it verifies once, before it expires. The handlers add the
  reserved test identity ("123" / "123456") and map outcomes to HTTP statuses.
  A verified phone receives a signed token whose claims expire seven days later.
- **The bearer gate** around `/api` (`src/main.rs`). It bypasses any path
  containing "/auth/" and reads a `Bearer` header. It then either attaches the
  decoded claims to the request or answers 401. The `Claims` extractor fails
  exactly when nothing was attached.
- **The meal store and meal endpoints** (`src/db.rs`, `src/api.rs`). Each
  user's meals live in a sled tree keyed by the big-endian bytes of the
  insertion second. A half-open range scan reads them back in key order. The
  handlers default the date range, bind the owner from the claims and decode
  what they read.
- **The OAuth backend** (`backend/src/main.rs`). A cookie-session gate has an
  exact three-path allowlist and a strict expiry check. The `AuthenticatedUser`
  extractor and the non-network flow of the OAuth callback are also modelled.
- **The browser client** (`frontend/src/...`):
  - the API client's URL, header and status handling, and its query builder;
  - the `AuthState` that mirrors the token in local storage;
  - the meal-entry form's selection list and submit checks;
  - route protection.

Time is an integer `now` parameter. These are function or outcome parameters:
JWT signing and decoding, JSON encoding and decoding, the SMS provider, the
OAuth provider's HTTP calls, the browser's fetch, RFC 3339 parsing and fresh
ids. Each store is a class whose `healthy` flag decides whether its operations
fail. A failing operation changes nothing. Request extensions are modelled by
the one slot each server uses: `Claims` in the phone-login server, `User` in
the backend.

sled orders keys as bytes, and `i64::to_be_bytes` keys are compared that way.
`ByteOrder` proves two facts about this:

- the byte order is the unsigned order of the keys' 64-bit patterns;
- for non-negative timestamps, that is the ordinary order.

So a range scan is exactly `start <= key < end` for non-negative times.

Two behaviours of the code are proved as lemmas:

- **The backend's session gate wraps every route, static files included.** A
  visitor without a session is refused even "/" and "/login"
  (`Backend.FrontendPagesNeedSession`).
- **The meal form can never submit.** It sends `format!("{}T{}:00", date, time)`
  to an RFC 3339 parser, and the text never carries the time-offset suffix that
  section 5.6 of RFC 3339 requires (`MealEntry.DateTimeTextHasNoOffset`). A
  parser that enforces the standard therefore rejects every submission.

## Model

| member | source | states |
|---|---|---|
| Phone.Digits | src/auth.rs:212 | the kept characters are all ASCII digits and no more than the input |
| Phone.NormalizePhone | src/auth.rs:210-221 | the result is '+' followed only by digits, which are the input's digits, possibly preceded by a country-code "1" |
| Phone.DigitsAppend | src/auth.rs:212 | digit filtering distributes over concatenation |
| Phone.DigitsOfDigitString | src/auth.rs:212 | a string of digits is kept whole |
| Phone.NonDigitIgnored | src/auth.rs:212 | inserting a non-digit character anywhere does not change the digits kept |
| Phone.SameDigitsSameNumber | src/auth.rs:210-221 | inputs with the same digits (e.g. dashed and plain forms) normalise identically |
| Phone.DigitsOfNormalized | src/auth.rs:210-221 | the digits of a normalised number are everything after its '+' |
| Phone.CountryCodeAdded | src/auth.rs:216-217 | "+1" is prepended exactly when there are 10 digits not starting with '1' |
| Phone.PlusPrefixed | src/auth.rs:214-219 | "+" alone is prepended in every other case, including 11 digits starting with '1' |
| Phone.NormalizeIdempotent | src/auth.rs:210-221 | normalising a normalised number returns it unchanged |
| Phone.TestNumberNormalized | src/auth.rs:77-81 | the test phone "123" normalises to "+123" |
| OneTimeCode.FormatCode | src/auth.rs:66-69 | for every draw below 1000000 the code is exactly six decimal digits whose value is the draw, with no ':' |
| Token.CreateClaims | src/auth.rs:189-200 | sub is the phone; iat and exp are the `as usize` casts of now and now plus seven days, so for non-negative now exp = iat + 604800 > iat |
| Token.CreateToken | src/auth.rs:189-206 | the result is the signer's output for claims naming the phone, issued at now and, for non-negative now, expiring seven days later; a signing failure is passed on |
| Db.StoredRecordAccepts | src/db.rs:37-59 | after storing (code, expiry) for a phone, a presented code is accepted iff it equals the stored code and now < expiry, for any code without ':' |
| Db.ConsumedCodeRejected | src/db.rs:56-59 | once the record is removed, no code verifies for that phone |
| Db.UnparsableExpiryRejected | src/db.rs:53 | an expiry that does not parse counts as 0 and never verifies at a non-negative time |
| Db.MealTreeName | src/db.rs:16-24 | a user's meal tree is never the verifications tree |
| Db.MealTreeNameInjective | src/db.rs:16-24 | different users have different meal trees |
| Db.TreeInsert | src/db.rs:18 | an insert keeps the tree sorted by key and adds nothing but the new entry |
| Db.LookupIsMember | src/db.rs:18 | in a sorted tree, keys are unique: looking up a key finds exactly the entry the tree holds |
| Db.LookupAfterInsert | src/db.rs:15-19 | after inserting at second k, k holds the new meal (a second insert in the same second replaces the first) and every other key keeps its value |
| Db.RangeScanMembers | src/db.rs:27-31 | the scan holds exactly the tree's entries whose key bytes lie in [start, end) |
| Db.RangeScanFromTree | src/db.rs:27-31 | every scanned pair is an entry of the tree, in range |
| Db.RangeScanAscending | src/db.rs:27-31 | the scan of a sorted tree has strictly ascending keys |
| Db.RangeScanNonNegative | src/db.rs:23-33 | for non-negative times the scan is exactly the entries with start <= key < end |
| Db.ScanRange | src/db.rs:25-33 | the loop's result equals the range scan of the tree |
| Db.AppDb.constructor | src/db.rs:10-12 | wraps an already-open database: the store holds exactly the records and meal trees it is given (each sorted by key), with the given health |
| Db.AppDb.AddMeal | src/db.rs:15-20 | inserts the meal into the user's tree under now; other users' trees and the verifications are untouched; a failing store changes nothing |
| Db.AppDb.GetMeals | src/db.rs:23-34 | returns the range scan of the user's tree (creating it empty if missing), or an error |
| Db.AppDb.StoreVerification | src/db.rs:37-41 | overwrites the phone's record with "code:expiry", so there is one record per phone |
| Db.AppDb.VerifyCode | src/db.rs:44-65 | answers exactly whether the record accepts the code at now; removes the record iff it answers true, so a second call is false; false leaves the records unchanged |
| ByteOrder.BeBytes | src/db.rs:18-27 | n big-endian bytes of a value below 256^n |
| ByteOrder.LexLessAppend | src/db.rs:27 | lexicographic order of equal-length byte strings is decided by the first difference |
| ByteOrder.BeBytesInjective | src/db.rs:18 | distinct values have distinct big-endian encodings |
| ByteOrder.BeBytesOrder | src/db.rs:27 | big-endian encodings compare as the values do |
| ByteOrder.Pow256Is64Bits | src/db.rs:18 | eight bytes hold exactly the 64-bit range |
| ByteOrder.ToBeBytes | src/db.rs:18 | `i64::to_be_bytes` gives eight bytes |
| ByteOrder.KeyOrder | src/db.rs:27 | i64 keys compare as bytes exactly as their unsigned 64-bit patterns compare |
| ByteOrder.ByteRangeIsUnsignedRange | src/db.rs:27 | a key is in the byte range iff its unsigned pattern is in [start, end) |
| ByteOrder.ByteRangeNonNegative | src/db.rs:27 | for non-negative times the byte range is start <= key < end |
| ByteOrder.NegativeStartAdmitsNoNonNegativeKey | src/db.rs:27 | a negative start bound (above every non-negative key as bytes) admits no non-negative key |
| Numbers.AsU64 | src/auth.rs:195-196 | the `as u64`/`as usize` cast: the value modulo 2^64, unchanged when non-negative |
| Numbers.NatToString | src/db.rs:39 | decimal digits without leading zero whose value is the number |
| Numbers.IntToString | src/db.rs:39 | the `{}` rendering of an i64 contains no ':' |
| Numbers.ParseI64 | src/db.rs:53 | `str::parse::<i64>`: an optional sign and at least one digit, within range |
| Numbers.ParseIntToString | src/db.rs:39-53 | parsing the rendering of an i64 gives it back |
| Numbers.NatToStringLength | src/auth.rs:68 | a number below 10^k has at most k digits |
| Numbers.LeadingZeros | src/auth.rs:68 | zero padding keeps the decimal value |
| Numbers.ZerosValue | src/auth.rs:68 | a run of zeros has value 0 |
| Text.Split | src/db.rs:49 | `split(':')` yields at least one piece |
| Text.SplitWithoutSeparator | src/db.rs:49 | a string without the separator is one piece |
| Text.SplitAtFirstSeparator | src/db.rs:49 | a split at the first separator gives the piece before it, then the split of the rest |
| AuthHandlers.SendSms | src/auth.rs:224-287 | the test number "+123" is never messaged and counts as sent; missing credentials fail without sending; otherwise the code text goes to the number and the provider decides |
| AuthHandlers.TokenReply | src/auth.rs:149-172 | 200 with the token iff signing succeeded, else 500 "Failed to generate token" |
| AuthHandlers.SendCode | src/auth.rs:72-137 | raw "123" stores "123456" under "+123" for ten minutes and never reaches SMS; other phones store the formatted code for ten minutes under the normalised phone; a store failure is 500 with no SMS; DEV_MODE "1" is 200 with no SMS; an SMS failure is 500 and keeps the record |
| AuthHandlers.VerifyCode | src/auth.rs:140-186 | ("123", "123456") gets a token for "+123" without touching the store; otherwise an accepted code gets a token for the normalised phone and consumes the record, a rejected one is 400 with the store unchanged, a store failure is 500 |
| AuthHandlers.ClaimsFromRequest | src/auth.rs:30-36 | fails with Unauthorized "Not authorized" iff no claims are attached, else returns them |
| AuthHandlers.SentCodeVerifies | src/auth.rs:94-163 | a code sent to a phone verifies for any spelling with the same digits iff presented before its expiry |
| BearerGate.HeaderText | src/main.rs:95 | one character per header byte |
| BearerGate.AsciiBytes | src/main.rs:94-95 | ASCII text written as header bytes reads back as the same text |
| BearerGate.BearerToken | src/main.rs:96-97 | the token is the header with its "Bearer " prefix removed |
| BearerGate.Decide | src/main.rs:84-122 | passes iff the path contains "/auth/"; attaches iff the header is visible ASCII, starts with "Bearer " and its token decodes; "Invalid token" iff it decodes not; "Authorization required" iff the header is missing, unreadable or not Bearer |
| BearerGate.Route | src/main.rs:81-149 | outside `/api` requests go to the static files untouched; inside, the decision is applied and only an attach changes the request, by inserting the claims |
| BearerGate.BearerHeaderCarriesToken | src/main.rs:94-97 | "Bearer " + a visible-ASCII token passes the header checks and yields that token |
| BearerGate.IssuedTokenPasses | src/auth.rs:189-207 | a token from `create_token` is attached with claims for its phone on any non-auth path, when the decoder inverts the signer |
| BearerGate.AuthSegmentAnywhereBypasses | src/main.rs:89-91 | "/auth/" anywhere in the path bypasses the check, whatever the header |
| MealApi.EffectiveRange | src/api.rs:102-103 | the end defaults to now; a missing start is one week before the end |
| MealApi.DecodeMeals | src/api.rs:108-113 | every meal listed is the decoding of some stored record, and no more meals than records |
| MealApi.DecodeMealsAppend | src/api.rs:108-113 | decoding distributes over concatenation, so store order is kept |
| MealApi.UndecodableDropped | src/api.rs:110-112 | a record that fails to decode is silently dropped and nothing else changes |
| MealApi.AllDecodeOneToOne | src/api.rs:108-113 | when every record decodes, the meals are the records' decodings one for one |
| MealApi.DecodedRecordListed | src/api.rs:108-113 | a scanned record that decodes appears in the answer |
| MealApi.GetMeals | src/api.rs:94-124 | 200 with the decoded scan of the caller's tree over the defaulted range, or 500 "Failed to fetch meals"; the store's health and records are unchanged, and the only change to the meal trees is that the caller's tree exists (empty if new) |
| MealApi.BuildMeal | src/api.rs:132-141 | the meal's owner is the caller whatever the body says; its timestamp is the body's or now; name, items and notes are the body's |
| MealApi.AddMeal | src/api.rs:127-162 | 500 "Failed to process meal data" if encoding fails, 500 "Failed to save meal" if the store fails, both leaving the trees unchanged; else 201 with the meal, inserted in the caller's tree under now; the store's health and records are unchanged |
| MealApi.AddedMealListed | src/api.rs:138-146 | the added meal is listed by a later range query iff the range holds the second it was added in; its own timestamp plays no part |
| MealApi.StubResponse | src/api.rs:165-209 | delete, summary, get targets and update targets all answer 501 with a message |
| MealApi.GetProfile | src/api.rs:212-225 | id and phone are both the caller's sub; no targets |
| Backend.Clock | backend/src/main.rs:91 | `timestamp() as u64`: the time itself when non-negative, else wrapped |
| Backend.SessionDecide | backend/src/main.rs:80-109 | bypasses iff the path is one of the three public paths; admits iff the session's "user" parses with expires_at strictly after the clock, attaching that user; refuses otherwise |
| Backend.Session.constructor | backend/src/main.rs:312-317 | a session holding the given entries |
| Backend.Session.Get | backend/src/main.rs:87 | the stored value iff the key is present |
| Backend.Session.Insert | backend/src/main.rs:219 | stores the value, or fails and changes nothing |
| Backend.SessionGate | backend/src/main.rs:74-113 | applies the decision: a bypass or admit forwards (admit inserts the user), a refusal answers 401 with error "Unauthorized" and its message |
| Backend.AuthenticatedUser | backend/src/main.rs:63-70 | fails with Unauthorized iff no user is attached, else returns it |
| Backend.ExpiryInstantRefused | backend/src/main.rs:92 | a user whose expires_at equals the clock is refused |
| Backend.FrontendPagesNeedSession | backend/src/main.rs:320-328 | without a session even "/" and "/login" are refused, since the gate wraps the static files too |
| Backend.UserDb.constructor | backend/src/main.rs:279-281 | the opened database holds exactly the entries already on disk, with the given health |
| Backend.UserDb.Insert | backend/src/main.rs:213-216 | stores the value under the key, or fails and changes nothing |
| Backend.UserKey | backend/src/main.rs:214 | "user:" followed by the id |
| Backend.UserKeyInjective | backend/src/main.rs:214 | different users are stored under different keys |
| Backend.CallbackUser | backend/src/main.rs:199-210 | the provider's id and name, the tokens, and expires_at = clock + expires_in when that fits in a u64 |
| Backend.OAuthCallback | backend/src/main.rs:132-234 | 400 "Missing code parameter" when the code is missing; 500 with its text for each failing provider step; nothing is stored in the database or the session unless the code is present and both provider steps succeed; then the user is stored under "user:{id}" and only then put in the session, answering 302 to "/" or 500 for the failing store |
| Backend.CallbackSessionAdmits | backend/src/main.rs:87-222 | the session written by a successful callback admits the user on protected paths exactly until expires_in seconds have passed |
| ClientAuth.GetToken | frontend/src/utils/storage.rs:4-9 | the value under "auth_token" iff it is stored |
| ClientAuth.LocalStorage.constructor | frontend/src/utils/storage.rs:1-9 | local storage holding the given items |
| ClientAuth.AuthState.constructor | frontend/src/store/auth.rs:15-26 | signed in iff a token is stored, holding that token; user id None |
| ClientAuth.AuthState.Login | frontend/src/store/auth.rs:28-34 | holds Some(token), signed in, user id unchanged, and the token saved under "auth_token"; signed in iff a token is held |
| ClientAuth.AuthState.Logout | frontend/src/store/auth.rs:36-43 | token and user id None, signed out, "auth_token" deleted; signed in iff a token is held |
| ClientAuth.LogoutTwice | frontend/src/store/auth.rs:36-43 | signing out twice ends where signing out once does |
| ClientApi.ParseMethod | frontend/src/api.rs:48-54 | exactly GET, POST, PUT and DELETE are accepted, each as itself |
| ClientApi.WithAuth | frontend/src/api.rs:32-38 | adds "Authorization: Bearer <token>" iff a token is given and leaves the request otherwise unchanged |
| ClientApi.Prepare | frontend/src/api.rs:46-61 | the URL is "/api" + endpoint; an Authorization header is present iff a token is stored, carrying it; Content-Type JSON iff there is a body |
| ClientApi.ReadJson | frontend/src/api.rs:19-23 | a body that cannot be read or decoded is a network error |
| ClientApi.Interpret | frontend/src/api.rs:66-80 | only 200 and 201 can succeed and they decode the body; 401 iff Unauthorized; 404 iff NotFound; every other status is an error carrying it and the body text or "Unknown error" |
| ClientApi.Request | frontend/src/api.rs:41-81 | an unknown method fails with "Invalid HTTP method" before sending; a failed send is a network error; otherwise the answer is interpreted |
| ClientApi.DateQueryEndpoint | frontend/src/api.rs:128-144 | the pushes build the base alone, "?start_date=S", "?end_date=E" or "?start_date=S&end_date=E" |
| ClientApi.BothDatesSplitBack | frontend/src/api.rs:131-144 | with both dates, the query splits back into exactly the two parameters |
| ClientApi.TwoParametersSplitBack | frontend/src/api.rs:131-144 | "base?a&b" splits at '?' then '&' into its pieces |
| ClientApi.ParametersHaveNoSeparators | frontend/src/api.rs:135-142 | the parameter texts add no separator of their own |
| ClientApi.GetMeals | frontend/src/api.rs:127-147 | GET of the meals endpoint with the date query |
| ClientApi.GetNutrientSummary | frontend/src/api.rs:159-182 | GET of the summary endpoint with the same date query |
| ClientApi.DeleteMeal | frontend/src/api.rs:153-156 | DELETE of "/meals/{id}", succeeding iff the request does |
| ClientApi.SendVerificationCode | frontend/src/api.rs:84-97 | POST to "/auth/send-code", succeeding iff the request does |
| ClientApi.VerifyCode | frontend/src/api.rs:99-119 | POST to "/auth/verify", returning the answer's token |
| EndToEnd.StoredTokenPassesGate | frontend/src/api.rs:32-38 | a stored visible-ASCII token that the server decodes is attached by the server's gate on any non-auth endpoint |
| EndToEnd.SignInCallsBypassGate | frontend/src/api.rs:94-116 | the client's sign-in calls pass the server's gate without credentials |
| MealEntry.UpsertSelection | frontend/src/pages/meal_entry.rs:140-155 | the loop's result is the upsert of the selection |
| MealEntry.FirstIndex | frontend/src/pages/meal_entry.rs:144-149 | the first entry with the id, and none before it |
| MealEntry.UpsertOverwrites | frontend/src/pages/meal_entry.rs:143-150 | an id already selected keeps its place: only the first entry with it changes, only in amount |
| MealEntry.UpsertAppends | frontend/src/pages/meal_entry.rs:153-155 | a new id is appended at the end |
| MealEntry.UpsertKeepsDistinct | frontend/src/pages/meal_entry.rs:143-155 | distinct ids stay distinct after an add |
| MealEntry.Without | frontend/src/pages/meal_entry.rs:167 | removal never lengthens the selection |
| MealEntry.RetainOthers | frontend/src/pages/meal_entry.rs:166-168 | the loop's result is the selection without the id |
| MealEntry.WithoutAppend | frontend/src/pages/meal_entry.rs:167 | removal distributes over concatenation, so the rest keep their order |
| MealEntry.WithoutMembers | frontend/src/pages/meal_entry.rs:167 | an entry remains iff it was there and has another id |
| MealEntry.WithoutAbsent | frontend/src/pages/meal_entry.rs:167 | removing an id that is not selected changes nothing |
| MealEntry.ItemsOf | frontend/src/pages/meal_entry.rs:258-264 | one item per selected pair, in order, with its id and amount |
| MealEntry.DateTimeText | frontend/src/pages/meal_entry.rs:248 | the date, "T", the time and ":00" |
| MealEntry.DateTimeTextHasNoOffset | frontend/src/pages/meal_entry.rs:248-249 | with an "HH:MM" time the text has no RFC 3339 offset suffix |
| MealEntry.MealForm.constructor | frontend/src/pages/meal_entry.rs:22-35 | the form's initial state handles |
| MealEntry.MealForm.AddFood | frontend/src/pages/meal_entry.rs:125-158 | no change for an empty or unknown id; otherwise the upsert of the chosen amount |
| MealEntry.MealForm.RemoveFood | frontend/src/pages/meal_entry.rs:165-169 | the selection without the id |
| MealEntry.MealForm.Submit | frontend/src/pages/meal_entry.rs:222-276 | empty name, then empty selection, then unparsable date-time each set their message and build no meal; otherwise the meal has the props id or a fresh one, owner "current_user", the items one for one and notes None iff empty |
| MealEntry.MealForm.Submitted | frontend/src/pages/meal_entry.rs:279-294 | success goes to the meal list, failure sets "Failed to save meal. Please try again."; submitting ends |
| AppRoutes.IsProtected | frontend/src/app.rs:35-40 | false exactly for Login and NotFound, so true for every MealDetail id |
| AppRoutes.RenderRoute | frontend/src/app.rs:64-75 | MealDetail{id} renders the entry page with that id, NewMeal with none, and only these render it |
| AppRoutes.Switch | frontend/src/app.rs:43-61 | the tree is wrapped in AuthGuard iff the route is protected; inside any guard, every route renders its own page in MainLayout |
| AppRoutes.RenderRouteInjective | frontend/src/app.rs:64-75 | different routes render different pages |
| AppRoutes.UnguardedPages | frontend/src/app.rs:43-75 | only the login and not-found pages render without the guard |

## Left out

- JWT signing and decoding, HS256 and the library's `exp` validation are parameters. A decoder is assumed to invert its signer only where a lemma says so.
- The random draw of `generate_code`, `Uuid::new_v4` ids and the OAuth state are parameters.
- The SMS provider's HTTP call is an outcome (configured, delivers). The OAuth provider's token and user-info calls are outcome parameters, and the browser's fetch is a function parameter.
- Environment variables (`DEV_MODE`, `JWT_SECRET`, the provider credentials) are inputs. A missing `JWT_SECRET` panics in the source, which is not modelled.
- Logging, server setup, CORS, static-file serving and the wasm boot are not modelled.
- `get_foods` returns a fixed list of two foods with `f32` nutrient figures. It is not modelled.
- `get_auth_url`, `get_me`, `logout` and `protected_endpoint` in the backend are not modelled. They only format JSON around the extractor or the session.
- The cookie-session middleware `AuthCheck` (backend/src/auth_middleware/middleware.rs) is not part of this model. It is never installed.
- Floating point is not modelled: meal amounts are kept as 32-bit patterns and never computed with. Nutrient summaries do not exist in the source.
- Date-times are whole seconds (`timestamp()`). Sub-second precision is dropped.
- A handler reads the clock once, as its `now` parameter. In the source, the meal's default timestamp (src/api.rs:138) and its storage key (src/db.rs:17) are separate reads. So are the code's expiry check (src/db.rs:54) and the token's `iat` (src/auth.rs:192). These can differ by a second at a boundary, which the model does not capture.
- RFC 3339 parsing in the meal form is a parameter. So are the decoding of query dates and `AddMealRequest` on the server, and `serde_json` in both directions.
- MealApi.GetMeals: it requires that subtracting a week from the end date stays within i64, where chrono would panic. chrono's narrower date range is not modelled.
- Backend.CallbackUser: the `u64` sum `now + expires_in` is modelled as wrapping, as a release build does; a debug build panics instead.
- Token.CreateClaims: it requires now + seven days to fit in an i64; chrono would panic beyond its own, narrower range.
- Failures of `session.get`, of serialising a `User` (`unwrap`), and of `LocalStorage::set` (`expect`) are not modelled. Each either cannot happen for these types or panics.
- Sending a request body that fails to serialise on the client (`.json(data)?`) is not modelled. Bodies arrive already encoded.
- The frontend's own `models.rs` is not part of this model. The meal form builds the server's `Meal` shape, which it mirrors.
- Which route a browser path maps to is decided by yew_router's `#[at]` matching, which is not modelled; only `switch` and `render_route` are.
- The pages' rendering, styles, the food-loading effect, the edit-mode stub and `spawn_local` concurrency are not modelled.
