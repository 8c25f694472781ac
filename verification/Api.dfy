/**
 * The backend gateway (`ApiService` in src/services/api.ts).
 *
 * The gateway holds no state: every operation turns its typed arguments into
 * the arguments of one `makeRequest` call (an endpoint and a `RequestInit`),
 * `makeRequest` turns those into the request that goes on the wire, and the
 * outcome of `fetch` plus `response.json()` is normalised into a response
 * envelope. The outcome of the network is a parameter (`Transport`), so every
 * function here is total and pure.
 */
module Api {
  import opened Wrappers

  /** The fallback of `API_BASE_URL`; the `VITE_API_URL` override is configuration. */
  const ApiBaseUrl: string := "http://localhost:5000/api"
  const ContentType: string := "Content-Type"
  const Authorization: string := "Authorization"
  const JsonMediaType: string := "application/json"
  /** The one message of every envelope made up by the gateway itself. */
  const NetworkErrorMessage: string := "Network error. Please check your connection and try again."

  /** A JSON value, as `JSON.stringify` writes it and `response.json()` reads it
      (numbers are restricted to integers). */
  datatype Json =
    | JNull
    | JBool(b: bool)
    | JNumber(n: int)
    | JString(s: string)
    | JArray(items: seq<Json>)
    | JObject(fields: map<string, Json>)

  datatype User = User(
    id: string,
    firstName: string,
    lastName: string,
    email: string,
    company: string,
    role: string,
    isEmailVerified: bool,
    lastLogin: Option<string>,
    lastLoginIP: Option<string>)

  /** One field-level validation error reported by the backend. */
  datatype FieldError = FieldError(msg: string, param: string, value: Json)

  /** The uniform envelope of every gateway operation. */
  datatype ApiResponse<T> = ApiResponse(
    success: bool,
    message: string,
    data: Option<T>,
    errors: Option<seq<FieldError>>)

  /** Payloads of the typed operations. */
  datatype LoginData = LoginData(token: string, user: User)
  datatype UserData = UserData(user: User)

  datatype LoginRequest = LoginRequest(email: string, password: string, rememberMe: Option<bool>)

  /** The signup form as the UI fills it in, client-only fields included. */
  datatype SignupRequest = SignupRequest(
    firstName: string,
    lastName: string,
    email: string,
    company: string,
    password: string,
    confirmPassword: string,
    acceptTerms: bool)

  /** What remains of a `SignupRequest` once `confirmPassword` and `acceptTerms`
      are destructured away: the registration the backend receives. */
  datatype Registration = Registration(
    firstName: string,
    lastName: string,
    email: string,
    company: string,
    password: string)

  datatype ForgotPasswordRequest = ForgotPasswordRequest(email: string)

  type Headers = map<string, string>

  /** The `options` argument of `makeRequest` (`verb` is its `method`); `headers` is absent unless the
      caller passes its own, and `body` is the value given to `JSON.stringify`. */
  datatype RequestInit = RequestInit(verb: string, headers: Option<Headers>, body: Option<Json>)

  /** The arguments of one `makeRequest` call. */
  datatype Call = Call(endpoint: string, options: RequestInit)

  /** The request handed to `fetch`. */
  datatype HttpRequest = HttpRequest(url: string, verb: string, headers: Headers, body: Option<Json>)

  /** What `fetch` followed by `response.json()` produced: a parsed body, or an
      exception from either step (connection failure, malformed JSON, ...). */
  datatype Transport<T> = Delivered(body: ApiResponse<T>) | Failed

  /** The seven gateway operations with their arguments. */
  datatype Operation =
    | LoginOp(credentials: LoginRequest)
    | SignupOp(form: SignupRequest)
    | ForgotPasswordOp(data: ForgotPasswordRequest)
    | ResendVerificationOp(email: string)
    | GetCurrentUserOp(token: string)
    | LogoutOp(token: string)
    | CheckDomainOp(domain: string)

  // ---------------------------------------------------------------------
  // makeRequest

  /** The headers `makeRequest` sends when its caller supplies none. */
  function DefaultHeaders(): Headers {
    map[ContentType := JsonMediaType]
  }

  /** The request `makeRequest` hands to `fetch`. The init object is built as
      `{ headers: { 'Content-Type': ..., ...options.headers }, ...options }`:
      the trailing spread replaces the merged `headers` whenever the caller
      supplied its own. */
  function Target(call: Call): (req: HttpRequest)
    ensures |req.url| == |ApiBaseUrl| + |call.endpoint|
    ensures req.url[..|ApiBaseUrl|] == ApiBaseUrl && req.url[|ApiBaseUrl|..] == call.endpoint
    ensures req.verb == call.options.verb && req.body == call.options.body
    ensures call.options.headers.Some? ==> req.headers == call.options.headers.value
    ensures call.options.headers.None? ==> req.headers == DefaultHeaders()
  {
    var supplied := if call.options.headers.Some? then call.options.headers.value else map[];
    var merged := DefaultHeaders() + supplied;
    var headers := if call.options.headers.Some? then call.options.headers.value else merged;
    HttpRequest(ApiBaseUrl + call.endpoint, call.options.verb, headers, call.options.body)
  }

  /** The envelope `makeRequest` returns when `fetch` or `response.json()` throws. */
  function NetworkFailure<T>(): ApiResponse<T> {
    ApiResponse(false, NetworkErrorMessage, None, None)
  }

  /** The envelope `makeRequest` resolves to: the parsed body, whatever the
      HTTP status, or the fixed failure envelope. It never rejects. */
  function Settle<T>(outcome: Transport<T>): (r: ApiResponse<T>)
    ensures outcome.Delivered? ==> r == outcome.body
    ensures outcome.Failed? ==> !r.success && r.message != "" && r.data.None? && r.errors.None?
  {
    match outcome
    case Delivered(body) => body
    case Failed => NetworkFailure()
  }

  /** The header map a merge that kept the default Content-Type would produce. */
  function MergedHeaders(options: RequestInit): Headers {
    DefaultHeaders() + (if options.headers.Some? then options.headers.value else map[])
  }

  /** The merge quirk: the headers sent agree with a real merge exactly when the
      caller supplied no headers or supplied its own Content-Type; in every
      other case the request goes out without Content-Type. */
  lemma HeaderMergeQuirk(call: Call)
    ensures Target(call).headers == MergedHeaders(call.options)
            <==> (call.options.headers.None? || ContentType in call.options.headers.value)
    ensures ContentType in Target(call).headers
            <==> (call.options.headers.None? || ContentType in call.options.headers.value)
  {
  }

  /** Distinct endpoints never share a URL: the base URL is a fixed prefix. */
  lemma TargetUrlInjective(c1: Call, c2: Call)
    requires Target(c1).url == Target(c2).url
    ensures c1.endpoint == c2.endpoint
  {
  }

  /** Every parsed body is passed through untouched, and every envelope the
      gateway resolves to is either a body the backend sent or the fixed
      failure envelope: success and a payload only ever come from the backend. */
  lemma SettleNeverInvents<T>(outcome: Transport<T>)
    ensures Settle(outcome) == NetworkFailure() || (outcome.Delivered? && Settle(outcome) == outcome.body)
    ensures Settle(outcome).success ==> outcome.Delivered? && outcome.body.success
    ensures Settle(outcome).data.Some? ==> outcome.Delivered? && outcome.body.data == Settle(outcome).data
  {
  }

  // ---------------------------------------------------------------------
  // Request bodies and what the backend reads back from them

  /** `JSON.stringify(credentials)`: `rememberMe` is written only when defined. */
  function LoginJson(c: LoginRequest): Json {
    var base := map["email" := JString(c.email), "password" := JString(c.password)];
    JObject(if c.rememberMe.Some? then base["rememberMe" := JBool(c.rememberMe.value)] else base)
  }

  /** The login credentials a backend reads from a JSON body. */
  function DecodeLogin(j: Json): Option<LoginRequest> {
    if j.JObject? && j.fields.Keys <= {"email", "password", "rememberMe"}
       && "email" in j.fields && j.fields["email"].JString?
       && "password" in j.fields && j.fields["password"].JString?
       && ("rememberMe" in j.fields ==> j.fields["rememberMe"].JBool?)
    then
      var remember := if "rememberMe" in j.fields then Some(j.fields["rememberMe"].b) else None;
      Some(LoginRequest(j.fields["email"].s, j.fields["password"].s, remember))
    else None
  }

  /** `const { confirmPassword, acceptTerms, ...signupData } = userData`. */
  function Strip(form: SignupRequest): Registration {
    Registration(form.firstName, form.lastName, form.email, form.company, form.password)
  }

  /** Stripping forgets exactly the client-only fields: two forms yield the same
      registration precisely when they agree on the five fields that are sent,
      whatever their `confirmPassword` and `acceptTerms`. */
  lemma StripDropsOnlyClientFields(form: SignupRequest, other: SignupRequest)
    ensures Strip(form) == Strip(other)
            <==> (&& form.firstName == other.firstName && form.lastName == other.lastName
                  && form.email == other.email && form.company == other.company
                  && form.password == other.password)
    ensures Strip(form.(confirmPassword := other.confirmPassword, acceptTerms := other.acceptTerms)) == Strip(form)
  {
  }

  function RegistrationJson(r: Registration): Json {
    JObject(map[
      "firstName" := JString(r.firstName),
      "lastName" := JString(r.lastName),
      "email" := JString(r.email),
      "company" := JString(r.company),
      "password" := JString(r.password)])
  }

  /** The registration a backend reads from a JSON body. */
  function DecodeRegistration(j: Json): Option<Registration> {
    if j.JObject? && j.fields.Keys == RegistrationKeys()
       && j.fields["firstName"].JString? && j.fields["lastName"].JString?
       && j.fields["email"].JString? && j.fields["company"].JString?
       && j.fields["password"].JString?
    then Some(Registration(j.fields["firstName"].s, j.fields["lastName"].s, j.fields["email"].s,
                           j.fields["company"].s, j.fields["password"].s))
    else None
  }

  function RegistrationKeys(): set<string> {
    {"firstName", "lastName", "email", "company", "password"}
  }

  /** A body holding only `email`, as `forgotPassword` and `resendVerification` send. */
  function EmailJson(email: string): Json {
    JObject(map["email" := JString(email)])
  }

  function DecodeEmail(j: Json): Option<string> {
    if j.JObject? && j.fields.Keys == {"email"} && j.fields["email"].JString?
    then Some(j.fields["email"].s)
    else None
  }

  // ---------------------------------------------------------------------
  // Bearer credentials (section 2.1 of RFC 6750)

  /** The `Authorization` value `getCurrentUser` and `logout` send. */
  function BearerHeader(token: string): string {
    "Bearer " + token
  }

  /** A character allowed in a b64token: ALPHA / DIGIT / "-" / "." / "_" / "~" / "+" / "/". */
  predicate IsB64Char(c: char) {
    ('A' <= c <= 'Z') || ('a' <= c <= 'z') || ('0' <= c <= '9')
    || c == '-' || c == '.' || c == '_' || c == '~' || c == '+' || c == '/'
  }

  /** `b64token = 1*( ALPHA / DIGIT / "-" / "." / "_" / "~" / "+" / "/" ) *"="`. */
  predicate IsB64Token(t: string) {
    && |t| > 0
    && IsB64Char(t[0])
    && (forall i :: 0 <= i < |t| ==> IsB64Char(t[i]) || t[i] == '=')
    && (forall i, j :: 0 <= i < j < |t| && t[i] == '=' ==> t[j] == '=')
  }

  /** Leading spaces removed. */
  function DropSpaces(s: string): (r: string)
    ensures |r| <= |s| && r == s[|s| - |r|..]
    ensures r == [] || r[0] != ' '
    ensures forall i :: 0 <= i < |s| - |r| ==> s[i] == ' '
  {
    if s != [] && s[0] == ' ' then DropSpaces(s[1..]) else s
  }

  /** The token of `credentials = "Bearer" 1*SP b64token`, read back from a header value. */
  function ParseBearer(h: string): Option<string> {
    if |h| > 6 && h[..6] == "Bearer" && h[6] == ' ' then
      var t := DropSpaces(h[6..]);
      if IsB64Token(t) then Some(t) else None
    else None
  }

  /** The header the gateway writes hands a reader exactly the token it was
      built from precisely when that token is a b64token; the source does not
      check this, so an empty token, for one, yields a header a conforming
      reader rejects. */
  lemma BearerRoundTrip(token: string)
    ensures ParseBearer(BearerHeader(token)) == Some(token) <==> IsB64Token(token)
    ensures token == "" ==> ParseBearer(BearerHeader(token)).None?
  {
  }

  // ---------------------------------------------------------------------
  // The operations of ApiService

  function LoginCall(credentials: LoginRequest): Call {
    Call("/auth/login", RequestInit("POST", None, Some(LoginJson(credentials))))
  }

  function SignupCall(form: SignupRequest): Call {
    Call("/auth/register", RequestInit("POST", None, Some(RegistrationJson(Strip(form)))))
  }

  function ForgotPasswordCall(data: ForgotPasswordRequest): Call {
    Call("/auth/forgot-password", RequestInit("POST", None, Some(EmailJson(data.email))))
  }

  function ResendVerificationCall(email: string): Call {
    Call("/auth/resend-verification", RequestInit("POST", None, Some(EmailJson(email))))
  }

  function GetCurrentUserCall(token: string): Call {
    Call("/auth/me", RequestInit("GET", Some(map[Authorization := BearerHeader(token)]), None))
  }

  function LogoutCall(token: string): Call {
    Call("/auth/logout", RequestInit("POST", Some(map[Authorization := BearerHeader(token)]), None))
  }

  function CheckDomainCall(domain: string): Call {
    Call("/company/check-domain/" + domain, RequestInit("GET", None, None))
  }

  function CallOf(op: Operation): Call {
    match op
    case LoginOp(c) => LoginCall(c)
    case SignupOp(f) => SignupCall(f)
    case ForgotPasswordOp(d) => ForgotPasswordCall(d)
    case ResendVerificationOp(e) => ResendVerificationCall(e)
    case GetCurrentUserOp(t) => GetCurrentUserCall(t)
    case LogoutOp(t) => LogoutCall(t)
    case CheckDomainOp(d) => CheckDomainCall(d)
  }

  /** The request each operation puts on the wire. */
  function Request(op: Operation): HttpRequest {
    Target(CallOf(op))
  }

  /** Login POSTs the credentials unchanged to /auth/login with a JSON content type. */
  lemma LoginRequestCarriesCredentials(c: LoginRequest)
    ensures Request(LoginOp(c)).url == ApiBaseUrl + "/auth/login"
    ensures Request(LoginOp(c)).verb == "POST"
    ensures Request(LoginOp(c)).headers == DefaultHeaders()
    ensures Request(LoginOp(c)).body.Some? && DecodeLogin(Request(LoginOp(c)).body.value) == Some(c)
  {
  }

  /** Signup sends exactly the five registration fields, taken unchanged from the
      form; `confirmPassword` and `acceptTerms` never leave the client, so two
      forms that differ only in those fields produce the same request. */
  lemma SignupStripsClientFields(form: SignupRequest, other: SignupRequest)
    ensures Request(SignupOp(form)).url == ApiBaseUrl + "/auth/register"
    ensures Request(SignupOp(form)).verb == "POST"
    ensures Request(SignupOp(form)).body.Some?
    ensures Request(SignupOp(form)).body.value.JObject?
    ensures Request(SignupOp(form)).body.value.fields.Keys == RegistrationKeys()
    ensures "confirmPassword" !in Request(SignupOp(form)).body.value.fields
    ensures "acceptTerms" !in Request(SignupOp(form)).body.value.fields
    ensures DecodeRegistration(Request(SignupOp(form)).body.value) == Some(Strip(form))
    ensures Strip(other) == Strip(form) ==> Request(SignupOp(other)) == Request(SignupOp(form))
  {
  }

  /** Both e-mail-only operations send a body holding only the address. */
  lemma EmailOnlyRequests(email: string)
    ensures Request(ForgotPasswordOp(ForgotPasswordRequest(email))).url == ApiBaseUrl + "/auth/forgot-password"
    ensures Request(ResendVerificationOp(email)).url == ApiBaseUrl + "/auth/resend-verification"
    ensures Request(ForgotPasswordOp(ForgotPasswordRequest(email))).verb == "POST"
    ensures Request(ResendVerificationOp(email)).verb == "POST"
    ensures Request(ForgotPasswordOp(ForgotPasswordRequest(email))).body.Some?
    ensures DecodeEmail(Request(ForgotPasswordOp(ForgotPasswordRequest(email))).body.value) == Some(email)
    ensures Request(ResendVerificationOp(email)).body.Some?
    ensures DecodeEmail(Request(ResendVerificationOp(email)).body.value) == Some(email)
  {
  }

  /** `checkDomain` GETs a URL string that ends with the domain exactly as
      given: nothing is escaped. Distinct domains give distinct URL strings;
      what `fetch` makes of that string (fragments, dot segments) is not
      modelled. */
  lemma CheckDomainUnescaped(d1: string, d2: string)
    ensures Request(CheckDomainOp(d1)).url == ApiBaseUrl + "/company/check-domain/" + d1
    ensures Request(CheckDomainOp(d1)).verb == "GET" && Request(CheckDomainOp(d1)).body.None?
    ensures Request(CheckDomainOp(d1)).url == Request(CheckDomainOp(d2)).url ==> d1 == d2
  {
    var p := "/company/check-domain/";
    if Request(CheckDomainOp(d1)).url == Request(CheckDomainOp(d2)).url {
      TargetUrlInjective(CheckDomainCall(d1), CheckDomainCall(d2));
      assert d1 == (p + d1)[|p|..] == (p + d2)[|p|..] == d2;
    }
  }

  /** Across all seven operations: a request carries `Authorization` exactly when
      it is `getCurrentUser` (a GET of /auth/me) or `logout` (a POST to
      /auth/logout), neither of which has a body; its value is then `"Bearer " + token`,
      and because of the merge quirk those two requests, and only those,
      carry no Content-Type. */
  lemma AuthorizationOnlyOnBearerOperations(op: Operation)
    ensures Authorization in Request(op).headers <==> (op.GetCurrentUserOp? || op.LogoutOp?)
    ensures Authorization in Request(op).headers
            ==> Request(op).headers == map[Authorization := BearerHeader(op.token)]
    ensures ContentType in Request(op).headers <==> Authorization !in Request(op).headers
    ensures op.GetCurrentUserOp? ==> Request(op).url == ApiBaseUrl + "/auth/me" && Request(op).verb == "GET"
    ensures op.LogoutOp? ==> Request(op).url == ApiBaseUrl + "/auth/logout" && Request(op).verb == "POST"
    ensures (op.GetCurrentUserOp? || op.LogoutOp?) ==> Request(op).body.None?
    ensures (op.GetCurrentUserOp? || op.LogoutOp?) && IsB64Token(op.token)
            ==> ParseBearer(Request(op).headers[Authorization]) == Some(op.token)
  {
  }
}
