/**
 The authentication service of the reminder job: a cached bearer token that is
 obtained by signing in lazily, and the shaping of authenticated requests
 (URL resolution against a base URL and the merge of header dictionaries).

 The HTTP exchange itself is not modelled: the reply to the sign-in POST is a
 parameter, and an authenticated request yields the request record that would
 be handed to the HTTP client.
 */
module Auth {
  import opened Results

  /** Fallback used when `API_BASE_URL` is unset or empty. */
  const DefaultBaseUrl: string := "https://editorapp-be.fly.dev/api"

  /** `process.env.API_BASE_URL || DefaultBaseUrl`: an unset variable and an
      empty one are both falsy, so both are represented by "". */
  function BaseUrlFrom(envBaseUrl: string): (baseUrl: string)
    ensures baseUrl != ""
    ensures envBaseUrl != "" ==> baseUrl == envBaseUrl
    ensures envBaseUrl == "" ==> baseUrl == DefaultBaseUrl && "http" <= baseUrl
  {
    if envBaseUrl != "" then envBaseUrl else DefaultBaseUrl
  }

  // ---------------------------------------------------------------------------
  // Sign-in reply and its validation

  /** The parsed JSON body of the sign-in reply. Only truthiness matters to the
      source, so a missing or empty `message` / `data.accessToken` is "" and a
      body that is not an object behaves as `success == false`, `message == ""`. */
  datatype SignInBody = SignInBody(success: bool, message: string, accessToken: string)

  /** What the HTTP client resolves with for the sign-in POST. */
  datatype SignInReply = SignInReply(status: nat, statusText: string, data: SignInBody)

  function DigitChar(d: nat): (c: char)
    requires d < 10
    ensures '0' <= c <= '9'
  {
    "0123456789"[d]
  }

  /** Decimal rendering of a status code inside a template literal. */
  function Decimal(n: nat): (s: string)
    ensures s != []
    ensures forall i | 0 <= i < |s| :: '0' <= s[i] <= '9'
    ensures |s| == 1 <==> n < 10
    ensures |s| > 1 ==> s[0] != '0'
  {
    if n < 10 then [DigitChar(n)] else Decimal(n / 10) + [DigitChar(n % 10)]
  }

  /** The number a string of decimal digits denotes, most significant first. */
  function DecValue(s: string): nat
  {
    if s == [] then 0
    else
      var c := s[|s| - 1];
      DecValue(s[..|s| - 1]) * 10 + (if '0' <= c <= '9' then c as int - '0' as int else 0)
  }

  /** The rendering denotes the status code itself: the same digits, in the
      same order. */
  lemma {:induction false} DecimalDenotes(n: nat)
    ensures DecValue(Decimal(n)) == n
  {
    if n >= 10 {
      DecimalDenotes(n / 10);
      var s := Decimal(n);
      assert s[..|s| - 1] == Decimal(n / 10);
    }
  }

  /** The three checks `signIn` applies to a reply, in the source's order: the
      status must be exactly 200, `success` must be truthy, and
      `data.accessToken` must be present and non-empty. */
  function CheckSignIn(reply: SignInReply): (r: Result<string>)
    ensures r.Ok? <==> reply.status == 200 && reply.data.success && reply.data.accessToken != ""
    ensures r.Ok? ==> r.value == reply.data.accessToken && r.value != ""
    ensures reply.status != 200 ==>
      r == Err("Sign-in failed with status " + Decimal(reply.status) + ": " + reply.statusText)
    ensures reply.status == 200 && !reply.data.success ==>
      r == Err("Sign-in failed: " + (if reply.data.message != "" then reply.data.message else "Unknown error"))
    ensures reply.status == 200 && reply.data.success && reply.data.accessToken == "" ==>
      r == Err("Access token not found in response")
  {
    if reply.status != 200 then
      Err("Sign-in failed with status " + Decimal(reply.status) + ": " + reply.statusText)
    else if !reply.data.success then
      Err("Sign-in failed: " + (if reply.data.message != "" then reply.data.message else "Unknown error"))
    else if reply.data.accessToken == "" then
      Err("Access token not found in response")
    else
      Ok(reply.data.accessToken)
  }

  /** The result of a whole sign-in attempt: a transport failure (`Err`) of the
      HTTP client is rethrown unchanged, a reply is validated. */
  function SignInResult(reply: Result<SignInReply>): (r: Result<string>)
    ensures reply.Err? ==> r == Err(reply.message)
    ensures reply.Ok? ==> r == CheckSignIn(reply.value)
    ensures r.Ok? ==> reply.Ok? && r.value == reply.value.data.accessToken && r.value != ""
  {
    match reply
    case Err(m) => Err(m)
    case Ok(rep) => CheckSignIn(rep)
  }

  // ---------------------------------------------------------------------------
  // Request shaping

  /** The headers `getAuthHeaders` builds around a token. */
  function AuthHeaders(token: string): (h: map<string, string>)
    ensures h.Keys == {"Authorization", "Content-Type"}
    ensures h["Authorization"] == "Bearer " + token
    ensures h["Content-Type"] == "application/json"
  {
    map["Authorization" := "Bearer " + token, "Content-Type" := "application/json"]
  }

  /** An endpoint that starts with "http" is already absolute; any other one is
      appended to the base URL. */
  function ResolveUrl(baseUrl: string, endpoint: string): (url: string)
    ensures "http" <= endpoint ==> url == endpoint
    ensures !("http" <= endpoint) ==> url == baseUrl + endpoint
    ensures |endpoint| <= |url| && url[|url| - |endpoint|..] == endpoint
    ensures "http" <= baseUrl ==> "http" <= url
  {
    if "http" <= endpoint then endpoint else baseUrl + endpoint
  }

  /** Against an absolute base URL, resolution is idempotent. */
  lemma ResolveUrlIdempotent(baseUrl: string, endpoint: string)
    requires "http" <= baseUrl
    ensures ResolveUrl(baseUrl, ResolveUrl(baseUrl, endpoint)) == ResolveUrl(baseUrl, endpoint)
  {
  }

  /** `{ ...authHeaders, ...options.headers }`: caller headers win on a
      colliding key (keys compare exactly, as object properties do), auth headers
      survive elsewhere, and spreading an absent object adds nothing. */
  function MergeHeaders(authHeaders: map<string, string>, callerHeaders: Option<map<string, string>>): (h: map<string, string>)
    ensures callerHeaders.None? ==> h == authHeaders
    ensures callerHeaders.Some? ==> h.Keys == authHeaders.Keys + callerHeaders.value.Keys
    ensures callerHeaders.Some? ==> forall k | k in callerHeaders.value :: h[k] == callerHeaders.value[k]
    ensures forall k | k in authHeaders && (callerHeaders.None? || k !in callerHeaders.value) :: h[k] == authHeaders[k]
  {
    match callerHeaders
    case None => authHeaders
    case Some(caller) => authHeaders + caller
  }

  /** The request options a caller passes (only the keys the job uses). */
  datatype RequestOptions<B> = RequestOptions(httpMethod: Option<string>, headers: Option<map<string, string>>, body: Option<B>)

  /** The options object handed to the HTTP client: `{ url, ...options, headers }`. */
  datatype Request<B> = Request(url: string, httpMethod: Option<string>, headers: map<string, string>, body: Option<B>)

  function ShapeRequest<B>(baseUrl: string, endpoint: string, options: RequestOptions<B>, authHeaders: map<string, string>): (r: Request<B>)
    ensures r.httpMethod == options.httpMethod && r.body == options.body
    ensures r.url == ResolveUrl(baseUrl, endpoint)
    ensures "http" <= endpoint ==> r.url == endpoint
    ensures |endpoint| <= |r.url| && r.url[|r.url| - |endpoint|..] == endpoint
    ensures options.headers.None? ==> r.headers == authHeaders
    ensures r.headers == MergeHeaders(authHeaders, options.headers)
  {
    Request(ResolveUrl(baseUrl, endpoint), options.httpMethod, MergeHeaders(authHeaders, options.headers), options.body)
  }

  /** Unless the caller overrides it, a shaped request carries the bearer token;
      and a caller-supplied `Authorization` replaces it. */
  lemma ShapedRequestAuthorization<B>(baseUrl: string, endpoint: string, options: RequestOptions<B>, token: string)
    ensures options.headers.None? || "Authorization" !in options.headers.value ==>
      ShapeRequest(baseUrl, endpoint, options, AuthHeaders(token)).headers["Authorization"] == "Bearer " + token
    ensures options.headers.Some? && "Authorization" in options.headers.value ==>
      ShapeRequest(baseUrl, endpoint, options, AuthHeaders(token)).headers["Authorization"] == options.headers.value["Authorization"]
  {
  }

  // ---------------------------------------------------------------------------
  // The service object

  class AuthService {
    /** `null` until a sign-in succeeds. */
    var accessToken: Option<string>
    const baseUrl: string

    /** The truthiness test `!!this.accessToken`. */
    predicate HasToken()
      reads this
    {
      accessToken.Some? && accessToken.value != ""
    }

    /** The credentials read from the environment are not part of this model. */
    constructor (envBaseUrl: string)
      ensures accessToken == None && !HasToken()
      ensures baseUrl == BaseUrlFrom(envBaseUrl)
    {
      accessToken := None;
      baseUrl := BaseUrlFrom(envBaseUrl);
    }

    /** Signs in with the given reply; the token is stored only when all three
        checks pass, otherwise it is left as it was and the error is returned. */
    method SignIn(reply: Result<SignInReply>) returns (r: Result<string>)
      modifies this
      ensures r == SignInResult(reply)
      ensures accessToken == if r.Ok? then Some(r.value) else old(accessToken)
      ensures r.Ok? ==> HasToken()
    {
      match reply {
        case Err(m) =>
          r := Err(m);
        case Ok(rep) =>
          r := CheckSignIn(rep);
          if r.Ok? {
            accessToken := Some(r.value);
          }
      }
    }

    /** Signs in only when no token is cached (the reply is consulted only
        then); with a cached token, the headers are built from it and the state
        is unchanged. */
    method GetAuthHeaders(reply: Result<SignInReply>) returns (r: Result<map<string, string>>)
      modifies this
      ensures old(HasToken()) ==> accessToken == old(accessToken) && r == Ok(AuthHeaders(accessToken.value))
      ensures !old(HasToken()) && SignInResult(reply).Ok? ==>
        accessToken == Some(SignInResult(reply).value) && r == Ok(AuthHeaders(SignInResult(reply).value))
      ensures !old(HasToken()) && SignInResult(reply).Err? ==>
        accessToken == old(accessToken) && r == Err(SignInResult(reply).message)
      ensures r.Ok? ==> HasToken()
    {
      if !HasToken() {
        var t := SignIn(reply);
        if t.Err? {
          return Err(t.message);
        }
        accessToken := Some(t.value);
      }
      r := Ok(AuthHeaders(accessToken.value));
    }

    /** Shapes an authenticated request: auth headers (signing in if needed),
        the resolved URL and the merged headers. A sign-in failure is rethrown. */
    method AuthenticatedRequest<B>(endpoint: string, options: RequestOptions<B>, reply: Result<SignInReply>)
      returns (r: Result<Request<B>>)
      modifies this
      ensures old(HasToken()) ==>
        accessToken == old(accessToken) &&
        r == Ok(ShapeRequest(baseUrl, endpoint, options, AuthHeaders(accessToken.value)))
      ensures !old(HasToken()) && SignInResult(reply).Ok? ==>
        accessToken == Some(SignInResult(reply).value) &&
        r == Ok(ShapeRequest(baseUrl, endpoint, options, AuthHeaders(SignInResult(reply).value)))
      ensures !old(HasToken()) && SignInResult(reply).Err? ==>
        accessToken == old(accessToken) && r == Err(SignInResult(reply).message)
    {
      var authHeaders := GetAuthHeaders(reply);
      if authHeaders.Err? {
        return Err(authHeaders.message);
      }
      r := Ok(ShapeRequest(baseUrl, endpoint, options, authHeaders.value));
    }
  }

  /** Lazy caching: once a first call has produced headers, a second call
      produces the same headers whatever the second sign-in reply would be. */
  method TokenIsReused(envBaseUrl: string, first: Result<SignInReply>, second: Result<SignInReply>)
    returns (h1: Result<map<string, string>>, h2: Result<map<string, string>>)
    ensures h1 == (if SignInResult(first).Ok? then Ok(AuthHeaders(SignInResult(first).value)) else Err(SignInResult(first).message))
    ensures h1.Ok? ==> h2 == h1
  {
    var service := new AuthService(envBaseUrl);
    h1 := service.GetAuthHeaders(first);
    h2 := service.GetAuthHeaders(second);
  }
}
