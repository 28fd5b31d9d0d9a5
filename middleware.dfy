/** The five request handlers: the double-submit-cookie CSRF guard
    (`angXSRF`), the keep-alive and logout notifiers, the code exchange
    (`swapCode`) and the authorisation check (`check`). The remote call that
    `swapCode` and `check` await is an input: how it settled. */
module Middleware {
  import opened JsValues
  import opened Express
  import opened AuthConfig
  import opened Credentials

  const XsrfCookie := "XSRF-TOKEN"
  const XsrfHeader := "X-XSRF-TOKEN"

  // ---------------------------------------------------------------- angXSRF

  /** The XSRF cookie and header are both present, non-empty and equal. */
  predicate DoubleSubmitMatches(req: Request)
  {
    XsrfCookie in req.cookies && req.cookies[XsrfCookie] != ""
    && TruthyStr(req.Header(XsrfHeader)) && req.cookies[XsrfCookie] == req.Header(XsrfHeader).value
  }

  /** A request passes the guard when it presents a valid API key together
      with a bearer token, or when its double-submit token matches. */
  predicate XsrfPasses(cfg: Config, req: Request)
  {
    (KeyPasses(ApiKeyCheck(req, cfg.apiKey)) && TruthyStr(GetAuthHeader(req))) || DoubleSubmitMatches(req)
  }

  function XsrfErrorBody(cfg: Config): Value
  {
    Obj(map["status" := Str("ERROR"), "message" := Str("XSRF error"), "location" := Str(cfg.authURL)])
  }

  /** `angXSRF(noRespond)` applied to one request. */
  method AngXsrf(cfg: Config, noRespond: bool, req: Request, res: Response) returns (flow: Flow)
    modifies res
    ensures Settled(flow, old(res.sent), res.sent)
    ensures flow == (if XsrfPasses(cfg, req) then Next(None) else if noRespond then Next(Some("XSRF Error")) else Halt)
    ensures flow.Halt? ==> res.sent == old(res.sent) + [Send(401, XsrfErrorBody(cfg))]
    ensures res.cookies == old(res.cookies) && res.cleared == old(res.cleared) && res.redirectURL == old(res.redirectURL)
  {
    var key := ValidApiKey(req, cfg.apiKey);
    if KeyPasses(key) && TruthyStr(GetAuthHeader(req)) {
      return Next(None);
    }
    var cookie := Lookup(req.cookies, XsrfCookie);
    var header := req.Header(XsrfHeader);
    if Truthy(cookie) && TruthyStr(header) && cookie.value == Str(header.value) {
      return Next(None);
    }
    if noRespond {
      return Next(Some("XSRF Error"));
    }
    res.Send(401, XsrfErrorBody(cfg));
    return Halt;
  }

  /** With a valid API key and a bearer token the XSRF cookie and header
      are not looked at. */
  lemma ApiKeyBypassesXsrf(cfg: Config, req: Request)
    requires KeyPasses(ApiKeyCheck(req, cfg.apiKey)) && TruthyStr(GetAuthHeader(req))
    ensures XsrfPasses(cfg, req)
  {
  }

  /** Without a valid API key and bearer token, a cookie and a header that
      differ are rejected. */
  lemma XsrfMismatchRejected(cfg: Config, req: Request)
    requires !(KeyPasses(ApiKeyCheck(req, cfg.apiKey)) && TruthyStr(GetAuthHeader(req)))
    requires XsrfCookie in req.cookies && req.Header(XsrfHeader).Some?
    requires req.cookies[XsrfCookie] != req.Header(XsrfHeader).value
    ensures !XsrfPasses(cfg, req)
  {
  }

  // ------------------------------------------------------ keepAlive, logout

  /** The body of a keep-alive or logout notification. */
  function Notice(token: Value): Value
  {
    Obj(map["access_token" := token])
  }

  /** The posts a notifier makes: one when a session token is found, none
      otherwise. */
  function Notifications(url: Option<string>, token: Option<Value>): (r: seq<Post>)
    ensures |r| <= 1
    ensures |r| == 1 <==> Truthy(token)
    ensures |r| == 1 ==> r[0] == Posted(url, Notice(token.value))
  {
    if Truthy(token) then [Posted(url, Notice(token.value))] else []
  }

  /** `keepAlive()` applied to one request: notify when a token exists,
      then always continue. */
  method KeepAlive(cfg: Config, req: Request, http: HttpClient) returns (flow: Flow)
    modifies http
    ensures flow == Next(None)
    ensures http.posts == old(http.posts) + Notifications(Some(cfg.keepAliveURL), SessionToken(cfg.tokenName, req))
  {
    var token := SessionToken(cfg.tokenName, req);
    if Truthy(token) {
      http.Post(Some(cfg.keepAliveURL), Notice(token.value));
    }
    return Next(None);
  }

  /** `logout(opt)` applied to one request: notify when a token exists, then
      continue when `noRespond` is set, else answer at once. */
  method Logout(cfg: Config, noRespond: bool, req: Request, res: Response, http: HttpClient) returns (flow: Flow)
    modifies res, http
    ensures Settled(flow, old(res.sent), res.sent)
    ensures flow == (if noRespond then Next(None) else Halt)
    ensures flow.Halt? ==> res.sent == old(res.sent) + [Send(200, Str("logout successful"))]
    ensures http.posts == old(http.posts) + Notifications(cfg.logoutURL, SessionToken(cfg.tokenName, req))
    ensures res.cookies == old(res.cookies) && res.cleared == old(res.cleared) && res.redirectURL == old(res.redirectURL)
  {
    var token := SessionToken(cfg.tokenName, req);
    if Truthy(token) {
      http.Post(cfg.logoutURL, Notice(token.value));
    }
    if noRespond {
      return Next(None);
    }
    res.Send(200, Str("logout successful"));
    return Halt;
  }

  // --------------------------------------------------------------- swapCode

  /** The body posted to the code-swap URL. */
  function SwapRequestBody(scope: string, code: Value): Value
  {
    Obj(map["requestToken" := Obj(map["name" := Str(scope), "value" := code])])
  }

  /** How `swapCode` reads the settled exchange. */
  datatype SwapOutcome = ExchangeFailed | NoSessionForCode | Swapped(token: Value)

  function SwapVerdict(reply: Reply): (v: SwapOutcome)
    ensures v.ExchangeFailed? <==> reply.Failed?
    ensures v.Swapped? <==>
      reply.Replied? && Truthy(Prop(reply.data, "session")) && Truthy(Prop(Prop(reply.data, "session").value, "token"))
    ensures v.Swapped? ==> Some(v.token) == Prop(Prop(reply.data, "session").value, "token") && Truthy(Some(v.token))
  {
    match reply
    case Failed => ExchangeFailed
    case Replied(data) =>
      var session := Prop(data, "session");
      if !Truthy(session) then NoSessionForCode
      else
        var token := Prop(session.value, "token");
        if !Truthy(token) then NoSessionForCode else Swapped(token.value)
  }

  /** The continuation of `swapCode` once the exchange has settled: refuse,
      or set the token cookies, record the token on the request and go on. */
  method Exchanged(cfg: Config, s: CodeSwapper, req: Request, res: Response, reply: Reply) returns (flow: Flow)
    modifies req, res
    ensures Settled(flow, old(res.sent), res.sent)
    ensures flow.Next? ==> flow.error.None?
    ensures res.cleared == old(res.cleared) && res.redirectURL == old(res.redirectURL)
    ensures SwapVerdict(reply).ExchangeFailed? ==>
      && flow == Halt && res.sent == old(res.sent) + [Send(503, Str("Failed to exchange code"))]
      && res.cookies == old(res.cookies) && req.fields == old(req.fields)
    ensures SwapVerdict(reply).NoSessionForCode? ==>
      && flow == Halt && res.sent == old(res.sent) + [Send(503, Str("No user session for code"))]
      && res.cookies == old(res.cookies) && req.fields == old(req.fields)
    ensures SwapVerdict(reply).Swapped? ==>
      var token := SwapVerdict(reply).token;
      && res.cookies == old(res.cookies) + [(cfg.tokenName, token), (XsrfCookie, token)]
      && req.fields == old(req.fields)[cfg.tokenName := token]
      && flow == (if s.noRespond then Next(None) else Halt)
      && (flow.Halt? ==> res.sent == old(res.sent) + [Send(200, Str("swapped the code"))])
  {
    if reply.Failed? {
      res.Send(503, Str("Failed to exchange code"));
      return Halt;
    }
    var result := reply.data;
    var session := Prop(result, "session");
    if !Truthy(session) || !Truthy(Prop(session.value, "token")) {
      res.Send(503, Str("No user session for code"));
      return Halt;
    }
    var token := Prop(session.value, "token").value;
    res.Cookie(cfg.tokenName, token);
    res.Cookie(XsrfCookie, token);
    req.fields := req.fields[cfg.tokenName := token];
    if s.noRespond {
      return Next(None);
    }
    res.Send(200, Str("swapped the code"));
    return Halt;
  }

  /** The handler returned by `swapCode(opt)` applied to one request. */
  method HandleSwapCode(cfg: Config, s: CodeSwapper, req: Request, res: Response, http: HttpClient, reply: Reply)
    returns (flow: Flow)
    modifies req, res, http
    ensures Settled(flow, old(res.sent), res.sent)
    ensures flow.Next? ==> flow.error.None?
    ensures res.cleared == old(res.cleared) && res.redirectURL == old(res.redirectURL)
    ensures !Truthy(AuthCodeOf(cfg.authCode, req)) ==>
      && flow == Next(None) && req.fields == old(req.fields)
      && res.cookies == old(res.cookies) && http.posts == old(http.posts)
    ensures Truthy(AuthCodeOf(cfg.authCode, req)) ==>
      var code := AuthCodeOf(cfg.authCode, req).value;
      && http.posts == old(http.posts) + [Posted(Some(cfg.swapCodeURL), SwapRequestBody(s.scope, code))]
      && (SwapVerdict(reply).ExchangeFailed? ==>
            && flow == Halt && res.sent == old(res.sent) + [Send(503, Str("Failed to exchange code"))]
            && res.cookies == old(res.cookies) && req.fields == old(req.fields)["authCode" := code])
      && (SwapVerdict(reply).NoSessionForCode? ==>
            && flow == Halt && res.sent == old(res.sent) + [Send(503, Str("No user session for code"))]
            && res.cookies == old(res.cookies) && req.fields == old(req.fields)["authCode" := code])
      && (SwapVerdict(reply).Swapped? ==>
            var token := SwapVerdict(reply).token;
            && res.cookies == old(res.cookies) + [(cfg.tokenName, token), (XsrfCookie, token)]
            && req.fields == old(req.fields)["authCode" := code][cfg.tokenName := token]
            && flow == (if s.noRespond then Next(None) else Halt)
            && (flow.Halt? ==> res.sent == old(res.sent) + [Send(200, Str("swapped the code"))]))
  {
    var code := AuthCodeOf(cfg.authCode, req);
    if !Truthy(code) {
      return Next(None);
    }
    req.fields := req.fields["authCode" := code.value];
    http.Post(Some(cfg.swapCodeURL), SwapRequestBody(s.scope, code.value));
    flow := Exchanged(cfg, s, req, res, reply);
  }

  // ------------------------------------------------------------------ check

  /** Where the login page sends the user back: the configured URI, or the
      URL of the current request. */
  function RedirectBack(h: Checker, req: Request): string
  {
    if TruthyStr(h.redirectURI) then h.redirectURI.value
    else ToStr(req.protocol) + "://" + ToStr(req.Header("host")) + ToStr(req.originalUrl)
  }

  /** The login-page URL that `check` stores in `res.locals.redirectURL`:
      the authorisation URL with the code-flow query, whose last parameter
      is the back target. */
  function LoginUrl(cfg: Config, h: Checker, req: Request): (url: string)
    ensures |url| > |cfg.authURL| && url[..|cfg.authURL|] == cfg.authURL
    ensures |url| > |cfg.authURL| + 26 && url[|cfg.authURL|..|cfg.authURL| + 26] == "?response_type=code&scope="
    ensures |url| >= |RedirectBack(h, req)| && url[|url| - |RedirectBack(h, req)|..] == RedirectBack(h, req)
    ensures var q := "&redirect_uri=" + RedirectBack(h, req); |url| >= |q| && url[|url| - |q|..] == q
  {
    cfg.authURL + "?response_type=code&scope=" + h.scope + "&client_id=" + ToStr(cfg.clientId)
    + "&redirect_uri=" + RedirectBack(h, req)
  }

  /** The `clientRequest` sent for authorisation: `{}` when no `clientReq`
      option is set, otherwise that field of the request, even if missing. */
  function ClientRequest(h: Checker, fields: map<string, Value>): Option<Value>
  {
    if TruthyStr(h.clientReq) then Field(fields, h.clientReq.value) else Some(Obj(map[]))
  }

  /** The body posted to the user-authorisation URL; undefined members are
      dropped by serialisation. */
  function CheckRequestBody(h: Checker, token: Value, clientRequest: Option<Value>): Value
  {
    Record(map["token" := Some(token), "resource" := Some(Str(h.scope)), "operation" := Lift(h.operation),
               "clientRequest" := clientRequest])
  }

  /** How `check` reads the settled authorisation call. */
  datatype Verdict = Unavailable | NoSession | Forbidden | Allowed(authDetails: Value)

  function Interpret(reply: Reply): (v: Verdict)
    ensures v.Unavailable? <==> reply.Failed?
    ensures v.NoSession? <==> reply.Replied? && !Truthy(Prop(reply.data, "authorised"))
    ensures v.Forbidden? <==>
      reply.Replied? && Truthy(Prop(reply.data, "authorised")) && Prop(reply.data, "authorised") != Some(Str("Y"))
    ensures v.Allowed? <==> reply.Replied? && Prop(reply.data, "authorised") == Some(Str("Y"))
    ensures v.Allowed? && Truthy(Prop(reply.data, "authDetails")) ==>
      Some(v.authDetails) == Prop(reply.data, "authDetails")
    ensures v.Allowed? && !Truthy(Prop(reply.data, "authDetails")) ==> v.authDetails == Obj(map[])
  {
    match reply
    case Failed => Unavailable
    case Replied(data) =>
      var authorised := Prop(data, "authorised");
      if !Truthy(authorised) then NoSession
      else if authorised != Some(Str("Y")) then Forbidden
      else Allowed(Or(Prop(data, "authDetails"), Some(Obj(map[]))).value)
  }

  /** The request field that receives `authDetails`: `clientRes || clientReq`,
      where an undefined key is the property name "undefined". */
  function DetailsKey(h: Checker): (k: string)
    ensures TruthyStr(h.clientRes) ==> k == h.clientRes.value
    ensures !TruthyStr(h.clientRes) && h.clientReq.Some? ==> k == h.clientReq.value
    ensures !TruthyStr(h.clientRes) && h.clientReq.None? ==> k == "undefined"
  {
    if TruthyStr(h.clientRes) then h.clientRes.value else ToStr(h.clientReq)
  }

  /** `req[dest] = req[dest] || {}; req[dest].authDetails = details`: the
      holder object is created only when missing or falsy; an existing
      object keeps its other members; a non-empty string ignores the write. */
  function WithAuthDetails(fields: map<string, Value>, dest: string, details: Value): (r: map<string, Value>)
    ensures r.Keys == fields.Keys + {dest}
    ensures forall k :: k in fields && k != dest ==> r[k] == fields[k]
    ensures !Truthy(Field(fields, dest)) ==> r[dest] == Obj(map["authDetails" := details])
    ensures Truthy(Field(fields, dest)) && fields[dest].Obj? ==>
      r[dest] == Obj(fields[dest].props["authDetails" := details])
    ensures Truthy(Field(fields, dest)) && fields[dest].Str? ==> r[dest] == fields[dest]
  {
    var holder := if Truthy(Field(fields, dest)) then fields[dest] else Obj(map[]);
    fields[dest := if holder.Obj? then Obj(holder.props["authDetails" := details]) else holder]
  }

  /** What `redirectOr401` emits: a redirect to the login page when
      `redirectLogin` is set, else 401 with the login page and a message. */
  function Refusal(h: Checker, url: string, message: string): Emission
  {
    if h.redirectLogin then Redirect(url)
    else Send(401, Obj(map["location" := Str(url), "message" := Str(message)]))
  }

  function ForbiddenBody(url: string): Value
  {
    Obj(map["status" := Str("Error"), "message" := Str("Error: User does not have the required role or permision"),
            "location" := Str(url)])
  }

  /** `redirectOr401(message)`: clear the token cookie when the request
      carried one, then refuse. */
  method RedirectOr401(h: Checker, tokenName: string, req: Request, res: Response, message: string)
    requires res.redirectURL.Some?
    modifies res
    ensures res.cleared == old(res.cleared) + (if Truthy(Lookup(req.cookies, tokenName)) then [tokenName] else [])
    ensures res.sent == old(res.sent) + [Refusal(h, old(res.redirectURL).value, message)]
    ensures res.cookies == old(res.cookies) && res.redirectURL == old(res.redirectURL)
  {
    if Truthy(Lookup(req.cookies, tokenName)) {
      res.ClearCookie(tokenName);
    }
    if h.redirectLogin {
      res.Redirect(res.redirectURL.value);
    } else {
      res.Send(401, Obj(map["location" := Str(res.redirectURL.value), "message" := Str(message)]));
    }
  }

  /** The continuation of `check` once the authorisation call has settled:
      refuse, or record the authorisation details on the request and go on. */
  method Authorise(h: Checker, tokenName: string, url: string, req: Request, res: Response, reply: Reply)
    returns (flow: Flow)
    requires res.redirectURL == Some(url)
    modifies req, res
    ensures Settled(flow, old(res.sent), res.sent)
    ensures flow.Next? ==> flow.error.None?
    ensures res.cookies == old(res.cookies) && res.redirectURL == old(res.redirectURL)
    ensures Interpret(reply).Unavailable? ==>
      && flow == Halt && res.sent == old(res.sent) + [Send(503, Str("Failed to authorize"))]
      && res.cleared == old(res.cleared) && req.fields == old(req.fields)
    ensures Interpret(reply).NoSession? ==>
      && flow == Halt && res.sent == old(res.sent) + [Refusal(h, url, "No user session for user token")]
      && res.cleared == old(res.cleared) + (if Truthy(Lookup(req.cookies, tokenName)) then [tokenName] else [])
      && req.fields == old(req.fields)
    ensures Interpret(reply).Forbidden? ==>
      && flow == Halt
      && res.sent == old(res.sent) + [if h.redirectLogin then Redirect(url) else Send(403, ForbiddenBody(url))]
      && res.cleared == old(res.cleared) && req.fields == old(req.fields)
    ensures Interpret(reply).Allowed? ==>
      && flow == Next(None) && res.sent == old(res.sent) && res.cleared == old(res.cleared)
      && req.fields == WithAuthDetails(old(req.fields), DetailsKey(h), Interpret(reply).authDetails)
  {
    if reply.Failed? {
      res.Send(503, Str("Failed to authorize"));
      return Halt;
    }
    var result := reply.data;
    var authorised := Prop(result, "authorised");
    if !Truthy(authorised) {
      RedirectOr401(h, tokenName, req, res, "No user session for user token");
      return Halt;
    }
    if authorised != Some(Str("Y")) {
      if h.redirectLogin {
        res.Redirect(url);
      } else {
        res.Send(403, ForbiddenBody(url));
      }
      return Halt;
    }
    var details := Or(Prop(result, "authDetails"), Some(Obj(map[]))).value;
    SetAuthDetails(req, DetailsKey(h), details);
    return Next(None);
  }

  /** `req[dest] = req[dest] || {}; req[dest].authDetails = details` on the
      request object. */
  method SetAuthDetails(req: Request, dest: string, details: Value)
    modifies req
    ensures req.fields == WithAuthDetails(old(req.fields), dest, details)
  {
    var holder := Field(req.fields, dest);
    req.fields := req.fields[dest := if Truthy(holder) then holder.value else Obj(map[])];
    if req.fields[dest].Obj? {
      req.fields := req.fields[dest := Obj(req.fields[dest].props["authDetails" := details])];
    }
  }

  /** The handler returned by `check(opt)` applied to one request. */
  method HandleCheck(cfg: Config, h: Checker, req: Request, res: Response, http: HttpClient, reply: Reply)
    returns (flow: Flow)
    modifies req, res, http
    ensures Settled(flow, old(res.sent), res.sent)
    ensures flow.Next? ==> flow.error.None?
    ensures res.cookies == old(res.cookies)
    ensures res.redirectURL == Some(LoginUrl(cfg, h, req))
    ensures !Truthy(old(CheckToken(cfg.tokenName, req))) ==>
      && flow == Halt && res.sent == old(res.sent) + [Refusal(h, LoginUrl(cfg, h, req), "No token")]
      && res.cleared == old(res.cleared) && req.fields == old(req.fields) && http.posts == old(http.posts)
    ensures Truthy(old(CheckToken(cfg.tokenName, req))) ==>
      var token := old(CheckToken(cfg.tokenName, req)).value;
      var url := LoginUrl(cfg, h, req);
      var fields := old(req.fields)[cfg.tokenName := token];
      && http.posts == old(http.posts)
                       + [Posted(cfg.userAuthURL, CheckRequestBody(h, token, ClientRequest(h, old(req.fields))))]
      && (Interpret(reply).Unavailable? ==>
            && flow == Halt && res.sent == old(res.sent) + [Send(503, Str("Failed to authorize"))]
            && res.cleared == old(res.cleared) && req.fields == fields)
      && (Interpret(reply).NoSession? ==>
            && flow == Halt && res.sent == old(res.sent) + [Refusal(h, url, "No user session for user token")]
            && res.cleared == old(res.cleared)
                              + (if Truthy(Lookup(req.cookies, cfg.tokenName)) then [cfg.tokenName] else [])
            && req.fields == fields)
      && (Interpret(reply).Forbidden? ==>
            && flow == Halt
            && res.sent == old(res.sent) + [if h.redirectLogin then Redirect(url) else Send(403, ForbiddenBody(url))]
            && res.cleared == old(res.cleared) && req.fields == fields)
      && (Interpret(reply).Allowed? ==>
            && flow == Next(None) && res.sent == old(res.sent) && res.cleared == old(res.cleared)
            && req.fields == WithAuthDetails(fields, DetailsKey(h), Interpret(reply).authDetails))
  {
    var clientRequest := ClientRequest(h, req.fields);
    var url := LoginUrl(cfg, h, req);
    res.SetRedirectURL(url);
    var tokenName := cfg.tokenName;
    var token := CheckToken(tokenName, req);
    if !Truthy(token) {
      RedirectOr401(h, tokenName, req, res, "No token");
      return Halt;
    }
    req.fields := req.fields[tokenName := token.value];
    http.Post(cfg.userAuthURL, CheckRequestBody(h, token.value, clientRequest));
    flow := Authorise(h, tokenName, url, req, res, reply);
  }
}
