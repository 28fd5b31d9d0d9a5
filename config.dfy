/** Construction of the middleware: the `AC` constructor, which validates
    the options and fills in defaults, and the two factories that validate
    their own options before returning a handler (`swapCode` and `check`). */
module AuthConfig {
  import opened JsValues

  datatype ServerOptions = ServerOptions(
    authURL: Option<string>,
    swapCodeURL: Option<string>,
    keepAliveURL: Option<string>,
    userAuthURL: Option<string>,
    logoutURL: Option<string>)

  datatype ClientOptions = ClientOptions(clientId: Option<string>)

  /** One configured API key: the label returned on a match, and the key. */
  datatype ApiKeyEntry = ApiKeyEntry(thirdParty: Option<string>, key: string)

  /** The `apiKey` option: unset, a bare string (the legacy form), or an
      ordered list of labelled keys. */
  datatype ApiKeySetting = Unset | Legacy(key: string) | Keys(entries: seq<ApiKeyEntry>)

  datatype Options = Options(
    server: Option<ServerOptions>,
    client: Option<ClientOptions>,
    authCode: Option<string>,
    tokenName: Option<string>,
    apiKey: ApiKeySetting)

  /** The options of a constructed instance, with the defaults filled in.
      The three URLs that construction checks are known to be present. */
  datatype Config = Config(
    authURL: string,
    swapCodeURL: string,
    keepAliveURL: string,
    userAuthURL: Option<string>,
    logoutURL: Option<string>,
    clientId: Option<string>,
    authCode: string,
    tokenName: string,
    apiKey: ApiKeySetting)

  const ServerAndClientRequired := "server and client are required"
  const UrlsRequired := "server.swapCodeURL and server.authURL and server.keepAliveURL are required"
  const ScopeRequired := "scope resource name must be specified"
  const RedirectRequired := "redirectLogin OR redirectURI must be specified"

  /** The messages of the TypeErrors raised by reading `opt.scope` and
      `opt.operation` when `opt` is `undefined`, as the V8 engine words them. */
  const ScopeOfUndefined := "Cannot read properties of undefined (reading 'scope')"
  const OperationOfUndefined := "Cannot read properties of undefined (reading 'operation')"

  /** `options || fallback` for an optional string option. */
  function Default(o: Option<string>, fallback: string): (r: string)
    ensures TruthyStr(o) ==> r == o.value
    ensures !TruthyStr(o) ==> r == fallback
  {
    if TruthyStr(o) then o.value else fallback
  }

  /** `new AC(options)`: throws unless both `server` and `client` are given,
      then throws unless the authorisation, code-swap and keep-alive URLs are
      all set; otherwise `authCode` defaults to "code" and `tokenName` to
      "access_token". Nothing else is checked: in particular the logout and
      user-authorisation URLs and the client id may be missing. */
  function Create(options: Option<Options>): (r: Result<Config>)
    ensures r.Ok? <==>
      options.Some? && options.value.server.Some? && options.value.client.Some?
      && TruthyStr(options.value.server.value.authURL)
      && TruthyStr(options.value.server.value.swapCodeURL)
      && TruthyStr(options.value.server.value.keepAliveURL)
    ensures (options.None? || options.value.server.None? || options.value.client.None?) ==>
      r == Thrown(ServerAndClientRequired)
    ensures r.Thrown? && options.Some? && options.value.server.Some? && options.value.client.Some? ==>
      r.message == UrlsRequired
    ensures r.Ok? ==>
      var o := options.value; var c := r.value;
      && (TruthyStr(o.authCode) ==> c.authCode == o.authCode.value)
      && (!TruthyStr(o.authCode) ==> c.authCode == "code")
      && (TruthyStr(o.tokenName) ==> c.tokenName == o.tokenName.value)
      && (!TruthyStr(o.tokenName) ==> c.tokenName == "access_token")
      && c.authCode != "" && c.tokenName != ""
      && Some(c.authURL) == o.server.value.authURL && Some(c.swapCodeURL) == o.server.value.swapCodeURL
      && Some(c.keepAliveURL) == o.server.value.keepAliveURL
      && c.authURL != "" && c.swapCodeURL != "" && c.keepAliveURL != ""
      && c.userAuthURL == o.server.value.userAuthURL && c.logoutURL == o.server.value.logoutURL
      && c.clientId == o.client.value.clientId && c.apiKey == o.apiKey
  {
    var o := if options.Some? then options.value else Options(None, None, None, None, Unset);
    if o.server.None? || o.client.None? then Thrown(ServerAndClientRequired)
    else
      var authCode := Default(o.authCode, "code");
      var tokenName := Default(o.tokenName, "access_token");
      var s := o.server.value;
      if !TruthyStr(s.authURL) || !TruthyStr(s.swapCodeURL) || !TruthyStr(s.keepAliveURL) then
        Thrown(UrlsRequired)
      else
        Ok(Config(s.authURL.value, s.swapCodeURL.value, s.keepAliveURL.value, s.userAuthURL, s.logoutURL,
                  o.client.value.clientId, authCode, tokenName, o.apiKey))
  }

  /** The options of `swapCode(opt)`. */
  datatype SwapCodeOptions = SwapCodeOptions(scope: Option<string>, noRespond: bool)

  /** What the `swapCode` handler captures. */
  datatype CodeSwapper = CodeSwapper(scope: string, noRespond: bool)

  /** `swapCode(opt)`: throws a TypeError without an options object, and
      throws unless a scope is given. */
  function SwapCode(opt: Option<SwapCodeOptions>): (r: Result<CodeSwapper>)
    ensures r.Ok? <==> opt.Some? && TruthyStr(opt.value.scope)
    ensures opt.None? ==> r == Thrown(ScopeOfUndefined)
    ensures r.Ok? ==>
      r.value.scope != "" && Some(r.value.scope) == opt.value.scope && r.value.noRespond == opt.value.noRespond
    ensures r.Thrown? && opt.Some? ==> r.message == ScopeRequired
  {
    match opt
    case None => Thrown(ScopeOfUndefined)
    case Some(o) =>
      if !TruthyStr(o.scope) then Thrown(ScopeRequired)
      else Ok(CodeSwapper(o.scope.value, o.noRespond))
  }

  /** The options of `check(opt)`. */
  datatype CheckOptions = CheckOptions(
    operation: Option<string>,
    redirectLogin: bool,
    redirectURI: Option<string>,
    scope: Option<string>,
    clientReq: Option<string>,
    clientRes: Option<string>)

  /** What the `check` handler captures. */
  datatype Checker = Checker(
    scope: string,
    operation: Option<string>,
    redirectLogin: bool,
    redirectURI: Option<string>,
    clientReq: Option<string>,
    clientRes: Option<string>)

  /** `check(opt)`: throws a TypeError without an options object, throws
      unless a scope is given, then throws unless it may redirect to the
      login page or has a fixed URI to come back to. */
  function Check(opt: Option<CheckOptions>): (r: Result<Checker>)
    ensures r.Ok? <==> opt.Some? && TruthyStr(opt.value.scope) && (opt.value.redirectLogin || TruthyStr(opt.value.redirectURI))
    ensures opt.None? ==> r == Thrown(OperationOfUndefined)
    ensures opt.Some? && !TruthyStr(opt.value.scope) ==> r == Thrown(ScopeRequired)
    ensures opt.Some? && TruthyStr(opt.value.scope) && r.Thrown? ==> r.message == RedirectRequired
    ensures r.Ok? ==>
      var o := opt.value;
      && r.value.scope != "" && Some(r.value.scope) == o.scope
      && r.value.operation == o.operation && r.value.redirectLogin == o.redirectLogin
      && r.value.redirectURI == o.redirectURI
      && r.value.clientReq == o.clientReq && r.value.clientRes == o.clientRes
  {
    match opt
    case None => Thrown(OperationOfUndefined)
    case Some(o) =>
      if !TruthyStr(o.scope) then Thrown(ScopeRequired)
      else if !o.redirectLogin && !TruthyStr(o.redirectURI) then Thrown(RedirectRequired)
      else Ok(Checker(o.scope.value, o.operation, o.redirectLogin, o.redirectURI, o.clientReq, o.clientRes))
  }
}
