# auth-client: a Dafny model of the request-side authorisation protocol

`lib/index.js` of auth-client is Express middleware. It puts protected
endpoints behind a remote authorisation server. This project models the
whole of that file:

- the `AC` constructor, which validates options and fills in defaults;
- the bearer-token extraction `getAuthHeader`;
- the API-key allow-list `validApiKey`;
- the five request handlers: `angXSRF` (double-submit-cookie CSRF guard),
  `keepAlive` and `logout` (fire-and-forget notifiers), `swapCode`
  (exchanges a one-time code for a session token) and `check` (the
  authorisation state machine with its `redirectOr401` helper).

Every outcome of a handler is a function of three inputs: the request, the
configuration and how the awaited remote call settled. The model takes the
last one as a parameter of type `Reply`: `Failed` for a network error, a
non-2xx status or a body that makes the continuation throw, or
`Replied(data)`.

Layout, one module per file:

- `js_values.dfy` (`JsValues`): the JavaScript semantics the code relies on.
  `undefined` is `None`. A modelled value is a string or a plain object;
  the other JSON values are listed under "Left out". Among the modelled
  values, only `undefined` and `""` are falsy. `||` returns an operand, not a boolean.
  `+` turns `undefined` into the text `"undefined"`. `JSON.stringify` drops
  `undefined` members.
- `js_strings.dfy` (`JsStrings`): `trim` and single-character `split`, with
  `split`/`join` proved to be inverses.
- `express.dfy` (`Express`): the request, the response and the HTTP client as
  classes. Headers, params, body, query and cookies are read-only `const`
  maps. The request's own fields are a `map` the handlers reassign. The
  response records cookies set and cleared, `res.locals.redirectURL` and
  every response emitted. The client records every `POST`. A handler
  returns `Next(None)`, `Next(Some(message))` or `Halt` (did not call
  `next`). `Settled` says that `Halt` means exactly one response was emitted
  and `Next` means none was.
- `config.dfy` (`AuthConfig`): the `AC` constructor and the `swapCode` and
  `check` factories. Each is a function returning `Ok(value)` or
  `Thrown(message)`.
- `credentials.dfy` (`Credentials`): `getAuthHeader`, `validApiKey` (a method
  with a loop, proved against the function `ApiKeyCheck`) and the priority
  orders in which the handlers look for a token or a code.
- `middleware.dfy` (`Middleware`): the five handlers as methods over the
  classes. Each `ensures` gives the complete new state of the request,
  response and client for every branch.

Behaviour of `lib/index.js` that the model keeps:

- The CSRF bypass requires a valid API key and a truthy bearer *piece*
  (the result of `getAuthHeader`). An `Authorization` header alone is not
  enough (lib/index.js:20).
- The bearer header is split on the single space character.
  `"Bearer  T"` (two spaces) yields `""`, which is falsy (lib/index.js:199).
- When `redirectURI` is empty, the login URL falls back to the request's own
  URL, because the choice is made by truthiness (lib/index.js:124).
- Insufficient privilege (`authorised` truthy but not `'Y'`) redirects when
  `redirectLogin` is set, and otherwise sends 403 (lib/index.js:153-161).
- `logoutURL` and `userAuthURL` are never validated. An undefined URL is
  posted to as it is (lib/index.js:54, 145).
- The client id and the request host are concatenated even when undefined.
  They then appear as the text `undefined` in the login URL
  (lib/index.js:123, 127).
- When neither `clientRes` nor `clientReq` is set, `authDetails` is written
  to the request field named `"undefined"` (lib/index.js:165-167).
- `swapCode()` and `check()` called without an options object throw a
  TypeError when they read `opt.scope` and `opt.operation`
  (lib/index.js:64, 109). `Result` does not distinguish a TypeError from an
  Error; it records the message only.

## Model

| member | source | states |
|---|---|---|
| `AuthConfig.Create` | lib/index.js:6-17 | Construction succeeds exactly when `server` and `client` are given and the authorisation, code-swap and keep-alive URLs are truthy. A missing `server` or `client` (or missing options) throws "server and client are required"; otherwise a missing URL throws the URL message. On success `authCode` is the given one when truthy and "code" otherwise, `tokenName` likewise with "access_token", and every other option is kept unchanged |
| `AuthConfig.SwapCode` | lib/index.js:63-67 | Without an options object the factory throws the TypeError of reading `opt.scope`. With one, it throws "scope resource name must be specified" exactly when the scope is falsy; otherwise it keeps the scope and `noRespond` |
| `AuthConfig.Check` | lib/index.js:108-118 | Without an options object the factory throws the TypeError of reading `opt.operation`. With one, it succeeds exactly when the scope is truthy and either `redirectLogin` or a truthy `redirectURI` is given. A missing scope throws the scope message first; otherwise the redirect message. All options are kept |
| `JsStrings.Trim` | lib/index.js:199 | `trim` leaves neither end as whitespace, never lengthens, and leaves an already trimmed string unchanged |
| `JsStrings.TrimDropsWhitespace` | lib/index.js:199 | The trimmed string is a contiguous part of the input, and everything dropped before and after it is whitespace |
| `JsStrings.Split` | lib/index.js:199 | `split(' ')` returns at least one piece, and no piece contains the separator |
| `JsStrings.JoinSplit` | lib/index.js:199 | Joining the pieces of a split with the separator gives back the original string |
| `JsStrings.SplitJoin` | lib/index.js:199 | Splitting a join of separator-free pieces gives back the pieces |
| `JsStrings.SplitNoSeparator` | lib/index.js:199 | A string without the separator splits into itself alone |
| `JsStrings.SplitAtSeparator` | lib/index.js:199 | The first separator ends the first piece |
| `Credentials.GetAuthHeader` | lib/index.js:197-200 | An absent or empty Authorization header gives a falsy result; any piece returned contains no space |
| `Credentials.BearerToken` | lib/index.js:197-200 | `"<scheme> <token>"`, with whitespace-free non-empty parts, yields exactly the token |
| `Credentials.DoubleSpaceGivesNoToken` | lib/index.js:199 | `"<scheme>  <token>"` (two spaces) yields `""`, which is falsy |
| `Credentials.NoSpaceGivesNoToken` | lib/index.js:199 | A header with no space once trimmed yields no token |
| `Credentials.FirstMatch` | lib/index.js:214-218 | Returns the least index at or after the start whose key equals the presented one; it returns none exactly when no such key exists |
| `Credentials.ScanKeys` | lib/index.js:214-218 | The loop, which stops at the first entry whose trimmed key equals the trimmed header, returns exactly that entry's index, or none |
| `Credentials.ApiKeyCheck` | lib/index.js:202-210 | `false` without configured keys or without an `X-Api-Key` header |
| `Credentials.ApiKeyCheckFirstMatch` | lib/index.js:202-221 | A key is accepted exactly when keys are configured, the header is present and some entry's trimmed key equals the trimmed header. The label returned is that of the first such entry |
| `Credentials.ValidApiKey` | lib/index.js:202-221 | The early-return checks followed by the scan over the normalised key list return exactly what `ApiKeyCheck` specifies |
| `Credentials.LegacyKeyLabel` | lib/index.js:211-216 | A bare configured key equal, after trimming, to a non-empty header is accepted with the label "legacy" |
| `Credentials.CheckToken` | lib/index.js:131 | `check`'s token is the first truthy one among the bearer piece, `req[tokenName]`, `body`, `query` and `cookies`. It is falsy exactly when all five are falsy |
| `Credentials.SessionToken` | lib/index.js:38 | The notifiers' token is `req[tokenName]` if truthy, else the cookie; truthy exactly when one of the two is |
| `Credentials.AuthCodeOf` | lib/index.js:72 | The one-time code is the first truthy of `params`, `body` and `query`, keyed by `authCode` |
| `Express.Response.Cookie` | lib/index.js:89-90 | Appends one set cookie and changes nothing else |
| `Express.Response.ClearCookie` | lib/index.js:184 | Appends one cleared cookie name and changes nothing else |
| `Express.Response.SetRedirectURL` | lib/index.js:129 | Stores the login URL in the response locals and changes nothing else |
| `Express.Response.Redirect` | lib/index.js:155 | Emits one redirect and changes nothing else |
| `Express.Response.Send` | lib/index.js:29-33 | Emits one status and body and changes nothing else |
| `Express.HttpClient.Post` | lib/index.js:145 | Records one outbound POST |
| `Middleware.AngXsrf` | lib/index.js:18-35 | Calls `next()` exactly when a valid API key comes with a truthy bearer piece, or the XSRF cookie and header are non-empty and equal. Otherwise it calls `next(Error('XSRF Error'))` when `noRespond`, else emits exactly one 401 `{status:'ERROR', message:'XSRF error', location: authURL}`. Cookies are untouched |
| `Middleware.ApiKeyBypassesXsrf` | lib/index.js:20 | A valid API key with a bearer token passes whatever the XSRF cookie and header say |
| `Middleware.XsrfMismatchRejected` | lib/index.js:22-28 | Without the API-key bypass, an XSRF cookie and header that differ are rejected |
| `Middleware.Notifications` | lib/index.js:39-43 | A notifier posts `{access_token: token}` once if a token exists, and posts nothing otherwise |
| `Middleware.KeepAlive` | lib/index.js:36-46 | Posts the notification to the keep-alive URL exactly when a token exists, and always calls `next()` |
| `Middleware.Logout` | lib/index.js:47-62 | Posts the notification to the logout URL exactly when a token exists. Calls `next()` when `noRespond`, else emits exactly one 200 "logout successful". Cookies are untouched |
| `Middleware.SwapVerdict` | lib/index.js:81-87 | A failed exchange, a reply without a truthy `session.token`, and a reply with one are told apart; the token is `session.token` |
| `Middleware.Exchanged` | lib/index.js:81-104 | After the exchange settles: a failure sends 503 "Failed to exchange code"; a reply without `session.token` sends 503 "No user session for code"; neither sets a cookie or a field. A token T sets the `tokenName` and `XSRF-TOKEN` cookies to T and `req[tokenName]` to T, then calls `next()` when `noRespond`, else sends "swapped the code" |
| `Middleware.HandleSwapCode` | lib/index.js:63-106 | Without a code: `next()` with no post, no cookie and no field written. With a code: `req.authCode` is set and `{requestToken:{name: scope, value: code}}` is posted to the swap URL. A failure sends 503 "Failed to exchange code"; a reply without `session.token` sends 503 "No user session for code"; neither sets a cookie. A token T sets the `tokenName` and `XSRF-TOKEN` cookies to T and `req[tokenName]` to T, then calls `next()` when `noRespond`, else sends "swapped the code". It never calls `next` with an error |
| `Middleware.LoginUrl` | lib/index.js:123-128 | The login URL starts with the authorisation URL and `?response_type=code&scope=` and ends with `&redirect_uri=` and the back target. The back target is `redirectURI` when truthy, else protocol `://` host and original URL |
| `Middleware.Interpret` | lib/index.js:146-161 | Classifies the settled call: failure; `authorised` falsy (no session); truthy but not `'Y'` (forbidden); exactly `'Y'` (allowed, with `authDetails` or `{}`) |
| `Middleware.DetailsKey` | lib/index.js:165 | `authDetails` goes to `clientRes` when truthy, else to `clientReq`, and to the field named "undefined" when both are unset |
| `Middleware.WithAuthDetails` | lib/index.js:166-167 | Only the destination field changes. A missing or falsy holder becomes `{authDetails}`. An existing object keeps its other members and gains `authDetails`. A non-empty string is left as it is |
| `Middleware.SetAuthDetails` | lib/index.js:165-167 | The request's fields become exactly `WithAuthDetails` of the old fields |
| `Middleware.Authorise` | lib/index.js:146-178 | After the authorisation call settles: failure sends 503 "Failed to authorize"; no session clears the token cookie if one was carried and redirects or sends 401 "No user session for user token"; forbidden redirects or sends 403 with the error body; `'Y'` writes `authDetails` and calls `next()` with nothing emitted. Only the `'Y'` case changes the request |
| `Middleware.RedirectOr401` | lib/index.js:181-193 | Clears the token cookie exactly when the request carried a truthy one. Then it emits exactly one redirect to the login URL (`redirectLogin`) or one 401 `{location, message}` |
| `Middleware.HandleCheck` | lib/index.js:108-195 | Always stores the login URL and never sets a cookie. Without a token: exactly one redirect or 401 "No token", with no post, no cleared cookie and no field written. With a token: `req[tokenName]` is set and `{token, resource, operation, clientRequest}` is posted. Then: failure gives 503 "Failed to authorize"; no session clears the cookie if one was carried and redirects or sends 401 "No user session for user token"; forbidden redirects or sends 403; `'Y'` writes `authDetails` and calls `next()` with nothing emitted |

## Left out

- HTTP transport and JSON encoding: the remote calls are the `Reply` input, and posts are recorded with their URL and body.
- Promise scheduling and the unawaited posts of `keepAlive` and `logout`: only the synchronous outcome of a handler is modelled, so a handler is one atomic step.
- A downstream middleware that throws inside `next()`: in `swapCode` and `check`, `next()` runs inside `.then`, so its exception would reach `.catch` and send a 503 as well. Downstream code is not part of this model.
- `debug` logging: it has no behaviour.
- Express header lookup is case-insensitive. `Express.Request.Header` looks names up exactly as `lib/index.js` spells them.
- Request body, query, params and cookies hold strings only; JSON bodies with nested values are not modelled.
- In JavaScript, `req[name]` for `clientReq`, `tokenName` and the `authDetails` destination indexes the same object that holds `body`, `query`, `params`, `cookies`, `protocol` and `originalUrl`. The model keeps the request's own fields (`Express.Request.fields`) apart from those. Option or token names that coincide with the framework's own request properties (for example `clientReq: 'body'` or `tokenName: 'query'`) are not modelled. Neither is sharing by reference: an existing `req[dest]` object that is also referenced elsewhere gains `authDetails` there as well, while the model updates a value.
- Reply values: `Value` has only strings and plain objects. JSON `false`, `0`, `null`, `true`, numbers and arrays in a reply are not modelled. A reply whose body is `null` makes the continuation throw a TypeError, which reaches `.catch`; the model represents it as `Failed`. The other cases map by truthiness: a falsy member (`false`, `0`, `null`) is read as an absent one (for example `{authorised: false}` is `NoSession`, and `authDetails: null` becomes `{}`). A truthy non-string member (`true`, a non-zero number, an array) is read as a non-empty value other than `'Y'` (for example `{authorised: true}` is `Forbidden`). The model does not itself prove this mapping.
- `AuthConfig.Create`: JavaScript writes the defaults into the caller's options object, before the URL check. The model returns a new value and does not capture that aliasing. Likewise `swapCode` reads `opt.noRespond` on each request (lib/index.js:69), and `check` reads `opt.clientReq` (lib/index.js:122) and `opt.clientRes || opt.clientReq` (lib/index.js:165) on each request. The model captures these options once, when the factory is called, so a caller that mutates `opt` afterwards is not modelled.
- Option values that are not strings or booleans (for example a numeric `scope`, or an object `thirdParty`) are not modelled. API-key entries without a `key` would throw in JavaScript and are not modelled.
- `trim` uses the ECMAScript whitespace set (the fixed code points listed in `JsStrings.IsWhitespace`).
- test/app.js uses an older middleware API that `lib/index.js` no longer provides; it is not part of this model.
