/** The narrow part of the web framework's request and response objects that
    the middleware uses, plus the outbound HTTP client. Headers, path
    parameters, body, query string and cookies are read only; the request's
    own fields and everything on the response are written by the handlers. */
module Express {
  import opened JsValues

  class Request {
    const headers: map<string, string>
    const params: map<string, string>
    const body: map<string, string>
    const query: map<string, string>
    const cookies: map<string, string>
    const protocol: Option<string>
    const originalUrl: Option<string>
    /** Own fields of the request object (`req[name]`), which upstream
        middleware may have filled in and the handlers write. */
    var fields: map<string, Value>

    constructor (headers: map<string, string>, params: map<string, string>, body: map<string, string>,
                 query: map<string, string>, cookies: map<string, string>,
                 protocol: Option<string>, originalUrl: Option<string>, fields: map<string, Value>)
      ensures this.headers == headers && this.params == params && this.body == body
      ensures this.query == query && this.cookies == cookies
      ensures this.protocol == protocol && this.originalUrl == originalUrl && this.fields == fields
    {
      this.headers := headers;
      this.params := params;
      this.body := body;
      this.query := query;
      this.cookies := cookies;
      this.protocol := protocol;
      this.originalUrl := originalUrl;
      this.fields := fields;
    }

    /** `req.get(name)` (also spelt `req.header(name)`). */
    function Header(name: string): (r: Option<string>)
      ensures r.Some? <==> name in headers
      ensures r.Some? ==> r.value == headers[name]
    {
      if name in headers then Some(headers[name]) else None
    }
  }

  /** One response emitted to the client. `res.send` without `res.status`
      sends status 200. */
  datatype Emission = Redirect(url: string) | Send(status: int, body: Value)

  class Response {
    /** `res.cookie(name, value)` calls, in order. */
    var cookies: seq<(string, Value)>
    /** `res.clearCookie(name)` calls, in order. */
    var cleared: seq<string>
    /** `res.locals.redirectURL`. */
    var redirectURL: Option<string>
    /** Every response emitted, in order. */
    var sent: seq<Emission>

    constructor ()
      ensures cookies == [] && cleared == [] && redirectURL == None && sent == []
    {
      cookies, cleared, redirectURL, sent := [], [], None, [];
    }

    method Cookie(name: string, value: Value)
      modifies this
      ensures cookies == old(cookies) + [(name, value)]
      ensures cleared == old(cleared) && redirectURL == old(redirectURL) && sent == old(sent)
    {
      cookies := cookies + [(name, value)];
    }

    method ClearCookie(name: string)
      modifies this
      ensures cleared == old(cleared) + [name]
      ensures cookies == old(cookies) && redirectURL == old(redirectURL) && sent == old(sent)
    {
      cleared := cleared + [name];
    }

    method SetRedirectURL(url: string)
      modifies this
      ensures redirectURL == Some(url)
      ensures cookies == old(cookies) && cleared == old(cleared) && sent == old(sent)
    {
      redirectURL := Some(url);
    }

    /** `res.redirect(url)`. */
    method Redirect(url: string)
      modifies this
      ensures sent == old(sent) + [Emission.Redirect(url)]
      ensures cookies == old(cookies) && cleared == old(cleared) && redirectURL == old(redirectURL)
    {
      sent := sent + [Emission.Redirect(url)];
    }

    /** `res.status(status).send(body)`. */
    method Send(status: int, body: Value)
      modifies this
      ensures sent == old(sent) + [Emission.Send(status, body)]
      ensures cookies == old(cookies) && cleared == old(cleared) && redirectURL == old(redirectURL)
    {
      sent := sent + [Emission.Send(status, body)];
    }
  }

  /** One outbound `POST url body`; `url` may be `undefined`. */
  datatype Post = Posted(url: Option<string>, body: Value)

  /** What an awaited remote call settled to: a rejected promise (network
      error, non-2xx status, or a body that makes the continuation throw),
      or the response's data. */
  datatype Reply = Failed | Replied(data: Value)

  class HttpClient {
    var posts: seq<Post>

    constructor ()
      ensures posts == []
    {
      posts := [];
    }

    method Post(url: Option<string>, body: Value)
      modifies this
      ensures posts == old(posts) + [Posted(url, body)]
    {
      posts := posts + [Posted(url, body)];
    }
  }

  /** How a handler ended: by calling `next` (with no argument, or with an
      Error carrying a message) or by returning without calling it. */
  datatype Flow = Next(error: Option<string>) | Halt

  /** Every handler either calls `next` and emits nothing, or emits exactly
      one response and does not call `next`. */
  predicate Settled(flow: Flow, before: seq<Emission>, after: seq<Emission>)
  {
    if flow.Halt? then |after| == |before| + 1 && after[..|before|] == before else after == before
  }
}
