/** Where the middleware finds credentials on a request: the bearer token of
    the Authorization header (`getAuthHeader`), the API-key allow-list
    (`validApiKey`), and the priority orders in which the handlers look for
    a token or a one-time code. */
module Credentials {
  import opened JsValues
  import opened JsStrings
  import opened Express
  import opened AuthConfig

  /** `getAuthHeader(req)`: the header trimmed, split on single spaces, and
      its second piece taken. An absent or empty header is returned as it is
      (falsy); a header without a space yields `undefined`. */
  function GetAuthHeader(req: Request): (r: Option<string>)
    ensures !TruthyStr(req.Header("Authorization")) ==> !TruthyStr(r)
    ensures r.Some? ==> ' ' !in r.value
  {
    var bearer := req.Header("Authorization");
    if !TruthyStr(bearer) then bearer
    else
      var parts := Split(Trim(bearer.value), ' ');
      if |parts| > 1 then Some(parts[1]) else None
  }

  /** `Authorization: <scheme> <token>` yields the token, whatever the
      scheme is called. */
  lemma BearerToken(req: Request, scheme: string, token: string)
    requires scheme != "" && token != ""
    requires AllWhitespaceFree(scheme) && AllWhitespaceFree(token)
    requires req.Header("Authorization") == Some(scheme + " " + token)
    ensures GetAuthHeader(req) == Some(token)
  {
    var h := scheme + " " + token;
    assert h[0] == scheme[0] && h[|h| - 1] == token[|token| - 1];
    assert Trim(h) == h;
    NoSpace(scheme);
    NoSpace(token);
    SplitAtSeparator(scheme, token, ' ');
    SplitNoSeparator(token, ' ');
  }

  /** Two spaces after the scheme make the second piece empty, so the
      header gives a falsy token. */
  lemma DoubleSpaceGivesNoToken(req: Request, scheme: string, token: string)
    requires scheme != "" && token != ""
    requires AllWhitespaceFree(scheme) && AllWhitespaceFree(token)
    requires req.Header("Authorization") == Some(scheme + "  " + token)
    ensures GetAuthHeader(req) == Some("")
    ensures !TruthyStr(GetAuthHeader(req))
  {
    var h := scheme + "  " + token;
    assert h[0] == scheme[0] && h[|h| - 1] == token[|token| - 1];
    assert Trim(h) == h;
    NoSpace(scheme);
    assert h == scheme + [' '] + (" " + token);
    SplitAtSeparator(scheme, " " + token, ' ');
    assert " " + token == [] + [' '] + token;
    SplitAtSeparator([], token, ' ');
  }

  /** A header whose trimmed value has no space carries no token. */
  lemma NoSpaceGivesNoToken(req: Request)
    requires req.Header("Authorization").Some?
    requires ' ' !in Trim(req.Header("Authorization").value)
    ensures !TruthyStr(GetAuthHeader(req))
  {
    var h := req.Header("Authorization").value;
    if h != "" {
      SplitNoSeparator(Trim(h), ' ');
    }
  }

  /** Whether `key` is the configured entry for the presented header: both
      are compared after trimming, case-sensitively. */
  predicate KeyMatches(entry: ApiKeyEntry, header: string)
  {
    Trim(entry.key) == Trim(header)
  }

  /** `!apiKey` is false: a non-empty bare key, or any list (even empty). */
  predicate ApiKeyConfigured(apiKey: ApiKeySetting)
  {
    match apiKey
    case Unset => false
    case Legacy(k) => k != ""
    case Keys(_) => true
  }

  /** The key list after the legacy bare string has been normalised. */
  function Entries(apiKey: ApiKeySetting): (es: seq<ApiKeyEntry>)
    ensures apiKey.Legacy? ==> es == [ApiKeyEntry(Some("legacy"), apiKey.key)]
    ensures apiKey.Keys? ==> es == apiKey.entries
  {
    match apiKey
    case Unset => []
    case Legacy(k) => [ApiKeyEntry(Some("legacy"), k)]
    case Keys(es) => es
  }

  /** The configured keys, each trimmed. */
  function TrimmedKeys(entries: seq<ApiKeyEntry>): (keys: seq<string>)
    ensures |keys| == |entries|
    ensures forall i :: 0 <= i < |entries| ==> keys[i] == Trim(entries[i].key)
  {
    seq(|entries|, i requires 0 <= i < |entries| => Trim(entries[i].key))
  }

  /** The index of the first key at or after `k` equal to `t`. */
  function FirstMatch(keys: seq<string>, t: string, k: nat): (r: Option<nat>)
    requires k <= |keys|
    ensures r.Some? ==> k <= r.value < |keys| && keys[r.value] == t
    ensures r.Some? ==> forall j :: k <= j < r.value ==> keys[j] != t
    ensures r.None? <==> forall j :: k <= j < |keys| ==> keys[j] != t
    decreases |keys| - k
  {
    if k == |keys| then None
    else if keys[k] == t then Some(k)
    else FirstMatch(keys, t, k + 1)
  }

  /** The result of `validApiKey`: `false`, or the matched entry's label
      (which may itself be undefined or empty, and then is falsy). */
  datatype KeyCheck = Rejected | Accepted(thirdParty: Option<string>)

  /** `!!validApiKey(req, apiKey)`. */
  predicate KeyPasses(k: KeyCheck)
  {
    k.Accepted? && TruthyStr(k.thirdParty)
  }

  /** What `validApiKey` returns: `false` without configured keys or without
      an `X-Api-Key` header, otherwise the label of the first configured
      entry whose trimmed key equals the trimmed header, or `false`. */
  function ApiKeyCheck(req: Request, apiKey: ApiKeySetting): (r: KeyCheck)
    ensures !ApiKeyConfigured(apiKey) || !TruthyStr(req.Header("X-Api-Key")) ==> r == Rejected
  {
    var header := req.Header("X-Api-Key");
    if !ApiKeyConfigured(apiKey) || !TruthyStr(header) then Rejected
    else
      match FirstMatch(TrimmedKeys(Entries(apiKey)), Trim(header.value), 0)
      case None => Rejected
      case Some(i) => Accepted(Entries(apiKey)[i].thirdParty)
  }

  /** A key is accepted exactly when keys are configured, the header is
      present, and some entry matches it; the label reported is that of the
      first matching entry. */
  lemma ApiKeyCheckFirstMatch(req: Request, apiKey: ApiKeySetting)
    ensures ApiKeyCheck(req, apiKey).Accepted? <==>
      ApiKeyConfigured(apiKey) && TruthyStr(req.Header("X-Api-Key"))
      && exists i :: 0 <= i < |Entries(apiKey)| && KeyMatches(Entries(apiKey)[i], req.Header("X-Api-Key").value)
    ensures ApiKeyCheck(req, apiKey).Accepted? ==>
      exists i :: 0 <= i < |Entries(apiKey)| && KeyMatches(Entries(apiKey)[i], req.Header("X-Api-Key").value)
        && (forall j :: 0 <= j < i ==> !KeyMatches(Entries(apiKey)[j], req.Header("X-Api-Key").value))
        && ApiKeyCheck(req, apiKey).thirdParty == Entries(apiKey)[i].thirdParty
  {
  }

  /** The scan at the heart of `validApiKey`: the index of the first entry
      whose trimmed key equals the trimmed header. */
  method ScanKeys(entries: seq<ApiKeyEntry>, header: string) returns (r: Option<nat>)
    ensures r == FirstMatch(TrimmedKeys(entries), Trim(header), 0)
  {
    ghost var trimmed := TrimmedKeys(entries);
    var i := 0;
    while i < |entries|
      invariant 0 <= i <= |entries|
      invariant FirstMatch(trimmed, Trim(header), i) == FirstMatch(trimmed, Trim(header), 0)
    {
      if Trim(header) == Trim(entries[i].key) {
        assert FirstMatch(trimmed, Trim(header), i) == Some(i);
        return Some(i);
      }
      i := i + 1;
    }
    return None;
  }

  /** `validApiKey(req, apiKey)`: without configured keys or a header the
      answer is `false`; otherwise the key list is scanned and the first
      match's label returned. */
  method ValidApiKey(req: Request, apiKey: ApiKeySetting) returns (r: KeyCheck)
    ensures r == ApiKeyCheck(req, apiKey)
  {
    if !ApiKeyConfigured(apiKey) {
      return Rejected;
    }
    var header := req.Header("X-Api-Key");
    if !TruthyStr(header) {
      return Rejected;
    }
    var keys := apiKey;
    if keys.Legacy? {
      keys := Keys([ApiKeyEntry(Some("legacy"), keys.key)]);
    }
    var entries := Entries(keys);
    assert entries == Entries(apiKey);
    var found := ScanKeys(entries, header.value);
    if found.Some? {
      return Accepted(entries[found.value].thirdParty);
    }
    return Rejected;
  }

  /** A bare configured key matching the header is reported as "legacy". */
  lemma LegacyKeyLabel(req: Request, key: string)
    requires key != ""
    requires req.Header("X-Api-Key").Some? && Trim(req.Header("X-Api-Key").value) == Trim(key)
    requires req.Header("X-Api-Key").value != ""
    ensures ApiKeyCheck(req, Legacy(key)) == Accepted(Some("legacy"))
    ensures KeyPasses(ApiKeyCheck(req, Legacy(key)))
  {
    assert TrimmedKeys(Entries(Legacy(key)))[0] == Trim(key);
  }

  /** `check` looks for its token in the bearer header, then the request's
      own field, then the body, the query string and the cookies, keyed by
      the token name; the first truthy one wins. */
  function CheckToken(tokenName: string, req: Request): (r: Option<Value>)
    reads req
    ensures TruthyStr(GetAuthHeader(req)) ==> r == Lift(GetAuthHeader(req))
    ensures (!TruthyStr(GetAuthHeader(req)) && Truthy(Field(req.fields, tokenName))) ==>
      r == Field(req.fields, tokenName)
    ensures (!TruthyStr(GetAuthHeader(req)) && !Truthy(Field(req.fields, tokenName))
             && Truthy(Lookup(req.body, tokenName))) ==>
      r == Lookup(req.body, tokenName)
    ensures (!TruthyStr(GetAuthHeader(req)) && !Truthy(Field(req.fields, tokenName))
             && !Truthy(Lookup(req.body, tokenName)) && Truthy(Lookup(req.query, tokenName))) ==>
      r == Lookup(req.query, tokenName)
    ensures (!TruthyStr(GetAuthHeader(req)) && !Truthy(Field(req.fields, tokenName))
             && !Truthy(Lookup(req.body, tokenName)) && !Truthy(Lookup(req.query, tokenName))) ==>
      r == Lookup(req.cookies, tokenName)
    ensures !Truthy(r) <==>
      (!TruthyStr(GetAuthHeader(req)) && !Truthy(Field(req.fields, tokenName))
       && !Truthy(Lookup(req.body, tokenName)) && !Truthy(Lookup(req.query, tokenName))
       && !Truthy(Lookup(req.cookies, tokenName)))
  {
    Or(Or(Or(Or(Lift(GetAuthHeader(req)), Field(req.fields, tokenName)), Lookup(req.body, tokenName)),
          Lookup(req.query, tokenName)), Lookup(req.cookies, tokenName))
  }

  /** `keepAlive` and `logout` look only at the request's own field, then
      the cookie, keyed by the token name. */
  function SessionToken(tokenName: string, req: Request): (r: Option<Value>)
    reads req
    ensures Truthy(Field(req.fields, tokenName)) ==> r == Field(req.fields, tokenName)
    ensures !Truthy(Field(req.fields, tokenName)) ==> r == Lookup(req.cookies, tokenName)
    ensures Truthy(r) <==> Truthy(Field(req.fields, tokenName)) || Truthy(Lookup(req.cookies, tokenName))
  {
    Or(Field(req.fields, tokenName), Lookup(req.cookies, tokenName))
  }

  /** `swapCode` looks for the one-time code in the path parameters, then
      the body, then the query string, keyed by the `authCode` option. */
  function AuthCodeOf(authCode: string, req: Request): (r: Option<Value>)
    ensures Truthy(r) ==> r.value.Str?
    ensures Truthy(Lookup(req.params, authCode)) ==> r == Lookup(req.params, authCode)
    ensures (!Truthy(Lookup(req.params, authCode)) && Truthy(Lookup(req.body, authCode))) ==>
      r == Lookup(req.body, authCode)
    ensures (!Truthy(Lookup(req.params, authCode)) && !Truthy(Lookup(req.body, authCode))) ==>
      r == Lookup(req.query, authCode)
  {
    Or(Or(Lookup(req.params, authCode), Lookup(req.body, authCode)), Lookup(req.query, authCode))
  }
}
