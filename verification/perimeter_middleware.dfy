/**
 * The current gate: the middleware that lets a request through when it
 * carries a valid token, in the token header or in the session, and
 * otherwise redirects it to the gateway page with the original destination
 * in the `next` query parameter.
 */
module PerimeterMiddleware {
  import opened Common
  import opened FormEncoding
  import opened PerimeterModels

  /** `PERIMETER_SESSION_KEY` when the settings do not override it. */
  const DefaultSessionKey: string := "perimeter"

  datatype GateError = ImproperlyConfigured | MiddlewareNotUsed

  /**
   * An incoming request. `session` is `None` when the session middleware has
   * not attached a session to it; the session is the only part the gate may
   * write.
   */
  class HttpRequest {
    const path: string
    const queryString: string
    const meta: map<string, string>
    var session: Option<map<string, string>>

    constructor (path: string, queryString: string, meta: map<string, string>,
                 session: Option<map<string, string>>)
      ensures this.path == path && this.queryString == queryString
      ensures this.meta == meta && this.session == session
    {
      this.path, this.queryString, this.meta := path, queryString, meta;
      this.session := session;
    }
  }

  /**
   * The settings the gate reads: the session key, the `META` key of the
   * token header, the path of the gateway page and the bypass predicate.
   */
  datatype Config = Config(
    sessionKey: string,
    headerName: string,
    gatewayPath: string,
    bypass: HttpRequest -> bool)

  // ---------------------------------------------------------------------------
  // Reading and writing the request token
  // ---------------------------------------------------------------------------

  /**
   * `check_middleware`: a request without a session is a configuration
   * error; with one, the wrapped function's result is passed on unchanged.
   */
  function CheckMiddleware<T>(session: Option<map<string, string>>, f: map<string, string> -> T)
    : (r: Result<T, GateError>)
    ensures session.None? <==> r.Failure?
    ensures r.Failure? ==> r.error == ImproperlyConfigured
    ensures r.Success? ==> r.value == f(session.value)
  {
    match session
    case None => Failure(ImproperlyConfigured)
    case Some(s) => Success(f(s))
  }

  /** The header carries a token: it is there and not empty (Python truthiness of a string). */
  predicate HeaderPresent(meta: map<string, string>, headerName: string) {
    headerName in meta && meta[headerName] != ""
  }

  /** The value `META.get(header) or session.get(key)` yields. */
  function HeaderOrSession(meta: map<string, string>, headerName: string, sessionKey: string,
                           session: map<string, string>): (v: Option<string>)
    ensures HeaderPresent(meta, headerName) ==> v == Some(meta[headerName])
    ensures !HeaderPresent(meta, headerName) && sessionKey in session ==> v == Some(session[sessionKey])
    ensures !HeaderPresent(meta, headerName) && sessionKey !in session ==> v.None?
  {
    if HeaderPresent(meta, headerName) then Some(meta[headerName])
    else if sessionKey in session then Some(session[sessionKey])
    else None
  }

  /** `get_request_token`: the header first, then the session. */
  function GetRequestToken(request: HttpRequest, cfg: Config): (r: Result<Option<string>, GateError>)
    reads request
    ensures request.session.None? ==> r == Failure(ImproperlyConfigured)
    ensures request.session.Some? ==>
      r == Success(HeaderOrSession(request.meta, cfg.headerName, cfg.sessionKey, request.session.value))
  {
    CheckMiddleware(request.session, s => HeaderOrSession(request.meta, cfg.headerName, cfg.sessionKey, s))
  }

  /** A token in the header hides whatever the session holds. */
  lemma HeaderTakesPrecedence(meta: map<string, string>, headerName: string, sessionKey: string,
                              s1: map<string, string>, s2: map<string, string>)
    requires HeaderPresent(meta, headerName)
    ensures HeaderOrSession(meta, headerName, sessionKey, s1) == HeaderOrSession(meta, headerName, sessionKey, s2)
  {
  }

  /**
   * `set_request_token`: the value is written under the session key, and
   * nothing else in the session changes. Without a header, reading the token
   * back gives the value just written.
   */
  method SetRequestToken(request: HttpRequest, cfg: Config, value: string) returns (r: Result<(), GateError>)
    modifies request
    ensures old(request.session).None? ==> r == Failure(ImproperlyConfigured) && request.session.None?
    ensures old(request.session).Some? ==>
      && r == Success(())
      && request.session == Some(old(request.session).value[cfg.sessionKey := value])
    ensures r.Success? && !HeaderPresent(request.meta, cfg.headerName) ==>
      GetRequestToken(request, cfg) == Success(Some(value))
  {
    if request.session.None? {
      return Failure(ImproperlyConfigured);
    }
    request.session := Some(request.session.value[cfg.sessionKey := value]);
    r := Success(());
  }

  /** Writing the token changes the session under its key only. */
  lemma SetTokenChangesOneKey(session: map<string, string>, sessionKey: string, value: string, k: string)
    requires k != sessionKey
    ensures k in session[sessionKey := value] <==> k in session
    ensures k in session ==> session[sessionKey := value][k] == session[k]
    ensures sessionKey in session[sessionKey := value] && session[sessionKey := value][sessionKey] == value
  {
  }

  // ---------------------------------------------------------------------------
  // Looking the token up
  // ---------------------------------------------------------------------------

  /**
   * `get_access_token`, as intended: no token value means `EmptyToken`;
   * a token value is looked up through the cache. Gives the lookup (or the
   * configuration error) and the cache left behind.
   */
  function LookupRequest(cfg: Config, request: HttpRequest, tokens: map<string, AccessToken>,
                         cache: map<string, CacheEntry>, now: int): (Result<Lookup, GateError>, map<string, CacheEntry>)
    reads request
  {
    match GetRequestToken(request, cfg)
    case Failure(e) => (Failure(e), cache)
    case Success(None) => (Success(EmptyToken), cache)
    case Success(Some(v)) =>
      var (l, c) := Resolve(tokens, cache, Some(v), now);
      (Success(l), c)
  }

  /**
   * `get_access_token` as written: the missing value goes to the manager as
   * `None`, whose cache key is the key of a token whose value is `"None"`.
   */
  function LookupRequestAsWritten(cfg: Config, request: HttpRequest, tokens: map<string, AccessToken>,
                                  cache: map<string, CacheEntry>, now: int)
    : (Result<Lookup, GateError>, map<string, CacheEntry>)
    reads request
  {
    match GetRequestToken(request, cfg)
    case Failure(e) => (Failure(e), cache)
    case Success(value) =>
      var (l, c) := Resolve(tokens, cache, value, now);
      (Success(l), c)
  }

  /**
   * The request's token resolves to what the store holds for it:
   * `EmptyToken` when the request has no token or an unknown one, the stored
   * token otherwise; and the cache stays coherent.
   */
  lemma LookupRequestMatchesStore(cfg: Config, request: HttpRequest, tokens: map<string, AccessToken>,
                                  cache: map<string, CacheEntry>, now: int)
    requires WellKeyed(tokens) && Coherent(tokens, cache)
    requires request.session.Some?
    ensures LookupRequest(cfg, request, tokens, cache, now).0 ==
      Success(StoreLookup(tokens, GetRequestToken(request, cfg).value))
    ensures Coherent(tokens, LookupRequest(cfg, request, tokens, cache, now).1)
  {
    var value := GetRequestToken(request, cfg).value;
    if value.Some? {
      ResolveMatchesStore(tokens, cache, value.value, now);
    }
  }

  /**
   * What the lookup as written gives against the store: a token value
   * resolves to what the table holds for it; no token value resolves to the
   * table's token `"None"` while that token's cache entry is live, and to
   * `EmptyToken` otherwise. The cache stays coherent.
   */
  lemma LookupRequestAsWrittenMatchesStore(cfg: Config, request: HttpRequest, tokens: map<string, AccessToken>,
                                           cache: map<string, CacheEntry>, now: int)
    requires WellKeyed(tokens) && Coherent(tokens, cache)
    requires request.session.Some?
    ensures GetRequestToken(request, cfg).value.Some? ==>
      LookupRequestAsWritten(cfg, request, tokens, cache, now).0 ==
        Success(StoreLookup(tokens, GetRequestToken(request, cfg).value))
    ensures GetRequestToken(request, cfg).value.None? ==>
      LookupRequestAsWritten(cfg, request, tokens, cache, now) ==
        (Success(if IsLive(cache, GetCacheKey(None), now) then StoreLookup(tokens, Some("None")) else EmptyToken), cache)
    ensures Coherent(tokens, LookupRequestAsWritten(cfg, request, tokens, cache, now).1)
  {
    var value := GetRequestToken(request, cfg).value;
    if value.Some? {
      ResolveMatchesStore(tokens, cache, value.value, now);
    } else {
      ResolveTokenless(tokens, cache, now);
    }
  }

  /**
   * The lookup as written and the intended one agree on every request as long
   * as no stored token has the value `"None"`.
   */
  lemma LookupsAgreeWithoutNoneToken(cfg: Config, request: HttpRequest,
                                     tokens: map<string, AccessToken>,
                                     cache: map<string, CacheEntry>, now: int)
    requires WellKeyed(tokens) && Coherent(tokens, cache)
    requires "None" !in tokens
    ensures LookupRequestAsWritten(cfg, request, tokens, cache, now) == LookupRequest(cfg, request, tokens, cache, now)
  {
    if request.session.Some? && GetRequestToken(request, cfg).value.None? {
      LookupRequestAsWrittenMatchesStore(cfg, request, tokens, cache, now);
    }
  }

  /**
   * The stored token whose value is the text `"None"`, cached and valid,
   * admits a request that carries no token at all.
   */
  lemma TokenlessRequestAdmittedAsWritten(cfg: Config, request: HttpRequest, t: AccessToken,
                                          now: int, today: int)
    requires request.session.Some?
    requires GetRequestToken(request, cfg) == Success(None)
    requires t.token == "None" && t.persisted && t.createdAt.Some? && IsValid(t, today)
    ensures WellKeyed(map["None" := t])
    ensures Coherent(map["None" := t], map[CacheKey(t) := CacheEntry(t, now + 1)])
    ensures LookupRequestAsWritten(cfg, request, map["None" := t], map[CacheKey(t) := CacheEntry(t, now + 1)], now).0
      == Success(Found(t))
    ensures LookupRequest(cfg, request, map["None" := t], map[CacheKey(t) := CacheEntry(t, now + 1)], now).0
      == Success(EmptyToken)
  {
    assert GetCacheKey(None) == CacheKey(t);
  }

  /** `EmptyToken` for every request that carries no token, whatever the store and cache hold. */
  lemma TokenlessRequestNeverAdmitted(cfg: Config, request: HttpRequest, tokens: map<string, AccessToken>,
                                      cache: map<string, CacheEntry>, now: int, today: int)
    requires GetRequestToken(request, cfg) == Success(None)
    ensures LookupRequest(cfg, request, tokens, cache, now) == (Success(EmptyToken), cache)
    ensures !LookupIsValid(EmptyToken, today)
  {
  }

  // ---------------------------------------------------------------------------
  // The redirect
  // ---------------------------------------------------------------------------

  /** `get_full_path`: the path, followed by `?` and the query string when there is one. */
  function FullPath(path: string, queryString: string): (p: string)
    ensures queryString == "" ==> p == path
    ensures queryString != "" ==> p == path + "?" + queryString
  {
    if queryString == "" then path else path + "?" + queryString
  }

  /** `get_redirect_url`: the gateway page, with the full path encoded as `next`. */
  function GetRedirectUrl(gatewayPath: string, path: string, queryString: string): (url: string)
    ensures |url| >= |gatewayPath| + 6
    ensures url[..|gatewayPath|] == gatewayPath
    ensures url[|gatewayPath|..|gatewayPath| + 6] == "?next="
    ensures FormDecode(url[|gatewayPath| + 6..]) == Some(FullPath(path, queryString))
    ensures '&' !in url[|gatewayPath| + 6..] && '#' !in url[|gatewayPath| + 6..]
  {
    var fullPath := FullPath(path, queryString);
    FormRoundTrip(fullPath);
    ReservedNeverBare(fullPath, '&');
    ReservedNeverBare(fullPath, '#');
    RedirectUrlShape(gatewayPath, FormEncode(fullPath));
    gatewayPath + "?" + NextQuery(fullPath)
  }

  /** Where the parts of a redirect URL sit: the gateway path, `?next=`, then the encoded value. */
  lemma RedirectUrlShape(gatewayPath: string, encoded: string)
    ensures |gatewayPath + "?" + ("next=" + encoded)| == |gatewayPath| + 6 + |encoded|
    ensures (gatewayPath + "?" + ("next=" + encoded))[..|gatewayPath|] == gatewayPath
    ensures (gatewayPath + "?" + ("next=" + encoded))[|gatewayPath|..|gatewayPath| + 6] == "?next="
    ensures (gatewayPath + "?" + ("next=" + encoded))[|gatewayPath| + 6..] == encoded
  {
    var url := gatewayPath + "?" + ("next=" + encoded);
    var prefix := "?" + "next=";
    assert prefix == "?next=";
    assert url == gatewayPath + prefix + encoded;
  }

  /** The redirect URL is the gateway path, `?` and the `next` query of the full path. */
  lemma RedirectUrlParts(gatewayPath: string, path: string, queryString: string)
    ensures GetRedirectUrl(gatewayPath, path, queryString) == gatewayPath + "?" + NextQuery(FullPath(path, queryString))
  {
  }

  /** The redirect for `/somepath/`. */
  lemma RedirectForPathExample(gatewayPath: string, path: string)
    requires path == "/somepath/"
    ensures GetRedirectUrl(gatewayPath, path, "") == gatewayPath + "?" + "next=%2Fsomepath%2F"
  {
    RedirectUrlParts(gatewayPath, path, "");
    NextQueryPathExample(path);
  }

  /** The redirect for `/somepath/?important=param`. */
  lemma RedirectForPathAndQueryExample(gatewayPath: string, path: string, queryString: string)
    requires path == "/somepath/" && queryString == "important=param"
    ensures GetRedirectUrl(gatewayPath, path, queryString)
      == gatewayPath + "?" + "next=%2Fsomepath%2F%3Fimportant%3Dparam"
  {
    RedirectUrlParts(gatewayPath, path, queryString);
    var fullPath := FullPath(path, queryString);
    assert fullPath == "/somepath/?important=param" by {
      SpellOutFullPath(path, queryString);
    }
    NextQueryPathAndQueryExample(fullPath);
  }

  lemma SpellOutFullPath(path: string, queryString: string)
    requires path == "/somepath/" && queryString == "important=param"
    ensures path + "?" + queryString == "/somepath/?important=param"
  {
  }

  // ---------------------------------------------------------------------------
  // The middleware
  // ---------------------------------------------------------------------------

  /** What `process_request` answers: let the request through, or redirect it. */
  datatype Response = PassThrough | Redirect(location: string)

  /**
   * `PERIMETER_ENABLED is False`, with the setting's default `True` when it
   * is absent: only the literal `False` switches the gate off.
   */
  function CheckEnabled(setting: Option<PyValue>): (r: Result<(), GateError>)
    ensures r.Failure? <==> setting == Some(PyBool(false))
    ensures r.Failure? ==> r.error == MiddlewareNotUsed
  {
    if setting.GetOr(PyBool(true)) == PyBool(false) then Failure(MiddlewareNotUsed) else Success(())
  }

  /**
   * The decision `process_request` makes, and the cache it leaves: bypassed
   * requests pass, then a valid token passes, and everything else is
   * redirected to the gateway.
   */
  function Decide(cfg: Config, request: HttpRequest, tokens: map<string, AccessToken>,
                  cache: map<string, CacheEntry>, now: int, today: int)
    : (Result<Response, GateError>, map<string, CacheEntry>)
    reads request
  {
    if cfg.bypass(request) then (Success(PassThrough), cache)
    else
      var (r, c) := LookupRequestAsWritten(cfg, request, tokens, cache, now);
      match r
      case Failure(e) => (Failure(e), c)
      case Success(l) =>
        if LookupIsValid(l, today) then (Success(PassThrough), c)
        else (Success(Redirect(GetRedirectUrl(cfg.gatewayPath, request.path, request.queryString))), c)
  }

  /** A token value the store holds and that is valid today. */
  predicate Admits(tokens: map<string, AccessToken>, value: Option<string>, today: int) {
    value.Some? && value.value in tokens && IsValid(tokens[value.value], today)
  }

  /**
   * Who the lookup as written lets in: a stored valid token, or, for a request
   * without one, the stored valid token `"None"` while its cache entry is live.
   */
  predicate AdmitsAsWritten(tokens: map<string, AccessToken>, cache: map<string, CacheEntry>,
                            value: Option<string>, now: int, today: int) {
    Admits(tokens, value, today)
    || (value.None? && IsLive(cache, GetCacheKey(None), now) && Admits(tokens, Some("None"), today))
  }

  /**
   * The gate, stated against the store alone: a bypassed request passes
   * without touching the cache; a request without a session is a
   * configuration error; otherwise the request passes exactly when the
   * lookup as written admits it, and is redirected to the gateway with its
   * full path as `next` when not. Without a stored token `"None"`, that is
   * exactly when its token is stored and valid. The cache stays coherent
   * throughout.
   */
  lemma DecideRule(cfg: Config, request: HttpRequest, tokens: map<string, AccessToken>,
                   cache: map<string, CacheEntry>, now: int, today: int)
    requires WellKeyed(tokens) && Coherent(tokens, cache)
    ensures Coherent(tokens, Decide(cfg, request, tokens, cache, now, today).1)
    ensures cfg.bypass(request) ==> Decide(cfg, request, tokens, cache, now, today) == (Success(PassThrough), cache)
    ensures !cfg.bypass(request) && request.session.None? ==>
      Decide(cfg, request, tokens, cache, now, today).0 == Failure(ImproperlyConfigured)
    ensures !cfg.bypass(request) && request.session.Some? ==>
      (Decide(cfg, request, tokens, cache, now, today).0 == Success(PassThrough) <==>
       AdmitsAsWritten(tokens, cache, GetRequestToken(request, cfg).value, now, today))
    ensures !cfg.bypass(request) && request.session.Some?
            && !AdmitsAsWritten(tokens, cache, GetRequestToken(request, cfg).value, now, today) ==>
      Decide(cfg, request, tokens, cache, now, today).0
        == Success(Redirect(GetRedirectUrl(cfg.gatewayPath, request.path, request.queryString)))
    ensures request.session.Some? && "None" !in tokens ==>
      (AdmitsAsWritten(tokens, cache, GetRequestToken(request, cfg).value, now, today) <==>
       Admits(tokens, GetRequestToken(request, cfg).value, today))
  {
    if !cfg.bypass(request) && request.session.Some? {
      LookupRequestAsWrittenMatchesStore(cfg, request, tokens, cache, now);
    }
  }

  class PerimeterAccessMiddleware {
    const config: Config

    constructor (config: Config)
      ensures this.config == config
    {
      this.config := config;
    }

    /** `__init__`: the gate refuses to be built when the setting is `False`. */
    static method Create(enabled: Option<PyValue>, config: Config) returns (r: Result<PerimeterAccessMiddleware, GateError>)
      ensures r.Failure? <==> enabled == Some(PyBool(false))
      ensures r.Failure? ==> r.error == MiddlewareNotUsed
      ensures r.Success? ==> fresh(r.value) && r.value.config == config
    {
      var check := CheckEnabled(enabled);
      if check.Failure? {
        return Failure(MiddlewareNotUsed);
      }
      var m := new PerimeterAccessMiddleware(config);
      r := Success(m);
    }

    /**
     * `process_request`. It may fill the cache; the token table, the audit
     * log and the request's session are left alone.
     */
    method ProcessRequest(request: HttpRequest, store: AccessTokenStore, now: int, today: int)
      returns (r: Result<Response, GateError>)
      requires store.Valid()
      modifies store`cache
      ensures store.Valid()
      ensures store.tokens == old(store.tokens) && store.uses == old(store.uses)
      ensures (r, store.cache) == Decide(config, request, store.tokens, old(store.cache), now, today)
    {
      if config.bypass(request) {
        return Success(PassThrough);
      }
      var lookup := GetAccessToken(request, config, store, now);
      match lookup
      case Failure(e) =>
        r := Failure(e);
      case Success(l) =>
        if LookupIsValid(l, today) {
          r := Success(PassThrough);
        } else {
          r := Success(Redirect(GetRedirectUrl(config.gatewayPath, request.path, request.queryString)));
        }
    }
  }

  /**
   * `get_access_token`: the request's token value, `None` included, handed to
   * the cache-aware manager.
   */
  method GetAccessToken(request: HttpRequest, cfg: Config, store: AccessTokenStore, now: int)
    returns (r: Result<Lookup, GateError>)
    requires store.Valid()
    modifies store`cache
    ensures store.Valid()
    ensures (r, store.cache) == LookupRequestAsWritten(cfg, request, store.tokens, old(store.cache), now)
  {
    var value := GetRequestToken(request, cfg);
    match value
    case Failure(e) =>
      r := Failure(e);
    case Success(v) =>
      var l := store.GetAccessToken(v, now);
      r := Success(l);
  }
}
