/**
 * The first generation of the gate. A request passes when its session holds
 * a valid token, or when its query string names one, in which case the token
 * is moved into the session and its use is logged. The admin site is never
 * gated.
 */
module LegacyMiddleware {
  import opened Common
  import opened LegacyModels
  import PerimeterMiddleware

  /** The session key when the settings do not name one. */
  const DefaultSessionKey: string := "pt"

  /** The prefix of the paths that are never gated. */
  const AdminPrefix: string := "/admin"

  /** `request.path[:6] == '/admin'`. */
  predicate IsAdminPath(path: string) {
    |path| >= |AdminPrefix| && path[..|AdminPrefix|] == AdminPrefix
  }

  /**
   * An incoming request: its path, its query string parameters, its `META`
   * headers and its session, which holds token objects.
   */
  class LegacyRequest {
    const path: string
    const get: map<string, string>
    const meta: map<string, string>
    var session: map<string, AccessToken>

    constructor (path: string, get: map<string, string>, meta: map<string, string>, session: map<string, AccessToken>)
      ensures this.path == path && this.get == get && this.meta == meta && this.session == session
    {
      this.path, this.get, this.meta := path, get, meta;
      this.session := session;
    }
  }

  /** How `process_request` ends: `None`, a returned `PermissionDenied`, or a raised one. */
  datatype Outcome = Allow | DeniedReturned | DeniedRaised

  datatype InitError = MiddlewareNotUsed

  /** `bool(settings.PERIMETER_ENABLED)`, where a missing setting disables the gate. */
  function CheckEnabled(setting: Option<PyValue>): (r: Result<(), InitError>)
    ensures r.Success? <==> setting.Some? && Truthy(setting.value)
  {
    match setting
    case None => Failure(MiddlewareNotUsed)
    case Some(v) => if Truthy(v) then Success(()) else Failure(MiddlewareNotUsed)
  }

  /**
   * The two generations disagree on which settings switch the gate off:
   * here a missing setting and every falsy value do, in the current gate only
   * the literal `False` does.
   */
  lemma EnabledChecksDiffer(setting: Option<PyValue>)
    ensures setting == Some(PyBool(false)) ==>
      CheckEnabled(setting).Failure? && PerimeterMiddleware.CheckEnabled(setting).Failure?
    ensures setting.Some? && setting.value == PyBool(true) ==>
      CheckEnabled(setting).Success? && PerimeterMiddleware.CheckEnabled(setting).Success?
    ensures setting.None? || setting.value in {PyNone, PyInt(0), PyStr("")} ==>
      CheckEnabled(setting).Failure? && PerimeterMiddleware.CheckEnabled(setting).Success?
  {
  }

  /** What a request leaves behind: the outcome, the session, and the usages it logged. */
  datatype Effect = Effect(outcome: Outcome, session: map<string, AccessToken>, logged: seq<AccessTokenUsage>)

  /**
   * `process_request`, step by step, on values: the admin site passes; a
   * valid session token passes; an invalid one is dropped; then a non-empty
   * query string token that is stored and valid is logged, put in the session
   * and passes, any other query string token is refused by returning
   * `PermissionDenied`, and no query string token is refused by raising it.
   */
  function Process(sessionKey: string, path: string, get: map<string, string>, meta: map<string, string>,
                   session: map<string, AccessToken>, tokens: map<string, AccessToken>, today: int, now: int)
    : Effect
  {
    if IsAdminPath(path) then Effect(Allow, session, [])
    else if sessionKey in session && IsValid(session[sessionKey], today) then Effect(Allow, session, [])
    else
      var dropped := session - {sessionKey};
      if sessionKey in get && get[sessionKey] != "" then
        var value := get[sessionKey];
        if value in tokens && IsValid(tokens[value], today) then
          var usage := AccessTokenUsage(tokens[value].token, now, MetaOrUnknown(meta, "HTTP_X_FORWARDED_FOR"),
                                        MetaOrUnknown(meta, "HTTP_USER_AGENT"));
          Effect(Allow, dropped[sessionKey := tokens[value]], [usage])
        else Effect(DeniedReturned, dropped, [])
      else Effect(DeniedRaised, dropped, [])
  }

  /** A non-empty query string token that names a stored, valid token. */
  predicate QueryAdmits(sessionKey: string, get: map<string, string>, tokens: map<string, AccessToken>, today: int) {
    sessionKey in get && get[sessionKey] != "" && get[sessionKey] in tokens && IsValid(tokens[get[sessionKey]], today)
  }

  /** The session holds a valid token under the key. */
  predicate SessionAdmits(sessionKey: string, session: map<string, AccessToken>, today: int) {
    sessionKey in session && IsValid(session[sessionKey], today)
  }

  /**
   * Who gets in: a request passes exactly when it is for the admin site, or
   * its session holds a valid token, or its query string names a valid one.
   * Refusals are returned for a query string token that does not admit, and
   * raised when there is none.
   */
  lemma ProcessOutcome(sessionKey: string, path: string, get: map<string, string>, meta: map<string, string>,
                       session: map<string, AccessToken>, tokens: map<string, AccessToken>, today: int, now: int)
    ensures Process(sessionKey, path, get, meta, session, tokens, today, now).outcome == Allow <==>
      IsAdminPath(path) || SessionAdmits(sessionKey, session, today) || QueryAdmits(sessionKey, get, tokens, today)
    ensures Process(sessionKey, path, get, meta, session, tokens, today, now).outcome == DeniedReturned <==>
      !IsAdminPath(path) && !SessionAdmits(sessionKey, session, today)
      && sessionKey in get && get[sessionKey] != "" && !QueryAdmits(sessionKey, get, tokens, today)
    ensures Process(sessionKey, path, get, meta, session, tokens, today, now).outcome == DeniedRaised <==>
      !IsAdminPath(path) && !SessionAdmits(sessionKey, session, today)
      && !(sessionKey in get && get[sessionKey] != "")
  {
  }

  /**
   * What changes: a request that passes on the admin path or on its session
   * changes nothing; every other request loses its invalid session token; a
   * query string entry puts the stored token in the session and logs exactly
   * one usage with the forwarded address and the user agent; no other request
   * logs anything; and no session key but the gate's own ever changes.
   */
  lemma ProcessEffects(sessionKey: string, path: string, get: map<string, string>, meta: map<string, string>,
                       session: map<string, AccessToken>, tokens: map<string, AccessToken>, today: int, now: int)
    ensures var e := Process(sessionKey, path, get, meta, session, tokens, today, now);
      && (IsAdminPath(path) || SessionAdmits(sessionKey, session, today) ==> e.session == session && e.logged == [])
      && (!IsAdminPath(path) && !SessionAdmits(sessionKey, session, today) && !QueryAdmits(sessionKey, get, tokens, today) ==>
            e.session == session - {sessionKey} && e.logged == [])
      && (!IsAdminPath(path) && !SessionAdmits(sessionKey, session, today) && QueryAdmits(sessionKey, get, tokens, today) ==>
            && e.session == session[sessionKey := tokens[get[sessionKey]]]
            && e.logged == [AccessTokenUsage(tokens[get[sessionKey]].token, now, MetaOrUnknown(meta, "HTTP_X_FORWARDED_FOR"),
                                             MetaOrUnknown(meta, "HTTP_USER_AGENT"))])
      && (forall k :: k != sessionKey ==> (k in e.session <==> k in session))
      && (forall k :: k != sessionKey && k in session ==> e.session[k] == session[k])
  {
    var e := Process(sessionKey, path, get, meta, session, tokens, today, now);
    if !IsAdminPath(path) && !SessionAdmits(sessionKey, session, today) && QueryAdmits(sessionKey, get, tokens, today) {
      assert (session - {sessionKey})[sessionKey := tokens[get[sessionKey]]] == session[sessionKey := tokens[get[sessionKey]]];
    }
  }

  /**
   * A usage is logged only when a token is first seen: after a query string
   * entry, the next request of the same session on the same day passes on its
   * session, whatever its path and query string, and logs nothing.
   */
  lemma LoggedOnlyOnEntry(sessionKey: string, path: string, get: map<string, string>,
                          meta: map<string, string>, session: map<string, AccessToken>,
                          tokens: map<string, AccessToken>, today: int, now: int,
                          path2: string, get2: map<string, string>, meta2: map<string, string>,
                          now2: int)
    requires Process(sessionKey, path, get, meta, session, tokens, today, now).logged != []
    ensures var e := Process(sessionKey, path, get, meta, session, tokens, today, now);
      Process(sessionKey, path2, get2, meta2, e.session, tokens, today, now2) == Effect(Allow, e.session, [])
  {
    var e := Process(sessionKey, path, get, meta, session, tokens, today, now);
    ProcessEffects(sessionKey, path, get, meta, session, tokens, today, now);
    assert SessionAdmits(sessionKey, e.session, today);
  }

  class PerimeterAccessMiddleware {
    const sessionKey: string

    constructor (sessionKey: string)
      ensures this.sessionKey == sessionKey
    {
      this.sessionKey := sessionKey;
    }

    /**
     * `__init__`: refused when the enabling setting is missing or falsy;
     * otherwise the session key is the configured one or `'pt'`.
     */
    static method Create(enabled: Option<PyValue>, sessionKey: Option<string>)
      returns (r: Result<PerimeterAccessMiddleware, InitError>)
      ensures r.Failure? <==> enabled.None? || !Truthy(enabled.value)
      ensures r.Success? ==> fresh(r.value) && r.value.sessionKey == sessionKey.GetOr(DefaultSessionKey)
    {
      var check := CheckEnabled(enabled);
      if check.Failure? {
        return Failure(MiddlewareNotUsed);
      }
      var m := new PerimeterAccessMiddleware(sessionKey.GetOr(DefaultSessionKey));
      r := Success(m);
    }

    /** `process_request`: the session and the usage log change as `Process` says, nothing else. */
    method ProcessRequest(request: LegacyRequest, store: LegacyStore, today: int, now: int) returns (o: Outcome)
      requires store.Valid()
      modifies request`session, store`usages
      ensures store.Valid()
      ensures var e := Process(sessionKey, request.path, request.get, request.meta, old(request.session),
                               store.tokens, today, now);
        o == e.outcome && request.session == e.session && store.usages == old(store.usages) + e.logged
    {
      assert store.usages + [] == store.usages;
      if |request.path| >= |AdminPrefix| && request.path[..|AdminPrefix|] == AdminPrefix {
        return Allow;
      }
      if sessionKey in request.session {
        var token := request.session[sessionKey];
        if IsValid(token, today) {
          return Allow;
        }
        request.session := request.session - {sessionKey};
      } else {
        assert request.session - {sessionKey} == request.session;
      }
      if sessionKey in request.get && request.get[sessionKey] != "" {
        var tokenId := request.get[sessionKey];
        if tokenId in store.tokens {
          var token := store.tokens[tokenId];
          if IsValid(token, today) {
            var ip := MetaOrUnknown(request.meta, "HTTP_X_FORWARDED_FOR");
            var ua := MetaOrUnknown(request.meta, "HTTP_USER_AGENT");
            var _ := store.RecordUsage(token, now, ip, ua);
            request.session := request.session[sessionKey := token];
            o := Allow;
          } else {
            o := DeniedReturned;
          }
        } else {
          o := DeniedReturned;
        }
      } else {
        o := DeniedRaised;
      }
    }
  }
}
